/**
  One-way CalDAV synchronisation into the local calendar table. A sync visits the calendars of the
  account one by one; each is taken over unchanged (same collection tag), brought up to date by a
  sync-token delta (section 3 of RFC 6578), or scanned in full; at the end the rows that no calendar
  vouched for are pruned.

  The truth about the server is given by two maps from resource addresses to resources: what the
  local rows stood for before, and what the server holds now.
 */
module CalDav {

  datatype Option<T> = None | Some(value: T)

  /** One VEVENT; `stamp` is its start as it is written into event ids. */
  datatype VEvent = VEvent(uid: string, start: Option<int>, end: Option<int>, stamp: string, repeats: bool, body: string)

  /** A calendar resource; `instances` is the expansion of its recurrences in the sync window. */
  datatype Resource = Resource(href: string, etag: string, calendar: string, vevents: seq<VEvent>, instances: seq<VEvent>)

  datatype Row = Row(caldav: bool, calendar: string, href: string, uid: string, etag: string, body: string)

  type Rows = map<string, Row>
  type Server = map<string, Resource>

  datatype Window = Window(start: int, end: int)

  // ------------------------------------------------------------------ what the server's data means

  /** `_expand_component` */
  function Expand(r: Resource): seq<VEvent> {
    if exists i :: 0 <= i < |r.vevents| && r.vevents[i].repeats then r.instances else r.vevents
  }

  /** `_vevent_in_window` */
  predicate InWindow(v: VEvent, w: Window) {
    v.start.None? || (v.start.value <= w.end && (if v.end.Some? then v.end.value else v.start.value) >= w.start)
  }

  /** Events without an id, a start or an end are not stored. */
  predicate Storable(v: VEvent) {
    v.uid != "" && v.start.Some? && v.end.Some?
  }

  function EventId(v: VEvent): string {
    "caldav:" + v.uid + ":" + v.stamp
  }

  function RowOf(v: VEvent, r: Resource): Row {
    Row(true, r.calendar, r.href, v.uid, r.etag, v.body)
  }

  function RowsOf(vs: seq<VEvent>, r: Resource): Rows {
    if vs == [] then map[]
    else
      var rest, v := RowsOf(vs[..|vs| - 1], r), vs[|vs| - 1];
      if Storable(v) then rest[EventId(v) := RowOf(v, r)] else rest
  }

  function OnlyInWindow(vs: seq<VEvent>, w: Window): seq<VEvent> {
    if vs == [] then []
    else OnlyInWindow(vs[..|vs| - 1], w) + (if InWindow(vs[|vs| - 1], w) then [vs[|vs| - 1]] else [])
  }

  /** The rows of a resource: its expanded events in the window. */
  function Due(r: Resource, w: Window): Rows {
    RowsOf(OnlyInWindow(Expand(r), w), r)
  }

  lemma {:induction false} RowsKnowTheirResource(vs: seq<VEvent>, r: Resource)
    ensures forall id :: id in RowsOf(vs, r) ==>
              var row := RowsOf(vs, r)[id];
              row.caldav && row.href == r.href && row.calendar == r.calendar && row.etag == r.etag
  {
    if vs != [] {
      RowsKnowTheirResource(vs[..|vs| - 1], r);
    }
  }

  // ------------------------------------------------------------------ the table

  /** Upserting: rows of other sources are never overwritten. */
  function Upserted(rows: Rows, id: string, row: Row): Rows {
    if id in rows && !rows[id].caldav then rows else rows[id := row]
  }

  function Overlay(rows: Rows, more: Rows): Rows {
    map id | id in rows.Keys + more.Keys ::
      if id in more && (id !in rows || rows[id].caldav) then more[id] else rows[id]
  }

  /** Rows without those of one resource. */
  function Without(rows: Rows, href: string): Rows {
    map id | id in rows && !(rows[id].caldav && rows[id].href == href) :: rows[id]
  }

  function Kept(rows: Rows, seen: set<string>): Rows {
    map id | id in rows && (!rows[id].caldav || id in seen) :: rows[id]
  }

  function IdsOfCalendar(rows: Rows, calendar: string): set<string> {
    set id | id in rows && rows[id].caldav && rows[id].calendar == calendar
  }

  function IdsOfVersion(rows: Rows, href: string, etag: string): set<string> {
    set id | id in rows && rows[id].caldav && rows[id].href == href && rows[id].etag == etag
  }

  /** The rows of other sources. */
  function Others(rows: Rows): Rows {
    map id | id in rows && !rows[id].caldav :: rows[id]
  }

  lemma OverlayKeepsOthers(rows: Rows, more: Rows)
    requires forall id :: id in more ==> more[id].caldav
    ensures Others(Overlay(rows, more)) == Others(rows)
  {
  }

  lemma OverlayMore(rows: Rows, more: Rows, id: string, row: Row)
    requires row.caldav && forall k :: k in more ==> more[k].caldav
    ensures Upserted(Overlay(rows, more), id, row) == Overlay(rows, more[id := row])
  {
  }

  // ------------------------------------------------------------------ the invariant

  /** The fixed parameters of one sync: the window and the two server states. */
  datatype World = World(w: Window, before: Server, now: Server) {

    function Old(h: string): Rows {
      if h in before then Due(before[h], w) else map[]
    }

    function New(h: string): Rows {
      if h in now then Due(now[h], w) else map[]
    }

    predicate IsOld(id: string, row: Row) {
      id in Old(row.href) && Old(row.href)[id] == row
    }

    predicate IsNew(id: string, row: Row) {
      id in New(row.href) && New(row.href)[id] == row
    }

    /** Addresses are keys and keep their calendar, no event belongs to two resources, and an entity
        tag stands for one content. */
    ghost predicate Sound() {
      && (forall h :: h in before ==> before[h].href == h != "")
      && (forall h :: h in now ==> now[h].href == h != "")
      && (forall h :: h in before && h in now ==> before[h].calendar == now[h].calendar)
      && (forall h, h' :: h in now && h' in now && h != h' ==> New(h).Keys !! New(h').Keys)
      && (forall h :: h in before && h in now && before[h].etag == now[h].etag != "" ==> before[h] == now[h])
    }

    /** The addresses of one calendar, before or now. */
    function Addresses(calendar: string): set<string> {
      (set h | h in before && before[h].calendar == calendar) + (set h | h in now && now[h].calendar == calendar)
    }

    /** The table holds exactly what the server held: rows of other sources aside, every row is an
        event in the window and every event in the window has its row. */
    ghost predicate Reflects(rows: Rows, server: Server) {
      && (forall id :: id in rows && rows[id].caldav ==>
            rows[id].href in server && id in Due(server[rows[id].href], w) && Due(server[rows[id].href], w)[id] == rows[id])
      && (forall h, id :: h in server && id in Due(server[h], w) ==>
            id in rows && (!rows[id].caldav || rows[id] == Due(server[h], w)[id]))
    }

    /** Every row is an event of the resource it names, an earlier one or, once the address has been
        touched, a present one. */
    ghost predicate Known(rows: Rows, touched: set<string>) {
      forall id :: id in rows && rows[id].caldav ==>
        IsOld(id, rows[id]) || (rows[id].href in touched && IsNew(id, rows[id]))
    }

    /** Every present event of these addresses has its row. */
    ghost predicate Present(rows: Rows, begun: set<string>) {
      forall h, id :: h in begun && id in New(h) ==> id in rows && (!rows[id].caldav || rows[id] == New(h)[id])
    }

    /** ... and has been vouched for. */
    ghost predicate Vouched(rows: Rows, seen: set<string>, done: set<string>) {
      forall h, id :: h in done && id in New(h) ==>
        id in rows && (!rows[id].caldav || (rows[id] == New(h)[id] && id in seen))
    }

    /** Only present events of these addresses are vouched for. */
    ghost predicate Rightly(rows: Rows, seen: set<string>, done: set<string>) {
      forall id :: id in seen ==> id in rows && (rows[id].caldav ==> IsNew(id, rows[id]) && rows[id].href in done)
    }

    /** The rows of the other addresses stand, unless a present event took one over. */
    ghost predicate Standing(rows: Rows, touched: set<string>) {
      forall h, id :: h !in touched && id in Old(h) ==>
        id in rows && (!rows[id].caldav || rows[id] == Old(h)[id] || (IsNew(id, rows[id]) && rows[id].href in touched))
    }

    /** Half way: the addresses in `done` are finished, those in `begun` are up to date but not yet
        vouched for, and the rest is as it was. */
    ghost predicate HalfWay(rows: Rows, seen: set<string>, done: set<string>, begun: set<string>) {
      && Known(rows, done + begun) && Present(rows, begun) && Vouched(rows, seen, done)
      && Rightly(rows, seen, done) && Standing(rows, done + begun)
    }

    lemma OldKnows(h: string)
      requires Sound()
      ensures forall id :: id in Old(h) ==>
                var row := Old(h)[id];
                row.caldav && row.href == h && h in before && row.calendar == before[h].calendar && row.etag == before[h].etag
    {
      if h in before {
        RowsKnowTheirResource(OnlyInWindow(Expand(before[h]), w), before[h]);
      }
    }

    lemma NewKnows(h: string)
      requires Sound()
      ensures forall id :: id in New(h) ==>
                var row := New(h)[id];
                row.caldav && row.href == h && h in now && row.calendar == now[h].calendar && row.etag == now[h].etag
    {
      if h in now {
        RowsKnowTheirResource(OnlyInWindow(Expand(now[h]), w), now[h]);
      }
    }

    /** An event has one resource. */
    lemma OneHome(h: string, h': string, id: string)
      requires Sound() && id in New(h) && id in New(h')
      ensures h == h'
    {
    }

    lemma Start(rows: Rows)
      requires Reflects(rows, before)
      ensures HalfWay(rows, {}, {}, {})
    {
    }

    function Refreshed(rows: Rows, h: string): Rows {
      Overlay(Without(rows, h), New(h))
    }

    lemma GoneIsRefreshed(rows: Rows, h: string)
      requires h !in now
      ensures Refreshed(rows, h) == Without(rows, h)
    {
    }

    /** No row belongs to an address that the server never had. */
    lemma StrangerIsNothing(rows: Rows, seen: set<string>, done: set<string>, begun: set<string>, h: string)
      requires Sound() && HalfWay(rows, seen, done, begun) && h !in before && h !in now
      ensures Refreshed(rows, h) == rows
    {
      GoneIsRefreshed(rows, h);
      forall id | id in rows ensures !(rows[id].caldav && rows[id].href == h) {
      }
    }

    lemma RefreshKnown(rows: Rows, touched: set<string>, h: string)
      requires Sound() && Known(rows, touched)
      ensures Known(Refreshed(rows, h), touched + {h})
    {
      NewKnows(h);
    }

    lemma RefreshPresent(rows: Rows, begun: set<string>, h: string)
      requires Sound() && Present(rows, begun)
      ensures Present(Refreshed(rows, h), begun + {h})
    {
      NewKnows(h);
      var rows' := Refreshed(rows, h);
      forall g, id | g in begun + {h} && id in New(g)
        ensures id in rows' && (!rows'[id].caldav || rows'[id] == New(g)[id])
      {
        NewKnows(g);
        if id in New(h) {
          OneHome(g, h, id);
        }
      }
    }

    lemma RefreshVouched(rows: Rows, seen: set<string>, done: set<string>, h: string)
      requires Sound() && Vouched(rows, seen, done) && h !in done
      ensures Vouched(Refreshed(rows, h), seen, done)
    {
      NewKnows(h);
      var rows' := Refreshed(rows, h);
      forall g, id | g in done && id in New(g)
        ensures id in rows' && (!rows'[id].caldav || (rows'[id] == New(g)[id] && id in seen))
      {
        NewKnows(g);
        if id in New(h) {
          OneHome(g, h, id);
        }
      }
    }

    lemma RefreshRightly(rows: Rows, seen: set<string>, done: set<string>, h: string)
      requires Sound() && Rightly(rows, seen, done) && h !in done
      ensures Rightly(Refreshed(rows, h), seen, done)
    {
      NewKnows(h);
      var rows' := Refreshed(rows, h);
      forall id | id in seen
        ensures id in rows' && (rows'[id].caldav ==> IsNew(id, rows'[id]) && rows'[id].href in done)
      {
        if id in New(h) && rows[id].caldav {
          OneHome(h, rows[id].href, id);
        }
      }
    }

    lemma RefreshStanding(rows: Rows, touched: set<string>, h: string)
      requires Sound() && Standing(rows, touched)
      ensures Standing(Refreshed(rows, h), touched + {h})
    {
      NewKnows(h);
      var rows' := Refreshed(rows, h);
      forall g, id | g !in touched + {h} && id in Old(g)
        ensures id in rows'
        ensures !rows'[id].caldav || rows'[id] == Old(g)[id] || (IsNew(id, rows'[id]) && rows'[id].href in touched + {h})
      {
        OldKnows(g);
      }
    }

    /** A delta replaces the rows of one resource by its new ones, if it still exists. */
    lemma DeltaStep(rows: Rows, seen: set<string>, done: set<string>, begun: set<string>, h: string)
      requires Sound() && HalfWay(rows, seen, done, begun) && h !in done
      ensures HalfWay(Refreshed(rows, h), seen, done, begun + {h})
    {
      RefreshKnown(rows, done + begun, h);
      RefreshPresent(rows, begun, h);
      RefreshVouched(rows, seen, done, h);
      RefreshRightly(rows, seen, done, h);
      RefreshStanding(rows, done + begun, h);
      assert done + begun + {h} == done + (begun + {h});
    }

    // -------------------------------------------------------------- finishing a calendar

    /** The server holds the same at this address as before. */
    predicate Unchanged(h: string) {
      if h in before then h in now && now[h] == before[h] else h !in now
    }

    /** No row of a touched address is out of date. */
    ghost predicate Clean(rows: Rows, begun: set<string>) {
      forall id :: id in rows && rows[id].caldav && rows[id].href in begun ==> IsNew(id, rows[id])
    }

    lemma RefreshClean(rows: Rows, begun: set<string>, h: string)
      requires Sound() && Clean(rows, begun)
      ensures Clean(Refreshed(rows, h), begun + {h})
    {
      NewKnows(h);
    }

    lemma TouchMore(rows: Rows, touched: set<string>, more: set<string>)
      requires touched <= more
      ensures Known(rows, touched) ==> Known(rows, more)
      ensures Standing(rows, touched) ==> Standing(rows, more)
    {
    }

    lemma OwnRowIsNew(rows: Rows, seen: set<string>, done: set<string>, all: set<string>, begun: set<string>, calendar: string, id: string)
      requires Sound() && HalfWay(rows, seen, done, all) && Clean(rows, begun)
      requires forall h :: h in Addresses(calendar) - begun ==> Unchanged(h)
      requires id in IdsOfCalendar(rows, calendar)
      ensures IsNew(id, rows[id]) && rows[id].href in Addresses(calendar)
    {
      var h := rows[id].href;
      OldKnows(h);
      NewKnows(h);
      assert h in Addresses(calendar);
      if h !in begun {
        assert Unchanged(h) && Old(h) == New(h);
      }
    }

    lemma StandingIsPresent(rows: Rows, seen: set<string>, done: set<string>, begun: set<string>, h: string, id: string)
      requires Sound() && HalfWay(rows, seen, done, begun)
      requires h !in done + begun && Unchanged(h) && id in New(h)
      ensures id in rows && (!rows[id].caldav || rows[id] == New(h)[id])
    {
      assert Old(h) == New(h);
      if rows[id].caldav && rows[id] != New(h)[id] {
        OneHome(h, rows[id].href, id);
      }
    }

    /** After a delta, or when the whole calendar is unchanged, all its rows are vouched for. The
        addresses in `loose` belong to calendars that were given up half way. */
    lemma FinishCurrent(rows: Rows, seen: set<string>, done: set<string>, loose: set<string>, begun: set<string>, calendar: string)
      requires Sound() && HalfWay(rows, seen, done, loose + begun) && Clean(rows, begun)
      requires begun <= Addresses(calendar) && Addresses(calendar) !! done && Addresses(calendar) !! loose
      requires forall h :: h in Addresses(calendar) - begun ==> Unchanged(h)
      ensures HalfWay(rows, seen + IdsOfCalendar(rows, calendar), done + Addresses(calendar), loose)
    {
      var all, own := done + Addresses(calendar), IdsOfCalendar(rows, calendar);
      TouchMore(rows, done + (loose + begun), all + loose);
      forall h, id | h in all && id in New(h)
        ensures id in rows && (!rows[id].caldav || (rows[id] == New(h)[id] && id in seen + own))
      {
        if h !in done {
          NewKnows(h);
          if h !in begun {
            StandingIsPresent(rows, seen, done, loose + begun, h, id);
          }
        }
      }
      forall id | id in seen + own
        ensures id in rows && (rows[id].caldav ==> IsNew(id, rows[id]) && rows[id].href in all)
      {
        if id in own {
          OwnRowIsNew(rows, seen, done, loose + begun, begun, calendar, id);
        }
      }
    }

    /** An unchanged resource of a full scan is reused: its rows are vouched for. */
    lemma ScanReuse(rows: Rows, seen: set<string>, done: set<string>, begun: set<string>, h: string)
      requires Sound() && HalfWay(rows, seen, done, begun)
      requires h in now && now[h].etag != "" && IdsOfVersion(rows, h, now[h].etag) != {}
      ensures HalfWay(rows, seen + IdsOfVersion(rows, h, now[h].etag), done + {h}, begun)
    {
      var ids := IdsOfVersion(rows, h, now[h].etag);
      TouchMore(rows, done + begun, done + {h} + begun);
      OldKnows(h);
      NewKnows(h);
      forall id | id in ids ensures IsNew(id, rows[id]) {
      }
      forall g, id | g in done + {h} && id in New(g)
        ensures id in rows && (!rows[id].caldav || (rows[id] == New(g)[id] && id in seen + ids))
      {
        if g == h && h !in done && h !in begun {
          var first :| first in ids;
          assert IsOld(first, rows[first]);
          StandingIsPresent(rows, seen, done, begun, h, id);
        }
      }
    }

    function Scanned(rows: Rows, h: string): Rows {
      Overlay(rows, New(h))
    }

    /** A fetched resource of a full scan is upserted. */
    lemma ScanUpsert(rows: Rows, seen: set<string>, done: set<string>, begun: set<string>, h: string)
      requires Sound() && HalfWay(rows, seen, done, begun)
      ensures HalfWay(Scanned(rows, h), seen + New(h).Keys, done + {h}, begun)
    {
      ScanVouched(rows, seen, done, h);
      ScanPresent(rows, begun, h);
      ScanRest(rows, done + begun, h);
      assert done + begun + {h} == done + {h} + begun;
      ScanRightly(rows, seen, done, h);
    }

    lemma ScanVouched(rows: Rows, seen: set<string>, done: set<string>, h: string)
      requires Sound() && Vouched(rows, seen, done)
      ensures Vouched(Scanned(rows, h), seen + New(h).Keys, done + {h})
    {
      var rows' := Scanned(rows, h);
      NewKnows(h);
      forall g, id | g in done + {h} && id in New(g)
        ensures id in rows' && (!rows'[id].caldav || (rows'[id] == New(g)[id] && id in seen + New(h).Keys))
      {
        if id in New(h) {
          OneHome(g, h, id);
        }
      }
    }

    lemma ScanPresent(rows: Rows, begun: set<string>, h: string)
      requires Sound() && Present(rows, begun)
      ensures Present(Scanned(rows, h), begun)
    {
      var rows' := Scanned(rows, h);
      NewKnows(h);
      forall g, id | g in begun && id in New(g)
        ensures id in rows' && (!rows'[id].caldav || rows'[id] == New(g)[id])
      {
        if id in New(h) {
          OneHome(g, h, id);
        }
      }
    }

    lemma ScanRightly(rows: Rows, seen: set<string>, done: set<string>, h: string)
      requires Sound() && Rightly(rows, seen, done)
      ensures Rightly(Scanned(rows, h), seen + New(h).Keys, done + {h})
    {
      NewKnows(h);
    }

    lemma ScanRest(rows: Rows, touched: set<string>, h: string)
      requires Sound() && Known(rows, touched) && Standing(rows, touched)
      ensures Known(Scanned(rows, h), touched + {h}) && Standing(Scanned(rows, h), touched + {h})
    {
      NewKnows(h);
    }

    /** After a full scan that fetched every resource with events in the window. */
    lemma FinishScan(rows: Rows, seen: set<string>, base: set<string>, fetched: set<string>, loose: set<string>, begun: set<string>, calendar: string)
      requires Sound() && HalfWay(rows, seen, base + fetched, loose + begun)
      requires begun <= Addresses(calendar) && fetched <= Addresses(calendar)
      requires forall h :: h in Addresses(calendar) - fetched ==> New(h) == map[]
      ensures HalfWay(rows, seen, base + Addresses(calendar), loose)
    {
      TouchMore(rows, base + fetched + (loose + begun), base + Addresses(calendar) + loose);
    }

    lemma AddressesApart(k: string, k': string)
      requires Sound() && k != k'
      ensures Addresses(k) !! Addresses(k')
    {
    }

    /** When nothing was vouched for, nothing is pruned: the table is right only if it is empty. */
    lemma NothingSeen(rows: Rows, done: set<string>)
      requires Sound() && HalfWay(rows, {}, done, {}) && now.Keys <= done
      ensures Reflects(rows, now) <==> forall id :: id in rows ==> !rows[id].caldav
    {
      forall h, id | h in now && id in Due(now[h], w) ensures id in rows && !rows[id].caldav {
        assert h in done && id in New(h);
      }
    }

    /** What the server holds determines the table. */
    lemma ReflectsOnce(rows: Rows, rows': Rows, server: Server)
      requires Reflects(rows, server) && Reflects(rows', server) && Others(rows) == Others(rows')
      ensures rows == rows'
    {
      forall id ensures id in rows <==> id in rows' {
        assert id in Others(rows) <==> id in Others(rows');
        if id in rows && rows[id].caldav {
          assert id in Due(server[rows[id].href], w);
        }
        if id in rows' && rows'[id].caldav {
          assert id in Due(server[rows'[id].href], w);
        }
      }
      forall id | id in rows ensures rows[id] == rows'[id] {
        assert id in Others(rows) <==> id in Others(rows');
        if rows[id].caldav {
          assert id in Due(server[rows[id].href], w);
        }
      }
    }

    /** Pruning at the end leaves exactly what the server holds. */
    lemma PruneReflects(rows: Rows, seen: set<string>, done: set<string>)
      requires Sound() && HalfWay(rows, seen, done, {}) && now.Keys <= done
      ensures Reflects(Kept(rows, seen), now)
    {
      var rows' := Kept(rows, seen);
      forall id | id in rows' && rows'[id].caldav
        ensures rows'[id].href in now && IsNew(id, rows'[id])
      {
        NewKnows(rows[id].href);
      }
      forall h, id | h in now && id in Due(now[h], w)
        ensures id in rows' && (!rows'[id].caldav || rows'[id] == Due(now[h], w)[id])
      {
        assert id in New(h);
      }
    }
  }

  // ------------------------------------------------------------------ the service

  datatype Load = Gone(href: string) | Loaded(resource: Resource) | Failed(href: string)

  datatype Delta = Unavailable | Updates(token: string, loads: seq<Load>)

  /** What the server answers about one calendar in one sync. */
  datatype Calendar = Calendar(key: string, ctag: string, delta: Delta, fetched: Option<seq<Resource>>, bootstrap: string)

  /** What the last scan of a calendar stored. */
  datatype Collection = Collection(ctag: string, token: string, count: nat)

  predicate Usable(token: string) {
    token != "" && !("fake-" <= token)
  }

  /** A delta for this token that names every changed resource, each as it is. */
  ghost predicate HonestDelta(world: World, key: string, loads: seq<Load>) {
    && (forall h :: h in world.Addresses(key) && !world.Unchanged(h) ==> exists i :: 0 <= i < |loads| && LoadHref(loads[i]) == h)
    && forall i :: 0 <= i < |loads| ==> HonestLoad(world, key, loads[i])
  }

  ghost predicate HonestLoad(world: World, key: string, load: Load) {
    match load
    case Loaded(r) => r.href in world.now && world.now[r.href] == r && r.calendar == key
    case Gone(h) => h != "" && h !in world.now && (h in world.before ==> world.before[h].calendar == key)
    case Failed(_) => true
  }

  function LoadHref(l: Load): string {
    match l
    case Gone(h) => h
    case Loaded(r) => r.href
    case Failed(h) => h
  }

  ghost predicate HonestResource(world: World, key: string, r: Resource) {
    && r.href in world.now && world.now[r.href] == r && r.calendar == key
    && RowsOf(Expand(r), r) == Due(r, world.w)
  }

  /** A scan that fetches every resource with events in the window, whole or not at all. */
  ghost predicate HonestScan(world: World, key: string, rs: seq<Resource>) {
    && (forall i :: 0 <= i < |rs| ==> HonestResource(world, key, rs[i]))
    && (forall h :: h in world.now && world.now[h].calendar == key && world.New(h) != map[] ==>
          exists i :: 0 <= i < |rs| && rs[i].href == h)
  }

  ghost predicate HonestCalendar(world: World, c: Calendar, stored: map<string, Collection>) {
    && c.key != ""
    && (c.key in stored && stored[c.key].ctag == c.ctag != "" ==>
          forall h :: h in world.Addresses(c.key) ==> world.Unchanged(h))
    && (c.key in stored && Usable(stored[c.key].token) && c.delta.Updates? ==> HonestDelta(world, c.key, c.delta.loads))
    && (c.fetched.Some? ==> HonestScan(world, c.key, c.fetched.value))
  }

  function WithoutUid(rows: Rows, uid: string, calendar: string): Rows {
    map id | id in rows && !(rows[id].caldav && rows[id].uid == uid && (calendar != "" ==> rows[id].calendar == calendar)) :: rows[id]
  }

  lemma {:induction false} WindowStep(vs: seq<VEvent>, i: nat, w: Window)
    requires i < |vs|
    ensures OnlyInWindow(vs[..i + 1], w) == OnlyInWindow(vs[..i], w) + (if InWindow(vs[i], w) then [vs[i]] else [])
  {
    assert vs[..i + 1][..i] == vs[..i];
  }

  lemma RowsStep(vs: seq<VEvent>, v: VEvent, r: Resource)
    ensures RowsOf(vs + [v], r) == if Storable(v) then RowsOf(vs, r)[EventId(v) := RowOf(v, r)] else RowsOf(vs, r)
  {
    assert (vs + [v])[..|vs|] == vs;
  }

  function Hrefs(rs: seq<Resource>): set<string> {
    if rs == [] then {} else Hrefs(rs[..|rs| - 1]) + {rs[|rs| - 1].href}
  }

  lemma {:induction false} HrefsAre(rs: seq<Resource>)
    ensures forall h :: h in Hrefs(rs) <==> exists i :: 0 <= i < |rs| && rs[i].href == h
  {
    if rs != [] {
      HrefsAre(rs[..|rs| - 1]);
    }
  }

  predicate DistinctKeys(cals: seq<Calendar>) {
    forall i, j :: 0 <= i < j < |cals| ==> cals[i].key != cals[j].key
  }

  /** Which addresses are finished and which calendars were given up, after some of the calendars. */
  ghost predicate Visited(world: World, cals: seq<Calendar>, visited: nat, done: set<string>, loose: set<string>, failed: set<string>)
    requires visited <= |cals|
  {
    && (forall k :: k in failed ==>
          world.Addresses(k) !! done && exists i :: 0 <= i < visited && cals[i].fetched.None? && cals[i].key == k)
    && (failed == {} ==> loose == {} && forall i :: 0 <= i < visited ==> world.Addresses(cals[i].key) <= done)
    && (forall h :: h in done + loose ==> exists i :: 0 <= i < visited && h in world.Addresses(cals[i].key))
  }

  lemma ApartFromVisited(world: World, cals: seq<Calendar>, visited: nat, done: set<string>, loose: set<string>, failed: set<string>)
    requires world.Sound() && visited < |cals| && DistinctKeys(cals)
    requires Visited(world, cals, visited, done, loose, failed)
    ensures world.Addresses(cals[visited].key) !! done && world.Addresses(cals[visited].key) !! loose
  {
    forall h | h in done + loose ensures h !in world.Addresses(cals[visited].key) {
      var i :| 0 <= i < visited && h in world.Addresses(cals[i].key);
      world.AddressesApart(cals[i].key, cals[visited].key);
    }
  }

  predicate NotVisited(cals: seq<Calendar>, visited: nat, key: string)
    requires visited <= |cals|
  {
    forall i :: 0 <= i < visited ==> cals[i].key != key
  }

  /** The rows of calendars that were not visited stand. */
  lemma UnvisitedStand(world: World, cals: seq<Calendar>, visited: nat, rows0: Rows, rows: Rows, seen: set<string>,
                       done: set<string>, loose: set<string>, failed: set<string>)
    requires world.Sound() && visited <= |cals| && Visited(world, cals, visited, done, loose, failed)
    requires world.Reflects(rows0, world.before) && world.HalfWay(rows, seen, done, loose) && Others(rows) == Others(rows0)
    ensures forall id :: id in rows0 && rows0[id].caldav && NotVisited(cals, visited, rows0[id].calendar) ==>
              id in rows && (rows[id] == rows0[id] || world.IsNew(id, rows[id]))
  {
    forall id | id in rows0 && rows0[id].caldav && NotVisited(cals, visited, rows0[id].calendar)
      ensures id in rows && (rows[id] == rows0[id] || world.IsNew(id, rows[id]))
    {
      var h := rows0[id].href;
      world.OldKnows(h);
      assert id in world.Old(h) && h in world.Addresses(rows0[id].calendar);
      if h in done + loose {
        var i :| 0 <= i < visited && h in world.Addresses(cals[i].key);
        world.AddressesApart(cals[i].key, rows0[id].calendar);
      }
      assert id in Others(rows) <==> id in Others(rows0);
    }
  }

  lemma VisitOne(world: World, cals: seq<Calendar>, visited: nat, done: set<string>, loose: set<string>, failed: set<string>,
                 done': set<string>, loose': set<string>)
    requires world.Sound() && visited < |cals| && DistinctKeys(cals)
    requires Visited(world, cals, visited, done, loose, failed)
    requires loose <= loose' <= loose + world.Addresses(cals[visited].key)
    requires (done' == done + world.Addresses(cals[visited].key) && loose' == loose) || (cals[visited].fetched.None? && done' == done)
    ensures done' == done + world.Addresses(cals[visited].key) && loose' == loose ==>
              Visited(world, cals, visited + 1, done', loose', failed)
    ensures cals[visited].fetched.None? && done' == done ==>
              Visited(world, cals, visited + 1, done', loose', failed + {cals[visited].key})
  {
    var key := cals[visited].key;
    ApartFromVisited(world, cals, visited, done, loose, failed);
    forall k | k in failed ensures world.Addresses(k) !! done' {
      var i :| 0 <= i < visited && cals[i].fetched.None? && cals[i].key == k;
      world.AddressesApart(k, key);
    }
    forall h | h in done' + loose' ensures exists i :: 0 <= i < visited + 1 && h in world.Addresses(cals[i].key) {
      if h in world.Addresses(key) {
        assert h in world.Addresses(cals[visited].key);
      } else {
        assert h in done + loose;
        var i :| 0 <= i < visited && h in world.Addresses(cals[i].key);
      }
    }
  }

  /** Without that honesty the two paths differ: a resource with one event in the window and one
      outside is scanned whole, while a delta keeps only the first. */
  lemma MixedResourceDiffers(r: Resource, a: VEvent, b: VEvent, w: Window)
    requires r.vevents == [a, b] && !a.repeats && !b.repeats && Storable(a) && Storable(b)
    requires InWindow(a, w) && !InWindow(b, w) && EventId(a) != EventId(b)
    ensures RowsOf(Expand(r), r).Keys == {EventId(a), EventId(b)} && Due(r, w).Keys == {EventId(a)}
  {
    assert Expand(r) == [a, b];
    assert [a, b] == [] + [a] + [b] && [a, b][..0] == [] && [a, b][..1] == [a] && [a, b][..2] == [a, b];
    WindowStep([a, b], 0, w);
    WindowStep([a, b], 1, w);
    RowsStep([], a, r);
    RowsStep([a], b, r);
    assert [] + [a] == [a] && [a] + [b] == [a, b] && [a] + [] == [a];
  }

  // ------------------------------------------------------------------ one event in two calendars

  /** No event in the window belongs to two resources. Event ids carry neither calendar nor address,
      so an invitation held in two calendars breaks this. */
  ghost predicate OwnEvents(server: Server, w: Window) {
    forall h, h' :: h in server && h' in server && h != h' ==> Due(server[h], w).Keys !! Due(server[h'], w).Keys
  }

  ghost function TheRow(server: Server, w: Window, id: string): Row
    requires exists h :: h in server && id in Due(server[h], w)
  {
    var h :| h in server && id in Due(server[h], w);
    Due(server[h], w)[id]
  }

  ghost function TheRows(server: Server, w: Window): Rows {
    var ids := set h, id | h in server && id in Due(server[h], w) :: id;
    map id | id in ids :: TheRow(server, w, id)
  }

  lemma TheRowsAreDue(server: Server, w: Window, id: string)
    requires id in TheRows(server, w)
    ensures exists h :: h in server && id in Due(server[h], w)
  {
  }

  lemma TheRowsAt(server: Server, w: Window, h: string, id: string)
    requires OwnEvents(server, w) && h in server && id in Due(server[h], w)
    ensures id in TheRows(server, w) && TheRows(server, w)[id] == Due(server[h], w)[id]
  {
    var g :| g in server && id in Due(server[g], w) && TheRow(server, w, id) == Due(server[g], w)[id];
    assert g == h;
  }

  /** The rows of a server without shared events. */
  lemma RowsForServer(world: World, server: Server) returns (rows: Rows)
    requires OwnEvents(server, world.w) && forall h :: h in server ==> server[h].href == h
    ensures world.Reflects(rows, server) && Others(rows) == map[]
  {
    rows := TheRows(server, world.w);
    forall h, id | h in server && id in Due(server[h], world.w)
      ensures id in rows && rows[id] == Due(server[h], world.w)[id] && rows[id].caldav && rows[id].href == h
    {
      RowsKnowTheirResource(OnlyInWindow(Expand(server[h]), world.w), server[h]);
      TheRowsAt(server, world.w, h, id);
    }
    forall id | id in rows ensures exists h :: h in server && id in Due(server[h], world.w) {
      TheRowsAreDue(server, world.w, id);
    }
  }

  lemma TableMeansOwn(world: World, server: Server, rows: Rows, h: string, h': string, id: string)
    requires world.Reflects(rows, server) && Others(rows) == map[]
    requires h in server && h' in server && server[h].href == h && server[h'].href == h'
    requires id in Due(server[h], world.w) && id in Due(server[h'], world.w)
    ensures h == h'
  {
    RowsKnowTheirResource(OnlyInWindow(Expand(server[h]), world.w), server[h]);
    RowsKnowTheirResource(OnlyInWindow(Expand(server[h']), world.w), server[h']);
    assert id in rows;
    assert !rows[id].caldav ==> id in Others(rows);
  }

  /** A table can hold exactly what a server holds if and only if the server has no shared event. */
  lemma TableExistsIff(world: World, server: Server)
    requires forall h :: h in server ==> server[h].href == h
    ensures (exists rows :: world.Reflects(rows, server) && Others(rows) == map[]) <==> OwnEvents(server, world.w)
  {
    if OwnEvents(server, world.w) {
      var rows := RowsForServer(world, server);
      assert world.Reflects(rows, server);
    }
    forall rows: Rows, h, h', id |
      && world.Reflects(rows, server) && Others(rows) == map[]
      && h in server && h' in server && id in Due(server[h], world.w) && id in Due(server[h'], world.w)
      ensures h == h'
    {
      TableMeansOwn(world, server, rows, h, h', id);
    }
  }

  /** With a shared event the delta path and the full scan differ. Both calendars hold the event and
      a scan has left the row of the second. When the second copy is deleted, its delta removes the
      row; the first calendar is unchanged and puts nothing back. A full scan would. */
  lemma SharedEventIsLost(w: Window, v: VEvent, r1: Resource, r2: Resource)
    requires !v.repeats && Storable(v) && InWindow(v, w)
    requires r1.vevents == [v] && r2.vevents == [v]
    requires r1.href != r2.href && r1.href != "" && r2.href != "" && r1.calendar != r2.calendar
    ensures var world := World(w, map[r1.href := r1, r2.href := r2], map[r1.href := r1]);
            var rows := Overlay(Overlay(map[], Due(r1, w)), Due(r2, w));
            var afterDelta, afterScan := world.Refreshed(rows, r2.href), Kept(world.Scanned(rows, r1.href), Due(r1, w).Keys);
            && world.Sound() && !OwnEvents(world.before, w) && OwnEvents(world.now, w)
            && HonestDelta(world, r2.calendar, [Gone(r2.href)]) && world.Unchanged(r1.href)
            && afterDelta == map[] && !world.Reflects(afterDelta, world.now)
            && afterScan == Due(r1, w) && world.Reflects(afterScan, world.now)
  {
    OneEventDue(w, v, r1);
    OneEventDue(w, v, r2);
    SharedWorld(w, v, r1, r2);
    SharedRows(w, v, r1, r2);
  }

  lemma SharedWorld(w: Window, v: VEvent, r1: Resource, r2: Resource)
    requires Due(r1, w) == map[EventId(v) := RowOf(v, r1)] && Due(r2, w) == map[EventId(v) := RowOf(v, r2)]
    requires r1.href != r2.href && r1.href != "" && r2.href != "" && r1.calendar != r2.calendar
    ensures var world := World(w, map[r1.href := r1, r2.href := r2], map[r1.href := r1]);
            && world.Sound() && !OwnEvents(world.before, w) && OwnEvents(world.now, w)
            && HonestDelta(world, r2.calendar, [Gone(r2.href)]) && world.Unchanged(r1.href)
            && world.New(r1.href) == Due(r1, w) && world.New(r2.href) == map[]
  {
    var world := World(w, map[r1.href := r1, r2.href := r2], map[r1.href := r1]);
    assert EventId(v) in Due(r1, w) && EventId(v) in Due(r2, w);
    assert r1.href in world.before && r2.href in world.before;
    assert LoadHref([Gone(r2.href)][0]) == r2.href;
    assert forall h :: h in world.Addresses(r2.calendar) ==> h == r2.href;
  }

  lemma SharedRows(w: Window, v: VEvent, r1: Resource, r2: Resource)
    requires Due(r1, w) == map[EventId(v) := RowOf(v, r1)] && Due(r2, w) == map[EventId(v) := RowOf(v, r2)]
    requires r1.href != r2.href
    ensures var world := World(w, map[r1.href := r1, r2.href := r2], map[r1.href := r1]);
            var rows := Overlay(Overlay(map[], Due(r1, w)), Due(r2, w));
            var afterDelta, afterScan := world.Refreshed(rows, r2.href), Kept(world.Scanned(rows, r1.href), Due(r1, w).Keys);
            && afterDelta == map[] && !world.Reflects(afterDelta, world.now)
            && afterScan == Due(r1, w) && world.Reflects(afterScan, world.now)
  {
    var world := World(w, map[r1.href := r1, r2.href := r2], map[r1.href := r1]);
    var rows := Overlay(Overlay(map[], Due(r1, w)), Due(r2, w));
    assert rows == map[EventId(v) := RowOf(v, r2)];
    assert world.New(r1.href) == Due(r1, w) && world.New(r2.href) == map[];
    assert Without(rows, r2.href) == map[];
    assert world.Scanned(rows, r1.href) == Due(r1, w);
    assert EventId(v) in Due(world.now[r1.href], w);
  }

  lemma OneEventDue(w: Window, v: VEvent, r: Resource)
    requires !v.repeats && Storable(v) && InWindow(v, w) && r.vevents == [v]
    ensures Due(r, w) == map[EventId(v) := RowOf(v, r)]
  {
    assert Expand(r) == [v] && [v][..0] == [] && [v] == [] + [v];
    assert OnlyInWindow([v], w) == OnlyInWindow([v][..0], w) + [v];
    RowsStep([], v, r);
  }

  class CalDavSync {
    var rows: Rows
    var collections: map<string, Collection>
    var checks: nat
    /** The stop event, as seen at each check; once set it stays set. */
    const stopped: nat -> bool

    constructor (rows: Rows, collections: map<string, Collection>, stopped: nat -> bool)
      ensures this.rows == rows && this.collections == collections && this.stopped == stopped
    {
      this.rows, this.collections, this.stopped, checks := rows, collections, stopped, 0;
    }

    method StopRequested() returns (b: bool)
      modifies this`checks
      ensures checks == old(checks) + 1 && b == stopped(old(checks))
    {
      b := stopped(checks);
      checks := checks + 1;
    }

    /** `_upsert_vevent`: the id is given back even where a row of another source stands. */
    method UpsertVevent(v: VEvent, r: Resource) returns (id: Option<string>)
      modifies this`rows
      ensures Others(rows) == Others(old(rows))
      ensures rows == if Storable(v) then Upserted(old(rows), EventId(v), RowOf(v, r)) else old(rows)
      ensures id == if Storable(v) then Some(EventId(v)) else None
    {
      if !Storable(v) {
        return None;
      }
      id := Some(EventId(v));
      if id.value in rows && !rows[id.value].caldav {
        return;
      }
      rows := rows[id.value := RowOf(v, r)];
    }

    /** `delete_caldav_events_by_resource` */
    method DeleteByResource(href: string, uid: string, calendar: string)
      modifies this`rows
      ensures Others(rows) == Others(old(rows))
      ensures href != "" ==> rows == Without(old(rows), href)
      ensures href == "" ==> rows == if uid == "" then old(rows) else WithoutUid(old(rows), uid, calendar)
    {
      if href != "" {
        rows := Without(rows, href);
      } else if uid != "" {
        rows := WithoutUid(rows, uid, calendar);
      }
    }

    method UpsertInWindow(r: Resource, w: Window)
      modifies this`rows
      ensures Others(rows) == Others(old(rows))
      ensures rows == Overlay(old(rows), Due(r, w))
    {
      var vs := Expand(r);
      ghost var start := rows;
      assert Overlay(start, map[]) == start;
      for i := 0 to |vs|
        invariant rows == Overlay(start, RowsOf(OnlyInWindow(vs[..i], w), r))
      {
        ghost var sofar := OnlyInWindow(vs[..i], w);
        WindowStep(vs, i, w);
        if InWindow(vs[i], w) {
          RowsStep(sofar, vs[i], r);
          RowsKnowTheirResource(sofar, r);
          OverlayMore(start, RowsOf(sofar, r), EventId(vs[i]), RowOf(vs[i], r));
          var _ := UpsertVevent(vs[i], r);
        } else {
          assert sofar + [] == sofar;
        }
      }
      assert vs[..|vs|] == vs;
      RowsKnowTheirResource(OnlyInWindow(vs, w), r);
      OverlayKeepsOthers(start, Due(r, w));
    }

    method UpsertAll(r: Resource) returns (ids: set<string>)
      modifies this`rows
      ensures Others(rows) == Others(old(rows))
      ensures rows == Overlay(old(rows), RowsOf(Expand(r), r))
      ensures ids == RowsOf(Expand(r), r).Keys
    {
      var vs := Expand(r);
      ids := {};
      ghost var start := rows;
      assert Overlay(start, map[]) == start;
      for i := 0 to |vs|
        invariant rows == Overlay(start, RowsOf(vs[..i], r))
        invariant ids == RowsOf(vs[..i], r).Keys
      {
        assert vs[..i + 1] == vs[..i] + [vs[i]];
        RowsStep(vs[..i], vs[i], r);
        RowsKnowTheirResource(vs[..i], r);
        OverlayMore(start, RowsOf(vs[..i], r), EventId(vs[i]), RowOf(vs[i], r));
        var id := UpsertVevent(vs[i], r);
        if id.Some? {
          ids := ids + {id.value};
        }
      }
      assert vs[..|vs|] == vs;
      RowsKnowTheirResource(vs, r);
      OverlayKeepsOthers(start, RowsOf(vs, r));
    }

    /** `_reuse_unchanged_calendar` */
    method ReuseUnchangedCalendar(c: Calendar) returns (ids: Option<set<string>>)
      ensures ids.Some? ==> c.key in collections && collections[c.key].ctag == c.ctag != ""
      ensures ids.Some? ==> ids.value == IdsOfCalendar(rows, c.key)
    {
      if c.key == "" || c.ctag == "" || c.key !in collections || collections[c.key].ctag != c.ctag {
        return None;
      }
      var existing := IdsOfCalendar(rows, c.key);
      if existing == {} && collections[c.key].count > 0 {
        return None;
      }
      ids := Some(existing);
    }

    /** `_reuse_unchanged_resource` */
    method ReuseUnchangedResource(r: Resource, key: string) returns (ids: Option<set<string>>)
      ensures ids.Some? ==> r.etag != "" && ids.value != {}
      ensures ids.Some? && r.href != "" ==> ids.value == IdsOfVersion(rows, r.href, r.etag)
    {
      if r.vevents == [] || r.vevents[0].repeats || r.etag == "" {
        return None;
      }
      var uid := r.vevents[0].uid;
      if r.href == "" && uid == "" {
        return None;
      }
      var existing := if r.href != "" then IdsOfVersion(rows, r.href, r.etag)
                      else set id | id in rows && rows[id].caldav && rows[id].uid == uid && rows[id].etag == r.etag
                                    && (key != "" ==> rows[id].calendar == key);
      ids := if existing == {} then None else Some(existing);
    }

    /** `_apply_sync_token_delta`: a resource that fails to load leaves the changes made so far and
        sends the calendar to a full scan. */
    method ApplyDelta(c: Calendar, w: Window, ghost world: World, ghost seen: set<string>, ghost done: set<string>, ghost loose: set<string>)
      returns (result: Option<(set<string>, string)>, ghost begun: set<string>)
      requires world.Sound() && world.HalfWay(rows, seen, done, loose) && world.w == w
      requires HonestCalendar(world, c, collections)
      requires world.Addresses(c.key) !! done && world.Addresses(c.key) !! loose
      modifies this`rows
      ensures Others(rows) == Others(old(rows))
      ensures begun <= world.Addresses(c.key)
      ensures result.None? ==> world.HalfWay(rows, seen, done, loose + begun)
      ensures result.Some? ==>
                result.value.0 == IdsOfCalendar(rows, c.key)
                && world.HalfWay(rows, seen + result.value.0, done + world.Addresses(c.key), loose)
    {
      begun := {};
      assert loose + begun == loose;
      var token := if c.key in collections then collections[c.key].token else "";
      if !Usable(token) || c.delta.Unavailable? {
        return None, begun;
      }
      var next := if c.delta.token == "" then token else c.delta.token;
      if !Usable(next) {
        return None, begun;
      }
      var loads := c.delta.loads;
      for i := 0 to |loads|
        invariant world.HalfWay(rows, seen, done, loose + begun) && world.Clean(rows, begun)
        invariant begun <= world.Addresses(c.key) && Others(rows) == Others(old(rows))
        invariant forall j :: 0 <= j < i && !loads[j].Failed? ==> LoadHref(loads[j]) in begun || LoadHref(loads[j]) !in world.Addresses(c.key)
        invariant forall j :: 0 <= j < i ==> !loads[j].Failed?
      {
        var load := loads[i];
        if load.Failed? {
          return None, begun;
        }
        begun := ApplyLoad(load, c.key, w, world, seen, done, loose, begun);
      }
      result := Some((IdsOfCalendar(rows, c.key), next));
      world.FinishCurrent(rows, seen, done, loose, begun, c.key);
    }

    /** One entry of a delta; `touched` grows by the address, if it is one of the calendar's. */
    method ApplyLoad(load: Load, key: string, w: Window,
                     ghost world: World, ghost seen: set<string>, ghost done: set<string>, ghost loose: set<string>, ghost begun: set<string>)
      returns (ghost touched: set<string>)
      requires !load.Failed? && HonestLoad(world, key, load) && world.w == w
      requires world.Sound() && world.HalfWay(rows, seen, done, loose + begun) && world.Clean(rows, begun)
      requires begun <= world.Addresses(key) && world.Addresses(key) !! done
      modifies this`rows
      ensures Others(rows) == Others(old(rows))
      ensures touched == begun + (if LoadHref(load) in world.Addresses(key) then {LoadHref(load)} else {})
      ensures world.HalfWay(rows, seen, done, loose + touched) && world.Clean(rows, touched)
    {
      ghost var h := LoadHref(load);
      ghost var start := rows;
      match load {
        case Gone(href) =>
          DeleteByResource(href, "", "");
          world.GoneIsRefreshed(start, href);
        case Loaded(r) =>
          DeleteByResource(r.href, if r.vevents == [] then "" else r.vevents[0].uid, key);
          UpsertInWindow(r, w);
      }
      assert rows == world.Refreshed(start, h);
      touched := begun;
      if h in world.Addresses(key) {
        touched := begun + {h};
        assert loose + touched == loose + begun + {h};
        world.DeltaStep(start, seen, done, loose + begun, h);
        world.RefreshClean(start, begun, h);
      } else {
        world.StrangerIsNothing(start, seen, done, loose + begun, h);
      }
    }

    /** One fetched resource of a full scan. */
    method ScanResource(r: Resource, key: string, seen: set<string>,
                        ghost world: World, ghost done: set<string>, ghost all: set<string>)
      returns (seen': set<string>)
      requires world.Sound() && world.HalfWay(rows, seen, done, all)
      requires HonestResource(world, key, r)
      modifies this`rows
      ensures Others(rows) == Others(old(rows))
      ensures world.HalfWay(rows, seen', done + {r.href}, all)
    {
      var reused := ReuseUnchangedResource(r, key);
      if reused.Some? {
        world.ScanReuse(rows, seen, done, all, r.href);
        return seen + reused.value;
      }
      ghost var start := rows;
      var ids := UpsertAll(r);
      seen' := seen + ids;
      world.ScanUpsert(start, seen, done, all, r.href);
    }

    /** The fetched resources of a full scan; `fetched` are their addresses. */
    method ScanResources(key: string, rs: seq<Resource>, seen: set<string>,
                         ghost world: World, ghost done: set<string>, ghost all: set<string>)
      returns (seen': set<string>, ghost fetched: set<string>)
      requires world.Sound() && world.HalfWay(rows, seen, done, all)
      requires forall i :: 0 <= i < |rs| ==> HonestResource(world, key, rs[i])
      modifies this`rows
      ensures Others(rows) == Others(old(rows))
      ensures world.HalfWay(rows, seen', done + fetched, all)
      ensures fetched == Hrefs(rs)
    {
      seen', fetched := seen, {};
      assert done + fetched == done;
      for i := 0 to |rs|
        invariant world.HalfWay(rows, seen', done + fetched, all) && Others(rows) == Others(old(rows))
        invariant fetched == Hrefs(rs[..i])
      {
        seen' := ScanResource(rs[i], key, seen', world, done + fetched, all);
        assert done + fetched + {rs[i].href} == done + (fetched + {rs[i].href});
        fetched := fetched + {rs[i].href};
        assert rs[..i + 1][..i] == rs[..i];
      }
      assert rs[..|rs|] == rs;
    }

    method ScanCalendar(c: Calendar, rs: seq<Resource>, seen: set<string>,
                        ghost world: World, ghost done: set<string>, ghost loose: set<string>, ghost begun: set<string>)
      returns (seen': set<string>)
      requires world.Sound() && HonestScan(world, c.key, rs)
      requires world.HalfWay(rows, seen, done, loose + begun) && begun <= world.Addresses(c.key)
      modifies this`rows
      ensures Others(rows) == Others(old(rows))
      ensures world.HalfWay(rows, seen', done + world.Addresses(c.key), loose)
    {
      ghost var fetched;
      seen', fetched := ScanResources(c.key, rs, seen, world, done, loose + begun);
      ScanCovers(world, c.key, rs, fetched);
      world.FinishScan(rows, seen', done, fetched, loose, begun, c.key);
    }

    static lemma ScanCovers(world: World, key: string, rs: seq<Resource>, fetched: set<string>)
      requires world.Sound() && HonestScan(world, key, rs) && fetched == Hrefs(rs)
      ensures fetched <= world.Addresses(key)
      ensures forall h :: h in world.Addresses(key) - fetched ==> world.New(h) == map[]
    {
      HrefsAre(rs);
    }

    /** One calendar of the loop: taken over, brought up to date, scanned, or given up. */
    method SyncCalendar(c: Calendar, w: Window, seen: set<string>,
                        ghost world: World, ghost done: set<string>, ghost loose: set<string>)
      returns (seen': set<string>, ghost done': set<string>, ghost loose': set<string>)
      requires world.Sound() && world.HalfWay(rows, seen, done, loose) && world.w == w
      requires HonestCalendar(world, c, collections)
      requires world.Addresses(c.key) !! done && world.Addresses(c.key) !! loose
      modifies this`rows, this`collections
      ensures Others(rows) == Others(old(rows))
      ensures world.HalfWay(rows, seen', done', loose')
      ensures loose <= loose' <= loose + world.Addresses(c.key)
      ensures (done' == done + world.Addresses(c.key) && loose' == loose) || (c.fetched.None? && done' == done)
      ensures forall k :: k != c.key ==> (k in collections <==> k in old(collections))
                                         && (k in collections ==> collections[k] == old(collections)[k])
    {
      done', loose' := done + world.Addresses(c.key), loose;
      var reused := ReuseUnchangedCalendar(c);
      if reused.Some? {
        assert loose + {} == loose;
        world.FinishCurrent(rows, seen, done, loose, {}, c.key);
        return seen + reused.value, done', loose';
      }
      var delta;
      ghost var begun;
      delta, begun := ApplyDelta(c, w, world, seen, done, loose);
      if delta.Some? {
        collections := collections[c.key := Collection(c.ctag, delta.value.1, |delta.value.0|)];
        return seen + delta.value.0, done', loose';
      }
      if c.fetched.None? {
        return seen, done, loose + begun;
      }
      seen' := ScanCalendar(c, c.fetched.value, seen, world, done, loose, begun);
      var stored := if c.key in collections then collections[c.key].token else "";
      var token := if stored != "" then stored else if Usable(c.bootstrap) then c.bootstrap else "";
      collections := collections[c.key := Collection(c.ctag, token, |IdsOfCalendar(rows, c.key)|)];
    }

    /** One pass of the loop over the calendars. */
    method VisitNext(cals: seq<Calendar>, visited: nat, w: Window, seen: set<string>,
                     ghost world: World, ghost done: set<string>, ghost loose: set<string>, ghost failed: set<string>)
      returns (seen': set<string>, ghost done': set<string>, ghost loose': set<string>, ghost failed': set<string>)
      requires world.Sound() && world.w == w && DistinctKeys(cals)
      requires visited < |cals| && Visited(world, cals, visited, done, loose, failed)
      requires world.HalfWay(rows, seen, done, loose)
      requires forall i :: visited <= i < |cals| ==> HonestCalendar(world, cals[i], collections)
      modifies this`rows, this`collections
      ensures Others(rows) == Others(old(rows))
      ensures world.HalfWay(rows, seen', done', loose')
      ensures Visited(world, cals, visited + 1, done', loose', failed')
      ensures forall i :: visited + 1 <= i < |cals| ==> HonestCalendar(world, cals[i], collections)
    {
      ApartFromVisited(world, cals, visited, done, loose, failed);
      seen', done', loose' := SyncCalendar(cals[visited], w, seen, world, done, loose);
      VisitOne(world, cals, visited, done, loose, failed, done', loose');
      failed' := if done' == done + world.Addresses(cals[visited].key) && loose' == loose then failed else failed + {cals[visited].key};
    }

    /** `_do_sync` */
    method DoSync(cals: seq<Calendar>, w: Window, ghost world: World)
      returns (seen: set<string>, visited: nat, ghost done: set<string>, ghost loose: set<string>, ghost failed: set<string>)
      requires world.Sound() && world.w == w && world.Reflects(rows, world.before)
      requires DistinctKeys(cals)
      requires forall i :: 0 <= i < |cals| ==> HonestCalendar(world, cals[i], collections)
      modifies this`rows, this`collections, this`checks
      ensures Others(rows) == Others(old(rows)) && checks >= old(checks)
      ensures world.HalfWay(rows, seen, done, loose)
      ensures visited <= |cals| && Visited(world, cals, visited, done, loose, failed)
      ensures visited == 0 ==> rows == old(rows)
      ensures visited < |cals| ==> checks > 0 && stopped(checks - 1)
    {
      world.Start(rows);
      seen, done, loose, failed, visited := {}, {}, {}, {}, 0;
      while visited < |cals|
        invariant visited <= |cals|
        invariant Others(rows) == Others(old(rows)) && checks >= old(checks)
        invariant visited == 0 ==> rows == old(rows)
        invariant world.HalfWay(rows, seen, done, loose)
        invariant forall i :: visited <= i < |cals| ==> HonestCalendar(world, cals[i], collections)
        invariant Visited(world, cals, visited, done, loose, failed)
      {
        var stop;
        stop, seen, done, loose, failed := VisitUnlessStopped(cals, visited, w, seen, world, done, loose, failed);
        if stop {
          return;
        }
        visited := visited + 1;
      }
    }

    method VisitUnlessStopped(cals: seq<Calendar>, visited: nat, w: Window, seen: set<string>,
                              ghost world: World, ghost done: set<string>, ghost loose: set<string>, ghost failed: set<string>)
      returns (stop: bool, seen': set<string>, ghost done': set<string>, ghost loose': set<string>, ghost failed': set<string>)
      requires world.Sound() && world.w == w && DistinctKeys(cals)
      requires visited < |cals| && Visited(world, cals, visited, done, loose, failed)
      requires world.HalfWay(rows, seen, done, loose)
      requires forall i :: visited <= i < |cals| ==> HonestCalendar(world, cals[i], collections)
      modifies this`rows, this`collections, this`checks
      ensures Others(rows) == Others(old(rows)) && checks == old(checks) + 1 && stop == stopped(old(checks))
      ensures stop ==> rows == old(rows)
      ensures world.HalfWay(rows, seen', done', loose')
      ensures Visited(world, cals, if stop then visited else visited + 1, done', loose', failed')
      ensures forall i :: visited + 1 <= i < |cals| ==> HonestCalendar(world, cals[i], collections)
    {
      stop := StopRequested();
      seen', done', loose', failed' := seen, done, loose, failed;
      if !stop {
        seen', done', loose', failed' := VisitNext(cals, visited, w, seen, world, done, loose, failed);
      }
    }

    /** `_fetch_and_upsert`; `free` says whether the sync lock could be taken in time. After a sync
        that finished and gave up no calendar, the table reflects the server, except that a server
        without events leaves the old rows behind; and a calendar that was given up loses its rows.
        A sync that was stopped prunes nothing: the rows of the calendars it did not visit stand,
        unless a present event of a visited one took their id. */
    method FetchAndUpsert(cals: seq<Calendar>, w: Window, free: bool, ghost world: World)
      returns (finished: bool, ghost seen: set<string>, ghost done: set<string>, ghost loose: set<string>, ghost failed: set<string>,
               ghost visited: nat)
      requires world.Sound() && world.w == w && world.Reflects(rows, world.before)
      requires DistinctKeys(cals)
      requires forall i :: 0 <= i < |cals| ==> HonestCalendar(world, cals[i], collections)
      requires forall h :: h in world.now ==> exists i :: 0 <= i < |cals| && h in world.Addresses(cals[i].key)
      requires forall i, j :: 0 <= i <= j && stopped(i) ==> stopped(j)
      modifies this`rows, this`collections, this`checks
      ensures Others(rows) == Others(old(rows))
      ensures finished ==> !stopped(old(checks))
      ensures !finished ==> world.HalfWay(rows, seen, done, loose)
      ensures visited <= |cals| && Visited(world, cals, visited, done, loose, failed)
      ensures !finished ==> forall id :: id in old(rows) && old(rows)[id].caldav && NotVisited(cals, visited, old(rows)[id].calendar) ==>
                id in rows && (rows[id] == old(rows)[id] || world.IsNew(id, rows[id]))
      ensures !finished && visited == 0 ==> rows == old(rows)
      ensures finished ==> visited == |cals|
      ensures forall k :: k in failed ==> exists i :: 0 <= i < |cals| && cals[i].key == k && cals[i].fetched.None?
      ensures finished && failed == {} && seen != {} ==> world.Reflects(rows, world.now)
      ensures finished && failed == {} && seen == {} ==>
                (world.Reflects(rows, world.now) <==> forall id :: id in rows ==> !rows[id].caldav)
      ensures finished && seen != {} ==> forall id :: id in rows && rows[id].caldav ==> rows[id].calendar !in failed
    {
      world.Start(rows);
      ghost var rows0 := rows;
      seen, done, loose, failed, visited, finished := {}, {}, {}, {}, 0, false;
      UnvisitedStand(world, cals, visited, rows0, rows, seen, done, loose, failed);
      var stop := StopRequested();
      if stop || !free {
        return;
      }
      stop := StopRequested();
      if stop {
        return;
      }
      var vouched, count;
      vouched, count, done, loose, failed := DoSync(cals, w, world);
      seen, visited := vouched, count;
      UnvisitedStand(world, cals, visited, rows0, rows, seen, done, loose, failed);
      stop := StopRequested();
      if stop {
        return;
      }
      finished := true;
      assert visited == |cals|;
      ghost var synced := rows;
      if vouched != {} {
        rows := Kept(rows, vouched);
        KeptOthers(synced, vouched);
        GivenUpIsPruned(world, synced, vouched, done, loose, failed);
      }
      if failed == {} {
        AllDone(world, cals, done);
        if vouched != {} {
          world.PruneReflects(synced, vouched, done);
        } else {
          world.NothingSeen(synced, done);
        }
      }
    }

    static lemma KeptOthers(rows: Rows, seen: set<string>)
      ensures Others(Kept(rows, seen)) == Others(rows)
    {
    }

    static lemma AllDone(world: World, cals: seq<Calendar>, done: set<string>)
      requires forall h :: h in world.now ==> exists i :: 0 <= i < |cals| && h in world.Addresses(cals[i].key)
      requires forall i :: 0 <= i < |cals| ==> world.Addresses(cals[i].key) <= done
      ensures world.now.Keys <= done
    {
      forall h | h in world.now ensures h in done {
        var i :| 0 <= i < |cals| && h in world.Addresses(cals[i].key);
      }
    }

    static lemma GivenUpIsPruned(world: World, rows: Rows, seen: set<string>, done: set<string>, loose: set<string>, failed: set<string>)
      requires world.Sound() && world.HalfWay(rows, seen, done, loose)
      requires forall k :: k in failed ==> world.Addresses(k) !! done
      ensures forall id :: id in Kept(rows, seen) && rows[id].caldav ==> rows[id].calendar !in failed
    {
      forall id | id in Kept(rows, seen) && rows[id].caldav ensures rows[id].calendar !in failed {
        world.NewKnows(rows[id].href);
        assert rows[id].href in world.Addresses(rows[id].calendar);
      }
    }
  }
}
