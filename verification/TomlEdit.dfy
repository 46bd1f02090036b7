/**
  What setting one key means for a document, first on its lines and then on its data: the line edit
  agrees with the update of the table, or makes the document unreadable, and it is known which.
 */
module TomlEdit {
  import opened TomlValue
  import opened Toml

  /** In the body of a table: replace the entry, or add it at the end. */
  function EditBody(ls: seq<Line>, field: string, n: Node): seq<Line> {
    if ls == [] || !ls[0].Entry? then [Entry(field, n)] + ls
    else if ls[0].key == field then [Entry(field, n)] + ls[1..]
    else [ls[0]] + EditBody(ls[1..], field, n)
  }

  /** Below the header of the section; without one the section is added at the end. */
  function EditLines(ls: seq<Line>, section: string, field: string, n: Node): seq<Line> {
    if ls == [] then [Header([section]), Entry(field, n)]
    else if ls[0] == Header([section]) then [ls[0]] + EditBody(ls[1..], field, n)
    else [ls[0]] + EditLines(ls[1..], section, field, n)
  }

  /** The table with `section.field` set and everything else as before. */
  function SetIn(t: Table, section: string, field: string, n: Node): Table {
    t[section := NTab((if section in t && t[section].NTab? then t[section].table else map[])[field := n])]
  }

  predicate IsTable(n: Node) {
    n.NTab? || n.NTabs?
  }

  /** `section.field` is itself a table. */
  predicate Tabled(t: Table, section: string, field: string) {
    section in t && t[section].NTab? && field in t[section].table && IsTable(t[section].table[field])
  }

  predicate HasHeader(ls: seq<Line>, section: string) {
    Header([section]) in ls
  }

  /** When the field may be set: a section with a header must not have a table under that name, and
      a section without one must be undefined, or a table without that key. */
  predicate Free(ls: seq<Line>, t: Table, section: string, field: string) {
    if HasHeader(ls, section) then !Tabled(t, section, field)
    else section in t ==> t[section].NTab? && field !in t[section].table
  }

  /** Entries hold no tables. */
  predicate PlainEntries(ls: seq<Line>) {
    forall i :: 0 <= i < |ls| ==> ls[i].Entry? ==> !IsTable(ls[i].node)
  }

  // ------------------------------------------------------------------ bodies

  lemma {:induction false} BodyIgnores(ls: seq<Line>, body: Table, field: string, n: Node)
    requires field in body && ReadBody(ls, body).Some?
    ensures var r := ReadBody(ls, body).value;
            field in r.0 && r.0[field] == body[field]
            && ReadBody(ls, body[field := n]) == Some((r.0[field := n], r.1))
  {
    if ls != [] && ls[0].Entry? {
      var k, m := ls[0].key, ls[0].node;
      assert body[field := n][k := m] == body[k := m][field := n];
      BodyIgnores(ls[1..], body[k := m], field, n);
    }
  }

  lemma {:induction false} BodyEdited(ls: seq<Line>, body: Table, field: string, n: Node)
    requires field !in body && ReadBody(ls, body).Some?
    ensures var r := ReadBody(ls, body).value;
            ReadBody(EditBody(ls, field, n), body) == Some((r.0[field := n], r.1))
  {
    if ls == [] || !ls[0].Entry? {
      assert ([Entry(field, n)] + ls)[1..] == ls;
      assert ReadBody(ls, body[field := n]) == Some((body[field := n], ls));
    } else if ls[0].key == field {
      assert ([Entry(field, n)] + ls[1..])[1..] == ls[1..];
      BodyIgnores(ls[1..], body[field := ls[0].node], field, n);
      assert body[field := ls[0].node][field := n] == body[field := n];
    } else {
      var rest := EditBody(ls[1..], field, n);
      assert ([ls[0]] + rest)[1..] == rest;
      BodyEdited(ls[1..], body[ls[0].key := ls[0].node], field, n);
    }
  }

  lemma {:induction false} BodyPassed(ls: seq<Line>, body: Table, section: string, field: string, n: Node)
    requires ReadBody(ls, body).Some?
    ensures var r := ReadBody(ls, body).value;
            ReadBody(EditLines(ls, section, field, n), body) == Some((r.0, EditLines(r.1, section, field, n)))
            && (HasHeader(ls, section) <==> HasHeader(r.1, section))
            && (PlainEntries(ls) ==> PlainEntries(r.1))
  {
    if ls != [] && ls[0].Entry? {
      var rest := EditLines(ls[1..], section, field, n);
      assert ([ls[0]] + rest)[1..] == rest;
      BodyPassed(ls[1..], body[ls[0].key := ls[0].node], section, field, n);
      assert ls == [ls[0]] + ls[1..];
    }
  }

  lemma {:induction false} BodyHoldsNoTables(ls: seq<Line>, body: Table)
    requires ReadBody(ls, body).Some? && PlainEntries(ls)
    requires forall k :: k in body ==> !IsTable(body[k])
    ensures forall k :: k in ReadBody(ls, body).value.0 ==> !IsTable(ReadBody(ls, body).value.0[k])
    ensures PlainEntries(ReadBody(ls, body).value.1)
  {
    if ls != [] && ls[0].Entry? {
      BodyHoldsNoTables(ls[1..], body[ls[0].key := ls[0].node]);
    }
  }

  // ------------------------------------------------------------------ two documents side by side

  /** `d'` is `d` with the field set, in a section that has had its header. */
  predicate Differ(d: Doc, d': Doc, section: string, field: string, n: Node) {
    && section in d.headed && section in d.root && d.root[section].NTab?
    && !Tabled(d.root, section, field) && !IsTable(n)
    && d' == Doc(SetIn(d.root, section, field, n), d.headed)
  }

  predicate Sealed(d: Doc, section: string, field: string) {
    section in d.headed && Tabled(d.root, section, field)
  }

  lemma AttachKeepsTable(d: Doc, head: Line, body: Table, section: string, field: string)
    requires Opens(head) && Sealed(d, section, field) && Attach(d, head, body).Some?
    ensures Sealed(Attach(d, head, body).value, section, field)
  {
  }

  lemma AttachSame(d: Doc, d': Doc, head: Line, body: Table, section: string, field: string, n: Node)
    requires Opens(head) && Differ(d, d', section, field, n) && Attach(d, head, body).Some?
    requires head.path != [section, field]
    ensures Attach(d', head, body).Some?
    ensures Differ(Attach(d, head, body).value, Attach(d', head, body).value, section, field, n)
  {
    var at, k := head.path[..|head.path| - 1], head.path[|head.path| - 1];
    if at == [] {
      assert head.path == [k];
      AttachTop(d, d', head, body, section, field, n);
    } else {
      assert head.path == [at[0], k];
      AttachSub(d, d', head, body, section, field, n);
    }
  }

  lemma AttachTop(d: Doc, d': Doc, head: Line, body: Table, section: string, field: string, n: Node)
    requires Opens(head) && Differ(d, d', section, field, n) && Attach(d, head, body).Some?
    requires |head.path| == 1
    ensures Attach(d', head, body).Some?
    ensures Differ(Attach(d, head, body).value, Attach(d', head, body).value, section, field, n)
  {
    var k := head.path[0];
    assert head.path[..0] == [];
    assert k != section;
    var r := Attach(d, head, body).value;
    assert r.root == d.root[k := r.root[k]];
    assert Attach(d', head, body).value.root == d'.root[k := r.root[k]];
    SetBeside(d.root, section, field, n, k, r.root[k]);
  }

  lemma SetBeside(t: Table, section: string, field: string, n: Node, k: string, v: Node)
    requires k != section
    ensures SetIn(t[k := v], section, field, n) == SetIn(t, section, field, n)[k := v]
  {
  }

  lemma AttachSub(d: Doc, d': Doc, head: Line, body: Table, section: string, field: string, n: Node)
    requires Opens(head) && Differ(d, d', section, field, n) && Attach(d, head, body).Some?
    requires |head.path| == 2 && head.path != [section, field]
    ensures Attach(d', head, body).Some?
    ensures Differ(Attach(d, head, body).value, Attach(d', head, body).value, section, field, n)
  {
    var s, k := head.path[0], head.path[1];
    assert head.path[..1] == [s] && head.path == [s, k];
    if s == section {
      AttachInSection(d, d', head, body, section, field, n, k);
    } else {
      AttachElsewhere(d, d', head, body, section, field, n);
    }
  }

  lemma AttachElsewhere(d: Doc, d': Doc, head: Line, body: Table, section: string, field: string, n: Node)
    requires Opens(head) && Differ(d, d', section, field, n) && Attach(d, head, body).Some?
    requires |head.path| == 2 && head.path[0] != section
    ensures Attach(d', head, body).Some?
    ensures Differ(Attach(d, head, body).value, Attach(d', head, body).value, section, field, n)
  {
    var at, k := head.path[..1], head.path[1];
    assert at == [head.path[0]];
    var t := Level(d, at).value;
    assert Level(d', at) == Some(t);
    var m := if head.ArrayHeader? then NTabs(if k in t then t[k].tables + [body] else [body]) else NTab(body);
    assert Attach(d, head, body) == Some(SetLevel(d, at, t[k := m]));
    assert Attach(d', head, body) == Some(SetLevel(d', at, t[k := m]));
    SetElsewhere(d, d', at[0], t[k := m], section, field, n);
  }

  lemma SetElsewhere(d: Doc, d': Doc, s: string, t: Table, section: string, field: string, n: Node)
    requires Differ(d, d', section, field, n) && s != section
    ensures Differ(SetLevel(d, [s], t), SetLevel(d', [s], t), section, field, n)
  {
    assert SetLevel(d', [s], t).root == SetIn(SetLevel(d, [s], t).root, section, field, n);
  }

  lemma AttachInSection(d: Doc, d': Doc, head: Line, body: Table, section: string, field: string, n: Node, k: string)
    requires Opens(head) && Differ(d, d', section, field, n) && Attach(d, head, body).Some?
    requires head.path == [section, k] && k != field
    ensures Attach(d', head, body).Some?
    ensures Differ(Attach(d, head, body).value, Attach(d', head, body).value, section, field, n)
  {
    var t := d.root[section].table;
    assert head.path[..1] == [section];
    var m := if head.ArrayHeader? then NTabs(if k in t then t[k].tables + [body] else [body]) else NTab(body);
    assert k !in t ==> [body] == [] + [body];
    assert Attach(d, head, body) == Some(SetLevel(d, [section], t[k := m]));
    assert Attach(d', head, body) == Some(SetLevel(d', [section], t[field := n][k := m]));
    assert t[field := n][k := m] == t[k := m][field := n];
    assert SetIn(d.root[section := NTab(t[k := m])], section, field, n)
        == SetIn(d.root, section, field, n)[section := NTab(t[k := m][field := n])];
  }

  lemma AttachClash(d: Doc, d': Doc, head: Line, body: Table, section: string, field: string, n: Node)
    requires Opens(head) && Differ(d, d', section, field, n) && Attach(d, head, body).Some?
    requires head.path == [section, field]
    ensures Attach(d', head, body).None?
    ensures Sealed(Attach(d, head, body).value, section, field)
  {
    assert head.path[..1] == [section];
  }

  lemma {:induction false} SealedStays(ls: seq<Line>, d: Doc, section: string, field: string)
    requires Sealed(d, section, field) && ReadTables(ls, d).Some?
    ensures Sealed(ReadTables(ls, d).value, section, field)
    decreases |ls|
  {
    if ls != [] {
      var (body, rest) := ReadBody(ls[1..], map[]).value;
      AttachKeepsTable(d, ls[0], body, section, field);
      SealedStays(rest, Attach(d, ls[0], body).value, section, field);
    }
  }

  /** The rest of the document is read alike, unless it makes the field a table. */
  lemma {:induction false} RestReads(ls: seq<Line>, d: Doc, d': Doc, section: string, field: string, n: Node)
    requires Differ(d, d', section, field, n) && ReadTables(ls, d).Some?
    ensures var e := ReadTables(ls, d).value;
            if Tabled(e.root, section, field) then ReadTables(ls, d') == None
            else ReadTables(ls, d').Some? && Differ(e, ReadTables(ls, d').value, section, field, n)
    decreases |ls|
  {
    if ls != [] {
      var (body, rest) := ReadBody(ls[1..], map[]).value;
      var next := Attach(d, ls[0], body).value;
      if ls[0].path == [section, field] {
        AttachClash(d, d', ls[0], body, section, field, n);
        SealedStays(rest, next, section, field);
      } else {
        AttachSame(d, d', ls[0], body, section, field, n);
        RestReads(rest, next, Attach(d', ls[0], body).value, section, field, n);
      }
    }
  }

  // ------------------------------------------------------------------ the edit

  /** A table without a header of its own holds only tables. */
  predicate ImplicitHoldsTables(d: Doc, section: string) {
    section in d.root && d.root[section].NTab? && section !in d.headed ==>
      forall k :: k in d.root[section].table ==> IsTable(d.root[section].table[k])
  }

  lemma AttachKeepsImplicit(d: Doc, head: Line, body: Table, section: string)
    requires Opens(head) && ImplicitHoldsTables(d, section) && Attach(d, head, body).Some?
    ensures ImplicitHoldsTables(Attach(d, head, body).value, section)
    ensures section in Attach(d, head, body).value.headed <==> section in d.headed || head == Header([section])
  {
    if |head.path| == 1 {
      assert head.path[..0] == [] && head.path == [head.path[0]];
    } else {
      assert head.path[..1] == [head.path[0]];
    }
  }

  /** The header of the section, with its edited body. */
  lemma HeaderEdited(d: Doc, body: Table, section: string, field: string, n: Node)
    requires section !in d.headed && ImplicitHoldsTables(d, section) && !IsTable(n)
    requires field in body ==> !IsTable(body[field])
    requires Attach(d, Header([section]), body).Some?
    ensures var e := Attach(d, Header([section]), body).value;
            if Tabled(e.root, section, field)
            then Attach(d, Header([section]), body[field := n]) == None && Sealed(e, section, field)
            else Attach(d, Header([section]), body[field := n]).Some?
                 && Differ(e, Attach(d, Header([section]), body[field := n]).value, section, field, n)
  {
    assert [section][..0] == [];
    if section in d.root {
      var t := d.root[section].table;
      if field !in t {
        assert t + body[field := n] == (t + body)[field := n];
      }
    }
  }

  lemma AddedAtEnd(d: Doc, section: string, field: string, n: Node)
    requires section !in d.headed
    ensures var added := [Header([section]), Entry(field, n)];
            if section in d.root ==> d.root[section].NTab? && field !in d.root[section].table
            then ReadTables(added, d).Some? && ReadTables(added, d).value.root == SetIn(d.root, section, field, n)
            else ReadTables(added, d) == None
  {
    var added := [Header([section]), Entry(field, n)];
    assert added[1..] == [Entry(field, n)] && added[1..][1..] == [];
    assert ReadBody(added[1..], map[]) == Some((map[][field := n], []));
    assert [section][..0] == [];
    if section in d.root && d.root[section].NTab? {
      assert d.root[section].table + map[][field := n] == d.root[section].table[field := n];
    }
  }

  lemma {:induction false} TablesEdited(ls: seq<Line>, d: Doc, section: string, field: string, n: Node)
    requires ReadTables(ls, d).Some? && PlainEntries(ls) && !IsTable(n)
    requires section !in d.headed && ImplicitHoldsTables(d, section)
    ensures var e, e' := ReadTables(ls, d).value, ReadTables(EditLines(ls, section, field, n), d);
            if Free(ls, e.root, section, field)
            then e'.Some? && e'.value.root == SetIn(e.root, section, field, n)
            else e' == None
    decreases |ls|
  {
    if ls == [] {
      AddedAtEnd(d, section, field, n);
    } else {
      var (body, rest) := ReadBody(ls[1..], map[]).value;
      var next := Attach(d, ls[0], body).value;
      BodyHoldsNoTables(ls[1..], map[]);
      if ls[0] == Header([section]) {
        var below := EditBody(ls[1..], field, n);
        BodyEdited(ls[1..], map[], field, n);
        assert ([ls[0]] + below)[1..] == below;
        HeaderEdited(d, body, section, field, n);
        if Tabled(next.root, section, field) {
          SealedStays(rest, next, section, field);
        } else {
          RestReads(rest, next, Attach(d, ls[0], body[field := n]).value, section, field, n);
        }
      } else {
        var below := EditLines(ls[1..], section, field, n);
        BodyPassed(ls[1..], map[], section, field, n);
        assert ([ls[0]] + below)[1..] == below;
        AttachKeepsImplicit(d, ls[0], body, section);
        TablesEdited(rest, next, section, field, n);
        assert HasHeader(ls, section) <==> HasHeader(ls[1..], section) by { assert ls == [ls[0]] + ls[1..]; }
      }
    }
  }

  /** The edited document reads as the updated data exactly when the field may be set, and does not
      read at all otherwise. */
  lemma EditedReads(ls: seq<Line>, section: string, field: string, n: Node)
    requires ReadAll(ls).Some? && PlainEntries(ls) && !IsTable(n)
    ensures ReadAll(EditLines(ls, section, field, n)) ==
            if Free(ls, ReadAll(ls).value, section, field)
            then Some(SetIn(ReadAll(ls).value, section, field, n)) else None
  {
    var (root, rest) := ReadBody(ls, map[]).value;
    BodyPassed(ls, map[], section, field, n);
    BodyHoldsNoTables(ls, map[]);
    TablesEdited(rest, Doc(root, {}), section, field, n);
  }

  // ------------------------------------------------------------------ one header per section

  predicate Once(ls: seq<Line>, section: string) {
    ls == [] || ((ls[0] == Header([section]) ==> !HasHeader(ls[1..], section)) && Once(ls[1..], section))
  }

  lemma HeadedStays(d: Doc, head: Line, body: Table, section: string)
    requires Opens(head) && section in d.headed && section in d.root && Attach(d, head, body).Some?
    ensures section in Attach(d, head, body).value.headed && section in Attach(d, head, body).value.root
    ensures head != Header([section])
  {
    assert [section][..0] == [];
  }

  lemma {:induction false} BodySkipsNoHeader(ls: seq<Line>, body: Table, section: string)
    requires ReadBody(ls, body).Some?
    ensures var rest := ReadBody(ls, body).value.1;
            (HasHeader(ls, section) <==> HasHeader(rest, section)) && (Once(ls, section) <==> Once(rest, section))
  {
    if ls != [] && ls[0].Entry? {
      BodySkipsNoHeader(ls[1..], body[ls[0].key := ls[0].node], section);
      assert ls == [ls[0]] + ls[1..];
    }
  }

  lemma {:induction false} NoSecondHeader(ls: seq<Line>, d: Doc, section: string)
    requires section in d.headed && section in d.root && ReadTables(ls, d).Some?
    ensures !HasHeader(ls, section) && Once(ls, section)
    decreases |ls|
  {
    if ls != [] {
      var (body, rest) := ReadBody(ls[1..], map[]).value;
      HeadedStays(d, ls[0], body, section);
      NoSecondHeader(rest, Attach(d, ls[0], body).value, section);
      BodySkipsNoHeader(ls[1..], map[], section);
      assert ls == [ls[0]] + ls[1..];
    }
  }

  lemma {:induction false} TablesHeadOnce(ls: seq<Line>, d: Doc, section: string)
    requires ReadTables(ls, d).Some?
    ensures Once(ls, section)
    decreases |ls|
  {
    if ls != [] {
      var (body, rest) := ReadBody(ls[1..], map[]).value;
      var next := Attach(d, ls[0], body).value;
      BodySkipsNoHeader(ls[1..], map[], section);
      if ls[0] == Header([section]) {
        assert [section][..0] == [];
        NoSecondHeader(rest, next, section);
      } else {
        TablesHeadOnce(rest, next, section);
      }
    }
  }

  /** In a document that reads, a section has at most one header. */
  lemma SectionsHeadOnce(ls: seq<Line>, section: string)
    requires ReadAll(ls).Some?
    ensures Once(ls, section)
  {
    var (root, rest) := ReadBody(ls, map[]).value;
    BodySkipsNoHeader(ls, map[], section);
    TablesHeadOnce(rest, Doc(root, {}), section);
  }

  lemma {:induction false} NotTwice(ls: seq<Line>, more: seq<Line>, section: string)
    requires HasHeader(ls, section) && HasHeader(more, section)
    ensures !Once(ls + more, section)
  {
    assert (ls + more)[0] == ls[0] && (ls + more)[1..] == ls[1..] + more;
    if ls[0] != Header([section]) {
      assert ls == [ls[0]] + ls[1..];
      NotTwice(ls[1..], more, section);
    }
  }

  /** Adding a section that already has a header makes the document unreadable. */
  lemma RepeatedSectionFails(ls: seq<Line>, section: string, field: string, n: Node)
    requires HasHeader(ls, section)
    ensures ReadAll(ls + [Header([section]), Entry(field, n)]) == None
  {
    var added := [Header([section]), Entry(field, n)];
    assert added[0] == Header([section]);
    NotTwice(ls, added, section);
    if ReadAll(ls + added).Some? {
      SectionsHeadOnce(ls + added, section);
    }
  }

  // ------------------------------------------------------------------ no entry, no field

  predicate BodyHas(ls: seq<Line>, field: string) {
    ls != [] && ls[0].Entry? && (ls[0].key == field || BodyHas(ls[1..], field))
  }

  predicate SectionHas(ls: seq<Line>, section: string, field: string) {
    ls != []
    && if ls[0] == Header([section]) then BodyHas(ls[1..], field) else SectionHas(ls[1..], section, field)
  }

  /** The field, if any, is a table. */
  predicate Lacks(t: Table, section: string, field: string) {
    section in t && t[section].NTab? && field in t[section].table ==> IsTable(t[section].table[field])
  }

  lemma {:induction false} BodyLacks(ls: seq<Line>, body: Table, section: string, field: string)
    requires ReadBody(ls, body).Some?
    ensures var r := ReadBody(ls, body).value;
            && (field !in body && !BodyHas(ls, field) ==> field !in r.0)
            && (SectionHas(ls, section, field) <==> SectionHas(r.1, section, field))
  {
    if ls != [] && ls[0].Entry? {
      BodyLacks(ls[1..], body[ls[0].key := ls[0].node], section, field);
    }
  }

  lemma AttachLacks(d: Doc, head: Line, body: Table, section: string, field: string)
    requires Opens(head) && Attach(d, head, body).Some? && Lacks(d.root, section, field)
    requires head == Header([section]) ==> field !in body
    ensures Lacks(Attach(d, head, body).value.root, section, field)
  {
    if |head.path| == 1 {
      assert head.path[..0] == [] && head.path == [head.path[0]];
    } else {
      assert head.path[..1] == [head.path[0]];
    }
  }

  lemma {:induction false} TablesLack(ls: seq<Line>, d: Doc, section: string, field: string)
    requires ReadTables(ls, d).Some? && Lacks(d.root, section, field)
    requires Once(ls, section) && !SectionHas(ls, section, field)
    ensures Lacks(ReadTables(ls, d).value.root, section, field)
    decreases |ls|
  {
    if ls != [] {
      var (body, rest) := ReadBody(ls[1..], map[]).value;
      BodyLacks(ls[1..], map[], section, field);
      BodySkipsNoHeader(ls[1..], map[], section);
      AttachLacks(d, ls[0], body, section, field);
      if ls[0] == Header([section]) {
        NoHeaderNoField(rest, section, field);
      }
      TablesLack(rest, Attach(d, ls[0], body).value, section, field);
    }
  }

  lemma {:induction false} NoHeaderNoField(ls: seq<Line>, section: string, field: string)
    requires !HasHeader(ls, section)
    ensures !SectionHas(ls, section, field)
  {
    if ls != [] {
      assert ls == [ls[0]] + ls[1..];
      NoHeaderNoField(ls[1..], section, field);
    }
  }

  /** A section whose body has no entry for the field does not define it, except as a table. */
  lemma DocumentLacks(ls: seq<Line>, section: string, field: string)
    requires ReadAll(ls).Some? && PlainEntries(ls) && !SectionHas(ls, section, field)
    ensures Lacks(ReadAll(ls).value, section, field)
  {
    var (root, rest) := ReadBody(ls, map[]).value;
    SectionsHeadOnce(ls, section);
    BodySkipsNoHeader(ls, map[], section);
    BodyLacks(ls, map[], section, field);
    BodyHoldsNoTables(ls, map[]);
    TablesLack(rest, Doc(root, {}), section, field);
  }
}
