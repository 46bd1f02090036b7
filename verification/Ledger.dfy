/**
  Which calls of a transcript are still unanswered, user turn by user turn.

  Compaction cuts a transcript at a user turn, so pairing has to hold for every user turn on its
  own. `Scan` is the automaton that checks this. `Mendable` is the exact condition under which one
  sanitizing pass restores it; `Recoverable` is what any interrupted turn keeps as long as call ids
  never repeat, and it implies `Mendable`.
 */
module Ledger {
  import opened Transcript

  /** The ids called and the ids still open since the last user turn. */
  datatype Book = Broken | Book(used: set<string>, open: set<string>)

  const START: Book := Book({}, {})

  function Enter(b: Book, it: Item): Book {
    match b
    case Broken => Broken
    case Book(used, open) =>
      match it
      case Said(_, turn) => if !turn then b else if open == {} then START else Broken
      case Called(c) => Book(used + {c.id}, open + {c.id})
      case Answered(id, _, _) => if id in used then Book(used, open - {id}) else Broken
      case _ => b
  }

  function Scan(items: seq<Item>, b: Book): Book {
    if items == [] then b else Scan(items[1..], Enter(b, items[0]))
  }

  /** Every user turn answers exactly its own calls, each after it was made. */
  predicate Closed(items: seq<Item>) {
    Scan(items, START).Book? && Scan(items, START).open == {}
  }

  function Into(seg: set<string>, it: Item): set<string> {
    match it
    case Said(_, turn) => if turn then {} else seg
    case Called(c) => seg + {c.id}
    case _ => seg
  }

  /** The calls made since the last user turn. */
  function Segment(items: seq<Item>, seg: set<string>): set<string> {
    if items == [] then seg else Segment(items[1..], Into(seg, items[0]))
  }

  /** Call ids are unique, and a result whose id is called at all is in the call's own user turn. */
  predicate Local(items: seq<Item>, all: set<string>, seen: set<string>, seg: set<string>) {
    items == [] ||
    match items[0]
    case Called(c) => c.id !in seen && Local(items[1..], all, seen + {c.id}, Into(seg, items[0]))
    case Answered(id, _, _) => (id in all ==> id in seg) && Local(items[1..], all, seen, seg)
    case _ => Local(items[1..], all, seen, Into(seg, items[0]))
  }

  predicate Recoverable(items: seq<Item>) {
    Local(items, CalledIds(items), {}, {})
  }

  // ------------------------------------------------------------------ splitting

  lemma {:induction false} ScanConcat(a: seq<Item>, b: seq<Item>, book: Book)
    ensures Scan(a + b, book) == Scan(b, Scan(a, book))
  {
    if a == [] {
      assert a + b == b;
    } else {
      assert (a + b)[0] == a[0] && (a + b)[1..] == a[1..] + b;
      ScanConcat(a[1..], b, Enter(book, a[0]));
    }
  }

  lemma {:induction false} ScanBroken(items: seq<Item>)
    ensures Scan(items, Broken) == Broken
  {
    if items != [] {
      ScanBroken(items[1..]);
    }
  }

  lemma {:induction false} SegmentConcat(a: seq<Item>, b: seq<Item>, seg: set<string>)
    ensures Segment(a + b, seg) == Segment(b, Segment(a, seg))
  {
    if a == [] {
      assert a + b == b;
    } else {
      assert (a + b)[0] == a[0] && (a + b)[1..] == a[1..] + b;
      SegmentConcat(a[1..], b, Into(seg, a[0]));
    }
  }

  lemma {:induction false} LocalConcat(a: seq<Item>, b: seq<Item>, all: set<string>, seen: set<string>, seg: set<string>)
    ensures Local(a + b, all, seen, seg) <==>
            Local(a, all, seen, seg) && Local(b, all, seen + CalledIds(a), Segment(a, seg))
  {
    if a == [] {
      assert a + b == b && seen + CalledIds(a) == seen;
    } else {
      assert (a + b)[0] == a[0] && (a + b)[1..] == a[1..] + b;
      IdsHead(a);
      var seen' := if a[0].Called? then seen + {a[0].call.id} else seen;
      LocalConcat(a[1..], b, all, seen', Into(seg, a[0]));
      assert seen' + CalledIds(a[1..]) == seen + CalledIds(a);
    }
  }

  lemma {:induction false} SegmentBounds(items: seq<Item>, seg: set<string>)
    ensures Segment(items, seg) <= seg + CalledIds(items)
  {
    if items != [] {
      IdsHead(items);
      SegmentBounds(items[1..], Into(seg, items[0]));
    }
  }

  /** An unbroken scan knows exactly the calls of the last user turn. */
  lemma {:induction false} ScanSegment(items: seq<Item>, book: Book)
    requires Scan(items, book).Book?
    ensures book.Book? && Scan(items, book).used == Segment(items, book.used)
  {
    if book.Broken? {
      ScanBroken(items);
    } else if items != [] {
      if Enter(book, items[0]).Broken? {
        ScanBroken(items[1..]);
      }
      ScanSegment(items[1..], Enter(book, items[0]));
    }
  }

  // ------------------------------------------------------------------ closed transcripts are paired

  lemma {:induction false} ScanPairs(items: seq<Item>, book: Book)
    requires book.Book? && book.open <= book.used && Scan(items, book).Book?
    ensures var last := Scan(items, book);
            && Follows(items, book.used)
            && last.open <= last.used
            && last.open <= book.open + CalledIds(items)
            && book.open + CalledIds(items) <= AnsweredIds(items) + last.open
            && AnsweredIds(items) <= book.used + CalledIds(items)
  {
    if items != [] {
      IdsHead(items);
      var it, rest := items[0], items[1..];
      var next := Enter(book, it);
      if next.Broken? {
        ScanBroken(rest);
      }
      ScanPairs(rest, next);
      if it.Said? && it.turn {
        FollowsMore(rest, {}, book.used);
      }
    }
  }

  lemma {:induction false} FollowsMore(items: seq<Item>, seen: set<string>, seen': set<string>)
    requires Follows(items, seen) && seen <= seen'
    ensures Follows(items, seen')
  {
    if items != [] {
      if items[0].Called? {
        FollowsMore(items[1..], seen + {items[0].call.id}, seen' + {items[0].call.id});
      } else {
        FollowsMore(items[1..], seen, seen');
      }
    }
  }

  /** A transcript whose user turns all close is paired for a provider. */
  lemma ClosedIsPaired(items: seq<Item>)
    requires Closed(items)
    ensures Paired(items)
  {
    ScanPairs(items, START);
    PairedMeans(items);
  }

  /** A transcript whose earlier user turns are closed lacks results for its open calls only, and it
      is paired exactly when each of those has the id of a call that was answered. */
  lemma OpenIsUnanswered(items: seq<Item>)
    requires Scan(items, START).Book?
    ensures CalledIds(items) - AnsweredIds(items) == Scan(items, START).open - AnsweredIds(items)
    ensures Paired(items) <==> Scan(items, START).open <= AnsweredIds(items)
  {
    ScanPairs(items, START);
    PairedMeans(items);
  }

  /** Ids that never repeat leave no open call with an answered id. */
  lemma OpenIsNew(items: seq<Item>)
    requires Scan(items, START).Book? && Recoverable(items)
    ensures Scan(items, START).open !! AnsweredIds(items)
    ensures Paired(items) <==> Closed(items)
  {
    OpenIsUnanswered(items);
    OpenStaysUnanswered(items, CalledIds(items), {}, START, {});
  }

  lemma {:induction false} OpenStaysUnanswered(items: seq<Item>, all: set<string>, seen: set<string>, book: Book, past: set<string>)
    requires book.Book? && book.open <= book.used <= seen
    requires Local(items, all, seen, book.used) && Scan(items, book).Book?
    requires book.open !! past && past <= seen
    ensures Scan(items, book).open !! past + AnsweredIds(items)
  {
    if items != [] {
      IdsHead(items);
      var it, rest := items[0], items[1..];
      var next := Enter(book, it);
      if next.Broken? {
        ScanBroken(rest);
      }
      match it
      case Called(c) =>
        OpenStaysUnanswered(rest, all, seen + {c.id}, next, past);
      case Answered(id, _, _) =>
        OpenStaysUnanswered(rest, all, seen, next, past + {id});
        assert past + {id} + AnsweredIds(rest) == past + AnsweredIds(items);
      case _ =>
        OpenStaysUnanswered(rest, all, seen, next, past);
    }
  }

  // ------------------------------------------------------------------ sanitizing restores closure

  lemma {:induction false} AnsweredSeenInSegment(items: seq<Item>, all: set<string>, seen: set<string>, seg: set<string>)
    requires Local(items, all, seen, seg)
    ensures AnsweredIds(items) * all * seen <= seg
  {
    if items != [] {
      IdsHead(items);
      var rest := items[1..];
      match items[0]
      case Said(_, turn) => AnsweredSeenInSegment(rest, all, seen, if turn then {} else seg);
      case Called(c) =>
        AnsweredSeenInSegment(rest, all, seen + {c.id}, seg + {c.id});
        assert forall id :: id in AnsweredIds(items) * all * seen ==> id in AnsweredIds(rest) * all * (seen + {c.id});
      case _ => AnsweredSeenInSegment(rest, all, seen, seg);
    }
  }

  lemma {:induction false} KeptCloses(items: seq<Item>, sat: set<string>, all: set<string>, seen: set<string>,
                                      seg: set<string>, open: set<string>, past: set<string>)
    requires Local(items, all, seen, seg) && CalledIds(items) <= all && seg <= seen <= all
    requires open <= seg * sat && open <= AnsweredIds(items)
    requires sat <= past + AnsweredIds(items) && past * all <= seen
    ensures Closes(KeepItems(items, sat, seen * sat), Book(seg * sat, open))
  {
    if items != [] {
      IdsHead(items);
      var it, rest := items[0], items[1..];
      match it
      case Said(_, turn) =>
        if turn {
          AnsweredSeenInSegment(rest, all, seen, {});
          assert open == {};
          assert {} * sat == {};
          KeptCloses(rest, sat, all, seen, {}, {}, past);
        } else {
          KeptCloses(rest, sat, all, seen, seg, open, past);
        }
      case Called(c) =>
        assert c.id in all;
        if c.id in sat {
          assert c.id !in past;
          KeptCloses(rest, sat, all, seen + {c.id}, seg + {c.id}, open + {c.id}, past);
          assert (seen + {c.id}) * sat == seen * sat + {c.id};
          assert (seg + {c.id}) * sat == seg * sat + {c.id};
        } else {
          KeptCloses(rest, sat, all, seen + {c.id}, seg + {c.id}, open, past);
          assert (seen + {c.id}) * sat == seen * sat;
          assert (seg + {c.id}) * sat == seg * sat;
        }
      case Answered(id, _, _) =>
        assert open - {id} <= AnsweredIds(rest);
        KeptCloses(rest, sat, all, seen, seg, open - {id}, past + {id});
        if id in seen * sat {
          assert id in seg * sat;
          assert Enter(Book(seg * sat, open), it) == Book(seg * sat, open - {id});
          KeptHead(it, rest, sat, seen * sat);
        } else {
          assert open - {id} == open;
        }
      case _ =>
        KeptCloses(rest, sat, all, seen, seg, open, past);
    }
  }

  lemma KeptHead(it: Item, rest: seq<Item>, sat: set<string>, act: set<string>)
    requires it.Answered? && it.id in act
    ensures KeepItems([it] + rest, sat, act) == [it] + KeepItems(rest, sat, act)
  {
    assert ([it] + rest)[1..] == rest;
  }

  predicate Closes(items: seq<Item>, book: Book) {
    Scan(items, book).Book? && Scan(items, book).open == {}
  }

  lemma {:induction false} KeptLocal(items: seq<Item>, sat: set<string>, all: set<string>, seen: set<string>, seg: set<string>)
    requires Local(items, all, seen, seg) && seen <= all && CalledIds(items) <= all
    ensures Local(KeepItems(items, sat, seen * sat), all * sat, seen * sat, seg * sat)
  {
    if items != [] {
      IdsHead(items);
      var it, rest := items[0], items[1..];
      match it
      case Said(_, turn) =>
        assert {} * sat == {};
        KeptLocal(rest, sat, all, seen, if turn then {} else seg);
      case Called(c) =>
        KeptLocal(rest, sat, all, seen + {c.id}, seg + {c.id});
        if c.id in sat {
          assert (seen + {c.id}) * sat == seen * sat + {c.id};
          assert (seg + {c.id}) * sat == seg * sat + {c.id};
        } else {
          assert (seen + {c.id}) * sat == seen * sat;
          assert (seg + {c.id}) * sat == seg * sat;
        }
      case _ =>
        KeptLocal(rest, sat, all, seen, seg);
    }
  }

  /** The ids of the calls that some user turn left unanswered; `open` are those of the current one. */
  function Dangling(items: seq<Item>, open: set<string>): set<string> {
    if items == [] then open
    else match items[0]
      case Said(_, turn) => if turn then open + Dangling(items[1..], {}) else Dangling(items[1..], open)
      case Called(c) => Dangling(items[1..], open + {c.id})
      case Answered(id, _, _) => Dangling(items[1..], open - {id})
      case _ => Dangling(items[1..], open)
  }

  /** The ids answered by a user turn that had not called them, though an earlier one had. */
  function Stray(items: seq<Item>, seen: set<string>, seg: set<string>): set<string> {
    if items == [] then {}
    else match items[0]
      case Called(c) => Stray(items[1..], seen + {c.id}, seg + {c.id})
      case Answered(id, _, _) => (if id in seen && id !in seg then {id} else {}) + Stray(items[1..], seen, seg)
      case _ => Stray(items[1..], seen, Into(seg, items[0]))
  }

  /** No call left unanswered has the id of an answered one, and no result belongs to an earlier user
      turn. The empty id, which counts as unanswered, does not matter. */
  predicate Mendable(items: seq<Item>) {
    Dangling(items, {}) * AnsweredIds(items) <= {""} && Stray(items, {}, {}) <= {""}
  }

  lemma {:induction false} KeptClosesIff(items: seq<Item>, sat: set<string>, seen: set<string>, seg: set<string>, open: set<string>)
    requires open <= seg <= seen
    ensures Closes(KeepItems(items, sat, seen * sat), Book(seg * sat, open * sat))
            <==> Dangling(items, open) * sat == {} && Stray(items, seen, seg) * sat == {}
  {
    if items != [] {
      var it, rest := items[0], items[1..];
      match it
      case Said(_, turn) =>
        assert {} * sat == {};
        KeptClosesIff(rest, sat, seen, if turn then {} else seg, if turn then {} else open);
        KeptSaid(it, KeepItems(rest, sat, seen * sat), Book(seg * sat, open * sat));
        if turn {
          assert (open + Dangling(rest, {})) * sat == open * sat + Dangling(rest, {}) * sat;
        }
      case Called(c) =>
        KeptClosesIff(rest, sat, seen + {c.id}, seg + {c.id}, open + {c.id});
        if c.id in sat {
          assert (seen + {c.id}) * sat == seen * sat + {c.id};
          assert (seg + {c.id}) * sat == seg * sat + {c.id} && (open + {c.id}) * sat == open * sat + {c.id};
        } else {
          assert (seen + {c.id}) * sat == seen * sat;
          assert (seg + {c.id}) * sat == seg * sat && (open + {c.id}) * sat == open * sat;
        }
      case Answered(id, _, _) =>
        KeptClosesIff(rest, sat, seen, seg, open - {id});
        StraySplit(id, rest, seen, seg, sat);
        if id in seen * sat {
          KeptHead(it, rest, sat, seen * sat);
          if id in seg {
            assert (open - {id}) * sat == open * sat - {id};
          } else {
            ScanBroken(KeepItems(rest, sat, seen * sat));
          }
        } else {
          assert (open - {id}) * sat == open * sat;
        }
      case _ =>
        KeptClosesIff(rest, sat, seen, seg, open);
    }
  }

  lemma StraySplit(id: string, rest: seq<Item>, seen: set<string>, seg: set<string>, sat: set<string>)
    ensures ((if id in seen && id !in seg then {id} else {}) + Stray(rest, seen, seg)) * sat == {} <==>
            !(id in seen * sat && id !in seg) && Stray(rest, seen, seg) * sat == {}
  {
    var mine := if id in seen && id !in seg then {id} else {};
    assert (mine + Stray(rest, seen, seg)) * sat == mine * sat + Stray(rest, seen, seg) * sat;
  }

  lemma KeptSaid(it: Item, rest: seq<Item>, book: Book)
    requires it.Said? && book.Book?
    ensures Closes([it] + rest, book) <==> (it.turn ==> book.open == {}) && Closes(rest, if it.turn then START else book)
  {
    assert ([it] + rest)[1..] == rest;
    if it.turn && book.open != {} {
      ScanBroken(rest);
    }
  }

  lemma {:induction false} StrayIsAnswered(items: seq<Item>, seen: set<string>, seg: set<string>)
    ensures Stray(items, seen, seg) <= AnsweredIds(items)
  {
    if items != [] {
      IdsHead(items);
      match items[0]
      case Called(c) => StrayIsAnswered(items[1..], seen + {c.id}, seg + {c.id});
      case _ => StrayIsAnswered(items[1..], seen, Into(seg, items[0]));
    }
  }

  lemma ClosesIffMendable(items: seq<Item>)
    ensures Closed(KeepItems(items, AnsweredIds(items) - {""}, {})) <==> Mendable(items)
  {
    var sat := AnsweredIds(items) - {""};
    KeptClosesIff(items, sat, {}, {}, {});
    StrayIsAnswered(items, {}, {});
    assert {} * sat == {};
  }

  /** One sanitizing pass closes every user turn exactly when the transcript is mendable. */
  lemma SanitizeClosesIff(ctx: seq<Message>)
    ensures Closed(Items(Sanitize(ctx))) <==> Mendable(Items(ctx))
  {
    SanitizeItems(ctx);
    ClosesIffMendable(Items(ctx));
  }

  lemma {:induction false} ScanDangles(items: seq<Item>, seen: set<string>, book: Book)
    requires book.Book? && book.used <= seen && Scan(items, book).Book?
    ensures Dangling(items, book.open) == Scan(items, book).open && Stray(items, seen, book.used) == {}
  {
    if items != [] {
      var it, rest := items[0], items[1..];
      var next := Enter(book, it);
      if next.Broken? {
        ScanBroken(rest);
      }
      ScanDangles(rest, if it.Called? then seen + {it.call.id} else seen, next);
    }
  }

  /** When only the last user turn is open, what matters is whether an open call has the id of an
      answered one. So an interrupted round, or a pause that is not resumed, does harm exactly when
      it leaves a call open whose id was used and answered before. */
  lemma OpenTurnMendsIff(items: seq<Item>)
    requires Scan(items, START).Book?
    ensures Mendable(items) <==> Scan(items, START).open * AnsweredIds(items) <= {""}
  {
    ScanDangles(items, {}, START);
  }

  lemma ClosedIsMendable(items: seq<Item>)
    requires Closed(items)
    ensures Mendable(items)
  {
    OpenTurnMendsIff(items);
  }

  /** Without repeated ids every transcript an interrupted run can leave is mendable. */
  lemma RecoverableIsMendable(items: seq<Item>)
    requires Recoverable(items)
    ensures Mendable(items)
  {
    var sat := AnsweredIds(items) - {""};
    assert {} * sat == {};
    KeptCloses(items, sat, CalledIds(items), {}, {}, {}, {});
    ClosesIffMendable(items);
  }

  /** What sanitizing keeps of the ids, and that it leaves a recoverable run recoverable. */
  lemma SanitizeLedger(ctx: seq<Message>)
    ensures CalledIds(Items(Sanitize(ctx))) == CalledIds(Items(ctx)) * (AnsweredIds(Items(ctx)) - {""})
    ensures AnsweredIds(Items(Sanitize(ctx))) <= AnsweredIds(Items(ctx))
    ensures Recoverable(Items(ctx)) ==> Recoverable(Items(Sanitize(ctx)))
  {
    var items := Items(ctx);
    var all, sat := CalledIds(items), AnsweredIds(items) - {""};
    SanitizeItems(ctx);
    OnePass(ctx);
    KeptIds(items, sat, {});
    if Recoverable(items) {
      assert {} * sat == {};
      KeptLocal(items, sat, all, {}, {});
    }
  }

  // ------------------------------------------------------------------ what appending does

  lemma {:induction false} LocalMoreCalls(items: seq<Item>, all: set<string>, more: set<string>, seen: set<string>, seg: set<string>)
    requires Local(items, all, seen, seg) && AnsweredIds(items) !! more
    ensures Local(items, all + more, seen, seg)
  {
    if items != [] {
      IdsHead(items);
      var rest := items[1..];
      assert items[0].Answered? ==> items[0].id in AnsweredIds([items[0]]);
      match items[0]
      case Said(_, turn) => LocalMoreCalls(rest, all, more, seen, if turn then {} else seg);
      case Called(c) => LocalMoreCalls(rest, all, more, seen + {c.id}, seg + {c.id});
      case _ => LocalMoreCalls(rest, all, more, seen, seg);
    }
  }

  /** Appending items that make new calls but answer none. */
  lemma AppendFresh(items: seq<Item>, more: seq<Item>)
    requires Recoverable(items) && AnsweredIds(more) == {}
    requires CalledIds(more) !! CalledIds(items) + AnsweredIds(items)
    requires Local(more, CalledIds(more), {}, {})
    ensures Recoverable(items + more)
  {
    IdsConcat(items, more);
    LocalMoreCalls(items, CalledIds(items), CalledIds(more), {}, {});
    LocalConcat(items, more, CalledIds(items + more), {}, {});
    LocalElsewhere(more, CalledIds(more), CalledIds(items + more), {}, CalledIds(items), {}, Segment(items, {}));
    assert {} + CalledIds(items) == CalledIds(items) + {};
  }

  lemma {:induction false} LocalElsewhere(items: seq<Item>, all: set<string>, all': set<string>, seen: set<string>, before: set<string>,
                                          seg: set<string>, seg': set<string>)
    requires Local(items, all, seen, seg) && AnsweredIds(items) == {} && CalledIds(items) !! before
    ensures Local(items, all', before + seen, seg')
  {
    if items != [] {
      IdsHead(items);
      var rest := items[1..];
      match items[0]
      case Answered(id, _, _) => assert false;
      case Said(_, turn) => LocalElsewhere(rest, all, all', seen, before, if turn then {} else seg, if turn then {} else seg');
      case Called(c) =>
        assert c.id in CalledIds([items[0]]);
        LocalElsewhere(rest, all, all', seen + {c.id}, before, seg + {c.id}, seg' + {c.id});
        assert before + seen + {c.id} == before + (seen + {c.id});
      case _ => LocalElsewhere(rest, all, all', seen, before, seg, seg');
    }
  }

  /** Appending a result. For a call of the current user turn, or for no call at all, it keeps a run
      recoverable. */
  lemma AppendAnswer(items: seq<Item>, id: string, name: string, content: string)
    ensures Recoverable(items) && (id in Segment(items, {}) || id !in CalledIds(items)) ==> Recoverable(items + [Answered(id, name, content)])
    ensures CalledIds(items + [Answered(id, name, content)]) == CalledIds(items)
    ensures AnsweredIds(items + [Answered(id, name, content)]) == AnsweredIds(items) + {id}
    ensures Segment(items + [Answered(id, name, content)], {}) == Segment(items, {})
  {
    var it := Answered(id, name, content);
    IdsConcat(items, [it]);
    assert CalledIds([it]) == {} && AnsweredIds([it]) == {id};
    assert CalledIds(items + [it]) == CalledIds(items);
    assert [it][1..] == [];
    LocalConcat(items, [it], CalledIds(items), {}, {});
    SegmentConcat(items, [it], {});
  }

  lemma AppendSaid(items: seq<Item>, text: string, turn: bool)
    ensures Recoverable(items) <==> Recoverable(items + [Said(text, turn)])
    ensures CalledIds(items + [Said(text, turn)]) == CalledIds(items)
    ensures AnsweredIds(items + [Said(text, turn)]) == AnsweredIds(items)
    ensures Closed(items) ==> Closed(items + [Said(text, turn)])
    ensures turn && Closed(items + [Said(text, turn)]) ==> Closed(items)
  {
    var it := Said(text, turn);
    IdsConcat(items, [it]);
    assert CalledIds([it]) == {} && AnsweredIds([it]) == {};
    assert CalledIds(items + [it]) == CalledIds(items) && AnsweredIds(items + [it]) == AnsweredIds(items);
    assert [it][1..] == [];
    LocalConcat(items, [it], CalledIds(items), {}, {});
    ScanConcat(items, [it], START);
  }

  /** A user message changes nothing about pairing. */
  lemma SaidKeepsPairing(ctx: seq<Message>, text: string, turn: bool)
    ensures Paired(Items(ctx + [User(text, turn)])) <==> Paired(Items(ctx))
    ensures CalledIds(Items(ctx + [User(text, turn)])) == CalledIds(Items(ctx))
    ensures AnsweredIds(Items(ctx + [User(text, turn)])) == AnsweredIds(Items(ctx))
    ensures Recoverable(Items(ctx + [User(text, turn)])) <==> Recoverable(Items(ctx))
    ensures Closed(Items(ctx)) ==> Closed(Items(ctx + [User(text, turn)]))
    ensures turn && Closed(Items(ctx + [User(text, turn)])) ==> Closed(Items(ctx))
  {
    var said := [Said(text, turn)];
    ItemsConcat(ctx, [User(text, turn)]);
    assert Items([User(text, turn)]) == said && said[1..] == [];
    AppendSaid(Items(ctx), text, turn);
    PairedMeans(Items(ctx));
    PairedMeans(Items(ctx) + said);
    FollowsSplit(Items(ctx), said, {});
  }

  // ------------------------------------------------------------------ what pruning and cutting do

  lemma {:induction false} DropLocal(items: seq<Item>, ids: set<string>, all: set<string>, seen: set<string>, seg: set<string>)
    requires Local(items, all, seen, seg)
    ensures Local(DropItems(items, ids), all - ids, seen - ids, seg - ids)
  {
    if items != [] {
      var it, rest := items[0], items[1..];
      match it
      case Said(_, turn) =>
        assert {} - ids == {};
        DropLocal(rest, ids, all, seen, if turn then {} else seg);
      case Called(c) =>
        DropLocal(rest, ids, all, seen + {c.id}, seg + {c.id});
        if c.id in ids {
          assert seen + {c.id} - ids == seen - ids && seg + {c.id} - ids == seg - ids;
        } else {
          assert seen + {c.id} - ids == seen - ids + {c.id} && seg + {c.id} - ids == seg - ids + {c.id};
        }
      case _ =>
        DropLocal(rest, ids, all, seen, seg);
    }
  }

  lemma {:induction false} DropSegment(items: seq<Item>, ids: set<string>, seg: set<string>)
    ensures Segment(DropItems(items, ids), seg - ids) == Segment(items, seg) - ids
  {
    if items != [] {
      var it, rest := items[0], items[1..];
      assert {} - ids == {};
      DropSegment(rest, ids, Into(seg, it));
      if it.Called? && it.call.id in ids {
        assert seg + {it.call.id} - ids == seg - ids;
      } else if it.Called? {
        assert seg + {it.call.id} - ids == seg - ids + {it.call.id};
      }
    }
  }

  lemma {:induction false} DropScan(items: seq<Item>, ids: set<string>, book: Book)
    requires book.Book? && Scan(items, book).Book?
    ensures Scan(DropItems(items, ids), Book(book.used - ids, book.open - ids)) ==
            Book(Scan(items, book).used - ids, Scan(items, book).open - ids)
  {
    if items != [] {
      var it, rest := items[0], items[1..];
      var next := Enter(book, it);
      if next.Broken? {
        ScanBroken(rest);
      }
      DropScan(rest, ids, next);
      match it
      case Called(c) =>
        if c.id in ids {
          assert next.used - ids == book.used - ids && next.open - ids == book.open - ids;
        } else {
          assert next.used - ids == book.used - ids + {c.id} && next.open - ids == book.open - ids + {c.id};
        }
      case Answered(id, _, _) =>
        if id in ids {
          assert next.open - ids == book.open - ids;
        } else {
          assert next.open - ids == book.open - ids - {id};
        }
      case _ =>
        assert {} - ids == {};
    }
  }

  /** Pruning leaves open only what was open, and a recoverable run recoverable. */
  lemma PruneLedger(ctx: seq<Message>)
    ensures Recoverable(Items(ctx)) ==> Recoverable(Items(Prune(ctx)))
    ensures CalledIds(Items(Prune(ctx))) == CalledIds(Items(ctx)) - EphemeralIds(ctx)
    ensures AnsweredIds(Items(Prune(ctx))) <= AnsweredIds(Items(ctx))
    ensures Segment(Items(Prune(ctx)), {}) == Segment(Items(ctx), {}) - EphemeralIds(ctx)
    ensures Scan(Items(ctx), START).Book? ==>
              && Scan(Items(Prune(ctx)), START).Book?
              && Scan(Items(Prune(ctx)), START).open == Scan(Items(ctx), START).open - EphemeralIds(ctx)
  {
    var items, ids := Items(ctx), EphemeralIds(ctx);
    PruneItems(ctx);
    DroppedIds(items, ids);
    assert {} - ids == {};
    DropSegment(items, ids, {});
    if Recoverable(items) {
      DropLocal(items, ids, CalledIds(items), {}, {});
    }
    if Scan(items, START).Book? {
      DropScan(items, ids, START);
    }
  }

  /** Two transcripts that differ only in the content of results look the same to the ledger. */
  predicate SameShape(a: seq<Item>, b: seq<Item>) {
    && |a| == |b|
    && forall i :: 0 <= i < |a| ==> a[i] == b[i] || (a[i].Answered? && b[i].Answered? && a[i].id == b[i].id)
  }

  lemma {:induction false} ShapeLedger(a: seq<Item>, b: seq<Item>, book: Book, all: set<string>, seen: set<string>, seg: set<string>)
    requires SameShape(a, b)
    ensures Scan(a, book) == Scan(b, book)
    ensures Local(a, all, seen, seg) == Local(b, all, seen, seg)
    ensures CalledIds(a) == CalledIds(b) && AnsweredIds(a) == AnsweredIds(b)
  {
    if a != [] {
      IdsHead(a);
      IdsHead(b);
      var seen' := if a[0].Called? then seen + {a[0].call.id} else seen;
      var seg' := match a[0] case Said(_, turn) => if turn then {} else seg case Called(c) => seg + {c.id} case _ => seg;
      ShapeLedger(a[1..], b[1..], Enter(book, a[0]), all, seen', seg');
      assert CalledIds([a[0]]) == CalledIds([b[0]]) && AnsweredIds([a[0]]) == AnsweredIds([b[0]]);
    }
  }

  /** Replacing everything before a user turn by text keeps closure and recoverability. */
  lemma CutLedger(before: seq<Item>, after: seq<Item>, summary: seq<Item>)
    requires after != [] && after[0].Said? && after[0].turn
    requires forall it :: it in summary ==> it.Said? && !it.turn
    ensures Recoverable(before + after) ==> Recoverable(summary + after)
    ensures Closed(before + after) ==> Closed(summary + after)
    ensures CalledIds(summary + after) == CalledIds(after) && AnsweredIds(summary + after) == AnsweredIds(after)
  {
    IdsConcat(before, after);
    IdsConcat(summary, after);
    SummarySilent(summary);
    ScanConcat(before, after, START);
    ScanConcat(summary, after, START);
    LocalConcat(before, after, CalledIds(before + after), {}, {});
    LocalConcat(summary, after, CalledIds(summary + after), {}, {});
    assert {} + CalledIds(summary) == {};
    assert CalledIds(summary + after) == CalledIds(after) && AnsweredIds(summary + after) == AnsweredIds(after);
    if Recoverable(before + after) {
      LocalSubset(after, CalledIds(before + after), CalledIds(after), {} + CalledIds(before), {}, Segment(before, {}), {});
      LocalAnyAll(summary, CalledIds(summary + after));
    }
    if Closed(before + after) {
      ScanFromTurn(after, Scan(before, START));
    }
  }

  /** Cutting a transcript whose earlier turns are closed leaves a paired one exactly when no open call
      has an id that was answered in the part cut away only. */
  lemma CutPairsIff(before: seq<Item>, after: seq<Item>, summary: seq<Item>)
    requires after != [] && after[0].Said? && after[0].turn
    requires forall it :: it in summary ==> it.Said? && !it.turn
    requires Scan(before + after, START).Book?
    ensures Paired(summary + after) <==> Scan(before + after, START).open <= AnsweredIds(after)
  {
    IdsConcat(summary, after);
    SummarySilent(summary);
    ScanConcat(before, after, START);
    ScanConcat(summary, after, START);
    ScanFromTurn(after, Scan(before, START));
    OpenIsUnanswered(summary + after);
  }

  lemma {:induction false} SummarySilent(items: seq<Item>)
    requires forall it :: it in items ==> it.Said? && !it.turn
    ensures CalledIds(items) == {} && AnsweredIds(items) == {}
    ensures Scan(items, START) == START && Segment(items, {}) == {}
  {
    if items != [] {
      IdsHead(items);
      assert items[0] in items;
      SummarySilent(items[1..]);
    }
  }

  lemma {:induction false} LocalAnyAll(items: seq<Item>, all: set<string>)
    requires forall it :: it in items ==> it.Said? && !it.turn
    ensures Local(items, all, {}, {})
  {
    if items != [] {
      assert items[0] in items;
      LocalAnyAll(items[1..], all);
    }
  }

  lemma {:induction false} LocalSubset(items: seq<Item>, all: set<string>, all': set<string>, seen: set<string>, seen': set<string>,
                                       seg: set<string>, seg': set<string>)
    requires Local(items, all, seen, seg) && all' <= all && seen' <= seen
    requires items != [] && items[0].Said? && items[0].turn
    ensures Local(items, all', seen', seg')
  {
    LocalWeaken(items[1..], all, all', seen, seen', {});
  }

  lemma {:induction false} LocalWeaken(items: seq<Item>, all: set<string>, all': set<string>, seen: set<string>, seen': set<string>, seg: set<string>)
    requires Local(items, all, seen, seg) && all' <= all && seen' <= seen
    ensures Local(items, all', seen', seg)
  {
    if items != [] {
      var rest := items[1..];
      match items[0]
      case Said(_, turn) => LocalWeaken(rest, all, all', seen, seen', if turn then {} else seg);
      case Called(c) => LocalWeaken(rest, all, all', seen + {c.id}, seen' + {c.id}, seg + {c.id});
      case _ => LocalWeaken(rest, all, all', seen, seen', seg);
    }
  }

  lemma ScanFromTurn(after: seq<Item>, book: Book)
    requires after != [] && after[0].Said? && after[0].turn
    requires Scan(after, book).Book?
    ensures Scan(after, START) == Scan(after, book)
  {
    if book.Broken? {
      ScanBroken(after);
    } else if book.open != {} {
      ScanBroken(after[1..]);
    }
  }
}
