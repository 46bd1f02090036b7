/**
  One round of tool calls: cached calls are replayed, calls of concurrency-safe tools run together
  and finish in any order, the others run one after another.
 */
module Dispatch {
  import opened Transcript
  import opened Ledger
  import opened Research

  type Cache = map<Key, string>

  datatype ToolOutcome = Ran(content: string, isError: bool) | Raised

  datatype RoundEnd = Completed | Amended | Broke

  /** A finished tool call. */
  datatype Done = Done(call: ToolCall, content: string, isError: bool)

  predicate IsReplay(tc: ToolCall, cache: Cache) {
    KeyOf(tc) in cache
  }

  function Replays(calls: seq<ToolCall>, cache: Cache): seq<ToolCall> {
    if calls == [] then []
    else (if IsReplay(calls[0], cache) then [calls[0]] else []) + Replays(calls[1..], cache)
  }

  function Concurrent(calls: seq<ToolCall>, cache: Cache, safe: string -> bool): seq<ToolCall> {
    if calls == [] then []
    else (if !IsReplay(calls[0], cache) && safe(calls[0].name) then [calls[0]] else []) + Concurrent(calls[1..], cache, safe)
  }

  function Serial(calls: seq<ToolCall>, cache: Cache, safe: string -> bool): seq<ToolCall> {
    if calls == [] then []
    else (if !IsReplay(calls[0], cache) && !safe(calls[0].name) then [calls[0]] else []) + Serial(calls[1..], cache, safe)
  }

  /** The calls of a round in the order in which the transcript will answer them. */
  function Agenda(calls: seq<ToolCall>, cache: Cache, safe: string -> bool): seq<ToolCall> {
    Replays(calls, cache) + Concurrent(calls, cache, safe) + Serial(calls, cache, safe)
  }

  lemma CountCons(head: ToolCall, rest: seq<ToolCall>, tc: ToolCall)
    ensures multiset([head] + rest)[tc] == (if tc == head then 1 else 0) + multiset(rest)[tc]
  {
    assert multiset([head] + rest) == multiset{head} + multiset(rest);
  }

  lemma {:induction false} SplitCounts(calls: seq<ToolCall>, cache: Cache, safe: string -> bool, tc: ToolCall)
    ensures multiset(Replays(calls, cache))[tc] + multiset(Concurrent(calls, cache, safe))[tc] + multiset(Serial(calls, cache, safe))[tc]
            == multiset(calls)[tc]
  {
    if calls != [] {
      var head, rest := calls[0], calls[1..];
      SplitCounts(rest, cache, safe, tc);
      assert calls == [head] + rest;
      CountCons(head, rest, tc);
      if IsReplay(head, cache) {
        CountCons(head, Replays(rest, cache), tc);
      } else if safe(head.name) {
        CountCons(head, Concurrent(rest, cache, safe), tc);
      } else {
        CountCons(head, Serial(rest, cache, safe), tc);
      }
      assert forall s: seq<ToolCall> :: [] + s == s;
    }
  }

  lemma SplitIsRequest(calls: seq<ToolCall>, cache: Cache, safe: string -> bool)
    ensures multiset(Replays(calls, cache)) + multiset(Concurrent(calls, cache, safe)) + multiset(Serial(calls, cache, safe))
            == multiset(calls)
  {
    var parts := multiset(Replays(calls, cache)) + multiset(Concurrent(calls, cache, safe)) + multiset(Serial(calls, cache, safe));
    forall tc: ToolCall ensures parts[tc] == multiset(calls)[tc] { SplitCounts(calls, cache, safe, tc); }
  }

  lemma AgendaIsRequest(calls: seq<ToolCall>, cache: Cache, safe: string -> bool)
    ensures multiset(Agenda(calls, cache, safe)) == multiset(calls)
    ensures |Agenda(calls, cache, safe)| == |calls|
  {
    SplitIsRequest(calls, cache, safe);
    var r, c, s := Replays(calls, cache), Concurrent(calls, cache, safe), Serial(calls, cache, safe);
    assert multiset(r + c + s) == multiset(r) + multiset(c) + multiset(s);
    assert |multiset(Agenda(calls, cache, safe))| == |multiset(calls)|;
  }

  // ------------------------------------------------------------------ what finished calls leave behind

  /** The call cache after recording finished calls one by one. */
  function Settle(cache: Cache, done: seq<Done>): Cache
    decreases |done|
  {
    if done == [] then cache else Settle(cache[KeyOf(done[0].call) := done[0].content], done[1..])
  }

  predicate AnyProgress(done: seq<Done>) {
    exists d :: d in done && !d.isError
  }

  /** Finished calls looked up by call id, later ones winning. */
  function ById(done: seq<Done>, found: map<string, Done>): map<string, Done> {
    if done == [] then found else ById(done[1..], found[done[0].call.id := done[0]])
  }

  ghost predicate DistinctDone(done: seq<Done>) {
    forall i, j :: 0 <= i < j < |done| ==> KeyOf(done[i].call) != KeyOf(done[j].call)
  }

  ghost predicate DistinctDoneIds(done: seq<Done>) {
    forall i, j :: 0 <= i < j < |done| ==> done[i].call.id != done[j].call.id
  }

  lemma {:induction false} SettleConcat(cache: Cache, a: seq<Done>, b: seq<Done>)
    ensures Settle(cache, a + b) == Settle(Settle(cache, a), b)
    decreases |a|
  {
    if a == [] {
      assert a + b == b;
    } else {
      assert (a + b)[0] == a[0] && (a + b)[1..] == a[1..] + b;
      SettleConcat(cache[KeyOf(a[0].call) := a[0].content], a[1..], b);
    }
  }

  /** The settled cache, key by key. */
  lemma {:induction false} SettledAt(cache: Cache, done: seq<Done>)
    requires DistinctDone(done)
    ensures forall d :: d in done ==> KeyOf(d.call) in Settle(cache, done) && Settle(cache, done)[KeyOf(d.call)] == d.content
    ensures forall k :: k in Settle(cache, done) <==> k in cache || exists d :: d in done && KeyOf(d.call) == k
    ensures forall k :: k in cache && (forall d :: d in done ==> KeyOf(d.call) != k) ==>
              k in Settle(cache, done) && Settle(cache, done)[k] == cache[k]
    decreases |done|
  {
    if done != [] {
      var head, rest := done[0], done[1..];
      var cache' := cache[KeyOf(head.call) := head.content];
      assert DistinctDone(rest);
      SettledAt(cache', rest);
      assert forall d :: d in done <==> d == head || d in rest;
      forall d | d in rest ensures KeyOf(d.call) != KeyOf(head.call) {
        var i :| 0 <= i < |rest| && rest[i] == d;
        assert done[i + 1] == d;
      }
    }
  }

  /** Whatever order the calls of a batch finish in, the cache afterwards is the same. */
  lemma SettleAnyOrder(cache: Cache, a: seq<Done>, b: seq<Done>)
    requires DistinctDone(a) && DistinctDone(b)
    requires forall d :: d in a <==> d in b
    ensures Settle(cache, a) == Settle(cache, b)
  {
    SettledAt(cache, a);
    SettledAt(cache, b);
    var sa, sb := Settle(cache, a), Settle(cache, b);
    forall k ensures (k in sa <==> k in sb) && (k in sa ==> sa[k] == sb[k]) {
      if k in sa {
        if d :| d in a && KeyOf(d.call) == k {
          assert d in b;
        }
      }
      if k in sb {
        if d :| d in b && KeyOf(d.call) == k {
          assert d in a;
        }
      }
    }
  }

  /** With a repeated key it is not: the cache keeps whichever call finished last. */
  lemma SettleOrderMattersForRepeatedKeys(name: string, input: Args)
    ensures var a := Done(ToolCall("1", name, input), "first", false);
            var b := Done(ToolCall("2", name, input), "second", false);
            Settle(map[], [a, b]) != Settle(map[], [b, a])
  {
    var a := Done(ToolCall("1", name, input), "first", false);
    var b := Done(ToolCall("2", name, input), "second", false);
    SettleConcat(map[], [a], [b]);
    SettleConcat(map[], [b], [a]);
    assert [a] + [b] == [a, b] && [b] + [a] == [b, a];
    assert [a][1..] == [] && [b][1..] == [];
    assert Settle(map[], [a, b])[(name, input)] == "second";
    assert Settle(map[], [b, a])[(name, input)] == "first";
  }

  lemma {:induction false} FoundById(done: seq<Done>, found: map<string, Done>)
    requires DistinctDoneIds(done)
    ensures forall d :: d in done ==> d.call.id in ById(done, found) && ById(done, found)[d.call.id] == d
    ensures forall id :: id in found && (forall d :: d in done ==> d.call.id != id) ==>
              id in ById(done, found) && ById(done, found)[id] == found[id]
  {
    if done != [] {
      var head, rest := done[0], done[1..];
      assert DistinctDoneIds(rest);
      FoundById(rest, found[head.call.id := head]);
      assert forall d :: d in done <==> d == head || d in rest;
      forall d | d in rest ensures d.call.id != head.call.id {
        var i :| 0 <= i < |rest| && rest[i] == d;
        assert done[i + 1] == d;
      }
    }
  }

  // ------------------------------------------------------------------ the result of a round

  /** What the tools of a batch answer when it starts at moment `t`: together, or one tick apart. */
  function TogetherDone(tool: (nat, ToolCall) -> ToolOutcome, t: nat, calls: seq<ToolCall>): seq<Done> {
    if calls == [] then []
    else
      (match tool(t, calls[0])
       case Ran(content, isError) => [Done(calls[0], content, isError)]
       case Raised => [Done(calls[0], "", true)]) + TogetherDone(tool, t, calls[1..])
  }

  function InTurnDone(tool: (nat, ToolCall) -> ToolOutcome, t: nat, calls: seq<ToolCall>): seq<Done>
    decreases |calls|
  {
    if calls == [] then []
    else
      (match tool(t, calls[0])
       case Ran(content, isError) => [Done(calls[0], content, isError)]
       case Raised => [Done(calls[0], "", true)]) + InTurnDone(tool, t + 1, calls[1..])
  }

  function Answer(d: Done): Message {
    ToolResult(d.call.id, d.call.name, d.content)
  }

  function Answers(done: seq<Done>): seq<Message> {
    if done == [] then [] else [Answer(done[0])] + Answers(done[1..])
  }

  /** A cached call is answered from the cache. */
  function ReplayAnswers(cache: Cache, calls: seq<ToolCall>): seq<Message>
    requires forall tc :: tc in calls ==> IsReplay(tc, cache)
  {
    if calls == [] then []
    else
      var tc := calls[0];
      assert tc in calls && IsReplay(tc, cache);
      [ToolResult(tc.id, tc.name, cache[KeyOf(tc)])] + ReplayAnswers(cache, calls[1..])
  }

  lemma {:induction false} ReplaysAreCached(calls: seq<ToolCall>, cache: Cache)
    ensures forall tc :: tc in Replays(calls, cache) ==> IsReplay(tc, cache)
  {
    if calls != [] {
      ReplaysAreCached(calls[1..], cache);
    }
  }

  /** The calls a round executes, with what they answer, in transcript order. */
  function Executed(tool: (nat, ToolCall) -> ToolOutcome, t: nat, calls: seq<ToolCall>, cache: Cache, safe: string -> bool): seq<Done> {
    TogetherDone(tool, t, Concurrent(calls, cache, safe)) + InTurnDone(tool, t + 1, Serial(calls, cache, safe))
  }

  /** The answers of a whole round; the finishing order of the concurrent calls plays no part in it. */
  function RoundAnswers(tool: (nat, ToolCall) -> ToolOutcome, t: nat, calls: seq<ToolCall>, cache: Cache, safe: string -> bool): seq<Message> {
    ReplaysAreCached(calls, cache);
    ReplayAnswers(cache, Replays(calls, cache)) + Answers(Executed(tool, t, calls, cache, safe))
  }

  // ------------------------------------------------------------------ indexing facts

  lemma {:induction false} TogetherAt(tool: (nat, ToolCall) -> ToolOutcome, t: nat, calls: seq<ToolCall>)
    ensures var done := TogetherDone(tool, t, calls);
            && |done| == |calls|
            && forall i :: 0 <= i < |calls| ==>
                 done[i].call == calls[i] && (tool(t, calls[i]).Ran? ==> done[i] == Done(calls[i], tool(t, calls[i]).content, tool(t, calls[i]).isError))
  {
    if calls != [] {
      TogetherAt(tool, t, calls[1..]);
    }
  }

  ghost predicate AnswersInTurn(tool: (nat, ToolCall) -> ToolOutcome, t: nat, calls: seq<ToolCall>, all: seq<Done>) {
    && |all| == |calls|
    && forall i :: 0 <= i < |calls| ==>
         all[i].call == calls[i] &&
         (tool(t + i, calls[i]).Ran? ==> all[i] == Done(calls[i], tool(t + i, calls[i]).content, tool(t + i, calls[i]).isError))
  }

  lemma {:induction false} InTurnAt(tool: (nat, ToolCall) -> ToolOutcome, t: nat, calls: seq<ToolCall>)
    decreases |calls|
    ensures AnswersInTurn(tool, t, calls, InTurnDone(tool, t, calls))
  {
    if calls != [] {
      InTurnAt(tool, t + 1, calls[1..]);
      var tail := InTurnDone(tool, t + 1, calls[1..]);
      var all := InTurnDone(tool, t, calls);
      forall i | 0 <= i < |calls|
        ensures all[i].call == calls[i] &&
                (tool(t + i, calls[i]).Ran? ==> all[i] == Done(calls[i], tool(t + i, calls[i]).content, tool(t + i, calls[i]).isError))
      {
        if i > 0 {
          assert all[i] == tail[i - 1] && calls[1..][i - 1] == calls[i];
          assert t + 1 + (i - 1) == t + i;
        }
      }
    }
  }

  predicate IsReplayAnswer(m: Message, tc: ToolCall, cache: Cache) {
    IsReplay(tc, cache) && m == ToolResult(tc.id, tc.name, cache[KeyOf(tc)])
  }

  lemma {:induction false} ReplayAt(cache: Cache, calls: seq<ToolCall>)
    requires forall tc :: tc in calls ==> IsReplay(tc, cache)
    ensures |ReplayAnswers(cache, calls)| == |calls|
    ensures forall i :: 0 <= i < |calls| ==> IsReplayAnswer(ReplayAnswers(cache, calls)[i], calls[i], cache)
  {
    if calls != [] {
      assert calls[0] in calls;
      ReplayAt(cache, calls[1..]);
    }
  }

  lemma {:induction false} AnswersAt(done: seq<Done>)
    ensures |Answers(done)| == |done|
    ensures forall i :: 0 <= i < |done| ==> Answers(done)[i] == Answer(done[i])
  {
    if done != [] {
      AnswersAt(done[1..]);
    }
  }

  lemma AnswersConcat(a: seq<Done>, b: seq<Done>)
    ensures Answers(a + b) == Answers(a) + Answers(b)
  {
    AnswersAt(a);
    AnswersAt(b);
    AnswersAt(a + b);
  }

  predicate Answering(m: Message, tc: ToolCall) {
    m.ToolResult? && m.id == tc.id && m.name == tc.name
  }

  ghost predicate AnswerOneByOne(answers: seq<Message>, calls: seq<ToolCall>) {
    |answers| == |calls| && forall i :: 0 <= i < |answers| ==> Answering(answers[i], calls[i])
  }

  lemma AnswerConcat(a: seq<Message>, a': seq<ToolCall>, b: seq<Message>, b': seq<ToolCall>)
    requires AnswerOneByOne(a, a') && AnswerOneByOne(b, b')
    ensures AnswerOneByOne(a + b, a' + b')
  {
    assert forall i :: 0 <= i < |a + b| ==> (a + b)[i] == if i < |a| then a[i] else b[i - |a|];
  }

  lemma ExecutedAnswer(tool: (nat, ToolCall) -> ToolOutcome, t: nat, calls: seq<ToolCall>, cache: Cache, safe: string -> bool)
    ensures AnswerOneByOne(Answers(Executed(tool, t, calls, cache, safe)), Concurrent(calls, cache, safe) + Serial(calls, cache, safe))
  {
    ExecutedAt(tool, t, calls, cache, safe);
    AnswersAt(Executed(tool, t, calls, cache, safe));
  }

  /** A round answers each requested call exactly once. */
  lemma EachCallAnsweredOnce(tool: (nat, ToolCall) -> ToolOutcome, t: nat, calls: seq<ToolCall>, cache: Cache, safe: string -> bool)
    ensures AnswerOneByOne(RoundAnswers(tool, t, calls, cache, safe), Agenda(calls, cache, safe))
    ensures multiset(Agenda(calls, cache, safe)) == multiset(calls)
    ensures |RoundAnswers(tool, t, calls, cache, safe)| == |calls|
  {
    AgendaIsRequest(calls, cache, safe);
    ReplaysAnswer(calls, cache);
    ExecutedAnswer(tool, t, calls, cache, safe);
    AnswerConcat(ReplayAnswers(cache, Replays(calls, cache)), Replays(calls, cache),
                 Answers(Executed(tool, t, calls, cache, safe)), Concurrent(calls, cache, safe) + Serial(calls, cache, safe));
    AgendaParts(Replays(calls, cache), Concurrent(calls, cache, safe), Serial(calls, cache, safe));
  }

  lemma AgendaParts(a: seq<ToolCall>, b: seq<ToolCall>, c: seq<ToolCall>)
    ensures a + (b + c) == a + b + c
  {
  }

  lemma ReplaysAnswer(calls: seq<ToolCall>, cache: Cache)
    ensures ReplaysAllCached(calls, cache)
    ensures AnswerOneByOne(ReplayAnswers(cache, Replays(calls, cache)), Replays(calls, cache))
  {
    ReplaysAreCached(calls, cache);
    ReplayAt(cache, Replays(calls, cache));
  }

  lemma ExecutedAt(tool: (nat, ToolCall) -> ToolOutcome, t: nat, calls: seq<ToolCall>, cache: Cache, safe: string -> bool)
    ensures var run := Concurrent(calls, cache, safe) + Serial(calls, cache, safe);
            && |Executed(tool, t, calls, cache, safe)| == |run|
            && forall i :: 0 <= i < |run| ==> Executed(tool, t, calls, cache, safe)[i].call == run[i]
  {
    TogetherAt(tool, t, Concurrent(calls, cache, safe));
    InTurnAt(tool, t + 1, Serial(calls, cache, safe));
  }

  lemma {:induction false} SplitMembers(calls: seq<ToolCall>, cache: Cache, safe: string -> bool)
    ensures forall tc :: tc in Concurrent(calls, cache, safe) ==> tc in calls && !IsReplay(tc, cache)
    ensures forall tc :: tc in Serial(calls, cache, safe) ==> tc in calls && !IsReplay(tc, cache)
    ensures forall tc :: tc in Replays(calls, cache) ==> tc in calls
    ensures forall tc :: tc in Concurrent(calls, cache, safe) ==> tc !in Serial(calls, cache, safe)
  {
    SplitSafe(calls, cache, safe);
    if calls != [] {
      SplitMembers(calls[1..], cache, safe);
    }
  }

  lemma {:induction false} SplitSafe(calls: seq<ToolCall>, cache: Cache, safe: string -> bool)
    ensures forall tc :: tc in Concurrent(calls, cache, safe) ==> safe(tc.name)
    ensures forall tc :: tc in Serial(calls, cache, safe) ==> !safe(tc.name)
  {
    if calls != [] {
      SplitSafe(calls[1..], cache, safe);
    }
  }

  lemma {:induction false} SplitDistinct(calls: seq<ToolCall>, cache: Cache, safe: string -> bool)
    requires DistinctKeys(calls)
    ensures DistinctKeys(Concurrent(calls, cache, safe)) && DistinctKeys(Serial(calls, cache, safe))
  {
    if calls != [] {
      var rest := calls[1..];
      assert forall i :: 0 <= i < |rest| ==> rest[i] == calls[i + 1];
      SplitDistinct(rest, cache, safe);
      SplitMembers(rest, cache, safe);
      assert forall tc :: tc in rest ==> KeyOf(tc) != KeyOf(calls[0]);
      HeadDistinct(calls[0], Concurrent(rest, cache, safe));
      HeadDistinct(calls[0], Serial(rest, cache, safe));
    }
  }

  lemma HeadDistinct(head: ToolCall, tail: seq<ToolCall>)
    requires DistinctKeys(tail) && forall tc :: tc in tail ==> KeyOf(tc) != KeyOf(head)
    ensures DistinctKeys([head] + tail)
  {
    forall i, j | 0 <= i < j < |[head] + tail|
      ensures KeyOf(([head] + tail)[i]) != KeyOf(([head] + tail)[j])
    {
      assert ([head] + tail)[j] == tail[j - 1] && tail[j - 1] in tail;
    }
  }

  lemma {:induction false} SplitDistinctIds(calls: seq<ToolCall>, cache: Cache, safe: string -> bool)
    requires DistinctIds(calls)
    ensures DistinctIds(Concurrent(calls, cache, safe))
  {
    if calls != [] {
      var rest := calls[1..];
      assert forall i :: 0 <= i < |rest| ==> rest[i] == calls[i + 1];
      SplitDistinctIds(rest, cache, safe);
      SplitMembers(rest, cache, safe);
      var tail := Concurrent(rest, cache, safe);
      forall i, j | 0 <= i < j < |[calls[0]] + tail|
        ensures ([calls[0]] + tail)[i].id != ([calls[0]] + tail)[j].id
      {
        assert ([calls[0]] + tail)[j] == tail[j - 1] && tail[j - 1] in tail;
        var k :| 0 <= k < |rest| && rest[k] == tail[j - 1];
        assert calls[k + 1] == rest[k];
      }
    }
  }

  /** No two calls a round executes have the same key, and none has a key of the cache. */
  lemma ExecutedKeys(tool: (nat, ToolCall) -> ToolOutcome, t: nat, calls: seq<ToolCall>, cache: Cache, safe: string -> bool)
    requires DistinctKeys(calls)
    ensures DistinctDone(Executed(tool, t, calls, cache, safe))
    ensures forall d :: d in Executed(tool, t, calls, cache, safe) ==> d.call in calls && KeyOf(d.call) !in cache
  {
    var together, serial := Concurrent(calls, cache, safe), Serial(calls, cache, safe);
    SplitMembers(calls, cache, safe);
    SplitDistinct(calls, cache, safe);
    TogetherAt(tool, t, together);
    InTurnAt(tool, t + 1, serial);
    var done := Executed(tool, t, calls, cache, safe);
    forall i | 0 <= i < |done|
      ensures done[i].call == if i < |together| then together[i] else serial[i - |together|]
    {
    }
    forall d | d in done ensures d.call in calls && KeyOf(d.call) !in cache {
      var i :| 0 <= i < |done| && done[i] == d;
      assert d.call in together || d.call in serial;
    }
    forall i, j | 0 <= i < j < |done|
      ensures KeyOf(done[i].call) != KeyOf(done[j].call)
    {
      if i < |together| <= j {
        assert done[i].call in together && done[j].call in serial;
        SameKeySameCall(calls, done[i].call, done[j].call);
      }
    }
  }

  lemma SameKeySameCall(calls: seq<ToolCall>, a: ToolCall, b: ToolCall)
    requires DistinctKeys(calls) && a in calls && b in calls
    ensures KeyOf(a) == KeyOf(b) ==> a == b
  {
    var i :| 0 <= i < |calls| && calls[i] == a;
    var j :| 0 <= j < |calls| && calls[j] == b;
  }

  // ------------------------------------------------------------------ the ledger of appended answers

  function AnswerIds(answers: seq<Message>): set<string> {
    set m | m in answers && m.ToolResult? :: m.id
  }

  /** Every answer is for a call of the current user turn, or for a call the transcript lost. */
  ghost predicate AnswersFit(items: seq<Item>, answers: seq<Message>) {
    forall m :: m in answers && m.ToolResult? ==> (m.id in Segment(items, {}) || m.id !in CalledIds(items))
  }

  lemma OneAnswerLedger(ctx: seq<Message>, m: Message)
    requires m.ToolResult?
    ensures var after := Items(ctx + [m]);
            && (Recoverable(Items(ctx)) && AnswersFit(Items(ctx), [m]) ==> Recoverable(after))
            && CalledIds(after) == CalledIds(Items(ctx))
            && AnsweredIds(after) == AnsweredIds(Items(ctx)) + {m.id}
            && Segment(after, {}) == Segment(Items(ctx), {})
            && (Scan(Items(ctx), START).Book? && m.id in Segment(Items(ctx), {}) ==>
                  Scan(after, START) == Book(Scan(Items(ctx), START).used, Scan(Items(ctx), START).open - {m.id}))
  {
    assert m in [m];
    AppendAnswer(Items(ctx), m.id, m.name, m.content);
    OneAnswerItems(ctx, m);
    if Scan(Items(ctx), START).Book? {
      AnswerScan(Items(ctx), m.id, m.name, m.content);
    }
  }

  lemma OneAnswerItems(ctx: seq<Message>, m: Message)
    requires m.ToolResult?
    ensures Items(ctx + [m]) == Items(ctx) + [Answered(m.id, m.name, m.content)]
  {
    ItemsConcat(ctx, [m]);
    assert Items([m]) == MessageItems(m) + Items([m][1..]);
  }

  lemma AnswerScan(items: seq<Item>, id: string, name: string, content: string)
    requires Scan(items, START).Book?
    ensures id in Segment(items, {}) ==>
              Scan(items + [Answered(id, name, content)], START) == Book(Scan(items, START).used, Scan(items, START).open - {id})
  {
    var it := Answered(id, name, content);
    ScanSegment(items, START);
    ScanConcat(items, [it], START);
    assert [it][1..] == [];
  }

  lemma {:induction false} AnswersLedger(ctx: seq<Message>, answers: seq<Message>)
    requires forall m :: m in answers ==> m.ToolResult?
    ensures CalledIds(Items(ctx + answers)) == CalledIds(Items(ctx))
    ensures AnsweredIds(Items(ctx + answers)) == AnsweredIds(Items(ctx)) + AnswerIds(answers)
    ensures Segment(Items(ctx + answers), {}) == Segment(Items(ctx), {})
    decreases |answers|
  {
    if answers == [] {
      assert ctx + answers == ctx;
    } else {
      var m, rest := answers[0], answers[1..];
      AnswersHead(answers);
      assert m in answers;
      OneAnswerLedger(ctx, m);
      FirstMoves(ctx, answers);
      AnswersLedger(ctx + [m], rest);
    }
  }

  lemma {:induction false} AnswersRecover(ctx: seq<Message>, answers: seq<Message>)
    requires forall m :: m in answers ==> m.ToolResult?
    requires Recoverable(Items(ctx)) && AnswersFit(Items(ctx), answers)
    ensures Recoverable(Items(ctx + answers))
    decreases |answers|
  {
    if answers == [] {
      assert ctx + answers == ctx;
    } else {
      var m, rest := answers[0], answers[1..];
      AnswersHead(answers);
      assert m in answers;
      OneAnswerLedger(ctx, m);
      FirstMoves(ctx, answers);
      AnswersRecover(ctx + [m], rest);
    }
  }

  lemma AnswersHead(answers: seq<Message>)
    requires answers != []
    ensures forall x :: x in answers[1..] ==> x in answers
    ensures answers[0].ToolResult? ==> AnswerIds(answers) == {answers[0].id} + AnswerIds(answers[1..])
  {
    assert answers == [answers[0]] + answers[1..];
  }

  /** Answers for calls of the current user turn close exactly those calls. */
  lemma {:induction false} AnswersClose(ctx: seq<Message>, answers: seq<Message>)
    requires forall m :: m in answers ==> m.ToolResult?
    requires Scan(Items(ctx), START).Book? && AnswerIds(answers) <= Segment(Items(ctx), {})
    ensures Scan(Items(ctx + answers), START) == Book(Scan(Items(ctx), START).used, Scan(Items(ctx), START).open - AnswerIds(answers))
    decreases |answers|
  {
    var book := Scan(Items(ctx), START);
    if answers == [] {
      assert ctx + answers == ctx;
      assert book.open - {} == book.open;
    } else {
      var m, rest := answers[0], answers[1..];
      AnswersHead(answers);
      FirstCloses(ctx, answers);
      FirstMoves(ctx, answers);
      AnswersClose(ctx + [m], rest);
      OneLess(book.open, m.id, AnswerIds(rest));
    }
  }

  lemma FirstMoves(ctx: seq<Message>, answers: seq<Message>)
    requires answers != []
    ensures ctx + answers == (ctx + [answers[0]]) + answers[1..]
  {
  }

  lemma OneLess(open: set<string>, id: string, more: set<string>)
    ensures open - {id} - more == open - ({id} + more)
  {
  }

  lemma FirstCloses(ctx: seq<Message>, answers: seq<Message>)
    requires answers != [] && forall m :: m in answers ==> m.ToolResult?
    requires Scan(Items(ctx), START).Book? && AnswerIds(answers) <= Segment(Items(ctx), {})
    ensures var m, after := answers[0], Items(ctx + [answers[0]]);
            && Scan(after, START) == Book(Scan(Items(ctx), START).used, Scan(Items(ctx), START).open - {m.id})
            && AnswerIds(answers[1..]) <= Segment(after, {})
  {
    AnswersHead(answers);
    assert answers[0] in answers;
    OneAnswerLedger(ctx, answers[0]);
  }

  // ------------------------------------------------------------------ finishing orders

  ghost predicate IsPermutation(order: seq<nat>, n: nat) {
    && |order| == n
    && (forall i :: 0 <= i < n ==> order[i] < n)
    && (forall i, j :: 0 <= i < j < n ==> order[i] != order[j])
    && (forall k :: 0 <= k < n ==> k in order)
  }

  lemma PermutedDone(want: seq<Done>, order: seq<nat>, done: seq<Done>)
    requires IsPermutation(order, |want|) && |done| == |want|
    requires forall i :: 0 <= i < |order| ==> done[i] == want[order[i]]
    requires DistinctDone(want) && DistinctDoneIds(want)
    ensures DistinctDone(done) && DistinctDoneIds(done)
    ensures forall d :: d in done <==> d in want
  {
    forall i, j | 0 <= i < j < |done|
      ensures KeyOf(done[i].call) != KeyOf(done[j].call) && done[i].call.id != done[j].call.id
    {
      assert order[i] != order[j];
      var lo, hi := if order[i] < order[j] then order[i] else order[j], if order[i] < order[j] then order[j] else order[i];
      assert KeyOf(want[lo].call) != KeyOf(want[hi].call) && want[lo].call.id != want[hi].call.id;
    }
    forall d | d in want ensures d in done {
      var k: nat :| k < |want| && want[k] == d;
      assert k in order;
      var i :| 0 <= i < |order| && order[i] == k;
      assert done[i] == d;
    }
  }

  lemma TogetherDistinct(tool: (nat, ToolCall) -> ToolOutcome, t: nat, calls: seq<ToolCall>)
    requires DistinctKeys(calls) && DistinctIds(calls)
    ensures DistinctDone(TogetherDone(tool, t, calls)) && DistinctDoneIds(TogetherDone(tool, t, calls))
  {
    TogetherAt(tool, t, calls);
  }

  lemma ReplaysStep(calls: seq<ToolCall>, i: nat, cache: Cache, a: seq<ToolCall>)
    requires i < |calls|
    ensures a + Replays(calls[i..], cache)
         == (if IsReplay(calls[i], cache) then a + [calls[i]] else a) + Replays(calls[i + 1..], cache)
  {
    assert calls[i..][0] == calls[i] && calls[i..][1..] == calls[i + 1..];
  }

  lemma ConcurrentStep(calls: seq<ToolCall>, i: nat, cache: Cache, safe: string -> bool, b: seq<ToolCall>)
    requires i < |calls|
    ensures b + Concurrent(calls[i..], cache, safe)
         == (if !IsReplay(calls[i], cache) && safe(calls[i].name) then b + [calls[i]] else b) + Concurrent(calls[i + 1..], cache, safe)
  {
    assert calls[i..][0] == calls[i] && calls[i..][1..] == calls[i + 1..];
  }

  lemma SerialStep(calls: seq<ToolCall>, i: nat, cache: Cache, safe: string -> bool, c: seq<ToolCall>)
    requires i < |calls|
    ensures c + Serial(calls[i..], cache, safe)
         == (if !IsReplay(calls[i], cache) && !safe(calls[i].name) then c + [calls[i]] else c) + Serial(calls[i + 1..], cache, safe)
  {
    assert calls[i..][0] == calls[i] && calls[i..][1..] == calls[i + 1..];
  }

  method SplitRound(calls: seq<ToolCall>, cache: Cache, safe: string -> bool)
    returns (replays: seq<ToolCall>, together: seq<ToolCall>, serial: seq<ToolCall>)
    ensures replays == Replays(calls, cache)
    ensures together == Concurrent(calls, cache, safe)
    ensures serial == Serial(calls, cache, safe)
  {
    replays, together, serial := [], [], [];
    for i := 0 to |calls|
      invariant replays + Replays(calls[i..], cache) == Replays(calls, cache)
      invariant together + Concurrent(calls[i..], cache, safe) == Concurrent(calls, cache, safe)
      invariant serial + Serial(calls[i..], cache, safe) == Serial(calls, cache, safe)
    {
      var tc := calls[i];
      ReplaysStep(calls, i, cache, replays);
      ConcurrentStep(calls, i, cache, safe, together);
      SerialStep(calls, i, cache, safe, serial);
      if IsReplay(tc, cache) {
        replays := replays + [tc];
      } else if safe(tc.name) {
        together := together + [tc];
      } else {
        serial := serial + [tc];
      }
    }
  }

  lemma AnswersPrefix(done: seq<Done>, k: nat)
    requires k <= |done|
    ensures k <= |Answers(done)| && Answers(done)[..k] == Answers(done[..k])
  {
    AnswersAt(done);
    AnswersAt(done[..k]);
  }

  lemma RoundSizes(tool: (nat, ToolCall) -> ToolOutcome, t: nat, calls: seq<ToolCall>, cache: Cache, safe: string -> bool)
    ensures ReplaysAllCached(calls, cache)
    ensures |ReplayAnswers(cache, Replays(calls, cache))| == |Replays(calls, cache)|
    ensures |TogetherDone(tool, t, Concurrent(calls, cache, safe))| == |Concurrent(calls, cache, safe)|
    ensures |InTurnDone(tool, t + 1, Serial(calls, cache, safe))| == |Serial(calls, cache, safe)|
    ensures |RoundAnswers(tool, t, calls, cache, safe)| == |calls|
    ensures |Replays(calls, cache)| + |Concurrent(calls, cache, safe)| + |Serial(calls, cache, safe)| == |calls|
  {
    AgendaIsRequest(calls, cache, safe);
    EachCallAnsweredOnce(tool, t, calls, cache, safe);
    ReplaysAreCached(calls, cache);
    ReplayAt(cache, Replays(calls, cache));
    TogetherAt(tool, t, Concurrent(calls, cache, safe));
    InTurnAt(tool, t + 1, Serial(calls, cache, safe));
  }

  predicate ReplaysAllCached(calls: seq<ToolCall>, cache: Cache) {
    forall tc :: tc in Replays(calls, cache) ==> IsReplay(tc, cache)
  }

  // ------------------------------------------------------------------ the log of a turn

  /** The cache of a turn is the log of its executions: each key ran once and is cached as it ran. */
  ghost predicate Logged(log: seq<Done>, cache: Cache) {
    && DistinctDone(log)
    && (forall d :: d in log ==> KeyOf(d.call) in cache && cache[KeyOf(d.call)] == d.content)
    && (forall k :: k in cache ==> exists d :: d in log && KeyOf(d.call) == k)
  }

  lemma LogGrows(log: seq<Done>, cache: Cache, done: seq<Done>)
    requires Logged(log, cache) && DistinctDone(done)
    requires forall d :: d in done ==> KeyOf(d.call) !in cache
    ensures Logged(log + done, Settle(cache, done))
  {
    SettledAt(cache, done);
    var log', cache' := log + done, Settle(cache, done);
    forall i, j | 0 <= i < j < |log'| ensures KeyOf(log'[i].call) != KeyOf(log'[j].call) {
      if i < |log| <= j {
        assert log'[i] == log[i] && log[i] in log && log'[j] == done[j - |log|] && done[j - |log|] in done;
      }
    }
    forall d | d in log' ensures KeyOf(d.call) in cache' && cache'[KeyOf(d.call)] == d.content {
      if d in log && d !in done {
        assert forall d' :: d' in done ==> KeyOf(d'.call) != KeyOf(d.call);
      }
    }
    forall k | k in cache' ensures exists d :: d in log' && KeyOf(d.call) == k {
      if k in cache {
        var d :| d in log && KeyOf(d.call) == k;
        assert d in log';
      } else {
        var d :| d in done && KeyOf(d.call) == k;
        assert d in log';
      }
    }
  }

  /** Replayed calls, with the content each was answered with. */
  function Replayed(cache: Cache, calls: seq<ToolCall>): seq<Done>
    requires forall tc :: tc in calls ==> IsReplay(tc, cache)
  {
    if calls == [] then []
    else
      var tc := calls[0];
      assert tc in calls && IsReplay(tc, cache);
      [Done(tc, cache[KeyOf(tc)], false)] + Replayed(cache, calls[1..])
  }

  lemma {:induction false} ReplayedAt(cache: Cache, calls: seq<ToolCall>)
    requires forall tc :: tc in calls ==> IsReplay(tc, cache)
    ensures |Replayed(cache, calls)| == |calls|
    ensures forall i :: 0 <= i < |calls| ==> IsReplay(calls[i], cache) && Replayed(cache, calls)[i] == Done(calls[i], cache[KeyOf(calls[i])], false)
  {
    if calls != [] {
      assert calls[0] in calls && IsReplay(calls[0], cache);
      ReplayedAt(cache, calls[1..]);
    }
  }

  /** An execution in `log` had this call's key and this content. */
  ghost predicate Echo(r: Done, log: seq<Done>) {
    exists d :: d in log && KeyOf(d.call) == KeyOf(r.call) && d.content == r.content
  }

  /** Every replay answered with the content of an execution of its key. */
  ghost predicate Echoes(replayed: seq<Done>, log: seq<Done>) {
    forall r :: r in replayed ==> Echo(r, log)
  }

  lemma EchoesGrow(replayed: seq<Done>, log: seq<Done>, more: seq<Done>)
    requires Echoes(replayed, log)
    ensures Echoes(replayed, log + more)
  {
    forall r | r in replayed ensures Echo(r, log + more) {
      assert Echo(r, log);
      var d :| d in log && KeyOf(d.call) == KeyOf(r.call) && d.content == r.content;
      assert d in log + more;
    }
  }

  lemma EchoesMore(replayed: seq<Done>, replays: seq<Done>, log: seq<Done>, part: seq<Done>)
    requires Echoes(replayed, log) && Echoes(replays, log)
    ensures Echoes(replayed + replays, log + part)
  {
    EchoesGrow(replayed, log, part);
    EchoesGrow(replays, log, part);
  }

  lemma ReplaysEcho(log: seq<Done>, cache: Cache, calls: seq<ToolCall>)
    requires Logged(log, cache) && forall tc :: tc in calls ==> IsReplay(tc, cache)
    ensures Echoes(Replayed(cache, calls), log)
  {
    ReplayedAt(cache, calls);
    forall r | r in Replayed(cache, calls) ensures Echo(r, log) {
      var i :| 0 <= i < |calls| && Replayed(cache, calls)[i] == r;
      assert calls[i] in calls && IsReplay(calls[i], cache);
      var d :| d in log && KeyOf(d.call) == KeyOf(calls[i]);
    }
  }

  lemma PrefixDistinct(done: seq<Done>, n: nat)
    requires DistinctDone(done) && n <= |done|
    ensures DistinctDone(done[..n]) && forall d :: d in done[..n] ==> d in done
  {
  }

  /** A replay returns what the one execution of its key returned. */
  lemma ReplayReturnsFirst(log: seq<Done>, cache: Cache, calls: seq<ToolCall>, tc: ToolCall) returns (first: Done)
    requires Logged(log, cache) && tc in Replays(calls, cache)
    ensures first in log && KeyOf(first.call) == KeyOf(tc)
    ensures forall d :: d in log && KeyOf(d.call) == KeyOf(tc) ==> d == first
    ensures IsReplayAnswer(ToolResult(tc.id, tc.name, first.content), tc, cache)
  {
    ReplaysAreCached(calls, cache);
    assert IsReplay(tc, cache);
    first :| first in log && KeyOf(first.call) == KeyOf(tc);
    forall d | d in log && KeyOf(d.call) == KeyOf(tc) ensures d == first {
      var i :| 0 <= i < |log| && log[i] == d;
      var j :| 0 <= j < |log| && log[j] == first;
    }
  }

  // ------------------------------------------------------------------ recording finished calls

  lemma ProgressConcat(a: seq<Done>, b: seq<Done>)
    ensures AnyProgress(a + b) <==> AnyProgress(a) || AnyProgress(b)
  {
    if d :| d in a && !d.isError {
      assert d in a + b;
    }
    if d :| d in b && !d.isError {
      assert d in a + b;
    }
  }

  /** Recording one more finished call. */
  lemma RecordOne(cache: Cache, done: seq<Done>, d: Done)
    ensures Settle(cache, done + [d]) == Settle(cache, done)[KeyOf(d.call) := d.content]
    ensures AnyProgress(done + [d]) <==> AnyProgress(done) || !d.isError
    ensures Answers(done + [d]) == Answers(done) + [Answer(d)]
  {
    SettleConcat(cache, done, [d]);
    assert [d][1..] == [];
    ProgressConcat(done, [d]);
    assert d in [d];
    AnswersConcat(done, [d]);
    assert Answers([d]) == [Answer(d)] + Answers([d][1..]);
  }

  lemma RecordNext(cache: Cache, all: seq<Done>, n: nat)
    requires n < |all|
    ensures Settle(cache, all[..n + 1]) == Settle(cache, all[..n])[KeyOf(all[n].call) := all[n].content]
    ensures AnyProgress(all[..n + 1]) <==> AnyProgress(all[..n]) || !all[n].isError
    ensures Answers(all[..n + 1]) == Answers(all[..n]) + [Answer(all[n])]
  {
    assert all[..n + 1] == all[..n] + [all[n]];
    RecordOne(cache, all[..n], all[n]);
  }

  /** The completion loop of the concurrent calls, in the order in which they finish. */
  method CompleteInOrder(tool: (nat, ToolCall) -> ToolOutcome, t: nat, calls: seq<ToolCall>, order: seq<nat>, cache: Cache)
    returns (done: seq<Done>, cache': Cache, progress: bool, raised: bool)
    requires IsPermutation(order, |calls|)
    ensures raised <==> exists tc :: tc in calls && tool(t, tc).Raised?
    ensures !raised ==>
              && |done| == |calls| == |TogetherDone(tool, t, calls)|
              && (forall i :: 0 <= i < |order| ==> done[i] == TogetherDone(tool, t, calls)[order[i]])
              && cache' == Settle(cache, done) && progress == AnyProgress(done)
  {
    TogetherAt(tool, t, calls);
    ghost var want := TogetherDone(tool, t, calls);
    done, cache', progress, raised := [], cache, false, false;
    for k := 0 to |order|
      invariant |done| == k && !raised
      invariant forall i :: 0 <= i < k ==> tool(t, calls[order[i]]).Ran? && done[i] == want[order[i]]
      invariant cache' == Settle(cache, done) && progress == AnyProgress(done)
    {
      var tc := calls[order[k]];
      assert tc in calls;
      match tool(t, tc)
      case Raised =>
        raised := true;
        return;
      case Ran(content, isError) =>
        RecordOne(cache, done, Done(tc, content, isError));
        done := done + [Done(tc, content, isError)];
        cache' := cache'[KeyOf(tc) := content];
        progress := progress || !isError;
    }
    forall tc | tc in calls ensures tool(t, tc).Ran? {
      var k: nat :| k < |calls| && calls[k] == tc;
      assert k in order;
    }
  }

  /** The finishing order leaves no trace: cache, progress and the results found by id are those of
      the request order. */
  lemma FinishingOrderIsIrrelevant(cache: Cache, want: seq<Done>, order: seq<nat>, done: seq<Done>)
    requires IsPermutation(order, |want|) && |done| == |want|
    requires forall i :: 0 <= i < |order| ==> done[i] == want[order[i]]
    requires DistinctDone(want) && DistinctDoneIds(want)
    ensures Settle(cache, done) == Settle(cache, want)
    ensures AnyProgress(done) == AnyProgress(want)
    ensures forall d :: d in want ==> d.call.id in ById(done, map[]) && ById(done, map[])[d.call.id] == d
  {
    PermutedDone(want, order, done);
    SettleAnyOrder(cache, done, want);
    FoundById(done, map[]);
  }

  /** What a round that answered `n` of its calls leaves. No finishing order appears in it. */
  ghost predicate RoundLeft(tool: (nat, ToolCall) -> ToolOutcome, t: nat, calls: seq<ToolCall>, cache: Cache, safe: string -> bool,
                            before: seq<Message>, after: seq<Message>, cache': Cache, progress: bool, end: RoundEnd, n: nat)
  {
    && n <= |calls| == |RoundAnswers(tool, t, calls, cache, safe)|
    && after == before + RoundAnswers(tool, t, calls, cache, safe)[..n]
    && (end.Completed? ==> n == |calls|)
    && (!end.Broke? ==>
          var m := n - |Replays(calls, cache)|;
          && 0 <= m <= |Executed(tool, t, calls, cache, safe)|
          && cache' == Settle(cache, Executed(tool, t, calls, cache, safe)[..m])
          && progress == AnyProgress(Executed(tool, t, calls, cache, safe)[..m]))
  }

  /** The state of the serial loop after `n` calls. */
  ghost predicate SerialSoFar(before: seq<Message>, cache: Cache, p0: bool, all: seq<Done>, n: nat,
                              after: seq<Message>, cache': Cache, progress: bool)
  {
    && n <= |all|
    && after == before + Answers(all[..n])
    && cache' == Settle(cache, all[..n])
    && progress == (p0 || AnyProgress(all[..n]))
  }

  lemma SerialStart(before: seq<Message>, cache: Cache, p0: bool, all: seq<Done>)
    ensures SerialSoFar(before, cache, p0, all, 0, before, cache, p0)
  {
    assert all[..0] == [] && Answers([]) == [];
  }

  lemma SerialNext(before: seq<Message>, cache: Cache, p0: bool, all: seq<Done>, n: nat, after: seq<Message>, cache': Cache, progress: bool)
    requires SerialSoFar(before, cache, p0, all, n, after, cache', progress) && n < |all|
    ensures SerialSoFar(before, cache, p0, all, n + 1, after + [Answer(all[n])], cache'[KeyOf(all[n].call) := all[n].content],
                        progress || !all[n].isError)
  {
    RecordNext(cache, all, n);
    assert before + Answers(all[..n]) + [Answer(all[n])] == before + (Answers(all[..n]) + [Answer(all[n])]);
  }

  lemma FirstIdIsNew(head: ToolCall, rest: seq<ToolCall>)
    requires DistinctIds([head] + rest)
    ensures DistinctIds(rest) && head.id !in Ids(rest) && Ids([head] + rest) == {head.id} + Ids(rest)
  {
    var all := [head] + rest;
    assert forall i :: 0 <= i < |rest| ==> rest[i] == all[i + 1];
    assert forall tc :: tc in all <==> tc == head || tc in rest;
    forall tc | tc in rest ensures tc.id != head.id {
      var i :| 0 <= i < |rest| && rest[i] == tc;
      assert all[0].id != all[i + 1].id;
    }
    assert head in all;
  }

  lemma {:induction false} IdCount(calls: seq<ToolCall>)
    requires DistinctIds(calls)
    ensures |Ids(calls)| == |calls|
  {
    if calls != [] {
      var head, rest := calls[0], calls[1..];
      assert calls == [head] + rest;
      FirstIdIsNew(head, rest);
      IdCount(rest);
      assert |{head.id} + Ids(rest)| == 1 + |Ids(rest)|;
    }
  }

  lemma {:induction false} AnswerCount(answers: seq<Message>)
    ensures |AnswerIds(answers)| <= |answers|
  {
    if answers != [] {
      AnswerCount(answers[1..]);
      assert answers == [answers[0]] + answers[1..];
      if answers[0].ToolResult? {
        assert AnswerIds(answers) == {answers[0].id} + AnswerIds(answers[1..]);
      } else {
        assert AnswerIds(answers) == AnswerIds(answers[1..]);
      }
    }
  }

  /** Too few answers leave some call open. */
  lemma FewAnswers(calls: seq<ToolCall>, answers: seq<Message>)
    requires DistinctIds(calls) && |answers| < |calls|
    ensures Ids(calls) - AnswerIds(answers) != {}
  {
    IdCount(calls);
    AnswerCount(answers);
    if Ids(calls) - AnswerIds(answers) == {} {
      forall id | id in Ids(calls) ensures id in AnswerIds(answers) {
        assert id !in Ids(calls) - AnswerIds(answers);
      }
      SubsetSize(Ids(calls), AnswerIds(answers));
    }
  }

  lemma {:induction false} SubsetSize(a: set<string>, b: set<string>)
    requires a <= b
    ensures |a| <= |b|
  {
    if a != {} {
      var x :| x in a;
      SubsetSize(a - {x}, b - {x});
    }
  }

  /** The answers of a round are for its own calls; all of them when none is left out. */
  lemma RoundAnswerIds(tool: (nat, ToolCall) -> ToolOutcome, t: nat, calls: seq<ToolCall>, cache: Cache, safe: string -> bool, n: nat)
    requires n <= |RoundAnswers(tool, t, calls, cache, safe)|
    ensures forall m :: m in RoundAnswers(tool, t, calls, cache, safe)[..n] ==> m.ToolResult? && m.id in Ids(calls)
    ensures AnswerIds(RoundAnswers(tool, t, calls, cache, safe)[..n]) <= Ids(calls)
    ensures n == |calls| ==> AnswerIds(RoundAnswers(tool, t, calls, cache, safe)[..n]) == Ids(calls)
  {
    EachCallAnsweredOnce(tool, t, calls, cache, safe);
    OneByOneIds(RoundAnswers(tool, t, calls, cache, safe), Agenda(calls, cache, safe), calls, n);
  }

  lemma SameMembers(a: seq<ToolCall>, b: seq<ToolCall>)
    requires multiset(a) == multiset(b)
    ensures forall tc :: tc in a <==> tc in b
  {
    forall tc ensures tc in a <==> tc in b {
      assert tc in a <==> tc in multiset(a);
      assert tc in b <==> tc in multiset(b);
    }
  }

  lemma OneByOneIds(answers: seq<Message>, agenda: seq<ToolCall>, calls: seq<ToolCall>, n: nat)
    requires AnswerOneByOne(answers, agenda) && multiset(agenda) == multiset(calls) && n <= |answers|
    ensures forall m :: m in answers[..n] ==> m.ToolResult? && m.id in Ids(calls)
    ensures AnswerIds(answers[..n]) <= Ids(calls)
    ensures n == |answers| ==> AnswerIds(answers[..n]) == Ids(calls)
  {
    SameMembers(agenda, calls);
    forall m | m in answers[..n] ensures m.ToolResult? && m.id in Ids(calls) {
      var i :| 0 <= i < n && answers[i] == m;
      assert Answering(answers[i], agenda[i]) && agenda[i] in agenda;
    }
    if n == |answers| {
      forall id | id in Ids(calls) ensures id in AnswerIds(answers[..n]) {
        var tc :| tc in calls && tc.id == id;
        assert tc in agenda;
        var i :| 0 <= i < |agenda| && agenda[i] == tc;
        assert Answering(answers[i], agenda[i]) && answers[i] in answers[..n];
      }
    }
  }

  /** What a round started: the concurrent calls and then some of the serial ones, exactly those it
      answered unless a tool raised. */
  ghost predicate RoundRan(tool: (nat, ToolCall) -> ToolOutcome, t: nat, calls: seq<ToolCall>, cache: Cache, safe: string -> bool,
                           part: seq<Done>, end: RoundEnd, n: nat)
  {
    && part <= Executed(tool, t, calls, cache, safe)
    && (!end.Broke? ==> |part| == n - |Replays(calls, cache)|)
  }

  /** A round as planned: the replays' answers, what the concurrent calls answer and what the serial
      ones do. */
  datatype Plan = Plan(replies: seq<Message>, first: seq<Done>, rest: seq<Done>) {
    function All(): seq<Done> {
      first + rest
    }
  }

  ghost function PlanOf(tool: (nat, ToolCall) -> ToolOutcome, t: nat, calls: seq<ToolCall>, cache: Cache, safe: string -> bool): Plan {
    ReplaysAreCached(calls, cache);
    Plan(ReplayAnswers(cache, Replays(calls, cache)),
         TogetherDone(tool, t, Concurrent(calls, cache, safe)), InTurnDone(tool, t + 1, Serial(calls, cache, safe)))
  }

  /** What the phases of a round rely on. */
  ghost predicate Planned(tool: (nat, ToolCall) -> ToolOutcome, t: nat, calls: seq<ToolCall>, cache: Cache, safe: string -> bool, plan: Plan) {
    && ReplaysAllCached(calls, cache)
    && plan.replies == ReplayAnswers(cache, Replays(calls, cache)) && |plan.replies| == |Replays(calls, cache)|
    && DistinctKeys(Concurrent(calls, cache, safe)) && DistinctIds(Concurrent(calls, cache, safe))
    && plan.first == TogetherDone(tool, t, Concurrent(calls, cache, safe)) && |plan.first| == |Concurrent(calls, cache, safe)|
    && plan.rest == InTurnDone(tool, t + 1, Serial(calls, cache, safe))
  }

  lemma PlanFacts(tool: (nat, ToolCall) -> ToolOutcome, t: nat, calls: seq<ToolCall>, cache: Cache, safe: string -> bool, plan: Plan)
    requires DistinctKeys(calls) && DistinctIds(calls)
    requires plan == PlanOf(tool, t, calls, cache, safe)
    ensures Planned(tool, t, calls, cache, safe, plan)
  {
    SplitDistinct(calls, cache, safe);
    SplitDistinctIds(calls, cache, safe);
    ReplaysAreCached(calls, cache);
    ReplayAt(cache, Replays(calls, cache));
    TogetherAt(tool, t, Concurrent(calls, cache, safe));
  }

  lemma PlanSizes(tool: (nat, ToolCall) -> ToolOutcome, t: nat, calls: seq<ToolCall>, cache: Cache, safe: string -> bool, plan: Plan)
    requires plan == PlanOf(tool, t, calls, cache, safe)
    ensures |plan.replies| == |Replays(calls, cache)| && |plan.replies| + |plan.All()| == |calls|
    ensures RoundAnswers(tool, t, calls, cache, safe) == plan.replies + Answers(plan.All())
    ensures Executed(tool, t, calls, cache, safe) == plan.All()
  {
    RoundSizes(tool, t, calls, cache, safe);
  }

  /** A round that answered its replays and `m` other calls and started `s` of them. */
  lemma RoundFromPlan(tool: (nat, ToolCall) -> ToolOutcome, t: nat, calls: seq<ToolCall>, cache: Cache, safe: string -> bool, plan: Plan,
                      before: seq<Message>, after: seq<Message>, cache': Cache, progress: bool, end: RoundEnd, m: nat, s: nat,
                      n: nat, part: seq<Done>)
    requires plan == PlanOf(tool, t, calls, cache, safe) && m <= s <= |plan.All()|
    requires n == |plan.replies| + m && part == plan.All()[..s]
    requires SerialSoFar(before + plan.replies, cache, false, plan.All(), m, after, cache', progress)
    requires (!end.Broke? ==> m == s) && (end.Completed? ==> m == |plan.All()|)
    ensures RoundLeft(tool, t, calls, cache, safe, before, after, cache', progress, end, n)
    ensures RoundRan(tool, t, calls, cache, safe, part, end, n)
  {
    PlanSizes(tool, t, calls, cache, safe, plan);
    PlannedAnswers(plan, before, m);
  }

  lemma PlannedAnswers(plan: Plan, before: seq<Message>, m: nat)
    requires m <= |plan.All()|
    ensures |Answers(plan.All())| == |plan.All()|
    ensures before + plan.replies + Answers(plan.All()[..m]) == before + (plan.replies + Answers(plan.All()))[..|plan.replies| + m]
  {
    AnswersPrefix(plan.All(), m);
    AnswersAt(plan.All());
    PrefixOfTwo(plan.replies, Answers(plan.All()), m);
  }

  lemma PrefixOfTwo<T>(a: seq<T>, b: seq<T>, k: nat)
    requires k <= |b|
    ensures (a + b)[..|a| + k] == a + b[..k]
  {
  }

  lemma OneMore<T>(a: seq<T>, b: seq<T>, n: nat)
    requires n < |b|
    ensures a + b[..n] + [b[n]] == a + b[..n + 1]
  {
  }

  lemma PlanParts(ran: seq<Done>, plan: Plan, k: nat)
    requires k <= |plan.rest|
    ensures ran + plan.first + plan.rest[..k] == ran + plan.All()[..|plan.first| + k]
  {
    PrefixOfTwo(plan.first, plan.rest, k);
  }

  /** The concurrent calls and then `k` serial ones, taken as one run of calls. */
  lemma ThenSerial(before: seq<Message>, cache: Cache, plan: Plan, middle: seq<Message>, cache1: Cache, progress1: bool,
                   k: nat, after: seq<Message>, cache': Cache, progress: bool)
    requires SerialSoFar(before, cache, false, plan.first, |plan.first|, middle, cache1, progress1)
    requires SerialSoFar(middle, cache1, progress1, plan.rest, k, after, cache', progress)
    ensures SerialSoFar(before, cache, false, plan.All(), |plan.first| + k, after, cache', progress)
  {
    var first, some := plan.first, plan.rest[..k];
    assert first[..|first|] == first;
    PrefixOfTwo(first, plan.rest, k);
    AnswersConcat(first, some);
    SettleConcat(cache, first, some);
    ProgressConcat(first, some);
    assert before + Answers(first) + Answers(some) == before + (Answers(first) + Answers(some));
  }

  /** The log of a turn after a round: no key ran twice, and unless a tool raised the cache holds
      exactly the log. */
  lemma LogAfterRound(tool: (nat, ToolCall) -> ToolOutcome, t: nat, calls: seq<ToolCall>, cache: Cache, safe: string -> bool,
                      before: seq<Message>, after: seq<Message>, cache': Cache, progress: bool, end: RoundEnd, n: nat,
                      log: seq<Done>, part: seq<Done>)
    requires RoundLeft(tool, t, calls, cache, safe, before, after, cache', progress, end, n)
    requires RoundRan(tool, t, calls, cache, safe, part, end, n)
    requires Logged(log, cache) && DistinctKeys(calls)
    ensures DistinctDone(log + part) && |part| <= |calls|
    ensures !end.Broke? ==> Logged(log + part, cache')
  {
    ExecutedKeys(tool, t, calls, cache, safe);
    LogPart(log, cache, Executed(tool, t, calls, cache, safe), part);
    ExecutedCount(tool, t, calls, cache, safe);
  }

  lemma ExecutedCount(tool: (nat, ToolCall) -> ToolOutcome, t: nat, calls: seq<ToolCall>, cache: Cache, safe: string -> bool)
    ensures |Executed(tool, t, calls, cache, safe)| <= |calls|
  {
    ExecutedAt(tool, t, calls, cache, safe);
    AgendaIsRequest(calls, cache, safe);
  }

  lemma LogPart(log: seq<Done>, cache: Cache, done: seq<Done>, part: seq<Done>)
    requires Logged(log, cache) && DistinctDone(done) && part <= done
    requires forall d :: d in done ==> KeyOf(d.call) !in cache
    ensures DistinctDone(log + part) && Logged(log + part, Settle(cache, part)) && part == done[..|part|]
  {
    PrefixDistinct(done, |part|);
    LogGrows(log, cache, part);
  }

  /** What a turn has run and replayed, after one more round. */
  lemma TurnAfterRound(tool: (nat, ToolCall) -> ToolOutcome, t: nat, calls: seq<ToolCall>, cache: Cache, safe: string -> bool,
                       before: seq<Message>, after: seq<Message>, cache': Cache, progress: bool, end: RoundEnd, n: nat,
                       log: seq<Done>, echoed: seq<Done>, part: seq<Done>)
    requires RoundLeft(tool, t, calls, cache, safe, before, after, cache', progress, end, n)
    requires RoundRan(tool, t, calls, cache, safe, part, end, n)
    requires Logged(log, cache) && Echoes(echoed, log) && DistinctKeys(calls)
    ensures DistinctDone(log + part) && |part| <= |calls| && forall d :: d in part ==> d.call in calls
    ensures !end.Broke? ==> Logged(log + part, cache')
    ensures ReplaysAllCached(calls, cache) && Echoes(echoed + Replayed(cache, Replays(calls, cache)), log + part)
  {
    LogAfterRound(tool, t, calls, cache, safe, before, after, cache', progress, end, n, log, part);
    ExecutedKeys(tool, t, calls, cache, safe);
    ReplaysAreCached(calls, cache);
    ReplaysEcho(log, cache, Replays(calls, cache));
    EchoesMore(echoed, Replayed(cache, Replays(calls, cache)), log, part);
  }

  lemma SliceMore<T>(a: seq<T>, b: seq<T>, n: nat)
    requires n <= |a|
    ensures (a + b)[n..] == a[n..] + b
  {
  }
}
