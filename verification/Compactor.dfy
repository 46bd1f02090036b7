/**
  Context compaction: a known prefix of the transcript, ending just before a recent user turn, is
  replaced by a summary, or keeps its messages with the results blanked. A failed summary leaves
  the transcript alone.
 */
module Compactor {
  import opened Transcript
  import opened Ledger

  datatype Strategy = PruneToolResults | Summarize

  datatype Policy = Policy(historyBudget: int, threshold: nat, keepTurns: int, strategy: Strategy)

  /** What the summarizing model and the working-state store answered, if they did. */
  datatype Summary = Unavailable | Summary(text: string, workingState: string)

  function IsTurn(m: Message): bool {
    m.User? && m.turn
  }

  function TurnIndices(ctx: seq<Message>, from: nat): seq<nat>
    requires from <= |ctx|
    decreases |ctx| - from
  {
    if from == |ctx| then []
    else (if IsTurn(ctx[from]) then [from] else []) + TurnIndices(ctx, from + 1)
  }

  /** Where the last `keep` user turns start; 0 when there are no older messages to give up. */
  function Boundary(ctx: seq<Message>, keep: nat): nat {
    var turns := TurnIndices(ctx, 0);
    if keep == 0 || |turns| <= keep then 0 else turns[|turns| - keep]
  }

  lemma {:induction false} TurnIndicesFacts(ctx: seq<Message>, from: nat)
    requires from <= |ctx|
    ensures forall i :: 0 <= i < |TurnIndices(ctx, from)| ==>
              from <= TurnIndices(ctx, from)[i] < |ctx| && IsTurn(ctx[TurnIndices(ctx, from)[i]])
    ensures forall i, j :: 0 <= i < j < |TurnIndices(ctx, from)| ==> TurnIndices(ctx, from)[i] < TurnIndices(ctx, from)[j]
    decreases |ctx| - from
  {
    if from < |ctx| {
      TurnIndicesFacts(ctx, from + 1);
    }
  }

  /** Messages are given up only up to a user turn, and only if a user turn is among them. */
  lemma BoundaryIsTurn(ctx: seq<Message>, keep: nat)
    ensures Boundary(ctx, keep) == 0 || (Boundary(ctx, keep) < |ctx| && IsTurn(ctx[Boundary(ctx, keep)]))
    ensures Boundary(ctx, keep) == 1 ==> IsTurn(ctx[0])
  {
    TurnIndicesFacts(ctx, 0);
    if Boundary(ctx, keep) == 1 {
      assert TurnIndices(ctx, 0)[0] < TurnIndices(ctx, 0)[|TurnIndices(ctx, 0)| - keep];
    }
  }

  /** The number of turns kept: fewer while the kept part alone would fill the target. */
  function FitKeep(ctx: seq<Message>, tokens: seq<Message> -> nat, target: nat, keep: nat): nat {
    if keep > 1 && target > 0 && Boundary(ctx, keep) <= |ctx| && tokens(ctx[Boundary(ctx, keep)..]) + 2048 >= target
    then FitKeep(ctx, tokens, target, keep - 1)
    else keep
  }

  function Blank(m: Message): Message {
    if m.ToolResult? then m.(content := "<pruned>") else m
  }

  function BlankAll(ctx: seq<Message>): seq<Message> {
    if ctx == [] then [] else [Blank(ctx[0])] + BlankAll(ctx[1..])
  }

  function Notes(s: Summary): seq<Message>
    requires s.Summary?
  {
    [User(s.text, false)] + if s.workingState == "" then [] else [User(s.workingState, false)]
  }

  function Clamp(keepTurns: int): nat {
    if keepTurns < 1 then 1 else keepTurns
  }

  function Compact(ctx: seq<Message>, policy: Policy, tokens: seq<Message> -> nat, s: Summary): seq<Message> {
    BoundaryIsTurn(ctx, Clamp(policy.keepTurns));
    var keep := Clamp(policy.keepTurns);
    if policy.strategy.PruneToolResults? then
      BlankAll(ctx[..Boundary(ctx, keep)]) + ctx[Boundary(ctx, keep)..]
    else
      var fit := FitKeep(ctx, tokens, if policy.historyBudget > 0 then policy.threshold else 0, keep);
      BoundaryIsTurn(ctx, fit);
      var cut := Boundary(ctx, fit);
      if cut == 0 || s.Unavailable? then ctx else Notes(s) + ctx[cut..]
  }

  /** The keep-fewer-turns loop of the compactor. */
  method FitKeptTurns(ctx: seq<Message>, tokens: seq<Message> -> nat, target: nat, start: nat) returns (keep: nat)
    ensures keep == FitKeep(ctx, tokens, target, start)
  {
    keep := start;
    BoundaryIsTurn(ctx, keep);
    while keep > 1 && target > 0 && tokens(ctx[Boundary(ctx, keep)..]) + 2048 >= target
      invariant Boundary(ctx, keep) <= |ctx|
      invariant FitKeep(ctx, tokens, target, keep) == FitKeep(ctx, tokens, target, start)
    {
      keep := keep - 1;
      BoundaryIsTurn(ctx, keep);
    }
  }

  /** The compactor itself: the kept boundary is final before the summary is asked for. */
  method CompactMessages(ctx: seq<Message>, policy: Policy, tokens: seq<Message> -> nat, s: Summary) returns (after: seq<Message>)
    ensures after == Compact(ctx, policy, tokens, s)
  {
    var keep := Clamp(policy.keepTurns);
    BoundaryIsTurn(ctx, keep);
    if policy.strategy.PruneToolResults? {
      var cut := Boundary(ctx, keep);
      var blanked: seq<Message> := [];
      for i := 0 to cut
        invariant blanked + BlankAll(ctx[i..cut]) == BlankAll(ctx[..cut])
      {
        assert ctx[i..cut][1..] == ctx[i + 1..cut];
        blanked := blanked + [Blank(ctx[i])];
      }
      return blanked + ctx[cut..];
    }
    keep := FitKeptTurns(ctx, tokens, if policy.historyBudget > 0 then policy.threshold else 0, keep);
    BoundaryIsTurn(ctx, keep);
    var cut := Boundary(ctx, keep);
    if cut == 0 || s.Unavailable? {
      return ctx;
    }
    after := Notes(s) + ctx[cut..];
  }

  lemma {:induction false} BlankShape(ctx: seq<Message>)
    ensures |BlankAll(ctx)| == |ctx|
    ensures SameShape(Items(BlankAll(ctx)), Items(ctx))
  {
    if ctx != [] {
      BlankShape(ctx[1..]);
      var a, b := MessageItems(Blank(ctx[0])), MessageItems(ctx[0]);
      var ta, tb := Items(BlankAll(ctx[1..])), Items(ctx[1..]);
      assert BlankAll(ctx)[1..] == BlankAll(ctx[1..]);
      BlankMessageShape(ctx[0]);
      ShapesJoin(a, b, ta, tb);
    }
  }

  lemma BlankMessageShape(m: Message)
    ensures SameShape(MessageItems(Blank(m)), MessageItems(m))
  {
  }

  lemma ShapesJoin(a: seq<Item>, b: seq<Item>, ta: seq<Item>, tb: seq<Item>)
    requires SameShape(a, b) && SameShape(ta, tb)
    ensures SameShape(a + ta, b + tb)
  {
    assert forall i :: 0 <= i < |a + ta| ==> (a + ta)[i] == if i < |a| then a[i] else ta[i - |a|];
    assert forall i :: 0 <= i < |b + tb| ==> (b + tb)[i] == if i < |b| then b[i] else tb[i - |b|];
  }

  lemma NotesItems(s: Summary)
    requires s.Summary?
    ensures forall it :: it in Items(Notes(s)) ==> it.Said? && !it.turn
  {
    var notes := Notes(s);
    assert notes[1..] == [] || notes[1..][1..] == [];
    assert Items(notes) == [Said(s.text, false)] + Items(notes[1..]);
    if s.workingState != "" {
      assert Items(notes[1..]) == [Said(s.workingState, false)] + Items(notes[1..][1..]);
    }
  }

  /** `after` carries `ctx` on: closed turns stay closed, no id is new, the newest user turn stays last. */
  ghost predicate Continues(ctx: seq<Message>, after: seq<Message>) {
    && (Closed(Items(ctx)) ==> Closed(Items(after)))
    && CalledIds(Items(after)) <= CalledIds(Items(ctx))
    && AnsweredIds(Items(after)) <= AnsweredIds(Items(ctx))
    && (ctx != [] && IsTurn(ctx[|ctx| - 1]) ==> after != [] && after[|after| - 1] == ctx[|ctx| - 1])
  }

  /** The transcript opens with a note of the compactor. */
  predicate Summarized(ctx: seq<Message>) {
    ctx != [] && ctx[0].User? && !ctx[0].turn
  }

  /** A continuation that is recoverable if the run was. It is longer, by one message, only if it is
      the first to open with a note. */
  ghost predicate SafelyReplaces(ctx: seq<Message>, after: seq<Message>) {
    && (Recoverable(Items(ctx)) ==> Recoverable(Items(after)))
    && Continues(ctx, after)
    && (Summarized(ctx) ==> Summarized(after))
    && |after| <= |ctx| + if Summarized(after) && !Summarized(ctx) then 1 else 0
  }

  lemma PassesKeepNotes(ctx: seq<Message>)
    requires Summarized(ctx)
    ensures Summarized(Sanitize(ctx)) && Summarized(Prune(ctx))
  {
  }

  lemma ContinuesTransitive(a: seq<Message>, b: seq<Message>, c: seq<Message>)
    requires Continues(a, b) && Continues(b, c)
    ensures Continues(a, c)
  {
  }

  lemma BlankingIsSafe(past: seq<Message>, recent: seq<Message>)
    requires past == [] || recent != []
    ensures SafelyReplaces(past + recent, BlankAll(past) + recent)
  {
    BlankShape(past);
    ItemsConcat(BlankAll(past), recent);
    ItemsConcat(past, recent);
    ShapedPrefix(Items(BlankAll(past)), Items(past), Items(recent));
  }

  lemma ShapedPrefix(a: seq<Item>, b: seq<Item>, rest: seq<Item>)
    requires SameShape(a, b)
    ensures Recoverable(a + rest) == Recoverable(b + rest)
    ensures Closed(a + rest) == Closed(b + rest)
    ensures CalledIds(a + rest) == CalledIds(b + rest) && AnsweredIds(a + rest) == AnsweredIds(b + rest)
  {
    ShapeLedger(a + rest, b + rest, START, CalledIds(b + rest), {}, {});
  }

  lemma SummaryIsSafe(past: seq<Message>, recent: seq<Message>, s: Summary)
    requires s.Summary?
    requires past != [] && recent != [] && IsTurn(recent[0]) && (|past| == 1 ==> IsTurn(past[0]))
    ensures SafelyReplaces(past + recent, Notes(s) + recent)
  {
    ItemsConcat(Notes(s), recent);
    ItemsConcat(past, recent);
    NotesItems(s);
    assert Items(recent)[0] == Said(recent[0].text, true);
    CutLedger(Items(past), Items(recent), Items(Notes(s)));
    IdsConcat(Items(past), Items(recent));
  }

  /** Compaction keeps closed user turns closed, brings in no id, keeps the newest message and keeps a
      run recoverable. It lengthens a transcript by one message at most, and once in a session. */
  lemma CompactKeepsPairing(ctx: seq<Message>, policy: Policy, tokens: seq<Message> -> nat, s: Summary)
    ensures SafelyReplaces(ctx, Compact(ctx, policy, tokens, s))
  {
    var keep := Clamp(policy.keepTurns);
    if policy.strategy.PruneToolResults? {
      BoundaryIsTurn(ctx, keep);
      BlankedCutIsSafe(ctx, Boundary(ctx, keep));
    } else {
      var fit := FitKeep(ctx, tokens, if policy.historyBudget > 0 then policy.threshold else 0, keep);
      BoundaryIsTurn(ctx, fit);
      if Boundary(ctx, fit) != 0 && s.Summary? {
        SummarizedCutIsSafe(ctx, Boundary(ctx, fit), s);
      }
    }
  }

  lemma BlankedCutIsSafe(ctx: seq<Message>, cut: nat)
    requires cut == 0 || cut < |ctx|
    ensures SafelyReplaces(ctx, BlankAll(ctx[..cut]) + ctx[cut..])
  {
    BlankParts(ctx, cut);
    BlankReplaces(ctx, ctx[..cut], ctx[cut..]);
  }

  lemma BlankParts(ctx: seq<Message>, cut: nat)
    requires cut == 0 || cut < |ctx|
    ensures ctx == ctx[..cut] + ctx[cut..] && (ctx[..cut] == [] || ctx[cut..] != [])
  {
  }

  lemma BlankReplaces(ctx: seq<Message>, past: seq<Message>, recent: seq<Message>)
    requires ctx == past + recent && (past == [] || recent != [])
    ensures SafelyReplaces(ctx, BlankAll(past) + recent)
  {
    BlankingIsSafe(past, recent);
  }

  lemma SummarizedCutIsSafe(ctx: seq<Message>, cut: nat, s: Summary)
    requires 0 < cut < |ctx| && IsTurn(ctx[cut]) && s.Summary? && (cut == 1 ==> IsTurn(ctx[0]))
    ensures SafelyReplaces(ctx, Notes(s) + ctx[cut..])
  {
    CutParts(ctx, cut);
    SummaryReplaces(ctx, ctx[..cut], ctx[cut..], s);
  }

  lemma CutParts(ctx: seq<Message>, cut: nat)
    requires 0 < cut < |ctx|
    ensures ctx == ctx[..cut] + ctx[cut..] && ctx[..cut] != [] && ctx[cut..] != [] && ctx[cut..][0] == ctx[cut]
  {
  }

  lemma SummaryReplaces(ctx: seq<Message>, past: seq<Message>, recent: seq<Message>, s: Summary)
    requires s.Summary? && ctx == past + recent
    requires past != [] && recent != [] && IsTurn(recent[0]) && (|past| == 1 ==> IsTurn(past[0]))
    ensures SafelyReplaces(ctx, Notes(s) + recent)
  {
    SummaryIsSafe(past, recent, s);
  }

  // ------------------------------------------------------------------ inputs that go wrong

  /** One user turn can become two notes: a summary and the working state. */
  lemma CompactLengthens(early: Message, latest: Message, historyBudget: int, threshold: nat, tokens: seq<Message> -> nat, s: Summary)
    requires s.Summary? && s.workingState != "" && IsTurn(early) && IsTurn(latest)
    ensures |Compact([early, latest], Policy(historyBudget, threshold, 1, Summarize), tokens, s)| == 3
  {
    var ctx := [early, latest];
    assert TurnIndices(ctx, 2) == [] && TurnIndices(ctx, 1) == [1] && TurnIndices(ctx, 0) == [0, 1];
  }

  /** A provider that numbers the calls of each response from zero repeats ids. If the second use of an
      id is interrupted, sanitizing sees its id answered and strips nothing; the next turn's compaction
      then cuts the answered use away and leaves the interrupted one. */
  lemma ReusedIdBreaksPairing(c: ToolCall, name: string, content: string, a: string, b: string, d: string, s: Summary, tokens: seq<Message> -> nat)
    requires c.id != "" && s.Summary?
    ensures var ctx := [User(a, true), AssistantBlocks([ToolUse(c)]), ToolResult(c.id, name, content), User(b, true), AssistantBlocks([ToolUse(c)])];
            var next := Sanitize(ctx) + [User(d, true)];
            && !Mendable(Items(ctx)) && Sanitize(ctx) == ctx && Paired(Items(next))
            && !Paired(Items(Compact(next, Policy(0, 0, 2, Summarize), tokens, s)))
  {
    var past, recent, last := AnsweredUse(a, c, name, content), OpenUse(b, c), [User(d, true)];
    assert past + recent == [User(a, true), AssistantBlocks([ToolUse(c)]), ToolResult(c.id, name, content), User(b, true), AssistantBlocks([ToolUse(c)])];
    ReusedIdPasses(c, name, content, a, b, d);
    ReusedIdIsCut(c, name, content, a, b, d, s, tokens);
  }

  function AnsweredUse(text: string, c: ToolCall, name: string, content: string): seq<Message> {
    [User(text, true), AssistantBlocks([ToolUse(c)]), ToolResult(c.id, name, content)]
  }

  function OpenUse(text: string, c: ToolCall): seq<Message> {
    [User(text, true), AssistantBlocks([ToolUse(c)])]
  }

  lemma ReusedIdPasses(c: ToolCall, name: string, content: string, a: string, b: string, d: string)
    requires c.id != ""
    ensures var ctx := AnsweredUse(a, c, name, content) + OpenUse(b, c);
            !Mendable(Items(ctx)) && Sanitize(ctx) == ctx && Paired(Items(ctx + [User(d, true)]))
  {
    var ctx := AnsweredUse(a, c, name, content) + OpenUse(b, c);
    InterruptedItems(c, name, content, a, b, d);
    InterruptedIsPaired(ctx, c, name, content, a, b);
    SaidKeepsPairing(ctx, d, true);
  }

  lemma ReusedIdIsCut(c: ToolCall, name: string, content: string, a: string, b: string, d: string, s: Summary, tokens: seq<Message> -> nat)
    requires s.Summary?
    ensures var next := AnsweredUse(a, c, name, content) + OpenUse(b, c) + [User(d, true)];
            !Paired(Items(Compact(next, Policy(0, 0, 2, Summarize), tokens, s)))
  {
    var past, late := AnsweredUse(a, c, name, content), OpenUse(b, c) + [User(d, true)];
    InterruptedItems(c, name, content, a, b, d);
    assert past + OpenUse(b, c) + [User(d, true)] == past + late;
    CutAtSecondTurn(past + late, past, late, s, tokens);
    LateCallIsUnanswered(late, s, c, b, d);
  }

  lemma InterruptedIsPaired(ctx: seq<Message>, c: ToolCall, name: string, content: string, a: string, b: string)
    requires c.id != ""
    requires Items(ctx) == [Said(a, true), Called(c), Answered(c.id, name, content)] + [Said(b, true), Called(c)]
    ensures !Mendable(Items(ctx)) && Paired(Items(ctx)) && Sanitize(ctx) == ctx
  {
    InterruptedScan([Said(a, true), Called(c), Answered(c.id, name, content)], c, name, content, a, b);
    OpenTurnMendsIff(Items(ctx));
    assert c.id in Scan(Items(ctx), START).open * AnsweredIds(Items(ctx));
    OpenIsUnanswered(Items(ctx));
    SanitizeKeepsPaired(ctx);
  }

  lemma LateCallIsUnanswered(late: seq<Message>, s: Summary, c: ToolCall, b: string, d: string)
    requires s.Summary? && Items(late) == [Said(b, true), Called(c), Said(d, true)]
    ensures !Paired(Items(Notes(s) + late))
  {
    NotesItems(s);
    ItemsConcat(Notes(s), late);
    IdsConcat(Items(Notes(s)), Items(late));
    SummarySilent(Items(Notes(s)));
    assert Items(late)[1] == Called(c) && c.id in CalledIds(Items(late));
    assert AnsweredIds(Items(late)) == {};
  }

  lemma InterruptedItems(c: ToolCall, name: string, content: string, a: string, b: string, d: string)
    ensures Items([User(a, true), AssistantBlocks([ToolUse(c)]), ToolResult(c.id, name, content)]) ==
            [Said(a, true), Called(c), Answered(c.id, name, content)]
    ensures Items([User(b, true), AssistantBlocks([ToolUse(c)])]) == [Said(b, true), Called(c)]
    ensures Items([User(b, true), AssistantBlocks([ToolUse(c)])] + [User(d, true)]) == [Said(b, true), Called(c), Said(d, true)]
    ensures Items([User(a, true), AssistantBlocks([ToolUse(c)]), ToolResult(c.id, name, content)] + [User(b, true), AssistantBlocks([ToolUse(c)])]) ==
            [Said(a, true), Called(c), Answered(c.id, name, content)] + [Said(b, true), Called(c)]
  {
    var use, result := AssistantBlocks([ToolUse(c)]), ToolResult(c.id, name, content);
    assert BlockItems([ToolUse(c)]) == [Called(c)] + BlockItems([ToolUse(c)][1..]);
    assert Items([use]) == MessageItems(use) + Items([use][1..]);
    assert Items([result]) == MessageItems(result) + Items([result][1..]);
    assert Items([User(a, true)]) == [Said(a, true)] && Items([User(b, true)]) == [Said(b, true)] && Items([User(d, true)]) == [Said(d, true)];
    ItemsConcat([User(a, true)], [use]);
    ItemsConcat([User(a, true), use], [result]);
    ItemsConcat([User(b, true)], [use]);
    ItemsConcat([User(b, true), use], [User(d, true)]);
    ItemsConcat([User(a, true), use, result], [User(b, true), use]);
  }

  lemma InterruptedScan(past: seq<Item>, c: ToolCall, name: string, content: string, a: string, b: string)
    requires past == [Said(a, true), Called(c), Answered(c.id, name, content)]
    ensures Scan(past + [Said(b, true), Called(c)], START) == Book({c.id}, {c.id})
    ensures AnsweredIds(past + [Said(b, true), Called(c)]) == {c.id}
    ensures CalledIds(past + [Said(b, true), Called(c)]) == {c.id}
  {
    var more := [Said(b, true), Called(c)];
    ScanConcat(past, more, START);
    assert past[1..] == [Called(c), Answered(c.id, name, content)] && past[1..][1..] == [Answered(c.id, name, content)];
    assert past[1..][1..][1..] == [];
    assert {} + {c.id} == {c.id} && {c.id} - {c.id} == {};
    assert Enter(START, past[0]) == START && Enter(START, Called(c)) == Book({c.id}, {c.id});
    assert Scan(past, START) == Scan(past[1..], START) == Scan(past[1..][1..], Book({c.id}, {c.id})) == Book({c.id}, {});
    assert more[1..] == [Called(c)] && more[1..][1..] == [];
    assert Scan(more, Book({c.id}, {})) == Scan(more[1..], START) == Book({c.id}, {c.id});
    IdsConcat(past, more);
    assert Called(c) in past && Answered(c.id, name, content) in past;
    assert AnsweredIds(past) == {c.id} && AnsweredIds(more) == {} && CalledIds(past) == {c.id} && CalledIds(more) == {c.id};
  }

  lemma CutAtSecondTurn(next: seq<Message>, past: seq<Message>, recent: seq<Message>, s: Summary, tokens: seq<Message> -> nat)
    requires s.Summary? && next == past + recent && |past| == |recent| == 3
    requires IsTurn(past[0]) && !IsTurn(past[1]) && !IsTurn(past[2])
    requires IsTurn(recent[0]) && !IsTurn(recent[1]) && IsTurn(recent[2])
    ensures Compact(next, Policy(0, 0, 2, Summarize), tokens, s) == Notes(s) + recent
  {
    assert TurnIndices(next, 6) == [] && TurnIndices(next, 5) == [5] && TurnIndices(next, 4) == [5];
    assert TurnIndices(next, 3) == [3, 5] && TurnIndices(next, 2) == [3, 5] && TurnIndices(next, 1) == [3, 5];
    assert TurnIndices(next, 0) == [0, 3, 5];
    assert next[3..] == recent;
  }
}
