/**
  The agent loop: one session object whose turns ask a provider, run its tool calls and keep the
  transcript. The provider, the tools, the clock and the user are oracles indexed by `tick`, so
  every claim below is about all of their behaviours. Call ids are distinct within a response and
  may repeat across responses; what holds only without repetition says so (`Fresh`).
 */
module AgentRuntime {
  import opened Transcript
  import opened Ledger
  import opened Compactor
  import opened Research
  import opened Dispatch
  import opened AssistantMessages

  const DEFAULT_MAX_TOOL_ROUNDS: nat := 20
  const DEFAULT_MAX_TOOL_CALLS: nat := 40
  const CONFIRM_TOOLS: set<string> := {"x_post", "x_reply"}
  const MEMORY_TOOLS: set<string> := {"remember", "remember_skill"}

  datatype Option<T> = None | Some(value: T)

  /** How a provider error may be recovered from. */
  datatype Recovery = Recovery(retryable: bool, shouldCompress: bool, authFailure: bool)

  /** `newId` is the id a merged research call would get. */
  datatype Response = Response(content: string, calls: seq<ToolCall>, newId: string)

  datatype Outcome = Reply(response: Response) | Fail(error: Recovery)

  datatype Decision = Confirm | Cancel | Modify(replacement: string) | Unclear

  datatype Env = Env(
    reply: nat -> Outcome,
    tool: (nat, ToolCall) -> ToolOutcome,
    order: (nat, nat) -> seq<nat>,
    summary: nat -> Summary,
    amended: nat -> bool,
    late: nat -> bool,
    rotates: nat -> bool,
    tokens: seq<Message> -> nat,
    policy: Policy,
    safe: string -> bool,
    streaming: bool,
    summaryPrefix: string,
    maxToolRounds: int,
    pool: seq<string>)

  ghost predicate CompletesAll(env: Env) {
    forall t: nat, n: nat :: IsPermutation(env.order(t, n), n)
  }

  // ------------------------------------------------------------------ ids

  function OutcomeIds(o: Outcome): set<string> {
    if o.Reply? then Ids(o.response.calls) + {o.response.newId} else {}
  }

  ghost predicate WellFormed(o: Outcome) {
    o.Reply? ==> DistinctIds(o.response.calls) && o.response.newId !in Ids(o.response.calls)
  }

  /** The calls of one response have different ids. */
  ghost predicate AnswersWell(env: Env) {
    forall t: nat :: WellFormed(env.reply(t))
  }

  /** From tick `t` on, the provider never repeats a call id, neither its own nor one in `spent`. */
  ghost predicate FreshFrom(env: Env, t: nat, spent: set<string>) {
    && (forall n :: t <= n ==> OutcomeIds(env.reply(n)) !! spent)
    && (forall m, n :: t <= m < n ==> OutcomeIds(env.reply(m)) !! OutcomeIds(env.reply(n)))
  }

  predicate KnownIds(ctx: seq<Message>, spent: set<string>) {
    CalledIds(Items(ctx)) <= spent && AnsweredIds(Items(ctx)) <= spent
  }

  /** Ids that were handed out and that the transcript has not seen. */
  predicate NewIds(ids: set<string>, ctx: seq<Message>, spent: set<string>) {
    ids <= spent && ids !! CalledIds(Items(ctx)) + AnsweredIds(Items(ctx))
  }

  /** No id has repeated and none will. */
  ghost predicate FreshState(env: Env, t: nat, spent: set<string>, ctx: seq<Message>) {
    FreshFrom(env, t, spent) && KnownIds(ctx, spent) && Recoverable(Items(ctx))
  }

  lemma FreshStays(env: Env, t: nat, t': nat, spent: set<string>, ctx: seq<Message>, after: seq<Message>)
    requires FreshState(env, t, spent, ctx) && t <= t'
    requires Recoverable(Items(ctx)) ==> Recoverable(Items(after))
    requires CalledIds(Items(after)) <= CalledIds(Items(ctx)) && AnsweredIds(Items(after)) <= AnsweredIds(Items(ctx))
    ensures FreshState(env, t', spent, after)
  {
  }

  lemma FreshAfterReply(env: Env, t: nat, spent: set<string>, ctx: seq<Message>)
    requires FreshState(env, t, spent, ctx)
    ensures FreshState(env, t + 1, spent + OutcomeIds(env.reply(t)), ctx)
  {
    forall n | t + 1 <= n
      ensures OutcomeIds(env.reply(n)) !! spent + OutcomeIds(env.reply(t))
    {
      assert OutcomeIds(env.reply(t)) !! OutcomeIds(env.reply(n));
    }
  }

  lemma FreshAfterCalls(env: Env, t: nat, spent: set<string>, ctx: seq<Message>, content: string, calls: seq<ToolCall>)
    requires FreshState(env, t, spent, ctx) && DistinctIds(calls) && NewIds(Ids(calls), ctx, spent)
    ensures FreshState(env, t, spent, ctx + [AssistantMessage(content, calls)])
  {
    AssistantLedger(ctx, content, calls);
    AssistantRecoverable(ctx, content, calls);
  }

  lemma FreshAfterAnswers(env: Env, t: nat, t': nat, spent: set<string>, ctx: seq<Message>, answers: seq<Message>, ids: set<string>)
    requires FreshState(env, t, spent, ctx) && t <= t' && ids <= spent
    requires forall m :: m in answers ==> m.ToolResult? && m.id in ids
    requires ids * CalledIds(Items(ctx)) <= Segment(Items(ctx), {})
    ensures FreshState(env, t', spent, ctx + answers)
  {
    AnswersLedger(ctx, answers);
    AnswersRecover(ctx, answers);
    assert AnswerIds(answers) <= ids;
  }

  /** Paused calls are unanswered calls of the current user turn, or were stripped from it. */
  ghost predicate PausedOpen(pending: seq<ToolCall>, spent: set<string>, ctx: seq<Message>) {
    && Ids(pending) <= spent
    && Ids(pending) !! AnsweredIds(Items(ctx))
    && Ids(pending) * CalledIds(Items(ctx)) <= Segment(Items(ctx), {})
  }

  // ------------------------------------------------------------------ what a provider may ask for

  /** Some reply asks for the tool. */
  ghost predicate Requested(env: Env, name: string) {
    exists t: nat :: env.reply(t).Reply? && name in Names(env.reply(t).response.calls)
  }

  /** Every name was asked for, or is that of a merged research call. */
  ghost predicate AllRequested(env: Env, names: seq<string>) {
    forall n :: n in names ==> Requested(env, n) || n == "research_web" || n == "read_batch"
  }

  ghost predicate NeverRemembers(env: Env) {
    forall n :: n in MEMORY_TOOLS ==> !Requested(env, n)
  }

  ghost predicate NeverPosts(env: Env) {
    forall n :: n in CONFIRM_TOOLS ==> !Requested(env, n)
  }

  ghost predicate Amends(env: Env) {
    exists t: nat :: env.amended(t)
  }

  ghost predicate Raises(env: Env) {
    exists t: nat, tc: ToolCall :: env.tool(t, tc).Raised?
  }

  /** Nothing interrupts a round: no amendment, no raising tool, no pause, no answer after memory-keeping. */
  ghost predicate Calm(env: Env) {
    !Amends(env) && !Raises(env) && NeverPosts(env) && NeverRemembers(env)
  }

  lemma CoalescedRequests(env: Env, t: nat, goal: string, round: nat, names: seq<string>)
    requires env.reply(t).Reply?
    ensures var r := env.reply(t).response; AllRequested(env, Names(Coalesce(r.calls, goal, round, names, r.newId)))
  {
    var r := env.reply(t).response;
    var calls := Coalesce(r.calls, goal, round, names, r.newId);
    CoalescedNames(r.calls, goal, round, names, r.newId);
    NamesIn(r.calls);
    NamesIn(calls);
    forall n | n in Names(calls) ensures Requested(env, n) || n == "research_web" || n == "read_batch" {
      var tc :| tc in calls && tc.name == n;
      assert tc in r.calls ==> tc.name in Names(env.reply(t).response.calls);
    }
  }

  // ------------------------------------------------------------------ the session object

  /** Counters of the compaction argument: messages appended, and budget compactions that did or did
      not help. */
  datatype Tally = Tally(appended: nat, effective: nat, ineffective: nat)

  datatype CallEnd = Got(response: Response) | Gave(error: Recovery) | Exhausted

  predicate Retryable(e: Recovery) {
    e.retryable && !e.authFailure
  }

  /** What the user and the strategy bring to one turn; `abandoned` marks a consumer that stops
      listening once the answer is complete, so that the turn's last step never happens. */
  datatype TurnInput = TurnInput(text: string, decision: Decision, strategyRounds: Option<int>, strategyBlocks: bool, abandoned: bool)

  /** The counters of a running turn. */
  datatype Budget = Budget(round: nat, soft: nat, streak: nat, dispatched: nat, cache: Cache, names: seq<string>)

  datatype StopReason = EndTurn | AwaitingUser | UserAmendment | RunTimeout | MaxToolRounds | MaxToolCalls

  /** Why a round was the last: `answered` if the user has text, `cut` if calls were left unanswered,
      `whole` if a pause covers every call of its message, `broke` if a tool raised. */
  datatype Next =
    | Continue
    | Stop(reason: StopReason, answered: bool, cut: bool, whole: bool)
    | Failed(broke: bool)

  datatype TurnEnd = Replied | Crashed | Ended(reason: StopReason, rounds: nat, dispatched: nat)

  predicate SpentBudget(reason: StopReason) {
    reason.RunTimeout? || reason.MaxToolRounds? || reason.MaxToolCalls?
  }

  /** More requests than a turn can make: four for each pass of its loop and six for its ending. */
  const MAX_TURN_REQUESTS: nat := 90

  /** The most a turn appends besides the results of a confirmed pause: the user's text, an assistant
      message for each pass, the results of its calls, and two reminders with one answer. */
  const MAX_TURN_MESSAGES: nat := 65

  /** The recovery answer of a memory-only turn, asked for although an amendment cut its round short. */
  predicate CutRecovery(next: Next, names: seq<string>) {
    next.Stop? && next.cut && !next.answered && MemoryOnly(names)
  }

  /** The text of the reminder that asks for a final answer. */
  const REMINDER := "Now answer the user's latest request directly"

  /** User text counts as a turn unless it opens like one of the compactor's own notes. */
  predicate OpensTurn(text: string, summaryPrefix: string) {
    !(summaryPrefix <= text) && !("[Working state]\n" <= text) && !("[Session summary]\n" <= text)
  }

  predicate InBudget(b: Budget, maxRounds: nat) {
    1 <= maxRounds <= DEFAULT_MAX_TOOL_ROUNDS && b.round <= maxRounds && 1 <= b.soft <= maxRounds && b.dispatched <= DEFAULT_MAX_TOOL_CALLS
  }

  function Names(calls: seq<ToolCall>): seq<string> {
    if calls == [] then [] else [calls[0].name] + Names(calls[1..])
  }

  predicate MemoryOnly(names: seq<string>) {
    names != [] && forall n :: n in names ==> n in MEMORY_TOOLS
  }

  predicate AllConfirm(calls: seq<ToolCall>) {
    forall tc :: tc in calls ==> tc.name in CONFIRM_TOOLS
  }

  /** A configured 0 or less means the default; nothing exceeds the default. */
  function HardMaxToolRounds(configured: int): (max: nat)
    ensures 1 <= max <= DEFAULT_MAX_TOOL_ROUNDS
  {
    if configured <= 0 then DEFAULT_MAX_TOOL_ROUNDS
    else if configured < DEFAULT_MAX_TOOL_ROUNDS then configured else DEFAULT_MAX_TOOL_ROUNDS
  }

  function SoftMaxToolRounds(strategyRounds: Option<int>, hard: nat): (soft: nat)
    requires 1 <= hard
    ensures 1 <= soft <= hard
  {
    var selected := if strategyRounds.None? then hard else if strategyRounds.value < 0 then 0 else strategyRounds.value;
    if selected == 0 || selected > hard then hard else selected
  }

  /** A round that reaches the soft limit while still making progress is given four more. */
  function ExtendSoft(b: Budget, maxRounds: nat): nat {
    if b.soft > 0 && b.round >= b.soft && b.streak == 0
    then if b.soft + 4 < maxRounds then b.soft + 4 else maxRounds
    else b.soft
  }

  /** The transcript is closed again unless a tool raised or the round paused or was cut short. */
  predicate Leaves(next: Next) {
    next.Continue? || (next.Failed? && !next.broke) || (next.Stop? && !next.reason.AwaitingUser? && !next.cut)
  }

  /** The counters after a round: rounds advance by one and limits hold. */
  ghost predicate Advances(b: Budget, b': Budget, maxRounds: nat, next: Next) {
    && InBudget(b', maxRounds)
    && b'.soft == b.soft && b.dispatched <= b'.dispatched
    && b'.round == b.round + (if next.Continue? then 1 else 0)
  }

  /** Earlier user turns are closed and the last one has open calls. */
  predicate LeftOpen(ctx: seq<Message>) {
    Scan(Items(ctx), START).Book? && Scan(Items(ctx), START).open != {}
  }

  /** A request for a final answer on a transcript whose last turn has open calls. */
  predicate AsksOnOpen(request: seq<Message>) {
    var n := |request| - 1;
    n >= 0 && request[n] == User(REMINDER, true) && LeftOpen(request[..n])
  }

  /** From request `n` to `m` an answer was asked for on an open transcript. */
  predicate AskedOnOpen(sent: seq<seq<Message>>, n: nat, m: nat) {
    exists k :: n <= k < m <= |sent| && AsksOnOpen(sent[k])
  }

  /** Such a request is not closed. */
  lemma AskedOnOpenBreaks(sent: seq<seq<Message>>, n: nat, m: nat)
    requires m <= |sent| && AskedOnOpen(sent, n, m)
    ensures exists k :: n <= k < m && !Closed(Items(sent[k]))
  {
    var k :| n <= k < m && AsksOnOpen(sent[k]);
    var first := sent[k][..|sent[k]| - 1];
    LeftOpenShows(first, REMINDER);
    assert sent[k] == first + [User(REMINDER, true)];
  }

  /** Since request `n` all was closed before; a cut turn asked on an open transcript right after. */
  lemma CutTells(before: seq<seq<Message>>, after: seq<seq<Message>>, n: nat, cut: bool)
    requires n <= |before| && before <= after
    requires cut ==> |after| > |before| && AsksOnOpen(after[|before|])
    ensures cut ==> AskedOnOpen(after, n, |after|)
    ensures AskedOnOpen(after, n, |after|) ==> exists k :: n <= k < |after| && !Closed(Items(after[k]))
  {
    if AskedOnOpen(after, n, |after|) {
      AskedOnOpenBreaks(after, n, |after|);
    }
  }

  /** Only memory-keeping tools ran. */
  predicate KeepsMemory(done: seq<Done>) {
    forall d :: d in done ==> d.call.name in MEMORY_TOOLS
  }

  predicate AllNamed(done: seq<Done>, names: seq<string>) {
    forall d :: d in done ==> d.call.name in names
  }

  /** What a round ran joins the names and the log of its turn. */
  lemma NamedMore(ran0: seq<Done>, ran: seq<Done>, start: nat, names: seq<string>, more: seq<string>)
    requires start <= |ran0| && ran0 <= ran && AllNamed(ran0[start..], names) && AllNamed(ran[|ran0|..], more)
    ensures AllNamed(ran[start..], names + more)
  {
    assert ran[start..] == ran0[start..] + ran[|ran0|..];
  }

  /** The paused calls are exactly the calls the transcript still lacks results for. */
  predicate Resumable(ctx: seq<Message>, pending: seq<ToolCall>) {
    Scan(Items(ctx), START).Book? && Scan(Items(ctx), START).open == Ids(pending)
  }

  /** A pause is confirmed though its calls are not the ones the transcript lacks. */
  predicate CannotResume(ctx: seq<Message>, pending: seq<ToolCall>, decision: Decision) {
    pending != [] && decision.Confirm? && !Resumable(ctx, pending)
  }

  /** A turn starts on a transcript that sanitizing does not close: an earlier turn left a call open
      whose id had been answered before, or results whose calls are in another user turn. */
  predicate Stale(ctx: seq<Message>, pending: seq<ToolCall>) {
    pending == [] && !Mendable(Items(ctx))
  }

  /** A response that asks for a public post asks for nothing else. */
  predicate WholePause(calls: seq<ToolCall>) {
    (exists tc :: tc in calls && tc.name in CONFIRM_TOOLS) ==> AllConfirm(calls)
  }

  ghost predicate AsksWhole(env: Env) {
    forall t :: env.reply(t).Reply? ==> WholePause(env.reply(t).response.calls)
  }

  /** Public posts are asked for alone, every pause is confirmed or cancelled, and no amendment arrives
      or no memory-keeping tool is asked for. */
  ghost predicate Careful(env: Env, turns: seq<TurnInput>) {
    && AsksWhole(env)
    && (forall turn :: turn in turns ==> turn.decision.Confirm? || turn.decision.Cancel?)
    && (!Amends(env) || NeverRemembers(env))
  }

  ghost predicate CarefulTurn(env: Env, turn: TurnInput) {
    AsksWhole(env) && (turn.decision.Confirm? || turn.decision.Cancel?) && (!Amends(env) || NeverRemembers(env))
  }

  /** A session between two turns, and how many transcripts it has sent. */
  datatype Moment = Moment(context: seq<Message>, pending: seq<ToolCall>, sent: nat)

  /** From `m` to `m'` a turn that can resume what it confirms and is not stale sent closed transcripts,
      exactly unless it was cut short, which is when it asked for an answer on an open transcript. */
  ghost predicate TurnKept(m: Moment, turn: TurnInput, m': Moment, cut: bool, sent: seq<seq<Message>>) {
    && m.sent <= m'.sent <= |sent|
    && (!CannotResume(m.context, m.pending, turn.decision) && !Stale(m.context, m.pending) ==>
          && ((forall k :: m.sent <= k < m'.sent ==> Closed(Items(sent[k]))) <==> !cut)
          && (cut <==> AskedOnOpen(sent, m.sent, m'.sent)))
  }

  predicate NoSlip(m: Moment, turn: TurnInput, cut: bool) {
    !CannotResume(m.context, m.pending, turn.decision) && !Stale(m.context, m.pending) && !cut
  }

  predicate NoSlips(moments: seq<Moment>, turns: seq<TurnInput>, cuts: seq<bool>, n: nat)
    requires n <= |moments| && n <= |turns| && n <= |cuts|
  {
    forall i :: 0 <= i < n ==> NoSlip(moments[i], turns[i], cuts[i])
  }

  /** The first `n` turns of a run, as its moments tell them. */
  ghost predicate RunKept(env: Env, moments: seq<Moment>, turns: seq<TurnInput>, cuts: seq<bool>, sent: seq<seq<Message>>, n: nat)
  {
    && n <= |turns| && |moments| == n + 1 && |cuts| == n
    && (forall i :: 0 <= i < n ==> TurnKept(moments[i], turns[i], moments[i + 1], cuts[i], sent))
    && (forall i :: 0 <= i < n && cuts[i] ==> Amends(env) && !NeverRemembers(env))
  }

  predicate NeverStale(moments: seq<Moment>, n: nat)
    requires n <= |moments|
  {
    forall i :: 0 <= i < n ==> !Stale(moments[i].context, moments[i].pending)
  }

  lemma KeptLater(m: Moment, turn: TurnInput, m': Moment, cut: bool, before: seq<seq<Message>>, after: seq<seq<Message>>)
    requires TurnKept(m, turn, m', cut, before) && before <= after
    ensures TurnKept(m, turn, m', cut, after)
  {
    assert forall k :: 0 <= k < |before| ==> after[k] == before[k];
    if forall k :: m.sent <= k < m'.sent ==> Closed(Items(after[k])) {
      forall k | m.sent <= k < m'.sent ensures Closed(Items(before[k])) {
        assert after[k] == before[k];
      }
    }
    if AskedOnOpen(before, m.sent, m'.sent) {
      var k :| m.sent <= k < m'.sent && AsksOnOpen(before[k]);
      assert AsksOnOpen(after[k]);
    }
    if AskedOnOpen(after, m.sent, m'.sent) {
      var k :| m.sent <= k < m'.sent && AsksOnOpen(after[k]);
      assert AsksOnOpen(before[k]);
    }
  }

  lemma RunMore(env: Env, moments: seq<Moment>, turns: seq<TurnInput>, cuts: seq<bool>, before: seq<seq<Message>>, after: seq<seq<Message>>,
                n: nat, m: Moment, cut: bool)
    requires RunKept(env, moments, turns, cuts, before, n) && before <= after && n < |turns|
    requires TurnKept(moments[n], turns[n], m, cut, after) && (cut ==> Amends(env) && !NeverRemembers(env))
    ensures RunKept(env, moments + [m], turns, cuts + [cut], after, n + 1)
    ensures NoSlips(moments, turns, cuts, n) && NoSlip(moments[n], turns[n], cut) ==> NoSlips(moments + [m], turns, cuts + [cut], n + 1)
    ensures NeverStale(moments, n) && !Stale(moments[n].context, moments[n].pending) ==> NeverStale(moments + [m], n + 1)
  {
    forall i | 0 <= i < n ensures TurnKept(moments[i], turns[i], moments[i + 1], cuts[i], after) {
      KeptLater(moments[i], turns[i], moments[i + 1], cuts[i], before, after);
    }
  }

  lemma {:induction false} NoSlipsClosed(env: Env, moments: seq<Moment>, turns: seq<TurnInput>, cuts: seq<bool>, sent: seq<seq<Message>>, n: nat)
    requires RunKept(env, moments, turns, cuts, sent, |turns|) && n <= |turns| && moments[0].sent <= |sent|
    ensures moments[0].sent <= moments[n].sent <= |sent|
    ensures NoSlips(moments, turns, cuts, n) ==> forall k :: moments[0].sent <= k < moments[n].sent ==> Closed(Items(sent[k]))
  {
    if n > 0 {
      NoSlipsClosed(env, moments, turns, cuts, sent, n - 1);
      assert TurnKept(moments[n - 1], turns[n - 1], moments[n], cuts[n - 1], sent);
    }
  }

  lemma ClosedArePaired(sent: seq<seq<Message>>, n: nat)
    ensures (forall k :: n <= k < |sent| ==> Closed(Items(sent[k]))) ==> forall k :: n <= k < |sent| ==> Paired(Items(sent[k]))
  {
    forall k | n <= k < |sent| && Closed(Items(sent[k])) ensures Paired(Items(sent[k])) {
      ClosedIsPaired(Items(sent[k]));
    }
  }

  predicate Unposted(done: seq<Done>) {
    forall d :: d in done ==> d.call.name !in CONFIRM_TOOLS
  }

  /** What a turn runs and replays: first the paused calls that were confirmed, in order, and then,
      within the turn's budget, other tools and no key twice; a replay answers as the one execution of
      its key did. */
  ghost predicate RunsOnce(ran0: seq<Done>, replayed0: seq<Done>, ran: seq<Done>, replayed: seq<Done>, paused: seq<ToolCall>, resumed: nat) {
    && ran0 <= ran && replayed0 <= replayed
    && resumed <= |paused| && |ran0| + resumed <= |ran| <= |ran0| + resumed + DEFAULT_MAX_TOOL_CALLS
    && (forall i :: 0 <= i < resumed ==> ran[|ran0| + i].call == paused[i])
    && AllConfirm(paused) && Unposted(ran[|ran0| + resumed..])
    && DistinctDone(ran[|ran0| + resumed..])
    && Echoes(replayed[|replayed0|..], ran[|ran0| + resumed..])
  }

  /** The same, with the log as the confirmed calls left it. */
  ghost predicate RanAfter(ran0: seq<Done>, replayed0: seq<Done>, ran1: seq<Done>, ran: seq<Done>, replayed: seq<Done>,
                           paused: seq<ToolCall>, resumed: nat)
  {
    && ran0 <= ran1 <= ran && replayed0 <= replayed && resumed <= |paused| && |ran1| == |ran0| + resumed
    && |ran| <= |ran1| + DEFAULT_MAX_TOOL_CALLS && AllConfirm(paused)
    && (forall i :: 0 <= i < resumed ==> ran1[|ran0| + i].call == paused[i])
    && ((ran == ran1 && replayed == replayed0)
        || (DistinctDone(ran[|ran1|..]) && Unposted(ran[|ran1|..]) && Echoes(replayed[|replayed0|..], ran[|ran1|..])))
  }

  lemma RanInTurn(ran0: seq<Done>, replayed0: seq<Done>, ran1: seq<Done>, ran: seq<Done>, replayed: seq<Done>, paused: seq<ToolCall>, resumed: nat)
    requires RanAfter(ran0, replayed0, ran1, ran, replayed, paused, resumed)
    ensures RunsOnce(ran0, replayed0, ran, replayed, paused, resumed)
    ensures DistinctKeys(paused) ==> DistinctDone(ran[|ran0|..])
  {
    RanIsOnce(ran0, replayed0, ran1, ran, replayed, paused, resumed);
    if DistinctKeys(paused) {
      RunsNothingTwice(ran0, replayed0, ran, replayed, paused, resumed);
    }
  }

  lemma RanIsOnce(ran0: seq<Done>, replayed0: seq<Done>, ran1: seq<Done>, ran: seq<Done>, replayed: seq<Done>, paused: seq<ToolCall>, resumed: nat)
    requires RanAfter(ran0, replayed0, ran1, ran, replayed, paused, resumed)
    ensures RunsOnce(ran0, replayed0, ran, replayed, paused, resumed)
  {
    assert forall i :: 0 <= i < |ran1| ==> ran[i] == ran1[i];
    assert ran[|ran1|..] == ran[|ran0| + resumed..];
    assert ran == ran1 && replayed == replayed0 ==> ran[|ran1|..] == [] && replayed[|replayed0|..] == [];
  }

  /** If the paused calls have different keys, no key runs twice in the whole turn. */
  lemma RunsNothingTwice(ran0: seq<Done>, replayed0: seq<Done>, ran: seq<Done>, replayed: seq<Done>, paused: seq<ToolCall>, resumed: nat)
    requires RunsOnce(ran0, replayed0, ran, replayed, paused, resumed) && DistinctKeys(paused)
    ensures DistinctDone(ran[|ran0|..])
  {
    var all, own := ran[|ran0|..], ran[|ran0| + resumed..];
    assert forall i :: 0 <= i < resumed ==> all[i] == ran[|ran0| + i];
    assert forall i :: resumed <= i < |all| ==> all[i] == own[i - resumed] && own[i - resumed] in own;
    forall i, j | 0 <= i < j < |all| ensures KeyOf(all[i].call) != KeyOf(all[j].call) {
      if i >= resumed {
        assert KeyOf(own[i - resumed].call) != KeyOf(own[j - resumed].call);
      } else if j >= resumed {
        assert paused[i] in paused && all[i].call == paused[i] && all[j] in own;
      } else {
        assert all[i].call == paused[i] && all[j].call == paused[j];
      }
    }
  }

  /** A modifying reply gives every paused post the same text, so two posts that differ in their text
      only become one key, and a confirmation then runs it twice. */
  lemma RewriteMakesPostsEqual(a: ToolCall, b: ToolCall, text: string)
    requires a.name == b.name && text != "" && a.input - {"text"} == b.input - {"text"}
    ensures !DistinctKeys(Rewrite([a, b], text))
  {
    var r := Rewrite([a, b], text);
    assert [a, b][1..] == [b] && [b][1..] == [] && Rewrite([], text) == [];
    assert r == [r[0]] + Rewrite([b], text) && Rewrite([b], text) == [Rewrite([b], text)[0]];
    assert r[0].input == a.input["text" := JStr(text)] && r[1].input == b.input["text" := JStr(text)];
    assert a.input["text" := JStr(text)] == (a.input - {"text"})["text" := JStr(text)];
    assert b.input["text" := JStr(text)] == (b.input - {"text"})["text" := JStr(text)];
    assert KeyOf(r[0]) == KeyOf(r[1]);
  }

  lemma MemoryWasRequested(env: Env, names: seq<string>)
    requires AllRequested(env, names)
    ensures MemoryOnly(names) ==> !NeverRemembers(env)
  {
    if MemoryOnly(names) {
      assert names[0] in names;
    }
  }

  lemma WholePauseStays(response: Response, goal: string, round: nat, names: seq<string>)
    ensures WholePause(response.calls) ==> WholePause(Coalesce(response.calls, goal, round, names, response.newId))
  {
    FirstOfEachMembers(response.calls, {});
  }

  /** What the runtime makes of the calls of a reply. */
  lemma CallsToRun(env: Env, t: nat, goal: string, round: nat, names: seq<string>)
    requires AnswersWell(env) && env.reply(t).Reply?
    ensures var r := env.reply(t).response;
            var calls := Coalesce(r.calls, goal, round, names, r.newId);
            && DistinctKeys(calls) && DistinctIds(calls) && Ids(calls) <= OutcomeIds(env.reply(t))
            && AllRequested(env, Names(calls)) && (AsksWhole(env) ==> WholePause(calls))
  {
    var r := env.reply(t).response;
    assert WellFormed(env.reply(t));
    CoalescedCalls(r.calls, goal, round, names, r.newId);
    CoalescedRequests(env, t, goal, round, names);
    WholePauseStays(r, goal, round, names);
  }

  predicate NoPosts(calls: seq<ToolCall>) {
    forall tc :: tc in calls ==> tc.name !in CONFIRM_TOOLS
  }

  lemma NothingConfirms(calls: seq<ToolCall>)
    requires Only(calls, CONFIRM_TOOLS) == []
    ensures NoPosts(calls)
  {
    OnlyMembers(calls, CONFIRM_TOOLS);
  }

  lemma NoCalls()
    ensures DistinctKeys([]) && DistinctIds([]) && Ids([]) == {}
  {
  }

  lemma PostWasRequested(env: Env, calls: seq<ToolCall>, tc: ToolCall)
    requires AllRequested(env, Names(calls)) && tc in calls && tc.name in CONFIRM_TOOLS
    ensures !NeverPosts(env)
  {
    NamesIn(calls);
    assert Requested(env, tc.name);
  }

  lemma {:induction false} NamesIn(calls: seq<ToolCall>)
    ensures forall tc :: tc in calls ==> tc.name in Names(calls)
    ensures forall n :: n in Names(calls) ==> exists tc :: tc in calls && tc.name == n
    ensures |Names(calls)| == |calls|
  {
    if calls != [] {
      NamesIn(calls[1..]);
      forall n | n in Names(calls) ensures exists tc :: tc in calls && tc.name == n {
        if n == calls[0].name {
          assert calls[0] in calls;
        } else {
          var tc :| tc in calls[1..] && tc.name == n;
          assert tc in calls;
        }
      }
    }
  }

  lemma {:induction false} OnlyMembers(calls: seq<ToolCall>, names: set<string>)
    ensures forall tc :: tc in Only(calls, names) <==> tc in calls && tc.name in names
    ensures DistinctIds(calls) ==> DistinctIds(Only(calls, names))
    ensures DistinctKeys(calls) ==> DistinctKeys(Only(calls, names))
  {
    if calls != [] {
      var rest := calls[1..];
      OnlyMembers(rest, names);
      if DistinctKeys(calls) {
        assert forall i :: 0 <= i < |rest| ==> rest[i] == calls[i + 1];
        if calls[0].name in names {
          HeadDistinct(calls[0], Only(rest, names));
        }
      }
      if DistinctIds(calls) {
        assert forall i :: 0 <= i < |rest| ==> rest[i] == calls[i + 1];
        var tail := Only(rest, names);
        var r := Only(calls, names);
        forall i, j | 0 <= i < j < |r| ensures r[i].id != r[j].id {
          if calls[0].name in names {
            assert r[j] == tail[j - 1] && tail[j - 1] in rest;
            if i == 0 {
              var k :| 0 <= k < |rest| && rest[k] == tail[j - 1];
              assert calls[k + 1] == rest[k];
            }
          }
        }
      }
    }
  }

  /** A round that answers all its calls leaves a closed transcript closed; any other leaves it open. */
  lemma RoundCloses(env: Env, t: nat, start: seq<Message>, content: string, calls: seq<ToolCall>, cache: Cache, after: seq<Message>, n: nat)
    requires Closed(Items(start)) && DistinctIds(calls)
    requires n <= |calls| == |RoundAnswers(env.tool, t, calls, cache, env.safe)|
    requires after == start + [AssistantMessage(content, calls)] + RoundAnswers(env.tool, t, calls, cache, env.safe)[..n]
    ensures if n == |calls| then Closed(Items(after)) else LeftOpen(after)
  {
    var answers := RoundAnswers(env.tool, t, calls, cache, env.safe)[..n];
    RoundAnswerIds(env.tool, t, calls, cache, env.safe, n);
    AnsweredRound(start, content, calls, answers);
    if n < |calls| {
      FewAnswers(calls, answers);
    } else {
      assert Ids(calls) - Ids(calls) == {};
    }
  }

  lemma RoundKeepsFresh(env: Env, t: nat, t': nat, spent: set<string>, start: seq<Message>, content: string, calls: seq<ToolCall>,
                        cache: Cache, after: seq<Message>, n: nat)
    requires FreshState(env, t, spent, start + [AssistantMessage(content, calls)]) && t <= t' && Ids(calls) <= spent
    requires n <= |calls| == |RoundAnswers(env.tool, t, calls, cache, env.safe)|
    requires after == start + [AssistantMessage(content, calls)] + RoundAnswers(env.tool, t, calls, cache, env.safe)[..n]
    ensures FreshState(env, t', spent, after)
  {
    RoundAnswerIds(env.tool, t, calls, cache, env.safe, n);
    AssistantLedger(start, content, calls);
    FreshAfterAnswers(env, t, t', spent, start + [AssistantMessage(content, calls)],
                      RoundAnswers(env.tool, t, calls, cache, env.safe)[..n], Ids(calls));
  }

  lemma RoundSettles(env: Env, t: nat, t': nat, spent: set<string>, start: seq<Message>, content: string, calls: seq<ToolCall>,
                     cache: Cache, after: seq<Message>, n: nat, isNew: bool)
    requires isNew ==> FreshState(env, t, spent, start + [AssistantMessage(content, calls)]) && t <= t' && Ids(calls) <= spent
    requires DistinctIds(calls) && n <= |calls| == |RoundAnswers(env.tool, t, calls, cache, env.safe)|
    requires after == start + [AssistantMessage(content, calls)] + RoundAnswers(env.tool, t, calls, cache, env.safe)[..n]
    ensures isNew ==> FreshState(env, t', spent, after)
    ensures Closed(Items(start)) ==> if n == |calls| then Closed(Items(after)) else LeftOpen(after)
  {
    if isNew {
      RoundKeepsFresh(env, t, t', spent, start, content, calls, cache, after, n);
    }
    if Closed(Items(start)) {
      RoundCloses(env, t, start, content, calls, cache, after, n);
    }
  }

  /** A request that shows an open turn and then a reminder is not closed. */
  lemma LeftOpenShows(ctx: seq<Message>, note: string)
    requires LeftOpen(ctx)
    ensures !Closed(Items(ctx)) && !Closed(Items(ctx + [User(note, true)]))
  {
    SaidKeepsPairing(ctx, note, true);
  }

  /** Taking the reminder back after a call that kept it last. */
  lemma TakeBack(first: seq<Message>, after: seq<Message>, context: seq<Message>)
    requires Continues(first + [User(REMINDER, true)], after) && after != [] && context == after[..|after| - 1]
    ensures Closed(Items(first)) ==> Closed(Items(context))
    ensures Recoverable(Items(after)) ==> Recoverable(Items(context))
    ensures CalledIds(Items(context)) == CalledIds(Items(after)) <= CalledIds(Items(first))
    ensures AnsweredIds(Items(context)) == AnsweredIds(Items(after)) <= AnsweredIds(Items(first))
    ensures Summarized(after) ==> Summarized(context)
  {
    assert after == context + [User(REMINDER, true)];
    SaidKeepsPairing(first, REMINDER, true);
    SaidKeepsPairing(context, REMINDER, true);
  }

  /** Answers to all the open calls of the current turn close it. */
  lemma ResumedCloses(before: seq<Message>, answers: seq<Message>, calls: seq<ToolCall>)
    requires (forall m :: m in answers ==> m.ToolResult?) && AnswerIds(answers) == Ids(calls)
    requires Resumable(before, calls)
    ensures Closed(Items(before + answers))
  {
    ScanSegment(Items(before), START);
    ScanPairs(Items(before), START);
    AnswersClose(before, answers);
    assert Ids(calls) - Ids(calls) == {};
  }

  /** Confirmation tools are not ephemeral, so a pause with new ids survives pruning. */
  lemma PauseSurvivesPrune(ctx: seq<Message>, content: string, calls: seq<ToolCall>)
    requires AllConfirm(calls) && Ids(calls) !! CalledIds(Items(ctx))
    ensures EphemeralIds(ctx + [AssistantMessage(content, calls)]) !! Ids(calls)
  {
    forall tc | tc in calls ensures tc.name !in EPHEMERAL_TOOLS {
      assert tc.name in CONFIRM_TOOLS;
    }
    NothingEphemeral(ctx, content, calls);
  }

  // ------------------------------------------------------------------ provider errors

  ghost predicate AllRetryable(o: seq<Outcome>) {
    forall k :: 0 <= k < |o| ==> o[k].Fail? && Retryable(o[k].error)
  }

  predicate AnyCompressible(o: seq<Outcome>) {
    exists k :: 0 <= k < |o| && o[k].Fail? && o[k].error.shouldCompress
  }

  ghost predicate FirstCompressibleIsLast(o: seq<Outcome>) {
    && o != [] && o[|o| - 1].Fail? && o[|o| - 1].error.shouldCompress
    && !AnyCompressible(o[..|o| - 1])
  }

  /** How a call must end given the provider's answers `o`: with the response, with the last error,
      or with neither, the latter exactly when every answer was a retryable error and the first
      one that called for compaction came on the final attempt. */
  ghost predicate EndsAsAnswered(r: CallEnd, o: seq<Outcome>, maxRetries: nat) {
    && o != []
    && AllRetryable(o[..|o| - 1])
    && (r.Got? ==> o[|o| - 1] == Reply(r.response))
    && (r.Gave? ==> o[|o| - 1] == Fail(r.error) && (Retryable(r.error) ==> |o| == maxRetries + 1))
    && (r.Exhausted? <==> |o| == maxRetries + 1 && AllRetryable(o) && FirstCompressibleIsLast(o))
  }

  /** The credentials are taken in the pool's cyclic order, starting after the first. */
  ghost predicate WalksPool(walked: seq<nat>, size: nat) {
    && (size <= 1 ==> walked == [])
    && (size > 1 ==> forall i :: 0 <= i < |walked| ==> walked[i] == (i + 1) % size)
  }

  lemma AskedOnce(o: seq<Outcome>, e: Recovery)
    requires AllRetryable(o) && Retryable(e)
    ensures AllRetryable(o + [Fail(e)])
    ensures AnyCompressible(o + [Fail(e)]) <==> AnyCompressible(o) || e.shouldCompress
    ensures FirstCompressibleIsLast(o + [Fail(e)]) <==> e.shouldCompress && !AnyCompressible(o)
  {
    var o' := o + [Fail(e)];
    assert o'[..|o|] == o;
    if AnyCompressible(o) {
      var k :| 0 <= k < |o| && o[k].Fail? && o[k].error.shouldCompress;
      assert o'[k] == o[k];
    }
    if e.shouldCompress {
      assert o'[|o|].error.shouldCompress;
    }
  }

  /** Ineffective budget compactions are paid for by effective ones, by appended messages and, once, by
      the note that the first summary adds; `noop` is the length after the last ineffective one. */
  ghost predicate PaidFor(noop: Option<nat>, ctx: seq<Message>, tally: Tally) {
    var note := if Summarized(ctx) then 1 else 0;
    if tally.appended == 0 then tally == Tally(0, 0, 0) && noop.None?
    else match noop
      case None => 2 * tally.ineffective + 1 <= 2 * tally.effective + tally.appended + note
      case Some(n) =>
        2 * tally.ineffective + 1 <= 2 + 2 * tally.effective + tally.appended + note - (if |ctx| > n then |ctx| - n else 0)
  }

  /** Appending pays, and replacing the transcript costs nothing. */
  lemma StillPaidFor(noop: Option<nat>, ctx: seq<Message>, tally: Tally, after: seq<Message>, appended: nat)
    requires PaidFor(noop, ctx, tally) && (Summarized(ctx) ==> Summarized(after))
    requires |after| <= |ctx| + appended + if Summarized(after) && !Summarized(ctx) then 1 else 0
    ensures PaidFor(noop, after, tally.(appended := tally.appended + appended))
  {
  }

  class AgentLoop {
    const env: Env
    var context: seq<Message>
    var pending: seq<ToolCall>
    var noop: Option<nat>
    var tick: nat
    /** The transcripts sent, the calls handed to tools, the calls answered from the cache. */
    ghost var sent: seq<seq<Message>>
    ghost var ran: seq<Done>
    ghost var replayed: seq<Done>
    /** Where the current turn's loop begins in `ran` and in `replayed`. */
    ghost var ranBefore: nat
    ghost var replayedBefore: nat
    ghost var spent: set<string>
    ghost var tally: Tally
    /** Emergency compactions so far. */
    ghost var rescues: nat

    ghost predicate Valid()
      reads this
    {
      CompletesAll(env) && AnswersWell(env) && PaidFor(noop, context, tally) && AllConfirm(pending)
    }

    /** Within a turn: its user message has been appended. */
    ghost predicate Sound()
      reads this
    {
      Valid() && tally.appended > 0
    }

    ghost predicate Fresh()
      reads this
    {
      FreshState(env, tick, spent, context)
    }

    /** No id has repeated, and paused calls are open or were stripped. */
    ghost predicate Orderly()
      reads this
    {
      Fresh() && PausedOpen(pending, spent, context)
    }

    /** Every transcript sent since the `n`-th had each call answered in its own user turn. */
    ghost predicate ClosedFrom(n: nat)
      reads this
    {
      n <= |sent| && forall k :: n <= k < |sent| ==> Closed(Items(sent[k]))
    }

    ghost predicate PairedFrom(n: nat)
      reads this
    {
      n <= |sent| && forall k :: n <= k < |sent| ==> Paired(Items(sent[k]))
    }

    /** No key has run twice in this turn's rounds and no post at all, and every replay answered as the execution of its key did. */
    ghost predicate RanOnce()
      reads this
    {
      && ranBefore <= |ran| && replayedBefore <= |replayed|
      && DistinctDone(ran[ranBefore..]) && Unposted(ran[ranBefore..])
      && Echoes(replayed[replayedBefore..], ran[ranBefore..])
    }

    /** ... and the cache holds exactly what ran. */
    ghost predicate Logs(cache: Cache)
      reads this
    {
      RanOnce() && Logged(ran[ranBefore..], cache)
    }

    constructor (env: Env, restored: seq<Message>, ghost ids: set<string>)
      requires CompletesAll(env) && AnswersWell(env)
      ensures Valid() && this.env == env && context == restored && pending == [] && sent == [] && ran == []
      ensures tally == Tally(0, 0, 0)
      ensures FreshState(env, 0, ids, restored) ==> Orderly()
    {
      this.env := env;
      context, pending, noop, tick := restored, [], None, 0;
      sent, ran, replayed, ranBefore, replayedBefore := [], [], [], 0, 0;
      spent, tally, rescues := ids, Tally(0, 0, 0), 0;
    }

    method Append(m: Message)
      modifies `context, `tally
      ensures context == old(context) + [m]
      ensures tally == old(tally).(appended := old(tally).appended + 1)
    {
      context := context + [m];
      tally := tally.(appended := tally.appended + 1);
    }

    // ---------------------------------------------------------------- the two rewriting passes

    method SanitizeContext()
      modifies `context
      ensures context == Sanitize(old(context))
    {
      if context == [] {
        return;
      }
      var satisfied := CollectSatisfied(context);
      var cleaned, removed := CleanTranscript(context, satisfied);
      if removed > 0 {
        context := cleaned;
      }
    }

    method PruneEphemeralTools()
      modifies `context
      ensures context == Prune(old(context))
    {
      var ids := CollectEphemeral(context);
      if ids == {} {
        return;
      }
      var pruned := ForgetTranscript(context, ids);
      context := pruned;
    }

    // ---------------------------------------------------------------- compaction

    predicate NeedsCompaction()
      reads this
    {
      env.policy.historyBudget > 0 && env.tokens(context) >= env.policy.threshold
    }

    method CompactContext() returns (effective: bool, negligible: bool)
      modifies `context, `tick
      ensures context == Compact(old(context), env.policy, env.tokens, env.summary(old(tick)))
      ensures tick == old(tick) + 1
      ensures SafelyReplaces(old(context), context)
      ensures effective ==> |context| < |old(context)|
      ensures effective && env.policy.historyBudget > 0 && env.policy.threshold > 0 ==> env.tokens(context) < env.policy.threshold
    {
      var before, count := env.tokens(context), |context|;
      var threshold := if env.policy.historyBudget > 0 then env.policy.threshold else 0;
      CompactKeepsPairing(context, env.policy, env.tokens, env.summary(tick));
      var compacted := CompactMessages(context, env.policy, env.tokens, env.summary(tick));
      context := compacted;
      tick := tick + 1;
      var after, archived := env.tokens(context), count - |context|;
      effective := archived > 0 && (threshold == 0 || after < threshold);
      negligible := 10 * (before - after) < Max(before, 1);
    }

    /** The budget compaction, unless a recent one was of no use. */
    method MaybeCompact() returns (ran: Option<bool>)
      requires Sound()
      modifies `context, `tick, `noop, `tally
      ensures Sound() && tick >= old(tick)
      ensures old(Fresh()) ==> Fresh()
      ensures SafelyReplaces(old(context), context)
      ensures ran.None? <==> !old(NeedsCompaction()) || (old(noop).Some? && |old(context)| <= old(noop).value + 1)
      ensures ran.None? ==> context == old(context) && noop == old(noop) && tally == old(tally) && tick == old(tick)
      ensures ran.Some? ==> context == Compact(old(context), env.policy, env.tokens, env.summary(old(tick))) && tick == old(tick) + 1
      ensures ran.Some? && ran.value ==> noop == None && tally == old(tally).(effective := old(tally).effective + 1)
      ensures ran.Some? && !ran.value ==> noop == Some(|context|) && tally == old(tally).(ineffective := old(tally).ineffective + 1)
      ensures ran == Some(true) ==> |context| < |old(context)| && (env.policy.threshold > 0 ==> env.tokens(context) < env.policy.threshold)
    {
      if !NeedsCompaction() {
        return None;
      }
      if noop.Some? && |context| <= noop.value + 1 {
        return None;
      }
      ghost var isNew := Fresh();
      var effective, negligible := CompactContext();
      if isNew {
        FreshStays(env, old(tick), tick, spent, old(context), context);
      }
      if effective && negligible {
        effective := false;
      }
      if effective {
        noop := None;
        tally := tally.(effective := tally.effective + 1);
      } else {
        noop := Some(|context|);
        tally := tally.(ineffective := tally.ineffective + 1);
      }
      ran := Some(effective);
    }

    // ---------------------------------------------------------------- asking the provider

    method Send() returns (o: Outcome)
      requires Sound()
      modifies `sent, `tick, `spent
      ensures Sound() && tick == old(tick) + 1
      ensures o == env.reply(old(tick)) && WellFormed(o)
      ensures sent == old(sent) + [context]
      ensures spent == old(spent) + OutcomeIds(o)
      ensures old(Fresh()) ==> Fresh() && OutcomeIds(o) !! old(spent)
    {
      if Fresh() {
        FreshAfterReply(env, tick, spent, context);
      }
      o := env.reply(tick);
      sent, spent, tick := sent + [context], spent + OutcomeIds(o), tick + 1;
    }

    /** The emergency compaction after a context-length error. */
    method CompactForProvider()
      requires Sound()
      modifies `context, `tick, `rescues
      ensures rescues == old(rescues) + 1
      ensures Sound() && tick == old(tick) + 1
      ensures old(Fresh()) ==> Fresh()
      ensures Continues(old(context), context)
      ensures context == Compact(old(context), env.policy, env.tokens, env.summary(old(tick)))
    {
      ghost var isNew := Fresh();
      var _, _ := CompactContext();
      rescues := rescues + 1;
      StillPaidFor(noop, old(context), tally, context, 0);
      if isNew {
        FreshStays(env, old(tick), tick, spent, old(context), context);
      }
    }

    /** Rotate to the next credential of the pool; the index moves on even if the provider refuses. */
    method RotateCredential(index: nat) returns (rotated: bool, next: nat)
      requires index < |env.pool| || index == 0
      modifies `tick
      ensures tick >= old(tick)
      ensures |env.pool| <= 1 ==> !rotated && next == index
      ensures |env.pool| > 1 ==> next == (index + 1) % |env.pool|
    {
      if |env.pool| <= 1 {
        return false, index;
      }
      next := (index + 1) % |env.pool|;
      rotated := env.rotates(tick);
      tick := tick + 1;
    }

    ghost predicate AtCredential(index: nat, walked: seq<nat>) {
      WalksPool(walked, |env.pool|) && index == if |env.pool| > 1 then |walked| % |env.pool| else 0
    }

    /** What follows a retryable error: one compaction per call, else the next credential, else the end. */
    method RecoverFrom(e: Recovery, compressed: bool, isFinal: bool, index: nat, ghost walked: seq<nat>)
      returns (stop: bool, compressed': bool, index': nat, ghost walked': seq<nat>)
      requires Sound() && AtCredential(index, walked)
      modifies `context, `tick, `rescues
      ensures rescues == old(rescues) + if compressed' && !compressed then 1 else 0
      ensures Sound() && AtCredential(index', walked')
      ensures old(Fresh()) ==> Fresh()
      ensures Continues(old(context), context)
      ensures stop <==> isFinal && (compressed || !e.shouldCompress)
      ensures compressed' == (compressed || e.shouldCompress)
      ensures tick >= old(tick)
    {
      stop, compressed', index', walked' := false, compressed, index, walked;
      if e.shouldCompress && !compressed {
        compressed' := true;
        CompactForProvider();
        return;
      }
      if isFinal {
        stop := true;
        return;
      }
      ghost var isNew := Fresh();
      var _, next := RotateCredential(index);
      if isNew {
        FreshStays(env, old(tick), tick, spent, context, context);
      }
      index' := next;
      if |env.pool| > 1 {
        NextIndex(|walked|, |env.pool|);
        walked' := walked + [next];
      }
    }

    /** What asking leaves: requests on closed transcripts only if the first was. */
    ghost predicate AskedFrom(n: nat, first: seq<Message>, spentBefore: set<string>)
      reads this
    {
      && n <= |sent|
      && (Closed(Items(first)) ==> ClosedFrom(n))
      && Continues(first, context)
      && spentBefore <= spent
    }

    /** A call that has asked `|o|` times. */
    ghost predicate Asking(before: seq<seq<Message>>, first: seq<Message>, spentBefore: set<string>, o: seq<Outcome>, isNew: bool)
      reads this
    {
      && before <= sent && |sent| == |before| + |o|
      && (if o == [] then context == first else sent[|before|] == first)
      && AskedFrom(|before|, first, spentBefore)
      && (isNew ==> Fresh())
    }

    /** One attempt, and what follows if it fails. */
    method Attempt(compressed: bool, isFinal: bool, index: nat, ghost walked: seq<nat>, ghost before: seq<seq<Message>>,
                   ghost first: seq<Message>, ghost spentBefore: set<string>, ghost asked: seq<Outcome>, ghost isNew: bool)
      returns (outcome: Outcome, stop: bool, compressed': bool, index': nat, ghost walked': seq<nat>)
      requires Sound() && AtCredential(index, walked)
      requires Asking(before, first, spentBefore, asked, isNew)
      modifies `context, `tick, `sent, `spent, `rescues
      ensures Sound() && AtCredential(index', walked')
      ensures Asking(before, first, spentBefore, asked + [outcome], isNew)
      ensures outcome == env.reply(old(tick)) && OutcomeIds(outcome) <= spent && (isNew ==> OutcomeIds(outcome) !! spentBefore)
      ensures stop <==> outcome.Reply? || !Retryable(outcome.error) || (isFinal && (compressed || !outcome.error.shouldCompress))
      ensures !stop ==> compressed' == (compressed || outcome.error.shouldCompress)
      ensures (compressed ==> compressed') && rescues == old(rescues) + if compressed' && !compressed then 1 else 0
      ensures tick > old(tick)
    {
      compressed', index', walked' := compressed, index, walked;
      outcome := Send();
      ghost var current := context;
      stop := outcome.Reply? || !Retryable(outcome.error);
      if !stop {
        stop, compressed', index', walked' := RecoverFrom(outcome.error, compressed, isFinal, index, walked);
        ContinuesTransitive(first, current, context);
      }
    }

    /** `o` are the provider's answers to this call in order, `walked` the credentials it was moved to. */
    method CallProvider(maxRetries: nat) returns (r: CallEnd, ghost at: nat, ghost o: seq<Outcome>, ghost walked: seq<nat>)
      requires Sound()
      modifies `context, `tick, `sent, `spent, `rescues
      ensures Sound()
      ensures 1 <= |o| <= maxRetries + 1
      ensures EndsAsAnswered(r, o, maxRetries)
      ensures WalksPool(walked, |env.pool|)
      ensures old(rescues) <= rescues <= old(rescues) + 1
      ensures Asking(old(sent), old(context), old(spent), o, old(Fresh()))
      ensures r.Got? ==> env.reply(at) == Reply(r.response) && OutcomeIds(Reply(r.response)) <= spent
      ensures r.Got? && old(Fresh()) ==> OutcomeIds(Reply(r.response)) !! old(spent)
      ensures tick >= old(tick)
    {
      ghost var isNew := Fresh();
      at, o, walked := tick, [], [];
      var compressed, index, attempt := false, 0, 0;
      while attempt <= maxRetries
        invariant Sound() && |o| == attempt <= maxRetries + 1
        invariant AllRetryable(o) && compressed == AnyCompressible(o)
        invariant attempt == maxRetries + 1 ==> FirstCompressibleIsLast(o)
        invariant AtCredential(index, walked) && rescues == old(rescues) + if compressed then 1 else 0
        invariant Asking(old(sent), old(context), old(spent), o, isNew)
        invariant tick >= old(tick)
      {
        ghost var asked := o;
        at := tick;
        var outcome, stop;
        outcome, stop, compressed, index, walked :=
          Attempt(compressed, attempt >= maxRetries, index, walked, old(sent), old(context), old(spent), asked, isNew);
        o := asked + [outcome];
        if stop {
          return if outcome.Reply? then Got(outcome.response) else Gave(outcome.error), at, o, walked;
        }
        AskedOnce(asked, outcome.error);
        attempt := attempt + 1;
      }
      r := Exhausted;
    }

    /** One round's request: a streaming attempt if there is one, then the retrying call. */
    method AskProvider() returns (r: CallEnd, ghost at: nat)
      requires Sound()
      modifies `context, `tick, `sent, `spent, `rescues
      ensures Sound()
      ensures |sent| <= |old(sent)| + 4 && old(sent) <= sent
      ensures AskedFrom(|old(sent)|, old(context), old(spent))
      ensures old(Fresh()) ==> Fresh() && (r.Got? ==> OutcomeIds(Reply(r.response)) !! old(spent))
      ensures r.Got? ==> env.reply(at) == Reply(r.response) && OutcomeIds(Reply(r.response)) <= spent
      ensures tick >= old(tick)
    {
      if env.streaming {
        at := tick;
        var o := Send();
        if o.Reply? {
          return Got(o.response), at;
        }
      }
      ghost var first := sent;
      ghost var o, walked;
      r, at, o, walked := CallProvider(2);
      ClosedOn(first, sent, |old(sent)|, |first|);
    }

    /** Assistant messages keep the provider's calls as blocks, after the text if there is any. */
    method AppendAssistantMessage(content: string, calls: seq<ToolCall>, ghost isNew: bool)
      requires Sound() && DistinctIds(calls)
      requires isNew ==> Fresh() && NewIds(Ids(calls), context, spent)
      modifies `context, `tally
      ensures Sound()
      ensures isNew ==> Fresh()
      ensures context == old(context) + [AssistantMessage(content, calls)]
      ensures tally == old(tally).(appended := old(tally).appended + 1)
    {
      var m := BuildAssistantMessage(content, calls);
      Append(m);
      StillPaidFor(noop, old(context), old(tally), context, 1);
      if isNew {
        FreshAfterCalls(env, tick, spent, old(context), content, calls);
      }
    }

    // ---------------------------------------------------------------- a round of tool calls

    method ReplayCached(replays: seq<ToolCall>, cache: Cache)
      requires forall tc :: tc in replays ==> IsReplay(tc, cache)
      modifies `context, `tally, `replayed
      ensures context == old(context) + ReplayAnswers(cache, replays)
      ensures replayed == old(replayed) + Replayed(cache, replays)
      ensures tally == old(tally).(appended := old(tally).appended + |replays|)
    {
      ReplayAt(cache, replays);
      ReplayedAt(cache, replays);
      ghost var all, done := ReplayAnswers(cache, replays), Replayed(cache, replays);
      for i := 0 to |replays|
        invariant context == old(context) + all[..i]
        invariant replayed == old(replayed) + done[..i]
        invariant tally == old(tally).(appended := old(tally).appended + i)
      {
        var tc := replays[i];
        assert tc in replays && IsReplay(tc, cache);
        assert IsReplayAnswer(all[i], tc, cache);
        replayed := replayed + [Done(tc, cache[KeyOf(tc)], false)];
        Append(ToolResult(tc.id, tc.name, cache[KeyOf(tc)]));
        OneMore(old(context), all, i);
        OneMore(old(replayed), done, i);
      }
      assert all[..|replays|] == all && done[..|replays|] == done;
    }

    /** Concurrency-safe calls: all are started, recorded as they finish, appended in request order. */
    method RunTogether(calls: seq<ToolCall>, cache: Cache, ghost want: seq<Done>) returns (cache': Cache, progress: bool, raised: bool)
      requires CompletesAll(env) && DistinctKeys(calls) && DistinctIds(calls)
      requires want == TogetherDone(env.tool, tick, calls)
      modifies `context, `tally, `ran
      ensures ran == old(ran) + want
      ensures raised ==> context == old(context) && tally == old(tally)
      ensures raised ==> Raises(env)
      ensures !raised ==>
                && |want| == |calls|
                && SerialSoFar(old(context), cache, false, want, |want|, context, cache', progress)
                && tally == old(tally).(appended := old(tally).appended + |want|)
    {
      var order := env.order(tick, |calls|);
      assert IsPermutation(order, |calls|);
      ran := ran + want;
      var done;
      done, cache', progress, raised := CompleteInOrder(env.tool, tick, calls, order, cache);
      if raised {
        return;
      }
      TogetherDistinct(env.tool, tick, calls);
      FinishingOrderIsIrrelevant(cache, want, order, done);
      TogetherAt(env.tool, tick, calls);
      assert want[..|want|] == want;
      AppendFound(calls, ById(done, map[]), want);
    }

    method AppendFound(calls: seq<ToolCall>, found: map<string, Done>, ghost want: seq<Done>)
      requires |want| == |calls| && forall i :: 0 <= i < |calls| ==> want[i].call == calls[i]
      requires forall d :: d in want ==> d.call.id in found && found[d.call.id] == d
      modifies `context, `tally
      ensures context == old(context) + Answers(want)
      ensures tally == old(tally).(appended := old(tally).appended + |calls|)
    {
      AnswersAt(want);
      for i := 0 to |calls|
        invariant context == old(context) + Answers(want)[..i]
        invariant tally == old(tally).(appended := old(tally).appended + i)
      {
        var tc := calls[i];
        assert want[i] in want;
        if tc.id in found {
          Append(ToolResult(tc.id, tc.name, found[tc.id].content));
        }
        OneMore(old(context), Answers(want), i);
      }
      assert Answers(want)[..|calls|] == Answers(want);
    }

    /** One call: it is run, its result cached and appended, and a queued amendment looked for. */
    method RunOne(tc: ToolCall, cache: Cache, progress: bool, ghost d: Done)
      returns (raised: bool, amended: bool, cache': Cache, progress': bool)
      requires d.call == tc && (env.tool(tick, tc).Ran? ==> d == Done(tc, env.tool(tick, tc).content, env.tool(tick, tc).isError))
      modifies `context, `tick, `tally, `ran
      ensures ran == old(ran) + [d]
      ensures raised ==> Raises(env) && context == old(context) && tally == old(tally) && tick == old(tick) && cache' == cache && progress' == progress
      ensures !raised ==>
                && context == old(context) + [Answer(d)] && tick == old(tick) + 1
                && cache' == cache[KeyOf(tc) := d.content] && progress' == (progress || !d.isError)
                && tally == old(tally).(appended := old(tally).appended + 1)
      ensures amended ==> Amends(env)
    {
      var outcome := env.tool(tick, tc);
      ran := ran + [d];
      raised, amended, cache', progress' := outcome.Raised?, false, cache, progress;
      if outcome.Ran? {
        cache', progress' := cache[KeyOf(tc) := outcome.content], progress || !outcome.isError;
        Append(ToolResult(tc.id, tc.name, outcome.content));
        amended := env.amended(tick);
        tick := tick + 1;
      }
    }

    /** The other calls, one after another, each followed by a look for a queued amendment. */
    method RunSerial(calls: seq<ToolCall>, cache: Cache, progress0: bool, amended0: bool, ghost all: seq<Done>)
      returns (cache': Cache, progress: bool, end: RoundEnd, n: nat, ghost started: nat)
      requires AnswersInTurn(env.tool, tick, calls, all)
      modifies `context, `tick, `tally, `ran
      ensures n <= started <= |calls| && (!end.Broke? ==> n == started)
      ensures ran == old(ran) + all[..started]
      ensures SerialSoFar(old(context), cache, progress0, all, n, context, cache', progress)
      ensures tally == old(tally).(appended := old(tally).appended + n)
      ensures end.Completed? ==> n == |calls|
      ensures end.Amended? ==> amended0 || Amends(env)
      ensures end.Broke? ==> Raises(env)
      ensures tick >= old(tick)
    {
      SerialStart(context, cache, progress0, all);
      cache', progress, end, n, started := cache, progress0, Completed, 0, 0;
      assert all[..0] == [];
      if amended0 {
        end := Amended;
        return;
      }
      while n < |calls|
        invariant n == started <= |calls| && tick == old(tick) + n && end.Completed?
        invariant ran == old(ran) + all[..n]
        invariant SerialSoFar(old(context), cache, progress0, all, n, context, cache', progress)
        invariant tally == old(tally).(appended := old(tally).appended + n)
      {
        OneMore(old(ran), all, n);
        SerialNext(old(context), cache, progress0, all, n, context, cache', progress);
        var raised, amended;
        raised, amended, cache', progress := RunOne(calls[n], cache', progress, all[n]);
        started := n + 1;
        if raised {
          end := Broke;
          return;
        }
        n := n + 1;
        if amended {
          end := Amended;
          return;
        }
      }
    }

    /** The replays and the concurrent calls of a round; the serial ones are given back. */
    method OpenRound(calls: seq<ToolCall>, cache: Cache, ghost plan: Plan)
      returns (cache': Cache, progress: bool, raised: bool, polls: bool, serial: seq<ToolCall>, answered: nat)
      requires CompletesAll(env) && Planned(env.tool, tick, calls, cache, env.safe, plan)
      modifies `context, `tally, `ran, `replayed
      ensures serial == Serial(calls, cache, env.safe)
      ensures answered == |plan.replies| + if raised then 0 else |plan.first|
      ensures tally == old(tally).(appended := old(tally).appended + answered)
      ensures ran == old(ran) + plan.first
      ensures ReplaysAllCached(calls, cache) && replayed == old(replayed) + Replayed(cache, Replays(calls, cache))
      ensures raised ==> Raises(env) && context == old(context) + plan.replies
      ensures !raised ==> SerialSoFar(old(context) + plan.replies, cache, false, plan.first, |plan.first|, context, cache', progress)
    {
      var replays, together;
      replays, together, serial := SplitRound(calls, cache, env.safe);
      polls := together != [];
      ReplayCached(replays, cache);
      cache', progress, raised := RunTogether(together, cache, plan.first);
      answered := |replays| + if raised then 0 else |together|;
    }

    /** What a round that answered `n` calls and started those of `part` leaves. */
    ghost predicate RoundOver(t: nat, calls: seq<ToolCall>, cache: Cache, before: seq<Message>, cache': Cache, progress: bool,
                              end: RoundEnd, n: nat, part: seq<Done>)
      reads this
    {
      && RoundLeft(env.tool, t, calls, cache, env.safe, before, context, cache', progress, end, n)
      && RoundRan(env.tool, t, calls, cache, env.safe, part, end, n)
      && (end.Amended? ==> Amends(env))
      && (end.Broke? ==> Raises(env))
    }

    /** A whole round. What it leaves is a function of the request, the cache and the tools alone:
        the finishing order of the concurrent calls is not an argument of it. */
    method DispatchRound(calls: seq<ToolCall>, cache: Cache)
      returns (cache': Cache, progress: bool, end: RoundEnd, n: nat, ghost part: seq<Done>)
      requires CompletesAll(env) && DistinctKeys(calls) && DistinctIds(calls)
      modifies `context, `tick, `tally, `ran, `replayed
      ensures RoundOver(old(tick), calls, cache, old(context), cache', progress, end, n, part)
      ensures ran == old(ran) + part
      ensures ReplaysAllCached(calls, cache) && replayed == old(replayed) + Replayed(cache, Replays(calls, cache))
      ensures tally == old(tally).(appended := old(tally).appended + n)
      ensures tick >= old(tick)
    {
      ghost var t, before, plan := tick, context, PlanOf(env.tool, tick, calls, cache, env.safe);
      PlanFacts(env.tool, t, calls, cache, env.safe, plan);
      ghost var m, s;
      cache', progress, end, n, m, s := PlayPlan(calls, cache, plan);
      part := plan.All()[..s];
      RoundFromPlan(env.tool, t, calls, cache, env.safe, plan, before, context, cache', progress, end, m, s, n, part);
    }

    /** The three phases of a round: `m` calls beyond the replays are answered and `s` are started. */
    method PlayPlan(calls: seq<ToolCall>, cache: Cache, ghost plan: Plan)
      returns (cache': Cache, progress: bool, end: RoundEnd, n: nat, ghost m: nat, ghost s: nat)
      requires CompletesAll(env) && Planned(env.tool, tick, calls, cache, env.safe, plan)
      modifies `context, `tick, `tally, `ran, `replayed
      ensures m <= s <= |plan.All()| && n == |plan.replies| + m
      ensures SerialSoFar(old(context) + plan.replies, cache, false, plan.All(), m, context, cache', progress)
      ensures (!end.Broke? ==> m == s) && (end.Completed? ==> m == |plan.All()|)
      ensures ran == old(ran) + plan.All()[..s]
      ensures ReplaysAllCached(calls, cache) && replayed == old(replayed) + Replayed(cache, Replays(calls, cache))
      ensures tally == old(tally).(appended := old(tally).appended + n)
      ensures tick >= old(tick)
      ensures (end.Amended? ==> Amends(env)) && (end.Broke? ==> Raises(env))
    {
      ghost var base, ran0 := context + plan.replies, ran;
      var raised, polls, serial;
      cache', progress, raised, polls, serial, n := OpenRound(calls, cache, plan);
      cache', progress, end, n, m, s := CloseRound(raised, cache, base, polls, serial, cache', progress, n, plan, ran0);
    }

    /** What follows the concurrent calls: nothing if one raised, else the serial ones. */
    method CloseRound(raised: bool, cache: Cache, ghost base: seq<Message>, polls: bool, serial: seq<ToolCall>, cache1: Cache,
                      progress1: bool, answered: nat, ghost plan: Plan, ghost ran0: seq<Done>)
      returns (cache': Cache, progress: bool, end: RoundEnd, n: nat, ghost m: nat, ghost s: nat)
      requires plan.rest == InTurnDone(env.tool, tick + 1, serial)
      requires ran == ran0 + plan.first && answered == |plan.replies| + if raised then 0 else |plan.first|
      requires if raised then Raises(env) && context == base
               else SerialSoFar(base, cache, false, plan.first, |plan.first|, context, cache1, progress1)
      modifies `context, `tick, `tally, `ran
      ensures m <= s <= |plan.All()| && n == |plan.replies| + m && answered <= n
      ensures SerialSoFar(base, cache, false, plan.All(), m, context, cache', progress)
      ensures (!end.Broke? ==> m == s) && (end.Completed? ==> m == |plan.All()|)
      ensures ran == ran0 + plan.All()[..s]
      ensures tally == old(tally).(appended := old(tally).appended + (n - answered))
      ensures tick >= old(tick)
      ensures (end.Amended? ==> Amends(env)) && (end.Broke? ==> Raises(env))
    {
      if raised {
        cache', progress, end, n, m, s := cache, false, Broke, answered, 0, |plan.first|;
        SerialStart(context, cache, false, plan.All());
        assert plan.All()[..s] == plan.first;
        return;
      }
      var k;
      cache', progress, end, k, s := FinishRound(cache, base, polls, serial, cache1, progress1, plan, ran0);
      n, m := answered + k, |plan.first| + k;
    }

    /** The rest of a round once its concurrent calls are in the transcript. */
    method FinishRound(cache: Cache, ghost before: seq<Message>, polls: bool, serial: seq<ToolCall>, cache1: Cache, progress1: bool,
                       ghost plan: Plan, ghost ran0: seq<Done>)
      returns (cache': Cache, progress: bool, end: RoundEnd, k: nat, ghost s: nat)
      requires plan.rest == InTurnDone(env.tool, tick + 1, serial)
      requires SerialSoFar(before, cache, false, plan.first, |plan.first|, context, cache1, progress1)
      requires ran == ran0 + plan.first
      modifies `context, `tick, `tally, `ran
      ensures SerialSoFar(before, cache, false, plan.All(), |plan.first| + k, context, cache', progress)
      ensures |plan.first| + k <= s <= |plan.All()|
      ensures (!end.Broke? ==> |plan.first| + k == s) && (end.Completed? ==> s == |plan.All()|)
      ensures ran == ran0 + plan.All()[..s]
      ensures tally == old(tally).(appended := old(tally).appended + k)
      ensures (end.Amended? ==> Amends(env)) && (end.Broke? ==> Raises(env))
      ensures tick >= old(tick)
    {
      ghost var middle := context;
      var amended := polls && env.amended(tick);
      tick := tick + 1;
      InTurnAt(env.tool, tick, serial);
      ghost var started;
      cache', progress, end, k, started := RunSerial(serial, cache1, progress1, amended, plan.rest);
      s := |plan.first| + started;
      ThenSerial(before, cache, plan, middle, cache1, progress1, k, context, cache', progress);
      PlanParts(ran0, plan, started);
    }

    // ---------------------------------------------------------------- rounds

    /** The assistant message of a round and the answers to its calls. */
    method AnswerRound(content: string, calls: seq<ToolCall>, cache: Cache, ghost isNew: bool)
      returns (cache': Cache, progress: bool, end: RoundEnd, n: nat)
      requires Sound() && DistinctKeys(calls) && DistinctIds(calls) && Logs(cache) && NoPosts(calls)
      requires isNew ==> Fresh() && NewIds(Ids(calls), context, spent)
      modifies `context, `tick, `tally, `ran, `replayed
      ensures Sound() && tick >= old(tick) && (isNew ==> Fresh())
      ensures RanOnce() && old(ran) <= ran && |ran| <= |old(ran)| + |calls| && old(replayed) <= replayed
      ensures AllNamed(ran[|old(ran)|..], Names(calls))
      ensures !end.Broke? ==> Logs(cache')
      ensures n <= |calls| && (end.Completed? ==> n == |calls|)
      ensures (end.Amended? ==> Amends(env)) && (end.Broke? ==> Raises(env))
      ensures tally.appended == old(tally).appended + 1 + n
      ensures Closed(Items(old(context))) ==> if n == |calls| then Closed(Items(context)) else LeftOpen(context)
    {
      ghost var start := context;
      AppendAssistantMessage(content, calls, isNew);
      ghost var t, before, tally0 := tick, context, tally;
      cache', progress, end, n := LoggedRound(calls, cache);
      StillPaidFor(noop, before, tally0, context, n);
      RoundSettles(env, t, tick, spent, start, content, calls, cache, context, n, isNew);
    }

    /** A round whose executions join the log of the turn. */
    method LoggedRound(calls: seq<ToolCall>, cache: Cache)
      returns (cache': Cache, progress: bool, end: RoundEnd, n: nat)
      requires CompletesAll(env) && DistinctKeys(calls) && DistinctIds(calls) && Logs(cache) && NoPosts(calls)
      modifies `context, `tick, `tally, `ran, `replayed
      ensures RanOnce() && old(ran) <= ran && |ran| <= |old(ran)| + |calls| && old(replayed) <= replayed
      ensures AllNamed(ran[|old(ran)|..], Names(calls))
      ensures !end.Broke? ==> Logs(cache')
      ensures n <= |calls| == |RoundAnswers(env.tool, old(tick), calls, cache, env.safe)| && (end.Completed? ==> n == |calls|)
      ensures context == old(context) + RoundAnswers(env.tool, old(tick), calls, cache, env.safe)[..n]
      ensures tally == old(tally).(appended := old(tally).appended + n)
      ensures (end.Amended? ==> Amends(env)) && (end.Broke? ==> Raises(env))
      ensures tick >= old(tick)
    {
      ghost var t, before, ran0, replayed0 := tick, context, ran, replayed;
      ghost var part;
      cache', progress, end, n, part := DispatchRound(calls, cache);
      LogMore(ran0, replayed0, t, calls, cache, before, cache', progress, end, n, part);
    }

    /** The log and the replays of a turn after a round. */
    ghost method LogMore(ran0: seq<Done>, replayed0: seq<Done>, t: nat, calls: seq<ToolCall>, cache: Cache, before: seq<Message>,
                         cache': Cache, progress: bool, end: RoundEnd, n: nat, part: seq<Done>)
      requires ranBefore <= |ran0| && replayedBefore <= |replayed0|
      requires Logged(ran0[ranBefore..], cache) && Echoes(replayed0[replayedBefore..], ran0[ranBefore..])
      requires RoundOver(t, calls, cache, before, cache', progress, end, n, part) && DistinctKeys(calls) && NoPosts(calls)
      requires Unposted(ran0[ranBefore..])
      requires ReplaysAllCached(calls, cache)
      requires ran == ran0 + part && replayed == replayed0 + Replayed(cache, Replays(calls, cache))
      ensures RanOnce() && |part| <= |calls| && AllNamed(part, Names(calls))
      ensures !end.Broke? ==> Logs(cache')
    {
      TurnAfterRound(env.tool, t, calls, cache, env.safe, before, context, cache', progress, end, n,
                     ran0[ranBefore..], replayed0[replayedBefore..], part);
      NamesIn(calls);
      SliceMore(ran0, part, ranBefore);
      SliceMore(replayed0, Replayed(cache, Replays(calls, cache)), replayedBefore);
    }

    /** The pause before a public post: its calls wait for the user's word. */
    method PauseForConfirmation(prompt: string, calls: seq<ToolCall>, confirm: seq<ToolCall>, ghost isNew: bool)
      requires Sound() && DistinctIds(calls) && DistinctKeys(calls)
      requires isNew ==> Fresh() && NewIds(Ids(calls), context, spent)
      requires confirm == Only(calls, CONFIRM_TOOLS)
      modifies `context, `pending, `tally
      ensures Sound() && pending == confirm && DistinctKeys(pending) && tally.appended == old(tally).appended + 1
      ensures isNew ==> Orderly()
      ensures AllConfirm(calls) && Closed(Items(old(context))) ==> Resumable(context, pending)
      ensures AllConfirm(calls) && isNew ==> EphemeralIds(context) !! Ids(pending)
    {
      OnlyMembers(calls, CONFIRM_TOOLS);
      pending := confirm;
      ghost var before := context;
      AppendAssistantMessage(prompt, calls, isNew);
      AssistantLedger(before, prompt, calls);
      assert Ids(confirm) <= Ids(calls);
      if AllConfirm(calls) {
        OnlyAll(calls, CONFIRM_TOOLS);
        assert {} + Ids(calls) == Ids(calls);
        if isNew {
          PauseSurvivesPrune(before, prompt, calls);
        }
      }
    }

    /** What a round leaves behind, given whether the transcript was closed before it and ids are new. */
    ghost predicate RoundDone(wasClosed: bool, isNew: bool, next: Next)
      reads this
    {
      && Sound()
      && (isNew ==> Orderly())
      && (wasClosed && Leaves(next) ==> Closed(Items(context)))
      && (wasClosed && next.Stop? && next.cut ==> LeftOpen(context))
      && DistinctKeys(pending)
      && (pending == [] <==> !(next.Stop? && next.reason.AwaitingUser?))
      && (next.Stop? && next.reason.AwaitingUser? ==> next.answered)
      && (next.Stop? && next.cut ==> next.reason.UserAmendment? && Amends(env))
      && (next.Failed? && next.broke ==> Raises(env))
      && (next.Stop? && next.whole ==> (isNew ==> EphemeralIds(context) !! Ids(pending)) && (wasClosed ==> Resumable(context, pending)))
    }

    /** The executions of the turn so far, within its budget. */
    ghost predicate TurnLog(b: Budget, next: Next)
      reads this
    {
      RanOnce() && |ran| <= ranBefore + b.dispatched && (!next.Failed? ==> Logs(b.cache))
    }

    /** Nothing but what was asked for is pending or was run. */
    ghost predicate AskedNames(b: Budget, next: Next)
      reads this
    {
      && AllRequested(env, b.names) && ranBefore <= |ran| && AllNamed(ran[ranBefore..], b.names)
      && (next.Stop? && next.reason.AwaitingUser? ==> !NeverPosts(env) && (AsksWhole(env) ==> next.whole))
    }

    /** One pass of the turn's loop past its safe point: compact if need be, ask, act. */
    method PlayRound(turn: TurnInput, b: Budget, maxRounds: nat)
      returns (b': Budget, next: Next)
      requires Sound() && pending == [] && InBudget(b, maxRounds)
      requires TurnLog(b, Continue) && AskedNames(b, Continue)
      modifies `context, `pending, `noop, `tick, `sent, `spent, `rescues, `tally, `ran, `replayed
      ensures RoundDone(old(Closed(Items(context))), old(Fresh()), next)
      ensures Advances(b, b', maxRounds, next) && TurnLog(b', next) && AskedNames(b', next)
      ensures tally.appended <= old(tally).appended + 1 + (b'.dispatched - b.dispatched)
      ensures old(sent) <= sent && |sent| <= |old(sent)| + 4
      ensures old(ran) <= ran && old(replayed) <= replayed
      ensures Closed(Items(old(context))) ==> ClosedFrom(|old(sent)|)
      ensures tick >= old(tick)
    {
      ghost var isNew := Fresh();
      b' := b;
      var answer, at := CompactAndAsk();
      if !answer.Got? {
        next := Failed(false);
        return;
      }
      b', next := ActOn(answer.response, turn, b, maxRounds, isNew, at);
    }

    method CompactAndAsk() returns (r: CallEnd, ghost at: nat)
      requires Sound()
      modifies `context, `noop, `tick, `sent, `spent, `rescues, `tally
      ensures Sound() && tick >= old(tick) && tally.appended == old(tally).appended
      ensures old(sent) <= sent && |sent| <= |old(sent)| + 4
      ensures Closed(Items(old(context))) ==> ClosedFrom(|old(sent)|) && Closed(Items(context))
      ensures old(Fresh()) ==> Fresh() && (r.Got? ==> NewIds(OutcomeIds(Reply(r.response)), context, spent))
      ensures r.Got? ==> env.reply(at) == Reply(r.response)
    {
      var _ := MaybeCompact();
      r, at := AskProvider();
    }

    /** What the loop does with a response: pause, stop, or run its calls. */
    method ActOn(response: Response, turn: TurnInput, b: Budget, maxRounds: nat, ghost isNew: bool, ghost at: nat)
      returns (b': Budget, next: Next)
      requires Sound() && pending == [] && InBudget(b, maxRounds)
      requires TurnLog(b, Continue) && AskedNames(b, Continue)
      requires env.reply(at) == Reply(response)
      requires isNew ==> Fresh() && NewIds(OutcomeIds(Reply(response)), context, spent)
      modifies `context, `pending, `tick, `tally, `ran, `replayed
      ensures RoundDone(old(Closed(Items(context))), isNew, next)
      ensures Advances(b, b', maxRounds, next) && TurnLog(b', next) && AskedNames(b', next)
      ensures tally.appended <= old(tally).appended + 1 + (b'.dispatched - b.dispatched)
      ensures old(ran) <= ran && old(replayed) <= replayed
      ensures tick >= old(tick)
    {
      var calls := if turn.strategyBlocks then [] else Coalesce(response.calls, turn.text, b.round, b.names, response.newId);
      CallsToRun(env, at, turn.text, b.round, b.names);
      NoCalls();
      b', next := Proceed(response.content, calls, b, maxRounds, isNew);
    }

    method Proceed(content: string, calls: seq<ToolCall>, b: Budget, maxRounds: nat, ghost isNew: bool)
      returns (b': Budget, next: Next)
      requires Sound() && pending == [] && InBudget(b, maxRounds)
      requires TurnLog(b, Continue) && AskedNames(b, Continue) && AllRequested(env, Names(calls))
      requires DistinctKeys(calls) && DistinctIds(calls) && (AsksWhole(env) ==> WholePause(calls))
      requires isNew ==> Fresh() && NewIds(Ids(calls), context, spent)
      modifies `context, `pending, `tick, `tally, `ran, `replayed
      ensures RoundDone(old(Closed(Items(context))), isNew, next)
      ensures Advances(b, b', maxRounds, next) && TurnLog(b', next) && AskedNames(b', next)
      ensures tally.appended <= old(tally).appended + 1 + (b'.dispatched - b.dispatched)
      ensures old(ran) <= ran && old(replayed) <= replayed
      ensures tick >= old(tick)
    {
      b' := b;
      var confirm := Only(calls, CONFIRM_TOOLS);
      OnlyMembers(calls, CONFIRM_TOOLS);
      if confirm != [] {
        assert confirm[0] in calls;
        PostWasRequested(env, calls, confirm[0]);
        PauseForConfirmation("confirm", calls, confirm, isNew);
        next := Stop(AwaitingUser, true, false, forall tc <- calls :: tc.name in CONFIRM_TOOLS);
      } else if calls != [] && (b.round >= maxRounds || b.dispatched + |calls| > DEFAULT_MAX_TOOL_CALLS) {
        next := Stop(if b.round >= maxRounds then MaxToolRounds else MaxToolCalls, false, false, false);
      } else if calls == [] {
        AppendAnswer(content, isNew);
        next := Stop(EndTurn, content != "", false, false);
      } else {
        NothingConfirms(calls);
        b', next := RunCalls(content, calls, b, maxRounds, isNew);
      }
    }

    /** An assistant message without calls. */
    method AppendAnswer(content: string, ghost isNew: bool)
      requires Sound() && (isNew ==> Fresh())
      modifies `context, `tally
      ensures Sound() && (isNew ==> Fresh()) && tally.appended == old(tally).appended + 1
      ensures Closed(Items(old(context))) ==> Closed(Items(context))
    {
      assert Ids([]) == {};
      AppendAssistantMessage(content, [], isNew);
      AssistantLedger(old(context), content, []);
    }

    method RunCalls(content: string, calls: seq<ToolCall>, b: Budget, maxRounds: nat, ghost isNew: bool)
      returns (b': Budget, next: Next)
      requires Sound() && pending == [] && InBudget(b, maxRounds)
      requires TurnLog(b, Continue) && AskedNames(b, Continue) && AllRequested(env, Names(calls))
      requires DistinctKeys(calls) && DistinctIds(calls) && NoPosts(calls)
      requires isNew ==> Fresh() && NewIds(Ids(calls), context, spent)
      requires b.round < maxRounds && b.dispatched + |calls| <= DEFAULT_MAX_TOOL_CALLS
      modifies `context, `tick, `tally, `ran, `replayed
      ensures RoundDone(old(Closed(Items(context))), isNew, next)
      ensures Advances(b, b', maxRounds, next) && TurnLog(b', next) && AskedNames(b', next)
      ensures tally.appended <= old(tally).appended + 1 + (b'.dispatched - b.dispatched)
      ensures old(ran) <= ran && old(replayed) <= replayed
      ensures tick >= old(tick)
    {
      var cache', progress, end, n;
      ghost var ran0 := ran;
      cache', progress, end, n := AnswerRound(content, calls, b.cache, isNew);
      NamedMore(ran0, ran, ranBefore, b.names, Names(calls));
      b' := b.(names := b.names + Names(calls), dispatched := b.dispatched + |calls|);
      if end.Broke? {
        next := Failed(true);
      } else if end.Amended? {
        b' := b'.(cache := cache');
        next := Stop(UserAmendment, false, n < |calls|, false);
      } else {
        b' := b'.(cache := cache', round := b.round + 1, streak := if progress then 0 else b.streak + 1);
        next := Continue;
      }
    }

    // ---------------------------------------------------------------- turns

    /** The turn's loop. It ends against any provider: every pass that goes on uses up a round. */
    method RunRounds(turn: TurnInput, b0: Budget, maxRounds: nat)
      returns (b: Budget, next: Next, passes: nat)
      requires Sound() && pending == [] && InBudget(b0, maxRounds)
      requires b0.round == 0 && b0.dispatched == 0 && b0.cache == map[] && b0.names == []
      requires ranBefore == |ran| && replayedBefore == |replayed|
      modifies `context, `pending, `noop, `tick, `sent, `spent, `rescues, `tally, `ran, `replayed
      ensures RoundDone(old(Closed(Items(context))), old(Fresh()), next) && !next.Continue?
      ensures InBudget(b, maxRounds) && b0.soft <= b.soft
      ensures passes == b.round + 1 && passes <= maxRounds + 1
      ensures TurnLog(b, next) && AskedNames(b, next)
      ensures tally.appended <= old(tally).appended + passes + b.dispatched
      ensures old(sent) <= sent && |sent| <= |old(sent)| + 4 * passes
      ensures old(ran) <= ran && old(replayed) <= replayed
      ensures Closed(Items(old(context))) ==> ClosedFrom(|old(sent)|)
      ensures tick >= old(tick)
    {
      b, next, passes := b0, Continue, 0;
      while next.Continue?
        invariant RoundDone(old(Closed(Items(context))), old(Fresh()), next)
        invariant InBudget(b, maxRounds) && b0.soft <= b.soft
        invariant passes == b.round + if next.Continue? then 0 else 1
        invariant TurnLog(b, next) && AskedNames(b, next)
        invariant tally.appended <= old(tally).appended + passes + b.dispatched
        invariant old(sent) <= sent && |sent| <= |old(sent)| + 4 * passes
        invariant old(ran) <= ran && old(replayed) <= replayed
        invariant Closed(Items(old(context))) ==> ClosedFrom(|old(sent)|)
        invariant tick >= old(tick)
        decreases maxRounds - b.round, next.Continue?
      {
        passes := passes + 1;
        ghost var before := sent;
        b, next := OnePass(turn, b, maxRounds);
        ClosedOn(before, sent, |old(sent)|, |before|);
      }
    }

    method OnePass(turn: TurnInput, b: Budget, maxRounds: nat) returns (b': Budget, next: Next)
      requires Sound() && pending == [] && InBudget(b, maxRounds)
      requires TurnLog(b, Continue) && AskedNames(b, Continue)
      modifies `context, `pending, `noop, `tick, `sent, `spent, `rescues, `tally, `ran, `replayed
      ensures RoundDone(old(Closed(Items(context))), old(Fresh()), next)
      ensures InBudget(b', maxRounds) && b.soft <= b'.soft && b'.round == b.round + (if next.Continue? then 1 else 0)
      ensures TurnLog(b', next) && AskedNames(b', next)
      ensures b.dispatched <= b'.dispatched && tally.appended <= old(tally).appended + 1 + (b'.dispatched - b.dispatched)
      ensures old(sent) <= sent && |sent| <= |old(sent)| + 4
      ensures old(ran) <= ran && old(replayed) <= replayed
      ensures Closed(Items(old(context))) ==> ClosedFrom(|old(sent)|)
      ensures tick >= old(tick)
    {
      var stopped := PollClock();
      if stopped.Some? {
        b', next := b, Stop(stopped.value, false, false, false);
      } else {
        b', next := PlayRound(turn, b.(soft := ExtendSoft(b, maxRounds)), maxRounds);
      }
    }

    /** The safe point before a request: the clock and the user may end the turn here. */
    method PollClock() returns (stopped: Option<StopReason>)
      requires Sound() && pending == []
      modifies `tick
      ensures Sound() && tick >= old(tick) && (old(Fresh()) ==> Orderly())
      ensures stopped.Some? ==> stopped.value.RunTimeout? || stopped.value.UserAmendment?
    {
      var t := tick;
      tick := tick + 1;
      if FreshState(env, t, spent, context) {
        FreshStays(env, t, tick, spent, context, context);
      }
      stopped := if env.late(t) then Some(RunTimeout) else if env.amended(t) then Some(UserAmendment) else None;
    }

    /** The one extra request, without tools, that closes a turn which has nothing to show. */
    method ForceUserFacingAnswer() returns (r: CallEnd)
      requires Sound()
      modifies `context, `tick, `sent, `spent, `rescues, `tally
      ensures Sound() && tick >= old(tick)
      ensures old(sent) <= sent && |old(sent)| < |sent| <= |old(sent)| + 3
      ensures sent[|old(sent)|] == old(context) + [User(REMINDER, true)]
      ensures tally.appended == old(tally).appended + 1
      ensures Closed(Items(old(context))) ==> ClosedFrom(|old(sent)|) && Closed(Items(context))
      ensures r.Got? ==> DistinctIds(r.response.calls)
      ensures old(Fresh()) ==> Fresh() && (r.Got? ==> NewIds(Ids(r.response.calls), context, spent))
    {
      ghost var isNew, first := Fresh(), context;
      Remind();
      ghost var at, o, walked;
      r, at, o, walked := CallProvider(2);
      assert r.Got? ==> WellFormed(env.reply(at));
      TakeReminderBack(first, isNew);
    }

    method Remind()
      requires Sound()
      modifies `context, `tally
      ensures Sound() && (old(Fresh()) ==> Fresh()) && tally.appended == old(tally).appended + 1
      ensures context == old(context) + [User(REMINDER, true)]
      ensures Closed(Items(old(context))) ==> Closed(Items(context))
    {
      ghost var isNew, first := Fresh(), context;
      SaidKeepsPairing(context, REMINDER, true);
      Append(User(REMINDER, true));
      StillPaidFor(noop, first, old(tally), context, 1);
      if isNew {
        FreshStays(env, tick, tick, spent, first, context);
      }
    }

    method TakeReminderBack(ghost first: seq<Message>, ghost isNew: bool)
      requires Sound() && (isNew ==> Fresh())
      requires Continues(first + [User(REMINDER, true)], context) && context != []
      modifies `context
      ensures Sound() && (isNew ==> Fresh())
      ensures Closed(Items(first)) ==> Closed(Items(context))
      ensures CalledIds(Items(context)) == CalledIds(Items(old(context))) && AnsweredIds(Items(context)) == AnsweredIds(Items(old(context)))
    {
      ghost var after := context;
      context := context[..|context| - 1];
      TakeBack(first, after, context);
      StillPaidFor(noop, after, tally, context, 0);
      if isNew {
        FreshStays(env, tick, tick, spent, after, context);
      }
    }

    /** Consume the paused calls according to the user's word on them. */
    method ResolvePending(decision: Decision) returns (confirmed: seq<ToolCall>, replied: bool)
      modifies `pending
      ensures old(pending) == [] ==> pending == [] && confirmed == [] && !replied
      ensures old(pending) != [] && decision.Confirm? ==> pending == [] && confirmed == old(pending) && !replied
      ensures old(pending) != [] && decision.Cancel? ==> pending == [] && confirmed == [] && replied
      ensures old(pending) != [] && (decision.Modify? || decision.Unclear?) ==>
                && confirmed == [] && replied && |pending| == |old(pending)|
                && forall i :: 0 <= i < |pending| ==> pending[i].id == old(pending)[i].id && pending[i].name == old(pending)[i].name
    {
      if pending == [] {
        return [], false;
      }
      match decision
      case Confirm =>
        confirmed, replied := pending, false;
        pending := [];
      case Cancel =>
        confirmed, replied := [], true;
        pending := [];
      case Unclear =>
        confirmed, replied := [], true;
      case Modify(text) =>
        confirmed, replied := [], true;
        pending := Rewrite(pending, text);
    }

    /** Run the confirmed calls; a failing one ends the turn with the results so far. */
    method ResumePaused(calls: seq<ToolCall>, ghost isNew: bool) returns (ok: bool, ghost started: nat)
      requires Valid() && (isNew ==> Fresh() && PausedOpen(calls, spent, context))
      modifies `context, `tick, `tally, `ran
      ensures Valid() && tick >= old(tick) && tally.appended <= old(tally).appended + |calls|
      ensures isNew && pending == [] ==> Orderly()
      ensures ok && Resumable(old(context), calls) ==> Closed(Items(context))
      ensures started <= |calls| && |ran| == |old(ran)| + started && old(ran) <= ran
      ensures forall i :: 0 <= i < started ==> ran[|old(ran)| + i].call == calls[i]
      ensures !ok ==> Raises(env)
    {
      ghost var before, answers, t := context, [], tick;
      ok, answers, started := RunConfirmed(calls);
      StillPaidFor(noop, before, old(tally), context, |answers|);
      if isNew {
        FreshAfterAnswers(env, t, tick, spent, before, answers, Ids(calls));
      }
      assert Ids([]) == {};
      if ok && Resumable(before, calls) {
        ResumedCloses(before, answers, calls);
      }
    }

    method RunConfirmed(calls: seq<ToolCall>) returns (ok: bool, ghost answers: seq<Message>, ghost started: nat)
      modifies `context, `tick, `tally, `ran
      ensures context == old(context) + answers && tick >= old(tick)
      ensures forall m :: m in answers ==> m.ToolResult? && m.id in Ids(calls)
      ensures ok ==> AnswerIds(answers) == Ids(calls)
      ensures !ok ==> Raises(env)
      ensures |answers| <= |calls| && tally == old(tally).(appended := old(tally).appended + |answers|)
      ensures started <= |calls| && |ran| == |old(ran)| + started && old(ran) <= ran
      ensures forall i :: 0 <= i < started ==> ran[|old(ran)| + i].call == calls[i]
    {
      answers := [];
      ok, started := true, 0;
      for k := 0 to |calls|
        invariant ok && started == k && context == old(context) + answers && tick >= old(tick)
        invariant (forall m :: m in answers ==> m.ToolResult? && m.id in Ids(calls)) && AnswerIds(answers) == Ids(calls[..k])
        invariant |answers| == k && tally == old(tally).(appended := old(tally).appended + |answers|)
        invariant |ran| == |old(ran)| + k && old(ran) <= ran
        invariant forall i :: 0 <= i < k ==> ran[|old(ran)| + i].call == calls[i]
      {
        var tc := calls[k];
        assert calls[..k + 1] == calls[..k] + [tc];
        var outcome := env.tool(tick, tc);
        ran := ran + [if outcome.Ran? then Done(tc, outcome.content, outcome.isError) else Done(tc, "", true)];
        started, tick := k + 1, tick + 1;
        if outcome.Raised? {
          return false, answers, started;
        }
        ghost var m := ToolResult(tc.id, tc.name, outcome.content);
        Append(ToolResult(tc.id, tc.name, outcome.content));
        AnswerIdsGrow(answers, m);
        answers := answers + [m];
      }
      assert calls[..|calls|] == calls;
    }

    /** Up to three compaction passes before the turn's first request. */
    method Preflight()
      requires Sound()
      modifies `context, `tick, `noop, `tally
      ensures Sound() && tick >= old(tick) && (old(Fresh()) ==> Fresh()) && tally.appended == old(tally).appended
      ensures Closed(Items(old(context))) ==> Closed(Items(context))
    {
      var pass := 0;
      while pass < 3 && NeedsCompaction()
        invariant Sound() && tick >= old(tick) && (old(Fresh()) ==> Fresh()) && tally.appended == old(tally).appended
        invariant Closed(Items(old(context))) ==> Closed(Items(context))
      {
        var _ := MaybeCompact();
        pass := pass + 1;
      }
    }

    /** The last step of a turn forgets memory-keeping calls; a whole pause with new ids survives it. */
    method PruneAtEnd()
      requires Valid()
      modifies `context
      ensures Valid() && (old(Orderly()) ==> Orderly())
      ensures Closed(Items(old(context))) ==> Closed(Items(context))
      ensures Resumable(old(context), pending) && EphemeralIds(old(context)) !! Ids(pending) ==> Resumable(context, pending)
    {
      ghost var before := context;
      PruneEphemeralTools();
      PruneLedger(before);
      PassesShorten(before);
      if Summarized(before) {
        PassesKeepNotes(before);
      }
      StillPaidFor(noop, before, tally, context, 0);
    }

    /** The forced answers of a turn that has no text to show: after a spent budget, and after a
        turn of memory-keeping calls only. */
    method RecoverAnswer(names: seq<string>, spentBudget: bool, ghost n: nat) returns (ok: bool)
      requires Sound() && n <= |sent|
      modifies `context, `tick, `sent, `spent, `rescues, `tally
      ensures Sound() && tick >= old(tick) && (old(Fresh()) ==> Fresh())
      ensures old(sent) <= sent && |sent| <= |old(sent)| + 6 && tally.appended <= old(tally).appended + 3
      ensures Closed(Items(old(context))) && old(ClosedFrom(n)) ==> ClosedFrom(n)
      ensures Closed(Items(old(context))) && !MemoryOnly(names) ==> Closed(Items(context))
      ensures !spentBudget && !MemoryOnly(names) ==> sent == old(sent)
      ensures !spentBudget && MemoryOnly(names) ==> |sent| > |old(sent)| && sent[|old(sent)|] == old(context) + [User(REMINDER, true)]
    {
      var answered := false;
      if spentBudget {
        var r := ForceUserFacingAnswer();
        ClosedOn(old(sent), sent, n, |old(sent)|);
        if !r.Got? {
          return false;
        }
        answered := r.response.content != "";
      }
      if !answered && MemoryOnly(names) {
        ok := RecoverMemoryTurn(n);
        return;
      }
      ok := true;
    }

    method RecoverMemoryTurn(ghost n: nat) returns (ok: bool)
      requires Sound() && n <= |sent|
      modifies `context, `tick, `sent, `spent, `rescues, `tally
      ensures Sound() && tick >= old(tick) && (old(Fresh()) ==> Fresh())
      ensures old(sent) <= sent && |old(sent)| < |sent| <= |old(sent)| + 3
      ensures sent[|old(sent)|] == old(context) + [User(REMINDER, true)]
      ensures tally.appended <= old(tally).appended + 2
      ensures Closed(Items(old(context))) && old(ClosedFrom(n)) ==> ClosedFrom(n)
    {
      ghost var isNew := Fresh();
      var r := ForceUserFacingAnswer();
      ClosedOn(old(sent), sent, n, |old(sent)|);
      if !r.Got? {
        return false;
      }
      if r.response.content != "" {
        AppendAssistantMessage(r.response.content, r.response.calls, isNew);
      }
      ok := true;
    }

    /** The end of a turn that ran its loop: an answer for the user, then the pruning pass. */
    method FinishTurn(abandoned: bool, names: seq<string>, next: Next, ghost wasClosed: bool, ghost isNew: bool, ghost n: nat) returns (ok: bool)
      requires RoundDone(wasClosed, isNew, next) && next.Stop?
      requires n <= |sent| && (wasClosed ==> ClosedFrom(n))
      modifies `context, `tick, `sent, `spent, `rescues, `tally
      ensures Sound() && tick >= old(tick) && (isNew ==> Orderly())
      ensures old(sent) <= sent && |sent| <= |old(sent)| + 6 && tally.appended <= old(tally).appended + 3
      ensures wasClosed ==> (ClosedFrom(n) <==> !CutRecovery(next, names))
      ensures wasClosed && CutRecovery(next, names) ==> |sent| > |old(sent)| && AsksOnOpen(sent[|old(sent)|])
      ensures wasClosed && isNew ==> (CutRecovery(next, names) ==> !PairedFrom(n))
      ensures next.whole && wasClosed && isNew && next.reason.AwaitingUser? ==> Resumable(context, pending)
      ensures wasClosed && Leaves(next) && !MemoryOnly(names) ==> Closed(Items(context))
      ensures next.answered ==> ok
    {
      ok := true;
      if !next.answered {
        assert Ids([]) == {};
        if LeftOpen(context) {
          LeftOpenShows(context, REMINDER);
        }
        ghost var shown := context + [User(REMINDER, true)];
        if isNew && LeftOpen(context) {
          OpenCallIsUnpaired(context, REMINDER);
        }
        ok := RecoverAnswer(names, SpentBudget(next.reason), n);
        assert CutRecovery(next, names) ==> sent[|old(sent)|] == shown;
        if !ok {
          return;
        }
      }
      if !abandoned {
        PruneAtEnd();
      }
    }

    /** Sanitizing closes every user turn exactly when the transcript is mendable. */
    method SanitizeAtStart(ghost isNew: bool)
      requires Valid() && (isNew ==> Orderly())
      modifies `context
      ensures Valid() && (isNew ==> Orderly())
      ensures Closed(Items(context)) <==> Mendable(Items(old(context)))
    {
      ghost var before := context;
      SanitizeContext();
      SanitizeClosesIff(before);
      SanitizeLedger(before);
      PassesShorten(before);
      if Summarized(before) {
        PassesKeepNotes(before);
      }
      StillPaidFor(noop, before, tally, context, 0);
    }

    /** The start of a turn: the user's word on a pause, then sanitizing, or the confirmed calls. */
    method BeginTurn(decision: Decision) returns (replied: bool, ok: bool, ghost resumed: nat)
      requires Valid()
      modifies `context, `pending, `tick, `tally, `ran
      ensures Valid() && tick >= old(tick) && (old(Orderly()) ==> Orderly())
      ensures replied <==> old(pending) != [] && !decision.Confirm?
      ensures pending != [] ==> replied && (decision.Modify? || decision.Unclear?)
      ensures ok && !replied && !CannotResume(old(context), old(pending), decision) && !Stale(old(context), old(pending)) ==> Closed(Items(context))
      ensures tally.appended <= old(tally).appended + |old(pending)|
      ensures resumed <= |old(pending)| && |ran| == |old(ran)| + resumed && old(ran) <= ran
      ensures forall i :: 0 <= i < resumed ==> ran[|old(ran)| + i].call == old(pending)[i]
      ensures !ok ==> Raises(env)
    {
      ghost var isNew, waiting := Orderly(), pending;
      var confirmed;
      confirmed, replied := ResolvePending(decision);
      SameIds(pending, waiting);
      ok, resumed := true, 0;
      if confirmed == [] {
        SanitizeAtStart(isNew);
      } else {
        ok, resumed := ResumePaused(confirmed, isNew);
      }
    }

    /** Requests since `n` are closed exactly unless the turn was cut short: an amendment ended it within
        a round, only memory-keeping tools had run, and it asked for an answer on the open transcript. */
    ghost predicate CutOnly(wasClosed: bool, isNew: bool, n: nat, end: TurnEnd, cutShort: bool)
      reads this
    {
      && n <= |sent| && ranBefore <= |ran|
      && (wasClosed ==> (ClosedFrom(n) <==> !cutShort) && (cutShort <==> AskedOnOpen(sent, n, |sent|)))
      && (wasClosed && isNew && cutShort ==> !PairedFrom(n))
      && (cutShort ==> Amends(env) && !NeverRemembers(env) && KeepsMemory(ran[ranBefore..]) && (end.Ended? ==> end.reason.UserAmendment?))
    }

    /** A pause is for a post that was asked for, and can be resumed if it is whole. */
    ghost predicate PauseOnly(wasClosed: bool, isNew: bool, end: TurnEnd)
      reads this
    {
      && DistinctKeys(pending)
      && (pending != [] ==> end.Ended? && end.reason.AwaitingUser? && !NeverPosts(env))
      && (pending != [] && wasClosed && isNew && AsksWhole(env) ==> Resumable(context, pending))
    }

    /** The body of a turn: the user's text, the rounds, the ending. */
    method RunTurn(turn: TurnInput) returns (end: TurnEnd, ghost cutShort: bool)
      requires Valid() && pending == []
      modifies `context, `pending, `noop, `tick, `sent, `spent, `rescues, `tally, `ran, `replayed, `ranBefore, `replayedBefore
      ensures Valid() && tick >= old(tick) && (old(Fresh()) ==> Orderly())
      ensures old(sent) <= sent && |sent| <= |old(sent)| + MAX_TURN_REQUESTS
      ensures tally.appended <= old(tally).appended + MAX_TURN_MESSAGES
      ensures end.Ended? ==> end.rounds <= HardMaxToolRounds(env.maxToolRounds) && end.dispatched <= DEFAULT_MAX_TOOL_CALLS
      ensures ranBefore == |old(ran)| && replayedBefore == |old(replayed)| && old(ran) <= ran && old(replayed) <= replayed
      ensures RanOnce() && |ran| <= |old(ran)| + DEFAULT_MAX_TOOL_CALLS
      ensures !end.Replied? && PauseOnly(Closed(Items(old(context))), old(Fresh()), end)
      ensures CutOnly(Closed(Items(old(context))), old(Fresh()), |old(sent)|, end, cutShort)
      ensures Closed(Items(old(context))) && Calm(env) ==> Closed(Items(context)) && pending == []
    {
      OpenTurn(turn.text);
      Preflight();
      end, cutShort := PlayTurn(turn, HardMaxToolRounds(env.maxToolRounds));
    }

    /** The rounds of a turn and their ending. */
    method PlayTurn(turn: TurnInput, hard: nat) returns (end: TurnEnd, ghost cutShort: bool)
      requires Sound() && pending == [] && 1 <= hard <= DEFAULT_MAX_TOOL_ROUNDS
      requires ranBefore == |ran| && replayedBefore == |replayed|
      modifies `context, `pending, `noop, `tick, `sent, `spent, `rescues, `tally, `ran, `replayed
      ensures Valid() && tick >= old(tick) && (old(Fresh()) ==> Orderly())
      ensures old(sent) <= sent && |sent| <= |old(sent)| + MAX_TURN_REQUESTS
      ensures tally.appended < old(tally).appended + MAX_TURN_MESSAGES
      ensures end.Ended? ==> end.rounds <= hard && end.dispatched <= DEFAULT_MAX_TOOL_CALLS
      ensures old(ran) <= ran && old(replayed) <= replayed
      ensures RanOnce() && |ran| <= |old(ran)| + DEFAULT_MAX_TOOL_CALLS
      ensures !end.Replied? && PauseOnly(Closed(Items(old(context))), old(Fresh()), end)
      ensures CutOnly(Closed(Items(old(context))), old(Fresh()), |old(sent)|, end, cutShort)
      ensures Closed(Items(old(context))) && Calm(env) ==> Closed(Items(context)) && pending == []
    {
      ghost var n, wasClosed, isNew := |sent|, Closed(Items(context)), Fresh();
      var b, next, passes;
      b, next, passes := RunRounds(turn, Budget(0, SoftMaxToolRounds(turn.strategyRounds, hard), 0, 0, map[], []), hard);
      MemoryWasRequested(env, b.names);
      cutShort := CutRecovery(next, b.names);
      end := Crashed;
      if next.Stop? {
        end := CloseTurn(turn.abandoned, b, next, wasClosed, isNew, n);
      } else {
        CutTells(sent, sent, n, false);
      }
    }

    /** The end of a turn that ran its loop, as the turn reports it. */
    method CloseTurn(abandoned: bool, b: Budget, next: Next, ghost wasClosed: bool, ghost isNew: bool, ghost n: nat) returns (end: TurnEnd)
      requires RoundDone(wasClosed, isNew, next) && next.Stop? && AskedNames(b, next)
      requires n <= |sent| && (wasClosed ==> ClosedFrom(n))
      modifies `context, `tick, `sent, `spent, `rescues, `tally
      ensures Sound() && tick >= old(tick) && (isNew ==> Orderly())
      ensures old(sent) <= sent && |sent| <= |old(sent)| + 6 && tally.appended <= old(tally).appended + 3
      ensures !end.Replied? && (end.Ended? ==> end.rounds == b.round && end.dispatched == b.dispatched && end.reason == next.reason)
      ensures PauseOnly(wasClosed, isNew, end)
      ensures CutOnly(wasClosed, isNew, n, end, CutRecovery(next, b.names))
      ensures wasClosed && Calm(env) ==> Closed(Items(context)) && pending == []
    {
      MemoryWasRequested(env, b.names);
      ghost var before := sent;
      end := Crashed;
      var ok := FinishTurn(abandoned, b.names, next, wasClosed, isNew, n);
      if ok {
        end := Ended(next.reason, b.round, b.dispatched);
      }
      CutTells(before, sent, n, wasClosed && CutRecovery(next, b.names));
    }

    method OpenTurn(text: string)
      requires Valid()
      modifies `context, `tally, `ranBefore, `replayedBefore
      ensures Sound() && (old(Fresh()) ==> Fresh()) && tally.appended == old(tally).appended + 1
      ensures Closed(Items(old(context))) ==> Closed(Items(context))
      ensures ranBefore == |ran| && replayedBefore == |replayed|
    {
      ghost var isNew, before := Fresh(), context;
      ranBefore, replayedBefore := |ran|, |replayed|;
      var turn := OpensTurn(text, env.summaryPrefix);
      SaidKeepsPairing(context, text, turn);
      Append(User(text, turn));
      StillPaidFor(noop, before, old(tally), context, 1);
      if isNew {
        FreshStays(env, tick, tick, spent, before, context);
      }
    }

    /** One turn, from the user's text to the last step. If it can resume what it confirms and is not
        stale, all its requests are on closed, hence paired, transcripts, exactly unless it is cut short:
        an amendment ended it within a round, only memory-keeping tools had run, and it asked for an
        answer on the open transcript. */
    method EventStream(turn: TurnInput) returns (end: TurnEnd, ghost resumed: nat, ghost cutShort: bool)
      requires Valid()
      modifies this
      ensures Valid() && tick >= old(tick) && (old(Orderly()) ==> Orderly())
      ensures old(sent) <= sent && |sent| <= |old(sent)| + MAX_TURN_REQUESTS
      ensures tally.appended <= old(tally).appended + |old(pending)| + MAX_TURN_MESSAGES
      ensures end.Ended? ==> end.rounds <= HardMaxToolRounds(env.maxToolRounds) && end.dispatched <= DEFAULT_MAX_TOOL_CALLS
      ensures RunsOnce(old(ran), old(replayed), ran, replayed, old(pending), resumed)
      ensures DistinctKeys(old(pending)) ==> DistinctDone(ran[|old(ran)|..])
      ensures !end.Replied? ==> DistinctKeys(pending)
      ensures !CannotResume(old(context), old(pending), turn.decision) && !Stale(old(context), old(pending)) ==>
                && (ClosedFrom(|old(sent)|) <==> !cutShort)
                && (cutShort <==> AskedOnOpen(sent, |old(sent)|, |sent|))
                && (ClosedFrom(|old(sent)|) ==> PairedFrom(|old(sent)|))
                && (old(Orderly()) ==> (PairedFrom(|old(sent)|) <==> !cutShort))
      ensures cutShort ==> Amends(env) && !NeverRemembers(env) && KeepsMemory(ran[|old(ran)| + resumed..])
      ensures cutShort && end.Ended? ==> end.reason.UserAmendment?
      ensures end.Replied? <==> old(pending) != [] && !turn.decision.Confirm?
      ensures end.Replied? ==> sent == old(sent) && (pending != [] ==> turn.decision.Modify? || turn.decision.Unclear?)
      ensures !end.Replied? && pending != [] ==> end.Ended? && end.reason.AwaitingUser?
      ensures !end.Replied? && pending != [] && old(Orderly()) && !CannotResume(old(context), old(pending), turn.decision) && AsksWhole(env) ==>
                Resumable(context, pending)
      ensures Calm(env) && old(pending) == [] && !Stale(old(context), old(pending)) ==> pending == [] && Closed(Items(context))
    {
      ghost var paused := pending;
      OrderlyIsNotStale();
      ghost var ran1;
      end, resumed, cutShort, ran1 := StreamTurn(turn);
      RanInTurn(old(ran), old(replayed), ran1, ran, replayed, paused, resumed);
      ClosedArePaired(sent, |old(sent)|);
    }

    lemma OrderlyIsNotStale()
      ensures Orderly() ==> !Stale(context, pending)
    {
      if Orderly() {
        RecoverableIsMendable(Items(context));
      }
    }

    /** The steps of a turn: the paused calls first, then the turn itself. */
    method StreamTurn(turn: TurnInput) returns (end: TurnEnd, ghost resumed: nat, ghost cutShort: bool, ghost ran1: seq<Done>)
      requires Valid()
      modifies this
      ensures Valid() && tick >= old(tick) && (old(Orderly()) ==> Orderly())
      ensures old(sent) <= sent && |sent| <= |old(sent)| + MAX_TURN_REQUESTS
      ensures tally.appended <= old(tally).appended + |old(pending)| + MAX_TURN_MESSAGES
      ensures end.Ended? ==> end.rounds <= HardMaxToolRounds(env.maxToolRounds) && end.dispatched <= DEFAULT_MAX_TOOL_CALLS
      ensures RanAfter(old(ran), old(replayed), ran1, ran, replayed, old(pending), resumed)
      ensures !end.Replied? ==> DistinctKeys(pending)
      ensures var good := !CannotResume(old(context), old(pending), turn.decision) && !Stale(old(context), old(pending));
              && (good ==> (ClosedFrom(|old(sent)|) <==> !cutShort) && (cutShort <==> AskedOnOpen(sent, |old(sent)|, |sent|)))
              && (good && old(Orderly()) && cutShort ==> !PairedFrom(|old(sent)|))
              && (good && old(Orderly()) && AsksWhole(env) && !end.Replied? && pending != [] ==> Resumable(context, pending))
      ensures cutShort ==> Amends(env) && !NeverRemembers(env) && KeepsMemory(ran[|ran1|..])
      ensures cutShort && end.Ended? ==> end.reason.UserAmendment?
      ensures end.Replied? <==> old(pending) != [] && !turn.decision.Confirm?
      ensures end.Replied? ==> sent == old(sent) && (pending != [] ==> turn.decision.Modify? || turn.decision.Unclear?)
      ensures !end.Replied? && pending != [] ==> end.Ended? && end.reason.AwaitingUser?
      ensures Calm(env) && old(pending) == [] && !Stale(old(context), old(pending)) ==> pending == [] && Closed(Items(context))
    {
      end, cutShort := Crashed, false;
      var replied, ok;
      replied, ok, resumed := BeginTurn(turn.decision);
      ran1 := ran;
      if replied {
        end := Replied;
      } else if ok {
        end, cutShort := RunTurn(turn);
      }
    }

    /** A turn of a run, seen from the moment before it. */
    method NextTurn(turn: TurnInput, ghost m: Moment) returns (ghost cut: bool)
      requires Valid() && m == Moment(context, pending, |sent|)
      modifies this
      ensures Valid() && (old(Orderly()) ==> Orderly() && !Stale(m.context, m.pending))
      ensures old(sent) <= sent && |sent| <= |old(sent)| + MAX_TURN_REQUESTS
      ensures TurnKept(m, turn, Moment(context, pending, |sent|), cut, sent)
      ensures cut ==> Amends(env) && !NeverRemembers(env)
      ensures old(Orderly()) && (m.pending == [] || Resumable(m.context, m.pending)) && CarefulTurn(env, turn) ==>
                NoSlip(m, turn, cut) && (pending == [] || Resumable(context, pending))
      ensures Calm(env) && m.pending == [] && Mendable(Items(m.context)) ==> NoSlip(m, turn, cut) && pending == [] && Mendable(Items(context))
    {
      if Orderly() {
        RecoverableIsMendable(Items(context));
      }
      ghost var resumed;
      var end;
      end, resumed, cut := EventStream(turn);
      if Closed(Items(context)) {
        ClosedIsMendable(Items(context));
      }
    }

    /** A run of turns: `moments` are the states between them and `cuts` says which turns asked for a
        recovery answer after an amendment cut a round short. Whatever the provider, the tools, the user
        and the clock do, each turn that can resume what it confirms and is not stale sends closed
        transcripts exactly unless it is such a turn; so a run without these slips sends paired
        transcripts throughout. */
    method RunSession(turns: seq<TurnInput>) returns (ghost moments: seq<Moment>, ghost cuts: seq<bool>)
      requires Valid()
      modifies this
      ensures Valid() && (old(Orderly()) ==> Orderly())
      ensures old(sent) <= sent && |sent| <= |old(sent)| + |turns| * MAX_TURN_REQUESTS
      ensures RunKept(env, moments, turns, cuts, sent, |turns|)
      ensures moments[0] == Moment(old(context), old(pending), |old(sent)|) && moments[|turns|] == Moment(context, pending, |sent|)
      ensures NoSlips(moments, turns, cuts, |turns|) ==> ClosedFrom(|old(sent)|) && PairedFrom(|old(sent)|)
      ensures old(Orderly()) ==> NeverStale(moments, |turns|)
      ensures old(Orderly()) && (old(pending) == [] || Resumable(old(context), old(pending))) && Careful(env, turns) ==>
                NoSlips(moments, turns, cuts, |turns|)
      ensures old(pending) == [] && Mendable(Items(old(context))) && Calm(env) ==> NoSlips(moments, turns, cuts, |turns|)
      ensures 2 * tally.ineffective <= 2 + 2 * tally.effective + tally.appended
    {
      moments, cuts := [Moment(context, pending, |sent|)], [];
      ghost var orderly := Orderly();
      ghost var careful := orderly && (pending == [] || Resumable(context, pending)) && Careful(env, turns);
      ghost var calm := pending == [] && Mendable(Items(context)) && Calm(env);
      for i := 0 to |turns|
        invariant Valid() && (orderly ==> Orderly())
        invariant old(sent) <= sent && |sent| <= |old(sent)| + i * MAX_TURN_REQUESTS
        invariant RunKept(env, moments, turns, cuts, sent, i)
        invariant moments[0] == Moment(old(context), old(pending), |old(sent)|) && moments[i] == Moment(context, pending, |sent|)
        invariant orderly ==> NeverStale(moments, i)
        invariant careful ==> NoSlips(moments, turns, cuts, i) && (pending == [] || Resumable(context, pending))
        invariant calm ==> NoSlips(moments, turns, cuts, i) && pending == [] && Mendable(Items(context))
      {
        assert turns[i] in turns;
        ghost var sent0 := sent;
        ghost var cut := NextTurn(turns[i], moments[i]);
        RunMore(env, moments, turns, cuts, sent0, sent, i, Moment(context, pending, |sent|), cut);
        moments, cuts := moments + [Moment(context, pending, |sent|)], cuts + [cut];
      }
      NoSlipsClosed(env, moments, turns, cuts, sent, |turns|);
      ClosedArePaired(sent, |old(sent)|);
    }
  }

  lemma SameIds(calls: seq<ToolCall>, waiting: seq<ToolCall>)
    requires calls == [] || (|calls| == |waiting| && forall i :: 0 <= i < |calls| ==> calls[i].id == waiting[i].id)
    ensures Ids(calls) <= Ids(waiting)
    ensures DistinctIds(waiting) ==> DistinctIds(calls)
  {
  }

  /** A paused call with its text replaced keeps its identity. */
  function Rewrite(calls: seq<ToolCall>, text: string): (r: seq<ToolCall>)
    ensures |r| == |calls| && forall i :: 0 <= i < |r| ==> r[i].id == calls[i].id && r[i].name == calls[i].name
  {
    if calls == [] then []
    else [if text == "" then calls[0] else calls[0].(input := calls[0].input["text" := JStr(text)])] + Rewrite(calls[1..], text)
  }

  lemma AnswerIdsGrow(answers: seq<Message>, m: Message)
    requires m.ToolResult?
    ensures AnswerIds(answers + [m]) == AnswerIds(answers) + {m.id}
  {
  }

  /** Closed transcripts before and after a step make closed transcripts throughout. */
  lemma ClosedOn(before: seq<seq<Message>>, after: seq<seq<Message>>, n: nat, m: nat)
    requires before <= after && n <= m == |before|
    ensures (forall k :: n <= k < |before| ==> Closed(Items(before[k]))) && (forall k :: m <= k < |after| ==> Closed(Items(after[k])))
            ==> forall k :: n <= k < |after| ==> Closed(Items(after[k]))
  {
  }

  lemma NextIndex(n: nat, m: nat)
    requires m > 1
    ensures (n % m + 1) % m == (n + 1) % m
  {
    var q := n / m;
    assert n == q * m + n % m;
    if n % m + 1 == m {
      assert n + 1 == (q + 1) * m;
      ModUnique(n + 1, m, q + 1, 0);
    } else {
      ModUnique(n + 1, m, q, n % m + 1);
    }
  }

  lemma ModUnique(a: nat, m: nat, q: nat, r: nat)
    requires m > 0 && a == q * m + r && r < m
    ensures a % m == r
  {
    var d := a / m - q;
    assert d * m == a / m * m - q * m == r - a % m;
    assert 0 - m < d * m < m;
  }
}
