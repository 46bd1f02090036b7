/**
  Inbound automation for app connectors: the rule engine (`InboundStrategyEngine`), the worker that
  applies it (`InboundAutomationWorker`), and the part of the event inbox that both rely on.
 */
module Inbound {
  import opened TextTools

  datatype Option<T> = None | Some(value: T)

  datatype Rule = Rule(
    name: string, enabled: bool, connector: string, eventTypes: seq<string>, tags: seq<string>,
    allowlist: seq<string>, denylist: seq<string>, threads: seq<string>, action: string,
    cooldownSeconds: int, cooldownScope: string, requireAllowActions: bool)

  datatype Event = Event(connector: string, eventType: string, kind: string, external: string, thread: string, author: string, tags: seq<string>)

  datatype Status = Unread | Read | Classified | Pending | AutoReplied | Replied | Published | Ignored | Failed | Archived | Discarded

  /** An inbox row; the cooldown key is the one an earlier decision wrote into it. */
  datatype Record = Record(event: Event, status: Status, updated: int, cooldownKey: string, decision: string, reason: string)

  datatype Decision = Decision(action: string, reason: string, rule: Option<Rule>, cooldownKey: string)

  const REPLY_STATUSES: set<Status> := {AutoReplied, Replied, Published}

  // ------------------------------------------------------------------ matching

  datatype Verdict = Skips | Denies | Takes

  predicate Listed(list: seq<string>, x: string) {
    list == [] || x in list
  }

  /** One rule against one event, in the order of the engine's checks. */
  function Judge(r: Rule, e: Event): Verdict {
    if !r.enabled then Skips
    else if r.connector != "" && r.connector != e.connector then Skips
    else if !Listed(r.eventTypes, e.eventType) then Skips
    else if r.tags != [] && (forall i :: 0 <= i < |r.tags| ==> r.tags[i] !in e.tags) then Skips
    else if !Listed(r.allowlist, e.author) then Skips
    else if e.author in r.denylist then Denies
    else if !Listed(r.threads, e.thread) then Skips
    else Takes
  }

  /** What a matching denylist stands for. */
  function IgnoreRule(name: string): Rule {
    Rule(name, true, "", [], [], [], [], [], "ignore", 3600, "thread_author", true)
  }

  function FirstMatch(rules: seq<Rule>, e: Event): Option<Rule> {
    if rules == [] then None
    else
      match Judge(rules[0], e)
      case Skips => FirstMatch(rules[1..], e)
      case Denies => Some(IgnoreRule(rules[0].name))
      case Takes => Some(rules[0])
  }

  /** The match is the first rule that does not skip the event. */
  lemma {:induction false} FirstMatchIsFirst(rules: seq<Rule>, e: Event) returns (i: nat)
    requires FirstMatch(rules, e).Some?
    ensures i < |rules| && Judge(rules[i], e) != Skips && rules[i].enabled
    ensures forall j :: 0 <= j < i ==> Judge(rules[j], e) == Skips
    ensures FirstMatch(rules, e).value == if Judge(rules[i], e) == Takes then rules[i] else IgnoreRule(rules[i].name)
  {
    if Judge(rules[0], e) == Skips {
      var k := FirstMatchIsFirst(rules[1..], e);
      i := k + 1;
    } else {
      i := 0;
    }
  }

  lemma {:induction false} NoMatchSkipsAll(rules: seq<Rule>, e: Event)
    requires FirstMatch(rules, e).None?
    ensures forall j :: 0 <= j < |rules| ==> Judge(rules[j], e) == Skips
  {
    if rules != [] {
      NoMatchSkipsAll(rules[1..], e);
    }
  }

  /** `_find_matching_rule` */
  method FindMatchingRule(rules: seq<Rule>, e: Event) returns (r: Option<Rule>)
    ensures r == FirstMatch(rules, e)
  {
    for i := 0 to |rules|
      invariant FirstMatch(rules[i..], e) == FirstMatch(rules, e)
    {
      var rule := rules[i];
      assert rules[i..][0] == rule && rules[i..][1..] == rules[i + 1..];
      if !rule.enabled {
        continue;
      }
      if rule.connector != "" && rule.connector != e.connector {
        continue;
      }
      if !Listed(rule.eventTypes, e.eventType) {
        continue;
      }
      if rule.tags != [] && forall k :: 0 <= k < |rule.tags| ==> rule.tags[k] !in e.tags {
        continue;
      }
      if !Listed(rule.allowlist, e.author) {
        continue;
      }
      if e.author in rule.denylist {
        return Some(IgnoreRule(rule.name));
      }
      if !Listed(rule.threads, e.thread) {
        continue;
      }
      return Some(rule);
    }
    r := None;
  }

  // ------------------------------------------------------------------ deciding

  function OrElse(s: string, default: string): string {
    if s == "" then default else s
  }

  /** `_cooldown_key` */
  function CooldownKey(e: Event, scope: string): string {
    var s := OrElse(Strip(OrElse(scope, "thread_author")), "thread_author");
    var thread, author := OrElse(OrElse(e.thread, e.external), "unknown"), OrElse(e.author, "unknown");
    if s == "author" then e.connector + ":author:" + author
    else if s == "thread" then e.connector + ":thread:" + thread
    else if s == "global" then e.connector + ":global"
    else e.connector + ":thread_author:" + thread + ":" + author
  }

  function ActionOf(rule: Option<Rule>, default: string): string {
    if rule.None? then default else OrElse(Strip(OrElse(rule.value.action, "auto_reply")), "auto_reply")
  }

  /** A reply by another event under the same key, not older than the cutoff. */
  predicate Cools(item: Record, id: string, own: string, key: string, cutoff: int) {
    id != own && item.status in REPLY_STATUSES && item.cooldownKey == key && item.updated >= cutoff
  }

  predicate CoolingDown(recent: seq<string>, rows: map<string, Record>, own: string, key: string, cutoff: int) {
    exists i :: 0 <= i < |recent| && recent[i] in rows && Cools(rows[recent[i]], recent[i], own, key, cutoff)
  }

  function DecideFor(rules: seq<Rule>, default: string, e: Event, own: string, allow: bool,
                     recent: seq<string>, rows: map<string, Record>, now: int): Decision {
    var rule := FirstMatch(rules, e);
    var action := ActionOf(rule, default);
    var key := CooldownKey(e, if rule.Some? then rule.value.cooldownScope else "thread_author");
    if action == "auto_reply" && rule.None? then Decision("queue_only", "auto_reply_requires_rule", rule, key)
    else if action == "auto_reply" && !allow then Decision("queue_only", "allow_actions_disabled", rule, key)
    else if action == "auto_reply" && rule.value.cooldownSeconds > 0
            && CoolingDown(recent, rows, own, key, now - rule.value.cooldownSeconds)
    then Decision("queue_only", "cooldown_active", rule, key)
    else Decision(action, if rule.Some? then "rule_match" else "default_action", rule, key)
  }

  /** `decide`. Its separate check of `require_allow_actions` cannot succeed: a connector without
      allowed actions has been turned away before. */
  method Decide(rules: seq<Rule>, default: string, e: Event, own: string, allow: bool,
                recent: seq<string>, rows: map<string, Record>, now: int) returns (d: Decision)
    requires forall i :: 0 <= i < |recent| ==> recent[i] in rows
    ensures d == DecideFor(rules, default, e, own, allow, recent, rows, now)
  {
    var rule := FindMatchingRule(rules, e);
    var action := ActionOf(rule, default);
    d := Decision(action, if rule.Some? then "rule_match" else "default_action", rule,
                  CooldownKey(e, if rule.Some? then rule.value.cooldownScope else "thread_author"));
    if action == "auto_reply" && rule.None? {
      return d.(action := "queue_only", reason := "auto_reply_requires_rule");
    }
    if action == "auto_reply" && !allow {
      return d.(action := "queue_only", reason := "allow_actions_disabled");
    }
    if action == "auto_reply" && rule.value.requireAllowActions && !allow {
      assert false;
    }
    if action == "auto_reply" && rule.value.cooldownSeconds > 0 {
      var cutoff := now - rule.value.cooldownSeconds;
      for i := 0 to |recent|
        invariant forall j :: 0 <= j < i ==> !Cools(rows[recent[j]], recent[j], own, d.cooldownKey, cutoff)
      {
        var item := rows[recent[i]];
        if recent[i] == own || item.status !in REPLY_STATUSES || item.cooldownKey != d.cooldownKey {
          continue;
        }
        if item.updated >= cutoff {
          return d.(action := "queue_only", reason := "cooldown_active");
        }
      }
    }
  }

  /** An automatic reply is decided on exactly for the first match of an enabled rule that asks for
      one, on a connector with actions allowed, outside that rule's cooldown. */
  lemma AutoReplyIff(rules: seq<Rule>, default: string, e: Event, own: string, allow: bool,
                     recent: seq<string>, rows: map<string, Record>, now: int)
    ensures DecideFor(rules, default, e, own, allow, recent, rows, now).action == "auto_reply" <==>
            var rule := FirstMatch(rules, e);
            && rule.Some? && ActionOf(rule, default) == "auto_reply" && allow
            && (rule.value.cooldownSeconds > 0 ==>
                  !CoolingDown(recent, rows, own, CooldownKey(e, rule.value.cooldownScope), now - rule.value.cooldownSeconds))
  {
  }

  // ------------------------------------------------------------------ the inbox

  /** Rows of a connector and a status, either of which may be left open. */
  predicate Selected(r: Record, connector: string, status: Option<Status>) {
    (connector == "" || r.event.connector == connector) && (status.Some? ==> r.status == status.value)
  }

  /** The ids that a listing may give: the selected rows most recently updated, latest first. */
  ghost predicate Listing(rows: map<string, Record>, connector: string, status: Option<Status>, limit: nat, ids: seq<string>) {
    && (forall i, j :: 0 <= i < j < |ids| ==> ids[i] != ids[j])
    && (forall i :: 0 <= i < |ids| ==> ids[i] in rows && Selected(rows[ids[i]], connector, status))
    && (forall i, j :: 0 <= i < j < |ids| ==> rows[ids[i]].updated >= rows[ids[j]].updated)
    && |ids| <= limit
    && (forall id :: id in rows && Selected(rows[id], connector, status) && id !in ids ==>
          |ids| == limit && forall i :: 0 <= i < |ids| ==> rows[ids[i]].updated >= rows[id].updated)
  }

  method Latest(rows: map<string, Record>, ids: set<string>) returns (best: string)
    requires ids != {} && ids <= rows.Keys
    ensures best in ids && forall id :: id in ids ==> rows[best].updated >= rows[id].updated
  {
    best :| best in ids;
    var rest := ids - {best};
    while rest != {}
      invariant best in ids && rest <= ids
      invariant forall id :: id in ids - rest ==> rows[best].updated >= rows[id].updated
      decreases rest
    {
      var id :| id in rest;
      rest := rest - {id};
      if rows[id].updated > rows[best].updated {
        best := id;
      }
    }
  }

  /** A limit of 0 means 50; others are held between 1 and 200. */
  function Most(limit: int): nat {
    if limit == 0 then 50 else if limit < 1 then 1 else if limit > 200 then 200 else limit
  }

  /** `list_app_inbox_events` */
  method ListEvents(rows: map<string, Record>, connector: string, status: Option<Status>, limit: int) returns (ids: seq<string>)
    ensures Listing(rows, connector, status, Most(limit), ids)
  {
    var most := Most(limit);
    var rest := set id | id in rows && Selected(rows[id], connector, status);
    ids := [];
    while rest != {} && |ids| < most
      invariant |ids| <= most
      invariant forall id :: id in rest ==> id in rows && Selected(rows[id], connector, status) && id !in ids
      invariant forall id :: id in rows && Selected(rows[id], connector, status) ==> id in rest || id in ids
      invariant forall i, j :: 0 <= i < j < |ids| ==> ids[i] != ids[j]
      invariant forall i :: 0 <= i < |ids| ==> ids[i] in rows && Selected(rows[ids[i]], connector, status)
      invariant forall i, j :: 0 <= i < j < |ids| ==> rows[ids[i]].updated >= rows[ids[j]].updated
      invariant forall i, id :: 0 <= i < |ids| && id in rest ==> rows[ids[i]].updated >= rows[id].updated
      decreases rest
    {
      var id := Latest(rows, rest);
      rest := rest - {id};
      ids := ids + [id];
    }
  }

  /** A row is on the list if no more than 200 rows of its connector, itself included, were updated at
      its time or later, and is hidden if 200 others were updated later. */
  lemma ListedByRank(rows: map<string, Record>, connector: string, recent: seq<string>, id: string)
    requires Listing(rows, connector, None, 200, recent) && connector != ""
    requires id in rows && rows[id].event.connector == connector
    ensures |RowsFrom(rows, connector, rows[id].updated)| <= 200 ==> id in recent
    ensures |RowsFrom(rows, connector, rows[id].updated + 1)| >= 200 ==> id !in recent
  {
    var listed := set k | k in recent;
    ListedCount(recent, listed);
    if id in recent {
      var later := RowsFrom(rows, connector, rows[id].updated + 1);
      forall k | k in later ensures k in listed - {id} {
        assert Selected(rows[k], connector, None);
        var i :| 0 <= i < |recent| && recent[i] == id;
      }
      SubsetCount(later, listed - {id});
    } else {
      var near := RowsFrom(rows, connector, rows[id].updated);
      assert Selected(rows[id], connector, None);
      forall k | k in listed ensures k in near - {id} {
        var i :| 0 <= i < |recent| && recent[i] == k;
      }
      SubsetCount(listed, near - {id});
    }
  }

  function RowsFrom(rows: map<string, Record>, connector: string, t: int): set<string> {
    set id | id in rows && rows[id].event.connector == connector && rows[id].updated >= t
  }

  /** No reply under this key has been crowded out of the recent list. */
  predicate NoneHidden(rows: map<string, Record>, connector: string, key: string) {
    forall id :: id in rows && rows[id].event.connector == connector && rows[id].status in REPLY_STATUSES && rows[id].cooldownKey == key ==>
      |RowsFrom(rows, connector, rows[id].updated)| <= 200
  }

  lemma FewHideNone(rows: map<string, Record>, connector: string, key: string)
    requires |RowsOf(rows, connector)| <= 200
    ensures NoneHidden(rows, connector, key)
  {
    forall id | id in rows ensures |RowsFrom(rows, connector, rows[id].updated)| <= 200 {
      SubsetCount(RowsFrom(rows, connector, rows[id].updated), RowsOf(rows, connector));
    }
  }

  function RowsOf(rows: map<string, Record>, connector: string): set<string> {
    set id | id in rows && rows[id].event.connector == connector
  }

  lemma {:induction false} ListedCount(ids: seq<string>, all: set<string>)
    requires forall i, j :: 0 <= i < j < |ids| ==> ids[i] != ids[j]
    requires all == set id | id in ids
    ensures |all| == |ids|
  {
    if ids != [] {
      var last, front := ids[|ids| - 1], ids[..|ids| - 1];
      var rest := set id | id in front;
      assert ids == front + [last];
      ListedCount(front, rest);
      assert all == rest + {last} && last !in rest;
    }
  }

  lemma {:induction false} SubsetCount(a: set<string>, b: set<string>)
    requires a <= b
    ensures |a| <= |b|
  {
    if a != {} {
      var x :| x in a;
      SubsetCount(a - {x}, b - {x});
    }
  }

  // ------------------------------------------------------------------ the history of an inbox

  /** One reply that went out: when it was decided on and when it was sent. */
  datatype Reply = Reply(id: string, event: Event, rule: Rule, key: string, decided: int, sent: int)

  /** The event the worker has claimed and is answering; `sent` is when its reply went out. */
  datatype Hand = Hand(id: string, event: Event, decision: Decision, decided: int, sent: Option<int>)

  datatype State = State(rows: map<string, Record>, hand: Option<Hand>)

  /** What happens to an inbox: deliveries and status changes from outside, and the worker's own steps.
      `event` is the event as it was listed, `decided` the clock at the decision. */
  datatype Act =
    | Arrive(id: string, event: Event, at: int)
    | UserMark(id: string, status: Status, at: int)
    | Sort(id: string, event: Event, status: Status, decision: Decision, decided: int, at: int)
    | Claim(id: string, event: Event, decision: Decision, decided: int, at: int)
    | Send(reply: Reply)
    | Close(id: string, status: Status, at: int)
    | Restart

  /** A message delivered again becomes unread and loses its cooldown key, even after a reply; only
      archived, published and discarded rows keep their status. It is found again by its connector. */
  function Stored(rows: map<string, Record>, id: string, e: Event, t: int): map<string, Record> {
    rows[id := Record(if id in rows then e.(connector := rows[id].event.connector) else e,
                      if id in rows && rows[id].status in {Archived, Published, Discarded} then rows[id].status else Unread,
                      t, "", "", "")]
  }

  function Patched(r: Record, status: Status, d: Decision, t: int): Record {
    r.(status := status, updated := t, cooldownKey := d.cooldownKey, decision := d.action, reason := d.reason)
  }

  function Apply(s: State, act: Act): State {
    match act
    case Arrive(id, e, at) => s.(rows := Stored(s.rows, id, e, at))
    case UserMark(id, status, at) => if id in s.rows then s.(rows := s.rows[id := s.rows[id].(status := status, updated := at)]) else s
    case Sort(id, _, status, d, _, at) => if id in s.rows then s.(rows := s.rows[id := Patched(s.rows[id], status, d, at)]) else s
    case Claim(id, e, d, decided, at) =>
      if id in s.rows then State(s.rows[id := Patched(s.rows[id], Pending, d, at)], Some(Hand(id, e, d, decided, None))) else s
    case Send(r) => if s.hand.Some? then s.(hand := Some(s.hand.value.(sent := Some(r.sent)))) else s
    case Close(id, status, at) =>
      if id in s.rows then State(s.rows[id := s.rows[id].(status := status, updated := at)], None) else s
    case Restart => s.(hand := None)
  }

  function Replay(trace: seq<Act>): State {
    if trace == [] then State(map[], None) else Apply(Replay(trace[..|trace| - 1]), trace[|trace| - 1])
  }

  /** The replies of a history, in order. */
  function SentIn(trace: seq<Act>): seq<Reply> {
    if trace == [] then []
    else
      var last := trace[|trace| - 1];
      SentIn(trace[..|trace| - 1]) + if last.Send? then [last.reply] else []
  }

  lemma HistoryMore(trace: seq<Act>, act: Act)
    ensures Replay(trace + [act]) == Apply(Replay(trace), act)
    ensures SentIn(trace + [act]) == SentIn(trace) + if act.Send? then [act.reply] else []
    ensures forall id :: Opened(trace + [act], id) == Opened(trace, id) + Opens(act, id)
  {
    assert (trace + [act])[..|trace|] == trace;
  }

  function Replies(log: seq<Reply>, id: string): nat {
    if log == [] then 0 else Replies(log[..|log| - 1], id) + (if log[|log| - 1].id == id then 1 else 0)
  }

  lemma RepliesMore(log: seq<Reply>, r: Reply, id: string)
    ensures Replies(log + [r], id) == Replies(log, id) + if r.id == id then 1 else 0
  {
    assert (log + [r])[..|log|] == log;
  }

  predicate Claimable(s: Status) {
    s.Unread? || s.Classified?
  }

  /** An act that makes an event open: a delivery, or the user putting it back. */
  function Opens(act: Act, id: string): nat {
    if (act.Arrive? && act.id == id) || (act.UserMark? && act.id == id && Claimable(act.status)) then 1 else 0
  }

  /** How often an event became open. */
  function Opened(trace: seq<Act>, id: string): nat {
    if trace == [] then 0 else Opened(trace[..|trace| - 1], id) + Opens(trace[|trace| - 1], id)
  }

  /** The configuration of the worker: its rules and default action, and the connectors there are,
      with whether they allow actions. */
  datatype Policy = Policy(rules: seq<Rule>, defaultAction: string, connectors: map<string, bool>) {

    /** What the engine decides about an event given the recent rows of this table. */
    ghost predicate Decided(rows: map<string, Record>, id: string, e: Event, d: Decision, now: int) {
      && e.connector in connectors
      && exists recent :: Listing(rows, e.connector, None, 200, recent)
           && d == DecideFor(rules, defaultAction, e, id, connectors[e.connector], recent, rows, now)
    }

    /** What may happen to an inbox in this state. */
    ghost predicate Legal(s: State, act: Act) {
      match act
      case Arrive(_, _, _) => true
      case UserMark(id, _, _) => id in s.rows
      case Sort(id, e, status, d, decided, _) =>
        && s.hand.None? && id in s.rows && Claimable(s.rows[id].status)
        && (if e.connector in connectors
            then Decided(s.rows, id, e, d, decided) && d.action != "auto_reply" && status == (if d.action == "ignore" then Ignored else Classified)
            else status == Classified)
      case Claim(id, e, d, decided, _) =>
        && s.hand.None? && id in s.rows && Claimable(s.rows[id].status) && s.rows[id].event.connector == e.connector
        && Decided(s.rows, id, e, d, decided) && d.action == "auto_reply"
      case Send(r) =>
        && s.hand.Some? && s.hand.value.sent.None? && s.hand.value.event.connector == "x"
        && s.hand.value.decision.rule.Some?
        && r == Reply(s.hand.value.id, s.hand.value.event, s.hand.value.decision.rule.value, s.hand.value.decision.cooldownKey,
                      s.hand.value.decided, r.sent)
      case Close(id, status, _) =>
        && s.hand.Some? && s.hand.value.id == id && id in s.rows
        && (status == Failed || (status == AutoReplied && s.hand.value.sent.Some?))
      case Restart => true
    }

    ghost predicate LegalTrace(trace: seq<Act>) {
      trace == [] ||
      var front := trace[..|trace| - 1];
      LegalTrace(front) && Legal(Replay(front), trace[|trace| - 1])
    }

    lemma LegalMore(trace: seq<Act>, act: Act)
      requires LegalTrace(trace) && Legal(Replay(trace), act)
      ensures LegalTrace(trace + [act])
    {
      assert (trace + [act])[..|trace|] == trace;
    }

    lemma {:induction false} LegalPrefix(trace: seq<Act>, p: nat)
      requires LegalTrace(trace) && p < |trace|
      ensures LegalTrace(trace[..p]) && Legal(Replay(trace[..p]), trace[p])
    {
      var front := trace[..|trace| - 1];
      if p < |front| {
        LegalPrefix(front, p);
        assert front[..p] == trace[..p];
      }
    }

    // -------------------------------------------------------------- every reply is warranted

    /** The rule of a reply: an enabled one, the first to match, asking for an automatic reply, on a
        connector with actions allowed. */
    predicate Warranted(r: Reply) {
      && FirstMatch(rules, r.event) == Some(r.rule) && r.rule.enabled
      && ActionOf(Some(r.rule), defaultAction) == "auto_reply"
      && r.event.connector in connectors && connectors[r.event.connector]
      && r.key == CooldownKey(r.event, r.rule.cooldownScope)
    }

    /** At the decision, every other row that the recent list showed with a reply status under the
        same key had been updated more than the rule's cooldown before. */
    ghost predicate SpacedIn(rows: map<string, Record>, r: Reply) {
      r.rule.cooldownSeconds > 0 ==>
        exists recent :: Listing(rows, r.event.connector, None, 200, recent)
          && forall k :: k in recent && k != r.id && rows[k].status in REPLY_STATUSES && rows[k].cooldownKey == r.key ==>
               r.decided - rows[k].updated > r.rule.cooldownSeconds
    }

    /** What a decision to reply means. */
    lemma DecidedReply(rows: map<string, Record>, id: string, e: Event, d: Decision, now: int, t: int)
      requires Decided(rows, id, e, d, now) && d.action == "auto_reply"
      ensures d.rule.Some?
      ensures var r := Reply(id, e, d.rule.value, d.cooldownKey, now, t); Warranted(r) && SpacedIn(rows, r)
    {
      var i := FirstMatchIsFirst(rules, e);
      var recent :| Listing(rows, e.connector, None, 200, recent)
        && d == DecideFor(rules, defaultAction, e, id, connectors[e.connector], recent, rows, now);
      AutoReplyIff(rules, defaultAction, e, id, connectors[e.connector], recent, rows, now);
      var rule := d.rule.value;
      if rule.cooldownSeconds > 0 {
        forall k | k in recent && k != id && rows[k].status in REPLY_STATUSES && rows[k].cooldownKey == d.cooldownKey
          ensures now - rows[k].updated > rule.cooldownSeconds
        {
          var j :| 0 <= j < |recent| && recent[j] == k;
          assert !Cools(rows[recent[j]], recent[j], id, d.cooldownKey, now - rule.cooldownSeconds);
        }
      }
    }

    lemma HandStays(s: State, act: Act)
      requires Apply(s, act).hand.Some? && !act.Claim?
      ensures s.hand.Some?
      ensures var h, h' := s.hand.value, Apply(s, act).hand.value;
              h'.id == h.id && h'.event == h.event && h'.decision == h.decision && h'.decided == h.decided
    {
    }

    /** The event in hand was claimed, by a decision on the table as it then was. */
    lemma {:induction false} HandWasClaimed(trace: seq<Act>) returns (q: nat)
      requires LegalTrace(trace) && Replay(trace).hand.Some?
      ensures q < |trace| && trace[q].Claim? && Legal(Replay(trace[..q]), trace[q])
      ensures var h := Replay(trace).hand.value;
              h.id == trace[q].id && h.event == trace[q].event && h.decision == trace[q].decision && h.decided == trace[q].decided
    {
      var front, act := trace[..|trace| - 1], trace[|trace| - 1];
      if act.Claim? {
        q := |trace| - 1;
      } else {
        HandStays(Replay(front), act);
        q := HandWasClaimed(front);
        assert front[..q] == trace[..q] && front[q] == trace[q];
      }
    }

    /** Each reply of a history was decided on by a warranted rule, in view of the table as it was when
        the event was claimed. */
    lemma ReplyWasDecided(trace: seq<Act>, p: nat) returns (q: nat)
      requires LegalTrace(trace) && p < |trace| && trace[p].Send?
      ensures q < p && trace[q].Claim? && trace[q].id == trace[p].reply.id && trace[q].decided == trace[p].reply.decided
      ensures Warranted(trace[p].reply) && SpacedIn(Replay(trace[..q]).rows, trace[p].reply)
    {
      var past := trace[..p];
      LegalPrefix(trace, p);
      q := HandWasClaimed(past);
      assert past[..q] == trace[..q];
      DecidedReply(Replay(trace[..q]).rows, trace[q].id, trace[q].event, trace[q].decision, trace[q].decided, trace[p].reply.sent);
    }

    /** Whatever the recent list and the time, the engine decides to reply. */
    ghost predicate WouldAnswer(rows: map<string, Record>, id: string, e: Event) {
      && e.connector == "x" && "x" in connectors
      && forall recent, now :: Listing(rows, "x", None, 200, recent) ==>
           DecideFor(rules, defaultAction, e, id, connectors["x"], recent, rows, now).action == "auto_reply"
    }

    /** A rule answers this event, on the connector that can reply. */
    predicate Answering(e: Event) {
      && e.connector == "x" && "x" in connectors && connectors["x"]
      && FirstMatch(rules, e).Some? && ActionOf(FirstMatch(rules, e), defaultAction) == "auto_reply"
    }

    function KeyOf(e: Event): string
      requires Answering(e)
    {
      CooldownKey(e, FirstMatch(rules, e).value.cooldownScope)
    }

    /** When no other row shows a reply under its key, it is answered. */
    lemma AnswersUnlessCooled(rows: map<string, Record>, id: string, e: Event)
      requires Answering(e)
      requires forall k :: k in rows && k != id ==> !(rows[k].status in REPLY_STATUSES && rows[k].cooldownKey == KeyOf(e))
      ensures WouldAnswer(rows, id, e)
    {
    }

    // -------------------------------------------------------------- at most one reply per opening

    lemma {:induction false} AtMostOnce(trace: seq<Act>, id: string)
      requires LegalTrace(trace)
      ensures Replies(SentIn(trace), id) + Owed(Replay(trace), id) <= Opened(trace, id)
    {
      if trace != [] {
        var front, act := trace[..|trace| - 1], trace[|trace| - 1];
        AtMostOnce(front, id);
        assert trace == front + [act];
        HistoryMore(front, act);
        assert Opened(trace, id) == Opened(front, id) + Opens(act, id);
        OwedStep(Replay(front), act, id);
        if act.Send? {
          RepliesMore(SentIn(front), act.reply, id);
        } else {
          assert SentIn(front) + [] == SentIn(front);
        }
      }
    }

    /** A reply uses up what an opening granted. */
    lemma OwedStep(s: State, act: Act, id: string)
      requires Legal(s, act)
      ensures Owed(Apply(s, act), id) + (if act.Send? && act.reply.id == id then 1 else 0) <= Owed(s, id) + Opens(act, id)
    {
    }

    // -------------------------------------------------------------- replies keep their distance

    /** A history in which no event that shows a reply, or is being answered, is delivered again or
        marked by the user, no reply is followed by a death or a failure, and no reply under the key of a
        claim is hidden from it. */
    ghost predicate Quiet(trace: seq<Act>) {
      trace == [] ||
      var front := trace[..|trace| - 1];
      Quiet(front) && QuietAct(Replay(front), trace[|trace| - 1])
    }

    predicate QuietAct(s: State, act: Act) {
      match act
      case Arrive(id, _, _) => ShowsNothing(s, id)
      case UserMark(id, _, _) => ShowsNothing(s, id)
      case Claim(_, e, d, _, _) => NoneHidden(s.rows, e.connector, d.cooldownKey)
      case Close(_, status, _) => s.hand.Some? && s.hand.value.sent.Some? ==> status == AutoReplied
      case Restart => s.hand.Some? ==> s.hand.value.sent.None?
      case _ => true
    }

    /** The clock does not run backwards while a reply is written. */
    ghost predicate Timely(trace: seq<Act>) {
      trace == [] ||
      var front := trace[..|trace| - 1];
      Timely(front) && TimelyAct(Replay(front), trace[|trace| - 1])
    }

    predicate TimelyAct(s: State, act: Act) {
      match act
      case Send(r) => r.decided <= r.sent
      case Close(_, _, at) => s.hand.Some? && s.hand.value.sent.Some? ==> s.hand.value.sent.value <= at
      case _ => true
    }

    lemma TimelyMore(trace: seq<Act>, act: Act)
      requires Timely(trace) && TimelyAct(Replay(trace), act)
      ensures Timely(trace + [act])
    {
      assert (trace + [act])[..|trace|] == trace;
    }

    lemma QuietStep(s: State, sent: seq<Reply>, act: Act)
      requires Legal(s, act) && QuietAct(s, act) && TimelyAct(s, act)
      requires HandOpen(s) && AllShown(s, sent) && HandSpaced(s, sent) && AllSpaced(sent)
      ensures var s', sent' := Apply(s, act), sent + if act.Send? then [act.reply] else [];
              HandOpen(s') && AllShown(s', sent') && HandSpaced(s', sent') && AllSpaced(sent')
    {
      if act.Claim? {
        ClaimIsSpaced(s, sent, act);
      } else if act.Send? {
        forall i, j | 0 <= i < j < |sent + [act.reply]| && (sent + [act.reply])[i].key == (sent + [act.reply])[j].key
          ensures Apart((sent + [act.reply])[i], (sent + [act.reply])[j])
        {
          if j < |sent| {
            assert sent[i].key == sent[j].key;
          } else {
            assert sent[i].key == act.reply.key;
          }
        }
      }
    }

    /** At a claim all earlier replies are on the recent list, so none under the same key is too near. */
    lemma ClaimIsSpaced(s: State, sent: seq<Reply>, act: Act)
      requires act.Claim? && Legal(s, act) && QuietAct(s, act)
      requires HandOpen(s) && AllShown(s, sent)
      ensures HandSpaced(Apply(s, act), sent)
    {
      DecidedReply(s.rows, act.id, act.event, act.decision, act.decided, act.decided);
      var d := act.decision;
      var r := Reply(act.id, act.event, d.rule.value, d.cooldownKey, act.decided, act.decided);
      if r.rule.cooldownSeconds > 0 && act.event.connector == "x" {
        var recent :| Listing(s.rows, r.event.connector, None, 200, recent)
          && forall k :: k in recent && k != r.id && s.rows[k].status in REPLY_STATUSES && s.rows[k].cooldownKey == r.key ==>
               r.decided - s.rows[k].updated > r.rule.cooldownSeconds;
        forall i | 0 <= i < |sent| && sent[i].key == r.key
          ensures r.decided - sent[i].sent > r.rule.cooldownSeconds
        {
          assert Shown(s, sent[i]);
          ListedByRank(s.rows, "x", recent, sent[i].id);
        }
      }
    }

    lemma {:induction false} QuietHistory(trace: seq<Act>)
      requires LegalTrace(trace) && Quiet(trace) && Timely(trace)
      ensures var s, sent := Replay(trace), SentIn(trace);
              HandOpen(s) && AllShown(s, sent) && HandSpaced(s, sent) && AllSpaced(sent)
    {
      if trace != [] {
        var front, act := trace[..|trace| - 1], trace[|trace| - 1];
        QuietHistory(front);
        assert trace == front + [act];
        HistoryMore(front, act);
        QuietStep(Replay(front), SentIn(front), act);
      }
    }

    /** In a quiet history any two replies under one key are more than the later rule's cooldown apart. */
    lemma QuietRepliesKeepDistance(trace: seq<Act>, i: nat, j: nat)
      requires LegalTrace(trace) && Quiet(trace) && Timely(trace) && i < j < |SentIn(trace)|
      requires SentIn(trace)[i].key == SentIn(trace)[j].key && SentIn(trace)[j].rule.cooldownSeconds > 0
      ensures SentIn(trace)[j].sent - SentIn(trace)[i].sent > SentIn(trace)[j].rule.cooldownSeconds
    {
      QuietHistory(trace);
      assert Apart(SentIn(trace)[i], SentIn(trace)[j]);
    }
  }

  /** One reply may still come: an open event, or a claimed one that is not answered yet. */
  function Owed(s: State, id: string): nat {
    (if id in s.rows && Claimable(s.rows[id].status) then 1 else 0)
    + (if s.hand.Some? && s.hand.value.sent.None? && s.hand.value.id == id then 1 else 0)
  }

  /** The event shows no reply and is not being answered. */
  predicate ShowsNothing(s: State, id: string) {
    (id in s.rows ==> s.rows[id].status !in REPLY_STATUSES) && (s.hand.Some? ==> s.hand.value.id != id)
  }

  predicate Apart(earlier: Reply, later: Reply) {
    later.rule.cooldownSeconds > 0 ==> later.sent - earlier.sent > later.rule.cooldownSeconds
  }

  predicate AllSpaced(sent: seq<Reply>) {
    forall i, j :: 0 <= i < j < |sent| && sent[i].key == sent[j].key ==> Apart(sent[i], sent[j])
  }

  /** The row of the event in hand is pending under the decision's key. */
  predicate HandOpen(s: State) {
    s.hand.Some? ==>
      var h := s.hand.value;
      && h.id in s.rows && s.rows[h.id].status == Pending && s.rows[h.id].cooldownKey == h.decision.cooldownKey
      && s.rows[h.id].event.connector == h.event.connector
  }

  /** A reply is still visible in its row, or is the one being written. */
  predicate Shown(s: State, r: Reply) {
    && r.id in s.rows && s.rows[r.id].event.connector == "x" && s.rows[r.id].cooldownKey == r.key
    && ((s.rows[r.id].status == AutoReplied && r.sent <= s.rows[r.id].updated)
        || (s.hand.Some? && s.hand.value.id == r.id && s.hand.value.sent == Some(r.sent)))
  }

  predicate AllShown(s: State, sent: seq<Reply>) {
    forall i :: 0 <= i < |sent| ==> Shown(s, sent[i])
  }

  /** The reply about to be sent keeps its distance from all that were. */
  predicate HandSpaced(s: State, sent: seq<Reply>) {
    s.hand.Some? && s.hand.value.sent.None? && s.hand.value.event.connector == "x" ==>
      var h := s.hand.value;
      && h.decision.rule.Some?
      && (h.decision.rule.value.cooldownSeconds > 0 ==>
            forall i :: 0 <= i < |sent| && sent[i].key == h.decision.cooldownKey ==>
              h.decided - sent[i].sent > h.decision.rule.value.cooldownSeconds)
  }

  // ------------------------------------------------------------------ the worker

  /** What becomes of one attempt to reply; a process may die, and a step may fail, before or after the
      reply has gone out. */
  datatype Attempt = Sends | Fails | FailsAfterSending | Dies | DiesAfterSending {
    predicate GoesOut() {
      Sends? || FailsAfterSending? || DiesAfterSending?
    }
  }

  type Arrival = (string, Event)

  predicate IsArrival(act: Act, a: Arrival) {
    act.Arrive? && act.id == a.0 && act.event == a.1
  }

  predicate Untouched(id: string, before: map<string, Record>, after: map<string, Record>) {
    id in before && id in after && after[id] == before[id]
  }

  predicate Redelivered(id: string, arrivals: seq<Arrival>) {
    exists i :: 0 <= i < |arrivals| && arrivals[i].0 == id
  }

  ghost predicate NeverBack(clock: nat -> int) {
    forall i: nat, j: nat :: i <= j ==> clock(i) <= clock(j)
  }

  /** What an attempt comes to: only connector "x" can reply, and an attempt on another one fails. */
  function Outcome(h: Hand, attempt: Attempt, t1: int, t2: int): seq<Act>
    requires h.decision.rule.Some?
  {
    var send := Send(Reply(h.id, h.event, h.decision.rule.value, h.decision.cooldownKey, h.decided, t1));
    if attempt.Dies? then [Restart]
    else if attempt.Fails? || h.event.connector != "x" then [Close(h.id, Failed, t1)]
    else [send] + [if attempt.DiesAfterSending? then Restart else Close(h.id, if attempt.Sends? then AutoReplied else Failed, t2)]
  }

  /** Between these two histories the event was claimed, messages arrived, and its reply went out. */
  ghost predicate Answered(before: seq<Act>, after: seq<Act>, id: string, e: Event, attempt: Attempt, arrivals: seq<Arrival>, clock: nat -> int) {
    var n := |before| + 1 + |arrivals|;
    && before <= after && |after| == n + 2
    && after[|before|].Claim? && after[|before|].id == id
    && (forall i :: 0 <= i < |arrivals| ==> IsArrival(after[|before| + 1 + i], arrivals[i]))
    && after[n].Send? && after[n].reply.id == id && after[n].reply.event == e
    && (exists t: nat :: after[n].reply.sent == clock(t))
    && (if attempt.DiesAfterSending? then after[n + 1] == Restart
        else after[n + 1].Close? && after[n + 1].id == id && after[n + 1].status == if attempt.Sends? then AutoReplied else Failed)
  }

  /** Messages arrived and then these acts followed. */
  ghost predicate Happened(before: seq<Act>, after: seq<Act>, arrivals: seq<Arrival>, acts: seq<Act>) {
    var n := |before| + |arrivals|;
    && before <= after && |after| == n + |acts| && after[n..] == acts
    && forall i :: 0 <= i < |arrivals| ==> IsArrival(after[|before| + i], arrivals[i])
  }

  lemma ArrivedToo(start: seq<Act>, before: seq<Act>, after: seq<Act>, arrivals: seq<Arrival>, i: nat)
    requires i < |arrivals| && Happened(start, before, arrivals[..i], [])
    requires before <= after && |after| == |before| + 1 && IsArrival(after[|before|], arrivals[i])
    ensures Happened(start, after, arrivals[..i + 1], [])
  {
    var those := arrivals[..i + 1];
    forall j | 0 <= j < |those| ensures IsArrival(after[|start| + j], those[j]) {
      if j < i {
        assert IsArrival(before[|start| + j], arrivals[..i][j]);
      }
    }
  }

  lemma ThenHappened(before: seq<Act>, middle: seq<Act>, after: seq<Act>, arrivals: seq<Arrival>, acts: seq<Act>)
    requires before <= middle && |middle| == |before| + |arrivals| && after == middle + acts
    requires forall i :: 0 <= i < |arrivals| ==> IsArrival(middle[|before| + i], arrivals[i])
    ensures Happened(before, after, arrivals, acts)
  {
    forall i | 0 <= i < |arrivals| ensures IsArrival(after[|before| + i], arrivals[i]) {
      assert after[|before| + i] == middle[|before| + i];
    }
  }

  /** Some step of the worker took the event up. */
  ghost predicate TakenUp(part: seq<Act>, id: string) {
    exists act :: act in part && (act.Sort? || act.Claim?) && act.id == id
  }

  /** The listing gives this event and no other. */
  ghost predicate Picks(rows: map<string, Record>, limit: nat, id: string) {
    id in rows && forall ids :: Listing(rows, "", Some(Unread), limit, ids) ==> ids == [id]
  }

  predicate OnlyUnread(rows: map<string, Record>, id: string) {
    id in rows && forall k :: k in rows ==> (rows[k].status == Unread <==> k == id)
  }

  lemma TwoApart(ids: seq<string>)
    requires forall i, j :: 0 <= i < j < |ids| ==> ids[i] != ids[j]
    ensures |ids| > 1 ==> ids[0] != ids[1]
  {
  }

  lemma OnlyUnreadIsPicked(rows: map<string, Record>, limit: nat, id: string)
    requires limit > 0 && OnlyUnread(rows, id)
    ensures Picks(rows, limit, id)
  {
    forall ids | Listing(rows, "", Some(Unread), limit, ids) ensures ids == [id] {
      assert Selected(rows[id], "", Some(Unread));
      assert ids != [];
      assert forall i :: 0 <= i < |ids| ==> ids[i] == id;
      TwoApart(ids);
    }
  }

  class InboundWorker {
    const policy: Policy
    const batchSize: int
    const clock: nat -> int
    var ticks: nat
    var rows: map<string, Record>
    /** All that has happened to the inbox. */
    ghost var trace: seq<Act>

    constructor (policy: Policy, batchSize: int, clock: nat -> int)
      ensures Idle() && trace == [] && rows == map[]
      ensures this.policy == policy && this.batchSize == batchSize && this.clock == clock
    {
      this.policy, this.batchSize, this.clock, ticks, rows, trace := policy, batchSize, clock, 0, map[], [];
    }

    /** Each thing that happened was possible when it did, and the table is what all of it left. */
    ghost predicate Valid()
      reads this
    {
      Recorded() && Replay(trace).rows == rows
    }

    ghost predicate Recorded()
      reads this
    {
      policy.LegalTrace(trace) && (NeverBack(clock) ==> policy.Timely(trace))
    }

    /** No event is in hand. */
    ghost predicate Idle()
      reads this
    {
      Valid() && Replay(trace).hand.None?
    }

    ghost predicate Holds(h: Hand)
      reads this
    {
      Valid() && Replay(trace).hand == Some(h) && h.id in rows
    }

    ghost method Record(act: Act)
      requires Recorded() && policy.Legal(Replay(trace), act)
      requires NeverBack(clock) ==> policy.TimelyAct(Replay(trace), act)
      modifies this`trace
      ensures Recorded() && trace == old(trace) + [act] && Replay(trace) == Apply(Replay(old(trace)), act)
    {
      policy.LegalMore(trace, act);
      if NeverBack(clock) {
        policy.TimelyMore(trace, act);
      }
      HistoryMore(trace, act);
      trace := trace + [act];
    }

    method Now() returns (t: int)
      modifies this`ticks
      ensures ticks == old(ticks) + 1 && t == clock(old(ticks))
    {
      t := clock(ticks);
      ticks := ticks + 1;
    }

    /** `upsert_app_inbox_event` for a new message or one delivered again; `id` is the id of the
        stored event, if there is one, or else a new id. */
    method Deliver(id: string, e: Event)
      requires Valid()
      modifies this`ticks, this`rows, this`trace
      ensures Valid() && Replay(trace).hand == old(Replay(trace)).hand
      ensures trace == old(trace) + [Arrive(id, e, clock(old(ticks)))] && ticks == old(ticks) + 1
      ensures rows == Stored(old(rows), id, e, clock(old(ticks)))
    {
      var t := Now();
      Record(Arrive(id, e, t));
      rows := Stored(rows, id, e, t);
    }

    /** `update_app_inbox_event_status`: the user's own change. */
    method UserMarks(id: string, status: Status)
      requires Idle()
      modifies this`ticks, this`rows, this`trace
      ensures Idle()
      ensures trace == if id in old(rows) then old(trace) + [UserMark(id, status, clock(old(ticks)))] else old(trace)
      ensures rows == if id in old(rows) then old(rows)[id := old(rows)[id].(status := status, updated := clock(old(ticks)))] else old(rows)
    {
      var t := Now();
      if id in rows {
        Record(UserMark(id, status, t));
        rows := rows[id := rows[id].(status := status, updated := t)];
      }
    }

    /** Listed events that are still unread, under the connector they were listed with. */
    ghost predicate AllWaiting(ids: seq<string>, events: seq<Event>)
      reads this
    {
      && |ids| == |events|
      && forall i :: 0 <= i < |ids| ==> ids[i] in rows && rows[ids[i]].status == Unread && rows[ids[i]].event.connector == events[i].connector
    }

    /** This event is in hand, not answered yet, and the rest of the batch waits. */
    ghost predicate Ready(h: Hand, waiting: seq<string>, events: seq<Event>)
      reads this
    {
      Holds(h) && h.sent.None? && h.decision.rule.Some? && AllWaiting(waiting, events) && h.id !in waiting
    }

    /** The attempt is over: a process that lived on marked the row by it. */
    ghost predicate Settled(h: Hand, attempt: Attempt, alive: bool, waiting: seq<string>, events: seq<Event>)
      reads this
    {
      && Idle() && AllWaiting(waiting, events)
      && (alive <==> !attempt.Dies? && (attempt.DiesAfterSending? ==> h.event.connector != "x"))
      && h.id in rows
      && (alive ==> rows[h.id].status == if attempt.Sends? && h.event.connector == "x" then AutoReplied else Failed)
    }

    method DeliverOne(id: string, e: Event, ghost h: Hand, ghost waiting: seq<string>, ghost events: seq<Event>)
      requires Ready(h, waiting, events)
      modifies this`ticks, this`rows, this`trace
      ensures Ready(h, waiting, events) && ticks >= old(ticks)
      ensures id != h.id ==> Untouched(h.id, old(rows), rows)
      ensures |trace| == |old(trace)| + 1 && old(trace) <= trace && IsArrival(trace[|old(trace)|], (id, e))
    {
      Deliver(id, e);
    }

    /** Messages that arrive while a reply is being written. */
    method DeliverAll(arrivals: seq<Arrival>, ghost h: Hand, ghost waiting: seq<string>, ghost events: seq<Event>)
      requires Ready(h, waiting, events)
      modifies this`ticks, this`rows, this`trace
      ensures Ready(h, waiting, events) && ticks >= old(ticks)
      ensures Happened(old(trace), trace, arrivals, [])
      ensures !Redelivered(h.id, arrivals) ==> Untouched(h.id, old(rows), rows)
    {
      for i := 0 to |arrivals|
        invariant Ready(h, waiting, events) && ticks >= old(ticks)
        invariant Happened(old(trace), trace, arrivals[..i], [])
        invariant !Redelivered(h.id, arrivals) ==> Untouched(h.id, old(rows), rows)
      {
        ghost var before := trace;
        DeliverOne(arrivals[i].0, arrivals[i].1, h, waiting, events);
        ArrivedToo(old(trace), before, trace, arrivals, i);
        assert arrivals[i].0 == h.id ==> Redelivered(h.id, arrivals);
      }
      assert arrivals[..|arrivals|] == arrivals;
    }

    /** `patch_app_inbox_event` with a decision that is no reply. */
    method Mark(id: string, e: Event, status: Status, d: Decision, decided: int)
      requires Idle() && id in rows && policy.Legal(Replay(trace), Sort(id, e, status, d, decided, 0))
      modifies this`ticks, this`rows, this`trace
      ensures Idle()
      ensures trace == old(trace) + [Sort(id, e, status, d, decided, clock(old(ticks)))]
      ensures rows == old(rows)[id := Patched(old(rows)[id], status, d, clock(old(ticks)))]
    {
      var t := Now();
      Record(Sort(id, e, status, d, decided, t));
      rows := rows[id := Patched(rows[id], status, d, t)];
    }

    /** `claim_app_inbox_event`: only an unread or classified row can be claimed. */
    method ClaimEvent(id: string, e: Event, d: Decision, decided: int) returns (claimed: bool)
      requires Idle() && id in rows && rows[id].event.connector == e.connector
      requires policy.Decided(rows, id, e, d, decided) && d.action == "auto_reply"
      modifies this`ticks, this`rows, this`trace
      ensures claimed <==> Claimable(old(rows)[id].status)
      ensures claimed ==> Holds(Hand(id, e, d, decided, None)) && trace == old(trace) + [Claim(id, e, d, decided, clock(old(ticks)))]
      ensures !claimed ==> Idle() && trace == old(trace)
      ensures rows == if claimed then old(rows)[id := Patched(old(rows)[id], Pending, d, clock(old(ticks)))] else old(rows)
      ensures ticks >= old(ticks)
    {
      var t := Now();
      if !Claimable(rows[id].status) {
        return false;
      }
      Record(Claim(id, e, d, decided, t));
      rows := rows[id := Patched(rows[id], Pending, d, t)];
      claimed := true;
    }

    /** `_execute_auto_reply`: the attempt is made, during which messages may arrive; a process that
        dies leaves the row as it was claimed. */
    method ExecuteAutoReply(h: Hand, attempt: Attempt, arrivals: seq<Arrival>, ghost k: nat, ghost waiting: seq<string>, ghost events: seq<Event>)
      returns (alive: bool, ghost t: nat)
      requires Ready(h, waiting, events) && h.decided == clock(k) && k < ticks
      modifies this`ticks, this`rows, this`trace
      ensures Settled(h, attempt, alive, waiting, events)
      ensures !alive && !Redelivered(h.id, arrivals) ==> Untouched(h.id, old(rows), rows)
      ensures Happened(old(trace), trace, arrivals, Outcome(h, attempt, clock(t), clock(t + 1)))
    {
      ghost var start, before := trace, rows;
      DeliverAll(arrivals, h, waiting, events);
      t := ticks;
      alive := Conclude(h, attempt, k, waiting, events, start, before, arrivals);
    }

    /** The outcome of the attempt, as it is written down. */
    method Conclude(h: Hand, attempt: Attempt, ghost k: nat, ghost waiting: seq<string>, ghost events: seq<Event>,
                    ghost start: seq<Act>, ghost before: map<string, Record>, ghost arrivals: seq<Arrival>)
      returns (alive: bool)
      requires Ready(h, waiting, events) && h.decided == clock(k) && k < ticks
      requires Happened(start, trace, arrivals, []) && (!Redelivered(h.id, arrivals) ==> Untouched(h.id, before, rows))
      modifies this`ticks, this`rows, this`trace
      ensures Settled(h, attempt, alive, waiting, events)
      ensures !alive && !Redelivered(h.id, arrivals) ==> Untouched(h.id, before, rows)
      ensures Happened(start, trace, arrivals, Outcome(h, attempt, clock(old(ticks)), clock(old(ticks) + 1)))
    {
      alive := !attempt.Dies? && (attempt.DiesAfterSending? ==> h.event.connector != "x");
      if attempt.Dies? {
        Record(Restart);
      } else {
        var t := Now();
        if attempt.Fails? || h.event.connector != "x" {
          CloseEvent(h, Failed, t, waiting, events);
        } else {
          SendReply(h, attempt, t, waiting, events);
        }
      }
      ThenHappened(start, old(trace), trace, arrivals, Outcome(h, attempt, clock(old(ticks)), clock(old(ticks) + 1)));
    }

    ghost method GoOut(h: Hand, t: int, waiting: seq<string>, events: seq<Event>)
      requires Ready(h, waiting, events) && h.event.connector == "x" && (NeverBack(clock) ==> h.decided <= t)
      modifies this`trace
      ensures Holds(h.(sent := Some(t))) && AllWaiting(waiting, events)
      ensures trace == old(trace) + [Send(Reply(h.id, h.event, h.decision.rule.value, h.decision.cooldownKey, h.decided, t))]
    {
      Record(Send(Reply(h.id, h.event, h.decision.rule.value, h.decision.cooldownKey, h.decided, t)));
    }

    /** The reply goes out, and what follows it. */
    method SendReply(h: Hand, attempt: Attempt, t: int, ghost waiting: seq<string>, ghost events: seq<Event>)
      requires Ready(h, waiting, events) && h.event.connector == "x" && attempt.GoesOut()
      requires ticks > 0 && t == clock(ticks - 1) && (NeverBack(clock) ==> h.decided <= t)
      modifies this`ticks, this`rows, this`trace
      ensures Idle() && AllWaiting(waiting, events) && h.id in rows
      ensures if attempt.DiesAfterSending? then rows == old(rows) else rows[h.id].status == if attempt.Sends? then AutoReplied else Failed
      ensures trace == old(trace) + Outcome(h, attempt, t, clock(old(ticks)))
    {
      GoOut(h, t, waiting, events);
      if attempt.DiesAfterSending? {
        Record(Restart);
        return;
      }
      var u := Now();
      CloseEvent(h.(sent := Some(t)), if attempt.Sends? then AutoReplied else Failed, u, waiting, events);
    }

    method CloseEvent(h: Hand, status: Status, t: int, ghost waiting: seq<string>, ghost events: seq<Event>)
      requires Holds(h) && (status == Failed || (status == AutoReplied && h.sent.Some?))
      requires NeverBack(clock) && h.sent.Some? ==> h.sent.value <= t
      requires AllWaiting(waiting, events) && h.id !in waiting
      modifies this`rows, this`trace
      ensures Idle() && AllWaiting(waiting, events)
      ensures trace == old(trace) + [Close(h.id, status, t)]
      ensures h.id in rows && rows == old(rows)[h.id := old(rows)[h.id].(status := status, updated := t)]
    {
      Record(Close(h.id, status, t));
      rows := rows[h.id := rows[h.id].(status := status, updated := t)];
    }

    /** One unread event of a batch, as it was listed. */
    method ProcessRecord(id: string, e: Event, attempt: Attempt, arrivals: seq<Arrival>, ghost waiting: seq<string>, ghost events: seq<Event>)
      returns (alive: bool)
      requires Idle() && id in rows && rows[id].status == Unread && rows[id].event.connector == e.connector
      requires AllWaiting(waiting, events) && id !in waiting
      modifies this`ticks, this`rows, this`trace
      ensures Idle() && AllWaiting(waiting, events)
      ensures old(trace) <= trace && WorkedOn(trace[|old(trace)|..], id, arrivals)
      ensures policy.WouldAnswer(old(rows), id, e) && attempt.GoesOut() ==> Answered(old(trace), trace, id, e, attempt, arrivals, clock)
    {
      if e.connector !in policy.connectors {
        alive := true;
        SortEvent(id, e, Classified, Decision("queue_only", "unsupported_connector", None, rows[id].cooldownKey), 0, arrivals, waiting, events);
      } else {
        alive := DecideAndAct(id, e, attempt, arrivals, waiting, events);
      }
    }

    /** An event that gets no reply. */
    method SortEvent(id: string, e: Event, status: Status, d: Decision, decided: int, ghost arrivals: seq<Arrival>,
                     ghost waiting: seq<string>, ghost events: seq<Event>)
      requires Idle() && id in rows && policy.Legal(Replay(trace), Sort(id, e, status, d, decided, 0))
      requires AllWaiting(waiting, events) && id !in waiting
      modifies this`ticks, this`rows, this`trace
      ensures Idle() && AllWaiting(waiting, events)
      ensures trace == old(trace) + [Sort(id, e, status, d, decided, clock(old(ticks)))]
      ensures old(trace) <= trace && WorkedOn(trace[|old(trace)|..], id, arrivals)
    {
      Mark(id, e, status, d, decided);
      SortWorksOn(old(trace), trace, id, arrivals);
    }

    method DecideAndAct(id: string, e: Event, attempt: Attempt, arrivals: seq<Arrival>, ghost waiting: seq<string>, ghost events: seq<Event>)
      returns (alive: bool)
      requires Idle() && id in rows && rows[id].status == Unread && rows[id].event.connector == e.connector && e.connector in policy.connectors
      requires AllWaiting(waiting, events) && id !in waiting
      modifies this`ticks, this`rows, this`trace
      ensures Idle() && AllWaiting(waiting, events)
      ensures old(trace) <= trace && WorkedOn(trace[|old(trace)|..], id, arrivals)
      ensures policy.WouldAnswer(old(rows), id, e) && attempt.GoesOut() ==> Answered(old(trace), trace, id, e, attempt, arrivals, clock)
    {
      var recent := ListEvents(rows, e.connector, None, 200);
      ghost var k := ticks;
      var now := Now();
      var d := Decide(policy.rules, policy.defaultAction, e, id, policy.connectors[e.connector], recent, rows, now);
      assert policy.Decided(rows, id, e, d, now);
      if d.action == "auto_reply" {
        policy.DecidedReply(rows, id, e, d, now, now);
        alive := ClaimAndReply(id, e, d, now, attempt, arrivals, k, waiting, events);
      } else {
        alive := true;
        SortEvent(id, e, if d.action == "ignore" then Ignored else Classified, d, now, arrivals, waiting, events);
      }
    }

    method ClaimAndReply(id: string, e: Event, d: Decision, now: int, attempt: Attempt, arrivals: seq<Arrival>, ghost k: nat,
                         ghost waiting: seq<string>, ghost events: seq<Event>)
      returns (alive: bool)
      requires Idle() && id in rows && Claimable(rows[id].status) && rows[id].event.connector == e.connector
      requires policy.Decided(rows, id, e, d, now) && d.action == "auto_reply" && d.rule.Some?
      requires now == clock(k) && k < ticks
      requires AllWaiting(waiting, events) && id !in waiting
      modifies this`ticks, this`rows, this`trace
      ensures Idle() && AllWaiting(waiting, events)
      ensures old(trace) <= trace && WorkedOn(trace[|old(trace)|..], id, arrivals)
      ensures e.connector == "x" && attempt.GoesOut() ==> Answered(old(trace), trace, id, e, attempt, arrivals, clock)
      ensures Settled(Hand(id, e, d, now, None), attempt, alive, waiting, events)
      ensures !alive && !Redelivered(id, arrivals) ==> rows[id] == Patched(old(rows)[id], Pending, d, clock(old(ticks)))
    {
      var claimed := ClaimEvent(id, e, d, now);
      if !claimed {
        assert false;
      }
      var h := Hand(id, e, d, now, None);
      ghost var before, t := trace, 0;
      alive, t := ExecuteAutoReply(h, attempt, arrivals, k, waiting, events);
      ReplyWorksOn(old(trace), before, trace, h, attempt, arrivals, clock, t);
    }

    /** `_process_batch`, with any outcome of each attempt and any arrivals while it is made. Each event
        that was listed is taken up, unless the process dies before. */
    method ProcessBatch(attempts: nat -> Attempt, arrivals: nat -> seq<Arrival>) returns (alive: bool, ghost unread: seq<string>)
      requires Idle()
      modifies this`ticks, this`rows, this`trace
      ensures Idle() && old(trace) <= trace
      ensures Listing(old(rows), "", Some(Unread), Most(if batchSize == 0 then 10 else batchSize), unread)
      ensures BatchDone(old(trace), trace, unread, if alive then |unread| else 0, arrivals)
      ensures forall id ::
                (Picks(old(rows), Most(if batchSize == 0 then 10 else batchSize), id)
                 && policy.WouldAnswer(old(rows), id, old(rows)[id].event) && attempts(0).GoesOut()) ==>
                Answered(old(trace), trace, id, old(rows)[id].event, attempts(0), arrivals(0), clock)
    {
      var listed := ListEvents(rows, "", Some(Unread), if batchSize == 0 then 10 else batchSize);
      unread := listed;
      var events := seq(|listed|, i requires 0 <= i < |listed| && listed[i] in rows reads this => rows[listed[i]].event);
      alive := true;
      for i := 0 to |listed|
        invariant Idle() && old(trace) <= trace && alive
        invariant AllWaiting(listed[i..], events[i..])
        invariant BatchDone(old(trace), trace, listed, i, arrivals)
        invariant i == 0 ==> trace == old(trace) && rows == old(rows)
        invariant i == 1 && policy.WouldAnswer(old(rows), listed[0], events[0]) && attempts(0).GoesOut() ==>
                    Answered(old(trace), trace, listed[0], events[0], attempts(0), arrivals(0), clock)
      {
        alive := ProcessListed(listed, events, i, attempts(i), arrivals, old(trace));
        if !alive {
          return;
        }
      }
    }

    method ProcessListed(listed: seq<string>, events: seq<Event>, i: nat, attempt: Attempt, arrivals: nat -> seq<Arrival>, ghost start: seq<Act>)
      returns (alive: bool)
      requires Idle() && i < |listed| == |events| && AllWaiting(listed[i..], events[i..])
      requires forall j, k :: 0 <= j < k < |listed| ==> listed[j] != listed[k]
      requires BatchDone(start, trace, listed, i, arrivals)
      modifies this`ticks, this`rows, this`trace
      ensures Idle() && old(trace) <= trace && AllWaiting(listed[i + 1..], events[i + 1..])
      ensures BatchDone(start, trace, listed, if alive then i + 1 else 0, arrivals)
      ensures policy.WouldAnswer(old(rows), listed[i], events[i]) && attempt.GoesOut() ==>
                Answered(old(trace), trace, listed[i], events[i], attempt, arrivals(i), clock)
    {
      ghost var rest, restEvents := listed[i + 1..], events[i + 1..];
      WaitingTail(listed, events, i);
      ghost var before := trace;
      alive := ProcessRecord(listed[i], events[i], attempt, arrivals(i), rest, restEvents);
      BatchMore(start, before, trace, listed, i, arrivals);
    }

    lemma WaitingTail(listed: seq<string>, events: seq<Event>, i: nat)
      requires i < |listed| == |events| && AllWaiting(listed[i..], events[i..])
      requires forall j, k :: 0 <= j < k < |listed| ==> listed[j] != listed[k]
      ensures AllWaiting(listed[i + 1..], events[i + 1..]) && listed[i] !in listed[i + 1..]
      ensures listed[i] in rows && rows[listed[i]].status == Unread && rows[listed[i]].event.connector == events[i].connector
    {
      var here, rest := listed[i..], listed[i + 1..];
      assert here[0] == listed[i] && events[i..][0] == events[i];
      forall j | 0 <= j < |rest| ensures rest[j] == here[j + 1] && events[i + 1..][j] == events[i..][j + 1] {
      }
    }
  }

  /** What one record left: it was taken up, and what came from outside was among the arrivals. */
  ghost predicate WorkedOn(part: seq<Act>, id: string, arrivals: seq<Arrival>) {
    TakenUp(part, id) && forall act :: act in part ==> !act.UserMark? && (act.Arrive? ==> (act.id, act.event) in arrivals)
  }

  ghost predicate FromArrivals(part: seq<Act>, arrivals: nat -> seq<Arrival>) {
    forall act :: act in part ==> !act.UserMark? && (act.Arrive? ==> exists i: nat :: (act.id, act.event) in arrivals(i))
  }

  lemma SortWorksOn(before: seq<Act>, after: seq<Act>, id: string, arrivals: seq<Arrival>)
    requires |after| == |before| + 1 && before <= after && after[|before|].Sort? && after[|before|].id == id
    ensures WorkedOn(after[|before|..], id, arrivals)
  {
    assert after[|before|..] == [after[|before|]];
    assert after[|before|] in after[|before|..];
  }

  lemma ReplyWorksOn(before: seq<Act>, claimed: seq<Act>, after: seq<Act>, h: Hand, attempt: Attempt, arrivals: seq<Arrival>, clock: nat -> int, t: nat)
    requires h.decision.rule.Some? && |claimed| == |before| + 1 && before <= claimed
    requires claimed[|before|].Claim? && claimed[|before|].id == h.id
    requires Happened(claimed, after, arrivals, Outcome(h, attempt, clock(t), clock(t + 1)))
    ensures before <= after && WorkedOn(after[|before|..], h.id, arrivals)
    ensures h.event.connector == "x" && attempt.GoesOut() ==> Answered(before, after, h.id, h.event, attempt, arrivals, clock)
  {
    var claim := claimed[|before|];
    assert after[|before|] == claim;
    var part, acts, n := after[|before|..], Outcome(h, attempt, clock(t), clock(t + 1)), |claimed| + |arrivals|;
    assert part[0] == claim && claim in part;
    forall act | act in part ensures !act.UserMark? && (act.Arrive? ==> (act.id, act.event) in arrivals) {
      var i :| 0 <= i < |part| && part[i] == act;
      assert act == after[|before| + i];
      if 1 <= i < 1 + |arrivals| {
        assert IsArrival(after[|claimed| + (i - 1)], arrivals[i - 1]) && arrivals[i - 1] in arrivals;
      } else if i > 0 {
        assert act == after[n..][i - 1 - |arrivals|] && act in acts;
      }
    }
    if h.event.connector == "x" && attempt.GoesOut() {
      assert after[n] == after[n..][0] && after[n + 1] == after[n..][1];
      assert after[n].reply.sent == clock(t);
      forall i | 0 <= i < |arrivals| ensures IsArrival(after[|before| + 1 + i], arrivals[i]) {
        assert after[|before| + 1 + i] == after[|claimed| + i];
      }
    }
  }

  /** After the first `n` listed events of a batch. */
  ghost predicate BatchDone(start: seq<Act>, after: seq<Act>, listed: seq<string>, n: nat, arrivals: nat -> seq<Arrival>) {
    && start <= after && n <= |listed|
    && FromArrivals(after[|start|..], arrivals)
    && forall j :: 0 <= j < n ==> TakenUp(after[|start|..], listed[j])
  }

  lemma BatchMore(start: seq<Act>, before: seq<Act>, after: seq<Act>, listed: seq<string>, i: nat, arrivals: nat -> seq<Arrival>)
    requires i < |listed| && BatchDone(start, before, listed, i, arrivals)
    requires before <= after && WorkedOn(after[|before|..], listed[i], arrivals(i))
    ensures BatchDone(start, after, listed, i + 1, arrivals) && BatchDone(start, after, listed, 0, arrivals)
  {
    var a, b := before[|start|..], after[|before|..];
    assert after[|start|..] == a + b;
    forall j | 0 <= j <= i ensures TakenUp(a + b, listed[j]) {
      var part := if j < i then a else b;
      assert TakenUp(part, listed[j]);
      var act: Act :| act in part && (act.Sort? || act.Claim?) && act.id == listed[j];
      assert act in a + b;
    }
  }

  // ------------------------------------------------------------------ whole runs

  datatype Step =
    | Arrives(id: string, event: Event)
    | Marks(id: string, status: Status)
    | Batch(attempts: nat -> Attempt, arrivals: nat -> seq<Arrival>)

  /** What a step adds to the history. */
  ghost predicate StepTaken(step: Step, before: State, part: seq<Act>) {
    match step
    case Arrives(id, e) => |part| == 1 && IsArrival(part[0], (id, e))
    case Marks(id, status) => if id in before.rows then |part| == 1 && part[0].UserMark? && part[0].id == id && part[0].status == status else part == []
    case Batch(_, arrivals) => FromArrivals(part, arrivals)
  }

  /** Over any run of arrivals, changes by the user and batches, restarts after a death included: every
      reply is warranted and decided in view of the table as it was, and no event is answered more often
      than it became open. If no event that shows a reply or is being answered is delivered again or
      marked by the user, no death or failure follows a reply, no reply is crowded out of the recent list
      and the clock never runs backwards, any two replies under one key are more than the later rule's
      cooldown apart. */
  method Run(worker: InboundWorker, steps: seq<Step>) returns (ghost marks: seq<nat>)
    requires worker.Idle()
    modifies worker
    ensures worker.Idle() && old(worker.trace) <= worker.trace
    ensures StepsTaken(steps, marks, worker.trace, |steps|) && marks[0] == |old(worker.trace)| && marks[|steps|] == |worker.trace|
    ensures forall p :: 0 <= p < |worker.trace| && worker.trace[p].Send? ==> DecidedInView(worker.policy, worker.trace, p)
    ensures forall id :: Replies(SentIn(worker.trace), id) <= Opened(worker.trace, id)
    ensures worker.policy.Quiet(worker.trace) && NeverBack(worker.clock) ==> AllSpaced(SentIn(worker.trace))
  {
    marks := [|worker.trace|];
    for i := 0 to |steps|
      invariant worker.Idle() && old(worker.trace) <= worker.trace
      invariant StepsTaken(steps, marks, worker.trace, i) && marks[0] == |old(worker.trace)| && marks[i] == |worker.trace|
    {
      ghost var before := worker.trace;
      TakeStep(worker, steps[i]);
      StepsMore(steps, marks, before, worker.trace, i);
      marks := marks + [|worker.trace|];
    }
    RunIsSafe(worker.policy, worker.trace);
  }

  ghost predicate StepAt(step: Step, trace: seq<Act>, from: nat, to: nat) {
    from <= to <= |trace| && StepTaken(step, Replay(trace[..from]), trace[from..to])
  }

  /** The first `n` steps of a run, and where each of them begins in the history. */
  ghost predicate StepsTaken(steps: seq<Step>, marks: seq<nat>, trace: seq<Act>, n: nat) {
    && n <= |steps| && |marks| == n + 1
    && forall i :: 0 <= i < n ==> StepAt(steps[i], trace, marks[i], marks[i + 1])
  }

  lemma StepsMore(steps: seq<Step>, marks: seq<nat>, before: seq<Act>, after: seq<Act>, n: nat)
    requires n < |steps| && StepsTaken(steps, marks, before, n) && marks[n] == |before| && before <= after
    requires StepTaken(steps[n], Replay(before), after[|before|..])
    ensures StepsTaken(steps, marks + [|after|], after, n + 1)
  {
    var marks' := marks + [|after|];
    forall i | 0 <= i < n ensures StepAt(steps[i], after, marks'[i], marks'[i + 1]) {
      StepAtLater(steps[i], before, after, marks[i], marks[i + 1]);
    }
    StepAtNow(steps[n], before, after);
  }

  lemma StepAtNow(step: Step, before: seq<Act>, after: seq<Act>)
    requires before <= after && StepTaken(step, Replay(before), after[|before|..])
    ensures StepAt(step, after, |before|, |after|)
  {
    assert after[..|before|] == before && after[|before|..|after|] == after[|before|..];
  }

  lemma StepAtLater(step: Step, before: seq<Act>, after: seq<Act>, from: nat, to: nat)
    requires StepAt(step, before, from, to) && before <= after
    ensures StepAt(step, after, from, to)
  {
    assert after[..from] == before[..from] && after[from..to] == before[from..to];
  }

  method TakeStep(worker: InboundWorker, step: Step)
    requires worker.Idle()
    modifies worker
    ensures worker.Idle() && old(worker.trace) <= worker.trace
    ensures StepTaken(step, old(Replay(worker.trace)), worker.trace[|old(worker.trace)|..])
  {
    match step {
      case Arrives(id, e) =>
        worker.Deliver(id, e);
      case Marks(id, status) =>
        worker.UserMarks(id, status);
      case Batch(attempts, arrivals) =>
        var _, _ := worker.ProcessBatch(attempts, arrivals);
    }
  }

  /** The reply at `p` is warranted, and keeps its distance in view of the table at its claim. */
  ghost predicate DecidedInView(policy: Policy, trace: seq<Act>, p: nat)
    requires p < |trace| && trace[p].Send?
  {
    && policy.Warranted(trace[p].reply)
    && exists q :: 0 <= q < p && trace[q].Claim? && trace[q].id == trace[p].reply.id && policy.SpacedIn(Replay(trace[..q]).rows, trace[p].reply)
  }

  lemma RunIsSafe(policy: Policy, trace: seq<Act>)
    requires policy.LegalTrace(trace)
    ensures forall p :: 0 <= p < |trace| && trace[p].Send? ==> DecidedInView(policy, trace, p)
    ensures forall id :: Replies(SentIn(trace), id) <= Opened(trace, id)
    ensures policy.Quiet(trace) && policy.Timely(trace) ==> AllSpaced(SentIn(trace))
  {
    forall p | 0 <= p < |trace| && trace[p].Send? ensures DecidedInView(policy, trace, p) {
      var q := policy.ReplyWasDecided(trace, p);
    }
    forall id ensures Replies(SentIn(trace), id) <= Opened(trace, id) {
      policy.AtMostOnce(trace, id);
    }
    if policy.Quiet(trace) && policy.Timely(trace) {
      policy.QuietHistory(trace);
    }
  }

  // ------------------------------------------------------------------ runs that go wrong

  /** What makes the inbox forget a reply, if anything: the process dies after it, its bookkeeping
      fails, its message is delivered again meanwhile, or the user marks it as read. */
  datatype Slip = Nothing | Death | Failure | Redelivery | Reading

  function AttemptOf(slip: Slip): Attempt {
    match slip
    case Death => DiesAfterSending
    case Failure => FailsAfterSending
    case _ => Sends
  }

  /** The row of an answered event. */
  predicate LeftBy(slip: Slip, row: Record, e: Event) {
    && row.event == e
    && row.status == (match slip case Death => Pending case Failure => Failed case _ => AutoReplied)
    && (slip.Redelivery? ==> row.cooldownKey == "")
  }

  function ArrivalsOf(slip: Slip, a: string, e: Event): seq<Arrival> {
    if slip.Redelivery? then [(a, e)] else []
  }

  /** An answered event: its claim, what arrived meanwhile, its reply and what followed. */
  datatype Answer = Answer(claim: Act, meanwhile: seq<Act>, send: Act, last: Act) {
    function After(s: State): State {
      Apply(Apply(Through(Apply(s, claim)), send), last)
    }

    function Through(s: State): State {
      if meanwhile == [] then s else Apply(s, meanwhile[0])
    }
  }

  lemma AnswerParts(before: seq<Act>, after: seq<Act>, id: string, e: Event, attempt: Attempt, arrivals: seq<Arrival>, clock: nat -> int) returns (a: Answer)
    requires Answered(before, after, id, e, attempt, arrivals, clock)
    ensures after == before + [a.claim] + a.meanwhile + [a.send] + [a.last]
    ensures a.claim.Claim? && a.claim.id == id && |a.meanwhile| == |arrivals|
    ensures forall i :: 0 <= i < |arrivals| ==> IsArrival(a.meanwhile[i], arrivals[i])
    ensures a.send.Send? && a.send == after[|after| - 2] && !a.last.Send?
    ensures if attempt.DiesAfterSending? then a.last == Restart
            else a.last.Close? && a.last.id == id && a.last.status == if attempt.Sends? then AutoReplied else Failed
  {
    var n := |before| + 1 + |arrivals|;
    a := Answer(after[|before|], after[|before| + 1..n], after[n], after[n + 1]);
    assert after[..|before|] == before;
    forall i | 0 <= i < |arrivals| ensures IsArrival(a.meanwhile[i], arrivals[i]) {
      assert a.meanwhile[i] == after[|before| + 1 + i];
    }
  }

  lemma AnswerHistory(before: seq<Act>, a: Answer)
    requires a.claim.Claim? && a.send.Send? && !a.last.Send? && |a.meanwhile| <= 1 && (a.meanwhile != [] ==> a.meanwhile[0].Arrive?)
    ensures var after := before + [a.claim] + a.meanwhile + [a.send] + [a.last];
            Replay(after) == a.After(Replay(before)) && SentIn(after) == SentIn(before) + [a.send.reply]
  {
    var one := before + [a.claim];
    var two := one + a.meanwhile;
    NoReply(before, a.claim);
    if a.meanwhile == [] {
      assert two == one;
    } else {
      assert two == one + [a.meanwhile[0]];
      NoReply(one, a.meanwhile[0]);
    }
    HistoryMore(two, a.send);
    NoReply(two + [a.send], a.last);
  }

  lemma NoReply(trace: seq<Act>, act: Act)
    requires !act.Send?
    ensures Replay(trace + [act]) == Apply(Replay(trace), act) && SentIn(trace + [act]) == SentIn(trace)
  {
    HistoryMore(trace, act);
    assert SentIn(trace) + [] == SentIn(trace);
  }

  /** The row as the reply and the slip leave it. */
  lemma SlipForgets(s: State, id: string, e: Event, slip: Slip, a: Answer)
    requires s.rows.Keys == {id} && s.rows[id].event == e && s.rows[id].status == Unread
    requires a.claim.Claim? && a.claim.id == id && |a.meanwhile| == |ArrivalsOf(slip, id, e)|
    requires forall i :: 0 <= i < |a.meanwhile| ==> IsArrival(a.meanwhile[i], ArrivalsOf(slip, id, e)[i])
    requires a.send.Send?
    requires if AttemptOf(slip).DiesAfterSending? then a.last == Restart
             else a.last.Close? && a.last.id == id && a.last.status == if AttemptOf(slip).Sends? then AutoReplied else Failed
    ensures a.After(s).rows.Keys == {id} && LeftBy(slip, a.After(s).rows[id], e)
  {
    var claimed := Apply(s, a.claim);
    if slip.Redelivery? {
      assert IsArrival(a.meanwhile[0], ArrivalsOf(slip, id, e)[0]);
    }
  }

  /** A message arrives, the only unread one, and a batch replies to it. */
  method ReplyTo(worker: InboundWorker, id: string, e: Event, attempt: Attempt, arrivals: seq<Arrival>) returns (ghost arrived: seq<Act>)
    requires worker.Idle() && worker.policy.Answering(e) && attempt.GoesOut()
    requires id in worker.rows ==> worker.rows[id].event.connector == "x" && worker.rows[id].status !in {Archived, Published, Discarded}
    requires forall k :: k in worker.rows && k != id ==>
               worker.rows[k].status != Unread
               && (worker.rows[k].status in REPLY_STATUSES ==> worker.rows[k].cooldownKey != worker.policy.KeyOf(e))
    modifies worker
    ensures worker.Idle()
    ensures |arrived| == |old(worker.trace)| + 1 && old(worker.trace) <= arrived && IsArrival(arrived[|old(worker.trace)|], (id, e))
    ensures Answered(arrived, worker.trace, id, Stored(old(worker.rows), id, e, 0)[id].event, attempt, arrivals, worker.clock)
  {
    worker.Deliver(id, e);
    arrived := worker.trace;
    ghost var limit := Most(if worker.batchSize == 0 then 10 else worker.batchSize);
    ghost var stored := worker.rows[id].event;
    assert stored == e.(connector := "x") == e;
    OnlyUnreadIsPicked(worker.rows, limit, id);
    worker.policy.AnswersUnlessCooled(worker.rows, id, e);
    var _, _ := worker.ProcessBatch(k => attempt, k => arrivals);
  }

  lemma KeyIsNotEmpty(policy: Policy, e: Event)
    requires policy.Answering(e)
    ensures policy.KeyOf(e) != ""
  {
  }

  /** A reply that went out is the engine's own, under the event's key. */
  lemma ReplyIsOwn(policy: Policy, trace: seq<Act>, p: nat)
    requires policy.LegalTrace(trace) && p < |trace| && trace[p].Send? && policy.Answering(trace[p].reply.event)
    ensures trace[p].reply.rule == FirstMatch(policy.rules, trace[p].reply.event).value && trace[p].reply.key == policy.KeyOf(trace[p].reply.event)
  {
    var q := policy.ReplyWasDecided(trace, p);
  }

  /** A reply of the first rule to match this event, under its key. */
  predicate IsReplyTo(policy: Policy, r: Reply, id: string, e: Event)
    requires policy.Answering(e)
  {
    r.id == id && r.event == e && r.rule == FirstMatch(policy.rules, e).value && r.key == policy.KeyOf(e)
  }

  /** The reply of an answered event is the one that its history gains. */
  lemma ReplyGained(policy: Policy, before: seq<Act>, after: seq<Act>, id: string, e: Event, slip: Slip, clock: nat -> int)
    returns (r: Reply)
    requires Answered(before, after, id, e, AttemptOf(slip), ArrivalsOf(slip, id, e), clock)
    requires policy.LegalTrace(after) && policy.Answering(e)
    ensures SentIn(after) == SentIn(before) + [r] && IsReplyTo(policy, r, id, e)
    ensures exists t: nat :: r.sent == clock(t)
    ensures var rows := Replay(before).rows;
            rows.Keys == {id} && rows[id].event == e && rows[id].status == Unread ==>
              Replay(after).rows.Keys == {id} && LeftBy(slip, Replay(after).rows[id], e)
  {
    var a := AnswerParts(before, after, id, e, AttemptOf(slip), ArrivalsOf(slip, id, e), clock);
    if a.meanwhile != [] {
      assert IsArrival(a.meanwhile[0], ArrivalsOf(slip, id, e)[0]);
    }
    AnswerHistory(before, a);
    r := a.send.reply;
    ReplyIsOwn(policy, after, |after| - 2);
    var s := Replay(before);
    if s.rows.Keys == {id} && s.rows[id].event == e && s.rows[id].status == Unread {
      SlipForgets(s, id, e, slip, a);
    }
  }

  /** One message and its reply. */
  method Exchange(worker: InboundWorker, id: string, e: Event, slip: Slip) returns (ghost r: Reply)
    requires worker.Idle() && worker.policy.Answering(e)
    requires id in worker.rows ==> worker.rows[id].event.connector == "x" && worker.rows[id].status !in {Archived, Published, Discarded}
    requires forall k :: k in worker.rows && k != id ==>
               worker.rows[k].status != Unread
               && (worker.rows[k].status in REPLY_STATUSES ==> worker.rows[k].cooldownKey != worker.policy.KeyOf(e))
    modifies worker
    ensures worker.Idle()
    ensures SentIn(worker.trace) == SentIn(old(worker.trace)) + [r] && IsReplyTo(worker.policy, r, id, e)
    ensures exists t: nat :: r.sent == worker.clock(t)
    ensures old(worker.rows).Keys <= {id} ==> worker.rows.Keys == {id} && LeftBy(slip, worker.rows[id], e)
  {
    ghost var before, rows := worker.trace, worker.rows;
    ghost var arrived := ReplyTo(worker, id, e, AttemptOf(slip), ArrivalsOf(slip, id, e));
    ArrivedAs(before, arrived, rows, id, e);
    r := ReplyGained(worker.policy, arrived, worker.trace, id, e, slip, worker.clock);
  }

  lemma ArrivedAs(before: seq<Act>, arrived: seq<Act>, rows: map<string, Record>, id: string, e: Event)
    requires |arrived| == |before| + 1 && before <= arrived && IsArrival(arrived[|before|], (id, e))
    requires Replay(before).rows == rows && e.connector == "x"
    requires id in rows ==> rows[id].event.connector == "x" && rows[id].status !in {Archived, Published, Discarded}
    ensures SentIn(arrived) == SentIn(before)
    ensures rows.Keys <= {id} ==> Replay(arrived).rows.Keys == {id}
    ensures Replay(arrived).rows[id].event == e && Replay(arrived).rows[id].status == Unread
  {
    var act := arrived[|before|];
    assert arrived == before + [act];
    NoReply(before, act);
    assert Replay(arrived).rows == Stored(rows, id, e, act.at);
  }

  method ForgottenExchange(worker: InboundWorker, id: string, e: Event, slip: Slip) returns (ghost r: Reply)
    requires worker.Idle() && worker.trace == [] && worker.policy.Answering(e) && slip != Nothing
    modifies worker
    ensures worker.Idle() && SentIn(worker.trace) == [r] && IsReplyTo(worker.policy, r, id, e)
    ensures exists t: nat :: r.sent == worker.clock(t)
    ensures worker.rows.Keys == {id} && worker.rows[id].status != Unread
    ensures worker.rows[id].status in REPLY_STATUSES ==> worker.rows[id].cooldownKey == ""
  {
    r := Exchange(worker, id, e, slip);
    assert SentIn(worker.trace) == [] + [r] == [r];
    if slip.Reading? {
      MarkRead(worker, id);
    }
  }

  method MarkRead(worker: InboundWorker, id: string)
    requires worker.Idle() && id in worker.rows
    modifies worker
    ensures worker.Idle() && SentIn(worker.trace) == SentIn(old(worker.trace))
    ensures worker.rows.Keys == old(worker.rows).Keys && worker.rows[id].status == Read
  {
    ghost var before := worker.trace;
    worker.UserMarks(id, Read);
    NoReply(before, worker.trace[|before|]);
  }

  /** Each slip leads to two replies at one moment under one key, to different events, though the rule's
      cooldown is positive and the clock never runs backwards. */
  method TwoCloseReplies(policy: Policy, a: string, b: string, ea: Event, eb: Event, slip: Slip) returns (worker: InboundWorker)
    requires a != b && policy.Answering(ea) && policy.Answering(eb) && slip != Nothing
    requires FirstMatch(policy.rules, ea) == FirstMatch(policy.rules, eb) && FirstMatch(policy.rules, ea).value.cooldownSeconds > 0
    requires policy.KeyOf(ea) == policy.KeyOf(eb)
    ensures worker.Idle() && NeverBack(worker.clock)
    ensures |SentIn(worker.trace)| == 2 && SentIn(worker.trace)[0].id == a && SentIn(worker.trace)[1].id == b
    ensures !AllSpaced(SentIn(worker.trace))
  {
    worker := new InboundWorker(policy, 10, k => 0);
    KeyIsNotEmpty(policy, eb);
    ghost var r1 := ForgottenExchange(worker, a, ea, slip);
    ghost var r2 := Exchange(worker, b, eb, Nothing);
    assert SentIn(worker.trace) == [r1] + [r2] == [r1, r2];
    assert !Apart(r1, r2);
  }

  /** A message that is delivered again after its reply is answered again. */
  method AnsweredTwice(policy: Policy, id: string, e: Event) returns (worker: InboundWorker)
    requires policy.Answering(e)
    ensures worker.Idle() && |SentIn(worker.trace)| == 2
    ensures SentIn(worker.trace)[0].id == SentIn(worker.trace)[1].id == id
  {
    worker := new InboundWorker(policy, 10, k => 0);
    ghost var r1 := Exchange(worker, id, e, Nothing);
    ghost var r2 := Exchange(worker, id, e, Nothing);
    assert SentIn(worker.trace) == [] + [r1] + [r2] == [r1, r2];
  }
}
