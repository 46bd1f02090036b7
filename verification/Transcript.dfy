/**
  The in-memory transcript of one agent session and the two passes that rewrite it between turns:
  `_sanitize_context`, which strips tool calls and results that lost their partner, and
  `_prune_ephemeral_tools`, which forgets memory-keeping calls.

  Both passes are defined on messages, branch for branch as the loop does it, and are reasoned
  about on the flattened sequence of items that a provider sees.
 */
module Transcript {

  datatype Json =
    | JNull
    | JBool(b: bool)
    | JNum(n: int)
    | JStr(s: string)
    | JArr(items: seq<Json>)
    | JObj(fields: map<string, Json>)

  type Args = map<string, Json>

  datatype ToolCall = ToolCall(id: string, name: string, input: Args)

  datatype Block = Text(text: string) | ToolUse(call: ToolCall) | OtherBlock(raw: string)

  /** `turn` marks a real user turn; summaries and working-state notes are user messages too. */
  datatype Message =
    | User(text: string, turn: bool)
    | Assistant(text: string)
    | AssistantBlocks(blocks: seq<Block>)
    | ToolResult(id: string, name: string, content: string)

  /** What a provider sees of a message, one piece at a time. */
  datatype Item =
    | Said(text: string, turn: bool)
    | Wrote(text: string)
    | Called(call: ToolCall)
    | Misc(raw: string)
    | Answered(id: string, name: string, content: string)

  const EPHEMERAL_TOOLS: set<string> := {"remember_skill", "evolve_skill", "remember"}

  // ------------------------------------------------------------------ flattening

  function BlockItem(b: Block): Item {
    match b
    case Text(t) => Wrote(t)
    case ToolUse(c) => Called(c)
    case OtherBlock(r) => Misc(r)
  }

  function BlockItems(bs: seq<Block>): (r: seq<Item>)
    ensures |r| == |bs|
  {
    if bs == [] then [] else [BlockItem(bs[0])] + BlockItems(bs[1..])
  }

  function MessageItems(m: Message): seq<Item> {
    match m
    case User(t, turn) => [Said(t, turn)]
    case Assistant(t) => [Wrote(t)]
    case AssistantBlocks(bs) => BlockItems(bs)
    case ToolResult(id, name, content) => [Answered(id, name, content)]
  }

  function Items(ctx: seq<Message>): seq<Item> {
    if ctx == [] then [] else MessageItems(ctx[0]) + Items(ctx[1..])
  }

  function CalledIds(items: seq<Item>): set<string> {
    set it | it in items && it.Called? :: it.call.id
  }

  function AnsweredIds(items: seq<Item>): set<string> {
    set it | it in items && it.Answered? :: it.id
  }

  // ------------------------------------------------------------------ pairing

  /** The requirement of every tool-calling provider API: calls and results have the same ids,
      and each result stands after a call that it answers. */
  ghost predicate Paired(items: seq<Item>) {
    && CalledIds(items) == AnsweredIds(items)
    && ResultsFollowCalls(items)
  }

  ghost predicate ResultsFollowCalls(items: seq<Item>) {
    forall j :: 0 <= j < |items| && items[j].Answered? ==> items[j].id in CalledIds(items[..j])
  }

  /** Some result for `id` stands after a call with that id. */
  ghost predicate AnsweredInOrder(items: seq<Item>, id: string) {
    exists j :: 0 <= j < |items| && items[j].Answered? && items[j].id == id && id in CalledIds(items[..j])
  }

  /** Every id that is both called and answered is answered after a call. */
  ghost predicate MatchedInOrder(items: seq<Item>) {
    forall id :: id in CalledIds(items) && id in AnsweredIds(items) && id != "" ==> AnsweredInOrder(items, id)
  }

  // ------------------------------------------------------------------ sanitize

  /** Ids with a result; results with an empty id satisfy nothing. */
  function Satisfied(ctx: seq<Message>): set<string> {
    set m | m in ctx && m.ToolResult? && m.id != "" :: m.id
  }

  function BlockCalls(bs: seq<Block>): set<string> {
    set b | b in bs && b.ToolUse? :: b.call.id
  }

  function KeepBlocks(bs: seq<Block>, satisfied: set<string>): seq<Block> {
    if bs == [] then []
    else if bs[0].ToolUse? && bs[0].call.id !in satisfied then KeepBlocks(bs[1..], satisfied)
    else [bs[0]] + KeepBlocks(bs[1..], satisfied)
  }

  /** A message left with one text block becomes a plain text message. */
  function Collapse(bs: seq<Block>): Message {
    if |bs| == 1 && bs[0].Text? then Assistant(bs[0].text) else AssistantBlocks(bs)
  }

  /** One message of the sanitizing walk: what it becomes and which call ids are live after it. */
  function CleanMessage(m: Message, satisfied: set<string>, active: set<string>): (seq<Message>, set<string>) {
    match m
    case AssistantBlocks(bs) =>
      if BlockCalls(bs) <= satisfied then ([m], active + BlockCalls(bs))
      else
        var kept := KeepBlocks(bs, satisfied);
        (if kept == [] then [] else [Collapse(kept)], active + BlockCalls(kept))
    case ToolResult(id, _, _) => (if id in active then [m] else [], active)
    case _ => ([m], active)
  }

  function CleanFrom(ctx: seq<Message>, satisfied: set<string>, active: set<string>): seq<Message> {
    if ctx == [] then []
    else
      var (out, live) := CleanMessage(ctx[0], satisfied, active);
      out + CleanFrom(ctx[1..], satisfied, live)
  }

  function Sanitize(ctx: seq<Message>): seq<Message> {
    CleanFrom(ctx, Satisfied(ctx), {})
  }

  method CollectSatisfied(ctx: seq<Message>) returns (satisfied: set<string>)
    ensures satisfied == Satisfied(ctx)
  {
    satisfied := {};
    for i := 0 to |ctx|
      invariant satisfied == Satisfied(ctx[..i])
    {
      if ctx[i].ToolResult? && ctx[i].id != "" {
        satisfied := satisfied + {ctx[i].id};
      }
      assert ctx[..i + 1] == ctx[..i] + [ctx[i]];
    }
    assert ctx[..|ctx|] == ctx;
  }

  method CleanOne(m: Message, satisfied: set<string>, active: set<string>)
    returns (out: seq<Message>, live: set<string>, stripped: nat)
    ensures (out, live) == CleanMessage(m, satisfied, active)
    ensures stripped == 0 ==> out == [m]
  {
    out, live, stripped := [m], active, 0;
    if m.AssistantBlocks? {
      var unsatisfied := BlockCalls(m.blocks) - satisfied;
      assert forall id :: id in BlockCalls(m.blocks) && id !in satisfied ==> id in unsatisfied;
      if unsatisfied != {} {
        assert exists id :: id in unsatisfied;
        stripped := |unsatisfied|;
        var kept := KeepBlocks(m.blocks, satisfied);
        out := if kept == [] then [] else [Collapse(kept)];
        live := active + BlockCalls(kept);
      } else {
        live := active + BlockCalls(m.blocks);
      }
    } else if m.ToolResult? && m.id !in active {
      out, stripped := [], 1;
    }
  }

  lemma Regroup(a: seq<Message>, b: seq<Message>, c: seq<Message>)
    ensures a + (b + c) == a + b + c
  {
  }

  /** The sanitizing walk; `removed` counts what it stripped and is 0 only if it changed nothing. */
  method CleanTranscript(ctx: seq<Message>, satisfied: set<string>) returns (cleaned: seq<Message>, removed: nat)
    ensures cleaned == CleanFrom(ctx, satisfied, {})
    ensures removed == 0 ==> cleaned == ctx
  {
    cleaned, removed := [], 0;
    var active: set<string> := {};
    for i := 0 to |ctx|
      invariant cleaned + CleanFrom(ctx[i..], satisfied, active) == CleanFrom(ctx, satisfied, {})
      invariant removed == 0 ==> cleaned == ctx[..i]
    {
      var out, live, stripped := CleanOne(ctx[i], satisfied, active);
      assert ctx[i..][0] == ctx[i] && ctx[i..][1..] == ctx[i + 1..];
      assert CleanFrom(ctx[i..], satisfied, active) == out + CleanFrom(ctx[i + 1..], satisfied, live);
      Regroup(cleaned, out, CleanFrom(ctx[i + 1..], satisfied, live));
      assert ctx[..i + 1] == ctx[..i] + [ctx[i]];
      cleaned, active, removed := cleaned + out, live, removed + stripped;
    }
    assert ctx[..|ctx|] == ctx && ctx[|ctx|..] == [];
  }

  // ------------------------------------------------------------------ prune

  function EphemeralIds(ctx: seq<Message>): set<string> {
    set it | it in Items(ctx) && it.Called? && it.call.name in EPHEMERAL_TOOLS :: it.call.id
  }

  function ForgetBlocks(bs: seq<Block>, ids: set<string>): seq<Block> {
    if bs == [] then []
    else if bs[0].ToolUse? && bs[0].call.id in ids then ForgetBlocks(bs[1..], ids)
    else [bs[0]] + ForgetBlocks(bs[1..], ids)
  }

  function ForgetMessage(m: Message, ids: set<string>): seq<Message> {
    match m
    case AssistantBlocks(bs) =>
      var kept := ForgetBlocks(bs, ids);
      if kept == [] then [] else [Collapse(kept)]
    case ToolResult(id, _, _) => if id in ids then [] else [m]
    case _ => [m]
  }

  function ForgetFrom(ctx: seq<Message>, ids: set<string>): seq<Message> {
    if ctx == [] then [] else ForgetMessage(ctx[0], ids) + ForgetFrom(ctx[1..], ids)
  }

  function Prune(ctx: seq<Message>): seq<Message> {
    var ids := EphemeralIds(ctx);
    if ids == {} then ctx else ForgetFrom(ctx, ids)
  }

  method CollectEphemeral(ctx: seq<Message>) returns (ids: set<string>)
    ensures ids == EphemeralIds(ctx)
  {
    ids := {};
    for i := 0 to |ctx|
      invariant ids == EphemeralIds(ctx[..i])
    {
      var m := ctx[i];
      assert ctx[..i + 1] == ctx[..i] + [m];
      ItemsConcat(ctx[..i], [m]);
      assert Items([m]) == MessageItems(m);
      assert EphemeralIds(ctx[..i + 1]) == EphemeralIds(ctx[..i]) + EphemeralIds([m]);
      if m.AssistantBlocks? {
        var items := BlockItems(m.blocks);
        ids := ids + set it | it in items && it.Called? && it.call.name in EPHEMERAL_TOOLS :: it.call.id;
      }
    }
    assert ctx[..|ctx|] == ctx;
  }

  method ForgetTranscript(ctx: seq<Message>, ids: set<string>) returns (pruned: seq<Message>)
    ensures pruned == ForgetFrom(ctx, ids)
  {
    pruned := [];
    for i := 0 to |ctx|
      invariant pruned + ForgetFrom(ctx[i..], ids) == ForgetFrom(ctx, ids)
    {
      var m := ctx[i];
      var out := [m];
      if m.AssistantBlocks? {
        var kept := ForgetBlocks(m.blocks, ids);
        out := if kept == [] then [] else [Collapse(kept)];
      } else if m.ToolResult? && m.id in ids {
        out := [];
      }
      assert ctx[i..][0] == m && ctx[i..][1..] == ctx[i + 1..];
      assert ForgetFrom(ctx[i..], ids) == out + ForgetFrom(ctx[i + 1..], ids);
      Regroup(pruned, out, ForgetFrom(ctx[i + 1..], ids));
      pruned := pruned + out;
    }
    assert ctx[|ctx|..] == [];
  }

  // ------------------------------------------------------------------ the passes on items

  function KeepItems(items: seq<Item>, satisfied: set<string>, active: set<string>): seq<Item> {
    if items == [] then []
    else match items[0]
      case Called(c) =>
        if c.id in satisfied then [items[0]] + KeepItems(items[1..], satisfied, active + {c.id})
        else KeepItems(items[1..], satisfied, active)
      case Answered(id, _, _) =>
        if id in active then [items[0]] + KeepItems(items[1..], satisfied, active)
        else KeepItems(items[1..], satisfied, active)
      case _ => [items[0]] + KeepItems(items[1..], satisfied, active)
  }

  function DropItems(items: seq<Item>, ids: set<string>): seq<Item> {
    if items == [] then []
    else if (items[0].Called? && items[0].call.id in ids) || (items[0].Answered? && items[0].id in ids)
    then DropItems(items[1..], ids)
    else [items[0]] + DropItems(items[1..], ids)
  }

  lemma IdsConcat(a: seq<Item>, b: seq<Item>)
    ensures CalledIds(a + b) == CalledIds(a) + CalledIds(b)
    ensures AnsweredIds(a + b) == AnsweredIds(a) + AnsweredIds(b)
  {
  }

  lemma IdsHead(items: seq<Item>)
    requires items != []
    ensures CalledIds(items) == CalledIds([items[0]]) + CalledIds(items[1..])
    ensures AnsweredIds(items) == AnsweredIds([items[0]]) + AnsweredIds(items[1..])
    ensures CalledIds([items[0]]) == if items[0].Called? then {items[0].call.id} else {}
    ensures AnsweredIds([items[0]]) == if items[0].Answered? then {items[0].id} else {}
  {
    assert items == [items[0]] + items[1..];
    IdsConcat([items[0]], items[1..]);
  }

  lemma {:induction false} ItemsConcat(a: seq<Message>, b: seq<Message>)
    ensures Items(a + b) == Items(a) + Items(b)
  {
    if a == [] {
      assert a + b == b;
    } else {
      var ab := a + b;
      assert ab[0] == a[0] && ab[1..] == a[1..] + b;
      calc {
        Items(ab);
        MessageItems(a[0]) + Items(a[1..] + b);
        { ItemsConcat(a[1..], b); }
        MessageItems(a[0]) + (Items(a[1..]) + Items(b));
        { ConcatAssoc(MessageItems(a[0]), Items(a[1..]), Items(b)); }
        Items(a) + Items(b);
      }
    }
  }

  lemma ConcatAssoc(a: seq<Item>, b: seq<Item>, c: seq<Item>)
    ensures a + (b + c) == a + b + c
  {
  }

  lemma {:induction false} KeepConcat(a: seq<Item>, b: seq<Item>, sat: set<string>, act: set<string>)
    ensures KeepItems(a + b, sat, act) == KeepItems(a, sat, act) + KeepItems(b, sat, act + CalledIds(a) * sat)
  {
    if a == [] {
      assert a + b == b;
      assert act + CalledIds(a) * sat == act;
    } else {
      assert (a + b)[0] == a[0] && (a + b)[1..] == a[1..] + b;
      var act' := if a[0].Called? && a[0].call.id in sat then act + {a[0].call.id} else act;
      LiveAfterHead(a, sat, act);
      KeepConcat(a[1..], b, sat, act');
      if a[0].Called? || a[0].Answered? {
        ConcatAssoc([a[0]], KeepItems(a[1..], sat, act'), KeepItems(b, sat, act + CalledIds(a) * sat));
      }
    }
  }

  lemma LiveAfterHead(a: seq<Item>, sat: set<string>, act: set<string>)
    requires a != []
    ensures (if a[0].Called? && a[0].call.id in sat then act + {a[0].call.id} else act) + CalledIds(a[1..]) * sat
         == act + CalledIds(a) * sat
  {
    IdsHead(a);
  }

  lemma {:induction false} DropConcat(a: seq<Item>, b: seq<Item>, ids: set<string>)
    ensures DropItems(a + b, ids) == DropItems(a, ids) + DropItems(b, ids)
  {
    if a == [] {
      assert a + b == b;
    } else {
      DropConcat(a[1..], b, ids);
      assert (a + b)[0] == a[0] && (a + b)[1..] == a[1..] + b;
      ConcatAssoc([a[0]], DropItems(a[1..], ids), DropItems(b, ids));
    }
  }

  lemma {:induction false} KeptBlockItems(bs: seq<Block>, sat: set<string>, act: set<string>)
    ensures BlockItems(KeepBlocks(bs, sat)) == KeepItems(BlockItems(bs), sat, act)
  {
    if bs != [] {
      forall a { KeptBlockItems(bs[1..], sat, a); }
    }
  }

  lemma {:induction false} BlockItemIds(bs: seq<Block>)
    ensures CalledIds(BlockItems(bs)) == BlockCalls(bs)
    ensures AnsweredIds(BlockItems(bs)) == {}
  {
    if bs != [] {
      BlockItemIds(bs[1..]);
      IdsHead(BlockItems(bs));
      assert bs == [bs[0]] + bs[1..];
      assert BlockCalls(bs) == BlockCalls([bs[0]]) + BlockCalls(bs[1..]);
    }
  }

  lemma {:induction false} KeepBlocksAll(bs: seq<Block>, sat: set<string>)
    requires BlockCalls(bs) <= sat
    ensures KeepBlocks(bs, sat) == bs
  {
    if bs != [] {
      assert forall b :: b in bs[1..] ==> b in bs;
      assert bs[0] in bs;
      KeepBlocksAll(bs[1..], sat);
    }
  }

  lemma CollapseItems(bs: seq<Block>)
    ensures MessageItems(Collapse(bs)) == BlockItems(bs)
  {
    if |bs| == 1 {
      assert BlockItems(bs[1..]) == [];
    }
  }

  lemma CleanMessageItems(m: Message, sat: set<string>, act: set<string>)
    ensures var (out, live) := CleanMessage(m, sat, act);
            Items(out) == KeepItems(MessageItems(m), sat, act) && live == act + CalledIds(MessageItems(m)) * sat
  {
    var (out, live) := CleanMessage(m, sat, act);
    match m
    case AssistantBlocks(bs) =>
      KeptBlockItems(bs, sat, act);
      BlockItemIds(bs);
      if BlockCalls(bs) <= sat {
        KeepBlocksAll(bs, sat);
        assert BlockCalls(bs) * sat == BlockCalls(bs);
        assert Items([m]) == MessageItems(m);
      } else {
        var kept := KeepBlocks(bs, sat);
        CollapseItems(kept);
        BlockItemIds(kept);
        KeptIds(BlockItems(bs), sat, act);
        assert Items([Collapse(kept)]) == MessageItems(Collapse(kept)) + Items([]);
      }
    case ToolResult(id, _, _) =>
      assert Items([m]) == MessageItems(m);
      assert CalledIds(MessageItems(m)) == {};
    case _ =>
      assert Items([m]) == MessageItems(m);
      assert CalledIds(MessageItems(m)) == {};
  }

  /** The calls that sanitizing keeps are exactly the satisfied ones. */
  lemma {:induction false} KeptIds(items: seq<Item>, sat: set<string>, act: set<string>)
    ensures CalledIds(KeepItems(items, sat, act)) == CalledIds(items) * sat
  {
    if items != [] {
      IdsHead(items);
      var rest := items[1..];
      if items[0].Called? && items[0].call.id in sat {
        KeptIds(rest, sat, act + {items[0].call.id});
        IdsConcat([items[0]], KeepItems(rest, sat, act + {items[0].call.id}));
      } else {
        KeptIds(rest, sat, act);
        IdsConcat([items[0]], KeepItems(rest, sat, act));
      }
    }
  }

  lemma {:induction false} CleanItems(ctx: seq<Message>, sat: set<string>, act: set<string>)
    ensures Items(CleanFrom(ctx, sat, act)) == KeepItems(Items(ctx), sat, act)
  {
    if ctx != [] {
      CleanMessageItems(ctx[0], sat, act);
      var (out, live) := CleanMessage(ctx[0], sat, act);
      CleanItems(ctx[1..], sat, live);
      KeepConcat(MessageItems(ctx[0]), Items(ctx[1..]), sat, act);
      ItemsConcat(out, CleanFrom(ctx[1..], sat, live));
    }
  }

  lemma {:induction false} SatisfiedIds(ctx: seq<Message>)
    ensures Satisfied(ctx) == AnsweredIds(Items(ctx)) - {""}
  {
    if ctx != [] {
      SatisfiedIds(ctx[1..]);
      IdsConcat(MessageItems(ctx[0]), Items(ctx[1..]));
      var m := ctx[0];
      assert ctx == [m] + ctx[1..];
      assert Satisfied(ctx) == Satisfied([m]) + Satisfied(ctx[1..]);
      assert AnsweredIds(MessageItems(m)) == if m.ToolResult? then {m.id} else {} by {
        if m.AssistantBlocks? {
          BlockItemIds(m.blocks);
        }
      }
      assert Satisfied([m]) == if m.ToolResult? then {m.id} - {""} else {};
    }
  }

  /** Sanitizing, on items: keep satisfied calls, then results whose call was kept before them. */
  lemma SanitizeItems(ctx: seq<Message>)
    ensures Items(Sanitize(ctx)) == KeepItems(Items(ctx), AnsweredIds(Items(ctx)) - {""}, {})
  {
    CleanItems(ctx, Satisfied(ctx), {});
    SatisfiedIds(ctx);
  }

  // ------------------------------------------------------------------ answers in order, recursively

  function AnsweredAfter(items: seq<Item>, seen: set<string>): set<string> {
    if items == [] then {}
    else match items[0]
      case Called(c) => AnsweredAfter(items[1..], seen + {c.id})
      case Answered(id, _, _) => (if id in seen then {id} else {}) + AnsweredAfter(items[1..], seen)
      case _ => AnsweredAfter(items[1..], seen)
  }

  predicate Follows(items: seq<Item>, seen: set<string>) {
    items == [] ||
    match items[0]
    case Called(c) => Follows(items[1..], seen + {c.id})
    case Answered(id, _, _) => id in seen && Follows(items[1..], seen)
    case _ => Follows(items[1..], seen)
  }

  lemma PrefixIds(items: seq<Item>, j: int)
    requires 0 < j <= |items|
    ensures CalledIds(items[..j]) == CalledIds([items[0]]) + CalledIds(items[1..][..j - 1])
  {
    assert items[..j] == [items[0]] + items[1..][..j - 1];
    IdsConcat([items[0]], items[1..][..j - 1]);
  }

  lemma {:induction false} AnsweredAfterMeaning(items: seq<Item>, seen: set<string>, id: string)
    ensures id in AnsweredAfter(items, seen) <==>
            exists j :: 0 <= j < |items| && items[j].Answered? && items[j].id == id && id in seen + CalledIds(items[..j])
  {
    if items != [] {
      var rest := items[1..];
      var seen' := if items[0].Called? then seen + {items[0].call.id} else seen;
      AnsweredAfterMeaning(rest, seen', id);
      assert CalledIds([items[0]]) == if items[0].Called? then {items[0].call.id} else {};
      if j :| 0 <= j < |items| && items[j].Answered? && items[j].id == id && id in seen + CalledIds(items[..j]) {
        if j == 0 {
          assert items[..0] == [];
        } else {
          PrefixIds(items, j);
          assert rest[j - 1] == items[j];
          assert id in seen' + CalledIds(rest[..j - 1]);
        }
      }
      if j :| 0 <= j < |rest| && rest[j].Answered? && rest[j].id == id && id in seen' + CalledIds(rest[..j]) {
        PrefixIds(items, j + 1);
        assert items[j + 1] == rest[j];
      }
      if items[0].Answered? && items[0].id == id && id in seen {
        assert items[0].Answered? && id in seen + CalledIds(items[..0]);
      }
    }
  }

  lemma {:induction false} FollowsMeaning(items: seq<Item>, seen: set<string>)
    ensures Follows(items, seen) <==>
            forall j :: 0 <= j < |items| && items[j].Answered? ==> items[j].id in seen + CalledIds(items[..j])
  {
    if items != [] {
      var rest := items[1..];
      var seen' := if items[0].Called? then seen + {items[0].call.id} else seen;
      FollowsMeaning(rest, seen');
      assert CalledIds([items[0]]) == if items[0].Called? then {items[0].call.id} else {};
      forall j | 0 <= j < |rest|
        ensures seen' + CalledIds(rest[..j]) == seen + CalledIds(items[..j + 1]) && rest[j] == items[j + 1]
      {
        PrefixIds(items, j + 1);
      }
      assert items[..0] == [];
      if forall j :: 0 <= j < |items| && items[j].Answered? ==> items[j].id in seen + CalledIds(items[..j]) {
        forall j | 0 <= j < |rest| && rest[j].Answered?
          ensures rest[j].id in seen' + CalledIds(rest[..j])
        {
          assert items[j + 1].Answered?;
        }
        assert items[0].Answered? ==> items[0].id in seen + CalledIds(items[..0]);
      }
      if Follows(items, seen) {
        forall j | 0 <= j < |items| && items[j].Answered?
          ensures items[j].id in seen + CalledIds(items[..j])
        {
          if j > 0 {
            assert rest[j - 1] == items[j];
          }
        }
      }
    }
  }

  lemma FollowsIsResultsFollowCalls(items: seq<Item>)
    ensures Follows(items, {}) <==> ResultsFollowCalls(items)
  {
    FollowsMeaning(items, {});
    forall j | 0 <= j < |items| ensures {} + CalledIds(items[..j]) == CalledIds(items[..j]) {}
  }

  lemma AnsweredInOrderIsAfter(items: seq<Item>, id: string)
    ensures AnsweredInOrder(items, id) <==> id in AnsweredAfter(items, {})
  {
    AnsweredAfterMeaning(items, {}, id);
    forall j | 0 <= j < |items| ensures {} + CalledIds(items[..j]) == CalledIds(items[..j]) {}
  }

  lemma {:induction false} AnsweredAfterBounds(items: seq<Item>, seen: set<string>)
    ensures AnsweredAfter(items, seen) <= AnsweredIds(items)
    ensures AnsweredAfter(items, seen) <= seen + CalledIds(items)
    ensures Follows(items, seen) ==> AnsweredAfter(items, seen) == AnsweredIds(items)
  {
    if items != [] {
      IdsHead(items);
      AnsweredAfterBounds(items[1..], if items[0].Called? then seen + {items[0].call.id} else seen);
    }
  }

  // ------------------------------------------------------------------ what one pass of sanitize leaves

  /** After one pass every surviving result stands after a surviving call. */
  lemma {:induction false} KeptFollows(items: seq<Item>, sat: set<string>, act: set<string>)
    ensures Follows(KeepItems(items, sat, act), act)
  {
    if items != [] {
      forall a { KeptFollows(items[1..], sat, a); }
    }
  }

  lemma {:induction false} KeptAnswers(items: seq<Item>, sat: set<string>, act: set<string>, seen: set<string>)
    requires act == seen * sat
    ensures AnsweredIds(KeepItems(items, sat, act)) == AnsweredAfter(items, seen) * sat
  {
    if items != [] {
      var rest := items[1..];
      match items[0]
      case Called(c) =>
        KeptAnswers(rest, sat, (seen + {c.id}) * sat, seen + {c.id});
        if c.id in sat {
          assert act + {c.id} == (seen + {c.id}) * sat;
          IdsConcat([items[0]], KeepItems(rest, sat, act + {c.id}));
        } else {
          assert act == (seen + {c.id}) * sat;
        }
      case Answered(id, _, _) =>
        KeptAnswers(rest, sat, act, seen);
        IdsConcat([items[0]], KeepItems(rest, sat, act));
        assert AnsweredIds([items[0]]) == {id};
      case _ =>
        KeptAnswers(rest, sat, act, seen);
        IdsConcat([items[0]], KeepItems(rest, sat, act));
    }
  }

  /** A pass that finds nothing to strip leaves every message as it is. */
  lemma {:induction false} CleanNothing(ctx: seq<Message>, sat: set<string>, act: set<string>)
    requires CalledIds(Items(ctx)) <= sat && Follows(Items(ctx), act)
    ensures CleanFrom(ctx, sat, act) == ctx
  {
    if ctx != [] {
      var m, rest := ctx[0], ctx[1..];
      IdsConcat(MessageItems(m), Items(rest));
      FollowsSplit(MessageItems(m), Items(rest), act);
      match m
      case AssistantBlocks(bs) =>
        BlockItemIds(bs);
        CleanNothing(rest, sat, act + BlockCalls(bs));
      case ToolResult(id, _, _) =>
        assert Items(ctx)[0] == Answered(id, m.name, m.content);
        assert CalledIds(MessageItems(m)) == {} && act + {} == act;
        CleanNothing(rest, sat, act);
      case _ =>
        assert CalledIds(MessageItems(m)) == {} && act + {} == act;
        CleanNothing(rest, sat, act);
    }
  }

  lemma {:induction false} FollowsSplit(a: seq<Item>, b: seq<Item>, seen: set<string>)
    ensures Follows(a + b, seen) <==> Follows(a, seen) && Follows(b, seen + CalledIds(a))
  {
    if a == [] {
      assert a + b == b && seen + CalledIds(a) == seen;
    } else {
      assert (a + b)[1..] == a[1..] + b;
      IdsHead(a);
      var seen' := if a[0].Called? then seen + {a[0].call.id} else seen;
      FollowsSplit(a[1..], b, seen');
      assert seen' + CalledIds(a[1..]) == seen + CalledIds(a);
    }
  }

  lemma OnePass(ctx: seq<Message>)
    ensures var items, s := Items(ctx), Items(Sanitize(ctx));
            && CalledIds(s) == CalledIds(items) * (AnsweredIds(items) - {""})
            && AnsweredIds(s) == AnsweredAfter(items, {}) * (AnsweredIds(items) - {""})
            && Follows(s, {})
            && AnsweredIds(s) <= CalledIds(s)
  {
    var items := Items(ctx);
    var sat := AnsweredIds(items) - {""};
    SanitizeItems(ctx);
    KeptIds(items, sat, {});
    KeptFollows(items, sat, {});
    KeptAnswers(items, sat, {}, {});
    AnsweredAfterBounds(items, {});
  }

  lemma PairedMeans(items: seq<Item>)
    ensures Paired(items) <==> CalledIds(items) == AnsweredIds(items) && Follows(items, {})
  {
    FollowsIsResultsFollowCalls(items);
  }

  /** A transcript that is already paired is left alone, unless it uses the empty id. */
  lemma SanitizeKeepsPaired(ctx: seq<Message>)
    requires Paired(Items(ctx)) && "" !in CalledIds(Items(ctx))
    ensures Sanitize(ctx) == ctx
  {
    PairedMeans(Items(ctx));
    SatisfiedIds(ctx);
    CleanNothing(ctx, Satisfied(ctx), {});
  }

  /** Two passes of sanitize always reach a fixpoint, and the fixpoint is paired. */
  lemma SanitizeTwiceSettles(ctx: seq<Message>)
    ensures Sanitize(Sanitize(Sanitize(ctx))) == Sanitize(Sanitize(ctx))
    ensures Paired(Items(Sanitize(Sanitize(ctx))))
  {
    var once := Sanitize(ctx);
    var twice := Sanitize(once);
    OnePass(ctx);
    OnePass(once);
    AnsweredAfterBounds(Items(once), {});
    assert CalledIds(Items(twice)) == AnsweredIds(Items(twice));
    PairedMeans(Items(twice));
    SanitizeKeepsPaired(twice);
  }

  /** One pass suffices exactly when every id that is both called and answered is answered
      after a call; an answer that stands only before its call is what takes a second pass. */
  lemma SanitizeOnceSuffices(ctx: seq<Message>)
    ensures Paired(Items(Sanitize(ctx))) <==> MatchedInOrder(Items(ctx))
    ensures Sanitize(Sanitize(ctx)) == Sanitize(ctx) <==> MatchedInOrder(Items(ctx))
  {
    var items, once := Items(ctx), Sanitize(ctx);
    OnePass(ctx);
    OnePass(once);
    PairedMeans(Items(once));
    forall id ensures AnsweredInOrder(items, id) <==> id in AnsweredAfter(items, {}) {
      AnsweredInOrderIsAfter(items, id);
    }
    AnsweredAfterBounds(items, {});
    if MatchedInOrder(items) {
      assert CalledIds(Items(once)) <= AnsweredIds(Items(once));
      SanitizeKeepsPaired(once);
    }
    if CalledIds(Items(once)) == AnsweredIds(Items(once)) {
      forall id | id in CalledIds(items) && id in AnsweredIds(items) && id != ""
        ensures AnsweredInOrder(items, id)
      {
        assert id in CalledIds(Items(once));
      }
    }
    if Sanitize(once) == once {
      AnsweredAfterBounds(Items(once), {});
      assert CalledIds(Items(once)) <= AnsweredIds(Items(once));
    }
  }

  /** The items that are neither calls nor results, and those of the ids in `ids`. */
  function Restrict(items: seq<Item>, ids: set<string>): seq<Item> {
    if items == [] then []
    else if (items[0].Called? && items[0].call.id !in ids) || (items[0].Answered? && items[0].id !in ids)
    then Restrict(items[1..], ids)
    else [items[0]] + Restrict(items[1..], ids)
  }

  /** Sanitizing never loses or reorders user messages, text, or calls whose results are all in
      order: seen through any set of such ids, the transcript is unchanged. */
  lemma SanitizeKeepsTheRest(ctx: seq<Message>, ids: set<string>)
    requires ids <= AnsweredIds(Items(ctx)) - {""}
    requires forall j :: 0 <= j < |Items(ctx)| && Items(ctx)[j].Answered? && Items(ctx)[j].id in ids ==>
               Items(ctx)[j].id in CalledIds(Items(ctx)[..j])
    ensures Restrict(Items(Sanitize(ctx)), ids) == Restrict(Items(ctx), ids)
  {
    var items := Items(ctx);
    SanitizeItems(ctx);
    forall j | 0 <= j < |items| ensures {} + CalledIds(items[..j]) == CalledIds(items[..j]) {}
    KeepRestrict(items, AnsweredIds(items) - {""}, {}, {}, ids);
  }

  lemma {:induction false} KeepRestrict(items: seq<Item>, sat: set<string>, act: set<string>, seen: set<string>, ids: set<string>)
    requires ids <= sat && act == seen * sat
    requires forall j :: 0 <= j < |items| && items[j].Answered? && items[j].id in ids ==> items[j].id in seen + CalledIds(items[..j])
    ensures Restrict(KeepItems(items, sat, act), ids) == Restrict(items, ids)
  {
    if items != [] {
      var rest := items[1..];
      var seen' := if items[0].Called? then seen + {items[0].call.id} else seen;
      assert CalledIds([items[0]]) == if items[0].Called? then {items[0].call.id} else {};
      forall j | 0 <= j < |rest| && rest[j].Answered? && rest[j].id in ids
        ensures rest[j].id in seen' + CalledIds(rest[..j])
      {
        PrefixIds(items, j + 1);
        assert items[j + 1] == rest[j];
      }
      KeepRestrict(rest, sat, seen' * sat, seen', ids);
      if items[0].Called? && items[0].call.id in sat {
        assert act + {items[0].call.id} == seen' * sat;
      } else {
        assert act == seen' * sat;
      }
      if items[0].Answered? && items[0].id in ids {
        assert CalledIds(items[..0]) == {};
        assert items[0].id in seen + CalledIds(items[..0]);
      }
      RestrictHead(items[0], KeepItems(rest, sat, seen' * sat), ids);
    }
  }

  lemma RestrictHead(it: Item, rest: seq<Item>, ids: set<string>)
    ensures Restrict([it] + rest, ids) ==
            (if (it.Called? && it.call.id !in ids) || (it.Answered? && it.id !in ids) then [] else [it]) + Restrict(rest, ids)
  {
    assert ([it] + rest)[1..] == rest;
  }

  // ------------------------------------------------------------------ prune

  lemma {:induction false} ForgetBlockItems(bs: seq<Block>, ids: set<string>)
    ensures BlockItems(ForgetBlocks(bs, ids)) == DropItems(BlockItems(bs), ids)
  {
    if bs != [] {
      ForgetBlockItems(bs[1..], ids);
    }
  }

  lemma ForgetMessageItems(m: Message, ids: set<string>)
    ensures Items(ForgetMessage(m, ids)) == DropItems(MessageItems(m), ids)
  {
    assert Items([m]) == MessageItems(m);
    match m
    case AssistantBlocks(bs) =>
      ForgetBlockItems(bs, ids);
      var kept := ForgetBlocks(bs, ids);
      CollapseItems(kept);
      assert Items([Collapse(kept)]) == MessageItems(Collapse(kept)) + Items([]);
    case _ =>
      assert DropItems([], ids) == [];
  }

  lemma {:induction false} ForgetItems(ctx: seq<Message>, ids: set<string>)
    ensures Items(ForgetFrom(ctx, ids)) == DropItems(Items(ctx), ids)
  {
    if ctx != [] {
      ForgetMessageItems(ctx[0], ids);
      ForgetItems(ctx[1..], ids);
      DropConcat(MessageItems(ctx[0]), Items(ctx[1..]), ids);
      ItemsConcat(ForgetMessage(ctx[0], ids), ForgetFrom(ctx[1..], ids));
    }
  }

  lemma {:induction false} DropNothing(items: seq<Item>, ids: set<string>)
    requires CalledIds(items) + AnsweredIds(items) !! ids
    ensures DropItems(items, ids) == items
  {
    if items != [] {
      IdsHead(items);
      assert items[0].Called? ==> items[0].call.id in CalledIds([items[0]]);
      assert items[0].Answered? ==> items[0].id in AnsweredIds([items[0]]);
      assert items == [items[0]] + items[1..];
      DropNothing(items[1..], ids);
    }
  }

  /** Pruning, on items: every call and result of an ephemeral id goes. */
  lemma PruneItems(ctx: seq<Message>)
    ensures Items(Prune(ctx)) == DropItems(Items(ctx), EphemeralIds(ctx))
  {
    if EphemeralIds(ctx) == {} {
      DropNothing(Items(ctx), {});
    } else {
      ForgetItems(ctx, EphemeralIds(ctx));
    }
  }

  lemma {:induction false} DroppedIds(items: seq<Item>, ids: set<string>)
    ensures CalledIds(DropItems(items, ids)) == CalledIds(items) - ids
    ensures AnsweredIds(DropItems(items, ids)) == AnsweredIds(items) - ids
    ensures forall it :: it in DropItems(items, ids) ==> it in items
  {
    if items != [] {
      IdsHead(items);
      DroppedIds(items[1..], ids);
      IdsConcat([items[0]], DropItems(items[1..], ids));
    }
  }

  lemma {:induction false} DropFollows(items: seq<Item>, ids: set<string>, seen: set<string>)
    requires Follows(items, seen)
    ensures Follows(DropItems(items, ids), seen - ids)
  {
    if items != [] {
      if items[0].Called? {
        DropFollows(items[1..], ids, seen + {items[0].call.id});
        if items[0].call.id in ids {
          assert seen + {items[0].call.id} - ids == seen - ids;
        } else {
          assert seen + {items[0].call.id} - ids == seen - ids + {items[0].call.id};
        }
      } else {
        DropFollows(items[1..], ids, seen);
      }
    }
  }

  /** Pruning keeps a paired transcript paired, and no ephemeral call survives it. */
  lemma PruneKeepsPaired(ctx: seq<Message>)
    ensures Paired(Items(ctx)) ==> Paired(Items(Prune(ctx)))
    ensures forall it :: it in Items(Prune(ctx)) && it.Called? ==> it.call.name !in EPHEMERAL_TOOLS
  {
    var items, ids := Items(ctx), EphemeralIds(ctx);
    PruneItems(ctx);
    DroppedIds(items, ids);
    PairedMeans(items);
    PairedMeans(Items(Prune(ctx)));
    if Paired(items) {
      DropFollows(items, ids, {});
      assert {} - ids == {};
    }
    forall it | it in Items(Prune(ctx)) && it.Called?
      ensures it.call.name !in EPHEMERAL_TOOLS
    {
      assert it in items && it.call.id in CalledIds(DropItems(items, ids));
    }
  }

  lemma {:induction false} DropKeep(items: seq<Item>, sat: set<string>, act: set<string>, ids: set<string>)
    ensures DropItems(KeepItems(items, sat, act), ids) == KeepItems(DropItems(items, ids), sat - ids, act - ids)
  {
    if items != [] {
      var rest := items[1..];
      if items[0].Called? && items[0].call.id in sat {
        var act' := act + {items[0].call.id};
        DropKeep(rest, sat, act', ids);
        DropConcat([items[0]], KeepItems(rest, sat, act'), ids);
        if items[0].call.id in ids {
          assert act' - ids == act - ids;
        } else {
          assert act' - ids == act - ids + {items[0].call.id};
        }
      } else {
        DropKeep(rest, sat, act, ids);
        DropConcat([items[0]], KeepItems(rest, sat, act), ids);
      }
      assert DropItems([], ids) == [];
    }
  }

  lemma {:induction false} DropSameWithin(items: seq<Item>, ids: set<string>, ids': set<string>, within: set<string>)
    requires CalledIds(items) + AnsweredIds(items) <= within && ids * within == ids' * within
    ensures DropItems(items, ids) == DropItems(items, ids')
  {
    if items != [] {
      IdsHead(items);
      assert items[0] in items;
      assert forall id :: id in within ==> (id in ids <==> id in ids * within) && (id in ids' <==> id in ids' * within);
      DropSameWithin(items[1..], ids, ids', within);
    }
  }

  lemma {:induction false} KeptMembers(items: seq<Item>, sat: set<string>, act: set<string>)
    ensures forall it :: it in KeepItems(items, sat, act) ==> it in items
    ensures forall it :: it in items && it.Called? && it.call.id in sat ==> it in KeepItems(items, sat, act)
  {
    if items != [] {
      KeptMembers(items[1..], sat, act);
      if items[0].Called? {
        KeptMembers(items[1..], sat, act + {items[0].call.id});
      }
    }
  }

  /** Sanitizing then pruning shows a provider exactly what pruning then sanitizing shows it. */
  lemma SanitizeAndPruneCommute(ctx: seq<Message>)
    ensures Items(Prune(Sanitize(ctx))) == Items(Sanitize(Prune(ctx)))
  {
    var items, ids := Items(ctx), EphemeralIds(ctx);
    var sat := AnsweredIds(items) - {""};
    var kept := KeepItems(items, sat, {});
    SanitizeItems(ctx);
    PruneItems(Sanitize(ctx));
    PruneItems(ctx);
    SanitizeItems(Prune(ctx));
    DroppedIds(items, ids);
    assert AnsweredIds(items) - ids - {""} == sat - ids;
    DropKeep(items, sat, {}, ids);
    assert {} - ids == {};
    KeptMembers(items, sat, {});
    OnePass(ctx);
    var ids' := EphemeralIds(Sanitize(ctx));
    assert ids * sat == ids' * sat by {
      forall id | id in ids * sat ensures id in ids' {
        var it :| it in items && it.Called? && it.call.name in EPHEMERAL_TOOLS && it.call.id == id;
        assert it in kept;
      }
    }
    DropSameWithin(kept, ids, ids', sat);
  }

  // ------------------------------------------------------------------ lengths

  lemma {:induction false} CleanShortens(ctx: seq<Message>, sat: set<string>, act: set<string>)
    ensures |CleanFrom(ctx, sat, act)| <= |ctx|
  {
    if ctx != [] {
      CleanShortens(ctx[1..], sat, CleanMessage(ctx[0], sat, act).1);
    }
  }

  lemma {:induction false} ForgetShortens(ctx: seq<Message>, ids: set<string>)
    ensures |ForgetFrom(ctx, ids)| <= |ctx|
  {
    if ctx != [] {
      ForgetShortens(ctx[1..], ids);
    }
  }

  lemma PassesShorten(ctx: seq<Message>)
    ensures |Sanitize(ctx)| <= |ctx| && |Prune(ctx)| <= |ctx|
  {
    CleanShortens(ctx, Satisfied(ctx), {});
    ForgetShortens(ctx, EphemeralIds(ctx));
  }
}
