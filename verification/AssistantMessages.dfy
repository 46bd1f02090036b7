/**
  The message a round opens with, the answers that follow it, and exactly when the two make a
  transcript a provider accepts. Call ids are distinct within one response; across responses they
  may repeat, as they do for providers that number the calls of each response from zero.
 */
module AssistantMessages {
  import opened Transcript
  import opened Ledger
  import opened Research
  import opened Dispatch

  function UseBlocks(calls: seq<ToolCall>): seq<Block> {
    if calls == [] then [] else [ToolUse(calls[0])] + UseBlocks(calls[1..])
  }

  function AssistantMessage(content: string, calls: seq<ToolCall>): Message {
    if calls == [] then Assistant(content)
    else AssistantBlocks((if content == "" then [] else [Text(content)]) + UseBlocks(calls))
  }

  lemma {:induction false} UseItems(calls: seq<ToolCall>, seg: set<string>, open: set<string>)
    ensures var items := BlockItems(UseBlocks(calls));
            && CalledIds(items) == Ids(calls) && AnsweredIds(items) == {}
            && Segment(items, seg) == seg + Ids(calls)
            && Scan(items, Book(seg, open)) == Book(seg + Ids(calls), open + Ids(calls))
    decreases |calls|
  {
    var items := BlockItems(UseBlocks(calls));
    if calls == [] {
      assert seg + Ids(calls) == seg && open + Ids(calls) == open;
    } else {
      var head, rest := calls[0], calls[1..];
      assert calls == [head] + rest;
      assert Ids(calls) == {head.id} + Ids(rest);
      UseItems(rest, seg + {head.id}, open + {head.id});
      assert UseBlocks(calls)[1..] == UseBlocks(rest);
      assert items[1..] == BlockItems(UseBlocks(rest));
      IdsHead(items);
      assert seg + {head.id} + Ids(rest) == seg + Ids(calls);
      assert open + {head.id} + Ids(rest) == open + Ids(calls);
    }
  }

  lemma {:induction false} UseLocal(calls: seq<ToolCall>, seen: set<string>, seg: set<string>, all: set<string>)
    requires DistinctIds(calls) && Ids(calls) !! seen
    ensures Local(BlockItems(UseBlocks(calls)), all, seen, seg)
    decreases |calls|
  {
    if calls != [] {
      var head, rest := calls[0], calls[1..];
      assert calls == [head] + rest;
      assert forall i :: 0 <= i < |rest| ==> rest[i] == calls[i + 1];
      assert head.id in Ids(calls) && head.id !in Ids(rest);
      UseLocal(rest, seen + {head.id}, seg + {head.id}, all);
      assert UseBlocks(calls)[1..] == UseBlocks(rest);
      assert BlockItems(UseBlocks(calls))[1..] == BlockItems(UseBlocks(rest));
    }
  }

  lemma {:induction false} BlockItemsConcat(a: seq<Block>, b: seq<Block>)
    ensures BlockItems(a + b) == BlockItems(a) + BlockItems(b)
  {
    if a == [] {
      assert a + b == b;
    } else {
      BlockItemsConcat(a[1..], b);
      assert (a + b)[0] == a[0] && (a + b)[1..] == a[1..] + b;
    }
  }

  method BuildAssistantMessage(content: string, calls: seq<ToolCall>) returns (m: Message)
    ensures m == AssistantMessage(content, calls)
  {
    if calls == [] {
      return Assistant(content);
    }
    var text := if content == "" then [] else [Text(content)];
    var blocks := text;
    for i := 0 to |calls|
      invariant blocks + UseBlocks(calls[i..]) == text + UseBlocks(calls)
    {
      assert calls[i..][0] == calls[i] && calls[i..][1..] == calls[i + 1..];
      blocks := blocks + [ToolUse(calls[i])];
    }
    m := AssistantBlocks(blocks);
  }

  function Lead(content: string, calls: seq<ToolCall>): seq<Item> {
    if calls == [] || content != "" then [Wrote(content)] else []
  }

  lemma AssistantItems(content: string, calls: seq<ToolCall>)
    ensures Items([AssistantMessage(content, calls)]) == Lead(content, calls) + BlockItems(UseBlocks(calls))
  {
    var m := AssistantMessage(content, calls);
    assert Items([m]) == MessageItems(m) + Items([m][1..]);
    if calls != [] {
      var text := if content == "" then [] else [Text(content)];
      BlockItemsConcat(text, UseBlocks(calls));
      assert text != [] ==> text[1..] == [] && BlockItems(text) == [Wrote(content)] + BlockItems(text[1..]);
    }
  }

  lemma LeadIsSilent(content: string, calls: seq<ToolCall>, more: seq<Item>, book: Book)
    ensures Scan(Lead(content, calls) + more, book) == Scan(more, book)
    ensures book.Book? ==> Segment(Lead(content, calls) + more, book.used) == Segment(more, book.used)
    ensures CalledIds(Lead(content, calls) + more) == CalledIds(more) && AnsweredIds(Lead(content, calls) + more) == AnsweredIds(more)
    ensures forall all :: Local(more, all, {}, {}) ==> Local(Lead(content, calls) + more, all, {}, {})
  {
    var lead := Lead(content, calls);
    if lead == [] {
      assert lead + more == more;
    } else {
      assert (lead + more)[1..] == more;
      IdsHead(lead + more);
    }
  }

  /** An assistant message opens exactly its calls. */
  lemma AssistantLedger(ctx: seq<Message>, content: string, calls: seq<ToolCall>)
    ensures var after := Items(ctx + [AssistantMessage(content, calls)]);
            && CalledIds(after) == CalledIds(Items(ctx)) + Ids(calls)
            && AnsweredIds(after) == AnsweredIds(Items(ctx))
            && Segment(after, {}) == Segment(Items(ctx), {}) + Ids(calls)
    ensures var book := Scan(Items(ctx), START);
            book.Book? ==>
              Scan(Items(ctx + [AssistantMessage(content, calls)]), START) == Book(book.used + Ids(calls), book.open + Ids(calls))
  {
    var items, uses := Items(ctx), BlockItems(UseBlocks(calls));
    var said := Lead(content, calls) + uses;
    ItemsConcat(ctx, [AssistantMessage(content, calls)]);
    AssistantItems(content, calls);
    IdsConcat(items, said);
    SegmentConcat(items, said, {});
    ScanConcat(items, said, START);
    UseItems(calls, Segment(items, {}), {});
    LeadIsSilent(content, calls, uses, Book(Segment(items, {}), {}));
    var book := Scan(items, START);
    if book.Book? {
      LeadIsSilent(content, calls, uses, book);
      UseItems(calls, book.used, book.open);
    }
  }

  /** New ids keep a run recoverable. */
  lemma AssistantRecoverable(ctx: seq<Message>, content: string, calls: seq<ToolCall>)
    requires Recoverable(Items(ctx)) && DistinctIds(calls)
    requires Ids(calls) !! CalledIds(Items(ctx)) + AnsweredIds(Items(ctx))
    ensures Recoverable(Items(ctx + [AssistantMessage(content, calls)]))
  {
    var uses := BlockItems(UseBlocks(calls));
    ItemsConcat(ctx, [AssistantMessage(content, calls)]);
    AssistantItems(content, calls);
    UseItems(calls, {}, {});
    UseLocal(calls, {}, {}, Ids(calls));
    LeadIsSilent(content, calls, uses, START);
    AppendFresh(Items(ctx), Lead(content, calls) + uses);
  }

  // ------------------------------------------------------------------ answers

  lemma {:induction false} AnswerItems(answers: seq<Message>)
    requires forall m :: m in answers ==> m.ToolResult?
    ensures CalledIds(Items(answers)) == {} && AnsweredIds(Items(answers)) == AnswerIds(answers)
  {
    if answers != [] {
      AnswersHead(answers);
      assert answers[0] in answers;
      AnswerItems(answers[1..]);
      IdsConcat(MessageItems(answers[0]), Items(answers[1..]));
    }
  }

  lemma {:induction false} AnswersFollow(answers: seq<Message>, seen: set<string>)
    requires forall m :: m in answers ==> m.ToolResult?
    ensures Follows(Items(answers), seen) <==> AnswerIds(answers) <= seen
  {
    if answers != [] {
      AnswersHead(answers);
      assert answers[0] in answers;
      AnswersFollow(answers[1..], seen);
      assert Items(answers)[1..] == Items(answers[1..]);
    }
  }

  /** Results appended to a transcript pair it exactly when they are for calls it has and cover the
      calls it lacks results for. */
  lemma ResumePairsIff(ctx: seq<Message>, answers: seq<Message>)
    requires ResultsFollowCalls(Items(ctx)) && forall m :: m in answers ==> m.ToolResult?
    ensures Paired(Items(ctx + answers)) <==>
            CalledIds(Items(ctx)) - AnsweredIds(Items(ctx)) <= AnswerIds(answers) <= CalledIds(Items(ctx))
  {
    ItemsConcat(ctx, answers);
    AnswerItems(answers);
    var items, more := Items(ctx), Items(answers);
    IdsConcat(items, more);
    FollowsIsResultsFollowCalls(items);
    AnsweredAfterBounds(items, {});
    PairedMeans(items + more);
    FollowsSplit(items, more, {});
    assert {} + CalledIds(items) == CalledIds(items);
    AnswersFollow(answers, CalledIds(items));
  }

  /** Answers to some calls of the current user turn leave the others open. */
  lemma AnsweredRound(ctx: seq<Message>, content: string, calls: seq<ToolCall>, answers: seq<Message>)
    requires Closed(Items(ctx)) && (forall m :: m in answers ==> m.ToolResult?) && AnswerIds(answers) <= Ids(calls)
    ensures var book := Scan(Items(ctx + [AssistantMessage(content, calls)] + answers), START);
            book.Book? && book.open == Ids(calls) - AnswerIds(answers)
  {
    AssistantLedger(ctx, content, calls);
    ScanSegment(Items(ctx + [AssistantMessage(content, calls)]), START);
    AnswersClose(ctx + [AssistantMessage(content, calls)], answers);
    assert {} + Ids(calls) == Ids(calls);
  }

  /** Answers to an assistant message on a closed transcript make a paired one exactly when every call
      of it is answered, now or under the same id before. So a round cut short, and a pause that keeps
      only some of the message's calls, leave a transcript no provider accepts if their ids are new. */
  lemma PausedMessagePairsIff(ctx: seq<Message>, content: string, calls: seq<ToolCall>, answers: seq<Message>)
    requires Closed(Items(ctx)) && (forall m :: m in answers ==> m.ToolResult?) && AnswerIds(answers) <= Ids(calls)
    ensures var after := Items(ctx + [AssistantMessage(content, calls)] + answers);
            && (Paired(after) <==> Ids(calls) <= AnsweredIds(Items(ctx)) + AnswerIds(answers))
            && (Closed(after) <==> Ids(calls) == AnswerIds(answers))
  {
    var paused := ctx + [AssistantMessage(content, calls)];
    AnsweredRound(ctx, content, calls, answers);
    AssistantLedger(ctx, content, calls);
    AnswersLedger(paused, answers);
    OpenIsUnanswered(Items(paused + answers));
  }

  /** The recovery request that follows a round cut short by an amendment shows the provider that
      round and a reminder: it is paired exactly when the unanswered ids were answered before, and
      closed never. */
  lemma CutRoundPairsIff(ctx: seq<Message>, content: string, calls: seq<ToolCall>, answers: seq<Message>, note: string)
    requires Closed(Items(ctx)) && (forall m :: m in answers ==> m.ToolResult?) && AnswerIds(answers) < Ids(calls)
    ensures var sent := Items(ctx + [AssistantMessage(content, calls)] + answers + [User(note, true)]);
            && (Paired(sent) <==> Ids(calls) - AnswerIds(answers) <= AnsweredIds(Items(ctx)))
            && !Closed(sent)
  {
    PausedMessagePairsIff(ctx, content, calls, answers);
    SaidKeepsPairing(ctx + [AssistantMessage(content, calls)] + answers, note, true);
  }

  /** A reply that is neither a confirmation nor a cancellation lets sanitizing strip the paused
      calls while they stay pending. Confirming them afterwards appends results without calls, unless
      every paused id had been answered before; the user message that follows changes nothing. */
  lemma UnclearThenConfirmPairsIff(ctx: seq<Message>, content: string, calls: seq<ToolCall>, answers: seq<Message>, text: string, turn: bool)
    requires Closed(Items(ctx)) && (forall m :: m in answers ==> m.ToolResult?) && AnswerIds(answers) == Ids(calls)
    ensures Paired(Items(Sanitize(ctx + [AssistantMessage(content, calls)]) + answers + [User(text, turn)]))
            <==> Ids(calls) <= AnsweredIds(Items(ctx)) - {""}
  {
    var paused := ctx + [AssistantMessage(content, calls)];
    var stripped := Sanitize(paused);
    AssistantLedger(ctx, content, calls);
    ScanPairs(Items(ctx), START);
    ScanPairs(Items(paused), START);
    AnsweredAfterBounds(Items(paused), {});
    OnePass(paused);
    FollowsIsResultsFollowCalls(Items(stripped));
    ResumePairsIff(stripped, answers);
    SaidKeepsPairing(stripped + answers, text, turn);
    assert CalledIds(Items(stripped)) == AnsweredIds(Items(ctx)) - {""};
    assert AnsweredIds(Items(stripped)) == AnsweredIds(Items(ctx)) - {""};
  }

  /** With ids that never repeat, an open call makes a transcript unpaired, whatever is said next. */
  lemma OpenCallIsUnpaired(ctx: seq<Message>, note: string)
    requires Scan(Items(ctx), START).Book? && Scan(Items(ctx), START).open != {} && Recoverable(Items(ctx))
    ensures !Paired(Items(ctx + [User(note, true)]))
  {
    OpenIsNew(Items(ctx));
    SaidKeepsPairing(ctx, note, true);
  }

  // ------------------------------------------------------------------ memory-keeping calls

  lemma {:induction false} UseMembers(calls: seq<ToolCall>)
    ensures forall it :: it in BlockItems(UseBlocks(calls)) ==> it.Called? && it.call in calls
  {
    if calls != [] {
      UseMembers(calls[1..]);
      assert UseBlocks(calls)[1..] == UseBlocks(calls[1..]);
    }
  }

  /** A message without memory-keeping calls gives pruning nothing new to forget. */
  lemma NothingEphemeral(ctx: seq<Message>, content: string, calls: seq<ToolCall>)
    requires forall tc :: tc in calls ==> tc.name !in EPHEMERAL_TOOLS
    ensures EphemeralIds(ctx + [AssistantMessage(content, calls)]) <= CalledIds(Items(ctx))
  {
    var m := AssistantMessage(content, calls);
    ItemsConcat(ctx, [m]);
    AssistantItems(content, calls);
    UseMembers(calls);
    assert forall it :: it in Items([m]) && it.Called? ==> it.call.name !in EPHEMERAL_TOOLS;
    assert forall it :: it in Items(ctx + [m]) ==> it in Items(ctx) || it in Items([m]);
  }
}
