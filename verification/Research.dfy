/**
  `_coalesce_research_tool_calls`: exact duplicates in a round are dropped, and a round of
  searches, or of page pages, is replaced by one batched call.
 */
module Research {
  import opened Transcript
  import opened TextTools
  import T = TomlValue

  const SEARCH_TOOLS: set<string> := {"web_search", "search_batch", "x_search"}
  const READ_TOOLS: set<string> := {"jina_read", "fetch_url", "read_batch"}
  const RESEARCH_TOOLS: set<string> := SEARCH_TOOLS + READ_TOOLS + {"research_web"}

  /** Two calls with one key ask for the same work. */
  type Key = (string, Args)

  function KeyOf(tc: ToolCall): Key {
    (tc.name, tc.input)
  }

  function Ids(calls: seq<ToolCall>): set<string> {
    set tc | tc in calls :: tc.id
  }

  ghost predicate DistinctIds(calls: seq<ToolCall>) {
    forall i, j :: 0 <= i < j < |calls| ==> calls[i].id != calls[j].id
  }

  ghost predicate DistinctKeys(calls: seq<ToolCall>) {
    forall i, j :: 0 <= i < j < |calls| ==> KeyOf(calls[i]) != KeyOf(calls[j])
  }

  // ------------------------------------------------------------------ duplicates

  /** The calls whose key is not in `seen`, first occurrences only, in request order. */
  function FirstOfEach(calls: seq<ToolCall>, seen: set<Key>): seq<ToolCall> {
    if calls == [] then []
    else if KeyOf(calls[0]) in seen then FirstOfEach(calls[1..], seen)
    else [calls[0]] + FirstOfEach(calls[1..], seen + {KeyOf(calls[0])})
  }

  lemma {:induction false} FirstOfEachMembers(calls: seq<ToolCall>, seen: set<Key>)
    ensures forall tc :: tc in FirstOfEach(calls, seen) ==> tc in calls && KeyOf(tc) !in seen
  {
    if calls != [] {
      var head, rest := calls[0], calls[1..];
      assert forall tc :: tc in rest ==> tc in calls;
      FirstOfEachMembers(rest, seen);
      FirstOfEachMembers(rest, seen + {KeyOf(head)});
    }
  }

  lemma {:induction false} FirstOfEachDistinct(calls: seq<ToolCall>, seen: set<Key>)
    ensures DistinctKeys(FirstOfEach(calls, seen))
  {
    if calls != [] {
      var head, rest := calls[0], calls[1..];
      FirstOfEachDistinct(rest, seen);
      FirstOfEachDistinct(rest, seen + {KeyOf(head)});
      var tail := FirstOfEach(rest, seen + {KeyOf(head)});
      FirstOfEachMembers(rest, seen + {KeyOf(head)});
      forall i, j | 0 <= i < j < |[head] + tail|
        ensures KeyOf(([head] + tail)[i]) != KeyOf(([head] + tail)[j])
      {
        assert ([head] + tail)[j] == tail[j - 1] && tail[j - 1] in tail;
      }
    }
  }

  lemma {:induction false} FirstOfEachIds(calls: seq<ToolCall>, seen: set<Key>)
    requires DistinctIds(calls)
    ensures DistinctIds(FirstOfEach(calls, seen))
  {
    if calls != [] {
      var head, rest := calls[0], calls[1..];
      assert forall i :: 0 <= i < |rest| ==> rest[i] == calls[i + 1];
      FirstOfEachIds(rest, seen);
      FirstOfEachIds(rest, seen + {KeyOf(head)});
      var tail := FirstOfEach(rest, seen + {KeyOf(head)});
      FirstOfEachMembers(rest, seen + {KeyOf(head)});
      forall i, j | 0 <= i < j < |[head] + tail|
        ensures ([head] + tail)[i].id != ([head] + tail)[j].id
      {
        assert ([head] + tail)[j] == tail[j - 1] && tail[j - 1] in tail;
        var k :| 0 <= k < |rest| && rest[k] == tail[j - 1];
        assert calls[k + 1] == rest[k];
      }
    }
  }

  /** Every requested key keeps a call. */
  lemma {:induction false} FirstOfEachCovers(calls: seq<ToolCall>, seen: set<Key>, tc: ToolCall) returns (kept: ToolCall)
    requires tc in calls && KeyOf(tc) !in seen
    ensures kept in FirstOfEach(calls, seen) && KeyOf(kept) == KeyOf(tc)
  {
    var head, rest := calls[0], calls[1..];
    if KeyOf(tc) == KeyOf(head) {
      kept := head;
    } else {
      assert tc in rest;
      if KeyOf(head) in seen {
        kept := FirstOfEachCovers(rest, seen, tc);
      } else {
        kept := FirstOfEachCovers(rest, seen + {KeyOf(head)}, tc);
      }
    }
  }

  // ------------------------------------------------------------------ queries and urls

  /** A value as the host language shows it; lists and objects show nothing here. */
  function Shows(j: Json): string {
    match j
    case JStr(s) => s
    case JNum(n) => T.IntText(n)
    case JBool(b) => if b then "True" else "False"
    case JNull => "None"
    case _ => ""
  }

  /** Zero, false and null count as absent, like the empty string. */
  predicate Counts(j: Json) {
    match j
    case JNum(n) => n != 0
    case JBool(b) => b
    case JNull => false
    case _ => true
  }

  /** A text field of a call, trimmed, or nothing. */
  function TextOf(input: Args, field: string): string {
    if field in input && Counts(input[field]) then Strip(Shows(input[field])) else ""
  }

  function TextList(items: seq<Json>): seq<string> {
    if items == [] then []
    else
      var item := Strip(Shows(items[0]));
      (if item != "" then [item] else []) + TextList(items[1..])
  }

  /** A string where a list is expected is taken character by character. */
  function Characters(s: string): seq<Json> {
    if s == "" then [] else [JStr(s[..1])] + Characters(s[1..])
  }

  function TextsOf(input: Args, field: string): seq<string> {
    if field !in input then []
    else match input[field]
      case JArr(items) => TextList(items)
      case JStr(s) => TextList(Characters(s))
      case _ => []
  }

  function Queries(tc: ToolCall): seq<string> {
    if tc.name == "search_batch" then TextsOf(tc.input, "queries")
    else if tc.name in SEARCH_TOOLS then
      var q := TextOf(tc.input, "query");
      if q == "" then [] else [q]
    else []
  }

  function Urls(tc: ToolCall): seq<string> {
    if tc.name == "read_batch" then TextsOf(tc.input, "urls")
    else if tc.name in READ_TOOLS then
      var u := TextOf(tc.input, "url");
      if u == "" then [] else [u]
    else []
  }

  function Gather(calls: seq<ToolCall>, of: ToolCall -> seq<string>): seq<string> {
    if calls == [] then [] else of(calls[0]) + Gather(calls[1..], of)
  }

  /** First occurrences, in order, of the strings not in `seen`. */
  function Unique(values: seq<string>, seen: set<string>): seq<string> {
    if values == [] then []
    else if values[0] in seen then Unique(values[1..], seen)
    else [values[0]] + Unique(values[1..], seen + {values[0]})
  }

  lemma {:induction false} UniqueFacts(values: seq<string>, seen: set<string>)
    ensures var r := Unique(values, seen);
            && (forall i, j :: 0 <= i < j < |r| ==> r[i] != r[j])
            && (forall v :: v in r <==> v in values && v !in seen)
  {
    if values != [] {
      var head, rest := values[0], values[1..];
      assert forall v :: v in values <==> v == head || v in rest;
      if head in seen {
        UniqueFacts(rest, seen);
      } else {
        UniqueFacts(rest, seen + {head});
        var tail := Unique(rest, seen + {head});
        var r := [head] + tail;
        assert forall v :: v in r <==> v == head || v in tail;
        forall i, j | 0 <= i < j < |r|
          ensures r[i] != r[j]
        {
          assert r[j] == tail[j - 1] && r[j] in tail;
        }
      }
    }
  }

  lemma {:induction false} UniqueConcat(a: seq<string>, b: seq<string>, seen: set<string>)
    ensures Unique(a + b, seen) == Unique(a, seen) + Unique(b, seen + (set v | v in a))
  {
    if a == [] {
      assert a + b == b && seen + (set v | v in a) == seen;
    } else {
      assert (a + b)[0] == a[0] && (a + b)[1..] == a[1..] + b;
      var seen' := seen + {a[0]};
      assert a == [a[0]] + a[1..];
      assert seen' + (set v | v in a[1..]) == seen + (set v | v in a);
      UniqueConcat(a[1..], b, seen');
      if a[0] in seen {
        assert seen' == seen;
      }
    }
  }

  lemma {:induction false} UniqueOfSeen(values: seq<string>, seen: set<string>)
    requires forall v :: v in values ==> v in seen
    ensures Unique(values, seen) == []
  {
    if values != [] {
      assert values[0] in values;
      UniqueOfSeen(values[1..], seen);
    }
  }

  /** Dropping exact duplicates of a call changes neither which texts a round asks for nor their order. */
  lemma {:induction false} DuplicatesAskNothingNew(calls: seq<ToolCall>, of: ToolCall -> seq<string>, keys: set<Key>, seen: set<string>)
    requires forall a, b :: KeyOf(a) == KeyOf(b) ==> of(a) == of(b)
    requires forall tc, v :: KeyOf(tc) in keys && v in of(tc) ==> v in seen
    ensures Unique(Gather(FirstOfEach(calls, keys), of), seen) == Unique(Gather(calls, of), seen)
  {
    if calls != [] {
      var head, rest := calls[0], calls[1..];
      UniqueConcat(of(head), Gather(rest, of), seen);
      if KeyOf(head) in keys {
        UniqueOfSeen(of(head), seen);
        assert seen + (set v | v in of(head)) == seen by {
          assert forall v :: v in of(head) ==> v in seen;
        }
        DuplicatesAskNothingNew(rest, of, keys, seen);
      } else {
        var keys' := keys + {KeyOf(head)};
        var seen' := seen + (set v | v in of(head));
        forall tc, v | KeyOf(tc) in keys' && v in of(tc)
          ensures v in seen'
        {
          if KeyOf(tc) == KeyOf(head) {
            assert of(tc) == of(head);
          }
        }
        DuplicatesAskNothingNew(rest, of, keys', seen');
        var tail := FirstOfEach(rest, keys');
        assert FirstOfEach(calls, keys) == [head] + tail;
        assert ([head] + tail)[1..] == tail;
        UniqueConcat(of(head), Gather(tail, of), seen);
      }
    }
  }

  // ------------------------------------------------------------------ the rewrite

  function Only(calls: seq<ToolCall>, names: set<string>): seq<ToolCall> {
    if calls == [] then []
    else (if calls[0].name in names then [calls[0]] else []) + Only(calls[1..], names)
  }

  function CountIn(names: seq<string>, of: set<string>): nat {
    if names == [] then 0 else (if names[0] in of then 1 else 0) + CountIn(names[1..], of)
  }

  predicate ShouldRewrite(searches: nat, pages: nat, round: nat, prior: nat) {
    && searches > 0
    && (searches >= 2 || searches + pages >= 3 || (round >= 1 && prior >= 1 && searches + pages >= 2) || prior >= 3)
  }

  function LimitOf(tc: ToolCall): int {
    if "limit" in tc.input && tc.input["limit"].JNum? && tc.input["limit"].n != 0 then tc.input["limit"].n else 5
  }

  function Max(a: int, b: int): int { if a > b then a else b }
  function Min(a: int, b: int): int { if a < b then a else b }

  function PerQueryLimit(searches: seq<ToolCall>, limit: int): int {
    if searches == [] then limit else PerQueryLimit(searches[1..], Max(limit, LimitOf(searches[0])))
  }

  function FirstText(calls: seq<ToolCall>, field: string, found: string): string {
    if calls == [] then found
    else FirstText(calls[1..], field, if found != "" then found else TextOf(calls[0].input, field))
  }

  function LastMode(pages: seq<ToolCall>, mode: string): string {
    if pages == [] then mode
    else
      var given := TextOf(pages[0].input, "mode");
      LastMode(pages[1..], if pages[0].name == "read_batch" && given != "" then given else mode)
  }

  function Strings(values: seq<string>): seq<Json> {
    if values == [] then [] else [JStr(values[0])] + Strings(values[1..])
  }

  function SearchPlan(id: string, goal: string, searches: seq<ToolCall>, queries: seq<string>): ToolCall {
    var limit := PerQueryLimit(searches, 5);
    ToolCall(id, "research_web", map[
      "goal" := JStr(if Strip(goal) == "" then "Research the current task" else Strip(goal)),
      "queries" := JArr(Strings(queries)),
      "max_urls" := JNum(Min(Max(|queries| * Max(1, limit), 8), 24)),
      "per_query_limit" := JNum(limit),
      "read_mode" := JStr("mixed"),
      "locale" := JStr(FirstText(searches, "locale", "")),
      "freshness" := JStr(FirstText(searches, "freshness", ""))])
  }

  function ReadPlan(id: string, pages: seq<ToolCall>, urls: seq<string>): ToolCall {
    ToolCall(id, "read_batch", map["urls" := JArr(Strings(urls)), "mode" := JStr(LastMode(pages, "mixed"))])
  }

  function Asked(calls: seq<ToolCall>): seq<string> {
    Unique(Gather(Only(calls, SEARCH_TOOLS), Queries), {})
  }

  function Pages(calls: seq<ToolCall>): seq<string> {
    Unique(Gather(Only(calls, READ_TOOLS), Urls), {})
  }

  predicate BecomesSearch(calls: seq<ToolCall>, round: nat, priorNames: seq<string>) {
    && ShouldRewrite(|Only(calls, SEARCH_TOOLS)|, |Only(calls, READ_TOOLS)|, round, CountIn(priorNames, RESEARCH_TOOLS))
    && Asked(calls) != []
  }

  predicate BecomesRead(calls: seq<ToolCall>) {
    Only(calls, SEARCH_TOOLS) == [] && |Only(calls, READ_TOOLS)| >= 2 && |Pages(calls)| >= 2
  }

  function Coalesce(requested: seq<ToolCall>, goal: string, round: nat, priorNames: seq<string>, newId: string): seq<ToolCall> {
    var calls := FirstOfEach(requested, {});
    if BecomesSearch(calls, round, priorNames) then [SearchPlan(newId, goal, Only(calls, SEARCH_TOOLS), Asked(calls))]
    else if BecomesRead(calls) then [ReadPlan(newId, Only(calls, READ_TOOLS), Pages(calls))]
    else calls
  }

  /** The trimmed, non-empty values. */
  function Cleaned(values: seq<string>): seq<string> {
    if values == [] then []
    else (if Strip(values[0]) != "" then [Strip(values[0])] else []) + Cleaned(values[1..])
  }

  method OrderedUniqueStrings(values: seq<string>) returns (out: seq<string>)
    ensures out == Unique(Cleaned(values), {})
  {
    out := [];
    var seen: set<string> := {};
    assert values[0..] == values;
    for i := 0 to |values|
      invariant out + Unique(Cleaned(values[i..]), seen) == Unique(Cleaned(values), {})
    {
      var item := Strip(values[i]);
      ghost var rest := Cleaned(values[i + 1..]);
      assert values[i..][1..] == values[i + 1..];
      assert item == "" ==> Cleaned(values[i..]) == rest;
      assert item != "" ==> Cleaned(values[i..])[0] == item && Cleaned(values[i..])[1..] == rest;
      assert item != "" && item !in seen ==>
          out + Unique(Cleaned(values[i..]), seen) == out + [item] + Unique(rest, seen + {item});
      if item == "" || item in seen {
        continue;
      }
      seen := seen + {item};
      out := out + [item];
    }
  }

  method DropDuplicateCalls(calls: seq<ToolCall>) returns (unique: seq<ToolCall>)
    ensures unique == FirstOfEach(calls, {})
  {
    unique := [];
    var seen: set<Key> := {};
    for i := 0 to |calls|
      invariant unique + FirstOfEach(calls[i..], seen) == FirstOfEach(calls, {})
    {
      var key := KeyOf(calls[i]);
      assert calls[i..][1..] == calls[i + 1..];
      if key in seen {
        continue;
      }
      seen := seen + {key};
      unique := unique + [calls[i]];
    }
  }

  // ------------------------------------------------------------------ what a round keeps

  /** Whatever the round, the calls that remain have distinct keys; their ids are the requested
      ones or the one new id, and a round with calls keeps at least one. */
  lemma CoalescedCalls(requested: seq<ToolCall>, goal: string, round: nat, priorNames: seq<string>, newId: string)
    ensures var calls := Coalesce(requested, goal, round, priorNames, newId);
            && DistinctKeys(calls)
            && Ids(calls) <= Ids(requested) + {newId}
            && (DistinctIds(requested) ==> DistinctIds(calls))
            && (calls == [] <==> requested == [])
  {
    FirstOfEachMembers(requested, {});
    FirstOfEachDistinct(requested, {});
    if DistinctIds(requested) {
      FirstOfEachIds(requested, {});
    }
    if requested != [] {
      var kept := FirstOfEachCovers(requested, {}, requested[0]);
    }
  }

  /** Coalescing brings in no tool but the two merged ones. */
  lemma CoalescedNames(requested: seq<ToolCall>, goal: string, round: nat, priorNames: seq<string>, newId: string)
    ensures forall tc :: tc in Coalesce(requested, goal, round, priorNames, newId) ==>
              tc in requested || tc.name == "research_web" || tc.name == "read_batch"
  {
    FirstOfEachMembers(requested, {});
  }

  lemma {:induction false} OnlyAll(calls: seq<ToolCall>, names: set<string>)
    requires forall tc :: tc in calls ==> tc.name in names
    ensures Only(calls, names) == calls
  {
    if calls != [] {
      assert calls[0] in calls;
      OnlyAll(calls[1..], names);
    }
  }

  lemma {:induction false} OnlyNone(calls: seq<ToolCall>, names: set<string>)
    requires forall tc :: tc in calls ==> tc.name !in names
    ensures Only(calls, names) == []
  {
    if calls != [] {
      assert calls[0] in calls;
      OnlyNone(calls[1..], names);
    }
  }

  predicate Shown(v: string) {
    v != "" && Trim(v)
  }

  lemma {:induction false} StringsRead(values: seq<string>)
    requires forall v :: v in values ==> Shown(v)
    ensures TextList(Strings(values)) == values
  {
    if values != [] {
      assert values[0] in values;
      StripNothing(values[0]);
      assert forall v :: v in values[1..] ==> v in values;
      assert Strings(values)[1..] == Strings(values[1..]);
      StringsRead(values[1..]);
    }
  }

  lemma {:induction false} TextListTrims(items: seq<Json>)
    ensures forall v :: v in TextList(items) ==> Shown(v)
  {
    if items != [] {
      TextListTrims(items[1..]);
      StripTrims(Shows(items[0]));
    }
  }

  lemma FieldTrims(input: Args, field: string)
    ensures forall v :: v in TextsOf(input, field) ==> Shown(v)
    ensures TextOf(input, field) == "" || Shown(TextOf(input, field))
  {
    if field in input {
      StripTrims(Shows(input[field]));
      match input[field]
      case JArr(items) => TextListTrims(items);
      case JStr(s) => TextListTrims(Characters(s));
      case _ =>
    }
  }

  lemma QueriesTrim(tc: ToolCall)
    ensures forall v :: v in Queries(tc) ==> Shown(v)
    ensures forall v :: v in Urls(tc) ==> Shown(v)
  {
    FieldTrims(tc.input, "queries");
    FieldTrims(tc.input, "query");
    FieldTrims(tc.input, "urls");
    FieldTrims(tc.input, "url");
  }

  lemma {:induction false} GatherTrims(calls: seq<ToolCall>, of: ToolCall -> seq<string>)
    requires forall tc, v :: tc in calls && v in of(tc) ==> Shown(v)
    ensures forall v :: v in Gather(calls, of) ==> Shown(v)
  {
    if calls != [] {
      assert calls[0] in calls;
      assert forall tc :: tc in calls[1..] ==> tc in calls;
      GatherTrims(calls[1..], of);
      assert forall v :: v in Gather(calls, of) ==> v in of(calls[0]) || v in Gather(calls[1..], of);
    }
  }

  /** What a round asks the search tools for, whichever form its calls take. */
  function SearchTexts(tc: ToolCall): seq<string> {
    if tc.name == "research_web" then TextsOf(tc.input, "queries") else Queries(tc)
  }

  function QueriesAsked(calls: seq<ToolCall>): seq<string> {
    Unique(Gather(calls, SearchTexts), {})
  }

  lemma {:induction false} GatherSame(calls: seq<ToolCall>, f: ToolCall -> seq<string>, g: ToolCall -> seq<string>)
    requires forall tc :: tc in calls ==> f(tc) == g(tc)
    ensures Gather(calls, f) == Gather(calls, g)
  {
    if calls != [] {
      assert calls[0] in calls;
      assert forall tc :: tc in calls[1..] ==> tc in calls;
      GatherSame(calls[1..], f, g);
    }
  }

  lemma GatherOne(tc: ToolCall, of: ToolCall -> seq<string>)
    ensures Gather([tc], of) == of(tc)
  {
    assert Gather([tc][1..], of) == [];
  }

  /** A round of searches only, rewritten or not, asks for exactly the queries it asked for: none
      lost, none invented, none twice, in the order of their first mention. */
  lemma SearchRoundKeepsQueries(requested: seq<ToolCall>, goal: string, round: nat, priorNames: seq<string>, newId: string)
    requires forall tc :: tc in requested ==> tc.name in SEARCH_TOOLS
    ensures QueriesAsked(Coalesce(requested, goal, round, priorNames, newId)) == Unique(Gather(requested, Queries), {})
  {
    var calls := FirstOfEach(requested, {});
    FirstOfEachMembers(requested, {});
    OnlyAll(calls, SEARCH_TOOLS);
    DuplicatesAskNothingNew(requested, Queries, {}, {});
    if BecomesSearch(calls, round, priorNames) {
      AskedShown(calls);
      PlanAsks(newId, goal, calls, Asked(calls));
    } else {
      SearchesAreNotReads(calls);
      SearchesAsk(calls);
    }
  }

  lemma PlanAsks(id: string, goal: string, searches: seq<ToolCall>, asked: seq<string>)
    requires forall v :: v in asked ==> Shown(v)
    requires forall i, j :: 0 <= i < j < |asked| ==> asked[i] != asked[j]
    ensures QueriesAsked([SearchPlan(id, goal, searches, asked)]) == asked
  {
    StringsRead(asked);
    SearchPlanQueries(id, goal, searches, asked);
    GatherOne(SearchPlan(id, goal, searches, asked), SearchTexts);
    UniqueOfDistinct(asked, {});
  }

  lemma SearchesAsk(calls: seq<ToolCall>)
    requires forall tc :: tc in calls ==> tc.name in SEARCH_TOOLS
    ensures Gather(calls, SearchTexts) == Gather(calls, Queries)
  {
    assert forall tc :: tc in calls ==> tc.name != "research_web";
    GatherSame(calls, SearchTexts, Queries);
  }

  lemma SearchPlanQueries(id: string, goal: string, searches: seq<ToolCall>, queries: seq<string>)
    ensures SearchTexts(SearchPlan(id, goal, searches, queries)) == TextList(Strings(queries))
  {
    var input := SearchPlan(id, goal, searches, queries).input;
    assert "queries" in input && input["queries"] == JArr(Strings(queries));
  }

  lemma SearchesAreNotReads(calls: seq<ToolCall>)
    requires forall tc :: tc in calls ==> tc.name in SEARCH_TOOLS
    ensures Only(calls, READ_TOOLS) == []
  {
    OnlyNone(calls, READ_TOOLS);
  }

  lemma AskedShown(calls: seq<ToolCall>)
    ensures forall v :: v in Asked(calls) ==> Shown(v)
    ensures forall i, j :: 0 <= i < j < |Asked(calls)| ==> Asked(calls)[i] != Asked(calls)[j]
    ensures forall v :: v in Pages(calls) ==> Shown(v)
    ensures forall i, j :: 0 <= i < j < |Pages(calls)| ==> Pages(calls)[i] != Pages(calls)[j]
  {
    forall tc: ToolCall ensures forall v :: v in Queries(tc) ==> Shown(v) { QueriesTrim(tc); }
    forall tc: ToolCall ensures forall v :: v in Urls(tc) ==> Shown(v) { QueriesTrim(tc); }
    var searches, pages := Gather(Only(calls, SEARCH_TOOLS), Queries), Gather(Only(calls, READ_TOOLS), Urls);
    GatherTrims(Only(calls, SEARCH_TOOLS), Queries);
    GatherTrims(Only(calls, READ_TOOLS), Urls);
    UniqueFacts(searches, {});
    UniqueFacts(pages, {});
  }

  /** A round of page reads only reads exactly the pages it asked for. */
  lemma ReadRoundKeepsUrls(requested: seq<ToolCall>, goal: string, round: nat, priorNames: seq<string>, newId: string)
    requires forall tc :: tc in requested ==> tc.name in READ_TOOLS
    ensures Unique(Gather(Coalesce(requested, goal, round, priorNames, newId), Urls), {}) == Unique(Gather(requested, Urls), {})
  {
    var calls := FirstOfEach(requested, {});
    FirstOfEachMembers(requested, {});
    OnlyAll(calls, READ_TOOLS);
    OnlyNone(calls, SEARCH_TOOLS);
    DuplicatesAskNothingNew(requested, Urls, {}, {});
    if BecomesRead(calls) {
      var urls := Pages(calls);
      AskedShown(calls);
      StringsRead(urls);
      var plan := ReadPlan(newId, calls, urls);
      assert TextsOf(plan.input, "urls") == urls;
      GatherOne(plan, Urls);
      UniqueOfDistinct(urls, {});
    }
  }

  lemma {:induction false} UniqueOfDistinct(values: seq<string>, seen: set<string>)
    requires forall i, j :: 0 <= i < j < |values| ==> values[i] != values[j]
    requires forall i :: 0 <= i < |values| ==> values[i] !in seen
    ensures Unique(values, seen) == values
  {
    if values != [] {
      var rest := values[1..];
      assert forall i :: 0 <= i < |rest| ==> rest[i] == values[i + 1];
      UniqueOfDistinct(rest, seen + {values[0]});
    }
  }

  /** A rewritten round keeps the new plan and nothing else: a call that is neither a search nor a
      read survives exactly when the round is not rewritten. */
  lemma RewriteDropsOtherCalls(requested: seq<ToolCall>, goal: string, round: nat, priorNames: seq<string>, newId: string, other: ToolCall)
    requires other in requested && other.name !in RESEARCH_TOOLS
    ensures (exists tc :: tc in Coalesce(requested, goal, round, priorNames, newId) && KeyOf(tc) == KeyOf(other)) <==>
            !BecomesSearch(FirstOfEach(requested, {}), round, priorNames) && !BecomesRead(FirstOfEach(requested, {}))
  {
    var calls := FirstOfEach(requested, {});
    var kept := FirstOfEachCovers(requested, {}, other);
    var out := Coalesce(requested, goal, round, priorNames, newId);
    if BecomesSearch(calls, round, priorNames) || BecomesRead(calls) {
      assert forall tc :: tc in out ==> tc == out[0] && tc.name in RESEARCH_TOOLS;
    }
  }
}
