/**
  TOML values: the printer of the config writer (`_toml_value`, `_list_val`) and a reader for the
  forms it prints, following sections "String", "Integer", "Float", "Boolean" and "Array" of the
  TOML v1.0.0 specification.
 */
module TomlValue {

  datatype Option<T> = None | Some(value: T)

  /** A configuration value; floats are opaque tokens. Dictionaries keep their insertion order. */
  datatype Value =
    | VNone
    | VBool(b: bool)
    | VInt(n: int)
    | VFloat(token: string)
    | VStr(s: string)
    | VList(items: seq<Value>)
    | VDict(entries: Entries)

  datatype Field = Field(key: string, value: Value)

  type Entries = seq<Field>

  /** Parsed data. Arrays of tables are a kind of their own; no text reads as `NNone`. */
  datatype Node =
    | NNone
    | NBool(b: bool)
    | NInt(n: int)
    | NFloat(token: string)
    | NStr(s: string)
    | NArr(items: seq<Node>)
    | NTab(table: map<string, Node>)
    | NTabs(tables: seq<map<string, Node>>)

  /** A non-empty list of dictionaries. */
  predicate TableList(v: Value) {
    v.VList? && v.items != [] && forall i :: 0 <= i < |v.items| ==> v.items[i].VDict?
  }

  /** The data a configuration value stands for. */
  function AsNode(v: Value): Node
    decreases v, 1
  {
    match v
    case VNone => NNone
    case VBool(b) => NBool(b)
    case VInt(n) => NInt(n)
    case VFloat(t) => NFloat(t)
    case VStr(s) => NStr(s)
    case VList(items) => if TableList(v) then NTabs(AsTables(items)) else NArr(AsNodes(items))
    case VDict(es) => NTab(AsTable(es))
  }

  function AsNodes(items: seq<Value>): seq<Node>
    decreases items, 0
  {
    if items == [] then [] else [AsNode(items[0])] + AsNodes(items[1..])
  }

  function AsTables(items: seq<Value>): (r: seq<map<string, Node>>)
    requires forall i :: 0 <= i < |items| ==> items[i].VDict?
    ensures |r| == |items|
    decreases items, 0
  {
    if items == [] then [] else [AsTable(items[0].entries)] + AsTables(items[1..])
  }

  function AsTable(es: Entries): map<string, Node>
    decreases es, 0
  {
    if es == [] then map[] else map[es[0].key := AsNode(es[0].value)] + AsTable(es[1..])
  }

  // ------------------------------------------------------------------ strings

  function Replace(s: string, c: char, with: string): string {
    if s == "" then "" else (if s[0] == c then with else [s[0]]) + Replace(s[1..], c, with)
  }

  /** The writer's three successive replacements. */
  function Escape(s: string): string {
    Replace(Replace(Replace(s, '\\', "\\\\"), '"', "\\\""), '\n', "\\n")
  }

  function EscapeChar(c: char): string {
    if c == '\\' then "\\\\" else if c == '"' then "\\\"" else if c == '\n' then "\\n" else [c]
  }

  function EscapeAll(s: string): string {
    if s == "" then "" else EscapeChar(s[0]) + EscapeAll(s[1..])
  }

  lemma {:induction false} ReplaceConcat(a: string, b: string, c: char, with: string)
    ensures Replace(a + b, c, with) == Replace(a, c, with) + Replace(b, c, with)
  {
    if a == "" {
      assert a + b == b;
    } else {
      assert (a + b)[0] == a[0] && (a + b)[1..] == a[1..] + b;
      ReplaceConcat(a[1..], b, c, with);
    }
  }

  lemma ReplaceOne(x: char, c: char, with: string)
    ensures Replace([x], c, with) == if x == c then with else [x]
  {
    assert [x][1..] == "";
  }

  lemma ReplaceTwo(x: char, y: char, c: char, with: string)
    ensures Replace([x, y], c, with) == (if x == c then with else [x]) + (if y == c then with else [y])
  {
    assert [x, y][1..] == [y];
    ReplaceOne(y, c, with);
  }

  lemma EscapeOne(x: char)
    ensures Escape([x]) == EscapeChar(x)
  {
    ReplaceOne(x, '\\', "\\\\");
    ReplaceOne(x, '"', "\\\"");
    ReplaceOne(x, '\n', "\\n");
    ReplaceTwo('\\', '\\', '"', "\\\"");
    ReplaceTwo('\\', '\\', '\n', "\\n");
    ReplaceTwo('\\', '"', '\n', "\\n");
  }

  /** The three replacements together escape each character once. */
  lemma {:induction false} EscapeIsPerCharacter(s: string)
    ensures Escape(s) == EscapeAll(s)
  {
    if s != "" {
      var head, rest := [s[0]], s[1..];
      assert s == head + rest;
      ReplaceConcat(head, rest, '\\', "\\\\");
      var h1, r1 := Replace(head, '\\', "\\\\"), Replace(rest, '\\', "\\\\");
      ReplaceConcat(h1, r1, '"', "\\\"");
      var h2, r2 := Replace(h1, '"', "\\\""), Replace(r1, '"', "\\\"");
      ReplaceConcat(h2, r2, '\n', "\\n");
      EscapeOne(s[0]);
      EscapeIsPerCharacter(rest);
    }
  }

  // ------------------------------------------------------------------ numbers

  function Digit(d: nat): char
    requires d < 10
  {
    '0' + d as char
  }

  function NatText(n: nat): string {
    if n < 10 then [Digit(n)] else NatText(n / 10) + [Digit(n % 10)]
  }

  function IntText(n: int): string {
    if n < 0 then "-" + NatText(-n) else NatText(n)
  }

  predicate IsDigit(c: char) {
    '0' <= c <= '9'
  }

  predicate AllDigits(s: string) {
    forall i :: 0 <= i < |s| ==> IsDigit(s[i])
  }

  function NatOf(s: string): nat
    requires AllDigits(s)
  {
    if s == "" then 0 else 10 * NatOf(s[..|s| - 1]) + (s[|s| - 1] as int - '0' as int)
  }

  lemma {:induction false} NatTextReads(n: nat)
    ensures NatText(n) != "" && AllDigits(NatText(n)) && NatOf(NatText(n)) == n
  {
    if n < 10 {
      assert NatText(n)[..0] == "";
    } else {
      NatTextReads(n / 10);
      assert NatText(n)[..|NatText(n)| - 1] == NatText(n / 10);
    }
  }

  // ------------------------------------------------------------------ printing

  function ListItems(items: seq<Value>): seq<string> {
    if items == [] then []
    else (match Print(items[0]) case None => [] case Some(t) => [t]) + ListItems(items[1..])
  }

  function Joined(parts: seq<string>): string {
    if parts == [] then "" else if |parts| == 1 then parts[0] else parts[0] + ", " + Joined(parts[1..])
  }

  /** `_toml_value`; null values and dictionaries have no text. */
  function Print(v: Value): Option<string> {
    match v
    case VNone => None
    case VBool(b) => Some(if b then "true" else "false")
    case VInt(n) => Some(IntText(n))
    case VFloat(t) => Some(t)
    case VStr(s) => Some("\"" + Escape(s) + "\"")
    case VList(items) => Some("[" + Joined(ListItems(items)) + "]")
    case VDict(_) => None
  }

  // ------------------------------------------------------------------ reading

  function SkipBlanks(s: string): (r: string)
    ensures |r| <= |s|
  {
    if s != "" && (s[0] == ' ' || s[0] == '\t') then SkipBlanks(s[1..]) else s
  }

  /** Characters a basic string may not hold unescaped. */
  predicate Control(c: char) {
    (c as int < 0x20 && c != '\t') || c as int == 0x7f
  }

  function Unescape(c: char): Option<char> {
    if c == 'b' then Some(8 as char)
    else if c == 't' then Some('\t')
    else if c == 'n' then Some('\n')
    else if c == 'f' then Some(12 as char)
    else if c == 'r' then Some('\r')
    else if c == '"' then Some('"')
    else if c == '\\' then Some('\\')
    else None
  }

  /** The rest of a basic string, after its opening quote, and what follows the closing one. */
  function ReadString(s: string): (r: Option<(string, string)>)
    ensures r.Some? ==> |r.value.1| < |s|
  {
    if s == "" then None
    else if s[0] == '"' then Some(("", s[1..]))
    else if s[0] == '\\' then
      if |s| == 1 || Unescape(s[1]).None? then None
      else
        match ReadString(s[2..])
        case None => None
        case Some((text, rest)) => Some(([Unescape(s[1]).value] + text, rest))
    else if Control(s[0]) then None
    else
      match ReadString(s[1..])
      case None => None
      case Some((text, rest)) => Some(([s[0]] + text, rest))
  }

  predicate Stops(c: char) {
    c == ',' || c == ']' || c == ' ' || c == '\t' || c == '#'
  }

  function Token(s: string): string {
    if s == "" || Stops(s[0]) then "" else [s[0]] + Token(s[1..])
  }

  predicate FloatChar(c: char) {
    IsDigit(c) || c == '+' || c == '-' || c == '.' || c == 'e'
  }

  /** The float forms the host prints: digits with a point or an exponent, infinities, not-a-number. */
  predicate IsFloat(t: string) {
    || t in {"inf", "-inf", "nan"}
    || (t != "" && (forall i :: 0 <= i < |t| ==> FloatChar(t[i])) && ('.' in t || 'e' in t) && (IsDigit(t[0]) || (t[0] == '-' && |t| > 1)))
  }

  function ReadToken(t: string): Option<Node> {
    if t == "true" then Some(NBool(true))
    else if t == "false" then Some(NBool(false))
    else if t != "" && AllDigits(t) then Some(NInt(NatOf(t)))
    else if |t| > 1 && t[0] == '-' && AllDigits(t[1..]) then Some(NInt(0 - NatOf(t[1..])))
    else if IsFloat(t) then Some(NFloat(t))
    else None
  }

  function ReadValue(s: string): (r: Option<(Node, string)>)
    ensures r.Some? ==> |r.value.1| < |s|
    decreases |s|, 0
  {
    if s == "" then None
    else if s[0] == '"' then
      match ReadString(s[1..])
      case None => None
      case Some((text, rest)) => Some((NStr(text), rest))
    else if s[0] == '[' then
      match ReadItems(s[1..])
      case None => None
      case Some((items, rest)) => Some((NArr(items), rest))
    else
      var t := Token(s);
      TokenIsPrefix(s);
      match ReadToken(t)
      case None => None
      case Some(node) => if t == "" then None else Some((node, s[|t|..]))
  }

  /** The items of an array, after its opening bracket. */
  function ReadItems(s: string): (r: Option<(seq<Node>, string)>)
    ensures r.Some? ==> |r.value.1| < |s|
    decreases |s|, 1
  {
    var s1 := SkipBlanks(s);
    if s1 == "" then None
    else if s1[0] == ']' then Some(([], s1[1..]))
    else
      match ReadValue(s1)
      case None => None
      case Some((node, rest)) =>
        var s2 := SkipBlanks(rest);
        if s2 == "" then None
        else if s2[0] == ']' then Some(([node], s2[1..]))
        else if s2[0] == ',' then
          match ReadItems(s2[1..])
          case None => None
          case Some((nodes, rest')) => Some(([node] + nodes, rest'))
        else None
  }

  lemma {:induction false} TokenIsPrefix(s: string)
    ensures Token(s) <= s
    ensures forall i :: 0 <= i < |Token(s)| ==> !Stops(Token(s)[i])
  {
    if s != "" && !Stops(s[0]) {
      TokenIsPrefix(s[1..]);
    }
  }

  // ------------------------------------------------------------------ round trip

  predicate PlainString(s: string) {
    forall i :: 0 <= i < |s| ==> !Control(s[i]) || s[i] == '\n'
  }

  /** Values that are not, and do not hold, nulls, dictionaries or strings with control characters. */
  predicate Plain(v: Value) {
    match v
    case VNone => false
    case VDict(_) => false
    case VStr(s) => PlainString(s)
    case VFloat(t) => IsFloat(t)
    case VList(items) => forall i :: 0 <= i < |items| ==> Plain(items[i])
    case _ => true
  }

  /** One escaped character in front of the rest of a string. */
  lemma EscapedCharReads(c: char, tail: string)
    requires !Control(c) || c == '\n'
    ensures ReadString(EscapeChar(c) + tail) ==
            match ReadString(tail)
            case None => None
            case Some((text, rest)) => Some(([c] + text, rest))
  {
    var s := EscapeChar(c) + tail;
    if |EscapeChar(c)| == 2 {
      assert s[0] == '\\' && s[1] == EscapeChar(c)[1] && s[2..] == tail;
    } else {
      assert s[0] == c && s[1..] == tail;
    }
  }

  lemma {:induction false} EscapedStringReads(s: string, rest: string)
    requires PlainString(s)
    ensures ReadString(EscapeAll(s) + "\"" + rest) == Some((s, rest))
  {
    if s == "" {
      assert EscapeAll(s) + "\"" + rest == "\"" + rest;
    } else {
      var tail := EscapeAll(s[1..]) + "\"" + rest;
      EscapedStringReads(s[1..], rest);
      EscapedCharReads(s[0], tail);
      assert EscapeAll(s) + "\"" + rest == EscapeChar(s[0]) + tail;
      assert s == [s[0]] + s[1..];
    }
  }

  /** A printed string reads back as itself exactly when newline and tab are its only control
      characters: no other control character is escaped. */
  lemma StringRoundTripIff(s: string)
    ensures ReadValue(Print(VStr(s)).value) == Some((NStr(s), "")) <==> PlainString(s)
  {
    EscapeIsPerCharacter(s);
    var text := Print(VStr(s)).value;
    assert text[1..] == EscapeAll(s) + "\"" + "";
    if PlainString(s) {
      EscapedStringReads(s, "");
    } else {
      ControlRejected(s, "");
    }
  }

  lemma {:induction false} ControlRejected(s: string, rest: string)
    requires !PlainString(s)
    ensures ReadString(EscapeAll(s) + "\"" + rest) == None
  {
    var tail := EscapeAll(s[1..]) + "\"" + rest;
    assert EscapeAll(s) + "\"" + rest == EscapeChar(s[0]) + tail;
    if |EscapeChar(s[0])| == 2 {
      assert (EscapeChar(s[0]) + tail)[2..] == tail;
    } else {
      assert (EscapeChar(s[0]) + tail)[1..] == tail;
    }
    var i :| 0 <= i < |s| && Control(s[i]) && s[i] != '\n';
    if i > 0 {
      assert s[1..][i - 1] == s[i];
      ControlRejected(s[1..], rest);
    }
  }

  predicate Delimited(rest: string) {
    rest == "" || Stops(rest[0])
  }

  lemma {:induction false} TokenOf(t: string, rest: string)
    requires (forall i :: 0 <= i < |t| ==> !Stops(t[i])) && Delimited(rest)
    ensures Token(t + rest) == t
  {
    if t == "" {
      assert t + rest == rest;
    } else {
      assert (t + rest)[0] == t[0] && (t + rest)[1..] == t[1..] + rest;
      TokenOf(t[1..], rest);
    }
  }

  lemma TokenReads(t: string, node: Node, rest: string)
    requires t != "" && t[0] != '"' && t[0] != '[' && Delimited(rest)
    requires forall i :: 0 <= i < |t| ==> !Stops(t[i])
    requires ReadToken(t) == Some(node)
    ensures ReadValue(t + rest) == Some((node, rest))
  {
    TokenOf(t, rest);
    assert (t + rest)[|t|..] == rest;
  }

  lemma IntReads(n: int)
    ensures ReadToken(IntText(n)) == Some(NInt(n))
    ensures IntText(n) != "" && forall i :: 0 <= i < |IntText(n)| ==> IsDigit(IntText(n)[i]) || IntText(n)[i] == '-'
  {
    var t := IntText(n);
    if n < 0 {
      NatTextReads(-n);
      assert t[0] == '-' && t[1..] == NatText(-n) && |t| > 1;
      assert t != "true" && t != "false";
      assert !AllDigits(t);
    } else {
      NatTextReads(n);
      assert IsDigit(t[0]);
      assert t != "true" && t != "false";
    }
  }

  lemma FloatReads(t: string)
    requires IsFloat(t)
    ensures ReadToken(t) == Some(NFloat(t))
    ensures t != "" && t[0] != '"' && t[0] != '[' && forall i :: 0 <= i < |t| ==> !Stops(t[i])
  {
    if '.' in t {
      NotAllDigits(t, '.');
    } else if 'e' in t {
      NotAllDigits(t, 'e');
    }
  }

  lemma NotAllDigits(t: string, c: char)
    requires c in t && !IsDigit(c) && c != '-'
    ensures !AllDigits(t)
    ensures t != "" && t[0] == '-' ==> !AllDigits(t[1..])
  {
    var i :| 0 <= i < |t| && t[i] == c;
    if t[0] == '-' {
      assert t[1..][i - 1] == c;
    }
  }

  /** Every plain value reads back from its text as itself, whatever delimited text follows. */
  lemma {:induction false} ValueRoundTrip(v: Value, rest: string)
    requires Plain(v) && Delimited(rest)
    ensures Print(v).Some? && ReadValue(Print(v).value + rest) == Some((AsNode(v), rest))
    decreases v, 1
  {
    match v
    case VBool(b) =>
      TokenReads(if b then "true" else "false", NBool(b), rest);
    case VInt(n) =>
      IntReads(n);
      TokenReads(IntText(n), NInt(n), rest);
    case VFloat(t) =>
      FloatReads(t);
      TokenReads(t, NFloat(t), rest);
    case VStr(s) =>
      QuotedReads(s, rest);
    case VList(items) =>
      ItemsRoundTrip(items, rest);
      BracketedReads(Joined(ListItems(items)), AsNodes(items), rest);
      PlainListNode(items);
  }

  lemma QuotedReads(s: string, rest: string)
    requires PlainString(s)
    ensures ReadValue(Print(VStr(s)).value + rest) == Some((NStr(s), rest))
  {
    EscapeIsPerCharacter(s);
    EscapedStringReads(s, rest);
    var text := Print(VStr(s)).value + rest;
    assert text[1..] == EscapeAll(s) + "\"" + rest;
  }

  lemma BracketedReads(inner: string, nodes: seq<Node>, rest: string)
    requires ReadItems(inner + "]" + rest) == Some((nodes, rest))
    ensures ReadValue("[" + inner + "]" + rest) == Some((NArr(nodes), rest))
  {
    var text := "[" + inner + "]" + rest;
    assert text[1..] == inner + "]" + rest;
  }

  lemma PlainListNode(items: seq<Value>)
    requires forall i :: 0 <= i < |items| ==> Plain(items[i])
    ensures AsNode(VList(items)) == NArr(AsNodes(items))
  {
    assert items != [] ==> !items[0].VDict?;
  }

  /** No text starts with a blank, a comma or a closing bracket. */
  lemma PrintStarts(v: Value)
    requires Plain(v)
    ensures Print(v).Some? && Print(v).value != ""
    ensures Print(v).value[0] != ' ' && Print(v).value[0] != '\t' && Print(v).value[0] != ']'
  {
    match v
    case VInt(n) => IntReads(n);
    case VFloat(t) => FloatReads(t);
    case _ =>
  }

  lemma {:induction false} ItemsRoundTrip(items: seq<Value>, rest: string)
    requires forall i :: 0 <= i < |items| ==> Plain(items[i])
    ensures ReadItems(Joined(ListItems(items)) + "]" + rest) == Some((AsNodes(items), rest))
    decreases items, 0
  {
    if items == [] {
      assert Joined(ListItems(items)) + "]" + rest == "]" + rest;
    } else {
      var head, tail := items[0], items[1..];
      PrintStarts(head);
      var t, texts := Print(head).value, ListItems(tail);
      ItemsRoundTrip(tail, rest);
      if tail == [] {
        ValueRoundTrip(head, "]" + rest);
        ReadLastItem(t, AsNode(head), rest);
      } else {
        PrintStarts(tail[0]);
        ValueRoundTrip(head, ", " + (Joined(texts) + "]" + rest));
        ReadMoreItems(t, AsNode(head), Joined(texts) + "]" + rest, AsNodes(tail), rest);
      }
      JoinedFirst(t, texts, rest);
      assert ListItems(items) == [t] + texts;
      var nodes := [AsNode(head)] + AsNodes(tail);
      assert tail == [] ==> nodes == [AsNode(head)];
      assert AsNodes(items) == nodes;
      var text := Joined([t] + texts) + "]" + rest;
      assert ReadItems(text) == Some((nodes, rest));
    }
  }

  lemma JoinedFirst(t: string, texts: seq<string>, rest: string)
    ensures texts == [] ==> Joined([t] + texts) + "]" + rest == t + ("]" + rest)
    ensures texts != [] ==> Joined([t] + texts) + "]" + rest == t + (", " + (Joined(texts) + "]" + rest))
  {
    var all := [t] + texts;
    assert all[1..] == texts && all[0] == t;
    if texts == [] {
      assert Joined(all) == t;
    } else {
      assert Joined(all) == t + ", " + Joined(texts);
    }
  }

  predicate StartsValue(t: string) {
    t != "" && t[0] != ' ' && t[0] != '\t' && t[0] != ']'
  }

  lemma ReadLastItem(t: string, node: Node, rest: string)
    requires StartsValue(t) && ReadValue(t + ("]" + rest)) == Some((node, "]" + rest))
    ensures ReadItems(t + ("]" + rest)) == Some(([node], rest))
  {
    var s := t + ("]" + rest);
    assert SkipBlanks(s) == s && SkipBlanks("]" + rest) == "]" + rest && ("]" + rest)[1..] == rest;
  }

  lemma ReadMoreItems(t: string, node: Node, more: string, nodes: seq<Node>, rest: string)
    requires StartsValue(t) && ReadValue(t + (", " + more)) == Some((node, ", " + more))
    requires ReadItems(more) == Some((nodes, rest))
    ensures ReadItems(t + (", " + more)) == Some(([node] + nodes, rest))
  {
    var s, after := t + (", " + more), ", " + more;
    assert SkipBlanks(s) == s && SkipBlanks(after) == after;
    assert after[1..] == " " + more;
    SkipOne(more);
  }

  /** Reading items does not mind a leading blank. */
  lemma SkipOne(s: string)
    ensures ReadItems(" " + s) == ReadItems(s)
  {
    assert (" " + s)[1..] == s;
    assert SkipBlanks(" " + s) == SkipBlanks(s);
  }

  predicate OneLine(s: string) {
    forall i :: 0 <= i < |s| ==> s[i] != '\n'
  }

  lemma {:induction false} EscapedOneLine(s: string)
    ensures OneLine(EscapeAll(s))
  {
    if s != "" {
      EscapedOneLine(s[1..]);
    }
  }

  lemma {:induction false} JoinedOneLine(texts: seq<string>)
    requires forall i :: 0 <= i < |texts| ==> OneLine(texts[i])
    ensures OneLine(Joined(texts))
  {
    if |texts| > 1 {
      JoinedOneLine(texts[1..]);
      assert OneLine(texts[0]);
    }
  }

  lemma {:induction false} ItemsOneLine(items: seq<Value>)
    requires forall i :: 0 <= i < |items| ==> Plain(items[i])
    ensures forall i :: 0 <= i < |ListItems(items)| ==> OneLine(ListItems(items)[i])
    decreases items, 0
  {
    if items != [] {
      PrintStarts(items[0]);
      PrintOneLine(items[0]);
      ItemsOneLine(items[1..]);
    }
  }

  /** Plain values are printed on one line. */
  lemma {:induction false} PrintOneLine(v: Value)
    requires Plain(v)
    ensures Print(v).Some? && OneLine(Print(v).value)
    decreases v, 1
  {
    match v
    case VInt(n) => IntReads(n);
    case VFloat(t) => assert forall i :: 0 <= i < |t| ==> t[i] != '\n';
    case VStr(s) =>
      EscapeIsPerCharacter(s);
      EscapedOneLine(s);
    case VList(items) =>
      ItemsOneLine(items);
      JoinedOneLine(ListItems(items));
    case _ =>
  }
}
