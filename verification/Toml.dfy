/**
  Whole TOML documents: the printer of the config writer (`dict_to_toml_str`) and a line reader for
  sections "Comment", "Key/Value Pair", "Keys", "Table" and "Array of Tables" of the TOML v1.0.0
  specification, restricted to bare undotted keys, one entry per line and headers of at most two
  keys.
 */
module Toml {
  import opened TomlValue

  // ------------------------------------------------------------------ printing

  /** One element of the printer's list of lines; headers carry a leading newline. */
  datatype Row = Pair(key: string, text: string) | Head(path: seq<string>) | ArrayHead(path: seq<string>)

  function Dotted(path: seq<string>): string {
    if path == [] then "" else if |path| == 1 then path[0] else path[0] + "." + Dotted(path[1..])
  }

  function LineText(row: Row): string {
    match row
    case Pair(k, t) => k + " = " + t
    case Head(p) => "[" + Dotted(p) + "]"
    case ArrayHead(p) => "[[" + Dotted(p) + "]]"
  }

  function RowText(row: Row): string {
    if row.Pair? then LineText(row) else "\n" + LineText(row)
  }

  function Texts(rows: seq<Row>): seq<string> {
    if rows == [] then [] else [RowText(rows[0])] + Texts(rows[1..])
  }

  function PairRows(k: string, v: Value): seq<Row> {
    match Print(v)
    case None => []
    case Some(t) => [Pair(k, t)]
  }

  predicate HoldsDict(v: Value) {
    v.VList? && exists i :: 0 <= i < |v.items| && v.items[i].VDict?
  }

  /** Scalars and scalar lists, as at the top level, in subsections and in array items. */
  function FlatRow(f: Field): seq<Row> {
    if f.value.VDict? || HoldsDict(f.value) then [] else PairRows(f.key, f.value)
  }

  function FlatRows(es: Entries): seq<Row> {
    if es == [] then [] else FlatRow(es[0]) + FlatRows(es[1..])
  }

  /** Scalars and lists of a section; a list with some dictionaries is printed without them. */
  function SectionRow(f: Field): seq<Row> {
    if f.value.VDict? || TableList(f.value) then [] else PairRows(f.key, f.value)
  }

  function SectionRows(es: Entries): seq<Row> {
    if es == [] then [] else SectionRow(es[0]) + SectionRows(es[1..])
  }

  function SubRow(k: string, f: Field): seq<Row> {
    if f.value.VDict? then [Head([k, f.key])] + FlatRows(f.value.entries) else []
  }

  function SubRows(k: string, es: Entries): seq<Row> {
    if es == [] then [] else SubRow(k, es[0]) + SubRows(k, es[1..])
  }

  function ItemRows(path: seq<string>, items: seq<Value>): seq<Row>
    requires forall i :: 0 <= i < |items| ==> items[i].VDict?
  {
    if items == [] then [] else [ArrayHead(path)] + FlatRows(items[0].entries) + ItemRows(path, items[1..])
  }

  function ArrayRow(at: seq<string>, f: Field): seq<Row> {
    if TableList(f.value) then ItemRows(at + [f.key], f.value.items) else []
  }

  function ArrayRows(at: seq<string>, es: Entries): seq<Row> {
    if es == [] then [] else ArrayRow(at, es[0]) + ArrayRows(at, es[1..])
  }

  function OneSection(k: string, es: Entries): seq<Row> {
    [Head([k])] + SectionRows(es) + SubRows(k, es) + ArrayRows([k], es)
  }

  function SectionsRow(f: Field): seq<Row> {
    if f.value.VDict? then OneSection(f.key, f.value.entries) else []
  }

  function SectionsRows(d: Entries): seq<Row> {
    if d == [] then [] else SectionsRow(d[0]) + SectionsRows(d[1..])
  }

  function DocRows(d: Entries): seq<Row> {
    FlatRows(d) + SectionsRows(d) + ArrayRows([], d)
  }

  function Lines(texts: seq<string>): string {
    if texts == [] then "" else if |texts| == 1 then texts[0] else texts[0] + "\n" + Lines(texts[1..])
  }

  function DocText(d: Entries): string {
    Lines(Texts(DocRows(d))) + "\n"
  }

  // ------------------------------------------------------------------ reading

  datatype Line = Blank | Entry(key: string, node: Node) | Header(path: seq<string>) | ArrayHeader(path: seq<string>)

  function LinesOf(s: string): (r: seq<string>)
    ensures r != []
  {
    if s == "" then [""]
    else if s[0] == '\n' then [""] + LinesOf(s[1..])
    else
      var rest := LinesOf(s[1..]);
      [[s[0]] + rest[0]] + rest[1..]
  }

  predicate BareChar(c: char) {
    'a' <= c <= 'z' || 'A' <= c <= 'Z' || '0' <= c <= '9' || c == '_' || c == '-'
  }

  predicate Bare(k: string) {
    k != "" && forall i :: 0 <= i < |k| ==> BareChar(k[i])
  }

  function BarePrefix(s: string): (r: string)
    ensures |r| <= |s|
  {
    if s == "" || !BareChar(s[0]) then "" else [s[0]] + BarePrefix(s[1..])
  }

  /** A dotted key and what follows it, blanks skipped. */
  function ReadPath(s: string): (r: Option<(seq<string>, string)>)
    ensures r.Some? ==> r.value.0 != []
    decreases |s|
  {
    var s1 := SkipBlanks(s);
    var k := BarePrefix(s1);
    if k == "" then None
    else
      var s2 := SkipBlanks(s1[|k|..]);
      if s2 == "" || s2[0] != '.' then Some(([k], s2))
      else
        match ReadPath(s2[1..])
        case None => None
        case Some((path, rest)) => Some(([k] + path, rest))
  }

  /** Only blanks and a comment are left on the line. */
  predicate Ends(s: string) {
    var s1 := SkipBlanks(s);
    s1 == "" || (s1[0] == '#' && forall i :: 0 <= i < |s1| ==> !Control(s1[i]))
  }

  function ReadLine(s: string): Option<Line> {
    var s1 := SkipBlanks(s);
    if Ends(s1) then Some(Blank)
    else if s1[0] == '[' then
      if |s1| > 1 && s1[1] == '[' then
        match ReadPath(s1[2..])
        case Some((path, rest)) =>
          if |rest| > 1 && rest[0] == ']' && rest[1] == ']' && Ends(rest[2..]) then Some(ArrayHeader(path)) else None
        case None => None
      else
        match ReadPath(s1[1..])
        case Some((path, rest)) =>
          if rest != "" && rest[0] == ']' && Ends(rest[1..]) then Some(Header(path)) else None
        case None => None
    else
      match ReadPath(s1)
      case Some((path, rest)) =>
        if |path| == 1 && rest != "" && rest[0] == '='
        then
          (match ReadValue(SkipBlanks(rest[1..]))
           case Some((node, rest')) => if Ends(rest') then Some(Entry(path[0], node)) else None
           case None => None)
        else None
      case None => None
  }

  /** The lines that say something. */
  function ReadLines(lines: seq<string>): Option<seq<Line>> {
    if lines == [] then Some([])
    else
      match (ReadLine(lines[0]), ReadLines(lines[1..]))
      case (Some(Blank), Some(rest)) => Some(rest)
      case (Some(line), Some(rest)) => Some([line] + rest)
      case _ => None
  }

  type Table = map<string, Node>

  /** The data so far and the top-level tables that have had a header of their own. */
  datatype Doc = Doc(root: Table, headed: set<string>)

  predicate Opens(line: Line) {
    line.Header? || line.ArrayHeader?
  }

  /** The entries up to the next header; a repeated key is an error. */
  function ReadBody(lines: seq<Line>, body: Table): (r: Option<(Table, seq<Line>)>)
    ensures r.Some? ==> |r.value.1| <= |lines|
  {
    if lines == [] || !lines[0].Entry? then Some((body, lines))
    else if lines[0].key in body then None
    else ReadBody(lines[1..], body[lines[0].key := lines[0].node])
  }

  /** The table that keys below `at` go to: the root, a table or the last table of an array. */
  function Level(d: Doc, at: seq<string>): Option<Table> {
    if at == [] then Some(d.root)
    else if |at| > 1 then None
    else if at[0] !in d.root then Some(map[])
    else
      match d.root[at[0]]
      case NTab(t) => Some(t)
      case NTabs(ts) => if ts == [] then None else Some(ts[|ts| - 1])
      case _ => None
  }

  function SetLevel(d: Doc, at: seq<string>, t: Table): Doc {
    if at == [] then d.(root := t)
    else if at[0] in d.root && d.root[at[0]].NTabs? && d.root[at[0]].tables != [] then
      var ts := d.root[at[0]].tables;
      d.(root := d.root[at[0] := NTabs(ts[..|ts| - 1] + [t])])
    else d.(root := d.root[at[0] := NTab(t)])
  }

  function Attach(d: Doc, head: Line, body: Table): Option<Doc>
    requires Opens(head)
  {
    if head.path == [] then None
    else
      var at, k := head.path[..|head.path| - 1], head.path[|head.path| - 1];
      match Level(d, at)
      case None => None
      case Some(t) =>
        if head.ArrayHeader? then
          if k !in t then Some(SetLevel(d, at, t[k := NTabs([body])]))
          else if t[k].NTabs? then Some(SetLevel(d, at, t[k := NTabs(t[k].tables + [body])]))
          else None
        else
          var d' := if at == [] then d.(headed := d.headed + {k}) else d;
          if k !in t then Some(SetLevel(d', at, t[k := NTab(body)]))
          else if at == [] && t[k].NTab? && k !in d.headed && t[k].table.Keys !! body.Keys
          then Some(SetLevel(d', at, t[k := NTab(t[k].table + body)]))
          else None
  }

  function ReadTables(lines: seq<Line>, d: Doc): Option<Doc>
    decreases |lines|
  {
    if lines == [] then Some(d)
    else if !Opens(lines[0]) then None
    else
      match ReadBody(lines[1..], map[])
      case None => None
      case Some((body, rest)) =>
        match Attach(d, lines[0], body)
        case None => None
        case Some(d') => ReadTables(rest, d')
  }

  function ReadAll(lines: seq<Line>): Option<Table> {
    match ReadBody(lines, map[])
    case None => None
    case Some((root, rest)) =>
      match ReadTables(rest, Doc(root, {}))
      case None => None
      case Some(d) => Some(d.root)
  }

  function Read(text: string): Option<Table> {
    match ReadLines(LinesOf(text))
    case None => None
    case Some(lines) => ReadAll(lines)
  }

  // ------------------------------------------------------------------ lexical half

  lemma {:induction false} FirstLine(line: string, rest: string)
    requires OneLine(line)
    ensures LinesOf(line + "\n" + rest) == [line] + LinesOf(rest)
  {
    var s := line + "\n" + rest;
    if line == "" {
      assert s[0] == '\n' && s[1..] == rest;
    } else {
      assert s[0] == line[0] && s[1..] == line[1..] + "\n" + rest;
      FirstLine(line[1..], rest);
      assert [line[0]] + line[1..] == line;
      assert ([line[1..]] + LinesOf(rest))[1..] == LinesOf(rest);
    }
  }

  /** A row whose text reads back. */
  predicate Readable(row: Row) {
    match row
    case Pair(k, t) =>
      Bare(k) && OneLine(t) && StartsValue(t) && ReadValue(t).Some? && ReadValue(t).value.1 == ""
    case Head(p) => p != [] && forall i :: 0 <= i < |p| ==> Bare(p[i])
    case ArrayHead(p) => p != [] && forall i :: 0 <= i < |p| ==> Bare(p[i])
  }

  function Symbol(row: Row): Line
    requires Readable(row)
  {
    match row
    case Pair(k, t) => Entry(k, ReadValue(t).value.0)
    case Head(p) => Header(p)
    case ArrayHead(p) => ArrayHeader(p)
  }

  predicate AllReadable(rows: seq<Row>) {
    forall i :: 0 <= i < |rows| ==> Readable(rows[i])
  }

  function Symbols(rows: seq<Row>): (r: seq<Line>)
    requires AllReadable(rows)
  {
    seq(|rows|, i requires 0 <= i < |rows| => Symbol(rows[i]))
  }

  lemma {:induction false} BarePrefixOf(k: string, rest: string)
    requires (forall i :: 0 <= i < |k| ==> BareChar(k[i])) && (rest == "" || !BareChar(rest[0]))
    ensures BarePrefix(k + rest) == k
  {
    if k == "" {
      assert k + rest == rest;
    } else {
      assert (k + rest)[0] == k[0] && (k + rest)[1..] == k[1..] + rest;
      BarePrefixOf(k[1..], rest);
    }
  }

  /** A bare key before something that ends it. */
  lemma KeyThen(k: string, after: string)
    requires Bare(k) && after != "" && !BareChar(after[0])
    ensures SkipBlanks(k + after) == k + after && BarePrefix(k + after) == k && (k + after)[|k|..] == after
  {
    BarePrefixOf(k, after);
  }

  lemma {:induction false} PathReads(path: seq<string>, rest: string)
    requires path != [] && forall i :: 0 <= i < |path| ==> Bare(path[i])
    requires rest != "" && rest[0] == ']'
    ensures ReadPath(Dotted(path) + rest) == Some((path, rest))
  {
    var k := path[0];
    if |path| == 1 {
      KeyThen(k, rest);
      assert SkipBlanks(rest) == rest && path == [k];
    } else {
      PathReads(path[1..], rest);
      DotReads(k, Dotted(path[1..]) + rest, path[1..], rest);
      DottedFirst(path, rest);
    }
  }

  lemma DottedFirst(path: seq<string>, rest: string)
    requires |path| > 1
    ensures Dotted(path) + rest == path[0] + ("." + (Dotted(path[1..]) + rest))
    ensures [path[0]] + path[1..] == path
  {
    DotBetween(path[0], Dotted(path[1..]), rest);
  }

  lemma DotBetween(a: string, b: string, c: string)
    ensures a + "." + b + c == a + ("." + (b + c))
  {
  }

  lemma DotReads(k: string, tail: string, path: seq<string>, rest: string)
    requires Bare(k) && ReadPath(tail) == Some((path, rest))
    ensures ReadPath(k + ("." + tail)) == Some(([k] + path, rest))
  {
    var after := "." + tail;
    KeyThen(k, after);
    assert SkipBlanks(after) == after && after[1..] == tail;
  }

  lemma PairReads(k: string, t: string)
    requires Readable(Pair(k, t))
    ensures ReadLine(k + " = " + t) == Some(Entry(k, ReadValue(t).value.0))
  {
    KeyReads(k, "= " + t);
    ValueFollows(t);
    var s := k + " = " + t;
    assert s == k + (" " + ("= " + t));
    assert SkipBlanks(s) == s;
    assert SkipBlanks("") == "";
  }

  /** A bare key, a blank and what comes after it. */
  lemma KeyReads(k: string, after: string)
    requires Bare(k) && after != "" && after[0] == '='
    ensures ReadPath(k + (" " + after)) == Some(([k], after))
  {
    var s := k + (" " + after);
    assert SkipBlanks(s) == s;
    BarePrefixOf(k, " " + after);
    assert s[|k|..] == " " + after && (" " + after)[1..] == after;
    assert SkipBlanks(" " + after) == SkipBlanks(after) == after;
  }

  lemma ValueFollows(t: string)
    requires StartsValue(t)
    ensures SkipBlanks(("= " + t)[1..]) == t
  {
    assert ("= " + t)[1..] == " " + t && (" " + t)[1..] == t;
    assert SkipBlanks(" " + t) == SkipBlanks(t) == t;
  }

  lemma HeadReads(path: seq<string>)
    requires Readable(Head(path))
    ensures ReadLine("[" + Dotted(path) + "]") == Some(Header(path))
  {
    var s := "[" + Dotted(path) + "]";
    PathReads(path, "]");
    assert SkipBlanks(s) == s && s[1..] == Dotted(path) + "]" && "]"[1..] == "";
    assert s[1] == path[0][0] by { DottedStarts(path); }
  }

  lemma ArrayHeadReads(path: seq<string>)
    requires Readable(ArrayHead(path))
    ensures ReadLine("[[" + Dotted(path) + "]]") == Some(ArrayHeader(path))
  {
    var s := "[[" + Dotted(path) + "]]";
    PathReads(path, "]]");
    assert SkipBlanks(s) == s && s[2..] == Dotted(path) + "]]" && "]]"[2..] == "";
  }

  lemma DottedStarts(path: seq<string>)
    requires path != [] && path[0] != ""
    ensures Dotted(path) != "" && Dotted(path)[0] == path[0][0]
  {
  }

  lemma {:induction false} DottedOneLine(path: seq<string>)
    requires forall i :: 0 <= i < |path| ==> Bare(path[i])
    ensures OneLine(Dotted(path))
  {
    if |path| > 1 {
      DottedOneLine(path[1..]);
    }
  }

  function Terminated(texts: seq<string>): string {
    if texts == [] then "" else texts[0] + "\n" + Terminated(texts[1..])
  }

  lemma {:induction false} JoinTerminates(texts: seq<string>)
    requires texts != []
    ensures Lines(texts) + "\n" == Terminated(texts)
  {
    if |texts| == 1 {
      assert Terminated(texts[1..]) == "";
    } else {
      JoinTerminates(texts[1..]);
    }
  }

  lemma HeadLines(line: string, rest: string)
    requires OneLine(line)
    ensures LinesOf("\n" + line + "\n" + rest) == ["", line] + LinesOf(rest)
  {
    var tail := line + "\n" + rest;
    FirstLine(line, rest);
    FirstLine("", tail);
    assert "\n" + line + "\n" + rest == "" + "\n" + tail;
    assert [""] + ([line] + LinesOf(rest)) == ["", line] + LinesOf(rest);
  }

  lemma LineIsOneLine(row: Row)
    requires Readable(row)
    ensures OneLine(LineText(row))
  {
    if !row.Pair? {
      DottedOneLine(row.path);
    }
  }

  /** The physical lines of one row. */
  lemma RowLines(row: Row, rest: string)
    requires Readable(row)
    ensures LinesOf(RowText(row) + "\n" + rest)
         == (if row.Pair? then [LineText(row)] else ["", LineText(row)]) + LinesOf(rest)
  {
    LineIsOneLine(row);
    if row.Pair? {
      FirstLine(LineText(row), rest);
    } else {
      HeadLines(LineText(row), rest);
    }
  }

  lemma RowReads(row: Row)
    requires Readable(row)
    ensures ReadLine(LineText(row)) == Some(Symbol(row))
  {
    match row
    case Pair(k, t) => PairReads(k, t);
    case Head(p) => HeadReads(p);
    case ArrayHead(p) => ArrayHeadReads(p);
  }

  lemma ReadCons(line: string, rest: seq<string>)
    ensures ReadLines([line] + rest) ==
            match (ReadLine(line), ReadLines(rest))
            case (Some(Blank), Some(ls)) => Some(ls)
            case (Some(l), Some(ls)) => Some([l] + ls)
            case _ => None
  {
    var all := [line] + rest;
    assert all[0] == line && all[1..] == rest;
  }

  lemma {:induction false} TerminatedReads(rows: seq<Row>)
    requires AllReadable(rows)
    ensures ReadLines(LinesOf(Terminated(Texts(rows)))) == Some(Symbols(rows))
  {
    if rows == [] {
      assert ReadLines([""]) == Some([]) by { ReadCons("", []); assert [""] + [] == [""]; }
    } else {
      var row, rest := rows[0], Terminated(Texts(rows[1..]));
      TerminatedReads(rows[1..]);
      RowLines(row, rest);
      RowReads(row);
      var symbols := Symbols(rows[1..]);
      assert [Symbol(row)] + symbols == Symbols(rows);
      var line := LineText(row);
      ReadCons(line, LinesOf(rest));
      if !row.Pair? {
        ReadCons("", [line] + LinesOf(rest));
        assert [""] + ([line] + LinesOf(rest)) == ["", line] + LinesOf(rest);
      }
    }
  }

  /** The reader recovers the rows from the joined text. */
  lemma RowsReadBack(rows: seq<Row>)
    requires AllReadable(rows)
    ensures ReadLines(LinesOf(Lines(Texts(rows)) + "\n")) == Some(Symbols(rows))
  {
    if rows == [] {
      FirstLine("", "");
      ReadCons("", [""]);
      TerminatedReads([]);
      assert Lines(Texts(rows)) + "\n" == "" + "\n" + "";
    } else {
      JoinTerminates(Texts(rows));
      TerminatedReads(rows);
    }
  }

  // ------------------------------------------------------------------ the supported fragment

  predicate DistinctNames(es: Entries) {
    forall i, j :: 0 <= i < j < |es| ==> es[i].key != es[j].key
  }

  predicate BareNames(es: Entries) {
    forall i :: 0 <= i < |es| ==> Bare(es[i].key)
  }

  predicate Flat(es: Entries) {
    DistinctNames(es) && BareNames(es) && forall i :: 0 <= i < |es| ==> Plain(es[i].value)
  }

  predicate FlatTables(v: Value) {
    TableList(v) && forall i :: 0 <= i < |v.items| ==> Flat(v.items[i].entries)
  }

  predicate SectionValue(v: Value) {
    Plain(v) || (v.VDict? && Flat(v.entries)) || FlatTables(v)
  }

  predicate Section(es: Entries) {
    DistinctNames(es) && BareNames(es) && forall i :: 0 <= i < |es| ==> SectionValue(es[i].value)
  }

  predicate DocValue(v: Value) {
    Plain(v) || (v.VDict? && Section(v.entries)) || FlatTables(v)
  }

  /** Bare distinct keys, plain values, tables at most two deep, and arrays of tables with flat items
      at the top level or directly inside a section. */
  predicate Supported(d: Entries) {
    DistinctNames(d) && BareNames(d) && forall i :: 0 <= i < |d| ==> DocValue(d[i].value)
  }

  // ------------------------------------------------------------------ structural half

  datatype Kind = Scalar | Sub | Array

  function KindOf(v: Value): Kind {
    if v.VDict? then Sub else if TableList(v) then Array else Scalar
  }

  /** The entries that one of the printer's passes is about. */
  function Only(es: Entries, kind: Kind): Entries {
    if es == [] then []
    else (if KindOf(es[0].value) == kind then [es[0]] else []) + Only(es[1..], kind)
  }

  function Names(es: Entries): set<string> {
    set f | f in es :: f.key
  }

  /** Every scalar is plain. */
  predicate PlainScalars(es: Entries) {
    BareNames(es) && forall i :: 0 <= i < |es| ==> KindOf(es[i].value).Scalar? ==> Plain(es[i].value)
  }

  lemma SymbolsConcat(a: seq<Row>, b: seq<Row>)
    requires AllReadable(a) && AllReadable(b)
    ensures AllReadable(a + b) && Symbols(a + b) == Symbols(a) + Symbols(b)
  {
  }

  lemma SymbolsCons(row: Row, rows: seq<Row>, tail: seq<Line>)
    requires Readable(row) && AllReadable(rows)
    ensures AllReadable([row] + rows)
    ensures Symbols([row] + rows) + tail == [Symbol(row)] + (Symbols(rows) + tail)
    ensures ([Symbol(row)] + (Symbols(rows) + tail))[1..] == Symbols(rows) + tail
  {
  }

  lemma {:induction false} TableKeys(es: Entries)
    ensures AsTable(es).Keys == Names(es)
  {
    if es != [] {
      TableKeys(es[1..]);
      assert es == [es[0]] + es[1..];
      assert Names(es) == {es[0].key} + Names(es[1..]);
    }
  }

  lemma {:induction false} OnlyNames(es: Entries, kind: Kind)
    ensures Names(Only(es, kind)) <= Names(es)
  {
    if es != [] {
      OnlyNames(es[1..], kind);
      assert es == [es[0]] + es[1..];
      assert Names(es) == {es[0].key} + Names(es[1..]);
    }
  }

  lemma FirstNameIsFresh(es: Entries)
    requires es != [] && DistinctNames(es)
    ensures es[0].key !in Names(es[1..]) && DistinctNames(es[1..])
  {
    var rest := es[1..];
    forall f | f in rest ensures f.key != es[0].key {
      var i :| 0 <= i < |rest| && rest[i] == f;
      assert es[i + 1] == f;
    }
  }

  lemma {:induction false} OnlyTable(es: Entries, kind: Kind)
    requires es != []
    ensures AsTable(Only(es, kind)) ==
            if KindOf(es[0].value) == kind then map[es[0].key := AsNode(es[0].value)] + AsTable(Only(es[1..], kind))
            else AsTable(Only(es[1..], kind))
  {
    var rest := Only(es[1..], kind);
    assert ([es[0]] + rest)[0] == es[0] && ([es[0]] + rest)[1..] == rest && [] + rest == rest;
  }

  lemma FirstJoins(first: Table, k: string, t0: Table, t1: Table, t2: Table)
    requires first.Keys == {k} && k !in t0 && k !in t1 && k !in t2
    ensures first + (t0 + t1 + t2) == (first + t0) + t1 + t2
    ensures first + (t0 + t1 + t2) == t0 + (first + t1) + t2
    ensures first + (t0 + t1 + t2) == t0 + t1 + (first + t2)
  {
    MergeAssoc(first, t0 + t1, t2);
    MergeAssoc(first, t0, t1);
    MergeSwap(first, k, t0);
    MergeAssoc(t0, first, t1);
    MergeSwap(first, k, t0 + t1);
    MergeAssoc(t0 + t1, first, t2);
  }

  lemma MergeAssoc(a: Table, b: Table, c: Table)
    ensures a + (b + c) == (a + b) + c
  {
  }

  lemma MergeSwap(first: Table, k: string, t: Table)
    requires first.Keys == {k} && k !in t
    ensures first + t == t + first
  {
  }

  lemma OnlyMisses(es: Entries, kind: Kind, k: string)
    requires k !in Names(es)
    ensures k !in AsTable(Only(es, kind))
  {
    OnlyNames(es, kind);
    TableKeys(Only(es, kind));
  }

  /** The three passes together cover every entry once. */
  lemma {:induction false} PassesCover(es: Entries)
    requires DistinctNames(es)
    ensures AsTable(es) == AsTable(Only(es, Scalar)) + AsTable(Only(es, Sub)) + AsTable(Only(es, Array))
  {
    if es != [] {
      var k, rest := es[0].key, es[1..];
      FirstNameIsFresh(es);
      PassesCover(rest);
      OnlyTable(es, Scalar);
      OnlyTable(es, Sub);
      OnlyTable(es, Array);
      OnlyMisses(rest, Scalar, k);
      OnlyMisses(rest, Sub, k);
      OnlyMisses(rest, Array, k);
      FirstJoins(map[k := AsNode(es[0].value)], k,
                 AsTable(Only(rest, Scalar)), AsTable(Only(rest, Sub)), AsTable(Only(rest, Array)));
    }
  }

  lemma {:induction false} OnlyScalars(es: Entries)
    requires forall i :: 0 <= i < |es| ==> Plain(es[i].value)
    ensures Only(es, Scalar) == es
  {
    if es != [] {
      OnlyScalars(es[1..]);
      PlainIsScalar(es[0].value);
    }
  }

  lemma PlainIsScalar(v: Value)
    requires Plain(v)
    ensures KindOf(v).Scalar? && !HoldsDict(v)
  {
    if v.VList? && v.items != [] {
      assert !v.items[0].VDict?;
    }
  }

  lemma TableListHoldsDict(v: Value)
    requires TableList(v)
    ensures HoldsDict(v)
  {
    assert v.items[0].VDict?;
  }

  lemma PairRow(k: string, v: Value)
    requires Bare(k) && Plain(v)
    ensures PairRows(k, v) == [Pair(k, Print(v).value)] && Readable(Pair(k, Print(v).value))
    ensures Symbol(Pair(k, Print(v).value)) == Entry(k, AsNode(v))
  {
    ValueRoundTrip(v, "");
    PrintStarts(v);
    PrintOneLine(v);
    assert Print(v).value + "" == Print(v).value;
  }

  lemma RowsOfTable(es: Entries)
    requires es != [] && !KindOf(es[0].value).Scalar?
    ensures FlatRows(es) == FlatRows(es[1..]) && SectionRows(es) == SectionRows(es[1..])
    ensures AsTable(Only(es, Scalar)) == AsTable(Only(es[1..], Scalar))
  {
    OnlyTable(es, Scalar);
    if !es[0].value.VDict? {
      TableListHoldsDict(es[0].value);
    }
  }

  lemma RowsOfScalar(es: Entries)
    requires es != [] && Bare(es[0].key) && Plain(es[0].value)
    ensures var row := Pair(es[0].key, Print(es[0].value).value);
            && Readable(row) && Symbol(row) == Entry(es[0].key, AsNode(es[0].value))
            && FlatRows(es) == [row] + FlatRows(es[1..]) && SectionRows(es) == [row] + SectionRows(es[1..])
    ensures AsTable(Only(es, Scalar)) == map[es[0].key := AsNode(es[0].value)] + AsTable(Only(es[1..], Scalar))
  {
    PairRow(es[0].key, es[0].value);
    PlainIsScalar(es[0].value);
    OnlyTable(es, Scalar);
  }

  lemma EntryConsumes(k: string, n: Node, lines: seq<Line>, body: Table, more: Table, tail: seq<Line>)
    requires k !in body && ReadBody(lines, body[k := n]) == Some((body[k := n] + more, tail)) && k !in more
    ensures ReadBody([Entry(k, n)] + lines, body) == Some((body + (map[k := n] + more), tail))
  {
    assert ([Entry(k, n)] + lines)[1..] == lines;
    assert body[k := n] + more == body + (map[k := n] + more);
  }

  lemma BodyFirst(row: Row, n: Node, rows: seq<Row>, tail: seq<Line>, body: Table, more: Table)
    requires row.Pair? && Readable(row) && Symbol(row) == Entry(row.key, n) && AllReadable(rows)
    requires row.key !in body && row.key !in more
    requires ReadBody(Symbols(rows) + tail, body[row.key := n]) == Some((body[row.key := n] + more, tail))
    ensures AllReadable([row] + rows)
    ensures ReadBody(Symbols([row] + rows) + tail, body) == Some((body + (map[row.key := n] + more), tail))
  {
    SymbolsCons(row, rows, tail);
    EntryConsumes(row.key, n, Symbols(rows) + tail, body, more, tail);
  }

  /** A body that begins with a scalar, given how the rest reads. */
  lemma BodyScalar(es: Entries, tail: seq<Line>, body: Table)
    requires es != [] && Bare(es[0].key) && Plain(es[0].value) && es[0].key !in body && es[0].key !in Names(es[1..])
    requires FlatRows(es[1..]) == SectionRows(es[1..]) && AllReadable(FlatRows(es[1..]))
    requires var body' := body[es[0].key := AsNode(es[0].value)];
             ReadBody(Symbols(FlatRows(es[1..])) + tail, body') == Some((body' + AsTable(Only(es[1..], Scalar)), tail))
    ensures FlatRows(es) == SectionRows(es) && AllReadable(FlatRows(es))
    ensures ReadBody(Symbols(FlatRows(es)) + tail, body) == Some((body + AsTable(Only(es, Scalar)), tail))
  {
    var k, v, rest := es[0].key, es[0].value, es[1..];
    RowsOfScalar(es);
    OnlyMisses(rest, Scalar, k);
    BodyFirst(Pair(k, Print(v).value), AsNode(v), FlatRows(rest), tail, body, AsTable(Only(rest, Scalar)));
  }

  /** A body is read up to the next header, in one table. */
  lemma {:induction false} BodyReads(es: Entries, tail: seq<Line>, body: Table)
    requires PlainScalars(es) && DistinctNames(es)
    requires body.Keys !! Names(es)
    requires tail == [] || Opens(tail[0])
    ensures FlatRows(es) == SectionRows(es) && AllReadable(FlatRows(es))
    ensures ReadBody(Symbols(FlatRows(es)) + tail, body) == Some((body + AsTable(Only(es, Scalar)), tail))
  {
    if es == [] {
      assert Symbols(FlatRows(es)) + tail == tail;
      assert body + AsTable(Only(es, Scalar)) == body;
    } else {
      var k, v, rest := es[0].key, es[0].value, es[1..];
      FirstNameIsFresh(es);
      assert Names(es) == {k} + Names(rest) by { assert es == [es[0]] + rest; }
      if KindOf(v).Scalar? {
        BodyReads(rest, tail, body[k := AsNode(v)]);
        BodyScalar(es, tail, body);
      } else {
        RowsOfTable(es);
        BodyReads(rest, tail, body);
      }
    }
  }

  /** A header with its body, then the rest. */
  lemma BlockReads(row: Row, es: Entries, tail: seq<Line>, d: Doc)
    requires Readable(row) && !row.Pair?
    requires PlainScalars(es) && DistinctNames(es)
    requires tail == [] || Opens(tail[0])
    ensures FlatRows(es) == SectionRows(es) && AllReadable(FlatRows(es)) && AllReadable([row] + FlatRows(es))
    ensures ReadTables(Symbols([row] + FlatRows(es)) + tail, d) ==
            match Attach(d, Symbol(row), AsTable(Only(es, Scalar)))
            case None => None
            case Some(d') => ReadTables(tail, d')
  {
    BodyReads(es, tail, map[]);
    SymbolsCons(row, FlatRows(es), tail);
    assert map[] + AsTable(Only(es, Scalar)) == AsTable(Only(es, Scalar));
    HeadConsumes(Symbol(row), Symbols(FlatRows(es)) + tail, AsTable(Only(es, Scalar)), tail, d);
  }

  lemma HeadConsumes(head: Line, lines: seq<Line>, body: Table, tail: seq<Line>, d: Doc)
    requires Opens(head) && ReadBody(lines, map[]) == Some((body, tail))
    ensures ReadTables([head] + lines, d) ==
            match Attach(d, head, body)
            case None => None
            case Some(d') => ReadTables(tail, d')
  {
    assert ([head] + lines)[1..] == lines;
  }

  lemma FlatIsPlain(es: Entries)
    requires Flat(es)
    ensures PlainScalars(es) && Only(es, Scalar) == es
  {
    OnlyScalars(es);
  }

  /** `t` is the table that stands at `at`. */
  predicate Stands(d: Doc, at: seq<string>, t: Table) {
    (at == [] && d.root == t) || (|at| == 1 && at[0] in d.root && d.root[at[0]] == NTab(t))
  }

  lemma LevelLaws(d: Doc, at: seq<string>, t: Table, t': Table, t'': Table)
    requires Stands(d, at, t)
    ensures Level(d, at) == Some(t) && SetLevel(d, at, t) == d
    ensures Stands(SetLevel(d, at, t'), at, t')
    ensures SetLevel(SetLevel(d, at, t'), at, t'') == SetLevel(d, at, t'')
  {
    if at != [] {
      var k := at[0];
      assert d.root[k := NTab(t)] == d.root;
      assert d.root[k := NTab(t')][k := NTab(t'')] == d.root[k := NTab(t'')];
    }
  }

  lemma AttachBelow(d: Doc, at: seq<string>, t: Table, k: string, body: Table)
    requires Stands(d, at, t)
    ensures k !in t ==> Attach(d, ArrayHeader(at + [k]), body) == Some(SetLevel(d, at, t[k := NTabs([body])]))
    ensures k in t && t[k].NTabs? ==>
              Attach(d, ArrayHeader(at + [k]), body) == Some(SetLevel(d, at, t[k := NTabs(t[k].tables + [body])]))
    ensures k !in t && at != [] ==> Attach(d, Header(at + [k]), body) == Some(SetLevel(d, at, t[k := NTab(body)]))
  {
    var path := at + [k];
    assert path[..|path| - 1] == at && path[|path| - 1] == k;
    LevelLaws(d, at, t, t, t);
  }

  lemma HeadReadable(at: seq<string>, k: string)
    requires (forall i :: 0 <= i < |at| ==> Bare(at[i])) && Bare(k)
    ensures Readable(Head(at + [k])) && Readable(ArrayHead(at + [k]))
  {
  }

  lemma TailAfter(rows: seq<Row>, more: seq<Row>, tail: seq<Line>)
    requires AllReadable(rows) && AllReadable(more)
    ensures AllReadable(rows + more) && Symbols(rows + more) + tail == Symbols(rows) + (Symbols(more) + tail)
  {
  }

  predicate Closed(tail: seq<Line>) {
    tail == [] || Opens(tail[0])
  }

  /** An array of tables that grew by `more`. */
  function Grown(t: Table, k: string, more: seq<Table>): Table {
    t[k := NTabs((if k in t && t[k].NTabs? then t[k].tables else []) + more)]
  }

  lemma GrownTwice(t: Table, k: string, first: Table, more: seq<Table>)
    ensures Grown(Grown(t, k, [first]), k, more) == Grown(t, k, [first] + more)
  {
    var ts := if k in t && t[k].NTabs? then t[k].tables else [];
    assert (ts + [first]) + more == ts + ([first] + more);
  }

  /** The items of an array of tables are appended one by one. */
  lemma {:induction false} ItemsRead(at: seq<string>, k: string, items: seq<Value>, tail: seq<Line>, d: Doc, t: Table)
    requires |at| <= 1 && (forall i :: 0 <= i < |at| ==> Bare(at[i])) && Bare(k)
    requires items != [] && forall i :: 0 <= i < |items| ==> items[i].VDict? && Flat(items[i].entries)
    requires Closed(tail) && Stands(d, at, t) && (k in t ==> t[k].NTabs?)
    ensures var rows := ItemRows(at + [k], items);
            AllReadable(rows) && Closed(Symbols(rows) + tail)
            && ReadTables(Symbols(rows) + tail, d) == ReadTables(tail, SetLevel(d, at, Grown(t, k, AsTables(items))))
  {
    var es := items[0].entries;
    var block := [ArrayHead(at + [k])] + FlatRows(es);
    if |items| == 1 {
      ItemReads(at, k, es, tail, d, t);
      assert ItemRows(at + [k], items[1..]) == [] && ItemRows(at + [k], items) == block;
      assert AsTables(items) == [AsTable(es)];
    } else {
      var rest := ItemRows(at + [k], items[1..]);
      var t' := Grown(t, k, [AsTable(es)]);
      LevelLaws(d, at, t, t', Grown(t', k, AsTables(items[1..])));
      ItemsRead(at, k, items[1..], tail, SetLevel(d, at, t'), t');
      ItemReads(at, k, es, Symbols(rest) + tail, d, t);
      TailAfter(block, rest, tail);
      GrownTwice(t, k, AsTable(es), AsTables(items[1..]));
    }
  }

  /** One `[[...]]` block. */
  lemma ItemReads(at: seq<string>, k: string, es: Entries, tail: seq<Line>, d: Doc, t: Table)
    requires |at| <= 1 && (forall i :: 0 <= i < |at| ==> Bare(at[i])) && Bare(k) && Flat(es)
    requires Closed(tail) && Stands(d, at, t) && (k in t ==> t[k].NTabs?)
    ensures var rows := [ArrayHead(at + [k])] + FlatRows(es);
            AllReadable(rows) && Closed(Symbols(rows) + tail)
            && ReadTables(Symbols(rows) + tail, d) ==
               ReadTables(tail, SetLevel(d, at, Grown(t, k, [AsTable(es)])))
  {
    HeadReadable(at, k);
    FlatIsPlain(es);
    BlockReads(ArrayHead(at + [k]), es, tail, d);
    AttachBelow(d, at, t, k, AsTable(es));
    assert [] + [AsTable(es)] == [AsTable(es)];
  }

  lemma RowsOfOther(at: seq<string>, es: Entries)
    requires es != [] && !TableList(es[0].value)
    ensures ArrayRows(at, es) == ArrayRows(at, es[1..])
    ensures AsTable(Only(es, Array)) == AsTable(Only(es[1..], Array))
  {
    OnlyTable(es, Array);
  }

  lemma RowsOfArray(at: seq<string>, es: Entries)
    requires es != [] && TableList(es[0].value)
    ensures ArrayRows(at, es) == ItemRows(at + [es[0].key], es[0].value.items) + ArrayRows(at, es[1..])
    ensures AsTable(Only(es, Array)) == map[es[0].key := AsNode(es[0].value)] + AsTable(Only(es[1..], Array))
  {
    OnlyTable(es, Array);
  }

  lemma UpdateThenMerge(t: Table, k: string, n: Node, more: Table)
    requires k !in more
    ensures t[k := n] + more == t + (map[k := n] + more)
  {
  }

  lemma UpdateTwice(t: Table, k: string, n: Node, n': Node)
    ensures t[k := n][k := n'] == t[k := n']
  {
  }

  lemma NothingFirst(t: Table)
    ensures map[] + t == t
  {
  }

  lemma NewArray(t: Table, k: string, v: Value)
    requires k !in t && TableList(v)
    ensures Grown(t, k, AsTables(v.items)) == t[k := AsNode(v)]
  {
    assert [] + AsTables(v.items) == AsTables(v.items);
  }

  predicate FlatArrays(es: Entries) {
    forall i :: 0 <= i < |es| ==> TableList(es[i].value) ==> FlatTables(es[i].value)
  }

  /** The arrays of tables of one level. */
  lemma {:induction false} ArraysRead(at: seq<string>, es: Entries, tail: seq<Line>, d: Doc, t: Table)
    requires |at| <= 1 && (forall i :: 0 <= i < |at| ==> Bare(at[i]))
    requires DistinctNames(es) && BareNames(es) && FlatArrays(es)
    requires Closed(tail) && Stands(d, at, t) && t.Keys !! Names(Only(es, Array))
    ensures var rows := ArrayRows(at, es);
            AllReadable(rows) && Closed(Symbols(rows) + tail)
            && ReadTables(Symbols(rows) + tail, d) ==
               ReadTables(tail, SetLevel(d, at, t + AsTable(Only(es, Array))))
  {
    if es == [] {
      assert Symbols(ArrayRows(at, es)) + tail == tail;
      assert t + AsTable(Only(es, Array)) == t;
      LevelLaws(d, at, t, t, t);
    } else {
      var k, rest := es[0].key, es[1..];
      FirstNameIsFresh(es);
      OnlyMisses(rest, Array, k);
      assert Names(Only(rest, Array)) <= Names(Only(es, Array)) && k !in Names(Only(rest, Array)) by {
        OnlySplits(es, Array);
        OnlyNames(rest, Array);
      }
      if TableList(es[0].value) {
        var v := es[0].value;
        assert k in Names(Only(es, Array)) by { OnlySplits(es, Array); }
        var t' := t[k := AsNode(v)];
        NewArray(t, k, v);
        LevelLaws(d, at, t, t', t' + AsTable(Only(rest, Array)));
        ArraysRead(at, rest, tail, SetLevel(d, at, t'), t');
        ItemsRead(at, k, v.items, Symbols(ArrayRows(at, rest)) + tail, d, t);
        RowsOfArray(at, es);
        TailAfter(ItemRows(at + [k], v.items), ArrayRows(at, rest), tail);
        UpdateThenMerge(t, k, AsNode(v), AsTable(Only(rest, Array)));
      } else {
        RowsOfOther(at, es);
        ArraysRead(at, rest, tail, d, t);
      }
    }
  }

  lemma OnlySplits(es: Entries, kind: Kind)
    requires es != []
    ensures Names(Only(es, kind)) ==
            (if KindOf(es[0].value) == kind then {es[0].key} else {}) + Names(Only(es[1..], kind))
  {
  }

  lemma RowsOfSub(k: string, es: Entries)
    requires es != [] && es[0].value.VDict?
    ensures SubRows(k, es) == ([Head([k, es[0].key])] + FlatRows(es[0].value.entries)) + SubRows(k, es[1..])
    ensures AsTable(Only(es, Sub)) == map[es[0].key := AsNode(es[0].value)] + AsTable(Only(es[1..], Sub))
  {
    OnlyTable(es, Sub);
  }

  lemma RowsOfNoSub(k: string, es: Entries)
    requires es != [] && !es[0].value.VDict?
    ensures SubRows(k, es) == SubRows(k, es[1..])
    ensures AsTable(Only(es, Sub)) == AsTable(Only(es[1..], Sub))
  {
    OnlyTable(es, Sub);
  }

  predicate FlatSubs(es: Entries) {
    forall i :: 0 <= i < |es| ==> es[i].value.VDict? ==> Flat(es[i].value.entries)
  }

  /** The subsections of one section. */
  lemma {:induction false} SubsRead(k: string, es: Entries, tail: seq<Line>, d: Doc, t: Table)
    requires Bare(k) && DistinctNames(es) && BareNames(es) && FlatSubs(es)
    requires Closed(tail) && Stands(d, [k], t) && t.Keys !! Names(Only(es, Sub))
    ensures var rows := SubRows(k, es);
            AllReadable(rows) && Closed(Symbols(rows) + tail)
            && ReadTables(Symbols(rows) + tail, d) ==
               ReadTables(tail, SetLevel(d, [k], t + AsTable(Only(es, Sub))))
  {
    if es == [] {
      assert Symbols(SubRows(k, es)) + tail == tail;
      assert t + AsTable(Only(es, Sub)) == t;
      LevelLaws(d, [k], t, t, t);
    } else {
      var sk, v, rest := es[0].key, es[0].value, es[1..];
      FirstNameIsFresh(es);
      OnlyMisses(rest, Sub, sk);
      OnlySplits(es, Sub);
      OnlyNames(rest, Sub);
      if v.VDict? {
        var t' := t[sk := AsNode(v)];
        LevelLaws(d, [k], t, t', t');
        SubsRead(k, rest, tail, SetLevel(d, [k], t'), t');
        SubFirst(k, sk, v, tail, d, t, SubRows(k, rest), AsTable(Only(rest, Sub)));
        RowsOfSub(k, es);
      } else {
        RowsOfNoSub(k, es);
        SubsRead(k, rest, tail, d, t);
      }
    }
  }

  /** A subsection in front of others. */
  lemma SubFirst(k: string, sk: string, v: Value, tail: seq<Line>, d: Doc, t: Table, rows: seq<Row>, more: Table)
    requires Bare(k) && Bare(sk) && v.VDict? && Flat(v.entries) && Stands(d, [k], t) && sk !in t && sk !in more
    requires AllReadable(rows) && Closed(Symbols(rows) + tail)
    requires var d' := SetLevel(d, [k], t[sk := AsNode(v)]);
             ReadTables(Symbols(rows) + tail, d') == ReadTables(tail, SetLevel(d', [k], t[sk := AsNode(v)] + more))
    ensures var all := ([Head([k, sk])] + FlatRows(v.entries)) + rows;
            AllReadable(all) && Closed(Symbols(all) + tail)
            && ReadTables(Symbols(all) + tail, d) == ReadTables(tail, SetLevel(d, [k], t + (map[sk := AsNode(v)] + more)))
  {
    LevelLaws(d, [k], t, t[sk := AsNode(v)], t[sk := AsNode(v)] + more);
    SubRead(k, sk, v.entries, Symbols(rows) + tail, d, t);
    TailAfter([Head([k, sk])] + FlatRows(v.entries), rows, tail);
    UpdateThenMerge(t, sk, AsNode(v), more);
  }

  /** One subsection. */
  lemma SubRead(k: string, sk: string, es: Entries, tail: seq<Line>, d: Doc, t: Table)
    requires Bare(k) && Bare(sk) && Flat(es) && Closed(tail) && Stands(d, [k], t) && sk !in t
    ensures var rows := [Head([k, sk])] + FlatRows(es);
            AllReadable(rows) && Closed(Symbols(rows) + tail)
            && ReadTables(Symbols(rows) + tail, d) ==
               ReadTables(tail, SetLevel(d, [k], t[sk := NTab(AsTable(es))]))
  {
    FlatIsPlain(es);
    assert [k] + [sk] == [k, sk];
    BlockReads(Head([k, sk]), es, tail, d);
    AttachBelow(d, [k], t, sk, AsTable(es));
  }

  lemma SectionParts(es: Entries)
    requires Section(es)
    ensures PlainScalars(es) && FlatSubs(es) && FlatArrays(es)
    ensures AsTable(Only(es, Scalar)).Keys !! Names(Only(es, Sub))
    ensures (AsTable(Only(es, Scalar)) + AsTable(Only(es, Sub))).Keys !! Names(Only(es, Array))
  {
    forall i | 0 <= i < |es| && Plain(es[i].value)
      ensures KindOf(es[i].value).Scalar?
    {
      PlainIsScalar(es[i].value);
    }
    KindsApart(es, Scalar, Sub);
    KindsApart(es, Scalar, Array);
    KindsApart(es, Sub, Array);
    TableKeys(Only(es, Scalar));
    TableKeys(Only(es, Sub));
  }

  lemma {:induction false} KindsApart(es: Entries, kind: Kind, kind': Kind)
    requires DistinctNames(es) && kind != kind'
    ensures Names(Only(es, kind)) !! Names(Only(es, kind'))
  {
    if es != [] {
      FirstNameIsFresh(es);
      KindsApart(es[1..], kind, kind');
      OnlySplits(es, kind);
      OnlySplits(es, kind');
      OnlyNames(es[1..], kind);
      OnlyNames(es[1..], kind');
    }
  }

  /** A section with its subsections and arrays of tables. */
  lemma SectionReads(k: string, es: Entries, tail: seq<Line>, d: Doc)
    requires Bare(k) && Section(es) && Closed(tail) && k !in d.root
    ensures var rows := OneSection(k, es);
            AllReadable(rows) && Closed(Symbols(rows) + tail)
            && ReadTables(Symbols(rows) + tail, d) ==
               ReadTables(tail, Doc(d.root[k := NTab(AsTable(es))], d.headed + {k}))
  {
    SectionParts(es);
    PassesCover(es);
    var t0, t1, t2 := AsTable(Only(es, Scalar)), AsTable(Only(es, Sub)), AsTable(Only(es, Array));
    BelowHead(k, es, tail, Doc(d.root[k := NTab(t0)], d.headed + {k}), t0, t1, t2);
    var below := SubRows(k, es) + ArrayRows([k], es);
    TopBlock(k, es, Symbols(below) + tail, d);
    OneSectionTail(k, es, tail);
    UpdateTwice(d.root, k, NTab(t0), NTab(t0 + t1 + t2));
  }

  lemma OneSectionTail(k: string, es: Entries, tail: seq<Line>)
    requires AllReadable([Head([k])] + SectionRows(es)) && AllReadable(SubRows(k, es) + ArrayRows([k], es))
    ensures AllReadable(OneSection(k, es))
    ensures Symbols(OneSection(k, es)) + tail
         == Symbols([Head([k])] + SectionRows(es)) + (Symbols(SubRows(k, es) + ArrayRows([k], es)) + tail)
  {
    var first, second := [Head([k])] + SectionRows(es), SubRows(k, es) + ArrayRows([k], es);
    TailAfter(first, second, tail);
    assert OneSection(k, es) == first + second;
  }

  /** What follows the scalars of a section. */
  lemma BelowHead(k: string, es: Entries, tail: seq<Line>, d: Doc, t0: Table, t1: Table, t2: Table)
    requires Bare(k) && DistinctNames(es) && BareNames(es) && FlatSubs(es) && FlatArrays(es)
    requires Closed(tail) && Stands(d, [k], t0)
    requires t1 == AsTable(Only(es, Sub)) && t2 == AsTable(Only(es, Array))
    requires t0.Keys !! Names(Only(es, Sub)) && (t0 + t1).Keys !! Names(Only(es, Array))
    ensures var rows := SubRows(k, es) + ArrayRows([k], es);
            AllReadable(rows) && Closed(Symbols(rows) + tail)
            && ReadTables(Symbols(rows) + tail, d) == ReadTables(tail, SetLevel(d, [k], t0 + t1 + t2))
  {
    var d1 := SetLevel(d, [k], t0 + t1);
    LevelLaws(d, [k], t0, t0 + t1, t0 + t1 + t2);
    ArraysRead([k], es, tail, d1, t0 + t1);
    SubsRead(k, es, Symbols(ArrayRows([k], es)) + tail, d, t0);
    TailAfter(SubRows(k, es), ArrayRows([k], es), tail);
  }

  lemma TopBlock(k: string, es: Entries, tail: seq<Line>, d: Doc)
    requires Bare(k) && PlainScalars(es) && DistinctNames(es) && Closed(tail) && k !in d.root
    ensures var rows := [Head([k])] + SectionRows(es);
            AllReadable(rows) && Closed(Symbols(rows) + tail)
            && ReadTables(Symbols(rows) + tail, d) ==
               ReadTables(tail, Doc(d.root[k := NTab(AsTable(Only(es, Scalar)))], d.headed + {k}))
  {
    BlockReads(Head([k]), es, tail, d);
    assert [k][..0] == [];
  }

  lemma RowsOfSection(d: Entries)
    requires d != [] && d[0].value.VDict?
    ensures SectionsRows(d) == OneSection(d[0].key, d[0].value.entries) + SectionsRows(d[1..])
    ensures AsTable(Only(d, Sub)) == map[d[0].key := AsNode(d[0].value)] + AsTable(Only(d[1..], Sub))
  {
    OnlyTable(d, Sub);
  }

  lemma RowsOfNoSection(d: Entries)
    requires d != [] && !d[0].value.VDict?
    ensures SectionsRows(d) == SectionsRows(d[1..])
    ensures AsTable(Only(d, Sub)) == AsTable(Only(d[1..], Sub))
  {
    OnlyTable(d, Sub);
  }

  predicate DocSections(es: Entries) {
    forall i :: 0 <= i < |es| ==> es[i].value.VDict? ==> Section(es[i].value.entries)
  }

  /** The sections of a document, one after the other. */
  lemma {:induction false} SectionsRead(es: Entries, tail: seq<Line>, d: Doc) returns (d': Doc)
    requires DistinctNames(es) && BareNames(es) && DocSections(es)
    requires Closed(tail) && d.root.Keys !! Names(Only(es, Sub))
    ensures d'.root == d.root + AsTable(Only(es, Sub))
    ensures AllReadable(SectionsRows(es)) && Closed(Symbols(SectionsRows(es)) + tail)
    ensures ReadTables(Symbols(SectionsRows(es)) + tail, d) == ReadTables(tail, d')
  {
    if es == [] {
      d' := d;
      assert Symbols(SectionsRows(es)) + tail == tail;
    } else {
      var k, v, rest := es[0].key, es[0].value, es[1..];
      FirstNameIsFresh(es);
      OnlyMisses(rest, Sub, k);
      OnlySplits(es, Sub);
      OnlyNames(rest, Sub);
      if v.VDict? {
        var d1 := Doc(d.root[k := AsNode(v)], d.headed + {k});
        d' := SectionsRead(rest, tail, d1);
        SectionReads(k, v.entries, Symbols(SectionsRows(rest)) + tail, d);
        RowsOfSection(es);
        TailAfter(OneSection(k, v.entries), SectionsRows(rest), tail);
        UpdateThenMerge(d.root, k, AsNode(v), AsTable(Only(rest, Sub)));
      } else {
        RowsOfNoSection(es);
        d' := SectionsRead(rest, tail, d);
      }
    }
  }

  /** Printing and reading a supported document gives back its data. */
  lemma DocumentRoundTrip(d: Entries)
    requires Supported(d)
    ensures Read(DocText(d)) == Some(AsTable(d))
  {
    SupportedParts(d);
    PassesCover(d);
    var d' := TablesRead(d, Doc(AsTable(Only(d, Scalar)), {}));
    RootThenTables(d, SectionsRows(d) + ArrayRows([], d), d');
    DocRowsSplit(d);
    RowsReadBack(DocRows(d));
  }

  lemma RootThenTables(d: Entries, rest: seq<Row>, d': Doc)
    requires PlainScalars(d) && DistinctNames(d) && AllReadable(rest) && Closed(Symbols(rest))
    requires ReadTables(Symbols(rest), Doc(AsTable(Only(d, Scalar)), {})) == Some(d')
    ensures AllReadable(FlatRows(d) + rest) && ReadAll(Symbols(FlatRows(d) + rest)) == Some(d'.root)
  {
    BodyReads(d, Symbols(rest), map[]);
    NothingFirst(AsTable(Only(d, Scalar)));
    SymbolsConcat(FlatRows(d), rest);
  }

  lemma DocRowsSplit(d: Entries)
    ensures DocRows(d) == FlatRows(d) + (SectionsRows(d) + ArrayRows([], d))
  {
    var a, b, c := FlatRows(d), SectionsRows(d), ArrayRows([], d);
    assert a + b + c == a + (b + c);
  }

  /** The sections, then the arrays of tables. */
  lemma TablesRead(es: Entries, d: Doc) returns (d': Doc)
    requires DistinctNames(es) && BareNames(es) && DocSections(es) && FlatArrays(es)
    requires d.root.Keys !! Names(Only(es, Sub)) && (d.root + AsTable(Only(es, Sub))).Keys !! Names(Only(es, Array))
    ensures d'.root == d.root + AsTable(Only(es, Sub)) + AsTable(Only(es, Array))
    ensures var rows := SectionsRows(es) + ArrayRows([], es);
            AllReadable(rows) && Closed(Symbols(rows)) && ReadTables(Symbols(rows), d) == Some(d')
  {
    var arrays, t1 := ArrayRows([], es), d.root + AsTable(Only(es, Sub));
    ArraysRead([], es, [], Doc(t1, {}), t1);
    assert Symbols(arrays) + [] == Symbols(arrays);
    var d1 := SectionsRead(es, Symbols(arrays), d);
    ArraysRead([], es, [], d1, t1);
    d' := SetLevel(d1, [], t1 + AsTable(Only(es, Array)));
    SymbolsConcat(SectionsRows(es), arrays);
  }

  lemma SupportedParts(d: Entries)
    requires Supported(d)
    ensures PlainScalars(d) && DocSections(d) && FlatArrays(d)
    ensures AsTable(Only(d, Scalar)).Keys !! Names(Only(d, Sub))
    ensures (AsTable(Only(d, Scalar)) + AsTable(Only(d, Sub))).Keys !! Names(Only(d, Array))
  {
    forall i | 0 <= i < |d| && Plain(d[i].value)
      ensures KindOf(d[i].value).Scalar?
    {
      PlainIsScalar(d[i].value);
    }
    KindsApart(d, Scalar, Sub);
    KindsApart(d, Scalar, Array);
    KindsApart(d, Sub, Array);
    TableKeys(Only(d, Scalar));
    TableKeys(Only(d, Sub));
  }

  // ------------------------------------------------------------------ the printer's loops

  lemma {:induction false} TextsConcat(a: seq<Row>, b: seq<Row>)
    ensures Texts(a + b) == Texts(a) + Texts(b)
  {
    if a == [] {
      assert a + b == b;
    } else {
      assert (a + b)[0] == a[0] && (a + b)[1..] == a[1..] + b;
      TextsConcat(a[1..], b);
    }
  }

  lemma TextsOne(row: Row)
    ensures Texts([row]) == [RowText(row)]
  {
    assert [row][1..] == [];
  }

  /** One turn of a printing loop: the rows of this time are printed, later ones are still to come. */
  lemma Regroup(done: seq<string>, now: seq<Row>, later: seq<Row>, goal: seq<string>)
    requires done + Texts(now + later) == goal
    ensures done + Texts(now) + Texts(later) == goal
  {
    TextsConcat(now, later);
    var a, b := Texts(now), Texts(later);
    assert done + (a + b) == done + a + b;
  }

  lemma FromTo(es: Entries, i: nat)
    requires i < |es|
    ensures es[i..] == [es[i]] + es[i + 1..] && es[i..][0] == es[i] && es[i..][1..] == es[i + 1..]
  {
  }

  method AppendPair(lines: seq<string>, k: string, v: Value) returns (out: seq<string>)
    ensures out == lines + Texts(PairRows(k, v))
  {
    out := lines;
    var s := Print(v);
    if s.Some? {
      out := out + [k + " = " + s.value];
      TextsOne(Pair(k, s.value));
    }
  }

  method AppendFlatRow(lines: seq<string>, f: Field) returns (out: seq<string>)
    ensures out == lines + Texts(FlatRow(f))
  {
    out := lines;
    if !f.value.VDict? && !HoldsDict(f.value) {
      out := AppendPair(out, f.key, f.value);
    }
  }

  method AppendFlat(lines: seq<string>, es: Entries) returns (out: seq<string>)
    ensures out == lines + Texts(FlatRows(es))
  {
    out := lines;
    ghost var goal := lines + Texts(FlatRows(es));
    for i := 0 to |es|
      invariant out + Texts(FlatRows(es[i..])) == goal
    {
      FromTo(es, i);
      Regroup(out, FlatRow(es[i]), FlatRows(es[i + 1..]), goal);
      out := AppendFlatRow(out, es[i]);
    }
  }

  method AppendSectionRow(lines: seq<string>, f: Field) returns (out: seq<string>)
    ensures out == lines + Texts(SectionRow(f))
  {
    out := lines;
    if !f.value.VDict? && !TableList(f.value) {
      out := AppendPair(out, f.key, f.value);
    }
  }

  method AppendSection(lines: seq<string>, es: Entries) returns (out: seq<string>)
    ensures out == lines + Texts(SectionRows(es))
  {
    out := lines;
    ghost var goal := lines + Texts(SectionRows(es));
    for i := 0 to |es|
      invariant out + Texts(SectionRows(es[i..])) == goal
    {
      FromTo(es, i);
      Regroup(out, SectionRow(es[i]), SectionRows(es[i + 1..]), goal);
      out := AppendSectionRow(out, es[i]);
    }
  }

  method AppendHeaded(lines: seq<string>, head: Row, es: Entries) returns (out: seq<string>)
    ensures out == lines + Texts([head] + FlatRows(es))
  {
    out := AppendFlat(lines + [RowText(head)], es);
    TextsConcat([head], FlatRows(es));
    TextsOne(head);
  }

  method AppendSub(lines: seq<string>, k: string, f: Field) returns (out: seq<string>)
    ensures out == lines + Texts(SubRow(k, f))
  {
    out := lines;
    if f.value.VDict? {
      out := AppendHeaded(out, Head([k, f.key]), f.value.entries);
    }
  }

  method AppendSubs(lines: seq<string>, k: string, es: Entries) returns (out: seq<string>)
    ensures out == lines + Texts(SubRows(k, es))
  {
    out := lines;
    ghost var goal := lines + Texts(SubRows(k, es));
    for i := 0 to |es|
      invariant out + Texts(SubRows(k, es[i..])) == goal
    {
      FromTo(es, i);
      Regroup(out, SubRow(k, es[i]), SubRows(k, es[i + 1..]), goal);
      out := AppendSub(out, k, es[i]);
    }
  }

  method AppendItems(lines: seq<string>, path: seq<string>, items: seq<Value>) returns (out: seq<string>)
    requires forall i :: 0 <= i < |items| ==> items[i].VDict?
    ensures out == lines + Texts(ItemRows(path, items))
  {
    out := lines;
    ghost var goal := lines + Texts(ItemRows(path, items));
    for i := 0 to |items|
      invariant out + Texts(ItemRows(path, items[i..])) == goal
    {
      assert items[i..][0] == items[i] && items[i..][1..] == items[i + 1..];
      Regroup(out, [ArrayHead(path)] + FlatRows(items[i].entries), ItemRows(path, items[i + 1..]), goal);
      out := AppendHeaded(out, ArrayHead(path), items[i].entries);
    }
  }

  method AppendArray(lines: seq<string>, at: seq<string>, f: Field) returns (out: seq<string>)
    ensures out == lines + Texts(ArrayRow(at, f))
  {
    out := lines;
    if TableList(f.value) {
      out := AppendItems(out, at + [f.key], f.value.items);
    }
  }

  method AppendArrays(lines: seq<string>, at: seq<string>, es: Entries) returns (out: seq<string>)
    ensures out == lines + Texts(ArrayRows(at, es))
  {
    out := lines;
    ghost var goal := lines + Texts(ArrayRows(at, es));
    for i := 0 to |es|
      invariant out + Texts(ArrayRows(at, es[i..])) == goal
    {
      FromTo(es, i);
      Regroup(out, ArrayRow(at, es[i]), ArrayRows(at, es[i + 1..]), goal);
      out := AppendArray(out, at, es[i]);
    }
  }

  lemma SectionTexts(k: string, es: Entries)
    ensures Texts(OneSection(k, es))
         == [RowText(Head([k]))] + Texts(SectionRows(es)) + Texts(SubRows(k, es)) + Texts(ArrayRows([k], es))
  {
    var a, b := [Head([k])] + SectionRows(es), SubRows(k, es);
    TextsOne(Head([k]));
    TextsConcat([Head([k])], SectionRows(es));
    TextsConcat(a, b);
    TextsConcat(a + b, ArrayRows([k], es));
  }

  method AppendOneSection(lines: seq<string>, k: string, es: Entries) returns (out: seq<string>)
    ensures out == lines + Texts(OneSection(k, es))
  {
    var s := AppendSection([RowText(Head([k]))], es);
    s := AppendSubs(s, k, es);
    s := AppendArrays(s, [k], es);
    SectionTexts(k, es);
    out := lines + s;
  }

  method AppendSectionOf(lines: seq<string>, f: Field) returns (out: seq<string>)
    ensures out == lines + Texts(SectionsRow(f))
  {
    out := lines;
    if f.value.VDict? {
      out := AppendOneSection(out, f.key, f.value.entries);
    }
  }

  method AppendSections(lines: seq<string>, d: Entries) returns (out: seq<string>)
    ensures out == lines + Texts(SectionsRows(d))
  {
    out := lines;
    ghost var goal := lines + Texts(SectionsRows(d));
    for i := 0 to |d|
      invariant out + Texts(SectionsRows(d[i..])) == goal
    {
      FromTo(d, i);
      Regroup(out, SectionsRow(d[i]), SectionsRows(d[i + 1..]), goal);
      out := AppendSectionOf(out, d[i]);
    }
  }

  /** `dict_to_toml_str`: what it prints reads back as the data, on the supported fragment. */
  method PrintDocument(d: Entries) returns (text: string)
    ensures text == DocText(d)
    ensures Supported(d) ==> Read(text) == Some(AsTable(d))
  {
    var lines := AppendFlat([], d);
    assert lines == Texts(FlatRows(d));
    lines := AppendSections(lines, d);
    lines := AppendArrays(lines, [], d);
    TextsConcat(FlatRows(d), SectionsRows(d));
    TextsConcat(FlatRows(d) + SectionsRows(d), ArrayRows([], d));
    text := Lines(lines) + "\n";
    if Supported(d) {
      DocumentRoundTrip(d);
    }
  }

  /** Outside the fragment: below a subsection a list with dictionaries leaves no trace. */
  lemma DeepArraysAreDropped(k: string, sk: string, name: string, v: Value, es: Entries)
    requires HoldsDict(v)
    ensures DocText([Field(k, VDict([Field(sk, VDict([Field(name, v)] + es))]))])
         == DocText([Field(k, VDict([Field(sk, VDict(es))]))])
  {
    var inner, inner' := VDict([Field(name, v)] + es), VDict(es);
    assert ([Field(name, v)] + es)[1..] == es;
    assert FlatRows([Field(name, v)] + es) == FlatRows(es);
    assert SubRows(k, [Field(sk, inner)]) == SubRows(k, [Field(sk, inner')]);
    assert OneSection(k, [Field(sk, inner)]) == OneSection(k, [Field(sk, inner')]);
    OneSectionDoc(k, [Field(sk, inner)]);
    OneSectionDoc(k, [Field(sk, inner')]);
  }

  lemma OneSectionDoc(k: string, es: Entries)
    ensures DocRows([Field(k, VDict(es))]) == OneSection(k, es)
  {
    var d := [Field(k, VDict(es))];
    assert d[1..] == [];
    assert FlatRows(d) == [] && ArrayRows([], d) == [] && SectionsRows(d) == OneSection(k, es);
  }
}
