/**
  The text edit of `set_config_value` and the document it leaves: when the edited text reads as the
  old document with one key set, and when it does not.
 */
module ConfigMeaning {
  import opened TomlValue
  import opened Toml
  import opened TomlEdit
  import opened TextTools
  import opened ConfigEdit

  /** Newline is the only line separator in use. */
  predicate NoBreaks(s: string) {
    forall i :: 0 <= i < |s| && IsBreak(s[i]) ==> s[i] == '\n'
  }

  /** Lines with their newlines; the last one has none and is left out when empty. */
  function Keep(ls: seq<string>): seq<string>
    requires ls != []
  {
    if |ls| == 1 then (if ls[0] == "" then [] else ls)
    else [ls[0] + "\n"] + Keep(ls[1..])
  }

  predicate AllOneLine(ls: seq<string>) {
    forall i :: 0 <= i < |ls| ==> OneLine(ls[i])
  }

  lemma {:induction false} LinesAreLines(s: string)
    ensures AllOneLine(LinesOf(s))
  {
    if s != "" {
      LinesAreLines(s[1..]);
    }
  }

  lemma KeepCons(l: string, rest: seq<string>)
    requires rest != []
    ensures Keep([l] + rest) == [l + "\n"] + Keep(rest)
  {
    assert ([l] + rest)[1..] == rest;
  }

  lemma KeepLonger(c: char, first: string, more: seq<string>)
    requires more == [] ==> first != ""
    ensures Keep([first] + more) != []
    ensures Keep([[c] + first] + more) == [[c] + Keep([first] + more)[0]] + Keep([first] + more)[1..]
  {
    if more == [] {
      assert [first] + more == [first] && [[c] + first] + more == [[c] + first];
    } else {
      KeepCons(first, more);
      KeepCons([c] + first, more);
      assert [c] + (first + "\n") == [c] + first + "\n";
      assert ([first + "\n"] + Keep(more))[1..] == Keep(more);
    }
  }

  lemma OneCharLines(s: string)
    requires |LinesOf(s)| == 1 && LinesOf(s)[0] == ""
    ensures s == ""
  {
  }

  lemma OneCharSplit(s: string)
    requires |s| == 1
    ensures SplitLines(s) == [s]
  {
    assert [s[0]] == s && SplitLines(s[1..]) == [];
    assert SplitLines(s) == [[s[0]]] + SplitLines(s[1..]);
  }

  /** `splitlines` keeps the lines of the text when newline is the only separator in use. */
  lemma {:induction false} SplitKeeps(s: string)
    requires NoBreaks(s)
    ensures SplitLines(s) == Keep(LinesOf(s))
  {
    if s != "" {
      var rest := LinesOf(s[1..]);
      SplitKeeps(s[1..]);
      if s[0] == '\n' {
        KeepCons("", rest);
        assert "" + "\n" == [s[0]];
      } else if |s| == 1 {
        assert s[1..] == "" && rest == [""];
        assert [s[0]] + rest[0] == s;
        assert [[s[0]] + rest[0]] + rest[1..] == [s];
        OneCharSplit(s);
        assert LinesOf(s) == [s];
      } else {
        if |rest| == 1 && rest[0] == "" {
          OneCharLines(s[1..]);
        }
        assert [rest[0]] + rest[1..] == rest;
        KeepLonger(s[0], rest[0], rest[1..]);
      }
    }
  }

  // ------------------------------------------------------------------ what the patterns see

  lemma {:induction false} StripIsSkip(s: string)
    requires SkipBlanks(s) == "" || !IsSpace(SkipBlanks(s)[0])
    ensures StripLeft(s) == SkipBlanks(s)
  {
    if s != "" && (s[0] == ' ' || s[0] == '\t') {
      StripIsSkip(s[1..]);
    }
  }

  lemma {:induction false} SkipSkips(s: string)
    ensures SkipBlanks(s) == "" || (SkipBlanks(s)[0] != ' ' && SkipBlanks(s)[0] != '\t')
    ensures SkipBlanks(SkipBlanks(s)) == SkipBlanks(s)
  {
    if s != "" && (s[0] == ' ' || s[0] == '\t') {
      SkipSkips(s[1..]);
    }
  }

  /** Past its blanks, a line that reads starts with no other white space. */
  lemma ReadableLineStart(l: string)
    requires ReadLine(l).Some?
    ensures StripLeft(l) == SkipBlanks(l)
    ensures SkipBlanks(l) != "" ==> SkipBlanks(l)[0] == '#' || SkipBlanks(l)[0] == '[' || BareChar(SkipBlanks(l)[0])
  {
    SkipSkips(l);
    StripIsSkip(l);
  }

  lemma {:induction false} KeyFromStripped(b: string, field: string)
    requires Bare(field)
    ensures KeyFrom(b, field) <==>
            StartsWith(StripLeft(b), field) && AfterKey(StripLeft(b)[|field|..])
  {
    if b != "" && IsSpace(b[0]) {
      KeyFromStripped(b[1..], field);
    }
  }

  lemma {:induction false} BarePrefixIsLongest(s: string, f: string)
    requires StartsWith(s, f) && forall i :: 0 <= i < |f| ==> BareChar(f[i])
    ensures StartsWith(BarePrefix(s), f)
    ensures StartsWith(s, BarePrefix(s))
  {
    if s != "" && BareChar(s[0]) {
      if f == "" {
        BarePrefixIsLongest(s[1..], "");
      } else {
        assert s[0] == f[0] && s[1..][..|f| - 1] == f[1..];
        BarePrefixIsLongest(s[1..], f[1..]);
        assert f == [f[0]] + f[1..];
      }
    }
  }

  lemma {:induction false} BareAll(s: string, i: nat)
    requires i < |BarePrefix(s)|
    ensures StartsWith(s, BarePrefix(s)) && BareChar(s[i])
  {
    BarePrefixIsLongest(s, "");
    if i > 0 {
      BareAll(s[1..], i - 1);
    }
  }

  /** A key and an equals sign follow only where the key is the whole bare prefix. */
  lemma KeyIsPrefix(s: string, field: string)
    requires Bare(field) && StartsWith(s, field) && AfterKey(s[|field|..])
    ensures BarePrefix(s) == field
  {
    BarePrefixIsLongest(s, field);
    var k := BarePrefix(s);
    if |k| > |field| {
      BareAll(s, |field|);
    }
    assert k[..|field|] == field;
  }

  /** The entry lines that the key pattern matches are those with that key. */
  lemma KeyLineReads(l: string, field: string)
    requires OneLine(l) && ReadLine(l).Some? && Bare(field)
    ensures KeyLine(l, field) <==> ReadLine(l).value.Entry? && ReadLine(l).value.key == field
  {
    var s := SkipBlanks(l);
    ReadableLineStart(l);
    SkipSkips(l);
    KeyFromStripped(l, field);
    assert Chomp(l) == l;
    if StartsWith(s, field) && AfterKey(s[|field|..]) {
      KeyIsPrefix(s, field);
      AfterEquals(s[|field|..]);
    } else if ReadLine(l).value.Entry? && ReadLine(l).value.key == field {
      EntryHasKey(l, s, field);
    }
  }

  lemma AfterEquals(r: string)
    requires AfterKey(r)
    ensures SkipBlanks(r) == "" || SkipBlanks(r)[0] != '.'
  {
    DotStays(r);
  }

  lemma {:induction false} DotStays(r: string)
    ensures SkipBlanks(r) != "" && SkipBlanks(r)[0] == '.' ==> StripLeft(r) == SkipBlanks(r)
  {
    if r != "" && (r[0] == ' ' || r[0] == '\t') {
      DotStays(r[1..]);
    }
  }

  lemma EntryHasKey(l: string, s: string, field: string)
    requires s == SkipBlanks(l) && Bare(field)
    requires ReadLine(l).Some? && ReadLine(l).value.Entry? && ReadLine(l).value.key == field
    ensures StartsWith(s, field) && AfterKey(s[|field|..])
  {
    SkipSkips(l);
    assert BarePrefix(s) == field;
    BarePrefixIsLongest(s, "");
    var r := s[|field|..];
    assert SkipBlanks(r) != "" && SkipBlanks(r)[0] == '=';
    StripIsSkip(r);
  }

  lemma AnySectionLineReads(l: string)
    requires ReadLine(l).Some?
    ensures AnySectionLine(l) <==> Opens(ReadLine(l).value)
  {
    var s := SkipBlanks(l);
    ReadableLineStart(l);
    SkipSkips(l);
    assert AnySectionLine(l) <==> s != "" && s[0] == '[';
  }

  lemma {:induction false} StripLeftBeforeNewline(l: string)
    ensures StripLeft(l + "\n") == if StripLeft(l) == "" then "" else StripLeft(l) + "\n"
  {
    if l == "" {
      assert "" + "\n" == "\n" && "\n"[1..] == "";
    } else {
      assert (l + "\n")[0] == l[0] && (l + "\n")[1..] == l[1..] + "\n";
      if IsSpace(l[0]) {
        StripLeftBeforeNewline(l[1..]);
      }
    }
  }

  /** The patterns do not see the newline at the end of a line. */
  lemma NewlineUnseen(l: string, section: string, field: string)
    requires OneLine(l)
    ensures AnySectionLine(l + "\n") <==> AnySectionLine(l)
    ensures KeyLine(l + "\n", field) <==> KeyLine(l, field)
    ensures SectionLine(l + "\n", section) <==> SectionLine(l, section)
  {
    StripLeftBeforeNewline(l);
    assert (l + "\n")[..|l|] == l;
    assert Chomp(l + "\n") == l && Chomp(l) == l;
    SectionLineNewline(l, section);
  }

  lemma PrefixBeforeNewline(s: string, head: string)
    requires head != "" && head[|head| - 1] != '\n'
    ensures StartsWith(s + "\n", head) <==> StartsWith(s, head)
  {
    var t := s + "\n";
    assert t[|s|] == '\n' && t[..|s|] == s;
    if |head| <= |s| {
      assert t[..|head|] == s[..|head|];
    }
  }

  lemma SectionLineNewline(l: string, section: string)
    ensures SectionLine(l + "\n", section) <==> SectionLine(l, section)
  {
    var s, head := StripLeft(l), "[" + section + "]";
    StripLeftBeforeNewline(l);
    PrefixBeforeNewline(s, head);
    if s != "" {
      if StartsWith(s, head) {
        assert (s + "\n")[|head|..] == s[|head|..] + "\n";
        StripLeftBeforeNewline(s[|head|..]);
      }
    }
  }

  // ------------------------------------------------------------------ below the header

  /** The entry would be written behind an unterminated last line that says something. */
  predicate Glued(ls: seq<string>, field: string)
    requires ls != []
  {
    && !AnySectionLine(ls[0]) && !KeyLine(ls[0], field)
    && if |ls| == 1 then SkipBlanks(ls[0]) != "" else Glued(ls[1..], field)
  }

  /** `text` is the printed form of `n`. */
  predicate Prints(field: string, text: string, n: Node) {
    Readable(Pair(field, text)) && Symbol(Pair(field, text)) == Entry(field, n)
  }

  function Cons(line: Option<Line>, rest: Option<seq<Line>>): Option<seq<Line>> {
    match (line, rest)
    case (Some(Blank), Some(ls)) => Some(ls)
    case (Some(l), Some(ls)) => Some([l] + ls)
    case _ => None
  }

  lemma LineThenText(l: string, text: string)
    requires OneLine(l)
    ensures ReadLines(LinesOf(l + "\n" + text)) == Cons(ReadLine(l), ReadLines(LinesOf(text)))
  {
    FirstLine(l, text);
    ReadCons(l, LinesOf(text));
  }

  lemma EntryThenText(field: string, sv: string, n: Node, text: string)
    requires Prints(field, sv, n)
    ensures ReadLines(LinesOf(EntryText(field, sv) + "\n" + text)) ==
            Cons(Some(Entry(field, n)), ReadLines(LinesOf(text)))
  {
    PairReads(field, sv);
    LineThenText(EntryText(field, sv), text);
  }

  lemma {:induction false} KeepText(ls: seq<string>)
    requires ls != [] && AllOneLine(ls)
    ensures LinesOf(Concat(Keep(ls))) == ls
  {
    if |ls| == 1 {
      OneLineIsLine(ls[0]);
      assert ls == [ls[0]];
      if ls[0] == "" {
        assert Concat([]) == "";
      } else {
        assert ls[1..] == [] && Concat(ls) == ls[0];
      }
    } else {
      KeepText(ls[1..]);
      var rest := Keep(ls[1..]);
      assert ([ls[0] + "\n"] + rest)[1..] == rest;
      FirstLine(ls[0], Concat(rest));
    }
  }

  lemma {:induction false} OneLineIsLine(l: string)
    requires OneLine(l)
    ensures LinesOf(l) == [l]
  {
    if l != "" {
      OneLineIsLine(l[1..]);
      assert [l[0]] + l[1..] == l;
    }
  }

  lemma ReadOne(l: string)
    ensures ReadLines([l]) == Cons(ReadLine(l), Some([]))
  {
    ReadCons(l, []);
    assert [l] + [] == [l];
  }

  lemma NothingReads()
    ensures ReadLines(LinesOf("")) == Some([])
  {
    ReadOne("");
  }

  lemma {:induction false} SkipBlanksBefore(l: string, e: string)
    ensures SkipBlanks(l + e) == if SkipBlanks(l) == "" then SkipBlanks(e) else SkipBlanks(l) + e
  {
    if l == "" {
      assert l + e == e;
    } else {
      assert (l + e)[0] == l[0] && (l + e)[1..] == l[1..] + e;
      if l[0] == ' ' || l[0] == '\t' {
        SkipBlanksBefore(l[1..], e);
      }
    }
  }

  lemma BlankThenEntry(l: string, e: string)
    requires SkipBlanks(l) == ""
    ensures ReadLine(l + e) == ReadLine(e)
  {
    SkipBlanksBefore(l, e);
  }

  /** An entry's key is the bare text its line starts with, and it ends on the line. */
  lemma EntryStart(l: string)
    requires ReadLine(l).Some? && ReadLine(l).value.Entry?
    ensures var s := SkipBlanks(l); var k := BarePrefix(s);
            ReadLine(l).value.key == k && k != "" && |k| < |s| && !BareChar(s[|k|]) && s == k + s[|k|..]
            && forall i :: 0 <= i < |k| ==> BareChar(k[i])
  {
    SkipSkips(l);
    BarePrefixMaximal(SkipBlanks(l));
  }

  lemma LineKind(l: string)
    requires ReadLine(l).Some? && SkipBlanks(l) != ""
    ensures Opens(ReadLine(l).value) <==> SkipBlanks(l)[0] == '['
    ensures ReadLine(l).value.Blank? <==> SkipBlanks(l)[0] == '#'
  {
    SkipSkips(l);
  }

  lemma GluedStart(l: string, e: string)
    requires SkipBlanks(l) != ""
    ensures SkipBlanks(l + e) == SkipBlanks(l) + e && SkipBlanks(l + e)[0] == SkipBlanks(l)[0]
  {
    SkipBlanksBefore(l, e);
  }

  lemma BarePrefixCut(s: string, k: string, e: string)
    requires |k| < |s| && !BareChar(s[|k|]) && s == k + s[|k|..]
    requires forall i :: 0 <= i < |k| ==> BareChar(k[i])
    ensures BarePrefix(s + e) == k
  {
    var after := s[|k|..];
    assert s + e == k + (after + e) && (after + e)[0] == s[|k|];
    BarePrefixOf(k, after + e);
  }

  lemma GluedEntryKeepsKey(l: string, e: string)
    requires ReadLine(l).Some? && ReadLine(l).value.Entry? && SkipBlanks(l) != ""
    requires ReadLine(l + e).Some? && ReadLine(l + e).value.Entry?
    ensures ReadLine(l + e).value.key == ReadLine(l).value.key
  {
    EntryStart(l);
    EntryStart(l + e);
    GluedStart(l, e);
    BarePrefixCut(SkipBlanks(l), BarePrefix(SkipBlanks(l)), e);
  }

  /** Glued to a line that is not an entry of that key, the entry does not read. */
  lemma GluedDoesNotRead(l: string, e: string, field: string)
    requires ReadLine(l).Some? && SkipBlanks(l) != "" && !Opens(ReadLine(l).value)
    requires ReadLine(l).value.Entry? ==> ReadLine(l).value.key != field
    ensures ReadLine(l + e).Some? ==>
              !Opens(ReadLine(l + e).value)
              && (ReadLine(l + e).value.Entry? ==> ReadLine(l + e).value.key != field)
  {
    LineKind(l);
    GluedStart(l, e);
    if ReadLine(l + e).Some? {
      LineKind(l + e);
      if ReadLine(l + e).value.Entry? {
        GluedEntryKeepsKey(l, e);
      }
    }
  }

  lemma {:induction false} BarePrefixMaximal(s: string)
    ensures StartsWith(s, BarePrefix(s)) && forall i :: 0 <= i < |BarePrefix(s)| ==> BareChar(BarePrefix(s)[i])
    ensures |BarePrefix(s)| < |s| ==> !BareChar(s[|BarePrefix(s)|])
  {
    if s != "" && BareChar(s[0]) {
      BarePrefixMaximal(s[1..]);
    }
  }

  /** What the edited lines below the header say. */
  predicate BelowSays(out: Option<seq<Line>>, lines: seq<Line>, glued: bool, field: string, n: Node) {
    if glued then out.Some? ==> !BodyHas(out.value, field) else out == Some(EditBody(lines, field, n))
  }

  lemma BelowStop(ls: seq<string>, field: string, sv: string, n: Node)
    requires ls != [] && AllOneLine(ls) && ReadLines(ls).Some? && Bare(field) && Prints(field, sv, n)
    requires AnySectionLine(ls[0])
    ensures ReadLines(LinesOf(Concat(EditBelow(Keep(ls), field, sv)))) == Some(EditBody(ReadLines(ls).value, field, n))
  {
    var ps, entry := Keep(ls), EntryText(field, sv) + "\n";
    assert AnySectionLine("") == false;
    assert AnySectionLine(ps[0]) by { NewlineUnseen(ls[0], "", field); }
    assert EditBelow(ps, field, sv) == [entry] + ps && ([entry] + ps)[1..] == ps;
    KeepText(ls);
    EntryThenText(field, sv, n, Concat(ps));
    AnySectionLineReads(ls[0]);
  }

  lemma BelowReplace(ls: seq<string>, field: string, sv: string, n: Node)
    requires ls != [] && AllOneLine(ls) && ReadLines(ls).Some? && Bare(field) && Prints(field, sv, n)
    requires !AnySectionLine(ls[0]) && KeyLine(ls[0], field)
    ensures ReadLines(LinesOf(Concat(EditBelow(Keep(ls), field, sv)))) == Some(EditBody(ReadLines(ls).value, field, n))
  {
    var ps, entry := Keep(ls), EntryText(field, sv) + "\n";
    NewlineUnseen(ls[0], "", field);
    KeyLineReads(ls[0], field);
    assert KeyLine("", field) == false;
    assert EditBelow(ps, field, sv) == [entry] + ps[1..] && ([entry] + ps[1..])[1..] == ps[1..];
    EntryThenText(field, sv, n, Concat(ps[1..]));
    if |ls| == 1 {
      NothingReads();
      assert ps[1..] == [] && ls[1..] == [];
    } else {
      assert ps[1..] == Keep(ls[1..]);
      KeepText(ls[1..]);
    }
    var e := ReadLine(ls[0]).value;
    assert ReadLines(ls).value == [e] + ReadLines(ls[1..]).value;
  }

  lemma BelowLast(l: string, field: string, sv: string, n: Node)
    requires OneLine(l) && ReadLine(l).Some? && ReadLines([l]).Some? && Bare(field) && Prints(field, sv, n)
    requires !AnySectionLine(l) && !KeyLine(l, field)
    ensures BelowSays(ReadLines(LinesOf(Concat(EditBelow(Keep([l]), field, sv)))), ReadLines([l]).value,
                      Glued([l], field), field, n)
  {
    var ps, e := Keep([l]), EntryText(field, sv);
    ReadOne(l);
    NothingReads();
    if l == "" {
      assert EditBelow(ps, field, sv) == [e + "\n"] && Concat([e + "\n"]) == e + "\n" + "";
      EntryThenText(field, sv, n, "");
    } else {
      assert ps[1..] == [] && EditBelow([], field, sv) == [e + "\n"];
      assert EditBelow(ps, field, sv) == [l, e + "\n"];
      assert [l, e + "\n"][1..] == [e + "\n"] && [e + "\n"][1..] == [];
      assert Concat([e + "\n"]) == e + "\n";
      assert Concat([l, e + "\n"]) == l + (e + "\n");
      assert l + (e + "\n") == (l + e) + "\n" + "";
      LineThenText(l + e, "");
      KeyLineReads(l, field);
      AnySectionLineReads(l);
      if SkipBlanks(l) == "" {
        BlankThenEntry(l, e);
        PairReads(field, sv);
      } else {
        GluedDoesNotRead(l, e, field);
      }
    }
  }

  lemma {:induction false} BelowReads(ls: seq<string>, field: string, sv: string, n: Node)
    requires ls != [] && AllOneLine(ls) && ReadLines(ls).Some? && Bare(field) && Prints(field, sv, n)
    ensures BelowSays(ReadLines(LinesOf(Concat(EditBelow(Keep(ls), field, sv)))), ReadLines(ls).value,
                      Glued(ls, field), field, n)
  {
    var l := ls[0];
    if AnySectionLine(l) {
      BelowStop(ls, field, sv, n);
    } else if KeyLine(l, field) {
      BelowReplace(ls, field, sv, n);
    } else if |ls| == 1 {
      assert ls == [l];
      BelowLast(l, field, sv, n);
    } else {
      var below := EditBelow(Keep(ls[1..]), field, sv);
      BelowReads(ls[1..], field, sv, n);
      NewlineUnseen(l, "", field);
      assert EditBelow(Keep(ls), field, sv) == [l + "\n"] + below && ([l + "\n"] + below)[1..] == below;
      LineThenText(l, Concat(below));
      KeyLineReads(l, field);
      AnySectionLineReads(l);
    }
  }

  // ------------------------------------------------------------------ finding the header

  predicate AnyLine(ls: seq<string>, section: string) {
    ls != [] && (SectionLine(ls[0], section) || AnyLine(ls[1..], section))
  }

  lemma {:induction false} KeptHeaders(ls: seq<string>, section: string)
    requires ls != [] && AllOneLine(ls)
    ensures HasSection(Keep(ls), section) <==> AnyLine(ls, section)
  {
    NewlineUnseen(ls[0], section, "");
    if |ls| == 1 {
      assert ls == [ls[0]] && ls[1..] == [];
      assert !SectionLine("", section);
    } else {
      KeptHeaders(ls[1..], section);
      HasSectionCons(ls[0] + "\n", Keep(ls[1..]), section);
    }
  }

  lemma HasSectionCons(p: string, ps: seq<string>, section: string)
    ensures HasSection([p] + ps, section) <==> SectionLine(p, section) || HasSection(ps, section)
  {
    var all := [p] + ps;
    if HasSection(ps, section) {
      var i :| 0 <= i < |ps| && SectionLine(ps[i], section);
      assert all[i + 1] == ps[i];
    }
    assert all[0] == p;
  }

  lemma {:induction false} AnyLineIsHeader(ls: seq<string>, section: string)
    requires ReadLines(ls).Some? && Bare(section) && AnyLine(ls, section)
    ensures HasHeader(ReadLines(ls).value, section)
  {
    if SectionLine(ls[0], section) {
      HeaderLineReads(ls[0], section);
    } else {
      AnyLineIsHeader(ls[1..], section);
    }
  }

  /** The entry would be glued to an unterminated last line of the section. */
  predicate GluedAt(ls: seq<string>, section: string, field: string) {
    ls != []
    && if SectionLine(ls[0], section) then |ls| == 1 || Glued(ls[1..], field) else GluedAt(ls[1..], section, field)
  }

  predicate AtSays(out: Option<seq<Line>>, lines: seq<Line>, glued: bool, section: string, field: string, n: Node) {
    if glued then out.Some? ==> !SectionHas(out.value, section, field) && PlainEntries(out.value)
    else out == Some(EditLines(lines, section, field, n))
  }

  /** A header followed by anything. */
  lemma HeaderParse(section: string, after: string)
    requires Bare(section)
    ensures ReadLine("[" + section + "]" + after) == if Ends(after) then Some(Header([section])) else None
  {
    var s, t := "[" + section + "]" + after, "]" + after;
    assert SkipBlanks(s) == s && s[1..] == section + t && s[1] == section[0];
    BarePrefixOf(section, t);
    assert (section + t)[|section|..] == t && t[1..] == after;
    assert SkipBlanks(section + t) == section + t && SkipBlanks(t) == t;
  }

  lemma SkipThenRead(l: string)
    ensures ReadLine(l) == ReadLine(SkipBlanks(l))
  {
    SkipSkips(l);
  }

  lemma SectionLineShape(l: string, section: string)
    requires ReadLine(l).Some? && SectionLine(l, section)
    ensures |SkipBlanks(l)| >= |section| + 2
    ensures SkipBlanks(l) == "[" + section + "]" + SkipBlanks(l)[|section| + 2..]
    ensures SkipBlanks(SkipBlanks(l)[|section| + 2..]) == "" || IsSpace(SkipBlanks(SkipBlanks(l)[|section| + 2..])[0])
  {
    ReadableLineStart(l);
    SpacesLeft(SkipBlanks(l)[|section| + 2..]);
  }

  lemma HeaderLineReads(l: string, section: string)
    requires ReadLine(l).Some? && Bare(section) && SectionLine(l, section)
    ensures ReadLine(l) == Some(Header([section]))
  {
    SectionLineShape(l, section);
    SkipThenRead(l);
    HeaderParse(section, SkipBlanks(l)[|section| + 2..]);
  }

  lemma HeaderThenText(l: string, section: string, e: string)
    requires ReadLine(l).Some? && SectionLine(l, section) && Bare(section)
    requires e != "" && BareChar(e[0])
    ensures ReadLine(l + e) == None
  {
    SectionLineShape(l, section);
    var after := SkipBlanks(l)[|section| + 2..];
    GluedStart(l, e);
    assert SkipBlanks(l + e) == "[" + section + "]" + (after + e);
    SkipThenRead(l);
    SkipThenRead(l + e);
    HeaderParse(section, after);
    HeaderParse(section, after + e);
    SkipSkips(after);
    SkipBlanksBefore(after, e);
    assert SkipBlanks(e) == e;
  }

  lemma {:induction false} SpacesLeft(s: string)
    requires StripLeft(s) == ""
    ensures SkipBlanks(s) == "" || IsSpace(SkipBlanks(s)[0])
  {
    if s != "" && (s[0] == ' ' || s[0] == '\t') {
      SpacesLeft(s[1..]);
    }
  }

  lemma AtLastHeader(l: string, section: string, field: string, sv: string)
    requires OneLine(l) && ReadLine(l).Some? && Bare(section) && Bare(field) && OneLine(EntryText(field, sv))
    requires SectionLine(l, section)
    ensures ReadLines(LinesOf(Concat(EditAt(Keep([l]), section, field, sv)))) == None
  {
    var e := EntryText(field, sv);
    assert Keep([l]) == [l] && [l][1..] == [];
    assert EditBelow([], field, sv) == [e + "\n"];
    assert EditAt([l], section, field, sv) == [l] + [e + "\n"];
    TwoPieces(l, e);
    LineThenText(l + e, "");
    HeaderThenText(l, section, e);
  }

  lemma TwoPieces(l: string, e: string)
    ensures Concat([l] + [e + "\n"]) == (l + e) + "\n" + ""
  {
    ConcatMore([l], [e + "\n"]);
    assert [l][1..] == [] && [e + "\n"][1..] == [];
    assert Concat([l]) == l && Concat([e + "\n"]) == e + "\n";
  }

  lemma AtInnerHeader(ls: seq<string>, section: string, field: string, sv: string, n: Node)
    requires |ls| > 1 && AllOneLine(ls) && ReadLines(ls).Some? && Bare(section) && Bare(field) && Prints(field, sv, n)
    requires SectionLine(ls[0], section)
    ensures AtSays(ReadLines(LinesOf(Concat(EditAt(Keep(ls), section, field, sv)))), ReadLines(ls).value,
                   GluedAt(ls, section, field), section, field, n)
  {
    var l, below := ls[0], EditBelow(Keep(ls[1..]), field, sv);
    HeaderLineReads(l, section);
    BelowReads(ls[1..], field, sv, n);
    AtHeaderText(ls, section, field, sv);
    LinesHoldNoTables(LinesOf(Concat(EditAt(Keep(ls), section, field, sv))));
    HeaderStep(ReadLines(LinesOf(Concat(below))), ReadLines(ls[1..]).value, Glued(ls[1..], field), section, field, n);
  }

  lemma AtHeaderText(ls: seq<string>, section: string, field: string, sv: string)
    requires |ls| > 1 && AllOneLine(ls) && SectionLine(ls[0], section)
    ensures ReadLines(LinesOf(Concat(EditAt(Keep(ls), section, field, sv)))) ==
            Cons(ReadLine(ls[0]), ReadLines(LinesOf(Concat(EditBelow(Keep(ls[1..]), field, sv)))))
  {
    var l, ps, below := ls[0], Keep(ls[1..]), EditBelow(Keep(ls[1..]), field, sv);
    NewlineUnseen(l, section, "");
    assert ([l + "\n"] + ps)[1..] == ps;
    assert EditAt(Keep(ls), section, field, sv) == [l + "\n"] + below && ([l + "\n"] + below)[1..] == below;
    LineThenText(l, Concat(below));
  }

  lemma HeaderStep(out: Option<seq<Line>>, lines: seq<Line>, glued: bool, section: string, field: string, n: Node)
    requires BelowSays(out, lines, glued, field, n)
    ensures var all := Cons(Some(Header([section])), out);
            if glued then all.Some? ==> !SectionHas(all.value, section, field)
            else all == Some(EditLines([Header([section])] + lines, section, field, n))
  {
    var head := Header([section]);
    assert ([head] + lines)[0] == head && ([head] + lines)[1..] == lines;
    if out.Some? {
      assert ([head] + out.value)[0] == head && ([head] + out.value)[1..] == out.value;
    }
  }

  lemma AtHeader(ls: seq<string>, section: string, field: string, sv: string, n: Node)
    requires ls != [] && AllOneLine(ls) && ReadLines(ls).Some? && Bare(section) && Bare(field) && Prints(field, sv, n)
    requires SectionLine(ls[0], section)
    ensures AtSays(ReadLines(LinesOf(Concat(EditAt(Keep(ls), section, field, sv)))), ReadLines(ls).value,
                   GluedAt(ls, section, field), section, field, n)
  {
    if |ls| == 1 {
      assert ls == [ls[0]];
      AtLastHeader(ls[0], section, field, sv);
    } else {
      AtInnerHeader(ls, section, field, sv, n);
    }
  }

  lemma {:induction false} AtReads(ls: seq<string>, section: string, field: string, sv: string, n: Node)
    requires ls != [] && AllOneLine(ls) && ReadLines(ls).Some? && Bare(section) && Bare(field) && Prints(field, sv, n)
    requires AnyLine(ls, section) && Once(ReadLines(ls).value, section)
    ensures AtSays(ReadLines(LinesOf(Concat(EditAt(Keep(ls), section, field, sv)))), ReadLines(ls).value,
                   GluedAt(ls, section, field), section, field, n)
  {
    var l := ls[0];
    if SectionLine(l, section) {
      AtHeader(ls, section, field, sv, n);
    } else {
      AnyLineIsHeader(ls[1..], section);
      OnceBelow(ls, section);
      AtReads(ls[1..], section, field, sv, n);
      AtSkips(ls, section, field, sv);
      var out := ReadLines(LinesOf(Concat(EditAt(Keep(ls[1..]), section, field, sv))));
      LinesHoldNoTables(LinesOf(Concat(EditAt(Keep(ls), section, field, sv))));
      AtStep(ReadLine(l).value, out, ReadLines(ls[1..]).value, GluedAt(ls, section, field), section, field, n);
    }
  }

  lemma OnceBelow(ls: seq<string>, section: string)
    requires ls != [] && ReadLines(ls).Some? && Once(ReadLines(ls).value, section)
    requires HasHeader(ReadLines(ls[1..]).value, section)
    ensures ReadLine(ls[0]) != Some(Header([section])) && Once(ReadLines(ls[1..]).value, section)
  {
    var l, lines := ReadLine(ls[0]).value, ReadLines(ls[1..]).value;
    if !l.Blank? {
      assert ([l] + lines)[0] == l && ([l] + lines)[1..] == lines;
    }
  }

  lemma AtSkips(ls: seq<string>, section: string, field: string, sv: string)
    requires |ls| > 1 && AllOneLine(ls) && !SectionLine(ls[0], section)
    ensures ReadLines(LinesOf(Concat(EditAt(Keep(ls), section, field, sv)))) ==
            Cons(ReadLine(ls[0]), ReadLines(LinesOf(Concat(EditAt(Keep(ls[1..]), section, field, sv)))))
  {
    var l, rest := ls[0], EditAt(Keep(ls[1..]), section, field, sv);
    NewlineUnseen(l, section, "");
    var ps := Keep(ls[1..]);
    assert ([l + "\n"] + ps)[1..] == ps;
    assert EditAt(Keep(ls), section, field, sv) == [l + "\n"] + rest && ([l + "\n"] + rest)[1..] == rest;
    LineThenText(l, Concat(rest));
  }

  lemma AtStep(l: Line, out: Option<seq<Line>>, lines: seq<Line>, glued: bool, section: string, field: string, n: Node)
    requires l != Header([section])
    requires AtSays(out, lines, glued, section, field, n)
    requires Cons(Some(l), out).Some? ==> PlainEntries(Cons(Some(l), out).value)
    ensures AtSays(Cons(Some(l), out), Cons(Some(l), Some(lines)).value, glued, section, field, n)
  {
  }

  lemma {:induction false} ReadNoTable(s: string)
    ensures ReadValue(s).Some? ==> !IsTable(ReadValue(s).value.0)
  {
  }

  lemma {:induction false} LinesHoldNoTables(ls: seq<string>)
    ensures ReadLines(ls).Some? ==> PlainEntries(ReadLines(ls).value)
  {
    if ls != [] && ReadLines(ls).Some? {
      LinesHoldNoTables(ls[1..]);
      EntryHoldsNoTable(ls[0]);
    }
  }

  lemma EntryHoldsNoTable(l: string)
    ensures ReadLine(l).Some? && ReadLine(l).value.Entry? ==> !IsTable(ReadLine(l).value.node)
  {
    SkipSkips(l);
    var s := SkipBlanks(l);
    if ReadLine(l).Some? && ReadLine(l).value.Entry? {
      ReadNoTable(SkipBlanks(ReadPath(s).value.1[1..]));
    }
  }

  // ------------------------------------------------------------------ a new section

  lemma LinesOfCons(c: char, s: string)
    ensures LinesOf([c] + s) ==
            if c == '\n' then [""] + LinesOf(s) else [[c] + LinesOf(s)[0]] + LinesOf(s)[1..]
  {
    assert ([c] + s)[0] == c && ([c] + s)[1..] == s;
  }

  lemma ConsJoined(c: char, x: seq<string>, y: seq<string>)
    requires x != []
    ensures [""] + (x + y) == ([""] + x) + y
    ensures [[c] + (x + y)[0]] + (x + y)[1..] == ([[c] + x[0]] + x[1..]) + y
  {
    assert (x + y)[1..] == x[1..] + y;
  }

  lemma {:induction false} LinesOfJoined(a: string, b: string)
    ensures LinesOf(a + "\n" + b) == LinesOf(a) + LinesOf(b)
  {
    if a == "" {
      FirstLine("", b);
    } else {
      var rest := a[1..] + "\n" + b;
      assert a + "\n" + b == [a[0]] + rest && a == [a[0]] + a[1..];
      LinesOfJoined(a[1..], b);
      LinesOfCons(a[0], rest);
      LinesOfCons(a[0], a[1..]);
      ConsJoined(a[0], LinesOf(a[1..]), LinesOf(b));
    }
  }

  lemma {:induction false} ReadLinesJoined(a: seq<string>, b: seq<string>)
    ensures ReadLines(a + b) ==
            match (ReadLines(a), ReadLines(b))
            case (Some(x), Some(y)) => Some(x + y)
            case _ => None
  {
    if a == [] {
      assert a + b == b;
      assert ReadLines(b).Some? ==> [] + ReadLines(b).value == ReadLines(b).value;
    } else {
      assert (a + b)[0] == a[0] && (a + b)[1..] == a[1..] + b;
      ReadLinesJoined(a[1..], b);
      if ReadLines(a).Some? && ReadLines(b).Some? {
        var l, x, y := ReadLine(a[0]).value, ReadLines(a[1..]).value, ReadLines(b).value;
        assert [l] + (x + y) == ([l] + x) + y;
      }
    }
  }

  lemma TwoLinesRead(first: string, second: string, x: Line, y: Line)
    requires OneLine(first) && OneLine(second) && ReadLine(first) == Some(x) && ReadLine(second) == Some(y)
    requires !x.Blank? && !y.Blank?
    ensures ReadLines(LinesOf(first + "\n" + (second + "\n" + ""))) == Some([x, y])
  {
    NothingReads();
    LineThenText(second, "");
    assert [y] + [] == [y];
    LineThenText(first, second + "\n" + "");
    assert [x] + [y] == [x, y];
  }

  lemma HeadThenEntry(section: string, field: string, sv: string, n: Node)
    requires Bare(section) && Prints(field, sv, n)
    ensures ReadLines(LinesOf("[" + section + "]" + "\n" + (EntryText(field, sv) + "\n" + ""))) ==
            Some([Header([section]), Entry(field, n)])
  {
    SectionHeadReads(section);
    PairReads(field, sv);
    TwoLinesRead("[" + section + "]", EntryText(field, sv), Header([section]), Entry(field, n));
  }

  lemma SectionHeadReads(section: string)
    requires Bare(section)
    ensures ReadLine("[" + section + "]") == Some(Header([section]))
  {
    HeaderParse(section, "");
    assert "[" + section + "]" + "" == "[" + section + "]";
  }

  lemma AddedLines(section: string, field: string, sv: string, n: Node)
    requires Bare(section) && Prints(field, sv, n)
    ensures ReadLines(LinesOf(AddedText(section, field, sv))) == Some([Header([section]), Entry(field, n)])
  {
    HeadThenEntry(section, field, sv, n);
    LineThenText("", "[" + section + "]" + "\n" + (EntryText(field, sv) + "\n" + ""));
    AddedParts(section, EntryText(field, sv));
  }

  lemma AddedParts(section: string, e: string)
    ensures "\n[" + section + "]\n" + e + "\n" == "" + "\n" + ("[" + section + "]" + "\n" + (e + "\n" + ""))
  {
  }

  function AddedText(section: string, field: string, sv: string): string {
    "\n[" + section + "]\n" + EntryText(field, sv) + "\n"
  }

  lemma JoinedMore(a: string, b: string, more: seq<Line>)
    requires ReadLines(LinesOf(a)).Some? && ReadLines(LinesOf(b)) == Some(more)
    ensures ReadLines(LinesOf(a + "\n" + b)) == Some(ReadLines(LinesOf(a)).value + more)
  {
    LinesOfJoined(a, b);
    ReadLinesJoined(LinesOf(a), LinesOf(b));
  }

  lemma EndedText(content: string) returns (body: string)
    requires EndsLine(content)
    ensures content == body + "\n"
    ensures ReadLines(LinesOf(content)) == ReadLines(LinesOf(body))
  {
    body := content[..|content| - 1];
    assert content == body + "\n" + "";
    LinesOfJoined(body, "");
    ReadLinesJoined(LinesOf(body), LinesOf(""));
    NothingReads();
    if ReadLines(LinesOf(body)).Some? {
      assert ReadLines(LinesOf(body)).value + [] == ReadLines(LinesOf(body)).value;
    }
  }

  /** The text up to where a new section is added. */
  function Front(content: string): string {
    if EndsLine(content) then content else content + "\n"
  }

  lemma FrontReads(content: string)
    ensures EndsLine(Front(content)) && ReadLines(LinesOf(Front(content))) == ReadLines(LinesOf(content))
  {
    if !EndsLine(content) {
      var body := EndedText(content + "\n");
      assert (content + "\n")[..|content|] == content && (body + "\n")[..|body|] == body;
    }
  }

  lemma TextThenMore(content: string, more: string, added: seq<Line>)
    requires ReadLines(LinesOf(content)).Some? && ReadLines(LinesOf(more)) == Some(added)
    ensures ReadLines(LinesOf(Front(content) + more)) == Some(ReadLines(LinesOf(content)).value + added)
  {
    FrontReads(content);
    var body := EndedText(Front(content));
    JoinedMore(body, more, added);
  }

  lemma AppendReads(content: string, section: string, field: string, sv: string, n: Node)
    requires ReadLines(LinesOf(content)).Some? && Bare(section) && Prints(field, sv, n)
    requires !HasSection(SplitLines(content), section)
    ensures ReadLines(LinesOf(SetText(content, section, field, sv))) ==
            Some(ReadLines(LinesOf(content)).value + [Header([section]), Entry(field, n)])
  {
    AddedLines(section, field, sv, n);
    TextThenMore(content, AddedText(section, field, sv), [Header([section]), Entry(field, n)]);
    AppendedShape(content, section, field, sv);
  }

  lemma AppendedShape(content: string, section: string, field: string, sv: string)
    ensures content + (if EndsLine(content) then "" else "\n") + "\n[" + section + "]\n" + EntryText(field, sv) + "\n"
         == Front(content) + AddedText(section, field, sv)
  {
  }

  // ------------------------------------------------------------------ what setting a key means

  /** Whether setting `section.field` in this text works: the header of the section, if it has one,
      is alone on its line; the name is free; and the entry is not glued to an unterminated line. */
  predicate Settable(content: string, section: string, field: string)
    requires Read(content).Some?
  {
    var ls := LinesOf(content);
    var lines := ReadLines(ls).value;
    && Free(lines, Read(content).value, section, field)
    && (HasHeader(lines, section) ==> AnyLine(ls, section) && !GluedAt(ls, section, field))
  }

  lemma PlainPrints(field: string, v: Value)
    requires Bare(field) && Plain(v)
    ensures Print(v).Some? && Prints(field, Print(v).value, AsNode(v)) && !IsTable(AsNode(v))
  {
    PairRow(field, v);
    PlainIsScalar(v);
  }

  /** The edited text reads as the old data with the one key set exactly when the key is settable;
      whatever the text, no other change of meaning is left behind unnoticed by this condition. */
  lemma SettingReads(content: string, section: string, field: string, v: Value)
    requires NoBreaks(content) && Read(content).Some? && Bare(section) && Bare(field) && Plain(v)
    ensures Print(v).Some?
    ensures Read(SetText(content, section, field, Print(v).value)) ==
              Some(SetIn(Read(content).value, section, field, AsNode(v)))
            <==> Settable(content, section, field)
  {
    var ls := LinesOf(content);
    var lines := ReadLines(ls).value;
    var n := AsNode(v);
    PlainPrints(field, v);
    LinesAreLines(content);
    SplitKeeps(content);
    KeptHeaders(ls, section);
    LinesHoldNoTables(ls);
    SectionsHeadOnce(lines, section);
    EditedReads(lines, section, field, n);
    if AnyLine(ls, section) {
      AnyLineIsHeader(ls, section);
      AtReads(ls, section, field, Print(v).value, n);
      if GluedAt(ls, section, field) {
        GluedLoses(content, section, field, Print(v).value, n);
      }
    } else {
      AppendReads(content, section, field, Print(v).value, n);
      if HasHeader(lines, section) {
        RepeatedSectionFails(lines, section, field, n);
      } else {
        AppendIsEdit(lines, section, field, n);
      }
    }
  }

  lemma GluedLoses(content: string, section: string, field: string, sv: string, n: Node)
    requires Read(content).Some? && !IsTable(n)
    requires var out := ReadLines(LinesOf(SetText(content, section, field, sv)));
             out.Some? ==> !SectionHas(out.value, section, field) && PlainEntries(out.value)
    ensures Read(SetText(content, section, field, sv)) != Some(SetIn(Read(content).value, section, field, n))
  {
    var out := ReadLines(LinesOf(SetText(content, section, field, sv)));
    if out.Some? && ReadAll(out.value).Some? {
      DocumentLacks(out.value, section, field);
    }
  }

  lemma {:induction false} AppendIsEdit(lines: seq<Line>, section: string, field: string, n: Node)
    requires !HasHeader(lines, section)
    ensures EditLines(lines, section, field, n) == lines + [Header([section]), Entry(field, n)]
  {
    if lines != [] {
      assert lines == [lines[0]] + lines[1..];
      AppendIsEdit(lines[1..], section, field, n);
    }
  }

  function Lookup(t: Table, section: string, field: string): Option<Node> {
    if section in t && t[section].NTab? && field in t[section].table then Some(t[section].table[field]) else None
  }

  /** A settable key reads back as the new value, and every other key as before. */
  lemma SetKeyReadsBack(content: string, section: string, field: string, v: Value)
    requires NoBreaks(content) && Read(content).Some? && Bare(section) && Bare(field) && Plain(v)
    requires Settable(content, section, field)
    ensures Print(v).Some?
    ensures var t := Read(content).value;
            var r := Read(SetText(content, section, field, Print(v).value));
            && r.Some?
            && Lookup(r.value, section, field) == Some(AsNode(v))
            && (forall s, k :: (s, k) != (section, field) ==> Lookup(r.value, s, k) == Lookup(t, s, k))
            && (forall s :: s != section ==> (s in r.value <==> s in t) && (s in t ==> r.value[s] == t[s]))
  {
    SettingReads(content, section, field, v);
  }

  lemma SoleHeaderReads(section: string)
    requires Bare(section)
    ensures Read("[" + section + "]") == Some(map[section := NTab(map[])])
  {
    var l := "[" + section + "]";
    OneLineIsLine(l);
    ReadOne(l);
    SectionHeadReads(section);
    assert [Header([section])] + [] == [Header([section])];
    SoleHeader(section);
  }

  /** The failing case: a section header that is the unterminated end of the file. */
  lemma UnterminatedHeaderFails(section: string, field: string, v: Value)
    requires Bare(section) && Bare(field) && Plain(v)
    ensures Read("[" + section + "]") == Some(map[section := NTab(map[])])
    ensures Print(v).Some? && Read(SetText("[" + section + "]", section, field, Print(v).value)).None?
  {
    var l := "[" + section + "]";
    SoleHeaderReads(section);
    SectionHeadReads(section);
    SectionLineOf(section);
    OneLineIsLine(l);
    SplitKeeps(l);
    PlainPrints(field, v);
    AtLastHeader(l, section, field, Print(v).value);
    assert HasSection([l], section) by { assert [l][0] == l; }
  }

  lemma SoleHeader(section: string)
    ensures ReadAll([Header([section])]) == Some(map[section := NTab(map[])])
  {
    var head := Header([section]);
    var d: Doc := Doc(map[], {});
    assert [section][..0] == [];
    assert Attach(d, head, map[]) == Some(Doc(map[section := NTab(map[])], {} + {section}));
    HeadConsumes(head, [], map[], [], d);
    assert [head] + [] == [head];
  }

  lemma SectionLineOf(section: string)
    ensures SectionLine("[" + section + "]", section)
  {
    var l := "[" + section + "]";
    assert StripLeft(l) == l && l[|l|..] == "";
  }

  // ------------------------------------------------------------------ setting twice

  /** A whole line with its newline. */
  predicate Piece(p: string) {
    p != "" && p[|p| - 1] == '\n' && forall i :: 0 <= i < |p| - 1 ==> !IsBreak(p[i])
  }

  predicate Pieces(ps: seq<string>) {
    forall i :: 0 <= i < |ps| ==> Piece(ps[i])
  }

  lemma {:induction false} SplitFirst(p: string, rest: string)
    requires Piece(p)
    ensures SplitLines(p + rest) == [p] + SplitLines(rest)
  {
    var s := p + rest;
    assert s[0] == p[0] && s[1..] == p[1..] + rest;
    if |p| == 1 {
      assert p == "\n" && s[1..] == rest && [s[0]] == p;
    } else {
      assert Piece(p[1..]) && !IsBreak(s[0]);
      SplitFirst(p[1..], rest);
      assert ([p[1..]] + SplitLines(rest))[1..] == SplitLines(rest);
      assert [p[0]] + p[1..] == p;
    }
  }

  lemma {:induction false} SplitPieces(ps: seq<string>)
    requires Pieces(ps)
    ensures SplitLines(Concat(ps)) == ps
  {
    if ps != [] {
      SplitPieces(ps[1..]);
      SplitFirst(ps[0], Concat(ps[1..]));
      assert ps == [ps[0]] + ps[1..];
    }
  }

  lemma {:induction false} KeepPieces(ls: seq<string>)
    requires ls != [] && ls[|ls| - 1] == ""
    requires forall i, j :: 0 <= i < |ls| && 0 <= j < |ls[i]| ==> !IsBreak(ls[i][j])
    ensures Pieces(Keep(ls))
  {
    if |ls| > 1 {
      KeepPieces(ls[1..]);
      assert Piece(ls[0] + "\n");
    }
  }

  lemma {:induction false} EndedLines(s: string)
    requires NoBreaks(s)
    ensures forall i, j :: 0 <= i < |LinesOf(s)| && 0 <= j < |LinesOf(s)[i]| ==> !IsBreak(LinesOf(s)[i][j])
    ensures EndsLine(s) ==> LinesOf(s)[|LinesOf(s)| - 1] == ""
  {
    if s != "" {
      EndedLines(s[1..]);
    }
  }

  /** A terminated text is cut into whole lines. */
  lemma EndedPieces(s: string)
    requires NoBreaks(s) && EndsLine(s)
    ensures Pieces(SplitLines(s))
  {
    EndedLines(s);
    SplitKeeps(s);
    KeepPieces(LinesOf(s));
  }

  predicate SafeEntry(field: string, sv: string) {
    Bare(field) && sv != "" && forall i :: 0 <= i < |sv| ==> !IsBreak(sv[i])
  }

  lemma EntryIsKeyLine(field: string, sv: string)
    requires SafeEntry(field, sv)
    ensures var p := EntryText(field, sv) + "\n"; Piece(p) && KeyLine(p, field) && !AnySectionLine(p)
  {
    var e := EntryText(field, sv);
    var p := e + "\n";
    assert p[..|e|] == e && Chomp(p) == e;
    assert e[..|field|] == field && e[|field|..] == " = " + sv;
    assert (" = " + sv)[1..] == "= " + sv;
    assert StripLeft(" = " + sv) == "= " + sv;
    assert p[0] == field[0] && StripLeft(p) == p;
  }

  lemma {:induction false} BelowTwice(ps: seq<string>, field: string, sv: string)
    requires SafeEntry(field, sv)
    ensures EditBelow(EditBelow(ps, field, sv), field, sv) == EditBelow(ps, field, sv)
    ensures Pieces(ps) ==> Pieces(EditBelow(ps, field, sv))
  {
    EntryIsKeyLine(field, sv);
    var entry, out := EntryText(field, sv) + "\n", EditBelow(ps, field, sv);
    if ps == [] || AnySectionLine(ps[0]) {
      assert out[1..] == ps;
    } else if KeyLine(ps[0], field) {
      assert out[1..] == ps[1..];
    } else {
      BelowTwice(ps[1..], field, sv);
      assert out[1..] == EditBelow(ps[1..], field, sv);
    }
  }

  lemma {:induction false} AtTwice(ps: seq<string>, section: string, field: string, sv: string)
    requires SafeEntry(field, sv) && HasSection(ps, section)
    ensures var out := EditAt(ps, section, field, sv);
            EditAt(out, section, field, sv) == out && HasSection(out, section) && (Pieces(ps) ==> Pieces(out))
  {
    var out := EditAt(ps, section, field, sv);
    assert ps == [ps[0]] + ps[1..];
    HasSectionCons(ps[0], ps[1..], section);
    if SectionLine(ps[0], section) {
      var below := EditBelow(ps[1..], field, sv);
      BelowTwice(ps[1..], field, sv);
      assert out == [ps[0]] + below && out[1..] == below;
      HasSectionCons(ps[0], below, section);
    } else {
      var rest := EditAt(ps[1..], section, field, sv);
      AtTwice(ps[1..], section, field, sv);
      assert out == [ps[0]] + rest && out[1..] == rest;
      HasSectionCons(ps[0], rest, section);
    }
  }

  lemma {:induction false} NewSectionTwice(ps: seq<string>, section: string, field: string, sv: string)
    requires SafeEntry(field, sv) && !HasSection(ps, section) && Bare(section)
    ensures var out := ps + ["\n", "[" + section + "]\n", EntryText(field, sv) + "\n"];
            EditAt(out, section, field, sv) == out && HasSection(out, section)
  {
    var added := ["\n", "[" + section + "]\n", EntryText(field, sv) + "\n"];
    var out := ps + added;
    if ps == [] {
      EntryIsKeyLine(field, sv);
      SectionLineOf(section);
      SectionLineNewline("[" + section + "]", section);
      SectionLineNewline("", section);
      assert "[" + section + "]" + "\n" == "[" + section + "]\n" && "" + "\n" == "\n";
      assert out == added && added[1..][1..] == [added[2]] && added[1..][0] == added[1];
      assert EditBelow([added[2]], field, sv) == [added[2]] by { assert [added[2]][1..] == []; }
      assert EditAt(added[1..], section, field, sv) == added[1..];
      assert SectionLine(added[1], section);
    } else {
      assert ps == [ps[0]] + ps[1..];
      HasSectionCons(ps[0], ps[1..], section);
      assert out[0] == ps[0] && out[1..] == ps[1..] + added;
      NewSectionTwice(ps[1..], section, field, sv);
      HasSectionCons(ps[0], ps[1..] + added, section);
      assert out == [ps[0]] + (ps[1..] + added);
    }
  }

  lemma StillNoSection(content: string, section: string)
    requires NoBreaks(content) && !EndsLine(content) && !HasSection(SplitLines(content), section)
    ensures !HasSection(SplitLines(content + "\n"), section)
  {
    var text := content + "\n";
    assert text == content + "\n" + "";
    LinesAreLines(content);
    LinesAreLines(text);
    LinesOfJoined(content, "");
    SplitKeeps(content);
    SplitKeeps(text);
    KeptHeaders(LinesOf(content), section);
    KeptHeaders(LinesOf(text), section);
    AnyLineMore(LinesOf(content), section);
  }

  lemma {:induction false} AnyLineMore(ls: seq<string>, section: string)
    ensures AnyLine(ls + [""], section) <==> AnyLine(ls, section)
  {
    if ls == [] {
      assert (ls + [""])[0] == "" && (ls + [""])[1..] == [] && !SectionLine("", section);
    } else {
      assert (ls + [""])[0] == ls[0] && (ls + [""])[1..] == ls[1..] + [""];
      AnyLineMore(ls[1..], section);
    }
  }

  lemma SetTwiceExisting(content: string, section: string, field: string, sv: string)
    requires NoBreaks(content) && SafeEntry(field, sv)
    requires EndsLine(content) && HasSection(SplitLines(content), section)
    ensures var once := SetText(content, section, field, sv); SetText(once, section, field, sv) == once
  {
    EndedPieces(content);
    AtTwice(SplitLines(content), section, field, sv);
    SplitPieces(EditAt(SplitLines(content), section, field, sv));
  }

  function NewPieces(section: string, field: string, sv: string): seq<string> {
    ["\n", "[" + section + "]\n", EntryText(field, sv) + "\n"]
  }

  lemma CutAgain(front: string, section: string, field: string, sv: string)
    requires Pieces(SplitLines(front)) && Bare(section) && SafeEntry(field, sv)
    ensures SplitLines(front + Concat(NewPieces(section, field, sv))) == SplitLines(front) + NewPieces(section, field, sv)
  {
    var ps, added := SplitLines(front), NewPieces(section, field, sv);
    EntryIsKeyLine(field, sv);
    assert Pieces(added);
    SplitPieces(ps + added);
    SplitJoins(front);
    ConcatMore(ps, added);
  }

  lemma SetTwiceNew(content: string, section: string, field: string, sv: string)
    requires NoBreaks(content) && Bare(section) && SafeEntry(field, sv)
    requires !HasSection(SplitLines(content), section)
    ensures var once := SetText(content, section, field, sv); SetText(once, section, field, sv) == once
  {
    var front := content + (if EndsLine(content) then "" else "\n");
    if EndsLine(content) {
      assert front == content;
    } else {
      StillNoSection(content, section);
    }
    EndedPieces(front);
    AddedPieces(front, section, EntryText(field, sv));
    CutAgain(front, section, field, sv);
    NewSectionTwice(SplitLines(front), section, field, sv);
    SplitJoins(front + Concat(NewPieces(section, field, sv)));
  }

  lemma AddedPieces(front: string, section: string, e: string)
    ensures front + "\n[" + section + "]\n" + e + "\n" == front + Concat(["\n", "[" + section + "]\n", e + "\n"])
  {
    var a, b, c := "\n", "[" + section + "]\n", e + "\n";
    assert [a, b, c][1..] == [b, c] && [b, c][1..] == [c] && [c][1..] == [];
    assert Concat([c]) == c && Concat([b, c]) == b + c && Concat([a, b, c]) == a + (b + c);
  }

  // ------------------------------------------------------------------ an unterminated last line

  /** A last line without its newline. */
  predicate OpenLine(p: string) {
    p != "" && forall i :: 0 <= i < |p| ==> !IsBreak(p[i])
  }

  predicate LineSeq(ps: seq<string>) {
    forall i :: 0 <= i < |ps| ==> Piece(ps[i]) || (i == |ps| - 1 && OpenLine(ps[i]))
  }

  lemma LineSeqCons(p: string, rest: seq<string>)
    requires LineSeq(rest) && (Piece(p) || (rest == [] && OpenLine(p)))
    ensures LineSeq([p] + rest)
  {
  }

  lemma LineSeqTail(ps: seq<string>)
    requires ps != [] && LineSeq(ps)
    ensures LineSeq(ps[1..]) && (Piece(ps[0]) || (ps[1..] == [] && OpenLine(ps[0])))
  {
    assert forall i :: 0 <= i < |ps[1..]| ==> ps[1..][i] == ps[i + 1];
  }

  lemma {:induction false} SplitIsLineSeq(s: string)
    requires NoBreaks(s)
    ensures LineSeq(SplitLines(s))
  {
    if s != "" {
      SplitIsLineSeq(s[1..]);
      var rest := SplitLines(s[1..]);
      if IsBreak(s[0]) {
        LineSeqCons([s[0]], rest);
      } else if |s| > 1 {
        LineSeqTail(rest);
        LongerLine(s[0], rest[0]);
        LineSeqCons([s[0]] + rest[0], rest[1..]);
      }
    }
  }

  lemma LongerLine(c: char, p: string)
    requires !IsBreak(c)
    ensures (Piece(p) ==> Piece([c] + p)) && (OpenLine(p) ==> OpenLine([c] + p))
  {
  }

  lemma {:induction false} SplitOpen(p: string)
    requires OpenLine(p)
    ensures SplitLines(p) == [p]
  {
    assert !IsBreak(p[0]);
    if |p| > 1 {
      SplitOpen(p[1..]);
      assert [p[0]] + p[1..] == p && [p[1..]][1..] == [];
    } else {
      assert p[1..] == "" && [p[0]] == p;
    }
  }

  lemma {:induction false} SplitLineSeq(ps: seq<string>)
    requires LineSeq(ps)
    ensures SplitLines(Concat(ps)) == ps
  {
    if ps != [] {
      LineSeqTail(ps);
      SplitLineSeq(ps[1..]);
      assert ps == [ps[0]] + ps[1..];
      if Piece(ps[0]) {
        SplitFirst(ps[0], Concat(ps[1..]));
      } else {
        SplitOpen(ps[0]);
        assert ps[0] + "" == ps[0];
      }
    }
  }

  /** The edit finds neither the key nor a further header, so the entry goes behind the last line. */
  predicate AppendsBelow(ps: seq<string>, field: string) {
    ps == [] || (!AnySectionLine(ps[0]) && !KeyLine(ps[0], field) && AppendsBelow(ps[1..], field))
  }

  predicate AppendsAt(ps: seq<string>, section: string, field: string) {
    && ps != []
    && if SectionLine(ps[0], section) then AppendsBelow(ps[1..], field) else AppendsAt(ps[1..], section, field)
  }

  lemma {:induction false} BelowKeepsLines(ps: seq<string>, field: string, sv: string)
    requires LineSeq(ps) && !AppendsBelow(ps, field) && SafeEntry(field, sv)
    ensures LineSeq(EditBelow(ps, field, sv))
  {
    EntryIsKeyLine(field, sv);
    LineSeqTail(ps);
    if AnySectionLine(ps[0]) {
      LineSeqCons(EntryText(field, sv) + "\n", ps);
    } else if KeyLine(ps[0], field) {
      LineSeqCons(EntryText(field, sv) + "\n", ps[1..]);
    } else {
      BelowKeepsLines(ps[1..], field, sv);
      LineSeqCons(ps[0], EditBelow(ps[1..], field, sv));
    }
  }

  lemma {:induction false} AtKeepsLines(ps: seq<string>, section: string, field: string, sv: string)
    requires LineSeq(ps) && HasSection(ps, section) && !AppendsAt(ps, section, field) && SafeEntry(field, sv)
    ensures LineSeq(EditAt(ps, section, field, sv))
  {
    LineSeqTail(ps);
    assert ps == [ps[0]] + ps[1..];
    HasSectionCons(ps[0], ps[1..], section);
    if SectionLine(ps[0], section) {
      BelowKeepsLines(ps[1..], field, sv);
      LineSeqCons(ps[0], EditBelow(ps[1..], field, sv));
    } else {
      AtKeepsLines(ps[1..], section, field, sv);
      LineSeqCons(ps[0], EditAt(ps[1..], section, field, sv));
    }
  }

  /** Behind an unterminated line the entry is glued to it, and the next edit changes the length. */
  lemma {:induction false} GluedBelowMoves(front: seq<string>, last: string, field: string, sv: string)
    requires AppendsBelow(front + [last], field) && last != ""
    ensures var entry := EntryText(field, sv) + "\n";
            && EditBelow(front + [last], field, sv) == front + [last, entry]
            && |Concat(EditBelow(front + [last + entry], field, sv))| != |Concat(front + [last + entry])|
  {
    var entry := EntryText(field, sv) + "\n";
    var g := last + entry;
    if front == [] {
      assert front + [last] == [last] && [last][1..] == [] && front + [g] == [g] && [g][1..] == [];
      assert EditBelow([], field, sv) == [entry] + [];
      assert Concat([g]) == g && Concat([entry]) == entry && Concat([entry, g]) == entry + Concat([entry, g][1..]);
      assert [entry, g][1..] == [g] && [g, entry][1..] == [entry];
      assert Concat([g, entry]) == g + Concat([g, entry][1..]);
    } else {
      var head, rest := front[0], front[1..];
      assert (front + [last])[1..] == rest + [last] && (front + [g])[1..] == rest + [g];
      GluedBelowMoves(rest, last, field, sv);
      assert ([head] + EditBelow(rest + [g], field, sv))[1..] == EditBelow(rest + [g], field, sv);
      assert front + [last, entry] == [head] + (rest + [last, entry]);
    }
  }

  lemma {:induction false} GluedMoves(front: seq<string>, last: string, section: string, field: string, sv: string)
    requires AppendsAt(front + [last], section, field) && last != ""
    ensures var entry := EntryText(field, sv) + "\n";
            && EditAt(front + [last], section, field, sv) == front + [last, entry]
            && HasSection(front + [last], section)
            && (HasSection(front + [last + entry], section) ==>
                  |Concat(EditAt(front + [last + entry], section, field, sv))| != |Concat(front + [last + entry])|)
  {
    var entry := EntryText(field, sv) + "\n";
    var g := last + entry;
    assert (front + [last])[0] == if front == [] then last else front[0];
    if front == [] {
      OnlyPieces(last, g, section, field, sv);
    } else {
      var head, rest := front[0], front[1..];
      assert (front + [last])[1..] == rest + [last] && (front + [g])[1..] == rest + [g];
      assert front + [last] == [head] + (rest + [last]) && front + [g] == [head] + (rest + [g]);
      assert front + [last, entry] == [head] + (rest + [last, entry]);
      HasSectionCons(head, rest + [last], section);
      HasSectionCons(head, rest + [g], section);
      if SectionLine(head, section) {
        GluedBelowMoves(rest, last, field, sv);
        assert ([head] + EditBelow(rest + [g], field, sv))[1..] == EditBelow(rest + [g], field, sv);
      } else {
        GluedMoves(rest, last, section, field, sv);
        assert ([head] + EditAt(rest + [g], section, field, sv))[1..] == EditAt(rest + [g], section, field, sv);
      }
    }
  }

  lemma OnlyPieces(last: string, g: string, section: string, field: string, sv: string)
    requires AppendsAt([last], section, field)
    ensures EditAt([last], section, field, sv) == [last, EntryText(field, sv) + "\n"] && HasSection([last], section)
    ensures HasSection([g], section) ==> |Concat(EditAt([g], section, field, sv))| != |Concat([g])|
  {
    var entry := EntryText(field, sv) + "\n";
    assert [last][1..] == [] && [g][1..] == [] && EditBelow([], field, sv) == [entry];
    assert SectionLine([last][0], section);
    assert [g] + [entry] == [g, entry] && [g, entry][1..] == [entry] && [entry][1..] == [];
    assert Concat([g]) == g + "" && Concat([g, entry]) == g + Concat([entry]) && Concat([entry]) == entry + "";
  }

  /** Setting the same value again changes nothing exactly unless the first edit glued the entry to an
      unterminated last line. */
  lemma SetTwiceIsSetOnce(content: string, section: string, field: string, sv: string)
    requires NoBreaks(content) && Bare(section) && SafeEntry(field, sv)
    ensures var once := SetText(content, section, field, sv);
            SetText(once, section, field, sv) == once <==> EndsLine(content) || !AppendsAt(SplitLines(content), section, field)
  {
    var ps := SplitLines(content);
    if !HasSection(ps, section) {
      SetTwiceNew(content, section, field, sv);
      NothingAppends(ps, section, field);
    } else if EndsLine(content) {
      SetTwiceExisting(content, section, field, sv);
    } else {
      SplitIsLineSeq(content);
      SplitJoins(content);
      if AppendsAt(ps, section, field) {
        SetTwiceGlued(content, section, field, sv);
      } else {
        AtKeepsLines(ps, section, field, sv);
        SplitLineSeq(EditAt(ps, section, field, sv));
        AtTwice(ps, section, field, sv);
      }
    }
  }

  lemma {:induction false} NothingAppends(ps: seq<string>, section: string, field: string)
    requires !HasSection(ps, section)
    ensures !AppendsAt(ps, section, field)
  {
    if ps != [] {
      assert ps == [ps[0]] + ps[1..];
      HasSectionCons(ps[0], ps[1..], section);
      NothingAppends(ps[1..], section, field);
    }
  }

  lemma SetTwiceGlued(content: string, section: string, field: string, sv: string)
    requires NoBreaks(content) && SafeEntry(field, sv)
    requires !EndsLine(content) && AppendsAt(SplitLines(content), section, field)
    ensures var once := SetText(content, section, field, sv); SetText(once, section, field, sv) != once
  {
    var ps, entry := SplitLines(content), EntryText(field, sv) + "\n";
    SplitIsLineSeq(content);
    SplitJoins(content);
    var front, last := ps[..|ps| - 1], ps[|ps| - 1];
    assert ps == front + [last];
    LastIsOpen(content, front, last);
    EntryIsKeyLine(field, sv);
    GluedMoves(front, last, section, field, sv);
    GluedText(front, last, entry);
    var pieces := front + [last + entry];
    assert LineSeq(pieces) by {
      assert forall i :: 0 <= i < |front| ==> front[i] == ps[i];
      GluedPiece(last, entry);
    }
    SplitLineSeq(pieces);
  }

  lemma LastIsOpen(content: string, front: seq<string>, last: string)
    requires LineSeq(front + [last]) && Concat(front + [last]) == content && !EndsLine(content)
    ensures OpenLine(last)
  {
    ConcatMore(front, [last]);
    assert Concat([last]) == last + "" == last;
    assert (front + [last])[|front|] == last;
    assert last != "" && content == Concat(front) + last;
    assert content[|content| - 1] == last[|last| - 1];
  }

  lemma GluedText(front: seq<string>, last: string, entry: string)
    ensures Concat(front + [last, entry]) == Concat(front + [last + entry])
  {
    ConcatMore(front, [last, entry]);
    ConcatMore(front, [last + entry]);
    assert [last, entry][1..] == [entry] && Concat([entry]) == entry + "" && Concat([last + entry]) == last + entry + "";
  }

  lemma GluedPiece(last: string, entry: string)
    requires OpenLine(last) && Piece(entry)
    ensures Piece(last + entry)
  {
    var g := last + entry;
    assert forall i :: 0 <= i < |g| - 1 ==> g[i] == if i < |last| then last[i] else entry[i - |last|];
  }
}
