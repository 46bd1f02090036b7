/**
  `set_config_value`: changing one `section.field` in the text of an existing configuration file,
  line by line, so that comments and layout survive.
 */
module ConfigEdit {
  import opened TomlValue
  import opened Toml
  import opened TextTools

  // ------------------------------------------------------------------ text lines

  /** The separators of the host's `splitlines`. */
  predicate IsBreak(c: char) {
    var n := c as int;
    0x0a <= n <= 0x0d || 0x1c <= n <= 0x1e || n == 0x85 || n == 0x2028 || n == 0x2029
  }

  /** `splitlines(keepends=True)`. */
  function SplitLines(s: string): (r: seq<string>)
    ensures s != "" ==> r != []
  {
    if s == "" then []
    else if s[0] == '\r' && |s| > 1 && s[1] == '\n' then [s[..2]] + SplitLines(s[2..])
    else if IsBreak(s[0]) || |s| == 1 then [[s[0]]] + SplitLines(s[1..])
    else
      var rest := SplitLines(s[1..]);
      [[s[0]] + rest[0]] + rest[1..]
  }

  function Concat(ps: seq<string>): string {
    if ps == [] then "" else ps[0] + Concat(ps[1..])
  }

  predicate StartsWith(s: string, prefix: string) {
    prefix <= s
  }

  /** `^\s*\[section\]\s*$` */
  predicate SectionLine(p: string, section: string) {
    var s, head := StripLeft(p), "[" + section + "]";
    StartsWith(s, head) && StripLeft(s[|head|..]) == ""
  }

  /** `^\s*\[` */
  predicate AnySectionLine(p: string) {
    StartsWith(StripLeft(p), "[")
  }

  function Chomp(p: string): string {
    if p != "" && p[|p| - 1] == '\n' then p[..|p| - 1] else p
  }

  /** `\s*=\s*.+` */
  predicate AfterKey(s: string) {
    var r := StripLeft(s);
    |r| > 1 && r[0] == '='
  }

  predicate KeyFrom(b: string, field: string) {
    || (StartsWith(b, field) && AfterKey(b[|field|..]))
    || (b != "" && IsSpace(b[0]) && KeyFrom(b[1..], field))
  }

  /** `^(\s*field\s*=\s*)(.+)$` */
  predicate KeyLine(p: string, field: string) {
    KeyFrom(Chomp(p), field)
  }

  // ------------------------------------------------------------------ the edit

  function EntryText(field: string, sv: string): string {
    field + " = " + sv
  }

  /** Below the section header: the first matching line is replaced; without one the entry goes
      before the next header or at the end. */
  function EditBelow(ps: seq<string>, field: string, sv: string): seq<string> {
    var entry := EntryText(field, sv) + "\n";
    if ps == [] || AnySectionLine(ps[0]) then [entry] + ps
    else if KeyLine(ps[0], field) then [entry] + ps[1..]
    else [ps[0]] + EditBelow(ps[1..], field, sv)
  }

  function EditAt(ps: seq<string>, section: string, field: string, sv: string): seq<string> {
    if ps == [] then []
    else if SectionLine(ps[0], section) then [ps[0]] + EditBelow(ps[1..], field, sv)
    else [ps[0]] + EditAt(ps[1..], section, field, sv)
  }

  predicate HasSection(ps: seq<string>, section: string) {
    exists i :: 0 <= i < |ps| && SectionLine(ps[i], section)
  }

  predicate EndsLine(s: string) {
    s != "" && s[|s| - 1] == '\n'
  }

  function SetText(content: string, section: string, field: string, sv: string): string {
    var ps := SplitLines(content);
    if HasSection(ps, section) then Concat(EditAt(ps, section, field, sv))
    else
      content + (if EndsLine(content) then "" else "\n")
      + "\n[" + section + "]\n" + EntryText(field, sv) + "\n"
  }

  /** `_coerce`; what the host's `int` and `float` make of the text are parameters. */
  function Coerce(value: string, asInt: Option<int>, asFloat: Option<string>): Value {
    if Lower(value) == "true" then VBool(true)
    else if Lower(value) == "false" then VBool(false)
    else if asInt.Some? then VInt(asInt.value)
    else if asFloat.Some? then VFloat(asFloat.value)
    else VStr(value)
  }

  function Lower(s: string): string {
    if s == "" then ""
    else [if 'A' <= s[0] <= 'Z' then s[0] - 'A' + 'a' else s[0]] + Lower(s[1..])
  }

  datatype Outcome = Written(text: string) | Refused

  function FirstDot(s: string): (i: int)
    ensures -1 <= i < |s|
    ensures i >= 0 ==> s[i] == '.'
    ensures forall j :: 0 <= j < (if i < 0 then |s| else i) ==> s[j] != '.'
  {
    if s == "" then -1
    else if s[0] == '.' then 0
    else
      var i := FirstDot(s[1..]);
      assert forall j :: 0 < j < |s| ==> s[j] == s[1..][j - 1];
      if i < 0 then -1 else i + 1
  }

  method FindSection(ps: seq<string>, section: string) returns (start: int)
    ensures -1 <= start < |ps|
    ensures start < 0 ==> !HasSection(ps, section)
    ensures start >= 0 ==> SectionLine(ps[start], section) && forall i :: 0 <= i < start ==> !SectionLine(ps[i], section)
  {
    for i := 0 to |ps|
      invariant forall j :: 0 <= j < i ==> !SectionLine(ps[j], section)
    {
      if SectionLine(ps[i], section) {
        return i;
      }
    }
    start := -1;
  }

  method FindSectionEnd(ps: seq<string>, start: nat) returns (end: nat)
    requires start < |ps|
    ensures start < end <= |ps| && (end < |ps| ==> AnySectionLine(ps[end]))
    ensures forall i :: start < i < end ==> !AnySectionLine(ps[i])
  {
    for i := start + 1 to |ps|
      invariant forall j :: start < j < i ==> !AnySectionLine(ps[j])
    {
      if AnySectionLine(ps[i]) {
        return i;
      }
    }
    end := |ps|;
  }

  /** The lines after the edit, given where the section starts and ends. */
  method EditSection(ps: seq<string>, start: nat, end: nat, field: string, sv: string) returns (out: seq<string>)
    requires start < end <= |ps| && (end < |ps| ==> AnySectionLine(ps[end]))
    requires forall i :: start < i < end ==> !AnySectionLine(ps[i])
    ensures out == ps[..start + 1] + EditBelow(ps[start + 1..], field, sv)
  {
    var entry := EntryText(field, sv) + "\n";
    ghost var goal := ps[..start + 1] + EditBelow(ps[start + 1..], field, sv);
    for i := start + 1 to end
      invariant goal == ps[..i] + EditBelow(ps[i..], field, sv)
    {
      BelowStep(ps, i, field, sv);
      if KeyLine(ps[i], field) {
        return ps[i := entry];
      }
    }
    BelowEnd(ps, end, field, sv);
    out := ps[..end] + [entry] + ps[end..];
  }

  lemma BelowStep(ps: seq<string>, i: nat, field: string, sv: string)
    requires i < |ps| && !AnySectionLine(ps[i])
    ensures ps[..i] + EditBelow(ps[i..], field, sv)
         == if KeyLine(ps[i], field) then ps[i := EntryText(field, sv) + "\n"]
            else ps[..i + 1] + EditBelow(ps[i + 1..], field, sv)
  {
    var entry, below := EntryText(field, sv) + "\n", EditBelow(ps[i + 1..], field, sv);
    assert ps[i..][0] == ps[i] && ps[i..][1..] == ps[i + 1..];
    assert ps[..i] + ([entry] + ps[i + 1..]) == ps[i := entry];
    assert ps[..i] + ([ps[i]] + below) == ps[..i + 1] + below;
  }

  lemma BelowEnd(ps: seq<string>, i: nat, field: string, sv: string)
    requires i <= |ps| && (i < |ps| ==> AnySectionLine(ps[i]))
    ensures ps[..i] + EditBelow(ps[i..], field, sv) == ps[..i] + [EntryText(field, sv) + "\n"] + ps[i..]
  {
    assert i < |ps| ==> ps[i..][0] == ps[i];
    var entry := EntryText(field, sv) + "\n";
    assert ps[..i] + ([entry] + ps[i..]) == ps[..i] + [entry] + ps[i..];
  }

  lemma {:induction false} EditAtFrom(ps: seq<string>, i: nat, start: nat, section: string, field: string, sv: string)
    requires i <= start < |ps| && SectionLine(ps[start], section)
    requires forall j :: i <= j < start ==> !SectionLine(ps[j], section)
    ensures ps[..i] + EditAt(ps[i..], section, field, sv) == ps[..start + 1] + EditBelow(ps[start + 1..], field, sv)
    decreases start - i
  {
    var tail := if i == start then EditBelow(ps[i + 1..], field, sv) else EditAt(ps[i + 1..], section, field, sv);
    assert ps[i..][0] == ps[i] && ps[i..][1..] == ps[i + 1..];
    assert ps[..i] + ([ps[i]] + tail) == ps[..i + 1] + tail;
    if i < start {
      EditAtFrom(ps, i + 1, start, section, field, sv);
    }
  }

  lemma {:induction false} ConcatMore(a: seq<string>, b: seq<string>)
    ensures Concat(a + b) == Concat(a) + Concat(b)
  {
    if a == [] {
      assert a + b == b;
    } else {
      assert (a + b)[0] == a[0] && (a + b)[1..] == a[1..] + b;
      ConcatMore(a[1..], b);
    }
  }

  lemma {:induction false} SplitJoins(s: string)
    ensures Concat(SplitLines(s)) == s
  {
    if s == "" {
    } else if s[0] == '\r' && |s| > 1 && s[1] == '\n' {
      SplitJoins(s[2..]);
      assert ([s[..2]] + SplitLines(s[2..]))[1..] == SplitLines(s[2..]);
    } else if IsBreak(s[0]) || |s| == 1 {
      SplitJoins(s[1..]);
      assert ([[s[0]]] + SplitLines(s[1..]))[1..] == SplitLines(s[1..]);
    } else {
      SplitJoins(s[1..]);
      var rest := SplitLines(s[1..]);
      assert ([[s[0]] + rest[0]] + rest[1..])[1..] == rest[1..];
      assert [s[0]] + rest[0] + Concat(rest[1..]) == [s[0]] + (rest[0] + Concat(rest[1..]));
    }
  }

  /** `set_config_value` on a file that may not exist yet; a key without a dot is refused. */
  method SetConfigValue(file: Option<string>, dotted: string, coerced: Value) returns (out: Outcome)
    ensures out.Refused? <==> '.' !in dotted || Print(coerced).None?
    ensures out.Written? ==>
              var i := FirstDot(dotted);
              var section, field, sv := dotted[..i], dotted[i + 1..], Print(coerced).value;
              out.text == match file
                          case None => "[" + section + "]\n" + EntryText(field, sv) + "\n"
                          case Some(content) => SetText(content, section, field, sv)
  {
    var i := FirstDot(dotted);
    if i < 0 {
      return Refused;
    }
    assert '.' in dotted;
    var section, field := dotted[..i], dotted[i + 1..];
    var printed := Print(coerced);
    if printed.None? {
      return Refused;
    }
    var sv := printed.value;
    if file.None? {
      return Written("[" + section + "]\n" + EntryText(field, sv) + "\n");
    }
    var content := file.value;
    var lines := SplitLines(content);
    var start := FindSection(lines, section);
    if start < 0 {
      if !EndsLine(content) {
        lines := lines + ["\n"];
      }
      lines := lines + ["\n[" + section + "]\n"] + [EntryText(field, sv) + "\n"];
      AppendedText(content, lines, section, field, sv);
      return Written(Concat(lines));
    }
    var end := FindSectionEnd(lines, start);
    var edited := EditSection(lines, start, end, field, sv);
    EditAtFrom(lines, 0, start, section, field, sv);
    assert lines[..0] + EditAt(lines[0..], section, field, sv) == EditAt(lines, section, field, sv) by {
      assert lines[0..] == lines && lines[..0] == [];
    }
    out := Written(Concat(edited));
  }

  lemma AppendedText(content: string, lines: seq<string>, section: string, field: string, sv: string)
    requires lines == SplitLines(content) + (if EndsLine(content) then [] else ["\n"])
                      + ["\n[" + section + "]\n"] + [EntryText(field, sv) + "\n"]
    ensures Concat(lines) == content + (if EndsLine(content) then "" else "\n")
                             + "\n[" + section + "]\n" + EntryText(field, sv) + "\n"
  {
    var a := SplitLines(content);
    var b := if EndsLine(content) then [] else ["\n"];
    var head, entry := "\n[" + section + "]\n", EntryText(field, sv) + "\n";
    SplitJoins(content);
    ConcatMore(a, b);
    ConcatMore(a + b, [head]);
    ConcatMore(a + b + [head], [entry]);
    assert [head][1..] == [] && [entry][1..] == [] && ["\n"][1..] == [];
    assert Concat([head]) == head && Concat([entry]) == entry && Concat(["\n"]) == "\n";
    assert content + Concat(b) + head + entry
        == content + Concat(b) + "\n[" + section + "]\n" + EntryText(field, sv) + "\n";
  }
}
