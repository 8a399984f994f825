/** A small reader for TOML v1.0.0: comments, tables with bare keys, and values that are one-line
    basic strings, integers, booleans or arrays of basic strings; and a line printer. */
module Toml {
  import opened Basics

  datatype Value = Str(s: string) | Int(n: nat) | Bool(b: bool) | Strs(ss: seq<string>)

  // ---------- characters ----------

  /** The characters that a basic string or a comment may not contain (section "String"). */
  predicate IsControl(c: char) {
    (c < ' ' && c != '\t') || c == '\U{7f}'
  }

  predicate Quotable(s: string) { forall i :: 0 <= i < |s| ==> !IsControl(s[i]) }

  /** Quotable, and nothing in it has to be escaped. */
  predicate Simple(s: string) { Quotable(s) && '\\' !in s && '"' !in s }

  predicate IsBare(c: char) {
    ('a' <= c <= 'z') || ('A' <= c <= 'Z') || ('0' <= c <= '9') || c == '_' || c == '-'
  }

  predicate BareKey(s: string) { s != [] && forall i :: 0 <= i < |s| ==> IsBare(s[i]) }

  // ---------- strings ----------

  function EscapeChar(c: char): string {
    if c == '\\' then "\\\\" else if c == '"' then "\\\"" else [c]
  }

  function Escape(s: string): string { if s == [] then [] else EscapeChar(s[0]) + Escape(s[1..]) }

  /** The short escapes of section "String". */
  function Unescape(c: char): Option<char> {
    if c == 'b' then Some('\U{8}') else if c == 't' then Some('\t') else if c == 'n' then Some('\n')
    else if c == 'f' then Some('\U{c}') else if c == 'r' then Some('\r')
    else if c == '"' then Some('"') else if c == '\\' then Some('\\') else None
  }

  predicate IsHex(c: char) { ('0' <= c <= '9') || ('a' <= c <= 'f') || ('A' <= c <= 'F') }

  function HexDigit(c: char): nat
    requires IsHex(c)
  {
    if c <= '9' then c as int - '0' as int
    else if c <= 'F' then c as int - 'A' as int + 10
    else c as int - 'a' as int + 10
  }

  function HexNumber(s: string): nat
    requires forall i :: 0 <= i < |s| ==> IsHex(s[i])
  {
    if s == [] then 0 else 16 * HexNumber(s[..|s| - 1]) + HexDigit(s[|s| - 1])
  }

  /** A letter and `n` hexadecimal digits that stand for a Unicode scalar value. */
  function ReadCode(s: string, n: nat): Option<(char, string)> {
    if |s| <= n || exists i :: 1 <= i <= n && !IsHex(s[i]) then None
    else
      var code := HexNumber(s[1..n + 1]);
      if code < 0xD800 || 0xE000 <= code < 0x11_0000 then Some((code as char, s[n + 1..])) else None
  }

  /** The character that an escape stands for, after its backslash, and what follows it. */
  function ReadEscape(s: string): (r: Option<(char, string)>)
    ensures r.Some? ==> |r.value.1| < |s|
  {
    if s == [] then None
    else if s[0] == 'u' then ReadCode(s, 4)
    else if s[0] == 'U' then ReadCode(s, 8)
    else match Unescape(s[0]) case Some(c) => Some((c, s[1..])) case None => None
  }

  /** The rest of a basic string after its opening quote, and what follows it. */
  function ReadBasic(s: string): Option<(string, string)>
    decreases |s|
  {
    if s == [] || IsControl(s[0]) then None
    else if s[0] == '"' then Some(([], s[1..]))
    else if s[0] == '\\' then
      match ReadEscape(s[1..])
      case None => None
      case Some((c, more)) =>
        (match ReadBasic(more) case Some((t, rest)) => Some(([c] + t, rest)) case None => None)
    else match ReadBasic(s[1..])
      case Some((t, rest)) => Some(([s[0]] + t, rest))
      case None => None
  }

  lemma QuotableHead(s: string)
    requires s != []
    ensures Quotable(s) <==> !IsControl(s[0]) && Quotable(s[1..])
  {
    assert forall i :: 0 <= i < |s[1..]| ==> s[1..][i] == s[i + 1];
  }

  /** One character written by `EscapeChar` is read as itself. */
  lemma ReadEscapedChar(c: char, tail: string)
    ensures ReadBasic(EscapeChar(c) + tail)
         == (if IsControl(c) then None else match ReadBasic(tail) case Some((t, rest)) => Some(([c] + t, rest))
           case None => None)
  {
    var text := EscapeChar(c) + tail;
    if c == '\\' || c == '"' {
      assert text[0] == '\\' && text[1..] == [c] + tail;
      assert ([c] + tail)[1..] == tail && ReadEscape([c] + tail) == Some((c, tail));
    } else {
      assert text[0] == c && text[1..] == tail;
    }
  }

  lemma Regrouped(a: string, b: string, c: string, d: string)
    ensures a + b + c + d == a + (b + c + d)
  {
  }

  /** An escaped string reads back as itself exactly when it has no control characters. */
  lemma {:induction false} ReadEscaped(s: string, rest: string)
    ensures ReadBasic(Escape(s) + "\"" + rest) == Some((s, rest)) <==> Quotable(s)
    ensures !Quotable(s) ==> ReadBasic(Escape(s) + "\"" + rest).None?
  {
    if s == [] {
      assert Escape(s) + "\"" + rest == "\"" + rest && ("\"" + rest)[1..] == rest;
    } else {
      ReadEscaped(s[1..], rest);
      var tail := Escape(s[1..]) + "\"" + rest;
      Regrouped(EscapeChar(s[0]), Escape(s[1..]), "\"", rest);
      ReadEscapedChar(s[0], tail);
      assert s == [s[0]] + s[1..];
      QuotableHead(s);
    }
  }

  /** Reading never makes a string longer than its text. */
  lemma {:induction false} ReadShorter(s: string)
    ensures ReadBasic(s).Some? ==> |ReadBasic(s).value.0| + |ReadBasic(s).value.1| < |s|
    decreases |s|
  {
    if s != [] && !IsControl(s[0]) && s[0] != '"' {
      if s[0] == '\\' {
        if ReadEscape(s[1..]).Some? { ReadShorter(ReadEscape(s[1..]).value.1); }
      } else {
        ReadShorter(s[1..]);
      }
    }
  }

  /** A string printed raw reads back as itself exactly when nothing in it needs escaping. */
  lemma {:induction false} ReadRaw(s: string, rest: string)
    ensures ReadBasic(s + "\"" + rest) == Some((s, rest)) <==> Simple(s)
    decreases |s|
  {
    var text := s + "\"" + rest;
    if s == [] {
      assert text == "\"" + rest && text[1..] == rest;
    } else {
      var tail := s[1..] + "\"" + rest;
      assert text[0] == s[0] && text[1..] == tail && s == [s[0]] + s[1..];
      ReadRaw(s[1..], rest);
      assert Simple(s) <==> !IsControl(s[0]) && s[0] != '\\' && s[0] != '"' && Simple(s[1..]) by {
        assert forall i :: 0 <= i < |s[1..]| ==> s[1..][i] == s[i + 1];
      }
      if s[0] == '\\' && ReadEscape(tail).Some? {
        ReadShorter(ReadEscape(tail).value.1);
      }
    }
  }

  /** What may follow on a line that is complete: blanks, and then perhaps a comment. */
  predicate Blank(s: string) {
    s == [] || ((s[0] == ' ' || s[0] == '\t') && Blank(s[1..])) || (s[0] == '#' && Quotable(s))
  }

  // ---------- integers ----------

  function Digit(d: nat): char
    requires d < 10
  {
    ['0', '1', '2', '3', '4', '5', '6', '7', '8', '9'][d]
  }

  predicate IsDigit(c: char) { '0' <= c <= '9' }

  function DigitValue(c: char): nat
    requires IsDigit(c)
  {
    c as int - '0' as int
  }

  function ShowInt(n: nat): string {
    if n < 10 then [Digit(n)] else ShowInt(n / 10) + [Digit(n % 10)]
  }

  /** A non-empty run of digits, without a leading zero. */
  predicate IsNumeral(s: string) {
    s != [] && (forall i :: 0 <= i < |s| ==> IsDigit(s[i])) && (|s| > 1 ==> s[0] != '0')
  }

  function NumeralValue(s: string): nat
    requires forall i :: 0 <= i < |s| ==> IsDigit(s[i])
  {
    if s == [] then 0 else NumeralValue(s[..|s| - 1]) * 10 + DigitValue(s[|s| - 1])
  }

  lemma DigitOf(d: nat)
    requires d < 10
    ensures IsDigit(Digit(d)) && DigitValue(Digit(d)) == d && (Digit(d) == '0' <==> d == 0)
  {
  }

  lemma {:induction false} ShowIntReads(n: nat)
    ensures IsNumeral(ShowInt(n)) && NumeralValue(ShowInt(n)) == n
    ensures ShowInt(n)[0] == '0' ==> n == 0
  {
    if n < 10 {
      DigitOf(n);
      var s := [Digit(n)];
      assert s[..0] == [];
      assert NumeralValue(s) == NumeralValue(s[..0]) * 10 + DigitValue(s[0]);
    } else {
      ShowIntReads(n / 10);
      DigitOf(n % 10);
      var s := ShowInt(n);
      assert s[..|s| - 1] == ShowInt(n / 10);
    }
  }

  // ---------- values ----------

  function Quote(s: string): string { "\"" + Escape(s) + "\"" }

  /** A basic string with its quotes, and what follows it. */
  function ReadQuoted(s: string): Option<(string, string)> {
    if s == [] || s[0] != '"' then None else ReadBasic(s[1..])
  }

  lemma QuotedReads(s: string, rest: string)
    requires Quotable(s)
    ensures ReadQuoted(Quote(s) + rest) == Some((s, rest))
  {
    assert (Quote(s) + rest)[0] == '"';
    assert (Quote(s) + rest)[1..] == Escape(s) + "\"" + rest;
    ReadEscaped(s, rest);
  }

  lemma RawReads(s: string)
    requires Simple(s)
    ensures ReadQuoted("\"" + s + "\"") == Some((s, ""))
  {
    assert ("\"" + s + "\"")[1..] == s + "\"" + "";
    ReadRaw(s, "");
  }

  lemma ReadQuotedShorter(s: string)
    ensures ReadQuoted(s).Some? ==> |ReadQuoted(s).value.1| < |s|
  {
    if s != [] { ReadShorter(s[1..]); }
  }

  /** `"a", "b"]` after the opening bracket of an array. */
  function ReadStrings(s: string): Option<(seq<string>, string)>
    decreases |s|
  {
    ReadQuotedShorter(s);
    match ReadQuoted(s)
    case None => None
    case Some((t, rest)) =>
      if rest == [] then None
      else if rest[0] == ']' then Some(([t], rest[1..]))
      else if rest[0] == ',' && |rest| >= 2 && rest[1] == ' ' then
        match ReadStrings(rest[2..])
        case Some((ts, after)) => Some(([t] + ts, after))
        case None => None
      else None
  }

  /** A whole value; only a comment may follow it on its line. */
  function ReadValue(s: string): Option<Value> {
    if s == "true" then Some(Bool(true))
    else if s == "false" then Some(Bool(false))
    else if IsNumeral(s) then Some(Int(NumeralValue(s)))
    else if s != [] && s[0] == '[' then
      match ReadStrings(s[1..]) case Some((ts, rest)) => (if Blank(rest) then Some(Strs(ts)) else None)
        case None => None
    else
      match ReadQuoted(s) case Some((t, rest)) => (if Blank(rest) then Some(Str(t)) else None) case None => None
  }

  function ShowStrings(ss: seq<string>): string {
    if ss == [] then ""
    else if |ss| == 1 then Quote(ss[0])
    else Quote(ss[0]) + ", " + ShowStrings(ss[1..])
  }

  function ShowValue(v: Value): string {
    match v
    case Str(s) => Quote(s)
    case Int(n) => ShowInt(n)
    case Bool(b) => if b then "true" else "false"
    case Strs(ss) => "[" + ShowStrings(ss) + "]"
  }

  predicate Printable(v: Value) {
    match v
    case Str(s) => Quotable(s)
    case Strs(ss) => ss != [] && forall i :: 0 <= i < |ss| ==> Quotable(ss[i])
    case _ => true
  }

  lemma StringsStep(s: string, more: string)
    requires Quotable(s)
    ensures ReadStrings(Quote(s) + ", " + more)
         == match ReadStrings(more) case Some((ts, after)) => Some(([s] + ts, after)) case None => None
  {
    assert Quote(s) + ", " + more == Quote(s) + (", " + more) && (", " + more)[2..] == more;
    QuotedReads(s, ", " + more);
  }

  lemma {:induction false} StringsRead(ss: seq<string>)
    requires ss != [] && forall i :: 0 <= i < |ss| ==> Quotable(ss[i])
    ensures ReadStrings(ShowStrings(ss) + "]") == Some((ss, ""))
  {
    if |ss| == 1 {
      QuotedReads(ss[0], "]");
      assert ShowStrings(ss) == Quote(ss[0]) && "]"[1..] == "";
      assert ss == [ss[0]];
    } else {
      var more := ShowStrings(ss[1..]) + "]";
      assert ShowStrings(ss) + "]" == Quote(ss[0]) + ", " + more;
      StringsStep(ss[0], more);
      StringsRead(ss[1..]);
      assert ss == [ss[0]] + ss[1..];
    }
  }

  /** Text that starts with a quote or a bracket is neither a boolean nor a number. */
  lemma NotAWord(s: string)
    requires s != [] && (s[0] == '"' || s[0] == '[')
    ensures s != "true" && s != "false" && !IsNumeral(s)
  {
    assert !IsDigit(s[0]);
  }

  lemma WordsRead(n: nat)
    ensures ReadValue(ShowInt(n)) == Some(Int(n))
  {
    ShowIntReads(n);
    var s := ShowInt(n);
    assert IsDigit(s[0]) && !IsDigit('t') && !IsDigit('f');
    assert "true"[0] == 't' && "false"[0] == 'f';
  }

  lemma QuotedValue(s: string, t: string, rest: string)
    requires ReadQuoted(s) == Some((t, rest))
    ensures ReadValue(s) == if Blank(rest) then Some(Str(t)) else None
  {
    NotAWord(s);
  }

  lemma ArrayReads(ss: seq<string>)
    requires Printable(Strs(ss))
    ensures ReadValue(ShowValue(Strs(ss))) == Some(Strs(ss))
  {
    var text := "[" + ShowStrings(ss) + "]";
    assert text[0] == '[' && text[1..] == ShowStrings(ss) + "]";
    NotAWord(text);
    StringsRead(ss);
  }

  /** Every printable value reads back as itself. */
  lemma ValueReads(v: Value)
    requires Printable(v)
    ensures ReadValue(ShowValue(v)) == Some(v)
  {
    match v
    case Str(s) =>
      QuotedReads(s, "");
      assert Quote(s) + "" == Quote(s);
      QuotedValue(Quote(s), s, "");
    case Int(n) => WordsRead(n);
    case Bool(_) =>
    case Strs(ss) => ArrayReads(ss);
  }

  // ---------- lines ----------

  /** What a line says: nothing, a table header, or a key with its value. */
  datatype Item = Header(path: seq<string>) | Assign(key: string, value: Value)

  datatype Reading = Bad | Skip | Got(item: Item)

  /** The longest prefix of bare-key characters. */
  function BarePrefix(s: string): string {
    if s == [] || !IsBare(s[0]) then [] else [s[0]] + BarePrefix(s[1..])
  }

  lemma {:induction false} BarePrefixOf(k: string, rest: string)
    requires forall i :: 0 <= i < |k| ==> IsBare(k[i])
    requires rest != [] ==> !IsBare(rest[0])
    ensures BarePrefix(k + rest) == k
  {
    if k == [] {
      assert k + rest == rest;
    } else {
      assert (k + rest)[0] == k[0] && (k + rest)[1..] == k[1..] + rest;
      BarePrefixOf(k[1..], rest);
    }
  }

  lemma {:induction false} BarePrefixIsPrefix(s: string)
    ensures |BarePrefix(s)| <= |s|
  {
    if s != [] && IsBare(s[0]) { BarePrefixIsPrefix(s[1..]); }
  }

  /** `a.b.c]` after the opening bracket of a header. */
  function ReadPath(s: string): Option<seq<string>>
    decreases |s|
  {
    BarePrefixIsPrefix(s);
    var k := BarePrefix(s);
    var rest := s[|k|..];
    if k == [] || rest == [] then None
    else if rest[0] == ']' then (if Blank(rest[1..]) then Some([k]) else None)
    else if rest[0] == '.' then
      match ReadPath(rest[1..]) case Some(ks) => Some([k] + ks) case None => None
    else None
  }

  lemma {:induction false} BarePrefixBare(s: string)
    ensures forall i :: 0 <= i < |BarePrefix(s)| ==> IsBare(BarePrefix(s)[i])
  {
    if s != [] && IsBare(s[0]) { BarePrefixBare(s[1..]); }
  }

  /** Whatever header is read, its keys are bare. */
  lemma {:induction false} PathBare(s: string)
    ensures ReadPath(s).Some? ==> forall i :: 0 <= i < |ReadPath(s).value| ==> BareKey(ReadPath(s).value[i])
    decreases |s|
  {
    BarePrefixIsPrefix(s);
    BarePrefixBare(s);
    var rest := s[|BarePrefix(s)|..];
    if BarePrefix(s) != [] && rest != [] && rest[0] == '.' { PathBare(rest[1..]); }
  }

  function ReadLine(s: string): Reading {
    if s == [] then Skip
    else if s[0] == '#' then if Quotable(s) then Skip else Bad
    else if s[0] == '[' then match ReadPath(s[1..]) case Some(path) => Got(Header(path)) case None => Bad
    else
      BarePrefixIsPrefix(s);
      var k := BarePrefix(s);
      var rest := s[|k|..];
      if k != [] && " = " <= rest then
        match ReadValue(rest[3..]) case Some(v) => Got(Assign(k, v)) case None => Bad
      else Bad
  }

  /** A line to print; `Raw` is a quoted string written without escaping. */
  datatype Line =
    | Note(text: string)
    | Gap
    | Table(path: seq<string>)
    | Entry(key: string, value: Value)
    | Raw(key: string, s: string)

  function Dotted(path: seq<string>): string {
    if path == [] then "" else if |path| == 1 then path[0] else path[0] + "." + Dotted(path[1..])
  }

  function Show(line: Line): string {
    match line
    case Note(text) => "# " + text
    case Gap => ""
    case Table(path) => "[" + Dotted(path) + "]"
    case Entry(key, value) => key + " = " + ShowValue(value)
    case Raw(key, s) => key + " = \"" + s + "\""
  }

  predicate PrintableLine(line: Line) {
    match line
    case Note(text) => Quotable(text)
    case Gap => true
    case Table(path) => path != [] && forall i :: 0 <= i < |path| ==> BareKey(path[i])
    case Entry(key, value) => BareKey(key) && Printable(value)
    case Raw(key, s) => BareKey(key) && Simple(s)
  }

  function Meaning(line: Line): Reading {
    match line
    case Note(_) => Skip
    case Gap => Skip
    case Table(path) => Got(Header(path))
    case Entry(key, value) => Got(Assign(key, value))
    case Raw(key, s) => Got(Assign(key, Str(s)))
  }

  /** A key in a header, and what follows it. */
  lemma KeyThen(key: string, rest: string)
    requires BareKey(key) && rest != [] && !IsBare(rest[0])
    ensures ReadPath(key + rest)
         == (if rest[0] == ']' then (if Blank(rest[1..]) then Some([key]) else None)
             else if rest[0] == '.' then (match ReadPath(rest[1..]) case Some(ks) => Some([key] + ks) case None => None)
             else None)
  {
    BarePrefixOf(key, rest);
    assert (key + rest)[|key|..] == rest;
  }

  /** A key, a dot and more. */
  lemma PathStep(key: string, more: string)
    requires BareKey(key)
    ensures ReadPath(key + "." + more) == match ReadPath(more) case Some(ks) => Some([key] + ks) case None => None
  {
    assert key + "." + more == key + ("." + more) && ("." + more)[1..] == more;
    KeyThen(key, "." + more);
  }

  lemma PathEnd(key: string)
    requires BareKey(key)
    ensures ReadPath(key + "]") == Some([key])
  {
    KeyThen(key, "]");
  }

  lemma {:induction false} PathReads(path: seq<string>)
    requires path != [] && forall i :: 0 <= i < |path| ==> BareKey(path[i])
    ensures ReadPath(Dotted(path) + "]") == Some(path)
  {
    var others := path[1..];
    assert path == [path[0]] + others;
    if others == [] {
      PathEnd(path[0]);
      assert path == [path[0]];
    } else {
      PathReads(others);
      PathStep(path[0], Dotted(others) + "]");
      assert Dotted(path) + "]" == path[0] + "." + (Dotted(others) + "]");
    }
  }

  lemma AssignReads(key: string, shown: string, v: Value)
    requires BareKey(key) && ReadValue(shown) == Some(v)
    ensures ReadLine(key + " = " + shown) == Got(Assign(key, v))
  {
    var rest := " = " + shown;
    assert key + " = " + shown == key + rest;
    BarePrefixOf(key, rest);
    assert (key + rest)[|key|..] == rest && rest[3..] == shown;
    assert (key + rest)[0] == key[0] && IsBare(key[0]);
  }

  lemma NoteReads(text: string)
    requires Quotable(text)
    ensures ReadLine("# " + text) == Skip
  {
    var line := "# " + text;
    assert line[0] == '#' && line[1] == ' ';
    assert forall i :: 2 <= i < |line| ==> line[i] == text[i - 2];
  }

  lemma TableReads(path: seq<string>)
    requires PrintableLine(Table(path))
    ensures ReadLine("[" + Dotted(path) + "]") == Got(Header(path))
  {
    var line := "[" + Dotted(path) + "]";
    assert line[0] == '[' && line[1..] == Dotted(path) + "]";
    PathReads(path);
  }

  lemma RawLineReads(key: string, s: string)
    requires BareKey(key) && Simple(s)
    ensures ReadLine(key + " = \"" + s + "\"") == Got(Assign(key, Str(s)))
  {
    var shown := "\"" + s + "\"";
    assert key + " = \"" + s + "\"" == key + " = " + shown;
    RawReads(s);
    QuotedValue(shown, s, "");
    AssignReads(key, shown, Str(s));
  }

  /** Every printable line reads back as what it means. */
  lemma LineReads(line: Line)
    requires PrintableLine(line)
    ensures ReadLine(Show(line)) == Meaning(line)
  {
    match line
    case Note(text) => NoteReads(text);
    case Gap =>
    case Table(path) => TableReads(path);
    case Entry(key, value) =>
      ValueReads(value);
      AssignReads(key, ShowValue(value), value);
    case Raw(key, s) => RawLineReads(key, s);
  }
}
