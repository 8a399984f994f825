/** Whole TOML documents: line splitting, tables with their keys, and the rules of sections
    "Keys" and "Table" of TOML v1.0.0 that make a document invalid. */
module TomlDocument {
  import opened Basics
  import opened Toml

  datatype List<T> = Nil | Cons(head: T, tail: List<T>)

  datatype Pair = Pair(key: string, value: Value)

  /** A table with the keys written directly under its header; the root table has path []. */
  datatype Section = Section(path: seq<string>, entries: List<Pair>)

  // ---------- printed lines hold no line break ----------

  lemma QuotableConcat(a: string, b: string)
    ensures Quotable(a + b) <==> Quotable(a) && Quotable(b)
  {
    if Quotable(a + b) {
      assert forall i :: 0 <= i < |a| ==> a[i] == (a + b)[i];
      assert forall i :: 0 <= i < |b| ==> b[i] == (a + b)[|a| + i];
    }
  }

  lemma {:induction false} EscapeQuotable(s: string)
    ensures Quotable(Escape(s)) <==> Quotable(s)
  {
    if s != [] {
      EscapeQuotable(s[1..]);
      assert Quotable(EscapeChar(s[0])) <==> !IsControl(s[0]) by {
        assert EscapeChar(s[0])[0] == '\\' || EscapeChar(s[0])[0] == s[0];
      }
      QuotableConcat(EscapeChar(s[0]), Escape(s[1..]));
      QuotableHead(s);
    }
  }

  lemma QuoteQuotable(s: string)
    ensures Quotable(Quote(s)) <==> Quotable(s)
  {
    EscapeQuotable(s);
    QuotableConcat("\"", Escape(s));
    QuotableConcat("\"" + Escape(s), "\"");
  }

  lemma {:induction false} StringsQuotable(ss: seq<string>)
    requires forall i :: 0 <= i < |ss| ==> Quotable(ss[i])
    ensures Quotable(ShowStrings(ss))
  {
    if ss != [] {
      QuoteQuotable(ss[0]);
      if |ss| > 1 {
        StringsQuotable(ss[1..]);
        QuotableConcat(Quote(ss[0]), ", ");
        QuotableConcat(Quote(ss[0]) + ", ", ShowStrings(ss[1..]));
      }
    }
  }

  lemma ValueQuotable(v: Value)
    requires Printable(v)
    ensures Quotable(ShowValue(v))
  {
    match v
    case Str(s) => QuoteQuotable(s);
    case Int(n) => ShowIntReads(n);
    case Bool(_) =>
    case Strs(ss) =>
      StringsQuotable(ss);
      QuotableConcat("[", ShowStrings(ss));
      QuotableConcat("[" + ShowStrings(ss), "]");
  }

  lemma {:induction false} DottedQuotable(path: seq<string>)
    requires forall i :: 0 <= i < |path| ==> BareKey(path[i])
    ensures Quotable(Dotted(path))
  {
    if |path| > 1 {
      DottedQuotable(path[1..]);
      QuotableConcat(path[0], ".");
      QuotableConcat(path[0] + ".", Dotted(path[1..]));
    }
  }

  lemma AssignQuotable(key: string, sign: string, shown: string)
    requires BareKey(key) && Quotable(sign) && Quotable(shown)
    ensures Quotable(key + sign + shown)
  {
    QuotableConcat(key, sign);
    QuotableConcat(key + sign, shown);
  }

  lemma LineQuotable(line: Line)
    requires PrintableLine(line)
    ensures Quotable(Show(line))
  {
    match line
    case Note(text) => QuotableConcat("# ", text);
    case Gap =>
    case Table(path) =>
      DottedQuotable(path);
      QuotableConcat("[", Dotted(path));
      QuotableConcat("[" + Dotted(path), "]");
    case Entry(key, value) =>
      ValueQuotable(value);
      AssignQuotable(key, " = ", ShowValue(value));
    case Raw(key, s) =>
      AssignQuotable(key, " = \"", s);
      QuotableConcat(key + " = \"" + s, "\"");
  }

  // ---------- line splitting ----------

  /** Where the first line of a text ends. */
  function LineEnd(text: string): (n: nat)
    ensures n <= |text|
  {
    if text == [] || text[0] == '\n' then 0 else 1 + LineEnd(text[1..])
  }

  predicate OneLine(s: string) { '\n' !in s }

  lemma {:induction false} EscapeOneLine(s: string)
    requires OneLine(s)
    ensures OneLine(Escape(s))
  {
    if s != [] { EscapeOneLine(s[1..]); }
  }

  lemma {:induction false} LineEndAfter(p: string, b: string)
    requires OneLine(p)
    ensures LineEnd(p + b) == |p| + LineEnd(b)
  {
    if p == [] {
      assert p + b == b;
    } else {
      assert (p + b)[0] == p[0] && (p + b)[1..] == p[1..] + b;
      LineEndAfter(p[1..], b);
    }
  }

  lemma {:induction false} LineEndBefore(p: string, rest: string)
    ensures LineEnd(p + "\n" + rest) <= |p|
  {
    var text := p + "\n" + rest;
    if p != [] && p[0] != '\n' {
      assert text[0] == p[0] && text[1..] == p[1..] + "\n" + rest;
      LineEndBefore(p[1..], rest);
    }
  }

  /** The items of a text whose first line is read as `first` and whose other items are `rest`. */
  function Then(first: Reading, rest: Option<List<Item>>): Option<List<Item>> {
    if first.Bad? || rest.None? then None else if first.Got? then Some(Cons(first.item, rest.value)) else rest
  }

  function ReadAll(text: string): Option<List<Item>>
    decreases |text|
  {
    if text == [] then Some(Nil)
    else
      var n := LineEnd(text);
      Then(ReadLine(text[..n]), ReadAll(if n < |text| then text[n + 1..] else []))
  }

  function PrintAll(lines: List<Line>): string {
    if lines.Nil? then "" else Show(lines.head) + "\n" + PrintAll(lines.tail)
  }

  /** A text without line breaks is read as a line of its own. */
  lemma FirstLine(line: string, rest: string)
    requires OneLine(line)
    ensures ReadAll(line + "\n" + rest) == Then(ReadLine(line), ReadAll(rest))
  {
    var text := line + "\n" + rest;
    assert text == line + ("\n" + rest);
    LineEndAfter(line, "\n" + rest);
    assert text[..|line|] == line && text[|line| + 1..] == rest;
  }

  /** A printable line is read as what it says, and the lines after it as if they stood alone. */
  lemma PrintedLine(line: Line, rest: string)
    requires PrintableLine(line)
    ensures ReadAll(Show(line) + "\n" + rest) == Then(Meaning(line), ReadAll(rest))
  {
    LineQuotable(line);
    FirstLine(Show(line), rest);
    LineReads(line);
  }

  /** A comment without line breaks says nothing; with any other control character it makes the text unreadable. */
  lemma NoteLine(text: string, rest: string)
    requires OneLine(text)
    ensures ReadAll(Show(Note(text)) + "\n" + rest) == if Quotable(text) then ReadAll(rest) else None
  {
    var line := "# " + text;
    FirstLine(line, rest);
    QuotableConcat("# ", text);
    if Quotable(text) { NoteReads(text); }
    assert line[0] == '#';
  }

  // ---------- tables ----------

  /** The assignments before the next header. */
  function Leading(items: List<Item>): List<Pair> {
    if items.Cons? && items.head.Assign? then Cons(Pair(items.head.key, items.head.value), Leading(items.tail)) else Nil
  }

  function Length(items: List<Item>): nat { if items.Nil? then 0 else 1 + Length(items.tail) }

  /** The items from the next header on. */
  function After(items: List<Item>): (r: List<Item>)
    ensures Length(r) <= Length(items)
    ensures r.Cons? ==> r.head.Header?
  {
    if items.Cons? && items.head.Assign? then After(items.tail) else items
  }

  /** The tables written by `items`, read inside the table `path`. */
  function Gather(path: seq<string>, items: List<Item>): seq<Section>
    decreases Length(items)
  {
    var rest := After(items);
    [Section(path, Leading(items))] + if rest.Nil? then [] else Gather(rest.head.path, rest.tail)
  }

  function Assigns(entries: List<Pair>, rest: List<Item>): List<Item> {
    if entries.Nil? then rest else Cons(Assign(entries.head.key, entries.head.value), Assigns(entries.tail, rest))
  }

  /** The items that write `doc`, before the items `rest`. */
  function Flatten(doc: seq<Section>, rest: List<Item>): List<Item> {
    if doc == [] then rest else Cons(Header(doc[0].path), Assigns(doc[0].entries, Flatten(doc[1..], rest)))
  }

  lemma {:induction false} FlattenConcat(a: seq<Section>, b: seq<Section>, rest: List<Item>)
    ensures Flatten(a + b, rest) == Flatten(a, Flatten(b, rest))
  {
    if a == [] {
      assert a + b == b;
    } else {
      assert (a + b)[0] == a[0] && (a + b)[1..] == a[1..] + b;
      FlattenConcat(a[1..], b, rest);
    }
  }

  lemma {:induction false} LeadingAssigns(entries: List<Pair>, rest: List<Item>)
    requires rest.Cons? ==> rest.head.Header?
    ensures Leading(Assigns(entries, rest)) == entries && After(Assigns(entries, rest)) == rest
  {
    if entries.Cons? { LeadingAssigns(entries.tail, rest); }
  }

  /** The tables that start with the header at the front of `items`. */
  function Later(items: List<Item>): seq<Section> {
    if items.Cons? && items.head.Header? then Gather(items.head.path, items.tail) else []
  }

  lemma FirstThenOthers(doc: seq<Section>, tail: seq<Section>)
    requires doc != []
    ensures [Section(doc[0].path, doc[0].entries)] + (doc[1..] + tail) == doc + tail
  {
  }

  /** Tables written one after the other are gathered again as they were. */
  lemma {:induction false} GatherFlatten(path: seq<string>, entries: List<Pair>, doc: seq<Section>, rest: List<Item>)
    requires rest.Cons? ==> rest.head.Header?
    ensures Gather(path, Assigns(entries, Flatten(doc, rest))) == [Section(path, entries)] + (doc + Later(rest))
    decreases |doc|
  {
    var items := Flatten(doc, rest);
    LeadingAssigns(entries, items);
    if doc == [] {
      assert doc + Later(rest) == Later(rest);
    } else {
      GatherFlatten(doc[0].path, doc[0].entries, doc[1..], rest);
      FirstThenOthers(doc, Later(rest));
    }
  }

  /** Tables that stop being written as they were in the middle of one. */
  lemma GatherUntil(doc: seq<Section>, j: nat, rest: List<Item>) returns (more: seq<Section>)
    requires j < |doc|
    ensures Gather([], Flatten(doc[..j], Cons(Header(doc[j].path), rest)))
         == [Section([], Nil)] + doc[..j] + [Section(doc[j].path, Leading(rest))] + more
  {
    GatherFlatten([], Nil, doc[..j], Cons(Header(doc[j].path), rest));
    more := Later(After(rest));
    Regroup([Section([], Nil)], doc[..j], [Section(doc[j].path, Leading(rest))], more);
  }

  lemma Regroup(a: seq<Section>, b: seq<Section>, c: seq<Section>, d: seq<Section>)
    ensures a + (b + (c + d)) == a + b + c + d
  {
  }

  predicate BarePath(path: seq<string>) { forall i :: 0 <= i < |path| ==> BareKey(path[i]) }

  predicate BareItems(items: List<Item>) {
    items.Cons? ==> (items.head.Header? ==> BarePath(items.head.path)) && BareItems(items.tail)
  }

  lemma LineBare(s: string)
    ensures ReadLine(s).Got? && ReadLine(s).item.Header? ==> BarePath(ReadLine(s).item.path)
  {
    if s != [] { PathBare(s[1..]); }
  }

  lemma {:induction false} AllBare(text: string)
    ensures ReadAll(text).Some? ==> BareItems(ReadAll(text).value)
    decreases |text|
  {
    if text != [] {
      var n := LineEnd(text);
      LineBare(text[..n]);
      AllBare(if n < |text| then text[n + 1..] else []);
    }
  }

  lemma {:induction false} AfterBare(items: List<Item>)
    requires BareItems(items)
    ensures BareItems(After(items))
  {
    if items.Cons? && items.head.Assign? { AfterBare(items.tail); }
  }

  lemma {:induction false} GatherBare(path: seq<string>, items: List<Item>)
    requires BarePath(path) && BareItems(items)
    ensures forall i :: 0 <= i < |Gather(path, items)| ==> BarePath(Gather(path, items)[i].path)
    decreases Length(items)
  {
    AfterBare(items);
    var rest := After(items);
    if rest.Cons? { GatherBare(rest.head.path, rest.tail); }
  }

  // ---------- validity ----------

  function Get(entries: List<Pair>, key: string): Option<Value> {
    if entries.Nil? then None
    else if entries.head.key == key then Some(entries.head.value)
    else Get(entries.tail, key)
  }

  predicate DistinctKeys(entries: List<Pair>) {
    entries.Cons? ==> Get(entries.tail, entries.head.key).None? && DistinctKeys(entries.tail)
  }

  /** Some key of `a` is already a value where `b` needs a table. */
  predicate Clash(a: Section, b: Section) {
    a.path < b.path && Get(a.entries, b.path[|a.path|]).Some?
  }

  predicate WellFormed(doc: seq<Section>) {
    && (forall i :: 0 <= i < |doc| ==> DistinctKeys(doc[i].entries))
    && (forall i, j :: 0 <= i < j < |doc| ==> doc[i].path != doc[j].path)
    && (forall i, j :: 0 <= i < |doc| && 0 <= j < |doc| ==> !Clash(doc[i], doc[j]))
  }

  /** The document written by `text`, or nothing when TOML refuses it. */
  function ReadDocument(text: string): Option<seq<Section>> {
    match ReadAll(text)
    case None => None
    case Some(items) =>
      var doc := Gather([], items);
      if WellFormed(doc) then Some(doc) else None
  }

  const ROOT := Section([], Nil)

  /** A text that writes the tables `doc` is read as `doc`, exactly when TOML allows the tables. */
  lemma DocumentReads(text: string, doc: seq<Section>)
    requires ReadAll(text) == Some(Flatten(doc, Nil))
    ensures ReadDocument(text) == if WellFormed([ROOT] + doc) then Some([ROOT] + doc) else None
  {
    GatherFlatten([], Nil, doc, Nil);
    assert doc + [] == doc;
  }

  // ---------- strings with control characters ----------

  /** A string with a control character is not read up to its closing quote, wherever its line ends. */
  lemma {:induction false} ControlUnread(s: string, rest: string)
    requires !Quotable(s)
    ensures var b := Escape(s) + rest; ReadBasic(b[..LineEnd(b)]).None?
  {
    var b := Escape(s) + rest;
    if IsControl(s[0]) {
      assert b[0] == s[0];
    } else {
      QuotableHead(s);
      ControlUnread(s[1..], rest);
      var c, more := EscapeChar(s[0]), Escape(s[1..]) + rest;
      assert b == c + more;
      LineEndAfter(c, more);
      assert b[..LineEnd(b)] == c + more[..LineEnd(more)];
      ReadEscapedChar(s[0], more[..LineEnd(more)]);
    }
  }

  lemma AssignRefused(key: string, shown: string)
    requires BareKey(key) && ReadValue(shown).None?
    ensures ReadLine(key + " = " + shown) == Bad
  {
    var rest := " = " + shown;
    assert key + " = " + shown == key + rest;
    BarePrefixOf(key, rest);
    assert (key + rest)[|key|..] == rest && rest[3..] == shown;
    assert (key + rest)[0] == key[0] && IsBare(key[0]);
  }

  lemma UnreadRefused(key: string, q: string)
    requires BareKey(key) && ReadBasic(q).None?
    ensures ReadLine(key + " = \"" + q) == Bad
  {
    var shown := "\"" + q;
    assert shown[1..] == q;
    NotAWord(shown);
    AssignRefused(key, shown);
    assert key + " = \"" + q == key + " = " + shown;
  }

  /** An entry whose string has a control character makes the whole text unreadable. */
  lemma EntryRefused(key: string, s: string, rest: string)
    requires BareKey(key) && !Quotable(s)
    ensures ReadAll(key + " = " + Quote(s) + "\n" + rest).None?
  {
    var body := Escape(s) + ("\"" + "\n" + rest);
    var text := key + " = " + Quote(s) + "\n" + rest;
    var front := key + " = \"";
    assert text == front + body;
    QuotableConcat(key, " = \"");
    LineEndAfter(front, body);
    ControlUnread(s, "\"" + "\n" + rest);
    var q := body[..LineEnd(body)];
    assert text[..LineEnd(text)] == front + q;
    UnreadRefused(key, q);
  }

  /** A raw string that needs escaping makes the text unreadable or is read as another string, wherever it breaks. */
  lemma RawStrays(key: string, s: string, rest: string)
    requires BareKey(key) && !Simple(s)
    ensures var r := ReadAll(Show(Raw(key, s)) + "\n" + rest);
      r.None? || (r.value.Cons? && r.value.head.Assign? && r.value.head.key == key
                  && r.value.head.value.Str? && r.value.head.value.s != s)
  {
    var front, body := key + " = \"", s + "\"" + "\n" + rest;
    var text := Show(Raw(key, s)) + "\n" + rest;
    assert text == front + body;
    LineEndAfter(front, body);
    LineEndBefore(s + "\"", rest);
    var n := LineEnd(body);
    var q := body[..n];
    assert text[..LineEnd(text)] == front + q;
    RawElse(key, s, q);
  }

  /** The part up to the end of the line is not read as the whole string. */
  lemma RawElse(key: string, s: string, q: string)
    requires BareKey(key) && !Simple(s) && q <= s + "\""
    ensures var r := ReadLine(key + " = \"" + q);
      r.Bad? || (r.Got? && r.item.Assign? && r.item.key == key && r.item.value.Str? && r.item.value.s != s)
  {
    if ReadBasic(q).None? {
      UnreadRefused(key, q);
    } else {
      var (t, after) := ReadBasic(q).value;
      var shown := "\"" + q;
      assert shown[1..] == q;
      QuotedValue(shown, t, after);
      assert key + " = \"" + q == key + " = " + shown;
      if Blank(after) {
        AssignReads(key, shown, Str(t));
        WholeOnly(s, q);
      } else {
        AssignRefused(key, shown);
      }
    }
  }

  lemma WholeOnly(s: string, q: string)
    requires !Simple(s) && q <= s + "\"" && ReadBasic(q).Some?
    ensures ReadBasic(q).value.0 != s
  {
    ReadShorter(q);
    if ReadBasic(q).value.0 == s {
      assert q == s + "\"" + "";
      ReadRaw(s, "");
    }
  }

  // ---------- readings that go astray ----------

  /** The items start by assigning `entries`, up to a string that is read as another one. */
  predicate Strays(entries: List<Pair>, items: List<Item>) {
    && entries.Cons? && items.Cons? && items.head.Assign? && items.head.key == entries.head.key
    && if items.head.value == entries.head.value then Strays(entries.tail, items.tail)
       else items.head.value.Str? && entries.head.value.Str?
  }

  /** Some key then has another string. */
  lemma {:induction false} StraysSeen(entries: List<Pair>, items: List<Item>) returns (key: string)
    requires Strays(entries, items) && DistinctKeys(entries)
    ensures var was, now := Get(entries, key), Get(Leading(items), key);
      was.Some? && now.Some? && was.value.Str? && now.value.Str? && was != now
  {
    if items.head.value == entries.head.value {
      key := StraysSeen(entries.tail, items.tail);
    } else {
      key := entries.head.key;
    }
  }

  /** The items write the tables of `doc`, up to one of the tables in `seen` which goes astray. */
  ghost predicate StraysIn(seen: seq<string> -> bool, doc: seq<Section>, items: List<Item>) {
    exists j, rest :: 0 <= j < |doc| && seen(doc[j].path) && Strays(doc[j].entries, rest)
      && items == Flatten(doc[..j], Cons(Header(doc[j].path), rest))
  }

  lemma StraysLater(seen: seq<string> -> bool, a: seq<Section>, b: seq<Section>, items: List<Item>)
    requires StraysIn(seen, b, items)
    ensures StraysIn(seen, a + b, Flatten(a, items))
  {
    var j, rest :| 0 <= j < |b| && seen(b[j].path) && Strays(b[j].entries, rest)
      && items == Flatten(b[..j], Cons(Header(b[j].path), rest));
    var k := |a| + j;
    FlattenConcat(a, b[..j], Cons(Header(b[j].path), rest));
    assert (a + b)[k] == b[j] && (a + b)[..k] == a + b[..j];
  }

  lemma StraysEarlier(seen: seq<string> -> bool, a: seq<Section>, b: seq<Section>, items: List<Item>)
    requires StraysIn(seen, a, items)
    ensures StraysIn(seen, a + b, items)
  {
    var j, rest :| 0 <= j < |a| && seen(a[j].path) && Strays(a[j].entries, rest)
      && items == Flatten(a[..j], Cons(Header(a[j].path), rest));
    assert (a + b)[j] == a[j] && (a + b)[..j] == a[..j];
  }

  // ---------- independent tables ----------

  /** Two tables that cannot interfere. */
  predicate Apart(a: Section, b: Section) { a.path != b.path && !Clash(a, b) && !Clash(b, a) }

  predicate AllApart(a: seq<Section>, b: seq<Section>) {
    forall i, j :: 0 <= i < |a| && 0 <= j < |b| ==> Apart(a[i], b[j])
  }

  lemma PartWellFormed(doc: seq<Section>, lo: nat, hi: nat)
    requires lo <= hi <= |doc| && WellFormed(doc)
    ensures WellFormed(doc[lo..hi])
  {
    var part := doc[lo..hi];
    forall i | 0 <= i < |part| ensures part[i] == doc[lo + i] {}
  }

  /** Groups of tables that cannot interfere are valid together exactly when each is. */
  lemma JoinWellFormed(a: seq<Section>, b: seq<Section>)
    requires AllApart(a, b)
    ensures WellFormed(a + b) <==> WellFormed(a) && WellFormed(b)
  {
    var doc := a + b;
    if WellFormed(doc) {
      PartWellFormed(doc, 0, |a|);
      PartWellFormed(doc, |a|, |doc|);
      assert doc[0..|a|] == a && doc[|a|..|doc|] == b;
    }
    if WellFormed(a) && WellFormed(b) {
      forall i, j | 0 <= i < |doc| && 0 <= j < |doc| ensures !Clash(doc[i], doc[j]) {
        if i < |a| && j >= |a| { assert Apart(a[i], b[j - |a|]); }
        if j < |a| && i >= |a| { assert Apart(a[j], b[i - |a|]); }
      }
      forall i, j | 0 <= i < j < |doc| ensures doc[i].path != doc[j].path {
        if i < |a| && j >= |a| { assert Apart(a[i], b[j - |a|]); }
      }
    }
  }

  // ---------- looking things up ----------

  /** The entries of the table at `path`; an absent table reads like an empty one. */
  function Find(doc: seq<Section>, path: seq<string>): List<Pair> {
    if doc == [] then Nil else if doc[0].path == path then doc[0].entries else Find(doc[1..], path)
  }

  lemma {:induction false} FindSkips(a: seq<Section>, b: seq<Section>, path: seq<string>)
    requires forall i :: 0 <= i < |a| ==> a[i].path != path
    ensures Find(a + b, path) == Find(b, path)
  {
    if a == [] {
      assert a + b == b;
    } else {
      assert (a + b)[0] == a[0] && (a + b)[1..] == a[1..] + b;
      FindSkips(a[1..], b, path);
    }
  }

  lemma {:induction false} FindStays(a: seq<Section>, b: seq<Section>, path: seq<string>)
    requires forall i :: 0 <= i < |b| ==> b[i].path != path
    ensures Find(a + b, path) == Find(a, path)
  {
    if a == [] {
      assert a + b == b;
      FindNone(b, path);
    } else {
      assert (a + b)[0] == a[0] && (a + b)[1..] == a[1..] + b;
      FindStays(a[1..], b, path);
    }
  }

  lemma {:induction false} FindNone(doc: seq<Section>, path: seq<string>)
    requires forall i :: 0 <= i < |doc| ==> doc[i].path != path
    ensures Find(doc, path) == Nil
  {
    if doc != [] { FindNone(doc[1..], path); }
  }

  // ---------- tables grouped by their first key ----------

  datatype Block = Block(top: string, sections: seq<Section>)

  function Join(blocks: seq<Block>): seq<Section> {
    if blocks == [] then [] else blocks[0].sections + Join(blocks[1..])
  }

  predicate Under(sections: seq<Section>, top: string) {
    forall i :: 0 <= i < |sections| ==> sections[i].path != [] && sections[i].path[0] == top
  }

  predicate Tidy(blocks: seq<Block>) {
    && (forall i :: 0 <= i < |blocks| ==> Under(blocks[i].sections, blocks[i].top))
    && (forall i, j :: 0 <= i < j < |blocks| ==> blocks[i].top != blocks[j].top)
  }

  lemma {:induction false} JoinMember(blocks: seq<Block>, k: nat) returns (i: nat)
    requires k < |Join(blocks)|
    ensures i < |blocks| && Join(blocks)[k] in blocks[i].sections
  {
    if k < |blocks[0].sections| {
      i := 0;
    } else {
      i := JoinMember(blocks[1..], k - |blocks[0].sections|);
      i := i + 1;
    }
  }

  /** Nothing in the other blocks goes by the first block's name. */
  lemma OthersElsewhere(blocks: seq<Block>)
    requires blocks != [] && Tidy(blocks)
    ensures forall k :: 0 <= k < |Join(blocks[1..])| ==>
      Join(blocks[1..])[k].path != [] && Join(blocks[1..])[k].path[0] != blocks[0].top
  {
    forall k | 0 <= k < |Join(blocks[1..])|
      ensures Join(blocks[1..])[k].path != [] && Join(blocks[1..])[k].path[0] != blocks[0].top
    {
      var i := JoinMember(blocks[1..], k);
      assert blocks[1..][i] == blocks[i + 1];
    }
  }

  lemma {:induction false} JoinAll(blocks: seq<Block>)
    requires Tidy(blocks)
    ensures WellFormed(Join(blocks)) <==> forall i :: 0 <= i < |blocks| ==> WellFormed(blocks[i].sections)
  {
    if blocks != [] {
      var a, b := blocks[0].sections, Join(blocks[1..]);
      OthersElsewhere(blocks);
      forall i, j | 0 <= i < |a| && 0 <= j < |b| ensures Apart(a[i], b[j]) {  }
      JoinWellFormed(a, b);
      JoinAll(blocks[1..]);
      forall i | 0 <= i < |blocks[1..]| ensures blocks[1..][i] == blocks[i + 1] {}
      assert forall i :: 1 <= i < |blocks| ==> blocks[i] == blocks[1..][i - 1];
    }
  }

  lemma {:induction false} FindInBlock(blocks: seq<Block>, i: nat, path: seq<string>)
    requires Tidy(blocks) && i < |blocks| && path != [] && path[0] == blocks[i].top
    ensures Find(Join(blocks), path) == Find(blocks[i].sections, path)
  {
    var a, b := blocks[0].sections, Join(blocks[1..]);
    OthersElsewhere(blocks);
    if i == 0 {
      FindStays(a, b, path);
    } else {
      FindSkips(a, b, path);
      assert blocks[1..][i - 1] == blocks[i];
      FindInBlock(blocks[1..], i - 1, path);
    }
  }
}
