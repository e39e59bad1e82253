/** The TOML printer as text: header and key lines, blank lines between tables, and reading the text back. */
module TomlText {
  import opened Basics
  import opened Digits
  import opened Toml
  import opened TomlValue

  /** One line of text that ends in something visible. */
  predicate Tidy(s: string) {
    s != "" && '\n' !in s && !IsSpace(s[|s| - 1])
  }

  predicate IsSpace(c: char) { c == ' ' || c == '\t' || c == '\n' || c == '\r' }

  predicate BareChar(c: char) {
    'a' <= c <= 'z' || 'A' <= c <= 'Z' || '0' <= c <= '9' || c == '_' || c == '-'
  }

  /** The characters of bare keys, in the "Keys" section of TOML v1.0.0. */
  lemma BareCharIff(c: char)
    ensures
      var code := c as int;
      BareChar(c) <==> 97 <= code <= 122 || 65 <= code <= 90 || 48 <= code <= 57 || code == 45 || code == 95
  {
  }

  predicate Bare(key: string) { key != "" && forall i :: 0 <= i < |key| ==> BareChar(key[i]) }

  /** There is a value somewhere. */
  predicate HasValue(e: Entries<Value>) { e.More? && (Holds(e.tree) || HasValue(e.rest)) }

  predicate Holds(tree: Tree<Value>) { tree.Leaf? || (tree.Table? && HasValue(tree.entries)) }

  /** Every key on the way to a value is bare. */
  predicate BareKeys(e: Entries<Value>) {
    match e
    case Nil => true
    case More(key, tree, rest) =>
      (Holds(tree) ==> Bare(key)) && (tree.Table? ==> BareKeys(tree.entries)) && BareKeys(rest)
  }

  predicate SimpleAll(e: Entries<Value>) {
    match e
    case Nil => true
    case More(key, tree, rest) =>
      (tree.Table? ==> SimpleAll(tree.entries)) && (tree.Leaf? ==> Simple(tree.value)) && SimpleAll(rest)
  }

  predicate Plain(e: Entries<Value>) { BareKeys(e) && SimpleAll(e) }

  predicate BarePath(path: Path) { path != [] && forall i :: 0 <= i < |path| ==> Bare(path[i]) }

  // ----- joining and splitting -----

  function Join(parts: seq<string>, c: char): string
    decreases |parts|
  {
    if parts == [] then "" else if |parts| == 1 then parts[0] else parts[0] + [c] + Join(parts[1..], c)
  }

  function Split(s: string, c: char): (r: seq<string>)
    ensures |r| >= 1
  {
    if s == "" then [s]
    else
      var rest := Split(s[1..], c);
      if s[0] == c then [""] + rest else [[s[0]] + rest[0]] + rest[1..]
  }

  lemma {:induction false} SplitWhole(s: string, c: char)
    requires c !in s
    ensures Split(s, c) == [s]
  {
    if s != "" {
      assert s[0] in s;
      SplitWhole(s[1..], c);
      assert [s[0]] + s[1..] == s;
    }
  }

  lemma {:induction false} SplitAt(a: string, b: string, c: char)
    requires c !in a
    ensures Split(a + [c] + b, c) == [a] + Split(b, c)
  {
    var s := a + [c] + b;
    if a == "" {
      assert s[0] == c && s[1..] == b;
    } else {
      assert a[0] in a;
      SplitAt(a[1..], b, c);
      assert s[0] == a[0] && s[1..] == a[1..] + [c] + b;
      assert [a[0]] + a[1..] == a;
    }
  }

  /** Splitting undoes joining when no part contains the separator. */
  lemma {:induction false} SplitJoin(parts: seq<string>, c: char)
    requires parts != [] && forall i :: 0 <= i < |parts| ==> c !in parts[i]
    ensures Split(Join(parts, c), c) == parts
    decreases |parts|
  {
    if |parts| == 1 {
      SplitWhole(parts[0], c);
    } else {
      SplitJoin(parts[1..], c);
      SplitAt(parts[0], Join(parts[1..], c), c);
      assert parts == [parts[0]] + parts[1..];
    }
  }

  lemma {:induction false} JoinAppend(parts: seq<string>, x: string, c: char)
    requires parts != []
    ensures Join(parts + [x], c) == Join(parts, c) + [c] + x
    decreases |parts|
  {
    var more := parts + [x];
    if |parts| == 1 {
      assert more[1..] == [x];
    } else {
      assert more[1..] == parts[1..] + [x];
      JoinAppend(parts[1..], x, c);
    }
  }

  // ----- lines -----

  function LineText(line: Line<Value>): string {
    match line
    case Header(path) => "[" + Join(path, '.') + "]"
    case Assign(key, value) => key + " = " + ValueText(value)
  }

  function FirstSpace(s: string): (i: nat)
    ensures i <= |s|
  {
    if s == "" || s[0] == ' ' then 0 else 1 + FirstSpace(s[1..])
  }

  predicate BareLine(line: Line<Value>) {
    match line
    case Header(path) => BarePath(path)
    case Assign(key, _) => Bare(key)
  }

  /** The printer quotes no key, so only bare ones are read; other keys are refused. */
  function BareOnly(line: Line<Value>): Option<Line<Value>> { if BareLine(line) then Some(line) else None }

  function ParseLine(s: string): Option<Line<Value>> {
    if s == "" then None
    else if s[0] == '[' then
      if |s| >= 2 && s[|s| - 1] == ']' then BareOnly(Header(Split(s[1..|s| - 1], '.'))) else None
    else
      var i := FirstSpace(s);
      if i + 3 <= |s| && s[i..i + 3] == " = " then
        var v := ReadValue(s[i + 3..]);
        if v.Some? then BareOnly(Assign(s[..i], v.value)) else None
      else None
  }

  predicate GoodLine(line: Line<Value>) { BareLine(line) && (line.Assign? ==> Simple(line.value)) }

  lemma BareHasNo(key: string, c: char)
    requires Bare(key) && !BareChar(c)
    ensures c !in key
  {
  }

  /** Why keys must be bare: a dot in a key prints the header of a nested table. */
  lemma DottedKeyLooksNested(a: string, b: string)
    ensures LineText(Header([a + "." + b])) == LineText(Header([a, b]))
  {
    assert Join([a, b], '.') == a + ['.'] + Join([b], '.') by { assert [a, b][1..] == [b]; }
  }

  lemma {:induction false} FirstSpaceAfter(a: string, b: string)
    requires ' ' !in a
    ensures FirstSpace(a + " " + b) == |a|
  {
    var s := a + " " + b;
    if a != "" {
      assert a[0] in a;
      assert s[0] == a[0] && s[1..] == a[1..] + " " + b;
      FirstSpaceAfter(a[1..], b);
    }
  }

  lemma LineReadsBack(line: Line<Value>)
    requires GoodLine(line)
    ensures ParseLine(LineText(line)) == Some(line)
  {
    var s := LineText(line);
    match line
    case Header(path) =>
      forall i | 0 <= i < |path| ensures '.' !in path[i] { BareHasNo(path[i], '.'); }
      SplitJoin(path, '.');
      assert s[1..|s| - 1] == Join(path, '.');
    case Assign(key, value) =>
      BareHasNo(key, ' ');
      ValueReadsBack(value);
      var tail := "= " + ValueText(value);
      assert s == key + " " + tail;
      FirstSpaceAfter(key, tail);
      assert s[|key|..|key| + 3] == " = " && s[|key| + 3..] == ValueText(value) && s[..|key|] == key;
      assert s[0] == key[0] && BareChar(key[0]);
  }

  lemma {:induction false} JoinTidy(path: Path)
    requires BarePath(path)
    ensures '\n' !in Join(path, '.')
    decreases |path|
  {
    BareHasNo(path[0], '\n');
    if |path| > 1 { JoinTidy(path[1..]); }
  }

  lemma IntTidy(n: int)
    ensures Tidy(Integer(n))
  {
    DecimalDigits(if n < 0 then -n else n);
  }

  lemma {:induction false} ItemsNoBreak(items: Items)
    requires SimpleItems(items)
    ensures '\n' !in ItemsText(items)
    decreases items
  {
    if items.Item? {
      ValueTidy(items.head);
      ItemsNoBreak(items.tail);
    }
  }

  lemma {:induction false} ValueTidy(v: Value)
    requires Simple(v)
    ensures Tidy(ValueText(v))
    decreases v
  {
    match v
    case Bool(_) =>
    case Int(n) => IntTidy(n);
    case Text(s) =>
    case List(items) => ItemsNoBreak(items);
  }

  lemma LineTidy(line: Line<Value>)
    requires GoodLine(line)
    ensures Tidy(LineText(line))
  {
    match line
    case Header(path) => JoinTidy(path);
    case Assign(key, value) =>
      BareHasNo(key, '\n');
      ValueTidy(value);
  }

  function Texts(lines: seq<Line<Value>>): seq<string> {
    seq(|lines|, i requires 0 <= i < |lines| => LineText(lines[i]))
  }

  ghost predicate AllGood(lines: seq<Line<Value>>) { forall i :: 0 <= i < |lines| ==> GoodLine(lines[i]) }

  lemma {:induction false} ScalarsGood(e: Entries<Value>)
    requires Plain(e)
    ensures AllGood(ScalarLines(e))
  {
    if e.More? { ScalarsGood(e.rest); }
  }

  /** Tables without values print nothing. */
  lemma {:induction false} NoValueNoLines(path: Path, e: Entries<Value>)
    requires !HasValue(e)
    ensures ScalarLines(e) == [] && TableLines(path, e) == [] && Body(path, e) == []
    decreases e
  {
    if e.More? {
      NoValueNoLines(path, e.rest);
      if e.tree.Table? { NoValueNoLines(path + [e.key], e.tree.entries); }
    }
  }

  lemma {:induction false} TablesGood(path: Path, e: Entries<Value>)
    requires Plain(e) && (path == [] || BarePath(path))
    ensures AllGood(TableLines(path, e))
    decreases e, 0
  {
    if e.More? {
      TablesGood(path, e.rest);
      if Holds(e.tree) && e.tree.Table? {
        BodyGood(path + [e.key], e.tree.entries);
      } else if e.tree.Table? {
        NoValueNoLines(path + [e.key], e.tree.entries);
      }
    }
  }

  lemma {:induction false} BodyGood(path: Path, e: Entries<Value>)
    requires Plain(e) && BarePath(path)
    ensures AllGood(Body(path, e))
    decreases e, 1
  {
    ScalarsGood(e);
    TablesGood(path, e);
  }

  // ----- the printer -----

  /** The lines that are not blank. */
  function Solid(lines: seq<string>): seq<string> {
    if lines == [] then []
    else
      var last := lines[|lines| - 1];
      Solid(lines[..|lines| - 1]) + if last == "" then [] else [last]
  }

  /** No line holds a line break, and the last line ends in something visible. */
  ghost predicate Printed(lines: seq<string>) {
    (forall i :: 0 <= i < |lines| ==> '\n' !in lines[i]) && (lines != [] ==> Tidy(lines[|lines| - 1]))
  }

  lemma {:induction false} SolidConcat(a: seq<string>, b: seq<string>)
    ensures Solid(a + b) == Solid(a) + Solid(b)
  {
    if b == [] {
      assert a + b == a;
    } else {
      SolidConcat(a, b[..|b| - 1]);
      assert (a + b)[..|a + b| - 1] == a + b[..|b| - 1];
    }
  }

  lemma {:induction false} SolidTidy(s: seq<string>)
    requires forall i :: 0 <= i < |s| ==> s[i] != ""
    ensures Solid(s) == s
  {
    if s != [] {
      SolidTidy(s[..|s| - 1]);
      assert s == s[..|s| - 1] + [s[|s| - 1]];
    }
  }

  /** Appending the texts of good lines to printed ones. */
  lemma AppendGood(lines: seq<string>, more: seq<Line<Value>>)
    requires AllGood(more) && Printed(lines)
    ensures Solid(lines + Texts(more)) == Solid(lines) + Texts(more) && Printed(lines + Texts(more))
  {
    forall i | 0 <= i < |more| ensures Tidy(Texts(more)[i]) { LineTidy(more[i]); }
    SolidConcat(lines, Texts(more));
    SolidTidy(Texts(more));
  }

  method AppendScalars(lines: seq<string>, e: Entries<Value>) returns (out: seq<string>)
    ensures out == lines + Texts(ScalarLines(e))
    decreases e
  {
    out := lines;
    if e.More? {
      if e.tree.Leaf? { out := out + [e.key + " = " + ValueText(e.tree.value)]; }
      ScalarTexts(lines, e);
      out := AppendScalars(out, e.rest);
    } else {
      assert Texts(ScalarLines(e)) == [];
    }
  }

  lemma ScalarTexts(lines: seq<string>, e: Entries<Value>)
    requires e.More?
    ensures lines + Texts(ScalarLines(e)) ==
      (if e.tree.Leaf? then lines + [e.key + " = " + ValueText(e.tree.value)] else lines) + Texts(ScalarLines(e.rest))
  {
    if e.tree.Leaf? {
      var line := Assign(e.key, e.tree.value);
      TextsConcat([line], ScalarLines(e.rest));
      assert Texts([line]) == [e.key + " = " + ValueText(e.tree.value)];
      Associative(lines, Texts([line]), Texts(ScalarLines(e.rest)));
    } else {
      assert ScalarLines(e) == ScalarLines(e.rest);
    }
  }

  /** Printing more lines, with or without blank ones between. */
  ghost predicate Extends(lines: seq<string>, out: seq<string>, more: seq<Line<Value>>) {
    Solid(out) == Solid(lines) + Texts(more) && Printed(out)
  }

  lemma ExtendsBoth(lines: seq<string>, mid: seq<string>, out: seq<string>, a: seq<Line<Value>>, b: seq<Line<Value>>)
    requires Extends(lines, mid, a) && Extends(mid, out, b)
    ensures Extends(lines, out, a + b)
  {
    TextsConcat(a, b);
    Associative(Solid(lines), Texts(a), Texts(b));
  }

  lemma TextsConcat(a: seq<Line<Value>>, b: seq<Line<Value>>)
    ensures Texts(a + b) == Texts(a) + Texts(b)
  {
  }

  lemma Associative(x: seq<string>, y: seq<string>, z: seq<string>)
    ensures x + y + z == x + (y + z)
  {
  }

  lemma ExtendsNothing(lines: seq<string>)
    requires Printed(lines)
    ensures Extends(lines, lines, [])
  {
    assert Texts([]) == [];
  }

  ghost predicate Prefix(prefix: string, path: Path) {
    (path == [] || BarePath(path)) && prefix == Join(path, '.') && (path == [] <==> prefix == "")
  }

  lemma ChildPrefix(prefix: string, path: Path, key: string)
    requires Bare(key) && Prefix(prefix, path)
    ensures Prefix(if prefix == "" then key else prefix + "." + key, path + [key])
  {
    if path != [] { JoinAppend(path, key, '.'); }
  }

  /** Where the text of the printer is meant to be read back. */
  ghost predicate Ready(lines: seq<string>, prefix: string, e: Entries<Value>, path: Path) {
    Printed(lines) && (HasValue(e) ==> Plain(e) && Prefix(prefix, path))
  }

  lemma ReadyFirst(lines: seq<string>, prefix: string, e: Entries<Value>, path: Path)
    requires Ready(lines, prefix, e, path) && e.More? && e.tree.Table?
    ensures Ready(lines, if prefix == "" then e.key else prefix + "." + e.key, e.tree.entries, path + [e.key])
  {
    if HasValue(e.tree.entries) {
      assert Holds(e.tree);
      ChildPrefix(prefix, path, e.key);
    }
  }

  method WriteTables(lines: seq<string>, prefix: string, e: Entries<Value>, ghost path: Path) returns (out: seq<string>)
    ensures Ready(lines, prefix, e, path) ==> Extends(lines, out, TableLines(path, e))
    decreases e, 0
  {
    ghost var ready := Ready(lines, prefix, e, path);
    if ready { ExtendsNothing(lines); }
    out := lines;
    if e.More? {
      ghost var first := if e.tree.Table? then Body(path + [e.key], e.tree.entries) else [];
      if e.tree.Table? {
        if ready { ReadyFirst(lines, prefix, e, path); }
        out := WriteTable(out, if prefix == "" then e.key else prefix + "." + e.key, e.tree.entries, path + [e.key]);
      }
      ghost var mid := out;
      out := WriteTables(out, prefix, e.rest, path);
      if ready { ExtendsBoth(lines, mid, out, first, TableLines(path, e.rest)); }
    }
  }

  /** A table's header and values, with a blank line before them unless they come first. */
  method WriteOwn(lines: seq<string>, prefix: string, e: Entries<Value>, ghost path: Path) returns (out: seq<string>)
    ensures Ready(lines, prefix, e, path) && path != [] ==>
      Extends(lines, out, if ScalarLines(e) == [] then [] else [Header(path)] + ScalarLines(e))
  {
    var scalars := AppendScalars([], e);
    out := lines;
    if scalars != [] {
      if out != [] && out[|out| - 1] != "" { out := out + [""]; }
      out := out + ["[" + prefix + "]"] + scalars;
    }
    if Ready(lines, prefix, e, path) && path != [] {
      assert scalars == Texts(ScalarLines(e));
      ExtendsNothing(lines);
      if HasValue(e) { OwnLines(lines, path, e); } else { NoValueNoLines(path, e); }
    }
  }

  method WriteTable(lines: seq<string>, prefix: string, e: Entries<Value>, ghost path: Path) returns (out: seq<string>)
    ensures Ready(lines, prefix, e, path) && path != [] ==> Extends(lines, out, Body(path, e))
    decreases e, 1
  {
    out := WriteOwn(lines, prefix, e, path);
    ghost var mid := out;
    out := WriteTables(out, prefix, e, path);
    if Ready(lines, prefix, e, path) && path != [] {
      ghost var own := if ScalarLines(e) == [] then [] else [Header(path)] + ScalarLines(e);
      ExtendsBoth(lines, mid, out, own, TableLines(path, e));
    }
  }

  lemma OwnLines(lines: seq<string>, path: Path, e: Entries<Value>)
    requires Printed(lines) && BarePath(path) && Plain(e)
    ensures var gap := if lines == [] then [] else lines + [""];
      Extends(lines, gap + ["[" + Join(path, '.') + "]"] + Texts(ScalarLines(e)), [Header(path)] + ScalarLines(e))
  {
    var own := [Header(path)] + ScalarLines(e);
    var gap := if lines == [] then [] else lines + [""];
    ScalarsGood(e);
    TextsConcat([Header(path)], ScalarLines(e));
    OneText(path);
    Associative(gap, Texts([Header(path)]), Texts(ScalarLines(e)));
    AfterGap(lines, own);
  }

  lemma OneText(path: Path)
    ensures Texts([Header(path)]) == ["[" + Join(path, '.') + "]"]
  {
  }

  lemma AfterGap(lines: seq<string>, own: seq<Line<Value>>)
    requires Printed(lines) && AllGood(own) && own != []
    ensures Extends(lines, (if lines == [] then [] else lines + [""]) + Texts(own), own)
  {
    var gap := if lines == [] then [] else lines + [""];
    forall i | 0 <= i < |own| ensures Tidy(Texts(own)[i]) { LineTidy(own[i]); }
    SolidConcat(gap, Texts(own));
    SolidTidy(Texts(own));
    BlankIsNothing(lines);
    assert forall i :: 0 <= i < |gap| ==> '\n' !in gap[i];
  }

  lemma BlankIsNothing(lines: seq<string>)
    ensures Solid(lines + [""]) == Solid(lines)
  {
    assert (lines + [""])[..|lines|] == lines;
  }

  // ----- the whole text -----

  function StripEnd(s: string): string {
    if s != "" && IsSpace(s[|s| - 1]) then StripEnd(s[..|s| - 1]) else s
  }

  function ParseAll(lines: seq<string>): Option<seq<Line<Value>>> {
    if lines == [] then Some([])
    else
      var before, last := ParseAll(lines[..|lines| - 1]), ParseLine(lines[|lines| - 1]);
      if before.None? || last.None? then None else Some(before.value + [last.value])
  }

  /** Read a whole text: its lines, the blank ones dropped. */
  ghost function ReadText(text: string): Option<Doc<Value>> {
    var lines := ParseAll(Solid(Split(text, '\n')));
    if lines.None? then None else ReadAll(lines.value)
  }

  lemma {:induction false} ParseTexts(lines: seq<Line<Value>>)
    requires AllGood(lines)
    ensures ParseAll(Texts(lines)) == Some(lines)
  {
    if lines != [] {
      var last := |lines| - 1;
      ParseTexts(lines[..last]);
      LineReadsBack(lines[last]);
      assert Texts(lines)[..last] == Texts(lines[..last]);
      assert lines == lines[..last] + [lines[last]];
    }
  }

  lemma {:induction false} JoinEnd(lines: seq<string>, c: char)
    requires lines != [] && lines[|lines| - 1] != ""
    ensures Join(lines, c) != "" && Join(lines, c)[|Join(lines, c)| - 1] == lines[|lines| - 1][|lines[|lines| - 1]| - 1]
    decreases |lines|
  {
    if |lines| > 1 {
      JoinEnd(lines[1..], c);
    }
  }

  /** Splitting the final text gives the printed lines, and blank ones. */
  lemma TextLines(lines: seq<string>)
    requires Printed(lines)
    ensures Solid(Split(StripEnd(Join(lines, '\n')) + "\n", '\n')) == Solid(lines)
  {
    if lines == [] {
      SplitAt("", "", '\n');
      assert "" + ['\n'] + "" == "\n";
      assert StripEnd("") + "\n" == "\n";
      assert [""] + Split("", '\n') == [""] + [""];
      BlankIsNothing([""]);
      BlankIsNothing([]);
      assert [] + [""] == [""];
    } else {
      JoinEnd(lines, '\n');
      JoinAppend(lines, "", '\n');
      SplitJoin(lines + [""], '\n');
      assert Join(lines, '\n') + ['\n'] + "" == Join(lines, '\n') + "\n";
      BlankIsNothing(lines);
    }
  }

  /** The text says at every path what the payload holds there. */
  ghost predicate ReadsAs(text: string, e: Entries<Value>) {
    var doc := ReadText(text);
    doc.Some? && forall path :: Get(doc.value.leaves, path) == Lookup(e, path)
  }

  lemma TextIsDocument(e: Entries<Value>, lines: seq<string>)
    requires Plain(e) && Extends([], lines, Document(e))
    ensures ReadText(StripEnd(Join(lines, '\n')) + "\n") == ReadAll(Document(e))
  {
    TextLines(lines);
    ScalarsGood(e);
    TablesGood([], e);
    ParseTexts(Document(e));
    assert Solid(lines) == Texts(Document(e));
  }

  lemma TextReadsBack(e: Entries<Value>, lines: seq<string>)
    requires Keyed(e) && Plain(e) && Extends([], lines, Document(e))
    ensures ReadsAs(StripEnd(Join(lines, '\n')) + "\n", e)
  {
    TextIsDocument(e, lines);
    var doc := ReadAll(Document(e));
    forall path ensures doc.Some? && Get(doc.value.leaves, path) == Lookup(e, path) {
      PrintedReadsBack(e, path);
    }
    assert doc.Some? by { PrintedReadsBack(e, []); }
  }

  /**
   The printer as a whole, for every payload with simple values: its text reads back to the payload, at every path, if
   and only if the keys on the way to values are bare. Nulls and empty tables are not there, whatever their keys.
   */
  method Dump(e: Entries<Value>) returns (text: string)
    ensures Keyed(e) && SimpleAll(e) ==> (BareKeys(e) <==> ReadsAs(text, e))
  {
    var lines := AppendScalars([], e);
    ghost var mid := lines;
    lines := WriteTables(lines, "", e, []);
    text := StripEnd(Join(lines, '\n')) + "\n";
    if Keyed(e) && Plain(e) {
      ScalarsGood(e);
      AppendGood([], ScalarLines(e));
      assert Ready(mid, "", e, []);
      ExtendsBoth([], mid, lines, ScalarLines(e), TableLines([], e));
      TextReadsBack(e, lines);
    }
    if Keyed(e) && !BareKeys(e) { OtherKeysAreLost(text, e); }
  }

  // ----- keys that are not bare -----

  lemma {:induction false} LookupHasKey(e: Entries<Value>, path: Path)
    requires Lookup(e, path).Some?
    ensures path != [] && HasKey(e, path[0])
  {
    if path[0] != e.key { LookupHasKey(e.rest, path); }
  }

  lemma {:induction false} LaterLookup(e: Entries<Value>, path: Path)
    requires e.More? && Keyed(e) && Lookup(e.rest, path).Some?
    ensures Lookup(e, path) == Lookup(e.rest, path)
  {
    LookupHasKey(e.rest, path);
  }

  lemma {:induction false} ValueSomewhere(e: Entries<Value>) returns (path: Path)
    requires Keyed(e) && HasValue(e)
    ensures Lookup(e, path).Some?
  {
    if Holds(e.tree) {
      path := ValueUnder(e);
    } else {
      path := ValueSomewhere(e.rest);
      LaterLookup(e, path);
    }
  }

  lemma {:induction false} ValueUnder(e: Entries<Value>) returns (path: Path)
    requires e.More? && Keyed(e) && Holds(e.tree)
    ensures path != [] && path[0] == e.key && Lookup(e, path).Some?
    decreases e.tree
  {
    path := [e.key];
    if e.tree.Table? {
      var under := ValueSomewhere(e.tree.entries);
      path := [e.key] + under;
      assert path[1..] == under;
    }
  }

  /** A payload with another key on the way to a value has a value at a path that is not bare. */
  lemma {:induction false} ValueNotBare(e: Entries<Value>) returns (path: Path)
    requires Keyed(e) && !BareKeys(e)
    ensures Lookup(e, path).Some? && !BarePath(path)
  {
    if Holds(e.tree) && !Bare(e.key) {
      path := ValueUnder(e);
    } else if e.tree.Table? && !BareKeys(e.tree.entries) {
      var under := ValueNotBare(e.tree.entries);
      LookupHasKey(e.tree.entries, under);
      path := [e.key] + under;
      assert path[1..] == under;
      assert forall i :: 0 <= i < |under| ==> path[i + 1] == under[i];
    } else {
      path := ValueNotBare(e.rest);
      LaterLookup(e, path);
    }
  }

  ghost predicate BareDoc(d: Doc<Value>) {
    (d.current == [] || BarePath(d.current)) && forall p :: p in d.leaves ==> BarePath(p)
  }

  /** Whatever text is read, what it assigns is at bare paths. */
  lemma {:induction false} ReadIsBare(d: Doc<Value>, lines: seq<Line<Value>>)
    requires BareDoc(d) && forall i :: 0 <= i < |lines| ==> BareLine(lines[i])
    ensures Read(d, lines).Some? ==> BareDoc(Read(d, lines).value)
    decreases |lines|
  {
    if lines != [] {
      var next := ReadLine(d, lines[0]);
      assert BareLine(lines[0]);
      if next.Some? {
        LineIsBare(d, lines[0]);
        ReadIsBare(next.value, lines[1..]);
      }
    }
  }

  lemma LineIsBare(d: Doc<Value>, line: Line<Value>)
    requires BareDoc(d) && BareLine(line) && ReadLine(d, line).Some?
    ensures BareDoc(ReadLine(d, line).value)
  {
    if line.Assign? {
      var p := d.current + [line.key];
      assert BarePath(p);
    }
  }

  lemma {:induction false} ParsedIsBare(lines: seq<string>)
    ensures ParseAll(lines).Some? ==>
      forall i :: 0 <= i < |ParseAll(lines).value| ==> BareLine(ParseAll(lines).value[i])
  {
    if lines != [] { ParsedIsBare(lines[..|lines| - 1]); }
  }

  /** What is read is at bare paths, so no text reads as a payload with a value elsewhere. */
  lemma OtherKeysAreLost(text: string, e: Entries<Value>)
    requires Keyed(e) && !BareKeys(e)
    ensures !ReadsAs(text, e)
  {
    var path := ValueNotBare(e);
    var lines := ParseAll(Solid(Split(text, '\n')));
    ParsedIsBare(Solid(Split(text, '\n')));
    if lines.Some? { ReadIsBare(Doc([], {}, map[]), lines.value); }
    assert ReadText(text).Some? ==> BareDoc(ReadText(text).value);
    assert ReadsAs(text, e) ==> Get(ReadText(text).value.leaves, path) == Lookup(e, path);
  }

  /** A table under the key `a.b`, with one value. */
  function Dotted(a: string, b: string, x: string, v: Value): Entries<Value> {
    More(a + "." + b, Table(More(x, Leaf(v), Nil)), Nil)
  }

  /** What is read instead: the value is found in the table `b` of the table `a`, and not where the payload has it. */
  lemma DottedKeyReadsNested(a: string, b: string, x: string, v: Value)
    requires Bare(a) && Bare(b) && Bare(x) && Simple(v)
    ensures
      var e := Dotted(a, b, x, v);
      var lines := ParseAll(Texts(Document(e)));
      && Keyed(e) && SimpleAll(e) && !BareKeys(e) && lines == Some([Header([a, b])] + [Assign(x, v)])
      && ReadAll(lines.value).Some? && ReadAll(lines.value).value.leaves == map[[a, b] + [x] := v]
      && Lookup(e, [a + "." + b, x]) == Some(v) && Lookup(e, [a, b, x]) == None
  {
    var e := Dotted(a, b, x, v);
    var own: seq<Line<Value>> := [Header([a + "." + b])] + [Assign(x, v)];
    var nested: seq<Line<Value>> := [Header([a, b])] + [Assign(x, v)];
    DottedDocument(a, b, x, v);
    DottedKeyLooksNested(a, b);
    assert Texts(own) == Texts(nested);
    assert BarePath([a, b]);
    ParseTexts(nested);
    NestedReads(a, b, x, v);
    DotIsNoKey(a, b);
    DottedIsPayload(a, b, x, v);
  }

  lemma DottedIsPayload(a: string, b: string, x: string, v: Value)
    requires Simple(v)
    ensures var e := Dotted(a, b, x, v); Keyed(e) && SimpleAll(e) && !BareKeys(e)
  {
    var key := a + "." + b;
    var sub: Entries<Value> := More(x, Leaf(v), Nil);
    assert key[|a|] == '.' && !BareChar('.');
    assert HasValue(sub) && Keyed(sub) && SimpleAll(sub);
  }

  lemma NestedReads(a: string, b: string, x: string, v: Value)
    ensures
      var doc := ReadAll([Header([a, b])] + [Assign(x, v)]);
      doc.Some? && doc.value.leaves == map[[a, b] + [x] := v]
  {
    var lines: seq<Line<Value>> := [Header([a, b])] + [Assign(x, v)];
    var within: Doc<Value> := Doc([a, b], {[a, b]}, map[]);
    assert lines[0] == Header([a, b]) && lines[1..] == [Assign(x, v)];
    var none: Doc<Value> := Doc([], {}, map[]);
    assert none.(current := [a, b], headers := none.headers + {[a, b]}) == within;
    assert MayOpen(none, [a, b]);
    assert ReadLine(none, lines[0]) == Some(within);
    OneAssignment(within, x, v);
  }

  lemma OneAssignment(d: Doc<Value>, x: string, v: Value)
    requires d.leaves == map[] && forall h :: h in d.headers ==> |h| <= |d.current|
    ensures Read(d, [Assign(x, v)]) == Some(d.(leaves := map[d.current + [x] := v]))
  {
    var lines: seq<Line<Value>> := [Assign(x, v)];
    assert lines[0] == Assign(x, v) && lines[1..] == [];
    assert MayAssign(d, d.current + [x]);
  }

  lemma DottedDocument(a: string, b: string, x: string, v: Value)
    ensures Document(Dotted(a, b, x, v)) == [Header([a + "." + b])] + [Assign(x, v)]
  {
    var sub: Entries<Value> := More(x, Leaf(v), Nil);
    assert ScalarLines(sub) == [Assign(x, v)];
    var path: Path := [a + "." + b];
    assert TableLines(path, sub) == [];
    assert ScalarLines(Dotted(a, b, x, v)) == [];
    assert [] + path == path;
    assert Body([a + "." + b], sub) == [Header([a + "." + b])] + [Assign(x, v)];
    assert TableLines([], Dotted(a, b, x, v)) == Body([a + "." + b], sub);
  }

  lemma DotIsNoKey(a: string, b: string)
    ensures a != a + "." + b
  {
    assert |a + ("." + b)| > |a| && a + "." + b == a + ("." + b);
  }
}
