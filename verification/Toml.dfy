/**
 The TOML printer, by lines. A payload is a nested table with ordered entries; printing puts a table's own values
 under its header and its subtables after them. Reading assigns each key to the most recent header, and refuses what
 the "Table" section of TOML v1.0.0 forbids: a header given twice, a key given twice, a key that is also a table.
 */
module Toml {
  import opened Basics

  type Path = seq<string>

  datatype Tree<+V> = Null | Leaf(value: V) | Table(entries: Entries<V>)

  datatype Entries<+V> = Nil | More(key: string, tree: Tree<V>, rest: Entries<V>)

  datatype Line<+V> = Header(path: Path) | Assign(key: string, value: V)

  // ----- printing -----

  function ScalarLines<V>(e: Entries<V>): seq<Line<V>> {
    match e
    case Nil => []
    case More(key, tree, rest) => (if tree.Leaf? then [Assign(key, tree.value)] else []) + ScalarLines(rest)
  }

  function TableLines<V>(path: Path, e: Entries<V>): seq<Line<V>>
    decreases e, 0
  {
    match e
    case Nil => []
    case More(key, tree, rest) =>
      (if tree.Table? then Body(path + [key], tree.entries) else []) + TableLines(path, rest)
  }

  /** The lines of one table: a header only if the table has values of its own. */
  function Body<V>(path: Path, e: Entries<V>): seq<Line<V>>
    decreases e, 1
  {
    (if ScalarLines(e) == [] then [] else [Header(path)] + ScalarLines(e)) + TableLines(path, e)
  }

  function Document<V>(e: Entries<V>): seq<Line<V>> { ScalarLines(e) + TableLines([], e) }

  // ----- reading -----

  datatype Doc<V> = Doc(current: Path, headers: set<Path>, leaves: map<Path, V>)

  ghost predicate MayOpen<V>(d: Doc<V>, path: Path) {
    path !in d.headers && forall l :: l in d.leaves ==> !(l <= path)
  }

  ghost predicate MayAssign<V>(d: Doc<V>, path: Path) {
    path !in d.leaves && forall h :: h in d.headers ==> !(path <= h)
  }

  ghost function ReadLine<V>(d: Doc<V>, line: Line<V>): Option<Doc<V>> {
    match line
    case Header(path) => if MayOpen(d, path) then Some(d.(current := path, headers := d.headers + {path})) else None
    case Assign(key, value) =>
      if MayAssign(d, d.current + [key]) then Some(d.(leaves := d.leaves[d.current + [key] := value])) else None
  }

  ghost function Read<V>(d: Doc<V>, lines: seq<Line<V>>): Option<Doc<V>>
    decreases |lines|
  {
    if lines == [] then Some(d)
    else
      var next := ReadLine(d, lines[0]);
      if next.None? then None else Read(next.value, lines[1..])
  }

  ghost function ReadAll<V>(lines: seq<Line<V>>): Option<Doc<V>> { Read(Doc([], {}, map[]), lines) }

  lemma {:induction false} ReadConcat<V>(d: Doc<V>, a: seq<Line<V>>, b: seq<Line<V>>)
    ensures Read(d, a + b) == var mid := Read(d, a); if mid.None? then None else Read(mid.value, b)
    decreases |a|
  {
    if a == [] {
      assert a + b == b;
    } else {
      assert (a + b)[0] == a[0] && (a + b)[1..] == a[1..] + b;
      var next := ReadLine(d, a[0]);
      if next.Some? { ReadConcat(next.value, a[1..], b); }
    }
  }

  // ----- meaning -----

  /** Nested lookup, as in the payload itself. */
  function Lookup<V>(e: Entries<V>, path: Path): Option<V>
    decreases e
  {
    match e
    case Nil => None
    case More(key, tree, rest) =>
      if path == [] then None
      else if path[0] != key then Lookup(rest, path)
      else
        match tree
        case Null => None
        case Leaf(v) => if |path| == 1 then Some(v) else None
        case Table(sub) => Lookup(sub, path[1..])
  }

  predicate HasKey<V>(e: Entries<V>, key: string) {
    e.More? && (e.key == key || HasKey(e.rest, key))
  }

  /** No key occurs twice in one table, as in any mapping. */
  predicate Keyed<V>(e: Entries<V>) {
    match e
    case Nil => true
    case More(key, tree, rest) => !HasKey(rest, key) && (tree.Table? ==> Keyed(tree.entries)) && Keyed(rest)
  }

  function FlatScalars<V>(path: Path, e: Entries<V>): map<Path, V> {
    match e
    case Nil => map[]
    case More(key, tree, rest) =>
      (if tree.Leaf? then map[path + [key] := tree.value] else map[]) + FlatScalars(path, rest)
  }

  function FlatTables<V>(path: Path, e: Entries<V>): map<Path, V>
    decreases e, 0
  {
    match e
    case Nil => map[]
    case More(key, tree, rest) =>
      (if tree.Table? then Flat(path + [key], tree.entries) else map[]) + FlatTables(path, rest)
  }

  function Flat<V>(path: Path, e: Entries<V>): map<Path, V>
    decreases e, 1
  {
    FlatScalars(path, e) + FlatTables(path, e)
  }

  /** Strictly below a table, under one of its keys. */
  predicate Under<V>(path: Path, e: Entries<V>, q: Path) {
    path <= q && |path| < |q| && HasKey(e, q[|path|])
  }

  lemma UnderStep(path: Path, key: string, q: Path)
    requires path + [key] <= q
    ensures path <= q && |path| < |q| && q[|path|] == key
  {
  }

  lemma {:induction false} ScalarKeys<V>(path: Path, e: Entries<V>, q: Path)
    requires q in FlatScalars(path, e)
    ensures Under(path, e, q) && |q| == |path| + 1
  {
    if e.More? && q in FlatScalars(path, e.rest) { ScalarKeys(path, e.rest, q); }
  }

  lemma {:induction false} TableKeys<V>(path: Path, e: Entries<V>, q: Path)
    requires q in FlatTables(path, e)
    ensures Under(path, e, q)
    decreases e, 0
  {
    if e.More? {
      if q in FlatTables(path, e.rest) {
        TableKeys(path, e.rest, q);
      } else {
        FlatKeys(path + [e.key], e.tree.entries, q);
        UnderStep(path, e.key, q);
      }
    }
  }

  lemma {:induction false} FlatKeys<V>(path: Path, e: Entries<V>, q: Path)
    requires q in Flat(path, e)
    ensures Under(path, e, q)
    decreases e, 1
  {
    if q in FlatTables(path, e) { TableKeys(path, e, q); } else { ScalarKeys(path, e, q); }
  }

  predicate ScalarKey<V>(e: Entries<V>, key: string) {
    e.More? && ((e.key == key && e.tree.Leaf?) || ScalarKey(e.rest, key))
  }

  predicate TableKey<V>(e: Entries<V>, key: string) {
    e.More? && ((e.key == key && e.tree.Table?) || TableKey(e.rest, key))
  }

  lemma {:induction false} KeyKinds<V>(e: Entries<V>, key: string)
    ensures ScalarKey(e, key) || TableKey(e, key) ==> HasKey(e, key)
    ensures Keyed(e) ==> !(ScalarKey(e, key) && TableKey(e, key))
  {
    if e.More? { KeyKinds(e.rest, key); }
  }

  lemma {:induction false} ScalarKeyOf<V>(path: Path, e: Entries<V>, q: Path)
    requires q in FlatScalars(path, e)
    ensures |q| == |path| + 1 && q == path + [q[|path|]] && ScalarKey(e, q[|path|])
  {
    if e.More? && q in FlatScalars(path, e.rest) { ScalarKeyOf(path, e.rest, q); }
  }

  // ----- reading back what was printed -----

  /** Nothing has been said about a path, above it or below it. */
  ghost predicate Clear<V>(d: Doc<V>, p: Path) {
    && (forall h :: h in d.headers ==> !(p <= h))
    && (forall l :: l in d.leaves ==> !(p <= l) && !(l <= p))
  }

  lemma AssignedOne<V>(d: Doc<V>, path: Path, e: Entries<V>)
    requires e.More? && e.tree.Leaf? && Keyed(e)
    requires forall k :: ScalarKey(e, k) ==> MayAssign(d, path + [k])
    ensures var next := d.(leaves := d.leaves[path + [e.key] := e.tree.value]);
      && MayAssign(d, path + [e.key])
      && (forall k :: ScalarKey(e.rest, k) ==> MayAssign(next, path + [k]))
      && next.leaves + FlatScalars(path, e.rest) == d.leaves + FlatScalars(path, e)
  {
    var next := d.(leaves := d.leaves[path + [e.key] := e.tree.value]);
    assert ScalarKey(e, e.key);
    forall k | ScalarKey(e.rest, k) ensures MayAssign(next, path + [k]) {
      assert ScalarKey(e, k);
      KeyKinds(e.rest, k);
      OtherKey(path, e.key, k);
    }
  }

  /** Reading a table's own values adds just those. */
  ghost predicate ScalarsRead<V>(d: Doc<V>, path: Path, e: Entries<V>) {
    Read(d, ScalarLines(e)) == Some(d.(leaves := d.leaves + FlatScalars(path, e)))
  }

  lemma FirstRead<V>(d: Doc<V>, path: Path, e: Entries<V>)
    requires e.More? && e.tree.Leaf? && d.current == path && MayAssign(d, path + [e.key])
    requires var next := d.(leaves := d.leaves[path + [e.key] := e.tree.value]);
      ScalarsRead(next, path, e.rest) && next.leaves + FlatScalars(path, e.rest) == d.leaves + FlatScalars(path, e)
    ensures ScalarsRead(d, path, e)
  {
    assert ScalarLines(e)[0] == Assign(e.key, e.tree.value) && ScalarLines(e)[1..] == ScalarLines(e.rest);
  }

  lemma NothingRead<V>(d: Doc<V>, path: Path, e: Entries<V>)
    requires e.More? && !e.tree.Leaf? && ScalarsRead(d, path, e.rest)
    ensures ScalarsRead(d, path, e)
  {
    assert ScalarLines(e) == ScalarLines(e.rest);
    assert map[] + FlatScalars(path, e.rest) == FlatScalars(path, e.rest);
  }

  lemma {:induction false} ScalarsAreRead<V>(d: Doc<V>, path: Path, e: Entries<V>)
    requires Keyed(e) && d.current == path
    requires forall k :: ScalarKey(e, k) ==> MayAssign(d, path + [k])
    ensures ScalarsRead(d, path, e)
    decreases e
  {
    match e
    case Nil =>
      assert d.leaves + map[] == d.leaves;
    case More(key, tree, rest) =>
      if tree.Leaf? {
        AssignedOne(d, path, e);
        ScalarsAreRead(d.(leaves := d.leaves[path + [key] := tree.value]), path, rest);
        FirstRead(d, path, e);
      } else {
        assert forall k :: ScalarKey(rest, k) ==> ScalarKey(e, k);
        ScalarsAreRead(d, path, rest);
        NothingRead(d, path, e);
      }
  }

  lemma OtherKey(path: Path, a: string, b: string)
    requires a != b
    ensures path + [a] != path + [b] && !(path + [a] <= path + [b])
  {
    assert (path + [a])[|path|] == a && (path + [b])[|path|] == b;
  }

  /** What a step of reading may add: headers only below a path. */
  ghost predicate OnlyBelow<V>(before: Doc<V>, after: Doc<V>, p: Path) {
    forall h :: h in after.headers && h !in before.headers ==> p <= h
  }

  /** Adding only below one key leaves another key clear. */
  lemma StaysClear<V>(before: Doc<V>, after: Doc<V>, path: Path, a: string, b: string, more: map<Path, V>)
    requires a != b && Clear(before, path + [b]) && OnlyBelow(before, after, path + [a])
    requires after.leaves == before.leaves + more && forall q :: q in more ==> path + [a] <= q
    ensures Clear(after, path + [b])
  {
    OtherKey(path, a, b);
    forall h | h in after.headers ensures !(path + [b] <= h) {
      if h !in before.headers && path + [b] <= h { Diverge(path, a, b, h); }
    }
    forall l | l in after.leaves ensures !(path + [b] <= l) && !(l <= path + [b]) {
      if l !in before.leaves {
        assert l in more;
        if path + [b] <= l { Diverge(path, a, b, l); }
      }
    }
  }

  lemma Diverge(path: Path, a: string, b: string, q: Path)
    requires path + [a] <= q && path + [b] <= q
    ensures a == b
  {
    UnderStep(path, a, q);
    UnderStep(path, b, q);
  }

  /** The result of reading the lines of a part of the payload. */
  ghost predicate Reads<V>(d: Doc<V>, lines: seq<Line<V>>, more: map<Path, V>, below: Path) {
    var r := Read(d, lines);
    && r.Some? && r.value.leaves == d.leaves + more
    && OnlyBelow(d, r.value, below)
  }

  lemma ReadsBoth<V>(d: Doc<V>, a: seq<Line<V>>, b: seq<Line<V>>, m: map<Path, V>, n: map<Path, V>, p: Path,
      q: Path, below: Path)
    requires Reads(d, a, m, p) && Reads(Read(d, a).value, b, n, q) && below <= p && below <= q
    ensures Reads(d, a + b, m + n, below)
  {
    ReadConcat(d, a, b);
    assert d.leaves + m + n == d.leaves + (m + n);
  }

  lemma {:induction false} TablesRead<V>(d: Doc<V>, path: Path, e: Entries<V>)
    requires Keyed(e) && forall k :: TableKey(e, k) ==> Clear(d, path + [k])
    ensures Reads(d, TableLines(path, e), FlatTables(path, e), path)
    decreases e, 0
  {
    match e
    case Nil =>
      assert d.leaves + map[] == d.leaves;
    case More(key, tree, rest) =>
      assert forall k :: TableKey(rest, k) ==> TableKey(e, k);
      if tree.Table? {
        assert TableKey(e, key);
        BodyRead(d, path + [key], tree.entries);
        var mid := Read(d, Body(path + [key], tree.entries)).value;
        RestClear(d, mid, path, e);
        TablesRead(mid, path, rest);
        ReadsBoth(d, Body(path + [key], tree.entries), TableLines(path, rest), Flat(path + [key], tree.entries),
          FlatTables(path, rest),
          path + [key], path, path);
      } else {
        TablesRead(d, path, rest);
        assert TableLines(path, e) == TableLines(path, rest);
        assert map[] + FlatTables(path, rest) == FlatTables(path, rest);
      }
  }

  lemma RestClear<V>(d: Doc<V>, mid: Doc<V>, path: Path, e: Entries<V>)
    requires e.More? && e.tree.Table? && Keyed(e) && forall k :: TableKey(e, k) ==> Clear(d, path + [k])
    requires OnlyBelow(d, mid, path + [e.key]) && mid.leaves == d.leaves + Flat(path + [e.key], e.tree.entries)
    ensures forall k :: TableKey(e.rest, k) ==> Clear(mid, path + [k])
  {
    var more := Flat(path + [e.key], e.tree.entries);
    forall q | q in more ensures path + [e.key] <= q {
      FlatKeys(path + [e.key], e.tree.entries, q);
    }
    forall k | TableKey(e.rest, k) ensures Clear(mid, path + [k]) {
      assert TableKey(e, k);
      KeyKinds(e.rest, k);
      StaysClear(d, mid, path, e.key, k, more);
    }
  }

  lemma {:induction false} NoScalars<V>(path: Path, e: Entries<V>)
    requires ScalarLines(e) == []
    ensures FlatScalars(path, e) == map[]
  {
    if e.More? { NoScalars(path, e.rest); }
  }

  lemma ClearBelow<V>(d: Doc<V>, path: Path, k: string)
    requires Clear(d, path)
    ensures Clear(d, path + [k]) && MayOpen(d, path)
    ensures MayAssign(d.(current := path, headers := d.headers + {path}), path + [k])
  {
    forall h | h in d.headers && path + [k] <= h ensures path <= h {
      UnderStep(path, k, h);
    }
    forall l | l in d.leaves && path + [k] <= l ensures path <= l {
      UnderStep(path, k, l);
    }
    forall l | l in d.leaves && l <= path + [k] ensures l <= path || path <= l {
    }
  }

  /** A table's own values, once read, leave its subtables clear. */
  lemma TablesStayClear<V>(d: Doc<V>, mid: Doc<V>, path: Path, e: Entries<V>)
    requires Keyed(e) && Clear(d, path) && mid.headers == d.headers + {path}
    requires mid.leaves == d.leaves + FlatScalars(path, e)
    ensures forall k :: TableKey(e, k) ==> Clear(mid, path + [k])
  {
    forall k | TableKey(e, k) ensures Clear(mid, path + [k]) {
      ClearBelow(d, path, k);
      forall l | l in mid.leaves ensures !(path + [k] <= l) && !(l <= path + [k]) {
        if l in FlatScalars(path, e) {
          ScalarKeyOf(path, e, l);
          KeyKinds(e, k);
          OtherKey(path, k, l[|path|]);
          OtherKey(path, l[|path|], k);
        }
      }
    }
  }

  lemma {:induction false} BodyRead<V>(d: Doc<V>, path: Path, e: Entries<V>)
    requires Keyed(e) && Clear(d, path)
    ensures Reads(d, Body(path, e), Flat(path, e), path)
    decreases e, 1
  {
    if ScalarLines(e) == [] {
      NoScalars(path, e);
      forall k | TableKey(e, k) ensures Clear(d, path + [k]) { ClearBelow(d, path, k); }
      TablesRead(d, path, e);
      assert Body(path, e) == TableLines(path, e);
      assert map[] + FlatTables(path, e) == FlatTables(path, e);
    } else {
      HeadedRead(d, path, e);
      var own := [Header(path)] + ScalarLines(e);
      var mid := Read(d, own).value;
      TablesStayClear(d, mid, path, e);
      TablesRead(mid, path, e);
      ReadsBoth(d, own, TableLines(path, e), FlatScalars(path, e), FlatTables(path, e), path, path, path);
    }
  }

  lemma HeadedRead<V>(d: Doc<V>, path: Path, e: Entries<V>)
    requires Keyed(e) && Clear(d, path)
    ensures Reads(d, [Header(path)] + ScalarLines(e), FlatScalars(path, e), path)
    ensures Read(d, [Header(path)] + ScalarLines(e)).value.headers == d.headers + {path}
  {
    var entered := d.(current := path, headers := d.headers + {path});
    ClearBelow(d, path, "");
    forall k | ScalarKey(e, k) ensures MayAssign(entered, path + [k]) { ClearBelow(d, path, k); }
    ScalarsAreRead(entered, path, e);
    var own := [Header(path)] + ScalarLines(e);
    assert own[0] == Header(path) && own[1..] == ScalarLines(e);
  }

  /** Reading the printed document succeeds and gives the flattened payload. */
  lemma DocumentRead<V>(e: Entries<V>)
    requires Keyed(e)
    ensures ReadAll(Document(e)).Some? && ReadAll(Document(e)).value.leaves == Flat([], e)
  {
    var d := Doc([], {}, map[]);
    ScalarsAreRead(d, [], e);
    var mid := d.(leaves := map[] + FlatScalars([], e));
    forall k | TableKey(e, k) ensures Clear(mid, [] + [k]) {
      forall l | l in mid.leaves ensures !([k] <= l) && !(l <= [k]) {
        ScalarKeyOf([], e, l);
        KeyKinds(e, k);
        OtherKey([], k, l[0]);
        OtherKey([], l[0], k);
      }
    }
    TablesRead(mid, [], e);
    ReadConcat(d, ScalarLines(e), TableLines([], e));
    assert map[] + FlatScalars([], e) == FlatScalars([], e);
  }

  // ----- the flattened payload is the payload -----

  function Get<V>(m: map<Path, V>, q: Path): Option<V> { if q in m then Some(m[q]) else None }

  lemma Absent<V>(path: Path, e: Entries<V>, q: Path)
    requires path <= q && (|q| == |path| || !HasKey(e, q[|path|]))
    ensures q !in FlatScalars(path, e) && q !in FlatTables(path, e)
  {
    if q in FlatScalars(path, e) { ScalarKeys(path, e, q); }
    if q in FlatTables(path, e) { TableKeys(path, e, q); }
  }

  lemma SkipFirst<V>(path: Path, e: Entries<V>, q: Path)
    requires e.More? && path <= q && |q| > |path| && q[|path|] != e.key
    ensures Get(Flat(path, e), q) == Get(Flat(path, e.rest), q)
  {
    if e.tree.Table? && q in Flat(path + [e.key], e.tree.entries) {
      FlatKeys(path + [e.key], e.tree.entries, q);
      UnderStep(path, e.key, q);
    }
    assert q != path + [e.key];
  }

  lemma {:induction false} FlatIsLookup<V>(path: Path, e: Entries<V>, rel: Path)
    requires Keyed(e)
    ensures Get(Flat(path, e), path + rel) == Lookup(e, rel)
    decreases e
  {
    var q := path + rel;
    if e.Nil? || rel == [] {
      Absent(path, e, q);
    } else if rel[0] != e.key {
      SkipFirst(path, e, q);
      FlatIsLookup(path, e.rest, rel);
    } else {
      Absent(path, e.rest, q);
      if e.tree.Table? {
        assert path + [e.key] + rel[1..] == q;
        FlatIsLookup(path + [e.key], e.tree.entries, rel[1..]);
      } else if e.tree.Leaf? {
        assert q == path + [e.key] <==> |rel| == 1;
      }
    }
  }

  /**
   The round trip by lines. Reading what was printed succeeds, so no header and no key is given twice; and at every
   path it finds what the payload holds there: each value under its own table, and nothing for nulls and empty
   tables.
   */
  lemma PrintedReadsBack<V>(e: Entries<V>, path: Path)
    requires Keyed(e)
    ensures ReadAll(Document(e)).Some? && Get(ReadAll(Document(e)).value.leaves, path) == Lookup(e, path)
  {
    DocumentRead(e);
    FlatIsLookup([], e, path);
    assert [] + path == path;
  }
}
