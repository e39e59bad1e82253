/**
 Reading a collection of the durable journal page by page. The projection of one job and collection is
 an append-only table of rows ordered by journal sequence and ordinal; a cursor pins a sequence, so a
 walk along cursors reads the table as it was at that sequence, whatever is appended meanwhile.
 */
module Snapshot {
  import opened Basics
  import opened Cursor
  import opened Paging
  import opened PageText
  import Lex

  datatype Entry = Entry(sequence: nat, ordinal: nat, row: Row)

  /** `keyed` collections (artifacts and receipts) show the latest row of each key, in key order. */
  datatype Store = Store(latest: nat, keyed: bool, table: seq<Entry>)

  datatype Request = Request(codec: Codec, job: string, collection: string, schemaVersion: string, limit: int)

  datatype ReadError = CursorRefused | UnknownSequence | PageFailed(error: PageError)

  predicate Before(a: Entry, b: Entry) {
    a.sequence < b.sequence || (a.sequence == b.sequence && a.ordinal < b.ordinal)
  }

  /** Of two entries one comes first, unless they share their place. */
  lemma OneIsBefore(a: Entry, b: Entry)
    ensures !(Before(a, b) && Before(b, a))
    ensures Before(a, b) || Before(b, a) <==> (a.sequence, a.ordinal) != (b.sequence, b.ordinal)
    ensures a.sequence < b.sequence ==> Before(a, b)
  {
  }

  ghost predicate Ordered(t: seq<Entry>) {
    forall i, j :: 0 <= i < j < |t| ==> Before(t[i], t[j])
  }

  ghost predicate Valid(s: Store) {
    Ordered(s.table) && forall i :: 0 <= i < |s.table| ==> s.table[i].sequence <= s.latest
  }

  /** Later journal events only add rows after the rows that were there. */
  ghost predicate Extends(before: Store, later: Store) {
    && Valid(before) && Valid(later) && before.latest <= later.latest && before.keyed == later.keyed
    && before.table <= later.table
    && forall i :: |before.table| <= i < |later.table| ==> later.table[i].sequence > before.latest
  }

  // ----- selection -----

  function Select<T>(t: seq<T>, keep: T -> bool): seq<T> {
    if t == [] then []
    else (if keep(t[0]) then [t[0]] else []) + Select(t[1..], keep)
  }

  lemma {:induction false} SelectConcat<T>(a: seq<T>, b: seq<T>, keep: T -> bool)
    ensures Select(a + b, keep) == Select(a, keep) + Select(b, keep)
  {
    if a == [] {
      assert a + b == b;
    } else {
      assert (a + b)[1..] == a[1..] + b && (a + b)[0] == a[0];
      SelectConcat(a[1..], b, keep);
      Associative(if keep(a[0]) then [a[0]] else [], Select(a[1..], keep), Select(b, keep));
    }
  }

  lemma Associative<T>(x: seq<T>, y: seq<T>, z: seq<T>)
    ensures x + y + z == x + (y + z)
  {
  }

  lemma {:induction false} SelectNone<T>(t: seq<T>, keep: T -> bool)
    requires forall x :: x in t ==> !keep(x)
    ensures Select(t, keep) == []
  {
    if t != [] {
      assert !keep(t[0]);
      SelectNone(t[1..], keep);
    }
  }

  lemma {:induction false} SelectAll<T>(t: seq<T>, keep: T -> bool)
    requires forall x :: x in t ==> keep(x)
    ensures Select(t, keep) == t
  {
    if t != [] {
      assert keep(t[0]);
      SelectAll(t[1..], keep);
      assert t == [t[0]] + t[1..];
    }
  }

  /** A test that rejects a prefix and accepts the rest selects the rest. */
  lemma SelectSuffix<T>(t: seq<T>, p: nat, keep: T -> bool)
    requires p <= |t|
    requires forall x :: x in t[..p] ==> !keep(x)
    requires forall x :: x in t[p..] ==> keep(x)
    ensures Select(t, keep) == t[p..]
  {
    assert t == t[..p] + t[p..];
    SelectConcat(t[..p], t[p..], keep);
    SelectNone(t[..p], keep);
    SelectAll(t[p..], keep);
  }

  lemma {:induction false} SelectTwice<T>(t: seq<T>, first: T -> bool, both: T -> bool, second: T -> bool)
    requires forall x :: both(x) == (first(x) && second(x))
    ensures Select(Select(t, first), second) == Select(t, both)
  {
    if t != [] {
      SelectTwice(t[1..], first, both, second);
      SelectConcat(if first(t[0]) then [t[0]] else [], Select(t[1..], first), second);
    }
  }

  lemma {:induction false} SelectOrdered(t: seq<Entry>, keep: Entry -> bool)
    requires Ordered(t)
    ensures Ordered(Select(t, keep))
    ensures forall e :: e in Select(t, keep) ==> e in t && keep(e)
  {
    if t != [] {
      SelectOrdered(t[1..], keep);
      forall e | e in Select(t[1..], keep) ensures Before(t[0], e) {
        assert e in t[1..];
      }
    }
  }

  // ----- the rows a reader sees -----

  function Visible(s: Store, bound: int): seq<Entry> {
    Select(s.table, (e: Entry) => e.sequence <= bound)
  }

  /** Writes one row into a list kept in ascending key order. */
  function Upsert(rows: seq<Row>, row: Row): seq<Row> {
    if rows == [] || Lex.Less(row.key, rows[0].key) then [row] + rows
    else if row.key == rows[0].key then [row] + rows[1..]
    else [rows[0]] + Upsert(rows[1..], row)
  }

  function LatestRows(t: seq<Entry>): seq<Row> {
    if t == [] then [] else Upsert(LatestRows(t[..|t| - 1]), t[|t| - 1].row)
  }

  function RowsOf(t: seq<Entry>): seq<Row> {
    seq(|t|, i requires 0 <= i < |t| => t[i].row)
  }

  /** The whole collection at a sequence: what a walk must return. */
  function View(s: Store, bound: int): seq<Row> {
    if s.keyed then LatestRows(Visible(s, bound)) else RowsOf(Visible(s, bound))
  }

  function Take(rows: seq<Row>, n: nat): seq<Row> {
    if |rows| <= n then rows else rows[..n]
  }

  const FETCH: nat := 101

  /** The query behind a page: at most 101 rows that follow the key's row. */
  ghost function CollectionRows(s: Store, bound: int, key: Option<string>): Result<seq<Row>, PageError> {
    var visible := Visible(s, bound);
    if !s.keyed && !Distinct(Keys(RowsOf(visible))) then Err(DuplicateKey)
    else if key.None? then Ok(Take(View(s, bound), FETCH))
    else if key.value !in Keys(RowsOf(visible)) then Err(StaleCursor)
    else if s.keyed then
      Ok(Take(Select(View(s, bound), (r: Row) => Lex.Less(key.value, r.key)), FETCH))
    else
      var e := visible[IndexOf(Keys(RowsOf(visible)), key.value)];
      Ok(Take(RowsOf(Select(s.table, (x: Entry) => x.sequence <= bound && Before(e, x))), FETCH))
  }

  ghost function ReadPage(q: Request, s: Store, cursor: Option<string>, at: Option<int>): Result<Page, ReadError> {
    match DecodeCursor(q.codec, s.latest, q.job, q.collection, cursor, at)
    case Err(_) => Err(CursorRefused)
    case Ok((key, bound)) =>
      if !(0 <= bound <= s.latest) then Err(UnknownSequence)
      else
        match CollectionRows(s, bound, key)
        case Err(e) => Err(PageFailed(e))
        case Ok(rows) =>
          match Answer(FrameOf(q.codec, q.schemaVersion, bound, q.job, q.collection), rows, None, q.limit)
          case Err(e) => Err(PageFailed(e))
          case Ok(page) => Ok(page)
  }

  // ----- the view does not change under appends -----

  lemma ViewIsStable(before: Store, later: Store, bound: int)
    requires Extends(before, later) && bound <= before.latest
    ensures Visible(later, bound) == Visible(before, bound) && View(later, bound) == View(before, bound)
  {
    var keep := (e: Entry) => e.sequence <= bound;
    var suffix := later.table[|before.table|..];
    assert later.table == before.table + suffix;
    SelectConcat(before.table, suffix, keep);
    SelectNone(suffix, keep);
  }

  lemma {:induction false} ExtendsRun(stores: seq<Store>, i: nat)
    requires i < |stores|
    requires forall j :: 0 < j < |stores| ==> Extends(stores[j - 1], stores[j])
    requires Valid(stores[0])
    ensures Extends(stores[0], stores[i])
  {
    if i > 0 {
      ExtendsRun(stores, i - 1);
      assert Extends(stores[i - 1], stores[i]);
    }
  }

  // ----- key order in keyed collections -----

  lemma AscendingTail(rows: seq<Row>)
    requires rows != [] && Lex.Ascending(Keys(rows))
    ensures Keys(rows) == [rows[0].key] + Keys(rows[1..])
    ensures Lex.Ascending(Keys(rows[1..]))
    ensures forall k :: k in Keys(rows[1..]) ==> Lex.Less(rows[0].key, k)
  {
    var keys, tail := Keys(rows), Keys(rows[1..]);
    assert forall i :: 0 <= i < |tail| ==> tail[i] == keys[i + 1];
    assert keys[0] == rows[0].key;
  }

  lemma AscendingCons(row: Row, rows: seq<Row>)
    requires Lex.Ascending(Keys(rows))
    requires forall k :: k in Keys(rows) ==> Lex.Less(row.key, k)
    ensures Keys([row] + rows) == [row.key] + Keys(rows)
    ensures Lex.Ascending(Keys([row] + rows))
  {
    assert Keys([row] + rows) == [row.key] + Keys(rows);
  }

  lemma {:induction false} UpsertKeys(rows: seq<Row>, row: Row)
    requires Lex.Ascending(Keys(rows))
    ensures Lex.Ascending(Keys(Upsert(rows, row)))
    ensures forall k :: k in Keys(Upsert(rows, row)) <==> k == row.key || k in Keys(rows)
  {
    if rows == [] {
      AscendingCons(row, rows);
    } else {
      AscendingTail(rows);
      if Lex.Less(row.key, rows[0].key) {
        forall k | k in Keys(rows) ensures Lex.Less(row.key, k) {
          if k != rows[0].key {
            Lex.Transitive(row.key, rows[0].key, k);
          }
        }
        AscendingCons(row, rows);
      } else if row.key == rows[0].key {
        AscendingCons(row, rows[1..]);
      } else {
        Lex.Total(row.key, rows[0].key);
        UpsertKeys(rows[1..], row);
        AscendingCons(rows[0], Upsert(rows[1..], row));
      }
    }
  }

  lemma {:induction false} LatestRowsKeys(t: seq<Entry>)
    ensures Lex.Ascending(Keys(LatestRows(t)))
    ensures forall k :: k in Keys(LatestRows(t)) <==> k in Keys(RowsOf(t))
  {
    if t != [] {
      var last := |t| - 1;
      LatestRowsKeys(t[..last]);
      UpsertKeys(LatestRows(t[..last]), t[last].row);
      assert Keys(RowsOf(t)) == Keys(RowsOf(t[..last])) + [t[last].row.key];
    }
  }

  lemma {:induction false} UpsertRow(rows: seq<Row>, row: Row, k: string, text: string)
    requires Lex.Ascending(Keys(rows))
    ensures Row(k, text) in Upsert(rows, row)
       <==> if k == row.key then text == row.text else Row(k, text) in rows
  {
    Lex.Irreflexive(row.key);
    if rows != [] {
      assert rows == [rows[0]] + rows[1..];
      AscendingTail(rows);
      forall r | r in rows[1..] ensures Lex.Less(rows[0].key, r.key) {
        assert r.key in Keys(rows[1..]) by {
          var i :| 0 <= i < |rows| - 1 && rows[1..][i] == r;
          assert Keys(rows[1..])[i] == r.key;
        }
      }
      if Lex.Less(row.key, rows[0].key) {
        forall r | r in rows ensures r.key != row.key {
          if r in rows[1..] {
            Lex.Transitive(row.key, rows[0].key, r.key);
          }
        }
      } else if row.key != rows[0].key {
        UpsertRow(rows[1..], row, k, text);
      } else {
        forall r | r in rows[1..] ensures r.key != row.key {
          Lex.Asymmetric(rows[0].key, r.key);
        }
      }
    }
  }

  /** The entry at `i` writes this row, and no later one writes its key. */
  ghost predicate WrittenLast(t: seq<Entry>, i: int, k: string, text: string) {
    0 <= i < |t| && t[i].row == Row(k, text) && forall j :: i < j < |t| ==> t[j].row.key != k
  }

  lemma WrittenBefore(t: seq<Entry>, e: Entry, i: int, k: string, text: string)
    requires e.row.key != k
    ensures WrittenLast(t + [e], i, k, text) <==> WrittenLast(t, i, k, text)
  {
    var more := t + [e];
    if WrittenLast(more, i, k, text) {
      assert more[i].row.key == k;
      forall j | i < j < |t| ensures t[j].row.key != k {
        assert more[j] == t[j];
      }
    }
  }

  lemma WrittenNow(t: seq<Entry>, e: Entry, i: int, k: string, text: string)
    requires e.row.key == k
    ensures WrittenLast(t + [e], i, k, text) <==> i == |t| && e.row == Row(k, text)
  {
    var more := t + [e];
    assert more[|t|] == e;
  }

  /** The row shown for a key is the one written last. */
  lemma {:induction false} LatestRowsShowLast(t: seq<Entry>, k: string, text: string)
    ensures Row(k, text) in LatestRows(t) <==> exists i :: WrittenLast(t, i, k, text)
  {
    if t != [] {
      var front, e := t[..|t| - 1], t[|t| - 1];
      assert t == front + [e];
      LatestRowsShowLast(front, k, text);
      LatestRowsKeys(front);
      UpsertRow(LatestRows(front), e.row, k, text);
      if e.row.key == k {
        WrittenNow(front, e, |front|, k, text);
        forall i ensures WrittenLast(t, i, k, text) ==> i == |front| && e.row == Row(k, text) {
          WrittenNow(front, e, i, k, text);
        }
      } else {
        forall i ensures WrittenLast(t, i, k, text) <==> WrittenLast(front, i, k, text) {
          WrittenBefore(front, e, i, k, text);
        }
      }
    }
  }

  // ----- what is seen, by the table alone -----

  /** The first `p` rows of the table are those written up to a sequence. */
  ghost predicate SplitsAt(t: seq<Entry>, bound: int, p: nat) {
    && p <= |t|
    && (forall i :: 0 <= i < p ==> t[i].sequence <= bound)
    && (forall i :: p <= i < |t| ==> t[i].sequence > bound)
  }

  lemma {:induction false} Splits(t: seq<Entry>, bound: int) returns (p: nat)
    requires Ordered(t)
    ensures SplitsAt(t, bound, p)
  {
    p := 0;
    if t != [] {
      var last := |t| - 1;
      p := Splits(t[..last], bound);
      assert forall i :: 0 <= i < last ==> t[..last][i] == t[i];
      if p == last {
        if t[last].sequence <= bound { p := |t|; }
      } else {
        assert t[..last][p] == t[p] && Before(t[p], t[last]);
      }
    }
  }

  lemma VisibleIsPrefix(s: Store, bound: int, p: nat)
    requires SplitsAt(s.table, bound, p)
    ensures Visible(s, bound) == s.table[..p]
  {
    var keep := (e: Entry) => e.sequence <= bound;
    assert s.table == s.table[..p] + s.table[p..];
    SelectConcat(s.table[..p], s.table[p..], keep);
    SelectAll(s.table[..p], keep);
    SelectNone(s.table[p..], keep);
  }

  /** A collection that is not keyed shows the rows written up to the sequence, that one included, in table order. */
  lemma ViewIsPrefix(s: Store, bound: int, p: nat)
    requires !s.keyed && SplitsAt(s.table, bound, p)
    ensures View(s, bound) == RowsOf(s.table[..p])
  {
    VisibleIsPrefix(s, bound, p);
  }

  /** At its latest sequence it shows the whole table. */
  lemma LatestViewIsTable(s: Store)
    requires Valid(s) && !s.keyed
    ensures View(s, s.latest) == RowsOf(s.table)
  {
    ViewIsPrefix(s, s.latest, |s.table|);
    assert s.table[..|s.table|] == s.table;
  }

  /** The entry at `i` writes this row by the sequence, and no later one writes its key by then. */
  ghost predicate LastBy(t: seq<Entry>, bound: int, i: int, k: string, text: string) {
    && 0 <= i < |t| && t[i].row == Row(k, text) && t[i].sequence <= bound
    && forall j :: i < j < |t| && t[j].sequence <= bound ==> t[j].row.key != k
  }

  /**
   A keyed collection shows a row just when it is the last one written for its key by the sequence; in key order.
   */
  lemma KeyedViewShowsLast(s: Store, bound: int, k: string, text: string)
    requires Valid(s) && s.keyed
    ensures Row(k, text) in View(s, bound) <==> exists i :: LastBy(s.table, bound, i, k, text)
    ensures Lex.Ascending(Keys(View(s, bound)))
  {
    var p := Splits(s.table, bound);
    var front := s.table[..p];
    VisibleIsPrefix(s, bound, p);
    LatestRowsShowLast(front, k, text);
    LatestRowsKeys(front);
    forall i ensures LastBy(s.table, bound, i, k, text) <==> WrittenLast(front, i, k, text) {
      if WrittenLast(front, i, k, text) {
        forall j | i < j < |s.table| && s.table[j].sequence <= bound ensures s.table[j].row.key != k {
          assert front[j] == s.table[j];
        }
      }
      if LastBy(s.table, bound, i, k, text) {
        forall j | i < j < |front| ensures front[j].row.key != k {
          assert front[j] == s.table[j];
        }
      }
    }
  }

  // ----- one read -----

  lemma AscendingIsDistinct(keys: seq<string>)
    requires Lex.Ascending(keys)
    ensures Distinct(keys)
  {
    forall i, j | 0 <= i < j < |keys| ensures keys[i] != keys[j] {
      Lex.Irreflexive(keys[i]);
    }
  }

  /** A collection that can be read at all has distinct keys. */
  ghost predicate Readable(s: Store, bound: int) {
    s.keyed || Distinct(Keys(View(s, bound)))
  }

  lemma ViewKeys(s: Store, bound: int)
    requires Readable(s, bound)
    ensures Distinct(Keys(View(s, bound)))
    ensures forall k :: k in Keys(View(s, bound)) <==> k in Keys(RowsOf(Visible(s, bound)))
  {
    if s.keyed {
      LatestRowsKeys(Visible(s, bound));
      AscendingIsDistinct(Keys(View(s, bound)));
    }
  }

  lemma LaterEntries(t: seq<Entry>, i: nat)
    requires Ordered(t) && i < |t|
    ensures Select(t, (x: Entry) => Before(t[i], x)) == t[i + 1..]
  {
    SelectSuffix(t, i + 1, (x: Entry) => Before(t[i], x));
  }

  lemma LaterKeys(rows: seq<Row>, i: nat)
    requires Lex.Ascending(Keys(rows)) && i < |rows|
    ensures Select(rows, (r: Row) => Lex.Less(rows[i].key, r.key)) == rows[i + 1..]
  {
    LaterKeysKept(rows, i, (r: Row) => Lex.Less(rows[i].key, r.key));
  }

  lemma LaterKeysKept(rows: seq<Row>, i: nat, keep: Row -> bool)
    requires Lex.Ascending(Keys(rows)) && i < |rows|
    requires forall r :: keep(r) == Lex.Less(rows[i].key, r.key)
    ensures Select(rows, keep) == rows[i + 1..]
  {
    var keys := Keys(rows);
    forall r | r in rows[..i + 1] ensures !keep(r) {
      var j :| 0 <= j <= i && rows[j] == r;
      assert keys[j] == r.key && keys[i] == rows[i].key;
      if j < i {
        Lex.Asymmetric(keys[j], keys[i]);
      } else {
        Lex.Irreflexive(keys[i]);
      }
    }
    forall r | r in rows[i + 1..] ensures keep(r) {
      var j :| i + 1 <= j < |rows| && rows[j] == r;
      assert Lex.Less(keys[i], keys[j]);
    }
    SelectSuffix(rows, i + 1, keep);
  }

  lemma EntriesAfter(s: Store, bound: int, i: nat)
    requires Valid(s) && i < |Visible(s, bound)|
    ensures var e := Visible(s, bound)[i];
      Select(s.table, (x: Entry) => x.sequence <= bound && Before(e, x)) == Visible(s, bound)[i + 1..]
  {
    var visible := Visible(s, bound);
    var e := visible[i];
    SelectOrdered(s.table, (x: Entry) => x.sequence <= bound);
    SelectTwice(s.table, (x: Entry) => x.sequence <= bound,
      (x: Entry) => x.sequence <= bound && Before(e, x), (x: Entry) => Before(e, x));
    LaterEntries(visible, i);
  }

  lemma EntriesAfterKey(s: Store, bound: int, i: nat)
    requires Valid(s) && Readable(s, bound) && !s.keyed && i < |View(s, bound)|
    ensures CollectionRows(s, bound, Some(View(s, bound)[i].key)) == Ok(Take(View(s, bound)[i + 1..], FETCH))
  {
    var visible, view := Visible(s, bound), View(s, bound);
    assert view[i].key == Keys(view)[i];
    ViewKeys(s, bound);
    assert IndexOf(Keys(RowsOf(visible)), view[i].key) == i;
    EntriesAfter(s, bound, i);
    assert RowsOf(visible[i + 1..]) == view[i + 1..];
  }

  /** The query for the rows after a key is the rest of the view after that key. */
  lemma RowsAfterKey(s: Store, bound: int, i: nat)
    requires Valid(s) && Readable(s, bound) && i < |View(s, bound)|
    ensures CollectionRows(s, bound, Some(View(s, bound)[i].key)) == Ok(Take(View(s, bound)[i + 1..], FETCH))
  {
    if s.keyed {
      assert View(s, bound)[i].key == Keys(View(s, bound))[i];
      LatestRowsKeys(Visible(s, bound));
      LaterKeys(View(s, bound), i);
    } else {
      EntriesAfterKey(s, bound, i);
    }
  }

  /** A page that starts at offset `m` of the view, is not empty unless nothing is left, and says where to go on. */
  ghost predicate Covers(f: Frame, view: seq<Row>, m: nat, n: nat, page: Page) {
    && m + n <= |view| && page.items == view[m..m + n]
    && (m < |view| ==> n > 0)
    && page.truncated == (m + n < |view|)
    && page.nextKey == if m + n < |view| && n > 0 then Some(f.continuation(view[m + n - 1].key)) else None
  }

  /** Cutting a page from the rest of the view at offset `m`: the three outcomes. */
  lemma CutAtOffset(f: Frame, limit: int, view: seq<Row>, m: nat)
    requires Distinct(Keys(view)) && m <= |view|
    ensures
      var rest := Take(view[m..], FETCH);
      var r := Answer(f, rest, None, limit);
      if Size(f, [], false) > limit then r == Err(EnvelopeTooLarge)
      else
        match r
        case Err(e) => e == RowTooLarge && m < |view| && !Fits(f, rest, limit)(1)
        case Ok(page) => exists n: nat :: Covers(f, view, m, n, page)
  {
    var rest := Take(view[m..], FETCH);
    forall i | 0 <= i < |rest| ensures Keys(rest)[i] == Keys(view)[m + i] {
    }
    var n := RowCount(f, rest, limit);
    if rest != [] {
      PageIsTight(f, rest, limit);
    }
    PrefixOfRest(view, m, n);
    if Answer(f, rest, None, limit).Ok? {
      assert Covers(f, view, m, n, Assembled(f, rest[..n], n < |rest|));
    }
  }

  lemma PrefixOfRest(view: seq<Row>, m: nat, n: nat)
    requires m <= |view| && n <= |Take(view[m..], FETCH)| && n <= MAX_ROWS
    ensures
      var rest := Take(view[m..], FETCH);
      && m + n <= |view| && rest[..n] == view[m..m + n] && (n < |rest|) == (m + n < |view|)
      && (rest == []) == (m == |view|)
  {
  }
}
