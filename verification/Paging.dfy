/**
 Byte-bounded keyset pages. A page carries the length of its own JSON text, so its size is a
 fixed point; the number of rows is found by binary search over exact page sizes.
 A row is its ordering key together with its JSON text, which this model does not look into.
 */
module Paging {
  import opened Basics
  import opened Digits
  import Bisect

  datatype Row = Row(key: string, text: string)

  datatype Page = Page(items: seq<Row>, nextKey: Option<string>, truncated: bool, bytes: nat)

  /**
   What a request fixes: how the last key becomes the continuation, and the page's JSON text up to
   the value of its last field, `bytes`, for given rows, continuation and truncation flag.
   */
  datatype Frame = Frame(continuation: string -> string, head: (seq<Row>, Option<string>, bool) -> string)

  datatype PageError = DuplicateKey | StaleCursor | EnvelopeTooLarge | RowTooLarge

  const MAX_ROWS: nat := 100

  function Serialize(f: Frame, p: Page): string {
    f.head(p.items, p.nextKey, p.truncated) + Decimal(p.bytes) + "}"
  }

  function NextKey(f: Frame, rows: seq<Row>, more: bool): Option<string> {
    if more && rows != [] then Some(f.continuation(rows[|rows| - 1].key)) else None
  }

  /** The page before its size is known. */
  function Draft(f: Frame, rows: seq<Row>, more: bool): Page {
    Page(rows, NextKey(f, rows, more), more, 0)
  }

  /** The length of the page's text without the digits of `bytes`. */
  function BaseSize(f: Frame, rows: seq<Row>, more: bool): nat {
    |f.head(rows, NextKey(f, rows, more), more)| + 1
  }

  // ----- the fixed point -----

  /** An upper bound for every size the loop visits. */
  function Ceiling(base: nat): nat { 2 * base + 2 }

  lemma CeilingHolds(base: nat, b: nat)
    requires b <= Ceiling(base)
    ensures base + |Decimal(b)| <= Ceiling(base)
  {
    DecimalMonotone(b, Ceiling(base));
    DecimalShort(Ceiling(base));
  }

  /** The size reached by writing the size into the page again and again, starting from `b`. */
  function Settle(base: nat, b: nat): nat
    requires b <= base + |Decimal(b)|
    requires b <= Ceiling(base)
    decreases Ceiling(base) - b
  {
    var size := base + |Decimal(b)|;
    if size == b then b
    else
      CeilingHolds(base, b);
      DecimalMonotone(b, size);
      Settle(base, size)
  }

  /** The settled size agrees with itself and is the first that does. */
  lemma {:induction false} SettleIsLeast(base: nat, b: nat)
    requires b <= base + |Decimal(b)|
    requires b <= Ceiling(base)
    ensures var r := Settle(base, b);
      r == base + |Decimal(r)| && forall c: nat :: b <= c < r ==> c != base + |Decimal(c)|
    decreases Ceiling(base) - b
  {
    var size := base + |Decimal(b)|;
    if size != b {
      CeilingHolds(base, b);
      DecimalMonotone(b, size);
      SettleIsLeast(base, size);
      forall c: nat | b <= c < size ensures c != base + |Decimal(c)| {
        DecimalMonotone(b, c);
      }
    }
  }

  /** The settled size is below every size that has room for its own digits. */
  lemma {:induction false} SettleBelow(base: nat, b: nat, room: nat)
    requires b <= base + |Decimal(b)|
    requires b <= Ceiling(base)
    requires b <= room && base + |Decimal(room)| <= room
    ensures Settle(base, b) <= room
    decreases Ceiling(base) - b
  {
    var size := base + |Decimal(b)|;
    DecimalMonotone(b, room);
    if size != b {
      CeilingHolds(base, b);
      DecimalMonotone(b, size);
      SettleBelow(base, size, room);
    }
  }

  /** A longer page reports more bytes. */
  lemma SettleStrictlyMonotone(base: nat, larger: nat)
    requires base < larger
    ensures Settle(base, 0) < Settle(larger, 0)
  {
    SettleIsLeast(base, 0);
    SettleIsLeast(larger, 0);
    SettleBelow(base, 0, Settle(larger, 0));
  }

  function Size(f: Frame, rows: seq<Row>, more: bool): nat {
    Settle(BaseSize(f, rows, more), 0)
  }

  function Assembled(f: Frame, rows: seq<Row>, more: bool): Page {
    Draft(f, rows, more).(bytes := Size(f, rows, more))
  }

  /**
   A page counts its own text exactly, and no smaller count would be right. The second clause
   matters: with 8 other characters both 9 and 10 are counts that agree with themselves.
   */
  lemma BytesAreExact(f: Frame, rows: seq<Row>, more: bool)
    ensures
      var p := Assembled(f, rows, more);
      && p.bytes == |Serialize(f, p)|
      && forall b: nat :: b < p.bytes ==> b != |Serialize(f, p.(bytes := b))|
  {
    var p := Assembled(f, rows, more);
    SettleIsLeast(BaseSize(f, rows, more), 0);
    forall b: nat
      ensures |Serialize(f, p.(bytes := b))| == BaseSize(f, rows, more) + |Decimal(b)|
    {
    }
    assert p == p.(bytes := p.bytes);
  }

  method MakePage(f: Frame, rows: seq<Row>, more: bool) returns (page: Page)
    ensures page == Assembled(f, rows, more)
  {
    page := Draft(f, rows, more);
    ghost var base := BaseSize(f, rows, more);
    while true
      invariant page == Draft(f, rows, more).(bytes := page.bytes)
      invariant page.bytes <= base + |Decimal(page.bytes)|
      invariant page.bytes <= Ceiling(base)
      invariant Settle(base, page.bytes) == Settle(base, 0)
      decreases Ceiling(base) - page.bytes
    {
      var size := |Serialize(f, page)|;
      if size == page.bytes {
        return;
      }
      CeilingHolds(base, page.bytes);
      DecimalMonotone(page.bytes, size);
      page := page.(bytes := size);
    }
  }

  // ----- the number of rows -----

  /** Whether the page of the first `n` of the remaining rows is within the limit. */
  function Fits(f: Frame, remaining: seq<Row>, limit: int): nat -> bool {
    (n: nat) => n <= |remaining| && Size(f, remaining[..n], n < |remaining|) <= limit
  }

  function Maximum(remaining: seq<Row>): nat { if |remaining| < MAX_ROWS then |remaining| else MAX_ROWS }

  function RowCount(f: Frame, remaining: seq<Row>, limit: int): (n: nat)
    ensures n <= |remaining|
  {
    Bisect.ChosenIsBoundary(Fits(f, remaining, limit), Maximum(remaining));
    Bisect.Chosen(Fits(f, remaining, limit), Maximum(remaining))
  }

  function Keys(items: seq<Row>): seq<string> {
    seq(|items|, i requires 0 <= i < |items| => items[i].key)
  }

  function IndexOf(keys: seq<string>, key: string): (i: nat)
    requires key in keys
    ensures i < |keys| && keys[i] == key && key !in keys[..i]
  {
    if keys[0] == key then 0
    else
      assert keys == [keys[0]] + keys[1..];
      var i := IndexOf(keys[1..], key);
      assert keys[..i + 1] == [keys[0]] + keys[1..][..i];
      i + 1
  }

  function Remaining(items: seq<Row>, after: Option<string>): seq<Row>
    requires after.Some? ==> after.value in Keys(items)
  {
    if after.None? then items else items[IndexOf(Keys(items), after.value) + 1..]
  }

  /** What a page request returns, case by case. */
  ghost function Answer(f: Frame, items: seq<Row>, after: Option<string>, limit: int): Result<Page, PageError> {
    if !Distinct(Keys(items)) then Err(DuplicateKey)
    else if after.Some? && after.value !in Keys(items) then Err(StaleCursor)
    else if Size(f, [], false) > limit then Err(EnvelopeTooLarge)
    else
      var remaining := Remaining(items, after);
      var n := RowCount(f, remaining, limit);
      if n == 0 && remaining != [] then Err(RowTooLarge)
      else Ok(Assembled(f, remaining[..n], n < |remaining|))
  }

  lemma {:induction false} SetOfKeys(keys: seq<string>)
    ensures |set k | k in keys| <= |keys|
    ensures |set k | k in keys| == |keys| <==> Distinct(keys)
  {
    if keys == [] {
      assert (set k | k in keys) == {};
    } else {
      var last := |keys| - 1;
      SetOfKeys(keys[..last]);
      assert keys == keys[..last] + [keys[last]];
      assert (set k | k in keys) == (set k | k in keys[..last]) + {keys[last]};
      if keys[last] in keys[..last] {
        assert (set k | k in keys) == (set k | k in keys[..last]);
      }
    }
  }

  method BuildPage(f: Frame, items: seq<Row>, after: Option<string>, limit: int)
    returns (r: Result<Page, PageError>)
    ensures r == Answer(f, items, after, limit)
  {
    var keys := Keys(items);
    SetOfKeys(keys);
    if |set k | k in keys| != |keys| {
      return Err(DuplicateKey);
    }
    if after.Some? && after.value !in keys {
      return Err(StaleCursor);
    }
    var start := if after.None? then 0 else IndexOf(keys, after.value) + 1;
    var envelope := MakePage(f, [], false);
    if envelope.bytes > limit {
      return Err(EnvelopeTooLarge);
    }
    var remaining := items[start..];
    assert remaining == Remaining(items, after);
    if remaining == [] {
      assert remaining[..0] == [];
      return Ok(envelope);
    }
    r := CutPage(f, remaining, limit);
  }

  /** The part of the request that decides how many of the remaining rows go on the page. */
  method CutPage(f: Frame, remaining: seq<Row>, limit: int) returns (r: Result<Page, PageError>)
    requires remaining != []
    ensures
      var n := RowCount(f, remaining, limit);
      r == if n == 0 then Err(RowTooLarge) else Ok(Assembled(f, remaining[..n], n < |remaining|))
  {
    ghost var fits := Fits(f, remaining, limit);
    var maximum := Min(MAX_ROWS, |remaining|);
    var candidate := MakePage(f, remaining[..maximum], maximum < |remaining|);
    assert fits(maximum) == (candidate.bytes <= limit);
    if candidate.bytes <= limit {
      return Ok(candidate);
    }
    var best := SearchPage(f, remaining, limit, maximum, fits);
    r := if best.None? then Err(RowTooLarge) else Ok(best.value);
  }

  /** The probes below `maximum`; every such prefix carries a continuation. */
  method SearchPage(f: Frame, remaining: seq<Row>, limit: int, maximum: nat, ghost fits: nat -> bool)
    returns (best: Option<Page>)
    requires 1 <= maximum <= |remaining|
    requires forall n: nat {:trigger Assembled(f, remaining[..n], true)} :: n < maximum ==>
      fits(n) == (Assembled(f, remaining[..n], true).bytes <= limit)
    ensures
      var n := Bisect.Search(fits, 1, maximum - 1, 0);
      n < maximum && best == if n == 0 then None else Some(Assembled(f, remaining[..n], true))
  {
    var low, high := 1, maximum - 1;
    best := None;
    ghost var found: nat := 0;
    ghost var goal := Bisect.Search(fits, low, high, found);
    while low <= high
      invariant 1 <= low && 0 <= high < maximum
      invariant Bisect.Search(fits, low, high, found) == goal
      invariant 0 <= found < maximum
      invariant best == if found == 0 then None else Some(Assembled(f, remaining[..found], true))
      decreases high - low + 1
    {
      var count := (low + high) / 2;
      var candidate := MakePage(f, remaining[..count], true);
      if candidate.bytes <= limit {
        best, found := Some(candidate), count;
        low := count + 1;
      } else {
        high := count - 1;
      }
    }
  }

  // ----- what a page is -----

  /**
   Every page is within the limit by its own exact count, holds between one and a hundred of the
   remaining rows in order, says whether rows are left, and could not have taken one row more;
   a refusal means that the one-row page is over the limit.
   */
  lemma PageIsTight(f: Frame, remaining: seq<Row>, limit: int)
    requires remaining != []
    ensures
      var n := RowCount(f, remaining, limit);
      var page := Assembled(f, remaining[..n], n < |remaining|);
      && n <= 100
      && (n == 0 ==> !Fits(f, remaining, limit)(1))
      && (n > 0 ==> page.bytes == |Serialize(f, page)| <= limit)
      && (n > 0 && n < |remaining| && n < 100 ==> !Fits(f, remaining, limit)(n + 1))
  {
    var fits := Fits(f, remaining, limit);
    Bisect.ChosenIsBoundary(fits, Maximum(remaining));
    var n := RowCount(f, remaining, limit);
    BytesAreExact(f, remaining[..n], n < |remaining|);
  }

  // ----- when the page is the longest -----

  /** The sizes of the pages of no row up to the most that a page may have. */
  function PageSizes(f: Frame, remaining: seq<Row>): (sizes: seq<nat>)
    ensures |sizes| == Maximum(remaining) + 1
  {
    seq(Maximum(remaining) + 1, n requires 0 <= n <= Maximum(remaining) => Size(f, remaining[..n], n < |remaining|))
  }

  /** No page longer than the one chosen is within the limit. */
  ghost predicate LongestPage(f: Frame, remaining: seq<Row>, limit: int) {
    forall m: nat :: RowCount(f, remaining, limit) < m <= Maximum(remaining) ==> !Fits(f, remaining, limit)(m)
  }

  lemma FitsIsUnder(f: Frame, remaining: seq<Row>, limit: int)
    ensures LongestPage(f, remaining, limit) <==> Bisect.ChoosesLongest(PageSizes(f, remaining), limit)
  {
    var fits, under := Fits(f, remaining, limit), Bisect.Under(PageSizes(f, remaining), limit);
    var maximum: int := Maximum(remaining);
    forall n: nat | n <= maximum ensures fits(n) == under(n) && (under(n) <==> PageSizes(f, remaining)[n] <= limit) {
    }
    Bisect.SameSearch(fits, under, 1, maximum - 1, 1, maximum - 1, 0);
  }

  /**
   The page is the longest that fits, under every limit, if and only if no page is hidden from the search: a
   comparison of the sizes of the pages that can be made before any limit is known.
   */
  lemma PageIsLongest(f: Frame, remaining: seq<Row>)
    ensures Bisect.NothingHidden(PageSizes(f, remaining)) <==> forall limit :: LongestPage(f, remaining, limit)
  {
    var sizes := PageSizes(f, remaining);
    Bisect.LongestIffNothingHidden(sizes);
    forall limit ensures LongestPage(f, remaining, limit) <==> Bisect.ChoosesLongest(sizes, limit) {
      FitsIsUnder(f, remaining, limit);
    }
    if !Bisect.NothingHidden(sizes) {
      var limit :| !Bisect.ChoosesLongest(sizes, limit);
      assert !LongestPage(f, remaining, limit);
    }
  }

  /** Among the pages that carry a continuation, one more row never makes the page smaller. */
  ghost predicate Growing(f: Frame, remaining: seq<Row>) {
    forall n :: 1 <= n && n + 1 < Maximum(remaining) ==>
      BaseSize(f, remaining[..n], true) <= BaseSize(f, remaining[..n + 1], true)
  }

  lemma {:induction false} GrowingSizes(f: Frame, remaining: seq<Row>, m: nat, n: nat)
    requires Growing(f, remaining)
    requires 1 <= m <= n < Maximum(remaining)
    ensures Size(f, remaining[..m], true) <= Size(f, remaining[..n], true)
  {
    if m < n {
      GrowingSizes(f, remaining, m, n - 1);
      assert BaseSize(f, remaining[..n - 1], true) <= BaseSize(f, remaining[..n - 1 + 1], true);
      SizeOrder(f, remaining[..n - 1], true, remaining[..n], true);
    }
  }

  /** When sizes grow, the page is the longest that fits, and a refusal means that no page fits. */
  lemma GrowingPageIsLongest(f: Frame, remaining: seq<Row>, limit: int)
    requires Growing(f, remaining)
    ensures LongestPage(f, remaining, limit)
  {
    var sizes := PageSizes(f, remaining);
    var maximum: int := Maximum(remaining);
    forall m: nat, n: nat | 1 <= m <= n <= maximum - 1 ensures sizes[m] <= sizes[n] {
      GrowingSizes(f, remaining, m, n);
    }
    Bisect.GrowthHidesNone(sizes, 1, maximum - 1, 1, maximum - 1, 0, sizes[maximum]);
    PageIsLongest(f, remaining);
  }

  lemma SizeOrder(f: Frame, a: seq<Row>, moreA: bool, b: seq<Row>, moreB: bool)
    ensures BaseSize(f, a, moreA) < BaseSize(f, b, moreB) <==> Size(f, a, moreA) < Size(f, b, moreB)
    ensures BaseSize(f, a, moreA) <= BaseSize(f, b, moreB) <==> Size(f, a, moreA) <= Size(f, b, moreB)
  {
    var s, t := BaseSize(f, a, moreA), BaseSize(f, b, moreB);
    if s < t {
      SettleStrictlyMonotone(s, t);
    } else if t < s {
      SettleStrictlyMonotone(t, s);
    }
  }

  lemma ThreeSizes(sizes: seq<nat>)
    requires |sizes| == 4
    ensures Bisect.NothingHidden(sizes) <==> !(sizes[2] < sizes[1] && sizes[2] < sizes[3])
  {
    Bisect.TwoLengths(sizes, 1, 0, sizes[3]);
  }

  /** With three rows, missing the longest page means refusing a request that two rows would answer. */
  lemma MissedOfThree(f: Frame, rows: seq<Row>, limit: int)
    requires |rows| == 3
    ensures !LongestPage(f, rows, limit) <==> Fits(f, rows, limit)(2) && RowCount(f, rows, limit) == 0
  {
    Bisect.ChosenIsBoundary(Fits(f, rows, limit), 3);
  }

  /**
   Three rows: there is a limit under which the two-row page fits and the request is refused, if and only if the
   two-row page is smaller than the one-row page and than the page of all three.
   */
  lemma ShrinkingPageIsRefused(f: Frame, rows: seq<Row>)
    requires |rows| == 3
    ensures
      BaseSize(f, rows[..2], true) < BaseSize(f, rows[..1], true)
        && BaseSize(f, rows[..2], true) < BaseSize(f, rows, false)
      <==> exists limit :: Fits(f, rows, limit)(2) && RowCount(f, rows, limit) == 0
  {
    assert rows[..3] == rows;
    SizeOrder(f, rows[..2], true, rows[..1], true);
    SizeOrder(f, rows[..2], true, rows, false);
    ThreeSizes(PageSizes(f, rows));
    PageIsLongest(f, rows);
    forall limit ensures !LongestPage(f, rows, limit) <==> Fits(f, rows, limit)(2) && RowCount(f, rows, limit) == 0 {
      MissedOfThree(f, rows, limit);
    }
  }
}
