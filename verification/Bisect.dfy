/** The binary search over page lengths, for any test of whether a length fits. */
module Bisect {

  /** The next probe. */
  function Middle(low: nat, high: int): (count: nat)
    requires low <= high
    ensures low <= count <= high
  {
    (low + high) / 2
  }

  /** The last probe that fitted between `low` and `high`; `best` when none did. */
  function Search(fits: nat -> bool, low: nat, high: int, best: nat): nat
    requires 1 <= low
    decreases high - low + 1
  {
    if low > high then best
    else
      var count := Middle(low, high);
      if fits(count) then Search(fits, count + 1, high, count) else Search(fits, low, count - 1, best)
  }

  /** The full length if it fits, else the search below it; 0 when nothing was found. */
  function Chosen(fits: nat -> bool, maximum: nat): nat {
    if maximum == 0 || fits(maximum) then maximum else Search(fits, 1, maximum - 1, 0)
  }

  lemma {:induction false} SearchFindsBoundary(fits: nat -> bool, low: nat, high: int, best: nat)
    requires 1 <= low <= high + 1
    requires best == low - 1 && (best > 0 ==> fits(best)) && !fits(high + 1)
    ensures
      var n := Search(fits, low, high, best);
      best <= n <= high && (n > 0 ==> fits(n)) && !fits(n + 1)
    decreases high - low + 1
  {
    if low <= high {
      var count := Middle(low, high);
      if fits(count) {
        SearchFindsBoundary(fits, count + 1, high, count);
      } else {
        SearchFindsBoundary(fits, low, count - 1, best);
      }
    }
  }

  /**
   Whatever the test: the length chosen fits, one more (if allowed) does not, and nothing is
   found only when length one does not fit.
   */
  lemma ChosenIsBoundary(fits: nat -> bool, maximum: nat)
    ensures
      var n := Chosen(fits, maximum);
      && n <= maximum
      && (n > 0 ==> fits(n))
      && (n < maximum ==> !fits(n + 1))
  {
    if maximum > 0 && !fits(maximum) {
      SearchFindsBoundary(fits, 1, maximum - 1, 0);
    }
  }

  /** Below the maximum, a length that fits has only fitting lengths under it. */
  ghost predicate DownwardClosed(fits: nat -> bool, maximum: nat) {
    forall m: nat, n: nat :: 1 <= m <= n < maximum && fits(n) ==> fits(m)
  }

  /** For a downward closed test the chosen length is the longest that fits. */
  lemma ChosenIsLongest(fits: nat -> bool, maximum: nat)
    requires DownwardClosed(fits, maximum)
    ensures forall m: nat :: Chosen(fits, maximum) < m <= maximum ==> !fits(m)
  {
    var n := Chosen(fits, maximum);
    ChosenIsBoundary(fits, maximum);
    var next: nat := n + 1;
    forall m: nat | n < m <= maximum ensures !fits(m) {
      assert m < maximum ==> (fits(m) ==> fits(next));
    }
  }

  // ----- exactly when the longest is found -----

  /** The test against a limit, where `sizes[n]` is the size of length `n`. */
  function Under(sizes: seq<nat>, limit: int): nat -> bool { (n: nat) => n < |sizes| && sizes[n] <= limit }

  function Least(a: nat, b: nat): nat { if a <= b then a else b }

  function Most(a: nat, b: nat): nat { if a <= b then b else a }

  /** No limit from `floor` to below `ceil` has room for a length beyond `count`. */
  ghost predicate NoneBeyond(sizes: seq<nat>, count: nat, high: int, floor: nat, ceil: nat)
    requires high < |sizes|
  {
    forall m :: count < m <= high ==> ceil <= Most(floor, sizes[m])
  }

  /**
   No length is hidden from the search between `low` and `high`. The limits that lead the search there are those
   from `floor` (the probes that fitted) to below `ceil` (those that did not). A limit below the size of the
   next probe gives up everything longer, so none of that may be under such a limit.
   */
  ghost predicate NoneHidden(sizes: seq<nat>, low: nat, high: int, floor: nat, ceil: nat)
    requires 1 <= low && high < |sizes|
    decreases high - low + 1
  {
    low <= high ==>
      var count := Middle(low, high);
      && NoneBeyond(sizes, count, high, floor, Least(ceil, sizes[count]))
      && NoneHidden(sizes, low, count - 1, floor, Least(ceil, sizes[count]))
      && NoneHidden(sizes, count + 1, high, Most(floor, sizes[count]), ceil)
  }

  ghost predicate NoRoom(sizes: seq<nat>, count: nat, high: int, limit: int)
    requires high < |sizes|
  {
    forall m :: count < m <= high ==> limit < sizes[m]
  }

  /** What the search finds between `low` and `high` is the longest there. */
  ghost predicate FindsLongest(sizes: seq<nat>, low: nat, high: int, limit: int)
    requires 1 <= low && high < |sizes|
  {
    NoRoom(sizes, Search(Under(sizes, limit), low, high, low - 1), high, limit)
  }

  lemma BeyondHasNoRoom(sizes: seq<nat>, count: nat, high: int, floor: nat, ceil: nat, limit: int)
    requires high < |sizes| && NoneBeyond(sizes, count, high, floor, ceil) && floor <= limit < ceil
    ensures NoRoom(sizes, count, high, limit)
  {
  }

  lemma RoomBeyond(sizes: seq<nat>, count: nat, high: int, floor: nat, ceil: nat) returns (limit: nat)
    requires high < |sizes| && !NoneBeyond(sizes, count, high, floor, ceil)
    ensures floor <= limit < ceil && !NoRoom(sizes, count, high, limit)
  {
    var m :| count < m <= high && Most(floor, sizes[m]) < ceil;
    limit := Most(floor, sizes[m]);
  }

  lemma {:induction false} SearchBelow(fits: nat -> bool, low: nat, high: int)
    requires 1 <= low <= high + 1
    ensures low - 1 <= Search(fits, low, high, low - 1) <= high
    decreases high - low + 1
  {
    if low <= high {
      var count := Middle(low, high);
      if fits(count) {
        SearchBelow(fits, count + 1, high);
      } else {
        SearchBelow(fits, low, count - 1);
      }
    }
  }

  /** A probe that fits leaves the right half. */
  lemma ProbeFits(sizes: seq<nat>, low: nat, high: int, limit: int)
    requires 1 <= low <= high < |sizes| && sizes[Middle(low, high)] <= limit
    ensures FindsLongest(sizes, low, high, limit) <==> FindsLongest(sizes, Middle(low, high) + 1, high, limit)
  {
    assert Under(sizes, limit)(Middle(low, high));
  }

  /** A probe that does not fit leaves the left half, and gives up what is longer. */
  lemma ProbeFails(sizes: seq<nat>, low: nat, high: int, limit: int)
    requires 1 <= low <= high < |sizes| && limit < sizes[Middle(low, high)]
    ensures FindsLongest(sizes, low, high, limit) <==>
      FindsLongest(sizes, low, Middle(low, high) - 1, limit) && NoRoom(sizes, Middle(low, high), high, limit)
  {
    var count := Middle(low, high);
    var n := Search(Under(sizes, limit), low, count - 1, low - 1);
    SearchBelow(Under(sizes, limit), low, count - 1);
    assert !Under(sizes, limit)(count);
    assert Search(Under(sizes, limit), low, high, low - 1) == n <= count - 1;
    RoomSplits(sizes, n, count, high, limit);
  }

  lemma RoomSplits(sizes: seq<nat>, n: nat, count: nat, high: int, limit: int)
    requires n < count <= high < |sizes| && limit < sizes[count]
    ensures NoRoom(sizes, n, high, limit) <==> NoRoom(sizes, n, count - 1, limit) && NoRoom(sizes, count, high, limit)
  {
  }

  lemma {:induction false} NoneHiddenFinds(sizes: seq<nat>, low: nat, high: int, floor: nat, ceil: nat, limit: int)
    requires 1 <= low <= high + 1 <= |sizes| && NoneHidden(sizes, low, high, floor, ceil) && floor <= limit < ceil
    ensures FindsLongest(sizes, low, high, limit)
    decreases high - low + 1
  {
    if low <= high {
      var count := Middle(low, high);
      if sizes[count] <= limit {
        NoneHiddenFinds(sizes, count + 1, high, Most(floor, sizes[count]), ceil, limit);
        ProbeFits(sizes, low, high, limit);
      } else {
        NoneHiddenFinds(sizes, low, count - 1, floor, Least(ceil, sizes[count]), limit);
        BeyondHasNoRoom(sizes, count, high, floor, Least(ceil, sizes[count]), limit);
        ProbeFails(sizes, low, high, limit);
      }
    }
  }

  /** A hidden length and a limit that hides it. */
  lemma {:induction false} HiddenMisses(sizes: seq<nat>, low: nat, high: int, floor: nat, ceil: nat)
    returns (limit: nat)
    requires 1 <= low <= high + 1 <= |sizes| && !NoneHidden(sizes, low, high, floor, ceil)
    ensures floor <= limit < ceil && !FindsLongest(sizes, low, high, limit)
    decreases high - low + 1, 1
  {
    var count := Middle(low, high);
    if !NoneHidden(sizes, count + 1, high, Most(floor, sizes[count]), ceil) {
      limit := HiddenMisses(sizes, count + 1, high, Most(floor, sizes[count]), ceil);
      ProbeFits(sizes, low, high, limit);
    } else {
      limit := LeftMisses(sizes, low, high, floor, ceil);
    }
  }

  lemma {:induction false} LeftMisses(sizes: seq<nat>, low: nat, high: int, floor: nat, ceil: nat) returns (limit: nat)
    requires 1 <= low <= high < |sizes|
    requires
      || !NoneHidden(sizes, low, Middle(low, high) - 1, floor, Least(ceil, sizes[Middle(low, high)]))
      || !NoneBeyond(sizes, Middle(low, high), high, floor, Least(ceil, sizes[Middle(low, high)]))
    ensures floor <= limit < ceil && !FindsLongest(sizes, low, high, limit)
    decreases high - low + 1, 0
  {
    var count := Middle(low, high);
    var left := Least(ceil, sizes[count]);
    if !NoneHidden(sizes, low, count - 1, floor, left) {
      limit := HiddenMisses(sizes, low, count - 1, floor, left);
    } else {
      limit := RoomBeyond(sizes, count, high, floor, left);
    }
    ProbeFails(sizes, low, high, limit);
  }

  /** The chosen length is the longest that fits under the limit. */
  ghost predicate ChoosesLongest(sizes: seq<nat>, limit: int)
    requires sizes != []
  {
    NoRoom(sizes, Chosen(Under(sizes, limit), |sizes| - 1), |sizes| - 1, limit)
  }

  /** No length at all, from one to the last, is hidden from the search. */
  ghost predicate NothingHidden(sizes: seq<nat>)
    requires sizes != []
  {
    var maximum := |sizes| - 1;
    NoneHidden(sizes, 1, maximum - 1, 0, sizes[maximum])
  }

  lemma EasyLimit(sizes: seq<nat>, limit: int)
    requires sizes != [] && (|sizes| == 1 || limit < 0 || sizes[|sizes| - 1] <= limit)
    ensures ChoosesLongest(sizes, limit)
  {
    if |sizes| > 1 && sizes[|sizes| - 1] <= limit {
      assert Under(sizes, limit)(|sizes| - 1);
    }
  }

  /** Once the full length does not fit, the choice is the search's. */
  lemma BelowMaximum(sizes: seq<nat>, limit: int)
    requires |sizes| > 1 && limit < sizes[|sizes| - 1]
    ensures ChoosesLongest(sizes, limit) <==> FindsLongest(sizes, 1, |sizes| - 2, limit)
  {
    var maximum := |sizes| - 1;
    SearchBelow(Under(sizes, limit), 1, maximum - 1);
    assert Chosen(Under(sizes, limit), maximum) == Search(Under(sizes, limit), 1, maximum - 1, 0);
  }

  lemma NothingHiddenChooses(sizes: seq<nat>, limit: int)
    requires sizes != [] && NothingHidden(sizes)
    ensures ChoosesLongest(sizes, limit)
  {
    if |sizes| == 1 || limit < 0 || sizes[|sizes| - 1] <= limit {
      EasyLimit(sizes, limit);
    } else {
      NoneHiddenFinds(sizes, 1, |sizes| - 2, 0, sizes[|sizes| - 1], limit);
      BelowMaximum(sizes, limit);
    }
  }

  lemma HiddenIsMissed(sizes: seq<nat>) returns (limit: nat)
    requires sizes != [] && !NothingHidden(sizes)
    ensures !ChoosesLongest(sizes, limit)
  {
    limit := HiddenMisses(sizes, 1, |sizes| - 2, 0, sizes[|sizes| - 1]);
    BelowMaximum(sizes, limit);
  }

  /** The search finds the longest length under every limit if and only if no length is hidden from it. */
  lemma LongestIffNothingHidden(sizes: seq<nat>)
    requires sizes != []
    ensures NothingHidden(sizes) <==> forall limit :: ChoosesLongest(sizes, limit)
  {
    if NothingHidden(sizes) {
      forall limit ensures ChoosesLongest(sizes, limit) {
        NothingHiddenChooses(sizes, limit);
      }
    } else {
      var limit := HiddenIsMissed(sizes);
    }
  }

  ghost predicate Grows(sizes: seq<nat>, from: nat, to: int)
    requires to < |sizes|
  {
    forall m, n :: from <= m <= n <= to ==> sizes[m] <= sizes[n]
  }

  lemma GrowthBeyond(sizes: seq<nat>, from: nat, to: int, count: nat, high: int, floor: nat, ceil: nat)
    requires to < |sizes| && Grows(sizes, from, to) && from <= count <= high <= to && ceil <= sizes[count]
    ensures NoneBeyond(sizes, count, high, floor, ceil)
  {
    forall m | count < m <= high ensures ceil <= Most(floor, sizes[m]) {
      assert sizes[count] <= sizes[m];
    }
  }

  /** Lengths of growing size hide nothing. */
  lemma {:induction false} GrowthHidesNone(
      sizes: seq<nat>, from: nat, to: int, low: nat, high: int, floor: nat, ceil: nat)
    requires 1 <= from <= low && high <= to < |sizes| && Grows(sizes, from, to)
    ensures NoneHidden(sizes, low, high, floor, ceil)
    decreases high - low + 1
  {
    if low <= high {
      var count := Middle(low, high);
      GrowthHidesNone(sizes, from, to, low, count - 1, floor, Least(ceil, sizes[count]));
      GrowthHidesNone(sizes, from, to, count + 1, high, Most(floor, sizes[count]), ceil);
      GrowthBeyond(sizes, from, to, count, high, floor, Least(ceil, sizes[count]));
    }
  }

  lemma OneLength(sizes: seq<nat>, k: nat, floor: nat, ceil: nat)
    requires 1 <= k < |sizes|
    ensures NoneHidden(sizes, k, k, floor, ceil)
  {
    assert Middle(k, k) == k;
  }

  /** Of two lengths, the longer is hidden when its size is below that of the shorter. */
  lemma TwoLengths(sizes: seq<nat>, k: nat, floor: nat, ceil: nat)
    requires 1 <= k < |sizes| - 1
    ensures NoneHidden(sizes, k, k + 1, floor, ceil) <==> Least(ceil, sizes[k]) <= Most(floor, sizes[k + 1])
  {
    assert Middle(k, k + 1) == k;
    OneLength(sizes, k + 1, Most(floor, sizes[k]), ceil);
    assert NoneBeyond(sizes, k, k + 1, floor, Least(ceil, sizes[k])) <==>
      Least(ceil, sizes[k]) <= Most(floor, sizes[k + 1]);
  }

  ghost predicate Agree(a: nat -> bool, b: nat -> bool, from: nat, to: int) {
    forall n: nat :: from <= n <= to ==> a(n) == b(n)
  }

  /** Tests that agree choose the same. */
  lemma {:induction false} SameSearch(
      a: nat -> bool, b: nat -> bool, from: nat, to: int, low: nat, high: int, best: nat)
    requires 1 <= from <= low && high <= to && Agree(a, b, from, to)
    ensures Search(a, low, high, best) == Search(b, low, high, best)
    decreases high - low + 1
  {
    if low <= high {
      var count := Middle(low, high);
      assert a(count) == b(count);
      if a(count) {
        SameSearch(a, b, from, to, count + 1, high, count);
      } else {
        SameSearch(a, b, from, to, low, count - 1, best);
      }
    }
  }
}
