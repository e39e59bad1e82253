/** Group-relative advantages: rewards centred and scaled by the unbiased deviation, with exact arithmetic. */
module Advantages {
  import opened Basics
  import opened Objective
  import opened Reals

  const EPSILON: real := 0.000001

  const TOLERANCE: real := 0.00000001

  ghost predicate Root(sqrt: real -> real) {
    forall x :: x >= 0.0 ==> sqrt(x) >= 0.0 && sqrt(x) * sqrt(x) == x
  }

  function Mean(rewards: seq<real>): real
    requires rewards != []
  {
    Sum(rewards) / |rewards| as real
  }

  function Deviations(rewards: seq<real>): seq<real>
    requires rewards != []
  {
    seq(|rewards|, i requires 0 <= i < |rewards| => rewards[i] - Mean(rewards))
  }

  function Squares(s: seq<real>): real { if s == [] then 0.0 else Squares(s[..|s| - 1]) + s[|s| - 1] * s[|s| - 1] }

  function Variance(rewards: seq<real>): real
    requires |rewards| >= 2
  {
    Squares(Deviations(rewards)) / (|rewards| - 1) as real
  }

  function Scaled(s: seq<real>, d: real): seq<real>
    requires d != 0.0
  {
    seq(|s|, i requires 0 <= i < |s| => s[i] / d)
  }

  lemma {:induction false} SquaresNotNegative(s: seq<real>)
    ensures Squares(s) >= 0.0
  {
    if s != [] { SquaresNotNegative(s[..|s| - 1]); }
  }

  lemma VarianceNotNegative(rewards: seq<real>)
    requires |rewards| >= 2
    ensures Variance(rewards) >= 0.0
  {
    SquaresNotNegative(Deviations(rewards));
  }

  /** A group of fewer than two is refused. */
  function GroupAdvantages(sqrt: real -> real, rewards: seq<real>, normalize: bool): Option<seq<real>>
    requires Root(sqrt)
  {
    if |rewards| < 2 then None
    else if !normalize then Some(Deviations(rewards))
    else
      VarianceNotNegative(rewards);
      Some(Scaled(Deviations(rewards), sqrt(Variance(rewards)) + EPSILON))
  }

  predicate IsZeroGroup(advantages: seq<real>) {
    forall i :: 0 <= i < |advantages| ==> AbsR(advantages[i]) <= TOLERANCE
  }

  // ----- sums -----

  lemma {:induction false} SumShifted(s: seq<real>, t: seq<real>, shift: real)
    requires |s| == |t| && forall i :: 0 <= i < |s| ==> t[i] == s[i] - shift
    ensures Sum(t) == Sum(s) - |s| as real * shift
  {
    if s != [] {
      var last := |s| - 1;
      SumShifted(s[..last], t[..last], shift);
      assert |s| as real * shift == last as real * shift + shift;
    }
  }

  lemma {:induction false} SumScaled(s: seq<real>, d: real)
    requires d != 0.0
    ensures Sum(Scaled(s, d)) == Sum(s) / d
  {
    if s != [] {
      var last := |s| - 1;
      SumScaled(s[..last], d);
      assert Scaled(s, d)[..last] == Scaled(s[..last], d);
      Quotients(Sum(s[..last]), s[last], d);
    }
  }

  lemma SquarePositive(d: real)
    ensures d * d >= 0.0 && (d != 0.0 ==> d * d > 0.0)
    ensures -1.0 <= d <= 1.0 ==> d * d <= 1.0
  {
    Product(AbsR(d), AbsR(d));
    assert d < 0.0 ==> AbsR(d) * AbsR(d) == (-d) * (-d) == d * d;
    if -1.0 <= d <= 1.0 {
      Product(1.0 - d, 1.0 + d);
      assert (1.0 - d) * (1.0 + d) == 1.0 - d * d;
    }
  }

  lemma OneSquare(x: real, d: real, e: real)
    requires d != 0.0 && e > 0.0 && e == d * d
    ensures (x / d) * (x / d) == (x * x) / e
  {
    var y, q := x / d, (x * x) / e;
    Quotient(x, d);
    Quotient(x * x, e);
    assert (y * y) * e == (y * d) * (y * d);
    Cancel(y * y, q, e);
  }

  lemma {:induction false} SquaresScaled(s: seq<real>, d: real, e: real)
    requires d != 0.0 && e > 0.0 && e == d * d
    ensures Squares(Scaled(s, d)) == Squares(s) / e
  {
    if s != [] {
      var last := |s| - 1;
      SquaresScaled(s[..last], d, e);
      assert Scaled(s, d)[..last] == Scaled(s[..last], d);
      OneSquare(s[last], d, e);
      Quotients(Squares(s[..last]), s[last] * s[last], e);
    }
  }

  lemma DeviationsSumZero(rewards: seq<real>)
    requires rewards != []
    ensures Sum(Deviations(rewards)) == 0.0
  {
    SumShifted(rewards, Deviations(rewards), Mean(rewards));
    assert |rewards| as real * Mean(rewards) == Sum(rewards);
  }

  /** The advantages of every group sum to zero. */
  lemma AdvantagesSumZero(sqrt: real -> real, rewards: seq<real>, normalize: bool)
    requires Root(sqrt) && |rewards| >= 2
    ensures Sum(GroupAdvantages(sqrt, rewards, normalize).value) == 0.0
  {
    DeviationsSumZero(rewards);
    if normalize {
      VarianceNotNegative(rewards);
      SumScaled(Deviations(rewards), sqrt(Variance(rewards)) + EPSILON);
    }
  }

  lemma SquareStrict(a: real, b: real)
    requires 0.0 <= b < a
    ensures b * b < a * a
  {
    Product(a - b, a + b);
    assert (a - b) * (a + b) == a * a - b * b;
  }

  lemma Below(q: real, root: real, n: real, d: real) returns (e: real)
    requires root >= 0.0 && n > 0.0 && d > root && q == root * root * n
    ensures e == d * d && e > 0.0 && q / e < n
  {
    e := d * d;
    SquareStrict(d, root);
    SquareStrict(d, 0.0);
    BelowQuotient(root * root, e, n);
  }

  lemma BelowQuotient(r: real, e: real, n: real)
    requires 0.0 <= r < e && n > 0.0
    ensures r * n / e < n
  {
    Quotient(r * n, e);
    Product(e - r, n);
    assert (e - r) * n == e * n - r * n;
    assert n * e == e * n;
    Cancel(n, r * n / e, e);
  }

  /** Their squares sum to less than `n - 1`: the guard against division by zero only ever shrinks them. */
  lemma SquaresBelow(sqrt: real -> real, rewards: seq<real>)
    requires Root(sqrt) && |rewards| >= 2
    ensures Squares(GroupAdvantages(sqrt, rewards, true).value) < (|rewards| - 1) as real
  {
    var v := Variance(rewards);
    VarianceNotNegative(rewards);
    VarianceIsMean(rewards);
    var d := sqrt(v) + EPSILON;
    var e := Below(Squares(Deviations(rewards)), sqrt(v), (|rewards| - 1) as real, d);
    SquaresScaled(Deviations(rewards), d, e);
  }

  lemma VarianceIsMean(rewards: seq<real>)
    requires |rewards| >= 2
    ensures Squares(Deviations(rewards)) == Variance(rewards) * (|rewards| - 1) as real
  {
  }

  // ----- groups without signal -----

  ghost predicate AllEqual(s: seq<real>) { forall i, j :: 0 <= i < |s| && 0 <= j < |s| ==> s[i] == s[j] }

  ghost predicate Binary(s: seq<real>) { forall i :: 0 <= i < |s| ==> s[i] == 0.0 || s[i] == 1.0 }

  lemma {:induction false} SumBounds(s: seq<real>, low: real, high: real)
    requires forall i :: 0 <= i < |s| ==> low <= s[i] <= high
    ensures |s| as real * low <= Sum(s) <= |s| as real * high
  {
    if s != [] {
      var last := |s| - 1;
      SumBounds(s[..last], low, high);
      assert |s| as real * low == last as real * low + low && |s| as real * high == last as real * high + high;
    }
  }

  lemma MeanBounds(rewards: seq<real>, low: real, high: real)
    requires rewards != [] && forall i :: 0 <= i < |rewards| ==> low <= rewards[i] <= high
    ensures low <= Mean(rewards) <= high
  {
    var n, m := |rewards| as real, Mean(rewards);
    SumBounds(rewards, low, high);
    assert m * n == Sum(rewards);
    Cancel(m, high, n);
    Cancel(low, m, n);
  }

  // ----- exactly which groups are skipped -----

  /** What deviations are divided by. */
  function Divisor(sqrt: real -> real, rewards: seq<real>, normalize: bool): real
    requires |rewards| >= 2
  {
    if normalize then sqrt(Variance(rewards)) + EPSILON else 1.0
  }

  /** The part of the divisor that does not depend on the rewards. */
  function Guard(normalize: bool): real { if normalize then EPSILON else 1.0 }

  /** Every reward is within the tolerance, in units of the divisor, of the mean. */
  ghost predicate Close(sqrt: real -> real, rewards: seq<real>, normalize: bool)
    requires |rewards| >= 2
  {
    forall i :: 0 <= i < |rewards| ==> AbsR(rewards[i] - Mean(rewards)) <= TOLERANCE * Divisor(sqrt, rewards, normalize)
  }

  lemma QuotientWithin(x: real, d: real, t: real)
    requires d > 0.0
    ensures AbsR(x / d) <= t <==> AbsR(x) <= t * d
  {
    var y := x / d;
    assert y * d == x;
    assert AbsR(y) * d == AbsR(x);
    Cancel(AbsR(y), t, d);
    assert AbsR(y) <= t ==> AbsR(y) * d <= t * d;
  }

  lemma DivisorPositive(sqrt: real -> real, rewards: seq<real>, normalize: bool)
    requires Root(sqrt) && |rewards| >= 2
    ensures Divisor(sqrt, rewards, normalize) >= Guard(normalize) > 0.0
  {
    VarianceNotNegative(rewards);
  }

  /**
   For every group, of any rewards, normalised or not: it is skipped if and only if its rewards are close to their
   mean.
   */
  lemma ZeroIffClose(sqrt: real -> real, rewards: seq<real>, normalize: bool)
    requires Root(sqrt) && |rewards| >= 2
    ensures IsZeroGroup(GroupAdvantages(sqrt, rewards, normalize).value) <==> Close(sqrt, rewards, normalize)
  {
    var a, d := GroupAdvantages(sqrt, rewards, normalize).value, Divisor(sqrt, rewards, normalize);
    DivisorPositive(sqrt, rewards, normalize);
    forall i | 0 <= i < |rewards|
      ensures AbsR(a[i]) <= TOLERANCE <==> AbsR(rewards[i] - Mean(rewards)) <= TOLERANCE * d
    {
      QuotientWithin(rewards[i] - Mean(rewards), d, TOLERANCE);
      assert Deviations(rewards)[i] == rewards[i] - Mean(rewards);
    }
  }

  lemma EqualIsClose(sqrt: real -> real, rewards: seq<real>, normalize: bool)
    requires Root(sqrt) && |rewards| >= 2 && AllEqual(rewards)
    ensures Close(sqrt, rewards, normalize)
  {
    MeanBounds(rewards, rewards[0], rewards[0]);
    DivisorPositive(sqrt, rewards, normalize);
  }

  // ----- which way, and by how much -----

  /** The advantages are as far apart as the rewards, in units of the divisor, and in the same direction. */
  ghost predicate Apart(a: seq<real>, rewards: seq<real>, d: real) {
    |a| == |rewards| && forall i, j :: 0 <= i < |a| && 0 <= j < |a| ==> (a[i] - a[j]) * d == rewards[i] - rewards[j]
  }

  lemma OneAdvantage(sqrt: real -> real, rewards: seq<real>, normalize: bool, i: nat)
    requires Root(sqrt) && |rewards| >= 2 && i < |rewards|
    ensures
      var a := GroupAdvantages(sqrt, rewards, normalize).value;
      |a| == |rewards| && a[i] * Divisor(sqrt, rewards, normalize) == rewards[i] - Mean(rewards)
  {
    var d := Divisor(sqrt, rewards, normalize);
    DivisorPositive(sqrt, rewards, normalize);
    if normalize { Quotient(rewards[i] - Mean(rewards), d); }
  }

  lemma Difference(x: real, y: real, d: real)
    ensures (x - y) * d == x * d - y * d
  {
  }

  lemma AdvantagesApart(sqrt: real -> real, rewards: seq<real>, normalize: bool)
    requires Root(sqrt) && |rewards| >= 2
    ensures Apart(GroupAdvantages(sqrt, rewards, normalize).value, rewards, Divisor(sqrt, rewards, normalize))
  {
    var a, d := GroupAdvantages(sqrt, rewards, normalize).value, Divisor(sqrt, rewards, normalize);
    OneAdvantage(sqrt, rewards, normalize, 0);
    forall i | 0 <= i < |a| ensures a[i] * d == rewards[i] - Mean(rewards) {
      OneAdvantage(sqrt, rewards, normalize, i);
    }
    CentredIsApart(a, rewards, d, Mean(rewards));
  }

  lemma CentredIsApart(a: seq<real>, rewards: seq<real>, d: real, m: real)
    requires |a| == |rewards| && forall i :: 0 <= i < |a| ==> a[i] * d == rewards[i] - m
    ensures Apart(a, rewards, d)
  {
    forall i, j | 0 <= i < |a| && 0 <= j < |a| ensures (a[i] - a[j]) * d == rewards[i] - rewards[j] {
      Difference(a[i], a[j], d);
    }
  }

  /**
   A better reward has the larger advantage, and only then; and the best ones are pushed up, the worst ones down.
   */
  lemma BetterIsHigher(sqrt: real -> real, rewards: seq<real>, normalize: bool, i: nat, j: nat)
    requires Root(sqrt) && |rewards| >= 2 && i < |rewards| && j < |rewards|
    ensures
      var a := GroupAdvantages(sqrt, rewards, normalize).value;
      a[i] < a[j] <==> rewards[i] < rewards[j]
  {
    var a, d := GroupAdvantages(sqrt, rewards, normalize).value, Divisor(sqrt, rewards, normalize);
    AdvantagesApart(sqrt, rewards, normalize);
    DivisorPositive(sqrt, rewards, normalize);
    SameSign(a[j] - a[i], rewards[j] - rewards[i], d);
  }

  lemma SameSign(x: real, y: real, d: real)
    requires d > 0.0 && x * d == y
    ensures x > 0.0 <==> y > 0.0
  {
    Cancel(x, 0.0, d);
  }

  /** Sum and distances leave no choice: only one list of advantages has both. */
  lemma AdvantagesAreFixed(sqrt: real -> real, rewards: seq<real>, normalize: bool, a: seq<real>)
    requires Root(sqrt) && |rewards| >= 2 && |a| == |rewards|
    ensures GroupAdvantages(sqrt, rewards, normalize) == Some(a)
      <==> Sum(a) == 0.0 && Apart(a, rewards, Divisor(sqrt, rewards, normalize))
  {
    AdvantagesSumZero(sqrt, rewards, normalize);
    AdvantagesApart(sqrt, rewards, normalize);
    DivisorPositive(sqrt, rewards, normalize);
    if Sum(a) == 0.0 && Apart(a, rewards, Divisor(sqrt, rewards, normalize)) {
      SameAdvantages(a, GroupAdvantages(sqrt, rewards, normalize).value, rewards, Divisor(sqrt, rewards, normalize));
    }
  }

  lemma SameAdvantages(a: seq<real>, b: seq<real>, rewards: seq<real>, d: real)
    requires d > 0.0 && rewards != [] && Apart(a, rewards, d) && Apart(b, rewards, d) && Sum(a) == Sum(b)
    ensures a == b
  {
    var shift, n := a[0] - b[0], |a| as real;
    forall i | 0 <= i < |a| ensures b[i] == a[i] - shift {
      assert (a[i] - a[0]) * d == (b[i] - b[0]) * d;
      Cancel(a[i] - a[0], b[i] - b[0], d);
    }
    SumShifted(a, b, shift);
    Cancel(shift, 0.0, n);
  }

  // ----- the divisor -----

  /** The sum of the squared differences between a value and each of a list. */
  function SquaredFrom(x: real, s: seq<real>): real {
    if s == [] then 0.0 else SquaredFrom(x, s[..|s| - 1]) + (x - s[|s| - 1]) * (x - s[|s| - 1])
  }

  /** The sum of the squared differences between each of one list and each of another. */
  function SquaredBetween(xs: seq<real>, s: seq<real>): real {
    if xs == [] then 0.0 else SquaredBetween(xs[..|xs| - 1], s) + SquaredFrom(xs[|xs| - 1], s)
  }

  /** `n` times a value, one after another. */
  function Multiple(n: nat, x: real): real { if n == 0 then 0.0 else Multiple(n - 1, x) + x }

  lemma {:induction false} MultipleIsProduct(n: nat, x: real)
    ensures Multiple(n, x) == n as real * x
  {
    if n > 0 {
      MultipleIsProduct(n - 1, x);
      assert n as real * x == (n - 1) as real * x + x;
    }
  }

  /** Each value's share: its square as often as there are values in the other list, and the squares of those. */
  function Shares(xs: seq<real>, s: seq<real>): real {
    if xs == [] then 0.0
    else Shares(xs[..|xs| - 1], s) + Share(xs[|xs| - 1], s)
  }

  function Share(x: real, s: seq<real>): real { Multiple(|s|, x * x) + Squares(s) }

  lemma {:induction false} SharesSum(xs: seq<real>, s: seq<real>)
    ensures Shares(xs, s) == Multiple(|s|, Squares(xs)) + Multiple(|xs|, Squares(s))
  {
    if xs == [] {
      MultipleOfZero(|s|);
    } else {
      var front, x := xs[..|xs| - 1], xs[|xs| - 1];
      SharesSum(front, s);
      MultipleAdds(|s|, Squares(front), x * x);
      assert Squares(xs) == Squares(front) + x * x;
    }
  }

  lemma {:induction false} MultipleOfZero(n: nat)
    ensures Multiple(n, 0.0) == 0.0
  {
    if n > 0 { MultipleOfZero(n - 1); }
  }

  lemma {:induction false} MultipleAdds(n: nat, x: real, y: real)
    ensures Multiple(n, x + y) == Multiple(n, x) + Multiple(n, y)
  {
    if n > 0 { MultipleAdds(n - 1, x, y); }
  }

  lemma Square(x: real, y: real)
    ensures (x - y) * (x - y) == x * x - 2.0 * x * y + y * y
  {
  }

  /** Twice the sum of the products of a value with each of a list. */
  function Products(x: real, s: seq<real>): real {
    if s == [] then 0.0 else Products(x, s[..|s| - 1]) + 2.0 * x * s[|s| - 1]
  }

  lemma {:induction false} ProductsSum(x: real, s: seq<real>)
    ensures Products(x, s) == 2.0 * x * Sum(s)
  {
    if s != [] {
      ProductsSum(x, s[..|s| - 1]);
      Distributed(2.0 * x, Sum(s[..|s| - 1]), s[|s| - 1]);
    }
  }

  lemma Distributed(x: real, y: real, z: real)
    ensures x * (y + z) == x * y + x * z
  {
  }

  lemma {:induction false} FromExpands(x: real, s: seq<real>)
    ensures SquaredFrom(x, s) == Multiple(|s|, x * x) - Products(x, s) + Squares(s)
  {
    if s != [] {
      FromExpands(x, s[..|s| - 1]);
      Square(x, s[|s| - 1]);
    }
  }

  lemma {:induction false} BetweenCentred(xs: seq<real>, s: seq<real>)
    requires Sum(s) == 0.0
    ensures SquaredBetween(xs, s) == Shares(xs, s)
  {
    if xs != [] {
      BetweenCentred(xs[..|xs| - 1], s);
      FromCentred(xs[|xs| - 1], s);
    }
  }

  lemma FromCentred(x: real, s: seq<real>)
    requires Sum(s) == 0.0
    ensures SquaredFrom(x, s) == Share(x, s)
  {
    FromExpands(x, s);
    NoProducts(x, s);
  }

  lemma NoProducts(x: real, s: seq<real>)
    requires Sum(s) == 0.0
    ensures Products(x, s) == 0.0
  {
    ProductsSum(x, s);
    NoProduct(2.0 * x, Sum(s));
  }

  lemma NoProduct(x: real, y: real)
    requires y == 0.0
    ensures x * y == 0.0
  {
  }

  lemma {:induction false} BetweenShifted(xs: seq<real>, ys: seq<real>, s: seq<real>, t: seq<real>, shift: real)
    requires |xs| == |ys| && forall i :: 0 <= i < |xs| ==> ys[i] == xs[i] - shift
    requires |s| == |t| && forall i :: 0 <= i < |s| ==> t[i] == s[i] - shift
    ensures SquaredBetween(ys, t) == SquaredBetween(xs, s)
  {
    if xs != [] {
      var last := |xs| - 1;
      BetweenShifted(xs[..last], ys[..last], s, t, shift);
      FromShifted(xs[last], s, ys[last], t, shift);
    }
  }

  lemma {:induction false} FromShifted(x: real, s: seq<real>, y: real, t: seq<real>, shift: real)
    requires |s| == |t| && y == x - shift && forall i :: 0 <= i < |s| ==> t[i] == s[i] - shift
    ensures SquaredFrom(y, t) == SquaredFrom(x, s)
  {
    if s != [] {
      var last := |s| - 1;
      FromShifted(x, s[..last], y, t[..last], shift);
      assert y - t[last] == x - s[last];
    }
  }

  lemma Regrouped(root: real, v: real, n: real, squares: real)
    requires root * root == v && squares == v * (n - 1.0)
    ensures root * root * (n * (n - 1.0)) == n * squares
  {
    assert v * (n * (n - 1.0)) == n * (v * (n - 1.0));
  }

  /**
   The divisor of a normalised group is the unbiased deviation and the guard: its square, for each of the `n (n - 1)`
   ordered pairs, comes to half the sum of the squared differences of all pairs, with no mean in it.
   */
  lemma DivisorIsDeviation(sqrt: real -> real, rewards: seq<real>) returns (deviation: real)
    requires Root(sqrt) && |rewards| >= 2
    ensures Divisor(sqrt, rewards, true) == deviation + 0.000001 && Divisor(sqrt, rewards, false) == 1.0
    ensures deviation >= 0.0 && deviation * deviation * Pairs(|rewards|) == SquaredBetween(rewards, rewards) / 2.0
  {
    var t := Deviations(rewards);
    deviation := sqrt(Variance(rewards));
    VarianceNotNegative(rewards);
    VarianceIsMean(rewards);
    DeviationsSumZero(rewards);
    BetweenCentred(t, t);
    SharesSum(t, t);
    MultipleIsProduct(|t|, Squares(t));
    BetweenShifted(rewards, t, rewards, t, Mean(rewards));
    Regrouped(deviation, Variance(rewards), |rewards| as real, Squares(t));
  }

  /** The ordered pairs of different places. */
  function Pairs(n: nat): real { n as real * (n as real - 1.0) }

  /**
   Exactly when the test is right about a group: it says "no signal" of equal rewards, always, and of
   other rewards unless one of them is further from the mean than the tolerance.
   */
  lemma TestIsRightIff(sqrt: real -> real, rewards: seq<real>, normalize: bool)
    requires Root(sqrt) && |rewards| >= 2
    ensures
      var reach := TOLERANCE * Divisor(sqrt, rewards, normalize);
      var far := exists i :: 0 <= i < |rewards| && AbsR(rewards[i] - Mean(rewards)) > reach;
      (IsZeroGroup(GroupAdvantages(sqrt, rewards, normalize).value) <==> AllEqual(rewards)) <==>
        (AllEqual(rewards) || far)
  {
    ZeroIffClose(sqrt, rewards, normalize);
    if AllEqual(rewards) { EqualIsClose(sqrt, rewards, normalize); }
  }

  // ----- and by how far they are apart -----

  function Highest(s: seq<real>): real
    requires s != []
  {
    if |s| == 1 then s[0] else MaxR(Highest(s[..|s| - 1]), s[|s| - 1])
  }

  function Lowest(s: seq<real>): real
    requires s != []
  {
    if |s| == 1 then s[0] else MinR(Lowest(s[..|s| - 1]), s[|s| - 1])
  }

  function Spread(s: seq<real>): real
    requires s != []
  {
    Highest(s) - Lowest(s)
  }

  lemma {:induction false} SpreadHolds(s: seq<real>) returns (i: nat, j: nat)
    requires s != []
    ensures forall k :: 0 <= k < |s| ==> Lowest(s) <= s[k] <= Highest(s)
    ensures i < |s| && j < |s| && s[i] == Highest(s) && s[j] == Lowest(s)
  {
    if |s| == 1 {
      i, j := 0, 0;
    } else {
      var last := |s| - 1;
      i, j := SpreadHolds(s[..last]);
      i := if s[i] <= s[last] then last else i;
      j := if s[last] <= s[j] then last else j;
    }
  }

  lemma SpreadOfEqual(s: seq<real>)
    requires s != []
    ensures Spread(s) >= 0.0 && (Spread(s) == 0.0 <==> AllEqual(s))
  {
    var i, j := SpreadHolds(s);
    if Spread(s) == 0.0 {
      assert forall k :: 0 <= k < |s| ==> s[k] == Lowest(s);
    }
  }

  lemma SquareOrder(a: real, b: real)
    requires -b <= a <= b
    ensures a * a <= b * b
  {
    Product(b - a, b + a);
    assert (b - a) * (b + a) == b * b - a * a;
  }

  lemma {:induction false} SquaresBounded(s: seq<real>, b: real)
    requires forall i :: 0 <= i < |s| ==> -b <= s[i] <= b
    ensures Squares(s) <= |s| as real * (b * b)
  {
    if s != [] {
      var last := |s| - 1;
      SquaresBounded(s[..last], b);
      SquareOrder(s[last], b);
      assert |s| as real * (b * b) == last as real * (b * b) + b * b;
    }
  }

  lemma DeviationsWithinSpread(rewards: seq<real>)
    requires rewards != []
    ensures forall k :: 0 <= k < |rewards| ==> -Spread(rewards) <= Deviations(rewards)[k] <= Spread(rewards)
  {
    var i, j := SpreadHolds(rewards);
    MeanBounds(rewards, Lowest(rewards), Highest(rewards));
  }

  lemma VarianceBelow(q: real, v: real, n: real, ss: real)
    requires n >= 1.0 && ss >= 0.0 && q == v * n && q <= (n + 1.0) * ss
    ensures v <= 2.0 * ss
  {
    Product(n - 1.0, ss);
    assert (n - 1.0) * ss == n * ss - ss;
    assert (n + 1.0) * ss == n * ss + ss;
    assert v * n <= (2.0 * ss) * n;
    Cancel(v, 2.0 * ss, n);
  }

  lemma RootBelow(r: real, w: real)
    requires r >= 0.0 && w >= 0.0 && r * r <= 2.0 * (w * w)
    ensures r <= 2.0 * w
  {
    var u := 2.0 * w;
    assert u * u == 4.0 * (w * w);
    SquarePositive(w);
    if u < r { SquareStrict(r, u); }
  }

  /** The deviation is at most twice the spread. */
  lemma RootWithinSpread(sqrt: real -> real, rewards: seq<real>)
    requires Root(sqrt) && |rewards| >= 2
    ensures 0.0 <= sqrt(Variance(rewards)) <= 2.0 * Spread(rewards)
  {
    var w, v := Spread(rewards), Variance(rewards);
    SpreadOfEqual(rewards);
    VarianceNotNegative(rewards);
    DeviationsWithinSpread(rewards);
    SquaresBounded(Deviations(rewards), w);
    VarianceIsMean(rewards);
    SquarePositive(w);
    VarianceBelow(Squares(Deviations(rewards)), v, (|rewards| - 1) as real, w * w);
    RootBelow(sqrt(v), w);
  }

  /** Some reward is at least half the spread from the mean. */
  lemma HalfSpreadAway(rewards: seq<real>) returns (k: nat)
    requires rewards != []
    ensures k < |rewards| && AbsR(rewards[k] - Mean(rewards)) >= Spread(rewards) / 2.0
  {
    var i, j := SpreadHolds(rewards);
    k := if rewards[i] - Mean(rewards) >= Spread(rewards) / 2.0 then i else j;
  }

  /**
   What a caller can read off the rewards themselves: a spread of at most the tolerance in units of the guard is
   taken for none, one of more than three times that never is. Between the two, `ZeroIffClose` decides.
   */
  lemma SpreadDecides(sqrt: real -> real, rewards: seq<real>, normalize: bool)
    requires Root(sqrt) && |rewards| >= 2
    ensures var skipped := IsZeroGroup(GroupAdvantages(sqrt, rewards, normalize).value);
      && (Spread(rewards) <= TOLERANCE * Guard(normalize) ==> skipped)
      && (Spread(rewards) > 3.0 * (TOLERANCE * Guard(normalize)) ==> !skipped)
  {
    var w, d := Spread(rewards), Divisor(sqrt, rewards, normalize);
    ZeroIffClose(sqrt, rewards, normalize);
    DivisorPositive(sqrt, rewards, normalize);
    DeviationsWithinSpread(rewards);
    if w <= TOLERANCE * Guard(normalize) {
      forall i | 0 <= i < |rewards| ensures AbsR(rewards[i] - Mean(rewards)) <= TOLERANCE * d {
        assert Deviations(rewards)[i] == rewards[i] - Mean(rewards);
      }
    } else if w > 3.0 * (TOLERANCE * Guard(normalize)) {
      var k := HalfSpreadAway(rewards);
      RootWithinSpread(sqrt, rewards);
      assert TOLERANCE * d < w / 2.0;
    }
  }

  // ----- 0/1 rewards, and a family that is skipped -----

  /** For 0/1 rewards, a group is skipped exactly when all its rewards are equal, however large the group is. */
  lemma ZeroIffEqual(sqrt: real -> real, rewards: seq<real>, normalize: bool)
    requires Root(sqrt) && |rewards| >= 2 && Binary(rewards)
    ensures IsZeroGroup(GroupAdvantages(sqrt, rewards, normalize).value) <==> AllEqual(rewards)
  {
    var i, j := SpreadHolds(rewards);
    SpreadOfEqual(rewards);
    SpreadDecides(sqrt, rewards, normalize);
  }

  /** With other rewards the test can miss a difference: a spread far below the guard is taken for none. */
  lemma TinySpreadIsSkipped(sqrt: real -> real, rewards: seq<real>, normalize: bool)
    requires Root(sqrt) && |rewards| >= 2 && 0.0 < Spread(rewards) <= TOLERANCE * Guard(normalize)
    ensures !AllEqual(rewards) && IsZeroGroup(GroupAdvantages(sqrt, rewards, normalize).value)
  {
    SpreadOfEqual(rewards);
    SpreadDecides(sqrt, rewards, normalize);
  }

  /** One such group, whatever its spread below the bound. */
  lemma TinyTriple(sqrt: real -> real, d: real)
    requires Root(sqrt) && 0.0 < d <= 0.000000000000001
    ensures var rewards := [-d, 0.0, d]; !AllEqual(rewards) && IsZeroGroup(GroupAdvantages(sqrt, rewards, true).value)
  {
    var rewards := [-d, 0.0, d];
    var i, j := SpreadHolds(rewards);
    assert rewards[0] == -d && rewards[2] == d;
    TinySpreadIsSkipped(sqrt, rewards, true);
  }

  // ----- segments -----

  /** The weights of a trajectory's segments: its advantage in equal parts. */
  function Parts(advantage: real, segments: nat): seq<real>
    requires segments > 0
  {
    seq(segments, i => advantage * (1.0 / segments as real))
  }

  function Weights(advantages: seq<real>, segments: seq<nat>): seq<real>
    requires |advantages| == |segments| && forall i :: 0 <= i < |segments| ==> segments[i] > 0
  {
    if advantages == [] then []
    else
      var last := |advantages| - 1;
      Weights(advantages[..last], segments[..last]) + Parts(advantages[last], segments[last])
  }

  lemma {:induction false} SumConcat(a: seq<real>, b: seq<real>)
    ensures Sum(a + b) == Sum(a) + Sum(b)
  {
    if b == [] {
      assert a + b == a;
    } else {
      var last := |b| - 1;
      SumConcat(a, b[..last]);
      assert (a + b)[..|a + b| - 1] == a + b[..last];
    }
  }

  lemma {:induction false} SumConstant(n: nat, x: real)
    ensures Sum(seq(n, i => x)) == n as real * x
  {
    if n > 0 {
      SumConstant(n - 1, x);
      assert seq(n, i => x)[..n - 1] == seq(n - 1, i => x);
      assert n as real * x == (n - 1) as real * x + x;
    }
  }

  lemma PartsSum(advantage: real, segments: nat)
    requires segments > 0
    ensures Sum(Parts(advantage, segments)) == advantage
  {
    var x, n := advantage * (1.0 / segments as real), segments as real;
    SumConstant(segments, x);
    assert Parts(advantage, segments) == seq(segments, i => x);
    assert (1.0 / n) * n == 1.0;
    assert n * (advantage * (1.0 / n)) == advantage * ((1.0 / n) * n);
  }

  lemma {:induction false} WeightsSum(advantages: seq<real>, segments: seq<nat>)
    requires |advantages| == |segments| && forall i :: 0 <= i < |segments| ==> segments[i] > 0
    ensures Sum(Weights(advantages, segments)) == Sum(advantages)
  {
    if advantages != [] {
      var last := |advantages| - 1;
      WeightsSum(advantages[..last], segments[..last]);
      PartsSum(advantages[last], segments[last]);
      SumConcat(Weights(advantages[..last], segments[..last]), Parts(advantages[last], segments[last]));
    }
  }

  /** The number of segments of the first `j` trajectories. */
  function SegmentsBefore(segments: seq<nat>, j: nat): nat
    requires j <= |segments|
  {
    if j == 0 then 0 else SegmentsBefore(segments, j - 1) + segments[j - 1]
  }

  lemma {:induction false} WeightsLength(advantages: seq<real>, segments: seq<nat>)
    requires |advantages| == |segments| && forall i :: 0 <= i < |segments| ==> segments[i] > 0
    ensures |Weights(advantages, segments)| == SegmentsBefore(segments, |segments|)
  {
    if advantages != [] {
      var last := |advantages| - 1;
      WeightsLength(advantages[..last], segments[..last]);
      SamePrefix(segments, last, last);
    }
  }

  lemma {:induction false} SamePrefix(segments: seq<nat>, n: nat, j: nat)
    requires j <= n <= |segments|
    ensures SegmentsBefore(segments[..n], j) == SegmentsBefore(segments, j)
  {
    if j > 0 { SamePrefix(segments, n, j - 1); }
  }

  /** The weights of a trajectory stand in its place in the batch, one for each segment, all the same part. */
  lemma {:induction false} WeightsAreShares(advantages: seq<real>, segments: seq<nat>, j: nat, k: nat)
    requires |advantages| == |segments| && forall i :: 0 <= i < |segments| ==> segments[i] > 0
    requires j < |advantages| && k < segments[j]
    ensures
      var w, place := Weights(advantages, segments), SegmentsBefore(segments, j) + k;
      place < |w| && w[place] * segments[j] as real == advantages[j]
  {
    var last := |advantages| - 1;
    WeightsLength(advantages[..last], segments[..last]);
    SamePrefix(segments, last, last);
    if j == last {
      OnePart(advantages[j], segments[j], k);
    } else {
      SamePrefix(segments, last, j);
      WeightsAreShares(advantages[..last], segments[..last], j, k);
    }
  }

  lemma OnePart(advantage: real, segments: nat, k: nat)
    requires k < segments
    ensures |Parts(advantage, segments)| == segments && Parts(advantage, segments)[k] * segments as real == advantage
  {
    var n := segments as real;
    assert (1.0 / n) * n == 1.0;
    assert advantage * (1.0 / n) * n == advantage * ((1.0 / n) * n);
  }

  /** However many segments each trajectory has, the weights of a trained batch sum to zero. */
  lemma BatchWeightsSumZero(sqrt: real -> real, rewards: seq<real>, normalize: bool, segments: seq<nat>)
    requires Root(sqrt) && |rewards| >= 2 && |segments| == |rewards|
    requires forall i :: 0 <= i < |segments| ==> segments[i] > 0
    ensures Sum(Weights(GroupAdvantages(sqrt, rewards, normalize).value, segments)) == 0.0
  {
    AdvantagesSumZero(sqrt, rewards, normalize);
    WeightsSum(GroupAdvantages(sqrt, rewards, normalize).value, segments);
  }
}
