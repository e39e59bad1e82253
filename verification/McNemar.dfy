/** The exact McNemar test of paired outcomes, with exact arithmetic. */
module McNemar {
  import opened Basics
  import opened Reals

  /** Subsets of size `k` of a set of size `n`. */
  function Choose(n: nat, k: int): nat {
    if k < 0 || k > n then 0 else if k == 0 || k == n then 1 else Choose(n - 1, k - 1) + Choose(n - 1, k)
  }

  function Pow2(n: nat): nat { if n == 0 then 1 else 2 * Pow2(n - 1) }

  /** The sum of the coefficients from `a` up to but not including `b`. */
  function Sum(n: nat, a: int, b: int): nat
    decreases b - a
  {
    if b <= a then 0 else Sum(n, a, b - 1) + Choose(n, b - 1)
  }

  lemma {:induction false} Pascal(n: nat, k: int)
    ensures Choose(n + 1, k) == Choose(n, k - 1) + Choose(n, k)
  {
  }

  function Factorial(n: nat): nat { if n == 0 then 1 else n * Factorial(n - 1) }

  /** The coefficients in closed form. */
  lemma {:induction false} ChooseIsQuotient(n: nat, k: nat)
    requires k <= n
    ensures Choose(n, k) * (Factorial(k) * Factorial(n - k)) == Factorial(n)
  {
    if 0 < k < n {
      ChooseIsQuotient(n - 1, k - 1);
      ChooseIsQuotient(n - 1, k);
      var f, g, m := Factorial(k - 1), Factorial(n - k - 1), n - k;
      assert Factorial(k) == k * f && Factorial(m) == m * g;
      TwoParts(Choose(n - 1, k - 1), Choose(n - 1, k), f, g, k, m, Factorial(n - 1));
    } else {
      Whole(Factorial(n));
    }
  }

  lemma Whole(x: nat)
    ensures 1 * (1 * x) == x && 1 * (x * 1) == x
  {
  }

  lemma TwoParts(a: nat, b: nat, f: nat, g: nat, k: nat, m: nat, whole: nat)
    requires a * (f * (m * g)) == whole && b * ((k * f) * g) == whole
    ensures (a + b) * ((k * f) * (m * g)) == (k + m) * whole
  {
    Regrouped(k, f, m * g);
    Regrouped(m, k * f, g);
    var x, y := f * (m * g), (k * f) * g;
    assert (k * f) * (m * g) == k * x == m * y;
    Moved(a, k, x);
    Moved(b, m, y);
    assert (a + b) * ((k * f) * (m * g)) == a * (k * x) + b * (m * y);
  }

  lemma Regrouped(k: nat, f: nat, h: nat)
    ensures (k * f) * h == k * (f * h) && f * (k * h) == k * (f * h)
  {
  }

  lemma Moved(a: nat, k: nat, x: nat)
    ensures a * (k * x) == k * (a * x)
  {
  }

  lemma {:induction false} Symmetric(n: nat, k: int)
    ensures Choose(n, k) == Choose(n, n - k)
  {
    if 0 < k < n {
      Symmetric(n - 1, k - 1);
      Symmetric(n - 1, k);
    }
  }

  lemma {:induction false} Positive(n: nat, k: nat)
    requires k <= n
    ensures Choose(n, k) > 0
  {
    if 0 < k < n { Positive(n - 1, k); }
  }

  lemma {:induction false} SumSplit(n: nat, a: int, b: int, c: int)
    requires a <= b <= c
    ensures Sum(n, a, c) == Sum(n, a, b) + Sum(n, b, c)
    decreases c - b
  {
    if b < c { SumSplit(n, a, b, c - 1); }
  }

  lemma {:induction false} SumMirror(n: nat, a: int, b: int)
    requires a <= b
    ensures Sum(n, a, b) == Sum(n, n + 1 - b, n + 1 - a)
    decreases b - a
  {
    if a < b {
      SumMirror(n, a, b - 1);
      Symmetric(n, b - 1);
      SumSplit(n, n + 1 - b, n + 2 - b, n + 1 - a);
      assert Sum(n, n + 1 - b, n + 2 - b) == Sum(n, n + 1 - b, n + 1 - b) + Choose(n, n + 1 - b);
    }
  }

  lemma {:induction false} SumPascal(n: nat, b: nat)
    ensures Sum(n + 1, 0, b + 1) == Sum(n, 0, b + 1) + Sum(n, 0, b)
  {
    Pascal(n, b);
    if b > 0 {
      SumPascal(n, b - 1);
    } else {
      assert Sum(n, 0, 1) == Sum(n, 0, 0) + Choose(n, 0);
      assert Sum(n + 1, 0, 1) == Sum(n + 1, 0, 0) + Choose(n + 1, 0);
    }
  }

  lemma {:induction false} SumAll(n: nat)
    ensures Sum(n, 0, n + 1) == Pow2(n)
  {
    if n == 0 {
      assert Sum(0, 0, 1) == Sum(0, 0, 0) + Choose(0, 0);
    } else {
      SumAll(n - 1);
      SumPascal(n - 1, n);
      assert Sum(n - 1, 0, n + 1) == Sum(n - 1, 0, n) + Choose(n - 1, n);
    }
  }

  // ----- the two-sided definition -----

  function Abs(x: int): nat { if x < 0 then -x else x }

  /** Outcomes `k < j` of `n` fair coins that are at least as far from even as `d`. */
  function Extreme(n: nat, d: int, j: nat): nat {
    if j == 0 then 0 else Extreme(n, d, j - 1) + if Abs(2 * (j - 1) - n) >= d then Choose(n, j - 1) else 0
  }

  /** The probability under fair coins of an imbalance as large as that of `wins` against `losses`. */
  function TwoSided(wins: nat, losses: nat): real {
    PowPositive(wins + losses);
    Extreme(wins + losses, Abs(wins - losses), wins + losses + 1) as real / Pow2(wins + losses) as real
  }

  lemma {:induction false} ExtremeParts(n: nat, m: nat, j: nat)
    requires 2 * m < n && j <= n + 1
    ensures Extreme(n, n - 2 * m, j) == Sum(n, 0, Min(j, m + 1)) + Sum(n, n - m, j)
  {
    if j > 0 {
      ExtremeParts(n, m, j - 1);
      if j <= m + 1 {
        assert Sum(n, 0, j) == Sum(n, 0, j - 1) + Choose(n, j - 1);
      } else if j > n - m {
        assert Sum(n, n - m, j) == Sum(n, n - m, j - 1) + Choose(n, j - 1);
      }
    }
  }

  lemma {:induction false} ExtremeEven(n: nat, j: nat)
    ensures Extreme(n, 0, j) == Sum(n, 0, j)
  {
    if j > 0 { ExtremeEven(n, j - 1); }
  }

  /** An imbalance is as likely one way as the other: the extreme outcomes are twice the lower tail. */
  lemma ExtremeIsTwiceTail(n: nat, m: nat)
    requires 2 * m < n
    ensures Extreme(n, n - 2 * m, n + 1) == 2 * Sum(n, 0, m + 1)
    ensures 2 * Sum(n, 0, m + 1) + Sum(n, m + 1, n - m) == Pow2(n)
  {
    ExtremeParts(n, m, n + 1);
    SumMirror(n, 0, m + 1);
    SumSplit(n, 0, m + 1, n - m);
    SumSplit(n, 0, n - m, n + 1);
    SumAll(n);
  }

  lemma {:induction false} PowPositive(n: nat)
    ensures Pow2(n) > 0
  {
    if n > 0 { PowPositive(n - 1); }
  }

  /** What the report computes. */
  function Computed(wins: nat, losses: nat): real {
    PowPositive(wins + losses);
    var n := wins + losses;
    if n == 0 then 1.0
    else
      var p := 2.0 * (Sum(n, 0, Min(wins, losses) + 1) as real / Pow2(n) as real);
      if p < 1.0 then p else 1.0
  }

  lemma EvenTail(m: nat)
    ensures 2 * Sum(2 * m, 0, m + 1) >= Pow2(2 * m) && Extreme(2 * m, 0, 2 * m + 1) == Pow2(2 * m)
  {
    ExtremeEven(2 * m, 2 * m + 1);
    SumAll(2 * m);
    SumMirror(2 * m, 0, m + 1);
    SumSplit(2 * m, 0, m, 2 * m + 1);
    assert Sum(2 * m, 0, m + 1) == Sum(2 * m, 0, m) + Choose(2 * m, m);
  }

  lemma Scaled(a: nat, b: nat, n: nat)
    requires n > 0
    ensures a <= b <==> a as real / n as real <= b as real / n as real
    ensures a < b <==> a as real / n as real < b as real / n as real
    ensures 2.0 * (a as real / n as real) == (2 * a) as real / n as real
    ensures n as real / n as real == 1.0
  {
    QuotientOrder(a as real, b as real, n as real);
    Quotients(a as real, a as real, n as real);
    Quotient(n as real, n as real);
    Cancel(n as real / n as real, 1.0, n as real);
  }

  /** The computed value is the two-sided binomial probability, for all wins and losses. */
  lemma ComputedIsTwoSided(wins: nat, losses: nat)
    ensures Computed(wins, losses) == TwoSided(wins, losses)
  {
    var n, m := wins + losses, Min(wins, losses);
    PowPositive(n);
    Scaled(Sum(n, 0, m + 1), 0, Pow2(n));
    Scaled(2 * Sum(n, 0, m + 1), Pow2(n), Pow2(n));
    if 2 * m < n {
      ExtremeIsTwiceTail(n, m);
      assert Abs(wins - losses) == n - 2 * m;
    } else {
      assert n == 2 * m;
      EvenTail(m);
    }
  }

  /** Twice the tail, or everything, whichever is less. */
  lemma TailForm(wins: nat, losses: nat)
    ensures var n, m := wins + losses, Min(wins, losses);
      && Pow2(n) > 0
      && Computed(wins, losses) == Min(2 * Sum(n, 0, m + 1), Pow2(n)) as real / Pow2(n) as real
  {
    var n, m := wins + losses, Min(wins, losses);
    PowPositive(n);
    Scaled(Sum(n, 0, m + 1), 0, Pow2(n));
    Scaled(2 * Sum(n, 0, m + 1), Pow2(n), Pow2(n));
    if n == 0 { EvenTail(0); }
  }

  lemma {:induction false} GapPositive(n: nat, a: nat, b: nat)
    requires a < b <= n + 1
    ensures Sum(n, a, b) > 0
  {
    Positive(n, b - 1);
  }

  /** The test says "no evidence at all" exactly when the arms differ by at most one. */
  lemma OneIffBalanced(wins: nat, losses: nat)
    ensures Computed(wins, losses) == 1.0 <==> Abs(wins - losses) <= 1
    ensures Computed(wins, losses) <= 1.0
  {
    var n, m := wins + losses, Min(wins, losses);
    TailForm(wins, losses);
    Scaled(Min(2 * Sum(n, 0, m + 1), Pow2(n)), Pow2(n), Pow2(n));
    if 2 * m < n {
      ExtremeIsTwiceTail(n, m);
      if n - 2 * m == 1 {
        assert Sum(n, m + 1, n - m) == 0;
      } else {
        GapPositive(n, m + 1, n - m);
      }
    } else {
      EvenTail(m);
    }
  }

  /** At a fixed number of discordant pairs, a larger imbalance has a strictly smaller p. */
  lemma FallsWithImbalance(wins: nat, losses: nat, wins': nat, losses': nat)
    requires wins + losses == wins' + losses' && Abs(wins - losses) < Abs(wins' - losses')
    ensures Computed(wins', losses') < Computed(wins, losses)
  {
    var n, m, m' := wins + losses, Min(wins, losses), Min(wins', losses');
    assert m' < m && 2 * m' + 1 < n;
    TailForm(wins, losses);
    TailForm(wins', losses');
    TailsFall(n, m, m');
    Scaled(Min(2 * Sum(n, 0, m' + 1), Pow2(n)), Min(2 * Sum(n, 0, m + 1), Pow2(n)), Pow2(n));
  }

  lemma TailsFall(n: nat, m: nat, m': nat)
    requires m' < m <= n && 2 * m' + 1 < n
    ensures Min(2 * Sum(n, 0, m' + 1), Pow2(n)) < Min(2 * Sum(n, 0, m + 1), Pow2(n))
  {
    ExtremeIsTwiceTail(n, m');
    SumSplit(n, 0, m' + 1, m + 1);
    GapPositive(n, m' + 1, m + 1);
    GapPositive(n, m' + 1, n - m');
  }

  // ----- the report -----

  function Wins(deltas: seq<real>): nat {
    if deltas == [] then 0 else Wins(deltas[..|deltas| - 1]) + if deltas[|deltas| - 1] > 0.0 then 1 else 0
  }

  function Negated(deltas: seq<real>): seq<real> { seq(|deltas|, i requires 0 <= i < |deltas| => -deltas[i]) }

  lemma {:induction false} WinsCounted(deltas: seq<real>)
    ensures Wins(deltas) == |set i | 0 <= i < |deltas| && deltas[i] > 0.0|
  {
    var won := set i | 0 <= i < |deltas| && deltas[i] > 0.0;
    if deltas == [] {
      assert won == {};
    } else {
      var last := |deltas| - 1;
      var front := deltas[..last];
      WinsCounted(front);
      var before := set i | 0 <= i < |front| && front[i] > 0.0;
      assert won == if deltas[last] > 0.0 then before + {last} else before;
    }
  }

  lemma NegatedWins(deltas: seq<real>)
    ensures var negated := Negated(deltas);
      (set i | 0 <= i < |negated| && negated[i] > 0.0) == (set i | 0 <= i < |deltas| && deltas[i] < 0.0)
  {
  }

  datatype Report = Report(wins: nat, losses: nat, ties: nat, p: real)

  /** Counts and p of a list of differences; an empty list, or a bootstrap without replicates, is refused. */
  method PairedStatistics(deltas: seq<real>, replicates: int) returns (r: Option<Report>)
    ensures r.None? <==> deltas == [] || replicates < 1
    ensures r.Some? ==>
      && r.value.wins == |set i | 0 <= i < |deltas| && deltas[i] > 0.0|
      && r.value.losses == |set i | 0 <= i < |deltas| && deltas[i] < 0.0|
      && r.value.wins + r.value.losses + r.value.ties == |deltas|
      && r.value.wins == Wins(deltas) && r.value.losses == Wins(Negated(deltas))
      && r.value.p == TwoSided(r.value.wins, r.value.losses)
  {
    if deltas == [] || replicates < 1 { return None; }
    var wins, losses := 0, 0;
    for i := 0 to |deltas|
      invariant wins == Wins(deltas[..i]) && losses == Wins(Negated(deltas[..i])) && wins + losses <= i
    {
      assert deltas[..i + 1][..i] == deltas[..i];
      assert Negated(deltas[..i + 1])[..i] == Negated(deltas[..i]);
      if deltas[i] > 0.0 { wins := wins + 1; }
      if deltas[i] < 0.0 { losses := losses + 1; }
    }
    assert deltas[..|deltas|] == deltas;
    WinsCounted(deltas);
    WinsCounted(Negated(deltas));
    NegatedWins(deltas);
    var p := PairedP(wins, losses);
    r := Some(Report(wins, losses, |deltas| - (wins + losses), p));
  }

  method PairedP(wins: nat, losses: nat) returns (p: real)
    ensures p == TwoSided(wins, losses)
  {
    p := 1.0;
    var n := wins + losses;
    PowPositive(n);
    if n > 0 {
      var sum := 0;
      for k := 0 to Min(wins, losses) + 1
        invariant sum == Sum(n, 0, k)
      {
        sum := sum + Choose(n, k);
      }
      var tail := sum as real / Pow2(n) as real;
      p := if 2.0 * tail < 1.0 then 2.0 * tail else 1.0;
    }
    ComputedIsTwoSided(wins, losses);
  }

  /** Exchanging the arms exchanges wins and losses and leaves p as it is. */
  lemma ArmsExchange(deltas: seq<real>)
    ensures Wins(Negated(Negated(deltas))) == Wins(deltas)
    ensures TwoSided(Wins(deltas), Wins(Negated(deltas))) == TwoSided(Wins(Negated(deltas)), Wins(deltas))
  {
    assert Negated(Negated(deltas)) == deltas;
  }
}
