/** The token-level CISPO objective, with exact arithmetic; exponential and logarithm are any pair with their laws. */
module Objective {
  import opened Basics
  import opened Reals

  datatype Calculus = Calculus(exp: real -> real, log: real -> real)
  {
    ghost predicate Lawful() {
      && (forall x :: exp(x) > 0.0)
      && (forall x :: x > 0.0 ==> exp(log(x)) == x)
    }
  }

  datatype Config = Config(epsClip: real, epsClipHigh: real, gamma: real, lambda: real)
  {
    predicate Valid() { epsClip >= 1.0 && epsClipHigh >= 0.0 && 0.0 <= gamma <= 1.0 && 0.0 <= lambda <= 1.0 }
  }

  datatype Token = Token(kl: real, logProb: real, advantage: real, selected: bool)

  datatype Measured = Measured(
    losses: seq<real>, gradients: seq<real>, selected: nat, loss: real, clipFraction: real, meanRatio: real,
      clipped: nat)

  function MinR(a: real, b: real): real { if a <= b then a else b }

  function MaxR(a: real, b: real): real { if a <= b then b else a }

  function AbsR(a: real): real { if a < 0.0 then -a else a }

  function Ratio(m: Calculus, t: Token): real { m.exp(-t.kl) }

  function Clip(c: Config, ratio: real): real { MinR(MaxR(ratio, 1.0 - c.epsClip), 1.0 + c.epsClipHigh) }

  function Weight(t: Token): real { if t.selected then 1.0 else 0.0 }

  function TokenLoss(m: Calculus, c: Config, t: Token): real {
    -Clip(c, Ratio(m, t)) * t.advantage * t.logProb * Weight(t)
  }

  function TokenGradient(m: Calculus, c: Config, t: Token, n: real): real
    requires n != 0.0
  {
    -Clip(c, Ratio(m, t)) * t.advantage * Weight(t) / n
  }

  function Selected(ts: seq<Token>): nat {
    if ts == [] then 0 else Selected(ts[..|ts| - 1]) + if ts[|ts| - 1].selected then 1 else 0
  }

  function Clipped(m: Calculus, c: Config, ts: seq<Token>): nat {
    if ts == [] then 0
    else
      var t := ts[|ts| - 1];
      Clipped(m, c, ts[..|ts| - 1]) + if t.selected && Clip(c, Ratio(m, t)) != Ratio(m, t) then 1 else 0
  }

  function RatioSum(m: Calculus, ts: seq<Token>): real {
    if ts == [] then 0.0
    else
      var t := ts[|ts| - 1];
      RatioSum(m, ts[..|ts| - 1]) + if t.selected then Ratio(m, t) else 0.0
  }

  function Sum(s: seq<real>): real { if s == [] then 0.0 else Sum(s[..|s| - 1]) + s[|s| - 1] }

  function Losses(m: Calculus, c: Config, ts: seq<Token>): seq<real> {
    seq(|ts|, i requires 0 <= i < |ts| => TokenLoss(m, c, ts[i]))
  }

  function Gradients(m: Calculus, c: Config, ts: seq<Token>, n: real): seq<real>
    requires n != 0.0
  {
    seq(|ts|, i requires 0 <= i < |ts| => TokenGradient(m, c, ts[i], n))
  }

  /** The objective of a list of tokens of which at least one is selected. */
  function Value(m: Calculus, c: Config, ts: seq<Token>): Measured
    requires Selected(ts) > 0
  {
    var n := Selected(ts) as real;
    Measured(Losses(m, c, ts), Gradients(m, c, ts, n), Selected(ts), Sum(Losses(m, c, ts)) / n,
             Clipped(m, c, ts) as real / n, RatioSum(m, ts) / n, Clipped(m, c, ts))
  }

  function Tokens(kl: seq<real>, logProbs: seq<real>, advantages: seq<real>, mask: seq<bool>): seq<Token>
    requires |kl| == |logProbs| == |advantages| == |mask|
  {
    seq(|kl|, i requires 0 <= i < |kl| => Token(kl[i], logProbs[i], advantages[i], mask[i]))
  }

  datatype Fault = BadConfig | BadShape | NothingSelected

  lemma Extended(m: Calculus, c: Config, ts: seq<Token>, i: nat, n: real)
    requires i < |ts| && n != 0.0
    ensures Losses(m, c, ts[..i + 1]) == Losses(m, c, ts[..i]) + [TokenLoss(m, c, ts[i])]
    ensures Gradients(m, c, ts[..i + 1], n) == Gradients(m, c, ts[..i], n) + [TokenGradient(m, c, ts[i], n)]
  {
  }

  method CountSelected(ghost ts: seq<Token>, mask: seq<bool>) returns (selected: nat)
    requires |ts| == |mask| && forall i :: 0 <= i < |ts| ==> ts[i].selected == mask[i]
    ensures selected == Selected(ts)
  {
    selected := 0;
    for i := 0 to |mask|
      invariant selected == Selected(ts[..i])
    {
      assert ts[..i + 1][..i] == ts[..i];
      if mask[i] { selected := selected + 1; }
    }
    assert ts[..|ts|] == ts;
  }

  method Objective(m: Calculus, kl: seq<real>, logProbs: seq<real>, advantages: seq<real>, mask: seq<bool>, c: Config)
    returns (r: Result<Measured, Fault>)
    ensures c.epsClip < 1.0 || c.epsClipHigh < 0.0 || !(0.0 <= c.gamma <= 1.0) || !(0.0 <= c.lambda <= 1.0) <==>
      r == Err(BadConfig)
    ensures c.Valid() && !(0 < |kl| == |logProbs| == |advantages| == |mask|) ==> r == Err(BadShape)
    ensures c.Valid() && 0 < |kl| == |logProbs| == |advantages| == |mask| ==>
      var ts := Tokens(kl, logProbs, advantages, mask);
      r == if Selected(ts) == 0 then Err(NothingSelected) else Ok(Value(m, c, ts))
  {
    if !c.Valid() { return Err(BadConfig); }
    var size := |kl|;
    if size == 0 || |logProbs| != size || |advantages| != size || |mask| != size { return Err(BadShape); }
    var ts := Tokens(kl, logProbs, advantages, mask);
    var selected := CountSelected(ts, mask);
    if selected == 0 { return Err(NothingSelected); }
    assert ts[..size] == ts;
    var n := selected as real;
    var losses, gradients, clipped, ratioSum := [], [], 0, 0.0;
    for i := 0 to size
      invariant losses == Losses(m, c, ts[..i]) && gradients == Gradients(m, c, ts[..i], n)
      invariant clipped == Clipped(m, c, ts[..i]) && ratioSum == RatioSum(m, ts[..i])
    {
      assert ts[..i + 1][..i] == ts[..i];
      Extended(m, c, ts, i, n);
      losses := losses + [TokenLoss(m, c, ts[i])];
      gradients := gradients + [TokenGradient(m, c, ts[i], n)];
      if mask[i] {
        var ratio := Ratio(m, ts[i]);
        ratioSum := ratioSum + ratio;
        clipped := clipped + if Clip(c, ratio) != ratio then 1 else 0;
      }
    }
    r := Ok(Measured(losses, gradients, selected, Sum(losses) / n, clipped as real / n, ratioSum / n, clipped));
  }

  // ----- masking -----

  function Keep(ts: seq<Token>): seq<Token> {
    if ts == [] then [] else Keep(ts[..|ts| - 1]) + if ts[|ts| - 1].selected then [ts[|ts| - 1]] else []
  }

  lemma LossStep(m: Calculus, c: Config, ts: seq<Token>, t: Token)
    ensures Sum(Losses(m, c, ts + [t])) == Sum(Losses(m, c, ts)) + TokenLoss(m, c, t)
  {
    assert Losses(m, c, ts + [t])[..|ts|] == Losses(m, c, ts);
  }

  lemma CountStep(m: Calculus, c: Config, ts: seq<Token>, t: Token)
    ensures Selected(ts + [t]) == Selected(ts) + if t.selected then 1 else 0
    ensures Clipped(m, c, ts + [t])
      == Clipped(m, c, ts) + if t.selected && Clip(c, Ratio(m, t)) != Ratio(m, t) then 1 else 0
    ensures RatioSum(m, ts + [t]) == RatioSum(m, ts) + if t.selected then Ratio(m, t) else 0.0
  {
    assert (ts + [t])[..|ts|] == ts;
  }

  lemma UnselectedLoss(m: Calculus, c: Config, t: Token)
    requires !t.selected
    ensures TokenLoss(m, c, t) == 0.0
  {
  }

  lemma {:induction false} KeepCounts(m: Calculus, c: Config, ts: seq<Token>)
    ensures Selected(Keep(ts)) == Selected(ts)
    ensures Clipped(m, c, Keep(ts)) == Clipped(m, c, ts) && RatioSum(m, Keep(ts)) == RatioSum(m, ts)
  {
    if ts != [] {
      var before, t := ts[..|ts| - 1], ts[|ts| - 1];
      KeepCounts(m, c, before);
      if t.selected {
        CountStep(m, c, Keep(before), t);
      } else {
        assert Keep(ts) == Keep(before);
      }
    }
  }

  lemma {:induction false} KeepLoss(m: Calculus, c: Config, ts: seq<Token>)
    ensures Sum(Losses(m, c, Keep(ts))) == Sum(Losses(m, c, ts))
  {
    if ts != [] {
      var before, t := ts[..|ts| - 1], ts[|ts| - 1];
      KeepLoss(m, c, before);
      assert ts == before + [t];
      LossStep(m, c, before, t);
      if t.selected {
        LossStep(m, c, Keep(before), t);
      } else {
        UnselectedLoss(m, c, t);
        assert Keep(ts) == Keep(before);
      }
    }
  }

  /**
   The masked objective and the objective of the selected tokens alone report the same loss, clip fraction and mean
   ratio.
   */
  lemma MaskingIsSelection(m: Calculus, c: Config, ts: seq<Token>)
    requires Selected(ts) > 0
    ensures Selected(Keep(ts)) > 0
    ensures var all, kept := Value(m, c, ts), Value(m, c, Keep(ts));
      && all.loss == kept.loss && all.clipFraction == kept.clipFraction && all.meanRatio == kept.meanRatio
      && all.selected == kept.selected && all.clipped == kept.clipped
  {
    KeepCounts(m, c, ts);
    KeepLoss(m, c, ts);
  }

  // ----- the loss is linear -----

  function Dot(a: seq<real>, b: seq<real>): real
    requires |a| == |b|
  {
    if a == [] then 0.0 else Dot(a[..|a| - 1], b[..|b| - 1]) + a[|a| - 1] * b[|b| - 1]
  }

  function LogProbs(ts: seq<Token>): seq<real> { seq(|ts|, i requires 0 <= i < |ts| => ts[i].logProb) }

  /** The same tokens with other log-probabilities. */
  function WithLogProbs(ts: seq<Token>, p: seq<real>): seq<Token>
    requires |p| == |ts|
  {
    seq(|ts|, i requires 0 <= i < |ts| => ts[i].(logProb := p[i]))
  }

  lemma OneTerm(clip: real, a: real, p: real, w: real, n: real)
    requires n != 0.0
    ensures (-clip * a * w / n) * p == (-clip * a * p * w) / n
  {
    var x := clip * a * w;
    assert clip * a * p * w == x * p;
    assert (-x / n) * p == (-x * p) / n;
  }

  lemma TermIsLoss(m: Calculus, c: Config, t: Token, n: real)
    requires n != 0.0
    ensures TokenGradient(m, c, t, n) * t.logProb == TokenLoss(m, c, t) / n
  {
    OneTerm(Clip(c, Ratio(m, t)), t.advantage, t.logProb, Weight(t), n);
  }

  lemma DotStep(m: Calculus, c: Config, ts: seq<Token>, t: Token, n: real)
    requires n != 0.0
    ensures Dot(Gradients(m, c, ts + [t], n), LogProbs(ts + [t]))
      == Dot(Gradients(m, c, ts, n), LogProbs(ts)) + TokenGradient(m, c, t, n) * t.logProb
  {
    var more := ts + [t];
    assert Gradients(m, c, more, n)[..|ts|] == Gradients(m, c, ts, n) && LogProbs(more)[..|ts|] == LogProbs(ts);
  }

  lemma {:induction false} DotIsLoss(m: Calculus, c: Config, ts: seq<Token>, n: real)
    requires n != 0.0
    ensures Dot(Gradients(m, c, ts, n), LogProbs(ts)) == Sum(Losses(m, c, ts)) / n
  {
    if ts != [] {
      var before, t := ts[..|ts| - 1], ts[|ts| - 1];
      DotIsLoss(m, c, before, n);
      assert ts == before + [t];
      LossStep(m, c, before, t);
      DotStep(m, c, before, t, n);
      TermIsLoss(m, c, t, n);
      Quotients(Sum(Losses(m, c, before)), TokenLoss(m, c, t), n);
    }
  }

  lemma {:induction false} SelectedSame(ts: seq<Token>, p: seq<real>)
    requires |p| == |ts|
    ensures Selected(WithLogProbs(ts, p)) == Selected(ts)
  {
    if ts != [] {
      var last := |ts| - 1;
      SelectedSame(ts[..last], p[..last]);
      assert WithLogProbs(ts, p)[..last] == WithLogProbs(ts[..last], p[..last]);
    }
  }

  lemma SameGradient(m: Calculus, c: Config, t: Token, p: real, n: real)
    requires n != 0.0
    ensures TokenGradient(m, c, t.(logProb := p), n) == TokenGradient(m, c, t, n)
  {
  }

  lemma SameGradients(m: Calculus, c: Config, ts: seq<Token>, p: seq<real>, n: real)
    requires n != 0.0 && |p| == |ts|
    ensures Gradients(m, c, WithLogProbs(ts, p), n) == Gradients(m, c, ts, n) && LogProbs(WithLogProbs(ts, p)) == p
  {
    var a, b := Gradients(m, c, WithLogProbs(ts, p), n), Gradients(m, c, ts, n);
    forall i | 0 <= i < |ts| ensures a[i] == b[i] {
      SameGradient(m, c, ts[i], p[i], n);
      assert WithLogProbs(ts, p)[i] == ts[i].(logProb := p[i]);
    }
  }

  /**
   The reported gradients are the loss: as a function of the log-probabilities alone the loss is linear, with the
   reported gradients as its coefficients, and they do not themselves depend on the log-probabilities.
   */
  lemma LossIsLinear(m: Calculus, c: Config, ts: seq<Token>, p: seq<real>)
    requires Selected(ts) > 0 && |p| == |ts|
    ensures Selected(WithLogProbs(ts, p)) == Selected(ts)
    ensures var here, there := Value(m, c, ts), Value(m, c, WithLogProbs(ts, p));
      there.gradients == here.gradients && there.loss == Dot(here.gradients, p)
  {
    var n := Selected(ts) as real;
    SelectedSame(ts, p);
    DotIsLoss(m, c, WithLogProbs(ts, p), n);
    SameGradients(m, c, ts, p, n);
  }

  // ----- clipping -----

  /** With `epsClip >= 1` the lower bound never binds, and the clipped ratio is positive. */
  lemma LowerClipNeverBinds(m: Calculus, c: Config, t: Token)
    requires m.Lawful() && c.Valid()
    ensures Clip(c, Ratio(m, t)) == MinR(Ratio(m, t), 1.0 + c.epsClipHigh)
    ensures 0.0 < Clip(c, Ratio(m, t)) <= 1.0 + c.epsClipHigh
  {
  }

  /** A selected token whose ratio is above the upper clip. */
  predicate Above(m: Calculus, c: Config, t: Token) { t.selected && m.exp(-t.kl) > 1.0 + c.epsClipHigh }

  function Places(flags: seq<bool>): set<int> { set i | 0 <= i < |flags| && flags[i] }

  lemma PlacesStep(flags: seq<bool>, flag: bool)
    ensures Places(flags + [flag]) == if flag then Places(flags) + {|flags|} else Places(flags)
  {
    var more := flags + [flag];
    forall i ensures i in Places(more) <==> i in Places(flags) || (flag && i == |flags|) {
      if 0 <= i < |flags| { assert more[i] == flags[i]; }
    }
  }

  function ChosenFlags(ts: seq<Token>): seq<bool> { seq(|ts|, i requires 0 <= i < |ts| => ts[i].selected) }

  function AboveFlags(m: Calculus, c: Config, ts: seq<Token>): seq<bool> {
    seq(|ts|, i requires 0 <= i < |ts| => Above(m, c, ts[i]))
  }

  /** The places of the selected tokens, and of those that are cut off. */
  function Chosen(ts: seq<Token>): set<int> { Places(ChosenFlags(ts)) }

  function Cut(m: Calculus, c: Config, ts: seq<Token>): set<int> { Places(AboveFlags(m, c, ts)) }

  lemma {:induction false} CountsMean(m: Calculus, c: Config, ts: seq<Token>)
    requires m.Lawful() && c.Valid()
    ensures Selected(ts) == |Chosen(ts)| && Clipped(m, c, ts) == |Cut(m, c, ts)|
  {
    if ts != [] {
      var front, t := ts[..|ts| - 1], ts[|ts| - 1];
      CountsMean(m, c, front);
      CutOff(m, c, t);
      FlagsStep(m, c, ts);
      PlacesStep(ChosenFlags(front), t.selected);
      PlacesStep(AboveFlags(m, c, front), Above(m, c, t));
      NotYet(ChosenFlags(front));
      NotYet(AboveFlags(m, c, front));
    }
  }

  lemma NotYet(flags: seq<bool>)
    ensures |flags| !in Places(flags)
  {
  }

  lemma FlagsStep(m: Calculus, c: Config, ts: seq<Token>)
    requires ts != []
    ensures var front, t := ts[..|ts| - 1], ts[|ts| - 1];
      && ChosenFlags(ts) == ChosenFlags(front) + [t.selected]
      && AboveFlags(m, c, ts) == AboveFlags(m, c, front) + [Above(m, c, t)]
      && |ChosenFlags(front)| == |AboveFlags(m, c, front)| == |front|
  {
  }

  lemma CutOff(m: Calculus, c: Config, t: Token)
    requires m.Lawful() && c.Valid()
    ensures Clip(c, Ratio(m, t)) != Ratio(m, t) <==> m.exp(-t.kl) > 1.0 + c.epsClipHigh
  {
    LowerClipNeverBinds(m, c, t);
  }

  /** The importance weight of a token: its ratio, cut off above. */
  function Importance(m: Calculus, c: Config, t: Token): real {
    if m.exp(-t.kl) > 1.0 + c.epsClipHigh then 1.0 + c.epsClipHigh else m.exp(-t.kl)
  }

  lemma TokenMeans(m: Calculus, c: Config, t: Token, n: real)
    requires m.Lawful() && c.Valid() && n > 0.0
    ensures Meant(m, c, t, n, TokenLoss(m, c, t), TokenGradient(m, c, t, n))
  {
    LowerClipNeverBinds(m, c, t);
    Quotient(-Clip(c, Ratio(m, t)) * t.advantage * Weight(t), n);
    if t.selected { WholeWeight(-Clip(c, Ratio(m, t)) * t.advantage, t.logProb); }
    else { NoWeight(-Clip(c, Ratio(m, t)) * t.advantage, t.logProb); }
  }

  lemma WholeWeight(x: real, y: real)
    ensures x * 1.0 == x && x * y * 1.0 == x * y
  {
  }

  lemma NoWeight(x: real, y: real)
    ensures x * 0.0 == 0.0 && x * y * 0.0 == 0.0 && 0.0 * y == 0.0
  {
  }

  /**
   The whole value: every selected token's loss is its importance times advantage times log-probability, negated, and
   its gradient the same without the log-probability, over the number of selected tokens; tokens that are not selected
   have neither. The clip fraction is the part of the selected tokens whose ratio is above the upper clip.
   */
  lemma ValueMeans(m: Calculus, c: Config, ts: seq<Token>)
    requires m.Lawful() && c.Valid() && Selected(ts) > 0
    ensures
      var v, n := Value(m, c, ts), |Chosen(ts)|;
      && v.selected == n && v.clipped == |Cut(m, c, ts)|
      && v.clipFraction == v.clipped as real / n as real && v.loss == Sum(v.losses) / n as real
      && v.meanRatio == RatioSum(m, ts) / n as real
  {
    CountsMean(m, c, ts);
  }

  lemma TokensMean(m: Calculus, c: Config, ts: seq<Token>, i: nat)
    requires m.Lawful() && c.Valid() && Selected(ts) > 0 && i < |ts|
    ensures var v := Value(m, c, ts);
      |v.losses| == |v.gradients| == |ts| && Meant(m, c, ts[i], |Chosen(ts)| as real, v.losses[i], v.gradients[i])
  {
    CountsMean(m, c, ts);
    TokenMeans(m, c, ts[i], Selected(ts) as real);
  }

  predicate Meant(m: Calculus, c: Config, t: Token, n: real, loss: real, gradient: real) {
    var weighed := if t.selected then -Importance(m, c, t) * t.advantage else 0.0;
    gradient * n == weighed && loss == weighed * t.logProb
  }

  lemma Bounded(clip: real, high: real, a: real, n: real)
    requires 0.0 < clip <= high && n > 0.0
    ensures AbsR(-clip * a * 1.0 / n) <= high * AbsR(a) / n
  {
    var b, x := AbsR(a), -clip * a * 1.0;
    Product(clip, b);
    Product(high - clip, b);
    assert (high - clip) * b == high * b - clip * b;
    assert x == -(clip * a) && AbsR(x) == clip * b;
    QuotientOrder(AbsR(x), high * b, n);
    QuotientSign(x, n);
  }

  lemma QuotientSign(x: real, n: real)
    requires n > 0.0
    ensures AbsR(x / n) == AbsR(x) / n
    ensures (x > 0.0 ==> x / n > 0.0) && (x < 0.0 ==> x / n < 0.0)
  {
    QuotientOrder(x, 0.0, n);
    QuotientOrder(0.0, x, n);
    assert 0.0 / n == 0.0;
    assert (-x) / n == -(x / n);
  }

  /** At most the advantage scaled by the upper clip and the number of selected tokens; zero for a masked token. */
  predicate Moderate(c: Config, t: Token, n: real, gradient: real)
    requires n > 0.0
  {
    AbsR(gradient) <= (1.0 + c.epsClipHigh) * AbsR(t.advantage) / n && (!t.selected ==> gradient == 0.0)
  }

  lemma OneGradient(m: Calculus, c: Config, t: Token, n: real)
    requires m.Lawful() && c.Valid() && n > 0.0
    ensures Moderate(c, t, n, TokenGradient(m, c, t, n))
  {
    var clip, high := Clip(c, Ratio(m, t)), 1.0 + c.epsClipHigh;
    LowerClipNeverBinds(m, c, t);
    if t.selected {
      Bounded(clip, high, t.advantage, n);
    } else {
      assert high * AbsR(t.advantage) >= 0.0;
    }
  }

  lemma GradientsAreBounded(m: Calculus, c: Config, ts: seq<Token>, i: nat)
    requires m.Lawful() && c.Valid() && Selected(ts) > 0 && i < |ts|
    ensures Moderate(c, ts[i], Selected(ts) as real, Value(m, c, ts).gradients[i])
  {
    var n := Selected(ts) as real;
    OneGradient(m, c, ts[i], n);
    assert Value(m, c, ts).gradients == Gradients(m, c, ts, n);
    assert Gradients(m, c, ts, n)[i] == TokenGradient(m, c, ts[i], n);
  }

  lemma SignOf(clip: real, a: real, n: real)
    requires clip > 0.0 && n > 0.0
    ensures a > 0.0 ==> -clip * a * 1.0 / n < 0.0
    ensures a < 0.0 ==> -clip * a * 1.0 / n > 0.0
  {
    var x := -clip * a * 1.0;
    assert x == -(clip * a) && x == clip * (-a);
    if a > 0.0 { Product(clip, a); }
    if a < 0.0 { Product(clip, -a); }
    QuotientSign(x, n);
  }

  /** A gradient whose sign is opposite to the advantage. */
  predicate Pushes(t: Token, gradient: real) {
    (t.advantage > 0.0 ==> gradient < 0.0) && (t.advantage < 0.0 ==> gradient > 0.0)
  }

  lemma OnePush(m: Calculus, c: Config, t: Token, n: real)
    requires m.Lawful() && c.Valid() && n > 0.0 && t.selected
    ensures Pushes(t, TokenGradient(m, c, t, n))
  {
    LowerClipNeverBinds(m, c, t);
    SignOf(Clip(c, Ratio(m, t)), t.advantage, n);
  }

  /**
   Lowering the loss makes tokens of good trajectories likelier and those of bad ones less likely, however far off
   the ratio is.
   */
  lemma GradientPushes(m: Calculus, c: Config, ts: seq<Token>, i: nat)
    requires m.Lawful() && c.Valid() && Selected(ts) > 0 && i < |ts| && ts[i].selected
    ensures Pushes(ts[i], Value(m, c, ts).gradients[i])
  {
    var n := Selected(ts) as real;
    OnePush(m, c, ts[i], n);
    assert Value(m, c, ts).gradients == Gradients(m, c, ts, n);
    assert Gradients(m, c, ts, n)[i] == TokenGradient(m, c, ts[i], n);
  }

  // ----- how the executor measures a row -----

  /** Ratios of current to behaviour probabilities; lists of different lengths are refused. */
  function Ratios(m: Calculus, current: seq<real>, behavior: seq<real>): Option<seq<real>> {
    if |current| != |behavior| then None
    else Some(seq(|current|, i requires 0 <= i < |current| => m.exp(current[i] - behavior[i])))
  }

  /** The divergence of a ratio; one that is not positive is refused. */
  function KlOf(m: Calculus, ratio: real): Option<real> {
    if ratio <= 0.0 then None else Some(-m.log(ratio))
  }

  /** The tokens the executor hands to the objective: only the completion, everything selected. */
  function RowTokens(m: Calculus, current: seq<real>, behavior: seq<real>, advantage: real): seq<Token>
    requires |current| == |behavior|
  {
    seq(|current|, i requires 0 <= i < |current| =>
      Token(-m.log(m.exp(current[i] - behavior[i])), current[i], advantage, true))
  }

  lemma RatioSurvives(m: Calculus, x: real)
    requires m.Lawful()
    ensures KlOf(m, m.exp(x)).Some? && m.exp(-KlOf(m, m.exp(x)).value) == m.exp(x)
  {
    var y := m.exp(x);
    assert m.exp(m.log(y)) == y;
    assert -(-m.log(y)) == m.log(y);
  }

  lemma {:induction false} RowSelected(m: Calculus, current: seq<real>, behavior: seq<real>, advantage: real)
    requires |current| == |behavior|
    ensures Selected(RowTokens(m, current, behavior, advantage)) == |current|
  {
    if current != [] {
      var last := |current| - 1;
      RowSelected(m, current[..last], behavior[..last], advantage);
      assert RowTokens(m, current, behavior, advantage)[..last]
        == RowTokens(m, current[..last], behavior[..last], advantage);
    }
  }

  lemma RowStep(m: Calculus, current: seq<real>, behavior: seq<real>, advantage: real)
    requires |current| == |behavior| > 0
    ensures var last := |current| - 1;
      && RowTokens(m, current, behavior, advantage)[..last]
           == RowTokens(m, current[..last], behavior[..last], advantage)
      && Ratios(m, current, behavior).value[..last] == Ratios(m, current[..last], behavior[..last]).value
  {
  }

  /** The last token of a row: the ratio the objective sees is the measured one. */
  lemma LastRatio(m: Calculus, current: seq<real>, behavior: seq<real>, advantage: real)
    requires m.Lawful() && |current| == |behavior| > 0
    ensures var last := |current| - 1;
      var t := RowTokens(m, current, behavior, advantage)[last];
      t.selected && Ratio(m, t) == Ratios(m, current, behavior).value[last]
  {
    var last := |current| - 1;
    RatioSurvives(m, current[last] - behavior[last]);
  }

  /**
   Going from ratios to divergences and back loses nothing: the ratio the objective sees of a token is the measured
   one.
   */
  lemma {:induction false} RowRatioSum(m: Calculus, current: seq<real>, behavior: seq<real>, advantage: real)
    requires m.Lawful() && |current| == |behavior|
    ensures RatioSum(m, RowTokens(m, current, behavior, advantage)) == Sum(Ratios(m, current, behavior).value)
  {
    if current != [] {
      var last := |current| - 1;
      RowRatioSum(m, current[..last], behavior[..last], advantage);
      RowStep(m, current, behavior, advantage);
      LastRatio(m, current, behavior, advantage);
    }
  }

  /**
   The mean ratio the objective reports of a row is the mean of the measured ratios; every token of the row counts.
   */
  lemma RowMeanRatio(m: Calculus, c: Config, current: seq<real>, behavior: seq<real>, advantage: real)
    requires m.Lawful() && |current| == |behavior| > 0
    ensures Selected(RowTokens(m, current, behavior, advantage)) == |current|
    ensures Value(m, c, RowTokens(m, current, behavior, advantage)).meanRatio
      == Sum(Ratios(m, current, behavior).value) / |current| as real
  {
    RowSelected(m, current, behavior, advantage);
    RowRatioSum(m, current, behavior, advantage);
  }
}
