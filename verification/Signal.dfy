/** The executor's test for groups without signal, in terms of its 0/1 rewards. */
module Signal {
  import Executor
  import Advantages

  function RewardValues(g: Executor.Group): seq<real> {
    seq(|g.samples|, i requires 0 <= i < |g.samples| => if g.samples[i].intent == g.example.intent then 1.0 else 0.0)
  }

  /**
   Whether or not rewards are normalised, the executor's model may look at equality of rewards instead of
   advantages.
   */
  lemma SkippedIffNoSignal(sqrt: real -> real, g: Executor.Group, normalize: bool)
    requires Advantages.Root(sqrt) && |g.samples| >= 2
    ensures Executor.IsZeroGroup(g) <==>
      Advantages.IsZeroGroup(Advantages.GroupAdvantages(sqrt, RewardValues(g), normalize).value)
  {
    var values, rewards := RewardValues(g), Executor.Rewards(g);
    Advantages.ZeroIffEqual(sqrt, values, normalize);
    assert forall i :: 0 <= i < |values| ==> (values[i] == 1.0 <==> rewards[i]);
    if Executor.IsZeroGroup(g) {
      assert forall i :: 0 <= i < |values| ==> rewards[i] == rewards[0];
      assert forall i :: 0 <= i < |values| ==> values[i] == values[0];
    }
    if Advantages.AllEqual(values) {
      forall i | 0 <= i < |values| ensures rewards[i] == rewards[0] {
        assert values[i] == values[0];
      }
    }
  }
}
