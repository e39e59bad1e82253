/**
 What the executor's figures and events mean. Every accuracy that is reported, and every reward, ratio and
 checkpoint, is compared with the provider's answers in the journal, at every point of the uninterrupted run; so is
 every batch that was trained on.
 */
module Reports {
  import opened Basics
  import opened Replay
  import opened Executor
  import opened Transparency
  import opened Promotion
  import Account

  type Ops = map<Id, Record<Input, Answer>>

  // ----- what the journal says -----

  /** The example at `i` of a split was put to a checkpoint, and answered. */
  predicate Asked(ops: Ops, reference: string, split: seq<Example>, i: nat)
    requires i < |split|
  {
    var id := EvalId(reference, split[i].id, i);
    id in ops && ops[id].input == Eval(reference, split[i], i) && ops[id].result.Predicted?
  }

  /** It was answered with its own intent. */
  predicate Right(ops: Ops, reference: string, split: seq<Example>, i: nat)
    requires i < |split|
  {
    var id := EvalId(reference, split[i].id, i);
    id in ops && ops[id].result == Predicted(split[i].intent)
  }

  function RightOnes(ops: Ops, reference: string, split: seq<Example>): set<nat> {
    set i: nat | i < |split| && Right(ops, reference, split, i)
  }

  /** All examples were answered, and the figure is the part that was answered right. */
  ghost predicate IsAccuracy(ops: Ops, reference: string, split: seq<Example>, accuracy: real) {
    && (forall i :: 0 <= i < |split| ==> Asked(ops, reference, split, i))
    && accuracy == |RightOnes(ops, reference, split)| as real / Max(1, |split|) as real
  }

  /** A checkpoint was saved at a step, under a reference. */
  predicate SavedAs(ops: Ops, step: nat, training: bool, reference: string) {
    var id := SaveId(step, training);
    id in ops && ops[id].result.Saved? && ops[id].result.reference == reference
  }

  ghost predicate Scored(c: Config, ops: Ops, cp: Checkpoint) {
    && SavedAs(ops, cp.step, false, cp.reference) && SavedAs(ops, cp.step, true, cp.training)
    && IsAccuracy(ops, cp.reference, c.calibration, cp.accuracy)
  }

  /** The group of a prompt: the samples that the journal holds for it, in their order. */
  ghost predicate Rolled(c: Config, ops: Ops, u: nat, p: nat, g: Group)
    requires c.Valid()
  {
    && u >= 1 && p < c.prompts && g.example == Prompt(c, u, p) && |g.samples| == c.groupSize >= 2
    && (forall m: nat :: m < |g.samples| ==> SampledAs(c, ops, u, p, m, g.samples[m]))
  }

  predicate SampledAs(c: Config, ops: Ops, u: nat, p: nat, m: nat, s: Sample)
    requires c.train != [] && u >= 1 && p < c.prompts
  {
    var id := RollId(u, p, m);
    id in ops && ops[id] == Record(Roll(u, p, m, Prompt(c, u, p)), Sampled(s))
  }

  /** One sample names the intent and another does not. */
  ghost predicate HasSignal(g: Group) {
    exists m, n :: 0 <= m < |g.samples| && 0 <= n < |g.samples|
      && g.samples[m].intent == g.example.intent && g.samples[n].intent != g.example.intent
  }

  ghost predicate AllRolled(c: Config, ops: Ops, u: nat, groups: seq<Group>)
    requires c.Valid()
  {
    forall p: nat :: p < |groups| ==> Rolled(c, ops, u, p, groups[p])
  }

  /** The groups with signal, in the order of their prompts. */
  ghost predicate Signals(groups: seq<Group>, at: seq<nat>, batch: seq<Group>) {
    && |at| == |batch|
    && (forall k :: 0 <= k < |at| ==> at[k] < |groups| && batch[k] == groups[at[k]] && HasSignal(groups[at[k]]))
    && (forall k, m :: 0 <= k < m < |at| ==> at[k] < at[m])
    && (forall p: nat :: p < |groups| && HasSignal(groups[p]) ==> p in at)
  }

  /** A batch holds the journalled groups of its update that have signal, each with all its samples. */
  ghost predicate IsBatch(c: Config, ops: Ops, u: nat, batch: seq<Group>)
    requires c.Valid()
  {
    exists groups, at :: |groups| == Max(0, c.prompts) && AllRolled(c, ops, u, groups) && Signals(groups, at, batch)
  }

  lemma ZeroIsNoSignal(g: Group)
    ensures IsZeroGroup(g) <==> !HasSignal(g)
  {
    if g.samples != [] && !HasSignal(g) {
      assert forall m :: 0 <= m < |g.samples| ==> (Rewards(g)[m] <==> g.samples[m].intent == g.example.intent);
    }
    if HasSignal(g) {
      var m, n :| 0 <= m < |g.samples| && 0 <= n < |g.samples|
        && g.samples[m].intent == g.example.intent && g.samples[n].intent != g.example.intent;
      assert Rewards(g)[m] && !Rewards(g)[n];
    }
  }

  /** The groups that are trained on are those with signal, in their order. */
  lemma {:induction false} TrainableInOrder(groups: seq<Group>) returns (at: seq<nat>)
    ensures Signals(groups, at, Trainable(groups))
  {
    at := [];
    if groups != [] {
      var last := |groups| - 1;
      at := TrainableInOrder(groups[..last]);
      ZeroIsNoSignal(groups[last]);
      assert groups[..last] + [groups[last]] == groups;
      OneMoreGroup(groups[..last], at, Trainable(groups[..last]), groups[last]);
      if HasSignal(groups[last]) { at := at + [last]; }
    }
  }

  lemma OneMoreGroup(groups: seq<Group>, at: seq<nat>, batch: seq<Group>, g: Group)
    requires Signals(groups, at, batch)
    ensures HasSignal(g) ==> Signals(groups + [g], at + [|groups|], batch + [g])
    ensures !HasSignal(g) ==> Signals(groups + [g], at, batch)
  {
    var more := groups + [g];
    assert more[|groups|] == g;
    forall p: nat | p < |more| && HasSignal(more[p]) ensures p in at || (p == |groups| && HasSignal(g)) {
      if p < |groups| { assert more[p] == groups[p]; }
    }
    assert (at + [|groups|])[|at|] == |groups|;
  }

  // ----- what an event says -----

  /** What an event says is what the journal holds, or rests on an event that does. */
  ghost predicate True(c: Config, w: JobWorld, e: Event)
    requires c.Valid()
  {
    match e
    case ExampleDone(phase, reference, i, correct) =>
      var split := if phase == "selection" then c.calibration else c.heldout;
      i < |split| && Asked(w.ops, reference, split, i) && (correct <==> Right(w.ops, reference, split, i))
    case BaselineEvaluated(reference, accuracy) =>
      SavedAs(w.ops, 0, false, reference) && IsAccuracy(w.ops, reference, c.calibration, accuracy)
    case GroupCompleted(u, p, rewards) => exists g :: Rolled(c, w.ops, u, p, g) && Rewarded(g, rewards)
    case AdvantageComputed(u, p, zero) => exists g :: Rolled(c, w.ops, u, p, g) && (zero <==> !HasSignal(g))
    case ZeroAdvantage(u, p) => exists g :: Rolled(c, w.ops, u, p, g) && !HasSignal(g)
    case RatioMeasured(u, value) => ForwardId(u) in w.ops && w.ops[ForwardId(u)].result == Ratios(value)
    case UpdateCompleted(u, skipped) => if skipped then IsBatch(c, w.ops, u, []) else TrainId(u) in w.ops
    case CheckpointCreated(u, reference, training) =>
      SavedAs(w.ops, u, false, reference) && SavedAs(w.ops, u, true, training)
    case CheckpointEvaluated(cp) => Scored(c, w.ops, cp)
    case Promoted(cp) => Scored(c, w.ops, cp)
    case HeldoutEvaluated(baseline, trained) => Uplift(c, w, baseline, trained)
    case Materialized(reference) => exists cp :: Promoted(cp) in w.events && cp.reference == reference
    case Completed(reference, accuracy) =>
      (exists cp :: Promoted(cp) in w.events && cp.reference == reference)
      && IsAccuracy(w.ops, reference, c.heldout, accuracy)
    case Failed(reason) => FailsFor(c, reason)
  }

  /** The two reasons to fail: groups are too small, or no update is due. */
  predicate FailsFor(c: Config, reason: string) {
    || (reason == "CISPO groups require at least two trajectories"
        && c.groupSize < 2 && c.prompts >= 1 && c.updates >= 1)
    || (reason == "CISPO produced no checkpoint" && c.updates < 1)
  }

  predicate Rewarded(g: Group, rewards: seq<bool>) {
    && |rewards| == |g.samples|
    && forall m :: 0 <= m < |rewards| ==> (rewards[m] <==> g.samples[m].intent == g.example.intent)
  }

  /** The held-out figures: the first is that of the baseline, the second that of a promoted checkpoint. */
  ghost predicate Uplift(c: Config, w: JobWorld, baseline: real, trained: real) {
    && (exists reference :: SavedAs(w.ops, 0, false, reference) && IsAccuracy(w.ops, reference, c.heldout, baseline))
    && (exists cp :: Promoted(cp) in w.events && IsAccuracy(w.ops, cp.reference, c.heldout, trained))
  }

  // ----- at a control point -----

  ghost predicate MemoOk(c: Config, ops: Ops, memo: Memo) {
    && SavedAs(ops, 0, false, memo.baseline)
    && forall k :: 0 <= k < |memo.checkpoints| ==> Scored(c, ops, memo.checkpoints[k])
  }

  /** The answers so far of a pass over a split. */
  ghost predicate PassOk(ops: Ops, reference: string, split: seq<Example>, correct: seq<bool>) {
    && |correct| <= |split|
    && forall i :: 0 <= i < |correct| ==>
      Asked(ops, reference, split, i) && (correct[i] <==> Right(ops, reference, split, i))
  }

  /** What a pass is for decides over which split, and of which checkpoint. */
  ghost predicate PurposeOk(c: Config, w: JobWorld, memo: Memo, reference: string, split: seq<Example>, after: After) {
    match after
    case ThenTrain => split == c.calibration && reference == memo.baseline
    case ThenBoundary(u, training) =>
      split == c.calibration && SavedAs(w.ops, u, false, reference) && SavedAs(w.ops, u, true, training)
    case ThenTrained(p) => split == c.heldout && reference == memo.baseline && Promoted(p) in w.events
    case ThenFinish(p, baseline) =>
      && split == c.heldout && reference == p.reference && Promoted(p) in w.events
      && IsAccuracy(w.ops, memo.baseline, c.heldout, baseline)
  }

  ghost predicate RollingOk(c: Config, ops: Ops, u: nat, groups: seq<Group>, members: seq<Sample>)
    requires c.Valid()
  {
    && u >= 1 && |groups| <= Max(0, c.prompts) && AllRolled(c, ops, u, groups) && |members| <= Max(0, c.groupSize)
    && (members != [] ==> |groups| < c.prompts)
    && forall m: nat :: m < |members| ==> SampledAs(c, ops, u, |groups|, m, members[m])
  }

  ghost predicate CtlOk(c: Config, w: JobWorld, ctl: Ctl)
    requires c.Valid()
  {
    match ctl
    case SavingBaseline => true
    case Stopped(reason) => FailsFor(c, reason)
    case Evaluating(memo, reference, split, correct, after) =>
      && MemoOk(c, w.ops, memo) && PassOk(w.ops, reference, split, correct)
      && PurposeOk(c, w, memo, reference, split, after)
    case Rolling(memo, u, groups, members) => MemoOk(c, w.ops, memo) && RollingOk(c, w.ops, u, groups, members)
    case Forwarding(memo, u, batch) => MemoOk(c, w.ops, memo) && IsBatch(c, w.ops, u, batch)
    case Training(memo, u, batch) => MemoOk(c, w.ops, memo) && IsBatch(c, w.ops, u, batch)
    case SavingInference(memo, u, training) => MemoOk(c, w.ops, memo) && SavedAs(w.ops, u, true, training)
    case Finished(memo, p, heldout) =>
      && MemoOk(c, w.ops, memo) && Promoted(p) in w.events && IsAccuracy(w.ops, p.reference, c.heldout, heldout)
      && exists baseline ::
        HeldoutEvaluated(baseline, heldout) in w.events && IsAccuracy(w.ops, memo.baseline, c.heldout, baseline)
    case _ => MemoOk(c, w.ops, ctl.memo)
  }

  /** An answer of the kind that was asked for. */
  predicate Fits(input: Input, r: Answer) {
    match input
    case Roll(_, _, _, _) => r.Sampled?
    case Forward(_, _) => r.Ratios?
    case Train(_, _) => r.Trained?
    case Save(_, _) => r.Saved?
    case Eval(_, _, _) => r.Predicted?
  }

  ghost predicate WorldOk(c: Config, w: JobWorld)
    requires c.Valid()
  {
    && (forall e :: e in w.events ==> True(c, w, e))
    && (forall id :: id in w.ops ==> Fits(w.ops[id].input, w.ops[id].result))
    && forall k :: 0 <= k < |w.model| ==> w.model[k].Train? && IsBatch(c, w.ops, w.model[k].update, w.model[k].batch)
  }

  // ----- what was true stays true -----

  ghost predicate Later(a: JobWorld, b: JobWorld) {
    && (forall id :: id in a.ops ==> id in b.ops && b.ops[id] == a.ops[id])
    && forall e :: e in a.events ==> e in b.events
  }

  lemma AccuracyLater(a: JobWorld, b: JobWorld, reference: string, split: seq<Example>, accuracy: real)
    requires Later(a, b) && IsAccuracy(a.ops, reference, split, accuracy)
    ensures IsAccuracy(b.ops, reference, split, accuracy)
  {
    forall i: nat | i < |split| ensures Right(b.ops, reference, split, i) <==> Right(a.ops, reference, split, i) {
      assert Asked(a.ops, reference, split, i);
    }
    forall i | 0 <= i < |split| ensures Asked(b.ops, reference, split, i) {
      assert Asked(a.ops, reference, split, i);
    }
    assert RightOnes(b.ops, reference, split) == RightOnes(a.ops, reference, split);
  }

  lemma ScoredLater(c: Config, a: JobWorld, b: JobWorld, cp: Checkpoint)
    requires Later(a, b) && Scored(c, a.ops, cp)
    ensures Scored(c, b.ops, cp)
  {
    AccuracyLater(a, b, cp.reference, c.calibration, cp.accuracy);
  }

  lemma RolledLater(c: Config, a: JobWorld, b: JobWorld, u: nat, p: nat, g: Group)
    requires c.Valid() && Later(a, b) && Rolled(c, a.ops, u, p, g)
    ensures Rolled(c, b.ops, u, p, g)
  {
    forall m: nat | m < |g.samples| ensures SampledAs(c, b.ops, u, p, m, g.samples[m]) {
      assert SampledAs(c, a.ops, u, p, m, g.samples[m]);
    }
  }

  lemma AllRolledLater(c: Config, a: JobWorld, b: JobWorld, u: nat, groups: seq<Group>)
    requires c.Valid() && Later(a, b) && AllRolled(c, a.ops, u, groups)
    ensures AllRolled(c, b.ops, u, groups)
  {
    forall p: nat | p < |groups| ensures Rolled(c, b.ops, u, p, groups[p]) { RolledLater(c, a, b, u, p, groups[p]); }
  }

  lemma BatchLater(c: Config, a: JobWorld, b: JobWorld, u: nat, batch: seq<Group>)
    requires c.Valid() && Later(a, b) && IsBatch(c, a.ops, u, batch)
    ensures IsBatch(c, b.ops, u, batch)
  {
    var groups, at :| |groups| == Max(0, c.prompts) && AllRolled(c, a.ops, u, groups) && Signals(groups, at, batch);
    AllRolledLater(c, a, b, u, groups);
  }

  lemma GroupLater(c: Config, a: JobWorld, b: JobWorld, e: Event)
    requires c.Valid() && Later(a, b) && True(c, a, e)
    requires e.GroupCompleted? || e.AdvantageComputed? || e.ZeroAdvantage?
    ensures True(c, b, e)
  {
    match e
    case GroupCompleted(u, p, rewards) =>
      var g :| Rolled(c, a.ops, u, p, g) && Rewarded(g, rewards);
      RolledLater(c, a, b, u, p, g);
    case AdvantageComputed(u, p, zero) =>
      var g :| Rolled(c, a.ops, u, p, g) && (zero <==> !HasSignal(g));
      RolledLater(c, a, b, u, p, g);
    case ZeroAdvantage(u, p) =>
      var g :| Rolled(c, a.ops, u, p, g) && !HasSignal(g);
      RolledLater(c, a, b, u, p, g);
  }

  lemma UpliftLater(c: Config, a: JobWorld, b: JobWorld, baseline: real, trained: real)
    requires Later(a, b) && Uplift(c, a, baseline, trained)
    ensures Uplift(c, b, baseline, trained)
  {
    var reference :| SavedAs(a.ops, 0, false, reference) && IsAccuracy(a.ops, reference, c.heldout, baseline);
    var cp :| Promoted(cp) in a.events && IsAccuracy(a.ops, cp.reference, c.heldout, trained);
    AccuracyLater(a, b, reference, c.heldout, baseline);
    AccuracyLater(a, b, cp.reference, c.heldout, trained);
    assert SavedAs(b.ops, 0, false, reference) && Promoted(cp) in b.events;
  }

  lemma TrueLater(c: Config, a: JobWorld, b: JobWorld, e: Event)
    requires c.Valid() && Later(a, b) && True(c, a, e)
    ensures True(c, b, e)
  {
    match e
    case BaselineEvaluated(reference, accuracy) => AccuracyLater(a, b, reference, c.calibration, accuracy);
    case GroupCompleted(_, _, _) => GroupLater(c, a, b, e);
    case AdvantageComputed(_, _, _) => GroupLater(c, a, b, e);
    case ZeroAdvantage(_, _) => GroupLater(c, a, b, e);
    case UpdateCompleted(u, skipped) => if skipped { BatchLater(c, a, b, u, []); }
    case CheckpointEvaluated(cp) => ScoredLater(c, a, b, cp);
    case Promoted(cp) => ScoredLater(c, a, b, cp);
    case HeldoutEvaluated(baseline, trained) => UpliftLater(c, a, b, baseline, trained);
    case Completed(reference, accuracy) => AccuracyLater(a, b, reference, c.heldout, accuracy);
    case _ =>
  }

  lemma MemoLater(c: Config, a: JobWorld, b: JobWorld, memo: Memo)
    requires Later(a, b) && MemoOk(c, a.ops, memo)
    ensures MemoOk(c, b.ops, memo)
  {
    forall k | 0 <= k < |memo.checkpoints| ensures Scored(c, b.ops, memo.checkpoints[k]) {
      ScoredLater(c, a, b, memo.checkpoints[k]);
    }
  }

  lemma PassLater(c: Config, a: JobWorld, b: JobWorld, ctl: Ctl)
    requires c.Valid() && Later(a, b) && ctl.Evaluating? && CtlOk(c, a, ctl)
    ensures CtlOk(c, b, ctl)
  {
    MemoLater(c, a, b, ctl.memo);
    forall i | 0 <= i < |ctl.correct|
      ensures Asked(b.ops, ctl.reference, ctl.split, i)
      ensures ctl.correct[i] <==> Right(b.ops, ctl.reference, ctl.split, i)
    {
      assert Asked(a.ops, ctl.reference, ctl.split, i);
    }
    if ctl.after.ThenFinish? { AccuracyLater(a, b, ctl.memo.baseline, c.heldout, ctl.after.baseline); }
  }

  lemma RollingLater(c: Config, a: JobWorld, b: JobWorld, ctl: Ctl)
    requires c.Valid() && Later(a, b) && ctl.Rolling? && CtlOk(c, a, ctl)
    ensures CtlOk(c, b, ctl)
  {
    MemoLater(c, a, b, ctl.memo);
    AllRolledLater(c, a, b, ctl.update, ctl.groups);
    forall m: nat | m < |ctl.members| ensures SampledAs(c, b.ops, ctl.update, |ctl.groups|, m, ctl.members[m]) {
      assert SampledAs(c, a.ops, ctl.update, |ctl.groups|, m, ctl.members[m]);
    }
  }

  lemma FinishedLater(c: Config, a: JobWorld, b: JobWorld, ctl: Ctl)
    requires c.Valid() && Later(a, b) && ctl.Finished? && CtlOk(c, a, ctl)
    ensures CtlOk(c, b, ctl)
  {
    MemoLater(c, a, b, ctl.memo);
    AccuracyLater(a, b, ctl.promoted.reference, c.heldout, ctl.heldout);
    var baseline :| HeldoutEvaluated(baseline, ctl.heldout) in a.events
      && IsAccuracy(a.ops, ctl.memo.baseline, c.heldout, baseline);
    AccuracyLater(a, b, ctl.memo.baseline, c.heldout, baseline);
    assert HeldoutEvaluated(baseline, ctl.heldout) in b.events;
  }

  lemma CtlLater(c: Config, a: JobWorld, b: JobWorld, ctl: Ctl)
    requires c.Valid() && Later(a, b) && CtlOk(c, a, ctl)
    ensures CtlOk(c, b, ctl)
  {
    match ctl
    case SavingBaseline =>
    case Stopped(_) =>
    case Evaluating(_, _, _, _, _) => PassLater(c, a, b, ctl);
    case Rolling(_, _, _, _) => RollingLater(c, a, b, ctl);
    case Finished(_, _, _) => FinishedLater(c, a, b, ctl);
    case Forwarding(memo, u, batch) =>
      MemoLater(c, a, b, memo);
      BatchLater(c, a, b, u, batch);
    case Training(memo, u, batch) =>
      MemoLater(c, a, b, memo);
      BatchLater(c, a, b, u, batch);
    case _ => MemoLater(c, a, b, ctl.memo);
  }

  // ----- counting -----

  lemma {:induction false} CountedRight(ops: Ops, reference: string, split: seq<Example>, correct: seq<bool>)
    requires PassOk(ops, reference, split, correct)
    ensures CountTrue(correct) == |set i: nat | i < |correct| && Right(ops, reference, split, i)|
  {
    if correct != [] {
      var last := |correct| - 1;
      CountedRight(ops, reference, split, correct[..last]);
      OneMoreRight(ops, reference, split, last);
      assert correct[last] <==> Right(ops, reference, split, last);
    }
  }

  lemma OneMoreRight(ops: Ops, reference: string, split: seq<Example>, n: nat)
    requires n < |split|
    ensures |set i: nat | i < n + 1 && Right(ops, reference, split, i)|
      == |set i: nat | i < n && Right(ops, reference, split, i)| + if Right(ops, reference, split, n) then 1 else 0
  {
    var before := set i: nat | i < n && Right(ops, reference, split, i);
    var after := set i: nat | i < n + 1 && Right(ops, reference, split, i);
    assert after == if Right(ops, reference, split, n) then before + {n} else before;
  }

  /** A pass that has come to the end of its split has the accuracy of the journal. */
  lemma PassIsAccuracy(ops: Ops, reference: string, split: seq<Example>, correct: seq<bool>)
    requires PassOk(ops, reference, split, correct) && |correct| == |split|
    ensures IsAccuracy(ops, reference, split, Accuracy(correct))
  {
    CountedRight(ops, reference, split, correct);
    assert RightOnes(ops, reference, split) == set i: nat | i < |correct| && Right(ops, reference, split, i);
  }

  // ----- calls -----

  /** The next control point fits the world, and what is emitted is true of it. */
  ghost predicate GoesOn(c: Config, w: JobWorld, next: Ctl, emitted: seq<Event>)
    requires c.Valid()
  {
    CtlOk(c, w, next) && forall e :: e in emitted ==> True(c, w, e)
  }

  /** The journal has the answer to the call at hand. */
  ghost predicate Has(c: Config, w: JobWorld, ctl: Ctl, r: Answer)
    requires c.Valid()
  {
    && Next(c, ctl).Call? && Next(c, ctl).id in w.ops && w.ops[Next(c, ctl).id] == Record(Next(c, ctl).input, r)
    && Fits(Next(c, ctl).input, r)
  }

  lemma PassAnswered(c: Config, w: JobWorld, ctl: Ctl, r: Answer)
    requires c.Valid() && ctl.Evaluating? && CtlOk(c, w, ctl) && Has(c, w, ctl, r)
    ensures GoesOn(c, w, Advance(c, ctl, r), Emits(ctl, r))
  {
    var i := |ctl.correct|;
    if r.Predicted? {
      assert Asked(w.ops, ctl.reference, ctl.split, i);
      assert Right(w.ops, ctl.reference, ctl.split, i) <==> r.intent == ctl.split[i].intent;
    }
  }

  lemma RollAnswered(c: Config, w: JobWorld, ctl: Ctl, r: Answer)
    requires c.Valid() && ctl.Rolling? && CtlOk(c, w, ctl) && Has(c, w, ctl, r)
    ensures GoesOn(c, w, Advance(c, ctl, r), Emits(ctl, r))
  {
    if r.Sampled? { assert SampledAs(c, w.ops, ctl.update, |ctl.groups|, |ctl.members|, r.sample); }
  }

  lemma SaveAnswered(c: Config, w: JobWorld, ctl: Ctl, r: Answer)
    requires c.Valid() && CtlOk(c, w, ctl) && Has(c, w, ctl, r)
    requires ctl.SavingBaseline? || ctl.SavingTraining? || ctl.SavingInference?
    ensures GoesOn(c, w, Advance(c, ctl, r), Emits(ctl, r))
  {
  }

  lemma OtherAnswered(c: Config, w: JobWorld, ctl: Ctl, r: Answer)
    requires c.Valid() && (ctl.Forwarding? || ctl.Training?) && CtlOk(c, w, ctl) && Has(c, w, ctl, r)
    ensures GoesOn(c, w, Advance(c, ctl, r), Emits(ctl, r))
  {
  }

  lemma Answered(c: Config, w: JobWorld, ctl: Ctl, r: Answer)
    requires c.Valid() && CtlOk(c, w, ctl) && Has(c, w, ctl, r)
    ensures GoesOn(c, w, Advance(c, ctl, r), Emits(ctl, r))
  {
    if ctl.Evaluating? { PassAnswered(c, w, ctl, r); }
    else if ctl.Rolling? { RollAnswered(c, w, ctl, r); }
    else if ctl.SavingBaseline? || ctl.SavingTraining? || ctl.SavingInference? { SaveAnswered(c, w, ctl, r); }
    else { OtherAnswered(c, w, ctl, r); }
  }

  /** Events that are true are appended. */
  lemma Appended(c: Config, w: JobWorld, emitted: seq<Event>)
    requires c.Valid() && WorldOk(c, w) && forall e :: e in emitted ==> True(c, w, e)
    ensures var after := w.(events := AppendAll(w.events, emitted));
      WorldOk(c, after) && Later(w, after) && forall e :: e in emitted ==> e in after.events
  {
    var after := w.(events := AppendAll(w.events, emitted));
    forall e ensures e in after.events <==> e in w.events || e in emitted {
      Account.AppendAllMembers(w.events, emitted, e);
    }
    forall e | e in after.events ensures True(c, after, e) { TrueLater(c, w, after, e); }
    forall k | 0 <= k < |w.model| ensures IsBatch(c, after.ops, w.model[k].update, w.model[k].batch) {
      BatchLater(c, w, after, w.model[k].update, w.model[k].batch);
    }
  }

  lemma Confirmed(c: Config, b: Backend, w: JobWorld, ctl: Ctl)
    requires c.Valid() && CtlOk(c, w, ctl) && WorldOk(c, w) && Next(c, ctl).Call?
    ensures var after := Confirm(ProviderOf(b), w, Next(c, ctl).id, Next(c, ctl).input);
      WorldOk(c, after) && Later(w, after)
  {
    var Call(id, input) := Next(c, ctl);
    var after := Confirm(ProviderOf(b), w, id, input);
    forall e | e in after.events ensures True(c, after, e) { TrueLater(c, w, after, e); }
    Account.CallShape(c, ctl);
    forall k | 0 <= k < |after.model|
      ensures after.model[k].Train? && IsBatch(c, after.ops, after.model[k].update, after.model[k].batch)
    {
      if k < |w.model| {
        assert after.model[k] == w.model[k];
        BatchLater(c, w, after, w.model[k].update, w.model[k].batch);
      } else {
        BatchLater(c, w, after, ctl.update, ctl.batch);
      }
    }
  }

  lemma CallOk(c: Config, b: Backend, s: JobState)
    requires c.Valid() && CtlOk(c, s.world, s.ctl) && WorldOk(c, s.world) && !s.uncertain && Next(c, s.ctl).Call?
    ensures var next := Step(ProgramOf(c), ProviderOf(b), s); CtlOk(c, next.world, next.ctl) && WorldOk(c, next.world)
  {
    var Call(id, input) := Next(c, s.ctl);
    var w := Confirm(ProviderOf(b), s.world, id, input);
    Confirmed(c, b, s.world, s.ctl);
    if w.ops[id].input == input {
      var r := w.ops[id].result;
      CtlLater(c, s.world, w, s.ctl);
      Answered(c, w, s.ctl, r);
      Appended(c, w, Emits(s.ctl, r));
      CtlLater(c, w, w.(events := AppendAll(w.events, Emits(s.ctl, r))), Advance(c, s.ctl, r));
    }
  }

  // ----- points that make no call -----

  /** A pass is over. */
  lemma PassSaid(c: Config, w: JobWorld, ctl: Ctl)
    requires c.Valid() && ctl.Evaluating? && |ctl.correct| == |ctl.split| && CtlOk(c, w, ctl)
    ensures forall e :: e in Says(c, ctl) ==> True(c, w, e)
    ensures !ctl.after.ThenFinish? ==> CtlOk(c, w, ResumePoint(c, ctl))
    ensures ctl.after.ThenFinish? ==> IsAccuracy(w.ops, ctl.reference, c.heldout, Accuracy(ctl.correct))
  {
    PassIsAccuracy(w.ops, ctl.reference, ctl.split, ctl.correct);
    if ctl.after.ThenBoundary? { BoundaryScored(c, w.ops, ctl.memo, ctl.reference, ctl.after, Accuracy(ctl.correct)); }
  }

  lemma BoundaryScored(c: Config, ops: Ops, memo: Memo, reference: string, after: After, accuracy: real)
    requires after.ThenBoundary? && MemoOk(c, ops, memo) && IsAccuracy(ops, reference, c.calibration, accuracy)
    requires SavedAs(ops, after.update, false, reference) && SavedAs(ops, after.update, true, after.training)
    ensures
      var cp := Checkpoint(reference, after.training, after.update, accuracy);
      Scored(c, ops, cp) && MemoOk(c, ops, memo.(checkpoints := memo.checkpoints + [cp]))
  {
  }

  lemma PassResumed(c: Config, w: JobWorld, ctl: Ctl)
    requires c.Valid() && ctl.Evaluating? && |ctl.correct| == |ctl.split| && CtlOk(c, w, ctl) && WorldOk(c, w)
    ensures var after := w.(events := AppendAll(w.events, Says(c, ctl)));
      CtlOk(c, after, ResumePoint(c, ctl)) && WorldOk(c, after)
  {
    var after := w.(events := AppendAll(w.events, Says(c, ctl)));
    PassSaid(c, w, ctl);
    Appended(c, w, Says(c, ctl));
    if ctl.after.ThenFinish? {
      FinishedOk(c, w, after, ctl);
    } else {
      CtlLater(c, w, after, ResumePoint(c, ctl));
    }
  }

  lemma FinishedOk(c: Config, w: JobWorld, after: JobWorld, ctl: Ctl)
    requires c.Valid() && ctl.Evaluating? && ctl.after.ThenFinish? && CtlOk(c, w, ctl) && Later(w, after)
    requires IsAccuracy(w.ops, ctl.reference, c.heldout, Accuracy(ctl.correct))
    requires HeldoutEvaluated(ctl.after.baseline, Accuracy(ctl.correct)) in after.events
    ensures CtlOk(c, after, ResumePoint(c, ctl))
  {
    MemoLater(c, w, after, ctl.memo);
    AccuracyLater(w, after, ctl.reference, c.heldout, Accuracy(ctl.correct));
    AccuracyLater(w, after, ctl.memo.baseline, c.heldout, ctl.after.baseline);
  }

  /** The samples of a prompt are complete. */
  lemma GroupClosed(c: Config, w: JobWorld, ctl: Ctl)
    requires c.Valid() && ctl.Rolling? && CtlOk(c, w, ctl) && Next(c, ctl).Move? && |ctl.groups| < c.prompts
    requires |ctl.members| >= 2
    ensures Rolled(c, w.ops, ctl.update, |ctl.groups|, GroupOf(c, ctl.update, |ctl.groups|, ctl.members))
    ensures GoesOn(c, w, ResumePoint(c, ctl), Says(c, ctl))
  {
    var p, g := |ctl.groups|, GroupOf(c, ctl.update, |ctl.groups|, ctl.members);
    ZeroIsNoSignal(g);
    assert Rolled(c, w.ops, ctl.update, p, g);
    assert Rewarded(g, Rewards(g));
    GroupAdded(c, w.ops, ctl.update, ctl.groups, g);
  }

  lemma GroupAdded(c: Config, ops: Ops, u: nat, groups: seq<Group>, g: Group)
    requires c.Valid() && AllRolled(c, ops, u, groups) && Rolled(c, ops, u, |groups|, g)
    ensures AllRolled(c, ops, u, groups + [g])
  {
  }

  lemma UpdateRolled(c: Config, w: JobWorld, ctl: Ctl)
    requires c.Valid() && ctl.Rolling? && CtlOk(c, w, ctl) && |ctl.groups| >= c.prompts
    ensures GoesOn(c, w, ResumePoint(c, ctl), Says(c, ctl))
  {
    var at := TrainableInOrder(ctl.groups);
    assert IsBatch(c, w.ops, ctl.update, Trainable(ctl.groups));
  }

  lemma RollSaid(c: Config, w: JobWorld, ctl: Ctl)
    requires c.Valid() && OnSchedule(c, ctl) && ctl.Rolling? && CtlOk(c, w, ctl) && Next(c, ctl).Move?
    ensures GoesOn(c, w, ResumePoint(c, ctl), Says(c, ctl))
  {
    if |ctl.groups| >= c.prompts {
      UpdateRolled(c, w, ctl);
    } else if |ctl.members| >= 2 {
      GroupClosed(c, w, ctl);
    }
  }

  lemma NoneDue(c: Config, ctl: Ctl)
    requires c.Valid() && OnSchedule(c, ctl) && ctl.Promoting? && ctl.memo.checkpoints == []
    ensures c.updates < 1
  {
    DueIff(c, LastUpdate(c));
    assert Due(c, LastUpdate(c)) == Steps(ctl.memo.checkpoints) == [];
    assert LastUpdate(c) !in Due(c, LastUpdate(c));
  }

  lemma PromotedOk(c: Config, w: JobWorld, ctl: Ctl)
    requires c.Valid() && OnSchedule(c, ctl) && ctl.Promoting? && CtlOk(c, w, ctl) && WorldOk(c, w)
    ensures var after := w.(events := AppendAll(w.events, Says(c, ctl)));
      CtlOk(c, after, ResumePoint(c, ctl)) && WorldOk(c, after)
  {
    var after := w.(events := AppendAll(w.events, Says(c, ctl)));
    if ctl.memo.checkpoints != [] {
      var k := FirstBestIsFirst(ctl.memo.checkpoints);
      assert True(c, w, Promoted(FirstBest(ctl.memo.checkpoints)));
    } else {
      NoneDue(c, ctl);
    }
    Appended(c, w, Says(c, ctl));
    MemoLater(c, w, after, ctl.memo);
  }

  lemma OtherSaid(c: Config, w: JobWorld, ctl: Ctl)
    requires c.Valid() && !ctl.Evaluating? && !ctl.Rolling? && !ctl.Promoting? && CtlOk(c, w, ctl)
    requires Next(c, ctl).Move? || Next(c, ctl).Pause?
    requires OnSchedule(c, ctl)
    ensures GoesOn(c, w, ResumePoint(c, ctl), Says(c, ctl))
  {
  }

  lemma QuietOk(c: Config, s: JobState)
    requires c.Valid() && CtlOk(c, s.world, s.ctl) && WorldOk(c, s.world) && OnSchedule(c, s.ctl)
    requires Next(c, s.ctl).Move? || Next(c, s.ctl).Pause?
    ensures var next := Quiet(ProgramOf(c), s); CtlOk(c, next.world, next.ctl) && WorldOk(c, next.world)
  {
    if s.ctl.Evaluating? {
      PassResumed(c, s.world, s.ctl);
    } else if s.ctl.Promoting? {
      PromotedOk(c, s.world, s.ctl);
    } else {
      if s.ctl.Rolling? { RollSaid(c, s.world, s.ctl); } else { OtherSaid(c, s.world, s.ctl); }
      var said := Says(c, s.ctl);
      Appended(c, s.world, said);
      CtlLater(c, s.world, s.world.(events := AppendAll(s.world.events, said)), ResumePoint(c, s.ctl));
    }
  }

  // ----- every run -----

  ghost predicate Sound(c: Config, s: JobState)
    requires c.Valid()
  {
    CtlOk(c, s.world, s.ctl) && WorldOk(c, s.world)
  }

  lemma StepSound(c: Config, b: Backend, s: JobState)
    requires c.Valid() && Sound(c, s) && OnSchedule(c, s.ctl)
    ensures Sound(c, Step(ProgramOf(c), ProviderOf(b), s))
  {
    if !s.uncertain {
      if Next(c, s.ctl).Call? {
        CallOk(c, b, s);
      } else if !Next(c, s.ctl).Stop? {
        QuietOk(c, s);
      }
    }
  }

  lemma {:induction false} RunSound(c: Config, b: Backend, reference: string, n: nat)
    requires c.Valid()
    ensures Sound(c, Uninterrupted(c, b, reference, n))
  {
    if n == 0 {
      StartSound(c, reference);
    } else {
      RunSound(c, b, reference, n - 1);
      RunFacts(c, b, reference, n - 1);
      StepSound(c, b, Uninterrupted(c, b, reference, n - 1));
    }
  }

  lemma StartSound(c: Config, reference: string)
    requires c.Valid()
    ensures var s := Begin(ProgramOf(c), FreshWorld(reference)); Sound(c, s) && SavesHold(s)
  {
  }

  /** At every point of every run, every event is true of the journal. */
  lemma EventsTellJournal(c: Config, b: Backend, reference: string, n: nat, e: Event)
    requires c.Valid() && e in Uninterrupted(c, b, reference, n).world.events
    ensures True(c, Uninterrupted(c, b, reference, n).world, e)
  {
    RunSound(c, b, reference, n);
  }

  /**
   At every point of every run, each checkpoint so far bears the references it was saved under, and its accuracy is
   the part of the calibration examples that the journal has it answering right.
   */
  lemma CheckpointsAreScored(c: Config, b: Backend, reference: string, n: nat, cp: Checkpoint)
    requires c.Valid() && cp in Account.Evaluated(Uninterrupted(c, b, reference, n).ctl)
    ensures Scored(c, Uninterrupted(c, b, reference, n).world.ops, cp)
  {
    RunSound(c, b, reference, n);
  }

  lemma PromotedIsOne(c: Config, b: Backend, reference: string, n: nat, cp: Checkpoint)
    requires c.Valid() && Uninterrupted(c, b, reference, n).ctl.Finished?
    requires Promoted(cp) in Uninterrupted(c, b, reference, n).world.events
    ensures cp == Uninterrupted(c, b, reference, n).ctl.promoted
  {
    Account.EventsAreTruthful(c, b, reference, n, Promoted(cp));
  }

  lemma UpliftOfRun(c: Config, b: Backend, reference: string, n: nat, x: real, y: real)
    requires c.Valid() && Uninterrupted(c, b, reference, n).ctl.Finished?
    requires HeldoutEvaluated(x, y) in Uninterrupted(c, b, reference, n).world.events
    ensures
      var s := Uninterrupted(c, b, reference, n);
      && IsAccuracy(s.world.ops, s.ctl.memo.baseline, c.heldout, x)
      && IsAccuracy(s.world.ops, s.ctl.promoted.reference, c.heldout, y)
  {
    var s := Uninterrupted(c, b, reference, n);
    EventsTellJournal(c, b, reference, n, HeldoutEvaluated(x, y));
    RunSound(c, b, reference, n);
    forall cp | Promoted(cp) in s.world.events ensures cp == s.ctl.promoted { PromotedIsOne(c, b, reference, n, cp); }
    UpliftOfOne(c, s.world, s.ctl.memo.baseline, s.ctl.promoted, x, y);
  }

  lemma UpliftOfOne(c: Config, w: JobWorld, baseline: string, promoted: Checkpoint, x: real, y: real)
    requires Uplift(c, w, x, y) && SavedAs(w.ops, 0, false, baseline)
    requires forall cp :: Promoted(cp) in w.events ==> cp == promoted
    ensures IsAccuracy(w.ops, baseline, c.heldout, x) && IsAccuracy(w.ops, promoted.reference, c.heldout, y)
  {
    var r :| SavedAs(w.ops, 0, false, r) && IsAccuracy(w.ops, r, c.heldout, x);
    var cp :| Promoted(cp) in w.events && IsAccuracy(w.ops, cp.reference, c.heldout, y);
  }

  lemma CompletionOfRun(c: Config, b: Backend, reference: string, n: nat, name: string, y: real)
    requires c.Valid() && Uninterrupted(c, b, reference, n).ctl.Finished?
    requires Completed(name, y) in Uninterrupted(c, b, reference, n).world.events
    ensures
      var s := Uninterrupted(c, b, reference, n);
      name == s.ctl.promoted.reference && IsAccuracy(s.world.ops, name, c.heldout, y)
  {
    EventsTellJournal(c, b, reference, n, Completed(name, y));
    var cp :| Promoted(cp) in Uninterrupted(c, b, reference, n).world.events && cp.reference == name;
    PromotedIsOne(c, b, reference, n, cp);
  }

  /**
   Both held-out figures of a finished run are accuracies on the held-out examples, in their places: first that of the
   untrained baseline, then that of the promoted checkpoint, which the job is completed with.
   */
  lemma HeldoutFigures(c: Config, b: Backend, reference: string, n: nat)
    requires c.Valid() && Uninterrupted(c, b, reference, n).ctl.Finished?
    ensures
      var s := Uninterrupted(c, b, reference, n);
      && SavedAs(s.world.ops, 0, false, s.ctl.memo.baseline)
      && IsAccuracy(s.world.ops, s.ctl.promoted.reference, c.heldout, s.ctl.heldout)
      && (exists x :: HeldoutEvaluated(x, s.ctl.heldout) in s.world.events)
      && (forall x, y :: HeldoutEvaluated(x, y) in s.world.events ==>
            && IsAccuracy(s.world.ops, s.ctl.memo.baseline, c.heldout, x)
            && IsAccuracy(s.world.ops, s.ctl.promoted.reference, c.heldout, y))
      && (forall name, y :: Completed(name, y) in s.world.events ==>
            name == s.ctl.promoted.reference && IsAccuracy(s.world.ops, name, c.heldout, y))
  {
    var s := Uninterrupted(c, b, reference, n);
    RunSound(c, b, reference, n);
    forall x, y | HeldoutEvaluated(x, y) in s.world.events
      ensures IsAccuracy(s.world.ops, s.ctl.memo.baseline, c.heldout, x)
      ensures IsAccuracy(s.world.ops, s.ctl.promoted.reference, c.heldout, y)
    {
      UpliftOfRun(c, b, reference, n, x, y);
    }
    forall name, y | Completed(name, y) in s.world.events
      ensures name == s.ctl.promoted.reference && IsAccuracy(s.world.ops, name, c.heldout, y)
    {
      CompletionOfRun(c, b, reference, n, name, y);
    }
  }

  /**
   Every training step was on the journalled groups of its update that have signal, in the order of their prompts.
   */
  lemma TrainedOnJournal(c: Config, b: Backend, reference: string, n: nat, k: nat)
    requires c.Valid() && k < |Uninterrupted(c, b, reference, n).world.model|
    ensures
      var w := Uninterrupted(c, b, reference, n).world;
      w.model[k].Train? && IsBatch(c, w.ops, w.model[k].update, w.model[k].batch)
  {
    RunSound(c, b, reference, n);
  }

  /** A run ends without a result only for groups that are too small, or for want of updates. */
  lemma FailsOnlyFor(c: Config, b: Backend, reference: string, n: nat)
    requires c.Valid() && Uninterrupted(c, b, reference, n).ctl.Stopped?
    ensures
      var ctl := Uninterrupted(c, b, reference, n).ctl;
      FailsFor(c, ctl.reason)
  {
    RunSound(c, b, reference, n);
  }

  // ----- what a checkpoint holds -----

  /** The state is the training for the updates through `v`, and all of it. */
  ghost predicate Holds(model: seq<Input>, v: nat, state: seq<Input>) {
    && state <= model
    && (forall i :: 0 <= i < |state| ==> model[i].Train? && model[i].update <= v)
    && (forall i :: |state| <= i < |model| ==> model[i].Train? && model[i].update > v)
  }

  ghost predicate SavesHold(s: JobState) {
    forall v: nat, training :: SaveId(v, training) in s.world.ops ==>
      && s.world.ops[SaveId(v, training)].input == Save(v, training)
      && s.world.ops[SaveId(v, training)].result.Saved?
      && Holds(s.world.model, v, s.world.ops[SaveId(v, training)].result.state)
      && (TrainedThrough(s.ctl).Some? ==> v <= TrainedThrough(s.ctl).value)
  }

  /** A save that is confirmed now holds all training so far. */
  lemma SavedNow(c: Config, b: Backend, s: JobState)
    requires c.Valid() && !s.uncertain && OnSchedule(c, s.ctl) && Trains(s) && SavesHold(s)
    requires s.ctl.SavingBaseline? || s.ctl.SavingTraining? || s.ctl.SavingInference?
    ensures SavesHold(Step(ProgramOf(c), ProviderOf(b), s))
  {
    var Call(id, input) := Next(c, s.ctl);
    var w := Confirm(ProviderOf(b), s.world, id, input);
    assert TrainedThrough(s.ctl) == Some(id.step);
    assert w.model == s.world.model && Holds(w.model, id.step, w.model);
    SavesKept(s, w, id, Advance(c, s.ctl, w.ops[id].result), AppendAll(w.events, Emits(s.ctl, w.ops[id].result)));
  }

  /** One more save, of the state as it is. */
  lemma SavesKept(s: JobState, w: JobWorld, id: Id, next: Ctl, events: seq<Event>)
    requires SavesHold(s) && id.SaveId? && id in w.ops && w.model == s.world.model
    requires forall k :: k in w.ops && k != id ==> k in s.world.ops && w.ops[k] == s.world.ops[k]
    requires id in s.world.ops ==> w.ops[id] == s.world.ops[id]
    requires id !in s.world.ops ==>
      (&& w.ops[id].input == Save(id.step, id.training)
       && w.ops[id].result.Saved? && w.ops[id].result.state == w.model)
    requires Holds(w.model, id.step, w.model)
    requires TrainedThrough(s.ctl) == Some(id.step)
    requires TrainedThrough(next).Some? ==> TrainedThrough(next).value >= id.step
    ensures SavesHold(State(next, w.(events := events), false))
  {
  }

  lemma TrainedNow(c: Config, b: Backend, s: JobState)
    requires c.Valid() && !s.uncertain && OnSchedule(c, s.ctl) && s.ctl.Training? && SavesHold(s)
    ensures SavesHold(Step(ProgramOf(c), ProviderOf(b), s))
  {
    var Call(id, input) := Next(c, s.ctl);
    var w := Confirm(ProviderOf(b), s.world, id, input);
    forall v: nat, training | SaveId(v, training) in w.ops
      ensures Holds(w.model, v, w.ops[SaveId(v, training)].result.state)
    {
      assert v < s.ctl.update;
    }
  }

  lemma StepSavesHold(c: Config, b: Backend, s: JobState)
    requires c.Valid() && OnSchedule(c, s.ctl) && Trains(s) && SavesHold(s)
    ensures SavesHold(Step(ProgramOf(c), ProviderOf(b), s))
  {
    if !s.uncertain && !Next(c, s.ctl).Stop? {
      if s.ctl.SavingBaseline? || s.ctl.SavingTraining? || s.ctl.SavingInference? {
        SavedNow(c, b, s);
      } else if s.ctl.Training? {
        TrainedNow(c, b, s);
      } else {
        OtherSavesHold(c, b, s);
      }
    }
  }

  lemma OtherSavesHold(c: Config, b: Backend, s: JobState)
    requires c.Valid() && !s.uncertain && OnSchedule(c, s.ctl) && SavesHold(s) && !Next(c, s.ctl).Stop?
    requires !s.ctl.SavingBaseline? && !s.ctl.SavingTraining? && !s.ctl.SavingInference? && !s.ctl.Training?
    ensures SavesHold(Step(ProgramOf(c), ProviderOf(b), s))
  {
    ThroughMonotone(c, s.ctl, AnswerAt(c, b, s));
    var next := Step(ProgramOf(c), ProviderOf(b), s);
    assert next.world.model == s.world.model;
    forall v: nat, training ensures SaveId(v, training) in next.world.ops ==>
      SaveId(v, training) in s.world.ops
      && next.world.ops[SaveId(v, training)] == s.world.ops[SaveId(v, training)]
    {
    }
  }

  /** At every point of every run, the checkpoint saved at an update holds the training through that update. */
  lemma {:induction false} CheckpointsHold(c: Config, b: Backend, reference: string, n: nat)
    requires c.Valid()
    ensures SavesHold(Uninterrupted(c, b, reference, n))
  {
    if n == 0 {
      StartSound(c, reference);
    } else {
      CheckpointsHold(c, b, reference, n - 1);
      RunFacts(c, b, reference, n - 1);
      StepSavesHold(c, b, Uninterrupted(c, b, reference, n - 1));
    }
  }
}
