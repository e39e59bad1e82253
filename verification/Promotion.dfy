/**
 What the uninterrupted executor run itself achieves: training in order, checkpoints where they are due, the first
 best promoted.
 */
module Promotion {
  import opened Basics
  import opened Replay
  import opened Executor
  import opened Transparency

  /** Position `k` holds the first of the best. */
  ghost predicate IsFirstBest(cs: seq<Checkpoint>, k: nat) {
    && k < |cs|
    && (forall i :: 0 <= i < k ==> cs[i].accuracy < cs[k].accuracy)
    && (forall i :: k < i < |cs| ==> cs[i].accuracy <= cs[k].accuracy)
  }

  lemma {:induction false} FirstBestIsFirst(cs: seq<Checkpoint>) returns (k: nat)
    requires cs != []
    ensures IsFirstBest(cs, k) && FirstBest(cs) == cs[k]
  {
    var last := |cs| - 1;
    if last == 0 {
      k := 0;
    } else {
      k := FirstBestIsFirst(cs[..last]);
      assert forall i :: 0 <= i < last ==> cs[..last][i] == cs[i];
      if cs[k].accuracy < cs[last].accuracy {
        k := last;
      }
    }
  }

  /** The updates through `u` that end in a checkpoint. */
  function Due(c: Config, u: nat): seq<nat>
    requires c.every != 0
  {
    if u == 0 then [] else Due(c, u - 1) + (if IsBoundary(c, u) then [u] else [])
  }

  /** Which updates are due a checkpoint: the multiples of `every`, and the last one; each once, in order. */
  lemma {:induction false} DueIff(c: Config, u: nat)
    requires c.every != 0
    ensures forall v: nat :: v in Due(c, u) <==> 1 <= v <= u && (v == c.updates || v % c.every == 0)
    ensures forall i, j :: 0 <= i < j < |Due(c, u)| ==> Due(c, u)[i] < Due(c, u)[j]
  {
    if u > 0 {
      DueIff(c, u - 1);
      var before := Due(c, u - 1);
      assert forall i :: 0 <= i < |before| ==> before[i] in before;
    }
  }

  function Steps(cs: seq<Checkpoint>): seq<nat> {
    seq(|cs|, i requires 0 <= i < |cs| => cs[i].step)
  }

  function LastUpdate(c: Config): nat { if c.updates < 0 then 0 else c.updates }

  /** How many updates have had their checkpoint, if due, at a control point; and the memo then. */
  function Passed(c: Config, ctl: Ctl): Option<(Memo, int)> {
    match ctl
    case SavingBaseline => None
    case Stopped(_) => None
    case Evaluating(memo, _, _, _, ThenTrain) => Some((memo, 0))
    case Evaluating(memo, _, _, _, ThenBoundary(u, _)) => Some((memo, u - 1))
    case Evaluating(memo, _, _, _, _) => Some((memo, LastUpdate(c)))
    case NextUpdate(memo, u) => Some((memo, u - 1))
    case Rolling(memo, u, _, _) => Some((memo, u - 1))
    case Forwarding(memo, u, _) => Some((memo, u - 1))
    case Training(memo, u, _) => Some((memo, u - 1))
    case Checkpointing(memo, u) => Some((memo, u - 1))
    case SavingTraining(memo, u) => Some((memo, u - 1))
    case SavingInference(memo, u, _) => Some((memo, u - 1))
    case Boundary(memo, u) => Some((memo, u))
    case Promoting(memo) => Some((memo, LastUpdate(c)))
    case Finished(memo, _, _) => Some((memo, LastUpdate(c)))
  }

  /** The update a control point is working on. */
  function Working(ctl: Ctl): Option<nat> {
    match ctl
    case Rolling(_, u, _, _) => Some(u)
    case Forwarding(_, u, _) => Some(u)
    case Training(_, u, _) => Some(u)
    case Checkpointing(_, u) => Some(u)
    case SavingTraining(_, u) => Some(u)
    case SavingInference(_, u, _) => Some(u)
    case Evaluating(_, _, _, _, ThenBoundary(u, _)) => Some(u)
    case Boundary(_, u) => Some(u)
    case _ => None
  }

  function PromotedAt(ctl: Ctl): Option<(Memo, Checkpoint)> {
    match ctl
    case Evaluating(memo, _, _, _, ThenTrained(p)) => Some((memo, p))
    case Evaluating(memo, _, _, _, ThenFinish(p, _)) => Some((memo, p))
    case Finished(memo, p, _) => Some((memo, p))
    case _ => None
  }

  /** Checkpoints so far are exactly those due, and whatever is promoted is the first best of them. */
  ghost predicate OnSchedule(c: Config, ctl: Ctl)
    requires c.every != 0
  {
    && (Passed(c, ctl).Some? ==>
          var (memo, k) := Passed(c, ctl).value;
          0 <= k <= LastUpdate(c) && Steps(memo.checkpoints) == Due(c, k))
    && (Working(ctl).Some? ==> 1 <= Working(ctl).value <= c.updates)
    && ((ctl.SavingTraining? || ctl.SavingInference? || (ctl.Evaluating? && ctl.after.ThenBoundary?)) ==>
          IsBoundary(c, Working(ctl).value))
    && (PromotedAt(ctl).Some? ==>
          var (memo, p) := PromotedAt(ctl).value;
          memo.checkpoints != [] && p == FirstBest(memo.checkpoints))
  }

  lemma AdvanceOnSchedule(c: Config, ctl: Ctl, r: Answer)
    requires c.Valid() && OnSchedule(c, ctl)
    ensures OnSchedule(c, Advance(c, ctl, r))
  {
  }

  lemma ResumeOnSchedule(c: Config, ctl: Ctl)
    requires c.Valid() && OnSchedule(c, ctl)
    ensures OnSchedule(c, ResumePoint(c, ctl))
  {
    if ctl.Evaluating? { EvaluatedOnSchedule(c, ctl); } else { MovedOnSchedule(c, ctl); }
  }

  lemma EvaluatedOnSchedule(c: Config, ctl: Ctl)
    requires c.Valid() && OnSchedule(c, ctl) && ctl.Evaluating?
    ensures OnSchedule(c, ResumePoint(c, ctl))
  {
    if ctl.after.ThenBoundary? {
      var memo := ResumePoint(c, ctl).memo;
      assert Steps(memo.checkpoints) == Steps(ctl.memo.checkpoints) + [ctl.after.update];
    }
  }

  lemma MovedOnSchedule(c: Config, ctl: Ctl)
    requires c.Valid() && OnSchedule(c, ctl) && !ctl.Evaluating?
    ensures OnSchedule(c, ResumePoint(c, ctl))
  {
  }

  // ----- training in order -----

  /** The last update that may have been trained. */
  function TrainedThrough(ctl: Ctl): Option<int> {
    match ctl
    case SavingBaseline => Some(0)
    case Evaluating(_, _, _, _, ThenTrain) => Some(0)
    case Evaluating(_, _, _, _, ThenBoundary(u, _)) => Some(u)
    case Evaluating(_, _, _, _, _) => None
    case NextUpdate(_, u) => Some(u - 1)
    case Rolling(_, u, _, _) => Some(u - 1)
    case Forwarding(_, u, _) => Some(u - 1)
    case Training(_, u, _) => Some(u - 1)
    case Checkpointing(_, u) => Some(u)
    case SavingTraining(_, u) => Some(u)
    case SavingInference(_, u, _) => Some(u)
    case Boundary(_, u) => Some(u)
    case _ => None
  }

  /** Training inputs are applied in the order of their updates, at most one for each. */
  ghost predicate InOrder(model: seq<Input>) {
    && (forall i :: 0 <= i < |model| ==> model[i].Train?)
    && (forall i, j :: 0 <= i < j < |model| ==> model[i].update < model[j].update)
  }

  ghost predicate Trains(s: JobState) {
    && InOrder(s.world.model)
    && (TrainedThrough(s.ctl).Some? ==>
          forall i :: 0 <= i < |s.world.model| ==> s.world.model[i].update <= TrainedThrough(s.ctl).value)
  }

  lemma TrainsFrame(s: JobState, ctl: Ctl, w: JobWorld)
    requires Trains(s) && w.model == s.world.model
    requires TrainedThrough(ctl).Some? ==>
      TrainedThrough(s.ctl).Some? && TrainedThrough(s.ctl).value <= TrainedThrough(ctl).value
    ensures Trains(State(ctl, w, false))
  {
  }

  lemma TrainCall(s: JobState, batch: seq<Group>, w: JobWorld)
    requires Trains(s) && s.ctl.Training? && s.ctl.update >= 1
    requires w.model == s.world.model || w.model == s.world.model + [Train(s.ctl.update, batch)]
    ensures Trains(State(Checkpointing(s.ctl.memo, s.ctl.update), w, false))
    ensures Trains(State(BAD_ANSWER, w, false))
  {
  }

  /** Control points follow one another without going back in the updates. */
  lemma ThroughMonotone(c: Config, ctl: Ctl, r: Answer)
    requires c.Valid() && OnSchedule(c, ctl)
    ensures
      var next := if Next(c, ctl).Call? then Advance(c, ctl, r) else ResumePoint(c, ctl);
      TrainedThrough(next).Some? ==>
        TrainedThrough(ctl).Some? && TrainedThrough(ctl).value <= TrainedThrough(next).value
  {
    if Next(c, ctl).Call? { AdvanceMonotone(c, ctl, r); } else { ResumeMonotone(c, ctl); }
  }

  lemma AdvanceMonotone(c: Config, ctl: Ctl, r: Answer)
    requires c.Valid() && OnSchedule(c, ctl)
    ensures var next := Advance(c, ctl, r);
      TrainedThrough(next).Some? ==>
        TrainedThrough(ctl).Some? && TrainedThrough(ctl).value <= TrainedThrough(next).value
  {
  }

  lemma ResumeMonotone(c: Config, ctl: Ctl)
    requires c.Valid() && OnSchedule(c, ctl)
    ensures var next := ResumePoint(c, ctl);
      TrainedThrough(next).Some? ==>
        TrainedThrough(ctl).Some? && TrainedThrough(ctl).value <= TrainedThrough(next).value
  {
    if ctl.Evaluating? { EvaluatedMonotone(c, ctl); } else if ctl.Rolling? { RolledMonotone(c, ctl); }
  }

  lemma EvaluatedMonotone(c: Config, ctl: Ctl)
    requires c.Valid() && OnSchedule(c, ctl) && ctl.Evaluating?
    ensures var next := ResumePoint(c, ctl);
      TrainedThrough(next).Some? ==>
        TrainedThrough(ctl).Some? && TrainedThrough(ctl).value <= TrainedThrough(next).value
  {
  }

  lemma RolledMonotone(c: Config, ctl: Ctl)
    requires c.Valid() && ctl.Rolling?
    ensures var next := ResumePoint(c, ctl);
      TrainedThrough(next).Some? ==>
        TrainedThrough(ctl).Some? && TrainedThrough(ctl).value <= TrainedThrough(next).value
  {
  }

  lemma StepTrains(c: Config, b: Backend, s: JobState)
    requires c.Valid() && Trains(s) && OnSchedule(c, s.ctl)
    ensures Trains(Step(ProgramOf(c), ProviderOf(b), s))
  {
    var next := Step(ProgramOf(c), ProviderOf(b), s);
    if !s.uncertain && !next.uncertain && !Next(c, s.ctl).Stop? {
      if s.ctl.Training? {
        TrainCall(s, s.ctl.batch, next.world);
      } else {
        ThroughMonotone(c, s.ctl, AnswerAt(c, b, s));
        assert next.world.model == s.world.model;
        TrainsFrame(s, next.ctl, next.world);
      }
    }
  }

  /** The result of the call at a control point; any value where there is no call. */
  function AnswerAt(c: Config, b: Backend, s: JobState): Answer
    requires c.Valid()
  {
    match Next(c, s.ctl)
    case Call(id, input) => Confirm(ProviderOf(b), s.world, id, input).ops[id].result
    case _ => Ratios(0)
  }

  lemma {:induction false} RunFacts(c: Config, b: Backend, reference: string, n: nat)
    requires c.Valid()
    ensures
      var s := Uninterrupted(c, b, reference, n);
      OnSchedule(c, s.ctl) && Trains(s)
  {
    if n > 0 {
      RunFacts(c, b, reference, n - 1);
      var s := Uninterrupted(c, b, reference, n - 1);
      StepTrains(c, b, s);
      if !s.uncertain {
        match Next(c, s.ctl)
        case Call(_, _) => AdvanceOnSchedule(c, s.ctl, AnswerAt(c, b, s));
        case Stop =>
        case _ => ResumeOnSchedule(c, s.ctl);
      }
    }
  }

  lemma DueSteps(c: Config, cs: seq<Checkpoint>)
    requires c.every != 0 && Steps(cs) == Due(c, LastUpdate(c))
    ensures forall i, j :: 0 <= i < j < |cs| ==> cs[i].step < cs[j].step
  {
    DueIff(c, LastUpdate(c));
    forall i, j | 0 <= i < j < |cs| ensures cs[i].step < cs[j].step {
      assert Steps(cs)[i] < Steps(cs)[j];
    }
  }

  /**
   A finished run has made one checkpoint for every update that is due one, in order; it promoted the first of those
   with the best calibration accuracy; and the provider was trained at most once for each update, in update order.
   */
  lemma FinishedRun(c: Config, b: Backend, reference: string, n: nat)
    requires c.Valid()
    requires Uninterrupted(c, b, reference, n).ctl.Finished?
    ensures
      var s := Uninterrupted(c, b, reference, n);
      var cs := s.ctl.memo.checkpoints;
      && (forall v: nat :: v in Steps(cs) <==> 1 <= v <= c.updates && (v == c.updates || v % c.every == 0))
      && (forall i, j :: 0 <= i < j < |cs| ==> cs[i].step < cs[j].step) && InOrder(s.world.model)
      && exists k: nat :: IsFirstBest(cs, k) && s.ctl.promoted == cs[k]
  {
    RunFacts(c, b, reference, n);
    DueIff(c, LastUpdate(c));
    DueSteps(c, Uninterrupted(c, b, reference, n).ctl.memo.checkpoints);
    var k := FirstBestIsFirst(Uninterrupted(c, b, reference, n).ctl.memo.checkpoints);
  }
}
