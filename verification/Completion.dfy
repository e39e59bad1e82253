/** Every job that is left alone comes to its end, and what its end is can be told from the configuration. */
module Completion {
  import opened Basics
  import opened Replay
  import opened Executor
  import opened Transparency
  import opened Promotion
  import opened Worker
  import Account
  import Reports

  /** The ids of evaluation examples tell them apart. */
  ghost predicate Identified(c: Config) {
    forall x, y :: Evaluable(c, x) && Evaluable(c, y) && x.id == y.id ==> x == y
  }

  predicate Evaluable(c: Config, x: Example) { x in c.calibration || x in c.heldout }

  /** The last update whose forward pass may be confirmed. */
  function ForwardedThrough(ctl: Ctl): Option<int> {
    if ctl.Training? then Some(ctl.update) else TrainedThrough(ctl)
  }

  /** What a confirmed request was for follows from its id, or it is one that does not come again. */
  ghost predicate Known(c: Config, ctl: Ctl, id: Id, input: Input)
    requires c.Valid()
  {
    match id
    case RollId(u, p, m) => u >= 1 && p < c.prompts && input == Roll(u, p, m, Prompt(c, u, p))
    case ForwardId(u) => ForwardedThrough(ctl).Some? ==> u <= ForwardedThrough(ctl).value
    case TrainId(u) => TrainedThrough(ctl).Some? ==> u <= TrainedThrough(ctl).value
    case SaveId(step, training) => input == Save(step, training)
    case EvalId(reference, name, i) =>
      input.Eval? && input.reference == reference && input.index == i && input.example.id == name
      && Evaluable(c, input.example)
  }

  ghost predicate AllKnown(c: Config, s: JobState)
    requires c.Valid()
  {
    && !s.uncertain
    && (s.ctl.Evaluating? ==> s.ctl.split == c.calibration || s.ctl.split == c.heldout)
    && forall id :: id in s.world.ops ==> Known(c, s.ctl, id, s.world.ops[id].input)
  }

  /** A request that is confirmed already was for the same input. */
  lemma SameInput(c: Config, s: JobState)
    requires c.Valid() && Identified(c) && OnSchedule(c, s.ctl) && AllKnown(c, s) && Next(c, s.ctl).Call?
    ensures var Call(id, input) := Next(c, s.ctl);
      && Known(c, Forwarded(s.ctl), id, input) && (id in s.world.ops ==> s.world.ops[id].input == input)
  {
    var Call(id, input) := Next(c, s.ctl);
    if s.ctl.Evaluating? { assert s.ctl.split[|s.ctl.correct|] in s.ctl.split; }
    if id in s.world.ops { assert Known(c, s.ctl, id, s.world.ops[id].input); }
  }

  /** Where a call leads, as far as forward passes and training go. */
  function Forwarded(ctl: Ctl): Ctl {
    match ctl
    case Forwarding(memo, u, batch) => Training(memo, u, batch)
    case Training(memo, u, _) => Checkpointing(memo, u)
    case _ => ctl
  }

  lemma KnownLater(c: Config, ctl: Ctl, next: Ctl, id: Id, input: Input)
    requires c.Valid() && Known(c, ctl, id, input)
    requires AtMost(TrainedThrough(ctl), TrainedThrough(next)) && AtMost(ForwardedThrough(ctl), ForwardedThrough(next))
    ensures Known(c, next, id, input)
  {
  }

  lemma CallKnown(c: Config, b: Backend, s: JobState)
    requires c.Valid() && Identified(c) && OnSchedule(c, s.ctl) && AllKnown(c, s) && Next(c, s.ctl).Call?
    ensures AllKnown(c, Step(ProgramOf(c), ProviderOf(b), s))
  {
    var Call(id, input) := Next(c, s.ctl);
    var w := Confirm(ProviderOf(b), s.world, id, input);
    var next := Advance(c, s.ctl, w.ops[id].result);
    SameInput(c, s);
    AnsweredKnown(c, s, w, w.ops[id].result);
  }

  lemma AnsweredKnown(c: Config, s: JobState, w: JobWorld, r: Answer)
    requires c.Valid() && Identified(c) && OnSchedule(c, s.ctl) && AllKnown(c, s) && Next(c, s.ctl).Call?
    requires forall k :: k in w.ops ==>
      (k in s.world.ops && w.ops[k] == s.world.ops[k])
      || (k == Next(c, s.ctl).id && w.ops[k].input == Next(c, s.ctl).input)
    ensures forall k :: k in w.ops ==> Known(c, Advance(c, s.ctl, r), k, w.ops[k].input)
  {
    var next := Advance(c, s.ctl, r);
    SameInput(c, s);
    ThroughMonotone(c, s.ctl, r);
    ForwardMonotone(c, s.ctl, r);
    forall k | k in w.ops ensures Known(c, next, k, w.ops[k].input) {
      if k in s.world.ops && w.ops[k] == s.world.ops[k] { KnownLater(c, s.ctl, next, k, w.ops[k].input); }
      else { KnownLater(c, Forwarded(s.ctl), next, k, w.ops[k].input); }
    }
  }

  lemma ForwardMonotone(c: Config, ctl: Ctl, r: Answer)
    requires c.Valid() && OnSchedule(c, ctl) && Next(c, ctl).Call?
    ensures var next := Advance(c, ctl, r);
      && AtMost(ForwardedThrough(ctl), ForwardedThrough(next))
      && AtMost(ForwardedThrough(Forwarded(ctl)), ForwardedThrough(next))
      && AtMost(TrainedThrough(Forwarded(ctl)), TrainedThrough(next))
  {
  }

  /** If there is a second bound, there is a first one, and it is no higher. */
  predicate AtMost(a: Option<int>, b: Option<int>) { b.Some? ==> a.Some? && a.value <= b.value }

  lemma QuietKnown(c: Config, s: JobState)
    requires c.Valid() && OnSchedule(c, s.ctl) && AllKnown(c, s) && (Next(c, s.ctl).Move? || Next(c, s.ctl).Pause?)
    ensures AllKnown(c, Quiet(ProgramOf(c), s))
  {
    var next := ResumePoint(c, s.ctl);
    ResumeMonotone(c, s.ctl);
    assert !next.Training? && !s.ctl.Training?;
    forall k | k in s.world.ops ensures Known(c, next, k, s.world.ops[k].input) {
      KnownLater(c, s.ctl, next, k, s.world.ops[k].input);
    }
  }

  /** No run becomes uncertain of itself. */
  lemma {:induction false} NeverUncertain(c: Config, b: Backend, reference: string, n: nat)
    requires c.Valid() && Identified(c)
    ensures AllKnown(c, Uninterrupted(c, b, reference, n))
  {
    if n > 0 {
      NeverUncertain(c, b, reference, n - 1);
      RunFacts(c, b, reference, n - 1);
      var s := Uninterrupted(c, b, reference, n - 1);
      match Next(c, s.ctl)
      case Call(_, _) => CallKnown(c, b, s);
      case Stop =>
      case _ => QuietKnown(c, s);
    }
  }

  // ----- the end -----

  function PointAt(c: Config, b: Backend, reference: string, n: nat): Ctl
    requires c.Valid()
  {
    Uninterrupted(c, b, reference, n).ctl
  }

  lemma {:induction false} EndReached(c: Config, b: Backend, reference: string, n: nat) returns (m: nat)
    requires c.Valid() && Identified(c)
    ensures Next(c, Uninterrupted(c, b, reference, m).ctl).Stop?
    decreases Major(c, PointAt(c, b, reference, n)), Minor(PointAt(c, b, reference, n)),
      Outer(c, PointAt(c, b, reference, n)), Inner(c, PointAt(c, b, reference, n))
  {
    m := n;
    var s := Uninterrupted(c, b, reference, n);
    if !Next(c, s.ctl).Stop? {
      NeverUncertain(c, b, reference, n);
      NeverUncertain(c, b, reference, n + 1);
      RunFacts(c, b, reference, n);
      StepOnSchedule(c, b, s);
      m := EndReached(c, b, reference, n + 1);
    }
  }

  /** The configurations that a job can be carried through with. */
  predicate Feasible(c: Config) { c.updates >= 1 && (c.prompts >= 1 ==> c.groupSize >= 2) }

  lemma FinishedIsFeasible(c: Config, b: Backend, reference: string, n: nat)
    requires c.Valid() && Uninterrupted(c, b, reference, n).ctl.Finished?
    ensures Feasible(c)
  {
    FinishedHasUpdate(c, b, reference, n);
    FirstUpdate(c, b, reference, n);
  }

  lemma FinishedHasUpdate(c: Config, b: Backend, reference: string, n: nat)
    requires c.Valid() && Uninterrupted(c, b, reference, n).ctl.Finished?
    ensures c.updates >= 1
  {
    var cs := Uninterrupted(c, b, reference, n).ctl.memo.checkpoints;
    FinishedRun(c, b, reference, n);
    var k: nat :| IsFirstBest(cs, k) && Uninterrupted(c, b, reference, n).ctl.promoted == cs[k];
    assert Steps(cs)[k] in Steps(cs);
  }

  /** The first update was trained or skipped, on groups that are large enough. */
  lemma FirstUpdate(c: Config, b: Backend, reference: string, n: nat)
    requires c.Valid() && Uninterrupted(c, b, reference, n).ctl.Finished? && c.updates >= 1
    ensures c.prompts >= 1 ==> c.groupSize >= 2
  {
    var w := Uninterrupted(c, b, reference, n).world;
    Account.EventsAreTruthful(c, b, reference, n, UpdateCompleted(1, true));
    if Account.TrainedIn(w.model, 1) {
      var k: nat :| k < |w.model| && w.model[k].Train? && w.model[k].update == 1;
      Reports.TrainedOnJournal(c, b, reference, n, k);
      BatchNeedsTwo(c, w.ops, 1, w.model[k].batch);
    } else {
      Reports.EventsTellJournal(c, b, reference, n, UpdateCompleted(1, true));
      BatchNeedsTwo(c, w.ops, 1, []);
    }
  }

  lemma BatchNeedsTwo(c: Config, ops: Reports.Ops, u: nat, batch: seq<Group>)
    requires c.Valid() && Reports.IsBatch(c, ops, u, batch)
    ensures c.prompts >= 1 ==> c.groupSize >= 2
  {
    var groups, at :|
      |groups| == Max(0, c.prompts) && Reports.AllRolled(c, ops, u, groups) && Reports.Signals(groups, at, batch);
    if c.prompts >= 1 { assert Reports.Rolled(c, ops, u, 0, groups[0]); }
  }

  /**
   A job that is left alone always comes to its end: it finishes, with a promoted checkpoint, if and only if there is
   an update and groups have two samples at least (or there are no groups); else it fails for that reason.
   */
  lemma EveryJobEnds(c: Config, b: Backend, reference: string) returns (n: nat)
    requires c.Valid() && Identified(c)
    ensures
      var s := Uninterrupted(c, b, reference, n);
      && Next(c, s.ctl).Stop? && !s.uncertain && (s.ctl.Finished? <==> Feasible(c))
      && (s.ctl.Stopped? ==> Reports.FailsFor(c, s.ctl.reason))
  {
    n := EndReached(c, b, reference, 0);
    NeverUncertain(c, b, reference, n);
    var s := Uninterrupted(c, b, reference, n);
    if s.ctl.Stopped? {
      Reports.FailsOnlyFor(c, b, reference, n);
    } else {
      FinishedIsFeasible(c, b, reference, n);
    }
  }
}
