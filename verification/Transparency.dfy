/**
 Interrupting the executor where nothing is unsaved and resuming it, any number of times, changes nothing that it
 leaves behind.
 */
module Transparency {
  import opened Basics
  import opened Replay
  import opened Executor

  // ----- what a resumed session starts from -----

  function TrainingSaves(ops: map<Id, Record<Input, Answer>>): set<nat> {
    set id | id in ops && id.SaveId? && id.training :: id.step
  }

  ghost function Largest(s: set<nat>): (m: nat)
    requires s != {}
    ensures m in s && forall x :: x in s ==> x <= m
  {
    var x :| x in s;
    if s == {x} then x
    else
      var m := Largest(s - {x});
      assert s == {x} + (s - {x});
      if m < x then x else m
  }

  /** The trained state in the confirmed training checkpoint of the highest step. */
  ghost function Restore(ops: map<Id, Record<Input, Answer>>): seq<Input> {
    var saves := TrainingSaves(ops);
    if saves == {} then []
    else
      var r := ops[SaveId(Largest(saves), true)].result;
      if r.Saved? then r.state else []
  }

  lemma RestoreIsLastSave(ops: map<Id, Record<Input, Answer>>, u: nat)
    requires SaveId(u, true) in ops && ops[SaveId(u, true)].result.Saved?
    requires forall v: nat :: SaveId(v, true) in ops ==> v <= u
    ensures Restore(ops) == ops[SaveId(u, true)].result.state
  {
    assert u in TrainingSaves(ops);
    var m := Largest(TrainingSaves(ops));
    assert SaveId(m, true) in ops;
  }

  // ----- an invariant of the uninterrupted run -----

  /** The highest update whose training checkpoint may be in the journal at a control point. */
  function SavedThrough(ctl: Ctl): Option<nat> {
    match ctl
    case SavingBaseline => Some(0)
    case Evaluating(_, _, _, _, ThenTrain) => Some(0)
    case Evaluating(_, _, _, _, ThenBoundary(u, _)) => Some(u)
    case Evaluating(_, _, _, _, _) => None
    case NextUpdate(_, u) => if u >= 1 then Some(u - 1) else None
    case Rolling(_, u, _, _) => if u >= 1 then Some(u - 1) else None
    case Forwarding(_, u, _) => if u >= 1 then Some(u - 1) else None
    case Training(_, u, _) => if u >= 1 then Some(u - 1) else None
    case Checkpointing(_, u) => if u >= 1 then Some(u - 1) else None
    case SavingTraining(_, u) => if u >= 1 then Some(u - 1) else None
    case SavingInference(_, u, _) => Some(u)
    case Boundary(_, u) => Some(u)
    case _ => None
  }

  /** The update whose checkpoint holds the present trained state. */
  function JustSaved(ctl: Ctl): Option<nat> {
    match ctl
    case SavingInference(_, u, _) => Some(u)
    case Evaluating(_, _, _, _, ThenBoundary(u, _)) => Some(u)
    case Boundary(_, u) => Some(u)
    case _ => None
  }

  /** The control point is past the training loop. */
  predicate PastTraining(ctl: Ctl) {
    ctl.Promoting? || ctl.Finished? || ctl.Stopped?
    || (ctl.Evaluating? && (ctl.after.ThenTrained? || ctl.after.ThenFinish?))
  }

  ghost predicate Inv(s: JobState) {
    var ops := s.world.ops;
    && (PastTraining(s.ctl) || SavedThrough(s.ctl).Some?)
    && (SavedThrough(s.ctl).Some? ==> forall v: nat :: SaveId(v, true) in ops ==> v <= SavedThrough(s.ctl).value)
    && (JustSaved(s.ctl).Some? ==>
          var u := JustSaved(s.ctl).value;
          SaveId(u, true) in ops && ops[SaveId(u, true)].result.Saved?
          && ops[SaveId(u, true)].result.state == s.world.model)
  }

  lemma QuietKeepsInv(c: Config, s: JobState)
    requires c.Valid() && Inv(s) && !Next(c, s.ctl).Call? && !Next(c, s.ctl).Stop?
    ensures Inv(Quiet(ProgramOf(c), s))
  {
  }

  /** A call that is no training save leaves the saves and, unless it trains, the trained state alone. */
  lemma OtherCalls(c: Config, b: Backend, w: JobWorld, id: Id, input: Input)
    requires !(id.SaveId? && id.training)
    ensures
      var after := Confirm(ProviderOf(b), w, id, input);
      && (forall v: nat :: SaveId(v, true) in after.ops <==> SaveId(v, true) in w.ops)
      && (forall v: nat :: SaveId(v, true) in w.ops ==> after.ops[SaveId(v, true)] == w.ops[SaveId(v, true)])
      && (!input.Train? ==> after.model == w.model)
  {
  }

  lemma SaveCall(b: Backend, w: JobWorld, u: nat)
    requires SaveId(u, true) !in w.ops
    ensures
      var after := Confirm(ProviderOf(b), w, SaveId(u, true), Save(u, true));
      && (forall v: nat :: SaveId(v, true) in after.ops <==> v == u || SaveId(v, true) in w.ops)
      && after.ops[SaveId(u, true)].result.Saved?
      && after.ops[SaveId(u, true)].result.state == w.model == after.model
  {
  }

  lemma CallKeepsInv(c: Config, b: Backend, s: JobState)
    requires c.Valid() && Inv(s) && !s.uncertain && Next(c, s.ctl).Call?
    ensures Inv(Step(ProgramOf(c), ProviderOf(b), s))
  {
    var Call(id, input) := Next(c, s.ctl);
    if s.ctl.SavingTraining? {
      SaveCall(b, s.world, s.ctl.update);
    } else {
      OtherCalls(c, b, s.world, id, input);
    }
    var w := Confirm(ProviderOf(b), s.world, id, input);
    AdvanceKeepsInv(c, s, w, w.ops[id].result);
  }

  /** Using the result of a call, whatever events it emits. */
  lemma AdvanceKeepsInv(c: Config, s: JobState, w: JobWorld, r: Answer)
    requires c.Valid() && Inv(s) && Next(c, s.ctl).Call?
    requires s.ctl.SavingTraining? ==>
      var u := s.ctl.update;
      && (forall v: nat :: SaveId(v, true) in w.ops <==> v == u || SaveId(v, true) in s.world.ops)
      && w.ops[SaveId(u, true)].result.Saved? && w.ops[SaveId(u, true)].result.state == w.model
    requires !s.ctl.SavingTraining? ==>
      && (forall v: nat :: SaveId(v, true) in w.ops <==> SaveId(v, true) in s.world.ops)
      && (forall v: nat :: SaveId(v, true) in s.world.ops ==> w.ops[SaveId(v, true)] == s.world.ops[SaveId(v, true)])
      && (!s.ctl.Training? ==> w.model == s.world.model)
    ensures forall events :: Inv(State(Advance(c, s.ctl, r), w.(events := events), false))
  {
  }

  lemma {:induction false} RunKeepsInv(c: Config, b: Backend, w0: JobWorld, n: nat)
    requires c.Valid() && Inv(Begin(ProgramOf(c), w0))
    ensures Inv(Run(ProgramOf(c), ProviderOf(b), Begin(ProgramOf(c), w0), n))
  {
    if n > 0 {
      RunKeepsInv(c, b, w0, n - 1);
      var s := Run(ProgramOf(c), ProviderOf(b), Begin(ProgramOf(c), w0), n - 1);
      if !s.uncertain {
        match Next(c, s.ctl)
        case Call(_, _) => CallKeepsInv(c, b, s);
        case Stop =>
        case _ => QuietKeepsInv(c, s);
      }
    }
  }

  // ----- pauses -----

  lemma FreshWorldInv(c: Config, reference: string)
    requires c.Valid()
    ensures Inv(Begin(ProgramOf(c), FreshWorld(reference)))
    ensures Fresh(FreshWorld(reference))
    ensures Restore(FreshWorld(reference).ops) == FreshWorld(reference).model
  {
    RestoreIsLastSave(FreshWorld(reference).ops, 0);
  }

  /** The uninterrupted run of a job. */
  function Uninterrupted(c: Config, b: Backend, reference: string, n: nat): JobState
    requires c.Valid()
  {
    Run(ProgramOf(c), ProviderOf(b), Begin(ProgramOf(c), FreshWorld(reference)), n)
  }

  /** The state after `n` steps of a run that resumes the job after earlier runs of the given lengths. */
  ghost function ResumedRun(c: Config, b: Backend, reference: string, earlier: seq<nat>, n: nat): JobState
    requires c.Valid()
  {
    var left := Resumed(ProgramOf(c), ProviderOf(b), Restore, FreshWorld(reference), earlier);
    Run(ProgramOf(c), ProviderOf(b), Begin(ProgramOf(c), left.(model := Restore(left.ops))), n)
  }

  /** A pause is taken at a checkpoint boundary. */
  ghost predicate PausesAt(c: Config, b: Backend, reference: string, n: nat)
    requires c.Valid()
  {
    var s := Uninterrupted(c, b, reference, n);
    s.ctl.Boundary? && !s.uncertain
  }

  /** Nothing is unsaved: the journal restores the trained state. A session may be lost here without loss. */
  ghost predicate Clean(c: Config, b: Backend, reference: string, n: nat)
    requires c.Valid()
  {
    Resumable(ProgramOf(c), ProviderOf(b), Restore, FreshWorld(reference), n)
  }

  /** All interruptions, pauses and crashes, came when nothing was unsaved. */
  ghost predicate AllClean(c: Config, b: Backend, reference: string, interruptions: seq<nat>)
    requires c.Valid()
  {
    forall i :: 0 <= i < |interruptions| ==> Clean(c, b, reference, interruptions[i])
  }

  lemma BoundaryIsClean(c: Config, b: Backend, reference: string, n: nat)
    requires c.Valid() && PausesAt(c, b, reference, n)
    ensures Clean(c, b, reference, n)
  {
    FreshWorldInv(c, reference);
    RunKeepsInv(c, b, FreshWorld(reference), n);
    var s := Uninterrupted(c, b, reference, n);
    RestoreIsLastSave(s.world.ops, s.ctl.update);
  }

  lemma {:induction false} StopIsFinal(c: Config, b: Backend, reference: string, n: nat, m: nat)
    requires c.Valid() && n <= m && Next(c, Uninterrupted(c, b, reference, n).ctl).Stop?
    ensures Uninterrupted(c, b, reference, m) == Uninterrupted(c, b, reference, n)
    decreases m - n
  {
    if n < m {
      StopIsFinal(c, b, reference, n, m - 1);
    }
  }

  /**
   The executor's body, interrupted at any points where nothing is unsaved, any number of times and in any order, and
   then run to its end, ends in the very state of the run that was never interrupted: the same events in the same
   order, the same results in the journal, the same promoted checkpoint, the same trained state, and the same calls to
   the provider. Pauses at checkpoint boundaries are such points, by `BoundaryIsClean`. That every such resume is
   admitted in the first place is `Resumption.GuardedPausesAreTransparent`.
   */
  lemma PausesAreTransparent(c: Config, b: Backend, reference: string, interruptions: seq<nat>, n: nat)
    requires c.Valid() && AllClean(c, b, reference, interruptions)
    requires Next(c, Uninterrupted(c, b, reference, n).ctl).Stop?
    ensures ResumedRun(c, b, reference, interruptions, n) == Uninterrupted(c, b, reference, n)
  {
    var g, p, w0 := ProgramOf(c), ProviderOf(b), FreshWorld(reference);
    FreshWorldInv(c, reference);
    assert Resumable(g, p, Restore, w0, 0);
    assert forall i :: 0 <= i < |interruptions| ==> Clean(c, b, reference, interruptions[i]);
    InterruptionsAreTransparent(g, p, Restore, w0, interruptions);
    FurthestIsOne(interruptions);
    var f := Furthest(interruptions);
    assert Clean(c, b, reference, f);
    ReplayReaches(g, p, w0, f, n);
    if n < f { StopIsFinal(c, b, reference, n, f); }
  }

  /** Over all those runs together no request, and so no training step, reaches the provider twice. */
  lemma EachCallOnce(c: Config, b: Backend, reference: string, interruptions: seq<nat>, n: nat)
    requires c.Valid() && AllClean(c, b, reference, interruptions)
    requires Next(c, Uninterrupted(c, b, reference, n).ctl).Stop?
    ensures Distinct(ResumedRun(c, b, reference, interruptions, n).world.dispatched)
  {
    PausesAreTransparent(c, b, reference, interruptions, n);
    FreshWorldInv(c, reference);
    DispatchedOnce(ProgramOf(c), ProviderOf(b), Begin(ProgramOf(c), FreshWorld(reference)), n);
  }
}
