/**
 The recovery guard. Every start of a worker first looks for confirmed training steps that no saved checkpoint
 covers: it compares the step number that the provider reported for each training call with the step of the last
 training checkpoint. A session numbers its training calls one after another, from the step of the checkpoint it was
 restored from, while checkpoints carry update numbers. An update skipped for lack of signal has no number, so the
 two counts drift apart. The reported numbers stand in the journal beside the results; nothing but the guard reads
 them.
 */
module Recovery {
  import opened Replay
  import opened Executor
  import opened Transparency
  import opened Promotion
  import opened Basics

  // ----- reported step numbers -----

  /** A session's step counter, and all the numbers reported so far. */
  datatype Meter = Meter(step: nat, reports: seq<nat>)

  /** The next step makes a training call that really reaches the provider. */
  predicate TrainsAt(c: Config, s: JobState)
    requires c.Valid()
  {
    !s.uncertain && Next(c, s.ctl).Call? && Next(c, s.ctl).input.Train? && Next(c, s.ctl).id !in s.world.ops
  }

  /** The meter after the next step. */
  function Ticked(c: Config, s: JobState, m: Meter): Meter
    requires c.Valid()
  {
    if TrainsAt(c, s) then Meter(m.step + 1, m.reports + [m.step + 1]) else m
  }

  /** The meter after `n` steps from a state. */
  function Metered(c: Config, b: Backend, s: JobState, m: Meter, n: nat): Meter
    requires c.Valid()
  {
    if n == 0 then m
    else Ticked(c, Run(ProgramOf(c), ProviderOf(b), s, n - 1), Metered(c, b, s, m, n - 1))
  }

  /** What a run leaves behind: the world, and the step numbers in its journal. */
  datatype Left = Left(world: JobWorld, reports: seq<nat>)

  /** The update of the last training checkpoint in the journal. */
  ghost function SavedStep(w: JobWorld): nat {
    if TrainingSaves(w.ops) == {} then 0 else Largest(TrainingSaves(w.ops))
  }

  /** The guard: no reported step is above the last training checkpoint. */
  ghost predicate Admits(left: Left) {
    NoneAbove(left.reports, SavedStep(left.world))
  }

  ghost predicate NoneAbove(reports: seq<nat>, bound: nat) {
    forall step :: step in reports ==> step <= bound
  }

  /** A session is restored from the last training checkpoint: its state, and its step. */
  ghost function Started(c: Config, left: Left): JobState
    requires c.Valid()
  {
    Begin(ProgramOf(c), left.world.(model := Restore(left.world.ops)))
  }

  ghost function Reaches(c: Config, b: Backend, left: Left, n: nat): JobState
    requires c.Valid()
  {
    Run(ProgramOf(c), ProviderOf(b), Started(c, left), n)
  }

  ghost function Leaves(c: Config, b: Backend, left: Left, n: nat): Left
    requires c.Valid()
  {
    Left(Reaches(c, b, left, n).world,
         Metered(c, b, Started(c, left), Meter(SavedStep(left.world), left.reports), n).reports)
  }

  /** Runs of the given lengths, one after another; nothing more is done once the guard has refused. */
  ghost function Guarded(c: Config, b: Backend, reference: string, lengths: seq<nat>): Option<Left>
    requires c.Valid()
  {
    if lengths == [] then Some(Left(FreshWorld(reference), []))
    else
      var left := Guarded(c, b, reference, lengths[..|lengths| - 1]);
      if left.None? || !Admits(left.value) then None else Some(Leaves(c, b, left.value, lengths[|lengths| - 1]))
  }

  /** The numbers after `a`, up to `b`. */
  function Numbers(a: nat, b: nat): seq<nat> { if b <= a then [] else Numbers(a, b - 1) + [b] }

  lemma {:induction false} NumbersMembers(a: nat, b: nat, step: nat)
    ensures step in Numbers(a, b) <==> a < step <= b
  {
    if a < b { NumbersMembers(a, b - 1, step); }
  }

  /** A meter that has counted the training since the state held `base` inputs and the meter stood at `m`. */
  ghost predicate Counts(m: Meter, base: nat, after: Meter, w: JobWorld) {
    && after.step == m.step + |w.model| - base >= m.step
    && after.reports == m.reports + Numbers(m.step, after.step)
  }

  /** The trained state grows just where the meter counts. */
  lemma ModelStep(c: Config, b: Backend, s: JobState)
    requires c.Valid()
    ensures |Step(ProgramOf(c), ProviderOf(b), s).world.model| == |s.world.model| + if TrainsAt(c, s) then 1 else 0
  {
    if !s.uncertain && Next(c, s.ctl).Call? {
      var Call(id, input) := Next(c, s.ctl);
      var w := Confirm(ProviderOf(b), s.world, id, input);
      assert w.model == if TrainsAt(c, s) then s.world.model + [input] else s.world.model;
      assert TrainsAt(c, s) ==> w.ops[id].input == input;
      assert Step(ProgramOf(c), ProviderOf(b), s).world.model == w.model;
    }
  }

  lemma TickCounts(c: Config, b: Backend, s: JobState, m: Meter, base: nat, before: Meter)
    requires c.Valid() && Counts(m, base, before, s.world)
    ensures Counts(m, base, Ticked(c, s, before), Step(ProgramOf(c), ProviderOf(b), s).world)
  {
    ModelStep(c, b, s);
    assert m.reports + Numbers(m.step, before.step) + [before.step + 1]
      == m.reports + (Numbers(m.step, before.step) + [before.step + 1]);
  }

  lemma {:induction false} MeterCounts(c: Config, b: Backend, s: JobState, m: Meter, n: nat)
    requires c.Valid()
    ensures Counts(m, |s.world.model|, Metered(c, b, s, m, n), Run(ProgramOf(c), ProviderOf(b), s, n).world)
  {
    if n > 0 {
      MeterCounts(c, b, s, m, n - 1);
      var before := Run(ProgramOf(c), ProviderOf(b), s, n - 1);
      TickCounts(c, b, before, m, |s.world.model|, Metered(c, b, s, m, n - 1));
    }
  }

  lemma MeterBelow(c: Config, b: Backend, s: JobState, m: Meter, n: nat, bound: nat)
    requires c.Valid()
    requires NoneAbove(m.reports, bound) && m.step <= bound
    ensures var after, t := Metered(c, b, s, m, n), Run(ProgramOf(c), ProviderOf(b), s, n);
      NoneAbove(after.reports, bound) <==> m.step + |t.world.model| - |s.world.model| <= bound
  {
    MeterCounts(c, b, s, m, n);
    CountsBelow(m, |s.world.model|, Metered(c, b, s, m, n), Run(ProgramOf(c), ProviderOf(b), s, n).world, bound);
  }

  lemma CountsBelow(m: Meter, base: nat, after: Meter, w: JobWorld, bound: nat)
    requires Counts(m, base, after, w) && NoneAbove(m.reports, bound) && m.step <= bound
    ensures NoneAbove(after.reports, bound) <==> m.step + |w.model| - base <= bound
  {
    forall step: nat ensures step in after.reports <==> step in m.reports || m.step < step <= after.step {
      NumbersMembers(m.step, after.step, step);
    }
    assert after.step > m.step ==> after.step in after.reports;
  }

  // ----- the saved state is the part of the trained state up to the checkpoint -----

  /** Training steps that the session has applied and no checkpoint holds. */
  ghost function Unsaved(w: JobWorld): int {
    |w.model| - |Restore(w.ops)|
  }

  ghost predicate Trained(model: seq<Input>, update: nat) {
    exists i :: 0 <= i < |model| && model[i].Train? && model[i].update == update
  }

  /** Updates after `from`, through the last checkpoint, for which nothing was trained. */
  ghost function Skipped(w: JobWorld, from: nat): set<nat> {
    set v: nat | from < v <= SavedStep(w) && !Trained(Restore(w.ops), v)
  }

  /** Restoring gives a prefix of the trained state, made of the updates through the last checkpoint. */
  ghost predicate PrefixSaved(w: JobWorld) {
    var restored := Restore(w.ops);
    && TrainingSaves(w.ops) != {}
    && restored <= w.model
    && (forall i :: 0 <= i < |restored| ==> restored[i].Train? && 1 <= restored[i].update <= SavedStep(w))
  }

  lemma SameSaves(a: map<Id, Record<Input, Answer>>, b: map<Id, Record<Input, Answer>>)
    requires forall v: nat :: SaveId(v, true) in a <==> SaveId(v, true) in b
    requires forall v: nat :: SaveId(v, true) in a ==> a[SaveId(v, true)] == b[SaveId(v, true)]
    ensures TrainingSaves(a) == TrainingSaves(b) && Restore(a) == Restore(b)
  {
    forall v: nat ensures v in TrainingSaves(a) <==> SaveId(v, true) in a {
      if v in TrainingSaves(a) {
        var id :| id in a && id.SaveId? && id.training && id.step == v;
        assert id == SaveId(v, true);
      }
    }
    forall v: nat ensures v in TrainingSaves(b) <==> SaveId(v, true) in b {
      if v in TrainingSaves(b) {
        var id :| id in b && id.SaveId? && id.training && id.step == v;
        assert id == SaveId(v, true);
      }
    }
    assert TrainingSaves(a) == TrainingSaves(b);
  }

  /** The updates in the trained state are positive. */
  ghost predicate PositiveUpdates(model: seq<Input>) {
    forall i :: 0 <= i < |model| ==> model[i].Train? && model[i].update >= 1
  }

  /** One more training step, for the update at hand. */
  ghost predicate NewTraining(s: JobState, next: JobState) {
    s.ctl.Training? && next.world.model == s.world.model + [Train(s.ctl.update, s.ctl.batch)]
  }

  /**
   A training save makes the present state the restored one; any other step leaves saves and restored state alone.
   */
  lemma StepSaves(c: Config, b: Backend, s: JobState)
    requires c.Valid() && Inv(s) && !s.uncertain
    ensures
      var next := Step(ProgramOf(c), ProviderOf(b), s);
      if s.ctl.SavingTraining?
      then
        && TrainingSaves(next.world.ops) != {} && SavedStep(next.world) == s.ctl.update
        && Restore(next.world.ops) == s.world.model == next.world.model
      else
        && TrainingSaves(next.world.ops) == TrainingSaves(s.world.ops)
        && Restore(next.world.ops) == Restore(s.world.ops)
        && (next.world.model == s.world.model || NewTraining(s, next))
  {
    var next := Step(ProgramOf(c), ProviderOf(b), s);
    if Next(c, s.ctl).Call? {
      var Call(id, input) := Next(c, s.ctl);
      if s.ctl.SavingTraining? {
        SaveCall(b, s.world, s.ctl.update);
        RestoreIsLastSave(next.world.ops, s.ctl.update);
        assert SaveId(s.ctl.update, true) in next.world.ops;
        assert s.ctl.update in TrainingSaves(next.world.ops);
      } else {
        OtherCalls(c, b, s.world, id, input);
        SameSaves(s.world.ops, next.world.ops);
      }
    }
  }

  lemma StepPrefixSaved(c: Config, b: Backend, s: JobState)
    requires c.Valid() && Inv(s) && Trains(s) && OnSchedule(c, s.ctl)
    requires PrefixSaved(s.world) && PositiveUpdates(s.world.model)
    ensures
      var next := Step(ProgramOf(c), ProviderOf(b), s);
      PrefixSaved(next.world) && PositiveUpdates(next.world.model)
  {
    if !s.uncertain { StepSaves(c, b, s); }
  }

  lemma FreshPrefixSaved(c: Config, b: Backend, reference: string)
    requires c.Valid()
    ensures
      var w := FreshWorld(reference);
      PrefixSaved(w) && SavedStep(w) == 0 && Restore(w.ops) == w.model == []
  {
    var ops := FreshWorld(reference).ops;
    assert SaveId(0, true) in ops;
    assert 0 in TrainingSaves(ops);
    RestoreIsLastSave(ops, 0);
  }

  /** What is known of the uninterrupted run at every step. */
  lemma {:induction false} RunPrefixSaved(c: Config, b: Backend, reference: string, n: nat)
    requires c.Valid()
    ensures
      var s := Uninterrupted(c, b, reference, n);
      Inv(s) && Trains(s) && OnSchedule(c, s.ctl) && PrefixSaved(s.world) && PositiveUpdates(s.world.model)
  {
    FreshWorldInv(c, reference);
    RunKeepsInv(c, b, FreshWorld(reference), n);
    RunFacts(c, b, reference, n);
    if n == 0 {
      FreshPrefixSaved(c, b, reference);
    } else {
      RunPrefixSaved(c, b, reference, n - 1);
      StepPrefixSaved(c, b, Uninterrupted(c, b, reference, n - 1));
    }
  }

  // ----- from a checkpoint on -----

  /**
   All that was trained after `saved` steps of training is for updates after `from`, and no save is older than that.
   */
  ghost predicate Since(s: JobState, from: nat, saved: nat) {
    && saved <= |Restore(s.world.ops)| && saved <= |s.world.model| && from <= SavedStep(s.world)
    && (forall i :: saved <= i < |s.world.model| ==> s.world.model[i].Train? && s.world.model[i].update > from)
    && (TrainedThrough(s.ctl).Some? ==> from <= TrainedThrough(s.ctl).value)
  }

  lemma StepSince(c: Config, b: Backend, s: JobState, from: nat, saved: nat)
    requires c.Valid() && Inv(s) && Trains(s) && OnSchedule(c, s.ctl) && Since(s, from, saved)
    ensures Since(Step(ProgramOf(c), ProviderOf(b), s), from, saved)
  {
    var next := Step(ProgramOf(c), ProviderOf(b), s);
    if !s.uncertain {
      StepSaves(c, b, s);
      StepThrough(c, b, s);
    }
  }

  /** Control points never go back in the updates. */
  lemma StepThrough(c: Config, b: Backend, s: JobState)
    requires c.Valid() && OnSchedule(c, s.ctl)
    ensures var next := Step(ProgramOf(c), ProviderOf(b), s);
      TrainedThrough(next.ctl).Some? ==>
        TrainedThrough(s.ctl).Some? && TrainedThrough(s.ctl).value <= TrainedThrough(next.ctl).value
    ensures s.ctl.SavingTraining? ==> TrainedThrough(s.ctl) == Some(s.ctl.update)
  {
    if !s.uncertain && !Next(c, s.ctl).Stop? { ThroughMonotone(c, s.ctl, AnswerAt(c, b, s)); }
  }

  lemma RestoredStep(ops: map<Id, Record<Input, Answer>>, u: nat)
    requires SaveId(u, true) in ops && forall v: nat :: SaveId(v, true) in ops ==> v <= u
    ensures TrainingSaves(ops) != {} && Largest(TrainingSaves(ops)) == u
  {
    assert u in TrainingSaves(ops);
    var m := Largest(TrainingSaves(ops));
    assert SaveId(m, true) in ops;
  }

  /** No save is ahead of the training. */
  lemma SavedBehind(s: JobState)
    requires Inv(s) && TrainingSaves(s.world.ops) != {} && TrainedThrough(s.ctl).Some?
    ensures SavedStep(s.world) <= TrainedThrough(s.ctl).value
  {
    assert SaveId(Largest(TrainingSaves(s.world.ops)), true) in s.world.ops;
  }

  lemma CleanPoint(c: Config, b: Backend, reference: string, f: nat)
    requires c.Valid() && Clean(c, b, reference, f)
    ensures var s := Uninterrupted(c, b, reference, f);
      && !s.uncertain && Restore(s.world.ops) == s.world.model
      && Since(s, SavedStep(s.world), |s.world.model|)
  {
    var s := Uninterrupted(c, b, reference, f);
    RunPrefixSaved(c, b, reference, f);
    if TrainedThrough(s.ctl).Some? { SavedBehind(s); }
  }

  lemma {:induction false} RunSince(c: Config, b: Backend, reference: string, f: nat, n: nat, from: nat, saved: nat)
    requires c.Valid() && f <= n && Since(Uninterrupted(c, b, reference, f), from, saved)
    ensures Since(Uninterrupted(c, b, reference, n), from, saved)
    decreases n - f
  {
    if f < n {
      RunSince(c, b, reference, f, n - 1, from, saved);
      NextSince(c, b, reference, n - 1, from, saved);
    }
  }

  lemma NextSince(c: Config, b: Backend, reference: string, n: nat, from: nat, saved: nat)
    requires c.Valid() && Since(Uninterrupted(c, b, reference, n), from, saved)
    ensures Since(Uninterrupted(c, b, reference, n + 1), from, saved)
  {
    RunPrefixSaved(c, b, reference, n);
    StepSince(c, b, Uninterrupted(c, b, reference, n), from, saved);
  }

  /** The trained state at a clean point is the beginning of every later one, and of what is restored later. */
  lemma {:induction false} ModelGrows(c: Config, b: Backend, reference: string, f: nat, n: nat)
    requires c.Valid() && f <= n
    ensures Uninterrupted(c, b, reference, f).world.model <= Uninterrupted(c, b, reference, n).world.model
    decreases n - f
  {
    if f < n {
      ModelGrows(c, b, reference, f, n - 1);
    }
  }

  // ----- how many are skipped -----

  /** As many updates are skipped as are missing from the trained ones. */
  lemma {:induction false} CountSkipped(model: seq<Input>, from: nat, through: nat)
    requires InOrder(model) && from <= through && forall i :: 0 <= i < |model| ==> from < model[i].update <= through
    ensures |set v: nat | from < v <= through && !Trained(model, v)| == through - from - |model|
    decreases through
  {
    if through == from {
      assert model == [];
      NoneBetween(model, from, through);
    } else {
      var last := |model| - 1;
      if |model| > 0 && model[last].update == through {
        CountSkipped(model[..last], from, through - 1);
        LastIsTrained(model, from, through);
      } else {
        CountSkipped(model, from, through - 1);
        LastIsSkipped(model, from, through);
      }
    }
  }

  lemma NoneBetween(model: seq<Input>, from: nat, through: nat)
    requires through == from
    ensures |set v: nat | from < v <= through && !Trained(model, v)| == 0
  {
    var none := set v: nat | from < v <= through && !Trained(model, v);
    assert none == {};
  }

  lemma LastIsTrained(model: seq<Input>, from: nat, through: nat)
    requires model != [] && from < through && model[|model| - 1].Train? && model[|model| - 1].update == through
    ensures var front := model[..|model| - 1];
      |set v: nat | from < v <= through && !Trained(model, v)|
        == |set v: nat | from < v <= through - 1 && !Trained(front, v)|
  {
    var front := model[..|model| - 1];
    forall v: nat | from < v < through ensures Trained(model, v) == Trained(front, v) {
      ShorterTrained(model, v);
    }
    assert Trained(model, through);
    var skipped := set v: nat | from < v <= through && !Trained(model, v);
    var fewer := set v: nat | from < v <= through - 1 && !Trained(front, v);
    assert skipped == fewer;
  }

  lemma LastIsSkipped(model: seq<Input>, from: nat, through: nat)
    requires from < through && forall i :: 0 <= i < |model| && model[i].Train? ==> model[i].update != through
    ensures |set v: nat | from < v <= through && !Trained(model, v)|
      == |set v: nat | from < v <= through - 1 && !Trained(model, v)| + 1
  {
    var fewer := set v: nat | from < v <= through - 1 && !Trained(model, v);
    assert !Trained(model, through);
    assert (set v: nat | from < v <= through && !Trained(model, v)) == fewer + {through};
  }

  lemma ShorterTrained(model: seq<Input>, v: nat)
    requires model != [] && model[|model| - 1].Train? && model[|model| - 1].update != v
    ensures Trained(model, v) <==> Trained(model[..|model| - 1], v)
  {
    var front := model[..|model| - 1];
    if Trained(model, v) {
      var i :| 0 <= i < |model| && model[i].Train? && model[i].update == v;
      assert front[i] == model[i];
    }
  }

  lemma LaterTrained(model: seq<Input>, saved: nat, from: nat, v: nat)
    requires saved <= |model| && v > from && forall i :: 0 <= i < saved ==> model[i].Train? && model[i].update <= from
    ensures Trained(model, v) <==> Trained(model[saved..], v)
  {
    var later := model[saved..];
    if Trained(model, v) {
      var i :| 0 <= i < |model| && model[i].Train? && model[i].update == v;
      assert later[i - saved] == model[i];
    }
    if Trained(later, v) {
      var i :| 0 <= i < |later| && later[i].Train? && later[i].update == v;
      assert model[saved + i] == later[i];
    }
  }

  /** Since a clean point, the updates that the checkpoints passed are those trained and saved, and those skipped. */
  lemma SkippedSince(c: Config, b: Backend, reference: string, f: nat, n: nat)
    requires c.Valid() && Clean(c, b, reference, f) && f <= n
    ensures
      var w, s := Uninterrupted(c, b, reference, f).world, Uninterrupted(c, b, reference, n).world;
      && |w.model| <= |Restore(s.ops)| <= |s.model| && SavedStep(w) <= SavedStep(s)
      && |Skipped(s, SavedStep(w))| == SavedStep(s) - SavedStep(w) - (|Restore(s.ops)| - |w.model|)
  {
    var t, s := Uninterrupted(c, b, reference, f), Uninterrupted(c, b, reference, n);
    CleanPoint(c, b, reference, f);
    RunSince(c, b, reference, f, n, SavedStep(t.world), |t.world.model|);
    RunPrefixSaved(c, b, reference, n);
    RunPrefixSaved(c, b, reference, f);
    ModelGrows(c, b, reference, f, n);
    CountSince(s, t.world);
  }

  lemma CountSince(s: JobState, w: JobWorld)
    requires PrefixSaved(s.world) && PrefixSaved(w) && Restore(w.ops) == w.model && w.model <= s.world.model
    requires Trains(s)
    requires Since(s, SavedStep(w), |w.model|)
    ensures |Skipped(s.world, SavedStep(w))|
      == SavedStep(s.world) - SavedStep(w) - (|Restore(s.world.ops)| - |w.model|)
  {
    var restored, saved, from := Restore(s.world.ops), |w.model|, SavedStep(w);
    forall i | 0 <= i < saved ensures restored[i].Train? && restored[i].update <= from {
      assert restored[i] == s.world.model[i] == w.model[i];
    }
    var later := restored[saved..];
    forall i | 0 <= i < |later| ensures from < later[i].update <= SavedStep(s.world) {
      assert later[i] == restored[saved + i] == s.world.model[saved + i];
    }
    CountSkipped(later, from, SavedStep(s.world));
    forall v: nat | from < v ensures Trained(restored, v) == Trained(later, v) {
      LaterTrained(restored, saved, from, v);
    }
    assert Skipped(s.world, from) == set v: nat | from < v <= SavedStep(s.world) && !Trained(later, v);
  }
}
