/**
 A job in which a crash loses a training step although the recovery guard admits the resume; and the same crash of the
 same job, had it been paused and resumed once before, which the guard catches.
 */
module LostUpdate {
  import opened Replay
  import opened Executor
  import opened Transparency
  import opened Recovery
  import opened Resumption

  const EXAMPLE: Example := Example("e", "yes")

  /** Two updates of one prompt with two samples, a checkpoint after each, nothing to evaluate. */
  const JOB: Config := Config([EXAMPLE], [], [], 2, 1, 2, 1)

  /** The first update has no correct sample and is skipped; the second has one of two. */
  const BACKEND: Backend := Backend(
    (model, input: Input) =>
      if input.Roll? && input.update == 2 && input.member == 0 then Sample("yes", 0) else Sample("no", 0),
    (model, input) => 0, (model, input) => 0, (model, input) => "ckpt", (reference, example, index) => "no")

  type Demo = Program<Ctl, Id, Input, Answer, Event>

  /** The program and the provider of the job, unfolded only at the points that the lemmas below name. */
  ghost predicate Plays(g: Demo, p: Provider<Input, Answer>) {
    && g.start == SavingBaseline
    && (forall ctl {:trigger Next(JOB, ctl)} :: g.next(ctl) == Next(JOB, ctl))
    && (forall ctl, r {:trigger Advance(JOB, ctl, r)} :: g.advance(ctl, r) == Advance(JOB, ctl, r))
    && (forall ctl {:trigger ResumePoint(JOB, ctl)} :: g.resume(ctl) == ResumePoint(JOB, ctl))
    && (forall model, input {:trigger Respond(BACKEND, model, input)} ::
          p.respond(model, input) == Respond(BACKEND, model, input) && p.trains(input) == input.Train?)
  }

  function After(g: Demo, p: Provider<Input, Answer>, n: nat): JobState {
    Run(g, p, Begin(g, FreshWorld("r")), n)
  }

  /** The control point, the confirmed ids and the trained state; the events do not matter here. */
  ghost predicate At(g: Demo, p: Provider<Input, Answer>, n: nat, ctl: Ctl, keys: set<Id>, model: seq<Input>) {
    var s := After(g, p, n);
    s.ctl == ctl && s.world.ops.Keys == keys && s.world.model == model && !s.uncertain
  }

  lemma Called(g: Demo, p: Provider<Input, Answer>, n: nat, ctl: Ctl, keys: set<Id>, model: seq<Input>,
               id: Id, input: Input, next: Ctl)
    requires Plays(g, p) && At(g, p, n, ctl, keys, model) && id !in keys
    requires Next(JOB, ctl) == Call(id, input)
    requires Advance(JOB, ctl, Respond(BACKEND, model, input)) == next
    ensures At(g, p, n + 1, next, keys + {id}, if input.Train? then model + [input] else model)
  {
    var s := After(g, p, n);
    assert Confirm(p, s.world, id, input).ops[id] == Record(input, Respond(BACKEND, model, input));
    assert After(g, p, n + 1) == Step(g, p, s);
  }

  lemma Moved(g: Demo, p: Provider<Input, Answer>, n: nat, ctl: Ctl, keys: set<Id>, model: seq<Input>, next: Ctl)
    requires Plays(g, p) && At(g, p, n, ctl, keys, model)
    requires Next(JOB, ctl).Move? || Next(JOB, ctl).Pause?
    requires ResumePoint(JOB, ctl) == next
    ensures At(g, p, n + 1, next, keys, model)
  {
    var s := After(g, p, n);
    assert After(g, p, n + 1) == Step(g, p, s);
  }

  lemma ThePrompt(u: nat)
    requires u >= 1
    ensures Prompt(JOB, u, 0) == EXAMPLE
  {
  }

  const MEMO := Memo("ckpt", [])

  const NO := Sample("no", 0)

  const YES := Sample("yes", 0)

  const K0: set<Id> := {SaveId(0, true), SaveId(0, false)}

  const K1: set<Id> := K0 + {RollId(1, 0, 0)} + {RollId(1, 0, 1)}

  lemma Start(g: Demo, p: Provider<Input, Answer>) returns (n: nat)
    requires Plays(g, p)
    ensures At(g, p, n, SavingBaseline, {SaveId(0, true)}, [])
  {
    n := 0;
  }

  lemma Opening(g: Demo, p: Provider<Input, Answer>) returns (n: nat)
    requires Plays(g, p)
    ensures At(g, p, n, Rolling(MEMO, 1, [], []), K0, [])
  {
    n := Start(g, p);
    var start := Evaluating(MEMO, "ckpt", [], [], ThenTrain);
    Called(g, p, n, SavingBaseline, {SaveId(0, true)}, [], SaveId(0, false), Save(0, false), start);
    n := n + 1;
    assert {SaveId(0, true)} + {SaveId(0, false)} == K0;
    Moved(g, p, n, start, K0, [], NextUpdate(MEMO, 1));
    n := n + 1;
    Moved(g, p, n, NextUpdate(MEMO, 1), K0, [], Rolling(MEMO, 1, [], []));
    n := n + 1;
  }

  lemma FirstSamples(g: Demo, p: Provider<Input, Answer>) returns (n: nat)
    requires Plays(g, p)
    ensures At(g, p, n, Rolling(MEMO, 1, [], [NO, NO]), K1, [])
  {
    n := Opening(g, p);
    ThePrompt(1);
    Called(g, p, n, Rolling(MEMO, 1, [], []), K0, [], RollId(1, 0, 0), Roll(1, 0, 0, EXAMPLE),
      Rolling(MEMO, 1, [], [NO]));
    n := n + 1;
    Called(g, p, n, Rolling(MEMO, 1, [], [NO]), K0 + {RollId(1, 0, 0)}, [], RollId(1, 0, 1), Roll(1, 0, 1, EXAMPLE),
      Rolling(MEMO, 1, [], [NO, NO]));
    n := n + 1;
  }

  const FLAT: seq<Group> := [Group(EXAMPLE, [NO, NO])]

  lemma GroupedFlat()
    ensures ResumePoint(JOB, Rolling(MEMO, 1, [], [NO, NO])) == Rolling(MEMO, 1, FLAT, [])
  {
    ThePrompt(1);
  }

  lemma FirstGrouped(g: Demo, p: Provider<Input, Answer>) returns (n: nat)
    requires Plays(g, p)
    ensures At(g, p, n, Rolling(MEMO, 1, FLAT, []), K1, [])
  {
    n := FirstSamples(g, p);
    GroupedFlat();
    Moved(g, p, n, Rolling(MEMO, 1, [], [NO, NO]), K1, [], Rolling(MEMO, 1, FLAT, []));
    n := n + 1;
  }

  lemma NothingTrains()
    ensures Trainable(FLAT) == []
  {
    assert IsZeroGroup(FLAT[0]) && FLAT[..0] == [];
  }

  lemma FirstUpdateSkipped(g: Demo, p: Provider<Input, Answer>) returns (n: nat)
    requires Plays(g, p)
    ensures At(g, p, n, Checkpointing(MEMO, 1), K1, [])
  {
    n := FirstGrouped(g, p);
    NothingTrains();
    Moved(g, p, n, Rolling(MEMO, 1, FLAT, []), K1, [], Checkpointing(MEMO, 1));
    n := n + 1;
  }

  const K2: set<Id> := K1 + {SaveId(1, true)} + {SaveId(1, false)}

  const MEMO2 := Memo("ckpt", [Checkpoint("ckpt", "ckpt", 1, Accuracy([]))])

  const SCORING: Ctl := Evaluating(MEMO, "ckpt", [], [], ThenBoundary(1, "ckpt"))

  lemma FirstSave(g: Demo, p: Provider<Input, Answer>) returns (n: nat)
    requires Plays(g, p)
    ensures At(g, p, n, SavingInference(MEMO, 1, "ckpt"), K1 + {SaveId(1, true)}, [])
  {
    n := FirstUpdateSkipped(g, p);
    Moved(g, p, n, Checkpointing(MEMO, 1), K1, [], SavingTraining(MEMO, 1));
    n := n + 1;
    Called(g, p, n, SavingTraining(MEMO, 1), K1, [], SaveId(1, true), Save(1, true), SavingInference(MEMO, 1, "ckpt"));
    n := n + 1;
  }

  lemma SecondSave(g: Demo, p: Provider<Input, Answer>) returns (n: nat)
    requires Plays(g, p)
    ensures At(g, p, n, SCORING, K2, [])
  {
    n := FirstSave(g, p);
    Called(g, p, n, SavingInference(MEMO, 1, "ckpt"), K1 + {SaveId(1, true)}, [], SaveId(1, false), Save(1, false),
      SCORING);
    n := n + 1;
  }

  lemma FirstBoundary(g: Demo, p: Provider<Input, Answer>) returns (n: nat)
    requires Plays(g, p)
    ensures At(g, p, n, Boundary(MEMO2, 1), K2, [])
  {
    n := SecondSave(g, p);
    Moved(g, p, n, SCORING, K2, [], Boundary(MEMO2, 1));
    n := n + 1;
  }

  lemma FirstCheckpoint(g: Demo, p: Provider<Input, Answer>) returns (n: nat)
    requires Plays(g, p)
    ensures At(g, p, n, NextUpdate(MEMO2, 2), K2, [])
  {
    n := FirstBoundary(g, p);
    Moved(g, p, n, Boundary(MEMO2, 1), K2, [], NextUpdate(MEMO2, 2));
    n := n + 1;
  }

  const K3: set<Id> := K2 + {RollId(2, 0, 0)} + {RollId(2, 0, 1)}

  lemma SecondStarted(g: Demo, p: Provider<Input, Answer>) returns (n: nat)
    requires Plays(g, p)
    ensures At(g, p, n, Rolling(MEMO2, 2, [], []), K2, [])
  {
    n := FirstCheckpoint(g, p);
    Moved(g, p, n, NextUpdate(MEMO2, 2), K2, [], Rolling(MEMO2, 2, [], []));
    n := n + 1;
  }

  lemma SecondFirstSample(g: Demo, p: Provider<Input, Answer>) returns (n: nat)
    requires Plays(g, p)
    ensures At(g, p, n, Rolling(MEMO2, 2, [], [YES]), K2 + {RollId(2, 0, 0)}, [])
  {
    n := SecondStarted(g, p);
    ThePrompt(2);
    Called(g, p, n, Rolling(MEMO2, 2, [], []), K2, [], RollId(2, 0, 0), Roll(2, 0, 0, EXAMPLE),
      Rolling(MEMO2, 2, [], [YES]));
    n := n + 1;
  }

  lemma SecondSamples(g: Demo, p: Provider<Input, Answer>) returns (n: nat)
    requires Plays(g, p)
    ensures At(g, p, n, Rolling(MEMO2, 2, [], [YES, NO]), K3, [])
  {
    n := SecondFirstSample(g, p);
    ThePrompt(2);
    Called(g, p, n, Rolling(MEMO2, 2, [], [YES]), K2 + {RollId(2, 0, 0)}, [], RollId(2, 0, 1), Roll(2, 0, 1, EXAMPLE),
      Rolling(MEMO2, 2, [], [YES, NO]));
    n := n + 1;
  }

  const BATCH: seq<Group> := [Group(EXAMPLE, [YES, NO])]

  lemma Grouped()
    ensures ResumePoint(JOB, Rolling(MEMO2, 2, [], [YES, NO])) == Rolling(MEMO2, 2, BATCH, [])
  {
    ThePrompt(2);
  }

  lemma SecondGrouped(g: Demo, p: Provider<Input, Answer>) returns (n: nat)
    requires Plays(g, p)
    ensures At(g, p, n, Rolling(MEMO2, 2, BATCH, []), K3, [])
  {
    n := SecondSamples(g, p);
    Grouped();
    Moved(g, p, n, Rolling(MEMO2, 2, [], [YES, NO]), K3, [], Rolling(MEMO2, 2, BATCH, []));
    n := n + 1;
  }

  lemma BatchTrains()
    ensures Trainable(BATCH) == BATCH
  {
    assert Rewards(BATCH[0])[0] && !Rewards(BATCH[0])[1];
    assert BATCH[..0] == [];
  }

  lemma SecondGroup(g: Demo, p: Provider<Input, Answer>) returns (n: nat)
    requires Plays(g, p)
    ensures At(g, p, n, Forwarding(MEMO2, 2, BATCH), K3, [])
  {
    n := SecondGrouped(g, p);
    BatchTrains();
    Moved(g, p, n, Rolling(MEMO2, 2, BATCH, []), K3, [], Forwarding(MEMO2, 2, BATCH));
    n := n + 1;
  }

  const K4: set<Id> := K3 + {ForwardId(2)} + {TrainId(2)}

  lemma SecondForwarded(g: Demo, p: Provider<Input, Answer>) returns (n: nat)
    requires Plays(g, p)
    ensures At(g, p, n, Training(MEMO2, 2, BATCH), K3 + {ForwardId(2)}, [])
  {
    n := SecondGroup(g, p);
    Called(g, p, n, Forwarding(MEMO2, 2, BATCH), K3, [], ForwardId(2), Forward(2, BATCH), Training(MEMO2, 2, BATCH));
    n := n + 1;
  }

  lemma SecondUpdateTrained(g: Demo, p: Provider<Input, Answer>) returns (n: nat)
    requires Plays(g, p)
    ensures At(g, p, n, Checkpointing(MEMO2, 2), K4, [Train(2, BATCH)])
  {
    n := SecondForwarded(g, p);
    Called(g, p, n, Training(MEMO2, 2, BATCH), K3 + {ForwardId(2)}, [], TrainId(2), Train(2, BATCH),
      Checkpointing(MEMO2, 2));
    n := n + 1;
    assert [] + [Train(2, BATCH)] == [Train(2, BATCH)];
  }

  lemma SavesOf(w: JobWorld)
    requires SaveId(1, true) in w.ops && forall id :: id in w.ops ==> id in K4
    ensures SavedStep(w) == 1
  {
    RestoredStep(w.ops, 1);
  }

  /** The crash: the step of update 2 is trained and confirmed, and no checkpoint holds it. */
  lemma Crash() returns (n: nat)
    ensures
      var w := Uninterrupted(JOB, BACKEND, "r", n).world;
      !Uninterrupted(JOB, BACKEND, "r", n).uncertain && w.model == [Train(2, BATCH)]
      && SavedStep(w) == 1 && Restore(w.ops) == []
  {
    n := SecondUpdateTrained(ProgramOf(JOB), ProviderOf(BACKEND));
    var w := Uninterrupted(JOB, BACKEND, "r", n).world;
    SavesOf(w);
    RunPrefixSaved(JOB, BACKEND, "r", n);
    assert w.model[0].update == 2;
  }

  /** The job can be paused after its first update, with that update saved as step 1. */
  lemma Pause() returns (n: nat)
    ensures PausesAt(JOB, BACKEND, "r", n) && SavedStep(Uninterrupted(JOB, BACKEND, "r", n).world) == 1
  {
    n := FirstBoundary(ProgramOf(JOB), ProviderOf(BACKEND));
    SavesOf(Uninterrupted(JOB, BACKEND, "r", n).world);
  }

  lemma OneSkipped(w: JobWorld)
    requires SavedStep(w) == 1 && Restore(w.ops) == []
    ensures |Skipped(w, 0)| == 1 && Skipped(w, 1) == {}
  {
    assert Skipped(w, 0) == {1};
  }

  /**
   The worker dies after the training step of update 2 was confirmed and before its checkpoint. One call was made,
   so its reported step is 1; update 1, which trained nothing, was saved as step 1. The guard admits the resume, and
   the resumed run goes on from an untrained state with update 2 marked as done.
   */
  lemma CrashLosesUpdate() returns (n: nat)
    ensures
      var s, left := Uninterrupted(JOB, BACKEND, "r", n), Guarded(JOB, BACKEND, "r", [n]);
      && s.world.model == [Train(2, BATCH)] && left.Some? && Admits(left.value)
      && Reaches(JOB, BACKEND, left.value, n) == s.(world := s.world.(model := []))
  {
    n := Crash();
    CrashIsAdmitted(JOB, BACKEND, n);
    CrashResumeAgreesIff(JOB, BACKEND, "r", [], n);
    assert [] + [n] == [n];
  }

  /** A first session that has one unsaved step after one skip. */
  lemma CrashIsAdmitted(c: Config, b: Backend, n: nat)
    requires c.Valid() && SavedStep(Uninterrupted(c, b, "r", n).world) == 1
    requires Restore(Uninterrupted(c, b, "r", n).world.ops) == [] && |Uninterrupted(c, b, "r", n).world.model| == 1
    ensures Guarded(c, b, "r", [] + [n]).Some? && Admits(Guarded(c, b, "r", [] + [n]).value)
  {
    var start := Left(FreshWorld("r"), []);
    FreshPrefixSaved(c, b, "r");
    assert Clean(c, b, "r", 0);
    GuardedMore(c, b, "r", [], n);
    GuardFromClean(c, b, "r", start, 0, n);
    OneSkipped(Uninterrupted(c, b, "r", n).world);
  }

  /**
   The same crash in the second session of the job. That session was restored at step 1, so the training call of
   update 2 is its step 2, above the last checkpoint: the skip before the restore gives no slack, and the guard
   refuses.
   */
  lemma CrashAfterPauseIsCaught() returns (pause: nat, n: nat)
    ensures PausesAt(JOB, BACKEND, "r", pause)
    ensures
      var s, left := Uninterrupted(JOB, BACKEND, "r", n), Guarded(JOB, BACKEND, "r", [pause, n]);
      s.world.model == [Train(2, BATCH)] && left.Some? && !Admits(left.value)
  {
    n := Crash();
    pause := Pause();
    assert [pause, n][..1] == [pause] && [pause] + [n] == [pause, n];
    assert Furthest([pause]) == pause by { assert [pause][..0] == []; }
    PauseIsBefore(pause, n);
    BoundaryIsClean(JOB, BACKEND, "r", pause);
    GuardAdmitsPauses(JOB, BACKEND, "r", [pause]);
    GuardedMore(JOB, BACKEND, "r", [pause], n);
    GuardFromClean(JOB, BACKEND, "r", Guarded(JOB, BACKEND, "r", [pause]).value, pause, n);
    OneSkipped(Uninterrupted(JOB, BACKEND, "r", n).world);
  }

  lemma NotSavedBySecond(w: JobWorld)
    requires PrefixSaved(w) && SavedStep(w) == 1 && Restore(w.ops) == w.model
    ensures w.model == [] || w.model[0] != Train(2, BATCH)
  {
  }

  /** Nothing is trained yet at the pause, so it comes first. */
  lemma PauseIsBefore(pause: nat, n: nat)
    requires PausesAt(JOB, BACKEND, "r", pause) && SavedStep(Uninterrupted(JOB, BACKEND, "r", pause).world) == 1
    requires Uninterrupted(JOB, BACKEND, "r", n).world.model == [Train(2, BATCH)]
    ensures pause <= n
  {
    RunPrefixSaved(JOB, BACKEND, "r", pause);
    BoundaryIsClean(JOB, BACKEND, "r", pause);
    CleanPoint(JOB, BACKEND, "r", pause);
    NotSavedBySecond(Uninterrupted(JOB, BACKEND, "r", pause).world);
    if n < pause {
      ModelGrows(JOB, BACKEND, "r", n, pause);
    }
  }
}
