/**
 What the executor's events say about a run: which updates were trained and which skipped, which checkpoints were
 evaluated, what was promoted and what the job completed with. Each of these events is there just when it is true.
 */
module Account {
  import opened Basics
  import opened Replay
  import opened Executor
  import opened Transparency
  import opened Promotion

  ghost predicate TrainedIn(model: seq<Input>, update: nat) {
    exists i :: 0 <= i < |model| && model[i].Train? && model[i].update == update
  }

  /** The last update that is over, trained or skipped. */
  function Through(c: Config, ctl: Ctl): int {
    match ctl
    case Evaluating(_, _, _, _, ThenTrained(_)) => LastUpdate(c)
    case Evaluating(_, _, _, _, ThenFinish(_, _)) => LastUpdate(c)
    case Promoting(_) => LastUpdate(c)
    case Finished(_, _, _) => LastUpdate(c)
    case _ => if TrainedThrough(ctl).Some? then TrainedThrough(ctl).value else 0
  }

  function Evaluated(ctl: Ctl): seq<Checkpoint> {
    if ctl.SavingBaseline? || ctl.Stopped? then [] else ctl.memo.checkpoints
  }

  /** The events that sum up a run. */
  predicate Major(e: Event) {
    e.UpdateCompleted? || e.CheckpointEvaluated? || e.Promoted? || e.Completed?
  }

  /** Whether a major event is true of a control point and the trained state. */
  ghost predicate Told(c: Config, ctl: Ctl, model: seq<Input>, e: Event)
    requires Major(e)
  {
    match e
    case UpdateCompleted(v, skipped) =>
      if skipped then 1 <= v <= Through(c, ctl) && !TrainedIn(model, v) else TrainedIn(model, v)
    case CheckpointEvaluated(cp) => cp in Evaluated(ctl)
    case Promoted(cp) => PromotedAt(ctl).Some? && PromotedAt(ctl).value.1 == cp
    case Completed(reference, accuracy) =>
      ctl.Finished? && reference == ctl.promoted.reference && accuracy == ctl.heldout
  }

  lemma {:induction false} AppendAllMembers<E>(events: seq<E>, more: seq<E>, e: E)
    ensures e in AppendAll(events, more) <==> e in events || e in more
    decreases |more|
  {
    if more != [] {
      AppendAllMembers(AppendOnce(events, more[0]), more[1..], e);
      assert e in more <==> e == more[0] || e in more[1..];
    }
  }

  // ----- points that make no call -----

  lemma EvaluatedTold(c: Config, ctl: Ctl, model: seq<Input>, e: Event)
    requires c.Valid() && OnSchedule(c, ctl) && Major(e) && ctl.Evaluating?
    ensures Told(c, ResumePoint(c, ctl), model, e) <==> Told(c, ctl, model, e) || e in Says(c, ctl)
  {
  }

  lemma RolledTold(c: Config, ctl: Ctl, model: seq<Input>, e: Event)
    requires c.Valid() && OnSchedule(c, ctl) && Major(e) && ctl.Rolling? && !ResumePoint(c, ctl).Stopped?
    requires !TrainedIn(model, ctl.update)
    ensures Told(c, ResumePoint(c, ctl), model, e) <==> Told(c, ctl, model, e) || e in Says(c, ctl)
  {
  }

  lemma MovedTold(c: Config, ctl: Ctl, model: seq<Input>, e: Event)
    requires c.Valid() && OnSchedule(c, ctl) && Major(e) && !ctl.Evaluating? && !ctl.Rolling?
    requires !ResumePoint(c, ctl).Stopped?
    requires !Next(c, ctl).Call?
    ensures Told(c, ResumePoint(c, ctl), model, e) <==> Told(c, ctl, model, e) || e in Says(c, ctl)
  {
  }

  // ----- calls -----

  lemma CalledTold(c: Config, ctl: Ctl, model: seq<Input>, r: Answer, e: Event)
    requires c.Valid() && Major(e) && Next(c, ctl).Call? && !ctl.Training? && !Advance(c, ctl, r).Stopped?
    ensures Told(c, Advance(c, ctl, r), model, e) <==> Told(c, ctl, model, e) || e in Emits(ctl, r)
  {
  }

  lemma TrainedMore(model: seq<Input>, input: Input, v: nat)
    requires input.Train?
    ensures TrainedIn(model + [input], v) <==> TrainedIn(model, v) || input.update == v
  {
    var more := model + [input];
    assert more[|model|] == input;
    if TrainedIn(model, v) {
      var i :| 0 <= i < |model| && model[i].Train? && model[i].update == v;
      assert more[i] == model[i];
    }
  }

  lemma TrainingTold(c: Config, ctl: Ctl, model: seq<Input>, norm: int, e: Event)
    requires c.Valid() && OnSchedule(c, ctl) && Major(e) && ctl.Training?
    ensures var after := model + [Train(ctl.update, ctl.batch)];
      Told(c, Advance(c, ctl, Trained(norm)), after, e) <==> Told(c, ctl, model, e) || e in Emits(ctl, Trained(norm))
  {
    if e.UpdateCompleted? { TrainedMore(model, Train(ctl.update, ctl.batch), e.update); }
  }

  // ----- every run -----

  /** Training calls are confirmed for the updates that were trained. */
  ghost predicate TrainIds(w: JobWorld) {
    forall v: nat :: TrainId(v) in w.ops <==> TrainedIn(w.model, v)
  }

  lemma NotYetTrained(s: JobState)
    requires Trains(s) && (s.ctl.Training? || s.ctl.Rolling?)
    ensures !TrainedIn(s.world.model, s.ctl.update)
  {
  }

  lemma ConfirmTrainIds(b: Backend, w: JobWorld, id: Id, input: Input)
    requires TrainIds(w) && (input.Train? <==> id.TrainId?) && (input.Train? ==> id.update == input.update)
    ensures TrainIds(Confirm(ProviderOf(b), w, id, input))
  {
    var after := Confirm(ProviderOf(b), w, id, input);
    if id !in w.ops && input.Train? {
      forall v: nat ensures TrainId(v) in after.ops <==> TrainedIn(after.model, v) {
        TrainedMore(w.model, input, v);
      }
    }
  }

  lemma CallShape(c: Config, ctl: Ctl)
    requires c.Valid() && Next(c, ctl).Call?
    ensures var Call(id, input) := Next(c, ctl);
      && (input.Train? <==> id.TrainId?) && (input.Train? <==> ctl.Training?)
      && (input.Train? ==> id == TrainId(ctl.update) && input == Train(ctl.update, ctl.batch))
  {
  }

  lemma StepTrainIds(c: Config, b: Backend, s: JobState)
    requires c.Valid() && TrainIds(s.world)
    ensures TrainIds(Step(ProgramOf(c), ProviderOf(b), s).world)
  {
    if !s.uncertain && Next(c, s.ctl).Call? {
      var Call(id, input) := Next(c, s.ctl);
      CallShape(c, s.ctl);
      ConfirmTrainIds(b, s.world, id, input);
    }
  }

  /** The events of a state say of a major event just what is true. */
  ghost predicate Truthful(c: Config, s: JobState, e: Event)
    requires Major(e)
  {
    !s.ctl.Stopped? ==> (e in s.world.events <==> Told(c, s.ctl, s.world.model, e))
  }

  lemma QuietTruthful(c: Config, s: JobState, e: Event)
    requires c.Valid() && OnSchedule(c, s.ctl) && Trains(s) && Major(e) && Truthful(c, s, e)
    requires Next(c, s.ctl).Move? || Next(c, s.ctl).Pause?
    ensures Truthful(c, Quiet(ProgramOf(c), s), e)
  {
    AppendAllMembers(s.world.events, Says(c, s.ctl), e);
    if !ResumePoint(c, s.ctl).Stopped? {
      if s.ctl.Evaluating? {
        EvaluatedTold(c, s.ctl, s.world.model, e);
      } else if s.ctl.Rolling? {
        NotYetTrained(s);
        RolledTold(c, s.ctl, s.world.model, e);
      } else {
        MovedTold(c, s.ctl, s.world.model, e);
      }
    }
  }

  lemma TrainTruthful(c: Config, b: Backend, s: JobState, e: Event)
    requires c.Valid() && OnSchedule(c, s.ctl) && Trains(s) && TrainIds(s.world) && Major(e) && Truthful(c, s, e)
    requires !s.uncertain && s.ctl.Training?
    ensures Truthful(c, Step(ProgramOf(c), ProviderOf(b), s), e)
  {
    NotYetTrained(s);
    var input := Train(s.ctl.update, s.ctl.batch);
    var r := Respond(b, s.world.model, input);
    AppendAllMembers(s.world.events, Emits(s.ctl, r), e);
    TrainingTold(c, s.ctl, s.world.model, r.norm, e);
  }

  lemma CallTruthful(c: Config, b: Backend, s: JobState, e: Event)
    requires c.Valid() && Major(e) && Truthful(c, s, e) && !s.uncertain && Next(c, s.ctl).Call? && !s.ctl.Training?
    ensures Truthful(c, Step(ProgramOf(c), ProviderOf(b), s), e)
  {
    var Call(id, input) := Next(c, s.ctl);
    var w := Confirm(ProviderOf(b), s.world, id, input);
    var r := w.ops[id].result;
    CallShape(c, s.ctl);
    AppendAllMembers(s.world.events, Emits(s.ctl, r), e);
    if !Advance(c, s.ctl, r).Stopped? {
      CalledTold(c, s.ctl, s.world.model, r, e);
    }
  }

  lemma {:induction false} RunTrainIds(c: Config, b: Backend, reference: string, n: nat)
    requires c.Valid()
    ensures TrainIds(Uninterrupted(c, b, reference, n).world)
  {
    if n > 0 {
      RunTrainIds(c, b, reference, n - 1);
      StepTrainIds(c, b, Uninterrupted(c, b, reference, n - 1));
    }
  }

  /** At every point of every run that has not failed, a major event is among the events if and only if it is true. */
  lemma {:induction false} EventsAreTruthful(c: Config, b: Backend, reference: string, n: nat, e: Event)
    requires c.Valid() && Major(e)
    ensures Truthful(c, Uninterrupted(c, b, reference, n), e)
  {
    if n > 0 {
      EventsAreTruthful(c, b, reference, n - 1, e);
      RunFacts(c, b, reference, n - 1);
      RunTrainIds(c, b, reference, n - 1);
      StepTruthful(c, b, Uninterrupted(c, b, reference, n - 1), e);
    }
  }

  lemma StepTruthful(c: Config, b: Backend, s: JobState, e: Event)
    requires c.Valid() && OnSchedule(c, s.ctl) && Trains(s) && TrainIds(s.world) && Major(e) && Truthful(c, s, e)
    ensures Truthful(c, Step(ProgramOf(c), ProviderOf(b), s), e)
  {
    if !s.uncertain && !Next(c, s.ctl).Stop? {
      if s.ctl.Training? {
        TrainTruthful(c, b, s, e);
      } else if Next(c, s.ctl).Call? {
        CallTruthful(c, b, s, e);
      } else {
        QuietTruthful(c, s, e);
      }
    }
  }

  /** The events of a finished state: what each says happened, and they say all that did. */
  ghost predicate Reported(c: Config, s: JobState, v: nat)
    requires s.ctl.Finished?
  {
    && Distinct(s.world.events)
    && (UpdateCompleted(v, false) in s.world.events <==> TrainedIn(s.world.model, v))
    && (UpdateCompleted(v, true) in s.world.events <==> 1 <= v <= c.updates && !TrainedIn(s.world.model, v))
    && (forall cp :: Promoted(cp) in s.world.events <==> cp == s.ctl.promoted)
    && (forall name, accuracy ::
          Completed(name, accuracy) in s.world.events <==>
            name == s.ctl.promoted.reference && accuracy == s.ctl.heldout)
  }

  /**
   The events of a finished run: every update is reported exactly once, as completed if it was trained and as
   skipped if not; one checkpoint, the first best, is reported as promoted, and the job as completed with it; pauses
   and other interruptions at which nothing was unsaved change nothing of this.
   */
  lemma FinishedEvents(c: Config, b: Backend, reference: string, interruptions: seq<nat>, n: nat, v: nat)
    requires c.Valid() && Uninterrupted(c, b, reference, n).ctl.Finished?
    requires AllClean(c, b, reference, interruptions)
    ensures var s := ResumedRun(c, b, reference, interruptions, n); s.ctl.Finished? && Reported(c, s, v)
  {
    PausesAreTransparent(c, b, reference, interruptions, n);
    UninterruptedEvents(c, b, reference, n, v);
  }

  lemma UninterruptedEvents(c: Config, b: Backend, reference: string, n: nat, v: nat)
    requires c.Valid() && Uninterrupted(c, b, reference, n).ctl.Finished?
    ensures Reported(c, Uninterrupted(c, b, reference, n), v)
  {
    EventsOnce(ProgramOf(c), ProviderOf(b), Begin(ProgramOf(c), FreshWorld(reference)), n);
    var s := Uninterrupted(c, b, reference, n);
    EventsAreTruthful(c, b, reference, n, UpdateCompleted(v, false));
    EventsAreTruthful(c, b, reference, n, UpdateCompleted(v, true));
    forall cp ensures Promoted(cp) in s.world.events <==> cp == s.ctl.promoted {
      EventsAreTruthful(c, b, reference, n, Promoted(cp));
    }
    forall name, accuracy
      ensures Completed(name, accuracy) in s.world.events <==>
        name == s.ctl.promoted.reference && accuracy == s.ctl.heldout
    {
      EventsAreTruthful(c, b, reference, n, Completed(name, accuracy));
    }
  }

  // ----- what is trained -----

  /** Filtering out the groups without signal keeps exactly the others. */
  lemma {:induction false} TrainableIsFilter(groups: seq<Group>, g: Group)
    ensures g in Trainable(groups) <==> g in groups && !IsZeroGroup(g)
  {
    if groups != [] {
      var last := |groups| - 1;
      TrainableIsFilter(groups[..last], g);
      assert groups == groups[..last] + [groups[last]];
    }
  }

  ghost predicate FromPrompt(c: Config, u: nat, g: Group)
    requires c.train != []
  {
    u >= 1 && |g.samples| >= 2 && exists i: nat :: i < c.prompts && g.example == Prompt(c, u, i)
  }

  /** A batch worth a training step: at least one group, each with signal and sampled for a prompt of the update. */
  ghost predicate GoodBatch(c: Config, u: nat, batch: seq<Group>)
    requires c.train != []
  {
    batch != [] && forall g :: g in batch ==> !IsZeroGroup(g) && FromPrompt(c, u, g)
  }

  ghost predicate PointOk(c: Config, ctl: Ctl)
    requires c.train != []
  {
    && (ctl.Rolling? ==> forall g :: g in ctl.groups ==> FromPrompt(c, ctl.update, g))
    && (ctl.Forwarding? || ctl.Training? ==> GoodBatch(c, ctl.update, ctl.batch))
  }

  ghost predicate ModelOk(c: Config, model: seq<Input>)
    requires c.train != []
  {
    forall i :: 0 <= i < |model| ==> model[i].Train? && GoodBatch(c, model[i].update, model[i].batch)
  }

  lemma RolledPoint(c: Config, ctl: Ctl)
    requires c.Valid() && PointOk(c, ctl) && ctl.Rolling?
    ensures PointOk(c, ResumePoint(c, ctl))
  {
    if ctl.update >= 1 && |ctl.groups| < c.prompts {
      if |ctl.members| >= 2 {
        var g := GroupOf(c, ctl.update, |ctl.groups|, ctl.members);
        assert FromPrompt(c, ctl.update, g);
      }
    } else if Trainable(ctl.groups) != [] {
      forall g | g in Trainable(ctl.groups) ensures !IsZeroGroup(g) && FromPrompt(c, ctl.update, g) {
        TrainableIsFilter(ctl.groups, g);
      }
    }
  }

  lemma OtherPoint(c: Config, ctl: Ctl, r: Answer)
    requires c.Valid() && PointOk(c, ctl)
    ensures !ctl.Rolling? ==> PointOk(c, ResumePoint(c, ctl))
    ensures PointOk(c, Advance(c, ctl, r))
  {
  }

  lemma StepBatches(c: Config, b: Backend, s: JobState)
    requires c.Valid() && PointOk(c, s.ctl) && ModelOk(c, s.world.model)
    ensures var next := Step(ProgramOf(c), ProviderOf(b), s); PointOk(c, next.ctl) && ModelOk(c, next.world.model)
  {
    if !s.uncertain && !Next(c, s.ctl).Stop? {
      OtherPoint(c, s.ctl, AnswerAt(c, b, s));
      if Next(c, s.ctl).Call? {
        CallShape(c, s.ctl);
      } else if s.ctl.Rolling? {
        RolledPoint(c, s.ctl);
      }
    }
  }

  /** Every training step of every run was on groups with signal, sampled for the prompts of its own update. */
  lemma {:induction false} TrainsOnSignal(c: Config, b: Backend, reference: string, n: nat)
    requires c.Valid()
    ensures var s := Uninterrupted(c, b, reference, n); PointOk(c, s.ctl) && ModelOk(c, s.world.model)
  {
    if n > 0 {
      TrainsOnSignal(c, b, reference, n - 1);
      StepBatches(c, b, Uninterrupted(c, b, reference, n - 1));
    }
  }
}
