/**
 The worker's loop: it carries the program out step by step until it ends, is paused at a boundary, is cancelled, or
 is blocked.
 */
module Worker {
  import opened Basics
  import opened Replay
  import opened Executor
  import opened Promotion

  /** What the job's state asks for when it is read before a step. */
  datatype Signal = Continue | PauseRequested | StopRequested

  datatype Outcome = Ended | Paused | Cancelled | Blocked

  // ----- the run always ends -----

  function Major(c: Config, ctl: Ctl): int {
    match ctl
    case SavingBaseline => LastUpdate(c) + 3
    case Evaluating(_, _, _, _, ThenTrain) => LastUpdate(c) + 3
    case NextUpdate(_, u) => LastUpdate(c) + 2 - u
    case _ => if Working(ctl).Some? then LastUpdate(c) + 2 - Working(ctl).value else 0
  }

  function Minor(ctl: Ctl): nat {
    match ctl
    case SavingBaseline => 2
    case Evaluating(_, _, _, _, ThenTrain) => 1
    case NextUpdate(_, _) => 9
    case Rolling(_, _, _, _) => 8
    case Forwarding(_, _, _) => 7
    case Training(_, _, _) => 6
    case Checkpointing(_, _) => 5
    case SavingTraining(_, _) => 4
    case SavingInference(_, _, _) => 3
    case Evaluating(_, _, _, _, ThenBoundary(_, _)) => 2
    case Boundary(_, _) => 1
    case Promoting(_) => 3
    case Evaluating(_, _, _, _, ThenTrained(_)) => 2
    case Evaluating(_, _, _, _, ThenFinish(_, _)) => 1
    case _ => 0
  }

  function Outer(c: Config, ctl: Ctl): nat {
    match ctl
    case Evaluating(_, _, split, correct, _) => if |correct| < |split| then |split| - |correct| else 0
    case Rolling(_, _, groups, _) => if |groups| < c.prompts then c.prompts - |groups| else 0
    case _ => 0
  }

  function Inner(c: Config, ctl: Ctl): nat {
    match ctl
    case Rolling(_, _, _, members) => if |members| < c.groupSize then c.groupSize - |members| else 0
    case _ => 0
  }

  ghost predicate Lower(c: Config, next: Ctl, ctl: Ctl) {
    || Major(c, next) < Major(c, ctl)
    || (Major(c, next) == Major(c, ctl)
        && (|| Minor(next) < Minor(ctl)
            || (Minor(next) == Minor(ctl)
                && (|| Outer(c, next) < Outer(c, ctl)
                    || (Outer(c, next) == Outer(c, ctl) && Inner(c, next) < Inner(c, ctl))))))
  }

  lemma AdvanceLowers(c: Config, ctl: Ctl, r: Answer)
    requires c.Valid() && OnSchedule(c, ctl) && Next(c, ctl).Call?
    ensures Lower(c, Advance(c, ctl, r), ctl)
    ensures Major(c, ctl) >= 0
  {
  }

  lemma ResumeLowers(c: Config, ctl: Ctl)
    requires c.Valid() && OnSchedule(c, ctl) && (Next(c, ctl).Move? || Next(c, ctl).Pause?)
    ensures Lower(c, ResumePoint(c, ctl), ctl)
    ensures Major(c, ctl) >= 0
  {
    if ctl.Evaluating? { EvaluatedLowers(c, ctl); } else { MovedLowers(c, ctl); }
  }

  lemma EvaluatedLowers(c: Config, ctl: Ctl)
    requires c.Valid() && OnSchedule(c, ctl) && Next(c, ctl).Move? && ctl.Evaluating?
    ensures Lower(c, ResumePoint(c, ctl), ctl)
    ensures Major(c, ctl) >= 0
  {
  }

  lemma MovedLowers(c: Config, ctl: Ctl)
    requires c.Valid() && OnSchedule(c, ctl) && (Next(c, ctl).Move? || Next(c, ctl).Pause?) && !ctl.Evaluating?
    ensures Lower(c, ResumePoint(c, ctl), ctl)
    ensures Major(c, ctl) >= 0
  {
  }

  lemma StepOnSchedule(c: Config, b: Backend, s: JobState)
    requires c.Valid() && OnSchedule(c, s.ctl) && !s.uncertain && !Next(c, s.ctl).Stop?
    ensures var next := Step(ProgramOf(c), ProviderOf(b), s);
      OnSchedule(c, next.ctl) && (next.uncertain || Lower(c, next.ctl, s.ctl)) && Major(c, s.ctl) >= 0
  {
    if Next(c, s.ctl).Call? {
      AdvanceOnSchedule(c, s.ctl, AnswerAt(c, b, s));
      AdvanceLowers(c, s.ctl, AnswerAt(c, b, s));
    } else {
      ResumeOnSchedule(c, s.ctl);
      ResumeLowers(c, s.ctl);
    }
  }

  // ----- the loop -----

  /** The head of an update; after the last update the loop is over. */
  predicate AtHead(c: Config, ctl: Ctl) { ctl.NextUpdate? && ctl.update <= c.updates }

  /** What a worker that starts over the world `w` and is given these signals does, and where it stops. */
  ghost predicate Carries(
      c: Config, b: Backend, w: JobWorld, signal: nat -> Signal, s: JobState, outcome: Outcome, steps: nat)
    requires c.Valid()
  {
    && s == Run(ProgramOf(c), ProviderOf(b), Begin(ProgramOf(c), w), steps)
    && (outcome.Ended? <==> Next(c, s.ctl).Stop? && !s.uncertain)
    && (outcome.Blocked? <==> s.uncertain)
    && (outcome.Paused? ==> s.ctl.Boundary? && signal(steps) == PauseRequested)
    && (outcome.Cancelled? ==> HeedsStop(c, s.ctl) && signal(steps) == StopRequested)
    && Unheeded(c, b, w, signal, steps)
  }

  /** Nothing that was asked for before any of the first `n` steps is heeded there. */
  ghost predicate Unheeded(c: Config, b: Backend, w: JobWorld, signal: nat -> Signal, n: nat)
    requires c.Valid()
  {
    n > 0 ==>
      && Unheeded(c, b, w, signal, n - 1)
      && GoesOn(c, Run(ProgramOf(c), ProviderOf(b), Begin(ProgramOf(c), w), n - 1).ctl, signal(n - 1))
  }

  /** What the job asks for is not heeded at this point. */
  ghost predicate GoesOn(c: Config, ctl: Ctl, asked: Signal)
    requires c.Valid()
  {
    !(asked == StopRequested && HeedsStop(c, ctl)) && !(asked == PauseRequested && ctl.Boundary?)
  }

  /** Where a stop request is heeded: before a call to the provider, and when an update begins. */
  ghost predicate HeedsStop(c: Config, ctl: Ctl)
    requires c.Valid()
  {
    Next(c, ctl).Call? || exists memo, update: nat :: update <= c.updates && ctl == NextUpdate(memo, update)
  }

  /** What comes of a request at a point. */
  function Heeded(c: Config, ctl: Ctl, asked: Signal): Option<Outcome>
    requires c.Valid()
  {
    if asked == StopRequested && (Next(c, ctl).Call? || AtHead(c, ctl)) then Some(Cancelled)
    else if asked == PauseRequested && Next(c, ctl).Pause? then Some(Paused)
    else None
  }

  lemma HeededIff(c: Config, ctl: Ctl, asked: Signal)
    requires c.Valid()
    ensures var o := Heeded(c, ctl, asked);
      && (o == Some(Cancelled) <==> asked == StopRequested && HeedsStop(c, ctl))
      && (o == Some(Paused) <==> asked == PauseRequested && ctl.Boundary?)
      && (o.None? <==> GoesOn(c, ctl, asked)) && (o.Some? ==> o.value.Cancelled? || o.value.Paused?)
      && (o.Some? ==> !Next(c, ctl).Stop?)
  {
  }

  /**
   `signal(i)` is what the job asked for before step `i`. A stop request is seen before every provider call and at
   the head of every update, so not between the last update and the promotion; a pause request is seen at checkpoint
   boundaries. The first such request is heeded.
   */
  method ExecuteBody(c: Config, b: Backend, w: JobWorld, signal: nat -> Signal)
    returns (s: JobState, outcome: Outcome, steps: nat)
    requires c.Valid()
    ensures Carries(c, b, w, signal, s, outcome, steps)
    ensures (forall i :: signal(i) == Continue) ==> outcome.Ended? || outcome.Blocked?
  {
    s, steps := Begin(ProgramOf(c), w), 0;
    while !s.uncertain && !Next(c, s.ctl).Stop?
      invariant s == Run(ProgramOf(c), ProviderOf(b), Begin(ProgramOf(c), w), steps)
      invariant OnSchedule(c, s.ctl)
      invariant Unheeded(c, b, w, signal, steps)
      decreases !s.uncertain, Major(c, s.ctl), Minor(s.ctl), Outer(c, s.ctl), Inner(c, s.ctl)
    {
      HeededIff(c, s.ctl, signal(steps));
      var heeded := Heeded(c, s.ctl, signal(steps));
      if heeded.Some? { return s, heeded.value, steps; }
      StepOnSchedule(c, b, s);
      s := Step(ProgramOf(c), ProviderOf(b), s);
      steps := steps + 1;
    }
    outcome := if s.uncertain then Blocked else Ended;
  }
}
