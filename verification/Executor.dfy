/**
 The closed-loop CISPO executor as a program over the durable provider. Its control points are the places of the
 executor's nested loops; provider calls are the calls the executor makes, with their request ids; events are the
 `cispo.*` events it appends once. The job's session and its initial training state exist when the program starts.
 */
module Executor {
  import opened Replay
  import opened Batches

  datatype Example = Example(id: string, intent: string)

  /** A sampled completion: the intent it names and the rest, which is not looked into. */
  datatype Sample = Sample(intent: string, rest: int)

  datatype Group = Group(example: Example, samples: seq<Sample>)

  datatype Checkpoint = Checkpoint(reference: string, training: string, step: nat, accuracy: real)

  /** `updates` and `every` are never zero: zero falls back to a default before they are used. */
  datatype Config = Config(
    train: seq<Example>, calibration: seq<Example>, heldout: seq<Example>,
    updates: int, prompts: int, groupSize: int, every: int)
  {
    ghost predicate Valid() { train != [] && updates != 0 && every != 0 }
  }

  /** What a call asks of the provider; the durable journal compares it by digest. */
  datatype Input =
    | Roll(update: nat, prompt: nat, member: nat, example: Example)
    | Forward(update: nat, batch: seq<Group>)
    | Train(update: nat, batch: seq<Group>)
    | Save(step: nat, training: bool)
    | Eval(reference: string, example: Example, index: nat)

  datatype Id =
    | RollId(update: nat, prompt: nat, member: nat)
    | ForwardId(update: nat)
    | TrainId(update: nat)
    | SaveId(step: nat, training: bool)
    | EvalId(reference: string, example: string, index: nat)

  datatype Answer =
    | Sampled(sample: Sample)
    | Ratios(value: int)
    | Trained(norm: int)
    | Saved(reference: string, state: seq<Input>)
    | Predicted(intent: string)

  datatype Event =
    | ExampleDone(phase: string, reference: string, index: nat, correct: bool)
    | BaselineEvaluated(reference: string, accuracy: real)
    | GroupCompleted(update: nat, prompt: nat, rewards: seq<bool>)
    | AdvantageComputed(update: nat, prompt: nat, zero: bool)
    | ZeroAdvantage(update: nat, prompt: nat)
    | RatioMeasured(update: nat, value: int)
    | UpdateCompleted(update: nat, skipped: bool)
    | CheckpointCreated(update: nat, reference: string, training: string)
    | CheckpointEvaluated(checkpoint: Checkpoint)
    | Promoted(checkpoint: Checkpoint)
    | HeldoutEvaluated(baseline: real, trained: real)
    | Materialized(reference: string)
    | Completed(reference: string, accuracy: real)
    | Failed(reason: string)

  /** The provider: any function of the trained state. A saved state is the state itself. */
  datatype Backend = Backend(
    sample: (seq<Input>, Input) -> Sample,
    ratios: (seq<Input>, Input) -> int,
    norm: (seq<Input>, Input) -> int,
    saveReference: (seq<Input>, Input) -> string,
    predict: (string, Example, nat) -> string)

  function Respond(b: Backend, model: seq<Input>, input: Input): Answer {
    match input
    case Roll(_, _, _, _) => Sampled(b.sample(model, input))
    case Forward(_, _) => Ratios(b.ratios(model, input))
    case Train(_, _) => Trained(b.norm(model, input))
    case Save(_, _) => Saved(b.saveReference(model, input), model)
    case Eval(reference, example, index) => Predicted(b.predict(reference, example, index))
  }

  function ProviderOf(b: Backend): Provider<Input, Answer> {
    Provider((model, input) => Respond(b, model, input), (input: Input) => input.Train?)
  }

  // ----- control points -----

  datatype Memo = Memo(baseline: string, checkpoints: seq<Checkpoint>)

  datatype After =
    | ThenTrain
    | ThenBoundary(update: nat, training: string)
    | ThenTrained(promoted: Checkpoint)
    | ThenFinish(promoted: Checkpoint, baseline: real)

  datatype Ctl =
    | SavingBaseline
    | Evaluating(memo: Memo, reference: string, split: seq<Example>, correct: seq<bool>, after: After)
    | NextUpdate(memo: Memo, update: nat)
    | Rolling(memo: Memo, update: nat, groups: seq<Group>, members: seq<Sample>)
    | Forwarding(memo: Memo, update: nat, batch: seq<Group>)
    | Training(memo: Memo, update: nat, batch: seq<Group>)
    | Checkpointing(memo: Memo, update: nat)
    | SavingTraining(memo: Memo, update: nat)
    | SavingInference(memo: Memo, update: nat, training: string)
    | Boundary(memo: Memo, update: nat)
    | Promoting(memo: Memo)
    | Finished(memo: Memo, promoted: Checkpoint, heldout: real)
    | Stopped(reason: string)

  function Rewards(g: Group): seq<bool> {
    seq(|g.samples|, i requires 0 <= i < |g.samples| => g.samples[i].intent == g.example.intent)
  }

  /** All rewards equal, which for 0/1 rewards is when every advantage is within tolerance of zero. */
  predicate IsZeroGroup(g: Group) {
    forall i :: 0 <= i < |g.samples| ==> Rewards(g)[i] == Rewards(g)[0]
  }

  function Trainable(groups: seq<Group>): seq<Group> {
    if groups == [] then []
    else Trainable(groups[..|groups| - 1]) + (if IsZeroGroup(groups[|groups| - 1]) then [] else [groups[|groups| - 1]])
  }

  function CountTrue(s: seq<bool>): nat {
    if s == [] then 0 else CountTrue(s[..|s| - 1]) + (if s[|s| - 1] then 1 else 0)
  }

  function Accuracy(correct: seq<bool>): real {
    CountTrue(correct) as real / (if |correct| == 0 then 1.0 else |correct| as real)
  }

  function PhaseName(after: After): string {
    if after.ThenTrain? || after.ThenBoundary? then "selection" else "heldout"
  }

  /** Python's `max` with a key: the first of the best. */
  function FirstBest(checkpoints: seq<Checkpoint>): Checkpoint
    requires checkpoints != []
  {
    var last := |checkpoints| - 1;
    if last == 0 then checkpoints[0]
    else
      var best := FirstBest(checkpoints[..last]);
      if best.accuracy < checkpoints[last].accuracy then checkpoints[last] else best
  }

  predicate IsBoundary(c: Config, update: nat)
    requires c.every != 0
  {
    update == c.updates || update % c.every == 0
  }

  /** The example of a prompt of an update. */
  function Prompt(c: Config, update: nat, prompt: nat): Example
    requires c.train != [] && update >= 1 && prompt < c.prompts
  {
    Batch(c.train, update, c.prompts)[prompt]
  }

  function Next(c: Config, ctl: Ctl): Action<Id, Input>
    requires c.Valid()
  {
    match ctl
    case SavingBaseline => Call(SaveId(0, false), Save(0, false))
    case Evaluating(_, reference, split, correct, _) =>
      var i := |correct|;
      if i < |split| then Call(EvalId(reference, split[i].id, i), Eval(reference, split[i], i)) else Move
    case Rolling(_, u, groups, members) =>
      var i, m := |groups|, |members|;
      if u >= 1 && i < c.prompts && m < c.groupSize
      then Call(RollId(u, i, m), Roll(u, i, m, Prompt(c, u, i)))
      else Move
    case Forwarding(_, u, batch) => Call(ForwardId(u), Forward(u, batch))
    case Training(_, u, batch) => Call(TrainId(u), Train(u, batch))
    case SavingTraining(_, u) => Call(SaveId(u, true), Save(u, true))
    case SavingInference(_, u, _) => Call(SaveId(u, false), Save(u, false))
    case Boundary(_, _) => Pause
    case Finished(_, _, _) => Stop
    case Stopped(_) => Stop
    case _ => Move
  }

  const BAD_ANSWER: Ctl := Stopped("provider returned another kind of result")

  function Advance(c: Config, ctl: Ctl, r: Answer): Ctl {
    match (ctl, r)
    case (SavingBaseline, Saved(reference, _)) =>
      Evaluating(Memo(reference, []), reference, c.calibration, [], ThenTrain)
    case (Evaluating(memo, reference, split, correct, after), Predicted(intent)) =>
      if |correct| < |split| then ctl.(correct := correct + [intent == split[|correct|].intent]) else BAD_ANSWER
    case (Rolling(memo, u, groups, members), Sampled(s)) => ctl.(members := members + [s])
    case (Forwarding(memo, u, batch), Ratios(_)) => Training(memo, u, batch)
    case (Training(memo, u, _), Trained(_)) => Checkpointing(memo, u)
    case (SavingTraining(memo, u), Saved(reference, _)) => SavingInference(memo, u, reference)
    case (SavingInference(memo, u, training), Saved(reference, _)) =>
      Evaluating(memo, reference, c.calibration, [], ThenBoundary(u, training))
    case _ => BAD_ANSWER
  }

  function Emits(ctl: Ctl, r: Answer): seq<Event> {
    match (ctl, r)
    case (Evaluating(_, reference, split, correct, after), Predicted(intent)) =>
      if |correct| < |split|
      then [ExampleDone(PhaseName(after), reference, |correct|, intent == split[|correct|].intent)] else []
    case (Forwarding(_, u, _), Ratios(value)) => [RatioMeasured(u, value)]
    case (Training(_, u, _), Trained(_)) => [UpdateCompleted(u, false)]
    case (SavingInference(_, u, training), Saved(reference, _)) => [CheckpointCreated(u, reference, training)]
    case _ => []
  }

  /** The group that the members of a finished prompt form. */
  function GroupOf(c: Config, u: nat, prompt: nat, members: seq<Sample>): Group
    requires c.train != [] && u >= 1 && prompt < c.prompts
  {
    Group(Prompt(c, u, prompt), members)
  }

  function ResumePoint(c: Config, ctl: Ctl): Ctl
    requires c.Valid()
  {
    match ctl
    case Evaluating(memo, reference, split, correct, after) =>
      (match after
       case ThenTrain => NextUpdate(memo, 1)
       case ThenBoundary(u, training) =>
         Boundary(memo.(checkpoints := memo.checkpoints + [Checkpoint(reference, training, u, Accuracy(correct))]), u)
       case ThenTrained(promoted) =>
         Evaluating(memo, promoted.reference, c.heldout, [], ThenFinish(promoted, Accuracy(correct)))
       case ThenFinish(promoted, _) => Finished(memo, promoted, Accuracy(correct)))
    case NextUpdate(memo, u) => if u > c.updates then Promoting(memo) else Rolling(memo, u, [], [])
    case Rolling(memo, u, groups, members) =>
      if u >= 1 && |groups| < c.prompts then
        if |members| < 2 then Stopped("CISPO groups require at least two trajectories")
        else Rolling(memo, u, groups + [GroupOf(c, u, |groups|, members)], [])
      else if Trainable(groups) == [] then Checkpointing(memo, u)
      else Forwarding(memo, u, Trainable(groups))
    case Checkpointing(memo, u) => if IsBoundary(c, u) then SavingTraining(memo, u) else NextUpdate(memo, u + 1)
    case Boundary(memo, u) => NextUpdate(memo, u + 1)
    case Promoting(memo) =>
      if memo.checkpoints == [] then Stopped("CISPO produced no checkpoint")
      else Evaluating(memo, memo.baseline, c.heldout, [], ThenTrained(FirstBest(memo.checkpoints)))
    case _ => ctl
  }

  function Says(c: Config, ctl: Ctl): seq<Event>
    requires c.Valid()
  {
    match ctl
    case Evaluating(memo, reference, split, correct, after) =>
      (match after
       case ThenTrain => [BaselineEvaluated(reference, Accuracy(correct))]
       case ThenBoundary(u, training) => [CheckpointEvaluated(Checkpoint(reference, training, u, Accuracy(correct)))]
       case ThenTrained(_) => []
       case ThenFinish(promoted, baseline) =>
         [HeldoutEvaluated(baseline, Accuracy(correct)), Materialized(promoted.reference),
          Completed(promoted.reference, Accuracy(correct))])
    case Rolling(memo, u, groups, members) =>
      if u >= 1 && |groups| < c.prompts then
        if |members| < 2 then [Failed("CISPO groups require at least two trajectories")]
        else
          var g := GroupOf(c, u, |groups|, members);
          [GroupCompleted(u, |groups|, Rewards(g)), AdvantageComputed(u, |groups|, IsZeroGroup(g))]
          + if IsZeroGroup(g) then [ZeroAdvantage(u, |groups|)] else []
      else if Trainable(groups) == [] then [UpdateCompleted(u, true)]
      else []
    case Promoting(memo) =>
      if memo.checkpoints == [] then [Failed("CISPO produced no checkpoint")]
      else [Promoted(FirstBest(memo.checkpoints))]
    case _ => []
  }

  type JobWorld = Replay.World<Id, Input, Answer, Event>

  type JobState = Replay.State<Ctl, Id, Input, Answer, Event>

  function ProgramOf(c: Config): Program<Ctl, Id, Input, Answer, Event>
    requires c.Valid()
  {
    Program(SavingBaseline, ctl => Next(c, ctl), (ctl, r) => Advance(c, ctl, r), Emits,
            ctl => ResumePoint(c, ctl), ctl => Says(c, ctl))
  }

  /** The job just after its session was created: the untrained state is saved as step 0. */
  function FreshWorld(reference: string): JobWorld {
    World(map[SaveId(0, true) := Record(Save(0, true), Saved(reference, []))], [], [], [SaveId(0, true)])
  }
}
