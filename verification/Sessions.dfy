/** Workers one after another: what a job leaves behind when each was paused by signals and the next one took over. */
module Sessions {
  import opened Replay
  import opened Executor
  import opened Transparency
  import opened Recovery
  import opened Resumption
  import opened Worker

  /** One worker: the signals it was given, and where it stopped. */
  datatype Session = Session(signal: nat -> Signal, state: JobState, outcome: Outcome, steps: nat)

  function Lengths(sessions: seq<Session>): seq<nat> {
    seq(|sessions|, i requires 0 <= i < |sessions| => sessions[i].steps)
  }

  /** Each worker starts over what the earlier ones left, if the guard admits it, and carries the job on. */
  ghost predicate Worked(c: Config, b: Backend, reference: string, sessions: seq<Session>)
    requires c.Valid()
    decreases |sessions|
  {
    sessions != [] ==>
      var front, last := sessions[..|sessions| - 1], sessions[|sessions| - 1];
      var left := Guarded(c, b, reference, Lengths(front));
      && Worked(c, b, reference, front)
      && (left.Some? && Admits(left.value) ==>
            Carries(c, b, Started(c, left.value).world, last.signal, last.state, last.outcome, last.steps))
  }

  ghost predicate AllPaused(sessions: seq<Session>) {
    forall i :: 0 <= i < |sessions| ==> sessions[i].outcome.Paused?
  }

  lemma LengthsSplit(sessions: seq<Session>)
    requires sessions != []
    ensures var last := |sessions| - 1;
      Lengths(sessions) == Lengths(sessions[..last]) + [sessions[last].steps]
  {
  }

  /** Workers that were all paused stopped at checkpoint boundaries of the uninterrupted run. */
  lemma {:induction false} PausedAtBoundaries(c: Config, b: Backend, reference: string, sessions: seq<Session>)
    requires c.Valid() && Worked(c, b, reference, sessions) && AllPaused(sessions)
    ensures AllClean(c, b, reference, Lengths(sessions))
    decreases |sessions|
  {
    if sessions != [] {
      var last := |sessions| - 1;
      PausedAtBoundaries(c, b, reference, sessions[..last]);
      LastSession(c, b, reference, sessions);
      LengthsSplit(sessions);
      BoundaryIsClean(c, b, reference, sessions[last].steps);
    }
  }

  /** After paused workers the guard admits the next, and its control point is that of the uninterrupted run. */
  lemma LastSession(c: Config, b: Backend, reference: string, sessions: seq<Session>)
    requires c.Valid() && sessions != [] && Worked(c, b, reference, sessions)
    requires AllClean(c, b, reference, Lengths(sessions[..|sessions| - 1]))
    ensures
      var front, last := Lengths(sessions[..|sessions| - 1]), sessions[|sessions| - 1];
      var s := Uninterrupted(c, b, reference, last.steps);
      && last.state.ctl == s.ctl && last.state.uncertain == s.uncertain
      && (last.outcome.Paused? ==> PausesAt(c, b, reference, last.steps))
      && (last.outcome.Ended? ==> Next(c, s.ctl).Stop?)
      && Guarded(c, b, reference, front).Some? && Admits(Guarded(c, b, reference, front).value)
      && last.state == Reaches(c, b, Guarded(c, b, reference, front).value, last.steps)
  {
    var front, last := Lengths(sessions[..|sessions| - 1]), sessions[|sessions| - 1];
    GuardAdmitsPauses(c, b, reference, front);
    var left := Guarded(c, b, reference, front).value;
    RunFromClean(c, b, reference, left, Furthest(front), last.steps);
  }

  /**
   Whatever signals the workers are given: if each but the last was paused and the last one came to the end, the job
   has ended in the very state of the run that was never interrupted, and the guard refused none of them.
   */
  lemma PausedSessionsAreTransparent(c: Config, b: Backend, reference: string, sessions: seq<Session>)
    requires c.Valid() && sessions != [] && Worked(c, b, reference, sessions)
    requires AllPaused(sessions[..|sessions| - 1]) && sessions[|sessions| - 1].outcome.Ended?
    ensures
      var front, last := Lengths(sessions[..|sessions| - 1]), sessions[|sessions| - 1];
      && last.state == Uninterrupted(c, b, reference, last.steps)
      && Guarded(c, b, reference, front).Some? && Admits(Guarded(c, b, reference, front).value)
  {
    var front, last := sessions[..|sessions| - 1], sessions[|sessions| - 1];
    PausedAtBoundaries(c, b, reference, front);
    LastSession(c, b, reference, sessions);
    GuardedPausesAreTransparent(c, b, reference, Lengths(front), last.steps);
  }
}
