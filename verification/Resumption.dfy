/**
 Jobs run by several workers, one after another, with the recovery guard before each: pauses, crashes, and what
 comes of them.
 */
module Resumption {
  import opened Basics
  import opened Replay
  import opened Executor
  import opened Transparency
  import opened Recovery

  function Later(m: nat, n: nat): nat { if m <= n then n else m }

  /** A run that starts from a clean point is the uninterrupted run from there on. */
  lemma RunFromClean(c: Config, b: Backend, reference: string, left: Left, f: nat, n: nat)
    requires c.Valid() && Clean(c, b, reference, f) && left.world == Uninterrupted(c, b, reference, f).world
    ensures var t, s := Reaches(c, b, left, n), Uninterrupted(c, b, reference, n);
      t.ctl == s.ctl && t.uncertain == s.uncertain && t.world == Uninterrupted(c, b, reference, Later(f, n)).world
  {
    var w := Uninterrupted(c, b, reference, f).world;
    CleanPoint(c, b, reference, f);
    assert w.(model := w.model) == w;
    assert Started(c, left) == Begin(ProgramOf(c), w);
    ReplayReaches(ProgramOf(c), ProviderOf(b), FreshWorld(reference), f, n);
  }

  /**
   What the guard then says of the journal: it weighs unsaved training against the skips since the restored
   checkpoint.
   */
  lemma GuardFromClean(c: Config, b: Backend, reference: string, left: Left, f: nat, n: nat)
    requires c.Valid() && Clean(c, b, reference, f) && left.world == Uninterrupted(c, b, reference, f).world
    requires Admits(left)
    ensures var after := Leaves(c, b, left, n);
      && after.world == Uninterrupted(c, b, reference, Later(f, n)).world && 0 <= Unsaved(after.world)
      && (Admits(after) <==> Unsaved(after.world) <= |Skipped(after.world, SavedStep(left.world))|)
  {
    var s := Uninterrupted(c, b, reference, Later(f, n)).world;
    CleanPoint(c, b, reference, f);
    RunFromClean(c, b, reference, left, f, n);
    SkippedSince(c, b, reference, f, Later(f, n));
    MeterBelow(c, b, Started(c, left), Meter(SavedStep(left.world), left.reports), n, SavedStep(s));
  }

  /** At a clean point nothing is unsaved, so the guard has nothing to refuse. */
  lemma GuardAtClean(c: Config, b: Backend, reference: string, left: Left, f: nat, n: nat)
    requires c.Valid() && Clean(c, b, reference, f) && left.world == Uninterrupted(c, b, reference, f).world
    requires Admits(left) && Clean(c, b, reference, n)
    ensures Admits(Leaves(c, b, left, n))
  {
    GuardFromClean(c, b, reference, left, f, n);
    CleanPoint(c, b, reference, f);
    CleanPoint(c, b, reference, n);
  }

  /**
   The guard admits every resume after interruptions at which nothing was unsaved, however many and in whatever
   order, pauses at checkpoint boundaries among them; the journal is then that of the uninterrupted run at the
   furthest of them.
   */
  lemma {:induction false} GuardAdmitsPauses(c: Config, b: Backend, reference: string, interruptions: seq<nat>)
    requires c.Valid() && AllClean(c, b, reference, interruptions)
    ensures var left := Guarded(c, b, reference, interruptions);
      && left.Some? && Admits(left.value)
      && left.value.world == Uninterrupted(c, b, reference, Furthest(interruptions)).world
    ensures Clean(c, b, reference, Furthest(interruptions))
  {
    FurthestIsOne(interruptions);
    if interruptions != [] {
      var last := |interruptions| - 1;
      var front := interruptions[..last];
      GuardAdmitsPauses(c, b, reference, front);
      var left := Guarded(c, b, reference, front).value;
      GuardAtClean(c, b, reference, left, Furthest(front), interruptions[last]);
      RunFromClean(c, b, reference, left, Furthest(front), interruptions[last]);
    }
  }

  /**
   Pauses are transparent with the guard in place, and so are crashes at which nothing was unsaved: a job interrupted
   at any such points, any number of times and in any order, is admitted at every resume, and run to its end it ends
   in the very state of the run that was never interrupted.
   */
  lemma GuardedPausesAreTransparent(c: Config, b: Backend, reference: string, interruptions: seq<nat>, n: nat)
    requires c.Valid() && AllClean(c, b, reference, interruptions)
    requires Next(c, Uninterrupted(c, b, reference, n).ctl).Stop?
    ensures var left := Guarded(c, b, reference, interruptions);
      left.Some? && Admits(left.value) && Reaches(c, b, left.value, n) == Uninterrupted(c, b, reference, n)
  {
    GuardAdmitsPauses(c, b, reference, interruptions);
    var f := Furthest(interruptions);
    RunFromClean(c, b, reference, Guarded(c, b, reference, interruptions).value, f, n);
    if n < f {
      StopIsFinal(c, b, reference, n, f);
    }
  }

  lemma GuardedMore(c: Config, b: Backend, reference: string, interruptions: seq<nat>, n: nat)
    requires c.Valid() && AllClean(c, b, reference, interruptions)
    ensures var left := Guarded(c, b, reference, interruptions);
      left.Some? && Guarded(c, b, reference, interruptions + [n]) == Some(Leaves(c, b, left.value, n))
  {
    GuardAdmitsPauses(c, b, reference, interruptions);
    assert (interruptions + [n])[..|interruptions|] == interruptions;
  }

  /**
   The guard's exact reach, for a crash at any point of any run of a job that was interrupted any number of times
   before, with nothing unsaved then: it lets the resume go ahead just when no more training steps are unsaved than
   updates were skipped since the checkpoint that the crashed session was restored from. It catches every unsaved
   step when there was no such skip.
   */
  lemma GuardMissesSkips(c: Config, b: Backend, reference: string, interruptions: seq<nat>, n: nat)
    requires c.Valid() && AllClean(c, b, reference, interruptions)
    ensures
      var before, after := Guarded(c, b, reference, interruptions), Guarded(c, b, reference, interruptions + [n]);
      && before.Some? && after.Some? && 0 <= Unsaved(after.value.world)
      && (Admits(after.value) <==>
            Unsaved(after.value.world) <= |Skipped(after.value.world, SavedStep(before.value.world))|)
  {
    GuardAdmitsPauses(c, b, reference, interruptions);
    GuardedMore(c, b, reference, interruptions, n);
    GuardFromClean(c, b, reference, Guarded(c, b, reference, interruptions).value, Furthest(interruptions), n);
  }

  /**
   What resuming does to unsaved steps, after any interruptions without loss and a crash at any point: the run
   reaches the furthest control point with the same journal and events, but with the restored state, so it agrees
   with the uninterrupted run just when nothing was unsaved. Together with `GuardMissesSkips`: a crash that the
   guard lets through is transparent for certain only if no update was skipped since the last restore.
   */
  lemma CrashResumeAgreesIff(c: Config, b: Backend, reference: string, interruptions: seq<nat>, n: nat)
    requires c.Valid() && AllClean(c, b, reference, interruptions)
    requires !Uninterrupted(c, b, reference, Later(Furthest(interruptions), n)).uncertain
    ensures
      var m := Later(Furthest(interruptions), n);
      var s, left := Uninterrupted(c, b, reference, m), Guarded(c, b, reference, interruptions + [n]);
      && left.Some?
      && Reaches(c, b, left.value, m) == s.(world := s.world.(model := Restore(s.world.ops)))
      && (Reaches(c, b, left.value, m) == s <==> Unsaved(s.world) == 0)
  {
    var g, p, w0, m := ProgramOf(c), ProviderOf(b), FreshWorld(reference), Later(Furthest(interruptions), n);
    GuardAdmitsPauses(c, b, reference, interruptions);
    GuardedMore(c, b, reference, interruptions, n);
    RunFromClean(c, b, reference, Guarded(c, b, reference, interruptions).value, Furthest(interruptions), n);
    var s := Uninterrupted(c, b, reference, m);
    ReplayWithin(g, p, w0, Restore(s.world.ops), m, m);
    RunPrefixSaved(c, b, reference, m);
    if Unsaved(s.world) == 0 {
      assert Restore(s.world.ops) == s.world.model;
      assert s.world.(model := s.world.model) == s.world;
    }
  }
}
