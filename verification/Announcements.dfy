/** Nothing that the executor learns is kept quiet: every confirmed call is told of by the events it calls for. */
module Announcements {
  import opened Replay
  import opened Executor
  import opened Transparency
  import opened Promotion
  import Account

  /** A group is told with its rewards and whether it has signal; one without is told as that as well. */
  ghost predicate GroupTold(events: seq<Event>, u: nat, p: nat) {
    && (exists rewards :: GroupCompleted(u, p, rewards) in events)
    && (exists zero :: AdvantageComputed(u, p, zero) in events && (zero ==> ZeroAdvantage(u, p) in events))
  }

  /** What the events must hold for a confirmed call; samples are told when their group is complete. */
  ghost predicate Announced(c: Config, ctl: Ctl, events: seq<Event>, id: Id) {
    match id
    case EvalId(reference, _, i) => exists phase, correct :: ExampleDone(phase, reference, i, correct) in events
    case ForwardId(u) => exists value :: RatioMeasured(u, value) in events
    case TrainId(u) => UpdateCompleted(u, false) in events
    case SaveId(u, training) =>
      u == 0 || training || exists reference, saved :: CheckpointCreated(u, reference, saved) in events
    case RollId(u, p, _) =>
      p < c.prompts && (GroupTold(events, u, p) || (ctl.Rolling? && ctl.update == u && |ctl.groups| == p))
  }

  ghost predicate AllAnnounced(c: Config, s: JobState) {
    s.ctl.Stopped? || forall id :: id in s.world.ops ==> Announced(c, s.ctl, s.world.events, id)
  }

  lemma ToldLater(events: seq<Event>, more: seq<Event>, u: nat, p: nat)
    requires GroupTold(events, u, p) && forall e :: e in events ==> e in more
    ensures GroupTold(more, u, p)
  {
    var rewards :| GroupCompleted(u, p, rewards) in events;
    var zero :| AdvantageComputed(u, p, zero) in events && (zero ==> ZeroAdvantage(u, p) in events);
    assert GroupCompleted(u, p, rewards) in more && AdvantageComputed(u, p, zero) in more;
  }

  /** More events, at a control point where no group is left open that was open before. */
  lemma StaysAnnounced(c: Config, ctl: Ctl, next: Ctl, events: seq<Event>, more: seq<Event>, id: Id)
    requires Announced(c, ctl, events, id) && forall e :: e in events ==> e in more
    requires id.RollId? && ctl.Rolling? && ctl.update == id.update && |ctl.groups| == id.prompt ==>
      GroupTold(more, id.update, id.prompt)
      || (next.Rolling? && next.update == ctl.update && |next.groups| == |ctl.groups|)
    ensures Announced(c, next, more, id)
  {
    match id
    case RollId(u, p, _) => if GroupTold(events, u, p) { ToldLater(events, more, u, p); }
    case EvalId(reference, _, i) =>
      var phase, correct :| ExampleDone(phase, reference, i, correct) in events;
      assert ExampleDone(phase, reference, i, correct) in more;
    case ForwardId(u) =>
      var value :| RatioMeasured(u, value) in events;
      assert RatioMeasured(u, value) in more;
    case SaveId(u, training) =>
      if u != 0 && !training {
        var reference, saved :| CheckpointCreated(u, reference, saved) in events;
        assert CheckpointCreated(u, reference, saved) in more;
      }
    case TrainId(_) =>
  }

  /** The call at hand, once it is answered. */
  lemma AnnouncedNow(c: Config, ctl: Ctl, r: Answer, events: seq<Event>)
    requires c.Valid() && OnSchedule(c, ctl) && Next(c, ctl).Call? && !Advance(c, ctl, r).Stopped?
    requires forall e :: e in Emits(ctl, r) ==> e in events
    ensures Announced(c, Advance(c, ctl, r), events, Next(c, ctl).id)
  {
    if Emits(ctl, r) != [] { assert Emits(ctl, r)[0] in events; }
  }

  lemma CallAnnounces(c: Config, b: Backend, s: JobState)
    requires c.Valid() && OnSchedule(c, s.ctl) && AllAnnounced(c, s) && !s.uncertain && Next(c, s.ctl).Call?
    ensures AllAnnounced(c, Step(ProgramOf(c), ProviderOf(b), s))
  {
    var Call(id, input) := Next(c, s.ctl);
    var w := Confirm(ProviderOf(b), s.world, id, input);
    var r := w.ops[id].result;
    var next := Advance(c, s.ctl, r);
    var events := AppendAll(w.events, Emits(s.ctl, r));
    if w.ops[id].input == input && !next.Stopped? {
      forall e ensures e in events <==> e in w.events || e in Emits(s.ctl, r) {
        Account.AppendAllMembers(w.events, Emits(s.ctl, r), e);
      }
      forall k | k in w.ops ensures Announced(c, next, events, k) {
        if k == id { AnnouncedNow(c, s.ctl, r, events); } else { StaysAnnounced(c, s.ctl, next, w.events, events, k); }
      }
    }
  }

  /** A group that is closed is told. */
  lemma ClosedIsTold(c: Config, ctl: Ctl, events: seq<Event>)
    requires c.Valid() && ctl.Rolling? && ctl.update >= 1 && |ctl.groups| < c.prompts && |ctl.members| >= 2
    requires forall e :: e in Says(c, ctl) ==> e in events
    ensures GroupTold(events, ctl.update, |ctl.groups|)
  {
    var u, p := ctl.update, |ctl.groups|;
    var g := GroupOf(c, u, p, ctl.members);
    assert Says(c, ctl)[0] == GroupCompleted(u, p, Rewards(g));
    assert Says(c, ctl)[1] == AdvantageComputed(u, p, IsZeroGroup(g));
    assert IsZeroGroup(g) ==> Says(c, ctl)[2] == ZeroAdvantage(u, p);
    assert GroupCompleted(u, p, Rewards(g)) in events && AdvantageComputed(u, p, IsZeroGroup(g)) in events;
  }

  lemma QuietAnnounces(c: Config, s: JobState)
    requires c.Valid() && OnSchedule(c, s.ctl) && AllAnnounced(c, s) && (Next(c, s.ctl).Move? || Next(c, s.ctl).Pause?)
    ensures AllAnnounced(c, Quiet(ProgramOf(c), s))
  {
    var next, says := ResumePoint(c, s.ctl), Says(c, s.ctl);
    var events := AppendAll(s.world.events, says);
    if !next.Stopped? {
      forall e ensures e in events <==> e in s.world.events || e in says {
        Account.AppendAllMembers(s.world.events, says, e);
      }
      if s.ctl.Rolling? && |s.ctl.groups| < c.prompts { ClosedIsTold(c, s.ctl, events); }
      forall k | k in s.world.ops ensures Announced(c, next, events, k) {
        assert Announced(c, s.ctl, s.world.events, k);
        StaysAnnounced(c, s.ctl, next, s.world.events, events, k);
      }
    }
  }

  lemma StartAnnounced(c: Config, reference: string)
    requires c.Valid()
    ensures AllAnnounced(c, Begin(ProgramOf(c), FreshWorld(reference)))
  {
  }

  lemma StepAnnounces(c: Config, b: Backend, s: JobState)
    requires c.Valid() && OnSchedule(c, s.ctl) && AllAnnounced(c, s)
    ensures AllAnnounced(c, Step(ProgramOf(c), ProviderOf(b), s))
  {
    if !s.uncertain {
      if Next(c, s.ctl).Call? {
        CallAnnounces(c, b, s);
      } else if !Next(c, s.ctl).Stop? {
        QuietAnnounces(c, s);
      }
    }
  }

  /** At every point of every run that has not failed, every confirmed call has been told of. */
  lemma {:induction false} NothingIsKeptQuiet(c: Config, b: Backend, reference: string, n: nat)
    requires c.Valid()
    ensures AllAnnounced(c, Uninterrupted(c, b, reference, n))
  {
    if n == 0 {
      StartAnnounced(c, reference);
    } else {
      NothingIsKeptQuiet(c, b, reference, n - 1);
      RunFacts(c, b, reference, n - 1);
      StepAnnounces(c, b, Uninterrupted(c, b, reference, n - 1));
    }
  }
}
