/**
 Deterministic programs over a durable provider. Every provider call is journalled under a request id before its
 result is used; a call whose id is already confirmed returns the recorded result, and one whose id was
 recorded for another input is uncertain and stops the run. Events are appended once. A resumed run starts the program
 again from its first step over the journal that earlier runs left.

 The provider's trained state is the list of the training inputs applied to it, so that "applied once, in order"
 is visible in the state itself.
 */
module Replay {
  import opened Basics

  datatype Action<!K, !I> = Call(id: K, input: I) | Move | Pause | Stop

  /**
   `next` says what to do at a control point. `advance` and `emits` say how a call's result is used;
   `resume` and `says` are the next point and the events of a point that makes no call.
   */
  datatype Program<!C, !K, !I, !R, !E> = Program(
    start: C,
    next: C -> Action<K, I>,
    advance: (C, R) -> C,
    emits: (C, R) -> seq<E>,
    resume: C -> C,
    says: C -> seq<E>)

  datatype Provider<!I, !R> = Provider(respond: (seq<I>, I) -> R, trains: I -> bool)

  datatype Record<+I, +R> = Record(input: I, result: R)

  /** `dispatched` lists the request ids that really reached the provider. */
  datatype World<!K, !I, !R, !E> = World(ops: map<K, Record<I, R>>, model: seq<I>, events: seq<E>, dispatched: seq<K>)

  datatype State<!C, !K, !I, !R, !E> = State(ctl: C, world: World<K, I, R, E>, uncertain: bool)

  // ----- one step -----

  function AppendOnce<E(==)>(events: seq<E>, e: E): seq<E> {
    if e in events then events else events + [e]
  }

  function AppendAll<E(==)>(events: seq<E>, more: seq<E>): seq<E>
    decreases |more|
  {
    if more == [] then events else AppendAll(AppendOnce(events, more[0]), more[1..])
  }

  /**
   The world after a call: unchanged when the id is confirmed, else the provider is called and the result recorded.
   */
  function Confirm<K, I, R, E>(p: Provider<I, R>, w: World<K, I, R, E>, id: K, input: I): World<K, I, R, E> {
    if id in w.ops then w
    else
      World(w.ops[id := Record(input, p.respond(w.model, input))],
            if p.trains(input) then w.model + [input] else w.model,
            w.events,
            w.dispatched + [id])
  }

  function Quiet<C, K, I, R, E(==)>(g: Program<C, K, I, R, E>, s: State<C, K, I, R, E>): State<C, K, I, R, E> {
    State(g.resume(s.ctl), s.world.(events := AppendAll(s.world.events, g.says(s.ctl))), false)
  }

  function Step<C, K, I(==), R, E(==)>(g: Program<C, K, I, R, E>, p: Provider<I, R>, s: State<C, K, I, R, E>)
    : State<C, K, I, R, E>
  {
    if s.uncertain then s
    else
      match g.next(s.ctl)
      case Stop => s
      case Move => Quiet(g, s)
      case Pause => Quiet(g, s)
      case Call(id, input) =>
        var w := Confirm(p, s.world, id, input);
        if w.ops[id].input != input then s.(uncertain := true)
        else
          var r := w.ops[id].result;
          State(g.advance(s.ctl, r), w.(events := AppendAll(w.events, g.emits(s.ctl, r))), false)
  }

  function Run<C, K, I(==), R, E(==)>(g: Program<C, K, I, R, E>, p: Provider<I, R>, s: State<C, K, I, R, E>, n: nat)
    : State<C, K, I, R, E>
  {
    if n == 0 then s else Step(g, p, Run(g, p, s, n - 1))
  }

  function Begin<C, K, I, R, E>(g: Program<C, K, I, R, E>, w: World<K, I, R, E>): State<C, K, I, R, E> {
    State(g.start, w, false)
  }

  // ----- worlds only grow -----

  ghost predicate Grows<K, I, R, E>(a: World<K, I, R, E>, b: World<K, I, R, E>) {
    && (forall id :: id in a.ops ==> id in b.ops && b.ops[id] == a.ops[id])
    && a.events <= b.events && a.dispatched <= b.dispatched
  }

  lemma {:induction false} AppendAllGrows<E>(events: seq<E>, more: seq<E>)
    ensures events <= AppendAll(events, more)
    ensures forall e :: e in more ==> e in AppendAll(events, more)
    decreases |more|
  {
    if more != [] {
      var next := AppendOnce(events, more[0]);
      AppendAllGrows(next, more[1..]);
      var all := AppendAll(events, more);
      assert next <= all;
      forall e | e in more ensures e in all {
        if e == more[0] {
          var i :| 0 <= i < |next| && next[i] == e;
          assert all[i] == e;
        }
      }
    }
  }

  lemma {:induction false} AppendAllPresent<E>(events: seq<E>, more: seq<E>)
    requires forall e :: e in more ==> e in events
    ensures AppendAll(events, more) == events
  {
    if more != [] {
      AppendAllPresent(events, more[1..]);
    }
  }

  lemma StepGrows<C, K, I, R, E>(g: Program<C, K, I, R, E>, p: Provider<I, R>, s: State<C, K, I, R, E>)
    ensures Grows(s.world, Step(g, p, s).world)
    ensures s.uncertain ==> Step(g, p, s) == s
  {
    if !s.uncertain && g.next(s.ctl).Call? {
      var a := g.next(s.ctl);
      var w := Confirm(p, s.world, a.id, a.input);
      AppendAllGrows(w.events, g.emits(s.ctl, w.ops[a.id].result));
    } else {
      AppendAllGrows(s.world.events, g.says(s.ctl));
    }
  }

  lemma {:induction false} RunGrows<C, K, I, R, E>(
      g: Program<C, K, I, R, E>, p: Provider<I, R>, s: State<C, K, I, R, E>, m: nat, n: nat)
    requires m <= n
    ensures Grows(Run(g, p, s, m).world, Run(g, p, s, n).world)
    ensures Run(g, p, s, m).uncertain ==> Run(g, p, s, n) == Run(g, p, s, m)
    decreases n - m
  {
    if m < n {
      RunGrows(g, p, s, m, n - 1);
      StepGrows(g, p, Run(g, p, s, n - 1));
    }
  }

  lemma {:induction false} RunAdds<C, K, I, R, E>(
      g: Program<C, K, I, R, E>, p: Provider<I, R>, s: State<C, K, I, R, E>, m: nat, n: nat)
    ensures Run(g, p, Run(g, p, s, m), n) == Run(g, p, s, m + n)
  {
    if n > 0 {
      RunAdds(g, p, s, m, n - 1);
    }
  }

  // ----- no request reaches the provider twice -----

  ghost predicate Fresh<K, I, R, E>(w: World<K, I, R, E>) {
    Distinct(w.dispatched) && forall i :: 0 <= i < |w.dispatched| ==> w.dispatched[i] in w.ops
  }

  lemma {:induction false} DispatchedOnce<C, K, I, R, E>(
      g: Program<C, K, I, R, E>, p: Provider<I, R>, s: State<C, K, I, R, E>, n: nat)
    requires Fresh(s.world)
    ensures Fresh(Run(g, p, s, n).world)
  {
    if n > 0 {
      DispatchedOnce(g, p, s, n - 1);
    }
  }

  // ----- no event is appended twice -----

  lemma {:induction false} AppendAllOnce<E>(events: seq<E>, more: seq<E>)
    requires Distinct(events)
    ensures Distinct(AppendAll(events, more))
    decreases |more|
  {
    if more != [] {
      AppendAllOnce(AppendOnce(events, more[0]), more[1..]);
    }
  }

  lemma {:induction false} EventsOnce<C, K, I, R, E>(
      g: Program<C, K, I, R, E>, p: Provider<I, R>, s: State<C, K, I, R, E>, n: nat)
    requires Distinct(s.world.events)
    ensures Distinct(Run(g, p, s, n).world.events)
  {
    if n > 0 {
      EventsOnce(g, p, s, n - 1);
      StepEventsOnce(g, p, Run(g, p, s, n - 1));
    }
  }

  lemma StepEventsOnce<C, K, I, R, E>(g: Program<C, K, I, R, E>, p: Provider<I, R>, s: State<C, K, I, R, E>)
    requires Distinct(s.world.events)
    ensures Distinct(Step(g, p, s).world.events)
  {
    if !s.uncertain && g.next(s.ctl).Call? {
      var a := g.next(s.ctl);
      var w := Confirm(p, s.world, a.id, a.input);
      AppendAllOnce(w.events, g.emits(s.ctl, w.ops[a.id].result));
    } else {
      AppendAllOnce(s.world.events, g.says(s.ctl));
    }
  }

  // ----- a run over the journal of a longer run -----

  /**
   Over a journal that already holds the first `f` steps, the first `n <= f` steps change nothing, whatever
   trained state the session was given: a confirmed training step is not applied again.
   */
  lemma {:induction false} ReplayWithin<C, K, I, R, E>(
      g: Program<C, K, I, R, E>, p: Provider<I, R>, w0: World<K, I, R, E>, model: seq<I>, f: nat, n: nat)
    requires n <= f && !Run(g, p, Begin(g, w0), f).uncertain
    ensures
      var w := Run(g, p, Begin(g, w0), f).world.(model := model);
      Run(g, p, Begin(g, w), n) == State(Run(g, p, Begin(g, w0), n).ctl, w, false)
  {
    if n > 0 {
      ReplayWithin(g, p, w0, model, f, n - 1);
      RunGrows(g, p, Begin(g, w0), n - 1, f);
      RunGrows(g, p, Begin(g, w0), n, f);
      ReplayStep(g, p, Run(g, p, Begin(g, w0), n - 1), Run(g, p, Begin(g, w0), f).world.(model := model));
    }
  }

  lemma ReplayStep<C, K, I, R, E>(
      g: Program<C, K, I, R, E>, p: Provider<I, R>, s: State<C, K, I, R, E>, w: World<K, I, R, E>)
    requires !s.uncertain && !Step(g, p, s).uncertain
    requires Grows(Step(g, p, s).world, w)
    ensures Step(g, p, State(s.ctl, w, false)) == State(Step(g, p, s).ctl, w, false)
  {
    var after := Step(g, p, s).world;
    match g.next(s.ctl)
    case Stop =>
    case Call(id, input) =>
      assert id in after.ops && w.ops[id] == after.ops[id];
      AlreadyThere(Confirm(p, s.world, id, input).events, g.emits(s.ctl, after.ops[id].result), w.events);
    case _ =>
      AlreadyThere(s.world.events, g.says(s.ctl), w.events);
  }

  lemma AlreadyThere<E>(events: seq<E>, more: seq<E>, all: seq<E>)
    requires AppendAll(events, more) <= all
    ensures AppendAll(all, more) == all
  {
    AppendAllGrows(events, more);
    forall e | e in more ensures e in all {
      var i :| 0 <= i < |AppendAll(events, more)| && AppendAll(events, more)[i] == e;
      assert all[i] == e;
    }
    AppendAllPresent(all, more);
  }

  /**
   Over the journal of the first `f` steps, `n` steps reach the control point of step `n` and the world of the later
   of the two.
   */
  lemma ReplayReaches<C, K, I, R, E>(
      g: Program<C, K, I, R, E>, p: Provider<I, R>, w0: World<K, I, R, E>, f: nat, n: nat)
    requires !Run(g, p, Begin(g, w0), f).uncertain
    ensures
      var again := Run(g, p, Begin(g, Run(g, p, Begin(g, w0), f).world), n);
      && again.ctl == Run(g, p, Begin(g, w0), n).ctl
      && again.world == Run(g, p, Begin(g, w0), if n <= f then f else n).world
      && again.uncertain == Run(g, p, Begin(g, w0), n).uncertain
  {
    var reached := Run(g, p, Begin(g, w0), f).world;
    assert reached.(model := reached.model) == reached;
    if n <= f {
      ReplayWithin(g, p, w0, reached.model, f, n);
      RunGrows(g, p, Begin(g, w0), n, f);
    } else {
      ReplayWithin(g, p, w0, reached.model, f, f);
      var restarted := Begin(g, Run(g, p, Begin(g, w0), f).world);
      RunAdds(g, p, restarted, f, n - f);
      RunAdds(g, p, Begin(g, w0), f, n - f);
    }
  }

  // ----- any number of interrupted runs -----

  /**
   The world after runs of the given lengths. Each run begins with the trained state that `restore` reads
   from the journal; the trained state held by the interrupted session is lost.
   */
  function Resumed<C, K, I(==), R, E(==)>(
      g: Program<C, K, I, R, E>, p: Provider<I, R>, restore: map<K, Record<I, R>> -> seq<I>,
      w0: World<K, I, R, E>, lengths: seq<nat>): World<K, I, R, E>
  {
    if lengths == [] then w0
    else
      var before := Resumed(g, p, restore, w0, lengths[..|lengths| - 1]);
      Run(g, p, Begin(g, before.(model := restore(before.ops))), lengths[|lengths| - 1]).world
  }

  function Furthest(lengths: seq<nat>): nat {
    if lengths == [] then 0
    else
      var m := Furthest(lengths[..|lengths| - 1]);
      if m < lengths[|lengths| - 1] then lengths[|lengths| - 1] else m
  }

  /** At step `n` of the uninterrupted run nothing is uncertain and the journal restores the trained state. */
  ghost predicate Resumable<C, K, I, R, E>(
      g: Program<C, K, I, R, E>, p: Provider<I, R>, restore: map<K, Record<I, R>> -> seq<I>,
      w0: World<K, I, R, E>, n: nat)
  {
    var s := Run(g, p, Begin(g, w0), n);
    !s.uncertain && restore(s.world.ops) == s.world.model
  }

  /**
   Interrupted runs are transparent: if every interruption came at a resumable step, the world after any number of
   runs is the world that one uninterrupted run has at the furthest step any of them reached.
   */
  lemma {:induction false} InterruptionsAreTransparent<C, K, I, R, E>(
      g: Program<C, K, I, R, E>, p: Provider<I, R>, restore: map<K, Record<I, R>> -> seq<I>,
      w0: World<K, I, R, E>, lengths: seq<nat>)
    requires Resumable(g, p, restore, w0, 0)
    requires forall i :: 0 <= i < |lengths| - 1 ==> Resumable(g, p, restore, w0, lengths[i])
    ensures Resumed(g, p, restore, w0, lengths) == Run(g, p, Begin(g, w0), Furthest(lengths)).world
  {
    if lengths != [] {
      var last := |lengths| - 1;
      var front := lengths[..last];
      InterruptionsAreTransparent(g, p, restore, w0, front);
      var f := Furthest(front);
      FurthestIsOne(front);
      assert Resumable(g, p, restore, w0, f);
      ReplayReaches(g, p, w0, f, lengths[last]);
    }
  }

  lemma {:induction false} FurthestIsOne(lengths: seq<nat>)
    ensures Furthest(lengths) == 0 || Furthest(lengths) in lengths
    ensures forall i :: 0 <= i < |lengths| ==> lengths[i] <= Furthest(lengths)
  {
    if lengths != [] {
      FurthestIsOne(lengths[..|lengths| - 1]);
    }
  }
}
