/**
 A run of the board hub in which one stream is sent one snapshot three times, so that the bound on repeats is the
 best one.
 */
module HubWitness {
  import opened Hub

  lemma {:induction false} RunsOneMore<D>(f: D -> string, s: State<D>, steps: seq<Step<D>>, t: State<D>, step: Step<D>)
    requires Runs(f, s, steps, t) && Enabled(t, step)
    ensures Runs(f, s, steps + [step], Do(f, t, step))
    decreases |steps|
  {
    var more := steps + [step];
    if steps == [] {
      assert more[0] == step && more[1..] == [];
    } else {
      RunsOneMore(f, Do(f, s, steps[0]), steps[1..], t, step);
      assert more[0] == steps[0] && more[1..] == steps[1..] + [step];
    }
  }

  /** A state is reached from another by some run. */
  ghost predicate Reaches<D(!new)>(f: D -> string, s: State<D>, t: State<D>) {
    exists steps: seq<Step<D>> :: Runs(f, s, steps, t)
  }

  lemma Then<D(!new)>(f: D -> string, s: State<D>, t: State<D>, step: Step<D>)
    requires Reaches(f, s, t) && Enabled(t, step)
    ensures Reaches(f, s, Do(f, t, step))
  {
    var steps: seq<Step<D>> :| Runs(f, s, steps, t);
    RunsOneMore(f, s, steps, t, step);
  }

  function With<D>(t: State<D>, c: Stream<D>): State<D> { t.(streams := [c]) }

  /** The only stream takes the event it finds set. */
  lemma TakesEvent<D(!new)>(f: D -> string, s: State<D>, t: State<D>, c: Stream<D>)
    requires Reaches(f, s, t) && t.streams == [c] && c.place.Waiting? && c.event
    ensures Reaches(f, s, With(t, c.(event := false, place := Cleared)))
  {
    Then(f, s, t, Return(0));
    var u := With(t, c.(place := Woken));
    assert Do(f, t, Return(0)) == u;
    Then(f, s, u, Clear(0));
    assert Do(f, u, Clear(0)) == With(t, c.(event := false, place := Cleared));
  }

  /** Having cleared its event, it sends the latest snapshot. */
  lemma SendsLatest<D(!new)>(f: D -> string, s: State<D>, t: State<D>, c: Stream<D>)
    requires Reaches(f, s, t) && t.streams == [c] && c.place.Cleared?
    ensures Reaches(f, s, With(t, c.(place := Waiting, sent := c.sent + [Message(t.Top(), t.board.latest)])))
  {
    var m := Message(t.Top(), t.board.latest);
    Then(f, s, t, Read(0));
    var u := With(t, c.(place := Holding(m)));
    assert Do(f, t, Read(0)) == u;
    Then(f, s, u, Write(0));
    assert Do(f, u, Write(0)) == With(t, c.(place := Waiting, sent := c.sent + [m]));
  }

  /** The poller installs a changed snapshot. */
  lemma Installs<D(!new)>(f: D -> string, s: State<D>, t: State<D>, data: D)
    requires Reaches(f, s, t) && t.poller.Sleeping? && f(data) != t.board.mark
    ensures Reaches(f, s, State(t.history + [data], Board(data, f(data), t.board.subscribers),
      Waking(t.board.subscribers), t.streams))
  {
    Then(f, s, t, Fetch(data));
    var u := t.(poller := Fetched(data));
    assert Do(f, t, Fetch(data)) == u;
    Then(f, s, u, Compare);
    assert Do(f, u, Compare) == State(t.history + [data], Board(data, f(data), t.board.subscribers),
      Waking(t.board.subscribers), t.streams);
  }

  /** The poller wakes the only stream and sleeps again. */
  lemma Wakes<D(!new)>(f: D -> string, s: State<D>, t: State<D>, c: Stream<D>)
    requires Reaches(f, s, t) && t.streams == [c] && t.poller == Waking({0})
    ensures Reaches(f, s, With(t, c.(event := true)).(poller := Sleeping))
  {
    Then(f, s, t, Wake(0));
    var u := With(t, c.(event := true)).(poller := Waking({}));
    assert {0} - {0} == {};
    assert Do(f, t, Wake(0)) == u;
    Then(f, s, u, WakeDone);
    assert Do(f, u, WakeDone) == u.(poller := Sleeping);
  }

  function Opening<D>(f: D -> string, d0: D): State<D> { State([d0], Board(d0, f(d0), {}), Sleeping, []) }

  /** One stream has connected and waits with its first event set. */
  lemma Connects<D(!new)>(f: D -> string, d0: D)
    ensures
      var t := State([d0], Board(d0, f(d0), {0}), Sleeping, [Stream(true, Waiting, [])]);
      Reaches(f, Opening(f, d0), t)
  {
    var s := Opening(f, d0);
    var none: seq<Step<D>> := [];
    assert Runs(f, s, none, s);
    Then(f, s, s, Connect);
    var u := s.(streams := [Stream(true, Starting, [])]);
    assert Do(f, s, Connect) == u;
    Then(f, s, u, Enter(0));
    assert {} + {0} == {0};
    assert Do(f, u, Enter(0)) == State([d0], Board(d0, f(d0), {0}), Sleeping, [Stream(true, Waiting, [])]);
  }

  /** Two snapshots come while the stream has cleared its first event and not yet read. */
  lemma Overtaken<D(!new)>(f: D -> string, d0: D, d1: D, d2: D)
    requires f(d0) != f(d1) && f(d1) != f(d2)
    ensures
      var t := State([d0] + [d1] + [d2], Board(d2, f(d2), {0}), Waking({0}), [Stream(true, Cleared, [])]);
      Reaches(f, Opening(f, d0), t)
  {
    var s := Opening(f, d0);
    Connects(f, d0);
    var t1 := State([d0], Board(d0, f(d0), {0}), Sleeping, [Stream(true, Waiting, [])]);
    TakesEvent(f, s, t1, Stream(true, Waiting, []));
    var t2 := With(t1, Stream(false, Cleared, []));
    Installs(f, s, t2, d1);
    var t3 := State([d0] + [d1], Board(d1, f(d1), {0}), Waking({0}), t2.streams);
    Wakes(f, s, t3, Stream(false, Cleared, []));
    var t4 := With(t3, Stream(true, Cleared, [])).(poller := Sleeping);
    Installs(f, s, t4, d2);
  }

  /**
   The stream sends the second of them for the event it had cleared, for the event set in between, and for its own
   wake-up.
   */
  lemma ThreeIsReached<D(!new)>(f: D -> string, d0: D, d1: D, d2: D) returns (t: State<D>)
    requires f(d0) != f(d1) && f(d1) != f(d2)
    ensures Initial(f, Opening(f, d0)) && Reaches(f, Opening(f, d0), t)
    ensures |t.streams| == 1 && t.streams[0].sent == [Message(2, d2)] + [Message(2, d2)] + [Message(2, d2)]
  {
    var s := Opening(f, d0);
    Overtaken(f, d0, d1, d2);
    var t1 := State([d0] + [d1] + [d2], Board(d2, f(d2), {0}), Waking({0}), [Stream(true, Cleared, [])]);
    SendsLatest(f, s, t1, Stream(true, Cleared, []));
    var m := Message(2, d2);
    assert [] + [m] == [m];
    var t2 := With(t1, Stream(true, Waiting, [m]));
    TakesEvent(f, s, t2, Stream(true, Waiting, [m]));
    var t3 := With(t2, Stream(false, Cleared, [m]));
    SendsLatest(f, s, t3, Stream(false, Cleared, [m]));
    var t4 := With(t3, Stream(false, Waiting, [m] + [m]));
    Wakes(f, s, t4, Stream(false, Waiting, [m] + [m]));
    t := SendsAgain(f, s, t4.(poller := Sleeping, streams := [Stream(true, Waiting, [m] + [m])]), [m] + [m]);
  }

  lemma SendsAgain<D(!new)>(f: D -> string, s: State<D>, t: State<D>, sent: seq<Message<D>>) returns (u: State<D>)
    requires Reaches(f, s, t) && t.streams == [Stream(true, Waiting, sent)]
    ensures Reaches(f, s, u) && u.streams == [Stream(false, Waiting, sent + [Message(t.Top(), t.board.latest)])]
  {
    TakesEvent(f, s, t, Stream(true, Waiting, sent));
    var mid := With(t, Stream(false, Cleared, sent));
    SendsLatest(f, s, mid, Stream(false, Cleared, sent));
    u := With(mid, Stream(false, Waiting, sent + [Message(t.Top(), t.board.latest)]));
  }
}
