/**
 The board hub: a poller that replaces the latest snapshot when its fingerprint changes and wakes the subscribed
 streams, and any number of streams that wait, clear their event, read the latest snapshot and write it out.
 */
module Hub {
  import opened Basics

  // ----- what happens while the lock is held -----

  datatype Board<!D, !E> = Board(latest: D, mark: string, subscribers: set<E>)

  /** Install a snapshot unless its fingerprint is the current one; the second part is who is to be woken. */
  function Offer<D, E>(fingerprint: D -> string, b: Board<D, E>, data: D): (Board<D, E>, set<E>) {
    if fingerprint(data) == b.mark then (b, {})
    else (b.(latest := data, mark := fingerprint(data)), b.subscribers)
  }

  class Event {
    var flag: bool

    constructor ()
      ensures flag
    {
      flag := true;
    }
  }

  class BoardHub<D> {
    var latest: D
    var mark: string
    var subscribers: set<Event>

    function View(): (b: Board<D, Event>)
      reads this
    {
      Board(latest, mark, subscribers)
    }

    constructor (fingerprint: D -> string, initial: Option<D>, empty: D)
      ensures View() == Board(latest, fingerprint(latest), {})
      ensures latest == if initial.Some? then initial.value else empty
    {
      var first := if initial.Some? then initial.value else empty;
      latest, mark, subscribers := first, fingerprint(first), {};
    }

    method Subscribe() returns (event: Event)
      modifies this`subscribers
      ensures fresh(event) && event.flag
      ensures View() == old(View()).(subscribers := old(subscribers) + {event})
    {
      event := new Event();
      subscribers := subscribers + {event};
    }

    method Unsubscribe(event: Event)
      modifies this`subscribers
      ensures View() == old(View()).(subscribers := old(subscribers) - {event})
    {
      subscribers := subscribers - {event};
    }

    /** One round of the poller; the events are set after the lock is released. */
    method Poll(fingerprint: D -> string, data: Option<D>)
      modifies this`latest, this`mark, subscribers
      ensures data.None? ==> View() == old(View()) && forall e :: e in subscribers ==> e.flag == old(e.flag)
      ensures data.Some? ==>
        var (board, wake) := Offer(fingerprint, old(View()), data.value);
        && View() == board
        && forall e :: e in subscribers ==> (e.flag <==> old(e.flag) || e in wake)
    {
      if data.Some? {
        ghost var before := View();
        if fingerprint(data.value) != mark {
          latest, mark := data.value, fingerprint(data.value);
          var wake := subscribers;
          while wake != {}
            invariant wake <= subscribers
            invariant View() == Offer(fingerprint, before, data.value).0
            invariant forall e :: e in subscribers ==> (e.flag <==> old(e.flag) || e in subscribers - wake)
            decreases |wake|
          {
            var e :| e in wake;
            e.flag := true;
            wake := wake - {e};
          }
        }
      }
    }
  }

  // ----- every interleaving -----

  /** A snapshot a stream has read, with its place in the order in which snapshots were installed. */
  datatype Message<+D> = Message(version: nat, data: D)

  datatype Place<+D> =
    | Starting
    | Waiting
    | Woken
    | Cleared
    | Holding(message: Message<D>)
    | Pinging
    | Leaving
    | Gone

  datatype Stream<+D> = Stream(event: bool, place: Place<D>, sent: seq<Message<D>>)

  datatype Poller<+D> = Sleeping | Fetched(data: D) | Waking(wake: set<nat>)

  /**
   `history` lists every snapshot that was ever the latest. Streams are named by the order in which they connected.
   */
  datatype State<!D> = State(history: seq<D>, board: Board<D, nat>, poller: Poller<D>, streams: seq<Stream<D>>)
  {
    function Top(): nat { if history == [] then 0 else |history| - 1 }

    predicate Queued(i: nat) { poller.Waking? && i in poller.wake }
  }

  datatype Step<+D> =
    | Fetch(data: D)
    | Compare
    | Wake(id: nat)
    | WakeDone
    | Connect
    | Enter(id: nat)
    | Return(id: nat)
    | TimeOut(id: nat)
    | Clear(id: nat)
    | Read(id: nat)
    | Write(id: nat)
    | Ping(id: nat)
    | Disconnect(id: nat)
    | Leave(id: nat)

  predicate Enabled<D>(s: State<D>, step: Step<D>) {
    match step
    case Fetch(_) => s.poller.Sleeping?
    case Compare => s.poller.Fetched?
    case Wake(i) => i < |s.streams| && s.Queued(i)
    case WakeDone => s.poller.Waking? && s.poller.wake == {}
    case Connect => true
    case Enter(i) => i < |s.streams| && s.streams[i].place.Starting?
    case Return(i) => i < |s.streams| && s.streams[i].place.Waiting? && s.streams[i].event
    case TimeOut(i) => i < |s.streams| && s.streams[i].place.Waiting?
    case Clear(i) => i < |s.streams| && s.streams[i].place.Woken?
    case Read(i) => i < |s.streams| && s.streams[i].place.Cleared?
    case Write(i) => i < |s.streams| && s.streams[i].place.Holding?
    case Ping(i) => i < |s.streams| && s.streams[i].place.Pinging?
    case Disconnect(i) => i < |s.streams| && (s.streams[i].place.Holding? || s.streams[i].place.Pinging?)
    case Leave(i) => i < |s.streams| && s.streams[i].place.Leaving?
  }

  /** The steps one stream takes on its own, given the snapshot that is the latest. */
  function Moved<D>(c: Stream<D>, step: Step<D>, top: Message<D>): Stream<D> {
    match step
    case Wake(_) => c.(event := true)
    case Enter(_) => c.(place := Waiting)
    case Return(_) => c.(place := Woken)
    case TimeOut(_) => c.(place := Pinging)
    case Clear(_) => c.(event := false, place := Cleared)
    case Read(_) => c.(place := Holding(top))
    case Write(_) => if c.place.Holding? then c.(place := Waiting, sent := c.sent + [c.place.message]) else c
    case Ping(_) => c.(place := Waiting)
    case Disconnect(_) => c.(place := Leaving)
    case Leave(_) => c.(place := Gone)
    case _ => c
  }

  function Do<D>(fingerprint: D -> string, s: State<D>, step: Step<D>): State<D>
    requires Enabled(s, step)
  {
    var top := Message(s.Top(), s.board.latest);
    match step
    case Fetch(data) => s.(poller := Fetched(data))
    case Compare =>
      var (board, wake) := Offer(fingerprint, s.board, s.poller.data);
      if fingerprint(s.poller.data) == s.board.mark then s.(poller := Sleeping)
      else s.(board := board, history := s.history + [s.poller.data], poller := Waking(wake))
    case WakeDone => s.(poller := Sleeping)
    case Connect => s.(streams := s.streams + [Stream(true, Starting, [])])
    case Wake(i) =>
      s.(poller := Waking(s.poller.wake - {i}), streams := s.streams[i := Moved(s.streams[i], step, top)])
    case Enter(i) =>
      s.(board := s.board.(subscribers := s.board.subscribers + {i}),
         streams := s.streams[i := Moved(s.streams[i], step, top)])
    case Leave(i) =>
      s.(board := s.board.(subscribers := s.board.subscribers - {i}),
         streams := s.streams[i := Moved(s.streams[i], step, top)])
    case _ => s.(streams := s.streams[step.id := Moved(s.streams[step.id], step, top)])
  }

  // ----- the invariant -----

  /** Nothing newer than what the stream sent last can be missed: a wake-up is on its way or about to be used. */
  predicate Alert<D>(c: Stream<D>, top: int, queued: bool) {
    match c.place
    case Starting => c.event
    case Woken => c.event
    case Waiting => c.event || queued || (c.sent != [] && c.sent[|c.sent| - 1].version == top)
    case Pinging => c.event || queued || (c.sent != [] && c.sent[|c.sent| - 1].version == top)
    case Holding(m) => c.event || queued || m.version == top
    case _ => true
  }

  ghost predicate Ordered<D>(sent: seq<Message<D>>) {
    forall i, j :: 0 <= i < j < |sent| ==> sent[i].version <= sent[j].version
  }

  ghost predicate Genuine<D>(history: seq<D>, m: Message<D>) {
    m.version < |history| && m.data == history[m.version]
  }

  ghost predicate Faithful<D>(c: Stream<D>, history: seq<D>) {
    && Ordered(c.sent)
    && (forall k :: 0 <= k < |c.sent| ==> Genuine(history, c.sent[k]))
    && (c.place.Holding? ==>
          && Genuine(history, c.place.message)
          && forall k :: 0 <= k < |c.sent| ==> c.sent[k].version <= c.place.message.version)
  }

  predicate Listening<D>(c: Stream<D>) {
    !c.place.Starting? && !c.place.Gone?
  }

  ghost predicate BoardOk<D>(fingerprint: D -> string, s: State<D>) {
    && s.history != []
    && s.board.latest == s.history[|s.history| - 1]
    && s.board.mark == fingerprint(s.board.latest)
    && (forall k {:trigger s.history[k]} :: 0 < k < |s.history| ==>
      fingerprint(s.history[k - 1]) != fingerprint(s.history[k]))
  }

  ghost predicate StreamsOk<D>(s: State<D>) {
    && (s.poller.Waking? ==> forall i :: i in s.poller.wake ==> i < |s.streams|)
    && (forall i :: i in s.board.subscribers ==> i < |s.streams|)
    && (forall i: nat {:trigger s.streams[i]} {:trigger StreamOk(s, i)} :: i < |s.streams| ==> StreamOk(s, i))
  }

  ghost predicate StreamOk<D>(s: State<D>, i: nat)
    requires i < |s.streams|
  {
    && (i in s.board.subscribers <==> Listening(s.streams[i]))
    && Alert(s.streams[i], s.Top(), s.Queued(i))
    && Faithful(s.streams[i], s.history)
  }

  ghost predicate Inv<D>(fingerprint: D -> string, s: State<D>) {
    BoardOk(fingerprint, s) && StreamsOk(s)
  }

  ghost predicate Initial<D>(fingerprint: D -> string, s: State<D>) {
    && |s.history| == 1
    && s.board == Board(s.history[0], fingerprint(s.history[0]), {})
    && s.poller == Sleeping && s.streams == []
  }

  /** A snapshot of the history stays where it is when more are installed. */
  lemma FaithfulGrows<D>(c: Stream<D>, history: seq<D>, data: D)
    requires Faithful(c, history)
    ensures Faithful(c, history + [data])
  {
  }

  lemma MovedFaithful<D>(c: Stream<D>, step: Step<D>, history: seq<D>)
    requires Faithful(c, history) && history != []
    ensures Faithful(Moved(c, step, Message(|history| - 1, history[|history| - 1])), history)
  {
  }

  /** Steps that one stream takes, or that are taken for it. */
  predicate ByStream<D>(step: Step<D>) {
    step.Wake? || step.Enter? || step.Return? || step.TimeOut? || step.Clear? || step.Read? || step.Write?
    || step.Ping? || step.Disconnect? || step.Leave?
  }

  lemma StreamStepKeeps<D>(fingerprint: D -> string, s: State<D>, step: Step<D>)
    requires Inv(fingerprint, s) && Enabled(s, step) && ByStream(step)
    ensures Inv(fingerprint, Do(fingerprint, s, step))
  {
    var next := Do(fingerprint, s, step);
    MovedStream(fingerprint, s, step);
    forall j: nat | j < |next.streams| && j != step.id ensures StreamOk(next, j) {
      assert StreamOk(s, j) && next.streams[j] == s.streams[j] && next.Queued(j) == s.Queued(j);
    }
  }

  /** The stream that a step moves. */
  lemma MovedStream<D>(fingerprint: D -> string, s: State<D>, step: Step<D>)
    requires Inv(fingerprint, s) && Enabled(s, step) && ByStream(step)
    ensures StreamOk(Do(fingerprint, s, step), step.id)
  {
    assert StreamOk(s, step.id);
    MovedFaithful(s.streams[step.id], step, s.history);
  }

  lemma InstallKeepsBoard<D>(fingerprint: D -> string, s: State<D>)
    requires BoardOk(fingerprint, s) && s.poller.Fetched?
    ensures BoardOk(fingerprint, Do(fingerprint, s, Compare))
  {
    if fingerprint(s.poller.data) != s.board.mark { HistoryDiffers(fingerprint, s.history, s.poller.data); }
  }

  lemma HistoryDiffers<D>(fingerprint: D -> string, history: seq<D>, data: D)
    requires history != [] && fingerprint(history[|history| - 1]) != fingerprint(data)
    requires forall k {:trigger history[k]} :: 0 < k < |history| ==>
      fingerprint(history[k - 1]) != fingerprint(history[k])
    ensures var more := history + [data];
      forall k {:trigger more[k]} :: 0 < k < |more| ==> fingerprint(more[k - 1]) != fingerprint(more[k])
  {
    var more := history + [data];
    forall k {:trigger more[k]} | 0 < k < |more| ensures fingerprint(more[k - 1]) != fingerprint(more[k]) {
      if k < |history| { assert more[k] == history[k]; }
    }
  }

  lemma InstallKeepsStreams<D>(fingerprint: D -> string, s: State<D>)
    requires StreamsOk(s) && s.poller.Fetched? && fingerprint(s.poller.data) != s.board.mark
    ensures StreamsOk(Do(fingerprint, s, Compare))
  {
    var next := Do(fingerprint, s, Compare);
    forall i: nat | i < |s.streams| ensures StreamOk(next, i) {
      assert StreamOk(s, i);
      FaithfulGrows(s.streams[i], s.history, s.poller.data);
    }
  }

  lemma StepKeeps<D>(fingerprint: D -> string, s: State<D>, step: Step<D>)
    requires Inv(fingerprint, s) && Enabled(s, step)
    ensures Inv(fingerprint, Do(fingerprint, s, step))
  {
    if ByStream(step) {
      StreamStepKeeps(fingerprint, s, step);
    } else if step.Compare? && fingerprint(s.poller.data) != s.board.mark {
      InstallKeepsBoard(fingerprint, s);
      InstallKeepsStreams(fingerprint, s);
    } else {
      RestKeeps(fingerprint, s, step);
    }
  }

  /** Steps that change no stream and no board, but for a stream that connects. */
  lemma RestKeeps<D>(fingerprint: D -> string, s: State<D>, step: Step<D>)
    requires Inv(fingerprint, s) && Enabled(s, step) && !ByStream(step)
    requires step.Compare? ==> fingerprint(s.poller.data) == s.board.mark
    ensures Inv(fingerprint, Do(fingerprint, s, step))
  {
    var next := Do(fingerprint, s, step);
    assert forall i: nat :: next.Queued(i) == s.Queued(i);
  }

  /** After a comparison the latest snapshot is, up to its fingerprint, the one that was fetched last. */
  lemma LatestIsCurrent<D>(fingerprint: D -> string, s: State<D>)
    requires BoardOk(fingerprint, s) && s.poller.Fetched?
    ensures Enabled(s, Compare)
    ensures fingerprint(Do(fingerprint, s, Compare).board.latest) == fingerprint(s.poller.data)
  {
  }

  /** A client can connect at any time, and is then subscribed with its event set. */
  lemma ClientsCome<D>(fingerprint: D -> string, s: State<D>)
    ensures Enabled(s, Connect) && Enabled(Do(fingerprint, s, Connect), Enter(|s.streams|))
    ensures
      var t := Do(fingerprint, Do(fingerprint, s, Connect), Enter(|s.streams|));
      |s.streams| in t.board.subscribers && t.streams[|s.streams|] == Stream(true, Waiting, [])
  {
  }

  /** A client can go whenever something is written to it, and is then subscribed no more. */
  lemma ClientsGo<D>(fingerprint: D -> string, s: State<D>, i: nat)
    requires i < |s.streams| && (s.streams[i].place.Holding? || s.streams[i].place.Pinging?)
    ensures Enabled(s, Disconnect(i)) && Enabled(Do(fingerprint, s, Disconnect(i)), Leave(i))
    ensures
      var t := Do(fingerprint, Do(fingerprint, s, Disconnect(i)), Leave(i));
      i !in t.board.subscribers && t.streams[i].place.Gone? && t.streams[i].sent == s.streams[i].sent
  {
  }

  /** A run of the hub: every step is one that some thread can take. */
  ghost predicate Runs<D>(fingerprint: D -> string, s: State<D>, steps: seq<Step<D>>, t: State<D>)
    decreases |steps|
  {
    if steps == [] then s == t
    else Enabled(s, steps[0]) && Runs(fingerprint, Do(fingerprint, s, steps[0]), steps[1..], t)
  }

  lemma {:induction false} RunKeeps<D>(fingerprint: D -> string, s: State<D>, steps: seq<Step<D>>, t: State<D>)
    requires Inv(fingerprint, s) && Runs(fingerprint, s, steps, t)
    ensures Inv(fingerprint, t)
    decreases |steps|
  {
    if steps != [] {
      StepKeeps(fingerprint, s, steps[0]);
      RunKeeps(fingerprint, Do(fingerprint, s, steps[0]), steps[1..], t);
    }
  }

  /**
   No lost wake-up. In every interleaving, a stream that waits with a clear event has sent the snapshot that is the
   latest now, or the poller is still about to set its event; what a stream sends are snapshots that were the
   latest, in the order in which they were installed; and no snapshot is installed over one with the same
   fingerprint.
   */
  lemma NoLostWakeUp<D>(fingerprint: D -> string, s: State<D>, steps: seq<Step<D>>, t: State<D>, i: nat)
    requires Initial(fingerprint, s) && Runs(fingerprint, s, steps, t) && i < |t.streams|
    ensures
      var c := t.streams[i];
      && (c.place.Waiting? && !c.event && !t.Queued(i) ==>
            c.sent != [] && c.sent[|c.sent| - 1] == Message(t.Top(), t.board.latest))
      && Ordered(c.sent)
      && (forall k :: 0 <= k < |c.sent| ==> Genuine(t.history, c.sent[k]))
      && (i in t.board.subscribers <==> Listening(c))
    ensures BoardOk(fingerprint, t)
  {
    RunKeeps(fingerprint, s, steps, t);
    var c := t.streams[i];
    if c.sent != [] {
      assert Genuine(t.history, c.sent[|c.sent| - 1]);
    }
  }

  // ----- delivery -----

  /** Steps that finish work already begun: no new snapshot, no new stream, no timeout. */
  predicate Delivers<D>(step: Step<D>) {
    !step.Fetch? && !step.Compare? && !step.Connect? && !step.TimeOut?
  }

  function Rank<D>(c: Stream<D>): nat {
    match c.place
    case Starting => 2
    case Waiting => 1
    case Woken => 0
    case Cleared => 3
    case Holding(_) => 2
    case Pinging => 2
    case Leaving => 1
    case Gone => 0
  }

  /** How many steps a stream can still take, counting those a set or queued event will allow. */
  function StreamWork<D>(c: Stream<D>, queued: bool): nat {
    Rank(c) + (if c.event then 4 else 0) + (if queued then 5 else 0)
  }

  function Sum(s: seq<nat>): nat { if s == [] then 0 else Sum(s[..|s| - 1]) + s[|s| - 1] }

  lemma {:induction false} SumFalls(a: seq<nat>, b: seq<nat>, i: nat)
    requires |a| == |b| && i < |a| && b[i] < a[i]
    requires forall j :: 0 <= j < |a| && j != i ==> a[j] == b[j]
    ensures Sum(b) < Sum(a)
  {
    var last := |a| - 1;
    if i == last {
      assert a[..last] == b[..last];
    } else {
      SumFalls(a[..last], b[..last], i);
    }
  }

  function Works<D>(s: State<D>): seq<nat> {
    seq(|s.streams|, i requires 0 <= i < |s.streams| => StreamWork(s.streams[i], s.Queued(i)))
  }

  function Work<D>(s: State<D>): nat { Sum(Works(s)) + if s.poller.Waking? then 1 else 0 }

  lemma DeliveryFalls<D>(fingerprint: D -> string, s: State<D>, step: Step<D>)
    requires Inv(fingerprint, s) && Enabled(s, step) && Delivers(step)
    ensures Work(Do(fingerprint, s, step)) < Work(s)
  {
    var next := Do(fingerprint, s, step);
    if step.WakeDone? {
      assert Works(next) == Works(s);
    } else {
      assert StreamWork(next.streams[step.id], next.Queued(step.id))
        < StreamWork(s.streams[step.id], s.Queued(step.id));
      SumFalls(Works(s), Works(next), step.id);
    }
  }

  lemma {:induction false} DeliveryBound<D>(fingerprint: D -> string, s: State<D>, steps: seq<Step<D>>, t: State<D>)
    requires Inv(fingerprint, s) && Runs(fingerprint, s, steps, t)
    requires forall k :: 0 <= k < |steps| ==> Delivers(steps[k])
    ensures |steps| + Work(t) <= Work(s)
    decreases |steps|
  {
    if steps != [] {
      StepKeeps(fingerprint, s, steps[0]);
      DeliveryFalls(fingerprint, s, steps[0]);
      DeliveryBound(fingerprint, Do(fingerprint, s, steps[0]), steps[1..], t);
    }
  }

  /**
   Every client catches up. From any reachable state, without a further change of the board, only a bounded number
   of steps can be taken, in whatever order the threads are scheduled; and when none is left, every subscribed
   client has the latest snapshot as the last thing it was sent.
   */
  lemma EveryoneCatchesUp<D>(fingerprint: D -> string, s0: State<D>, before: seq<Step<D>>, s: State<D>,
                             steps: seq<Step<D>>, t: State<D>)
    requires Initial(fingerprint, s0) && Runs(fingerprint, s0, before, s) && Runs(fingerprint, s, steps, t)
    requires forall k :: 0 <= k < |steps| ==> Delivers(steps[k])
    ensures |steps| <= Work(s)
    ensures (forall step :: Delivers(step) ==> !Enabled(t, step)) ==>
      forall i :: i in t.board.subscribers ==>
        && i < |t.streams| && t.streams[i].sent != []
        && t.streams[i].sent[|t.streams[i].sent| - 1] == Message(t.Top(), t.board.latest)
  {
    RunKeeps(fingerprint, s0, before, s);
    RunKeeps(fingerprint, s, steps, t);
    DeliveryBound(fingerprint, s, steps, t);
    if forall step :: Delivers(step) ==> !Enabled(t, step) {
      forall i | i in t.board.subscribers
        ensures i < |t.streams| && t.streams[i].sent != []
        ensures t.streams[i].sent[|t.streams[i].sent| - 1] == Message(t.Top(), t.board.latest)
      {
        SettledIsCurrent(fingerprint, t, i);
      }
    }
  }

  lemma SettledIsCurrent<D>(fingerprint: D -> string, t: State<D>, i: nat)
    requires Inv(fingerprint, t) && i in t.board.subscribers
    requires forall step :: Delivers(step) ==> !Enabled(t, step)
    ensures i < |t.streams| && t.streams[i].sent != []
    ensures t.streams[i].sent[|t.streams[i].sent| - 1] == Message(t.Top(), t.board.latest)
  {
    var c := t.streams[i];
    assert !Enabled(t, Wake(i)) && !Enabled(t, Return(i)) && !Enabled(t, Clear(i)) && !Enabled(t, Read(i));
    assert !Enabled(t, Write(i)) && !Enabled(t, Ping(i)) && !Enabled(t, Leave(i));
    assert c.place.Waiting? && !c.event;
    assert Genuine(t.history, c.sent[|c.sent| - 1]);
  }

  // ----- how often one snapshot is sent -----

  function Count<D>(sent: seq<Message<D>>, version: nat): nat {
    if sent == [] then 0
    else Count(sent[..|sent| - 1], version) + if sent[|sent| - 1].version == version then 1 else 0
  }

  /** Copies of a snapshot that a stream has sent or may still send without another change. */
  function Copies<D>(c: Stream<D>, version: nat, top: nat, queued: bool): nat {
    Count(c.sent, version)
    + (if c.place.Holding? && c.place.message.version == version then 1 else 0)
    + if version != top then 0
      else (if c.event then 1 else 0) + (if queued then 1 else 0) + (if c.place.Cleared? then 1 else 0)
  }

  ghost predicate Sparing<D>(c: Stream<D>, top: nat, queued: bool) {
    forall v: nat :: Copies(c, v, top, queued) <= 3
  }

  ghost predicate AllSparing<D>(s: State<D>) {
    forall i: nat :: i < |s.streams| ==> Sparing(s.streams[i], s.Top(), s.Queued(i))
  }

  lemma {:induction false} NoneYet<D>(sent: seq<Message<D>>, version: nat)
    requires forall k :: 0 <= k < |sent| ==> sent[k].version < version
    ensures Count(sent, version) == 0
  {
    if sent != [] { NoneYet(sent[..|sent| - 1], version); }
  }

  lemma MovedSparing<D>(s: State<D>, step: Step<D>, top: Message<D>)
    requires Enabled(s, step) && ByStream(step) && top.version == s.Top()
    requires step.Clear? ==> s.streams[step.id].event
    requires Sparing(s.streams[step.id], s.Top(), s.Queued(step.id))
    ensures Sparing(Moved(s.streams[step.id], step, top), s.Top(), s.Queued(step.id) && !step.Wake?)
  {
    var c := s.streams[step.id];
    var after := Moved(c, step, top);
    var queued := s.Queued(step.id) && !step.Wake?;
    forall v: nat ensures Copies(after, v, s.Top(), queued) <= 3 {
      assert Copies(c, v, s.Top(), s.Queued(step.id)) <= 3;
      if step.Write? {
        assert after.sent[..|c.sent|] == c.sent;
      }
    }
  }

  lemma InstallSparing<D>(c: Stream<D>, history: seq<D>, queued: bool, again: bool)
    requires Faithful(c, history) && history != [] && Sparing(c, |history| - 1, queued)
    ensures Sparing(c, |history|, again)
  {
    NoneYet(c.sent, |history|);
    forall v: nat ensures Copies(c, v, |history|, again) <= 3 {
      assert Copies(c, v, |history| - 1, queued) <= 3;
    }
  }

  lemma StepSparing<D>(fingerprint: D -> string, s: State<D>, step: Step<D>)
    requires Inv(fingerprint, s) && Enabled(s, step) && AllSparing(s)
    ensures AllSparing(Do(fingerprint, s, step))
  {
    var next := Do(fingerprint, s, step);
    forall i: nat | i < |next.streams| ensures Sparing(next.streams[i], next.Top(), next.Queued(i)) {
      if ByStream(step) {
        if i == step.id {
          MovedSparing(s, step, Message(s.Top(), s.board.latest));
        } else {
          assert next.streams[i] == s.streams[i] && next.Queued(i) == s.Queued(i);
        }
      } else if step.Connect? && i == |s.streams| {
        assert !next.Queued(i);
      } else if next.history != s.history {
        InstallSparing(s.streams[i], s.history, s.Queued(i), next.Queued(i));
      } else {
        assert next.streams[i] == s.streams[i] && next.Queued(i) == s.Queued(i);
      }
    }
  }

  lemma {:induction false} RunSparing<D>(fingerprint: D -> string, s: State<D>, steps: seq<Step<D>>, t: State<D>)
    requires Inv(fingerprint, s) && AllSparing(s) && Runs(fingerprint, s, steps, t)
    ensures AllSparing(t)
    decreases |steps|
  {
    if steps != [] {
      StepKeeps(fingerprint, s, steps[0]);
      StepSparing(fingerprint, s, steps[0]);
      RunSparing(fingerprint, Do(fingerprint, s, steps[0]), steps[1..], t);
    }
  }

  /**
   A client is never sent one snapshot more than three times: once for an event it had cleared but not acted on when
   the snapshot came, once for an event that was already set then, and once for the snapshot's own wake-up.
   */
  lemma SentAtMostThrice<D>(fingerprint: D -> string, s: State<D>, steps: seq<Step<D>>, t: State<D>, i: nat,
      version: nat)
    requires Initial(fingerprint, s) && Runs(fingerprint, s, steps, t) && i < |t.streams|
    ensures Count(t.streams[i].sent, version) <= 3
  {
    RunSparing(fingerprint, s, steps, t);
    assert Copies(t.streams[i], version, t.Top(), t.Queued(i)) <= 3;
  }
}
