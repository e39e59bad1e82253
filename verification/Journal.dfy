/** Reading the raw journal through a sequence in bounded batches, while it grows. */
module Journal {
  import opened Basics
  import opened Snapshot

  datatype Event = Event(sequence: nat, body: string)

  datatype JournalError = OutOfRange | Gap

  const BATCH: nat := 5000

  /** Sequences are positive and strictly increasing; they need not be contiguous. */
  ghost predicate Increasing(j: seq<Event>) {
    && (forall i :: 0 <= i < |j| ==> j[i].sequence > 0)
    && (forall i, k :: 0 <= i < k < |j| ==> j[i].sequence < j[k].sequence)
  }

  /** The journal as it stands at each read of the store: append-only. */
  ghost predicate AppendOnly(journal: nat -> seq<Event>) {
    (forall i: nat :: Increasing(journal(i))) && (forall i: nat, k: nat :: i <= k ==> journal(i) <= journal(k))
  }

  function Latest(j: seq<Event>): nat { if j == [] then 0 else j[|j| - 1].sequence }

  /** The store's query: the first events after a sequence. */
  function Fetch(j: seq<Event>, after: int, limit: int): seq<Event> {
    var rows := Select(j, (e: Event) => e.sequence > after);
    var n := Max(1, Min(BATCH, limit));
    if |rows| <= n then rows else rows[..n]
  }

  /** The sequence of the last of the first `p` events. */
  function CursorAt(j: seq<Event>, p: nat): nat
    requires p <= |j|
  {
    if p == 0 then 0 else j[p - 1].sequence
  }

  /** The first `p` events are at most, the others above, the sequence of the `p`-th. */
  lemma Halves(j: seq<Event>, p: nat)
    requires Increasing(j) && p <= |j|
    ensures forall e :: e in j[..p] ==> e.sequence <= CursorAt(j, p)
    ensures forall e :: e in j[p..] ==> e.sequence > CursorAt(j, p)
  {
  }

  lemma EventsAfter(j: seq<Event>, p: nat)
    requires Increasing(j) && p <= |j|
    ensures var after := CursorAt(j, p); Select(j, (e: Event) => e.sequence > after) == j[p..]
  {
    var after := CursorAt(j, p);
    Halves(j, p);
    SelectSuffix(j, p, (e: Event) => e.sequence > after);
  }

  /** A batch fetched after position `p` is the next slice, and is empty only when nothing is left. */
  lemma NextBatch(j: seq<Event>, p: nat, limit: int, keep: Event -> bool)
    requires Increasing(j) && p <= |j|
    ensures
      var batch := Fetch(j, CursorAt(j, p), limit);
      var q := p + |batch|;
      && q <= |j| && (batch == [] ==> p == |j|)
      && (batch != [] ==> batch[|batch| - 1].sequence == CursorAt(j, q) > CursorAt(j, p))
      && Select(j[..p], keep) + Select(batch, keep) == Select(j[..q], keep)
  {
    EventsAfter(j, p);
    var batch := Fetch(j, CursorAt(j, p), limit);
    assert batch == j[p..p + |batch|];
    assert j[..p] + batch == j[..p + |batch|];
    SelectConcat(j[..p], batch, keep);
  }

  lemma SamePrefix(journal: nat -> seq<Event>, calls: nat, p: nat)
    requires AppendOnly(journal) && calls > 0 && p <= |journal(calls - 1)|
    ensures p <= |journal(calls)| && Increasing(journal(calls))
    ensures journal(calls - 1)[..p] == journal(calls)[..p]
    ensures CursorAt(journal(calls - 1), p) == CursorAt(journal(calls), p)
  {
    assert journal(calls - 1) <= journal(calls);
  }

  lemma LatestGrows(journal: nat -> seq<Event>, calls: nat)
    requires AppendOnly(journal)
    ensures Latest(journal(0)) <= Latest(journal(calls))
  {
    assert journal(0) <= journal(calls) && Increasing(journal(calls));
  }

  /** Nothing past position `p` is within the bound once the bound has been passed. */
  lemma RestIsLater(j: seq<Event>, p: nat, bound: int, keep: Event -> bool)
    requires Increasing(j) && p <= |j| && bound <= CursorAt(j, p)
    requires forall e :: keep(e) == (e.sequence <= bound)
    ensures Select(j, keep) == Select(j[..p], keep)
  {
    Halves(j, p);
    SelectNone(j[p..], keep);
    SelectHalves(j, p, keep);
  }

  lemma SelectHalves(j: seq<Event>, p: nat, keep: Event -> bool)
    requires p <= |j|
    ensures Select(j, keep) == Select(j[..p], keep) + Select(j[p..], keep)
  {
    var a, b := j[..p], j[p..];
    assert a + b == j;
    SelectConcat(a, b, keep);
  }

  /** With the first `p` events behind it and the bound passed, a reader has all that the first journal holds. */
  lemma AllRead(journal: nat -> seq<Event>, calls: nat, p: nat, bound: int, keep: Event -> bool)
    requires AppendOnly(journal) && p <= |journal(calls)|
    requires forall e :: keep(e) == (e.sequence <= bound)
    requires bound <= Latest(journal(0)) && bound <= CursorAt(journal(calls), p)
    ensures Select(journal(calls)[..p], keep) == Select(journal(0), keep)
  {
    var first, j := journal(0), journal(calls);
    assert first <= j && j[..|first|] == first;
    RestIsLater(j, p, bound, keep);
    RestIsLater(j, |first|, bound, keep);
  }

  function Within(bound: int): Event -> bool { (e: Event) => e.sequence <= bound }

  /** After some calls, the first `p` events have been read and those within the bound collected. */
  ghost predicate ReadSoFar(j: seq<Event>, p: nat, cursor: int, events: seq<Event>, keep: Event -> bool) {
    p <= |j| && cursor == CursorAt(j, p) && events == Select(j[..p], keep)
  }

  lemma ReadOn(journal: nat -> seq<Event>, calls: nat, p: nat, cursor: int, events: seq<Event>, limit: int,
      keep: Event -> bool)
    requires AppendOnly(journal) && calls > 0 && ReadSoFar(journal(calls - 1), p, cursor, events, keep)
    ensures
      var batch := Fetch(journal(calls), cursor, limit);
      if batch == [] then Latest(journal(0)) <= cursor
      else
        var next := batch[|batch| - 1].sequence;
        cursor < next && ReadSoFar(journal(calls), p + |batch|, next, events + Select(batch, keep), keep)
  {
    SamePrefix(journal, calls, p);
    NextBatch(journal(calls), p, limit, keep);
    LatestGrows(journal, calls);
  }

  method ReadBatch(journal: nat -> seq<Event>, calls: nat, cursor: int, limit: int, ghost events: seq<Event>,
      ghost p: nat, ghost keep: Event -> bool)
    returns (batch: seq<Event>)
    requires AppendOnly(journal) && calls > 0 && ReadSoFar(journal(calls - 1), p, cursor, events, keep)
    ensures batch == [] ==> Latest(journal(0)) <= cursor
    ensures |batch| <= Max(1, limit) && |batch| <= 5000
    ensures batch != [] ==>
      && cursor < batch[|batch| - 1].sequence
      && ReadSoFar(journal(calls), p + |batch|, batch[|batch| - 1].sequence, events + Select(batch, keep), keep)
  {
    ReadOn(journal, calls, p, cursor, events, limit, keep);
    batch := Fetch(journal(calls), cursor, limit);
  }

  /**
   The batches up to a bound. A journal that holds the bound never reports a gap, not even when its
   sequences do have gaps, and what is appended while the batches are read does not show.
   */
  method ReadBatches(journal: nat -> seq<Event>, bound: int) returns (r: Result<seq<Event>, JournalError>)
    requires AppendOnly(journal)
    ensures bound <= Latest(journal(0)) ==> r == Ok(Select(journal(0), Within(bound)))
    ensures r.Err? ==> Latest(journal(0)) < bound
  {
    var keep := Within(bound);
    var events, cursor, calls := [], 0, 0;
    ghost var p: nat := 0;
    while cursor < bound
      invariant ReadSoFar(journal(calls), p, cursor, events, keep)
      decreases bound - cursor
    {
      calls := calls + 1;
      var batch := ReadBatch(journal, calls, cursor, Min(BATCH, bound - cursor), events, p, keep);
      if batch == [] {
        return Err(Gap);
      }
      events := events + Select(batch, keep);
      cursor := batch[|batch| - 1].sequence;
      p := p + |batch|;
    }
    if bound <= Latest(journal(0)) {
      AllRead(journal, calls, p, bound, keep);
    }
    r := Ok(events);
  }

  /** The first events, up to the bound, that one included. */
  ghost predicate FirstWithin(j: seq<Event>, bound: int, s: seq<Event>) {
    s <= j && forall i :: 0 <= i < |j| ==> (i < |s| <==> j[i].sequence <= bound)
  }

  lemma OneMoreWithin(front: seq<Event>, e: Event, bound: int, s: seq<Event>)
    requires Increasing(front + [e]) && FirstWithin(front, bound, s)
    ensures e.sequence > bound ==> FirstWithin(front + [e], bound, s)
    ensures e.sequence <= bound ==> FirstWithin(front + [e], bound, front + [e])
  {
    var j := front + [e];
    assert j[|front|] == e && forall i :: 0 <= i < |front| ==> j[i] == front[i];
  }

  /** The events within a bound are the first ones. */
  lemma {:induction false} WithinIsPrefix(j: seq<Event>, bound: int)
    requires Increasing(j)
    ensures FirstWithin(j, bound, Select(j, Within(bound)))
  {
    var keep := Within(bound);
    if j != [] {
      var front, e := j[..|j| - 1], j[|j| - 1];
      assert j == front + [e];
      assert forall i :: 0 <= i < |front| ==> front[i] == j[i];
      WithinIsPrefix(front, bound);
      OneMoreWithin(front, e, bound, Select(front, keep));
      SelectConcat(front, [e], keep);
      SelectOne(e, keep);
      if keep(e) { AllWithin(front, e, keep, bound); }
    }
  }

  lemma AllWithin(front: seq<Event>, e: Event, keep: Event -> bool, bound: int)
    requires Increasing(front + [e]) && keep == Within(bound) && keep(e)
    ensures Select(front, keep) == front
  {
    var j := front + [e];
    assert forall i :: 0 <= i < |front| ==> j[i] == front[i] && j[i].sequence < j[|front|].sequence;
    SelectAll(front, keep);
  }

  lemma SelectOne(e: Event, keep: Event -> bool)
    ensures Select([e], keep) == if keep(e) then [e] else []
  {
    assert [e][1..] == [];
  }

  /**
   The result is exactly the events the first journal holds through the bound, however much is appended while the
   batches are read; the only error left is a bound outside the journal.
   */
  method EventsThrough(journal: nat -> seq<Event>, at: Option<int>) returns (r: Result<seq<Event>, JournalError>)
    requires AppendOnly(journal)
    ensures
      var bound := if at.None? then Latest(journal(0)) else at.value;
      r == if 0 <= bound <= Latest(journal(0))
           then Ok(Select(journal(0), Within(bound))) else Err(OutOfRange)
    ensures r.Ok? ==>
      var bound := if at.None? then Latest(journal(0)) else at.value;
      FirstWithin(journal(0), bound, r.value)
  {
    var latest := Latest(journal(0));
    var bound := if at.None? then latest else at.value;
    if bound < 0 || bound > latest {
      return Err(OutOfRange);
    }
    r := ReadBatches(journal, bound);
    WithinIsPrefix(journal(0), bound);
  }
}
