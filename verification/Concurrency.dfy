/**
 Statistics of an evaluation run read from its transition log: how long each rollout ran, how many ran at once, and
 the wall time.
 */
module Concurrency {
  import opened Basics

  datatype Phase = Running | Completed | Failed | Cached | Cancelled | Other

  datatype Row = Row(rollout: bool, entity: string, phase: Phase, ms: int)

  datatype Interval = Interval(entity: string, start: int, end: int)

  predicate Ending(p: Phase) { p.Completed? || p.Failed? || p.Cached? || p.Cancelled? }

  // ----- counting -----

  function Count<T>(s: seq<T>, p: T -> bool): nat {
    if s == [] then 0 else Count(s[..|s| - 1], p) + if p(s[|s| - 1]) then 1 else 0
  }

  lemma CountAppend<T>(s: seq<T>, x: T, p: T -> bool)
    ensures Count(s + [x], p) == Count(s, p) + if p(x) then 1 else 0
  {
    assert (s + [x])[..|s|] == s;
  }

  lemma {:induction false} CountConcat<T>(s: seq<T>, t: seq<T>, p: T -> bool)
    ensures Count(s + t, p) == Count(s, p) + Count(t, p)
  {
    if t == [] {
      assert s + t == s;
    } else {
      var last := |t| - 1;
      CountConcat(s, t[..last], p);
      assert (s + t)[..|s + t| - 1] == s + t[..last];
    }
  }

  lemma {:induction false} CountAll<T>(s: seq<T>, p: T -> bool)
    ensures (forall i :: 0 <= i < |s| ==> p(s[i])) ==> Count(s, p) == |s|
    ensures (forall i :: 0 <= i < |s| ==> !p(s[i])) ==> Count(s, p) == 0
  {
    if s != [] { CountAll(s[..|s| - 1], p); }
  }

  lemma {:induction false} CountLess<T>(s: seq<T>, p: T -> bool, q: T -> bool)
    requires forall i :: 0 <= i < |s| && p(s[i]) ==> q(s[i])
    ensures Count(s, p) <= Count(s, q)
  {
    if s != [] { CountLess(s[..|s| - 1], p, q); }
  }

  // ----- the sweep -----

  /** A start is `+1`, an end `-1`. */
  datatype Tick = Tick(ms: int, delta: int)

  /** The order of the sweep: by time, and at the same time starts before ends. */
  predicate Later(a: Tick, b: Tick) { a.ms > b.ms || (a.ms == b.ms && a.delta < b.delta) }

  ghost predicate Ordered(s: seq<Tick>) {
    forall i, j :: 0 <= i < j < |s| ==> !Later(s[i], s[j])
  }

  function Insert(s: seq<Tick>, x: Tick): seq<Tick> {
    if s == [] || !Later(s[|s| - 1], x) then s + [x] else Insert(s[..|s| - 1], x) + [s[|s| - 1]]
  }

  function Sorted(s: seq<Tick>): seq<Tick> {
    if s == [] then [] else Insert(Sorted(s[..|s| - 1]), s[|s| - 1])
  }

  lemma {:induction false} InsertCounts(s: seq<Tick>, x: Tick, p: Tick -> bool)
    ensures Count(Insert(s, x), p) == Count(s, p) + if p(x) then 1 else 0
  {
    if s == [] || !Later(s[|s| - 1], x) {
      CountAppend(s, x, p);
    } else {
      var front, last := s[..|s| - 1], s[|s| - 1];
      InsertCounts(front, x, p);
      CountAppend(Insert(front, x), last, p);
      CountAppend(front, last, p);
      assert s == front + [last];
    }
  }

  lemma {:induction false} SortedCounts(s: seq<Tick>, p: Tick -> bool)
    ensures Count(Sorted(s), p) == Count(s, p)
  {
    if s != [] {
      SortedCounts(s[..|s| - 1], p);
      InsertCounts(Sorted(s[..|s| - 1]), s[|s| - 1], p);
    }
  }

  lemma {:induction false} InsertMembers(s: seq<Tick>, x: Tick, i: nat)
    requires i < |Insert(s, x)|
    ensures Insert(s, x)[i] == x || Insert(s, x)[i] in s
  {
    if s != [] && Later(s[|s| - 1], x) && i < |Insert(s, x)| - 1 {
      InsertMembers(s[..|s| - 1], x, i);
    }
  }

  lemma {:induction false} InsertOrdered(s: seq<Tick>, x: Tick)
    requires Ordered(s)
    ensures Ordered(Insert(s, x))
  {
    if s != [] && Later(s[|s| - 1], x) {
      var last := |s| - 1;
      InsertOrdered(s[..last], x);
      var t := Insert(s[..last], x);
      forall i | 0 <= i < |t| ensures !Later(t[i], s[last]) {
        InsertMembers(s[..last], x, i);
      }
    }
  }

  lemma {:induction false} SortedOrdered(s: seq<Tick>)
    ensures Ordered(Sorted(s))
  {
    if s != [] {
      SortedOrdered(s[..|s| - 1]);
      InsertOrdered(Sorted(s[..|s| - 1]), s[|s| - 1]);
    }
  }

  function Started(t: int): Tick -> bool { (x: Tick) => x.delta == 1 && x.ms <= t }

  function Over(t: int): Tick -> bool { (x: Tick) => x.delta == -1 && x.ms < t }

  function StartsBy(s: seq<Tick>, t: int): nat {
    if s == [] then 0 else StartsBy(s[..|s| - 1], t) + if s[|s| - 1].delta == 1 && s[|s| - 1].ms <= t then 1 else 0
  }

  function EndsBefore(s: seq<Tick>, t: int): nat {
    if s == [] then 0 else EndsBefore(s[..|s| - 1], t) + if s[|s| - 1].delta == -1 && s[|s| - 1].ms < t then 1 else 0
  }

  /** Starts at or before the instant, less ends before it. */
  function Level(s: seq<Tick>, t: int): int { StartsBy(s, t) - EndsBefore(s, t) }

  lemma {:induction false} LevelCounts(s: seq<Tick>, t: int)
    ensures StartsBy(s, t) == Count(s, Started(t)) && EndsBefore(s, t) == Count(s, Over(t))
  {
    if s != [] { LevelCounts(s[..|s| - 1], t); }
  }

  function Active(s: seq<Tick>): int { if s == [] then 0 else Active(s[..|s| - 1]) + s[|s| - 1].delta }

  ghost predicate UnitSteps(s: seq<Tick>) { forall i :: 0 <= i < |s| ==> s[i].delta == 1 || s[i].delta == -1 }

  function IsStart(): Tick -> bool { (x: Tick) => x.delta == 1 }

  function IsEnd(): Tick -> bool { (x: Tick) => x.delta == -1 }

  lemma {:induction false} ActiveCounts(s: seq<Tick>)
    requires UnitSteps(s)
    ensures Active(s) == Count(s, IsStart()) - Count(s, IsEnd())
  {
    if s != [] { ActiveCounts(s[..|s| - 1]); }
  }

  /** No prefix of the sweep is above the level of the instant it has come to. */
  lemma PrefixBelowLevel(s: seq<Tick>, k: nat)
    requires Ordered(s) && UnitSteps(s) && 0 < k <= |s|
    ensures Active(s[..k]) <= Level(s, s[k - 1].ms)
  {
    var t := s[k - 1].ms;
    LevelCounts(s, t);
    var before, after := s[..k], s[k..];
    assert s == before + after;
    ActiveCounts(before);
    CountConcat(before, after, Started(t));
    CountConcat(before, after, Over(t));
    CountLess(before, IsStart(), Started(t));
    CountLess(before, Over(t), IsEnd());
    assert forall i :: 0 <= i < |after| ==> !Over(t)(after[i]) by {
      forall i | 0 <= i < |after| ensures !Over(t)(after[i]) {
        assert after[i] == s[k + i] && !Later(s[k - 1], s[k + i]);
      }
    }
    CountAll(after, Over(t));
  }

  /** Ticks that come before the ends of an instant. */
  predicate Counted(x: Tick, t: int) { x.ms < t || (x.ms == t && x.delta == 1) }

  /** Every level is reached: by the prefix of the ticks before the ends of that instant. */
  lemma {:induction false} LevelReached(s: seq<Tick>, t: int) returns (k: nat)
    requires Ordered(s) && UnitSteps(s)
    ensures k <= |s| && Active(s[..k]) == Level(s, t)
    ensures (forall i :: 0 <= i < k ==> Counted(s[i], t)) && (k < |s| ==> !Counted(s[k], t))
  {
    k := 0;
    while k < |s| && Counted(s[k], t)
      invariant 0 <= k <= |s| && forall i :: 0 <= i < k ==> Counted(s[i], t)
    {
      k := k + 1;
    }
    PrefixIsLevel(s, t, k);
  }

  /** Among ticks that come before the ends of an instant, all starts have started by then and all ends are over. */
  lemma CountedIsLevel(s: seq<Tick>, t: int)
    requires UnitSteps(s) && forall i :: 0 <= i < |s| ==> Counted(s[i], t)
    ensures Active(s) == Count(s, Started(t)) - Count(s, Over(t))
  {
    ActiveCounts(s);
    CountLess(s, IsStart(), Started(t));
    CountLess(s, Started(t), IsStart());
    CountLess(s, IsEnd(), Over(t));
    CountLess(s, Over(t), IsEnd());
  }

  lemma PrefixIsLevel(s: seq<Tick>, t: int, k: nat)
    requires Ordered(s) && UnitSteps(s) && k <= |s|
    requires (forall i :: 0 <= i < k ==> Counted(s[i], t)) && (k < |s| ==> !Counted(s[k], t))
    ensures Active(s[..k]) == Level(s, t)
  {
    LevelCounts(s, t);
    var before, after := s[..k], s[k..];
    assert s == before + after;
    CountConcat(before, after, Started(t));
    CountConcat(before, after, Over(t));
    CountedIsLevel(before, t);
    forall i | 0 <= i < |after| ensures !Started(t)(after[i]) && !Over(t)(after[i]) {
      assert after[i] == s[k + i];
      assert i > 0 ==> !Later(s[k], s[k + i]);
    }
    CountAll(after, Started(t));
    CountAll(after, Over(t));
  }

  function TickOf(r: Row): seq<Tick> {
    if !r.rollout then []
    else if r.phase.Running? then [Tick(r.ms, 1)]
    else if r.phase.Completed? || r.phase.Failed? || r.phase.Cancelled? then [Tick(r.ms, -1)]
    else []
  }

  function Ticks(log: seq<Row>): seq<Tick> {
    if log == [] then [] else Ticks(log[..|log| - 1]) + TickOf(log[|log| - 1])
  }

  lemma {:induction false} TicksAreUnit(log: seq<Row>)
    ensures UnitSteps(Ticks(log))
  {
    if log != [] { TicksAreUnit(log[..|log| - 1]); }
  }

  lemma SortedUnit(s: seq<Tick>)
    requires UnitSteps(s)
    ensures UnitSteps(Sorted(s))
  {
    var unit := (x: Tick) => x.delta == 1 || x.delta == -1;
    SortedCounts(s, unit);
    CountAll(s, unit);
    SortedLength(s);
    CountFull(Sorted(s), unit);
  }

  lemma {:induction false} SortedLength(s: seq<Tick>)
    ensures |Sorted(s)| == |s|
  {
    if s != [] {
      SortedLength(s[..|s| - 1]);
      InsertLength(Sorted(s[..|s| - 1]), s[|s| - 1]);
    }
  }

  lemma {:induction false} InsertLength(s: seq<Tick>, x: Tick)
    ensures |Insert(s, x)| == |s| + 1
  {
    if s != [] && Later(s[|s| - 1], x) { InsertLength(s[..|s| - 1], x); }
  }

  lemma {:induction false} CountFull(s: seq<Tick>, p: Tick -> bool)
    ensures Count(s, p) <= |s| && (Count(s, p) == |s| ==> forall i :: 0 <= i < |s| ==> p(s[i]))
  {
    if s != [] { CountFull(s[..|s| - 1], p); }
  }

  /** The largest level of a log at any instant, or zero: what the sweep computes, said without sorting. */
  ghost predicate IsPeak(log: seq<Row>, peak: int) {
    && peak >= 0
    && (forall t :: Level(Ticks(log), t) <= peak)
    && (peak == 0 || exists t :: Level(Ticks(log), t) == peak)
  }

  method CollectTicks(log: seq<Row>) returns (ticks: seq<Tick>)
    ensures ticks == Ticks(log)
  {
    ticks := [];
    for i := 0 to |log|
      invariant ticks == Ticks(log[..i])
    {
      assert log[..i + 1][..i] == log[..i];
      ticks := ticks + TickOf(log[i]);
    }
    assert log[..|log|] == log;
  }

  method MaxConcurrent(log: seq<Row>) returns (peak: int)
    ensures IsPeak(log, peak)
  {
    var ticks := CollectTicks(log);
    var s := Sorted(ticks);
    var active := 0;
    peak := 0;
    ghost var at := 0;
    for k := 0 to |s|
      invariant active == Active(s[..k])
      invariant forall j :: 0 <= j <= k ==> Active(s[..j]) <= peak
      invariant 0 <= at <= k && peak == Active(s[..at])
    {
      assert s[..k + 1][..k] == s[..k];
      active := active + s[k].delta;
      if active > peak { peak, at := active, k + 1; }
    }
    SweepIsPeak(log, at, peak);
  }

  /** The highest prefix of the sweep is the highest level. */
  lemma SweepIsPeak(log: seq<Row>, at: nat, peak: int)
    requires
      var s := Sorted(Ticks(log));
      at <= |s| && peak == Active(s[..at]) && forall j :: 0 <= j <= |s| ==> Active(s[..j]) <= peak
    ensures IsPeak(log, peak)
  {
    var ticks := Ticks(log);
    var s := Sorted(ticks);
    TicksAreUnit(log);
    SortedUnit(ticks);
    SortedOrdered(ticks);
    assert Active(s[..0]) == 0;
    forall t ensures Level(ticks, t) <= peak && Level(s, t) == Level(ticks, t) {
      SortedLevel(ticks, t);
      var k := LevelReached(s, t);
    }
    if peak > 0 {
      PrefixBelowLevel(s, at);
      SortedLevel(ticks, s[at - 1].ms);
      assert Level(ticks, s[at - 1].ms) == peak;
    }
  }

  lemma SortedLevel(ticks: seq<Tick>, t: int)
    ensures Level(Sorted(ticks), t) == Level(ticks, t)
  {
    LevelCounts(ticks, t);
    LevelCounts(Sorted(ticks), t);
    SortedCounts(ticks, Started(t));
    SortedCounts(ticks, Over(t));
  }

  // ----- intervals -----

  /** One pass over the log: who is running since when, and the intervals that ended. */
  datatype Pass = Pass(open: map<string, int>, closed: seq<Interval>)

  function Through(p: Pass, r: Row): Pass {
    if !r.rollout then p
    else if r.phase.Running? then p.(open := p.open[r.entity := r.ms])
    else if Ending(r.phase) && r.entity in p.open
    then Pass(p.open - {r.entity}, p.closed + [Interval(r.entity, p.open[r.entity], r.ms)])
    else p
  }

  function PassOf(log: seq<Row>): Pass {
    if log == [] then Pass(map[], []) else Through(PassOf(log[..|log| - 1]), log[|log| - 1])
  }

  /** Each rollout starts only when it is not running, ends only when it is, and not before it started. */
  predicate Fits(p: Pass, r: Row) {
    r.rollout ==>
      && (r.phase.Running? ==> r.entity !in p.open)
      && (Ending(r.phase) ==> r.entity in p.open && p.open[r.entity] <= r.ms)
  }

  predicate Alternates(log: seq<Row>) {
    log == [] || (Alternates(log[..|log| - 1]) && Fits(PassOf(log[..|log| - 1]), log[|log| - 1]))
  }

  function StartedBy(t: int): Interval -> bool { (x: Interval) => x.start <= t }

  function OverBy(t: int): Interval -> bool { (x: Interval) => x.end < t }

  function Holds(t: int): Interval -> bool { (x: Interval) => x.start <= t <= x.end }

  function OpenBy(open: map<string, int>, t: int): set<string> { set e | e in open && open[e] <= t }

  function CachedEnd(t: int): Row -> bool { (r: Row) => r.rollout && r.phase.Cached? && r.ms < t }

  function Covering(s: seq<Interval>, t: int): nat {
    if s == [] then 0 else Covering(s[..|s| - 1], t) + if s[|s| - 1].start <= t <= s[|s| - 1].end then 1 else 0
  }

  lemma {:induction false} CoveringCounts(s: seq<Interval>, t: int)
    ensures Covering(s, t) == Count(s, Holds(t))
  {
    if s != [] { CoveringCounts(s[..|s| - 1], t); }
  }

  /** How many run intervals, closed at both ends and unfinished ones without an end, hold the instant. */
  function Overlap(log: seq<Row>, t: int): nat {
    Covering(PassOf(log).closed, t) + |OpenBy(PassOf(log).open, t)|
  }

  /** What one row adds to the level, as the intervals see it. */
  function Balance(log: seq<Row>, t: int): int {
    var p := PassOf(log);
    Count(p.closed, StartedBy(t)) + |OpenBy(p.open, t)| - Count(p.closed, OverBy(t)) + Count(log, CachedEnd(t))
  }

  lemma OpenStarts(open: map<string, int>, e: string, ms: int, t: int)
    requires e !in open
    ensures |OpenBy(open[e := ms], t)| == |OpenBy(open, t)| + if ms <= t then 1 else 0
  {
    var after := OpenBy(open[e := ms], t);
    if ms <= t {
      assert after == OpenBy(open, t) + {e};
    } else {
      assert after == OpenBy(open, t);
    }
  }

  lemma OpenEnds(open: map<string, int>, e: string, t: int)
    requires e in open
    ensures |OpenBy(open - {e}, t)| == |OpenBy(open, t)| - if open[e] <= t then 1 else 0
  {
    var after := OpenBy(open - {e}, t);
    if open[e] <= t {
      assert OpenBy(open, t) == after + {e};
    } else {
      assert after == OpenBy(open, t);
    }
  }

  /** What one row adds to the level of an instant. */
  function Lifts(r: Row, t: int): int {
    if !r.rollout then 0
    else if r.phase.Running? then if r.ms <= t then 1 else 0
    else if Ending(r.phase) && !r.phase.Cached? then if r.ms < t then -1 else 0
    else 0
  }

  lemma LevelAppend(s: seq<Tick>, x: Tick, t: int)
    ensures StartsBy(s + [x], t) == StartsBy(s, t) + if x.delta == 1 && x.ms <= t then 1 else 0
    ensures EndsBefore(s + [x], t) == EndsBefore(s, t) + if x.delta == -1 && x.ms < t then 1 else 0
  {
    assert (s + [x])[..|s|] == s;
  }

  lemma RowLifts(s: seq<Tick>, r: Row, t: int)
    ensures Level(s + TickOf(r), t) == Level(s, t) + Lifts(r, t)
  {
    if TickOf(r) == [] {
      assert s + TickOf(r) == s;
    } else {
      LevelAppend(s, TickOf(r)[0], t);
      assert TickOf(r) == [TickOf(r)[0]];
    }
  }

  lemma TicksStep(log: seq<Row>, t: int)
    requires log != []
    ensures Level(Ticks(log), t) == Level(Ticks(log[..|log| - 1]), t) + Lifts(log[|log| - 1], t)
  {
    RowLifts(Ticks(log[..|log| - 1]), log[|log| - 1], t);
  }

  lemma PassStep(p: Pass, r: Row, t: int)
    requires Fits(p, r)
    ensures var q := Through(p, r);
      Count(q.closed, StartedBy(t)) + |OpenBy(q.open, t)| - Count(q.closed, OverBy(t))
      == Count(p.closed, StartedBy(t)) + |OpenBy(p.open, t)| - Count(p.closed, OverBy(t)) +
        (if !r.rollout then 0 else if r.phase.Running? then (if r.ms <= t then 1 else 0)
         else if Ending(r.phase) then (if r.ms < t then -1 else 0) else 0)
  {
    if r.rollout && r.phase.Running? {
      OpenStarts(p.open, r.entity, r.ms, t);
    } else if r.rollout && Ending(r.phase) {
      var x := Interval(r.entity, p.open[r.entity], r.ms);
      OpenEnds(p.open, r.entity, t);
      CountAppend(p.closed, x, StartedBy(t));
      CountAppend(p.closed, x, OverBy(t));
    }
  }

  lemma {:induction false} LevelIsBalance(log: seq<Row>, t: int)
    requires Alternates(log)
    ensures Level(Ticks(log), t) == Balance(log, t)
  {
    if log != [] {
      var before, r := log[..|log| - 1], log[|log| - 1];
      LevelIsBalance(before, t);
      TicksStep(log, t);
      PassStep(PassOf(before), r, t);
    } else {
      assert OpenBy(map[], t) == {};
    }
  }

  ghost predicate Forward(s: seq<Interval>) { forall i :: 0 <= i < |s| ==> s[i].start <= s[i].end }

  lemma {:induction false} ClosedForward(log: seq<Row>)
    requires Alternates(log)
    ensures Forward(PassOf(log).closed)
  {
    if log != [] { ClosedForward(log[..|log| - 1]); }
  }

  lemma {:induction false} HoldsIsDifference(s: seq<Interval>, t: int)
    requires Forward(s)
    ensures Count(s, Holds(t)) == Count(s, StartedBy(t)) - Count(s, OverBy(t))
  {
    if s != [] { HoldsIsDifference(s[..|s| - 1], t); }
  }

  /**
   The sweep against the intervals, at every instant: it counts the run intervals that hold the instant, and besides
   them every rollout that ended as cached before it, because the sweep does not take `cached` for an end.
   */
  lemma LevelIsOverlap(log: seq<Row>, t: int)
    requires Alternates(log)
    ensures Level(Ticks(log), t) == Overlap(log, t) + Count(log, CachedEnd(t))
  {
    LevelIsBalance(log, t);
    ClosedForward(log);
    HoldsIsDifference(PassOf(log).closed, t);
    CoveringCounts(PassOf(log).closed, t);
  }

  ghost predicate NoCached(log: seq<Row>) { forall i :: 0 <= i < |log| && log[i].rollout ==> !log[i].phase.Cached? }

  /** The peak of the overlaps: the largest number of run intervals that share an instant. */
  ghost predicate IsOverlapPeak(log: seq<Row>, peak: int) {
    && (forall t :: Overlap(log, t) <= peak)
    && (peak == 0 || exists t :: Overlap(log, t) == peak)
  }

  /**
   Exactly when the reported concurrency is the largest number of run intervals that share an instant: when at no
   instant the intervals there, together with the cached rollouts that ended before, are more than that.
   */
  lemma PeakIsOverlapPeakIff(log: seq<Row>, peak: int, best: int)
    requires Alternates(log) && IsPeak(log, peak) && IsOverlapPeak(log, best)
    ensures peak == best <==> forall t :: Overlap(log, t) + Count(log, CachedEnd(t)) <= best
  {
    forall t ensures Level(Ticks(log), t) == Overlap(log, t) + Count(log, CachedEnd(t)) {
      LevelIsOverlap(log, t);
    }
    assert Overlap(log, 0) <= best;
    if forall t :: Overlap(log, t) + Count(log, CachedEnd(t)) <= best {
      if peak != 0 {
        var t :| Level(Ticks(log), t) == peak;
      }
      if best != 0 {
        var t :| Overlap(log, t) == best;
        assert Level(Ticks(log), t) <= peak;
      }
    }
  }

  /**
   When no rollout is cached, the reported concurrency is the largest number of run intervals that share an instant.
   */
  lemma PeakIsOverlapPeak(log: seq<Row>, peak: int)
    requires Alternates(log) && NoCached(log) && IsPeak(log, peak)
    ensures IsOverlapPeak(log, peak)
  {
    forall t ensures Overlap(log, t) == Level(Ticks(log), t) {
      LevelIsOverlap(log, t);
      CountAll(log, CachedEnd(t));
    }
    if peak != 0 {
      var t :| Level(Ticks(log), t) == peak;
      assert Overlap(log, t) == peak;
    }
  }

  // ----- spans and wall time -----

  function Span(start: int, end: int): nat { Max(end - start, 0) }

  function SumSpans(s: seq<Interval>): nat {
    if s == [] then 0 else SumSpans(s[..|s| - 1]) + Span(s[|s| - 1].start, s[|s| - 1].end)
  }

  /** The part of the spans that lies before an instant. */
  function ClippedSum(s: seq<Interval>, t: int): nat {
    if s == [] then 0 else ClippedSum(s[..|s| - 1], t) + Span(s[|s| - 1].start, Min(s[|s| - 1].end, t))
  }

  function Inside(t: int): Interval -> bool { (x: Interval) => x.start <= t < x.end }

  lemma {:induction false} ClipStep(s: seq<Interval>, t: int)
    ensures ClippedSum(s, t + 1) == ClippedSum(s, t) + Count(s, Inside(t))
  {
    if s != [] { ClipStep(s[..|s| - 1], t); }
  }

  ghost predicate Within(s: seq<Interval>, low: int, high: int) {
    forall i :: 0 <= i < |s| ==> low <= s[i].start && s[i].end <= high
  }

  lemma {:induction false} ClipEnds(s: seq<Interval>, low: int, high: int)
    requires Within(s, low, high)
    ensures ClippedSum(s, low) == 0 && ClippedSum(s, high) == SumSpans(s)
  {
    if s != [] { ClipEnds(s[..|s| - 1], low, high); }
  }

  lemma OneMoreTimes(k: int, n: int)
    ensures (k + 1) * n == k * n + n
  {
  }

  lemma {:induction false} ClipBound(s: seq<Interval>, low: int, t: int, peak: int)
    requires low <= t && ClippedSum(s, low) == 0 && peak >= 0
    requires forall u :: Count(s, Inside(u)) <= peak
    ensures ClippedSum(s, t) <= (t - low) * peak
    decreases t - low
  {
    if t > low {
      ClipBound(s, low, t - 1, peak);
      ClipStep(s, t - 1);
      OneMoreTimes(t - 1 - low, peak);
    }
  }

  ghost predicate Timed(log: seq<Row>, low: int, high: int) { forall i :: 0 <= i < |log| ==> low <= log[i].ms <= high }

  lemma {:induction false} PassWithin(log: seq<Row>, low: int, high: int)
    requires Timed(log, low, high)
    ensures Within(PassOf(log).closed, low, high)
    ensures forall e :: e in PassOf(log).open ==> low <= PassOf(log).open[e] <= high
  {
    if log != [] { PassWithin(log[..|log| - 1], low, high); }
  }

  /**
   The rollouts cannot have run longer in all than the wall time times the reported concurrency. This one holds for
   every log with alternating rollouts, cached ones too, since the sweep only ever counts too many.
   */
  lemma SpansWithinWall(log: seq<Row>, peak: int, low: int, high: int)
    requires Alternates(log) && IsPeak(log, peak) && Timed(log, low, high) && low <= high
    ensures SumSpans(PassOf(log).closed) <= (high - low) * peak
  {
    var s := PassOf(log).closed;
    PassWithin(log, low, high);
    ClipEnds(s, low, high);
    forall u ensures Count(s, Inside(u)) <= peak {
      LevelIsOverlap(log, u);
      CoveringCounts(s, u);
      CountLess(s, Inside(u), Holds(u));
    }
    ClipBound(s, low, high, peak);
  }

  const A0 := Row(true, "a", Running, 0)

  const A1 := Row(true, "a", Cached, 1)

  const B5 := Row(true, "b", Running, 5)

  lemma PassOfThree()
    ensures PassOf([A0] + [A1] + [B5]) == Pass(map["b" := 5], [Interval("a", 0, 1)]) && Alternates([A0] + [A1] + [B5])
  {
    var one, two, three := [A0], [A0] + [A1], [A0] + [A1] + [B5];
    assert one[..0] == [] && two[..1] == one && three[..2] == two;
    assert PassOf(one) == Pass(map["a" := 0], []);
    assert map["a" := 0] - {"a"} == map[];
    assert PassOf(two) == Pass(map[], [Interval("a", 0, 1)]);
    assert Alternates(one[..0]);
    assert Alternates(two[..1]);
    assert Alternates(three[..2]);
  }

  lemma OneInterval(t: int)
    ensures Covering([Interval("a", 0, 1)], t) == if 0 <= t <= 1 then 1 else 0
  {
    var one := [Interval("a", 0, 1)];
    assert one[..0] == [];
  }

  /**
   A cached rollout is counted as running for ever: two rollouts that never ran at once are reported as two at once,
   and no instant lies in more than one of their intervals.
   */
  lemma CachedInflatesPeak()
    ensures
      var log := [A0] + [A1] + [B5];
      Alternates(log) && Level(Ticks(log), 5) == 2 && forall t :: Overlap(log, t) <= 1
  {
    var log := [A0] + [A1] + [B5];
    PassOfThree();
    var p := PassOf(log);
    forall t ensures Overlap(log, t) <= 1 && (t == 5 ==> Overlap(log, t) == 1) {
      OneInterval(t);
      OpenStarts(map[], "b", 5, t);
      assert map[]["b" := 5] == p.open && OpenBy(map[], t) == {};
    }
    CountAppend([], A0, CachedEnd(5));
    assert [] + [A0] == [A0];
    CountAppend([A0], A1, CachedEnd(5));
    CountAppend([A0] + [A1], B5, CachedEnd(5));
    LevelIsOverlap(log, 5);
  }

  // ----- spans entity by entity -----

  function RowsOf(log: seq<Row>, e: string): seq<Row> {
    if log == [] then []
    else
      var r := log[|log| - 1];
      RowsOf(log[..|log| - 1], e) + if r.rollout && r.entity == e then [r] else []
  }

  /** The scan of one entity's rows: when it last started, if it is running, and the sum of its spans. */
  function Scan(rows: seq<Row>): (Option<int>, nat) {
    if rows == [] then (None, 0) else ScanRow(Scan(rows[..|rows| - 1]), rows[|rows| - 1])
  }

  function SumOf(s: seq<Interval>, e: string): nat {
    if s == [] then 0
    else SumOf(s[..|s| - 1], e) + if s[|s| - 1].entity == e then Span(s[|s| - 1].start, s[|s| - 1].end) else 0
  }

  lemma SumOfAppend(s: seq<Interval>, x: Interval, e: string)
    ensures SumOf(s + [x], e) == SumOf(s, e) + if x.entity == e then Span(x.start, x.end) else 0
  {
    assert (s + [x])[..|s|] == s;
  }

  /** What the pass knows of one entity. */
  function Known(p: Pass, e: string): (Option<int>, nat) {
    (if e in p.open then Some(p.open[e]) else None, SumOf(p.closed, e))
  }

  function ScanRow(known: (Option<int>, nat), r: Row): (Option<int>, nat) {
    if r.phase.Running? then (Some(r.ms), known.1)
    else if known.0.Some? && Ending(r.phase) then (None, known.1 + Span(known.0.value, r.ms))
    else known
  }

  lemma ThroughKnown(p: Pass, r: Row, e: string)
    ensures Known(Through(p, r), e) == if r.rollout && r.entity == e then ScanRow(Known(p, e), r) else Known(p, e)
  {
    if r.rollout && !r.phase.Running? && Ending(r.phase) && r.entity in p.open {
      SumOfAppend(p.closed, Interval(r.entity, p.open[r.entity], r.ms), e);
    }
  }

  /** Scanning one entity's rows gives what the single pass says of that entity. */
  lemma {:induction false} ScanIsPass(log: seq<Row>, e: string)
    ensures Scan(RowsOf(log, e)) == Known(PassOf(log), e)
  {
    if log != [] {
      var before, r := log[..|log| - 1], log[|log| - 1];
      ScanIsPass(before, e);
      ThroughKnown(PassOf(before), r, e);
      var rows := RowsOf(before, e);
      if r.rollout && r.entity == e {
        assert RowsOf(log, e)[..|rows|] == rows;
      } else {
        assert RowsOf(log, e) == rows;
      }
    }
  }

  /** The entities in order of first appearance. */
  function Entities(log: seq<Row>): seq<string> {
    if log == [] then []
    else
      var before, r := Entities(log[..|log| - 1]), log[|log| - 1];
      if r.rollout && r.entity !in before then before + [r.entity] else before
  }

  function SumByEntity(log: seq<Row>, entities: seq<string>): nat {
    if entities == [] then 0
    else SumByEntity(log, entities[..|entities| - 1]) + Scan(RowsOf(log, entities[|entities| - 1])).1
  }

  function SumOfMany(s: seq<Interval>, entities: seq<string>): nat {
    if entities == [] then 0 else SumOfMany(s, entities[..|entities| - 1]) + SumOf(s, entities[|entities| - 1])
  }

  lemma {:induction false} ByEntityIsMany(log: seq<Row>, entities: seq<string>)
    ensures SumByEntity(log, entities) == SumOfMany(PassOf(log).closed, entities)
  {
    if entities != [] {
      ByEntityIsMany(log, entities[..|entities| - 1]);
      ScanIsPass(log, entities[|entities| - 1]);
    }
  }

  lemma {:induction false} ManyAppend(s: seq<Interval>, x: Interval, entities: seq<string>)
    requires Distinct(entities)
    ensures SumOfMany(s + [x], entities) == SumOfMany(s, entities)
      + if x.entity in entities then Span(x.start, x.end) else 0
  {
    if entities != [] {
      var last := |entities| - 1;
      ManyAppend(s, x, entities[..last]);
      SumOfAppend(s, x, entities[last]);
      assert x.entity in entities <==> x.entity in entities[..last] || x.entity == entities[last];
      assert x.entity == entities[last] ==> x.entity !in entities[..last];
    }
  }

  lemma {:induction false} ManyIsAll(s: seq<Interval>, entities: seq<string>)
    requires Distinct(entities) && forall i :: 0 <= i < |s| ==> s[i].entity in entities
    ensures SumOfMany(s, entities) == SumSpans(s)
  {
    if s == [] {
      ManyOfNone(entities);
    } else {
      var last := |s| - 1;
      ManyIsAll(s[..last], entities);
      ManyAppend(s[..last], s[last], entities);
      assert s == s[..last] + [s[last]];
    }
  }

  lemma {:induction false} ManyOfNone(entities: seq<string>)
    ensures SumOfMany([], entities) == 0
  {
    if entities != [] { ManyOfNone(entities[..|entities| - 1]); }
  }

  lemma {:induction false} EntitiesCover(log: seq<Row>)
    ensures var p, entities := PassOf(log), Entities(log);
      && Distinct(entities)
      && (forall i :: 0 <= i < |p.closed| ==> p.closed[i].entity in entities)
      && (forall e :: e in p.open ==> e in entities)
  {
    if log != [] {
      EntitiesCover(log[..|log| - 1]);
    }
  }

  /** Grouping the rows by rollout first, as the statistic does, gives the spans of the single pass, for every log. */
  lemma GroupedSpansAreSpans(log: seq<Row>)
    ensures SumByEntity(log, Entities(log)) == SumSpans(PassOf(log).closed)
  {
    EntitiesCover(log);
    ByEntityIsMany(log, Entities(log));
    ManyIsAll(PassOf(log).closed, Entities(log));
  }

  /**
   The two reported numbers together: the time spent in rollouts, in milliseconds, is at most the wall time times
   the concurrency, where the wall time is that between the first and the last row of any kind.
   */
  method RunTimes(log: seq<Row>) returns (wall: int, total: nat, peak: int)
    requires log != []
    ensures exists i, j :: 0 <= i < |log| && 0 <= j < |log| && wall == log[j].ms - log[i].ms
    ensures forall i, j :: 0 <= i < |log| && 0 <= j < |log| ==> log[j].ms - log[i].ms <= wall
    ensures total == SumSpans(PassOf(log).closed) && IsPeak(log, peak)
    ensures Alternates(log) ==> total <= wall * peak
    ensures Alternates(log) && NoCached(log) ==> IsOverlapPeak(log, peak)
  {
    var low, high := log[0].ms, log[0].ms;
    ghost var first, last := 0, 0;
    for k := 1 to |log|
      invariant 0 <= first < k && 0 <= last < k && low == log[first].ms && high == log[last].ms
      invariant forall i :: 0 <= i < k ==> low <= log[i].ms <= high
    {
      if log[k].ms < low { low, first := log[k].ms, k; }
      if log[k].ms > high { high, last := log[k].ms, k; }
    }
    wall := high - low;
    total := RolloutSpans(log);
    peak := MaxConcurrent(log);
    if Alternates(log) {
      SpansWithinWall(log, peak, low, high);
      if NoCached(log) { PeakIsOverlapPeak(log, peak); }
    }
  }

  /** The spans of one rollout, from its own rows. */
  method EntitySpans(rows: seq<Row>) returns (sum: nat)
    ensures sum == Scan(rows).1
  {
    var start := None;
    sum := 0;
    for i := 0 to |rows|
      invariant (start, sum) == Scan(rows[..i])
    {
      assert rows[..i + 1][..i] == rows[..i];
      if rows[i].phase.Running? {
        start := Some(rows[i].ms);
      } else if start.Some? && Ending(rows[i].phase) {
        start, sum := None, sum + Span(start.value, rows[i].ms);
      }
    }
    assert rows[..|rows|] == rows;
  }

  method RolloutSpans(log: seq<Row>) returns (total: nat)
    ensures total == SumSpans(PassOf(log).closed)
  {
    var entities := Entities(log);
    total := 0;
    for k := 0 to |entities|
      invariant total == SumByEntity(log, entities[..k])
    {
      var sum := EntitySpans(RowsOf(log, entities[k]));
      assert entities[..k + 1][..k] == entities[..k];
      total := total + sum;
    }
    assert entities[..|entities|] == entities;
    GroupedSpansAreSpans(log);
  }
}
