/**
 The screening scheduler: every task of a list is sampled several times, a bounded number of attempts at once. An
 attempt is bound at the gateway, submitted, polled until it ends, and closed. What the gateway, the container and
 the disk answer is an arbitrary function of how many actions came before, so that every environment is covered.
 */
module Screening {
  import opened Basics
  import opened Division

  /** `revisions` is how many policy revisions the selector names, `resolved` the tasks the container knows. */
  datatype Config = Config(
    ids: seq<string>, samples: int, concurrency: int, pollLimit: int, knownMode: bool, revisions: nat,
      resolved: set<string>)

  datatype Request = Request(number: nat, task: string, sample: nat)

  datatype Slot = Slot(id: string, request: Request, seen: nat)

  datatype Action =
    | Bound(request: Request)
    | Submitted(request: Request, id: string)
    | Polled(request: Request)
    | Closed(request: Request)
    | Dropped(id: string)
    | Terminated(id: string)
    | Written(completed: nat)

  datatype Poll = Raised | Unfinished | Ended(failed: bool)

  /**
   Answers by the number of actions before the call; `finish` is finalising, declaring, reading and validating the
   evidence.
   */
  datatype World = World(
    bind: nat -> bool, submit: nat -> Option<string>, poll: nat -> Poll, finish: nat -> bool, close: nat -> bool,
      write: nat -> bool)

  /** `lost` lists the attempts whose place was taken by a later one that was given the same rollout id. */
  datatype Desk = Desk(pending: seq<Request>, active: seq<Slot>, attempts: seq<Request>, lost: seq<Request>,
    log: seq<Action>)

  datatype Outcome = Refused | Aborted | Screened(attempts: seq<Request>)

  // ----- the attempts to make -----

  function PairAt(ids: seq<string>, samples: nat, k: nat): Request
    requires samples > 0 && k / samples < |ids|
  {
    Request(k / samples, ids[k / samples], k % samples)
  }

  /** Every sample of the first task, then every sample of the second, and so on. */
  function Pairs(ids: seq<string>, samples: nat): (s: seq<Request>)
    requires samples > 0
  {
    seq(|ids| * samples, k requires 0 <= k < |ids| * samples => DivBelow(|ids|, samples, k); PairAt(ids, samples, k))
  }

  lemma PairsDistinct(ids: seq<string>, samples: nat)
    requires samples > 0
    ensures Distinct(Pairs(ids, samples))
  {
    var s := Pairs(ids, samples);
    forall i, j | 0 <= i < j < |s| ensures s[i] != s[j] {
      DivBelow(|ids|, samples, i);
      DivBelow(|ids|, samples, j);
      DivOrder(i, j, samples);
    }
  }

  // ----- what the log says -----

  /** Requests bound and not closed. */
  function Open(log: seq<Action>): set<Request> {
    if log == [] then {}
    else
      var before, a := Open(log[..|log| - 1]), log[|log| - 1];
      if a.Bound? then before + {a.request} else if a.Closed? then before - {a.request} else before
  }

  /** Rollout ids submitted and not dropped. */
  function Live(log: seq<Action>): set<string> {
    if log == [] then {}
    else
      var before, a := Live(log[..|log| - 1]), log[|log| - 1];
      if a.Submitted? then before + {a.id} else if a.Dropped? then before - {a.id} else before
  }

  function Polls(log: seq<Action>, q: Request): nat {
    if log == [] then 0 else Polls(log[..|log| - 1], q) + if log[|log| - 1] == Polled(q) then 1 else 0
  }

  /** The most requests that were ever open at once. */
  function Peak(log: seq<Action>): nat {
    if log == [] then 0 else Max(Peak(log[..|log| - 1]), |Open(log)|)
  }

  /** How often a submission returned an id that was still in use. */
  function Collisions(log: seq<Action>): nat {
    if log == [] then 0
    else
      var before, a := log[..|log| - 1], log[|log| - 1];
      Collisions(before) + if a.Submitted? && a.id in Live(before) then 1 else 0
  }

  /** How many attempts have come to their end. */
  function Drops(log: seq<Action>): nat {
    if log == [] then 0 else Drops(log[..|log| - 1]) + if log[|log| - 1].Dropped? then 1 else 0
  }

  /** The number of attempts in the progress file. */
  function Told(log: seq<Action>): nat {
    if log == [] then 0
    else if log[|log| - 1].Written? then log[|log| - 1].completed else Told(log[..|log| - 1])
  }

  lemma Progress(log: seq<Action>, a: Action)
    ensures Drops(log + [a]) == Drops(log) + if a.Dropped? then 1 else 0
    ensures Told(log + [a]) == if a.Written? then a.completed else Told(log)
  {
    assert (log + [a])[..|log|] == log;
  }

  lemma Logged(log: seq<Action>, a: Action)
    ensures Open(log + [a]) ==
      if a.Bound? then Open(log) + {a.request} else if a.Closed? then Open(log) - {a.request} else Open(log)
    ensures Live(log + [a]) ==
      if a.Submitted? then Live(log) + {a.id} else if a.Dropped? then Live(log) - {a.id} else Live(log)
    ensures forall q :: Polls(log + [a], q) == Polls(log, q) + if a == Polled(q) then 1 else 0
    ensures Peak(log + [a]) == Max(Peak(log), |Open(log + [a])|)
    ensures Collisions(log + [a]) == Collisions(log) + if a.Submitted? && a.id in Live(log) then 1 else 0
  {
    assert (log + [a])[..|log|] == log;
  }

  // ----- the invariant -----

  function Requests(active: seq<Slot>): seq<Request> {
    seq(|active|, k requires 0 <= k < |active| => active[k].request)
  }

  function Ids(active: seq<Slot>): set<string> { set k | 0 <= k < |active| :: active[k].id }

  function Elements(s: seq<Request>): set<Request> { set k | 0 <= k < |s| :: s[k] }

  function Limit(c: Config): nat { Max(1, c.pollLimit) }

  predicate Accepted(c: Config) {
    && c.samples >= 2 && c.concurrency >= 1 && c.knownMode && c.revisions == 1
    && forall k :: 0 <= k < |c.ids| ==> c.ids[k] in c.resolved
  }

  /** What is not pending was started; it is what was recorded, what is active and what was lost, each once. */
  ghost predicate Divided(pairs: seq<Request>, pending: seq<Request>, attempts: seq<Request>, active: seq<Request>,
      lost: seq<Request>)
  {
    && |pending| <= |pairs|
    && pending == pairs[|pairs| - |pending|..]
    && multiset(attempts) + multiset(active) + multiset(lost) == multiset(pairs[..|pairs| - |pending|])
  }

  ghost predicate Partition(c: Config, d: Desk)
    requires Accepted(c)
  {
    Divided(Pairs(c.ids, c.samples), d.pending, d.attempts, Requests(d.active), d.lost)
  }

  ghost predicate SlotsOk(c: Config, active: seq<Slot>, log: seq<Action>) {
    && |active| <= c.concurrency
    && (forall i, j :: 0 <= i < j < |active| ==> active[i].id != active[j].id)
    && Live(log) == Ids(active)
    && (forall i :: 0 <= i < |active| ==> Polls(log, active[i].request) == active[i].seen < Limit(c))
  }

  ghost predicate LogOk(c: Config, d: Desk) {
    && Open(d.log) == Elements(Requests(d.active)) + Elements(d.lost)
    && (forall q :: Polls(d.log, q) <= Limit(c))
    && (forall q :: q in d.pending ==> Polls(d.log, q) == 0)
    && Peak(d.log) <= c.concurrency + |d.lost|
    && Collisions(d.log) == |d.lost|
  }

  ghost predicate Inv(c: Config, d: Desk) {
    Accepted(c) && Partition(c, d) && SlotsOk(c, d.active, d.log) && LogOk(c, d)
  }

  // ----- distinctness -----

  lemma {:induction false} CountedOnce(s: seq<Request>)
    requires Distinct(s)
    ensures forall q :: multiset(s)[q] <= 1
  {
    if s != [] {
      var last := |s| - 1;
      CountedOnce(s[..last]);
      assert s == s[..last] + [s[last]];
      assert s[last] !in s[..last];
    }
  }

  lemma CountedTwice(s: seq<Request>, i: nat, j: nat)
    requires i < j < |s| && s[i] == s[j]
    ensures multiset(s)[s[i]] >= 2
  {
    assert s == s[..j] + [s[j]] + s[j + 1..];
    assert s[..j][i] == s[i];
    assert s[i] in multiset(s[..j]);
  }

  /** No request is in two places. */
  ghost predicate Apart(d: Desk) {
    && Distinct(Requests(d.active))
    && (forall q :: q in Requests(d.active) ==> q !in d.lost && q !in d.attempts)
    && (forall q :: q in d.pending ==> q !in Requests(d.active) && q !in d.lost)
    && Distinct(d.pending)
  }

  lemma PartsApart(a: seq<Request>, b: seq<Request>, l: seq<Request>, s: seq<Request>)
    requires Distinct(s) && multiset(a) + multiset(b) + multiset(l) == multiset(s)
    ensures Distinct(b) && (forall q :: q in b ==> q !in l && q !in a) && (forall q :: q !in s ==> q !in b && q !in l)
  {
    CountedOnce(s);
    forall q ensures multiset(a)[q] + multiset(b)[q] + multiset(l)[q] == multiset(s)[q] <= 1 {
    }
    forall i, j | 0 <= i < j < |b| ensures b[i] != b[j] {
      if b[i] == b[j] {
        CountedTwice(b, i, j);
      }
    }
    forall q | q in b ensures q !in l && q !in a {
      assert q in multiset(b);
    }
    forall q | q !in s ensures q !in b && q !in l {
      assert multiset(s)[q] == 0;
    }
  }

  lemma PartitionApart(c: Config, d: Desk)
    requires Accepted(c) && Partition(c, d)
    ensures Apart(d)
  {
    var pairs := Pairs(c.ids, c.samples);
    var k := |pairs| - |d.pending|;
    PairsDistinct(c.ids, c.samples);
    PartsApart(d.attempts, Requests(d.active), d.lost, pairs[..k]);
    forall q | q in d.pending ensures q !in pairs[..k] {
    }
  }

  lemma {:induction false} FewElements(s: seq<Request>)
    ensures |Elements(s)| <= |s|
  {
    if s != [] {
      var last := |s| - 1;
      FewElements(s[..last]);
      assert Elements(s) == Elements(s[..last]) + {s[last]};
    }
  }

  lemma OpenIsFew(c: Config, d: Desk)
    requires Inv(c, d)
    ensures |Open(d.log)| <= |d.active| + |d.lost|
  {
    FewElements(Requests(d.active));
    FewElements(d.lost);
  }

  // ----- steps -----

  /** What the cleanup after an exception needs: only active requests, the lost ones and nothing else may be open. */
  ghost predicate Abortable(c: Config, active: seq<Slot>, lost: seq<Request>, log: seq<Action>) {
    && Elements(lost) <= Open(log) <= Elements(Requests(active)) + Elements(lost)
    && (forall q :: q in Requests(active) ==> q !in lost)
    && Bounded(c, lost, log)
  }

  /** The bounds that hold of every log. */
  ghost predicate Bounded(c: Config, lost: seq<Request>, log: seq<Action>) {
    && (forall q :: Polls(log, q) <= Limit(c))
    && Peak(log) <= c.concurrency + |lost|
    && Collisions(log) == |lost|
  }

  lemma InvAbortable(c: Config, d: Desk)
    requires Inv(c, d)
    ensures Abortable(c, d.active, d.lost, d.log)
  {
    PartitionApart(c, d);
  }

  /** An attempt is bound while there is room for it. */
  lemma BindStep(c: Config, d: Desk)
    requires Inv(c, d) && d.pending != [] && |d.active| < c.concurrency
    ensures var q, log := d.pending[0], d.log + [Bound(d.pending[0])];
      && Open(log) == Open(d.log) + {q} && q !in Open(d.log)
      && Live(log) == Live(d.log) && (forall r :: Polls(log, r) == Polls(d.log, r))
      && Bounded(c, d.lost, log)
  {
    PartitionApart(c, d);
    OpenIsFew(c, d);
    Logged(d.log, Bound(d.pending[0]));
    assert d.pending[0] in d.pending;
  }

  /** A submission that raises closes its own binding before the exception goes on. */
  lemma SubmitFails(c: Config, d: Desk)
    requires Inv(c, d) && d.pending != [] && |d.active| < c.concurrency
    ensures Abortable(c, d.active, d.lost, d.log + [Bound(d.pending[0])] + [Closed(d.pending[0])])
  {
    var q := d.pending[0];
    BindStep(c, d);
    InvAbortable(c, d);
    OpenIsFew(c, d);
    Logged(d.log + [Bound(q)], Closed(q));
    assert Open(d.log) + {q} - {q} == Open(d.log);
  }

  /** Put an attempt under its rollout id; an attempt that is already there is lost. */
  function Admitted(d: Desk, id: string): Desk
    requires d.pending != []
  {
    var q := d.pending[0];
    var log := d.log + [Bound(q)] + [Submitted(q, id)];
    if id in Ids(d.active) then
      var p := Position(d.active, id);
      Desk(d.pending[1..], d.active[p := Slot(id, q, 0)], d.attempts, d.lost + [d.active[p].request], log)
    else Desk(d.pending[1..], d.active + [Slot(id, q, 0)], d.attempts, d.lost, log)
  }

  function Position(active: seq<Slot>, id: string): (p: nat)
    requires id in Ids(active)
    ensures p < |active| && active[p].id == id
  {
    if active[|active| - 1].id == id then |active| - 1 else Position(active[..|active| - 1], id)
  }

  lemma MultisetReplace(b: seq<Request>, p: nat, q: Request)
    requires p < |b|
    ensures multiset(b[p := q]) + multiset{b[p]} == multiset(b) + multiset{q}
  {
    assert b == b[..p] + [b[p]] + b[p + 1..];
    assert b[p := q] == b[..p] + [q] + b[p + 1..];
  }

  /** The next pair moves from what is pending to what was started. */
  lemma NextPair(pairs: seq<Request>, pending: seq<Request>)
    requires 0 < |pending| <= |pairs| && pending == pairs[|pairs| - |pending|..]
    ensures var k := |pairs| - |pending|;
      pending[1..] == pairs[k + 1..] && multiset(pairs[..k + 1]) == multiset(pairs[..k]) + multiset{pending[0]}
  {
    var k := |pairs| - |pending|;
    assert pairs[..k + 1] == pairs[..k] + [pending[0]];
  }

  lemma DividedNext(pairs: seq<Request>, pending: seq<Request>, attempts: seq<Request>, active: seq<Request>,
      lost: seq<Request>,
                    after: seq<Request>, gone: seq<Request>)
    requires Divided(pairs, pending, attempts, active, lost) && pending != []
    requires multiset(after) + multiset(gone) == multiset(active) + multiset(lost) + multiset{pending[0]}
    ensures Divided(pairs, pending[1..], attempts, after, gone)
  {
    NextPair(pairs, pending);
    assert multiset(attempts) + multiset(after) + multiset(gone)
      == multiset(attempts) + (multiset(after) + multiset(gone));
  }

  lemma AdmitPartition(c: Config, d: Desk, id: string)
    requires Accepted(c) && Partition(c, d) && d.pending != []
    ensures Partition(c, Admitted(d, id))
  {
    var next := Admitted(d, id);
    AdmitParts(d, id);
    DividedNext(Pairs(c.ids, c.samples), d.pending, d.attempts, Requests(d.active), d.lost, Requests(next.active),
      next.lost);
  }

  lemma AdmitParts(d: Desk, id: string)
    requires d.pending != []
    ensures var next := Admitted(d, id);
      multiset(Requests(next.active)) + multiset(next.lost) == multiset(Requests(d.active)) + multiset(d.lost)
        + multiset{d.pending[0]}
  {
    var q, next := d.pending[0], Admitted(d, id);
    if id in Ids(d.active) {
      var p := Position(d.active, id);
      assert Requests(next.active) == Requests(d.active)[p := q];
      MultisetReplace(Requests(d.active), p, q);
    } else {
      assert Requests(next.active) == Requests(d.active) + [q];
    }
  }

  lemma IdsAppend(active: seq<Slot>, x: Slot)
    ensures Ids(active + [x]) == Ids(active) + {x.id}
  {
    assert (active + [x])[|active|] == x;
    forall k | 0 <= k < |active| ensures active[k].id in Ids(active + [x]) {
      assert (active + [x])[k] == active[k];
    }
  }

  lemma IdsReplace(active: seq<Slot>, p: nat, x: Slot)
    requires p < |active| && active[p].id == x.id
    ensures Ids(active[p := x]) == Ids(active)
  {
    var after := active[p := x];
    forall k | 0 <= k < |active| ensures after[k].id in Ids(active) && active[k].id in Ids(after) {
      assert after[k].id == active[k].id;
    }
  }

  /** A new slot with no polls so far, at the end or in the place of the one with its id. */
  lemma SlotAdded(c: Config, active: seq<Slot>, log: seq<Action>, after: seq<Action>, x: Slot)
    requires SlotsOk(c, active, log) && |active| < c.concurrency && x.seen == 0 && Polls(log, x.request) == 0
    requires Live(after) == Live(log) + {x.id} && forall r :: Polls(after, r) == Polls(log, r)
    ensures x.id !in Ids(active) ==> SlotsOk(c, active + [x], after)
    ensures x.id in Ids(active) ==> SlotsOk(c, active[Position(active, x.id) := x], after)
  {
    if x.id in Ids(active) {
      IdsReplace(active, Position(active, x.id), x);
    } else {
      IdsAppend(active, x);
      forall i | 0 <= i < |active| ensures active[i].id != x.id {
        assert active[i].id in Ids(active);
      }
    }
  }

  lemma AdmitSlots(c: Config, d: Desk, id: string)
    requires Inv(c, d) && d.pending != [] && |d.active| < c.concurrency
    ensures SlotsOk(c, Admitted(d, id).active, Admitted(d, id).log)
  {
    var q := d.pending[0];
    assert q in d.pending;
    BindStep(c, d);
    Logged(d.log + [Bound(q)], Submitted(q, id));
    SlotAdded(c, d.active, d.log, Admitted(d, id).log, Slot(id, q, 0));
  }

  lemma ElementsAppend(s: seq<Request>, q: Request)
    ensures Elements(s + [q]) == Elements(s) + {q}
  {
    assert (s + [q])[|s|] == q;
    forall k | 0 <= k < |s| ensures s[k] in Elements(s + [q]) {
      assert (s + [q])[k] == s[k];
    }
  }

  lemma ElementsReplace(s: seq<Request>, p: nat, q: Request)
    requires p < |s|
    ensures Elements(s[p := q]) + {s[p]} == Elements(s) + {q}
  {
    var t := s[p := q];
    assert t[p] == q;
    forall k | 0 <= k < |s| && k != p ensures s[k] in Elements(t) && t[k] in Elements(s) {
      assert t[k] == s[k];
    }
  }

  lemma AdmitElements(d: Desk, id: string)
    requires d.pending != []
    ensures var next := Admitted(d, id);
      Elements(Requests(next.active)) + Elements(next.lost) == Elements(Requests(d.active)) + Elements(d.lost)
        + {d.pending[0]}
  {
    var q, next := d.pending[0], Admitted(d, id);
    if id in Ids(d.active) {
      var p := Position(d.active, id);
      assert Requests(next.active) == Requests(d.active)[p := q];
      ElementsReplace(Requests(d.active), p, q);
      ElementsAppend(d.lost, d.active[p].request);
    } else {
      assert Requests(next.active) == Requests(d.active) + [q];
      ElementsAppend(Requests(d.active), q);
    }
  }

  lemma AdmitLog(c: Config, d: Desk, id: string)
    requires Inv(c, d) && d.pending != [] && |d.active| < c.concurrency
    ensures LogOk(c, Admitted(d, id))
  {
    var q, next := d.pending[0], Admitted(d, id);
    var log := d.log + [Bound(q)];
    BindStep(c, d);
    Logged(log, Submitted(q, id));
    PeakHolds(log);
    AdmitElements(d, id);
    assert forall r :: r in next.pending ==> r in d.pending;
  }

  /** The peak is at least what is open now. */
  lemma PeakHolds(log: seq<Action>)
    ensures |Open(log)| <= Peak(log)
  {
  }

  lemma AdmitKeeps(c: Config, d: Desk, id: string)
    requires Inv(c, d) && d.pending != [] && |d.active| < c.concurrency
    ensures Inv(c, Admitted(d, id))
  {
    AdmitPartition(c, d, id);
    AdmitSlots(c, d, id);
    AdmitLog(c, d, id);
  }

  /** A poll that found the attempt unfinished. */
  function Counted(d: Desk, pos: nat): Desk
    requires pos < |d.active|
  {
    var slot := d.active[pos];
    d.(active := d.active[pos := slot.(seen := slot.seen + 1)], log := d.log + [Polled(slot.request)])
  }

  function Without(active: seq<Slot>, pos: nat): seq<Slot>
    requires pos < |active|
  {
    active[..pos] + active[pos + 1..]
  }

  /** An attempt that ended well: recorded, closed and dropped. */
  function Recorded(d: Desk, pos: nat): Desk
    requires pos < |d.active|
  {
    var Slot(id, q, _) := d.active[pos];
    Desk(d.pending, Without(d.active, pos), d.attempts + [q], d.lost, d.log + [Polled(q)] + [Closed(q)] + [Dropped(id)])
  }

  lemma PollAbortable(c: Config, d: Desk, pos: nat)
    requires Inv(c, d) && pos < |d.active|
    ensures var q := d.active[pos].request;
      && Abortable(c, d.active, d.lost, d.log + [Polled(q)])
      && Abortable(c, d.active, d.lost, d.log + [Polled(q)] + [Closed(q)])
  {
    var q := d.active[pos].request;
    InvAbortable(c, d);
    PeakHolds(d.log);
    Logged(d.log, Polled(q));
    Logged(d.log + [Polled(q)], Closed(q));
    ActiveNotLost(c, d, pos);
    SmallerOpen(d.log, q);
  }

  lemma ActiveNotLost(c: Config, d: Desk, pos: nat)
    requires Inv(c, d) && pos < |d.active|
    ensures d.active[pos].request !in Elements(d.lost)
  {
    PartitionApart(c, d);
    assert d.active[pos].request == Requests(d.active)[pos];
    assert d.active[pos].request in Requests(d.active);
  }

  lemma SmallerOpen(log: seq<Action>, q: Request)
    ensures |Open(log) - {q}| <= |Open(log)|
  {
    if q in Open(log) {
      assert |Open(log) - {q}| == |Open(log)| - 1;
    } else {
      assert Open(log) - {q} == Open(log);
    }
  }

  lemma CountSlots(c: Config, active: seq<Slot>, log: seq<Action>, pos: nat)
    requires SlotsOk(c, active, log) && pos < |active| && active[pos].seen + 1 < Limit(c) && Distinct(Requests(active))
    ensures SlotsOk(c, active[pos := active[pos].(seen := active[pos].seen + 1)], log + [Polled(active[pos].request)])
  {
    var x := active[pos].(seen := active[pos].seen + 1);
    var after, q := active[pos := x], active[pos].request;
    Logged(log, Polled(q));
    IdsReplace(active, pos, x);
    forall i | 0 <= i < |after| && i != pos ensures Polls(log + [Polled(q)], after[i].request) == after[i].seen {
      assert after[i] == active[i] && Requests(active)[i] != Requests(active)[pos];
    }
  }

  lemma PendingUntouched(c: Config, d: Desk, pos: nat)
    requires Inv(c, d) && pos < |d.active|
    ensures d.active[pos].request !in d.pending
  {
    PartitionApart(c, d);
    assert Requests(d.active)[pos] == d.active[pos].request;
  }

  lemma CountKeeps(c: Config, d: Desk, pos: nat)
    requires Inv(c, d) && pos < |d.active| && d.active[pos].seen + 1 < c.pollLimit
    ensures Inv(c, Counted(d, pos))
  {
    var next, q := Counted(d, pos), d.active[pos].request;
    PartitionApart(c, d);
    CountSlots(c, d.active, d.log, pos);
    assert Requests(next.active) == Requests(d.active);
    PendingUntouched(c, d, pos);
    Logged(d.log, Polled(q));
    PeakHolds(d.log);
  }

  lemma IdsWithout(active: seq<Slot>, pos: nat)
    requires pos < |active| && forall i, j :: 0 <= i < j < |active| ==> active[i].id != active[j].id
    ensures Ids(Without(active, pos)) == Ids(active) - {active[pos].id}
  {
    var after := Without(active, pos);
    forall k | 0 <= k < |active| && k != pos ensures active[k].id in Ids(after) {
      var at := if k < pos then k else k - 1;
      assert after[at] == active[k];
    }
    forall k | 0 <= k < |after| ensures after[k].id in Ids(active) && after[k].id != active[pos].id {
      assert after[k] == active[if k < pos then k else k + 1];
    }
  }

  lemma RecordSlots(c: Config, active: seq<Slot>, log: seq<Action>, after: seq<Action>, pos: nat)
    requires SlotsOk(c, active, log) && pos < |active|
    requires Live(after) == Live(log) - {active[pos].id}
    requires forall i :: 0 <= i < |active| && i != pos ==>
      Polls(after, active[i].request) == Polls(log, active[i].request)
    ensures SlotsOk(c, Without(active, pos), after)
  {
    IdsWithout(active, pos);
    var kept := Without(active, pos);
    forall i | 0 <= i < |kept| ensures Polls(after, kept[i].request) == kept[i].seen < Limit(c) {
      assert kept[i] == active[if i < pos then i else i + 1];
    }
  }

  /** What the three entries of a finished attempt do to the log. */
  lemma RecordedLog(log: seq<Action>, q: Request, id: string)
    ensures var after := log + [Polled(q)] + [Closed(q)] + [Dropped(id)];
      && Open(after) == Open(log) - {q} && Live(after) == Live(log) - {id}
      && (forall r :: Polls(after, r) == Polls(log, r) + if r == q then 1 else 0)
      && Peak(after) == Max(Peak(log), Max(|Open(log)|, |Open(log) - {q}|)) && Collisions(after) == Collisions(log)
  {
    Logged(log, Polled(q));
    Logged(log + [Polled(q)], Closed(q));
    Logged(log + [Polled(q)] + [Closed(q)], Dropped(id));
  }

  lemma ElementsWithout(all: seq<Request>, pos: nat)
    requires pos < |all| && Distinct(all)
    ensures Elements(all[..pos] + all[pos + 1..]) == Elements(all) - {all[pos]}
  {
    var kept := all[..pos] + all[pos + 1..];
    forall k | 0 <= k < |all| && k != pos ensures all[k] in Elements(kept) {
      assert all[k] == kept[if k < pos then k else k - 1];
    }
    forall k | 0 <= k < |kept| ensures kept[k] in Elements(all) && kept[k] != all[pos] {
      assert kept[k] == all[if k < pos then k else k + 1];
    }
  }

  lemma RequestsWithout(active: seq<Slot>, pos: nat)
    requires pos < |active|
    ensures Requests(Without(active, pos)) == Requests(active)[..pos] + Requests(active)[pos + 1..]
    ensures multiset(Requests(active)) == multiset(Requests(Without(active, pos))) + multiset{active[pos].request}
  {
    var all := Requests(active);
    assert all == all[..pos] + [all[pos]] + all[pos + 1..];
    assert Requests(Without(active, pos)) == all[..pos] + all[pos + 1..];
  }

  lemma RecordPartition(c: Config, d: Desk, pos: nat)
    requires Accepted(c) && Partition(c, d) && pos < |d.active|
    ensures Partition(c, Recorded(d, pos))
  {
    RequestsWithout(d.active, pos);
    assert multiset(d.attempts + [d.active[pos].request]) == multiset(d.attempts) + multiset{d.active[pos].request};
  }

  lemma RecordOpen(c: Config, d: Desk, pos: nat)
    requires Inv(c, d) && pos < |d.active|
    ensures Open(d.log) - {d.active[pos].request} == Elements(Requests(Without(d.active, pos))) + Elements(d.lost)
  {
    PartitionApart(c, d);
    RequestsWithout(d.active, pos);
    ElementsWithout(Requests(d.active), pos);
    ActiveNotLost(c, d, pos);
  }

  lemma RecordLogOk(c: Config, d: Desk, pos: nat)
    requires Inv(c, d) && pos < |d.active|
    ensures LogOk(c, Recorded(d, pos))
  {
    var Slot(id, q, _) := d.active[pos];
    RecordOpen(c, d, pos);
    RecordedLog(d.log, q, id);
    PendingUntouched(c, d, pos);
    SmallerOpen(d.log, q);
    PeakHolds(d.log);
  }

  lemma RecordKeeps(c: Config, d: Desk, pos: nat)
    requires Inv(c, d) && pos < |d.active|
    ensures Inv(c, Recorded(d, pos))
  {
    var Slot(id, q, _) := d.active[pos];
    RecordPartition(c, d, pos);
    RecordLogOk(c, d, pos);
    RecordedLog(d.log, q, id);
    PartitionApart(c, d);
    forall i | 0 <= i < |d.active| && i != pos ensures d.active[i].request != q {
      assert Requests(d.active)[i] != Requests(d.active)[pos];
    }
    RecordSlots(c, d.active, d.log, Recorded(d, pos).log, pos);
  }

  // ----- how much is left to do -----

  function SlotsLeft(active: seq<Slot>, each: nat): int {
    if active == [] then 0 else SlotsLeft(active[..|active| - 1], each) + (each - active[|active| - 1].seen)
  }

  /** Polls still possible, with one more for each attempt. */
  function Left(c: Config, d: Desk): int {
    |d.pending| * (Limit(c) + 1) + SlotsLeft(d.active, Limit(c) + 1)
  }

  lemma {:induction false} LeftReplace(active: seq<Slot>, p: nat, x: Slot, each: nat)
    requires p < |active|
    ensures SlotsLeft(active[p := x], each) == SlotsLeft(active, each) + active[p].seen - x.seen
  {
    var last := |active| - 1;
    if p == last {
      assert active[p := x][..last] == active[..last];
    } else {
      assert active[p := x][..last] == active[..last][p := x];
      LeftReplace(active[..last], p, x, each);
    }
  }

  lemma {:induction false} LeftWithout(active: seq<Slot>, p: nat, each: nat)
    requires p < |active|
    ensures SlotsLeft(Without(active, p), each) == SlotsLeft(active, each) - (each - active[p].seen)
  {
    var last := |active| - 1;
    if p == last {
      assert Without(active, p) == active[..last];
    } else {
      var kept := Without(active, p);
      assert kept[..|kept| - 1] == Without(active[..last], p) && kept[|kept| - 1] == active[last];
      LeftWithout(active[..last], p, each);
    }
  }

  lemma {:induction false} LeftNotNegative(c: Config, active: seq<Slot>)
    requires forall i :: 0 <= i < |active| ==> active[i].seen < Limit(c)
    ensures SlotsLeft(active, Limit(c) + 1) >= 0
  {
    if active != [] { LeftNotNegative(c, active[..|active| - 1]); }
  }

  lemma OneLess(n: nat, each: nat)
    requires n > 0
    ensures n * each == (n - 1) * each + each
  {
  }

  lemma AdmitLeft(c: Config, d: Desk, id: string)
    requires d.pending != [] && forall i :: 0 <= i < |d.active| ==> d.active[i].seen < Limit(c)
    ensures Left(c, Admitted(d, id)) <= Left(c, d)
  {
    var x, each, next := Slot(id, d.pending[0], 0), Limit(c) + 1, Admitted(d, id);
    OneLess(|d.pending|, each);
    assert |next.pending| == |d.pending| - 1;
    assert SlotsLeft(next.active, each) <= SlotsLeft(d.active, each) + each by {
      if id in Ids(d.active) {
        LeftReplace(d.active, Position(d.active, id), x, each);
      } else {
        assert (d.active + [x])[..|d.active|] == d.active;
      }
    }
  }

  // ----- what the world answered -----

  /** The poll at `n` found that the attempt had ended well, and its evidence was in order. */
  predicate EndedWell(w: World, log: seq<Action>, n: int, q: Request) {
    0 <= n < |log| && log[n] == Polled(q) && w.poll(n) == Ended(false) && w.finish(n + 1)
  }

  /**
   What is logged at `n` was answered so that the run could go on. The progress file is written when attempts have
   come to their end that it does not hold, and holds all of them whenever an attempt is started.
   */
  ghost predicate WentOn(c: Config, w: World, log: seq<Action>, n: int)
    requires 0 <= n < |log|
  {
    match log[n]
    case Bound(_) => w.bind(n) && Told(log[..n]) == Drops(log[..n])
    case Written(completed) => w.write(n) && Told(log[..n]) < completed == Drops(log[..n])
    case Submitted(_, id) => w.submit(n) == Some(id)
    case Polled(q) =>
      if w.poll(n).Unfinished? then Polls(log[..n + 1], q) < Limit(c)
      else EndedWell(w, log, n, q) && w.close(n + 1) && n + 1 < |log| && log[n + 1] == Closed(q)
    case _ => true
  }

  /** The log of a run that has gone on so far, and what it has recorded. */
  ghost predicate Smooth(c: Config, w: World, log: seq<Action>, attempts: seq<Request>) {
    && (forall n :: 0 <= n < |log| ==> WentOn(c, w, log, n))
    && AllWell(w, log, attempts) && |attempts| == Drops(log)
  }

  /** Every attempt that is recorded had ended well when it was polled. */
  ghost predicate AllWell(w: World, log: seq<Action>, attempts: seq<Request>) {
    forall q :: q in attempts ==> Vouched(w, log, q)
  }

  ghost predicate Vouched(w: World, log: seq<Action>, q: Request) { exists n :: EndedWell(w, log, n, q) }

  /** From `n` on the log is only the cleanup. */
  ghost predicate OnlyCleanup(log: seq<Action>, n: nat) {
    n <= |log| && forall k :: n <= k < |log| ==> log[k].Terminated? || log[k].Closed?
  }

  /** The world refused at `n`, and the run went no further. */
  ghost predicate Refusal(c: Config, w: World, log: seq<Action>, n: nat) {
    || (OnlyCleanup(log, n) && n <= |log| && Told(log[..n]) == Drops(log[..n]) && !w.bind(n))
    || (OnlyCleanup(log, n) && n <= |log| && Told(log[..n]) != Drops(log[..n]) && !w.write(n))
    || (OnlyCleanup(log, n) && n > 0 && log[n - 1].Bound? && w.submit(n).None?)
    || (OnlyCleanup(log, n + 1) && n < |log| && log[n].Polled? && RefusedPoll(c, w, log, n))
  }

  /** A raised poll, a failed end, evidence out of order, a failed close, or the last poll that is allowed. */
  ghost predicate RefusedPoll(c: Config, w: World, log: seq<Action>, n: nat)
    requires n < |log| && log[n].Polled?
  {
    match w.poll(n)
    case Raised => true
    case Ended(failed) => failed || !w.finish(n + 1) || !w.close(n + 1)
    case Unfinished => Polls(log[..n + 1], log[n].request) == Limit(c)
  }

  lemma WellLater(w: World, log: seq<Action>, more: seq<Action>, attempts: seq<Request>)
    requires AllWell(w, log, attempts)
    ensures AllWell(w, log + more, attempts)
  {
    forall q | q in attempts ensures Vouched(w, log + more, q) {
      assert Vouched(w, log, q);
      var n :| EndedWell(w, log, n, q);
      assert EndedWell(w, log + more, n, q);
    }
  }

  lemma WentOnLater(c: Config, w: World, log: seq<Action>, more: seq<Action>)
    requires forall n :: 0 <= n < |log| ==> WentOn(c, w, log, n)
    ensures forall n :: 0 <= n < |log| ==> WentOn(c, w, log + more, n)
  {
    forall n | 0 <= n < |log| ensures WentOn(c, w, log + more, n) {
      assert WentOn(c, w, log, n);
      assert (log + more)[..n + 1] == log[..n + 1] && (log + more)[..n] == log[..n];
    }
  }

  lemma AdmitSmooth(c: Config, w: World, d: Desk, id: string)
    requires d.pending != [] && Smooth(c, w, d.log, d.attempts)
    requires w.bind(|d.log|) && w.submit(|d.log| + 1) == Some(id) && Told(d.log) == Drops(d.log)
    ensures Smooth(c, w, Admitted(d, id).log, Admitted(d, id).attempts)
    ensures Told(Admitted(d, id).log) == Drops(Admitted(d, id).log)
  {
    var bound, submitted := Bound(d.pending[0]), Submitted(d.pending[0], id);
    OneMoreSmooth(c, w, d.log, bound, d.attempts);
    OneMoreSmooth(c, w, d.log + [bound], submitted, d.attempts);
  }

  /** One more entry, which ends no attempt and was answered so that the run could go on. */
  lemma OneMoreSmooth(c: Config, w: World, log: seq<Action>, a: Action, attempts: seq<Request>)
    requires Smooth(c, w, log, attempts) && (a.Bound? || a.Submitted?) && WentOn(c, w, log + [a], |log|)
    ensures Smooth(c, w, log + [a], attempts) && Told(log + [a]) == Told(log) && Drops(log + [a]) == Drops(log)
  {
    Progress(log, a);
    WentOnLater(c, w, log, [a]);
    WellLater(w, log, [a], attempts);
  }

  lemma CountSmooth(c: Config, w: World, d: Desk, pos: nat)
    requires Inv(c, d) && pos < |d.active| && d.active[pos].seen + 1 < c.pollLimit && w.poll(|d.log|).Unfinished?
    requires Smooth(c, w, d.log, d.attempts)
    ensures Smooth(c, w, Counted(d, pos).log, Counted(d, pos).attempts)
    ensures Told(Counted(d, pos).log) == Told(d.log)
  {
    var q := d.active[pos].request;
    Progress(d.log, Polled(q));
    var log := d.log + [Polled(q)];
    WentOnLater(c, w, d.log, [Polled(q)]);
    WellLater(w, d.log, [Polled(q)], d.attempts);
    Logged(d.log, Polled(q));
    assert log[..|d.log| + 1] == log;
  }

  lemma RecordSmooth(c: Config, w: World, d: Desk, pos: nat)
    requires pos < |d.active| && Smooth(c, w, d.log, d.attempts)
    requires var n := |d.log|; w.poll(n) == Ended(false) && w.finish(n + 1) && w.close(n + 1)
    ensures Smooth(c, w, Recorded(d, pos).log, Recorded(d, pos).attempts)
    ensures Told(Recorded(d, pos).log) == Told(d.log)
  {
    var Slot(id, q, _) := d.active[pos];
    Progress(d.log, Polled(q));
    Progress(d.log + [Polled(q)], Closed(q));
    Progress(d.log + [Polled(q)] + [Closed(q)], Dropped(id));
    var more := [Polled(q)] + [Closed(q)] + [Dropped(id)];
    assert Recorded(d, pos).log == d.log + more;
    WentOnLater(c, w, d.log, more);
    WellLater(w, d.log, more, d.attempts);
    assert EndedWell(w, d.log + more, |d.log|, q);
  }

  /** A refusal stays one when the cleanup goes on. */
  lemma StaysRefused(c: Config, w: World, log: seq<Action>, more: seq<Action>, n: nat)
    requires Refusal(c, w, log, n) && OnlyCleanup(more, 0)
    ensures Refusal(c, w, log + more, n)
  {
    if n <= |log| { assert (log + more)[..n] == log[..n]; }
    if n < |log| { assert (log + more)[..n + 1] == log[..n + 1]; }
  }

  /** The progress file is written after a round in which attempts came to their end. */
  lemma WriteSmooth(c: Config, w: World, d: Desk)
    requires Inv(c, d) && Smooth(c, w, d.log, d.attempts) && Told(d.log) < Drops(d.log) && w.write(|d.log|)
    ensures var after := d.(log := d.log + [Written(|d.attempts|)]);
      Inv(c, after) && Smooth(c, w, after.log, after.attempts) && Told(after.log) == Drops(after.log)
  {
    var a := Written(|d.attempts|);
    var log := d.log + [a];
    Logged(d.log, a);
    Progress(d.log, a);
    PeakHolds(d.log);
    WentOnLater(c, w, d.log, [a]);
    WellLater(w, d.log, [a], d.attempts);
    assert log[..|d.log|] == d.log;
  }

  // ----- the scheduler -----

  /** After an exception every active attempt is terminated and closed. */
  method Cleanup(c: Config, active: seq<Slot>, ghost lost: seq<Request>, log: seq<Action>) returns (after: seq<Action>)
    requires Abortable(c, active, lost, log)
    ensures Open(after) == Elements(lost) && Bounded(c, lost, after)
    ensures log <= after && OnlyCleanup(after, |log|)
  {
    after := log;
    for i := 0 to |active|
      invariant log <= after && OnlyCleanup(after, |log|)
      invariant Elements(lost) <= Open(after) <= Elements(Requests(active)[i..]) + Elements(lost)
      invariant Bounded(c, lost, after)
    {
      CleanupStep(c, active, lost, after, i);
      after := after + [Terminated(active[i].id)] + [Closed(active[i].request)];
    }
  }

  lemma CleanupStep(c: Config, active: seq<Slot>, lost: seq<Request>, log: seq<Action>, i: nat)
    requires i < |active| && Bounded(c, lost, log) && (forall q :: q in Requests(active) ==> q !in lost)
    requires Elements(lost) <= Open(log) <= Elements(Requests(active)[i..]) + Elements(lost)
    ensures var after := log + [Terminated(active[i].id)] + [Closed(active[i].request)];
      && Bounded(c, lost, after)
      && Elements(lost) <= Open(after) <= Elements(Requests(active)[i + 1..]) + Elements(lost)
  {
    var q := active[i].request;
    Logged(log, Terminated(active[i].id));
    Logged(log + [Terminated(active[i].id)], Closed(q));
    PeakHolds(log);
    SmallerOpen(log, q);
    assert Requests(active)[i] == q;
    assert q in Requests(active);
    var rest := Requests(active)[i..];
    forall r | r in Elements(rest) && r != q ensures r in Elements(rest[1..]) {
      var k :| 0 <= k < |rest| && rest[k] == r;
      assert rest[1..][k - 1] == r;
    }
    assert rest[1..] == Requests(active)[i + 1..];
  }

  /** Start attempts while there is room. */
  method Admit(c: Config, w: World, d: Desk) returns (ok: bool, after: Desk)
    requires Inv(c, d) && Smooth(c, w, d.log, d.attempts) && Told(d.log) == Drops(d.log)
    ensures ok ==> Inv(c, after) && Left(c, after) <= Left(c, d) && Told(after.log) == Drops(after.log)
    ensures if ok then Smooth(c, w, after.log, after.attempts) else exists n: nat :: Refusal(c, w, after.log, n)
    ensures ok && after.pending != [] ==> |after.active| == c.concurrency
    ensures ok && (d.active != [] || d.pending != []) ==> after.active != []
    ensures !ok ==> Abortable(c, after.active, after.lost, after.log)
  {
    after := d;
    while after.pending != [] && |after.active| < c.concurrency
      invariant Inv(c, after) && Left(c, after) <= Left(c, d) && (after.active != [] || after == d)
      invariant Smooth(c, w, after.log, after.attempts) && Told(after.log) == Drops(after.log)
      decreases |after.pending|
    {
      var q := after.pending[0];
      if !w.bind(|after.log|) {
        InvAbortable(c, after);
        assert after.log[..|after.log|] == after.log;
        assert Refusal(c, w, after.log, |after.log|);
        return false, after;
      }
      var submitted := w.submit(|after.log| + 1);
      if submitted.None? {
        SubmitFails(c, after);
        assert Refusal(c, w, after.log + [Bound(q)] + [Closed(q)], |after.log| + 1);
        return false, after.(log := after.log + [Bound(q)] + [Closed(q)]);
      }
      AdmitKeeps(c, after, submitted.value);
      AdmitSmooth(c, w, after, submitted.value);
      AdmitLeft(c, after, submitted.value);
      after := Admitted(after, submitted.value);
    }
    ok := true;
  }

  lemma CountLeft(c: Config, d: Desk, pos: nat)
    requires pos < |d.active|
    ensures Left(c, Counted(d, pos)) == Left(c, d) - 1
  {
    LeftReplace(d.active, pos, d.active[pos].(seen := d.active[pos].seen + 1), Limit(c) + 1);
  }

  lemma RecordLeft(c: Config, d: Desk, pos: nat)
    requires pos < |d.active| && d.active[pos].seen < Limit(c)
    ensures Left(c, Recorded(d, pos)) < Left(c, d)
  {
    LeftWithout(d.active, pos, Limit(c) + 1);
  }

  /** The count of an attempt's polls, when one more is logged. */
  lemma PollLimit(c: Config, d: Desk, pos: nat)
    requires Inv(c, d) && pos < |d.active|
    ensures
      var q, log := d.active[pos].request, d.log + [Polled(d.active[pos].request)];
      log[..|d.log| + 1] == log && Polls(log, q) == d.active[pos].seen + 1 <= Limit(c)
  {
    Logged(d.log, Polled(d.active[pos].request));
  }

  /** Poll one attempt; one that ended is recorded, closed and dropped. */
  method PollOne(c: Config, w: World, d: Desk, pos: nat) returns (ok: bool, after: Desk, moved: bool)
    requires Inv(c, d) && pos < |d.active| && Smooth(c, w, d.log, d.attempts)
    ensures ok ==> Inv(c, after) && Left(c, after) < Left(c, d) && |after.active| == |d.active| - if moved then 1 else 0
    ensures if ok then Smooth(c, w, after.log, after.attempts) else Refusal(c, w, after.log, |d.log|)
    ensures ok ==> Told(after.log) == Told(d.log) && |after.attempts| == |d.attempts| + if moved then 1 else 0
    ensures !ok ==> Abortable(c, after.active, after.lost, after.log)
  {
    var slot := d.active[pos];
    PollAbortable(c, d, pos);
    PollLimit(c, d, pos);
    after := d.(log := d.log + [Polled(slot.request)]);
    var state := w.poll(|d.log|);
    ok, moved := false, false;
    if state.Unfinished? {
      if slot.seen + 1 < c.pollLimit {
        CountKeeps(c, d, pos);
        CountLeft(c, d, pos);
        CountSmooth(c, w, d, pos);
        ok, after := true, Counted(d, pos);
      }
    } else if state == Ended(false) && w.finish(|after.log|) {
      if w.close(|after.log|) {
        RecordKeeps(c, d, pos);
        RecordLeft(c, d, pos);
        RecordSmooth(c, w, d, pos);
        ok, after, moved := true, Recorded(d, pos), true;
      } else {
        after := after.(attempts := d.attempts + [slot.request], log := after.log + [Closed(slot.request)]);
      }
    }
  }

  /** Poll every active attempt once. */
  method PollRound(c: Config, w: World, d: Desk) returns (ok: bool, after: Desk, moved: bool)
    requires Inv(c, d) && Smooth(c, w, d.log, d.attempts)
    ensures ok ==> Inv(c, after) && Left(c, after) <= Left(c, d) - if d.active == [] then 0 else 1
    ensures if ok then Smooth(c, w, after.log, after.attempts) else exists n: nat :: Refusal(c, w, after.log, n)
    ensures ok ==> Told(after.log) == Told(d.log) && |d.attempts| <= |after.attempts|
    ensures ok ==> (moved <==> |d.attempts| < |after.attempts|)
    ensures !ok ==> Abortable(c, after.active, after.lost, after.log)
  {
    ok, after, moved := true, d, false;
    var pos := 0;
    while pos < |after.active|
      invariant Inv(c, after) && 0 <= pos <= |after.active| && Smooth(c, w, after.log, after.attempts)
      invariant Left(c, after) <= Left(c, d) - if after == d && pos == 0 then 0 else 1
      invariant Told(after.log) == Told(d.log) && |d.attempts| <= |after.attempts|
      invariant moved <==> |d.attempts| < |after.attempts|
      decreases |after.active| - pos
    {
      var dropped;
      ok, after, dropped := PollOne(c, w, after, pos);
      if !ok { return; }
      moved := moved || dropped;
      if !dropped { pos := pos + 1; }
    }
  }

  // ----- the final order -----

  function IndexOf(ids: seq<string>, id: string): nat {
    if ids == [] || ids[0] == id then 0 else 1 + IndexOf(ids[1..], id)
  }

  /** The sort key: the first place of the task in the list, then the sample. */
  predicate Before(ids: seq<string>, a: Request, b: Request) {
    var i, j := IndexOf(ids, a.task), IndexOf(ids, b.task);
    i < j || (i == j && a.sample < b.sample)
  }

  ghost predicate InOrder(ids: seq<string>, s: seq<Request>) {
    forall i, j :: 0 <= i < j < |s| ==> !Before(ids, s[j], s[i])
  }

  function Insert(ids: seq<string>, s: seq<Request>, q: Request): seq<Request> {
    if s == [] || !Before(ids, q, s[|s| - 1]) then s + [q] else Insert(ids, s[..|s| - 1], q) + [s[|s| - 1]]
  }

  function Sorted(ids: seq<string>, s: seq<Request>): seq<Request> {
    if s == [] then [] else Insert(ids, Sorted(ids, s[..|s| - 1]), s[|s| - 1])
  }

  lemma {:induction false} InsertKeeps(ids: seq<string>, s: seq<Request>, q: Request)
    requires InOrder(ids, s)
    ensures multiset(Insert(ids, s, q)) == multiset(s) + multiset{q} && InOrder(ids, Insert(ids, s, q))
  {
    if s != [] {
      var last := |s| - 1;
      if Before(ids, q, s[last]) {
        InsertKeeps(ids, s[..last], q);
        LastOut(s);
        InsertedEarlier(ids, s, q, Insert(ids, s[..last], q));
      } else {
        InsertedLast(ids, s, q);
      }
    }
  }

  lemma InsertedLast(ids: seq<string>, s: seq<Request>, q: Request)
    requires InOrder(ids, s) && s != [] && !Before(ids, q, s[|s| - 1])
    ensures InOrder(ids, s + [q])
  {
    forall i | 0 <= i < |s| ensures !Before(ids, q, s[i]) {
      assert i < |s| - 1 ==> !Before(ids, s[|s| - 1], s[i]);
    }
  }

  lemma InsertedEarlier(ids: seq<string>, s: seq<Request>, q: Request, t: seq<Request>)
    requires InOrder(ids, s) && s != [] && Before(ids, q, s[|s| - 1]) && InOrder(ids, t)
    requires multiset(t) == multiset(s[..|s| - 1]) + multiset{q}
    ensures InOrder(ids, t + [s[|s| - 1]])
  {
    var front, last := s[..|s| - 1], s[|s| - 1];
    forall i | 0 <= i < |t| ensures !Before(ids, last, t[i]) {
      assert t[i] in multiset(t);
      assert t[i] == q || t[i] in front;
    }
  }

  lemma {:induction false} SortedKeeps(ids: seq<string>, s: seq<Request>)
    ensures multiset(Sorted(ids, s)) == multiset(s) && InOrder(ids, Sorted(ids, s))
  {
    if s != [] {
      var last := |s| - 1;
      SortedKeeps(ids, s[..last]);
      InsertKeeps(ids, Sorted(ids, s[..last]), s[last]);
      LastOut(s);
    }
  }

  lemma LastOut(s: seq<Request>)
    requires s != []
    ensures multiset(s) == multiset(s[..|s| - 1]) + multiset{s[|s| - 1]}
  {
    assert s == s[..|s| - 1] + [s[|s| - 1]];
  }

  lemma SameLast(ids: seq<string>, s: seq<Request>, t: seq<Request>)
    requires multiset(s) == multiset(t) && InOrder(ids, s) && s != [] && |s| == |t|
    requires forall i, j :: 0 <= i < j < |t| ==> Before(ids, t[i], t[j])
    ensures s[|s| - 1] == t[|t| - 1]
  {
    var last := |s| - 1;
    assert t[last] in multiset(s) && s[last] in multiset(t);
    var i :| 0 <= i < |s| && s[i] == t[last];
    var j :| 0 <= j < |t| && t[j] == s[last];
  }

  lemma SameRest(s: seq<Request>, t: seq<Request>)
    requires multiset(s) == multiset(t) && s != [] && |s| == |t| && s[|s| - 1] == t[|t| - 1]
    ensures multiset(s[..|s| - 1]) == multiset(t[..|t| - 1])
  {
    LastOut(s);
    LastOut(t);
    assert multiset(s[..|s| - 1]) == multiset(s) - multiset{s[|s| - 1]};
    assert multiset(t[..|t| - 1]) == multiset(t) - multiset{t[|t| - 1]};
  }

  /** Any two orderings of the same requests agree if one of them never has equal keys. */
  lemma {:induction false} OneOrder(ids: seq<string>, s: seq<Request>, t: seq<Request>)
    requires multiset(s) == multiset(t) && InOrder(ids, s)
    requires forall i, j :: 0 <= i < j < |t| ==> Before(ids, t[i], t[j])
    ensures s == t
  {
    assert |s| == |multiset(s)| == |multiset(t)| == |t|;
    if s != [] {
      var last := |s| - 1;
      SameLast(ids, s, t);
      SameRest(s, t);
      OneOrder(ids, s[..last], t[..last]);
    }
  }

  lemma {:induction false} IndexOfDistinct(ids: seq<string>, k: nat)
    requires k < |ids| && Distinct(ids)
    ensures IndexOf(ids, ids[k]) == k
  {
    if k > 0 {
      assert ids[1..][k - 1] == ids[k];
      IndexOfDistinct(ids[1..], k - 1);
    }
  }

  lemma PairsInOrder(ids: seq<string>, samples: nat, i: nat, j: nat)
    requires samples > 0 && Distinct(ids) && i < j < |Pairs(ids, samples)|
    ensures Before(ids, Pairs(ids, samples)[i], Pairs(ids, samples)[j])
  {
    DivBelow(|ids|, samples, i);
    DivBelow(|ids|, samples, j);
    IndexOfDistinct(ids, i / samples);
    IndexOfDistinct(ids, j / samples);
    DivOrder(i, j, samples);
  }

  /** Task and sample of each request: what the recorded rows show. */
  function Shown(s: seq<Request>): seq<(string, nat)> {
    seq(|s|, k requires 0 <= k < |s| => (s[k].task, s[k].sample))
  }

  /**
   Whatever order the attempts completed in, the recorded rows list each task's samples in turn, in the order of the
   task list, if and only if no task is listed twice.
   */
  lemma RecordedInTaskOrder(ids: seq<string>, samples: nat, attempts: seq<Request>)
    requires samples >= 2 && multiset(attempts) == multiset(Pairs(ids, samples))
    ensures Shown(Sorted(ids, attempts)) == Shown(Pairs(ids, samples)) <==> Distinct(ids)
    ensures Distinct(ids) ==> Sorted(ids, attempts) == Pairs(ids, samples)
  {
    var pairs, s := Pairs(ids, samples), Sorted(ids, attempts);
    SortedKeeps(ids, attempts);
    if Distinct(ids) {
      forall i, j | 0 <= i < j < |pairs| ensures Before(ids, pairs[i], pairs[j]) {
        PairsInOrder(ids, samples, i, j);
      }
      OneOrder(ids, s, pairs);
    } else {
      var a, b :| 0 <= a < b < |ids| && ids[a] == ids[b];
      RepeatedTask(ids, samples, a, b);
      var i, j := a * samples + 1, b * samples;
      assert |s| == |multiset(s)| == |pairs|;
      assert !Before(ids, s[j], s[i]);
      assert Shown(s)[i] == (s[i].task, s[i].sample) && Shown(s)[j] == (s[j].task, s[j].sample);
    }
  }

  lemma RepeatedTask(ids: seq<string>, samples: nat, a: nat, b: nat)
    requires samples >= 2 && a < b < |ids| && ids[a] == ids[b]
    ensures
      var i, j := a * samples + 1, b * samples;
      && 0 <= i < j < |Pairs(ids, samples)|
      && Shown(Pairs(ids, samples))[i] == (ids[a], 1) && Shown(Pairs(ids, samples))[j] == (ids[a], 0)
  {
    var i, j := a * samples + 1, b * samples;
    TimesOrder(a + 1, b, samples);
    TimesOrder(b + 1, |ids|, samples);
    assert samples * (a + 1) == samples * a + samples && samples * (b + 1) == samples * b + samples;
    DivModUnique(i, samples, a, 1);
    DivModUnique(j, samples, b, 0);
  }

  // ----- the run -----

  /** One turn of the loop: start what there is room for, poll, and write the progress when something ended. */
  method Turn(c: Config, w: World, d: Desk) returns (ok: bool, after: Desk)
    requires Inv(c, d) && (d.pending != [] || d.active != []) && Smooth(c, w, d.log, d.attempts)
    requires Told(d.log) == Drops(d.log)
    ensures ok ==> Inv(c, after) && 0 <= Left(c, after) < Left(c, d) && Told(after.log) == Drops(after.log)
    ensures if ok then Smooth(c, w, after.log, after.attempts) else exists n: nat :: Refusal(c, w, after.log, n)
    ensures !ok ==> Abortable(c, after.active, after.lost, after.log)
  {
    ok, after := Admit(c, w, d);
    if ok {
      var moved;
      ok, after, moved := PollRound(c, w, after);
      if ok {
        LeftOk(c, after);
        InvAbortable(c, after);
        if moved {
          assert after.log[..|after.log|] == after.log;
          ok := w.write(|after.log|);
          if ok {
            WriteSmooth(c, w, after);
            after := after.(log := after.log + [Written(|after.attempts|)]);
          } else {
            assert Refusal(c, w, after.log, |after.log|);
          }
        }
      }
    }
  }

  /**
   The whole run, in every environment. A binding is left open at the end, on success or after an exception, just
   for the attempts in `lost`, and there are as many of those as submissions that returned an id still in use;
   otherwise every successful bind is closed. At no time are more bindings open than `concurrency` and the lost
   ones; no attempt is polled more than `max(1, pollLimit)` times; and a successful run has recorded or lost every
   pair of task and sample exactly once.

   A run is aborted only where the world refused, and then it goes no further; in a run that came to its end every
   answer was one to go on with, every recorded attempt had ended without failing when it was polled, and the progress
   file holds them all.
   */
  method Screen(c: Config, w: World) returns (r: Outcome, log: seq<Action>, lost: seq<Request>)
    ensures r.Refused? <==>
      (|| c.samples < 2 || c.concurrency < 1 || !c.knownMode || c.revisions != 1
       || exists k :: 0 <= k < |c.ids| && c.ids[k] !in c.resolved)
    ensures Open(log) == Elements(lost) && |lost| == Collisions(log)
    ensures Accepted(c) ==> Peak(log) <= c.concurrency + |lost| && forall q :: Polls(log, q) <= Limit(c)
    ensures r.Screened? ==>
      && multiset(r.attempts) + multiset(lost) == multiset(Pairs(c.ids, c.samples)) && InOrder(c.ids, r.attempts)
      && (lost == [] && Distinct(c.ids) ==> r.attempts == Pairs(c.ids, c.samples))
    ensures r.Screened? ==> Smooth(c, w, log, r.attempts) && Told(log) == |r.attempts|
    ensures r.Aborted? ==> exists n: nat :: Refusal(c, w, log, n)
    ensures Accepted(c) && Willing(w) ==> r.Screened?
  {
    log, lost := [], [];
    if !Accepted(c) { return Refused, log, lost; }
    var d := Desk(Pairs(c.ids, c.samples), [], [], [], []);
    StartInv(c);
    while d.pending != [] || d.active != []
      invariant Inv(c, d) && Smooth(c, w, d.log, d.attempts) && Told(d.log) == Drops(d.log)
      decreases Left(c, d)
    {
      var ok;
      ok, d := Turn(c, w, d);
      if !ok {
        log := Cleanup(c, d.active, d.lost, d.log);
        CleanedRefusal(c, w, d.log, log);
        return Aborted, log, d.lost;
      }
    }
    FinishedParts(c, d);
    SortedWell(c, w, d.log, d.attempts);
    r, log, lost := Screened(Sorted(c.ids, d.attempts)), d.log, d.lost;
  }

  /** The world never refuses, and every attempt has ended well when it is first polled. */
  ghost predicate Willing(w: World) {
    forall n: nat ::
      w.bind(n) && w.submit(n).Some? && w.poll(n) == Ended(false) && w.finish(n) && w.close(n) && w.write(n)
  }

  lemma CleanedRefusal(c: Config, w: World, log: seq<Action>, after: seq<Action>)
    requires log <= after && OnlyCleanup(after, |log|) && exists n: nat :: Refusal(c, w, log, n)
    ensures (exists n: nat :: Refusal(c, w, after, n)) && !Willing(w)
  {
    var n: nat :| Refusal(c, w, log, n);
    var more := after[|log|..];
    assert after == log + more;
    StaysRefused(c, w, log, more, n);
  }

  lemma SortedWell(c: Config, w: World, log: seq<Action>, attempts: seq<Request>)
    requires Smooth(c, w, log, attempts)
    ensures Smooth(c, w, log, Sorted(c.ids, attempts))
  {
    var s := Sorted(c.ids, attempts);
    SortedKeeps(c.ids, attempts);
    assert |s| == |multiset(s)| == |multiset(attempts)| == |attempts|;
    forall q | q in s ensures Vouched(w, log, q) {
      assert q in multiset(s);
      assert q in attempts;
    }
  }

  lemma StartInv(c: Config)
    requires Accepted(c)
    ensures Inv(c, Desk(Pairs(c.ids, c.samples), [], [], [], []))
  {
    var pairs := Pairs(c.ids, c.samples);
    assert pairs[0..] == pairs && pairs[..0] == [];
  }

  lemma LeftOk(c: Config, d: Desk)
    requires Inv(c, d)
    ensures Left(c, d) >= 0
  {
    LeftNotNegative(c, d.active);
    TimesOrder(0, |d.pending|, Limit(c) + 1);
    assert (Limit(c) + 1) * |d.pending| == |d.pending| * (Limit(c) + 1);
  }

  lemma AllStarted(c: Config, d: Desk)
    requires Accepted(c) && Partition(c, d) && d.pending == [] && d.active == []
    ensures multiset(d.attempts) + multiset(d.lost) == multiset(Pairs(c.ids, c.samples))
  {
    var pairs := Pairs(c.ids, c.samples);
    assert pairs[..|pairs|] == pairs;
    assert Requests(d.active) == [];
  }

  lemma FinishedParts(c: Config, d: Desk)
    requires Inv(c, d) && d.pending == [] && d.active == []
    ensures Open(d.log) == Elements(d.lost)
    ensures var s := Sorted(c.ids, d.attempts);
      && multiset(s) + multiset(d.lost) == multiset(Pairs(c.ids, c.samples)) && InOrder(c.ids, s)
      && (d.lost == [] && Distinct(c.ids) ==> s == Pairs(c.ids, c.samples))
  {
    SortedKeeps(c.ids, d.attempts);
    AllStarted(c, d);
    assert Elements(Requests(d.active)) == {};
    if d.lost == [] {
      RecordedInTaskOrder(c.ids, c.samples, d.attempts);
    }
  }

  // ----- a binding that stays open -----

  /** Two samples of one task, started together, recorded one after the other. */
  function FirstOf(task: string): Request { Request(0, task, 0) }

  function SecondOf(task: string): Request { Request(0, task, 1) }

  lemma TwoPairs(task: string)
    ensures Pairs([task], 2) == [FirstOf(task), SecondOf(task)]
  {
    assert 0 / 2 == 0 && 0 % 2 == 0 && 1 / 2 == 0 && 1 % 2 == 1;
  }

  /** The two attempts are admitted under one id: the second takes the place of the first. */
  lemma SecondDisplacesFirst(c: Config, task: string, id: string)
    requires Accepted(c) && c.ids == [task] && c.samples == 2 && c.concurrency >= 2
    ensures
      var d := Admitted(Admitted(Desk(Pairs(c.ids, 2), [], [], [], []), id), id);
      && Inv(c, d) && d.pending == [] && d.active == [Slot(id, SecondOf(task), 0)]
      && d.attempts == [] && d.lost == [FirstOf(task)]
  {
    var first, second := FirstOf(task), SecondOf(task);
    TwoPairs(task);
    StartInv(c);
    var d0 := Desk([first, second], [], [], [], []);
    var d1 := Admitted(d0, id);
    AdmitKeeps(c, d0, id);
    assert d1.pending == [second] && d1.active == [Slot(id, first, 0)] && d1.lost == [];
    assert d1.active[0].id == id && id in Ids(d1.active);
    AdmitKeeps(c, d1, id);
    assert d1.active[0 := Slot(id, second, 0)] == [Slot(id, second, 0)];
    assert Position(d1.active, id) == 0;
  }

  /**
   When both submissions answer with the same rollout id, the run comes to its end with the second attempt recorded
   and the first attempt's binding open, with nothing left to close it.
   */
  lemma SameIdLeavesBindingOpen(c: Config, task: string, id: string)
    requires Accepted(c) && c.ids == [task] && c.samples == 2 && c.concurrency >= 2
    ensures
      var d := Recorded(Admitted(Admitted(Desk(Pairs(c.ids, 2), [], [], [], []), id), id), 0);
      && Inv(c, d) && d.pending == [] && d.active == []
      && d.attempts == [SecondOf(task)] && Open(d.log) == {FirstOf(task)}
  {
    SecondDisplacesFirst(c, task, id);
    var d := Admitted(Admitted(Desk(Pairs(c.ids, 2), [], [], [], []), id), id);
    RecordKeeps(c, d, 0);
    var after := Recorded(d, 0);
    assert after.active == [] && Requests(after.active) == [];
    OneElement(FirstOf(task));
  }

  lemma OneElement(q: Request)
    ensures Elements([q]) == {q} && Elements([]) == {}
  {
    assert [q][0] == q;
  }
}
