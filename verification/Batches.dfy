/**
 The training batches: update `u` takes the next `size` examples of an endless cyclic reading of the training set.
 */
module Batches {
  import opened Division

  /** The positions of the examples in the batch of one update; a size below one gives an empty batch. */
  function Positions(n: nat, update: nat, size: int): seq<nat>
    requires n > 0 && update >= 1
  {
    var count: nat := if size < 0 then 0 else size;
    From(n, (update - 1) * count, count)
  }

  /** So many positions, starting at a number of positions read before. */
  function From(n: nat, read: nat, count: nat): seq<nat>
    requires n > 0
  {
    var start := read % n;
    seq(count, offset requires 0 <= offset < count => (start + offset) % n)
  }

  lemma FromAt(n: nat, read: nat, count: nat, i: nat)
    requires n > 0 && i < count
    ensures From(n, read, count)[i] == (read + i) % n
  {
    ModAdd(read, i, n);
  }

  function Batch<T>(examples: seq<T>, update: nat, size: int): (b: seq<T>)
    requires |examples| > 0 && update >= 1
  {
    var p := Positions(|examples|, update, size);
    seq(|p|, i requires 0 <= i < |p| => examples[p[i]])
  }

  /** The positions of the first `updates` batches one after another. */
  function Walk(n: nat, size: nat, updates: nat): seq<nat>
    requires n > 0
  {
    if updates == 0 then [] else Walk(n, size, updates - 1) + Positions(n, updates, size)
  }

  function Count(s: seq<nat>, x: nat): nat {
    if s == [] then 0 else Count(s[..|s| - 1], x) + (if s[|s| - 1] == x then 1 else 0)
  }

  /** The batches concatenate to one cyclic reading: the `i`-th example used is example `i` modulo the set size. */
  lemma {:induction false} WalkIsCyclic(n: nat, size: nat, updates: nat)
    requires n > 0
    ensures |Walk(n, size, updates)| == updates * size
    ensures forall i :: 0 <= i < |Walk(n, size, updates)| ==> Walk(n, size, updates)[i] == i % n
  {
    if updates > 0 {
      WalkIsCyclic(n, size, updates - 1);
      var before := (updates - 1) * size;
      assert updates * size == before + size;
      var w, last := Walk(n, size, updates), Positions(n, updates, size);
      forall i | before <= i < |w| ensures w[i] == i % n {
        assert w[i] == last[i - before];
        FromAt(n, before, size, i - before);
      }
    }
  }

  lemma {:induction false} CyclicCount(s: seq<nat>, n: nat, x: nat)
    requires n > 0 && x < n
    requires forall i :: 0 <= i < |s| ==> s[i] == i % n
    ensures Count(s, x) == |s| / n + (if x < |s| % n then 1 else 0)
  {
    if s == [] {
      assert 0 / n == 0 && 0 % n == 0;
    } else {
      var last := |s| - 1;
      CyclicCount(s[..last], n, x);
      DivModNext(last, n);
    }
  }

  /** After any number of updates no example has been used more than once more often than another. */
  lemma FairUse(n: nat, size: nat, updates: nat, x: nat)
    requires n > 0 && x < n
    ensures
      var total := updates * size;
      Count(Walk(n, size, updates), x) == total / n + (if x < total % n then 1 else 0)
  {
    WalkIsCyclic(n, size, updates);
    CyclicCount(Walk(n, size, updates), n, x);
  }

  /** The batch really holds the examples at those positions. */
  lemma BatchReadsPositions<T>(examples: seq<T>, update: nat, size: nat)
    requires |examples| > 0 && update >= 1
    ensures |Batch(examples, update, size)| == size
    ensures forall i :: 0 <= i < size ==>
      Batch(examples, update, size)[i] == examples[((update - 1) * size + i) % |examples|]
  {
    forall i | 0 <= i < size
      ensures Batch(examples, update, size)[i] == examples[((update - 1) * size + i) % |examples|]
    {
      PositionAt(|examples|, update, size, i);
    }
  }

  lemma PositionAt(n: nat, update: nat, size: nat, i: nat)
    requires n > 0 && update >= 1 && i < size
    ensures Positions(n, update, size)[i] == ((update - 1) * size + i) % n
  {
    FromAt(n, (update - 1) * size, size, i);
  }
}
