/**
 The charge ledger shared by several processes: a paid call reserves an upper bound on its cost, is made, and is
 then settled at what it really cost. The database serialises each reservation and each settlement; everything
 between is interleaved freely.
 */
module Ledger {
  import opened Basics

  const CAP: real := 119.0

  const SLACK: real := 0.00000001

  /** Disk space that must be free before a reservation. */
  const ROOM: int := 2 * 1024 * 1024 * 1024

  datatype Row = Row(key: string, reserved: real, counted: Option<real>)

  function Charge(r: Row): real { if r.counted.Some? then r.counted.value else r.reserved }

  function Total(rows: seq<Row>): real {
    if rows == [] then 0.0 else Total(rows[..|rows| - 1]) + Charge(rows[|rows| - 1])
  }

  function SettledRows(rows: seq<Row>): nat {
    if rows == [] then 0 else SettledRows(rows[..|rows| - 1]) + if rows[|rows| - 1].counted.Some? then 1 else 0
  }

  predicate HasKey(rows: seq<Row>, key: string) { exists k :: 0 <= k < |rows| && rows[k].key == key }

  /** The row of a key; keys are unique in every ledger that `Reserve` builds. */
  function Find(rows: seq<Row>, key: string): (k: nat)
    requires HasKey(rows, key)
    ensures k < |rows| && rows[k].key == key
  {
    if rows[|rows| - 1].key == key then |rows| - 1 else Find(rows[..|rows| - 1], key)
  }

  predicate MayReserve(rows: seq<Row>, key: string, upper: real, free: int) {
    upper >= 0.0 && free >= ROOM && Total(rows) + upper <= CAP && !HasKey(rows, key)
  }

  function Reserved(rows: seq<Row>, key: string, upper: real, free: int): seq<Row> {
    if MayReserve(rows, key, upper, free) then rows + [Row(key, upper, None)] else rows
  }

  predicate MaySettle(rows: seq<Row>, key: string, counted: real) {
    HasKey(rows, key) && counted <= rows[Find(rows, key)].reserved + SLACK
  }

  function Settled(rows: seq<Row>, key: string, counted: real): seq<Row> {
    if MaySettle(rows, key, counted)
    then rows[Find(rows, key) := rows[Find(rows, key)].(counted := Some(counted))] else rows
  }

  ghost predicate UniqueKeys(rows: seq<Row>) {
    forall i, j :: 0 <= i < j < |rows| ==> rows[i].key != rows[j].key
  }

  class Book {
    var rows: seq<Row>

    /** The key is the primary key of the table. */
    ghost predicate Valid()
      reads this
    {
      UniqueKeys(rows)
    }

    constructor ()
      ensures Valid() && rows == []
    {
      rows := [];
    }

    method Used() returns (sum: real)
      ensures sum == Total(rows)
    {
      sum := 0.0;
      for i := 0 to |rows|
        invariant sum == Total(rows[..i])
      {
        assert rows[..i + 1][..i] == rows[..i];
        sum := sum + Charge(rows[i]);
      }
      assert rows[..|rows|] == rows;
    }

    method Reserve(key: string, upper: real, free: int) returns (ok: bool)
      requires Valid()
      modifies this
      ensures Valid()
      ensures ok == MayReserve(old(rows), key, upper, free) && rows == Reserved(old(rows), key, upper, free)
      ensures ok <==>
        (&& 0.0 <= upper && free >= 2147483648 && Total(old(rows)) + upper <= 119.0
         && forall k :: 0 <= k < |old(rows)| ==> old(rows)[k].key != key)
    {
      var used := Used();
      ok := upper >= 0.0 && free >= ROOM && used + upper <= CAP && !HasKey(rows, key);
      if ok {
        rows := rows + [Row(key, upper, None)];
      }
    }

    method Settle(key: string, counted: real) returns (ok: bool)
      requires Valid()
      modifies this
      ensures Valid()
      ensures ok == MaySettle(old(rows), key, counted) && rows == Settled(old(rows), key, counted)
      ensures ok <==> exists k ::
        0 <= k < |old(rows)| && old(rows)[k].key == key && counted <= old(rows)[k].reserved + 0.00000001
    {
      ok := false;
      var i := 0;
      while i < |rows| && rows[i].key != key
        invariant 0 <= i <= |rows| && rows == old(rows) && forall k :: 0 <= k < i ==> rows[k].key != key
      {
        i := i + 1;
      }
      if i < |rows| {
        ok := counted <= rows[i].reserved + SLACK;
        if ok {
          rows := rows[i := rows[i].(counted := Some(counted))];
        }
      }
    }
  }

  // ----- sums -----

  lemma {:induction false} TotalUpdated(rows: seq<Row>, k: nat, r: Row)
    requires k < |rows|
    ensures Total(rows[k := r]) == Total(rows) - Charge(rows[k]) + Charge(r)
    ensures SettledRows(rows[k := r]) == SettledRows(rows)
      - (if rows[k].counted.Some? then 1 else 0) + (if r.counted.Some? then 1 else 0)
  {
    var last := |rows| - 1;
    if k == last {
      assert rows[k := r][..last] == rows[..last];
    } else {
      assert rows[k := r][..last] == rows[..last][k := r];
      TotalUpdated(rows[..last], k, r);
    }
  }

  lemma TotalAppended(rows: seq<Row>, r: Row)
    ensures Total(rows + [r]) == Total(rows) + Charge(r)
    ensures SettledRows(rows + [r]) == SettledRows(rows) + if r.counted.Some? then 1 else 0
  {
    assert (rows + [r])[..|rows|] == rows;
  }

  /** A reservation that is made counts in full at once, and one that is refused does not count. */
  lemma ReservationCounts(rows: seq<Row>, key: string, upper: real, free: int)
    ensures Total(Reserved(rows, key, upper, free)) ==
      Total(rows) + if MayReserve(rows, key, upper, free) then upper else 0.0
  {
    TotalAppended(rows, Row(key, upper, None));
  }

  /** A settlement puts the counted amount in the place of the reserved one, or of the one counted before. */
  lemma SettlementReplaces(rows: seq<Row>, k: nat, counted: real)
    requires UniqueKeys(rows) && k < |rows| && counted <= rows[k].reserved + SLACK
    ensures
      var r := rows[k];
      Total(Settled(rows, r.key, counted)) == Total(rows) + counted - match r.counted
        case None => r.reserved
        case Some(before) => before
  {
    FindIsUnique(rows, k);
    TotalUpdated(rows, k, rows[k].(counted := Some(counted)));
  }

  lemma FindIsUnique(rows: seq<Row>, k: nat)
    requires UniqueKeys(rows) && k < |rows|
    ensures HasKey(rows, rows[k].key) && Find(rows, rows[k].key) == k
  {
  }

  /** Room on the disk alone decides whether a reservation that fits otherwise is made. */
  lemma RoomDecides(rows: seq<Row>, key: string, upper: real, free: int, other: int)
    requires MayReserve(rows, key, upper, free)
    ensures MayReserve(rows, key, upper, other) <==> other >= 2147483648
  {
  }

  // ----- any order of reservations and settlements -----

  datatype Entry = Reserving(key: string, upper: real, free: int) | Settling(key: string, counted: real)

  function Apply(rows: seq<Row>, e: Entry): seq<Row> {
    match e
    case Reserving(key, upper, free) => Reserved(rows, key, upper, free)
    case Settling(key, counted) => Settled(rows, key, counted)
  }

  function Ledger(entries: seq<Entry>): seq<Row> {
    if entries == [] then [] else Apply(Ledger(entries[..|entries| - 1]), entries[|entries| - 1])
  }

  /** What an entry does to which key, whatever the amounts. */
  datatype Move = Reserve(key: string) | Settle(key: string)

  function MoveOf(e: Entry): Move { if e.Reserving? then Reserve(e.key) else Settle(e.key) }

  function Schedule(entries: seq<Entry>): seq<Move> {
    seq(|entries|, i requires 0 <= i < |entries| => MoveOf(entries[i]))
  }

  /** At `k` a key is settled that was reserved and settled before another key was reserved. */
  ghost predicate SettledAgain(moves: seq<Move>, h: int, i: int, j: int, k: int) {
    && 0 <= h < i < j < k < |moves|
    && moves[h].Reserve? && moves[i].Settle? && moves[j].Reserve? && moves[k].Settle?
    && moves[h].key == moves[i].key == moves[k].key != moves[j].key
  }

  /** Some key is settled again after a reservation made since it was first settled. */
  ghost predicate Resettles(moves: seq<Move>) {
    exists h, i, j, k :: SettledAgain(moves, h, i, j, k)
  }

  /** The rows in the ledger are within the cap, but for one rounding allowance for each settled row. */
  ghost predicate WithinCap(rows: seq<Row>) {
    Total(rows) <= CAP + SLACK * SettledRows(rows) as real
  }

  /** How far a key is on the way to being settled again: reserved, settled, and then another key reserved. */
  function Stage(moves: seq<Move>, key: string): (s: nat)
    ensures s <= 3
  {
    if moves == [] then 0 else NextStage(Stage(moves[..|moves| - 1], key), moves[|moves| - 1], key)
  }

  function NextStage(s: nat, m: Move, key: string): (t: nat)
    requires s <= 3
    ensures s <= t <= 3
  {
    if s == 0 && m == Reserve(key) then 1
    else if s == 1 && m == Settle(key) then 2
    else if s == 2 && m.Reserve? && m.key != key then 3
    else s
  }

  lemma {:induction false} StageOne(moves: seq<Move>, key: string) returns (h: nat)
    requires Stage(moves, key) >= 1
    ensures h < |moves| && moves[h] == Reserve(key)
  {
    var last := |moves| - 1;
    if Stage(moves[..last], key) >= 1 { h := StageOne(moves[..last], key); } else { h := last; }
  }

  lemma {:induction false} StageTwo(moves: seq<Move>, key: string) returns (h: nat, i: nat)
    requires Stage(moves, key) >= 2
    ensures h < i < |moves| && moves[h] == Reserve(key) && moves[i] == Settle(key)
  {
    var last := |moves| - 1;
    if Stage(moves[..last], key) >= 2 {
      h, i := StageTwo(moves[..last], key);
    } else {
      h := StageOne(moves[..last], key);
      i := last;
    }
  }

  lemma {:induction false} StageThree(moves: seq<Move>, key: string) returns (h: nat, i: nat, j: nat)
    requires Stage(moves, key) == 3
    ensures h < i < j < |moves| && moves[h] == Reserve(key) && moves[i] == Settle(key)
    ensures moves[j].Reserve? && moves[j].key != key
  {
    var last := |moves| - 1;
    if Stage(moves[..last], key) == 3 {
      h, i, j := StageThree(moves[..last], key);
    } else {
      h, i := StageTwo(moves[..last], key);
      j := last;
    }
  }

  /** In a schedule that settles no key again, what is settled next is not that far. */
  lemma NotYetStale(moves: seq<Move>, m: Move)
    requires !Resettles(moves + [m]) && m.Settle?
    ensures Stage(moves, m.key) < 3
  {
    if Stage(moves, m.key) == 3 {
      var h, i, j := StageThree(moves, m.key);
      assert SettledAgain(moves + [m], h, i, j, |moves|);
    }
  }

  lemma ShorterResettles(moves: seq<Move>, m: Move)
    requires Resettles(moves)
    ensures Resettles(moves + [m])
  {
    var h, i, j, k :| SettledAgain(moves, h, i, j, k);
    assert SettledAgain(moves + [m], h, i, j, k);
  }

  // ----- what the rows may still come to -----

  /** The most a row can be charged at while nothing else is reserved. */
  function Reach(r: Row, stage: nat): real {
    if r.counted.None? then r.reserved else if stage == 3 then Charge(r) else r.reserved + SLACK
  }

  function ReachTotal(rows: seq<Row>, moves: seq<Move>): real {
    if rows == [] then 0.0
    else ReachTotal(rows[..|rows| - 1], moves) + Reach(rows[|rows| - 1], Stage(moves, rows[|rows| - 1].key))
  }

  /** Rows are for keys that were reserved, settled rows for keys that were settled then, and within the allowance. */
  ghost predicate RowsTold(rows: seq<Row>, moves: seq<Move>) {
    forall x :: 0 <= x < |rows| ==> RowTold(rows[x], moves)
  }

  ghost predicate RowTold(r: Row, moves: seq<Move>) {
    && Stage(moves, r.key) >= 1
    && (r.counted.Some? ==> Stage(moves, r.key) >= 2 && Charge(r) <= r.reserved + SLACK)
  }

  lemma StageStep(moves: seq<Move>, m: Move, key: string)
    ensures Stage(moves + [m], key) == NextStage(Stage(moves, key), m, key)
  {
    assert (moves + [m])[..|moves|] == moves;
  }

  lemma {:induction false} TotalWithinReach(rows: seq<Row>, moves: seq<Move>)
    requires RowsTold(rows, moves)
    ensures Total(rows) <= ReachTotal(rows, moves)
  {
    if rows != [] {
      assert RowTold(rows[|rows| - 1], moves);
      TotalWithinReach(rows[..|rows| - 1], moves);
    }
  }

  /** The reach of rows that no move has brought further is not larger. */
  lemma {:induction false} ReachFalls(rows: seq<Row>, before: seq<Move>, after: seq<Move>)
    requires forall x :: 0 <= x < |rows| ==>
      Reach(rows[x], Stage(after, rows[x].key)) <= Reach(rows[x], Stage(before, rows[x].key))
    ensures ReachTotal(rows, after) <= ReachTotal(rows, before)
  {
    if rows != [] { ReachFalls(rows[..|rows| - 1], before, after); }
  }

  /** Once another key is reserved, settled rows stay at their charge. */
  lemma {:induction false} ReachIsTotal(rows: seq<Row>, moves: seq<Move>)
    requires forall x :: 0 <= x < |rows| && rows[x].counted.Some? ==> Stage(moves, rows[x].key) == 3
    ensures ReachTotal(rows, moves) == Total(rows)
  {
    if rows != [] { ReachIsTotal(rows[..|rows| - 1], moves); }
  }

  lemma {:induction false} ReachUpdated(rows: seq<Row>, moves: seq<Move>, k: nat, r: Row)
    requires k < |rows| && r.key == rows[k].key
    ensures ReachTotal(rows[k := r], moves)
      == ReachTotal(rows, moves) - Reach(rows[k], Stage(moves, r.key)) + Reach(r, Stage(moves, r.key))
  {
    var last := |rows| - 1;
    if k == last {
      assert rows[k := r][..last] == rows[..last];
    } else {
      assert rows[k := r][..last] == rows[..last][k := r];
      ReachUpdated(rows[..last], moves, k, r);
    }
  }

  /** What holds of the ledger after a schedule that settles no key again. */
  ghost predicate Safe(rows: seq<Row>, moves: seq<Move>) {
    && UniqueKeys(rows) && RowsTold(rows, moves)
    && ReachTotal(rows, moves) <= CAP + SLACK * SettledRows(rows) as real
  }

  /** A move that changes no row. */
  lemma QuietSafe(rows: seq<Row>, moves: seq<Move>, m: Move)
    requires Safe(rows, moves)
    ensures Safe(rows, moves + [m])
  {
    forall x | 0 <= x < |rows|
      ensures RowTold(rows[x], moves + [m])
      ensures Reach(rows[x], Stage(moves + [m], rows[x].key)) <= Reach(rows[x], Stage(moves, rows[x].key))
    {
      assert RowTold(rows[x], moves);
      StageStep(moves, m, rows[x].key);
    }
    ReachFalls(rows, moves, moves + [m]);
  }

  lemma ReserveSafe(rows: seq<Row>, moves: seq<Move>, key: string, upper: real, free: int)
    requires Safe(rows, moves) && MayReserve(rows, key, upper, free)
    ensures Safe(rows + [Row(key, upper, None)], moves + [Reserve(key)])
  {
    var after, more := moves + [Reserve(key)], rows + [Row(key, upper, None)];
    forall x | 0 <= x < |rows|
      ensures RowTold(rows[x], after) && (rows[x].counted.Some? ==> Stage(after, rows[x].key) == 3)
    {
      assert RowTold(rows[x], moves) && rows[x].key != key;
      StageStep(moves, Reserve(key), rows[x].key);
    }
    StageStep(moves, Reserve(key), key);
    assert RowTold(more[|rows|], after);
    ReachIsTotal(more, after);
    TotalAppended(rows, Row(key, upper, None));
    assert SLACK * SettledRows(more) as real >= 0.0;
  }

  lemma SettleSafe(rows: seq<Row>, moves: seq<Move>, key: string, counted: real)
    requires Safe(rows, moves) && MaySettle(rows, key, counted) && Stage(moves, key) < 3
    ensures Safe(Settled(rows, key, counted), moves + [Settle(key)])
  {
    var k, after := Find(rows, key), moves + [Settle(key)];
    var r := rows[k].(counted := Some(counted));
    var more := rows[k := r];
    QuietSafe(rows, moves, Settle(key));
    StageStep(moves, Settle(key), key);
    assert RowTold(rows[k], moves);
    assert RowTold(r, after);
    forall x | 0 <= x < |more| ensures RowTold(more[x], after) {
      assert x != k ==> RowTold(rows[x], after);
    }
    ReachUpdated(rows, after, k, r);
    TotalUpdated(rows, k, r);
  }

  lemma {:induction false} LedgerSafe(entries: seq<Entry>)
    requires !Resettles(Schedule(entries))
    ensures Safe(Ledger(entries), Schedule(entries))
  {
    if entries != [] {
      var last := |entries| - 1;
      var e, front := entries[last], entries[..last];
      assert Schedule(entries) == Schedule(front) + [MoveOf(e)];
      if Resettles(Schedule(front)) { ShorterResettles(Schedule(front), MoveOf(e)); }
      LedgerSafe(front);
      EntrySafe(Ledger(front), Schedule(front), e);
    }
  }

  lemma EntrySafe(rows: seq<Row>, moves: seq<Move>, e: Entry)
    requires Safe(rows, moves) && !Resettles(moves + [MoveOf(e)])
    ensures Safe(Apply(rows, e), moves + [MoveOf(e)])
  {
    if e.Reserving? && MayReserve(rows, e.key, e.upper, e.free) {
      ReserveSafe(rows, moves, e.key, e.upper, e.free);
    } else if e.Settling? && MaySettle(rows, e.key, e.counted) {
      NotYetStale(moves, MoveOf(e));
      SettleSafe(rows, moves, e.key, e.counted);
    } else {
      QuietSafe(rows, moves, MoveOf(e));
    }
  }

  /**
   The cap holds over every interleaving in which no key is settled again after a reservation made since it was first
   settled: what is reserved or counted stays within the cap and one rounding allowance for each settled row.
   */
  lemma CapHolds(entries: seq<Entry>)
    requires !Resettles(Schedule(entries))
    ensures WithinCap(Ledger(entries))
  {
    LedgerSafe(entries);
    TotalWithinReach(Ledger(entries), Schedule(entries));
  }

  ghost predicate SettledOnce(entries: seq<Entry>) {
    forall i, j :: 0 <= i < j < |entries| && entries[i].Settling? && entries[j].Settling? ==>
      entries[i].key != entries[j].key
  }

  /** In particular when no key is settled twice. */
  lemma CapHoldsWhenSettledOnce(entries: seq<Entry>)
    requires SettledOnce(entries)
    ensures WithinCap(Ledger(entries))
  {
    var moves := Schedule(entries);
    forall h, i, j, k ensures !SettledAgain(moves, h, i, j, k) {
      if 0 <= h < i < j < k < |moves| {
        assert moves[i] == MoveOf(entries[i]) && moves[k] == MoveOf(entries[k]);
      }
    }
    CapHolds(entries);
  }

  // ----- amounts that break the cap -----

  /**
   Amounts for a schedule: two reservations of the whole cap, all others refused; the first of them settled at nothing
   until the second is made and in full from then on.
   */
  function AmountAt(m: Move, n: int, key: string, h: int, j: int): Entry {
    match m
    case Reserve(k) => Reserving(k, if n == h || n == j then CAP else -1.0, ROOM)
    case Settle(k) => Settling(k, if k == key && n < j then 0.0 else CAP)
  }

  function Amounts(moves: seq<Move>, key: string, h: int, j: int): seq<Entry> {
    seq(|moves|, n requires 0 <= n < |moves| => AmountAt(moves[n], n, key, h, j))
  }

  /** The ledger after the first `n` of these entries. */
  ghost predicate Breaking(rows: seq<Row>, n: int, key: string, other: string, h: int, i: int, j: int, k: int) {
    if n <= h then rows == []
    else if n <= j then
      && |rows| == 1 && rows[0].key == key && rows[0].reserved == CAP
      && (rows[0].counted == None || rows[0].counted == Some(0.0)) && (i < n ==> rows[0].counted == Some(0.0))
    else
      && |rows| == 2 && rows[0].key == key && rows[0].reserved == CAP && rows[1].key == other && rows[1].reserved == CAP
      && (rows[0].counted == Some(0.0) || rows[0].counted == Some(CAP)) && (k < n ==> rows[0].counted == Some(CAP))
      && (rows[1].counted == None || rows[1].counted == Some(CAP))
  }

  lemma OnlyRow(rows: seq<Row>)
    requires |rows| == 1
    ensures Total(rows) == Charge(rows[0]) && SettledRows(rows) <= 1
    ensures forall key :: HasKey(rows, key) <==> key == rows[0].key
  {
    assert rows[..0] == [];
    assert forall key :: key == rows[0].key ==> HasKey(rows, key);
  }

  lemma TwoRows(rows: seq<Row>)
    requires |rows| == 2 && rows[0].key != rows[1].key
    ensures Total(rows) == Charge(rows[0]) + Charge(rows[1]) && SettledRows(rows) <= 2
    ensures forall key :: HasKey(rows, key) <==> key == rows[0].key || key == rows[1].key
    ensures Find(rows, rows[0].key) == 0 && Find(rows, rows[1].key) == 1
  {
    assert rows[..1] == [rows[0]];
    OnlyRow(rows[..1]);
    assert HasKey(rows, rows[0].key) && HasKey(rows, rows[1].key);
  }

  lemma BreakingFirst(rows: seq<Row>, m: Move, n: nat, key: string, other: string, h: int, i: int, j: int, k: int)
    requires Breaking(rows, n, key, other, h, i, j, k) && key != other && n <= h < i < j < k
    requires n == h ==> m == Reserve(key)
    ensures Breaking(Apply(rows, AmountAt(m, n, key, h, j)), n + 1, key, other, h, i, j, k)
  {
    assert Total([]) == 0.0;
  }

  lemma BreakingOne(rows: seq<Row>, m: Move, n: nat, key: string, other: string, h: int, i: int, j: int, k: int)
    requires Breaking(rows, n, key, other, h, i, j, k) && key != other && h < i < j < k && h < n < j
    requires n == i ==> m == Settle(key)
    ensures Breaking(Apply(rows, AmountAt(m, n, key, h, j)), n + 1, key, other, h, i, j, k)
  {
    OnlyRow(rows);
  }

  lemma BreakingSecond(rows: seq<Row>, n: nat, key: string, other: string, h: int, i: int, j: int, k: int)
    requires Breaking(rows, n, key, other, h, i, j, k) && key != other && h < i < j < k && n == j
    ensures Breaking(Apply(rows, AmountAt(Reserve(other), n, key, h, j)), n + 1, key, other, h, i, j, k)
  {
    OnlyRow(rows);
  }

  lemma BreakingTwo(rows: seq<Row>, m: Move, n: nat, key: string, other: string, h: int, i: int, j: int, k: int)
    requires Breaking(rows, n, key, other, h, i, j, k) && key != other && h < i < j < k && j < n
    requires n == k ==> m == Settle(key)
    ensures Breaking(Apply(rows, AmountAt(m, n, key, h, j)), n + 1, key, other, h, i, j, k)
  {
    TwoRows(rows);
  }

  /** A schedule that settles a key again. */
  ghost predicate Witness(moves: seq<Move>, key: string, other: string, h: int, i: int, j: int, k: int) {
    && SettledAgain(moves, h, i, j, k) && moves[h].key == key && moves[j].key == other
  }

  lemma {:induction false} BreakingRun(
      moves: seq<Move>, n: nat, key: string, other: string, h: int, i: int, j: int, k: int)
    requires Witness(moves, key, other, h, i, j, k) && n <= |moves|
    ensures Breaking(Ledger(Amounts(moves, key, h, j)[..n]), n, key, other, h, i, j, k)
  {
    if n > 0 {
      BreakingRun(moves, n - 1, key, other, h, i, j, k);
      var entries := Amounts(moves, key, h, j);
      var rows, m := Ledger(entries[..n - 1]), moves[n - 1];
      assert entries[..n][..n - 1] == entries[..n - 1] && entries[..n][n - 1] == AmountAt(m, n - 1, key, h, j);
      if n - 1 <= h { BreakingFirst(rows, m, n - 1, key, other, h, i, j, k); }
      else if n - 1 < j { BreakingOne(rows, m, n - 1, key, other, h, i, j, k); }
      else if n - 1 == j { BreakingSecond(rows, n - 1, key, other, h, i, j, k); }
      else { BreakingTwo(rows, m, n - 1, key, other, h, i, j, k); }
    }
  }

  lemma AmountsBreak(moves: seq<Move>) returns (entries: seq<Entry>)
    requires Resettles(moves)
    ensures Schedule(entries) == moves && !WithinCap(Ledger(entries))
  {
    var h, i, j, k :| SettledAgain(moves, h, i, j, k);
    var key, other := moves[h].key, moves[j].key;
    entries := Amounts(moves, key, h, j);
    forall n | 0 <= n < |moves| ensures MoveOf(entries[n]) == moves[n] {
    }
    BreakingRun(moves, |moves|, key, other, h, i, j, k);
    assert entries[..|moves|] == entries;
    TwoRows(Ledger(entries));
  }

  /**
   Exactly when the cap is safe. A schedule says who reserves and settles which key, in which order. The ledger
   stays within the cap whatever the amounts are, if and only if no key is settled again after a reservation made
   since it was first settled.
   */
  lemma CapHoldsIff(moves: seq<Move>)
    ensures (forall entries :: Schedule(entries) == moves ==> WithinCap(Ledger(entries))) <==> !Resettles(moves)
  {
    if Resettles(moves) {
      var entries := AmountsBreak(moves);
    } else {
      forall entries | Schedule(entries) == moves ensures WithinCap(Ledger(entries)) {
        CapHolds(entries);
      }
    }
  }

  const ROW_A: Row := Row("a", CAP, None)

  const ROW_B: Row := Row("b", CAP, None)

  lemma FirstReservation()
    ensures Apply([], Reserving("a", CAP, ROOM)) == [ROW_A]
  {
  }

  lemma FirstRelease()
    ensures Apply([ROW_A], Settling("a", 0.0)) == [ROW_A.(counted := Some(0.0))]
  {
    assert [ROW_A][0].key == "a";
  }

  lemma SecondReservation()
    ensures Apply([ROW_A.(counted := Some(0.0))], Reserving("b", CAP, ROOM)) == [ROW_A.(counted := Some(0.0))] + [ROW_B]
  {
    TotalAppended([], ROW_A.(counted := Some(0.0)));
    assert [] + [ROW_A.(counted := Some(0.0))] == [ROW_A.(counted := Some(0.0))];
  }

  lemma SecondRelease()
    ensures Apply([ROW_A.(counted := Some(0.0))] + [ROW_B], Settling("a", CAP))
      == [ROW_A.(counted := Some(CAP))] + [ROW_B]
  {
    var rows := [ROW_A.(counted := Some(0.0))] + [ROW_B];
    assert rows[0].key == "a" && rows[1].key == "b";
    assert Find(rows, "a") == 0;
  }

  /**
   Settling one key twice breaks the cap: a charge that was set to nothing and is later restored is counted beside
   the one that took its place.
   */
  lemma SettledTwiceBreaksCap()
    ensures
      var rows := Apply(Apply(Apply(Apply([], Reserving("a", CAP, ROOM)), Settling("a", 0.0)),
        Reserving("b", CAP, ROOM)), Settling("a", CAP));
      Total(rows) == 2.0 * CAP && SettledRows(rows) == 1
  {
    FirstReservation();
    FirstRelease();
    SecondReservation();
    SecondRelease();
    TotalAppended([], ROW_A.(counted := Some(CAP)));
    assert [] + [ROW_A.(counted := Some(CAP))] == [ROW_A.(counted := Some(CAP))];
    TotalAppended([ROW_A.(counted := Some(CAP))], ROW_B);
  }

  // ----- guarded calls -----

  datatype Request = Sampling(prompt: nat, maxTokens: int) | Training(tokens: nat) | Forward(tokens: nat)

  /** The most a call can cost. */
  function Upper(r: Request): real {
    match r
    case Sampling(prompt, maxTokens) => (prompt as real * 0.18 + maxTokens as real * 0.45) / 1000000.0
    case Training(tokens) => tokens as real * 0.396 / 1000000.0
    case Forward(tokens) => tokens as real * 0.396 / 1000000.0
  }

  /** What a call that returned `generated` tokens is counted at. */
  function Cost(r: Request, generated: nat): real {
    match r
    case Sampling(prompt, _) => (prompt as real * 0.18 + generated as real * 0.45) / 1000000.0
    case _ => Upper(r)
  }

  /**
   A settlement is refused just when more tokens came back than were asked for; one token is far above the
   allowance.
   */
  lemma RefusedIfOverlong(r: Request, generated: nat)
    ensures Cost(r, generated) <= Upper(r) + SLACK <==> (r.Sampling? ==> generated <= r.maxTokens)
    ensures Cost(r, generated) <= Upper(r) + SLACK ==> Cost(r, generated) <= Upper(r)
  {
    if r.Sampling? && generated > r.maxTokens {
      assert generated as real >= r.maxTokens as real + 1.0;
    }
  }

  /** `Lost` is a call that failed after its reservation, or whose settlement was refused. */
  datatype Phase =
    | Asked
    | Refused
    | Holding(key: string)
    | Answered(key: string, generated: nat)
    | Done(key: string, generated: nat)
    | Lost(key: string)

  datatype Call = Call(request: Request, phase: Phase)

  datatype State = State(rows: seq<Row>, calls: seq<Call>)

  datatype Step =
    | Ask(request: Request)
    | Hold(call: nat, key: string, free: int)
    | Answer(call: nat, generated: nat)
    | Break(call: nat)
    | Close(call: nat)

  predicate Enabled(s: State, step: Step) {
    match step
    case Ask(_) => true
    case Hold(i, _, _) => i < |s.calls| && s.calls[i].phase.Asked?
    case Answer(i, _) => i < |s.calls| && s.calls[i].phase.Holding?
    case Break(i) => i < |s.calls| && (s.calls[i].phase.Holding? || s.calls[i].phase.Answered?)
    case Close(i) => i < |s.calls| && s.calls[i].phase.Answered?
  }

  function Do(s: State, step: Step): State
    requires Enabled(s, step)
  {
    match step
    case Ask(request) => s.(calls := s.calls + [Call(request, Asked)])
    case Hold(i, key, free) =>
      var upper := Upper(s.calls[i].request);
      var phase := if MayReserve(s.rows, key, upper, free) then Holding(key) else Refused;
      State(Reserved(s.rows, key, upper, free), s.calls[i := s.calls[i].(phase := phase)])
    case Answer(i, generated) =>
      s.(calls := s.calls[i := s.calls[i].(phase := Answered(s.calls[i].phase.key, generated))])
    case Break(i) => s.(calls := s.calls[i := s.calls[i].(phase := Lost(s.calls[i].phase.key))])
    case Close(i) =>
      var Answered(key, generated) := s.calls[i].phase;
      var counted := Cost(s.calls[i].request, generated);
      var phase := if MaySettle(s.rows, key, counted) then Done(key, generated) else Lost(key);
      State(Settled(s.rows, key, counted), s.calls[i := s.calls[i].(phase := phase)])
  }

  predicate Owns(c: Call) { c.phase.Holding? || c.phase.Answered? || c.phase.Done? || c.phase.Lost? }

  /** The row of a call: at its upper bound until it is done, then at most that. */
  ghost predicate RowFits(rows: seq<Row>, c: Call) {
    Owns(c) ==>
      && HasKey(rows, c.phase.key)
      && var row := rows[Find(rows, c.phase.key)];
         && row.reserved == Upper(c.request)
         && row.counted == (if c.phase.Done? then Some(Cost(c.request, c.phase.generated)) else None)
         && Charge(row) <= row.reserved
  }

  /** What a call comes to: its upper bound from its reservation on, and what it cost once it is settled. */
  function Counts(c: Call): real {
    match c.phase
    case Done(_, generated) => Cost(c.request, generated)
    case Holding(_) => Upper(c.request)
    case Answered(_, _) => Upper(c.request)
    case Lost(_) => Upper(c.request)
    case _ => 0.0
  }

  function CallsTotal(calls: seq<Call>): real {
    if calls == [] then 0.0 else CallsTotal(calls[..|calls| - 1]) + Counts(calls[|calls| - 1])
  }

  lemma {:induction false} CallChanged(calls: seq<Call>, i: nat, c: Call)
    requires i < |calls|
    ensures CallsTotal(calls[i := c]) == CallsTotal(calls) - Counts(calls[i]) + Counts(c)
  {
    var last := |calls| - 1;
    if i == last {
      assert calls[i := c][..last] == calls[..last];
    } else {
      assert calls[i := c][..last] == calls[..last][i := c];
      CallChanged(calls[..last], i, c);
    }
  }

  ghost predicate Inv(s: State) {
    && UniqueKeys(s.rows)
    && Total(s.rows) <= CAP && Total(s.rows) == CallsTotal(s.calls)
    && (forall i :: 0 <= i < |s.calls| ==> RowFits(s.rows, s.calls[i]))
    && (forall i, j :: 0 <= i < j < |s.calls| && Owns(s.calls[i]) && Owns(s.calls[j]) ==>
      s.calls[i].phase.key != s.calls[j].phase.key)
  }

  lemma FitsAfterAppend(rows: seq<Row>, r: Row, c: Call)
    requires UniqueKeys(rows + [r]) && RowFits(rows, c)
    ensures RowFits(rows + [r], c)
  {
    if Owns(c) {
      var k := Find(rows, c.phase.key);
      FindIsUnique(rows + [r], k);
    }
  }

  lemma FitsAfterUpdate(rows: seq<Row>, k: nat, counted: real, c: Call)
    requires UniqueKeys(rows) && k < |rows| && RowFits(rows, c) && (Owns(c) ==> c.phase.key != rows[k].key)
    ensures RowFits(rows[k := rows[k].(counted := Some(counted))], c)
  {
    var after := rows[k := rows[k].(counted := Some(counted))];
    if Owns(c) {
      FindIsUnique(after, Find(rows, c.phase.key));
    }
  }

  lemma RefusedKeeps(s: State, i: nat)
    requires Inv(s) && i < |s.calls| && s.calls[i].phase.Asked?
    ensures Inv(s.(calls := s.calls[i := s.calls[i].(phase := Refused)]))
  {
    CallChanged(s.calls, i, s.calls[i].(phase := Refused));
  }

  /** The other calls' rows, and the new one. */
  lemma HeldFits(s: State, i: nat, key: string)
    requires Inv(s) && i < |s.calls| && s.calls[i].phase.Asked? && !HasKey(s.rows, key)
    ensures
      var row, c := Row(key, Upper(s.calls[i].request), None), s.calls[i].(phase := Holding(key));
      var rows, calls := s.rows + [row], s.calls[i := c];
      UniqueKeys(rows) && forall j :: 0 <= j < |calls| ==> RowFits(rows, calls[j])
  {
    var row, c := Row(key, Upper(s.calls[i].request), None), s.calls[i].(phase := Holding(key));
    var rows, calls := s.rows + [row], s.calls[i := c];
    assert UniqueKeys(rows);
    FindIsUnique(rows, |s.rows|);
    forall j | 0 <= j < |calls| ensures RowFits(rows, calls[j]) {
      if j != i { FitsAfterAppend(s.rows, row, s.calls[j]); }
    }
  }

  lemma HeldKeeps(s: State, i: nat, key: string)
    requires Inv(s) && i < |s.calls| && s.calls[i].phase.Asked? && !HasKey(s.rows, key)
    requires Total(s.rows) + Upper(s.calls[i].request) <= CAP
    ensures Inv(State(s.rows + [Row(key, Upper(s.calls[i].request), None)],
      s.calls[i := s.calls[i].(phase := Holding(key))]))
  {
    HeldFits(s, i, key);
    TotalAppended(s.rows, Row(key, Upper(s.calls[i].request), None));
    CallChanged(s.calls, i, s.calls[i].(phase := Holding(key)));
  }

  lemma HoldKeeps(s: State, i: nat, key: string, free: int)
    requires Inv(s) && Enabled(s, Hold(i, key, free))
    ensures Inv(Do(s, Hold(i, key, free)))
  {
    if MayReserve(s.rows, key, Upper(s.calls[i].request), free) {
      HeldKeeps(s, i, key);
    } else {
      RefusedKeeps(s, i);
    }
  }

  lemma CloseKeeps(s: State, i: nat)
    requires Inv(s) && Enabled(s, Close(i))
    ensures Inv(Do(s, Close(i)))
  {
    var Answered(key, generated) := s.calls[i].phase;
    var counted := Cost(s.calls[i].request, generated);
    var next := Do(s, Close(i));
    RefusedIfOverlong(s.calls[i].request, generated);
    assert RowFits(s.rows, s.calls[i]);
    CallChanged(s.calls, i, next.calls[i]);
    if MaySettle(s.rows, key, counted) {
      var k := Find(s.rows, key);
      TotalUpdated(s.rows, k, s.rows[k].(counted := Some(counted)));
      FindIsUnique(next.rows, k);
      forall j | 0 <= j < |s.calls| && j != i ensures RowFits(next.rows, next.calls[j]) {
        FitsAfterUpdate(s.rows, k, counted, s.calls[j]);
      }
    }
  }

  lemma AskKeeps(s: State, request: Request)
    requires Inv(s)
    ensures Inv(Do(s, Ask(request)))
  {
    assert (s.calls + [Call(request, Asked)])[..|s.calls|] == s.calls;
  }

  /** A call that holds a reservation goes on holding it. */
  lemma PhaseKeeps(s: State, i: nat, c: Call)
    requires Inv(s) && i < |s.calls| && (s.calls[i].phase.Holding? || s.calls[i].phase.Answered?)
    requires c.request == s.calls[i].request && (c.phase.Answered? || c.phase.Lost?)
    requires c.phase.key == s.calls[i].phase.key
    ensures Inv(s.(calls := s.calls[i := c]))
  {
    assert RowFits(s.rows, s.calls[i]);
    CallChanged(s.calls, i, c);
  }

  lemma StepKeeps(s: State, step: Step)
    requires Inv(s) && Enabled(s, step)
    ensures Inv(Do(s, step))
  {
    match step
    case Hold(i, key, free) => HoldKeeps(s, i, key, free);
    case Close(i) => CloseKeeps(s, i);
    case Ask(request) => AskKeeps(s, request);
    case Answer(i, _) => PhaseKeeps(s, i, Do(s, step).calls[i]);
    case Break(i) => PhaseKeeps(s, i, Do(s, step).calls[i]);
  }

  ghost predicate Runs(s: State, steps: seq<Step>, t: State)
    decreases |steps|
  {
    if steps == [] then s == t else Enabled(s, steps[0]) && Runs(Do(s, steps[0]), steps[1..], t)
  }

  lemma {:induction false} RunKeeps(s: State, steps: seq<Step>, t: State)
    requires Inv(s) && Runs(s, steps, t)
    ensures Inv(t)
    decreases |steps|
  {
    if steps != [] {
      StepKeeps(s, steps[0]);
      RunKeeps(Do(s, steps[0]), steps[1..], t);
    }
  }

  /** A call that is over stays over, and so does its row. */
  lemma StepKeepsLost(s: State, step: Step, i: nat)
    requires Inv(s) && Enabled(s, step) && i < |s.calls| && s.calls[i].phase.Lost?
    ensures i < |Do(s, step).calls| && Do(s, step).calls[i] == s.calls[i]
  {
  }

  lemma {:induction false} RunKeepsLost(s: State, steps: seq<Step>, t: State, i: nat)
    requires Inv(s) && Runs(s, steps, t) && i < |s.calls| && s.calls[i].phase.Lost?
    ensures i < |t.calls| && t.calls[i] == s.calls[i]
    decreases |steps|
  {
    if steps != [] {
      StepKeepsLost(s, steps[0], i);
      StepKeeps(s, steps[0]);
      RunKeepsLost(Do(s, steps[0]), steps[1..], t, i);
    }
  }

  /**
   In every interleaving of guarded calls by any number of processes, the ledger never exceeds the cap at all; and
   its total is what the calls come to, each at its upper bound until it is settled and at its cost from then on.
   */
  lemma GuardedCap(steps: seq<Step>, t: State)
    requires Runs(State([], []), steps, t)
    ensures Total(t.rows) <= CAP && Total(t.rows) == CallsTotal(t.calls)
  {
    RunKeeps(State([], []), steps, t);
  }

  /**
   A call that failed after its reservation, or whose settlement was refused, keeps its full upper bound in the
   total however the run goes on.
   */
  lemma FailedCallKeepsReservation(before: seq<Step>, s: State, steps: seq<Step>, t: State, i: nat)
    requires Runs(State([], []), before, s) && Runs(s, steps, t) && i < |s.calls| && s.calls[i].phase.Lost?
    ensures
      var key := s.calls[i].phase.key;
      HasKey(t.rows, key) && t.rows[Find(t.rows, key)] == Row(key, Upper(s.calls[i].request), None)
  {
    RunKeeps(State([], []), before, s);
    RunKeepsLost(s, steps, t, i);
    RunKeeps(s, steps, t);
    assert RowFits(t.rows, t.calls[i]);
  }

  /** A call can fail once its reservation is made; here is one, which keeps the cap's place for good. */
  lemma CallMayFail(request: Request, key: string)
    requires 0.0 <= Upper(request) <= CAP
    ensures
      var steps := [Ask(request), Hold(0, key, ROOM), Break(0)];
      Runs(State([], []), steps, State([Row(key, Upper(request), None)], [Call(request, Lost(key))]))
  {
    var s0, s1 := State([], []), State([], [Call(request, Asked)]);
    var s2 := State([Row(key, Upper(request), None)], [Call(request, Holding(key))]);
    var s3 := State([Row(key, Upper(request), None)], [Call(request, Lost(key))]);
    var steps := [Ask(request), Hold(0, key, ROOM), Break(0)];
    assert Do(s0, steps[0]) == s1;
    assert Do(s1, Hold(0, key, ROOM)) == s2;
    assert Do(s2, Break(0)) == s3;
    assert steps[1..] == [Hold(0, key, ROOM), Break(0)] && steps[1..][1..] == [Break(0)] && steps[1..][1..][1..] == [];
    assert Runs(s3, [], s3);
    assert Runs(s2, [Break(0)], s3);
    assert Runs(s1, [Hold(0, key, ROOM), Break(0)], s3);
  }

  /** The price list, in dollars for a million tokens; prices add up, and what was sampled costs what it came to. */
  lemma Prices(a: nat, b: nat)
    ensures Upper(Sampling(1000000, 0)) == 0.18 && Upper(Sampling(0, 1000000)) == 0.45
    ensures Upper(Training(1000000)) == 0.396 && Upper(Forward(1000000)) == 0.396
    ensures Upper(Sampling(a, b)) == Upper(Sampling(a, 0)) + Upper(Sampling(0, b))
    ensures Upper(Sampling(a + b, 0)) == Upper(Sampling(a, 0)) + Upper(Sampling(b, 0))
    ensures Upper(Sampling(0, a + b)) == Upper(Sampling(0, a)) + Upper(Sampling(0, b))
    ensures Upper(Training(a + b)) == Upper(Training(a)) + Upper(Training(b))
    ensures Upper(Forward(a)) == Upper(Training(a))
    ensures forall n: nat ::
      Cost(Sampling(a, b), n) == Upper(Sampling(a, n)) && Cost(Training(a), n) == Upper(Training(a))
  {
  }
}
