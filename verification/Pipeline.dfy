/**
 The bounded-staleness training pipeline: rollout groups are sampled from the checkpoint that was current when they
 were submitted, and wait in a queue while training goes on. The gateway gives every group its own route, and a
 rollout's calls read the route table at whatever moment they happen to be made.
 */
module Pipeline {
  import opened Basics
  import opened Digits

  datatype Config = Config(
    steps: int, trainCalls: int, cardinality: int, maxParallel: int, asynchronous: bool, maxStaleness: int,
      queueDepth: int)
  {
    /** How many groups are submitted before the first update. */
    function Depth(): int { Min(steps, if asynchronous then queueDepth else 1) }
  }

  datatype Checkpoint = Checkpoint(reference: string, step: nat)

  datatype Route = Route(checkpoint: Checkpoint, version: nat)

  type Table = map<string, Route>

  /** One engine call of a rollout, by the lengths that must agree. */
  datatype EngineCall = EngineCall(prompt: nat, generated: nat, logprobs: nat)

  datatype Reply = Broken | Completed(reward: real, calls: seq<EngineCall>)

  /**
   Everything outside the pipeline: what each rollout of an update's group returns, at which moment each of its calls
   reaches the gateway, when a reward group carries no signal, and what the provider names its checkpoints.
   */
  datatype World = World(
    reply: (nat, nat) -> Reply, moment: (nat, nat, nat) -> nat, flat: seq<real> -> bool, reference: nat -> string)

  datatype Fault =
    | Rejected(flag: string)
    | RouteTaken
    | NothingQueued
    | OutOfOrder
    | RolloutFailed(member: nat)
    | MixedCalls(member: nat)
    | Misaligned(member: nat)
    | MixedGroup
    | Stale
    | TooSmall

  datatype Row = Row(reward: real, reference: string, version: nat, segments: nat)

  datatype Queued = Queued(update: nat, since: nat)

  /** `checkpoint` is the one saved at the end of the update. */
  datatype Record = Record(
    update: nat, version: nat, staleness: int, rewards: seq<real>, skipped: bool, queue: seq<nat>,
      checkpoint: Checkpoint)

  datatype Outcome =
    | Finished(records: seq<Record>, trainCalls: nat, checkpoint: Checkpoint)
    | Failed(records: seq<Record>, fault: Fault)

  // ----- the gateway -----

  class Gateway {
    /** Every route table so far, the current one last. */
    var tables: seq<Table>

    ghost predicate Valid()
      reads this
    {
      tables != [] && forall i, j :: 0 <= i <= j < |tables| ==> Keeps(tables[i], tables[j])
    }

    constructor ()
      ensures Valid() && tables == [map[]]
    {
      tables := [map[]];
    }

    /** A route may be registered again with the same value; otherwise the call is refused and nothing changes. */
    method Register(route: string, checkpoint: Checkpoint, version: nat) returns (ok: bool)
      requires Valid()
      modifies this
      ensures Valid()
      ensures var now := old(tables[|tables| - 1]);
        && (ok <==> route !in now || now[route] == Route(checkpoint, version))
        && tables == if ok then old(tables) + [now[route := Route(checkpoint, version)]] else old(tables)
    {
      var now := tables[|tables| - 1];
      ok := route !in now || now[route] == Route(checkpoint, version);
      if ok {
        tables := tables + [now[route := Route(checkpoint, version)]];
      }
    }
  }

  /** No route of the earlier table is lost or changed in the later one. */
  ghost predicate Keeps(a: Table, b: Table) {
    forall r :: r in a ==> r in b && a[r] == b[r]
  }

  /** The route of an update's group: `u` and at least two digits. */
  function Phase(update: nat): string {
    (if update < 10 then "u0" else "u") + Decimal(update)
  }

  lemma {:induction false} ValueAfterZero(s: string)
    ensures ValueOf("0" + s) == ValueOf(s)
  {
    if s == "" {
      assert ("0")[..0] == "";
    } else {
      var t := "0" + s;
      assert t[..|t| - 1] == "0" + s[..|s| - 1];
      ValueAfterZero(s[..|s| - 1]);
    }
  }

  lemma PhaseValue(update: nat)
    ensures ValueOf(Phase(update)[1..]) == update
  {
    DecimalRoundTrip(update);
    if update < 10 {
      assert Phase(update)[1..] == "0" + Decimal(update);
      ValueAfterZero(Decimal(update));
    } else {
      assert Phase(update)[1..] == Decimal(update);
    }
  }

  /** Two updates never share a route. */
  lemma PhasesDiffer(a: nat, b: nat)
    requires Phase(a) == Phase(b)
    ensures a == b
  {
    PhaseValue(a);
    PhaseValue(b);
  }

  // ----- a group's rows -----

  /** The table that a call sees: the one of its moment, which is between the group's submission and now. */
  function SeenBy(w: World, tables: seq<Table>, g: Queued, member: nat, call: nat): Table
    requires g.since < |tables|
  {
    tables[Max(g.since, Min(w.moment(g.update, member, call), |tables| - 1))]
  }

  function CallRoutes(w: World, tables: seq<Table>, g: Queued, member: nat, calls: nat): Option<set<Route>>
    requires g.since < |tables|
  {
    if calls == 0 then Some({})
    else
      var before := CallRoutes(w, tables, g, member, calls - 1);
      var table := SeenBy(w, tables, g, member, calls - 1);
      if before.None? || Phase(g.update) !in table then None
      else Some(before.value + {table[Phase(g.update)]})
  }

  function References(routes: set<Route>): set<string> { set r | r in routes :: r.checkpoint.reference }

  function Versions(routes: set<Route>): set<nat> { set r | r in routes :: r.version }

  predicate Aligned(c: EngineCall) { c.prompt > 0 && c.generated > 0 && c.generated == c.logprobs }

  function RowOf(w: World, tables: seq<Table>, g: Queued, member: nat): Result<Row, Fault>
    requires g.since < |tables|
  {
    match w.reply(g.update, member)
    case Broken => Err(RolloutFailed(member))
    case Completed(reward, calls) =>
      var routes := CallRoutes(w, tables, g, member, |calls|);
      if calls == [] || routes.None? then Err(RolloutFailed(member))
      else if |References(routes.value)| != 1 || |Versions(routes.value)| != 1 then Err(MixedCalls(member))
      else if exists k :: 0 <= k < |calls| && !Aligned(calls[k]) then Err(Misaligned(member))
      else Ok(Row(reward, Only(References(routes.value)), Only(Versions(routes.value)), |calls|))
  }

  function Only<T>(s: set<T>): T
    requires |s| == 1
  {
    OnlyOne(s);
    var v :| v in s; v
  }

  lemma OnlyOne<T>(s: set<T>)
    requires |s| == 1
    ensures exists v :: v in s && s == {v}
  {
    var v :| v in s;
    assert |s - {v}| == 0;
    assert s == {v};
  }

  function Rows(w: World, tables: seq<Table>, g: Queued, members: nat): Result<seq<Row>, Fault>
    requires g.since < |tables|
  {
    if members == 0 then Ok([])
    else
      var before := Rows(w, tables, g, members - 1);
      if before.Err? then before
      else
        var row := RowOf(w, tables, g, members - 1);
        if row.Err? then Err(row.error) else Ok(before.value + [row.value])
  }

  /** The rollout came back with at least one call, all of them aligned. */
  predicate Sound(w: World, update: nat, member: nat) {
    var reply := w.reply(update, member);
    && reply.Completed? && reply.calls != []
    && forall k :: 0 <= k < |reply.calls| ==>
      var call := reply.calls[k]; 0 < call.prompt && 0 < call.generated == call.logprobs
  }

  function RewardOf(w: World, update: nat, member: nat): real {
    var reply := w.reply(update, member);
    if reply.Completed? then reply.reward else 0.0
  }

  /** From the group's submission on, its name in the table leads to one route. */
  ghost predicate Routed(tables: seq<Table>, g: Queued, route: Route) {
    && g.since < |tables|
    && (forall i :: g.since <= i < |tables| ==> Phase(g.update) in tables[i] && tables[i][Phase(g.update)] == route)
  }

  lemma {:induction false} CallsAgree(w: World, tables: seq<Table>, g: Queued, route: Route, member: nat, calls: nat)
    requires Routed(tables, g, route)
    ensures CallRoutes(w, tables, g, member, calls) == Some(if calls == 0 then {} else {route})
  {
    if calls > 0 {
      CallsAgree(w, tables, g, route, member, calls - 1);
      var table := SeenBy(w, tables, g, member, calls - 1);
      assert table[Phase(g.update)] == route;
      assert (if calls == 1 then {} else {route}) + {route} == {route};
    }
  }

  lemma OneRoute(route: Route)
    ensures References({route}) == {route.checkpoint.reference} && Versions({route}) == {route.version}
  {
  }

  /** The row of a rollout that was sampled along a route. */
  ghost predicate FromRoute(w: World, update: nat, member: nat, route: Route, row: Row) {
    && row.version == route.version && row.reference == route.checkpoint.reference
    && row.reward == RewardOf(w, update, member)
  }

  /** Whenever its calls are made, a rollout samples the checkpoint its group was submitted with, at its version. */
  lemma RowAgrees(w: World, tables: seq<Table>, g: Queued, route: Route, member: nat)
    requires Routed(tables, g, route)
    ensures var row := RowOf(w, tables, g, member);
      if Sound(w, g.update, member) then row.Ok? && FromRoute(w, g.update, member, route, row.value)
      else row.Err? && (row.error == RolloutFailed(member) || row.error == Misaligned(member))
  {
    var reply := w.reply(g.update, member);
    if reply.Completed? {
      CallsAgree(w, tables, g, route, member, |reply.calls|);
      OneRoute(route);
    }
  }

  /** The first member, if any, whose rollout is unusable. */
  ghost predicate FirstUnsound(w: World, update: nat, members: nat, fault: Fault) {
    exists m: nat :: m < members && !Sound(w, update, m) && (forall k: nat :: k < m ==> Sound(w, update, k))
      && (fault == RolloutFailed(m) || fault == Misaligned(m))
  }

  ghost predicate AllSound(w: World, update: nat, members: nat) {
    forall m: nat :: m < members ==> Sound(w, update, m)
  }

  /** What the rows of a group come to: all of them along the group's route, or the first fault. */
  ghost predicate RowsFit(w: World, update: nat, route: Route, members: nat, rows: Result<seq<Row>, Fault>) {
    if AllSound(w, update, members)
    then
      && rows.Ok? && |rows.value| == members
      && forall k :: 0 <= k < members ==> FromRoute(w, update, k, route, rows.value[k])
    else rows.Err? && FirstUnsound(w, update, members, rows.error)
  }

  lemma OneMoreRow(w: World, update: nat, route: Route, members: nat, before: Result<seq<Row>, Fault>,
      row: Result<Row, Fault>)
    requires RowsFit(w, update, route, members, before)
    requires if Sound(w, update, members) then row.Ok? && FromRoute(w, update, members, route, row.value)
      else row.Err? && (row.error == RolloutFailed(members) || row.error == Misaligned(members))
    ensures RowsFit(w, update, route, members + 1,
      if before.Err? then before else if row.Err? then Err(row.error) else Ok(before.value + [row.value]))
  {
  }

  lemma {:induction false} RowsAgree(w: World, tables: seq<Table>, g: Queued, route: Route, members: nat)
    requires Routed(tables, g, route)
    ensures RowsFit(w, g.update, route, members, Rows(w, tables, g, members))
  {
    if members > 0 {
      RowsAgree(w, tables, g, route, members - 1);
      RowAgrees(w, tables, g, route, members - 1);
      OneMoreRow(w, g.update, route, members - 1, Rows(w, tables, g, members - 1), RowOf(w, tables, g, members - 1));
    }
  }

  // ----- one update -----

  datatype Verdict = Verdict(version: nat, rewards: seq<real>)

  function Judge(w: World, tables: seq<Table>, queue: seq<Queued>, update: nat, cardinality: int,
      bound: int): Result<Verdict, Fault>
  {
    if queue == [] then Err(NothingQueued)
    else if queue[0].update != update then Err(OutOfOrder)
    else if queue[0].since >= |tables| then Err(RolloutFailed(0))
    else
      var rows := Rows(w, tables, queue[0], Max(0, cardinality));
      if rows.Err? then Err(rows.error) else JudgeRows(rows.value, update, bound)
  }

  function JudgeRows(rows: seq<Row>, update: nat, bound: int): Result<Verdict, Fault> {
    var versions := set k | 0 <= k < |rows| :: rows[k].version;
    if |versions| != 1 then Err(MixedGroup)
    else
      var staleness := update - 1 - Only(versions);
      if staleness < 0 || staleness > bound then Err(Stale)
      else if |rows| < 2 then Err(TooSmall)
      else Ok(Verdict(Only(versions), seq(|rows|, k requires 0 <= k < |rows| => rows[k].reward)))
  }

  lemma JudgeSoundRows(w: World, rows: seq<Row>, update: nat, bound: int, version: nat)
    requires version < update && AllSound(w, update, |rows|)
    requires forall k :: 0 <= k < |rows| ==> rows[k].version == version && rows[k].reward == RewardOf(w, update, k)
    ensures Judged(w, update, |rows|, bound, version, JudgeRows(rows, update, bound))
  {
    var versions := set k | 0 <= k < |rows| :: rows[k].version;
    if rows != [] {
      assert rows[0].version in versions;
      assert versions == {version};
    } else {
      assert versions == {};
    }
  }

  /** The version that update's group is sampled from: the one `depth` updates back. */
  function VersionFor(update: nat, depth: int): nat { Max(0, update - depth) }

  /** The checkpoint saved at the end of an update, or before the first one. */
  function Saved(w: World, update: nat): Checkpoint { Checkpoint(w.reference(update), update) }

  function RouteFor(w: World, update: nat, depth: int): Route {
    var version := VersionFor(update, depth);
    Route(Saved(w, version), version)
  }

  /** What becomes of an update whose group is at the head of the queue. */
  ghost predicate Judged(w: World, update: nat, cardinality: int, bound: int, version: nat, r: Result<Verdict, Fault>) {
    var staleness := update - 1 - version;
    if cardinality <= 0 then r == Err(MixedGroup)
    else if !AllSound(w, update, cardinality) then r.Err? && FirstUnsound(w, update, cardinality, r.error)
    else if staleness > bound then r == Err(Stale)
    else if cardinality == 1 then r == Err(TooSmall)
    else r.Ok? && r.value.version == version && r.value.rewards == RewardsOf(w, update, cardinality)
  }

  /** The rewards of a group whose rollouts all came back. */
  function RewardsOf(w: World, update: nat, members: nat): seq<real> {
    seq(members, m requires 0 <= m < members => RewardOf(w, update, m))
  }

  lemma JudgeHead(w: World, tables: seq<Table>, queue: seq<Queued>, update: nat, cardinality: int, bound: int,
      route: Route)
    requires queue != [] && queue[0].update == update && Routed(tables, queue[0], route) && route.version < update
    ensures Judged(w, update, cardinality, bound, route.version, Judge(w, tables, queue, update, cardinality, bound))
  {
    var n := Max(0, cardinality);
    RowsAgree(w, tables, queue[0], route, n);
    var rows := Rows(w, tables, queue[0], n);
    if rows.Ok? {
      JudgeSoundRows(w, rows.value, update, bound, route.version);
    }
  }

  // ----- the queue -----

  /** The updates `first` through `last`, in order, each routed to its checkpoint. */
  ghost predicate QueueOk(w: World, tables: seq<Table>, queue: seq<Queued>, first: int, last: int, depth: int) {
    && |queue| == Max(0, last - first + 1)
    && (forall k :: 0 <= k < |queue| ==>
          queue[k].update == first + k && Routed(tables, queue[k], RouteFor(w, queue[k].update, depth)))
    && RoutesOk(w, tables, depth)
  }

  /** At every moment, the route of a group submitted by then holds just the group's checkpoint and version. */
  ghost predicate RoutesOk(w: World, tables: seq<Table>, depth: int) {
    forall i, u: nat :: 0 <= i < |tables| && Phase(u) in tables[i] ==> tables[i][Phase(u)] == RouteFor(w, u, depth)
  }

  /** There are routes for the updates before `next`, and no others yet. */
  ghost predicate ClaimedBefore(tables: seq<Table>, next: int) {
    tables != [] && forall u: nat :: u >= 1 ==> (Phase(u) in tables[|tables| - 1] <==> u < next)
  }

  method Submit(gateway: Gateway, queue: seq<Queued>, update: nat, checkpoint: Checkpoint)
    returns (ok: bool, after: seq<Queued>)
    requires gateway.Valid()
    modifies gateway
    ensures gateway.Valid()
    ensures ok <==> Free(old(gateway.tables), update, checkpoint)
    ensures ok ==> gateway.tables == Claimed(old(gateway.tables), update, checkpoint)
    ensures ok ==> after == queue + [Queued(update, |gateway.tables| - 1)]
  {
    ok := gateway.Register(Phase(update), checkpoint, checkpoint.step);
    after := queue + [Queued(update, |gateway.tables| - 1)];
  }

  predicate Free(tables: seq<Table>, update: nat, checkpoint: Checkpoint)
    requires tables != []
  {
    var now := tables[|tables| - 1];
    Phase(update) !in now || now[Phase(update)] == Route(checkpoint, checkpoint.step)
  }

  function Claimed(tables: seq<Table>, update: nat, checkpoint: Checkpoint): seq<Table>
    requires tables != []
  {
    tables + [tables[|tables| - 1][Phase(update) := Route(checkpoint, checkpoint.step)]]
  }

  lemma ClaimKeepsRoute(tables: seq<Table>, g: Queued, route: Route, update: nat, checkpoint: Checkpoint)
    requires tables != [] && Routed(tables, g, route) && g.update != update
    ensures Routed(Claimed(tables, update, checkpoint), g, route)
  {
    if Phase(g.update) == Phase(update) {
      PhasesDiffer(g.update, update);
    }
  }

  /** Submitting the next group extends the queue by it and leaves the later routes free. */
  lemma SubmitKeeps(w: World, tables: seq<Table>, queue: seq<Queued>, first: int, next: nat, depth: int,
      checkpoint: Checkpoint)
    requires QueueOk(w, tables, queue, first, next - 1, depth) && ClaimedBefore(tables, next) && first <= next
    requires checkpoint == Saved(w, VersionFor(next, depth))
    ensures Free(tables, next, checkpoint)
    ensures QueueOk(w, Claimed(tables, next, checkpoint), queue + [Queued(next, |tables|)], first, next, depth)
    ensures ClaimedBefore(Claimed(tables, next, checkpoint), next + 1)
  {
    var later := Claimed(tables, next, checkpoint);
    forall k | 0 <= k < |queue| ensures Routed(later, queue[k], RouteFor(w, queue[k].update, depth)) {
      ClaimKeepsRoute(tables, queue[k], RouteFor(w, queue[k].update, depth), next, checkpoint);
    }
    assert Routed(later, Queued(next, |tables|), RouteFor(w, next, depth));
    forall u: nat | Phase(u) in later[|tables|] ensures later[|tables|][Phase(u)] == RouteFor(w, u, depth) {
      if Phase(u) == Phase(next) { PhasesDiffer(u, next); }
    }
    forall u: nat | u >= 1 ensures Phase(u) in later[|later| - 1] <==> u < next + 1 {
      if Phase(u) == Phase(next) {
        PhasesDiffer(u, next);
      }
    }
  }

  method Prefill(ghost w: World, gateway: Gateway, depth: int, checkpoint: Checkpoint)
    returns (ok: bool, queue: seq<Queued>)
    requires gateway.tables == [map[]] && gateway.Valid() && checkpoint == Saved(w, 0)
    modifies gateway
    ensures gateway.Valid() && ok
    ensures QueueOk(w, gateway.tables, queue, 1, depth, depth) && ClaimedBefore(gateway.tables, Max(0, depth) + 1)
  {
    queue := [];
    ok := true;
    var next := 1;
    while ok && next <= depth
      invariant gateway.Valid() && 1 <= next <= Max(0, depth) + 1
      invariant ok && QueueOk(w, gateway.tables, queue, 1, next - 1, depth) && ClaimedBefore(gateway.tables, next)
      decreases depth - next
    {
      SubmitKeeps(w, gateway.tables, queue, 1, next, depth, checkpoint);
      ok, queue := Submit(gateway, queue, next, checkpoint);
      next := next + 1;
    }
  }

  // ----- the run -----

  function Updates(queue: seq<Queued>): seq<nat> {
    seq(|queue|, k requires 0 <= k < |queue| => queue[k].update)
  }

  function CountTrained(records: seq<Record>): nat {
    if records == [] then 0
    else CountTrained(records[..|records| - 1]) + if records[|records| - 1].skipped then 0 else 1
  }

  /** The record of update `u`: its group, its staleness and the queue it found, all fixed by the configuration. */
  ghost predicate Regular(c: Config, w: World, u: nat, r: Record) {
    && r.update == u && r.version == VersionFor(u, c.Depth()) && r.checkpoint == Saved(w, u)
    && r.staleness == Min(u, c.Depth()) - 1 <= c.maxStaleness
    && c.cardinality >= 2 && AllSound(w, u, c.cardinality)
    && r.rewards == RewardsOf(w, u, c.cardinality) && r.skipped == w.flat(r.rewards)
    && |r.queue| == Min(c.steps, u + c.Depth() - 1) - u + 1
    && forall k :: 0 <= k < |r.queue| ==> r.queue[k] == u + k
  }

  ghost predicate AllRegular(c: Config, w: World, records: seq<Record>) {
    && |records| <= Max(0, c.steps)
    && forall k :: 0 <= k < |records| ==> Regular(c, w, k + 1, records[k])
  }

  /** The target number of training calls is reached. */
  predicate Reached(c: Config, records: seq<Record>) {
    c.trainCalls != 0 && CountTrained(records) >= c.trainCalls
  }

  ghost predicate Explained(c: Config, w: World, r: Outcome) {
    && AllRegular(c, w, r.records)
    && (forall k :: 0 < k < |r.records| ==> !Reached(c, r.records[..k]))
    && match r
       case Finished(records, trainCalls, checkpoint) =>
         && trainCalls == CountTrained(records) && checkpoint == Saved(w, |records|)
         && (|records| == Max(0, c.steps) || (records != [] && Reached(c, records)))
       case Failed(records, fault) =>
         var u := |records| + 1;
         && u <= c.steps && (records != [] ==> !Reached(c, records))
         && Judged(w, u, c.cardinality, c.maxStaleness, VersionFor(u, c.Depth()), Err(fault))
  }

  // ----- one turn of the loop -----

  function RecordOf(w: World, u: nat, verdict: Verdict, queue: seq<Queued>): Record {
    Record(u, verdict.version, u - 1 - verdict.version, verdict.rewards, w.flat(verdict.rewards), Updates(queue),
      Checkpoint(w.reference(u), u))
  }

  lemma TurnIsRegular(c: Config, w: World, tables: seq<Table>, queue: seq<Queued>, u: nat, last: int,
      v: Result<Verdict, Fault>)
    requires 1 <= u <= c.steps && c.Depth() >= 1 && last == Min(c.steps, u - 1 + c.Depth())
    requires QueueOk(w, tables, queue, u, last, c.Depth())
    requires v.Ok? && Judged(w, u, c.cardinality, c.maxStaleness, VersionFor(u, c.Depth()), v)
    ensures Regular(c, w, u, RecordOf(w, u, v.value, queue))
  {
  }

  lemma HeadAndTail(w: World, tables: seq<Table>, queue: seq<Queued>, first: int, last: int, depth: int)
    requires QueueOk(w, tables, queue, first, last, depth) && first <= last
    ensures queue != [] && queue[0].update == first && Routed(tables, queue[0], RouteFor(w, queue[0].update, depth))
    ensures QueueOk(w, tables, queue[1..], first + 1, last, depth)
  {
  }

  ghost predicate NotBefore(c: Config, records: seq<Record>) {
    forall k :: 0 < k <= |records| ==> !Reached(c, records[..k])
  }

  lemma OneMore(c: Config, w: World, records: seq<Record>, r: Record)
    requires AllRegular(c, w, records) && |records| < c.steps && Regular(c, w, |records| + 1, r)
    requires NotBefore(c, records)
    ensures var more := records + [r];
      && AllRegular(c, w, more) && CountTrained(more) == CountTrained(records) + (if r.skipped then 0 else 1)
      && (forall k :: 0 < k < |more| ==> !Reached(c, more[..k]))
      && (NotBefore(c, more) <==> !Reached(c, more))
  {
    var more := records + [r];
    assert more[..|records|] == records && more[..|more|] == more;
    forall k | 0 < k < |more| ensures !Reached(c, more[..k]) {
      assert more[..k] == records[..k];
    }
  }

  /** The state between updates: `u - 1` updates are recorded and the groups from `u` to before `next` are queued. */
  ghost predicate Between(c: Config, w: World, tables: seq<Table>, queue: seq<Queued>, u: nat, next: nat,
      records: seq<Record>)
  {
    && 1 <= u <= Max(0, c.steps) + 1 && |records| == u - 1
    && next == Max(0, Min(c.steps, u - 1 + c.Depth())) + 1
    && QueueOk(w, tables, queue, u, next - 1, c.Depth()) && ClaimedBefore(tables, next)
    && AllRegular(c, w, records) && NotBefore(c, records)
  }

  lemma TurnVerdict(c: Config, w: World, tables: seq<Table>, queue: seq<Queued>, u: nat, next: nat,
      records: seq<Record>)
    requires Between(c, w, tables, queue, u, next, records) && u <= c.steps && c.queueDepth >= 1
    ensures queue != []
    ensures
      var verdict := Judge(w, tables, queue, u, c.cardinality, c.maxStaleness);
      && (verdict.Err? ==> Explained(c, w, Failed(records, verdict.error)))
      && (verdict.Ok? ==> Regular(c, w, u, RecordOf(w, u, verdict.value, queue)))
  {
    HeadAndTail(w, tables, queue, u, next - 1, c.Depth());
    JudgeHead(w, tables, queue, u, c.cardinality, c.maxStaleness, RouteFor(w, u, c.Depth()));
    var verdict := Judge(w, tables, queue, u, c.cardinality, c.maxStaleness);
    if verdict.Ok? {
      TurnIsRegular(c, w, tables, queue, u, next - 1, verdict);
    } else {
      assert records[..|records|] == records;
    }
  }

  /** The same state, after update `u` is recorded and its group popped, before the next group is submitted. */
  ghost predicate Popped(c: Config, w: World, tables: seq<Table>, queue: seq<Queued>, u: nat, next: nat,
      records: seq<Record>)
  {
    && 1 <= u <= c.steps && |records| == u
    && next == Min(c.steps, u - 1 + c.Depth()) + 1
    && QueueOk(w, tables, queue, u + 1, next - 1, c.Depth()) && ClaimedBefore(tables, next)
    && AllRegular(c, w, records) && NotBefore(c, records)
  }

  lemma TurnRecorded(c: Config, w: World, tables: seq<Table>, queue: seq<Queued>, u: nat, next: nat,
      records: seq<Record>,
      r: Record)
    requires Between(c, w, tables, queue, u, next, records) && u <= c.steps && c.queueDepth >= 1
    requires Regular(c, w, u, r)
    ensures queue != []
    ensures var more := records + [r];
      && CountTrained(more) == CountTrained(records) + (if r.skipped then 0 else 1)
      && if Reached(c, more) then Explained(c, w, Finished(more, CountTrained(more), r.checkpoint))
         else Popped(c, w, tables, queue[1..], u, next, more)
  {
    HeadAndTail(w, tables, queue, u, next - 1, c.Depth());
    OneMore(c, w, records, r);
  }

  method Refill(c: Config, ghost w: World, gateway: Gateway, queue: seq<Queued>, ghost u: nat, next: nat,
      ghost records: seq<Record>, checkpoint: Checkpoint)
    returns (ok: bool, after: seq<Queued>, following: nat)
    requires gateway.Valid() && Popped(c, w, gateway.tables, queue, u, next, records)
    requires checkpoint == Saved(w, u) && c.queueDepth >= 1
    modifies gateway
    ensures gateway.Valid() && ok && Between(c, w, gateway.tables, after, u + 1, following, records)
  {
    ok, after, following := true, queue, next;
    if next <= c.steps {
      SubmitKeeps(w, gateway.tables, queue, u + 1, next, c.Depth(), checkpoint);
      ok, after := Submit(gateway, queue, next, checkpoint);
      following := next + 1;
    }
  }

  /** Judge the group at the head of the queue, and train on it or skip it. */
  method TakeTurn(c: Config, w: World, tables: seq<Table>, queue: seq<Queued>, u: nat, ghost next: nat,
      ghost records: seq<Record>)
    returns (turn: Result<Record, Fault>)
    requires Between(c, w, tables, queue, u, next, records) && u <= c.steps && c.queueDepth >= 1
    ensures queue != []
    ensures turn.Err? ==> Explained(c, w, Failed(records, turn.error))
    ensures turn.Ok? ==>
      var more := records + [turn.value];
      && CountTrained(more) == CountTrained(records) + (if turn.value.skipped then 0 else 1)
      && turn.value.checkpoint == Saved(w, u)
      && if Reached(c, more) then Explained(c, w, Finished(more, CountTrained(more), turn.value.checkpoint))
         else Popped(c, w, tables, queue[1..], u, next, more)
  {
    TurnVerdict(c, w, tables, queue, u, next, records);
    var verdict := Judge(w, tables, queue, u, c.cardinality, c.maxStaleness);
    if verdict.Err? { return Err(verdict.error); }
    var record := RecordOf(w, u, verdict.value, queue);
    TurnRecorded(c, w, tables, queue, u, next, records, record);
    turn := Ok(record);
  }

  lemma TurnZero(c: Config, w: World, tables: seq<Table>, queue: seq<Queued>)
    requires QueueOk(w, tables, queue, 1, c.Depth(), c.Depth()) && ClaimedBefore(tables, Max(0, c.Depth()) + 1)
    ensures Between(c, w, tables, queue, 1, Max(0, c.Depth()) + 1, [])
  {
  }

  lemma TurnLast(c: Config, w: World, tables: seq<Table>, queue: seq<Queued>, u: nat, next: nat, records: seq<Record>,
      checkpoint: Checkpoint)
    requires Between(c, w, tables, queue, u, next, records) && u > c.steps && checkpoint == Saved(w, u - 1)
    ensures Explained(c, w, Finished(records, CountTrained(records), checkpoint))
  {
  }

  /** Every route is right at every moment, and there is one for each update through `u`. */
  ghost predicate Routes(c: Config, w: World, tables: seq<Table>, u: nat) {
    && RoutesOk(w, tables, c.Depth())
    && tables != [] && forall v: nat :: 1 <= v <= u ==> Phase(v) in tables[|tables| - 1]
  }

  /** One update: its group is judged and trained on, and the next group submitted, unless the run is over. */
  method Turn(c: Config, w: World, gateway: Gateway, queue: seq<Queued>, u: nat, next: nat, records: seq<Record>,
      trainCalls: nat)
    returns (stop: Option<Outcome>, ok: bool, rest: seq<Queued>, following: nat, more: seq<Record>, calls: nat)
    requires c.queueDepth >= 1 && gateway.Valid() && trainCalls == CountTrained(records)
    requires Between(c, w, gateway.tables, queue, u, next, records) && u <= c.steps
    modifies gateway
    ensures gateway.Valid() && ok && calls == CountTrained(more)
    ensures stop.Some? ==> Explained(c, w, stop.value) && Routes(c, w, gateway.tables, |stop.value.records|)
    ensures stop.None? ==> Between(c, w, gateway.tables, rest, u + 1, following, more)
  {
    stop, ok, rest, following, more, calls := None, true, queue, next, records, trainCalls;
    var turn := TakeTurn(c, w, gateway.tables, queue, u, next, records);
    if turn.Err? {
      stop := Some(Failed(records, turn.error));
    } else {
      more := records + [turn.value];
      calls := if turn.value.skipped then trainCalls else trainCalls + 1;
      if c.trainCalls != 0 && calls >= c.trainCalls {
        stop := Some(Finished(more, calls, turn.value.checkpoint));
      } else {
        ok, rest, following := Refill(c, w, gateway, queue[1..], u, next, more, turn.value.checkpoint);
      }
    }
  }

  method TrainLoop(c: Config, w: World, gateway: Gateway) returns (r: Outcome)
    requires c.queueDepth >= 1 && gateway.tables == [map[]] && gateway.Valid()
    modifies gateway
    ensures Explained(c, w, r)
    ensures gateway.Valid() && Routes(c, w, gateway.tables, |r.records|)
  {
    var ok, queue := Prefill(w, gateway, c.Depth(), Checkpoint(w.reference(0), 0));
    var next: nat := Max(0, c.Depth()) + 1;
    var records, trainCalls, u: nat := [], 0, 1;
    TurnZero(c, w, gateway.tables, queue);
    while ok && u <= c.steps
      invariant gateway.Valid() && ok && trainCalls == CountTrained(records)
      invariant Between(c, w, gateway.tables, queue, u, next, records)
    {
      var stop;
      stop, ok, queue, next, records, trainCalls := Turn(c, w, gateway, queue, u, next, records, trainCalls);
      if stop.Some? { return stop.value; }
      u := u + 1;
    }
    var checkpoint := Checkpoint(w.reference(u - 1), u - 1);
    TurnLast(c, w, gateway.tables, queue, u, next, records, checkpoint);
    r := if ok then Finished(records, trainCalls, checkpoint) else Failed(records, RouteTaken);
  }

  // ----- accepted configurations -----

  /** The checks made on the command line, in order. */
  function Refusal(c: Config): Option<Fault> {
    if c.maxStaleness < 0 then Some(Rejected("max-staleness"))
    else if c.queueDepth < 1 then Some(Rejected("queue-depth"))
    else if c.trainCalls < 0 then Some(Rejected("train-calls"))
    else if c.trainCalls > c.steps then Some(Rejected("steps"))
    else if c.asynchronous && c.maxStaleness < c.queueDepth - 1 then Some(Rejected("staleness below queue depth"))
    else if c.maxParallel < 1 then Some(Rejected("max-parallel"))
    else None
  }

  /** A run is refused just for one of these. */
  predicate Acceptable(c: Config) {
    && 0 <= c.maxStaleness && 1 <= c.queueDepth && 0 <= c.trainCalls <= c.steps && 1 <= c.maxParallel
    && (c.asynchronous ==> c.queueDepth <= c.maxStaleness + 1)
  }

  /**
   A run of an accepted configuration. Every update's staleness is `min(u, D) - 1` and its queue holds exactly the
   groups `u .. min(steps, u + D - 1)`; a run fails only for a rollout that failed or a group of fewer than two,
   never for an empty queue, a group out of order, a taken route, mixed versions of a non-empty group, or staleness.
   */
  method RunPipeline(c: Config, w: World) returns (r: Outcome)
    ensures !Acceptable(c) ==> r.Failed? && r.records == [] && r.fault.Rejected?
    ensures Acceptable(c) ==> Explained(c, w, r)
    ensures Acceptable(c) && r.Failed? ==>
      || (c.cardinality <= 0 && r.fault == MixedGroup)
      || (c.cardinality == 1 && AllSound(w, |r.records| + 1, 1) && r.fault == TooSmall)
      || (c.cardinality >= 1 && FirstUnsound(w, |r.records| + 1, c.cardinality, r.fault))
  {
    var refusal := Refusal(c);
    if refusal.Some? { return Failed([], refusal.value); }
    var gateway := new Gateway();
    r := TrainLoop(c, w, gateway);
  }

  /**
   What the staleness flag is for: a run with enough sound rollouts and without the command-line check fails for
   staleness just when the queue is deeper than the bound allows, and then at the first update that could be too
   stale.
   */
  lemma StaleOnlyIfDeeper(c: Config, w: World, r: Outcome)
    requires Explained(c, w, r) && c.Depth() >= 1 && c.maxStaleness >= 0
    ensures r.Failed? && r.fault == Stale ==> c.Depth() - 1 > c.maxStaleness && |r.records| == c.maxStaleness + 1
    ensures c.Depth() - 1 > c.maxStaleness ==> |r.records| <= c.maxStaleness + 1
    ensures
      var deeper := c.Depth() - 1 > c.maxStaleness;
      var sound := c.cardinality >= 2 && forall u: nat :: AllSound(w, u, c.cardinality);
      deeper && sound && c.trainCalls == 0 ==> r == Failed(r.records, Stale)
  {
    if r.records != [] {
      assert Regular(c, w, |r.records|, r.records[|r.records| - 1]);
    }
  }
}
