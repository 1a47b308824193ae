/**
 * What a budget group's period has spent and holds (src/core/budget-groups.ts),
 * as functions of the run table. Money is in micro-dollars, times in
 * milliseconds. A run's id is its row's position, which stands for the rank of
 * its string id; a parent id at or past the end of the table names a missing row.
 */
module BudgetGroups {
  import opened Common
  import opened Sums

  datatype Status = Pending | Running | Terminal

  /** The part of a CodingRun row that dispatch reserved. */
  datatype Coding = Coding(reserved: nat, timeoutSec: nat)

  datatype Run = Run(agent: nat, status: Status, cost: nat, startedAt: int, heartbeatAt: Option<int>,
                     parent: Option<nat>, coding: Option<Coding>)

  datatype Agent = Agent(budget: nat, group: Option<nat>, overrunPercent: nat)

  /** A group's caps; an unset cap is None. */
  datatype Caps = Caps(daily: Option<nat>, weekly: Option<nat>, monthly: Option<nat>)

  datatype Db = Db(runs: seq<Run>, agents: seq<Agent>, groups: seq<Caps>)

  // ---- time ---------------------------------------------------------------

  const HEARTBEAT_TIMEOUT_MS := 45_000
  const RECONCILE_INTERVAL_MS := 15_000
  const HOLD_HEARTBEAT_TTL_MS := HEARTBEAT_TIMEOUT_MS + RECONCILE_INTERVAL_MS
  const CODING_HOLD_GRACE_SEC := 60
  const DAY_MS := 86_400_000
  /** The smallest reservable amount is the unit all amounts are counted in. */
  const MIN_RESERVATION := 1
  const MAX_TREE_DEPTH: nat := 32

  datatype Period = Day | Week | Month

  /** The clock as one call sees it, with the UTC start of its month and the configured coding queue timeout. */
  datatype Moment = Moment(now: int, monthStart: int, queueTimeoutSec: nat)

  /** Calendar-aligned UTC start; a week starts on Monday 00:00 (day 0 of the epoch was a Thursday). */
  function PeriodStart(p: Period, at: Moment): int {
    var day := at.now / DAY_MS;
    match p
    case Day => day * DAY_MS
    case Week => (day - (day + 3) % 7) * DAY_MS
    case Month => at.monthStart
  }

  predicate IsHoldLive(r: Run, at: Moment) {
    if r.status == Terminal then false
    else
      var lastSign := if r.heartbeatAt.Some? then r.heartbeatAt.value else r.startedAt;
      if at.now - lastSign <= HOLD_HEARTBEAT_TTL_MS then true
      else
        r.coding.Some? &&
        at.now <= r.startedAt + (at.queueTimeoutSec + r.coding.value.timeoutSec + CODING_HOLD_GRACE_SEC) * 1000
  }

  /** A run's place in first-come-first-served order: startedAt, then id. */
  datatype RunOrder = RunOrder(id: nat, startedAt: int)

  predicate IsOrderedBefore(a: RunOrder, b: RunOrder) {
    a.startedAt < b.startedAt || (a.startedAt == b.startedAt && a.id < b.id)
  }

  // ---- run trees ----------------------------------------------------------

  /** The n-th ancestor's id, whether or not that row exists. */
  function Up(runs: seq<Run>, x: nat, n: nat): Option<nat>
    decreases n
  {
    if n == 0 then Some(x)
    else if x < |runs| && runs[x].parent.Some? then Up(runs, runs[x].parent.value, n - 1)
    else None
  }

  predicate IsRoot(runs: seq<Run>, r: nat) {
    r < |runs| && runs[r].parent == None
  }

  /** x is root or below it, at any depth. */
  ghost predicate InTree(runs: seq<Run>, root: nat, x: nat) {
    x < |runs| && exists n: nat :: Up(runs, x, n) == Some(root)
  }

  function RootWithin(runs: seq<Run>, x: nat, edges: nat): Option<nat>
    decreases edges
  {
    if x >= |runs| then None
    else
      match runs[x].parent
      case None => Some(x)
      case Some(p) => if edges == 0 then None else RootWithin(runs, p, edges - 1)
  }

  /** The run's tree root, when its parent chain reaches one within MAX_TREE_DEPTH edges. */
  function RootOf(runs: seq<Run>, x: nat): Option<nat> {
    RootWithin(runs, x, MAX_TREE_DEPTH)
  }

  // ---- group spend --------------------------------------------------------

  datatype SpendOptions = SpendOptions(excludeReservations: set<nat>, excludeRuns: set<nat>,
                                       holdsBefore: Option<RunOrder>)

  /** The group seen whole: every live hold counts. */
  const WHOLE := SpendOptions({}, {}, None)

  /** One computeGroupSpend call: the tables, the members' budgets, the moment, the options. */
  datatype View = View(db: Db, members: map<nat, nat>, at: Moment, opts: SpendOptions)

  /** A member's run that started since the month began and is not left out. */
  predicate Counted(v: View, i: nat) {
    i < |v.db.runs| && v.db.runs[i].agent in v.members && v.db.runs[i].startedAt >= v.at.monthStart &&
    i !in v.opts.excludeRuns
  }

  predicate Holds(v: View, i: nat)
    requires i < |v.db.runs|
  {
    i !in v.opts.excludeReservations &&
    (v.opts.holdsBefore.None? || IsOrderedBefore(RunOrder(i, v.db.runs[i].startedAt), v.opts.holdsBefore.value)) &&
    IsHoldLive(v.db.runs[i], v.at)
  }

  function Reservation(v: View, r: Run): nat {
    if r.coding.Some? then r.coding.value.reserved
    else if r.agent in v.members then v.members[r.agent] else 0
  }

  /** What a run holds inside a tree: its own reservation, by its own agent. */
  function TreeReservation(db: Db, r: Run): nat {
    if r.coding.Some? then r.coding.value.reserved
    else if r.agent < |db.agents| then db.agents[r.agent].budget else 0
  }

  function Unspent(reservation: nat, r: Run): nat {
    Max(0, reservation - r.cost)
  }

  /** A counted, holding root that a counted sub-run resolves to: it holds its whole tree. */
  ghost predicate HeldRoot(v: View, root: nat) {
    Counted(v, root) && Holds(v, root) &&
    exists i :: Counted(v, i) && i != root && RootOf(v.db.runs, i) == Some(root)
  }

  ghost function TreeCostAt(runs: seq<Run>, root: nat, j: nat): nat {
    if j < |runs| && InTree(runs, root, j) then runs[j].cost else 0
  }

  ghost function TreeCostColumn(runs: seq<Run>, root: nat): seq<int> {
    seq(|runs|, j requires 0 <= j => TreeCostAt(runs, root, j))
  }

  ghost function TreeCost(runs: seq<Run>, root: nat): int {
    Sum(TreeCostColumn(runs, root))
  }

  ghost function ChildHoldAt(v: View, root: nat, j: nat): nat {
    if j < |v.db.runs| && InTree(v.db.runs, root, j) && j != root && j !in v.opts.excludeReservations &&
       IsHoldLive(v.db.runs[j], v.at)
    then Unspent(TreeReservation(v.db, v.db.runs[j]), v.db.runs[j]) else 0
  }

  ghost function ChildHoldColumn(v: View, root: nat): seq<int> {
    seq(|v.db.runs|, j requires 0 <= j => ChildHoldAt(v, root, j))
  }

  ghost function ChildHolds(v: View, root: nat): int {
    Sum(ChildHoldColumn(v, root))
  }

  /** A held root holds its reservation less its tree's cost, and at least what the runs below it hold. */
  ghost function TreeHold(v: View, root: nat): int
    requires root < |v.db.runs|
  {
    Max(Reservation(v, v.db.runs[root]) - TreeCost(v.db.runs, root), ChildHolds(v, root))
  }

  ghost function OwnReserved(v: View, i: nat): nat
    requires i < |v.db.runs|
  {
    if HeldRoot(v, i) then Max(0, TreeHold(v, i))
    else if Holds(v, i) then Unspent(Reservation(v, v.db.runs[i]), v.db.runs[i])
    else 0
  }

  /** The run spends inside the hold of a root that started in the window. */
  ghost predicate InsideHeldTree(v: View, start: int, i: nat)
    requires i < |v.db.runs|
  {
    var root := RootOf(v.db.runs, i);
    root.Some? && root.value != i && HeldRoot(v, root.value) && v.db.runs[root.value].startedAt >= start
  }

  ghost predicate InWindow(v: View, start: int, i: nat) {
    Counted(v, i) && v.db.runs[i].startedAt >= start
  }

  ghost function CostAt(v: View, start: int, i: nat): nat {
    if InWindow(v, start, i) then v.db.runs[i].cost else 0
  }

  ghost function ReservedAt(v: View, start: int, i: nat): nat {
    if InWindow(v, start, i) && !InsideHeldTree(v, start, i) then OwnReserved(v, i) else 0
  }

  ghost function CostColumn(v: View, start: int): seq<int> {
    seq(|v.db.runs|, i requires 0 <= i => CostAt(v, start, i))
  }

  ghost function ReservedColumn(v: View, start: int): seq<int> {
    seq(|v.db.runs|, i requires 0 <= i => ReservedAt(v, start, i))
  }

  ghost function HeldColumn(v: View, start: int): seq<int> {
    seq(|v.db.runs|, i requires 0 <= i => if ReservedAt(v, start, i) > 0 then 1 else 0)
  }

  ghost function Spent(v: View, start: int): int { Sum(CostColumn(v, start)) }

  ghost function Reserved(v: View, start: int): int { Sum(ReservedColumn(v, start)) }

  datatype PeriodSpend = PeriodSpend(period: Period, cap: nat, spent: int, reserved: int, remaining: int, heldRuns: int)

  ghost function SpendOf(v: View, p: Period, cap: nat): PeriodSpend {
    var start := PeriodStart(p, v.at);
    PeriodSpend(p, cap, Spent(v, start), Reserved(v, start), Max(0, cap - Spent(v, start) - Reserved(v, start)),
                Sum(HeldColumn(v, start)))
  }

  function CapOf(caps: Caps, p: Period): Option<nat> {
    match p
    case Day => caps.daily
    case Week => caps.weekly
    case Month => caps.monthly
  }

  ghost function SpendIfCapped(v: View, caps: Caps, p: Period): seq<PeriodSpend> {
    var cap := CapOf(caps, p);
    if cap.Some? then [SpendOf(v, p, cap.value)] else []
  }

  /** computeGroupSpend: the configured periods, in day, week, month order. */
  ghost function GroupSpend(v: View, caps: Caps): seq<PeriodSpend> {
    SpendIfCapped(v, caps, Day) + SpendIfCapped(v, caps, Week) + SpendIfCapped(v, caps, Month)
  }
}
