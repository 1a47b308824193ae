/**
 * The ledger of top-level runs as a state machine: native runs are created and
 * later load their budget first come, first served; coding runs reserve at
 * dispatch and are topped up; runs spend, beat, finish and lapse. No
 * interleaving lets a period's recorded cost pass its cap.
 */
module LedgerColumns {
  import opened Sums

  /**
   * The inductive invariant, over one window's columns: the cost, the hold and
   * the unspent grant of each run, in order. Whoever may still spend fits under
   * the cap together with the holds before it.
   */
  ghost predicate Budgeted(cost: seq<int>, hold: seq<int>, unspent: seq<int>, cap: int) {
    |cost| == |hold| == |unspent| &&
    (forall i :: 0 <= i < |cost| ==> 0 <= cost[i] && 0 <= unspent[i] <= hold[i]) &&
    Sum(cost) <= cap &&
    forall i :: 0 <= i < |cost| && unspent[i] > 0 ==> Sum(cost) + Sum(hold[..i]) + unspent[i] <= cap
  }

  /** The latest run that may still spend bounds every earlier one: the holds before it cover them. */
  lemma EarlierFits(hold: seq<int>, unspent: seq<int>, k: nat, i: nat)
    requires k < i < |hold| == |unspent|
    requires forall j :: 0 <= j < |hold| ==> 0 <= unspent[j] <= hold[j]
    ensures Sum(hold[..k]) + unspent[k] <= Sum(hold[..i])
  {
    SumPrefixStep(hold, k);
    SumPrefixBelow(hold[..i], k + 1);
    assert hold[..i][..k + 1] == hold[..k + 1];
  }

  /** Columns that agree except in row k. */
  ghost predicate AgreeBut(xs: seq<int>, ys: seq<int>, k: nat) {
    k < |xs| == |ys| && forall i :: 0 <= i < |xs| && i != k ==> ys[i] == xs[i]
  }

  lemma SpendKeeps(cost: seq<int>, hold: seq<int>, unspent: seq<int>, cap: int, k: nat, x: int,
                   cost': seq<int>, hold': seq<int>, unspent': seq<int>)
    requires Budgeted(cost, hold, unspent, cap) && k < |cost| && 0 <= x <= unspent[k]
    requires AgreeBut(cost, cost', k) && AgreeBut(hold, hold', k) && AgreeBut(unspent, unspent', k)
    requires cost'[k] == cost[k] + x && hold'[k] == hold[k] - x && unspent'[k] == unspent[k] - x
    ensures Budgeted(cost', hold', unspent', cap)
  {
    SumPoint(cost, cost', k);
    SumNonNegative(hold[..k]);
    forall i | 0 <= i < |cost| && unspent'[i] > 0 ensures Sum(cost') + Sum(hold'[..i]) + unspent'[i] <= cap {
      if i < k {
        EarlierFits(hold, unspent, i, k);
        assert hold'[..i] == hold[..i];
      } else if i == k {
        assert hold'[..i] == hold[..i];
      } else {
        SumPoint(hold[..i], hold'[..i], k);
      }
    }
  }

  lemma ShrinkKeeps(cost: seq<int>, hold: seq<int>, unspent: seq<int>, cap: int,
                    cost': seq<int>, hold': seq<int>, unspent': seq<int>)
    requires Budgeted(cost, hold, unspent, cap)
    requires |cost'| == |hold'| == |unspent'| == |cost|
    requires forall i :: 0 <= i < |cost| ==>
               0 <= cost'[i] <= cost[i] && hold'[i] <= hold[i] && 0 <= unspent'[i] <= unspent[i] && unspent'[i] <= hold'[i]
    ensures Budgeted(cost', hold', unspent', cap)
  {
    SumMonotone(cost', cost);
    forall i | 0 <= i < |cost| && unspent'[i] > 0 ensures Sum(cost') + Sum(hold'[..i]) + unspent'[i] <= cap {
      SumMonotone(hold'[..i], hold[..i]);
    }
  }

  lemma AppendKeeps(cost: seq<int>, hold: seq<int>, unspent: seq<int>, cap: int, h: int, u: int,
                    cost': seq<int>, hold': seq<int>, unspent': seq<int>)
    requires Budgeted(cost, hold, unspent, cap) && 0 <= u <= h
    requires u > 0 ==> Sum(cost) + Sum(hold) + u <= cap
    requires cost' == cost + [0] && hold' == hold + [h] && unspent' == unspent + [u]
    ensures Budgeted(cost', hold', unspent', cap)
  {
    var n := |cost|;
    SumAppend(cost, 0);
    forall i | 0 <= i <= n && unspent'[i] > 0 ensures Sum(cost') + Sum(hold'[..i]) + unspent'[i] <= cap {
      assert hold'[..i] == hold[..i];
      assert hold[..n] == hold;
    }
  }

  lemma LoadKeeps(cost: seq<int>, hold: seq<int>, unspent: seq<int>, cap: int, k: nat, unspent': seq<int>)
    requires Budgeted(cost, hold, unspent, cap) && AgreeBut(unspent, unspent', k) && 0 <= unspent'[k] <= hold[k]
    requires unspent'[k] > 0 ==> Sum(cost) + Sum(hold[..k]) + unspent'[k] <= cap
    ensures Budgeted(cost, hold, unspent', cap)
  {
  }

  /** New money: the room counted every hold, so no run ordered later had it in its own share. */
  lemma RaiseKeeps(cost: seq<int>, hold: seq<int>, unspent: seq<int>, cap: int, k: nat, g: int,
                   hold': seq<int>, unspent': seq<int>)
    requires Budgeted(cost, hold, unspent, cap) && AgreeBut(hold, hold', k) && AgreeBut(unspent, unspent', k)
    requires 0 <= unspent'[k] <= hold'[k] <= hold[k] + g && g >= 0
    requires Sum(cost) + Sum(hold) + g <= cap
    ensures Budgeted(cost, hold', unspent', cap)
  {
    SumPoint(hold, hold', k);
    forall i | 0 <= i < |cost| && unspent'[i] > 0 ensures Sum(cost) + Sum(hold'[..i]) + unspent'[i] <= cap {
      SumPrefixStep(hold', i);
      SumPrefixBelow(hold', i + 1);
    }
  }

  /** Row k's grown hold fits exactly when row k, and whoever may still spend after it, fits beside it. */
  lemma GrowthKeepsIff(cost: seq<int>, hold: seq<int>, unspent: seq<int>, cap: int, k: nat,
                       hold': seq<int>, unspent': seq<int>)
    requires Budgeted(cost, hold, unspent, cap) && AgreeBut(hold, hold', k) && AgreeBut(unspent, unspent', k)
    requires 0 <= unspent'[k] <= hold'[k] && hold[k] <= hold'[k]
    ensures Budgeted(cost, hold', unspent', cap) <==>
            (unspent'[k] > 0 ==> Sum(cost) + Sum(hold[..k]) + unspent'[k] <= cap) &&
            forall i :: k < i < |cost| && unspent[i] > 0 ==>
              Sum(cost) + Sum(hold[..i]) + hold'[k] - hold[k] + unspent[i] <= cap
  {
    var more := hold'[k] - hold[k];
    if Budgeted(cost, hold', unspent', cap) {
      PrefixGrows(hold, hold', k, k);
      forall i | k < i < |cost| && unspent[i] > 0 ensures Sum(cost) + Sum(hold[..i]) + more + unspent[i] <= cap {
        PrefixGrows(hold, hold', k, i);
        assert unspent'[i] == unspent[i];
      }
    } else if (unspent'[k] > 0 ==> Sum(cost) + Sum(hold[..k]) + unspent'[k] <= cap) &&
              forall i :: k < i < |cost| && unspent[i] > 0 ==> Sum(cost) + Sum(hold[..i]) + more + unspent[i] <= cap {
      GrowthKeeps(cost, hold, unspent, cap, k, hold', unspent');
    }
  }

  lemma GrowthKeeps(cost: seq<int>, hold: seq<int>, unspent: seq<int>, cap: int, k: nat,
                    hold': seq<int>, unspent': seq<int>)
    requires Budgeted(cost, hold, unspent, cap) && AgreeBut(hold, hold', k) && AgreeBut(unspent, unspent', k)
    requires 0 <= unspent'[k] <= hold'[k] && hold[k] <= hold'[k]
    requires unspent'[k] > 0 ==> Sum(cost) + Sum(hold[..k]) + unspent'[k] <= cap
    requires forall i :: k < i < |cost| && unspent[i] > 0 ==>
               Sum(cost) + Sum(hold[..i]) + hold'[k] - hold[k] + unspent[i] <= cap
    ensures Budgeted(cost, hold', unspent', cap)
  {
    forall i | 0 <= i < |cost| && unspent'[i] > 0 ensures Sum(cost) + Sum(hold'[..i]) + unspent'[i] <= cap {
      PrefixGrows(hold, hold', k, i);
    }
  }

  lemma PrefixGrows(hold: seq<int>, hold': seq<int>, k: nat, i: nat)
    requires AgreeBut(hold, hold', k) && i <= |hold|
    ensures Sum(hold'[..i]) == Sum(hold[..i]) + if i <= k then 0 else hold'[k] - hold[k]
  {
    if i <= k {
      assert hold'[..i] == hold[..i];
    } else {
      SumPoint(hold[..i], hold'[..i], k);
    }
  }

  /** Whoever may still spend fits together: the cost and all unspent grants are within the cap. */
  lemma UnspentFits(cost: seq<int>, hold: seq<int>, unspent: seq<int>, cap: int)
    requires Budgeted(cost, hold, unspent, cap)
    ensures Sum(cost) + Sum(unspent) <= cap
  {
    UnspentFitsUpTo(cost, hold, unspent, cap, |cost|);
    assert unspent[..|cost|] == unspent;
  }

  lemma {:induction false} UnspentFitsUpTo(cost: seq<int>, hold: seq<int>, unspent: seq<int>, cap: int, n: nat)
    requires Budgeted(cost, hold, unspent, cap) && n <= |cost|
    ensures Sum(cost) + Sum(unspent[..n]) <= cap
    decreases n
  {
    if n > 0 {
      SumPrefixStep(unspent, n - 1);
      if unspent[n - 1] > 0 {
        SumMonotone(unspent[..n - 1], hold[..n - 1]);
      } else {
        UnspentFitsUpTo(cost, hold, unspent, cap, n - 1);
      }
    } else {
      assert unspent[..0] == [];
    }
  }
}

module Ledger {
  import opened Common
  import opened Sums
  import opened BudgetGroups
  import opened RunTrees
  import opened EffectiveBudgets
  import opened LedgerColumns
  import SubAgents

  /** The tables, the clock, and the budget each loaded native run pinned for its process. */
  datatype State = State(db: Db, at: Moment, grants: map<nat, int>)

  datatype Step =
    | CreateNative(agent: nat)
    | LoadNative(run: nat)
    | DispatchCoding(agent: nat, requested: nat, timeoutSec: nat)
    | Spend(run: nat, amount: nat)
    | TopUp(run: nat, amount: nat)
    | Beat(run: nat)
    | Revive(run: nat)
    | Finish(run: nat)
    | Tick(at: Moment)

  /** What the run may spend in all: its pinned budget, or what is reserved for it. */
  function Grant(s: State, i: nat): Option<int>
    requires i < |s.db.runs|
  {
    var r := s.db.runs[i];
    if r.coding.Some? then Some(r.coding.value.reserved)
    else if i in s.grants then Some(s.grants[i]) else None
  }

  function OrderOf(s: State, i: nat): RunOrder
    requires i < |s.db.runs|
  {
    RunOrder(i, s.db.runs[i].startedAt)
  }

  /** effectiveBudgetForRun of a top-level run: with itself as `self` at a native load, without at a coding dispatch. */
  ghost function EffectiveTop(s: State, agent: nat, self: Option<RunOrder>): Effective {
    EffectiveFor(s.db, agent, s.at, None, self)
  }

  ghost function WithRun(s: State, i: nat, r: Run): State
    requires i < |s.db.runs|
  {
    s.(db := s.db.(runs := s.db.runs[i := r]))
  }

  ghost function WithNewRun(s: State, r: Run): State {
    s.(db := s.db.(runs := s.db.runs + [r]))
  }

  function Loaded(r: Run): Run {
    if r.status == Terminal then r else r.(status := Running)
  }

  function Raised(r: Run, amount: nat): Run
    requires r.coding.Some?
  {
    r.(coding := Some(r.coding.value.(reserved := r.coding.value.reserved + amount)))
  }

  /** The month began at or before today did. */
  predicate ClockValid(at: Moment) {
    at.monthStart <= PeriodStart(Day, at)
  }

  /**
   * One step of the program or its environment. The environment's part: a run
   * spends at most its grant and only while its hold is live, agent budgets stay
   * fixed, rows appear in start order, the clock does not run backwards. A live
   * run beats; a recovered one beats again after its hold has lapsed.
   */
  ghost predicate Next(s: State, step: Step, s': State) {
    var runs := s.db.runs;
    match step
    case CreateNative(agent) =>
      agent < |s.db.agents| && s' == WithNewRun(s, Run(agent, Pending, 0, s.at.now, None, None, None))
    case LoadNative(i) =>
      i < |runs| && runs[i].coding.None? && i !in s.grants &&
      var budget := EffectiveTop(s, runs[i].agent, Some(OrderOf(s, i))).budget;
      s' == WithRun(s, i, Loaded(runs[i])).(grants := s.grants[i := budget])
    case DispatchCoding(agent, requested, timeoutSec) =>
      agent < |s.db.agents| &&
      var effective := EffectiveTop(s, agent, None);
      var base := Min(requested, effective.budget);
      if base < MIN_RESERVATION then
        // Refused when a constraint is exhausted; otherwise the dispatch throws and nothing is written.
        if effective.exhaustedBy.Some?
        then s' == WithNewRun(s, Run(agent, Terminal, 0, s.at.now, None, None, None))
        else s' == s
      else
        s' == WithNewRun(s, Run(agent, Pending, 0, s.at.now, None, None, Some(Coding(base, timeoutSec))))
    case Spend(i, amount) =>
      i < |runs| && IsHoldLive(runs[i], s.at) && Grant(s, i).Some? && amount > 0 &&
      runs[i].cost + amount <= Grant(s, i).value &&
      s' == WithRun(s, i, runs[i].(cost := runs[i].cost + amount))
    case TopUp(i, amount) =>
      i < |runs| && runs[i].coding.Some? && runs[i].status != Terminal && amount >= MIN_RESERVATION &&
      (TopUpRoom(s.db, s.at, i, i).Room? ==> amount <= TopUpRoom(s.db, s.at, i, i).left) &&
      s' == WithRun(s, i, Raised(runs[i], amount))
    case Beat(i) =>
      i < |runs| && IsHoldLive(runs[i], s.at) && s' == WithRun(s, i, runs[i].(heartbeatAt := Some(s.at.now)))
    case Revive(i) =>
      i < |runs| && runs[i].status != Terminal && !IsHoldLive(runs[i], s.at) &&
      s' == WithRun(s, i, runs[i].(heartbeatAt := Some(s.at.now)))
    case Finish(i) =>
      i < |runs| && s' == WithRun(s, i, runs[i].(status := Terminal))
    case Tick(at) =>
      at.now >= s.at.now && at.monthStart >= s.at.monthStart && at.queueTimeoutSec == s.at.queueTimeoutSec &&
      ClockValid(at) && s' == s.(at := at)
  }

  ghost predicate Init(s: State) {
    s.db.runs == [] && s.grants == map[] && ClockValid(s.at)
  }

  /** A run of the machine: the states it passes through, from an empty ledger, and the steps between them. */
  ghost predicate IsRun(states: seq<State>, steps: seq<Step>) {
    |states| == |steps| + 1 && Init(states[0]) &&
    forall k :: 0 <= k < |steps| ==> Next(states[k], steps[k], states[k + 1])
  }

  // ---- the invariant ------------------------------------------------------

  ghost predicate WellFormed(s: State) {
    var runs := s.db.runs;
    ClockValid(s.at) &&
    (forall i :: 0 <= i < |runs| ==> runs[i].parent == None && runs[i].startedAt <= s.at.now) &&
    (forall i :: 0 <= i < |runs| ==> runs[i].agent < |s.db.agents|) &&
    (forall i, j :: 0 <= i < j < |runs| ==> runs[i].startedAt <= runs[j].startedAt) &&
    (forall i :: i in s.grants ==>
      i < |runs| && runs[i].coding.None? && 0 <= s.grants[i] <= s.db.agents[runs[i].agent].budget) &&
    (forall i :: 0 <= i < |runs| ==> runs[i].cost <= if Grant(s, i).Some? then Grant(s, i).value else 0)
  }

  ghost function Whole(s: State, group: nat): View {
    View(s.db, Members(s.db, group), s.at, WHOLE)
  }

  ghost function UnspentAt(s: State, group: nat, start: int, i: nat): nat {
    if InWindow(Whole(s, group), start, i) && IsHoldLive(s.db.runs[i], s.at) && Grant(s, i).Some?
    then Max(0, Grant(s, i).value - s.db.runs[i].cost) else 0
  }

  ghost function UnspentColumn(s: State, group: nat, start: int): seq<int> {
    seq(|s.db.runs|, i requires 0 <= i => UnspentAt(s, group, start, i))
  }

  ghost predicate GroupBudgeted(s: State, group: nat, p: Period) {
    var start := PeriodStart(p, s.at);
    group < |s.db.groups| && CapOf(s.db.groups[group], p).Some? ==>
      Budgeted(CostColumn(Whole(s, group), start), ReservedColumn(Whole(s, group), start),
               UnspentColumn(s, group, start), CapOf(s.db.groups[group], p).value)
  }

  ghost predicate Inv(s: State) {
    WellFormed(s) && forall group: nat, p: Period :: GroupBudgeted(s, group, p)
  }

  lemma OwnRoot(runs: seq<Run>, i: nat)
    requires IsRoot(runs, i)
    ensures RootOf(runs, i) == Some(i)
  {
  }

  /** Without sub-runs nothing is a held tree: every run holds for itself. */
  lemma TopLevelHolds(v: View, start: int)
    requires forall i :: 0 <= i < |v.db.runs| ==> v.db.runs[i].parent == None
    ensures forall i: nat :: i < |v.db.runs| ==>
              ReservedAt(v, start, i) ==
              if InWindow(v, start, i) && Holds(v, i) then Unspent(Reservation(v, v.db.runs[i]), v.db.runs[i]) else 0
  {
    forall i: nat | Counted(v, i) ensures RootOf(v.db.runs, i) == Some(i) {
      OwnRoot(v.db.runs, i);
    }
  }

  /** One row of the three columns, for a whole group. */
  lemma Rows(s: State, group: nat, start: int)
    requires WellFormed(s)
    ensures var v := Whole(s, group);
            forall i: nat :: i < |s.db.runs| ==>
              0 <= UnspentAt(s, group, start, i) <= ReservedAt(v, start, i) &&
              ReservedAt(v, start, i) == (if InWindow(v, start, i) && IsHoldLive(s.db.runs[i], s.at)
                                          then Unspent(Reservation(v, s.db.runs[i]), s.db.runs[i]) else 0)
  {
    TopLevelHolds(Whole(s, group), start);
  }

  // ---- what a budget query leaves room for --------------------------------

  /** A run asking for itself counts the same cost as anyone, and only the holds before it. */
  lemma AskingView(s: State, group: nat, start: int, i: nat)
    requires WellFormed(s) && i < |s.db.runs|
    ensures var v := View(s.db, Members(s.db, group), s.at, SpendOptions({i}, {}, Some(OrderOf(s, i))));
            Spent(v, start) == Spent(Whole(s, group), start) &&
            Reserved(v, start) == Sum(ReservedColumn(Whole(s, group), start)[..i])
  {
    var w := Whole(s, group);
    var v := View(s.db, Members(s.db, group), s.at, SpendOptions({i}, {}, Some(OrderOf(s, i))));
    TopLevelHolds(v, start);
    TopLevelHolds(w, start);
    assert CostColumn(v, start) == CostColumn(w, start);
    var mine, all := ReservedColumn(v, start), ReservedColumn(w, start);
    assert mine[..i] == all[..i];
    OnlyPrefix(mine, i);
  }

  lemma {:induction false} OnlyPrefix(xs: seq<int>, k: nat)
    requires k <= |xs| && forall j :: k <= j < |xs| ==> xs[j] == 0
    ensures Sum(xs) == Sum(xs[..k])
    decreases |xs| - k
  {
    if k < |xs| {
      OnlyPrefix(xs, k + 1);
      SumPrefixStep(xs, k);
    } else {
      assert xs[..k] == xs;
    }
  }

  // ---- every step keeps the invariant -------------------------------------

  /** The group and period have a cap to keep. */
  predicate Capped(s: State, group: nat, p: Period) {
    group < |s.db.groups| && CapOf(s.db.groups[group], p).Some?
  }

  ghost function Committed(s: State, group: nat, p: Period): int {
    Spent(Whole(s, group), PeriodStart(p, s.at)) + Reserved(Whole(s, group), PeriodStart(p, s.at))
  }

  /** A new coding run's reservation fits under the cap beside everything committed. */
  ghost predicate NewRunFits(s: State, r: Run, group: nat, p: Period) {
    Capped(s, group, p) && r.coding.Some? && r.agent < |s.db.agents| && s.db.agents[r.agent].group == Some(group) ==>
      Committed(s, group, p) + r.coding.value.reserved <= CapOf(s.db.groups[group], p).value
  }

  lemma NewRunKeeps(s: State, s': State, r: Run, group: nat, p: Period)
    requires WellFormed(s) && s' == WithNewRun(s, r) && WellFormed(s') && GroupBudgeted(s, group, p)
    requires r.cost == 0 && NewRunFits(s, r, group, p)
    ensures GroupBudgeted(s', group, p)
  {
    if Capped(s, group, p) {
      var start := PeriodStart(p, s.at);
      var v, v' := Whole(s, group), Whole(s', group);
      var n := |s.db.runs|;
      Rows(s, group, start);
      Rows(s', group, start);
      NewRowColumns(s, s', r, group, start);
      AppendKeeps(CostColumn(v, start), ReservedColumn(v, start), UnspentColumn(s, group, start),
                  CapOf(s.db.groups[group], p).value, ReservedAt(v', start, n), UnspentAt(s', group, start, n),
                  CostColumn(v', start), ReservedColumn(v', start), UnspentColumn(s', group, start));
    }
  }

  lemma NewRowColumns(s: State, s': State, r: Run, group: nat, start: int)
    requires WellFormed(s) && s' == WithNewRun(s, r) && WellFormed(s') && r.cost == 0
    ensures var v, v', n := Whole(s, group), Whole(s', group), |s.db.runs|;
            CostColumn(v', start) == CostColumn(v, start) + [0] &&
            ReservedColumn(v', start) == ReservedColumn(v, start) + [ReservedAt(v', start, n)] &&
            UnspentColumn(s', group, start) == UnspentColumn(s, group, start) + [UnspentAt(s', group, start, n)]
  {
    Rows(s, group, start);
    Rows(s', group, start);
    var v, v' := Whole(s, group), Whole(s', group);
    assert v'.members == v.members;
    forall i: nat | i < |s.db.runs|
      ensures CostAt(v', start, i) == CostAt(v, start, i) && ReservedAt(v', start, i) == ReservedAt(v, start, i)
      ensures UnspentAt(s', group, start, i) == UnspentAt(s, group, start, i)
    {
      assert s'.db.runs[i] == s.db.runs[i];
    }
  }

  lemma DispatchKeeps(s: State, agent: nat, requested: nat, timeoutSec: nat, s': State)
    requires Inv(s) && Next(s, DispatchCoding(agent, requested, timeoutSec), s')
    ensures Inv(s')
  {
    EffectiveRange(s.db, s.at, agent, None);
    if s' != s {
      var r := s'.db.runs[|s.db.runs|];
      assert s' == WithNewRun(s, r);
      NewRunWellFormed(s, s', r);
      forall group: nat, p: Period ensures GroupBudgeted(s', group, p) {
        ReservationFits(s, agent, r, group, p);
        assert GroupBudgeted(s, group, p);
        NewRunKeeps(s, s', r, group, p);
      }
    }
  }

  /**
   * A coding dispatch reserves all that was requested or, when that is more, all
   * that the agent's own budget and the tightest period of its group leave with
   * every live hold counted; it reserves nothing exactly when less than a
   * micro-dollar is left or requested.
   */
  lemma ReservesAllItCan(s: State, agent: nat, requested: nat, timeoutSec: nat, s': State)
    requires Next(s, DispatchCoding(agent, requested, timeoutSec), s')
    ensures exists budget ::
              SubAgents.IsTightest(budget, s.db.agents[agent].budget, s.db, s.at, s.db.agents[agent].group, WHOLE) &&
              if Min(requested, budget) >= 1
              then s' == WithNewRun(s, Run(agent, Pending, 0, s.at.now, None, None,
                                           Some(Coding(Min(requested, budget), timeoutSec))))
              else s' == s || s' == WithNewRun(s, Run(agent, Terminal, 0, s.at.now, None, None, None))
  {
    SubAgents.TopIsTightest(s.db, s.at, agent, None);
    var budget := EffectiveTop(s, agent, None).budget;
    assert SubAgents.IsTightest(budget, s.db.agents[agent].budget, s.db, s.at, s.db.agents[agent].group, WHOLE);
  }

  lemma ReservationFits(s: State, agent: nat, r: Run, group: nat, p: Period)
    requires agent < |s.db.agents| && r.agent == agent
    requires r.coding.Some? ==> 0 < r.coding.value.reserved <= EffectiveTop(s, agent, None).budget
    ensures NewRunFits(s, r, group, p)
  {
    if Capped(s, group, p) && r.coding.Some? && s.db.agents[agent].group == Some(group) {
      EffectiveFits(s.db, s.at, agent, None, group, p);
    }
  }

  lemma NewRunWellFormed(s: State, s': State, r: Run)
    requires WellFormed(s) && s' == WithNewRun(s, r)
    requires r.parent == None && r.startedAt == s.at.now && r.cost == 0 && r.agent < |s.db.agents|
    ensures WellFormed(s')
  {
    forall i | 0 <= i < |s'.db.runs|
      ensures s'.db.runs[i].cost <= if Grant(s', i).Some? then Grant(s', i).value else 0
    {
      if i < |s.db.runs| {
        assert Grant(s', i) == Grant(s, i);
      }
    }
  }

  lemma CreateKeeps(s: State, agent: nat, s': State)
    requires Inv(s) && Next(s, CreateNative(agent), s')
    ensures Inv(s')
  {
    var r := s'.db.runs[|s.db.runs|];
    NewRunWellFormed(s, s', r);
    forall group: nat, p: Period ensures GroupBudgeted(s', group, p) {
      assert GroupBudgeted(s, group, p);
      NewRunKeeps(s, s', r, group, p);
    }
  }

  /** A change to row i that leaves its agent and start alone moves the group's columns in that row only. */
  lemma RowColumns(s: State, s': State, i: nat, group: nat, start: int)
    requires WellFormed(s) && WellFormed(s') && i < |s.db.runs| == |s'.db.runs|
    requires s'.at == s.at && s'.db == s.db.(runs := s.db.runs[i := s'.db.runs[i]])
    requires forall k :: k != i ==> (k in s'.grants <==> k in s.grants) && (k in s.grants ==> s'.grants[k] == s.grants[k])
    requires var r, r' := s.db.runs[i], s'.db.runs[i]; r'.agent == r.agent && r'.startedAt == r.startedAt
    ensures var v, v' := Whole(s, group), Whole(s', group);
            AgreeBut(CostColumn(v, start), CostColumn(v', start), i) &&
            AgreeBut(ReservedColumn(v, start), ReservedColumn(v', start), i) &&
            AgreeBut(UnspentColumn(s, group, start), UnspentColumn(s', group, start), i) &&
            (InWindow(v', start, i) <==> InWindow(v, start, i))
  {
    Rows(s, group, start);
    Rows(s', group, start);
    var v, v' := Whole(s, group), Whole(s', group);
    assert v'.members == v.members;
    forall k: nat | k < |s.db.runs| && k != i
      ensures CostAt(v', start, k) == CostAt(v, start, k) && ReservedAt(v', start, k) == ReservedAt(v, start, k)
      ensures UnspentAt(s', group, start, k) == UnspentAt(s, group, start, k)
    {
      assert s'.db.runs[k] == s.db.runs[k];
      assert Grant(s', k) == Grant(s, k);
    }
  }

  lemma LoadStepKeeps(s: State, i: nat, s': State)
    requires Inv(s) && Next(s, LoadNative(i), s')
    ensures Inv(s')
  {
    LoadWellFormed(s, i, s');
    forall group: nat, p: Period ensures GroupBudgeted(s', group, p) {
      assert GroupBudgeted(s, group, p);
      LoadKeepsGroup(s, i, s', group, p);
    }
  }

  lemma LoadWellFormed(s: State, i: nat, s': State)
    requires WellFormed(s) && Next(s, LoadNative(i), s')
    ensures WellFormed(s')
  {
    EffectiveRange(s.db, s.at, s.db.runs[i].agent, Some(OrderOf(s, i)));
    forall k | 0 <= k < |s.db.runs|
      ensures s'.db.runs[k].cost <= if Grant(s', k).Some? then Grant(s', k).value else 0
    {
      if k != i {
        assert Grant(s', k) == Grant(s, k);
      }
    }
  }

  lemma LoadKeepsGroup(s: State, i: nat, s': State, group: nat, p: Period)
    requires WellFormed(s) && GroupBudgeted(s, group, p) && Next(s, LoadNative(i), s') && WellFormed(s')
    ensures GroupBudgeted(s', group, p)
  {
    if Capped(s, group, p) {
      var start := PeriodStart(p, s.at);
      var v := Whole(s, group);
      LoadColumns(s, i, s', group, start);
      LoadFits(s, i, group, p);
      LoadKeeps(CostColumn(v, start), ReservedColumn(v, start), UnspentColumn(s, group, start),
                CapOf(s.db.groups[group], p).value, i, UnspentColumn(s', group, start));
    }
  }

  /** A load changes no cost and no hold; what the run may now spend is its pinned budget. */
  lemma LoadColumns(s: State, i: nat, s': State, group: nat, start: int)
    requires WellFormed(s) && Next(s, LoadNative(i), s') && WellFormed(s')
    ensures var v, v' := Whole(s, group), Whole(s', group);
            var budget := EffectiveTop(s, s.db.runs[i].agent, Some(OrderOf(s, i))).budget;
            CostColumn(v', start) == CostColumn(v, start) && ReservedColumn(v', start) == ReservedColumn(v, start) &&
            AgreeBut(UnspentColumn(s, group, start), UnspentColumn(s', group, start), i) &&
            0 <= UnspentColumn(s', group, start)[i] <= ReservedColumn(v, start)[i] &&
            (UnspentColumn(s', group, start)[i] > 0 ==>
              UnspentColumn(s', group, start)[i] == budget && s.db.agents[s.db.runs[i].agent].group == Some(group))
  {
    RowColumns(s, s', i, group, start);
    LoadRow(s, i, s', group, start);
  }

  /** The loaded row keeps its cost and hold, and may spend its pinned budget while its hold is live. */
  lemma LoadRow(s: State, i: nat, s': State, group: nat, start: int)
    requires WellFormed(s) && Next(s, LoadNative(i), s') && WellFormed(s')
    ensures var v, v' := Whole(s, group), Whole(s', group);
            var budget := EffectiveTop(s, s.db.runs[i].agent, Some(OrderOf(s, i))).budget;
            CostAt(v', start, i) == CostAt(v, start, i) && ReservedAt(v', start, i) == ReservedAt(v, start, i) &&
            UnspentAt(s', group, start, i) == (if InWindow(v, start, i) && IsHoldLive(s.db.runs[i], s.at) then budget else 0) &&
            UnspentAt(s', group, start, i) <= ReservedAt(v, start, i)
  {
    var budget := EffectiveTop(s, s.db.runs[i].agent, Some(OrderOf(s, i))).budget;
    EffectiveRange(s.db, s.at, s.db.runs[i].agent, Some(OrderOf(s, i)));
    PinnedRow(s, i, s', group, start, budget);
  }

  lemma PinnedRow(s: State, i: nat, s': State, group: nat, start: int, budget: nat)
    requires WellFormed(s) && WellFormed(s') && i < |s.db.runs| && s.db.runs[i].coding.None? && i !in s.grants
    requires s' == WithRun(s, i, Loaded(s.db.runs[i])).(grants := s.grants[i := budget])
    requires budget <= s.db.agents[s.db.runs[i].agent].budget
    ensures var v, v' := Whole(s, group), Whole(s', group);
            CostAt(v', start, i) == CostAt(v, start, i) && ReservedAt(v', start, i) == ReservedAt(v, start, i) &&
            UnspentAt(s', group, start, i) == (if InWindow(v, start, i) && IsHoldLive(s.db.runs[i], s.at) then budget else 0) &&
            UnspentAt(s', group, start, i) <= ReservedAt(v, start, i)
  {
    PinnedKeeps(s, i, s', group, start, budget);
    Rows(s, group, start);
    assert Grant(s, i) == None && s.db.runs[i].cost == 0;
    assert Whole(s', group).members == Whole(s, group).members;
  }

  lemma PinnedKeeps(s: State, i: nat, s': State, group: nat, start: int, budget: nat)
    requires WellFormed(s) && WellFormed(s') && i < |s.db.runs|
    requires s' == WithRun(s, i, Loaded(s.db.runs[i])).(grants := s.grants[i := budget])
    ensures var v, v' := Whole(s, group), Whole(s', group);
            CostAt(v', start, i) == CostAt(v, start, i) && ReservedAt(v', start, i) == ReservedAt(v, start, i)
  {
    Rows(s, group, start);
    Rows(s', group, start);
    assert Whole(s', group).members == Whole(s, group).members;
  }

  /** First come, first served: what a load pins fits under the cap beside the cost and the holds before it. */
  lemma LoadFits(s: State, i: nat, group: nat, p: Period)
    requires WellFormed(s) && i < |s.db.runs| && Capped(s, group, p)
    ensures var v, start := Whole(s, group), PeriodStart(p, s.at);
            var budget := EffectiveTop(s, s.db.runs[i].agent, Some(OrderOf(s, i))).budget;
            s.db.agents[s.db.runs[i].agent].group == Some(group) && budget > 0 ==>
              Spent(v, start) + Sum(ReservedColumn(v, start)[..i]) + budget <= CapOf(s.db.groups[group], p).value
  {
    var agent, self := s.db.runs[i].agent, Some(OrderOf(s, i));
    if s.db.agents[agent].group == Some(group) && EffectiveTop(s, agent, self).budget > 0 {
      EffectiveFits(s.db, s.at, agent, self, group, p);
      AskingView(s, group, PeriodStart(p, s.at), i);
      assert SelfId(self) == {i};
    }
  }

  lemma SpendWellFormed(s: State, i: nat, amount: nat, s': State)
    requires WellFormed(s) && Next(s, Spend(i, amount), s')
    ensures WellFormed(s')
  {
    forall k | 0 <= k < |s.db.runs| ensures Grant(s', k) == Grant(s, k) {
    }
  }

  lemma TopUpWellFormed(s: State, i: nat, amount: nat, s': State)
    requires WellFormed(s) && Next(s, TopUp(i, amount), s')
    ensures WellFormed(s')
  {
    RaisedWellFormed(s, i, amount, s');
  }

  lemma RaisedWellFormed(s: State, i: nat, amount: nat, s': State)
    requires WellFormed(s) && i < |s.db.runs| && s.db.runs[i].coding.Some?
    requires s' == WithRun(s, i, Raised(s.db.runs[i], amount))
    ensures WellFormed(s')
  {
    forall k | 0 <= k < |s.db.runs| && k != i ensures Grant(s', k) == Grant(s, k) {
    }
  }

  lemma SpendStepKeeps(s: State, i: nat, amount: nat, s': State)
    requires Inv(s) && Next(s, Spend(i, amount), s')
    ensures Inv(s')
  {
    SpendWellFormed(s, i, amount, s');
    forall group: nat, p: Period ensures GroupBudgeted(s', group, p) {
      assert GroupBudgeted(s, group, p);
      SpendKeepsGroup(s, i, amount, s', group, p);
    }
  }

  lemma SpendKeepsGroup(s: State, i: nat, amount: nat, s': State, group: nat, p: Period)
    requires WellFormed(s) && GroupBudgeted(s, group, p) && Next(s, Spend(i, amount), s') && WellFormed(s')
    ensures GroupBudgeted(s', group, p)
  {
    if Capped(s, group, p) {
      var start := PeriodStart(p, s.at);
      var v, v' := Whole(s, group), Whole(s', group);
      var x := if InWindow(v, start, i) then amount else 0;
      SpendRow(s, i, amount, s', group, start);
      RowColumns(s, s', i, group, start);
      SpendKeeps(CostColumn(v, start), ReservedColumn(v, start), UnspentColumn(s, group, start),
                 CapOf(s.db.groups[group], p).value, i, x,
                 CostColumn(v', start), ReservedColumn(v', start), UnspentColumn(s', group, start));
    }
  }

  /** Spending moves the amount from the run's hold, and from its unspent grant, to its cost. */
  lemma SpendRow(s: State, i: nat, amount: nat, s': State, group: nat, start: int)
    requires WellFormed(s) && Next(s, Spend(i, amount), s') && WellFormed(s')
    ensures var v, v', x := Whole(s, group), Whole(s', group), if InWindow(Whole(s, group), start, i) then amount else 0;
            CostAt(v', start, i) == CostAt(v, start, i) + x &&
            ReservedAt(v', start, i) == ReservedAt(v, start, i) - x &&
            UnspentAt(s', group, start, i) == UnspentAt(s, group, start, i) - x && x <= UnspentAt(s, group, start, i)
  {
    Rows(s, group, start);
    Rows(s', group, start);
    var v, v' := Whole(s, group), Whole(s', group);
    assert v'.members == v.members;
    assert InWindow(v', start, i) <==> InWindow(v, start, i);
  }

  lemma TopUpStepKeeps(s: State, i: nat, amount: nat, s': State)
    requires Inv(s) && Next(s, TopUp(i, amount), s')
    ensures Inv(s')
  {
    TopUpWellFormed(s, i, amount, s');
    forall group: nat, p: Period ensures GroupBudgeted(s', group, p) {
      assert GroupBudgeted(s, group, p);
      TopUpKeepsGroup(s, i, amount, s', group, p);
    }
  }

  lemma TopUpKeepsGroup(s: State, i: nat, amount: nat, s': State, group: nat, p: Period)
    requires WellFormed(s) && GroupBudgeted(s, group, p) && Next(s, TopUp(i, amount), s')
    ensures GroupBudgeted(s', group, p)
  {
    if Capped(s, group, p) && InWindow(Whole(s, group), PeriodStart(p, s.at), i) {
      RoomUnderCap(s, i, amount, group, p);
    }
    RaisedKeepsGroup(s, i, amount, s', group, p);
  }

  /** A raised grant that fits beside everything committed. */
  lemma RaisedKeepsGroup(s: State, i: nat, amount: nat, s': State, group: nat, p: Period)
    requires WellFormed(s) && GroupBudgeted(s, group, p) && i < |s.db.runs| && s.db.runs[i].coding.Some?
    requires s' == WithRun(s, i, Raised(s.db.runs[i], amount))
    requires Capped(s, group, p) && InWindow(Whole(s, group), PeriodStart(p, s.at), i) ==>
               Committed(s, group, p) + amount <= CapOf(s.db.groups[group], p).value
    ensures GroupBudgeted(s', group, p)
  {
    if Capped(s, group, p) {
      var start := PeriodStart(p, s.at);
      var v, v' := Whole(s, group), Whole(s', group);
      RaisedColumns(s, i, amount, s', group, start);
      if InWindow(v, start, i) {
        RaiseKeeps(CostColumn(v, start), ReservedColumn(v, start), UnspentColumn(s, group, start),
                   CapOf(s.db.groups[group], p).value, i, amount,
                   ReservedColumn(v', start), UnspentColumn(s', group, start));
      }
    }
  }

  /** A raised grant changes no cost; outside the window it changes nothing, inside at most the run's hold and what it may spend. */
  lemma RaisedColumns(s: State, i: nat, amount: nat, s': State, group: nat, start: int)
    requires WellFormed(s) && i < |s.db.runs| && s.db.runs[i].coding.Some?
    requires s' == WithRun(s, i, Raised(s.db.runs[i], amount))
    ensures var v, v' := Whole(s, group), Whole(s', group);
            CostColumn(v', start) == CostColumn(v, start) &&
            (!InWindow(v, start, i) ==>
              ReservedColumn(v', start) == ReservedColumn(v, start) &&
              UnspentColumn(s', group, start) == UnspentColumn(s, group, start)) &&
            AgreeBut(ReservedColumn(v, start), ReservedColumn(v', start), i) &&
            AgreeBut(UnspentColumn(s, group, start), UnspentColumn(s', group, start), i) &&
            0 <= UnspentAt(s', group, start, i) <= ReservedAt(v', start, i) <= ReservedAt(v, start, i) + amount
  {
    RaisedWellFormed(s, i, amount, s');
    RowColumns(s, s', i, group, start);
    Rows(s, group, start);
    Rows(s', group, start);
    assert Whole(s', group).members == Whole(s, group).members;
  }

  lemma RoomUnderCap(s: State, i: nat, amount: nat, group: nat, p: Period)
    requires WellFormed(s) && i < |s.db.runs| && amount > 0
    requires TopUpRoom(s.db, s.at, i, i).Room? ==> amount <= TopUpRoom(s.db, s.at, i, i).left
    requires s.db.agents[s.db.runs[i].agent].group == Some(group)
    requires group < |s.db.groups| && CapOf(s.db.groups[group], p).Some?
    ensures Committed(s, group, p) + amount <= CapOf(s.db.groups[group], p).value
  {
    var k := CapIsCandidate(s.db, group, s.at, WHOLE, p);
    var cs := RoomCandidates(s.db, s.at, i, i);
    assert cs == GroupCandidates(s.db, Some(group), s.at, WHOLE);
    LeastCandidateIsMinimum(cs);
  }

  // ---- a hold that comes back ---------------------------------------------

  /** What a run may still spend of its grant, live or not. */
  function Left(s: State, i: nat): nat
    requires i < |s.db.runs|
  {
    if Grant(s, i).Some? then Max(0, Grant(s, i).value - s.db.runs[i].cost) else 0
  }

  /**
   * Nobody who may still spend from run i on was let in counting on i's hold to
   * stay gone: i fits beside the holds before it, the later ones beside it too.
   */
  ghost predicate FitsAgain(s: State, i: nat, group: nat, start: int, cap: nat)
    requires i < |s.db.runs|
  {
    var v := Whole(s, group);
    var spent, holds := Spent(v, start), ReservedColumn(v, start);
    (Left(s, i) > 0 ==> spent + Sum(holds[..i]) + Left(s, i) <= cap) &&
    forall j :: i < j < |s.db.runs| && UnspentAt(s, group, start, j) > 0 ==>
      spent + Sum(holds[..j]) + Unspent(Reservation(v, s.db.runs[i]), s.db.runs[i]) + UnspentAt(s, group, start, j) <= cap
  }

  ghost predicate RevivalFits(s: State, i: nat, group: nat, p: Period)
    requires i < |s.db.runs|
  {
    Capped(s, group, p) && InWindow(Whole(s, group), PeriodStart(p, s.at), i) ==>
      FitsAgain(s, i, group, PeriodStart(p, s.at), CapOf(s.db.groups[group], p).value)
  }

  /** A group's period stays in budget when a lapsed hold comes back exactly when the revival fits. */
  lemma RevivalKeepsIff(s: State, i: nat, s': State, group: nat, p: Period)
    requires WellFormed(s) && GroupBudgeted(s, group, p) && Next(s, Revive(i), s')
    ensures WellFormed(s') && (GroupBudgeted(s', group, p) <==> RevivalFits(s, i, group, p))
  {
    RevivalWellFormed(s, i, s');
    if Capped(s, group, p) {
      var start := PeriodStart(p, s.at);
      RevivalColumns(s, i, s', group, start);
      if InWindow(Whole(s, group), start, i) {
        RevivalGrows(s, i, s', group, start, CapOf(s.db.groups[group], p).value);
      }
    }
  }

  /** The three columns of a group after a revival. */
  lemma RevivalColumns(s: State, i: nat, s': State, group: nat, start: int)
    requires WellFormed(s) && Next(s, Revive(i), s') && WellFormed(s')
    ensures var v, v' := Whole(s, group), Whole(s', group);
            CostColumn(v', start) == CostColumn(v, start) &&
            (!InWindow(v, start, i) ==>
              ReservedColumn(v', start) == ReservedColumn(v, start) &&
              UnspentColumn(s', group, start) == UnspentColumn(s, group, start))
  {
    RevivalRow(s, i, s', group, start);
    RowColumns(s, s', i, group, start);
  }

  lemma RevivalGrows(s: State, i: nat, s': State, group: nat, start: int, cap: nat)
    requires WellFormed(s) && Next(s, Revive(i), s') && WellFormed(s') && InWindow(Whole(s, group), start, i)
    requires Budgeted(CostColumn(Whole(s, group), start), ReservedColumn(Whole(s, group), start),
                      UnspentColumn(s, group, start), cap)
    ensures var v, v' := Whole(s, group), Whole(s', group);
            Budgeted(CostColumn(v, start), ReservedColumn(v', start), UnspentColumn(s', group, start), cap) <==>
            FitsAgain(s, i, group, start, cap)
  {
    var v, v' := Whole(s, group), Whole(s', group);
    RevivalRow(s, i, s', group, start);
    RowColumns(s, s', i, group, start);
    Rows(s', group, start);
    GrowthKeepsIff(CostColumn(v, start), ReservedColumn(v, start), UnspentColumn(s, group, start), cap, i,
                   ReservedColumn(v', start), UnspentColumn(s', group, start));
  }

  lemma RevivalWellFormed(s: State, i: nat, s': State)
    requires WellFormed(s) && Next(s, Revive(i), s')
    ensures WellFormed(s') && IsHoldLive(s'.db.runs[i], s'.at)
  {
    forall k | 0 <= k < |s.db.runs| ensures Grant(s', k) == Grant(s, k) {
    }
  }

  /** The revived row holds again, and may spend what its grant leaves; its cost stays. */
  lemma RevivalRow(s: State, i: nat, s': State, group: nat, start: int)
    requires WellFormed(s) && Next(s, Revive(i), s') && WellFormed(s')
    ensures var v, v' := Whole(s, group), Whole(s', group);
            CostAt(v', start, i) == CostAt(v, start, i) &&
            ReservedAt(v, start, i) == 0 && UnspentAt(s, group, start, i) == 0 &&
            ReservedAt(v', start, i) ==
            (if InWindow(v, start, i) then Unspent(Reservation(v, s.db.runs[i]), s.db.runs[i]) else 0) &&
            UnspentAt(s', group, start, i) == if InWindow(v, start, i) then Left(s, i) else 0
  {
    RevivalWellFormed(s, i, s');
    Rows(s, group, start);
    Rows(s', group, start);
    assert Grant(s', i) == Grant(s, i);
    assert Whole(s', group).members == Whole(s, group).members;
  }

  lemma ReviveStepKeeps(s: State, i: nat, s': State)
    requires Inv(s) && Next(s, Revive(i), s') && forall group: nat, p: Period :: RevivalFits(s, i, group, p)
    ensures Inv(s')
  {
    RevivalWellFormed(s, i, s');
    forall group: nat, p: Period ensures GroupBudgeted(s', group, p) {
      assert GroupBudgeted(s, group, p) && RevivalFits(s, i, group, p);
      RevivalKeepsIff(s, i, s', group, p);
    }
  }

  /** A step that adds no cost and no hold: finishing, beating, and the clock. */
  ghost predicate Quiet(s: State, s': State) {
    |s'.db.runs| == |s.db.runs| && s'.db == s.db.(runs := s'.db.runs) && s'.grants == s.grants &&
    s'.at.now >= s.at.now && s'.at.monthStart >= s.at.monthStart &&
    forall i :: 0 <= i < |s.db.runs| ==>
      var r, r' := s.db.runs[i], s'.db.runs[i];
      r' == r.(status := r'.status, heartbeatAt := r'.heartbeatAt) && (IsHoldLive(r', s'.at) ==> IsHoldLive(r, s.at))
  }

  lemma QuietStepKeeps(s: State, s': State)
    requires Inv(s) && WellFormed(s') && Quiet(s, s')
    ensures Inv(s')
  {
    forall group: nat, p: Period ensures GroupBudgeted(s', group, p) {
      assert GroupBudgeted(s, group, p);
      QuietKeepsGroup(s, s', group, p);
    }
  }

  lemma QuietKeepsGroup(s: State, s': State, group: nat, p: Period)
    requires WellFormed(s) && GroupBudgeted(s, group, p) && WellFormed(s') && Quiet(s, s')
    ensures GroupBudgeted(s', group, p)
  {
    if Capped(s, group, p) {
      var start, start' := PeriodStart(p, s.at), PeriodStart(p, s'.at);
      PeriodStartMonotone(p, s.at, s'.at);
      var v, v' := Whole(s, group), Whole(s', group);
      Rows(s, group, start);
      Rows(s', group, start');
      assert v'.members == v.members;
      forall i: nat | i < |s.db.runs|
        ensures CostAt(v', start', i) <= CostAt(v, start, i) && ReservedAt(v', start', i) <= ReservedAt(v, start, i)
        ensures UnspentAt(s', group, start', i) <= UnspentAt(s, group, start, i)
      {
        assert InWindow(v', start', i) ==> InWindow(v, start, i);
      }
      ShrinkKeeps(CostColumn(v, start), ReservedColumn(v, start), UnspentColumn(s, group, start),
                  CapOf(s.db.groups[group], p).value,
                  CostColumn(v', start'), ReservedColumn(v', start'), UnspentColumn(s', group, start'));
    }
  }

  lemma PeriodStartMonotone(p: Period, at: Moment, at': Moment)
    requires at'.now >= at.now && at'.monthStart >= at.monthStart
    ensures PeriodStart(p, at') >= PeriodStart(p, at)
  {
    var day, day' := at.now / DAY_MS, at'.now / DAY_MS;
    assert day' >= day;
    assert day - (day + 3) % 7 == (day + 3) / 7 * 7 - 3;
    assert day' - (day' + 3) % 7 == (day' + 3) / 7 * 7 - 3;
  }

  /** The step revives no run, or one whose hold fits again. */
  ghost predicate IsFitting(s: State, step: Step) {
    step.Revive? && step.run < |s.db.runs| ==> forall group: nat, p: Period :: RevivalFits(s, step.run, group, p)
  }

  /** A run of the machine in which every revival fits. */
  ghost predicate IsFittingRun(states: seq<State>, steps: seq<Step>) {
    IsRun(states, steps) && forall k :: 0 <= k < |steps| ==> IsFitting(states[k], steps[k])
  }

  lemma StepKeeps(s: State, step: Step, s': State)
    requires Inv(s) && Next(s, step, s') && IsFitting(s, step)
    ensures Inv(s')
  {
    match step
    case CreateNative(agent) => CreateKeeps(s, agent, s');
    case LoadNative(i) => LoadStepKeeps(s, i, s');
    case DispatchCoding(agent, requested, timeoutSec) => DispatchKeeps(s, agent, requested, timeoutSec, s');
    case Spend(i, amount) => SpendStepKeeps(s, i, amount, s');
    case TopUp(i, amount) => TopUpStepKeeps(s, i, amount, s');
    case Beat(i) => QuietStep(s, step, s');
    case Revive(i) => ReviveStepKeeps(s, i, s');
    case Finish(i) => QuietStep(s, step, s');
    case Tick(at) => QuietStep(s, step, s');
  }

  lemma QuietStep(s: State, step: Step, s': State)
    requires Inv(s) && Next(s, step, s') && (step.Beat? || step.Finish? || step.Tick?)
    ensures Inv(s')
  {
    QuietStepWellFormed(s, step, s');
    QuietStepKeeps(s, s');
  }

  lemma QuietStepWellFormed(s: State, step: Step, s': State)
    requires WellFormed(s) && Next(s, step, s') && (step.Beat? || step.Finish? || step.Tick?)
    ensures WellFormed(s') && Quiet(s, s')
  {
    match step
    case Tick(at) => assert s' == s.(at := at);
    case Beat(i) => QuietRowWellFormed(s, i, s');
    case Finish(i) => QuietRowWellFormed(s, i, s');
  }

  lemma QuietRowWellFormed(s: State, i: nat, s': State)
    requires WellFormed(s) && i < |s.db.runs| == |s'.db.runs| && s' == WithRun(s, i, s'.db.runs[i])
    requires var r, r' := s.db.runs[i], s'.db.runs[i];
             r' == r.(status := r'.status, heartbeatAt := r'.heartbeatAt) && (IsHoldLive(r', s.at) ==> IsHoldLive(r, s.at))
    ensures WellFormed(s') && Quiet(s, s')
  {
    forall k | 0 <= k < |s.db.runs| ensures Grant(s', k) == Grant(s, k) {
    }
  }

  lemma InitHolds(s: State)
    requires Init(s)
    ensures Inv(s)
  {
    forall group: nat, p: Period ensures GroupBudgeted(s, group, p) {
      var v := Whole(s, group);
      assert CostColumn(v, PeriodStart(p, s.at)) == [];
    }
  }

  lemma {:induction false} EveryStateKeeps(states: seq<State>, steps: seq<Step>, k: nat)
    requires IsFittingRun(states, steps) && k < |states|
    ensures Inv(states[k])
    decreases k
  {
    if k == 0 {
      InitHolds(states[0]);
    } else {
      EveryStateKeeps(states, steps, k - 1);
      StepKeeps(states[k - 1], steps[k - 1], states[k]);
    }
  }

  // ---- safety -------------------------------------------------------------

  /** The plain total: what the members' runs that started in the window have cost. */
  function WindowCost(runs: seq<Run>, members: map<nat, nat>, start: int): nat {
    if runs == [] then 0
    else
      var r := runs[|runs| - 1];
      WindowCost(runs[..|runs| - 1], members, start) +
      if r.agent in members && r.startedAt >= start then r.cost else 0
  }

  lemma {:induction false} SpentIsWindowCost(v: View, start: int, n: nat)
    requires v.opts == WHOLE && v.at.monthStart <= start && n <= |v.db.runs|
    ensures Sum(CostColumn(v, start)[..n]) == WindowCost(v.db.runs[..n], v.members, start)
    decreases n
  {
    if n > 0 {
      SpentIsWindowCost(v, start, n - 1);
      SumPrefixStep(CostColumn(v, start), n - 1);
      assert v.db.runs[..n][..n - 1] == v.db.runs[..n - 1];
    }
  }

  /**
   * No interleaving passes a cap: in every state of every run of the machine,
   * what a group's runs of the current day, month, or week (while the month
   * began no later than the week) have cost is at most the period's cap.
   */
  lemma CapsAreHard(states: seq<State>, steps: seq<Step>, k: nat, group: nat, p: Period)
    requires IsFittingRun(states, steps) && k < |states|
    requires group < |states[k].db.groups| && CapOf(states[k].db.groups[group], p).Some?
    requires p == Week ==> states[k].at.monthStart <= PeriodStart(Week, states[k].at)
    ensures WindowCost(states[k].db.runs, Members(states[k].db, group), PeriodStart(p, states[k].at)) <=
            CapOf(states[k].db.groups[group], p).value
  {
    EveryStateKeeps(states, steps, k);
    var s := states[k];
    var start := PeriodStart(p, s.at);
    assert GroupBudgeted(s, group, p);
    SpentIsWindowCost(Whole(s, group), start, |s.db.runs|);
    assert CostColumn(Whole(s, group), start)[..|s.db.runs|] == CostColumn(Whole(s, group), start);
    assert s.db.runs[..|s.db.runs|] == s.db.runs;
  }

  /** Whatever the week, the part of it that lies in the current month never passes the weekly cap. */
  lemma WeekWithinMonthIsHard(states: seq<State>, steps: seq<Step>, k: nat, group: nat)
    requires IsFittingRun(states, steps) && k < |states|
    requires group < |states[k].db.groups| && states[k].db.groups[group].weekly.Some?
    ensures WindowCost(states[k].db.runs, Members(states[k].db, group),
                       Max(PeriodStart(Week, states[k].at), states[k].at.monthStart)) <=
            states[k].db.groups[group].weekly.value
  {
    EveryStateKeeps(states, steps, k);
    var s := states[k];
    var start := PeriodStart(Week, s.at);
    var from := Max(start, s.at.monthStart);
    assert GroupBudgeted(s, group, Week);
    var v := Whole(s, group);
    SpentIsWindowCost(v, from, |s.db.runs|);
    assert CostColumn(v, from) == CostColumn(v, start);
    assert CostColumn(v, from)[..|s.db.runs|] == CostColumn(v, from);
    assert s.db.runs[..|s.db.runs|] == s.db.runs;
  }

  /**
   * The fetch window bounds what the week sees: the reported weekly spend is
   * the week's real spend on every table exactly when the month began no later
   * than the week did.
   */
  lemma WeekIsExactIff(at: Moment)
    ensures (forall db: Db, members: map<nat, nat> ::
              Spent(View(db, members, at, WHOLE), PeriodStart(Week, at)) ==
              WindowCost(db.runs, members, PeriodStart(Week, at))) <==>
            at.monthStart <= PeriodStart(Week, at)
  {
    var start := PeriodStart(Week, at);
    if at.monthStart <= start {
      forall db: Db, members: map<nat, nat>
        ensures Spent(View(db, members, at, WHOLE), start) == WindowCost(db.runs, members, start)
      {
        var v := View(db, members, at, WHOLE);
        SpentIsWindowCost(v, start, |db.runs|);
        assert CostColumn(v, start)[..|db.runs|] == CostColumn(v, start);
        assert db.runs[..|db.runs|] == db.runs;
      }
    } else {
      var monday := Run(0, Terminal, 1, start, None, None, None);
      var db := Db([monday], [], []);
      var v := View(db, map[0 := 0], at, WHOLE);
      assert CostColumn(v, start) == [0];
      SumAppend([], 0);
      assert [] + [0] == [0];
      assert db.runs[..0] == [];
      assert Spent(v, start) == 0;
      assert WindowCost(db.runs, map[0 := 0], start) == 1;
    }
  }

  // ---- where a cap is not kept --------------------------------------------

  lemma {:induction false} ZeroTotal(xs: seq<int>)
    requires forall i :: 0 <= i < |xs| ==> xs[i] == 0
    ensures Sum(xs) == 0
  {
    OnlyPrefix(xs, 0);
  }
}
