/**
 * Windows that may have closed. A cap is checked against the current period's
 * runs only, so what keeps a closed day, week or month within its cap is that
 * nobody who started in it gets new money after its end, or only money that
 * fits beside what its runs may still spend.
 */
module ClosedWindows {
  import opened Common
  import opened Sums
  import opened BudgetGroups
  import opened EffectiveBudgets
  import opened LedgerColumns
  import opened Ledger

  /** The runs that started from `from` on and before `end`. */
  datatype Window = Window(from: int, end: int)

  predicate IsIn(w: Window, r: Run, members: map<nat, nat>) {
    r.agent in members && w.from <= r.startedAt < w.end
  }

  /** The plain total: what the members' runs that started in the window have cost. */
  function SpanCost(runs: seq<Run>, members: map<nat, nat>, w: Window): nat {
    if runs == [] then 0
    else
      var r := runs[|runs| - 1];
      SpanCost(runs[..|runs| - 1], members, w) + if IsIn(w, r, members) then r.cost else 0
  }

  /** Where the runs a period counts now begin: the fetch goes back to the month's start only. */
  function CountedFrom(p: Period, at: Moment): int {
    Max(PeriodStart(p, at), at.monthStart)
  }

  /** The window is one of the period's: it is what the period counts exactly while the clock is in it. */
  predicate IsPeriod(w: Window, p: Period, at: Moment) {
    CountedFrom(p, at) == w.from <==> w.from <= at.now < w.end
  }

  // ---- what a window's runs may come to cost ------------------------------

  /** A run's cost, with all it may still spend of its grant. */
  function MayCostAt(s: State, group: nat, w: Window, i: nat): nat {
    if i < |s.db.runs| && IsIn(w, s.db.runs[i], Members(s.db, group)) then
      s.db.runs[i].cost + if IsHoldLive(s.db.runs[i], s.at) then Left(s, i) else 0
    else 0
  }

  function MayCostColumn(s: State, group: nat, w: Window): seq<int> {
    seq(|s.db.runs|, i requires 0 <= i => MayCostAt(s, group, w, i))
  }

  function MayCost(s: State, group: nat, w: Window): int {
    Sum(MayCostColumn(s, group, w))
  }

  function CostSoFarAt(s: State, group: nat, w: Window, i: nat): nat {
    if i < |s.db.runs| && IsIn(w, s.db.runs[i], Members(s.db, group)) then s.db.runs[i].cost else 0
  }

  function CostSoFarColumn(s: State, group: nat, w: Window): seq<int> {
    seq(|s.db.runs|, i requires 0 <= i => CostSoFarAt(s, group, w, i))
  }

  function CostSoFar(s: State, group: nat, w: Window): nat {
    SpanCost(s.db.runs, Members(s.db, group), w)
  }

  lemma {:induction false} CostIsColumn(s: State, group: nat, w: Window, n: nat)
    requires n <= |s.db.runs|
    ensures Sum(CostSoFarColumn(s, group, w)[..n]) == SpanCost(s.db.runs[..n], Members(s.db, group), w)
    decreases n
  {
    if n > 0 {
      CostIsColumn(s, group, w, n - 1);
      SumPrefixStep(CostSoFarColumn(s, group, w), n - 1);
      assert s.db.runs[..n][..n - 1] == s.db.runs[..n - 1];
    }
  }

  lemma CostSoFarIsSum(s: State, group: nat, w: Window)
    ensures CostSoFar(s, group, w) == Sum(CostSoFarColumn(s, group, w))
    ensures CostSoFar(s, group, w) <= MayCost(s, group, w)
  {
    var n := |s.db.runs|;
    CostIsColumn(s, group, w, n);
    assert s.db.runs[..n] == s.db.runs;
    assert CostSoFarColumn(s, group, w)[..n] == CostSoFarColumn(s, group, w);
    SumMonotone(CostSoFarColumn(s, group, w), MayCostColumn(s, group, w));
  }

  // ---- new money ----------------------------------------------------------

  /** What a step adds to what the window's runs may spend: a load's budget, a top-up, a revived run's grant. */
  ghost function NewMoney(s: State, step: Step, group: nat, w: Window): int {
    var runs := s.db.runs;
    if !(step.LoadNative? || step.TopUp? || step.Revive?) then 0
    else if step.run >= |runs| || !IsIn(w, runs[step.run], Members(s.db, group)) then 0
    else
      match step
      case LoadNative(i) =>
        if IsHoldLive(runs[i], s.at) then EffectiveTop(s, runs[i].agent, Some(OrderOf(s, i))).budget else 0
      case TopUp(i, amount) => if IsHoldLive(runs[i], s.at) then amount else 0
      case Revive(i) => Left(s, i)
  }

  lemma StepWellFormed(s: State, step: Step, s': State)
    requires WellFormed(s) && Next(s, step, s')
    ensures WellFormed(s') && s'.db.agents == s.db.agents && s'.db.groups == s.db.groups && s'.at.now >= s.at.now
  {
    match step
    case CreateNative(agent) => NewRunWellFormed(s, s', s'.db.runs[|s.db.runs|]);
    case LoadNative(i) => LoadWellFormed(s, i, s');
    case DispatchCoding(agent, requested, timeoutSec) =>
      if s' != s {
        NewRunWellFormed(s, s', s'.db.runs[|s.db.runs|]);
      }
    case Spend(i, amount) => SpendWellFormed(s, i, amount, s');
    case TopUp(i, amount) => TopUpWellFormed(s, i, amount, s');
    case Beat(i) => QuietStepWellFormed(s, step, s');
    case Revive(i) => RevivalWellFormed(s, i, s');
    case Finish(i) => QuietStepWellFormed(s, step, s');
    case Tick(at) => QuietStepWellFormed(s, step, s');
  }

  /** A change to row i of the same start and agent moves the total by that row. */
  lemma RowMoves(s: State, s': State, i: nat, group: nat, w: Window)
    requires i < |s.db.runs| == |s'.db.runs| && s'.at == s.at
    requires s'.db == s.db.(runs := s.db.runs[i := s'.db.runs[i]])
    requires forall k :: k != i ==> (k in s'.grants <==> k in s.grants) && (k in s.grants ==> s'.grants[k] == s.grants[k])
    ensures MayCost(s', group, w) == MayCost(s, group, w) - MayCostAt(s, group, w, i) + MayCostAt(s', group, w, i)
  {
    assert Members(s'.db, group) == Members(s.db, group);
    forall k: nat | k < |s.db.runs| && k != i ensures MayCostAt(s', group, w, k) == MayCostAt(s, group, w, k) {
      assert s'.db.runs[k] == s.db.runs[k] && Grant(s', k) == Grant(s, k);
    }
    SumPoint(MayCostColumn(s, group, w), MayCostColumn(s', group, w), i);
  }

  lemma LoadMoves(s: State, i: nat, s': State, group: nat, w: Window)
    requires WellFormed(s) && Next(s, LoadNative(i), s')
    ensures MayCost(s', group, w) == MayCost(s, group, w) + NewMoney(s, LoadNative(i), group, w)
  {
    var budget := EffectiveTop(s, s.db.runs[i].agent, Some(OrderOf(s, i))).budget;
    EffectiveRange(s.db, s.at, s.db.runs[i].agent, Some(OrderOf(s, i)));
    PinnedMoves(s, i, s', group, w, budget);
  }

  lemma PinnedMoves(s: State, i: nat, s': State, group: nat, w: Window, budget: nat)
    requires WellFormed(s) && i < |s.db.runs| && s.db.runs[i].coding.None? && i !in s.grants
    requires s' == WithRun(s, i, Loaded(s.db.runs[i])).(grants := s.grants[i := budget])
    ensures MayCost(s', group, w) == MayCost(s, group, w) +
            if IsIn(w, s.db.runs[i], Members(s.db, group)) && IsHoldLive(s.db.runs[i], s.at) then budget else 0
  {
    assert Members(s'.db, group) == Members(s.db, group);
    assert Grant(s, i) == None && s.db.runs[i].cost == 0;
    RowMoves(s, s', i, group, w);
  }

  lemma TopUpMoves(s: State, i: nat, amount: nat, s': State, group: nat, w: Window)
    requires WellFormed(s) && Next(s, TopUp(i, amount), s')
    ensures MayCost(s', group, w) == MayCost(s, group, w) + NewMoney(s, TopUp(i, amount), group, w)
  {
    RaisedMoves(s, i, amount, s', group, w);
  }

  lemma RaisedMoves(s: State, i: nat, amount: nat, s': State, group: nat, w: Window)
    requires WellFormed(s) && i < |s.db.runs| && s.db.runs[i].coding.Some?
    requires s' == WithRun(s, i, Raised(s.db.runs[i], amount))
    ensures MayCost(s', group, w) == MayCost(s, group, w) +
            if IsIn(w, s.db.runs[i], Members(s.db, group)) && IsHoldLive(s.db.runs[i], s.at) then amount else 0
  {
    assert Members(s'.db, group) == Members(s.db, group);
    assert s.db.runs[i].cost <= Grant(s, i).value;
    RowMoves(s, s', i, group, w);
  }

  lemma RevivalMoves(s: State, i: nat, s': State, group: nat, w: Window)
    requires WellFormed(s) && Next(s, Revive(i), s')
    ensures MayCost(s', group, w) == MayCost(s, group, w) + NewMoney(s, Revive(i), group, w)
  {
    assert Members(s'.db, group) == Members(s.db, group);
    assert Grant(s', i) == Grant(s, i);
    RowMoves(s, s', i, group, w);
  }

  /** Spending moves what a run may spend to what it cost. */
  lemma SpendMoves(s: State, i: nat, amount: nat, s': State, group: nat, w: Window)
    requires WellFormed(s) && Next(s, Spend(i, amount), s')
    ensures MayCost(s', group, w) == MayCost(s, group, w)
  {
    assert Members(s'.db, group) == Members(s.db, group);
    assert Grant(s', i) == Grant(s, i);
    RowMoves(s, s', i, group, w);
  }

  /** Beating, finishing and the clock give no run anything to spend. */
  lemma QuietMoves(s: State, step: Step, s': State, group: nat, w: Window)
    requires WellFormed(s) && Next(s, step, s') && (step.Beat? || step.Finish? || step.Tick?)
    ensures MayCost(s', group, w) <= MayCost(s, group, w)
  {
    QuietStepWellFormed(s, step, s');
    assert Members(s'.db, group) == Members(s.db, group);
    forall k: nat | k < |s.db.runs| ensures MayCostAt(s', group, w, k) <= MayCostAt(s, group, w, k) {
      assert Grant(s', k) == Grant(s, k);
    }
    SumMonotone(MayCostColumn(s', group, w), MayCostColumn(s, group, w));
  }

  /** A run that starts after the window's end is not the window's. */
  lemma AppendMoves(s: State, s': State, r: Run, group: nat, w: Window)
    requires WellFormed(s) && s' == WithNewRun(s, r) && r.startedAt == s.at.now >= w.end
    ensures MayCost(s', group, w) == MayCost(s, group, w)
  {
    assert Members(s'.db, group) == Members(s.db, group);
    forall k: nat | k < |s.db.runs| ensures MayCostAt(s', group, w, k) == MayCostAt(s, group, w, k) {
      assert s'.db.runs[k] == s.db.runs[k] && Grant(s', k) == Grant(s, k);
    }
    assert MayCostColumn(s', group, w) == MayCostColumn(s, group, w) + [0];
    SumAppend(MayCostColumn(s, group, w), 0);
  }

  /** After its end, a window's possible cost grows by new money only. */
  lemma ClosedMoves(s: State, step: Step, s': State, group: nat, w: Window)
    requires WellFormed(s) && Next(s, step, s') && s'.at.now >= w.end
    requires s.at.now >= w.end || step.Tick?
    ensures MayCost(s', group, w) <= MayCost(s, group, w) + NewMoney(s, step, group, w)
    ensures step.LoadNative? || step.TopUp? || step.Revive? ==>
              MayCost(s', group, w) == MayCost(s, group, w) + NewMoney(s, step, group, w)
  {
    match step
    case CreateNative(agent) => AppendMoves(s, s', s'.db.runs[|s.db.runs|], group, w);
    case LoadNative(i) => LoadMoves(s, i, s', group, w);
    case DispatchCoding(agent, requested, timeoutSec) =>
      if s' != s {
        AppendMoves(s, s', s'.db.runs[|s.db.runs|], group, w);
      }
    case Spend(i, amount) => SpendMoves(s, i, amount, s', group, w);
    case TopUp(i, amount) => TopUpMoves(s, i, amount, s', group, w);
    case Beat(i) => QuietMoves(s, step, s', group, w);
    case Revive(i) => RevivalMoves(s, i, s', group, w);
    case Finish(i) => QuietMoves(s, step, s', group, w);
    case Tick(at) => QuietMoves(s, step, s', group, w);
  }

  // ---- every window of every run ------------------------------------------

  /** While a window is open, the ledger's invariant bounds what its runs may come to cost. */
  lemma OpenWindowFits(s: State, group: nat, p: Period, w: Window)
    requires Inv(s) && Capped(s, group, p) && IsPeriod(w, p, s.at) && w.from <= s.at.now < w.end
    ensures MayCost(s, group, w) <= CapOf(s.db.groups[group], p).value
  {
    var start := PeriodStart(p, s.at);
    var v := Whole(s, group);
    assert GroupBudgeted(s, group, p);
    UnspentFits(CostColumn(v, start), ReservedColumn(v, start), UnspentColumn(s, group, start),
                CapOf(s.db.groups[group], p).value);
    forall i: nat | i < |s.db.runs|
      ensures MayCostAt(s, group, w, i) == CostAt(v, start, i) + UnspentAt(s, group, start, i)
    {
      assert IsIn(w, s.db.runs[i], v.members) <==> InWindow(v, start, i);
    }
    SumPlus(CostColumn(v, start), UnspentColumn(s, group, start), MayCostColumn(s, group, w));
  }

  /** Money that reaches a run of a closed window fits beside what the window's runs may still spend. */
  ghost predicate LateMoneyFits(s: State, step: Step, group: nat, w: Window, cap: nat) {
    s.at.now >= w.end && NewMoney(s, step, group, w) > 0 ==>
      MayCost(s, group, w) + NewMoney(s, step, group, w) <= cap
  }

  /**
   * Every day, month, and part of a week inside a month, current or closed,
   * keeps within its cap, for ever, in every run in which money that reaches
   * its runs after its end fits: a load, a top-up or a revival. In particular
   * when none does.
   */
  lemma {:induction false} EveryWindowKeepsCap(states: seq<State>, steps: seq<Step>, k: nat, group: nat, p: Period,
                                               w: Window, cap: nat)
    requires IsFittingRun(states, steps) && k < |states|
    requires group < |states[0].db.groups| && CapOf(states[0].db.groups[group], p) == Some(cap)
    requires forall m :: 0 <= m <= k ==> IsPeriod(w, p, states[m].at)
    requires forall m :: 0 <= m < k ==> LateMoneyFits(states[m], steps[m], group, w, cap)
    ensures CostSoFar(states[k], group, w) <= MayCost(states[k], group, w) <= cap
    ensures states[k].db.groups == states[0].db.groups
    decreases k
  {
    var s := states[k];
    EveryStateKeeps(states, steps, k);
    CostSoFarIsSum(s, group, w);
    if k == 0 {
      ZeroTotal(MayCostColumn(s, group, w));
    } else {
      EveryWindowKeepsCap(states, steps, k - 1, group, p, w, cap);
      EveryStateKeeps(states, steps, k - 1);
      assert Next(states[k - 1], steps[k - 1], s) && LateMoneyFits(states[k - 1], steps[k - 1], group, w, cap);
      WindowStep(states[k - 1], steps[k - 1], s, group, p, w, cap);
    }
  }

  lemma WindowStep(s: State, step: Step, s': State, group: nat, p: Period, w: Window, cap: nat)
    requires WellFormed(s) && Next(s, step, s') && Inv(s') && IsPeriod(w, p, s'.at)
    requires group < |s.db.groups| && CapOf(s.db.groups[group], p) == Some(cap)
    requires MayCost(s, group, w) <= cap && LateMoneyFits(s, step, group, w, cap)
    ensures MayCost(s', group, w) <= cap && s'.db.groups == s.db.groups
  {
    StepWellFormed(s, step, s');
    if s'.at.now < w.from {
      ZeroTotal(MayCostColumn(s', group, w));
    } else if s'.at.now < w.end {
      OpenWindowFits(s', group, p, w);
    } else {
      if s.at.now < w.end {
        OnlyTheClockCloses(s, step, s', w);
      }
      ClosedMoves(s, step, s', group, w);
    }
  }

  lemma OnlyTheClockCloses(s: State, step: Step, s': State, w: Window)
    requires Next(s, step, s') && s.at.now < w.end <= s'.at.now
    ensures step.Tick?
  {
  }

  /** A UTC day is such a window. */
  function DayWindow(day: int): Window {
    Window(day * DAY_MS, (day + 1) * DAY_MS)
  }

  lemma DayIsPeriod(day: int, at: Moment)
    requires ClockValid(at)
    ensures IsPeriod(DayWindow(day), Day, at)
  {
  }

  /** A Monday's week is one as long as no month begins inside it. */
  lemma WeekIsPeriod(monday: int, at: Moment)
    requires (monday + 3) % 7 == 0 && ClockValid(at)
    requires !(monday * DAY_MS < at.monthStart < (monday + 7) * DAY_MS)
    ensures IsPeriod(Window(monday * DAY_MS, (monday + 7) * DAY_MS), Week, at)
  {
    var day := at.now / DAY_MS;
    assert day - (day + 3) % 7 == (day + 3) / 7 * 7 - 3;
    assert monday == (monday + 3) / 7 * 7 - 3;
  }

  /** After the day's end the step brings none of the day's runs money. */
  ghost predicate LeavesDayAlone(s: State, step: Step, group: nat, day: int) {
    s.at.now >= (day + 1) * DAY_MS && (step.LoadNative? || step.TopUp? || step.Revive?) && step.run < |s.db.runs| ==>
      !IsIn(DayWindow(day), s.db.runs[step.run], Members(s.db, group))
  }

  /** A day none of whose runs loads, is topped up or comes back after its end keeps within its cap for ever. */
  lemma EveryDayKeepsCap(states: seq<State>, steps: seq<Step>, k: nat, group: nat, day: int, cap: nat)
    requires IsFittingRun(states, steps) && k < |states|
    requires group < |states[0].db.groups| && states[0].db.groups[group].daily == Some(cap)
    requires forall m :: 0 <= m < k ==> LeavesDayAlone(states[m], steps[m], group, day)
    ensures CostSoFar(states[k], group, DayWindow(day)) <= cap
  {
    forall m | 0 <= m <= k ensures IsPeriod(DayWindow(day), Day, states[m].at) {
      EveryStateKeeps(states, steps, m);
      DayIsPeriod(day, states[m].at);
    }
    forall m | 0 <= m < k ensures LateMoneyFits(states[m], steps[m], group, DayWindow(day), cap) {
      assert LeavesDayAlone(states[m], steps[m], group, day);
    }
    EveryWindowKeepsCap(states, steps, k, group, Day, DayWindow(day), cap);
  }

  // ---- exactly when a closed window is safe -------------------------------

  /** What the machine may do from a state on, when no run of the window gets new money. */
  ghost predicate GoesOn(s: State, states: seq<State>, steps: seq<Step>, group: nat, w: Window) {
    |states| == |steps| + 1 && states[0] == s &&
    forall m :: 0 <= m < |steps| ==>
      Next(states[m], steps[m], states[m + 1]) && NewMoney(states[m], steps[m], group, w) <= 0
  }

  /** No way to go on takes the window past its cap. */
  ghost predicate IsSafe(s: State, group: nat, w: Window, cap: nat) {
    forall states, steps :: GoesOn(s, states, steps, group, w) ==>
      CostSoFar(states[|steps|], group, w) <= cap
  }

  lemma {:induction false} NeverMore(s: State, states: seq<State>, steps: seq<Step>, k: nat, group: nat, w: Window)
    requires WellFormed(s) && s.at.now >= w.end && GoesOn(s, states, steps, group, w) && k < |states|
    ensures WellFormed(states[k]) && states[k].at.now >= w.end
    ensures MayCost(states[k], group, w) <= MayCost(s, group, w)
    decreases k
  {
    if k > 0 {
      NeverMore(s, states, steps, k - 1, group, w);
      assert Next(states[k - 1], steps[k - 1], states[k]) && NewMoney(states[k - 1], steps[k - 1], group, w) <= 0;
      NoMore(states[k - 1], steps[k - 1], states[k], group, w);
    }
  }

  lemma NoMore(s: State, step: Step, s': State, group: nat, w: Window)
    requires WellFormed(s) && s.at.now >= w.end && Next(s, step, s') && NewMoney(s, step, group, w) <= 0
    ensures WellFormed(s') && s'.at.now >= w.end && MayCost(s', group, w) <= MayCost(s, group, w)
  {
    StepWellFormed(s, step, s');
    ClosedMoves(s, step, s', group, w);
  }

  /** Run k spends all its grant leaves. */
  function SpentUp(s: State, k: nat): State
    requires k < |s.db.runs|
  {
    s.(db := s.db.(runs := s.db.runs[k := s.db.runs[k].(cost := s.db.runs[k].cost + Left(s, k))]))
  }

  /** The window's runs from the k-th on spend all they may, one after another. */
  lemma {:induction false} SpendAll(s: State, group: nat, w: Window, k: nat) returns (states: seq<State>, steps: seq<Step>)
    requires WellFormed(s) && k <= |s.db.runs|
    requires forall i: nat :: i < k ==> CostSoFarAt(s, group, w, i) == MayCostAt(s, group, w, i)
    ensures GoesOn(s, states, steps, group, w)
    ensures CostSoFar(states[|steps|], group, w) == MayCost(s, group, w)
    decreases |s.db.runs| - k
  {
    if k == |s.db.runs| {
      states, steps := [s], [];
      assert CostSoFarColumn(s, group, w) == MayCostColumn(s, group, w);
      CostSoFarIsSum(s, group, w);
    } else if CostSoFarAt(s, group, w, k) == MayCostAt(s, group, w, k) {
      states, steps := SpendAll(s, group, w, k + 1);
    } else {
      var step, s' := Spend(k, Left(s, k)), SpentUp(s, k);
      SpentUpRows(s, group, w, k);
      StepWellFormed(s, step, s');
      SpendMoves(s, k, Left(s, k), s', group, w);
      var rest, restSteps := SpendAll(s', group, w, k + 1);
      states, steps := [s] + rest, [step] + restSteps;
      assert states[|steps|] == rest[|restSteps|];
      forall m | 0 <= m < |steps| ensures Next(states[m], steps[m], states[m + 1]) && NewMoney(states[m], steps[m], group, w) <= 0 {
        if m > 0 {
          assert states[m] == rest[m - 1] && states[m + 1] == rest[m] && steps[m] == restSteps[m - 1];
        }
      }
    }
  }

  lemma SpentUpRows(s: State, group: nat, w: Window, k: nat)
    requires WellFormed(s) && k < |s.db.runs| && CostSoFarAt(s, group, w, k) != MayCostAt(s, group, w, k)
    requires forall i: nat :: i < k ==> CostSoFarAt(s, group, w, i) == MayCostAt(s, group, w, i)
    ensures Next(s, Spend(k, Left(s, k)), SpentUp(s, k))
    ensures forall i: nat :: i <= k ==> CostSoFarAt(SpentUp(s, k), group, w, i) == MayCostAt(SpentUp(s, k), group, w, i)
  {
    var s' := SpentUp(s, k);
    assert Members(s'.db, group) == Members(s.db, group);
    assert Left(s, k) > 0;
    forall i: nat | i <= k ensures CostSoFarAt(s', group, w, i) == MayCostAt(s', group, w, i) {
      assert Grant(s', i) == Grant(s, i);
      if i < k {
        assert s'.db.runs[i] == s.db.runs[i];
        assert CostSoFarAt(s, group, w, i) == MayCostAt(s, group, w, i);
      }
    }
  }

  /** A closed window stays within its cap for ever exactly when its cost and its live runs' unspent grants are within it. */
  lemma SafeIff(s: State, group: nat, w: Window, cap: nat)
    requires WellFormed(s) && s.at.now >= w.end
    ensures IsSafe(s, group, w, cap) <==> MayCost(s, group, w) <= cap
  {
    if MayCost(s, group, w) <= cap {
      forall states, steps | GoesOn(s, states, steps, group, w)
        ensures CostSoFar(states[|steps|], group, w) <= cap
      {
        NeverMore(s, states, steps, |steps|, group, w);
        CostSoFarIsSum(states[|steps|], group, w);
      }
    } else {
      var states, steps := SpendAll(s, group, w, 0);
      assert GoesOn(s, states, steps, group, w);
    }
  }

  /**
   * One late load, top-up or revival leaves the closed window safe exactly when
   * the money it brings fits beside the window's cost and unspent grants.
   */
  lemma LateMoneySafeIff(s: State, step: Step, s': State, group: nat, w: Window, cap: nat)
    requires WellFormed(s) && s.at.now >= w.end && Next(s, step, s')
    requires step.LoadNative? || step.TopUp? || step.Revive?
    ensures IsSafe(s', group, w, cap) <==> MayCost(s, group, w) + NewMoney(s, step, group, w) <= cap
  {
    StepWellFormed(s, step, s');
    ClosedMoves(s, step, s', group, w);
    SafeIff(s', group, w, cap);
  }
}
