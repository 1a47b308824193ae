/** Runs of the machine that take a day past its cap: by a late load, by a late top-up, and by a hold that comes back. */
module ClosedDays {
  import opened Common
  import opened Sums
  import opened BudgetGroups
  import opened RunTrees
  import opened EffectiveBudgets
  import opened Ledger
  import opened ClosedWindows

  /** One agent with a budget of 10, in a group with a daily cap of 10. */
  function At(at: Moment, runs: seq<Run>, grants: map<nat, int>): State {
    State(Db(runs, [Agent(10, Some(0), 0)], [Caps(Some(10), None, None)]), at, grants)
  }

  /** A day of the group in which nothing was spent and nothing is held has all its 10 left. */
  lemma WholeDay(s: State, opts: SpendOptions)
    requires s == At(s.at, s.db.runs, s.grants)
    requires var v := View(s.db, Members(s.db, 0), s.at, opts);
             forall k: nat :: k < |s.db.runs| ==>
               CostAt(v, PeriodStart(Day, s.at), k) == 0 && ReservedAt(v, PeriodStart(Day, s.at), k) == 0
    ensures |GroupCandidates(s.db, Some(0), s.at, opts)| == 1 && GroupCandidates(s.db, Some(0), s.at, opts)[0].value == 10
  {
    var v := View(s.db, Members(s.db, 0), s.at, opts);
    var start := PeriodStart(Day, s.at);
    ZeroTotal(CostColumn(v, start));
    ZeroTotal(ReservedColumn(v, start));
    assert GroupSpend(v, s.db.groups[0]) == [SpendOf(v, Day, 10)];
    CandidateValues(GroupSpend(v, s.db.groups[0]));
  }

  /** Then whoever asks gets the agent's whole budget. */
  lemma WholeBudget(s: State, self: Option<RunOrder>)
    requires s == At(s.at, s.db.runs, s.grants)
    requires var v := View(s.db, Members(s.db, 0), s.at, SpendOptions(SelfId(self), {}, self));
             forall k: nat :: k < |s.db.runs| ==>
               CostAt(v, PeriodStart(Day, s.at), k) == 0 && ReservedAt(v, PeriodStart(Day, s.at), k) == 0
    ensures EffectiveTop(s, 0, self).budget == 10
  {
    WholeDay(s, SpendOptions(SelfId(self), {}, self));
    LeastValueIsMinimum(10, GroupCandidates(s.db, Some(0), s.at, SpendOptions(SelfId(self), {}, self)));
  }

  /** The steps of a story lead from state to state, from an empty ledger, and no hold comes back. */
  lemma StoryIsRun(states: seq<State>, steps: seq<Step>)
    requires |states| == |steps| + 1 && Init(states[0])
    requires forall k :: 0 <= k < |steps| ==> Next(states[k], steps[k], states[k + 1]) && !steps[k].Revive?
    ensures IsFittingRun(states, steps)
  {
  }

  lemma TwoRunsCost(s: State, w: Window)
    requires s == At(s.at, s.db.runs, s.grants) && |s.db.runs| == 2
    requires forall i :: 0 <= i < 2 ==> s.db.runs[i].agent == 0 && w.from <= s.db.runs[i].startedAt < w.end
    ensures CostSoFar(s, 0, w) == s.db.runs[0].cost + s.db.runs[1].cost
  {
    var runs, members := s.db.runs, Members(s.db, 0);
    assert 0 in members;
    assert runs[..1][..0] == [];
    assert SpanCost(runs[..1], members, w) == runs[0].cost;
  }

  // ---- a late load --------------------------------------------------------

  const LATE := Moment(DAY_MS - 1, 0, 0)
  const NEXT_DAY := Moment(DAY_MS, 0, 0)

  function Native(status: Status, cost: nat): Run {
    Run(0, status, cost, DAY_MS - 1, None, None, None)
  }

  function Loads(): seq<State> {
    [At(LATE, [], map[]),
     At(LATE, [Native(Pending, 0)], map[]),
     At(LATE, [Native(Pending, 0), Native(Pending, 0)], map[]),
     At(LATE, [Native(Running, 0), Native(Pending, 0)], map[0 := 10]),
     At(LATE, [Native(Running, 10), Native(Pending, 0)], map[0 := 10]),
     At(NEXT_DAY, [Native(Running, 10), Native(Pending, 0)], map[0 := 10]),
     At(NEXT_DAY, [Native(Running, 10), Native(Running, 0)], map[0 := 10, 1 := 10]),
     At(NEXT_DAY, [Native(Running, 10), Native(Running, 10)], map[0 := 10, 1 := 10])]
  }

  const LOADS: seq<Step> :=
    [CreateNative(0), CreateNative(0), LoadNative(0), Spend(0, 10), Tick(NEXT_DAY), LoadNative(1), Spend(1, 10)]

  lemma FirstLoads()
    ensures Next(Loads()[2], LoadNative(0), Loads()[3])
  {
    var s, s' := Loads()[2], Loads()[3];
    var self := Some(OrderOf(s, 0));
    TopLevelHolds(View(s.db, Members(s.db, 0), s.at, SpendOptions(SelfId(self), {}, self)), PeriodStart(Day, s.at));
    WholeBudget(s, self);
    assert s'.db.runs == s.db.runs[0 := Native(Running, 0)];
    assert s'.grants == s.grants[0 := 10];
  }

  lemma SecondLoads()
    ensures Next(Loads()[5], LoadNative(1), Loads()[6])
  {
    var s, s' := Loads()[5], Loads()[6];
    WholeBudget(s, Some(OrderOf(s, 1)));
    assert s'.db.runs == s.db.runs[1 := Native(Running, 0)];
    assert s'.grants == s.grants[1 := 10];
  }

  lemma BothSpend()
    ensures Next(Loads()[3], Spend(0, 10), Loads()[4]) && Next(Loads()[6], Spend(1, 10), Loads()[7])
  {
    assert Loads()[4].db.runs == Loads()[3].db.runs[0 := Native(Running, 10)];
    assert Loads()[7].db.runs == Loads()[6].db.runs[1 := Native(Running, 10)];
  }

  lemma BothCreated()
    ensures Next(Loads()[0], CreateNative(0), Loads()[1]) && Next(Loads()[1], CreateNative(0), Loads()[2])
  {
    assert Loads()[1].db.runs == Loads()[0].db.runs + [Native(Pending, 0)];
    assert Loads()[2].db.runs == Loads()[1].db.runs + [Native(Pending, 0)];
  }

  lemma LoadsLead(k: nat)
    requires k < |LOADS|
    ensures Next(Loads()[k], LOADS[k], Loads()[k + 1]) && !LOADS[k].Revive?
  {
    if k < 2 {
      BothCreated();
    } else if k == 2 {
      FirstLoads();
    } else if k == 5 {
      SecondLoads();
    } else if k != 4 {
      BothSpend();
    }
  }

  /**
   * Two runs of a 10-a-day group start just before midnight; one loads and
   * spends before it, the other after it. Each saw a day with 10 left, so the
   * runs that started on the closed day cost 20.
   */
  lemma LateLoadExceedsCap() returns (states: seq<State>, steps: seq<Step>)
    ensures IsFittingRun(states, steps) && states[|steps|].db.groups == [Caps(Some(10), None, None)]
    ensures CostSoFar(states[|steps|], 0, DayWindow(0)) == 20
  {
    states, steps := Loads(), LOADS;
    forall k | 0 <= k < |LOADS| ensures Next(Loads()[k], LOADS[k], Loads()[k + 1]) && !LOADS[k].Revive? {
      LoadsLead(k);
    }
    StoryIsRun(states, steps);
    TwoRunsCost(Loads()[7], DayWindow(0));
  }

  // ---- a late top-up ------------------------------------------------------

  function Reserving(reserved: nat, cost: nat): Run {
    Run(0, Pending, cost, DAY_MS - 1, None, None, Some(Coding(reserved, 0)))
  }

  function TopUps(): seq<State> {
    [At(LATE, [], map[]),
     At(LATE, [Reserving(10, 0)], map[]),
     At(LATE, [Reserving(10, 10)], map[]),
     At(NEXT_DAY, [Reserving(10, 10)], map[]),
     At(NEXT_DAY, [Reserving(20, 10)], map[]),
     At(NEXT_DAY, [Reserving(20, 20)], map[])]
  }

  const TOP_UPS: seq<Step> := [DispatchCoding(0, 10, 0), Spend(0, 10), Tick(NEXT_DAY), TopUp(0, 10), Spend(0, 10)]

  lemma Dispatches()
    ensures Next(TopUps()[0], DispatchCoding(0, 10, 0), TopUps()[1])
  {
    WholeBudget(TopUps()[0], None);
    assert TopUps()[1].db.runs == TopUps()[0].db.runs + [Reserving(10, 0)];
  }

  /** The next day's window is empty, so its room is the whole cap. */
  lemma ToppedUp()
    ensures Next(TopUps()[3], TopUp(0, 10), TopUps()[4])
  {
    var s := TopUps()[3];
    WholeDay(s, WHOLE);
    assert RoomCandidates(s.db, s.at, 0, 0) == GroupCandidates(s.db, Some(0), s.at, WHOLE);
    LeastCandidateIsMinimum(RoomCandidates(s.db, s.at, 0, 0));
    assert TopUps()[4].db.runs == s.db.runs[0 := Reserving(20, 10)];
  }

  lemma TopUpsLead(k: nat)
    requires k < |TOP_UPS|
    ensures Next(TopUps()[k], TOP_UPS[k], TopUps()[k + 1]) && !TOP_UPS[k].Revive?
  {
    if k == 0 {
      Dispatches();
    } else if k == 3 {
      ToppedUp();
    } else if k != 2 {
      assert TopUps()[2].db.runs == TopUps()[1].db.runs[0 := Reserving(10, 10)];
      assert TopUps()[5].db.runs == TopUps()[4].db.runs[0 := Reserving(20, 20)];
    }
  }

  /** A coding run that spent its day's cap before midnight is topped up from the next day's room. */
  lemma LateTopUpExceedsCap() returns (states: seq<State>, steps: seq<Step>)
    ensures IsFittingRun(states, steps) && states[|steps|].db.groups == [Caps(Some(10), None, None)]
    ensures CostSoFar(states[|steps|], 0, DayWindow(0)) == 20
  {
    states, steps := TopUps(), TOP_UPS;
    forall k | 0 <= k < |TOP_UPS| ensures Next(TopUps()[k], TOP_UPS[k], TopUps()[k + 1]) && !TOP_UPS[k].Revive? {
      TopUpsLead(k);
    }
    StoryIsRun(states, steps);
    assert 0 in Members(TopUps()[5].db, 0);
    assert TopUps()[5].db.runs[..0] == [];
  }

  // ---- a hold that comes back ---------------------------------------------

  const EARLY := Moment(0, 0, 0)
  const LAPSED := Moment(HOLD_HEARTBEAT_TTL_MS + 1, 0, 0)

  function First(status: Status, cost: nat, beat: Option<int>): Run {
    Run(0, status, cost, 0, beat, None, None)
  }

  function Second(status: Status, cost: nat): Run {
    Run(0, status, cost, LAPSED.now, None, None, None)
  }

  function Revivals(): seq<State> {
    [At(EARLY, [], map[]),
     At(EARLY, [First(Pending, 0, None)], map[]),
     At(EARLY, [First(Running, 0, None)], map[0 := 10]),
     At(LAPSED, [First(Running, 0, None)], map[0 := 10]),
     At(LAPSED, [First(Running, 0, None), Second(Pending, 0)], map[0 := 10]),
     At(LAPSED, [First(Running, 0, None), Second(Running, 0)], map[0 := 10, 1 := 10]),
     At(LAPSED, [First(Running, 0, None), Second(Running, 10)], map[0 := 10, 1 := 10]),
     At(LAPSED, [First(Running, 0, Some(LAPSED.now)), Second(Running, 10)], map[0 := 10, 1 := 10]),
     At(LAPSED, [First(Running, 10, Some(LAPSED.now)), Second(Running, 10)], map[0 := 10, 1 := 10])]
  }

  const REVIVALS: seq<Step> :=
    [CreateNative(0), LoadNative(0), Tick(LAPSED), CreateNative(0), LoadNative(1), Spend(1, 10), Revive(0), Spend(0, 10)]

  lemma LapsingLoads()
    ensures Next(Revivals()[1], LoadNative(0), Revivals()[2])
  {
    var s, s' := Revivals()[1], Revivals()[2];
    var self := Some(OrderOf(s, 0));
    TopLevelHolds(View(s.db, Members(s.db, 0), s.at, SpendOptions(SelfId(self), {}, self)), PeriodStart(Day, s.at));
    WholeBudget(s, self);
    assert s'.db.runs == s.db.runs[0 := First(Running, 0, None)];
    assert s'.grants == s.grants[0 := 10];
  }

  lemma LoadsBesideLapsed()
    ensures Next(Revivals()[4], LoadNative(1), Revivals()[5])
  {
    var s, s' := Revivals()[4], Revivals()[5];
    var self := Some(OrderOf(s, 1));
    TopLevelHolds(View(s.db, Members(s.db, 0), s.at, SpendOptions(SelfId(self), {}, self)), PeriodStart(Day, s.at));
    WholeBudget(s, self);
    assert s'.db.runs == s.db.runs[1 := Second(Running, 0)];
    assert s'.grants == s.grants[1 := 10];
  }

  lemma RevivedSpends()
    ensures Next(Revivals()[5], Spend(1, 10), Revivals()[6])
    ensures Next(Revivals()[6], Revive(0), Revivals()[7]) && Next(Revivals()[7], Spend(0, 10), Revivals()[8])
  {
    assert Revivals()[6].db.runs == Revivals()[5].db.runs[1 := Second(Running, 10)];
    assert Revivals()[7].db.runs == Revivals()[6].db.runs[0 := First(Running, 0, Some(LAPSED.now))];
    assert Revivals()[8].db.runs == Revivals()[7].db.runs[0 := First(Running, 10, Some(LAPSED.now))];
  }

  lemma RevivalCreates()
    ensures Next(Revivals()[0], CreateNative(0), Revivals()[1]) && Next(Revivals()[3], CreateNative(0), Revivals()[4])
  {
    assert Revivals()[1].db.runs == Revivals()[0].db.runs + [First(Pending, 0, None)];
    assert Revivals()[4].db.runs == Revivals()[3].db.runs + [Second(Pending, 0)];
  }

  lemma RevivalsLead(k: nat)
    requires k < |REVIVALS|
    ensures Next(Revivals()[k], REVIVALS[k], Revivals()[k + 1])
  {
    if k == 0 || k == 3 {
      RevivalCreates();
    } else if k == 1 {
      LapsingLoads();
    } else if k == 4 {
      LoadsBesideLapsed();
    } else if k != 2 {
      RevivedSpends();
    }
  }

  /** A loaded run's hold lapses, a second run is let in on its money, and the first one is recovered and spends too. */
  lemma RevivalExceedsCap() returns (states: seq<State>, steps: seq<Step>)
    ensures IsRun(states, steps) && states[|steps|].db.groups == [Caps(Some(10), None, None)]
    ensures states[|steps|].at.now < DAY_MS && CostSoFar(states[|steps|], 0, DayWindow(0)) == 20
  {
    states, steps := Revivals(), REVIVALS;
    forall k | 0 <= k < |REVIVALS| ensures Next(Revivals()[k], REVIVALS[k], Revivals()[k + 1]) {
      RevivalsLead(k);
    }
    TwoRunsCost(Revivals()[8], DayWindow(0));
  }
}
