/** A delegated tree deep enough that a top-up is committed twice, and that dispatch would write. */
module DeepTrees {
  import opened Common
  import opened Sums
  import opened BudgetGroups
  import opened RunTrees
  import opened EffectiveBudgets
  import opened BudgetLaws

  const DEPTH: nat := 33
  const AT := Moment(0, 0, 0)

  /** Every run delegated to the next agent's; the last one is a coding run. */
  function ChainRun(i: nat): Run {
    Run(i, Pending, 0, 0, None, if i == 0 then None else Some(i - 1), if i == DEPTH then Some(Coding(10, 0)) else None)
  }

  /** The first n runs of the chain, of as many agents, each with a budget of 10 in one group with a daily cap of 100. */
  function Chain(n: nat): Db {
    Db(seq(n, i requires 0 <= i => ChainRun(i)), seq(DEPTH + 1, i => Agent(10, Some(0), 50)), [Caps(Some(100), None, None)])
  }

  function ChainView(n: nat, opts: SpendOptions): View {
    View(Chain(n), Members(Chain(n), 0), AT, opts)
  }

  lemma {:induction false} ChainUp(n: nat, x: nat, k: nat)
    requires k <= x < n
    ensures Up(Chain(n).runs, x, k) == Some(x - k)
    decreases k
  {
    if k > 0 {
      ChainUp(n, x - 1, k - 1);
    }
  }

  lemma ChainIsTree(n: nat, x: nat)
    requires x < n
    ensures InTree(Chain(n).runs, 0, x) && IsRoot(Chain(n).runs, 0)
  {
    ChainUp(n, x, x);
  }

  // ---- dispatch grants the last run its reservation -----------------------

  /** The group and the tree see no cost, and nobody off the last run's ancestor chain who holds. */
  lemma NothingBesideTheChain(opts: SpendOptions)
    requires forall x: nat :: x < DEPTH ==> x in opts.excludeReservations || x in opts.excludeRuns
    ensures |GroupCandidates(Chain(DEPTH), Some(0), AT, opts)| == 1
    ensures GroupCandidates(Chain(DEPTH), Some(0), AT, opts)[0].value == 100
  {
    var v := ChainView(DEPTH, opts);
    var start := PeriodStart(Day, AT);
    forall i: nat | i < DEPTH ensures ReservedAt(v, start, i) == 0 && CostAt(v, start, i) == 0 {
    }
    AllZero(CostColumn(v, start));
    AllZero(ReservedColumn(v, start));
    assert GroupSpend(v, v.db.groups[0]) == [SpendOf(v, Day, 100)];
    CandidateValues(GroupSpend(v, v.db.groups[0]));
  }

  lemma {:induction false} AllZero(xs: seq<int>)
    requires forall i :: 0 <= i < |xs| ==> xs[i] == 0
    ensures Sum(xs) == 0
    decreases |xs|
  {
    if xs != [] {
      AllZero(xs[..|xs| - 1]);
    }
  }

  lemma ChainIsWholeTree()
    ensures forall x: nat :: x < DEPTH ==> x in TreeRuns(Chain(DEPTH).runs, 0)
  {
    forall x: nat | x < DEPTH ensures x in TreeRuns(Chain(DEPTH).runs, 0) {
      ChainIsTree(DEPTH, x);
    }
  }

  lemma WholeTreeIsLeft()
    ensures TreeSpendOf(Chain(DEPTH), AT, 0, DEPTH - 1, None, false).remaining == 10
  {
    var db := Chain(DEPTH);
    ChainIsWholeTree();
    var siblings := SiblingColumn(db, AT, 0, DEPTH - 1, None);
    forall r: nat | r < DEPTH ensures siblings[r] == 0 {
      ChainUp(DEPTH, DEPTH - 1, DEPTH - 1 - r);
      assert OnChain(db.runs, DEPTH - 1, r);
    }
    var opts := SpendOptions({}, TreeRuns(db.runs, 0), Some(RunOrder(0, 0)));
    NothingBesideTheChain(opts);
    LeastValueIsMinimum(10, GroupCandidates(db, Some(0), AT, opts));
    AllZero(TreeCostColumn(db.runs, 0));
    AllZero(siblings);
  }

  lemma TightenedToTen(cs: seq<Candidate>, c: Candidate)
    requires |cs| == 1 && cs[0].value == 100 && c.value == 10
    ensures Tighten(10, cs + [c]).budget == 10
  {
    LeastValueIsMinimum(10, cs + [c]);
  }

  /** What dispatch asks of the tree and of the group when it places the last run. */
  lemma PlacedCandidates() returns (cs: seq<Candidate>, c: Candidate)
    ensures EffectiveFor(Chain(DEPTH), DEPTH, AT, Some(Place(DEPTH - 1, 0)), None) == Tighten(10, cs + [c])
    ensures cs == GroupCandidates(Chain(DEPTH), Some(0), AT, PlaceOptions(Chain(DEPTH), Some(0), 0, None))
    ensures c == TreeCandidate(TreeSpendOf(Chain(DEPTH), AT, 0, DEPTH - 1, None, false))
  {
    var db := Chain(DEPTH);
    assert AgentOf(db, DEPTH) == Agent(10, Some(0), 50);
    cs := GroupCandidates(db, Some(0), AT, PlaceOptions(db, Some(0), 0, None));
    c := TreeCandidate(TreeSpendOf(db, AT, 0, DEPTH - 1, None, false));
  }

  lemma PlacedOptions()
    ensures PlaceOptions(Chain(DEPTH), Some(0), 0, None).excludeReservations == TreeRuns(Chain(DEPTH).runs, 0)
  {
    assert AgentOf(Chain(DEPTH), 0) == Agent(10, Some(0), 50);
  }

  /** With the other runs in the table, the last one's effective budget is its agent's whole 10. */
  lemma DispatchGrants()
    ensures EffectiveFor(Chain(DEPTH), DEPTH, AT, Some(Place(DEPTH - 1, 0)), None).budget == 10
  {
    var cs, c := PlacedCandidates();
    PlacedOptions();
    ChainIsWholeTree();
    NothingBesideTheChain(PlaceOptions(Chain(DEPTH), Some(0), 0, None));
    WholeTreeIsLeft();
    TightenedToTen(cs, c);
  }

  // ---- a raise of it commits twice ----------------------------------------

  lemma LastIsHeldTwice()
    ensures IsHeldTwice(ChainView(DEPTH + 1, WHOLE), 0, DEPTH, 0)
    ensures ChildHolds(ChainView(DEPTH + 1, WHOLE), 0) >= 10
  {
    var v := ChainView(DEPTH + 1, WHOLE);
    var runs, one: nat := v.db.runs, 1;
    ChainUp(DEPTH + 1, 1, 1);
    assert one <= MAX_TREE_DEPTH && Up(runs, 1, one) == Some(0);
    RootOfIff(runs, 1, 0);
    assert Counted(v, 1) && HeldRoot(v, 0);
    if RootOf(runs, DEPTH).Some? {
      var n := RootWithinReaches(runs, DEPTH, MAX_TREE_DEPTH);
      ChainUp(DEPTH + 1, DEPTH, n);
    }
    ChainIsTree(DEPTH + 1, DEPTH);
    ChainIsTree(DEPTH + 1, 1);
    SumCovers(ChildHoldColumn(v, 0), 1);
  }

  lemma OneMoreCommitsTwo()
    ensures Committed(WithRaise(ChainView(DEPTH + 1, WHOLE), DEPTH, 1), 0) ==
            Committed(ChainView(DEPTH + 1, WHOLE), 0) + 2
  {
    var v := ChainView(DEPTH + 1, WHOLE);
    LastIsHeldTwice();
    SumNonNegative(TreeCostColumn(v.db.runs, 0));
    TwiceHeldRaise(v, 0, DEPTH, 0, 1);
  }

  lemma ChainGrows()
    ensures Chain(DEPTH + 1).runs[..DEPTH] == Chain(DEPTH).runs && Chain(DEPTH + 1).agents == Chain(DEPTH).agents
    ensures Chain(DEPTH + 1).runs[DEPTH].coding == Some(Coding(10, 0))
  {
  }

  /**
   * 33 delegations deep, with distinct agents of positive budgets under one
   * cap, the last one dispatched within its effective budget: one micro-dollar
   * more for it commits two.
   */
  lemma DeepRaiseExists()
    ensures var db := Chain(DEPTH + 1);
            db.runs[DEPTH].coding == Some(Coding(10, 0)) && db.runs[..DEPTH] == Chain(DEPTH).runs &&
            db.agents == Chain(DEPTH).agents
    ensures EffectiveFor(Chain(DEPTH), DEPTH, AT, Some(Place(DEPTH - 1, 0)), None).budget == 10
    ensures Committed(WithRaise(ChainView(DEPTH + 1, WHOLE), DEPTH, 1), 0) ==
            Committed(ChainView(DEPTH + 1, WHOLE), 0) + 2
  {
    ChainGrows();
    DispatchGrants();
    OneMoreCommitsTwo();
  }

  /** On the same chain the root's own spending, within its reservation, raises the group's total. */
  lemma RootSpendMayRaise()
    ensures var v := ChainView(DEPTH + 1, WHOLE);
            HeldRoot(v, 0) && 1 <= Unspent(Reservation(v, v.db.runs[0]), v.db.runs[0]) &&
            Committed(WithCost(v, 0, 1), 0) > Committed(v, 0)
  {
    var v := ChainView(DEPTH + 1, WHOLE);
    LastIsHeldTwice();
    SumNonNegative(TreeCostColumn(v.db.runs, 0));
    RootSpendRaisesIff(v, 0, 0, 1);
  }
}
