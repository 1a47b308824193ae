/** Native runs that ask for their budgets against one table are served first come, first served. */
module FirstCome {
  import opened Common
  import opened Sums
  import opened BudgetGroups
  import opened RunTrees
  import opened EffectiveBudgets

  /** A live native member run of the period at its load: top-level, nothing spent, nothing delegated yet. */
  ghost predicate Asker(db: Db, at: Moment, group: nat, p: Period, i: nat) {
    IsRoot(db.runs, i) &&
    var r := db.runs[i];
    r.coding.None? && r.cost == 0 && IsHoldLive(r, at) && r.agent < |db.agents| &&
    db.agents[r.agent].group == Some(group) &&
    r.startedAt >= PeriodStart(p, at) && r.startedAt >= at.monthStart &&
    forall x: nat :: InTree(db.runs, i, x) ==> x == i
  }

  function OrderOf(db: Db, i: nat): RunOrder
    requires i < |db.runs|
  {
    RunOrder(i, db.runs[i].startedAt)
  }

  ghost function GrantOf(db: Db, at: Moment, i: nat): int
    requires i < |db.runs|
  {
    EffectiveFor(db, db.runs[i].agent, at, None, Some(OrderOf(db, i))).budget
  }

  ghost predicate InLine(db: Db, asks: seq<nat>) {
    (forall a :: 0 <= a < |asks| ==> asks[a] < |db.runs|) &&
    forall a, b :: 0 <= a < b < |asks| ==> IsOrderedBefore(OrderOf(db, asks[a]), OrderOf(db, asks[b]))
  }

  ghost function GrantTotal(db: Db, at: Moment, asks: seq<nat>): int
    requires forall a :: 0 <= a < |asks| ==> asks[a] < |db.runs|
  {
    if asks == [] then 0 else GrantTotal(db, at, asks[..|asks| - 1]) + GrantOf(db, at, asks[|asks| - 1])
  }

  /** What run i's own query sees: everyone's cost, and the holds before it. */
  ghost function AskingView(db: Db, at: Moment, group: nat, i: nat): View
    requires i < |db.runs|
  {
    View(db, Members(db, group), at, SpendOptions({i}, {}, Some(OrderOf(db, i))))
  }

  /** An earlier asker holds its whole own budget in every later asker's query. */
  lemma EarlierHoldsOwn(db: Db, at: Moment, group: nat, p: Period, j: nat, i: nat)
    requires Asker(db, at, group, p, j) && i < |db.runs| && IsOrderedBefore(OrderOf(db, j), OrderOf(db, i))
    ensures ReservedAt(AskingView(db, at, group, i), PeriodStart(p, at), j) == db.agents[db.runs[j].agent].budget
  {
    var v := AskingView(db, at, group, i);
    assert RootOf(db.runs, j) == Some(j);
    if HeldRoot(v, j) {
      var k :| Counted(v, k) && k != j && RootOf(db.runs, k) == Some(j);
      RootOfIsRoot(db.runs, k);
      assert false;
    }
  }

  ghost function TotalAt(xs: seq<int>, ids: seq<nat>): int
    requires forall a :: 0 <= a < |ids| ==> ids[a] < |xs|
  {
    if ids == [] then 0 else TotalAt(xs, ids[..|ids| - 1]) + xs[ids[|ids| - 1]]
  }

  /** Distinct rows of a non-negative column total at most the column. */
  lemma {:induction false} DistinctRowsBelow(xs: seq<int>, ids: seq<nat>)
    requires forall a :: 0 <= a < |ids| ==> ids[a] < |xs|
    requires forall i :: 0 <= i < |xs| ==> xs[i] >= 0
    requires NoDuplicates(ids)
    ensures TotalAt(xs, ids) <= Sum(xs)
    decreases |ids|
  {
    if ids == [] {
      SumNonNegative(xs);
    } else {
      var n := |ids| - 1;
      var k := ids[n];
      DistinctRowsBelow(xs[k := 0], ids[..n]);
      SumPoint(xs, xs[k := 0], k);
      SameTotalAt(xs, xs[k := 0], ids[..n]);
    }
  }

  lemma {:induction false} SameTotalAt(xs: seq<int>, ys: seq<int>, ids: seq<nat>)
    requires |xs| == |ys| && forall a :: 0 <= a < |ids| ==> ids[a] < |xs| && xs[ids[a]] == ys[ids[a]]
    ensures TotalAt(xs, ids) == TotalAt(ys, ids)
    decreases |ids|
  {
    if ids != [] {
      SameTotalAt(xs, ys, ids[..|ids| - 1]);
    }
  }

  /** The grants before run i are covered by the holds its query counts. */
  lemma {:induction false} GrantsBelowHolds(db: Db, at: Moment, group: nat, p: Period, asks: seq<nat>, i: nat)
    requires i < |db.runs| && InLine(db, asks)
    requires forall a :: 0 <= a < |asks| ==>
               Asker(db, at, group, p, asks[a]) && IsOrderedBefore(OrderOf(db, asks[a]), OrderOf(db, i))
    ensures GrantTotal(db, at, asks) <=
            TotalAt(ReservedColumn(AskingView(db, at, group, i), PeriodStart(p, at)), asks)
    decreases |asks|
  {
    if asks != [] {
      var j := asks[|asks| - 1];
      GrantsBelowHolds(db, at, group, p, asks[..|asks| - 1], i);
      EarlierHoldsOwn(db, at, group, p, j, i);
      EffectiveRange(db, at, db.runs[j].agent, Some(OrderOf(db, j)));
    }
  }

  /**
   * Any number of native runs, asking in any order against the same recorded
   * spend, are granted together at most what a capped period has left.
   */
  lemma {:induction false} GrantsFitTogether(db: Db, at: Moment, group: nat, p: Period, asks: seq<nat>)
    requires group < |db.groups| && CapOf(db.groups[group], p).Some?
    requires InLine(db, asks)
    requires forall a :: 0 <= a < |asks| ==> Asker(db, at, group, p, asks[a])
    ensures GrantTotal(db, at, asks) <=
            Max(0, CapOf(db.groups[group], p).value - Spent(View(db, Members(db, group), at, WHOLE), PeriodStart(p, at)))
    decreases |asks|
  {
    if asks != [] {
      var n := |asks| - 1;
      GrantsFitTogether(db, at, group, p, asks[..n]);
      EffectiveRange(db, at, db.runs[asks[n]].agent, Some(OrderOf(db, asks[n])));
      if GrantOf(db, at, asks[n]) > 0 {
        LastGrantFits(db, at, group, p, asks[..n], asks[n]);
      }
    }
  }

  /** A positive grant leaves room for all grants before it. */
  lemma {:induction false} LastGrantFits(db: Db, at: Moment, group: nat, p: Period, asks: seq<nat>, i: nat)
    requires group < |db.groups| && CapOf(db.groups[group], p).Some? && i < |db.runs| && InLine(db, asks)
    requires Asker(db, at, group, p, i) && GrantOf(db, at, i) > 0
    requires forall a :: 0 <= a < |asks| ==>
               Asker(db, at, group, p, asks[a]) && IsOrderedBefore(OrderOf(db, asks[a]), OrderOf(db, i))
    ensures GrantTotal(db, at, asks) + GrantOf(db, at, i) <=
            CapOf(db.groups[group], p).value - Spent(View(db, Members(db, group), at, WHOLE), PeriodStart(p, at))
  {
    var start := PeriodStart(p, at);
    var v, self := AskingView(db, at, group, i), Some(OrderOf(db, i));
    EffectiveFits(db, at, db.runs[i].agent, self, group, p);
    assert SelfId(self) == {i};
    GrantsBelowHolds(db, at, group, p, asks, i);
    assert NoDuplicates(asks);
    DistinctRowsBelow(ReservedColumn(v, start), asks);
    AskingSeesAllCost(db, at, group, p, i);
  }

  lemma AskingSeesAllCost(db: Db, at: Moment, group: nat, p: Period, i: nat)
    requires i < |db.runs|
    ensures Spent(AskingView(db, at, group, i), PeriodStart(p, at)) ==
            Spent(View(db, Members(db, group), at, WHOLE), PeriodStart(p, at))
  {
    assert CostColumn(AskingView(db, at, group, i), PeriodStart(p, at)) ==
           CostColumn(View(db, Members(db, group), at, WHOLE), PeriodStart(p, at));
  }

  // ---- one run's grant, exactly -------------------------------------------

  /** What a capped period leaves run i: its cap less everyone's cost and the holds before i. */
  ghost function LeftFor(db: Db, at: Moment, group: nat, p: Period, i: nat): int
    requires group < |db.groups| && CapOf(db.groups[group], p).Some? && i < |db.runs|
  {
    var v, start := AskingView(db, at, group, i), PeriodStart(p, at);
    Max(0, CapOf(db.groups[group], p).value - Spent(v, start) - Reserved(v, start))
  }

  lemma CandidateIsCap(v: View, caps: Caps, k: nat) returns (p: Period)
    requires k < |GroupSpend(v, caps)|
    ensures CapOf(caps, p).Some? && GroupSpend(v, caps)[k] == SpendOf(v, p, CapOf(caps, p).value)
  {
    var day, week := |SpendIfCapped(v, caps, Day)|, |SpendIfCapped(v, caps, Week)|;
    p := if k < day then Day else if k < day + week then Week else Month;
  }

  /**
   * A top-level native run gets its own budget or, when that is more than some
   * capped period leaves it, exactly what the tightest period leaves: less than
   * its own budget only because of recorded spend and the holds before it.
   */
  lemma GrantIsExact(db: Db, at: Moment, group: nat, i: nat)
    requires i < |db.runs| && db.runs[i].agent < |db.agents| && group < |db.groups|
    requires db.agents[db.runs[i].agent].group == Some(group)
    ensures GrantOf(db, at, i) <= db.agents[db.runs[i].agent].budget
    ensures forall p :: CapOf(db.groups[group], p).Some? ==> GrantOf(db, at, i) <= LeftFor(db, at, group, p, i)
    ensures GrantOf(db, at, i) == db.agents[db.runs[i].agent].budget ||
            exists p :: CapOf(db.groups[group], p).Some? && GrantOf(db, at, i) == LeftFor(db, at, group, p, i)
  {
    var v := AskingView(db, at, group, i);
    var opts := v.opts;
    assert SelfId(Some(OrderOf(db, i))) == {i};
    var own := db.agents[db.runs[i].agent].budget;
    var cs := GroupCandidates(db, Some(group), at, opts);
    LeastValueIsMinimum(own, cs);
    forall p | CapOf(db.groups[group], p).Some? ensures GrantOf(db, at, i) <= LeftFor(db, at, group, p, i) {
      var k := CapIsCandidate(db, group, at, opts, p);
    }
    if GrantOf(db, at, i) != own {
      var k :| 0 <= k < |cs| && GrantOf(db, at, i) == cs[k].value;
      CandidateValues(GroupSpend(v, db.groups[group]));
      var p := CandidateIsCap(v, db.groups[group], k);
      assert GrantOf(db, at, i) == LeftFor(db, at, group, p, i);
    }
  }
}
