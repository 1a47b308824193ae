/** computeGroupSpend as the program runs it: loops over rows, proved to compute BudgetGroups.GroupSpend. */
module GroupSpendLoops {
  import opened Common
  import opened Sums
  import opened BudgetGroups
  import opened RunTrees

  method CountedRows(v: View) returns (counted: seq<nat>)
    ensures forall i: nat :: i in counted <==> Counted(v, i)
  {
    counted := [];
    for i := 0 to |v.db.runs|
      invariant forall k: nat :: k in counted <==> k < i && Counted(v, k)
    {
      if Counted(v, i) {
        counted := counted + [i];
      }
    }
  }

  /** The roots whose hold covers some counted sub-run. */
  method HeldRoots(v: View, counted: seq<nat>, rootOf: map<nat, nat>) returns (heldRoots: set<nat>)
    requires forall i: nat :: i in counted <==> Counted(v, i)
    requires forall x :: x in rootOf <==> x in counted && RootOf(v.db.runs, x).Some?
    requires forall x :: x in rootOf ==> Some(rootOf[x]) == RootOf(v.db.runs, x)
    ensures forall r: nat :: r in heldRoots <==> HeldRoot(v, r)
  {
    heldRoots := {};
    for k := 0 to |counted|
      invariant forall r: nat :: r in heldRoots ==> HeldRoot(v, r)
      invariant forall j, r: nat :: 0 <= j < k && counted[j] != r && RootOf(v.db.runs, counted[j]) == Some(r) ==>
                  Counted(v, r) && Holds(v, r) ==> r in heldRoots
    {
      var i := counted[k];
      assert i in counted;
      if i in rootOf && rootOf[i] != i {
        var root := rootOf[i];
        if root in counted && Holds(v, root) {
          heldRoots := heldRoots + {root};
        }
      }
    }
    forall r: nat | HeldRoot(v, r) ensures r in heldRoots {
      var i :| Counted(v, i) && i != r && RootOf(v.db.runs, i) == Some(r);
      assert i in counted;
      var j :| 0 <= j < |counted| && counted[j] == i;
    }
  }

  /** What a held root holds: one walk down its tree, two totals over its rows. */
  method HoldOfTree(v: View, root: nat) returns (hold: int)
    requires IsRoot(v.db.runs, root)
    ensures hold == TreeHold(v, root)
  {
    var runs := v.db.runs;
    var treeRunIds := CollectTreeRunIds(runs, root);
    var treeCost, childHolds := 0, 0;
    ghost var costs, holds := TreeCostColumn(runs, root), ChildHoldColumn(v, root);
    for j := 0 to |runs|
      invariant treeCost == Sum(costs[..j]) && childHolds == Sum(holds[..j])
    {
      SumPrefixStep(costs, j);
      SumPrefixStep(holds, j);
      if j in treeRunIds {
        treeCost := treeCost + runs[j].cost;
        if j != root && j !in v.opts.excludeReservations && IsHoldLive(runs[j], v.at) {
          childHolds := childHolds + Unspent(TreeReservation(v.db, runs[j]), runs[j]);
        }
      }
    }
    assert costs[..|runs|] == costs && holds[..|runs|] == holds;
    hold := Max(Reservation(v, runs[root]) - treeCost, childHolds);
  }

  method TreeHolds(v: View, heldRoots: set<nat>) returns (treeHolds: map<nat, int>)
    requires forall r: nat :: r in heldRoots <==> HeldRoot(v, r)
    ensures forall r: nat :: r < |v.db.runs| && r in heldRoots ==> r in treeHolds && treeHolds[r] == TreeHold(v, r)
  {
    treeHolds := map[];
    for i := 0 to |v.db.runs|
      invariant forall r: nat :: r in heldRoots && r < i ==> r in treeHolds && treeHolds[r] == TreeHold(v, r)
    {
      if i in heldRoots {
        assert IsRoot(v.db.runs, i) by {
          var k :| Counted(v, k) && k != i && RootOf(v.db.runs, k) == Some(i);
          RootOfIsRoot(v.db.runs, k);
        }
        var hold := HoldOfTree(v, i);
        treeHolds := treeHolds[i := hold];
      }
    }
  }

  /** A counted run as each period reads it. */
  datatype Account = Account(startedAt: int, cost: nat, ownReserved: nat, heldRootStartedAt: Option<int>)

  ghost function AccountOf(v: View, i: nat): Option<Account> {
    if !Counted(v, i) then None
    else
      var run := v.db.runs[i];
      var root := RootOf(v.db.runs, i);
      Some(Account(run.startedAt, run.cost, OwnReserved(v, i),
                   if root.Some? && root.value != i && HeldRoot(v, root.value)
                   then Some(v.db.runs[root.value].startedAt) else None))
  }

  method Accounts(v: View, rootOf: map<nat, nat>, heldRoots: set<nat>, treeHolds: map<nat, int>)
    returns (accounts: seq<Option<Account>>)
    requires forall x: nat :: x in rootOf <==> Counted(v, x) && RootOf(v.db.runs, x).Some?
    requires forall x :: x in rootOf ==> Some(rootOf[x]) == RootOf(v.db.runs, x)
    requires forall r: nat :: r in heldRoots <==> HeldRoot(v, r)
    requires forall r: nat :: r < |v.db.runs| && r in heldRoots ==> r in treeHolds && treeHolds[r] == TreeHold(v, r)
    ensures |accounts| == |v.db.runs|
    ensures forall i :: 0 <= i < |accounts| ==> accounts[i] == AccountOf(v, i)
  {
    accounts := [];
    for i := 0 to |v.db.runs|
      invariant |accounts| == i
      invariant forall k :: 0 <= k < i ==> accounts[k] == AccountOf(v, k)
    {
      var account := None;
      if Counted(v, i) {
        var run := v.db.runs[i];
        var ownReserved := 0;
        if i in heldRoots {
          ownReserved := Max(0, treeHolds[i]);
        } else if Holds(v, i) {
          ownReserved := Max(0, Reservation(v, run) - run.cost);
        }
        var heldRootStartedAt := if i in rootOf && rootOf[i] != i && rootOf[i] in heldRoots
                                 then Some(v.db.runs[rootOf[i]].startedAt) else None;
        account := Some(Account(run.startedAt, run.cost, ownReserved, heldRootStartedAt));
      }
      accounts := accounts + [account];
    }
  }

  /** One configured period: the window's cost, its holds, and how many runs hold something. */
  method PeriodTotals(v: View, accounts: seq<Option<Account>>, p: Period, cap: nat) returns (spend: PeriodSpend)
    requires |accounts| == |v.db.runs|
    requires forall i :: 0 <= i < |accounts| ==> accounts[i] == AccountOf(v, i)
    ensures spend == SpendOf(v, p, cap)
  {
    var start := PeriodStart(p, v.at);
    var spent, reserved, heldRuns := 0, 0, 0;
    ghost var costs, holds, held := CostColumn(v, start), ReservedColumn(v, start), HeldColumn(v, start);
    for i := 0 to |accounts|
      invariant spent == Sum(costs[..i]) && reserved == Sum(holds[..i]) && heldRuns == Sum(held[..i])
    {
      SumPrefixStep(costs, i);
      SumPrefixStep(holds, i);
      SumPrefixStep(held, i);
      if accounts[i].Some? && accounts[i].value.startedAt >= start {
        var a := accounts[i].value;
        var hold := if a.heldRootStartedAt.Some? && a.heldRootStartedAt.value >= start then 0 else a.ownReserved;
        spent := spent + a.cost;
        reserved := reserved + hold;
        heldRuns := heldRuns + if hold > 0 then 1 else 0;
      }
    }
    assert costs[..|accounts|] == costs && holds[..|accounts|] == holds && held[..|accounts|] == held;
    spend := PeriodSpend(p, cap, spent, reserved, Max(0, cap - spent - reserved), heldRuns);
  }

  method ComputeGroupSpend(v: View, caps: Caps) returns (spends: seq<PeriodSpend>)
    ensures spends == GroupSpend(v, caps)
  {
    if caps.daily.None? && caps.weekly.None? && caps.monthly.None? {
      return [];
    }
    var counted := CountedRows(v);
    var rootOf := ResolveRootRunIds(v.db.runs, counted);
    var heldRoots := HeldRoots(v, counted, rootOf);
    var treeHolds := TreeHolds(v, heldRoots);
    var accounts := Accounts(v, rootOf, heldRoots, treeHolds);
    spends := [];
    if caps.daily.Some? {
      var day := PeriodTotals(v, accounts, Day, caps.daily.value);
      spends := [day];
    }
    if caps.weekly.Some? {
      var week := PeriodTotals(v, accounts, Week, caps.weekly.value);
      spends := spends + [week];
    }
    if caps.monthly.Some? {
      var month := PeriodTotals(v, accounts, Month, caps.monthly.value);
      spends := spends + [month];
    }
  }
}
