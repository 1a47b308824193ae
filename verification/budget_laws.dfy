/**
 * What group accounting promises about run trees and top-ups: a delegated tree
 * is charged once, spending inside a hold is already paid for, and raising one
 * grant commits no more than the raise.
 */
module BudgetLaws {
  import opened Common
  import opened Sums
  import opened BudgetGroups
  import opened RunTrees

  ghost function Committed(v: View, start: int): int { Spent(v, start) + Reserved(v, start) }

  ghost function CommittedAt(v: View, start: int, i: nat): nat { CostAt(v, start, i) + ReservedAt(v, start, i) }

  ghost function CommittedColumn(v: View, start: int): seq<int> {
    seq(|v.db.runs|, i requires 0 <= i => CommittedAt(v, start, i))
  }

  lemma CommittedIsColumn(v: View, start: int)
    ensures Committed(v, start) == Sum(CommittedColumn(v, start))
  {
    SumPlus(CostColumn(v, start), ReservedColumn(v, start), CommittedColumn(v, start));
  }

  // ---- periods and holds, in plain terms ----------------------------------

  /** A day begins at the latest midnight, a week at the latest Monday's. Day 0 of the epoch was a Thursday. */
  lemma PeriodsBeginAtMidnight(at: Moment)
    ensures var day := PeriodStart(Day, at);
            day <= at.now < day + 24 * 60 * 60 * 1000 && day % (24 * 60 * 60 * 1000) == 0
    ensures var week := PeriodStart(Week, at);
            week <= at.now < week + 7 * 24 * 60 * 60 * 1000 && week % (24 * 60 * 60 * 1000) == 0 &&
            (week / (24 * 60 * 60 * 1000) - 4) % 7 == 0
    ensures PeriodStart(Month, at) == at.monthStart
  {
    var day := at.now / DAY_MS;
    var monday := day - (day + 3) % 7;
    assert monday == (day + 3) / 7 * 7 - 3;
    assert DAY_MS == 24 * 60 * 60 * 1000;
    WholeDays(day);
    WholeDays(monday);
    assert monday - 4 == ((day + 3) / 7 - 1) * 7;
  }

  lemma WholeDays(n: int)
    ensures (n * DAY_MS) % DAY_MS == 0 && (n * DAY_MS) / DAY_MS == n
  {
  }

  /**
   * A hold lasts for a minute after the run's last sign of life; a coding run's
   * at least a minute past the time it may wait in the queue and work.
   */
  lemma HoldLastsIff(r: Run, at: Moment)
    ensures IsHoldLive(r, at) <==>
            r.status != Terminal &&
            ((match r.heartbeatAt case Some(beat) => at.now <= beat + 60_000 case None => at.now <= r.startedAt + 60_000) ||
             (match r.coding
              case Some(coding) => at.now <= r.startedAt + 1000 * at.queueTimeoutSec + 1000 * coding.timeoutSec + 60_000
              case None => false))
  {
  }

  // ---- a delegated tree is charged once -----------------------------------

  lemma HeldRootFacts(v: View, root: nat)
    requires HeldRoot(v, root)
    ensures IsRoot(v.db.runs, root) && RootOf(v.db.runs, root) == Some(root)
    ensures ChildHolds(v, root) >= 0 && OwnReserved(v, root) == TreeHold(v, root)
  {
    var i :| Counted(v, i) && i != root && RootOf(v.db.runs, i) == Some(root);
    RootOfIsRoot(v.db.runs, i);
    SumNonNegative(ChildHoldColumn(v, root));
  }

  /** What the runs that resolve to root add to the window's committed total. */
  ghost function TreeShareAt(v: View, start: int, root: nat, i: nat): nat {
    if RootOf(v.db.runs, i) == Some(root) then CommittedAt(v, start, i) else 0
  }

  ghost function TreeShare(v: View, start: int, root: nat): int {
    Sum(seq(|v.db.runs|, i requires 0 <= i => TreeShareAt(v, start, root, i)))
  }

  /** The part of the tree's cost that the window counts. */
  ghost function WindowTreeCost(v: View, start: int, root: nat): int {
    Sum(seq(|v.db.runs|, i requires 0 <= i => if RootOf(v.db.runs, i) == Some(root) then CostAt(v, start, i) else 0))
  }

  /**
   * In a window its root started in, a held tree's share is its counted cost
   * plus one hold, the root's: never less than that cost plus what the live
   * runs below the root still hold, never more than the root's reservation or
   * the whole tree's cost plus those holds, whichever is more.
   */
  lemma TreeChargedOnce(v: View, start: int, root: nat)
    requires HeldRoot(v, root) && v.db.runs[root].startedAt >= start
    ensures TreeShare(v, start, root) == WindowTreeCost(v, start, root) + TreeHold(v, root)
    ensures TreeShare(v, start, root) >= WindowTreeCost(v, start, root) + ChildHolds(v, root)
    ensures TreeShare(v, start, root) >=
            WindowTreeCost(v, start, root) + Reservation(v, v.db.runs[root]) - TreeCost(v.db.runs, root)
    ensures TreeShare(v, start, root) <=
            Max(Reservation(v, v.db.runs[root]), TreeCost(v.db.runs, root) + ChildHolds(v, root))
  {
    HeldRootFacts(v, root);
    var n := |v.db.runs|;
    var share := seq(n, i requires 0 <= i => TreeShareAt(v, start, root, i));
    var cost := seq(n, i requires 0 <= i => if RootOf(v.db.runs, i) == Some(root) then CostAt(v, start, i) else 0);
    var costAndHold := cost[root := cost[root] + TreeHold(v, root)];
    forall i: nat | i < n ensures share[i] == costAndHold[i] {
      if RootOf(v.db.runs, i) == Some(root) && i != root {
        assert InsideHeldTree(v, start, i);
      }
    }
    assert share == costAndHold;
    SumPoint(cost, costAndHold, root);
    forall i: nat | i < n ensures cost[i] <= TreeCostColumn(v.db.runs, root)[i] {
      if RootOf(v.db.runs, i) == Some(root) {
        RootOfIsRoot(v.db.runs, i);
      }
    }
    SumMonotone(cost, TreeCostColumn(v.db.runs, root));
  }

  // ---- changing one row's amounts -----------------------------------------

  /** v' is v with the cost or reservation of row c changed, and nothing else. */
  ghost predicate AmountsChange(v: View, v': View, c: nat) {
    c < |v.db.runs| == |v'.db.runs| &&
    v' == v.(db := v.db.(runs := v.db.runs[c := v'.db.runs[c]])) &&
    var r, r' := v.db.runs[c], v'.db.runs[c];
    r' == r.(cost := r'.cost, coding := r'.coding) &&
    (r.coding.Some? <==> r'.coding.Some?) &&
    (r.coding.Some? ==> r.coding.value.timeoutSec == r'.coding.value.timeoutSec)
  }

  lemma AmountsFrame(v: View, v': View, c: nat)
    requires AmountsChange(v, v', c)
    ensures SameParents(v.db.runs, v'.db.runs)
    ensures forall i: nat :: Counted(v', i) <==> Counted(v, i)
    ensures forall i: nat :: i < |v.db.runs| ==> (Holds(v', i) <==> Holds(v, i))
    ensures forall i: nat :: i < |v.db.runs| ==> (IsHoldLive(v'.db.runs[i], v.at) <==> IsHoldLive(v.db.runs[i], v.at))
    ensures forall i: nat :: RootOf(v'.db.runs, i) == RootOf(v.db.runs, i)
    ensures forall r: nat, x: nat :: InTree(v'.db.runs, r, x) <==> InTree(v.db.runs, r, x)
    ensures forall r: nat :: HeldRoot(v', r) <==> HeldRoot(v, r)
    ensures forall start, i: nat :: InWindow(v', start, i) <==> InWindow(v, start, i)
    ensures forall start, i: nat :: i < |v.db.runs| ==>
              (InsideHeldTree(v', start, i) <==> InsideHeldTree(v, start, i))
  {
    SameTrees(v.db.runs, v'.db.runs);
    forall r: nat ensures HeldRoot(v', r) <==> HeldRoot(v, r) {
      if HeldRoot(v, r) {
        var i :| Counted(v, i) && i != r && RootOf(v.db.runs, i) == Some(r);
        assert Counted(v', i);
      }
      if HeldRoot(v', r) {
        var i :| Counted(v', i) && i != r && RootOf(v'.db.runs, i) == Some(r);
        assert Counted(v, i);
      }
    }
  }

  /** Rows other than c and the held root of its tree commit what they did. */
  lemma OtherRowsKeep(v: View, v': View, start: int, c: nat, i: nat)
    requires AmountsChange(v, v', c)
    requires i < |v.db.runs| && i != c && !(HeldRoot(v, i) && InTree(v.db.runs, i, c))
    ensures CostAt(v', start, i) == CostAt(v, start, i)
    ensures ReservedAt(v', start, i) == ReservedAt(v, start, i)
  {
    AmountsFrame(v, v', c);
    if HeldRoot(v, i) {
      assert TreeCostColumn(v'.db.runs, i) == TreeCostColumn(v.db.runs, i);
      assert ChildHoldColumn(v', i) == ChildHoldColumn(v, i);
    }
  }

  /** How c's change moves the totals of a tree that contains it. */
  lemma TreeTotalsMove(v: View, v': View, c: nat, root: nat)
    requires AmountsChange(v, v', c) && InTree(v.db.runs, root, c)
    ensures TreeCost(v'.db.runs, root) == TreeCost(v.db.runs, root) - v.db.runs[c].cost + v'.db.runs[c].cost
    ensures ChildHolds(v', root) == ChildHolds(v, root) - ChildHoldAt(v, root, c) + ChildHoldAt(v', root, c)
  {
    AmountsFrame(v, v', c);
    SumPoint(TreeCostColumn(v.db.runs, root), TreeCostColumn(v'.db.runs, root), c);
    SumPoint(ChildHoldColumn(v, root), ChildHoldColumn(v', root), c);
  }

  /** The committed total moves only by row c and, when c is in a held tree, by that tree's root. */
  lemma CommittedMoves(v: View, v': View, start: int, c: nat, root: nat)
    requires AmountsChange(v, v', c) && root < |v.db.runs|
    requires forall h: nat :: HeldRoot(v, h) && InTree(v.db.runs, h, c) ==> h == root
    ensures Committed(v', start) - Committed(v, start) ==
            CommittedAt(v', start, c) - CommittedAt(v, start, c) +
            if root == c then 0 else CommittedAt(v', start, root) - CommittedAt(v, start, root)
  {
    CommittedIsColumn(v, start);
    CommittedIsColumn(v', start);
    var before, after := CommittedColumn(v, start), CommittedColumn(v', start);
    var between := before[c := after[c]];
    forall i: nat | i < |before| && i != c && i != root ensures after[i] == before[i] {
      OtherRowsKeep(v, v', start, c, i);
    }
    SumPoint(before, between, c);
    SumPoint(between, after, root);
  }

  // ---- spending inside a hold ---------------------------------------------

  ghost function WithCost(v: View, c: nat, extra: nat): View
    requires c < |v.db.runs|
  {
    var r := v.db.runs[c];
    v.(db := v.db.(runs := v.db.runs[c := r.(cost := r.cost + extra)]))
  }

  /** The members' budgets are those of the agent table. */
  ghost predicate MembersAgree(v: View) {
    forall a: nat :: a in v.members ==> a < |v.db.agents| && v.db.agents[a].budget == v.members[a]
  }

  /** The only held root whose tree holds c, or c when there is none. */
  lemma HeldRootAbove(v: View, c: nat) returns (root: nat)
    requires c < |v.db.runs|
    ensures root < |v.db.runs|
    ensures forall h: nat :: HeldRoot(v, h) && InTree(v.db.runs, h, c) ==> h == root
    ensures root == c || (HeldRoot(v, root) && InTree(v.db.runs, root, c))
  {
    root := c;
    if h: nat :| HeldRoot(v, h) && InTree(v.db.runs, h, c) {
      root := h;
      forall g: nat | HeldRoot(v, g) && InTree(v.db.runs, g, c) ensures g == h {
        HeldRootFacts(v, g);
        HeldRootFacts(v, h);
        TreesDisjoint(v.db.runs, c, g, h);
      }
    }
  }

  /**
   * A sub-run that spends within its own unspent hold never raises a group's
   * committed total, in any window, whether it holds for itself or spends
   * inside its root's hold, and whichever group it belongs to.
   */
  lemma ChildSpendNeverRaises(v: View, start: int, c: nat, extra: nat)
    requires v.opts == WHOLE && MembersAgree(v)
    requires c < |v.db.runs| && v.db.runs[c].parent.Some? && IsHoldLive(v.db.runs[c], v.at)
    requires extra <= Unspent(TreeReservation(v.db, v.db.runs[c]), v.db.runs[c])
    ensures Committed(WithCost(v, c, extra), start) <= Committed(v, start)
  {
    var v' := WithCost(v, c, extra);
    var root := HeldRootAbove(v, c);
    CommittedMoves(v, v', start, c, root);
    if root != c {
      HeldTreeKeeps(v, start, c, root, extra);
    }
    OwnRowKeeps(v, start, c, extra);
    if InsideHeldTree(v, start, c) {
      RootOfIsRoot(v.db.runs, c);
      assert RootOf(v.db.runs, c) == Some(root);
    }
  }

  /** The run's own row commits no more, unless a held tree takes it up. */
  lemma OwnRowKeeps(v: View, start: int, c: nat, extra: nat)
    requires v.opts == WHOLE && MembersAgree(v)
    requires c < |v.db.runs| && v.db.runs[c].parent.Some? && IsHoldLive(v.db.runs[c], v.at)
    requires extra <= Unspent(TreeReservation(v.db, v.db.runs[c]), v.db.runs[c])
    ensures CommittedAt(WithCost(v, c, extra), start, c) <=
            CommittedAt(v, start, c) + if InsideHeldTree(v, start, c) then extra else 0
  {
    var v' := WithCost(v, c, extra);
    AmountsFrame(v, v', c);
    if HeldRoot(v, c) {
      HeldRootFacts(v, c);
    }
    if InWindow(v, start, c) {
      assert OwnReserved(v, c) == Unspent(Reservation(v, v.db.runs[c]), v.db.runs[c]);
      assert OwnReserved(v', c) == Unspent(Reservation(v', v'.db.runs[c]), v'.db.runs[c]);
    }
  }

  /** The held root's hold gives up what the run spends. */
  lemma HeldTreeKeeps(v: View, start: int, c: nat, root: nat, extra: nat)
    requires v.opts == WHOLE && MembersAgree(v)
    requires c < |v.db.runs| && v.db.runs[c].parent.Some? && IsHoldLive(v.db.runs[c], v.at)
    requires extra <= Unspent(TreeReservation(v.db, v.db.runs[c]), v.db.runs[c])
    requires root != c && HeldRoot(v, root) && InTree(v.db.runs, root, c)
    ensures CommittedAt(WithCost(v, c, extra), start, root) ==
            CommittedAt(v, start, root) - if v.db.runs[root].startedAt >= start then extra else 0
  {
    var v' := WithCost(v, c, extra);
    AmountsFrame(v, v', c);
    TreeTotalsMove(v, v', c, root);
    SumCovers(ChildHoldColumn(v, root), c);
    HeldRootFacts(v, root);
    HeldRootFacts(v', root);
    assert !InsideHeldTree(v, start, root);
  }

  /**
   * A held root's own spending is different: within its reservation it may
   * still raise the total, because the runs below it hold more than it leaves.
   * It does not raise it exactly when what the reservation leaves after the
   * tree's cost covers both the new spend and those holds.
   */
  lemma RootSpendRaisesIff(v: View, start: int, root: nat, extra: nat)
    requires v.opts == WHOLE && HeldRoot(v, root) && v.db.runs[root].startedAt >= start && extra > 0
    ensures Committed(WithCost(v, root, extra), start) <= Committed(v, start) <==>
            Reservation(v, v.db.runs[root]) - TreeCost(v.db.runs, root) >= extra + ChildHolds(v, root)
  {
    var v' := WithCost(v, root, extra);
    AmountsFrame(v, v', root);
    HeldRootFacts(v, root);
    HeldRootFacts(v', root);
    assert Up(v.db.runs, root, 0) == Some(root);
    forall h: nat | HeldRoot(v, h) && InTree(v.db.runs, h, root) ensures h == root {
      HeldRootFacts(v, h);
      TreesDisjoint(v.db.runs, root, h, root);
    }
    CommittedMoves(v, v', start, root, root);
    TreeTotalsMove(v, v', root, root);
    assert !InsideHeldTree(v, start, root);
  }

  // ---- a tree is never under-held -----------------------------------------

  /** What a live run of the window that is no held root has left of its own reservation. */
  ghost function LiveHoldAt(v: View, start: int, i: nat): nat {
    if i < |v.db.runs| && InWindow(v, start, i) && IsHoldLive(v.db.runs[i], v.at) && !HeldRoot(v, i)
    then Unspent(Reservation(v, v.db.runs[i]), v.db.runs[i]) else 0
  }

  /** The same, of the runs that spend inside the hold of a root before the n-th row. */
  ghost function InsideHoldAt(v: View, start: int, n: nat, i: nat): nat {
    if i < |v.db.runs| && InsideHeldTree(v, start, i) && RootOf(v.db.runs, i).value < n then LiveHoldAt(v, start, i) else 0
  }

  ghost function InsideHolds(v: View, start: int, n: nat): seq<int> {
    seq(|v.db.runs|, i requires 0 <= i => InsideHoldAt(v, start, n, i))
  }

  /** What the held root at i is held for. */
  ghost function RootHoldAt(v: View, start: int, i: nat): nat {
    if i < |v.db.runs| && HeldRoot(v, i) then ReservedAt(v, start, i) else 0
  }

  ghost function RootHolds(v: View, start: int): seq<int> {
    seq(|v.db.runs|, i requires 0 <= i => RootHoldAt(v, start, i))
  }

  /** A held root's hold covers the runs that spend inside it. */
  lemma RootCoversInside(v: View, start: int, n: nat)
    requires v.opts == WHOLE && MembersAgree(v) && n < |v.db.runs|
    ensures Sum(InsideHolds(v, start, n + 1)) <= Sum(InsideHolds(v, start, n)) + RootHoldAt(v, start, n)
  {
    var inside := seq(|v.db.runs|, i requires 0 <= i => InsideHoldAt(v, start, n + 1, i) - InsideHoldAt(v, start, n, i));
    SumPlus(InsideHolds(v, start, n), inside, InsideHolds(v, start, n + 1));
    if HeldRoot(v, n) && v.db.runs[n].startedAt >= start {
      HeldRootFacts(v, n);
      forall i: nat | i < |v.db.runs| ensures inside[i] <= ChildHoldColumn(v, n)[i] {
        OneInside(v, start, n, i);
      }
      SumMonotone(inside, ChildHoldColumn(v, n));
    } else {
      forall i: nat | i < |v.db.runs| ensures inside[i] == 0 {
        OneInside(v, start, n, i);
      }
      NothingTotals(inside);
    }
  }

  /** A run inside the n-th row's hold is one of those its tree's hold counts. */
  lemma OneInside(v: View, start: int, n: nat, i: nat)
    requires v.opts == WHOLE && MembersAgree(v) && n < |v.db.runs| && i < |v.db.runs|
    ensures 0 <= InsideHoldAt(v, start, n + 1, i) - InsideHoldAt(v, start, n, i) <= ChildHoldAt(v, n, i)
    ensures InsideHoldAt(v, start, n + 1, i) > InsideHoldAt(v, start, n, i) ==>
              HeldRoot(v, n) && v.db.runs[n].startedAt >= start
  {
    if InsideHeldTree(v, start, i) && RootOf(v.db.runs, i) == Some(n) {
      RootOfIsRoot(v.db.runs, i);
    }
  }

  lemma {:induction false} NothingTotals(xs: seq<int>)
    requires forall i :: 0 <= i < |xs| ==> xs[i] == 0
    ensures Sum(xs) == 0
    decreases |xs|
  {
    if xs != [] {
      NothingTotals(xs[..|xs| - 1]);
    }
  }

  lemma {:induction false} RootsCoverInside(v: View, start: int, n: nat)
    requires v.opts == WHOLE && MembersAgree(v) && n <= |v.db.runs|
    ensures Sum(InsideHolds(v, start, n)) <= Sum(RootHolds(v, start)[..n])
    decreases n
  {
    if n == 0 {
      NothingTotals(InsideHolds(v, start, 0));
    } else {
      RootsCoverInside(v, start, n - 1);
      RootCoversInside(v, start, n - 1);
      SumPrefixStep(RootHolds(v, start), n - 1);
    }
  }

  /**
   * In every window a group holds at least what its live runs there have left
   * of their own reservations, each for itself or inside its root's hold; a
   * held root's own is in the one hold of its tree.
   */
  lemma NeverUnderHeld(v: View, start: int)
    requires v.opts == WHOLE && MembersAgree(v)
    ensures Sum(seq(|v.db.runs|, i requires 0 <= i => LiveHoldAt(v, start, i))) <= Reserved(v, start)
  {
    var n := |v.db.runs|;
    var live := seq(n, i requires 0 <= i => LiveHoldAt(v, start, i));
    var alone := seq(n, i requires 0 <= i => ReservedAt(v, start, i) - RootHoldAt(v, start, i));
    var covered := seq(n, i requires 0 <= i => ReservedAt(v, start, i) - RootHoldAt(v, start, i) + InsideHoldAt(v, start, n, i));
    forall i: nat | i < n ensures live[i] <= covered[i] {
      if InsideHeldTree(v, start, i) {
        RootOfIsRoot(v.db.runs, i);
      }
    }
    SumMonotone(live, covered);
    SumPlus(alone, InsideHolds(v, start, n), covered);
    SumPlus(alone, RootHolds(v, start), ReservedColumn(v, start));
    RootsCoverInside(v, start, n);
    assert RootHolds(v, start)[..n] == RootHolds(v, start);
  }

  // ---- and never over-held ------------------------------------------------

  /** A held root of the window before the n-th row whose tree the run is below. */
  ghost predicate IsBelowHeld(v: View, start: int, n: nat, i: nat) {
    exists root: nat :: root < n && root != i && HeldRoot(v, root) && v.db.runs[root].startedAt >= start &&
                        InTree(v.db.runs, root, i)
  }

  /** What any live run, of whatever group, has left of its own reservation. */
  ghost function AnyHoldAt(v: View, i: nat): nat {
    if i < |v.db.runs| && IsHoldLive(v.db.runs[i], v.at)
    then Unspent(TreeReservation(v.db, v.db.runs[i]), v.db.runs[i]) else 0
  }

  ghost function BelowHoldAt(v: View, start: int, n: nat, i: nat): nat {
    if IsBelowHeld(v, start, n, i) then AnyHoldAt(v, i) else 0
  }

  ghost function BelowHolds(v: View, start: int, n: nat): seq<int> {
    seq(|v.db.runs|, i requires 0 <= i => BelowHoldAt(v, start, n, i))
  }

  /** What the rows before the n-th that are held roots of the window add for the runs below them. */
  ghost function ChildHoldsAt(v: View, start: int, i: nat): int {
    if i < |v.db.runs| && HeldRoot(v, i) && v.db.runs[i].startedAt >= start then ChildHolds(v, i) else 0
  }

  ghost function AllChildHolds(v: View, start: int): seq<int> {
    seq(|v.db.runs|, i requires 0 <= i => ChildHoldsAt(v, start, i))
  }

  /** A run is below one held root at most. */
  lemma OneBelow(v: View, start: int, n: nat, i: nat)
    requires v.opts == WHOLE && n < |v.db.runs| && i < |v.db.runs|
    ensures BelowHoldAt(v, start, n + 1, i) - BelowHoldAt(v, start, n, i) ==
            if HeldRoot(v, n) && v.db.runs[n].startedAt >= start then ChildHoldAt(v, n, i) else 0
  {
    if HeldRoot(v, n) && InTree(v.db.runs, n, i) {
      HeldRootFacts(v, n);
      forall root: nat | root < n && HeldRoot(v, root) ensures !InTree(v.db.runs, root, i) {
        HeldRootFacts(v, root);
        if InTree(v.db.runs, root, i) {
          TreesDisjoint(v.db.runs, i, root, n);
        }
      }
    }
  }

  lemma {:induction false} ChildHoldsAddUp(v: View, start: int, n: nat)
    requires v.opts == WHOLE && n <= |v.db.runs|
    ensures Sum(BelowHolds(v, start, n)) == Sum(AllChildHolds(v, start)[..n])
    decreases n
  {
    if n == 0 {
      NothingTotals(BelowHolds(v, start, 0));
    } else {
      ChildHoldsAddUp(v, start, n - 1);
      SumPrefixStep(AllChildHolds(v, start), n - 1);
      ChildHoldsStep(v, start, n - 1);
    }
  }

  lemma ChildHoldsStep(v: View, start: int, n: nat)
    requires v.opts == WHOLE && n < |v.db.runs|
    ensures Sum(BelowHolds(v, start, n + 1)) == Sum(BelowHolds(v, start, n)) + ChildHoldsAt(v, start, n)
  {
    var more := seq(|v.db.runs|, i requires 0 <= i => BelowHoldAt(v, start, n + 1, i) - BelowHoldAt(v, start, n, i));
    SumPlus(BelowHolds(v, start, n), more, BelowHolds(v, start, n + 1));
    forall i: nat | i < |v.db.runs|
      ensures more[i] == if HeldRoot(v, n) && v.db.runs[n].startedAt >= start then ChildHoldAt(v, n, i) else 0
    {
      OneBelow(v, start, n, i);
    }
    if HeldRoot(v, n) && v.db.runs[n].startedAt >= start {
      assert more == ChildHoldColumn(v, n);
    } else {
      NothingTotals(more);
    }
  }

  /** What a row holds for itself: its reservation's rest, unless it spends inside its root's hold. */
  ghost function OwnHoldAt(v: View, start: int, i: nat): nat {
    if i < |v.db.runs| && InWindow(v, start, i) && IsHoldLive(v.db.runs[i], v.at) && !InsideHeldTree(v, start, i)
    then Unspent(Reservation(v, v.db.runs[i]), v.db.runs[i]) else 0
  }

  lemma RowHoldsAtMost(v: View, start: int, i: nat)
    requires v.opts == WHOLE && i < |v.db.runs|
    ensures ReservedAt(v, start, i) <= OwnHoldAt(v, start, i) + ChildHoldsAt(v, start, i)
  {
    if HeldRoot(v, i) {
      HeldRootFacts(v, i);
      var zero: nat := 0;
      assert Up(v.db.runs, i, zero) == Some(i);
      assert TreeCostColumn(v.db.runs, i)[i] == v.db.runs[i].cost;
      SumCovers(TreeCostColumn(v.db.runs, i), i);
    }
  }

  /** No run's hold is counted twice: where it holds for itself, it is below no held root of the window. */
  lemma CountedOnce(v: View, start: int, i: nat)
    requires v.opts == WHOLE && MembersAgree(v) && i < |v.db.runs|
    requires forall c: nat, root: nat :: !IsHeldTwice(v, start, c, root)
    ensures OwnHoldAt(v, start, i) + BelowHoldAt(v, start, |v.db.runs|, i) <= AnyHoldAt(v, i)
  {
    if IsBelowHeld(v, start, |v.db.runs|, i) && InWindow(v, start, i) && IsHoldLive(v.db.runs[i], v.at) {
      var root: nat :| root < |v.db.runs| && root != i && HeldRoot(v, root) && v.db.runs[root].startedAt >= start &&
                       InTree(v.db.runs, root, i);
      assert !IsHeldTwice(v, start, i, root);
      RootOfIsRoot(v.db.runs, i);
      HeldRootFacts(v, root);
      TreesDisjoint(v.db.runs, i, root, RootOf(v.db.runs, i).value);
    }
  }

  /**
   * In every window where no run is held twice, a group holds at most what all
   * live runs together have left of their own reservations, each counted once.
   */
  lemma NeverOverHeld(v: View, start: int)
    requires v.opts == WHOLE && MembersAgree(v) && forall c: nat, root: nat :: !IsHeldTwice(v, start, c, root)
    ensures Reserved(v, start) <= Sum(seq(|v.db.runs|, i requires 0 <= i => AnyHoldAt(v, i)))
  {
    var n := |v.db.runs|;
    var own := seq(n, i requires 0 <= i => OwnHoldAt(v, start, i));
    var rows := seq(n, i requires 0 <= i => OwnHoldAt(v, start, i) + ChildHoldsAt(v, start, i));
    var once := seq(n, i requires 0 <= i => OwnHoldAt(v, start, i) + BelowHoldAt(v, start, n, i));
    forall i: nat | i < n ensures ReservedColumn(v, start)[i] <= rows[i] {
      RowHoldsAtMost(v, start, i);
    }
    SumMonotone(ReservedColumn(v, start), rows);
    SumPlus(own, AllChildHolds(v, start), rows);
    ChildHoldsAddUp(v, start, n);
    assert AllChildHolds(v, start)[..n] == AllChildHolds(v, start);
    SumPlus(own, BelowHolds(v, start, n), once);
    forall i: nat | i < n ensures once[i] <= AnyHoldAt(v, i) {
      CountedOnce(v, start, i);
    }
    SumMonotone(once, seq(n, i requires 0 <= i => AnyHoldAt(v, i)));
  }

  // ---- raising a grant ----------------------------------------------------

  ghost function RaiseDb(db: Db, c: nat, g: nat): Db
    requires c < |db.runs| && db.runs[c].coding.Some?
  {
    var r := db.runs[c];
    db.(runs := db.runs[c := r.(coding := Some(r.coding.value.(reserved := r.coding.value.reserved + g)))])
  }

  ghost function WithRaise(v: View, c: nat, g: nat): View
    requires c < |v.db.runs| && v.db.runs[c].coding.Some?
  {
    v.(db := RaiseDb(v.db, c, g))
  }

  /**
   * A run too deep for its root to be resolved, whose root all the same holds
   * the tree it hangs in: it holds for itself and inside its root's hold.
   */
  ghost predicate IsHeldTwice(v: View, start: int, c: nat, root: nat) {
    RootOf(v.db.runs, c) == None && InWindow(v, start, c) && Holds(v, c) &&
    HeldRoot(v, root) && InTree(v.db.runs, root, c) && v.db.runs[root].startedAt >= start
  }

  /** Raising a coding run's grant by g commits at most g more, in every window and under every option, unless it is held twice. */
  lemma RaiseCommitsAtMost(v: View, start: int, c: nat, g: nat)
    requires c < |v.db.runs| && v.db.runs[c].coding.Some?
    requires forall root: nat :: !IsHeldTwice(v, start, c, root)
    ensures Committed(v, start) <= Committed(WithRaise(v, c, g), start) <= Committed(v, start) + g
  {
    var v' := WithRaise(v, c, g);
    var root := HeldRootAbove(v, c);
    AmountsFrame(v, v', c);
    CommittedMoves(v, v', start, c, root);
    if HeldRoot(v, c) {
      HeldRootFacts(v, c);
      HeldRootFacts(v', c);
      TreeSelfTotals(v, v', c);
    }
    if root != c {
      TreeTotalsMove(v, v', c, root);
      HeldRootFacts(v, root);
      HeldRootFacts(v', root);
      assert !InsideHeldTree(v, start, root);
      if RootOf(v.db.runs, c).Some? {
        RootOfIsRoot(v.db.runs, c);
        TreesDisjoint(v.db.runs, c, root, RootOf(v.db.runs, c).value);
      } else {
        assert !IsHeldTwice(v, start, c, root);
      }
    }
  }

  lemma TreeSelfTotals(v: View, v': View, c: nat)
    requires AmountsChange(v, v', c) && HeldRoot(v, c)
    requires v'.db.runs[c].cost == v.db.runs[c].cost
    ensures TreeCost(v'.db.runs, c) == TreeCost(v.db.runs, c)
    ensures ChildHolds(v', c) == ChildHolds(v, c)
  {
    assert Up(v.db.runs, c, 0) == Some(c);
    TreeTotalsMove(v, v', c, c);
  }

  /** A group that neither counts the run nor holds its tree reports what it did. */
  lemma RaiseElsewhere(v: View, c: nat, g: nat)
    requires c < |v.db.runs| && v.db.runs[c].coding.Some? && !Counted(v, c)
    requires forall h: nat :: HeldRoot(v, h) ==> !InTree(v.db.runs, h, c)
    ensures forall caps :: GroupSpend(WithRaise(v, c, g), caps) == GroupSpend(v, caps)
  {
    var v' := WithRaise(v, c, g);
    AmountsFrame(v, v', c);
    forall p, cap ensures SpendOf(v', p, cap) == SpendOf(v, p, cap) {
      var start := PeriodStart(p, v.at);
      forall i: nat | i < |v.db.runs|
        ensures CostAt(v', start, i) == CostAt(v, start, i) && ReservedAt(v', start, i) == ReservedAt(v, start, i)
      {
        if i != c {
          OtherRowsKeep(v, v', start, c, i);
        }
      }
      assert CostColumn(v', start) == CostColumn(v, start);
      assert ReservedColumn(v', start) == ReservedColumn(v, start);
      assert HeldColumn(v', start) == HeldColumn(v, start);
    }
  }

  /** A raise of a run held twice is committed once for itself and once in its root's hold. */
  lemma TwiceHeldRaise(v: View, start: int, c: nat, root: nat, g: nat)
    requires c < |v.db.runs| && v.db.runs[c].coding.Some? && IsHeldTwice(v, start, c, root)
    ensures var r, r' := v.db.runs[c], WithRaise(v, c, g).db.runs[c];
            var more := Unspent(r'.coding.value.reserved, r') - Unspent(r.coding.value.reserved, r);
            var own := Reservation(v, v.db.runs[root]) - TreeCost(v.db.runs, root);
            Committed(WithRaise(v, c, g), start) - Committed(v, start) ==
            more + Max(own, ChildHolds(v, root) + more) - Max(own, ChildHolds(v, root))
  {
    var v' := WithRaise(v, c, g);
    var r := HeldRootAbove(v, c);
    AmountsFrame(v, v', c);
    HeldRootFacts(v, root);
    CommittedMoves(v, v', start, c, root);
    TreeTotalsMove(v, v', c, root);
    HeldRootFacts(v', root);
    if HeldRoot(v, c) {
      HeldRootFacts(v, c);
    }
    assert !InsideHeldTree(v, start, root);
  }

  /**
   * The depth limit matters: raises of a coding run's grant commit at most what
   * they add exactly when the run is not held twice, that is, unless it lies
   * below MAX_TREE_DEPTH edges in the tree of a root that holds it.
   */
  lemma RaiseCommitsAtMostIff(v: View, start: int, c: nat)
    requires c < |v.db.runs| && v.db.runs[c].coding.Some?
    ensures (forall g: nat :: Committed(WithRaise(v, c, g), start) <= Committed(v, start) + g) <==>
            forall root: nat :: !IsHeldTwice(v, start, c, root)
  {
    if root: nat :| IsHeldTwice(v, start, c, root) {
      var own := Reservation(v, v.db.runs[root]) - TreeCost(v.db.runs, root);
      var g: nat := 2 * v.db.runs[c].cost + Max(0, own - ChildHolds(v, root)) + 1;
      TwiceHeldRaise(v, start, c, root, g);
      assert Committed(WithRaise(v, c, g), start) > Committed(v, start) + g;
    } else {
      forall g: nat ensures Committed(WithRaise(v, c, g), start) <= Committed(v, start) + g {
        RaiseCommitsAtMost(v, start, c, g);
      }
    }
  }
}

/** A grant of at most the top-up room keeps every cap it could touch. */
module TopUpLaws {
  import opened Common
  import opened Sums
  import opened BudgetGroups
  import opened RunTrees
  import opened EffectiveBudgets
  import opened BudgetLaws

  ghost predicate WithinCap(db: Db, at: Moment, group: nat, p: Period) {
    group < |db.groups| && CapOf(db.groups[group], p).Some? ==>
      Committed(View(db, Members(db, group), at, WHOLE), PeriodStart(p, at)) <= CapOf(db.groups[group], p).value
  }

  /** A positive grant of at most the room, to a coding run nested within MAX_TREE_DEPTH edges of its root. */
  ghost predicate WithinRoom(db: Db, at: Moment, run: nat, root: nat, g: nat) {
    run < |db.runs| && root < |db.runs| && db.runs[run].coding.Some? && RootOf(db.runs, run) == Some(root) && g > 0 &&
    (TopUpRoom(db, at, run, root).Room? ==> g <= TopUpRoom(db, at, run, root).left)
  }

  /** The run's own group or its root's. */
  predicate OnTheWay(db: Db, run: nat, root: nat, group: nat)
    requires run < |db.runs| && root < |db.runs|
  {
    Some(group) == AgentOf(db, db.runs[run].agent).group || Some(group) == AgentOf(db, db.runs[root].agent).group
  }

  lemma RoomBelowCandidates(db: Db, at: Moment, run: nat, root: nat, g: nat, c: Candidate)
    requires WithinRoom(db, at, run, root, g) && c in RoomCandidates(db, at, run, root)
    ensures g <= c.value
  {
    LeastCandidateIsMinimum(RoomCandidates(db, at, run, root));
  }

  lemma GroupIsCandidate(db: Db, at: Moment, run: nat, root: nat, group: nat, c: Candidate)
    requires run < |db.runs| && root < |db.runs| && OnTheWay(db, run, root, group)
    requires db.runs[run].parent.None? ==> root == run
    requires c in GroupCandidates(db, Some(group), at, WHOLE)
    ensures c in RoomCandidates(db, at, run, root)
  {
  }

  /** A group on the way has room for the grant in every capped period. */
  lemma CapHasRoom(db: Db, at: Moment, run: nat, root: nat, g: nat, group: nat, p: Period)
    requires WithinRoom(db, at, run, root, g) && OnTheWay(db, run, root, group)
    requires group < |db.groups| && CapOf(db.groups[group], p).Some?
    ensures Committed(View(db, Members(db, group), at, WHOLE), PeriodStart(p, at)) + g <=
            CapOf(db.groups[group], p).value
  {
    var i := CapIsCandidate(db, group, at, WHOLE, p);
    var c := GroupCandidates(db, Some(group), at, WHOLE)[i];
    GroupIsCandidate(db, at, run, root, group, c);
    RoomBelowCandidates(db, at, run, root, g, c);
  }

  lemma GroupKeepsCap(db: Db, at: Moment, run: nat, root: nat, g: nat, group: nat, p: Period)
    requires WithinRoom(db, at, run, root, g) && OnTheWay(db, run, root, group)
    ensures WithinCap(RaiseDb(db, run, g), at, group, p)
  {
    if group < |db.groups| && CapOf(db.groups[group], p).Some? {
      var v := View(db, Members(db, group), at, WHOLE);
      CapHasRoom(db, at, run, root, g, group, p);
      RaiseCommitsAtMost(v, PeriodStart(p, at), run, g);
      assert Members(RaiseDb(db, run, g), group) == Members(db, group);
    }
  }

  lemma RaiseKeepsRootGroup(db: Db, at: Moment, run: nat, root: nat, g: nat, group: nat)
    requires run < |db.runs| && db.runs[run].coding.Some? && IsRoot(db.runs, root) && InTree(db.runs, root, run)
    ensures GroupCandidates(RaiseDb(db, run, g), Some(group), at, WithoutTree(db, root)) ==
            GroupCandidates(db, Some(group), at, WithoutTree(db, root))
  {
    var v := View(db, Members(db, group), at, WithoutTree(db, root));
    var zero: nat := 0;
    assert Up(db.runs, root, zero) == Some(root);
    assert root in TreeRuns(db.runs, root) && run in TreeRuns(db.runs, root);
    forall h: nat | HeldRoot(v, h) ensures !InTree(db.runs, h, run) {
      HeldRootFacts(v, h);
      if InTree(db.runs, h, run) {
        TreesDisjoint(db.runs, run, h, root);
      }
    }
    RaiseElsewhere(v, run, g);
    assert Members(RaiseDb(db, run, g), group) == Members(db, group);
  }

  /** The tree's ceiling does not see the tree, so a raise inside it leaves the ceiling where it was. */
  lemma RaiseKeepsTreeCap(db: Db, at: Moment, run: nat, root: nat, g: nat, withOverrun: bool)
    requires run < |db.runs| && db.runs[run].coding.Some? && IsRoot(db.runs, root) && InTree(db.runs, root, run)
    ensures TreeCap(RaiseDb(db, run, g), at, root, withOverrun) == TreeCap(db, at, root, withOverrun)
  {
    var db' := RaiseDb(db, run, g);
    RaiseKeepsTree(db, run, root, g);
    var group := AgentOf(db, db.runs[root].agent).group;
    if group.Some? {
      RaiseKeepsRootGroup(db, at, run, root, g, group.value);
    }
    CapOfSameTree(db, db', at, root, withOverrun);
  }

  lemma RaiseKeepsTree(db: Db, run: nat, root: nat, g: nat)
    requires run < |db.runs| && root < |db.runs| && db.runs[run].coding.Some?
    ensures WithoutTree(RaiseDb(db, run, g), root) == WithoutTree(db, root)
    ensures TreeCost(RaiseDb(db, run, g).runs, root) == TreeCost(db.runs, root)
    ensures RaiseDb(db, run, g).runs[root].agent == db.runs[root].agent
  {
    var db' := RaiseDb(db, run, g);
    SameTrees(db.runs, db'.runs);
    assert TreeRuns(db'.runs, root) == TreeRuns(db.runs, root);
    assert TreeCostColumn(db'.runs, root) == TreeCostColumn(db.runs, root);
  }

  /** What the ceiling reads: the root's agent, and its group without the tree. */
  lemma CapOfSameTree(db: Db, db': Db, at: Moment, root: nat, withOverrun: bool)
    requires root < |db.runs| && root < |db'.runs| && db'.runs[root].agent == db.runs[root].agent
    requires db'.agents == db.agents && WithoutTree(db', root) == WithoutTree(db, root)
    requires var group := AgentOf(db, db.runs[root].agent).group;
             GroupCandidates(db', group, at, WithoutTree(db, root)) == GroupCandidates(db, group, at, WithoutTree(db, root))
    ensures TreeCap(db', at, root, withOverrun) == TreeCap(db, at, root, withOverrun)
  {
  }

  /** The siblings' holds grow by at most the raise. */
  lemma RaiseMovesSiblings(db: Db, at: Moment, run: nat, root: nat, from: nat, g: nat)
    requires run < |db.runs| && db.runs[run].coding.Some?
    ensures Sum(SiblingColumn(RaiseDb(db, run, g), at, root, from, None)) <=
            Sum(SiblingColumn(db, at, root, from, None)) + g
  {
    var db' := RaiseDb(db, run, g);
    SameTrees(db.runs, db'.runs);
    forall x: nat ensures OnChain(db'.runs, from, x) <==> OnChain(db.runs, from, x) {
      if n: nat :| Up(db.runs, from, n) == Some(x) { SameUp(db.runs, db'.runs, from, n); }
      if n: nat :| Up(db'.runs, from, n) == Some(x) { SameUp(db.runs, db'.runs, from, n); }
    }
    SumPoint(SiblingColumn(db, at, root, from, None), SiblingColumn(db', at, root, from, None), run);
  }

  /** The tree has room for the grant under its raised ceiling. */
  lemma TreeKeepsCeiling(db: Db, at: Moment, run: nat, root: nat, g: nat)
    requires WithinRoom(db, at, run, root, g) && db.runs[run].parent.Some?
    ensures TreeCost(RaiseDb(db, run, g).runs, root) +
            Sum(SiblingColumn(RaiseDb(db, run, g), at, root, db.runs[run].parent.value, None))
            <= TreeCap(db, at, root, true)
  {
    var from := db.runs[run].parent.value;
    var tree := TreeSpendOf(db, at, root, from, None, true);
    assert RoomCandidates(db, at, run, root)[0] == TreeCandidate(tree);
    RoomBelowCandidates(db, at, run, root, g, TreeCandidate(tree));
    RaiseMovesSiblings(db, at, run, root, from, g);
    RaiseKeepsTree(db, run, root, g);
  }

  /**
   * A grant of at most codingTopUpRoom leaves the run's own group and the
   * root's group within every set cap, with every live hold counted, and the
   * tree's cost and holds within its raised ceiling, which does not move.
   */
  lemma TopUpWithinRoomKeepsCaps(db: Db, at: Moment, run: nat, root: nat, g: nat)
    requires WithinRoom(db, at, run, root, g)
    ensures forall group, p :: OnTheWay(db, run, root, group) ==> WithinCap(RaiseDb(db, run, g), at, group, p)
    ensures TreeCap(RaiseDb(db, run, g), at, root, true) == TreeCap(db, at, root, true)
    ensures db.runs[run].parent.Some? ==>
              TreeCost(RaiseDb(db, run, g).runs, root) +
              Sum(SiblingColumn(RaiseDb(db, run, g), at, root, db.runs[run].parent.value, None))
              <= TreeCap(db, at, root, true)
  {
    forall group, p | OnTheWay(db, run, root, group) ensures WithinCap(RaiseDb(db, run, g), at, group, p) {
      GroupKeepsCap(db, at, run, root, g, group, p);
    }
    RootOfIsRoot(db.runs, run);
    RaiseKeepsTreeCap(db, at, run, root, g, true);
    if db.runs[run].parent.Some? {
      TreeKeepsCeiling(db, at, run, root, g);
    }
  }

  /** Every group that neither has the run's agent nor the root's reports the same spend as before. */
  lemma TopUpLeavesOtherGroups(db: Db, at: Moment, run: nat, root: nat, g: nat, group: nat)
    requires run < |db.runs| && root < |db.runs| && db.runs[run].coding.Some? && RootOf(db.runs, run) == Some(root)
    requires !OnTheWay(db, run, root, group)
    ensures forall caps :: GroupSpend(View(RaiseDb(db, run, g), Members(db, group), at, WHOLE), caps) ==
                           GroupSpend(View(db, Members(db, group), at, WHOLE), caps)
  {
    RootOfIsRoot(db.runs, run);
    var v := View(db, Members(db, group), at, WHOLE);
    forall h: nat | HeldRoot(v, h) ensures !InTree(db.runs, h, run) {
      HeldRootFacts(v, h);
      if InTree(db.runs, h, run) {
        TreesDisjoint(db.runs, run, h, root);
      }
    }
    RaiseElsewhere(v, run, g);
  }
}
