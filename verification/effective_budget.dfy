/**
 * A run's effective budget, its tree's shared ceiling, and a top-up's room
 * (groupCappedBudget, runTreeSpend, effectiveBudgetForRun, codingTopUpRoom in
 * src/core/budget-groups.ts), as functions of the tables.
 */
module EffectiveBudgets {
  import opened Common
  import opened Sums
  import opened BudgetGroups
  import opened RunTrees

  datatype Constraint = PeriodCap(period: Period) | RunTree

  datatype Candidate = Candidate(value: int, reason: Constraint, cap: int, spent: int, held: int)

  datatype Effective = Effective(budget: int, constrainedBy: seq<Constraint>, limitedBy: Option<Constraint>,
                                 exhaustedBy: Option<Candidate>)

  function AgentOf(db: Db, a: nat): Agent {
    if a < |db.agents| then db.agents[a] else Agent(0, None, 0)
  }

  /** The group's agents and their budgets. */
  function Members(db: Db, group: nat): map<nat, nat> {
    map a: nat | 0 <= a < |db.agents| && db.agents[a].group == Some(group) :: db.agents[a].budget
  }

  lemma MembersIff(db: Db, group: nat, agent: nat)
    ensures agent in Members(db, group) <==> agent < |db.agents| && db.agents[agent].group == Some(group)
    ensures agent in Members(db, group) ==> Members(db, group)[agent] == db.agents[agent].budget
  {
  }

  function ToCandidates(spends: seq<PeriodSpend>): seq<Candidate> {
    if spends == [] then []
    else
      var s := spends[0];
      [Candidate(s.remaining, PeriodCap(s.period), s.cap, s.spent, s.reserved)] + ToCandidates(spends[1..])
  }

  ghost function GroupCandidates(db: Db, group: Option<nat>, at: Moment, opts: SpendOptions): seq<Candidate> {
    if group.Some? && group.value < |db.groups|
    then ToCandidates(GroupSpend(View(db, Members(db, group.value), at, opts), db.groups[group.value]))
    else []
  }

  // ---- the minimum of what applies ----------------------------------------

  function LeastValue(limit: int, cs: seq<Candidate>): int {
    if cs == [] then limit else Min(LeastValue(limit, cs[..|cs| - 1]), cs[|cs| - 1].value)
  }

  function FirstWith(cs: seq<Candidate>, value: int): Option<Candidate> {
    if cs == [] then None else if cs[0].value == value then Some(cs[0]) else FirstWith(cs[1..], value)
  }

  function FirstExhausted(cs: seq<Candidate>): Option<Candidate> {
    if cs == [] then None else if cs[0].value < MIN_RESERVATION then Some(cs[0]) else FirstExhausted(cs[1..])
  }

  function ReasonsBelow(cs: seq<Candidate>, limit: int): seq<Constraint> {
    if cs == [] then []
    else (if cs[0].value < limit then [cs[0].reason] else []) + ReasonsBelow(cs[1..], limit)
  }

  /** The agent's own limit tightened to the least candidate. */
  function Tighten(limit: int, cs: seq<Candidate>): Effective {
    var least := LeastValue(limit, cs);
    var limiting := if least < limit then FirstWith(cs, least) else None;
    Effective(least, ReasonsBelow(cs, limit), if limiting.Some? then Some(limiting.value.reason) else None,
              FirstExhausted(cs))
  }

  lemma {:induction false} LeastValueIsMinimum(limit: int, cs: seq<Candidate>)
    ensures LeastValue(limit, cs) <= limit
    ensures forall i :: 0 <= i < |cs| ==> LeastValue(limit, cs) <= cs[i].value
    ensures LeastValue(limit, cs) == limit || exists i :: 0 <= i < |cs| && LeastValue(limit, cs) == cs[i].value
  {
    if cs != [] {
      var n := |cs| - 1;
      LeastValueIsMinimum(limit, cs[..n]);
      if LeastValue(limit, cs) != limit && LeastValue(limit, cs) != cs[n].value {
        var i :| 0 <= i < n && LeastValue(limit, cs[..n]) == cs[..n][i].value;
        assert LeastValue(limit, cs) == cs[i].value;
      }
    }
  }

  lemma {:induction false} FirstOf(cs: seq<Candidate>, value: int)
    ensures match FirstExhausted(cs)
            case None => forall i :: 0 <= i < |cs| ==> cs[i].value >= 1
            case Some(c) => exists i :: 0 <= i < |cs| && c == cs[i] && c.value < 1 && forall j :: 0 <= j < i ==> cs[j].value >= 1
    ensures match FirstWith(cs, value)
            case None => forall i :: 0 <= i < |cs| ==> cs[i].value != value
            case Some(c) => exists i :: 0 <= i < |cs| && c == cs[i] && c.value == value &&
                                        forall j :: 0 <= j < i ==> cs[j].value != value
  {
    if cs != [] {
      FirstOf(cs[1..], value);
      assert forall i :: 0 < i < |cs| ==> cs[i] == cs[1..][i - 1];
      if cs[0].value >= 1 && FirstExhausted(cs).Some? {
        var i :| 0 <= i < |cs| - 1 && FirstExhausted(cs).value == cs[1..][i] && forall j :: 0 <= j < i ==> cs[1..][j].value >= 1;
        assert FirstExhausted(cs).value == cs[i + 1];
      }
      if cs[0].value != value && FirstWith(cs, value).Some? {
        var i :| 0 <= i < |cs| - 1 && FirstWith(cs, value).value == cs[1..][i] && forall j :: 0 <= j < i ==> cs[1..][j].value != value;
        assert FirstWith(cs, value).value == cs[i + 1];
      }
    }
  }

  /** A constraint is named exactly when a candidate of it is below the limit. */
  lemma {:induction false} ReasonsAreBelow(cs: seq<Candidate>, limit: int, reason: Constraint)
    ensures reason in ReasonsBelow(cs, limit) <==> exists i :: 0 <= i < |cs| && cs[i].value < limit && cs[i].reason == reason
  {
    if cs != [] {
      ReasonsAreBelow(cs[1..], limit, reason);
      assert forall i :: 0 < i < |cs| ==> cs[i] == cs[1..][i - 1];
      if reason in ReasonsBelow(cs[1..], limit) {
        var i :| 0 <= i < |cs| - 1 && cs[1..][i].value < limit && cs[1..][i].reason == reason;
        assert cs[i + 1].value < limit && cs[i + 1].reason == reason;
      }
    }
  }

  /**
   * What a run is told about its budget: what limits it is the first candidate
   * as small as the budget, when the budget is below the limit; and with a limit
   * of at least a micro-dollar, less than that is left exactly when a candidate
   * is exhausted, of which the first is named.
   */
  lemma TightenedIsExplained(limit: int, cs: seq<Candidate>)
    ensures var e := Tighten(limit, cs);
            (e.limitedBy.Some? <==> e.budget < limit) &&
            (e.limitedBy.Some? ==>
              exists i :: 0 <= i < |cs| && cs[i].value == e.budget && e.limitedBy == Some(cs[i].reason) &&
                          forall j :: 0 <= j < i ==> cs[j].value > e.budget) &&
            (limit >= 1 ==> (e.exhaustedBy.Some? <==> e.budget < 1)) &&
            (e.exhaustedBy.Some? ==>
              exists i :: 0 <= i < |cs| && e.exhaustedBy == Some(cs[i]) && cs[i].value < 1 &&
                          forall j :: 0 <= j < i ==> cs[j].value >= 1)
  {
    LeastValueIsMinimum(limit, cs);
    FirstOf(cs, LeastValue(limit, cs));
    var e := Tighten(limit, cs);
    if e.limitedBy.Some? {
      var c := FirstWith(cs, e.budget).value;
      var i :| 0 <= i < |cs| && c == cs[i] && c.value == e.budget && forall j :: 0 <= j < i ==> cs[j].value != e.budget;
      assert cs[i].value == e.budget && e.limitedBy == Some(cs[i].reason);
    }
    if e.exhaustedBy.Some? {
      var i :| 0 <= i < |cs| && e.exhaustedBy.value == cs[i] && cs[i].value < 1 && forall j :: 0 <= j < i ==> cs[j].value >= 1;
      assert e.exhaustedBy == Some(cs[i]);
    }
  }

  lemma {:induction false} CandidateValues(spends: seq<PeriodSpend>)
    ensures |ToCandidates(spends)| == |spends|
    ensures forall i :: 0 <= i < |spends| ==> ToCandidates(spends)[i].value == spends[i].remaining
  {
    if spends != [] {
      CandidateValues(spends[1..]);
      forall i | 0 <= i < |spends| ensures ToCandidates(spends)[i].value == spends[i].remaining {
        if i > 0 {
          assert ToCandidates(spends)[i] == ToCandidates(spends[1..])[i - 1];
        }
      }
    }
  }

  /** A set cap is among its group's candidates, with what it has left. */
  lemma CapIsCandidate(db: Db, group: nat, at: Moment, opts: SpendOptions, p: Period) returns (i: nat)
    requires group < |db.groups| && CapOf(db.groups[group], p).Some?
    ensures var v := View(db, Members(db, group), at, opts);
            i < |GroupCandidates(db, Some(group), at, opts)| &&
            GroupCandidates(db, Some(group), at, opts)[i].value ==
            SpendOf(v, p, CapOf(db.groups[group], p).value).remaining
  {
    var v := View(db, Members(db, group), at, opts);
    var caps := db.groups[group];
    CandidateValues(GroupSpend(v, caps));
    i := match p
         case Day => 0
         case Week => |SpendIfCapped(v, caps, Day)|
         case Month => |SpendIfCapped(v, caps, Day)| + |SpendIfCapped(v, caps, Week)|;
  }

  // ---- a run tree's ceiling -----------------------------------------------

  /** x is `from` or one of its ancestors. */
  ghost predicate OnChain(runs: seq<Run>, from: nat, x: nat) {
    exists n: nat :: Up(runs, from, n) == Some(x)
  }

  ghost predicate HeldSibling(db: Db, at: Moment, root: nat, from: nat, self: Option<RunOrder>, r: nat) {
    r < |db.runs| && InTree(db.runs, root, r) && !OnChain(db.runs, from, r) &&
    (self.Some? ==> r != self.value.id && IsOrderedBefore(RunOrder(r, db.runs[r].startedAt), self.value)) &&
    IsHoldLive(db.runs[r], at)
  }

  ghost function SiblingHoldAt(db: Db, at: Moment, root: nat, from: nat, self: Option<RunOrder>, r: nat): nat {
    if HeldSibling(db, at, root, from, self, r) then Unspent(TreeReservation(db, db.runs[r]), db.runs[r]) else 0
  }

  ghost function SiblingColumn(db: Db, at: Moment, root: nat, from: nat, self: Option<RunOrder>): seq<int> {
    seq(|db.runs|, r requires 0 <= r => SiblingHoldAt(db, at, root, from, self, r))
  }

  ghost function TreeRuns(runs: seq<Run>, root: nat): set<nat> {
    set x: nat | 0 <= x < |runs| && InTree(runs, root, x)
  }

  datatype TreeSpend = TreeSpend(root: nat, cap: int, spent: int, remaining: int)

  /** The root agent's budget, raised by its overrun for a top-up. */
  function TreeLimit(agent: Agent, withOverrun: bool): nat {
    if withOverrun then agent.budget * (100 + agent.overrunPercent) / 100 else agent.budget
  }

  /** The options runTreeSpend reads the root's group with: without the tree, at the root's place in line. */
  ghost function WithoutTree(db: Db, root: nat): SpendOptions
    requires root < |db.runs|
  {
    SpendOptions({}, TreeRuns(db.runs, root), Some(RunOrder(root, db.runs[root].startedAt)))
  }

  /** What the tree may cost in all: the root agent's budget, raised by its overrun for a top-up, within its group. */
  ghost function TreeCap(db: Db, at: Moment, root: nat, withOverrun: bool): int
    requires root < |db.runs|
  {
    var agent := AgentOf(db, db.runs[root].agent);
    LeastValue(TreeLimit(agent, withOverrun), GroupCandidates(db, agent.group, at, WithoutTree(db, root)))
  }

  ghost function TreeSpendOf(db: Db, at: Moment, root: nat, from: nat, self: Option<RunOrder>, withOverrun: bool)
    : TreeSpend
    requires root < |db.runs|
  {
    var cap := TreeCap(db, at, root, withOverrun);
    var spent := TreeCost(db.runs, root);
    TreeSpend(root, cap, spent, Max(0, cap - spent - Sum(SiblingColumn(db, at, root, from, self))))
  }

  function TreeCandidate(tree: TreeSpend): Candidate {
    Candidate(tree.remaining, RunTree, tree.cap, tree.spent, tree.cap - tree.spent - tree.remaining)
  }

  // ---- a run's effective budget -------------------------------------------

  /** Where a sub-agent is dispatched: its parent and its tree's root. */
  datatype Place = Place(from: nat, root: nat)

  function SelfId(self: Option<RunOrder>): set<nat> {
    if self.Some? then {self.value.id} else {}
  }

  /** A sub-agent in the root's own group has the root's place in line; elsewhere it is an ordinary member. */
  ghost function PlaceOptions(db: Db, group: Option<nat>, root: nat, self: Option<RunOrder>): SpendOptions
    requires root < |db.runs|
  {
    if group.Some? && group == AgentOf(db, db.runs[root].agent).group
    then SpendOptions(TreeRuns(db.runs, root) + SelfId(self), {}, Some(RunOrder(root, db.runs[root].startedAt)))
    else SpendOptions(SelfId(self), {}, self)
  }

  ghost function EffectiveFor(db: Db, agent: nat, at: Moment, place: Option<Place>, self: Option<RunOrder>): Effective
    requires place.Some? ==> place.value.root < |db.runs|
  {
    var a := AgentOf(db, agent);
    if place.None?
    then Tighten(a.budget, GroupCandidates(db, a.group, at, SpendOptions(SelfId(self), {}, self)))
    else
      var root := place.value.root;
      var tree := TreeSpendOf(db, at, root, place.value.from, self, false);
      Tighten(a.budget, GroupCandidates(db, a.group, at, PlaceOptions(db, a.group, root, self)) + [TreeCandidate(tree)])
  }

  /** A top-level run's effective budget is between zero and its agent's own. */
  lemma EffectiveRange(db: Db, at: Moment, agent: nat, self: Option<RunOrder>)
    requires agent < |db.agents|
    ensures 0 <= EffectiveFor(db, agent, at, None, self).budget <= db.agents[agent].budget
  {
    var group := db.agents[agent].group;
    var opts := SpendOptions(SelfId(self), {}, self);
    LeastValueIsMinimum(db.agents[agent].budget, GroupCandidates(db, group, at, opts));
    if group.Some? && group.value < |db.groups| {
      CandidateValues(GroupSpend(View(db, Members(db, group.value), at, opts), db.groups[group.value]));
    }
  }

  /** A positive effective budget fits under each set cap of the agent's group. */
  lemma EffectiveFits(db: Db, at: Moment, agent: nat, self: Option<RunOrder>, group: nat, p: Period)
    requires agent < |db.agents| && db.agents[agent].group == Some(group)
    requires group < |db.groups| && CapOf(db.groups[group], p).Some?
    requires EffectiveFor(db, agent, at, None, self).budget > 0
    ensures var v := View(db, Members(db, group), at, SpendOptions(SelfId(self), {}, self));
            Spent(v, PeriodStart(p, at)) + Reserved(v, PeriodStart(p, at)) + EffectiveFor(db, agent, at, None, self).budget
            <= CapOf(db.groups[group], p).value
  {
    var opts := SpendOptions(SelfId(self), {}, self);
    var i := CapIsCandidate(db, group, at, opts, p);
    LeastValueIsMinimum(db.agents[agent].budget, GroupCandidates(db, Some(group), at, opts));
  }

  // ---- a coding run's top-up room -----------------------------------------

  /** codingTopUpRoom's candidates: the tree's raised ceiling, then the run's group, then the root's when it differs. */
  ghost function RoomCandidates(db: Db, at: Moment, run: nat, root: nat): seq<Candidate>
    requires run < |db.runs| && root < |db.runs|
  {
    var own := AgentOf(db, db.runs[run].agent).group;
    if db.runs[run].parent.None? then GroupCandidates(db, own, at, WHOLE)
    else
      var rootGroup := AgentOf(db, db.runs[root].agent).group;
      [TreeCandidate(TreeSpendOf(db, at, root, db.runs[run].parent.value, None, true))]
      + GroupCandidates(db, own, at, WHOLE)
      + if rootGroup == own then [] else GroupCandidates(db, rootGroup, at, WHOLE)
  }

  function LeastCandidate(cs: seq<Candidate>): Candidate
    requires cs != []
  {
    if |cs| == 1 then cs[0]
    else
      var least := LeastCandidate(cs[..|cs| - 1]);
      if cs[|cs| - 1].value < least.value then cs[|cs| - 1] else least
  }

  lemma {:induction false} LeastCandidateIsMinimum(cs: seq<Candidate>)
    requires cs != []
    ensures forall i :: 0 <= i < |cs| ==> LeastCandidate(cs).value <= cs[i].value
    ensures exists i :: 0 <= i < |cs| && LeastCandidate(cs) == cs[i] && forall j :: 0 <= j < i ==> cs[j].value > cs[i].value
  {
    if |cs| > 1 {
      var n := |cs| - 1;
      var before := cs[..n];
      LeastCandidateIsMinimum(before);
      var i :| 0 <= i < n && LeastCandidate(before) == before[i] && forall j :: 0 <= j < i ==> before[j].value > before[i].value;
      if cs[n].value < before[i].value {
        assert LeastCandidate(cs) == cs[n] && forall j :: 0 <= j < n ==> before[j].value >= before[i].value;
      } else {
        assert LeastCandidate(cs) == cs[i];
      }
    } else {
      assert LeastCandidate(cs) == cs[0];
    }
  }

  /** The room left; None when nothing constrains the run. */
  datatype Room = Unlimited | Room(left: int, limitedBy: Candidate)

  ghost function TopUpRoom(db: Db, at: Moment, run: nat, root: nat): Room
    requires run < |db.runs| && root < |db.runs|
  {
    var cs := RoomCandidates(db, at, run, root);
    if cs == [] then Unlimited
    else Room(Max(0, LeastCandidate(cs).value), LeastCandidate(cs))
  }
}

/** The same computations as the program runs them, over the loops of GroupSpendLoops and RunTrees. */
module BudgetQueries {
  import opened Common
  import opened Sums
  import opened BudgetGroups
  import opened RunTrees
  import opened GroupSpendLoops
  import opened EffectiveBudgets

  method CandidatesOfGroup(db: Db, group: Option<nat>, at: Moment, opts: SpendOptions) returns (cs: seq<Candidate>)
    ensures cs == GroupCandidates(db, group, at, opts)
  {
    if group.Some? && group.value < |db.groups| {
      var spends := ComputeGroupSpend(View(db, Members(db, group.value), at, opts), db.groups[group.value]);
      cs := ToCandidates(spends);
    } else {
      cs := [];
    }
  }

  /** The parent and its ancestors, walked up once; the visited check stops a cycle. */
  method Ancestors(runs: seq<Run>, root: nat, from: nat) returns (ancestors: set<nat>)
    requires IsRoot(runs, root) && InTree(runs, root, from)
    ensures forall x: nat :: x in ancestors <==> OnChain(runs, from, x)
  {
    ancestors := {};
    ghost var last: nat :| Up(runs, from, last) == Some(root);
    ghost var n: nat := 0;
    var id := Some(from);
    while id.Some? && id.value !in ancestors
      invariant forall x: nat :: x in ancestors <==> exists m: nat :: m < n && Up(runs, from, m) == Some(x)
      invariant n <= last + 1
      invariant id == if n <= last then Up(runs, from, n) else None
      decreases last + 1 - n
    {
      UpCompose(runs, from, n, last - n);
      ancestors := ancestors + {id.value};
      UpCompose(runs, from, n, 1);
      assert Up(runs, id.value, 1) == runs[id.value].parent by {
        if n < last {
          UpStep(runs, from, n) by { UpCompose(runs, from, n + 1, last - n - 1); }
        }
      }
      id := runs[id.value].parent;
      n := n + 1;
    }
    if id.Some? {
      ghost var m: nat :| m < n && Up(runs, from, m) == id;
      UpCompose(runs, from, n, last - n);
      UpCompose(runs, from, m, last - n);
      RootUnique(runs, from, last, m + (last - n), root, root);
    }
    if id.None? && n <= last {
      UpStops(runs, from, n, last);
    }
    forall x: nat | OnChain(runs, from, x) ensures x in ancestors {
      var m: nat :| Up(runs, from, m) == Some(x);
      if m > last {
        UpCompose(runs, from, last, 1);
        UpStops(runs, from, last + 1, m);
      }
    }
  }

  /** The unspent holds of the tree's live runs off the ancestor chain, each counted on its own. */
  method SiblingHolds(db: Db, at: Moment, root: nat, treeIds: seq<nat>, from: nat, self: Option<RunOrder>)
    returns (total: int)
    requires IsRoot(db.runs, root) && InTree(db.runs, root, from)
    requires forall x :: x in treeIds <==> InTree(db.runs, root, x)
    ensures total == Sum(SiblingColumn(db, at, root, from, self))
  {
    var ancestors := Ancestors(db.runs, root, from);
    ghost var column := SiblingColumn(db, at, root, from, self);
    total := 0;
    for r := 0 to |db.runs|
      invariant total == Sum(column[..r])
    {
      SumPrefixStep(column, r);
      if r !in treeIds || r in ancestors {
        continue;
      }
      if self.Some? && (r == self.value.id || !IsOrderedBefore(RunOrder(r, db.runs[r].startedAt), self.value)) {
        continue;
      }
      if !IsHoldLive(db.runs[r], at) {
        continue;
      }
      total := total + Unspent(TreeReservation(db, db.runs[r]), db.runs[r]);
    }
    assert column[..|db.runs|] == column;
  }

  method TreeIds(runs: seq<Run>, root: nat) returns (ids: seq<nat>, treeRuns: set<nat>)
    requires IsRoot(runs, root)
    ensures forall x :: x in ids <==> InTree(runs, root, x)
    ensures treeRuns == TreeRuns(runs, root)
  {
    ids := CollectTreeRunIds(runs, root);
    treeRuns := set x | x in ids;
  }

  /** The root's ceiling: its group is read without the tree, at the root's place in line. */
  method CapOfTree(db: Db, at: Moment, root: nat, treeRuns: set<nat>, withOverrun: bool) returns (cap: int)
    requires root < |db.runs| && treeRuns == TreeRuns(db.runs, root)
    ensures cap == TreeCap(db, at, root, withOverrun)
  {
    var agent := AgentOf(db, db.runs[root].agent);
    var opts := SpendOptions({}, treeRuns, Some(RunOrder(root, db.runs[root].startedAt)));
    var cs := CandidatesOfGroup(db, agent.group, at, opts);
    cap := Tighten(TreeLimit(agent, withOverrun), cs).budget;
  }

  method CostOfTree(runs: seq<Run>, root: nat, treeIds: seq<nat>) returns (spent: int)
    requires forall x :: x in treeIds <==> InTree(runs, root, x)
    ensures spent == TreeCost(runs, root)
  {
    ghost var costs := TreeCostColumn(runs, root);
    spent := 0;
    for j := 0 to |runs|
      invariant spent == Sum(costs[..j])
    {
      SumPrefixStep(costs, j);
      if j in treeIds {
        spent := spent + runs[j].cost;
      }
    }
    assert costs[..|runs|] == costs;
  }

  /** runTreeSpend; None when a row on the way to the root is missing. */
  method RunTreeSpend(db: Db, at: Moment, from: nat, self: Option<RunOrder>, withOverrun: bool)
    returns (tree: Option<TreeSpend>)
    requires ChainEnds(db.runs, from)
    ensures tree.Some? ==> IsRoot(db.runs, tree.value.root) && InTree(db.runs, tree.value.root, from) &&
                           tree.value == TreeSpendOf(db, at, tree.value.root, from, self, withOverrun)
    ensures tree.None? ==> forall r: nat :: IsRoot(db.runs, r) ==> !InTree(db.runs, r, from)
  {
    var found := FindRootRun(db.runs, from);
    if found.None? {
      return None;
    }
    var spend := SpendOfTree(db, at, found.value, from, self, withOverrun);
    tree := Some(spend);
  }

  /** The same, for the root that was found. */
  method SpendOfTree(db: Db, at: Moment, root: nat, from: nat, self: Option<RunOrder>, withOverrun: bool)
    returns (tree: TreeSpend)
    requires IsRoot(db.runs, root) && InTree(db.runs, root, from)
    ensures tree == TreeSpendOf(db, at, root, from, self, withOverrun)
  {
    var treeIds, treeRuns := TreeIds(db.runs, root);
    var spent := CostOfTree(db.runs, root, treeIds);
    var held := SiblingHolds(db, at, root, treeIds, from, self);
    var cap := CapOfTree(db, at, root, treeRuns, withOverrun);
    tree := TreeSpend(root, cap, spent, Max(0, cap - spent - held));
  }

  /** How a sub-agent's group is read: in the root's own group it spends inside the root's hold. */
  method SubAgentOptions(db: Db, group: Option<nat>, root: nat, self: Option<RunOrder>) returns (opts: SpendOptions)
    requires IsRoot(db.runs, root)
    ensures opts == PlaceOptions(db, group, root, self)
  {
    if group.Some? && group == AgentOf(db, db.runs[root].agent).group {
      var treeIds, treeRuns := TreeIds(db.runs, root);
      opts := SpendOptions(treeRuns + SelfId(self), {}, Some(RunOrder(root, db.runs[root].startedAt)));
    } else {
      opts := SpendOptions(SelfId(self), {}, self);
    }
  }

  /** effectiveBudgetForRun with a parent; None when the parent's tree cannot be resolved (it throws). */
  method EffectiveInTree(db: Db, agent: nat, at: Moment, from: nat, self: Option<RunOrder>)
    returns (r: Option<Effective>, ghost root: nat)
    requires ChainEnds(db.runs, from)
    ensures r.Some? ==> IsRoot(db.runs, root) && InTree(db.runs, root, from) &&
                        r.value == EffectiveFor(db, agent, at, Some(Place(from, root)), self)
    ensures r.None? ==> forall q: nat :: IsRoot(db.runs, q) ==> !InTree(db.runs, q, from)
  {
    root := from;
    var tree := RunTreeSpend(db, at, from, self, false);
    if tree.None? {
      return None, root;
    }
    root := tree.value.root;
    var group := AgentOf(db, agent).group;
    var opts := SubAgentOptions(db, group, tree.value.root, self);
    var cs := CandidatesOfGroup(db, group, at, opts);
    r := Some(Tighten(AgentOf(db, agent).budget, cs + [TreeCandidate(tree.value)]));
  }

  /** effectiveBudgetForRun of a top-level run. */
  method EffectiveAlone(db: Db, agent: nat, at: Moment, self: Option<RunOrder>) returns (r: Effective)
    ensures r == EffectiveFor(db, agent, at, None, self)
  {
    var a := AgentOf(db, agent);
    var cs := CandidatesOfGroup(db, a.group, at, SpendOptions(SelfId(self), {}, self));
    r := Tighten(a.budget, cs);
  }

  /** The candidate with the least value, the first one among equals. */
  method Least(cs: seq<Candidate>) returns (least: Candidate)
    requires cs != []
    ensures least == LeastCandidate(cs)
  {
    least := cs[0];
    for k := 1 to |cs|
      invariant least == LeastCandidate(cs[..k])
    {
      assert cs[..k + 1][..k] == cs[..k];
      if cs[k].value < least.value {
        least := cs[k];
      }
    }
    assert cs[..|cs|] == cs;
  }

  /** The candidates of a sub-run's room: its tree's raised ceiling first; None when the tree cannot be resolved. */
  method SubRunCandidates(db: Db, at: Moment, run: nat) returns (cs: Option<seq<Candidate>>, ghost root: nat)
    requires run < |db.runs| && db.runs[run].parent.Some?
    requires ChainEnds(db.runs, db.runs[run].parent.value)
    ensures cs.Some? ==> IsRoot(db.runs, root) && InTree(db.runs, root, run) &&
                         cs.value == RoomCandidates(db, at, run, root)
    ensures cs.None? ==> forall r: nat :: IsRoot(db.runs, r) ==> !InTree(db.runs, r, db.runs[run].parent.value)
  {
    root := run;
    var tree := RunTreeSpend(db, at, db.runs[run].parent.value, None, true);
    if tree.None? {
      return None, root;
    }
    root := tree.value.root;
    ChildInTree(db.runs, root, run);
    var own := AgentOf(db, db.runs[run].agent).group;
    var rootGroup := AgentOf(db, db.runs[tree.value.root].agent).group;
    var mine := CandidatesOfGroup(db, own, at, WHOLE);
    var others: seq<Candidate> := [];
    if rootGroup != own {
      others := CandidatesOfGroup(db, rootGroup, at, WHOLE);
    }
    cs := Some([TreeCandidate(tree.value)] + mine + others);
  }

  /** codingTopUpRoom; None when the run's tree cannot be resolved (it throws). */
  method CodingTopUpRoom(db: Db, at: Moment, run: nat) returns (room: Option<Room>)
    requires run < |db.runs|
    requires db.runs[run].parent.Some? ==> ChainEnds(db.runs, db.runs[run].parent.value)
    ensures db.runs[run].parent.None? ==> room == Some(TopUpRoom(db, at, run, run))
    ensures db.runs[run].parent.Some? && room.Some? ==>
              exists root :: IsRoot(db.runs, root) && InTree(db.runs, root, run) &&
                             room.value == TopUpRoom(db, at, run, root)
    ensures db.runs[run].parent.Some? && room.None? ==>
              forall r: nat :: IsRoot(db.runs, r) ==> !InTree(db.runs, r, db.runs[run].parent.value)
  {
    var cs: seq<Candidate>;
    ghost var root := run;
    if db.runs[run].parent.Some? {
      var found, r := SubRunCandidates(db, at, run);
      if found.None? {
        return None;
      }
      cs := found.value;
      root := r;
    } else {
      cs := CandidatesOfGroup(db, AgentOf(db, db.runs[run].agent).group, at, WHOLE);
    }
    if cs == [] {
      return Some(Unlimited);
    }
    var least := Least(cs);
    room := Some(Room(Max(0, least.value), least));
  }
}
