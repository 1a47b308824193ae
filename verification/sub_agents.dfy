/**
 * What a sub-agent's effective budget does for the caps of its group and for
 * its tree's ceiling, and when runs of one tree ask in line.
 */
module SubAgents {
  import opened Common
  import opened Sums
  import opened BudgetGroups
  import opened RunTrees
  import opened EffectiveBudgets
  import FirstCome

  // ---- the tightest of what applies ---------------------------------------

  /** What a capped period has left beside everyone's cost and the holds that these options count. */
  ghost function LeftOf(db: Db, at: Moment, group: nat, p: Period, opts: SpendOptions): int
    requires group < |db.groups| && CapOf(db.groups[group], p).Some?
  {
    var v, start := View(db, Members(db, group), at, opts), PeriodStart(p, at);
    Max(0, CapOf(db.groups[group], p).value - Spent(v, start) - Reserved(v, start))
  }

  /** The budget is the own one or, when that is more than some capped period leaves, what the tightest period leaves. */
  ghost predicate IsTightest(budget: int, own: int, db: Db, at: Moment, group: Option<nat>, opts: SpendOptions) {
    budget <= own &&
    (forall g: nat, p :: group == Some(g) && g < |db.groups| && CapOf(db.groups[g], p).Some? ==>
      budget <= LeftOf(db, at, g, p, opts)) &&
    (budget == own ||
     exists g: nat, p :: group == Some(g) && g < |db.groups| && CapOf(db.groups[g], p).Some? &&
                         budget == LeftOf(db, at, g, p, opts))
  }

  lemma LeastOfGroup(own: int, db: Db, at: Moment, group: Option<nat>, opts: SpendOptions)
    ensures IsTightest(LeastValue(own, GroupCandidates(db, group, at, opts)), own, db, at, group, opts)
  {
    var cs := GroupCandidates(db, group, at, opts);
    var budget := LeastValue(own, cs);
    LeastValueIsMinimum(own, cs);
    forall g: nat, p | group == Some(g) && g < |db.groups| && CapOf(db.groups[g], p).Some?
      ensures budget <= LeftOf(db, at, g, p, opts)
    {
      var k := CapIsCandidate(db, g, at, opts, p);
    }
    if budget != own {
      var k :| 0 <= k < |cs| && budget == cs[k].value;
      var v := View(db, Members(db, group.value), at, opts);
      CandidateValues(GroupSpend(v, db.groups[group.value]));
      var p := FirstCome.CandidateIsCap(v, db.groups[group.value], k);
      assert budget == LeftOf(db, at, group.value, p, opts);
    }
  }

  /** One candidate more, at the end. */
  lemma LeastWithOneMore(own: int, cs: seq<Candidate>, c: Candidate)
    ensures LeastValue(own, cs + [c]) == Min(LeastValue(own, cs), c.value)
  {
    assert (cs + [c])[..|cs|] == cs;
  }

  // ---- the tree's share ---------------------------------------------------

  /** Whose holds count: everyone's or, for a run that asks for itself, those before it in line. */
  predicate CountsFor(self: Option<RunOrder>, r: nat, startedAt: int) {
    self.None? ||
    (r != self.value.id && startedAt < self.value.startedAt) || (startedAt == self.value.startedAt && r < self.value.id)
  }

  /** The holds of the tree's live runs off the chain from `from` up. */
  ghost function TreeHeldAt(db: Db, at: Moment, root: nat, from: nat, self: Option<RunOrder>, r: nat): nat {
    if r < |db.runs| && InTree(db.runs, root, r) && !(exists n: nat :: Up(db.runs, from, n) == Some(r)) &&
       IsHoldLive(db.runs[r], at) && CountsFor(self, r, db.runs[r].startedAt)
    then
      var run := db.runs[r];
      var own := if run.coding.Some? then run.coding.value.reserved else AgentOf(db, run.agent).budget;
      Max(0, own - run.cost)
    else 0
  }

  ghost function TreeHeld(db: Db, at: Moment, root: nat, from: nat, self: Option<RunOrder>): int {
    Sum(seq(|db.runs|, r requires 0 <= r => TreeHeldAt(db, at, root, from, self, r)))
  }

  /** What the tree has left under a ceiling: less what its runs have cost and its other runs hold. */
  ghost function TreeLeft(db: Db, at: Moment, root: nat, from: nat, self: Option<RunOrder>, ceiling: int): int {
    Max(0, ceiling - TreeCost(db.runs, root) - TreeHeld(db, at, root, from, self))
  }

  lemma TreeHeldIsSiblings(db: Db, at: Moment, root: nat, from: nat, self: Option<RunOrder>)
    ensures Sum(SiblingColumn(db, at, root, from, self)) == TreeHeld(db, at, root, from, self)
  {
    var mine := seq(|db.runs|, r requires 0 <= r => TreeHeldAt(db, at, root, from, self, r));
    assert SiblingColumn(db, at, root, from, self) == mine;
  }

  /** A tree's options in its root's group: without its runs, at the root's place in line. */
  ghost function OutsideTree(db: Db, root: nat): SpendOptions
    requires root < |db.runs|
  {
    SpendOptions({}, TreeRuns(db.runs, root), Some(RunOrder(root, db.runs[root].startedAt)))
  }

  /**
   * A tree's ceiling is its root agent's budget, raised by the overrun for a
   * top-up, or what the tightest period of the root's group leaves beside the
   * cost of the runs outside the tree and their holds before the root.
   */
  lemma CeilingIsTightest(db: Db, at: Moment, root: nat, withOverrun: bool)
    requires root < |db.runs|
    ensures var agent := AgentOf(db, db.runs[root].agent);
            IsTightest(TreeCap(db, at, root, withOverrun),
                       if withOverrun then agent.budget * (100 + agent.overrunPercent) / 100 else agent.budget,
                       db, at, agent.group, OutsideTree(db, root))
  {
    var agent := AgentOf(db, db.runs[root].agent);
    LeastOfGroup(TreeLimit(agent, withOverrun), db, at, agent.group, OutsideTree(db, root));
    assert WithoutTree(db, root) == OutsideTree(db, root);
  }

  // ---- a sub-agent's budget -----------------------------------------------

  /** The holds a sub-agent sees in its group: in the root's, those outside the tree before the root; elsewhere as any member. */
  ghost function GroupOptions(db: Db, root: nat, group: Option<nat>, self: Option<RunOrder>): SpendOptions
    requires root < |db.runs|
  {
    var own := if self.Some? then {self.value.id} else {};
    if group.Some? && AgentOf(db, db.runs[root].agent).group == group then
      SpendOptions(TreeRuns(db.runs, root) + own, {},
                   Some(RunOrder(root, db.runs[root].startedAt)))
    else SpendOptions(own, {}, self)
  }

  /**
   * A sub-agent gets its own budget or, when that is more than its tree or a
   * capped period of its group leaves, exactly what the tightest of them leaves.
   */
  lemma SubAgentIsTightest(db: Db, at: Moment, agent: nat, from: nat, root: nat, self: Option<RunOrder>)
    requires root < |db.runs|
    ensures var budget := EffectiveFor(db, agent, at, Some(Place(from, root)), self).budget;
            var tree := TreeLeft(db, at, root, from, self, TreeCap(db, at, root, false));
            exists inGroup: int ::
              IsTightest(inGroup, AgentOf(db, agent).budget, db, at, AgentOf(db, agent).group,
                         GroupOptions(db, root, AgentOf(db, agent).group, self)) &&
              budget == Min(inGroup, tree)
  {
    var a := AgentOf(db, agent);
    var tree := TreeSpendOf(db, at, root, from, self, false);
    var opts := PlaceOptions(db, a.group, root, self);
    TreeHeldIsSiblings(db, at, root, from, self);
    var cs := GroupCandidates(db, a.group, at, opts);
    LeastOfGroup(a.budget, db, at, a.group, opts);
    LeastWithOneMore(a.budget, cs, TreeCandidate(tree));
    assert opts == GroupOptions(db, root, a.group, self);
  }

  /** The same for a top-level run, asking for itself or dispatched. */
  lemma TopIsTightest(db: Db, at: Moment, agent: nat, self: Option<RunOrder>)
    ensures IsTightest(EffectiveFor(db, agent, at, None, self).budget, AgentOf(db, agent).budget, db, at,
                       AgentOf(db, agent).group,
                       SpendOptions(if self.Some? then {self.value.id} else {}, {}, self))
  {
    var a := AgentOf(db, agent);
    LeastOfGroup(a.budget, db, at, a.group, SpendOptions(SelfId(self), {}, self));
  }

  /** In a group that is not the root's, a sub-agent's positive budget fits under every cap as any member's does. */
  lemma FitsElsewhere(db: Db, at: Moment, agent: nat, from: nat, root: nat, self: Option<RunOrder>, group: nat, p: Period)
    requires root < |db.runs| && AgentOf(db, agent).group == Some(group) != AgentOf(db, db.runs[root].agent).group
    requires group < |db.groups| && CapOf(db.groups[group], p).Some?
    ensures var budget := EffectiveFor(db, agent, at, Some(Place(from, root)), self).budget;
            var v := View(db, Members(db, group), at,
                          SpendOptions(if self.Some? then {self.value.id} else {}, {}, self));
            budget > 0 ==>
              Spent(v, PeriodStart(p, at)) + Reserved(v, PeriodStart(p, at)) + budget <= CapOf(db.groups[group], p).value
  {
    SubAgentIsTightest(db, at, agent, from, root, self);
  }

  /** In the root's group it fits beside everyone's cost and the holds outside the tree that are ordered before the root. */
  lemma FitsBesideTree(db: Db, at: Moment, agent: nat, from: nat, root: nat, self: Option<RunOrder>, group: nat, p: Period)
    requires root < |db.runs| && AgentOf(db, agent).group == Some(group) == AgentOf(db, db.runs[root].agent).group
    requires group < |db.groups| && CapOf(db.groups[group], p).Some?
    requires self.Some? ==> self.value.id < |db.runs| && InTree(db.runs, root, self.value.id)
    ensures var budget := EffectiveFor(db, agent, at, Some(Place(from, root)), self).budget;
            var outside := SpendOptions(TreeRuns(db.runs, root), {},
                                        Some(RunOrder(root, db.runs[root].startedAt)));
            var v := View(db, Members(db, group), at, outside);
            budget > 0 ==>
              Spent(v, PeriodStart(p, at)) + Reserved(v, PeriodStart(p, at)) + budget <= CapOf(db.groups[group], p).value
  {
    SubAgentIsTightest(db, at, agent, from, root, self);
    SelfIsInTree(db, root, group, self);
  }

  /** A run of the tree that asks for itself is left out with its tree. */
  lemma SelfIsInTree(db: Db, root: nat, group: nat, self: Option<RunOrder>)
    requires root < |db.runs| && AgentOf(db, db.runs[root].agent).group == Some(group)
    requires self.Some? ==> self.value.id < |db.runs| && InTree(db.runs, root, self.value.id)
    ensures GroupOptions(db, root, Some(group), self) ==
            SpendOptions(TreeRuns(db.runs, root), {}, Some(RunOrder(root, db.runs[root].startedAt)))
  {
    var own := if self.Some? then {self.value.id} else {};
    assert TreeRuns(db.runs, root) + own == TreeRuns(db.runs, root);
  }

  /** What that view of the root's group counts as held: nothing of the tree, and nothing of a run ordered after the root. */
  lemma OutsideHolds(db: Db, members: map<nat, nat>, at: Moment, root: nat, start: int, i: nat)
    requires root < |db.runs| && i < |db.runs|
    ensures var outside := SpendOptions(TreeRuns(db.runs, root), {},
                                        Some(RunOrder(root, db.runs[root].startedAt)));
            var v := View(db, members, at, outside);
            (ReservedAt(v, start, i) > 0 ==>
              !InTree(db.runs, root, i) && IsHoldLive(db.runs[i], at) &&
              (db.runs[i].startedAt < db.runs[root].startedAt || (db.runs[i].startedAt == db.runs[root].startedAt && i < root))) &&
            CostAt(v, start, i) == CostAt(View(db, members, at, WHOLE), start, i)
  {
  }

  // ---- the room of a top-up -----------------------------------------------

  /** What the raised ceiling of the run's tree leaves beside its cost and all its other holds. */
  ghost function TreeRoom(db: Db, at: Moment, run: nat, root: nat): int
    requires run < |db.runs| && root < |db.runs| && db.runs[run].parent.Some?
  {
    TreeLeft(db, at, root, db.runs[run].parent.value, None, TreeCap(db, at, root, true))
  }

  /** What some capped period of the group leaves with every live hold counted. */
  ghost predicate GroupBounds(db: Db, at: Moment, group: Option<nat>, value: int) {
    exists p :: group.Some? && group.value < |db.groups| && CapOf(db.groups[group.value], p).Some? &&
                value == LeftOf(db, at, group.value, p, WHOLE)
  }

  lemma GroupValueBounds(db: Db, at: Moment, group: Option<nat>, k: nat)
    requires k < |GroupCandidates(db, group, at, WHOLE)|
    ensures GroupBounds(db, at, group, GroupCandidates(db, group, at, WHOLE)[k].value)
  {
    var v := View(db, Members(db, group.value), at, WHOLE);
    CandidateValues(GroupSpend(v, db.groups[group.value]));
    var p := FirstCome.CandidateIsCap(v, db.groups[group.value], k);
    assert GroupCandidates(db, group, at, WHOLE)[k].value == LeftOf(db, at, group.value, p, WHOLE);
  }

  lemma GroupBoundIsValue(db: Db, at: Moment, group: Option<nat>, value: int) returns (k: nat)
    requires GroupBounds(db, at, group, value)
    ensures k < |GroupCandidates(db, group, at, WHOLE)| && GroupCandidates(db, group, at, WHOLE)[k].value == value
  {
    var p :| group.Some? && group.value < |db.groups| && CapOf(db.groups[group.value], p).Some? &&
             value == LeftOf(db, at, group.value, p, WHOLE);
    k := CapIsCandidate(db, group.value, at, WHOLE, p);
  }

  /** Some bound of the run's room: a period of its group or of its root's, or its tree's ceiling. */
  ghost predicate Bounds(db: Db, at: Moment, run: nat, root: nat, value: int)
    requires run < |db.runs| && root < |db.runs|
  {
    GroupBounds(db, at, AgentOf(db, db.runs[run].agent).group, value) ||
    (db.runs[run].parent.Some? &&
     (value == TreeRoom(db, at, run, root) || GroupBounds(db, at, AgentOf(db, db.runs[root].agent).group, value)))
  }

  lemma CandidateBounds(db: Db, at: Moment, run: nat, root: nat, k: nat)
    requires run < |db.runs| && root < |db.runs| && k < |RoomCandidates(db, at, run, root)|
    ensures Bounds(db, at, run, root, RoomCandidates(db, at, run, root)[k].value)
  {
    if db.runs[run].parent.None? {
      GroupValueBounds(db, at, AgentOf(db, db.runs[run].agent).group, k);
    } else {
      SubRunCandidateBounds(db, at, run, root, k);
    }
  }

  /** A sub-run's candidates: its tree's, its group's, and its root's group's where that is another. */
  lemma RoomParts(db: Db, at: Moment, run: nat, root: nat) returns (tree: Candidate, mine: seq<Candidate>, others: seq<Candidate>)
    requires run < |db.runs| && root < |db.runs| && db.runs[run].parent.Some?
    ensures RoomCandidates(db, at, run, root) == [tree] + mine + others && tree.value == TreeRoom(db, at, run, root)
    ensures mine == GroupCandidates(db, AgentOf(db, db.runs[run].agent).group, at, WHOLE)
    ensures if AgentOf(db, db.runs[root].agent).group == AgentOf(db, db.runs[run].agent).group then others == []
            else others == GroupCandidates(db, AgentOf(db, db.runs[root].agent).group, at, WHOLE)
  {
    var own, rootGroup := AgentOf(db, db.runs[run].agent).group, AgentOf(db, db.runs[root].agent).group;
    tree := TreeCandidate(TreeSpendOf(db, at, root, db.runs[run].parent.value, None, true));
    mine := GroupCandidates(db, own, at, WHOLE);
    others := if rootGroup == own then [] else GroupCandidates(db, rootGroup, at, WHOLE);
    TreeHeldIsSiblings(db, at, root, db.runs[run].parent.value, None);
  }

  /** What one candidate, these, or those are worth is what any of them all together is worth. */
  lemma OneOfThree(tree: Candidate, mine: seq<Candidate>, others: seq<Candidate>, a: iset<int>, b: iset<int>, k: nat)
    requires k < |[tree] + mine + others|
    requires forall j :: 0 <= j < |mine| ==> mine[j].value in a
    requires forall j :: 0 <= j < |others| ==> others[j].value in b
    ensures var value := ([tree] + mine + others)[k].value; value == tree.value || value in a || value in b
  {
    var c := ([tree] + mine + others)[k];
    if 0 < k <= |mine| {
      assert c == mine[k - 1];
    } else if k > |mine| {
      assert c == others[k - 1 - |mine|];
    }
  }

  lemma SubRunCandidateBounds(db: Db, at: Moment, run: nat, root: nat, k: nat)
    requires run < |db.runs| && root < |db.runs| && k < |RoomCandidates(db, at, run, root)| && db.runs[run].parent.Some?
    ensures var value := RoomCandidates(db, at, run, root)[k].value;
            value == TreeRoom(db, at, run, root) || GroupBounds(db, at, AgentOf(db, db.runs[run].agent).group, value) ||
            GroupBounds(db, at, AgentOf(db, db.runs[root].agent).group, value)
  {
    var own, rootGroup := AgentOf(db, db.runs[run].agent).group, AgentOf(db, db.runs[root].agent).group;
    var tree, mine, others := RoomParts(db, at, run, root);
    var a := iset value | GroupBounds(db, at, own, value);
    var b := iset value | GroupBounds(db, at, rootGroup, value);
    forall j | 0 <= j < |mine| ensures mine[j].value in a {
      GroupValueBounds(db, at, own, j);
    }
    forall j | 0 <= j < |others| ensures others[j].value in b {
      GroupValueBounds(db, at, rootGroup, j);
    }
    OneOfThree(tree, mine, others, a, b, k);
  }

  lemma BoundIsCandidate(db: Db, at: Moment, run: nat, root: nat, value: int) returns (k: nat)
    requires run < |db.runs| && root < |db.runs| && Bounds(db, at, run, root, value)
    ensures k < |RoomCandidates(db, at, run, root)| && RoomCandidates(db, at, run, root)[k].value == value
  {
    if db.runs[run].parent.None? {
      k := GroupBoundIsValue(db, at, AgentOf(db, db.runs[run].agent).group, value);
    } else {
      k := SubRunBoundIsCandidate(db, at, run, root, value);
    }
  }

  lemma FindInThree(tree: Candidate, mine: seq<Candidate>, others: seq<Candidate>, value: int) returns (k: nat)
    requires value == tree.value || (exists j :: 0 <= j < |mine| && mine[j].value == value) ||
             exists j :: 0 <= j < |others| && others[j].value == value
    ensures k < |[tree] + mine + others| && ([tree] + mine + others)[k].value == value
  {
    var all := [tree] + mine + others;
    if j :| 0 <= j < |mine| && mine[j].value == value {
      k := j + 1;
      assert all[k] == mine[j];
    } else if j :| 0 <= j < |others| && others[j].value == value {
      k := j + 1 + |mine|;
      assert all[k] == others[j];
    } else {
      k := 0;
    }
  }

  lemma SubRunBoundIsCandidate(db: Db, at: Moment, run: nat, root: nat, value: int) returns (k: nat)
    requires run < |db.runs| && root < |db.runs| && Bounds(db, at, run, root, value) && db.runs[run].parent.Some?
    ensures k < |RoomCandidates(db, at, run, root)| && RoomCandidates(db, at, run, root)[k].value == value
  {
    var tree, mine, others := RoomParts(db, at, run, root);
    if value != tree.value {
      GroupBoundIsThere(db, at, run, root, mine, others, value);
    }
    k := FindInThree(tree, mine, others, value);
  }

  lemma GroupBoundIsThere(db: Db, at: Moment, run: nat, root: nat, mine: seq<Candidate>, others: seq<Candidate>, value: int)
    requires run < |db.runs| && root < |db.runs|
    requires mine == GroupCandidates(db, AgentOf(db, db.runs[run].agent).group, at, WHOLE)
    requires AgentOf(db, db.runs[root].agent).group != AgentOf(db, db.runs[run].agent).group ==>
               others == GroupCandidates(db, AgentOf(db, db.runs[root].agent).group, at, WHOLE)
    requires GroupBounds(db, at, AgentOf(db, db.runs[run].agent).group, value) ||
             GroupBounds(db, at, AgentOf(db, db.runs[root].agent).group, value)
    ensures (exists j :: 0 <= j < |mine| && mine[j].value == value) || exists j :: 0 <= j < |others| && others[j].value == value
  {
    var own, rootGroup := AgentOf(db, db.runs[run].agent).group, AgentOf(db, db.runs[root].agent).group;
    if GroupBounds(db, at, own, value) {
      var j := GroupBoundIsValue(db, at, own, value);
      assert mine[j].value == value;
    } else {
      var j := GroupBoundIsValue(db, at, rootGroup, value);
      assert others[j].value == value;
    }
  }

  /**
   * A coding run's top-up room is exactly the least of what the caps of its
   * group and of its root's group leave with every live hold counted, and of
   * what its tree's raised ceiling leaves; unlimited only where none of them is set.
   */
  lemma RoomIsTightest(db: Db, at: Moment, run: nat, root: nat)
    requires run < |db.runs| && root < |db.runs|
    ensures match TopUpRoom(db, at, run, root)
            case Unlimited => forall value :: !Bounds(db, at, run, root, value)
            case Room(left, _) =>
              Bounds(db, at, run, root, left) && forall value :: Bounds(db, at, run, root, value) ==> left <= value
  {
    var cs := RoomCandidates(db, at, run, root);
    forall value | Bounds(db, at, run, root, value)
      ensures cs != [] && Max(0, LeastCandidate(cs).value) <= value
    {
      var k := BoundIsCandidate(db, at, run, root, value);
      LeastCandidateIsMinimum(cs);
      BoundsAreNotNegative(db, at, run, root, value);
    }
    if cs != [] {
      LeastCandidateIsMinimum(cs);
      var i :| 0 <= i < |cs| && LeastCandidate(cs) == cs[i];
      CandidateBounds(db, at, run, root, i);
      BoundsAreNotNegative(db, at, run, root, cs[i].value);
    }
  }

  lemma BoundsAreNotNegative(db: Db, at: Moment, run: nat, root: nat, value: int)
    requires run < |db.runs| && root < |db.runs| && Bounds(db, at, run, root, value)
    ensures value >= 0
  {
  }

  // ---- runs of one tree, in line ------------------------------------------

  /** A live native child of `from`, at its load: nothing spent yet. */
  ghost predicate Child(db: Db, at: Moment, from: nat, i: nat) {
    i < |db.runs| &&
    var r := db.runs[i];
    r.parent == Some(from) && r.coding.None? && r.cost == 0 && IsHoldLive(r, at) && r.agent < |db.agents|
  }

  ghost function GrantOf(db: Db, at: Moment, from: nat, root: nat, i: nat): int
    requires i < |db.runs| && root < |db.runs|
  {
    EffectiveFor(db, db.runs[i].agent, at, Some(Place(from, root)), Some(RunOrder(i, db.runs[i].startedAt))).budget
  }

  ghost function GrantTotal(db: Db, at: Moment, from: nat, root: nat, asks: seq<nat>): int
    requires root < |db.runs| && forall a :: 0 <= a < |asks| ==> asks[a] < |db.runs|
  {
    if asks == [] then 0
    else GrantTotal(db, at, from, root, asks[..|asks| - 1]) + GrantOf(db, at, from, root, asks[|asks| - 1])
  }

  /** A child is not above its parent: the chain ends in the root. */
  lemma ChildOffChain(runs: seq<Run>, root: nat, from: nat, i: nat)
    requires IsRoot(runs, root) && InTree(runs, root, from) && i < |runs| && runs[i].parent == Some(from)
    ensures InTree(runs, root, i) && forall n: nat :: Up(runs, from, n) != Some(i)
  {
    ChildInTree(runs, root, i);
    var last: nat :| Up(runs, from, last) == Some(root);
    forall n: nat ensures Up(runs, from, n) != Some(i) {
      if Up(runs, from, n) == Some(i) {
        UpCompose(runs, from, n, 1 + last);
        assert Up(runs, i, 1 + last) == Up(runs, from, last);
        RootUnique(runs, from, last, n + 1 + last, root, root);
      }
    }
  }

  /** A child before i in line holds its whole budget in i's query. */
  lemma EarlierChildHolds(db: Db, at: Moment, from: nat, root: nat, j: nat, i: nat)
    requires IsRoot(db.runs, root) && InTree(db.runs, root, from) && Child(db, at, from, j) && i < |db.runs|
    requires IsOrderedBefore(FirstCome.OrderOf(db, j), FirstCome.OrderOf(db, i))
    ensures TreeHeldAt(db, at, root, from, Some(RunOrder(i, db.runs[i].startedAt)), j) == db.agents[db.runs[j].agent].budget
  {
    ChildOffChain(db.runs, root, from, j);
  }

  ghost function HeldColumn(db: Db, at: Moment, root: nat, from: nat, i: nat): seq<int>
    requires i < |db.runs|
  {
    seq(|db.runs|, r requires 0 <= r => TreeHeldAt(db, at, root, from, Some(RunOrder(i, db.runs[i].startedAt)), r))
  }

  lemma {:induction false} GrantsBelowHolds(db: Db, at: Moment, from: nat, root: nat, asks: seq<nat>, i: nat)
    requires IsRoot(db.runs, root) && InTree(db.runs, root, from) && i < |db.runs|
    requires forall a :: 0 <= a < |asks| ==> asks[a] < |db.runs|
    requires forall a :: 0 <= a < |asks| ==>
               Child(db, at, from, asks[a]) && IsOrderedBefore(FirstCome.OrderOf(db, asks[a]), FirstCome.OrderOf(db, i))
    ensures GrantTotal(db, at, from, root, asks) <= FirstCome.TotalAt(HeldColumn(db, at, root, from, i), asks)
    decreases |asks|
  {
    if asks != [] {
      var j := asks[|asks| - 1];
      GrantsBelowHolds(db, at, from, root, asks[..|asks| - 1], i);
      EarlierChildHolds(db, at, from, root, j, i);
      SubAgentIsTightest(db, at, db.runs[j].agent, from, root, Some(RunOrder(j, db.runs[j].startedAt)));
    }
  }

  /** A positive grant leaves room for all grants before it. */
  lemma {:induction false} LastChildFits(db: Db, at: Moment, from: nat, root: nat, asks: seq<nat>, i: nat)
    requires IsRoot(db.runs, root) && InTree(db.runs, root, from) && FirstCome.InLine(db, asks)
    requires Child(db, at, from, i) && GrantOf(db, at, from, root, i) > 0
    requires forall a :: 0 <= a < |asks| ==>
               Child(db, at, from, asks[a]) && IsOrderedBefore(FirstCome.OrderOf(db, asks[a]), FirstCome.OrderOf(db, i))
    ensures GrantTotal(db, at, from, root, asks) + GrantOf(db, at, from, root, i) <=
            TreeCap(db, at, root, false) - TreeCost(db.runs, root)
  {
    SubAgentIsTightest(db, at, db.runs[i].agent, from, root, Some(RunOrder(i, db.runs[i].startedAt)));
    GrantsBelowHolds(db, at, from, root, asks, i);
    assert NoDuplicates(asks);
    FirstCome.DistinctRowsBelow(HeldColumn(db, at, root, from, i), asks);
  }

  /**
   * First come, first served inside a tree: any number of native children that
   * ask in any order against the same table are granted together at most what
   * the tree's ceiling leaves after the tree's cost.
   */
  lemma {:induction false} ChildrenFitTogether(db: Db, at: Moment, from: nat, root: nat, asks: seq<nat>)
    requires IsRoot(db.runs, root) && InTree(db.runs, root, from) && FirstCome.InLine(db, asks)
    requires forall a :: 0 <= a < |asks| ==> Child(db, at, from, asks[a])
    ensures GrantTotal(db, at, from, root, asks) <= Max(0, TreeCap(db, at, root, false) - TreeCost(db.runs, root))
    decreases |asks|
  {
    if asks != [] {
      var n := |asks| - 1;
      var i := asks[n];
      ChildrenFitTogether(db, at, from, root, asks[..n]);
      if GrantOf(db, at, from, root, i) > 0 {
        LastChildFits(db, at, from, root, asks[..n], i);
      }
    }
  }
}
