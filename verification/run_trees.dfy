/** Walks over the parentRunId table: each one refines the plain definition of a tree in BudgetGroups. */
module RunTrees {
  import opened Common
  import opened BudgetGroups

  // ---- the plain definitions agree ----------------------------------------

  lemma {:induction false} UpCompose(runs: seq<Run>, x: nat, m: nat, n: nat)
    requires Up(runs, x, m).Some?
    ensures Up(runs, x, m + n) == Up(runs, Up(runs, x, m).value, n)
    decreases m
  {
    if m > 0 {
      UpCompose(runs, runs[x].parent.value, m - 1, n);
    }
  }

  /** A parent chain ends in at most one root, at one distance. */
  lemma RootUnique(runs: seq<Run>, x: nat, m: nat, n: nat, r: nat, q: nat)
    requires Up(runs, x, m) == Some(r) && IsRoot(runs, r)
    requires Up(runs, x, n) == Some(q) && IsRoot(runs, q)
    ensures r == q && m == n
  {
    if m <= n {
      UpCompose(runs, x, m, n - m);
    } else {
      UpCompose(runs, x, n, m - n);
    }
  }

  lemma TreesDisjoint(runs: seq<Run>, x: nat, r: nat, q: nat)
    requires InTree(runs, r, x) && IsRoot(runs, r)
    requires InTree(runs, q, x) && IsRoot(runs, q)
    ensures r == q
  {
    var m: nat :| Up(runs, x, m) == Some(r);
    var n: nat :| Up(runs, x, n) == Some(q);
    RootUnique(runs, x, m, n, r, q);
  }

  /** The parentless row r is reached from x in at most that many edges. */
  ghost predicate RootInReach(runs: seq<Run>, x: nat, edges: nat, r: nat) {
    IsRoot(runs, r) && exists n: nat :: n <= edges && Up(runs, x, n) == Some(r)
  }

  lemma {:induction false} RootWithinReaches(runs: seq<Run>, x: nat, edges: nat) returns (n: nat)
    requires RootWithin(runs, x, edges).Some?
    ensures IsRoot(runs, RootWithin(runs, x, edges).value)
    ensures n <= edges && Up(runs, x, n) == RootWithin(runs, x, edges)
    decreases edges
  {
    if runs[x].parent.Some? {
      var m := RootWithinReaches(runs, runs[x].parent.value, edges - 1);
      n := m + 1;
    } else {
      n := 0;
    }
  }

  lemma {:induction false} ReachedRootIsFound(runs: seq<Run>, x: nat, edges: nat, n: nat, r: nat)
    requires IsRoot(runs, r) && n <= edges && Up(runs, x, n) == Some(r)
    ensures RootWithin(runs, x, edges) == Some(r)
    decreases n
  {
    if n > 0 {
      ReachedRootIsFound(runs, runs[x].parent.value, edges - 1, n - 1, r);
    }
  }

  /** A run resolves to r exactly when its chain reaches the parentless row r within MAX_TREE_DEPTH edges. */
  lemma RootOfIff(runs: seq<Run>, x: nat, r: nat)
    ensures RootOf(runs, x) == Some(r) <==> RootInReach(runs, x, MAX_TREE_DEPTH, r)
  {
    if RootOf(runs, x) == Some(r) {
      var n := RootWithinReaches(runs, x, MAX_TREE_DEPTH);
    } else if RootInReach(runs, x, MAX_TREE_DEPTH, r) {
      var n: nat :| n <= MAX_TREE_DEPTH && Up(runs, x, n) == Some(r);
      ReachedRootIsFound(runs, x, MAX_TREE_DEPTH, n, r);
    }
  }

  lemma RootOfIsRoot(runs: seq<Run>, x: nat)
    requires RootOf(runs, x).Some?
    ensures IsRoot(runs, RootOf(runs, x).value) && InTree(runs, RootOf(runs, x).value, x)
  {
    var n := RootWithinReaches(runs, x, MAX_TREE_DEPTH);
  }

  /** Tree shape depends on the parent column only. */
  ghost predicate SameParents(runs: seq<Run>, runs': seq<Run>) {
    |runs| == |runs'| && forall i :: 0 <= i < |runs| ==> runs[i].parent == runs'[i].parent
  }

  lemma {:induction false} SameUp(runs: seq<Run>, runs': seq<Run>, x: nat, n: nat)
    requires SameParents(runs, runs')
    ensures Up(runs, x, n) == Up(runs', x, n)
    decreases n
  {
    if n > 0 && x < |runs| && runs[x].parent.Some? {
      SameUp(runs, runs', runs[x].parent.value, n - 1);
    }
  }

  lemma {:induction false} SameRootWithin(runs: seq<Run>, runs': seq<Run>, x: nat, edges: nat)
    requires SameParents(runs, runs')
    ensures RootWithin(runs, x, edges) == RootWithin(runs', x, edges)
    decreases edges
  {
    if x < |runs| && runs[x].parent.Some? && edges > 0 {
      SameRootWithin(runs, runs', runs[x].parent.value, edges - 1);
    }
  }

  lemma SameTrees(runs: seq<Run>, runs': seq<Run>)
    requires SameParents(runs, runs')
    ensures forall x: nat :: RootOf(runs, x) == RootOf(runs', x)
    ensures forall r: nat, x: nat :: InTree(runs, r, x) <==> InTree(runs', r, x)
  {
    forall x: nat ensures RootOf(runs, x) == RootOf(runs', x) {
      SameRootWithin(runs, runs', x, MAX_TREE_DEPTH);
    }
    forall r: nat, x: nat ensures InTree(runs, r, x) <==> InTree(runs', r, x) {
      if n: nat :| Up(runs, x, n) == Some(r) {
        SameUp(runs, runs', x, n);
      }
      if n: nat :| Up(runs', x, n) == Some(r) {
        SameUp(runs, runs', x, n);
      }
    }
  }

  // ---- resolveRootRunIds --------------------------------------------------

  /** Everything known so far about the fetched rows is true of the table. */
  ghost predicate KnownParents(runs: seq<Run>, parentOf: map<nat, Option<nat>>, missing: set<nat>) {
    (forall id :: id in parentOf ==> id < |runs| && parentOf[id] == runs[id].parent) &&
    (forall id :: id in missing ==> id >= |runs|)
  }

  /** Every row within `level` edges above an asked run has been looked up. */
  ghost predicate LookedUp(runs: seq<Run>, asked: seq<nat>, level: nat, parentOf: map<nat, Option<nat>>) {
    forall a, n: nat {:trigger a in asked, Up(runs, a, n)} ::
      a in asked && n <= level && Up(runs, a, n).Some? && Up(runs, a, n).value < |runs| ==>
        Up(runs, a, n).value in parentOf
  }

  lemma UpStep(runs: seq<Run>, x: nat, n: nat)
    requires Up(runs, x, n + 1).Some?
    ensures Up(runs, x, n).Some? && Up(runs, x, n).value < |runs|
    ensures runs[Up(runs, x, n).value].parent == Up(runs, x, n + 1)
    decreases n
  {
    if n > 0 {
      UpStep(runs, runs[x].parent.value, n - 1);
    }
  }

  /** One batched fetch per level: each level's parents become known or missing. */
  method FetchAncestors(runs: seq<Run>, asked: seq<nat>) returns (parentOf: map<nat, Option<nat>>)
    requires forall a :: a in asked ==> a < |runs|
    ensures KnownParents(runs, parentOf, {})
    ensures LookedUp(runs, asked, MAX_TREE_DEPTH, parentOf)
  {
    parentOf := map a | a in asked :: runs[a].parent;
    var missing: set<nat> := {};
    var level := 0;
    assert LookedUp(runs, asked, 0, parentOf);
    while level < MAX_TREE_DEPTH
      invariant 0 <= level <= MAX_TREE_DEPTH
      invariant KnownParents(runs, parentOf, missing)
      invariant LookedUp(runs, asked, level, parentOf)
    {
      var unresolved := set id | id in parentOf && parentOf[id].Some? && parentOf[id].value !in parentOf &&
                                 parentOf[id].value !in missing :: parentOf[id].value;
      if unresolved == {} {
        forall id | id in parentOf && parentOf[id].Some?
          ensures parentOf[id].value in parentOf || parentOf[id].value in missing
        {
          assert parentOf[id].value !in unresolved;
        }
        AllLevels(runs, asked, level, parentOf, missing);
        break;
      }
      var before := parentOf;
      parentOf := parentOf + map p | p in unresolved && p < |runs| :: runs[p].parent;
      missing := missing + set id | id in unresolved && id !in parentOf;
      NextLevel(runs, asked, level, before, parentOf, missing);
      level := level + 1;
    }
  }

  /** Every parent named by a known row is known or missing. */
  ghost predicate Closed(parentOf: map<nat, Option<nat>>, missing: set<nat>) {
    forall id :: id in parentOf && parentOf[id].Some? ==>
      parentOf[id].value in parentOf || parentOf[id].value in missing
  }

  lemma NextLevel(runs: seq<Run>, asked: seq<nat>, level: nat, before: map<nat, Option<nat>>,
                  parentOf: map<nat, Option<nat>>, missing: set<nat>)
    requires KnownParents(runs, before, {}) && KnownParents(runs, parentOf, missing)
    requires LookedUp(runs, asked, level, before)
    requires forall id :: id in before ==> id in parentOf
    requires forall id :: id in before && before[id].Some? ==>
               before[id].value in parentOf || before[id].value in missing
    ensures LookedUp(runs, asked, level + 1, parentOf)
  {
    forall a, n: nat | a in asked && n <= level + 1 && Up(runs, a, n).Some? && Up(runs, a, n).value < |runs|
      ensures Up(runs, a, n).value in parentOf
    {
      if n == level + 1 {
        UpStep(runs, a, level);
      }
    }
  }

  lemma {:induction false} AllLevels(runs: seq<Run>, asked: seq<nat>, level: nat, parentOf: map<nat, Option<nat>>,
                                     missing: set<nat>)
    requires KnownParents(runs, parentOf, missing) && Closed(parentOf, missing)
    requires LookedUp(runs, asked, level, parentOf)
    requires level <= MAX_TREE_DEPTH
    ensures LookedUp(runs, asked, MAX_TREE_DEPTH, parentOf)
    decreases MAX_TREE_DEPTH - level
  {
    if level < MAX_TREE_DEPTH {
      NextLevel(runs, asked, level, parentOf, parentOf, missing);
      AllLevels(runs, asked, level + 1, parentOf, missing);
    }
  }

  /** Walks one run up the fetched rows, at most MAX_TREE_DEPTH edges. */
  method WalkUp(runs: seq<Run>, asked: seq<nat>, parentOf: map<nat, Option<nat>>, x: nat) returns (root: Option<nat>)
    requires x in asked && x < |runs|
    requires KnownParents(runs, parentOf, {})
    requires LookedUp(runs, asked, MAX_TREE_DEPTH, parentOf)
    ensures root == RootOf(runs, x)
  {
    var id := x;
    assert Up(runs, x, 0) == Some(x);
    var parentId: Option<Option<nat>> := if id in parentOf then Some(parentOf[id]) else None;
    var depth := 0;
    while parentId.Some? && parentId.value.Some? && depth < MAX_TREE_DEPTH
      invariant 0 <= depth <= MAX_TREE_DEPTH
      invariant Up(runs, x, depth) == Some(id)
      invariant RootOf(runs, x) == RootWithin(runs, id, MAX_TREE_DEPTH - depth)
      invariant parentId == if id in parentOf then Some(parentOf[id]) else None
    {
      UpCompose(runs, x, depth, 1);
      assert Up(runs, id, 1) == parentId.value;
      id := parentId.value.value;
      parentId := if id in parentOf then Some(parentOf[id]) else None;
      depth := depth + 1;
    }
    root := if parentId.Some? && parentId.value.None? then Some(id) else None;
  }

  /** resolveRootRunIds: a run is mapped to its root when the root is within MAX_TREE_DEPTH edges, else left out. */
  method ResolveRootRunIds(runs: seq<Run>, asked: seq<nat>) returns (rootOf: map<nat, nat>)
    requires forall a :: a in asked ==> a < |runs|
    ensures forall x :: x in rootOf <==> x in asked && RootOf(runs, x).Some?
    ensures forall x :: x in rootOf ==> Some(rootOf[x]) == RootOf(runs, x)
  {
    var parentOf := FetchAncestors(runs, asked);
    rootOf := map[];
    for k := 0 to |asked|
      invariant forall x :: x in rootOf <==> x in asked[..k] && RootOf(runs, x).Some?
      invariant forall x :: x in rootOf ==> Some(rootOf[x]) == RootOf(runs, x)
    {
      var root := WalkUp(runs, asked, parentOf, asked[k]);
      if root.Some? {
        rootOf := rootOf[asked[k] := root.value];
      }
      assert asked[..k + 1] == asked[..k] + [asked[k]];
    }
    assert asked[..|asked|] == asked;
  }

  // ---- collectTreeRunIds --------------------------------------------------

  /** The ids below n of the rows whose parent is in the frontier, in table order: one query. */
  function ChildrenBelow(runs: seq<Run>, frontier: seq<nat>, n: nat): (ids: seq<nat>)
    requires n <= |runs|
    ensures NoDuplicates(ids)
    ensures forall i :: i in ids <==> 0 <= i < n && runs[i].parent.Some? && runs[i].parent.value in frontier
  {
    if n == 0 then []
    else
      var rest := ChildrenBelow(runs, frontier, n - 1);
      if runs[n - 1].parent.Some? && runs[n - 1].parent.value in frontier then rest + [n - 1] else rest
  }

  /** The walk so far: each collected run but the root has its collected parent behind the frontier. */
  ghost predicate Collected(runs: seq<Run>, root: nat, all: seq<nat>, frontier: seq<nat>) {
    root in all && NoDuplicates(all) &&
    (forall x :: x in frontier ==> x in all) &&
    (forall x :: x in all ==> InTree(runs, root, x)) &&
    (forall x :: x in all && x != root ==>
      runs[x].parent.Some? && runs[x].parent.value in all && runs[x].parent.value !in frontier) &&
    (forall x :: 0 <= x < |runs| && runs[x].parent.Some? ==>
      runs[x].parent.value in all && runs[x].parent.value !in frontier ==> x in all)
  }

  lemma ChildInTree(runs: seq<Run>, root: nat, x: nat)
    requires x < |runs| && runs[x].parent.Some? && InTree(runs, root, runs[x].parent.value)
    ensures InTree(runs, root, x)
  {
    var n: nat :| Up(runs, runs[x].parent.value, n) == Some(root);
    assert Up(runs, x, n + 1) == Some(root);
  }

  lemma {:induction false} EveryDescendantCollected(runs: seq<Run>, root: nat, all: seq<nat>, x: nat, n: nat)
    requires Collected(runs, root, all, [])
    requires x < |runs| && Up(runs, x, n) == Some(root)
    ensures x in all
    decreases n
  {
    if n > 0 {
      var p := runs[x].parent.value;
      assert p < |runs| by {
        if n == 1 {
          assert p == root;
        }
      }
      EveryDescendantCollected(runs, root, all, p, n - 1);
    }
  }

  /** One level down: the frontier's children join, each for the first time. */
  lemma CollectLevel(runs: seq<Run>, root: nat, all: seq<nat>, frontier: seq<nat>, childIds: seq<nat>)
    requires IsRoot(runs, root) && Collected(runs, root, all, frontier)
    requires childIds == ChildrenBelow(runs, frontier, |runs|)
    ensures Collected(runs, root, all + childIds, childIds)
  {
    forall c | c in childIds ensures c !in all && InTree(runs, root, c) {
      ChildInTree(runs, root, c);
    }
    forall i, j | 0 <= i < j < |all + childIds| ensures (all + childIds)[i] != (all + childIds)[j] {
      if i < |all| <= j {
        assert childIds[j - |all|] in childIds && all[i] in all;
      }
    }
  }

  /** collectTreeRunIds: from a parentless run, every run of its tree exactly once, whatever else the table holds. */
  method CollectTreeRunIds(runs: seq<Run>, root: nat) returns (all: seq<nat>)
    requires IsRoot(runs, root)
    ensures NoDuplicates(all)
    ensures forall x :: x in all <==> InTree(runs, root, x)
  {
    all := [root];
    var frontier := [root];
    assert Up(runs, root, 0) == Some(root);
    while |frontier| > 0
      invariant Collected(runs, root, all, frontier)
      invariant |all| <= |runs|
      decreases |runs| - |all|, |frontier|
    {
      var childIds := ChildrenBelow(runs, frontier, |runs|);
      CollectLevel(runs, root, all, frontier, childIds);
      all := all + childIds;
      forall i | 0 <= i < |all| ensures all[i] < |runs| {
        assert all[i] in all;
      }
      NoDuplicatesBound(all, |runs|);
      frontier := childIds;
    }
    forall x | InTree(runs, root, x) ensures x in all {
      var n: nat :| Up(runs, x, n) == Some(root);
      assert frontier == [];
      EveryDescendantCollected(runs, root, all, x, n);
    }
  }

  // ---- findRootRun --------------------------------------------------------

  /** The parent chain ends, at a root or at a missing row: without this the walk up never stops. */
  ghost predicate ChainEnds(runs: seq<Run>, x: nat) {
    exists n: nat :: Up(runs, x, n) == None
  }

  /** findRootRun: the root of the run's tree at any depth; None when a row on the way is missing (it throws). */
  method FindRootRun(runs: seq<Run>, x: nat) returns (root: Option<nat>)
    requires ChainEnds(runs, x)
    ensures root.Some? ==> IsRoot(runs, root.value) && InTree(runs, root.value, x)
    ensures root.None? ==> forall r: nat :: IsRoot(runs, r) ==> !InTree(runs, r, x)
  {
    var current := x;
    ghost var last: nat :| Up(runs, x, last) == None;
    ghost var n: nat := 0;
    while current < |runs| && runs[current].parent.Some?
      invariant n < last && Up(runs, x, n) == Some(current)
      decreases last - n
    {
      UpCompose(runs, x, n, 1);
      assert Up(runs, current, 1) == runs[current].parent;
      current := runs[current].parent.value;
      n := n + 1;
      if n >= last {
        UpStops(runs, x, last, n);
      }
    }
    if current >= |runs| {
      forall r: nat | IsRoot(runs, r) ensures !InTree(runs, r, x) {
        if m: nat :| Up(runs, x, m) == Some(r) {
          if m <= n {
            UpCompose(runs, x, m, n - m);
          } else {
            UpCompose(runs, x, n, m - n);
          }
        }
      }
      root := None;
    } else {
      if n > 0 {
        UpStep(runs, x, n - 1);
      }
      root := Some(current);
    }
  }

  lemma {:induction false} UpStops(runs: seq<Run>, x: nat, m: nat, n: nat)
    requires Up(runs, x, m) == None && m <= n
    ensures Up(runs, x, n) == None
    decreases m
  {
    if x < |runs| && runs[x].parent.Some? {
      UpStops(runs, runs[x].parent.value, m - 1, n - 1);
    }
  }
}
