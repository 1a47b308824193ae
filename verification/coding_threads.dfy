/**
 * Continuation threads: which run a coding run continues, on which branch, and
 * at which merge step (checkContinuation, resolveCodingBranch,
 * effectiveMergeOrder and dispatchRun in src/core/dispatch.ts).
 */
module CodingThreads {
  import opened Common

  type Name = string

  /** A branch named after a run: wardby/run-<id>. */
  datatype HeadRef = RunBranch(run: nat)

  datatype Outcome = PullRequestOpened | PullRequestUpdated | OtherOutcome

  datatype RunResult = RunResult(outcome: Outcome, pullRequest: Option<nat>)

  /**
   * A coding run's row. A run's id is its index: rows appear in the order of
   * (startedAt, runId). `given` is what the dispatch itself asked for.
   */
  datatype Row = Row(root: Option<nat>, repository: Name, baseRef: Name, headRef: HeadRef, mergeOrder: Option<int>,
                     given: Option<int>, owner: Option<nat>, result: Option<RunResult>)

  datatype Refusal = UnknownRun | OtherRepository | NoPullRequest | OtherOwner | BothBranches | InvalidMergeOrder

  /** A merge order as a caller may write it. */
  datatype Order = Whole(value: int) | NotWhole

  datatype Options = Options(repository: Name, profileBase: Name, owner: Option<nat>, continues: Option<nat>,
                             baseRef: Option<Name>, mergeOrder: Option<Order>)

  datatype Check = Continues(root: nat) | Refused(reason: Refusal)

  predicate HasPullRequest(row: Row) {
    row.result.Some? && !row.result.value.outcome.OtherOutcome? && row.result.value.pullRequest.Some?
  }

  /** Whether this run can be continued in this repository by an agent of this owner, and from which root. */
  function CheckContinuation(rows: seq<Row>, id: nat, repository: Name, owner: Option<nat>, normalize: Name -> Name): Check {
    if id >= |rows| then Refused(UnknownRun)
    else
      var root := if rows[id].root.Some? then rows[id].root.value else id;
      if root >= |rows| then Refused(UnknownRun)
      else if normalize(rows[root].repository) != normalize(repository) then Refused(OtherRepository)
      else if !HasPullRequest(rows[root]) then Refused(NoPullRequest)
      else if owner.None? || rows[root].owner.None? || owner != rows[root].owner then Refused(OtherOwner)
      else Continues(root)
  }

  // ---- merge order --------------------------------------------------------

  /** Row k is the root or one of its continuations. */
  predicate InThread(rows: seq<Row>, root: nat, k: nat) {
    k < |rows| && (k == root || rows[k].root == Some(root))
  }

  /** The newest merge order stored among the first n rows of the thread. */
  function NewestOrder(rows: seq<Row>, root: nat, n: nat): Option<int>
    requires n <= |rows|
  {
    if n == 0 then None
    else if InThread(rows, root, n - 1) && rows[n - 1].mergeOrder.Some? then rows[n - 1].mergeOrder
    else NewestOrder(rows, root, n - 1)
  }

  /** The last merge order a dispatch asked for among the first n rows of the thread. */
  function LastGiven(rows: seq<Row>, root: nat, n: nat): Option<int>
    requires n <= |rows|
  {
    if n == 0 then None
    else if InThread(rows, root, n - 1) && rows[n - 1].given.Some? then rows[n - 1].given
    else LastGiven(rows, root, n - 1)
  }

  predicate IsValidOrder(order: Order) {
    order.Whole? && 1 <= order.value <= 99
  }

  // ---- dispatch -----------------------------------------------------------

  datatype Branch = Branch(baseRef: Name, root: Option<nat>, headRef: Option<HeadRef>, inherited: Option<int>)

  datatype Resolved = Found(branch: Branch) | Not(reason: Refusal)

  function ResolveBranch(rows: seq<Row>, options: Options, normalize: Name -> Name): Resolved {
    if options.continues.None? then
      Found(Branch(if options.baseRef.Some? then options.baseRef.value else options.profileBase, None, None, None))
    else if options.baseRef.Some? then Not(BothBranches)
    else
      var check := CheckContinuation(rows, options.continues.value, options.repository, options.owner, normalize);
      if check.Refused? then Not(check.reason)
      else
        var root := check.root;
        Found(Branch(rows[root].baseRef, Some(root), Some(rows[root].headRef), NewestOrder(rows, root, |rows|)))
  }

  /** The input schema's rule: the branch is the run's own, or its root's. */
  predicate SchemaAccepts(headRef: HeadRef, id: nat, root: Option<nat>) {
    headRef == RunBranch(if root.Some? then root.value else id)
  }

  function NewRow(id: nat, options: Options, branch: Branch, normalize: Name -> Name): Row {
    var given := if options.mergeOrder.Some? && IsValidOrder(options.mergeOrder.value)
                 then Some(options.mergeOrder.value.value) else None;
    Row(branch.root, normalize(options.repository), branch.baseRef,
        if branch.headRef.Some? then branch.headRef.value else RunBranch(id),
        if options.mergeOrder.None? then branch.inherited else given, given, options.owner, None)
  }

  /** The transaction's end: the row is created on this branch, unless the merge order or the schema refuses. */
  function Create(rows: seq<Row>, options: Options, branch: Branch, normalize: Name -> Name): seq<Row> {
    var row := NewRow(|rows|, options, branch, normalize);
    if options.mergeOrder.Some? && !IsValidOrder(options.mergeOrder.value) then rows
    else if !SchemaAccepts(row.headRef, |rows|, branch.root) then rows
    else rows + [row]
  }

  // ---- the machine --------------------------------------------------------

  /** A branch read before the transaction that will use it. */
  datatype Read = Read(options: Options, branch: Branch, at: nat)

  datatype State = State(rows: seq<Row>, ahead: seq<Read>)

  /**
   * A dispatch resolves its branch inside its transaction, or, when it reads the
   * repository's service declaration, ahead of it; and runs settle meanwhile.
   */
  datatype Step = Dispatch(options: Options) | ReadAhead(options: Options) | Commit(index: nat) | Settle(run: nat, result: RunResult)

  function Next(s: State, step: Step, normalize: Name -> Name): State {
    match step
    case Dispatch(options) =>
      var resolved := ResolveBranch(s.rows, options, normalize);
      if resolved.Not? then s else s.(rows := Create(s.rows, options, resolved.branch, normalize))
    case ReadAhead(options) =>
      var resolved := ResolveBranch(s.rows, options, normalize);
      if resolved.Not? then s else s.(ahead := s.ahead + [Read(options, resolved.branch, |s.rows|)])
    case Commit(k) =>
      if k >= |s.ahead| then s
      else s.(rows := Create(s.rows, s.ahead[k].options, s.ahead[k].branch, normalize))
    case Settle(k, result) =>
      if k >= |s.rows| then s else s.(rows := s.rows[k := s.rows[k].(result := Some(result))])
  }

  function Run(steps: seq<Step>, normalize: Name -> Name): State {
    if steps == [] then State([], []) else Next(Run(steps[..|steps| - 1], normalize), steps[|steps| - 1], normalize)
  }
}

/** Threads stay flat on their root's branch, and keep the last merge order asked for. */
module ThreadLaws {
  import opened Common
  import opened CodingThreads

  // ---- shape --------------------------------------------------------------

  /** Row k is a root on its own branch, or continues a root of the same owner, in its repository, on its branch and base. */
  ghost predicate IsPlaced(rows: seq<Row>, k: nat, normalize: Name -> Name)
    requires k < |rows|
  {
    var row := rows[k];
    if row.root.None? then row.headRef == RunBranch(k)
    else
      IsRootOf(rows, row.root.value, row.repository, row.headRef, normalize) && row.root.value < k &&
      IsSharedWith(rows, row.root.value, row.owner, row.baseRef)
  }

  /** The root has this owner, who is somebody, and this base. */
  ghost predicate IsSharedWith(rows: seq<Row>, root: nat, owner: Option<nat>, baseRef: Name) {
    root < |rows| && owner.Some? && rows[root].owner == owner && rows[root].baseRef == baseRef
  }

  /** This root has no root of its own, and a row in this repository and on this branch continues it. */
  ghost predicate IsRootOf(rows: seq<Row>, root: nat, repository: Name, headRef: HeadRef, normalize: Name -> Name) {
    root < |rows| && rows[root].root.None? && headRef == rows[root].headRef == RunBranch(root) &&
    repository == normalize(rows[root].repository)
  }

  ghost predicate Flat(rows: seq<Row>, normalize: Name -> Name) {
    forall k :: 0 <= k < |rows| ==> IsPlaced(rows, k, normalize)
  }

  /** What a read ahead found stays true of its root. */
  ghost predicate ReadHolds(rows: seq<Row>, read: Read, normalize: Name -> Name) {
    (read.branch.root.None? <==> read.branch.headRef.None?) && read.at <= |rows| &&
    (read.branch.root.None? ==> read.branch.inherited == None) &&
    (read.branch.root.Some? ==>
       read.branch.root.value < read.at &&
       read.branch.inherited == NewestOrder(rows, read.branch.root.value, read.at) &&
       IsRootOf(rows, read.branch.root.value, normalize(read.options.repository), read.branch.headRef.value, normalize) &&
       IsSharedWith(rows, read.branch.root.value, read.options.owner, read.branch.baseRef))
  }

  ghost predicate ReadsHold(s: State, normalize: Name -> Name) {
    forall k :: 0 <= k < |s.ahead| ==> ReadHolds(s.rows, s.ahead[k], normalize)
  }

  lemma {:induction false} ResolvedHolds(rows: seq<Row>, options: Options, normalize: Name -> Name)
    requires Flat(rows, normalize) && ResolveBranch(rows, options, normalize).Found?
    ensures ReadHolds(rows, Read(options, ResolveBranch(rows, options, normalize).branch, |rows|), normalize)
  {
    if options.continues.Some? && options.continues.value < |rows| {
      assert IsPlaced(rows, options.continues.value, normalize);
      var row := rows[options.continues.value];
      if row.root.Some? && row.root.value < |rows| {
        assert IsPlaced(rows, row.root.value, normalize);
      }
    }
  }

  /** Whatever the branch was read from, the schema accepts the new row and the table stays flat. */
  lemma {:induction false} CreateKeepsFlat(rows: seq<Row>, read: Read, normalize: Name -> Name)
    requires Flat(rows, normalize) && ReadHolds(rows, read, normalize)
    ensures Flat(Create(rows, read.options, read.branch, normalize), normalize)
    ensures var order := read.options.mergeOrder;
            Create(rows, read.options, read.branch, normalize) ==
            if order.Some? && !IsValidOrder(order.value) then rows
            else rows + [NewRow(|rows|, read.options, read.branch, normalize)]
  {
    var rows' := Create(rows, read.options, read.branch, normalize);
    forall k | 0 <= k < |rows'| ensures IsPlaced(rows', k, normalize) {
      if k < |rows| {
        assert rows'[k] == rows[k] && IsPlaced(rows, k, normalize);
      }
    }
  }

  lemma {:induction false} StepKeepsShape(s: State, step: Step, normalize: Name -> Name)
    requires Flat(s.rows, normalize) && ReadsHold(s, normalize)
    ensures Flat(Next(s, step, normalize).rows, normalize) && ReadsHold(Next(s, step, normalize), normalize)
  {
    var s' := Next(s, step, normalize);
    match step
    case Dispatch(options) =>
      var resolved := ResolveBranch(s.rows, options, normalize);
      if resolved.Found? {
        ResolvedHolds(s.rows, options, normalize);
        CreateKeepsFlat(s.rows, Read(options, resolved.branch, |s.rows|), normalize);
      }
      ReadsStillHold(s, s', normalize);
    case ReadAhead(options) =>
      if ResolveBranch(s.rows, options, normalize).Found? {
        ResolvedHolds(s.rows, options, normalize);
      }
    case Commit(k) =>
      if k < |s.ahead| {
        CreateKeepsFlat(s.rows, s.ahead[k], normalize);
      }
      ReadsStillHold(s, s', normalize);
    case Settle(k, result) =>
      forall j | 0 <= j < |s'.rows| ensures IsPlaced(s'.rows, j, normalize) {
        assert IsPlaced(s.rows, j, normalize);
      }
      ReadsStillHold(s, s', normalize);
  }

  lemma {:induction false} ReadsStillHold(s: State, s': State, normalize: Name -> Name)
    requires ReadsHold(s, normalize) && s'.ahead == s.ahead && |s.rows| <= |s'.rows|
    requires forall k :: 0 <= k < |s.rows| ==>
               s'.rows[k].root == s.rows[k].root && s'.rows[k].headRef == s.rows[k].headRef &&
               s'.rows[k].repository == s.rows[k].repository && s'.rows[k].given == s.rows[k].given &&
               s'.rows[k].mergeOrder == s.rows[k].mergeOrder && s'.rows[k].owner == s.rows[k].owner &&
               s'.rows[k].baseRef == s.rows[k].baseRef
    ensures ReadsHold(s', normalize)
  {
    forall k | 0 <= k < |s'.ahead| ensures ReadHolds(s'.rows, s'.ahead[k], normalize) {
      var read := s.ahead[k];
      assert ReadHolds(s.rows, read, normalize);
      if read.branch.root.Some? {
        SameOrders(s.rows, s'.rows, read.branch.root.value, read.at);
      }
    }
  }

  /**
   * After any dispatches, settlements and reads ahead, every row's root is a
   * coding run with no root of its own in the repository the row names, and
   * every branch is wardby/run-<root or self>, so the input schema accepts it.
   */
  lemma {:induction false} ThreadsStayFlat(steps: seq<Step>, normalize: Name -> Name)
    ensures Flat(Run(steps, normalize).rows, normalize) && ReadsHold(Run(steps, normalize), normalize)
    decreases |steps|
  {
    if steps != [] {
      ThreadsStayFlat(steps[..|steps| - 1], normalize);
      StepKeepsShape(Run(steps[..|steps| - 1], normalize), steps[|steps| - 1], normalize);
    }
  }

  lemma {:induction false} SchemaAcceptsEveryRow(steps: seq<Step>, normalize: Name -> Name, k: nat)
    requires k < |Run(steps, normalize).rows|
    ensures var row := Run(steps, normalize).rows[k];
            SchemaAccepts(row.headRef, k, row.root)
  {
    ThreadsStayFlat(steps, normalize);
    assert IsPlaced(Run(steps, normalize).rows, k, normalize);
  }

  /** Every continuation is of somebody's run, by the same owner, and works on the same base. */
  lemma {:induction false} OneOwnerPerThread(steps: seq<Step>, normalize: Name -> Name, k: nat)
    requires k < |Run(steps, normalize).rows| && Run(steps, normalize).rows[k].root.Some?
    ensures var rows := Run(steps, normalize).rows;
            var root := rows[k].root.value;
            root < k && rows[k].owner.Some? && rows[k].owner == rows[root].owner && rows[k].baseRef == rows[root].baseRef
  {
    ThreadsStayFlat(steps, normalize);
    assert IsPlaced(Run(steps, normalize).rows, k, normalize);
  }

  // ---- what may be continued ----------------------------------------------

  /** A run has a pull request exactly when its result says that it opened or updated one, and names it. */
  lemma PullRequestIff(row: Row)
    ensures HasPullRequest(row) <==>
            exists number :: row.result == Some(RunResult(PullRequestOpened, Some(number))) ||
                             row.result == Some(RunResult(PullRequestUpdated, Some(number)))
  {
    if HasPullRequest(row) {
      var number := row.result.value.pullRequest.value;
      assert row.result == Some(RunResult(PullRequestOpened, Some(number))) ||
             row.result == Some(RunResult(PullRequestUpdated, Some(number)));
    }
  }

  /** At some time so far this run had a result with a pull request. */
  ghost predicate HadPullRequest(steps: seq<Step>, normalize: Name -> Name, root: nat)
    decreases |steps|
  {
    (root < |Run(steps, normalize).rows| && HasPullRequest(Run(steps, normalize).rows[root])) ||
    (steps != [] && HadPullRequest(steps[..|steps| - 1], normalize, root))
  }

  /** So had the root of every continuation, and of every branch read ahead. */
  ghost predicate RootsHadPullRequests(steps: seq<Step>, normalize: Name -> Name) {
    var s := Run(steps, normalize);
    (forall k :: 0 <= k < |s.rows| && s.rows[k].root.Some? ==> HadPullRequest(steps, normalize, s.rows[k].root.value)) &&
    (forall k :: 0 <= k < |s.ahead| && s.ahead[k].branch.root.Some? ==>
      HadPullRequest(steps, normalize, s.ahead[k].branch.root.value))
  }

  /** A row or read that a step adds continues what one did before it, or a run that has a pull request as it is taken. */
  lemma {:induction false} NewRootHasPullRequest(s: State, step: Step, normalize: Name -> Name)
    ensures var s' := Next(s, step, normalize);
            forall k :: 0 <= k < |s'.rows| && s'.rows[k].root.Some? ==>
              (k < |s.rows| && s'.rows[k].root == s.rows[k].root) ||
              (exists j :: 0 <= j < |s.ahead| && s'.rows[k].root == s.ahead[j].branch.root) ||
              (s'.rows[k].root.value < |s.rows| && HasPullRequest(s.rows[s'.rows[k].root.value]))
    ensures var s' := Next(s, step, normalize);
            forall k :: 0 <= k < |s'.ahead| && s'.ahead[k].branch.root.Some? ==>
              (k < |s.ahead| && s'.ahead[k] == s.ahead[k]) ||
              (s'.ahead[k].branch.root.value < |s.rows| && HasPullRequest(s.rows[s'.ahead[k].branch.root.value]))
  {
  }

  lemma {:induction false} LastStepHadPullRequests(steps: seq<Step>, normalize: Name -> Name)
    requires steps != [] && RootsHadPullRequests(steps[..|steps| - 1], normalize)
    ensures RootsHadPullRequests(steps, normalize)
  {
    var before := steps[..|steps| - 1];
    NewRootHasPullRequest(Run(before, normalize), steps[|steps| - 1], normalize);
  }

  /** No run is continued that never had a result with a pull request. */
  lemma {:induction false} OnlyPullRequestsAreContinued(steps: seq<Step>, normalize: Name -> Name)
    ensures RootsHadPullRequests(steps, normalize)
    decreases |steps|
  {
    if steps != [] {
      OnlyPullRequestsAreContinued(steps[..|steps| - 1], normalize);
      LastStepHadPullRequests(steps, normalize);
    }
  }

  /** Who may continue which run: of the run's thread, in its repository, with a pull request, by its owner. */
  ghost predicate MayContinue(rows: seq<Row>, id: nat, options: Options, normalize: Name -> Name) {
    exists root: nat :: root < |rows| && InThread(rows, root, id) && rows[root].root.None? &&
      normalize(rows[root].repository) == normalize(options.repository) && HasPullRequest(rows[root]) &&
      options.owner.Some? && rows[root].owner == options.owner
  }

  /**
   * What a dispatch stores, and when: a fresh run on its own branch and base, or
   * a continuation on its root's, which a caller may ask for exactly when they
   * may continue that run and name no base themselves; a merge order must be one
   * of 1 to 99.
   */
  lemma {:induction false} DispatchStoresIff(s: State, options: Options, normalize: Name -> Name)
    requires Flat(s.rows, normalize)
    ensures var rows' := Next(s, Dispatch(options), normalize).rows;
            var orderFits := match options.mergeOrder
                             case None => true
                             case Some(NotWhole) => false
                             case Some(Whole(value)) => 1 <= value <= 99;
            var mayStart := match options.continues
                            case None => true
                            case Some(id) => options.baseRef.None? && MayContinue(s.rows, id, options, normalize);
            (if orderFits && mayStart then |rows'| == |s.rows| + 1 && rows'[..|s.rows|] == s.rows else rows' == s.rows) &&
            (orderFits && mayStart && options.continues.None? ==>
              rows'[|s.rows|] == Row(None, normalize(options.repository),
                                     if options.baseRef.Some? then options.baseRef.value else options.profileBase,
                                     RunBranch(|s.rows|),
                                     if options.mergeOrder.Some? then Some(options.mergeOrder.value.value) else None,
                                     if options.mergeOrder.Some? then Some(options.mergeOrder.value.value) else None,
                                     options.owner, None))
  {
    if options.continues.Some? && options.continues.value < |s.rows| {
      var id := options.continues.value;
      assert IsPlaced(s.rows, id, normalize);
      var root := if s.rows[id].root.Some? then s.rows[id].root.value else id;
      assert InThread(s.rows, root, id) && s.rows[root].root.None?;
      forall q: nat | q < |s.rows| && InThread(s.rows, q, id) && s.rows[q].root.None? ensures q == root {
      }
    }
    var resolved := ResolveBranch(s.rows, options, normalize);
    if resolved.Found? {
      ResolvedHolds(s.rows, options, normalize);
      CreateKeepsFlat(s.rows, Read(options, resolved.branch, |s.rows|), normalize);
    }
  }

  /** Every stored merge order is one of 1 to 99. */
  ghost predicate OrdersFit(s: State) {
    (forall k :: 0 <= k < |s.rows| && s.rows[k].mergeOrder.Some? ==> 1 <= s.rows[k].mergeOrder.value <= 99) &&
    (forall k :: 0 <= k < |s.ahead| && s.ahead[k].branch.inherited.Some? ==> 1 <= s.ahead[k].branch.inherited.value <= 99)
  }

  lemma {:induction false} NewestFits(rows: seq<Row>, root: nat, n: nat)
    requires n <= |rows|
    requires forall k :: 0 <= k < |rows| && rows[k].mergeOrder.Some? ==> 1 <= rows[k].mergeOrder.value <= 99
    ensures NewestOrder(rows, root, n).Some? ==> 1 <= NewestOrder(rows, root, n).value <= 99
    decreases n
  {
    if n > 0 {
      NewestFits(rows, root, n - 1);
    }
  }

  lemma {:induction false} StepKeepsOrdersFit(s: State, step: Step, normalize: Name -> Name)
    requires OrdersFit(s)
    ensures OrdersFit(Next(s, step, normalize))
  {
    forall root: nat
      ensures NewestOrder(s.rows, root, |s.rows|).Some? ==> 1 <= NewestOrder(s.rows, root, |s.rows|).value <= 99
    {
      NewestFits(s.rows, root, |s.rows|);
    }
  }

  lemma {:induction false} EveryOrderFits(steps: seq<Step>, normalize: Name -> Name)
    ensures OrdersFit(Run(steps, normalize))
    decreases |steps|
  {
    if steps != [] {
      EveryOrderFits(steps[..|steps| - 1], normalize);
      StepKeepsOrdersFit(Run(steps[..|steps| - 1], normalize), steps[|steps| - 1], normalize);
    }
  }

  /** A thread's rows name one repository exactly when its root's stored name is its own normal form. */
  lemma {:induction false} OneNameIff(steps: seq<Step>, normalize: Name -> Name, k: nat)
    requires k < |Run(steps, normalize).rows| && Run(steps, normalize).rows[k].root.Some?
    ensures var rows := Run(steps, normalize).rows;
            var root := rows[k].root.value;
            root < |rows| &&
            (rows[k].repository == rows[root].repository <==> normalize(rows[root].repository) == rows[root].repository)
  {
    ThreadsStayFlat(steps, normalize);
    assert IsPlaced(Run(steps, normalize).rows, k, normalize);
  }

  /** The part of normalizing a repository's name that drops one ".git". */
  function DropGit(name: Name): Name {
    if |name| >= 4 && name[|name| - 4..] == ".git" then name[..|name| - 4] else name
  }

  /** A name with two ".git" is stored with one, and continued under that name it is stored with none. */
  const RENAMED: seq<Step> := [
    Dispatch(Options("o/n.git.git", "main", Some(1), None, None, None)), Settle(0, OPENED),
    Dispatch(Options("o/n.git", "main", Some(1), Some(0), None, None))]

  /** One thread under two names: dropping ".git" once is not dropping it twice. */
  lemma {:induction false} OneThreadTwoNames()
    ensures var rows := Run(RENAMED, DropGit).rows;
            |rows| == 2 && rows[1].root == Some(0) && rows[0].repository == "o/n.git" && rows[1].repository == "o/n"
  {
    assert "o/n.git.git"[..7] == "o/n.git" && "o/n.git.git"[7..] == ".git";
    assert "o/n.git"[3..] == ".git" && "o/n.git"[..3] == "o/n";
    var r0 := Row(None, "o/n.git", "main", RunBranch(0), None, None, Some(1), None);
    var s1, s2 := State([r0], []), State([r0.(result := Some(OPENED))], []);
    assert Next(State([], []), RENAMED[0], DropGit) == s1;
    assert Next(s1, RENAMED[1], DropGit) == s2;
    assert RENAMED[..2][..1] == RENAMED[..1] && RENAMED[..1][..0] == [];
    assert Run(RENAMED[..1], DropGit) == s1;
    assert Run(RENAMED[..2], DropGit) == s2;
    assert Run(RENAMED, DropGit) == Next(s2, RENAMED[2], DropGit);
  }

  // ---- merge order --------------------------------------------------------

  /** Every row's thread: its root's, or its own. */
  function ThreadOf(rows: seq<Row>, k: nat): nat
    requires k < |rows|
  {
    if rows[k].root.Some? then rows[k].root.value else k
  }

  /** Row k stores the last merge order asked for in its thread, its own dispatch included. */
  ghost predicate KeepsLastGiven(rows: seq<Row>, k: nat)
    requires k < |rows|
  {
    rows[k].mergeOrder == LastGiven(rows, ThreadOf(rows, k), k + 1)
  }

  ghost predicate AllKeep(rows: seq<Row>) {
    forall k :: 0 <= k < |rows| ==> KeepsLastGiven(rows, k)
  }

  /** Every row of this root's thread does. */
  ghost predicate ThreadKeeps(rows: seq<Row>, root: nat) {
    forall k :: 0 <= k < |rows| && ThreadOf(rows, k) == root ==> KeepsLastGiven(rows, k)
  }

  lemma {:induction false} SameOrders(rows: seq<Row>, rows': seq<Row>, root: nat, n: nat)
    requires n <= |rows| && n <= |rows'|
    requires forall k :: 0 <= k < n ==> rows'[k].root == rows[k].root && rows'[k].given == rows[k].given &&
                                         rows'[k].mergeOrder == rows[k].mergeOrder
    ensures LastGiven(rows', root, n) == LastGiven(rows, root, n) && NewestOrder(rows', root, n) == NewestOrder(rows, root, n)
    decreases n
  {
    if n > 0 {
      SameOrders(rows, rows', root, n - 1);
    }
  }

  /** No row comes before its root. */
  ghost predicate RootsComeFirst(rows: seq<Row>) {
    forall k :: 0 <= k < |rows| && rows[k].root.Some? ==> rows[k].root.value < k && rows[rows[k].root.value].root.None?
  }

  /** The newest order stored in a thread is the last one asked for in it. */
  lemma {:induction false} NewestIsLastGiven(rows: seq<Row>, root: nat, n: nat)
    requires ThreadKeeps(rows, root) && root < |rows| && rows[root].root.None? && n <= |rows|
    ensures NewestOrder(rows, root, n) == LastGiven(rows, root, n)
    decreases n
  {
    if n > 0 {
      NewestIsLastGiven(rows, root, n - 1);
      if InThread(rows, root, n - 1) {
        assert KeepsLastGiven(rows, n - 1);
      }
    }
  }

  lemma {:induction false} FlatRootsFirst(rows: seq<Row>, normalize: Name -> Name)
    requires Flat(rows, normalize)
    ensures RootsComeFirst(rows)
  {
    forall k | 0 <= k < |rows| && rows[k].root.Some?
      ensures rows[k].root.value < k && rows[rows[k].root.value].root.None?
    {
      assert IsPlaced(rows, k, normalize);
    }
  }

  /** Before a root's own row nothing belongs to its thread. */
  lemma {:induction false} NoThreadYet(rows: seq<Row>, root: nat, n: nat)
    requires n <= root < |rows| && forall k :: 0 <= k < n && rows[k].root.Some? ==> rows[k].root.value < k
    ensures LastGiven(rows, root, n) == None
    decreases n
  {
    if n > 0 {
      NoThreadYet(rows, root, n - 1);
    }
  }

  /** The rows that were there keep what they kept. */
  lemma {:induction false} EarlierRowsKeep(rows: seq<Row>, rows': seq<Row>, root: nat, k: nat)
    requires k < |rows| <= |rows'|
    requires forall j :: 0 <= j < |rows| ==> rows'[j].root == rows[j].root && rows'[j].given == rows[j].given &&
                                              rows'[j].mergeOrder == rows[j].mergeOrder
    ensures ThreadOf(rows', k) == ThreadOf(rows, k) && (KeepsLastGiven(rows', k) <==> KeepsLastGiven(rows, k))
  {
    SameOrders(rows, rows', ThreadOf(rows, k), k + 1);
  }

  /** A dispatch into this thread that asks for no order itself found none newer than when its branch was read. */
  predicate FoundNoneNewer(rows: seq<Row>, read: Read, root: nat) {
    read.branch.root == Some(root) && read.options.mergeOrder.None? ==>
      read.at <= |rows| && LastGiven(rows, root, read.at) == LastGiven(rows, root, |rows|)
  }

  /** The new row keeps its thread's last asked-for order exactly when its branch was read with none newer. */
  lemma {:induction false} NewRowKeepsIff(rows: seq<Row>, read: Read, normalize: Name -> Name)
    requires Flat(rows, normalize) && ReadHolds(rows, read, normalize)
    requires read.branch.root.Some? ==> ThreadKeeps(rows, read.branch.root.value)
    requires read.options.mergeOrder.Some? ==> IsValidOrder(read.options.mergeOrder.value)
    ensures var rows' := rows + [NewRow(|rows|, read.options, read.branch, normalize)];
            KeepsLastGiven(rows', |rows|) <==> FoundNoneNewer(rows, read, ThreadOf(rows', |rows|))
  {
    var n := |rows|;
    var rows' := rows + [NewRow(n, read.options, read.branch, normalize)];
    var root := ThreadOf(rows', n);
    assert InThread(rows', root, n);
    SameOrders(rows, rows', root, n);
    FlatRootsFirst(rows, normalize);
    if read.branch.root.Some? {
      NewestIsLastGiven(rows, root, read.at);
    } else {
      NoThreadYet(rows', n, n);
    }
  }

  lemma {:induction false} CreateKeepsIff(rows: seq<Row>, read: Read, normalize: Name -> Name, root: nat)
    requires Flat(rows, normalize) && ReadHolds(rows, read, normalize)
    ensures ThreadKeeps(Create(rows, read.options, read.branch, normalize), root) <==>
            ThreadKeeps(rows, root) &&
            (Create(rows, read.options, read.branch, normalize) != rows ==> FoundNoneNewer(rows, read, root))
  {
    CreateKeepsFlat(rows, read, normalize);
    var rows' := Create(rows, read.options, read.branch, normalize);
    if rows' != rows {
      forall k: nat | k < |rows|
        ensures ThreadOf(rows', k) == ThreadOf(rows, k) && (KeepsLastGiven(rows', k) <==> KeepsLastGiven(rows, k))
      {
        EarlierRowsKeep(rows, rows', root, k);
      }
      if ThreadKeeps(rows, root) && ThreadOf(rows', |rows|) == root {
        NewRowKeepsIff(rows, read, normalize);
      }
    }
  }

  /** The step is no dispatch whose branch was read ahead and overtaken, in this thread, by a newer order. */
  predicate IsFresh(s: State, step: Step, root: nat) {
    step.Commit? && step.index < |s.ahead| ==> FoundNoneNewer(s.rows, s.ahead[step.index], root)
  }

  lemma {:induction false} StepKeepsIff(s: State, step: Step, normalize: Name -> Name, root: nat)
    requires Flat(s.rows, normalize) && ReadsHold(s, normalize)
    ensures ThreadKeeps(Next(s, step, normalize).rows, root) <==> ThreadKeeps(s.rows, root) && IsFresh(s, step, root)
  {
    var s' := Next(s, step, normalize);
    match step
    case Dispatch(options) =>
      var resolved := ResolveBranch(s.rows, options, normalize);
      if resolved.Found? {
        ResolvedHolds(s.rows, options, normalize);
        CreateKeepsIff(s.rows, Read(options, resolved.branch, |s.rows|), normalize, root);
      }
    case ReadAhead(options) =>
    case Commit(k) =>
      if k < |s.ahead| {
        CreateKeepsIff(s.rows, s.ahead[k], normalize, root);
        CreateKeepsFlat(s.rows, s.ahead[k], normalize);
      }
    case Settle(k, result) =>
      forall j: nat | j < |s.rows|
        ensures ThreadOf(s'.rows, j) == ThreadOf(s.rows, j) && (KeepsLastGiven(s'.rows, j) <==> KeepsLastGiven(s.rows, j))
      {
        EarlierRowsKeep(s.rows, s'.rows, root, j);
      }
  }

  /** Every step was fresh for this thread when it was taken. */
  ghost predicate AllFresh(steps: seq<Step>, normalize: Name -> Name, root: nat)
    decreases |steps|
  {
    steps == [] ||
    var before := steps[..|steps| - 1];
    AllFresh(before, normalize, root) && IsFresh(Run(before, normalize), steps[|steps| - 1], root)
  }

  lemma {:induction false} LastStepKeepsIff(steps: seq<Step>, normalize: Name -> Name, root: nat)
    requires steps != []
    ensures var before := steps[..|steps| - 1];
            ThreadKeeps(Run(steps, normalize).rows, root) <==>
            ThreadKeeps(Run(before, normalize).rows, root) && IsFresh(Run(before, normalize), steps[|steps| - 1], root)
  {
    var before := steps[..|steps| - 1];
    ThreadsStayFlat(before, normalize);
    StepKeepsIff(Run(before, normalize), steps[|steps| - 1], normalize, root);
  }

  /**
   * After any steps, every row of a thread stores the last order asked for in
   * it exactly when no dispatch into the thread whose branch was read ahead
   * found, when it came to be stored, a newer order than at its read.
   */
  lemma {:induction false} ReadAheadKeepsOrderIff(steps: seq<Step>, normalize: Name -> Name, root: nat)
    ensures ThreadKeeps(Run(steps, normalize).rows, root) <==> AllFresh(steps, normalize, root)
    decreases |steps|
  {
    if steps != [] {
      ReadAheadKeepsOrderIff(steps[..|steps| - 1], normalize, root);
      LastStepKeepsIff(steps, normalize, root);
    }
  }

  predicate IsAtomic(step: Step) { !step.Commit? }

  lemma {:induction false} AtomicIsFresh(steps: seq<Step>, normalize: Name -> Name, root: nat)
    requires forall i :: 0 <= i < |steps| ==> IsAtomic(steps[i])
    ensures AllFresh(steps, normalize, root)
    decreases |steps|
  {
    if steps != [] {
      AtomicIsFresh(steps[..|steps| - 1], normalize, root);
      assert IsAtomic(steps[|steps| - 1]);
    }
  }

  /** Dispatches that resolve their branch inside their transaction keep every thread's last asked-for order. */
  lemma {:induction false} AtomicDispatchesKeepOrder(steps: seq<Step>, normalize: Name -> Name)
    requires forall i :: 0 <= i < |steps| ==> IsAtomic(steps[i])
    ensures AllKeep(Run(steps, normalize).rows)
  {
    var rows := Run(steps, normalize).rows;
    forall k | 0 <= k < |rows| ensures KeepsLastGiven(rows, k) {
      AtomicIsFresh(steps, normalize, ThreadOf(rows, k));
      ReadAheadKeepsOrderIff(steps, normalize, ThreadOf(rows, k));
    }
  }

  // ---- a stale read -------------------------------------------------------

  const OPENED := RunResult(PullRequestOpened, Some(7))

  function Ask(continues: Option<nat>, order: Option<Order>): Options {
    Options("o/n", "main", Some(1), continues, None, order)
  }

  /** Read ahead, overtaken by a dispatch that sets order 5, and then committed with none. */
  const STALE: seq<Step> := [
    Dispatch(Ask(None, Some(Whole(3)))), Settle(0, OPENED), ReadAhead(Ask(Some(0), None)),
    Dispatch(Ask(Some(0), Some(Whole(5)))), Commit(0)]

  /** Then the last continuation goes back to the older order. */
  lemma {:induction false} StaleReadLosesOrder()
    ensures var rows := Run(STALE, n => n).rows;
            |rows| == 3 && rows[2].mergeOrder == Some(3) && LastGiven(rows, 0, 3) == Some(5)
  {
    var id := (n: Name) => n;
    var s0 := State([], []);
    var r0 := Row(None, "o/n", "main", RunBranch(0), Some(3), Some(3), Some(1), None);
    var s1 := State([r0], []);
    var s2 := State([r0.(result := Some(OPENED))], []);
    var branch := Branch("main", Some(0), Some(RunBranch(0)), Some(3));
    var s3 := s2.(ahead := [Read(Ask(Some(0), None), branch, 1)]);
    var r1 := Row(Some(0), "o/n", "main", RunBranch(0), Some(5), Some(5), Some(1), None);
    var s4 := s3.(rows := s3.rows + [r1]);
    assert Next(s0, STALE[0], id) == s1;
    assert Next(s1, STALE[1], id) == s2;
    assert NewestOrder(s2.rows, 0, 1) == Some(3);
    assert Next(s2, STALE[2], id) == s3;
    assert Next(s3, STALE[3], id) == s4;
    RunUnfolds(s1, s2, s3, s4);
    var rows := Next(s4, STALE[4], id).rows;
    assert LastGiven(rows, 0, 2) == Some(5);
  }

  lemma {:induction false} RunUnfolds(s1: State, s2: State, s3: State, s4: State)
    requires var id := (n: Name) => n;
             Next(State([], []), STALE[0], id) == s1 && Next(s1, STALE[1], id) == s2 &&
             Next(s2, STALE[2], id) == s3 && Next(s3, STALE[3], id) == s4
    ensures Run(STALE, n => n) == Next(s4, STALE[4], n => n)
  {
    var id := (n: Name) => n;
    assert STALE[..4][..3] == STALE[..3] && STALE[..3][..2] == STALE[..2] && STALE[..2][..1] == STALE[..1];
    assert STALE[..1][..0] == [];
    assert Run(STALE[..1], id) == s1;
    assert Run(STALE[..2], id) == s2;
    assert Run(STALE[..3], id) == s3;
    assert Run(STALE[..4], id) == s4;
  }
}
