/**
 * Deferred reviews (src/core/host-events.ts): a push records a row per reviewer
 * instead of starting the review, and whichever of the push itself, CI's
 * completion, the lead run's finish or the sweep comes last starts it. Each
 * database or host access is one atomic step and handlers interleave freely; a
 * handler that calls another is modelled as spawning it, which allows every
 * order the program has.
 */
module DeferredReviews {
  import opened Common

  /** Why a row waits: for CI on its head, or for a run to finish. */
  datatype Reason = Ci | Request(lead: nat)

  datatype Row = Row(head: nat, agent: nat, reason: Reason)

  datatype Mode = FromCi | FromRequest | FromSweep

  /** A handler at its next step, with the row ids it has read. */
  datatype Task =
    | Done
    | PushReadCi(head: nat, agents: set<nat>)
    | PushInsert(head: nat, agents: set<nat>)
    | PushReadAgain(head: nat, agents: set<nat>)
    | PushFind(head: nat, agents: set<nat>)
    | RequestInsert(head: nat, agents: set<nat>, lead: nat)
    | RequestFlip(head: nat, agents: set<nat>, lead: nat)
    | CheckLead(lead: nat)
    | ReleaseFind(lead: nat, mode: Mode)
    | ReleaseHead(head: nat, ids: set<nat>, mode: Mode)
    | FlipToCi(head: nat, ids: set<nat>)
    | FlipReadAgain(head: nat, ids: set<nat>)
    | FlipFind(head: nat, ids: set<nat>)
    | CiFind(head: nat)
    | CiRead(head: nat, ids: set<nat>)
    | ReadHead(head: nat, ids: set<nat>, mode: Mode)
    | Drop(ids: set<nat>)
    | Decide(head: nat, ids: set<nat>, mode: Mode)
    | HoldForRun(ids: set<nat>, lead: nat)
    | Claim(ids: set<nat>, mode: Mode, targets: set<nat>, skip: bool)
    | Launch(targets: set<nat>, skip: bool)

  /** Who a row is for; a handler's copy of it outlives the row. */
  datatype Reviewer = Reviewer(head: nat, agent: nat)

  /**
   * The table, every reviewer ever inserted, the heads whose CI is final, the
   * finished runs, the handlers, and how often each row was started.
   * `authorized` is who the gate allows, `waitsForCi` who is linked with waitForCi.
   */
  datatype World = World(rows: map<nat, Row>, made: map<nat, Reviewer>, ciFinal: set<nat>, finished: set<nat>,
                         tasks: seq<Task>, starts: multiset<nat>, authorized: set<nat>, waitsForCi: set<nat>)

  /** What a step reads from outside, or picks. CI that cannot be read is not known to be unfinished. */
  datatype Choice = Choice(ciUnfinished: bool, ciPending: bool, moved: bool, wait: Option<nat>, skip: bool,
                           inserted: map<nat, Row>, spawned: seq<Task>, pick: nat)

  datatype Step =
    | Advance(k: nat, c: Choice)
    | PushEvent(head: nat, agents: set<nat>)
    | RequestEvent(head: nat, agents: set<nat>, lead: nat)
    | CiEvent(head: nat)
    | CiDone(head: nat)
    | RunDone(run: nat)
    | SweepCi(head: nat, due: set<nat>)
    | SweepRequest(lead: nat)
    | Expire(ids: set<nat>)
    | Fail(k: nat)

  // ---- table operations ---------------------------------------------------

  /** createMany with skipDuplicates: one new row for each reviewer of the head that has none. */
  ghost predicate Inserts(w: World, head: nat, agents: set<nat>, reason: Reason, inserted: map<nat, Row>) {
    (forall id :: id in inserted ==>
      id !in w.made && inserted[id].head == head && inserted[id].agent in agents && inserted[id].reason == reason) &&
    (forall id, id' :: id in inserted && id' in inserted && inserted[id].agent == inserted[id'].agent ==> id == id') &&
    (forall id, id' :: id in inserted && id' in w.rows && w.rows[id'].head == head ==>
      w.rows[id'].agent != inserted[id].agent) &&
    (forall a :: a in agents ==>
      (exists id :: id in inserted && inserted[id].agent == a) ||
      (exists id :: id in w.rows && w.rows[id].head == head && w.rows[id].agent == a))
  }

  function Reviewers(rows: map<nat, Row>): map<nat, Reviewer> {
    map id | id in rows :: Reviewer(rows[id].head, rows[id].agent)
  }

  function CiRowsOf(rows: map<nat, Row>, head: nat, agents: set<nat>): set<nat> {
    set id | id in rows && rows[id].head == head && rows[id].agent in agents && rows[id].reason == Ci
  }

  function CiRows(rows: map<nat, Row>, head: nat): set<nat> {
    set id | id in rows && rows[id].head == head && rows[id].reason == Ci
  }

  function StillCi(rows: map<nat, Row>, ids: set<nat>): set<nat> {
    set id | id in ids && id in rows && rows[id].reason == Ci
  }

  function RowsOfLead(rows: map<nat, Row>, lead: nat): set<nat> {
    set id | id in rows && rows[id].reason == Request(lead)
  }

  /** updateMany: the reason of the chosen rows. */
  function Flip(rows: map<nat, Row>, ids: set<nat>, reason: Reason): map<nat, Row> {
    map id | id in rows :: if id in ids then rows[id].(reason := reason) else rows[id]
  }

  function WaitingOn(rows: map<nat, Row>, ids: set<nat>): set<nat> {
    set id | id in ids && id in rows && rows[id].reason.Request?
  }

  /** The lead's rows, one ReleaseHead per head. */
  ghost predicate OnePerHead(w: World, found: set<nat>, mode: Mode, spawned: seq<Task>) {
    (forall j :: 0 <= j < |spawned| ==>
      spawned[j].ReleaseHead? && spawned[j].mode == mode && spawned[j].ids != {} &&
      spawned[j].ids == set id | id in found && id in w.rows && w.rows[id].head == spawned[j].head) &&
    (forall i, j :: 0 <= i < j < |spawned| ==> spawned[i].head != spawned[j].head) &&
    (forall id :: id in found ==> exists j :: 0 <= j < |spawned| && id in spawned[j].ids)
  }

  // ---- one handler step ---------------------------------------------------

  /** The world after handler k went on to `next`, spawning others. */
  function Moved(w: World, k: nat, next: Task, spawned: seq<Task>): World
    requires k < |w.tasks|
  {
    w.(tasks := w.tasks[k := next] + spawned)
  }

  function StartIfAny(head: nat, ids: set<nat>, mode: Mode): Task {
    if ids == {} then Done else ReadHead(head, ids, mode)
  }

  /** What the outside may answer: CI stays final once it is, and a pick is from what is left. */
  ghost predicate Answers(w: World, t: Task, c: Choice) {
    match t
    case PushReadCi(h, _) => h in w.ciFinal ==> !c.ciUnfinished
    case PushReadAgain(h, _) => h in w.ciFinal ==> !c.ciUnfinished
    case FlipReadAgain(h, _) => h in w.ciFinal ==> !c.ciUnfinished
    case CiRead(h, _) => h in w.ciFinal ==> !c.ciPending
    case PushInsert(h, agents) => Inserts(w, h, agents, Ci, c.inserted)
    case RequestInsert(h, agents, lead) => Inserts(w, h, agents, Request(lead), c.inserted)
    case ReleaseFind(lead, mode) => OnePerHead(w, RowsOfLead(w.rows, lead), mode, c.spawned)
    case ReleaseHead(h, _, _) => h in w.ciFinal ==> !c.ciUnfinished
    case Claim(ids, _, _, _) => ids != {} ==> c.pick in ids
    case _ => true
  }

  /** One row claimed by deleting it: only whoever deletes it may start it. */
  function ClaimOne(w: World, k: nat, t: Task, id: nat): World
    requires k < |w.tasks| && t.Claim? && id in w.made
  {
    var left := t.ids - {id};
    var allowed := w.made[id].agent in w.authorized;
    if t.mode != FromSweep && !allowed then Moved(w, k, Claim(left, t.mode, t.targets, t.skip), [])
    else if id !in w.rows then Moved(w, k, Claim(left, t.mode, t.targets, t.skip), [])
    else
      Moved(w.(rows := w.rows - {id}), k,
            Claim(left, t.mode, if allowed then t.targets + {id} else t.targets, t.skip), [])
  }

  /** The rows of reviewers that wait for CI too. */
  function CiWaiters(w: World, ids: set<nat>): set<nat> {
    set id | id in ids && id in w.made && w.made[id].agent in w.waitsForCi
  }

  function NextOf(w: World, k: nat, c: Choice): World
    requires k < |w.tasks|
    requires w.tasks[k].Claim? && w.tasks[k].ids != {} ==> c.pick in w.made
  {
    match w.tasks[k]
    case Done => w
    case PushReadCi(h, agents) => Moved(w, k, if c.ciUnfinished then PushInsert(h, agents) else Done, [])
    case PushInsert(h, agents) =>
      Moved(w.(rows := w.rows + c.inserted, made := w.made + Reviewers(c.inserted)), k, PushReadAgain(h, agents), [])
    case PushReadAgain(h, agents) => Moved(w, k, if c.ciUnfinished then Done else PushFind(h, agents), [])
    case PushFind(h, agents) => Moved(w, k, StartIfAny(h, CiRowsOf(w.rows, h, agents), FromCi), [])
    case RequestInsert(h, agents, lead) =>
      Moved(w.(rows := w.rows + c.inserted, made := w.made + Reviewers(c.inserted)), k, RequestFlip(h, agents, lead), [])
    case RequestFlip(h, agents, lead) =>
      Moved(w.(rows := Flip(w.rows, CiRowsOf(w.rows, h, agents), Request(lead))), k, CheckLead(lead), [])
    case CheckLead(lead) => Moved(w, k, if lead in w.finished then ReleaseFind(lead, FromRequest) else Done, [])
    case ReleaseFind(_, _) => Moved(w, k, Done, c.spawned)
    case ReleaseHead(h, ids, mode) =>
      var later := if c.ciUnfinished then CiWaiters(w, ids) else {};
      Moved(w, k, if later == {} then Done else FlipToCi(h, later),
            if ids == later then [] else [ReadHead(h, ids - later, mode)])
    case FlipToCi(h, ids) =>
      Moved(w.(rows := Flip(w.rows, WaitingOn(w.rows, ids), Ci)), k, FlipReadAgain(h, ids), [])
    case FlipReadAgain(h, ids) => Moved(w, k, if c.ciUnfinished then Done else FlipFind(h, ids), [])
    case FlipFind(h, ids) => Moved(w, k, StartIfAny(h, StillCi(w.rows, ids), FromCi), [])
    case CiFind(h) => Moved(w, k, if CiRows(w.rows, h) == {} then Done else CiRead(h, CiRows(w.rows, h)), [])
    case CiRead(h, ids) => Moved(w, k, if c.ciPending then Done else ReadHead(h, ids, FromCi), [])
    case ReadHead(h, ids, mode) => Moved(w, k, if c.moved then Drop(ids) else Decide(h, ids, mode), [])
    case Drop(ids) => Moved(w.(rows := w.rows - ids), k, Done, [])
    case Decide(h, ids, mode) =>
      Moved(w, k, if c.wait.Some? then HoldForRun(ids, c.wait.value) else Claim(ids, mode, {}, c.skip), [])
    case HoldForRun(ids, lead) => Moved(w.(rows := Flip(w.rows, ids, Request(lead))), k, CheckLead(lead), [])
    case Claim(ids, mode, targets, skip) =>
      if ids == {} then Moved(w, k, Launch(targets, skip), []) else ClaimOne(w, k, w.tasks[k], c.pick)
    case Launch(targets, skip) =>
      // A budget-stopped draft gets a neutral check instead of a review.
      Moved(w.(starts := if skip then w.starts else w.starts + multiset(targets)), k, Done, [])
  }

  function Spawn(w: World, t: Task): World {
    w.(tasks := w.tasks + [t])
  }

  ghost predicate Next(w: World, s: Step, w': World) {
    match s
    case Advance(k, c) =>
      k < |w.tasks| && Answers(w, w.tasks[k], c) &&
      (w.tasks[k].Claim? && w.tasks[k].ids != {} ==> c.pick in w.made) && w' == NextOf(w, k, c)
    case PushEvent(head, agents) => w' == Spawn(w, PushReadCi(head, agents))
    case RequestEvent(head, agents, lead) => w' == Spawn(w, RequestInsert(head, agents, lead))
    case CiEvent(head) => w' == Spawn(w, CiFind(head))
    case CiDone(head) => w' == Spawn(w.(ciFinal := w.ciFinal + {head}), CiFind(head))
    case RunDone(run) => w' == Spawn(w.(finished := w.finished + {run}), ReleaseFind(run, FromRequest))
    case SweepCi(head, due) => due <= CiRows(w.rows, head) && w' == Spawn(w, StartIfAny(head, due, FromSweep))
    case SweepRequest(lead) => lead in w.finished && w' == Spawn(w, ReleaseFind(lead, FromSweep))
    case Expire(ids) => w' == w.(rows := w.rows - ids)
    case Fail(k) => k < |w.tasks| && w' == w.(tasks := w.tasks[k := Done])
  }

  ghost predicate Init(w: World) {
    w.rows == map[] && w.made == map[] && w.tasks == [] && w.starts == multiset{}
  }

  ghost predicate IsRun(worlds: seq<World>, steps: seq<Step>) {
    |worlds| == |steps| + 1 && Init(worlds[0]) &&
    forall i :: 0 <= i < |steps| ==> Next(worlds[i], steps[i], worlds[i + 1])
  }

  // ---- the invariant: rows and claims -------------------------------------

  function HeldIds(t: Task): set<nat> {
    if t.ReleaseHead? || t.FlipToCi? || t.FlipReadAgain? || t.FlipFind? || t.CiRead? || t.ReadHead? || t.Drop? ||
       t.Decide? || t.HoldForRun? || t.Claim?
    then t.ids else {}
  }

  function Claimed(t: Task): set<nat> {
    if t.Claim? || t.Launch? then t.targets else {}
  }

  /** A handler for one head holds that head's rows only. */
  ghost predicate OwnHead(w: World, t: Task) {
    (forall id :: id in HeldIds(t) ==> id in w.made) &&
    (t.FlipToCi? || t.FlipReadAgain? || t.FlipFind? || t.CiRead? || t.ReleaseHead? || t.ReadHead? ==>
      forall id :: id in t.ids ==> w.made[id].head == t.head)
  }

  /** The table agrees with the record of who each row is for. */
  ghost predicate Recorded(w: World) {
    forall id :: id in w.rows ==> id in w.made && w.made[id] == Reviewer(w.rows[id].head, w.rows[id].agent)
  }

  ghost predicate HandlersKnow(w: World) {
    forall i :: 0 <= i < |w.tasks| ==> OwnHead(w, w.tasks[i])
  }

  /** The row is an authorized reviewer's and nobody can claim or start it any more. */
  ghost predicate Gone(w: World, id: nat) {
    id in w.made && w.made[id].agent in w.authorized && id !in w.rows && id !in w.starts
  }

  ghost predicate ClaimedAreGone(w: World) {
    forall i :: 0 <= i < |w.tasks| ==> forall id :: id in Claimed(w.tasks[i]) ==> Gone(w, id)
  }

  ghost predicate ClaimedByOne(w: World) {
    forall i, j :: 0 <= i < j < |w.tasks| ==> Claimed(w.tasks[i]) !! Claimed(w.tasks[j])
  }

  ghost predicate StartedOnce(w: World) {
    forall id :: id in w.starts ==>
      w.starts[id] == 1 && id !in w.rows && id in w.made && w.made[id].agent in w.authorized
  }

  /** A row is in the table, or claimed by one handler, or started once, or gone. */
  ghost predicate ClaimsApart(w: World) {
    Recorded(w) && HandlersKnow(w) && ClaimedAreGone(w) && ClaimedByOne(w) && StartedOnce(w)
  }

  /** The table's unique key. */
  ghost predicate UniqueReviewers(w: World) {
    forall id, id' :: id in w.rows && id' in w.rows ==>
      w.rows[id].head == w.rows[id'].head && w.rows[id].agent == w.rows[id'].agent ==> id == id'
  }

  // ---- the invariant: every waiting row has someone coming ----------------

  /** What the row waits for has happened. */
  predicate Due(w: World, id: nat)
    requires id in w.rows
  {
    match w.rows[id].reason
    case Ci => w.rows[id].head in w.ciFinal
    case Request(lead) => lead in w.finished
  }

  /** The handler will start, drop, or re-check the row before it ends. */
  predicate Covers(t: Task, id: nat, r: Row) {
    var holds := id in HeldIds(t) && (t.ReadHead? || t.Drop? || t.Decide? || t.HoldForRun? || t.Claim? || t.FlipToCi?);
    match r.reason
    case Ci =>
      holds || (id in HeldIds(t) && (t.CiRead? || t.FlipReadAgain? || t.FlipFind?)) ||
      ((t.PushReadAgain? || t.PushFind?) && t.head == r.head && r.agent in t.agents) ||
      (t.CiFind? && t.head == r.head)
    case Request(lead) =>
      holds || (t.ReleaseHead? && id in t.ids) ||
      ((t.RequestFlip? || t.CheckLead? || t.ReleaseFind?) && t.lead == lead)
  }

  ghost predicate Covered(w: World, id: nat)
    requires id in w.rows
  {
    exists k :: 0 <= k < |w.tasks| && Covers(w.tasks[k], id, w.rows[id])
  }

  /** What rows wait for: CI on a head, or a run. */
  datatype Wait = OnHead(head: nat) | OnLead(lead: nat)

  function WaitOf(r: Row): Wait {
    match r.reason
    case Ci => OnHead(r.head)
    case Request(lead) => OnLead(lead)
  }

  /** Every due row that waits for this, of an authorized reviewer, has a handler coming for it. */
  ghost predicate NoneForgotten(w: World, wait: Wait) {
    forall id :: id in w.rows && WaitOf(w.rows[id]) == wait && w.rows[id].agent in w.authorized && Due(w, id) ==>
      Covered(w, id)
  }

  ghost predicate ForgetsNone(w: World, w': World) {
    forall wait :: NoneForgotten(w, wait) ==> NoneForgotten(w', wait)
  }

  ghost predicate Inv(w: World) {
    ClaimsApart(w) && UniqueReviewers(w)
  }

  // ---- steps that claim nothing -------------------------------------------

  /** Rows may have gone or changed their reason; nothing was inserted, claimed or started. */
  ghost predicate SameReviewers(w: World, w': World) {
    w'.made == w.made && w'.starts == w.starts && w'.authorized == w.authorized &&
    forall id :: id in w'.rows ==>
      id in w.rows && w'.rows[id].head == w.rows[id].head && w'.rows[id].agent == w.rows[id].agent
  }

  lemma QuietClaims(w: World, w': World, k: nat, next: Task, spawned: seq<Task>)
    requires ClaimsApart(w) && UniqueReviewers(w) && SameReviewers(w, w')
    requires k < |w.tasks| && w'.tasks == w.tasks[k := next] + spawned
    requires OwnHead(w, next) && Claimed(next) == {}
    requires forall j :: 0 <= j < |spawned| ==> OwnHead(w, spawned[j]) && Claimed(spawned[j]) == {}
    ensures ClaimsApart(w') && UniqueReviewers(w')
  {
    forall i | 0 <= i < |w'.tasks|
      ensures OwnHead(w', w'.tasks[i]) && (Claimed(w'.tasks[i]) != {} ==> i < |w.tasks| && w'.tasks[i] == w.tasks[i])
    {
      if i < |w.tasks| {
        assert w'.tasks[i] == if i == k then next else w.tasks[i];
      } else {
        assert w'.tasks[i] == spawned[i - |w.tasks|];
      }
    }
  }

  lemma SpawnClaims(w: World, w': World, t: Task)
    requires ClaimsApart(w) && UniqueReviewers(w) && SameReviewers(w, w')
    requires w'.tasks == w.tasks + [t] && OwnHead(w, t) && Claimed(t) == {}
    ensures ClaimsApart(w') && UniqueReviewers(w')
  {
    forall i | 0 <= i < |w'.tasks|
      ensures OwnHead(w', w'.tasks[i]) && (Claimed(w'.tasks[i]) != {} ==> i < |w.tasks| && w'.tasks[i] == w.tasks[i])
    {
      assert w'.tasks[i] == if i < |w.tasks| then w.tasks[i] else t;
    }
  }

  // ---- handing rows over --------------------------------------------------

  predicate CoveredBy(next: Task, spawned: seq<Task>, id: nat, r: Row) {
    Covers(next, id, r) || exists j :: 0 <= j < |spawned| && Covers(spawned[j], id, r)
  }

  /** The row was due before, unchanged, and not this handler's. */
  predicate Elsewhere(w: World, w': World, k: nat, id: nat)
    requires id in w'.rows && k < |w.tasks|
  {
    id in w.rows && w.rows[id] == w'.rows[id] && Due(w, id) && !Covers(w.tasks[k], id, w.rows[id])
  }

  /** Every due row is now covered by what the handler became or spawned, or was somebody else's all along. */
  ghost predicate HandsOver(w: World, w': World, k: nat, next: Task, spawned: seq<Task>)
    requires k < |w.tasks|
  {
    forall id :: id in w'.rows && w'.rows[id].agent in w'.authorized && Due(w', id) ==>
      CoveredBy(next, spawned, id, w'.rows[id]) || Elsewhere(w, w', k, id)
  }

  lemma HandingOverForgetsNone(w: World, w': World, k: nat, next: Task, spawned: seq<Task>)
    requires k < |w.tasks| && w'.authorized == w.authorized
    requires w'.tasks == w.tasks[k := next] + spawned && HandsOver(w, w', k, next, spawned)
    ensures ForgetsNone(w, w')
  {
    forall wait, id | NoneForgotten(w, wait) && id in w'.rows && WaitOf(w'.rows[id]) == wait &&
                      w'.rows[id].agent in w'.authorized && Due(w', id)
      ensures Covered(w', id)
    {
      if Covers(next, id, w'.rows[id]) {
        assert w'.tasks[k] == next;
      } else if j :| 0 <= j < |spawned| && Covers(spawned[j], id, w'.rows[id]) {
        assert w'.tasks[|w.tasks| + j] == spawned[j];
      } else {
        assert Elsewhere(w, w', k, id);
        var i :| 0 <= i < |w.tasks| && Covers(w.tasks[i], id, w.rows[id]);
        assert w'.tasks[i] == w.tasks[i];
      }
    }
  }

  /** One handler step that claims nothing and hands over what it covered. */
  ghost predicate QuietMove(w: World, w': World, k: nat, next: Task, spawned: seq<Task>) {
    k < |w.tasks| && w'.tasks == w.tasks[k := next] + spawned && SameReviewers(w, w') &&
    OwnHead(w, next) && Claimed(next) == {} &&
    (forall j :: 0 <= j < |spawned| ==> OwnHead(w, spawned[j]) && Claimed(spawned[j]) == {}) &&
    HandsOver(w, w', k, next, spawned)
  }

  lemma QuietAdvance(w: World, w': World, k: nat, next: Task, spawned: seq<Task>)
    requires Inv(w) && QuietMove(w, w', k, next, spawned)
    ensures Inv(w') && ForgetsNone(w, w')
  {
    QuietClaims(w, w', k, next, spawned);
    HandingOverForgetsNone(w, w', k, next, spawned);
  }

  ghost predicate Steps(w: World, k: nat, c: Choice, w': World) {
    Recorded(w) && k < |w.tasks| && OwnHead(w, w.tasks[k]) && Answers(w, w.tasks[k], c) && !w.tasks[k].Claim? &&
    w' == NextOf(w, k, c)
  }

  // ---- the handlers, step by step -----------------------------------------

  lemma PushReads(w: World, k: nat, c: Choice, w': World)
    requires Steps(w, k, c, w') && (w.tasks[k].PushReadCi? || w.tasks[k].PushReadAgain?)
    ensures QuietMove(w, w', k, w'.tasks[k], [])
  {
  }

  lemma PushFinds(w: World, k: nat, c: Choice, w': World)
    requires Steps(w, k, c, w') && w.tasks[k].PushFind?
    ensures QuietMove(w, w', k, w'.tasks[k], [])
  {
    var t := w.tasks[k];
    var found := CiRowsOf(w.rows, t.head, t.agents);
    forall id | id in w.rows && Covers(t, id, w.rows[id]) ensures id in found {
    }
  }

  lemma ReadsAgain(w: World, k: nat, c: Choice, w': World)
    requires Steps(w, k, c, w') && (w.tasks[k].FlipReadAgain? || w.tasks[k].FlipFind?)
    ensures QuietMove(w, w', k, w'.tasks[k], [])
  {
    if w.tasks[k].FlipFind? {
      forall id | id in w.rows && Covers(w.tasks[k], id, w.rows[id]) ensures id in StillCi(w.rows, w.tasks[k].ids) {
      }
    }
  }

  lemma CiCompletes(w: World, k: nat, c: Choice, w': World)
    requires Steps(w, k, c, w') && (w.tasks[k].CiFind? || w.tasks[k].CiRead?)
    ensures QuietMove(w, w', k, w'.tasks[k], [])
  {
    if w.tasks[k].CiFind? {
      forall id | id in w.rows && Covers(w.tasks[k], id, w.rows[id]) ensures id in CiRows(w.rows, w.tasks[k].head) {
      }
    }
  }

  lemma StartReads(w: World, k: nat, c: Choice, w': World)
    requires Steps(w, k, c, w')
    requires w.tasks[k].ReadHead? || w.tasks[k].Decide? || w.tasks[k].Drop? || w.tasks[k].CheckLead?
    ensures QuietMove(w, w', k, w'.tasks[k], [])
  {
  }

  lemma RequestFlips(w: World, k: nat, c: Choice, w': World)
    requires Steps(w, k, c, w') && w.tasks[k].RequestFlip?
    ensures QuietMove(w, w', k, w'.tasks[k], [])
  {
  }

  lemma RowsFlip(w: World, k: nat, c: Choice, w': World)
    requires Steps(w, k, c, w') && (w.tasks[k].FlipToCi? || w.tasks[k].HoldForRun?)
    ensures QuietMove(w, w', k, w'.tasks[k], [])
  {
  }

  /** Every row of the lead is in one of the spawned releases. */
  lemma {:induction false} ReleasesCover(w: World, k: nat, c: Choice, id: nat)
    requires k < |w.tasks| && w.tasks[k].ReleaseFind? && Answers(w, w.tasks[k], c)
    requires id in w.rows && w.rows[id].reason == Request(w.tasks[k].lead)
    ensures CoveredBy(Done, c.spawned, id, w.rows[id])
  {
    assert id in RowsOfLead(w.rows, w.tasks[k].lead);
    var j :| 0 <= j < |c.spawned| && id in c.spawned[j].ids;
    assert Covers(c.spawned[j], id, w.rows[id]);
  }

  lemma {:induction false} ReleasesOwnHeads(w: World, k: nat, c: Choice, j: nat)
    requires Recorded(w) && k < |w.tasks| && w.tasks[k].ReleaseFind? && Answers(w, w.tasks[k], c) && j < |c.spawned|
    ensures OwnHead(w, c.spawned[j]) && Claimed(c.spawned[j]) == {}
  {
    var ids := set id | id in RowsOfLead(w.rows, w.tasks[k].lead) && id in w.rows && w.rows[id].head == c.spawned[j].head;
    assert c.spawned[j].ids == ids;
  }

  lemma {:induction false} Releases(w: World, k: nat, c: Choice, w': World)
    requires Steps(w, k, c, w') && w.tasks[k].ReleaseFind?
    ensures QuietMove(w, w', k, Done, c.spawned)
  {
    var lead := w.tasks[k].lead;
    forall id | id in w.rows && w.rows[id].reason == Request(lead) ensures CoveredBy(Done, c.spawned, id, w.rows[id]) {
      ReleasesCover(w, k, c, id);
    }
    forall j | 0 <= j < |c.spawned| ensures OwnHead(w, c.spawned[j]) && Claimed(c.spawned[j]) == {} {
      ReleasesOwnHeads(w, k, c, j);
    }
    assert HandsOver(w, w', k, Done, c.spawned);
  }

  lemma ReleasesHead(w: World, k: nat, c: Choice, w': World) returns (next: Task, spawned: seq<Task>)
    requires Steps(w, k, c, w') && w.tasks[k].ReleaseHead?
    ensures QuietMove(w, w', k, next, spawned)
  {
    var t := w.tasks[k];
    var later := if c.ciUnfinished then CiWaiters(w, t.ids) else {};
    next := if later == {} then Done else FlipToCi(t.head, later);
    spawned := if t.ids == later then [] else [ReadHead(t.head, t.ids - later, t.mode)];
    forall id | id in w.rows && id in t.ids ensures CoveredBy(next, spawned, id, w.rows[id]) {
      if id !in later {
        assert Covers(spawned[0], id, w.rows[id]);
      }
    }
  }

  // ---- inserting ----------------------------------------------------------

  ghost predicate InsertStep(w: World, w': World, k: nat, next: Task, agents: set<nat>, reason: Reason,
                             inserted: map<nat, Row>) {
    k < |w.tasks| && (next.PushReadAgain? || next.RequestFlip?) && next.agents == agents &&
    reason == (if next.RequestFlip? then Request(next.lead) else Ci) &&
    Inserts(w, next.head, agents, reason, inserted) &&
    w' == Moved(w.(rows := w.rows + inserted, made := w.made + Reviewers(inserted)), k, next, [])
  }

  lemma InsertClaims(w: World, w': World, k: nat, next: Task, agents: set<nat>, reason: Reason,
                     inserted: map<nat, Row>)
    requires ClaimsApart(w) && InsertStep(w, w', k, next, agents, reason, inserted)
    ensures ClaimsApart(w')
  {
    forall id | id in w.made ensures id in w'.made && w'.made[id] == w.made[id] {
    }
    forall i | 0 <= i < |w'.tasks|
      ensures OwnHead(w', w'.tasks[i]) && (Claimed(w'.tasks[i]) != {} ==> w'.tasks[i] == w.tasks[i])
    {
      assert w'.tasks[i] == if i == k then next else w.tasks[i];
      assert OwnHead(w, w.tasks[i]);
    }
  }

  lemma InsertUnique(w: World, w': World, k: nat, next: Task, agents: set<nat>, reason: Reason,
                     inserted: map<nat, Row>)
    requires UniqueReviewers(w) && Recorded(w) && InsertStep(w, w', k, next, agents, reason, inserted)
    ensures UniqueReviewers(w')
  {
  }

  /** Each new row is covered by its inserter, which goes on to re-check what the row waits for. */
  lemma InsertHandsOver(w: World, w': World, k: nat, next: Task, agents: set<nat>, reason: Reason,
                        inserted: map<nat, Row>)
    requires Recorded(w) && InsertStep(w, w', k, next, agents, reason, inserted)
    requires w.tasks[k].PushInsert? || w.tasks[k].RequestInsert?
    ensures w'.tasks == w.tasks[k := next] + [] && HandsOver(w, w', k, next, [])
  {
    forall id | id in w'.rows && w'.rows[id].agent in w'.authorized && Due(w', id)
      ensures CoveredBy(next, [], id, w'.rows[id]) || Elsewhere(w, w', k, id)
    {
      if id in inserted {
        assert w'.rows[id] == inserted[id];
      } else {
        assert w'.rows[id] == w.rows[id];
      }
    }
  }

  lemma InsertKeeps(w: World, w': World, k: nat, next: Task, agents: set<nat>, reason: Reason,
                    inserted: map<nat, Row>)
    requires Inv(w) && InsertStep(w, w', k, next, agents, reason, inserted)
    requires w.tasks[k].PushInsert? || w.tasks[k].RequestInsert?
    ensures Inv(w') && ForgetsNone(w, w')
  {
    InsertClaims(w, w', k, next, agents, reason, inserted);
    InsertUnique(w, w', k, next, agents, reason, inserted);
    InsertHandsOver(w, w', k, next, agents, reason, inserted);
    HandingOverForgetsNone(w, w', k, next, []);
  }

  // ---- claiming and starting ----------------------------------------------

  /** Claims after handler k's turn, when the others kept theirs and k's are new or were its own. */
  lemma ClaimsAfterTurn(w: World, w': World, k: nat)
    requires ClaimsApart(w) && k < |w.tasks| == |w'.tasks| && w'.tasks == w.tasks[k := w'.tasks[k]]
    requires w'.made == w.made && w'.authorized == w.authorized && Recorded(w') && StartedOnce(w') && OwnHead(w', w'.tasks[k])
    requires forall i, id :: 0 <= i < |w.tasks| && i != k && id in Claimed(w.tasks[i]) && Gone(w, id) ==>
               Gone(w', id) && id !in Claimed(w'.tasks[k])
    requires forall id :: id in Claimed(w'.tasks[k]) ==> Gone(w', id)
    ensures ClaimsApart(w')
  {
    forall i | 0 <= i < |w'.tasks| ensures OwnHead(w', w'.tasks[i]) {
      assert OwnHead(w, w.tasks[i]);
    }
    forall i, j | 0 <= i < j < |w'.tasks| ensures Claimed(w'.tasks[i]) !! Claimed(w'.tasks[j]) {
      assert ClaimedAreGone(w);
    }
  }

  lemma ClaimOneClaims(w: World, w': World, k: nat, id: nat)
    requires ClaimsApart(w) && UniqueReviewers(w) && k < |w.tasks| && w.tasks[k].Claim? && id in w.made
    requires w' == ClaimOne(w, k, w.tasks[k], id)
    ensures ClaimsApart(w') && UniqueReviewers(w')
  {
    assert OwnHead(w, w.tasks[k]);
    assert w'.tasks == w.tasks[k := w'.tasks[k]];
    forall x | x in Claimed(w'.tasks[k]) ensures Gone(w', x) {
      if x in Claimed(w.tasks[k]) {
        assert Gone(w, x);
      } else {
        assert x == id && id in w.rows && id !in w.starts;
      }
    }
    ClaimsAfterTurn(w, w', k);
  }

  lemma ClaimOneHandsOver(w: World, w': World, k: nat, id: nat)
    requires Recorded(w) && k < |w.tasks| && w.tasks[k].Claim? && id in w.made
    requires w' == ClaimOne(w, k, w.tasks[k], id)
    ensures w'.tasks == w.tasks[k := w'.tasks[k]] + [] && HandsOver(w, w', k, w'.tasks[k], [])
  {
  }

  lemma ClaimKeeps(w: World, w': World, k: nat, id: nat)
    requires Inv(w) && k < |w.tasks| && w.tasks[k].Claim? && id in w.made
    requires w' == ClaimOne(w, k, w.tasks[k], id)
    ensures Inv(w') && ForgetsNone(w, w')
  {
    ClaimOneClaims(w, w', k, id);
    ClaimOneHandsOver(w, w', k, id);
    HandingOverForgetsNone(w, w', k, w'.tasks[k], []);
  }

  /** Nothing left to claim: the targets are handed on, then started, each for the first time. */
  lemma LaunchClaims(w: World, w': World, k: nat)
    requires ClaimsApart(w) && k < |w.tasks| && w.tasks[k].Launch?
    requires w' == Moved(w.(starts := if w.tasks[k].skip then w.starts else w.starts + multiset(w.tasks[k].targets)), k,
                         Done, [])
    ensures ClaimsApart(w')
  {
    assert w'.tasks == w.tasks[k := Done];
    var t := w.tasks[k].targets;
    assert forall id :: id in t ==> Gone(w, id);
    forall id | id in w'.starts
      ensures w'.starts[id] == 1 && id !in w.rows && id in w.made && w.made[id].agent in w.authorized
    {
      assert multiset(t)[id] == if id in t then 1 else 0;
      assert id in w.starts || id in t;
    }
    forall i, id | 0 <= i < |w.tasks| && i != k && id in Claimed(w.tasks[i]) ensures id !in Claimed(w.tasks[k]) {
      assert i < k || k < i;
    }
    ClaimsAfterTurn(w, w', k);
  }

  lemma HandOnClaims(w: World, w': World, k: nat)
    requires ClaimsApart(w) && k < |w.tasks| && w.tasks[k].Claim?
    requires w' == Moved(w, k, Launch(w.tasks[k].targets, w.tasks[k].skip), [])
    ensures ClaimsApart(w')
  {
    assert w'.tasks == w.tasks[k := Launch(w.tasks[k].targets, w.tasks[k].skip)];
    forall id | id in Claimed(w'.tasks[k]) ensures Gone(w', id) {
      assert id in Claimed(w.tasks[k]) && Gone(w, id);
    }
    forall i, id | 0 <= i < |w.tasks| && i != k && id in Claimed(w.tasks[i]) ensures id !in Claimed(w.tasks[k]) {
      assert i < k || k < i;
    }
    ClaimsAfterTurn(w, w', k);
  }

  lemma LaunchKeeps(w: World, w': World, k: nat, c: Choice)
    requires Inv(w) && k < |w.tasks| && (w.tasks[k].Launch? || (w.tasks[k].Claim? && w.tasks[k].ids == {}))
    requires w' == NextOf(w, k, c)
    ensures Inv(w') && ForgetsNone(w, w')
  {
    if w.tasks[k].Launch? {
      LaunchClaims(w, w', k);
    } else {
      HandOnClaims(w, w', k);
    }
    assert w'.tasks == w.tasks[k := w'.tasks[k]] + [];
    assert HandsOver(w, w', k, w'.tasks[k], []);
    HandingOverForgetsNone(w, w', k, w'.tasks[k], []);
  }

  // ---- every step ---------------------------------------------------------

  lemma QuietStepKeeps(w: World, k: nat, c: Choice, w': World)
    requires Inv(w) && Steps(w, k, c, w')
    requires !w.tasks[k].Done? && !w.tasks[k].PushInsert? && !w.tasks[k].RequestInsert? && !w.tasks[k].Launch?
    ensures Inv(w') && ForgetsNone(w, w')
  {
    var next, spawned := if w.tasks[k].ReleaseFind? then Done else w'.tasks[k], [];
    match w.tasks[k]
    case PushReadCi(_, _) => PushReads(w, k, c, w'); QuietAdvance(w, w', k, next, []);
    case PushReadAgain(_, _) => PushReads(w, k, c, w'); QuietAdvance(w, w', k, next, []);
    case PushFind(_, _) => PushFinds(w, k, c, w'); QuietAdvance(w, w', k, next, []);
    case RequestFlip(_, _, _) => RequestFlips(w, k, c, w'); QuietAdvance(w, w', k, next, []);
    case CheckLead(_) => StartReads(w, k, c, w'); QuietAdvance(w, w', k, next, []);
    case ReleaseFind(_, _) => Releases(w, k, c, w'); QuietAdvance(w, w', k, Done, c.spawned);
    case ReleaseHead(_, _, _) =>
      next, spawned := ReleasesHead(w, k, c, w');
      QuietAdvance(w, w', k, next, spawned);
    case FlipToCi(_, _) => RowsFlip(w, k, c, w'); QuietAdvance(w, w', k, next, []);
    case FlipReadAgain(_, _) => ReadsAgain(w, k, c, w'); QuietAdvance(w, w', k, next, []);
    case FlipFind(_, _) => ReadsAgain(w, k, c, w'); QuietAdvance(w, w', k, next, []);
    case CiFind(_) => CiCompletes(w, k, c, w'); QuietAdvance(w, w', k, next, []);
    case CiRead(_, _) => CiCompletes(w, k, c, w'); QuietAdvance(w, w', k, next, []);
    case ReadHead(_, _, _) => StartReads(w, k, c, w'); QuietAdvance(w, w', k, next, []);
    case Drop(_) => StartReads(w, k, c, w'); QuietAdvance(w, w', k, next, []);
    case Decide(_, _, _) => StartReads(w, k, c, w'); QuietAdvance(w, w', k, next, []);
    case HoldForRun(_, _) => RowsFlip(w, k, c, w'); QuietAdvance(w, w', k, next, []);
  }

  lemma AdvanceKeeps(w: World, k: nat, c: Choice, w': World)
    requires Inv(w) && Next(w, Advance(k, c), w')
    ensures Inv(w') && ForgetsNone(w, w')
  {
    var t := w.tasks[k];
    if t.Claim? && t.ids != {} {
      ClaimKeeps(w, w', k, c.pick);
    } else if t.Claim? || t.Launch? {
      LaunchKeeps(w, w', k, c);
    } else if t.PushInsert? {
      InsertKeeps(w, w', k, PushReadAgain(t.head, t.agents), t.agents, Ci, c.inserted);
    } else if t.RequestInsert? {
      InsertKeeps(w, w', k, RequestFlip(t.head, t.agents, t.lead), t.agents, Request(t.lead), c.inserted);
    } else if !t.Done? {
      assert OwnHead(w, t);
      QuietStepKeeps(w, k, c, w');
    }
  }

  /** The outside: whatever happens to CI or a run brings the handler that will look at the rows it makes due. */
  lemma SpawnForgetsNone(w: World, w': World, t: Task)
    requires w'.authorized == w.authorized && w'.rows == w.rows && w'.tasks == w.tasks + [t]
    requires forall id :: id in w.rows && Due(w', id) ==> Due(w, id) || Covers(t, id, w.rows[id])
    ensures ForgetsNone(w, w')
  {
    forall wait, id | NoneForgotten(w, wait) && id in w'.rows && WaitOf(w'.rows[id]) == wait &&
                      w'.rows[id].agent in w'.authorized && Due(w', id)
      ensures Covered(w', id)
    {
      if Due(w, id) {
        var i :| 0 <= i < |w.tasks| && Covers(w.tasks[i], id, w.rows[id]);
        assert w'.tasks[i] == w.tasks[i];
      } else {
        assert w'.tasks[|w.tasks|] == t;
      }
    }
  }

  /** What a step outside the handlers adds: one handler that covers the rows it made due. */
  lemma OutsideSpawns(w: World, s: Step, w': World) returns (t: Task)
    requires Recorded(w) && Next(w, s, w') && !s.Advance? && !s.Expire? && !s.Fail?
    ensures w'.tasks == w.tasks + [t] && w'.rows == w.rows && SameReviewers(w, w')
    ensures OwnHead(w, t) && Claimed(t) == {}
    ensures forall id :: id in w.rows && Due(w', id) ==> Due(w, id) || Covers(t, id, w.rows[id])
  {
    t := w'.tasks[|w.tasks|];
  }

  lemma OutsideKeeps(w: World, s: Step, w': World)
    requires Inv(w) && Next(w, s, w') && !s.Advance? && !s.Expire? && !s.Fail?
    ensures Inv(w') && ForgetsNone(w, w')
  {
    var t := OutsideSpawns(w, s, w');
    SpawnClaims(w, w', t);
    SpawnForgetsNone(w, w', t);
  }

  lemma FailKeeps(w: World, k: nat, w': World)
    requires Inv(w) && Next(w, Fail(k), w')
    ensures Inv(w')
  {
    assert w'.tasks == w.tasks[k := Done] + [];
    QuietClaims(w, w', k, Done, []);
  }

  lemma ExpireKeeps(w: World, ids: set<nat>, w': World)
    requires Inv(w) && Next(w, Expire(ids), w')
    ensures Inv(w') && ForgetsNone(w, w')
  {
    forall i | 0 <= i < |w.tasks| ensures OwnHead(w', w'.tasks[i]) {
      assert OwnHead(w, w.tasks[i]);
    }
    forall wait, id | NoneForgotten(w, wait) && id in w'.rows && WaitOf(w'.rows[id]) == wait &&
                      w'.rows[id].agent in w'.authorized && Due(w', id)
      ensures Covered(w', id)
    {
      var i :| 0 <= i < |w.tasks| && Covers(w.tasks[i], id, w.rows[id]);
      assert Covers(w'.tasks[i], id, w'.rows[id]);
    }
  }

  lemma StepKeeps(w: World, s: Step, w': World)
    requires Inv(w) && Next(w, s, w')
    ensures Inv(w') && (!s.Fail? ==> ForgetsNone(w, w'))
  {
    match s
    case Advance(k, c) => AdvanceKeeps(w, k, c, w');
    case Expire(ids) => ExpireKeeps(w, ids, w');
    case Fail(k) => FailKeeps(w, k, w');
    case _ => OutsideKeeps(w, s, w');
  }

  lemma {:induction false} EveryWorldKeeps(worlds: seq<World>, steps: seq<Step>, n: nat)
    requires IsRun(worlds, steps) && n < |worlds|
    ensures Inv(worlds[n])
    decreases n
  {
    if n > 0 {
      EveryWorldKeeps(worlds, steps, n - 1);
      assert Next(worlds[n - 1], steps[n - 1], worlds[n]);
      StepKeeps(worlds[n - 1], steps[n - 1], worlds[n]);
    }
  }

  /** No handler failed half way in the steps from the m-th to the n-th. */
  predicate NoFailure(steps: seq<Step>, m: nat, n: nat) {
    n <= |steps| && forall i :: m <= i < n ==> !steps[i].Fail?
  }

  lemma {:induction false} NoneForgottenSince(worlds: seq<World>, steps: seq<Step>, m: nat, n: nat, wait: Wait)
    requires IsRun(worlds, steps) && m <= n < |worlds| && NoFailure(steps, m, n) && NoneForgotten(worlds[m], wait)
    ensures NoneForgotten(worlds[n], wait)
    decreases n
  {
    if m < n {
      NoneForgottenSince(worlds, steps, m, n - 1, wait);
      EveryWorldKeeps(worlds, steps, n - 1);
      assert Next(worlds[n - 1], steps[n - 1], worlds[n]);
      StepKeeps(worlds[n - 1], steps[n - 1], worlds[n]);
    }
  }

  /**
   * The step brings a handler that looks at everything waiting for this: CI's
   * completion or the lead's finish, notified once or again, or the sweep.
   */
  ghost predicate LooksAgain(w: World, s: Step, wait: Wait) {
    match wait
    case OnHead(head) =>
      s == CiEvent(head) || s == CiDone(head) || (s.SweepCi? && s.head == head && s.due == CiRows(w.rows, head))
    case OnLead(lead) => s == RunDone(lead) || s == SweepRequest(lead)
  }

  /** Whatever failed before, after such a step every due row that waits for this has a handler coming. */
  lemma LookingAgainRemembers(w: World, s: Step, w': World, wait: Wait)
    requires Next(w, s, w') && LooksAgain(w, s, wait)
    ensures NoneForgotten(w', wait)
  {
    forall id | id in w'.rows && WaitOf(w'.rows[id]) == wait ensures Covered(w', id) {
      assert Covers(w'.tasks[|w.tasks|], id, w'.rows[id]) by {
        assert s.SweepCi? ==> id in CiRows(w.rows, wait.head);
      }
    }
  }

  // ---- what the protocol promises -----------------------------------------

  /**
   * At most one start: in every interleaving, failures included, no row is
   * started twice, a started row is gone from the table, and only authorized
   * reviewers are started.
   */
  lemma StartedAtMostOnce(worlds: seq<World>, steps: seq<Step>, n: nat, id: nat)
    requires IsRun(worlds, steps) && n < |worlds|
    ensures worlds[n].starts[id] <= 1
    ensures id in worlds[n].starts ==>
              id !in worlds[n].rows && id in worlds[n].made && worlds[n].made[id].agent in worlds[n].authorized
  {
    EveryWorldKeeps(worlds, steps, n);
  }

  /** A head never has two rows for one reviewer, however many pushes and releases race. */
  lemma OneRowPerReviewer(worlds: seq<World>, steps: seq<Step>, n: nat, id: nat, id': nat)
    requires IsRun(worlds, steps) && n < |worlds| && id in worlds[n].rows && id' in worlds[n].rows
    requires worlds[n].rows[id].head == worlds[n].rows[id'].head
    requires worlds[n].rows[id].agent == worlds[n].rows[id'].agent
    ensures id == id'
  {
    EveryWorldKeeps(worlds, steps, n);
  }

  predicate AllEnded(w: World) {
    forall k :: 0 <= k < |w.tasks| ==> w.tasks[k] == Done
  }

  lemma EndedIsNotDue(w: World, id: nat)
    requires AllEnded(w) && id in w.rows && w.rows[id].agent in w.authorized && NoneForgotten(w, WaitOf(w.rows[id]))
    ensures !Due(w, id)
  {
    forall k | 0 <= k < |w.tasks| ensures !Covers(w.tasks[k], id, w.rows[id]) {
    }
  }

  /**
   * No lost wake-up: in every interleaving in which no handler failed half way,
   * once all handlers have ended no authorized reviewer's row still waits for
   * CI on a head whose CI is final, or for a run that has finished.
   */
  lemma NoLostWakeUp(worlds: seq<World>, steps: seq<Step>, n: nat, id: nat)
    requires IsRun(worlds, steps) && n < |worlds| && NoFailure(steps, 0, n)
    requires AllEnded(worlds[n]) && id in worlds[n].rows && worlds[n].rows[id].agent in worlds[n].authorized
    ensures match worlds[n].rows[id].reason
            case Ci => worlds[n].rows[id].head !in worlds[n].ciFinal
            case Request(lead) => lead !in worlds[n].finished
  {
    NoneForgottenSince(worlds, steps, 0, n, WaitOf(worlds[n].rows[id]));
    EndedIsNotDue(worlds[n], id);
  }

  /**
   * What the sweep restores: whatever failed before it, once all handlers have
   * ended after it without failing, no authorized reviewer's row still waits
   * for what the sweep looked at and has happened. A notification that is
   * delivered again does the same.
   */
  lemma SweepRestores(worlds: seq<World>, steps: seq<Step>, m: nat, n: nat, id: nat)
    requires IsRun(worlds, steps) && m < n < |worlds| && NoFailure(steps, m, n)
    requires AllEnded(worlds[n]) && id in worlds[n].rows && worlds[n].rows[id].agent in worlds[n].authorized
    requires LooksAgain(worlds[m], steps[m], WaitOf(worlds[n].rows[id]))
    ensures match worlds[n].rows[id].reason
            case Ci => worlds[n].rows[id].head !in worlds[n].ciFinal
            case Request(lead) => lead !in worlds[n].finished
  {
    var wait := WaitOf(worlds[n].rows[id]);
    assert Next(worlds[m], steps[m], worlds[m + 1]);
    LookingAgainRemembers(worlds[m], steps[m], worlds[m + 1], wait);
    NoneForgottenSince(worlds, steps, m + 1, n, wait);
    EndedIsNotDue(worlds[n], id);
  }

  // ---- a failure before the sweep -----------------------------------------

  const NOTHING := Choice(false, false, false, None, false, map[], [], 0)
  const WAITING := map[0 := Row(7, 1, Ci)]

  function Lossy(rows: map<nat, Row>, ciFinal: set<nat>, tasks: seq<Task>): World {
    World(rows, Reviewers(rows), ciFinal, {}, tasks, multiset{}, {1}, {1})
  }

  function LossyWorlds(): seq<World> {
    [Lossy(map[], {}, []),
     Lossy(map[], {}, [PushReadCi(7, {1})]),
     Lossy(map[], {}, [PushInsert(7, {1})]),
     Lossy(WAITING, {}, [PushReadAgain(7, {1})]),
     Lossy(WAITING, {7}, [PushReadAgain(7, {1}), CiFind(7)]),
     Lossy(WAITING, {7}, [Done, CiFind(7)]),
     Lossy(WAITING, {7}, [Done, Done])]
  }

  const LOSSY_STEPS: seq<Step> :=
    [PushEvent(7, {1}), Advance(0, NOTHING.(ciUnfinished := true)), Advance(0, NOTHING.(inserted := WAITING)),
     CiDone(7), Fail(0), Fail(1)]

  lemma LossyStarts()
    ensures Init(LossyWorlds()[0]) && Next(LossyWorlds()[0], LOSSY_STEPS[0], LossyWorlds()[1])
    ensures Next(LossyWorlds()[1], LOSSY_STEPS[1], LossyWorlds()[2])
  {
    assert Reviewers(map[]) == map[];
  }

  lemma LossyInserts()
    ensures Next(LossyWorlds()[2], LOSSY_STEPS[2], LossyWorlds()[3])
  {
    assert 0 in WAITING && WAITING[0].agent == 1;
    assert Reviewers(map[]) == map[] && map[] + WAITING == WAITING && map[] + Reviewers(WAITING) == Reviewers(WAITING);
  }

  lemma LossyFails()
    ensures Next(LossyWorlds()[3], LOSSY_STEPS[3], LossyWorlds()[4])
    ensures Next(LossyWorlds()[4], LOSSY_STEPS[4], LossyWorlds()[5]) && Next(LossyWorlds()[5], LOSSY_STEPS[5], LossyWorlds()[6])
  {
    assert {} + {7} == {7};
  }

  /** The push and CI's notification both fail: CI is final, every handler has ended, and the review waits for the sweep. */
  lemma FailuresLoseWakeUp() returns (worlds: seq<World>, steps: seq<Step>)
    ensures IsRun(worlds, steps) && AllEnded(worlds[|steps|])
    ensures var w := worlds[|steps|]; 0 in w.rows && w.rows[0].agent in w.authorized && Due(w, 0)
  {
    worlds, steps := LossyWorlds(), LOSSY_STEPS;
    LossyStarts();
    LossyInserts();
    LossyFails();
  }
}
