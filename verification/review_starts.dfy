/**
 * Exactly one start: what becomes of a deferred review, told by what the looks
 * at the outside said. A review starts only after a look that found its head
 * unmoved and its CI or run done, and a row that is gone was started, or a look
 * said otherwise.
 */
module ReviewStarts {
  import opened Common
  import opened DeferredReviews

  /** What one look said, or what was done to a row from outside. */
  datatype Fact =
    | CiOver(head: nat)
    | Released(id: nat)
    | Swept(id: nat)
    | Open(id: nat)
    | MovedOn(id: nat)
    | Held(id: nat)
    | Cleared(id: nat)
    | Skipped(id: nat)
    | Expired(id: nat)
    | LostInFailure(id: nat)

  /** What a handler at t learns when it is answered c. */
  ghost function Learns(w: World, t: Task, c: Choice): set<Fact> {
    match t
    case PushReadAgain(h, _) => if c.ciUnfinished then {} else {CiOver(h)}
    case FlipReadAgain(h, _) => if c.ciUnfinished then {} else {CiOver(h)}
    case ReleaseHead(h, _, _) => if c.ciUnfinished then {} else {CiOver(h)}
    case CiRead(h, _) => if c.ciPending then {} else {CiOver(h)}
    // These rows waited for a run, and it has finished.
    case ReleaseFind(lead, _) => if lead in w.finished then set id | id in RowsOfLead(w.rows, lead) :: Released(id) else {}
    case ReadHead(_, ids, _) => set id | id in ids :: if c.moved then MovedOn(id) else Open(id)
    case Decide(_, ids, _) =>
      set id | id in ids :: if c.wait.Some? then Held(id) else if c.skip then Skipped(id) else Cleared(id)
    case _ => {}
  }

  ghost function Facts(w: World, s: Step): set<Fact> {
    match s
    case Advance(k, c) => if k < |w.tasks| then Learns(w, w.tasks[k], c) else {}
    case SweepCi(_, due) => set id | id in due :: Swept(id)
    case Expire(ids) => set id | id in ids :: Expired(id)
    case Fail(k) => if k < |w.tasks| then set id | id in Claimed(w.tasks[k]) :: LostInFailure(id) else {}
    case _ => {}
  }

  /** All that was learned in the first n steps. */
  ghost function Known(worlds: seq<World>, steps: seq<Step>, n: nat): set<Fact>
    requires n <= |steps| && n <= |worlds|
  {
    if n == 0 then {} else Known(worlds, steps, n - 1) + Facts(worlds[n - 1], steps[n - 1])
  }

  /**
   * The review may start: CI on its head was not found unfinished, or the sweep
   * took the row up, or the run it waited for had finished and its reviewer
   * does not wait for CI.
   */
  ghost predicate Ready(w: World, known: set<Fact>, id: nat) {
    id in w.made &&
    (CiOver(w.made[id].head) in known || Swept(id) in known ||
     (Released(id) in known && w.made[id].agent !in w.waitsForCi))
  }

  ghost predicate MayStart(w: World, known: set<Fact>, id: nat) {
    Ready(w, known, id) && Open(id) in known
  }

  /** A look at the draft said whether it gets a review or a neutral check. */
  ghost predicate IsDecided(w: World, known: set<Fact>, id: nat, skip: bool) {
    MayStart(w, known, id) && (if skip then Skipped(id) else Cleared(id)) in known
  }

  /** What a handler's being at its step says about the rows it holds. */
  ghost predicate IsInformed(w: World, known: set<Fact>, t: Task) {
    match t
    case PushFind(h, _) => CiOver(h) in known
    case FlipFind(h, _) => CiOver(h) in known
    case ReleaseFind(lead, _) => lead in w.finished
    case ReleaseHead(_, ids, _) => forall id :: id in ids ==> Released(id) in known
    case ReadHead(_, ids, _) => forall id :: id in ids ==> Ready(w, known, id)
    case Drop(ids) => forall id :: id in ids ==> MovedOn(id) in known
    case Decide(_, ids, _) => forall id :: id in ids ==> MayStart(w, known, id)
    case Claim(ids, _, targets, skip) => forall id :: id in ids + targets ==> IsDecided(w, known, id, skip)
    case Launch(targets, skip) => forall id :: id in targets ==> IsDecided(w, known, id, skip)
    case _ => true
  }

  ghost predicate AllInformed(w: World, known: set<Fact>) {
    forall i :: 0 <= i < |w.tasks| ==> IsInformed(w, known, w.tasks[i])
  }

  ghost predicate StartsInformed(w: World, known: set<Fact>) {
    forall id :: id in w.starts ==> IsDecided(w, known, id, false)
  }

  /** The row still waits, or one handler has claimed it, or it was started. */
  ghost predicate IsAlive(w: World, id: nat) {
    id in w.rows || id in w.starts || exists k :: 0 <= k < |w.tasks| && id in Claimed(w.tasks[k])
  }

  /** A look said that the head moved on or that the draft gets no review, or the row expired or was lost in a failure. */
  ghost predicate IsLost(known: set<Fact>, id: nat) {
    MovedOn(id) in known || Skipped(id) in known || Expired(id) in known || LostInFailure(id) in known
  }

  ghost predicate AllAccounted(w: World, known: set<Fact>) {
    forall id :: id in w.made && w.made[id].agent in w.authorized ==> IsAlive(w, id) || IsLost(known, id)
  }

  // ---- learning more ------------------------------------------------------

  /** Rows are for whom they were made for; runs stay finished. */
  ghost predicate KeepsRecords(w: World, w': World) {
    w'.waitsForCi == w.waitsForCi && w'.authorized == w.authorized && w.finished <= w'.finished &&
    forall id :: id in w.made ==> id in w'.made && w'.made[id] == w.made[id]
  }

  lemma StillReady(w: World, w': World, known: set<Fact>, known': set<Fact>, id: nat)
    requires Ready(w, known, id) && KeepsRecords(w, w') && known <= known'
    ensures Ready(w', known', id)
  {
  }

  lemma StillInformed(w: World, w': World, known: set<Fact>, known': set<Fact>, t: Task)
    requires IsInformed(w, known, t) && KeepsRecords(w, w') && known <= known'
    ensures IsInformed(w', known', t)
  {
    forall id | Ready(w, known, id) ensures Ready(w', known', id) {
      StillReady(w, w', known, known', id);
    }
  }

  /** The other handlers stay where they are. */
  ghost predicate OthersStay(w: World, k: nat, w': World) {
    k < |w.tasks| <= |w'.tasks| && forall i :: 0 <= i < |w.tasks| && i != k ==> w'.tasks[i] == w.tasks[i]
  }

  lemma AdvanceKeepsOthers(w: World, k: nat, c: Choice, w': World)
    requires Next(w, Advance(k, c), w')
    ensures OthersStay(w, k, w')
  {
    match w.tasks[k]
    case ReleaseFind(_, _) =>
    case ReleaseHead(_, _, _) =>
    case Claim(_, _, _, _) =>
    case _ => assert |w'.tasks| == |w.tasks|;
  }

  lemma AdvanceKeepsRecords(w: World, k: nat, c: Choice, w': World)
    requires Next(w, Advance(k, c), w')
    ensures KeepsRecords(w, w')
  {
    match w.tasks[k]
    case PushInsert(_, _) =>
    case RequestInsert(_, _, _) =>
    case Claim(_, _, _, _) =>
    case _ => assert w'.made == w.made;
  }

  /** What was learned makes the handler's next step informed: it finds, reads and decides. */
  lemma FindsInformed(w: World, k: nat, c: Choice, w': World, known: set<Fact>)
    requires Next(w, Advance(k, c), w') && Recorded(w) && OwnHead(w, w.tasks[k])
    requires IsInformed(w, known, w.tasks[k])
    requires var t := w.tasks[k];
             t.PushReadAgain? || t.PushFind? || t.FlipReadAgain? || t.FlipFind? || t.CiRead? || t.CheckLead?
    ensures w'.tasks == w.tasks[k := w'.tasks[k]] + [] && IsInformed(w', known + Learns(w, w.tasks[k], c), w'.tasks[k])
  {
  }

  lemma StartsAreInformed(w: World, k: nat, c: Choice, w': World, known: set<Fact>)
    requires Next(w, Advance(k, c), w') && Recorded(w) && OwnHead(w, w.tasks[k])
    requires IsInformed(w, known, w.tasks[k])
    requires var t := w.tasks[k]; t.ReadHead? || t.Decide?
    ensures w'.tasks == w.tasks[k := w'.tasks[k]] + [] && IsInformed(w', known + Learns(w, w.tasks[k], c), w'.tasks[k])
  {
    var t := w.tasks[k];
    forall id | id in t.ids && t.Decide?
      ensures (if c.wait.Some? then Held(id) else if c.skip then Skipped(id) else Cleared(id)) in Learns(w, t, c)
    {
    }
    forall id | id in t.ids && t.ReadHead? ensures (if c.moved then MovedOn(id) else Open(id)) in Learns(w, t, c) {
    }
  }

  lemma ClaimsAreInformed(w: World, k: nat, c: Choice, w': World, known: set<Fact>)
    requires Next(w, Advance(k, c), w') && Recorded(w) && IsInformed(w, known, w.tasks[k]) && w.tasks[k].Claim?
    ensures IsInformed(w', known + Learns(w, w.tasks[k], c), w'.tasks[k])
  {
    var t, t' := w.tasks[k], w'.tasks[k];
    AdvanceKeepsRecords(w, k, c, w');
    assert (t'.Launch? && t'.targets == t.targets) || (t'.Claim? && t'.ids <= t.ids && t'.targets <= t.targets + t.ids);
    var known' := known + Learns(w, t, c);
    forall id | id in t.ids + t.targets ensures IsDecided(w', known', id, t.skip) {
      StillReady(w, w', known, known', id);
    }
  }

  lemma {:induction false} ReleasesAreInformed(w: World, k: nat, c: Choice, w': World, known: set<Fact>)
    requires Next(w, Advance(k, c), w') && Recorded(w) && w.tasks[k].ReleaseFind?
    requires IsInformed(w, known, w.tasks[k])
    ensures w'.tasks == w.tasks[k := Done] + c.spawned &&
            forall j :: 0 <= j < |c.spawned| ==> IsInformed(w', known + Learns(w, w.tasks[k], c), c.spawned[j])
  {
    var lead := w.tasks[k].lead;
    forall j, id | 0 <= j < |c.spawned| && id in c.spawned[j].ids ensures Released(id) in Learns(w, w.tasks[k], c) {
      var ids := set x | x in RowsOfLead(w.rows, lead) && x in w.rows && w.rows[x].head == c.spawned[j].head;
      assert c.spawned[j].ids == ids;
    }
  }

  lemma HeadsAreInformed(w: World, k: nat, c: Choice, w': World, known: set<Fact>) returns (next: Task, spawned: seq<Task>)
    requires Next(w, Advance(k, c), w') && Recorded(w) && w.tasks[k].ReleaseHead? && OwnHead(w, w.tasks[k])
    requires IsInformed(w, known, w.tasks[k])
    ensures w'.tasks == w.tasks[k := next] + spawned && IsInformed(w', known + Learns(w, w.tasks[k], c), next) &&
            forall j :: 0 <= j < |spawned| ==> IsInformed(w', known + Learns(w, w.tasks[k], c), spawned[j])
  {
    var t := w.tasks[k];
    var later := if c.ciUnfinished then CiWaiters(w, t.ids) else {};
    next := if later == {} then Done else FlipToCi(t.head, later);
    spawned := if t.ids == later then [] else [ReadHead(t.head, t.ids - later, t.mode)];
  }

  // ---- every step ---------------------------------------------------------

  /** A handler's step: the others stay informed, and what it became and spawned is. */
  lemma AdvanceInforms(w: World, k: nat, c: Choice, w': World, known: set<Fact>)
    requires Next(w, Advance(k, c), w') && ClaimsApart(w) && AllInformed(w, known)
    ensures AllInformed(w', known + Facts(w, Advance(k, c)))
  {
    var known' := known + Facts(w, Advance(k, c));
    AdvanceKeepsOthers(w, k, c, w');
    AdvanceKeepsRecords(w, k, c, w');
    forall i | 0 <= i < |w'.tasks| ensures IsInformed(w', known', w'.tasks[i]) {
      if i < |w.tasks| && i != k {
        StillInformed(w, w', known, known', w.tasks[i]);
      } else {
        TurnInforms(w, k, c, w', known, i);
      }
    }
  }

  lemma TurnInforms(w: World, k: nat, c: Choice, w': World, known: set<Fact>, i: nat)
    requires Next(w, Advance(k, c), w') && ClaimsApart(w) && AllInformed(w, known)
    requires i < |w'.tasks| && (i == k || i >= |w.tasks|)
    ensures IsInformed(w', known + Learns(w, w.tasks[k], c), w'.tasks[i])
  {
    var t := w.tasks[k];
    assert OwnHead(w, t) && IsInformed(w, known, t);
    if t.Claim? {
      ClaimsAreInformed(w, k, c, w', known);
    } else if t.ReadHead? || t.Decide? {
      StartsAreInformed(w, k, c, w', known);
    } else if t.ReleaseFind? {
      ReleasesAreInformed(w, k, c, w', known);
    } else if t.ReleaseHead? {
      var next, spawned := HeadsAreInformed(w, k, c, w', known);
    } else if t.PushReadAgain? || t.PushFind? || t.FlipReadAgain? || t.FlipFind? || t.CiRead? || t.CheckLead? {
      FindsInformed(w, k, c, w', known);
    } else {
      RestInformed(w, k, c, w', known);
    }
  }

  /** At the other steps there is nothing to be informed of. */
  lemma RestInformed(w: World, k: nat, c: Choice, w': World, known: set<Fact>)
    requires Next(w, Advance(k, c), w')
    requires var t := w.tasks[k];
             !t.Claim? && !t.ReadHead? && !t.Decide? && !t.ReleaseFind? && !t.ReleaseHead? && !t.PushReadAgain? &&
             !t.PushFind? && !t.FlipReadAgain? && !t.FlipFind? && !t.CiRead? && !t.CheckLead?
    ensures |w'.tasks| == |w.tasks| && IsInformed(w', known + Learns(w, w.tasks[k], c), w'.tasks[k])
  {
  }

  lemma StepInforms(w: World, s: Step, w': World, known: set<Fact>)
    requires Next(w, s, w') && ClaimsApart(w) && AllInformed(w, known)
    ensures AllInformed(w', known + Facts(w, s))
  {
    var known' := known + Facts(w, s);
    if s.Advance? {
      AdvanceInforms(w, s.k, s.c, w', known);
    } else {
      forall i | 0 <= i < |w'.tasks| ensures IsInformed(w', known', w'.tasks[i]) {
        if i < |w.tasks| && w'.tasks[i] == w.tasks[i] {
          StillInformed(w, w', known, known', w.tasks[i]);
        }
      }
    }
  }

  /** A start is of rows that were claimed, by a handler that may start them. */
  lemma StepStarts(w: World, s: Step, w': World, known: set<Fact>)
    requires Next(w, s, w') && ClaimsApart(w) && AllInformed(w, known) && StartsInformed(w, known)
    ensures StartsInformed(w', known + Facts(w, s))
  {
    var known' := known + Facts(w, s);
    forall id | id in w'.starts ensures IsDecided(w', known', id, false) {
      if id in w.starts {
        StepKeepsRecords(w, s, w');
        StillReady(w, w', known, known', id);
      } else {
        NewStart(w, s, w', id);
        assert IsInformed(w, known, w.tasks[s.k]);
        StillReady(w, w', known, known', id);
      }
    }
  }

  lemma StepKeepsRecords(w: World, s: Step, w': World)
    requires Next(w, s, w')
    ensures KeepsRecords(w, w')
  {
    if s.Advance? {
      AdvanceKeepsRecords(w, s.k, s.c, w');
    }
  }

  lemma NewStart(w: World, s: Step, w': World, id: nat)
    requires Next(w, s, w') && id in w'.starts && id !in w.starts
    ensures s.Advance? && w.tasks[s.k].Launch? && id in w.tasks[s.k].targets && !w.tasks[s.k].skip && KeepsRecords(w, w')
  {
  }

  // ---- no row is lost without a reason ------------------------------------

  /** A row that a handler removes was dropped, for a moved head, or claimed by it. */
  lemma RemovedRow(w: World, k: nat, c: Choice, w': World, known: set<Fact>, id: nat)
    requires Next(w, Advance(k, c), w') && IsInformed(w, known, w.tasks[k])
    requires id in w.rows && id !in w'.rows && id in w.made && w.made[id].agent in w.authorized
    ensures id in Claimed(w'.tasks[k]) || MovedOn(id) in known
  {
  }

  /** A claim that a handler gives up was started, or got a neutral check. */
  lemma GivenUpClaim(w: World, k: nat, c: Choice, w': World, known: set<Fact>, id: nat)
    requires Next(w, Advance(k, c), w') && IsInformed(w, known, w.tasks[k])
    requires id in Claimed(w.tasks[k])
    ensures id in Claimed(w'.tasks[k]) || id in w'.starts || Skipped(id) in known
  {
  }

  lemma StartsStay(w: World, k: nat, c: Choice, w': World, id: nat)
    requires Next(w, Advance(k, c), w') && id in w.starts
    ensures id in w'.starts
  {
  }

  lemma AdvanceAccounts(w: World, k: nat, c: Choice, w': World, known: set<Fact>, id: nat)
    requires Next(w, Advance(k, c), w') && AllInformed(w, known)
    requires id in w.made && w.made[id].agent in w.authorized && IsAlive(w, id)
    ensures IsAlive(w', id) || IsLost(known, id)
  {
    assert IsInformed(w, known, w.tasks[k]);
    AdvanceKeepsOthers(w, k, c, w');
    if id in w.starts {
      StartsStay(w, k, c, w', id);
    } else if id in w.rows {
      if id !in w'.rows {
        RemovedRow(w, k, c, w', known, id);
      }
    } else {
      var i :| 0 <= i < |w.tasks| && id in Claimed(w.tasks[i]);
      if i == k {
        GivenUpClaim(w, k, c, w', known, id);
      } else {
        assert w'.tasks[i] == w.tasks[i];
      }
    }
  }

  lemma StepAccounts(w: World, s: Step, w': World, known: set<Fact>)
    requires Next(w, s, w') && ClaimsApart(w) && AllInformed(w, known) && AllAccounted(w, known)
    ensures AllAccounted(w', known + Facts(w, s))
  {
    var known' := known + Facts(w, s);
    forall id | id in w'.made && w'.made[id].agent in w'.authorized ensures IsAlive(w', id) || IsLost(known', id) {
      if id !in w.made {
        assert id in w'.rows;
      } else if IsAlive(w, id) {
        if s.Advance? {
          AdvanceAccounts(w, s.k, s.c, w', known, id);
        } else {
          OutsideAccounts(w, s, w', id);
        }
      }
    }
  }

  lemma OutsideAccounts(w: World, s: Step, w': World, id: nat)
    requires Next(w, s, w') && !s.Advance? && id in w.made && IsAlive(w, id)
    ensures IsAlive(w', id) || IsLost(Facts(w, s), id)
  {
    if id in w.rows {
      if s.Expire? && id in s.ids {
        assert Expired(id) in Facts(w, s);
      }
    } else if id !in w.starts {
      var i :| 0 <= i < |w.tasks| && id in Claimed(w.tasks[i]);
      if s.Fail? && i == s.k {
        assert LostInFailure(id) in Facts(w, s);
      } else {
        assert w'.tasks[i] == w.tasks[i];
      }
    }
  }

  lemma StepKeepsInformed(w: World, s: Step, w': World, known: set<Fact>)
    requires Next(w, s, w') && Inv(w) && AllInformed(w, known) && StartsInformed(w, known) && AllAccounted(w, known)
    ensures var known' := known + Facts(w, s);
            AllInformed(w', known') && StartsInformed(w', known') && AllAccounted(w', known')
  {
    StepInforms(w, s, w', known);
    StepStarts(w, s, w', known);
    StepAccounts(w, s, w', known);
  }

  ghost predicate Informed(w: World, known: set<Fact>) {
    AllInformed(w, known) && StartsInformed(w, known) && AllAccounted(w, known)
  }

  lemma NextInformed(worlds: seq<World>, steps: seq<Step>, n: nat)
    requires IsRun(worlds, steps) && n < |steps| && Informed(worlds[n], Known(worlds, steps, n))
    ensures Informed(worlds[n + 1], Known(worlds, steps, n + 1))
  {
    EveryWorldKeeps(worlds, steps, n);
    assert Next(worlds[n], steps[n], worlds[n + 1]);
    StepKeepsInformed(worlds[n], steps[n], worlds[n + 1], Known(worlds, steps, n));
  }

  lemma {:induction false} EveryWorldInformed(worlds: seq<World>, steps: seq<Step>, n: nat)
    requires IsRun(worlds, steps) && n < |worlds|
    ensures Informed(worlds[n], Known(worlds, steps, n))
    decreases n
  {
    if n == 0 {
      assert Init(worlds[0]);
    } else {
      EveryWorldInformed(worlds, steps, n - 1);
      NextInformed(worlds, steps, n - 1);
    }
  }

  // ---- what the protocol promises -----------------------------------------

  /**
   * A review is only started after a look that found its head unmoved, one that
   * said that the draft is neither held for a run nor to be skipped, and after one that found CI on it not unfinished, or the run it waited for
   * finished where its reviewer does not wait for CI, or by the sweep.
   */
  lemma StartedOnlyWhenDue(worlds: seq<World>, steps: seq<Step>, n: nat, id: nat)
    requires IsRun(worlds, steps) && n < |worlds| && id in worlds[n].starts
    ensures var w, known := worlds[n], Known(worlds, steps, n);
            Open(id) in known && Cleared(id) in known && id in w.made &&
            (CiOver(w.made[id].head) in known || Swept(id) in known ||
             (Released(id) in known && w.made[id].agent !in w.waitsForCi))
  {
    EveryWorldInformed(worlds, steps, n);
  }

  /**
   * Every authorized reviewer's row ever inserted still waits, or is claimed by
   * one handler, or was started once; or a look said that its head moved on or
   * its draft gets no review, or it expired or was lost in a failure.
   */
  lemma EveryRowIsAccountedFor(worlds: seq<World>, steps: seq<Step>, n: nat, id: nat)
    requires IsRun(worlds, steps) && n < |worlds|
    requires id in worlds[n].made && worlds[n].made[id].agent in worlds[n].authorized
    ensures var w, known := worlds[n], Known(worlds, steps, n);
            id in w.rows || (exists k :: 0 <= k < |w.tasks| && id in Claimed(w.tasks[k])) || w.starts[id] == 1 ||
            MovedOn(id) in known || Skipped(id) in known || Expired(id) in known || LostInFailure(id) in known
  {
    EveryWorldInformed(worlds, steps, n);
    StartedAtMostOnce(worlds, steps, n, id);
    assert IsAlive(worlds[n], id) || IsLost(Known(worlds, steps, n), id);
  }

  /**
   * Exactly once: when all handlers have ended and none failed, an authorized
   * reviewer's row for which no look said that the head moved on or that there
   * is nothing to review, and which did not expire, was started exactly once,
   * unless it still waits for what has not happened yet.
   */
  lemma StartedExactlyOnce(worlds: seq<World>, steps: seq<Step>, n: nat, id: nat)
    requires IsRun(worlds, steps) && n < |worlds| && NoFailure(steps, 0, n) && AllEnded(worlds[n])
    requires id in worlds[n].made && worlds[n].made[id].agent in worlds[n].authorized
    requires var known := Known(worlds, steps, n);
             MovedOn(id) !in known && Skipped(id) !in known && Expired(id) !in known
    ensures var w := worlds[n];
            if id in w.rows then
              match w.rows[id].reason
              case Ci => w.rows[id].head !in w.ciFinal
              case Request(lead) => lead !in w.finished
            else w.starts[id] == 1
  {
    EveryRowIsAccountedFor(worlds, steps, n, id);
    NothingLostWithoutFailure(worlds, steps, n, id);
    EveryWorldKeeps(worlds, steps, n);
    if id in worlds[n].rows {
      NoLostWakeUp(worlds, steps, n, id);
    }
  }

  lemma {:induction false} NothingLostWithoutFailure(worlds: seq<World>, steps: seq<Step>, n: nat, id: nat)
    requires n <= |steps| && n <= |worlds| && NoFailure(steps, 0, n)
    ensures LostInFailure(id) !in Known(worlds, steps, n)
    decreases n
  {
    if n > 0 {
      NothingLostWithoutFailure(worlds, steps, n - 1, id);
      assert !steps[n - 1].Fail?;
    }
  }

  // ---- nobody is left out -------------------------------------------------

  ghost predicate HasRow(w: World, head: nat, agent: nat) {
    exists id :: id in w.made && w.made[id] == Reviewer(head, agent)
  }

  lemma InsertReaches(w: World, k: nat, c: Choice, w': World, agent: nat)
    requires Next(w, Advance(k, c), w') && Recorded(w)
    requires var t := w.tasks[k]; (t.PushInsert? || t.RequestInsert?) && agent in t.agents
    ensures HasRow(w', w.tasks[k].head, agent)
  {
    var head := w.tasks[k].head;
    if id :| id in c.inserted && c.inserted[id].agent == agent {
      assert w'.made[id] == Reviewer(head, agent);
    } else {
      var id :| id in w.rows && w.rows[id].head == head && w.rows[id].agent == agent;
      AdvanceKeepsRecords(w, k, c, w');
      assert w'.made[id] == Reviewer(head, agent);
    }
  }

  /** From a deferral on, every reviewer it was for has a row on record, of which the laws above tell what becomes. */
  lemma {:induction false} DeferredReviewersHaveRows(worlds: seq<World>, steps: seq<Step>, m: nat, n: nat, agent: nat)
    requires IsRun(worlds, steps) && m < n < |worlds| && steps[m].Advance? && steps[m].k < |worlds[m].tasks|
    requires var t := worlds[m].tasks[steps[m].k]; (t.PushInsert? || t.RequestInsert?) && agent in t.agents
    ensures HasRow(worlds[n], worlds[m].tasks[steps[m].k].head, agent)
    decreases n
  {
    var head := worlds[m].tasks[steps[m].k].head;
    assert Next(worlds[n - 1], steps[n - 1], worlds[n]);
    if n == m + 1 {
      EveryWorldKeeps(worlds, steps, m);
      InsertReaches(worlds[m], steps[m].k, steps[m].c, worlds[n], agent);
    } else {
      DeferredReviewersHaveRows(worlds, steps, m, n - 1, agent);
      StepKeepsRecords(worlds[n - 1], steps[n - 1], worlds[n]);
      var id :| id in worlds[n - 1].made && worlds[n - 1].made[id] == Reviewer(head, agent);
      assert worlds[n].made[id] == Reviewer(head, agent);
    }
  }

  // ---- the sweep is the last attempt --------------------------------------

  /** The row is gone, or a handler of the sweep has it, or one that drops or holds it. */
  ghost predicate InSweep(w: World, id: nat) {
    id !in w.rows ||
    exists k :: 0 <= k < |w.tasks| && IsSweeping(w.tasks[k], id)
  }

  predicate IsSweeping(t: Task, id: nat) {
    (t.Drop? && id in t.ids) ||
    ((t.ReadHead? || t.Decide? || t.Claim?) && t.mode == FromSweep && id in t.ids)
  }

  /** The sweeping handler goes on with the row, or removes it, or was told to hold it for a run. */
  lemma SweepingTurn(w: World, k: nat, c: Choice, w': World, id: nat)
    requires Next(w, Advance(k, c), w') && IsSweeping(w.tasks[k], id) && id in w'.rows
    ensures IsSweeping(w'.tasks[k], id) || Held(id) in Learns(w, w.tasks[k], c)
  {
  }

  lemma RowsNeverComeBack(w: World, s: Step, w': World, id: nat)
    requires Next(w, s, w') && id in w.made && id !in w.rows
    ensures id in w'.made && id !in w'.rows
  {
    StepKeepsRecords(w, s, w');
  }

  lemma StepSweeps(w: World, s: Step, w': World, id: nat)
    requires Next(w, s, w') && !s.Fail? && id in w.made && InSweep(w, id)
    ensures InSweep(w', id) || Held(id) in Facts(w, s)
  {
    if id !in w.rows {
      RowsNeverComeBack(w, s, w', id);
    } else if id in w'.rows {
      var i :| 0 <= i < |w.tasks| && IsSweeping(w.tasks[i], id);
      if s.Advance? {
        AdvanceKeepsOthers(w, s.k, s.c, w');
        if i == s.k {
          SweepingTurn(w, s.k, s.c, w', id);
        }
      }
      assert i < |w'.tasks|;
      assert IsSweeping(w'.tasks[i], id) || Held(id) in Facts(w, s);
    }
  }

  lemma {:induction false} SweptSince(worlds: seq<World>, steps: seq<Step>, m: nat, n: nat, id: nat)
    requires IsRun(worlds, steps) && m <= n < |worlds| && NoFailure(steps, m, n)
    requires id in worlds[m].made && InSweep(worlds[m], id)
    ensures id in worlds[n].made && (InSweep(worlds[n], id) || Held(id) in Known(worlds, steps, n))
    decreases n
  {
    if m < n {
      SweptSince(worlds, steps, m, n - 1, id);
      assert Next(worlds[n - 1], steps[n - 1], worlds[n]);
      StepKeepsRecords(worlds[n - 1], steps[n - 1], worlds[n]);
      if InSweep(worlds[n - 1], id) {
        StepSweeps(worlds[n - 1], steps[n - 1], worlds[n], id);
      }
    }
  }

  /**
   * The sweep is a row's last attempt, whoever's it is: once all handlers have
   * ended after it without failing, every row it took is gone, unless a look
   * said that the row is held for a run.
   */
  lemma SweptRowsAreTaken(worlds: seq<World>, steps: seq<Step>, m: nat, n: nat, id: nat)
    requires IsRun(worlds, steps) && m < n < |worlds| && NoFailure(steps, m, n) && AllEnded(worlds[n])
    requires steps[m].SweepCi? && id in steps[m].due
    ensures id !in worlds[n].rows || Held(id) in Known(worlds, steps, n)
  {
    EveryWorldKeeps(worlds, steps, m);
    assert Next(worlds[m], steps[m], worlds[m + 1]);
    assert IsSweeping(worlds[m + 1].tasks[|worlds[m].tasks|], id);
    SweptSince(worlds, steps, m + 1, n, id);
  }

  /** Until then an unauthorized reviewer's row stays: only a sweep claims it, and a moved head drops it. */
  lemma UnauthorizedWaits(worlds: seq<World>, steps: seq<Step>, n: nat, id: nat)
    requires IsRun(worlds, steps) && n < |steps| && id in worlds[n].rows && id !in worlds[n + 1].rows
    requires worlds[n].rows[id].agent !in worlds[n].authorized && !steps[n].Expire?
    ensures steps[n].Advance? && steps[n].k < |worlds[n].tasks|
    ensures var t := worlds[n].tasks[steps[n].k];
            (t.Claim? && t.mode == FromSweep) || (t.Drop? && MovedOn(id) in Known(worlds, steps, n))
  {
    EveryWorldInformed(worlds, steps, n);
    EveryWorldKeeps(worlds, steps, n);
    assert Next(worlds[n], steps[n], worlds[n + 1]);
    RemovedUnauthorized(worlds[n], steps[n], worlds[n + 1], Known(worlds, steps, n), id);
  }

  lemma RemovedUnauthorized(w: World, s: Step, w': World, known: set<Fact>, id: nat)
    requires Next(w, s, w') && Recorded(w) && AllInformed(w, known) && id in w.rows && id !in w'.rows
    requires w.rows[id].agent !in w.authorized && !s.Expire?
    ensures s.Advance? && s.k < |w.tasks|
    ensures var t := w.tasks[s.k]; (t.Claim? && t.mode == FromSweep) || (t.Drop? && MovedOn(id) in known)
  {
    if s.Advance? {
      assert IsInformed(w, known, w.tasks[s.k]);
    }
  }
}
