/**
 * Overrun top-ups of one coding run (src/core/budget-topup.ts): its reserved
 * grant, its limit, its proxy session and its budget events, updated one step
 * at a time. Amounts are whole micro-dollars, so rounding down a share of the
 * base is integer division.
 */
module BudgetTopUp {
  import opened Common
  import opened BudgetGroups
  import opened EffectiveBudgets

  datatype Session = Session(active: bool, budget: nat, exhausted: bool)

  /** The rows a top-up reads and writes. */
  datatype Rows = Rows(reserved: nat, base: Option<nat>, limit: Option<nat>, status: Status,
                       session: Option<Session>, refusals: nat)

  /** The proxy session's totals: spent, held by requests in flight, and the largest hold so far. */
  datatype Totals = Totals(spent: nat, held: nat, maxHold: nat)

  /** What the caller is told; near asks for the next poll to come soon. */
  datatype Outcome = NotNeeded(near: bool) | Granted | Unavailable | Closed

  /** Whether the run may still ask: it has a limit above its grant, is in flight with an active session, was never refused. */
  predicate IsOpen(r: Rows) {
    r.limit.Some? && r.reserved + MIN_RESERVATION <= r.limit.value && r.status != Terminal &&
    r.session.Some? && r.session.value.active && !r.session.value.exhausted && r.refusals == 0
  }

  function BaseOf(r: Rows): nat {
    if r.base.Some? then r.base.value else r.reserved
  }

  /** Within its headroom of its grant: two of its largest holds, or a fifth of its base if more. */
  predicate IsClose(r: Rows, t: Totals) {
    5 * (r.reserved - t.spent - t.held) <= Max(10 * t.maxHold, BaseOf(r))
  }

  /** Within twice that headroom: near enough that the next poll should come soon. */
  predicate IsNear(r: Rows, t: Totals) {
    5 * (r.reserved - t.spent - t.held) <= 2 * Max(10 * t.maxHold, BaseOf(r))
  }

  /** The caller should ask again soon: it was told so, or granted. */
  predicate AsksSoon(outcome: Outcome) {
    outcome == Granted || outcome == NotNeeded(true)
  }

  function StepOf(r: Rows, t: Totals): nat {
    Max(BaseOf(r) / 10, t.maxHold)
  }

  /** One step, at most what the limit and the room leave. */
  function GrantAmount(r: Rows, t: Totals, room: Room): int
    requires r.limit.Some?
  {
    var wanted := Min(StepOf(r, t), r.limit.value - r.reserved);
    match room
    case Unlimited => wanted
    case Room(left, _) => Min(wanted, left)
  }

  /** What one grantOnce transaction does to the rows. */
  function Grant(r: Rows, t: Totals, room: Room): (Rows, Outcome) {
    if !IsOpen(r) then (r, Closed)
    else if !IsClose(r, t) then (r, NotNeeded(IsNear(r, t)))
    else
      var amount := GrantAmount(r, t, room);
      if amount < MIN_RESERVATION then (r.(refusals := r.refusals + 1), Unavailable)
      else
        var granted := Min(r.limit.value, r.reserved + amount);
        (r.(reserved := granted, session := Some(r.session.value.(budget := granted))), Granted)
  }

  class CodingRunRows {
    var reserved: nat
    var base: Option<nat>
    var limit: Option<nat>
    var status: Status
    var session: Option<Session>
    var refusals: nat

    function Read(): Rows
      reads this
    {
      Rows(reserved, base, limit, status, session, refusals)
    }

    constructor (rows: Rows)
      ensures Read() == rows
    {
      reserved, base, limit := rows.reserved, rows.base, rows.limit;
      status, session, refusals := rows.status, rows.session, rows.refusals;
    }

    /** grantOnce, under the group dispatch lock: re-reads, then raises reservation and session together, or refuses. */
    method GrantOnce(t: Totals, room: Room) returns (outcome: Outcome)
      modifies this
      ensures (Read(), outcome) == Grant(old(Read()), t, room)
    {
      if limit.None? || reserved + MIN_RESERVATION > limit.value {
        return Closed;
      }
      if status == Terminal || session.None? || !session.value.active || session.value.exhausted || refusals > 0 {
        return Closed;
      }
      var spare := reserved - t.spent - t.held;
      if 5 * spare > Max(10 * t.maxHold, BaseOf(Read())) {
        return NotNeeded(5 * spare <= 2 * Max(10 * t.maxHold, BaseOf(Read())));
      }
      var step := Max(BaseOf(Read()) / 10, t.maxHold);
      var amount := Min(step, limit.value - reserved);
      if room.Room? && room.left < amount {
        amount := room.left;
      }
      if amount < MIN_RESERVATION {
        refusals := refusals + 1;
        return Unavailable;
      }
      reserved := Min(limit.value, reserved + amount);
      if session.value.active {
        session := Some(session.value.(budget := reserved));
      }
      return Granted;
    }

    /**
     * topUpCodingBudget: an unlocked look first, at rows that others may have
     * changed when the locked one comes; a conflict changes nothing and asks to
     * be asked again soon.
     */
    method TopUp(seen: Rows, before: Totals, conflict: bool, t: Totals, room: Room) returns (outcome: Outcome)
      modifies this
      ensures !IsOpen(seen) ==> outcome == Closed && Read() == old(Read())
      ensures IsOpen(seen) && !IsClose(seen, before) ==>
                outcome == NotNeeded(IsNear(seen, before)) && Read() == old(Read())
      ensures IsOpen(seen) && IsClose(seen, before) && conflict ==>
                outcome == NotNeeded(true) && Read() == old(Read())
      ensures IsOpen(seen) && IsClose(seen, before) && !conflict ==> (Read(), outcome) == Grant(old(Read()), t, room)
    {
      if !IsOpen(seen) {
        return Closed;
      }
      if !IsClose(seen, before) {
        return NotNeeded(IsNear(seen, before));
      }
      if conflict {
        return NotNeeded(true);
      }
      outcome := GrantOnce(t, room);
    }
  }

  // ---- one grant ----------------------------------------------------------

  /** A run is left alone exactly while it has room for more than two requests like its largest, and for a fifth of its base. */
  lemma LeftAloneIff(r: Rows, t: Totals)
    ensures var left := r.reserved - t.spent - t.held;
            var base := match r.base
                        case Some(amount) => amount
                        case None => r.reserved;
            (!IsClose(r, t) <==> left > 2 * t.maxHold && left as real > base as real / 5.0) &&
            (!IsNear(r, t) <==> left > 4 * t.maxHold && left as real > 2.0 * (base as real / 5.0))
  {
    var left := r.reserved - t.spent - t.held;
    assert left as real > BaseOf(r) as real / 5.0 <==> 5 * left > BaseOf(r);
    assert left as real > 2.0 * (BaseOf(r) as real / 5.0) <==> 5 * left > 2 * BaseOf(r);
  }

  /**
   * A grant is a whole step, enough for another request like the largest and
   * at least a tenth of the base rounded down, unless the limit or the room
   * stops it; then it is all that they leave.
   */
  lemma GrantIsWholeStep(r: Rows, t: Totals, room: Room)
    requires Grant(r, t, room).1 == Granted
    ensures var r' := Grant(r, t, room).0;
            var amount := r'.reserved - r.reserved;
            (amount >= t.maxHold && 10 * amount > BaseOf(r) - 10) || r'.reserved == r.limit.value ||
            (room.Room? && amount == room.left)
  {
  }

  /** A grant raises by at least one micro-dollar, at most the room and at most one step, and only a close run is granted. */
  lemma GrantRaises(r: Rows, t: Totals, room: Room)
    requires Grant(r, t, room).1 == Granted
    ensures var r' := Grant(r, t, room).0;
            r.reserved < r'.reserved <= r.limit.value && r'.reserved - r.reserved <= StepOf(r, t) &&
            (room.Room? ==> r'.reserved - r.reserved <= room.left) &&
            IsClose(r, t) && r'.session.value.budget == r'.reserved
  {
  }

  /** An open run is told to ask again soon exactly when it is near its grant and was not refused. */
  lemma AsksSoonIff(r: Rows, t: Totals, room: Room)
    requires IsOpen(r)
    ensures AsksSoon(Grant(r, t, room).1) <==> IsNear(r, t) && Grant(r, t, room).1 != Unavailable
  {
  }

  /** A run close to its grant with a step to take is refused exactly when the room is gone. */
  lemma RefusedIff(r: Rows, t: Totals, room: Room)
    requires IsOpen(r) && IsClose(r, t) && StepOf(r, t) > 0
    ensures Grant(r, t, room).1 == Unavailable <==> room.Room? && room.left < MIN_RESERVATION
  {
  }

  // ---- a whole run --------------------------------------------------------

  /** One change to the rows: a top-up, or the environment opening or closing the run's session or ending the run. */
  datatype Event = Ask(totals: Totals, room: Room) | OpenSession | Finish | CloseSession | ExhaustSession

  function After(r: Rows, e: Event): Rows {
    match e
    case Ask(t, room) => Grant(r, t, room).0
    // A run has one session, opened at its reservation.
    case OpenSession => if r.session.None? then r.(session := Some(Session(true, r.reserved, false))) else r
    case Finish => r.(status := Terminal)
    case CloseSession => if r.session.Some? then r.(session := Some(r.session.value.(active := false))) else r
    case ExhaustSession => if r.session.Some? then r.(session := Some(r.session.value.(exhausted := true))) else r
  }

  function AfterAll(r: Rows, events: seq<Event>): Rows
    decreases |events|
  {
    if events == [] then r else After(AfterAll(r, events[..|events| - 1]), events[|events| - 1])
  }

  function IsGrant(r: Rows, e: Event): bool {
    e.Ask? && Grant(r, e.totals, e.room).1 == Granted
  }

  /** How many of the events were grants. */
  function GrantCount(r: Rows, events: seq<Event>): nat
    decreases |events|
  {
    if events == [] then 0
    else
      var n := |events| - 1;
      GrantCount(r, events[..n]) + if IsGrant(AfterAll(r, events[..n]), events[n]) then 1 else 0
  }

  /** As dispatch leaves the rows: the base reserved, the limit above it, no refusal, and any session at the reservation. */
  predicate Dispatched(r: Rows) {
    r.base == Some(r.reserved) && (r.limit.Some? ==> r.reserved < r.limit.value) && r.refusals == 0 &&
    (r.session.Some? ==> r.session.value.budget == r.reserved)
  }

  /**
   * Over any number of polls and whatever the environment does: the grant
   * stays between the base and the limit and is what the session enforces, at
   * most one refusal is recorded, and each grant takes at least one
   * micro-dollar of the distance to the limit.
   */
  lemma {:induction false} LifecycleHolds(r: Rows, events: seq<Event>)
    requires Dispatched(r)
    ensures var q := AfterAll(r, events);
            q.base == r.base && q.limit == r.limit && q.refusals <= 1 &&
            r.reserved + GrantCount(r, events) <= q.reserved &&
            (if r.limit.Some? then q.reserved <= r.limit.value else q.reserved == r.reserved) &&
            (q.session.Some? ==> q.session.value.budget == q.reserved)
    decreases |events|
  {
    if events != [] {
      LifecycleHolds(r, events[..|events| - 1]);
    }
  }

  /** So the number of grants is bounded by the overrun the limit allows. */
  lemma GrantsAreBounded(r: Rows, events: seq<Event>)
    requires Dispatched(r) && r.limit.Some?
    ensures GrantCount(r, events) <= r.limit.value - r.reserved
  {
    LifecycleHolds(r, events);
  }

  /** Grants only ever add: between any two moments the grant does not shrink. */
  lemma {:induction false} GrantsOnlyIncrease(r: Rows, events: seq<Event>, k: nat)
    requires k <= |events|
    ensures AfterAll(r, events[..k]).reserved <= AfterAll(r, events).reserved
    decreases |events|
  {
    if k == |events| {
      assert events[..k] == events;
    } else {
      var n := |events| - 1;
      GrantsOnlyIncrease(r, events[..n], k);
      assert events[..n][..k] == events[..k];
    }
  }

  /** After a refusal the grant never moves again and no second refusal is recorded. */
  lemma {:induction false} RefusedForGood(r: Rows, events: seq<Event>, k: nat)
    requires k <= |events| && AfterAll(r, events[..k]).refusals > 0
    ensures AfterAll(r, events).reserved == AfterAll(r, events[..k]).reserved
    ensures AfterAll(r, events).refusals == AfterAll(r, events[..k]).refusals
    decreases |events|
  {
    if k == |events| {
      assert events[..k] == events;
    } else {
      var n := |events| - 1;
      assert events[..n][..k] == events[..k];
      RefusedForGood(r, events[..n], k);
      RefusedStays(AfterAll(r, events[..n]), events[n]);
    }
  }

  lemma RefusedStays(r: Rows, e: Event)
    requires r.refusals > 0
    ensures After(r, e).reserved == r.reserved && After(r, e).refusals == r.refusals
  {
  }

  /** From dispatch on: a run that opens its session and comes close to its grant is granted a step, if there is room. */
  lemma DispatchedRunIsGranted(r: Rows, t: Totals, room: Room)
    requires Dispatched(r) && r.session.None? && r.limit.Some? && r.status != Terminal
    requires IsClose(r, t) && StepOf(r, t) > 0 && (room.Room? ==> room.left > 0)
    ensures GrantCount(r, [OpenSession, Ask(t, room)]) == 1
    ensures AfterAll(r, [OpenSession, Ask(t, room)]).reserved > r.reserved
  {
    var events := [OpenSession, Ask(t, room)];
    var ready := After(r, OpenSession);
    assert events[..1] == [OpenSession] && events[..1][..0] == [];
    assert AfterAll(r, events[..1]) == ready;
    assert IsOpen(ready) && IsClose(ready, t);
    assert IsGrant(ready, events[1]);
    assert GrantCount(r, events[..1]) == 0;
  }
}
