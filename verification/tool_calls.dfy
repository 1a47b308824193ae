/** One turn's tool calls: groups, order, and who wins when calls fail (runToolCalls in src/core/engine-native.ts). */
module ToolScheduling {
  import opened Common
  import opened EngineTypes

  /** Results in call order, or the call whose rejection is thrown on. */
  datatype Results = Returned(values: seq<string>) | Threw(index: nat, lost: bool)

  predicate Accepted(h: Host, calls: seq<ToolCall>, i: nat) {
    i < |calls| && h.accepts(calls[i].name)
  }

  /** Calls i to j are all accepted. */
  predicate AllAccepted(h: Host, calls: seq<ToolCall>, i: nat, j: nat) {
    forall k :: i <= k <= j ==> Accepted(h, calls, k)
  }

  /** No group holds both call i - 1 and call i. */
  predicate IsBoundary(h: Host, calls: seq<ToolCall>, i: nat) {
    i == 0 || !(Accepted(h, calls, i - 1) && Accepted(h, calls, i))
  }

  predicate IsRejection(s: Settled) { !s.Fulfilled? }

  /** When each started call started and settled, on one clock. */
  datatype Times = Times(started: seq<nat>, settled: seq<nat>)

  /**
   * Calls start in call order, and one is still running when a later one starts
   * exactly when they and all calls between them are accepted: the groups are
   * the maximal stretches of accepted calls, one after the other.
   */
  ghost predicate InOrder(h: Host, calls: seq<ToolCall>, times: Times) {
    |times.started| == |times.settled| &&
    (forall i :: 0 <= i < |times.started| ==> times.started[i] < times.settled[i]) &&
    (forall i, j :: 0 <= i < j < |times.started| ==>
       times.started[i] < times.started[j] &&
       (times.started[j] < times.settled[i] <==> AllAccepted(h, calls, i, j)))
  }

  /** All times so far are before the clock. */
  ghost predicate Before(times: Times, clock: nat) {
    (forall i :: 0 <= i < |times.started| ==> times.started[i] < clock) &&
    (forall i :: 0 <= i < |times.settled| ==> times.settled[i] < clock)
  }

  /** How a turn's calls end when the first m of them were started. */
  ghost predicate EndsWell(h: Host, turn: nat, calls: seq<ToolCall>, m: nat, r: Results) {
    match r
    case Returned(values) =>
      m == |calls| && |values| == |calls| &&
      forall i :: 0 <= i < |calls| ==> h.settles(turn, i) == Fulfilled(values[i])
    case Threw(index, lost) =>
      m <= |calls| && index < m && IsBoundary(h, calls, m) && AllAcceptedFrom(h, calls, index, m) &&
      // It is the first loss of ownership in its group, or the first rejection where there is none.
      (lost <==> h.settles(turn, index).OwnershipLost?) && IsRejection(h.settles(turn, index)) &&
      (forall i: nat :: i < index && !(lost && AllAccepted(h, calls, i, index)) ==> !IsRejection(h.settles(turn, i))) &&
      (forall i: nat :: i < index ==> !h.settles(turn, i).OwnershipLost?) &&
      (!lost ==> forall i: nat :: i < m ==> !h.settles(turn, i).OwnershipLost?)
  }

  /** The group of the call at index runs up to call m. */
  ghost predicate AllAcceptedFrom(h: Host, calls: seq<ToolCall>, index: nat, m: nat) {
    m == index + 1 || (m > 0 && AllAccepted(h, calls, index, m - 1))
  }

  /** Where the stretch of accepted calls from index on ends. */
  method StretchEnd(h: Host, calls: seq<ToolCall>, index: nat) returns (end: nat)
    requires index <= |calls|
    ensures index <= end <= |calls| && (end > index ==> AllAccepted(h, calls, index, end - 1))
    ensures !Accepted(h, calls, end)
  {
    end := index;
    while end < |calls| && h.accepts(calls[end].name)
      invariant index <= end <= |calls|
      invariant end > index ==> AllAccepted(h, calls, index, end - 1)
    {
      end := end + 1;
    }
  }

  /** One call on its own: started, then settled. */
  method RunAlone(h: Host, turn: nat, calls: seq<ToolCall>, index: nat, times: Times, clock: nat)
    returns (times': Times, clock': nat)
    requires index < |calls| && |times.started| == index && IsBoundary(h, calls, index)
    requires InOrder(h, calls, times) && Before(times, clock)
    ensures |times'.started| == index + 1
    ensures InOrder(h, calls, times') && Before(times', clock')
  {
    times' := Times(times.started + [clock], times.settled + [clock + 1 + h.takes(turn, index)]);
    clock' := clock + 2 + h.takes(turn, index);
    forall i | 0 <= i < index ensures !AllAccepted(h, calls, i, index) {
      SplitAt(h, calls, i, index, index);
    }
  }

  /** A boundary on the way keeps two calls out of one group. */
  lemma SplitAt(h: Host, calls: seq<ToolCall>, i: nat, b: nat, j: nat)
    requires i < b <= j && IsBoundary(h, calls, b)
    ensures !AllAccepted(h, calls, i, j)
  {
    assert !Accepted(h, calls, b - 1) || !Accepted(h, calls, b);
  }

  /** A batch: all its calls are started in one pass, and then they settle, each in its own time. */
  method RunTogether(h: Host, turn: nat, calls: seq<ToolCall>, index: nat, end: nat, times: Times, clock: nat)
    returns (times': Times, clock': nat)
    requires index < end <= |calls| && |times.started| == index && IsBoundary(h, calls, index)
    requires AllAccepted(h, calls, index, end - 1)
    requires InOrder(h, calls, times) && Before(times, clock)
    ensures |times'.started| == end
    ensures InOrder(h, calls, times') && Before(times', clock')
  {
    var started, settled, last := times.started, times.settled, clock + (end - index);
    var k := index;
    while k < end
      invariant index <= k <= end && |started| == k && |settled| == k && last >= clock + (end - index)
      invariant forall i :: 0 <= i < index ==> started[i] == times.started[i] && settled[i] == times.settled[i]
      invariant forall i :: index <= i < k ==> started[i] == clock + (i - index)
      invariant forall i :: index <= i < k ==> clock + (end - index) <= settled[i] <= last
    {
      started := started + [clock + (k - index)];
      settled := settled + [clock + (end - index) + h.takes(turn, k)];
      last := Max(last, clock + (end - index) + h.takes(turn, k));
      k := k + 1;
    }
    times', clock' := Times(started, settled), last + 1;
    forall i, j | 0 <= i < j < end
      ensures started[i] < started[j] && (started[j] < settled[i] <==> AllAccepted(h, calls, i, j))
    {
      if i < index <= j {
        SplitAt(h, calls, i, index, j);
      } else if j < index {
        assert times.started[i] < times.started[j];
      }
    }
  }

  /** The rejection a group throws on, if any: its first ownership loss, else its first rejection. */
  method ThrownBy(h: Host, turn: nat, index: nat, end: nat) returns (thrown: Option<nat>)
    requires index <= end
    ensures thrown.None? ==> forall i :: index <= i < end ==> !IsRejection(h.settles(turn, i))
    ensures thrown.Some? ==> index <= thrown.value < end && IsRejection(h.settles(turn, thrown.value))
    ensures thrown.Some? ==> forall i :: index <= i < thrown.value ==> !h.settles(turn, i).OwnershipLost?
    ensures thrown.Some? && !h.settles(turn, thrown.value).OwnershipLost? ==>
              (forall i :: index <= i < end ==> !h.settles(turn, i).OwnershipLost?) &&
              (forall i :: index <= i < thrown.value ==> !IsRejection(h.settles(turn, i)))
  {
    thrown := None;
    for i := index to end
      invariant thrown.None? ==> forall k :: index <= k < i ==> !IsRejection(h.settles(turn, k))
      invariant thrown.Some? ==> index <= thrown.value < i && IsRejection(h.settles(turn, thrown.value))
      invariant thrown.Some? ==> forall k :: index <= k < thrown.value ==> !h.settles(turn, k).OwnershipLost?
      invariant thrown.Some? && !h.settles(turn, thrown.value).OwnershipLost? ==>
                  (forall k :: index <= k < i ==> !h.settles(turn, k).OwnershipLost?) &&
                  (forall k :: index <= k < thrown.value ==> !IsRejection(h.settles(turn, k)))
    {
      if h.settles(turn, i).OwnershipLost? && (thrown.None? || !h.settles(turn, thrown.value).OwnershipLost?) {
        thrown := Some(i);
      } else if IsRejection(h.settles(turn, i)) && thrown.None? {
        thrown := Some(i);
      }
    }
  }

  method RunToolCalls(h: Host, turn: nat, calls: seq<ToolCall>) returns (r: Results, times: Times)
    ensures InOrder(h, calls, times)
    ensures EndsWell(h, turn, calls, |times.started|, r)
  {
    times := Times([], []);
    var values: seq<string> := [];
    var index, clock := 0, 0;
    while index < |calls|
      invariant 0 <= index <= |calls| && |times.started| == index && |values| == index
      invariant IsBoundary(h, calls, index)
      invariant InOrder(h, calls, times) && Before(times, clock)
      invariant forall i :: 0 <= i < index ==> h.settles(turn, i) == Fulfilled(values[i])
      decreases |calls| - index
    {
      var end := StretchEnd(h, calls, index);
      if end - index < 2 {
        times, clock := RunAlone(h, turn, calls, index, times, clock);
        match h.settles(turn, index) {
          case Fulfilled(value) => values := values + [value];
          case Rejected => return Threw(index, false), times;
          case OwnershipLost => return Threw(index, true), times;
        }
        index := index + 1;
      } else {
        times, clock := RunTogether(h, turn, calls, index, end, times, clock);
        var thrown := ThrownBy(h, turn, index, end);
        if thrown.Some? {
          return Threw(thrown.value, h.settles(turn, thrown.value).OwnershipLost?), times;
        }
        ghost var before := values;
        values := values + seq(end - index, i requires 0 <= i < end - index => ValueOf(h.settles(turn, index + i)));
        forall i | 0 <= i < end ensures h.settles(turn, i) == Fulfilled(values[i]) {
          assert values[i] == if i < index then before[i] else ValueOf(h.settles(turn, i));
        }
        index := end;
      }
    }
    r := Returned(values);
  }

  function ValueOf(s: Settled): string {
    if s.Fulfilled? then s.value else ""
  }

  /** A call of a later group starts only after every call of the groups before it has settled. */
  lemma GroupsDoNotOverlap(h: Host, calls: seq<ToolCall>, times: Times, i: nat, b: nat, j: nat)
    requires InOrder(h, calls, times) && i < b <= j < |times.started| && IsBoundary(h, calls, b)
    ensures times.settled[i] <= times.started[j]
  {
    SplitAt(h, calls, i, b, j);
  }
}
