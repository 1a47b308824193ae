/** What holds of every run of the native engine, from how a run may end. */
module EngineLaws {
  import opened Common
  import Sums
  import opened EngineTypes
  import opened OneTurn
  import opened ToolScheduling
  import opened EngineRun

  /** The requests but the wind-down one are ordinary, and the run went on after all of those but the last. */
  lemma {:induction false} Shape(h: Host, agent: Agent, requests: seq<Request>, outcome: Outcome) returns (m: nat)
    requires EndsAs(h, agent, requests, outcome)
    ensures m <= |requests| <= m + 1 && m <= Max(agent.maxTurns, 0)
    ensures forall k :: 0 <= k < m ==> IsOrdinary(h, agent, requests, k)
    ensures forall k :: 0 <= k < m - 1 ==> GoesOn(h, requests, k)
    ensures m < |requests| ==>
              OutOfMoney(h, agent, requests, m) &&
              IsRequest(h, agent, requests, m, WindDownMessages(h, requests, m), false, 0.0)
  {
    var n := |requests|;
    if exists m: nat :: m <= n && WoundDown(h, agent, requests, m, outcome) {
      m :| m <= n && WoundDown(h, agent, requests, m, outcome);
    } else {
      m := n;
    }
  }

  // ---- money --------------------------------------------------------------

  /**
   * Every request was let through the gate: the run's cost so far, which is the
   * sum of its earlier turns, and the padded estimate are together below budget.
   */
  lemma {:induction false} EveryRequestWasGated(h: Host, agent: Agent, requests: seq<Request>, outcome: Outcome, k: nat)
    requires EndsAs(h, agent, requests, outcome) && k < |requests|
    ensures var r := requests[k];
            r.before == TotalOf(requests, k).cost && r.tokens == h.countMessages(r.messages, r.tools) &&
            r.before + WithMargin(InputCost(h, r.tokens, r.ratio)) < agent.budget
  {
    var m := Shape(h, agent, requests, outcome);
    if k < m {
      assert IsOrdinary(h, agent, requests, k);
    }
  }

  /** The share of its input that the k-th turn found cached, at most all; nothing is known before the first turn. */
  function ShareAfter(requests: seq<Request>, k: nat): real
    requires k <= |requests|
  {
    if k == 0 || requests[k - 1].turn.usage.input == 0 then 0.0
    else
      var usage := requests[k - 1].turn.usage;
      if usage.cached > usage.input then 1.0 else usage.cached as real / usage.input as real
  }

  /** So many of the tokens, rounded to the nearest, are that share of them. */
  predicate IsShareOf(cached: nat, tokens: nat, share: real) {
    tokens as real * share - 0.5 < cached as real <= tokens as real * share + 0.5
  }

  /**
   * The gate's estimate: the price of the whole input, with the share that the
   * turn before found cached taken to be cached again, and a tenth on top. The
   * wind-down turn takes nothing to be cached.
   */
  lemma {:induction false} GateIsPadded(h: Host, agent: Agent, requests: seq<Request>, outcome: Outcome, k: nat)
    requires EndsAs(h, agent, requests, outcome) && k < |requests|
    ensures var r := requests[k];
            exists cached: nat ::
              IsShareOf(cached, r.tokens, if r.tools then ShareAfter(requests, k) else 0.0) &&
              r.before + h.price(r.tokens, 0, cached) + h.price(r.tokens, 0, cached) / 10.0 < agent.budget
  {
    var r := requests[k];
    EveryRequestWasGated(h, agent, requests, outcome, k);
    var m := Shape(h, agent, requests, outcome);
    if k < m {
      assert IsOrdinary(h, agent, requests, k);
      EstimateIsPadded(h, r.tokens, requests, k);
    } else {
      assert r.ratio == 0.0 && IsShareOf(CachedInput(r.tokens, 0.0), r.tokens, 0.0);
    }
    var cached := CachedInput(r.tokens, r.ratio);
    assert IsShareOf(cached, r.tokens, if r.tools then ShareAfter(requests, k) else 0.0);
  }

  lemma {:induction false} EstimateIsPadded(h: Host, tokens: nat, requests: seq<Request>, k: nat)
    requires k <= |requests|
    ensures IsShareOf(CachedInput(tokens, RatioBefore(requests, k)), tokens, ShareAfter(requests, k))
  {
    var ratio := RatioBefore(requests, k);
    if k > 0 {
      ShareOf(requests[k - 1].turn.usage);
    }
    var clamped := if ratio < 0.0 then 0.0 else if ratio > 1.0 then 1.0 else ratio;
    assert clamped == ShareAfter(requests, k);
    assert CachedInput(tokens, ratio) == (tokens as real * clamped + 0.5).Floor;
  }

  /**
   * A run that was stopped at its gate could not pay: after the turns it made,
   * the padded estimate of the request it would have sent reaches its budget.
   */
  lemma {:induction false} StopsOnlyForMoney(h: Host, agent: Agent, requests: seq<Request>, outcome: Outcome)
    returns (m: nat, ms: seq<Message>, cached: nat)
    requires EndsAs(h, agent, requests, outcome) && StoppedAtGate(h, agent, requests, outcome)
    ensures m <= |requests| <= m + 1 && (m < |requests| ==> !requests[m].tools)
    ensures |ms| >= 2 && ms[..2] == [System, FirstUser] && Recounts(h, requests, ms, 2, 0, m)
    ensures IsShareOf(cached, h.countMessages(ms, true), ShareAfter(requests, m))
    ensures var price := h.price(h.countMessages(ms, true), 0, cached);
            TotalOf(requests, m).cost + price + price / 10.0 >= agent.budget
  {
    m := |requests|;
    if wound: nat :| wound <= |requests| && WoundDown(h, agent, requests, wound, outcome) &&
                     !(wound > 0 && requests[wound - 1].turn.cut) {
      m := wound;
    } else {
      RefusedEarly(h, agent, requests, outcome);
    }
    ms := Written(h, requests, m);
    WrittenRecounts(h, requests, m);
    EstimateIsPadded(h, h.countMessages(ms, true), requests, m);
    cached := CachedInput(h.countMessages(ms, true), RatioBefore(requests, m));
  }

  lemma {:induction false} RefusedEarly(h: Host, agent: Agent, requests: seq<Request>, outcome: Outcome)
    requires EndsAs(h, agent, requests, outcome) && outcome.Finished? && outcome.status == Refused
    ensures var n := |requests|;
            Proceeds(h, agent, requests, n, n) && TotalOf(requests, n).cost == 0.0 &&
            GateShut(h, agent, Written(h, requests, n), true, RatioBefore(requests, n), 0.0)
  {
    if m: nat :| m <= |requests| && WoundDown(h, agent, requests, m, outcome) {
      WoundDownReports(h, agent, requests, outcome, m);
      assert false;
    }
  }

  lemma SignOfFactor(x: real, b: real)
    requires b > 0.0
    ensures x * b > 0.0 <==> x > 0.0
    ensures x * b >= 0.0 <==> x >= 0.0
  {
    if x > 0.0 {
      assert x * b > 0.0;
    } else if x < 0.0 {
      assert (-x) * b > 0.0;
    }
  }

  lemma ShareOf(usage: Usage)
    ensures RatioAfter(usage) >= 0.0
    ensures usage.input > 0 ==> (RatioAfter(usage) > 1.0 <==> usage.cached > usage.input)
  {
    if usage.input > 0 {
      var a, b := usage.cached as real, usage.input as real;
      var share := a / b;
      assert share * b == a && (share - 1.0) * b == a - b;
      SignOfFactor(share, b);
      SignOfFactor(share - 1.0, b);
    }
  }

  /** The gate before an ordinary turn stopped the run: it was refused, or wound down after a turn that was not cut. */
  ghost predicate StoppedAtGate(h: Host, agent: Agent, requests: seq<Request>, outcome: Outcome) {
    (outcome.Finished? && outcome.status == Refused) ||
    exists m: nat :: m <= |requests| && WoundDown(h, agent, requests, m, outcome) && !(m > 0 && requests[m - 1].turn.cut)
  }

  /**
   * A run reports the usage of all its requests together. It reports as many
   * turns as it made requests, and one more exactly when the gate stopped it.
   */
  lemma {:induction false} ReportsAllUsage(h: Host, agent: Agent, requests: seq<Request>, outcome: Outcome)
    requires EndsAs(h, agent, requests, outcome) && outcome.Finished?
    ensures outcome.usage == TotalOf(requests, |requests|)
    ensures outcome.turns == |requests| + if StoppedAtGate(h, agent, requests, outcome) then 1 else 0
  {
    forall m: nat | m <= |requests| && WoundDown(h, agent, requests, m, outcome)
      ensures outcome.usage == TotalOf(requests, |requests|) && outcome.status != Refused
      ensures outcome.turns == |requests| + if m > 0 && requests[m - 1].turn.cut then 0 else 1
    {
      WoundDownReports(h, agent, requests, outcome, m);
    }
  }

  lemma {:induction false} WoundDownReports(h: Host, agent: Agent, requests: seq<Request>, outcome: Outcome, m: nat)
    requires m <= |requests| && WoundDown(h, agent, requests, m, outcome)
    ensures outcome.Finished? && outcome.usage == TotalOf(requests, |requests|) && outcome.status != Refused
    ensures outcome.turns == |requests| + if m > 0 && requests[m - 1].turn.cut then 0 else 1
  {
  }

  function CostOf(requests: seq<Request>, k: nat): real
    requires k <= |requests|
  {
    if k == 0 then 0.0 else CostOf(requests, k - 1) + requests[k - 1].turn.usage.cost
  }

  /** Every part of the usage adds up over the requests. */
  lemma {:induction false} UsageAddsUp(requests: seq<Request>, k: nat)
    requires k <= |requests|
    ensures var total := TotalOf(requests, k);
            total.input == Sums.Sum(seq(k, i requires 0 <= i < k => requests[i].turn.usage.input)) &&
            total.output == Sums.Sum(seq(k, i requires 0 <= i < k => requests[i].turn.usage.output)) &&
            total.cached == Sums.Sum(seq(k, i requires 0 <= i < k => requests[i].turn.usage.cached)) &&
            total.cacheWrite == Sums.Sum(seq(k, i requires 0 <= i < k => requests[i].turn.usage.cacheWrite)) &&
            total.cost == CostOf(requests, k)
    decreases k
  {
    if k > 0 {
      UsageAddsUp(requests, k - 1);
      ColumnGrows(seq(k, i requires 0 <= i < k => requests[i].turn.usage.input),
                  seq(k - 1, i requires 0 <= i < k - 1 => requests[i].turn.usage.input));
      ColumnGrows(seq(k, i requires 0 <= i < k => requests[i].turn.usage.output),
                  seq(k - 1, i requires 0 <= i < k - 1 => requests[i].turn.usage.output));
      ColumnGrows(seq(k, i requires 0 <= i < k => requests[i].turn.usage.cached),
                  seq(k - 1, i requires 0 <= i < k - 1 => requests[i].turn.usage.cached));
      ColumnGrows(seq(k, i requires 0 <= i < k => requests[i].turn.usage.cacheWrite),
                  seq(k - 1, i requires 0 <= i < k - 1 => requests[i].turn.usage.cacheWrite));
    }
  }

  lemma ColumnGrows(xs: seq<int>, before: seq<int>)
    requires |xs| == |before| + 1 && forall i :: 0 <= i < |before| ==> xs[i] == before[i]
    ensures Sums.Sum(xs) == Sums.Sum(before) + xs[|before|]
  {
    assert xs[..|before|] == before;
  }

  /** At most maxTurns ordinary requests, and one more without tools after them. */
  lemma {:induction false} RequestsAreBounded(h: Host, agent: Agent, requests: seq<Request>, outcome: Outcome)
    requires EndsAs(h, agent, requests, outcome)
    ensures |requests| <= Max(agent.maxTurns, 0) + 1
    ensures forall k :: 0 <= k < |requests| - 1 ==> requests[k].tools
    ensures |requests| > Max(agent.maxTurns, 0) ==> !requests[|requests| - 1].tools
  {
    var m := Shape(h, agent, requests, outcome);
    forall k | 0 <= k < m ensures requests[k].tools {
      assert IsOrdinary(h, agent, requests, k);
    }
  }

  /** A refused run has cost nothing; where every turn costs something, it asked the model nothing. */
  lemma {:induction false} RefusedCostNothing(h: Host, agent: Agent, requests: seq<Request>, outcome: Outcome)
    requires EndsAs(h, agent, requests, outcome) && outcome.Finished? && outcome.status == Refused
    ensures outcome.usage.cost == 0.0
    ensures (forall k :: 0 <= k < |requests| ==> requests[k].turn.usage.cost > 0.0) ==> requests == []
  {
    if forall k :: 0 <= k < |requests| ==> requests[k].turn.usage.cost > 0.0 {
      CostsAddUp(requests, |requests|);
    }
  }

  lemma {:induction false} CostsAddUp(requests: seq<Request>, n: nat)
    requires n <= |requests| && forall k :: 0 <= k < n ==> requests[k].turn.usage.cost > 0.0
    ensures TotalOf(requests, n).cost >= 0.0 && (n > 0 ==> TotalOf(requests, n).cost > 0.0)
    decreases n
  {
    if n > 0 {
      CostsAddUp(requests, n - 1);
    }
  }

  /**
   * Whatever a run costs over its budget, its last turn cost: with prices that
   * are never negative, all turns before the last are below budget together.
   */
  lemma {:induction false} OnlyLastTurnOverspends(h: Host, agent: Agent, requests: seq<Request>, outcome: Outcome)
    requires EndsAs(h, agent, requests, outcome) && requests != []
    requires forall t: nat, o: nat, c: nat :: h.price(t, o, c) >= 0.0
    ensures TotalOf(requests, |requests|).cost < agent.budget + requests[|requests| - 1].turn.usage.cost
  {
    var last := |requests| - 1;
    EveryRequestWasGated(h, agent, requests, outcome, last);
    var r := requests[last];
    assert h.price(r.tokens, 0, CachedInput(r.tokens, r.ratio)) >= 0.0;
  }

  /**
   * A run whose last turn was cut mid-stream, the wind-down turn included, ends
   * below its budget plus the price of the last text it received.
   */
  lemma {:induction false} CutRunStaysClose(h: Host, agent: Agent, requests: seq<Request>, outcome: Outcome)
    requires EndsAs(h, agent, requests, outcome) && requests != [] && requests[|requests| - 1].turn.cut
    requires forall t: nat, o: nat, c: nat :: h.price(t, o, c) >= 0.0
    ensures var last := |requests| - 1;
            var r, events := requests[last], h.stream(last).events;
            exists k: nat :: k < |events| && events[k].Delta? &&
              var cached := CachedInput(r.tokens, r.ratio);
              var without := h.price(r.tokens, OutputTokens(h, events, k), cached);
              r.turn.usage.output == OutputTokens(h, events, k) + DeltaTokens(h, events[k].text) &&
              agent.budget <= TotalOf(requests, |requests|).cost < agent.budget + (r.turn.usage.cost - without)
  {
    var last := |requests| - 1;
    var r := requests[last];
    TurnOf(h, agent, requests, outcome, last);
    EveryRequestWasGated(h, agent, requests, outcome, last);
    assert h.price(r.tokens, 0, CachedInput(r.tokens, r.ratio)) >= 0.0;
    CutStaysClose(h, h.stream(last), r.tokens, r.ratio, r.before, agent.budget, r.turn);
  }

  lemma {:induction false} TurnOf(h: Host, agent: Agent, requests: seq<Request>, outcome: Outcome, k: nat)
    requires EndsAs(h, agent, requests, outcome) && k < |requests|
    ensures IsTurn(h, h.stream(k), requests[k].tokens, requests[k].ratio, requests[k].before, agent.budget,
                   requests[k].turn)
  {
    var m := Shape(h, agent, requests, outcome);
    if k < m {
      assert IsOrdinary(h, agent, requests, k);
    }
  }

  /** The text of the last turn that was cut while tools were allowed. */
  function CutText(requests: seq<Request>, n: nat): string
    requires n <= |requests|
  {
    if n > 0 && requests[n - 1].tools && requests[n - 1].turn.cut then requests[n - 1].turn.text else ""
  }

  /**
   * What each status means: a run succeeds when its last turn answered, with
   * that answer, or at its turn limit; fails when its last turn failed; is out
   * of budget when it was cut or stopped at the gate, and then answers with the
   * wind-down turn's text or else the cut turn's; and is refused when the gate
   * stopped it before it had cost anything.
   */
  lemma {:induction false} HowItEnded(h: Host, agent: Agent, requests: seq<Request>, outcome: Outcome)
    requires EndsAs(h, agent, requests, outcome) && outcome.Finished?
    ensures var n := |requests|;
            match outcome.status
            case Succeeded =>
              (outcome.text == "" && n == Max(agent.maxTurns, 0) &&
               forall k :: 0 <= k < n ==> requests[k].tools && requests[k].turn.calls != [] && !requests[k].turn.cut) ||
              (n > 0 && requests[n - 1].tools && requests[n - 1].turn.calls == [] && !requests[n - 1].turn.failed &&
               !requests[n - 1].turn.cut && outcome.text == requests[n - 1].turn.text)
            case Failed =>
              n > 0 && requests[n - 1].turn.failed &&
              outcome.text == if requests[n - 1].tools then "" else CutText(requests, n - 1)
            case BudgetExhausted =>
              if n > 0 && !requests[n - 1].tools then
                !requests[n - 1].turn.failed &&
                outcome.text == if requests[n - 1].turn.text != "" then requests[n - 1].turn.text else CutText(requests, n - 1)
              else outcome.text == CutText(requests, n) && (CutText(requests, n) == "" || requests[n - 1].turn.cut)
            case Refused => outcome.text == "" && outcome.usage.cost == 0.0 && n < agent.maxTurns
  {
    var n := |requests|;
    if m: nat :| m <= n && WoundDown(h, agent, requests, m, outcome) {
      WoundDownEnd(h, agent, requests, outcome, m);
    } else if n > 0 && Proceeds(h, agent, requests, n, n - 1) && EndsAtTurn(h, requests, n, outcome) {
      assert IsOrdinary(h, agent, requests, n - 1);
    } else {
      forall k | 0 <= k < n ensures requests[k].tools && requests[k].turn.calls != [] && !requests[k].turn.cut {
        assert IsOrdinary(h, agent, requests, k) && GoesOn(h, requests, k);
      }
    }
  }

  lemma {:induction false} WoundDownEnd(h: Host, agent: Agent, requests: seq<Request>, outcome: Outcome, m: nat)
    requires m <= |requests| && WoundDown(h, agent, requests, m, outcome)
    ensures outcome.Finished? && (m > 0 ==> requests[m - 1].tools) && (m < |requests| ==> !requests[m].tools)
    ensures TextSoFar(requests, m) == CutText(requests, m)
    ensures if m == |requests| then outcome.status == BudgetExhausted && outcome.text == CutText(requests, m)
            else
              m + 1 == |requests| &&
              outcome.status == (if requests[m].turn.failed then Failed else BudgetExhausted) &&
              outcome.text == if requests[m].turn.failed || requests[m].turn.text == "" then CutText(requests, m)
                              else requests[m].turn.text
  {
    if m > 0 {
      assert IsOrdinary(h, agent, requests, m - 1);
    }
  }

  /** A run that stopped at its turn limit answers with no text, whatever its turns said beside their tool calls. */
  lemma {:induction false} TurnLimitLosesText(h: Host, agent: Agent, requests: seq<Request>, outcome: Outcome)
    requires EndsAs(h, agent, requests, outcome) && outcome.Finished? && outcome.status == Succeeded
    requires |requests| > 0 && requests[|requests| - 1].turn.calls != []
    ensures outcome.text == "" && |requests| == agent.maxTurns
  {
  }

  /**
   * A turn that was not cut fails exactly when its stream threw with a message
   * or ended without a usage summary; a stream that throws with an empty message
   * passes for a turn that cost nothing.
   */
  lemma {:induction false} FailsIff(h: Host, agent: Agent, requests: seq<Request>, outcome: Outcome, k: nat)
    requires EndsAs(h, agent, requests, outcome) && k < |requests| && !requests[k].turn.cut
    ensures var script, turn := h.stream(k), requests[k].turn;
            (turn.failed <==> match script.ending
                              case Broke(message) => message != ""
                              case Ended => forall i :: 0 <= i < |script.events| ==> !script.events[i].Done?) &&
            (script.ending.Broke? ==> turn.usage == ZERO_USAGE)
  {
    TurnOf(h, agent, requests, outcome, k);
    NoUsageIff(h.stream(k).events, |h.stream(k).events|);
  }

  lemma {:induction false} NoUsageIff(events: seq<Event>, k: nat)
    requires k <= |events|
    ensures UsageOf(events, k).None? <==> forall i :: 0 <= i < k ==> !events[i].Done?
    decreases k
  {
    if k > 0 {
      NoUsageIff(events, k - 1);
    }
  }

  // ---- the transcript -----------------------------------------------------

  /** From i on: an assistant message with tool calls, one result per call in call order, and so on to the end. */
  ghost predicate IsDialogue(ms: seq<Message>, i: nat)
    decreases |ms| - i
  {
    i == |ms| ||
    (i < |ms| && ms[i].Assistant? && ms[i].calls != [] && i + 1 + |ms[i].calls| <= |ms| &&
     Answers(ms, i + 1, ms[i].calls) && IsDialogue(ms, i + 1 + |ms[i].calls|))
  }

  /** From i on stand the results of exactly these calls, in this order. */
  ghost predicate Answers(ms: seq<Message>, i: nat, calls: seq<ToolCall>) {
    i + |calls| <= |ms| &&
    forall j: nat :: j < |calls| ==> IsResultOf(ms[i + j], calls[j])
  }

  predicate IsResultOf(m: Message, call: ToolCall) {
    m.ToolResult? && m.id == call.id && m.name == call.name
  }

  /** What a provider accepts as a conversation. */
  ghost predicate IsConversation(ms: seq<Message>) {
    |ms| >= 2 && ms[0] == System && ms[1] == FirstUser && IsDialogue(ms, 2)
  }

  lemma {:induction false} ResultsAnswer(h: Host, turn: nat, calls: seq<ToolCall>, k: nat)
    requires k <= |calls|
    ensures |ToolMessages(h, turn, calls, k)| == k
    ensures Answers(ToolMessages(h, turn, calls, k), 0, calls[..k])
    decreases k
  {
    if k > 0 {
      ResultsAnswer(h, turn, calls, k - 1);
      var before, ms := ToolMessages(h, turn, calls, k - 1), ToolMessages(h, turn, calls, k);
      forall j: nat | j < k ensures IsResultOf(ms[0 + j], calls[..k][j]) {
        if j < k - 1 {
          assert IsResultOf(before[0 + j], calls[..k - 1][j]);
        }
      }
    }
  }

  /** A dialogue with one exchange more. */
  lemma {:induction false} OneMoreExchange(ms: seq<Message>, i: nat, text: string, calls: seq<ToolCall>,
                                           results: seq<Message>)
    requires i <= |ms| && IsDialogue(ms, i) && calls != []
    requires |results| == |calls| && Answers(results, 0, calls)
    ensures IsDialogue(ms + [Assistant(text, calls)] + results, i)
    decreases |ms| - i
  {
    var all := ms + [Assistant(text, calls)] + results;
    if i == |ms| {
      forall j: nat | j < |calls| ensures IsResultOf(all[i + 1 + j], calls[j]) {
        assert all[i + 1 + j] == results[0 + j] && IsResultOf(results[0 + j], calls[j]);
      }
      assert IsDialogue(all, i + 1 + |calls|);
    } else {
      var these := ms[i].calls;
      OneMoreExchange(ms, i + 1 + |these|, text, calls, results);
      assert all[i] == ms[i];
      forall j: nat | j < |these| ensures IsResultOf(all[i + 1 + j], these[j]) {
        assert all[i + 1 + j] == ms[i + 1 + j] && IsResultOf(ms[i + 1 + j], these[j]);
      }
    }
  }

  lemma {:induction false} WrittenIsConversation(h: Host, requests: seq<Request>, k: nat)
    requires k <= |requests| && forall j :: 0 <= j < k ==> requests[j].turn.calls != []
    ensures IsConversation(Written(h, requests, k))
    decreases k
  {
    if k > 0 {
      var turn := requests[k - 1].turn;
      WrittenIsConversation(h, requests, k - 1);
      ResultsAnswer(h, k, turn.calls, |turn.calls|);
      assert turn.calls[..|turn.calls|] == turn.calls;
      OneMoreExchange(Written(h, requests, k - 1), 2, turn.text, turn.calls,
                      ToolMessages(h, k, turn.calls, |turn.calls|));
    }
  }

  /**
   * At every request the messages are the system's, the user's, and then
   * exchanges of an assistant message with tool calls and exactly its results;
   * the wind-down request has the notice after them.
   */
  lemma {:induction false} EveryRequestIsAConversation(h: Host, agent: Agent, requests: seq<Request>, outcome: Outcome,
                                                       k: nat)
    requires EndsAs(h, agent, requests, outcome) && k < |requests|
    ensures requests[k].tools ==> IsConversation(requests[k].messages)
    ensures !requests[k].tools ==>
              exists ms :: IsConversation(ms) && requests[k].messages == ms + [OutOfBudgetNotice]
  {
    var m := Shape(h, agent, requests, outcome);
    if k < m {
      assert IsOrdinary(h, agent, requests, k);
      CallsBefore(h, requests, m, k);
      WrittenIsConversation(h, requests, k);
    } else {
      var rounds := if m > 0 && requests[m - 1].turn.cut then m - 1 else m;
      if rounds == m && m > 0 {
        assert GoesOn(h, requests, m - 1);
      }
      CallsBefore(h, requests, m, if rounds == m && m > 0 then m - 1 else rounds);
      WrittenIsConversation(h, requests, rounds);
    }
  }

  // ---- what the transcript says -------------------------------------------

  /** From message i on: turn j's answer and what each of its calls came back with, then turn j + 1's, up to turn k. */
  ghost predicate Recounts(h: Host, requests: seq<Request>, ms: seq<Message>, i: nat, j: nat, k: nat)
    requires j <= k <= |requests|
    decreases k - j
  {
    if j == k then i == |ms|
    else
      var turn := requests[j].turn;
      i + 1 + |turn.calls| <= |ms| && ms[i] == Assistant(turn.text, turn.calls) &&
      (forall c: nat :: c < |turn.calls| ==> IsOutcomeOf(h, j + 1, turn.calls[c], c, ms[i + 1 + c])) &&
      Recounts(h, requests, ms, i + 1 + |turn.calls|, j + 1, k)
  }

  /** The message answers the turn's c-th call with what that call, and no other, came back with. */
  predicate IsOutcomeOf(h: Host, turn: nat, call: ToolCall, c: nat, m: Message) {
    m.ToolResult? && m.id == call.id && m.name == call.name && h.settles(turn, c) == Fulfilled(m.content)
  }

  lemma {:induction false} ToolMessagesAnswer(h: Host, turn: nat, calls: seq<ToolCall>, k: nat, c: nat)
    requires AllCameBack(h, turn, calls) && c < k <= |calls|
    ensures |ToolMessages(h, turn, calls, k)| == k && IsOutcomeOf(h, turn, calls[c], c, ToolMessages(h, turn, calls, k)[c])
    decreases k
  {
    if k > 1 {
      ToolMessagesAnswer(h, turn, calls, k - 1, if c < k - 1 then c else 0);
    }
  }

  /** One turn more, at the end. */
  lemma {:induction false} RecountsOneMore(h: Host, requests: seq<Request>, ms: seq<Message>, all: seq<Message>, i: nat,
                                           j: nat, k: nat)
    requires j <= k < |requests| && i <= |ms| && Recounts(h, requests, ms, i, j, k) && GoesOn(h, requests, k)
    requires var turn := requests[k].turn;
             all == ms + [Assistant(turn.text, turn.calls)] + ToolMessages(h, k + 1, turn.calls, |turn.calls|)
    ensures Recounts(h, requests, all, i, j, k + 1)
    decreases k - j
  {
    if j == k {
      var turn := requests[k].turn;
      ToolMessagesAnswer(h, k + 1, turn.calls, |turn.calls|, 0);
      forall c: nat | c < |turn.calls| ensures IsOutcomeOf(h, k + 1, turn.calls[c], c, all[i + 1 + c]) {
        ToolMessagesAnswer(h, k + 1, turn.calls, |turn.calls|, c);
        assert all[i + 1 + c] == ToolMessages(h, k + 1, turn.calls, |turn.calls|)[c];
      }
      assert Recounts(h, requests, all, i + 1 + |turn.calls|, k + 1, k + 1);
    } else {
      var turn := requests[j].turn;
      RecountsOneMore(h, requests, ms, all, i + 1 + |turn.calls|, j + 1, k);
      assert all[i] == ms[i];
      forall c: nat | c < |turn.calls| ensures IsOutcomeOf(h, j + 1, turn.calls[c], c, all[i + 1 + c]) {
        assert all[i + 1 + c] == ms[i + 1 + c] && IsOutcomeOf(h, j + 1, turn.calls[c], c, ms[i + 1 + c]);
      }
    }
  }

  lemma {:induction false} WrittenRecounts(h: Host, requests: seq<Request>, k: nat)
    requires k <= |requests| && forall j :: 0 <= j < k ==> GoesOn(h, requests, j)
    ensures Recounts(h, requests, Written(h, requests, k), 2, 0, k)
    ensures |Written(h, requests, k)| >= 2 && Written(h, requests, k)[..2] == [System, FirstUser]
    decreases k
  {
    if k > 0 {
      WrittenRecounts(h, requests, k - 1);
      RecountsOneMore(h, requests, Written(h, requests, k - 1), Written(h, requests, k), 2, 0, k - 1);
    }
  }

  /**
   * Every request tells the model all that happened: after the system's and the
   * user's message, what each earlier turn said and called and what each of its
   * calls came back with, in order. The wind-down request tells it of all turns
   * whose calls were made, and then that the budget is out.
   */
  lemma {:induction false} EveryRequestTellsAll(h: Host, agent: Agent, requests: seq<Request>, outcome: Outcome, k: nat)
    requires EndsAs(h, agent, requests, outcome) && k < |requests|
    ensures var r := requests[k];
            |r.messages| >= 2 && r.messages[..2] == [System, FirstUser] &&
            if r.tools then Recounts(h, requests, r.messages, 2, 0, k)
            else
              var ms := r.messages[..|r.messages| - 1];
              r.messages == ms + [OutOfBudgetNotice] && |ms| >= 2 &&
              Recounts(h, requests, ms, 2, 0, if k > 0 && requests[k - 1].turn.cut then k - 1 else k)
  {
    var m := Shape(h, agent, requests, outcome);
    if k < m {
      assert IsOrdinary(h, agent, requests, k);
      AllGoOn(h, requests, m, k);
      WrittenRecounts(h, requests, k);
    } else {
      WindDownTellsAll(h, agent, requests, m);
    }
  }

  lemma {:induction false} WindDownTellsAll(h: Host, agent: Agent, requests: seq<Request>, m: nat)
    requires m < |requests| && OutOfMoney(h, agent, requests, m)
    requires IsRequest(h, agent, requests, m, WindDownMessages(h, requests, m), false, 0.0)
    ensures var ms := requests[m].messages[..|requests[m].messages| - 1];
            requests[m].messages == ms + [OutOfBudgetNotice] && |ms| >= 2 && ms[..2] == [System, FirstUser] &&
            Recounts(h, requests, ms, 2, 0, if m > 0 && requests[m - 1].turn.cut then m - 1 else m)
  {
    var rounds := if m > 0 && requests[m - 1].turn.cut then m - 1 else m;
    WrittenRecounts(h, requests, rounds);
    assert requests[m].messages == Written(h, requests, rounds) + [OutOfBudgetNotice];
  }

  lemma {:induction false} AllGoOn(h: Host, requests: seq<Request>, m: nat, k: nat)
    requires m <= |requests| && k <= m && (k < m || m == 0)
    requires forall j :: 0 <= j < m - 1 ==> GoesOn(h, requests, j)
    ensures forall j :: 0 <= j < k ==> GoesOn(h, requests, j)
  {
  }

  lemma {:induction false} CallsBefore(h: Host, requests: seq<Request>, m: nat, k: nat)
    requires m <= |requests| && k <= m && (k < m || m == 0)
    requires forall j :: 0 <= j < m - 1 ==> GoesOn(h, requests, j)
    ensures forall j :: 0 <= j < k ==> requests[j].turn.calls != []
  {
    forall j | 0 <= j < k ensures requests[j].turn.calls != [] {
      assert GoesOn(h, requests, j);
    }
  }
}

/** Runs in which the engine answers otherwise than its description says. */
module EngineStories {
  import opened Common
  import opened EngineTypes
  import opened OneTurn
  import opened ToolScheduling
  import opened EngineRun

  /** A host that streams the same to every request, for nothing, and whose tool calls all come back. */
  function Streaming(script: Script): Host {
    Host((messages: seq<Message>, tools: bool) => 0, (text: string) => 0, 0, (tokens: nat, output: nat, cached: nat) => 0.0,
         (k: nat) => script, (turn: nat, i: nat) => Fulfilled(""), (turn: nat, i: nat) => 1, (name: string) => false)
  }

  const ONE_TURN := Agent(1.0, 1)

  /** The one request of a run of one turn. */
  function Asked(script: Script): Request {
    Request([System, FirstUser], true, 0, 0.0, 0.0, WholeTurn(script))
  }

  lemma {:induction false} AskedIsOrdinary(script: Script)
    ensures IsOrdinary(Streaming(script), ONE_TURN, [Asked(script)], 0)
  {
    var h := Streaming(script);
    assert Written(h, [Asked(script)], 0) == [System, FirstUser];
    forall k: nat ensures !IsCutAt(h, script.events, 0, CachedInput(0, 0.0), 0.0, 1.0, k) {
    }
    assert IsTurn(h, script, 0, 0.0, 0.0, 1.0, WholeTurn(script));
  }

  lemma {:induction false} AnswersAtOnce(h: Host, agent: Agent, requests: seq<Request>)
    requires |requests| == 1 && agent.maxTurns > 0 && IsOrdinary(h, agent, requests, 0)
    requires !requests[0].turn.failed && !requests[0].turn.cut && requests[0].turn.calls == []
    ensures EndsAs(h, agent, requests, Finished(Succeeded, requests[0].turn.text, 1, TotalOf(requests, 1)))
  {
    assert Proceeds(h, agent, requests, 1, 0);
    assert EndsAtTurn(h, requests, 1, Finished(Succeeded, requests[0].turn.text, 1, TotalOf(requests, 1)));
  }

  lemma {:induction false} StopsAtLimit(h: Host, agent: Agent, requests: seq<Request>)
    requires |requests| == 1 == agent.maxTurns && IsOrdinary(h, agent, requests, 0) && GoesOn(h, requests, 0)
    ensures EndsAs(h, agent, requests, Finished(Succeeded, "", 1, TotalOf(requests, 1)))
  {
    assert Proceeds(h, agent, requests, 1, 1);
  }

  lemma {:induction false} FreeTotal(requests: seq<Request>)
    requires |requests| == 1 && requests[0].turn.usage == ZERO_USAGE
    ensures TotalOf(requests, 1) == ZERO_USAGE
  {
    assert TotalOf(requests, 0) == ZERO_USAGE;
  }

  const CALL := ToolCall("id", "tool", "{}")
  const HALF_SAID := Script([Delta("hi"), Called(CALL), Done(ZERO_USAGE)], Ended)
  const BROKEN_OFF := Script([Delta("hi")], Broke(""))

  lemma {:induction false} BrokenOffTurn()
    ensures WholeTurn(BROKEN_OFF) == Turn(ZERO_USAGE, "hi", [], false, false)
  {
    var events := BROKEN_OFF.events;
    assert TextOf(events, 0) == "" && TextOf(events, 1) == "hi" && CallsOf(events, 0) == [] && CallsOf(events, 1) == [];
  }

  lemma {:induction false} HalfSaidTurn()
    ensures WholeTurn(HALF_SAID) == Turn(ZERO_USAGE, "hi", [CALL], false, false)
  {
    var events := HALF_SAID.events;
    assert TextOf(events, 1) == "hi" && TextOf(events, 2) == "hi" && TextOf(events, 3) == "hi";
    assert CallsOf(events, 1) == [] && CallsOf(events, 2) == [CALL] && CallsOf(events, 3) == [CALL];
    assert UsageOf(events, 3) == Some(ZERO_USAGE);
  }

  lemma {:induction false} HalfSaidGoesOn()
    ensures GoesOn(Streaming(HALF_SAID), [Asked(HALF_SAID)], 0)
  {
    HalfSaidTurn();
    assert AllCameBack(Streaming(HALF_SAID), 1, [CALL]);
  }

  /** A turn that says "hi" beside a tool call is a run's last one, and the run answers nothing. */
  lemma {:induction false} TextIsLost() returns (h: Host, requests: seq<Request>)
    ensures EndsAs(h, ONE_TURN, requests, Finished(Succeeded, "", 1, ZERO_USAGE))
    ensures |requests| == 1 && requests[0].turn.text == "hi" && requests[0].turn.calls == [CALL]
  {
    h, requests := Streaming(HALF_SAID), [Asked(HALF_SAID)];
    HalfSaidTurn();
    AskedIsOrdinary(HALF_SAID);
    HalfSaidGoesOn();
    FreeTotal(requests);
    StopsAtLimit(h, ONE_TURN, requests);
  }

  /** A stream that throws with an empty message half way: the run succeeds with the text so far. */
  lemma {:induction false} EmptyMessagePasses() returns (h: Host, requests: seq<Request>)
    ensures EndsAs(h, ONE_TURN, requests, Finished(Succeeded, "hi", 1, ZERO_USAGE))
    ensures |requests| == 1 && h.stream(0).ending == Broke("")
  {
    h, requests := Streaming(BROKEN_OFF), [Asked(BROKEN_OFF)];
    BrokenOffTurn();
    AskedIsOrdinary(BROKEN_OFF);
    FreeTotal(requests);
    AnswersAtOnce(h, ONE_TURN, requests);
  }
}
