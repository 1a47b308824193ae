/** The turn loop, its gate, and the wind-down turn (NativeEngine in src/core/engine-native.ts). */
module EngineRun {
  import opened Common
  import opened EngineTypes
  import opened OneTurn
  import opened ToolScheduling

  datatype Status = Succeeded | Refused | BudgetExhausted | Failed

  /** A run ends with a result, or is thrown out of by a tool call. */
  datatype Outcome = Finished(status: Status, text: string, turns: int, usage: Usage) | ThrownOut(lost: bool)

  /** The names of a run's durable steps. */
  datatype Step = Estimate(turn: nat) | Llm(turn: nat) | Tool(turn: nat, index: nat) | WindDownEstimate | WindDownLlm

  /** One request to the model: what was sent, what the run had cost before, and what came of it. */
  datatype Request = Request(messages: seq<Message>, tools: bool, tokens: nat, ratio: real, before: real, turn: Turn)

  /** The usage of the first k requests together. */
  function TotalOf(requests: seq<Request>, k: nat): Usage
    requires k <= |requests|
  {
    if k == 0 then ZERO_USAGE else Plus(TotalOf(requests, k - 1), requests[k - 1].turn.usage)
  }

  // ---- the transcript -----------------------------------------------------

  /** The results of the first k calls of a turn, in call order. */
  function ToolMessages(h: Host, turn: nat, calls: seq<ToolCall>, k: nat): seq<Message>
    requires k <= |calls|
  {
    if k == 0 then []
    else
      ToolMessages(h, turn, calls, k - 1) +
      [ToolResult(calls[k - 1].id, calls[k - 1].name, ValueOf(h.settles(turn, k - 1)))]
  }

  /** The messages after k turns that called tools. */
  function Written(h: Host, requests: seq<Request>, k: nat): seq<Message>
    requires k <= |requests|
  {
    if k == 0 then [System, FirstUser]
    else
      var turn := requests[k - 1].turn;
      Written(h, requests, k - 1) + [Assistant(turn.text, turn.calls)] + ToolMessages(h, k, turn.calls, |turn.calls|)
  }

  /** The share of the input that the last turn found cached. */
  function RatioAfter(usage: Usage): real {
    if usage.input > 0 then usage.cached as real / usage.input as real else 0.0
  }

  function RatioBefore(requests: seq<Request>, k: nat): real
    requires k <= |requests|
  {
    if k == 0 then 0.0 else RatioAfter(requests[k - 1].turn.usage)
  }

  // ---- what every request satisfies ---------------------------------------

  /** The gate before the next turn: is the run's cost with the padded estimate over its budget? */
  predicate GateShut(h: Host, agent: Agent, messages: seq<Message>, tools: bool, ratio: real, before: real) {
    IsOverBudget(before + WithMargin(InputCost(h, h.countMessages(messages, tools), ratio)), agent.budget)
  }

  /** Request k was let through the gate with exactly this transcript, and its turn is what the host streams. */
  ghost predicate IsRequest(h: Host, agent: Agent, requests: seq<Request>, k: nat, messages: seq<Message>, tools: bool,
                            ratio: real)
    requires k < |requests|
  {
    var r := requests[k];
    r.messages == messages && r.tools == tools && r.ratio == ratio && r.tokens == h.countMessages(messages, tools) &&
    r.before == TotalOf(requests, k).cost && !GateShut(h, agent, messages, tools, ratio, r.before) &&
    IsTurn(h, h.stream(k), r.tokens, ratio, r.before, agent.budget, r.turn)
  }

  ghost predicate IsOrdinary(h: Host, agent: Agent, requests: seq<Request>, k: nat)
    requires k < |requests|
  {
    IsRequest(h, agent, requests, k, Written(h, requests, k), true, RatioBefore(requests, k))
  }

  ghost predicate AllCameBack(h: Host, turn: nat, calls: seq<ToolCall>) {
    forall i: nat :: i < |calls| ==> h.settles(turn, i).Fulfilled?
  }

  /** The run goes on after a turn that called tools, when every call came back. */
  ghost predicate GoesOn(h: Host, requests: seq<Request>, k: nat)
    requires k < |requests|
  {
    var turn := requests[k].turn;
    !turn.failed && !turn.cut && turn.calls != [] &&
    AllCameBack(h, k + 1, turn.calls)
  }

  /** The first m requests are ordinary turns, and the run went on after each of the first `on` of them. */
  ghost predicate Proceeds(h: Host, agent: Agent, requests: seq<Request>, m: nat, on: nat) {
    on <= m <= |requests| && m <= Max(agent.maxTurns, 0) &&
    (forall k :: 0 <= k < m ==> IsOrdinary(h, agent, requests, k)) &&
    (forall k :: 0 <= k < on ==> GoesOn(h, requests, k))
  }

  // ---- how a run ends -----------------------------------------------------

  /** The run stopped for money after m turns: at the gate, or because the last of them was cut. */
  ghost predicate OutOfMoney(h: Host, agent: Agent, requests: seq<Request>, m: nat) {
    if m > 0 && m <= |requests| && requests[m - 1].turn.cut then
      Proceeds(h, agent, requests, m, m - 1) && !requests[m - 1].turn.failed
    else
      Proceeds(h, agent, requests, m, m) && m < agent.maxTurns && TotalOf(requests, m).cost != 0.0 &&
      GateShut(h, agent, Written(h, requests, m), true, RatioBefore(requests, m), TotalOf(requests, m).cost)
  }

  /** What the wind-down turn is asked: the completed turns, then the notice. */
  function WindDownMessages(h: Host, requests: seq<Request>, m: nat): seq<Message>
    requires m <= |requests|
  {
    Written(h, requests, if m > 0 && requests[m - 1].turn.cut then m - 1 else m) + [OutOfBudgetNotice]
  }

  /** The text to fall back on, and the turns counted, when the run stopped for money after m of them. */
  function TextSoFar(requests: seq<Request>, m: nat): string
    requires m <= |requests|
  {
    if m > 0 && requests[m - 1].turn.cut then requests[m - 1].turn.text else ""
  }

  function TurnsSoFar(requests: seq<Request>, m: nat): nat
    requires m <= |requests|
  {
    if m > 0 && requests[m - 1].turn.cut then m else m + 1
  }

  ghost predicate WoundDown(h: Host, agent: Agent, requests: seq<Request>, m: nat, outcome: Outcome)
    requires m <= |requests|
  {
    var asked := WindDownMessages(h, requests, m);
    OutOfMoney(h, agent, requests, m) &&
    if |requests| == m then
      GateShut(h, agent, asked, false, 0.0, TotalOf(requests, m).cost) &&
      outcome == Finished(BudgetExhausted, TextSoFar(requests, m), TurnsSoFar(requests, m), TotalOf(requests, m))
    else
      |requests| == m + 1 && IsRequest(h, agent, requests, m, asked, false, 0.0) &&
      var turn := requests[m].turn;
      outcome == Finished(if turn.failed then Failed else BudgetExhausted,
                          if turn.failed || turn.text == "" then TextSoFar(requests, m) else turn.text,
                          TurnsSoFar(requests, m) + 1, TotalOf(requests, m + 1))
  }

  /** How a run may end after these requests. */
  ghost predicate EndsAs(h: Host, agent: Agent, requests: seq<Request>, outcome: Outcome) {
    var n := |requests|;
    || (Proceeds(h, agent, requests, n, n) && n == Max(agent.maxTurns, 0) &&
        outcome == Finished(Succeeded, "", n, TotalOf(requests, n)))
    || (Proceeds(h, agent, requests, n, n) && n < agent.maxTurns && TotalOf(requests, n).cost == 0.0 &&
        GateShut(h, agent, Written(h, requests, n), true, RatioBefore(requests, n), 0.0) &&
        outcome == Finished(Refused, "", n + 1, TotalOf(requests, n)))
    || (n > 0 && Proceeds(h, agent, requests, n, n - 1) && EndsAtTurn(h, requests, n, outcome))
    || (exists m: nat :: m <= n && WoundDown(h, agent, requests, m, outcome))
  }

  /** The last turn failed, answered, or called a tool that threw. */
  ghost predicate EndsAtTurn(h: Host, requests: seq<Request>, n: nat, outcome: Outcome)
    requires 0 < n <= |requests|
  {
    var turn := requests[n - 1].turn;
    if turn.failed then outcome == Finished(Failed, "", n, TotalOf(requests, n))
    else if turn.cut then false
    else if turn.calls == [] then outcome == Finished(Succeeded, turn.text, n, TotalOf(requests, n))
    else outcome.ThrownOut? && exists m: nat, i: nat :: EndsWell(h, n, turn.calls, m, Threw(i, outcome.lost))
  }

  // ---- the steps ----------------------------------------------------------

  /** These step names are pairwise distinct, and all belong to turns before t. */
  ghost predicate StepsBefore(steps: seq<Step>, t: nat) {
    NoDuplicates(steps) &&
    forall i :: 0 <= i < |steps| ==> (steps[i].Estimate? || steps[i].Llm? || steps[i].Tool?) && steps[i].turn < t
  }

  function ToolSteps(turn: nat, m: nat): seq<Step> {
    seq(m, i requires 0 <= i < m => Tool(turn, i))
  }

  lemma {:induction false} TurnSteps(steps: seq<Step>, t: nat, m: nat)
    requires StepsBefore(steps, t)
    ensures StepsBefore(steps + [Estimate(t)], t + 1)
    ensures StepsBefore((steps + [Estimate(t)]) + [Llm(t)], t + 1)
    ensures StepsBefore(((steps + [Estimate(t)]) + [Llm(t)]) + ToolSteps(t, m), t + 1)
  {
  }

  lemma {:induction false} WindDownSteps(steps: seq<Step>, t: nat)
    requires StepsBefore(steps, t)
    ensures NoDuplicates(steps + [WindDownEstimate])
    ensures NoDuplicates(steps + [WindDownEstimate, WindDownLlm])
  {
  }

  // ---- the loop -----------------------------------------------------------

  /** Adding a request leaves what was said about the earlier ones. */
  lemma {:induction false} EarlierStay(h: Host, requests: seq<Request>, r: Request, k: nat)
    requires k <= |requests|
    ensures TotalOf(requests + [r], k) == TotalOf(requests, k)
    ensures Written(h, requests + [r], k) == Written(h, requests, k)
    ensures RatioBefore(requests + [r], k) == RatioBefore(requests, k)
    decreases k
  {
    if k > 0 {
      EarlierStay(h, requests, r, k - 1);
    }
  }

  lemma {:induction false} StillProceeds(h: Host, agent: Agent, requests: seq<Request>, r: Request, m: nat)
    requires Proceeds(h, agent, requests, m, m)
    ensures Proceeds(h, agent, requests + [r], m, m)
  {
    var all := requests + [r];
    forall k | 0 <= k < m ensures IsOrdinary(h, agent, all, k) && GoesOn(h, all, k) {
      EarlierStay(h, requests, r, k);
      assert all[k] == requests[k] && IsOrdinary(h, agent, requests, k) && GoesOn(h, requests, k);
    }
  }

  /** One more ordinary turn, let through the gate. */
  lemma {:induction false} OneMoreTurn(h: Host, agent: Agent, requests: seq<Request>, r: Request)
    requires Proceeds(h, agent, requests, |requests|, |requests|) && |requests| < agent.maxTurns
    requires r.messages == Written(h, requests, |requests|) && r.tools && r.ratio == RatioBefore(requests, |requests|)
    requires r.tokens == h.countMessages(r.messages, true) && r.before == TotalOf(requests, |requests|).cost
    requires !GateShut(h, agent, r.messages, true, r.ratio, r.before)
    requires IsTurn(h, h.stream(|requests|), r.tokens, r.ratio, r.before, agent.budget, r.turn)
    ensures Proceeds(h, agent, requests + [r], |requests| + 1, |requests|)
    ensures TotalOf(requests + [r], |requests| + 1) == Plus(TotalOf(requests, |requests|), r.turn.usage)
  {
    var n := |requests|;
    StillProceeds(h, agent, requests, r, n);
    EarlierStay(h, requests, r, n);
    assert IsOrdinary(h, agent, requests + [r], n);
  }

  lemma {:induction false} Completed(h: Host, agent: Agent, requests: seq<Request>, values: seq<string>)
    requires |requests| > 0 && Proceeds(h, agent, requests, |requests|, |requests| - 1)
    requires var turn := requests[|requests| - 1].turn;
             !turn.failed && !turn.cut && turn.calls != [] &&
             EndsWell(h, |requests|, turn.calls, |turn.calls|, Returned(values))
    ensures Proceeds(h, agent, requests, |requests|, |requests|)
  {
    assert GoesOn(h, requests, |requests| - 1);
  }

  /** Every model request of a run, what came of them, the steps it issued, and how it ended. */
  method Run(h: Host, agent: Agent) returns (outcome: Outcome, requests: seq<Request>, steps: seq<Step>)
    ensures EndsAs(h, agent, requests, outcome)
    ensures NoDuplicates(steps)
  {
    var messages := [System, FirstUser];
    var cumulative, lastText, turns, lastCacheRatio := ZERO_USAGE, "", 0, 0.0;
    requests, steps := [], [];
    while true
      invariant turns == |requests| && Proceeds(h, agent, requests, turns, turns) && lastText == ""
      invariant messages == Written(h, requests, turns) && cumulative == TotalOf(requests, turns)
      invariant lastCacheRatio == RatioBefore(requests, turns)
      invariant StepsBefore(steps, turns + 1)
      decreases agent.maxTurns - turns
    {
      ghost var stepsBefore := steps;
      turns := turns + 1;
      if turns > agent.maxTurns {
        outcome := Finished(Succeeded, lastText, turns - 1, cumulative);
        return;
      }
      steps := steps + [Estimate(turns)];
      TurnSteps(stepsBefore, turns, 0);
      var tokens := h.countMessages(messages, true);
      var inputCost := InputCost(h, tokens, lastCacheRatio);
      var projected := cumulative.cost + WithMargin(inputCost);
      if IsOverBudget(projected, agent.budget) {
        if cumulative.cost == 0.0 {
          outcome := Finished(Refused, "", turns, cumulative);
          return;
        }
        assert turns > 1 ==> GoesOn(h, requests, turns - 2);
        outcome, requests, steps := WindDown(h, agent, messages, cumulative, turns, lastText, requests, steps, turns - 1);
        return;
      }
      var turn;
      turn, requests := Ask(h, agent, messages, tokens, lastCacheRatio, cumulative, requests);
      steps := steps + [Llm(turns)];
      if turn.failed {
        outcome := Finished(Failed, lastText, turns, Plus(cumulative, turn.usage));
        assert EndsAtTurn(h, requests, turns, outcome);
        return;
      }
      cumulative := Plus(cumulative, turn.usage);
      lastCacheRatio := RatioAfter(turn.usage);
      if turn.cut {
        var text := if turn.text != "" then turn.text else lastText;
        outcome, requests, steps := WindDown(h, agent, messages, cumulative, turns, text, requests, steps, turns);
        return;
      }
      if turn.calls == [] {
        lastText := turn.text;
        outcome := Finished(Succeeded, lastText, turns, cumulative);
        assert EndsAtTurn(h, requests, turns, outcome);
        return;
      }
      var lost, started;
      lost, started, messages := CallTools(h, agent, messages, turn, requests);
      steps := steps + ToolSteps(turns, started);
      TurnSteps(stepsBefore, turns, started);
      if lost.Some? {
        outcome := ThrownOut(lost.value);
        return;
      }
    }
  }

  /** One model turn, after the gate has let it through. */
  method Ask(h: Host, agent: Agent, messages: seq<Message>, tokens: nat, ratio: real, cumulative: Usage,
             requests: seq<Request>)
    returns (turn: Turn, requests': seq<Request>)
    requires var n := |requests|;
             Proceeds(h, agent, requests, n, n) && n < agent.maxTurns && messages == Written(h, requests, n) &&
             ratio == RatioBefore(requests, n) && cumulative == TotalOf(requests, n) &&
             tokens == h.countMessages(messages, true) && !GateShut(h, agent, messages, true, ratio, cumulative.cost)
    ensures var n := |requests|;
            |requests'| == n + 1 && requests'[n].turn == turn && Proceeds(h, agent, requests', n + 1, n) &&
            TotalOf(requests', n + 1) == Plus(cumulative, turn.usage) && Written(h, requests', n) == messages
  {
    turn := RunOneTurn(h, h.stream(|requests|), tokens, ratio, cumulative.cost, agent.budget);
    var request := Request(messages, true, tokens, ratio, cumulative.cost, turn);
    requests' := requests + [request];
    OneMoreTurn(h, agent, requests, request);
    EarlierStay(h, requests, request, |requests|);
  }

  /** The tool calls of the last turn and, when all came back, their results in the transcript. */
  method CallTools(h: Host, agent: Agent, messages: seq<Message>, turn: Turn, requests: seq<Request>)
    returns (lost: Option<bool>, started: nat, messages': seq<Message>)
    requires var n := |requests|;
             n > 0 && Proceeds(h, agent, requests, n, n - 1) && requests[n - 1].turn == turn &&
             !turn.failed && !turn.cut && turn.calls != [] && messages == Written(h, requests, n - 1)
    ensures lost.None? ==>
              Proceeds(h, agent, requests, |requests|, |requests|) && messages' == Written(h, requests, |requests|)
    ensures lost.Some? ==> EndsAs(h, agent, requests, ThrownOut(lost.value))
  {
    var n := |requests|;
    var results, times := RunToolCalls(h, n, turn.calls);
    started, messages' := |times.started|, messages;
    if results.Threw? {
      lost := Some(results.lost);
      assert EndsWell(h, n, turn.calls, started, Threw(results.index, results.lost));
      assert EndsAtTurn(h, requests, n, ThrownOut(results.lost));
      return;
    }
    messages' := PushTurn(h, messages, n, turn, results.values);
    Completed(h, agent, requests, results.values);
    lost := None;
  }

  /** The assistant's message, then one result per call in call order. */
  method PushTurn(h: Host, messages: seq<Message>, turn: nat, made: Turn, values: seq<string>)
    returns (messages': seq<Message>)
    requires EndsWell(h, turn, made.calls, |made.calls|, Returned(values))
    ensures messages' ==
            messages + [Assistant(made.text, made.calls)] + ToolMessages(h, turn, made.calls, |made.calls|)
  {
    messages' := messages + [Assistant(made.text, made.calls)];
    ghost var start := messages';
    for i := 0 to |made.calls|
      invariant messages' == start + ToolMessages(h, turn, made.calls, i)
    {
      messages' := messages' + [ToolResult(made.calls[i].id, made.calls[i].name, values[i])];
    }
  }

  /** One last turn without tools, if what is left of the budget can pay for its input. */
  method WindDown(h: Host, agent: Agent, messages: seq<Message>, cumulative: Usage, turns: nat, lastText: string,
                  requests: seq<Request>, steps: seq<Step>, m: nat)
    returns (outcome: Outcome, requests': seq<Request>, steps': seq<Step>)
    requires m == |requests| && OutOfMoney(h, agent, requests, m)
    requires messages + [OutOfBudgetNotice] == WindDownMessages(h, requests, m) && cumulative == TotalOf(requests, m)
    requires turns == TurnsSoFar(requests, m) && lastText == TextSoFar(requests, m)
    requires StepsBefore(steps, turns + 1)
    ensures EndsAs(h, agent, requests', outcome) && requests <= requests'
    ensures NoDuplicates(steps')
  {
    WindDownSteps(steps, turns + 1);
    var asked := messages + [OutOfBudgetNotice];
    requests', steps' := requests, steps + [WindDownEstimate];
    var tokens := h.countMessages(asked, false);
    if IsOverBudget(cumulative.cost + WithMargin(InputCost(h, tokens, 0.0)), agent.budget) {
      outcome := Finished(BudgetExhausted, lastText, turns, cumulative);
      assert WoundDown(h, agent, requests', m, outcome);
      return;
    }
    var turn := RunOneTurn(h, h.stream(|requests|), tokens, 0.0, cumulative.cost, agent.budget);
    var request := Request(asked, false, tokens, 0.0, cumulative.cost, turn);
    requests', steps' := requests + [request], steps' + [WindDownLlm];
    WindDownAsked(h, agent, requests, request);
    var usage := Plus(cumulative, turn.usage);
    if turn.failed {
      outcome := Finished(Failed, lastText, turns + 1, usage);
    } else {
      outcome := Finished(BudgetExhausted, if turn.text != "" then turn.text else lastText, turns + 1, usage);
    }
    assert WoundDown(h, agent, requests', m, outcome);
  }

  lemma {:induction false} WindDownAsked(h: Host, agent: Agent, requests: seq<Request>, r: Request)
    requires OutOfMoney(h, agent, requests, |requests|)
    requires r.messages == WindDownMessages(h, requests, |requests|) && !r.tools && r.ratio == 0.0
    requires r.tokens == h.countMessages(r.messages, false) && r.before == TotalOf(requests, |requests|).cost
    requires !GateShut(h, agent, r.messages, false, 0.0, r.before)
    requires IsTurn(h, h.stream(|requests|), r.tokens, 0.0, r.before, agent.budget, r.turn)
    ensures OutOfMoney(h, agent, requests + [r], |requests|)
    ensures IsRequest(h, agent, requests + [r], |requests|, WindDownMessages(h, requests + [r], |requests|), false, 0.0)
    ensures TextSoFar(requests + [r], |requests|) == TextSoFar(requests, |requests|)
    ensures TurnsSoFar(requests + [r], |requests|) == TurnsSoFar(requests, |requests|)
    ensures TotalOf(requests + [r], |requests| + 1) == Plus(TotalOf(requests, |requests|), r.turn.usage)
  {
    var m, all := |requests|, requests + [r];
    EarlierStay(h, requests, r, m);
    if m > 0 && requests[m - 1].turn.cut {
      EarlierStay(h, requests, r, m - 1);
      forall k | 0 <= k < m ensures IsOrdinary(h, agent, all, k) {
        EarlierStay(h, requests, r, k);
        assert all[k] == requests[k] && IsOrdinary(h, agent, requests, k);
      }
      forall k | 0 <= k < m - 1 ensures GoesOn(h, all, k) {
        assert all[k] == requests[k] && GoesOn(h, requests, k);
      }
    } else {
      StillProceeds(h, agent, requests, r, m);
    }
  }
}
