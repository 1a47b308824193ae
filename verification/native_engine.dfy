/** What the native engine works with: usage, streams, messages, and the outside it asks. */
module EngineTypes {
  import opened Common

  datatype Usage = Usage(input: nat, output: nat, cost: real, cached: nat, cacheWrite: nat)

  const ZERO_USAGE := Usage(0, 0, 0.0, 0, 0)

  function Plus(a: Usage, b: Usage): Usage {
    Usage(a.input + b.input, a.output + b.output, a.cost + b.cost, a.cached + b.cached, a.cacheWrite + b.cacheWrite)
  }

  datatype ToolCall = ToolCall(id: string, name: string, args: string)

  /** What a model's stream yields. */
  datatype Event = Delta(text: string) | Called(call: ToolCall) | Done(usage: Usage)

  datatype Ending = Ended | Broke(message: string)

  datatype Script = Script(events: seq<Event>, ending: Ending)

  datatype Turn = Turn(usage: Usage, text: string, calls: seq<ToolCall>, cut: bool, failed: bool)

  datatype Message =
    | System
    | FirstUser
    | OutOfBudgetNotice
    | Assistant(text: string, calls: seq<ToolCall>)
    | ToolResult(id: string, name: string, content: string)

  /** How a tool call settles: an ownership loss is a rejection that ends this attempt at the run. */
  datatype Settled = Fulfilled(value: string) | Rejected | OwnershipLost

  /** The outside: token counts, prices, the stream of each request, how the calls of a turn settle and when. */
  datatype Host = Host(
    countMessages: (seq<Message>, bool) -> nat,
    countText: string -> nat,
    frame: nat,
    price: (nat, nat, nat) -> real,
    stream: nat -> Script,
    settles: (nat, nat) -> Settled,
    takes: (nat, nat) -> nat,
    accepts: string -> bool)

  datatype Agent = Agent(budget: real, maxTurns: int)

  /** A projected cost that reaches the budget is over it. */
  predicate IsOverBudget(cost: real, budget: real) {
    cost >= budget
  }

  function WithMargin(cost: real): real {
    cost * 1.1
  }

  /** The part of the input taken to be cached, at this ratio. */
  function CachedInput(tokens: nat, ratio: real): nat {
    var clamped := if ratio < 0.0 then 0.0 else if ratio > 1.0 then 1.0 else ratio;
    CachedIsPart(tokens, clamped);
    (tokens as real * clamped + 0.5).Floor
  }

  lemma CachedIsPart(tokens: nat, ratio: real)
    requires 0.0 <= ratio <= 1.0
    ensures 0.0 <= tokens as real * ratio <= tokens as real
  {
  }

  function InputCost(h: Host, tokens: nat, ratio: real): real {
    h.price(tokens, 0, CachedInput(tokens, ratio))
  }
}

/** One model turn: the stream and its mid-stream cutoff (runOneTurn in src/core/engine-native.ts). */
module OneTurn {
  import opened Common
  import opened EngineTypes

  /** The output tokens of the first k events, as they are counted while they arrive. */
  function OutputTokens(h: Host, events: seq<Event>, k: nat): nat
    requires k <= |events|
  {
    if k == 0 then 0
    else OutputTokens(h, events, k - 1) + if events[k - 1].Delta? then DeltaTokens(h, events[k - 1].text) else 0
  }

  function DeltaTokens(h: Host, delta: string): nat {
    Max(h.countText(delta) - h.frame, 0)
  }

  function TextOf(events: seq<Event>, k: nat): string
    requires k <= |events|
  {
    if k == 0 then "" else TextOf(events, k - 1) + if events[k - 1].Delta? then events[k - 1].text else ""
  }

  function CallsOf(events: seq<Event>, k: nat): seq<ToolCall>
    requires k <= |events|
  {
    if k == 0 then [] else CallsOf(events, k - 1) + if events[k - 1].Called? then [events[k - 1].call] else []
  }

  function UsageOf(events: seq<Event>, k: nat): Option<Usage>
    requires k <= |events|
  {
    if k == 0 then None else if events[k - 1].Done? then Some(events[k - 1].usage) else UsageOf(events, k - 1)
  }

  /** The run's cost when the first k events have arrived. */
  function Projected(h: Host, events: seq<Event>, k: nat, tokens: nat, cached: nat, before: real): real
    requires k <= |events|
  {
    before + h.price(tokens, OutputTokens(h, events, k), cached)
  }

  /** The stream is cut at event k: the first text that takes the run to its budget. */
  predicate IsCutAt(h: Host, events: seq<Event>, tokens: nat, cached: nat, before: real, budget: real, k: nat) {
    k < |events| && events[k].Delta? && IsOverBudget(Projected(h, events, k + 1, tokens, cached, before), budget) &&
    forall j :: 0 <= j < k && events[j].Delta? ==>
      !IsOverBudget(Projected(h, events, j + 1, tokens, cached, before), budget)
  }

  function CutTurn(h: Host, events: seq<Event>, tokens: nat, cached: nat, k: nat): Turn
    requires k < |events|
  {
    var output := OutputTokens(h, events, k + 1);
    Turn(Usage(tokens, output, h.price(tokens, output, cached), cached, 0), TextOf(events, k + 1),
         CallsOf(events, k + 1), true, false)
  }

  /** An error is told by its message: one that is empty is taken for none. */
  function WholeTurn(script: Script): Turn {
    var n := |script.events|;
    var usage := UsageOf(script.events, n);
    Turn(if script.ending.Broke? || usage.None? then ZERO_USAGE else usage.value, TextOf(script.events, n),
         CallsOf(script.events, n), false,
         if script.ending.Broke? then script.ending.message != "" else usage.None?)
  }

  /** What a turn comes to: cut at an event, or the whole stream with its own usage. */
  ghost predicate IsTurn(h: Host, script: Script, tokens: nat, ratio: real, before: real, budget: real, turn: Turn) {
    var cached := CachedInput(tokens, ratio);
    if turn.cut then
      exists k: nat :: IsCutAt(h, script.events, tokens, cached, before, budget, k) &&
                       turn == CutTurn(h, script.events, tokens, cached, k)
    else
      turn == WholeTurn(script) &&
      forall k: nat :: !IsCutAt(h, script.events, tokens, cached, before, budget, k)
  }

  method RunOneTurn(h: Host, script: Script, tokens: nat, ratio: real, before: real, budget: real) returns (turn: Turn)
    ensures IsTurn(h, script, tokens, ratio, before, budget, turn)
  {
    var events, cached := script.events, CachedInput(tokens, ratio);
    var text, calls, output := "", [], 0;
    var usage: Option<Usage> := None;
    var k := 0;
    while k < |events|
      invariant 0 <= k <= |events|
      invariant text == TextOf(events, k) && calls == CallsOf(events, k) && usage == UsageOf(events, k)
      invariant output == OutputTokens(h, events, k)
      invariant forall j :: 0 <= j < k && events[j].Delta? ==>
                  !IsOverBudget(Projected(h, events, j + 1, tokens, cached, before), budget)
    {
      match events[k] {
        case Delta(delta) =>
          text := text + delta;
          output := output + Max(h.countText(delta) - h.frame, 0);
          var projected := before + h.price(tokens, output, cached);
          if IsOverBudget(projected, budget) {
            turn := Turn(Usage(tokens, output, h.price(tokens, output, cached), cached, 0), text, calls, true, false);
            assert calls == CallsOf(events, k + 1);
            assert IsCutAt(h, events, tokens, cached, before, budget, k) && turn == CutTurn(h, events, tokens, cached, k);
            return;
          }
        case Called(call) =>
          calls := calls + [call];
        case Done(reported) =>
          usage := Some(reported);
      }
      k := k + 1;
    }
    if script.ending.Broke? {
      return Turn(ZERO_USAGE, text, calls, false, script.ending.message != "");
    }
    if usage.None? {
      return Turn(ZERO_USAGE, text, calls, false, true);
    }
    return Turn(usage.value, text, calls, false, false);
  }

  /** A turn has one meaning. */
  lemma TurnIsUnique(h: Host, script: Script, tokens: nat, ratio: real, before: real, budget: real, t: Turn, u: Turn)
    requires IsTurn(h, script, tokens, ratio, before, budget, t) && IsTurn(h, script, tokens, ratio, before, budget, u)
    ensures t == u
  {
    var events, cached := script.events, CachedInput(tokens, ratio);
    if t.cut && u.cut {
      var j: nat :| IsCutAt(h, events, tokens, cached, before, budget, j) && t == CutTurn(h, events, tokens, cached, j);
      var k: nat :| IsCutAt(h, events, tokens, cached, before, budget, k) && u == CutTurn(h, events, tokens, cached, k);
      assert j == k;
    }
  }

  /** The text events among the first k; the last of them before event k. */
  lemma {:induction false} TokensSinceLastText(h: Host, events: seq<Event>, k: nat) returns (j: nat)
    requires k <= |events|
    ensures j <= k && OutputTokens(h, events, j) == OutputTokens(h, events, k)
    ensures j > 0 ==> events[j - 1].Delta?
    decreases k
  {
    if k == 0 || events[k - 1].Delta? {
      j := k;
    } else {
      j := TokensSinceLastText(h, events, k - 1);
    }
  }

  /**
   * A turn that the gate let through and the stream cut leaves the run's cost
   * below its budget plus what the last text of the stream added.
   */
  lemma CutStaysClose(h: Host, script: Script, tokens: nat, ratio: real, before: real, budget: real, turn: Turn)
    requires IsTurn(h, script, tokens, ratio, before, budget, turn) && turn.cut
    requires InputCost(h, tokens, ratio) >= 0.0
    requires !IsOverBudget(before + WithMargin(InputCost(h, tokens, ratio)), budget)
    ensures exists k: nat :: k < |script.events| && script.events[k].Delta? &&
              var cached := CachedInput(tokens, ratio);
              var earlier := h.price(tokens, OutputTokens(h, script.events, k), cached);
              turn.usage.output == OutputTokens(h, script.events, k) + DeltaTokens(h, script.events[k].text) &&
              budget <= before + turn.usage.cost < budget + (turn.usage.cost - earlier)
  {
    var events, cached := script.events, CachedInput(tokens, ratio);
    var k: nat :| IsCutAt(h, events, tokens, cached, before, budget, k) && turn == CutTurn(h, events, tokens, cached, k);
    var j := TokensSinceLastText(h, events, k);
    if j > 0 {
      assert !IsOverBudget(Projected(h, events, j, tokens, cached, before), budget);
    }
    assert before + h.price(tokens, OutputTokens(h, events, k), cached) < budget;
  }
}

/** A turn tells what its stream said, in the stream's order. */
module TurnLaws {
  import opened Common
  import opened EngineTypes
  import opened OneTurn

  /** What event i says comes right after what the events before it said. */
  lemma {:induction false} SaidInOrder(h: Host, events: seq<Event>, i: nat, n: nat)
    requires i < n <= |events|
    ensures match events[i]
            case Delta(text) => TextOf(events, i) + text <= TextOf(events, n)
            case Called(call) =>
              |CallsOf(events, i)| < |CallsOf(events, n)| && CallsOf(events, n)[|CallsOf(events, i)|] == call
            case Done(usage) => UsageOf(events, n).Some?
    ensures TextOf(events, i) <= TextOf(events, n) && CallsOf(events, i) <= CallsOf(events, n)
    decreases n
  {
    if i < n - 1 {
      SaidInOrder(h, events, i, n - 1);
    }
  }

  /** Only texts add text and output tokens, only calls add calls, and the last usage counts. */
  lemma {:induction false} NothingElseSaid(h: Host, events: seq<Event>, i: nat, n: nat)
    requires i <= n <= |events|
    ensures (forall k :: i <= k < n ==> !events[k].Delta?) ==>
              TextOf(events, n) == TextOf(events, i) && OutputTokens(h, events, n) == OutputTokens(h, events, i)
    ensures (forall k :: i <= k < n ==> !events[k].Called?) ==> CallsOf(events, n) == CallsOf(events, i)
    ensures (forall k :: i <= k < n ==> !events[k].Done?) ==> UsageOf(events, n) == UsageOf(events, i)
    ensures i < n && events[i].Done? && (forall k :: i < k < n ==> !events[k].Done?) ==>
              UsageOf(events, n) == Some(events[i].usage)
    decreases n
  {
    if i < n {
      NothingElseSaid(h, events, i, n - 1);
    }
  }

  /** A text counts for what it takes beyond the frame that every count includes. */
  lemma TextCounts(h: Host, events: seq<Event>, n: nat)
    requires 0 < n <= |events| && events[n - 1].Delta?
    ensures var counted := OutputTokens(h, events, n) - OutputTokens(h, events, n - 1);
            if h.countText(events[n - 1].text) > h.frame then counted + h.frame == h.countText(events[n - 1].text)
            else counted == 0
  {
  }

  /**
   * A turn is cut at the first text with which what the run cost before and the
   * price of the whole input and all text so far reach the budget; nothing after
   * it is told, and the turn is charged that price.
   */
  lemma CutIff(h: Host, script: Script, tokens: nat, ratio: real, before: real, budget: real, turn: Turn)
    requires IsTurn(h, script, tokens, ratio, before, budget, turn)
    ensures var events, cached := script.events, CachedInput(tokens, ratio);
            (turn.cut <==> exists k :: 0 <= k < |events| && events[k].Delta? &&
                                       before + h.price(tokens, OutputTokens(h, events, k + 1), cached) >= budget) &&
            (turn.cut ==> exists k: nat :: k < |events| && events[k].Delta? && !turn.failed &&
                            turn.text == TextOf(events, k + 1) && turn.calls == CallsOf(events, k + 1) &&
                            turn.usage.input == tokens && turn.usage.output == OutputTokens(h, events, k + 1) &&
                            turn.usage.cost == h.price(tokens, OutputTokens(h, events, k + 1), cached) &&
                            forall j :: 0 <= j < k && events[j].Delta? ==>
                              before + h.price(tokens, OutputTokens(h, events, j + 1), cached) < budget)
  {
    var events, cached := script.events, CachedInput(tokens, ratio);
    if turn.cut {
      var k: nat :| IsCutAt(h, events, tokens, cached, before, budget, k) && turn == CutTurn(h, events, tokens, cached, k);
      assert before + h.price(tokens, OutputTokens(h, events, k + 1), cached) >= budget;
    } else if k :| 0 <= k < |events| && events[k].Delta? &&
                   before + h.price(tokens, OutputTokens(h, events, k + 1), cached) >= budget {
      var first := FirstOver(h, events, tokens, cached, before, budget, k);
    }
  }

  lemma {:induction false} FirstOver(h: Host, events: seq<Event>, tokens: nat, cached: nat, before: real, budget: real, k: nat)
    returns (first: nat)
    requires k < |events| && events[k].Delta?
    requires before + h.price(tokens, OutputTokens(h, events, k + 1), cached) >= budget
    ensures IsCutAt(h, events, tokens, cached, before, budget, first)
    decreases k
  {
    if j: nat :| j < k && events[j].Delta? && before + h.price(tokens, OutputTokens(h, events, j + 1), cached) >= budget {
      first := FirstOver(h, events, tokens, cached, before, budget, j);
    } else {
      first := k;
    }
  }
}
