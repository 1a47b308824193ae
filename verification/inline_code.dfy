/**
 * Inline code spans of one paragraph (the rule of section 6.1 of CommonMark
 * 0.31.2): a run of backticks opens a span that closes at the next run of the
 * same length, and a run with no such partner is literal text.
 */
module CodeSpans {
  import opened Common
  import opened Texts

  const TICK := '`'

  predicate AtTick(t: Text<char>) { t.Char? && t.head == TICK }

  /** How many backticks the text begins with. */
  function RunLength(t: Text<char>): nat {
    if AtTick(t) then 1 + RunLength(t.tail) else 0
  }

  function AfterRun(t: Text<char>): (rest: Text<char>)
    ensures Size(rest) <= Size(t) && (AtTick(t) ==> Size(rest) < Size(t))
  {
    if AtTick(t) then AfterRun(t.tail) else t
  }

  /** The text after the first run of exactly n backticks. */
  function AfterCloser(t: Text<char>, n: nat): (r: Option<Text<char>>)
    ensures r.Some? ==> Size(r.value) <= Size(t)
    decreases Size(t)
  {
    if t.End? then None
    else if t.head != TICK then AfterCloser(t.tail, n)
    else if RunLength(t) == n then Some(AfterRun(t))
    else AfterCloser(AfterRun(t), n)
  }

  /** A run of n backticks in front of a text. */
  function Ticks(n: nat, t: Text<char>): Text<char>
    decreases n
  {
    if n == 0 then t else Ticks(n - 1, Char(TICK, t))
  }

  /** The text without its code spans, each closer looked for anew. */
  function Strip(t: Text<char>): Text<char>
    decreases Size(t)
  {
    if t.End? then End
    else if t.head != TICK then Char(t.head, Strip(t.tail))
    else
      var after := AfterCloser(AfterRun(t), RunLength(t));
      if after.Some? then Strip(after.value) else Ticks(RunLength(t), Strip(AfterRun(t)))
  }

  // ---- what is left cannot be stripped further ----------------------------

  lemma {:induction false} RunEnds(t: Text<char>)
    ensures !AtTick(AfterRun(t))
  {
    if AtTick(t) {
      RunEnds(t.tail);
    }
  }

  lemma {:induction false} RunInFront(n: nat, t: Text<char>)
    ensures RunLength(Ticks(n, t)) == n + RunLength(t) && AfterRun(Ticks(n, t)) == AfterRun(t)
    ensures n > 0 ==> AtTick(Ticks(n, t))
    decreases n
  {
    if n > 0 {
      RunInFront(n - 1, Char(TICK, t));
    }
  }

  /** Every run that is left was a run of the text. */
  lemma {:induction false} SurvivorsWereThere(t: Text<char>, n: nat)
    requires AfterCloser(Strip(t), n).Some?
    ensures AfterCloser(t, n).Some?
    decreases Size(t)
  {
    if t.head != TICK {
      SurvivorsWereThere(t.tail, n);
    } else {
      var m, rest := RunLength(t), AfterRun(t);
      var after := AfterCloser(rest, m);
      if after.Some? {
        SurvivorsWereThere(after.value, n);
        CloserFurtherOn(rest, m, n);
      } else if m != n {
        RunEnds(t);
        RunInFront(m, Strip(rest));
        SurvivorsWereThere(rest, n);
      }
    }
  }

  lemma {:induction false} CloserFurtherOn(t: Text<char>, m: nat, n: nat)
    requires AfterCloser(t, m).Some? && AfterCloser(AfterCloser(t, m).value, n).Some?
    ensures AfterCloser(t, n).Some?
    decreases Size(t)
  {
    if t.head != TICK {
      CloserFurtherOn(t.tail, m, n);
    } else if RunLength(t) != m && RunLength(t) != n {
      CloserFurtherOn(AfterRun(t), m, n);
    }
  }

  /** Stripping twice is stripping once: no run that is left has a later run of its length. */
  lemma {:induction false} StripIsIdempotent(t: Text<char>)
    ensures Strip(Strip(t)) == Strip(t)
    decreases Size(t)
  {
    if t.Char? && t.head != TICK {
      StripIsIdempotent(t.tail);
    } else if t.Char? {
      var n, rest := RunLength(t), AfterRun(t);
      var after := AfterCloser(rest, n);
      if after.Some? {
        StripIsIdempotent(after.value);
      } else {
        StripIsIdempotent(rest);
        RunEnds(t);
        RunInFront(n, Strip(rest));
        if AfterCloser(Strip(rest), n).Some? {
          SurvivorsWereThere(rest, n);
        }
      }
    }
  }
}

/** The rule itself: what a paragraph consists of, and that stripping leaves out its spans and nothing else. */
module CodeSpanRule {
  import opened Common
  import opened Texts
  import opened CodeSpans

  function Append(a: Text<char>, b: Text<char>): Text<char> {
    if a.End? then b else Char(a.head, Append(a.tail, b))
  }

  predicate EndsInTick(t: Text<char>) {
    t.Char? && if t.tail.End? then t.head == TICK else EndsInTick(t.tail)
  }

  /** n backticks stand here, with no other before and none after them. */
  ghost predicate IsRunAt(t: Text<char>, n: nat, before: Text<char>, after: Text<char>) {
    t == Append(before, Ticks(n, after)) && !EndsInTick(before) && !AtTick(after)
  }

  ghost predicate HasRun(t: Text<char>, n: nat) {
    exists before, after :: IsRunAt(t, n, before, after)
  }

  /** A paragraph, read as plain characters, runs that stay literal, and code spans. */
  datatype Parse =
    | Over
    | Plain(c: char, rest: Parse)
    | Literal(n: nat, rest: Parse)
    | Span(n: nat, body: Text<char>, rest: Parse)

  function Whole(p: Parse): Text<char> {
    match p
    case Over => End
    case Plain(c, rest) => Char(c, Whole(rest))
    case Literal(n, rest) => Ticks(n, Whole(rest))
    case Span(n, body, rest) => Ticks(n, Append(body, Ticks(n, Whole(rest))))
  }

  function OutsideSpans(p: Parse): Text<char> {
    match p
    case Over => End
    case Plain(c, rest) => Char(c, OutsideSpans(rest))
    case Literal(n, rest) => Ticks(n, OutsideSpans(rest))
    case Span(_, _, rest) => OutsideSpans(rest)
  }

  /** A run closes at the next run of its length, and is literal when there is none. */
  ghost predicate IsParse(p: Parse) {
    match p
    case Over => true
    case Plain(c, rest) => c != TICK && IsParse(rest)
    case Literal(n, rest) => n > 0 && !AtTick(Whole(rest)) && !HasRun(Whole(rest), n) && IsParse(rest)
    case Span(n, body, rest) =>
      n > 0 && body.Char? && !AtTick(body) && !EndsInTick(body) && !HasRun(body, n) && !AtTick(Whole(rest)) && IsParse(rest)
  }

  lemma {:induction false} RunInside(a: Text<char>, b: Text<char>)
    requires AtTick(a) && !EndsInTick(a)
    ensures RunLength(Append(a, b)) == RunLength(a) && AfterRun(Append(a, b)) == Append(AfterRun(a), b)
    ensures AfterRun(a).Char? && !AtTick(AfterRun(a)) && !EndsInTick(AfterRun(a))
    decreases a
  {
    if AtTick(a.tail) {
      RunInside(a.tail, b);
    }
  }

  lemma {:induction false} RunIsTicksOf(t: Text<char>)
    ensures t == Ticks(RunLength(t), AfterRun(t)) && !AtTick(AfterRun(t))
  {
    if AtTick(t) {
      RunIsTicksOf(t.tail);
      TicksOutside(RunLength(t.tail), AfterRun(t.tail));
    }
  }

  lemma {:induction false} TicksOutside(n: nat, t: Text<char>)
    ensures Ticks(n + 1, t) == Char(TICK, Ticks(n, t))
    decreases n
  {
    if n > 0 {
      TicksOutside(n - 1, Char(TICK, t));
    }
  }

  lemma {:induction false} AppendTicks(n: nat, a: Text<char>, b: Text<char>)
    ensures Append(Ticks(n, a), b) == Ticks(n, Append(a, b))
    decreases n
  {
    if n > 0 {
      AppendTicks(n - 1, Char(TICK, a), b);
    }
  }

  lemma {:induction false} TicksThenEnd(n: nat, t: Text<char>)
    requires t.Char? && !EndsInTick(t)
    ensures !EndsInTick(Ticks(n, t)) && Ticks(n, t).Char?
    decreases n
  {
    if n > 0 {
      TicksThenEnd(n - 1, Char(TICK, t));
    }
  }

  /** Behind text that holds no run of this length, the run is the closer. */
  lemma {:induction false} FirstRunCloses(before: Text<char>, n: nat, after: Text<char>)
    requires n > 0 && !EndsInTick(before) && !AtTick(after) && AfterCloser(before, n).None?
    ensures AfterCloser(Append(before, Ticks(n, after)), n) == Some(after)
    decreases Size(before)
  {
    if before.End? {
      RunInFront(n, after);
    } else if before.head != TICK {
      FirstRunCloses(before.tail, n, after);
    } else {
      RunInside(before, Ticks(n, after));
      FirstRunCloses(AfterRun(before), n, after);
    }
  }

  /** Any run of this length is found, or one before it. */
  lemma {:induction false} AnyRunCloses(before: Text<char>, n: nat, after: Text<char>)
    requires n > 0 && !EndsInTick(before) && !AtTick(after)
    ensures AfterCloser(Append(before, Ticks(n, after)), n).Some?
    decreases Size(before)
  {
    if before.End? {
      RunInFront(n, after);
    } else if before.head != TICK {
      AnyRunCloses(before.tail, n, after);
    } else {
      RunInside(before, Ticks(n, after));
      AnyRunCloses(AfterRun(before), n, after);
    }
  }

  lemma {:induction false} RunIsNotFirst(before: Text<char>, n: nat, after: Text<char>)
    requires n > 0 && !AtTick(Append(before, Ticks(n, after)))
    ensures before.Char? && !AtTick(before)
  {
    RunInFront(n, after);
  }

  /** What is found is a run, and the first of its length. */
  lemma {:induction false} CloserIsRun(t: Text<char>, n: nat) returns (before: Text<char>)
    requires n > 0 && AfterCloser(t, n).Some?
    ensures IsRunAt(t, n, before, AfterCloser(t, n).value) && AfterCloser(before, n).None?
    decreases Size(t)
  {
    if t.head != TICK {
      before := CloserIsRun(t.tail, n);
      before := Char(t.head, before);
    } else {
      RunIsTicksOf(t);
      if RunLength(t) == n {
        before := End;
      } else {
        var m := RunLength(t);
        var inner := CloserIsRun(AfterRun(t), n);
        RunIsNotFirst(inner, n, AfterCloser(t, n).value);
        before := Ticks(m, inner);
        AppendTicks(m, inner, Ticks(n, AfterCloser(t, n).value));
        TicksThenEnd(m, inner);
        RunInFront(m, inner);
      }
    }
  }

  lemma {:induction false} HasRunIff(t: Text<char>, n: nat)
    requires n > 0
    ensures HasRun(t, n) <==> AfterCloser(t, n).Some?
  {
    if before, after :| IsRunAt(t, n, before, after) {
      AnyRunCloses(before, n, after);
    }
    if AfterCloser(t, n).Some? {
      var before := CloserIsRun(t, n);
    }
  }

  /** However a paragraph is read by the rule, stripping leaves exactly what is outside its spans. */
  lemma {:induction false} StripLeavesOutside(p: Parse)
    requires IsParse(p)
    ensures Strip(Whole(p)) == OutsideSpans(p)
    decreases p
  {
    match p
    case Over =>
    case Plain(c, rest) => StripLeavesOutside(rest);
    case Literal(n, rest) =>
      StripLeavesOutside(rest);
      RunInFront(n, Whole(rest));
      HasRunIff(Whole(rest), n);
    case Span(n, body, rest) =>
      StripLeavesOutside(rest);
      RunInFront(n, Append(body, Ticks(n, Whole(rest))));
      HasRunIff(body, n);
      FirstRunCloses(body, n, Whole(rest));
  }

  /** And every paragraph can be read by the rule. */
  lemma {:induction false} EveryTextParses(t: Text<char>) returns (p: Parse)
    ensures IsParse(p) && Whole(p) == t
    decreases Size(t)
  {
    if t.End? {
      p := Over;
    } else if t.head != TICK {
      var rest := EveryTextParses(t.tail);
      p := Plain(t.head, rest);
    } else {
      var n, inner := RunLength(t), AfterRun(t);
      RunIsTicksOf(t);
      HasRunIff(inner, n);
      if AfterCloser(inner, n).Some? {
        var body := CloserIsRun(inner, n);
        var rest := EveryTextParses(AfterCloser(inner, n).value);
        HasRunIff(body, n);
        RunIsNotFirst(body, n, AfterCloser(inner, n).value);
        p := Span(n, body, rest);
      } else {
        var rest := EveryTextParses(inner);
        p := Literal(n, rest);
      }
    }
  }
}

/** The stripper as the program runs it (stripInlineCode in src/coding/claude-context.ts), by positions. */
module CodeSpanScan {
  import opened Common
  import opened Texts
  import opened CodeSpans

  // ---- the simple matcher by positions ------------------------------------

  /** Where the run of backticks that covers o ends. */
  function RunEnd(p: string, o: nat): (e: nat)
    requires o <= |p|
    ensures o <= e <= |p| && (e == o <==> o == |p| || p[o] != TICK)
    decreases |p| - o
  {
    if o < |p| && p[o] == TICK then RunEnd(p, o + 1) else o
  }

  /** The end of the first run of length n from o on. */
  function CloserEnd(p: string, o: nat, n: nat): (end: Option<nat>)
    requires o <= |p|
    ensures end.Some? ==> o < end.value <= |p|
    decreases |p| - o
  {
    if o == |p| then None
    else if p[o] != TICK then CloserEnd(p, o + 1, n)
    else if RunEnd(p, o) == o + n then Some(o + n)
    else CloserEnd(p, RunEnd(p, o), n)
  }

  lemma {:induction false} RunEndIsAfterRun(p: string, o: nat)
    requires o <= |p|
    ensures RunLength(TextOf(p, o)) == RunEnd(p, o) - o && AfterRun(TextOf(p, o)) == TextOf(p, RunEnd(p, o))
    decreases |p| - o
  {
    if o < |p| && p[o] == TICK {
      RunEndIsAfterRun(p, o + 1);
    }
  }

  lemma {:induction false} CloserEndIsCloser(p: string, o: nat, n: nat)
    requires o <= |p|
    ensures AfterCloser(TextOf(p, o), n) == var end := CloserEnd(p, o, n);
                                           if end.None? then None else Some(TextOf(p, end.value))
    decreases |p| - o
  {
    if o < |p| {
      RunEndIsAfterRun(p, o);
      CloserEndIsCloser(p, if p[o] == TICK then RunEnd(p, o) else o + 1, n);
    }
  }

  // ---- the same over the list of runs -------------------------------------

  /** A maximal run of backticks, [start, end). */
  datatype Run = Run(start: nat, end: nat) {
    function Length(): int { end - start }
  }

  /** The runs of the text from o on. */
  function Runs(p: string, o: nat): seq<Run>
    requires o <= |p|
    decreases |p| - o
  {
    if o == |p| then []
    else if p[o] != TICK then Runs(p, o + 1)
    else [Run(o, RunEnd(p, o))] + Runs(p, RunEnd(p, o))
  }

  /** From run j on these are the runs of the text from o on. */
  ghost predicate RunsFrom(p: string, runs: seq<Run>, j: nat, o: nat)
    requires o <= |p|
    decreases |p| - o
  {
    if o == |p| then j == |runs|
    else if p[o] != TICK then RunsFrom(p, runs, j, o + 1)
    else j < |runs| && runs[j] == Run(o, RunEnd(p, o)) && RunsFrom(p, runs, j + 1, RunEnd(p, o))
  }

  lemma {:induction false} RunsAreFrom(p: string, runs: seq<Run>, j: nat, o: nat)
    requires o <= |p| && j <= |runs| && runs[j..] == Runs(p, o)
    ensures RunsFrom(p, runs, j, o)
    decreases |p| - o
  {
    if o < |p| && p[o] != TICK {
      RunsAreFrom(p, runs, j, o + 1);
    } else if o < |p| {
      assert runs[j..][0] == runs[j] && runs[j..][1..] == runs[j + 1..];
      RunsAreFrom(p, runs, j + 1, RunEnd(p, o));
    }
  }

  /** The first run from o on that has length n. */
  function NextFrom(runs: seq<Run>, o: nat, n: int): (next: Option<nat>)
    requires o <= |runs|
    ensures next.Some? ==> o <= next.value < |runs|
    decreases |runs| - o
  {
    if o == |runs| then None
    else if runs[o].Length() == n then Some(o)
    else NextFrom(runs, o + 1, n)
  }

  lemma {:induction false} CloserIsNext(p: string, runs: seq<Run>, j: nat, o: nat, n: nat)
    requires j <= |runs| && o <= |p| && RunsFrom(p, runs, j, o)
    ensures var next := NextFrom(runs, j, n);
            if next.None? then CloserEnd(p, o, n).None?
            else CloserEnd(p, o, n) == Some(runs[next.value].end) &&
                 RunsFrom(p, runs, next.value + 1, runs[next.value].end)
    decreases |p| - o
  {
    if o < |p| {
      if p[o] != TICK {
        CloserIsNext(p, runs, j, o + 1, n);
      } else if RunEnd(p, o) != o + n {
        CloserIsNext(p, runs, j + 1, RunEnd(p, o), n);
      }
    }
  }

  /** Stripping from run i on, with the text before `copied` settled as `out`, ends in `result`. */
  ghost predicate EndsIn(out: string, p: string, runs: seq<Run>, i: nat, copied: nat, result: Text<char>)
    requires i <= |runs|
    decreases |runs| - i
  {
    if i == |runs| then result == TextOf(out + Slice(p, copied, |p|), 0)
    else
      var closer := NextFrom(runs, i + 1, runs[i].Length());
      if closer.None? then EndsIn(out, p, runs, i + 1, copied, result)
      else EndsIn(out + Slice(p, copied, runs[i].start), p, runs, closer.value + 1, runs[closer.value].end, result)
  }

  /** Run i stays: it has no closer. */
  lemma LiteralStep(out: string, p: string, runs: seq<Run>, i: nat, copied: nat, result: Text<char>)
    requires i < |runs| && NextFrom(runs, i + 1, runs[i].Length()).None?
    requires EndsIn(out, p, runs, i + 1, copied, result)
    ensures EndsIn(out, p, runs, i, copied, result)
  {
  }

  /** Run c closes run i: what lies between them goes. */
  lemma SpanStep(out: string, p: string, runs: seq<Run>, i: nat, c: nat, copied: nat, result: Text<char>)
    requires i < |runs| && NextFrom(runs, i + 1, runs[i].Length()) == Some(c)
    requires EndsIn(out + Slice(p, copied, runs[i].start), p, runs, c + 1, runs[c].end, result)
    ensures EndsIn(out, p, runs, i, copied, result)
  {
  }

  /** What is settled, the text from `copied` to o as it is, and the rest of the text stripped. */
  ghost function Settled(out: string, p: string, copied: nat, o: nat): Text<char>
    requires o <= |p|
  {
    Onto(out, Between(p, copied, o, Strip(TextOf(p, o))))
  }

  lemma {:induction false} CopiedRun(p: string, copied: nat, o: nat, m: nat, t: Text<char>)
    requires copied <= o <= m <= |p| && m <= RunEnd(p, o)
    ensures Between(p, copied, m, t) == Between(p, copied, o, Ticks(m - o, t))
    decreases m
  {
    if o < m {
      RunIsTicks(p, o, m - 1);
      CopiedRun(p, copied, o, m - 1, Char(TICK, t));
    }
  }

  lemma {:induction false} RunIsTicks(p: string, o: nat, k: nat)
    requires o <= k < |p| && k < RunEnd(p, o)
    ensures p[k] == TICK
    decreases k - o
  {
    if o < k {
      RunIsTicks(p, o + 1, k);
    }
  }

  /** What a run at o comes to, kept or dropped with its span. */
  lemma SettledAtRun(out: string, p: string, o: nat, copied: nat)
    requires copied <= o < |p| && p[o] == TICK
    ensures var e := RunEnd(p, o);
            var end := CloserEnd(p, e, e - o);
            Settled(out, p, copied, o) ==
            if end.None? then Settled(out, p, copied, e)
            else Settled(out + Slice(p, copied, o), p, end.value, end.value)
  {
    var e := RunEnd(p, o);
    var end := CloserEnd(p, e, e - o);
    RunEndIsAfterRun(p, o);
    CloserEndIsCloser(p, e, e - o);
    if end.None? {
      CopiedRun(p, copied, o, e, Strip(TextOf(p, e)));
    } else {
      OntoSlice(out, p, copied, o, Strip(TextOf(p, o)));
    }
  }

  lemma NothingLeft(out: string, p: string, copied: nat)
    ensures Settled(out, p, copied, |p|) == TextOf(out + Slice(p, copied, |p|), 0)
  {
    var s := out + Slice(p, copied, |p|);
    BetweenRest(s, |s|);
    OntoSlice(out, p, copied, |p|, End);
  }

  /** Stripping over the runs is stripping the text. */
  lemma {:induction false} RunsEndInStrip(out: string, p: string, runs: seq<Run>, i: nat, o: nat, copied: nat, end: Text<char>)
    requires i <= |runs| && copied <= o <= |p| && RunsFrom(p, runs, i, o)
    requires end == Settled(out, p, copied, o)
    ensures EndsIn(out, p, runs, i, copied, end)
    decreases |p| - o, 1
  {
    if o == |p| {
      NothingLeft(out, p, copied);
    } else if p[o] != TICK {
      RunsEndInStrip(out, p, runs, i, o + 1, copied, end);
    } else {
      RunsEndAtRun(out, p, runs, i, o, copied, end);
    }
  }

  lemma {:induction false} RunsEndAtRun(out: string, p: string, runs: seq<Run>, i: nat, o: nat, copied: nat, end: Text<char>)
    requires i <= |runs| && copied <= o < |p| && p[o] == TICK && RunsFrom(p, runs, i, o)
    requires end == Settled(out, p, copied, o)
    ensures EndsIn(out, p, runs, i, copied, end)
    decreases |p| - o, 0
  {
    var e := RunEnd(p, o);
    SettledAtRun(out, p, o, copied);
    CloserIsNext(p, runs, i + 1, e, e - o);
    var closer := NextFrom(runs, i + 1, e - o);
    if closer.None? {
      RunsEndInStrip(out, p, runs, i + 1, e, copied, end);
      LiteralStep(out, p, runs, i, copied, end);
    } else {
      var after := runs[closer.value].end;
      RunsEndInStrip(out + Slice(p, copied, o), p, runs, closer.value + 1, after, after, end);
      SpanStep(out, p, runs, i, closer.value, copied, end);
    }
  }

  // ---- the loops ----------------------------------------------------------

  method FindRuns(p: string) returns (runs: seq<Run>)
    ensures runs == Runs(p, 0)
  {
    runs := [];
    var i := 0;
    while i < |p|
      invariant i <= |p|
      invariant runs + Runs(p, i) == Runs(p, 0)
    {
      if p[i] != TICK {
        i := i + 1;
      } else {
        var start := i;
        while i < |p| && p[i] == TICK
          invariant start <= i <= |p| && RunEnd(p, start) == RunEnd(p, i)
          decreases |p| - i
        {
          i := i + 1;
        }
        assert runs + ([Run(start, i)] + Runs(p, i)) == (runs + [Run(start, i)]) + Runs(p, i);
        runs := runs + [Run(start, i)];
      }
    }
  }

  // ---- the runs of one length ---------------------------------------------

  /** How many of the first k runs have length n. */
  function CountOf(runs: seq<Run>, k: nat, n: int): nat
    requires k <= |runs|
  {
    if k == 0 then 0 else CountOf(runs, k - 1, n) + if runs[k - 1].Length() == n then 1 else 0
  }

  lemma {:induction false} CountGrows(runs: seq<Run>, k: nat, m: nat, n: int)
    requires k <= m <= |runs|
    ensures CountOf(runs, k, n) <= CountOf(runs, m, n)
    decreases m
  {
    if k < m {
      CountGrows(runs, k, m - 1, n);
    }
  }

  /** Their indexes, in order. */
  function IndexesOf(runs: seq<Run>, k: nat, n: int): (indexes: seq<nat>)
    requires k <= |runs|
    ensures |indexes| == CountOf(runs, k, n)
  {
    if k == 0 then []
    else if runs[k - 1].Length() == n then IndexesOf(runs, k - 1, n) + [k - 1]
    else IndexesOf(runs, k - 1, n)
  }

  /** What is listed at position a is a run of length n with a such runs before it. */
  lemma {:induction false} IndexAt(runs: seq<Run>, m: nat, n: int, a: nat)
    requires m <= |runs| && a < CountOf(runs, m, n)
    ensures var j := IndexesOf(runs, m, n)[a];
            j < m && runs[j].Length() == n && CountOf(runs, j, n) == a
    decreases m
  {
    if a < CountOf(runs, m - 1, n) {
      IndexAt(runs, m - 1, n, a);
    }
  }

  /** A run is listed at the position of how many runs of its length come before it. */
  lemma {:induction false} RankOf(runs: seq<Run>, j: nat, m: nat)
    requires j < m <= |runs|
    ensures var n := runs[j].Length();
            CountOf(runs, j, n) < CountOf(runs, m, n) && IndexesOf(runs, m, n)[CountOf(runs, j, n)] == j
    decreases m
  {
    if j + 1 < m {
      RankOf(runs, j, m - 1);
    }
  }

  /** The next run of length n from o on is listed after those before o. */
  lemma {:induction false} NextIsListed(runs: seq<Run>, o: nat, n: int)
    requires o <= |runs|
    ensures var all, a := IndexesOf(runs, |runs|, n), CountOf(runs, o, n);
            NextFrom(runs, o, n) == if a < |all| then Some(all[a]) else None
    decreases |runs| - o
  {
    if o < |runs| {
      if runs[o].Length() == n {
        RankOf(runs, o, |runs|);
      } else {
        NextIsListed(runs, o + 1, n);
      }
    }
  }

  /** The runs of one length, in order, with a pointer that only moves forward. */
  datatype Entry = Entry(indexes: seq<nat>, next: nat)

  ghost predicate Grouped(runs: seq<Run>, k: nat, byLength: map<int, Entry>)
    requires k <= |runs|
  {
    (forall n :: n in byLength ==> byLength[n].indexes == IndexesOf(runs, k, n)) &&
    (forall j :: 0 <= j < k ==> runs[j].Length() in byLength)
  }

  method GroupByLength(runs: seq<Run>) returns (byLength: map<int, Entry>)
    ensures Grouped(runs, |runs|, byLength)
    ensures forall n :: n in byLength ==> byLength[n].next == 0
  {
    byLength := map[];
    for k := 0 to |runs|
      invariant Grouped(runs, k, byLength)
      invariant forall n :: n !in byLength ==> IndexesOf(runs, k, n) == []
      invariant forall n :: n in byLength ==> byLength[n].next == 0
    {
      var length := runs[k].Length();
      var entry := if length in byLength then byLength[length] else Entry([], 0);
      byLength := byLength[length := Entry(entry.indexes + [k], entry.next)];
    }
  }

  // ---- the pointers -------------------------------------------------------

  /** No pointer is past run i: the last run each has passed comes before it. */
  ghost predicate NotPast(byLength: map<int, Entry>, i: nat) {
    forall n :: n in byLength ==>
      byLength[n].next <= |byLength[n].indexes| &&
      (byLength[n].next > 0 ==> byLength[n].indexes[byLength[n].next - 1] < i)
  }

  /** How many of the first k runs their pointers have passed. */
  ghost function PassedRuns(runs: seq<Run>, byLength: map<int, Entry>, k: nat): (count: nat)
    requires k <= |runs| && forall j :: 0 <= j < |runs| ==> runs[j].Length() in byLength
    ensures count <= k
  {
    if k == 0 then 0
    else
      var n := runs[k - 1].Length();
      PassedRuns(runs, byLength, k - 1) + if CountOf(runs, k - 1, n) < byLength[n].next then 1 else 0
  }

  /** One move of one pointer passes one run more. */
  lemma {:induction false} OneMove(runs: seq<Run>, byLength: map<int, Entry>, n: int, k: nat)
    requires k <= |runs| && Grouped(runs, |runs|, byLength)
    requires n in byLength && byLength[n].next < |byLength[n].indexes|
    ensures var entry := byLength[n];
            PassedRuns(runs, byLength[n := Entry(entry.indexes, entry.next + 1)], k) ==
            PassedRuns(runs, byLength, k) + if entry.indexes[entry.next] < k then 1 else 0
    decreases k
  {
    if k > 0 {
      OneMove(runs, byLength, n, k - 1);
      RankOf(runs, k - 1, |runs|);
      IndexAt(runs, |runs|, n, byLength[n].next);
    }
  }

  /** A pointer at a run up to i, moved past it. */
  lemma PointerMoved(runs: seq<Run>, i: nat, byLength: map<int, Entry>, n: int)
    requires i < |runs| && Grouped(runs, |runs|, byLength) && NotPast(byLength, i + 1)
    requires n in byLength && byLength[n].next < |byLength[n].indexes|
    requires byLength[n].indexes[byLength[n].next] <= i
    ensures var entry := byLength[n];
            var byLength' := byLength[n := Entry(entry.indexes, entry.next + 1)];
            Grouped(runs, |runs|, byLength') && NotPast(byLength', i + 1) &&
            PassedRuns(runs, byLength', |runs|) == PassedRuns(runs, byLength, |runs|) + 1
  {
    var entry := byLength[n];
    var byLength' := byLength[n := Entry(entry.indexes, entry.next + 1)];
    assert NotPast(byLength', i + 1);
    IndexAt(runs, |runs|, n, entry.next);
    assert entry.indexes[entry.next] < |runs|;
    OneMove(runs, byLength, n, |runs|);
  }

  /** A run of length n is up to i exactly when fewer come before it than there are up to i. */
  lemma UpToOrAfter(runs: seq<Run>, i: nat, n: int, j: nat)
    requires i < |runs| && j < |runs| && runs[j].Length() == n
    ensures j <= i <==> CountOf(runs, j, n) < CountOf(runs, i + 1, n)
  {
    if j <= i {
      CountGrows(runs, j + 1, i + 1, n);
    } else {
      CountGrows(runs, i + 1, j, n);
    }
  }

  /** A pointer that has passed only runs up to i, and is at none, has passed all of its length up to i. */
  lemma PointerStopped(runs: seq<Run>, i: nat, n: int, next: nat)
    requires i < |runs| && next <= CountOf(runs, |runs|, n)
    requires next > 0 ==> IndexesOf(runs, |runs|, n)[next - 1] <= i
    requires next < CountOf(runs, |runs|, n) ==> IndexesOf(runs, |runs|, n)[next] > i
    ensures next == CountOf(runs, i + 1, n)
  {
    CountGrows(runs, i + 1, |runs|, n);
    if next > 0 {
      IndexAt(runs, |runs|, n, next - 1);
      UpToOrAfter(runs, i, n, IndexesOf(runs, |runs|, n)[next - 1]);
    }
    if next < CountOf(runs, |runs|, n) {
      IndexAt(runs, |runs|, n, next);
      UpToOrAfter(runs, i, n, IndexesOf(runs, |runs|, n)[next]);
    }
  }

  /** The pointer of run i's length, moved past i: as many as there are such runs up to i. */
  method Advance(runs: seq<Run>, i: nat, byLength: map<int, Entry>) returns (byLength': map<int, Entry>, ghost moves: nat)
    requires i < |runs| && Grouped(runs, |runs|, byLength) && NotPast(byLength, i)
    ensures Grouped(runs, |runs|, byLength') && NotPast(byLength', i + 1)
    ensures byLength'[runs[i].Length()].next == CountOf(runs, i + 1, runs[i].Length())
    ensures PassedRuns(runs, byLength', |runs|) == PassedRuns(runs, byLength, |runs|) + moves
  {
    var n := runs[i].Length();
    byLength', moves := byLength, 0;
    var all := byLength[n].indexes;
    while byLength'[n].next < |all| && all[byLength'[n].next] <= i
      invariant n in byLength' && byLength'[n].indexes == all
      invariant Grouped(runs, |runs|, byLength') && NotPast(byLength', i + 1)
      invariant PassedRuns(runs, byLength', |runs|) == PassedRuns(runs, byLength, |runs|) + moves
      decreases |all| - byLength'[n].next
    {
      PointerMoved(runs, i, byLength', n);
      byLength' := byLength'[n := Entry(all, byLength'[n].next + 1)];
      moves := moves + 1;
    }
    PointerStopped(runs, i, n, byLength'[n].next);
  }

  /** The closer of run i, found by its length's pointer. */
  method CloserOf(runs: seq<Run>, i: nat, byLength: map<int, Entry>)
    returns (closer: Option<nat>, byLength': map<int, Entry>, ghost moves: nat)
    requires i < |runs| && Grouped(runs, |runs|, byLength) && NotPast(byLength, i)
    ensures closer == NextFrom(runs, i + 1, runs[i].Length())
    ensures Grouped(runs, |runs|, byLength') && NotPast(byLength', i + 1)
    ensures PassedRuns(runs, byLength', |runs|) == PassedRuns(runs, byLength, |runs|) + moves
  {
    byLength', moves := Advance(runs, i, byLength);
    var entry := byLength'[runs[i].Length()];
    NextIsListed(runs, i + 1, runs[i].Length());
    closer := if entry.next >= |entry.indexes| then None else Some(entry.indexes[entry.next]);
  }

  /**
   * The linear pass leaves exactly what the simple matcher leaves, and its
   * pointers move at most once per run in all.
   */
  method StripInlineCode(paragraph: string) returns (output: string, ghost moves: nat)
    ensures TextOf(output, 0) == Strip(TextOf(paragraph, 0))
    ensures moves <= |Runs(paragraph, 0)|
  {
    var runs := FindRuns(paragraph);
    RunsStripped(paragraph, runs);
    if |runs| == 0 {
      return paragraph, 0;
    }
    var byLength := GroupByLength(runs);
    output, moves := CopyOutsideSpans(paragraph, runs, byLength, Strip(TextOf(paragraph, 0)));
  }

  lemma RunsStripped(p: string, runs: seq<Run>)
    requires runs == Runs(p, 0)
    ensures EndsIn([], p, runs, 0, 0, Strip(TextOf(p, 0)))
    ensures runs == [] ==> Strip(TextOf(p, 0)) == TextOf(p, 0)
  {
    RunsAreFrom(p, runs, 0, 0);
    RunsEndInStrip([], p, runs, 0, 0, 0, Strip(TextOf(p, 0)));
    assert [] + Slice(p, 0, |p|) == p;
  }

  method CopyOutsideSpans(p: string, runs: seq<Run>, index: map<int, Entry>, ghost result: Text<char>)
    returns (output: string, ghost moves: nat)
    requires Grouped(runs, |runs|, index) && forall n :: n in index ==> index[n].next == 0
    requires EndsIn([], p, runs, 0, 0, result)
    ensures TextOf(output, 0) == result
    ensures moves <= |runs|
  {
    var byLength := index;
    output, moves := [], 0;
    var copied, i := 0, 0;
    while i < |runs|
      invariant 0 <= i <= |runs| && 0 <= copied
      invariant Grouped(runs, |runs|, byLength) && NotPast(byLength, i)
      invariant moves <= PassedRuns(runs, byLength, |runs|)
      invariant EndsIn(output, p, runs, i, copied, result)
      decreases |runs| - i
    {
      var closer;
      ghost var more;
      closer, byLength, more := CloserOf(runs, i, byLength);
      moves := moves + more;
      if closer.None? {
        i := i + 1;
      } else {
        output := output + Slice(p, copied, runs[i].start);
        copied := runs[closer.value].end;
        i := closer.value + 1;
      }
    }
    output := output + Slice(p, copied, |p|);
  }
}
