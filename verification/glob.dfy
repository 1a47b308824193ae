/** Globs, matched directly: *, ** and ? over a path, every other character as itself. */
module Globs {

  // A code unit by its number.
  type CodeUnit = int
  type Path = seq<CodeUnit>

  const STAR: CodeUnit := 0x2A
  const QUESTION: CodeUnit := 0x3F
  const SLASH: CodeUnit := 0x2F

  predicate IsDoubleStar(pattern: Path, i: nat) {
    i + 1 < |pattern| && pattern[i] == STAR && pattern[i + 1] == STAR
  }

  /** The pattern from i on covers exactly the path from j on. */
  predicate GlobMatches(pattern: Path, i: nat, path: Path, j: nat)
    requires i <= |pattern| && j <= |path|
    decreases |pattern| - i, |path| - j
  {
    if i == |pattern| then j == |path|
    else if IsDoubleStar(pattern, i) then
      GlobMatches(pattern, i + 2, path, j) || (j < |path| && GlobMatches(pattern, i, path, j + 1))
    else if pattern[i] == STAR then
      GlobMatches(pattern, i + 1, path, j) || (j < |path| && path[j] != SLASH && GlobMatches(pattern, i, path, j + 1))
    else
      j < |path| && (if pattern[i] == QUESTION then path[j] != SLASH else path[j] == pattern[i]) &&
      GlobMatches(pattern, i + 1, path, j + 1)
  }
}

/** What globs promise, whatever they are compiled to. */
module GlobLaws {
  import opened Globs

  function SlashesFrom(path: Path, j: nat): nat
    requires j <= |path|
    decreases |path| - j
  {
    if j == |path| then 0 else (if path[j] == SLASH then 1 else 0) + SlashesFrom(path, j + 1)
  }

  /** Without ** nothing crosses a slash: the path has as many of them as the pattern. */
  lemma {:induction false} StaysInSegments(pattern: Path, i: nat, path: Path, j: nat)
    requires i <= |pattern| && j <= |path| && GlobMatches(pattern, i, path, j)
    requires forall k :: i <= k < |pattern| ==> !IsDoubleStar(pattern, k)
    ensures SlashesFrom(path, j) == SlashesFrom(pattern, i)
    decreases |pattern| - i, |path| - j
  {
    if i < |pattern| {
      if pattern[i] == STAR {
        if GlobMatches(pattern, i + 1, path, j) {
          StaysInSegments(pattern, i + 1, path, j);
        } else {
          StaysInSegments(pattern, i, path, j + 1);
        }
      } else {
        StaysInSegments(pattern, i + 1, path, j + 1);
      }
    }
  }

  /** Without stars a glob matches character by character, ? any but a slash. */
  lemma {:induction false} MatchesEach(pattern: Path, i: nat, path: Path, j: nat)
    requires i <= |pattern| && j <= |path| && forall k :: i <= k < |pattern| ==> pattern[k] != STAR
    ensures GlobMatches(pattern, i, path, j) <==>
            |path| - j == |pattern| - i &&
            forall k :: i <= k < |pattern| ==>
              if pattern[k] == QUESTION then path[k - i + j] != SLASH else path[k - i + j] == pattern[k]
    decreases |pattern| - i
  {
    if i < |pattern| && j < |path| {
      MatchesEach(pattern, i + 1, path, j + 1);
    }
  }

  /** A star covers any part of a segment, and a double star any part of a path. */
  lemma {:induction false} StarsCover(pattern: Path, i: nat, path: Path, j: nat, k: nat)
    requires i < |pattern| && pattern[i] == STAR && j <= k <= |path|
    requires IsDoubleStar(pattern, i) || forall l :: j <= l < k ==> path[l] != SLASH
    requires GlobMatches(pattern, if IsDoubleStar(pattern, i) then i + 2 else i + 1, path, k)
    ensures GlobMatches(pattern, i, path, j)
    decreases k - j
  {
    if j < k {
      StarsCover(pattern, i, path, j + 1, k);
    }
  }
}

/** The part of the ECMAScript pattern grammar that the compiler writes in (section 22.2.1 of ECMA-262). */
module RegexSources {
  import opened Common
  import opened Texts
  import opened Globs

  type Source = Text<CodeUnit>

  const CARET: CodeUnit := 0x5E
  const DOLLAR: CodeUnit := 0x24
  const BACKSLASH: CodeUnit := 0x5C
  const DOT: CodeUnit := 0x2E
  const OPEN_BRACKET: CodeUnit := 0x5B
  const CLOSE_BRACKET: CodeUnit := 0x5D
  const HYPHEN: CodeUnit := 0x2D

  /** ^ $ \ . * + ? ( ) [ ] { } | */
  predicate IsSyntaxCharacter(c: CodeUnit) {
    c in {CARET, DOLLAR, BACKSLASH, DOT, STAR, 0x2B, QUESTION, 0x28, 0x29, OPEN_BRACKET, CLOSE_BRACKET, 0x7B, 0x7D, 0x7C}
  }

  datatype Atom = AnyInLine | Except(c: CodeUnit) | Exactly(c: CodeUnit)

  datatype Term = InputStart | InputEnd | One(atom: Atom) | Many(atom: Atom)

  /** A sequence of terms read from the source; None when it is not one of these. */
  function Parse(source: Source): Option<seq<Term>>
    decreases Size(source)
  {
    if source.End? then Some([])
    else if source.head == CARET then Then([InputStart], Parse(source.tail))
    else if source.head == DOLLAR then Then([InputEnd], Parse(source.tail))
    else
      var atom := ParseAtom(source);
      if atom.None? then None
      else
        var rest := atom.value.1;
        if rest.Char? && rest.head == STAR then
          if rest.tail.Char? && rest.tail.head == QUESTION then None
          else Then([Many(atom.value.0)], Parse(rest.tail))
        else Then([One(atom.value.0)], Parse(rest))
  }

  function Then(terms: seq<Term>, tail: Option<seq<Term>>): Option<seq<Term>> {
    if tail.Some? then Some(terms + tail.value) else None
  }

  /** One atom and the source after it: an escaped character, a dot, a class [^c], or a character. */
  function ParseAtom(source: Source): (r: Option<(Atom, Source)>)
    requires source.Char?
    ensures r.Some? ==> Size(r.value.1) < Size(source)
  {
    var c, rest := source.head, source.tail;
    if c == BACKSLASH then
      if rest.Char? && IsSyntaxCharacter(rest.head) then Some((Exactly(rest.head), rest.tail)) else None
    else if c == DOT then Some((AnyInLine, rest))
    else if c == OPEN_BRACKET then ParseClass(rest)
    else if IsSyntaxCharacter(c) then None
    else Some((Exactly(c), rest))
  }

  /** What follows an opening bracket: a caret, one plain character, and the closing bracket. */
  function ParseClass(rest: Source): (r: Option<(Atom, Source)>)
    ensures r.Some? ==> Size(r.value.1) < Size(rest)
  {
    if rest.Char? && rest.head == CARET && rest.tail.Char? && rest.tail.tail.Char? &&
      rest.tail.head !in {BACKSLASH, CLOSE_BRACKET, HYPHEN} && rest.tail.tail.head == CLOSE_BRACKET
    then
      assert Size(rest.tail) == 1 + Size(rest.tail.tail);
      Some((Except(rest.tail.head), rest.tail.tail.tail))
    else None
  }

  // ---- what a sequence of terms matches -----------------------------------

  predicate IsLineTerminator(c: CodeUnit) { c in {0x0A, 0x0D, 0x2028, 0x2029} }

  predicate AtomMatches(atom: Atom, c: CodeUnit) {
    match atom
    case AnyInLine => !IsLineTerminator(c)
    case Except(d) => c != d
    case Exactly(d) => c == d
  }

  /** Terms t on can be matched from position j on, in some way. */
  predicate Matches(terms: seq<Term>, t: nat, input: Path, j: nat)
    requires t <= |terms| && j <= |input|
    decreases |terms| - t, |input| - j
  {
    if t == |terms| then true
    else
      match terms[t]
      case InputStart => j == 0 && Matches(terms, t + 1, input, j)
      case InputEnd => j == |input| && Matches(terms, t + 1, input, j)
      case One(atom) => j < |input| && AtomMatches(atom, input[j]) && Matches(terms, t + 1, input, j + 1)
      case Many(atom) =>
        Matches(terms, t + 1, input, j) ||
        (j < |input| && AtomMatches(atom, input[j]) && Matches(terms, t, input, j + 1))
  }

  /** RegExp.prototype.test: a match that starts somewhere. */
  ghost predicate Test(terms: seq<Term>, input: Path) {
    exists k :: 0 <= k <= |input| && Matches(terms, 0, input, k)
  }
}

/** The compiler from globs to regular expressions (src/core/glob.ts). */
module GlobCompiler {
  import opened Common
  import opened Texts
  import opened Globs
  import opened RegexSources

  /** What the pattern's character at i is written as. */
  function Piece(pattern: Path, i: nat): Path
    requires i < |pattern|
  {
    if IsDoubleStar(pattern, i) then [DOT, STAR]
    else if pattern[i] == STAR then [OPEN_BRACKET, CARET, SLASH, CLOSE_BRACKET, STAR]
    else if pattern[i] == QUESTION then [OPEN_BRACKET, CARET, SLASH, CLOSE_BRACKET]
    else if IsSyntaxCharacter(pattern[i]) then [BACKSLASH, pattern[i]]
    else [pattern[i]]
  }

  function Next(pattern: Path, i: nat): (next: nat)
    requires i < |pattern|
    ensures i < next <= |pattern|
  {
    if IsDoubleStar(pattern, i) then i + 2 else i + 1
  }

  /** The source from the pattern's character i on. */
  function Compiled(pattern: Path, i: nat): Source
    requires i <= |pattern|
    decreases |pattern| - i
  {
    if i == |pattern| then Char(DOLLAR, End) else Onto(Piece(pattern, i), Compiled(pattern, Next(pattern, i)))
  }

  /** The loop that writes the source. */
  method GlobRegex(pattern: Path) returns (source: Path)
    ensures TextOf(source, 0) == Char(CARET, Compiled(pattern, 0))
  {
    ghost var whole := Char(CARET, Compiled(pattern, 0));
    source := [CARET];
    OntoOne(CARET, Compiled(pattern, 0));
    var index := 0;
    while index < |pattern|
      invariant 0 <= index <= |pattern|
      invariant Onto(source, Compiled(pattern, index)) == whole
    {
      var character := pattern[index];
      var piece;
      ghost var next := Compiled(pattern, Next(pattern, index));
      if character == STAR {
        if index + 1 < |pattern| && pattern[index + 1] == STAR {
          piece := [DOT, STAR];
          index := index + 1;
        } else {
          piece := [OPEN_BRACKET, CARET, SLASH, CLOSE_BRACKET, STAR];
        }
      } else if character == QUESTION {
        piece := [OPEN_BRACKET, CARET, SLASH, CLOSE_BRACKET];
      } else {
        piece := if IsSyntaxCharacter(character) then [BACKSLASH, character] else [character];
      }
      OntoAppend(source, piece, next);
      source := source + piece;
      index := index + 1;
    }
    OntoOne(DOLLAR, End);
    OntoAppend(source, [DOLLAR], End);
    source := source + [DOLLAR];
    BetweenRest(source, |source|);
  }

  lemma OntoOne(a: CodeUnit, t: Source)
    ensures Onto([a], t) == Char(a, t)
  {
    assert Between([a], 0, 0, Char(a, t)) == Char(a, t);
  }

  lemma OntoTwo(a: CodeUnit, b: CodeUnit, t: Source)
    ensures Onto([a, b], t) == Char(a, Char(b, t))
  {
    OntoOne(a, Char(b, t));
    OntoAppend([a], [b], t);
    OntoOne(b, t);
    assert [a] + [b] == [a, b];
  }

  lemma OntoFour(a: CodeUnit, b: CodeUnit, c: CodeUnit, d: CodeUnit, t: Source)
    ensures Onto([a, b, c, d], t) == Char(a, Char(b, Char(c, Char(d, t))))
  {
    OntoTwo(a, b, Char(c, Char(d, t)));
    OntoTwo(c, d, t);
    OntoAppend([a, b], [c, d], t);
    assert [a, b] + [c, d] == [a, b, c, d];
  }

  // ---- the source reads back as what the pattern means ---------------------

  function TermAt(pattern: Path, i: nat): Term
    requires i < |pattern|
  {
    if IsDoubleStar(pattern, i) then Many(AnyInLine)
    else if pattern[i] == STAR then Many(Except(SLASH))
    else if pattern[i] == QUESTION then One(Except(SLASH))
    else One(Exactly(pattern[i]))
  }

  function Terms(pattern: Path, i: nat): seq<Term>
    requires i <= |pattern|
    decreases |pattern| - i
  {
    if i == |pattern| then [InputEnd] else [TermAt(pattern, i)] + Terms(pattern, Next(pattern, i))
  }

  /** No piece of the source begins with a character that would change the piece before it. */
  lemma PieceBegins(pattern: Path, i: nat)
    requires i <= |pattern|
    ensures Compiled(pattern, i).Char? && Compiled(pattern, i).head != STAR && Compiled(pattern, i).head != QUESTION
  {
    if i < |pattern| {
      PieceWritten(pattern, i);
    }
  }

  lemma PieceWritten(pattern: Path, i: nat)
    requires i < |pattern|
    ensures var t := Compiled(pattern, Next(pattern, i));
            Compiled(pattern, i) ==
            if IsDoubleStar(pattern, i) then Char(DOT, Char(STAR, t))
            else if pattern[i] == STAR then Char(OPEN_BRACKET, Char(CARET, Char(SLASH, Char(CLOSE_BRACKET, Char(STAR, t)))))
            else if pattern[i] == QUESTION then Char(OPEN_BRACKET, Char(CARET, Char(SLASH, Char(CLOSE_BRACKET, t))))
            else if IsSyntaxCharacter(pattern[i]) then Char(BACKSLASH, Char(pattern[i], t))
            else Char(pattern[i], t)
  {
    var t := Compiled(pattern, Next(pattern, i));
    if IsDoubleStar(pattern, i) {
      OntoTwo(DOT, STAR, t);
    } else if pattern[i] == STAR {
      OntoFour(OPEN_BRACKET, CARET, SLASH, CLOSE_BRACKET, Char(STAR, t));
      OntoOne(STAR, t);
      OntoAppend([OPEN_BRACKET, CARET, SLASH, CLOSE_BRACKET], [STAR], t);
      assert [OPEN_BRACKET, CARET, SLASH, CLOSE_BRACKET] + [STAR] == Piece(pattern, i);
    } else if pattern[i] == QUESTION {
      OntoFour(OPEN_BRACKET, CARET, SLASH, CLOSE_BRACKET, t);
    } else if IsSyntaxCharacter(pattern[i]) {
      OntoTwo(BACKSLASH, pattern[i], t);
    } else {
      OntoOne(pattern[i], t);
    }
  }

  lemma {:induction false} SourceReadsBack(pattern: Path, i: nat)
    requires i <= |pattern|
    ensures Parse(Compiled(pattern, i)) == Some(Terms(pattern, i))
    decreases |pattern| - i
  {
    if i == |pattern| {
      assert Parse(End) == Some([]) && [InputEnd] + [] == [InputEnd];
    } else {
      var next := Next(pattern, i);
      SourceReadsBack(pattern, next);
      PieceBegins(pattern, next);
      PieceWritten(pattern, i);
    }
  }

  // ---- what the terms match is what the glob matches ------------------------

  /** At term t the terms are those of the pattern from i on. */
  ghost predicate TermsFrom(terms: seq<Term>, t: nat, pattern: Path, i: nat)
    requires i <= |pattern|
    decreases |pattern| - i
  {
    if i == |pattern| then t + 1 == |terms| && terms[t] == InputEnd
    else t + 1 < |terms| && terms[t] == TermAt(pattern, i) && TermsFrom(terms, t + 1, pattern, Next(pattern, i))
  }

  lemma {:induction false} TermsAreFrom(before: seq<Term>, pattern: Path, i: nat)
    requires i <= |pattern|
    ensures TermsFrom(before + Terms(pattern, i), |before|, pattern, i)
    decreases |pattern| - i
  {
    if i < |pattern| {
      var next := Next(pattern, i);
      TermsAreFrom(before + [TermAt(pattern, i)], pattern, next);
      assert before + Terms(pattern, i) == (before + [TermAt(pattern, i)]) + Terms(pattern, next);
      assert Terms(pattern, next) != [];
    }
  }

  predicate InOneLine(path: Path) {
    forall j :: 0 <= j < |path| ==> !IsLineTerminator(path[j])
  }

  /** Whatever the regular expression accepts the glob matches. */
  lemma {:induction false} MatchesOnlyGlob(terms: seq<Term>, t: nat, pattern: Path, i: nat, path: Path, j: nat)
    requires i <= |pattern| && j <= |path| && t <= |terms| && TermsFrom(terms, t, pattern, i)
    requires Matches(terms, t, path, j)
    ensures GlobMatches(pattern, i, path, j)
    decreases |pattern| - i, |path| - j
  {
    if i < |pattern| {
      var next := Next(pattern, i);
      if terms[t].Many? {
        if Matches(terms, t + 1, path, j) {
          MatchesOnlyGlob(terms, t + 1, pattern, next, path, j);
        } else {
          MatchesOnlyGlob(terms, t, pattern, i, path, j + 1);
        }
      } else {
        MatchesOnlyGlob(terms, t + 1, pattern, next, path, j + 1);
      }
    }
  }

  /** The converse, where ** meets no line terminator. */
  lemma {:induction false} GlobMatchesAll(terms: seq<Term>, t: nat, pattern: Path, i: nat, path: Path, j: nat)
    requires i <= |pattern| && j <= |path| && t <= |terms| && TermsFrom(terms, t, pattern, i)
    requires InOneLine(path) || NoDoubleStar(pattern)
    requires GlobMatches(pattern, i, path, j)
    ensures Matches(terms, t, path, j)
    decreases |pattern| - i, |path| - j
  {
    if i == |pattern| {
      assert Matches(terms, t + 1, path, j);
    } else {
      var next := Next(pattern, i);
      if terms[t].Many? {
        if GlobMatches(pattern, next, path, j) {
          GlobMatchesAll(terms, t + 1, pattern, next, path, j);
        } else {
          GlobMatchesAll(terms, t, pattern, i, path, j + 1);
        }
      } else {
        GlobMatchesAll(terms, t + 1, pattern, next, path, j + 1);
      }
    }
  }

  /** No two stars stand side by side. */
  predicate NoDoubleStar(pattern: Path) {
    forall i :: 0 <= i < |pattern| ==> !IsDoubleStar(pattern, i)
  }

  /** matchesGlob: the compiled source, read back and tested on the path. */
  ghost predicate MatchesCompiled(pattern: Path, path: Path) {
    var terms := Parse(Char(CARET, Compiled(pattern, 0)));
    terms.Some? && Test(terms.value, path)
  }

  lemma CompiledReadsBack(pattern: Path)
    ensures Parse(Char(CARET, Compiled(pattern, 0))) == Some([InputStart] + Terms(pattern, 0))
    ensures TermsFrom([InputStart] + Terms(pattern, 0), 1, pattern, 0)
  {
    SourceReadsBack(pattern, 0);
    TermsAreFrom([InputStart], pattern, 0);
  }

  /** On a path without line terminators, or for a pattern without **, compilation keeps the glob's meaning. */
  lemma CompilationKeepsMeaning(pattern: Path, path: Path)
    requires InOneLine(path) || NoDoubleStar(pattern)
    ensures MatchesCompiled(pattern, path) <==> GlobMatches(pattern, 0, path, 0)
  {
    var terms := [InputStart] + Terms(pattern, 0);
    CompiledReadsBack(pattern);
    AcceptedOnlyIfGlob(pattern, path);
    if GlobMatches(pattern, 0, path, 0) {
      GlobMatchesAll(terms, 1, pattern, 0, path, 0);
      assert Matches(terms, 0, path, 0);
    }
  }

  /** On any path at all, what the compiled pattern accepts the glob matches. */
  lemma AcceptedOnlyIfGlob(pattern: Path, path: Path)
    ensures MatchesCompiled(pattern, path) ==> GlobMatches(pattern, 0, path, 0)
  {
    var terms := [InputStart] + Terms(pattern, 0);
    CompiledReadsBack(pattern);
    if MatchesCompiled(pattern, path) {
      var k :| 0 <= k <= |path| && Matches(terms, 0, path, k);
      assert k == 0 && Matches(terms, 1, path, 0);
      MatchesOnlyGlob(terms, 1, pattern, 0, path, 0);
    }
  }

  /** A path means the same to every glob and its compiled form exactly when it has no line terminator. */
  lemma EveryGlobKeepsMeaningIff(path: Path)
    ensures (forall pattern :: MatchesCompiled(pattern, path) <==> GlobMatches(pattern, 0, path, 0)) <==> InOneLine(path)
  {
    if InOneLine(path) {
      forall pattern ensures MatchesCompiled(pattern, path) <==> GlobMatches(pattern, 0, path, 0) {
        CompilationKeepsMeaning(pattern, path);
      }
    } else {
      var anything := [STAR, STAR];
      AnythingMatches(path, 0);
      CompiledReadsBack(anything);
      var terms := [InputStart] + Terms(anything, 0);
      assert Terms(anything, 2) == [InputEnd];
      assert terms == [InputStart, Many(AnyInLine), InputEnd];
      if MatchesCompiled(anything, path) {
        var k :| 0 <= k <= |path| && Matches(terms, 0, path, k);
        DotStarStaysInLine(terms, path, 0);
      }
      assert !(MatchesCompiled(anything, path) <==> GlobMatches(anything, 0, path, 0));
    }
  }

  lemma {:induction false} AnythingMatches(path: Path, j: nat)
    requires j <= |path|
    ensures GlobMatches([STAR, STAR], 0, path, j)
    decreases |path| - j
  {
    if j < |path| {
      AnythingMatches(path, j + 1);
    } else {
      assert GlobMatches([STAR, STAR], 2, path, j);
    }
  }

  lemma {:induction false} DotStarStaysInLine(terms: seq<Term>, path: Path, j: nat)
    requires terms == [InputStart, Many(AnyInLine), InputEnd] && j <= |path| && Matches(terms, 1, path, j)
    ensures forall k :: j <= k < |path| ==> !IsLineTerminator(path[k])
    decreases |path| - j
  {
    if j < |path| {
      assert !Matches(terms, 2, path, j);
      DotStarStaysInLine(terms, path, j + 1);
    }
  }
}
