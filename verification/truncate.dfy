/** Lengths in UTF-8 bytes of UTF-16 text (byteLength in src/coding/protocol.ts). */
module TextMeasures {
  import opened JsonScan

  predicate IsHigh(c: CodeUnit) { 0xD800 <= c <= 0xDBFF }

  predicate IsLow(c: CodeUnit) { 0xDC00 <= c <= 0xDFFF }

  /** A unit on its own; an unpaired surrogate is written as U+FFFD, three bytes. */
  function UnitBytes(c: CodeUnit): nat {
    if c < 0x80 then 1 else if c < 0x800 then 2 else 3
  }

  /** Units k - 1 and k are the two halves of one character. */
  predicate IsPairAt(s: Text, k: nat) {
    0 < k < |s| && IsHigh(s[k - 1]) && IsLow(s[k])
  }

  /** The bytes of the first k units: a pair takes four, two less than its halves apart. */
  function BytesTo(s: Text, k: nat): int
    requires k <= |s|
  {
    if k == 0 then 0
    else BytesTo(s, k - 1) + UnitBytes(s[k - 1]) - if IsPairAt(s, k - 1) then 2 else 0
  }

  /** Every unit adds at least a byte. */
  lemma {:induction false} BytesGrow(s: Text, j: nat, k: nat)
    requires j <= k <= |s|
    ensures BytesTo(s, k) >= BytesTo(s, j) + (k - j)
    decreases k
  {
    if j < k {
      BytesGrow(s, j, k - 1);
    }
  }

  function ByteLength(s: Text): nat {
    BytesGrow(s, 0, |s|);
    BytesTo(s, |s|)
  }

  function UnitLength(s: Text): nat {
    |s|
  }

  /**
   * What truncation asks of a measure and a marker: nothing measures nothing,
   * a prefix measures no more, and a marker adds at most its own measure.
   */
  ghost predicate IsMeasure(measure: Text -> nat, marker: Text) {
    measure([]) == 0 &&
    (forall s, k :: 0 <= k <= |s| ==> measure(s[..k]) <= measure(s)) &&
    (forall s :: measure(s + marker) <= measure(s) + measure(marker))
  }

  lemma {:induction false} BytesOfPrefix(s: Text, k: nat, j: nat)
    requires j <= k <= |s|
    ensures BytesTo(s[..k], j) == BytesTo(s, j)
    decreases j
  {
    if j > 0 {
      BytesOfPrefix(s, k, j - 1);
    }
  }

  /** Written one after the other, two texts take their bytes together, less two where a pair closes up. */
  lemma {:induction false} BytesOfBoth(s: Text, t: Text, j: nat)
    requires j <= |t|
    ensures BytesTo(s + t, |s| + j) ==
            ByteLength(s) + BytesTo(t, j) - if j > 0 && IsPairAt(s + t, |s|) then 2 else 0
    decreases j
  {
    if j == 0 {
      BytesOfPrefix(s + t, |s|, |s|);
      assert (s + t)[..|s|] == s;
    } else {
      BytesOfBoth(s, t, j - 1);
      assert (s + t)[|s| + j - 1] == t[j - 1];
      if j > 1 {
        assert (s + t)[|s| + j - 2] == t[j - 2];
      }
    }
  }

  lemma BytesAreAMeasure(marker: Text)
    ensures IsMeasure(ByteLength, marker)
  {
    forall s: Text, k | 0 <= k <= |s| ensures ByteLength(s[..k]) <= ByteLength(s) {
      BytesOfPrefix(s, k, k);
      BytesGrow(s, k, |s|);
    }
    forall s ensures ByteLength(s + marker) <= ByteLength(s) + ByteLength(marker) {
      BytesOfBoth(s, marker, |marker|);
    }
  }

  lemma UnitsAreAMeasure(marker: Text)
    ensures IsMeasure(UnitLength, marker)
  {
  }
}

/** Cutting over-long text down to a limit (truncateText in src/coding/protocol.ts). */
module Truncation {
  import opened JsonScan
  import opened TextMeasures

  const LINE_FEED: CodeUnit := 10

  function TrimEnd(s: Text): (r: Text)
    ensures |r| <= |s|
  {
    if s != [] && IsSpace(s[|s| - 1]) then TrimEnd(s[..|s| - 1]) else s
  }

  /** Both ends trimmed. */
  function Trim(s: Text): Text {
    TrimEnd(SkipSpace(s))
  }

  /** The last line feed among the first k units; -1 when there is none. */
  function LastLineFeed(s: Text, k: nat): (i: int)
    requires k <= |s|
    ensures -1 <= i < k && (i >= 0 ==> s[i] == LINE_FEED)
  {
    if k == 0 then -1 else if s[k - 1] == LINE_FEED then k - 1 else LastLineFeed(s, k - 1)
  }

  // ---- the cut ------------------------------------------------------------

  /** Not ending on the first half of a pair. */
  function WholeUnits(cut: Text): Text {
    if cut != [] && IsHigh(cut[|cut| - 1]) then cut[..|cut| - 1] else cut
  }

  /** Back to the last line break, when one is in the second half. */
  function AtLineBreak(cut: Text): Text {
    var i := LastLineFeed(cut, |cut|);
    if i * 2 > |cut| then cut[..i] else cut
  }

  function Kept(text: Text, k: nat): Text
    requires k <= |text|
  {
    TrimEnd(AtLineBreak(WholeUnits(text[..k])))
  }

  /** The first k units are the longest prefix that measures at most `room`. */
  ghost predicate IsLongestFit(text: Text, room: int, measure: Text -> nat, k: nat) {
    k <= |text| && measure(text[..k]) <= room && forall m :: k < m <= |text| ==> measure(text[..m]) > room
  }

  /** What truncation may answer. */
  ghost predicate IsTruncation(text: Text, max: int, measure: Text -> nat, marker: Text, r: Text) {
    var room := max - measure(marker);
    if measure(text) <= max then r == text
    else if room <= 0 then r == Trim(marker)
    else exists k: nat :: IsLongestFit(text, room, measure, k) && r == Kept(text, k) + marker
  }

  /** The binary search, over any measure under which longer prefixes measure no less. */
  method TruncateText(text: Text, max: int, measure: Text -> nat, marker: Text) returns (r: Text)
    requires IsMeasure(measure, marker)
    ensures IsTruncation(text, max, measure, marker, r)
  {
    if measure(text) <= max {
      return text;
    }
    var room := max - measure(marker);
    if room <= 0 {
      return Trim(marker);
    }
    var low, high := 0, |text|;
    assert text[..0] == [];
    while low < high
      invariant 0 <= low <= high <= |text|
      invariant measure(text[..low]) <= room
      invariant forall m :: high < m <= |text| ==> measure(text[..m]) > room
    {
      var mid := (low + high + 1) / 2;
      if measure(text[..mid]) <= room {
        low := mid;
      } else {
        forall m | mid <= m <= |text| ensures measure(text[..m]) > room {
          assert text[..m][..mid] == text[..mid];
        }
        high := mid - 1;
      }
    }
    assert IsLongestFit(text, room, measure, low);
    var cut := text[..low];
    if cut != [] && IsHigh(cut[|cut| - 1]) {
      cut := cut[..|cut| - 1];
    }
    var lineBreak := LastLineFeed(cut, |cut|);
    if lineBreak * 2 > |cut| {
      cut := cut[..lineBreak];
    }
    r := TrimEnd(cut) + marker;
    assert r == Kept(text, low) + marker;
  }

  // ---- what the answer is -------------------------------------------------

  lemma {:induction false} TrimEndIsPrefix(s: Text)
    ensures TrimEnd(s) == s[..|TrimEnd(s)|]
    ensures |TrimEnd(s)| < |s| ==> IsSpace(s[|TrimEnd(s)|])
    decreases |s|
  {
    if s != [] && IsSpace(s[|s| - 1]) {
      var t := s[..|s| - 1];
      TrimEndIsPrefix(t);
      assert t[..|TrimEnd(t)|] == s[..|TrimEnd(t)|];
    }
  }

  /**
   * The kept part is a prefix of the text, no longer than the longest fit, and
   * does not end between the two halves of a character.
   */
  lemma KeptIsAPrefix(text: Text, k: nat)
    requires k <= |text|
    ensures |Kept(text, k)| <= k && Kept(text, k) == text[..|Kept(text, k)|]
    ensures !IsPairAt(text, |Kept(text, k)|)
  {
    var cut := WholeUnits(text[..k]);
    var line := AtLineBreak(cut);
    assert cut == text[..|cut|] && line == text[..|line|];
    TrimEndIsPrefix(line);
    assert line[..|TrimEnd(line)|] == text[..|TrimEnd(line)|];
    if |line| < |cut| {
      assert text[|line|] == LINE_FEED;
    }
  }

  /** An answer fits the limit exactly when the text did, or the marker left room, or the bare marker fits. */
  lemma FitsIff(text: Text, max: int, measure: Text -> nat, marker: Text, r: Text)
    requires IsMeasure(measure, marker) && IsTruncation(text, max, measure, marker, r)
    ensures measure(r) <= max <==>
            measure(text) <= max || measure(marker) < max || measure(Trim(marker)) <= max
  {
    var room := max - measure(marker);
    if measure(text) > max && room > 0 {
      var k: nat :| IsLongestFit(text, room, measure, k) && r == Kept(text, k) + marker;
      KeptIsAPrefix(text, k);
      var kept := Kept(text, k);
      assert text[..k][..|kept|] == kept;
    }
  }

  /** Truncating again changes nothing. */
  lemma TruncatedIsStable(text: Text, max: int, measure: Text -> nat, marker: Text, r: Text, again: Text)
    requires IsMeasure(measure, marker)
    requires IsTruncation(text, max, measure, marker, r) && IsTruncation(r, max, measure, marker, again)
    ensures again == r
  {
    FitsIff(text, max, measure, marker, r);
  }

  /** A text has one answer. */
  lemma OneAnswer(text: Text, max: int, measure: Text -> nat, marker: Text, r: Text, r': Text)
    requires IsTruncation(text, max, measure, marker, r) && IsTruncation(text, max, measure, marker, r')
    ensures r == r'
  {
    var room := max - measure(marker);
    if measure(text) > max && room > 0 {
      var k: nat :| IsLongestFit(text, room, measure, k) && r == Kept(text, k) + marker;
      var k': nat :| IsLongestFit(text, room, measure, k') && r' == Kept(text, k') + marker;
      assert k == k';
    }
  }

  lemma {:induction false} OnlySpaceIsTrimmed(s: Text, i: nat)
    requires |TrimEnd(s)| <= i < |s|
    ensures IsSpace(s[i])
    decreases |s|
  {
    if i < |s| - 1 {
      OnlySpaceIsTrimmed(s[..|s| - 1], i);
    }
  }

  lemma {:induction false} TrimmedEndsInNoSpace(s: Text)
    ensures TrimEnd(s) != [] ==> !IsSpace(TrimEnd(s)[|TrimEnd(s)| - 1])
    decreases |s|
  {
    if s != [] && IsSpace(s[|s| - 1]) {
      TrimmedEndsInNoSpace(s[..|s| - 1]);
    }
  }

  lemma {:induction false} NoLaterLineFeed(s: Text, k: nat, i: nat)
    requires k <= |s| && LastLineFeed(s, k) < i < k
    ensures s[i] != LINE_FEED
    decreases k
  {
    if i < k - 1 {
      NoLaterLineFeed(s, k - 1, i);
    }
  }

  /** Where the longest fit ends when it may not split a pair. */
  function WholeEnd(text: Text, k: nat): nat
    requires k <= |text|
  {
    if k > 0 && IsHigh(text[k - 1]) then k - 1 else k
  }

  /** The last line feed of the second half of the first n units, or n when there is none. */
  ghost predicate IsLineEnd(text: Text, n: nat, line: nat) {
    line <= n <= |text| && (line < n ==> text[line] == LINE_FEED && 2 * line > n) &&
    forall i :: 0 <= i < n && 2 * i > n && (line < i || line == n) ==> text[i] != LINE_FEED
  }

  /**
   * What a truncated text loses of its longest fit: the first half of a split
   * pair; then all from its last line break on, exactly when that lies in the
   * second half; and then white space, all there is.
   */
  lemma WhatIsDropped(text: Text, max: int, measure: Text -> nat, marker: Text, r: Text) returns (k: nat, line: nat)
    requires IsTruncation(text, max, measure, marker, r) && measure(marker) < max < measure(text)
    ensures IsLongestFit(text, max - measure(marker), measure, k) && IsLineEnd(text, WholeEnd(text, k), line)
    ensures |r| - |marker| <= line && r == text[..|r| - |marker|] + marker
    ensures forall i :: |r| - |marker| <= i < line ==> IsSpace(text[i])
    ensures |r| > |marker| ==> !IsSpace(text[|r| - |marker| - 1])
  {
    k :| IsLongestFit(text, max - measure(marker), measure, k) && r == Kept(text, k) + marker;
    line := CutBack(text, k);
    TrimmedCut(text, line);
  }

  /** A prefix loses the white space at its end, all of it and nothing else. */
  lemma TrimmedCut(text: Text, line: nat)
    requires line <= |text|
    ensures var kept := TrimEnd(text[..line]);
            |kept| <= line && kept == text[..|kept|] && (forall i :: |kept| <= i < line ==> IsSpace(text[i])) &&
            (kept != [] ==> !IsSpace(text[|kept| - 1]))
  {
    var cut := text[..line];
    TrimEndIsPrefix(cut);
    TrimmedEndsInNoSpace(cut);
    assert cut[..|TrimEnd(cut)|] == text[..|TrimEnd(cut)|];
    forall i | |TrimEnd(cut)| <= i < line ensures IsSpace(text[i]) {
      OnlySpaceIsTrimmed(cut, i);
    }
  }

  /** Where the longest fit is cut before its end is trimmed. */
  lemma CutBack(text: Text, k: nat) returns (line: nat)
    requires k <= |text|
    ensures IsLineEnd(text, WholeEnd(text, k), line) && Kept(text, k) == TrimEnd(text[..line])
  {
    var cut := WholeUnits(text[..k]);
    assert cut == text[..|cut|] && |cut| == WholeEnd(text, k);
    line := |AtLineBreak(cut)|;
    assert AtLineBreak(cut) == text[..line];
    forall i | LastLineFeed(cut, |cut|) < i < |cut| ensures text[i] != LINE_FEED {
      NoLaterLineFeed(cut, |cut|, i);
    }
  }

  /**
   * In bytes, with a marker that does not begin on the second half of a pair,
   * the longest fit is exactly the longest prefix that fits with the marker
   * written after it.
   */
  lemma LongestWithMarker(text: Text, max: int, marker: Text, k: nat, m: nat)
    requires marker != [] && !IsLow(marker[0])
    requires IsLongestFit(text, max - ByteLength(marker), ByteLength, k) && m <= |text|
    ensures ByteLength(text[..m] + marker) <= max <==> m <= k
  {
    BytesOfBoth(text[..m], marker, |marker|);
    if m <= k {
      BytesOfPrefix(text, m, m);
      BytesOfPrefix(text, k, k);
      BytesGrow(text, m, k);
    }
  }

  /** With no room for the marker the answer can be over the limit: any over-long text, limit 0. */
  lemma NoRoomIsOver(marker: Text)
    requires Trim(marker) != []
    ensures IsTruncation([0x78], 0, ByteLength, marker, Trim(marker)) && ByteLength(Trim(marker)) > 0
  {
    BytesGrow(Trim(marker), 1, |Trim(marker)|);
    assert BytesTo([0x78], 1) == 1;
  }
}
