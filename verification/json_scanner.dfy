/**
 * The duplicate-key-rejecting JSON scanner (parseJsonWithoutDuplicateKeys in
 * src/coding/protocol.ts), first as functions from the text that is left to
 * the text that is left. Text is a sequence of UTF-16 code units.
 */
module JsonScan {
  import opened Common

  // A code unit by its number; nothing below needs the bound 0x10000.
  type CodeUnit = int
  type Text = seq<CodeUnit>

  const QUOTE: CodeUnit := 0x22
  const BACKSLASH: CodeUnit := 0x5C
  const SLASH: CodeUnit := 0x2F
  const COMMA: CodeUnit := 0x2C
  const COLON: CodeUnit := 0x3A
  const MINUS: CodeUnit := 0x2D
  const PLUS: CodeUnit := 0x2B
  const DOT: CodeUnit := 0x2E
  const ZERO: CodeUnit := 0x30
  const OPEN_BRACE: CodeUnit := 0x7B
  const CLOSE_BRACE: CodeUnit := 0x7D
  const OPEN_BRACKET: CodeUnit := 0x5B
  const CLOSE_BRACKET: CodeUnit := 0x5D
  const LETTER_B: CodeUnit := 0x62
  const LETTER_F: CodeUnit := 0x66
  const LETTER_N: CodeUnit := 0x6E
  const LETTER_R: CodeUnit := 0x72
  const LETTER_T: CodeUnit := 0x74
  const LETTER_U: CodeUnit := 0x75
  const TRUE: Text := [0x74, 0x72, 0x75, 0x65]
  const FALSE: Text := [0x66, 0x61, 0x6C, 0x73, 0x65]
  const NULL: Text := [0x6E, 0x75, 0x6C, 0x6C]

  const MAX_JSON_NESTING_DEPTH := 64

  datatype Error = InvalidJson | DuplicateKey(key: Text) | NestingLimit

  /** What is left after a value, or why the scan stopped. */
  datatype Scan = Left(rest: Text) | Stop(error: Error)

  // ---- whitespace, strings, tokens ----------------------------------------

  /** The regular expression \s, which is wider than JSON's own whitespace. */
  predicate IsSpace(c: CodeUnit) {
    9 <= c <= 13 || c == 0x20 || c == 0xA0 || c == 0x1680 || 0x2000 <= c <= 0x200A || c == 0x2028 || c == 0x2029 ||
    c == 0x202F || c == 0x205F || c == 0x3000 || c == 0xFEFF
  }

  function SkipSpace(s: Text): (rest: Text)
    ensures |rest| <= |s|
  {
    if s != [] && IsSpace(s[0]) then SkipSpace(s[1..]) else s
  }

  predicate IsHexDigit(c: CodeUnit) {
    0x30 <= c <= 0x39 || 0x41 <= c <= 0x46 || 0x61 <= c <= 0x66
  }

  function HexValue(c: CodeUnit): nat
    requires IsHexDigit(c)
  {
    if c <= 0x39 then c - 0x30 else if c <= 0x46 then c - 0x41 + 10 else c - 0x61 + 10
  }

  predicate IsShortEscape(c: CodeUnit) {
    c in {QUOTE, BACKSLASH, SLASH, LETTER_B, LETTER_F, LETTER_N, LETTER_R, LETTER_T}
  }

  function ShortEscapeValue(c: CodeUnit): CodeUnit
    requires IsShortEscape(c)
  {
    if c == LETTER_B then 8 else if c == LETTER_F then 12 else if c == LETTER_N then 10
    else if c == LETTER_R then 13 else if c == LETTER_T then 9 else c
  }

  predicate IsHex4(h: Text) {
    |h| == 4 && IsHexDigit(h[0]) && IsHexDigit(h[1]) && IsHexDigit(h[2]) && IsHexDigit(h[3])
  }

  function Hex4Value(h: Text): CodeUnit
    requires IsHex4(h)
  {
    HexValue(h[0]) * 0x1000 + HexValue(h[1]) * 0x100 + HexValue(h[2]) * 0x10 + HexValue(h[3])
  }

  /** What JSON.parse makes of a string's body (section 7 of RFC 8259); None when it throws. */
  function Decode(body: Text): Option<Text> {
    if body == [] then Some([])
    else if body[0] == BACKSLASH then
      if |body| >= 2 && IsShortEscape(body[1]) then
        var tail := Decode(body[2..]);
        if tail.Some? then Some([ShortEscapeValue(body[1])] + tail.value) else None
      else if |body| >= 6 && body[1] == LETTER_U && IsHex4(body[2..6]) then
        var tail := Decode(body[6..]);
        if tail.Some? then Some([Hex4Value(body[2..6])] + tail.value) else None
      else None
    else if body[0] == QUOTE || body[0] < 0x20 then None
    else
      var tail := Decode(body[1..]);
      if tail.Some? then Some([body[0]] + tail.value) else None
  }

  /** The text after an opening quote, split at the closing one; an escape hides the unit after it. */
  datatype Split = Closed(body: Text, rest: Text) | Unclosed

  function SplitString(s: Text): (r: Split)
    ensures r.Closed? ==> |s| == |r.body| + 1 + |r.rest|
  {
    if s == [] then Unclosed
    else if s[0] == QUOTE then Closed([], s[1..])
    else if s[0] == BACKSLASH then
      if |s| < 2 then Unclosed
      else
        var tail := SplitString(s[2..]);
        if tail.Closed? then Closed([s[0], s[1]] + tail.body, tail.rest) else Unclosed
    else if s[0] < 0x20 then Unclosed
    else
      var tail := SplitString(s[1..]);
      if tail.Closed? then Closed([s[0]] + tail.body, tail.rest) else Unclosed
  }

  /** The split of a text that begins with these units, from the split of what follows them. */
  function Prefixed(before: Text, tail: Split): Split {
    if tail.Closed? then Closed(before + tail.body, tail.rest) else Unclosed
  }

  lemma SplitPlain(c: CodeUnit, t: Text)
    requires c != QUOTE && c != BACKSLASH && c >= 0x20
    ensures SplitString([c] + t) == Prefixed([c], SplitString(t))
  {
    assert ([c] + t)[1..] == t;
  }

  lemma SplitEscape(c: CodeUnit, t: Text)
    ensures SplitString([BACKSLASH, c] + t) == Prefixed([BACKSLASH, c], SplitString(t))
  {
    assert ([BACKSLASH, c] + t)[2..] == t;
  }

  datatype StringScan = Key(key: Text, rest: Text) | NoString

  function ScanString(s: Text): (r: StringScan)
    ensures r.Key? ==> |r.rest| < |s|
  {
    if s == [] || s[0] != QUOTE then NoString
    else
      var split := SplitString(s[1..]);
      if split.Unclosed? then NoString
      else
        var key := Decode(split.body);
        if key.Some? then Key(key.value, split.rest) else NoString
  }

  predicate IsDigit(c: CodeUnit) { 0x30 <= c <= 0x39 }

  function SkipDigits(s: Text): (rest: Text)
    ensures |rest| <= |s|
    ensures s != [] && IsDigit(s[0]) ==> |rest| < |s|
  {
    if s != [] && IsDigit(s[0]) then SkipDigits(s[1..]) else s
  }

  function SkipFraction(s: Text): (rest: Text)
    ensures |rest| <= |s|
  {
    if |s| >= 2 && s[0] == DOT && IsDigit(s[1]) then SkipDigits(s[1..]) else s
  }

  function SkipExponent(s: Text): (rest: Text)
    ensures |rest| <= |s|
  {
    if |s| >= 2 && (s[0] == 0x65 || s[0] == 0x45) then
      var digits := if s[1] == PLUS || s[1] == MINUS then s[2..] else s[1..];
      if digits != [] && IsDigit(digits[0]) then SkipDigits(digits) else s
    else s
  }

  /** The number, true, false or null at the front, by the scanner's regular expression: the rest after its longest match. */
  function ScanToken(s: Text): (r: Option<Text>)
    ensures r.Some? ==> |r.value| < |s|
  {
    var n := if s != [] && s[0] == MINUS then s[1..] else s;
    if n != [] && n[0] == ZERO then Some(SkipExponent(SkipFraction(n[1..])))
    else if n != [] && IsDigit(n[0]) then Some(SkipExponent(SkipFraction(SkipDigits(n))))
    else if TRUE <= s then Some(s[4..])
    else if FALSE <= s then Some(s[5..])
    else if NULL <= s then Some(s[4..])
    else None
  }

  // ---- values -------------------------------------------------------------

  function ScanValue(text: Text, depth: nat): (r: Scan)
    ensures r.Left? ==> |r.rest| < |text|
    decreases |text|, 0
  {
    if depth > MAX_JSON_NESTING_DEPTH then Stop(NestingLimit)
    else
      var s := SkipSpace(text);
      if s != [] && s[0] == OPEN_BRACE then
        var inner := SkipSpace(s[1..]);
        if inner != [] && inner[0] == CLOSE_BRACE then Left(inner[1..]) else ScanMembers(inner, depth, {})
      else if s != [] && s[0] == OPEN_BRACKET then
        var inner := SkipSpace(s[1..]);
        if inner != [] && inner[0] == CLOSE_BRACKET then Left(inner[1..]) else ScanElements(inner, depth)
      else if s != [] && s[0] == QUOTE then
        var str := ScanString(s);
        if str.Key? then Left(str.rest) else Stop(InvalidJson)
      else
        var token := ScanToken(s);
        if token.Some? then Left(token.value) else Stop(InvalidJson)
  }

  function ScanMembers(text: Text, depth: nat, keys: set<Text>): (r: Scan)
    ensures r.Left? ==> |r.rest| < |text|
    decreases |text|, 1
  {
    var str := ScanString(SkipSpace(text));
    if str.NoString? then Stop(InvalidJson)
    else if str.key in keys then Stop(DuplicateKey(str.key))
    else
      var colon := SkipSpace(str.rest);
      if colon == [] || colon[0] != COLON then Stop(InvalidJson)
      else
        var value := ScanValue(colon[1..], depth + 1);
        if value.Stop? then value
        else
          var separator := SkipSpace(value.rest);
          if separator != [] && separator[0] == CLOSE_BRACE then Left(separator[1..])
          else if separator != [] && separator[0] == COMMA then ScanMembers(separator[1..], depth, keys + {str.key})
          else Stop(InvalidJson)
  }

  /** How an object goes on at the separator after a member. */
  function AfterMember(separator: Text, depth: nat, keys: set<Text>): Scan {
    if separator != [] && separator[0] == CLOSE_BRACE then Left(separator[1..])
    else if separator != [] && separator[0] == COMMA then ScanMembers(separator[1..], depth, keys)
    else Stop(InvalidJson)
  }

  function ScanElements(text: Text, depth: nat): (r: Scan)
    ensures r.Left? ==> |r.rest| < |text|
    decreases |text|, 1
  {
    var value := ScanValue(text, depth + 1);
    if value.Stop? then value
    else
      var separator := SkipSpace(value.rest);
      if separator != [] && separator[0] == CLOSE_BRACKET then Left(separator[1..])
      else if separator != [] && separator[0] == COMMA then ScanElements(separator[1..], depth)
      else Stop(InvalidJson)
  }

  /** The whole text is one value between whitespace; None is acceptance. */
  function ScanText(text: Text): Option<Error> {
    var value := ScanValue(text, 0);
    if value.Stop? then Some(value.error)
    else if SkipSpace(value.rest) != [] then Some(InvalidJson)
    else None
  }
}

/** The scanner as the program runs it: one shared cursor that only moves forward. */
module JsonCursor {
  import opened Common
  import opened JsonScan

  /** Where the string whose body starts at o closes. */
  function CloseIndex(text: Text, o: nat): Option<nat>
    decreases |text| - o
  {
    if o >= |text| then None
    else if text[o] == QUOTE then Some(o)
    else if text[o] == BACKSLASH then CloseIndex(text, o + 2)
    else if text[o] < 0x20 then None
    else CloseIndex(text, o + 1)
  }

  ghost function SplitAt(text: Text, o: nat, close: Option<nat>): Split
    requires close.Some? ==> o <= close.value < |text|
  {
    if close.Some? then Closed(text[o..close.value], text[close.value + 1..]) else Unclosed
  }

  lemma {:induction false} CloseIndexBound(text: Text, o: nat)
    ensures CloseIndex(text, o).Some? ==> o <= CloseIndex(text, o).value < |text|
    decreases |text| - o
  {
    if o < |text| && text[o] != QUOTE {
      CloseIndexBound(text, if text[o] == BACKSLASH then o + 2 else o + 1);
    }
  }

  lemma PlainStep(text: Text, o: nat, close: Option<nat>)
    requires o < |text| && text[o] != QUOTE && text[o] != BACKSLASH && text[o] >= 0x20
    requires close.Some? ==> o + 1 <= close.value < |text|
    requires SplitString(text[o + 1..]) == SplitAt(text, o + 1, close)
    ensures SplitString(text[o..]) == SplitAt(text, o, close)
  {
    assert text[o..] == [text[o]] + text[o + 1..];
    SplitPlain(text[o], text[o + 1..]);
    if close.Some? {
      assert text[o..close.value] == [text[o]] + text[o + 1..close.value];
    }
  }

  lemma EscapeStep(text: Text, o: nat, close: Option<nat>)
    requires o + 1 < |text| && text[o] == BACKSLASH
    requires close.Some? ==> o + 2 <= close.value < |text|
    requires SplitString(text[o + 2..]) == SplitAt(text, o + 2, close)
    ensures SplitString(text[o..]) == SplitAt(text, o, close)
  {
    assert text[o..] == [BACKSLASH, text[o + 1]] + text[o + 2..];
    SplitEscape(text[o + 1], text[o + 2..]);
    if close.Some? {
      assert text[o..close.value] == [BACKSLASH, text[o + 1]] + text[o + 2..close.value];
    }
  }

  /** Splitting the text left at o is finding the closing quote from o. */
  lemma {:induction false} CloseIndexSplits(text: Text, o: nat)
    requires o <= |text|
    ensures CloseIndex(text, o).Some? ==> o <= CloseIndex(text, o).value < |text|
    ensures SplitString(text[o..]) == SplitAt(text, o, CloseIndex(text, o))
    decreases |text| - o
  {
    CloseIndexBound(text, o);
    if o < |text| && text[o] == QUOTE {
      assert text[o..][1..] == text[o + 1..];
    } else if o + 1 < |text| && text[o] == BACKSLASH {
      CloseIndexSplits(text, o + 2);
      EscapeStep(text, o, CloseIndex(text, o + 2));
    } else if o < |text| && text[o] != BACKSLASH && text[o] >= 0x20 {
      CloseIndexSplits(text, o + 1);
      PlainStep(text, o, CloseIndex(text, o + 1));
    }
  }

  /** The loop that looks for a string's closing quote from o. */
  method FindClose(text: Text, o: nat) returns (close: Option<nat>)
    ensures close == CloseIndex(text, o)
  {
    var offset := o;
    while offset < |text|
      invariant CloseIndex(text, o) == CloseIndex(text, offset)
    {
      var character := text[offset];
      offset := offset + 1;
      if character == QUOTE {
        return Some(offset - 1);
      }
      if character == BACKSLASH {
        offset := offset + 1;
      } else if character < 0x20 {
        return None;
      }
    }
    close := None;
  }

  class Scanner {
    const text: Text
    var offset: nat

    constructor (text: Text)
      ensures this.text == text && offset == 0
    {
      this.text := text;
      offset := 0;
    }

    function Ahead(): Text
      requires offset <= |text|
      reads this
    {
      text[offset..]
    }

    /** Steps over c when it is under the cursor. */
    method Take(c: CodeUnit) returns (taken: bool)
      requires offset <= |text|
      modifies this
      ensures taken <==> old(Ahead()) != [] && old(Ahead())[0] == c
      ensures taken ==> offset == old(offset) + 1 <= |text| && Ahead() == old(Ahead())[1..]
      ensures !taken ==> offset == old(offset)
    {
      taken := offset < |text| && text[offset] == c;
      if taken {
        offset := offset + 1;
      }
    }

    method Whitespace()
      requires offset <= |text|
      modifies this
      ensures old(offset) <= offset <= |text| && Ahead() == SkipSpace(old(Ahead()))
    {
      ghost var ahead := Ahead();
      while offset < |text| && IsSpace(text[offset])
        invariant old(offset) <= offset <= |text|
        invariant SkipSpace(Ahead()) == SkipSpace(ahead)
      {
        assert Ahead()[1..] == text[offset + 1..];
        offset := offset + 1;
      }
    }

    /** The string under the cursor, decoded; None when there is none or it is malformed. */
    method String() returns (key: Option<Text>)
      requires offset <= |text|
      modifies this
      ensures key.Some? <==> ScanString(old(Ahead())).Key?
      ensures key.Some? ==> old(offset) < offset <= |text| && ScanString(old(Ahead())) == Key(key.value, Ahead())
    {
      var start := offset;
      if offset >= |text| || text[offset] != QUOTE {
        return None;
      }
      assert Ahead()[1..] == text[start + 1..];
      CloseIndexSplits(text, start + 1);
      var close := FindClose(text, start + 1);
      if close.None? {
        return None;
      }
      offset := close.value + 1;
      key := Decode(text[start + 1..close.value]);
    }

    method Token() returns (found: bool)
      requires offset <= |text|
      modifies this
      ensures found <==> ScanToken(old(Ahead())).Some?
      ensures found ==> old(offset) < offset <= |text| && ScanToken(old(Ahead())) == Some(Ahead())
    {
      var token := ScanToken(text[offset..]);
      if token.None? {
        return false;
      }
      TokenIsSuffix(text[offset..]);
      offset := |text| - |token.value|;
      found := true;
    }

    /** One value at this depth; the error it stops at, or None with the cursor just after it. */
    method Value(depth: nat) returns (error: Option<Error>)
      requires offset <= |text|
      modifies this
      ensures error.None? ==> old(offset) < offset <= |text| && ScanValue(old(Ahead()), depth) == Left(Ahead())
      ensures error.Some? ==> ScanValue(old(Ahead()), depth) == Stop(error.value)
      decreases |text| - offset, 0
    {
      if depth > MAX_JSON_NESTING_DEPTH {
        return Some(NestingLimit);
      }
      Whitespace();
      var open := Take(OPEN_BRACE);
      if open {
        Whitespace();
        var close := Take(CLOSE_BRACE);
        if close {
          return None;
        }
        error := Members(depth);
        return error;
      }
      open := Take(OPEN_BRACKET);
      if open {
        Whitespace();
        var close := Take(CLOSE_BRACKET);
        if close {
          return None;
        }
        error := Elements(depth);
        return error;
      }
      error := Scalar();
    }

    /** A string, or a number, true, false or null. */
    method Scalar() returns (error: Option<Error>)
      requires offset <= |text|
      modifies this
      ensures error.None? <==> ScalarRest(old(Ahead())).Some?
      ensures error.None? ==> old(offset) < offset <= |text| && ScalarRest(old(Ahead())) == Some(Ahead())
      ensures error.Some? ==> error.value == InvalidJson
    {
      if offset < |text| && text[offset] == QUOTE {
        var key := String();
        return if key.Some? then None else Some(InvalidJson);
      }
      var found := Token();
      error := if found then None else Some(InvalidJson);
    }

    static function ScalarRest(s: Text): Option<Text> {
      if s != [] && s[0] == QUOTE then
        var str := ScanString(s);
        if str.Key? then Some(str.rest) else None
      else ScanToken(s)
    }

    /** An object's members up to its closing brace, each key new. */
    method Members(depth: nat) returns (error: Option<Error>)
      requires offset <= |text|
      modifies this
      ensures error.None? ==> old(offset) < offset <= |text| && ScanMembers(old(Ahead()), depth, {}) == Left(Ahead())
      ensures error.Some? ==> ScanMembers(old(Ahead()), depth, {}) == Stop(error.value)
      decreases |text| - offset, 2
    {
      var keys: set<Text> := {};
      ghost var result := ScanMembers(Ahead(), depth, {});
      var more := true;
      while more
        invariant old(offset) <= offset <= |text|
        invariant if more then result == ScanMembers(Ahead(), depth, keys)
                  else old(offset) < offset && result == Left(Ahead())
        decreases |text| - offset, more
      {
        error, keys := Member(depth, keys);
        if error.Some? {
          return error;
        }
        var close := Take(CLOSE_BRACE);
        if close {
          more := false;
        } else {
          var comma := Take(COMMA);
          if !comma {
            return Some(InvalidJson);
          }
        }
      }
      error := None;
    }

    /** One member: a new key, a colon, a value, and the space after it. */
    method Member(depth: nat, keys: set<Text>) returns (error: Option<Error>, keys': set<Text>)
      requires offset <= |text|
      modifies this
      ensures error.Some? ==> ScanMembers(old(Ahead()), depth, keys) == Stop(error.value)
      ensures error.None? ==> old(offset) < offset <= |text| &&
                              ScanMembers(old(Ahead()), depth, keys) == AfterMember(Ahead(), depth, keys')
      decreases |text| - offset, 1
    {
      keys' := keys;
      Whitespace();
      var key := String();
      if key.None? {
        return Some(InvalidJson), keys;
      }
      if key.value in keys {
        return Some(DuplicateKey(key.value)), keys;
      }
      keys' := keys + {key.value};
      Whitespace();
      var colon := Take(COLON);
      if !colon {
        return Some(InvalidJson), keys;
      }
      error := Value(depth + 1);
      if error.None? {
        Whitespace();
      }
    }

    /** An array's elements up to its closing bracket. */
    method Elements(depth: nat) returns (error: Option<Error>)
      requires offset <= |text|
      modifies this
      ensures error.None? ==> old(offset) < offset <= |text| && ScanElements(old(Ahead()), depth) == Left(Ahead())
      ensures error.Some? ==> ScanElements(old(Ahead()), depth) == Stop(error.value)
      decreases |text| - offset, 1
    {
      ghost var result := ScanElements(Ahead(), depth);
      var more := true;
      while more
        invariant old(offset) <= offset <= |text|
        invariant if more then result == ScanElements(Ahead(), depth)
                  else old(offset) < offset && result == Left(Ahead())
        decreases |text| - offset, more
      {
        error := Value(depth + 1);
        if error.Some? {
          return error;
        }
        Whitespace();
        var close := Take(CLOSE_BRACKET);
        if close {
          more := false;
        } else {
          var comma := Take(COMMA);
          if !comma {
            return Some(InvalidJson);
          }
        }
      }
      error := None;
    }
  }

  lemma {:induction false} DigitsAreSuffix(s: Text)
    ensures SkipDigits(s) == s[|s| - |SkipDigits(s)|..]
  {
    if s != [] && IsDigit(s[0]) {
      DigitsAreSuffix(s[1..]);
    }
  }

  /** What a token leaves is the end of the text it was read from. */
  lemma TokenIsSuffix(s: Text)
    requires ScanToken(s).Some?
    ensures ScanToken(s).value == s[|s| - |ScanToken(s).value|..]
  {
    var n := if s != [] && s[0] == MINUS then s[1..] else s;
    if n != [] && IsDigit(n[0]) {
      NumberIsSuffix(n);
    }
  }

  lemma NumberIsSuffix(n: Text)
    requires n != [] && IsDigit(n[0])
    ensures var whole := if n[0] == ZERO then n[1..] else SkipDigits(n);
            var rest := SkipExponent(SkipFraction(whole));
            rest == n[|n| - |rest|..]
  {
    DigitsAreSuffix(n);
    var whole := if n[0] == ZERO then n[1..] else SkipDigits(n);
    FractionIsSuffix(whole);
    ExponentIsSuffix(SkipFraction(whole));
  }

  lemma FractionIsSuffix(s: Text)
    ensures SkipFraction(s) == s[|s| - |SkipFraction(s)|..]
  {
    if |s| >= 2 {
      DigitsAreSuffix(s[1..]);
    }
  }

  lemma ExponentIsSuffix(s: Text)
    ensures SkipExponent(s) == s[|s| - |SkipExponent(s)|..]
  {
    if |s| >= 2 {
      DigitsAreSuffix(s[1..]);
      DigitsAreSuffix(s[2..]);
    }
  }

  /** The scan of a whole text: the first error, or None with the cursor at the end. */
  method ScanAll(text: Text) returns (error: Option<Error>)
    ensures error == ScanText(text)
  {
    var scanner := new Scanner(text);
    assert scanner.Ahead() == text;
    error := scanner.Value(0);
    if error.Some? {
      return;
    }
    scanner.Whitespace();
    if scanner.offset != |text| {
      return Some(InvalidJson);
    }
  }
}
