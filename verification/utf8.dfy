/** Strict UTF-8 (RFC 3629), as a fatal TextDecoder reads it, and the length of what it reads. */
module Utf8 {
  import opened Common
  import opened JsonScan
  import opened TextMeasures

  type Bytes = seq<nat>

  /** One character, and how many bytes it took. */
  datatype Decoded = Decoded(code: nat, size: nat)

  /** The byte at i continues a character. */
  predicate Continues(bytes: Bytes, i: nat) {
    i < |bytes| && 0x80 <= bytes[i] < 0xC0
  }

  /** The character at i by the table in section 4: no overlong form, no surrogate, nothing past 0x10FFFF. */
  function CharacterAt(bytes: Bytes, i: nat): (c: Option<Decoded>)
    requires i < |bytes|
    ensures c.Some? ==> 1 <= c.value.size && i + c.value.size <= |bytes|
  {
    var first := bytes[i];
    if first < 0x80 then Some(Decoded(first, 1))
    else if 0xC2 <= first < 0xE0 && Continues(bytes, i + 1) then
      Some(Decoded((first - 0xC0) * 0x40 + (bytes[i + 1] - 0x80), 2))
    else if 0xE0 <= first < 0xF0 && Continues(bytes, i + 1) && Continues(bytes, i + 2) then
      var code := (first - 0xE0) * 0x1000 + (bytes[i + 1] - 0x80) * 0x40 + (bytes[i + 2] - 0x80);
      if code < 0x800 || 0xD800 <= code < 0xE000 then None else Some(Decoded(code, 3))
    else if 0xF0 <= first < 0xF5 && Continues(bytes, i + 1) && Continues(bytes, i + 2) && Continues(bytes, i + 3) then
      var code := (first - 0xF0) * 0x40000 + (bytes[i + 1] - 0x80) * 0x1000 + (bytes[i + 2] - 0x80) * 0x40 +
                  (bytes[i + 3] - 0x80);
      if code < 0x10000 || code >= 0x110000 then None else Some(Decoded(code, 4))
    else None
  }

  /** A character's code units: one, or the two halves of a surrogate pair. */
  function UnitsOf(code: nat): Text {
    if code < 0x10000 then [code]
    else [0xD800 + (code - 0x10000) / 0x400, 0xDC00 + (code - 0x10000) % 0x400]
  }

  function DecodeFrom(bytes: Bytes, i: nat): Option<Text>
    requires i <= |bytes|
    decreases |bytes| - i
  {
    if i == |bytes| then Some([])
    else
      var c := CharacterAt(bytes, i);
      if c.None? then None
      else
        var rest := DecodeFrom(bytes, i + c.value.size);
        if rest.None? then None else Some(UnitsOf(c.value.code) + rest.value)
  }

  predicate StartsWithMark(bytes: Bytes) {
    |bytes| >= 3 && bytes[..3] == [0xEF, 0xBB, 0xBF]
  }

  /** A byte order mark in front is left out. */
  function DecodeUtf8(bytes: Bytes): Option<Text> {
    DecodeFrom(bytes, if StartsWithMark(bytes) then 3 else 0)
  }

  lemma UnitsTakeTheirSize(bytes: Bytes, i: nat)
    requires i < |bytes| && CharacterAt(bytes, i).Some?
    ensures var c := CharacterAt(bytes, i).value;
            ByteLength(UnitsOf(c.code)) == c.size && !IsHigh(UnitsOf(c.code)[|UnitsOf(c.code)| - 1])
  {
    var units := UnitsOf(CharacterAt(bytes, i).value.code);
    if |units| == 2 {
      assert BytesTo(units, 1) == 3;
      assert IsPairAt(units, 1);
    } else {
      assert BytesTo(units, 0) == 0;
    }
  }

  lemma {:induction false} DecodedFromKeepsLength(bytes: Bytes, i: nat)
    requires i <= |bytes| && DecodeFrom(bytes, i).Some?
    ensures ByteLength(DecodeFrom(bytes, i).value) == |bytes| - i
    decreases |bytes| - i
  {
    if i < |bytes| {
      var c := CharacterAt(bytes, i).value;
      var units, rest := UnitsOf(c.code), DecodeFrom(bytes, i + c.size).value;
      DecodedFromKeepsLength(bytes, i + c.size);
      UnitsTakeTheirSize(bytes, i);
      BytesOfBoth(units, rest, |rest|);
      assert DecodeFrom(bytes, i).value == units + rest;
    }
  }

  /** Decoding keeps the length: written again, a text takes the bytes it was read from, less a byte order mark. */
  lemma DecodingKeepsLength(bytes: Bytes)
    requires DecodeUtf8(bytes).Some?
    ensures ByteLength(DecodeUtf8(bytes).value) == |bytes| - if StartsWithMark(bytes) then 3 else 0
  {
    DecodedFromKeepsLength(bytes, if StartsWithMark(bytes) then 3 else 0);
  }
}
