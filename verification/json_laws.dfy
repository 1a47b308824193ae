/**
 * JSON syntax trees and their texts (sections 2 to 7 of RFC 8259): every choice
 * a writer has is in the tree, the whitespace, the escapes, the digits. A text
 * is written in front of whatever follows it.
 */
module JsonTrees {
  import opened Common
  import opened JsonScan

  /** One unit of a string as written: itself, a two-character escape, or a \u escape. */
  datatype Unit = Raw(c: CodeUnit) | Short(c: CodeUnit) | Hex(digits: Text)

  predicate ValidUnit(u: Unit) {
    match u
    case Raw(c) => c >= 0x20 && c != QUOTE && c != BACKSLASH
    case Short(c) => IsShortEscape(c)
    case Hex(digits) => IsHex4(digits)
  }

  function UnitText(u: Unit): Text {
    match u
    case Raw(c) => [c]
    case Short(c) => [BACKSLASH, c]
    case Hex(digits) => [BACKSLASH, LETTER_U] + digits
  }

  function UnitValue(u: Unit): CodeUnit
    requires ValidUnit(u)
  {
    match u
    case Raw(c) => c
    case Short(c) => ShortEscapeValue(c)
    case Hex(digits) => Hex4Value(digits)
  }

  predicate ValidUnits(us: seq<Unit>) {
    forall i :: 0 <= i < |us| ==> ValidUnit(us[i])
  }

  function UnitsThen(us: seq<Unit>, rest: Text): Text {
    if us == [] then rest else UnitText(us[0]) + UnitsThen(us[1..], rest)
  }

  /** The string the units spell. */
  function Spelled(us: seq<Unit>): Text
    requires ValidUnits(us)
  {
    if us == [] then [] else [UnitValue(us[0])] + Spelled(us[1..])
  }

  predicate AllDigits(ds: Text) {
    forall i :: 0 <= i < |ds| ==> IsDigit(ds[i])
  }

  datatype Exponent = Exponent(e: CodeUnit, sign: Text, digits: Text)

  datatype Number = Number(negative: bool, whole: Text, fraction: Text, exponent: Option<Exponent>)

  predicate ValidNumber(n: Number) {
    n.whole != [] && AllDigits(n.whole) && (n.whole[0] == ZERO ==> |n.whole| == 1) && AllDigits(n.fraction) &&
    (n.exponent.Some? ==>
      var x := n.exponent.value;
      (x.e == 0x65 || x.e == 0x45) && (x.sign == [] || x.sign == [PLUS] || x.sign == [MINUS]) &&
      x.digits != [] && AllDigits(x.digits))
  }

  function ExponentThen(x: Option<Exponent>, rest: Text): Text {
    if x.None? then rest else [x.value.e] + (x.value.sign + (x.value.digits + rest))
  }

  function FractionThen(fraction: Text, rest: Text): Text {
    if fraction == [] then rest else [DOT] + (fraction + rest)
  }

  function NumberThen(n: Number, rest: Text): Text {
    var unsigned := n.whole + FractionThen(n.fraction, ExponentThen(n.exponent, rest));
    if n.negative then [MINUS] + unsigned else unsigned
  }

  /** A value between its whitespace. */
  datatype Tree = Tree(pre: Text, node: Node, post: Text)

  datatype Node = Str(units: seq<Unit>) | Num(number: Number) | True | False | Null |
                  Arr(inner: Text, elems: Elems) | Obj(inner: Text, members: Members)

  datatype Elems = NoElems | Elem(head: Tree, tail: Elems)

  datatype Members = NoMembers | Member(pre: Text, key: seq<Unit>, post: Text, value: Tree, tail: Members)

  /**
   * Whitespace as the scanner has it. JSON's own tab, line feed, carriage return
   * and space are among it, so every JSON text is the text of a tree.
   */
  predicate IsBlank(s: Text) {
    forall i :: 0 <= i < |s| ==> IsSpace(s[i])
  }

  predicate ValidTree(t: Tree) {
    IsBlank(t.pre) && IsBlank(t.post) && ValidNode(t.node)
  }

  predicate ValidNode(n: Node) {
    match n
    case Str(units) => ValidUnits(units)
    case Num(number) => ValidNumber(number)
    case True => true
    case False => true
    case Null => true
    case Arr(inner, elems) => IsBlank(inner) && ValidElems(elems)
    case Obj(inner, members) => IsBlank(inner) && ValidMembers(members)
  }

  predicate ValidElems(es: Elems) {
    es.Elem? ==> ValidTree(es.head) && ValidElems(es.tail)
  }

  predicate ValidMembers(ms: Members) {
    ms.Member? ==> IsBlank(ms.pre) && IsBlank(ms.post) && ValidUnits(ms.key) && ValidTree(ms.value) &&
                   ValidMembers(ms.tail)
  }

  function StringThen(us: seq<Unit>, rest: Text): Text {
    [QUOTE] + UnitsThen(us, [QUOTE] + rest)
  }

  /** The text of the tree, followed by `rest`. */
  function TreeThen(t: Tree, rest: Text): Text {
    t.pre + NodeThen(t.node, t.post + rest)
  }

  function NodeThen(n: Node, rest: Text): Text {
    match n
    case Str(units) => StringThen(units, rest)
    case Num(number) => NumberThen(number, rest)
    case True => TRUE + rest
    case False => FALSE + rest
    case Null => NULL + rest
    case Arr(inner, elems) =>
      [OPEN_BRACKET] + if elems.NoElems? then inner + ([CLOSE_BRACKET] + rest) else ElemsThen(elems, rest)
    case Obj(inner, members) =>
      [OPEN_BRACE] + if members.NoMembers? then inner + ([CLOSE_BRACE] + rest) else MembersThen(members, rest)
  }

  function ElemsThen(es: Elems, rest: Text): Text
    requires es.Elem?
  {
    TreeThen(es.head, if es.tail.NoElems? then [CLOSE_BRACKET] + rest else [COMMA] + ElemsThen(es.tail, rest))
  }

  function MembersThen(ms: Members, rest: Text): Text
    requires ms.Member?
  {
    var after := if ms.tail.NoMembers? then [CLOSE_BRACE] + rest else [COMMA] + MembersThen(ms.tail, rest);
    ms.pre + StringThen(ms.key, ms.post + ([COLON] + TreeThen(ms.value, after)))
  }

  // ---- what makes a tree acceptable ---------------------------------------

  /** How many arrays and objects enclose the deepest value. */
  function Height(t: Tree): nat {
    match t.node
    case Arr(_, elems) => ElemsHeight(elems)
    case Obj(_, members) => MembersHeight(members)
    case _ => 0
  }

  function ElemsHeight(es: Elems): nat {
    if es.NoElems? then 0 else Max(1 + Height(es.head), ElemsHeight(es.tail))
  }

  function MembersHeight(ms: Members): nat {
    if ms.NoMembers? then 0 else Max(1 + Height(ms.value), MembersHeight(ms.tail))
  }

  /** An object's keys as they decode, in order. */
  function Keys(ms: Members): seq<Text>
    requires ValidMembers(ms)
  {
    if ms.NoMembers? then [] else [Spelled(ms.key)] + Keys(ms.tail)
  }

  /** No object anywhere in the tree has the same decoded key twice. */
  ghost predicate DistinctKeys(t: Tree)
    requires ValidTree(t)
  {
    assert ValidNode(t.node);
    match t.node
    case Arr(_, elems) => ElemsDistinct(elems)
    case Obj(_, members) => NoDuplicates(Keys(members)) && MembersDistinct(members)
    case _ => true
  }

  ghost predicate ElemsDistinct(es: Elems)
    requires ValidElems(es)
  {
    es.Elem? ==> DistinctKeys(es.head) && ElemsDistinct(es.tail)
  }

  ghost predicate MembersDistinct(ms: Members)
    requires ValidMembers(ms)
  {
    ms.Member? ==> DistinctKeys(ms.value) && MembersDistinct(ms.tail)
  }
}

/** The scanner accepts the texts of exactly the trees without repeated keys that are not too deep. */
module JsonLaws {
  import opened Common
  import opened JsonScan
  import opened JsonTrees

  // ---- the pieces ---------------------------------------------------------

  lemma {:induction false} SpaceSkipped(ws: Text, rest: Text)
    requires IsBlank(ws)
    ensures SkipSpace(ws + rest) == SkipSpace(rest)
  {
    if ws == [] {
      assert ws + rest == rest;
    } else {
      assert (ws + rest)[1..] == ws[1..] + rest;
      SpaceSkipped(ws[1..], rest);
    }
  }

  lemma {:induction false} SkipSpaceTwice(s: Text)
    ensures SkipSpace(SkipSpace(s)) == SkipSpace(s)
  {
    if s != [] && IsSpace(s[0]) {
      SkipSpaceTwice(s[1..]);
    }
  }

  lemma {:induction false} UnitsSplit(us: seq<Unit>, rest: Text)
    requires ValidUnits(us)
    ensures SplitString(UnitsThen(us, [QUOTE] + rest)) == Closed(UnitsThen(us, []), rest)
    decreases |us|
  {
    if us == [] {
      assert ([QUOTE] + rest)[1..] == rest;
    } else {
      var tail, body := UnitsThen(us[1..], [QUOTE] + rest), UnitsThen(us[1..], []);
      UnitsSplit(us[1..], rest);
      match us[0]
      case Raw(c) => SplitPlain(c, tail);
      case Short(c) => SplitEscape(c, tail);
      case Hex(d) =>
        HexSplits(d, tail);
        assert UnitText(us[0]) + tail == [BACKSLASH, LETTER_U] + (d + tail);
        SplitEscape(LETTER_U, d + tail);
        assert [BACKSLASH, LETTER_U] + (d + body) == UnitText(us[0]) + body;
    }
  }

  lemma PairSplits(a: CodeUnit, b: CodeUnit, tail: Text)
    requires IsHexDigit(a) && IsHexDigit(b)
    ensures SplitString([a, b] + tail) == Prefixed([a, b], SplitString(tail))
  {
    SplitPlain(b, tail);
    SplitPlain(a, [b] + tail);
    assert [a, b] + tail == [a] + ([b] + tail);
    var r := SplitString(tail);
    if r.Closed? {
      assert [a] + ([b] + r.body) == [a, b] + r.body;
    }
  }

  lemma HexSplits(d: Text, tail: Text)
    requires IsHex4(d)
    ensures SplitString(d + tail) == Prefixed(d, SplitString(tail))
  {
    PairSplits(d[2], d[3], tail);
    PairSplits(d[0], d[1], [d[2], d[3]] + tail);
    assert d + tail == [d[0], d[1]] + ([d[2], d[3]] + tail);
    var r := SplitString(tail);
    if r.Closed? {
      assert [d[0], d[1]] + ([d[2], d[3]] + r.body) == d + r.body;
    }
  }

  lemma {:induction false} UnitsDecode(us: seq<Unit>)
    requires ValidUnits(us)
    ensures Decode(UnitsThen(us, [])) == Some(Spelled(us))
    decreases |us|
  {
    if us != [] {
      var tail := UnitsThen(us[1..], []);
      UnitsDecode(us[1..]);
      var body := UnitText(us[0]) + tail;
      match us[0]
      case Raw(c) => assert body[1..] == tail;
      case Short(c) => assert body[2..] == tail;
      case Hex(d) =>
        assert body[2..6] == d;
        assert body[6..] == tail;
    }
  }

  /** A written string is read back as what it spells, whichever escapes it uses. */
  lemma StringReadBack(us: seq<Unit>, rest: Text)
    requires ValidUnits(us)
    ensures ScanString(StringThen(us, rest)) == Key(Spelled(us), rest)
  {
    assert StringThen(us, rest)[1..] == UnitsThen(us, [QUOTE] + rest);
    UnitsSplit(us, rest);
    UnitsDecode(us);
  }

  /** What may follow a number: nothing, whitespace, or a separator. */
  predicate Delimited(s: Text) {
    s == [] || IsSpace(s[0]) || s[0] in {COMMA, CLOSE_BRACKET, CLOSE_BRACE}
  }

  lemma {:induction false} DigitsSkipped(ds: Text, rest: Text)
    requires AllDigits(ds) && (rest != [] ==> !IsDigit(rest[0]))
    ensures SkipDigits(ds + rest) == rest
  {
    if ds == [] {
      assert ds + rest == rest;
    } else {
      assert (ds + rest)[1..] == ds[1..] + rest;
      DigitsSkipped(ds[1..], rest);
    }
  }

  lemma ExponentSkipped(x: Exponent, rest: Text)
    requires x.e == 0x65 || x.e == 0x45
    requires x.sign == [] || x.sign == [PLUS] || x.sign == [MINUS]
    requires x.digits != [] && AllDigits(x.digits) && Delimited(rest)
    ensures SkipExponent(ExponentThen(Some(x), rest)) == rest
  {
    var s := ExponentThen(Some(x), rest);
    assert s[1..] == x.sign + (x.digits + rest);
    if x.sign != [] {
      assert s[2..] == x.digits + rest;
    } else {
      assert x.sign + (x.digits + rest) == x.digits + rest;
    }
    DigitsSkipped(x.digits, rest);
  }

  lemma FractionSkipped(fraction: Text, rest: Text)
    requires AllDigits(fraction) && (rest != [] ==> !IsDigit(rest[0]) && rest[0] != DOT)
    ensures SkipFraction(FractionThen(fraction, rest)) == rest
  {
    if fraction != [] {
      assert FractionThen(fraction, rest)[1..] == fraction + rest;
      DigitsSkipped(fraction, rest);
    }
  }

  lemma NumberReadBack(n: Number, rest: Text)
    requires ValidNumber(n) && Delimited(rest)
    ensures ScanToken(NumberThen(n, rest)) == Some(rest)
    ensures NumberThen(n, rest)[0] == MINUS || IsDigit(NumberThen(n, rest)[0])
  {
    var exponent := ExponentThen(n.exponent, rest);
    var fraction := FractionThen(n.fraction, exponent);
    var unsigned := n.whole + fraction;
    if n.exponent.Some? {
      ExponentSkipped(n.exponent.value, rest);
    }
    FractionSkipped(n.fraction, exponent);
    if n.negative {
      assert NumberThen(n, rest)[1..] == unsigned;
    }
    if n.whole[0] == ZERO {
      assert unsigned[1..] == fraction;
    } else {
      DigitsSkipped(n.whole, fraction);
    }
  }

  lemma LiteralReadBack(word: Text, rest: Text)
    requires word == TRUE || word == FALSE || word == NULL
    ensures ScanToken(word + rest) == Some(rest)
  {
    assert (word + rest)[|word|..] == rest;
  }

  // ---- the first fault in reading order -----------------------------------

  function TreeFault(t: Tree, depth: nat): Option<Error>
    requires ValidTree(t)
  {
    if depth > MAX_JSON_NESTING_DEPTH then Some(NestingLimit)
    else
      assert ValidNode(t.node);
      match t.node
      case Arr(_, elems) => ElemsFault(elems, depth)
      case Obj(_, members) => MembersFault(members, depth, {})
      case _ => None
  }

  function ElemsFault(es: Elems, depth: nat): Option<Error>
    requires ValidElems(es)
  {
    if es.NoElems? then None
    else
      var fault := TreeFault(es.head, depth + 1);
      if fault.Some? then fault else ElemsFault(es.tail, depth)
  }

  function MembersFault(ms: Members, depth: nat, keys: set<Text>): Option<Error>
    requires ValidMembers(ms)
  {
    if ms.NoMembers? then None
    else if Spelled(ms.key) in keys then Some(DuplicateKey(Spelled(ms.key)))
    else
      var fault := TreeFault(ms.value, depth + 1);
      if fault.Some? then fault else MembersFault(ms.tail, depth, keys + {Spelled(ms.key)})
  }

  function Outcome(fault: Option<Error>, rest: Text): Scan {
    if fault.Some? then Stop(fault.value) else Left(rest)
  }

  /** A written value begins with neither whitespace nor a closing or separating mark. */
  lemma NodeBegins(n: Node, rest: Text)
    requires ValidNode(n) && Delimited(rest)
    ensures NodeThen(n, rest) != []
    ensures !IsSpace(NodeThen(n, rest)[0])
    ensures NodeThen(n, rest)[0] !in {CLOSE_BRACKET, CLOSE_BRACE, COMMA}
    ensures n.Num? || n.True? || n.False? || n.Null? ==> NodeThen(n, rest)[0] !in {OPEN_BRACE, OPEN_BRACKET, QUOTE}
  {
    if n.Num? {
      NumberReadBack(n.number, rest);
    }
  }

  lemma SpaceDelimits(ws: Text, rest: Text)
    requires IsBlank(ws) && Delimited(rest)
    ensures Delimited(ws + rest)
  {
    if ws == [] {
      assert ws + rest == rest;
    }
  }

  // ---- the scan of a written tree -----------------------------------------

  /** Skipping whitespace first changes nothing: every reader does it itself. */
  lemma ElementsSkipSpace(s: Text, depth: nat)
    ensures ScanElements(SkipSpace(s), depth) == ScanElements(s, depth)
  {
    SkipSpaceTwice(s);
  }

  lemma MembersSkipSpace(s: Text, depth: nat, keys: set<Text>)
    ensures ScanMembers(SkipSpace(s), depth, keys) == ScanMembers(s, depth, keys)
  {
    SkipSpaceTwice(s);
  }

  lemma {:induction false} TreeScanned(t: Tree, rest: Text, depth: nat)
    requires ValidTree(t) && Delimited(rest)
    ensures ScanValue(TreeThen(t, rest), depth) == Outcome(TreeFault(t, depth), t.post + rest)
    decreases t, 1
  {
    if depth <= MAX_JSON_NESTING_DEPTH {
      var after := t.post + rest;
      var s := NodeThen(t.node, after);
      SpaceDelimits(t.post, rest);
      SpaceSkipped(t.pre, s);
      NodeBegins(t.node, after);
      assert SkipSpace(TreeThen(t, rest)) == s;
      match t.node
      case Str(units) => StringReadBack(units, after);
      case Num(number) => NumberReadBack(number, after);
      case True => LiteralReadBack(TRUE, after);
      case False => LiteralReadBack(FALSE, after);
      case Null => LiteralReadBack(NULL, after);
      case Arr(inner, elems) => ArrayScanned(inner, elems, after, depth);
      case Obj(inner, members) => ObjectScanned(inner, members, after, depth);
    }
  }

  lemma {:induction false} ArrayScanned(inner: Text, elems: Elems, rest: Text, depth: nat)
    requires IsBlank(inner) && ValidElems(elems) && Delimited(rest)
    ensures var s := NodeThen(Arr(inner, elems), rest)[1..];
            var body := SkipSpace(s);
            (if body != [] && body[0] == CLOSE_BRACKET then Left(body[1..]) else ScanElements(body, depth)) ==
            Outcome(ElemsFault(elems, depth), rest)
    decreases elems, 2
  {
    var s := NodeThen(Arr(inner, elems), rest)[1..];
    if elems.NoElems? {
      assert s == inner + ([CLOSE_BRACKET] + rest);
      SpaceSkipped(inner, [CLOSE_BRACKET] + rest);
    } else {
      assert s == ElemsThen(elems, rest);
      ElemsBegin(elems, rest);
      ElementsSkipSpace(s, depth);
      ElemsScanned(elems, rest, depth);
    }
  }

  lemma ElemsBegin(es: Elems, rest: Text)
    requires es.Elem? && ValidElems(es) && Delimited(rest)
    ensures var body := SkipSpace(ElemsThen(es, rest)); body != [] && body[0] != CLOSE_BRACKET
  {
    var t := es.head;
    var after := if es.tail.NoElems? then [CLOSE_BRACKET] + rest else [COMMA] + ElemsThen(es.tail, rest);
    SpaceDelimits(t.post, after);
    NodeBegins(t.node, t.post + after);
    SpaceSkipped(t.pre, NodeThen(t.node, t.post + after));
  }

  lemma {:induction false} ElemsScanned(es: Elems, rest: Text, depth: nat)
    requires es.Elem? && ValidElems(es) && Delimited(rest)
    ensures ScanElements(ElemsThen(es, rest), depth) == Outcome(ElemsFault(es, depth), rest)
    decreases es, 1
  {
    var after := if es.tail.NoElems? then [CLOSE_BRACKET] + rest else [COMMA] + ElemsThen(es.tail, rest);
    TreeScanned(es.head, after, depth + 1);
    SpaceSkipped(es.head.post, after);
    if es.tail.NoElems? {
      assert after[1..] == rest;
    } else {
      assert after[1..] == ElemsThen(es.tail, rest);
      ElemsScanned(es.tail, rest, depth);
    }
  }

  lemma {:induction false} ObjectScanned(inner: Text, members: Members, rest: Text, depth: nat)
    requires IsBlank(inner) && ValidMembers(members) && Delimited(rest)
    ensures var s := NodeThen(Obj(inner, members), rest)[1..];
            var body := SkipSpace(s);
            (if body != [] && body[0] == CLOSE_BRACE then Left(body[1..]) else ScanMembers(body, depth, {})) ==
            Outcome(MembersFault(members, depth, {}), rest)
    decreases members, 2
  {
    var s := NodeThen(Obj(inner, members), rest)[1..];
    if members.NoMembers? {
      assert s == inner + ([CLOSE_BRACE] + rest);
      SpaceSkipped(inner, [CLOSE_BRACE] + rest);
    } else {
      assert s == MembersThen(members, rest);
      var ms := members;
      var after := if ms.tail.NoMembers? then [CLOSE_BRACE] + rest else [COMMA] + MembersThen(ms.tail, rest);
      SpaceSkipped(ms.pre, StringThen(ms.key, ms.post + ([COLON] + TreeThen(ms.value, after))));
      MembersSkipSpace(s, depth, {});
      MembersScanned(members, rest, depth, {});
    }
  }

  lemma MemberHeadScanned(pre: Text, key: seq<Unit>, post: Text, rest: Text)
    requires IsBlank(pre) && ValidUnits(key) && IsBlank(post)
    ensures ScanString(SkipSpace(pre + StringThen(key, post + ([COLON] + rest)))) ==
            Key(Spelled(key), post + ([COLON] + rest))
    ensures SkipSpace(post + ([COLON] + rest)) == [COLON] + rest
  {
    SpaceSkipped(pre, StringThen(key, post + ([COLON] + rest)));
    StringReadBack(key, post + ([COLON] + rest));
    SpaceSkipped(post, [COLON] + rest);
  }

  /** The scan of a written member, and how it goes on after the value. */
  lemma MemberScanned(pre: Text, key: seq<Unit>, post: Text, rest: Text, depth: nat, keys: set<Text>)
    requires IsBlank(pre) && ValidUnits(key) && IsBlank(post)
    ensures ScanMembers(pre + StringThen(key, post + ([COLON] + rest)), depth, keys) ==
            AfterKey(Spelled(key), rest, depth, keys)
  {
    MemberHeadScanned(pre, key, post, rest);
    assert ([COLON] + rest)[1..] == rest;
  }

  ghost function AfterKey(key: Text, rest: Text, depth: nat, keys: set<Text>): Scan {
    if key in keys then Stop(DuplicateKey(key))
    else
      var value := ScanValue(rest, depth + 1);
      if value.Stop? then value else AfterMember(SkipSpace(value.rest), depth, keys + {key})
  }

  lemma {:induction false} MembersScanned(ms: Members, rest: Text, depth: nat, keys: set<Text>)
    requires ms.Member? && ValidMembers(ms) && Delimited(rest)
    ensures ScanMembers(MembersThen(ms, rest), depth, keys) == Outcome(MembersFault(ms, depth, keys), rest)
    decreases ms, 1
  {
    var after := AfterValue(ms.tail, rest);
    var key, value := Spelled(ms.key), TreeThen(ms.value, after);
    MemberScanned(ms.pre, ms.key, ms.post, value, depth, keys);
    assert MembersThen(ms, rest) == ms.pre + StringThen(ms.key, ms.post + ([COLON] + value));
    TreeScanned(ms.value, after, depth + 1);
    if key !in keys && TreeFault(ms.value, depth + 1).None? {
      MembersTailScanned(ms.tail, ms.value.post, rest, depth, keys + {key});
    }
  }

  /** What is written after a member's value. */
  ghost function AfterValue(tail: Members, rest: Text): Text {
    if tail.NoMembers? then [CLOSE_BRACE] + rest else [COMMA] + MembersThen(tail, rest)
  }

  lemma {:induction false} MembersTailScanned(tail: Members, post: Text, rest: Text, depth: nat, keys: set<Text>)
    requires ValidMembers(tail) && IsBlank(post) && Delimited(rest)
    ensures AfterMember(SkipSpace(post + AfterValue(tail, rest)), depth, keys) ==
            Outcome(MembersFault(tail, depth, keys), rest)
    decreases tail, 2
  {
    var after := AfterValue(tail, rest);
    SpaceSkipped(post, after);
    if tail.NoMembers? {
      assert after[1..] == rest;
    } else {
      assert after[1..] == MembersThen(tail, rest);
      MembersScanned(tail, rest, depth, keys);
    }
  }

  // ---- the first fault means what it should -------------------------------

  lemma {:induction false} FaultFree(t: Tree, depth: nat)
    requires ValidTree(t)
    ensures TreeFault(t, depth) == None <==> depth + Height(t) <= MAX_JSON_NESTING_DEPTH && DistinctKeys(t)
    decreases t, 0
  {
    match t.node
    case Arr(_, elems) => ElemsFaultFree(elems, depth);
    case Obj(_, members) => MembersFaultFree(members, depth, {});
    case _ =>
  }

  lemma {:induction false} ElemsFaultFree(es: Elems, depth: nat)
    requires ValidElems(es)
    ensures depth <= MAX_JSON_NESTING_DEPTH ==>
              (ElemsFault(es, depth) == None <==>
                depth + ElemsHeight(es) <= MAX_JSON_NESTING_DEPTH && ElemsDistinct(es))
    decreases es, 0
  {
    if es.Elem? {
      FaultFree(es.head, depth + 1);
      ElemsFaultFree(es.tail, depth);
    }
  }

  lemma {:induction false} MembersFaultFree(ms: Members, depth: nat, keys: set<Text>)
    requires ValidMembers(ms)
    ensures depth <= MAX_JSON_NESTING_DEPTH ==>
              (MembersFault(ms, depth, keys) == None <==>
                depth + MembersHeight(ms) <= MAX_JSON_NESTING_DEPTH && MembersDistinct(ms) &&
                NoDuplicates(Keys(ms)) && forall k :: k in Keys(ms) ==> k !in keys)
    decreases ms, 0
  {
    if ms.Member? {
      var key := Spelled(ms.key);
      FaultFree(ms.value, depth + 1);
      MembersFaultFree(ms.tail, depth, keys + {key});
      KeysOfMember(ms);
    }
  }

  lemma KeysOfMember(ms: Members)
    requires ms.Member? && ValidMembers(ms)
    ensures NoDuplicates(Keys(ms)) <==> NoDuplicates(Keys(ms.tail)) && Spelled(ms.key) !in Keys(ms.tail)
    ensures forall k :: k in Keys(ms) <==> k == Spelled(ms.key) || k in Keys(ms.tail)
  {
    var all, tail := Keys(ms), Keys(ms.tail);
    assert all[1..] == tail;
    if NoDuplicates(all) {
      forall i, j | 0 <= i < j < |tail| ensures tail[i] != tail[j] {
        assert all[i + 1] != all[j + 1];
      }
      forall j | 0 <= j < |tail| ensures tail[j] != Spelled(ms.key) {
        assert all[0] != all[j + 1];
      }
    }
    if NoDuplicates(tail) && Spelled(ms.key) !in tail {
      forall i, j | 0 <= i < j < |all| ensures all[i] != all[j] {
        assert all[j] == tail[j - 1];
        if i > 0 {
          assert all[i] == tail[i - 1];
        }
      }
    }
  }

  // ---- sound and complete -------------------------------------------------

  /** On every JSON text the scan ends exactly as the tree's first fault in reading order says. */
  lemma ScanFindsFirstFault(t: Tree)
    requires ValidTree(t)
    ensures ScanText(TreeThen(t, [])) == TreeFault(t, 0)
  {
    TreeScanned(t, [], 0);
    SpaceSkipped(t.post, []);
  }

  /**
   * The scanner accepts a JSON text, with the cursor at its end, if and only if
   * its value nests at most 64 deep and no object in it, at any depth, repeats
   * a decoded key.
   */
  lemma AcceptedIff(t: Tree)
    requires ValidTree(t)
    ensures ScanText(TreeThen(t, [])) == None <==> Height(t) <= 64 && DistinctKeys(t)
  {
    ScanFindsFirstFault(t);
    FaultFree(t, 0);
  }

  /** A JSON text is never called malformed: it is refused only for a repeated key or its depth. */
  lemma {:induction false} NeverCalledInvalid(t: Tree, depth: nat)
    requires ValidTree(t)
    ensures TreeFault(t, depth) != Some(InvalidJson)
    decreases t, 0
  {
    match t.node
    case Arr(_, elems) => ElemsNeverInvalid(elems, depth);
    case Obj(_, members) => MembersNeverInvalid(members, depth, {});
    case _ =>
  }

  lemma {:induction false} ElemsNeverInvalid(es: Elems, depth: nat)
    requires ValidElems(es)
    ensures ElemsFault(es, depth) != Some(InvalidJson)
    decreases es, 0
  {
    if es.Elem? {
      NeverCalledInvalid(es.head, depth + 1);
      ElemsNeverInvalid(es.tail, depth);
    }
  }

  lemma {:induction false} MembersNeverInvalid(ms: Members, depth: nat, keys: set<Text>)
    requires ValidMembers(ms)
    ensures MembersFault(ms, depth, keys) != Some(InvalidJson)
    decreases ms, 0
  {
    if ms.Member? {
      NeverCalledInvalid(ms.value, depth + 1);
      MembersNeverInvalid(ms.tail, depth, keys + {Spelled(ms.key)});
    }
  }
}
