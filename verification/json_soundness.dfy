/** Every text the scanner accepts is the text of a tree: what it read can be rebuilt. */
module JsonSoundness {
  import opened Common
  import opened JsonScan
  import opened JsonTrees
  import opened JsonLaws

  lemma {:induction false} SpaceRead(s: Text) returns (ws: Text)
    ensures IsBlank(ws) && s == ws + SkipSpace(s)
  {
    if s != [] && IsSpace(s[0]) {
      var tail := SpaceRead(s[1..]);
      ws := [s[0]] + tail;
      assert s == [s[0]] + s[1..] == ws + SkipSpace(s[1..]);
    } else {
      ws := [];
    }
  }

  // ---- strings ------------------------------------------------------------

  lemma {:induction false} UnitsThenAppends(us: seq<Unit>, rest: Text)
    ensures UnitsThen(us, rest) == UnitsThen(us, []) + rest
  {
    if us != [] {
      UnitsThenAppends(us[1..], rest);
    }
  }

  lemma {:induction false} SplitRead(s: Text)
    requires SplitString(s).Closed?
    ensures s == SplitString(s).body + ([QUOTE] + SplitString(s).rest)
    decreases |s|
  {
    if s[0] == BACKSLASH {
      SplitRead(s[2..]);
      assert s == [s[0], s[1]] + s[2..];
    } else if s[0] != QUOTE {
      SplitRead(s[1..]);
      assert s == [s[0]] + s[1..];
    }
  }

  lemma UnitBefore(u: Unit, us: seq<Unit>, tail: Text)
    requires ValidUnit(u) && ValidUnits(us) && UnitsThen(us, []) == tail
    ensures ValidUnits([u] + us)
    ensures UnitsThen([u] + us, []) == UnitText(u) + tail
    ensures Spelled([u] + us) == [UnitValue(u)] + Spelled(us)
  {
    assert ([u] + us)[1..] == us;
  }

  lemma {:induction false} BodyRead(body: Text) returns (us: seq<Unit>)
    requires Decode(body).Some?
    ensures ValidUnits(us) && UnitsThen(us, []) == body && Spelled(us) == Decode(body).value
    decreases |body|
  {
    if body == [] {
      us := [];
    } else if body[0] != BACKSLASH {
      us := BodyRead(body[1..]);
      UnitBefore(Raw(body[0]), us, body[1..]);
      us := [Raw(body[0])] + us;
    } else if IsShortEscape(body[1]) {
      us := BodyRead(body[2..]);
      UnitBefore(Short(body[1]), us, body[2..]);
      us := [Short(body[1])] + us;
    } else {
      us := BodyRead(body[6..]);
      UnitBefore(Hex(body[2..6]), us, body[6..]);
      assert UnitText(Hex(body[2..6])) + body[6..] == body;
      us := [Hex(body[2..6])] + us;
    }
  }

  lemma StringRead(s: Text) returns (us: seq<Unit>)
    requires ScanString(s).Key?
    ensures ValidUnits(us) && Spelled(us) == ScanString(s).key && StringThen(us, ScanString(s).rest) == s
  {
    var split := SplitString(s[1..]);
    SplitRead(s[1..]);
    us := BodyRead(split.body);
    UnitsThenAppends(us, [QUOTE] + split.rest);
  }

  // ---- numbers and literals -----------------------------------------------

  lemma {:induction false} DigitsRead(s: Text) returns (ds: Text)
    ensures AllDigits(ds) && s == ds + SkipDigits(s)
    ensures s != [] && IsDigit(s[0]) ==> ds != [] && ds[0] == s[0]
  {
    if s != [] && IsDigit(s[0]) {
      var tail := DigitsRead(s[1..]);
      ds := [s[0]] + tail;
      assert s == [s[0]] + s[1..] == ds + SkipDigits(s[1..]);
    } else {
      ds := [];
    }
  }

  lemma FractionRead(s: Text) returns (fraction: Text)
    ensures AllDigits(fraction) && s == FractionThen(fraction, SkipFraction(s))
  {
    fraction := [];
    if |s| >= 2 && s[0] == DOT && IsDigit(s[1]) {
      fraction := DigitsRead(s[1..]);
    }
  }

  lemma ExponentRead(s: Text) returns (x: Option<Exponent>)
    ensures ValidNumber(Number(false, [ZERO], [], x)) && s == ExponentThen(x, SkipExponent(s))
  {
    x := None;
    if |s| >= 2 && (s[0] == 0x65 || s[0] == 0x45) {
      var sign := if s[1] == PLUS || s[1] == MINUS then [s[1]] else [];
      var digits := s[1 + |sign|..];
      if digits != [] && IsDigit(digits[0]) {
        var ds := DigitsRead(digits);
        x := Some(Exponent(s[0], sign, ds));
        assert s == [s[0]] + (sign + digits);
      }
    }
  }

  lemma TokenRead(s: Text) returns (n: Node)
    requires ScanToken(s).Some?
    ensures ValidNode(n) && (n.Num? || n.True? || n.False? || n.Null?) && NodeThen(n, ScanToken(s).value) == s
  {
    var negative := s != [] && s[0] == MINUS;
    var m := if negative then s[1..] else s;
    if m != [] && IsDigit(m[0]) {
      var whole: Text := [ZERO];
      if m[0] != ZERO {
        whole := DigitsRead(m);
      }
      var afterWhole := m[|whole|..];
      assert m == whole + afterWhole;
      assert afterWhole == if m[0] == ZERO then m[1..] else SkipDigits(m);
      var fraction := FractionRead(afterWhole);
      var exponent := ExponentRead(SkipFraction(afterWhole));
      n := Num(Number(negative, whole, fraction, exponent));
    } else {
      n := if TRUE <= s then True else if FALSE <= s then False else Null;
    }
  }

  // ---- values -------------------------------------------------------------

  lemma PostRead(t: Tree, rest: Text) returns (t': Tree)
    requires ValidTree(t) && t.post == []
    ensures ValidTree(t') && TreeThen(t', SkipSpace(rest)) == TreeThen(t, rest)
  {
    var ws := SpaceRead(rest);
    t' := t.(post := ws);
    assert [] + rest == rest;
  }

  /** The value the scanner steps over is the value of some tree. */
  lemma {:induction false} ValueRead(s: Text, depth: nat) returns (t: Tree)
    requires ScanValue(s, depth).Left?
    ensures ValidTree(t) && t.post == [] && TreeThen(t, ScanValue(s, depth).rest) == s
    decreases |s|, 1
  {
    var pre := SpaceRead(s);
    var body, rest := SkipSpace(s), ScanValue(s, depth).rest;
    var n: Node;
    if body != [] && body[0] == OPEN_BRACE {
      n := ObjectRead(body, depth, rest);
    } else if body != [] && body[0] == OPEN_BRACKET {
      n := ArrayRead(body, depth, rest);
    } else if body != [] && body[0] == QUOTE {
      var us := StringRead(body);
      n := Str(us);
    } else {
      n := TokenRead(body);
    }
    t := Tree(pre, n, []);
    assert [] + rest == rest;
  }

  lemma {:induction false} ArrayRead(body: Text, depth: nat, rest: Text) returns (n: Node)
    requires body != [] && body[0] == OPEN_BRACKET
    requires var inner := SkipSpace(body[1..]);
             Left(rest) == if inner != [] && inner[0] == CLOSE_BRACKET then Left(inner[1..])
                           else ScanElements(inner, depth)
    ensures ValidNode(n) && NodeThen(n, rest) == body
    decreases |body|, 0
  {
    var inner := SkipSpace(body[1..]);
    if inner != [] && inner[0] == CLOSE_BRACKET {
      var ws := SpaceRead(body[1..]);
      n := Arr(ws, NoElems);
      assert inner == [CLOSE_BRACKET] + rest;
    } else {
      ElementsSkipSpace(body[1..], depth);
      var es := ElementsRead(body[1..], depth);
      n := Arr([], es);
    }
  }

  lemma {:induction false} ElementsRead(s: Text, depth: nat) returns (es: Elems)
    requires ScanElements(s, depth).Left?
    ensures es.Elem? && ValidElems(es) && ElemsThen(es, ScanElements(s, depth).rest) == s
    decreases |s|, 2
  {
    var value := ScanValue(s, depth + 1);
    var t := ValueRead(s, depth + 1);
    t := PostRead(t, value.rest);
    var separator := SkipSpace(value.rest);
    if separator[0] == CLOSE_BRACKET {
      es := Elem(t, NoElems);
      assert separator == [CLOSE_BRACKET] + separator[1..];
    } else {
      var tail := ElementsRead(separator[1..], depth);
      es := Elem(t, tail);
      assert separator == [COMMA] + separator[1..];
    }
  }

  lemma {:induction false} ObjectRead(body: Text, depth: nat, rest: Text) returns (n: Node)
    requires body != [] && body[0] == OPEN_BRACE
    requires var inner := SkipSpace(body[1..]);
             Left(rest) == if inner != [] && inner[0] == CLOSE_BRACE then Left(inner[1..])
                           else ScanMembers(inner, depth, {})
    ensures ValidNode(n) && NodeThen(n, rest) == body
    decreases |body|, 0
  {
    var inner := SkipSpace(body[1..]);
    if inner != [] && inner[0] == CLOSE_BRACE {
      var ws := SpaceRead(body[1..]);
      n := Obj(ws, NoMembers);
      assert inner == [CLOSE_BRACE] + rest;
    } else {
      MembersSkipSpace(body[1..], depth, {});
      var ms := MembersRead(body[1..], depth, {});
      n := Obj([], ms);
    }
  }

  /** A member's key and colon, up to the text of its value. */
  lemma MemberHeadRead(s: Text) returns (pre: Text, key: seq<Unit>, post: Text)
    requires ScanString(SkipSpace(s)).Key?
    requires var colon := SkipSpace(ScanString(SkipSpace(s)).rest); colon != [] && colon[0] == COLON
    ensures IsBlank(pre) && ValidUnits(key) && IsBlank(post)
    ensures var colon := SkipSpace(ScanString(SkipSpace(s)).rest);
            s == pre + StringThen(key, post + ([COLON] + colon[1..]))
  {
    pre := SpaceRead(s);
    key := StringRead(SkipSpace(s));
    post := SpaceRead(ScanString(SkipSpace(s)).rest);
    var colon := SkipSpace(ScanString(SkipSpace(s)).rest);
    assert colon == [COLON] + colon[1..];
  }

  lemma {:induction false} MembersRead(s: Text, depth: nat, keys: set<Text>) returns (ms: Members)
    requires ScanMembers(s, depth, keys).Left?
    ensures ms.Member? && ValidMembers(ms) && MembersThen(ms, ScanMembers(s, depth, keys).rest) == s
    decreases |s|, 2
  {
    var pre, key, post := MemberHeadRead(s);
    var str := ScanString(SkipSpace(s));
    var value := SkipSpace(str.rest)[1..];
    var after := ScanValue(value, depth + 1).rest;
    var t := ValueRead(value, depth + 1);
    t := PostRead(t, after);
    var tail := TailRead(SkipSpace(after), depth, keys + {str.key});
    ms := Member(pre, key, post, t, tail);
  }

  /** What follows a member's value: the closing brace, or a comma and more members. */
  lemma {:induction false} TailRead(separator: Text, depth: nat, keys: set<Text>) returns (tail: Members)
    requires AfterMember(separator, depth, keys).Left?
    ensures ValidMembers(tail) && AfterValue(tail, AfterMember(separator, depth, keys).rest) == separator
    decreases |separator|, 3
  {
    if separator[0] == CLOSE_BRACE {
      tail := NoMembers;
      assert separator == [CLOSE_BRACE] + separator[1..];
    } else {
      tail := MembersRead(separator[1..], depth, keys);
      assert separator == [COMMA] + separator[1..];
    }
  }

  // ---- the whole text -----------------------------------------------------

  ghost predicate IsTextOf(text: Text, t: Tree) {
    ValidTree(t) && TreeThen(t, []) == text
  }

  /**
   * The scanner accepts exactly the texts of the trees that nest at most 64 deep
   * and repeat no decoded key in any object.
   */
  lemma AcceptsExactly(text: Text)
    ensures ScanText(text) == None <==>
            exists t :: IsTextOf(text, t) && Height(t) <= 64 && DistinctKeys(t)
  {
    if ScanText(text) == None {
      var t := ValueRead(text, 0);
      t := PostRead(t, ScanValue(text, 0).rest);
      AcceptedIff(t);
      assert IsTextOf(text, t);
    }
    forall t | IsTextOf(text, t) && Height(t) <= MAX_JSON_NESTING_DEPTH && DistinctKeys(t)
      ensures ScanText(text) == None
    {
      AcceptedIff(t);
    }
  }
}
