/** Texts as lists of their characters, and what it means to write one after another. */
module Texts {

  datatype Text<T> = End | Char(head: T, tail: Text<T>)

  function Size<T>(t: Text<T>): nat {
    if t.End? then 0 else 1 + Size(t.tail)
  }

  /** The text of p from o on. */
  function TextOf<T>(p: seq<T>, o: nat): Text<T>
    requires o <= |p|
    decreases |p| - o
  {
    if o == |p| then End else Char(p[o], TextOf(p, o + 1))
  }

  /** A text determines its string. */
  lemma {:induction false} TextOfIsExact<T>(p: seq<T>, q: seq<T>, o: nat)
    requires o <= |p| && o <= |q| && TextOf(p, o) == TextOf(q, o)
    ensures |p| == |q| && forall j :: o <= j < |p| ==> p[j] == q[j]
    decreases |p| - o
  {
    if o < |p| {
      TextOfIsExact(p, q, o + 1);
    }
  }

  /** The characters of s from a up to b, in front of t. */
  function Between<T>(s: seq<T>, a: nat, b: nat, t: Text<T>): Text<T>
    requires b <= |s|
    decreases b
  {
    if a >= b then t else Between(s, a, b - 1, Char(s[b - 1], t))
  }

  function Onto<T>(s: seq<T>, t: Text<T>): Text<T> {
    Between(s, 0, |s|, t)
  }

  lemma {:induction false} BetweenRest<T>(s: seq<T>, k: nat)
    requires k <= |s|
    ensures Between(s, 0, k, TextOf(s, k)) == TextOf(s, 0)
    decreases k
  {
    if k > 0 {
      BetweenRest(s, k - 1);
    }
  }

  lemma {:induction false} BetweenPrefix<T>(s: seq<T>, tail: seq<T>, k: nat, t: Text<T>)
    requires k <= |s|
    ensures Between(s + tail, 0, k, t) == Between(s, 0, k, t)
    decreases k
  {
    if k > 0 {
      BetweenPrefix(s, tail, k - 1, Char(s[k - 1], t));
    }
  }

  /** Appending a slice is putting its characters in front of what follows. */
  lemma {:induction false} OntoSlice<T>(out: seq<T>, p: seq<T>, a: nat, b: nat, t: Text<T>)
    requires b <= |p|
    ensures Onto(out + Slice(p, a, b), t) == Onto(out, Between(p, a, b, t))
    decreases b
  {
    var s := Slice(p, a, b);
    if a >= b {
      assert out + s == out;
    } else {
      var before := Slice(p, a, b - 1);
      assert s == before + [p[b - 1]];
      assert out + s == (out + before) + [p[b - 1]];
      BetweenPrefix(out + before, [p[b - 1]], |out + before|, Char(p[b - 1], t));
      OntoSlice(out, p, a, b - 1, Char(p[b - 1], t));
    }
  }

  lemma OntoAppend<T>(out: seq<T>, piece: seq<T>, t: Text<T>)
    ensures Onto(out + piece, t) == Onto(out, Onto(piece, t))
  {
    assert Slice(piece, 0, |piece|) == piece;
    OntoSlice(out, piece, 0, |piece|, t);
  }

  /** The program's slice: empty when its ends cross. */
  function Slice<T>(p: seq<T>, from: nat, to: nat): seq<T> {
    if from <= to <= |p| then p[from..to] else []
  }
}
