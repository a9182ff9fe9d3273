/** Cutting a stream into blocks of a fixed size, whole: the reference for the code that cuts it as
    it arrives. */
module Cutting {

  type Byte = x: int | 0 <= x < 256

  /** The whole blocks of n at the front of s, and what they leave. */
  function Blocks<T>(n: nat, s: seq<T>): (blocks: seq<seq<T>>)
    requires n > 0
    ensures forall i :: 0 <= i < |blocks| ==> |blocks[i]| == n
    decreases |s|
  {
    if |s| < n then [] else [s[..n]] + Blocks(n, s[n..])
  }

  function Tail<T>(n: nat, s: seq<T>): (rest: seq<T>)
    requires n > 0
    ensures |rest| < n
    decreases |s|
  {
    if |s| < n then s else Tail(n, s[n..])
  }

  function Flat<T>(parts: seq<seq<T>>): seq<T> {
    if parts == [] then [] else parts[0] + Flat(parts[1..])
  }

  lemma {:induction false} FlatAppend<T>(a: seq<seq<T>>, b: seq<seq<T>>)
    ensures Flat(a + b) == Flat(a) + Flat(b)
  {
    if a == [] {
      assert a + b == b;
    } else {
      FlatAppend(a[1..], b);
      FlatCons(a + b, a[1..] + b);
      Associate(a[0], Flat(a[1..]), Flat(b));
    }
  }

  lemma FlatCons<T>(s: seq<seq<T>>, rest: seq<seq<T>>)
    requires s != [] && s[1..] == rest
    ensures Flat(s) == s[0] + Flat(rest)
  {
  }

  lemma Associate<T>(a: seq<T>, b: seq<T>, c: seq<T>)
    ensures a + (b + c) == (a + b) + c
  {
  }

  lemma FlatOne<T>(s: seq<T>)
    ensures Flat([s]) == s
  {
    assert [s][1..] == [];
  }

  lemma FlatTwo<T>(a: seq<T>, b: seq<T>)
    ensures Flat([a, b]) == a + b
  {
    FlatOne(b);
    assert [a, b][1..] == [b];
  }

  /** Nothing is lost, added or reordered. */
  lemma {:induction false} BlocksConserve<T>(n: nat, s: seq<T>)
    requires n > 0
    ensures Flat(Blocks(n, s)) + Tail(n, s) == s
    decreases |s|
  {
    if |s| >= n {
      BlocksConserve(n, s[n..]);
      var rest := Blocks(n, s[n..]);
      assert ([s[..n]] + rest)[1..] == rest;
      assert s == s[..n] + s[n..];
    }
  }

  /** Cutting may stop anywhere and go on later with what was left. */
  lemma {:induction false} CutInTwo<T>(n: nat, a: seq<T>, b: seq<T>)
    requires n > 0
    ensures Blocks(n, a + b) == Blocks(n, a) + Blocks(n, Tail(n, a) + b)
    ensures Tail(n, a + b) == Tail(n, Tail(n, a) + b)
    decreases |a|
  {
    if |a| >= n {
      CutInTwo(n, a[n..], b);
      assert (a + b)[..n] == a[..n] && (a + b)[n..] == a[n..] + b;
    }
  }

  /** One more piece, no longer than what the next block still lacks. */
  lemma CutPiece<T>(n: nat, a: seq<T>, piece: seq<T>)
    requires n > 0 && |Tail(n, a)| + |piece| <= n
    ensures var joined := Tail(n, a) + piece;
      if |joined| == n then Blocks(n, a + piece) == Blocks(n, a) + [joined] && Tail(n, a + piece) == []
      else Blocks(n, a + piece) == Blocks(n, a) && Tail(n, a + piece) == joined
  {
    CutInTwo(n, a, piece);
    var joined := Tail(n, a) + piece;
    if |joined| == n {
      assert joined[..n] == joined && joined[n..] == [];
    }
  }
}
