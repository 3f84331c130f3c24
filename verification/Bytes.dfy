/** Bytes, fixed-width little-endian fields, and reading from the front of a
    byte sequence. */
module Bytes {

  const TWO_32 := 0x1_0000_0000
  const TWO_16 := 0x1_0000

  type byte = x: int | 0 <= x < 256
  type u16 = x: int | 0 <= x < TWO_16
  type u32 = x: int | 0 <= x < TWO_32

  /** A value stored in a variable of type uint32_t. */
  function U32(x: nat): u32 {
    x % TWO_32
  }

  datatype Option<+T> = None | Some(value: T) {
    predicate IsFailure() {
      None?
    }

    function PropagateFailure<U>(): Option<U>
      requires None?
    {
      None
    }

    function Extract(): T
      requires Some?
    {
      value
    }
  }

  function Pow256(n: nat): (p: nat)
    ensures p > 0
  {
    if n == 0 then 1 else 256 * Pow256(n - 1)
  }

  /** The n low bytes of v, least significant first. */
  function LE(v: nat, n: nat): (b: seq<byte>)
    ensures |b| == n
  {
    if n == 0 then [] else [v % 256] + LE(v / 256, n - 1)
  }

  function UnLE(b: seq<byte>): nat {
    if b == [] then 0 else b[0] + 256 * UnLE(b[1..])
  }

  lemma {:induction false} UnLEOfLE(v: nat, n: nat)
    requires v < Pow256(n)
    ensures UnLE(LE(v, n)) == v
  {
    if n > 0 {
      UnLEOfLE(v / 256, n - 1);
    }
  }

  lemma {:induction false} LEOfUnLE(b: seq<byte>)
    ensures UnLE(b) < Pow256(|b|) && LE(UnLE(b), |b|) == b
  {
    if b != [] {
      LEOfUnLE(b[1..]);
    }
  }

  lemma Widths()
    ensures Pow256(1) == 256 && Pow256(2) == TWO_16 && Pow256(4) == TWO_32
  {
    assert Pow256(3) == 256 * Pow256(2);
  }

  // ------------------------------------------------------- reading forwards

  function Take(bs: seq<byte>, n: nat): (r: Option<(seq<byte>, seq<byte>)>)
    ensures r.Some? <==> n <= |bs|
    ensures r.Some? ==> |r.value.0| == n && bs == r.value.0 + r.value.1
  {
    if n <= |bs| then Some((bs[..n], bs[n..])) else None
  }

  lemma TakeConcat(a: seq<byte>, rest: seq<byte>)
    ensures Take(a + rest, |a|) == Some((a, rest))
  {
  }

  /** A field of n bytes. */
  function ReadLE(bs: seq<byte>, n: nat): (r: Option<(nat, seq<byte>)>)
    ensures r.Some? <==> n <= |bs|
    ensures r.Some? ==> |r.value.1| == |bs| - n
  {
    var (field, rest) :- Take(bs, n);
    Some((UnLE(field), rest))
  }

  lemma ReadLEOfLE(v: nat, n: nat, rest: seq<byte>)
    requires v < Pow256(n)
    ensures ReadLE(LE(v, n) + rest, n) == Some((v, rest))
  {
    UnLEOfLE(v, n);
    TakeConcat(LE(v, n), rest);
  }

  lemma LEOfReadLE(bs: seq<byte>, n: nat)
    requires n <= |bs|
    ensures var (v, rest) := ReadLE(bs, n).value;
            v < Pow256(n) && bs == LE(v, n) + rest
  {
    LEOfUnLE(bs[..n]);
  }

  /** Two concatenations whose first parts have the same length. */
  lemma SplitEqual(a: seq<byte>, b: seq<byte>, c: seq<byte>, d: seq<byte>)
    requires a + b == c + d && |a| == |c|
    ensures a == c && b == d
  {
    assert a == (a + b)[..|a|] == (c + d)[..|a|] == c;
    assert b == (a + b)[|a|..] == (c + d)[|a|..] == d;
  }

  lemma SameField(v: nat, w: nat, n: nat)
    requires v < Pow256(n) && w < Pow256(n) && LE(v, n) == LE(w, n)
    ensures v == w
  {
    UnLEOfLE(v, n);
    UnLEOfLE(w, n);
  }
}
