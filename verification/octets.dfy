/**
 Bytes as the socket layer sees them, and the few sequence facts the queues need:
 concatenating a list of buffers, and cutting a reply down to the size that was asked for.
 */
module Octets {

  newtype Byte = x: int | 0 <= x < 256

  type Bytes = seq<Byte>

  function Min(a: int, b: int): (m: int)
    ensures m <= a && m <= b
    ensures m == a || m == b
  {
    if a <= b then a else b
  }

  /** The first `n` bytes of `b`, or all of `b` when it is shorter. */
  function Take(b: Bytes, n: nat): (r: Bytes)
    ensures |r| == Min(|b|, n)
    ensures r == b[..|r|]
  {
    if |b| <= n then b else b[..n]
  }

  /**
   `s` without its first `n` elements, or empty when it is shorter. Stepping one element at
   a time keeps the suffixes it names in terms of `s[1..]`.
   */
  function Skip<T>(s: seq<T>, n: nat): (r: seq<T>)
    ensures |r| == |s| - Min(|s|, n)
    decreases n
  {
    if n == 0 || |s| == 0 then s else Skip(s[1..], n - 1)
  }

  /** The concatenation of a list of buffers, first to last. */
  function Flatten(chunks: seq<Bytes>): Bytes
  {
    if |chunks| == 0 then [] else chunks[0] + Flatten(chunks[1..])
  }

  lemma {:induction false} FlattenAppend(a: seq<Bytes>, b: seq<Bytes>)
    ensures Flatten(a + b) == Flatten(a) + Flatten(b)
    decreases |a|
  {
    if |a| == 0 {
      assert a + b == b;
    } else {
      assert (a + b)[1..] == a[1..] + b;
      FlattenAppend(a[1..], b);
    }
  }

  lemma FlattenSingle(x: Bytes)
    ensures Flatten([x]) == x
  {
    assert [x][1..] == [];
  }

  lemma FlattenCons(x: Bytes, rest: seq<Bytes>)
    ensures Flatten([x] + rest) == x + Flatten(rest)
  {
    assert ([x] + rest)[1..] == rest;
  }

  /** `p` is an initial segment of `s`. */
  predicate IsPrefix<T(==)>(p: seq<T>, s: seq<T>)
  {
    |p| <= |s| && s[..|p|] == p
  }

  lemma PrefixTransitive<T>(a: seq<T>, b: seq<T>, c: seq<T>)
    requires IsPrefix(a, b) && IsPrefix(b, c)
    ensures IsPrefix(a, c)
  {
    assert c[..|a|] == c[..|b|][..|a|];
  }

  lemma PrefixExtend<T>(a: seq<T>, b: seq<T>, tail: seq<T>)
    requires IsPrefix(a, b)
    ensures IsPrefix(a, b + tail)
  {
    assert (b + tail)[..|a|] == b[..|a|];
  }

  lemma PrefixPrepend<T>(x: seq<T>, a: seq<T>, b: seq<T>)
    requires IsPrefix(a, b)
    ensures IsPrefix(x + a, x + b)
  {
    assert (x + b)[..|x + a|] == x + b[..|a|];
  }

  lemma Assoc<T>(a: seq<T>, b: seq<T>, c: seq<T>)
    ensures (a + b) + c == a + (b + c)
  {
  }

  /** An equation between two concatenations survives extending both with the same tail. */
  lemma AssocExtend<T>(a: seq<T>, m: seq<T>, t: seq<T>, q: seq<T>, i: seq<T>)
    requires a + m == q + i
    ensures a + (m + t) == q + (i + t)
  {
    calc {
      a + (m + t);
      (a + m) + t;
      (q + i) + t;
      q + (i + t);
    }
  }
}
