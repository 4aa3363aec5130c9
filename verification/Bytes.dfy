/** Bytes and the fixed-width integers a header is made of. */
module Bytes {

  newtype byte = x: int | 0 <= x < 256

  type Bytes = seq<byte>

  const U32: nat := 0x1_0000_0000
  const U64: nat := 0x1_0000_0000_0000_0000

  function Min(a: nat, b: nat): nat {
    if a <= b then a else b
  }

  function CeilDiv(a: nat, b: nat): nat
    requires b > 0
  {
    (a + b - 1) / b
  }

  function Pow256(width: nat): (p: nat)
    ensures p > 0
  {
    if width == 0 then 1 else 256 * Pow256(width - 1)
  }

  // The low `width` bytes of n, least significant first; what lies above is cut off.
  function ToLe(n: nat, width: nat): (b: Bytes)
    ensures |b| == width
  {
    if width == 0 then [] else [(n % 256) as byte] + ToLe(n / 256, width - 1)
  }

  function FromLe(b: Bytes): (n: nat) {
    if b == [] then 0 else b[0] as nat + 256 * FromLe(b[1..])
  }

  // Reading back what was written gives the number modulo what the width holds.
  lemma {:induction false} LeRoundTrip(n: nat, width: nat)
    ensures FromLe(ToLe(n, width)) == n % Pow256(width)
  {
    if width > 0 {
      LeRoundTrip(n / 256, width - 1);
      assert ToLe(n, width)[1..] == ToLe(n / 256, width - 1);
      ModSplits(n, Pow256(width - 1));
    }
  }

  lemma ModSplits(n: nat, p: nat)
    requires p > 0
    ensures n % 256 + 256 * (n / 256 % p) == n % (256 * p)
  {
    var q := n / 256;
    var t, v := q / p, q % p;
    assert q == p * t + v;
    assert n == 256 * p * t + (256 * v + n % 256) by { assert 256 * (p * t) == 256 * p * t; }
    assert 256 * v + n % 256 < 256 * p;
    RemainderIs(n, 256 * p, t, 256 * v + n % 256);
  }

  lemma RemainderIs(n: nat, m: nat, t: nat, v: nat)
    requires n == m * t + v && v < m
    ensures n % m == v && n / m == t
  {
    var d, r := n / m, n % m;
    assert n == m * d + r;
    if d < t {
      MulGrows(m, d, t);
    } else if d > t {
      MulGrows(m, t, d);
    }
  }

  lemma MulGrows(m: nat, a: nat, b: nat)
    requires a < b
    ensures m * a + m <= m * b
  {
    var d := b - a - 1;
    assert m * d >= 0;
    assert m * b == m * (a + 1 + d) == m * a + m + m * d;
  }

  lemma Widths()
    ensures Pow256(4) == U32 && Pow256(8) == U64
  {
  }

  lemma U32RoundTrip(n: nat)
    requires n < U32
    ensures FromLe(ToLe(n, 4)) == n
  {
    Widths();
    LeRoundTrip(n, 4);
  }

  lemma SliceAfter(a: Bytes, b: Bytes, lo: nat, hi: nat)
    requires |a| <= lo <= hi <= |a| + |b|
    ensures (a + b)[lo..hi] == b[lo - |a|..hi - |a|]
  {
  }

  lemma SliceWithin(a: Bytes, b: Bytes, lo: nat, hi: nat)
    requires lo <= hi <= |a|
    ensures (a + b)[lo..hi] == a[lo..hi]
  {
  }

  function Concat(parts: seq<Bytes>): Bytes {
    if parts == [] then [] else parts[0] + Concat(parts[1..])
  }

  lemma {:induction false} ConcatAppends(a: seq<Bytes>, b: seq<Bytes>)
    ensures Concat(a + b) == Concat(a) + Concat(b)
  {
    if a == [] {
      assert a + b == b;
    } else {
      ConcatAppends(a[1..], b);
      assert (a + b)[1..] == a[1..] + b;
      assert a[0] + (Concat(a[1..]) + Concat(b)) == (a[0] + Concat(a[1..])) + Concat(b);
    }
  }

  // Where part i of a concatenation lies.
  lemma ConcatSlice(parts: seq<Bytes>, i: nat)
    requires i < |parts|
    ensures var from := |Concat(parts[..i])|;
      && from + |parts[i]| == |Concat(parts[..i + 1])| <= |Concat(parts)|
      && Concat(parts)[from..from + |parts[i]|] == parts[i]
  {
    ConcatAppends(parts[..i], [parts[i]]);
    assert parts[..i + 1] == parts[..i] + [parts[i]];
    assert Concat([parts[i]]) == parts[i];
    ConcatAppends(parts[..i + 1], parts[i + 1..]);
    assert parts == parts[..i + 1] + parts[i + 1..];
  }
}
