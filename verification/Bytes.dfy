/** Bytes, byte strings and the little-endian integers that both the frame
    header (4 bytes) and the chunk header (8 bytes) use. */
module Bytes {
  type Byte = x: int | 0 <= x < 256

  type Bytes = seq<Byte>

  function Pow256(width: nat): (p: nat)
    ensures p > 0
  {
    if width == 0 then 1 else 256 * Pow256(width - 1)
  }

  function ToLE(n: nat, width: nat): (s: Bytes)
    ensures |s| == width
  {
    if width == 0 then [] else [n % 256] + ToLE(n / 256, width - 1)
  }

  function FromLE(s: Bytes): (n: nat)
  {
    if s == [] then 0 else s[0] + 256 * FromLE(s[1..])
  }

  /** Writing then reading an integer that fits gives it back. */
  lemma {:induction false} LERoundTrip(n: nat, width: nat)
    requires n < Pow256(width)
    ensures FromLE(ToLE(n, width)) == n
  {
    if width > 0 {
      LERoundTrip(n / 256, width - 1);
      assert ToLE(n, width)[1..] == ToLE(n / 256, width - 1);
    }
  }

  /** A byte string of a given width reads as an integer that fits it, and is
      the only one that reads so. */
  lemma {:induction false} LECanonical(s: Bytes)
    ensures FromLE(s) < Pow256(|s|)
    ensures ToLE(FromLE(s), |s|) == s
  {
    if s != [] {
      LECanonical(s[1..]);
      assert FromLE(s) / 256 == FromLE(s[1..]);
    }
  }

  /** Byte `k` is the digit that counts 256 to the power of `k`: the least
      significant byte comes first. */
  lemma {:induction false} LEDigits(n: nat, width: nat, k: nat)
    requires k < width
    ensures ToLE(n, width)[k] == n / Pow256(k) % 256
  {
    if k > 0 {
      LEDigits(n / 256, width - 1, k - 1);
      DivDiv(n, Pow256(k - 1));
    }
  }

  lemma DivDiv(n: nat, p: nat)
    requires p > 0
    ensures n / 256 / p == n / (256 * p)
  {
    var q := n / 256 / p;
    var r, t := n % 256, n / 256 % p;
    assert n == 256 * (p * q + t) + r;
    assert 256 * (p * q + t) == (256 * p) * q + 256 * t;
    assert 0 <= 256 * t + r < 256 * p;
    Quotient(n, 256 * p, q, 256 * t + r);
  }

  lemma Quotient(n: nat, d: nat, q: nat, r: nat)
    requires n == d * q + r && r < d
    ensures n / d == q
  {
    var a := n / d;
    assert n == d * a + n % d;
    Monotone(d, a + 1, q);
    Monotone(d, q + 1, a);
  }

  lemma {:induction false} Monotone(d: nat, x: nat, y: nat)
    ensures x <= y ==> d * x <= d * y
  {
  }

  /** The value of a byte string is the sum of its digits. */
  lemma {:induction false} LEValue(s: Bytes, k: nat)
    requires k < |s|
    ensures FromLE(s) / Pow256(k) % 256 == s[k]
  {
    LECanonical(s);
    LEDigits(FromLE(s), |s|, k);
  }

  /** A text of one-byte characters. */
  function Ascii(text: string): Bytes
    requires forall i :: 0 <= i < |text| ==> text[i] < 128 as char
  {
    if text == [] then [] else [AsciiByte(text[0])] + Ascii(text[1..])
  }

  lemma {:induction false} SpelledOut(text: string, s: Bytes)
    requires |s| == |text| && forall i :: 0 <= i < |text| ==> text[i] < 128 as char && s[i] == text[i] as int
    ensures Ascii(text) == s
  {
    if text != [] {
      SpelledOut(text[1..], s[1..]);
    }
  }

  function AsciiByte(c: char): Byte
    requires c < 128 as char
  {
    c as int
  }

  lemma WidthFacts()
    ensures Pow256(4) == 0x1_0000_0000
    ensures Pow256(8) == 0x1_0000_0000_0000_0000
  {
    assert Pow256(1) == 256;
    assert Pow256(2) == 0x1_0000;
    assert Pow256(3) == 0x100_0000;
    assert Pow256(4) == 0x1_0000_0000;
    assert Pow256(5) == 0x100_0000_0000;
    assert Pow256(6) == 0x1_0000_0000_0000;
    assert Pow256(7) == 0x100_0000_0000_0000;
  }

  function Concat(parts: seq<Bytes>): (s: Bytes)
  {
    if parts == [] then [] else parts[0] + Concat(parts[1..])
  }

  lemma {:induction false} ConcatAppend(xs: seq<Bytes>, ys: seq<Bytes>)
    ensures Concat(xs + ys) == Concat(xs) + Concat(ys)
  {
    if xs == [] {
      assert xs + ys == ys;
    } else {
      ConcatAppend(xs[1..], ys);
      assert (xs + ys)[0] == xs[0] && (xs + ys)[1..] == xs[1..] + ys;
      Associates(xs[0], Concat(xs[1..]), Concat(ys));
    }
  }

  lemma Associates(a: Bytes, b: Bytes, c: Bytes)
    ensures a + (b + c) == (a + b) + c
  {
  }

  lemma ConcatOne(xs: seq<Bytes>, y: Bytes)
    ensures Concat(xs + [y]) == Concat(xs) + y
  {
    ConcatAppend(xs, [y]);
    assert Concat([y]) == y + Concat([]);
  }

  lemma PrefixOfSum(p: Bytes, a: Bytes, b: Bytes)
    requires p <= a + b
    ensures |p| <= |a| ==> p <= a
    ensures |a| <= |p| ==> a <= p && p[|a|..] <= b
  {
    assert p == (a + b)[..|p|];
    if |a| <= |p| {
      assert a == p[..|a|];
      assert p[|a|..] == b[..|p| - |a|];
    } else {
      assert p == a[..|p|];
    }
  }

  lemma SliceGrows(a: Bytes, i: nat, j: nat, k: nat)
    requires i + k <= j <= |a|
    ensures a[..i] + a[i..j][..k] == a[..i + k]
  {
  }

  lemma SliceJoins(a: Bytes, i: nat, k: nat)
    requires i + k <= |a|
    ensures a[..i] + a[i..i + k] == a[..i + k]
  {
  }

  lemma SliceStays(a: Bytes, more: Bytes, i: nat, j: nat)
    requires i <= j <= |a|
    ensures (a + more)[..i] == a[..i] && (a + more)[i..j] == a[i..j]
  {
  }
}
