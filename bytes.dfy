/**
 * Byte strings as the ECC engine handles them: fixed-width big-endian and
 * little-endian integers, right-aligned (left-zero-padded) fields, byte-order
 * flips, and the in-place array helpers (memset, memcpy, the endian flip and
 * the zero-padding loops around BN_bn2bin) that the engine runs on its
 * parameter blocks and output buffers.
 */
module Bytes {

  /** An unsigned char. */
  newtype byte = x: int | 0 <= x < 256

  /** 256^n, the number of values an n-byte field can hold. */
  function Pow256(n: nat): (p: nat)
    ensures p >= 1
  {
    if n == 0 then 1 else 256 * Pow256(n - 1)
  }

  function Zeros(n: nat): (r: seq<byte>)
    ensures |r| == n
  {
    seq(n, _ => 0)
  }

  /** Value of s read most significant byte first. */
  function BEValue(s: seq<byte>): nat
  {
    if s == [] then 0 else BEValue(s[..|s| - 1]) * 256 + s[|s| - 1] as nat
  }

  /** Value of s read least significant byte first. */
  function LEValue(s: seq<byte>): nat
  {
    if s == [] then 0 else s[0] as nat + 256 * LEValue(s[1..])
  }

  /** The byte string reversed: what s390_flip_endian_32/64 compute. */
  function Reverse(s: seq<byte>): (r: seq<byte>)
    ensures |r| == |s|
  {
    seq(|s|, i requires 0 <= i < |s| => s[|s| - 1 - i])
  }


  /**
   * v copied to the end of a zeroed field of `size` bytes, the layout
   * `memcpy(field + size - len, v, len)` produces in a memset buffer.
   */
  function RightAlign(v: seq<byte>, size: nat): seq<byte>
    requires |v| <= size
  {
    Zeros(size - |v|) + v
  }

  /** s with v written over it at offset `at` (what a memcpy into a buffer does). */
  function Overwrite(s: seq<byte>, at: nat, v: seq<byte>): (r: seq<byte>)
    requires at + |v| <= |s|
    ensures |r| == |s|
  {
    seq(|s|, i requires 0 <= i < |s| => if at <= i < at + |v| then v[i - at] else s[i])
  }

  lemma OverwriteAt(s: seq<byte>, at: nat, v: seq<byte>, i: nat)
    requires at + |v| <= |s| && i < |s|
    ensures Overwrite(s, at, v)[i] == if at <= i < at + |v| then v[i - at] else s[i]
  {
  }

  /** The bytes just written read back. */
  lemma OverwriteSlice(s: seq<byte>, at: nat, v: seq<byte>)
    requires at + |v| <= |s|
    ensures Overwrite(s, at, v)[at .. at + |v|] == v
  {
  }

  /**
   * A right-aligned copy into a still-zero field [lo, lo + size) fills it
   * with the right-aligned value and keeps everything before it.
   */
  lemma RightAlignInto(b: seq<byte>, lo: nat, size: nat, v: seq<byte>)
    requires |v| <= size && lo + size <= |b| && b[lo .. lo + size] == Zeros(size)
    ensures Overwrite(b, lo + size - |v|, v)[..lo] == b[..lo]
    ensures Overwrite(b, lo + size - |v|, v)[lo .. lo + size] == RightAlign(v, size)
  {
    var w := Overwrite(b, lo + size - |v|, v);
    assert forall i | 0 <= i < size :: w[lo .. lo + size][i] == RightAlign(v, size)[i] by {
      forall i | 0 <= i < size
        ensures w[lo .. lo + size][i] == RightAlign(v, size)[i]
      {
        assert b[lo .. lo + size][i] == 0;
      }
    }
  }

  /** A field [lo, lo + size) whose leading size - len bytes are zero holds its last len bytes right-aligned. */
  lemma ZeroPaddedField(a: seq<byte>, lo: nat, size: nat, len: nat)
    requires len <= size && lo + size <= |a| && a[lo .. lo + size - len] == Zeros(size - len)
    ensures a[lo .. lo + size] == RightAlign(a[lo + size - len .. lo + size], size)
  {
    var f := a[lo .. lo + size];
    assert f == a[lo .. lo + size - len] + a[lo + size - len .. lo + size];
  }

  /** Overwriting the whole of s replaces it. */
  lemma OverwriteWhole(s: seq<byte>, v: seq<byte>)
    requires |v| == |s|
    ensures Overwrite(s, 0, v) == v
  {
    assert s[..0] == [] && s[|v|..] == [];
  }

  /** Changing one byte inside a field just written is writing the changed field. */
  lemma OverwriteUpdate(s: seq<byte>, at: nat, v: seq<byte>, i: nat, b: byte)
    requires at + |v| <= |s| && i < |v|
    ensures Overwrite(s, at, v)[at + i := b] == Overwrite(s, at, v[i := b])
  {
  }

  /** A store into the middle part of a three-part sequence. */
  lemma UpdateMiddle(a: seq<byte>, b: seq<byte>, c: seq<byte>, i: nat, v: byte)
    requires i < |b|
    ensures (a + b + c)[|a| + i := v] == a + b[i := v] + c
  {
  }

  /** A store just behind the finished part of a three-part sequence extends that part by one byte. */
  lemma StoreNext(pre: seq<byte>, done: seq<byte>, rest: seq<byte>, v: byte)
    requires |rest| > 0
    ensures (pre + done + rest)[|pre| + |done| := v] == pre + (done + [v]) + rest[1..]
  {
  }

  lemma ZerosSplit(a: nat, b: nat)
    ensures Zeros(a) + Zeros(b) == Zeros(a + b)
  {
  }

  /**
   * memcpy of v to the end of the next field of width `size` in a block
   * whose remaining bytes are still zero.
   */
  lemma PlaceField(pre: seq<byte>, v: seq<byte>, size: nat, rest: nat)
    requires |v| <= size <= rest
    ensures Overwrite(pre + Zeros(rest), |pre| + size - |v|, v)
            == pre + RightAlign(v, size) + Zeros(rest - size)
  {
    var s := pre + Zeros(rest);
    var at := |pre| + size - |v|;
    assert s[..at] == pre + Zeros(size - |v|);
    assert s[at + |v|..] == Zeros(rest - size);
  }

  /** The three parts of a block cut where they were joined. */
  lemma FieldOf(pre: seq<byte>, v: seq<byte>, post: seq<byte>)
    ensures (pre + v + post)[|pre| .. |pre| + |v|] == v
    ensures (pre + v + post)[..|pre|] == pre
    ensures (pre + v + post)[|pre| + |v|..] == post
  {
  }

  /** The four parts of a block cut at the offsets where they were joined. */
  lemma FourParts(p0: seq<byte>, p1: seq<byte>, p2: seq<byte>, p3: seq<byte>, i1: nat, i2: nat, i3: nat)
    requires |p0| == i1 && i1 + |p1| == i2 && i2 + |p2| == i3
    ensures var b := p0 + p1 + p2 + p3;
      && b[..i1] == p0 && b[i1..i2] == p1 && b[i2..i3] == p2 && b[i3..] == p3
  {
  }

  /** The five parts of a block cut at the offsets where they were joined. */
  lemma FiveParts(p0: seq<byte>, p1: seq<byte>, p2: seq<byte>, p3: seq<byte>, p4: seq<byte>,
                  i1: nat, i2: nat, i3: nat, i4: nat)
    requires |p0| == i1 && i1 + |p1| == i2 && i2 + |p2| == i3 && i3 + |p3| == i4
    ensures var b := p0 + p1 + p2 + p3 + p4;
      && b[..i1] == p0 && b[i1..i2] == p1 && b[i2..i3] == p2 && b[i3..i4] == p3 && b[i4..] == p4
  {
  }

  /** Three right-aligned fields between two zero runs, regrouped byte run by byte run. */
  lemma Regroup(a: seq<byte>, b: seq<byte>, c: seq<byte>, d: seq<byte>, e: seq<byte>, f: seq<byte>,
                g: seq<byte>, h: seq<byte>)
    ensures a + (b + c) + (d + e) + (f + g) + h == (a + b) + c + d + e + f + g + h
  {
  }

  /** Right-aligning v in a wider field keeps its value. */
  lemma RightAlignValue(v: seq<byte>, size: nat)
    requires |v| <= size
    ensures BEValue(RightAlign(v, size)) == BEValue(v)
  {
    PaddingKeepsBEValue(v, size - |v|);
  }

  /** A field holding v right-aligned holds v's value. */
  lemma RightAlignedValue(field: seq<byte>, v: seq<byte>)
    requires |v| <= |field| && field == RightAlign(v, |field|)
    ensures BEValue(field) == BEValue(v)
  {
    PaddingKeepsBEValue(v, |field| - |v|);
  }

  /** memcpy of v to the end of a still-zero field of width n between a and c. */
  lemma FillField(a: seq<byte>, v: seq<byte>, n: nat, c: seq<byte>)
    requires |v| <= n
    ensures Overwrite(a + Zeros(n) + c, |a| + n - |v|, v) == a + RightAlign(v, n) + c
  {
    var s := a + Zeros(n) + c;
    var at := |a| + n - |v|;
    assert s[..at] == a + Zeros(n - |v|);
    assert s[at + |v|..] == c;
  }

  /** memcpy of v to the start of the next field of width `size` in a zeroed block. */
  lemma PlaceFieldLeft(pre: seq<byte>, v: seq<byte>, size: nat, rest: nat)
    requires |v| <= size <= rest
    ensures Overwrite(pre + Zeros(rest), |pre|, v)
            == pre + (v + Zeros(size - |v|)) + Zeros(rest - size)
  {
    var s := pre + Zeros(rest);
    assert s[..|pre|] == pre;
    assert s[|pre| + |v|..] == Zeros(size - |v|) + Zeros(rest - size);
  }

  /**
   * The big-endian bytes of n without leading zeros, as BN_bn2bin writes
   * them; its length is BN_num_bytes(n).
   */
  function MinimalBE(n: nat): seq<byte>
  {
    if n == 0 then [] else MinimalBE(n / 256) + [(n % 256) as byte]
  }

  /** n as a big-endian field of exactly `width` bytes. */
  function FixedWidthBE(n: nat, width: nat): (r: seq<byte>)
    requires n < Pow256(width)
    ensures |r| == width
    ensures BEValue(r) == n
  {
    MinimalBELength(n, width);
    MinimalBEValue(n);
    PaddingKeepsBEValue(MinimalBE(n), width - |MinimalBE(n)|);
    RightAlign(MinimalBE(n), width)
  }

  // ---------------------------------------------------------------------
  // Lemmas about values and padding
  // ---------------------------------------------------------------------

  lemma {:induction false} ZerosHaveNoValue(k: nat)
    ensures BEValue(Zeros(k)) == 0
  {
    if k > 0 {
      assert Zeros(k)[..k - 1] == Zeros(k - 1);
      ZerosHaveNoValue(k - 1);
    }
  }

  /** Leading zero bytes do not change a big-endian value. */
  lemma {:induction false} PaddingKeepsBEValue(v: seq<byte>, k: nat)
    ensures BEValue(Zeros(k) + v) == BEValue(v)
  {
    if v == [] {
      assert Zeros(k) + v == Zeros(k);
      ZerosHaveNoValue(k);
    } else {
      var w := Zeros(k) + v;
      assert w[..|w| - 1] == Zeros(k) + v[..|v| - 1];
      assert w[|w| - 1] == v[|v| - 1];
      PaddingKeepsBEValue(v[..|v| - 1], k);
    }
  }

  lemma ShiftDigit(h: nat, p: nat, t: nat, d: nat)
    ensures (h * p + t) * 256 + d == h * (256 * p) + (t * 256 + d)
  {
  }

  /** The value of a concatenation: the head shifted past the tail. */
  lemma {:induction false} BEValueConcat(a: seq<byte>, b: seq<byte>)
    ensures BEValue(a + b) == BEValue(a) * Pow256(|b|) + BEValue(b)
  {
    if b == [] {
      assert a + b == a;
    } else {
      var w := a + b;
      var b' := b[..|b| - 1];
      assert w[..|w| - 1] == a + b';
      assert w[|w| - 1] == b[|b| - 1];
      BEValueConcat(a, b');
      ShiftDigit(BEValue(a), Pow256(|b'|), BEValue(b'), b[|b| - 1] as nat);
    }
  }

  /** The value of a non-empty string: its first byte shifted past the rest. */
  lemma BEValueHead(s: seq<byte>)
    requires |s| > 0
    ensures BEValue(s) == s[0] as nat * Pow256(|s| - 1) + BEValue(s[1..])
  {
    var h, t := s[..1], s[1..];
    assert s == h + t;
    BEValueConcat(h, t);
    assert h[..0] == [];
    assert BEValue(h) == BEValue(h[..0]) * 256 + s[0] as nat;
  }

  /**
   * The last n bytes of a field hold its whole value exactly when that
   * value fits in n bytes: what copying privlen bytes out of a wider
   * instruction field keeps.
   */
  lemma TailKeepsValue(field: seq<byte>, n: nat)
    requires n <= |field|
    ensures BEValue(field[|field| - n..]) == BEValue(field) <==> BEValue(field) < Pow256(n)
  {
    var head := field[..|field| - n];
    var tail := field[|field| - n..];
    assert field == head + tail;
    BEValueConcat(head, tail);
    BEValueBound(tail);
    HeadDigitZero(BEValue(head), Pow256(n), BEValue(tail));
  }

  lemma HeadDigitZero(h: nat, p: nat, t: nat)
    requires t < p
    ensures t == h * p + t <==> h * p + t < p
  {
    if h > 0 {
      assert h * p >= p;
    }
  }

  /** A value read from |s| bytes is below 256^|s|. */
  lemma {:induction false} BEValueBound(s: seq<byte>)
    ensures BEValue(s) < Pow256(|s|)
  {
    if s != [] {
      BEValueBound(s[..|s| - 1]);
      assert BEValue(s) <= (Pow256(|s| - 1) - 1) * 256 + 255;
    }
  }

  lemma {:induction false} LEValueBound(s: seq<byte>)
    ensures LEValue(s) < Pow256(|s|)
  {
    if s != [] {
      LEValueBound(s[1..]);
      assert LEValue(s) <= 255 + 256 * (Pow256(|s| - 1) - 1);
    }
  }

  lemma {:induction false} MinimalBEValue(n: nat)
    ensures BEValue(MinimalBE(n)) == n
  {
    if n > 0 {
      var m := MinimalBE(n);
      var b := (n % 256) as byte;
      assert m == MinimalBE(n / 256) + [b];
      assert m[..|m| - 1] == MinimalBE(n / 256);
      MinimalBEValue(n / 256);
      assert BEValue(m) == BEValue(MinimalBE(n / 256)) * 256 + b as nat;
    }
  }

  lemma DigitSplitUnique(q1: nat, r1: nat, q2: nat, r2: nat)
    requires r1 < 256 && r2 < 256 && q1 * 256 + r1 == q2 * 256 + r2
    ensures q1 == q2 && r1 == r2
  {
    var v := q1 * 256 + r1;
    assert v / 256 == q1 && v / 256 == q2;
  }

  /** BN_num_bytes(n) <= width exactly when n fits in width bytes. */
  lemma {:induction false} MinimalBELength(n: nat, width: nat)
    ensures |MinimalBE(n)| <= width <==> n < Pow256(width)
  {
    if n == 0 {
    } else if width == 0 {
    } else {
      MinimalBELength(n / 256, width - 1);
    }
  }

  /** The fixed-width encoding is the only width-byte string with value n. */
  lemma {:induction false} FixedWidthBEUnique(s: seq<byte>, n: nat)
    requires BEValue(s) == n
    ensures n < Pow256(|s|) && s == FixedWidthBE(n, |s|)
  {
    BEValueBound(s);
    BEInjective(s, FixedWidthBE(n, |s|));
  }

  lemma {:induction false} BEInjective(a: seq<byte>, b: seq<byte>)
    requires |a| == |b| && BEValue(a) == BEValue(b)
    ensures a == b
  {
    if a != [] {
      var n := |a|;
      var a', b' := a[..n - 1], b[..n - 1];
      var x, y := a[n - 1], b[n - 1];
      assert BEValue(a') * 256 + x as nat == BEValue(b') * 256 + y as nat;
      DigitSplitUnique(BEValue(a'), x as nat, BEValue(b'), y as nat);
      BEInjective(a', b');
      assert a == a' + [x] && b == b' + [y];
    }
  }

  // ---------------------------------------------------------------------
  // Bit operations on one byte
  // ---------------------------------------------------------------------

  /** 2^k. */
  function Pow2(k: nat): (p: nat)
    ensures p >= 1
  {
    if k == 0 then 1 else 2 * Pow2(k - 1)
  }

  /** The low k bits of a & b, built from the least significant bit up. */
  function AndBits(a: nat, b: nat, k: nat): (r: nat)
    ensures r <= a
  {
    if k == 0 then 0
    else 2 * AndBits(a / 2, b / 2, k - 1) + (if a % 2 == 1 && b % 2 == 1 then 1 else 0)
  }

  /** The low k bits of a | b, built from the least significant bit up. */
  function OrBits(a: nat, b: nat, k: nat): (r: nat)
    ensures r < Pow2(k)
  {
    if k == 0 then 0
    else 2 * OrBits(a / 2, b / 2, k - 1) + (if a % 2 == 1 || b % 2 == 1 then 1 else 0)
  }

  /** C's a & b on two unsigned chars. */
  function And(a: byte, b: byte): (r: byte)
    ensures r <= a
  {
    AndBits(a as nat, b as nat, 8) as byte
  }

  /** C's a | b on two unsigned chars. */
  function Or(a: byte, b: byte): byte
  {
    assert Pow2(8) == 256;
    OrBits(a as nat, b as nat, 8) as byte
  }

  /** C's a << k stored back into an unsigned char: the bits above bit 7 are lost. */
  function ShiftLeft(a: byte, k: nat): byte
  {
    (a as int * Pow2(k) % 256) as byte
  }

  /** a & 0x7f keeps the low seven bits. */
  lemma MaskLow7(b: byte)
    ensures And(b, 127) as nat == b as nat % 128
  {
    assert Pow2(7) == 128;
    AndOnes(b as nat, 7, 8);
  }

  /** a & 0x3f keeps the low six bits. */
  lemma MaskLow6(b: byte)
    ensures And(b, 63) as nat == b as nat % 64
  {
    assert Pow2(6) == 64;
    AndOnes(b as nat, 6, 8);
  }

  /** a & 1 keeps the lowest bit. */
  lemma MaskLow1(b: byte)
    ensures And(b, 1) as nat == b as nat % 2
  {
    assert Pow2(1) == 2;
    AndOnes(b as nat, 1, 8);
  }

  /** a & 248 and a & 252 clear the low three and two bits. */
  lemma AndClearsLowBits(b: byte)
    ensures And(b, 248) as nat % 8 == 0 && And(b, 252) as nat % 4 == 0
  {
    var b1 := b as nat / 2;
    var b2 := b1 / 2;
    AndEvenMask(b as nat, 248, 8);
    AndEvenMask(b1, 124, 7);
    AndEvenMask(b2, 62, 6);
    AndEvenMask(b as nat, 252, 8);
    AndEvenMask(b1, 126, 7);
    var x, y := AndBits(b2 / 2, 31, 5), AndBits(b2, 63, 6);
    assert And(b, 248) as nat == 8 * x;
    assert And(b, 252) as nat == 4 * y;
    MultipleMod(x, 8);
    MultipleMod(y, 4);
  }

  lemma MultipleMod(x: nat, m: nat)
    requires m > 0
    ensures (m * x) % m == 0
  {
    ModUnique(m * x, m, x, 0);
  }

  /** An even mask clears bit 0. */
  lemma AndEvenMask(a: nat, m: nat, k: nat)
    requires k > 0 && m % 2 == 0
    ensures AndBits(a, m, k) == 2 * AndBits(a / 2, m / 2, k - 1)
  {
  }

  /** a | 0x80 adds 128 to a value below 128. */
  lemma SetBit7Below(b: byte)
    requires b < 128
    ensures Or(b, 128) as nat == b as nat + 128
  {
    SetBit7(b);
    ModBelow(b as nat, 128);
  }

  lemma ModBelow(x: nat, m: nat)
    requires x < m
    ensures x % m == x
  {
  }

  /** a | 0x80 sets bit 7 over the low seven bits. */
  lemma SetBit7(b: byte)
    ensures Or(b, 128) as nat == b as nat % 128 + 128
  {
    assert Pow2(8) == 256 && Pow2(7) == 128;
    OrHigh(b as nat, 7, 8);
  }

  /** a | 0x40 sets bit 6 of a value below 128. */
  lemma SetBit6(b: byte)
    requires b < 128
    ensures Or(b, 64) as nat == b as nat % 64 + 64
  {
    assert Pow2(8) == 256 && Pow2(6) == 64;
    OrHigh(b as nat, 6, 8);
  }

  /** a | 0 is a. */
  lemma OrZero(b: byte)
    ensures Or(b, 0) == b
  {
    assert Pow2(8) == 256;
    OrNone(b as nat, 8);
  }

  lemma {:induction false} AndNone(a: nat, k: nat)
    ensures AndBits(a, 0, k) == 0
  {
    if k > 0 {
      AndNone(a / 2, k - 1);
    }
  }

  /** Masking with j low ones keeps the value modulo 2^j. */
  lemma {:induction false} AndOnes(a: nat, j: nat, k: nat)
    requires j <= k
    ensures AndBits(a, Pow2(j) - 1, k) == a % Pow2(j)
  {
    if j == 0 {
      AndNone(a, k);
    } else {
      var p := Pow2(j - 1);
      assert Pow2(j) == 2 * p;
      AndOnes(a / 2, j - 1, k - 1);
      assert (2 * p - 1) / 2 == p - 1 && (2 * p - 1) % 2 == 1;
      HalfMod(a, p);
    }
  }

  lemma {:induction false} OrNone(a: nat, k: nat)
    requires a < Pow2(k)
    ensures OrBits(a, 0, k) == a
  {
    if k > 0 {
      OrNone(a / 2, k - 1);
    }
  }

  /** Or-ing bit j into a value below 2^(j+1) sets that bit over the low j bits. */
  lemma {:induction false} OrHigh(a: nat, j: nat, k: nat)
    requires j < k && a < 2 * Pow2(j)
    ensures OrBits(a, Pow2(j), k) == a % Pow2(j) + Pow2(j)
  {
    if j == 0 {
      OrNone(0, k - 1);
    } else {
      var p := Pow2(j - 1);
      assert Pow2(j) == 2 * p;
      OrHigh(a / 2, j - 1, k - 1);
      assert (2 * p) / 2 == p && (2 * p) % 2 == 0;
      HalfMod(a, p);
    }
  }

  lemma HalfMod(a: nat, m: nat)
    requires m >= 1
    ensures a % (2 * m) == 2 * (a / 2 % m) + a % 2
  {
    var q, r := a / 2, a % 2;
    var s, t := q / m, q % m;
    assert a == (2 * m) * s + (2 * t + r);
    ModUnique(a, 2 * m, s, 2 * t + r);
  }

  lemma ModUnique(a: int, d: int, s: int, x: int)
    requires d > 0 && 0 <= x < d && a == d * s + x
    ensures a % d == x
  {
    var s', x' := a / d, a % d;
    assert d * s + x == d * s' + x';
    if s' > s {
      MulAtLeast(d, s' - s);
      assert false;
    } else if s > s' {
      MulAtLeast(d, s - s');
      assert false;
    }
  }

  lemma {:induction false} MulAtLeast(d: nat, k: nat)
    requires k >= 1
    ensures d * k >= d
  {
    if k > 1 {
      MulAtLeast(d, k - 1);
      assert d * k == d * (k - 1) + d;
    }
  }

  // ---------------------------------------------------------------------
  // Lemmas about reversal
  // ---------------------------------------------------------------------

  /** Flipping twice restores the original bytes. */
  lemma ReverseInvolutive(s: seq<byte>)
    ensures Reverse(Reverse(s)) == s
  {
    assert forall k | 0 <= k < |s| :: Reverse(Reverse(s))[k] == s[k];
  }

  /** Reading reversed bytes big-endian gives the little-endian value. */
  lemma {:induction false} ReverseSwapsEndianness(s: seq<byte>)
    ensures BEValue(Reverse(s)) == LEValue(s)
  {
    if s != [] {
      var r := Reverse(s);
      assert r[..|r| - 1] == Reverse(s[1..]);
      assert r[|r| - 1] == s[0];
      ReverseSwapsEndianness(s[1..]);
    }
  }

  /**
   * A little-endian value padded with zero bytes at its high end, flipped,
   * is the big-endian value right-aligned in the field.
   */
  lemma ReverseOfZeroExtended(v: seq<byte>, k: nat)
    ensures Reverse(v + Zeros(k)) == RightAlign(Reverse(v), |Reverse(v)| + k)
  {
    var s := v + Zeros(k);
    var rv := Reverse(v);
    var rhs := Zeros(k) + rv;
    var rs := Reverse(s);
    assert forall i | 0 <= i < |s| :: rs[i] == rhs[i];
    assert rs == rhs;
  }

  // ---------------------------------------------------------------------
  // In-place helpers on arrays
  // ---------------------------------------------------------------------

  /** memset(a + lo, 0, hi - lo) or OPENSSL_cleanse of the same range. */
  method Wipe(a: array<byte>, lo: nat, hi: nat)
    requires lo <= hi <= a.Length
    modifies a
    ensures a[..] == old(a[..lo]) + Zeros(hi - lo) + old(a[hi..])
  {
    ghost var o := a[..];
    var i := lo;
    while i < hi
      invariant lo <= i <= hi
      invariant forall j :: 0 <= j < a.Length ==> a[j] == if lo <= j < i then 0 else o[j]
    {
      a[i] := 0;
      i := i + 1;
    }
    assert a[..] == o[..lo] + Zeros(hi - lo) + o[hi..];
  }

  /** Wiping [a, b) and then [b, c) clears the two runs in turn. */
  lemma WipeAfterWipe(o: seq<byte>, a: nat, b: nat, c: nat)
    requires a <= b <= c <= |o|
    ensures var w := o[..a] + Zeros(b - a) + o[b..];
      w[..b] + Zeros(c - b) + w[c..] == o[..a] + (Zeros(b - a) + Zeros(c - b)) + o[c..]
  {
    var w := o[..a] + Zeros(b - a) + o[b..];
    assert w[..b] == o[..a] + Zeros(b - a);
    assert w[c..] == o[c..];
  }

  /** memcpy(a + at, src, |src|). */
  method CopyInto(a: array<byte>, at: nat, src: seq<byte>)
    requires at + |src| <= a.Length
    modifies a
    ensures a[..] == Overwrite(old(a[..]), at, src)
  {
    ghost var o := a[..];
    var i := 0;
    while i < |src|
      invariant 0 <= i <= |src|
      invariant forall j :: 0 <= j < a.Length ==> a[j] == if at <= j < at + i then src[j - at] else o[j]
    {
      a[at + i] := src[i];
      i := i + 1;
    }
    assert a[..] == Overwrite(o, at, src);
  }

  /** Two memcpy calls in a row. */
  method CopyTwo(a: array<byte>, p: nat, x: seq<byte>, q: nat, y: seq<byte>)
    requires p + |x| <= a.Length && q + |y| <= a.Length
    modifies a
    ensures a[..] == Overwrite(Overwrite(old(a[..]), p, x), q, y)
  {
    CopyInto(a, p, x);
    CopyInto(a, q, y);
  }

  /** Three memcpy calls in a row. */
  method CopyThree(a: array<byte>, p: nat, x: seq<byte>, q: nat, y: seq<byte>, r: nat, z: seq<byte>)
    requires p + |x| <= a.Length && q + |y| <= a.Length && r + |z| <= a.Length
    modifies a
    ensures a[..] == Overwrite(Overwrite(Overwrite(old(a[..]), p, x), q, y), r, z)
  {
    CopyInto(a, p, x);
    CopyInto(a, q, y);
    CopyInto(a, r, z);
  }


  /**
   * s390_flip_endian_32/64 applied in place to a[lo .. lo + n). The flip
   * itself is a helper outside this file; it is modelled by its effect.
   */
  method FlipEndian(a: array<byte>, lo: nat, n: nat)
    requires lo + n <= a.Length
    modifies a
    ensures a[..] == old(a[..lo]) + Reverse(old(a[lo..lo + n])) + old(a[lo + n..])
  {
    var flipped := Reverse(a[lo..lo + n]);
    CopyInto(a, lo, flipped);
  }

  /**
   * The zero-padding idiom around BN_bn2bin: the width - BN_num_bytes(n)
   * leading bytes of the field are zeroed one by one, then the minimal
   * big-endian bytes of n are copied behind them, writing n as a
   * width-byte big-endian field at `at`.
   */
  method WriteFixedWidth(dst: array<byte>, at: nat, width: nat, n: nat)
    requires at + width <= dst.Length
    requires n < Pow256(width)
    modifies dst
    ensures dst[..] == old(dst[..at]) + FixedWidthBE(n, width) + old(dst[at + width..])
    ensures BEValue(dst[at..at + width]) == n
  {
    var mag := MinimalBE(n);
    MinimalBELength(n, width);
    var pad := width - |mag|;
    ghost var o := dst[..];
    Wipe(dst, at, at + pad);
    CopyInto(dst, at + pad, mag);
    PadThenCopy(o[..at], pad, mag, o[at + pad..]);
    assert o[at + pad..][|mag|..] == o[at + width..];
    assert Zeros(pad) + mag == FixedWidthBE(n, width);
    FieldOf(o[..at], FixedWidthBE(n, width), o[at + width..]);
  }

  /** WriteFixedWidth at the start of the buffer. */
  method WriteLeading(dst: array<byte>, width: nat, n: nat)
    requires width <= dst.Length && n < Pow256(width)
    modifies dst
    ensures dst[..] == FixedWidthBE(n, width) + old(dst[width..])
  {
    ghost var o := dst[..];
    WriteFixedWidth(dst, 0, width, n);
    assert o[..0] == [];
  }

  /** Two fields of equal width written one after the other at the start of o. */
  lemma TwoFields(o: seq<byte>, a: seq<byte>, b: seq<byte>)
    requires |a| == |b| && 2 * |a| <= |o|
    ensures var n := |a|; var w := o[..0] + a + o[n..];
      w[..n] + b + w[2 * n..] == a + b + o[2 * n..]
  {
    var n := |a|;
    var w := o[..0] + a + o[n..];
    assert w[..n] == a;
    assert w[2 * n..] == o[2 * n..];
  }

  /** Copying mag right behind pad fresh zero bytes fills the field they make up. */
  lemma PadThenCopy(pre: seq<byte>, pad: nat, mag: seq<byte>, post: seq<byte>)
    requires |mag| <= |post|
    ensures Overwrite(pre + Zeros(pad) + post, |pre| + pad, mag) == pre + (Zeros(pad) + mag) + post[|mag|..]
  {
    var s := pre + Zeros(pad) + post;
    assert s[..|pre| + pad] == pre + Zeros(pad);
    assert s[|pre| + pad + |mag|..] == post[|mag|..];
  }
}
