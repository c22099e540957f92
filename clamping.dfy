/**
 * Scalar clamping and u-coordinate masking for the Montgomery and Edwards
 * curves, as scalar_mulx_cpacf, ed25519_derive_pub and ed448_derive_pub apply
 * them to little-endian byte strings before handing them to the instruction.
 * The lemmas state what the bit operations mean for the scalar's value, as
 * section 5 of RFC 7748 and sections 5.1.5 and 5.2.5 of RFC 8032 describe it.
 */
module Clamping {
  import opened Bytes

  /** X25519 scalar: scalar[0] &= 248; scalar[31] &= 127; scalar[31] |= 64. */
  function ClampX25519(k: seq<byte>): (r: seq<byte>)
    requires |k| == 32
    ensures |r| == 32
  {
    k[0 := And(k[0], 248)][31 := Or(And(k[31], 127), 64)]
  }

  /** X25519 u-coordinate: u[31] &= 0x7f. */
  function MaskU25519(u: seq<byte>): (r: seq<byte>)
    requires |u| == 32
    ensures |r| == 32
  {
    u[31 := And(u[31], 0x7f)]
  }

  /** X448 scalar: scalar[0] &= 252; scalar[55] |= 128. */
  function ClampX448(k: seq<byte>): (r: seq<byte>)
    requires |k| == 56
    ensures |r| == 56
  {
    k[0 := And(k[0], 252)][55 := Or(k[55], 128)]
  }

  /**
   * Ed25519: the first half of the SHA-512 digest of the private key,
   * buf[0] &= -8; buf[31] &= 0x3f; buf[31] |= 0x40.
   */
  function ClampEd25519(h: seq<byte>): (r: seq<byte>)
    requires |h| == 64
    ensures |r| == 64
  {
    h[0 := And(h[0], 0xf8)][31 := Or(And(h[31], 0x3f), 0x40)]
  }

  /**
   * Ed448: the SHAKE-256 output of the private key with its upper 57 bytes
   * zeroed, then buf[0] &= -4; buf[55] |= 0x80; buf[56] = 0.
   */
  function ClampEd448(h: seq<byte>): (r: seq<byte>)
    requires |h| == 114
    ensures |r| == 114
  {
    var b := h[..57] + Zeros(57);
    b[0 := And(b[0], 0xfc)][55 := Or(b[55], 0x80)][56 := 0]
  }

  // ---------------------------------------------------------------------
  // Value-level meaning
  // ---------------------------------------------------------------------

  lemma Distribute(l: nat, b: nat, p: nat)
    ensures 256 * (l + b * p) == 256 * l + b * (256 * p)
  {
  }

  lemma MulMonotone(a: nat, b: nat, p: nat)
    requires a <= b
    ensures a * p <= b * p
  {
  }

  /** Splitting a little-endian value at its most significant byte. */
  lemma {:induction false} LEValueSplitLast(s: seq<byte>)
    requires |s| > 0
    ensures LEValue(s) == LEValue(s[..|s| - 1]) + s[|s| - 1] as nat * Pow256(|s| - 1)
  {
    if |s| > 1 {
      var t := s[1..];
      var init := s[..|s| - 1];
      LEValueSplitLast(t);
      assert t[..|t| - 1] == init[1..];
      var l := LEValue(t[..|t| - 1]);
      var b := t[|t| - 1] as nat;
      var p := Pow256(|t| - 1);
      assert LEValue(t) == l + b * p;
      assert LEValue(init) == s[0] as nat + 256 * l;
      assert Pow256(|s| - 1) == 256 * p;
      Distribute(l, b, p);
    }
  }

  lemma ResidueMod8(x: nat, y: nat)
    ensures (x + 8 * y) % 8 == x % 8
    ensures (x + 4 * (2 * y)) % 4 == x % 4
  {
  }

  /** The residue of a little-endian value modulo 8 (and 4) is that of its first byte. */
  lemma LEValueLowBits(s: seq<byte>)
    requires |s| > 0
    ensures LEValue(s) % 8 == s[0] as nat % 8
    ensures LEValue(s) % 4 == s[0] as nat % 4
  {
    var rest := LEValue(s[1..]);
    assert LEValue(s) == s[0] as nat + 8 * (32 * rest);
    ResidueMod8(s[0] as nat, 32 * rest);
  }

  /** A little-endian value whose top byte lies in [lo, hi) lies in [lo, hi) * 256^(n-1). */
  lemma TopByteBounds(s: seq<byte>, lo: nat, hi: nat)
    requires |s| > 0 && lo <= s[|s| - 1] as nat < hi
    ensures lo * Pow256(|s| - 1) <= LEValue(s) < hi * Pow256(|s| - 1)
  {
    var n := |s|;
    var p := Pow256(n - 1);
    var top := s[n - 1] as nat;
    var low := LEValue(s[..n - 1]);
    LEValueSplitLast(s);
    LEValueBound(s[..n - 1]);
    DigitBounds(low, top, p, lo, hi);
  }

  lemma DigitBounds(low: nat, top: nat, p: nat, lo: nat, hi: nat)
    requires low < p && lo <= top < hi
    ensures lo * p <= low + top * p < hi * p
  {
    MulMonotone(lo, top, p);
    MulMonotone(top + 1, hi, p);
  }

  /**
   * A clamped X25519 scalar is a multiple of the cofactor 8 with bit 254 set
   * and bit 255 clear: 2^254 <= k < 2^255 (2^254 = 64 * 256^31).
   */
  lemma X25519ClampedScalar(k: seq<byte>)
    requires |k| == 32
    ensures LEValue(ClampX25519(k)) % 8 == 0
    ensures 64 * Pow256(31) <= LEValue(ClampX25519(k)) < 128 * Pow256(31)
  {
    var r := ClampX25519(k);
    assert (r[0] as nat) % 8 == 0 by { AndClearsLowBits(k[0]); }
    LEValueLowBits(r);
    assert 64 <= r[31] as nat < 128 by {
      MaskLow7(k[31]);
      SetBit6(And(k[31], 127));
    }
    TopByteBounds(r, 64, 128);
  }

  /**
   * Masking the top bit of u reduces it modulo 2^255 (2^255 = 128 * 256^31):
   * the masked value is below 2^255 and differs from u by 2^255 exactly when
   * that bit was set.
   */
  lemma MaskedU25519(u: seq<byte>)
    requires |u| == 32
    ensures LEValue(MaskU25519(u)) < 128 * Pow256(31)
    ensures u[31] as nat < 128 ==> LEValue(u) == LEValue(MaskU25519(u))
    ensures u[31] as nat >= 128 ==> LEValue(u) == LEValue(MaskU25519(u)) + 128 * Pow256(31)
  {
    MaskTopBit(u);
  }

  /** Clearing bit 7 of the most significant byte of a little-endian number. */
  lemma MaskTopBit(s: seq<byte>)
    requires |s| > 0
    ensures var n := |s|;
      var m := s[n - 1 := And(s[n - 1], 127)];
      && LEValue(m) < 128 * Pow256(n - 1)
      && (s[n - 1] < 128 ==> LEValue(s) == LEValue(m))
      && (s[n - 1] >= 128 ==> LEValue(s) == LEValue(m) + 128 * Pow256(n - 1))
  {
    var n := |s|;
    LEValueSplitLast(s);
    MaskedLowPart(s);
    TopBitSplit(LEValue(s), LEValue(s[n - 1 := And(s[n - 1], 127)]), LEValue(s[..n - 1]), s[n - 1] as nat, Pow256(n - 1));
  }

  /** The masked number is the untouched low bytes plus the top byte's low seven bits. */
  lemma MaskedLowPart(s: seq<byte>)
    requires |s| > 0
    ensures var n := |s|;
      var m := s[n - 1 := And(s[n - 1], 127)];
      && LEValue(m) == LEValue(s[..n - 1]) + (s[n - 1] as nat % 128) * Pow256(n - 1)
      && LEValue(m) < 128 * Pow256(n - 1)
  {
    var n := |s|;
    var m := s[n - 1 := And(s[n - 1], 127)];
    MaskLow7(s[n - 1]);
    LEValueSplitLast(m);
    assert m[..n - 1] == s[..n - 1];
    TopByteBounds(m, 0, 128);
  }

  lemma TopBitSplit(vs: nat, vm: nat, l: nat, t: nat, p: nat)
    requires t < 256 && vs == l + t * p && vm == l + (t % 128) * p
    ensures t < 128 ==> vs == vm
    ensures t >= 128 ==> vs == vm + 128 * p
  {
    if t >= 128 {
      assert t % 128 == t - 128;
      assert t * p == (t - 128) * p + 128 * p;
    } else {
      assert t % 128 == t;
    }
  }

  /** A clamped X448 scalar is a multiple of 4 with bit 447 set: 2^447 <= k < 2^448. */
  lemma X448ClampedScalar(k: seq<byte>)
    requires |k| == 56
    ensures LEValue(ClampX448(k)) % 4 == 0
    ensures 128 * Pow256(55) <= LEValue(ClampX448(k)) < Pow256(56)
  {
    var r := ClampX448(k);
    assert (r[0] as nat) % 4 == 0 by { AndClearsLowBits(k[0]); }
    LEValueLowBits(r);
    assert 128 <= r[55] as nat < 256 by { SetBit7(k[55]); }
    TopByteBounds(r, 128, 256);
  }

  /** The Ed25519 clamp of RFC 8032 coincides with the X25519 clamp on the scalar half. */
  lemma Ed25519ClampIsX25519Clamp(h: seq<byte>)
    requires |h| == 64
    ensures ClampEd25519(h)[..32] == ClampX25519(h[..32])
    ensures ClampEd25519(h)[32..] == h[32..]
  {
    assert Or(And(h[31], 0x3f), 0x40) == Or(And(h[31], 127), 64) by { SameTopBits(h[31]); }
  }

  lemma SameTopBits(b: byte)
    ensures Or(And(b, 0x3f), 0x40) == Or(And(b, 127), 64)
  {
    var c, d := And(b, 0x3f), And(b, 127);
    MaskLow6(b);
    MaskLow7(b);
    SetBit6(c);
    SetBit6(d);
    ModOfMod(b as nat);
  }

  lemma ModOfMod(x: nat)
    ensures x % 128 % 64 == x % 64 && x % 64 % 64 == x % 64
  {
    var q, r := x / 64, x % 64;
    ModUnique(x % 128, 64, q % 2, r) by {
      ModUnique(x, 128, q / 2, 64 * (q % 2) + r);
    }
    ModUnique(r, 64, 0, r);
  }

  /**
   * The Ed448 clamp of RFC 8032 is the X448 clamp on the first 56 bytes,
   * with the 57th byte and the unused upper half cleared.
   */
  lemma Ed448ClampIsX448Clamp(h: seq<byte>)
    requires |h| == 114
    ensures ClampEd448(h)[..56] == ClampX448(h[..56])
    ensures ClampEd448(h)[56..] == Zeros(58)
  {
  }
}
