/**
 * The derive-public-key entry points: x25519_derive_pub, x448_derive_pub,
 * ed25519_derive_pub and ed448_derive_pub. The Montgomery ones multiply the
 * base u-coordinate by the private scalar; the Edwards ones hash the private
 * key, clamp and flip the scalar half, multiply the base point, and encode
 * the point as its y-coordinate with the parity of x folded into the top
 * bit. The CPACF hash functions s390_sha512 and s390_shake_256 are oracles.
 */
module Derive {
  import opened Wrappers
  import opened Bytes
  import opened Curves
  import opened Status
  import opened Cpacf
  import Clamping

  /** A message digest and the return code of the hash call that made it. */
  datatype DigestOutcome = DigestOutcome(rc: int, digest: seq<byte>)

  /** s390_sha512 over a whole message. */
  type Sha512 = h: seq<byte> -> DigestOutcome | forall m :: |h(m).digest| == 64
    witness (m: seq<byte>) => DigestOutcome(0, Zeros(64))

  /** s390_shake_256 over a whole message, 114 bytes out. */
  type Shake256 = h: seq<byte> -> DigestOutcome | forall m :: |h(m).digest| == 114
    witness (m: seq<byte>) => DigestOutcome(0, Zeros(114))

  /** The X25519 base point u = 9, little-endian. */
  const BaseU25519: seq<byte> := [9] + Zeros(31)

  /** The X448 base point u = 5, little-endian. */
  const BaseU448: seq<byte> := [5] + Zeros(55)

  /** The Ed25519 base point, big-endian. */
  const BaseXEd25519: seq<byte> := [
    0x21, 0x69, 0x36, 0xd3, 0xcd, 0x6e, 0x53, 0xfe,
    0xc0, 0xa4, 0xe2, 0x31, 0xfd, 0xd6, 0xdc, 0x5c,
    0x69, 0x2c, 0xc7, 0x60, 0x95, 0x25, 0xa7, 0xb2,
    0xc9, 0x56, 0x2d, 0x60, 0x8f, 0x25, 0xd5, 0x1a]
  const BaseYEd25519: seq<byte> := [
    0x66, 0x66, 0x66, 0x66, 0x66, 0x66, 0x66, 0x66,
    0x66, 0x66, 0x66, 0x66, 0x66, 0x66, 0x66, 0x66,
    0x66, 0x66, 0x66, 0x66, 0x66, 0x66, 0x66, 0x66,
    0x66, 0x66, 0x66, 0x66, 0x66, 0x66, 0x66, 0x58]

  /** The Ed448 base point, big-endian, 57 bytes. */
  const BaseXEd448: seq<byte> := [
    0x00,
    0x4f, 0x19, 0x70, 0xc6, 0x6b, 0xed, 0x0d, 0xed,
    0x22, 0x1d, 0x15, 0xa6, 0x22, 0xbf, 0x36, 0xda,
    0x9e, 0x14, 0x65, 0x70, 0x47, 0x0f, 0x17, 0x67,
    0xea, 0x6d, 0xe3, 0x24, 0xa3, 0xd3, 0xa4, 0x64,
    0x12, 0xae, 0x1a, 0xf7, 0x2a, 0xb6, 0x65, 0x11,
    0x43, 0x3b, 0x80, 0xe1, 0x8b, 0x00, 0x93, 0x8e,
    0x26, 0x26, 0xa8, 0x2b, 0xc7, 0x0c, 0xc0, 0x5e]
  const BaseYEd448: seq<byte> := [
    0x00,
    0x69, 0x3f, 0x46, 0x71, 0x6e, 0xb6, 0xbc, 0x24,
    0x88, 0x76, 0x20, 0x37, 0x56, 0xc9, 0xc7, 0x62,
    0x4b, 0xea, 0x73, 0x73, 0x6c, 0xa3, 0x98, 0x40,
    0x87, 0x78, 0x9c, 0x1e, 0x05, 0xa0, 0xc2, 0xd7,
    0x3a, 0xd3, 0xff, 0x1c, 0xe6, 0x7c, 0x39, 0xc4,
    0xfd, 0xbd, 0x13, 0x2c, 0x4e, 0xd7, 0xc8, 0xad,
    0x98, 0x08, 0x79, 0x5b, 0xf2, 0x30, 0xfa, 0x14]

  /**
   * The public-key encoding of RFC 8032 (sections 5.1.2 and 5.2.2) in the
   * engine's big-endian byte order: y, with the least significant bit of x
   * in the top bit of y's most significant byte.
   */
  function EncodeEdPoint(x: seq<byte>, y: seq<byte>): (pub: seq<byte>)
    requires |x| > 0 && |y| > 0
    ensures |pub| == |y| && pub[1..] == y[1..]
  {
    y[0 := Or(y[0], ShiftLeft(And(x[|x| - 1], 1), 7))]
  }

  /** The Ed25519 scalar ed25519_derive_pub passes: the clamped first half of the digest, big-endian. */
  function Ed25519Scalar(digest: seq<byte>): (k: seq<byte>)
    requires |digest| == 64
    ensures |k| == 32
  {
    Reverse(Clamping.ClampEd25519(digest)[..32])
  }

  /**
   * The Ed448 scalar ed448_derive_pub passes: the clamped digest's first 57
   * bytes flipped within a 64-byte window, starting 7 bytes in.
   */
  function Ed448Scalar(digest: seq<byte>): (k: seq<byte>)
    requires |digest| == 114
    ensures |k| == 57
  {
    Reverse(Clamping.ClampEd448(digest)[..64])[7..]
  }

  /** x25519_derive_pub: pub = priv * 9 on X25519, through scalar_mulx_cpacf. */
  method X25519DerivePub(param: array<byte>, pcc: Pcc, curve: Curve, priv: seq<byte>)
    returns (rc: int, pub: seq<byte>)
    requires param.Length == ParamBlockSize
    requires Registered(curve) && curve.nid == X25519 && |priv| == 32
    modifies param
    ensures param[..] == Zeros(ParamBlockSize)
    ensures
      var out := pcc(ScalarMultiplyX25519, MulxBlock(ScalarMultiplyX25519, priv, BaseU25519));
      && rc == (if out.failed then EIO else OK)
      && pub == Reverse(out.after[..32])
  {
    var r, res := ScalarMulxCpacf(param, pcc, curve, priv, BaseU25519, true);
    rc, pub := r, res.value;
    assert Reverse(pcc(ScalarMultiplyX25519, MulxBlock(ScalarMultiplyX25519, priv, BaseU25519)).after[..32])[..32]
      == Reverse(pcc(ScalarMultiplyX25519, MulxBlock(ScalarMultiplyX25519, priv, BaseU25519)).after[..32]);
  }

  /** x448_derive_pub: pub = priv * 5 on X448, through scalar_mulx_cpacf. */
  method X448DerivePub(param: array<byte>, pcc: Pcc, curve: Curve, priv: seq<byte>)
    returns (rc: int, pub: seq<byte>)
    requires param.Length == ParamBlockSize
    requires Registered(curve) && curve.nid == X448 && |priv| == 56
    modifies param
    ensures param[..] == Zeros(ParamBlockSize)
    ensures
      var out := pcc(ScalarMultiplyX448, MulxBlock(ScalarMultiplyX448, priv, BaseU448));
      && rc == (if out.failed then EIO else OK)
      && pub == Reverse(out.after[..64])[..56]
  {
    var r, res := ScalarMulxCpacf(param, pcc, curve, priv, BaseU448, true);
    rc, pub := r, res.value;
  }

  /**
   * ed25519_derive_pub. A failing hash returns its code and leaves pub
   * untouched. A failing scalar multiplication returns EIO, and pub then
   * holds the raw y-coordinate scalar_mul_cpacf wrote into it. On success
   * pub is the encoded point.
   */
  method Ed25519DerivePub(param: array<byte>, pcc: Pcc, sha512: Sha512, curve: Curve, priv: seq<byte>)
    returns (rc: int, pub: Option<seq<byte>>)
    requires param.Length == ParamBlockSize
    requires Registered(curve) && curve.nid == Ed25519 && |priv| == 32
    modifies param
    ensures sha512(priv).rc != 0 ==> rc == sha512(priv).rc && pub == None && unchanged(param)
    ensures sha512(priv).rc == 0 ==>
      var out := pcc(ScalarMultiplyEd25519, Ed25519Block(sha512(priv).digest));
      && param[..] == Zeros(ParamBlockSize)
      && (out.failed ==> rc == EIO && pub == Some(out.after[32..64]))
      && (!out.failed ==> rc == OK && pub == Some(EncodeEdPoint(out.after[..32], out.after[32..64])))
  {
    var h := sha512(priv);
    if h.rc != 0 {
      return h.rc, None;
    }
    rc, pub := Ed25519PubFromDigest(param, pcc, curve, h.digest);
  }

  /** The block ed25519_derive_pub hands to the instruction: the base point and the scalar, each in a full 32-byte field. */
  function Ed25519Block(digest: seq<byte>): (block: ParamBytes)
    requires |digest| == 64
    ensures block == Zeros(64) + BaseXEd25519 + BaseYEd25519 + Ed25519Scalar(digest) + Zeros(ParamBlockSize - 160)
  {
    var k := Ed25519Scalar(digest);
    assert RightAlign(k, 32) == k && RightAlign(BaseXEd25519, 32) == BaseXEd25519
      && RightAlign(BaseYEd25519, 32) == BaseYEd25519;
    ScalarMulBlock(ScalarMultiplyEd25519, k, BaseXEd25519, BaseYEd25519)
  }

  /** ed25519_derive_pub from the clamp on. */
  method Ed25519PubFromDigest(param: array<byte>, pcc: Pcc, curve: Curve, digest: seq<byte>)
    returns (rc: int, pub: Option<seq<byte>>)
    requires param.Length == ParamBlockSize
    requires Registered(curve) && curve.nid == Ed25519 && |digest| == 64
    modifies param
    ensures
      var out := pcc(ScalarMultiplyEd25519, Ed25519Block(digest));
      && param[..] == Zeros(ParamBlockSize)
      && (out.failed ==> rc == EIO && pub == Some(out.after[32..64]))
      && (!out.failed ==> rc == OK && pub == Some(EncodeEdPoint(out.after[..32], out.after[32..64])))
  {
    var buf := Clamping.ClampEd25519(digest);
    var k := Reverse(buf[..32]);
    var r, resX, resY := ScalarMulCpacf(param, pcc, curve, k, BaseXEd25519, BaseYEd25519, true, true);
    if r != 0 {
      return r, resY;
    }
    var x := Reverse(resX.value);
    var y := Reverse(resY.value);
    y := y[31 := Or(y[31], ShiftLeft(And(x[0], 0x01), 7))];
    FoldParity(resX.value, resY.value);
    rc, pub := OK, Some(Reverse(y));
  }

  /**
   * ed448_derive_pub. The results land in 64-byte local buffers at offset
   * 7, so a failing scalar multiplication leaves pub untouched, unlike
   * ed25519_derive_pub.
   */
  method Ed448DerivePub(param: array<byte>, pcc: Pcc, shake: Shake256, curve: Curve, priv: seq<byte>)
    returns (rc: int, pub: Option<seq<byte>>)
    requires param.Length == ParamBlockSize
    requires Registered(curve) && curve.nid == Ed448 && |priv| == 57
    modifies param
    ensures shake(priv).rc != 0 ==> rc == shake(priv).rc && pub == None && unchanged(param)
    ensures shake(priv).rc == 0 ==>
      var out := pcc(ScalarMultiplyEd448, Ed448Block(shake(priv).digest));
      && param[..] == Zeros(ParamBlockSize)
      && (out.failed ==> rc == EIO && pub == None)
      && (!out.failed ==> rc == OK && pub == Some(EncodeEdPoint(out.after[7..64], out.after[71..128])))
  {
    var h := shake(priv);
    if h.rc != 0 {
      return h.rc, None;
    }
    rc, pub := Ed448PubFromDigest(param, pcc, curve, h.digest);
  }

  /**
   * The block ed448_derive_pub hands to the instruction: the 57-byte base
   * point and scalar, each right-aligned in a 64-byte field.
   */
  function Ed448Block(digest: seq<byte>): (block: ParamBytes)
    requires |digest| == 114
    ensures block == Zeros(135) + BaseXEd448 + Zeros(7) + BaseYEd448 + Zeros(7) + Ed448Scalar(digest)
                     + Zeros(ParamBlockSize - 320)
  {
    ZerosSplit(128, 7);
    Regroup(Zeros(128), Zeros(7), BaseXEd448, Zeros(7), BaseYEd448, Zeros(7), Ed448Scalar(digest),
      Zeros(ParamBlockSize - 320));
    ScalarMulBlock(ScalarMultiplyEd448, Ed448Scalar(digest), BaseXEd448, BaseYEd448)
  }

  /** ed448_derive_pub from the clamp on. */
  method Ed448PubFromDigest(param: array<byte>, pcc: Pcc, curve: Curve, digest: seq<byte>)
    returns (rc: int, pub: Option<seq<byte>>)
    requires param.Length == ParamBlockSize
    requires Registered(curve) && curve.nid == Ed448 && |digest| == 114
    modifies param
    ensures
      var out := pcc(ScalarMultiplyEd448, Ed448Block(digest));
      && param[..] == Zeros(ParamBlockSize)
      && (out.failed ==> rc == EIO && pub == None)
      && (!out.failed ==> rc == OK && pub == Some(EncodeEdPoint(out.after[7..64], out.after[71..128])))
  {
    var buf := Clamping.ClampEd448(digest);
    var flipped := Reverse(buf[..64]) + buf[64..];
    var k := flipped[7..64];
    assert k == Ed448Scalar(digest);
    var r, resX, resY := ScalarMulCpacf(param, pcc, curve, k, BaseXEd448, BaseYEd448, true, true);
    ghost var out := pcc(ScalarMultiplyEd448, Ed448Block(digest));
    assert resX == Some(out.after[7..64]) && resY == Some(out.after[71..128]);
    if r != 0 {
      return r, None;
    }
    var resX64 := Zeros(7) + resX.value;
    var pub64 := Zeros(7) + resY.value;
    var x := Reverse(resX64);
    var y := Reverse(pub64);
    y := y[56 := Or(y[56], ShiftLeft(And(x[0], 0x01), 7))];
    pub64 := Reverse(y);
    FoldParityPadded(resX.value, resY.value);
    assert pub64[7..] == EncodeEdPoint(out.after[7..64], out.after[71..128]);
    rc, pub := OK, Some(pub64[7..]);
  }

  /**
   * Flip to little-endian, set bit 7 of the last byte of y from bit 0 of
   * the first byte of x, flip back: the result is EncodeEdPoint.
   */
  lemma FoldParity(x: seq<byte>, y: seq<byte>)
    requires |x| > 0 && |y| > 0
    ensures
      var n := |y|;
      var xl, yl := Reverse(x), Reverse(y);
      Reverse(yl[n - 1 := Or(yl[n - 1], ShiftLeft(And(xl[0], 0x01), 7))]) == EncodeEdPoint(x, y)
  {
  }

  /** The same fold on the 64-byte buffers of ed448_derive_pub, read back from offset 7. */
  lemma FoldParityPadded(x: seq<byte>, y: seq<byte>)
    requires |x| == 57 && |y| == 57
    ensures
      var xl, yl := Reverse(Zeros(7) + x), Reverse(Zeros(7) + y);
      Reverse(yl[56 := Or(yl[56], ShiftLeft(And(xl[0], 0x01), 7))])[7..] == EncodeEdPoint(x, y)
  {
  }

  // ---------------------------------------------------------------------
  // What the derivations compute
  // ---------------------------------------------------------------------

  /**
   * The Ed25519 scalar is the digest's first half clamped as in section
   * 5.1.5 of RFC 8032, which is the X25519 clamp, read as a big-endian
   * number.
   */
  lemma Ed25519ScalarValue(digest: seq<byte>)
    requires |digest| == 64
    ensures BEValue(Ed25519Scalar(digest)) == LEValue(Clamping.ClampX25519(digest[..32]))
    ensures BEValue(Ed25519Scalar(digest)) % 8 == 0
    ensures 64 * Pow256(31) <= BEValue(Ed25519Scalar(digest)) < 128 * Pow256(31)
  {
    Clamping.Ed25519ClampIsX25519Clamp(digest);
    ReverseSwapsEndianness(Clamping.ClampX25519(digest[..32]));
    Clamping.X25519ClampedScalar(digest[..32]);
  }

  /**
   * The Ed448 scalar is the digest's first 57 bytes clamped as in section
   * 5.2.5 of RFC 8032 (byte 56 cleared, so the X448 clamp of the first 56),
   * read as a big-endian number.
   */
  lemma Ed448ScalarValue(digest: seq<byte>)
    requires |digest| == 114
    ensures BEValue(Ed448Scalar(digest)) == LEValue(Clamping.ClampX448(digest[..56]))
    ensures BEValue(Ed448Scalar(digest)) % 4 == 0
    ensures 128 * Pow256(55) <= BEValue(Ed448Scalar(digest)) < Pow256(56)
  {
    var c := Clamping.ClampEd448(digest);
    var v := Clamping.ClampX448(digest[..56]);
    Clamping.Ed448ClampIsX448Clamp(digest);
    assert c[..64] == v + Zeros(8) by {
      assert c[..64] == c[..56] + c[56..][..8];
    }
    ReverseOfZeroExtended(v, 8);
    assert Reverse(c[..64])[7..] == Zeros(1) + Reverse(v);
    PaddingKeepsBEValue(Reverse(v), 1);
    ReverseSwapsEndianness(v);
    Clamping.X448ClampedScalar(digest[..56]);
  }

  /** Or-ing a parity bit into bit 7 of a byte whose bit 7 is clear adds 128 times the parity. */
  lemma SetTopBit(a: byte, b: byte)
    requires a < 128
    ensures Or(a, ShiftLeft(And(b, 1), 7)) as nat == a as nat + 128 * (b as nat % 2)
    ensures And(Or(a, ShiftLeft(And(b, 1), 7)), 0x7f) == a
    ensures Or(a, ShiftLeft(And(b, 1), 7)) / 128 == And(b, 1)
  {
    var p := And(b, 1);
    var t := ShiftLeft(p, 7);
    ParityToTopBit(b);
    OrTopBit(a, t);
    TopBitSplit(Or(a, t), a, p);
  }

  /** Or-ing 0 or 128 into a byte below 128 adds it. */
  lemma OrTopBit(a: byte, t: byte)
    requires a < 128 && (t == 0 || t == 128)
    ensures Or(a, t) as nat == a as nat + t as nat
  {
    if t == 0 {
      OrZero(a);
      assert Or(a, t) == a;
    } else {
      SetBit7Below(a);
    }
  }

  /** A byte that is a + 128 * p, for a below 128 and a bit p, has low seven bits a and top bit p. */
  lemma TopBitSplit(o: byte, a: byte, p: byte)
    requires a < 128 && p < 2 && o as nat == a as nat + 128 * p as nat
    ensures And(o, 0x7f) == a && o / 128 == p
  {
    MaskLow7(o);
  }

  /** (b & 1) << 7 is 128 times the parity of b. */
  lemma ParityToTopBit(b: byte)
    ensures And(b, 1) as nat == b as nat % 2
    ensures ShiftLeft(And(b, 1), 7) as nat == 128 * (b as nat % 2)
  {
    MaskLow1(b);
    assert Pow2(7) == 128;
  }

  /** The parity of a big-endian number is the parity of its last byte. */
  lemma BEValueParity(s: seq<byte>)
    requires |s| > 0
    ensures BEValue(s) % 2 == s[|s| - 1] as nat % 2
  {
    var k := BEValue(s[..|s| - 1]);
    assert k * 256 == 2 * (k * 128);
  }

  /**
   * EncodeEdPoint is the point encoding of RFC 8032 (sections 5.1.2 and
   * 5.2.2) with its bytes reversed: read big-endian, on a y-coordinate
   * whose top bit is clear it adds the parity of x times the top bit's
   * weight.
   */
  lemma EncodeEdPointValue(x: seq<byte>, y: seq<byte>)
    requires |x| > 0 && |y| > 0 && y[0] < 128
    ensures BEValue(EncodeEdPoint(x, y)) == BEValue(y) + BEValue(x) % 2 * (128 * Pow256(|y| - 1))
  {
    var e := EncodeEdPoint(x, y);
    BEValueHead(e);
    BEValueHead(y);
    assert e[1..] == y[1..];
    SetTopBit(y[0], x[|x| - 1]);
    BEValueParity(x);
    AddTopDigit(BEValue(e), BEValue(y), e[0] as nat, y[0] as nat, BEValue(x) % 2, Pow256(|y| - 1), BEValue(y[1..]));
  }

  lemma AddTopDigit(ve: nat, vy: nat, e0: nat, y0: nat, b: nat, p: nat, t: nat)
    requires ve == e0 * p + t && vy == y0 * p + t && e0 == y0 + 128 * b
    ensures ve == vy + b * (128 * p)
  {
    assert e0 * p == y0 * p + b * (128 * p);
  }

  /** The encoding loses nothing: the top bit gives back the parity of x and clearing it gives back y. */
  lemma EncodeEdPointDecodes(x: seq<byte>, y: seq<byte>)
    requires |x| > 0 && |y| > 0 && y[0] < 128
    ensures var e := EncodeEdPoint(x, y);
      && e[0 := And(e[0], 0x7f)] == y
      && e[0] / 128 == And(x[|x| - 1], 1)
  {
    SetTopBit(y[0], x[|x| - 1]);
  }

  /** The base points of x25519_derive_pub and x448_derive_pub are u = 9 and u = 5, and the X25519 mask keeps 9. */
  lemma MontgomeryBasePoints()
    ensures LEValue(BaseU25519) == 9 && LEValue(BaseU448) == 5
    ensures Clamping.MaskU25519(BaseU25519) == BaseU25519
  {
    ZerosHaveNoLEValue(31);
    ZerosHaveNoLEValue(55);
    assert BaseU25519[1..] == Zeros(31) && BaseU448[1..] == Zeros(55);
  }

  lemma {:induction false} ZerosHaveNoLEValue(n: nat)
    ensures LEValue(Zeros(n)) == 0
  {
    if n > 0 {
      assert Zeros(n)[1..] == Zeros(n - 1);
      ZerosHaveNoLEValue(n - 1);
    }
  }
}
