/**
 * The CPU tier: scalar_mul_cpacf, scalar_mulx_cpacf, ecdsa_verify_cpacf and
 * ecdsa_sign_cpacf. Each lays its operands out in a 4096-byte parameter
 * block (a union of per-curve structs over a `long long buff[512]`), runs
 * one instruction on it, reads the results back and wipes what was secret.
 *
 * The block is the array `param`, which the caller provides: the source
 * keeps it on the stack, and making it visible lets the contracts say what
 * is left in it on return. The PCC and KDSA instructions are oracles: a
 * function from the function code and the block to the instruction's
 * completion and the block as the instruction leaves it.
 */
module Cpacf {
  import opened Wrappers
  import opened Bytes
  import opened Curves
  import opened Status
  import Clamping

  /** sizeof(param): the 4k buffer of parameters plus the reserved area. */
  const ParamBlockSize := 4096

  type ParamBytes = s: seq<byte> | |s| == ParamBlockSize witness Zeros(4096)

  // ---------------------------------------------------------------------
  // PERFORM CRYPTOGRAPHIC COMPUTATION (scalar multiply)
  // ---------------------------------------------------------------------

  /** The PCC function codes of s390_pcc_functions that the engine uses. */
  datatype PccFunction =
    | ScalarMultiplyP256
    | ScalarMultiplyP384
    | ScalarMultiplyP521
    | ScalarMultiplyEd25519
    | ScalarMultiplyEd448
    | ScalarMultiplyX25519
    | ScalarMultiplyX448

  /** What s390_pcc reports (a non-zero condition) and the block it leaves. */
  datatype PccOutcome = PccOutcome(failed: bool, after: ParamBytes)

  type Pcc = (PccFunction, ParamBytes) -> PccOutcome

  /** The width of every field of the function's parameter struct. */
  function PccField(f: PccFunction): (size: nat)
    ensures 32 <= size <= 80
  {
    match f
    case ScalarMultiplyP256 => 32
    case ScalarMultiplyP384 => 48
    case ScalarMultiplyP521 => 80
    case ScalarMultiplyEd25519 => 32
    case ScalarMultiplyEd448 => 64
    case ScalarMultiplyX25519 => 32
    case ScalarMultiplyX448 => 64
  }

  /** The switch of scalar_mul_cpacf: Weierstrass and Edwards curves. */
  function ScalarMulFunction(nid: Nid): Option<PccFunction>
  {
    match nid
    case Prime256v1 => Some(ScalarMultiplyP256)
    case Secp384r1 => Some(ScalarMultiplyP384)
    case Secp521r1 => Some(ScalarMultiplyP521)
    case Ed25519 => Some(ScalarMultiplyEd25519)
    case Ed448 => Some(ScalarMultiplyEd448)
    case _ => None
  }

  /** The switch of scalar_mulx_cpacf: the Montgomery curves. */
  function MulxFunction(nid: Nid): Option<PccFunction>
  {
    match nid
    case X25519 => Some(ScalarMultiplyX25519)
    case X448 => Some(ScalarMultiplyX448)
    case _ => None
  }

  /**
   * The block scalar_mul_cpacf hands to the instruction: res_x and res_y
   * zero, then x, y and the scalar, each right-aligned in its field.
   */
  function ScalarMulBlock(f: PccFunction, scalar: seq<byte>, x: seq<byte>, y: seq<byte>): ParamBytes
    requires |scalar| <= PccField(f) && |x| <= PccField(f) && |y| <= PccField(f)
  {
    var s := PccField(f);
    Zeros(2 * s) + RightAlign(x, s) + RightAlign(y, s) + RightAlign(scalar, s)
      + Zeros(ParamBlockSize - 5 * s)
  }

  /**
   * The three memcpy calls of scalar_mul_cpacf on block b with fields of
   * s bytes: x, y and the scalar, each to the end of fields 2, 3 and 4.
   */
  function ScalarMulCopies(b: seq<byte>, s: nat, scalar: seq<byte>, x: seq<byte>, y: seq<byte>): seq<byte>
    requires 5 * s <= |b| && |scalar| <= s && |x| <= s && |y| <= s
  {
    Overwrite(Overwrite(Overwrite(b, 3 * s - |x|, x), 4 * s - |y|, y), 5 * s - |scalar|, scalar)
  }

  method CopyScalarMulOperands(param: array<byte>, s: nat, scalar: seq<byte>, x: seq<byte>, y: seq<byte>)
    requires 5 * s <= param.Length && |scalar| <= s && |x| <= s && |y| <= s
    modifies param
    ensures param[..] == ScalarMulCopies(old(param[..]), s, scalar, x, y)
  {
    CopyThree(param, 3 * s - |x|, x, 4 * s - |y|, y, 5 * s - |scalar|, scalar);
  }

  /** Copying the operands one by one into the cleared block builds ScalarMulBlock. */
  lemma ScalarMulLayout(f: PccFunction, scalar: seq<byte>, x: seq<byte>, y: seq<byte>)
    requires |scalar| <= PccField(f) && |x| <= PccField(f) && |y| <= PccField(f)
    ensures ScalarMulCopies(Zeros(ParamBlockSize), PccField(f), scalar, x, y) == ScalarMulBlock(f, scalar, x, y)
  {
    ScalarMulFields(PccField(f), ParamBlockSize, scalar, x, y);
  }

  /** The three copies into a cleared block of n bytes with s-byte fields. */
  lemma ScalarMulFields(s: nat, n: nat, scalar: seq<byte>, x: seq<byte>, y: seq<byte>)
    requires 5 * s <= n && |scalar| <= s && |x| <= s && |y| <= s
    ensures ScalarMulCopies(Zeros(n), s, scalar, x, y)
      == Zeros(2 * s) + RightAlign(x, s) + RightAlign(y, s) + RightAlign(scalar, s) + Zeros(n - 5 * s)
  {
    var withX := Zeros(2 * s) + RightAlign(x, s);
    var withY := withX + RightAlign(y, s);
    var b1 := Overwrite(Zeros(n), 3 * s - |x|, x);
    assert b1 == withX + Zeros(n - 3 * s) by {
      ZerosSplit(2 * s, n - 2 * s);
      PlaceField(Zeros(2 * s), x, s, n - 2 * s);
    }
    var b2 := Overwrite(b1, 4 * s - |y|, y);
    assert b2 == withY + Zeros(n - 4 * s) by {
      PlaceField(withX, y, s, n - 3 * s);
    }
    PlaceField(withY, scalar, s, n - 4 * s);
  }

  /** memset or OPENSSL_cleanse of the whole block. */
  method Cleanse(param: array<byte>)
    requires param.Length == ParamBlockSize
    modifies param
    ensures param[..] == Zeros(ParamBlockSize)
  {
    Wipe(param, 0, ParamBlockSize);
    assert param[..] == Zeros(ParamBlockSize);
  }

  /**
   * scalar_mul_cpacf: res = scalar * (x, y) on the curve. Unsupported curves
   * give EINVAL (which sends the caller to the next tier); a failing
   * instruction gives EIO, yet the result fields are copied out all the
   * same. The whole block is cleansed on every path.
   */
  method ScalarMulCpacf(param: array<byte>, pcc: Pcc, curve: Curve,
                        scalar: seq<byte>, x: seq<byte>, y: seq<byte>,
                        wantX: bool, wantY: bool)
    returns (rc: int, resX: Option<seq<byte>>, resY: Option<seq<byte>>)
    requires param.Length == ParamBlockSize
    requires Registered(curve)
    requires ScalarMulFunction(curve.nid).Some? ==>
      |scalar| == curve.privlen && |x| == curve.privlen && |y| == curve.privlen
    modifies param
    ensures param[..] == Zeros(ParamBlockSize)
    ensures ScalarMulFunction(curve.nid).None? ==> rc == EINVAL && resX == None && resY == None
    ensures ScalarMulFunction(curve.nid).Some? ==>
      var f := ScalarMulFunction(curve.nid).value;
      var s := PccField(f);
      var out := pcc(f, ScalarMulBlock(f, scalar, x, y));
      && rc == (if out.failed then EIO else OK)
      && resX == (if wantX then Some(out.after[s - |x| .. s]) else None)
      && resY == (if wantY then Some(out.after[2 * s - |x| .. 2 * s]) else None)
  {
    Cleanse(param);
    var fn := ScalarMulFunction(curve.nid);
    if fn.None? {
      rc, resX, resY := EINVAL, None, None;
    } else {
      var f := fn.value;
      var s := PccField(f);
      var len := curve.privlen;
      var off := s - len;
      CopyScalarMulOperands(param, s, scalar, x, y);
      ScalarMulLayout(f, scalar, x, y);
      var out := pcc(f, param[..]);
      rc := if out.failed then EIO else OK;
      SetBlock(param, out.after);
      resX := if wantX then Some(param[off .. s]) else None;
      resY := if wantY then Some(param[s + off .. 2 * s]) else None;
    }
    Cleanse(param);
  }

  /** The instruction sees x, y and the scalar with their values unchanged; the result fields start clear. */
  lemma ScalarMulOperands(f: PccFunction, scalar: seq<byte>, x: seq<byte>, y: seq<byte>)
    requires |scalar| == |x| == |y| <= PccField(f)
    ensures
      var s := PccField(f);
      var b := ScalarMulBlock(f, scalar, x, y);
      && b[..2 * s] == Zeros(2 * s) && b[5 * s..] == Zeros(ParamBlockSize - 5 * s)
      && BEValue(b[2 * s .. 3 * s]) == BEValue(x)
      && BEValue(b[3 * s .. 4 * s]) == BEValue(y)
      && BEValue(b[4 * s .. 5 * s]) == BEValue(scalar)
  {
    var s := PccField(f);
    var ax, ay, ak := RightAlign(x, s), RightAlign(y, s), RightAlign(scalar, s);
    var b := ScalarMulBlock(f, scalar, x, y);
    assert b == Zeros(2 * s) + ax + ay + ak + Zeros(ParamBlockSize - 5 * s);
    FiveParts(Zeros(2 * s), ax, ay, ak, Zeros(ParamBlockSize - 5 * s), 2 * s, 3 * s, 4 * s, 5 * s);
    RightAlignValue(x, s);
    RightAlignValue(y, s);
    RightAlignValue(scalar, s);
  }

  // ---------------------------------------------------------------------
  // Montgomery curves: little-endian operands, clamped, flipped
  // ---------------------------------------------------------------------

  /** The u-coordinate as scalar_mulx_cpacf prepares it: top bit masked for X25519 only. */
  function PreparedU(f: PccFunction, u: seq<byte>): (r: seq<byte>)
    requires f == ScalarMultiplyX25519 ==> |u| == 32
    ensures |r| == |u|
  {
    if f == ScalarMultiplyX25519 then Clamping.MaskU25519(u) else u
  }

  /** The scalar as scalar_mulx_cpacf prepares it: the curve's clamp. */
  function PreparedScalar(f: PccFunction, k: seq<byte>): (r: seq<byte>)
    requires f == ScalarMultiplyX25519 ==> |k| == 32
    requires f == ScalarMultiplyX448 ==> |k| == 56
    ensures |r| == |k|
  {
    if f == ScalarMultiplyX25519 then Clamping.ClampX25519(k)
    else if f == ScalarMultiplyX448 then Clamping.ClampX448(k)
    else k
  }

  predicate MulxOperandsFit(f: PccFunction, scalar: seq<byte>, u: seq<byte>)
  {
    && (f == ScalarMultiplyX25519 ==> |scalar| == 32 && |u| == 32)
    && (f == ScalarMultiplyX448 ==> |scalar| == 56 && |u| == 56)
    && |scalar| == |u| <= PccField(f)
  }

  /**
   * The block scalar_mulx_cpacf hands to the instruction: res_u clear, then
   * the prepared u and scalar, each zero-extended to the field width and
   * flipped to big-endian.
   */
  function MulxBlock(f: PccFunction, scalar: seq<byte>, u: seq<byte>): ParamBytes
    requires MulxOperandsFit(f, scalar, u)
  {
    FlippedBlock(PccField(f), PreparedU(f, u), PreparedScalar(f, scalar), ParamBlockSize)
  }

  /**
   * A block of n bytes with s-byte fields: the first clear, then pu and pk
   * zero-extended and flipped, then zeros.
   */
  function FlippedBlock(s: nat, pu: seq<byte>, pk: seq<byte>, n: nat): seq<byte>
    requires |pu| == |pk| <= s && 3 * s <= n
  {
    Zeros(s) + Reverse(pu + Zeros(s - |pu|)) + Reverse(pk + Zeros(s - |pk|)) + Zeros(n - 3 * s)
  }

  /**
   * scalar_mulx_cpacf: res_u = scalar * u on X25519 or X448, little-endian
   * in and out. Other curves give EINVAL. The block is cleansed on every
   * path; on a failing instruction (EIO) the flipped res_u is copied out
   * regardless.
   */
  method ScalarMulxCpacf(param: array<byte>, pcc: Pcc, curve: Curve,
                         scalar: seq<byte>, u: seq<byte>, wantU: bool)
    returns (rc: int, resU: Option<seq<byte>>)
    requires param.Length == ParamBlockSize
    requires Registered(curve)
    requires MulxFunction(curve.nid).Some? ==> |scalar| == curve.privlen && |u| == curve.privlen
    modifies param
    ensures param[..] == Zeros(ParamBlockSize)
    ensures MulxFunction(curve.nid).None? ==> rc == EINVAL && resU == None
    ensures MulxFunction(curve.nid).Some? ==>
      var f := MulxFunction(curve.nid).value;
      var s := PccField(f);
      MulxOperandsFit(f, scalar, u) &&
      var out := pcc(f, MulxBlock(f, scalar, u));
      && rc == (if out.failed then EIO else OK)
      && resU == (if wantU then Some(Reverse(out.after[..s])[..|u|]) else None)
  {
    Cleanse(param);
    var fn := MulxFunction(curve.nid);
    if fn.None? {
      rc, resU := EINVAL, None;
    } else {
      var f := fn.value;
      var s := PccField(f);
      var len := curve.privlen;
      PrepareMulxBlock(param, f, scalar, u);
      var out := pcc(f, param[..]);
      rc := if out.failed then EIO else OK;
      OverwriteWhole(param[..], out.after);
      CopyInto(param, 0, out.after);
      assert param[..] == out.after;
      FlipEndian(param, 0, s);
      assert param[..s] == Reverse(out.after[..s]);
      assert param[..len] == param[..s][..len];
      resU := if wantU then Some(param[..len]) else None;
    }
    Cleanse(param);
  }

  /**
   * The preparation steps of scalar_mulx_cpacf on the cleared block: copy u
   * and the scalar little-endian, clamp, flip both fields to big-endian.
   */
  method PrepareMulxBlock(param: array<byte>, f: PccFunction, scalar: seq<byte>, u: seq<byte>)
    requires param.Length == ParamBlockSize && param[..] == Zeros(ParamBlockSize)
    requires f == ScalarMultiplyX25519 || f == ScalarMultiplyX448
    requires MulxOperandsFit(f, scalar, u)
    modifies param
    ensures param[..] == MulxBlock(f, scalar, u)
  {
    var s := PccField(f);
    CopyInto(param, s, u);
    CopyInto(param, 2 * s, scalar);
    MulxLayout(f, scalar, u);
    if f == ScalarMultiplyX25519 {
      ClampX25519InPlace(param, scalar, u);
    } else {
      ClampX448InPlace(param, scalar, u);
    }
    FlipFields(param, s, PreparedU(f, u) + Zeros(s - |u|),
               PreparedScalar(f, scalar) + Zeros(s - |u|));
  }

  /** s390_flip_endian_32/64 on the u and scalar fields. */
  method FlipFields(param: array<byte>, s: nat, pu: seq<byte>, pk: seq<byte>)
    requires |pu| == s && |pk| == s && 3 * s <= param.Length
    requires param[..] == Zeros(s) + pu + pk + Zeros(param.Length - 3 * s)
    modifies param
    ensures param[..] == Zeros(s) + Reverse(pu) + Reverse(pk) + Zeros(param.Length - 3 * s)
  {
    ghost var rest := Zeros(param.Length - 3 * s);
    ghost var front := Zeros(s);
    assert param[..] == front + pu + (pk + rest);
    FieldOf(front, pu, pk + rest);
    FlipEndian(param, s, s);
    front := front + Reverse(pu);
    assert param[..] == front + pk + rest;
    FieldOf(front, pk, rest);
    FlipEndian(param, 2 * s, s);
  }

  /** The X25519 clamp and u mask of scalar_mulx_cpacf, on the block. */
  method ClampX25519InPlace(param: array<byte>, scalar: seq<byte>, u: seq<byte>)
    requires param.Length == ParamBlockSize && |scalar| == 32 && |u| == 32
    requires param[..] == Zeros(32) + (u + Zeros(0)) + (scalar + Zeros(0)) + Zeros(ParamBlockSize - 96)
    modifies param
    ensures param[..] == Zeros(32) + (Clamping.MaskU25519(u) + Zeros(0))
      + (Clamping.ClampX25519(scalar) + Zeros(0)) + Zeros(ParamBlockSize - 96)
  {
    ghost var t := param[..];
    assert param[63] == u[31] && param[64] == scalar[0] && param[95] == scalar[31];
    param[63] := And(param[63], 0x7f);
    param[64] := And(param[64], 248);
    param[95] := Or(And(param[95], 127), 64);
    assert param[..] == t[63 := And(u[31], 0x7f)][64 := And(scalar[0], 248)][95 := Or(And(scalar[31], 127), 64)];
    ClampX25519Block(scalar, u);
  }

  lemma ClampX25519Block(scalar: seq<byte>, u: seq<byte>)
    requires |scalar| == 32 && |u| == 32
    ensures
      var rest := Zeros(ParamBlockSize - 96);
      (Zeros(32) + (u + Zeros(0)) + (scalar + Zeros(0)) + rest)
        [63 := And(u[31], 0x7f)][64 := And(scalar[0], 248)][95 := Or(And(scalar[31], 127), 64)]
      == Zeros(32) + (Clamping.MaskU25519(u) + Zeros(0)) + (Clamping.ClampX25519(scalar) + Zeros(0)) + rest
  {
    var rest := Zeros(ParamBlockSize - 96);
    var pu, pk := u + Zeros(0), scalar + Zeros(0);
    UpdateMiddle(Zeros(32), pu, pk + rest, 31, And(u[31], 0x7f));
    assert Zeros(32) + pu + (pk + rest) == Zeros(32) + pu + pk + rest;
    var pu' := pu[31 := And(u[31], 0x7f)];
    assert pu' == Clamping.MaskU25519(u) + Zeros(0);
    UpdateMiddle(Zeros(32) + pu', pk, rest, 0, And(scalar[0], 248));
    var pk' := pk[0 := And(scalar[0], 248)];
    UpdateMiddle(Zeros(32) + pu', pk', rest, 31, Or(And(scalar[31], 127), 64));
    assert pk'[31 := Or(And(scalar[31], 127), 64)] == Clamping.ClampX25519(scalar) + Zeros(0);
  }

  /** The X448 clamp of scalar_mulx_cpacf, on the block. */
  method ClampX448InPlace(param: array<byte>, scalar: seq<byte>, u: seq<byte>)
    requires param.Length == ParamBlockSize && |scalar| == 56 && |u| == 56
    requires param[..] == Zeros(64) + (u + Zeros(8)) + (scalar + Zeros(8)) + Zeros(ParamBlockSize - 192)
    modifies param
    ensures param[..] == Zeros(64) + (u + Zeros(8))
      + (Clamping.ClampX448(scalar) + Zeros(8)) + Zeros(ParamBlockSize - 192)
  {
    ghost var t := param[..];
    assert param[128] == scalar[0] && param[183] == scalar[55];
    param[128] := And(param[128], 252);
    param[183] := Or(param[183], 128);
    assert param[..] == t[128 := And(scalar[0], 252)][183 := Or(scalar[55], 128)];
    ClampX448Block(scalar, u);
  }

  lemma ClampX448Block(scalar: seq<byte>, u: seq<byte>)
    requires |scalar| == 56 && |u| == 56
    ensures
      var front, rest := Zeros(64) + (u + Zeros(8)), Zeros(ParamBlockSize - 192);
      (front + (scalar + Zeros(8)) + rest)[128 := And(scalar[0], 252)][183 := Or(scalar[55], 128)]
      == front + (Clamping.ClampX448(scalar) + Zeros(8)) + rest
  {
    var front, rest := Zeros(64) + (u + Zeros(8)), Zeros(ParamBlockSize - 192);
    var pk := scalar + Zeros(8);
    UpdateMiddle(front, pk, rest, 0, And(scalar[0], 252));
    var pk' := pk[0 := And(scalar[0], 252)];
    UpdateMiddle(front, pk', rest, 55, Or(scalar[55], 128));
    assert pk'[55 := Or(scalar[55], 128)] == Clamping.ClampX448(scalar) + Zeros(8);
  }

  /** The two memcpy calls of scalar_mulx_cpacf into the cleared block. */
  lemma MulxLayout(f: PccFunction, scalar: seq<byte>, u: seq<byte>)
    requires MulxOperandsFit(f, scalar, u)
    ensures
      var s := PccField(f);
      Overwrite(Overwrite(Zeros(ParamBlockSize), s, u), 2 * s, scalar)
        == Zeros(s) + (u + Zeros(s - |u|)) + (scalar + Zeros(s - |u|)) + Zeros(ParamBlockSize - 3 * s)
  {
    var s := PccField(f);
    ZerosSplit(s, ParamBlockSize - s);
    PlaceFieldLeft(Zeros(s), u, s, ParamBlockSize - s);
    PlaceFieldLeft(Zeros(s) + (u + Zeros(s - |u|)), scalar, s, ParamBlockSize - 2 * s);
  }

  /**
   * The instruction sees the prepared u and scalar as big-endian integers
   * of the values their little-endian bytes denote; for X25519 and X448
   * these are the decoded u-coordinate and the clamped scalar of section 5
   * of RFC 7748.
   */
  lemma MulxOperands(f: PccFunction, scalar: seq<byte>, u: seq<byte>)
    requires MulxOperandsFit(f, scalar, u)
    ensures
      var s := PccField(f);
      var b := MulxBlock(f, scalar, u);
      && b[..s] == Zeros(s) && b[3 * s..] == Zeros(ParamBlockSize - 3 * s)
      && BEValue(b[s .. 2 * s]) == LEValue(PreparedU(f, u))
      && BEValue(b[2 * s .. 3 * s]) == LEValue(PreparedScalar(f, scalar))
  {
    FlippedFields(PccField(f), PreparedU(f, u), PreparedScalar(f, scalar), ParamBlockSize);
  }

  /**
   * The values MulxOperands names, for X25519 and X448: the clamped scalar
   * is a multiple of the cofactor with its top bit set, and the masked
   * X25519 u-coordinate is below 2^255.
   */
  lemma MulxClampedOperands(f: PccFunction, scalar: seq<byte>, u: seq<byte>)
    requires MulxOperandsFit(f, scalar, u)
    ensures f == ScalarMultiplyX25519 ==>
      var k := LEValue(PreparedScalar(f, scalar));
      && k % 8 == 0 && 64 * Pow256(31) <= k < 128 * Pow256(31)
      && LEValue(PreparedU(f, u)) < 128 * Pow256(31)
    ensures f == ScalarMultiplyX448 ==>
      var k := LEValue(PreparedScalar(f, scalar));
      k % 4 == 0 && 128 * Pow256(55) <= k < Pow256(56)
  {
    if f == ScalarMultiplyX25519 {
      Clamping.X25519ClampedScalar(scalar);
      Clamping.MaskedU25519(u);
    } else if f == ScalarMultiplyX448 {
      Clamping.X448ClampedScalar(scalar);
    }
  }

  /** Two little-endian operands zero-extended to s bytes and flipped, behind a clear first field. */
  lemma FlippedFields(s: nat, pu: seq<byte>, pk: seq<byte>, n: nat)
    requires |pu| == |pk| <= s && 3 * s <= n
    ensures
      var b := FlippedBlock(s, pu, pk, n);
      && b[..s] == Zeros(s) && b[3 * s..] == Zeros(n - 3 * s)
      && BEValue(b[s .. 2 * s]) == LEValue(pu)
      && BEValue(b[2 * s .. 3 * s]) == LEValue(pk)
  {
    var pad := s - |pu|;
    FourParts(Zeros(s), Reverse(pu + Zeros(pad)), Reverse(pk + Zeros(pad)), Zeros(n - 3 * s),
              s, 2 * s, 3 * s);
    FieldValueIsLEValue(pu, pad);
    FieldValueIsLEValue(pk, pad);
  }

  /** A little-endian operand zero-extended and flipped keeps its value. */
  lemma FieldValueIsLEValue(v: seq<byte>, pad: nat)
    ensures BEValue(Reverse(v + Zeros(pad))) == LEValue(v)
  {
    ReverseOfZeroExtended(v, pad);
    PaddingKeepsBEValue(Reverse(v), pad);
    ReverseSwapsEndianness(v);
  }

  /**
   * Reading res_u back inverts the layout: when the instruction leaves the
   * result r big-endian and right-aligned in res_u, scalar_mulx_cpacf
   * returns exactly r's little-endian bytes.
   */
  lemma MulxResultRoundTrip(f: PccFunction, after: ParamBytes, r: seq<byte>)
    requires |r| <= PccField(f)
    requires after[..PccField(f)] == RightAlign(Reverse(r), PccField(f))
    ensures Reverse(after[..PccField(f)])[..|r|] == r
  {
    var s := PccField(f);
    ReverseOfZeroExtended(r, s - |r|);
    ReverseInvolutive(r + Zeros(s - |r|));
  }

  // ---------------------------------------------------------------------
  // COMPUTE DIGITAL SIGNATURE AUTHENTICATION (ECDSA sign and verify)
  // ---------------------------------------------------------------------

  /** The KDSA function codes of s390_kdsa_functions that the engine uses. */
  datatype KdsaFunction =
    | EcdsaVerifyP256
    | EcdsaVerifyP384
    | EcdsaVerifyP521
    | EcdsaSignP256
    | EcdsaSignP384
    | EcdsaSignP521

  /** A condition code of the machine: two bits. */
  type ConditionCode = c: int | 0 <= c <= 3

  /** The condition code s390_kdsa returns and the block it leaves. */
  datatype KdsaOutcome = KdsaOutcome(rc: ConditionCode, after: ParamBytes)

  /**
   * The instruction; `deterministic` is the 0x80 modifier bit, set when the
   * caller supplies the nonce in the rand field.
   */
  type Kdsa = (KdsaFunction, bool, ParamBytes) -> KdsaOutcome

  function KdsaField(f: KdsaFunction): (size: nat)
    ensures 32 <= size <= 80
  {
    match f
    case EcdsaVerifyP256 => 32
    case EcdsaVerifyP384 => 48
    case EcdsaVerifyP521 => 80
    case EcdsaSignP256 => 32
    case EcdsaSignP384 => 48
    case EcdsaSignP521 => 80
  }

  /** The switch of ecdsa_verify_cpacf. */
  function VerifyFunction(nid: Nid): (f: Option<KdsaFunction>)
    ensures f.Some? <==> IsNistPrime(nid)
  {
    match nid
    case Prime256v1 => Some(EcdsaVerifyP256)
    case Secp384r1 => Some(EcdsaVerifyP384)
    case Secp521r1 => Some(EcdsaVerifyP521)
    case _ => None
  }

  /** The switch of ecdsa_sign_cpacf. */
  function SignFunction(nid: Nid): (f: Option<KdsaFunction>)
    ensures f.Some? <==> IsNistPrime(nid)
  {
    match nid
    case Prime256v1 => Some(EcdsaSignP256)
    case Secp384r1 => Some(EcdsaSignP384)
    case Secp521r1 => Some(EcdsaSignP521)
    case _ => None
  }

  function Min(a: nat, b: nat): nat
  {
    if a < b then a else b
  }

  /**
   * The hash field of both KDSA blocks: the first min(hashlen, size) bytes
   * of the hash, right-aligned.
   */
  function HashField(hash: seq<byte>, size: nat): (h: seq<byte>)
    ensures |h| == size
  {
    RightAlign(hash[..Min(|hash|, size)], size)
  }

  /** The block ecdsa_verify_cpacf hands to the instruction. */
  function VerifyBlock(f: KdsaFunction, hash: seq<byte>, sig: seq<byte>,
                       x: seq<byte>, y: seq<byte>): ParamBytes
    requires |x| == |y| <= KdsaField(f) && |sig| == 2 * |x|
  {
    var s := KdsaField(f);
    var len := |x|;
    RightAlign(sig[..len], s) + RightAlign(sig[len..], s) + HashField(hash, s)
      + RightAlign(x, s) + RightAlign(y, s) + Zeros(ParamBlockSize - 5 * s)
  }

  /**
   * The memcpy calls of ecdsa_verify_cpacf on block b with fields of s
   * bytes, hash first: the cut hash hm, then r, s, X and Y.
   */
  function VerifyCopies(b: seq<byte>, s: nat, hm: seq<byte>, r0: seq<byte>, s0: seq<byte>,
                        x: seq<byte>, y: seq<byte>): seq<byte>
    requires 5 * s <= |b| && |hm| <= s && |r0| == |s0| == |x| == |y| <= s
  {
    var b1 := Overwrite(b, 3 * s - |hm|, hm);
    var b2 := Overwrite(b1, s - |r0|, r0);
    var b3 := Overwrite(b2, 2 * s - |s0|, s0);
    var b4 := Overwrite(b3, 4 * s - |x|, x);
    Overwrite(b4, 5 * s - |y|, y)
  }

  /** Copying the operands one by one builds VerifyBlock. */
  lemma VerifyLayout(f: KdsaFunction, hash: seq<byte>, sig: seq<byte>, x: seq<byte>, y: seq<byte>)
    requires |x| == |y| <= KdsaField(f) && |sig| == 2 * |x|
    ensures
      var s := KdsaField(f);
      VerifyCopies(Zeros(ParamBlockSize), s, hash[..Min(|hash|, s)], sig[..|x|], sig[|x|..], x, y)
        == VerifyBlock(f, hash, sig, x, y)
  {
    var s := KdsaField(f);
    VerifyFields(s, ParamBlockSize, hash[..Min(|hash|, s)], sig[..|x|], sig[|x|..], x, y);
  }

  /** The five copies into a cleared block of n bytes with s-byte fields. */
  lemma VerifyFields(s: nat, n: nat, hm: seq<byte>, r0: seq<byte>, s0: seq<byte>, x: seq<byte>, y: seq<byte>)
    requires 5 * s <= n && |hm| <= s && |r0| == |s0| == |x| == |y| <= s
    ensures VerifyCopies(Zeros(n), s, hm, r0, s0, x, y)
      == RightAlign(r0, s) + RightAlign(s0, s) + RightAlign(hm, s) + RightAlign(x, s) + RightAlign(y, s)
         + Zeros(n - 5 * s)
  {
    var front := RightAlign(r0, s) + RightAlign(s0, s) + RightAlign(hm, s);
    var b1 := Overwrite(Zeros(n), 3 * s - |hm|, hm);
    var b2 := Overwrite(b1, s - |r0|, r0);
    var b3 := Overwrite(b2, 2 * s - |s0|, s0);
    assert b3 == front + Zeros(s) + Zeros(s + (n - 5 * s)) by {
      VerifyLayoutSignature(s, n, hm, r0, s0);
    }
    FillTwoFields(front, x, y, s, n - 5 * s);
  }

  /** The hash, r and s copies of ecdsa_verify_cpacf on the cleared block. */
  lemma VerifyLayoutSignature(s: nat, n: nat, hm: seq<byte>, r0: seq<byte>, s0: seq<byte>)
    requires 5 * s <= n && |hm| <= s && |r0| == |s0| <= s
    ensures
      var b1 := Overwrite(Zeros(n), 3 * s - |hm|, hm);
      var b2 := Overwrite(b1, s - |r0|, r0);
      Overwrite(b2, 2 * s - |s0|, s0)
        == RightAlign(r0, s) + RightAlign(s0, s) + RightAlign(hm, s) + Zeros(s) + Zeros(s + (n - 5 * s))
  {
    var rest := n - 3 * s;
    var h := RightAlign(hm, s);
    var r := RightAlign(r0, s);
    var b1 := Overwrite(Zeros(n), 3 * s - |hm|, hm);
    assert b1 == [] + Zeros(s) + (Zeros(s) + h + Zeros(rest)) by {
      ZerosSplit(2 * s, s + rest);
      ZerosSplit(s, rest);
      ZerosSplit(s, s);
      FillField(Zeros(2 * s), hm, s, Zeros(rest));
    }
    var b2 := Overwrite(b1, s - |r0|, r0);
    assert b2 == r + Zeros(s) + (h + Zeros(rest)) by {
      FillField([], r0, s, Zeros(s) + h + Zeros(rest));
    }
    FillField(r, s0, s, h + Zeros(rest));
    ZerosSplit(s, rest - s);
  }

  /** Two right-aligned copies into the next two still-zero fields. */
  lemma FillTwoFields(front: seq<byte>, x: seq<byte>, y: seq<byte>, s: nat, tail: nat)
    requires |x| == |y| <= s
    ensures
      var b := front + Zeros(s) + Zeros(s + tail);
      Overwrite(Overwrite(b, |front| + s - |x|, x), |front| + 2 * s - |y|, y)
        == front + RightAlign(x, s) + RightAlign(y, s) + Zeros(tail)
  {
    var rx := RightAlign(x, s);
    FillField(front, x, s, Zeros(s + tail));
    ZerosSplit(s, tail);
    assert front + rx + Zeros(s + tail) == (front + rx) + Zeros(s) + Zeros(tail);
    FillField(front + rx, y, s, Zeros(tail));
  }

  /** The memcpy calls of ecdsa_verify_cpacf. */
  method CopyVerifyOperands(param: array<byte>, s: nat, hm: seq<byte>, r0: seq<byte>, s0: seq<byte>,
                            x: seq<byte>, y: seq<byte>)
    requires 5 * s <= param.Length && |hm| <= s && |r0| == |s0| == |x| == |y| <= s
    modifies param
    ensures param[..] == VerifyCopies(old(param[..]), s, hm, r0, s0, x, y)
  {
    CopyThree(param, 3 * s - |hm|, hm, s - |r0|, r0, 2 * s - |s0|, s0);
    CopyTwo(param, 4 * s - |x|, x, 5 * s - |y|, y);
  }

  /**
   * ecdsa_verify_cpacf: verifies sig = r || s over the hash under the
   * public key (X, Y). Curves without a KDSA function give EINVAL; an
   * instruction reporting failure (an invalid signature among others) gives
   * EFAULT. The block holds only public data and is not wiped.
   */
  method EcdsaVerifyCpacf(param: array<byte>, kdsa: Kdsa, pub: EcKey,
                          hash: seq<byte>, sig: seq<byte>)
    returns (rc: int)
    requires param.Length == ParamBlockSize
    requires Registered(pub.curve)
    requires IsNistPrime(pub.curve.nid) ==>
      && pub.x.Some? && pub.y.Some?
      && |pub.x.value| == pub.curve.privlen && |pub.y.value| == pub.curve.privlen
      && |sig| == 2 * pub.curve.privlen
    modifies param
    ensures VerifyFunction(pub.curve.nid).None? ==> rc == EINVAL && param[..] == Zeros(ParamBlockSize)
    ensures VerifyFunction(pub.curve.nid).Some? ==>
      var f := VerifyFunction(pub.curve.nid).value;
      var out := kdsa(f, false, VerifyBlock(f, hash, sig, pub.x.value, pub.y.value));
      && rc == (if out.rc != 0 then EFAULT else OK)
      && param[..] == out.after
  {
    Cleanse(param);
    var fn := VerifyFunction(pub.curve.nid);
    if fn.None? {
      rc := EINVAL;
    } else {
      var f := fn.value;
      var s := KdsaField(f);
      var len := pub.curve.privlen;
      var x, y := pub.x.value, pub.y.value;
      CopyVerifyOperands(param, s, hash[..Min(|hash|, s)], sig[..len], sig[len..], x, y);
      VerifyLayout(f, hash, sig, x, y);
      assert param[..] == VerifyBlock(f, hash, sig, x, y);
      var out := kdsa(f, false, param[..]);
      OverwriteWhole(param[..], out.after);
      CopyInto(param, 0, out.after);
      rc := if out.rc != 0 then EFAULT else OK;
    }
  }

  /** The block ecdsa_sign_cpacf builds before any nonce: the hash and the private scalar. */
  function SignBlock(f: KdsaFunction, hash: seq<byte>, d: seq<byte>): ParamBytes
    requires |d| <= KdsaField(f)
  {
    var s := KdsaField(f);
    Zeros(2 * s) + HashField(hash, s) + RightAlign(d, s) + Zeros(ParamBlockSize - 4 * s)
  }

  /**
   * The two memcpy calls of ecdsa_sign_cpacf on block b with fields of s
   * bytes: the cut hash hm to the end of field 2, D to the end of field 3.
   */
  function SignCopies(b: seq<byte>, s: nat, hm: seq<byte>, d: seq<byte>): seq<byte>
    requires 4 * s <= |b| && |hm| <= s && |d| <= s
  {
    Overwrite(Overwrite(b, 3 * s - |hm|, hm), 4 * s - |d|, d)
  }

  /** Copying the hash and the key into the cleared block builds SignBlock. */
  lemma SignLayout(f: KdsaFunction, hash: seq<byte>, d: seq<byte>)
    requires |d| <= KdsaField(f)
    ensures SignCopies(Zeros(ParamBlockSize), KdsaField(f), hash[..Min(|hash|, KdsaField(f))], d)
      == SignBlock(f, hash, d)
  {
    var s := KdsaField(f);
    SignFields(s, ParamBlockSize, hash[..Min(|hash|, s)], d);
  }

  /** The hash field 2 and the key field 3 copied into a cleared block of n bytes. */
  lemma SignFields(s: nat, n: nat, hm: seq<byte>, d: seq<byte>)
    requires |hm| <= s && |d| <= s && 4 * s <= n
    ensures SignCopies(Zeros(n), s, hm, d) == Zeros(2 * s) + RightAlign(hm, s) + RightAlign(d, s) + Zeros(n - 4 * s)
  {
    var rest := n - 3 * s;
    var h := RightAlign(hm, s);
    assert Overwrite(Zeros(n), 3 * s - |hm|, hm) == Zeros(2 * s) + h + Zeros(s) + Zeros(rest - s) by {
      ZerosSplit(2 * s, s + rest);
      ZerosSplit(s, rest);
      FillField(Zeros(2 * s), hm, s, Zeros(rest));
      ZerosSplit(s, rest - s);
    }
    FillField(Zeros(2 * s) + h, d, s, Zeros(rest - s));
  }

  /** The callback that supplies the nonce: attempt number and length to the bytes written. */
  type Rng = r: (nat, nat) -> seq<byte> | forall attempt: nat, n: nat :: |r(attempt, n)| == n
    witness (attempt: nat, n: nat) => Zeros(n)

  /**
   * The block KDSA sees on attempt n of the deterministic loop: the nonce
   * of that attempt written over the rand field of the block the previous
   * attempt left (the initial block for attempt 0).
   */
  function DetInput(kdsa: Kdsa, rng: Rng, f: KdsaFunction, hash: seq<byte>, d: seq<byte>, n: nat): ParamBytes
    requires |d| <= KdsaField(f)
    decreases n, 1
  {
    Overwrite(DetBefore(kdsa, rng, f, hash, d, n), 5 * KdsaField(f) - |d|, rng(n, |d|))
  }

  /** The block attempt n of the deterministic loop starts from: the initial block, or the previous attempt's result. */
  function DetBefore(kdsa: Kdsa, rng: Rng, f: KdsaFunction, hash: seq<byte>, d: seq<byte>, n: nat): ParamBytes
    requires |d| <= KdsaField(f)
    decreases n, 0
  {
    if n == 0 then SignBlock(f, hash, d) else DetOutcome(kdsa, rng, f, hash, d, n - 1).after
  }

  function DetOutcome(kdsa: Kdsa, rng: Rng, f: KdsaFunction, hash: seq<byte>, d: seq<byte>, n: nat): KdsaOutcome
    requires |d| <= KdsaField(f)
    decreases n, 2
  {
    kdsa(f, true, DetInput(kdsa, rng, f, hash, d, n))
  }

  /** The signature r || s read from the first two fields, privlen bytes each. */
  function SignatureOf(s: nat, len: nat, after: ParamBytes): (sig: seq<byte>)
    requires len <= s <= 80
    ensures |sig| == 2 * len
  {
    after[s - len .. s] + after[2 * s - len .. 2 * s]
  }

  /**
   * ecdsa_sign_cpacf: signs the hash with the private scalar D. Curves
   * without a KDSA function give EINVAL and leave sig untouched. Without a
   * callback the instruction draws its own nonce and its condition code is
   * returned as is. With a callback (the 0x80 deterministic modifier) each
   * attempt writes a fresh nonce from the callback into rand and the
   * instruction is retried until it succeeds. The signature is copied out
   * in either case; then the priv and rand fields, and only those, are
   * cleansed.
   */
  method EcdsaSignCpacf(param: array<byte>, kdsa: Kdsa, priv: EcKey,
                        hash: seq<byte>, rng: Option<Rng>)
    returns (rc: int, sig: Option<seq<byte>>, ghost attempts: nat)
    requires param.Length == ParamBlockSize
    requires Registered(priv.curve)
    requires IsNistPrime(priv.curve.nid) ==> |priv.d| == priv.curve.privlen
    requires IsNistPrime(priv.curve.nid) && rng.Some? ==>
      var f := SignFunction(priv.curve.nid).value;
      exists n: nat :: DetOutcome(kdsa, rng.value, f, hash, priv.d, n).rc == 0
    modifies param
    ensures SignFunction(priv.curve.nid).None? ==> rc == EINVAL && sig == None && param[..] == Zeros(ParamBlockSize)
    ensures SignFunction(priv.curve.nid).Some? ==>
      var f := SignFunction(priv.curve.nid).value;
      var s := KdsaField(f);
      var out := if rng.None? then kdsa(f, false, SignBlock(f, hash, priv.d))
                 else DetOutcome(kdsa, rng.value, f, hash, priv.d, attempts);
      && (rng.None? ==> rc == out.rc)
      && (rng.Some? ==>
            && rc == 0 && out.rc == 0
            && (forall i: nat | i < attempts :: DetOutcome(kdsa, rng.value, f, hash, priv.d, i).rc != 0))
      && sig == Some(SignatureOf(s, |priv.d|, out.after))
      && param[..] == out.after[..3 * s] + Zeros(2 * s) + out.after[5 * s..]
  {
    Cleanse(param);
    attempts := 0;
    var fn := SignFunction(priv.curve.nid);
    if fn.None? {
      rc, sig := EINVAL, None;
      return;
    }
    var f := fn.value;
    var s := KdsaField(f);
    var d := priv.d;
    var len := |d|;
    CopySignOperands(param, s, hash[..Min(|hash|, s)], d);
    SignLayout(f, hash, d);
    ghost var out: KdsaOutcome;
    if rng.None? {
      var o := kdsa(f, false, param[..]);
      SetBlock(param, o.after);
      rc := o.rc;
      out := o;
    } else {
      rc, attempts := DeterministicRetry(param, kdsa, rng.value, f, hash, d);
      out := DetOutcome(kdsa, rng.value, f, hash, d, attempts);
    }
    var r := ReadSignatureAndCleanse(param, s, len);
    sig := Some(r);
  }

  /**
   * The tail of ecdsa_sign_cpacf: copy r and s out of the block, then
   * cleanse the priv and rand fields.
   */
  method ReadSignatureAndCleanse(param: array<byte>, s: nat, len: nat) returns (sig: seq<byte>)
    requires param.Length == ParamBlockSize && len <= s <= 80
    modifies param
    ensures sig == SignatureOf(s, len, old(param[..]))
    ensures param[..] == old(param[..3 * s]) + Zeros(2 * s) + old(param[5 * s..])
  {
    sig := param[s - len .. s] + param[2 * s - len .. 2 * s];
    ghost var o := param[..];
    Wipe(param, 3 * s, 4 * s);
    Wipe(param, 4 * s, 5 * s);
    WipeAfterWipe(o, 3 * s, 4 * s, 5 * s);
    ZerosSplit(s, s);
  }

  /** The memcpy calls of ecdsa_sign_cpacf. */
  method CopySignOperands(param: array<byte>, s: nat, hm: seq<byte>, d: seq<byte>)
    requires 4 * s <= param.Length && |hm| <= s && |d| <= s
    modifies param
    ensures param[..] == SignCopies(old(param[..]), s, hm, d)
  {
    CopyTwo(param, 3 * s - |hm|, hm, 4 * s - |d|, d);
  }

  /** The instruction leaving its block: the array takes the new contents. */
  method SetBlock(param: array<byte>, after: ParamBytes)
    requires param.Length == ParamBlockSize
    modifies param
    ensures param[..] == after
  {
    OverwriteWhole(param[..], after);
    CopyInto(param, 0, after);
  }

  /**
   * The do/while loop of ecdsa_sign_cpacf with a callback: nonce, instruction,
   * until the instruction succeeds. Returns the number of failed attempts
   * before the successful one.
   */
  method DeterministicRetry(param: array<byte>, kdsa: Kdsa, rng: Rng, f: KdsaFunction,
                            hash: seq<byte>, d: seq<byte>)
    returns (rc: int, ghost attempts: nat)
    requires param.Length == ParamBlockSize && |d| <= KdsaField(f)
    requires param[..] == SignBlock(f, hash, d)
    requires exists n: nat :: DetOutcome(kdsa, rng, f, hash, d, n).rc == 0
    modifies param
    ensures rc == 0 && DetOutcome(kdsa, rng, f, hash, d, attempts).rc == 0
    ensures forall i: nat | i < attempts :: DetOutcome(kdsa, rng, f, hash, d, i).rc != 0
    ensures param[..] == DetOutcome(kdsa, rng, f, hash, d, attempts).after
  {
    ghost var bound: nat :| DetOutcome(kdsa, rng, f, hash, d, bound).rc == 0;
    var attempt: nat := 0;
    rc := 1;
    while rc != 0
      invariant attempt <= bound + 1
      invariant param[..] == DetBefore(kdsa, rng, f, hash, d, attempt)
      invariant attempt == 0 ==> rc != 0
      invariant attempt > 0 ==> rc == DetOutcome(kdsa, rng, f, hash, d, attempt - 1).rc
      invariant forall i: nat | i + 1 < attempt :: DetOutcome(kdsa, rng, f, hash, d, i).rc != 0
      decreases bound + 1 - attempt
    {
      rc := DetAttempt(param, kdsa, rng, f, hash, d, attempt);
      attempt := attempt + 1;
    }
    attempts := attempt - 1;
  }

  /** One pass of the deterministic loop: the nonce of attempt n into rand, then the instruction. */
  method DetAttempt(param: array<byte>, kdsa: Kdsa, rng: Rng, f: KdsaFunction,
                    hash: seq<byte>, d: seq<byte>, n: nat) returns (rc: int)
    requires param.Length == ParamBlockSize && |d| <= KdsaField(f)
    requires param[..] == DetBefore(kdsa, rng, f, hash, d, n)
    modifies param
    ensures rc == DetOutcome(kdsa, rng, f, hash, d, n).rc
    ensures param[..] == DetBefore(kdsa, rng, f, hash, d, n + 1)
  {
    CopyInto(param, 5 * KdsaField(f) - |d|, rng(n, |d|));
    var o := kdsa(f, true, param[..]);
    SetBlock(param, o.after);
    rc := o.rc;
  }

  /**
   * A hash shorter than the field keeps its value; a longer one is cut to
   * its leftmost `size` bytes (the hash truncation of ECDSA, at byte
   * granularity).
   */
  lemma HashFieldValue(hash: seq<byte>, size: nat)
    ensures BEValue(HashField(hash, size)) == BEValue(hash[..Min(|hash|, size)])
    ensures |hash| <= size ==> BEValue(HashField(hash, size)) == BEValue(hash)
    ensures |hash| > size ==> HashField(hash, size) == hash[..size]
  {
    var m := Min(|hash|, size);
    PaddingKeepsBEValue(hash[..m], size - m);
    assert |hash| <= size ==> hash[..m] == hash;
  }

  /** What ecdsa_verify_cpacf hands the instruction, field by field. */
  lemma VerifyOperands(f: KdsaFunction, hash: seq<byte>, sig: seq<byte>, x: seq<byte>, y: seq<byte>)
    requires |x| == |y| <= KdsaField(f) && |sig| == 2 * |x|
    ensures
      var s := KdsaField(f);
      var b := VerifyBlock(f, hash, sig, x, y);
      && BEValue(b[..s]) == BEValue(sig[..|x|])
      && BEValue(b[s .. 2 * s]) == BEValue(sig[|x|..])
      && b[2 * s .. 3 * s] == HashField(hash, s)
      && BEValue(b[3 * s .. 4 * s]) == BEValue(x)
      && BEValue(b[4 * s .. 5 * s]) == BEValue(y)
      && b[5 * s..] == Zeros(ParamBlockSize - 5 * s)
  {
    var s := KdsaField(f);
    var len := |x|;
    var b := VerifyBlock(f, hash, sig, x, y);
    FiveFields(s, RightAlign(sig[..len], s), RightAlign(sig[len..], s), HashField(hash, s),
               RightAlign(x, s), RightAlign(y, s), ParamBlockSize - 5 * s);
    RightAlignedValue(b[..s], sig[..len]);
    RightAlignedValue(b[s .. 2 * s], sig[len..]);
    RightAlignedValue(b[3 * s .. 4 * s], x);
    RightAlignedValue(b[4 * s .. 5 * s], y);
  }

  /** Cutting a block of five s-byte fields and a zero tail back into its fields. */
  lemma FiveFields(s: nat, f0: seq<byte>, f1: seq<byte>, f2: seq<byte>, f3: seq<byte>, f4: seq<byte>, tail: nat)
    requires |f0| == s && |f1| == s && |f2| == s && |f3| == s && |f4| == s
    ensures
      var b := f0 + f1 + f2 + f3 + f4 + Zeros(tail);
      && b[..s] == f0 && b[s .. 2 * s] == f1 && b[2 * s .. 3 * s] == f2
      && b[3 * s .. 4 * s] == f3 && b[4 * s .. 5 * s] == f4 && b[5 * s..] == Zeros(tail)
  {
  }

  /**
   * What ecdsa_sign_cpacf hands the instruction before any nonce: the
   * signature and rand fields clear, the hash and the private scalar with
   * their values.
   */
  lemma SignOperands(f: KdsaFunction, hash: seq<byte>, d: seq<byte>)
    requires |d| <= KdsaField(f)
    ensures
      var s := KdsaField(f);
      var b := SignBlock(f, hash, d);
      && b[..2 * s] == Zeros(2 * s)
      && b[2 * s .. 3 * s] == HashField(hash, s)
      && BEValue(b[3 * s .. 4 * s]) == BEValue(d)
      && b[4 * s..] == Zeros(ParamBlockSize - 4 * s)
  {
    var s := KdsaField(f);
    FourParts(Zeros(2 * s), HashField(hash, s), RightAlign(d, s), Zeros(ParamBlockSize - 4 * s), 2 * s, 3 * s, 4 * s);
    RightAlignValue(d, s);
  }

  /**
   * Attempt n of the deterministic loop signs with the callback's n-th
   * nonce, right-aligned in rand; the first attempt also still has the hash
   * and the private scalar as laid out.
   */
  lemma DetNonce(kdsa: Kdsa, rng: Rng, f: KdsaFunction, hash: seq<byte>, d: seq<byte>, n: nat)
    requires |d| <= KdsaField(f)
    ensures
      var s := KdsaField(f);
      var b := DetInput(kdsa, rng, f, hash, d, n);
      && b[5 * s - |d| .. 5 * s] == rng(n, |d|)
      && (n == 0 ==> b[..4 * s] == SignBlock(f, hash, d)[..4 * s]
                     && b[4 * s .. 5 * s] == RightAlign(rng(0, |d|), s))
  {
    var s := KdsaField(f);
    var before := DetBefore(kdsa, rng, f, hash, d, n);
    if n == 0 {
      RandFieldClear(f, hash, d);
    }
    var nonce := rng(n, |d|);
    assert |nonce| == |d|;
    NonceField(before, s, nonce, |d|, n == 0);
  }

  /** The rand field of the initial block is clear. */
  lemma RandFieldClear(f: KdsaFunction, hash: seq<byte>, d: seq<byte>)
    requires |d| <= KdsaField(f)
    ensures SignBlock(f, hash, d)[4 * KdsaField(f) .. 5 * KdsaField(f)] == Zeros(KdsaField(f))
  {
    var s := KdsaField(f);
    var b := SignBlock(f, hash, d);
    SignOperands(f, hash, d);
    assert b[4 * s .. 5 * s] == b[4 * s..][..s];
  }

  /** The nonce copied into the rand field, the fifth of s bytes; on a still-zero field it is right-aligned. */
  lemma NonceField(before: seq<byte>, s: nat, nonce: seq<byte>, len: nat, clear: bool)
    requires 5 * s <= |before| && |nonce| == len <= s
    requires clear ==> before[4 * s .. 5 * s] == Zeros(s)
    ensures
      var b := Overwrite(before, 5 * s - len, nonce);
      && b[5 * s - len .. 5 * s] == nonce
      && (clear ==> b[..4 * s] == before[..4 * s] && b[4 * s .. 5 * s] == RightAlign(nonce, s))
  {
    OverwriteSlice(before, 5 * s - |nonce|, nonce);
    if clear {
      RightAlignInto(before, 4 * s, s, nonce);
    }
  }

  /**
   * The signature format ecdsa_sign_cpacf produces is the one
   * ecdsa_verify_cpacf consumes: when the signing instruction leaves r and s
   * as privlen-byte values right-aligned in their fields, the verify block
   * built from the returned signature carries the same two fields, and both
   * blocks carry the same hash field.
   */
  lemma SignatureFormatsAgree(fs: KdsaFunction, fv: KdsaFunction, hash: seq<byte>, d: seq<byte>,
                              after: ParamBytes, x: seq<byte>, y: seq<byte>)
    requires KdsaField(fs) == KdsaField(fv)
    requires |d| == |x| == |y| <= KdsaField(fs)
    requires after[..KdsaField(fs) - |d|] == Zeros(KdsaField(fs) - |d|)
    requires after[KdsaField(fs) .. 2 * KdsaField(fs) - |d|] == Zeros(KdsaField(fs) - |d|)
    ensures
      var s := KdsaField(fs);
      var v := VerifyBlock(fv, hash, SignatureOf(s, |d|, after), x, y);
      && v[..2 * s] == after[..2 * s]
      && v[2 * s .. 3 * s] == SignBlock(fs, hash, d)[2 * s .. 3 * s]
  {
    var s := KdsaField(fs);
    var len := |d|;
    var sig := SignatureOf(s, len, after);
    SignatureFields(s, len, after);
    FiveParts(RightAlign(sig[..len], s) + RightAlign(sig[len..], s), HashField(hash, s),
              RightAlign(x, s), RightAlign(y, s), Zeros(ParamBlockSize - 5 * s), 2 * s, 3 * s, 4 * s, 5 * s);
    SignOperands(fs, hash, d);
  }

  /**
   * r and s read from fields whose leading bytes are zero, right-aligned
   * again, give back the two fields.
   */
  lemma SignatureFields(s: nat, len: nat, after: seq<byte>)
    requires len <= s && 2 * s <= |after|
    requires after[..s - len] == Zeros(s - len) && after[s .. 2 * s - len] == Zeros(s - len)
    ensures
      var sig := after[s - len .. s] + after[2 * s - len .. 2 * s];
      RightAlign(sig[..len], s) + RightAlign(sig[len..], s) == after[..2 * s]
  {
    var sig := after[s - len .. s] + after[2 * s - len .. 2 * s];
    assert sig[..len] == after[s - len .. s] && sig[len..] == after[2 * s - len .. 2 * s];
    assert after[0 .. s - len] == after[..s - len];
    ZeroPaddedField(after, 0, s, len);
    ZeroPaddedField(after, s, s, len);
    assert after[..2 * s] == after[0 .. s] + after[s .. 2 * s];
  }
}
