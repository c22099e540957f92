/**
 * The parts of the software paths that belong to this engine: OpenSSL
 * computes the numbers (a public point, a signature, a key pair) and
 * provide_pubkey, ecdsa_sign_sw and eckeygen_sw write each of them as a
 * privlen-byte big-endian field, left-padded with zero bytes by an index
 * loop before BN_bn2bin. OpenSSL's answers are parameters here: `None`
 * when the library call fails, the numbers otherwise.
 */
module Software {
  import opened Wrappers
  import opened Bytes
  import opened Curves
  import opened Status

  /** An affine point as OpenSSL hands back its coordinates. */
  datatype Point = Point(x: nat, y: nat)

  /** An ECDSA signature as the pair (r, s). */
  datatype Signature = Signature(r: nat, s: nat)

  /**
   * The public key provide_pubkey delivers: the key's own X and Y when it
   * carries both, otherwise OpenSSL's point padded to privlen bytes per
   * coordinate; nothing for a curve without a privlen or when OpenSSL fails.
   */
  function ProvidedPubkey(k: EcKey, point: Option<Point>): (xy: Option<(seq<byte>, seq<byte>)>)
    requires Registered(k.curve)
    requires k.curve.privlen > 0 && k.x.Some? && k.y.Some? ==>
      |k.x.value| == k.curve.privlen && |k.y.value| == k.curve.privlen
    requires k.curve.privlen > 0 && point.Some? ==>
      point.value.x < Pow256(k.curve.privlen) && point.value.y < Pow256(k.curve.privlen)
    ensures xy.Some? ==> k.curve.privlen > 0 && |xy.value.0| == |xy.value.1| == k.curve.privlen
    ensures xy.Some? && !(k.x.Some? && k.y.Some?) ==>
      point.Some? && BEValue(xy.value.0) == point.value.x && BEValue(xy.value.1) == point.value.y
    ensures xy.None? <==> k.curve.privlen < 0 || (!(k.x.Some? && k.y.Some?) && point.None?)
  {
    if k.curve.privlen < 0 then None
    else if k.x.Some? && k.y.Some? then Some((k.x.value, k.y.value))
    else if point.None? then None
    else Some((FixedWidthBE(point.value.x, k.curve.privlen), FixedWidthBE(point.value.y, k.curve.privlen)))
  }

  /**
   * provide_pubkey: the public key of a private key, into the two
   * caller buffers. A curve without a privlen is EFAULT; a key that
   * carries X and Y is copied; otherwise the point d*G from OpenSSL is
   * written, each coordinate padded to privlen bytes, and a failing
   * OpenSSL call is EFAULT.
   */
  method ProvidePubkey(k: EcKey, point: Option<Point>, bufX: array<byte>, bufY: array<byte>) returns (rc: int)
    requires Registered(k.curve) && bufX != bufY
    requires bufX.Length >= MaxEccPrivSize && bufY.Length >= MaxEccPrivSize
    requires k.curve.privlen > 0 && k.x.Some? && k.y.Some? ==>
      |k.x.value| == k.curve.privlen && |k.y.value| == k.curve.privlen
    requires k.curve.privlen > 0 && point.Some? ==>
      point.value.x < Pow256(k.curve.privlen) && point.value.y < Pow256(k.curve.privlen)
    modifies bufX, bufY
    ensures rc == OK || rc == EFAULT
    ensures rc == OK <==> ProvidedPubkey(k, point).Some?
    ensures rc == OK ==>
      var n, xy := k.curve.privlen, ProvidedPubkey(k, point).value;
      bufX[..] == xy.0 + old(bufX[n..]) && bufY[..] == xy.1 + old(bufY[n..])
    ensures rc == OK ==> bufX[..k.curve.privlen] == ProvidedPubkey(k, point).value.0
    ensures rc == OK ==> bufY[..k.curve.privlen] == ProvidedPubkey(k, point).value.1
    ensures rc != OK ==> unchanged(bufX) && unchanged(bufY)
  {
    var n := k.curve.privlen;
    if n < 0 {
      return EFAULT;
    }
    if k.x.Some? && k.y.Some? {
      assert ProvidedPubkey(k, point) == Some((k.x.value, k.y.value));
      WritePair(bufX, bufY, k.x.value, k.y.value);
      return OK;
    }
    if point.None? {
      return EFAULT;
    }
    assert ProvidedPubkey(k, point) == Some((FixedWidthBE(point.value.x, n), FixedWidthBE(point.value.y, n)));
    WritePoint(bufX, bufY, n, point.value);
    rc := OK;
  }

  /** The two memcpy calls of provide_pubkey: X and Y to the front of their buffers. */
  method WritePair(bufX: array<byte>, bufY: array<byte>, x: seq<byte>, y: seq<byte>)
    requires bufX != bufY && |x| <= bufX.Length && |y| <= bufY.Length
    modifies bufX, bufY
    ensures bufX[..] == x + old(bufX[|x|..]) && bufY[..] == y + old(bufY[|y|..])
    ensures bufX[..|x|] == x && bufY[..|y|] == y
  {
    ghost var ox, oy := bufX[..], bufY[..];
    CopyInto(bufX, 0, x);
    assert bufX[..] == x + ox[|x|..];
    assert bufX[..|x|] == bufX[..][..|x|];
    CopyInto(bufY, 0, y);
    assert bufY[..] == y + oy[|y|..];
    assert bufY[..|y|] == bufY[..][..|y|];
  }

  /** provide_pubkey's padding loops and BN_bn2bin calls for the two coordinates. */
  method WritePoint(bufX: array<byte>, bufY: array<byte>, n: nat, p: Point)
    requires bufX != bufY && n <= bufX.Length && n <= bufY.Length
    requires p.x < Pow256(n) && p.y < Pow256(n)
    modifies bufX, bufY
    ensures bufX[..] == FixedWidthBE(p.x, n) + old(bufX[n..])
    ensures bufY[..] == FixedWidthBE(p.y, n) + old(bufY[n..])
    ensures bufX[..n] == FixedWidthBE(p.x, n) && bufY[..n] == FixedWidthBE(p.y, n)
  {
    WriteLeading(bufX, n, p.x);
    assert bufX[..n] == bufX[..][..n];
    WriteLeading(bufY, n, p.y);
    assert bufY[..n] == bufY[..][..n];
  }

  /**
   * ecdsa_sign_sw: EACCES when the FIPS gate refuses, EINVAL for a curve
   * OpenSSL does not support, EIO when OpenSSL fails; otherwise r and s
   * as two privlen-byte fields, r first.
   */
  method EcdsaSignSw(fipsRefuses: bool, supported: bool, c: Curve, result: Option<Signature>,
                     signature: array<byte>) returns (rc: int)
    requires Registered(c)
    requires supported ==> c.privlen > 0 && signature.Length >= 2 * c.privlen
    requires supported && result.Some? ==>
      result.value.r < Pow256(c.privlen) && result.value.s < Pow256(c.privlen)
    modifies signature
    ensures fipsRefuses ==> rc == EACCES && unchanged(signature)
    ensures !fipsRefuses && !supported ==> rc == EINVAL && unchanged(signature)
    ensures !fipsRefuses && supported && result.None? ==> rc == EIO && unchanged(signature)
    ensures !fipsRefuses && supported && result.Some? ==>
      var n := c.privlen;
      && rc == OK
      && signature[..] == FixedWidthBE(result.value.r, n) + FixedWidthBE(result.value.s, n) + old(signature[2 * n..])
  {
    if fipsRefuses {
      return EACCES;
    }
    if !supported {
      return EINVAL;
    }
    if result.None? {
      return EIO;
    }
    WriteSignature(signature, c.privlen, result.value);
    rc := OK;
  }

  /** The two BN_bn2bin calls of ecdsa_sign_sw with their padding: r, then s, each n bytes. */
  method WriteSignature(signature: array<byte>, n: nat, sig: Signature)
    requires 2 * n <= signature.Length && sig.r < Pow256(n) && sig.s < Pow256(n)
    modifies signature
    ensures signature[..] == FixedWidthBE(sig.r, n) + FixedWidthBE(sig.s, n) + old(signature[2 * n..])
  {
    ghost var o := signature[..];
    WriteFixedWidth(signature, 0, n, sig.r);
    WriteFixedWidth(signature, n, n, sig.s);
    TwoFields(o, FixedWidthBE(sig.r, n), FixedWidthBE(sig.s, n));
  }

  /**
   * eckeygen_sw: EACCES when the FIPS gate refuses, EINVAL for a curve
   * OpenSSL does not support, EIO when key generation fails. D is written
   * as soon as the key exists, before the public point is read back, so a
   * failure there returns EIO with D already overwritten.
   */
  method EckeygenSw(fipsRefuses: bool, supported: bool, c: Curve, d: Option<nat>, q: Option<Point>,
                    bufD: array<byte>, bufX: array<byte>, bufY: array<byte>) returns (rc: int)
    requires Registered(c)
    requires bufD != bufX && bufD != bufY && bufX != bufY
    requires supported ==>
      c.privlen > 0 && bufD.Length >= c.privlen && bufX.Length >= c.privlen && bufY.Length >= c.privlen
    requires supported && d.Some? ==> d.value < Pow256(c.privlen)
    requires supported && q.Some? ==> q.value.x < Pow256(c.privlen) && q.value.y < Pow256(c.privlen)
    modifies bufD, bufX, bufY
    ensures fipsRefuses || !supported || d.None? ==> unchanged(bufD) && unchanged(bufX) && unchanged(bufY)
    ensures fipsRefuses ==> rc == EACCES
    ensures !fipsRefuses && !supported ==> rc == EINVAL
    ensures !fipsRefuses && supported && d.None? ==> rc == EIO
    ensures !fipsRefuses && supported && d.Some? ==>
      var n := c.privlen;
      && bufD[..] == FixedWidthBE(d.value, n) + old(bufD[n..])
      && (q.None? ==> rc == EIO && unchanged(bufX) && unchanged(bufY))
      && (q.Some? ==>
            && rc == OK
            && bufX[..] == FixedWidthBE(q.value.x, n) + old(bufX[n..])
            && bufY[..] == FixedWidthBE(q.value.y, n) + old(bufY[n..]))
  {
    if fipsRefuses {
      return EACCES;
    }
    if !supported {
      return EINVAL;
    }
    if d.None? {
      return EIO;
    }
    var n := c.privlen;
    WriteLeading(bufD, n, d.value);
    if q.None? {
      return EIO;
    }
    WriteLeading(bufX, n, q.value.x);
    WriteLeading(bufY, n, q.value.y);
    rc := OK;
  }

  /**
   * A padded signature splits back into r and s: each half read as a
   * big-endian number gives the component written there.
   */
  lemma SignatureHalves(sig: Signature, n: nat)
    requires sig.r < Pow256(n) && sig.s < Pow256(n)
    ensures var bytes := FixedWidthBE(sig.r, n) + FixedWidthBE(sig.s, n);
      && BEValue(bytes[..n]) == sig.r && BEValue(bytes[n..]) == sig.s
      && BEValue(bytes) == sig.r * Pow256(n) + sig.s
  {
    var bytes := FixedWidthBE(sig.r, n) + FixedWidthBE(sig.s, n);
    assert bytes[..n] == FixedWidthBE(sig.r, n) && bytes[n..] == FixedWidthBE(sig.s, n);
    BEValueConcat(FixedWidthBE(sig.r, n), FixedWidthBE(sig.s, n));
  }
}
