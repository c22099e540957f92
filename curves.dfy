/**
 * Return codes of the engine. The entry points return 0 or a Linux errno
 * value; s390_ecc.c relies on EINVAL meaning "curve not supported by this
 * tier", which the dispatcher uses to fall through to the coprocessor.
 */
module Status {
  const OK := 0
  const EIO := 5
  const ENOMEM := 12
  const EACCES := 13
  const EFAULT := 14
  const ENODEV := 19
  const EINVAL := 22
}

/**
 * The curve registry: the rows of the header table behind privlen_from_nid
 * and curve_type_from_nid. The header is not part of this model; a curve is
 * carried together with its table row, and `Registered` states what the
 * call sites of s390_ecc.c fix about that row.
 */
module Curves {
  import opened Wrappers
  import opened Bytes

  /** OpenSSL curve identifiers the engine switches on. */
  datatype Nid =
    | Prime256v1   // NID_X9_62_prime256v1, P-256
    | Secp384r1    // NID_secp384r1, P-384
    | Secp521r1    // NID_secp521r1, P-521
    | Ed25519      // NID_ED25519
    | Ed448        // NID_ED448
    | X25519       // NID_X25519
    | X448         // NID_X448
    | OtherNid(id: int)  // any other curve (brainpool curves, unknown ids)

  /**
   * A curve with its table row: the scalar/coordinate byte length
   * (privlen_from_nid, -1 for a curve the table does not know) and the
   * coprocessor's curve-type code (curve_type_from_nid, negative when the
   * coprocessor does not support the curve).
   */
  datatype Curve = Curve(nid: Nid, privlen: int, curveType: int)

  /** MAX_ECC_PRIV_SIZE: the widest scalar, that of secp521r1. */
  const MaxEccPrivSize := 66

  /** What the engine assumes about the registry row of a curve. */
  predicate Registered(c: Curve)
  {
    -1 <= c.privlen <= MaxEccPrivSize && c.privlen != 0 &&
    c.curveType < 256 &&
    (c.curveType >= 0 ==> c.privlen > 0) &&
    match c.nid
    case Prime256v1 => c.privlen == 32
    case Secp384r1 => c.privlen == 48
    case Secp521r1 => c.privlen == 66
    case Ed25519 => c.privlen == 32
    case Ed448 => c.privlen == 57
    case X25519 => c.privlen == 32
    case X448 => c.privlen == 56
    case OtherNid(_) => true
  }

  /** The three NIST prime curves, the only ones the signature instructions and eckeygen_cpacf serve. */
  predicate IsNistPrime(nid: Nid)
  {
    nid == Prime256v1 || nid == Secp384r1 || nid == Secp521r1
  }

  /**
   * The bit length written into every key token: 8 * privlen, except for
   * secp521r1 whose 66-byte field holds a 521-bit value.
   */
  function PrivBitLen(c: Curve): (bits: int)
    requires Registered(c) && c.privlen > 0
    ensures (bits + 7) / 8 == c.privlen
    ensures bits == 8 * c.privlen || c.nid == Secp521r1
  {
    if c.nid == Secp521r1 then 521 else c.privlen * 8
  }

  /** The bit length is irregular for secp521r1 and for no other curve. */
  lemma BitLenIrregularOnlyFor521(c: Curve)
    requires Registered(c) && c.privlen > 0
    ensures PrivBitLen(c) != 8 * c.privlen <==> c.nid == Secp521r1
    ensures c.nid == Secp521r1 ==> PrivBitLen(c) == 521
  {
  }

  /**
   * ICA_EC_KEY: a curve with the private scalar D and the public
   * coordinates X and Y, each privlen bytes, big-endian, left-zero-padded.
   * X and Y are absent (NULL) for a private-only key.
   */
  datatype EcKey = EcKey(curve: Curve, d: seq<byte>, x: Option<seq<byte>>, y: Option<seq<byte>>)
}
