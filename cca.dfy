/**
 * The coprocessor request codec: the make_* builders that serialise a CCA
 * request (a CPRBX header, a parameter block, a key-block length and the
 * key tokens) into one zeroed buffer, and finalize_xcrb, which describes
 * the request and reply regions to the zcrypt driver.
 *
 * The C structures are declared in headers that are not part of this
 * model, so a request is a sequence of typed sections rather than bytes:
 * every section carries the fields its builder sets (all others stay zero
 * from the memset), and `Size` is the length its builder returns. Address
 * fields are byte offsets from the start of the buffer.
 */
module Cca {
  import opened Wrappers
  import opened Bytes
  import opened Curves

  // ---------------------------------------------------------------------
  // Structure sizes
  // ---------------------------------------------------------------------

  /** CPRBXSIZE: the request and reply CPRBX headers. */
  const CprbxSize: nat
  /** PARMBSIZE: the space reserved for each parameter block. */
  const ParmbSize: nat
  /** sizeof(CCA_TOKEN_HDR). */
  const TokenHdrSize: nat
  /** sizeof(ECC_PRIVATE_KEY_SECTION). */
  const PrivSectionSize: nat
  /** sizeof(ECC_ASSOCIATED_DATA). */
  const AssocDataSize: nat
  /** sizeof(ECC_PUBLIC_KEY_SECTION). */
  const PubSectionSize: nat
  /** sizeof(ECC_PUBLIC_KEY_TOKEN): a public-key section and the compress flag, before the key bytes. */
  const PubTokenSize: nat
  /** sizeof(ECDH_NULLKEY). */
  const NullKeySize: nat
  /** sizeof(ECKEYGEN_KEY_TOKEN). */
  const KeygenTokenSize: nat
  /** AUTOSELECT: "any card" in the xcRB's user_defined field. */
  const Autoselect: nat

  /** sizeof(ECC_KEYBLOCK_LENGTH): one 16-bit length, counted as 2 by every key-block formula. */
  const KeyblockLengthSize := 2
  /** sizeof(ECC_NULL_TOKEN): 16-bit len (0x0005), 16-bit flags, one null byte. */
  const NullTokenSize := 5
  /** The subfunction code (2 bytes) and rule array (16-bit length, 8-byte command) opening every parameter block. */
  const ParmblockHeadSize := 12
  /** sizeof(ECDH_PARMBLOCK): the head and the 20-byte static VUD (vud_len 0x0014). */
  const EcdhParmblockSize := ParmblockHeadSize + 20
  /** sizeof(ECDSA_PARMBLOCK_PART1): the head, vud_len and vud1_len, before the hash. */
  const EcdsaPart1Size := ParmblockHeadSize + 4
  /** sizeof(ECDSA_PARMBLOCK_PART2): vud2_len, before the signature. */
  const EcdsaPart2Size := 2
  /** sizeof(ECKEYGEN_PARMBLOCK): the head and vud_len (0x0002). */
  const EckeygenParmblockSize := ParmblockHeadSize + 2
  /** sizeof(ECC_PRIVATE_KEY_TOKEN): key_len, reserved, header, private section, associated data. */
  const PrivTokenSize := 2 + 2 + TokenHdrSize + PrivSectionSize + AssocDataSize
  /** sizeof(ECDSA_PUBLIC_KEY_BLOCK): key_len, reserved, header, public-key token. */
  const EcdsaPubBlockSize := 2 + 2 + TokenHdrSize + PubTokenSize

  /** Length of the ECDH and ECDSA private-key token, as make_ecdh_request and make_ecdsa_sign_request compute it. */
  function PrivTokenLength(privlen: nat): nat
  {
    2 + 2 + TokenHdrSize + PrivSectionSize + AssocDataSize + privlen + PubTokenSize + 2 * privlen
  }

  /** Length of the ECDSA public-key token, as make_ecdsa_verify_request computes it. */
  function PubTokenLength(privlen: nat): nat
  {
    2 + 2 + TokenHdrSize + PubTokenSize + 2 * privlen
  }

  // ---------------------------------------------------------------------
  // Sections
  // ---------------------------------------------------------------------

  /** struct CPRBX as make_cprbx fills it; the two parameter-block addresses are buffer offsets. */
  datatype Cprbx = Cprbx(cprbLen: nat, verId: nat, funcId: string, reqParml: nat, domain: int,
                         rplMsgbl: nat, reqParmb: nat, rplParmb: nat)

  /** A rule array: its 16-bit length and its 8-character command. */
  datatype RuleArray = RuleArray(len: nat, cmd: string)

  /** The parameter blocks of the four requests. */
  datatype Parmblock =
    | EcdhParmblock(subfunc: nat, rules: RuleArray, vud: seq<byte>)
    | EcdsaSignParmblock(subfunc: nat, rules: RuleArray, vudLen: nat, vud1Len: nat, hash: seq<byte>)
    | EcdsaVerifyParmblock(subfunc: nat, rules: RuleArray, vudLen: nat, vud1Len: nat, hash: seq<byte>,
                           vud2Len: nat, signature: seq<byte>)
    | EckeygenParmblock(subfunc: nat, rules: RuleArray, vudLen: nat)

  datatype PrivateKeySection = PrivateKeySection(
    sectionId: nat, version: nat, sectionLen: nat, keyUsage: nat, curveType: int, keyFormat: nat,
    privPBitlen: int, associatedDataLen: nat, ibmAssociatedDataLen: nat, formattedDataLen: nat)

  datatype AssociatedData = AssociatedData(
    ibmDataLen: nat, curveType: int, pBitlen: int, usageFlag: nat, formatAndSecFlag: nat)

  datatype PublicKeySection = PublicKeySection(
    sectionId: nat, sectionLen: nat, curveType: int, pubPBitlen: int, pubQBytelen: nat)

  /** ECC_PRIVATE_KEY_TOKEN with its private key, followed by ECC_PUBLIC_KEY_TOKEN with X || Y. */
  datatype PrivateKeyToken = PrivateKeyToken(
    keyLen: nat, reserved: nat, tknHdrId: nat, tknLength: int,
    privsec: PrivateKeySection, adata: AssociatedData, privkey: seq<byte>,
    pubsec: PublicKeySection, compressFlag: nat, pubkey: seq<byte>)

  /** ECDSA_PUBLIC_KEY_BLOCK with X || Y. */
  datatype PublicKeyBlock = PublicKeyBlock(
    keyLen: nat, tknHdrId: nat, tknLength: int, pubsec: PublicKeySection, compressFlag: nat, pubkey: seq<byte>)

  /** ECKEYGEN_KEY_TOKEN: a skeleton token without key material. */
  datatype KeygenToken = KeygenToken(
    keyLen: nat, reserved1: nat, tknHdrId: nat, tknLength: int,
    privsec: PrivateKeySection, adata: AssociatedData, pubsec: PublicKeySection)

  /** One part of a request, in the order the builders write them. */
  datatype Section =
    | Header(cprbx: Cprbx)
    | Parm(pb: Parmblock)
    | KeyblockLength(keyblockLen: nat)
    | PrivToken(priv: PrivateKeyToken)
    | PubBlock(pub: PublicKeyBlock)
    | KeygenTok(gen: KeygenToken)
    | NullKey(nullkeyLen: seq<byte>)
    | NullToken(len: nat, flags: nat, nulltoken: nat)

  function ParmblockSize(pb: Parmblock): nat
  {
    match pb
    case EcdhParmblock(_, _, _) => EcdhParmblockSize
    case EcdsaSignParmblock(_, _, _, _, hash) => EcdsaPart1Size + |hash|
    case EcdsaVerifyParmblock(_, _, _, _, hash, _, sig) => EcdsaPart1Size + |hash| + EcdsaPart2Size + |sig|
    case EckeygenParmblock(_, _, _) => EckeygenParmblockSize
  }

  /** The number of bytes a section occupies: the length its builder returns. */
  function Size(s: Section): nat
  {
    match s
    case Header(_) => CprbxSize
    case Parm(pb) => ParmblockSize(pb)
    case KeyblockLength(_) => KeyblockLengthSize
    case PrivToken(t) => PrivTokenSize + |t.privkey| + PubTokenSize + |t.pubkey|
    case PubBlock(b) => EcdsaPubBlockSize + |b.pubkey|
    case KeygenTok(_) => KeygenTokenSize
    case NullKey(_) => NullKeySize
    case NullToken(_, _, _) => NullTokenSize
  }

  /** The bytes a run of sections occupies. */
  function TotalSize(ss: seq<Section>): nat
  {
    if ss == [] then 0 else Size(ss[0]) + TotalSize(ss[1..])
  }

  lemma {:induction false} TotalSizeAppend(ss: seq<Section>, s: Section)
    ensures TotalSize(ss + [s]) == TotalSize(ss) + Size(s)
  {
    if ss != [] {
      assert (ss + [s])[1..] == ss[1..] + [s];
      TotalSizeAppend(ss[1..], s);
    }
  }

  // ---------------------------------------------------------------------
  // Well-formedness: what the self-describing length fields must say
  // ---------------------------------------------------------------------

  /**
   * A run of length-prefixed items: each begins with its own 16-bit
   * big-endian length, which counts the prefix.
   */
  predicate LengthPrefixed(s: seq<byte>)
    decreases |s|
  {
    s == [] ||
    (|s| >= 2 && 2 <= BEValue(s[..2]) <= |s| && LengthPrefixed(s[BEValue(s[..2])..]))
  }

  /** The VUD length field: it counts itself and everything after it in the parameter block. */
  function VudLen(pb: Parmblock): nat
  {
    match pb
    case EcdhParmblock(_, _, vud) => if |vud| < 2 then 0 else BEValue(vud[..2])
    case EcdsaSignParmblock(_, _, vudLen, _, _) => vudLen
    case EcdsaVerifyParmblock(_, _, vudLen, _, _, _, _) => vudLen
    case EckeygenParmblock(_, _, vudLen) => vudLen
  }

  /** Each VUD length covers the items inside it, and the rule array length covers its command. */
  predicate WellFormedParmblock(pb: Parmblock)
  {
    && pb.rules.len == 2 + |pb.rules.cmd|
    && |pb.rules.cmd| == 8
    && match pb
       case EcdhParmblock(_, _, vud) =>
         |vud| >= 2 && BEValue(vud[..2]) == |vud| && LengthPrefixed(vud[2..])
       case EcdsaSignParmblock(_, _, vudLen, vud1Len, hash) =>
         vudLen == 2 + vud1Len && vud1Len == 2 + |hash|
       case EcdsaVerifyParmblock(_, _, vudLen, vud1Len, hash, vud2Len, sig) =>
         vudLen == 2 + vud1Len + vud2Len && vud1Len == 2 + |hash| && vud2Len == 2 + |sig|
       case EckeygenParmblock(_, _, vudLen) =>
         vudLen == 2
  }

  /**
   * What the card reads from a private-key token: the outer length counts
   * the whole token, the header length excludes the two 16-bit fields in
   * front of it, each section length counts its section, the three copies
   * of the curve type and of the bit length agree, the bit length fits
   * the key bytes, and the public key is an uncompressed X || Y.
   */
  predicate WellFormedPrivToken(t: PrivateKeyToken)
  {
    && t.keyLen == Size(PrivToken(t))
    && t.tknHdrId == 0x1E && t.tknLength == t.keyLen - 4
    && t.privsec.sectionId == 0x20
    && t.privsec.sectionLen == PrivSectionSize + AssocDataSize + |t.privkey|
    && t.privsec.formattedDataLen == |t.privkey|
    && t.privsec.associatedDataLen == AssocDataSize
    && t.privsec.ibmAssociatedDataLen == AssocDataSize
    && t.adata.ibmDataLen == AssocDataSize
    && t.privsec.curveType == t.adata.curveType == t.pubsec.curveType
    && t.privsec.privPBitlen == t.adata.pBitlen == t.pubsec.pubPBitlen
    && (t.privsec.privPBitlen + 7) / 8 == |t.privkey|
    && t.privsec.keyUsage == t.adata.usageFlag
    && t.pubsec.sectionId == 0x21
    && t.pubsec.sectionLen == PubTokenSize + |t.pubkey|
    && |t.pubkey| == 2 * |t.privkey|
    && t.pubsec.pubQBytelen == |t.pubkey| + 1
    && t.compressFlag == 0x04
  }

  /** The same for the public-key block of a verify request. */
  predicate WellFormedPubBlock(b: PublicKeyBlock)
  {
    && b.keyLen == Size(PubBlock(b))
    && b.tknHdrId == 0x1E && b.tknLength == b.keyLen - 4
    && b.pubsec.sectionId == 0x21
    && b.pubsec.sectionLen == PubTokenSize + |b.pubkey|
    && b.pubsec.pubQBytelen == |b.pubkey| + 1
    && (b.pubsec.pubPBitlen + 7) / 8 == |b.pubkey| / 2
    && |b.pubkey| % 2 == 0
    && b.compressFlag == 0x04
  }

  /** The same for the key-generation skeleton: sections sized, no key material announced. */
  predicate WellFormedKeygenToken(k: KeygenToken)
  {
    && k.keyLen == KeygenTokenSize
    && k.tknHdrId == 0x1E && k.tknLength == k.keyLen - 4
    && k.privsec.sectionId == 0x20
    && k.privsec.sectionLen == PrivSectionSize + AssocDataSize
    && k.privsec.formattedDataLen == 0
    && k.privsec.associatedDataLen == AssocDataSize == k.privsec.ibmAssociatedDataLen == k.adata.ibmDataLen
    && k.privsec.curveType == k.adata.curveType == k.pubsec.curveType
    && k.privsec.privPBitlen == k.adata.pBitlen == k.pubsec.pubPBitlen
    && k.pubsec.sectionId == 0x21
    && k.pubsec.sectionLen == PubSectionSize
    && k.pubsec.pubQBytelen == 0
  }

  // ---------------------------------------------------------------------
  // Section builders
  // ---------------------------------------------------------------------

  /** make_keyblock_length: the section holding the key-block length. */
  function MakeKeyblockLength(len: nat): (s: Section)
    ensures s.KeyblockLength? && s.keyblockLen == len && Size(s) == 2
  {
    KeyblockLength(len)
  }

  /** make_nullkey: a null key whose length bytes are 0x00 0x44. */
  function MakeNullKey(): (s: Section)
    ensures s.NullKey? && BEValue(s.nullkeyLen) == 0x44 && |s.nullkeyLen| == 2
  {
    assert [0x00, 0x44][..1] == [0x00];
    NullKey([0x00, 0x44])
  }

  /** make_ecc_null_token: a five-byte token whose length field says 5. */
  function MakeEccNullToken(): (s: Section)
    ensures s.NullToken? && s.len == Size(s) == 5 && s.flags == 0x0010 && s.nulltoken == 0
  {
    NullToken(0x0005, 0x0010, 0x00)
  }

  /**
   * make_cprbx: a version-2 "T2" header announcing parmlen bytes of
   * request parameters and a reply as large as the reserved reply space;
   * both parameter blocks follow their header directly.
   */
  function MakeCprbx(parmlen: nat, domain: int): (c: Cprbx)
    ensures c.cprbLen == CprbxSize && c.reqParml == parmlen && c.domain == domain
    ensures c.rplMsgbl == CprbxSize + ParmbSize
    ensures c.reqParmb == c.cprbLen && c.rplParmb == ReplyOffset() + c.cprbLen
  {
    Cprbx(CprbxSize, 0x02, "T2", parmlen, domain, CprbxSize + ParmbSize, CprbxSize, ReplyOffset() + CprbxSize)
  }

  /** Where the reply CPRBX starts in the request buffer: after the request CPRBX and its parameter space. */
  function ReplyOffset(): nat
  {
    CprbxSize + ParmbSize
  }

  /** The 20-byte static VUD of the ECDH parameter block. */
  const EcdhStaticVud: seq<byte> := [
    0x00, 0x14,
    0x00, 0x04, 0x00, 0x91,
    0x00, 0x06, 0x00, 0x93, 0x00, 0x00,
    0x00, 0x04, 0x00, 0x90,
    0x00, 0x04, 0x00, 0x92]

  /** make_ecdh_parmblock: subfunction 'DH', rule PASSTHRU, the static VUD. */
  function MakeEcdhParmblock(): (pb: Parmblock)
    ensures pb.EcdhParmblock? && pb.subfunc == 0x4448 && pb.rules.cmd == "PASSTHRU"
    ensures WellFormedParmblock(pb) && ParmblockSize(pb) == ParmblockHeadSize + VudLen(pb)
  {
    EcdhVudWellFormed();
    EcdhParmblock(0x4448, RuleArray(0x000A, "PASSTHRU"), EcdhStaticVud)
  }

  /** The static ECDH VUD: its length field says 20, and it holds four length-prefixed items. */
  lemma EcdhVudWellFormed()
    ensures BEValue(EcdhStaticVud[..2]) == |EcdhStaticVud| == 20
    ensures LengthPrefixed(EcdhStaticVud[2..])
  {
    var v := EcdhStaticVud;
    TwoByteValue(v[..2]);
    var i1, i2, i3, i4 := v[2..], v[6..], v[12..], v[16..];
    assert i4[4..] == [];
    PrefixedItem(i4, 4);
    assert i3[4..] == i4;
    PrefixedItem(i3, 4);
    assert i2[6..] == i3;
    PrefixedItem(i2, 6);
    assert i1[4..] == i2;
    PrefixedItem(i1, 4);
  }

  /** An item of length n, short enough for a one-byte length, in front of a run of items. */
  lemma PrefixedItem(s: seq<byte>, n: nat)
    requires 2 <= n <= |s| && s[0] == 0 && s[1] as nat == n && LengthPrefixed(s[n..])
    ensures LengthPrefixed(s)
  {
    TwoByteValue(s[..2]);
  }

  lemma TwoByteValue(s: seq<byte>)
    requires |s| == 2
    ensures BEValue(s) == s[0] as nat * 256 + s[1] as nat
  {
    assert s[..1][..0] == [];
    assert BEValue(s[..1]) == s[0] as nat;
    assert s[..|s| - 1] == s[..1];
  }

  /** make_ecdsa_sign_parmblock: subfunction 'SG', rule ECDSA, the hash as VUD item 1. */
  function MakeEcdsaSignParmblock(hash: seq<byte>): (pb: Parmblock)
    ensures pb.EcdsaSignParmblock? && pb.subfunc == 0x5347 && pb.rules.cmd == "ECDSA   "
    ensures pb.hash == hash
    ensures WellFormedParmblock(pb) && ParmblockSize(pb) == ParmblockHeadSize + VudLen(pb)
  {
    EcdsaSignParmblock(0x5347, RuleArray(0x000A, "ECDSA   "), |hash| + 4, |hash| + 2, hash)
  }

  /** make_ecdsa_verify_parmblock: subfunction 'SV', rule ECDSA, the hash and the signature as VUD items 1 and 2. */
  function MakeEcdsaVerifyParmblock(hash: seq<byte>, signature: seq<byte>): (pb: Parmblock)
    ensures pb.EcdsaVerifyParmblock? && pb.subfunc == 0x5356 && pb.rules.cmd == "ECDSA   "
    ensures pb.hash == hash && pb.signature == signature
    ensures WellFormedParmblock(pb) && ParmblockSize(pb) == ParmblockHeadSize + VudLen(pb)
  {
    EcdsaVerifyParmblock(0x5356, RuleArray(0x000A, "ECDSA   "),
      2 + (2 + |hash|) + (2 + |signature|), 2 + |hash|, hash, 2 + |signature|, signature)
  }

  /** make_eckeygen_parmblock: subfunction 'PG', rule CLEAR, an empty VUD. */
  function MakeEckeygenParmblock(): (pb: Parmblock)
    ensures pb.EckeygenParmblock? && pb.subfunc == 0x5047 && pb.rules.cmd == "CLEAR   "
    ensures WellFormedParmblock(pb) && ParmblockSize(pb) == ParmblockHeadSize + VudLen(pb)
  {
    EckeygenParmblock(0x5047, RuleArray(0x000A, "CLEAR   "), 0x0002)
  }

  /**
   * The private-key token make_ecdh_key_token and
   * make_ecdsa_private_key_token both write; they differ in the key usage
   * byte and in the reserved field.
   */
  function PrivateKeyTokenOf(c: Curve, usage: nat, reserved: nat, d: seq<byte>, x: seq<byte>, y: seq<byte>): (t: PrivateKeyToken)
    requires Registered(c) && c.privlen > 0
    requires |d| == c.privlen && |x| == c.privlen && |y| == c.privlen
    ensures WellFormedPrivToken(t)
    ensures t.keyLen == PrivTokenLength(c.privlen)
    ensures t.privkey == d && t.pubkey == x + y
    ensures t.privsec.privPBitlen == PrivBitLen(c) && t.privsec.curveType == c.curveType
    ensures t.privsec.keyUsage == usage && t.reserved == reserved
  {
    var privlen := c.privlen;
    var bits := PrivBitLen(c);
    var keyLen := PrivTokenLength(privlen);
    PrivateKeyToken(
      keyLen, reserved, 0x1E, keyLen - 2 - 2,
      PrivateKeySection(0x20, 0x00, PrivSectionSize + AssocDataSize + privlen, usage, c.curveType, 0x40,
                        bits, AssocDataSize, AssocDataSize, privlen),
      AssociatedData(AssocDataSize, c.curveType, bits, usage, 0x40),
      d,
      PublicKeySection(0x21, PubTokenSize + 2 * privlen, c.curveType, bits, 2 * privlen + 1),
      0x04, x + y)
  }

  /** make_ecdh_key_token: the private key of A with the public key of B, usage 0xC0. */
  function MakeEcdhKeyToken(c: Curve, d: seq<byte>, x: seq<byte>, y: seq<byte>): (s: Section)
    requires Registered(c) && c.privlen > 0
    requires |d| == c.privlen && |x| == c.privlen && |y| == c.privlen
    ensures s.PrivToken? && WellFormedPrivToken(s.priv)
    ensures Size(s) == s.priv.keyLen == PrivTokenLength(c.privlen)
    ensures s.priv.privkey == d && s.priv.pubkey == x + y
    ensures s.priv.privsec.keyUsage == 0xC0 && s.priv.reserved == 0
  {
    PrivToken(PrivateKeyTokenOf(c, 0xC0, 0, d, x, y))
  }

  /** make_ecdsa_private_key_token: the signing key with its public key, usage 0x80, reserved 0x0020. */
  function MakeEcdsaPrivateKeyToken(c: Curve, d: seq<byte>, x: seq<byte>, y: seq<byte>): (s: Section)
    requires Registered(c) && c.privlen > 0
    requires |d| == c.privlen && |x| == c.privlen && |y| == c.privlen
    ensures s.PrivToken? && WellFormedPrivToken(s.priv)
    ensures Size(s) == s.priv.keyLen == PrivTokenLength(c.privlen)
    ensures s.priv.privkey == d && s.priv.pubkey == x + y
    ensures s.priv.privsec.keyUsage == 0x80 && s.priv.reserved == 0x0020
  {
    PrivToken(PrivateKeyTokenOf(c, 0x80, 0x0020, d, x, y))
  }

  /** make_ecdsa_public_key_token: the verification key. */
  function MakeEcdsaPublicKeyToken(c: Curve, x: seq<byte>, y: seq<byte>): (s: Section)
    requires Registered(c) && c.privlen > 0
    requires |x| == c.privlen && |y| == c.privlen
    ensures s.PubBlock? && WellFormedPubBlock(s.pub)
    ensures Size(s) == s.pub.keyLen == PubTokenLength(c.privlen)
    ensures s.pub.pubkey == x + y
    ensures s.pub.pubsec.pubPBitlen == PrivBitLen(c) && s.pub.pubsec.curveType == c.curveType
  {
    var privlen := c.privlen;
    var len := EcdsaPubBlockSize + 2 * privlen;
    PubBlock(PublicKeyBlock(len, 0x1E, len - 2 - 2,
      PublicKeySection(0x21, PubTokenSize + 2 * privlen, c.curveType, PrivBitLen(c), 2 * privlen + 1),
      0x04, x + y))
  }

  /** make_eckeygen_private_key_token: the skeleton the card fills with a fresh key pair. */
  function MakeEckeygenPrivateKeyToken(c: Curve): (s: Section)
    requires Registered(c) && c.privlen > 0
    ensures s.KeygenTok? && WellFormedKeygenToken(s.gen) && Size(s) == s.gen.keyLen
    ensures s.gen.privsec.privPBitlen == PrivBitLen(c) && s.gen.privsec.curveType == c.curveType
    ensures s.gen.privsec.keyUsage == 0x80 && s.gen.reserved1 == 0x0020
  {
    var bits := PrivBitLen(c);
    KeygenTok(KeygenToken(
      KeygenTokenSize, 0x0020, 0x1E, KeygenTokenSize - 2 - 2,
      PrivateKeySection(0x20, 0x00, PrivSectionSize + AssocDataSize, 0x80, c.curveType, 0x40,
                        bits, AssocDataSize, AssocDataSize, 0),
      AssociatedData(AssocDataSize, c.curveType, bits, 0x80, 0x40),
      PublicKeySection(0x21, PubSectionSize, c.curveType, bits, 0)))
  }

  // ---------------------------------------------------------------------
  // Requests
  // ---------------------------------------------------------------------

  /** struct ica_xcRB as finalize_xcrb fills it; the two addresses are buffer offsets. */
  datatype Xcrb = Xcrb(agentId: nat, userDefined: nat, requestLen: nat, requestAddr: nat,
                       replyLen: nat, replyAddr: nat)

  /** finalize_xcrb: agent 'CA', any card, the request CPRB with its parameters, the reply space. */
  function FinalizeXcrb(req: Cprbx): (x: Xcrb)
    ensures x.requestAddr == 0 && x.replyAddr == ReplyOffset()
    ensures x.requestLen == req.cprbLen + req.reqParml && x.replyLen == req.rplMsgbl
    ensures x.agentId == 0x4341 && x.userDefined == Autoselect
  {
    Xcrb(0x4341, Autoselect, req.cprbLen + req.reqParml, 0, req.rplMsgbl, ReplyOffset())
  }

  /**
   * A request made by a make_*_request builder: the sections written into
   * the zeroed buffer, the offset the builder reached, the xcRB, and the
   * buffer length (request and reply space, each CPRBX plus parameters).
   */
  datatype Request = Request(sections: seq<Section>, written: nat, xcrb: Xcrb, bufLen: nat)

  /**
   * What the driver and the card rely on: the header comes first and its
   * req_parml counts every byte after it, the key-block length counts
   * itself and every key after it, the xcRB announces exactly the bytes
   * written, and the reply space follows the request space.
   */
  predicate Consistent(r: Request)
  {
    && |r.sections| >= 3
    && r.sections[0].Header? && r.sections[1].Parm?
    && r.sections[2].KeyblockLength?
    && r.sections[0].cprbx.cprbLen == Size(r.sections[0])
    && r.sections[0].cprbx.reqParml == TotalSize(r.sections[1..])
    && r.sections[2].keyblockLen == TotalSize(r.sections[2..])
    && WellFormedParmblock(r.sections[1].pb)
    && r.written == TotalSize(r.sections)
    && r.xcrb.requestLen == r.written
    && r.xcrb.replyAddr == ReplyOffset() && r.xcrb.replyLen == ReplyOffset()
    && r.bufLen == 2 * ReplyOffset()
  }

  /**
   * The zeroed request buffer the builders write into, seen as the
   * sections written so far and the `offset` accumulator.
   */
  class RequestBuffer {
    var sections: seq<Section>
    var offset: nat

    ghost predicate Valid()
      reads this
    {
      offset == TotalSize(sections)
    }

    constructor ()
      ensures Valid() && sections == [] && offset == 0
    {
      sections, offset := [], 0;
    }

    /** Write one section at `offset` and advance by the length its builder returns. */
    method Put(s: Section)
      requires Valid()
      modifies this
      ensures Valid()
      ensures sections == old(sections) + [s] && offset == old(offset) + Size(s)
    {
      TotalSizeAppend(sections, s);
      sections := sections + [s];
      offset := offset + Size(s);
    }
  }

  /** A request laid out from its header, parameter block, key-block length and keys. */
  function Assemble(cprbx: Cprbx, pb: Parmblock, keyblockLen: nat, keys: seq<Section>): (r: Request)
    ensures r.sections == [Header(cprbx), Parm(pb), KeyblockLength(keyblockLen)] + keys
    ensures r.written == TotalSize(r.sections) && r.xcrb == FinalizeXcrb(cprbx) && r.bufLen == 2 * ReplyOffset()
  {
    var sections := [Header(cprbx), Parm(pb), KeyblockLength(keyblockLen)] + keys;
    Request(sections, TotalSize(sections), FinalizeXcrb(cprbx), 2 * ReplyOffset())
  }

  /**
   * A request is consistent when the header announces the parameter
   * block and keys behind it, and the key-block length the keys behind it.
   */
  lemma {:induction false} AssembledConsistent(cprbx: Cprbx, pb: Parmblock, keyblockLen: nat, keys: seq<Section>)
    requires cprbx.cprbLen == CprbxSize && cprbx.rplMsgbl == ReplyOffset()
    requires WellFormedParmblock(pb)
    requires keyblockLen == KeyblockLengthSize + TotalSize(keys)
    requires cprbx.reqParml == ParmblockSize(pb) + keyblockLen
    ensures Consistent(Assemble(cprbx, pb, keyblockLen, keys))
  {
    var h, p, k := Header(cprbx), Parm(pb), KeyblockLength(keyblockLen);
    var ss := [h, p, k] + keys;
    assert ss[1..] == [p, k] + keys && ss[1..][1..] == [k] + keys && ss[2..] == [k] + keys;
    assert ([k] + keys)[1..] == keys;
  }

  /** The bytes of a run of sections built up front to back. */
  lemma {:induction false} TotalSizeCons(s: Section, rest: seq<Section>)
    ensures TotalSize([s] + rest) == Size(s) + TotalSize(rest)
  {
    assert ([s] + rest)[1..] == rest;
  }

  /** The sections make_ecdh_request writes after the key-block length. */
  function EcdhKeys(tok: Section): (keys: seq<Section>)
    ensures TotalSize(keys) == 2 * Size(tok) + 4 * NullKeySize
  {
    var nk := MakeNullKey();
    TotalSizeCons(nk, []);
    TotalSizeCons(nk, [nk]);
    TotalSizeCons(nk, [nk, nk]);
    TotalSizeCons(tok, [nk, nk, nk]);
    TotalSizeCons(nk, [tok, nk, nk, nk]);
    TotalSizeCons(tok, [nk, tok, nk, nk, nk]);
    [tok, nk, tok, nk, nk, nk]
  }

  /** The ECDH request: header, parameter block, key-block length, token, null key, token, three null keys. */
  function EcdhRequest(a: EcKey, b: EcKey, domain: int): (r: Request)
    requires Registered(a.curve) && a.curve.curveType >= 0
    requires |a.d| == a.curve.privlen && b.x.Some? && b.y.Some?
    requires |b.x.value| == a.curve.privlen && |b.y.value| == a.curve.privlen
    ensures Consistent(r)
    ensures r.sections[2].keyblockLen == 2 + 2 * PrivTokenLength(a.curve.privlen) + 4 * NullKeySize
    ensures r.sections[0].cprbx.reqParml == EcdhParmblockSize + r.sections[2].keyblockLen
  {
    var tok := MakeEcdhKeyToken(a.curve, a.d, b.x.value, b.y.value);
    var keyblockLen := 2 + 2 * PrivTokenLength(a.curve.privlen) + 4 * NullKeySize;
    var cprbx := MakeCprbx(EcdhParmblockSize + keyblockLen, domain);
    AssembledConsistent(cprbx, MakeEcdhParmblock(), keyblockLen, EcdhKeys(tok));
    Assemble(cprbx, MakeEcdhParmblock(), keyblockLen, EcdhKeys(tok))
  }

  /** The ECDSA sign request: header, parameter block with the hash, key-block length, private-key token. */
  function EcdsaSignRequest(k: EcKey, x: seq<byte>, y: seq<byte>, hash: seq<byte>, domain: int): (r: Request)
    requires Registered(k.curve) && k.curve.curveType >= 0
    requires |k.d| == k.curve.privlen && |x| == k.curve.privlen && |y| == k.curve.privlen
    ensures Consistent(r)
    ensures r.sections[2].keyblockLen == 2 + PrivTokenLength(k.curve.privlen)
    ensures r.sections[0].cprbx.reqParml == EcdsaPart1Size + |hash| + r.sections[2].keyblockLen
  {
    var tok := MakeEcdsaPrivateKeyToken(k.curve, k.d, x, y);
    var keyblockLen := 2 + PrivTokenLength(k.curve.privlen);
    var cprbx := MakeCprbx(EcdsaPart1Size + |hash| + keyblockLen, domain);
    TotalSizeCons(tok, []);
    AssembledConsistent(cprbx, MakeEcdsaSignParmblock(hash), keyblockLen, [tok]);
    Assemble(cprbx, MakeEcdsaSignParmblock(hash), keyblockLen, [tok])
  }

  /** The ECDSA verify request: header, parameter block with hash and signature, key-block length, public-key block. */
  function EcdsaVerifyRequest(k: EcKey, hash: seq<byte>, signature: seq<byte>, domain: int): (r: Request)
    requires Registered(k.curve) && k.curve.curveType >= 0
    requires k.x.Some? && k.y.Some? && |k.x.value| == k.curve.privlen && |k.y.value| == k.curve.privlen
    requires |signature| == 2 * k.curve.privlen
    ensures Consistent(r)
    ensures r.sections[2].keyblockLen == 2 + PubTokenLength(k.curve.privlen)
    ensures r.sections[0].cprbx.reqParml
      == EcdsaPart1Size + |hash| + EcdsaPart2Size + 2 * k.curve.privlen + r.sections[2].keyblockLen
  {
    var tok := MakeEcdsaPublicKeyToken(k.curve, k.x.value, k.y.value);
    var keyblockLen := 2 + PubTokenLength(k.curve.privlen);
    var cprbx := MakeCprbx(EcdsaPart1Size + |hash| + EcdsaPart2Size + 2 * k.curve.privlen + keyblockLen, domain);
    TotalSizeCons(tok, []);
    AssembledConsistent(cprbx, MakeEcdsaVerifyParmblock(hash, signature), keyblockLen, [tok]);
    Assemble(cprbx, MakeEcdsaVerifyParmblock(hash, signature), keyblockLen, [tok])
  }

  /** The key-generation request: header, parameter block, key-block length, skeleton token, null token. */
  function EckeygenRequest(k: EcKey, domain: int): (r: Request)
    requires Registered(k.curve) && k.curve.curveType >= 0
    ensures Consistent(r)
    ensures r.sections[2].keyblockLen == 2 + KeygenTokenSize + NullTokenSize
    ensures r.sections[0].cprbx.reqParml == EckeygenParmblockSize + r.sections[2].keyblockLen
  {
    var tok := MakeEckeygenPrivateKeyToken(k.curve);
    var keyblockLen := 2 + KeygenTokenSize + NullTokenSize;
    var cprbx := MakeCprbx(EckeygenParmblockSize + keyblockLen, domain);
    TotalSizeCons(MakeEccNullToken(), []);
    TotalSizeCons(tok, [MakeEccNullToken()]);
    AssembledConsistent(cprbx, MakeEckeygenParmblock(), keyblockLen, [tok, MakeEccNullToken()]);
    Assemble(cprbx, MakeEckeygenParmblock(), keyblockLen, [tok, MakeEccNullToken()])
  }

  /** Writing the three leading sections and then the keys, through the offset accumulator. */
  method WriteRequest(cprbx: Cprbx, pb: Parmblock, keyblockLen: nat, keys: seq<Section>) returns (r: Request)
    ensures r == Assemble(cprbx, pb, keyblockLen, keys)
  {
    var buf := new RequestBuffer();
    buf.Put(Header(cprbx));
    buf.Put(Parm(pb));
    buf.Put(MakeKeyblockLength(keyblockLen));
    var i := 0;
    while i < |keys|
      invariant 0 <= i <= |keys| && buf.Valid()
      invariant buf.sections == [Header(cprbx), Parm(pb), KeyblockLength(keyblockLen)] + keys[..i]
    {
      buf.Put(keys[i]);
      assert keys[..i + 1] == keys[..i] + [keys[i]];
      i := i + 1;
    }
    assert keys[..i] == keys;
    r := Request(buf.sections, buf.offset, FinalizeXcrb(cprbx), 2 * ReplyOffset());
  }

  /**
   * make_ecdh_request. No request for a curve without a coprocessor curve
   * type (checked before the buffer is allocated) or when the allocation
   * fails.
   */
  method MakeEcdhRequest(a: EcKey, b: EcKey, domain: int, allocates: bool) returns (req: Option<Request>)
    requires Registered(a.curve)
    requires a.curve.curveType >= 0 ==>
      && |a.d| == a.curve.privlen && b.x.Some? && b.y.Some?
      && |b.x.value| == a.curve.privlen && |b.y.value| == a.curve.privlen
    ensures req.Some? <==> a.curve.curveType >= 0 && allocates
    ensures req.Some? ==> req.value == EcdhRequest(a, b, domain) && Consistent(req.value)
  {
    if a.curve.curveType < 0 || !allocates {
      return None;
    }
    var privlen := a.curve.privlen;
    var tokenLen := PrivTokenLength(privlen);
    var keyblockLen := 2 + 2 * tokenLen + 4 * NullKeySize;
    var parmblockLen := EcdhParmblockSize + keyblockLen;
    var tok := MakeEcdhKeyToken(a.curve, a.d, b.x.value, b.y.value);
    var r := WriteRequest(MakeCprbx(parmblockLen, domain), MakeEcdhParmblock(), keyblockLen, EcdhKeys(tok));
    req := Some(r);
  }

  /**
   * make_ecdsa_sign_request. No request for a curve without a coprocessor
   * curve type (checked before allocation) or when the allocation fails.
   */
  method MakeEcdsaSignRequest(k: EcKey, x: seq<byte>, y: seq<byte>, hash: seq<byte>, domain: int, allocates: bool)
    returns (req: Option<Request>)
    requires Registered(k.curve)
    requires k.curve.curveType >= 0 ==>
      |k.d| == k.curve.privlen && |x| == k.curve.privlen && |y| == k.curve.privlen
    ensures req.Some? <==> k.curve.curveType >= 0 && allocates
    ensures req.Some? ==> req.value == EcdsaSignRequest(k, x, y, hash, domain) && Consistent(req.value)
  {
    if k.curve.curveType < 0 || !allocates {
      return None;
    }
    var keyblockLen := 2 + PrivTokenLength(k.curve.privlen);
    var parmblockLen := EcdsaPart1Size + |hash| + keyblockLen;
    var tok := MakeEcdsaPrivateKeyToken(k.curve, k.d, x, y);
    var r := WriteRequest(MakeCprbx(parmblockLen, domain), MakeEcdsaSignParmblock(hash), keyblockLen, [tok]);
    req := Some(r);
  }

  /**
   * make_ecdsa_verify_request as written: the buffer is allocated before
   * the curve is checked, so for a curve without a coprocessor curve type
   * it returns no request while the buffer stays allocated, and no caller
   * can free it.
   */
  method MakeEcdsaVerifyRequestAsWritten(k: EcKey, hash: seq<byte>, signature: seq<byte>, domain: int, allocates: bool)
    returns (req: Option<Request>, leaked: bool)
    requires Registered(k.curve)
    requires k.curve.curveType >= 0 ==>
      && k.x.Some? && k.y.Some? && |k.x.value| == k.curve.privlen && |k.y.value| == k.curve.privlen
      && |signature| == 2 * k.curve.privlen
    ensures req.Some? <==> k.curve.curveType >= 0 && allocates
    ensures leaked <==> allocates && k.curve.curveType < 0
    ensures req.Some? ==> req.value == EcdsaVerifyRequest(k, hash, signature, domain) && Consistent(req.value)
  {
    if !allocates {
      return None, false;
    }
    if k.curve.curveType < 0 {
      return None, true;
    }
    var r := BuildVerifyRequest(k, hash, signature, domain);
    req, leaked := Some(r), false;
  }

  /**
   * make_ecdsa_verify_request with the curve checked before the buffer is
   * allocated, as the other three request builders do: whenever no
   * request comes back, no buffer is held.
   */
  method MakeEcdsaVerifyRequest(k: EcKey, hash: seq<byte>, signature: seq<byte>, domain: int, allocates: bool)
    returns (req: Option<Request>, leaked: bool)
    requires Registered(k.curve)
    requires k.curve.curveType >= 0 ==>
      && k.x.Some? && k.y.Some? && |k.x.value| == k.curve.privlen && |k.y.value| == k.curve.privlen
      && |signature| == 2 * k.curve.privlen
    ensures req.Some? <==> k.curve.curveType >= 0 && allocates
    ensures !leaked
    ensures req.Some? ==> req.value == EcdsaVerifyRequest(k, hash, signature, domain) && Consistent(req.value)
  {
    if k.curve.curveType < 0 || !allocates {
      return None, false;
    }
    var r := BuildVerifyRequest(k, hash, signature, domain);
    req, leaked := Some(r), false;
  }

  /** The writes both versions of make_ecdsa_verify_request share once the buffer is there. */
  method BuildVerifyRequest(k: EcKey, hash: seq<byte>, signature: seq<byte>, domain: int) returns (r: Request)
    requires Registered(k.curve) && k.curve.curveType >= 0
    requires k.x.Some? && k.y.Some? && |k.x.value| == k.curve.privlen && |k.y.value| == k.curve.privlen
    requires |signature| == 2 * k.curve.privlen
    ensures r == EcdsaVerifyRequest(k, hash, signature, domain)
  {
    var privlen := k.curve.privlen;
    var keyblockLen := 2 + PubTokenLength(privlen);
    var parmblockLen := EcdsaPart1Size + |hash| + EcdsaPart2Size + 2 * privlen + keyblockLen;
    var tok := MakeEcdsaPublicKeyToken(k.curve, k.x.value, k.y.value);
    r := WriteRequest(MakeCprbx(parmblockLen, domain), MakeEcdsaVerifyParmblock(hash, signature), keyblockLen, [tok]);
  }

  /**
   * make_eckeygen_request. No request for a curve without a coprocessor
   * curve type (checked before allocation) or when the allocation fails.
   */
  method MakeEckeygenRequest(k: EcKey, domain: int, allocates: bool) returns (req: Option<Request>)
    requires Registered(k.curve)
    ensures req.Some? <==> k.curve.curveType >= 0 && allocates
    ensures req.Some? ==> req.value == EckeygenRequest(k, domain) && Consistent(req.value)
  {
    if k.curve.curveType < 0 || !allocates {
      return None;
    }
    var keyblockLen := 2 + KeygenTokenSize + NullTokenSize;
    var parmblockLen := EckeygenParmblockSize + keyblockLen;
    var tok := MakeEckeygenPrivateKeyToken(k.curve);
    var r := WriteRequest(MakeCprbx(parmblockLen, domain), MakeEckeygenParmblock(), keyblockLen,
                          [tok, MakeEccNullToken()]);
    req := Some(r);
  }

  /**
   * The verify-request leak: a registered curve the coprocessor does not
   * support (curve type -1), a successful allocation, and the as-written
   * builder holds a buffer while returning no request.
   */
  method VerifyRequestLeaks() returns (leaked: bool)
    ensures leaked
  {
    var k := EcKey(Curve(OtherNid(0), 32, -1), [], None, None);
    var req;
    req, leaked := MakeEcdsaVerifyRequestAsWritten(k, [], [], 0, true);
  }
}
