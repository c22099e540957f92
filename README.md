# libica ECC engine (`src/s390_ecc.c`) in Dafny

This project models the elliptic-curve engine of libica, which runs on IBM Z, and proves properties of that model. The engine answers four operations:

- ECDH (`ecdh_hw`);
- ECDSA sign and verify (`ecdsa_sign_hw`, `ecdsa_verify_hw`);
- EC key generation (`eckeygen_hw`).

The engine has two tiers and tries them in order:

1. **The CPU tier.** The CPACF instructions of the processor (PCC for scalar multiplication, KDSA for ECDSA) do the work. Each function gets a parameter block, and a curve that has no function code gives `EINVAL`.
2. **The coprocessor tier.** A Crypto Express card running CCA does the work. A CCA request is built in one zeroed buffer, handed to the zcrypt driver with `ioctl(ZSECSENDCPRB)`, and its reply is checked. The buffer is then cleansed and freed.

Besides the four operations, the engine derives X25519, X448, Ed25519 and Ed448 public keys on the CPU tier. It also writes OpenSSL's numbers as fixed-width big-endian fields in the software paths.

The modules follow the parts of the file:

| file | module | what it holds |
|---|---|---|
| `wrappers.dfy` | `Wrappers` | `Option` |
| `bytes.dfy` | `Bytes` | byte strings: big- and little-endian values, fixed-width fields, byte reversal, and in-place helpers on arrays (memcpy, memset, the endianness flip, the zero-padding loop) |
| `curves.dfy` | `Status`, `Curves` | errno values, the curve registry (`privlen_from_nid`, `curve_type_from_nid`), the token bit length, `ICA_EC_KEY` |
| `clamping.dfy` | `Clamping` | the scalar clamps of section 5 of RFC 7748 and of sections 5.1.5 and 5.2.5 of RFC 8032, with their numeric meaning |
| `cpacf.dfy` | `Cpacf` | `scalar_mul_cpacf`, `scalar_mulx_cpacf`, `ecdsa_verify_cpacf`, `ecdsa_sign_cpacf` on a 4096-byte parameter block, with the instructions as oracles |
| `derive.dfy` | `Derive` | `x25519_derive_pub`, `x448_derive_pub`, `ed25519_derive_pub`, `ed448_derive_pub` |
| `cca.dfy` | `Cca` | the `make_*` request builders, `finalize_xcrb`, and the consistency of the lengths a request announces |
| `software.dfy` | `Software` | `provide_pubkey`, and the zero-padding parts of `ecdsa_sign_sw` and `eckeygen_sw` |
| `dispatch.dfy` | `Dispatch` | `ecdh_hw`, `ecdsa_sign_hw`, `ecdsa_verify_hw`, `eckeygen_hw`: the tier decision, the reply checks, the buffer's fate |

Everything outside the engine is a parameter:

- the PCC and KDSA instructions, and the hash functions `s390_sha512` and `s390_shake_256`;
- the `ioctl`;
- OpenSSL's results;
- the nonce callback;
- whether `malloc` succeeds (`allocates`);
- the default domain;
- the switches `msa9_switch`, `ica_offload_enabled` and `ecc_via_online_card`.

Several sizes live in headers that are not part of this model. Nine CCA structure sizes are named constants without values: `CprbxSize`, `ParmbSize`, `TokenHdrSize`, `PrivSectionSize`, `AssocDataSize`, `PubSectionSize`, `PubTokenSize`, `NullKeySize` and `KeygenTokenSize`. So is the reason code `RS_SIGNATURE_INVALID`. Seven sizes have values taken from the fields their builders set, assuming the structures are packed: `KeyblockLengthSize` (2), `NullTokenSize` (5), `ParmblockHeadSize` (12), `EcdhParmblockSize`, `EcdsaPart1Size`, `EcdsaPart2Size` (2) and `EckeygenParmblockSize`. A CCA request is a sequence of typed sections. Each section carries the fields its builder sets, and the length the builder returns is the section's size.

## Model

| member | source | states |
|---|---|---|
| Curves.PrivBitLen | src/s390_ecc.c:308-314 | the token bit length is 8 * privlen, or 521 for secp521r1; it always rounds up to privlen bytes |
| Curves.BitLenIrregularOnlyFor521 | src/s390_ecc.c:815-818 | the bit length differs from 8 * privlen exactly for secp521r1, where it is 521 |
| Bytes.FixedWidthBE | src/s390_ecc.c:1000-1004 | n as a field of exactly `width` bytes whose big-endian value is n |
| Bytes.FixedWidthBEUnique | src/s390_ecc.c:1000-1010 | the zero-padded field is the only `width`-byte string with value n, so reading it back gives n and nothing else |
| Bytes.WriteFixedWidth | src/s390_ecc.c:1001-1004 | the index loop of zero bytes followed by BN_bn2bin leaves the field equal to FixedWidthBE(n, width), keeps the rest of the buffer, and the field reads back as n |
| Bytes.WriteLeading | src/s390_ecc.c:1000-1004 | the padding loop and BN_bn2bin at the front of a buffer leave it starting with FixedWidthBE(n, width) and keep the rest |
| Bytes.CopyInto | src/s390_ecc.c:972-973 | memcpy overwrites exactly the destination range with the source bytes and keeps the rest |
| Bytes.Wipe | src/s390_ecc.c:636 | OPENSSL_cleanse clears exactly the given range |
| Bytes.FlipEndian | src/s390_ecc.c:598-599 | s390_flip_endian reverses the bytes of the field in place and keeps the rest |
| Bytes.ReverseInvolutive | src/s390_ecc.c:598-605 | flipping twice restores the bytes |
| Bytes.ReverseSwapsEndianness | src/s390_ecc.c:597-599 | read big-endian, a flipped string has the little-endian value of the original |
| Bytes.ReverseOfZeroExtended | src/s390_ecc.c:612-620 | a little-endian operand copied to the front of a wider field and flipped becomes the big-endian operand right-aligned in that field |
| Bytes.PaddingKeepsBEValue | src/s390_ecc.c:1244-1258 | a value right-aligned behind zero bytes keeps its value |
| Bytes.BEValueConcat | src/s390_ecc.c:1133-1142 | two adjacent fields read as one number are the high field times 256^width plus the low field |
| Clamping.X25519ClampedScalar | src/s390_ecc.c:593-595 | the clamped X25519 scalar is a multiple of 8 in [2^254, 2^255), as section 5 of RFC 7748 requires |
| Clamping.MaskedU25519 | src/s390_ecc.c:592 | masking bit 255 of u keeps u below 2^255 and subtracts 2^255 exactly when that bit was set |
| Clamping.X448ClampedScalar | src/s390_ecc.c:615-616 | the clamped X448 scalar is a multiple of 4 in [2^447, 2^448) |
| Clamping.Ed25519ClampIsX25519Clamp | src/s390_ecc.c:2053-2055 | ed25519_derive_pub's clamp of the first digest half is the X25519 clamp and leaves the second half alone |
| Clamping.Ed448ClampIsX448Clamp | src/s390_ecc.c:2123-2126 | ed448_derive_pub's clamp is the X448 clamp of the first 56 bytes, with byte 56 and the upper half cleared |
| Cpacf.PccField | src/s390_ecc.c:423-450 | the field widths of the PCC parameter structs lie between 32 and 80 bytes |
| Cpacf.ScalarMulLayout | src/s390_ecc.c:452-470 | the three memcpy calls into the cleared block build the block with x, y and the scalar right-aligned after the two result fields |
| Cpacf.CopyScalarMulOperands | src/s390_ecc.c:460-465 | the three memcpy calls put x, y and the scalar at the ends of their size-byte fields and change nothing else in the block |
| Cpacf.Cleanse | src/s390_ecc.c:454 | clearing the parameter block leaves all of its bytes zero |
| Cpacf.ScalarMulOperands | src/s390_ecc.c:452-470 | the instruction sees x, y and the scalar with their values, and the result fields are clear |
| Cpacf.ScalarMulCpacf | src/s390_ecc.c:423-558 | unsupported curves give EINVAL and no result; otherwise the result is EIO or OK by the instruction's outcome, the result X and Y are read back from offset size - privlen of their fields even on failure, and the whole block is cleansed on every path |
| Cpacf.ScalarMulxCpacf | src/s390_ecc.c:560-638 | curves other than X25519 and X448 give EINVAL; otherwise u and the scalar are prepared, flipped to big-endian and passed to the instruction, the result is flipped back and copied out even on EIO, and the block is cleansed |
| Cpacf.ClampX25519InPlace | src/s390_ecc.c:592-595 | the four in-place byte operations turn the block's u and scalar fields into MaskU25519(u) and ClampX25519(scalar) |
| Cpacf.ClampX448InPlace | src/s390_ecc.c:615-616 | the two in-place byte operations turn the scalar field into ClampX448(scalar) |
| Cpacf.PrepareMulxBlock | src/s390_ecc.c:585-620 | from the cleared block, the copies, the clamp and the two flips leave exactly MulxBlock: res_u clear, u and the scalar prepared and reversed, the tail clear |
| Cpacf.FlipFields | src/s390_ecc.c:598-599 | the two flips reverse exactly the u and scalar fields and keep the cleared res_u and tail |
| Cpacf.MulxOperands | src/s390_ecc.c:589-620 | the instruction sees, as big-endian integers, the values of the prepared little-endian u-coordinate and scalar, with res_u and the tail clear |
| Cpacf.MulxClampedOperands | src/s390_ecc.c:592-616 | the prepared operands are those of section 5 of RFC 7748: the X25519 scalar is a multiple of 8 in [2^254, 2^255), the X448 scalar a multiple of 4 in [2^447, 2^448), the masked X25519 u below 2^255 |
| Cpacf.MulxResultRoundTrip | src/s390_ecc.c:604-608 | a result left big-endian and right-aligned in res_u comes back as exactly its little-endian bytes |
| Cpacf.VerifyFunction | src/s390_ecc.c:1238-1303 | ecdsa_verify_cpacf has a KDSA function exactly for P-256, P-384 and P-521 |
| Cpacf.SignFunction | src/s390_ecc.c:1356-1476 | ecdsa_sign_cpacf has a KDSA function exactly for P-256, P-384 and P-521 |
| Cpacf.HashField | src/s390_ecc.c:1240-1245 | the hash field holds the first min(hashlen, size) hash bytes at offset size - min(hashlen, size) |
| Cpacf.HashFieldValue | src/s390_ecc.c:1240-1245 | a short hash keeps its value; a long one is cut to its leftmost `size` bytes |
| Cpacf.VerifyLayout | src/s390_ecc.c:1240-1258 | the memcpy calls of ecdsa_verify_cpacf into the cleared block build the verify block |
| Cpacf.CopyVerifyOperands | src/s390_ecc.c:1244-1258 | the five memcpy calls put the fitted hash, r, s, X and Y at the ends of their fields and change nothing else |
| Cpacf.VerifyOperands | src/s390_ecc.c:1240-1258 | the instruction sees r, s, the fitted hash, X and Y with their values, and nothing after the five fields |
| Cpacf.EcdsaVerifyCpacf | src/s390_ecc.c:1210-1320 | curves without KDSA give EINVAL; a failing instruction, an invalid signature among others, gives EFAULT; success gives OK |
| Cpacf.SignLayout | src/s390_ecc.c:1358-1369 | the two memcpy calls into the cleared block build the sign block |
| Cpacf.CopySignOperands | src/s390_ecc.c:1362-1369 | the two memcpy calls put the fitted hash and D at the ends of their fields and change nothing else |
| Cpacf.SignOperands | src/s390_ecc.c:1358-1369 | the instruction sees clear signature and rand fields, the fitted hash, and D with its value |
| Cpacf.SignatureOf | src/s390_ecc.c:1385-1389 | the signature copied out is 2 * privlen bytes: r then s, each from offset size - privlen of its field |
| Cpacf.DeterministicRetry | src/s390_ecc.c:1374-1383 | the do/while loop writes the callback's nonce for each attempt and stops at the first attempt whose condition code is 0; every earlier attempt failed, and the block is the one that attempt left |
| Cpacf.DetNonce | src/s390_ecc.c:1376-1381 | attempt n signs with the callback's n-th nonce right-aligned in rand; the first attempt also has the hash and D as laid out |
| Cpacf.DetAttempt | src/s390_ecc.c:1378-1382 | one pass of the loop writes the nonce of attempt n into rand and runs the instruction; the condition code and the block are the ones DetOutcome gives for attempt n |
| Cpacf.EcdsaSignCpacf | src/s390_ecc.c:1327-1481 | curves without KDSA give EINVAL and no signature; without a callback the condition code is returned as is; with one the call returns 0 after the first successful attempt; either way r and s are copied out, then exactly the priv and rand fields are cleansed |
| Cpacf.SignatureFormatsAgree | src/s390_ecc.c:1250-1254 | the signature ecdsa_sign_cpacf returns is laid out by ecdsa_verify_cpacf into the same r and s fields the signer left, with the same hash field |
| Cpacf.ReadSignatureAndCleanse | src/s390_ecc.c:1385-1395 | r and s are read before the priv and rand fields are cleansed |
| Derive.X25519DerivePub | src/s390_ecc.c:1990-2004 | the public key is the multiplication of the base point u = 9 by the private key, through scalar_mulx_cpacf; its return code is passed on |
| Derive.X448DerivePub | src/s390_ecc.c:2006-2022 | the same with u = 5 on X448, 56 bytes |
| Derive.MontgomeryBasePoints | src/s390_ecc.c:1993-2012 | the base points have little-endian values 9 and 5, and the X25519 mask leaves 9 alone |
| Derive.Ed25519ScalarValue | src/s390_ecc.c:2053-2058 | as a big-endian number the scalar is the clamped little-endian digest half: a multiple of 8 in [2^254, 2^255) |
| Derive.Ed25519Block | src/s390_ecc.c:2060 | the block for NID_ED25519 holds the base x, the base y and the scalar in their 32-byte fields, with zeros everywhere else |
| Derive.Ed25519DerivePub | src/s390_ecc.c:2024-2077 | a failing SHA-512 returns its code, gives no key and leaves the block alone; a failing multiplication returns EIO with pub holding the raw y; success returns the point encoding of RFC 8032 in big-endian byte order, that is, byte-reversed |
| Derive.Ed25519PubFromDigest | src/s390_ecc.c:2053-2074 | from the digest: clamp, flip, multiply, then fold the parity of x into the top bit of y |
| Derive.Ed448ScalarValue | src/s390_ecc.c:2123-2131 | as a big-endian number the scalar is the X448-clamped value of the first 56 digest bytes: a multiple of 4 in [2^447, 2^448) |
| Derive.Ed448Block | src/s390_ecc.c:2131-2132 | the block for NID_ED448 holds the 57-byte base x, base y and scalar right-aligned in 64-byte fields, with zeros elsewhere |
| Derive.Ed448DerivePub | src/s390_ecc.c:2083-2150 | a failing SHAKE256 returns its code and gives no key; a failing multiplication returns EIO and gives no key; success gives the 57-byte point encoding of RFC 8032 in big-endian byte order, that is, byte-reversed |
| Derive.Ed448PubFromDigest | src/s390_ecc.c:2123-2147 | from the digest: clamp, flip, multiply into 64-byte buffers at offset 7, fold the parity, copy 57 bytes |
| Derive.EncodeEdPoint | src/s390_ecc.c:2064-2071 | the encoding differs from y only in its most significant byte |
| Derive.FoldParity | src/s390_ecc.c:2064-2071 | flip to little-endian, set bit 7 of pub[31] from bit 0 of x[0], flip back: that is EncodeEdPoint |
| Derive.FoldParityPadded | src/s390_ecc.c:2136-2143 | the same on the 64-byte Ed448 buffers with the value at offset 7 |
| Derive.EncodeEdPointValue | src/s390_ecc.c:2068 | on a y whose top bit is clear, the encoding adds the parity of x times the top bit's weight (sections 5.1.2 and 5.2.2 of RFC 8032) |
| Derive.EncodeEdPointDecodes | src/s390_ecc.c:2068 | clearing the top bit of the encoding gives back y, and the top bit is the parity of x |
| Derive.SetTopBit | src/s390_ecc.c:2068 | or-ing (x[0] & 1) << 7 into a byte whose top bit is clear adds 128 times the parity of x[0]; the low seven bits stay and the top bit is that parity |
| Software.ProvidedPubkey | src/s390_ecc.c:965-1010 | no key for a curve without privlen or when OpenSSL fails; the key's own X and Y when it has both; otherwise OpenSSL's coordinates as privlen-byte fields that read back as those coordinates |
| Software.ProvidePubkey | src/s390_ecc.c:952-1025 | EFAULT or OK; OK exactly when ProvidedPubkey gives a key, and then the two buffers start with its two halves; on EFAULT nothing is written |
| Software.WritePair | src/s390_ecc.c:971-974 | the two memcpy calls make the key's X and Y the first bytes of their buffers and keep the rest |
| Software.WritePoint | src/s390_ecc.c:1000-1010 | the zero loops and BN_bn2bin calls make each buffer start with its coordinate as a privlen-byte big-endian field and keep the rest |
| Software.EcdsaSignSw | src/s390_ecc.c:1092-1151 | EACCES under the FIPS gate, EINVAL for an unsupported curve, EIO when OpenSSL fails, otherwise r then s as privlen-byte fields |
| Software.WriteSignature | src/s390_ecc.c:1133-1142 | r and s land as privlen-byte big-endian fields at offsets 0 and privlen of the signature buffer, and the rest is kept |
| Software.SignatureHalves | src/s390_ecc.c:1133-1142 | the padded signature splits back into r and s, and as one number is r * 256^privlen + s |
| Software.EckeygenSw | src/s390_ecc.c:1908-1983 | EACCES, EINVAL or EIO before anything is written; D is written before the public point is read, so a failure there returns EIO with D already overwritten |
| Cca.MakeKeyblockLength | src/s390_ecc.c:178-183 | the key-block length section holds the given length and occupies 2 bytes |
| Cca.MakeNullKey | src/s390_ecc.c:188-194 | a null key's length bytes are 0x00 0x44 |
| Cca.MakeEccNullToken | src/s390_ecc.c:199-206 | the null token says it is 5 bytes long, and is |
| Cca.MakeCprbx | src/s390_ecc.c:244-258 | the header announces parmlen request bytes and a full reply space, and each parameter block follows its header |
| Cca.MakeEcdhParmblock | src/s390_ecc.c:263-287 | subfunction 'DH', rule PASSTHRU, and a static VUD whose length fields cover their contents |
| Cca.EcdhVudWellFormed | src/s390_ecc.c:270-285 | the static ECDH VUD says it is 20 bytes long, and its four items are each length-prefixed |
| Cca.MakeEcdsaSignParmblock | src/s390_ecc.c:757-768 | vud_len == hashlen + 4, vud1_len == hashlen + 2, size == sizeof(PART1) + hashlen |
| Cca.MakeEcdsaVerifyParmblock | src/s390_ecc.c:773-797 | vud_len == 2 + (2 + hashlen) + (2 + siglen), vud2_len == 2 + siglen, size == sizeof(PART1) + hashlen + sizeof(PART2) + siglen |
| Cca.MakeEckeygenParmblock | src/s390_ecc.c:1614-1622 | subfunction 'PG', rule CLEAR, an empty VUD |
| Cca.PrivateKeyTokenOf | src/s390_ecc.c:300-352 | the private-key token's length fields agree: tkn_length == key_len - 4; the private section counts itself, the associated data and privlen; the public section counts itself and 2 * privlen; pub_q_bytelen == 2 * privlen + 1; compress_flag == 0x04; the token is sizeof(privtoken) + privlen + sizeof(pubtoken) + 2 * privlen bytes |
| Cca.MakeEcdhKeyToken | src/s390_ecc.c:292-353 | a well-formed private-key token with A's D and B's X and Y, key usage 0xC0 |
| Cca.MakeEcdsaPrivateKeyToken | src/s390_ecc.c:802-861 | a well-formed private-key token with D, X and Y, key usage 0x80 and reserved 0x0020 |
| Cca.MakeEcdsaPublicKeyToken | src/s390_ecc.c:866-892 | a well-formed public-key block with X and Y and the curve's bit length |
| Cca.MakeEckeygenPrivateKeyToken | src/s390_ecc.c:1627-1666 | a well-formed skeleton token announcing no key material, key usage 0x80 |
| Cca.FinalizeXcrb | src/s390_ecc.c:358-367 | agent 'CA', any card, the request length is the header plus its parameters, the reply area follows the request area |
| Cca.TotalSizeAppend | src/s390_ecc.c:408-417 | advancing the offset by one section's length adds that section's size |
| Cca.Assemble | src/s390_ecc.c:408-417 | a request is header, parameter block, key-block length, then the keys, and its written length is the sum of their sizes |
| Cca.AssembledConsistent | src/s390_ecc.c:385-417 | when req_parml and the key-block length are computed from the sections behind them, the request is Consistent: the xcRB announces exactly the bytes written |
| Cca.EcdhKeys | src/s390_ecc.c:408-417 | the ECDH keys are token, null key, token, three null keys, 2 * token_len + 4 * sizeof(ECDH_NULLKEY) bytes |
| Cca.EcdhRequest | src/s390_ecc.c:379-421 | keyblock_len == 2 + 2 * token_len + 4 * sizeof(ECDH_NULLKEY), req_parml == sizeof(ECDH_PARMBLOCK) + keyblock_len, and the request is Consistent |
| Cca.EcdsaSignRequest | src/s390_ecc.c:906-947 | keyblock_len == 2 + token_len, req_parml == sizeof(PART1) + hashlen + keyblock_len, Consistent |
| Cca.EcdsaVerifyRequest | src/s390_ecc.c:1163-1203 | keyblock_len == 2 + public token length, req_parml == sizeof(PART1) + hashlen + sizeof(PART2) + 2 * privlen + keyblock_len, Consistent |
| Cca.EckeygenRequest | src/s390_ecc.c:1678-1712 | keyblock_len == 2 + sizeof(ECKEYGEN_KEY_TOKEN) + sizeof(ECC_NULL_TOKEN), req_parml == sizeof(ECKEYGEN_PARMBLOCK) + keyblock_len, Consistent |
| Cca.RequestBuffer.Put | src/s390_ecc.c:408-417 | each write appends one section and advances the offset by its size |
| Cca.WriteRequest | src/s390_ecc.c:408-417 | writing the sections through the offset accumulator produces exactly Assemble's request |
| Cca.MakeEcdhRequest | src/s390_ecc.c:379-421 | a request exactly when the curve has a coprocessor curve type and the allocation succeeds, and then it is EcdhRequest |
| Cca.MakeEcdsaSignRequest | src/s390_ecc.c:906-947 | a request exactly when the curve is supported and the allocation succeeds, and then it is EcdsaSignRequest |
| Cca.MakeEcdsaVerifyRequestAsWritten | src/s390_ecc.c:1163-1203 | as written: the buffer stays allocated, with no request returned, exactly when the allocation succeeds for an unsupported curve |
| Cca.VerifyRequestLeaks | src/s390_ecc.c:1180-1186 | a registered curve with curve type -1 and a successful allocation: the as-written builder leaks |
| Cca.MakeEcdsaVerifyRequest | src/s390_ecc.c:1163-1203 | corrected: a request exactly when the curve is supported and the allocation succeeds, then EcdsaVerifyRequest, and never a leaked buffer |
| Cca.MakeEckeygenRequest | src/s390_ecc.c:1678-1712 | a request exactly when the curve is supported and the allocation succeeds, and then it is EckeygenRequest |
| Dispatch.Decide | src/s390_ecc.c:658-669 | a CPU-tier result other than EINVAL is returned unchanged; otherwise ENODEV without an online card, EIO without a driver, and only then the coprocessor |
| Dispatch.EinvalFallsThrough | src/s390_ecc.c:661-662 | an EINVAL from the CPU tier decides as if the CPU had not been tried |
| Dispatch.DecisionNeverEinval | src/s390_ecc.c:1046-1057 | no decision returns EINVAL to the caller |
| Dispatch.EcdhAnswer | src/s390_ecc.c:675-687 | the secret is copied out exactly when the ioctl succeeds and key_len - 4 == privlen; otherwise EIO and nothing is copied |
| Dispatch.SignAnswer | src/s390_ecc.c:1068-1080 | vud_len - 8 bytes of signature are copied out exactly when the ioctl succeeds and that count is 2 * privlen |
| Dispatch.VerifyAnswer | src/s390_ecc.c:1517-1535 | OK exactly for a clean reply; EFAULT exactly for return code 4 with RS_SIGNATURE_INVALID; EIO otherwise |
| Dispatch.KeygenAnswer | src/s390_ecc.c:1874-1895 | D is copied exactly when formatted_data_len == privlen, X and Y only when the compress flag is also 0x04; success exactly then |
| Dispatch.RejectedRepliesWriteNothing | src/s390_ecc.c:681-684 | a rejected ECDH or sign reply hands out no bytes |
| Dispatch.AcceptedSignatureHalves | src/s390_ecc.c:1074-1079 | an accepted signature reply is r then s, privlen bytes each |
| Dispatch.EcdhCpu | src/s390_ecc.c:658-663 | the CPU tier of ecdh_hw gives EINVAL exactly for curves without a PCC function, and otherwise writes privlen bytes even on EIO |
| Dispatch.EcdhHwResult | src/s390_ecc.c:647-692 | ecdh_hw never returns EINVAL; ENODEV exactly when the CPU tier is off or gives EINVAL and no card is online; a buffer is allocated, then wiped and freed, exactly when the coprocessor is reached with a supported curve |
| Dispatch.EcdhCard | src/s390_ecc.c:671-691 | the coprocessor tier of ecdh_hw allocates exactly for a supported curve when malloc succeeds, returns OK or EIO, and hands out privlen bytes exactly on OK |
| Dispatch.EcdhHw | src/s390_ecc.c:647-692 | the imperative entry point returns EcdhHwResult's code and buffer fate, and writes z exactly as it says |
| Dispatch.EcdhOnCpu | src/s390_ecc.c:658-663 | scalar_mul_cpacf called from ecdh_hw returns EcdhCpu's code and writes its X coordinate into z exactly when EcdhCpu says |
| Dispatch.EcdhAfterCpu | src/s390_ecc.c:665-691 | once the CPU tier was skipped or gave EINVAL, the gates and the coprocessor tier give EcdhHwResult's code, buffer fate and write |
| Dispatch.EcdhOnCard | src/s390_ecc.c:671-691 | the request, ioctl, reply check and memcpy of ecdh_hw do what EcdhCard says |
| Dispatch.SignCpu | src/s390_ecc.c:1046-1051 | the CPU tier of ecdsa_sign_hw gives EINVAL exactly for curves without KDSA, and then writes nothing; otherwise it gives the raw KDSA condition code 0..3 and writes the signature even when that code is not 0 |
| Dispatch.SignCard | src/s390_ecc.c:1059-1084 | provide_pubkey's failure is EIO without a buffer; a buffer exactly when the key is provided for a supported curve; the signature is written only on success |
| Dispatch.SignExchange | src/s390_ecc.c:1063-1084 | once the public key is at hand: a buffer exactly for a supported curve when malloc succeeds, and 2 * privlen signature bytes exactly on OK |
| Dispatch.SignHwResult | src/s390_ecc.c:1033-1085 | a CPU answer other than EINVAL is the result; the result is never EINVAL; it is OK, EIO, ENODEV or, with the CPU tier on, the raw KDSA condition code, so contrary to the function's comment (src/s390_ecc.c:1027-1031), which promises only 0 or EIO, ENODEV and the codes 1 to 3 reach the caller; a signature written with a code other than OK comes only from the CPU tier; a buffer is allocated exactly on the coprocessor route once the public key is provided |
| Dispatch.SignOnCpu | src/s390_ecc.c:1046-1051 | ecdsa_sign_cpacf without a callback writes SignCpu's signature into the caller's buffer |
| Dispatch.SignOnCard | src/s390_ecc.c:1059-1084 | the coprocessor tier of ecdsa_sign_hw does what SignCard says |
| Dispatch.FetchPubkey | src/s390_ecc.c:1059-1061 | provide_pubkey into the two local buffers succeeds exactly when ProvidedPubkey gives a key, and their first privlen bytes are that key |
| Dispatch.SendSignRequest | src/s390_ecc.c:1063-1084 | the request, ioctl, reply check and memcpy of ecdsa_sign_hw do what SignExchange says |
| Dispatch.SignAfterCpu | src/s390_ecc.c:1053-1084 | once the CPU tier was skipped or gave EINVAL, the gates and the coprocessor tier give SignHwResult's code, buffer fate and write |
| Dispatch.EcdsaSignHw | src/s390_ecc.c:1033-1085 | the entry point returns SignHwResult's code and buffer fate, and writes the signature exactly as it says |
| Dispatch.VerifyCpu | src/s390_ecc.c:1500-1504 | the CPU tier of ecdsa_verify_hw gives EINVAL exactly for curves that are not NIST primes, and otherwise EFAULT or OK |
| Dispatch.VerifyHwResult | src/s390_ecc.c:1490-1540 | with the corrected verify-request builder, ecdsa_verify_hw returns OK, EFAULT, EIO or ENODEV, never EINVAL, and allocates exactly on the coprocessor route with a supported curve |
| Dispatch.EcdsaVerifyHw | src/s390_ecc.c:1490-1540 | the entry point returns VerifyHwResult's code and buffer fate |
| Dispatch.VerifyOnCard | src/s390_ecc.c:1512-1539 | with the corrected verify-request builder, no buffer and EIO for an unsupported curve or a failed malloc; otherwise the buffer is wiped and freed and the code is VerifyAnswer of the reply |
| Dispatch.EckeygenHwResult | src/s390_ecc.c:1850-1900 | the CPU tier is tried on msa9_switch alone; a buffer is allocated exactly when that tier is off or gives EINVAL, a card is online and the curve is supported, whatever the handle; once it is reached the result is OK or EIO, X and Y are written exactly on OK, and D and X-Y have privlen and 2 * privlen bytes |
| Dispatch.EckeygenHw | src/s390_ecc.c:1850-1900 | the entry point returns EckeygenHwResult's code and buffer fate, and writes D and X then Y exactly as it says |
| Dispatch.KeygenOnCard | src/s390_ecc.c:1870-1899 | on the coprocessor route, the request, ioctl and two reply checks give EckeygenHwResult's code and fate, and write D and X-Y exactly as it says |
| Dispatch.DriverGate | src/s390_ecc.c:1861-1874 | with DRIVER_NOT_LOADED, ecdh_hw, ecdsa_sign_hw and ecdsa_verify_hw never allocate a request, while eckeygen_hw sends one whenever its other gates pass |

## Left out

- The PCC and KDSA instructions, `s390_sha512`, `s390_shake_256` and the `ioctl` are oracles. They are functions of their inputs. The model says what goes into them and what is done with their answers, not what they compute.
- OpenSSL (`EC_POINT_mul`, `ECDSA_do_sign`, `EC_KEY_generate_key` and the others) is left out. Its answers are parameters: `None` when the library fails, the numbers otherwise. `ecdh_sw` and `ecdsa_verify_sw` consist only of OpenSSL calls and are not modelled. `BN_num_bytes` and `BN_bn2bin` are `MinimalBE`. The software members require that OpenSSL's coordinates, r, s and d are below 256^privlen, so they fit in privlen bytes. This is an assumption about the library: without it the source's unsigned pad counts `privlen - BN_num_bytes(...)` (src/s390_ecc.c:1001, 1007, 1134, 1139) would wrap.
- `eckeygen_cpacf` is not part of this model. Its return code and the bytes it writes are the parameter `cpu` of `Dispatch.EckeygenHw`.
- `get_default_domain` reads sysfs and caches the result, so the domain is a parameter. `stats_increment` is left out.
- The `ICA_FIPS` gate of the software paths is one boolean, `fipsRefuses`.
- `malloc` succeeding or failing is the boolean `allocates`.
- The internal test code under `ICA_INTERNAL_TEST_EC` and `main` are left out.
- Cpacf.DeterministicRetry: the source's `do … while (rc)` loop on the callback path is unbounded. This method requires that some attempt succeeds, so a callback that never yields a signable nonce is not described.
- Cpacf.EcdsaSignCpacf: with a nonce callback, the source retries without bound. The model requires that some attempt succeeds, so it says nothing about a callback that never yields a signable nonce.
- Nine CCA structure sizes have no values here: `CprbxSize`, `ParmbSize`, `TokenHdrSize`, `PrivSectionSize`, `AssocDataSize`, `PubSectionSize`, `PubTokenSize`, `NullKeySize` and `KeygenTokenSize`. Seven others are fixed from the fields their builders set (src/s390_ecc.c:200-205, 264-286, 760-767, 781-795, 1616-1621), assuming packed structures: `KeyblockLengthSize` = 2, `NullTokenSize` = 5, `ParmblockHeadSize` = 12, `EcdhParmblockSize` = 12 + 20, `EcdsaPart1Size` = 12 + 4, `EcdsaPart2Size` = 2 and `EckeygenParmblockSize` = 12 + 2. The contracts of the parameter-block, key-block-length and null-token builders depend on these values. `PrivTokenSize` and `EcdsaPubBlockSize` are sums of their members' sizes, which also assumes the structures are packed. This model does not check that a request fits `PARMBSIZE`.
- The 16-bit width of the length fields is not modelled. Lengths are unbounded naturals, so a field that would overflow 16 bits is not caught.
- Raw addresses in the CPRBX and the xcRB are byte offsets from the start of the request buffer.
- `eckeygen_hw` copies 2 * privlen bytes into the key's X. The model writes them into one buffer `bufXY`, as X followed by Y. That the key's Y follows its X in memory is a property of `ICA_EC_KEY`'s allocation, which is not part of this model.
- The parameter blocks are stack unions in the source. In `Dispatch` they are fresh arrays of each call, and the NULL checks of `provide_pubkey` are not modelled.
- Cpacf.EcdsaVerifyCpacf: like the source, it never cleanses its parameter block; the block is left as the instruction left it, holding public data only. The wipe-on-every-path rule for parameter blocks therefore does not hold for it.
- Cpacf.EcdsaSignCpacf: like the source, it cleanses only the priv and rand fields; the hash and the r and s fields stay in the block.
- The cleansing and freeing of the request buffer at the end of each coprocessor tier is recorded only as the fate `BufferFate.WipedAndFreed` of each call. The request is a value, not a byte buffer, so no bytes are set to zero in the model.
- Dispatch.KeygenAnswer: the public-key token of the reply (its compress flag and the 2 * privlen bytes of X and Y) is taken as given in `KeygenReply`. The source finds that token at the offset the card reports in `privsec.section_len` (src/s390_ecc.c:1887-1888) and checks this offset against neither privlen nor the size of the reply buffer. The model therefore does not capture a read at a card-chosen, unchecked location.
- Dispatch.VerifyHwResult: it follows the corrected `Cca.MakeEcdsaVerifyRequest`. For a curve without a CCA curve type and a successful malloc it gives the fate `NoBuffer`, while the source keeps the allocated buffer and never frees it (src/s390_ecc.c:1180-1186, 1514-1515; see Findings).
- Dispatch.VerifyOnCard: it calls the corrected `Cca.MakeEcdsaVerifyRequest`, so its promise of no buffer for an unsupported curve holds only for that builder. The source leaks the buffer in that case (see Findings).
- Derive.Ed25519DerivePub: the digest buffer `buf[64]`, which holds the clamped secret scalar and the digest's upper half (src/s390_ecc.c:2042-2058), is never cleansed in the source before return. The model holds it as a value, so it neither shows nor repairs this departure from the rule that every copy of a private scalar is wiped.
- Derive.Ed448DerivePub: the digest buffer `buf[114]` holds the clamped secret scalar (src/s390_ecc.c:2109-2129). Its upper 57 bytes are set to zero before use, but the buffer is never cleansed before return. The model holds it as a value and does not show this.
- Dispatch.EcdsaVerifyHw: it uses the corrected `Cca.MakeEcdsaVerifyRequest`, so it does not show the leak of the code as written (see Findings).

## Findings

| source | as written | input that shows it | evidently intended | confidence | as-written member | corrected member |
|---|---|---|---|---|---|---|
| src/s390_ecc.c:1180-1186 | `make_ecdsa_verify_request` allocates the request buffer and only then returns NULL for a curve without a CCA curve type, without freeing the buffer. `ecdsa_verify_hw` then returns EIO and never frees it. | A registered curve whose curve type is -1 (any nid `curve_type_from_nid` does not know, with a privlen), with `malloc` succeeding | check the curve before allocating, as the other three `make_*_request` builders do, so that no buffer is held whenever no request comes back | not executed | Cca.MakeEcdsaVerifyRequestAsWritten, Cca.VerifyRequestLeaks | Cca.MakeEcdsaVerifyRequest |
