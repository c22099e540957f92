/**
 * The tier dispatcher of ecdh_hw, ecdsa_sign_hw, ecdsa_verify_hw and
 * eckeygen_hw. With msa9_switch set and offload to the coprocessor not
 * requested, the CPU instruction is tried first, and any answer but EINVAL
 * (curve not supported there) is final. Otherwise the coprocessor tier
 * needs ecc_via_online_card (else ENODEV) and a loaded driver (else EIO);
 * only then is a request built, sent with one ioctl, its reply checked,
 * and the buffer wiped and freed. eckeygen_hw tests msa9_switch alone and
 * never looks at the handle.
 *
 * The ioctl is an oracle from the handle and the request to a return code
 * and a reply; the reply types carry the fixed sizes of the reply structs.
 * The instruction parameter block, a stack union in the source, is a fresh
 * array of each call.
 */
module Dispatch {
  import opened Wrappers
  import opened Bytes
  import opened Curves
  import opened Status
  import opened Cpacf
  import opened Cca
  import opened Software

  /** The process-wide switches msa9_switch, ica_offload_enabled and ecc_via_online_card. */
  datatype Config = Config(msa9Switch: bool, offloadEnabled: bool, viaOnlineCard: bool)

  /** The adapter handle: DRIVER_NOT_LOADED, or an open device. */
  datatype Handle = DriverNotLoaded | Adapter(fd: int)

  /** Where a call goes after the CPU tier: its answer, a refusal, or the coprocessor. */
  datatype Route = ReturnCpu(rc: int) | Refuse(rc: int) | UseCard

  /** What happens to the request buffer: none was allocated, or it was cleansed and freed. */
  datatype BufferFate = NoBuffer | WipedAndFreed

  /** A tier's return code and the bytes it writes to the caller's output, if any. */
  datatype TierAnswer = TierAnswer(rc: int, written: Option<seq<byte>>)

  /** The return code of an entry point, its output bytes, and the request buffer's fate. */
  datatype HwResult = HwResult(rc: int, written: Option<seq<byte>>, fate: BufferFate)

  /** The condition under which ecdh_hw, ecdsa_sign_hw and ecdsa_verify_hw try the CPU first. */
  predicate CpuFirst(cfg: Config)
  {
    cfg.msa9Switch && !cfg.offloadEnabled
  }

  /**
   * The decision every entry point makes: `cpu` is the CPU tier's return
   * code when it was tried. Anything but EINVAL is returned unchanged;
   * then ENODEV without an online card, EIO without a driver, and only
   * then the coprocessor.
   */
  function Decide(cpu: Option<int>, viaOnlineCard: bool, driverLoaded: bool): (r: Route)
    ensures r.ReturnCpu? <==> cpu.Some? && cpu.value != EINVAL
    ensures r.ReturnCpu? ==> r.rc == cpu.value
    ensures r.Refuse? && r.rc == ENODEV <==> (cpu.None? || cpu.value == EINVAL) && !viaOnlineCard
    ensures r.Refuse? && r.rc == EIO <==> (cpu.None? || cpu.value == EINVAL) && viaOnlineCard && !driverLoaded
    ensures r.UseCard? <==> (cpu.None? || cpu.value == EINVAL) && viaOnlineCard && driverLoaded
  {
    if cpu.Some? && cpu.value != EINVAL then ReturnCpu(cpu.value)
    else if !viaOnlineCard then Refuse(ENODEV)
    else if !driverLoaded then Refuse(EIO)
    else UseCard
  }

  /** An EINVAL from the CPU tier leaves the decision as if the CPU had not been tried. */
  lemma EinvalFallsThrough(viaOnlineCard: bool, driverLoaded: bool)
    ensures Decide(Some(EINVAL), viaOnlineCard, driverLoaded) == Decide(None, viaOnlineCard, driverLoaded)
  {
  }

  /** No decision hands EINVAL back to the caller: the CPU tier's EINVAL always falls through. */
  lemma DecisionNeverEinval(cpu: Option<int>, viaOnlineCard: bool, driverLoaded: bool)
    ensures var r := Decide(cpu, viaOnlineCard, driverLoaded);
      r.UseCard? || r.rc != EINVAL
  {
  }

  // ---------------------------------------------------------------------
  // The ioctl and the reply checks

  /** The ioctl's return code and the reply region the coprocessor filled. */
  datatype IoctlOutcome<R> = IoctlOutcome(rc: int, reply: R)

  /** ECDH_REPLY: the key_len field and the raw_z_value field. */
  datatype EcdhReply = EcdhReply(keyLen: nat, rawZ: seq<byte>)

  /** ECDSA_SIGN_REPLY: the vud_len field and the signature field. */
  datatype SignReply = SignReply(vudLen: nat, signature: seq<byte>)

  /** The CPRBX return and reason codes of an ECDSA verify reply. */
  datatype VerifyReply = VerifyReply(rtcode: int, rscode: int)

  /** ECKEYGEN_REPLY: the private section's formatted_data_len and key, the public token's compress flag and point.
    * The public token is given directly; the offset at which the reply places it (privsec.section_len) is not modelled. */
  datatype KeygenReply = KeygenReply(formattedDataLen: nat, privkey: seq<byte>, compressFlag: byte, pubkey: seq<byte>)

  type EcdhIoctl = f: (Handle, Request) -> IoctlOutcome<EcdhReply>
    | forall h: Handle, r: Request :: |f(h, r).reply.rawZ| >= MaxEccPrivSize
    witness (h: Handle, r: Request) => IoctlOutcome(0, EcdhReply(0, Zeros(MaxEccPrivSize)))

  type SignIoctl = f: (Handle, Request) -> IoctlOutcome<SignReply>
    | forall h: Handle, r: Request :: |f(h, r).reply.signature| >= 2 * MaxEccPrivSize
    witness (h: Handle, r: Request) => IoctlOutcome(0, SignReply(0, Zeros(2 * MaxEccPrivSize)))

  type VerifyIoctl = (Handle, Request) -> IoctlOutcome<VerifyReply>

  type KeygenIoctl = f: (Handle, Request) -> IoctlOutcome<KeygenReply>
    | forall h: Handle, r: Request ::
        |f(h, r).reply.privkey| >= MaxEccPrivSize && |f(h, r).reply.pubkey| >= 2 * MaxEccPrivSize
    witness (h: Handle, r: Request) => IoctlOutcome(0, KeygenReply(0, Zeros(MaxEccPrivSize), 0, Zeros(2 * MaxEccPrivSize)))

  /** RS_SIGNATURE_INVALID, the reason code of a signature the coprocessor rejects; its value is in a header not part of this model. */
  const RsSignatureInvalid: int

  /** The reply check of ecdh_hw: the shared secret is copied out only when key_len - 4 is privlen. */
  function EcdhAnswer(privlen: nat, o: IoctlOutcome<EcdhReply>): (t: TierAnswer)
    requires privlen <= |o.reply.rawZ|
    ensures t.rc == OK <==> o.rc == 0 && o.reply.keyLen == privlen + 4
    ensures t.rc == OK || t.rc == EIO
    ensures t.written.Some? <==> t.rc == OK
    ensures t.written.Some? ==> t.written.value == o.reply.rawZ[..privlen]
  {
    if o.rc != 0 || o.reply.keyLen - 4 != privlen then TierAnswer(EIO, None)
    else TierAnswer(OK, Some(o.reply.rawZ[..privlen]))
  }

  /** The reply check of ecdsa_sign_hw: vud_len - 8 bytes of signature are copied out only when that is 2 * privlen. */
  function SignAnswer(privlen: nat, o: IoctlOutcome<SignReply>): (t: TierAnswer)
    requires 2 * privlen <= |o.reply.signature|
    ensures t.rc == OK <==> o.rc == 0 && o.reply.vudLen == 2 * privlen + 8
    ensures t.rc == OK || t.rc == EIO
    ensures t.written.Some? <==> t.rc == OK
    ensures t.written.Some? ==>
      && |t.written.value| == 2 * privlen
      && t.written.value == o.reply.signature[..o.reply.vudLen - 8]
  {
    if o.rc != 0 || o.reply.vudLen - 8 != 2 * privlen then TierAnswer(EIO, None)
    else TierAnswer(OK, Some(o.reply.signature[..o.reply.vudLen - 8]))
  }

  /**
   * The reply check of ecdsa_verify_hw: return code 4 with reason
   * RS_SIGNATURE_INVALID is an invalid signature (EFAULT); any other
   * nonzero code, or a failing ioctl, is EIO.
   */
  function VerifyAnswer(o: IoctlOutcome<VerifyReply>): (rc: int)
    ensures rc == OK || rc == EFAULT || rc == EIO
    ensures rc == OK <==> o.rc == 0 && o.reply.rtcode == 0 && o.reply.rscode == 0
    ensures rc == EFAULT <==> o.rc == 0 && o.reply.rtcode == 4 && o.reply.rscode == RsSignatureInvalid
  {
    if o.rc != 0 then EIO
    else if o.reply.rtcode == 4 && o.reply.rscode == RsSignatureInvalid then EFAULT
    else if o.reply.rtcode != 0 || o.reply.rscode != 0 then EIO
    else OK
  }

  /** What a key generation writes: its return code, the bytes of D, and the bytes of X followed by Y. */
  datatype KeyWrites = KeyWrites(rc: int, d: Option<seq<byte>>, xy: Option<seq<byte>>)

  /**
   * The reply check of eckeygen_hw: D is copied once formatted_data_len
   * is privlen, before the compress flag is looked at, so a reply with a
   * bad flag returns EIO with D already written.
   */
  function KeygenAnswer(privlen: nat, o: IoctlOutcome<KeygenReply>): (w: KeyWrites)
    requires privlen <= |o.reply.privkey| && 2 * privlen <= |o.reply.pubkey|
    ensures w.rc == OK <==> o.rc == 0 && o.reply.formattedDataLen == privlen && o.reply.compressFlag == 4
    ensures w.rc == OK || w.rc == EIO
    ensures w.d.Some? <==> o.rc == 0 && o.reply.formattedDataLen == privlen
    ensures w.d.Some? ==> w.d.value == o.reply.privkey[..privlen]
    ensures w.xy.Some? <==> w.rc == OK
    ensures w.xy.Some? ==> w.xy.value == o.reply.pubkey[..2 * privlen]
  {
    if o.rc != 0 || o.reply.formattedDataLen != privlen then KeyWrites(EIO, None, None)
    else if o.reply.compressFlag != 4 then KeyWrites(EIO, Some(o.reply.privkey[..privlen]), None)
    else KeyWrites(OK, Some(o.reply.privkey[..privlen]), Some(o.reply.pubkey[..2 * privlen]))
  }

  /** A failing reply check never hands out the bytes of ECDH or signature replies. */
  lemma RejectedRepliesWriteNothing(privlen: nat, e: IoctlOutcome<EcdhReply>, s: IoctlOutcome<SignReply>)
    requires privlen <= |e.reply.rawZ| && 2 * privlen <= |s.reply.signature|
    ensures EcdhAnswer(privlen, e).rc != OK ==> EcdhAnswer(privlen, e).written.None?
    ensures SignAnswer(privlen, s).rc != OK ==> SignAnswer(privlen, s).written.None?
  {
  }

  /** An accepted signature reply splits into r and s, privlen bytes each. */
  lemma AcceptedSignatureHalves(privlen: nat, o: IoctlOutcome<SignReply>)
    requires 2 * privlen <= |o.reply.signature|
    requires SignAnswer(privlen, o).rc == OK
    ensures var sig := SignAnswer(privlen, o).written.value;
      sig == o.reply.signature[..privlen] + o.reply.signature[privlen .. 2 * privlen]
  {
    var sig := SignAnswer(privlen, o).written.value;
    assert sig == o.reply.signature[..2 * privlen];
    assert o.reply.signature[..2 * privlen] == o.reply.signature[..privlen] + o.reply.signature[privlen .. 2 * privlen];
  }

  // ---------------------------------------------------------------------
  // ecdh_hw

  /** The operands of ecdh_hw: A's private scalar and B's public point, privlen bytes each. */
  predicate EcdhOperands(a: EcKey, b: EcKey)
  {
    && Registered(a.curve) && b.x.Some? && b.y.Some?
    && (a.curve.privlen > 0 ==>
          |a.d| == a.curve.privlen && |b.x.value| == a.curve.privlen && |b.y.value| == a.curve.privlen)
  }

  /** What scalar_mul_cpacf gives ecdh_hw: the X coordinate of d * B, written even when the instruction fails. */
  function EcdhCpu(pcc: Pcc, a: EcKey, b: EcKey): (t: TierAnswer)
    requires EcdhOperands(a, b)
    ensures t.rc == EINVAL <==> ScalarMulFunction(a.curve.nid).None?
    ensures t.rc == OK || t.rc == EIO || t.rc == EINVAL
    ensures t.written.Some? <==> t.rc != EINVAL
    ensures t.written.Some? ==> |t.written.value| == a.curve.privlen
  {
    match ScalarMulFunction(a.curve.nid)
    case None => TierAnswer(EINVAL, None)
    case Some(f) =>
      var s := PccField(f);
      var out := pcc(f, ScalarMulBlock(f, a.d, b.x.value, b.y.value));
      TierAnswer(if out.failed then EIO else OK, Some(out.after[s - a.curve.privlen .. s]))
  }

  function EcdhRoute(cfg: Config, h: Handle, pcc: Pcc, a: EcKey, b: EcKey): Route
    requires EcdhOperands(a, b)
  {
    Decide(if CpuFirst(cfg) then Some(EcdhCpu(pcc, a, b).rc) else None, cfg.viaOnlineCard, h != DriverNotLoaded)
  }

  /**
   * ecdh_hw's result. It never returns EINVAL; a buffer is allocated (and
   * then wiped and freed) exactly when the call reaches the coprocessor
   * tier with a curve it supports; the coprocessor writes the secret only
   * on success.
   */
  function EcdhHwResult(cfg: Config, h: Handle, pcc: Pcc, ioctl: EcdhIoctl, allocates: bool, domain: int,
                        a: EcKey, b: EcKey): (r: HwResult)
    requires EcdhOperands(a, b)
    ensures r.rc == OK || r.rc == EIO || r.rc == ENODEV
    ensures r.rc == ENODEV <==> (!CpuFirst(cfg) || EcdhCpu(pcc, a, b).rc == EINVAL) && !cfg.viaOnlineCard
    ensures r.fate == WipedAndFreed <==>
      EcdhRoute(cfg, h, pcc, a, b).UseCard? && a.curve.curveType >= 0 && allocates
    ensures r.fate == WipedAndFreed ==> (r.written.Some? <==> r.rc == OK)
    ensures r.written.Some? ==> |r.written.value| == a.curve.privlen
  {
    match EcdhRoute(cfg, h, pcc, a, b)
    case ReturnCpu(rc) => HwResult(rc, EcdhCpu(pcc, a, b).written, NoBuffer)
    case Refuse(rc) => HwResult(rc, None, NoBuffer)
    case UseCard => EcdhCard(h, ioctl, allocates, domain, a, b)
  }

  /**
   * The coprocessor tier of ecdh_hw: a buffer exactly for a curve with a
   * coprocessor curve type, the secret written only when the reply is
   * accepted.
   */
  function EcdhCard(h: Handle, ioctl: EcdhIoctl, allocates: bool, domain: int, a: EcKey, b: EcKey): (r: HwResult)
    requires EcdhOperands(a, b)
    ensures r.fate == WipedAndFreed <==> a.curve.curveType >= 0 && allocates
    ensures r.rc == OK || r.rc == EIO
    ensures r.written.Some? <==> r.rc == OK
    ensures r.written.Some? ==> r.fate == WipedAndFreed && |r.written.value| == a.curve.privlen
  {
    if a.curve.curveType < 0 || !allocates then HwResult(EIO, None, NoBuffer)
    else
      var t := EcdhAnswer(a.curve.privlen, ioctl(h, EcdhRequest(a, b, domain)));
      HwResult(t.rc, t.written, WipedAndFreed)
  }

  /**
   * ecdh_hw: the shared secret Z of private key A and public key B, into
   * the caller's buffer z.
   */
  method EcdhHw(cfg: Config, h: Handle, pcc: Pcc, ioctl: EcdhIoctl, allocates: bool, domain: int,
                a: EcKey, b: EcKey, z: array<byte>) returns (rc: int, fate: BufferFate)
    requires EcdhOperands(a, b) && z.Length >= a.curve.privlen
    modifies z
    ensures var r := EcdhHwResult(cfg, h, pcc, ioctl, allocates, domain, a, b);
      && rc == r.rc && fate == r.fate
      && (r.written.None? ==> unchanged(z))
      && (r.written.Some? ==> z[..] == Overwrite(old(z[..]), 0, r.written.value))
  {
    if CpuFirst(cfg) {
      var cpuRc := EcdhOnCpu(pcc, a, b, z);
      if cpuRc != EINVAL {
        return cpuRc, NoBuffer;
      }
    }
    rc, fate := EcdhAfterCpu(cfg, h, pcc, ioctl, allocates, domain, a, b, z);
  }

  /** ecdh_hw once the CPU tier was skipped or answered EINVAL. */
  method EcdhAfterCpu(cfg: Config, h: Handle, pcc: Pcc, ioctl: EcdhIoctl, allocates: bool, domain: int,
                      a: EcKey, b: EcKey, z: array<byte>) returns (rc: int, fate: BufferFate)
    requires EcdhOperands(a, b) && z.Length >= a.curve.privlen
    requires !EcdhRoute(cfg, h, pcc, a, b).ReturnCpu?
    modifies z
    ensures var r := EcdhHwResult(cfg, h, pcc, ioctl, allocates, domain, a, b);
      && rc == r.rc && fate == r.fate
      && (r.written.None? ==> unchanged(z))
      && (r.written.Some? ==> z[..] == Overwrite(old(z[..]), 0, r.written.value))
  {
    if !cfg.viaOnlineCard {
      return ENODEV, NoBuffer;
    }
    if h == DriverNotLoaded {
      return EIO, NoBuffer;
    }
    rc, fate := EcdhOnCard(h, ioctl, allocates, domain, a, b, z);
  }

  /** scalar_mul_cpacf called from ecdh_hw: the X coordinate goes to the caller's buffer. */
  method EcdhOnCpu(pcc: Pcc, a: EcKey, b: EcKey, z: array<byte>) returns (rc: int)
    requires EcdhOperands(a, b) && z.Length >= a.curve.privlen
    modifies z
    ensures var t := EcdhCpu(pcc, a, b);
      && rc == t.rc
      && (t.written.None? ==> unchanged(z))
      && (t.written.Some? ==> z[..] == Overwrite(old(z[..]), 0, t.written.value))
  {
    var param := new byte[ParamBlockSize];
    var resX, resY;
    rc, resX, resY := ScalarMulCpacf(param, pcc, a.curve, a.d, b.x.value, b.y.value, true, false);
    if rc != EINVAL {
      CopyInto(z, 0, resX.value);
    }
  }

  /** The coprocessor tier of ecdh_hw, after both gates have passed. */
  method EcdhOnCard(h: Handle, ioctl: EcdhIoctl, allocates: bool, domain: int, a: EcKey, b: EcKey,
                    z: array<byte>) returns (rc: int, fate: BufferFate)
    requires EcdhOperands(a, b) && z.Length >= a.curve.privlen
    modifies z
    ensures var r := EcdhCard(h, ioctl, allocates, domain, a, b);
      && rc == r.rc && fate == r.fate
      && (r.written.None? ==> unchanged(z))
      && (r.written.Some? ==> z[..] == Overwrite(old(z[..]), 0, r.written.value))
  {
    var req := MakeEcdhRequest(a, b, domain, allocates);
    if req.None? {
      return EIO, NoBuffer;
    }
    var out := ioctl(h, req.value);
    fate := WipedAndFreed;
    if out.rc != 0 || out.reply.keyLen - 4 != a.curve.privlen {
      return EIO, fate;
    }
    CopyInto(z, 0, out.reply.rawZ[..a.curve.privlen]);
    rc := OK;
  }

  // ---------------------------------------------------------------------
  // ecdsa_sign_hw

  /**
   * The operands of ecdsa_sign_hw: a privlen-byte D, X and Y of privlen
   * bytes when the key carries both, and OpenSSL's public point below
   * 256^privlen.
   */
  predicate SignOperands(k: EcKey, point: Option<Point>)
  {
    && Registered(k.curve)
    && (k.curve.privlen > 0 ==>
          && |k.d| == k.curve.privlen
          && (k.x.Some? && k.y.Some? ==> |k.x.value| == k.curve.privlen && |k.y.value| == k.curve.privlen)
          && (point.Some? ==> point.value.x < Pow256(k.curve.privlen) && point.value.y < Pow256(k.curve.privlen)))
  }

  /** What ecdsa_sign_cpacf gives ecdsa_sign_hw: the instruction's condition code and r || s. */
  function SignCpu(kdsa: Kdsa, k: EcKey, hash: seq<byte>): (t: TierAnswer)
    requires Registered(k.curve) && (k.curve.privlen > 0 ==> |k.d| == k.curve.privlen)
    ensures t.rc == EINVAL <==> SignFunction(k.curve.nid).None?
    ensures t.rc != EINVAL ==> 0 <= t.rc <= 3
    ensures t.rc == EINVAL ==> t.written.None?
    ensures t.written.Some? <==> SignFunction(k.curve.nid).Some?
    ensures t.written.Some? ==> |t.written.value| == 2 * k.curve.privlen
  {
    match SignFunction(k.curve.nid)
    case None => TierAnswer(EINVAL, None)
    case Some(f) =>
      var out := kdsa(f, false, SignBlock(f, hash, k.d));
      TierAnswer(out.rc, Some(SignatureOf(KdsaField(f), |k.d|, out.after)))
  }

  function SignRoute(cfg: Config, h: Handle, kdsa: Kdsa, k: EcKey, hash: seq<byte>): Route
    requires Registered(k.curve) && (k.curve.privlen > 0 ==> |k.d| == k.curve.privlen)
  {
    Decide(if CpuFirst(cfg) then Some(SignCpu(kdsa, k, hash).rc) else None, cfg.viaOnlineCard, h != DriverNotLoaded)
  }

  /**
   * The coprocessor tier of ecdsa_sign_hw: the public key is provided
   * first (its failure is EIO without a buffer); a buffer is allocated
   * exactly when that succeeds for a supported curve; the signature is
   * written only when the reply is accepted.
   */
  function SignCard(h: Handle, ioctl: SignIoctl, point: Option<Point>, allocates: bool, domain: int,
                    k: EcKey, hash: seq<byte>): (r: HwResult)
    requires SignOperands(k, point)
    ensures r.fate == WipedAndFreed <==> ProvidedPubkey(k, point).Some? && k.curve.curveType >= 0 && allocates
    ensures r.rc == OK || r.rc == EIO
    ensures r.written.Some? <==> r.rc == OK
    ensures r.written.Some? ==> r.fate == WipedAndFreed && |r.written.value| == 2 * k.curve.privlen
  {
    match ProvidedPubkey(k, point)
    case None => HwResult(EIO, None, NoBuffer)
    case Some(xy) => SignExchange(h, ioctl, allocates, domain, k, xy.0, xy.1, hash)
  }

  /** The request, ioctl and reply check of the coprocessor tier, once the public key is at hand. */
  function SignExchange(h: Handle, ioctl: SignIoctl, allocates: bool, domain: int,
                        k: EcKey, x: seq<byte>, y: seq<byte>, hash: seq<byte>): (r: HwResult)
    requires Registered(k.curve) && k.curve.privlen > 0
    requires |k.d| == |x| == |y| == k.curve.privlen
    ensures r.fate == WipedAndFreed <==> k.curve.curveType >= 0 && allocates
    ensures r.written.Some? <==> r.rc == OK
    ensures r.written.Some? ==> r.fate == WipedAndFreed && |r.written.value| == 2 * k.curve.privlen
  {
    if k.curve.curveType < 0 || !allocates then HwResult(EIO, None, NoBuffer)
    else
      var t := SignAnswer(k.curve.privlen, ioctl(h, EcdsaSignRequest(k, x, y, hash, domain)));
      HwResult(t.rc, t.written, WipedAndFreed)
  }

  /** ecdsa_sign_hw's result: the CPU tier's answer, a refusal, or the coprocessor tier's. */
  function SignHwResult(cfg: Config, h: Handle, kdsa: Kdsa, ioctl: SignIoctl, point: Option<Point>,
                        allocates: bool, domain: int, k: EcKey, hash: seq<byte>): (r: HwResult)
    requires SignOperands(k, point)
    ensures r.fate == WipedAndFreed <==>
      && SignRoute(cfg, h, kdsa, k, hash).UseCard?
      && ProvidedPubkey(k, point).Some? && k.curve.curveType >= 0 && allocates
    ensures CpuFirst(cfg) && SignCpu(kdsa, k, hash).rc != EINVAL ==>
      r == HwResult(SignCpu(kdsa, k, hash).rc, SignCpu(kdsa, k, hash).written, NoBuffer)
    ensures r.written.Some? ==> |r.written.value| == 2 * k.curve.privlen
    ensures r.rc != EINVAL
    ensures r.rc == OK || r.rc == EIO || r.rc == ENODEV || (CpuFirst(cfg) && r.rc == SignCpu(kdsa, k, hash).rc)
    ensures r.written.Some? && r.rc != OK ==> CpuFirst(cfg)
  {
    match SignRoute(cfg, h, kdsa, k, hash)
    case ReturnCpu(rc) => HwResult(rc, SignCpu(kdsa, k, hash).written, NoBuffer)
    case Refuse(rc) => HwResult(rc, None, NoBuffer)
    case UseCard => SignCard(h, ioctl, point, allocates, domain, k, hash)
  }

  /** ecdsa_sign_cpacf called from ecdsa_sign_hw, without a nonce callback, writing into the caller's buffer. */
  method SignOnCpu(kdsa: Kdsa, k: EcKey, hash: seq<byte>, signature: array<byte>) returns (rc: int)
    requires Registered(k.curve) && (k.curve.privlen > 0 ==> |k.d| == k.curve.privlen)
    requires signature.Length >= 2 * k.curve.privlen
    modifies signature
    ensures var t := SignCpu(kdsa, k, hash);
      && rc == t.rc
      && (t.written.None? ==> unchanged(signature))
      && (t.written.Some? ==> signature[..] == Overwrite(old(signature[..]), 0, t.written.value))
  {
    var param := new byte[ParamBlockSize];
    var sig;
    ghost var attempts;
    rc, sig, attempts := EcdsaSignCpacf(param, kdsa, k, hash, None);
    if sig.Some? {
      CopyInto(signature, 0, sig.value);
    }
  }

  /** The coprocessor tier of ecdsa_sign_hw, after both gates have passed. */
  method SignOnCard(h: Handle, ioctl: SignIoctl, point: Option<Point>, allocates: bool, domain: int,
                    k: EcKey, hash: seq<byte>, signature: array<byte>) returns (rc: int, fate: BufferFate)
    requires SignOperands(k, point) && signature.Length >= 2 * k.curve.privlen
    modifies signature
    ensures var r := SignCard(h, ioctl, point, allocates, domain, k, hash);
      && rc == r.rc && fate == r.fate
      && (r.written.None? ==> unchanged(signature))
      && (r.written.Some? ==> signature[..] == Overwrite(old(signature[..]), 0, r.written.value))
  {
    var pubRc, px, py := FetchPubkey(k, point);
    if pubRc != OK {
      return EIO, NoBuffer;
    }
    rc, fate := SendSignRequest(h, ioctl, allocates, domain, k, px, py, hash, signature);
  }

  /** provide_pubkey into the two local buffers of ecdsa_sign_hw, and their first privlen bytes. */
  method FetchPubkey(k: EcKey, point: Option<Point>) returns (rc: int, px: seq<byte>, py: seq<byte>)
    requires Registered(k.curve)
    requires k.curve.privlen > 0 && k.x.Some? && k.y.Some? ==>
      |k.x.value| == k.curve.privlen && |k.y.value| == k.curve.privlen
    requires k.curve.privlen > 0 && point.Some? ==>
      point.value.x < Pow256(k.curve.privlen) && point.value.y < Pow256(k.curve.privlen)
    ensures rc == OK <==> ProvidedPubkey(k, point).Some?
    ensures rc == OK ==> (px, py) == ProvidedPubkey(k, point).value
  {
    var x := new byte[MaxEccPrivSize];
    var y := new byte[MaxEccPrivSize];
    rc := ProvidePubkey(k, point, x, y);
    if rc != OK {
      return rc, [], [];
    }
    var n := k.curve.privlen;
    px, py := x[..n], y[..n];
  }

  /** make_ecdsa_sign_request, the ioctl and the reply check of ecdsa_sign_hw. */
  method SendSignRequest(h: Handle, ioctl: SignIoctl, allocates: bool, domain: int,
                         k: EcKey, x: seq<byte>, y: seq<byte>, hash: seq<byte>, signature: array<byte>)
    returns (rc: int, fate: BufferFate)
    requires Registered(k.curve) && k.curve.privlen > 0
    requires |k.d| == |x| == |y| == k.curve.privlen && signature.Length >= 2 * k.curve.privlen
    modifies signature
    ensures var r := SignExchange(h, ioctl, allocates, domain, k, x, y, hash);
      && rc == r.rc && fate == r.fate
      && (r.written.None? ==> unchanged(signature))
      && (r.written.Some? ==> signature[..] == Overwrite(old(signature[..]), 0, r.written.value))
  {
    var n := k.curve.privlen;
    var req := MakeEcdsaSignRequest(k, x, y, hash, domain, allocates);
    if req.None? {
      return EIO, NoBuffer;
    }
    var out := ioctl(h, req.value);
    fate := WipedAndFreed;
    if out.rc != 0 || out.reply.vudLen - 8 != 2 * n {
      return EIO, fate;
    }
    CopyInto(signature, 0, out.reply.signature[..out.reply.vudLen - 8]);
    rc := OK;
  }

  /**
   * ecdsa_sign_hw: signs the hash with the private key into the caller's
   * signature buffer. `point` is OpenSSL's d * G for provide_pubkey.
   */
  method EcdsaSignHw(cfg: Config, h: Handle, kdsa: Kdsa, ioctl: SignIoctl, point: Option<Point>,
                     allocates: bool, domain: int, k: EcKey, hash: seq<byte>, signature: array<byte>)
    returns (rc: int, fate: BufferFate)
    requires SignOperands(k, point) && signature.Length >= 2 * k.curve.privlen
    modifies signature
    ensures var r := SignHwResult(cfg, h, kdsa, ioctl, point, allocates, domain, k, hash);
      && rc == r.rc && fate == r.fate
      && (r.written.None? ==> unchanged(signature))
      && (r.written.Some? ==> signature[..] == Overwrite(old(signature[..]), 0, r.written.value))
  {
    if CpuFirst(cfg) {
      var cpuRc := SignOnCpu(kdsa, k, hash, signature);
      if cpuRc != EINVAL {
        return cpuRc, NoBuffer;
      }
    }
    rc, fate := SignAfterCpu(cfg, h, kdsa, ioctl, point, allocates, domain, k, hash, signature);
  }

  /** ecdsa_sign_hw once the CPU tier was skipped or answered EINVAL. */
  method SignAfterCpu(cfg: Config, h: Handle, kdsa: Kdsa, ioctl: SignIoctl, point: Option<Point>,
                      allocates: bool, domain: int, k: EcKey, hash: seq<byte>, signature: array<byte>)
    returns (rc: int, fate: BufferFate)
    requires SignOperands(k, point) && signature.Length >= 2 * k.curve.privlen
    requires !SignRoute(cfg, h, kdsa, k, hash).ReturnCpu?
    modifies signature
    ensures var r := SignHwResult(cfg, h, kdsa, ioctl, point, allocates, domain, k, hash);
      && rc == r.rc && fate == r.fate
      && (r.written.None? ==> unchanged(signature))
      && (r.written.Some? ==> signature[..] == Overwrite(old(signature[..]), 0, r.written.value))
  {
    if !cfg.viaOnlineCard {
      return ENODEV, NoBuffer;
    }
    if h == DriverNotLoaded {
      return EIO, NoBuffer;
    }
    rc, fate := SignOnCard(h, ioctl, point, allocates, domain, k, hash, signature);
  }

  // ---------------------------------------------------------------------
  // ecdsa_verify_hw

  /** The operands of ecdsa_verify_hw: a public key of privlen-byte X and Y and a 2 * privlen-byte signature. */
  predicate VerifyOperands(k: EcKey, signature: seq<byte>)
  {
    && Registered(k.curve) && k.x.Some? && k.y.Some?
    && (k.curve.privlen > 0 ==>
          && |k.x.value| == k.curve.privlen && |k.y.value| == k.curve.privlen
          && |signature| == 2 * k.curve.privlen)
  }

  /** What ecdsa_verify_cpacf gives ecdsa_verify_hw. */
  function VerifyCpu(kdsa: Kdsa, k: EcKey, hash: seq<byte>, signature: seq<byte>): (rc: int)
    requires VerifyOperands(k, signature)
    ensures rc == EINVAL <==> !IsNistPrime(k.curve.nid)
    ensures rc == OK || rc == EFAULT || rc == EINVAL
  {
    match VerifyFunction(k.curve.nid)
    case None => EINVAL
    case Some(f) =>
      if kdsa(f, false, VerifyBlock(f, hash, signature, k.x.value, k.y.value)).rc != 0 then EFAULT else OK
  }

  function VerifyRoute(cfg: Config, h: Handle, kdsa: Kdsa, k: EcKey, hash: seq<byte>, signature: seq<byte>): Route
    requires VerifyOperands(k, signature)
  {
    Decide(if CpuFirst(cfg) then Some(VerifyCpu(kdsa, k, hash, signature)) else None,
           cfg.viaOnlineCard, h != DriverNotLoaded)
  }

  /**
   * ecdsa_verify_hw's result: OK for a valid signature, EFAULT for one
   * either tier finds invalid, EIO or ENODEV otherwise, never EINVAL; a
   * buffer is allocated exactly when the coprocessor tier is reached with
   * a supported curve.
   */
  function VerifyHwResult(cfg: Config, h: Handle, kdsa: Kdsa, ioctl: VerifyIoctl, allocates: bool, domain: int,
                          k: EcKey, hash: seq<byte>, signature: seq<byte>): (r: HwResult)
    requires VerifyOperands(k, signature)
    ensures r.rc == OK || r.rc == EFAULT || r.rc == EIO || r.rc == ENODEV
    ensures r.written.None?
    ensures r.fate == WipedAndFreed <==>
      VerifyRoute(cfg, h, kdsa, k, hash, signature).UseCard? && k.curve.curveType >= 0 && allocates
  {
    match VerifyRoute(cfg, h, kdsa, k, hash, signature)
    case ReturnCpu(rc) => HwResult(rc, None, NoBuffer)
    case Refuse(rc) => HwResult(rc, None, NoBuffer)
    case UseCard =>
      if k.curve.curveType < 0 || !allocates then HwResult(EIO, None, NoBuffer)
      else HwResult(VerifyAnswer(ioctl(h, EcdsaVerifyRequest(k, hash, signature, domain))), None, WipedAndFreed)
  }

  /** ecdsa_verify_hw, with the request builder that checks the curve before allocating. */
  method EcdsaVerifyHw(cfg: Config, h: Handle, kdsa: Kdsa, ioctl: VerifyIoctl, allocates: bool, domain: int,
                       k: EcKey, hash: seq<byte>, signature: seq<byte>)
    returns (rc: int, fate: BufferFate)
    requires VerifyOperands(k, signature)
    ensures var r := VerifyHwResult(cfg, h, kdsa, ioctl, allocates, domain, k, hash, signature);
      rc == r.rc && fate == r.fate
  {
    if CpuFirst(cfg) {
      var param := new byte[ParamBlockSize];
      var cpuRc := EcdsaVerifyCpacf(param, kdsa, k, hash, signature);
      if cpuRc != EINVAL {
        return cpuRc, NoBuffer;
      }
    }
    if !cfg.viaOnlineCard {
      return ENODEV, NoBuffer;
    }
    if h == DriverNotLoaded {
      return EIO, NoBuffer;
    }
    rc, fate := VerifyOnCard(h, ioctl, allocates, domain, k, hash, signature);
  }

  /** The coprocessor tier of ecdsa_verify_hw: EFAULT for a reply that rejects the signature, EIO for any other failure. */
  method VerifyOnCard(h: Handle, ioctl: VerifyIoctl, allocates: bool, domain: int,
                      k: EcKey, hash: seq<byte>, signature: seq<byte>)
    returns (rc: int, fate: BufferFate)
    requires VerifyOperands(k, signature)
    ensures k.curve.curveType < 0 || !allocates ==> rc == EIO && fate == NoBuffer
    ensures k.curve.curveType >= 0 && allocates ==>
      && rc == VerifyAnswer(ioctl(h, EcdsaVerifyRequest(k, hash, signature, domain)))
      && fate == WipedAndFreed
  {
    var req, leaked := MakeEcdsaVerifyRequest(k, hash, signature, domain, allocates);
    if req.None? {
      return EIO, NoBuffer;
    }
    var out := ioctl(h, req.value);
    fate := WipedAndFreed;
    if out.rc != 0 {
      return EIO, fate;
    }
    if out.reply.rtcode == 4 && out.reply.rscode == RsSignatureInvalid {
      return EFAULT, fate;
    }
    if out.reply.rtcode != 0 || out.reply.rscode != 0 {
      return EIO, fate;
    }
    rc := OK;
  }

  // ---------------------------------------------------------------------
  // eckeygen_hw

  /** eckeygen_hw's route: the CPU tier on msa9_switch alone, and the handle is never checked. */
  function KeygenRoute(cfg: Config, cpu: KeyWrites): Route
  {
    Decide(if cfg.msa9Switch then Some(cpu.rc) else None, cfg.viaOnlineCard, true)
  }

  /** The result of eckeygen_hw; `cpu` is what eckeygen_cpacf returned and wrote. */
  datatype KeygenResult = KeygenResult(rc: int, d: Option<seq<byte>>, xy: Option<seq<byte>>, fate: BufferFate)

  /**
   * eckeygen_hw's result: a buffer is allocated exactly when the CPU tier
   * is off or answered EINVAL, an online card is configured and the curve
   * has a coprocessor curve type, whatever the handle; D may be written
   * on the coprocessor tier while the call fails.
   */
  function EckeygenHwResult(cfg: Config, h: Handle, cpu: KeyWrites, ioctl: KeygenIoctl, allocates: bool,
                            domain: int, k: EcKey): (r: KeygenResult)
    requires Registered(k.curve)
    ensures r.fate == WipedAndFreed <==>
      (!cfg.msa9Switch || cpu.rc == EINVAL) && cfg.viaOnlineCard && k.curve.curveType >= 0 && allocates
    ensures r.fate == WipedAndFreed ==>
      && (r.rc == OK || r.rc == EIO)
      && (r.xy.Some? <==> r.rc == OK)
      && (r.d.Some? ==> |r.d.value| == k.curve.privlen)
      && (r.xy.Some? ==> |r.xy.value| == 2 * k.curve.privlen)
  {
    match KeygenRoute(cfg, cpu)
    case ReturnCpu(rc) => KeygenResult(rc, cpu.d, cpu.xy, NoBuffer)
    case Refuse(rc) => KeygenResult(rc, None, None, NoBuffer)
    case UseCard =>
      if k.curve.curveType < 0 || !allocates then KeygenResult(EIO, None, None, NoBuffer)
      else
        var w := KeygenAnswer(k.curve.privlen, ioctl(h, EckeygenRequest(k, domain)));
        KeygenResult(w.rc, w.d, w.xy, WipedAndFreed)
  }

  /**
   * eckeygen_hw: a key pair for the key's curve, D into bufD and X
   * followed by Y into bufXY (the one 2 * privlen copy into the key's X).
   */
  method EckeygenHw(cfg: Config, h: Handle, cpu: KeyWrites, ioctl: KeygenIoctl, allocates: bool, domain: int,
                    k: EcKey, bufD: array<byte>, bufXY: array<byte>) returns (rc: int, fate: BufferFate)
    requires Registered(k.curve) && bufD != bufXY
    requires bufD.Length >= k.curve.privlen && bufXY.Length >= 2 * k.curve.privlen
    requires cpu.d.Some? ==> |cpu.d.value| <= bufD.Length
    requires cpu.xy.Some? ==> |cpu.xy.value| <= bufXY.Length
    modifies bufD, bufXY
    ensures var r := EckeygenHwResult(cfg, h, cpu, ioctl, allocates, domain, k);
      && rc == r.rc && fate == r.fate
      && (r.d.None? ==> unchanged(bufD))
      && (r.d.Some? ==> bufD[..] == Overwrite(old(bufD[..]), 0, r.d.value))
      && (r.xy.None? ==> unchanged(bufXY))
      && (r.xy.Some? ==> bufXY[..] == Overwrite(old(bufXY[..]), 0, r.xy.value))
  {
    if cfg.msa9Switch {
      if cpu.rc != EINVAL {
        if cpu.d.Some? {
          CopyInto(bufD, 0, cpu.d.value);
        }
        if cpu.xy.Some? {
          CopyInto(bufXY, 0, cpu.xy.value);
        }
        return cpu.rc, NoBuffer;
      }
    }
    if !cfg.viaOnlineCard {
      return ENODEV, NoBuffer;
    }
    rc, fate := KeygenOnCard(cfg, h, cpu, ioctl, allocates, domain, k, bufD, bufXY);
  }

  /** The coprocessor tier of eckeygen_hw: D is written once the reply length fits, X and Y only once the flag does. */
  method KeygenOnCard(cfg: Config, h: Handle, cpu: KeyWrites, ioctl: KeygenIoctl, allocates: bool, domain: int,
                      k: EcKey, bufD: array<byte>, bufXY: array<byte>) returns (rc: int, fate: BufferFate)
    requires Registered(k.curve) && bufD != bufXY
    requires bufD.Length >= k.curve.privlen && bufXY.Length >= 2 * k.curve.privlen
    requires KeygenRoute(cfg, cpu).UseCard?
    modifies bufD, bufXY
    ensures var r := EckeygenHwResult(cfg, h, cpu, ioctl, allocates, domain, k);
      && rc == r.rc && fate == r.fate
      && (r.d.None? ==> unchanged(bufD))
      && (r.d.Some? ==> bufD[..] == Overwrite(old(bufD[..]), 0, r.d.value))
      && (r.xy.None? ==> unchanged(bufXY))
      && (r.xy.Some? ==> bufXY[..] == Overwrite(old(bufXY[..]), 0, r.xy.value))
  {
    var req := MakeEckeygenRequest(k, domain, allocates);
    if req.None? {
      return EIO, NoBuffer;
    }
    var n := k.curve.privlen;
    var out := ioctl(h, req.value);
    fate := WipedAndFreed;
    if out.rc != 0 || out.reply.formattedDataLen != n {
      return EIO, fate;
    }
    CopyInto(bufD, 0, out.reply.privkey[..n]);
    if out.reply.compressFlag != 4 {
      return EIO, fate;
    }
    CopyInto(bufXY, 0, out.reply.pubkey[..2 * n]);
    rc := OK;
  }

  // ---------------------------------------------------------------------
  // The driver gate

  /**
   * With DRIVER_NOT_LOADED, ecdh_hw, ecdsa_sign_hw and ecdsa_verify_hw
   * never allocate a request, while eckeygen_hw sends one whenever its
   * other gates pass.
   */
  lemma DriverGate(cfg: Config, pcc: Pcc, kdsa: Kdsa, cpu: KeyWrites, point: Option<Point>, allocates: bool, domain: int,
                   ecdhIoctl: EcdhIoctl, signIoctl: SignIoctl, verifyIoctl: VerifyIoctl, keygenIoctl: KeygenIoctl,
                   a: EcKey, b: EcKey, k: EcKey, hash: seq<byte>, signature: seq<byte>)
    requires EcdhOperands(a, b) && SignOperands(k, point) && VerifyOperands(k, signature)
    ensures EcdhHwResult(cfg, DriverNotLoaded, pcc, ecdhIoctl, allocates, domain, a, b).fate == NoBuffer
    ensures SignHwResult(cfg, DriverNotLoaded, kdsa, signIoctl, point, allocates, domain, k, hash).fate == NoBuffer
    ensures VerifyHwResult(cfg, DriverNotLoaded, kdsa, verifyIoctl, allocates, domain, k, hash, signature).fate == NoBuffer
    ensures (!cfg.msa9Switch || cpu.rc == EINVAL) && cfg.viaOnlineCard && k.curve.curveType >= 0 && allocates ==>
      EckeygenHwResult(cfg, DriverNotLoaded, cpu, keygenIoctl, allocates, domain, k).fate == WipedAndFreed
  {
  }
}
