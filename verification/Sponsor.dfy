/** `SubmitSponsoredTransaction`: the quorum's signatures, their bitmap and the
    envelope, joined to a verifier that reads the envelope back. */
module Sponsor {
  import opened Wrappers
  import opened Uleb128
  import opened MultisigCodec
  import opened Quorum

  // ----- `bitmap |= 1 << uint(i)` on sixteen bits -----

  function Pow2(n: nat): (p: nat)
    ensures p > 0
  {
    if n == 0 then 1 else 2 * Pow2(n - 1)
  }

  function BitOr(a: nat, b: nat): nat
    decreases a + b
  {
    if a == 0 && b == 0 then 0
    else 2 * BitOr(a / 2, b / 2) + if a % 2 == 1 || b % 2 == 1 then 1 else 0
  }

  /** The low `n` of sixteen bits. */
  function LowBits(n: nat): (mask: uint16) {
    LowBitsFit(n);
    Pow2(if n < 16 then n else 16) - 1
  }

  lemma {:induction false} Pow2Monotone(m: nat, n: nat)
    requires m <= n
    ensures Pow2(m) <= Pow2(n)
    decreases n
  {
    if m == n {
    } else {
      Pow2Monotone(m, n - 1);
    }
  }

  lemma Pow2Values()
    ensures Pow2(15) == 0x8000 && Pow2(16) == 0x1_0000
  {
    assert Pow2(5) == 32;
    assert Pow2(10) == 1024;
    assert Pow2(15) == 0x8000;
  }

  lemma LowBitsFit(n: nat)
    ensures Pow2(if n < 16 then n else 16) <= 0x1_0000
  {
    Pow2Monotone(if n < 16 then n else 16, 16);
    Pow2Values();
  }

  lemma {:induction false} OrNextBit(n: nat)
    ensures BitOr(Pow2(n) - 1, Pow2(n)) == Pow2(n + 1) - 1
  {
    if n == 0 {
    } else {
      OrNextBit(n - 1);
      assert (Pow2(n) - 1) / 2 == Pow2(n - 1) - 1 && (Pow2(n) - 1) % 2 == 1;
    }
  }

  lemma {:induction false} OrZero(a: nat)
    ensures BitOr(a, 0) == a
  {
    if a == 0 {
    } else {
      OrZero(a / 2);
    }
  }

  lemma {:induction false} ShiftedOut(n: nat)
    requires n >= 16
    ensures Pow2(n) % 0x1_0000 == 0
  {
    if n == 16 {
      Pow2Values();
    } else {
      ShiftedOut(n - 1);
    }
  }

  /** One turn of the loop: the sixteenth shift and all later ones yield zero. */
  lemma SetNextBit(n: nat)
    ensures BitOr(LowBits(n), Pow2(n) % 0x1_0000) == LowBits(n + 1)
  {
    if n < 16 {
      Pow2Monotone(n, 15);
      Pow2Values();
      assert Pow2(n) % 0x1_0000 == Pow2(n);
      OrNextBit(n);
    } else {
      ShiftedOut(n);
      OrZero(LowBits(n));
    }
  }

  // ----- The verifier -----

  /** The positions of the set bits, lowest first. */
  function SetBits(bitmap: nat, from: nat): seq<nat> {
    if bitmap == 0 then []
    else (if bitmap % 2 == 1 then [from] else []) + SetBits(bitmap / 2, from + 1)
  }

  function Range(from: nat, n: nat): (r: seq<nat>)
    ensures |r| == n && forall j | 0 <= j < n :: r[j] == from + j
  {
    seq(n, j => from + j)
  }

  lemma {:induction false} SetBitsOfMask(n: nat, from: nat)
    ensures SetBits(Pow2(n) - 1, from) == Range(from, n)
  {
    if n == 0 {
    } else {
      SetBitsOfMask(n - 1, from + 1);
      assert (Pow2(n) - 1) / 2 == Pow2(n - 1) - 1 && (Pow2(n) - 1) % 2 == 1;
      assert Range(from, n) == [from] + Range(from + 1, n - 1);
    }
  }

  lemma SetBitsOfLowBits(n: nat)
    ensures SetBits(LowBits(n), 0) == Range(0, if n < 16 then n else 16)
  {
    SetBitsOfMask(if n < 16 then n else 16, 0);
  }

  /** Walks the set bits in order and checks the next signature under the key at each
      of them. Every key weighs one. */
  predicate AcceptsMultisig(verify: (bytes, bytes, bytes) -> bool, data: bytes, m: Multisig) {
    var at := SetBits(m.bitmap, 0);
    && |at| == |m.signatures|
    && m.threshold <= |at|
    && forall j | 0 <= j < |at| :: at[j] < |m.keys| && verify(m.keys[at[j]], data, m.signatures[j])
  }

  predicate Accepts(verify: (bytes, bytes, bytes) -> bool, data: bytes, envelope: bytes) {
    match ParseEnvelope(envelope)
    case None => false
    case Some(m) => AcceptsMultisig(verify, data, m)
  }

  lemma AcceptsEnvelope(verify: (bytes, bytes, bytes) -> bool, data: bytes, m: Multisig)
    requires m.WellSized()
    ensures Accepts(verify, data, Envelope(m)) <==> AcceptsMultisig(verify, data, m)
  {
    EnvelopeRoundTrip(m);
  }

  // ----- The service -----

  function SignatureBytes(signatures: seq<OperatorSignature>): seq<bytes> {
    seq(|signatures|, j requires 0 <= j < |signatures| => signatures[j].signature)
  }

  function KeysOf(ops: seq<Operator>): seq<bytes> {
    seq(|ops|, i requires 0 <= i < |ops| => ops[i].publicKey)
  }

  /** What the sponsor sends for these signatures. */
  function SponsorMultisig(keys: seq<bytes>, threshold: nat, signatures: seq<OperatorSignature>): Multisig {
    Multisig(SignatureBytes(signatures), LowBits(|signatures|), keys, threshold % 0x1_0000)
  }

  /** One signature each, one low bit for each, all keys, and the low sixteen bits of the
      threshold. */
  lemma SponsorMultisigExact(keys: seq<bytes>, threshold: nat, sigs: seq<OperatorSignature>)
    ensures var m := SponsorMultisig(keys, threshold, sigs);
      && m.keys == keys && m.threshold == threshold % 0x1_0000 && |m.signatures| == |sigs|
      && (forall j | 0 <= j < |sigs| :: m.signatures[j] == sigs[j].signature)
      && SetBits(m.bitmap, 0) == seq(if |sigs| < 16 then |sigs| else 16, (j: nat) => j)
  {
    SetBitsOfLowBits(|sigs|);
  }

  datatype SponsorError = AvsFailed | ExecutionFailed

  class Service {
    const avs: Aggregator
    const operatorPubKeys: seq<bytes>
    const threshold: uint16
    const sponsorAddress: string

    /** `uint16(info.Threshold)` keeps the low sixteen bits, for the address as well. */
    constructor (avs: Aggregator, blake2b256: bytes -> bytes)
      requires |avs.operators| < 0x1_0000_0000_0000_0000
      ensures this.avs == avs
      ensures operatorPubKeys == KeysOf(avs.operators) && threshold == avs.threshold % 0x1_0000
      ensures sponsorAddress == "0x" + Hex(blake2b256(AddressPreimage(KeysOf(avs.operators), avs.threshold % 0x1_0000)))
    {
      this.avs := avs;
      var keys := avs.PublicKeys();
      assert keys == KeysOf(avs.operators);
      var address := BuildMultisigAddress(keys, avs.threshold % 0x1_0000, blake2b256);
      operatorPubKeys := keys;
      threshold := avs.threshold % 0x1_0000;
      sponsorAddress := address;
    }

    /** The loop over the authorization's signatures. */
    method Combine(authorization: seq<OperatorSignature>) returns (envelope: bytes)
      requires |operatorPubKeys| < 0x1_0000_0000_0000_0000 && |authorization| < 0x1_0000_0000_0000_0000
      ensures envelope == Envelope(SponsorMultisig(operatorPubKeys, threshold, authorization))
    {
      var signatures: seq<bytes> := [];
      var bitmap: nat := 0;
      for i := 0 to |authorization|
        invariant signatures == SignatureBytes(authorization)[..i]
        invariant bitmap == LowBits(i)
      {
        signatures := signatures + [authorization[i].signature];
        SetNextBit(i);
        bitmap := BitOr(bitmap, Pow2(i) % 0x1_0000);
      }
      assert signatures == SignatureBytes(authorization);
      envelope := CombineMultisigSignature(operatorPubKeys, signatures, threshold, bitmap);
    }

    /** The hash of the first 32 bytes is what the operators are asked to approve; `None`
        is a nonce that could not be drawn. The clock is read for the expiry and again for
        the time of issue. The chain's answer to the two signatures is an arbitrary
        function. */
    method SubmitSponsoredTransaction(
        c: Crypto, txBytes: bytes, hash: bytes -> string, nonce: Option<string>, askedAtMs: int, issuedAtMs: int,
        userSignature: bytes, execute: (bytes, bytes) -> Option<string>)
      returns (r: Result<string, SponsorError>)
      requires |operatorPubKeys| < 0x1_0000_0000_0000_0000 && avs.threshold < 0x1_0000_0000_0000_0000
      requires |txBytes| >= 32
      ensures nonce.None? ==> r == Err(AvsFailed)
      ensures nonce.Some? ==>
        match SigningData(c, hash(txBytes[..32]), nonce.value, askedAtMs, issuedAtMs)
        case None => r == Err(AvsFailed)
        case Some(data) =>
          match Authorized(c, avs.operators, data, avs.threshold)
          case Err(_) => r == Err(AvsFailed)
          case Ok(signatures) =>
            var sent := Envelope(SponsorMultisig(operatorPubKeys, threshold, signatures));
            r == match execute(userSignature, sent) case None => Err(ExecutionFailed) case Some(digest) => Ok(digest)
    {
      if nonce.None? {
        return Err(AvsFailed);
      }
      var authorization := avs.Authorize(
        c, "sponsor_tx.approve", hash(txBytes[..32]), nonce.value, issuedAtMs, askedAtMs + 120000);
      if authorization.Err? {
        return Err(AvsFailed);
      }
      var sent := Combine(authorization.value);
      var digest := execute(userSignature, sent);
      r := if digest.None? then Err(ExecutionFailed) else Ok(digest.value);
    }
  }

  /** What the operators sign: the domain and the payload as JSON. */
  function SigningData(c: Crypto, payloadHash: string, nonce: string, askedAtMs: int, issuedAtMs: int): Option<bytes> {
    var json := c.marshal(AuthorizationPayload(1, DOMAIN, "sui:testnet", "sponsor_tx.approve",
      payloadHash, nonce, issuedAtMs, askedAtMs + 120000));
    if json.None? then None else Some(Ascii(DOMAIN) + json.value)
  }

  /** The signing data is what is signed for the payload with these fields. */
  lemma SigningDataIs(c: Crypto, p: AuthorizationPayload, payloadHash: string, nonce: string,
      askedAtMs: int, issuedAtMs: int)
    requires IsPayload(p, "sponsor_tx.approve", payloadHash, nonce, issuedAtMs, askedAtMs + 120_000)
    ensures var data := SigningData(c, payloadHash, nonce, askedAtMs, issuedAtMs);
      && (data.None? <==> c.marshal(p).None?)
      && (forall d :: IsSigned(c, p, d) <==> data == Some(d))
  {
    assert p == AuthorizationPayload(1, DOMAIN, "sui:testnet", "sponsor_tx.approve", payloadHash, nonce,
      issuedAtMs, askedAtMs + 120_000);
    forall d ensures IsSigned(c, p, d) <==> SigningData(c, payloadHash, nonce, askedAtMs, issuedAtMs) == Some(d) {
      SignedIs(c, p, d);
    }
  }

  // ----- End to end -----

  ghost predicate FirstSignValidly(c: Crypto, ops: seq<Operator>, data: bytes, threshold: nat) {
    threshold <= |ops| && forall j | 0 <= j < threshold :: c.SignsValidly(ops[j], data)
  }

  ghost predicate WellSized(c: Crypto, ops: seq<Operator>, data: bytes) {
    forall i | 0 <= i < |ops| ::
      && |ops[i].publicKey| == KEY_SIZE
      && (c.sign(ops[i], data).Some? ==> |c.sign(ops[i], data).value| == SIGNATURE_SIZE)
  }

  lemma {:induction false} SignersWithoutGap(c: Crypto, ops: seq<Operator>, data: bytes, n: nat)
    requires FirstSignValidly(c, ops, data, n)
    ensures Signers(c, ops, data, n) == Range(0, n)
  {
    if n == 0 {
    } else {
      SignersWithoutGap(c, ops, data, n - 1);
    }
  }

  lemma ChosenWithoutGap(c: Crypto, ops: seq<Operator>, data: bytes, threshold: nat)
    requires FirstSignValidly(c, ops, data, threshold)
    ensures Authorized(c, ops, data, threshold).Ok? && Chosen(c, ops, data, threshold) == Range(0, threshold)
  {
    SignersWithoutGap(c, ops, data, threshold);
    SignersGrow(c, ops, data, threshold, |ops|);
  }

  /** The bitmap says "the first operators signed". That is who signed exactly when
      the first `threshold` operators all signed validly. */
  lemma SignersAreBitsIffNoGap(c: Crypto, ops: seq<Operator>, data: bytes, threshold: nat)
    requires Authorized(c, ops, data, threshold).Ok?
    ensures LowBits(threshold) == Pow2(if threshold < 16 then threshold else 16) - 1
    ensures SetBits(LowBits(threshold), 0) == Chosen(c, ops, data, threshold)
      <==> threshold <= 16 && FirstSignValidly(c, ops, data, threshold)
  {
    SetBitsOfLowBits(threshold);
    if FirstSignValidly(c, ops, data, threshold) {
      ChosenWithoutGap(c, ops, data, threshold);
    }
    var bits, chosen := SetBits(LowBits(threshold), 0), Chosen(c, ops, data, threshold);
    if bits == chosen {
      assert |bits| == threshold <= 16;
      forall j | 0 <= j < threshold ensures j < |ops| && c.SignsValidly(ops[j], data) {
        assert chosen[j] == bits[j] == j;
      }
      if threshold > 0 {
        assert chosen[threshold - 1] == threshold - 1;
      }
    }
  }

  /** The verifier on a message whose bitmap claims the lowest positions. */
  lemma AcceptsLowBits(verify: (bytes, bytes, bytes) -> bool, data: bytes, m: Multisig)
    requires m.bitmap == LowBits(|m.signatures|) && m.threshold == |m.signatures| % 0x1_0000
    ensures AcceptsMultisig(verify, data, m)
      <==> (|m.signatures| <= 16 && |m.signatures| <= |m.keys|
        && forall j | 0 <= j < |m.signatures| :: verify(m.keys[j], data, m.signatures[j]))
  {
    var n := |m.signatures|;
    SetBitsOfLowBits(n);
    hide LowBits, SetBits;
    var at := SetBits(m.bitmap, 0);
    assert at == Range(0, if n < 16 then n else 16);
    assert |at| == n <==> n <= 16;
    if n <= 16 {
      assert m.threshold == n;
      assert forall j | 0 <= j < n :: at[j] == j;
      assert n > 0 ==> at[n - 1] == n - 1;
    }
  }

  /** The message that `Authorized` leads to. */
  function Message(c: Crypto, ops: seq<Operator>, data: bytes, threshold: nat): Multisig
    requires Authorized(c, ops, data, threshold).Ok?
  {
    SponsorMultisig(KeysOf(ops), threshold, Authorized(c, ops, data, threshold).value)
  }

  lemma MessageParts(c: Crypto, ops: seq<Operator>, data: bytes, threshold: nat)
    requires WellSized(c, ops, data)
    requires Authorized(c, ops, data, threshold).Ok?
    ensures var (m, at) := (Message(c, ops, data, threshold), Chosen(c, ops, data, threshold));
      && m.WellSized()
      && |m.signatures| == |at| == threshold && m.bitmap == LowBits(threshold)
      && m.threshold == threshold % 0x1_0000 && m.keys == KeysOf(ops)
      && forall j | 0 <= j < threshold :: m.signatures[j] == c.sign(ops[at[j]], data).value
  {
    QuorumExact(c, ops, data, threshold);
  }

  /** The verifier accepts exactly when there are at most sixteen signatures and the
      j-th of them verifies under the j-th operator's key. */
  lemma AcceptsIff(c: Crypto, ops: seq<Operator>, data: bytes, threshold: nat)
    requires WellSized(c, ops, data)
    requires Authorized(c, ops, data, threshold).Ok?
    ensures var (m, at) := (Message(c, ops, data, threshold), Chosen(c, ops, data, threshold));
      Accepts(c.verify, data, Envelope(m))
      <==> (threshold <= 16 && threshold <= |ops|
        && forall j | 0 <= j < threshold :: c.verify(ops[j].publicKey, data, c.sign(ops[at[j]], data).value))
  {
    var m := Message(c, ops, data, threshold);
    MessageParts(c, ops, data, threshold);
    AcceptsEnvelope(c.verify, data, m);
    AcceptsLowBits(c.verify, data, m);
    assert forall j | 0 <= j < |ops| :: m.keys[j] == ops[j].publicKey;
  }

  /** A quorum of the first operators is accepted. */
  lemma AcceptedWithoutGap(c: Crypto, ops: seq<Operator>, data: bytes, threshold: nat)
    requires WellSized(c, ops, data)
    requires threshold <= 16 && FirstSignValidly(c, ops, data, threshold)
    ensures Authorized(c, ops, data, threshold).Ok?
    ensures Accepts(c.verify, data, Envelope(Message(c, ops, data, threshold)))
  {
    ChosenWithoutGap(c, ops, data, threshold);
    AcceptsIff(c, ops, data, threshold);
  }

  /** No operator's signature verifies under another operator's key. */
  ghost predicate Unforgeable(c: Crypto, ops: seq<Operator>, data: bytes) {
    forall i, j | 0 <= i < |ops| && 0 <= j < |ops| && c.SignsValidly(ops[i], data)
      && c.verify(ops[j].publicKey, data, c.sign(ops[i], data).value) :: i == j
  }

  /** With unforgeable signatures that is the only accepted case: a quorum that skips an
      operator is authorized and then rejected. */
  lemma AcceptedIffNoGap(c: Crypto, ops: seq<Operator>, data: bytes, threshold: nat)
    requires WellSized(c, ops, data) && Unforgeable(c, ops, data)
    requires Authorized(c, ops, data, threshold).Ok?
    ensures Accepts(c.verify, data, Envelope(Message(c, ops, data, threshold)))
      <==> threshold <= 16 && FirstSignValidly(c, ops, data, threshold)
  {
    AcceptsIff(c, ops, data, threshold);
    var at := Chosen(c, ops, data, threshold);
    if FirstSignValidly(c, ops, data, threshold) {
      ChosenWithoutGap(c, ops, data, threshold);
    }
    if Accepts(c.verify, data, Envelope(Message(c, ops, data, threshold))) {
      forall j | 0 <= j < threshold ensures c.SignsValidly(ops[j], data) {
        assert c.verify(ops[j].publicKey, data, c.sign(ops[at[j]], data).value);
        assert at[j] == j;
      }
    }
  }

  ghost predicate NoGap(c: Crypto, ops: seq<Operator>, data: bytes, threshold: nat) {
    threshold <= 16 && FirstSignValidly(c, ops, data, threshold)
  }

  lemma SentIsAccepted(c: Crypto, ops: seq<Operator>, data: bytes, threshold: nat)
    requires WellSized(c, ops, data) && Unforgeable(c, ops, data)
    ensures match Authorized(c, ops, data, threshold)
      case Err(_) => !NoGap(c, ops, data, threshold)
      case Ok(signatures) =>
        Accepts(c.verify, data, Envelope(SponsorMultisig(KeysOf(ops), threshold % 0x1_0000, signatures)))
        <==> NoGap(c, ops, data, threshold)
  {
    hide Unforgeable, WellSized, Accepts, Envelope, FirstSignValidly, KeysOf, SignatureBytes, LowBits, Chosen;
    if Authorized(c, ops, data, threshold).Ok? {
      AcceptedIffNoGap(c, ops, data, threshold);
      hide Authorized;
      assert SponsorMultisig(KeysOf(ops), threshold % 0x1_0000, Authorized(c, ops, data, threshold).value)
        == Message(c, ops, data, threshold);
    } else if FirstSignValidly(c, ops, data, threshold) {
      ChosenWithoutGap(c, ops, data, threshold);
    }
  }

  /** The service against a chain that reads the envelope as the verifier does: the
      transaction goes through exactly if the payload can be signed, at most sixteen
      signatures are asked for, and the first operators all sign. It is sent and then
      rejected exactly if the quorum is met otherwise. */
  method SubmitToVerifier(
      service: Service, c: Crypto, txBytes: bytes, hash: bytes -> string,
      nonce: string, askedAtMs: int, issuedAtMs: int, userSignature: bytes)
    returns (r: Result<string, SponsorError>, ghost data: Option<bytes>)
    requires |txBytes| >= 32 && service.avs.threshold < 0x1_0000_0000_0000_0000
    requires service.operatorPubKeys == KeysOf(service.avs.operators)
    requires service.threshold == service.avs.threshold % 0x1_0000
    requires |service.operatorPubKeys| < 0x1_0000_0000_0000_0000
    requires var d := SigningData(c, hash(txBytes[..32]), nonce, askedAtMs, issuedAtMs);
      d.Some? ==> WellSized(c, service.avs.operators, d.value) && Unforgeable(c, service.avs.operators, d.value)
    ensures data == SigningData(c, hash(txBytes[..32]), nonce, askedAtMs, issuedAtMs)
    ensures r.Ok? <==> data.Some? && NoGap(c, service.avs.operators, data.value, service.avs.threshold)
    ensures r == Err(ExecutionFailed) <==> (
      && data.Some? && Authorized(c, service.avs.operators, data.value, service.avs.threshold).Ok?
      && !NoGap(c, service.avs.operators, data.value, service.avs.threshold))
  {
    var signed := SigningData(c, hash(txBytes[..32]), nonce, askedAtMs, issuedAtMs);
    data := signed;
    if signed.Some? {
      SentIsAccepted(c, service.avs.operators, signed.value, service.avs.threshold);
    }
    hide SigningData, Authorized, Accepts, NoGap, Envelope, SponsorMultisig, KeysOf, WellSized, Unforgeable;
    var execute := (user: bytes, sponsor: bytes) =>
      if signed.Some? && Accepts(c.verify, signed.value, sponsor) then Some("digest") else None;
    r := service.SubmitSponsoredTransaction(
      c, txBytes, hash, Some(nonce), askedAtMs, issuedAtMs, userSignature, execute);
  }

  /** Five operators. */
  function GapOperators(): (ops: seq<Operator>)
    ensures |ops| == 5
    ensures forall i | 0 <= i < 5 :: |ops[i].publicKey| == KEY_SIZE && ops[i].publicKey[0] == i
  {
    seq(5, (i: nat) => Operator("operator", seq(KEY_SIZE, _ => i % 256)))
  }

  /** Every operator signs, but the key of the first was configured with a public half that
      does not belong to its seed, so its signatures do not verify. */
  function GapCrypto(marshal: AuthorizationPayload -> Option<bytes>): Crypto {
    Crypto(
      (op: Operator, data: bytes) =>
        if |op.publicKey| > 0 && op.publicKey[0] == 0 then Some(seq(SIGNATURE_SIZE, _ => 255))
        else Some(op.publicKey + op.publicKey),
      (key: bytes, data: bytes, sig: bytes) => sig == key + key,
      marshal)
  }

  lemma DoublingInjective(x: bytes, y: bytes)
    requires x + x == y + y
    ensures x == y
  {
    assert |x| == |y|;
    assert x == (x + x)[..|x|] == (y + y)[..|y|] == y;
  }

  lemma GapIsWellSized(marshal: AuthorizationPayload -> Option<bytes>, data: bytes)
    ensures forall i | 0 <= i < 5 :: GapCrypto(marshal).sign(GapOperators()[i], data).Some?
    ensures WellSized(GapCrypto(marshal), GapOperators(), data) && Unforgeable(GapCrypto(marshal), GapOperators(), data)
    ensures forall i | 0 <= i < 5 :: GapCrypto(marshal).SignsValidly(GapOperators()[i], data) <==> i != 0
  {
    var (c, ops) := (GapCrypto(marshal), GapOperators());
    assert c.sign(ops[0], data).value[0] == 255 && (ops[0].publicKey + ops[0].publicKey)[0] == 0;
    forall i, j | 0 <= i < 5 && 0 <= j < 5 && c.SignsValidly(ops[i], data)
      && c.verify(ops[j].publicKey, data, c.sign(ops[i], data).value)
      ensures i == j
    {
      DoublingInjective(ops[i].publicKey, ops[j].publicKey);
      assert ops[i].publicKey[0] == ops[j].publicKey[0];
    }
  }

  /** Three signatures are asked for and four operators sign validly, so the quorum is met,
      the envelope is sent, and the chain rejects it. */
  method GapIsRejected(
      marshal: AuthorizationPayload -> Option<bytes>, txBytes: bytes, hash: bytes -> string,
      nonce: string, askedAtMs: int, issuedAtMs: int, userSignature: bytes)
    returns (r: Result<string, SponsorError>)
    requires |txBytes| >= 32 && forall payload :: marshal(payload).Some?
    ensures r == Err(ExecutionFailed)
  {
    var (c, ops) := (GapCrypto(marshal), GapOperators());
    var avs := new Aggregator(ops, 3);
    var service := new Service(avs, b => b);
    var signed := SigningData(c, hash(txBytes[..32]), nonce, askedAtMs, issuedAtMs);
    GapIsWellSized(marshal, signed.value);
    GapIsAuthorized(marshal, signed.value);
    assert !c.SignsValidly(ops[0], signed.value);
    ghost var data;
    r, data := SubmitToVerifier(service, c, txBytes, hash, nonce, askedAtMs, issuedAtMs, userSignature);
  }

  lemma GapIsAuthorized(marshal: AuthorizationPayload -> Option<bytes>, data: bytes)
    ensures Authorized(GapCrypto(marshal), GapOperators(), data, 3).Ok?
  {
    var (c, ops) := (GapCrypto(marshal), GapOperators());
    GapIsWellSized(marshal, data);
    assert Signers(c, ops, data, 1) == [];
    assert Signers(c, ops, data, 2) == [1];
    assert Signers(c, ops, data, 3) == [1, 2];
    assert Signers(c, ops, data, 4) == [1, 2, 3];
    SignersGrow(c, ops, data, 4, 5);
  }
}
