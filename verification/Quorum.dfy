/** `Aggregator.Authorize`: the first operators, in list order, whose signatures verify. */
module Quorum {
  import opened Wrappers
  import opened Uleb128

  datatype Operator = Operator(id: string, publicKey: bytes)

  datatype OperatorSignature = OperatorSignature(operatorId: string, publicKey: bytes, signature: bytes)

  datatype AuthorizationPayload = AuthorizationPayload(
    version: int, domain: string, chain: string, action: string,
    payloadHash: string, nonce: string, issuedAtMs: int, expiresAtMs: int)

  datatype AvsError = ActionForbidden | MarshalFailed | QuorumNotMet

  const DOMAIN: string := "nearby-payments.avs.authorization"

  const ALLOWED_ACTIONS: set<string> :=
    {"leaf_name.register_initial", "parent_name.renew", "parent_name.admin_recover", "sponsor_tx.approve"}

  /** Signing, verification and JSON as arbitrary functions. `Authorize` allows for a
      failure of signing; an operator as it stands always signs, and its signature fails
      to verify when its key was configured with a public half of another seed. */
  datatype Crypto = Crypto(
    sign: (Operator, bytes) -> Option<bytes>,
    verify: (bytes, bytes, bytes) -> bool,
    marshal: AuthorizationPayload -> Option<bytes>)
  {
    predicate SignsValidly(op: Operator, data: bytes) {
      sign(op, data).Some? && verify(op.publicKey, data, sign(op, data).value)
    }

    function SignatureOf(op: Operator, data: bytes): OperatorSignature
      requires SignsValidly(op, data)
    {
      OperatorSignature(op.id, op.publicKey, sign(op, data).value)
    }
  }

  function Ascii(s: string): bytes {
    seq(|s|, i requires 0 <= i < |s| => (s[i] as int) % 256)
  }

  /** The positions below `n` whose operators sign validly, in list order. */
  function Signers(c: Crypto, ops: seq<Operator>, data: bytes, n: nat): (positions: seq<nat>)
    requires n <= |ops|
    ensures forall i | 0 <= i < |positions| :: positions[i] < n && c.SignsValidly(ops[positions[i]], data)
  {
    if n == 0 then []
    else Signers(c, ops, data, n - 1) + if c.SignsValidly(ops[n - 1], data) then [n - 1] else []
  }

  function SignaturesAt(c: Crypto, ops: seq<Operator>, data: bytes, positions: seq<nat>): seq<OperatorSignature>
    requires forall i | 0 <= i < |positions| :: positions[i] < |ops| && c.SignsValidly(ops[positions[i]], data)
  {
    seq(|positions|, j requires 0 <= j < |positions| => c.SignatureOf(ops[positions[j]], data))
  }

  function Authorized(c: Crypto, ops: seq<Operator>, data: bytes, threshold: nat)
    : Result<seq<OperatorSignature>, AvsError>
  {
    var positions := Signers(c, ops, data, |ops|);
    if |positions| < threshold then Err(QuorumNotMet)
    else Ok(SignaturesAt(c, ops, data, positions[..threshold]))
  }

  /** Each position once and in order; a position below `n` is there exactly when
      its operator signs validly. */
  lemma {:induction false} SignersExact(c: Crypto, ops: seq<Operator>, data: bytes, n: nat)
    requires n <= |ops|
    ensures var s := Signers(c, ops, data, n);
      && (forall i, j | 0 <= i < j < |s| :: s[i] < s[j])
      && (forall p | 0 <= p < n :: p in s <==> c.SignsValidly(ops[p], data))
  {
    if n == 0 {
    } else {
      SignersExact(c, ops, data, n - 1);
    }
  }

  lemma {:induction false} SignersGrow(c: Crypto, ops: seq<Operator>, data: bytes, m: nat, n: nat)
    requires m <= n <= |ops|
    ensures Signers(c, ops, data, m) <= Signers(c, ops, data, n)
    decreases n
  {
    if m == n {
    } else {
      SignersGrow(c, ops, data, m, n - 1);
    }
  }

  /** The operators below `n` that sign validly. */
  ghost function ValidBelow(c: Crypto, ops: seq<Operator>, data: bytes, n: nat): set<nat>
    requires n <= |ops|
  {
    set p: nat | p < n && c.SignsValidly(ops[p], data)
  }

  lemma ValidBelowNext(c: Crypto, ops: seq<Operator>, data: bytes, n: nat)
    requires n < |ops|
    ensures ValidBelow(c, ops, data, n + 1)
      == ValidBelow(c, ops, data, n) + if c.SignsValidly(ops[n], data) then {n} else {}
    ensures n !in ValidBelow(c, ops, data, n)
  {
  }

  lemma {:induction false} SignersCount(c: Crypto, ops: seq<Operator>, data: bytes, n: nat)
    requires n <= |ops|
    ensures |Signers(c, ops, data, n)| == |ValidBelow(c, ops, data, n)|
  {
    if n == 0 {
      assert ValidBelow(c, ops, data, n) == {};
    } else {
      SignersCount(c, ops, data, n - 1);
      ValidBelowNext(c, ops, data, n - 1);
      hide ValidBelow;
    }
  }

  /** The positions that `Authorize` picks. */
  function Chosen(c: Crypto, ops: seq<Operator>, data: bytes, threshold: nat): (positions: seq<nat>)
    requires Authorized(c, ops, data, threshold).Ok?
    ensures forall i | 0 <= i < |positions| :: positions[i] < |ops| && c.SignsValidly(ops[positions[i]], data)
  {
    var all := Signers(c, ops, data, |ops|);
    all[..threshold]
  }

  /** The answer holds one signature for each chosen position. */
  lemma ChosenSign(c: Crypto, ops: seq<Operator>, data: bytes, threshold: nat)
    requires Authorized(c, ops, data, threshold).Ok?
    ensures var (r, at) := (Authorized(c, ops, data, threshold).value, Chosen(c, ops, data, threshold));
      && |r| == |at| == threshold
      && (forall j | 0 <= j < threshold :: r[j] == c.SignatureOf(ops[at[j]], data))
  {
  }

  /** The chosen positions are in list order, and no valid signer before one is skipped. */
  lemma ChosenAreFirst(c: Crypto, ops: seq<Operator>, data: bytes, threshold: nat)
    requires Authorized(c, ops, data, threshold).Ok?
    ensures var at := Chosen(c, ops, data, threshold);
      && (forall i, j | 0 <= i < j < |at| :: at[i] < at[j])
      && (forall p, j | 0 <= j < |at| && 0 <= p <= at[j] && c.SignsValidly(ops[p], data) :: p in at)
  {
    SignersExact(c, ops, data, |ops|);
    var all := Signers(c, ops, data, |ops|);
    var at := Chosen(c, ops, data, threshold);
    assert at == all[..threshold];
    forall p, j | 0 <= j < |at| && 0 <= p <= at[j] && c.SignsValidly(ops[p], data) ensures p in at {
      var k :| 0 <= k < |all| && all[k] == p;
      assert at[k] == p;
    }
  }

  /** Success means exactly that enough operators sign validly. The answer then holds
      one signature each of the first such operators: distinct positions, in list
      order, none skipped, all over the same data. */
  lemma QuorumExact(c: Crypto, ops: seq<Operator>, data: bytes, threshold: nat)
    ensures var r := Authorized(c, ops, data, threshold);
      && (r.Ok? <==> |ValidBelow(c, ops, data, |ops|)| >= threshold)
      && (r.Ok? ==>
        var at := Chosen(c, ops, data, threshold);
        && |r.value| == |at| == threshold
        && (forall j | 0 <= j < threshold :: r.value[j] == c.SignatureOf(ops[at[j]], data))
        && (forall i, j | 0 <= i < j < |at| :: at[i] < at[j])
        && (forall p, j | 0 <= j < |at| && 0 <= p <= at[j] && c.SignsValidly(ops[p], data) :: p in at))
  {
    SignersCount(c, ops, data, |ops|);
    if Authorized(c, ops, data, threshold).Ok? {
      ChosenSign(c, ops, data, threshold);
      ChosenAreFirst(c, ops, data, threshold);
    }
    hide Signers, ValidBelow, Chosen;
  }

  // ----- The same, field by field and byte by byte -----

  predicate IsPayload(p: AuthorizationPayload, action: string, payloadHash: string, nonce: string,
      issuedAtMs: int, expiresAtMs: int)
  {
    && p.version == 1 && p.domain == "nearby-payments.avs.authorization" && p.chain == "sui:testnet"
    && p.action == action && p.payloadHash == payloadHash && p.nonce == nonce
    && p.issuedAtMs == issuedAtMs && p.expiresAtMs == expiresAtMs
  }

  /** What is signed for a payload: the characters of the domain, then the JSON. */
  predicate IsSigned(c: Crypto, p: AuthorizationPayload, data: bytes) {
    var domain := "nearby-payments.avs.authorization";
    && |data| >= |domain| && c.marshal(p) == Some(data[|domain|..])
    && SameBytes(domain, data[..|domain|])
  }

  predicate SameBytes(s: string, b: bytes) {
    |s| == |b| && forall i | 0 <= i < |s| :: b[i] == s[i] as int
  }

  lemma SameBytesIsAscii(s: string, b: bytes)
    requires forall i | 0 <= i < |s| :: (s[i] as int) < 256
    ensures SameBytes(s, b) <==> b == Ascii(s)
  {
  }

  lemma SignedIs(c: Crypto, p: AuthorizationPayload, data: bytes)
    ensures IsSigned(c, p, data) <==> c.marshal(p).Some? && data == Ascii(DOMAIN) + c.marshal(p).value
  {
    var domain := "nearby-payments.avs.authorization";
    assert DOMAIN == domain && |Ascii(domain)| == |domain|;
    assert forall i | 0 <= i < |domain| :: (domain[i] as int) < 256;
    hide Ascii, SameBytes;
    if |data| >= |domain| {
      SameBytesIsAscii(domain, data[..|domain|]);
      assert data == data[..|domain|] + data[|domain|..];
    }
  }

  /** These are signatures of the operators at these positions: the first that sign and
      whose signatures verify. */
  ghost predicate OfFirstValid(c: Crypto, ops: seq<Operator>, data: bytes, at: seq<nat>, sigs: seq<OperatorSignature>) {
    && |at| == |sigs|
    && (forall j | 0 <= j < |at| ::
        && at[j] < |ops| && c.sign(ops[at[j]], data).Some?
        && c.verify(ops[at[j]].publicKey, data, c.sign(ops[at[j]], data).value)
        && sigs[j].operatorId == ops[at[j]].id && sigs[j].publicKey == ops[at[j]].publicKey
        && sigs[j].signature == c.sign(ops[at[j]], data).value)
    && (forall i, j | 0 <= i < j < |at| :: at[i] < at[j])
    && (forall p, j | 0 <= j < |at| && 0 <= p <= at[j] && c.sign(ops[p], data).Some?
        && c.verify(ops[p].publicKey, data, c.sign(ops[p], data).value) :: p in at)
  }

  ghost predicate IsAnswer(c: Crypto, ops: seq<Operator>, data: bytes, threshold: nat,
      r: Result<seq<OperatorSignature>, AvsError>)
  {
    var valid := set i: nat | i < |ops| && c.sign(ops[i], data).Some?
      && c.verify(ops[i].publicKey, data, c.sign(ops[i], data).value);
    if |valid| < threshold then r == Err(QuorumNotMet)
    else r.Ok? && |r.value| == threshold && exists at :: OfFirstValid(c, ops, data, at, r.value)
  }

  lemma AuthorizedIs(c: Crypto, ops: seq<Operator>, data: bytes, threshold: nat)
    ensures IsAnswer(c, ops, data, threshold, Authorized(c, ops, data, threshold))
  {
    QuorumExact(c, ops, data, threshold);
    var valid := set i: nat | i < |ops| && c.sign(ops[i], data).Some?
      && c.verify(ops[i].publicKey, data, c.sign(ops[i], data).value);
    assert valid == ValidBelow(c, ops, data, |ops|);
    if Authorized(c, ops, data, threshold).Ok? {
      var at := Chosen(c, ops, data, threshold);
      assert OfFirstValid(c, ops, data, at, Authorized(c, ops, data, threshold).value);
    }
  }

  lemma NextSigner(c: Crypto, ops: seq<Operator>, data: bytes, n: nat)
    requires n < |ops|
    ensures Signers(c, ops, data, n + 1) == Signers(c, ops, data, n) + if c.SignsValidly(ops[n], data) then [n] else []
  {
  }

  lemma SignaturesAtSnoc(c: Crypto, ops: seq<Operator>, data: bytes, at: seq<nat>, p: nat)
    requires forall i | 0 <= i < |at| :: at[i] < |ops| && c.SignsValidly(ops[at[i]], data)
    requires p < |ops| && c.SignsValidly(ops[p], data)
    ensures SignaturesAt(c, ops, data, at + [p]) == SignaturesAt(c, ops, data, at) + [c.SignatureOf(ops[p], data)]
  {
  }

  /** Stopping at the threshold or at the end of the list gives the specified answer. */
  lemma StopsRight(c: Crypto, ops: seq<Operator>, data: bytes, n: nat, threshold: nat)
    requires n <= |ops| && |Signers(c, ops, data, n)| <= threshold
    requires n == |ops| || |Signers(c, ops, data, n)| == threshold
    ensures var at := Signers(c, ops, data, n);
      Authorized(c, ops, data, threshold)
        == if |at| < threshold then Err(QuorumNotMet) else Ok(SignaturesAt(c, ops, data, at))
  {
    SignersGrow(c, ops, data, n, |ops|);
    var (at, all) := (Signers(c, ops, data, n), Signers(c, ops, data, |ops|));
    assert |at| == threshold ==> all[..threshold] == at;
  }

  class Aggregator {
    const operators: seq<Operator>
    const threshold: nat

    constructor (operators: seq<Operator>, threshold: nat)
      ensures this.operators == operators && this.threshold == threshold
    {
      this.operators := operators;
      this.threshold := threshold;
    }

    method Authorize(c: Crypto, action: string, payloadHash: string, nonce: string, nowMs: int, expiresAtMs: int)
      returns (r: Result<seq<OperatorSignature>, AvsError>)
      ensures action !in ALLOWED_ACTIONS <==> r == Err(ActionForbidden)
      ensures action in ALLOWED_ACTIONS ==>
        match c.marshal(AuthorizationPayload(1, DOMAIN, "sui:testnet", action, payloadHash, nonce, nowMs, expiresAtMs))
        case None => r == Err(MarshalFailed)
        case Some(json) => r == Authorized(c, operators, Ascii(DOMAIN) + json, threshold)
      ensures r != Err(ActionForbidden) <==>
        || action == "leaf_name.register_initial" || action == "parent_name.renew"
        || action == "parent_name.admin_recover" || action == "sponsor_tx.approve"
      ensures forall p | IsPayload(p, action, payloadHash, nonce, nowMs, expiresAtMs) && r != Err(ActionForbidden) ::
        r == Err(MarshalFailed) <==> c.marshal(p).None?
      ensures forall p, data | IsPayload(p, action, payloadHash, nonce, nowMs, expiresAtMs) && IsSigned(c, p, data) ::
        r != Err(ActionForbidden) ==> IsAnswer(c, operators, data, threshold, r)
    {
      forall p, data | IsPayload(p, action, payloadHash, nonce, nowMs, expiresAtMs) && IsSigned(c, p, data)
        ensures p == AuthorizationPayload(1, DOMAIN, "sui:testnet", action, payloadHash, nonce, nowMs, expiresAtMs)
        ensures c.marshal(p).Some? && data == Ascii(DOMAIN) + c.marshal(p).value
        ensures IsAnswer(c, operators, data, threshold, Authorized(c, operators, data, threshold))
      {
        SignedIs(c, p, data);
        AuthorizedIs(c, operators, data, threshold);
      }
      assert ALLOWED_ACTIONS ==
        {"leaf_name.register_initial", "parent_name.renew", "parent_name.admin_recover", "sponsor_tx.approve"};
      hide ALLOWED_ACTIONS, Ascii, Authorized, IsSigned, IsAnswer;
      if action !in ALLOWED_ACTIONS {
        return Err(ActionForbidden);
      }
      var payload := AuthorizationPayload(1, DOMAIN, "sui:testnet", action, payloadHash, nonce, nowMs, expiresAtMs);
      var json := c.marshal(payload);
      if json.None? {
        return Err(MarshalFailed);
      }
      var signingData := Ascii(DOMAIN) + json.value;
      var collected := Collect(c, signingData);
      if |collected| < threshold {
        return Err(QuorumNotMet);
      }
      r := Ok(collected[..threshold]);
      assert r.value == collected;
    }

    /** The loop over the operators. */
    method Collect(c: Crypto, signingData: bytes) returns (collected: seq<OperatorSignature>)
      ensures |collected| <= threshold
      ensures Authorized(c, operators, signingData, threshold)
        == if |collected| < threshold then Err(QuorumNotMet) else Ok(collected)
    {
      collected := [];
      ghost var at: seq<nat> := [];
      var i := 0;
      while i < |operators|
        invariant 0 <= i <= |operators|
        invariant at == Signers(c, operators, signingData, i) && |at| <= threshold
        invariant collected == SignaturesAt(c, operators, signingData, at)
      {
        if |collected| >= threshold {
          break;
        }
        var op := operators[i];
        NextSigner(c, operators, signingData, i);
        hide Signers, SignaturesAt;
        i := i + 1;
        var sig := c.sign(op, signingData);
        if sig.None? {
          continue;
        }
        if !c.verify(op.publicKey, signingData, sig.value) {
          continue;
        }
        SignaturesAtSnoc(c, operators, signingData, at, i - 1);
        collected := collected + [OperatorSignature(op.id, op.publicKey, sig.value)];
        at := at + [i - 1];
      }
      StopsRight(c, operators, signingData, i, threshold);
    }

    method PublicKeys() returns (keys: seq<bytes>)
      ensures |keys| == |operators| && forall i | 0 <= i < |keys| :: keys[i] == operators[i].publicKey
    {
      var slots := new bytes[|operators|];
      for i := 0 to |operators|
        invariant forall k | 0 <= k < i :: slots[k] == operators[k].publicKey
      {
        slots[i] := operators[i].publicKey;
      }
      keys := slots[..];
    }
  }
}
