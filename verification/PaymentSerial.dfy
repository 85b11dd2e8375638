/** The payment service with one call at a time and store writes that succeed. */
module PaymentSerial {
  import opened Wrappers
  import opened PaymentModel

  /** `nextId` is the next fresh id; `chain` lists the intents that were handed to
      the sponsor or the relay, whether or not that succeeded. */
  datatype State = State(tables: Tables, nextId: Id, chain: seq<Id>)

  datatype Created = Created(intentId: Id, terms: Terms, status: Status)
  datatype Paid = Paid(paymentId: Id, txDigest: string)

  // ----- What each call does -----

  ghost predicate OwnsKey(t: Tables, id: Id, key: string) {
    id in t.intents && t.intents[id].terms.idempotencyKey == key
  }

  function AfterCreate(s: State, userId: string, req: CreateRequest, now: int, sponsorAddress: string): State {
    if Validate(req).Some? || KeyTaken(s.tables, req.idempotencyKey) then s
    else
      var terms := NewTerms(userId, req, now, sponsorAddress);
      if !CanInsertIntent(s.tables, s.nextId, terms) then s.(nextId := s.nextId + 1)
      else s.(tables := InsertIntent(s.tables, s.nextId, terms), nextId := s.nextId + 1)
  }

  function AfterSubmit(s: State, id: Id, userId: string, now: int, decodes: bool, exec: Option<string>): State {
    if SubmitRefusal(s.tables, id, userId, now).Some? || !decodes then s
    else if exec.None? then State(UpdateStatus(s.tables, id, Failed, ""), s.nextId, s.chain + [id])
    else
      var marked := UpdateStatus(s.tables, id, Submitted, exec.value);
      var payment := NewPayment(id, s.tables.intents[id].terms, exec.value);
      var fits := CanInsertPayment(marked, s.nextId, payment);
      var paid := if fits then InsertPayment(marked, s.nextId, payment) else marked;
      State(paid, s.nextId + 1, s.chain + [id])
  }

  function AfterCancel(s: State, id: Id, userId: string): State {
    if CancelRefusal(s.tables, id, userId).Some? then s
    else s.(tables := UpdateStatus(s.tables, id, Cancelled, ""))
  }

  datatype Call =
    | Create(userId: string, req: CreateRequest, now: int, sponsorAddress: string)
    | Submit(id: Id, userId: string, now: int, decodes: bool, exec: Option<string>)
    | Cancel(id: Id, userId: string)

  function After(s: State, call: Call): State {
    match call
    case Create(userId, req, now, sponsorAddress) => AfterCreate(s, userId, req, now, sponsorAddress)
    case Submit(id, userId, now, decodes, exec) => AfterSubmit(s, id, userId, now, decodes, exec)
    case Cancel(id, userId) => AfterCancel(s, id, userId)
  }

  function Run(s: State, calls: seq<Call>): State {
    var n := |calls|;
    if n == 0 then s else After(Run(s, calls[..n - 1]), calls[n - 1])
  }

  const EMPTY := State(Tables(map[], map[]), 0, [])

  // ----- The lifecycle of an intent -----

  /** Where an intent can be, with its payments and its executions. */
  ghost predicate IntentOk(s: State, id: Id)
    requires id in s.tables.intents
  {
    var intent := s.tables.intents[id];
    match intent.status
    case Pending => intent.txDigest == "" && !HasPayment(s.tables, id) && multiset(s.chain)[id] == 0
    case Submitted => HasPayment(s.tables, id) && multiset(s.chain)[id] == 1
    case Failed => intent.txDigest == "" && !HasPayment(s.tables, id) && multiset(s.chain)[id] == 1
    case Cancelled => intent.txDigest == "" && !HasPayment(s.tables, id) && multiset(s.chain)[id] == 0
    case Confirmed => false
  }

  ghost predicate PaymentOk(s: State, p: Id)
    requires p in s.tables.payments
  {
    var payment := s.tables.payments[p];
    && p < s.nextId && payment.intentId in s.tables.intents
    && payment == NewPayment(payment.intentId, s.tables.intents[payment.intentId].terms,
                             s.tables.intents[payment.intentId].txDigest)
  }

  ghost predicate Inv(s: State) {
    && (forall id | id in s.tables.intents :: id < s.nextId && IntentOk(s, id))
    && (forall p | p in s.tables.payments :: PaymentOk(s, p))
    && (forall p, q | p in s.tables.payments && q in s.tables.payments && p != q ::
        s.tables.payments[p].intentId != s.tables.payments[q].intentId)
    && (forall i | 0 <= i < |s.chain| :: s.chain[i] in s.tables.intents)
  }

  lemma InsertInv(s: State, terms: Terms)
    requires Inv(s) && CanInsertIntent(s.tables, s.nextId, terms)
    ensures Inv(s.(tables := InsertIntent(s.tables, s.nextId, terms), nextId := s.nextId + 1))
  {
    var s' := s.(tables := InsertIntent(s.tables, s.nextId, terms), nextId := s.nextId + 1);
    assert s.nextId !in multiset(s.chain);
    forall id | id in s'.tables.intents ensures IntentOk(s', id) {
      if id in s.tables.intents {
        assert IntentOk(s, id);
      }
    }
    forall p | p in s'.tables.payments ensures PaymentOk(s', p) {
      assert PaymentOk(s, p);
    }
  }

  lemma SkipIdInv(s: State)
    requires Inv(s)
    ensures Inv(s.(nextId := s.nextId + 1))
  {
    var s' := s.(nextId := s.nextId + 1);
    forall id | id in s'.tables.intents ensures IntentOk(s', id) {
      assert IntentOk(s, id);
    }
    forall p | p in s'.tables.payments ensures PaymentOk(s', p) {
      assert PaymentOk(s, p);
    }
  }

  lemma CreateInv(s: State, userId: string, req: CreateRequest, now: int, sponsorAddress: string)
    requires Inv(s)
    ensures Inv(AfterCreate(s, userId, req, now, sponsorAddress))
  {
    SkipIdInv(s);
    var terms := NewTerms(userId, req, now, sponsorAddress);
    if CanInsertIntent(s.tables, s.nextId, terms) {
      InsertInv(s, terms);
    }
  }

  lemma UpdateKeepsOthers(t: Tables, t': Tables, id: Id)
    requires forall p | p in t'.payments ::
      (p in t.payments && t'.payments[p] == t.payments[p]) || t'.payments[p].intentId == id
    requires forall p | p in t.payments :: p in t'.payments && t'.payments[p] == t.payments[p]
    ensures forall other | other != id :: HasPayment(t', other) <==> HasPayment(t, other)
  {
    forall other | other != id ensures HasPayment(t', other) <==> HasPayment(t, other) {
      if HasPayment(t, other) {
        var p :| p in t.payments && t.payments[p].intentId == other;
        assert t'.payments[p].intentId == other;
      }
    }
  }

  lemma FailInv(s: State, id: Id)
    requires Inv(s) && id in s.tables.intents && s.tables.intents[id].status == Pending
    ensures Inv(State(UpdateStatus(s.tables, id, Failed, ""), s.nextId, s.chain + [id]))
  {
    var s' := State(UpdateStatus(s.tables, id, Failed, ""), s.nextId, s.chain + [id]);
    UpdateKeepsOthers(s.tables, s'.tables, id);
    forall other | other in s'.tables.intents ensures IntentOk(s', other) {
      assert IntentOk(s, other);
    }
    forall p | p in s'.tables.payments ensures PaymentOk(s', p) {
      assert PaymentOk(s, p);
    }
  }

  lemma PaymentFits(s: State, id: Id, digest: string)
    requires Inv(s) && id in s.tables.intents && s.tables.intents[id].status == Pending
    ensures var payment := NewPayment(id, s.tables.intents[id].terms, digest);
      CanInsertPayment(UpdateStatus(s.tables, id, Submitted, digest), s.nextId, payment)
    ensures !HasPayment(s.tables, id) && multiset(s.chain)[id] == 0
  {
    assert IntentOk(s, id);
    assert s.nextId in s.tables.payments ==> PaymentOk(s, s.nextId);
  }

  function Paying(s: State, id: Id, digest: string): State
    requires id in s.tables.intents
  {
    var payment := NewPayment(id, s.tables.intents[id].terms, digest);
    State(InsertPayment(UpdateStatus(s.tables, id, Submitted, digest), s.nextId, payment), s.nextId + 1, s.chain + [id])
  }

  lemma PayIntents(s: State, id: Id, digest: string)
    requires Inv(s) && id in s.tables.intents && s.tables.intents[id].status == Pending
    ensures var s' := Paying(s, id, digest);
      forall other | other in s'.tables.intents :: other < s'.nextId && IntentOk(s', other)
  {
    var s' := Paying(s, id, digest);
    PaymentFits(s, id, digest);
    UpdateKeepsOthers(s.tables, s'.tables, id);
    assert s'.tables.payments[s.nextId].intentId == id;
    forall other | other in s'.tables.intents ensures IntentOk(s', other) {
      assert IntentOk(s, other);
    }
  }

  lemma PayPayments(s: State, id: Id, digest: string)
    requires Inv(s) && id in s.tables.intents && s.tables.intents[id].status == Pending
    ensures var s' := Paying(s, id, digest);
      && (forall p | p in s'.tables.payments :: PaymentOk(s', p))
      && (forall p, q | p in s'.tables.payments && q in s'.tables.payments && p != q ::
          s'.tables.payments[p].intentId != s'.tables.payments[q].intentId)
  {
    var s' := Paying(s, id, digest);
    PaymentFits(s, id, digest);
    hide IntentOk;
    forall p | p in s'.tables.payments ensures PaymentOk(s', p) {
      assert p in s.tables.payments ==> PaymentOk(s, p);
    }
  }

  /** The mark and the payment row go in together. */
  lemma PayInv(s: State, id: Id, digest: string)
    requires Inv(s) && id in s.tables.intents && s.tables.intents[id].status == Pending
    ensures var payment := NewPayment(id, s.tables.intents[id].terms, digest);
      CanInsertPayment(UpdateStatus(s.tables, id, Submitted, digest), s.nextId, payment)
    ensures Inv(Paying(s, id, digest))
  {
    PaymentFits(s, id, digest);
    PayIntents(s, id, digest);
    PayPayments(s, id, digest);
    hide IntentOk, PaymentOk;
  }

  lemma SubmitInv(s: State, id: Id, userId: string, now: int, decodes: bool, exec: Option<string>)
    requires Inv(s)
    ensures Inv(AfterSubmit(s, id, userId, now, decodes, exec))
  {
    if SubmitRefusal(s.tables, id, userId, now).None? && decodes {
      if exec.None? {
        FailInv(s, id);
      } else {
        PayInv(s, id, exec.value);
      }
    }
  }

  lemma CancelInv(s: State, id: Id, userId: string)
    requires Inv(s)
    ensures Inv(AfterCancel(s, id, userId))
  {
    var s' := AfterCancel(s, id, userId);
    UpdateKeepsOthers(s.tables, s'.tables, id);
    forall other | other in s'.tables.intents ensures IntentOk(s', other) {
      assert IntentOk(s, other);
      assert HasPayment(s'.tables, other) <==> HasPayment(s.tables, other);
    }
    forall p | p in s'.tables.payments ensures PaymentOk(s', p) {
      assert PaymentOk(s, p);
    }
  }

  lemma {:induction false} RunInv(calls: seq<Call>)
    ensures Inv(Run(EMPTY, calls))
  {
    var n := |calls|;
    if n == 0 {
    } else {
      RunInv(calls[..n - 1]);
      var s := Run(EMPTY, calls[..n - 1]);
      match calls[n - 1]
      case Create(userId, req, now, sponsorAddress) => CreateInv(s, userId, req, now, sponsorAddress);
      case Submit(id, userId, now, decodes, exec) => SubmitInv(s, id, userId, now, decodes, exec);
      case Cancel(id, userId) => CancelInv(s, id, userId);
    }
  }

  /** In every serial run an intent reaches the chain at most once, has a payment exactly
      when it is submitted, and then both carry one digest; failed and cancelled intents
      have neither payment nor digest; pending and cancelled ones were never executed. */
  lemma Lifecycle(calls: seq<Call>, id: Id)
    requires id in Run(EMPTY, calls).tables.intents
    ensures var (t, intent) := (Run(EMPTY, calls).tables, Run(EMPTY, calls).tables.intents[id]);
      && multiset(Run(EMPTY, calls).chain)[id] <= 1
      && (HasPayment(t, id) <==> intent.status == Submitted)
      && (forall p | p in t.payments && t.payments[p].intentId == id ::
            var terms := intent.terms;
            t.payments[p] == Payment(id, terms.userId, terms.recipient, terms.asset, terms.amount, intent.txDigest))
      && (intent.status != Submitted ==> intent.txDigest == "")
      && (intent.status in {Pending, Cancelled} <==> id !in Run(EMPTY, calls).chain)
  {
    RunInv(calls);
    var s := Run(EMPTY, calls);
    assert IntentOk(s, id);
    forall p | p in s.tables.payments && s.tables.payments[p].intentId == id
      ensures s.tables.payments[p] == NewPayment(id, s.tables.intents[id].terms, s.tables.intents[id].txDigest)
    {
      assert PaymentOk(s, p);
    }
    assert id in s.chain ==> id in multiset(s.chain);
  }

  lemma StepSettled(s: State, call: Call, id: Id)
    requires id in s.tables.intents && s.tables.intents[id].status != Pending
    ensures var s' := After(s, call);
      && id in s'.tables.intents && s'.tables.intents[id] == s.tables.intents[id]
      && multiset(s'.chain)[id] == multiset(s.chain)[id]
  {
  }

  /** An intent that has left `pending` never changes again, and is not executed again. */
  lemma {:induction false} SettledForever(s: State, calls: seq<Call>, id: Id)
    requires id in s.tables.intents && s.tables.intents[id].status != Pending
    ensures var s' := Run(s, calls);
      && id in s'.tables.intents && s'.tables.intents[id] == s.tables.intents[id]
      && multiset(s'.chain)[id] == multiset(s.chain)[id]
  {
    var n := |calls|;
    if n == 0 {
    } else {
      SettledForever(s, calls[..n - 1], id);
      StepSettled(Run(s, calls[..n - 1]), calls[n - 1], id);
    }
  }

  /** No idempotency key belongs to two intents. */
  lemma {:induction false} KeysAreUnique(calls: seq<Call>)
    ensures UniqueKeys(Run(EMPTY, calls).tables)
  {
    var n := |calls|;
    if n == 0 {
    } else {
      KeysAreUnique(calls[..n - 1]);
    }
  }

  // ----- The service -----

  class Service {
    var intents: map<Id, Intent>
    var payments: map<Id, Payment>
    var nextId: Id
    const sponsorAddress: string
    ghost var chain: seq<Id>

    constructor (sponsorAddress: string)
      ensures Snapshot() == EMPTY && this.sponsorAddress == sponsorAddress
    {
      this.sponsorAddress := sponsorAddress;
      intents, payments, nextId, chain := map[], map[], 0, [];
    }

    function Rows(): Tables
      reads this
    {
      Tables(intents, payments)
    }

    ghost function Snapshot(): State
      reads this
    {
      State(Rows(), nextId, chain)
    }

    method NewID() returns (id: Id)
      modifies this`nextId
      ensures id == old(nextId) && nextId == old(nextId) + 1
    {
      id := nextId;
      nextId := nextId + 1;
    }

    /** A key that is taken is answered with its intent, whoever asks: the answer is the
        caller's own exactly if no other user's intent has the key. */
    method CreateIntent(userId: string, req: CreateRequest, now: int) returns (r: Result<Created, Error>)
      modifies this
      ensures Snapshot() == AfterCreate(old(Snapshot()), userId, req, now, sponsorAddress)
      ensures Validate(req).Some? ==> intents == old(intents)
      ensures Validate(req).Some? ==>
        r == if req.asset != "USDsui" then Err(AssetUnsupported)
             else if req.amount in {"", "0"} then Err(InvalidAmount)
             else if !("0x" <= req.recipient && |req.recipient| == 66) then Err(InvalidAddress)
             else Err(InvalidAmount)
      ensures Validate(req).None? <==>
        && req.asset == "USDsui" && req.amount !in {"", "0"}
        && "0x" <= req.recipient && |req.recipient| == 66 && req.idempotencyKey != ""
      ensures Validate(req).None? && KeyTaken(old(Rows()), req.idempotencyKey) ==>
        r.Ok? && OwnsKey(old(Rows()), r.value.intentId, req.idempotencyKey)
        && var stored := old(intents)[r.value.intentId];
          r.value == Created(r.value.intentId, stored.terms, stored.status)
      ensures r.Ok? && UniqueKeys(old(Rows())) ==> (r.value.terms.userId == userId
        <==> forall id | OwnsKey(old(Rows()), id, req.idempotencyKey) :: old(intents)[id].terms.userId == userId)
      ensures r.Ok? <==>
        && req.asset == "USDsui" && req.amount !in {"", "0"}
        && "0x" <= req.recipient && |req.recipient| == 66 && req.idempotencyKey != ""
        && ((exists id :: id in old(intents) && old(intents)[id].terms.idempotencyKey == req.idempotencyKey)
            || (old(nextId) !in old(intents) && !req.mode.Unknown?))
      ensures payments == old(payments) && chain == old(chain)
      ensures intents == if r.Ok? && r.value.intentId !in old(intents)
        then old(intents)[r.value.intentId := Intent(r.value.terms, Pending, "")] else old(intents)
      ensures Validate(req).None? && !KeyTaken(old(Rows()), req.idempotencyKey) ==>
        if r.Ok? then r.value.intentId == old(nextId) && r.value.intentId in intents
          && Intent(r.value.terms, Pending, "") == intents[r.value.intentId] && r.value.status == Pending
          && r.value.terms.userId == userId && r.value.terms.idempotencyKey == req.idempotencyKey
          && r.value.terms.recipient == req.recipient && r.value.terms.recipientName == req.recipientName
          && r.value.terms.asset == req.asset && r.value.terms.amount == req.amount
          && r.value.terms.mode == (if req.mode == Unset then UserPaid else req.mode)
          && r.value.terms.sponsorAddress == (if req.mode == Sponsored then sponsorAddress else "")
          && r.value.terms.expiresAt == now + 120
        else r == Err(StoreFailed) && intents == old(intents)
    {
      if req.asset != SUPPORTED_ASSET {
        return Err(AssetUnsupported);
      }
      if req.amount == "" || req.amount == "0" {
        return Err(InvalidAmount);
      }
      if !("0x" <= req.recipient) || |req.recipient| != 66 {
        return Err(InvalidAddress);
      }
      if req.idempotencyKey == "" {
        return Err(InvalidAmount);
      }
      if KeyTaken(Rows(), req.idempotencyKey) {
        var id :| id in intents && intents[id].terms.idempotencyKey == req.idempotencyKey;
        return Ok(Created(id, intents[id].terms, intents[id].status));
      }
      var id := NewID();
      var terms := NewTerms(userId, req, now, sponsorAddress);
      if !CanInsertIntent(Rows(), id, terms) {
        return Err(StoreFailed);
      }
      intents := intents[id := Intent(terms, Pending, "")];
      return Ok(Created(id, terms, Pending));
    }

    method UpdateIntentStatus(id: Id, status: Status, txDigest: string)
      modifies this`intents
      ensures Rows() == UpdateStatus(old(Rows()), id, status, txDigest)
      ensures intents == if id in old(intents)
        then old(intents)[id := Intent(old(intents)[id].terms, status, txDigest)] else old(intents)
    {
      if id in intents {
        intents := intents[id := intents[id].(status := status, txDigest := txDigest)];
      }
    }

    method CreatePayment(id: Id, p: Payment)
      modifies this`payments
      ensures Rows() == if CanInsertPayment(old(Rows()), id, p) then InsertPayment(old(Rows()), id, p) else old(Rows())
      ensures payments == if id !in old(payments) && p.intentId in intents
          && (forall q | q in old(payments) :: old(payments)[q].intentId != p.intentId)
        then old(payments)[id := p] else old(payments)
    {
      if CanInsertPayment(Rows(), id, p) {
        payments := payments[id := p];
      }
    }

    /** `exec` is what the chain answers, should it be asked. */
    method SubmitIntent(id: Id, userId: string, now: int, decodes: bool, exec: Option<string>)
      returns (r: Result<Paid, Error>)
      modifies this
      ensures Snapshot() == AfterSubmit(old(Snapshot()), id, userId, now, decodes, exec)
      ensures r == if id !in old(intents) || old(intents)[id].terms.userId != userId then Err(IntentNotFound)
             else if old(intents)[id].status != Pending then Err(IntentNotPending)
             else if old(intents)[id].terms.expiresAt < now then Err(IntentExpired)
             else if !decodes then Err(UndecodableTransaction)
             else if exec.None? then Err(SubmitFailed)
             else Ok(Paid(old(nextId), exec.value))
      ensures r.Err? && r.error != SubmitFailed ==>
        intents == old(intents) && payments == old(payments) && chain == old(chain)
      ensures r == Err(SubmitFailed) ==>
        && intents == old(intents)[id := Intent(old(intents)[id].terms, Failed, "")]
        && payments == old(payments) && chain == old(chain) + [id]
      ensures r.Ok? ==>
        var terms := old(intents)[id].terms;
        var unpaid := forall q | q in old(payments) :: old(payments)[q].intentId != id;
        && intents == old(intents)[id := Intent(terms, Submitted, r.value.txDigest)] && chain == old(chain) + [id]
        && payments == (if old(nextId) !in old(payments) && unpaid then old(payments)[old(nextId) :=
             Payment(id, terms.userId, terms.recipient, terms.asset, terms.amount, r.value.txDigest)]
           else old(payments))
    {
      var refusal := SubmitRefusal(Rows(), id, userId, now);
      if refusal.Some? {
        return Err(refusal.value);
      }
      if !decodes {
        return Err(UndecodableTransaction);
      }
      var terms := intents[id].terms;
      chain := chain + [id];
      if exec.None? {
        UpdateIntentStatus(id, Failed, "");
        return Err(SubmitFailed);
      }
      UpdateIntentStatus(id, Submitted, exec.value);
      var paymentId := NewID();
      CreatePayment(paymentId, NewPayment(id, terms, exec.value));
      return Ok(Paid(paymentId, exec.value));
    }

    method CancelIntent(id: Id, userId: string) returns (refusal: Option<Error>)
      modifies this
      ensures Snapshot() == AfterCancel(old(Snapshot()), id, userId)
      ensures refusal == if id !in old(intents) || old(intents)[id].terms.userId != userId then Some(IntentNotFound)
                         else if old(intents)[id].status != Pending then Some(IntentNotPending)
                         else None
      ensures refusal.None? ==> intents == old(intents)[id := old(intents)[id].(status := Cancelled, txDigest := "")]
      ensures refusal.Some? ==> intents == old(intents)
      ensures payments == old(payments) && chain == old(chain)
    {
      refusal := CancelRefusal(Rows(), id, userId);
      if refusal.None? {
        UpdateIntentStatus(id, Cancelled, "");
      }
    }
  }
}
