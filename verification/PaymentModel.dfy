/** The tables `payment_intents` and `payments`, the statements that change them, and
    the checks that the service makes before it does so. */
module PaymentModel {
  import opened Wrappers

  /** A primary key made by `utils.NewID`. */
  type Id = nat

  /** The cases that the code and the CHECK constraint tell apart in `funding_mode`. */
  datatype Mode = Unset | GaslessStablecoin | Sponsored | UserPaid | Unknown(text: string)

  datatype Status = Pending | Submitted | Confirmed | Failed | Cancelled

  /** The columns of an intent that its first insert fixes. */
  datatype Terms = Terms(
    userId: string, idempotencyKey: string, recipient: string, recipientName: string,
    asset: string, amount: string, mode: Mode, sponsorAddress: string, expiresAt: int)

  datatype Intent = Intent(terms: Terms, status: Status, txDigest: string)

  datatype Payment = Payment(
    intentId: Id, userId: string, recipient: string, asset: string, amount: string, txDigest: string)

  datatype Tables = Tables(intents: map<Id, Intent>, payments: map<Id, Payment>)

  datatype CreateRequest = CreateRequest(
    recipient: string, recipientName: string, asset: string, amount: string, mode: Mode, idempotencyKey: string)

  datatype Error =
    | AssetUnsupported | InvalidAmount | InvalidAddress | IntentNotFound | IntentNotPending | IntentExpired
    | UndecodableTransaction | SubmitFailed | StoreFailed

  const SUPPORTED_ASSET := "USDsui"
  const INTENT_TTL := 120

  // ----- Statements -----

  predicate KeyTaken(t: Tables, key: string) {
    exists id :: id in t.intents && t.intents[id].terms.idempotencyKey == key
  }

  ghost predicate UniqueKeys(t: Tables) {
    forall i, j | i in t.intents && j in t.intents && i != j ::
      t.intents[i].terms.idempotencyKey != t.intents[j].terms.idempotencyKey
  }

  predicate HasPayment(t: Tables, intentId: Id) {
    exists p :: p in t.payments && t.payments[p].intentId == intentId
  }

  /** The primary key, the unique idempotency key and the check on the funding mode. */
  predicate CanInsertIntent(t: Tables, id: Id, terms: Terms) {
    id !in t.intents && !KeyTaken(t, terms.idempotencyKey) && terms.mode in {GaslessStablecoin, Sponsored, UserPaid}
  }

  function InsertIntent(t: Tables, id: Id, terms: Terms): Tables {
    t.(intents := t.intents[id := Intent(terms, Pending, "")])
  }

  /** `UPDATE payment_intents` has no guard on the old status. */
  function UpdateStatus(t: Tables, id: Id, status: Status, txDigest: string): Tables {
    if id in t.intents then t.(intents := t.intents[id := t.intents[id].(status := status, txDigest := txDigest)])
    else t
  }

  /** The primary key, the foreign key and the unique `intent_id`. */
  predicate CanInsertPayment(t: Tables, id: Id, p: Payment) {
    id !in t.payments && p.intentId in t.intents && !HasPayment(t, p.intentId)
  }

  function InsertPayment(t: Tables, id: Id, p: Payment): Tables {
    t.(payments := t.payments[id := p])
  }

  // ----- Checks and rows of the service -----

  function Validate(req: CreateRequest): Option<Error> {
    if req.asset != SUPPORTED_ASSET then Some(AssetUnsupported)
    else if req.amount == "" || req.amount == "0" then Some(InvalidAmount)
    else if !("0x" <= req.recipient) || |req.recipient| != 66 then Some(InvalidAddress)
    else if req.idempotencyKey == "" then Some(InvalidAmount)
    else None
  }

  function NewTerms(userId: string, req: CreateRequest, now: int, sponsorAddress: string): Terms {
    var mode := if req.mode == Unset then UserPaid else req.mode;
    Terms(userId, req.idempotencyKey, req.recipient, req.recipientName, req.asset, req.amount, mode,
      if mode == Sponsored then sponsorAddress else "", now + INTENT_TTL)
  }

  function NewPayment(id: Id, terms: Terms, digest: string): Payment {
    Payment(id, terms.userId, terms.recipient, terms.asset, terms.amount, digest)
  }

  /** Why `SubmitIntent` refuses before it decodes the transaction. */
  function SubmitRefusal(t: Tables, id: Id, userId: string, now: int): Option<Error> {
    if id !in t.intents || t.intents[id].terms.userId != userId then Some(IntentNotFound)
    else if t.intents[id].status != Pending then Some(IntentNotPending)
    else if t.intents[id].terms.expiresAt < now then Some(IntentExpired)
    else None
  }

  function CancelRefusal(t: Tables, id: Id, userId: string): Option<Error> {
    if id !in t.intents || t.intents[id].terms.userId != userId then Some(IntentNotFound)
    else if t.intents[id].status != Pending then Some(IntentNotPending)
    else None
  }
}
