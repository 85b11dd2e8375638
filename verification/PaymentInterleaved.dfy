/** The payment service at store-call granularity: every read, write and execution of
    every call is its own step, and any store call may fail. */
module PaymentInterleaved {
  import opened Wrappers
  import opened PaymentModel
  import Serial = PaymentSerial

  /** The next store call of one service call, with the values it has read so far. */
  datatype Pc =
    | CreateCheck(userId: string, req: CreateRequest)
    | CreateInsert(id: Id, terms: Terms)
    | SubmitRead(userId: string, id: Id)
    | SubmitExecute(id: Id, terms: Terms)
    | SubmitFail(id: Id)
    | SubmitMark(id: Id, terms: Terms, digest: string)
    | SubmitPay(id: Id, terms: Terms, digest: string)
    | CancelRead(userId: string, id: Id)
    | CancelMark(id: Id)
    | Finished(failed: bool)
  {
    predicate IsEntry() {
      CreateCheck? || SubmitRead? || CancelRead?
    }
  }

  datatype State = State(tables: Tables, nextId: Id, chain: seq<Id>, calls: map<nat, Pc>)

  /** The clock, the store's answer, the base64 decoder and the chain, for one step. */
  datatype Env = Env(now: int, readFails: bool, reply: Reply, decodes: bool, exec: Option<string>)

  datatype Step = Begin(call: nat, pc: Pc) | Advance(call: nat, env: Env)

  ghost predicate Enabled(s: State, step: Step) {
    match step
    case Begin(c, pc) => c !in s.calls && pc.IsEntry()
    case Advance(c, _) => c in s.calls && !s.calls[c].Finished?
  }

  /** What a statement does to the tables. */
  datatype Change =
    | NoChange
    | AddIntent(id: Id, terms: Terms)
    | SetStatus(id: Id, status: Status, digest: string)
    | AddPayment(id: Id, payment: Payment)

  function Apply(t: Tables, change: Change): Tables {
    match change
    case NoChange => t
    case AddIntent(id, terms) => InsertIntent(t, id, terms)
    case SetStatus(id, status, digest) => UpdateStatus(t, id, status, digest)
    case AddPayment(id, payment) => InsertPayment(t, id, payment)
  }

  /** One store call or execution: its change, where the call goes on, whether it took a
      fresh id and what it executed. */
  datatype Effect = Effect(change: Change, pc: Pc, usedId: bool, executed: seq<Id>)

  function Move(pc: Pc): Effect {
    Effect(NoChange, pc, false, [])
  }

  /** A statement that may fail, or fail only in the eyes of its caller. */
  function Write(change: Change, reply: Reply, pc: Pc): Effect {
    Effect(if reply.TookEffect() then change else NoChange, pc, false, [])
  }

  function EffectOf(t: Tables, nextId: Id, pc: Pc, env: Env, sponsorAddress: string): Effect {
    match pc
    case CreateCheck(userId, req) =>
      if Validate(req).Some? || env.readFails then Move(Finished(true))
      else if KeyTaken(t, req.idempotencyKey) then Move(Finished(false))
      else Effect(NoChange, CreateInsert(nextId, NewTerms(userId, req, env.now, sponsorAddress)), true, [])
    case CreateInsert(id, terms) =>
      if !CanInsertIntent(t, id, terms) then Move(Finished(true))
      else Write(AddIntent(id, terms), env.reply, Finished(env.reply != Done))
    case SubmitRead(userId, id) =>
      if env.readFails || SubmitRefusal(t, id, userId, env.now).Some? || !env.decodes then Move(Finished(true))
      else Move(SubmitExecute(id, t.intents[id].terms))
    case SubmitExecute(id, terms) =>
      Effect(NoChange, if env.exec.None? then SubmitFail(id) else SubmitMark(id, terms, env.exec.value), false, [id])
    case SubmitFail(id) => Write(SetStatus(id, Failed, ""), env.reply, Finished(true))
    case SubmitMark(id, terms, digest) =>
      Write(SetStatus(id, Submitted, digest), env.reply, SubmitPay(id, terms, digest))
    case SubmitPay(id, terms, digest) =>
      var payment := NewPayment(id, terms, digest);
      var change := if CanInsertPayment(t, nextId, payment) then AddPayment(nextId, payment) else NoChange;
      Write(change, env.reply, Finished(false)).(usedId := true)
    case CancelRead(userId, id) =>
      if env.readFails || CancelRefusal(t, id, userId).Some? then Move(Finished(true))
      else Move(CancelMark(id))
    case CancelMark(id) => Write(SetStatus(id, Cancelled, ""), env.reply, Finished(env.reply != Done))
    case Finished(_) => Move(pc)
  }

  function Advanced(s: State, c: nat, env: Env, sponsorAddress: string): State
    requires c in s.calls
  {
    var e := EffectOf(s.tables, s.nextId, s.calls[c], env, sponsorAddress);
    State(Apply(s.tables, e.change), if e.usedId then s.nextId + 1 else s.nextId,
      s.chain + e.executed, s.calls[c := e.pc])
  }

  ghost function Next(s: State, step: Step, sponsorAddress: string): State
    requires Enabled(s, step)
  {
    match step
    case Begin(c, pc) => s.(calls := s.calls[c := pc])
    case Advance(c, env) => Advanced(s, c, env, sponsorAddress)
  }

  ghost predicate Runnable(s: State, steps: seq<Step>, sponsorAddress: string)
    decreases |steps|, 0
  {
    var n := |steps|;
    n == 0 || (Runnable(s, steps[..n - 1], sponsorAddress)
      && Enabled(Run(s, steps[..n - 1], sponsorAddress), steps[n - 1]))
  }

  ghost function Run(s: State, steps: seq<Step>, sponsorAddress: string): State
    requires Runnable(s, steps, sponsorAddress)
    decreases |steps|, 1
  {
    var n := |steps|;
    if n == 0 then s else Next(Run(s, steps[..n - 1], sponsorAddress), steps[n - 1], sponsorAddress)
  }

  const EMPTY := State(Tables(map[], map[]), 0, [], map[])

  // ----- What every interleaving keeps -----

  /** A sponsor is named exactly in sponsored mode. */
  predicate SponsorOk(terms: Terms) {
    terms.sponsorAddress != "" <==> terms.mode == Sponsored
  }

  /** The terms that a call carries are those of the stored intent. */
  ghost predicate PcOk(t: Tables, pc: Pc) {
    match pc
    case CreateInsert(_, terms) => SponsorOk(terms)
    case SubmitExecute(id, terms) => id in t.intents && t.intents[id].terms == terms
    case SubmitMark(id, terms, _) => id in t.intents && t.intents[id].terms == terms
    case SubmitPay(id, terms, _) => id in t.intents && t.intents[id].terms == terms
    case SubmitFail(id) => id in t.intents
    case CancelMark(id) => id in t.intents
    case _ => true
  }

  ghost predicate PaymentMatches(t: Tables, p: Payment) {
    && p.intentId in t.intents
    && var terms := t.intents[p.intentId].terms;
      p.userId == terms.userId && p.recipient == terms.recipient && p.asset == terms.asset && p.amount == terms.amount
  }

  ghost predicate OnePaymentEach(t: Tables) {
    forall p, q | p in t.payments && q in t.payments && p != q :: t.payments[p].intentId != t.payments[q].intentId
  }

  ghost predicate TablesOk(t: Tables) {
    && UniqueKeys(t) && OnePaymentEach(t)
    && (forall id | id in t.intents :: SponsorOk(t.intents[id].terms))
    && (forall p | p in t.payments :: PaymentMatches(t, t.payments[p]))
  }

  ghost predicate Inv(s: State) {
    && TablesOk(s.tables)
    && (forall p | p in s.tables.payments :: p < s.nextId)
    && (forall c | c in s.calls :: PcOk(s.tables, s.calls[c]))
  }

  /** Intents stay, their terms never change, and none returns to `pending`; payments
      stay as they are. */
  ghost predicate Keeps(t: Tables, t': Tables) {
    && (forall id | id in t.intents ::
        id in t'.intents && t'.intents[id].terms == t.intents[id].terms
        && (t.intents[id].status != Pending ==> t'.intents[id].status != Pending))
    && (forall p | p in t.payments :: p in t'.payments && t'.payments[p] == t.payments[p])
  }

  /** What the statements of the service may be. */
  ghost predicate ChangeOk(t: Tables, nextId: Id, change: Change) {
    match change
    case NoChange => true
    case AddIntent(id, terms) => CanInsertIntent(t, id, terms) && SponsorOk(terms)
    case SetStatus(_, status, _) => status != Pending
    case AddPayment(id, payment) => id == nextId && CanInsertPayment(t, id, payment) && PaymentMatches(t, payment)
  }

  lemma UpdateOk(t: Tables, t': Tables)
    requires TablesOk(t) && t'.payments == t.payments && t'.intents.Keys == t.intents.Keys
    requires forall id | id in t.intents :: t'.intents[id].terms == t.intents[id].terms
    ensures TablesOk(t')
  {
    forall p | p in t'.payments ensures PaymentMatches(t', t'.payments[p]) {
      assert PaymentMatches(t, t.payments[p]);
    }
  }

  lemma InsertIntentOk(t: Tables, id: Id, terms: Terms)
    requires TablesOk(t) && CanInsertIntent(t, id, terms) && SponsorOk(terms)
    ensures TablesOk(InsertIntent(t, id, terms))
  {
    var t' := InsertIntent(t, id, terms);
    forall p | p in t'.payments ensures PaymentMatches(t', t'.payments[p]) {
      assert PaymentMatches(t, t.payments[p]);
    }
  }

  lemma InsertPaymentOk(t: Tables, id: Id, p: Payment)
    requires TablesOk(t) && CanInsertPayment(t, id, p) && PaymentMatches(t, p)
    ensures TablesOk(InsertPayment(t, id, p))
  {
    var t' := InsertPayment(t, id, p);
    forall q | q in t'.payments ensures PaymentMatches(t', t'.payments[q]) {
      assert q != id ==> PaymentMatches(t, t.payments[q]);
    }
  }

  lemma ChangeKeeps(t: Tables, nextId: Id, change: Change)
    requires TablesOk(t) && ChangeOk(t, nextId, change)
    ensures TablesOk(Apply(t, change)) && Keeps(t, Apply(t, change))
  {
    match change
    case NoChange =>
    case AddIntent(id, terms) => InsertIntentOk(t, id, terms);
    case SetStatus(_, _, _) => UpdateOk(t, Apply(t, change));
    case AddPayment(id, payment) => InsertPaymentOk(t, id, payment);
  }

  lemma EffectOk(t: Tables, nextId: Id, pc: Pc, env: Env, sponsorAddress: string)
    requires PcOk(t, pc) && sponsorAddress != ""
    ensures var e := EffectOf(t, nextId, pc, env, sponsorAddress);
      && ChangeOk(t, nextId, e.change) && PcOk(t, e.pc)
      && (e.change.AddPayment? ==> e.usedId)
  {
  }

  lemma PcOkKept(t: Tables, t': Tables, pc: Pc)
    requires PcOk(t, pc) && Keeps(t, t')
    ensures PcOk(t', pc)
  {
  }

  lemma StepInv(s: State, step: Step, sponsorAddress: string)
    requires Inv(s) && Enabled(s, step) && sponsorAddress != ""
    ensures Inv(Next(s, step, sponsorAddress)) && Keeps(s.tables, Next(s, step, sponsorAddress).tables)
  {
    if step.Advance? {
      assert PcOk(s.tables, s.calls[step.call]);
      EffectOk(s.tables, s.nextId, s.calls[step.call], step.env, sponsorAddress);
      var e := EffectOf(s.tables, s.nextId, s.calls[step.call], step.env, sponsorAddress);
      ChangeKeeps(s.tables, s.nextId, e.change);
      PcOkKept(s.tables, Apply(s.tables, e.change), e.pc);
      var s' := Next(s, step, sponsorAddress);
      forall c | c in s'.calls ensures PcOk(s'.tables, s'.calls[c]) {
        if c != step.call {
          PcOkKept(s.tables, s'.tables, s.calls[c]);
        }
      }
    }
  }

  /** From any good state, every interleaving keeps the tables good: one intent for each
      idempotency key, at most one payment for each intent, payments with the terms of
      their intents, sponsors exactly where they belong. */
  lemma {:induction false} RunKeeps(s: State, steps: seq<Step>, sponsorAddress: string)
    requires Inv(s) && Runnable(s, steps, sponsorAddress) && sponsorAddress != ""
    ensures Inv(Run(s, steps, sponsorAddress)) && Keeps(s.tables, Run(s, steps, sponsorAddress).tables)
  {
    var n := |steps|;
    if n == 0 {
    } else {
      RunKeeps(s, steps[..n - 1], sponsorAddress);
      var before := Run(s, steps[..n - 1], sponsorAddress);
      StepInv(before, steps[n - 1], sponsorAddress);
      KeepsChain(s.tables, before.tables, Run(s, steps, sponsorAddress).tables);
    }
  }

  lemma KeepsChain(t: Tables, t': Tables, t'': Tables)
    requires Keeps(t, t') && Keeps(t', t'')
    ensures Keeps(t, t'')
  {
  }

  lemma EmptyIsGood()
    ensures Inv(EMPTY)
  {
  }

  // ----- An undisturbed call is a serial call -----

  /** All steps of one call in a row, under one answer of the environment. */
  function Drive(s: State, c: nat, env: Env, sponsorAddress: string, steps: nat): State
    requires c in s.calls
    ensures Drive(s, c, env, sponsorAddress, steps).calls.Keys == s.calls.Keys
    decreases steps
  {
    if steps == 0 then s else Drive(Advanced(s, c, env, sponsorAddress), c, env, sponsorAddress, steps - 1)
  }

  function AsSerial(s: State): Serial.State {
    Serial.State(s.tables, s.nextId, s.chain)
  }

  function Calm(now: int, decodes: bool, exec: Option<string>): Env {
    Env(now, false, Done, decodes, exec)
  }

  lemma UndisturbedSubmit(s: State, c: nat, userId: string, id: Id, now: int, decodes: bool, exec: Option<string>,
      sponsorAddress: string)
    requires c in s.calls && s.calls[c] == SubmitRead(userId, id)
    ensures var s' := Drive(s, c, Calm(now, decodes, exec), sponsorAddress, 4);
      s'.calls[c].Finished? && AsSerial(s') == Serial.AfterSubmit(AsSerial(s), id, userId, now, decodes, exec)
  {
    var env := Calm(now, decodes, exec);
    var s1 := Advanced(s, c, env, sponsorAddress);
    var s2 := Advanced(s1, c, env, sponsorAddress);
    var s3 := Advanced(s2, c, env, sponsorAddress);
    var s4 := Advanced(s3, c, env, sponsorAddress);
    assert Drive(s2, c, env, sponsorAddress, 2) == Drive(s3, c, env, sponsorAddress, 1)
      == Drive(s4, c, env, sponsorAddress, 0);
    assert Drive(s, c, env, sponsorAddress, 4) == Drive(s1, c, env, sponsorAddress, 3) == s4;
  }

  lemma UndisturbedCreate(s: State, c: nat, userId: string, req: CreateRequest, now: int, sponsorAddress: string)
    requires c in s.calls && s.calls[c] == CreateCheck(userId, req)
    ensures var s' := Drive(s, c, Calm(now, true, None), sponsorAddress, 2);
      s'.calls[c].Finished? && AsSerial(s') == Serial.AfterCreate(AsSerial(s), userId, req, now, sponsorAddress)
  {
    var env := Calm(now, true, None);
    var s1 := Advanced(s, c, env, sponsorAddress);
    var s2 := Advanced(s1, c, env, sponsorAddress);
    assert Drive(s, c, env, sponsorAddress, 2) == Drive(s1, c, env, sponsorAddress, 1)
      == Drive(s2, c, env, sponsorAddress, 0);
  }

  lemma UndisturbedCancel(s: State, c: nat, userId: string, id: Id, now: int, sponsorAddress: string)
    requires c in s.calls && s.calls[c] == CancelRead(userId, id)
    ensures var s' := Drive(s, c, Calm(now, true, None), sponsorAddress, 2);
      s'.calls[c].Finished? && AsSerial(s') == Serial.AfterCancel(AsSerial(s), id, userId)
  {
    var env := Calm(now, true, None);
    var s1 := Advanced(s, c, env, sponsorAddress);
    var s2 := Advanced(s1, c, env, sponsorAddress);
    assert Drive(s, c, env, sponsorAddress, 2) == Drive(s1, c, env, sponsorAddress, 1)
      == Drive(s2, c, env, sponsorAddress, 0);
  }

  // ----- Store calls that fail -----

  /** A read that fails ends its call and changes nothing. */
  lemma FailedRead(s: State, c: nat, env: Env, sponsorAddress: string)
    requires c in s.calls && s.calls[c].IsEntry() && env.readFails
    ensures Advanced(s, c, env, sponsorAddress) == s.(calls := s.calls[c := Finished(true)])
  {
    assert s.chain + [] == s.chain;
  }

  /** A write that is refused changes no table, and one whose reply is lost changes what it
      would have changed. A submit goes on in either case and a create or cancel fails. */
  lemma FailedWrite(s: State, c: nat, env: Env, sponsorAddress: string)
    requires c in s.calls && env.reply != Done
    requires var pc := s.calls[c];
      pc.CreateInsert? || pc.SubmitFail? || pc.SubmitMark? || pc.SubmitPay? || pc.CancelMark?
    ensures var (pc, s') := (s.calls[c], Advanced(s, c, env, sponsorAddress));
      && s'.tables == (if env.reply == Refused then s.tables
                       else Advanced(s, c, env.(reply := Done), sponsorAddress).tables)
      && s'.calls == s.calls[c :=
        if pc.SubmitMark? then SubmitPay(pc.id, pc.terms, pc.digest) else Finished(!pc.SubmitPay?)]
  {
  }

  // ----- What interleaving breaks -----

  /** A state in which two calls have both read one live pending intent. */
  ghost predicate BothRead(s: State, id: Id, a: nat, pcA: Pc, b: nat, pcB: Pc) {
    && a != b && a in s.calls && b in s.calls && s.calls[a] == pcA && s.calls[b] == pcB
    && id in s.tables.intents && s.tables.intents[id].status == Pending
  }

  /** Any such intent can be read by a submit and by a second submit or a cancel before
      either goes on. */
  lemma BothCanRead(s: State, id: Id, a: nat, b: nat, cancels: bool, env: Env, sponsorAddress: string)
    requires id in s.tables.intents && s.tables.intents[id].status == Pending
    requires env.now <= s.tables.intents[id].terms.expiresAt && !env.readFails && env.decodes
    requires a != b && a !in s.calls && b !in s.calls
    ensures var terms := s.tables.intents[id].terms;
      var pcA := SubmitRead(terms.userId, id);
      var pcB := if cancels then CancelRead(terms.userId, id) else SubmitRead(terms.userId, id);
      var steps := [Begin(a, pcA), Begin(b, pcB), Advance(a, env), Advance(b, env)];
      && Runnable(s, steps, sponsorAddress)
      && var s' := Run(s, steps, sponsorAddress);
        && s'.tables == s.tables && s'.nextId == s.nextId
        && BothRead(s', id, a, SubmitExecute(id, terms), b,
                    if cancels then CancelMark(id) else SubmitExecute(id, terms))
  {
    var terms := s.tables.intents[id].terms;
    var pcA := SubmitRead(terms.userId, id);
    var pcB := if cancels then CancelRead(terms.userId, id) else SubmitRead(terms.userId, id);
    RunSnoc(s, [], Begin(a, pcA), sponsorAddress);
    RunSnoc(s, [Begin(a, pcA)], Begin(b, pcB), sponsorAddress);
    RunSnoc(s, [Begin(a, pcA), Begin(b, pcB)], Advance(a, env), sponsorAddress);
    RunSnoc(s, [Begin(a, pcA), Begin(b, pcB), Advance(a, env)], Advance(b, env), sponsorAddress);
    assert [] + [Begin(a, pcA)] == [Begin(a, pcA)];
    assert [Begin(a, pcA)] + [Begin(b, pcB)] == [Begin(a, pcA), Begin(b, pcB)];
    assert [Begin(a, pcA), Begin(b, pcB)] + [Advance(a, env)] == [Begin(a, pcA), Begin(b, pcB), Advance(a, env)];
    assert [Begin(a, pcA), Begin(b, pcB), Advance(a, env)] + [Advance(b, env)]
      == [Begin(a, pcA), Begin(b, pcB), Advance(a, env), Advance(b, env)];
  }

  lemma RunSnoc(s: State, steps: seq<Step>, step: Step, sponsorAddress: string)
    requires Runnable(s, steps, sponsorAddress) && Enabled(Run(s, steps, sponsorAddress), step)
    ensures Runnable(s, steps + [step], sponsorAddress)
    ensures Run(s, steps + [step], sponsorAddress) == Next(Run(s, steps, sponsorAddress), step, sponsorAddress)
  {
    assert (steps + [step])[..|steps|] == steps;
  }

  /** A cancel that has read then overwrites the submit: cancelled, executed and paid. */
  lemma CancelOverwritesSubmit(s: State, id: Id, a: nat, b: nat, terms: Terms, digest: string, sponsorAddress: string)
    requires BothRead(s, id, a, SubmitExecute(id, terms), b, CancelMark(id))
    requires !HasPayment(s.tables, id) && s.nextId !in s.tables.payments
    ensures var env := Calm(0, true, Some(digest));
      var s' := Advanced(Drive(s, a, env, sponsorAddress, 3), b, env, sponsorAddress);
      && id in s'.tables.intents && s'.tables.intents[id].status == Cancelled
      && HasPayment(s'.tables, id) && id in s'.chain
  {
    var env := Calm(0, true, Some(digest));
    var s1 := Advanced(s, a, env, sponsorAddress);
    var s2 := Advanced(s1, a, env, sponsorAddress);
    var s3 := Advanced(s2, a, env, sponsorAddress);
    assert Drive(s, a, env, sponsorAddress, 3) == Drive(s1, a, env, sponsorAddress, 2)
      == Drive(s2, a, env, sponsorAddress, 1)
      == Drive(s3, a, env, sponsorAddress, 0);
    assert !HasPayment(s2.tables, id);
    var s' := Advanced(s3, b, env, sponsorAddress);
    assert s'.tables.payments[s.nextId].intentId == id;
  }

  /** Two submits that have read both reach the chain. */
  lemma TwoSubmitsExecuteTwice(s: State, id: Id, a: nat, b: nat, terms: Terms, env: Env, sponsorAddress: string)
    requires BothRead(s, id, a, SubmitExecute(id, terms), b, SubmitExecute(id, terms))
    ensures multiset(Advanced(Advanced(s, a, env, sponsorAddress), b, env, sponsorAddress).chain)[id] >= 2
  {
    var s2 := Advanced(Advanced(s, a, env, sponsorAddress), b, env, sponsorAddress);
    assert s2.chain == s.chain + [id] + [id];
  }
}
