/** Exactly when the lifecycle of an intent survives interleaving: no submit is admitted
    while another call is between its read and its last write on the intent, no cancel
    while a submit is, and every write of a submit takes effect. */
module PaymentOrderly {
  import opened Wrappers
  import opened PaymentModel
  import opened PaymentInterleaved

  // ----- Calls that have read an intent and not written it yet -----

  predicate Submitting(pc: Pc, id: Id) {
    (pc.SubmitExecute? || pc.SubmitFail? || pc.SubmitMark? || pc.SubmitPay?) && pc.id == id
  }

  predicate Cancelling(pc: Pc, id: Id) {
    pc.CancelMark? && pc.id == id
  }

  ghost predicate NoSubmit(calls: map<nat, Pc>, id: Id) {
    forall c | c in calls :: !Submitting(calls[c], id)
  }

  ghost predicate NoCancel(calls: map<nat, Pc>, id: Id) {
    forall c | c in calls :: !Cancelling(calls[c], id)
  }

  /** A read of the intent that lets its call go on. */
  predicate Admits(t: Tables, pc: Pc, env: Env, id: Id) {
    match pc
    case SubmitRead(userId, i) =>
      i == id && !env.readFails && env.decodes && SubmitRefusal(t, id, userId, env.now).None?
    case CancelRead(userId, i) => i == id && !env.readFails && CancelRefusal(t, id, userId).None?
    case _ => false
  }

  /** What a step must not do to one intent. */
  ghost predicate Safe(s: State, step: Step, id: Id) {
    match step
    case Begin(_, _) => true
    case Advance(c, env) =>
      c in s.calls ==>
        var pc := s.calls[c];
        && (pc.SubmitRead? && Admits(s.tables, pc, env, id) ==> NoSubmit(s.calls, id) && NoCancel(s.calls, id))
        && (pc.CancelRead? && Admits(s.tables, pc, env, id) ==> NoSubmit(s.calls, id))
        && (Submitting(pc, id) && !pc.SubmitExecute? ==> env.reply.TookEffect())
  }

  ghost predicate Orderly(s: State, steps: seq<Step>, id: Id, sponsorAddress: string)
    requires Runnable(s, steps, sponsorAddress)
  {
    var n := |steps|;
    n == 0 || (Orderly(s, steps[..n - 1], id, sponsorAddress)
      && Safe(Run(s, steps[..n - 1], sponsorAddress), steps[n - 1], id))
  }

  // ----- What the tables and the chain say of one intent -----

  datatype View = View(status: Status, digest: string, paid: bool, matching: bool, executions: nat)

  ghost predicate PaymentsMatch(t: Tables, id: Id)
    requires id in t.intents
  {
    forall p | p in t.payments && t.payments[p].intentId == id :: t.payments[p].txDigest == t.intents[id].txDigest
  }

  ghost function ViewOf(t: Tables, chain: seq<Id>, id: Id): View
    requires id in t.intents
  {
    View(t.intents[id].status, t.intents[id].txDigest, HasPayment(t, id), PaymentsMatch(t, id), multiset(chain)[id])
  }

  /** An intent that no call is at work on. */
  predicate Settled(v: View) {
    match v.status
    case Pending => v.digest == "" && !v.paid && v.executions == 0
    case Submitted => v.paid && v.executions == 1
    case Failed => v.digest == "" && !v.paid && v.executions == 1
    case Cancelled => v.digest == "" && !v.paid && v.executions == 0
    case Confirmed => false
  }

  /** How far a call at work on the intent has got. */
  predicate Stage(pc: Pc, v: View) {
    match pc
    case SubmitExecute(_, _) => v.status == Pending && v.digest == "" && !v.paid && v.executions == 0
    case SubmitFail(_) => v.status == Pending && v.digest == "" && !v.paid && v.executions == 1
    case SubmitMark(_, _, _) => v.status == Pending && v.digest == "" && !v.paid && v.executions == 1
    case SubmitPay(_, _, digest) => v.status == Submitted && v.digest == digest && !v.paid && v.executions == 1
    case CancelMark(_) => v.status in {Pending, Cancelled} && v.digest == "" && !v.paid && v.executions == 0
    case _ => true
  }

  ghost predicate Alone(calls: map<nat, Pc>, id: Id) {
    forall a, b | a in calls && b in calls && Submitting(calls[a], id) ::
      (Submitting(calls[b], id) ==> a == b) && !Cancelling(calls[b], id)
  }

  ghost predicate Flow(v: View, calls: map<nat, Pc>, id: Id) {
    && v.matching && Alone(calls, id)
    && (NoSubmit(calls, id) ==> Settled(v))
    && (forall c | c in calls && (Submitting(calls[c], id) || Cancelling(calls[c], id)) :: Stage(calls[c], v))
  }

  ghost predicate FlowInv(s: State, id: Id) {
    && Inv(s)
    && (id !in s.tables.intents ==> id !in s.chain)
    && (id in s.tables.intents ==> Flow(ViewOf(s.tables, s.chain, id), s.calls, id))
  }

  // ----- Steps that leave the view as it is -----

  lemma FlowMoves(v: View, calls: map<nat, Pc>, id: Id, c: nat, pc: Pc)
    requires Flow(v, calls, id) && (c in calls ==> !Submitting(calls[c], id))
    requires !Submitting(pc, id) && !Cancelling(pc, id)
    ensures Flow(v, calls[c := pc], id)
  {
    if x :| x in calls && Submitting(calls[x], id) {
      assert Submitting(calls[c := pc][x], id);
    }
  }

  lemma FlowAdmits(v: View, calls: map<nat, Pc>, id: Id, c: nat, pc: Pc)
    requires Flow(v, calls, id) && v.status == Pending && NoSubmit(calls, id)
    requires (pc.SubmitExecute? && NoCancel(calls, id)) || pc.CancelMark?
    ensures Flow(v, calls[c := pc], id)
  {
    if pc.CancelMark? {
      assert NoSubmit(calls[c := pc], id);
    } else if pc.id == id {
      assert Submitting(calls[c := pc][c], id);
    }
  }

  // ----- Steps of a call at work on the intent -----

  lemma FlowSubmits(v: View, v': View, calls: map<nat, Pc>, id: Id, c: nat, pc: Pc)
    requires Flow(v, calls, id) && c in calls && Submitting(calls[c], id) && v'.matching
    requires if Submitting(pc, id) then Stage(pc, v') else pc.Finished? && Settled(v')
    ensures Flow(v', calls[c := pc], id)
  {
    var calls' := calls[c := pc];
    assert forall b | b in calls && b != c :: !Submitting(calls'[b], id) && !Cancelling(calls'[b], id);
    assert Submitting(pc, id) ==> Submitting(calls'[c], id);
  }

  lemma FlowCancels(v: View, calls: map<nat, Pc>, id: Id, c: nat, failed: bool)
    requires Flow(v, calls, id) && c in calls && Cancelling(calls[c], id)
    ensures Flow(v, calls[c := Finished(failed)], id)
    ensures Flow(v.(status := Cancelled, digest := ""), calls[c := Finished(failed)], id)
  {
    assert NoSubmit(calls, id);
    assert Stage(calls[c], v);
  }

  // ----- What statements do to the view -----

  /** Statements about other intents. */
  predicate Elsewhere(change: Change, id: Id) {
    match change
    case NoChange => true
    case AddIntent(i, _) => i != id
    case SetStatus(i, _, _) => i != id
    case AddPayment(_, payment) => payment.intentId != id
  }

  lemma SamePayments(t: Tables, t': Tables, id: Id)
    requires id in t.intents && id in t'.intents && t'.intents[id] == t.intents[id]
    requires forall p | p in t.payments :: p in t'.payments && t'.payments[p] == t.payments[p]
    requires forall p | p in t'.payments && p !in t.payments :: t'.payments[p].intentId != id
    ensures HasPayment(t', id) == HasPayment(t, id) && PaymentsMatch(t', id) == PaymentsMatch(t, id)
  {
    if HasPayment(t, id) {
      var p :| p in t.payments && t.payments[p].intentId == id;
      assert t'.payments[p].intentId == id;
    }
    if PaymentsMatch(t', id) {
      forall p | p in t.payments && t.payments[p].intentId == id
        ensures t.payments[p].txDigest == t.intents[id].txDigest
      {
        assert t'.payments[p].txDigest == t'.intents[id].txDigest;
      }
    }
  }

  lemma ElsewhereView(t: Tables, chain: seq<Id>, change: Change, executed: seq<Id>, id: Id)
    requires id in t.intents && Elsewhere(change, id) && id !in executed
    requires change.AddPayment? ==> change.id !in t.payments
    ensures id in Apply(t, change).intents
    ensures ViewOf(Apply(t, change), chain + executed, id) == ViewOf(t, chain, id)
  {
    SamePayments(t, Apply(t, change), id);
    assert multiset(chain + executed) == multiset(chain) + multiset(executed);
  }

  lemma StatusView(t: Tables, chain: seq<Id>, id: Id, status: Status, digest: string)
    requires id in t.intents && !HasPayment(t, id)
    ensures var v := ViewOf(t, chain, id);
      ViewOf(UpdateStatus(t, id, status, digest), chain, id) == v.(status := status, digest := digest, matching := true)
  {
    var t' := UpdateStatus(t, id, status, digest);
    assert !HasPayment(t', id);
    assert forall p | p in t.payments :: t.payments[p].intentId != id;
  }

  lemma PaymentView(t: Tables, chain: seq<Id>, id: Id, p: Id, payment: Payment)
    requires CanInsertPayment(t, p, payment) && payment.intentId == id && payment.txDigest == t.intents[id].txDigest
    ensures ViewOf(InsertPayment(t, p, payment), chain, id) == ViewOf(t, chain, id).(paid := true, matching := true)
  {
    var t' := InsertPayment(t, p, payment);
    assert t'.payments[p].intentId == id;
    assert forall q | q in t.payments :: t.payments[q].intentId != id;
  }

  lemma ExecutedView(t: Tables, chain: seq<Id>, id: Id)
    requires id in t.intents
    ensures var v := ViewOf(t, chain, id);
      ViewOf(t, chain + [id], id) == v.(executions := v.executions + 1)
  {
  }

  // ----- Every safe step keeps the flow -----

  ghost predicate HasFlow(s: State, id: Id) {
    id in s.tables.intents && Flow(ViewOf(s.tables, s.chain, id), s.calls, id)
  }

  lemma SubmitStep(s: State, c: nat, env: Env, id: Id, sponsorAddress: string)
    requires Inv(s) && HasFlow(s, id) && c in s.calls && Submitting(s.calls[c], id)
    requires s.calls[c].SubmitExecute? || env.reply.TookEffect()
    ensures HasFlow(Advanced(s, c, env, sponsorAddress), id)
  {
    var (t, chain, v) := (s.tables, s.chain, ViewOf(s.tables, s.chain, id));
    assert Stage(s.calls[c], v) && PcOk(t, s.calls[c]);
    var s' := Advanced(s, c, env, sponsorAddress);
    hide Flow, ViewOf, Inv;
    match s.calls[c]
    case SubmitExecute(_, terms) =>
      ExecutedView(t, chain, id);
      FlowSubmits(v, v.(executions := 1), s.calls, id, c, s'.calls[c]);
    case SubmitFail(_) =>
      StatusView(t, chain, id, Failed, "");
      FlowSubmits(v, v.(status := Failed, digest := "", matching := true), s.calls, id, c, s'.calls[c]);
    case SubmitMark(_, terms, digest) =>
      StatusView(t, chain, id, Submitted, digest);
      FlowSubmits(v, v.(status := Submitted, digest := digest, matching := true), s.calls, id, c, s'.calls[c]);
    case SubmitPay(_, terms, digest) => PayStep(s, c, env, id, sponsorAddress);
  }

  lemma ViewParts(t: Tables, chain: seq<Id>, id: Id)
    requires id in t.intents
    ensures var v := ViewOf(t, chain, id);
      v.status == t.intents[id].status && v.digest == t.intents[id].txDigest && (v.paid <==> HasPayment(t, id))
  {
  }

  lemma PayStep(s: State, c: nat, env: Env, id: Id, sponsorAddress: string)
    requires Inv(s) && HasFlow(s, id) && c in s.calls && Submitting(s.calls[c], id)
    requires s.calls[c].SubmitPay? && env.reply.TookEffect()
    ensures HasFlow(Advanced(s, c, env, sponsorAddress), id)
  {
    var (t, chain, v, pc) := (s.tables, s.chain, ViewOf(s.tables, s.chain, id), s.calls[c]);
    assert Stage(pc, v) && PcOk(t, pc);
    ViewParts(t, chain, id);
    assert s.nextId !in t.payments;
    var payment := NewPayment(id, pc.terms, pc.digest);
    assert CanInsertPayment(t, s.nextId, payment);
    hide Flow, ViewOf, Inv;
    PaymentView(t, chain, id, s.nextId, payment);
    FlowSubmits(v, v.(paid := true, matching := true), s.calls, id, c, Finished(false));
    assert chain + [] == chain;
  }

  lemma CancelStep(s: State, c: nat, env: Env, id: Id, sponsorAddress: string)
    requires HasFlow(s, id) && c in s.calls && Cancelling(s.calls[c], id)
    ensures HasFlow(Advanced(s, c, env, sponsorAddress), id)
  {
    var (t, chain, v) := (s.tables, s.chain, ViewOf(s.tables, s.chain, id));
    assert Stage(s.calls[c], v) && v.matching;
    ViewParts(t, chain, id);
    hide Flow, ViewOf;
    FlowCancels(v, s.calls, id, c, env.reply != Done);
    StatusView(t, chain, id, Cancelled, "");
    assert chain + [] == chain;
  }

  /** A step of a call that is not at work on the intent. */
  lemma OtherEffect(s: State, c: nat, env: Env, id: Id, sponsorAddress: string)
    requires Inv(s) && id in s.tables.intents && c in s.calls
    requires !Submitting(s.calls[c], id) && !Cancelling(s.calls[c], id)
    ensures var e := EffectOf(s.tables, s.nextId, s.calls[c], env, sponsorAddress);
      && Elsewhere(e.change, id) && id !in e.executed && (e.change.AddPayment? ==> e.change.id !in s.tables.payments)
      && (Submitting(e.pc, id) ==>
          e.pc.SubmitExecute? && s.calls[c].SubmitRead? && Admits(s.tables, s.calls[c], env, id))
      && (Cancelling(e.pc, id) ==> s.calls[c].CancelRead? && Admits(s.tables, s.calls[c], env, id))
  {
  }

  lemma OtherStep(s: State, c: nat, env: Env, id: Id, sponsorAddress: string)
    requires Inv(s) && HasFlow(s, id) && c in s.calls && Safe(s, Advance(c, env), id)
    requires !Submitting(s.calls[c], id) && !Cancelling(s.calls[c], id)
    ensures HasFlow(Advanced(s, c, env, sponsorAddress), id)
  {
    var e := EffectOf(s.tables, s.nextId, s.calls[c], env, sponsorAddress);
    var v := ViewOf(s.tables, s.chain, id);
    OtherEffect(s, c, env, id, sponsorAddress);
    ElsewhereView(s.tables, s.chain, e.change, e.executed, id);
    ViewParts(s.tables, s.chain, id);
    hide Flow, ViewOf, EffectOf, Inv, Elsewhere, Apply;
    if Submitting(e.pc, id) || Cancelling(e.pc, id) {
      FlowAdmits(v, s.calls, id, c, e.pc);
    } else {
      FlowMoves(v, s.calls, id, c, e.pc);
    }
  }

  /** Nothing but its insert speaks of an intent that is not there. */
  lemma InsertEffect(s: State, c: nat, env: Env, id: Id, sponsorAddress: string)
    requires Inv(s) && id !in s.tables.intents && c in s.calls
    ensures var e := EffectOf(s.tables, s.nextId, s.calls[c], env, sponsorAddress);
      && id !in e.executed
      && (id in Apply(s.tables, e.change).intents ==>
          e.change.AddIntent? && e.change.id == id && e.pc.Finished? && e.executed == [])
  {
    assert PcOk(s.tables, s.calls[c]);
  }

  /** Before it is inserted, an intent has no payment, no execution and no call. */
  lemma InsertStep(s: State, c: nat, env: Env, id: Id, sponsorAddress: string)
    requires Inv(s) && id !in s.tables.intents && id !in s.chain && c in s.calls
    ensures var s' := Advanced(s, c, env, sponsorAddress);
      if id in s'.tables.intents then HasFlow(s', id) else id !in s'.chain
  {
    var e := EffectOf(s.tables, s.nextId, s.calls[c], env, sponsorAddress);
    var s' := Advanced(s, c, env, sponsorAddress);
    InsertEffect(s, c, env, id, sponsorAddress);
    NobodyAtWork(s, id);
    hide EffectOf, Inv, ViewOf;
    if id in s'.tables.intents {
      NewView(s, id, e.change.terms);
      assert NoSubmit(s'.calls, id) && NoCancel(s'.calls, id);
    }
  }

  lemma NobodyAtWork(s: State, id: Id)
    requires Inv(s) && id !in s.tables.intents
    ensures NoSubmit(s.calls, id) && NoCancel(s.calls, id)
  {
    forall x | x in s.calls ensures !Submitting(s.calls[x], id) && !Cancelling(s.calls[x], id) {
      assert PcOk(s.tables, s.calls[x]);
    }
  }

  lemma NewView(s: State, id: Id, terms: Terms)
    requires Inv(s) && id !in s.tables.intents && id !in s.chain
    ensures ViewOf(InsertIntent(s.tables, id, terms), s.chain + [], id) == View(Pending, "", false, true, 0)
  {
    var t := InsertIntent(s.tables, id, terms);
    forall p | p in s.tables.payments ensures s.tables.payments[p].intentId != id {
      assert PaymentMatches(s.tables, s.tables.payments[p]);
    }
    assert !HasPayment(t, id) && PaymentsMatch(t, id) && s.chain + [] == s.chain;
    assert id !in multiset(s.chain);
  }

  lemma StepFlow(s: State, step: Step, id: Id, sponsorAddress: string)
    requires FlowInv(s, id) && Enabled(s, step) && Safe(s, step, id) && sponsorAddress != ""
    ensures FlowInv(Next(s, step, sponsorAddress), id)
  {
    StepInv(s, step, sponsorAddress);
    match step
    case Begin(c, pc) =>
      if id in s.tables.intents {
        FlowMoves(ViewOf(s.tables, s.chain, id), s.calls, id, c, pc);
      }
    case Advance(c, env) =>
      hide Inv, Flow, ViewOf, Advanced;
      if id !in s.tables.intents {
        InsertStep(s, c, env, id, sponsorAddress);
      } else if Submitting(s.calls[c], id) {
        SubmitStep(s, c, env, id, sponsorAddress);
      } else if Cancelling(s.calls[c], id) {
        CancelStep(s, c, env, id, sponsorAddress);
      } else {
        OtherStep(s, c, env, id, sponsorAddress);
      }
  }

  lemma {:induction false} OrderlyFlow(s: State, steps: seq<Step>, id: Id, sponsorAddress: string)
    requires FlowInv(s, id) && sponsorAddress != ""
    requires Runnable(s, steps, sponsorAddress) && Orderly(s, steps, id, sponsorAddress)
    ensures FlowInv(Run(s, steps, sponsorAddress), id)
  {
    var n := |steps|;
    if n == 0 {
    } else {
      OrderlyFlow(s, steps[..n - 1], id, sponsorAddress);
      StepFlow(Run(s, steps[..n - 1], sponsorAddress), steps[n - 1], id, sponsorAddress);
    }
  }

  // ----- The lifecycle -----

  /** What a serial run promises of an intent. */
  ghost predicate LifecycleHolds(s: State, id: Id)
    requires id in s.tables.intents
  {
    var (t, intent) := (s.tables, s.tables.intents[id]);
    && multiset(s.chain)[id] <= 1
    && (HasPayment(t, id) <==> intent.status == Submitted)
    && (forall p | p in t.payments && t.payments[p].intentId == id ::
        var terms := intent.terms;
        t.payments[p] == Payment(id, terms.userId, terms.recipient, terms.asset, terms.amount, intent.txDigest))
    && (intent.status != Submitted ==> intent.txDigest == "")
    && (intent.status in {Pending, Cancelled} <==> id !in s.chain)
  }

  /** Executed twice, or left by all submits in a state that no serial run reaches. */
  ghost predicate Broken(s: State, id: Id) {
    id in s.tables.intents && (multiset(s.chain)[id] >= 2 || (NoSubmit(s.calls, id) && !LifecycleHolds(s, id)))
  }

  lemma FlowIsNotBroken(s: State, id: Id)
    requires FlowInv(s, id)
    ensures !Broken(s, id)
  {
    if id in s.tables.intents {
      var v := ViewOf(s.tables, s.chain, id);
      if NoSubmit(s.calls, id) {
        assert Settled(v);
        assert id in s.chain <==> id in multiset(s.chain);
        forall p | p in s.tables.payments && s.tables.payments[p].intentId == id
          ensures s.tables.payments[p] == NewPayment(id, s.tables.intents[id].terms, s.tables.intents[id].txDigest)
        {
          assert PaymentMatches(s.tables, s.tables.payments[p]);
        }
      } else {
        var c :| c in s.calls && Submitting(s.calls[c], id);
        assert Stage(s.calls[c], v);
      }
    }
  }

  /** An orderly run, however it interleaves and whatever fails apart from the writes
      named, keeps the whole serial lifecycle of the intent. */
  lemma OrderlyLifecycle(steps: seq<Step>, id: Id, sponsorAddress: string)
    requires Runnable(EMPTY, steps, sponsorAddress) && Orderly(EMPTY, steps, id, sponsorAddress) && sponsorAddress != ""
    ensures !Broken(Run(EMPTY, steps, sponsorAddress), id)
  {
    OrderlyFlow(EMPTY, steps, id, sponsorAddress);
    FlowIsNotBroken(Run(EMPTY, steps, sponsorAddress), id);
  }

  // ----- The other half: every unsafe step has safe ones after it that break the intent -----

  lemma {:induction false} RunCons(s: State, step: Step, rest: seq<Step>, id: Id, sponsorAddress: string)
    requires Enabled(s, step) && Runnable(Next(s, step, sponsorAddress), rest, sponsorAddress)
    requires Safe(s, step, id) && Orderly(Next(s, step, sponsorAddress), rest, id, sponsorAddress)
    ensures Runnable(s, [step] + rest, sponsorAddress) && Orderly(s, [step] + rest, id, sponsorAddress)
    ensures Run(s, [step] + rest, sponsorAddress) == Run(Next(s, step, sponsorAddress), rest, sponsorAddress)
    decreases |rest|
  {
    var n := |rest|;
    if n == 0 {
      OrderlySnoc(s, [], step, id, sponsorAddress);
      assert [step] + rest == [] + [step];
    } else {
      RunCons(s, step, rest[..n - 1], id, sponsorAddress);
      OrderlySnoc(s, [step] + rest[..n - 1], rest[n - 1], id, sponsorAddress);
      assert [step] + rest == [step] + rest[..n - 1] + [rest[n - 1]];
    }
  }

  lemma OrderlySnoc(s: State, steps: seq<Step>, step: Step, id: Id, sponsorAddress: string)
    requires Runnable(s, steps, sponsorAddress) && Orderly(s, steps, id, sponsorAddress)
    requires Enabled(Run(s, steps, sponsorAddress), step) && Safe(Run(s, steps, sponsorAddress), step, id)
    ensures Runnable(s, steps + [step], sponsorAddress) && Orderly(s, steps + [step], id, sponsorAddress)
    ensures Run(s, steps + [step], sponsorAddress) == Next(Run(s, steps, sponsorAddress), step, sponsorAddress)
  {
    assert (steps + [step])[..|steps|] == steps;
  }

  function StepsLeft(pc: Pc): nat {
    match pc
    case SubmitExecute(_, _) => 3
    case SubmitMark(_, _, _) => 2
    case SubmitPay(_, _, _) => 1
    case SubmitFail(_) => 1
    case _ => 0
  }

  /** An orderly continuation to a broken intent. */
  ghost predicate BreaksBy(s: State, ext: seq<Step>, id: Id, sponsorAddress: string) {
    && Runnable(s, ext, sponsorAddress) && Orderly(s, ext, id, sponsorAddress)
    && Broken(Run(s, ext, sponsorAddress), id)
  }

  ghost predicate CanBreak(s: State, id: Id, sponsorAddress: string) {
    exists ext :: BreaksBy(s, ext, id, sponsorAddress)
  }

  /** A submit that has been executed or is about to be can run to its end. */
  lemma Finish(s: State, a: nat, id: Id, sponsorAddress: string) returns (ext: seq<Step>)
    requires a in s.calls && Submitting(s.calls[a], id) && id in s.tables.intents
    requires s.calls[a].SubmitExecute? || id in s.chain
    ensures Runnable(s, ext, sponsorAddress) && Orderly(s, ext, id, sponsorAddress)
    ensures var s' := Run(s, ext, sponsorAddress);
      && a in s'.calls && s'.calls == s.calls[a := s'.calls[a]] && s'.calls[a].Finished?
      && id in s'.tables.intents && id in s'.chain
    decreases StepsLeft(s.calls[a])
  {
    var env := Calm(0, true, Some("digest"));
    var s1 := Advanced(s, a, env, sponsorAddress);
    var rest: seq<Step> := [];
    if s1.calls[a].Finished? {
    } else {
      rest := Finish(s1, a, id, sponsorAddress);
    }
    ext := [Advance(a, env)] + rest;
    hide Runnable, Run, Orderly;
    NothingLeft(s1, id, sponsorAddress);
    RunCons(s, Advance(a, env), rest, id, sponsorAddress);
  }

  lemma NothingLeft(s: State, id: Id, sponsorAddress: string)
    ensures Runnable(s, [], sponsorAddress) && Orderly(s, [], id, sponsorAddress) && Run(s, [], sponsorAddress) == s
  {
  }

  /** A cancel that has read marks whatever the intent has become. */
  lemma CancelLast(s: State, c: nat, id: Id, sponsorAddress: string)
    requires c in s.calls && s.calls[c] == CancelMark(id) && id in s.tables.intents && id in s.chain
    requires forall x | x in s.calls && x != c :: !Submitting(s.calls[x], id)
    ensures Broken(Advanced(s, c, Calm(0, true, None), sponsorAddress), id)
    ensures Advanced(s, c, Calm(0, true, None), sponsorAddress).tables.intents[id].status == Cancelled
  {
    var s' := Advanced(s, c, Calm(0, true, None), sponsorAddress);
    assert NoSubmit(s'.calls, id);
    assert s'.chain == s.chain;
  }

  /** A submit runs to its end and then a cancel marks. */
  lemma FinishThenCancel(s: State, a: nat, c: nat, id: Id, sponsorAddress: string) returns (ext: seq<Step>)
    requires a in s.calls && c in s.calls && a != c && Submitting(s.calls[a], id) && s.calls[c] == CancelMark(id)
    requires id in s.tables.intents && (s.calls[a].SubmitExecute? || id in s.chain)
    requires forall x | x in s.calls && x != a :: !Submitting(s.calls[x], id)
    ensures BreaksBy(s, ext, id, sponsorAddress)
  {
    var before := Finish(s, a, id, sponsorAddress);
    var s' := Run(s, before, sponsorAddress);
    CancelLast(s', c, id, sponsorAddress);
    hide Runnable, Run, Orderly;
    ext := before + [Advance(c, Calm(0, true, None))];
    OrderlySnoc(s, before, Advance(c, Calm(0, true, None)), id, sponsorAddress);
  }

  /** Two submits have read: both are executed. */
  lemma SecondExecution(s: State, a: nat, c: nat, id: Id, sponsorAddress: string) returns (ext: seq<Step>)
    requires a in s.calls && c in s.calls && a != c && Submitting(s.calls[a], id) && id in s.tables.intents
    requires s.calls[c].SubmitExecute? && s.calls[c].id == id
    requires s.calls[a].SubmitExecute? || multiset(s.chain)[id] >= 1
    ensures BreaksBy(s, ext, id, sponsorAddress)
  {
    var env := Calm(0, true, Some("digest"));
    var s1 := Advanced(s, c, env, sponsorAddress);
    assert s1.chain == s.chain + [id];
    NothingLeft(s1, id, sponsorAddress);
    if s.calls[a].SubmitExecute? {
      var s2 := Advanced(s1, a, env, sponsorAddress);
      assert s2.chain == s.chain + [id] + [id];
      NothingLeft(s2, id, sponsorAddress);
      RunCons(s1, Advance(a, env), [], id, sponsorAddress);
      RunCons(s, Advance(c, env), [Advance(a, env)], id, sponsorAddress);
      ext := [Advance(c, env)] + [Advance(a, env)];
      assert [Advance(a, env)] + [] == [Advance(a, env)];
    } else {
      RunCons(s, Advance(c, env), [], id, sponsorAddress);
      ext := [Advance(c, env)] + [];
    }
  }

  /** A submit is admitted while another call is at work. */
  lemma SubmitOverlaps(s: State, c: nat, env: Env, id: Id, sponsorAddress: string) returns (ext: seq<Step>)
    requires FlowInv(s, id) && c in s.calls && s.calls[c].SubmitRead? && Admits(s.tables, s.calls[c], env, id)
    requires !(NoSubmit(s.calls, id) && NoCancel(s.calls, id))
    ensures var s1 := Advanced(s, c, env, sponsorAddress);
      BreaksBy(s1, ext, id, sponsorAddress)
  {
    var s1 := Advanced(s, c, env, sponsorAddress);
    var v := ViewOf(s.tables, s.chain, id);
    ViewParts(s.tables, s.chain, id);
    assert s1.chain == s.chain && s1.tables == s.tables;
    if a :| a in s.calls && Submitting(s.calls[a], id) {
      assert Stage(s.calls[a], v);
      ext := SecondExecution(s1, a, c, id, sponsorAddress);
    } else {
      var a :| a in s.calls && Cancelling(s.calls[a], id);
      ext := FinishThenCancel(s1, c, a, id, sponsorAddress);
    }
  }

  /** A cancel is admitted while a submit is at work. */
  lemma CancelOverlaps(s: State, c: nat, env: Env, id: Id, sponsorAddress: string) returns (ext: seq<Step>)
    requires FlowInv(s, id) && c in s.calls && s.calls[c].CancelRead? && Admits(s.tables, s.calls[c], env, id)
    requires !NoSubmit(s.calls, id)
    ensures var s1 := Advanced(s, c, env, sponsorAddress);
      BreaksBy(s1, ext, id, sponsorAddress)
  {
    var s1 := Advanced(s, c, env, sponsorAddress);
    var v := ViewOf(s.tables, s.chain, id);
    ViewParts(s.tables, s.chain, id);
    assert s1.chain == s.chain && s1.tables == s.tables;
    var a :| a in s.calls && Submitting(s.calls[a], id);
    assert Stage(s.calls[a], v);
    assert id in multiset(s.chain) ==> id in s.chain;
    ext := FinishThenCancel(s1, a, c, id, sponsorAddress);
  }

  /** A write of a submit does not take effect. */
  lemma WriteIsLost(s: State, c: nat, env: Env, id: Id, sponsorAddress: string) returns (ext: seq<Step>)
    requires FlowInv(s, id) && c in s.calls && Submitting(s.calls[c], id)
    requires !s.calls[c].SubmitExecute? && !env.reply.TookEffect()
    ensures var s1 := Advanced(s, c, env, sponsorAddress);
      BreaksBy(s1, ext, id, sponsorAddress)
  {
    var (s1, v) := (Advanced(s, c, env, sponsorAddress), ViewOf(s.tables, s.chain, id));
    assert PcOk(s.tables, s.calls[c]) && Stage(s.calls[c], v);
    ViewParts(s.tables, s.chain, id);
    assert id in multiset(s.chain) && id in s.chain && s1.chain == s.chain && s1.tables == s.tables;
    assert s1.nextId !in s1.tables.payments;
    assert forall x | x in s1.calls && x != c :: !Submitting(s1.calls[x], id);
    hide FlowInv, Inv, ViewOf;
    if s.calls[c].SubmitMark? {
      ext := PayPending(s1, c, id, sponsorAddress);
    } else {
      assert NoSubmit(s1.calls, id);
      NothingLeft(s1, id, sponsorAddress);
      ext := [];
    }
  }

  lemma PayPending(s: State, c: nat, id: Id, sponsorAddress: string) returns (ext: seq<Step>)
    requires c in s.calls && s.calls[c].SubmitPay? && s.calls[c].id == id && s.nextId !in s.tables.payments
    requires id in s.tables.intents && s.tables.intents[id].status == Pending && !HasPayment(s.tables, id)
    requires forall x | x in s.calls && x != c :: !Submitting(s.calls[x], id)
    ensures BreaksBy(s, ext, id, sponsorAddress)
  {
    var env := Calm(0, true, None);
    var s' := Advanced(s, c, env, sponsorAddress);
    assert s'.tables.payments[s.nextId].intentId == id && s'.tables.intents == s.tables.intents;
    assert NoSubmit(s'.calls, id);
    NothingLeft(s', id, sponsorAddress);
    RunCons(s, Advance(c, env), [], id, sponsorAddress);
    ext := [Advance(c, env)] + [];
  }

  /** The first unsafe step of a run is one too many: from it the run can go on, with safe
      steps only, so that the intent is executed twice, or left in a state that no serial
      run reaches. */
  lemma UnsafeBreaks(steps: seq<Step>, step: Step, id: Id, sponsorAddress: string) returns (ext: seq<Step>)
    requires Runnable(EMPTY, steps, sponsorAddress) && Orderly(EMPTY, steps, id, sponsorAddress) && sponsorAddress != ""
    requires Enabled(Run(EMPTY, steps, sponsorAddress), step) && !Safe(Run(EMPTY, steps, sponsorAddress), step, id)
    ensures var s1 := Next(Run(EMPTY, steps, sponsorAddress), step, sponsorAddress);
      && Runnable(s1, ext, sponsorAddress) && Orderly(s1, ext, id, sponsorAddress)
      && Broken(Run(s1, ext, sponsorAddress), id)
  {
    var s := Run(EMPTY, steps, sponsorAddress);
    OrderlyFlow(EMPTY, steps, id, sponsorAddress);
    var (c, env) := (step.call, step.env);
    hide FlowInv, Run, Runnable, Orderly, Broken;
    if s.calls[c].SubmitRead? {
      ext := SubmitOverlaps(s, c, env, id, sponsorAddress);
    } else if s.calls[c].CancelRead? {
      ext := CancelOverlaps(s, c, env, id, sponsorAddress);
    } else {
      ext := WriteIsLost(s, c, env, id, sponsorAddress);
    }
  }

  lemma FlowCannotBreak(s: State, id: Id, sponsorAddress: string)
    requires FlowInv(s, id) && sponsorAddress != ""
    ensures !CanBreak(s, id, sponsorAddress)
  {
    hide FlowInv, Broken;
    forall ext | Runnable(s, ext, sponsorAddress) && Orderly(s, ext, id, sponsorAddress)
      ensures !Broken(Run(s, ext, sponsorAddress), id)
    {
      OrderlyFlow(s, ext, id, sponsorAddress);
      FlowIsNotBroken(Run(s, ext, sponsorAddress), id);
    }
  }

  /** The lifecycle, exactly: in a run that was orderly so far, the next step is unsafe if
      and only if the run can go on from it, with safe steps only, to a broken intent. */
  lemma UnsafeIffCanBreak(steps: seq<Step>, step: Step, id: Id, sponsorAddress: string)
    requires Runnable(EMPTY, steps, sponsorAddress) && Orderly(EMPTY, steps, id, sponsorAddress) && sponsorAddress != ""
    requires Enabled(Run(EMPTY, steps, sponsorAddress), step)
    ensures !Safe(Run(EMPTY, steps, sponsorAddress), step, id)
      <==> CanBreak(Next(Run(EMPTY, steps, sponsorAddress), step, sponsorAddress), id, sponsorAddress)
  {
    var s := Run(EMPTY, steps, sponsorAddress);
    if Safe(s, step, id) {
      OrderlyFlow(EMPTY, steps, id, sponsorAddress);
      StepFlow(s, step, id, sponsorAddress);
      FlowCannotBreak(Next(s, step, sponsorAddress), id, sponsorAddress);
    } else {
      var ext := UnsafeBreaks(steps, step, id, sponsorAddress);
      assert BreaksBy(Next(s, step, sponsorAddress), ext, id, sponsorAddress);
    }
  }

  // ----- A refused mark with nothing in between -----

  /** A call number that is not in use. */
  lemma FreshCall(calls: map<nat, Pc>) returns (c: nat)
    ensures c !in calls
  {
    c := AboveAll(calls.Keys);
  }

  lemma AboveAll(xs: set<nat>) returns (bound: nat)
    ensures forall x | x in xs :: x < bound
    decreases xs
  {
    bound := 0;
    if xs != {} {
      var x :| x in xs;
      var rest := AboveAll(xs - {x});
      bound := if rest <= x then x + 1 else rest;
      forall y | y in xs ensures y < bound {
        assert y == x || y in xs - {x};
      }
    }
  }

  /** One submit alone: its mark is refused, which the service ignores. The intent is
      still pending, and a second submit, alone too, executes it again. */
  lemma RefusedMarkReexecutes(steps: seq<Step>, a: nat, id: Id, env: Env, sponsorAddress: string)
    returns (ext: seq<Step>)
    requires Runnable(EMPTY, steps, sponsorAddress) && Orderly(EMPTY, steps, id, sponsorAddress) && sponsorAddress != ""
    requires var s := Run(EMPTY, steps, sponsorAddress);
      a in s.calls && s.calls[a].SubmitMark? && s.calls[a].id == id && env.reply == Refused
    ensures var s1 := Next(Run(EMPTY, steps, sponsorAddress), Advance(a, env), sponsorAddress);
      && Runnable(s1, ext, sponsorAddress) && multiset(Run(s1, ext, sponsorAddress).chain)[id] >= 2
      && Orderly(s1, ext, id, sponsorAddress)
  {
    var s := Run(EMPTY, steps, sponsorAddress);
    OrderlyFlow(EMPTY, steps, id, sponsorAddress);
    assert PcOk(s.tables, s.calls[a]) && Submitting(s.calls[a], id);
    ViewParts(s.tables, s.chain, id);
    assert Stage(s.calls[a], ViewOf(s.tables, s.chain, id));
    assert forall x | x in s.calls && x != a :: !Submitting(s.calls[x], id) && !Cancelling(s.calls[x], id);
    var s1 := Advanced(s, a, env, sponsorAddress);
    var c := FreshCall(s.calls);
    assert s1.tables == s.tables && s1.chain == s.chain && c !in s1.calls;
    hide FlowInv, Inv;
    ext := ReexecuteFrom(s1, a, c, id, sponsorAddress);
  }

  lemma ReexecuteFrom(s: State, a: nat, c: nat, id: Id, sponsorAddress: string) returns (ext: seq<Step>)
    requires a in s.calls && s.calls[a].SubmitPay? && s.calls[a].id == id && c !in s.calls
    requires forall x | x in s.calls && x != a :: !Submitting(s.calls[x], id) && !Cancelling(s.calls[x], id)
    requires id in s.tables.intents && s.tables.intents[id].status == Pending && multiset(s.chain)[id] == 1
    ensures Runnable(s, ext, sponsorAddress) && multiset(Run(s, ext, sponsorAddress).chain)[id] >= 2
    ensures Orderly(s, ext, id, sponsorAddress)
  {
    var terms := s.tables.intents[id].terms;
    var env := Calm(terms.expiresAt, true, Some("again"));
    var s1 := Advanced(s, a, env, sponsorAddress);
    var begin := Begin(c, SubmitRead(terms.userId, id));
    var s2 := Next(s1, begin, sponsorAddress);
    var s3 := Advanced(s2, c, env, sponsorAddress);
    var s4 := Advanced(s3, c, env, sponsorAddress);
    assert s1.tables.intents == s.tables.intents && s1.chain == s.chain && s3.calls[c] == SubmitExecute(id, terms);
    assert s4.chain == s.chain + [id];
    assert NoSubmit(s2.calls, id) && NoCancel(s2.calls, id);
    ext := [Advance(a, env), begin, Advance(c, env), Advance(c, env)];
    OrderlyTrace([s, s1, s2, s3, s4], ext, id, sponsorAddress);
  }

  lemma {:induction false} OrderlyTrace(states: seq<State>, steps: seq<Step>, id: Id, sponsorAddress: string)
    requires |states| == |steps| + 1
    requires forall i | 0 <= i < |steps| :: Enabled(states[i], steps[i]) && Safe(states[i], steps[i], id)
    requires forall i | 0 <= i < |steps| :: Next(states[i], steps[i], sponsorAddress) == states[i + 1]
    ensures Runnable(states[0], steps, sponsorAddress) && Orderly(states[0], steps, id, sponsorAddress)
    ensures Run(states[0], steps, sponsorAddress) == states[|steps|]
  {
    var n := |steps|;
    if n == 0 {
    } else {
      OrderlyTrace(states[..n], steps[..n - 1], id, sponsorAddress);
    }
  }
}
