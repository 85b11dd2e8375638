/** `HandleBridgeWebhook`: the existence check and the insert as separate steps of
    concurrent calls over one event table. */
module WebhookInbox {
  import opened Wrappers
  import opened DepositModel
  import opened DepositStore

  datatype Envelope = Envelope(id: string, eventType: string, payload: Payload)

  /** A request: whether its body could be read, whether its signature verifies, and
      what its body parses to. */
  datatype Delivery = Delivery(readable: bool, authentic: bool, envelope: Option<Envelope>)
  {
    predicate Accepted() {
      readable && authentic && envelope.Some? && envelope.value.id != "" && envelope.value.eventType != ""
    }

    /** The answer to a request that never reaches the table. */
    function Rejection(): int
      requires !Accepted()
    {
      if readable && !authentic then 401 else 400
    }
  }

  datatype Phase = Arrived | Absent | Answered(code: int)

  datatype Call = Call(delivery: Delivery, phase: Phase)

  datatype Inbox = Inbox(events: Events, calls: map<nat, Call>)

  predicate Stored(events: Events, providerEventId: string) {
    exists id :: id in events && events[id].providerEventId == providerEventId
  }

  /** The rows of one provider event. */
  function RowsOf(events: Events, providerEventId: string): set<RowId> {
    set id | id in events && events[id].providerEventId == providerEventId
  }

  function NewEvent(e: Envelope, id: RowId, now: int): Event {
    Event(id, e.id, TypeOf(e.eventType), e.payload, false, now)
  }

  datatype Step =
    | Arrive(call: nat, delivery: Delivery)
    | Check(call: nat, fails: bool)
    | Insert(call: nat, id: RowId, now: int, reply: Reply)
    | MarkRow(row: RowId)

  ghost predicate Enabled(s: Inbox, step: Step) {
    match step
    case Arrive(c, _) => c !in s.calls
    case Check(c, _) => c in s.calls && s.calls[c].phase == Arrived
    case Insert(c, _, _, _) => c in s.calls && s.calls[c].phase == Absent && s.calls[c].delivery.Accepted()
    case MarkRow(_) => true
  }

  function Answer(s: Inbox, c: nat, phase: Phase): Inbox
    requires c in s.calls
  {
    s.(calls := s.calls[c := s.calls[c].(phase := phase)])
  }

  ghost function Next(s: Inbox, step: Step): Inbox
    requires Enabled(s, step)
  {
    match step
    case Arrive(c, d) => s.(calls := s.calls[c := Call(d, Arrived)])
    case Check(c, fails) =>
      var d := s.calls[c].delivery;
      if !d.Accepted() then Answer(s, c, Answered(d.Rejection()))
      else if fails then Answer(s, c, Answered(500))
      else if Stored(s.events, d.envelope.value.id) then Answer(s, c, Answered(200))
      else Answer(s, c, Absent)
    case Insert(c, id, now, reply) =>
      var (events, ok) := InsertInto(s.events, NewEvent(s.calls[c].delivery.envelope.value, id, now), reply);
      Answer(s.(events := events), c, Answered(if ok then 200 else 500))
    case MarkRow(row) => s.(events := Mark(s.events, row))
  }

  ghost predicate Runnable(s: Inbox, steps: seq<Step>)
    decreases |steps|, 0
  {
    var n := |steps|;
    n == 0 || (Runnable(s, steps[..n - 1]) && Enabled(Run(s, steps[..n - 1]), steps[n - 1]))
  }

  ghost function Run(s: Inbox, steps: seq<Step>): Inbox
    requires Runnable(s, steps)
    decreases |steps|, 1
  {
    var n := |steps|;
    if n == 0 then s else Next(Run(s, steps[..n - 1]), steps[n - 1])
  }

  // ----- The table -----

  ghost predicate UniqueIds(events: Events) {
    forall i, j | i in events && j in events && i != j :: events[i].providerEventId != events[j].providerEventId
  }

  lemma UniqueRow(events: Events, providerEventId: string)
    requires UniqueIds(events)
    ensures |RowsOf(events, providerEventId)| == if Stored(events, providerEventId) then 1 else 0
  {
    var rows := RowsOf(events, providerEventId);
    if Stored(events, providerEventId) {
      var id :| id in events && events[id].providerEventId == providerEventId;
      assert rows == {id};
    } else {
      assert rows == {};
    }
  }

  /** The answer 200 is given only for an authentic, well-formed and stored delivery. */
  ghost predicate AnswersBacked(s: Inbox) {
    forall c | c in s.calls && s.calls[c].phase == Answered(200) ::
      s.calls[c].delivery.Accepted() && Stored(s.events, s.calls[c].delivery.envelope.value.id)
  }

  ghost predicate Inv(s: Inbox) {
    UniqueIds(s.events) && AnswersBacked(s)
  }

  lemma StoredGrows(s: Inbox, step: Step, providerEventId: string)
    requires Enabled(s, step) && Stored(s.events, providerEventId)
    ensures Stored(Next(s, step).events, providerEventId)
  {
    var id :| id in s.events && s.events[id].providerEventId == providerEventId;
    assert id in Next(s, step).events && Next(s, step).events[id].providerEventId == providerEventId;
  }

  lemma StepInv(s: Inbox, step: Step)
    requires Inv(s) && Enabled(s, step)
    ensures Inv(Next(s, step))
  {
    var s' := Next(s, step);
    forall c | c in s'.calls && s'.calls[c].phase == Answered(200)
      ensures s'.calls[c].delivery.Accepted() && Stored(s'.events, s'.calls[c].delivery.envelope.value.id)
    {
      if c in s.calls && s.calls[c].phase == Answered(200) {
        StoredGrows(s, step, s.calls[c].delivery.envelope.value.id);
      } else if step.Insert? {
        assert step.id in s'.events;
      }
    }
  }

  lemma {:induction false} RunInv(s: Inbox, steps: seq<Step>)
    requires Inv(s) && Runnable(s, steps)
    ensures Inv(Run(s, steps))
  {
    var n := |steps|;
    if n == 0 {
    } else {
      RunInv(s, steps[..n - 1]);
      StepInv(Run(s, steps[..n - 1]), steps[n - 1]);
    }
  }

  lemma {:induction false} AnswersStay(s: Inbox, steps: seq<Step>, c: nat)
    requires Runnable(s, steps) && c in s.calls && s.calls[c].phase.Answered?
    ensures c in Run(s, steps).calls && Run(s, steps).calls[c] == s.calls[c]
  {
    var n := |steps|;
    if n == 0 {
    } else {
      AnswersStay(s, steps[..n - 1], c);
    }
  }

  /** Durability: once a call has been answered 200, its delivery was authentic and
      well formed, and in every later state exactly one row carries its event id. */
  lemma AnsweredMeansStored(s: Inbox, steps: seq<Step>, c: nat)
    requires Inv(s) && Runnable(s, steps)
    requires c in s.calls && s.calls[c].phase == Answered(200)
    ensures var d := s.calls[c].delivery;
      && d.readable && d.authentic && d.envelope.Some? && d.envelope.value.id != "" && d.envelope.value.eventType != ""
      && |RowsOf(Run(s, steps).events, d.envelope.value.id)| == 1
  {
    RunInv(s, steps);
    AnswersStay(s, steps, c);
    UniqueRow(Run(s, steps).events, s.calls[c].delivery.envelope.value.id);
  }

  /** A call that finds no row and then loses the race is answered 500 and stores
      nothing. A retry at any later time, whose check succeeds, is answered 200 and
      stores nothing either. */
  lemma LoserRetries(s: Inbox, c: nat, id: RowId, now: int, reply: Reply, between: seq<Step>, retry: nat)
    requires Enabled(s, Insert(c, id, now, reply))
    requires Stored(s.events, s.calls[c].delivery.envelope.value.id)
    requires var lost := Next(s, Insert(c, id, now, reply));
      Runnable(lost, between) && retry !in Run(lost, between).calls
    ensures var d := s.calls[c].delivery;
      var lost := Next(s, Insert(c, id, now, reply));
      var later := Run(lost, between);
      var again := Next(later, Arrive(retry, d));
      && lost.events == s.events && lost.calls[c].phase == Answered(500)
      && Enabled(again, Check(retry, false))
      && Next(again, Check(retry, false)).events == later.events
      && Next(again, Check(retry, false)).calls[retry].phase == Answered(200)
  {
    var lost := Next(s, Insert(c, id, now, reply));
    StoredStays(lost, between, s.calls[c].delivery.envelope.value.id);
  }

  lemma {:induction false} StoredStays(s: Inbox, steps: seq<Step>, providerEventId: string)
    requires Runnable(s, steps) && Stored(s.events, providerEventId)
    ensures Stored(Run(s, steps).events, providerEventId)
  {
    var n := |steps|;
    if n == 0 {
    } else {
      StoredStays(s, steps[..n - 1], providerEventId);
      StoredGrows(Run(s, steps[..n - 1]), steps[n - 1], providerEventId);
    }
  }

  // ----- The handler -----

  /** A call that no other call interrupts: `Arrive`, `Check` and perhaps `Insert`. */
  ghost function Uninterrupted(s: Inbox, c: nat, d: Delivery, checkFails: bool, id: RowId, now: int,
      reply: Reply): Inbox
    requires c !in s.calls
  {
    var checked := Next(Next(s, Arrive(c, d)), Check(c, checkFails));
    if checked.calls[c].phase == Absent then Next(checked, Insert(c, id, now, reply)) else checked
  }

  class WebhookHandler {
    const store: Store

    constructor (store: Store)
      ensures this.store == store
    {
      this.store := store;
    }

    method HandleBridgeWebhook(d: Delivery, checkFails: bool, id: RowId, now: int, reply: Reply) returns (code: int)
      modifies store`events
      ensures var s := Uninterrupted(Inbox(old(store.events), map[]), 0, d, checkFails, id, now, reply);
        store.events == s.events && s.calls[0].phase == Answered(code)
      ensures var unread := !d.readable || (d.authentic && (d.envelope.None?
            || d.envelope.value.id == "" || d.envelope.value.eventType == ""));
        && (code == 400 <==> unread) && (code == 401 <==> d.readable && !d.authentic)
        && (code in {400, 401} ==> store.events == old(store.events))
      ensures code !in {400, 401} ==> d.envelope.Some?
      ensures code !in {400, 401} ==>
        var e := d.envelope.value;
        var known := exists row :: row in old(store.events) && old(store.events)[row].providerEventId == e.id;
        && code == (if checkFails then 500 else if known then 200
                    else if id in old(store.events) || reply != Done then 500 else 200)
        && store.events == (
          if checkFails || known || id in old(store.events) || reply == Refused then old(store.events)
          else old(store.events)[id := Event(id, e.id, TypeOf(e.eventType), e.payload, false, now)])
    {
      if !d.readable {
        return 400;
      }
      if !d.authentic {
        return 401;
      }
      if d.envelope.None? {
        return 400;
      }
      var envelope := d.envelope.value;
      if envelope.id == "" || envelope.eventType == "" {
        return 400;
      }
      if checkFails {
        return 500;
      }
      var exist := store.WebhookEventExists(envelope.id);
      if exist {
        return 200;
      }
      var ev := Event(id, envelope.id, TypeOf(envelope.eventType), envelope.payload, false, now);
      var ok := store.InsertWebhookEvent(ev, reply);
      if !ok {
        return 500;
      }
      return 200;
    }
  }
}
