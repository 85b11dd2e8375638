/** The store and the processor as they are written: fields that statements update, and
    a loop over a fetched batch. Each method is proved against the state machine. */
module DepositStore {
  import opened Wrappers
  import opened DepositModel
  import opened DepositDrain
  import opened DepositProgress

  lemma InBatchSnoc(batch: seq<Event>, ev: Event)
    ensures forall id :: InBatch(batch + [ev], id) <==> InBatch(batch, id) || id == ev.id
  {
    var all := batch + [ev];
    forall id ensures InBatch(all, id) <==> InBatch(batch, id) || id == ev.id {
      if InBatch(batch, id) {
        var i :| 0 <= i < |batch| && batch[i].id == id;
        assert all[i].id == id;
      }
      if InBatch(all, id) {
        var i :| 0 <= i < |all| && all[i].id == id;
        assert i < |batch| ==> batch[i].id == id;
      }
      assert all[|batch|].id == ev.id;
    }
  }

  class Store {
    var routes: map<string, Route>
    var events: Events
    var deposits: Deposits

    function Tables(): Db
      reads this
    {
      Db(routes, events, deposits)
    }

    method InsertWebhookEvent(ev: Event, reply: Reply) returns (ok: bool)
      modifies this`events
      ensures InsertInto(old(events), ev, reply) == (events, ok)
      ensures var free := ev.id !in old(events)
          && forall id | id in old(events) :: old(events)[id].providerEventId != ev.providerEventId;
        && events == (if free && reply != Refused then old(events)[ev.id := ev] else old(events))
        && (ok <==> free && reply == Done)
    {
      ok := CanInsert(events, ev) && reply != Refused;
      if ok {
        events := events[ev.id := ev];
      }
      ok := ok && reply == Done;
    }

    method WebhookEventExists(providerEventId: string) returns (exist: bool)
      ensures exist <==> exists id :: id in events && events[id].providerEventId == providerEventId
    {
      exist := exists id :: id in events && events[id].providerEventId == providerEventId;
    }

    /** Takes an oldest waiting row until `limit` rows are taken or none waits. Among
        rows of one second the choice is arbitrary. */
    method GetUnprocessedWebhookEvents(limit: nat) returns (batch: seq<Event>)
      requires forall id | id in events :: events[id].id == id
      ensures IsBatch(events, limit, batch)
      ensures |batch| <= limit
      ensures forall i | 0 <= i < |batch| ::
        batch[i].id in events && events[batch[i].id] == batch[i] && !batch[i].processed
      ensures forall i, j | 0 <= i < j < |batch| ::
        batch[i].id != batch[j].id && batch[i].createdAt <= batch[j].createdAt
      ensures forall id | id in events && !events[id].processed && !InBatch(batch, id) ::
        |batch| == limit && forall i | 0 <= i < |batch| :: batch[i].createdAt <= events[id].createdAt
    {
      batch := [];
      var remaining := UnprocessedIds(events);
      while |batch| < limit && remaining != {}
        invariant |batch| <= limit && |batch| + |remaining| == |UnprocessedIds(events)|
        invariant SortedRows(events, batch) && remaining <= UnprocessedIds(events)
        invariant forall i | 0 <= i < |batch| :: batch[i].id !in remaining
        invariant forall id | Unprocessed(events, id) :: id in remaining || InBatch(batch, id)
        invariant forall i, id | 0 <= i < |batch| && id in remaining :: batch[i].createdAt <= At(events, id)
        decreases remaining
      {
        ghost var before := batch;
        ghost var oldest := OldestExists(events, remaining);
        var next :| next in remaining && forall id | id in remaining :: At(events, next) <= At(events, id);
        batch := batch + [events[next]];
        remaining := remaining - {next};
        InBatchSnoc(before, events[next]);
        hide InBatch;
      }
    }

    method MarkWebhookEventProcessed(id: RowId, reply: Reply)
      modifies this`events
      ensures events == if reply != Refused && id in old(events)
        then old(events)[id := old(events)[id].(processed := true)] else old(events)
      ensures events == if reply.TookEffect() then Mark(old(events), id) else old(events)
    {
      if reply.TookEffect() {
        if id in events {
          events := events[id := events[id].(processed := true)];
        }
      }
    }

    /** `ON CONFLICT DO UPDATE` on the unique deposit id. */
    method UpsertDeposit(key: string, row: Deposit, reply: Reply)
      modifies this`deposits
      ensures deposits == if reply.TookEffect() then Upsert(old(deposits), key, row) else old(deposits)
      ensures deposits == if reply == Refused then old(deposits)
        else if key !in old(deposits) then old(deposits)[key := row]
        else old(deposits)[key := old(deposits)[key].(status := row.status,
          txHash := if row.txHash.Some? then row.txHash else old(deposits)[key].txHash)]
    {
      if reply.TookEffect() {
        if key in deposits {
          var current := deposits[key];
          var txHash := if row.txHash.Some? then row.txHash else current.txHash;
          deposits := deposits[key := current.(status := row.status, txHash := txHash)];
        } else {
          deposits := deposits[key := row];
        }
      }
    }
  }

  class Processor {
    const store: Store
    /** What has been processed so far. */
    ghost var log: seq<Entry>

    constructor (store: Store)
      ensures this.store == store && log == []
    {
      this.store := store;
      log := [];
    }

    ghost function StateWith(rest: seq<Event>): State
      reads this, store
    {
      State(store.Tables(), rest, log)
    }

    /** What becomes of a payload whose fields are these: it is ignored without a route id or
        a status, or without a route; otherwise its row is inserted, or the row that is
        there gets its status, and its hash if it has one. */
    twostate predicate Handled(ok: bool, event: RowId, f: Faults, key: string, routeKey: string, kind: Kind,
        status: string, amount: string, currency: string, txHash: string)
      reads this, store
    {
      if routeKey == "" || status == "" then
        ok && store.deposits == old(store.deposits) && log == old(log) + [Entry(event, None)]
      else if f.routeReadFails then
        !ok && store.deposits == old(store.deposits) && log == old(log)
      else if routeKey !in old(store.routes) then
        ok && store.deposits == old(store.deposits) && log == old(log) + [Entry(event, None)]
      else if f.upsert == Refused then
        !ok && store.deposits == old(store.deposits) && log == old(log)
      else
        var route := old(store.routes)[routeKey];
        var hash := if txHash == "" then None else Some(txHash);
        var row := Deposit(route.userId, route.id, kind, status, amount, currency, hash);
        && (ok <==> f.upsert == Done) && log == old(log) + [Entry(event, Some(Write(key, row)))]
        && store.deposits == old(store.deposits)[key :=
          if key !in old(store.deposits) then row
          else old(store.deposits)[key].(status := status,
            txHash := if hash.Some? then hash else old(store.deposits)[key].txHash)]
    }

    /** The same by event type, with `None` for a payload that cannot be parsed. */
    twostate predicate Processed(ok: bool, ev: Event, f: Faults)
      reads this, store
    {
      match ev.eventType
      case VirtualAccountActivity => (
        match ev.payload.activity
        case None => !ok && store.deposits == old(store.deposits) && log == old(log)
        case Some(d) => Handled(ok, ev.id, f, d.id, d.virtualAccountId, VirtualAccount,
          d.status, d.initialAmount, d.currency, d.txHash))
      case LiquidationAddressDrain => (
        match ev.payload.drain
        case None => !ok && store.deposits == old(store.deposits) && log == old(log)
        case Some(d) => Handled(ok, ev.id, f, d.id, d.liquidationAddressId, LiquidationAddress,
          d.status, d.amount, d.currency, d.txHash))
      case _ => ok && store.deposits == old(store.deposits) && log == old(log) + [Entry(ev.id, None)]
    }

    /** True means that no error came back. */
    method Process(ev: Event, f: Faults) returns (ok: bool)
      modifies this, store`deposits
      ensures match Handle(old(store.routes), ev, f)
        case Skipped =>
          !ok && store.deposits == old(store.deposits) && log == old(log)
        case Completed(write, _) =>
          && (ok <==> write.None? || f.upsert == Done)
          && store.deposits == ApplyWrite(old(store.deposits), write)
          && log == old(log) + [Entry(ev.id, write)]
      ensures Processed(ok, ev, f)
    {
      match ev.eventType
      case VirtualAccountActivity =>
        ok := ProcessVirtualAccountActivity(ev, f);
      case LiquidationAddressDrain =>
        ok := ProcessLiquidationDrain(ev, f);
      case _ =>
        log := log + [Entry(ev.id, None)];
        ok := true;
    }

    method ProcessVirtualAccountActivity(ev: Event, f: Faults) returns (ok: bool)
      modifies this, store`deposits
      ensures match ev.payload.activity
        case None => !ok && store.deposits == old(store.deposits) && log == old(log)
        case Some(d) => Handled(ok, ev.id, f, d.id, d.virtualAccountId, VirtualAccount,
          d.status, d.initialAmount, d.currency, d.txHash)
    {
      if ev.payload.activity.None? {
        return false;
      }
      var d := ev.payload.activity.value;
      if d.virtualAccountId == "" || d.status == "" {
        log := log + [Entry(ev.id, None)];
        return true;
      }
      if f.routeReadFails {
        return false;
      }
      if d.virtualAccountId !in store.routes {
        log := log + [Entry(ev.id, None)];
        return true;
      }
      var route := store.routes[d.virtualAccountId];
      var row := Deposit(route.userId, route.id, VirtualAccount, d.status, d.initialAmount, d.currency,
        NullableString(d.txHash));
      ok := UpsertAndLog(ev.id, d.id, row, f.upsert);
    }

    method ProcessLiquidationDrain(ev: Event, f: Faults) returns (ok: bool)
      modifies this, store`deposits
      ensures match ev.payload.drain
        case None => !ok && store.deposits == old(store.deposits) && log == old(log)
        case Some(d) => Handled(ok, ev.id, f, d.id, d.liquidationAddressId, LiquidationAddress,
          d.status, d.amount, d.currency, d.txHash)
    {
      if ev.payload.drain.None? {
        return false;
      }
      var d := ev.payload.drain.value;
      if d.liquidationAddressId == "" || d.status == "" {
        log := log + [Entry(ev.id, None)];
        return true;
      }
      if f.routeReadFails {
        return false;
      }
      if d.liquidationAddressId !in store.routes {
        log := log + [Entry(ev.id, None)];
        return true;
      }
      var route := store.routes[d.liquidationAddressId];
      var row := Deposit(route.userId, route.id, LiquidationAddress, d.status, d.amount, d.currency,
        NullableString(d.txHash));
      ok := UpsertAndLog(ev.id, d.id, row, f.upsert);
    }

    method UpsertAndLog(event: RowId, key: string, row: Deposit, reply: Reply) returns (ok: bool)
      modifies this, store`deposits
      ensures ok <==> reply == Done
      ensures reply == Refused ==> store.deposits == old(store.deposits) && log == old(log)
      ensures reply != Refused ==> log == old(log) + [Entry(event, Some(Write(key, row)))]
      ensures reply != Refused ==>
        store.deposits == old(store.deposits)[key :=
          if key !in old(store.deposits) then row
          else old(store.deposits)[key].(status := row.status,
            txHash := if row.txHash.Some? then row.txHash else old(store.deposits)[key].txHash)]
    {
      store.UpsertDeposit(key, row, reply);
      if reply.TookEffect() {
        log := log + [Entry(event, Some(Write(key, row)))];
      }
      ok := reply == Done;
    }

    /** The body of the loop: an event that fails is left alone, any other is marked. */
    method ProcessAndMark(ev: Event, f: Faults) returns (ok: bool)
      modifies this, store`deposits, store`events
      ensures StateWith([]) == HandleEvent(old(StateWith([])), ev, f)
      ensures Processed(ok, ev, f)
      ensures store.events == if ok && f.mark != Refused && ev.id in old(store.events)
        then old(store.events)[ev.id := old(store.events)[ev.id].(processed := true)] else old(store.events)
    {
      ok := Process(ev, f);
      if !ok {
        return;
      }
      store.MarkWebhookEventProcessed(ev.id, f.mark);
    }

    /** One tick of the processor is one `Fetch` and a `ProcessNext` for each event. */
    method ProcessAll(fetchFails: bool, faults: nat -> Faults) returns (ghost batch: seq<Event>)
      requires forall id | id in store.events :: store.events[id].id == id
      modifies this, store`deposits, store`events
      ensures fetchFails ==> StateWith([]) == old(StateWith([]))
      ensures !fetchFails ==>
        && IsBatch(old(store.events), BATCH_SIZE, batch) && |batch| <= 50
        && (forall id | id in old(store.events) && !old(store.events)[id].processed ::
            InBatch(batch, id) || |batch| == 50)
        && Runnable(old(StateWith([])), TickActions(batch, faults))
        && StateWith([]) == Run(old(StateWith([])), TickActions(batch, faults))
    {
      batch := [];
      if fetchFails {
        return;
      }
      var fetched := store.GetUnprocessedWebhookEvents(BATCH_SIZE);
      batch := fetched;
      ghost var actions := TickActions(batch, faults);
      ghost var start := StateWith([]);
      TickStart(start, batch, faults);
      hide IsBatch, Runnable, Run, HandleEvent;
      var i := 0;
      while i < |fetched|
        invariant 0 <= i <= |fetched|
        invariant Runnable(start, actions[..i + 1])
        invariant Run(start, actions[..i + 1]) == StateWith(batch[i..])
      {
        TickTurn(start, batch, faults, i);
        BatchIsCarried(StateWith([]), batch[i..], fetched[i], faults(i));
        var _ := ProcessAndMark(fetched[i], faults(i));
        i := i + 1;
      }
      assert actions[..|fetched| + 1] == actions;
    }
  }

  /** Handling an event does not look at the rest of the batch. */
  lemma BatchIsCarried(s: State, batch: seq<Event>, ev: Event, f: Faults)
    ensures HandleEvent(s.(batch := batch), ev, f) == HandleEvent(s, ev, f).(batch := batch)
  {
  }
}
