/** The deposit tables, the upsert, and the event processor as a state machine whose
    steps are one store call or one event of a batch. */
module DepositModel {
  import opened Wrappers

  // ----- Tables -----

  datatype Kind = VirtualAccount | LiquidationAddress

  /** A row of `deposit_routes`, kept under its `provider_route_id`. */
  datatype Route = Route(id: string, userId: string)

  datatype Activity = Activity(
    id: string, virtualAccountId: string, status: string, initialAmount: string, currency: string, txHash: string)

  datatype Drain = Drain(
    id: string, liquidationAddressId: string, amount: string, currency: string, status: string, txHash: string)

  /** The payload as the two unmarshal calls see it; `None` is a parse failure. */
  datatype Payload = Payload(activity: Option<Activity>, drain: Option<Drain>)

  /** The cases that `process` tells apart in the `event_type` text. */
  datatype EventType = VirtualAccountActivity | LiquidationAddressDrain | KycLink | Unhandled

  function TypeOf(text: string): (t: EventType)
    ensures t == VirtualAccountActivity <==> text == "virtual_account.activity"
    ensures t == LiquidationAddressDrain <==> text == "liquidation_address.drain"
    ensures t == KycLink <==> |text| >= 9 && text[..9] == "kyc_link."
  {
    assert "kyc_link." <= text <==> |text| >= 9 && text[..9] == "kyc_link.";
    assert "virtual_account.activity"[0] == 'v' && "liquidation_address.drain"[0] == 'l' && "kyc_link."[0] == 'k';
    if text == "virtual_account.activity" then VirtualAccountActivity
    else if text == "liquidation_address.drain" then LiquidationAddressDrain
    else if "kyc_link." <= text then KycLink
    else Unhandled
  }

  /** A row of `bridge_webhook_events`, with its `event_type` classified. */
  datatype Event = Event(
    id: RowId, providerEventId: string, eventType: EventType, payload: Payload, processed: bool, createdAt: int)

  /** A row of `deposits`, kept under its `provider_deposit_id`. */
  datatype Deposit = Deposit(
    userId: string, routeId: string, kind: Kind, status: string, amount: string, currency: string,
    txHash: Option<string>)

  /** A primary key made by `utils.NewID`. */
  type RowId = nat

  type Events = map<RowId, Event>
  type Deposits = map<string, Deposit>

  datatype Db = Db(routes: map<string, Route>, events: Events, deposits: Deposits)

  function NullableString(s: string): Option<string> {
    if s == "" then None else Some(s)
  }

  /** `INSERT ... ON CONFLICT (provider, provider_deposit_id) DO UPDATE`. */
  function Upsert(deposits: Deposits, key: string, row: Deposit): Deposits {
    if key !in deposits then deposits[key := row]
    else deposits[key := deposits[key].(
      status := row.status,
      txHash := if row.txHash.Some? then row.txHash else deposits[key].txHash)]
  }

  /** The primary key and the unique `provider_event_id`. */
  predicate CanInsert(events: Events, ev: Event) {
    ev.id !in events && forall id | id in events :: events[id].providerEventId != ev.providerEventId
  }

  /** What an insert does to the table, and what its caller is told. */
  function InsertInto(events: Events, ev: Event, reply: Reply): (Events, bool) {
    if CanInsert(events, ev) && reply.TookEffect() then (events[ev.id := ev], reply == Done) else (events, false)
  }

  function Mark(events: Events, id: RowId): Events {
    if id in events then events[id := events[id].(processed := true)] else events
  }

  // ----- One event -----

  /** What the processor makes of an event before it looks at any table. */
  datatype Reading =
    | Malformed
    | Ignored
    | Notice(
        routeKey: string, key: string, kind: Kind, status: string, amount: string, currency: string, txHash: string)

  function Read(ev: Event): Reading {
    match ev.eventType
    case VirtualAccountActivity => (
      match ev.payload.activity
      case None => Malformed
      case Some(d) =>
        if d.virtualAccountId == "" || d.status == "" then Ignored
        else Notice(d.virtualAccountId, d.id, VirtualAccount, d.status, d.initialAmount, d.currency, d.txHash))
    case LiquidationAddressDrain => (
      match ev.payload.drain
      case None => Malformed
      case Some(d) =>
        if d.liquidationAddressId == "" || d.status == "" then Ignored
        else Notice(d.liquidationAddressId, d.id, LiquidationAddress, d.status, d.amount, d.currency, d.txHash))
    case KycLink => Ignored
    case Unhandled => Ignored
  }

  predicate Parsable(ev: Event) {
    Read(ev) != Malformed
  }

  /** Only the payload of the event's own type has to parse. */
  lemma ParsableExact(ev: Event)
    ensures Parsable(ev) <==>
      && (ev.eventType == VirtualAccountActivity ==> ev.payload.activity.Some?)
      && (ev.eventType == LiquidationAddressDrain ==> ev.payload.drain.Some?)
  {
  }

  datatype Write = Write(key: string, row: Deposit)

  /** The upsert that an event asks for under these routes, if any. */
  function WriteOf(routes: map<string, Route>, ev: Event): Option<Write> {
    match Read(ev)
    case Notice(routeKey, key, kind, status, amount, currency, txHash) =>
      if routeKey !in routes then None
      else
        var route := routes[routeKey];
        Some(Write(key, Deposit(route.userId, route.id, kind, status, amount, currency, NullableString(txHash))))
    case _ => None
  }

  /** The row that an event asks for, in the fields of its payload. */
  lemma WriteExact(routes: map<string, Route>, ev: Event, key: string, row: Deposit)
    ensures WriteOf(routes, ev) == Some(Write(key, row)) <==>
      || (&& ev.eventType == VirtualAccountActivity && ev.payload.activity.Some?
          && var d := ev.payload.activity.value;
            && d.virtualAccountId != "" && d.status != "" && d.virtualAccountId in routes && key == d.id
            && row == Deposit(routes[d.virtualAccountId].userId, routes[d.virtualAccountId].id, VirtualAccount,
                              d.status, d.initialAmount, d.currency, if d.txHash == "" then None else Some(d.txHash)))
      || (&& ev.eventType == LiquidationAddressDrain && ev.payload.drain.Some?
          && var d := ev.payload.drain.value;
            && d.liquidationAddressId != "" && d.status != "" && d.liquidationAddressId in routes && key == d.id
            && row == Deposit(routes[d.liquidationAddressId].userId, routes[d.liquidationAddressId].id,
                              LiquidationAddress, d.status, d.amount, d.currency,
                              if d.txHash == "" then None else Some(d.txHash)))
  {
  }

  // ----- The machine -----

  /** One entry for each time that `process` ran to its end on an event. */
  datatype Entry = Entry(event: RowId, write: Option<Write>)

  /** `batch` holds the fetched events that the running tick has still to visit. */
  datatype State = State(db: Db, batch: seq<Event>, log: seq<Entry>)

  /** How the store answers while one event is handled. */
  datatype Faults = Faults(routeReadFails: bool, upsert: Reply, mark: Reply)

  const CALM := Faults(false, Done, Done)
  const BATCH_SIZE := 50

  datatype Action =
    | Deliver(ev: Event)
    | AddRoute(key: string, route: Route)
    | Fetch(events: seq<Event>)
    | ProcessNext(faults: Faults)
    | Restart

  ghost predicate Unprocessed(events: Events, id: RowId) {
    id in events && !events[id].processed
  }

  function UnprocessedIds(events: Events): set<RowId> {
    set id | id in events && !events[id].processed
  }

  ghost predicate InBatch(batch: seq<Event>, id: RowId) {
    exists i :: 0 <= i < |batch| && batch[i].id == id
  }

  ghost predicate SortedRows(events: Events, batch: seq<Event>) {
    && (forall i | 0 <= i < |batch| ::
        batch[i].id in events && events[batch[i].id] == batch[i] && !batch[i].processed)
    && (forall i, j | 0 <= i < j < |batch| :: batch[i].id != batch[j].id && batch[i].createdAt <= batch[j].createdAt)
  }

  /** An answer to `WHERE processed = FALSE ORDER BY created_at ASC LIMIT limit`. Rows
      of the same second may come in any order. */
  ghost predicate IsBatch(events: Events, limit: nat, batch: seq<Event>) {
    && SortedRows(events, batch)
    && |batch| == (if |UnprocessedIds(events)| < limit then |UnprocessedIds(events)| else limit)
    && (forall i, id | 0 <= i < |batch| && Unprocessed(events, id) && !InBatch(batch, id) ::
        batch[i].createdAt <= events[id].createdAt)
  }

  /** How one turn of the loop in `processAll` ends: the event is left alone, or
      `process` completes with or without a write and the event is then marked or not. */
  datatype Handling = Skipped | Completed(write: Option<Write>, marked: bool)

  function Handle(routes: map<string, Route>, ev: Event, f: Faults): Handling {
    match Read(ev)
    case Malformed => Skipped
    case Ignored => Completed(None, f.mark.TookEffect())
    case Notice(_, _, _, _, _, _, _) =>
      if f.routeReadFails then Skipped
      else
        match WriteOf(routes, ev)
        case None => Completed(None, f.mark.TookEffect())
        case Some(w) =>
          if f.upsert == Refused then Skipped
          else Completed(Some(w), f.upsert == Done && f.mark.TookEffect())
  }

  function ApplyWrite(deposits: Deposits, write: Option<Write>): Deposits {
    match write
    case None => deposits
    case Some(w) => Upsert(deposits, w.key, w.row)
  }

  function HandleEvent(s: State, ev: Event, f: Faults): State {
    match Handle(s.db.routes, ev, f)
    case Skipped => s
    case Completed(write, marked) =>
      var events := if marked then Mark(s.db.events, ev.id) else s.db.events;
      State(Db(s.db.routes, events, ApplyWrite(s.db.deposits, write)), s.batch, s.log + [Entry(ev.id, write)])
  }

  ghost predicate Enabled(s: State, a: Action) {
    match a
    case Deliver(ev) => CanInsert(s.db.events, ev) && !ev.processed
    case AddRoute(key, route) =>
      key !in s.db.routes && forall k | k in s.db.routes :: s.db.routes[k].id != route.id
    case Fetch(batch) => s.batch == [] && IsBatch(s.db.events, BATCH_SIZE, batch)
    case ProcessNext(_) => s.batch != []
    case Restart => true
  }

  ghost function Next(s: State, a: Action): State
    requires Enabled(s, a)
  {
    match a
    case Deliver(ev) => s.(db := s.db.(events := s.db.events[ev.id := ev]))
    case AddRoute(key, route) => s.(db := s.db.(routes := s.db.routes[key := route]))
    case Fetch(batch) => s.(batch := batch)
    case ProcessNext(f) => HandleEvent(s, s.batch[0], f).(batch := s.batch[1..])
    case Restart => s.(batch := [])
  }

  ghost predicate Runnable(s: State, actions: seq<Action>)
    decreases |actions|, 0
  {
    var n := |actions|;
    n == 0 || (Runnable(s, actions[..n - 1]) && Enabled(Run(s, actions[..n - 1]), actions[n - 1]))
  }

  ghost function Run(s: State, actions: seq<Action>): State
    requires Runnable(s, actions)
    decreases |actions|, 1
  {
    var n := |actions|;
    if n == 0 then s else Next(Run(s, actions[..n - 1]), actions[n - 1])
  }

  lemma RunSnoc(s: State, actions: seq<Action>, a: Action)
    requires Runnable(s, actions) && Enabled(Run(s, actions), a)
    ensures Runnable(s, actions + [a]) && Run(s, actions + [a]) == Next(Run(s, actions), a)
  {
    assert (actions + [a])[..|actions|] == actions;
  }

  /** The states that the actions lead through, one after another. */
  ghost predicate Trace(states: seq<State>, actions: seq<Action>) {
    && |states| == |actions| + 1
    && (forall i | 0 <= i < |actions| :: Enabled(states[i], actions[i]) && Next(states[i], actions[i]) == states[i + 1])
  }

  lemma {:induction false} RunTrace(states: seq<State>, actions: seq<Action>)
    requires Trace(states, actions)
    ensures Runnable(states[0], actions) && Run(states[0], actions) == states[|actions|]
  {
    var n := |actions|;
    if n == 0 {
    } else {
      RunTrace(states[..n], actions[..n - 1]);
    }
  }

  /** Routes may be there already; no event has arrived. */
  ghost predicate Initial(s: State) {
    && s.db.events == map[] && s.db.deposits == map[] && s.batch == [] && s.log == []
    && forall j, k | j in s.db.routes && k in s.db.routes && j != k :: s.db.routes[j].id != s.db.routes[k].id
  }

  // ----- Every run: a row is a closed form over its own processed events -----

  /** The deposits that the logged writes produce, one upsert after another. */
  function Replay(log: seq<Entry>): Deposits {
    var n := |log|;
    if n == 0 then map[] else ApplyWrite(Replay(log[..n - 1]), log[n - 1].write)
  }

  /** The rows that were written under one key, oldest first. */
  function RowsFor(log: seq<Entry>, key: string): seq<Deposit> {
    var n := |log|;
    if n == 0 then []
    else RowsFor(log[..n - 1], key) + RowIn(log[n - 1], key)
  }

  predicate WritesTo(e: Entry, key: string) {
    e.write.Some? && e.write.value.key == key
  }

  function RowIn(e: Entry, key: string): seq<Deposit> {
    if WritesTo(e, key) then [e.write.value.row] else []
  }

  /** The newest hash that is not empty. */
  function LastHash(rows: seq<Deposit>): Option<string> {
    var n := |rows|;
    if n == 0 then None
    else if rows[n - 1].txHash.Some? then rows[n - 1].txHash
    else LastHash(rows[..n - 1])
  }

  /** Everything from the first row, but the status from the last one and the newest hash. */
  function Merged(rows: seq<Deposit>): Deposit
    requires rows != []
  {
    rows[0].(status := rows[|rows| - 1].status, txHash := LastHash(rows))
  }

  lemma {:induction false} LastHashExact(rows: seq<Deposit>)
    ensures LastHash(rows).None? <==> forall i | 0 <= i < |rows| :: rows[i].txHash.None?
    ensures LastHash(rows).Some? ==> exists i | 0 <= i < |rows| ::
      rows[i].txHash == LastHash(rows) && forall j | i < j < |rows| :: rows[j].txHash.None?
  {
    var n := |rows|;
    if n == 0 || rows[n - 1].txHash.Some? {
    } else {
      LastHashExact(rows[..n - 1]);
      if LastHash(rows).Some? {
        var before := rows[..n - 1];
        var i :| 0 <= i < n - 1 && before[i].txHash == LastHash(before)
          && forall j | i < j < n - 1 :: before[j].txHash.None?;
        assert rows[i] == before[i];
        assert forall j | i < j < n - 1 :: rows[j] == before[j];
      }
    }
  }

  lemma {:induction false} ReplayClosedForm(log: seq<Entry>, key: string)
    ensures key in Replay(log) <==> RowsFor(log, key) != []
    ensures key in Replay(log) ==> Replay(log)[key] == Merged(RowsFor(log, key))
  {
    var n := |log|;
    if n == 0 {
    } else {
      ReplayClosedForm(log[..n - 1], key);
      var before, row := RowsFor(log[..n - 1], key), RowIn(log[n - 1], key);
      if row == [] {
        assert before + row == before;
      } else if before == [] {
        assert before + row == [row[0]] && LastHash([row[0]][..0]) == None;
      } else {
        MergedSnoc(before, row[0]);
      }
    }
  }

  lemma MergedSnoc(rows: seq<Deposit>, row: Deposit)
    requires rows != []
    ensures Merged(rows + [row]) == Merged(rows).(
      status := row.status,
      txHash := if row.txHash.Some? then row.txHash else Merged(rows).txHash)
  {
    assert (rows + [row])[..|rows|] == rows;
  }

  /** Each logged write is what some route and the stored event ask for. */
  ghost predicate EntryOk(db: Db, e: Entry) {
    && e.event in db.events && Parsable(db.events[e.event])
    && (e.write.Some? ==> e.write == WriteOf(db.routes, db.events[e.event]))
  }

  ghost predicate LogOk(db: Db, log: seq<Entry>) {
    forall i | 0 <= i < |log| :: EntryOk(db, log[i])
  }

  ghost predicate Inv(s: State) {
    && s.db.deposits == Replay(s.log)
    && LogOk(s.db, s.log)
    && (forall i | 0 <= i < |s.batch| ::
        s.batch[i].id in s.db.events && Read(s.batch[i]) == Read(s.db.events[s.batch[i].id]))
    && (forall id | id in s.db.events :: s.db.events[id].id == id)
    && (forall j, k | j in s.db.routes && k in s.db.routes && j != k :: s.db.routes[j].id != s.db.routes[k].id)
  }

  /** Rows are added, and marked, but never lost or rewritten. */
  ghost predicate Grows(db: Db, db': Db) {
    && (forall id | id in db.events :: id in db'.events && Read(db.events[id]) == Read(db'.events[id]))
    && (forall k | k in db.routes :: k in db'.routes && db.routes[k] == db'.routes[k])
  }

  lemma EntryOkGrows(db: Db, db': Db, e: Entry)
    requires EntryOk(db, e) && Grows(db, db')
    ensures EntryOk(db', e)
  {
  }

  lemma LogOkGrows(db: Db, db': Db, log: seq<Entry>)
    requires LogOk(db, log) && Grows(db, db')
    ensures LogOk(db', log)
  {
    forall i | 0 <= i < |log| ensures EntryOk(db', log[i]) {
      EntryOkGrows(db, db', log[i]);
    }
  }

  lemma HandleCompletes(routes: map<string, Route>, ev: Event, f: Faults)
    ensures var h := Handle(routes, ev, f);
      h.Completed? ==> Parsable(ev) && (h.write.Some? ==> h.write == WriteOf(routes, ev))
  {
  }

  lemma HandleEventGrows(s: State, ev: Event, f: Faults)
    ensures Grows(s.db, HandleEvent(s, ev, f).db)
    ensures HandleEvent(s, ev, f).db.routes == s.db.routes
    ensures forall id | id in HandleEvent(s, ev, f).db.events ::
      id in s.db.events && HandleEvent(s, ev, f).db.events[id].id == s.db.events[id].id
  {
  }

  lemma ReplaySnoc(log: seq<Entry>, e: Entry)
    ensures Replay(log + [e]) == ApplyWrite(Replay(log), e.write)
  {
    assert (log + [e])[..|log|] == log;
  }

  lemma LogOkSnoc(db: Db, log: seq<Entry>, e: Entry)
    requires LogOk(db, log) && EntryOk(db, e)
    ensures LogOk(db, log + [e])
  {
    hide EntryOk;
  }

  lemma HandledEntryOk(db: Db, ev: Event, f: Faults)
    requires ev.id in db.events && Read(ev) == Read(db.events[ev.id])
    ensures var h := Handle(db.routes, ev, f);
      h.Completed? ==> EntryOk(db, Entry(ev.id, h.write))
  {
    HandleCompletes(db.routes, ev, f);
  }

  /** Handling an event keeps the log in step with the deposits. */
  lemma HandleLog(s: State, ev: Event, f: Faults)
    requires s.db.deposits == Replay(s.log) && LogOk(s.db, s.log)
    requires ev.id in s.db.events && Read(ev) == Read(s.db.events[ev.id])
    ensures var s' := HandleEvent(s, ev, f);
      s'.db.deposits == Replay(s'.log) && LogOk(s'.db, s'.log)
  {
    var (h, s') := (Handle(s.db.routes, ev, f), HandleEvent(s, ev, f));
    HandleEventGrows(s, ev, f);
    HandledEntryOk(s.db, ev, f);
    hide Handle, Replay, LogOk, EntryOk, Grows, ApplyWrite, Mark, Read;
    if h.Completed? {
      var e := Entry(ev.id, h.write);
      LogOkSnoc(s.db, s.log, e);
      ReplaySnoc(s.log, e);
      LogOkGrows(s.db, s'.db, s.log + [e]);
    }
  }

  lemma HandleEventInv(s: State, ev: Event, f: Faults)
    requires Inv(s) && ev.id in s.db.events && Read(ev) == Read(s.db.events[ev.id])
    ensures var s' := HandleEvent(s, ev, f);
      Inv(s') && Grows(s.db, s'.db) && s'.batch == s.batch
  {
    HandleLog(s, ev, f);
    HandleEventGrows(s, ev, f);
    HandleKeepsBatch(s, ev, f);
    hide HandleEvent, LogOk, Replay, Read;
  }

  lemma HandleKeepsBatch(s: State, ev: Event, f: Faults)
    ensures HandleEvent(s, ev, f).batch == s.batch
  {
    hide Handle, Mark, ApplyWrite;
  }

  lemma DropHead(s: State)
    requires Inv(s) && s.batch != []
    ensures Inv(s.(batch := s.batch[1..]))
  {
    hide LogOk, Replay, Read;
    assert forall i | 0 <= i < |s.batch| - 1 :: s.batch[1..][i] == s.batch[i + 1];
  }

  lemma InsertInv(s: State, a: Action)
    requires Inv(s) && Enabled(s, a) && (a.Deliver? || a.AddRoute?)
    ensures Inv(Next(s, a))
  {
    LogOkGrows(s.db, Next(s, a).db, s.log);
    hide LogOk, Replay, Read;
  }

  lemma FetchInv(s: State, batch: seq<Event>)
    requires Inv(s) && SortedRows(s.db.events, batch)
    ensures Inv(s.(batch := batch))
  {
    hide LogOk, Replay, Read;
  }

  lemma StepInv(s: State, a: Action)
    requires Inv(s) && Enabled(s, a)
    ensures Inv(Next(s, a))
  {
    match a
    case Deliver(_) => InsertInv(s, a);
    case AddRoute(_, _) => InsertInv(s, a);
    case Fetch(batch) => FetchInv(s, batch);
    case ProcessNext(f) =>
      HandleEventInv(s, s.batch[0], f);
      DropHead(HandleEvent(s, s.batch[0], f));
    case Restart => FetchInv(s, []);
  }

  lemma {:induction false} RunInv(s: State, actions: seq<Action>)
    requires Initial(s) && Runnable(s, actions)
    ensures Inv(Run(s, actions))
  {
    var n := |actions|;
    if n == 0 {
    } else {
      RunInv(s, actions[..n - 1]);
      StepInv(Run(s, actions[..n - 1]), actions[n - 1]);
    }
  }

  lemma {:induction false} RowsForFromLog(log: seq<Entry>, key: string, k: nat)
    requires k < |RowsFor(log, key)|
    ensures exists i | 0 <= i < |log| :: log[i].write == Some(Write(key, RowsFor(log, key)[k]))
  {
    var n := |log|;
    var before := RowsFor(log[..n - 1], key);
    if k < |before| {
      RowsForFromLog(log[..n - 1], key, k);
      var i :| 0 <= i < n - 1 && log[..n - 1][i].write == Some(Write(key, before[k]));
      assert log[i].write == Some(Write(key, RowsFor(log, key)[k]));
    } else {
      assert log[n - 1].write == Some(Write(key, RowsFor(log, key)[k]));
    }
  }

  /** The row under a key is the merge of its logged writes, and its user is the user of its
      route. */
  ghost predicate ClosedForm(db: Db, log: seq<Entry>, key: string) {
    var rows := RowsFor(log, key);
    && (key in db.deposits <==> rows != [])
    && (key in db.deposits ==> db.deposits[key] == Merged(rows))
    && (key in db.deposits ==> exists k | k in db.routes ::
          db.routes[k].id == db.deposits[key].routeId && db.routes[k].userId == db.deposits[key].userId)
    && (forall k | key in db.deposits && k in db.routes && db.routes[k].id == db.deposits[key].routeId ::
          db.routes[k].userId == db.deposits[key].userId)
  }

  /** Whatever fails, repeats or restarts, a row is the merge of its own processed
      writes, and its user is the user of its route. */
  lemma EveryRunHasClosedForm(s: State, actions: seq<Action>, key: string)
    requires Initial(s) && Runnable(s, actions)
    ensures ClosedForm(Run(s, actions).db, Run(s, actions).log, key)
  {
    RunInv(s, actions);
    InvClosedForm(Run(s, actions), key);
  }

  lemma InvClosedForm(s: State, key: string)
    requires Inv(s)
    ensures ClosedForm(s.db, s.log, key)
  {
    ReplayClosedForm(s.log, key);
    if key in s.db.deposits {
      var rows := RowsFor(s.log, key);
      RowsForFromLog(s.log, key, 0);
      var i :| 0 <= i < |s.log| && s.log[i].write == Some(Write(key, rows[0]));
      assert EntryOk(s.db, s.log[i]);
      var k := Read(s.db.events[s.log[i].event]).routeKey;
      assert s.db.routes[k].id == s.db.deposits[key].routeId;
    }
  }

  /** Along any run a row keeps everything but its status and hash, and a hash that is
      set is never cleared. */
  ghost predicate RowKept(before: Deposit, after: Deposit) {
    && after == before.(status := after.status, txHash := after.txHash)
    && (before.txHash.Some? ==> after.txHash.Some?)
  }

  lemma StepKeepsRow(s: State, a: Action, key: string)
    requires Enabled(s, a) && key in s.db.deposits
    ensures key in Next(s, a).db.deposits && RowKept(s.db.deposits[key], Next(s, a).db.deposits[key])
  {
  }

  lemma {:induction false} HashNeverCleared(s: State, actions: seq<Action>, key: string)
    requires Runnable(s, actions) && key in s.db.deposits
    ensures var deposits := Run(s, actions).db.deposits;
      key in deposits && RowKept(s.db.deposits[key], deposits[key])
  {
    var n := |actions|;
    if n == 0 {
    } else {
      HashNeverCleared(s, actions[..n - 1], key);
      StepKeepsRow(Run(s, actions[..n - 1]), actions[n - 1], key);
    }
  }

  // ----- What reprocessing can change -----

  /** Upserting a row again is invisible exactly when the stored row already carries
      its status, and its hash if it has one. */
  lemma UpsertInvisibleIff(deposits: Deposits, key: string, row: Deposit)
    requires key in deposits
    ensures Upsert(deposits, key, row) == deposits
      <==> deposits[key].status == row.status && (row.txHash.Some? ==> deposits[key].txHash == row.txHash)
  {
    assert Upsert(deposits, key, row)[key] == deposits[key].(
      status := row.status,
      txHash := if row.txHash.Some? then row.txHash else deposits[key].txHash);
  }

  lemma {:induction false} RowsForAppend(a: seq<Entry>, b: seq<Entry>, key: string)
    ensures RowsFor(a + b, key) == RowsFor(a, key) + RowsFor(b, key)
  {
    var n := |b|;
    if n == 0 {
      assert a + b == a;
    } else {
      RowsForAppend(a, b[..n - 1], key);
      assert (a + b)[..|a + b| - 1] == a + b[..n - 1];
      assert RowsFor(a + b, key) == RowsFor(a + b[..n - 1], key) + RowIn(b[n - 1], key);
    }
  }

  lemma {:induction false} LastHashAppend(a: seq<Deposit>, b: seq<Deposit>)
    ensures LastHash(a + b) == if LastHash(b).Some? then LastHash(b) else LastHash(a)
  {
    var n := |b|;
    if n == 0 {
      assert a + b == a;
    } else {
      LastHashAppend(a, b[..n - 1]);
      assert (a + b)[..|a + b| - 1] == a + b[..n - 1];
    }
  }

  /** What was processed after an entry has left its status and its hash standing. */
  predicate StillStands(e: Entry, since: seq<Entry>) {
    match e.write
    case None => true
    case Some(w) =>
      var rows := RowsFor(since, w.key);
      && (rows == [] || rows[|rows| - 1].status == w.row.status)
      && (w.row.txHash.None? || LastHash(rows).None? || LastHash(rows) == w.row.txHash)
  }

  lemma RowsAround(before: seq<Entry>, e: Entry, since: seq<Entry>, key: string)
    requires WritesTo(e, key)
    ensures RowsFor(before + [e] + since, key) == RowsFor(before, key) + [e.write.value.row] + RowsFor(since, key)
  {
    RowsForAppend(before + [e], since, key);
    RowsForAppend(before, [e], key);
    assert [e][..0] == [] && RowsFor([e], key) == [e.write.value.row];
  }

  lemma MergedAround(before: seq<Deposit>, row: Deposit, since: seq<Deposit>)
    ensures var merged := Merged(before + [row] + since);
      && merged.status == (if since == [] then row.status else since[|since| - 1].status)
      && merged.txHash == (if LastHash(since).Some? then LastHash(since)
                           else if row.txHash.Some? then row.txHash else LastHash(before))
  {
    LastHashAppend(before + [row], since);
    LastHashAppend(before, [row]);
    assert [row][..0] == [] && LastHash([row]) == row.txHash;
  }

  /** Processing an event again changes nothing if and only if nothing processed in
      between has given its deposit another status or another hash. */
  lemma ReprocessInvisibleIff(before: seq<Entry>, e: Entry, since: seq<Entry>)
    ensures Replay(before + [e] + since + [e]) == Replay(before + [e] + since) <==> StillStands(e, since)
  {
    var log := before + [e] + since;
    ReplaySnoc(log, e);
    if e.write.Some? {
      var (key, row) := (e.write.value.key, e.write.value.row);
      RowsAround(before, e, since, key);
      MergedAround(RowsFor(before, key), row, RowsFor(since, key));
      ReplayClosedForm(log, key);
      UpsertInvisibleIff(Replay(log), key, row);
      hide Replay, RowsFor, LastHash, Merged, Upsert;
    }
  }

  /** The deposit is there already and carries the status and the hash of a write. */
  predicate AlreadySaid(w: Write, log: seq<Entry>) {
    var rows := RowsFor(log, w.key);
    && rows != [] && rows[|rows| - 1].status == w.row.status
    && (w.row.txHash.None? || LastHash(rows) == w.row.txHash)
  }

  /** A write at the end of a log changes nothing exactly if it was already said. */
  lemma WriteInvisibleIff(log: seq<Entry>, e: Entry)
    ensures Replay(log + [e]) == Replay(log) <==> (e.write.Some? ==> AlreadySaid(e.write.value, log))
  {
    ReplaySnoc(log, e);
    if e.write.Some? {
      var (key, row) := (e.write.value.key, e.write.value.row);
      ReplayClosedForm(log, key);
      if key in Replay(log) {
        UpsertInvisibleIff(Replay(log), key, row);
      }
      hide Replay, RowsFor, LastHash;
    }
  }

  /** What an event writes when it comes up again is what it wrote before, unless it had no
      route then and has one now. */
  lemma WrittenAgain(s: State, f: Faults, first: Entry)
    requires Inv(s) && s.batch != [] && first.event == s.batch[0].id && EntryOk(s.db, first)
    requires Handle(s.db.routes, s.batch[0], f).Completed?
    ensures var write := Handle(s.db.routes, s.batch[0], f).write;
      write == WriteOf(s.db.routes, s.batch[0]) && (first.write.None? || first.write == write)
  {
  }

  /** In any run, processing an event again, of which log entry `i` is an earlier time,
      changes the deposits if and only if something processed since has moved its deposit
      on; or, when its route was added in between, if and only if its deposit was not yet
      there with the same status and hash. */
  lemma ReprocessInRun(s: State, actions: seq<Action>, f: Faults, i: nat)
    requires Initial(s) && Runnable(s, actions)
    requires var s' := Run(s, actions);
      && s'.batch != [] && i < |s'.log| && s'.log[i].event == s'.batch[0].id
      && Handle(s'.db.routes, s'.batch[0], f).Completed?
    ensures var s' := Run(s, actions);
      var (log, first, again) := (s'.log, s'.log[i], WriteOf(s'.db.routes, s'.batch[0]));
      && Next(s', ProcessNext(f)).log == log + [Entry(first.event, again)]
      && (first.write.None? || first.write == again)
      && (Next(s', ProcessNext(f)).db.deposits == s'.db.deposits <==>
          if first.write == again then StillStands(first, log[i + 1..])
          else again.Some? && AlreadySaid(again.value, log))
  {
    RunInv(s, actions);
    ReprocessNow(Run(s, actions), f, i);
  }

  lemma ReprocessNow(s: State, f: Faults, i: nat)
    requires Inv(s) && s.batch != [] && i < |s.log| && s.log[i].event == s.batch[0].id
    requires Handle(s.db.routes, s.batch[0], f).Completed?
    ensures var (log, first, again) := (s.log, s.log[i], WriteOf(s.db.routes, s.batch[0]));
      && Next(s, ProcessNext(f)).log == log + [Entry(first.event, again)]
      && (first.write.None? || first.write == again)
      && (Next(s, ProcessNext(f)).db.deposits == s.db.deposits <==>
          if first.write == again then StillStands(first, log[i + 1..])
          else again.Some? && AlreadySaid(again.value, log))
  {
    var (log, e) := (s.log, s.log[i]);
    assert EntryOk(s.db, e);
    WrittenAgain(s, f, e);
    ProcessAgain(s, f);
    StepInv(s, ProcessNext(f));
    hide Handle, Next, StillStands, AlreadySaid, WriteOf, EntryOk, LogOk, Replay;
    var again := Entry(e.event, WriteOf(s.db.routes, s.batch[0]));
    assert log == log[..i] + [e] + log[i + 1..];
    ReprocessInvisibleIff(log[..i], e, log[i + 1..]);
    WriteInvisibleIff(log, again);
  }

  lemma ProcessAgain(s: State, f: Faults)
    requires s.batch != [] && Handle(s.db.routes, s.batch[0], f).Completed?
    ensures Next(s, ProcessNext(f)).log == s.log + [Entry(s.batch[0].id, Handle(s.db.routes, s.batch[0], f).write)]
  {
    hide Handle, Mark, ApplyWrite;
  }
}
