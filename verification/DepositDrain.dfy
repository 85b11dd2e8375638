/** When no store call fails and rows arrive in clock order, batches of fifty and bad
    events are invisible: the deposits are one fold of the upsert over the events. */
module DepositDrain {
  import opened Wrappers
  import opened DepositModel

  /** Deliveries carry a clock that does not go back, routes stay fixed, and nothing fails. */
  ghost predicate CalmStep(s: State, a: Action) {
    match a
    case Deliver(ev) => forall id | id in s.db.events :: s.db.events[id].createdAt <= ev.createdAt
    case AddRoute(_, _) => false
    case ProcessNext(f) => f == CALM
    case _ => true
  }

  ghost predicate CalmRun(s: State, actions: seq<Action>)
    requires Runnable(s, actions)
  {
    var n := |actions|;
    n == 0 || (CalmRun(s, actions[..n - 1]) && CalmStep(Run(s, actions[..n - 1]), actions[n - 1]))
  }

  lemma {:induction false} CalmTrace(states: seq<State>, actions: seq<Action>)
    requires Trace(states, actions) && forall i | 0 <= i < |actions| :: CalmStep(states[i], actions[i])
    ensures Runnable(states[0], actions) && CalmRun(states[0], actions)
  {
    var n := |actions|;
    RunTrace(states, actions);
    if n == 0 {
    } else {
      CalmTrace(states[..n], actions[..n - 1]);
      RunTrace(states[..n], actions[..n - 1]);
    }
  }

  /** One run after another. */
  lemma {:induction false} RunAppend(s: State, first: seq<Action>, next: seq<Action>)
    requires Runnable(s, first) && Runnable(Run(s, first), next)
    ensures Runnable(s, first + next) && Run(s, first + next) == Run(Run(s, first), next)
    ensures CalmRun(s, first) && CalmRun(Run(s, first), next) ==> CalmRun(s, first + next)
    decreases |next|
  {
    var n := |next|;
    if n == 0 {
      assert first + next == first;
    } else {
      RunAppend(s, first, next[..n - 1]);
      assert (first + next)[..|first + next| - 1] == first + next[..n - 1];
    }
  }

  // ----- The order in which events are processed -----

  function At(events: Events, id: RowId): int {
    if id in events then events[id].createdAt else 0
  }

  ghost predicate Pending(events: Events, id: RowId) {
    Unprocessed(events, id) && Parsable(events[id])
  }

  /** Each entry is of a stored, parsable event and wrote what that event asks for. */
  ghost predicate Faithful(db: Db, e: Entry) {
    && e.event in db.events && Parsable(db.events[e.event])
    && e.write == WriteOf(db.routes, db.events[e.event])
  }

  ghost predicate FaithfulLog(db: Db, log: seq<Entry>) {
    forall i | 0 <= i < |log| :: Faithful(db, log[i])
  }

  /** Each event once, oldest first. */
  ghost predicate Chronological(events: Events, log: seq<Entry>) {
    forall i, j | 0 <= i < j < |log| ::
      log[i].event != log[j].event && At(events, log[i].event) <= At(events, log[j].event)
  }

  ghost predicate InLog(log: seq<Entry>, id: RowId) {
    exists i :: 0 <= i < |log| && log[i].event == id
  }

  ghost predicate LogBeforePending(events: Events, log: seq<Entry>) {
    forall i, id | 0 <= i < |log| && Pending(events, id) :: At(events, log[i].event) <= At(events, id)
  }

  ghost predicate BatchBeforePending(events: Events, batch: seq<Event>) {
    forall i, id | 0 <= i < |batch| && Pending(events, id) && !InBatch(batch, id) ::
      batch[i].createdAt <= At(events, id)
  }

  ghost predicate ProcessedIffLogged(events: Events, log: seq<Entry>) {
    forall id | id in events :: events[id].processed <==> InLog(log, id)
  }

  ghost predicate InOrder(s: State) {
    && FaithfulLog(s.db, s.log)
    && Chronological(s.db.events, s.log)
    && ProcessedIffLogged(s.db.events, s.log)
    && LogBeforePending(s.db.events, s.log)
    && SortedRows(s.db.events, s.batch)
    && BatchBeforePending(s.db.events, s.batch)
  }

  // ----- A delivery -----

  lemma DeliverLog(db: Db, log: seq<Entry>, ev: Event)
    requires FaithfulLog(db, log) && Chronological(db.events, log) && ProcessedIffLogged(db.events, log)
    requires ev.id !in db.events && !ev.processed
    ensures var db' := db.(events := db.events[ev.id := ev]);
      FaithfulLog(db', log) && Chronological(db'.events, log) && ProcessedIffLogged(db'.events, log)
  {
    var db' := db.(events := db.events[ev.id := ev]);
    forall i | 0 <= i < |log| ensures Faithful(db', log[i]) && log[i].event != ev.id {
      assert Faithful(db, log[i]);
    }
    hide Parsable, WriteOf;
    forall i | 0 <= i < |log| ensures At(db'.events, log[i].event) == At(db.events, log[i].event) {
    }
  }

  lemma DeliverInOrder(s: State, ev: Event)
    requires InOrder(s) && Enabled(s, Deliver(ev)) && CalmStep(s, Deliver(ev))
    ensures InOrder(Next(s, Deliver(ev)))
  {
    var (events, events') := (s.db.events, s.db.events[ev.id := ev]);
    DeliverLog(s.db, s.log, ev);
    forall i | 0 <= i < |s.log| ensures s.log[i].event in events {
      assert Faithful(s.db, s.log[i]);
    }
    hide FaithfulLog, Chronological, ProcessedIffLogged, Parsable;
    assert forall id | id in events :: At(events', id) == At(events, id) <= At(events', ev.id);
    assert forall id | Pending(events', id) :: id == ev.id || Pending(events, id);
  }

  // ----- Removing the head of the batch -----

  lemma TailRows(events: Events, batch: seq<Event>)
    requires SortedRows(events, batch) && batch != []
    ensures SortedRows(events, batch[1..])
    ensures forall i | 0 <= i < |batch| - 1 :: batch[1..][i].id != batch[0].id
    ensures forall id :: InBatch(batch, id) <==> id == batch[0].id || InBatch(batch[1..], id)
  {
    var tail := batch[1..];
    forall id ensures InBatch(batch, id) <==> id == batch[0].id || InBatch(tail, id) {
      if InBatch(batch, id) {
        var i :| 0 <= i < |batch| && batch[i].id == id;
        assert i > 0 ==> tail[i - 1].id == id;
      }
      if InBatch(tail, id) {
        var i :| 0 <= i < |tail| && tail[i].id == id;
        assert batch[i + 1].id == id;
      }
    }
  }

  /** The head of the batch is no newer than any other event that is waiting. */
  lemma HeadIsOldest(events: Events, batch: seq<Event>, id: RowId)
    requires SortedRows(events, batch) && BatchBeforePending(events, batch)
    requires batch != [] && Pending(events, id)
    ensures batch[0].createdAt <= At(events, id)
  {
    if InBatch(batch, id) {
      var i :| 0 <= i < |batch| && batch[i].id == id;
    }
  }

  lemma SkipInOrder(s: State)
    requires InOrder(s) && s.batch != [] && !Parsable(s.batch[0])
    ensures InOrder(Next(s, ProcessNext(CALM)))
  {
    TailRows(s.db.events, s.batch);
    BatchTail(s.db.events, s.batch);
  }

  lemma BatchTail(events: Events, batch: seq<Event>)
    requires SortedRows(events, batch) && BatchBeforePending(events, batch)
    requires batch != [] && !Pending(events, batch[0].id)
    ensures BatchBeforePending(events, batch[1..])
  {
    TailRows(events, batch);
    var tail := batch[1..];
    forall i, id | 0 <= i < |tail| && Pending(events, id) && !InBatch(tail, id)
      ensures tail[i].createdAt <= At(events, id)
    {
      assert tail[i] == batch[i + 1];
      assert !InBatch(batch, id);
    }
  }

  // ----- Processing the head -----

  lemma CalmHandling(routes: map<string, Route>, ev: Event)
    requires Parsable(ev)
    ensures Handle(routes, ev, CALM) == Completed(WriteOf(routes, ev), true)
  {
  }

  /** What marking one waiting row changes. */
  lemma MarkFacts(events: Events, x: RowId)
    requires Pending(events, x)
    ensures var events' := Mark(events, x);
      && events'.Keys == events.Keys && events'[x].processed
      && (forall id | id in events && id != x :: events'[id] == events[id])
      && (forall id :: At(events', id) == At(events, id))
      && (forall id :: Pending(events', id) <==> Pending(events, id) && id != x)
  {
  }

  lemma MarkFaithful(db: Db, x: RowId, log: seq<Entry>)
    requires x in db.events && FaithfulLog(db, log)
    ensures FaithfulLog(db.(events := Mark(db.events, x)), log)
  {
    var db' := db.(events := Mark(db.events, x));
    forall i | 0 <= i < |log| ensures Faithful(db', log[i]) {
      assert Faithful(db, log[i]);
      assert Read(db'.events[log[i].event]) == Read(db.events[log[i].event]);
    }
  }

  lemma MarkRows(events: Events, x: RowId, batch: seq<Event>)
    requires Pending(events, x) && SortedRows(events, batch)
    requires forall i | 0 <= i < |batch| :: batch[i].id != x
    ensures SortedRows(Mark(events, x), batch)
  {
  }

  lemma AppendEntry(events: Events, log: seq<Entry>, e: Entry)
    requires Chronological(events, log) && LogBeforePending(events, log) && ProcessedIffLogged(events, log)
    requires Pending(events, e.event)
    requires forall id | Pending(events, id) :: At(events, e.event) <= At(events, id)
    ensures var events' := Mark(events, e.event);
      && Chronological(events', log + [e]) && LogBeforePending(events', log + [e])
      && ProcessedIffLogged(events', log + [e])
  {
    var (events', log') := (Mark(events, e.event), log + [e]);
    MarkFacts(events, e.event);
    forall i | 0 <= i < |log| ensures log[i].event != e.event {
      assert InLog(log, log[i].event);
    }
    forall id | id in events' ensures events'[id].processed <==> InLog(log', id) {
      if InLog(log, id) {
        var i :| 0 <= i < |log| && log[i].event == id;
        assert log'[i].event == id;
      }
      if InLog(log', id) {
        var i :| 0 <= i < |log'| && log'[i].event == id;
        assert i < |log| ==> log[i].event == id;
      }
      assert log'[|log|].event == e.event;
    }
  }

  lemma ProcessInOrder(s: State)
    requires InOrder(s) && s.batch != [] && Parsable(s.batch[0])
    ensures InOrder(Next(s, ProcessNext(CALM)))
  {
    var ev, events := s.batch[0], s.db.events;
    var events' := Mark(events, ev.id);
    CalmHandling(s.db.routes, ev);
    var e := Entry(ev.id, WriteOf(s.db.routes, ev));
    assert Pending(events, ev.id);
    forall id | Pending(events, id) ensures At(events, ev.id) <= At(events, id) {
      HeadIsOldest(events, s.batch, id);
    }
    AppendEntry(events, s.log, e);
    assert Faithful(s.db, e);
    MarkFaithful(s.db, ev.id, s.log + [e]);
    MarkFacts(events, ev.id);
    TailRows(events, s.batch);
    MarkRows(events, ev.id, s.batch[1..]);
    TailBeforePending(events, events', s.batch);
  }

  lemma TailBeforePending(events: Events, events': Events, batch: seq<Event>)
    requires SortedRows(events, batch) && BatchBeforePending(events, batch) && batch != []
    requires forall id :: At(events', id) == At(events, id)
    requires forall id :: Pending(events', id) <==> Pending(events, id) && id != batch[0].id
    ensures BatchBeforePending(events', batch[1..])
  {
    TailRows(events, batch);
    var tail := batch[1..];
    forall i, id | 0 <= i < |tail| && Pending(events', id) && !InBatch(tail, id)
      ensures tail[i].createdAt <= At(events', id)
    {
      assert tail[i] == batch[i + 1];
      assert !InBatch(batch, id);
    }
  }

  // ----- Runs -----

  lemma CalmStepInOrder(s: State, a: Action)
    requires InOrder(s) && Enabled(s, a) && CalmStep(s, a)
    ensures InOrder(Next(s, a)) && Next(s, a).db.routes == s.db.routes
  {
    match a
    case Deliver(ev) => DeliverInOrder(s, ev);
    case Fetch(batch) =>
    case ProcessNext(_) =>
      if Parsable(s.batch[0]) {
        ProcessInOrder(s);
      } else {
        SkipInOrder(s);
      }
    case Restart =>
  }

  lemma {:induction false} CalmRunInOrder(s: State, actions: seq<Action>)
    requires Initial(s) && Runnable(s, actions) && CalmRun(s, actions)
    ensures InOrder(Run(s, actions)) && Run(s, actions).db.routes == s.db.routes
  {
    var n := |actions|;
    if n == 0 {
    } else {
      CalmRunInOrder(s, actions[..n - 1]);
      CalmStepInOrder(Run(s, actions[..n - 1]), actions[n - 1]);
    }
  }

  function Ids(log: seq<Entry>): seq<RowId> {
    seq(|log|, i requires 0 <= i < |log| => log[i].event)
  }

  /** The write that a stored event asks for. */
  function WriteAt(routes: map<string, Route>, events: Events, id: RowId): Option<Write> {
    if id in events then WriteOf(routes, events[id]) else None
  }

  /** One upsert an event, over a list of stored events. */
  function Fold(routes: map<string, Route>, events: Events, ids: seq<RowId>): Deposits {
    var n := |ids|;
    if n == 0 then map[]
    else ApplyWrite(Fold(routes, events, ids[..n - 1]), WriteAt(routes, events, ids[n - 1]))
  }

  lemma {:induction false} ReplayIsFold(db: Db, log: seq<Entry>)
    requires FaithfulLog(db, log)
    ensures forall i | 0 <= i < |log| :: Ids(log)[i] in db.events
    ensures Replay(log) == Fold(db.routes, db.events, Ids(log))
  {
    var n := |log|;
    assert forall i | 0 <= i < n :: Faithful(db, log[i]) && Ids(log)[i] == log[i].event;
    if n == 0 {
    } else {
      ReplayIsFold(db, log[..n - 1]);
      assert Ids(log)[..n - 1] == Ids(log[..n - 1]);
    }
  }

  ghost predicate Drained(events: Events) {
    forall id | id in events && Parsable(events[id]) :: events[id].processed
  }

  /** At every point of a calm run the deposits are one fold over the processed events,
      each once, oldest first; once drained, over all parsable events and no other. */
  lemma DrainIsOneFold(s: State, actions: seq<Action>)
    requires Initial(s) && Runnable(s, actions) && CalmRun(s, actions)
    ensures var (db, order) := (Run(s, actions).db, Ids(Run(s, actions).log));
      && (forall i | 0 <= i < |order| :: order[i] in db.events)
      && (forall i, j | 0 <= i < j < |order| ::
          order[i] != order[j] && db.events[order[i]].createdAt <= db.events[order[j]].createdAt)
      && (forall id | id in db.events :: id in order <==> db.events[id].processed)
      && db.deposits == Fold(s.db.routes, db.events, order)
      && (Drained(db.events) ==>
          forall id | id in db.events :: id in order <==> Parsable(db.events[id]))
  {
    CalmRunInOrder(s, actions);
    RunInv(s, actions);
    var s' := Run(s, actions);
    var order := Ids(s'.log);
    ReplayIsFold(s'.db, s'.log);
    forall id | id in s'.db.events
      ensures id in order <==> s'.db.events[id].processed
      ensures id in order ==> Parsable(s'.db.events[id])
    {
      LoggedIds(s'.log, id);
      if InLog(s'.log, id) {
        var i :| 0 <= i < |s'.log| && s'.log[i].event == id;
        assert Faithful(s'.db, s'.log[i]);
      }
    }
  }

  lemma LoggedIds(log: seq<Entry>, id: RowId)
    ensures id in Ids(log) <==> InLog(log, id)
  {
    if InLog(log, id) {
      var i :| 0 <= i < |log| && log[i].event == id;
      assert Ids(log)[i] == id;
    }
  }
}
