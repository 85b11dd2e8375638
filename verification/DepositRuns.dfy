/** Which inboxes the drain can empty at all, and which orders it can then process their
    events in. Malformed rows stay in the queue and take up room in every batch. */
module DepositRuns {
  import opened Wrappers
  import opened DepositModel
  import opened DepositDrain
  import opened DepositOrder
  import P = DepositProgress

  /** Rows as they are delivered: each under its id, unprocessed, and with its own provider
      event id. */
  ghost predicate DeliveredRows(stored: Events) {
    && (forall id | id in stored :: stored[id].id == id && !stored[id].processed)
    && (forall i, j | i in stored && j in stored && i != j :: stored[i].providerEventId != stored[j].providerEventId)
  }

  /** The malformed rows of earlier seconds. */
  function BadBefore(stored: Events, g: RowId): set<RowId> {
    set b | b in stored && !Parsable(stored[b]) && At(stored, b) < At(stored, g)
  }

  ghost predicate Drainable(stored: Events) {
    forall g | g in stored && Parsable(stored[g]) :: |BadBefore(stored, g)| < BATCH_SIZE
  }

  // ----- One tick, with its log -----

  /** The good events of a batch. */
  function GoodOf(batch: seq<Event>): seq<RowId> {
    var n := |batch|;
    if n == 0 then [] else GoodOf(batch[..n - 1]) + if Parsable(batch[n - 1]) then [batch[n - 1].id] else []
  }

  lemma {:induction false} NoGood(batch: seq<Event>)
    requires forall i | 0 <= i < |batch| :: !Parsable(batch[i])
    ensures GoodOf(batch) == []
  {
    var n := |batch|;
    if n == 0 {
    } else {
      NoGood(batch[..n - 1]);
    }
  }

  lemma {:induction false} OneGood(batch: seq<Event>, k: nat)
    requires k < |batch| && forall i | 0 <= i < |batch| :: Parsable(batch[i]) <==> i == k
    ensures GoodOf(batch) == [batch[k].id]
  {
    var n := |batch|;
    if k == n - 1 {
      NoGood(batch[..n - 1]);
    } else {
      OneGood(batch[..n - 1], k);
    }
  }

  lemma CalmLog(s: State, ev: Event)
    ensures var s' := HandleEvent(s, ev, CALM);
      && Ids(s'.log) == Ids(s.log) + (if Parsable(ev) then [ev.id] else []) && s'.db.routes == s.db.routes
  {
    if Parsable(ev) {
      CalmHandling(s.db.routes, ev);
    }
  }

  /** After `n` events of a batch the log names the good ones among them. */
  ghost predicate LogsGood(s: State, batch: seq<Event>, n: nat, actions: seq<Action>)
    requires Runnable(s, actions) && n <= |batch|
  {
    && CalmRun(s, actions) && Ids(Run(s, actions).log) == Ids(s.log) + GoodOf(batch[..n])
    && Run(s, actions).db.routes == s.db.routes
  }

  lemma {:induction false} TickLog(s: State, batch: seq<Event>, n: nat)
    requires s.batch == [] && IsBatch(s.db.events, BATCH_SIZE, batch) && n <= |batch|
    ensures Runnable(s, P.CalmTick(batch)[..n + 1])
    ensures LogsGood(s, batch, n, P.CalmTick(batch)[..n + 1])
  {
    P.TickPrefix(s, batch, n);
    if n == 0 {
      TickLogStart(s, batch);
    } else {
      P.TickPrefix(s, batch, n - 1);
      hide *;
      TickLog(s, batch, n - 1);
      TickLogTurn(s, batch, n);
    }
  }

  lemma TickLogStart(s: State, batch: seq<Event>)
    requires s.batch == [] && IsBatch(s.db.events, BATCH_SIZE, batch)
    ensures Runnable(s, P.CalmTick(batch)[..1]) && LogsGood(s, batch, 0, P.CalmTick(batch)[..1])
  {
    P.TickStart(s, batch, _ => CALM);
    OneMore(s, [], Fetch(batch));
    assert P.CalmTick(batch)[..1] == [] + [Fetch(batch)] && batch[..0] == [];
    assert Ids(s.log) + [] == Ids(s.log);
  }

  lemma TickLogTurn(s: State, batch: seq<Event>, n: nat)
    requires 0 < n <= |batch|
    requires Runnable(s, P.CalmTick(batch)[..n]) && Run(s, P.CalmTick(batch)[..n]).batch == batch[n - 1..]
    requires LogsGood(s, batch, n - 1, P.CalmTick(batch)[..n])
    requires Runnable(s, P.CalmTick(batch)[..n + 1])
    ensures LogsGood(s, batch, n, P.CalmTick(batch)[..n + 1])
  {
    hide HandleEvent, Parsable, Runnable, Run, CalmRun, Enabled, Next;
    var before := Run(s, P.CalmTick(batch)[..n]);
    P.TickTurn(s, batch, _ => CALM, n - 1);
    CalmLog(before, batch[n - 1]);
    assert batch[..n][..n - 1] == batch[..n - 1];
    assert P.CalmTick(batch)[..n + 1] == P.CalmTick(batch)[..n] + [ProcessNext(CALM)];
    hide P.CalmTick, Ids;
    assert Enabled(before, ProcessNext(CALM)) by { IsNext(before); }
    OneMore(s, P.CalmTick(batch)[..n], ProcessNext(CALM));
  }

  lemma IsNext(s: State)
    ensures s.batch != [] ==> Enabled(s, ProcessNext(CALM))
  {
  }

  lemma WholeTick(s: State, batch: seq<Event>)
    requires s.batch == [] && IsBatch(s.db.events, BATCH_SIZE, batch)
    ensures Runnable(s, P.CalmTick(batch)) && CalmRun(s, P.CalmTick(batch))
    ensures var s' := Run(s, P.CalmTick(batch));
      && s'.batch == [] && s'.db.routes == s.db.routes && Ids(s'.log) == Ids(s.log) + GoodOf(batch)
      && P.Advanced(s.db.events, s'.db.events, P.Done(s.db.events, batch))
  {
    TickLog(s, batch, |batch|);
    P.TickAdvances(s, batch);
    assert P.CalmTick(batch)[..|batch| + 1] == P.CalmTick(batch) && batch[..|batch|] == batch;
  }

  // ----- One good event at a time -----

  /** With room for it, the one good event that waits is in every batch. */
  lemma OneInBatch(events: Events, batch: seq<Event>, g: RowId) returns (k: nat)
    requires IsBatch(events, BATCH_SIZE, batch) && P.GoodIds(events) == {g} && |P.BadIds(events)| < BATCH_SIZE
    ensures k < |batch| && batch[k].id == g
    ensures GoodOf(batch) == [g] && P.Done(events, batch) == {g}
  {
    P.BatchShares(events, batch);
    P.SubsetSize(P.Done(events, batch), {g});
    P.IdSetIsInBatch(batch, g);
    assert g in P.Done(events, batch);
    var i :| 0 <= i < |batch| && batch[i].id == g;
    k := i;
    forall j | 0 <= j < |batch| ensures Parsable(batch[j]) <==> j == k {
      assert batch[j].id in P.GoodIds(events) <==> Parsable(batch[j]);
    }
    OneGood(batch, k);
  }

  /** A good event that is delivered to a drained inbox is processed by the next tick. */
  lemma TakesOneTurn(s: State, ev: Event) returns (actions: seq<Action>)
    requires s.batch == [] && Drained(s.db.events) && forall id | id in s.db.events :: s.db.events[id].id == id
    requires Enabled(s, Deliver(ev)) && CalmStep(s, Deliver(ev)) && Parsable(ev)
    requires |P.BadIds(s.db.events)| < BATCH_SIZE
    ensures Runnable(s, actions) && CalmRun(s, actions)
    ensures var s' := Run(s, actions);
      && s'.batch == [] && s'.db.routes == s.db.routes && Ids(s'.log) == Ids(s.log) + [ev.id]
      && s'.db.events == s.db.events[ev.id := ev.(processed := true)]
  {
    DeliverRuns(s, ev);
    DeliveredParts(s.db.events, ev);
    hide Enabled, CalmStep, Parsable, Drained, Runnable, Run, CalmRun;
    var s1 := s.(db := s.db.(events := s.db.events[ev.id := ev]));
    var batch := LoneTick(s1, ev);
    hide IsBatch, Ids, P.GoodIds, P.BadIds;
    RunAppend(s, [Deliver(ev)], P.CalmTick(batch));
    actions := [Deliver(ev)] + P.CalmTick(batch);
    assert s1.db.events[ev.id := ev.(processed := true)] == s.db.events[ev.id := ev.(processed := true)];
  }

  lemma DeliverRuns(s: State, ev: Event)
    requires Enabled(s, Deliver(ev)) && CalmStep(s, Deliver(ev))
    ensures Runnable(s, [Deliver(ev)]) && CalmRun(s, [Deliver(ev)])
    ensures Run(s, [Deliver(ev)]) == s.(db := s.db.(events := s.db.events[ev.id := ev]))
  {
    var s1 := Next(s, Deliver(ev));
    CalmTrace([s, s1], [Deliver(ev)]);
    RunTrace([s, s1], [Deliver(ev)]);
  }

  /** A tick with one good event waiting. */
  lemma LoneTick(s: State, ev: Event) returns (batch: seq<Event>)
    requires s.batch == [] && forall id | id in s.db.events :: s.db.events[id].id == id
    requires ev.id in s.db.events && s.db.events[ev.id] == ev
    requires P.GoodIds(s.db.events) == {ev.id} && |P.BadIds(s.db.events)| < BATCH_SIZE
    ensures IsBatch(s.db.events, BATCH_SIZE, batch)
    ensures Runnable(s, P.CalmTick(batch)) && CalmRun(s, P.CalmTick(batch))
    ensures var s' := Run(s, P.CalmTick(batch));
      && s'.batch == [] && s'.db.routes == s.db.routes && Ids(s'.log) == Ids(s.log) + [ev.id]
      && s'.db.events == s.db.events[ev.id := ev.(processed := true)]
  {
    batch := P.BatchExists(s.db.events, BATCH_SIZE);
    var k := OneInBatch(s.db.events, batch, ev.id);
    WholeTick(s, batch);
    hide IsBatch, Runnable, Run, CalmRun, GoodOf;
    assert Run(s, P.CalmTick(batch)).db.events == s.db.events[ev.id := ev.(processed := true)];
  }

  lemma DeliveredParts(events: Events, ev: Event)
    requires Drained(events) && ev.id !in events && Parsable(ev) && !ev.processed
    ensures P.GoodIds(events[ev.id := ev]) == {ev.id} && P.BadIds(events[ev.id := ev]) == P.BadIds(events)
  {
  }

  // ----- Every order is the order of some run -----

  /** Different rows, oldest second first. */
  ghost predicate Arranged(stored: Events, ids: seq<RowId>) {
    && (forall i | 0 <= i < |ids| :: ids[i] in stored)
    && (forall i, j | 0 <= i < j < |ids| :: ids[i] != ids[j] && At(stored, ids[i]) <= At(stored, ids[j]))
  }

  ghost predicate AllGood(stored: Events, ids: seq<RowId>) {
    forall i | 0 <= i < |ids| :: ids[i] in stored && Parsable(stored[ids[i]])
  }

  ghost predicate AllMalformed(stored: Events, ids: seq<RowId>) {
    forall i | 0 <= i < |ids| :: ids[i] in stored && !Parsable(stored[ids[i]])
  }

  /** The good rows processed, the malformed ones waiting. */
  function Snapshot(stored: Events, good: seq<RowId>, bad: seq<RowId>): Events {
    map id | id in stored && (id in good || id in bad) :: stored[id].(processed := id in good)
  }

  /** The inbox after these deliveries, each good event processed in a tick of its own. */
  ghost predicate Arrived(s: State, stored: Events, good: seq<RowId>, bad: seq<RowId>, s': State) {
    && s'.batch == [] && s'.db.routes == s.db.routes
    && s'.db.events == Snapshot(stored, good, bad) && Ids(s'.log) == good
  }

  /** A row no older than those that have arrived can be delivered. */
  lemma CanDeliver(s: State, stored: Events, good: seq<RowId>, bad: seq<RowId>, id: RowId)
    requires DeliveredRows(stored) && s.db.events == Snapshot(stored, good, bad)
    requires id in stored && id !in good && id !in bad
    requires forall x | x in good || x in bad :: At(stored, x) <= At(stored, id)
    ensures Enabled(s, Deliver(stored[id])) && CalmStep(s, Deliver(stored[id]))
  {
    forall x | x in s.db.events
      ensures x != id && s.db.events[x].createdAt <= stored[id].createdAt
      ensures s.db.events[x].providerEventId != stored[id].providerEventId
    {
      assert At(stored, x) <= At(stored, id);
    }
    hide Snapshot, At;
  }

  lemma Newest(stored: Events, ids: seq<RowId>)
    requires Arranged(stored, ids) && ids != []
    ensures var n := |ids| - 1;
      && Arranged(stored, ids[..n]) && ids[n] !in ids[..n]
      && (forall x | x in ids :: At(stored, x) <= At(stored, ids[n]))
      && (forall x :: x in ids <==> x in ids[..n] || x == ids[n])
  {
    var n := |ids| - 1;
    assert ids == ids[..n] + [ids[n]];
  }

  lemma GoodIsNotBad(stored: Events, good: seq<RowId>, bad: seq<RowId>)
    requires AllGood(stored, good) && AllMalformed(stored, bad)
    ensures forall x | x in good :: x !in bad
  {
  }

  lemma BadArrives(s: State, stored: Events, good: seq<RowId>, bad: seq<RowId>)
    requires DeliveredRows(stored) && AllGood(stored, good) && AllMalformed(stored, bad)
    requires Arranged(stored, good) && Arranged(stored, bad) && bad != []
    requires good != [] ==> At(stored, good[|good| - 1]) <= At(stored, bad[|bad| - 1])
    requires s.batch == [] && s.db.events == Snapshot(stored, good, bad[..|bad| - 1])
    ensures var ev := stored[bad[|bad| - 1]];
      && Enabled(s, Deliver(ev)) && CalmStep(s, Deliver(ev))
      && Next(s, Deliver(ev)) == s.(db := s.db.(events := Snapshot(stored, good, bad)))
  {
    var n := |bad| - 1;
    Newest(stored, bad);
    if good != [] {
      Newest(stored, good);
    }
    GoodIsNotBad(stored, good, bad);
    hide Arranged, AllGood, AllMalformed;
    CanDeliver(s, stored, good, bad[..n], bad[n]);
    assert Snapshot(stored, good, bad) == s.db.events[bad[n] := stored[bad[n]]];
  }

  /** What waits before a good event is malformed and of an earlier second. */
  lemma RoomFor(stored: Events, good: seq<RowId>, bad: seq<RowId>, g: RowId)
    requires Drainable(stored) && g in stored && Parsable(stored[g])
    requires AllGood(stored, good) && AllMalformed(stored, bad)
    requires forall x | x in bad :: At(stored, x) < At(stored, g)
    ensures Drained(Snapshot(stored, good, bad)) && |P.BadIds(Snapshot(stored, good, bad))| < BATCH_SIZE
  {
    var events := Snapshot(stored, good, bad);
    forall x | x in P.BadIds(events) ensures x in BadBefore(stored, g) {
      assert Read(events[x]) == Read(stored[x]);
    }
    P.SubsetSize(P.BadIds(events), BadBefore(stored, g));
    forall x | x in events && Parsable(events[x]) ensures events[x].processed {
      assert Read(events[x]) == Read(stored[x]);
    }
  }

  lemma SnapshotIds(stored: Events, good: seq<RowId>, bad: seq<RowId>)
    requires DeliveredRows(stored)
    ensures forall id | id in Snapshot(stored, good, bad) :: Snapshot(stored, good, bad)[id].id == id
  {
  }

  lemma GoodArrives(s: State, stored: Events, good: seq<RowId>, bad: seq<RowId>) returns (actions: seq<Action>)
    requires DeliveredRows(stored) && Drainable(stored) && AllGood(stored, good) && AllMalformed(stored, bad)
    requires Arranged(stored, good) && Arranged(stored, bad) && good != []
    requires bad != [] ==> At(stored, bad[|bad| - 1]) < At(stored, good[|good| - 1])
    requires s.batch == [] && s.db.events == Snapshot(stored, good[..|good| - 1], bad)
    ensures Runnable(s, actions) && CalmRun(s, actions)
    ensures var s' := Run(s, actions);
      && s'.batch == [] && s'.db.routes == s.db.routes
      && s'.db.events == Snapshot(stored, good, bad) && Ids(s'.log) == Ids(s.log) + [good[|good| - 1]]
  {
    var n := |good| - 1;
    var g := good[n];
    GoodReady(s, stored, good, bad);
    SnapshotIds(stored, good[..n], bad);
    assert stored[g].id == g;
    SnapshotSnoc(stored, good, bad);
    hide *;
    actions := TakesOneTurn(s, stored[g]);
  }

  lemma SnapshotSnoc(stored: Events, good: seq<RowId>, bad: seq<RowId>)
    requires Arranged(stored, good) && good != []
    ensures var g := good[|good| - 1];
      Snapshot(stored, good, bad) == Snapshot(stored, good[..|good| - 1], bad)[g := stored[g].(processed := true)]
  {
    Newest(stored, good);
  }

  lemma GoodReady(s: State, stored: Events, good: seq<RowId>, bad: seq<RowId>)
    requires DeliveredRows(stored) && Drainable(stored) && AllGood(stored, good) && AllMalformed(stored, bad)
    requires Arranged(stored, good) && Arranged(stored, bad) && good != []
    requires bad != [] ==> At(stored, bad[|bad| - 1]) < At(stored, good[|good| - 1])
    requires s.db.events == Snapshot(stored, good[..|good| - 1], bad)
    ensures var ev := stored[good[|good| - 1]];
      && Enabled(s, Deliver(ev)) && CalmStep(s, Deliver(ev)) && Parsable(ev)
      && Drained(s.db.events) && |P.BadIds(s.db.events)| < BATCH_SIZE
  {
    var n := |good| - 1;
    var g := good[n];
    Newest(stored, good);
    if bad != [] {
      Newest(stored, bad);
    }
    GoodIsNotBad(stored, good, bad);
    assert AllGood(stored, good[..n]) && g in stored && Parsable(stored[g]);
    hide Arranged, AllGood, AllMalformed;
    CanDeliver(s, stored, good[..n], bad, g);
    RoomFor(stored, good[..n], bad, g);
  }

  /** Any arrangement of the good rows is the order of some run: rows are delivered second
      by second, the good ones of a second first, each with a tick of its own. */
  lemma Arrives(s: State, stored: Events, good: seq<RowId>, bad: seq<RowId>) returns (actions: seq<Action>)
    requires Initial(s) && DeliveredRows(stored) && Drainable(stored)
    requires AllGood(stored, good) && AllMalformed(stored, bad) && Arranged(stored, good) && Arranged(stored, bad)
    ensures Runnable(s, actions) && CalmRun(s, actions) && Arrived(s, stored, good, bad, Run(s, actions))
    decreases |good| + |bad|
  {
    if good == [] && bad == [] {
      actions := [];
    } else if bad != [] && (good == [] || At(stored, good[|good| - 1]) <= At(stored, bad[|bad| - 1])) {
      var n := |bad| - 1;
      Newest(stored, bad);
      assert AllMalformed(stored, bad[..n]);
      hide Arranged, AllGood, AllMalformed, Drainable, DeliveredRows, Initial, Snapshot;
      var before := Arrives(s, stored, good, bad[..n]);
      BadArrives(Run(s, before), stored, good, bad);
      OneMore(s, before, Deliver(stored[bad[n]]));
      actions := before + [Deliver(stored[bad[n]])];
    } else {
      var n := |good| - 1;
      Newest(stored, good);
      assert AllGood(stored, good[..n]) && good[..n] + [good[n]] == good;
      hide Arranged, AllGood, AllMalformed, Drainable, DeliveredRows, Initial, Snapshot;
      var before := Arrives(s, stored, good[..n], bad);
      var turn := GoodArrives(Run(s, before), stored, good, bad);
      RunAppend(s, before, turn);
      actions := before + turn;
    }
  }

  lemma OneMore(s: State, actions: seq<Action>, a: Action)
    requires Runnable(s, actions) && CalmRun(s, actions)
    requires Enabled(Run(s, actions), a) && CalmStep(Run(s, actions), a)
    ensures Runnable(s, actions + [a]) && CalmRun(s, actions + [a])
    ensures Run(s, actions + [a]) == Next(Run(s, actions), a)
  {
    assert (actions + [a])[..|actions|] == actions;
  }

  ghost predicate DrainsTo(s: State, actions: seq<Action>, stored: Events) {
    && Runnable(s, actions) && CalmRun(s, actions)
    && SameEvents(stored, Run(s, actions).db.events) && Drained(Run(s, actions).db.events)
  }

  lemma MalformedRows(stored: Events) returns (bad: seq<RowId>)
    ensures AllMalformed(stored, bad) && Arranged(stored, bad)
    ensures forall id | id in stored && !Parsable(stored[id]) :: id in bad
  {
    var ids := set id | id in stored && !Parsable(stored[id]);
    var rank: RowId -> int := _ => 0;
    bad := RankedOrder(stored, rank, ids);
    assert forall i | 0 <= i < |bad| :: bad[i] in bad;
  }

  /** Every order of the good rows that is consistent with `created_at` is the order in which
      some run drains them, as long as no good row has fifty malformed ones of earlier
      seconds. */
  lemma OrderIsARun(s: State, stored: Events, order: seq<RowId>) returns (actions: seq<Action>)
    requires Initial(s) && DeliveredRows(stored) && Drainable(stored)
    requires IsOrder(Db(s.db.routes, stored, map[]), order)
    ensures DrainsTo(s, actions, stored) && Ids(Run(s, actions).log) == order
  {
    var bad := MalformedRows(stored);
    assert AllGood(stored, order) && Arranged(stored, order);
    assert forall id | id in stored :: id in order || id in bad;
    hide IsOrder, AllGood, AllMalformed, Arranged, Drainable, DeliveredRows, Initial;
    actions := Arrives(s, stored, order, bad);
    SnapshotOfAll(stored, order, bad);
  }

  lemma SnapshotOfAll(stored: Events, good: seq<RowId>, bad: seq<RowId>)
    requires forall id | id in stored :: id in good || id in bad
    requires AllMalformed(stored, bad)
    ensures SameEvents(stored, Snapshot(stored, good, bad)) && Drained(Snapshot(stored, good, bad))
  {
    var events := Snapshot(stored, good, bad);
    forall id | id in events && Parsable(events[id]) ensures events[id].processed {
      assert Read(events[id]) == Read(stored[id]);
    }
  }

  // ----- What cannot be drained -----

  /** Rows of the final inbox, apart from their processed flags. */
  ghost predicate Among(events: Events, stored: Events) {
    forall id | id in events :: id in stored && events[id].(processed := false) == stored[id].(processed := false)
  }

  /** Fifty malformed rows of earlier seconds than a good one. */
  ghost predicate InTheWay(stored: Events, stale: set<RowId>, g: RowId) {
    && g in stored && Parsable(stored[g]) && |stale| >= BATCH_SIZE
    && (forall b | b in stale :: b in stored && !Parsable(stored[b]) && At(stored, b) < At(stored, g))
  }

  lemma StepAmong(s: State, a: Action, stored: Events)
    requires Enabled(s, a) && Among(Next(s, a).db.events, stored)
    ensures Among(s.db.events, stored)
  {
    forall id | id in s.db.events
      ensures id in Next(s, a).db.events
      ensures Next(s, a).db.events[id].(processed := false) == s.db.events[id].(processed := false)
    {
    }
  }

  lemma AmongReads(events: Events, stored: Events, id: RowId)
    requires Among(events, stored) && id in events
    ensures Read(events[id]) == Read(stored[id]) && At(events, id) == At(stored, id)
  {
    assert events[id].(processed := false) == stored[id].(processed := false);
  }

  lemma BadStaysWaiting(s: State, id: RowId)
    requires InOrder(s) && id in s.db.events && !Parsable(s.db.events[id])
    ensures !s.db.events[id].processed
  {
    forall i | 0 <= i < |s.log| ensures s.log[i].event != id {
      assert Faithful(s.db, s.log[i]);
    }
  }

  lemma GoodComesLast(s: State, ev: Event, stored: Events, stale: set<RowId>, g: RowId)
    requires CalmStep(s, Deliver(ev)) && ev.id !in s.db.events
    requires Among(s.db.events[ev.id := ev], stored) && InTheWay(stored, stale, g)
    requires ev.id in stale
    ensures g !in s.db.events
  {
    var events' := s.db.events[ev.id := ev];
    forall id | id in {g, ev.id} && id in events' ensures At(events', id) == At(stored, id) {
      AmongReads(events', stored, id);
    }
  }

  /** Once all of them are there, the good one waits. */
  lemma DeliveryBlocks(s: State, ev: Event, stored: Events, stale: set<RowId>, g: RowId)
    requires InOrder(s) && Enabled(s, Deliver(ev)) && CalmStep(s, Deliver(ev))
    requires Among(s.db.events[ev.id := ev], stored) && InTheWay(stored, stale, g)
    requires !(stale <= s.db.events.Keys && g in s.db.events)
    requires stale <= s.db.events.Keys + {ev.id} && (g in s.db.events || g == ev.id)
    ensures P.Blocked(Next(s, Deliver(ev)), stale, g)
  {
    var events' := s.db.events[ev.id := ev];
    if ev.id in stale {
      GoodComesLast(s, ev, stored, stale, g);
    }
    forall id | id in stale + {g} ensures Read(events'[id]) == Read(stored[id]) && At(events', id) == At(stored, id) {
      AmongReads(events', stored, id);
    }
    forall b | b in stale ensures b in s.db.events && !s.db.events[b].processed {
      BadStaysWaiting(s, b);
    }
  }

  lemma {:induction false} PrefixBlocked(s: State, actions: seq<Action>, stored: Events, stale: set<RowId>, g: RowId)
    requires Initial(s) && Runnable(s, actions) && CalmRun(s, actions)
    requires Among(Run(s, actions).db.events, stored) && InTheWay(stored, stale, g)
    ensures var s' := Run(s, actions);
      stale <= s'.db.events.Keys && g in s'.db.events ==> P.Blocked(s', stale, g)
  {
    var n := |actions|;
    if n == 0 {
    } else {
      var (before, a) := (Run(s, actions[..n - 1]), actions[n - 1]);
      StepAmong(before, a, stored);
      PrefixBlocked(s, actions[..n - 1], stored, stale, g);
      RunInv(s, actions[..n - 1]);
      CalmRunInOrder(s, actions[..n - 1]);
      StepPrefixBlocked(before, a, stored, stale, g);
    }
  }

  lemma StepPrefixBlocked(s: State, a: Action, stored: Events, stale: set<RowId>, g: RowId)
    requires Inv(s) && InOrder(s) && Enabled(s, a) && CalmStep(s, a)
    requires Among(Next(s, a).db.events, stored) && InTheWay(stored, stale, g)
    requires stale <= s.db.events.Keys && g in s.db.events ==> P.Blocked(s, stale, g)
    ensures var s' := Next(s, a);
      stale <= s'.db.events.Keys && g in s'.db.events ==> P.Blocked(s', stale, g)
  {
    var s' := Next(s, a);
    if stale <= s.db.events.Keys && g in s.db.events {
      P.StepBlocked(s, a, stale, g);
    } else if a.Deliver? && stale <= s'.db.events.Keys && g in s'.db.events {
      DeliveryBlocks(s, a.ev, stored, stale, g);
    } else {
      assert !a.Deliver? ==> s'.db.events.Keys == s.db.events.Keys;
    }
  }

  lemma DrainNeedsRoom(s: State, actions: seq<Action>, stored: Events, g: RowId)
    requires Initial(s) && DrainsTo(s, actions, stored) && g in stored && Parsable(stored[g])
    ensures |BadBefore(stored, g)| < BATCH_SIZE
  {
    var events := Run(s, actions).db.events;
    if |BadBefore(stored, g)| >= BATCH_SIZE {
      forall id | id in events ensures events[id].(processed := false) == stored[id].(processed := false) {
      }
      PrefixBlocked(s, actions, stored, BadBefore(stored, g), g);
    }
  }

  /** Calm deliveries and ticks can drain an inbox if and only if no good row of it has fifty
      malformed rows of earlier seconds. */
  lemma DrainableIff(s: State, stored: Events)
    requires Initial(s) && DeliveredRows(stored)
    ensures (exists actions :: DrainsTo(s, actions, stored)) <==> Drainable(stored)
  {
    if actions :| DrainsTo(s, actions, stored) {
      forall g | g in stored && Parsable(stored[g]) ensures |BadBefore(stored, g)| < BATCH_SIZE {
        DrainNeedsRoom(s, actions, stored, g);
      }
    }
    if Drainable(stored) {
      var rank: RowId -> int := _ => 0;
      var order := OrderWithRank(Db(s.db.routes, stored, map[]), rank);
      var actions := OrderIsARun(s, stored, order);
    }
  }

  // ----- Order-independence over runs -----

  /** All calm runs that deliver and drain these rows leave the same row under a key. */
  ghost predicate RunsAgree(s: State, stored: Events, key: string) {
    forall a1, a2 | DrainsTo(s, a1, stored) && DrainsTo(s, a2, stored) ::
      SameRow(Run(s, a1).db.deposits, Run(s, a2).db.deposits, key)
  }

  /** Over runs, too, and with malformed rows: all calm drains agree on a key if and only if
      its ties are harmless, or fifty malformed rows keep the inbox from being drained. */
  lemma RunsAgreeIff(s: State, stored: Events, key: string)
    requires Initial(s) && DeliveredRows(stored)
    ensures RunsAgree(s, stored, key)
      <==> (Drainable(stored) ==> TiesHarmless(Db(s.db.routes, stored, map[]), key))
  {
    var db := Db(s.db.routes, stored, map[]);
    DrainableIff(s, stored);
    if TiesHarmless(db, key) {
      forall a1, a2 | DrainsTo(s, a1, stored) && DrainsTo(s, a2, stored)
        ensures SameRow(Run(s, a1).db.deposits, Run(s, a2).db.deposits, key)
      {
        DrainsAgree(s, a1, a2, stored, key);
      }
    }
    if RunsAgree(s, stored, key) && Drainable(stored) {
      forall o1, o2 | IsOrder(db, o1) && IsOrder(db, o2) ensures FinalRow(db, o1, key) == FinalRow(db, o2, key) {
        RunsGiveOrders(s, stored, key, o1, o2);
      }
      OrderIrrelevantIff(db, key);
    }
  }

  lemma RunsGiveOrders(s: State, stored: Events, key: string, o1: seq<RowId>, o2: seq<RowId>)
    requires Initial(s) && DeliveredRows(stored) && Drainable(stored) && RunsAgree(s, stored, key)
    requires IsOrder(Db(s.db.routes, stored, map[]), o1) && IsOrder(Db(s.db.routes, stored, map[]), o2)
    ensures var db := Db(s.db.routes, stored, map[]);
      FinalRow(db, o1, key) == FinalRow(db, o2, key)
  {
    var a1 := OrderIsARun(s, stored, o1);
    var a2 := OrderIsARun(s, stored, o2);
    DrainIsAnOrder(s, a1, stored, key);
    DrainIsAnOrder(s, a2, stored, key);
    hide IsOrder, FinalRow, DeliveredRows, SameEvents, Drained, Initial, Run, Runnable, CalmRun, DrainsTo;
  }
}
