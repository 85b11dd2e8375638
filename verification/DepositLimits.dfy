/** Runs from an empty inbox that show why the deposit theorems carry the conditions they
    do: two notifications of one deposit are delivered, fetched and processed. */
module DepositLimits {
  import opened Wrappers
  import opened DepositModel
  import opened DepositDrain
  import P = DepositProgress
  import opened DepositProcessors

  function Notification(id: RowId, providerEventId: string, status: string, createdAt: int): Event {
    Event(id, providerEventId, VirtualAccountActivity,
      Payload(Some(Activity("deposit", "account", status, "100", "usd", "")), None), false, createdAt)
  }

  const ROUTES := map["account" := Route("route", "user")]

  /** One route and no event yet. */
  const START := State(Db(ROUTES, map[], map[]), [], [])

  function First(status: string, at: int): Event {
    Notification(1, "first", status, at)
  }

  function Second(status: string, at: int): Event {
    Notification(2, "second", status, at)
  }

  function Row(status: string): Deposit {
    Deposit("user", "route", VirtualAccount, status, "100", "usd", None)
  }

  function EntryOf(ev: Event): Entry {
    Entry(ev.id, WriteOf(ROUTES, ev))
  }

  /** Both notifications stored, and what has come of them so far. */
  function Waiting(a: Event, b: Event, batch: seq<Event>, deposits: Deposits, log: seq<Entry>): State {
    State(Db(ROUTES, map[a.id := a, b.id := b], deposits), batch, log)
  }

  /** The two deliveries that every run here starts with. */
  lemma Delivered(a: Event, b: Event)
    requires a.id != b.id && a.providerEventId != b.providerEventId && !a.processed && !b.processed
    requires a.createdAt <= b.createdAt
    ensures Enabled(START, Deliver(a)) && CalmStep(START, Deliver(a))
    ensures var s1 := Next(START, Deliver(a));
      && Enabled(s1, Deliver(b)) && CalmStep(s1, Deliver(b))
      && Next(s1, Deliver(b)) == Waiting(a, b, [], map[], [])
  {
    assert Next(START, Deliver(a)).db.events == map[a.id := a];
    assert map[a.id := a][b.id := b] == map[a.id := a, b.id := b];
  }

  lemma TwoAreBatch(events: Events, a: Event, b: Event)
    requires events.Keys == {a.id, b.id} && a.id != b.id
    requires events[a.id] == a && events[b.id] == b && !a.processed && !b.processed
    requires a.createdAt <= b.createdAt
    ensures IsBatch(events, BATCH_SIZE, [a, b])
  {
    assert UnprocessedIds(events) == {a.id, b.id};
    assert [a, b][0].id == a.id && [a, b][1].id == b.id;
  }

  lemma OneIsBatch(events: Events, a: Event)
    requires a.id in events && events[a.id] == a && !a.processed
    requires forall id | id in events && id != a.id :: events[id].processed
    ensures IsBatch(events, BATCH_SIZE, [a])
  {
    assert UnprocessedIds(events) == {a.id};
    assert [a][0].id == a.id;
  }

  /** A notification `ev` of this one deposit, saying `status`. */
  predicate Says(ev: Event, status: string) {
    status != "" && ev == Notification(ev.id, ev.providerEventId, status, ev.createdAt)
  }

  /** Handling a notification only sets the status of the one deposit. */
  lemma HandleNotification(s: State, ev: Event, status: string, mark: Reply)
    requires s.db.routes == ROUTES && Says(ev, status) && s.batch != [] && s.batch[0] == ev
    requires s.db.deposits == map[] || exists before :: s.db.deposits == map["deposit" := Row(before)]
    ensures Next(s, ProcessNext(CALM.(mark := mark))) == State(
      Db(ROUTES, if mark.TookEffect() then Mark(s.db.events, ev.id) else s.db.events, map["deposit" := Row(status)]),
      s.batch[1..], s.log + [EntryOf(ev)])
  {
    assert WriteOf(s.db.routes, ev) == Some(Write("deposit", Row(status)));
    assert Handle(s.db.routes, ev, CALM.(mark := mark))
      == Completed(Some(Write("deposit", Row(status))), mark.TookEffect());
  }

  function Tick2(a: Event, b: Event, firstMark: Reply): seq<Action> {
    [Fetch([a, b]), ProcessNext(CALM.(mark := firstMark)), ProcessNext(CALM)]
  }

  function EventsAfter(events: Events, a: Event, b: Event, firstMark: Reply): Events {
    Mark(if firstMark.TookEffect() then Mark(events, a.id) else events, b.id)
  }

  /** The four states of such a tick. */
  function TickStates(events: Events, a: Event, b: Event, x: string, y: string, firstMark: Reply): seq<State> {
    [State(Db(ROUTES, events, map[]), [], []),
     State(Db(ROUTES, events, map[]), [a, b], []),
     State(Db(ROUTES, if firstMark.TookEffect() then Mark(events, a.id) else events, map["deposit" := Row(x)]),
           [b], [EntryOf(a)]),
     State(Db(ROUTES, EventsAfter(events, a, b, firstMark), map["deposit" := Row(y)]), [], [EntryOf(a), EntryOf(b)])]
  }

  lemma TickSteps(events: Events, a: Event, b: Event, x: string, y: string, firstMark: Reply)
    requires Says(a, x) && Says(b, y) && a.id != b.id && a.createdAt <= b.createdAt
    requires events.Keys == {a.id, b.id} && events[a.id] == a && events[b.id] == b && !a.processed && !b.processed
    ensures Trace(TickStates(events, a, b, x, y, firstMark), Tick2(a, b, firstMark))
  {
    TwoAreBatch(events, a, b);
    hide IsBatch, HandleEvent, Says, EntryOf, Mark;
    var states := TickStates(events, a, b, x, y, firstMark);
    HandleNotification(states[1], a, x, firstMark);
    HandleNotification(states[2], b, y, Done);
    assert CALM.(mark := Done) == CALM;
  }

  /** A tick over both notifications, oldest first or of one second, the first mark of
      which may fail. */
  lemma ProcessBoth(events: Events, a: Event, b: Event, x: string, y: string, firstMark: Reply)
    requires Says(a, x) && Says(b, y) && a.id != b.id && a.createdAt <= b.createdAt
    requires events.Keys == {a.id, b.id} && events[a.id] == a && events[b.id] == b && !a.processed && !b.processed
    ensures var states := TickStates(events, a, b, x, y, firstMark);
      && Runnable(states[0], Tick2(a, b, firstMark))
      && (firstMark == Done ==> CalmRun(states[0], Tick2(a, b, firstMark)))
      && Run(states[0], Tick2(a, b, firstMark)) == states[3]
  {
    var states := TickStates(events, a, b, x, y, firstMark);
    TickSteps(events, a, b, x, y, firstMark);
    assert CALM.(mark := Done) == CALM;
    hide Trace, TickStates;
    RunTrace(states, Tick2(a, b, firstMark));
    if firstMark == Done {
      CalmTrace(states, Tick2(a, b, firstMark));
    }
  }

  function Deliveries(a: Event, b: Event): seq<Action> {
    [Deliver(a), Deliver(b)]
  }

  lemma DeliverBoth(a: Event, b: Event)
    requires a.id != b.id && a.providerEventId != b.providerEventId && !a.processed && !b.processed
    requires a.createdAt <= b.createdAt
    ensures Initial(START) && Runnable(START, Deliveries(a, b)) && CalmRun(START, Deliveries(a, b))
    ensures Run(START, Deliveries(a, b)) == Waiting(a, b, [], map[], [])
  {
    Delivered(a, b);
    var states := [START, Next(START, Deliver(a)), Waiting(a, b, [], map[], [])];
    RunTrace(states, Deliveries(a, b));
    CalmTrace(states, Deliveries(a, b));
  }

  predicate HasStatus(s: State, status: string) {
    "deposit" in s.db.deposits && s.db.deposits["deposit"].status == status
  }

  /** Both deliveries and one tick over them. */
  lemma DeliverAndTick(a: Event, b: Event, c: Event, d: Event, y: string, z: string, firstMark: Reply)
    requires a.id != b.id && a.providerEventId != b.providerEventId && !a.processed && !b.processed
    requires a.createdAt <= b.createdAt && c.createdAt <= d.createdAt
    requires (c == a && d == b) || (c == b && d == a)
    requires Says(c, y) && Says(d, z)
    ensures var (events, all) := (map[a.id := a, b.id := b], Deliveries(a, b) + Tick2(c, d, firstMark));
      && Initial(START) && Runnable(START, all) && (firstMark == Done ==> CalmRun(START, all))
      && Run(START, all)
        == State(Db(ROUTES, EventsAfter(events, c, d, firstMark), map["deposit" := Row(z)]),
                 [], [EntryOf(c), EntryOf(d)])
      && HasStatus(Run(START, all), z)
  {
    DeliverBoth(a, b);
    ProcessBoth(map[a.id := a, b.id := b], c, d, y, z, firstMark);
    hide EventsAfter, Says;
    RunAppend(START, Deliveries(a, b), Tick2(c, d, firstMark));
  }

  /** `created_at` counts whole seconds. Two deliveries of one second may be fetched in
      either order, and the last one decides the status: two calm runs of the same
      deliveries end with different deposits. */
  lemma SameSecondIsAmbiguous(x: string, y: string, at: int)
    requires x != "" && y != "" && x != y
    ensures var (a, b) := (First(x, at), Second(y, at));
      var (one, other) := (Deliveries(a, b) + Tick2(a, b, Done), Deliveries(a, b) + Tick2(b, a, Done));
      && Initial(START) && Runnable(START, one) && Runnable(START, other)
      && CalmRun(START, one) && CalmRun(START, other)
      && Run(START, one).db.events == Run(START, other).db.events && Drained(Run(START, one).db.events)
      && HasStatus(Run(START, one), y) && HasStatus(Run(START, other), x)
  {
    var (a, b) := (First(x, at), Second(y, at));
    assert Says(a, x) && Says(b, y) && a.id != b.id && a.providerEventId != b.providerEventId;
    assert a.createdAt == b.createdAt && !a.processed && !b.processed;
    hide *;
    DeliverAndTick(a, b, a, b, x, y, Done);
    DeliverAndTick(a, b, b, a, y, x, Done);
    BothMarked(map[a.id := a, b.id := b], a, b);
  }

  lemma BothMarked(events: Events, a: Event, b: Event)
    requires events.Keys == {a.id, b.id}
    ensures EventsAfter(events, a, b, Done) == EventsAfter(events, b, a, Done)
    ensures Drained(EventsAfter(events, a, b, Done))
  {
  }

  /** A failed mark lets an older event overwrite the status of a newer one. */
  lemma FailedMarkRevertsStatus(x: string, y: string, at: int)
    requires x != "" && y != "" && x != y
    ensures var (a, b) := (First(x, at), Second(y, at + 1));
      var tick := Deliveries(a, b) + Tick2(a, b, Refused);
      var again := tick + [Fetch([a]), ProcessNext(CALM)];
      && Initial(START) && Runnable(START, tick) && HasStatus(Run(START, tick), y)
      && Runnable(START, again) && HasStatus(Run(START, again), x)
  {
    var (a, b) := (First(x, at), Second(y, at + 1));
    var tick := Deliveries(a, b) + Tick2(a, b, Refused);
    DeliverAndTick(a, b, a, b, x, y, Refused);
    var s1 := Run(START, tick);
    OneIsBatch(s1.db.events, a);
    TickAgain(s1, a, x);
    hide Runnable, Run;
    RunAppend(START, tick, [Fetch([a]), ProcessNext(CALM)]);
  }

  lemma TickAgain(s: State, a: Event, x: string)
    requires s.batch == [] && IsBatch(s.db.events, BATCH_SIZE, [a]) && Says(a, x) && s.db.routes == ROUTES
    requires exists before :: s.db.deposits == map["deposit" := Row(before)]
    ensures Runnable(s, [Fetch([a]), ProcessNext(CALM)]) && HasStatus(Run(s, [Fetch([a]), ProcessNext(CALM)]), x)
  {
    var s1 := s.(batch := [a]);
    HandleNotification(s1, a, x, Done);
    assert CALM.(mark := Done) == CALM;
    RunTrace([s, s1, Next(s1, ProcessNext(CALM))], [Fetch([a]), ProcessNext(CALM)]);
  }

  // ----- Fifty malformed rows -----

  function Malformed(i: nat, at: int): Event {
    Event(i, seq(i + 1, _ => 'x'), VirtualAccountActivity, Payload(None, None), false, at)
  }

  function MalformedDeliveries(n: nat, at: int): seq<Action> {
    seq(n, (i: nat) => Deliver(Malformed(i, at)))
  }

  function MalformedRows(n: nat, at: int): Events {
    map i: nat | i < n :: Malformed(i, at)
  }

  /** An inbox of malformed rows and perhaps others. */
  function Inbox(events: Events): State {
    State(Db(ROUTES, events, map[]), [], [])
  }

  lemma {:induction false} DeliverMalformed(n: nat, at: int)
    ensures Runnable(START, MalformedDeliveries(n, at)) && CalmRun(START, MalformedDeliveries(n, at))
    ensures Run(START, MalformedDeliveries(n, at)) == Inbox(MalformedRows(n, at))
  {
    if n == 0 {
      assert MalformedRows(0, at) == map[];
    } else {
      DeliverMalformed(n - 1, at);
      NextMalformed(n - 1, at);
      assert MalformedDeliveries(n, at) == MalformedDeliveries(n - 1, at) + [Deliver(Malformed(n - 1, at))];
      hide MalformedDeliveries, MalformedRows, Malformed, Enabled, CalmStep, Runnable, Run, CalmRun, Next, Inbox;
      DeliverOneMore(START, MalformedDeliveries(n - 1, at), Malformed(n - 1, at));
    }
  }

  lemma DeliverOneMore(s: State, actions: seq<Action>, ev: Event)
    requires Runnable(s, actions) && CalmRun(s, actions)
    requires Enabled(Run(s, actions), Deliver(ev)) && CalmStep(Run(s, actions), Deliver(ev))
    ensures Runnable(s, actions + [Deliver(ev)]) && CalmRun(s, actions + [Deliver(ev)])
    ensures Run(s, actions + [Deliver(ev)]) == Next(Run(s, actions), Deliver(ev))
  {
    assert (actions + [Deliver(ev)])[..|actions|] == actions;
  }

  lemma NextMalformed(n: nat, at: int)
    ensures var (s, ev) := (Inbox(MalformedRows(n, at)), Malformed(n, at));
      && Enabled(s, Deliver(ev)) && CalmStep(s, Deliver(ev))
      && Next(s, Deliver(ev)) == Inbox(MalformedRows(n + 1, at))
  {
    var rows := MalformedRows(n, at);
    forall i | i in rows ensures rows[i].providerEventId != Malformed(n, at).providerEventId {
      assert |rows[i].providerEventId| == i + 1;
    }
    assert rows[n := Malformed(n, at)] == MalformedRows(n + 1, at);
  }

  function IdsBelow(n: nat): (ids: set<RowId>)
    ensures |ids| == n && forall i: nat :: i in ids <==> i < n
  {
    if n == 0 then {} else IdsBelow(n - 1) + {n - 1}
  }

  /** Fifty malformed deliveries, and one good event a second later. */
  function FiftyFirst(good: Event, at: int): seq<Action> {
    MalformedDeliveries(50, at) + [Deliver(good)]
  }

  /** Calm runs do get there: after fifty malformed deliveries the queue is stopped, and a good
      event that comes a second later is blocked. */
  lemma FiftyStop(status: string, at: int)
    requires status != ""
    ensures var (actions, good) := (MalformedDeliveries(50, at), Notification(50, "good", status, at + 1));
      && Runnable(START, actions) && CalmRun(START, actions) && P.Stopped(Run(START, actions), IdsBelow(50))
      && Runnable(START, FiftyFirst(good, at)) && CalmRun(START, FiftyFirst(good, at))
      && P.Stopped(Run(START, FiftyFirst(good, at)), IdsBelow(50))
      && P.Blocked(Run(START, FiftyFirst(good, at)), IdsBelow(50), good.id)
  {
    var (rows, good) := (MalformedRows(50, at), Notification(50, "good", status, at + 1));
    DeliverMalformed(50, at);
    GoodAfter(rows, good, status, at);
    FiftyRows(status, at);
    hide Enabled, CalmStep, MalformedRows, IdsBelow, P.Stopped, P.Blocked, Runnable, Run, CalmRun;
    DeliverOneMore(START, MalformedDeliveries(50, at), good);
  }

  lemma GoodAfter(rows: Events, good: Event, status: string, at: int)
    requires rows == MalformedRows(50, at) && good == Notification(50, "good", status, at + 1)
    ensures Enabled(Inbox(rows), Deliver(good)) && CalmStep(Inbox(rows), Deliver(good))
    ensures Next(Inbox(rows), Deliver(good)) == Inbox(rows[50 := good])
  {
    forall i | i in rows ensures rows[i].providerEventId != "good" {
      assert rows[i].providerEventId[0] == 'x';
    }
  }

  lemma FiftyRows(status: string, at: int)
    requires status != ""
    ensures var (rows, good) := (MalformedRows(50, at), Notification(50, "good", status, at + 1));
      && P.Stopped(Inbox(rows), IdsBelow(50)) && P.Stopped(Inbox(rows[50 := good]), IdsBelow(50))
      && P.Blocked(Inbox(rows[50 := good]), IdsBelow(50), 50)
  {
    var (rows, good) := (MalformedRows(50, at), Notification(50, "good", status, at + 1));
    assert Parsable(good) && !good.processed && good.id == 50 && good.createdAt == at + 1;
    hide *;
    RowsOfIds(rows, IdsBelow(50), 50, at);
    StopAndBlock(rows, IdsBelow(50), good, at);
  }

  /** Fifty malformed rows of one second, and a good one of a later second. */
  lemma StopAndBlock(rows: Events, ids: set<RowId>, good: Event, at: int)
    requires rows.Keys == ids && |ids| >= BATCH_SIZE
    requires forall i | i in rows :: rows[i].createdAt == at && !Parsable(rows[i]) && !rows[i].processed
    requires good.id !in ids && Parsable(good) && !good.processed && good.createdAt > at
    ensures P.Stopped(Inbox(rows), ids) && P.Stopped(Inbox(rows[good.id := good]), ids)
    ensures P.Blocked(Inbox(rows[good.id := good]), ids, good.id)
  {
    hide Parsable;
  }

  lemma RowsOfIds(rows: Events, ids: set<RowId>, n: nat, at: int)
    requires rows == MalformedRows(n, at) && forall i: nat :: i in ids <==> i < n
    ensures rows.Keys == ids
    ensures forall i | i in rows :: rows[i].createdAt == at && !Parsable(rows[i]) && !rows[i].processed
  {
  }

  lemma BlockedStays(s: State, actions: seq<Action>, later: seq<Action>, stale: set<RowId>, g: RowId)
    requires Initial(s) && Runnable(s, actions) && P.Blocked(Run(s, actions), stale, g)
    requires Runnable(Run(s, actions), later)
    ensures g in P.GoodIds(Run(Run(s, actions), later).db.events)
  {
    RunInv(s, actions);
    P.BlockedForever(Run(s, actions), later, stale, g);
    hide Runnable, Run, Inv, Initial;
  }

  /** From there on the good event is never processed, whatever is delivered, fails or
      restarts. */
  lemma FiftyStarve(status: string, at: int, later: seq<Action>)
    requires status != ""
    requires var actions := FiftyFirst(Notification(50, "good", status, at + 1), at);
      Runnable(START, actions) && Runnable(Run(START, actions), later)
    ensures var actions := FiftyFirst(Notification(50, "good", status, at + 1), at);
      50 in P.GoodIds(Run(Run(START, actions), later).db.events)
  {
    hide Runnable, Run, FiftyFirst, P.Blocked, P.Stopped, MalformedDeliveries, IdsBelow, P.GoodIds, CalmRun;
    FiftyStop(status, at);
    assert Initial(START);
    hide *;
    BlockedStays(START, FiftyFirst(Notification(50, "good", status, at + 1), at), later, IdsBelow(50), 50);
  }

  // ----- Two processors -----

  function Working(events: Events, deposits: Deposits, tasks: map<nat, Task>, log: seq<Entry>): Shared {
    Shared(Db(ROUTES, events, deposits), tasks, log)
  }

  function TurnMoves(p: nat): seq<Move> {
    [Look(p, false), Put(p, Done), TickOff(p, Done)]
  }

  lemma UpsertRow(deposits: Deposits, status: string)
    requires deposits == map[] || exists before :: deposits == map["deposit" := Row(before)]
    ensures Upsert(deposits, "deposit", Row(status)) == map["deposit" := Row(status)]
  {
    if before :| deposits == map["deposit" := Row(before)] {
      assert deposits["deposit"] == Row(before);
    }
  }

  /** One processor handles the one notification it has fetched. */
  lemma CalmTurn(s: Shared, p: nat, ev: Event, status: string) returns (states: seq<Shared>)
    requires s.db.routes == ROUTES && TaskOf(s, p) == Task([ev], Looking) && Says(ev, status)
    requires s.db.deposits == map[] || exists before :: s.db.deposits == map["deposit" := Row(before)]
    ensures History(states, TurnMoves(p)) && states[0] == s
    ensures states[3]
      == Working(Mark(s.db.events, ev.id), map["deposit" := Row(status)], s.tasks[p := IDLE], s.log + [EntryOf(ev)])
  {
    var w := Write("deposit", Row(status));
    assert WriteOf(s.db.routes, ev) == Some(w);
    var s1 := After(s, Look(p, false));
    var s2 := After(s1, Put(p, Done));
    var s3 := After(s2, TickOff(p, Done));
    states := [s, s1, s2, s3];
    assert s1 == s.(tasks := s.tasks[p := Task([ev], Upserting(w))]);
    UpsertRow(s.db.deposits, status);
    assert [ev][1..] == [];
  }

  /** The first processor and then the second one fetch the older notification. */
  function BothTake(a: Event): seq<Move> {
    [Arrive(a), Take(1, [a]), Take(2, [a])]
  }

  lemma BothTakeIt(a: Event) returns (states: seq<Shared>)
    requires !a.processed
    ensures History(states, BothTake(a)) && states[0] == Shared(START.db, map[], [])
    ensures states[3]
      == Working(map[a.id := a], map[], map[1 := Task([a], Looking), 2 := Task([a], Looking)], [])
  {
    OneIsBatch(map[a.id := a], a);
    var task := Task([a], Looking);
    states := [Shared(START.db, map[], []), Working(map[a.id := a], map[], map[], []),
               Working(map[a.id := a], map[], map[1 := task], []),
               Working(map[a.id := a], map[], map[1 := task, 2 := task], [])];
    assert map[1 := task][2 := task] == map[1 := task, 2 := task];
  }

  /** A newer notification arrives and the first processor fetches it. */
  lemma TakesNewer(s: Shared, b: Event) returns (states: seq<Shared>)
    requires TaskOf(s, 1) == IDLE && CanInsert(s.db.events, b) && !b.processed
    requires forall id | id in s.db.events :: s.db.events[id].processed
    ensures History(states, [Arrive(b), Take(1, [b])]) && states[0] == s
    ensures states[2]
      == Shared(s.db.(events := s.db.events[b.id := b]), s.tasks[1 := Task([b], Looking)], s.log)
  {
    OneIsBatch(s.db.events[b.id := b], b);
    var s1 := s.(db := s.db.(events := s.db.events[b.id := b]));
    states := [s, s1, s1.(tasks := s.tasks[1 := Task([b], Looking)])];
  }

  /** The first processor goes on to the newer notification while the second waits. */
  function OneIsAhead(a: Event, b: Event): seq<Move> {
    BothTake(a) + TurnMoves(1) + [Arrive(b), Take(1, [b])] + TurnMoves(1)
  }

  function RaceMoves(a: Event, b: Event): seq<Move> {
    OneIsAhead(a, b) + TurnMoves(2)
  }

  /** With two processors nothing has to fail: both fetch the older notification, the first
      processes it and the newer one, and then the second one sets the status back. Every
      event is processed, so no tick corrects it. */
  lemma TwoProcessorsRevertStatus(x: string, y: string, at: int) returns (states: seq<Shared>)
    requires x != "" && y != "" && x != y
    ensures var (a, b) := (First(x, at), Second(y, at + 1));
      && History(states, RaceMoves(a, b)) && NothingFails(RaceMoves(a, b)) && Fresh(states[0])
      && states[11].db.deposits == map["deposit" := Row(y)]
      && states[14].db.deposits == map["deposit" := Row(x)]
      && states[14].db.events.Keys == {a.id, b.id} && Drained(states[14].db.events)
  {
    var (a, b) := (First(x, at), Second(y, at + 1));
    var newer, older := RaceHistories(a, b, x, y);
    hide History, BothTake, TurnMoves, OneIsAhead, EntryOf;
    HistoryAppend(newer, OneIsAhead(a, b), older, TurnMoves(2));
    states := newer + older[1..];
  }

  lemma RaceHistories(a: Event, b: Event, x: string, y: string) returns (newer: seq<Shared>, older: seq<Shared>)
    requires Says(a, x) && Says(b, y)
    requires a.id != b.id && a.providerEventId != b.providerEventId && !a.processed && !b.processed
    ensures History(newer, OneIsAhead(a, b)) && newer[0] == Shared(START.db, map[], [])
    ensures History(older, TurnMoves(2)) && newer[11] == older[0] && newer[11].db.deposits == map["deposit" := Row(y)]
    ensures older[3].db.deposits == map["deposit" := Row(x)]
    ensures older[3].db.events == Mark(Mark(Mark(map[a.id := a], a.id)[b.id := b], b.id), a.id)
  {
    var s1 := BothTakeIt(a);
    var s2 := CalmTurn(s1[3], 1, a, x);
    var s3 := TakesNewer(s2[3], b);
    var s4 := CalmTurn(s3[2], 1, b, y);
    older := CalmTurn(s4[3], 2, a, x);
    hide Says, EntryOf, Mark, Row, History;
    newer := Joined(s1, BothTake(a), s2, TurnMoves(1), s3, [Arrive(b), Take(1, [b])], s4, TurnMoves(1));
  }

  lemma Joined(s1: seq<Shared>, m1: seq<Move>, s2: seq<Shared>, m2: seq<Move>,
      s3: seq<Shared>, m3: seq<Move>, s4: seq<Shared>, m4: seq<Move>)
    returns (states: seq<Shared>)
    requires History(s1, m1) && History(s2, m2) && History(s3, m3) && History(s4, m4)
    requires s1[|m1|] == s2[0] && s2[|m2|] == s3[0] && s3[|m3|] == s4[0]
    ensures History(states, m1 + m2 + m3 + m4)
    ensures |states| == |m1| + |m2| + |m3| + |m4| + 1
    ensures states[0] == s1[0] && states[|states| - 1] == s4[|m4|]
  {
    HistoryAppend(s1, m1, s2, m2);
    var h2 := s1 + s2[1..];
    assert h2[|m1| + |m2|] == s2[|m2|];
    HistoryAppend(h2, m1 + m2, s3, m3);
    var h3 := h2 + s3[1..];
    assert h3[|m1| + |m2| + |m3|] == s3[|m3|];
    HistoryAppend(h3, m1 + m2 + m3, s4, m4);
    states := h3 + s4[1..];
  }
}
