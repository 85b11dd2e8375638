/** How fast the drain gets through its queue while malformed events stay in it. */
module DepositProgress {
  import opened Wrappers
  import opened DepositModel
  import opened DepositDrain

  function GoodIds(events: Events): set<RowId> {
    set id | id in events && !events[id].processed && Parsable(events[id])
  }

  function BadIds(events: Events): set<RowId> {
    set id | id in events && !events[id].processed && !Parsable(events[id])
  }

  // ----- One tick -----

  function TickActions(batch: seq<Event>, faults: nat -> Faults): seq<Action> {
    [Fetch(batch)] + seq(|batch|, i requires 0 <= i < |batch| => ProcessNext(faults(i)))
  }

  function CalmTick(batch: seq<Event>): seq<Action> {
    TickActions(batch, _ => CALM)
  }

  lemma TickStart(s: State, batch: seq<Event>, faults: nat -> Faults)
    requires s.batch == [] && IsBatch(s.db.events, BATCH_SIZE, batch)
    ensures var actions := TickActions(batch, faults)[..1];
      Runnable(s, actions) && Run(s, actions) == s.(batch := batch)
  {
    RunSnoc(s, [], Fetch(batch));
    assert TickActions(batch, faults)[..1] == [] + [Fetch(batch)];
  }

  lemma TickTurn(s: State, batch: seq<Event>, faults: nat -> Faults, i: nat)
    requires i < |batch|
    requires var actions := TickActions(batch, faults)[..i + 1];
      Runnable(s, actions) && Run(s, actions).batch == batch[i..]
    ensures var (actions, actions') := (TickActions(batch, faults)[..i + 1], TickActions(batch, faults)[..i + 2]);
      && Runnable(s, actions')
      && Run(s, actions') == HandleEvent(Run(s, actions), batch[i], faults(i)).(batch := batch[i + 1..])
  {
    var actions := TickActions(batch, faults);
    RunSnoc(s, actions[..i + 1], ProcessNext(faults(i)));
    assert actions[..i + 2] == actions[..i + 1] + [ProcessNext(faults(i))];
    assert batch[i..][1..] == batch[i + 1..];
  }

  /** The ids of the first `n` events. */
  function IdSet(batch: seq<Event>, n: nat): set<RowId>
    requires n <= |batch|
  {
    set i | 0 <= i < n :: batch[i].id
  }

  lemma {:induction false} IdSetSize(events: Events, batch: seq<Event>, n: nat)
    requires SortedRows(events, batch) && n <= |batch|
    ensures |IdSet(batch, n)| == n
  {
    if n == 0 {
    } else {
      IdSetSize(events, batch, n - 1);
      assert IdSet(batch, n) == IdSet(batch, n - 1) + {batch[n - 1].id};
    }
  }

  lemma IdSetIsInBatch(batch: seq<Event>, id: RowId)
    ensures id in IdSet(batch, |batch|) <==> InBatch(batch, id)
  {
  }

  /** The good, and the bad, part of a fetched batch. */
  function Done(events: Events, batch: seq<Event>): set<RowId> {
    IdSet(batch, |batch|) * GoodIds(events)
  }

  function Left(events: Events, batch: seq<Event>): set<RowId> {
    IdSet(batch, |batch|) * BadIds(events)
  }

  /** The rows named in `done` became processed and nothing else changed. */
  ghost predicate Advanced(events: Events, events': Events, done: set<RowId>) {
    && events'.Keys == events.Keys
    && forall id | id in events ::
        events'[id] == if id in done then events[id].(processed := true) else events[id]
  }

  /** After `n` events of a fetched batch, exactly the parsable ones are processed. */
  lemma {:induction false} TickPrefix(s: State, batch: seq<Event>, n: nat)
    requires s.batch == [] && IsBatch(s.db.events, BATCH_SIZE, batch) && n <= |batch|
    ensures var actions := CalmTick(batch)[..n + 1];
      && Runnable(s, actions)
      && Run(s, actions).batch == batch[n..]
      && Advanced(s.db.events, Run(s, actions).db.events, IdSet(batch, n) * GoodIds(s.db.events))
  {
    if n == 0 {
      TickStart(s, batch, _ => CALM);
    } else {
      TickPrefix(s, batch, n - 1);
      TickTurn(s, batch, _ => CALM, n - 1);
      var mid := Run(s, CalmTick(batch)[..n]);
      CalmHead(mid, batch[n - 1]);
      AdvancedByHead(s.db.events, mid.db.events, batch, n - 1);
    }
  }

  lemma AdvancedByHead(events: Events, mid: Events, batch: seq<Event>, n: nat)
    requires SortedRows(events, batch) && n < |batch|
    requires Advanced(events, mid, IdSet(batch, n) * GoodIds(events))
    ensures Advanced(events,
      if Parsable(batch[n]) then Mark(mid, batch[n].id) else mid, IdSet(batch, n + 1) * GoodIds(events))
  {
    assert IdSet(batch, n + 1) == IdSet(batch, n) + {batch[n].id};
    assert batch[n].id !in IdSet(batch, n);
  }

  lemma CalmHead(s: State, ev: Event)
    ensures HandleEvent(s, ev, CALM).db.events == if Parsable(ev) then Mark(s.db.events, ev.id) else s.db.events
  {
    if Parsable(ev) {
      CalmHandling(s.db.routes, ev);
    }
  }

  lemma TickAdvances(s: State, batch: seq<Event>)
    requires s.batch == [] && IsBatch(s.db.events, BATCH_SIZE, batch)
    ensures Runnable(s, CalmTick(batch))
    ensures Run(s, CalmTick(batch)).batch == []
    ensures Advanced(s.db.events, Run(s, CalmTick(batch)).db.events, Done(s.db.events, batch))
  {
    TickPrefix(s, batch, |batch|);
    assert CalmTick(batch)[..|batch| + 1] == CalmTick(batch);
  }

  function Min(a: int, b: int): int {
    if a < b then a else b
  }

  lemma SubsetSize(a: set<RowId>, b: set<RowId>)
    requires a <= b
    ensures |a| <= |b| && |b - a| == |b| - |a|
  {
    assert b == a + (b - a);
  }

  /** The queue is the good and the bad events, and so is a batch of it. */
  lemma BatchShares(events: Events, batch: seq<Event>)
    requires IsBatch(events, BATCH_SIZE, batch)
    ensures |Done(events, batch)| + |Left(events, batch)| == |batch|
    ensures |batch| == Min(BATCH_SIZE, |GoodIds(events)| + |BadIds(events)|)
    ensures |Left(events, batch)| <= |BadIds(events)| && Done(events, batch) <= GoodIds(events)
  {
    IdSetSize(events, batch, |batch|);
    SubsetSize(Left(events, batch), BadIds(events));
    QueueParts(events);
    SplitSize(IdSet(batch, |batch|), GoodIds(events), BadIds(events));
  }

  lemma QueueParts(events: Events)
    ensures UnprocessedIds(events) == GoodIds(events) + BadIds(events) && GoodIds(events) !! BadIds(events)
  {
  }

  lemma SplitSize(all: set<RowId>, a: set<RowId>, b: set<RowId>)
    requires all <= a + b && a !! b
    ensures |all * a| + |all * b| == |all| && |a + b| == |a| + |b|
  {
    assert all == all * a + all * b;
    assert all * a !! all * b;
  }

  /** What one tick did to the queue: the bad events stay, and with `P < 50` of them
      at least `min(50 - P, G)` of the `G` good ones are gone. */
  ghost predicate Progress(events: Events, events': Events) {
    && GoodIds(events') <= GoodIds(events) && BadIds(events') == BadIds(events)
    && |GoodIds(events')| <= |GoodIds(events)| - Min(BATCH_SIZE - |BadIds(events)|, |GoodIds(events)|)
  }

  lemma AdvancedProgress(events: Events, events': Events, batch: seq<Event>)
    requires IsBatch(events, BATCH_SIZE, batch) && Advanced(events, events', Done(events, batch))
    ensures Progress(events, events')
  {
    var done := Done(events, batch);
    BatchShares(events, batch);
    AdvancedIds(events, events', done);
    SubsetSize(done, GoodIds(events));
  }

  lemma TickProgress(s: State, batch: seq<Event>)
    requires s.batch == [] && IsBatch(s.db.events, BATCH_SIZE, batch)
    ensures Runnable(s, CalmTick(batch)) && Run(s, CalmTick(batch)).batch == []
    ensures Progress(s.db.events, Run(s, CalmTick(batch)).db.events)
  {
    TickAdvances(s, batch);
    AdvancedProgress(s.db.events, Run(s, CalmTick(batch)).db.events, batch);
  }

  lemma AdvancedIds(events: Events, events': Events, done: set<RowId>)
    requires Advanced(events, events', done) && done <= GoodIds(events)
    ensures GoodIds(events') == GoodIds(events) - done
    ensures BadIds(events') == BadIds(events)
  {
    forall id | id in events
      ensures id in GoodIds(events') <==> id in GoodIds(events) - done
      ensures id in BadIds(events') <==> id in BadIds(events)
    {
      assert Read(events'[id]) == Read(events[id]);
    }
  }

  // ----- Many ticks -----

  ghost predicate IsTick(s: State, s': State) {
    s.batch == [] && exists batch ::
      IsBatch(s.db.events, BATCH_SIZE, batch) && Runnable(s, CalmTick(batch)) && s' == Run(s, CalmTick(batch))
  }

  /** States between consecutive ticks, with no delivery in between. */
  ghost predicate IsDrain(states: seq<State>) {
    states != [] && forall i | 0 < i < |states| :: IsTick(states[i - 1], states[i])
  }

  /** What a tick comes to, whichever batch it fetched. */
  ghost predicate TickOf(events: Events, events': Events) {
    exists batch :: IsBatch(events, BATCH_SIZE, batch) && Advanced(events, events', Done(events, batch))
  }

  lemma TickIsTickOf(s: State, s': State)
    requires IsTick(s, s')
    ensures TickOf(s.db.events, s'.db.events)
  {
    var batch :| IsBatch(s.db.events, BATCH_SIZE, batch)
      && Runnable(s, CalmTick(batch)) && s' == Run(s, CalmTick(batch));
    TickAdvances(s, batch);
  }

  // ----- One event -----

  /** The waiting rows that may be fetched before or with `g`. */
  function BadUpTo(events: Events, g: RowId): set<RowId> {
    set id | id in BadIds(events) && At(events, id) <= At(events, g)
  }

  function GoodUpTo(events: Events, g: RowId): set<RowId> {
    set id | id in GoodIds(events) && At(events, id) <= At(events, g)
  }

  lemma TickKeeps(events: Events, events': Events)
    requires TickOf(events, events')
    ensures GoodIds(events') <= GoodIds(events) && BadIds(events') == BadIds(events)
    ensures forall id :: At(events', id) == At(events, id)
  {
    var batch :| IsBatch(events, BATCH_SIZE, batch) && Advanced(events, events', Done(events, batch));
    BatchShares(events, batch);
    AdvancedIds(events, events', Done(events, batch));
  }

  /** A batch that passes `g` by is full of rows no newer than `g`. */
  lemma PassedBy(events: Events, batch: seq<Event>, g: RowId)
    requires IsBatch(events, BATCH_SIZE, batch) && g in GoodIds(events) && !InBatch(batch, g)
    ensures |batch| == BATCH_SIZE
    ensures Done(events, batch) <= GoodUpTo(events, g) && Left(events, batch) <= BadUpTo(events, g)
  {
    var ids := IdSet(batch, |batch|);
    IdSetSize(events, batch, |batch|);
    IdSetIsInBatch(batch, g);
    SubsetSize(ids + {g}, UnprocessedIds(events));
    forall id | id in ids ensures At(events, id) <= At(events, g) {
      IdSetIsInBatch(batch, id);
      assert Unprocessed(events, g);
    }
  }

  /** A tick that leaves `g` waiting takes at least `50 - B` events from before it, where
      `B` is the number of bad rows no newer than `g`. */
  lemma TickTowards(events: Events, events': Events, g: RowId)
    requires TickOf(events, events') && g in GoodIds(events) && g in GoodIds(events')
    ensures BadUpTo(events', g) == BadUpTo(events, g)
    ensures |GoodUpTo(events', g)| + BATCH_SIZE <= |GoodUpTo(events, g)| + |BadUpTo(events, g)|
  {
    var batch :| IsBatch(events, BATCH_SIZE, batch) && Advanced(events, events', Done(events, batch));
    var done := Done(events, batch);
    TickKeeps(events, events');
    BatchShares(events, batch);
    AdvancedIds(events, events', done);
    IdSetIsInBatch(batch, g);
    PassedBy(events, batch, g);
    SubsetSize(Left(events, batch), BadUpTo(events, g));
    SubsetSize(done, GoodUpTo(events, g));
    assert GoodUpTo(events', g) == GoodUpTo(events, g) - done;
  }

  lemma {:induction false} ChainTowards(queues: seq<Events>, g: RowId, n: nat)
    requires n < |queues| && g in GoodIds(queues[0])
    requires forall i | 0 < i < |queues| :: TickOf(queues[i - 1], queues[i])
    ensures GoodIds(queues[n]) <= GoodIds(queues[0])
    ensures g in GoodIds(queues[n]) ==>
      && BadUpTo(queues[n], g) == BadUpTo(queues[0], g)
      && |GoodUpTo(queues[n], g)| + n * (BATCH_SIZE - |BadUpTo(queues[0], g)|) <= |GoodUpTo(queues[0], g)|
  {
    if n == 0 {
    } else {
      ChainTowards(queues, g, n - 1);
      assert TickOf(queues[n - 1], queues[n]);
      TickKeeps(queues[n - 1], queues[n]);
      if g in GoodIds(queues[n]) {
        TickTowards(queues[n - 1], queues[n], g);
        var d := BATCH_SIZE - |BadUpTo(queues[0], g)|;
        assert n * d == (n - 1) * d + d;
      }
    }
  }

  /** Enough ticks for so many good rows with so many bad ones in the way. */
  predicate Enough(ticks: nat, bad: nat, good: nat) {
    ticks * (BATCH_SIZE - bad) >= good
  }

  /** After enough ticks the event is not waiting any more. */
  lemma SoonProcessed(queues: seq<Events>, g: RowId, n: nat)
    requires n < |queues| && g in GoodIds(queues[0])
    requires forall i | 0 < i < |queues| :: TickOf(queues[i - 1], queues[i])
    requires Enough(n, |BadUpTo(queues[0], g)|, |GoodUpTo(queues[0], g)|)
    ensures g !in GoodIds(queues[n])
  {
    ChainTowards(queues, g, n);
    CountsItself(queues[n], g);
  }

  lemma CountsItself(events: Events, g: RowId)
    ensures g in GoodIds(events) ==> |GoodUpTo(events, g)| >= 1
  {
    if g in GoodIds(events) {
      SubsetSize({g}, GoodUpTo(events, g));
    }
  }

  /** The queues between the ticks of a drain. */
  function Queues(states: seq<State>): seq<Events> {
    seq(|states|, i requires 0 <= i < |states| => states[i].db.events)
  }

  lemma DrainQueues(states: seq<State>)
    requires IsDrain(states)
    ensures var queues := Queues(states);
      forall i | 0 < i < |queues| :: TickOf(queues[i - 1], queues[i])
  {
    forall i | 0 < i < |states| ensures TickOf(states[i - 1].db.events, states[i].db.events) {
      TickIsTickOf(states[i - 1], states[i]);
    }
  }

  function TicksNeeded(good: nat, bad: nat): nat
    requires bad < BATCH_SIZE
  {
    (good + (BATCH_SIZE - bad) - 1) / (BATCH_SIZE - bad)
  }

  /** With `B < 50` bad and `G` good rows no newer than it, `g` itself among them, an event
      is processed within `ceil(G / (50 - B))` ticks. */
  lemma EventBound(states: seq<State>, g: RowId)
    requires IsDrain(states) && g in GoodIds(states[0].db.events)
    requires var events := states[0].db.events;
      |BadUpTo(events, g)| < BATCH_SIZE && |states| - 1 >= TicksNeeded(|GoodUpTo(events, g)|, |BadUpTo(events, g)|)
    ensures g !in GoodIds(states[|states| - 1].db.events)
  {
    var (queues, n) := (Queues(states), |states| - 1);
    DrainQueues(states);
    CeilingCovers(|GoodUpTo(queues[0], g)|, BATCH_SIZE - |BadUpTo(queues[0], g)|, n);
    SoonProcessed(queues, g, n);
  }

  /** Bad rows that may come before some good one. */
  function Blockers(events: Events): set<RowId> {
    set b | b in BadIds(events) && exists g :: g in GoodIds(events) && At(events, b) <= At(events, g)
  }

  /** Without new deliveries, `ceil(G / (50 - P))` ticks process every good event, where
      only the bad rows no newer than some good one count towards `P`. */
  lemma DrainBound(states: seq<State>)
    requires IsDrain(states)
    requires var events := states[0].db.events;
      |Blockers(events)| < BATCH_SIZE && |states| - 1 >= TicksNeeded(|GoodIds(events)|, |Blockers(events)|)
    ensures GoodIds(states[|states| - 1].db.events) == {}
  {
    var (queues, n) := (Queues(states), |states| - 1);
    var first := states[0].db.events;
    DrainQueues(states);
    CeilingCovers(|GoodIds(first)|, BATCH_SIZE - |Blockers(first)|, n);
    NothingBecomesGood(queues, n);
    hide IsDrain, GoodIds, Blockers;
    forall g | g in GoodIds(first) ensures g !in GoodIds(queues[n]) {
      WithinDrain(first, g, n);
      SoonProcessed(queues, g, n);
    }
  }

  /** What is enough for all good events is enough for one. */
  lemma WithinDrain(events: Events, g: RowId, n: nat)
    requires g in GoodIds(events) && |Blockers(events)| < BATCH_SIZE
    requires Enough(n, |Blockers(events)|, |GoodIds(events)|)
    ensures Enough(n, |BadUpTo(events, g)|, |GoodUpTo(events, g)|)
  {
    SubsetSize(BadUpTo(events, g), Blockers(events));
    SubsetSize(GoodUpTo(events, g), GoodIds(events));
    hide *;
    EnoughForFewer(n, |Blockers(events)|, |GoodIds(events)|, |BadUpTo(events, g)|, |GoodUpTo(events, g)|);
  }

  lemma EnoughForFewer(n: nat, bad: nat, good: nat, bad': nat, good': nat)
    requires Enough(n, bad, good) && bad' <= bad && good' <= good
    ensures Enough(n, bad', good')
  {
    var (d, e) := (BATCH_SIZE - bad, BATCH_SIZE - bad');
    assert n * d <= n * e;
  }

  lemma {:induction false} NothingBecomesGood(queues: seq<Events>, n: nat)
    requires n < |queues| && forall i | 0 < i < |queues| :: TickOf(queues[i - 1], queues[i])
    ensures GoodIds(queues[n]) <= GoodIds(queues[0])
  {
    if n == 0 {
    } else {
      NothingBecomesGood(queues, n - 1);
      assert TickOf(queues[n - 1], queues[n]);
      TickKeeps(queues[n - 1], queues[n]);
    }
  }

  lemma CeilingCovers(g: nat, d: nat, n: nat)
    requires d > 0 && n >= (g + d - 1) / d
    ensures n * d >= g
  {
    var q := (g + d - 1) / d;
    assert q * d + (g + d - 1) % d == g + d - 1;
    assert n * d >= q * d by {
      assert (n - q) * d >= 0;
    }
  }

  // ----- When the queue stalls -----

  /** Malformed events no newer than any good one. */
  function BlockingIds(events: Events): set<RowId> {
    set id | id in BadIds(events) && forall g | g in GoodIds(events) :: At(events, id) <= At(events, g)
  }

  lemma OldestExists(events: Events, ids: set<RowId>) returns (oldest: RowId)
    requires ids != {}
    ensures oldest in ids && forall id | id in ids :: At(events, oldest) <= At(events, id)
    decreases ids
  {
    var x :| x in ids;
    oldest := x;
    if ids != {x} {
      var y := OldestExists(events, ids - {x});
      oldest := if At(events, x) <= At(events, y) then x else y;
    }
  }

  /** The oldest rows of any set of waiting rows, in order. */
  lemma OldestRows(events: Events, ids: set<RowId>, limit: nat) returns (batch: seq<Event>)
    requires forall id | id in ids :: Unprocessed(events, id) && events[id].id == id
    ensures SortedRows(events, batch) && |batch| == Min(limit, |ids|)
    ensures forall i | 0 <= i < |batch| :: batch[i].id in ids
    ensures forall i, id | 0 <= i < |batch| && id in ids && !InBatch(batch, id) :: batch[i].createdAt <= At(events, id)
    decreases limit
  {
    batch := [];
    if limit > 0 && ids != {} {
      var first := OldestExists(events, ids);
      var rest := OldestRows(events, ids - {first}, limit - 1);
      batch := [events[first]] + rest;
      assert batch[0].id == first;
      forall id | InBatch(rest, id) ensures InBatch(batch, id) {
        var i :| 0 <= i < |rest| && rest[i].id == id;
        assert batch[i + 1].id == id;
      }
    }
  }

  /** The query always has an answer. */
  lemma BatchExists(events: Events, limit: nat) returns (batch: seq<Event>)
    requires forall id | id in events :: events[id].id == id
    ensures IsBatch(events, limit, batch)
  {
    batch := OldestRows(events, UnprocessedIds(events), limit);
  }

  ghost predicate AllBad(batch: seq<Event>) {
    forall i | 0 <= i < |batch| :: !Parsable(batch[i])
  }

  /** A tick can come up with bad events only exactly when there is nothing good to do,
      or at least fifty bad events are no newer than every good one. */
  lemma StallsIff(events: Events)
    requires forall id | id in events :: events[id].id == id
    ensures (exists batch :: IsBatch(events, BATCH_SIZE, batch) && AllBad(batch))
      <==> GoodIds(events) == {} || |BlockingIds(events)| >= BATCH_SIZE
  {
    forall batch | IsBatch(events, BATCH_SIZE, batch) && AllBad(batch) && GoodIds(events) != {}
      ensures |BlockingIds(events)| >= BATCH_SIZE
    {
      BadBatchBlocks(events, batch);
    }
    if |BlockingIds(events)| >= BATCH_SIZE {
      var batch := OldestRows(events, BlockingIds(events), BATCH_SIZE);
      BlockingBatch(events, batch);
    } else if GoodIds(events) == {} {
      var batch := BatchExists(events, BATCH_SIZE);
      forall i | 0 <= i < |batch| ensures !Parsable(batch[i]) {
        assert batch[i].id !in GoodIds(events);
      }
    }
  }

  lemma BadBatchBlocks(events: Events, batch: seq<Event>)
    requires IsBatch(events, BATCH_SIZE, batch) && AllBad(batch) && GoodIds(events) != {}
    ensures |BlockingIds(events)| >= BATCH_SIZE
  {
    assert forall i | 0 <= i < |batch| :: batch[i].id !in GoodIds(events);
    BatchShares(events, batch);
    assert Done(events, batch) == {};
    forall id | id in Left(events, batch) ensures id in BlockingIds(events) {
      IdSetIsInBatch(batch, id);
      var k :| 0 <= k < |batch| && batch[k].id == id;
      forall g | g in GoodIds(events) ensures At(events, id) <= At(events, g) {
        assert Unprocessed(events, g) && !InBatch(batch, g);
      }
    }
    SubsetSize(Left(events, batch), BlockingIds(events));
  }

  lemma BlockingBatch(events: Events, batch: seq<Event>)
    requires forall id | id in events :: events[id].id == id
    requires |BlockingIds(events)| >= BATCH_SIZE
    requires SortedRows(events, batch) && |batch| == BATCH_SIZE
    requires forall i | 0 <= i < |batch| :: batch[i].id in BlockingIds(events)
    requires forall i, id | 0 <= i < |batch| && id in BlockingIds(events) && !InBatch(batch, id) ::
      batch[i].createdAt <= At(events, id)
    ensures IsBatch(events, BATCH_SIZE, batch) && AllBad(batch)
  {
    SubsetSize(BlockingIds(events), UnprocessedIds(events));
    forall i, id | 0 <= i < |batch| && Unprocessed(events, id) && !InBatch(batch, id)
      ensures batch[i].createdAt <= events[id].createdAt
    {
      if id !in BlockingIds(events) && id !in GoodIds(events) {
        var g :| g in GoodIds(events) && At(events, g) < At(events, id);
        assert At(events, batch[i].id) <= At(events, g);
      }
    }
  }

  // ----- Events that are never reached -----

  /** With fifty bad rows no newer than `g` some batch passes `g` by. */
  lemma BatchWithout(events: Events, g: RowId) returns (batch: seq<Event>)
    requires forall id | id in events :: events[id].id == id
    requires g in GoodIds(events) && |BadUpTo(events, g)| >= BATCH_SIZE
    ensures IsBatch(events, BATCH_SIZE, batch) && !InBatch(batch, g)
  {
    var others := UnprocessedIds(events) - {g};
    batch := OldestRows(events, others, BATCH_SIZE);
    SubsetSize(BadUpTo(events, g), others);
    SubsetSize(others, UnprocessedIds(events));
    forall b | b in BadUpTo(events, g)
      ensures InBatch(batch, b) || forall i | 0 <= i < |batch| :: batch[i].createdAt <= At(events, b)
    {
    }
    FullOfOlder(events, batch, BadUpTo(events, g), At(events, g));
    PassingIsBatch(events, batch, g);
  }

  /** Enough rows up to some second leave no room for a newer one. */
  lemma FullOfOlder(events: Events, batch: seq<Event>, before: set<RowId>, second: int)
    requires SortedRows(events, batch) && |batch| <= |before|
    requires forall b | b in before :: At(events, b) <= second
    requires forall b | b in before ::
      InBatch(batch, b) || forall i | 0 <= i < |batch| :: batch[i].createdAt <= At(events, b)
    ensures forall i | 0 <= i < |batch| :: batch[i].createdAt <= second
  {
    if forall b | b in before :: InBatch(batch, b) {
      var ids := IdSet(batch, |batch|);
      IdSetSize(events, batch, |batch|);
      forall b | b in before ensures b in ids {
        IdSetIsInBatch(batch, b);
      }
      SubsetSize(before, ids);
      assert ids - before == {};
      assert forall i | 0 <= i < |batch| :: batch[i].id in ids;
    }
  }

  lemma PassingIsBatch(events: Events, batch: seq<Event>, g: RowId)
    requires SortedRows(events, batch) && |batch| == BATCH_SIZE <= |UnprocessedIds(events)|
    requires g in GoodIds(events)
    requires forall i | 0 <= i < |batch| :: batch[i].id != g && batch[i].createdAt <= At(events, g)
    requires forall i, id | 0 <= i < |batch| && id in UnprocessedIds(events) - {g} && !InBatch(batch, id) ::
      batch[i].createdAt <= At(events, id)
    ensures IsBatch(events, BATCH_SIZE, batch) && !InBatch(batch, g)
  {
  }

  /** Then any number of ticks can leave `g` waiting. */
  lemma {:induction false} DrainWithout(s: State, g: RowId, n: nat) returns (states: seq<State>)
    requires s.batch == [] && forall id | id in s.db.events :: s.db.events[id].id == id
    requires g in GoodIds(s.db.events) && |BadUpTo(s.db.events, g)| >= BATCH_SIZE
    ensures IsDrain(states) && |states| == n + 1 && states[0] == s
    ensures g in GoodIds(states[n].db.events)
    decreases n
  {
    if n == 0 {
      states := [s];
    } else {
      var batch := BatchWithout(s.db.events, g);
      var s' := TickPast(s, batch, g);
      var rest := DrainWithout(s', g, n - 1);
      states := [s] + rest;
      forall i | 0 < i < |states| ensures IsTick(states[i - 1], states[i]) {
        assert i > 1 ==> states[i - 1] == rest[i - 2] && states[i] == rest[i - 1];
      }
    }
  }

  lemma TickPast(s: State, batch: seq<Event>, g: RowId) returns (s': State)
    requires s.batch == [] && forall id | id in s.db.events :: s.db.events[id].id == id
    requires IsBatch(s.db.events, BATCH_SIZE, batch) && !InBatch(batch, g) && g in GoodIds(s.db.events)
    ensures IsTick(s, s') && s'.batch == [] && forall id | id in s'.db.events :: s'.db.events[id].id == id
    ensures g in GoodIds(s'.db.events) && BadUpTo(s'.db.events, g) == BadUpTo(s.db.events, g)
  {
    TickAdvances(s, batch);
    s' := Run(s, CalmTick(batch));
    var (events, events') := (s.db.events, s'.db.events);
    IdSetIsInBatch(batch, g);
    BatchShares(events, batch);
    AdvancedIds(events, events', Done(events, batch));
    hide IsBatch, Runnable, Run;
    assert forall id :: At(events', id) == At(events, id);
  }

  ghost predicate ProcessedWithin(s: State, g: RowId, n: nat) {
    forall states: seq<State> | IsDrain(states) && states[0] == s && |states| > n ::
      g !in GoodIds(states[|states| - 1].db.events)
  }

  /** A good event is processed by every long enough sequence of ticks if and only if fewer
      than fifty bad rows are no newer than it. */
  lemma ProcessedIff(s: State, g: RowId)
    requires s.batch == [] && forall id | id in s.db.events :: s.db.events[id].id == id
    requires g in GoodIds(s.db.events)
    ensures (exists n :: ProcessedWithin(s, g, n)) <==> |BadUpTo(s.db.events, g)| < BATCH_SIZE
  {
    var events := s.db.events;
    if |BadUpTo(events, g)| < BATCH_SIZE {
      var n := TicksNeeded(|GoodUpTo(events, g)|, |BadUpTo(events, g)|);
      forall states: seq<State> | IsDrain(states) && states[0] == s && |states| > n
        ensures g !in GoodIds(states[|states| - 1].db.events)
      {
        EventBound(states, g);
      }
      assert ProcessedWithin(s, g, n);
    } else {
      forall n ensures !ProcessedWithin(s, g, n) {
        var states := DrainWithout(s, g, n);
      }
    }
  }

  // ----- Whatever happens in between -----

  /** Fifty malformed rows in front of an event that waits. */
  ghost predicate Blocked(s: State, stale: set<RowId>, g: RowId) {
    && stale <= BadIds(s.db.events) && |stale| >= BATCH_SIZE
    && g in GoodIds(s.db.events) && !InBatch(s.batch, g)
    && (forall b | b in stale :: At(s.db.events, b) < At(s.db.events, g))
  }

  lemma NeverFetched(events: Events, batch: seq<Event>, stale: set<RowId>, g: RowId)
    requires IsBatch(events, BATCH_SIZE, batch) && stale <= BadIds(events) && |stale| >= BATCH_SIZE
    requires forall b | b in stale :: At(events, b) < At(events, g)
    ensures !InBatch(batch, g)
  {
    if InBatch(batch, g) {
      var i :| 0 <= i < |batch| && batch[i].id == g;
      var ids := IdSet(batch, |batch|);
      IdSetSize(events, batch, |batch|);
      forall b | b in stale ensures b in ids {
        IdSetIsInBatch(batch, b);
        assert Unprocessed(events, b);
      }
      assert g in ids && g !in stale;
      SubsetSize(stale + {g}, ids);
    }
  }

  /** Only the head of the batch can change, and only if it is not malformed. */
  lemma ProcessTouches(s: State, f: Faults, id: RowId)
    requires Inv(s) && s.batch != [] && id in s.db.events
    requires id != s.batch[0].id || !Parsable(s.db.events[id])
    ensures id in Next(s, ProcessNext(f)).db.events && Next(s, ProcessNext(f)).db.events[id] == s.db.events[id]
  {
    HandleCompletes(s.db.routes, s.batch[0], f);
  }

  lemma StepBlocked(s: State, a: Action, stale: set<RowId>, g: RowId)
    requires Inv(s) && Enabled(s, a) && Blocked(s, stale, g)
    ensures Blocked(Next(s, a), stale, g)
  {
    match a
    case Fetch(batch) => NeverFetched(s.db.events, batch, stale, g);
    case ProcessNext(f) =>
      assert s.batch[0].id != g;
      forall id | id in stale + {g} ensures Next(s, a).db.events[id] == s.db.events[id] {
        ProcessTouches(s, f, id);
      }
      forall i | 0 <= i < |s.batch| - 1 ensures s.batch[1..][i].id != g {
        assert s.batch[i + 1].id != g;
      }
    case _ =>
  }

  /** Whatever is delivered, fails or restarts, an event with fifty malformed rows of an
      earlier second before it is never processed. */
  lemma {:induction false} BlockedForever(s: State, actions: seq<Action>, stale: set<RowId>, g: RowId)
    requires Inv(s) && Runnable(s, actions) && Blocked(s, stale, g)
    ensures Inv(Run(s, actions)) && Blocked(Run(s, actions), stale, g)
  {
    var n := |actions|;
    if n == 0 {
    } else {
      BlockedForever(s, actions[..n - 1], stale, g);
      StepInv(Run(s, actions[..n - 1]), actions[n - 1]);
      StepBlocked(Run(s, actions[..n - 1]), actions[n - 1], stale, g);
    }
  }

  /** Fifty malformed rows in front of every event that waits. */
  ghost predicate Stopped(s: State, stale: set<RowId>) {
    && stale <= BadIds(s.db.events) && |stale| >= BATCH_SIZE && AllBad(s.batch)
    && (forall b, g | b in stale && g in GoodIds(s.db.events) :: At(s.db.events, b) < At(s.db.events, g))
  }

  /** The clock has passed the second of the newest of them. */
  ghost predicate LateDelivery(s: State, a: Action, stale: set<RowId>) {
    a.Deliver? ==> forall b | b in stale :: At(s.db.events, b) < a.ev.createdAt
  }

  ghost predicate LateDeliveries(s: State, actions: seq<Action>, stale: set<RowId>)
    requires Runnable(s, actions)
  {
    var n := |actions|;
    n == 0 || (LateDeliveries(s, actions[..n - 1], stale)
      && LateDelivery(Run(s, actions[..n - 1]), actions[n - 1], stale))
  }

  lemma StepStopped(s: State, a: Action, stale: set<RowId>)
    requires Enabled(s, a) && LateDelivery(s, a, stale) && Stopped(s, stale)
    ensures var s' := Next(s, a);
      && Stopped(s', stale) && s'.db.deposits == s.db.deposits && s'.log == s.log
      && (forall id | id in s.db.events :: id in s'.db.events && s'.db.events[id] == s.db.events[id])
  {
    match a
    case Fetch(batch) => StarvedBatch(s.db.events, stale, batch);
    case Deliver(ev) => LateStopped(s, ev, stale);
    case ProcessNext(_) => assert !Parsable(s.batch[0]);
    case _ =>
  }

  lemma LateStopped(s: State, ev: Event, stale: set<RowId>)
    requires Enabled(s, Deliver(ev)) && LateDelivery(s, Deliver(ev), stale) && Stopped(s, stale)
    ensures Stopped(Next(s, Deliver(ev)), stale)
  {
    var events' := Next(s, Deliver(ev)).db.events;
    forall b | b in stale ensures b in BadIds(events') && At(events', b) == At(s.db.events, b) {
      assert b in s.db.events && b != ev.id;
    }
    forall g | g in GoodIds(events')
      ensures g == ev.id || (g in GoodIds(s.db.events) && At(events', g) == At(s.db.events, g))
    {
    }
  }

  /** Fifty malformed rows older than every good one stop the queue for good: under any
      faults, restarts and later deliveries no row is ever marked, nothing is processed
      and the deposits stay as they are. */
  lemma {:induction false} OldBadEventsStarve(s: State, actions: seq<Action>, stale: set<RowId>)
    requires Runnable(s, actions) && LateDeliveries(s, actions, stale) && Stopped(s, stale)
    ensures var s' := Run(s, actions);
      && Stopped(s', stale) && s'.db.deposits == s.db.deposits && s'.log == s.log
      && (forall id | id in s.db.events :: id in s'.db.events && s'.db.events[id] == s.db.events[id])
  {
    var n := |actions|;
    if n == 0 {
    } else {
      OldBadEventsStarve(s, actions[..n - 1], stale);
      StepStopped(Run(s, actions[..n - 1]), actions[n - 1], stale);
    }
  }

  lemma StarvedBatch(events: Events, stale: set<RowId>, batch: seq<Event>)
    requires IsBatch(events, BATCH_SIZE, batch)
    requires stale <= BadIds(events) && |stale| >= BATCH_SIZE
    requires forall b, g | b in stale && g in GoodIds(events) :: At(events, b) < At(events, g)
    ensures AllBad(batch)
  {
    if b :| b in stale && !InBatch(batch, b) {
      assert Unprocessed(events, b);
      assert forall i | 0 <= i < |batch| :: batch[i].createdAt <= At(events, b) && batch[i].id !in GoodIds(events);
    } else {
      forall b | b in stale ensures b in Left(events, batch) {
        IdSetIsInBatch(batch, b);
      }
      SubsetSize(stale, Left(events, batch));
      BatchShares(events, batch);
      assert Done(events, batch) == {};
      forall i | 0 <= i < |batch| ensures !Parsable(batch[i]) {
        assert batch[i].id !in Done(events, batch);
      }
    }
  }
}
