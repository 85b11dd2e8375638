/** The query orders events by whole seconds only. This says exactly when the rest of the
    order does not matter: for which events every order consistent with `created_at`, and
    every calm run, leaves the same row under a key. */
module DepositOrder {
  import opened Wrappers
  import opened DepositModel
  import opened DepositDrain

  /** Every parsable event once, oldest second first. */
  ghost predicate IsOrder(db: Db, order: seq<RowId>) {
    && (forall i | 0 <= i < |order| :: order[i] in db.events && Parsable(db.events[order[i]]))
    && (forall id | id in db.events && Parsable(db.events[id]) :: id in order)
    && (forall i, j | 0 <= i < j < |order| ::
        order[i] != order[j] && At(db.events, order[i]) <= At(db.events, order[j]))
  }

  /** The row under a key after the fold over an order. */
  function FinalRow(db: Db, order: seq<RowId>, key: string): Option<Deposit> {
    var deposits := Fold(db.routes, db.events, order);
    if key in deposits then Some(deposits[key]) else None
  }

  // ----- The events that write a key -----

  predicate WritesKey(db: Db, id: RowId, key: string) {
    WriteAt(db.routes, db.events, id).Some? && WriteAt(db.routes, db.events, id).value.key == key
  }

  function RowOf(db: Db, id: RowId): Deposit
    requires WriteAt(db.routes, db.events, id).Some?
  {
    WriteAt(db.routes, db.events, id).value.row
  }

  ghost predicate Oldest(db: Db, key: string, id: RowId) {
    WritesKey(db, id, key) && forall w | WritesKey(db, w, key) :: At(db.events, id) <= At(db.events, w)
  }

  ghost predicate Newest(db: Db, key: string, id: RowId) {
    WritesKey(db, id, key) && forall w | WritesKey(db, w, key) :: At(db.events, w) <= At(db.events, id)
  }

  predicate WritesHash(db: Db, id: RowId, key: string) {
    WritesKey(db, id, key) && RowOf(db, id).txHash.Some?
  }

  ghost predicate NewestHash(db: Db, key: string, id: RowId) {
    WritesHash(db, id, key) && forall w | WritesHash(db, w, key) :: At(db.events, w) <= At(db.events, id)
  }

  predicate SameFixed(a: Deposit, b: Deposit) {
    a == b.(status := a.status, txHash := a.txHash)
  }

  /** The writers of the oldest second agree on what the first row fixes, those of the
      newest second on the status, and those of the newest second with a hash on it. */
  ghost predicate TiesHarmless(db: Db, key: string) {
    && (forall a, b | Oldest(db, key, a) && Oldest(db, key, b) :: SameFixed(RowOf(db, a), RowOf(db, b)))
    && (forall a, b | Newest(db, key, a) && Newest(db, key, b) :: RowOf(db, a).status == RowOf(db, b).status)
    && (forall a, b | NewestHash(db, key, a) && NewestHash(db, key, b) :: RowOf(db, a).txHash == RowOf(db, b).txHash)
  }

  // ----- The writers of one order -----

  function WritersOf(db: Db, order: seq<RowId>, key: string): seq<RowId> {
    var n := |order|;
    if n == 0 then []
    else WritersOf(db, order[..n - 1], key) + if WritesKey(db, order[n - 1], key) then [order[n - 1]] else []
  }

  lemma {:induction false} WritersMembers(db: Db, order: seq<RowId>, key: string)
    ensures forall id :: id in WritersOf(db, order, key) <==> id in order && WritesKey(db, id, key)
  {
    var n := |order|;
    if n == 0 {
    } else {
      WritersMembers(db, order[..n - 1], key);
      assert order == order[..n - 1] + [order[n - 1]];
    }
  }

  /** Sorted by second, and within a second by rank. */
  ghost predicate Ranked(events: Events, rank: RowId -> int, ids: seq<RowId>) {
    forall i, j | 0 <= i < j < |ids| :: ids[i] != ids[j] && Below(events, rank, ids[i], ids[j])
  }

  predicate Below(events: Events, rank: RowId -> int, a: RowId, b: RowId) {
    At(events, a) < At(events, b) || (At(events, a) == At(events, b) && rank(a) <= rank(b))
  }

  lemma {:induction false} WritersRanked(db: Db, rank: RowId -> int, order: seq<RowId>, key: string)
    requires Ranked(db.events, rank, order)
    ensures Ranked(db.events, rank, WritersOf(db, order, key))
  {
    var n := |order|;
    if n == 0 {
    } else {
      var before := order[..n - 1];
      WritersRanked(db, rank, before, key);
      WritersMembers(db, before, key);
      var ws := WritersOf(db, before, key);
      forall i | 0 <= i < |ws| ensures ws[i] != order[n - 1] && Below(db.events, rank, ws[i], order[n - 1]) {
        assert ws[i] in before;
      }
    }
  }

  function LogOf(db: Db, order: seq<RowId>): seq<Entry> {
    seq(|order|, i requires 0 <= i < |order| => Entry(order[i], WriteAt(db.routes, db.events, order[i])))
  }

  /** The rows that the writers of one order ask for, in that order. */
  function RowsIn(db: Db, order: seq<RowId>, key: string): seq<Deposit> {
    RowsFor(LogOf(db, order), key)
  }

  lemma {:induction false} RowsAreWriters(db: Db, order: seq<RowId>, key: string)
    ensures var (ws, rows) := (WritersOf(db, order, key), RowsIn(db, order, key));
      && |rows| == |ws|
      && forall i | 0 <= i < |ws| :: WritesKey(db, ws[i], key) && rows[i] == RowOf(db, ws[i])
  {
    var n := |order|;
    if n == 0 {
    } else {
      RowsAreWriters(db, order[..n - 1], key);
      assert LogOf(db, order)[..n - 1] == LogOf(db, order[..n - 1]);
    }
  }

  lemma FinalRowIsMerged(db: Db, order: seq<RowId>, key: string)
    requires IsOrder(db, order)
    ensures var rows := RowsIn(db, order, key);
      FinalRow(db, order, key) == if rows == [] then None else Some(Merged(rows))
  {
    var log := LogOf(db, order);
    assert forall i | 0 <= i < |log| :: Faithful(db, log[i]);
    assert Ids(log) == order;
    ReplayIsFold(db, log);
    ReplayClosedForm(log, key);
  }

  // ----- Enough -----

  ghost predicate Chronologic(events: Events, ids: seq<RowId>) {
    forall i, j | 0 <= i < j < |ids| :: At(events, ids[i]) <= At(events, ids[j])
  }

  lemma {:induction false} WritersChronologic(db: Db, order: seq<RowId>, key: string)
    requires Chronologic(db.events, order)
    ensures Chronologic(db.events, WritersOf(db, order, key))
  {
    var n := |order|;
    if n == 0 {
    } else {
      var before := order[..n - 1];
      WritersChronologic(db, before, key);
      WritersMembers(db, before, key);
      var ws := WritersOf(db, before, key);
      forall i | 0 <= i < |ws| ensures At(db.events, ws[i]) <= At(db.events, order[n - 1]) {
        assert ws[i] in before;
      }
    }
  }

  /** Exactly the writers of a key, oldest second first. */
  ghost predicate AllWriters(db: Db, key: string, ws: seq<RowId>) {
    && (forall id | WritesKey(db, id, key) :: exists i :: 0 <= i < |ws| && ws[i] == id)
    && (forall i | 0 <= i < |ws| :: WritesKey(db, ws[i], key))
    && Chronologic(db.events, ws)
  }

  lemma OrderHasWriters(db: Db, order: seq<RowId>, key: string)
    requires IsOrder(db, order)
    ensures AllWriters(db, key, WritersOf(db, order, key))
  {
    var ws := WritersOf(db, order, key);
    WritersMembers(db, order, key);
    WritersChronologic(db, order, key);
    forall id | WritesKey(db, id, key) ensures exists i :: 0 <= i < |ws| && ws[i] == id {
      assert Parsable(db.events[id]);
      assert id in order && id in ws;
    }
    assert forall i | 0 <= i < |ws| :: ws[i] in ws;
  }

  lemma FirstWriter(db: Db, key: string, ws: seq<RowId>)
    requires AllWriters(db, key, ws) && ws != []
    ensures Oldest(db, key, ws[0])
  {
    hide WritesKey, At;
    forall w | WritesKey(db, w, key) ensures At(db.events, ws[0]) <= At(db.events, w) {
      var i :| 0 <= i < |ws| && ws[i] == w;
    }
  }

  lemma LastWriter(db: Db, key: string, ws: seq<RowId>)
    requires AllWriters(db, key, ws) && ws != []
    ensures Newest(db, key, ws[|ws| - 1])
  {
    hide WritesKey, At;
    forall w | WritesKey(db, w, key) ensures At(db.events, w) <= At(db.events, ws[|ws| - 1]) {
      var i :| 0 <= i < |ws| && ws[i] == w;
    }
  }

  /** The rows of all writers of a key, as one list of them has it. */
  ghost predicate RowsOf(db: Db, key: string, ws: seq<RowId>, rows: seq<Deposit>) {
    && |rows| == |ws| && AllWriters(db, key, ws)
    && forall i | 0 <= i < |ws| :: WritesKey(db, ws[i], key) && rows[i] == RowOf(db, ws[i])
  }

  lemma NoHashWritten(db: Db, key: string, ws: seq<RowId>, rows: seq<Deposit>, w: RowId)
    requires RowsOf(db, key, ws, rows) && LastHash(rows).None?
    ensures !WritesHash(db, w, key)
  {
    LastHashExact(rows);
    hide LastHash;
    if WritesKey(db, w, key) {
      var i :| 0 <= i < |ws| && ws[i] == w;
      assert rows[i].txHash.None?;
    }
  }

  lemma HashWriter(db: Db, key: string, ws: seq<RowId>, rows: seq<Deposit>) returns (b: RowId)
    requires RowsOf(db, key, ws, rows) && LastHash(rows).Some?
    ensures NewestHash(db, key, b) && RowOf(db, b).txHash == LastHash(rows)
  {
    LastHashExact(rows);
    hide LastHash, WriteAt, At;
    var i :| 0 <= i < |rows| && rows[i].txHash == LastHash(rows) && forall j | i < j < |rows| :: rows[j].txHash.None?;
    b := ws[i];
    forall w | WritesHash(db, w, key) ensures At(db.events, w) <= At(db.events, b) {
      var k :| 0 <= k < |ws| && ws[k] == w;
      assert rows[k].txHash.Some?;
      assert k <= i;
    }
  }

  lemma SameHash(db: Db, key: string, w1: seq<RowId>, r1: seq<Deposit>, w2: seq<RowId>, r2: seq<Deposit>)
    requires RowsOf(db, key, w1, r1) && RowsOf(db, key, w2, r2) && TiesHarmless(db, key)
    ensures LastHash(r1) == LastHash(r2)
  {
    hide RowsOf, LastHash;
    if LastHash(r1).Some? {
      var b1 := HashWriter(db, key, w1, r1);
      if LastHash(r2).Some? {
        var b2 := HashWriter(db, key, w2, r2);
      } else {
        NoHashWritten(db, key, w2, r2, b1);
      }
    } else if LastHash(r2).Some? {
      var b2 := HashWriter(db, key, w2, r2);
      NoHashWritten(db, key, w1, r1, b2);
    }
  }

  lemma RowEnds(db: Db, key: string, ws: seq<RowId>, rows: seq<Deposit>) returns (a: RowId, b: RowId)
    requires RowsOf(db, key, ws, rows) && rows != []
    ensures Oldest(db, key, a) && RowOf(db, a) == rows[0]
    ensures Newest(db, key, b) && RowOf(db, b) == rows[|rows| - 1]
  {
    a, b := ws[0], ws[|ws| - 1];
    FirstWriter(db, key, ws);
    LastWriter(db, key, ws);
  }

  lemma NoRows(db: Db, key: string, ws: seq<RowId>, rows: seq<Deposit>, w: RowId)
    requires RowsOf(db, key, ws, rows) && WritesKey(db, w, key)
    ensures rows != []
  {
    var i :| 0 <= i < |ws| && ws[i] == w;
  }

  lemma SameEnds(db: Db, key: string, w1: seq<RowId>, r1: seq<Deposit>, w2: seq<RowId>, r2: seq<Deposit>)
    requires RowsOf(db, key, w1, r1) && RowsOf(db, key, w2, r2) && TiesHarmless(db, key)
    ensures r1 == [] <==> r2 == []
    ensures r1 != [] && r2 != [] ==> SameFixed(r1[0], r2[0]) && r1[|r1| - 1].status == r2[|r2| - 1].status
  {
    hide RowsOf, WritesKey;
    if r1 != [] {
      var a1, b1 := RowEnds(db, key, w1, r1);
      NoRows(db, key, w2, r2, a1);
      var a2, b2 := RowEnds(db, key, w2, r2);
    } else if r2 != [] {
      var a2, b2 := RowEnds(db, key, w2, r2);
      NoRows(db, key, w1, r1, a2);
    }
  }

  lemma OrderRows(db: Db, order: seq<RowId>, key: string)
    requires IsOrder(db, order)
    ensures RowsOf(db, key, WritersOf(db, order, key), RowsIn(db, order, key))
  {
    OrderHasWriters(db, order, key);
    RowsAreWriters(db, order, key);
  }

  lemma HarmlessAgree(db: Db, o1: seq<RowId>, o2: seq<RowId>, key: string)
    requires IsOrder(db, o1) && IsOrder(db, o2) && TiesHarmless(db, key)
    ensures FinalRow(db, o1, key) == FinalRow(db, o2, key)
  {
    hide IsOrder, TiesHarmless, RowsIn, WritersOf, RowsOf, LastHash, FinalRow;
    FinalRowIsMerged(db, o1, key);
    FinalRowIsMerged(db, o2, key);
    OrderRows(db, o1, key);
    OrderRows(db, o2, key);
    SameEnds(db, key, WritersOf(db, o1, key), RowsIn(db, o1, key), WritersOf(db, o2, key), RowsIn(db, o2, key));
    SameHash(db, key, WritersOf(db, o1, key), RowsIn(db, o1, key), WritersOf(db, o2, key), RowsIn(db, o2, key));
  }

  // ----- Needed -----

  lemma LeastRanked(events: Events, rank: RowId -> int, ids: set<RowId>) returns (least: RowId)
    requires ids != {}
    ensures least in ids && forall id | id in ids :: Below(events, rank, least, id)
    decreases ids
  {
    var x :| x in ids;
    least := x;
    if ids != {x} {
      var y := LeastRanked(events, rank, ids - {x});
      least := if Below(events, rank, x, y) then x else y;
      forall id | id in ids ensures Below(events, rank, least, id) {
        assert id != x ==> Below(events, rank, y, id);
      }
    }
  }

  /** Any set of events can be put in order, with any ranks within a second. */
  lemma RankedOrder(events: Events, rank: RowId -> int, ids: set<RowId>) returns (order: seq<RowId>)
    ensures Ranked(events, rank, order) && forall id :: id in order <==> id in ids
    decreases ids
  {
    order := [];
    if ids != {} {
      var least := LeastRanked(events, rank, ids);
      var rest := RankedOrder(events, rank, ids - {least});
      order := [least] + rest;
      assert forall j | 0 <= j < |rest| :: rest[j] in rest;
    }
  }

  lemma OrderWithRank(db: Db, rank: RowId -> int) returns (order: seq<RowId>)
    ensures IsOrder(db, order) && Ranked(db.events, rank, order)
  {
    var ids := set id | id in db.events && Parsable(db.events[id]);
    order := RankedOrder(db.events, rank, ids);
    assert forall i | 0 <= i < |order| :: order[i] in order;
  }

  /** Some order starts the writers of a key with any of the oldest second. */
  lemma OrderWithFirst(db: Db, key: string, a: RowId) returns (order: seq<RowId>)
    requires Oldest(db, key, a)
    ensures IsOrder(db, order) && RowsIn(db, order, key) != [] && RowsIn(db, order, key)[0] == RowOf(db, a)
  {
    var rank: RowId -> int := id => if id == a then 0 else 1;
    order := OrderWithRank(db, rank);
    OrderRows(db, order, key);
    WritersRanked(db, rank, order, key);
    hide IsOrder, RowsIn, WritersOf, WriteAt;
    var ws := WritersOf(db, order, key);
    var k :| 0 <= k < |ws| && ws[k] == a;
    assert k > 0 ==> Below(db.events, rank, ws[0], ws[k]);
  }

  /** Some order puts one writer after all others of its second. */
  lemma OrderWithLast(db: Db, key: string, b: RowId) returns (order: seq<RowId>, at: nat)
    requires WritesKey(db, b, key)
    ensures IsOrder(db, order)
    ensures var ws := WritersOf(db, order, key);
      && at < |ws| && ws[at] == b
      && (forall k | at < k < |ws| :: At(db.events, b) < At(db.events, ws[k]))
  {
    var rank: RowId -> int := id => if id == b then 1 else 0;
    order := OrderWithRank(db, rank);
    OrderHasWriters(db, order, key);
    WritersRanked(db, rank, order, key);
    hide IsOrder, WritersOf, WriteAt;
    var ws := WritersOf(db, order, key);
    var i :| 0 <= i < |ws| && ws[i] == b;
    at := i;
    forall k | at < k < |ws| ensures At(db.events, b) < At(db.events, ws[k]) {
      assert ws[at] != ws[k] && Below(db.events, rank, ws[at], ws[k]);
    }
  }

  ghost predicate OrderIrrelevant(db: Db, key: string) {
    forall o1, o2 | IsOrder(db, o1) && IsOrder(db, o2) :: FinalRow(db, o1, key) == FinalRow(db, o2, key)
  }

  lemma OldestMustAgree(db: Db, key: string, a: RowId, b: RowId)
    requires OrderIrrelevant(db, key) && Oldest(db, key, a) && Oldest(db, key, b)
    ensures SameFixed(RowOf(db, a), RowOf(db, b))
  {
    var o1 := OrderWithFirst(db, key, a);
    var o2 := OrderWithFirst(db, key, b);
    FinalRowIsMerged(db, o1, key);
    FinalRowIsMerged(db, o2, key);
    assert FinalRow(db, o1, key) == FinalRow(db, o2, key);
    hide IsOrder, RowsIn, LastHash, FinalRow, Oldest, OrderIrrelevant;
  }

  lemma NewestIsLast(db: Db, key: string, b: RowId, ws: seq<RowId>, at: nat)
    requires Newest(db, key, b) && AllWriters(db, key, ws) && at < |ws| && ws[at] == b
    requires forall k | at < k < |ws| :: At(db.events, b) < At(db.events, ws[k])
    ensures ws[|ws| - 1] == b
  {
    hide WritesKey, At;
    assert WritesKey(db, ws[|ws| - 1], key);
  }

  lemma LastWriterIs(db: Db, key: string, b: RowId) returns (order: seq<RowId>)
    requires Newest(db, key, b)
    ensures IsOrder(db, order)
    ensures FinalRow(db, order, key).Some? && FinalRow(db, order, key).value.status == RowOf(db, b).status
  {
    var at: nat;
    order, at := OrderWithLast(db, key, b);
    FinalRowIsMerged(db, order, key);
    OrderRows(db, order, key);
    hide IsOrder, RowsIn, WritersOf, LastHash, FinalRow, WriteAt, At;
    NewestIsLast(db, key, b, WritersOf(db, order, key), at);
    hide Newest, AllWriters;
  }

  lemma {:induction false} LastHashAt(rows: seq<Deposit>, i: nat)
    requires i < |rows| && rows[i].txHash.Some? && forall j | i < j < |rows| :: rows[j].txHash.None?
    ensures LastHash(rows) == rows[i].txHash
  {
    var n := |rows|;
    if i == n - 1 {
    } else {
      LastHashAt(rows[..n - 1], i);
    }
  }

  lemma LastHashIs(db: Db, key: string, b: RowId) returns (order: seq<RowId>)
    requires NewestHash(db, key, b)
    ensures IsOrder(db, order)
    ensures FinalRow(db, order, key).Some? && FinalRow(db, order, key).value.txHash == RowOf(db, b).txHash
  {
    var at: nat;
    order, at := OrderWithLast(db, key, b);
    FinalRowIsMerged(db, order, key);
    OrderRows(db, order, key);
    hide IsOrder, RowsIn, WritersOf, LastHash, FinalRow, WriteAt;
    var (ws, rows) := (WritersOf(db, order, key), RowsIn(db, order, key));
    forall j | at < j < |rows| ensures rows[j].txHash.None? {
      assert At(db.events, b) < At(db.events, ws[j]);
      assert !WritesHash(db, ws[j], key);
    }
    LastHashAt(rows, at);
  }

  /** Every order leaves the same row under a key if and only if the ties are harmless. */
  lemma OrderIrrelevantIff(db: Db, key: string)
    ensures OrderIrrelevant(db, key) <==> TiesHarmless(db, key)
  {
    if OrderIrrelevant(db, key) {
      forall a, b | Oldest(db, key, a) && Oldest(db, key, b) ensures SameFixed(RowOf(db, a), RowOf(db, b)) {
        OldestMustAgree(db, key, a, b);
      }
      forall a, b | Newest(db, key, a) && Newest(db, key, b) ensures RowOf(db, a).status == RowOf(db, b).status {
        var o1 := LastWriterIs(db, key, a);
        var o2 := LastWriterIs(db, key, b);
        assert FinalRow(db, o1, key) == FinalRow(db, o2, key);
      }
      forall a, b | NewestHash(db, key, a) && NewestHash(db, key, b)
        ensures RowOf(db, a).txHash == RowOf(db, b).txHash
      {
        var o1 := LastHashIs(db, key, a);
        var o2 := LastHashIs(db, key, b);
        assert FinalRow(db, o1, key) == FinalRow(db, o2, key);
      }
    }
    if TiesHarmless(db, key) {
      forall o1, o2 | IsOrder(db, o1) && IsOrder(db, o2) ensures FinalRow(db, o1, key) == FinalRow(db, o2, key) {
        HarmlessAgree(db, o1, o2, key);
      }
    }
  }

  // ----- Runs -----

  /** The same rows, apart from their processed flags. */
  ghost predicate SameEvents(events: Events, events': Events) {
    && events.Keys == events'.Keys
    && forall id | id in events :: events[id].(processed := false) == events'[id].(processed := false)
  }

  lemma SameReading(events: Events, events': Events, id: RowId)
    requires SameEvents(events, events') && id in events
    ensures Read(events[id]) == Read(events'[id]) && At(events, id) == At(events', id)
  {
    assert events[id].(processed := false) == events'[id].(processed := false);
  }

  /** The order in which a calm run that is drained has processed its events. */
  lemma DrainIsAnOrder(s: State, actions: seq<Action>, stored: Events, key: string)
    requires Initial(s) && Runnable(s, actions) && CalmRun(s, actions)
    requires Drained(Run(s, actions).db.events) && SameEvents(stored, Run(s, actions).db.events)
    ensures var (s', db) := (Run(s, actions), Db(s.db.routes, stored, map[]));
      && IsOrder(db, Ids(s'.log))
      && FinalRow(db, Ids(s'.log), key) == if key in s'.db.deposits then Some(s'.db.deposits[key]) else None
  {
    DrainIsOneFold(s, actions);
    var (s', order) := (Run(s, actions), Ids(Run(s, actions).log));
    forall id | id in stored
      ensures Read(stored[id]) == Read(s'.db.events[id]) && At(stored, id) == At(s'.db.events, id)
    {
      SameReading(stored, s'.db.events, id);
    }
    forall i | 0 <= i < |order| ensures order[i] in stored && Parsable(stored[order[i]]) {
      assert order[i] in order;
    }
    SameFold(s.db.routes, stored, s'.db.events, order);
  }

  lemma {:induction false} SameFold(routes: map<string, Route>, events: Events, events': Events, ids: seq<RowId>)
    requires SameEvents(events, events')
    ensures Fold(routes, events, ids) == Fold(routes, events', ids)
  {
    var n := |ids|;
    if n == 0 {
    } else {
      SameFold(routes, events, events', ids[..n - 1]);
      if ids[n - 1] in events {
        SameReading(events, events', ids[n - 1]);
      }
    }
  }

  ghost predicate SameRow(d1: Deposits, d2: Deposits, key: string) {
    (key in d1 <==> key in d2) && (key in d1 ==> d1[key] == d2[key])
  }

  /** However the deliveries and ticks were interleaved, two calm runs that drain the
      same events leave the same row under every key whose ties are harmless. */
  lemma DrainsAgree(s: State, a1: seq<Action>, a2: seq<Action>, stored: Events, key: string)
    requires Initial(s) && Runnable(s, a1) && Runnable(s, a2) && CalmRun(s, a1) && CalmRun(s, a2)
    requires SameEvents(stored, Run(s, a1).db.events) && SameEvents(stored, Run(s, a2).db.events)
    requires Drained(Run(s, a1).db.events) && Drained(Run(s, a2).db.events)
    requires TiesHarmless(Db(s.db.routes, stored, map[]), key)
    ensures SameRow(Run(s, a1).db.deposits, Run(s, a2).db.deposits, key)
  {
    DrainIsAnOrder(s, a1, stored, key);
    DrainIsAnOrder(s, a2, stored, key);
    HarmlessAgree(Db(s.db.routes, stored, map[]), Ids(Run(s, a1).log), Ids(Run(s, a2).log), key);
  }
}
