/** Several processors over one database, each with a ticker and a batch of its own, and each
    store call a step of its own: what still holds of a deposit, and what does not. */
module DepositProcessors {
  import opened Wrappers
  import opened DepositModel

  /** Where a processor is with the first event of its batch. */
  datatype Pc = Looking | Upserting(write: Write) | Marking

  datatype Task = Task(batch: seq<Event>, pc: Pc)

  const IDLE := Task([], Looking)

  datatype Shared = Shared(db: Db, tasks: map<nat, Task>, log: seq<Entry>)

  /** One store call of one processor, or a delivery or new route. An event is parsed when its
      route is read. */
  datatype Move =
    | Arrive(ev: Event)
    | Open(key: string, route: Route)
    | Take(p: nat, batch: seq<Event>)
    | Look(p: nat, readFails: bool)
    | Put(p: nat, reply: Reply)
    | TickOff(p: nat, reply: Reply)
    | Crash(p: nat)

  function TaskOf(s: Shared, p: nat): Task {
    if p in s.tasks then s.tasks[p] else IDLE
  }

  ghost predicate Possible(s: Shared, m: Move) {
    match m
    case Arrive(ev) => CanInsert(s.db.events, ev) && !ev.processed
    case Open(key, route) => key !in s.db.routes && forall k | k in s.db.routes :: s.db.routes[k].id != route.id
    case Take(p, batch) => TaskOf(s, p) == IDLE && IsBatch(s.db.events, BATCH_SIZE, batch)
    case Look(p, _) => TaskOf(s, p).batch != [] && TaskOf(s, p).pc.Looking?
    case Put(p, _) => TaskOf(s, p).batch != [] && TaskOf(s, p).pc.Upserting?
    case TickOff(p, _) => TaskOf(s, p).batch != [] && TaskOf(s, p).pc.Marking?
    case Crash(_) => true
  }

  /** The processor goes on to the next event of its batch. */
  function Skip(s: Shared, p: nat): Shared
    requires TaskOf(s, p).batch != []
  {
    s.(tasks := s.tasks[p := Task(TaskOf(s, p).batch[1..], Looking)])
  }

  /** `process` has come to its end on an event without a write. */
  function NoWrite(s: Shared, p: nat, ev: Event): Shared {
    s.(tasks := s.tasks[p := TaskOf(s, p).(pc := Marking)], log := s.log + [Entry(ev.id, None)])
  }

  function AfterLook(s: Shared, p: nat, readFails: bool): Shared
    requires TaskOf(s, p).batch != []
  {
    var ev := TaskOf(s, p).batch[0];
    match Read(ev)
    case Malformed => Skip(s, p)
    case Ignored => NoWrite(s, p, ev)
    case Notice(_, _, _, _, _, _, _) =>
      if readFails then Skip(s, p)
      else
        match WriteOf(s.db.routes, ev)
        case None => NoWrite(s, p, ev)
        case Some(w) => s.(tasks := s.tasks[p := TaskOf(s, p).(pc := Upserting(w))])
  }

  function AfterPut(s: Shared, p: nat, reply: Reply): Shared
    requires TaskOf(s, p).batch != [] && TaskOf(s, p).pc.Upserting?
  {
    var (ev, w) := (TaskOf(s, p).batch[0], TaskOf(s, p).pc.write);
    if !reply.TookEffect() then Skip(s, p)
    else
      var deposits := Upsert(s.db.deposits, w.key, w.row);
      var put := s.(db := s.db.(deposits := deposits), log := s.log + [Entry(ev.id, Some(w))]);
      if reply == Done then put.(tasks := s.tasks[p := TaskOf(s, p).(pc := Marking)]) else Skip(put, p)
  }

  function AfterTickOff(s: Shared, p: nat, reply: Reply): Shared
    requires TaskOf(s, p).batch != []
  {
    var events := if reply.TookEffect() then Mark(s.db.events, TaskOf(s, p).batch[0].id) else s.db.events;
    Skip(s.(db := s.db.(events := events)), p)
  }

  function After(s: Shared, m: Move): Shared
    requires m.Look? || m.Put? || m.TickOff? ==> TaskOf(s, m.p).batch != []
    requires m.Put? ==> TaskOf(s, m.p).pc.Upserting?
  {
    match m
    case Arrive(ev) => s.(db := s.db.(events := s.db.events[ev.id := ev]))
    case Open(key, route) => s.(db := s.db.(routes := s.db.routes[key := route]))
    case Take(p, batch) => s.(tasks := s.tasks[p := Task(batch, Looking)])
    case Look(p, readFails) => AfterLook(s, p, readFails)
    case Put(p, reply) => AfterPut(s, p, reply)
    case TickOff(p, reply) => AfterTickOff(s, p, reply)
    case Crash(p) => s.(tasks := s.tasks[p := IDLE])
  }

  /** The states that the moves lead through, one after another. */
  ghost predicate History(states: seq<Shared>, moves: seq<Move>) {
    && |states| == |moves| + 1
    && (forall i | 0 <= i < |moves| :: Possible(states[i], moves[i]) && After(states[i], moves[i]) == states[i + 1])
  }

  lemma HistoryAppend(s1: seq<Shared>, m1: seq<Move>, s2: seq<Shared>, m2: seq<Move>)
    requires History(s1, m1) && History(s2, m2) && s1[|m1|] == s2[0]
    ensures History(s1 + s2[1..], m1 + m2)
  {
    var (states, moves) := (s1 + s2[1..], m1 + m2);
    forall i | 0 <= i < |moves|
      ensures Possible(states[i], moves[i]) && After(states[i], moves[i]) == states[i + 1]
    {
      if i < |m1| {
        assert states[i] == s1[i] && states[i + 1] == s1[i + 1] && moves[i] == m1[i];
      } else {
        assert states[i] == s2[i - |m1|] && states[i + 1] == s2[i - |m1| + 1] && moves[i] == m2[i - |m1|];
      }
    }
  }

  // ----- One processor, undisturbed, is the machine with one batch -----

  function AsOne(s: Shared, p: nat): State {
    State(s.db, TaskOf(s, p).batch, s.log)
  }

  /** All store calls of one processor on one event, in a row. */
  function Turn(s: Shared, p: nat, f: Faults): Shared
    requires TaskOf(s, p).batch != []
  {
    var s1 := AfterLook(s, p, f.routeReadFails);
    if TaskOf(s1, p).pc.Upserting? then
      var s2 := AfterPut(s1, p, f.upsert);
      if TaskOf(s2, p).pc.Marking? then AfterTickOff(s2, p, f.mark) else s2
    else if TaskOf(s1, p).pc.Marking? then AfterTickOff(s1, p, f.mark)
    else s1
  }

  lemma UndisturbedTurn(s: Shared, p: nat, f: Faults)
    requires TaskOf(s, p).batch != [] && TaskOf(s, p).pc.Looking?
    ensures AsOne(Turn(s, p, f), p) == Next(AsOne(s, p), ProcessNext(f)) && TaskOf(Turn(s, p, f), p).pc.Looking?
    ensures forall q | q != p :: TaskOf(Turn(s, p, f), q) == TaskOf(s, q)
  {
    hide Read, WriteOf, Upsert, Mark;
    var s1 := AfterLook(s, p, f.routeReadFails);
    if TaskOf(s1, p).pc.Upserting? {
      PutTurn(s, p, f);
    }
  }

  lemma PutTurn(s: Shared, p: nat, f: Faults)
    requires TaskOf(s, p).batch != [] && TaskOf(s, p).pc.Looking?
    requires TaskOf(AfterLook(s, p, f.routeReadFails), p).pc.Upserting?
    ensures AsOne(Turn(s, p, f), p) == Next(AsOne(s, p), ProcessNext(f)) && TaskOf(Turn(s, p, f), p).pc.Looking?
    ensures forall q | q != p :: TaskOf(Turn(s, p, f), q) == TaskOf(s, q)
  {
    hide Read, WriteOf, Upsert, Mark;
  }

  /** Every store call answers that it is done, and no processor stops. */
  ghost predicate NothingFails(moves: seq<Move>) {
    forall i | 0 <= i < |moves| ::
      match moves[i]
      case Look(_, readFails) => !readFails
      case Put(_, reply) => reply == Done
      case TickOff(_, reply) => reply == Done
      case Crash(_) => false
      case _ => true
  }

  // ----- What every interleaving keeps -----

  predicate TaskOk(db: Db, task: Task) {
    && (forall i | 0 <= i < |task.batch| ::
        task.batch[i].id in db.events && Read(task.batch[i]) == Read(db.events[task.batch[i].id]))
    && (task.pc.Upserting? ==> task.batch != [] && WriteOf(db.routes, task.batch[0]) == Some(task.pc.write))
  }

  ghost predicate Sound(s: Shared) {
    && Inv(State(s.db, [], s.log))
    && (forall p | p in s.tasks :: TaskOk(s.db, s.tasks[p]))
  }

  lemma TaskOkGrows(db: Db, db': Db, task: Task)
    requires TaskOk(db, task) && Grows(db, db')
    ensures TaskOk(db', task)
  {
  }

  /** One task changes, and the others are good under the grown tables. */
  lemma TasksOk(s: Shared, s': Shared, p: nat, task: Task)
    requires Sound(s) && Grows(s.db, s'.db) && s'.tasks == s.tasks[p := task] && TaskOk(s'.db, task)
    ensures forall q | q in s'.tasks :: TaskOk(s'.db, s'.tasks[q])
  {
    forall q | q in s'.tasks ensures TaskOk(s'.db, s'.tasks[q]) {
      if q != p {
        TaskOkGrows(s.db, s'.db, s.tasks[q]);
      }
    }
  }

  lemma TailOk(db: Db, task: Task)
    requires TaskOk(db, task) && task.batch != []
    ensures TaskOk(db, Task(task.batch[1..], Looking))
  {
    assert forall i | 0 <= i < |task.batch| - 1 :: task.batch[1..][i] == task.batch[i + 1];
  }

  lemma LogsEntry(db: Db, log: seq<Entry>, e: Entry)
    requires Inv(State(db, [], log)) && EntryOk(db, e)
    ensures var db' := db.(deposits := ApplyWrite(db.deposits, e.write));
      Inv(State(db', [], log + [e])) && Grows(db, db')
  {
    var db' := db.(deposits := ApplyWrite(db.deposits, e.write));
    LogOkSnoc(db, log, e);
    ReplaySnoc(log, e);
    assert Grows(db, db');
    LogOkGrows(db, db', log + [e]);
    hide LogOk, Replay;
  }

  lemma MarksEvent(db: Db, log: seq<Entry>, id: RowId)
    requires Inv(State(db, [], log))
    ensures var db' := db.(events := Mark(db.events, id));
      Inv(State(db', [], log)) && Grows(db, db')
  {
    var db' := db.(events := Mark(db.events, id));
    assert Grows(db, db');
    LogOkGrows(db, db', log);
    hide LogOk, Replay;
  }

  lemma SkipSound(s: Shared, p: nat)
    requires Sound(s) && TaskOf(s, p).batch != []
    ensures Sound(Skip(s, p))
  {
    TailOk(s.db, TaskOf(s, p));
    TasksOk(s, Skip(s, p), p, Skip(s, p).tasks[p]);
  }

  lemma LookSound(s: Shared, p: nat, readFails: bool)
    requires Sound(s) && TaskOf(s, p).batch != [] && TaskOf(s, p).pc.Looking?
    ensures Sound(AfterLook(s, p, readFails))
  {
    var (task, s') := (TaskOf(s, p), AfterLook(s, p, readFails));
    var ev := task.batch[0];
    SkipSound(s, p);
    assert TaskOk(s.db, task);
    if s' != Skip(s, p) {
      assert TaskOk(s.db, s'.tasks[p]);
      TasksOk(s, s', p, s'.tasks[p]);
      assert EntryOk(s.db, Entry(ev.id, None));
      LogsEntry(s.db, s.log, Entry(ev.id, None));
      assert s.db.(deposits := s.db.deposits) == s.db;
    }
  }

  lemma PutSound(s: Shared, p: nat, reply: Reply)
    requires Sound(s) && TaskOf(s, p).batch != [] && TaskOf(s, p).pc.Upserting?
    ensures Sound(AfterPut(s, p, reply))
  {
    var task := TaskOf(s, p);
    var (ev, w, s') := (task.batch[0], task.pc.write, AfterPut(s, p, reply));
    if !reply.TookEffect() {
      SkipSound(s, p);
    } else {
      assert TaskOk(s.db, task);
      assert EntryOk(s.db, Entry(ev.id, Some(w)));
      LogsEntry(s.db, s.log, Entry(ev.id, Some(w)));
      TailOk(s.db, task);
      TaskOkGrows(s.db, s'.db, s'.tasks[p]);
      TasksOk(s, s', p, s'.tasks[p]);
    }
  }

  lemma TickOffSound(s: Shared, p: nat, reply: Reply)
    requires Sound(s) && TaskOf(s, p).batch != []
    ensures Sound(AfterTickOff(s, p, reply))
  {
    var s' := AfterTickOff(s, p, reply);
    if reply.TookEffect() {
      MarksEvent(s.db, s.log, TaskOf(s, p).batch[0].id);
      TailOk(s.db, TaskOf(s, p));
      TaskOkGrows(s.db, s'.db, s'.tasks[p]);
      TasksOk(s, s', p, s'.tasks[p]);
    } else {
      SkipSound(s, p);
    }
  }

  lemma InsertSound(s: Shared, m: Move)
    requires Sound(s) && Possible(s, m) && (m.Arrive? || m.Open?)
    ensures Sound(After(s, m))
  {
    StepInv(State(s.db, [], s.log), if m.Arrive? then Deliver(m.ev) else AddRoute(m.key, m.route));
    forall q | q in s.tasks ensures TaskOk(After(s, m).db, s.tasks[q]) {
      TaskOkGrows(s.db, After(s, m).db, s.tasks[q]);
    }
  }

  lemma TakeSound(s: Shared, p: nat, batch: seq<Event>)
    requires Sound(s) && SortedRows(s.db.events, batch)
    ensures Sound(s.(tasks := s.tasks[p := Task(batch, Looking)]))
  {
    TasksOk(s, s.(tasks := s.tasks[p := Task(batch, Looking)]), p, Task(batch, Looking));
  }

  lemma MoveSound(s: Shared, m: Move)
    requires Sound(s) && Possible(s, m)
    ensures Sound(After(s, m))
  {
    match m
    case Arrive(_) => InsertSound(s, m);
    case Open(_, _) => InsertSound(s, m);
    case Take(p, batch) => TakeSound(s, p, batch);
    case Look(p, readFails) => LookSound(s, p, readFails);
    case Put(p, reply) => PutSound(s, p, reply);
    case TickOff(p, reply) => TickOffSound(s, p, reply);
    case Crash(p) => TakeSound(s, p, []);
  }

  /** No event has arrived and no processor has started. */
  ghost predicate Fresh(s: Shared) {
    Initial(State(s.db, [], s.log)) && s.tasks == map[]
  }

  lemma {:induction false} HistorySound(states: seq<Shared>, moves: seq<Move>, n: nat)
    requires History(states, moves) && Fresh(states[0]) && n < |states|
    ensures Sound(states[n])
  {
    if n == 0 {
    } else {
      HistorySound(states, moves, n - 1);
      MoveSound(states[n - 1], moves[n - 1]);
    }
  }

  /** However many processors there are, whatever fails, and whichever store calls come between
      which others, a deposit is the merge of the writes that were done under its key. */
  lemma SharedClosedForm(states: seq<Shared>, moves: seq<Move>, key: string)
    requires History(states, moves) && Fresh(states[0])
    ensures var s := states[|moves|];
      ClosedForm(s.db, s.log, key)
  {
    HistorySound(states, moves, |moves|);
    InvClosedForm(State(states[|moves|].db, [], states[|moves|].log), key);
  }

  lemma MoveKeepsRow(s: Shared, m: Move, key: string)
    requires Possible(s, m) && key in s.db.deposits
    ensures key in After(s, m).db.deposits && RowKept(s.db.deposits[key], After(s, m).db.deposits[key])
  {
  }

  lemma {:induction false} SharedHashNeverCleared(states: seq<Shared>, moves: seq<Move>, key: string, n: nat)
    requires History(states, moves) && key in states[0].db.deposits && n < |states|
    ensures key in states[n].db.deposits && RowKept(states[0].db.deposits[key], states[n].db.deposits[key])
  {
    if n == 0 {
    } else {
      SharedHashNeverCleared(states, moves, key, n - 1);
      MoveKeepsRow(states[n - 1], moves[n - 1], key);
    }
  }

  /** An upsert of an event that some processor has already logged, as entry `i`, changes the
      deposits if and only if an entry since has moved the deposit on; or, if that was
      without a route, if and only if its deposit was not there with the same status and
      hash. */
  lemma SecondUpsertIff(states: seq<Shared>, moves: seq<Move>, p: nat, reply: Reply, i: nat)
    requires History(states, moves) && Fresh(states[0]) && Possible(states[|moves|], Put(p, reply))
    requires var s := states[|moves|];
      reply.TookEffect() && i < |s.log| && s.log[i].event == TaskOf(s, p).batch[0].id
    ensures var (s, first, again) := (states[|moves|], states[|moves|].log[i], TaskOf(states[|moves|], p).pc.write);
      && (first.write.None? || first.write == Some(again))
      && (After(s, Put(p, reply)).db.deposits == s.db.deposits <==>
          if first.write == Some(again) then StillStands(first, s.log[i + 1..]) else AlreadySaid(again, s.log))
  {
    HistorySound(states, moves, |moves|);
    var s := states[|moves|];
    UpsertAgain(s, p, reply, i);
  }

  lemma UpsertAgain(s: Shared, p: nat, reply: Reply, i: nat)
    requires Sound(s) && Possible(s, Put(p, reply)) && reply.TookEffect()
    requires i < |s.log| && s.log[i].event == TaskOf(s, p).batch[0].id
    ensures var (first, again) := (s.log[i], TaskOf(s, p).pc.write);
      && (first.write.None? || first.write == Some(again))
      && (After(s, Put(p, reply)).db.deposits == s.db.deposits <==>
          if first.write == Some(again) then StillStands(first, s.log[i + 1..]) else AlreadySaid(again, s.log))
  {
    var (log, e, ev, w) := (s.log, s.log[i], TaskOf(s, p).batch[0], TaskOf(s, p).pc.write);
    assert TaskOk(s.db, TaskOf(s, p)) && EntryOk(s.db, e);
    assert After(s, Put(p, reply)).db.deposits == ApplyWrite(s.db.deposits, Some(w));
    ReplaySnoc(log, Entry(ev.id, Some(w)));
    hide After, StillStands, AlreadySaid, LogOk, Replay, Upsert;
    assert log == log[..i] + [e] + log[i + 1..];
    ReprocessInvisibleIff(log[..i], e, log[i + 1..]);
    WriteInvisibleIff(log, Entry(ev.id, Some(w)));
  }
}
