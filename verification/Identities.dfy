/** The identity and salt part of `OAuthComplete`: which user and which zkLogin salt a
    login ends with, each store call its own step of concurrent logins. */
module Identities {
  import opened Wrappers

  /** The unique columns of `oauth_identities` and of `zklogin_salts`. */
  datatype Key = Key(issuer: string, subject: string, audience: string)

  type UserId = nat
  type Salt = nat

  datatype SaltRow = SaltRow(userId: UserId, salt: Salt)

  /** `users` tells whether a user is active; the other tables are kept under their
      unique columns. */
  datatype Tables = Tables(users: map<UserId, bool>, identities: map<Key, UserId>, salts: map<Key, SaltRow>)

  datatype Change =
    | AddUser(id: UserId)
    | AddIdentity(key: Key, userId: UserId)
    | AddSalt(key: Key, row: SaltRow)

  /** Whether a statement gets past primary key, unique columns and foreign key. The salt
      insert does not fail on a taken key: it does nothing. */
  predicate Permitted(t: Tables, change: Change) {
    match change
    case AddUser(id) => id !in t.users
    case AddIdentity(key, userId) => key !in t.identities && userId in t.users
    case AddSalt(_, row) => row.userId in t.users
  }

  function Apply(t: Tables, change: Change): Tables {
    match change
    case AddUser(id) => t.(users := t.users[id := true])
    case AddIdentity(key, userId) => t.(identities := t.identities[key := userId])
    case AddSalt(key, row) => if key in t.salts then t else t.(salts := t.salts[key := row])
  }

  // ----- The machine -----

  /** The next store call of a login. */
  datatype Pc =
    | ReadIdentity
    | InsertUser(userId: UserId)
    | InsertIdentity(userId: UserId)
    | ReadUser(userId: UserId)
    | ReadSalt(userId: UserId)
    | InsertSalt(userId: UserId, salt: Salt)
    | Completed(userId: UserId, salt: Salt)
    | Failed

  datatype Login = Login(key: Key, pc: Pc)

  datatype State = State(tables: Tables, logins: map<nat, Login>)

  /** The outcome of one store call; `drawn` is the id or the salt the login draws. */
  datatype Env = Env(readFails: bool, drawn: nat, reply: Reply)

  datatype Step =
    | Begin(login: nat, key: Key)
    | Advance(login: nat, env: Env)
    | SetActive(userId: UserId, active: bool)

  predicate Enabled(s: State, step: Step) {
    match step
    case Begin(r, _) => r !in s.logins
    case Advance(r, _) => r in s.logins
    case SetActive(userId, _) => userId in s.tables.users
  }

  /** What one store call makes of the tables, and where its login goes. */
  function Advanced(t: Tables, login: Login, env: Env): (Tables, Pc) {
    match login.pc
    case ReadIdentity =>
      (t, if env.readFails then Failed
          else if login.key in t.identities then ReadUser(t.identities[login.key])
          else InsertUser(env.drawn))
    case InsertUser(userId) => Write(t, AddUser(userId), env.reply, InsertIdentity(userId))
    case InsertIdentity(userId) => Write(t, AddIdentity(login.key, userId), env.reply, ReadUser(userId))
    case ReadUser(userId) =>
      (t, if env.readFails || userId !in t.users || !t.users[userId] then Failed else ReadSalt(userId))
    case ReadSalt(userId) =>
      (t, if env.readFails then Failed
          else if login.key in t.salts then Completed(userId, t.salts[login.key].salt)
          else InsertSalt(userId, env.drawn))
    case InsertSalt(userId, salt) =>
      Write(t, AddSalt(login.key, SaltRow(userId, salt)), env.reply, Completed(userId, salt))
    case Completed(_, _) => (t, login.pc)
    case Failed => (t, login.pc)
  }

  function Write(t: Tables, change: Change, reply: Reply, next: Pc): (Tables, Pc) {
    if !Permitted(t, change) || !reply.TookEffect() then (t, Failed)
    else (Apply(t, change), if reply == Done then next else Failed)
  }

  function Next(s: State, step: Step): State
    requires Enabled(s, step)
  {
    match step
    case Begin(r, key) => s.(logins := s.logins[r := Login(key, ReadIdentity)])
    case Advance(r, env) =>
      var (t, pc) := Advanced(s.tables, s.logins[r], env);
      State(t, s.logins[r := s.logins[r].(pc := pc)])
    case SetActive(userId, active) => s.(tables := s.tables.(users := s.tables.users[userId := active]))
  }

  ghost predicate Runnable(s: State, steps: seq<Step>)
    decreases |steps|, 0
  {
    var n := |steps|;
    n == 0 || (Runnable(s, steps[..n - 1]) && Enabled(Run(s, steps[..n - 1]), steps[n - 1]))
  }

  ghost function Run(s: State, steps: seq<Step>): State
    requires Runnable(s, steps)
    decreases |steps|, 1
  {
    var n := |steps|;
    if n == 0 then s else Next(Run(s, steps[..n - 1]), steps[n - 1])
  }

  const EMPTY := State(Tables(map[], map[], map[]), map[])

  lemma RunSnoc(s: State, steps: seq<Step>, step: Step)
    requires Runnable(s, steps) && Enabled(Run(s, steps), step)
    ensures Runnable(s, steps + [step]) && Run(s, steps + [step]) == Next(Run(s, steps), step)
  {
    assert (steps + [step])[..|steps|] == steps;
  }

  /** The states that the steps lead through, one after another. */
  ghost predicate Trace(states: seq<State>, steps: seq<Step>) {
    && |states| == |steps| + 1
    && (forall i | 0 <= i < |steps| :: Enabled(states[i], steps[i]) && Next(states[i], steps[i]) == states[i + 1])
  }

  lemma {:induction false} RunTrace(states: seq<State>, steps: seq<Step>)
    requires Trace(states, steps)
    ensures Runnable(states[0], steps) && Run(states[0], steps) == states[|steps|]
  {
    var n := |steps|;
    if n == 0 {
    } else {
      RunTrace(states[..n], steps[..n - 1]);
    }
  }

  lemma {:induction false} RunAppend(s: State, first: seq<Step>, next: seq<Step>)
    requires Runnable(s, first) && Runnable(Run(s, first), next)
    ensures Runnable(s, first + next) && Run(s, first + next) == Run(Run(s, first), next)
    decreases |next|
  {
    var n := |next|;
    if n == 0 {
      assert first + next == first;
    } else {
      RunAppend(s, first, next[..n - 1]);
      assert (first + next)[..|first + next| - 1] == first + next[..n - 1];
    }
  }

  // ----- One user per identity, under any interleaving -----

  /** Whether a login has got past the identity, and so speaks for its user. */
  predicate Identified(pc: Pc) {
    pc.ReadUser? || pc.ReadSalt? || pc.InsertSalt? || pc.Completed?
  }

  predicate Belongs(t: Tables, login: Login) {
    && (Identified(login.pc) ==> login.key in t.identities && t.identities[login.key] == login.pc.userId)
    && (login.pc.Completed? ==> login.key in t.salts)
  }

  ghost predicate Inv(s: State) {
    && (forall key | key in s.tables.identities :: s.tables.identities[key] in s.tables.users)
    && (forall key | key in s.tables.salts ::
        key in s.tables.identities && s.tables.salts[key].userId == s.tables.identities[key])
    && (forall r: nat | r in s.logins :: Belongs(s.tables, s.logins[r]))
  }

  /** No row of an identity, a salt or a user goes away, and the first two never change. */
  ghost predicate Keeps(t: Tables, t': Tables) {
    && (forall key | key in t.identities :: key in t'.identities && t'.identities[key] == t.identities[key])
    && (forall key | key in t.salts :: key in t'.salts && t'.salts[key] == t.salts[key])
    && (forall id | id in t.users :: id in t'.users)
  }

  lemma StepInv(s: State, step: Step)
    requires Inv(s) && Enabled(s, step)
    ensures Inv(Next(s, step)) && Keeps(s.tables, Next(s, step).tables)
  {
    var s' := Next(s, step);
    forall r: nat | r in s'.logins ensures Belongs(s'.tables, s'.logins[r]) {
      if r in s.logins {
        assert Belongs(s.tables, s.logins[r]);
      }
    }
  }

  lemma {:induction false} RunInv(s: State, steps: seq<Step>)
    requires Inv(s) && Runnable(s, steps)
    ensures Inv(Run(s, steps)) && Keeps(s.tables, Run(s, steps).tables)
  {
    var n := |steps|;
    if n == 0 {
    } else {
      RunInv(s, steps[..n - 1]);
      StepInv(Run(s, steps[..n - 1]), steps[n - 1]);
    }
  }

  /** Whatever happens in between, two logins of one identity that complete have the same
      user, the one of the identity row, and the salt row belongs to that user too. */
  lemma OneUserPerIdentity(steps: seq<Step>, a: nat, b: nat)
    requires Runnable(EMPTY, steps)
    requires a in Run(EMPTY, steps).logins && b in Run(EMPTY, steps).logins
    requires var logins := Run(EMPTY, steps).logins;
      logins[a].key == logins[b].key && logins[a].pc.Completed? && logins[b].pc.Completed?
    ensures var s := Run(EMPTY, steps);
      var key := s.logins[a].key;
      && key in s.tables.identities && key in s.tables.salts
      && s.logins[a].pc.userId == s.logins[b].pc.userId == s.tables.identities[key] == s.tables.salts[key].userId
  {
    RunInv(EMPTY, steps);
    var s := Run(EMPTY, steps);
    assert Belongs(s.tables, s.logins[a]) && Belongs(s.tables, s.logins[b]);
  }

  // ----- One salt per identity -----

  /** A login finds no salt and draws one while another login of that identity is about to
      insert a different one. */
  predicate Races(s: State, step: Step) {
    && step.Advance? && step.login in s.logins && s.logins[step.login].pc.ReadSalt? && !step.env.readFails
    && s.logins[step.login].key !in s.tables.salts
    && exists q | q in s.logins && s.logins[q].key == s.logins[step.login].key ::
        s.logins[q].pc.InsertSalt? && s.logins[q].pc.salt != step.env.drawn
  }

  ghost predicate NoRace(s: State, steps: seq<Step>)
    requires Runnable(s, steps)
  {
    var n := |steps|;
    n == 0 || (NoRace(s, steps[..n - 1]) && !Races(Run(s, steps[..n - 1]), steps[n - 1]))
  }

  lemma NoRaceSnoc(s: State, steps: seq<Step>, step: Step)
    requires Runnable(s, steps) && NoRace(s, steps)
    requires Enabled(Run(s, steps), step) && !Races(Run(s, steps), step)
    ensures Runnable(s, steps + [step]) && NoRace(s, steps + [step])
  {
    assert (steps + [step])[..|steps|] == steps;
  }

  predicate SaltSettled(t: Tables, login: Login) {
    && (login.pc.Completed? ==> login.key in t.salts && login.pc.salt == t.salts[login.key].salt)
    && (login.pc.InsertSalt? && login.key in t.salts ==> login.pc.salt == t.salts[login.key].salt)
  }

  /** Logins that are about to insert a salt of one identity hold the same one. */
  ghost predicate InsertersAgree(s: State) {
    forall p: nat, q: nat | p in s.logins && q in s.logins
        && s.logins[p].pc.InsertSalt? && s.logins[q].pc.InsertSalt? ::
      s.logins[p].key == s.logins[q].key ==> s.logins[p].pc.salt == s.logins[q].pc.salt
  }

  ghost predicate SaltInv(s: State) {
    && (forall r: nat | r in s.logins :: SaltSettled(s.tables, s.logins[r]))
    && InsertersAgree(s)
  }

  lemma StepSalt(s: State, step: Step)
    requires SaltInv(s) && Enabled(s, step) && !Races(s, step)
    ensures SaltInv(Next(s, step))
  {
    var s' := Next(s, step);
    forall r: nat | r in s'.logins ensures SaltSettled(s'.tables, s'.logins[r]) {
      if r in s.logins {
        assert SaltSettled(s.tables, s.logins[r]);
      }
    }
  }

  lemma {:induction false} RunSalt(s: State, steps: seq<Step>)
    requires SaltInv(s) && Runnable(s, steps) && NoRace(s, steps)
    ensures SaltInv(Run(s, steps))
  {
    var n := |steps|;
    if n == 0 {
    } else {
      RunSalt(s, steps[..n - 1]);
      StepSalt(Run(s, steps[..n - 1]), steps[n - 1]);
    }
  }

  /** In a run without a race every completed login of an identity has its user and its
      salt, and both stay as they are in every later run, with races or not. */
  lemma OneSaltPerIdentity(steps: seq<Step>, later: seq<Step>, r: nat)
    requires Runnable(EMPTY, steps) && NoRace(EMPTY, steps) && Runnable(Run(EMPTY, steps), later)
    requires r in Run(EMPTY, steps).logins && Run(EMPTY, steps).logins[r].pc.Completed?
    ensures var (login, t) := (Run(EMPTY, steps).logins[r], Run(Run(EMPTY, steps), later).tables);
      && login.key in t.identities && t.identities[login.key] == login.pc.userId
      && login.key in t.salts && t.salts[login.key] == SaltRow(login.pc.userId, login.pc.salt)
  {
    RunInv(EMPTY, steps);
    RunSalt(EMPTY, steps);
    var s := Run(EMPTY, steps);
    RunInv(s, later);
    assert Belongs(s.tables, s.logins[r]) && SaltSettled(s.tables, s.logins[r]);
  }

  // ----- And only then -----

  /** A read or write that works; a login that draws gets `drawn`. */
  function Works(drawn: nat): Env {
    Env(false, drawn, Done)
  }

  predicate CompletedWith(s: State, r: nat, key: Key, salt: Salt) {
    r in s.logins && s.logins[r].key == key && s.logins[r].pc.Completed? && s.logins[r].pc.salt == salt
  }

  /** Two logins of one identity completed with different salts. */
  ghost predicate Split(s: State) {
    exists p: nat, q: nat, key, x, y | x != y :: CompletedWith(s, p, key, x) && CompletedWith(s, q, key, y)
  }

  /** The insert of a salt completes its login with the salt it holds, whoever came first. */
  lemma InsertCompletes(s: State, r: nat)
    requires Inv(s) && r in s.logins && s.logins[r].pc.InsertSalt?
    ensures Next(s, Advance(r, Works(0)))
      == State(Apply(s.tables, AddSalt(s.logins[r].key, SaltRow(s.logins[r].pc.userId, s.logins[r].pc.salt))),
               s.logins[r := s.logins[r].(pc := Completed(s.logins[r].pc.userId, s.logins[r].pc.salt))])
  {
    assert Belongs(s.tables, s.logins[r]);
  }

  /** After a race both logins insert, without another race. */
  lemma RaceEnds(s: State, step: Step) returns (one: Step, two: Step)
    requires Inv(s) && Enabled(s, step) && Races(s, step)
    ensures var s1 := Next(s, step);
      && Enabled(s1, one) && !Races(s1, one)
      && Enabled(Next(s1, one), two) && !Races(Next(s1, one), two)
      && Split(Next(Next(s1, one), two))
  {
    StepInv(s, step);
    var r, key := step.login, s.logins[step.login].key;
    var q :| q in s.logins && s.logins[q].key == key
      && s.logins[q].pc.InsertSalt? && s.logins[q].pc.salt != step.env.drawn;
    var s1 := Next(s, step);
    one, two := Advance(q, Works(0)), Advance(r, Works(0));
    assert s1.logins[r].pc.InsertSalt? && s1.logins[r].pc.salt == step.env.drawn && s1.logins[q] == s.logins[q];
    hide Races, Split, Inv;
    StepInv(s1, one);
    InsertCompletes(s1, q);
    hide Next;
    var s2 := Next(s1, one);
    InsertCompletes(s2, r);
    NoLookNoRace(s1, q, Works(0));
    NoLookNoRace(s2, r, Works(0));
    BothCompleted(Next(s2, two), q, r, key, s.logins[q].pc.salt, step.env.drawn);
  }

  lemma NoLookNoRace(s: State, r: nat, env: Env)
    requires r in s.logins && !s.logins[r].pc.ReadSalt?
    ensures !Races(s, Advance(r, env))
  {
  }

  lemma BothCompleted(s: State, p: nat, q: nat, key: Key, x: Salt, y: Salt)
    requires x != y && CompletedWith(s, p, key, x) && CompletedWith(s, q, key, y)
    ensures Split(s)
  {
  }

  lemma TwoSteps(s: State, one: Step, two: Step)
    requires Enabled(s, one) && Enabled(Next(s, one), two)
    requires !Races(s, one) && !Races(Next(s, one), two)
    ensures Runnable(s, [one, two]) && NoRace(s, [one, two]) && Run(s, [one, two]) == Next(Next(s, one), two)
  {
    hide Enabled, Next, Races;
    RunSnoc(s, [], one);
    NoRaceSnoc(s, [], one);
    assert [] + [one] == [one];
    RunSnoc(s, [one], two);
    NoRaceSnoc(s, [one], two);
    assert [one] + [two] == [one, two];
  }

  /** After any run, a race can go on, without another one, to two completed logins of one
      identity with different salts. */
  lemma RaceSplits(steps: seq<Step>, step: Step) returns (more: seq<Step>)
    requires Runnable(EMPTY, steps) && Enabled(Run(EMPTY, steps), step) && Races(Run(EMPTY, steps), step)
    ensures var s' := Next(Run(EMPTY, steps), step);
      Runnable(s', more) && NoRace(s', more) && Split(Run(s', more))
  {
    RunInv(EMPTY, steps);
    var one, two := RaceEnds(Run(EMPTY, steps), step);
    TwoSteps(Next(Run(EMPTY, steps), step), one, two);
    more := [one, two];
  }

  lemma SettledIsNotSplit(s: State)
    requires SaltInv(s)
    ensures !Split(s)
  {
  }

  /** Some run from here, without a race, splits an identity. */
  ghost predicate CanSplit(s: State) {
    exists more :: Runnable(s, more) && NoRace(s, more) && Split(Run(s, more))
  }

  lemma SettledCannotSplit(s: State)
    requires SaltInv(s)
    ensures !CanSplit(s)
  {
    hide SaltInv, Split;
    forall more | Runnable(s, more) && NoRace(s, more) ensures !Split(Run(s, more)) {
      RunSalt(s, more);
      SettledIsNotSplit(Run(s, more));
    }
  }

  /** One salt per identity, exactly: in a run without a race so far, the next step races
      if and only if the run can go on from it, without any further race, to two
      completed logins of one identity with different salts. */
  lemma RacesIffCanSplit(steps: seq<Step>, step: Step)
    requires Runnable(EMPTY, steps) && NoRace(EMPTY, steps) && Enabled(Run(EMPTY, steps), step)
    ensures Races(Run(EMPTY, steps), step) <==> CanSplit(Next(Run(EMPTY, steps), step))
  {
    var s := Run(EMPTY, steps);
    if Races(s, step) {
      var more := RaceSplits(steps, step);
    } else {
      RunSalt(EMPTY, steps);
      StepSalt(s, step);
      SettledCannotSplit(Next(s, step));
    }
  }

  /** The first login of an identity up to its look for the salt. */
  function FirstLogin(a: nat, key: Key, userId: UserId): seq<Step> {
    [Begin(a, key), Advance(a, Works(userId)), Advance(a, Works(0)), Advance(a, Works(0)), Advance(a, Works(0))]
  }

  /** A second login of the identity, up to its look for the salt as well. */
  function SecondLogin(b: nat, key: Key): seq<Step> {
    [Begin(b, key), Advance(b, Works(0)), Advance(b, Works(0))]
  }

  /** Both look before either inserts. */
  function BothLook(a: nat, b: nat, x: Salt, y: Salt): seq<Step> {
    [Advance(a, Works(x)), Advance(b, Works(y)), Advance(a, Works(0)), Advance(b, Works(0))]
  }

  function OneUser(key: Key, userId: UserId): Tables {
    Tables(map[userId := true], map[key := userId], map[])
  }

  /** One login moves and the others stay. */
  lemma LoginMoves(t: Tables, t': Tables, others: map<nat, Login>, r: nat, key: Key, pc: Pc, pc': Pc, env: Env)
    requires Advanced(t, Login(key, pc), env) == (t', pc')
    ensures var s := State(t, others[r := Login(key, pc)]);
      Enabled(s, Advance(r, env)) && Next(s, Advance(r, env)) == State(t', others[r := Login(key, pc')])
  {
    assert others[r := Login(key, pc)][r := Login(key, pc')] == others[r := Login(key, pc')];
  }

  function One(a: nat, key: Key, pc: Pc): map<nat, Login> {
    map[][a := Login(key, pc)]
  }

  lemma FirstLoginRuns(a: nat, key: Key, userId: UserId)
    ensures Runnable(EMPTY, FirstLogin(a, key, userId))
    ensures Run(EMPTY, FirstLogin(a, key, userId)) == State(OneUser(key, userId), One(a, key, ReadSalt(userId)))
  {
    var (t0, t1, t2) := (EMPTY.tables, Tables(map[userId := true], map[], map[]), OneUser(key, userId));
    var states := [EMPTY, State(t0, One(a, key, ReadIdentity)), State(t0, One(a, key, InsertUser(userId))),
                   State(t1, One(a, key, InsertIdentity(userId))), State(t2, One(a, key, ReadUser(userId))),
                   State(t2, One(a, key, ReadSalt(userId)))];
    var steps := FirstLogin(a, key, userId);
    assert Enabled(EMPTY, steps[0]) && Next(EMPTY, steps[0]) == states[1];
    LoginMoves(t0, t0, map[], a, key, ReadIdentity, InsertUser(userId), Works(userId));
    LoginMoves(t0, t1, map[], a, key, InsertUser(userId), InsertIdentity(userId), Works(0));
    LoginMoves(t1, t2, map[], a, key, InsertIdentity(userId), ReadUser(userId), Works(0));
    LoginMoves(t2, t2, map[], a, key, ReadUser(userId), ReadSalt(userId), Works(0));
    hide Enabled, Next, OneUser;
    RunTrace(states, steps);
  }

  lemma SecondLoginRuns(s: State, b: nat, key: Key, userId: UserId)
    requires b !in s.logins && s.tables == OneUser(key, userId)
    ensures Runnable(s, SecondLogin(b, key))
    ensures Run(s, SecondLogin(b, key)) == s.(logins := s.logins[b := Login(key, ReadSalt(userId))])
  {
    var (t, others) := (s.tables, s.logins);
    var states := [s, State(t, others[b := Login(key, ReadIdentity)]),
                   State(t, others[b := Login(key, ReadUser(userId))]),
                   State(t, others[b := Login(key, ReadSalt(userId))])];
    var steps := SecondLogin(b, key);
    assert Enabled(s, steps[0]) && Next(s, steps[0]) == states[1];
    LoginMoves(t, t, others, b, key, ReadIdentity, ReadUser(userId), Works(0));
    LoginMoves(t, t, others, b, key, ReadUser(userId), ReadSalt(userId), Works(0));
    hide Enabled, Next, OneUser;
    RunTrace(states, steps);
  }

  function Two(a: nat, b: nat, key: Key, pcA: Pc, pcB: Pc): map<nat, Login> {
    One(a, key, pcA)[b := Login(key, pcB)]
  }

  lemma FirstMoves(t: Tables, t': Tables, a: nat, b: nat, key: Key, pc: Pc, pc': Pc, other: Pc, env: Env)
    requires a != b && Advanced(t, Login(key, pc), env) == (t', pc')
    ensures var s := State(t, Two(a, b, key, pc, other));
      Enabled(s, Advance(a, env)) && Next(s, Advance(a, env)) == State(t', Two(a, b, key, pc', other))
  {
    assert Two(a, b, key, pc, other) == One(b, key, other)[a := Login(key, pc)];
    assert Two(a, b, key, pc', other) == One(b, key, other)[a := Login(key, pc')];
    LoginMoves(t, t', One(b, key, other), a, key, pc, pc', env);
  }

  lemma BothLookRuns(a: nat, b: nat, key: Key, userId: UserId, x: Salt, y: Salt)
    requires a != b
    ensures var (t, u) := (OneUser(key, userId), userId);
      var s := State(t, Two(a, b, key, ReadSalt(u), ReadSalt(u)));
      && Runnable(s, BothLook(a, b, x, y))
      && Run(s, BothLook(a, b, x, y))
        == State(t.(salts := map[key := SaltRow(u, x)]), Two(a, b, key, Completed(u, x), Completed(u, y)))
  {
    var (t, u) := (OneUser(key, userId), userId);
    var t' := t.(salts := map[key := SaltRow(u, x)]);
    var states := [State(t, Two(a, b, key, ReadSalt(u), ReadSalt(u))),
                   State(t, Two(a, b, key, InsertSalt(u, x), ReadSalt(u))),
                   State(t, Two(a, b, key, InsertSalt(u, x), InsertSalt(u, y))),
                   State(t', Two(a, b, key, Completed(u, x), InsertSalt(u, y))),
                   State(t', Two(a, b, key, Completed(u, x), Completed(u, y)))];
    FirstMoves(t, t, a, b, key, ReadSalt(u), InsertSalt(u, x), ReadSalt(u), Works(x));
    LoginMoves(t, t, One(a, key, InsertSalt(u, x)), b, key, ReadSalt(u), InsertSalt(u, y), Works(y));
    FirstMoves(t, t', a, b, key, InsertSalt(u, x), Completed(u, x), InsertSalt(u, y), Works(0));
    LoginMoves(t', t', One(a, key, Completed(u, x)), b, key, InsertSalt(u, y), Completed(u, y), Works(0));
    hide Enabled, Next, OneUser, One;
    RunTrace(states, BothLook(a, b, x, y));
  }

  /** From empty tables, two first logins of one identity that both miss the salt complete
      with two different salts: one of them is stored nowhere. */
  lemma SaltRace(a: nat, b: nat, key: Key, userId: UserId, x: Salt, y: Salt)
    requires a != b && x != y
    ensures var steps := FirstLogin(a, key, userId) + SecondLogin(b, key) + BothLook(a, b, x, y);
      && Runnable(EMPTY, steps)
      && var s := Run(EMPTY, steps);
        && a in s.logins && b in s.logins
        && s.logins[a] == Login(key, Completed(userId, x)) && s.logins[b] == Login(key, Completed(userId, y))
        && s.tables.salts == map[key := SaltRow(userId, x)]
  {
    FirstLoginRuns(a, key, userId);
    var s1 := Run(EMPTY, FirstLogin(a, key, userId));
    SecondLoginRuns(s1, b, key, userId);
    var s2 := Run(s1, SecondLogin(b, key));
    assert s2 == State(OneUser(key, userId), Two(a, b, key, ReadSalt(userId), ReadSalt(userId)));
    BothLookRuns(a, b, key, userId, x, y);
    hide Runnable, Run, FirstLogin, SecondLogin, BothLook;
    RunAppend(EMPTY, FirstLogin(a, key, userId), SecondLogin(b, key));
    RunAppend(EMPTY, FirstLogin(a, key, userId) + SecondLogin(b, key), BothLook(a, b, x, y));
  }

  // ----- The service -----

  /** What the draws and the store calls of one login come to. */
  datatype Outcomes = Outcomes(
    identityReadFails: bool, newUser: UserId, userReply: Reply, identityReply: Reply,
    userReadFails: bool, saltReadFails: bool, newSalt: Salt, saltReply: Reply)
  {
    function At(pc: Pc): Env {
      match pc
      case ReadIdentity => Env(identityReadFails, newUser, Done)
      case InsertUser(_) => Env(false, 0, userReply)
      case InsertIdentity(_) => Env(false, 0, identityReply)
      case ReadUser(_) => Env(userReadFails, 0, Done)
      case ReadSalt(_) => Env(saltReadFails, newSalt, Done)
      case InsertSalt(_, _) => Env(false, 0, saltReply)
      case _ => Env(false, 0, Done)
    }
  }

  /** The store calls of one login with nothing in between. */
  function Drive(t: Tables, login: Login, o: Outcomes, calls: nat): (Tables, Pc)
    decreases calls
  {
    if calls == 0 then (t, login.pc)
    else
      var (t', pc) := Advanced(t, login, o.At(login.pc));
      Drive(t', login.(pc := pc), o, calls - 1)
  }

  ghost predicate GoodAlone(t: Tables, login: Login) {
    Inv(State(t, map[])) && Belongs(t, login) && SaltSettled(t, login)
  }

  lemma AdvanceAlone(t: Tables, login: Login, env: Env)
    requires GoodAlone(t, login)
    ensures var (t', pc) := Advanced(t, login, env);
      GoodAlone(t', login.(pc := pc)) && Keeps(t, t')
  {
    var s := State(t, map[0 := login]);
    StepInv(s, Advance(0, env));
    StepSalt(s, Advance(0, env));
    var s' := Next(s, Advance(0, env));
    hide Advanced;
    assert Belongs(s'.tables, s'.logins[0]) && SaltSettled(s'.tables, s'.logins[0]);
  }

  /** One login with nothing in between, any of whose store calls may fail: what it
      answers is stored, and even a failed login spoils nothing for the next one. */
  lemma {:induction false} UndisturbedLogin(t: Tables, login: Login, o: Outcomes, calls: nat)
    requires GoodAlone(t, login)
    ensures var (t', pc) := Drive(t, login, o, calls);
      GoodAlone(t', login.(pc := pc)) && Keeps(t, t')
    decreases calls
  {
    hide GoodAlone;
    if calls == 0 {
    } else {
      var (t', pc) := Advanced(t, login, o.At(login.pc));
      AdvanceAlone(t, login, o.At(login.pc));
      UndisturbedLogin(t', login.(pc := pc), o, calls - 1);
    }
  }

  class AuthService {
    var tables: Tables

    constructor ()
      ensures tables == EMPTY.tables
    {
      tables := Tables(map[], map[], map[]);
    }

    method CreateUser(id: UserId, reply: Reply) returns (ok: bool)
      modifies this
      ensures Write(old(tables), AddUser(id), reply, InsertIdentity(id))
        == (tables, if ok then InsertIdentity(id) else Failed)
      ensures ok <==> id !in old(tables).users && reply == Done
      ensures tables == if id !in old(tables).users && reply != Refused
        then old(tables).(users := old(tables).users[id := true]) else old(tables)
    {
      ok := Permitted(tables, AddUser(id)) && reply.TookEffect();
      if ok {
        tables := tables.(users := tables.users[id := true]);
      }
      ok := ok && reply == Done;
    }

    method CreateOAuthIdentity(key: Key, userId: UserId, reply: Reply) returns (ok: bool)
      modifies this
      ensures Write(old(tables), AddIdentity(key, userId), reply, ReadUser(userId))
        == (tables, if ok then ReadUser(userId) else Failed)
      ensures var fits := key !in old(tables).identities && userId in old(tables).users;
        && (ok <==> fits && reply == Done)
        && tables == (if fits && reply != Refused
             then old(tables).(identities := old(tables).identities[key := userId]) else old(tables))
    {
      ok := Permitted(tables, AddIdentity(key, userId)) && reply.TookEffect();
      if ok {
        tables := tables.(identities := tables.identities[key := userId]);
      }
      ok := ok && reply == Done;
    }

    method CreateZkLoginSalt(key: Key, row: SaltRow, reply: Reply) returns (ok: bool)
      modifies this
      ensures Write(old(tables), AddSalt(key, row), reply, Completed(row.userId, row.salt))
        == (tables, if ok then Completed(row.userId, row.salt) else Failed)
      ensures ok <==> row.userId in old(tables).users && reply == Done
      ensures tables == if row.userId in old(tables).users && reply != Refused && key !in old(tables).salts
        then old(tables).(salts := old(tables).salts[key := row]) else old(tables)
    {
      ok := Permitted(tables, AddSalt(key, row)) && reply.TookEffect();
      if ok && key !in tables.salts {
        tables := tables.(salts := tables.salts[key := row]);
      }
      ok := ok && reply == Done;
    }

    /** One login with nothing in between is six steps of the machine, or fewer. */
    method OAuthComplete(key: Key, o: Outcomes) returns (r: Option<SaltRow>)
      modifies this
      ensures Drive(old(tables), Login(key, ReadIdentity), o, 6)
        == (tables, if r.Some? then Completed(r.value.userId, r.value.salt) else Failed)
      ensures r.Some? <==>
        && !o.identityReadFails && !o.userReadFails && !o.saltReadFails
        && (if key in old(tables).identities
            then var user := old(tables).identities[key]; user in old(tables).users && old(tables).users[user]
            else o.newUser !in old(tables).users && o.userReply == Done && o.identityReply == Done)
        && (key in old(tables).salts || o.saltReply == Done)
      ensures r.Some? ==>
        var known := key in old(tables).identities;
        var user := if known then old(tables).identities[key] else o.newUser;
        var salted := key in old(tables).salts;
        var salt := if salted then old(tables).salts[key].salt else o.newSalt;
        && r.value == SaltRow(user, salt)
        && tables.users == (if known then old(tables).users else old(tables).users[user := true])
        && tables.identities == (if known then old(tables).identities else old(tables).identities[key := user])
        && tables.salts == (if salted then old(tables).salts else old(tables).salts[key := SaltRow(user, salt)])
    {
      if o.identityReadFails {
        return None;
      }
      var userId := o.newUser;
      if key in tables.identities {
        userId := tables.identities[key];
      } else {
        var ok := CreateUser(userId, o.userReply);
        if !ok {
          return None;
        }
        ok := CreateOAuthIdentity(key, userId, o.identityReply);
        if !ok {
          return None;
        }
      }
      if o.userReadFails || userId !in tables.users || !tables.users[userId] {
        return None;
      }
      if o.saltReadFails {
        return None;
      }
      if key in tables.salts {
        return Some(SaltRow(userId, tables.salts[key].salt));
      }
      var ok := CreateZkLoginSalt(key, SaltRow(userId, o.newSalt), o.saltReply);
      if !ok {
        return None;
      }
      return Some(SaltRow(userId, o.newSalt));
    }
  }
}
