/** Session tokens: creation, rotation, revocation and reads, each store call its own
    step. */
module Sessions {
  import opened Wrappers

  /** Raw tokens come from a source that never repeats one. */
  type Token = nat

  /** What the table stores of a token: a hash without collisions. */
  datatype Hash = Sha256Hex(token: Token)

  datatype Status = Active | Expired | Revoked

  /** A row of `sessions`, kept under its id. */
  datatype Session = Session(
    userId: string, access: Hash, refresh: Hash, expiresAt: int, refreshExpiresAt: int, status: Status)

  type Table = map<nat, Session>

  const ACCESS_TOKEN_TTL := 15 * 60
  const REFRESH_TOKEN_TTL := 30 * 24 * 60 * 60

  // ----- Statements, with the unique columns -----

  predicate HashesFree(t: Table, except: nat, access: Hash, refresh: Hash) {
    forall id | id in t && id != except :: t[id].access != access && t[id].refresh != refresh
  }

  datatype Change =
    | NoChange
    | AddSession(id: nat, row: Session)
    | SetTokens(id: nat, access: Hash, refresh: Hash, expiresAt: int, refreshExpiresAt: int)
    | SetRevoked(id: nat)

  /** Whether the statement gets past the primary key and the unique hashes. */
  predicate Permitted(t: Table, change: Change) {
    match change
    case NoChange => true
    case AddSession(id, row) => id !in t && HashesFree(t, id, row.access, row.refresh)
    case SetTokens(id, access, refresh, _, _) => id in t ==> HashesFree(t, id, access, refresh)
    case SetRevoked(_) => true
  }

  function Apply(t: Table, change: Change): Table {
    match change
    case NoChange => t
    case AddSession(id, row) => t[id := row]
    case SetTokens(id, access, refresh, expiresAt, refreshExpiresAt) =>
      if id !in t then t
      else t[id := t[id].(access := access, refresh := refresh,
                          expiresAt := expiresAt, refreshExpiresAt := refreshExpiresAt)]
    case SetRevoked(id) => if id in t then t[id := t[id].(status := Revoked)] else t
  }

  // ----- What the service decides from one row -----

  datatype Error =
    | InvalidToken | SessionRevoked | SessionExpired | Unauthorized | DeviceNotTrusted | Internal

  function AccessError(session: Session, now: int): Option<Error> {
    if session.status == Revoked then Some(SessionRevoked)
    else if session.expiresAt < now then Some(SessionExpired)
    else None
  }

  function RefreshError(session: Session, now: int): Option<Error> {
    if session.status == Revoked then Some(SessionRevoked)
    else if session.refreshExpiresAt < now then Some(SessionExpired)
    else None
  }

  ghost predicate ByAccess(t: Table, id: nat, token: Token) {
    id in t && t[id].access == Sha256Hex(token)
  }

  ghost predicate ByRefresh(t: Table, id: nat, token: Token) {
    id in t && t[id].refresh == Sha256Hex(token)
  }

  // ----- The machine -----

  /** The next store call of one request. `held` tokens are drawn but not stored yet; a
      refresh that is about to write remembers the token it read. */
  datatype Pc =
    | LoginInsert(id: nat, userId: string, held: Pair, now: int)
    | RefreshRead(token: Token)
    | RefreshWrite(id: nat, read: Token, held: Pair, now: int)
    | RevokeWrite(id: nat)
    | AccessRead(token: Token)
    | Accepted(id: nat)
    | Finished

  datatype Pair = Pair(access: Token, refresh: Token)

  /** `used` are the tokens whose hashes were ever stored, `disclosed` those that some
      client was told, `spent` lists the token that was read by each refresh that took
      effect, and every drawn token is below `nextToken`. */
  datatype State = State(
    table: Table, nextToken: Token, used: set<Token>, disclosed: set<Token>, spent: seq<Token>,
    requests: map<nat, Pc>)

  datatype Env = Env(now: int, readFails: bool, reply: Reply)

  datatype Step =
    | Login(request: nat, id: nat, userId: string, now: int)
    | Begin(request: nat, pc: Pc)
    | Advance(request: nat, env: Env)

  predicate IsEntry(pc: Pc) {
    pc.RefreshRead? || pc.RevokeWrite? || pc.AccessRead?
  }

  ghost predicate Enabled(s: State, step: Step) {
    match step
    case Login(r, _, _, _) => r !in s.requests
    case Begin(r, pc) => r !in s.requests && IsEntry(pc)
    case Advance(r, _) => r in s.requests && !s.requests[r].Accepted? && !s.requests[r].Finished?
  }

  function NewRow(userId: string, p: Pair, now: int): Session {
    Session(userId, Sha256Hex(p.access), Sha256Hex(p.refresh), now + ACCESS_TOKEN_TTL, now + REFRESH_TOKEN_TTL, Active)
  }

  function NewTokens(id: nat, p: Pair, now: int): Change {
    SetTokens(id, Sha256Hex(p.access), Sha256Hex(p.refresh), now + ACCESS_TOKEN_TTL, now + REFRESH_TOKEN_TTL)
  }

  function StoredBy(change: Change): set<Token> {
    match change
    case AddSession(_, row) => {row.access.token, row.refresh.token}
    case SetTokens(_, access, refresh, _, _) => {access.token, refresh.token}
    case _ => {}
  }

  /** Runs a statement: the constraints may reject it, and the reply may be lost. */
  function Execute(t: Table, change: Change, reply: Reply): (Table, bool) {
    if !Permitted(t, change) || !reply.TookEffect() then (t, false) else (Apply(t, change), reply == Done)
  }

  function Goto(s: State, r: nat, pc: Pc): State {
    s.(requests := s.requests[r := pc])
  }

  predicate Effective(t: Table, change: Change, reply: Reply) {
    Permitted(t, change) && reply.TookEffect()
  }

  /** The last store call of a request, which spends a token if it takes effect and tells
      its client some tokens on success. */
  function Write(s: State, r: nat, change: Change, reply: Reply, spends: seq<Token>, told: set<Token>): State {
    var (t, ok) := Execute(s.table, change, reply);
    var stored := if Effective(s.table, change, reply) then StoredBy(change) else {};
    var spent := if Effective(s.table, change, reply) then s.spent + spends else s.spent;
    var disclosed := if ok then s.disclosed + told else s.disclosed;
    Goto(State(t, s.nextToken, s.used + stored, disclosed, spent, s.requests), r, Finished)
  }

  /** A read by hash returns the one matching row, if any. */
  ghost function Advanced(s: State, r: nat, env: Env): State
    requires r in s.requests
  {
    match s.requests[r]
    case LoginInsert(id, userId, p, now) =>
      Write(s, r, AddSession(id, NewRow(userId, p, now)), env.reply, [], {p.access, p.refresh})
    case RefreshRead(token) =>
      if !env.readFails && exists id: nat :: ByRefresh(s.table, id, token) then
        var id: nat :| ByRefresh(s.table, id, token);
        if RefreshError(s.table[id], env.now).Some? then Goto(s, r, Finished)
        else
          var p := Pair(s.nextToken, s.nextToken + 1);
          Goto(s.(nextToken := s.nextToken + 2), r, RefreshWrite(id, token, p, env.now))
      else Goto(s, r, Finished)
    case RefreshWrite(id, token, p, now) =>
      Write(s, r, NewTokens(id, p, now), env.reply, [token], {p.access})
    case RevokeWrite(id) => Write(s, r, SetRevoked(id), env.reply, [], {})
    case AccessRead(token) =>
      if !env.readFails && exists id: nat :: ByAccess(s.table, id, token) then
        var id: nat :| ByAccess(s.table, id, token);
        Goto(s, r, if AccessError(s.table[id], env.now).Some? then Finished else Accepted(id))
      else Goto(s, r, Finished)
    case _ => s
  }

  ghost function Next(s: State, step: Step): State
    requires Enabled(s, step)
  {
    match step
    case Login(r, id, userId, now) =>
      Goto(s.(nextToken := s.nextToken + 2), r, LoginInsert(id, userId, Pair(s.nextToken, s.nextToken + 1), now))
    case Begin(r, pc) => Goto(s, r, pc)
    case Advance(r, env) => Advanced(s, r, env)
  }

  ghost predicate Runnable(s: State, steps: seq<Step>)
    decreases |steps|, 0
  {
    var n := |steps|;
    n == 0 || (Runnable(s, steps[..n - 1]) && Enabled(Run(s, steps[..n - 1]), steps[n - 1]))
  }

  ghost function Run(s: State, steps: seq<Step>): State
    requires Runnable(s, steps)
    decreases |steps|, 1
  {
    var n := |steps|;
    if n == 0 then s else Next(Run(s, steps[..n - 1]), steps[n - 1])
  }

  /** The states that the steps lead through, one after another. */
  ghost predicate Trace(states: seq<State>, steps: seq<Step>) {
    && |states| == |steps| + 1
    && (forall i | 0 <= i < |steps| :: Enabled(states[i], steps[i]) && Next(states[i], steps[i]) == states[i + 1])
  }

  lemma {:induction false} RunTrace(states: seq<State>, steps: seq<Step>)
    requires Trace(states, steps)
    ensures Runnable(states[0], steps) && Run(states[0], steps) == states[|steps|]
  {
    var n := |steps|;
    if n == 0 {
    } else {
      RunTrace(states[..n], steps[..n - 1]);
    }
  }

  const EMPTY := State(map[], 0, {}, {}, [], map[])

  // ----- Invariant -----

  function Held(pc: Pc): set<Token> {
    match pc
    case LoginInsert(_, _, p, _) => {p.access, p.refresh}
    case RefreshWrite(_, _, p, _) => {p.access, p.refresh}
    case _ => {}
  }

  ghost predicate HoldsFresh(s: State, pc: Pc) {
    && (forall x: Token :: x in Held(pc) ==> x < s.nextToken)
    && Held(pc) !! s.used && Held(pc) !! s.disclosed
    && (pc.LoginInsert? || pc.RefreshWrite? ==> pc.held.access != pc.held.refresh)
  }

  /** Held tokens are drawn, were never stored or told, and belong to one request. */
  ghost predicate HeldFresh(s: State) {
    && (forall r: nat :: r in s.requests ==> HoldsFresh(s, s.requests[r]))
    && (forall q: nat, r: nat | q in s.requests && r in s.requests && q != r ::
        Held(s.requests[q]) !! Held(s.requests[r]))
  }

  ghost predicate UniqueHashes(t: Table) {
    forall i, j | i in t && j in t && i != j :: t[i].access != t[j].access && t[i].refresh != t[j].refresh
  }

  ghost predicate ColumnsApart(t: Table) {
    forall i, j | i in t && j in t :: t[i].access != t[j].refresh
  }

  ghost predicate Inv(s: State) {
    && UniqueHashes(s.table) && ColumnsApart(s.table)
    && (forall id | id in s.table :: s.table[id].access.token in s.used && s.table[id].refresh.token in s.used)
    && s.disclosed <= s.used
    && (forall x | x in s.used :: x < s.nextToken)
    && HeldFresh(s)
  }

  ghost predicate FreshPair(s: State, change: Change) {
    match change
    case AddSession(_, row) => row.access != row.refresh && StoredBy(change) !! s.used
    case SetTokens(_, access, refresh, _, _) => access != refresh && StoredBy(change) !! s.used
    case _ => true
  }

  lemma ApplyInv(s: State, change: Change)
    requires Inv(s) && Permitted(s.table, change) && FreshPair(s, change)
    ensures var (t, used) := (Apply(s.table, change), s.used + StoredBy(change));
      && UniqueHashes(t) && ColumnsApart(t)
      && (forall id | id in t :: t[id].access.token in used && t[id].refresh.token in used)
  {
    hide HeldFresh;
  }

  /** Requests that held tokens before still hold them, and nobody got hold of more. */
  lemma FewerHeld(s: State, s': State, r: nat)
    requires HeldFresh(s) && r in s.requests && r in s'.requests
    requires s'.requests == s.requests[r := s'.requests[r]] && s'.nextToken >= s.nextToken
    requires Held(s'.requests[r]) == {} && s'.disclosed <= s.disclosed + Held(s.requests[r])
    requires s'.used <= s.used + Held(s.requests[r])
    ensures HeldFresh(s')
  {
    forall q: nat | q in s'.requests ensures HoldsFresh(s', s'.requests[q]) {
      if q != r {
        assert HoldsFresh(s, s.requests[q]) && Held(s.requests[q]) !! Held(s.requests[r]);
      }
    }
  }

  lemma WriteInv(s: State, r: nat, change: Change, reply: Reply, spends: seq<Token>, told: set<Token>)
    requires Inv(s) && r in s.requests && FreshPair(s, change)
    requires told <= StoredBy(change) <= Held(s.requests[r])
    ensures Inv(Write(s, r, change, reply, spends, told))
  {
    FewerHeld(s, Write(s, r, change, reply, spends, told), r);
    if Permitted(s.table, change) {
      ApplyInv(s, change);
    }
  }

  /** Two tokens are drawn and held by one request that held none. */
  lemma DrawFresh(s: State, r: nat, pc: Pc)
    requires Inv(s) && (r in s.requests ==> Held(s.requests[r]) == {})
    requires pc.LoginInsert? || pc.RefreshWrite?
    requires pc.held == Pair(s.nextToken, s.nextToken + 1)
    ensures Inv(Goto(s.(nextToken := s.nextToken + 2), r, pc))
  {
    var s' := Goto(s.(nextToken := s.nextToken + 2), r, pc);
    assert HoldsFresh(s', pc);
    forall q: nat | q in s'.requests && q != r
      ensures HoldsFresh(s', s'.requests[q]) && Held(s'.requests[q]) !! Held(pc)
    {
      assert HoldsFresh(s, s.requests[q]);
    }
  }

  lemma AdvanceInv(s: State, r: nat, env: Env)
    requires Inv(s) && r in s.requests
    ensures Inv(Advanced(s, r, env))
  {
    var pc, s' := s.requests[r], Advanced(s, r, env);
    assert HoldsFresh(s, pc);
    match pc
    case LoginInsert(id, userId, p, now) =>
      WriteInv(s, r, AddSession(id, NewRow(userId, p, now)), env.reply, [], {p.access, p.refresh});
    case RefreshRead(token) =>
      if s'.requests[r].RefreshWrite? {
        DrawFresh(s, r, s'.requests[r]);
      } else {
        FewerHeld(s, s', r);
      }
    case RefreshWrite(id, token, p, now) => WriteInv(s, r, NewTokens(id, p, now), env.reply, [token], {p.access});
    case RevokeWrite(id) => WriteInv(s, r, SetRevoked(id), env.reply, [], {});
    case AccessRead(_) => FewerHeld(s, s', r);
    case _ =>
  }

  lemma BeginInv(s: State, r: nat, pc: Pc)
    requires Inv(s) && r !in s.requests && IsEntry(pc)
    ensures Inv(Goto(s, r, pc))
  {
    var s' := Goto(s, r, pc);
    forall q: nat | q in s'.requests ensures HoldsFresh(s', s'.requests[q]) {
      assert q != r ==> HoldsFresh(s, s.requests[q]);
    }
  }

  lemma StepInv(s: State, step: Step)
    requires Inv(s) && Enabled(s, step)
    ensures Inv(Next(s, step))
  {
    hide Inv, Advanced;
    match step
    case Login(r, id, userId, now) =>
      DrawFresh(s, r, LoginInsert(id, userId, Pair(s.nextToken, s.nextToken + 1), now));
    case Begin(r, pc) => BeginInv(s, r, pc);
    case Advance(r, env) => AdvanceInv(s, r, env);
  }

  lemma {:induction false} RunInv(s: State, steps: seq<Step>)
    requires Inv(s) && Runnable(s, steps)
    ensures Inv(Run(s, steps))
  {
    var n := |steps|;
    if n == 0 {
    } else {
      RunInv(s, steps[..n - 1]);
      StepInv(Run(s, steps[..n - 1]), steps[n - 1]);
    }
  }

  /** No token ever resolves to two sessions, in either column. */
  lemma OneSessionPerToken(steps: seq<Step>, i: nat, j: nat, token: Token)
    requires Runnable(EMPTY, steps)
    requires var t := Run(EMPTY, steps).table;
      (ByAccess(t, i, token) && ByAccess(t, j, token)) || (ByRefresh(t, i, token) && ByRefresh(t, j, token))
    ensures i == j
  {
    RunInv(EMPTY, steps);
  }

  // ----- Tokens that were replaced -----

  ghost predicate Replaced(s: State, token: Token) {
    && token in s.used
    && (forall id: nat :: !Stored(s.table, id, token))
  }

  ghost predicate Stored(t: Table, id: nat, token: Token) {
    ByAccess(t, id, token) || ByRefresh(t, id, token)
  }

  lemma ApplyReplaced(t: Table, change: Change, id: nat, token: Token)
    requires token !in StoredBy(change) && !Stored(t, id, token)
    ensures !Stored(Apply(t, change), id, token)
  {
  }

  lemma StepReplaced(s: State, step: Step, token: Token)
    requires Inv(s) && Enabled(s, step) && Replaced(s, token)
    ensures Replaced(Next(s, step), token)
  {
    if step.Advance? {
      var pc := s.requests[step.request];
      assert HoldsFresh(s, pc) && token !in Held(pc);
      forall id: nat ensures !Stored(Next(s, step).table, id, token) {
        match pc
        case LoginInsert(i, userId, p, now) => ApplyReplaced(s.table, AddSession(i, NewRow(userId, p, now)), id, token);
        case RefreshWrite(i, _, p, now) => ApplyReplaced(s.table, NewTokens(i, p, now), id, token);
        case RevokeWrite(i) => ApplyReplaced(s.table, SetRevoked(i), id, token);
        case _ =>
      }
    }
  }

  /** A token that has been stored and is stored no more is never accepted again, neither
      as an access token nor as a refresh token. */
  lemma {:induction false} ReplacedForever(s: State, steps: seq<Step>, token: Token)
    requires Inv(s) && Runnable(s, steps) && Replaced(s, token)
    ensures Replaced(Run(s, steps), token)
  {
    var n := |steps|;
    if n == 0 {
    } else {
      RunInv(s, steps[..n - 1]);
      ReplacedForever(s, steps[..n - 1], token);
      StepReplaced(Run(s, steps[..n - 1]), steps[n - 1], token);
    }
  }

  lemma ReplacedIsDenied(s: State, r: nat, token: Token, env: Env)
    requires Replaced(s, token) && r in s.requests
    requires s.requests[r] == AccessRead(token) || s.requests[r] == RefreshRead(token)
    ensures Advanced(s, r, env).requests[r] == Finished && Advanced(s, r, env).table == s.table
  {
    assert forall id: nat {:trigger ByAccess(s.table, id, token)} {:trigger ByRefresh(s.table, id, token)} ::
        !Stored(s.table, id, token);
  }

  /** A login that takes effect stores a session under both its tokens, good for 15
      minutes and for 30 days. */
  lemma LoginStores(s: State, r: nat, env: Env)
    requires Inv(s) && r in s.requests && s.requests[r].LoginInsert? && env.reply.TookEffect()
    requires s.requests[r].id !in s.table
    ensures var (pc, t) := (s.requests[r], Advanced(s, r, env).table);
      && ByAccess(t, pc.id, pc.held.access) && ByRefresh(t, pc.id, pc.held.refresh)
      && t[pc.id].userId == pc.userId && t[pc.id].status == Active
      && t[pc.id].expiresAt == pc.now + 900 && t[pc.id].refreshExpiresAt == pc.now + 2_592_000
      && t - {pc.id} == s.table
  {
    var (id, p) := (s.requests[r].id, s.requests[r].held);
    assert HoldsFresh(s, s.requests[r]) && p.access in Held(s.requests[r]) && p.refresh in Held(s.requests[r]);
    assert HashesFree(s.table, id, Sha256Hex(p.access), Sha256Hex(p.refresh));
  }

  /** A refresh that takes effect replaces both tokens of its session and renews both
      lifetimes, and leaves user, status and all other sessions alone. */
  lemma RefreshReplaces(s: State, r: nat, env: Env)
    requires Inv(s) && r in s.requests && s.requests[r].RefreshWrite? && env.reply.TookEffect()
    requires s.requests[r].id in s.table
    ensures var (pc, before, s') := (s.requests[r], s.table[s.requests[r].id], Advanced(s, r, env));
      && Replaced(s', before.access.token) && Replaced(s', before.refresh.token)
      && ByAccess(s'.table, pc.id, pc.held.access) && ByRefresh(s'.table, pc.id, pc.held.refresh)
      && s'.table[pc.id].expiresAt == pc.now + 900 && s'.table[pc.id].refreshExpiresAt == pc.now + 2_592_000
      && s'.table[pc.id].userId == before.userId && s'.table[pc.id].status == before.status
      && s'.table - {pc.id} == s.table - {pc.id} && s'.spent == s.spent + [pc.read]
      && s'.disclosed == if env.reply == Done then s.disclosed + {pc.held.access} else s.disclosed
  {
    var (id, p) := (s.requests[r].id, s.requests[r].held);
    assert HoldsFresh(s, s.requests[r]) && p.access in Held(s.requests[r]) && p.refresh in Held(s.requests[r]);
    assert HashesFree(s.table, id, Sha256Hex(p.access), Sha256Hex(p.refresh));
  }

  // ----- What a refresh reads and tells -----

  /** A read by refresh token finds the one session that has it. */
  lemma RefreshReadFinds(s: State, r: nat, id: nat, token: Token, env: Env)
    requires UniqueHashes(s.table) && r in s.requests && s.requests[r] == RefreshRead(token)
    requires ByRefresh(s.table, id, token) && RefreshError(s.table[id], env.now).None? && !env.readFails
    ensures Advanced(s, r, env) ==
      Goto(s.(nextToken := s.nextToken + 2), r, RefreshWrite(id, token, Pair(s.nextToken, s.nextToken + 1), env.now))
  {
    assert forall other: nat | ByRefresh(s.table, other, token) :: other == id;
  }

  /** A read that works accepts an access token exactly if its session is not revoked and its
      15 minutes are not over, and starts a refresh exactly if its session is not revoked and
      its 30 days are not over. */
  lemma ReadsExact(s: State, r: nat, id: nat, token: Token, env: Env)
    requires UniqueHashes(s.table) && r in s.requests && !env.readFails && id in s.table
    ensures s.requests[r] == AccessRead(token) && s.table[id].access == Sha256Hex(token) ==>
      Advanced(s, r, env).requests[r]
        == if s.table[id].status != Revoked && env.now <= s.table[id].expiresAt then Accepted(id) else Finished
    ensures s.requests[r] == RefreshRead(token) && s.table[id].refresh == Sha256Hex(token) ==>
      Advanced(s, r, env).requests[r]
        == if s.table[id].status != Revoked && env.now <= s.table[id].refreshExpiresAt
           then RefreshWrite(id, token, Pair(s.nextToken, s.nextToken + 1), env.now) else Finished
  {
    if s.requests[r] == RefreshRead(token) && s.table[id].refresh == Sha256Hex(token) {
      assert ByRefresh(s.table, id, token);
      assert forall other: nat | ByRefresh(s.table, other, token) :: other == id;
    }
    if s.requests[r] == AccessRead(token) && s.table[id].access == Sha256Hex(token) {
      assert ByAccess(s.table, id, token);
      assert forall other: nat | ByAccess(s.table, other, token) :: other == id;
    }
  }

  /** A refresh that is answered tells its client the new access token. */
  lemma RefreshTold(s: State, r: nat, env: Env)
    requires Inv(s) && r in s.requests && s.requests[r].RefreshWrite? && env.reply == Done
    requires s.requests[r].id in s.table
    ensures var (pc, s') := (s.requests[r], Advanced(s, r, env));
      && s'.disclosed == s.disclosed + {pc.held.access} && s'.spent == s.spent + [pc.read]
      && s'.table == Apply(s.table, NewTokens(pc.id, pc.held, pc.now)) && s'.requests == s.requests[r := Finished]
  {
    var (id, p) := (s.requests[r].id, s.requests[r].held);
    assert HoldsFresh(s, s.requests[r]) && p.access in Held(s.requests[r]) && p.refresh in Held(s.requests[r]);
    assert HashesFree(s.table, id, Sha256Hex(p.access), Sha256Hex(p.refresh));
  }

  // ----- Revocation -----

  lemma StepRevoked(s: State, step: Step, id: nat)
    requires Enabled(s, step) && id in s.table && s.table[id].status == Revoked
    ensures id in Next(s, step).table && Next(s, step).table[id].status == Revoked
  {
  }

  /** A revoked session stays revoked, also under a refresh that read it before. */
  lemma {:induction false} RevokedForever(s: State, steps: seq<Step>, id: nat)
    requires Runnable(s, steps) && id in s.table && s.table[id].status == Revoked
    ensures id in Run(s, steps).table && Run(s, steps).table[id].status == Revoked
  {
    var n := |steps|;
    if n == 0 {
    } else {
      RevokedForever(s, steps[..n - 1], id);
      StepRevoked(Run(s, steps[..n - 1]), steps[n - 1], id);
    }
  }

  /** No read accepts a revoked session or starts to refresh it. */
  lemma RevokedIsDenied(s: State, r: nat, id: nat, token: Token, env: Env)
    requires Inv(s) && r in s.requests && id in s.table && s.table[id].status == Revoked
    requires (s.requests[r] == AccessRead(token) && ByAccess(s.table, id, token))
      || (s.requests[r] == RefreshRead(token) && ByRefresh(s.table, id, token))
    ensures Advanced(s, r, env).requests[r] == Finished
  {
  }

  /** A revocation that takes effect, in any run, is for good: no later read accepts the
      session or starts to refresh it, whichever token it comes with. */
  lemma RevocationIsFinal(
      steps: seq<Step>, r: nat, env: Env, later: seq<Step>, q: nat, token: Token, readEnv: Env)
    requires Runnable(EMPTY, steps) && Enabled(Run(EMPTY, steps), Advance(r, env))
    requires var s := Run(EMPTY, steps);
      s.requests[r].RevokeWrite? && s.requests[r].id in s.table && env.reply != Refused
    requires Runnable(Next(Run(EMPTY, steps), Advance(r, env)), later)
    requires var s' := Run(Next(Run(EMPTY, steps), Advance(r, env)), later);
      q in s'.requests && s'.requests[q] in {AccessRead(token), RefreshRead(token)}
    ensures var id := Run(EMPTY, steps).requests[r].id;
      var s' := Run(Next(Run(EMPTY, steps), Advance(r, env)), later);
      && id in s'.table && s'.table[id].status == Revoked
      && Advanced(s', q, readEnv).requests[q] != Accepted(id)
      && (Advanced(s', q, readEnv).requests[q].RefreshWrite? ==> Advanced(s', q, readEnv).requests[q].id != id)
  {
    var s := Run(EMPTY, steps);
    var (s1, id) := (Next(s, Advance(r, env)), s.requests[r].id);
    assert id in s1.table && s1.table[id].status == Revoked;
    hide Next, Enabled;
    RevokedForever(s1, later, id);
    ReadSpares(Run(s1, later), q, id, readEnv);
  }

  lemma ReadSpares(s: State, q: nat, id: nat, env: Env)
    requires id in s.table && s.table[id].status == Revoked
    requires q in s.requests && (s.requests[q].AccessRead? || s.requests[q].RefreshRead?)
    ensures var pc := Advanced(s, q, env).requests[q];
      pc != Accepted(id) && (pc.RefreshWrite? ==> pc.id != id)
  {
  }

  // ----- Refresh tokens that no client knows -----

  lemma StepUndisclosed(s: State, step: Step, token: Token)
    requires Inv(s) && Enabled(s, step) && token in s.used && token !in s.disclosed
    ensures token in Next(s, step).used && token !in Next(s, step).disclosed
  {
    if step.Advance? {
      assert HoldsFresh(s, s.requests[step.request]);
    }
  }

  /** The refresh token of a refreshed session is stored but never told to anyone. */
  ghost predicate RefreshUnknown(s: State, id: nat) {
    id in s.table && s.table[id].refresh.token !in s.disclosed
  }

  lemma StepRefreshUnknown(s: State, step: Step, id: nat)
    requires Inv(s) && Enabled(s, step) && RefreshUnknown(s, id)
    ensures RefreshUnknown(Next(s, step), id)
  {
    StepUndisclosed(s, step, s.table[id].refresh.token);
    if step.Advance? {
      var pc := s.requests[step.request];
      assert HoldsFresh(s, pc);
    }
  }

  lemma {:induction false} RefreshUnknownForever(s: State, steps: seq<Step>, id: nat)
    requires Inv(s) && Runnable(s, steps) && RefreshUnknown(s, id)
    ensures RefreshUnknown(Run(s, steps), id)
  {
    var n := |steps|;
    if n == 0 {
    } else {
      RunInv(s, steps[..n - 1]);
      RefreshUnknownForever(s, steps[..n - 1], id);
      StepRefreshUnknown(Run(s, steps[..n - 1]), steps[n - 1], id);
    }
  }

  /** Once a refresh has taken effect, no token that any client was ever told resolves
      to that session as a refresh token again: a session is refreshed at most once
      from what its client knows. */
  lemma RefreshIsOneShot(s: State, r: nat, env: Env, steps: seq<Step>, token: Token)
    requires Inv(s) && Enabled(s, Advance(r, env)) && s.requests[r].RefreshWrite? && env.reply.TookEffect()
    requires s.requests[r].id in s.table
    requires Runnable(Next(s, Advance(r, env)), steps)
    ensures var s' := Run(Next(s, Advance(r, env)), steps);
      token in s'.disclosed ==> !ByRefresh(s'.table, s.requests[r].id, token)
  {
    var next, id, p := Next(s, Advance(r, env)), s.requests[r].id, s.requests[r].held;
    assert HoldsFresh(s, s.requests[r]) && p.access in Held(s.requests[r]) && p.refresh in Held(s.requests[r]);
    assert HashesFree(s.table, id, Sha256Hex(p.access), Sha256Hex(p.refresh));
    StepInv(s, Advance(r, env));
    RefreshUnknownForever(next, steps, id);
  }

  // ----- The service -----

  class Service {
    var sessions: Table
    var nextToken: Token

    constructor ()
      ensures sessions == map[] && nextToken == 0
    {
      sessions, nextToken := map[], 0;
    }

    method NewToken() returns (token: Token)
      modifies this`nextToken
      ensures token == old(nextToken) && nextToken == token + 1
    {
      token := nextToken;
      nextToken := nextToken + 1;
    }

    method CreateSession(id: nat, row: Session, reply: Reply) returns (ok: bool)
      modifies this`sessions
      ensures Execute(old(sessions), AddSession(id, row), reply) == (sessions, ok)
      ensures var free := id !in old(sessions) && forall other | other in old(sessions) ::
          old(sessions)[other].access != row.access && old(sessions)[other].refresh != row.refresh;
        && sessions == (if free && reply != Refused then old(sessions)[id := row] else old(sessions))
        && (ok <==> free && reply == Done)
    {
      ok := Permitted(sessions, AddSession(id, row)) && reply != Refused;
      if ok {
        sessions := sessions[id := row];
      }
      ok := ok && reply == Done;
    }

    method UpdateSessionTokens(id: nat, access: Hash, refresh: Hash, expiresAt: int, refreshExpiresAt: int,
        reply: Reply)
      returns (ok: bool)
      modifies this`sessions
      ensures Execute(old(sessions), SetTokens(id, access, refresh, expiresAt, refreshExpiresAt), reply)
        == (sessions, ok)
      ensures var free := id in old(sessions) ==> forall other | other in old(sessions) && other != id ::
          old(sessions)[other].access != access && old(sessions)[other].refresh != refresh;
        && (ok <==> free && reply == Done)
        && sessions == (if free && reply != Refused && id in old(sessions)
             then old(sessions)[id := Session(old(sessions)[id].userId, access, refresh,
                                              expiresAt, refreshExpiresAt, old(sessions)[id].status)]
             else old(sessions))
    {
      ok := Permitted(sessions, SetTokens(id, access, refresh, expiresAt, refreshExpiresAt)) && reply != Refused;
      if ok && id in sessions {
        var row := sessions[id];
        sessions := sessions[id := row.(access := access, refresh := refresh,
          expiresAt := expiresAt, refreshExpiresAt := refreshExpiresAt)];
      }
      ok := ok && reply == Done;
    }

    method RevokeSession(id: nat, reply: Reply) returns (ok: bool)
      modifies this`sessions
      ensures Execute(old(sessions), SetRevoked(id), reply) == (sessions, ok)
      ensures ok <==> reply == Done
      ensures sessions == if id in old(sessions) && reply != Refused
        then old(sessions)[id := old(sessions)[id].(status := Revoked)] else old(sessions)
    {
      if id in sessions && reply != Refused {
        sessions := sessions[id := sessions[id].(status := Revoked)];
      }
      ok := reply == Done;
    }

    /** A refresh with nothing in between: the tokens of the one matching session are
        rotated, and only the new access token is handed out. */
    method RefreshSession(token: Token, now: int, readFails: bool, reply: Reply)
      returns (r: Result<(Token, int), Error>)
      requires UniqueHashes(sessions)
      modifies this
      ensures readFails ==> r == Err(Internal) && sessions == old(sessions)
      ensures !readFails && (forall id: nat :: !ByRefresh(old(sessions), id, token)) ==>
        r == Err(InvalidToken) && sessions == old(sessions)
      ensures forall id: nat | !readFails && ByRefresh(old(sessions), id, token) ::
        var row := old(sessions)[id];
        var p := Pair(old(nextToken), old(nextToken) + 1);
        var (written, ok) := Execute(old(sessions), NewTokens(id, p, now), reply);
        if row.status == Revoked then r == Err(SessionRevoked) && sessions == old(sessions)
        else if row.refreshExpiresAt < now then r == Err(SessionExpired) && sessions == old(sessions)
        else sessions == written && r == if ok then Ok((p.access, now + ACCESS_TOKEN_TTL)) else Err(Internal)
      ensures forall id: nat | !readFails && ByRefresh(old(sessions), id, token) ::
        var (row, n) := (old(sessions)[id], old(nextToken));
        var free := forall other | other in old(sessions) && other != id ::
          old(sessions)[other].access != Sha256Hex(n) && old(sessions)[other].refresh != Sha256Hex(n + 1);
        row.status != Revoked && row.refreshExpiresAt >= now ==>
          && r == (if free && reply == Done then Ok((n, now + 900)) else Err(Internal))
          && sessions == (if free && reply != Refused
               then old(sessions)[id := Session(row.userId, Sha256Hex(n), Sha256Hex(n + 1),
                                                now + 900, now + 2_592_000, row.status)]
               else old(sessions))
    {
      hide Execute;
      var hash := Sha256Hex(token);
      if readFails {
        return Err(Internal);
      }
      if !(exists id :: id in sessions && sessions[id].refresh == hash) {
        return Err(InvalidToken);
      }
      var id :| id in sessions && sessions[id].refresh == hash;
      assert ByRefresh(sessions, id, token);
      assert forall other: nat | ByRefresh(sessions, other, token) :: other == id;
      var refusal := RefreshError(sessions[id], now);
      if refusal.Some? {
        return Err(refusal.value);
      }
      r := RotateTokens(id, now, reply);
    }

    /** Two new tokens for a session, of which only the access token is handed out. */
    method RotateTokens(id: nat, now: int, reply: Reply) returns (r: Result<(Token, int), Error>)
      requires id in sessions
      modifies this
      ensures var p := Pair(old(nextToken), old(nextToken) + 1);
        var (written, ok) := Execute(old(sessions), NewTokens(id, p, now), reply);
        sessions == written && r == if ok then Ok((p.access, now + ACCESS_TOKEN_TTL)) else Err(Internal)
      ensures var (row, n) := (old(sessions)[id], old(nextToken));
        var free := forall other | other in old(sessions) && other != id ::
          old(sessions)[other].access != Sha256Hex(n) && old(sessions)[other].refresh != Sha256Hex(n + 1);
        && r == (if free && reply == Done then Ok((n, now + 900)) else Err(Internal))
        && sessions == (if free && reply != Refused
             then old(sessions)[id := Session(row.userId, Sha256Hex(n), Sha256Hex(n + 1),
                                              now + 900, now + 2_592_000, row.status)]
             else old(sessions))
    {
      hide Execute;
      var newAccess := NewToken();
      var newRefresh := NewToken();
      var ok := UpdateSessionTokens(id, Sha256Hex(newAccess), Sha256Hex(newRefresh),
        now + ACCESS_TOKEN_TTL, now + REFRESH_TOKEN_TTL, reply);
      r := if ok then Ok((newAccess, now + ACCESS_TOKEN_TTL)) else Err(Internal);
    }

    /** The user and device rows are looked up elsewhere; `None` stands for a failed or
        empty lookup. */
    method VerifyAccessToken(token: Token, now: int, readFails: bool,
        userActive: Option<bool>, deviceActive: Option<bool>, integrityRead: bool)
      returns (r: Result<nat, Error>)
      requires UniqueHashes(sessions)
      ensures readFails ==> r == Err(Internal)
      ensures r.Ok? ==> ByAccess(sessions, r.value, token) && AccessError(sessions[r.value], now).None?
      ensures r.Ok? ==> userActive == Some(true) && deviceActive == Some(true) && integrityRead
      ensures !readFails && (forall id: nat :: !ByAccess(sessions, id, token)) ==> r == Err(InvalidToken)
      ensures forall id: nat | !readFails && ByAccess(sessions, id, token) ::
        r == if sessions[id].status == Revoked then Err(SessionRevoked)
             else if sessions[id].expiresAt < now then Err(SessionExpired)
             else if userActive.None? then Err(Internal)
             else if !userActive.value then Err(Unauthorized)
             else if deviceActive.None? then Err(Internal)
             else if !deviceActive.value then Err(DeviceNotTrusted)
             else if !integrityRead then Err(Internal)
             else Ok(id)
    {
      var hash := Sha256Hex(token);
      if readFails {
        return Err(Internal);
      }
      if !(exists id :: id in sessions && sessions[id].access == hash) {
        return Err(InvalidToken);
      }
      var id :| id in sessions && sessions[id].access == hash;
      assert ByAccess(sessions, id, token);
      assert forall other: nat | ByAccess(sessions, other, token) :: other == id;
      var refusal := AccessError(sessions[id], now);
      if refusal.Some? {
        return Err(refusal.value);
      }
      if userActive.None? {
        return Err(Internal);
      }
      if !userActive.value {
        return Err(Unauthorized);
      }
      if deviceActive.None? {
        return Err(Internal);
      }
      if !deviceActive.value {
        return Err(DeviceNotTrusted);
      }
      if !integrityRead {
        return Err(Internal);
      }
      return Ok(id);
    }
  }
}
