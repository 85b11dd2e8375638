/** How often one refresh token can be used. Its read and the write that replaces it are
    two store calls, and it is spent by the write. */
module SingleUse {
  import opened Wrappers
  import opened Sessions

  // ----- A spent token stays spent -----

  /** What a pending refresh has read is still stored, or was replaced since. */
  ghost predicate ReadOk(s: State, pc: Pc) {
    pc.RefreshWrite? ==> pc.id in s.table && (ByRefresh(s.table, pc.id, pc.read) || Replaced(s, pc.read))
  }

  ghost predicate SpentInv(s: State) {
    && Inv(s)
    && (forall r: nat | r in s.requests :: ReadOk(s, s.requests[r]))
    && (forall x | x in s.spent :: Replaced(s, x))
  }

  lemma StepStored(s: State, step: Step, id: nat, token: Token)
    requires Inv(s) && Enabled(s, step) && ByRefresh(s.table, id, token)
    ensures id in Next(s, step).table
    ensures ByRefresh(Next(s, step).table, id, token) || Replaced(Next(s, step), token)
  {
    if step.Advance? && s.requests[step.request].RefreshWrite? && s.requests[step.request].id == id {
      if step.env.reply.TookEffect() {
        RefreshReplaces(s, step.request, step.env);
      }
    }
  }

  lemma StepReadOk(s: State, step: Step, q: nat)
    requires SpentInv(s) && Enabled(s, step) && q in Next(s, step).requests
    ensures ReadOk(Next(s, step), Next(s, step).requests[q])
  {
    var pc := Next(s, step).requests[q];
    if pc.RefreshWrite? && q in s.requests && s.requests[q] == pc {
      assert ReadOk(s, pc);
      if ByRefresh(s.table, pc.id, pc.read) {
        StepStored(s, step, pc.id, pc.read);
      } else {
        StepReplaced(s, step, pc.read);
        StepKeepsSession(s, step, pc.id);
      }
    }
  }

  lemma StepKeepsSession(s: State, step: Step, id: nat)
    requires Enabled(s, step) && id in s.table
    ensures id in Next(s, step).table
  {
  }

  lemma StepSpent(s: State, step: Step)
    requires SpentInv(s) && Enabled(s, step)
    ensures SpentInv(Next(s, step))
  {
    StepInv(s, step);
    var s' := Next(s, step);
    forall q: nat | q in s'.requests ensures ReadOk(s', s'.requests[q]) {
      StepReadOk(s, step, q);
    }
    forall x | x in s'.spent ensures Replaced(s', x) {
      if x in s.spent {
        StepReplaced(s, step, x);
      } else {
        NewlySpent(s, step, x);
      }
    }
  }

  /** Only the write of a refresh spends a token, and it replaces the token that it spends. */
  lemma NewlySpent(s: State, step: Step, x: Token)
    requires SpentInv(s) && Enabled(s, step) && x in Next(s, step).spent && x !in s.spent
    ensures Replaced(Next(s, step), x)
  {
    var pc := s.requests[step.request];
    assert ReadOk(s, pc) && pc.RefreshWrite? && pc.read == x && step.env.reply.TookEffect();
    if Replaced(s, x) {
      StepReplaced(s, step, x);
    } else {
      RefreshReplaces(s, step.request, step.env);
    }
  }

  lemma {:induction false} RunSpent(s: State, steps: seq<Step>)
    requires SpentInv(s) && Runnable(s, steps)
    ensures SpentInv(Run(s, steps))
  {
    var n := |steps|;
    if n == 0 {
    } else {
      RunSpent(s, steps[..n - 1]);
      StepSpent(Run(s, steps[..n - 1]), steps[n - 1]);
    }
  }

  /** Once one refresh of a token has taken effect, every later read of it, as a refresh or
      as an access token, is refused and changes nothing. */
  lemma SpentIsRefused(steps: seq<Step>, later: seq<Step>, token: Token, r: nat, env: Env)
    requires Runnable(EMPTY, steps) && token in Run(EMPTY, steps).spent
    requires Runnable(Run(EMPTY, steps), later)
    requires var s := Run(Run(EMPTY, steps), later);
      r in s.requests && (s.requests[r] == RefreshRead(token) || s.requests[r] == AccessRead(token))
    ensures var s := Run(Run(EMPTY, steps), later);
      Advanced(s, r, env) == s.(requests := s.requests[r := Finished])
  {
    RunSpent(EMPTY, steps);
    RunInv(EMPTY, steps);
    ReplacedForever(Run(EMPTY, steps), later, token);
    var s := Run(Run(EMPTY, steps), later);
    ReplacedIsDenied(s, r, token, env);
    hide Replaced, Inv;
  }

  // ----- One use of a token, exactly -----

  /** A refresh is admitted with a token that another pending refresh has read as well. */
  ghost predicate Overlaps(s: State, step: Step) {
    && step.Advance? && step.request in s.requests && s.requests[step.request].RefreshRead?
    && Admits(s, s.requests[step.request].token, step.env)
    && exists q: nat :: HasRead(s, q, s.requests[step.request].token)
  }

  ghost predicate HasRead(s: State, q: nat, token: Token) {
    q in s.requests && s.requests[q].RefreshWrite? && s.requests[q].read == token
  }

  ghost predicate Admits(s: State, token: Token, env: Env) {
    !env.readFails && exists id: nat :: ByRefresh(s.table, id, token) && RefreshError(s.table[id], env.now).None?
  }

  ghost predicate NoOverlap(s: State, steps: seq<Step>)
    requires Runnable(s, steps)
  {
    var n := |steps|;
    n == 0 || (NoOverlap(s, steps[..n - 1]) && !Overlaps(Run(s, steps[..n - 1]), steps[n - 1]))
  }

  /** Some token was spent by two refreshes. */
  ghost predicate SpentTwice(s: State) {
    exists i, j :: 0 <= i < j < |s.spent| && s.spent[i] == s.spent[j]
  }

  /** Pending refreshes have read tokens that are stored still, and no two the same one. */
  ghost predicate ReadsApart(s: State) {
    && (forall r: nat | r in s.requests && s.requests[r].RefreshWrite? ::
        ByRefresh(s.table, s.requests[r].id, s.requests[r].read))
    && (forall p: nat, q: nat | p in s.requests && q in s.requests && p != q
        && s.requests[p].RefreshWrite? && s.requests[q].RefreshWrite? ::
        s.requests[p].read != s.requests[q].read)
  }

  ghost predicate LoneInv(s: State) {
    SpentInv(s) && ReadsApart(s) && !SpentTwice(s)
  }

  /** A step only starts one refresh at most, with a token that it admits. */
  lemma StepStarts(s: State, step: Step, q: nat)
    requires Enabled(s, step) && q in Next(s, step).requests && Next(s, step).requests[q].RefreshWrite?
    ensures q in s.requests
    ensures s.requests[q] == Next(s, step).requests[q] || (
      && step.Advance? && step.request == q && s.requests[q] == RefreshRead(Next(s, step).requests[q].read)
      && Admits(s, s.requests[q].token, step.env) && Next(s, step).table == s.table
      && ByRefresh(s.table, Next(s, step).requests[q].id, s.requests[q].token))
  {
  }

  lemma StepReadsApart(s: State, step: Step)
    requires LoneInv(s) && Enabled(s, step) && !Overlaps(s, step)
    ensures ReadsApart(Next(s, step))
  {
    var s' := Next(s, step);
    forall r: nat | r in s'.requests && s'.requests[r].RefreshWrite?
      ensures ByRefresh(s'.table, s'.requests[r].id, s'.requests[r].read)
    {
      StepStarts(s, step, r);
      if s.requests[r] == s'.requests[r] {
        OtherWrites(s, step, r);
      }
    }
    forall p: nat, q: nat | p in s'.requests && q in s'.requests && p != q
        && s'.requests[p].RefreshWrite? && s'.requests[q].RefreshWrite?
      ensures s'.requests[p].read != s'.requests[q].read
    {
      StepStarts(s, step, p);
      StepStarts(s, step, q);
      if s.requests[p] != s'.requests[p] {
        NewReader(s, step, p, q);
      } else if s.requests[q] != s'.requests[q] {
        NewReader(s, step, q, p);
      }
    }
  }

  lemma NewReader(s: State, step: Step, p: nat, q: nat)
    requires Enabled(s, step) && !Overlaps(s, step) && p != q
    requires p in Next(s, step).requests && Next(s, step).requests[p].RefreshWrite?
    requires q in Next(s, step).requests && Next(s, step).requests[q].RefreshWrite?
    requires p in s.requests && s.requests[p] != Next(s, step).requests[p]
    ensures Next(s, step).requests[p].read != Next(s, step).requests[q].read
  {
    StepStarts(s, step, p);
    StepStarts(s, step, q);
    hide Enabled, Next, Admits, ByRefresh;
    assert s.requests[q] == Next(s, step).requests[q];
    assert !HasRead(s, q, s.requests[p].token);
  }

  /** The row of a session has its old refresh token until a refresh of it takes effect. */
  lemma RowKeepsToken(s: State, step: Step, id: nat, token: Token)
    requires Enabled(s, step) && ByRefresh(s.table, id, token)
    requires step.Advance? && s.requests[step.request].RefreshWrite? ==> s.requests[step.request].id != id
    ensures ByRefresh(Next(s, step).table, id, token)
  {
  }

  lemma OtherSession(s: State, p: nat, r: nat)
    requires ReadsApart(s) && p != r && p in s.requests && r in s.requests
    requires s.requests[p].RefreshWrite? && s.requests[r].RefreshWrite?
    ensures s.requests[p].id != s.requests[r].id
  {
  }

  /** A pending refresh keeps its token under the steps of others, as no other holds it. */
  lemma OtherWrites(s: State, step: Step, r: nat)
    requires ReadsApart(s) && Enabled(s, step) && r in s.requests && s.requests[r].RefreshWrite?
    requires r in Next(s, step).requests && Next(s, step).requests[r] == s.requests[r]
    ensures ByRefresh(Next(s, step).table, s.requests[r].id, s.requests[r].read)
  {
    var (id, token) := (s.requests[r].id, s.requests[r].read);
    if step.Advance? && s.requests[step.request].RefreshWrite? {
      OtherSession(s, step.request, r);
    }
    RowKeepsToken(s, step, id, token);
  }

  lemma StepOnce(s: State, step: Step)
    requires LoneInv(s) && Enabled(s, step)
    ensures !SpentTwice(Next(s, step))
  {
    var s' := Next(s, step);
    if s'.spent != s.spent {
      var pc := s.requests[step.request];
      assert pc.RefreshWrite? && s'.spent == s.spent + [pc.read] && ByRefresh(s.table, pc.id, pc.read);
      assert Stored(s.table, pc.id, pc.read);
      assert forall i | 0 <= i < |s.spent| :: s.spent[i] in s.spent;
    }
  }

  lemma StepLone(s: State, step: Step)
    requires LoneInv(s) && Enabled(s, step) && !Overlaps(s, step)
    ensures LoneInv(Next(s, step))
  {
    StepSpent(s, step);
    StepReadsApart(s, step);
    StepOnce(s, step);
  }

  lemma {:induction false} RunLone(s: State, steps: seq<Step>)
    requires LoneInv(s) && Runnable(s, steps) && NoOverlap(s, steps)
    ensures LoneInv(Run(s, steps))
  {
    hide LoneInv;
    var n := |steps|;
    if n == 0 {
    } else {
      RunLone(s, steps[..n - 1]);
      StepLone(Run(s, steps[..n - 1]), steps[n - 1]);
    }
  }

  /** In a run without an overlap every token is spent by one refresh at most. */
  lemma SpentOnce(steps: seq<Step>)
    requires Runnable(EMPTY, steps) && NoOverlap(EMPTY, steps)
    ensures !SpentTwice(Run(EMPTY, steps))
  {
    RunLone(EMPTY, steps);
  }

  // ----- And only then -----

  function Works(now: int): Env {
    Env(now, false, Done)
  }

  /** The write of a pending refresh, answered. */
  lemma WriteSpends(s: State, q: nat, token: Token)
    requires SpentInv(s) && HasRead(s, q, token)
    ensures Enabled(s, Advance(q, Works(0))) && !Overlaps(s, Advance(q, Works(0)))
    ensures var s' := Next(s, Advance(q, Works(0)));
      && s'.spent == s.spent + [token] && s'.disclosed == s.disclosed + {s.requests[q].held.access}
      && s'.requests == s.requests[q := Finished]
      && ByAccess(s'.table, s.requests[q].id, s.requests[q].held.access)
      && SpentInv(s')
  {
    StepSpent(s, Advance(q, Works(0)));
    assert ReadOk(s, s.requests[q]);
    RefreshTold(s, q, Works(0));
  }

  /** Two pending refreshes of one token both write, and both clients are answered. */
  lemma BothWrite(s: State, q: nat, r: nat, token: Token)
    requires SpentInv(s) && HasRead(s, q, token) && HasRead(s, r, token) && q != r
    ensures var (one, two) := (Advance(q, Works(0)), Advance(r, Works(0)));
      && Enabled(s, one) && !Overlaps(s, one)
      && Enabled(Next(s, one), two) && !Overlaps(Next(s, one), two)
      && var s' := Next(Next(s, one), two);
        && s'.spent == s.spent + [token, token]
        && s'.disclosed == s.disclosed + {s.requests[q].held.access, s.requests[r].held.access}
        && ByAccess(s'.table, s.requests[r].id, s.requests[r].held.access)
  {
    hide Next, Enabled, Overlaps, SpentInv, ByAccess;
    WriteSpends(s, q, token);
    var s1 := Next(s, Advance(q, Works(0)));
    assert HasRead(s1, r, token) && s1.requests[r] == s.requests[r];
    hide HasRead;
    WriteSpends(s1, r, token);
    assert s.spent + [token] + [token] == s.spent + [token, token];
    var (x, y) := (s.requests[q].held.access, s.requests[r].held.access);
    assert s.disclosed + {x} + {y} == s.disclosed + {x, y};
  }

  lemma OverlapReads(s: State, step: Step) returns (q: nat)
    requires Inv(s) && Enabled(s, step) && Overlaps(s, step)
    ensures var (s', r, token) := (Next(s, step), step.request, s.requests[step.request].token);
      && q != r && HasRead(s, q, token) && HasRead(s', q, token) && HasRead(s', r, token)
      && s'.requests[q] == s.requests[q]
      && s'.requests[r].held.access == s.nextToken
  {
    var (r, token) := (step.request, s.requests[step.request].token);
    q :| HasRead(s, q, token);
    var id: nat :| ByRefresh(s.table, id, token) && RefreshError(s.table[id], step.env.now).None?;
    RefreshReadFinds(s, r, id, token, step.env);
  }

  lemma NoOverlapSnoc(s: State, steps: seq<Step>, step: Step)
    requires Runnable(s, steps) && NoOverlap(s, steps)
    requires Enabled(Run(s, steps), step) && !Overlaps(Run(s, steps), step)
    ensures Runnable(s, steps + [step]) && NoOverlap(s, steps + [step])
    ensures Run(s, steps + [step]) == Next(Run(s, steps), step)
  {
    assert (steps + [step])[..|steps|] == steps;
  }

  lemma TwoSteps(s: State, one: Step, two: Step)
    requires Enabled(s, one) && Enabled(Next(s, one), two)
    requires !Overlaps(s, one) && !Overlaps(Next(s, one), two)
    ensures Runnable(s, [one, two]) && NoOverlap(s, [one, two]) && Run(s, [one, two]) == Next(Next(s, one), two)
  {
    hide Enabled, Next, Overlaps;
    NoOverlapSnoc(s, [], one);
    assert [] + [one] == [one];
    NoOverlapSnoc(s, [one], two);
    assert [one] + [two] == [one, two];
  }

  /** Both requests write, one after the other. */
  function BothWrites(q: nat, r: nat): seq<Step> {
    [Advance(q, Works(0)), Advance(r, Works(0))]
  }

  lemma BothWriteRuns(s: State, q: nat, r: nat, token: Token)
    requires SpentInv(s) && HasRead(s, q, token) && HasRead(s, r, token) && q != r
    ensures Runnable(s, BothWrites(q, r)) && NoOverlap(s, BothWrites(q, r))
    ensures var s' := Run(s, BothWrites(q, r));
      && SpentTwice(s') && s'.spent == s.spent + [token, token]
      && {s.requests[q].held.access, s.requests[r].held.access} <= s'.disclosed
      && ByAccess(s'.table, s.requests[r].id, s.requests[r].held.access)
  {
    hide Next, Overlaps, SpentInv, Enabled, Runnable, NoOverlap, Run, ByAccess;
    BothWrite(s, q, r, token);
    hide HasRead;
    TwoSteps(s, Advance(q, Works(0)), Advance(r, Works(0)));
    var (spent, n) := (Run(s, BothWrites(q, r)).spent, |s.spent|);
    assert spent[n] == spent[n + 1] == token;
  }

  /** After any run, an overlap can go on, without another one, to two refreshes of the
      token that both take effect and both answer a new access token. */
  lemma OverlapSpendsTwice(steps: seq<Step>, step: Step) returns (q: nat, more: seq<Step>)
    requires Runnable(EMPTY, steps) && Enabled(Run(EMPTY, steps), step) && Overlaps(Run(EMPTY, steps), step)
    ensures var (s, s') := (Run(EMPTY, steps), Next(Run(EMPTY, steps), step));
      && HasRead(s, q, s.requests[step.request].token)
      && Runnable(s', more) && NoOverlap(s', more) && SpentTwice(Run(s', more))
      && {s.requests[q].held.access, s.nextToken} <= Run(s', more).disclosed
  {
    var s := Run(EMPTY, steps);
    RunSpent(EMPTY, steps);
    StepSpent(s, step);
    q := OverlapReads(s, step);
    hide Next, Overlaps, SpentInv, Enabled, HasRead, NoOverlap, SpentTwice;
    BothWriteRuns(Next(s, step), q, step.request, s.requests[step.request].token);
    more := BothWrites(q, step.request);
  }

  /** Some run from here, without an overlap, spends a token twice. */
  ghost predicate CanSpendTwice(s: State) {
    exists more :: Runnable(s, more) && NoOverlap(s, more) && SpentTwice(Run(s, more))
  }

  lemma LoneCannotSpendTwice(s: State)
    requires LoneInv(s)
    ensures !CanSpendTwice(s)
  {
    forall more | Runnable(s, more) && NoOverlap(s, more) ensures !SpentTwice(Run(s, more)) {
      RunLone(s, more);
    }
  }

  /** Single use, exactly: in a run without an overlap so far, the next step overlaps if and
      only if the run can go on from it, without any further overlap, to two refreshes of
      one token that both take effect. */
  lemma OverlapsIffCanSpendTwice(steps: seq<Step>, step: Step)
    requires Runnable(EMPTY, steps) && NoOverlap(EMPTY, steps) && Enabled(Run(EMPTY, steps), step)
    ensures Overlaps(Run(EMPTY, steps), step) <==> CanSpendTwice(Next(Run(EMPTY, steps), step))
  {
    var s := Run(EMPTY, steps);
    if Overlaps(s, step) {
      var q, more := OverlapSpendsTwice(steps, step);
    } else {
      RunLone(EMPTY, steps);
      StepLone(s, step);
      LoneCannotSpendTwice(Next(s, step));
    }
  }

  // ----- A race from empty tables -----

  /** The first of two refreshes of one session answers a token that the second kills. */
  lemma FirstIsDead(s: State, q: nat, r: nat, token: Token)
    requires SpentInv(s) && HasRead(s, q, token) && HasRead(s, r, token) && q != r
    requires s.requests[q].id == s.requests[r].id
    ensures Runnable(s, BothWrites(q, r))
    ensures Replaced(Run(s, BothWrites(q, r)), s.requests[q].held.access)
    ensures Replaced(Run(s, BothWrites(q, r)), token)
  {
    hide Next, SpentInv, Overlaps, NoOverlap, ReadOk, Replaced, Runnable, Run;
    BothWrite(s, q, r, token);
    TwoSteps(s, Advance(q, Works(0)), Advance(r, Works(0)));
    WriteSpends(s, q, token);
    var s1 := Next(s, Advance(q, Works(0)));
    SecondReplaces(s1, r, s.requests[q].held.access);
    RunSpent(s, BothWrites(q, r));
    BothWriteRuns(s, q, r, token);
    SpentIsReplaced(Run(s, BothWrites(q, r)), token);
  }

  lemma SecondReplaces(s: State, r: nat, access: Token)
    requires SpentInv(s) && r in s.requests && s.requests[r].RefreshWrite?
    requires ByAccess(s.table, s.requests[r].id, access)
    ensures Enabled(s, Advance(r, Works(0))) && Replaced(Next(s, Advance(r, Works(0))), access)
  {
    RefreshReplaces(s, r, Works(0));
  }

  lemma SpentIsReplaced(s: State, token: Token)
    requires SpentInv(s) && token in s.spent
    ensures Replaced(s, token)
  {
  }

  /** A login, and two refreshes that both read its refresh token. */
  function BothRead(id: nat, userId: string, now: int): seq<Step> {
    [Login(0, id, userId, now), Advance(0, Works(now)), Begin(1, RefreshRead(1)), Begin(2, RefreshRead(1)),
     Advance(1, Works(now)), Advance(2, Works(now))]
  }

  /** The tables after the login, while two requests go on. */
  function LoggedIn(id: nat, userId: string, now: int, nextToken: Token, others: map<nat, Pc>): State {
    State(map[id := NewRow(userId, Pair(0, 1), now)], nextToken, {0, 1}, {0, 1}, [], others)
  }

  lemma LoginRuns(id: nat, userId: string, now: int)
    ensures Trace(
      [EMPTY, EMPTY.(nextToken := 2, requests := map[0 := LoginInsert(id, userId, Pair(0, 1), now)]),
       LoggedIn(id, userId, now, 2, map[0 := Finished])],
      BothRead(id, userId, now)[..2])
  {
  }

  function Pending(read1: Pc, read2: Pc): map<nat, Pc> {
    map[0 := Finished, 1 := read1, 2 := read2]
  }

  function RaceStates(id: nat, userId: string, now: int): seq<State> {
    var (first, second) := (RefreshWrite(id, 1, Pair(2, 3), now), RefreshWrite(id, 1, Pair(4, 5), now));
    [EMPTY, EMPTY.(nextToken := 2, requests := map[0 := LoginInsert(id, userId, Pair(0, 1), now)]),
     LoggedIn(id, userId, now, 2, map[0 := Finished]),
     LoggedIn(id, userId, now, 2, map[0 := Finished, 1 := RefreshRead(1)]),
     LoggedIn(id, userId, now, 2, Pending(RefreshRead(1), RefreshRead(1))),
     LoggedIn(id, userId, now, 4, Pending(first, RefreshRead(1))),
     LoggedIn(id, userId, now, 6, Pending(first, second))]
  }

  lemma BothReadRuns(id: nat, userId: string, now: int)
    ensures Runnable(EMPTY, BothRead(id, userId, now))
    ensures Run(EMPTY, BothRead(id, userId, now)) == RaceStates(id, userId, now)[6]
  {
    var (states, steps) := (RaceStates(id, userId, now), BothRead(id, userId, now));
    LoginRuns(id, userId, now);
    RefreshReadFinds(states[4], 1, id, 1, Works(now));
    RefreshReadFinds(states[5], 2, id, 1, Works(now));
    assert Enabled(states[2], steps[2]) && Next(states[2], steps[2]) == states[3];
    assert Enabled(states[3], steps[3]) && Next(states[3], steps[3]) == states[4];
    hide Advanced, Pending, LoggedIn;
    RunTrace(states, steps);
  }

  lemma {:induction false} RunAppend(s: State, first: seq<Step>, next: seq<Step>)
    requires Runnable(s, first) && Runnable(Run(s, first), next)
    ensures Runnable(s, first + next) && Run(s, first + next) == Run(Run(s, first), next)
    decreases |next|
  {
    var n := |next|;
    if n == 0 {
      assert first + next == first;
    } else {
      RunAppend(s, first, next[..n - 1]);
      assert (first + next)[..|first + next| - 1] == first + next[..n - 1];
    }
  }

  /** From empty tables: two refreshes that read the token of a login before either writes
      both succeed. The token is spent twice, and the access token told to the first is
      dead as soon as the second has written. */
  lemma RefreshRace(id: nat, userId: string, now: int)
    ensures var steps := BothRead(id, userId, now) + BothWrites(1, 2);
      && Runnable(EMPTY, steps)
      && var s := Run(EMPTY, steps);
        && s.spent == [1, 1] && {2, 4} <= s.disclosed
        && ByAccess(s.table, id, 4) && Replaced(s, 2) && Replaced(s, 1)
  {
    BothReadRuns(id, userId, now);
    var s := RaceStates(id, userId, now)[6];
    RunSpent(EMPTY, BothRead(id, userId, now));
    assert HasRead(s, 1, 1) && HasRead(s, 2, 1);
    BothWriteRuns(s, 1, 2, 1);
    FirstIsDead(s, 1, 2, 1);
    hide Runnable, Run, BothWrites, BothRead, SpentInv, Replaced;
    RunAppend(EMPTY, BothRead(id, userId, now), BothWrites(1, 2));
  }
}
