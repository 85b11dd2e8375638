/** Requests that claim a key in Redis: high-fidelity nonces, idempotency keys and OAuth
    states, over one clock in milliseconds. */
module ReplayWindow {
  import opened Wrappers
  import opened Clock

  // ----- Redis -----

  /** The instant at which each key expires; a key is there strictly before it. */
  type Keys = map<string, int>

  predicate Visible(keys: Keys, key: string, now: int) {
    key in keys && now < keys[key]
  }

  /** What SET NX with a lifetime does, and what its caller is told: `None` is an error. */
  function SetNX(keys: Keys, key: string, ttl: int, now: int, reply: Reply): (Keys, Option<bool>) {
    var free := !Visible(keys, key, now);
    (if free && reply.TookEffect() then keys[key := now + ttl] else keys,
     if reply == Done then Some(free) else None)
  }

  const NONCE_TTL := 10 * 60 * 1000
  const IDEMPOTENCY_TTL := 24 * 60 * 60 * 1000
  const STATE_TTL := 10 * 60 * 1000
  const SKEW_SECONDS := 300

  function NonceKey(integrityId: string, nonce: string): string {
    "hf:nonce:" + integrityId + ":" + nonce
  }

  function IdempotencyKey(key: string): string {
    "idempotency:" + key
  }

  function StateKey(state: string): string {
    "oauth:state:" + state
  }

  // ----- Requests -----

  /** `timestamp` is the header as an integer, absent if it is missing or unreadable;
      `bodyMatches` also holds if the client sent no body hash. */
  datatype Request =
    | HighFidelity(
        integrityId: string, nonce: string, provider: string, timestamp: Option<Int64>,
        bodyRead: bool, bodyMatches: bool)
    | Idempotent(key: string)
    | OAuthBegin(state: string)
    | OAuthComplete(state: string)

  datatype Outcome =
    | Passed
    | HighFidelityRequired | TimestampOutOfWindow | ReplayDetected | BodyHashMismatch
    | KeyRequired | IdempotentReplay | StateMismatch | Internal

  /** A request taken as one instant: its clock is read once. */
  datatype Event = Event(at: int, request: Request, reply: Reply)
  {
    predicate Timely() {
      0 <= at < 1000 * (TWO_63 / 2)
    }

    function Now(): Int64
      requires Timely()
    {
      at / 1000
    }
  }

  function Second(tsMs: Int64): Int64 {
    TruncDivBounds(tsMs);
    TruncDiv(tsMs, 1000)
  }

  predicate WellFormed(r: Request) {
    match r
    case HighFidelity(_, nonce, provider, timestamp, _, _) => provider != "" && nonce != "" && timestamp.Some?
    case Idempotent(key) => key != ""
    case _ => true
  }

  function Handle(keys: Keys, e: Event): (Keys, Outcome)
    requires e.Timely()
  {
    match e.request
    case HighFidelity(integrityId, nonce, _, timestamp, bodyRead, bodyMatches) =>
      if !WellFormed(e.request) then (keys, HighFidelityRequired)
      else if !Within(e.Now(), Second(timestamp.value), SKEW_SECONDS) then (keys, TimestampOutOfWindow)
      else
        var (keys', set?) := SetNX(keys, NonceKey(integrityId, nonce), NONCE_TTL, e.at, e.reply);
        (keys', if set?.None? then Internal
                else if !set?.value then ReplayDetected
                else if !bodyRead then Internal
                else if !bodyMatches then BodyHashMismatch
                else Passed)
    case Idempotent(key) =>
      if !WellFormed(e.request) then (keys, KeyRequired)
      else
        var (keys', set?) := SetNX(keys, IdempotencyKey(key), IDEMPOTENCY_TTL, e.at, e.reply);
        (keys', if set?.None? then Internal else if !set?.value then IdempotentReplay else Passed)
    case OAuthBegin(state) =>
      (if e.reply.TookEffect() then keys[StateKey(state) := e.at + STATE_TTL] else keys,
       if e.reply == Done then Passed else Internal)
    case OAuthComplete(state) =>
      (if e.reply.TookEffect() then keys - {StateKey(state)} else keys,
       if e.reply == Done && Visible(keys, StateKey(state), e.at) then Passed else StateMismatch)
  }

  /** Requests in the order of the clock. */
  ghost predicate Ordered(run: seq<Event>) {
    && (forall i | 0 <= i < |run| :: run[i].Timely())
    && (forall i, j | 0 <= i <= j < |run| :: run[i].at <= run[j].at)
  }

  ghost function After(keys: Keys, run: seq<Event>): Keys
    requires Ordered(run)
  {
    var n := |run|;
    if n == 0 then keys else
      var before := run[..n - 1];
      Handle(After(keys, before), run[n - 1]).0
  }

  ghost function OutcomeAt(keys: Keys, run: seq<Event>, i: nat): Outcome
    requires Ordered(run) && i < |run|
  {
    Handle(After(keys, run[..i]), run[i]).1
  }

  // ----- Keys do not get in each other's way -----

  lemma PrefixesApart(a: string, b: string, c: string, d: string)
    ensures NonceKey(a, b) != IdempotencyKey(c) && NonceKey(a, b) != StateKey(d) && IdempotencyKey(c) != StateKey(d)
  {
    assert NonceKey(a, b)[0] == 'h' && IdempotencyKey(c)[0] == 'i' && StateKey(d)[0] == 'o';
  }

  /** An integrity id holds no colon, so a nonce key is one pair of id and nonce: one
      device never uses up the nonces of another. */
  lemma NonceKeyInjective(a: string, b: string, x: string, y: string)
    requires ':' !in a && ':' !in b && NonceKey(a, x) == NonceKey(b, y)
    ensures a == b && x == y
  {
    var k := NonceKey(a, x);
    assert k[9..] == a + ":" + x && k[9..] == b + ":" + y;
    var rest := k[9..];
    assert rest[|a|] == ':' && rest[|b|] == ':';
    assert a == rest[..|a|] && b == rest[..|b|];
    assert x == rest[|a| + 1..] && y == rest[|b| + 1..];
  }

  /** What a request claims with SET NX once its own checks are passed. */
  function Claim(r: Request): Option<(string, int)> {
    match r
    case HighFidelity(integrityId, nonce, _, _, _, _) => Some((NonceKey(integrityId, nonce), NONCE_TTL))
    case Idempotent(key) => Some((IdempotencyKey(key), IDEMPOTENCY_TTL))
    case _ => None
  }

  /** A claimed key is never deleted and never overwritten while it is there. */
  lemma StepHolds(keys: Keys, e: Event, r: Request, until: int)
    requires e.Timely() && Claim(r).Some?
    requires Claim(r).value.0 in keys && keys[Claim(r).value.0] >= until
    ensures var keys' := Handle(keys, e).0;
      Claim(r).value.0 in keys' && keys'[Claim(r).value.0] >= until
  {
    match e.request
    case HighFidelity(_, _, _, _, _, _) =>
    case Idempotent(_) =>
    case OAuthBegin(state) => NotAState(r, state);
    case OAuthComplete(state) => NotAState(r, state);
  }

  lemma NotAState(r: Request, state: string)
    requires Claim(r).Some?
    ensures Claim(r).value.0 != StateKey(state)
  {
    match r
    case HighFidelity(a, b, _, _, _, _) => PrefixesApart(a, b, "", state);
    case Idempotent(c) => PrefixesApart("", "", c, state);
  }

  lemma {:induction false} HeldSince(keys: Keys, run: seq<Event>, i: nat, j: nat)
    requires Ordered(run) && i < j <= |run| && Claim(run[i].request).Some? && OutcomeAt(keys, run, i) == Passed
    ensures var (key, ttl) := Claim(run[i].request).value;
      key in After(keys, run[..j]) && After(keys, run[..j])[key] >= run[i].at + ttl
  {
    assert run[..j][..j - 1] == run[..j - 1];
    if i == j - 1 {
    } else {
      HeldSince(keys, run, i, j - 1);
      var (key, ttl) := Claim(run[i].request).value;
      StepHolds(After(keys, run[..j - 1]), run[j - 1], run[i].request, run[i].at + ttl);
    }
  }

  /** In any run, two requests that get past the same key are at least its lifetime
      apart: ten minutes for a nonce, 24 hours for an idempotency key. */
  lemma PassesAreApart(keys: Keys, run: seq<Event>, i: nat, j: nat)
    requires Ordered(run) && i < j < |run|
    requires Claim(run[i].request).Some? && Claim(run[j].request) == Claim(run[i].request)
    requires OutcomeAt(keys, run, i) == Passed && OutcomeAt(keys, run, j) == Passed
    ensures run[j].at - run[i].at >= Claim(run[i].request).value.1
  {
    HeldSince(keys, run, i, j);
  }

  lemma IdempotencyKeysADayApart(keys: Keys, run: seq<Event>, i: nat, j: nat, key: string)
    requires Ordered(run) && i < j < |run| && run[i].request == run[j].request == Idempotent(key)
    requires OutcomeAt(keys, run, i) == Passed && OutcomeAt(keys, run, j) == Passed
    ensures run[j].at - run[i].at >= 86_400_000
  {
    PassesAreApart(keys, run, i, j);
  }

  // ----- The replay window -----

  /** Two requests with one integrity id, nonce and timestamp. */
  predicate SameProof(a: Request, b: Request) {
    && a.HighFidelity? && b.HighFidelity?
    && a.integrityId == b.integrityId && a.nonce == b.nonce && a.timestamp == b.timestamp
  }

  lemma PassedInWindow(keys: Keys, e: Event)
    requires e.Timely() && e.request.HighFidelity? && Handle(keys, e).1 == Passed
    ensures e.request.timestamp.Some? && Abs(e.at / 1000 - Second(e.request.timestamp.value)) <= SKEW_SECONDS
  {
    MillisecondsNeverOverflow(e.Now(), e.request.timestamp.value, SKEW_SECONDS);
  }

  /** A replay gets through only in the second in which the nonce has just expired and the
      timestamp has not: at least 600 and less than 601 seconds later, the first pass in
      the earliest second the timestamp allows and the second in the latest. */
  lemma ReplayWindowBound(keys: Keys, run: seq<Event>, i: nat, j: nat)
    requires Ordered(run) && i < j < |run| && SameProof(run[i].request, run[j].request)
    requires OutcomeAt(keys, run, i) == Passed && OutcomeAt(keys, run, j) == Passed
    ensures 600_000 <= run[j].at - run[i].at < 601_000
    ensures var ts := Second(run[i].request.timestamp.value);
      run[i].at / 1000 == ts - SKEW_SECONDS && run[j].at / 1000 == ts + SKEW_SECONDS
  {
    PassesAreApart(keys, run, i, j);
    PassedInWindow(After(keys, run[..i]), run[i]);
    PassedInWindow(After(keys, run[..j]), run[j]);
  }

  /** One proof passes at most twice, ever. */
  lemma AtMostTwoPasses(keys: Keys, run: seq<Event>, i: nat, j: nat, k: nat)
    requires Ordered(run) && i < j < k < |run|
    requires SameProof(run[i].request, run[j].request) && SameProof(run[j].request, run[k].request)
    requires OutcomeAt(keys, run, i) == Passed && OutcomeAt(keys, run, j) == Passed
    ensures OutcomeAt(keys, run, k) != Passed
  {
    if OutcomeAt(keys, run, k) == Passed {
      ReplayWindowBound(keys, run, i, j);
      ReplayWindowBound(keys, run, i, k);
      ReplayWindowBound(keys, run, j, k);
    }
  }

  /** The other half: with working replies and matching bodies, a proof whose key is free
      passes twice in a row exactly if the instants are those. */
  lemma BothPassIff(keys: Keys, a: Event, b: Event)
    requires a.Timely() && b.Timely() && a.at <= b.at && a.reply == b.reply == Done
    requires SameProof(a.request, b.request) && WellFormed(a.request) && WellFormed(b.request)
    requires a.request.bodyRead && a.request.bodyMatches && b.request.bodyRead && b.request.bodyMatches
    requires !Visible(keys, NonceKey(a.request.integrityId, a.request.nonce), a.at)
    ensures var ts := Second(a.request.timestamp.value);
      (Handle(keys, a).1 == Passed && Handle(Handle(keys, a).0, b).1 == Passed)
      <==> (a.at / 1000 == ts - SKEW_SECONDS && b.at / 1000 == ts + SKEW_SECONDS && b.at - a.at >= NONCE_TTL)
  {
    MillisecondsNeverOverflow(a.Now(), a.request.timestamp.value, SKEW_SECONDS);
    MillisecondsNeverOverflow(b.Now(), b.request.timestamp.value, SKEW_SECONDS);
  }

  // ----- OAuth states -----

  lemma {:induction false} StateGone(keys: Keys, run: seq<Event>, state: string, i: nat, j: nat)
    requires Ordered(run) && i <= j <= |run| && StateKey(state) !in After(keys, run[..i])
    requires forall k | i <= k < j :: run[k].request != OAuthBegin(state)
    ensures StateKey(state) !in After(keys, run[..j])
  {
    if i == j {
    } else {
      StateGone(keys, run, state, i, j - 1);
      assert run[..j][..j - 1] == run[..j - 1];
      StateStaysGone(After(keys, run[..j - 1]), run[j - 1], state);
    }
  }

  lemma StateStaysGone(keys: Keys, e: Event, state: string)
    requires e.Timely() && StateKey(state) !in keys && e.request != OAuthBegin(state)
    ensures StateKey(state) !in Handle(keys, e).0
  {
    match e.request
    case HighFidelity(_, _, _, _, _, _) => NotAState(e.request, state);
    case Idempotent(_) => NotAState(e.request, state);
    case OAuthBegin(other) => StateKeyInjective(other, state);
    case OAuthComplete(_) =>
  }

  lemma StateKeyInjective(a: string, b: string)
    ensures StateKey(a) == StateKey(b) ==> a == b
  {
    assert a == StateKey(a)[|"oauth:state:"|..] && b == StateKey(b)[|"oauth:state:"|..];
  }

  /** An OAuth state completes at most one login each time it is handed out. */
  lemma StateUsedOnce(keys: Keys, run: seq<Event>, state: string, i: nat, j: nat)
    requires Ordered(run) && i < j < |run| && run[i].request == run[j].request == OAuthComplete(state)
    requires OutcomeAt(keys, run, i) == Passed
    requires forall k | i < k < j :: run[k].request != OAuthBegin(state)
    ensures OutcomeAt(keys, run, j) == StateMismatch
  {
    assert run[..i + 1][..i] == run[..i];
    StateGone(keys, run, state, i + 1, j);
  }

  /** Begin `i` has handed out the state, and no completion has taken it before `j`. */
  ghost predicate Live(run: seq<Event>, state: string, i: nat, j: nat) {
    && i < j <= |run| && run[i].request == OAuthBegin(state) && run[i].reply != Refused
    && forall k | i < k < j :: run[k].request == OAuthComplete(state) ==> run[k].reply == Refused
  }

  lemma {:induction false} LiveIsStored(run: seq<Event>, state: string, j: nat)
    requires Ordered(run) && j <= |run|
    ensures var keys := After(map[], run[..j]);
      && (StateKey(state) in keys ==>
          exists i: nat :: Live(run, state, i, j) && keys[StateKey(state)] == run[i].at + 600_000)
      && (forall i: nat | Live(run, state, i, j) ::
          StateKey(state) in keys && keys[StateKey(state)] >= run[i].at + 600_000)
  {
    if j == 0 {
    } else {
      LiveIsStored(run, state, j - 1);
      assert run[..j][..j - 1] == run[..j - 1];
      var (keys, e) := (After(map[], run[..j - 1]), run[j - 1]);
      StateStep(keys, e, state);
      forall i: nat | Live(run, state, i, j) ensures i == j - 1 || Live(run, state, i, j - 1) {
      }
      if StateKey(state) in After(map[], run[..j]) {
        if e.request == OAuthBegin(state) && e.reply != Refused {
          assert Live(run, state, j - 1, j);
        } else {
          var i: nat :| Live(run, state, i, j - 1) && keys[StateKey(state)] == run[i].at + 600_000;
          assert Live(run, state, i, j);
        }
      }
    }
  }

  /** Only a begin and a completion of a state touch its key. */
  lemma StateStep(keys: Keys, e: Event, state: string)
    requires e.Timely()
    ensures var (keys', key) := (Handle(keys, e).0, StateKey(state));
      if e.request == OAuthBegin(state) && e.reply != Refused then key in keys' && keys'[key] == e.at + 600_000
      else if e.request == OAuthComplete(state) && e.reply != Refused then key !in keys'
      else (key in keys' <==> key in keys) && (key in keys ==> keys'[key] == keys[key])
  {
    match e.request
    case HighFidelity(_, _, _, _, _, _) => NotAState(e.request, state);
    case Idempotent(_) => NotAState(e.request, state);
    case OAuthBegin(other) => StateKeyInjective(other, state);
    case OAuthComplete(other) => StateKeyInjective(other, state);
  }

  /** In any run over an empty store, a state completes a login if and only if Redis answers
      and the state was handed out less than 600 seconds before and not taken since. */
  lemma StateCompletesIff(run: seq<Event>, state: string, j: nat)
    requires Ordered(run) && j < |run| && run[j].request == OAuthComplete(state)
    ensures OutcomeAt(map[], run, j) == Passed
      <==> run[j].reply == Done && exists i: nat :: Live(run, state, i, j) && run[j].at < run[i].at + 600_000
  {
    LiveIsStored(run, state, j);
  }

  /** The seconds of a clock and of a timestamp, both in milliseconds, are at most 300 apart. */
  predicate CloseTo(at: int, timestamp: int) {
    var seconds := if timestamp >= 0 then timestamp / 1000 else -((-timestamp) / 1000);
    -300 <= at / 1000 - seconds <= 300
  }

  // ----- The middleware -----

  class Middleware {
    var keys: Keys

    constructor ()
      ensures keys == map[]
    {
      keys := map[];
    }

    method TrySet(key: string, ttl: int, now: int, reply: Reply) returns (set?: Option<bool>)
      modifies this
      ensures SetNX(old(keys), key, ttl, now, reply) == (keys, set?)
      ensures var free := key in old(keys) ==> old(keys)[key] <= now;
        && keys == (if free && reply != Refused then old(keys)[key := now + ttl] else old(keys))
        && set? == (if reply == Done then Some(free) else None)
    {
      var free := !(key in keys && now < keys[key]);
      if free && reply != Refused {
        keys := keys[key := now + ttl];
      }
      return if reply == Done then Some(free) else None;
    }

    /** Refused in this order: a header that is missing, a timestamp more than 300 seconds
        off, a key that is taken, a body that does not match. The key is claimed for 600
        seconds once the timestamp is in order. */
    method VerifyHighFidelity(e: Event) returns (r: Outcome)
      requires e.Timely() && e.request.HighFidelity?
      modifies this
      ensures Handle(old(keys), e) == (keys, r)
      ensures var q := e.request;
        var key := "hf:nonce:" + q.integrityId + ":" + q.nonce;
        var taken := key in old(keys) && e.at < old(keys)[key];
        if q.provider == "" || q.nonce == "" || q.timestamp.None? then
          r == HighFidelityRequired && keys == old(keys)
        else if !CloseTo(e.at, q.timestamp.value) then
          r == TimestampOutOfWindow && keys == old(keys)
        else
          && keys == (if !taken && e.reply != Refused then old(keys)[key := e.at + 600_000] else old(keys))
          && r == if e.reply != Done then Internal
                  else if taken then ReplayDetected
                  else if !q.bodyRead then Internal
                  else if !q.bodyMatches then BodyHashMismatch
                  else Passed
    {
      if e.request.timestamp.Some? {
        MillisecondsNeverOverflow(e.Now(), e.request.timestamp.value, SKEW_SECONDS);
      }
      var HighFidelity(integrityId, nonce, provider, timestamp, bodyRead, bodyMatches) := e.request;
      if provider == "" || nonce == "" || timestamp.None? {
        return HighFidelityRequired;
      }
      var inWindow := InWindow(e.Now(), Second(timestamp.value), SKEW_SECONDS);
      if !inWindow {
        return TimestampOutOfWindow;
      }
      var set? := TrySet(NonceKey(integrityId, nonce), NONCE_TTL, e.at, e.reply);
      if set?.None? {
        return Internal;
      }
      if !set?.value {
        return ReplayDetected;
      }
      if !bodyRead {
        return Internal;
      }
      if !bodyMatches {
        return BodyHashMismatch;
      }
      return Passed;
    }

    method Idempotency(e: Event) returns (r: Outcome)
      requires e.Timely() && e.request.Idempotent?
      modifies this
      ensures Handle(old(keys), e) == (keys, r)
      ensures var key := "idempotency:" + e.request.key;
        var taken := key in old(keys) && e.at < old(keys)[key];
        if e.request.key == "" then r == KeyRequired && keys == old(keys)
        else
          && keys == (if !taken && e.reply != Refused then old(keys)[key := e.at + 86_400_000] else old(keys))
          && r == if e.reply != Done then Internal else if taken then IdempotentReplay else Passed
    {
      if e.request.key == "" {
        return KeyRequired;
      }
      var set? := TrySet(IdempotencyKey(e.request.key), IDEMPOTENCY_TTL, e.at, e.reply);
      if set?.None? {
        return Internal;
      }
      if !set?.value {
        return IdempotentReplay;
      }
      return Passed;
    }
  }
}
