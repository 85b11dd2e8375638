/** Go's signed 64-bit arithmetic as far as the timestamp check uses it. */
module Clock {

  const TWO_63 := 0x8000_0000_0000_0000
  const TWO_64 := 0x1_0000_0000_0000_0000

  type Int64 = x: int | -TWO_63 <= x < TWO_63

  /** The 64-bit value of an exact result. */
  function Wrap(x: int): Int64 {
    (x + TWO_63) % TWO_64 - TWO_63
  }

  function Abs(x: int): nat {
    if x < 0 then -x else x
  }

  /** Go's `/`, which rounds toward zero. */
  function TruncDiv(a: int, b: int): int
    requires b > 0
  {
    if a >= 0 then a / b else -((-a) / b)
  }

  /** `InWindow`, with the clock as a parameter: one subtraction, one sign flip. */
  method InWindow(now: Int64, ts: Int64, skewSeconds: Int64) returns (ok: bool)
    ensures ok == Within(now, ts, skewSeconds)
    ensures 0 <= now <= 0x4000_0000_0000_0000 && 0 <= skewSeconds < 0x4000_0000_0000_0000 ==>
      (ok <==> -skewSeconds <= now - ts <= skewSeconds || now - ts == 0x8000_0000_0000_0000)
  {
    var diff: int := Wrap(now - ts);
    if diff < 0 {
      diff := Wrap(-diff);
    }
    ok := diff <= skewSeconds;
    if 0 <= now <= TWO_63 / 2 && 0 <= skewSeconds < TWO_63 / 2 {
      WithinIsDistance(now, ts, skewSeconds);
    }
  }

  predicate Within(now: Int64, ts: Int64, skewSeconds: Int64) {
    var diff: int := Wrap(now - ts);
    (if diff < 0 then Wrap(-diff) else diff) <= skewSeconds
  }

  lemma WrapIsCongruent(x: int)
    ensures exists k: int :: Wrap(x) == x + k * TWO_64
    ensures -TWO_63 <= x < TWO_63 ==> Wrap(x) == x
  {
    var k := -((x + TWO_63) / TWO_64);
    assert Wrap(x) == x + k * TWO_64;
  }

  /** For any second a client may send and any clock up to 2^62, the check is the distance
      to the clock, except where the difference is 2^63: that one counts as close. */
  lemma WithinIsDistance(now: Int64, ts: Int64, skewSeconds: Int64)
    requires 0 <= now <= TWO_63 / 2 && 0 <= skewSeconds < TWO_63 / 2
    ensures Within(now, ts, skewSeconds) <==> Abs(now - ts) <= skewSeconds || now - ts == TWO_63
  {
    if now - ts < TWO_63 {
      WrapIsCongruent(now - ts);
      WrapIsCongruent(-(now - ts));
    } else if now - ts == TWO_63 {
      assert Wrap(TWO_63) == -TWO_63;
    } else {
      assert Wrap(now - ts) == now - ts - TWO_64;
      WrapIsCongruent(TWO_64 - (now - ts));
    }
  }

  lemma TruncDivBounds(a: Int64)
    ensures var q := TruncDiv(a, 1000);
      && -TWO_63 / 1000 <= q <= TWO_63 / 1000
      && 1000 * Abs(q) <= Abs(a) < 1000 * Abs(q) + 1000
  {
  }

  /** The callers send milliseconds divided by 1000, so nothing overflows and the check is
      exactly the distance in seconds. */
  lemma MillisecondsNeverOverflow(now: Int64, tsMs: Int64, skewSeconds: Int64)
    requires 0 <= now <= TWO_63 / 2 && 0 <= skewSeconds < TWO_63 / 2
    ensures var ts := TruncDiv(tsMs, 1000);
      && -TWO_63 <= ts < TWO_63 && -TWO_63 < now - ts < TWO_63
      && (Within(now, ts, skewSeconds) <==> Abs(now - ts) <= skewSeconds)
  {
    TruncDivBounds(tsMs);
    WithinIsDistance(now, TruncDiv(tsMs, 1000), skewSeconds);
  }
}
