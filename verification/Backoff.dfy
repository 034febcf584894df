/** Exponential backoff with bounded jitter and a cap. */
module Backoff {

  const CAP: nat := 15 * 60 * 1000

  function Pow2(n: nat): nat {
    if n == 0 then 1 else 2 * Pow2(n - 1)
  }

  function Raw(base: nat, retryCount: int): nat {
    base * Pow2(if retryCount > 0 then retryCount else 0)
  }

  /** A fifth of the raw delay, but at most two seconds. */
  function Spread(raw: nat): real {
    if raw as real * 0.2 <= 2000.0 then raw as real * 0.2 else 2000.0
  }

  /** `draw` is a random number in [0, 1). */
  predicate IsDraw(draw: real) {
    0.0 <= draw < 1.0
  }

  function Scaled(draw: real, most: real): (x: real)
    requires IsDraw(draw) && most >= 0.0
    ensures 0.0 <= x <= most && (most > 0.0 ==> x < most)
  {
    Shrink(draw, most);
    draw * most
  }

  lemma Shrink(draw: real, most: real)
    requires IsDraw(draw) && most >= 0.0
    ensures 0.0 <= draw * most <= most && (most > 0.0 ==> draw * most < most)
  {
    var rest := 1.0 - draw;
    assert rest * most == most - draw * most;
    assert draw * most >= 0.0 && rest * most >= 0.0 && (most > 0.0 ==> rest * most > 0.0);
  }

  function Jitter(raw: nat, draw: real): int
    requires IsDraw(draw)
  {
    Scaled(draw, Spread(raw)).Floor
  }

  function DelayMs(base: nat, retryCount: int, draw: real): int
    requires IsDraw(draw)
  {
    var delay := Raw(base, retryCount) + Jitter(Raw(base, retryCount), draw);
    if delay <= CAP then delay else CAP
  }

  /** The jitter is never negative, never above a fifth of the raw delay, and below two seconds. */
  lemma JitterBounds(raw: nat, draw: real)
    requires IsDraw(draw)
    ensures 0 <= 5 * Jitter(raw, draw) <= raw && Jitter(raw, draw) < 2000
  {
    SpreadBounds(raw);
    FloorBounds(Scaled(draw, Spread(raw)), Spread(raw), raw);
  }

  lemma SpreadBounds(raw: nat)
    ensures 0.0 <= Spread(raw) <= 2000.0 && 5.0 * Spread(raw) <= raw as real
  {
  }

  lemma FloorBounds(x: real, most: real, raw: nat)
    requires 0.0 <= x <= most <= 2000.0 && 5.0 * most <= raw as real && (most > 0.0 ==> x < most)
    ensures 0 <= 5 * x.Floor <= raw && x.Floor < 2000
  {
    assert x.Floor as real <= x;
    assert (5 * x.Floor) as real == 5.0 * (x.Floor as real);
  }

  /** The jitter is the whole part of the drawn share of a fifth of the raw delay, or of two seconds if that is less. */
  lemma JitterIsFloor(raw: nat, draw: real)
    requires IsDraw(draw)
    ensures var most := if raw <= 10000 then raw as real / 5.0 else 2000.0;
            Jitter(raw, draw) as real <= draw * most < Jitter(raw, draw) as real + 1.0
  {
    assert Spread(raw) == if raw <= 10000 then raw as real / 5.0 else 2000.0;
  }

  /** A delay of retry n under the draw: raw is base * 2^n, and the delay is the whole part of raw and the drawn share
      of a fifth of it, or of two seconds if that is less; but at most fifteen minutes. */
  predicate IsDelay(delay: int, base: nat, n: nat, draw: real) {
    var raw := base * Pow2(n);
    var share := draw * if raw <= 10000 then raw as real / 5.0 else 2000.0;
    && (if raw <= 900000 then raw else 900000) <= delay <= 900000 && 5 * delay <= 6 * raw
    && (delay < 900000 ==> (delay - raw) as real <= share < (delay - raw) as real + 1.0)
    && (delay == 900000 ==> raw as real + share >= 900000.0)
  }

  lemma DelayIsExact(base: nat, n: nat, draw: real)
    requires base >= 1 && IsDraw(draw)
    ensures IsDelay(DelayMs(base, n, draw), base, n, draw)
  {
    DelayBounds(base, n, draw);
    JitterIsFloor(Raw(base, n), draw);
  }

  lemma Pow2Step(base: nat, n: int)
    requires base >= 1
    ensures Raw(base, n) >= 1
    ensures n >= 0 ==> Raw(base, n + 1) == 2 * Raw(base, n)
    ensures n < 0 ==> Raw(base, n + 1) == Raw(base, n) == base
  {
    Pow2Positive(if n > 0 then n else 0);
  }

  lemma {:induction false} Pow2Positive(n: nat)
    ensures Pow2(n) >= 1
  {
    if n > 0 { Pow2Positive(n - 1); }
  }

  /** The delay lies between the capped raw delay and the cap, and is raised by at most a fifth. */
  lemma DelayBounds(base: nat, n: int, draw: real)
    requires base >= 1 && IsDraw(draw)
    ensures (if Raw(base, n) <= CAP then Raw(base, n) else CAP) <= DelayMs(base, n, draw) <= CAP
    ensures 5 * DelayMs(base, n, draw) <= 6 * Raw(base, n)
  {
    JitterBounds(Raw(base, n), draw);
  }

  /** Whatever the draws, a later retry never waits less than an earlier one, and waits strictly longer
      while the earlier one is below the cap. */
  lemma DelaysGrow(base: nat, n: nat, draw: real, next: real)
    requires base >= 1 && IsDraw(draw) && IsDraw(next)
    ensures DelayMs(base, n, draw) <= DelayMs(base, n + 1, next)
    ensures DelayMs(base, n, draw) < CAP ==> DelayMs(base, n, draw) < DelayMs(base, n + 1, next)
  {
    Pow2Step(base, n);
    JitterBounds(Raw(base, n), draw);
    JitterBounds(Raw(base, n + 1), next);
  }

  /** Total wait of retries 1, 2, ..., |draws|, one draw each. */
  function TotalWait(base: nat, draws: seq<real>): int
    requires forall k | 0 <= k < |draws| :: IsDraw(draws[k])
  {
    if draws == [] then 0
    else TotalWait(base, draws[..|draws| - 1]) + DelayMs(base, |draws|, draws[|draws| - 1])
  }

  /** A payment retried one at a time, 1 .. MAX - 1, waits in total at most six fifths of
      base * (2^MAX - 2), and at most MAX - 1 caps. */
  lemma {:induction false} TotalWaitBound(base: nat, draws: seq<real>)
    requires base >= 1 && forall k | 0 <= k < |draws| :: IsDraw(draws[k])
    ensures 5 * TotalWait(base, draws) <= 6 * (Raw(base, |draws| + 1) - 2 * base)
    ensures TotalWait(base, draws) <= |draws| * CAP
    decreases |draws|
  {
    var n := |draws|;
    if n == 0 {
      Pow2Step(base, 0);
      assert Raw(base, 0) == base;
    } else {
      TotalWaitBound(base, draws[..n - 1]);
      DelayBounds(base, n, draws[n - 1]);
      Pow2Step(base, n);
      OneMoreWait(TotalWait(base, draws[..n - 1]), DelayMs(base, n, draws[n - 1]), Raw(base, n), base, n);
    }
  }

  lemma OneMoreWait(total: int, delay: int, raw: int, base: int, n: nat)
    requires 5 * total <= 6 * (raw - 2 * base) && 5 * delay <= 6 * raw && delay <= CAP
    requires n >= 1 && total <= (n - 1) * CAP
    ensures 5 * (total + delay) <= 6 * (2 * raw - 2 * base) && total + delay <= n * CAP
  {
  }
}
