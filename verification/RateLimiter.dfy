/** The sliding-window rate limiter: a pruned, expiring sorted set against the full log of accepted
    timestamps, both for calls one after another and for calls that interleave between check and add. */
module RateLimiter {
  import opened Domain

  /** The scores above a bound, oldest insertion first. */
  function Above(s: seq<Instant>, lo: int): seq<Instant> {
    if s == [] then []
    else Above(s[..|s| - 1], lo) + if s[|s| - 1] > lo then [s[|s| - 1]] else []
  }

  lemma AboveAppend(s: seq<Instant>, x: Instant, lo: int)
    ensures Above(s + [x], lo) == Above(s, lo) + if x > lo then [x] else []
  {
    assert (s + [x])[..|s|] == s;
  }

  predicate AtMost(s: seq<Instant>, b: int) {
    forall i | 0 <= i < |s| :: s[i] <= b
  }

  /** A bound below every score prunes nothing, one no lower than every score prunes all. */
  lemma {:induction false} AboveExtremes(s: seq<Instant>, lo: int)
    ensures (forall i | 0 <= i < |s| :: s[i] > lo) ==> Above(s, lo) == s
    ensures AtMost(s, lo) ==> Above(s, lo) == []
  {
    if s != [] {
      var n := |s| - 1;
      AboveExtremes(s[..n], lo);
      assert s == s[..n] + [s[n]];
    }
  }

  lemma {:induction false} AboveMembers(s: seq<Instant>, lo: int)
    ensures forall i | 0 <= i < |Above(s, lo)| :: Above(s, lo)[i] > lo && Above(s, lo)[i] in s
  {
    if s != [] {
      AboveMembers(s[..|s| - 1], lo);
    }
  }

  lemma {:induction false} AboveBounded(s: seq<Instant>, lo: int, b: int)
    requires AtMost(s, b)
    ensures AtMost(Above(s, lo), b)
  {
    if s != [] {
      AboveBounded(s[..|s| - 1], lo, b);
    }
  }

  /** Pruning first with a lower bound loses nothing above the higher one. */
  lemma {:induction false} AboveAbove(s: seq<Instant>, lo: int, hi: int)
    requires lo <= hi
    ensures Above(Above(s, lo), hi) == Above(s, hi) && |Above(s, hi)| <= |Above(s, lo)|
  {
    if s != [] {
      var n := |s| - 1;
      AboveAbove(s[..n], lo, hi);
      if s[n] > lo {
        AboveAppend(Above(s[..n], lo), s[n], hi);
      } else {
        assert Above(s, lo) == Above(s[..n], lo) && Above(s, hi) == Above(s[..n], hi);
      }
    }
  }

  /** Raising the bound past some score drops at least one. */
  lemma {:induction false} AboveDrops(s: seq<Instant>, lo: int, hi: int, i: nat)
    requires i < |s| && lo < s[i] <= hi
    ensures |Above(s, hi)| < |Above(s, lo)|
    decreases |s|
  {
    var n := |s| - 1;
    AboveAbove(s[..n], lo, hi);
    if i < n {
      AboveDrops(s[..n], lo, hi, i);
    }
  }

  function Oldest(s: seq<Instant>): Instant
    requires s != []
  {
    if |s| == 1 then s[0]
    else if s[|s| - 1] < Oldest(s[..|s| - 1]) then s[|s| - 1] else Oldest(s[..|s| - 1])
  }

  lemma {:induction false} OldestIsLeast(s: seq<Instant>)
    requires s != []
    ensures exists i :: 0 <= i < |s| && s[i] == Oldest(s)
    ensures forall i | 0 <= i < |s| :: Oldest(s) <= s[i]
  {
    var n := |s| - 1;
    assert n == 0 ==> s[0] == Oldest(s);
    if n > 0 {
      OldestIsLeast(s[..n]);
      var i :| 0 <= i < n && s[..n][i] == Oldest(s[..n]);
      assert s[i] == Oldest(s[..n]);
      forall k | 0 <= k < |s| ensures Oldest(s) <= s[k] {
        if k < n { assert s[..n][k] == s[k]; }
      }
    }
  }

  /** A Redis sorted set with an optional expiry. Each call adds its own member, so scores may repeat. */
  datatype Key = Key(scores: seq<Instant>, expireAt: Option<Instant>)

  function NoKey(): Key {
    Key([], None)
  }

  /** From its expiry on the key is gone. */
  function Live(k: Key, now: Instant): Key {
    if k.expireAt.Some? && now >= k.expireAt.value then NoKey() else k
  }

  function Pruned(k: Key, w: nat, now: Instant): Key {
    Key(Above(Live(k, now).scores, now - w), Live(k, now).expireAt)
  }

  /** `zadd` and `pexpire`, taken together. */
  function Added(k: Key, w: nat, stamp: Instant, now: Instant): Key {
    Key(Live(k, now).scores + [stamp], Some(now + w + 1000))
  }

  /** Everything in the key was added at least w + 1000 before it expires. */
  predicate Fits(k: Key, w: nat, now: Instant) {
    && AtMost(k.scores, now)
    && (k.scores != [] ==> k.expireAt.Some? && AtMost(k.scores, k.expireAt.value - w - 1000))
  }

  /** The key's expiry never drops a score still in the window. */
  lemma ExpiryIsHarmless(k: Key, w: nat, was: Instant, now: Instant, lo: int)
    requires Fits(k, w, was) && was <= now && lo >= now - w
    ensures Above(Live(k, now).scores, lo) == Above(k.scores, lo)
  {
    AboveExtremes(k.scores, lo);
  }

  lemma PrunedFits(k: Key, w: nat, was: Instant, now: Instant)
    requires Fits(k, w, was) && was <= now
    ensures Fits(Live(k, now), w, now) && Fits(Pruned(k, w, now), w, now)
    ensures Live(Pruned(k, w, now), now) == Pruned(k, w, now)
  {
    AboveBounded(Live(k, now).scores, now - w, now);
    if Live(k, now).scores != [] {
      AboveBounded(Live(k, now).scores, now - w, k.expireAt.value - w - 1000);
    }
  }

  lemma AddedFits(k: Key, w: nat, was: Instant, stamp: Instant, now: Instant)
    requires Fits(k, w, was) && was <= now && stamp <= now
    ensures Fits(Added(k, w, stamp, now), w, now)
  {
  }

  ghost predicate ForgottenFrom(k: Key, at: Instant) {
    forall t: Instant :: Live(k, t) == NoKey() <==> t >= at
  }

  /** An idle key is forgotten one second after its last entry has left the window, and not before. */
  lemma AddedExpires(k: Key, w: nat, now: Instant)
    ensures ForgottenFrom(Added(k, w, now, now), now + w + 1000)
  {
  }

  lemma NoWaitOnEmptyKey(w: nat, now: Instant)
    ensures RetryAfter([], w, now) == 0
  {
  }

  /** What a call leaves when it is allowed. */
  lemma AllowedKey(k: Key, log: seq<Instant>, w: nat, now: Instant)
    requires w >= 1 && Live(k, now) == k && k.scores == Above(log, now - w)
    ensures Added(k, w, now, now).scores == Above(log + [now], now - w) && Added(k, w, now, now).scores != []
    ensures ForgottenFrom(Added(k, w, now, now), now + w + 1000)
  {
    AddedExpires(k, w, now);
    AboveAppend(log, now, now - w);
  }

  // ---- One call after another -------------------------------------------------------------

  /** A call at `t` would be admitted, by the log alone. */
  predicate Admits(log: seq<Instant>, max: int, w: nat, t: int) {
    |Above(log, t - w)| < max
  }

  /** The wait until the oldest score leaves the window; an empty key is taken to be about to. */
  function RetryAfter(scores: seq<Instant>, w: nat, now: Instant): nat {
    var oldest := if scores != [] then Oldest(scores) else now - w;
    var wait := oldest + w - now;
    if wait > 0 then wait else 0
  }

  /** A wait in (0, w], and exactly the one after which a call is admitted if nothing else arrives. */
  ghost predicate IsHint(log: seq<Instant>, max: int, w: nat, now: Instant, hint: int) {
    0 < hint <= w && forall t: int | t >= now :: Admits(log, max, w, t) <==> t >= now + hint
  }

  class SlidingWindow {
    const max: int
    const windowMs: nat
    var key: Key
    /** Timestamps of all accepted calls, and of the latest call. */
    ghost var log: seq<Instant>
    ghost var clock: Instant

    ghost predicate Valid()
      reads this
    {
      windowMs >= 1 && Consistent(key, log, max, windowMs, clock)
    }

    constructor (max: int, windowMs: nat)
      requires windowMs >= 1
      ensures Valid() && log == [] && this.max == max && this.windowMs == windowMs
    {
      this.max, this.windowMs := max, windowMs;
      key, log, clock := NoKey(), [], 0;
    }

    /** The call is allowed exactly when fewer than `max` calls were accepted in the window ending now.
        A rejected caller's hint is in (0, windowMs] and is exactly the wait after which a call would be
        admitted if nothing else arrives. */
    method Allow(now: Instant) returns (allowed: bool, retryAfterMs: nat)
      requires Valid() && clock <= now
      modifies this
      ensures Valid() && clock == now
      ensures allowed <==> Admits(old(log), max, windowMs, now)
      ensures log == if allowed then old(log) + [now] else old(log)
      ensures !allowed && max >= 1 ==> IsHint(log, max, windowMs, now, retryAfterMs)
      ensures key.scores == Above(log, now - windowMs)
      ensures key.scores == [] ==> retryAfterMs == 0
      ensures allowed ==> ForgottenFrom(key, now + windowMs + 1000)
    {
      CallIsRight(key, log, max, windowMs, clock, now);
      PrunedFits(key, windowMs, clock, now);
      NoWaitOnEmptyKey(windowMs, now);
      key := Pruned(key, windowMs, now);
      clock := now;
      if |key.scores| >= max {
        return false, RetryAfter(key.scores, windowMs, now);
      }
      AllowedKey(key, log, windowMs, now);
      key := Added(key, windowMs, now, now);
      log := log + [now];
      return true, 0;
    }
  }

  /** Both outcomes of a call, by the key it finds after pruning. */
  lemma CallIsRight(k: Key, log: seq<Instant>, max: int, w: nat, was: Instant, now: Instant)
    requires w >= 1 && Consistent(k, log, max, w, was) && was <= now
    ensures var p := Pruned(k, w, now);
            && p.scores == Above(log, now - w)
            && (|p.scores| < max <==> Admits(log, max, w, now))
            && (|p.scores| < max ==> Consistent(Added(p, w, now, now), log + [now], max, w, now))
            && (|p.scores| >= max ==> Consistent(p, log, max, w, now))
            && (|p.scores| >= max >= 1 ==> IsHint(log, max, w, now, RetryAfter(p.scores, w, now)))
  {
    PruneKeeps(k, log, max, w, was, now);
    var p := Pruned(k, w, now);
    if |p.scores| < max {
      AcceptKeeps(p, log, max, w, now);
    } else if max >= 1 {
      FullWindow(p, log, max, w, now);
    }
  }

  /** What the key still holds is the log's recent part; the log never had too many in a window. */
  ghost predicate Consistent(k: Key, log: seq<Instant>, max: int, w: nat, clock: Instant) {
    && Fits(k, w, clock)
    && AtMost(log, clock)
    && Recent(k, log, w, clock)
    && Spaced(log, w, if max >= 1 then max else 0)
  }

  lemma PruneKeeps(k: Key, log: seq<Instant>, max: int, w: nat, was: Instant, now: Instant)
    requires Consistent(k, log, max, w, was) && was <= now
    ensures Consistent(Pruned(k, w, now), log, max, w, now)
    ensures Pruned(k, w, now).scores == Above(log, now - w) && Live(Pruned(k, w, now), now) == Pruned(k, w, now)
  {
    PrunedIsRecent(k, log, w, was, now);
    PrunedFits(k, w, was, now);
  }

  lemma AcceptKeeps(k: Key, log: seq<Instant>, max: int, w: nat, now: Instant)
    requires Consistent(k, log, max, w, now) && w >= 1
    requires k.scores == Above(log, now - w) && Live(k, now) == k && |k.scores| < max
    ensures Consistent(Added(k, w, now, now), log + [now], max, w, now)
  {
    SpacedExtends(log, w, max, now);
    AddedIsRecent(k, log, w, now);
    AddedFits(k, w, now, now, now);
  }

  lemma FullWindow(k: Key, log: seq<Instant>, max: nat, w: nat, now: Instant)
    requires Consistent(k, log, max, w, now) && w >= 1 && max >= 1
    requires k.scores == Above(log, now - w) && |k.scores| >= max
    ensures IsHint(log, max, w, now, RetryAfter(k.scores, w, now))
  {
    SpacedNow(log, w, max, now);
    HintIsExact(log, max, w, now);
  }

  /** The key and the log agree on everything in the current window. */
  ghost predicate Recent(k: Key, log: seq<Instant>, w: nat, now: Instant) {
    forall lo: int | lo >= now - w :: AgreeAbove(k.scores, log, lo)
  }

  predicate AgreeAbove(a: seq<Instant>, b: seq<Instant>, lo: int) {
    Above(a, lo) == Above(b, lo)
  }

  lemma PrunedIsRecent(k: Key, log: seq<Instant>, w: nat, was: Instant, now: Instant)
    requires Fits(k, w, was) && was <= now && Recent(k, log, w, was)
    ensures Pruned(k, w, now).scores == Above(log, now - w) && Recent(Pruned(k, w, now), log, w, now)
  {
    PrunedScores(k, log, w, was, now);
    AboveIsRecent(log, now - w);
  }

  lemma PrunedScores(k: Key, log: seq<Instant>, w: nat, was: Instant, now: Instant)
    requires Fits(k, w, was) && was <= now && AgreeAbove(k.scores, log, now - w)
    ensures Pruned(k, w, now).scores == Above(log, now - w)
  {
    ExpiryIsHarmless(k, w, was, now, now - w);
  }

  lemma AboveIsRecent(log: seq<Instant>, cut: int)
    ensures forall lo: int | lo >= cut :: AgreeAbove(Above(log, cut), log, lo)
  {
    forall lo: int | lo >= cut ensures AgreeAbove(Above(log, cut), log, lo) {
      AboveAbove(log, cut, lo);
    }
  }

  lemma AddedIsRecent(k: Key, log: seq<Instant>, w: nat, now: Instant)
    requires Recent(k, log, w, now) && Live(k, now) == k
    ensures Recent(Added(k, w, now, now), log + [now], w, now)
  {
    forall lo: int | lo >= now - w ensures AgreeAbove(k.scores + [now], log + [now], lo) {
      assert AgreeAbove(k.scores, log, lo);
      AboveAppend(log, now, lo);
      AboveAppend(k.scores, now, lo);
    }
  }

  /** Counting back one window from each entry of the log, itself included, gives at most `bound`. */
  ghost predicate Spaced(log: seq<Instant>, w: nat, bound: nat) {
    forall n | 0 <= n < |log| :: SpacedAt(log, w, bound, n)
  }

  predicate SpacedAt(log: seq<Instant>, w: nat, bound: nat, n: nat)
    requires n < |log|
  {
    |Above(log[..n + 1], log[n] - w)| <= bound
  }

  lemma SpacedExtends(log: seq<Instant>, w: nat, bound: nat, now: Instant)
    requires Spaced(log, w, bound) && |Above(log, now - w)| + 1 <= bound
    ensures Spaced(log + [now], w, bound)
  {
    var all := log + [now];
    forall n | 0 <= n < |all| ensures SpacedAt(all, w, bound, n) {
      if n < |log| {
        assert SpacedAt(log, w, bound, n);
        assert all[..n + 1] == log[..n + 1];
      } else {
        assert all[..n + 1] == all;
        AboveAppend(log, now, now - w);
      }
    }
  }

  /** At any instant no earlier than the last entry, the window ending there is within the bound. */
  lemma SpacedNow(log: seq<Instant>, w: nat, bound: nat, now: int)
    requires Spaced(log, w, bound) && AtMost(log, now)
    ensures |Above(log, now - w)| <= bound
  {
    if log != [] {
      var n := |log| - 1;
      assert SpacedAt(log, w, bound, n);
      assert log[..n + 1] == log;
      AboveAbove(log, log[n] - w, now - w);
    }
  }

  /** With the window exactly full, the oldest entry leaving it is what lets the next call in. */
  lemma HintIsExact(log: seq<Instant>, max: nat, w: nat, now: Instant)
    requires max >= 1 && w >= 1 && |Above(log, now - w)| == max && AtMost(log, now)
    ensures IsHint(log, max, w, now, Oldest(Above(log, now - w)) + w - now)
  {
    var recent := Above(log, now - w);
    OldestInWindow(log, w, now);
    forall t: int | t >= now ensures Admits(log, max, w, t) <==> t >= Oldest(recent) + w {
      AdmitsFrom(log, max, w, now, t);
    }
  }

  lemma OldestInWindow(log: seq<Instant>, w: nat, now: Instant)
    requires Above(log, now - w) != [] && AtMost(log, now)
    ensures now - w < Oldest(Above(log, now - w)) <= now
  {
    OldestIsLeast(Above(log, now - w));
    AboveMembers(log, now - w);
    AboveBounded(log, now - w, now);
  }

  lemma AdmitsFrom(log: seq<Instant>, max: nat, w: nat, now: Instant, t: int)
    requires max >= 1 && |Above(log, now - w)| == max && t >= now
    ensures Admits(log, max, w, t) <==> t >= Oldest(Above(log, now - w)) + w
  {
    AboveAbove(log, now - w, t - w);
    StillFull(Above(log, now - w), Above(log, t - w), t - w);
  }

  lemma StillFull(recent: seq<Instant>, rest: seq<Instant>, lo: int)
    requires recent != [] && rest == Above(recent, lo)
    ensures |rest| < |recent| <==> lo >= Oldest(recent)
  {
    FullUntilOldestLeaves(recent, lo);
  }

  lemma FullUntilOldestLeaves(recent: seq<Instant>, lo: int)
    requires recent != []
    ensures |Above(recent, lo)| < |recent| <==> lo >= Oldest(recent)
  {
    OldestIsLeast(recent);
    if lo >= Oldest(recent) {
      var i :| 0 <= i < |recent| && recent[i] == Oldest(recent);
      AboveExtremes(recent, -1);
      AboveDrops(recent, -1, lo, i);
    } else {
      AboveExtremes(recent, lo);
    }
  }

  // ---- Windows ----------------------------------------------------------------------------

  /** Entries in (t - w, t]. */
  function InWindow(log: seq<Instant>, w: nat, t: int): nat {
    if log == [] then 0
    else InWindow(log[..|log| - 1], w, t) + if t - w < log[|log| - 1] <= t then 1 else 0
  }

  ghost predicate Ascending(log: seq<Instant>) {
    forall i, j | 0 <= i < j < |log| :: log[i] <= log[j]
  }

  lemma {:induction false} InWindowIsAbove(log: seq<Instant>, w: nat, t: int)
    requires AtMost(log, t)
    ensures InWindow(log, w, t) == |Above(log, t - w)|
  {
    if log != [] {
      var n := |log| - 1;
      InWindowIsAbove(log[..n], w, t);
    }
  }

  lemma SpacedPrefix(log: seq<Instant>, w: nat, bound: nat, n: nat)
    requires Spaced(log, w, bound) && n <= |log|
    ensures Spaced(log[..n], w, bound)
  {
    forall m | 0 <= m < n ensures SpacedAt(log[..n], w, bound, m) {
      assert SpacedAt(log, w, bound, m);
      assert log[..n][..m + 1] == log[..m + 1];
    }
  }

  lemma AscendingAtMost(log: seq<Instant>, t: int)
    requires Ascending(log) && log != [] && log[|log| - 1] <= t
    ensures AtMost(log, t)
  {
  }

  /** A well-spaced ascending log has at most `bound` entries in every interval (t - w, t]. */
  lemma {:induction false} EveryWindowIsBounded(log: seq<Instant>, w: nat, bound: nat, t: int)
    requires Ascending(log) && Spaced(log, w, bound)
    ensures InWindow(log, w, t) <= bound
    decreases |log|
  {
    if log != [] {
      var n := |log| - 1;
      if log[n] > t {
        SpacedPrefix(log, w, bound, n);
        EveryWindowIsBounded(log[..n], w, bound, t);
      } else {
        AscendingAtMost(log, t);
        InWindowIsAbove(log, w, t);
        SpacedNow(log, w, bound, t);
      }
    }
  }

  // ---- Calls that interleave --------------------------------------------------------------

  /** `passed` lists the timestamps of all calls that passed their check, in check order; `adding` those
      that have not added their entry yet. */
  datatype Traffic = Traffic(key: Key, adding: seq<Instant>, passed: seq<Instant>, clock: Instant)

  datatype Event = Check(at: Instant) | Add(call: nat, at: Instant)

  function Without(s: seq<Instant>, i: nat): seq<Instant>
    requires i < |s|
  {
    s[..i] + s[i + 1..]
  }

  function After(s: Traffic, max: int, w: nat, e: Event): Traffic {
    match e
    case Check(at) =>
      var k := Pruned(s.key, w, at);
      if |k.scores| >= max then Traffic(k, s.adding, s.passed, at)
      else Traffic(k, s.adding + [at], s.passed + [at], at)
    case Add(i, at) =>
      if i < |s.adding| then Traffic(Added(s.key, w, s.adding[i], at), Without(s.adding, i), s.passed, at) else s
  }

  function Run(max: int, w: nat, events: seq<Event>): Traffic {
    if events == [] then Traffic(NoKey(), [], [], 0)
    else After(Run(max, w, events[..|events| - 1]), max, w, events[|events| - 1])
  }

  /** The clock does not go back and at most `c` calls are between check and add at any time. */
  ghost predicate Orderly(max: int, w: nat, c: nat, events: seq<Event>) {
    && (forall i, j | 0 <= i < j < |events| :: events[i].at <= events[j].at)
    && (forall n | 0 <= n <= |events| :: |Run(max, w, events[..n]).adding| <= c)
  }

  function Bound(max: int, c: nat): nat {
    if max >= 1 && c >= 1 then max + c - 1 else 0
  }

  lemma {:induction false} AboveConcat(a: seq<Instant>, b: seq<Instant>, lo: int)
    ensures Above(a + b, lo) == Above(a, lo) + Above(b, lo)
    decreases |b|
  {
    if b == [] {
      assert a + b == a;
    } else {
      var n := |b| - 1;
      assert (a + b)[..|a + b| - 1] == a + b[..n];
      AboveConcat(a, b[..n], lo);
    }
  }

  lemma AboveWithout(s: seq<Instant>, i: nat, lo: int)
    requires i < |s|
    ensures |Above(s, lo)| == |Above(Without(s, i), lo)| + if s[i] > lo then 1 else 0
  {
    AboveConcat(s[..i], s[i..], lo);
    AboveConcat([s[i]], s[i + 1..], lo);
    AboveConcat(s[..i], s[i + 1..], lo);
    assert s == s[..i] + s[i..] && s[i..] == [s[i]] + s[i + 1..];
    assert [s[i]] == [] + [s[i]];
    AboveAppend([], s[i], lo);
  }

  /** Every recent pass is either in the key or about to be added. */
  ghost predicate TrafficInv(s: Traffic, w: nat, bound: nat) {
    && Fits(s.key, w, s.clock)
    && AtMost(s.adding, s.clock)
    && AtMost(s.passed, s.clock)
    && Ascending(s.passed)
    && Spaced(s.passed, w, bound)
    && forall lo: int | lo >= s.clock - w :: Accounted(s, lo)
  }

  predicate Accounted(s: Traffic, lo: int) {
    |Above(s.passed, lo)| == |Above(s.key.scores, lo)| + |Above(s.adding, lo)|
  }

  lemma CheckKeeps(s: Traffic, max: int, w: nat, c: nat, at: Instant)
    requires TrafficInv(s, w, Bound(max, c)) && s.clock <= at && |After(s, max, w, Check(at)).adding| <= c
    ensures TrafficInv(After(s, max, w, Check(at)), w, Bound(max, c))
  {
    var k := Pruned(s.key, w, at);
    PrunedFits(s.key, w, s.clock, at);
    forall lo: int | lo >= at - w ensures Accounted(Traffic(k, s.adding, s.passed, at), lo) {
      assert Accounted(s, lo);
      ExpiryIsHarmless(s.key, w, s.clock, at, lo);
      AboveAbove(Live(s.key, at).scores, at - w, lo);
    }
    if |k.scores| < max {
      CheckPasses(Traffic(k, s.adding, s.passed, at), max, w, c);
    }
  }

  lemma CheckPasses(s: Traffic, max: int, w: nat, c: nat)
    requires TrafficInv(s, w, Bound(max, c)) && |s.key.scores| < max && |s.adding| + 1 <= c
    ensures TrafficInv(s.(adding := s.adding + [s.clock], passed := s.passed + [s.clock]), w, Bound(max, c))
  {
    var at := s.clock;
    var after := s.(adding := s.adding + [at], passed := s.passed + [at]);
    forall lo: int | lo >= at - w ensures Accounted(after, lo) {
      assert Accounted(s, lo);
      AboveAppend(s.passed, at, lo);
      AboveAppend(s.adding, at, lo);
    }
    assert Accounted(s, at - w);
    AboveShorter(s.key.scores, at - w);
    AboveShorter(s.adding, at - w);
    SpacedExtends(s.passed, w, Bound(max, c), at);
  }

  lemma {:induction false} AboveShorter(s: seq<Instant>, lo: int)
    ensures |Above(s, lo)| <= |s|
  {
    if s != [] { AboveShorter(s[..|s| - 1], lo); }
  }

  lemma AddKeeps(s: Traffic, max: int, w: nat, bound: nat, i: nat, at: Instant)
    requires TrafficInv(s, w, bound) && s.clock <= at && i < |s.adding|
    ensures TrafficInv(After(s, max, w, Add(i, at)), w, bound)
  {
    var after := After(s, max, w, Add(i, at));
    AddedFits(s.key, w, s.clock, s.adding[i], at);
    forall lo: int | lo >= at - w ensures Accounted(after, lo) {
      assert Accounted(s, lo);
      ExpiryIsHarmless(s.key, w, s.clock, at, lo);
      AboveAppend(Live(s.key, at).scores, s.adding[i], lo);
      AboveWithout(s.adding, i, lo);
    }
  }

  lemma OrderlyPrefix(max: int, w: nat, c: nat, events: seq<Event>)
    requires events != [] && Orderly(max, w, c, events)
    ensures Orderly(max, w, c, events[..|events| - 1]) && |Run(max, w, events).adding| <= c
  {
    var n := |events| - 1;
    forall m | 0 <= m <= n ensures |Run(max, w, events[..n][..m]).adding| <= c {
      assert events[..n][..m] == events[..m];
    }
    assert events[..|events|] == events;
  }

  lemma EventKeeps(s: Traffic, max: int, w: nat, c: nat, e: Event)
    requires TrafficInv(s, w, Bound(max, c)) && s.clock <= e.at && |After(s, max, w, e).adding| <= c
    ensures TrafficInv(After(s, max, w, e), w, Bound(max, c)) && After(s, max, w, e).clock <= e.at
  {
    match e
    case Check(at) => CheckKeeps(s, max, w, c, at);
    case Add(i, at) => if i < |s.adding| { AddKeeps(s, max, w, Bound(max, c), i, at); }
  }

  lemma {:induction false} RunKeeps(max: int, w: nat, c: nat, events: seq<Event>)
    requires Orderly(max, w, c, events)
    ensures TrafficInv(Run(max, w, events), w, Bound(max, c))
    ensures Run(max, w, events).clock <= if events == [] then 0 else events[|events| - 1].at
    decreases |events|
  {
    if events != [] {
      var n := |events| - 1;
      OrderlyPrefix(max, w, c, events);
      RunKeeps(max, w, c, events[..n]);
      assert n > 0 ==> events[..n][n - 1].at <= events[n].at;
      EventKeeps(Run(max, w, events[..n]), max, w, c, events[n]);
    }
  }

  /** A call passes its check exactly when fewer than `max` of the passes in its window have added their entry; one
      that passes is recorded, and one that does not changes nothing but the pruned key. */
  predicate ChecksRightly(s: Traffic, max: int, w: nat, at: Instant) {
    var t := After(s, max, w, Check(at));
    var passes := |Above(s.passed, at - w)| - |Above(s.adding, at - w)| < max;
    && t.passed == (if passes then s.passed + [at] else s.passed)
    && t.adding == (if passes then s.adding + [at] else s.adding)
    && t.key.scores == Above(s.key.scores, at - w)
  }

  lemma CheckPassesAt(s: Traffic, max: int, w: nat, bound: nat, at: Instant)
    requires TrafficInv(s, w, bound) && s.clock <= at
    ensures ChecksRightly(s, max, w, at)
  {
    ExpiryIsHarmless(s.key, w, s.clock, at, at - w);
    assert Accounted(s, at - w);
  }

  /** So after any orderly events. */
  lemma {:induction false} ChecksPassExactly(max: int, w: nat, c: nat, events: seq<Event>, at: Instant)
    requires Orderly(max, w, c, events) && (events == [] || events[|events| - 1].at <= at)
    ensures ChecksRightly(Run(max, w, events), max, w, at)
  {
    RunKeeps(max, w, c, events);
    CheckPassesAt(Run(max, w, events), max, w, Bound(max, c), at);
  }

  /** With at most `c` calls between their check and their add, every interval (t - w, t] contains at
      most max + c - 1 accepted calls; with calls one after another, at most max. */
  lemma {:induction false} WindowBound(max: int, w: nat, c: nat, events: seq<Event>, t: int)
    requires Orderly(max, w, c, events)
    ensures InWindow(Run(max, w, events).passed, w, t) <= Bound(max, c)
    ensures c == 1 && max >= 1 ==> InWindow(Run(max, w, events).passed, w, t) <= max
  {
    RunKeeps(max, w, c, events);
    EveryWindowIsBounded(Run(max, w, events).passed, w, Bound(max, c), t);
  }
}
