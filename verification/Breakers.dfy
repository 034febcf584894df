/** The circuit breaker, with `execute` split where it awaits: calls begin and end in any order. */
module Breakers {
  import opened Domain

  datatype State = Closed | Open | HalfOpen

  /** The breaker's fields. */
  datatype Circuit = Circuit(failures: nat, state: State, openedAt: Instant)

  function Fresh(): Circuit {
    Circuit(0, Closed, 0)
  }

  predicate Admits(c: Circuit, resetMs: nat, now: Instant) {
    c.state != Open || now - c.openedAt > resetMs
  }

  function Begun(c: Circuit, resetMs: nat, now: Instant): Circuit {
    if c.state == Open && Admits(c, resetMs, now) then c.(state := HalfOpen) else c
  }

  function Ended(c: Circuit, threshold: int, ok: bool, now: Instant): Circuit {
    if ok then
      if c.state == HalfOpen then c.(state := Closed, failures := 0)
      else if c.state == Closed then c.(failures := if c.failures >= 1 then c.failures - 1 else 0)
      else c
    else if c.failures + 1 >= threshold then Circuit(c.failures + 1, Open, now)
    else c.(failures := c.failures + 1)
  }

  /** The completions since the breaker was last freshly closed, after one more; true is a failure. */
  function Continued(period: seq<bool>, c: Circuit, ok: bool): seq<bool> {
    if ok && c.state == HalfOpen then [] else period + [!ok]
  }

  class CircuitBreaker {
    const failureThreshold: int
    const resetTimeoutMs: nat
    var failures: nat
    var state: State
    var openedAt: Instant
    /** Completions since the last time the breaker was, or became, freshly closed; true is a failure. */
    ghost var period: seq<bool>

    function View(): Circuit
      reads this
    {
      Circuit(failures, state, openedAt)
    }

    /** While closed, the counter is the worst recent block; see `IsWorstSuffix`. */
    ghost predicate Valid()
      reads this
    {
      && (state == Closed <==> failures < failureThreshold)
      && (state == Closed ==> failures == Walk(period))
    }

    constructor (failureThreshold: int, resetTimeoutMs: nat)
      requires failureThreshold >= 1
      ensures Valid() && View() == Fresh() && period == []
      ensures this.failureThreshold == failureThreshold && this.resetTimeoutMs == resetTimeoutMs
    {
      this.failureThreshold, this.resetTimeoutMs := failureThreshold, resetTimeoutMs;
      failures, state, openedAt := 0, Closed, 0;
      period := [];
    }

    /** Up to the call: false is CIRCUIT_OPEN. */
    method Begin(now: Instant) returns (admitted: bool)
      requires Valid() && failureThreshold >= 1
      modifies this`state
      ensures Valid() && View() == Begun(old(View()), resetTimeoutMs, now)
      ensures admitted <==> Admits(old(View()), resetTimeoutMs, now)
    {
      if state == Open {
        if now - openedAt > resetTimeoutMs {
          state := HalfOpen;
        } else {
          return false;
        }
      }
      return true;
    }

    /** After the call. */
    method End(ok: bool, now: Instant)
      requires Valid() && failureThreshold >= 1
      modifies this
      ensures Valid() && View() == Ended(old(View()), failureThreshold, ok, now)
      ensures period == Continued(old(period), old(View()), ok)
    {
      if ok {
        if state == HalfOpen {
          state := Closed;
          failures := 0;
          period := [];
        } else {
          if state == Closed {
            failures := if failures - 1 > 0 then failures - 1 else 0;
          }
          period := period + [false];
        }
      } else {
        failures := failures + 1;
        if failures >= failureThreshold {
          state := Open;
          openedAt := now;
        }
        period := period + [true];
      }
    }
  }

  // ---- What the counter means -------------------------------------------------------------

  /** Failures minus successes. */
  function Balance(s: seq<bool>): int {
    if s == [] then 0 else Balance(s[..|s| - 1]) + if s[|s| - 1] then 1 else -1
  }

  /** The walk reflected at zero that the counter performs while closed. */
  function Walk(s: seq<bool>): nat {
    if s == [] then 0
    else
      var f := Walk(s[..|s| - 1]);
      if s[|s| - 1] then f + 1 else if f >= 1 then f - 1 else 0
  }

  /** `m` is the largest balance of a block of completions ending now, the empty block included. */
  ghost predicate IsWorstSuffix(s: seq<bool>, m: int) {
    && (forall k | 0 <= k <= |s| :: Balance(s[k..]) <= m)
    && (exists k :: 0 <= k <= |s| && Balance(s[k..]) == m)
  }

  lemma BalanceLast(s: seq<bool>, k: nat)
    requires k < |s|
    ensures Balance(s[k..]) == Balance(s[..|s| - 1][k..]) + if s[|s| - 1] then 1 else -1
  {
    assert s[k..][..|s| - k - 1] == s[..|s| - 1][k..];
  }

  /** The counter is the largest excess of failures over successes in any block of completions ending now. */
  lemma {:induction false} CounterIsWorstSuffix(s: seq<bool>)
    ensures IsWorstSuffix(s, Walk(s))
    decreases |s|
  {
    assert Balance(s[|s|..]) == 0;
    if s != [] {
      var before := s[..|s| - 1];
      CounterIsWorstSuffix(before);
      forall k | 0 <= k <= |s| ensures Balance(s[k..]) <= Walk(s) {
        if k < |s| {
          BalanceLast(s, k);
          assert Balance(before[k..]) <= Walk(before);
        }
      }
      var k :| 0 <= k <= |before| && Balance(before[k..]) == Walk(before);
      BalanceLast(s, k);
      assert Balance(s[k..]) == Walk(s) || (Walk(s) == 0 && Balance(s[|s|..]) == Walk(s));
    }
  }

  ghost predicate SomeBlockReaches(s: seq<bool>, threshold: int) {
    exists k :: 0 <= k <= |s| && Balance(s[k..]) >= threshold
  }

  lemma BlockReachesWalk(s: seq<bool>, threshold: int)
    ensures SomeBlockReaches(s, threshold) <==> Walk(s) >= threshold
  {
    CounterIsWorstSuffix(s);
    var k :| 0 <= k <= |s| && Balance(s[k..]) == Walk(s);
    if Walk(s) >= threshold { assert Balance(s[k..]) >= threshold; }
  }

  // ---- Safety over all interleavings ------------------------------------------------------

  datatype Event = Start(at: Instant) | Finish(ok: bool, at: Instant)

  function After(c: Circuit, threshold: int, resetMs: nat, e: Event): Circuit {
    match e
    case Start(at) => Begun(c, resetMs, at)
    case Finish(ok, at) => Ended(c, threshold, ok, at)
  }

  function Run(threshold: int, resetMs: nat, events: seq<Event>): Circuit {
    if events == [] then Fresh()
    else After(Run(threshold, resetMs, events[..|events| - 1]), threshold, resetMs, events[|events| - 1])
  }

  /** The completions since the breaker was last freshly closed; true is a failure. */
  function Period(threshold: int, resetMs: nat, events: seq<Event>): seq<bool> {
    if events == [] then []
    else
      var before := events[..|events| - 1];
      match events[|events| - 1]
      case Start(_) => Period(threshold, resetMs, before)
      case Finish(ok, _) =>
        Continued(Period(threshold, resetMs, before), Run(threshold, resetMs, before), ok)
  }

  /** While closed, in whichever closed period and with whatever calls begun in between, the counter is the walk
      of the period's completions. */
  lemma {:induction false} ClosedCounterIsWalk(threshold: int, resetMs: nat, events: seq<Event>)
    requires threshold >= 1
    ensures Run(threshold, resetMs, events).state == Closed ==>
              Run(threshold, resetMs, events).failures == Walk(Period(threshold, resetMs, events))
    decreases |events|
  {
    if events != [] {
      var before := events[..|events| - 1];
      ClosedCounterIsWalk(threshold, resetMs, before);
      if events[|events| - 1].Finish? {
        WalkAppend(Period(threshold, resetMs, before), !events[|events| - 1].ok);
      }
    }
  }

  lemma WalkAppend(s: seq<bool>, failed: bool)
    ensures Walk(s + [failed]) == if failed then Walk(s) + 1 else if Walk(s) >= 1 then Walk(s) - 1 else 0
  {
    assert (s + [failed])[..|s|] == s;
  }

  /** In any interleaving and any closed period the breaker opens at exactly the first completion where some
      contiguous block of the period's completions ending there has failures exceeding successes by the
      threshold: while it is closed no block has, and the next completion opens it exactly if one then does. */
  lemma OpensAtFirstBadBlock(threshold: int, resetMs: nat, events: seq<Event>, ok: bool, at: Instant)
    requires threshold >= 1 && Run(threshold, resetMs, events).state == Closed
    ensures !SomeBlockReaches(Period(threshold, resetMs, events), threshold)
    ensures var after := events + [Finish(ok, at)];
            var c := Run(threshold, resetMs, after);
            var bad := SomeBlockReaches(Period(threshold, resetMs, after), threshold);
            (c.state == Open <==> bad) && (c.state == Closed <==> !bad) && (bad ==> c.openedAt == at)
  {
    var after := events + [Finish(ok, at)];
    assert after[..|events|] == events;
    BreakerStates(threshold, resetMs, events, 0);
    ClosedCounterIsWalk(threshold, resetMs, events);
    WalkAppend(Period(threshold, resetMs, events), !ok);
    BlockReachesWalk(Period(threshold, resetMs, events), threshold);
    BlockReachesWalk(Period(threshold, resetMs, after), threshold);
  }

  /** How every completion and every start moves the breaker, in any interleaving. A success closes a half-open breaker
      and forgives all failures, forgives a closed one a single failure, and leaves an open one alone. A failure counts
      one more and, from the threshold on, opens the breaker as of now. A start turns an open breaker half open
      exactly when the reset time has passed, and touches nothing else. */
  lemma BreakerMoves(threshold: int, resetMs: nat, events: seq<Event>, ok: bool, at: Instant)
    requires threshold >= 1
    ensures var c, d := Run(threshold, resetMs, events), Run(threshold, resetMs, events + [Finish(ok, at)]);
            && (ok && c.state == HalfOpen ==> d.state == Closed && d.failures == 0 && d.openedAt == c.openedAt)
            && (ok && c.state == Closed ==>
                  d.state == Closed && d.openedAt == c.openedAt
                  && d.failures == if c.failures == 0 then 0 else c.failures - 1)
            && (ok && c.state == Open ==> d == c)
            && (!ok ==> d.failures == c.failures + 1)
            && (!ok && d.failures >= threshold ==> d.state == Open && d.openedAt == at)
            && (!ok && d.failures < threshold ==> d.state == c.state == Closed && d.openedAt == c.openedAt)
    ensures var c, d := Run(threshold, resetMs, events), Run(threshold, resetMs, events + [Start(at)]);
            && d.failures == c.failures && d.openedAt == c.openedAt
            && (c.state == Open && at > c.openedAt + resetMs ==> d.state == HalfOpen && Admits(c, resetMs, at))
            && (c.state == Open && at <= c.openedAt + resetMs ==> d.state == Open && !Admits(c, resetMs, at))
            && (c.state != Open ==> d.state == c.state && Admits(c, resetMs, at))
  {
    assert (events + [Finish(ok, at)])[..|events|] == events;
    assert (events + [Start(at)])[..|events|] == events;
    BreakerStates(threshold, resetMs, events, at);
  }

  /** The completions among the events; true is a failure. */
  function Completions(events: seq<Event>): seq<bool> {
    if events == [] then []
    else
      Completions(events[..|events| - 1]) +
      match events[|events| - 1]
      case Start(_) => []
      case Finish(ok, _) => [!ok]
  }

  /** Closed with nothing held against it: at the very start, and after a success while half open. */
  ghost predicate FreshlyClosed(threshold: int, resetMs: nat, events: seq<Event>) {
    Run(threshold, resetMs, events).state == Closed && Period(threshold, resetMs, events) == []
  }

  lemma SuccessStartsAfresh(threshold: int, resetMs: nat, events: seq<Event>, at: Instant)
    requires threshold >= 1 && Run(threshold, resetMs, events).state == HalfOpen
    ensures FreshlyClosed(threshold, resetMs, events + [Finish(true, at)])
  {
    assert (events + [Finish(true, at)])[..|events|] == events;
  }

  /** From a fresh closing on, whatever was before it, the breaker stays closed while no block of the completions since
      has failures exceeding successes by the threshold, and opens with the first that does. */
  lemma {:induction false} OpensOnlyAtLaterBlock(
    threshold: int, resetMs: nat, before: seq<Event>, later: seq<Event>)
    requires threshold >= 1 && FreshlyClosed(threshold, resetMs, before)
    requires forall n | 0 <= n < |later| :: !SomeBlockReaches(Completions(later[..n]), threshold)
    ensures Period(threshold, resetMs, before + later) == Completions(later)
    ensures var c, bad := Run(threshold, resetMs, before + later), SomeBlockReaches(Completions(later), threshold);
            (c.state == Closed <==> !bad) && (c.state == Open <==> bad)
    decreases |later|
  {
    if later == [] {
      assert before + later == before;
      NoBlockInNothing(threshold);
    } else {
      var n := |later| - 1;
      forall m | 0 <= m < n ensures !SomeBlockReaches(Completions(later[..n][..m]), threshold) {
        assert later[..n][..m] == later[..m];
      }
      OpensOnlyAtLaterBlock(threshold, resetMs, before, later[..n]);
      OneMoreEvent(threshold, resetMs, before + later[..n], later[n]);
      assert before + later[..n] + [later[n]] == before + later;
    }
  }

  lemma NoBlockInNothing(threshold: int)
    requires threshold >= 1
    ensures !SomeBlockReaches([], threshold)
  {
    BlockReachesWalk([], threshold);
  }

  lemma OneMoreEvent(threshold: int, resetMs: nat, events: seq<Event>, e: Event)
    requires threshold >= 1 && Run(threshold, resetMs, events).state == Closed
    ensures var period := Period(threshold, resetMs, events + [e]);
            var c, bad := Run(threshold, resetMs, events + [e]), SomeBlockReaches(period, threshold);
            && period == Period(threshold, resetMs, events) + (if e.Finish? then [!e.ok] else [])
            && (c.state == Closed <==> !bad) && (c.state == Open <==> bad)
  {
    assert (events + [e])[..|events|] == events;
    if e.Finish? {
      OpensAtFirstBadBlock(threshold, resetMs, events, e.ok, e.at);
    } else {
      ClosedCounterIsWalk(threshold, resetMs, events);
      BreakerStates(threshold, resetMs, events, 0);
      BlockReachesWalk(Period(threshold, resetMs, events), threshold);
    }
  }

  ghost predicate Timely(events: seq<Event>) {
    forall i, j | 0 <= i < j < |events| :: events[i].at <= events[j].at
  }

  /** The event that opens the circuit, or opens it again. */
  predicate Opens(threshold: int, resetMs: nat, events: seq<Event>, i: nat)
    requires i < |events|
  {
    && events[i].Finish? && !events[i].ok
    && Run(threshold, resetMs, events[..i]).failures + 1 >= threshold
  }

  /** Closed exactly when the counter is below the threshold; a failure while half open always opens
      again; a rejected call changes nothing. */
  lemma {:induction false} BreakerStates(threshold: int, resetMs: nat, events: seq<Event>, now: Instant)
    requires threshold >= 1
    ensures var c := Run(threshold, resetMs, events);
            && (c.state == Closed <==> c.failures < threshold)
            && (c.state == HalfOpen ==> Ended(c, threshold, false, now).state == Open
                                        && Ended(c, threshold, false, now).openedAt == now)
            && (!Admits(c, resetMs, now) ==> Begun(c, resetMs, now) == c)
    decreases |events|
  {
    if events != [] {
      BreakerStates(threshold, resetMs, events[..|events| - 1], now);
    }
  }

  /** After an opening, either the circuit is still open with a stamp no older, or the reset time has
      passed since. */
  lemma {:induction false} ShutUntilReset(threshold: int, resetMs: nat, events: seq<Event>, i: nat)
    requires threshold >= 1 && Timely(events) && i < |events| && Opens(threshold, resetMs, events, i)
    ensures var c, last := Run(threshold, resetMs, events), events[|events| - 1].at;
            || (c.state == Open && c.openedAt >= events[i].at)
            || last > events[i].at + resetMs
    decreases |events|
  {
    var n := |events| - 1;
    if i == n {
      BreakerStates(threshold, resetMs, events[..i], 0);
    } else {
      var before := events[..n];
      assert before[..i] == events[..i];
      ShutUntilReset(threshold, resetMs, before, i);
      assert before[n - 1] == events[n - 1] && events[n - 1].at <= events[n].at;
    }
  }

  /** Any call admitted after an opening at time T starts later than T + resetTimeoutMs. */
  lemma AdmittedOnlyAfterReset(threshold: int, resetMs: nat, events: seq<Event>, i: nat, now: Instant)
    requires threshold >= 1 && Timely(events + [Start(now)]) && i < |events| && Opens(threshold, resetMs, events, i)
    requires Admits(Run(threshold, resetMs, events), resetMs, now)
    ensures now > events[i].at + resetMs
  {
    var all := events + [Start(now)];
    forall j, k | 0 <= j < k < |events| ensures events[j].at <= events[k].at {
      assert all[j].at <= all[k].at;
    }
    ShutUntilReset(threshold, resetMs, events, i);
    assert all[|events| - 1].at <= all[|events|].at;
  }

  // ---- The gateway client -----------------------------------------------------------------

  datatype Outcome =
    | Approved(txnId: string)
    | Refused(reason: string)
    | TimedOut
    | NetworkDown
    | DuplicateWebhook(duplicateTxn: string)

  /** `wrapAsError`; only an issuer decline is permanent. */
  function WrapAsError(o: Outcome): Option<GatewayError> {
    match o
    case Refused(reason) => Some(GatewayError(reason, reason != "issuer_declined"))
    case TimedOut => Some(GatewayError("upstream_timeout", true))
    case NetworkDown => Some(GatewayError("network_error", true))
    case _ => None
  }

  function ChargeResult(o: Outcome, admitted: bool): GatewayResult {
    match o
    case DuplicateWebhook(txn) => GatewayResult(true, Some(txn), true, None)
    case Approved(txn) =>
      if admitted then GatewayResult(true, Some(txn), false, None)
      else GatewayResult(false, None, false, Some(GatewayError("circuit_open", true)))
    case _ =>
      GatewayResult(false, None, false,
        if admitted then WrapAsError(o) else Some(GatewayError("Error: CIRCUIT_OPEN", true)))
  }

  class GatewayClient {
    const threshold: int
    const resetMs: nat
    var breaker: CircuitBreaker?

    constructor (threshold: int, resetMs: nat)
      ensures this.threshold == threshold && this.resetMs == resetMs && breaker == null
    {
      this.threshold, this.resetMs, breaker := threshold, resetMs, null;
    }

    ghost predicate Valid()
      reads this, breaker
    {
      threshold >= 1 &&
      (breaker != null ==>
         breaker.Valid() && breaker.failureThreshold == threshold && breaker.resetTimeoutMs == resetMs)
    }

    /** The circuit as a caller finds it: created closed on first use. */
    function Current(): Circuit
      reads this, breaker
    {
      if breaker == null then Fresh() else breaker.View()
    }

    method GetBreaker() returns (b: CircuitBreaker)
      requires Valid()
      modifies this
      ensures Valid() && b == breaker && b.View() == old(Current())
      ensures if old(breaker) != null then b == old(breaker) else fresh(b)
    {
      if breaker == null {
        breaker := new CircuitBreaker(threshold, resetMs);
      }
      b := breaker;
    }

    /** A charge whose call through the breaker meets no other; the duplicate-webhook outcome does not
        go through the breaker at all. */
    method Charge(o: Outcome, now: Instant) returns (result: GatewayResult)
      requires Valid()
      modifies this, breaker
      ensures Valid() && (old(breaker) != null ==> breaker == old(breaker))
      ensures result == ChargeResult(o, Admits(old(Current()), resetMs, now))
      ensures Reports(o, Admits(old(Current()), resetMs, now), result)
      ensures Current() ==
                if o.DuplicateWebhook? || !Admits(old(Current()), resetMs, now) then old(Current())
                else Ended(Begun(old(Current()), resetMs, now), threshold, o.Approved?, now)
    {
      if o.DuplicateWebhook? {
        return GatewayResult(true, Some(o.duplicateTxn), true, None);
      }
      var b := GetBreaker();
      var admitted := b.Begin(now);
      if admitted {
        b.End(o.Approved?, now);
      }
      if o.Approved? {
        result := if admitted then GatewayResult(true, Some(o.txnId), false, None)
                  else GatewayResult(false, None, false, Some(GatewayError("circuit_open", true)));
      } else {
        result := GatewayResult(false, None, false,
          if admitted then WrapAsError(o) else Some(GatewayError("Error: CIRCUIT_OPEN", true)));
      }
    }
  }

  /** A success carries a transaction id and a failure its error; only an issuer decline that reached
      the gateway is permanent, so an open circuit never fails a payment for good. */
  lemma VerdictShape(o: Outcome, admitted: bool)
    ensures var r := ChargeResult(o, admitted);
            && (r.success <==> r.txnId.Some?) && (r.success <==> r.error.None?)
            && (!r.success && !r.Transient() <==> admitted && o == Refused("issuer_declined"))
            && (r.success <==> (admitted && o.Approved?) || o.DuplicateWebhook?)
    ensures Reports(o, admitted, ChargeResult(o, admitted))
  {
  }

  /** What the result carries: the outcome's own transaction id and the duplicate flag exactly for a duplicated webhook,
      or the outcome's own failure; a rejected call says that the circuit is open. */
  predicate Reports(o: Outcome, admitted: bool, r: GatewayResult) {
    match o
    case DuplicateWebhook(txn) => r.success && r.txnId == Some(txn) && r.duplicateWebhook
    case Approved(txn) =>
      && !r.duplicateWebhook
      && if admitted then r.success && r.txnId == Some(txn) else r.error == Some(GatewayError("circuit_open", true))
    case Refused(reason) => Fails(r, admitted, GatewayError(reason, reason != "issuer_declined"))
    case TimedOut => Fails(r, admitted, GatewayError("upstream_timeout", true))
    case NetworkDown => Fails(r, admitted, GatewayError("network_error", true))
  }

  predicate Fails(r: GatewayResult, admitted: bool, error: GatewayError) {
    !r.success && !r.duplicateWebhook
    && r.error == Some(if admitted then error else GatewayError("Error: CIRCUIT_OPEN", true))
  }
}
