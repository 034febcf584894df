/** The Redis lease lock per payment: `SET NX PX`, and release and extend guarded by the token. */
module Leases {
  import opened Domain

  /** A key holds a token until its expiry instant; from then on it reads as absent. */
  datatype Lease = Lease(token: string, expiresAt: Instant)

  type Table = map<PaymentId, Lease>

  function Holder(t: Table, id: PaymentId, now: Instant): Option<string> {
    if id in t && now < t[id].expiresAt then Some(t[id].token) else None
  }

  function Acquired(t: Table, id: PaymentId, token: string, ttl: nat, now: Instant): Table {
    if Holder(t, id, now).None? then t[id := Lease(token, now + ttl)] else t
  }

  function Released(t: Table, id: PaymentId, token: string, now: Instant): Table {
    if Holder(t, id, now) == Some(token) then t - {id} else t
  }

  function Extended(t: Table, id: PaymentId, token: string, ttl: nat, now: Instant): Table {
    if Holder(t, id, now) == Some(token) then t[id := Lease(token, now + ttl)] else t
  }

  /** One timer per lock handle, firing every half TTL until cleared. */
  datatype Timer = Timer(paymentId: PaymentId, startedAt: Instant)

  class PaymentLocks {
    const ttl: nat
    var leases: Table
    var timers: map<string, Timer>

    constructor (ttl: nat)
      ensures this.ttl == ttl && leases == map[] && timers == map[]
    {
      this.ttl := ttl;
      leases, timers := map[], map[];
    }

    method AcquirePaymentLock(id: PaymentId, token: string, now: Instant) returns (ok: bool)
      modifies this`leases
      ensures ok <==> Holder(old(leases), id, now).None?
      ensures leases == Acquired(old(leases), id, token, ttl, now)
    {
      ok := !(id in leases && now < leases[id].expiresAt);
      if ok {
        leases := leases[id := Lease(token, now + ttl)];
      }
    }

    method ReleasePaymentLock(id: PaymentId, token: string, now: Instant)
      modifies this`leases
      ensures leases == Released(old(leases), id, token, now)
    {
      if id in leases && now < leases[id].expiresAt && leases[id].token == token {
        leases := leases - {id};
      }
    }

    method ExtendPaymentLock(id: PaymentId, token: string, now: Instant) returns (ok: bool)
      modifies this`leases
      ensures ok <==> Holder(old(leases), id, now) == Some(token)
      ensures leases == Extended(old(leases), id, token, ttl, now)
    {
      ok := id in leases && now < leases[id].expiresAt && leases[id].token == token;
      if ok {
        leases := leases[id := Lease(token, now + ttl)];
      }
    }

    method TryLockPayment(id: PaymentId, token: string, now: Instant) returns (ok: bool)
      modifies this
      ensures ok <==> Holder(old(leases), id, now).None?
      ensures leases == Acquired(old(leases), id, token, ttl, now)
      ensures timers == if ok then old(timers)[token := Timer(id, now)] else old(timers)
    {
      ok := AcquirePaymentLock(id, token, now);
      if ok {
        timers := timers[token := Timer(id, now)];
      }
    }

    /** The interval's callback; a cleared timer no longer fires. */
    method Tick(token: string, now: Instant)
      requires token in timers
      modifies this`leases
      ensures leases == Extended(old(leases), timers[token].paymentId, token, ttl, now)
    {
      var _ := ExtendPaymentLock(timers[token].paymentId, token, now);
    }

    method Release(id: PaymentId, token: string, now: Instant)
      modifies this
      ensures timers == old(timers) - {token}
      ensures leases == Released(old(leases), id, token, now)
    {
      timers := timers - {token};
      ReleasePaymentLock(id, token, now);
    }

    /** The worker's bounded loop: up to 18 attempts, at the given instants, with a new token each. */
    method AcquireWithPatience(id: PaymentId, tokens: seq<string>, instants: seq<Instant>)
      returns (lock: Option<string>)
      requires |tokens| == |instants| == 18
      modifies this
      ensures lock.None? <==> forall k | 0 <= k < 18 :: Holder(old(leases), id, instants[k]).Some?
      ensures lock.None? ==> leases == old(leases) && timers == old(timers)
      ensures lock.Some? ==> exists k | 0 <= k < 18 ::
                && lock == Some(tokens[k])
                && (forall j | 0 <= j < k :: Holder(old(leases), id, instants[j]).Some?)
                && Holder(old(leases), id, instants[k]).None?
                && leases == Acquired(old(leases), id, tokens[k], ttl, instants[k])
                && timers == old(timers)[tokens[k] := Timer(id, instants[k])]
    {
      lock := None;
      for attempt := 0 to 18
        invariant lock.None? && leases == old(leases) && timers == old(timers)
        invariant forall k | 0 <= k < attempt :: Holder(old(leases), id, instants[k]).Some?
      {
        var ok := TryLockPayment(id, tokens[attempt], instants[attempt]);
        if ok {
          lock := Some(tokens[attempt]);
          return;
        }
      }
    }
  }

  // ---- Runs of many clients ---------------------------------------------------------------

  datatype Event =
    | Acquire(id: PaymentId, token: string, ttl: nat, at: Instant)
    | Extend(id: PaymentId, token: string, ttl: nat, at: Instant)
    | Release(id: PaymentId, token: string, at: Instant)

  function After(t: Table, e: Event): Table {
    match e
    case Acquire(id, token, ttl, at) => Acquired(t, id, token, ttl, at)
    case Extend(id, token, ttl, at) => Extended(t, id, token, ttl, at)
    case Release(id, token, at) => Released(t, id, token, at)
  }

  function RunFrom(t: Table, events: seq<Event>): Table {
    if events == [] then t else After(RunFrom(t, events[..|events| - 1]), events[|events| - 1])
  }

  function Run(events: seq<Event>): Table {
    RunFrom(map[], events)
  }

  /** Until when a client counts on its lease: the expiry of its last successful acquire or extend,
      forgotten on release. It knows nothing of what the others do. */
  function Belief(events: seq<Event>, id: PaymentId, token: string): Option<Instant> {
    if events == [] then None
    else
      var before := events[..|events| - 1];
      var e := events[|events| - 1];
      if e.id != id || e.token != token then Belief(before, id, token)
      else match e
        case Acquire(_, _, ttl, at) =>
          if Holder(Run(before), id, at).None? then Some(at + ttl) else Belief(before, id, token)
        case Extend(_, _, ttl, at) =>
          if Holder(Run(before), id, at) == Some(token) then Some(at + ttl) else Belief(before, id, token)
        case Release(_, _, _) => None
  }

  /** The clock does not go back, and `now` is not before the last event. */
  ghost predicate Timely(events: seq<Event>, now: Instant) {
    && (forall i, j | 0 <= i < j < |events| :: events[i].at <= events[j].at)
    && (forall i | 0 <= i < |events| :: events[i].at <= now)
  }

  predicate CountsOn(events: seq<Event>, id: PaymentId, token: string, now: Instant) {
    var b := Belief(events, id, token);
    b.Some? && now < b.value
  }

  /** A client that still counts on its lease does hold it. */
  lemma {:induction false} BeliefIsTrue(events: seq<Event>, id: PaymentId, token: string, now: Instant)
    requires Timely(events, now) && CountsOn(events, id, token, now)
    ensures id in Run(events) && Run(events)[id] == Lease(token, Belief(events, id, token).value)
    decreases |events|
  {
    var before := events[..|events| - 1];
    var e := events[|events| - 1];
    if Belief(events, id, token) == Belief(before, id, token) {
      assert Timely(before, e.at);
      BeliefIsTrue(before, id, token, e.at);
    }
  }

  /** At most one client per payment counts on an unexpired lease. */
  lemma AtMostOneHolder(events: seq<Event>, id: PaymentId, a: string, b: string, now: Instant)
    requires Timely(events, now) && CountsOn(events, id, a, now) && CountsOn(events, id, b, now)
    ensures a == b
  {
    BeliefIsTrue(events, id, a, now);
    BeliefIsTrue(events, id, b, now);
  }

  /** A release or extend with a token that does not hold the lease changes nothing at all, and no
      event touches another payment's lease. */
  lemma StaleTokensAreHarmless(t: Table, e: Event, id: PaymentId)
    ensures !e.Acquire? && Holder(t, e.id, e.at) != Some(e.token) ==> After(t, e) == t
    ensures e.Acquire? && Holder(t, e.id, e.at).Some? ==> After(t, e) == t
    ensures id != e.id ==> (id in After(t, e) <==> id in t) && (id in t ==> After(t, e)[id] == t[id])
  {
  }

  /** A release by the holder frees the lease at once and for good, so the next acquire succeeds. */
  lemma ReleaseFrees(t: Table, id: PaymentId, token: string, now: Instant, next: string, ttl: nat, later: Instant)
    requires Holder(t, id, now) == Some(token)
    ensures Holder(Released(t, id, token, now), id, later).None?
    ensures ttl >= 1 ==> Holder(Acquired(Released(t, id, token, now), id, next, ttl, later), id, later) == Some(next)
    ensures Released(t, id, token, now).Keys == t.Keys - {id}
  {
  }

  // ---- Renewal ----------------------------------------------------------------------------

  /** When the n-th renewal is due: every half TTL from the start. */
  function Due(start: Instant, ttl: nat, n: nat): Instant {
    if n == 0 then start else Due(start, ttl, n - 1) + ttl / 2
  }

  predicate IsRenewal(e: Event, id: PaymentId, token: string) {
    e.Extend? && e.id == id && e.token == token
  }

  function Renewals(events: seq<Event>, id: PaymentId, token: string): nat {
    if events == [] then 0
    else Renewals(events[..|events| - 1], id, token) + if IsRenewal(events[|events| - 1], id, token) then 1 else 0
  }

  /** No event comes when the next renewal is already late by ttl - floor(ttl/2) or more, and no
      renewal comes before it is due. */
  ghost predicate OnTime(events: seq<Event>, id: PaymentId, token: string, start: Instant, ttl: nat) {
    forall n | 1 <= n < |events| ::
      var done := Renewals(events[..n], id, token);
      && events[n].at < Due(start, ttl, done + 1) + (ttl - ttl / 2)
      && (IsRenewal(events[n], id, token) ==> events[n].ttl == ttl && Due(start, ttl, done + 1) <= events[n].at)
      && !(events[n].Release? && events[n].id == id && events[n].token == token)
  }

  lemma LeaseOutlivesStep(t: Table, e: Event, id: PaymentId, token: string, start: Instant, ttl: nat, done: nat)
    requires ttl >= 1 && id in t && t[id].token == token && Due(start, ttl, done) + ttl <= t[id].expiresAt
    requires e.at < Due(start, ttl, done + 1) + (ttl - ttl / 2)
    requires IsRenewal(e, id, token) ==> e.ttl == ttl && Due(start, ttl, done + 1) <= e.at
    requires !(e.Release? && e.id == id && e.token == token)
    ensures id in After(t, e) && After(t, e)[id].token == token
    ensures Due(start, ttl, if IsRenewal(e, id, token) then done + 1 else done) + ttl <= After(t, e)[id].expiresAt
  {
    assert Holder(t, id, e.at) == Some(token);
  }

  /** A holder whose timer renewals are each delayed by less than ttl - floor(ttl/2) keeps its lease,
      whatever other clients do, until it releases it. */
  lemma {:induction false} RenewedLeaseIsKept(
    t: Table, events: seq<Event>, id: PaymentId, token: string, start: Instant, ttl: nat)
    requires |events| >= 1 && events[0] == Acquire(id, token, ttl, start) && ttl >= 1
    requires Holder(t, id, start).None?
    requires OnTime(events, id, token, start, ttl)
    ensures var after := RunFrom(t, events);
            && id in after && after[id].token == token
            && Due(start, ttl, Renewals(events, id, token)) + ttl <= after[id].expiresAt
    decreases |events|
  {
    var n := |events| - 1;
    var before := events[..n];
    if n == 0 {
      assert before == [];
    } else {
      forall k | 1 <= k < n ensures before[..k] == events[..k] { }
      RenewedLeaseIsKept(t, before, id, token, start, ttl);
      LeaseOutlivesStep(RunFrom(t, before), events[n], id, token, start, ttl, Renewals(before, id, token));
    }
  }

  /** So it is the holder at every instant up to the point where the next renewal would be that late;
      and with no renewal by then the lease is free, so the bound on the delay is sharp. */
  lemma HolderUntilOverdue(
    t: Table, events: seq<Event>, id: PaymentId, token: string, start: Instant, ttl: nat, now: Instant)
    requires |events| >= 1 && events[0] == Acquire(id, token, ttl, start) && ttl >= 1
    requires Holder(t, id, start).None?
    requires OnTime(events, id, token, start, ttl)
    ensures now < Due(start, ttl, Renewals(events, id, token) + 1) + (ttl - ttl / 2) ==>
              Holder(RunFrom(t, events), id, now) == Some(token)
    ensures |events| == 1 ==> Holder(RunFrom(t, events), id, Due(start, ttl, 1) + (ttl - ttl / 2)).None?
  {
    RenewedLeaseIsKept(t, events, id, token, start, ttl);
    if |events| == 1 {
      assert events[..0] == [];
      assert RunFrom(t, events) == After(t, events[0]);
    }
  }
}
