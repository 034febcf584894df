/** The payment worker's handler and the retry relay as they run, and their relation to the protocol: a
    handler that meets no other is one particular run of the interleaving model. */
module Workers {
  import opened Domain
  import opened Tables
  import opened Store
  import opened Protocol
  import opened Safety
  import L = Leases
  import B = Backoff

  /** The tables after a failed charge is dealt with, whatever became of the payment during the call. */
  function FailedDb(db: Db, id: PaymentId, result: GatewayResult, executeAt: Instant, limit: int): Db {
    var counted := Commit(db, CountTx(id));
    var attempt := RetryCountOf(counted, id);
    if !result.Transient() then Commit(db, DeclineTx(id, result.Reason()))
    else if attempt >= limit then Commit(counted, ExhaustTx(id, result.Reason()))
    else Commit(counted, RetryTx(id, attempt, result.Reason(), executeAt, attempt))
  }

  /** The DLQ record of a failed charge whose counted attempt is the last one allowed. */
  function FailedSent(db: Db, id: PaymentId, result: GatewayResult, limit: int): seq<Message> {
    var attempt := RetryCountOf(Commit(db, CountTx(id)), id);
    if result.Transient() && attempt >= limit
    then [Message(id, DlqRecord(attempt, result.Reason()), None, false)]
    else []
  }

  /** The tables after a handler that meets no other. */
  function HandledDb(db: Db, id: PaymentId, result: GatewayResult, executeAt: Instant, limit: int): Db {
    var begun := Commit(db, BeginTx(id));
    if !InStatus(begun, id, Processing) then begun
    else if result.success then Commit(begun, SettleTx(id, result.txnId, result.duplicateWebhook))
    else FailedDb(begun, id, result, executeAt, limit)
  }

  /** It gives up on the payment: the attempt it counts is the last one allowed. */
  predicate GivesUp(db: Db, id: PaymentId, result: GatewayResult, limit: int) {
    && (InStatus(db, id, Pending) || InStatus(db, id, Processing))
    && !result.success && result.Transient() && RetryCountOf(db, id) + 1 >= limit
  }

  function DlqSent(db: Db, id: PaymentId, result: GatewayResult, limit: int): seq<Message> {
    if GivesUp(db, id, result, limit)
    then [Message(id, DlqRecord(RetryCountOf(db, id) + 1, result.Reason()), None, false)]
    else []
  }

  /** A failed charge never revives a decided payment: nothing of its decision changes, though a transient
      failure still counts an attempt and may still schedule a retry or send a DLQ record. */
  lemma FailureLeavesDecisions(db: Db, id: PaymentId, result: GatewayResult, executeAt: Instant, limit: int)
    requires id < |db.payments|
    ensures var was, now := db.payments[id], FailedDb(db, id, result, executeAt, limit).payments[id];
            && (was.status != Processing ==> now == was.(retryCount := now.retryCount))
            && (was.status == Processing && !(result.Transient() && was.retryCount + 1 < limit) ==>
                  now.status == Failed)
            && now.retryCount == was.retryCount + if result.Transient() then 1 else 0
    ensures |FailedSent(db, id, result, limit)| + |FailedDb(db, id, result, executeAt, limit).retries|
              == |db.retries| + if result.Transient() then 1 else 0
    ensures var now := FailedDb(db, id, result, executeAt, limit).payments[id];
            var reason := if result.error.Some? then result.error.value.message else "gateway_error";
            forall m | m in FailedSent(db, id, result, limit) ::
              m == Message(id, DlqRecord(now.retryCount, reason), None, false) && now.retryCount >= limit
  {
  }

  /** One handled delivery leaves an open payment decided as the verdict says, or still processing with one
      more counted attempt and one new retry row and order; a decided or unknown payment is left alone. */
  lemma HandlingDecidesOrReschedules(db: Db, id: PaymentId, result: GatewayResult, executeAt: Instant, limit: int)
    ensures var after := HandledDb(db, id, result, executeAt, limit);
            var reason := if result.error.Some? then result.error.value.message else "gateway_error";
            var transient := result.error.None? || result.error.value.transient;
            var attempt := RetryCountOf(db, id) + 1;
            if !InStatus(db, id, Pending) && !InStatus(db, id, Processing) then after == db
            else if result.success then
              InStatus(after, id, Success) && after.retries == db.retries
              && after.payments[id].gatewayRef == OrElse(result.txnId, db.payments[id].gatewayRef)
              && after.payments[id].failureReason == None
            else if !transient then
              InStatus(after, id, Failed) && after.retries == db.retries
              && after.payments[id].failureReason == Some(reason)
            else if attempt >= limit then
              InStatus(after, id, Failed) && after.retries == db.retries
              && after.payments[id].failureReason == Some("max_retries:" + reason)
              && after.payments[id].retryCount == attempt
            else
              InStatus(after, id, Processing) && after.payments[id].retryCount == attempt
              && after.retries == db.retries + [RetryRow(id, attempt, executeAt, reason, false, attempt)]
              && |after.outbox| >= 1
              && after.outbox[|after.outbox| - 1] == NewRow(id, RetryOrder(attempt, reason, executeAt, |db.retries|))
  {
  }

  /** Any retry added is one row and one order, for the payment, the attempt and the reason counted, both due at the
      same instant, which is the backoff of that attempt away. */
  ghost predicate Rescheduled(
    was: Db, now: Db, id: PaymentId, result: GatewayResult, base: nat, draw: real, clock: Instant)
  {
    var n := |was.retries|;
    now.retries == was.retries ||
    (&& |now.retries| == n + 1 && now.retries[..n] == was.retries && now.outbox != []
     && var row := now.retries[n];
        && row.paymentId == id && !row.processed && row.retryCount == RetryCountOf(now, id)
        && row.reason == (if result.error.Some? then result.error.value.message else "gateway_error")
        && B.IsDelay(row.executeAt - clock, base, row.retryCount, draw)
        && now.outbox[|now.outbox| - 1] ==
             OutboxRow(id, RetryOrder(row.retryCount, row.reason, row.executeAt, n), false, 0, None))
  }

  lemma FailureReschedules(
    db: Db, id: PaymentId, result: GatewayResult, executeAt: Instant, limit: int, base: nat, draw: real, clock: Instant)
    requires B.IsDelay(executeAt - clock, base, RetryCountOf(Commit(db, CountTx(id)), id), draw)
    ensures Rescheduled(db, FailedDb(db, id, result, executeAt, limit), id, result, base, draw, clock)
  {
  }

  lemma HandlingReschedules(
    db: Db, id: PaymentId, result: GatewayResult, executeAt: Instant, limit: int, base: nat, draw: real, clock: Instant)
    requires B.IsDelay(executeAt - clock, base, RetryCountOf(db, id) + 1, draw)
    ensures Rescheduled(db, HandledDb(db, id, result, executeAt, limit), id, result, base, draw, clock)
  {
    var begun := Commit(db, BeginTx(id));
    if InStatus(begun, id, Processing) && !result.success {
      FailureReschedules(begun, id, result, executeAt, limit, base, draw, clock);
    }
  }

  class PaymentWorker {
    const store: PaymentStore
    const locks: L.PaymentLocks
    const maxAttempts: int
    const baseDelayMs: nat
    var sent: seq<Message>

    constructor (store: PaymentStore, locks: L.PaymentLocks, maxAttempts: int, baseDelayMs: nat)
      requires baseDelayMs >= 1
      ensures this.store == store && this.locks == locks && this.maxAttempts == maxAttempts
      ensures this.baseDelayMs == baseDelayMs && sent == []
    {
      this.store, this.locks, this.maxAttempts, this.baseDelayMs := store, locks, maxAttempts, baseDelayMs;
      sent := [];
    }

    /** `handlePaymentInitiated` with nobody in between: lock, begin, charge, settle or fail, unlock. No lock
        after 18 attempts throws before anything is read or written. The lock is released on every other way out. */
    method HandlePaymentInitiated(
      id: PaymentId, tokens: seq<string>, instants: seq<Instant>, result: GatewayResult,
      draw: real, now: Instant, end: Instant)
      returns (lock: Option<string>)
      requires |tokens| == |instants| == 18 && baseDelayMs >= 1 && B.IsDraw(draw)
      requires forall k | 0 <= k < 18 :: tokens[k] !in locks.timers
      modifies this, store, locks
      ensures lock.None? <==> forall k | 0 <= k < 18 :: L.Holder(old(locks.leases), id, instants[k]).Some?
      ensures lock.None? ==> store.View() == old(store.View()) && sent == old(sent) && locks.leases == old(locks.leases)
      ensures lock.Some? ==>
                var db := old(store.View());
                var executeAt := ExecuteAt(RetryCountOf(db, id) + 1, draw, now);
                && store.View() == HandledDb(db, id, result, executeAt, maxAttempts)
                && sent == old(sent) + DlqSent(db, id, result, maxAttempts)
                && exists k | 0 <= k < 18 ::
                     && LockedMeanwhile(old(locks.leases), locks.leases, id, tokens[k], instants[k], end)
                     && lock == Some(tokens[k])
      ensures locks.timers == old(locks.timers)
      ensures lock.Some? ==> Rescheduled(old(store.View()), store.View(), id, result, baseDelayMs, draw, now)
    {
      lock := locks.AcquireWithPatience(id, tokens, instants);
      if lock.None? {
        return;
      }
      ProcessLocked(id, result, draw, now);
      locks.Release(id, lock.value, end);
    }

    /** The lease was free, taken with the token at `start`, and given back at `end` if it was still held. */
    predicate LockedMeanwhile(was: L.Table, now: L.Table, id: PaymentId, token: string, start: Instant, end: Instant)
      reads locks
    {
      && L.Holder(was, id, start).None?
      && now == L.Released(L.Acquired(was, id, token, locks.ttl, start), id, token, end)
      && L.Holder(now, id, end) != Some(token)
    }

    /** What the handler does while it counts on the lock. */
    method ProcessLocked(id: PaymentId, result: GatewayResult, draw: real, now: Instant)
      requires baseDelayMs >= 1 && B.IsDraw(draw)
      modifies this`sent, store
      ensures Rescheduled(old(store.View()), store.View(), id, result, baseDelayMs, draw, now)
      ensures var db := old(store.View());
              store.View() == HandledDb(db, id, result, ExecuteAt(RetryCountOf(db, id) + 1, draw, now), maxAttempts)
      ensures sent == old(sent) + DlqSent(old(store.View()), id, result, maxAttempts)
    {
      ghost var due := ExecuteAt(RetryCountOf(store.View(), id) + 1, draw, now);
      BeginAbsorbed(store.View(), id, result, due, maxAttempts);
      HandlingReschedules(store.View(), id, result, due, maxAttempts, baseDelayMs, draw, now);
      store.BeginProcessing(id);
      var beforeGateway := store.FindById(id);
      if beforeGateway.None? || beforeGateway.value.status != Processing {
        return;
      }
      if result.success {
        var _ := store.SettleSuccess(id, result.txnId, result.duplicateWebhook);
      } else {
        HandleGatewayFailure(id, result, draw, now);
      }
    }

    function ExecuteAt(retryCount: nat, draw: real, now: Instant): (due: Instant)
      requires baseDelayMs >= 1 && B.IsDraw(draw)
      ensures B.IsDelay(due - now, baseDelayMs, retryCount, draw)
    {
      B.DelayIsExact(baseDelayMs, retryCount, draw);
      now + B.DelayMs(baseDelayMs, retryCount, draw)
    }

    /** Permanent: fail the payment. Transient: count the attempt, read it back, then give up or reschedule. The
        payment may have been decided during the call. */
    method HandleGatewayFailure(id: PaymentId, result: GatewayResult, draw: real, now: Instant)
      requires baseDelayMs >= 1 && B.IsDraw(draw)
      modifies this`sent, store
      ensures Rescheduled(old(store.View()), store.View(), id, result, baseDelayMs, draw, now)
      ensures var db := old(store.View());
              var attempt := RetryCountOf(Commit(db, CountTx(id)), id);
              store.View() == FailedDb(db, id, result, ExecuteAt(attempt, draw, now), maxAttempts)
      ensures sent == old(sent) + FailedSent(old(store.View()), id, result, maxAttempts)
    {
      ghost var counted := RetryCountOf(Commit(store.View(), CountTx(id)), id);
      FailureReschedules(store.View(), id, result, ExecuteAt(counted, draw, now), maxAttempts, baseDelayMs, draw, now);
      var reason := if result.error.Some? then result.error.value.message else "gateway_error";
      var transient := if result.error.Some? then result.error.value.transient else true;
      if !transient {
        store.MarkPermanentFailure(id, reason);
        return;
      }
      store.IncrementRetryCount(id);
      var payment := store.FindById(id);
      var attempt := if payment.Some? then payment.value.retryCount else 0;
      if attempt >= maxAttempts {
        store.MarkExhausted(id, reason);
        sent := sent + [Message(id, DlqRecord(attempt, reason), None, false)];
        return;
      }
      store.ScheduleRetry(id, attempt, reason, ExecuteAt(attempt, draw, now), attempt);
    }

    /** `executeRetryRelay`: wait until the order is due, publish the initiation again, mark the record. */
    method ExecuteRetryRelay(id: PaymentId, executeAt: Option<Instant>, record: Option<nat>, now: Instant)
      returns (sentAt: Instant)
      modifies this`sent, store`retries
      ensures sentAt >= now && (executeAt.Some? ==> sentAt >= executeAt.value)
      ensures sentAt == now || executeAt == Some(sentAt)
      ensures sent == old(sent) + [Message(id, InitiatedNote, None, false)]
      ensures store.View() ==
                if record.Some? then Commit(old(store.View()), RelayedTx(record.value)) else old(store.View())
    {
      var waitMs := if executeAt.Some? && executeAt.value > now then executeAt.value - now else 0;
      sentAt := now + waitMs;
      sent := sent + [Message(id, InitiatedNote, None, false)];
      if record.Some? {
        store.MarkRelayed(record.value);
      }
    }
  }

  // ---- A handler alone is a run of the protocol -------------------------------------------

  ghost predicate IsSoloRun(ws: seq<World>, actions: seq<Action>, i: nat, c: Choice) {
    IsRun(ws, actions) && forall k | 0 <= k < |actions| :: actions[k] == Advance(i, c)
  }

  /** The handler's own steps, with nothing in between, lead from `w` to `end`. */
  ghost predicate RunsTo(w: World, end: World, i: nat, c: Choice) {
    exists ws, actions :: IsSoloRun(ws, actions, i, c) && ws[0] == w && ws[|ws| - 1] == end
  }

  lemma RunsNowhere(w: World, i: nat, c: Choice)
    ensures RunsTo(w, w, i, c)
  {
    assert IsSoloRun([w], [], i, c);
  }

  lemma RunsOn(w: World, end: World, i: nat, c: Choice)
    requires Enabled(w, Advance(i, c)) && RunsTo(Next(w, Advance(i, c)), end, i, c)
    ensures RunsTo(w, end, i, c)
  {
    var v := Next(w, Advance(i, c));
    var ws, actions :| IsSoloRun(ws, actions, i, c) && ws[0] == v && ws[|ws| - 1] == end;
    var all, acts := [w] + ws, [Advance(i, c)] + actions;
    forall k | 0 <= k < |acts|
      ensures acts[k] == Advance(i, c) && Enabled(all[k], acts[k]) && all[k + 1] == Next(all[k], acts[k])
    {
      if k > 0 {
        assert all[k] == ws[k - 1] && acts[k] == actions[k - 1] && all[k + 1] == ws[k - 1 + 1];
      }
    }
    assert IsSoloRun(all, acts, i, c) && all[0] == w && all[|all| - 1] == end;
  }

  lemma WorkerAdvances(w: World, i: nat, c: Choice)
    requires i < |w.procs| && IsWorker(w.procs[i])
    ensures Enabled(w, Advance(i, c)) && Next(w, Advance(i, c)) == Apply(w, i, WorkerEffect(w, w.procs[i], c))
  {
    var p := w.procs[i];
    assert p != Gone && EffectOf(w, p, c) == WorkerEffect(w, p, c);
  }

  /** One step of a worker, and the rest. */
  lemma WorkerStep(w: World, i: nat, c: Choice) returns (v: World)
    requires i < |w.procs| && IsWorker(w.procs[i])
    ensures v == Apply(w, i, WorkerEffect(w, w.procs[i], c))
    ensures forall end :: RunsTo(v, end, i, c) ==> RunsTo(w, end, i, c)
  {
    WorkerAdvances(w, i, c);
    v := Next(w, Advance(i, c));
    forall end | RunsTo(v, end, i, c) ensures RunsTo(w, end, i, c) {
      RunsOn(w, end, i, c);
    }
  }

  /** The handler is gone, and its message is acknowledged once it has sent what it sent. */
  predicate Concluded(w: World, end: World, i: nat, msg: nat, sent: seq<Message>)
    requires i < |w.procs|
  {
    && end.procs == w.procs[i := Gone]
    && (msg < |w.bus| ==> end.bus == Acked(w.bus, Some(msg)) + sent)
  }

  lemma DoneRuns(w: World, i: nat, c: Choice) returns (end: World)
    requires i < |w.procs| && w.procs[i].WorkerDone?
    ensures RunsTo(w, end, i, c) && end.db == w.db && Concluded(w, end, i, w.procs[i].task.msg, [])
  {
    end := WorkerStep(w, i, c);
    RunsNowhere(end, i, c);
  }

  function DlqOf(p: Proc): Message
    requires p.WorkerExhausted?
  {
    Message(p.task.paymentId, DlqRecord(p.attempt, p.reason), None, false)
  }

  lemma ExhaustedRuns(w: World, i: nat, c: Choice) returns (end: World)
    requires i < |w.procs| && w.procs[i].WorkerExhausted?
    ensures RunsTo(w, end, i, c) && end.db == w.db && Concluded(w, end, i, w.procs[i].task.msg, [DlqOf(w.procs[i])])
  {
    var v := WorkerStep(w, i, c);
    end := DoneRuns(v, i, c);
  }

  lemma CheckedRuns(w: World, i: nat, c: Choice) returns (end: World)
    requires i < |w.procs| && w.procs[i].WorkerChecked?
    ensures RunsTo(w, end, i, c)
    ensures var p := w.procs[i];
            if p.attempt >= w.limit
            then end.db == Commit(w.db, ExhaustTx(p.task.paymentId, p.reason))
                 && Concluded(w, end, i, p.task.msg,
                              [Message(p.task.paymentId, DlqRecord(p.attempt, p.reason), None, false)])
            else end.db == Commit(w.db, RetryTx(p.task.paymentId, p.attempt, p.reason, c.executeAt, p.ticket))
                 && Concluded(w, end, i, p.task.msg, [])
  {
    var v := WorkerStep(w, i, c);
    if w.procs[i].attempt >= w.limit {
      end := ExhaustedRuns(v, i, c);
    } else {
      end := DoneRuns(v, i, c);
    }
  }

  /** The end a solo run from any of the handler's earlier stages reaches. */
  predicate EndsHandled(w: World, end: World, i: nat, task: Task, result: GatewayResult, c: Choice)
    requires i < |w.procs|
  {
    && end.db == HandledDb(w.db, task.paymentId, result, c.executeAt, w.limit)
    && Concluded(w, end, i, task.msg, DlqSent(w.db, task.paymentId, result, w.limit))
  }

  /** A transient failure: count, read back, give up or reschedule. */
  lemma FailedRuns(w: World, i: nat, c: Choice) returns (end: World)
    requires i < |w.procs| && w.procs[i].WorkerAnswered? && InStatus(w.db, w.procs[i].task.paymentId, Processing)
    requires !w.procs[i].result.success && w.procs[i].result.Transient()
    ensures RunsTo(w, end, i, c) && EndsHandled(w, end, i, w.procs[i].task, w.procs[i].result, c)
  {
    var p := w.procs[i];
    var v := WorkerStep(w, i, c);
    end := CountedRuns(v, i, c);
    TransientHandled(w.db, p.task.paymentId, p.result, c.executeAt, w.limit);
  }

  /** A transient failure of an open payment, written out. */
  lemma TransientHandled(db: Db, id: PaymentId, result: GatewayResult, executeAt: Instant, limit: int)
    requires InStatus(db, id, Processing) && !result.success && result.Transient()
    ensures var counted, attempt := Commit(db, CountTx(id)), RetryCountOf(db, id) + 1;
            && RetryCountOf(counted, id) == attempt
            && HandledDb(db, id, result, executeAt, limit) == (
                 if attempt >= limit then Commit(counted, ExhaustTx(id, result.Reason()))
                 else Commit(counted, RetryTx(id, attempt, result.Reason(), executeAt, attempt)))
            && DlqSent(db, id, result, limit) == (
                 if attempt >= limit then [Message(id, DlqRecord(attempt, result.Reason()), None, false)] else [])
  {
  }

  lemma CountedRuns(w: World, i: nat, c: Choice) returns (end: World)
    requires i < |w.procs| && w.procs[i].WorkerCounted?
    ensures RunsTo(w, end, i, c)
    ensures var p := w.procs[i];
            var id, attempt := p.task.paymentId, RetryCountOf(w.db, p.task.paymentId);
            if attempt >= w.limit
            then end.db == Commit(w.db, ExhaustTx(id, p.reason))
                 && Concluded(w, end, i, p.task.msg, [Message(id, DlqRecord(attempt, p.reason), None, false)])
            else end.db == Commit(w.db, RetryTx(id, attempt, p.reason, c.executeAt, p.ticket))
                 && Concluded(w, end, i, p.task.msg, [])
  {
    var v := WorkerStep(w, i, c);
    end := CheckedRuns(v, i, c);
  }

  lemma AnsweredRuns(w: World, i: nat, c: Choice) returns (end: World)
    requires i < |w.procs| && w.procs[i].WorkerAnswered? && InStatus(w.db, w.procs[i].task.paymentId, Processing)
    ensures RunsTo(w, end, i, c) && EndsHandled(w, end, i, w.procs[i].task, w.procs[i].result, c)
  {
    var p := w.procs[i];
    if !p.result.success && p.result.Transient() {
      end := FailedRuns(w, i, c);
    } else {
      var v := WorkerStep(w, i, c);
      end := DoneRuns(v, i, c);
    }
  }

  lemma ClaimedRuns(w: World, i: nat, c: Choice) returns (end: World)
    requires i < |w.procs| && w.procs[i].WorkerClaimed? && !InStatus(w.db, w.procs[i].task.paymentId, Pending)
    ensures RunsTo(w, end, i, c) && EndsHandled(w, end, i, w.procs[i].task, c.result, c)
  {
    var v := WorkerStep(w, i, c);
    if v.procs[i].WorkerCleared? {
      var x := WorkerStep(v, i, c);
      var y := WorkerStep(x, i, c);
      end := AnsweredRuns(y, i, c);
    } else {
      end := DoneRuns(v, i, c);
    }
  }

  /** A delivered handler that meets no other takes the tables exactly where the sequential handler does,
      acknowledges its message, and sends one DLQ record exactly when it gives up. */
  lemma SoloRunIsHandler(w: World, i: nat, c: Choice) returns (end: World)
    requires i < |w.procs| && w.procs[i].WorkerStarted?
    ensures RunsTo(w, end, i, c) && EndsHandled(w, end, i, w.procs[i].task, c.result, c)
  {
    var v := WorkerStep(w, i, c);
    BeginAbsorbed(w.db, w.procs[i].task.paymentId, c.result, c.executeAt, w.limit);
    end := ClaimedRuns(v, i, c);
  }

  /** Beginning twice is beginning once. */
  lemma BeginAbsorbed(db: Db, id: PaymentId, result: GatewayResult, executeAt: Instant, limit: int)
    ensures var begun := Commit(db, BeginTx(id));
            && !InStatus(begun, id, Pending)
            && RetryCountOf(begun, id) == RetryCountOf(db, id)
            && HandledDb(begun, id, result, executeAt, limit) == HandledDb(db, id, result, executeAt, limit)
            && DlqSent(begun, id, result, limit) == DlqSent(db, id, result, limit)
  {
  }
}
