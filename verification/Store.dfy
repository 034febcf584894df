/** The repositories and transactions as they run: rows are read, patched, appended and flagged step by
    step. Each transaction is proved to leave exactly the state `Commit` says, whatever it found. */
module Store {
  import opened Domain
  import opened Tables
  import opened Journal

  class PaymentStore {
    var payments: seq<Payment>
    var events: seq<EventRow>
    var outbox: seq<OutboxRow>
    var retries: seq<RetryRow>
    var hooks: map<string, HookRow>
    var idem: map<string, IdemRow>

    function View(): Db
      reads this
    {
      Db(payments, events, outbox, retries, hooks, idem)
    }

    constructor ()
      ensures View() == EmptyDb()
    {
      payments, events, outbox, retries, hooks, idem := [], [], [], [], map[], map[];
    }

    // ---- payment.repository -----------------------------------------------------------------

    method FindById(id: PaymentId) returns (found: Option<Payment>)
      ensures found.Some? <==> id < |payments|
      ensures found.Some? ==> found.value == payments[id]
    {
      found := if id < |payments| then Some(payments[id]) else None;
    }

    /** Builds the patch column by column and writes it under `where: { id, version: fromVersion }`;
        no row matched is an optimistic lock conflict. */
    method UpdateStatus(id: PaymentId, fromVersion: nat, patch: Patch) returns (updated: Option<Payment>)
      modifies this`payments
      ensures updated.Some? <==> VersionMatches(old(View()), id, fromVersion)
      ensures updated.None? ==> payments == old(payments)
      ensures updated.Some? ==>
                payments == old(payments)[id := Patched(old(payments)[id], patch)] && updated.value == payments[id]
      ensures updated.Some? ==>
                var was, now := old(payments)[id], payments[id];
                && now == was.(status := now.status, gatewayRef := now.gatewayRef, failureReason := now.failureReason,
                               retryCount := now.retryCount, version := fromVersion + 1)
                && now.status == (if patch.status.Some? then patch.status.value else was.status)
                && now.gatewayRef == (if patch.gatewayRef.Some? then patch.gatewayRef.value else was.gatewayRef)
                && now.failureReason == (if patch.failureReason.Some? then patch.failureReason.value
                                         else was.failureReason)
                && now.retryCount == (if patch.retryCount.Some? then patch.retryCount.value else was.retryCount)
    {
      if id >= |payments| || payments[id].version != fromVersion {
        return None;
      }
      var data := payments[id].(version := fromVersion + 1);
      if patch.status.Some? { data := data.(status := patch.status.value); }
      if patch.gatewayRef.Some? { data := data.(gatewayRef := patch.gatewayRef.value); }
      if patch.failureReason.Some? { data := data.(failureReason := patch.failureReason.value); }
      if patch.retryCount.Some? { data := data.(retryCount := patch.retryCount.value); }
      payments := payments[id := data];
      updated := Some(payments[id]);
    }

    method AppendEvent(id: PaymentId, event: Event)
      modifies this`events
      ensures events == old(events) + [EventRow(id, event)]
    {
      events := events + [EventRow(id, event)];
    }

    // ---- outbox.repository ------------------------------------------------------------------

    method Enqueue(id: PaymentId, payload: Payload)
      modifies this`outbox
      ensures outbox == old(outbox) + [NewRow(id, payload)]
    {
      outbox := outbox + [OutboxRow(id, payload, false, 0, None)];
    }

    method MarkPublished(row: nat)
      requires row < |outbox|
      modifies this`outbox
      ensures View() == Commit(old(View()), PublishedTx(row))
      ensures outbox == old(outbox)[row := old(outbox)[row].(published := true, lastError := None)]
    {
      outbox := outbox[row := outbox[row].(published := true, lastError := None)];
    }

    method MarkFailure(row: nat, error: string)
      requires row < |outbox|
      modifies this`outbox
      ensures View() == Commit(old(View()), FailureTx(row, error))
      ensures var was, kept := old(outbox)[row], if |error| <= 2000 then error else error[..2000];
              outbox == old(outbox)[row := was.(attempts := was.attempts + 1, lastError := Some(kept))]
    {
      outbox := outbox[row := outbox[row].(attempts := outbox[row].attempts + 1, lastError := Some(Clip(error)))];
    }

    // ---- payment.worker transactions --------------------------------------------------------

    method BeginProcessing(id: PaymentId)
      modifies this`payments, this`events, this`outbox
      ensures View() == Commit(old(View()), BeginTx(id))
      ensures InStatus(old(View()), id, Pending) ==>
                var was := old(payments)[id];
                && payments == old(payments)[id := was.(status := Processing, version := was.version + 1)]
                && events == old(events) + [EventRow(id, ProcessingStarted)]
                && outbox == old(outbox) + Rows(id, [ProcessingNote])
      ensures !InStatus(old(View()), id, Pending) ==> View() == old(View())
    {
      var locked := FindById(id);
      if locked.None? || IsTerminal(locked.value.status) {
        return;
      }
      if locked.value.status == Pending {
        var u := UpdateStatus(id, locked.value.version, Patch(Some(Processing), None, None, None));
        assert u.Some?;  // the row is locked: its version cannot have moved
        AppendEvent(id, ProcessingStarted);
        Enqueue(id, ProcessingNote);
        EnqueueOne(old(outbox), id, ProcessingNote);
      }
    }

    method SettleSuccess(id: PaymentId, txnId: Option<string>, duplicate: bool) returns (updated: bool)
      modifies this`payments, this`events, this`outbox
      ensures View() == Commit(old(View()), SettleTx(id, txnId, duplicate))
      ensures updated <==> InStatus(old(View()), id, Processing)
      ensures updated ==>
                var was := old(payments)[id];
                var ref := if txnId.Some? then txnId else was.gatewayRef;
                && payments == old(payments)[id :=
                     was.(status := Success, gatewayRef := ref, failureReason := None, version := was.version + 1)]
                && events == old(events) + [EventRow(id, Settled(txnId, duplicate))]
                && outbox == old(outbox) + Rows(id, [SuccessNote(Worker, duplicate), Notification, Audit(None)])
      ensures !updated ==> View() == old(View())
    {
      var locked := FindById(id);
      if locked.None? || locked.value.status != Processing {
        return false;
      }
      var ref := if txnId.Some? then txnId else locked.value.gatewayRef;
      var u := UpdateStatus(id, locked.value.version, Patch(Some(Success), Some(ref), Some(None), None));
      assert u.Some?;
      AppendEvent(id, Settled(txnId, duplicate));
      Enqueue(id, SuccessNote(Worker, duplicate));
      Enqueue(id, Notification);
      Enqueue(id, Audit(None));
      EnqueueThree(old(outbox), id, SuccessNote(Worker, duplicate), Notification, Audit(None));
      updated := true;
    }

    method MarkExhausted(id: PaymentId, reason: string)
      modifies this`payments, this`events, this`outbox
      ensures View() == Commit(old(View()), ExhaustTx(id, reason))
      ensures InStatus(old(View()), id, Processing) ==>
                var was := old(payments)[id];
                && payments == old(payments)[id :=
                     was.(status := Failed, failureReason := Some("max_retries:" + reason), version := was.version + 1)]
                && events == old(events) + [EventRow(id, Exhausted(reason))]
                && outbox == old(outbox) + Rows(id, [FailedNote(Worker, Some(reason))])
      ensures !InStatus(old(View()), id, Processing) ==> View() == old(View())
    {
      var locked := FindById(id);
      if locked.None? || locked.value.status != Processing {
        return;
      }
      var u := UpdateStatus(id, locked.value.version,
                            Patch(Some(Failed), None, Some(Some("max_retries:" + reason)), None));
      assert u.Some?;
      AppendEvent(id, Exhausted(reason));
      Enqueue(id, FailedNote(Worker, Some(reason)));
      EnqueueOne(old(outbox), id, FailedNote(Worker, Some(reason)));
    }

    method MarkPermanentFailure(id: PaymentId, reason: string)
      modifies this`payments, this`events, this`outbox
      ensures View() == Commit(old(View()), DeclineTx(id, reason))
      ensures InStatus(old(View()), id, Processing) ==>
                var was := old(payments)[id];
                && payments == old(payments)[id :=
                     was.(status := Failed, failureReason := Some(reason), version := was.version + 1)]
                && events == old(events) + [EventRow(id, Declined(reason))]
                && outbox == old(outbox) + Rows(id, [FailedNote(Worker, Some(reason))])
      ensures !InStatus(old(View()), id, Processing) ==> View() == old(View())
    {
      var locked := FindById(id);
      if locked.None? || locked.value.status != Processing {
        return;
      }
      var u := UpdateStatus(id, locked.value.version, Patch(Some(Failed), None, Some(Some(reason)), None));
      assert u.Some?;
      AppendEvent(id, Declined(reason));
      Enqueue(id, FailedNote(Worker, Some(reason)));
      EnqueueOne(old(outbox), id, FailedNote(Worker, Some(reason)));
    }

    /** `updateMany` with an increment: no version is read or written. */
    method IncrementRetryCount(id: PaymentId)
      modifies this`payments
      ensures View() == Commit(old(View()), CountTx(id))
      ensures payments ==
                if id >= |old(payments)| then old(payments)
                else old(payments)[id := old(payments)[id].(retryCount := old(payments)[id].retryCount + 1)]
    {
      if id < |payments| {
        payments := payments[id := payments[id].(retryCount := payments[id].retryCount + 1)];
      }
    }

    // ---- retryScheduler and retry.consumer --------------------------------------------------

    /** The retry row and its order, in one transaction; the order carries the new row's id. */
    method ScheduleRetry(id: PaymentId, retryCount: nat, reason: string, executeAt: Instant, ticket: nat)
      modifies this`retries, this`outbox
      ensures View() == Commit(old(View()), RetryTx(id, retryCount, reason, executeAt, ticket))
      ensures retries == old(retries) + [RetryRow(id, retryCount, executeAt, reason, false, ticket)]
      ensures outbox == old(outbox) + Rows(id, [RetryOrder(retryCount, reason, executeAt, |old(retries)|)])
    {
      var record := |retries|;
      retries := retries + [RetryRow(id, retryCount, executeAt, reason, false, ticket)];
      Enqueue(id, RetryOrder(retryCount, reason, executeAt, record));
    }

    method MarkRelayed(record: nat)
      modifies this`retries
      ensures View() == Commit(old(View()), RelayedTx(record))
      ensures retries ==
                if record >= |old(retries)| then old(retries)
                else old(retries)[record := old(retries)[record].(processed := true)]
    {
      if record < |retries| {
        retries := retries[record := retries[record].(processed := true)];
      }
    }

    // ---- webhook.service --------------------------------------------------------------------

    /** The outcome's rows: success with a notification, or failure; then the audit row. */
    method EnqueueOutcome(id: PaymentId, hook: Hook)
      modifies this`outbox
      ensures outbox == EnqueueAll(old(outbox), id, HookLetters(hook))
    {
      if hook.success {
        Enqueue(id, SuccessNote(Webhook, false));
        Enqueue(id, Notification);
        EnqueueThree(old(outbox), id, SuccessNote(Webhook, false), Notification, Audit(Some(hook.eventId)));
      } else {
        Enqueue(id, FailedNote(Webhook, hook.reason));
        EnqueueThree(old(outbox), id, FailedNote(Webhook, hook.reason), Audit(Some(hook.eventId)), Notification);
      }
      Enqueue(id, Audit(Some(hook.eventId)));
    }

    /** The webhook's transaction, with the payment it read before without a lock. A taken event id or
        a version conflict throws, and everything written so far is rolled back. */
    method ApplyWebhook(hook: Hook, payment: Option<Payment>) returns (committed: bool)
      modifies this
      ensures View() == Commit(old(View()), HookTx(hook, payment))
      ensures !committed ==> View() == old(View())
      ensures committed <==>
                (hook.eventId !in old(hooks)
                 && (HookApplies(hook, payment) ==> VersionMatches(old(View()), hook.paymentId, payment.value.version)))
    {
      if hook.eventId in hooks {
        return false;
      }
      var saved := hooks;
      hooks := hooks[hook.eventId := HookRow(hook.paymentId, hook, false)];
      if payment.None? || !ShouldApply(payment.value.status, hook.Target()) || IsTerminal(payment.value.status) {
        hooks := hooks[hook.eventId := HookRow(hook.paymentId, hook, true)];
        return true;
      }
      assert AssertWebhookTerminal(payment.value.status, hook.Target()).None?;
      var id := hook.paymentId;
      var u := UpdateStatus(id, payment.value.version, HookPatch(hook, payment.value));
      if u.None? {
        hooks := saved;
        return false;
      }
      AppendEvent(id, if hook.success then HookSucceeded(hook.eventId, hook.gatewayRef)
                      else HookFailed(hook.eventId, hook.gatewayRef, hook.reason));
      EnqueueOutcome(id, hook);
      hooks := hooks[hook.eventId := HookRow(id, hook, true)];
      assert hooks == old(hooks)[hook.eventId := HookRow(id, hook, true)];
      committed := true;
    }

    /** `handleStructured` with nothing in between its reads and its writes: a known event id is a
        duplicate, and a new one cannot conflict. */
    method HandleStructured(hook: Hook) returns (duplicate: bool)
      modifies this
      ensures duplicate <==> hook.eventId in old(hooks)
      ensures duplicate ==> View() == old(View())
      ensures retries == old(retries) && idem == old(idem)
      ensures hook.eventId in hooks
      ensures !duplicate ==> hooks == old(hooks)[hook.eventId := HookRow(hook.paymentId, hook, true)]
      ensures !duplicate && hook.paymentId < |old(payments)| ==> Terminal(View(), hook.paymentId)
      ensures !duplicate && OpenIn(old(View()), hook.paymentId) ==>
                && payments == old(payments)[hook.paymentId := DecidedBy(hook, old(payments)[hook.paymentId])]
                && events == old(events) + [EventRow(hook.paymentId,
                     if hook.success then HookSucceeded(hook.eventId, hook.gatewayRef)
                     else HookFailed(hook.eventId, hook.gatewayRef, hook.reason))]
                && outbox == old(outbox) + Rows(hook.paymentId,
                     if hook.success then [SuccessNote(Webhook, false), Notification, Audit(Some(hook.eventId))]
                     else [FailedNote(Webhook, hook.reason), Audit(Some(hook.eventId))])
      ensures duplicate || !OpenIn(old(View()), hook.paymentId) ==>
                payments == old(payments) && events == old(events) && outbox == old(outbox)
    {
      if hook.eventId in hooks {
        return true;
      }
      var payment := FindById(hook.paymentId);
      EnqueueRows(outbox, hook.paymentId, HookLetters(hook));
      var committed := ApplyWebhook(hook, payment);
      assert committed;
      duplicate := false;
    }

    // ---- payment.service --------------------------------------------------------------------

    /** `createPayment`: four inserts in one transaction, then the read-back that makes the reply. */
    method CreatePayment(key: string, input: CreateInput, now: Instant) returns (reply: Option<Body>)
      modifies this`payments, this`events, this`outbox, this`idem
      ensures input.amount <= 0.0 || key in old(idem) ==> reply.None? && View() == old(View())
      ensures input.amount > 0.0 && key !in old(idem) ==>
                && View() == Commit(old(View()), CreateTx(key, input, now))
                && var id := |old(payments)|;
                   var body := Body(id, input.amount, input.currency, input.metadata, input.correlationId, now,
                                    Pending, None, None, 0);
                   && reply == Some(body)
                   && payments == old(payments) + [Payment(input.amount, input.currency, input.metadata,
                                                           input.correlationId, now, Pending, None, None, 0, 0)]
                   && events == old(events) + [EventRow(id, Initiated)]
                   && outbox == old(outbox) + Rows(id, [InitiatedNote])
                   && idem == old(idem)[key := IdemRow(id, body, 201)]
    {
      if input.amount <= 0.0 {
        return None;
      }
      var savedPayments, savedEvents, savedOutbox := payments, events, outbox;
      var id := |payments|;
      var payment := NewPayment(input, now);
      payments := payments + [payment];
      AppendEvent(id, Initiated);
      Enqueue(id, InitiatedNote);
      if key in idem {
        // the key is unique: the transaction's last insert fails and the first three are rolled back
        payments, events, outbox := savedPayments, savedEvents, savedOutbox;
        return None;
      }
      idem := idem[key := IdemRow(id, ResponseOf(id, payment), 201)];
      var full := idem[key];
      reply := Some(ResponseOf(full.paymentId, payments[full.paymentId]));
    }
  }

  predicate OpenIn(db: Db, id: PaymentId) {
    id < |db.payments| && !IsTerminal(db.payments[id].status)
  }

  /** What a webhook makes of an open payment: nothing else about it changes. */
  function DecidedBy(hook: Hook, was: Payment): Payment {
    was.(status := if hook.success then Success else Failed,
         gatewayRef := if hook.gatewayRef.Some? then hook.gatewayRef else was.gatewayRef,
         failureReason := if hook.success then None
                          else if hook.reason.Some? then hook.reason else Some("webhook_failed"),
         version := was.version + 1)
  }

  function Rows(id: PaymentId, letters: seq<Payload>): seq<OutboxRow> {
    seq(|letters|, k requires 0 <= k < |letters| => OutboxRow(id, letters[k], false, 0, None))
  }

  lemma EnqueueRows(outbox: seq<OutboxRow>, id: PaymentId, letters: seq<Payload>)
    ensures EnqueueAll(outbox, id, letters) == outbox + Rows(id, letters)
  {
    EnqueueAllAppends(outbox, id, letters);
  }

  lemma EnqueueOne(outbox: seq<OutboxRow>, id: PaymentId, a: Payload)
    ensures EnqueueAll(outbox, id, [a]) == outbox + [NewRow(id, a)]
  {
    EnqueueAllAppends(outbox, id, [a]);
  }

  lemma EnqueueThree(outbox: seq<OutboxRow>, id: PaymentId, a: Payload, b: Payload, c: Payload)
    ensures EnqueueAll(outbox, id, [a, b]) == outbox + [NewRow(id, a)] + [NewRow(id, b)]
    ensures EnqueueAll(outbox, id, [a, b, c]) == outbox + [NewRow(id, a)] + [NewRow(id, b)] + [NewRow(id, c)]
  {
    EnqueueAllAppends(outbox, id, [a, b]);
    EnqueueAllAppends(outbox, id, [a, b, c]);
  }
}
