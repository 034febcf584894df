/** The Postgres tables as a value, and the meaning of each committed transaction.

    `Commit(db, tx)` is the specification: the store's imperative methods are proved equal to it,
    and the protocol interleaves it. A transaction that rolls back commits nothing. */
module Tables {
  import opened Domain

  datatype Payment = Payment(
    amount: real, currency: string, metadata: Option<string>, correlationId: Option<string>, createdAt: Instant,
    status: Status, gatewayRef: Option<string>, failureReason: Option<string>, retryCount: nat, version: nat)

  datatype EventRow = EventRow(paymentId: PaymentId, event: Event)

  /** Rows are kept in `createdAt` order, so a row's id is also its age. */
  datatype OutboxRow = OutboxRow(
    aggregateId: PaymentId, payload: Payload, published: bool, attempts: nat, lastError: Option<string>)

  /** `ticket` is a history variable: the value the scheduling worker's own increment gave the
      payment's retry count. No step reads it. */
  datatype RetryRow = RetryRow(
    paymentId: PaymentId, retryCount: nat, executeAt: Instant, reason: string, processed: bool, ticket: nat)

  /** `canonical` is the parsed call kept in the stored payload. */
  datatype HookRow = HookRow(paymentId: PaymentId, canonical: Hook, processed: bool)

  /** The JSON body of a payment reply. */
  datatype Body = Body(
    id: PaymentId, amount: real, currency: string, metadata: Option<string>, correlationId: Option<string>,
    createdAt: Instant, status: Status, gatewayRef: Option<string>, failureReason: Option<string>, retryCount: nat)

  datatype IdemRow = IdemRow(paymentId: PaymentId, body: Body, statusCode: nat)

  datatype Db = Db(
    payments: seq<Payment>, events: seq<EventRow>, outbox: seq<OutboxRow>, retries: seq<RetryRow>,
    hooks: map<string, HookRow>, idem: map<string, IdemRow>)

  function EmptyDb(): Db {
    Db([], [], [], [], map[], map[])
  }

  function ResponseOf(id: PaymentId, p: Payment): Body {
    Body(id, p.amount, p.currency, p.metadata, p.correlationId, p.createdAt,
         p.status, p.gatewayRef, p.failureReason, p.retryCount)
  }

  function NewPayment(input: CreateInput, now: Instant): Payment {
    Payment(input.amount, input.currency, input.metadata, input.correlationId, now, Pending, None, None, 0, 0)
  }

  function NewRow(id: PaymentId, payload: Payload): OutboxRow {
    OutboxRow(id, payload, false, 0, None)
  }

  /** The outbox after enqueueing the letters in order. */
  function EnqueueAll(outbox: seq<OutboxRow>, id: PaymentId, letters: seq<Payload>): seq<OutboxRow>
    decreases |letters|
  {
    if letters == [] then outbox
    else EnqueueAll(outbox + [NewRow(id, letters[0])], id, letters[1..])
  }

  /** The columns `updateStatus` may set; `None` leaves a column alone, `Some(None)` writes null. */
  datatype Patch = Patch(
    status: Option<Status>, gatewayRef: Option<Option<string>>, failureReason: Option<Option<string>>,
    retryCount: Option<nat>)

  function Patched(p: Payment, patch: Patch): Payment {
    p.(status := if patch.status.Some? then patch.status.value else p.status,
       gatewayRef := if patch.gatewayRef.Some? then patch.gatewayRef.value else p.gatewayRef,
       failureReason := if patch.failureReason.Some? then patch.failureReason.value else p.failureReason,
       retryCount := if patch.retryCount.Some? then patch.retryCount.value else p.retryCount,
       version := p.version + 1)
  }

  /** A status change with its journal entry and its outbox rows. */
  function Transition(db: Db, id: PaymentId, patch: Patch, event: Event, letters: seq<Payload>): Db
    requires id < |db.payments|
  {
    db.(payments := db.payments[id := Patched(db.payments[id], patch)],
        events := db.events + [EventRow(id, event)],
        outbox := EnqueueAll(db.outbox, id, letters))
  }

  datatype Tx =
    | NoTx
    | CreateTx(key: string, input: CreateInput, now: Instant)
    | BeginTx(id: PaymentId)
    | SettleTx(id: PaymentId, txnId: Option<string>, duplicate: bool)
    | ExhaustTx(id: PaymentId, reason: string)
    | DeclineTx(id: PaymentId, reason: string)
    | CountTx(id: PaymentId)
    | RetryTx(id: PaymentId, attempt: nat, reason: string, executeAt: Instant, ticket: nat)
    | HookTx(hook: Hook, seen: Option<Payment>)
    | PublishedTx(row: nat)
    | FailureTx(row: nat, error: string)
    | RelayedTx(record: nat)

  predicate InStatus(db: Db, id: PaymentId, s: Status) {
    id < |db.payments| && db.payments[id].status == s
  }

  predicate Terminal(db: Db, id: PaymentId) {
    id < |db.payments| && IsTerminal(db.payments[id].status)
  }

  function StatusPatch(s: Status): Patch {
    Patch(Some(s), None, None, None)
  }

  function SettlePatch(p: Payment, txnId: Option<string>): Patch {
    Patch(Some(Success), Some(OrElse(txnId, p.gatewayRef)), Some(None), None)
  }

  function FailPatch(reason: string): Patch {
    Patch(Some(Failed), None, Some(Some(reason)), None)
  }

  function HookPatch(hook: Hook, seen: Payment): Patch {
    Patch(Some(hook.Target()), Some(OrElse(hook.gatewayRef, seen.gatewayRef)),
          Some(if hook.success then None else OrElse(hook.reason, Some("webhook_failed"))), None)
  }

  function HookEvent(hook: Hook): Event {
    if hook.success then HookSucceeded(hook.eventId, hook.gatewayRef)
    else HookFailed(hook.eventId, hook.gatewayRef, hook.reason)
  }

  function SettleLetters(duplicate: bool): seq<Payload> {
    [SuccessNote(Worker, duplicate), Notification, Audit(None)]
  }

  function FailLetters(reason: string): seq<Payload> {
    [FailedNote(Worker, Some(reason))]
  }

  function HookLetters(hook: Hook): seq<Payload> {
    if hook.success then [SuccessNote(Webhook, false), Notification, Audit(Some(hook.eventId))]
    else [FailedNote(Webhook, hook.reason), Audit(Some(hook.eventId))]
  }

  /** The webhook goes on to change the payment: it was found, and it was not terminal when read. */
  predicate HookApplies(hook: Hook, seen: Option<Payment>) {
    seen.Some? && ShouldApply(seen.value.status, hook.Target()) && !IsTerminal(seen.value.status)
  }

  /** `where: { id, version: fromVersion }` finds the row. */
  predicate VersionMatches(db: Db, id: PaymentId, fromVersion: nat) {
    id < |db.payments| && db.payments[id].version == fromVersion
  }

  function CreateCommit(db: Db, key: string, input: CreateInput, now: Instant): Db {
    var id := |db.payments|;
    var p := NewPayment(input, now);
    db.(payments := db.payments + [p],
        events := db.events + [EventRow(id, Initiated)],
        outbox := db.outbox + [NewRow(id, InitiatedNote)],
        idem := db.idem[key := IdemRow(id, ResponseOf(id, p), 201)])
  }

  function HookCommit(db: Db, hook: Hook, seen: Option<Payment>): Db {
    var id := hook.paymentId;
    var recorded := db.(hooks := db.hooks[hook.eventId := HookRow(id, hook, true)]);
    if !HookApplies(hook, seen) then recorded
    else if !VersionMatches(db, id, seen.value.version) then db
    else Transition(recorded, id, HookPatch(hook, seen.value), HookEvent(hook), HookLetters(hook))
  }

  /** The record's number is the retry row's own id. */
  function RetryCommit(db: Db, tx: Tx): Db
    requires tx.RetryTx?
  {
    db.(retries := db.retries + [RetryRow(tx.id, tx.attempt, tx.executeAt, tx.reason, false, tx.ticket)],
        outbox := db.outbox + [NewRow(tx.id, RetryOrder(tx.attempt, tx.reason, tx.executeAt, |db.retries|))])
  }

  /** The database after the transaction, if it ran alone between the states it read and wrote. */
  function Commit(db: Db, tx: Tx): Db {
    match tx
    case NoTx => db
    case CreateTx(key, input, now) =>
      if key in db.idem then db else CreateCommit(db, key, input, now)
    case BeginTx(id) =>
      if InStatus(db, id, Pending) then Transition(db, id, StatusPatch(Processing), ProcessingStarted, [ProcessingNote])
      else db
    case SettleTx(id, txnId, duplicate) =>
      if InStatus(db, id, Processing)
      then Transition(db, id, SettlePatch(db.payments[id], txnId), Settled(txnId, duplicate), SettleLetters(duplicate))
      else db
    case ExhaustTx(id, reason) =>
      if InStatus(db, id, Processing)
      then Transition(db, id, FailPatch("max_retries:" + reason), Exhausted(reason), FailLetters(reason))
      else db
    case DeclineTx(id, reason) =>
      if InStatus(db, id, Processing) then Transition(db, id, FailPatch(reason), Declined(reason), FailLetters(reason))
      else db
    case CountTx(id) =>
      if id < |db.payments|
      then db.(payments := db.payments[id := db.payments[id].(retryCount := db.payments[id].retryCount + 1)])
      else db
    case RetryTx(_, _, _, _, _) => RetryCommit(db, tx)
    case HookTx(hook, seen) =>
      if hook.eventId in db.hooks then db else HookCommit(db, hook, seen)
    case PublishedTx(row) =>
      if row < |db.outbox| then db.(outbox := db.outbox[row := db.outbox[row].(published := true, lastError := None)])
      else db
    case FailureTx(row, error) =>
      if row < |db.outbox|
      then db.(outbox := db.outbox[row :=
        db.outbox[row].(attempts := db.outbox[row].attempts + 1, lastError := Some(Clip(error)))])
      else db
    case RelayedTx(record) =>
      if record < |db.retries| then db.(retries := db.retries[record := db.retries[record].(processed := true)])
      else db
  }

  function Clip(error: string): string {
    if |error| <= 2000 then error else error[..2000]
  }
}
