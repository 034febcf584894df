/** What every transaction keeps, whatever the interleaving: rows only move forward, the first
    terminal decision stays, and the event list is an exact journal of status, version, reference
    and outbox rows. */
module Journal {
  import opened Domain
  import opened Tables

  // ---- Rows only move forward -------------------------------------------------------------

  /** `b` is a later state of the payment row `a`. */
  predicate Later(a: Payment, b: Payment) {
    && a.amount == b.amount && a.currency == b.currency && a.metadata == b.metadata
    && a.correlationId == b.correlationId && a.createdAt == b.createdAt
    && a.version <= b.version && a.retryCount <= b.retryCount
    && (a.version == b.version ==> SameDecision(a, b))
    && (IsTerminal(a.status) ==> a.version == b.version)
    && (a.status != Pending ==> b.status != Pending)
  }

  predicate SameDecision(a: Payment, b: Payment) {
    a.status == b.status && a.version == b.version && a.gatewayRef == b.gatewayRef && a.failureReason == b.failureReason
  }

  predicate LaterRow(a: OutboxRow, b: OutboxRow) {
    && a.aggregateId == b.aggregateId && a.payload == b.payload
    && (a.published ==> b.published) && a.attempts <= b.attempts
  }

  predicate LaterRetry(a: RetryRow, b: RetryRow) {
    b == a.(processed := b.processed) && (a.processed ==> b.processed)
  }

  /** Every row of `a` is in `b`, in the same or a later state. */
  ghost predicate Evolves(a: Db, b: Db) {
    && |a.payments| <= |b.payments| && (forall p | 0 <= p < |a.payments| :: Later(a.payments[p], b.payments[p]))
    && |a.outbox| <= |b.outbox| && (forall r | 0 <= r < |a.outbox| :: LaterRow(a.outbox[r], b.outbox[r]))
    && |a.retries| <= |b.retries| && (forall k | 0 <= k < |a.retries| :: LaterRetry(a.retries[k], b.retries[k]))
    && a.events <= b.events
    && (forall e | e in a.hooks :: e in b.hooks && b.hooks[e] == a.hooks[e])
    && (forall k | k in a.idem :: k in b.idem && b.idem[k] == a.idem[k])
  }

  lemma EvolvesTransitive(a: Db, b: Db, c: Db)
    requires Evolves(a, b) && Evolves(b, c)
    ensures Evolves(a, c)
  {
  }

  /** A webhook's unlocked read was the row's state at some earlier moment. */
  predicate Honest(db: Db, id: PaymentId, seen: Option<Payment>) {
    seen.Some? ==> id < |db.payments| && Later(seen.value, db.payments[id])
  }

  predicate Admissible(db: Db, tx: Tx) {
    tx.HookTx? ==> Honest(db, tx.hook.paymentId, tx.seen)
  }

  lemma {:induction false} EnqueueAllAppends(outbox: seq<OutboxRow>, id: PaymentId, letters: seq<Payload>)
    ensures outbox <= EnqueueAll(outbox, id, letters)
    ensures |EnqueueAll(outbox, id, letters)| == |outbox| + |letters|
    ensures forall k | |outbox| <= k < |outbox| + |letters| ::
              EnqueueAll(outbox, id, letters)[k] == NewRow(id, letters[k - |outbox|])
    decreases |letters|
  {
    if letters != [] {
      EnqueueAllAppends(outbox + [NewRow(id, letters[0])], id, letters[1..]);
    }
  }

  lemma TransitionEvolves(db: Db, id: PaymentId, patch: Patch, event: Event, letters: seq<Payload>)
    requires id < |db.payments| && !IsTerminal(db.payments[id].status)
    requires patch.status.Some? && patch.status.value != Pending && patch.retryCount.None?
    ensures Evolves(db, Transition(db, id, patch, event, letters))
  {
    EnqueueAllAppends(db.outbox, id, letters);
  }

  lemma HookEvolves(db: Db, hook: Hook, seen: Option<Payment>)
    requires Honest(db, hook.paymentId, seen) && hook.eventId !in db.hooks
    ensures Evolves(db, HookCommit(db, hook, seen))
  {
    var id := hook.paymentId;
    var recorded := db.(hooks := db.hooks[hook.eventId := HookRow(id, hook, true)]);
    assert Evolves(db, recorded);
    if HookApplies(hook, seen) && VersionMatches(db, id, seen.value.version) {
      TransitionEvolves(recorded, id, HookPatch(hook, seen.value), HookEvent(hook), HookLetters(hook));
      EvolvesTransitive(db, recorded, HookCommit(db, hook, seen));
    }
  }

  predicate Quiet(tx: Tx) {
    tx.NoTx? || tx.CreateTx? || tx.CountTx? || tx.RetryTx? || tx.PublishedTx? || tx.FailureTx? || tx.RelayedTx?
  }

  lemma QuietEvolves(db: Db, tx: Tx)
    requires Quiet(tx)
    ensures Evolves(db, Commit(db, tx))
  {
    match tx
    case NoTx =>
    case CreateTx(key, input, now) =>
      if key !in db.idem { CreateEvolves(db, key, input, now); }
    case CountTx(id) =>
      if id < |db.payments| {
        PaymentEvolves(db, id, db.payments[id].(retryCount := db.payments[id].retryCount + 1));
      }
    case RetryTx(_, _, _, _, _) => RetryEvolves(db, tx);
    case _ => MarkEvolves(db, tx);
  }

  lemma MarkEvolves(db: Db, tx: Tx)
    requires tx.PublishedTx? || tx.FailureTx? || tx.RelayedTx?
    ensures Evolves(db, Commit(db, tx))
  {
    if tx.RelayedTx? {
      if tx.record < |db.retries| { RecordEvolves(db, tx.record, Commit(db, tx).retries[tx.record]); }
    } else if tx.row < |db.outbox| {
      RowEvolves(db, tx.row, Commit(db, tx).outbox[tx.row]);
    }
  }

  lemma PaymentEvolves(db: Db, id: PaymentId, to: Payment)
    requires id < |db.payments| && Later(db.payments[id], to)
    ensures Evolves(db, db.(payments := db.payments[id := to]))
  {
  }

  lemma RowEvolves(db: Db, row: nat, to: OutboxRow)
    requires row < |db.outbox| && LaterRow(db.outbox[row], to)
    ensures Evolves(db, db.(outbox := db.outbox[row := to]))
  {
  }

  lemma RecordEvolves(db: Db, record: nat, to: RetryRow)
    requires record < |db.retries| && LaterRetry(db.retries[record], to)
    ensures Evolves(db, db.(retries := db.retries[record := to]))
  {
  }

  lemma CreateEvolves(db: Db, key: string, input: CreateInput, now: Instant)
    requires key !in db.idem
    ensures Evolves(db, CreateCommit(db, key, input, now))
  {
  }

  lemma RetryEvolves(db: Db, tx: Tx)
    requires tx.RetryTx?
    ensures Evolves(db, RetryCommit(db, tx))
  {
  }

  /** Every transaction, with any arguments, only moves rows forward. A webhook's commit needs an
      honest read for it; the version guard does the rest. */
  lemma CommitEvolves(db: Db, tx: Tx)
    requires Admissible(db, tx)
    ensures Evolves(db, Commit(db, tx))
  {
    if Quiet(tx) {
      QuietEvolves(db, tx);
    } else if tx.HookTx? {
      if tx.hook.eventId !in db.hooks { HookEvolves(db, tx.hook, tx.seen); }
    } else if tx.id < |db.payments| {
      WorkerEvolves(db, tx);
    }
  }

  lemma WorkerEvolves(db: Db, tx: Tx)
    requires tx.BeginTx? || tx.SettleTx? || tx.ExhaustTx? || tx.DeclineTx?
    requires tx.id < |db.payments|
    ensures Evolves(db, Commit(db, tx))
  {
    var p := db.payments[tx.id];
    if tx.BeginTx? {
      if p.status == Pending {
        TransitionEvolves(db, tx.id, StatusPatch(Processing), ProcessingStarted, [ProcessingNote]);
      }
    } else if p.status == Processing {
      match tx
      case SettleTx(id, txnId, duplicate) =>
        TransitionEvolves(db, id, SettlePatch(p, txnId), Settled(txnId, duplicate), SettleLetters(duplicate));
      case ExhaustTx(id, reason) =>
        TransitionEvolves(db, id, FailPatch("max_retries:" + reason), Exhausted(reason), FailLetters(reason));
      case DeclineTx(id, reason) =>
        TransitionEvolves(db, id, FailPatch(reason), Declined(reason), FailLetters(reason));
    }
  }

  // ---- The journal ------------------------------------------------------------------------

  function EventsOf(rows: seq<EventRow>, id: PaymentId): seq<Event> {
    if rows == [] then []
    else
      var n := |rows| - 1;
      EventsOf(rows[..n], id) + if rows[n].paymentId == id then [rows[n].event] else []
  }

  /** The payment's outbox rows other than retry orders, oldest first. */
  function LettersOf(outbox: seq<OutboxRow>, id: PaymentId): seq<Payload> {
    if outbox == [] then []
    else
      var n := |outbox| - 1;
      LettersOf(outbox[..n], id) +
      if outbox[n].aggregateId == id && !outbox[n].payload.RetryOrder? then [outbox[n].payload] else []
  }

  /** The rows each event comes with. */
  function LettersFor(e: Event): seq<Payload> {
    match e
    case Initiated => [InitiatedNote]
    case ProcessingStarted => [ProcessingNote]
    case Settled(_, duplicate) => [SuccessNote(Worker, duplicate), Notification, Audit(None)]
    case Exhausted(cause) => [FailedNote(Worker, Some(cause))]
    case Declined(reason) => [FailedNote(Worker, Some(reason))]
    case HookSucceeded(eventId, _) => [SuccessNote(Webhook, false), Notification, Audit(Some(eventId))]
    case HookFailed(eventId, _, failure) => [FailedNote(Webhook, failure), Audit(Some(eventId))]
  }

  function JournalLetters(events: seq<Event>): seq<Payload> {
    if events == [] then []
    else JournalLetters(events[..|events| - 1]) + LettersFor(events[|events| - 1])
  }

  function StatusAfter(e: Event): Status {
    match e
    case Initiated => Pending
    case ProcessingStarted => Processing
    case Settled(_, _) => Success
    case HookSucceeded(_, _) => Success
    case _ => Failed
  }

  function FailureAfter(e: Event): Option<string> {
    match e
    case Exhausted(cause) => Some("max_retries:" + cause)
    case Declined(reason) => Some(reason)
    case HookFailed(_, _, failure) => OrElse(failure, Some("webhook_failed"))
    case _ => None
  }

  function RefAfter(e: Event, ref: Option<string>): Option<string> {
    match e
    case Settled(gatewayRef, _) => OrElse(gatewayRef, ref)
    case HookSucceeded(_, hookRef) => OrElse(hookRef, ref)
    case HookFailed(_, hookRef, _) => OrElse(hookRef, ref)
    case _ => ref
  }

  /** The columns a decision sets. */
  datatype Standing = Standing(status: Status, gatewayRef: Option<string>, failureReason: Option<string>)

  function StandingOf(p: Payment): Standing {
    Standing(p.status, p.gatewayRef, p.failureReason)
  }

  /** What one gets by replaying the journal. */
  function Replay(events: seq<Event>): Standing {
    if events == [] then Standing(Pending, None, None)
    else
      var last := events[|events| - 1];
      Standing(StatusAfter(last), RefAfter(last, Replay(events[..|events| - 1]).gatewayRef), FailureAfter(last))
  }

  predicate Follows(s: Status, e: Event) {
    match e
    case Initiated => false
    case ProcessingStarted => s == Pending
    case HookSucceeded(_, _) => !IsTerminal(s)
    case HookFailed(_, _, _) => !IsTerminal(s)
    case _ => s == Processing
  }

  /** Starts with the creation; every later entry is a legal move from the status before it. */
  predicate LegalJournal(events: seq<Event>) {
    && |events| >= 1 && events[0] == Initiated
    && forall k | 1 <= k < |events| :: Follows(StatusAfter(events[k - 1]), events[k])
  }

  ghost predicate Journalled(db: Db, id: PaymentId)
    requires id < |db.payments|
  {
    var events := EventsOf(db.events, id);
    var p := db.payments[id];
    && LegalJournal(events)
    && p.version == |events| - 1
    && StandingOf(p) == Replay(events)
    && LettersOf(db.outbox, id) == JournalLetters(events)
  }

  /** The event list of every payment is its exact journal; no row is about an unknown payment. */
  ghost predicate JournalInv(db: Db) {
    && (forall id | 0 <= id < |db.payments| :: Journalled(db, id))
    && (forall k | 0 <= k < |db.events| :: db.events[k].paymentId < |db.payments|)
    && (forall k | 0 <= k < |db.outbox| :: db.outbox[k].aggregateId < |db.payments|)
  }

  lemma EventsAppend(rows: seq<EventRow>, row: EventRow, id: PaymentId)
    ensures EventsOf(rows + [row], id) == EventsOf(rows, id) + if row.paymentId == id then [row.event] else []
  {
    assert (rows + [row])[..|rows|] == rows;
  }

  lemma LettersAppend(outbox: seq<OutboxRow>, row: OutboxRow, id: PaymentId)
    ensures LettersOf(outbox + [row], id) == LettersOf(outbox, id) +
              if row.aggregateId == id && !row.payload.RetryOrder? then [row.payload] else []
  {
    assert (outbox + [row])[..|outbox|] == outbox;
  }

  lemma {:induction false} LettersEnqueue(outbox: seq<OutboxRow>, to: PaymentId, letters: seq<Payload>, id: PaymentId)
    requires forall k | 0 <= k < |letters| :: !letters[k].RetryOrder?
    ensures LettersOf(EnqueueAll(outbox, to, letters), id) ==
              LettersOf(outbox, id) + if to == id then letters else []
    decreases |letters|
  {
    if letters != [] {
      LettersAppend(outbox, NewRow(to, letters[0]), id);
      LettersEnqueue(outbox + [NewRow(to, letters[0])], to, letters[1..], id);
      if to == id {
        assert letters == [letters[0]] + letters[1..];
        assert LettersOf(outbox, id) + [letters[0]] + letters[1..] == LettersOf(outbox, id) + letters;
      }
    }
  }

  /** Publishing marks change no letter. */
  lemma {:induction false} LettersUpdate(outbox: seq<OutboxRow>, row: nat, to: OutboxRow, id: PaymentId)
    requires row < |outbox| && to.payload == outbox[row].payload && to.aggregateId == outbox[row].aggregateId
    ensures LettersOf(outbox[row := to], id) == LettersOf(outbox, id)
    decreases |outbox|
  {
    var n := |outbox| - 1;
    if row == n {
      assert outbox[row := to][..n] == outbox[..n];
    } else {
      LettersUpdate(outbox[..n], row, to, id);
      assert outbox[row := to][..n] == outbox[..n][row := to];
    }
  }

  lemma {:induction false} NoEventsOf(rows: seq<EventRow>, id: PaymentId)
    requires forall k | 0 <= k < |rows| :: rows[k].paymentId != id
    ensures EventsOf(rows, id) == []
  {
    if rows != [] {
      NoEventsOf(rows[..|rows| - 1], id);
    }
  }

  lemma {:induction false} NoLettersOf(outbox: seq<OutboxRow>, id: PaymentId)
    requires forall k | 0 <= k < |outbox| :: outbox[k].aggregateId != id
    ensures LettersOf(outbox, id) == []
  {
    if outbox != [] {
      NoLettersOf(outbox[..|outbox| - 1], id);
    }
  }

  lemma JournalExtends(events: seq<Event>, e: Event)
    requires LegalJournal(events) && Follows(StatusAfter(events[|events| - 1]), e)
    ensures LegalJournal(events + [e])
    ensures JournalLetters(events + [e]) == JournalLetters(events) + LettersFor(e)
    ensures Replay(events + [e]) == Standing(StatusAfter(e), RefAfter(e, Replay(events).gatewayRef), FailureAfter(e))
  {
    assert (events + [e])[..|events|] == events;
  }

  /** What a transaction's patch and letters must be for its event. */
  ghost predicate Matches(p: Payment, patch: Patch, e: Event, letters: seq<Payload>) {
    && Follows(p.status, e)
    && letters == LettersFor(e)
    && StandingOf(Patched(p, patch)) == Standing(StatusAfter(e), RefAfter(e, p.gatewayRef), FailureAfter(e))
  }

  lemma TransitionJournals(db: Db, id: PaymentId, patch: Patch, e: Event, letters: seq<Payload>)
    requires id < |db.payments| && Journalled(db, id) && Matches(db.payments[id], patch, e, letters)
    ensures Journalled(Transition(db, id, patch, e, letters), id)
  {
    EventsAppend(db.events, EventRow(id, e), id);
    LettersEnqueue(db.outbox, id, letters, id);
    var events := EventsOf(db.events, id);
    JournalExtends(events, e);
    assert StandingOf(db.payments[id]) == Replay(events);
    assert EventsOf(Transition(db, id, patch, e, letters).events, id) == events + [e];
  }

  lemma TransitionKeepsJournal(db: Db, id: PaymentId, patch: Patch, e: Event, letters: seq<Payload>)
    requires JournalInv(db) && id < |db.payments| && Matches(db.payments[id], patch, e, letters)
    ensures JournalInv(Transition(db, id, patch, e, letters))
  {
    var after := Transition(db, id, patch, e, letters);
    EnqueueAllAppends(db.outbox, id, letters);
    TransitionJournals(db, id, patch, e, letters);
    forall q | 0 <= q < |after.payments| && q != id ensures Journalled(after, q) {
      EventsAppend(db.events, EventRow(id, e), q);
      LettersEnqueue(db.outbox, id, letters, q);
      assert Journalled(db, q);
      assert EventsOf(after.events, q) == EventsOf(db.events, q);
    }
  }

  lemma CreateKeepsJournal(db: Db, key: string, input: CreateInput, now: Instant)
    requires JournalInv(db)
    ensures JournalInv(CreateCommit(db, key, input, now))
  {
    var after := CreateCommit(db, key, input, now);
    var id := |db.payments|;
    NewPaymentJournalled(db, key, input, now);
    forall q | 0 <= q < id ensures Journalled(after, q) {
      EventsAppend(db.events, EventRow(id, Initiated), q);
      LettersAppend(db.outbox, NewRow(id, InitiatedNote), q);
      assert Journalled(db, q);
      assert EventsOf(after.events, q) == EventsOf(db.events, q);
      assert LettersOf(after.outbox, q) == LettersOf(db.outbox, q);
    }
  }

  lemma NewPaymentJournalled(db: Db, key: string, input: CreateInput, now: Instant)
    requires JournalInv(db)
    ensures Journalled(CreateCommit(db, key, input, now), |db.payments|)
  {
    var id := |db.payments|;
    EventsAppend(db.events, EventRow(id, Initiated), id);
    LettersAppend(db.outbox, NewRow(id, InitiatedNote), id);
    NoEventsOf(db.events, id);
    NoLettersOf(db.outbox, id);
    CreationIsLegal();
    assert EventsOf(CreateCommit(db, key, input, now).events, id) == [Initiated];
    assert LettersOf(CreateCommit(db, key, input, now).outbox, id) == [InitiatedNote];
  }

  lemma CreationIsLegal()
    ensures LegalJournal([Initiated]) && Replay([Initiated]) == Standing(Pending, None, None)
    ensures JournalLetters([Initiated]) == [InitiatedNote]
  {
    assert [Initiated][..0] == [];
  }

  lemma UnmovedKeepsJournal(db: Db, after: Db)
    requires JournalInv(db)
    requires |after.payments| == |db.payments| && after.events == db.events
    requires forall p | 0 <= p < |db.payments| :: SameDecision(db.payments[p], after.payments[p])
    requires forall k | 0 <= k < |after.outbox| :: after.outbox[k].aggregateId < |db.payments|
    requires forall p :: LettersOf(after.outbox, p) == LettersOf(db.outbox, p)
    ensures JournalInv(after)
  {
    forall q | 0 <= q < |after.payments| ensures Journalled(after, q) {
      assert Journalled(db, q);
    }
  }

  /** Every transaction keeps the journal exact. A retry is only ever scheduled for a payment that
      exists, and a webhook's read must be honest. */
  lemma CommitKeepsJournal(db: Db, tx: Tx)
    requires JournalInv(db) && Admissible(db, tx) && (tx.RetryTx? ==> tx.id < |db.payments|)
    ensures JournalInv(Commit(db, tx))
  {
    match tx
    case NoTx =>
    case CreateTx(key, input, now) =>
      if key !in db.idem { CreateKeepsJournal(db, key, input, now); }
    case BeginTx(id) =>
      if InStatus(db, id, Pending) {
        assert Journalled(db, id);
        TransitionKeepsJournal(db, id, StatusPatch(Processing), ProcessingStarted, [ProcessingNote]);
      }
    case SettleTx(id, txnId, duplicate) =>
      if InStatus(db, id, Processing) {
        var patch := SettlePatch(db.payments[id], txnId);
        TransitionKeepsJournal(db, id, patch, Settled(txnId, duplicate), SettleLetters(duplicate));
      }
    case ExhaustTx(id, reason) =>
      if InStatus(db, id, Processing) {
        TransitionKeepsJournal(db, id, FailPatch("max_retries:" + reason), Exhausted(reason), FailLetters(reason));
      }
    case DeclineTx(id, reason) =>
      if InStatus(db, id, Processing) {
        TransitionKeepsJournal(db, id, FailPatch(reason), Declined(reason), FailLetters(reason));
      }
    case HookTx(hook, seen) => HookKeepsJournal(db, hook, seen);
    case _ => QuietKeepsJournal(db, tx);
  }

  lemma HookKeepsJournal(db: Db, hook: Hook, seen: Option<Payment>)
    requires JournalInv(db) && Honest(db, hook.paymentId, seen)
    ensures JournalInv(HookCommit(db, hook, seen))
  {
    var id := hook.paymentId;
    var recorded := db.(hooks := db.hooks[hook.eventId := HookRow(id, hook, true)]);
    UnmovedKeepsJournal(db, recorded);
    if HookApplies(hook, seen) && VersionMatches(db, id, seen.value.version) {
      assert SameDecision(seen.value, db.payments[id]);
      TransitionKeepsJournal(recorded, id, HookPatch(hook, seen.value), HookEvent(hook), HookLetters(hook));
    }
  }

  lemma QuietKeepsJournal(db: Db, tx: Tx)
    requires JournalInv(db)
    requires tx.CountTx? || (tx.RetryTx? && tx.id < |db.payments|) || tx.PublishedTx? || tx.FailureTx? || tx.RelayedTx?
    ensures JournalInv(Commit(db, tx))
  {
    var after := Commit(db, tx);
    forall p: PaymentId ensures LettersOf(after.outbox, p) == LettersOf(db.outbox, p) {
      match tx
      case RetryTx(id, attempt, reason, executeAt, ticket) =>
        LettersAppend(db.outbox, NewRow(id, RetryOrder(attempt, reason, executeAt, |db.retries|)), p);
      case PublishedTx(row) =>
        if row < |db.outbox| { LettersUpdate(db.outbox, row, after.outbox[row], p); }
      case FailureTx(row, error) =>
        if row < |db.outbox| { LettersUpdate(db.outbox, row, after.outbox[row], p); }
      case _ =>
    }
    UnmovedKeepsJournal(db, after);
  }

  /** Every status change obeys the state machine: a worker's by its table, a webhook's by its own rule, which
      alone may take PENDING straight to a decision. */
  lemma MovesAreSanctioned(db: Db, tx: Tx, id: PaymentId)
    requires id < |db.payments| && Admissible(db, tx)
    ensures id < |Commit(db, tx).payments|
    ensures var from, to := db.payments[id].status, Commit(db, tx).payments[id].status;
            && (!tx.HookTx? ==> AssertTransition(from, to).None?)
            && (tx.HookTx? && from != to ==> AssertWebhookTerminal(from, to).None? && to == tx.hook.Target())
            && (AssertTransition(from, to).Some? ==> from == Pending && IsTerminal(to))
  {
    if tx.HookTx? && HookApplies(tx.hook, tx.seen) && VersionMatches(db, tx.hook.paymentId, tx.seen.value.version) {
      assert SameDecision(tx.seen.value, db.payments[tx.hook.paymentId]);
    }
  }

  // ---- What an exact journal means --------------------------------------------------------

  /** A legal journal has at most three entries, and only its last one may be terminal. */
  lemma LegalJournalShape(events: seq<Event>)
    requires LegalJournal(events)
    ensures 1 <= |events| <= 3
    ensures |events| == 3 ==> events[1] == ProcessingStarted
    ensures forall k | 0 <= k < |events| - 1 :: !IsTerminal(StatusAfter(events[k]))
    ensures forall k | 0 <= k < |events| :: events[k] == Initiated <==> k == 0
  {
    if |events| >= 2 { assert Follows(StatusAfter(events[0]), events[1]); }
    if |events| >= 3 { assert Follows(StatusAfter(events[1]), events[2]); }
    if |events| >= 4 && Follows(StatusAfter(events[2]), events[3]) { assert false; }
  }

  /** How many of the letters go to the topic. */
  function CountTopic(letters: seq<Payload>, t: Topic): nat {
    if letters == [] then 0
    else CountTopic(letters[..|letters| - 1], t) + if TopicOf(letters[|letters| - 1]) == t then 1 else 0
  }

  lemma {:induction false} CountTopicAppend(a: seq<Payload>, b: seq<Payload>, t: Topic)
    ensures CountTopic(a + b, t) == CountTopic(a, t) + CountTopic(b, t)
    decreases |b|
  {
    if b == [] {
      assert a + b == a;
    } else {
      var n := |b| - 1;
      assert (a + b)[..|a + b| - 1] == a + b[..n];
      CountTopicAppend(a, b[..n], t);
    }
  }

  lemma CountTopicOne(p: Payload, t: Topic)
    ensures CountTopic([p], t) == if TopicOf(p) == t then 1 else 0
  {
    assert [p][..0] == [];
  }

  lemma CountTopicThree(p: Payload, q: Payload, r: Payload, t: Topic)
    ensures CountTopic([p, q], t) == CountTopic([p], t) + CountTopic([q], t)
    ensures CountTopic([p, q, r], t) == CountTopic([p], t) + CountTopic([q], t) + CountTopic([r], t)
  {
    CountTopicAppend([p], [q], t);
    CountTopicAppend([p, q], [r], t);
    assert [p] + [q] == [p, q] && [p, q] + [r] == [p, q, r];
  }

  /** Successes are audited, and whatever a webhook decides. */
  predicate IsAudited(e: Event) {
    e.Settled? || e.HookSucceeded? || e.HookFailed?
  }

  lemma CountTopicFor(e: Event, t: Topic)
    ensures t == PaymentInitiated ==> CountTopic(LettersFor(e), t) == if e.Initiated? then 1 else 0
    ensures t == PaymentProcessing ==> CountTopic(LettersFor(e), t) == if e.ProcessingStarted? then 1 else 0
    ensures t == PaymentSuccess ==> CountTopic(LettersFor(e), t) == if StatusAfter(e) == Success then 1 else 0
    ensures t == PaymentFailed ==> CountTopic(LettersFor(e), t) == if StatusAfter(e) == Failed then 1 else 0
    ensures t == PaymentNotification ==> CountTopic(LettersFor(e), t) == if StatusAfter(e) == Success then 1 else 0
    ensures t == PaymentAudit ==> CountTopic(LettersFor(e), t) == if IsAudited(e) then 1 else 0
    ensures t in {PaymentRetry, PaymentDlq, PaymentRetryReplay} ==> CountTopic(LettersFor(e), t) == 0
  {
    var l := LettersFor(e);
    CountTopicOne(l[0], t);
    if |l| >= 2 {
      CountTopicOne(l[1], t);
      CountTopicOne(l[|l| - 1], t);
      CountTopicThree(l[0], l[1], l[|l| - 1], t);
    }
  }

  /** The same count, entry by entry. */
  function EntryTopics(events: seq<Event>, t: Topic): nat {
    if events == [] then 0
    else EntryTopics(events[..|events| - 1], t) + CountTopic(LettersFor(events[|events| - 1]), t)
  }

  lemma {:induction false} JournalTopics(events: seq<Event>, t: Topic)
    ensures CountTopic(JournalLetters(events), t) == EntryTopics(events, t)
  {
    if events != [] {
      var n := |events| - 1;
      JournalTopics(events[..n], t);
      CountTopicAppend(JournalLetters(events[..n]), LettersFor(events[n]), t);
    }
  }

  /** In a legal journal a topic's count is that of the creation, of the optional start, and of the last entry. */
  lemma EntriesOfLegal(events: seq<Event>, t: Topic)
    requires LegalJournal(events)
    ensures EntryTopics(events, t) ==
      CountTopic(LettersFor(Initiated), t)
      + (if |events| == 3 then CountTopic(LettersFor(ProcessingStarted), t) else 0)
      + (if |events| >= 2 then CountTopic(LettersFor(events[|events| - 1]), t) else 0)
  {
    LegalJournalShape(events);
    if |events| == 1 {
      assert events == [events[0]];
    } else if |events| == 2 {
      assert events[..1] == [events[0]];
    } else {
      assert events[..2] == [events[0], events[1]] && events[..2][..1] == [events[0]];
    }
    assert [events[0]][..0] == [];
  }

  /** From the journal: the version never exceeds 2, there is one `payment.initiated` row, exactly one
      success or failed row once terminal and none before, and a notification exactly on SUCCESS. */
  lemma JournalAccounts(db: Db, id: PaymentId)
    requires JournalInv(db) && id < |db.payments|
    ensures db.payments[id].version <= 2 && db.payments[id].version == |EventsOf(db.events, id)| - 1
    ensures var s, letters := db.payments[id].status, LettersOf(db.outbox, id);
            && CountTopic(letters, PaymentInitiated) == 1
            && CountTopic(letters, PaymentProcessing) <= 1
            && CountTopic(letters, PaymentSuccess) == (if s == Success then 1 else 0)
            && CountTopic(letters, PaymentFailed) == (if s == Failed then 1 else 0)
            && CountTopic(letters, PaymentNotification) == (if s == Success then 1 else 0)
            && CountTopic(letters, PaymentAudit) ==
                 (if IsAudited(EventsOf(db.events, id)[db.payments[id].version]) then 1 else 0)
            && CountTopic(letters, PaymentRetry) == CountTopic(letters, PaymentDlq) == 0
  {
    var events := EventsOf(db.events, id);
    assert Journalled(db, id);
    LegalJournalShape(events);
    assert db.payments[id].status == StatusAfter(events[|events| - 1]);
    AccountFor(events, PaymentInitiated);
    AccountFor(events, PaymentProcessing);
    AccountFor(events, PaymentSuccess);
    AccountFor(events, PaymentFailed);
    AccountFor(events, PaymentNotification);
    AccountFor(events, PaymentAudit);
    AccountFor(events, PaymentRetry);
    AccountFor(events, PaymentDlq);
  }

  lemma AccountFor(events: seq<Event>, t: Topic)
    requires LegalJournal(events)
    ensures var n, s := CountTopic(JournalLetters(events), t), StatusAfter(events[|events| - 1]);
            && (t == PaymentInitiated ==> n == 1)
            && (t == PaymentProcessing ==> n <= 1)
            && (t == PaymentSuccess || t == PaymentNotification ==> n == if s == Success then 1 else 0)
            && (t == PaymentFailed ==> n == if s == Failed then 1 else 0)
            && (t == PaymentAudit ==> n == if IsAudited(events[|events| - 1]) then 1 else 0)
            && (t in {PaymentRetry, PaymentDlq, PaymentRetryReplay} ==> n == 0)
  {
    LegalJournalShape(events);
    JournalTopics(events, t);
    EntriesOfLegal(events, t);
    CountTopicFor(Initiated, t);
    CountTopicFor(ProcessingStarted, t);
    CountTopicFor(events[|events| - 1], t);
  }
}
