/** The promises of the payment lifecycle, for every moment of every history. */
module Guarantees {
  import opened Domain
  import opened Tables
  import opened Journal
  import opened Protocol
  import opened Safety

  // ---- First decision wins ----------------------------------------------------------------

  /** Once SUCCESS or FAILED, a payment's status, version, reference and reason never change again,
      whatever workers and webhooks are still in flight. */
  lemma FirstDecisionStands(ws: seq<World>, actions: seq<Action>, j: nat, k: nat, id: PaymentId)
    requires IsHistory(ws, actions) && j <= k < |ws| && Terminal(ws[j].db, id)
    ensures id < |ws[k].db.payments| && SameDecision(ws[j].db.payments[id], ws[k].db.payments[id])
  {
    HistoryGrew(ws, actions, j, k);
    assert Later(ws[j].db.payments[id], ws[k].db.payments[id]);
  }

  /** In every world the event list replays to the row: status, reference, version, and all outbox
      rows other than retry orders; a reason is recorded exactly for FAILED. */
  lemma JournalIsExact(ws: seq<World>, actions: seq<Action>, k: nat, id: PaymentId)
    requires IsHistory(ws, actions) && k < |ws| && id < |ws[k].db.payments|
    ensures var db, p := ws[k].db, ws[k].db.payments[id];
            && LegalJournal(EventsOf(db.events, id))
            && StandingOf(p) == Replay(EventsOf(db.events, id))
            && p.version == |EventsOf(db.events, id)| - 1 <= 2
            && LettersOf(db.outbox, id) == JournalLetters(EventsOf(db.events, id))
            && (p.failureReason.Some? <==> p.status == Failed)
  {
    HistoryInv(ws, actions, k);
    assert Journalled(ws[k].db, id);
    LegalJournalShape(EventsOf(ws[k].db.events, id));
  }

  /** A webhook that read an open payment which has since been decided cannot commit: the version
      guard fails and nothing is written. */
  lemma StaleReadConflicts(db: Db, hook: Hook, seen: Payment)
    requires Honest(db, hook.paymentId, Some(seen)) && !IsTerminal(seen.status) && Terminal(db, hook.paymentId)
    ensures !VersionMatches(db, hook.paymentId, seen.version)
    ensures Commit(db, HookTx(hook, Some(seen))) == db
  {
    assert Later(seen, db.payments[hook.paymentId]);
  }

  // ---- Webhooks ---------------------------------------------------------------------------

  function HookUses(events: seq<EventRow>, eventId: string): nat {
    if events == [] then 0
    else
      var e := events[|events| - 1].event;
      HookUses(events[..|events| - 1], eventId)
      + if (e.HookSucceeded? || e.HookFailed?) && e.eventId == eventId then 1 else 0
  }

  lemma HookUsesAppend(events: seq<EventRow>, row: EventRow, eventId: string)
    ensures HookUses(events + [row], eventId) == HookUses(events, eventId)
              + if (row.event.HookSucceeded? || row.event.HookFailed?) && row.event.eventId == eventId then 1 else 0
  {
    assert (events + [row])[..|events|] == events;
  }

  /** An event id appears in the journals at most once, and only if its webhook row is there. */
  ghost predicate HooksOnce(db: Db) {
    forall e: string :: HookUses(db.events, e) <= if e in db.hooks then 1 else 0
  }

  lemma CommitKeepsHooksOnce(db: Db, tx: Tx)
    requires HooksOnce(db)
    ensures HooksOnce(Commit(db, tx))
  {
    var after := Commit(db, tx);
    if after.events != db.events {
      assert |after.events| == |db.events| + 1 && after.events == db.events + [after.events[|db.events|]];
      forall e: string ensures HookUses(after.events, e) <= if e in after.hooks then 1 else 0 {
        HookUsesAppend(db.events, after.events[|db.events|], e);
      }
    }
  }

  lemma {:induction false} WebhooksTakeEffectOnce(ws: seq<World>, actions: seq<Action>, k: nat)
    requires IsHistory(ws, actions) && k < |ws|
    ensures HooksOnce(ws[k].db)
    ensures forall e | e in ws[k].db.hooks :: ws[k].db.hooks[e].processed
  {
    HistoryInv(ws, actions, k);
    if k > 0 {
      WebhooksTakeEffectOnce(ws, actions, k - 1);
      NextCommits(ws[k - 1], actions[k - 1]);
      CommitKeepsHooksOnce(ws[k - 1].db, TxOf(ws[k - 1], actions[k - 1]));
    }
  }

  /** The row's own columns hold what the journal's history variables say: the stored webhook the reason of a
      `HookFailed` entry, and the payment's failure reason the cause of an `Exhausted` one. */
  ghost predicate CauseRecorded(db: Db, row: EventRow) {
    && (row.event.HookFailed? ==>
          row.event.eventId in db.hooks && db.hooks[row.event.eventId].canonical.reason == row.event.failure)
    && (row.event.Exhausted? ==>
          row.paymentId < |db.payments|
          && db.payments[row.paymentId].failureReason == Some("max_retries:" + row.event.cause))
  }

  ghost predicate CausesRecorded(db: Db) {
    forall k | 0 <= k < |db.events| :: CauseRecorded(db, db.events[k])
  }

  lemma CausePersists(a: Db, b: Db, row: EventRow)
    requires Evolves(a, b) && CauseRecorded(a, row)
    requires row.event.Exhausted? ==> Terminal(a, row.paymentId)
    ensures CauseRecorded(b, row)
  {
    if row.event.Exhausted? { assert Later(a.payments[row.paymentId], b.payments[row.paymentId]); }
  }

  /** What a transaction adds to the journal is recorded at once. */
  lemma NewCauseRecorded(db: Db, tx: Tx)
    ensures var after := Commit(db, tx);
            && (after.events == db.events || after.events == db.events + [after.events[|db.events|]])
            && forall k | |db.events| <= k < |after.events| ::
                 && CauseRecorded(after, after.events[k])
                 && (after.events[k].event.Exhausted? ==> Terminal(after, after.events[k].paymentId))
  {
  }

  lemma CommitKeepsCauses(db: Db, tx: Tx)
    requires Admissible(db, tx) && CausesRecorded(db) && ExhaustedAreDecided(db)
    ensures CausesRecorded(Commit(db, tx)) && ExhaustedAreDecided(Commit(db, tx))
  {
    var after := Commit(db, tx);
    CommitEvolves(db, tx);
    NewCauseRecorded(db, tx);
    forall k | 0 <= k < |after.events|
      ensures CauseRecorded(after, after.events[k]) && DecidedIfExhausted(after, after.events[k])
    {
      if k < |db.events| {
        assert after.events[k] == db.events[k];
        assert CauseRecorded(db, db.events[k]) && DecidedIfExhausted(db, db.events[k]);
        CausePersists(db, after, db.events[k]);
        StagesPersist(db, after, db.events[k].paymentId);
      }
    }
  }

  predicate DecidedIfExhausted(db: Db, row: EventRow) {
    row.event.Exhausted? ==> Terminal(db, row.paymentId)
  }

  ghost predicate ExhaustedAreDecided(db: Db) {
    forall k | 0 <= k < |db.events| :: DecidedIfExhausted(db, db.events[k])
  }

  lemma NextAdmissible(w: World, a: Action)
    requires Inv(w) && Enabled(w, a)
    ensures Admissible(w.db, TxOf(w, a))
  {
    if a.Advance? { StageAdmissible(w, w.procs[a.proc], a.choice); }
  }

  lemma {:induction false} CausesAreRecorded(ws: seq<World>, actions: seq<Action>, k: nat)
    requires IsHistory(ws, actions) && k < |ws|
    ensures CausesRecorded(ws[k].db) && ExhaustedAreDecided(ws[k].db)
  {
    if k > 0 {
      CausesAreRecorded(ws, actions, k - 1);
      HistoryInv(ws, actions, k - 1);
      NextAdmissible(ws[k - 1], actions[k - 1]);
      NextCommits(ws[k - 1], actions[k - 1]);
      CommitKeepsCauses(ws[k - 1].db, TxOf(ws[k - 1], actions[k - 1]));
    }
  }

  /** A webhook transaction either records its own event id and nothing of another, or leaves every
      table as it was; the second happens exactly for a duplicate or a version conflict. */
  lemma WebhookIsAllOrNothing(db: Db, hook: Hook, seen: Option<Payment>)
    ensures var after := Commit(db, HookTx(hook, seen));
            var refused := hook.eventId in db.hooks
              || (HookApplies(hook, seen) && !VersionMatches(db, hook.paymentId, seen.value.version));
            && (refused ==> after == db)
            && (!refused ==> after.hooks == db.hooks[hook.eventId := HookRow(hook.paymentId, hook, true)])
            && (hook.eventId !in db.hooks ==> (refused <==> hook.eventId !in after.hooks))
  {
  }

  /** If the payment existed when a webhook read it and the webhook's transaction went through, the
      payment is decided from then on. */
  lemma CommittedWebhookDecides(ws: seq<World>, actions: seq<Action>, k: nat, i: nat, n: nat)
    requires IsHistory(ws, actions) && k < |actions| && k < n < |ws|
    requires actions[k].Advance? && actions[k].proc == i < |ws[k].procs| && ws[k].procs[i].HookSeen?
    requires var p := ws[k].procs[i];
             p.seen.Some? && p.hook.eventId !in ws[k].db.hooks && p.hook.eventId in ws[k + 1].db.hooks
    ensures Terminal(ws[n].db, ws[k].procs[i].hook.paymentId)
  {
    var p := ws[k].procs[i];
    HistoryInv(ws, actions, k);
    assert ProcOk(ws[k].db, ws[k].bus, ws[k].limit, p);
    HookDecides(ws[k].db, p.hook, p.seen.value);
    HistoryGrew(ws, actions, k + 1, n);
    StagesPersist(ws[k + 1].db, ws[n].db, p.hook.paymentId);
  }

  lemma HookDecides(db: Db, hook: Hook, seen: Payment)
    requires Honest(db, hook.paymentId, Some(seen)) && hook.eventId !in db.hooks
    ensures hook.eventId in Commit(db, HookTx(hook, Some(seen))).hooks ==>
              Terminal(Commit(db, HookTx(hook, Some(seen))), hook.paymentId)
  {
    GuardChainIsTerminalTest(seen.status, hook);
  }

  function Dominant(a: Status, b: Status): Status {
    if Precedence(a) >= Precedence(b) then a else b
  }

  /** The row moved on between the webhook's read and its commit, or did not exist yet when read. */
  predicate Raced(seen: Option<Payment>, was: Payment) {
    seen.None? || seen.value.version != was.version
  }

  /** The documented dominance SUCCESS > FAILED > PROCESSING > PENDING fails in two cases: a webhook's SUCCESS
      does not override FAILED, and a webhook whose event id is taken or whose read was overtaken leaves an open
      payment as it is. For any honest read, the payment ends with the dominant one of its own status and the
      webhook's exactly when neither is the case. */
  lemma DominanceExactly(db: Db, hook: Hook, seen: Option<Payment>)
    requires hook.paymentId < |db.payments| && Honest(db, hook.paymentId, seen)
    ensures var was := db.payments[hook.paymentId];
            var now := Commit(db, HookTx(hook, seen)).payments[hook.paymentId];
            (now.status == Dominant(was.status, hook.Target())) <==>
            (!(hook.success && was.status == Failed)
             && !((hook.eventId in db.hooks || Raced(seen, was)) && !IsTerminal(was.status)))
  {
    if seen.Some? { assert Later(seen.value, db.payments[hook.paymentId]); }
  }

  // ---- Giving up --------------------------------------------------------------------------

  /** The action is a worker's decision to give up on the payment after that many counted attempts. */
  predicate GivesUpOn(w: World, a: Action, id: PaymentId, attempt: nat, reason: string) {
    && a.Advance? && a.proc < |w.procs|
    && var p := w.procs[a.proc];
       p.WorkerChecked? && p.task.paymentId == id && p.attempt == attempt && p.reason == reason && attempt >= w.limit
  }

  ghost predicate GaveUp(ws: seq<World>, actions: seq<Action>, n: nat, id: PaymentId, attempt: nat, reason: string) {
    n < |actions| && n < |ws| && GivesUpOn(ws[n], actions[n], id, attempt, reason)
  }

  /** From that step on the payment is decided, and FAILED exactly when nobody had made it SUCCESS by then. */
  lemma GivenUpIsFailedUnlessSettled(
    ws: seq<World>, actions: seq<Action>, n: nat, k: nat, id: PaymentId, attempt: nat, reason: string)
    requires IsHistory(ws, actions) && GaveUp(ws, actions, n, id, attempt, reason) && n < k < |ws|
    ensures Terminal(ws[k].db, id) && (InStatus(ws[k].db, id, Failed) <==> !InStatus(ws[n].db, id, Success))
  {
    var i := actions[n].proc;
    HistoryInv(ws, actions, n);
    assert ProcOk(ws[n].db, ws[n].bus, ws[n].limit, ws[n].procs[i]);
    GivingUpCommits(ws[n], i, actions[n].choice);
    assert ws[n + 1] == Next(ws[n], actions[n]);
    FirstDecisionStands(ws, actions, n + 1, k, id);
  }

  lemma GivingUpCommits(w: World, i: nat, c: Choice)
    requires i < |w.procs| && w.procs[i].WorkerChecked? && w.procs[i].attempt >= w.limit
    requires Begun(w.db, w.procs[i].task.paymentId)
    ensures var db, id := Next(w, Advance(i, c)).db, w.procs[i].task.paymentId;
            Terminal(db, id) && (InStatus(db, id, Failed) <==> !InStatus(w.db, id, Success))
  {
    NextCommits(w, Advance(i, c));
  }

  lemma StepToExhausted(w: World, a: Action, i: nat)
    requires Enabled(w, a) && i < |Next(w, a).procs| && Next(w, a).procs[i].WorkerExhausted?
    ensures var p := Next(w, a).procs[i];
            (i < |w.procs| && w.procs[i] == p) || GivesUpOn(w, a, p.task.paymentId, p.attempt, p.reason)
  {
    if a.Advance? { WhoExhausts(w, w.procs[a.proc], a.choice); }
  }

  lemma WhoExhausts(w: World, p: Proc, c: Choice)
    ensures var next := EffectOf(w, p, c).next;
            next.WorkerExhausted? ==>
              p.WorkerChecked? && p.task == next.task && w.limit <= p.attempt == next.attempt && p.reason == next.reason
  {
  }

  lemma {:induction false} ExhaustedGaveUp(ws: seq<World>, actions: seq<Action>, k: nat, i: nat) returns (n: nat)
    requires IsHistory(ws, actions) && k < |ws| && i < |ws[k].procs| && ws[k].procs[i].WorkerExhausted?
    ensures n < k && GaveUp(ws, actions, n, ws[k].procs[i].task.paymentId, ws[k].procs[i].attempt,
                                       ws[k].procs[i].reason)
  {
    StepToExhausted(ws[k - 1], actions[k - 1], i);
    n := k - 1;
    if !GivesUpOn(ws[n], actions[n], ws[k].procs[i].task.paymentId, ws[k].procs[i].attempt,
                                       ws[k].procs[i].reason) {
      n := ExhaustedGaveUp(ws, actions, n, i);
    }
  }

  predicate IsDlq(m: Message, id: PaymentId, attempt: nat, reason: string) {
    m.payload.DlqRecord? && m.paymentId == id && m.payload.attempts == attempt && m.payload.failureReason == reason
  }

  /** The action sends the record of a payment the worker has given up on. */
  predicate SendsDlq(w: World, a: Action, id: PaymentId, attempt: nat, reason: string) {
    && a.Advance? && a.proc < |w.procs|
    && w.procs[a.proc].WorkerExhausted? && w.procs[a.proc].task.paymentId == id && w.procs[a.proc].attempt == attempt
    && w.procs[a.proc].reason == reason
  }

  lemma PublishersSendNoDlq(w: World)
    requires Inv(w)
    ensures forall i | 0 <= i < |w.procs| && w.procs[i].PublisherClaimed? :: !w.procs[i].copy.payload.DlqRecord?
  {
    forall i | 0 <= i < |w.procs| && w.procs[i].PublisherClaimed? ensures !w.procs[i].copy.payload.DlqRecord? {
      assert ProcOk(w.db, w.bus, w.limit, w.procs[i]);
      assert RowOk(w.bus, w.procs[i].row, w.db.outbox[w.procs[i].row]);
    }
  }

  lemma StepSendsDlq(w: World, a: Action, m: nat, id: PaymentId, attempt: nat, reason: string)
    requires Enabled(w, a) && m < |Next(w, a).bus| && IsDlq(Next(w, a).bus[m], id, attempt, reason)
    requires forall i | 0 <= i < |w.procs| && w.procs[i].PublisherClaimed? :: !w.procs[i].copy.payload.DlqRecord?
    ensures (m < |w.bus| && IsDlq(w.bus[m], id, attempt, reason)) || SendsDlq(w, a, id, attempt, reason)
  {
    if a.Advance? { WhoSendsDlq(w, w.procs[a.proc], a.choice); }
  }

  lemma WhoSendsDlq(w: World, p: Proc, c: Choice)
    ensures var e := EffectOf(w, p, c);
            forall k | 0 <= k < |e.sent| && e.sent[k].payload.DlqRecord? ::
              || (p.WorkerExhausted? && IsDlq(e.sent[k], p.task.paymentId, p.attempt, p.reason))
              || (p.PublisherClaimed? && p.copy.payload.DlqRecord?)
  {
  }

  /** Every DLQ record goes back to a worker's giving up. */
  lemma {:induction false} DlqGaveUp(
    ws: seq<World>, actions: seq<Action>, k: nat, m: nat, id: PaymentId, attempt: nat, reason: string)
    returns (n: nat)
    requires IsHistory(ws, actions) && k < |ws| && m < |ws[k].bus| && IsDlq(ws[k].bus[m], id, attempt, reason)
    ensures n < k && GaveUp(ws, actions, n, id, attempt, reason)
  {
    n := k - 1;
    HistoryInv(ws, actions, n);
    PublishersSendNoDlq(ws[n]);
    StepSendsDlq(ws[n], actions[n], m, id, attempt, reason);
    if SendsDlq(ws[n], actions[n], id, attempt, reason) {
      n := ExhaustedGaveUp(ws, actions, n, actions[n].proc);
    } else {
      n := DlqGaveUp(ws, actions, n, m, id, attempt, reason);
    }
  }

  /** A DLQ record does not mean FAILED. Its payment is decided, and it is FAILED exactly when nobody had made it
      SUCCESS by the time the worker gave up. */
  lemma DlqMeansFailedUnlessSettled(ws: seq<World>, actions: seq<Action>, k: nat, m: nat) returns (n: nat)
    requires IsHistory(ws, actions) && k < |ws| && m < |ws[k].bus| && ws[k].bus[m].payload.DlqRecord?
    ensures n < k && GaveUp(ws, actions, n, ws[k].bus[m].paymentId, ws[k].bus[m].payload.attempts,
                               ws[k].bus[m].payload.failureReason)
    ensures Terminal(ws[k].db, ws[k].bus[m].paymentId)
    ensures InStatus(ws[k].db, ws[k].bus[m].paymentId, Failed) <==> !InStatus(ws[n].db, ws[k].bus[m].paymentId, Success)
  {
    n := DlqGaveUp(ws, actions, k, m, ws[k].bus[m].paymentId, ws[k].bus[m].payload.attempts,
                               ws[k].bus[m].payload.failureReason);
    GivenUpIsFailedUnlessSettled(ws, actions, n, k, ws[k].bus[m].paymentId, ws[k].bus[m].payload.attempts,
                               ws[k].bus[m].payload.failureReason);
  }

  // ---- Outbox and bus ---------------------------------------------------------------------

  /** The message was made from the row: same payment, same payload. */
  predicate IsFrom(m: Message, row: nat, r: OutboxRow) {
    Descends(m, row, r.payload) && m.paymentId == r.aggregateId
  }

  /** A row marked published has its message on the bus, and stays published. */
  lemma PublishedRowsWereSent(ws: seq<World>, actions: seq<Action>, j: nat, k: nat, row: nat)
    requires IsHistory(ws, actions) && j <= k < |ws|
    requires row < |ws[j].db.outbox| && ws[j].db.outbox[row].published
    ensures exists m :: 0 <= m < |ws[j].bus| && IsFrom(ws[j].bus[m], row, ws[j].db.outbox[row])
    ensures row < |ws[k].db.outbox| && ws[k].db.outbox[row].published
  {
    HistoryInv(ws, actions, j);
    assert RowOk(ws[j].bus, row, ws[j].db.outbox[row]);
    var m :| 0 <= m < |ws[j].bus| && Descends(ws[j].bus[m], row, ws[j].db.outbox[row].payload);
    assert MessageOk(ws[j].db, ws[j].bus, ws[j].limit, ws[j].bus[m]);
    assert IsFrom(ws[j].bus[m], row, ws[j].db.outbox[row]);
    HistoryGrew(ws, actions, j, k);
    assert LaterRow(ws[j].db.outbox[row], ws[k].db.outbox[row]);
  }

  /** Every `payment.initiated` message traces back to a committed payment through its outbox row (of
      that topic, or a retry order relayed), or to a manual replay. */
  lemma InitiationsTraceBack(ws: seq<World>, actions: seq<Action>, k: nat, m: nat)
    requires IsHistory(ws, actions) && k < |ws| && m < |ws[k].bus| && ws[k].bus[m].payload.InitiatedNote?
    ensures var msg, db := ws[k].bus[m], ws[k].db;
            if msg.origin.Some?
            then msg.paymentId < |db.payments| && msg.origin.value < |db.outbox|
                 && IsCarrier(db.outbox[msg.origin.value], msg.paymentId)
            else Replayed(ws[k].bus, msg.paymentId)
  {
    HistoryInv(ws, actions, k);
    assert MessageOk(ws[k].db, ws[k].bus, ws[k].limit, ws[k].bus[m]);
  }

  /** A `payment.dlq` record is only sent for a payment that is already decided and whose retry count
      has reached the maximum. */
  lemma DlqOnlyAfterDecision(ws: seq<World>, actions: seq<Action>, k: nat, m: nat)
    requires IsHistory(ws, actions) && k < |ws| && m < |ws[k].bus| && ws[k].bus[m].payload.DlqRecord?
    ensures var msg, db := ws[k].bus[m], ws[k].db;
            && Terminal(db, msg.paymentId)
            && ws[k].limit <= msg.payload.attempts <= db.payments[msg.paymentId].retryCount
  {
    HistoryInv(ws, actions, k);
    assert MessageOk(ws[k].db, ws[k].bus, ws[k].limit, ws[k].bus[m]);
  }

  /** A publish or a mark that fails costs the row one attempt and leaves the error; the handler is gone, the row is as
      published as before, and no message is lost. */
  lemma FailedPublishIsNoted(w: World, i: nat, error: string)
    requires Inv(w) && Enabled(w, PublishFails(i, error))
    ensures var v, row := Next(w, PublishFails(i, error)), w.procs[i].row;
            var kept := if |error| <= 2000 then error else error[..2000];
            && row < |w.db.outbox| && v.bus == w.bus && v.procs == w.procs[i := Gone]
            && v.db == w.db.(outbox := w.db.outbox[row :=
                 w.db.outbox[row].(attempts := w.db.outbox[row].attempts + 1, lastError := Some(kept))])
  {
    assert ProcOk(w.db, w.bus, w.limit, w.procs[i]);
  }

  // ---- No payment is stranded -------------------------------------------------------------

  /** Something that will still bring the payment to a worker. */
  predicate Unpublished(w: World, id: PaymentId, row: nat) {
    row < |w.db.outbox| && IsCarrier(w.db.outbox[row], id) && !w.db.outbox[row].published
  }

  predicate Waiting(w: World, id: PaymentId, m: nat) {
    m < |w.bus| && !w.bus[m].acked && w.bus[m].paymentId == id
    && (w.bus[m].payload.InitiatedNote? || w.bus[m].payload.RetryOrder?)
  }

  ghost predicate HasLiveCarrier(w: World, id: PaymentId) {
    (exists row :: Unpublished(w, id, row)) || (exists m :: Waiting(w, id, m))
  }

  /** The payment's newest carrier row. */
  lemma {:induction false} NewestCarrier(db: Db, id: PaymentId, n: nat) returns (row: nat)
    requires n <= |db.outbox| && exists r :: 0 <= r < n && IsCarrier(db.outbox[r], id)
    ensures row < n && IsCarrier(db.outbox[row], id)
    ensures forall r | row < r < n :: !IsCarrier(db.outbox[r], id)
  {
    if IsCarrier(db.outbox[n - 1], id) {
      row := n - 1;
    } else {
      row := NewestCarrier(db, id, n - 1);
    }
  }

  lemma OpenHasCarrier(w: World, id: PaymentId)
    requires Inv(w) && id < |w.db.payments| && !Terminal(w.db, id)
    ensures HasLiveCarrier(w, id)
  {
    assert HasCarrier(w.db, id);
    var row := NewestCarrier(w.db, id, |w.db.outbox|);
    assert RowOk(w.bus, row, w.db.outbox[row]);
    if !w.db.outbox[row].published {
      assert Unpublished(w, id, row);
    } else {
      var m :| 0 <= m < |w.bus| && Descends(w.bus[m], row, w.db.outbox[row].payload);
      assert MessageOk(w.db, w.bus, w.limit, w.bus[m]);
      if !w.bus[m].acked {
        assert Waiting(w, id, m);
      } else {
        // a retry order was relayed; an initiation cannot have been, for the row would not be the newest
        assert w.bus[m].payload.RetryOrder?;
        var n :| 0 <= n < |w.bus| && Descends(w.bus[n], row, InitiatedNote);
        assert MessageOk(w.db, w.bus, w.limit, w.bus[n]);
        assert Waiting(w, id, n);
      }
    }
  }

  /** No payment is ever stranded: at every moment of every history a payment that is not decided has
      an unpublished carrier row or an unacknowledged message that will bring it to a worker. */
  lemma NoPaymentStranded(ws: seq<World>, actions: seq<Action>, k: nat, id: PaymentId)
    requires IsHistory(ws, actions) && k < |ws| && id < |ws[k].db.payments|
    ensures Terminal(ws[k].db, id) || HasLiveCarrier(ws[k], id)
  {
    HistoryInv(ws, actions, k);
    if !Terminal(ws[k].db, id) {
      OpenHasCarrier(ws[k], id);
    }
  }
}
