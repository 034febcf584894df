/** What every reachable world satisfies, through every interleaving, crash and duplicate: exact
    journals, honest webhook reads, no published row without its message, no message without its
    committed payment, and no acknowledged delivery that leaves an open payment without work to come. */
module Safety {
  import opened Domain
  import opened Tables
  import opened Journal
  import opened Protocol

  // ---- Vocabulary -------------------------------------------------------------------------

  predicate IsCarrier(row: OutboxRow, id: PaymentId) {
    row.aggregateId == id && (row.payload.InitiatedNote? || row.payload.RetryOrder?)
  }

  ghost predicate LaterCarrier(db: Db, id: PaymentId, row: nat) {
    exists r :: row < r < |db.outbox| && IsCarrier(db.outbox[r], id)
  }

  ghost predicate HasCarrier(db: Db, id: PaymentId) {
    exists r :: 0 <= r < |db.outbox| && IsCarrier(db.outbox[r], id)
  }

  /** A `payment.initiated` delivery that descends from an outbox row has done its work: the payment
      is decided, or a newer row carries it on. */
  ghost predicate Handled(db: Db, id: PaymentId, origin: Option<nat>) {
    origin.Some? ==> Terminal(db, id) || LaterCarrier(db, id, origin.value)
  }

  predicate Descends(m: Message, row: nat, payload: Payload) {
    m.origin == Some(row) && m.payload == payload
  }

  ghost predicate SentFor(bus: seq<Message>, row: nat, payload: Payload) {
    exists m :: 0 <= m < |bus| && Descends(bus[m], row, payload)
  }

  ghost predicate Replayed(bus: seq<Message>, id: PaymentId) {
    exists m :: 0 <= m < |bus| && bus[m].payload.ReplayOrder? && bus[m].paymentId == id
  }

  ghost predicate BusGrows(a: seq<Message>, b: seq<Message>) {
    && |a| <= |b|
    && forall m | 0 <= m < |a| :: b[m] == a[m].(acked := b[m].acked) && (a[m].acked ==> b[m].acked)
  }

  // ---- The invariant ----------------------------------------------------------------------

  /** Where a message comes from: an outbox row of a committed payment, directly or through the retry
      relay; a manual replay; or a worker giving up on a payment that is already decided. */
  ghost predicate Sourced(db: Db, bus: seq<Message>, limit: int, m: Message) {
    match m.origin
    case Some(r) =>
      && r < |db.outbox| && db.outbox[r].aggregateId == m.paymentId && m.paymentId < |db.payments|
      && (m.payload == db.outbox[r].payload || (m.payload.InitiatedNote? && db.outbox[r].payload.RetryOrder?))
      && !m.payload.DlqRecord? && !m.payload.ReplayOrder?
    case None =>
      || m.payload.ReplayOrder?
      || (m.payload.InitiatedNote? && Replayed(bus, m.paymentId))
      || (m.payload.DlqRecord? && Terminal(db, m.paymentId)
          && limit <= m.payload.attempts <= db.payments[m.paymentId].retryCount)
  }

  ghost predicate Discharged(db: Db, bus: seq<Message>, m: Message) {
    && (m.payload.InitiatedNote? ==> Handled(db, m.paymentId, m.origin))
    && (m.payload.RetryOrder? && m.origin.Some? ==> SentFor(bus, m.origin.value, InitiatedNote))
  }

  ghost predicate MessageOk(db: Db, bus: seq<Message>, limit: int, m: Message) {
    Sourced(db, bus, limit, m) && (m.acked ==> Discharged(db, bus, m))
  }

  ghost predicate RowOk(bus: seq<Message>, row: nat, r: OutboxRow) {
    && (r.published ==> SentFor(bus, row, r.payload))
    && !r.payload.DlqRecord? && !r.payload.ReplayOrder?
  }

  ghost predicate TaskOk(db: Db, bus: seq<Message>, t: Task) {
    && t.msg < |bus| && bus[t.msg].paymentId == t.paymentId && bus[t.msg].origin == t.origin
    && (t.origin.Some? ==> t.paymentId < |db.payments| && t.origin.value < |db.outbox|)
  }

  predicate Begun(db: Db, id: PaymentId) {
    id < |db.payments| && db.payments[id].status != Pending
  }

  /** What a handler may rely on at each of its stages, whatever the others did in between. */
  ghost predicate ProcOk(db: Db, bus: seq<Message>, limit: int, p: Proc) {
    match p
    case WorkerStarted(t) => TaskOk(db, bus, t) && bus[t.msg].payload.InitiatedNote?
    case WorkerClaimed(t) =>
      TaskOk(db, bus, t) && bus[t.msg].payload.InitiatedNote? && (t.origin.Some? ==> Begun(db, t.paymentId))
    case WorkerCleared(t) => TaskOk(db, bus, t) && bus[t.msg].payload.InitiatedNote? && Begun(db, t.paymentId)
    case WorkerCharging(t) => TaskOk(db, bus, t) && bus[t.msg].payload.InitiatedNote? && Begun(db, t.paymentId)
    case WorkerAnswered(t, _) => TaskOk(db, bus, t) && bus[t.msg].payload.InitiatedNote? && Begun(db, t.paymentId)
    case WorkerCounted(t, _, _) => TaskOk(db, bus, t) && bus[t.msg].payload.InitiatedNote? && Begun(db, t.paymentId)
    case WorkerChecked(t, _, _, attempt) =>
      && TaskOk(db, bus, t) && bus[t.msg].payload.InitiatedNote? && Begun(db, t.paymentId)
      && attempt <= db.payments[t.paymentId].retryCount
    case WorkerExhausted(t, _, attempt) =>
      && TaskOk(db, bus, t) && bus[t.msg].payload.InitiatedNote? && Terminal(db, t.paymentId)
      && limit <= attempt <= db.payments[t.paymentId].retryCount
    case WorkerDone(t) =>
      TaskOk(db, bus, t) && bus[t.msg].payload.InitiatedNote? && Handled(db, t.paymentId, t.origin)
    case RelayStarted(t, _) =>
      TaskOk(db, bus, t) && (bus[t.msg].payload.RetryOrder? || bus[t.msg].payload.ReplayOrder?)
    case RelaySent(t, _) =>
      && TaskOk(db, bus, t) && (bus[t.msg].payload.RetryOrder? || bus[t.msg].payload.ReplayOrder?)
      && (t.origin.Some? ==> SentFor(bus, t.origin.value, InitiatedNote))
    case RelayDone(t) =>
      && TaskOk(db, bus, t) && (bus[t.msg].payload.RetryOrder? || bus[t.msg].payload.ReplayOrder?)
      && (t.origin.Some? ==> SentFor(bus, t.origin.value, InitiatedNote))
    case PublisherClaimed(row, copy) => row < |db.outbox| && LaterRow(copy, db.outbox[row])
    case PublisherSent(row, copy) =>
      row < |db.outbox| && LaterRow(copy, db.outbox[row]) && SentFor(bus, row, copy.payload)
    case HookSeen(hook, seen) => Honest(db, hook.paymentId, seen)
    case _ => true
  }

  ghost predicate Inv(w: World) {
    && JournalInv(w.db)
    && (forall id | 0 <= id < |w.db.payments| :: HasCarrier(w.db, id))
    && (forall m | 0 <= m < |w.bus| :: MessageOk(w.db, w.bus, w.limit, w.bus[m]))
    && (forall r | 0 <= r < |w.db.outbox| :: RowOk(w.bus, r, w.db.outbox[r]))
    && (forall i | 0 <= i < |w.procs| :: ProcOk(w.db, w.bus, w.limit, w.procs[i]))
    && (forall e | e in w.db.hooks :: w.db.hooks[e].processed)
  }

  // ---- Everything stated of the past stays true -------------------------------------------

  lemma StagesPersist(db: Db, db': Db, id: PaymentId)
    requires Evolves(db, db')
    ensures Terminal(db, id) ==> Terminal(db', id)
    ensures Begun(db, id) ==> Begun(db', id)
    ensures HasCarrier(db, id) ==> HasCarrier(db', id)
    ensures forall row: nat :: LaterCarrier(db, id, row) ==> LaterCarrier(db', id, row)
  {
    forall r | 0 <= r < |db.outbox| && IsCarrier(db.outbox[r], id)
      ensures IsCarrier(db'.outbox[r], id)
    {
      assert LaterRow(db.outbox[r], db'.outbox[r]);
    }
    if id < |db.payments| {
      assert Later(db.payments[id], db'.payments[id]);
    }
  }

  lemma SentPersists(bus: seq<Message>, bus': seq<Message>, row: nat, payload: Payload)
    requires BusGrows(bus, bus') && SentFor(bus, row, payload)
    ensures SentFor(bus', row, payload)
  {
    var m :| 0 <= m < |bus| && Descends(bus[m], row, payload);
    assert Descends(bus'[m], row, payload);
  }

  lemma ReplayPersists(bus: seq<Message>, bus': seq<Message>, id: PaymentId)
    requires BusGrows(bus, bus') && Replayed(bus, id)
    ensures Replayed(bus', id)
  {
    var m :| 0 <= m < |bus| && bus[m].payload.ReplayOrder? && bus[m].paymentId == id;
    assert bus'[m].payload.ReplayOrder? && bus'[m].paymentId == id;
  }

  lemma SourcePersists(db: Db, bus: seq<Message>, db': Db, bus': seq<Message>, limit: int, m: Message)
    requires Evolves(db, db') && BusGrows(bus, bus') && Sourced(db, bus, limit, m)
    ensures Sourced(db', bus', limit, m)
  {
    StagesPersist(db, db', m.paymentId);
    if m.origin.Some? {
      assert LaterRow(db.outbox[m.origin.value], db'.outbox[m.origin.value]);
    } else if m.payload.InitiatedNote? {
      ReplayPersists(bus, bus', m.paymentId);
    } else if m.payload.DlqRecord? {
      assert Later(db.payments[m.paymentId], db'.payments[m.paymentId]);
    }
  }

  lemma DischargePersists(db: Db, bus: seq<Message>, db': Db, bus': seq<Message>, m: Message)
    requires Evolves(db, db') && BusGrows(bus, bus') && Discharged(db, bus, m)
    ensures Discharged(db', bus', m)
  {
    StagesPersist(db, db', m.paymentId);
    if m.payload.RetryOrder? && m.origin.Some? {
      SentPersists(bus, bus', m.origin.value, InitiatedNote);
    }
  }

  lemma ProcPersists(db: Db, bus: seq<Message>, db': Db, bus': seq<Message>, limit: int, p: Proc)
    requires Evolves(db, db') && BusGrows(bus, bus') && ProcOk(db, bus, limit, p)
    ensures ProcOk(db', bus', limit, p)
  {
    if p.PublisherClaimed? || p.PublisherSent? {
      PublisherPersists(db, bus, db', bus', limit, p);
    } else if p.HookSeen? {
      if p.seen.Some? { assert Later(db.payments[p.hook.paymentId], db'.payments[p.hook.paymentId]); }
    } else {
      TaskPersists(db, bus, db', bus', limit, p);
    }
  }

  lemma PublisherPersists(db: Db, bus: seq<Message>, db': Db, bus': seq<Message>, limit: int, p: Proc)
    requires Evolves(db, db') && BusGrows(bus, bus') && ProcOk(db, bus, limit, p)
    requires p.PublisherClaimed? || p.PublisherSent?
    ensures ProcOk(db', bus', limit, p)
  {
    assert LaterRow(db.outbox[p.row], db'.outbox[p.row]);
    if p.PublisherSent? {
      SentPersists(bus, bus', p.row, p.copy.payload);
    }
  }

  predicate HasTask(p: Proc) {
    InGatewaySection(p) || p.WorkerStarted? || p.WorkerClaimed? || p.WorkerExhausted? || p.WorkerDone?
    || p.RelayStarted? || p.RelaySent? || p.RelayDone?
  }

  lemma TaskPersists(db: Db, bus: seq<Message>, db': Db, bus': seq<Message>, limit: int, p: Proc)
    requires Evolves(db, db') && BusGrows(bus, bus') && ProcOk(db, bus, limit, p)
    requires !p.PublisherClaimed? && !p.PublisherSent? && !p.HookSeen?
    ensures ProcOk(db', bus', limit, p)
  {
    if HasTask(p) {
      var t := p.task;
      StagesPersist(db, db', t.paymentId);
      if t.paymentId < |db.payments| {
        assert Later(db.payments[t.paymentId], db'.payments[t.paymentId]);
      }
      if (p.RelaySent? || p.RelayDone?) && t.origin.Some? {
        SentPersists(bus, bus', t.origin.value, InitiatedNote);
      }
    }
  }

  // ---- One action -------------------------------------------------------------------------

  /** The parts of a step that are not already covered by persistence. */
  lemma Assemble(w: World, w': World)
    requires Inv(w) && w'.limit == w.limit
    requires Evolves(w.db, w'.db) && BusGrows(w.bus, w'.bus) && JournalInv(w'.db)
    requires forall m | 0 <= m < |w.bus| && w'.bus[m].acked && !w.bus[m].acked :: Discharged(w'.db, w'.bus, w.bus[m])
    requires forall m | |w.bus| <= m < |w'.bus| :: MessageOk(w'.db, w'.bus, w.limit, w'.bus[m])
    requires forall r | 0 <= r < |w.db.outbox| && w'.db.outbox[r].published && !w.db.outbox[r].published ::
               SentFor(w'.bus, r, w.db.outbox[r].payload)
    requires forall r | |w.db.outbox| <= r < |w'.db.outbox| :: RowOk(w'.bus, r, w'.db.outbox[r])
    requires |w.procs| <= |w'.procs|
    requires forall i | 0 <= i < |w'.procs| ::
               (i < |w.procs| && w'.procs[i] == w.procs[i]) || ProcOk(w'.db, w'.bus, w.limit, w'.procs[i])
    requires forall id | |w.db.payments| <= id < |w'.db.payments| :: HasCarrier(w'.db, id)
    requires forall e | e in w'.db.hooks && e !in w.db.hooks :: w'.db.hooks[e].processed
    ensures Inv(w')
  {
    forall m | 0 <= m < |w.bus| ensures MessageOk(w'.db, w'.bus, w.limit, w'.bus[m]) {
      assert MessageOk(w.db, w.bus, w.limit, w.bus[m]);
      SourcePersists(w.db, w.bus, w'.db, w'.bus, w.limit, w.bus[m]);
      assert w'.bus[m] == w.bus[m].(acked := w'.bus[m].acked);
      if w.bus[m].acked {
        DischargePersists(w.db, w.bus, w'.db, w'.bus, w.bus[m]);
      }
    }
    forall r | 0 <= r < |w.db.outbox| ensures RowOk(w'.bus, r, w'.db.outbox[r]) {
      assert LaterRow(w.db.outbox[r], w'.db.outbox[r]);
      assert RowOk(w.bus, r, w.db.outbox[r]);
      if w.db.outbox[r].published {
        SentPersists(w.bus, w'.bus, r, w.db.outbox[r].payload);
      }
    }
    forall i | 0 <= i < |w'.procs| ensures ProcOk(w'.db, w'.bus, w.limit, w'.procs[i]) {
      if i < |w.procs| && w'.procs[i] == w.procs[i] {
        ProcPersists(w.db, w.bus, w'.db, w'.bus, w.limit, w.procs[i]);
      }
    }
    forall id | 0 <= id < |w.db.payments| ensures HasCarrier(w'.db, id) {
      StagesPersist(w.db, w'.db, id);
    }
  }

  /** Every stage's transaction is admissible: only a webhook's read could be stale, and it is honest. */
  lemma StageAdmissible(w: World, p: Proc, c: Choice)
    requires ProcOk(w.db, w.bus, w.limit, p)
    ensures Admissible(w.db, EffectOf(w, p, c).tx)
  {
    OnlyHooksCommitHooks(w, p, c);
  }

  lemma OnlyHooksCommitHooks(w: World, p: Proc, c: Choice)
    ensures EffectOf(w, p, c).tx.HookTx? ==> p.HookSeen? && EffectOf(w, p, c).tx == HookTx(p.hook, p.seen)
  {
  }

  /** What a transaction adds: unpublished rows, a carrier with each payment, processed webhook rows. */
  lemma CommitAdds(db: Db, tx: Tx)
    requires Admissible(db, tx)
    ensures var after := Commit(db, tx);
            && |db.outbox| <= |after.outbox|
            && (forall r | |db.outbox| <= r < |after.outbox| :: Publishable(after.outbox[r]))
            && (forall r | 0 <= r < |db.outbox| && after.outbox[r].published && !db.outbox[r].published ::
                  tx == PublishedTx(r))
            && (forall id | |db.payments| <= id < |after.payments| :: HasCarrier(after, id))
            && (forall e | e in after.hooks && e !in db.hooks :: after.hooks[e].processed)
  {
    CommitAppends(db, tx);
    CommitCarries(db, tx);
  }

  predicate Publishable(r: OutboxRow) {
    !r.published && !r.payload.DlqRecord? && !r.payload.ReplayOrder?
  }

  /** The old rows keep their place and, but for one `PublishedTx`, their mark; the new ones are unpublished. */
  lemma CommitAppends(db: Db, tx: Tx)
    ensures var after := Commit(db, tx);
            && |db.outbox| <= |after.outbox|
            && (forall r | |db.outbox| <= r < |after.outbox| :: Publishable(after.outbox[r]))
            && (forall r | 0 <= r < |db.outbox| && after.outbox[r].published && !db.outbox[r].published ::
                  tx == PublishedTx(r))
  {
    match tx
    case BeginTx(id) => EnqueueAllAppends(db.outbox, id, [ProcessingNote]);
    case SettleTx(id, _, duplicate) => EnqueueAllAppends(db.outbox, id, SettleLetters(duplicate));
    case ExhaustTx(id, reason) => EnqueueAllAppends(db.outbox, id, FailLetters(reason));
    case DeclineTx(id, reason) => EnqueueAllAppends(db.outbox, id, FailLetters(reason));
    case HookTx(hook, _) => EnqueueAllAppends(db.outbox, hook.paymentId, HookLetters(hook));
    case _ =>
  }

  lemma CommitCarries(db: Db, tx: Tx)
    ensures var after := Commit(db, tx);
            && (forall id | |db.payments| <= id < |after.payments| :: HasCarrier(after, id))
            && (forall e | e in after.hooks && e !in db.hooks :: after.hooks[e].processed)
  {
    if tx.CreateTx? && tx.key !in db.idem {
      assert IsCarrier(Commit(db, tx).outbox[|db.outbox|], |db.payments|);
    }
  }

  /** A handler's own action keeps the invariant, once its new stage, its messages and its
      acknowledgement are justified. */
  lemma ApplyKeeps(w: World, i: nat, e: Effect)
    requires Inv(w) && i < |w.procs|
    requires Admissible(w.db, e.tx) && (e.tx.RetryTx? ==> e.tx.id < |w.db.payments|)
    requires e.tx.PublishedTx? && e.tx.row < |w.db.outbox| ==> SentFor(w.bus, e.tx.row, w.db.outbox[e.tx.row].payload)
    requires var w' := Apply(w, i, e); ProcOk(w'.db, w'.bus, w.limit, e.next)
    requires var w' := Apply(w, i, e); forall m | m in e.sent :: !m.acked && Sourced(w'.db, w'.bus, w.limit, m)
    requires e.acked.Some? ==> e.acked.value < |w.bus| && Discharged(w.db, w.bus, w.bus[e.acked.value])
    ensures Inv(Apply(w, i, e))
  {
    var w' := Apply(w, i, e);
    CommitEvolves(w.db, e.tx);
    CommitKeepsJournal(w.db, e.tx);
    CommitAdds(w.db, e.tx);
    assert BusGrows(w.bus, w'.bus);
    if e.acked.Some? {
      DischargePersists(w.db, w.bus, w'.db, w'.bus, w.bus[e.acked.value]);
    }
    if e.tx.PublishedTx? && e.tx.row < |w.db.outbox| {
      SentPersists(w.bus, w'.bus, e.tx.row, w.db.outbox[e.tx.row].payload);
    }
    forall m | |w.bus| <= m < |w'.bus| ensures MessageOk(w'.db, w'.bus, w.limit, w'.bus[m]) {
      assert w'.bus[m] == e.sent[m - |w.bus|];
    }
    Assemble(w, w');
  }

  predicate IsWorker(p: Proc) {
    InGatewaySection(p) || p.WorkerStarted? || p.WorkerClaimed? || p.WorkerExhausted? || p.WorkerDone?
  }

  /** What the worker's transactions leave of the payment it works on. */
  lemma WorkerDecides(db: Db, id: PaymentId, tx: Tx)
    requires id < |db.payments|
    requires (tx.BeginTx? || tx.SettleTx? || tx.ExhaustTx? || tx.DeclineTx? || tx.CountTx?) && tx.id == id
    ensures tx.BeginTx? ==> Begun(Commit(db, tx), id)
    ensures (tx.SettleTx? || tx.ExhaustTx? || tx.DeclineTx?) && Begun(db, id) ==> Terminal(Commit(db, tx), id)
    ensures tx.CountTx? && Begun(db, id) ==> Begun(Commit(db, tx), id)
  {
  }

  /** After reading, answering or sending, the worker's next stage is justified by what it read. */
  lemma WorkerReads(w: World, i: nat, c: Choice)
    requires Inv(w) && i < |w.procs| && IsWorker(w.procs[i])
    requires !w.procs[i].WorkerStarted? && !w.procs[i].WorkerAnswered? && !w.procs[i].WorkerChecked?
    ensures var e := WorkerEffect(w, w.procs[i], c);
            ProcOk(Apply(w, i, e).db, Apply(w, i, e).bus, w.limit, e.next)
  {
    assert ProcOk(w.db, w.bus, w.limit, w.procs[i]);
  }

  /** After a transaction on the payment, by what the transaction left. */
  lemma WorkerCommits(w: World, i: nat, c: Choice)
    requires Inv(w) && i < |w.procs|
    requires var p := w.procs[i];
             p.WorkerStarted? || p.WorkerAnswered? || (p.WorkerChecked? && p.attempt >= w.limit)
    ensures var e := WorkerEffect(w, w.procs[i], c);
            ProcOk(Apply(w, i, e).db, Apply(w, i, e).bus, w.limit, e.next)
  {
    var p := w.procs[i];
    var e := WorkerEffect(w, p, c);
    var t := p.task;
    assert ProcOk(w.db, w.bus, w.limit, p);
    CommitEvolves(w.db, e.tx);
    TaskEvolves(w.db, w.bus, Commit(w.db, e.tx), w.bus, t);
    if t.paymentId < |w.db.payments| {
      WorkerDecides(w.db, t.paymentId, e.tx);
      assert Later(w.db.payments[t.paymentId], Commit(w.db, e.tx).payments[t.paymentId]);
    }
    assert Apply(w, i, e).bus == w.bus;
  }

  /** After scheduling a retry, by the new carrier row. */
  lemma WorkerSchedules(w: World, i: nat, c: Choice)
    requires Inv(w) && i < |w.procs| && w.procs[i].WorkerChecked? && w.procs[i].attempt < w.limit
    ensures var e := WorkerEffect(w, w.procs[i], c);
            ProcOk(Apply(w, i, e).db, Apply(w, i, e).bus, w.limit, e.next)
  {
    var p := w.procs[i];
    var t := p.task;
    var w' := Apply(w, i, WorkerEffect(w, p, c));
    assert ProcOk(w.db, w.bus, w.limit, p);
    if t.origin.Some? {
      assert IsCarrier(w'.db.outbox[|w.db.outbox|], t.paymentId);
      assert LaterCarrier(w'.db, t.paymentId, t.origin.value);
    }
  }

  lemma WorkerMovesOn(w: World, i: nat, c: Choice)
    requires Inv(w) && i < |w.procs| && IsWorker(w.procs[i])
    ensures var e := WorkerEffect(w, w.procs[i], c);
            ProcOk(Apply(w, i, e).db, Apply(w, i, e).bus, w.limit, e.next)
  {
    var p := w.procs[i];
    if p.WorkerChecked? && p.attempt < w.limit {
      WorkerSchedules(w, i, c);
    } else if p.WorkerStarted? || p.WorkerAnswered? || p.WorkerChecked? {
      WorkerCommits(w, i, c);
    } else {
      WorkerReads(w, i, c);
    }
  }

  lemma TaskEvolves(db: Db, bus: seq<Message>, db': Db, bus': seq<Message>, t: Task)
    requires TaskOk(db, bus, t) && Evolves(db, db') && BusGrows(bus, bus')
    ensures TaskOk(db', bus', t) && bus'[t.msg].payload == bus[t.msg].payload
  {
  }

  lemma WorkerKeeps(w: World, i: nat, c: Choice)
    requires Inv(w) && i < |w.procs| && IsWorker(w.procs[i])
    ensures Inv(Apply(w, i, WorkerEffect(w, w.procs[i], c)))
  {
    WorkerMovesOn(w, i, c);
    assert ProcOk(w.db, w.bus, w.limit, w.procs[i]);
    ApplyKeeps(w, i, WorkerEffect(w, w.procs[i], c));
  }

  /** The relayed initiation is sourced by the order it relays, and is what the relay still owes for it. */
  lemma RelaySends(w: World, i: nat)
    requires Inv(w) && i < |w.procs| && w.procs[i].RelayStarted?
    ensures var e := RelayEffect(w.procs[i]);
            ProcOk(w.db, w.bus + e.sent, w.limit, e.next) && Sourced(w.db, w.bus + e.sent, w.limit, e.sent[0])
  {
    var t := w.procs[i].task;
    var bus := w.bus + RelayEffect(w.procs[i]).sent;
    assert ProcOk(w.db, w.bus, w.limit, w.procs[i]);
    assert MessageOk(w.db, w.bus, w.limit, w.bus[t.msg]);
    if t.origin.Some? {
      assert Descends(bus[|w.bus|], t.origin.value, InitiatedNote);
    } else {
      assert bus[t.msg].payload.ReplayOrder? && bus[t.msg].paymentId == t.paymentId;
    }
  }

  lemma RelayMoves(w: World, i: nat)
    requires Inv(w) && i < |w.procs| && (w.procs[i].RelaySent? || w.procs[i].RelayDone?)
    ensures var e := RelayEffect(w.procs[i]);
            ProcOk(Apply(w, i, e).db, Apply(w, i, e).bus, w.limit, e.next)
  {
    var p := w.procs[i];
    var w' := Apply(w, i, RelayEffect(p));
    assert ProcOk(w.db, w.bus, w.limit, p);
    CommitEvolves(w.db, RelayEffect(p).tx);
    AckedGrows(w.bus, RelayEffect(p));
    TaskPersists(w.db, w.bus, w'.db, w'.bus, w.limit, p);
  }

  lemma RelayKeeps(w: World, i: nat)
    requires Inv(w) && i < |w.procs|
    requires w.procs[i].RelayStarted? || w.procs[i].RelaySent? || w.procs[i].RelayDone?
    ensures Inv(Apply(w, i, RelayEffect(w.procs[i])))
  {
    var p := w.procs[i];
    if p.RelayStarted? { RelaySends(w, i); } else { RelayMoves(w, i); }
    assert ProcOk(w.db, w.bus, w.limit, p);
    ApplyKeeps(w, i, RelayEffect(p));
  }

  lemma PublisherKeeps(w: World, i: nat)
    requires Inv(w) && i < |w.procs| && (w.procs[i].PublisherClaimed? || w.procs[i].PublisherSent?)
    ensures Inv(Apply(w, i, PublisherEffect(w.procs[i])))
  {
    var p := w.procs[i];
    var e := PublisherEffect(p);
    var w' := Apply(w, i, e);
    assert ProcOk(w.db, w.bus, w.limit, p);
    assert RowOk(w.bus, p.row, w.db.outbox[p.row]);
    if p.PublisherClaimed? {
      assert w'.bus[|w.bus|] == e.sent[0];
      assert Descends(w'.bus[|w.bus|], p.row, p.copy.payload);
    }
    ApplyKeeps(w, i, e);
  }

  lemma HookKeeps(w: World, i: nat)
    requires Inv(w) && i < |w.procs| && (w.procs[i].HookOpen? || w.procs[i].HookSeen?)
    ensures Inv(Apply(w, i, HookEffect(w, w.procs[i])))
  {
    assert ProcOk(w.db, w.bus, w.limit, w.procs[i]);
    ApplyKeeps(w, i, HookEffect(w, w.procs[i]));
  }

  predicate IsApi(p: Proc) {
    p.ApiStarted? || p.ApiMissed? || p.ApiAdmitted? || p.ApiCreated? || p.ApiBuilt? || p.ApiReady?
  }

  lemma ApiKeeps(w: World, i: nat, c: Choice)
    requires Inv(w) && i < |w.procs| && IsApi(w.procs[i])
    ensures Inv(Apply(w, i, ApiEffect(w, w.procs[i], c)))
  {
    ApiWritesOnlyCreations(w, w.procs[i], c);
    ApplyKeeps(w, i, ApiEffect(w, w.procs[i], c));
  }

  lemma ApiWritesOnlyCreations(w: World, p: Proc, c: Choice)
    requires IsApi(p)
    ensures var e := ApiEffect(w, p, c);
            && (e.tx.NoTx? || e.tx.CreateTx?) && e.sent == [] && e.acked.None? && (IsApi(e.next) || e.next.Gone?)
  {
  }

  lemma AdvanceKeeps(w: World, i: nat, c: Choice)
    requires Inv(w) && i < |w.procs| && w.procs[i] != Gone
    ensures Inv(Apply(w, i, EffectOf(w, w.procs[i], c)))
  {
    var p := w.procs[i];
    if p.PublisherClaimed? || p.PublisherSent? {
      PublisherKeeps(w, i);
    } else if p.RelayStarted? || p.RelaySent? || p.RelayDone? {
      RelayKeeps(w, i);
    } else if p.HookOpen? || p.HookSeen? {
      HookKeeps(w, i);
    } else if IsApi(p) {
      ApiKeeps(w, i, c);
    } else {
      WorkerKeeps(w, i, c);
    }
  }

  /** Handlers start in good order: with a message on the bus or a row in the outbox. */
  lemma StartsOk(w: World, a: Action)
    requires Inv(w) && Enabled(w, a) && (a.Claim? || a.Deliver? || a.Request? || a.HookCall?)
    ensures |Next(w, a).procs| == |w.procs| + 1 && Next(w, a) == w.(procs := w.procs + [Next(w, a).procs[|w.procs|]])
    ensures ProcOk(w.db, w.bus, w.limit, Next(w, a).procs[|w.procs|])
  {
    if a.Deliver? {
      assert MessageOk(w.db, w.bus, w.limit, w.bus[a.msg]);
    }
  }

  lemma StartKeeps(w: World, a: Action)
    requires Inv(w) && Enabled(w, a)
    requires a.Claim? || a.Deliver? || a.Request? || a.HookCall? || a.ManualReplay? || a.Evict?
    ensures Inv(Next(w, a))
  {
    if a.ManualReplay? {
      Assemble(w, Next(w, a));
    } else if !a.Evict? {
      StartsOk(w, a);
      Assemble(w, Next(w, a));
    }
  }

  lemma StopKeeps(w: World, a: Action)
    requires Inv(w) && Enabled(w, a) && (a.Crash? || a.PublishFails?)
    ensures Inv(Next(w, a))
  {
    var w' := Next(w, a);
    var tx := if a.Crash? then NoTx else FailureTx(w.procs[a.proc].row, a.error);
    CommitEvolves(w.db, tx);
    CommitKeepsJournal(w.db, tx);
    CommitAdds(w.db, tx);
    Assemble(w, w');
  }

  /** Every action of every handler, and every crash, keeps the invariant. */
  lemma NextKeeps(w: World, a: Action)
    requires Inv(w) && Enabled(w, a)
    ensures Inv(Next(w, a))
  {
    match a
    case Advance(i, c) => AdvanceKeeps(w, i, c);
    case Crash(_) => StopKeeps(w, a);
    case PublishFails(_, _) => StopKeeps(w, a);
    case _ => StartKeeps(w, a);
  }

  lemma NextEvolves(w: World, a: Action)
    requires Inv(w) && Enabled(w, a)
    ensures Evolves(w.db, Next(w, a).db) && BusGrows(w.bus, Next(w, a).bus)
  {
    if a.Advance? { StageAdmissible(w, w.procs[a.proc], a.choice); }
    NextCommits(w, a);
    CommitEvolves(w.db, TxOf(w, a));
    NextGrowsBus(w, a);
  }

  lemma NextGrowsBus(w: World, a: Action)
    requires Enabled(w, a)
    ensures BusGrows(w.bus, Next(w, a).bus)
  {
    if a.Advance? { AckedGrows(w.bus, EffectOf(w, w.procs[a.proc], a.choice)); }
  }

  lemma AckedGrows(bus: seq<Message>, e: Effect)
    ensures BusGrows(bus, Acked(bus, e.acked) + e.sent)
  {
  }

  lemma InitInv(limit: int)
    ensures Inv(Init(limit))
  {
  }

  /** Every world of every history satisfies the invariant. */
  lemma {:induction false} HistoryInv(ws: seq<World>, actions: seq<Action>, k: nat)
    requires IsHistory(ws, actions) && k < |ws|
    ensures Inv(ws[k]) && ws[k].limit == ws[0].limit
  {
    if k == 0 {
      InitInv(ws[0].limit);
    } else {
      HistoryInv(ws, actions, k - 1);
      NextKeeps(ws[k - 1], actions[k - 1]);
    }
  }

  lemma BusGrowsTransitive(a: seq<Message>, b: seq<Message>, c: seq<Message>)
    requires BusGrows(a, b) && BusGrows(b, c)
    ensures BusGrows(a, c)
  {
    forall m | 0 <= m < |a| ensures c[m] == a[m].(acked := c[m].acked) && (a[m].acked ==> c[m].acked) {
      assert b[m] == a[m].(acked := b[m].acked);
    }
  }

  /** Nothing recorded in `a` is lost or undone in `b`. */
  ghost predicate Grew(a: World, b: World) {
    Evolves(a.db, b.db) && BusGrows(a.bus, b.bus)
  }

  lemma GrewTransitive(a: World, b: World, c: World)
    requires Grew(a, b) && Grew(b, c)
    ensures Grew(a, c)
  {
    EvolvesTransitive(a.db, b.db, c.db);
    BusGrowsTransitive(a.bus, b.bus, c.bus);
  }

  lemma {:induction false} ChainGrew(ws: seq<World>, j: nat, k: nat)
    requires j <= k < |ws| && forall n | j <= n < k :: Grew(ws[n], ws[n + 1])
    ensures Grew(ws[j], ws[k])
    decreases k - j
  {
    if j < k {
      ChainGrew(ws, j, k - 1);
      assert Grew(ws[k - 1], ws[k - 1 + 1]);
      GrewTransitive(ws[j], ws[k - 1], ws[k]);
    }
  }

  /** Along a history every table and the bus only move forward. */
  lemma HistoryGrew(ws: seq<World>, actions: seq<Action>, j: nat, k: nat)
    requires IsHistory(ws, actions) && j <= k < |ws|
    ensures Grew(ws[j], ws[k])
  {
    forall n | j <= n < k ensures Grew(ws[n], ws[n + 1]) {
      HistoryInv(ws, actions, n);
      NextEvolves(ws[n], actions[n]);
    }
    ChainGrew(ws, j, k);
  }
}
