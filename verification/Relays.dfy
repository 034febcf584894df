/** Retry records and their relays: a record is marked processed only when its order has been relayed, and no order
    is acknowledged before. */
module Relays {
  import opened Domain
  import opened Tables
  import opened Journal
  import opened Protocol
  import opened Safety
  import opened Retries

  predicate IsOrderOf(row: OutboxRow, record: nat) {
    row.payload.RetryOrder? && row.payload.record == record
  }

  /** The initiation that the record calls for is on the bus, and descends from the record's own order. */
  ghost predicate Relayed(db: Db, bus: seq<Message>, record: nat) {
    exists r :: 0 <= r < |db.outbox| && IsOrderOf(db.outbox[r], record) && SentFor(bus, r, InitiatedNote)
  }

  predicate IsProcessed(db: Db, record: nat) {
    record < |db.retries| && db.retries[record].processed
  }

  /** The record a delivered order or replay is about. */
  predicate TaskRecord(bus: seq<Message>, t: Task, record: Option<nat>) {
    t.msg < |bus| &&
    record == if bus[t.msg].payload.RetryOrder? then Some(bus[t.msg].payload.record) else None
  }

  ghost predicate RelayOk(db: Db, bus: seq<Message>, p: Proc) {
    match p
    case RelayStarted(t, record) => TaskRecord(bus, t, record)
    case RelaySent(t, record) =>
      TaskRecord(bus, t, record) && (record.Some? ==> Relayed(db, bus, record.value))
    case RelayDone(t) =>
      t.msg < |bus| && (bus[t.msg].payload.RetryOrder? ==> IsProcessed(db, bus[t.msg].payload.record))
    case _ => true
  }

  ghost predicate RelayInv(w: World) {
    && (forall i | 0 <= i < |w.procs| :: RelayOk(w.db, w.bus, w.procs[i]))
    && (forall m | 0 <= m < |w.bus| :: OrderSettled(w.db, w.bus[m]))
    && (forall k | 0 <= k < |w.db.retries| && w.db.retries[k].processed :: Relayed(w.db, w.bus, k))
  }

  /** An acknowledged retry order's record is processed. */
  predicate OrderSettled(db: Db, m: Message) {
    m.acked && m.payload.RetryOrder? ==> IsProcessed(db, m.payload.record)
  }

  lemma {:induction false} OrderIn(outbox: seq<OutboxRow>, r: nat)
    requires r < |outbox| && outbox[r].payload.RetryOrder?
    ensures Order(outbox[r].aggregateId, outbox[r].payload) in OrdersIn(outbox)
    decreases |outbox|
  {
    if r < |outbox| - 1 { OrderIn(outbox[..|outbox| - 1], r); }
  }

  /** Every retry order on the bus names a record that exists. */
  lemma OrdersNameRecords(w: World, m: nat)
    requires Inv(w) && Paired(w.db) && m < |w.bus| && w.bus[m].payload.RetryOrder?
    ensures w.bus[m].payload.record < |w.db.retries| && w.bus[m].origin.Some?
    ensures w.bus[m].origin.value < |w.db.outbox|
    ensures IsOrderOf(w.db.outbox[w.bus[m].origin.value], w.bus[m].payload.record)
  {
    assert MessageOk(w.db, w.bus, w.limit, w.bus[m]);
    var r := w.bus[m].origin.value;
    OrderIn(w.db.outbox, r);
    var order := Order(w.db.outbox[r].aggregateId, w.db.outbox[r].payload);
    var k :| 0 <= k < |w.db.retries| && OrdersFor(w.db.retries)[k] == order;
  }

  // ---- What persists ----------------------------------------------------------------------

  lemma RelayedPersists(db: Db, bus: seq<Message>, db': Db, bus': seq<Message>, record: nat)
    requires Evolves(db, db') && BusGrows(bus, bus') && Relayed(db, bus, record)
    ensures Relayed(db', bus', record)
  {
    var r :| 0 <= r < |db.outbox| && IsOrderOf(db.outbox[r], record) && SentFor(bus, r, InitiatedNote);
    assert LaterRow(db.outbox[r], db'.outbox[r]);
    SentPersists(bus, bus', r, InitiatedNote);
  }

  lemma ProcessedPersists(db: Db, db': Db, record: nat)
    requires Evolves(db, db') && IsProcessed(db, record)
    ensures IsProcessed(db', record)
  {
    assert LaterRetry(db.retries[record], db'.retries[record]);
  }

  lemma RelayOkPersists(db: Db, bus: seq<Message>, db': Db, bus': seq<Message>, p: Proc)
    requires Evolves(db, db') && BusGrows(bus, bus') && RelayOk(db, bus, p)
    ensures RelayOk(db', bus', p)
  {
    if p.RelayStarted? || p.RelaySent? || p.RelayDone? {
      assert bus'[p.task.msg] == bus[p.task.msg].(acked := bus'[p.task.msg].acked);
      if p.RelaySent? && p.record.Some? { RelayedPersists(db, bus, db', bus', p.record.value); }
      if p.RelayDone? && bus[p.task.msg].payload.RetryOrder? {
        ProcessedPersists(db, db', bus[p.task.msg].payload.record);
      }
    }
  }

  /** A step is right if its new handler stage, its acknowledgement, its messages and the records it marks are. */
  lemma AssembleRelays(w: World, w': World)
    requires RelayInv(w) && Evolves(w.db, w'.db) && BusGrows(w.bus, w'.bus)
    requires forall i | 0 <= i < |w'.procs| ::
               (i < |w.procs| && w'.procs[i] == w.procs[i]) || RelayOk(w'.db, w'.bus, w'.procs[i])
    requires forall m | 0 <= m < |w.bus| && w'.bus[m].acked && !w.bus[m].acked :: OrderSettled(w'.db, w'.bus[m])
    requires forall m | |w.bus| <= m < |w'.bus| :: !w'.bus[m].acked
    requires forall k | 0 <= k < |w'.db.retries| && w'.db.retries[k].processed ::
               IsProcessed(w.db, k) || Relayed(w'.db, w'.bus, k)
    ensures RelayInv(w')
  {
    forall i | 0 <= i < |w'.procs| ensures RelayOk(w'.db, w'.bus, w'.procs[i]) {
      if i < |w.procs| && w'.procs[i] == w.procs[i] { RelayOkPersists(w.db, w.bus, w'.db, w'.bus, w.procs[i]); }
    }
    forall m | 0 <= m < |w'.bus| ensures OrderSettled(w'.db, w'.bus[m]) {
      if m < |w.bus| && w.bus[m].acked && w.bus[m].payload.RetryOrder? {
        assert OrderSettled(w.db, w.bus[m]);
        ProcessedPersists(w.db, w'.db, w.bus[m].payload.record);
      }
    }
    forall k | 0 <= k < |w'.db.retries| && w'.db.retries[k].processed ensures Relayed(w'.db, w'.bus, k) {
      if IsProcessed(w.db, k) { RelayedPersists(w.db, w.bus, w'.db, w'.bus, k); }
    }
  }

  // ---- One action -------------------------------------------------------------------------

  predicate IsRelay(p: Proc) {
    p.RelayStarted? || p.RelaySent? || p.RelayDone?
  }

  /** Only a relay marks a record, and only its own. */
  lemma MarksItsOwn(db: Db, tx: Tx, k: nat)
    requires k < |Commit(db, tx).retries| && Commit(db, tx).retries[k].processed
    ensures IsProcessed(db, k) || tx == RelayedTx(k)
  {
  }

  lemma RelayedTxMarks(db: Db, record: nat)
    requires record < |db.retries|
    ensures IsProcessed(Commit(db, RelayedTx(record)), record)
    ensures Commit(db, RelayedTx(record)) ==
              db.(retries := db.retries[record := db.retries[record].(processed := true)])
  {
  }

  /** A relay's own steps. */
  lemma RelayStepOk(w: World, i: nat)
    requires Inv(w) && Paired(w.db) && RelayInv(w) && i < |w.procs| && IsRelay(w.procs[i])
    ensures var w' := Apply(w, i, RelayEffect(w.procs[i])); RelayOk(w'.db, w'.bus, w'.procs[i])
  {
    var p := w.procs[i];
    var t, w' := p.task, Apply(w, i, RelayEffect(p));
    assert RelayOk(w.db, w.bus, p) && ProcOk(w.db, w.bus, w.limit, p);
    if w.bus[t.msg].payload.RetryOrder? { OrdersNameRecords(w, t.msg); }
    if p.RelayStarted? && p.record.Some? {
      assert Descends(w'.bus[|w.bus|], t.origin.value, InitiatedNote);
      assert SentFor(w'.bus, t.origin.value, InitiatedNote);
      assert Relayed(w'.db, w'.bus, p.record.value);
    }
    if p.RelaySent? && p.record.Some? { RelayedTxMarks(w.db, p.record.value); }
  }

  lemma RelayKeepsRelays(w: World, i: nat)
    requires Inv(w) && Paired(w.db) && RelayInv(w) && i < |w.procs| && IsRelay(w.procs[i])
    ensures RelayInv(Apply(w, i, RelayEffect(w.procs[i])))
  {
    var p := w.procs[i];
    var e := RelayEffect(p);
    var w' := Apply(w, i, e);
    assert RelayOk(w.db, w.bus, p) && ProcOk(w.db, w.bus, w.limit, p);
    CommitEvolves(w.db, e.tx);
    AckedGrows(w.bus, e);
    RelayStepOk(w, i);
    forall k | 0 <= k < |w'.db.retries| && w'.db.retries[k].processed
      ensures IsProcessed(w.db, k) || Relayed(w'.db, w'.bus, k)
    {
      MarksItsOwn(w.db, e.tx, k);
      if e.tx == RelayedTx(k) { RelayedPersists(w.db, w.bus, w'.db, w'.bus, k); }
    }
    AssembleRelays(w, w');
  }

  /** No other handler becomes a relay, marks a record, or acknowledges a retry order. */
  lemma OthersLeaveRelays(w: World, p: Proc, c: Choice)
    requires !IsRelay(p)
    ensures var e := EffectOf(w, p, c);
            && !IsRelay(e.next) && !e.tx.RelayedTx? && (forall m | m in e.sent :: !m.acked)
            && (e.acked.Some? ==> p.WorkerDone? && e.acked.value == p.task.msg)
  {
  }

  /** What the others acknowledge is an initiation. */
  lemma OthersAcknowledge(w: World, i: nat, c: Choice)
    requires Inv(w) && i < |w.procs| && !IsRelay(w.procs[i])
    ensures var e := EffectOf(w, w.procs[i], c);
            e.acked.Some? ==> e.acked.value < |w.bus| && w.bus[e.acked.value].payload.InitiatedNote?
  {
    OthersLeaveRelays(w, w.procs[i], c);
    assert ProcOk(w.db, w.bus, w.limit, w.procs[i]);
  }

  lemma OtherKeepsRelays(w: World, i: nat, c: Choice)
    requires Inv(w) && RelayInv(w) && i < |w.procs| && w.procs[i] != Gone && !IsRelay(w.procs[i])
    ensures RelayInv(Apply(w, i, EffectOf(w, w.procs[i], c)))
  {
    var e := EffectOf(w, w.procs[i], c);
    NextEvolves(w, Advance(i, c));
    OthersLeaveRelays(w, w.procs[i], c);
    OthersAcknowledge(w, i, c);
    UnrelatedKeepsRelays(w, i, e);
  }

  lemma UnrelatedKeepsRelays(w: World, i: nat, e: Effect)
    requires RelayInv(w) && i < |w.procs| && !IsRelay(e.next) && !e.tx.RelayedTx?
    requires Evolves(w.db, Apply(w, i, e).db) && BusGrows(w.bus, Apply(w, i, e).bus)
    requires forall m | m in e.sent :: !m.acked
    requires e.acked.Some? ==> e.acked.value < |w.bus| && w.bus[e.acked.value].payload.InitiatedNote?
    ensures RelayInv(Apply(w, i, e))
  {
    var w' := Apply(w, i, e);
    forall m | |w.bus| <= m < |w'.bus| ensures !w'.bus[m].acked {
      assert w'.bus[m] == e.sent[m - |w.bus|];
    }
    forall k | 0 <= k < |w'.db.retries| && w'.db.retries[k].processed ensures IsProcessed(w.db, k) {
      MarksItsOwn(w.db, e.tx, k);
    }
    AssembleRelays(w, w');
  }

  lemma NextKeepsRelays(w: World, a: Action)
    requires Inv(w) && Paired(w.db) && RelayInv(w) && Enabled(w, a)
    ensures RelayInv(Next(w, a))
  {
    if a.Advance? {
      if IsRelay(w.procs[a.proc]) {
        assert EffectOf(w, w.procs[a.proc], a.choice) == RelayEffect(w.procs[a.proc]);
        RelayKeepsRelays(w, a.proc);
      } else {
        OtherKeepsRelays(w, a.proc, a.choice);
      }
    } else {
      ScheduleKeepsRelays(w, a);
    }
  }

  lemma ScheduleKeepsRelays(w: World, a: Action)
    requires Inv(w) && RelayInv(w) && Enabled(w, a) && !a.Advance?
    ensures RelayInv(Next(w, a))
  {
    NextEvolves(w, a);
    NextCommits(w, a);
    forall k | 0 <= k < |Next(w, a).db.retries| && Next(w, a).db.retries[k].processed ensures IsProcessed(w.db, k) {
      MarksItsOwn(w.db, TxOf(w, a), k);
    }
    AssembleRelays(w, Next(w, a));
  }

  lemma {:induction false} HistoryRelays(ws: seq<World>, actions: seq<Action>, k: nat)
    requires IsHistory(ws, actions) && k < |ws|
    ensures RelayInv(ws[k])
  {
    if k > 0 {
      HistoryRelays(ws, actions, k - 1);
      HistoryInv(ws, actions, k - 1);
      RetriesArePaired(ws, actions, k - 1);
      NextKeepsRelays(ws[k - 1], actions[k - 1]);
    }
  }

  /** A message that will bring the record's payment to a worker again, descended from the record's own order. */
  predicate IsInitiationFor(w: World, m: Message, record: nat)
    requires record < |w.db.retries|
  {
    && m.payload.InitiatedNote? && m.paymentId == w.db.retries[record].paymentId
    && m.origin.Some? && m.origin.value < |w.db.outbox| && IsOrderOf(w.db.outbox[m.origin.value], record)
  }

  lemma RelayedForPayment(w: World, record: nat) returns (m: nat)
    requires Inv(w) && Paired(w.db) && record < |w.db.retries| && Relayed(w.db, w.bus, record)
    ensures m < |w.bus| && IsInitiationFor(w, w.bus[m], record)
  {
    var r :| 0 <= r < |w.db.outbox| && IsOrderOf(w.db.outbox[r], record) && SentFor(w.bus, r, InitiatedNote);
    m :| 0 <= m < |w.bus| && Descends(w.bus[m], r, InitiatedNote);
    assert MessageOk(w.db, w.bus, w.limit, w.bus[m]);
    OrderIn(w.db.outbox, r);
    var order := Order(w.db.outbox[r].aggregateId, w.db.outbox[r].payload);
    var k :| 0 <= k < |w.db.retries| && OrdersFor(w.db.retries)[k] == order;
    assert k == record;
  }

  /** At every moment of every history the record of an acknowledged retry order is processed, and the initiation of a
      processed record's payment, descended from the record's own order, is on the bus. */
  lemma RelayedExactlyWhenProcessed(ws: seq<World>, actions: seq<Action>, k: nat)
    requires IsHistory(ws, actions) && k < |ws|
    ensures forall m | 0 <= m < |ws[k].bus| && ws[k].bus[m].acked && ws[k].bus[m].payload.RetryOrder? ::
              IsProcessed(ws[k].db, ws[k].bus[m].payload.record)
    ensures forall record | 0 <= record < |ws[k].db.retries| && ws[k].db.retries[record].processed ::
              exists m :: 0 <= m < |ws[k].bus| && IsInitiationFor(ws[k], ws[k].bus[m], record)
  {
    HistoryRelays(ws, actions, k);
    HistoryInv(ws, actions, k);
    RetriesArePaired(ws, actions, k);
    forall m | 0 <= m < |ws[k].bus| && ws[k].bus[m].acked && ws[k].bus[m].payload.RetryOrder?
      ensures IsProcessed(ws[k].db, ws[k].bus[m].payload.record)
    {
      assert OrderSettled(ws[k].db, ws[k].bus[m]);
    }
    forall record | 0 <= record < |ws[k].db.retries| && ws[k].db.retries[record].processed
      ensures exists m :: 0 <= m < |ws[k].bus| && IsInitiationFor(ws[k], ws[k].bus[m], record)
    {
      var m := RelayedForPayment(ws[k], record);
    }
  }
}
