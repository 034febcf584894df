/** The retry budget and the gateway call bound, for any interleaving of workers.

    Each worker that counts an attempt draws a ticket, the value its own increment produced. Tickets
    of one payment differ, and only a ticket below the maximum can end in a scheduled retry, so
    retries are at most one fewer than the maximum. */
module Retries {
  import opened Domain
  import opened Tables
  import opened Journal
  import opened Protocol
  import opened Safety

  // ---- Retry rows and retry orders are the same list --------------------------------------

  datatype Order = Order(paymentId: PaymentId, payload: Payload)

  /** The retry orders in the outbox, oldest first. */
  function OrdersIn(outbox: seq<OutboxRow>): seq<Order> {
    if outbox == [] then []
    else
      var n := |outbox| - 1;
      OrdersIn(outbox[..n]) +
      if outbox[n].payload.RetryOrder? then [Order(outbox[n].aggregateId, outbox[n].payload)] else []
  }

  function OrderOf(row: RetryRow, record: nat): Order {
    Order(row.paymentId, RetryOrder(row.retryCount, row.reason, row.executeAt, record))
  }

  function OrdersFor(retries: seq<RetryRow>): seq<Order> {
    seq(|retries|, k requires 0 <= k < |retries| => OrderOf(retries[k], k))
  }

  /** Retry rows and `payment.retry` outbox rows correspond one to one, in order, with equal contents. */
  predicate Paired(db: Db) {
    OrdersIn(db.outbox) == OrdersFor(db.retries)
  }

  lemma OrdersAppend(outbox: seq<OutboxRow>, row: OutboxRow)
    ensures OrdersIn(outbox + [row]) ==
              OrdersIn(outbox) + if row.payload.RetryOrder? then [Order(row.aggregateId, row.payload)] else []
  {
    assert (outbox + [row])[..|outbox|] == outbox;
  }

  lemma {:induction false} OrdersEnqueue(outbox: seq<OutboxRow>, id: PaymentId, letters: seq<Payload>)
    requires forall k | 0 <= k < |letters| :: !letters[k].RetryOrder?
    ensures OrdersIn(EnqueueAll(outbox, id, letters)) == OrdersIn(outbox)
    decreases |letters|
  {
    if letters != [] {
      OrdersAppend(outbox, NewRow(id, letters[0]));
      OrdersEnqueue(outbox + [NewRow(id, letters[0])], id, letters[1..]);
    }
  }

  lemma {:induction false} OrdersUpdate(outbox: seq<OutboxRow>, row: nat, to: OutboxRow)
    requires row < |outbox| && to.payload == outbox[row].payload && to.aggregateId == outbox[row].aggregateId
    ensures OrdersIn(outbox[row := to]) == OrdersIn(outbox)
    decreases |outbox|
  {
    var n := |outbox| - 1;
    if row == n {
      assert outbox[row := to][..n] == outbox[..n];
    } else {
      OrdersUpdate(outbox[..n], row, to);
      assert outbox[row := to][..n] == outbox[..n][row := to];
    }
  }

  lemma CommitKeepsPairing(db: Db, tx: Tx)
    requires Paired(db)
    ensures Paired(Commit(db, tx))
  {
    if Quiet(tx) {
      QuietKeepsPairing(db, tx);
    } else {
      assert Commit(db, tx).retries == db.retries;
      match tx
      case BeginTx(id) => OrdersEnqueue(db.outbox, id, [ProcessingNote]);
      case SettleTx(id, _, duplicate) => OrdersEnqueue(db.outbox, id, SettleLetters(duplicate));
      case ExhaustTx(id, reason) => OrdersEnqueue(db.outbox, id, FailLetters(reason));
      case DeclineTx(id, reason) => OrdersEnqueue(db.outbox, id, FailLetters(reason));
      case HookTx(hook, _) => OrdersEnqueue(db.outbox, hook.paymentId, HookLetters(hook));
    }
  }

  lemma QuietKeepsPairing(db: Db, tx: Tx)
    requires Paired(db) && Quiet(tx)
    ensures Paired(Commit(db, tx))
  {
    var after := Commit(db, tx);
    if tx.CreateTx? {
      OrdersAppend(db.outbox, NewRow(|db.payments|, InitiatedNote));
    } else if tx.RetryTx? {
      RetryKeepsPairing(db, tx);
    } else if (tx.PublishedTx? || tx.FailureTx?) && tx.row < |db.outbox| {
      OrdersUpdate(db.outbox, tx.row, after.outbox[tx.row]);
    } else if tx.RelayedTx? && tx.record < |db.retries| {
      RelayKeepsOrders(db.retries, tx.record);
    }
  }

  lemma RetryKeepsPairing(db: Db, tx: Tx)
    requires Paired(db) && tx.RetryTx?
    ensures Paired(RetryCommit(db, tx))
  {
    var after := RetryCommit(db, tx);
    OrdersAppend(db.outbox, after.outbox[|db.outbox|]);
    assert OrdersFor(after.retries) == OrdersFor(db.retries) + [OrderOf(after.retries[|db.retries|], |db.retries|)];
  }

  lemma RelayKeepsOrders(retries: seq<RetryRow>, record: nat)
    requires record < |retries|
    ensures OrdersFor(retries[record := retries[record].(processed := true)]) == OrdersFor(retries)
  {
  }

  lemma {:induction false} RetriesArePaired(ws: seq<World>, actions: seq<Action>, k: nat)
    requires IsHistory(ws, actions) && k < |ws|
    ensures Paired(ws[k].db)
  {
    if k > 0 {
      RetriesArePaired(ws, actions, k - 1);
      NextCommits(ws[k - 1], actions[k - 1]);
      CommitKeepsPairing(ws[k - 1].db, TxOf(ws[k - 1], actions[k - 1]));
    }
  }

  // ---- Tickets ----------------------------------------------------------------------------

  predicate HoldsTicket(p: Proc) {
    p.WorkerCounted? || p.WorkerChecked?
  }

  /** A ticket is one of the payment's counted attempts; once read back, the attempt is no smaller. */
  predicate TicketValid(db: Db, p: Proc)
    requires HoldsTicket(p)
  {
    && p.task.paymentId < |db.payments|
    && 1 <= p.ticket <= db.payments[p.task.paymentId].retryCount
    && (p.WorkerChecked? ==> p.ticket <= p.attempt)
  }

  predicate RetryValid(db: Db, limit: int, row: RetryRow) {
    && row.paymentId < |db.payments|
    && 1 <= row.ticket <= db.payments[row.paymentId].retryCount && row.ticket < limit
  }

  predicate RowsDiffer(a: RetryRow, b: RetryRow) {
    a.paymentId == b.paymentId ==> a.ticket != b.ticket
  }

  predicate ProcsDiffer(p: Proc, q: Proc) {
    HoldsTicket(p) && HoldsTicket(q) && p.task.paymentId == q.task.paymentId ==> p.ticket != q.ticket
  }

  predicate ProcRowDiffer(p: Proc, row: RetryRow) {
    HoldsTicket(p) && p.task.paymentId == row.paymentId ==> p.ticket != row.ticket
  }

  ghost predicate TicketInv(w: World) {
    && (forall k | 0 <= k < |w.db.retries| :: RetryValid(w.db, w.limit, w.db.retries[k]))
    && (forall j, k | 0 <= j < k < |w.db.retries| :: RowsDiffer(w.db.retries[j], w.db.retries[k]))
    && (forall i | 0 <= i < |w.procs| && HoldsTicket(w.procs[i]) :: TicketValid(w.db, w.procs[i]))
    && (forall i, k | 0 <= i < |w.procs| && 0 <= k < |w.db.retries| :: ProcRowDiffer(w.procs[i], w.db.retries[k]))
    && (forall i, j | 0 <= i < j < |w.procs| :: ProcsDiffer(w.procs[i], w.procs[j]))
  }

  /** Steps that neither draw nor spend a ticket. */
  lemma TicketsUndisturbed(w: World, w': World)
    requires TicketInv(w) && Evolves(w.db, w'.db) && w'.limit == w.limit
    requires |w'.db.retries| == |w.db.retries| && |w.procs| <= |w'.procs|
    requires forall i | 0 <= i < |w'.procs| && HoldsTicket(w'.procs[i]) :: i < |w.procs| && w'.procs[i] == w.procs[i]
    ensures TicketInv(w')
  {
    forall k | 0 <= k < |w.db.retries|
      ensures LaterRetry(w.db.retries[k], w'.db.retries[k]) && RetryValid(w'.db, w.limit, w'.db.retries[k])
    {
      assert RetryValid(w.db, w.limit, w.db.retries[k]);
      assert Later(w.db.payments[w.db.retries[k].paymentId], w'.db.payments[w.db.retries[k].paymentId]);
    }
    forall i | 0 <= i < |w'.procs| && HoldsTicket(w'.procs[i]) ensures TicketValid(w'.db, w'.procs[i]) {
      assert TicketValid(w.db, w.procs[i]);
      assert Later(w.db.payments[w.procs[i].task.paymentId], w'.db.payments[w.procs[i].task.paymentId]);
    }
    forall i, k | 0 <= i < |w'.procs| && 0 <= k < |w'.db.retries| ensures ProcRowDiffer(w'.procs[i], w'.db.retries[k]) {
      if HoldsTicket(w'.procs[i]) { assert ProcRowDiffer(w.procs[i], w.db.retries[k]); }
    }
    forall i, j | 0 <= i < j < |w'.procs| ensures ProcsDiffer(w'.procs[i], w'.procs[j]) {
      if HoldsTicket(w'.procs[i]) && HoldsTicket(w'.procs[j]) { assert ProcsDiffer(w.procs[i], w.procs[j]); }
    }
    forall j, k | 0 <= j < k < |w'.db.retries| ensures RowsDiffer(w'.db.retries[j], w'.db.retries[k]) {
      assert RowsDiffer(w.db.retries[j], w.db.retries[k]);
    }
  }

  /** Counting an attempt draws a ticket larger than every earlier one. */
  lemma TicketDrawn(w: World, i: nat, c: Choice)
    requires TicketInv(w) && Inv(w) && i < |w.procs| && w.procs[i].WorkerAnswered?
    requires !w.procs[i].result.success && w.procs[i].result.Transient()
    ensures TicketInv(Apply(w, i, WorkerEffect(w, w.procs[i], c)))
  {
    var w' := Apply(w, i, WorkerEffect(w, w.procs[i], c));
    assert ProcOk(w.db, w.bus, w.limit, w.procs[i]);
    forall k | 0 <= k < |w.db.retries| ensures RetryValid(w'.db, w.limit, w'.db.retries[k]) {
      assert RetryValid(w.db, w.limit, w.db.retries[k]);
    }
    forall j | 0 <= j < |w.procs| && HoldsTicket(w'.procs[j]) ensures TicketValid(w'.db, w'.procs[j]) {
      if j != i { assert TicketValid(w.db, w.procs[j]); }
    }
    forall j, k | 0 <= j < |w'.procs| && 0 <= k < |w'.db.retries| ensures ProcRowDiffer(w'.procs[j], w'.db.retries[k]) {
      assert RetryValid(w.db, w.limit, w.db.retries[k]);
      if j != i { assert ProcRowDiffer(w.procs[j], w.db.retries[k]); }
    }
    forall j, n | 0 <= j < n < |w'.procs| ensures ProcsDiffer(w'.procs[j], w'.procs[n]) {
      if j != i && n != i { assert ProcsDiffer(w.procs[j], w.procs[n]); }
      if j != i && HoldsTicket(w'.procs[j]) { assert TicketValid(w.db, w.procs[j]); }
      if n != i && HoldsTicket(w'.procs[n]) { assert TicketValid(w.db, w.procs[n]); }
    }
  }

  /** Reading the count back keeps the ticket; it is at most the attempt read. */
  lemma TicketChecked(w: World, i: nat, c: Choice)
    requires TicketInv(w) && i < |w.procs| && w.procs[i].WorkerCounted?
    ensures TicketInv(Apply(w, i, WorkerEffect(w, w.procs[i], c)))
  {
    var w' := Apply(w, i, WorkerEffect(w, w.procs[i], c));
    assert TicketValid(w.db, w.procs[i]);
    forall j, k | 0 <= j < |w'.procs| && 0 <= k < |w'.db.retries| ensures ProcRowDiffer(w'.procs[j], w'.db.retries[k]) {
      assert ProcRowDiffer(w.procs[j], w.db.retries[k]);
    }
    forall j, n | 0 <= j < n < |w'.procs| ensures ProcsDiffer(w'.procs[j], w'.procs[n]) {
      assert ProcsDiffer(w.procs[j], w.procs[n]);
    }
  }

  /** Scheduling a retry spends the ticket. */
  lemma TicketSpent(w: World, i: nat, c: Choice)
    requires TicketInv(w) && i < |w.procs| && w.procs[i].WorkerChecked? && w.procs[i].attempt < w.limit
    ensures TicketInv(Apply(w, i, WorkerEffect(w, w.procs[i], c)))
  {
    var w' := Apply(w, i, WorkerEffect(w, w.procs[i], c));
    var p := w.procs[i];
    assert TicketValid(w.db, p);
    forall j, k | 0 <= j < |w'.procs| && 0 <= k < |w'.db.retries| ensures ProcRowDiffer(w'.procs[j], w'.db.retries[k]) {
      if j != i && k < |w.db.retries| { assert ProcRowDiffer(w.procs[j], w.db.retries[k]); }
      if j < i { assert ProcsDiffer(w.procs[j], p); }
      if i < j { assert ProcsDiffer(p, w.procs[j]); }
    }
    forall j, k | 0 <= j < k < |w'.db.retries| ensures RowsDiffer(w'.db.retries[j], w'.db.retries[k]) {
      if k < |w.db.retries| { assert RowsDiffer(w.db.retries[j], w.db.retries[k]); }
      else { assert ProcRowDiffer(p, w.db.retries[j]); }
    }
    forall k | 0 <= k < |w'.db.retries| ensures RetryValid(w'.db, w.limit, w'.db.retries[k]) {
      if k < |w.db.retries| { assert RetryValid(w.db, w.limit, w.db.retries[k]); }
    }
    forall j, n | 0 <= j < n < |w'.procs| ensures ProcsDiffer(w'.procs[j], w'.procs[n]) {
      if j != i && n != i { assert ProcsDiffer(w.procs[j], w.procs[n]); }
    }
  }

  /** The three stages that deal in tickets. */
  predicate TicketStage(w: World, p: Proc) {
    || (p.WorkerAnswered? && !p.result.success && p.result.Transient())
    || p.WorkerCounted?
    || (p.WorkerChecked? && p.attempt < w.limit)
  }

  lemma OtherStagesHoldNone(w: World, p: Proc, c: Choice)
    requires !TicketStage(w, p)
    ensures !EffectOf(w, p, c).tx.RetryTx? && !HoldsTicket(EffectOf(w, p, c).next)
  {
  }

  lemma NextKeepsTickets(w: World, a: Action)
    requires Inv(w) && TicketInv(w) && Enabled(w, a)
    ensures TicketInv(Next(w, a))
  {
    NextEvolves(w, a);
    if a.Advance? {
      AdvanceKeepsTickets(w, a.proc, a.choice);
    } else {
      TicketsUndisturbed(w, Next(w, a));
    }
  }

  lemma AdvanceKeepsTickets(w: World, i: nat, c: Choice)
    requires Inv(w) && TicketInv(w) && i < |w.procs| && w.procs[i] != Gone
    requires Evolves(w.db, Apply(w, i, EffectOf(w, w.procs[i], c)).db)
    ensures TicketInv(Apply(w, i, EffectOf(w, w.procs[i], c)))
  {
    var p := w.procs[i];
    if TicketStage(w, p) {
      assert EffectOf(w, p, c) == WorkerEffect(w, p, c);
      if p.WorkerAnswered? {
        TicketDrawn(w, i, c);
      } else if p.WorkerCounted? {
        TicketChecked(w, i, c);
      } else {
        TicketSpent(w, i, c);
      }
    } else {
      OtherStagesHoldNone(w, p, c);
      ApplyUndisturbed(w, i, EffectOf(w, p, c));
    }
  }

  lemma ApplyUndisturbed(w: World, i: nat, e: Effect)
    requires TicketInv(w) && i < |w.procs| && !e.tx.RetryTx? && !HoldsTicket(e.next)
    requires Evolves(w.db, Apply(w, i, e).db)
    ensures TicketInv(Apply(w, i, e))
  {
    QuietCommit(w.db, e.tx);
    TicketsUndisturbed(w, Apply(w, i, e));
  }

  lemma QuietCommit(db: Db, tx: Tx)
    requires !tx.RetryTx?
    ensures |Commit(db, tx).retries| == |db.retries|
  {
  }

  lemma {:induction false} HistoryTickets(ws: seq<World>, actions: seq<Action>, k: nat)
    requires IsHistory(ws, actions) && k < |ws|
    ensures TicketInv(ws[k])
  {
    if k > 0 {
      HistoryTickets(ws, actions, k - 1);
      HistoryInv(ws, actions, k - 1);
      NextKeepsTickets(ws[k - 1], actions[k - 1]);
    }
  }

  // ---- The retry bound --------------------------------------------------------------------

  function RetriesOf(retries: seq<RetryRow>, id: PaymentId): nat {
    if retries == [] then 0
    else RetriesOf(retries[..|retries| - 1], id) + if retries[|retries| - 1].paymentId == id then 1 else 0
  }

  function TicketsOf(retries: seq<RetryRow>, id: PaymentId): set<nat> {
    set k | 0 <= k < |retries| && retries[k].paymentId == id :: retries[k].ticket
  }

  lemma TicketsOfLast(retries: seq<RetryRow>, id: PaymentId)
    requires retries != []
    ensures var last := retries[|retries| - 1];
            TicketsOf(retries, id) ==
              TicketsOf(retries[..|retries| - 1], id) + if last.paymentId == id then {last.ticket} else {}
  {
    var n := |retries| - 1;
    var rest := retries[..n];
    forall t | t in TicketsOf(retries, id)
      ensures t in TicketsOf(rest, id) || (retries[n].paymentId == id && t == retries[n].ticket)
    {
      var k :| 0 <= k < |retries| && retries[k].paymentId == id && retries[k].ticket == t;
      if k < n { assert rest[k] == retries[k]; }
    }
    forall t | t in TicketsOf(rest, id) ensures t in TicketsOf(retries, id) {
      var k :| 0 <= k < |rest| && rest[k].paymentId == id && rest[k].ticket == t;
      assert retries[k] == rest[k];
    }
  }

  ghost predicate AllDiffer(retries: seq<RetryRow>) {
    forall j, k | 0 <= j < k < |retries| :: RowsDiffer(retries[j], retries[k])
  }

  /** The last row's ticket is new to its payment. */
  lemma LastTicketIsNew(retries: seq<RetryRow>)
    requires AllDiffer(retries) && retries != []
    ensures AllDiffer(retries[..|retries| - 1])
    ensures var last := retries[|retries| - 1]; last.ticket !in TicketsOf(retries[..|retries| - 1], last.paymentId)
  {
    var n := |retries| - 1;
    forall j, k | 0 <= j < k < n ensures RowsDiffer(retries[..n][j], retries[..n][k]) {
      assert RowsDiffer(retries[j], retries[k]);
    }
    forall k | 0 <= k < n && retries[k].paymentId == retries[n].paymentId
      ensures retries[k].ticket != retries[n].ticket
    {
      assert RowsDiffer(retries[k], retries[n]);
    }
  }

  lemma {:induction false} RetriesCountTickets(retries: seq<RetryRow>, id: PaymentId)
    requires AllDiffer(retries)
    ensures RetriesOf(retries, id) == |TicketsOf(retries, id)|
    decreases |retries|
  {
    if retries != [] {
      LastTicketIsNew(retries);
      RetriesCountTickets(retries[..|retries| - 1], id);
      TicketsOfLast(retries, id);
    }
  }

  lemma {:induction false} BoundedSet(s: set<nat>, n: nat)
    requires forall x | x in s :: 1 <= x <= n
    ensures |s| <= n
    decreases n
  {
    if n == 0 {
      assert s == {};
    } else {
      BoundedSet(s - {n}, n - 1);
      assert s <= (s - {n}) + {n};
    }
  }

  function RetryBudget(limit: int): nat {
    if limit >= 1 then limit - 1 else 0
  }

  lemma RetriesWithinBudget(w: World, id: PaymentId)
    requires TicketInv(w)
    ensures RetriesOf(w.db.retries, id) <= RetryBudget(w.limit)
  {
    assert AllDiffer(w.db.retries);
    RetriesCountTickets(w.db.retries, id);
    forall t | t in TicketsOf(w.db.retries, id) ensures 1 <= t <= RetryBudget(w.limit) {
      var k :| 0 <= k < |w.db.retries| && w.db.retries[k].paymentId == id && w.db.retries[k].ticket == t;
      assert RetryValid(w.db, w.limit, w.db.retries[k]);
    }
    BoundedSet(TicketsOf(w.db.retries, id), RetryBudget(w.limit));
  }

  /** However workers interleave, a payment is scheduled for at most max(MAX_RETRY_ATTEMPTS - 1, 0)
      retries, and every retry row has its own `payment.retry` outbox row. */
  lemma RetriesAreBounded(ws: seq<World>, actions: seq<Action>, k: nat, id: PaymentId)
    requires IsHistory(ws, actions) && k < |ws|
    ensures RetriesOf(ws[k].db.retries, id) <= RetryBudget(ws[k].limit)
    ensures Paired(ws[k].db)
  {
    HistoryTickets(ws, actions, k);
    RetriesWithinBudget(ws[k], id);
    RetriesArePaired(ws, actions, k);
  }

  // ---- The gateway bound ------------------------------------------------------------------

  /** The two parts of the gateway section: before the call, and after it. */
  datatype Part = Before | After

  predicate InPart(p: Proc, id: PaymentId, part: Part) {
    (if part.Before? then p.WorkerCleared? else HasCharged(p)) && p.task.paymentId == id
  }

  /** Workers now in one part of the payment's gateway section. */
  function Count(procs: seq<Proc>, id: PaymentId, part: Part): nat {
    if procs == [] then 0
    else Count(procs[..|procs| - 1], id, part) + if InPart(procs[|procs| - 1], id, part) then 1 else 0
  }

  /** Workers now inside the payment's gateway section. */
  function Inside(procs: seq<Proc>, id: PaymentId): nat {
    Count(procs, id, Before) + Count(procs, id, After)
  }

  lemma CountAppend(procs: seq<Proc>, p: Proc, id: PaymentId, part: Part)
    ensures Count(procs + [p], id, part) == Count(procs, id, part) + if InPart(p, id, part) then 1 else 0
  {
    assert (procs + [p])[..|procs|] == procs;
  }

  lemma {:induction false} CountUpdate(procs: seq<Proc>, i: nat, p: Proc, id: PaymentId, part: Part)
    requires i < |procs|
    ensures Count(procs[i := p], id, part) + (if InPart(procs[i], id, part) then 1 else 0)
              == Count(procs, id, part) + if InPart(p, id, part) then 1 else 0
    decreases |procs|
  {
    var n := |procs| - 1;
    if i == n {
      assert procs[i := p][..n] == procs[..n];
    } else {
      CountUpdate(procs[..n], i, p, id, part);
      assert procs[i := p][..n] == procs[..n][i := p];
    }
  }

  /** While a payment is open, each of its gateway calls is that of a worker still in the section, was
      followed by a scheduled retry, or was lost in a crash. */
  ghost predicate ChargesAccounted(w: World) {
    forall id: PaymentId | !Terminal(w.db, id) ::
      w.charges[id] == RetriesOf(w.db.retries, id) + Count(w.procs, id, After) + w.crashes[id]
  }

  lemma RetriesAppend(retries: seq<RetryRow>, row: RetryRow, id: PaymentId)
    ensures RetriesOf(retries + [row], id) == RetriesOf(retries, id) + if row.paymentId == id then 1 else 0
  {
    assert (retries + [row])[..|retries|] == retries;
  }

  lemma {:induction false} RetriesUpdate(retries: seq<RetryRow>, k: nat, row: RetryRow, id: PaymentId)
    requires k < |retries| && row.paymentId == retries[k].paymentId
    ensures RetriesOf(retries[k := row], id) == RetriesOf(retries, id)
    decreases |retries|
  {
    var n := |retries| - 1;
    if k == n {
      assert retries[k := row][..n] == retries[..n];
    } else {
      RetriesUpdate(retries[..n], k, row, id);
      assert retries[k := row][..n] == retries[..n][k := row];
    }
  }

  lemma CommitRetries(db: Db, tx: Tx, id: PaymentId)
    ensures RetriesOf(Commit(db, tx).retries, id) ==
              RetriesOf(db.retries, id) + if tx.RetryTx? && tx.id == id then 1 else 0
  {
    if tx.RetryTx? {
      RetriesAppend(db.retries, Commit(db, tx).retries[|db.retries|], id);
    } else if tx.RelayedTx? && tx.record < |db.retries| {
      RetriesUpdate(db.retries, tx.record, Commit(db, tx).retries[tx.record], id);
    }
  }

  /** How one action moves the three accounts, if the payment stays open. */
  predicate Balanced(w: World, p: Proc, e: Effect, id: PaymentId) {
    (if e.charged == Some(id) then 1 else 0) + (if InPart(p, id, After) then 1 else 0)
      == (if e.tx.RetryTx? && e.tx.id == id then 1 else 0) + (if InPart(e.next, id, After) then 1 else 0)
  }

  lemma WorkerBalances(w: World, p: Proc, c: Choice, id: PaymentId)
    requires ProcOk(w.db, w.bus, w.limit, p) && IsWorker(p)
    requires !Terminal(Commit(w.db, WorkerEffect(w, p, c).tx), id)
    ensures Balanced(w, p, WorkerEffect(w, p, c), id)
  {
    var tx := WorkerEffect(w, p, c).tx;
    if (tx.SettleTx? || tx.ExhaustTx? || tx.DeclineTx?) && tx.id == id {
      WorkerDecides(w.db, id, tx);
    }
  }

  lemma OthersBalance(w: World, p: Proc, c: Choice, id: PaymentId)
    requires !IsWorker(p)
    ensures Balanced(w, p, EffectOf(w, p, c), id)
  {
  }

  lemma AdvanceAccounts(w: World, i: nat, c: Choice, id: PaymentId)
    requires Inv(w) && ChargesAccounted(w) && i < |w.procs| && w.procs[i] != Gone && !Terminal(w.db, id)
    requires !Terminal(Commit(w.db, EffectOf(w, w.procs[i], c).tx), id)
    ensures var w' := Apply(w, i, EffectOf(w, w.procs[i], c));
            w'.charges[id] == RetriesOf(w'.db.retries, id) + Count(w'.procs, id, After) + w'.crashes[id]
  {
    assert ProcOk(w.db, w.bus, w.limit, w.procs[i]);
    StageBalances(w, w.procs[i], c, id);
    BalanceKeeps(w, i, EffectOf(w, w.procs[i], c), id);
  }

  lemma WorkersDoWorkerEffects(w: World, p: Proc, c: Choice)
    requires IsWorker(p)
    ensures EffectOf(w, p, c) == WorkerEffect(w, p, c)
  {
  }

  lemma StageBalances(w: World, p: Proc, c: Choice, id: PaymentId)
    requires ProcOk(w.db, w.bus, w.limit, p) && p != Gone
    requires !Terminal(Commit(w.db, EffectOf(w, p, c).tx), id)
    ensures Balanced(w, p, EffectOf(w, p, c), id)
  {
    if IsWorker(p) {
      WorkersDoWorkerEffects(w, p, c);
      WorkerBalances(w, p, c, id);
    } else {
      OthersBalance(w, p, c, id);
    }
  }

  lemma BalanceKeeps(w: World, i: nat, e: Effect, id: PaymentId)
    requires i < |w.procs| && Balanced(w, w.procs[i], e, id)
    requires w.charges[id] == RetriesOf(w.db.retries, id) + Count(w.procs, id, After) + w.crashes[id]
    ensures var w' := Apply(w, i, e);
            w'.charges[id] == RetriesOf(w'.db.retries, id) + Count(w'.procs, id, After) + w'.crashes[id]
  {
    CountUpdate(w.procs, i, e.next, id, After);
    CommitRetries(w.db, e.tx, id);
  }

  lemma StartAccounts(w: World, a: Action, id: PaymentId)
    requires Enabled(w, a) && !a.Advance?
    requires w.charges[id] == RetriesOf(w.db.retries, id) + Count(w.procs, id, After) + w.crashes[id]
    ensures var w' := Next(w, a);
            w'.charges[id] == RetriesOf(w'.db.retries, id) + Count(w'.procs, id, After) + w'.crashes[id]
  {
    NextCommits(w, a);
    CommitRetries(w.db, TxOf(w, a), id);
    if a.Crash? || a.PublishFails? {
      CountUpdate(w.procs, a.proc, Gone, id, After);
    } else {
      StartsOutside(w, a, id);
    }
  }

  /** A new handler starts outside the gateway section. */
  lemma StartsOutside(w: World, a: Action, id: PaymentId)
    requires Enabled(w, a) && !a.Advance? && !a.Crash? && !a.PublishFails?
    ensures forall part :: Count(Next(w, a).procs, id, part) == Count(w.procs, id, part)
    ensures Next(w, a).charges == w.charges && Next(w, a).crashes == w.crashes
  {
    var p := NewHandler(w, a);
    if p.Some? {
      CountAppend(w.procs, p.value, id, Before);
      CountAppend(w.procs, p.value, id, After);
    }
  }

  /** The handler an action starts, if any. */
  lemma NewHandler(w: World, a: Action) returns (p: Option<Proc>)
    requires Enabled(w, a) && !a.Advance? && !a.Crash? && !a.PublishFails?
    ensures Next(w, a).procs == if p.Some? then w.procs + [p.value] else w.procs
    ensures p.Some? ==> !InGatewaySection(p.value)
    ensures Next(w, a).charges == w.charges && Next(w, a).crashes == w.crashes
  {
    var procs := Next(w, a).procs;
    p := if |procs| > |w.procs| then Some(procs[|w.procs|]) else None;
  }

  lemma NextKeepsAccounts(w: World, a: Action)
    requires Inv(w) && ChargesAccounted(w) && Enabled(w, a)
    ensures ChargesAccounted(Next(w, a))
  {
    var w' := Next(w, a);
    NextEvolves(w, a);
    forall id: PaymentId | !Terminal(w'.db, id)
      ensures w'.charges[id] == RetriesOf(w'.db.retries, id) + Count(w'.procs, id, After) + w'.crashes[id]
    {
      StagesPersist(w.db, w'.db, id);
      if a.Advance? {
        AdvanceAccounts(w, a.proc, a.choice, id);
      } else {
        StartAccounts(w, a, id);
      }
    }
  }

  lemma {:induction false} HistoryAccounts(ws: seq<World>, actions: seq<Action>, k: nat)
    requires IsHistory(ws, actions) && k < |ws|
    ensures ChargesAccounted(ws[k])
  {
    if k > 0 {
      HistoryAccounts(ws, actions, k - 1);
      HistoryInv(ws, actions, k - 1);
      NextKeepsAccounts(ws[k - 1], actions[k - 1]);
    }
  }

  /** How one action moves a decided payment's calls, made and cleared: a call takes a clearance, and nobody is
      cleared any more. */
  lemma DecidedStageBalances(w: World, p: Proc, c: Choice, id: PaymentId)
    requires Terminal(Commit(w.db, EffectOf(w, p, c).tx), id)
    ensures var e := EffectOf(w, p, c);
            (if e.charged == Some(id) then 1 else 0) + (if InPart(e.next, id, Before) then 1 else 0)
              <= if InPart(p, id, Before) then 1 else 0
  {
  }

  /** Once a payment is decided, only workers cleared before still call the gateway for it: calls made and calls
      cleared together never grow. Recorded crashes never shrink. */
  lemma DecidedCallsWereCleared(w: World, a: Action, id: PaymentId)
    requires Enabled(w, a) && Terminal(Next(w, a).db, id)
    ensures Next(w, a).charges[id] + Count(Next(w, a).procs, id, Before) <= w.charges[id] + Count(w.procs, id, Before)
    ensures w.crashes[id] <= Next(w, a).crashes[id]
  {
    if a.Advance? {
      DecidedStageBalances(w, w.procs[a.proc], a.choice, id);
      CountUpdate(w.procs, a.proc, EffectOf(w, w.procs[a.proc], a.choice).next, id, Before);
    } else if a.Crash? || a.PublishFails? {
      CountUpdate(w.procs, a.proc, Gone, id, Before);
    } else {
      StartsOutside(w, a, id);
    }
  }

  // ---- When a decided payment is still charged --------------------------------------------

  /** A run from the world that ends with more gateway calls for the payment. */
  ghost predicate ChargesMore(w: World, ws: seq<World>, actions: seq<Action>, id: PaymentId) {
    IsRun(ws, actions) && ws[0] == w && ws[|ws| - 1].charges[id] > w.charges[id]
  }

  lemma DecidedStep(w: World, a: Action, id: PaymentId)
    requires Inv(w) && Enabled(w, a) && Terminal(w.db, id)
    ensures Inv(Next(w, a)) && Terminal(Next(w, a).db, id)
    ensures var v := Next(w, a);
            v.charges[id] + Count(v.procs, id, Before) <= w.charges[id] + Count(w.procs, id, Before)
  {
    NextKeeps(w, a);
    NextEvolves(w, a);
    StagesPersist(w.db, Next(w, a).db, id);
    DecidedCallsWereCleared(w, a, id);
  }

  /** Along any run after the decision, calls made and calls cleared together never grow. */
  lemma {:induction false} DecidedRun(ws: seq<World>, actions: seq<Action>, k: nat, id: PaymentId)
    requires IsRun(ws, actions) && Inv(ws[0]) && Terminal(ws[0].db, id) && k < |ws|
    ensures Inv(ws[k]) && Terminal(ws[k].db, id)
    ensures ws[k].charges[id] + Count(ws[k].procs, id, Before) <= ws[0].charges[id] + Count(ws[0].procs, id, Before)
  {
    if k > 0 {
      DecidedRun(ws, actions, k - 1, id);
      DecidedStep(ws[k - 1], actions[k - 1], id);
    }
  }

  lemma {:induction false} SomeoneIn(procs: seq<Proc>, id: PaymentId, part: Part) returns (i: nat)
    requires Count(procs, id, part) > 0
    ensures i < |procs| && InPart(procs[i], id, part)
  {
    var n := |procs| - 1;
    if InPart(procs[n], id, part) {
      i := n;
    } else {
      i := SomeoneIn(procs[..n], id, part);
    }
  }

  /** A cleared worker can call at once. */
  lemma ClearedCanCall(w: World, i: nat, c: Choice, id: PaymentId)
    requires i < |w.procs| && InPart(w.procs[i], id, Before)
    ensures Enabled(w, Advance(i, c)) && Next(w, Advance(i, c)).charges[id] == w.charges[id] + 1
  {
    WorkersDoWorkerEffects(w, w.procs[i], c);
  }

  /** A decided payment can still be charged exactly when some worker has read it as PROCESSING before and has not
      made its call yet. */
  lemma DecidedIsChargedExactly(w: World, id: PaymentId)
    requires Inv(w) && Terminal(w.db, id)
    ensures (exists ws, actions :: ChargesMore(w, ws, actions, id)) <==> Count(w.procs, id, Before) > 0
  {
    forall ws, actions | ChargesMore(w, ws, actions, id) ensures Count(w.procs, id, Before) > 0 {
      DecidedRun(ws, actions, |ws| - 1, id);
    }
    if Count(w.procs, id, Before) > 0 {
      var i := SomeoneIn(w.procs, id, Before);
      var ws, actions := CallNow(w, i, id);
    }
  }

  lemma CallNow(w: World, i: nat, id: PaymentId) returns (ws: seq<World>, actions: seq<Action>)
    requires i < |w.procs| && InPart(w.procs[i], id, Before)
    ensures ChargesMore(w, ws, actions, id)
  {
    var c := Choice(GatewayResult(false, None, false, None), 0, 0);
    ClearedCanCall(w, i, c, id);
    ws, actions := [w, Next(w, Advance(i, c))], [Advance(i, c)];
  }

  /** So at every moment of every history; in particular a payment decided with nobody cleared is never charged
      again. */
  lemma DecidedIsChargedInHistory(ws: seq<World>, actions: seq<Action>, k: nat, id: PaymentId)
    requires IsHistory(ws, actions) && k < |ws| && Terminal(ws[k].db, id)
    ensures (exists vs, bs :: ChargesMore(ws[k], vs, bs, id)) <==> Count(ws[k].procs, id, Before) > 0
    ensures forall n | k <= n < |ws| ::
              ws[n].charges[id] + Count(ws[n].procs, id, Before) <= ws[k].charges[id] + Count(ws[k].procs, id, Before)
  {
    HistoryInv(ws, actions, k);
    DecidedIsChargedExactly(ws[k], id);
    IsRunFrom(ws, actions, k);
    forall n | k <= n < |ws|
      ensures ws[n].charges[id] + Count(ws[n].procs, id, Before) <= ws[k].charges[id] + Count(ws[k].procs, id, Before)
    {
      DecidedRun(ws[k..], actions[k..], n - k, id);
    }
  }

  lemma IsRunFrom(ws: seq<World>, actions: seq<Action>, k: nat)
    requires IsRun(ws, actions) && k < |ws|
    ensures IsRun(ws[k..], actions[k..])
  {
    var vs, bs := ws[k..], actions[k..];
    forall n | 0 <= n < |bs| ensures Enabled(vs[n], bs[n]) && vs[n + 1] == Next(vs[n], bs[n]) {
      assert vs[n] == ws[k + n] && bs[n] == actions[k + n] && vs[n + 1] == ws[k + n + 1];
    }
  }

  // ---- The gateway bound over histories ---------------------------------------------------

  /** Calls made and cleared, while the payment is open. */
  lemma OpenCallsAreBounded(ws: seq<World>, actions: seq<Action>, k: nat, id: PaymentId)
    requires IsHistory(ws, actions) && k < |ws| && (k == 0 || !Terminal(ws[k].db, id))
    ensures ws[k].charges[id] + Count(ws[k].procs, id, Before)
              <= RetryBudget(ws[k].limit) + Inside(ws[k].procs, id) + ws[k].crashes[id]
  {
    HistoryAccounts(ws, actions, k);
    HistoryTickets(ws, actions, k);
    RetriesWithinBudget(ws[k], id);
  }

  lemma {:induction false} CallsAndClearances(ws: seq<World>, actions: seq<Action>, k: nat, id: PaymentId, c: nat)
    requires IsHistory(ws, actions) && k < |ws|
    requires forall n | 0 <= n <= k :: Inside(ws[n].procs, id) <= c
    ensures ws[k].charges[id] + Count(ws[k].procs, id, Before) <= RetryBudget(ws[k].limit) + c + ws[k].crashes[id]
  {
    if Terminal(ws[k].db, id) && k > 0 {
      CallsAndClearances(ws, actions, k - 1, id, c);
      LastStepCalls(ws, actions, k - 1, id);
    } else {
      OpenCallsAreBounded(ws, actions, k, id);
      assert Inside(ws[k].procs, id) <= c;
    }
  }

  lemma LastStepCalls(ws: seq<World>, actions: seq<Action>, k: nat, id: PaymentId)
    requires IsHistory(ws, actions) && k < |actions| && Terminal(ws[k + 1].db, id)
    ensures ws[k + 1].charges[id] + Count(ws[k + 1].procs, id, Before)
              <= ws[k].charges[id] + Count(ws[k].procs, id, Before)
    ensures ws[k].crashes[id] <= ws[k + 1].crashes[id] && ws[k + 1].limit == ws[k].limit
  {
    HistoryInv(ws, actions, k);
    HistoryInv(ws, actions, k + 1);
    DecidedCallsWereCleared(ws[k], actions[k], id);
  }

  /** If at most `c` workers are ever inside the payment's gateway section at once, the gateway is
      called for it at most max(MAX_RETRY_ATTEMPTS - 1, 0) + c times, plus once per crash after a call;
      duplicates and manual replays add nothing. */
  lemma GatewayCallsAreBounded(ws: seq<World>, actions: seq<Action>, k: nat, id: PaymentId, c: nat)
    requires IsHistory(ws, actions) && k < |ws|
    requires forall n | 0 <= n <= k :: Inside(ws[n].procs, id) <= c
    ensures ws[k].charges[id] <= RetryBudget(ws[k].limit) + c + ws[k].crashes[id]
  {
    CallsAndClearances(ws, actions, k, id, c);
  }

  /** With mutual exclusion and no crash there, that is max(1, MAX_RETRY_ATTEMPTS) calls. */
  lemma GatewayCallsUnderLock(ws: seq<World>, actions: seq<Action>, k: nat, id: PaymentId)
    requires IsHistory(ws, actions) && k < |ws| && ws[k].crashes[id] == 0
    requires forall n | 0 <= n <= k :: Inside(ws[n].procs, id) <= 1
    ensures ws[k].charges[id] <= if ws[k].limit >= 1 then ws[k].limit else 1
  {
    GatewayCallsAreBounded(ws, actions, k, id, 1);
  }
}
