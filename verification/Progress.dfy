/** Fault-free scheduling settles every payment.

    From any reachable world, with whatever handlers in flight, take only fault-free actions, in any
    order: publish unpublished rows, deliver unacknowledged messages (one handler each), and let every
    handler run on, with any gateway verdicts. Each action lowers `Cost`, so there are at most `Cost`
    of them; and while a payment is open some fault-free action is enabled. */
module Progress {
  import opened Domain
  import opened Tables
  import opened Journal
  import opened Protocol
  import opened Safety
  import opened Retries
  import opened Guarantees
  import opened Sums

  predicate Publishes(p: Proc, row: nat) {
    (p.PublisherClaimed? || p.PublisherSent?) && p.row == row
  }

  ghost predicate Held(procs: seq<Proc>, row: nat) {
    exists i :: 0 <= i < |procs| && Publishes(procs[i], row)
  }

  predicate Handles(p: Proc, msg: nat) {
    HasTask(p) && p.task.msg == msg
  }

  ghost predicate Delivering(procs: seq<Proc>, msg: nat) {
    exists i :: 0 <= i < |procs| && Handles(procs[i], msg)
  }

  /** No crash, no failed publish, no second handler for the same row or message, nothing new from outside. */
  ghost predicate FaultFree(w: World, a: Action) {
    && Enabled(w, a)
    && match a
       case Advance(_, _) => true
       case Claim(row) => !Held(w.procs, row)
       case Deliver(m) => !Delivering(w.procs, m)
       case _ => false
  }

  // ---- Cost -------------------------------------------------------------------------------

  /** Work still owed by an undelivered message. */
  function MessageCost(p: Payload): nat {
    if p.RetryOrder? || p.ReplayOrder? then 23 else if p.InitiatedNote? then 19 else 0
  }

  /** Work still owed by an unpublished row; a retry row's is what one unit of retry budget pays for. */
  function RowCost(p: Payload): nat {
    MessageCost(p) + 3
  }

  const RETRY_COST: nat := 26

  function Left(limit: int, retryCount: nat): nat {
    if limit - 1 >= retryCount then limit - 1 - retryCount else 0
  }

  function NewPaymentCost(limit: int): nat {
    22 + RETRY_COST * RetryBudget(limit)
  }

  function ProcCost(limit: int, p: Proc): nat {
    match p
    case Gone => 0
    case WorkerStarted(_) => 18
    case WorkerClaimed(_) => 14
    case WorkerCleared(_) => 13
    case WorkerCharging(_) => 12
    case WorkerAnswered(_, _) => 11
    case WorkerCounted(_, _, ticket) => 7 + if ticket < limit then RETRY_COST else 0
    case WorkerChecked(_, _, _, attempt) => 6 + if attempt < limit then RETRY_COST else 0
    case WorkerExhausted(_, _, _) => 2
    case WorkerDone(_) => 1
    case RelayStarted(_, _) => 22
    case RelaySent(_, _) => 2
    case RelayDone(_) => 1
    case PublisherClaimed(_, copy) => MessageCost(copy.payload) + 2
    case PublisherSent(_, _) => 1
    case HookOpen(_) => 11
    case HookSeen(_, _) => 10
    case ApiStarted(_, _) => NewPaymentCost(limit) + 6
    case ApiMissed(_, _) => NewPaymentCost(limit) + 5
    case ApiAdmitted(_, _) => NewPaymentCost(limit) + 4
    case ApiCreated(_) => 3
    case ApiBuilt(_, _) => 2
    case ApiReady(_, _) => 1
  }

  ghost function RowWeight(outbox: seq<OutboxRow>, procs: seq<Proc>): nat -> nat {
    (r: nat) => if r < |outbox| && !outbox[r].published && !Held(procs, r) then RowCost(outbox[r].payload) else 0
  }

  ghost function MessageWeight(bus: seq<Message>, procs: seq<Proc>): nat -> nat {
    (m: nat) => if m < |bus| && !bus[m].acked && !Delivering(procs, m) then MessageCost(bus[m].payload) else 0
  }

  ghost function ProcWeight(limit: int, procs: seq<Proc>): nat -> nat {
    (i: nat) => if i < |procs| then ProcCost(limit, procs[i]) else 0
  }

  ghost function BudgetWeight(limit: int, payments: seq<Payment>): nat -> nat {
    (id: nat) => if id < |payments| then Left(limit, payments[id].retryCount) else 0
  }

  ghost function RowsCost(w: World): nat { Sum(|w.db.outbox|, RowWeight(w.db.outbox, w.procs)) }
  ghost function BusCost(w: World): nat { Sum(|w.bus|, MessageWeight(w.bus, w.procs)) }
  ghost function ProcsCost(w: World): nat { Sum(|w.procs|, ProcWeight(w.limit, w.procs)) }
  ghost function BudgetCost(w: World): nat { Sum(|w.db.payments|, BudgetWeight(w.limit, w.db.payments)) }

  ghost function Cost(w: World): nat {
    RowsCost(w) + BusCost(w) + ProcsCost(w) + RETRY_COST * BudgetCost(w)
  }

  // ---- A handler's own action -------------------------------------------------------------

  /** At most this much owed by the rows a transaction adds. */
  function AddedRows(tx: Tx): nat {
    match tx
    case CreateTx(_, _, _) => 22
    case BeginTx(_) => 3
    case SettleTx(_, _, _) => 9
    case ExhaustTx(_, _) => 3
    case DeclineTx(_, _) => 3
    case RetryTx(_, _, _, _, _) => RETRY_COST
    case HookTx(_, _) => 9
    case _ => 0
  }

  /** The rows a transaction adds, and their cost. */
  lemma CommitAddsRows(db: Db, tx: Tx)
    requires Admissible(db, tx)
    ensures var was, now := db.outbox, Commit(db, tx).outbox;
            && |was| <= |now|
            && (tx.CreateTx? ==> |now| <= |was| + 1 && forall r | |was| <= r < |now| :: RowCost(now[r].payload) <= 22)
            && (tx.RetryTx? ==>
                  |now| <= |was| + 1 && forall r | |was| <= r < |now| :: RowCost(now[r].payload) <= RETRY_COST)
            && (!tx.CreateTx? && !tx.RetryTx? ==>
                  3 * (|now| - |was|) <= AddedRows(tx) && forall r | |was| <= r < |now| :: RowCost(now[r].payload) <= 3)
  {
    match tx
    case BeginTx(id) => EnqueueAllAppends(db.outbox, id, [ProcessingNote]);
    case SettleTx(id, _, duplicate) => EnqueueAllAppends(db.outbox, id, SettleLetters(duplicate));
    case ExhaustTx(id, reason) => EnqueueAllAppends(db.outbox, id, FailLetters(reason));
    case DeclineTx(id, reason) => EnqueueAllAppends(db.outbox, id, FailLetters(reason));
    case HookTx(hook, _) => EnqueueAllAppends(db.outbox, hook.paymentId, HookLetters(hook));
    case _ =>
  }

  /** A row stays held or becomes published, so its weight does not rise. */
  lemma RowsAfter(w: World, i: nat, e: Effect)
    requires Inv(w) && i < |w.procs| && Admissible(w.db, e.tx)
    requires forall row: nat :: Publishes(w.procs[i], row) ==> Publishes(e.next, row) || e.tx == PublishedTx(row)
    ensures RowsCost(Apply(w, i, e)) <= RowsCost(w) + AddedRows(e.tx)
  {
    var w' := Apply(w, i, e);
    var f, g := RowWeight(w'.db.outbox, w'.procs), RowWeight(w.db.outbox, w.procs);
    var n := |w.db.outbox|;
    CommitEvolves(w.db, e.tx);
    forall r: nat | r < n ensures f(r) <= g(r) {
      assert LaterRow(w.db.outbox[r], w'.db.outbox[r]);
      if Held(w.procs, r) && !w'.db.outbox[r].published {
        var j :| 0 <= j < |w.procs| && Publishes(w.procs[j], r);
        assert Publishes(w'.procs[j], r);
      }
    }
    SumMono(n, f, g);
    AddedRowsCost(w.db, e.tx, f);
  }

  lemma AddedRowsCost(db: Db, tx: Tx, f: nat -> nat)
    requires Admissible(db, tx)
    requires forall r: nat | |db.outbox| <= r < |Commit(db, tx).outbox| ::
               f(r) <= RowCost(Commit(db, tx).outbox[r].payload)
    ensures |db.outbox| <= |Commit(db, tx).outbox|
    ensures Sum(|Commit(db, tx).outbox|, f) <= Sum(|db.outbox|, f) + AddedRows(tx)
  {
    CommitAddsRows(db, tx);
    var most := if tx.CreateTx? then 22 else if tx.RetryTx? then RETRY_COST else 3;
    SumTail(|db.outbox|, |Commit(db, tx).outbox|, f, most);
  }

  function SentCost(sent: seq<Message>): nat {
    if |sent| == 1 then MessageCost(sent[0].payload) else 0
  }

  /** A delivered message stays in its handler's hands or becomes acknowledged. */
  lemma BusAfter(w: World, i: nat, e: Effect)
    requires i < |w.procs| && |e.sent| <= 1
    requires forall m: nat :: m < |w.bus| && Handles(w.procs[i], m) ==> Handles(e.next, m) || e.acked == Some(m)
    ensures BusCost(Apply(w, i, e)) <= BusCost(w) + SentCost(e.sent)
  {
    var w' := Apply(w, i, e);
    var f, g := MessageWeight(w'.bus, w'.procs), MessageWeight(w.bus, w.procs);
    var n := |w.bus|;
    forall m: nat | m < n ensures f(m) <= g(m) {
      if Delivering(w.procs, m) && !w'.bus[m].acked {
        var j :| 0 <= j < |w.procs| && Handles(w.procs[j], m);
        assert Handles(w'.procs[j], m);
      }
    }
    SumMono(n, f, g);
    SumTail(n, |w'.bus|, f, SentCost(e.sent));
  }

  lemma ProcsAfter(w: World, i: nat, e: Effect)
    requires i < |w.procs|
    ensures ProcsCost(Apply(w, i, e)) + ProcCost(w.limit, w.procs[i]) == ProcsCost(w) + ProcCost(w.limit, e.next)
  {
    SumChange(|w.procs|, ProcWeight(w.limit, Apply(w, i, e).procs), ProcWeight(w.limit, w.procs), i);
  }

  /** Counting an attempt below the maximum uses up one unit of budget; a new payment brings its own. */
  lemma BudgetAfter(w: World, i: nat, e: Effect)
    requires i < |w.procs| && Admissible(w.db, e.tx)
    ensures BudgetCost(Apply(w, i, e)) <= BudgetCost(w) + if e.tx.CreateTx? then RetryBudget(w.limit) else 0
    ensures e.tx.CountTx? && e.tx.id < |w.db.payments| && w.db.payments[e.tx.id].retryCount + 1 < w.limit ==>
              BudgetCost(Apply(w, i, e)) + 1 <= BudgetCost(w)
  {
    var w' := Apply(w, i, e);
    var f, g := BudgetWeight(w'.limit, w'.db.payments), BudgetWeight(w.limit, w.db.payments);
    var n := |w.db.payments|;
    CommitEvolves(w.db, e.tx);
    forall id: nat | id < n ensures f(id) <= g(id) {
      assert Later(w.db.payments[id], w'.db.payments[id]);
    }
    SumMono(n, f, g);
    CommitPayments(w.db, e.tx);
    if e.tx.CountTx? && e.tx.id < n && w.db.payments[e.tx.id].retryCount + 1 < w.limit {
      SumDrop(n, f, g, e.tx.id, 1);
    }
  }

  lemma CommitPayments(db: Db, tx: Tx)
    ensures var after := Commit(db, tx).payments;
            || |after| == |db.payments|
            || (tx.CreateTx? && |after| == |db.payments| + 1 && after[|db.payments|].retryCount == 0)
  {
  }

  /** What the action's effects owe afterwards, in place of what the stage owed before. */
  function Price(w: World, e: Effect): nat {
    ProcCost(w.limit, e.next) + AddedRows(e.tx) + SentCost(e.sent)
    + if e.tx.CreateTx? then RETRY_COST * RetryBudget(w.limit) else 0
  }

  /** A counted attempt below the maximum, whose budget unit moves to the handler. */
  predicate Draws(w: World, e: Effect) {
    e.tx.CountTx? && e.tx.id < |w.db.payments| && w.db.payments[e.tx.id].retryCount + 1 < w.limit
  }

  lemma ApplyCosts(w: World, i: nat, e: Effect)
    requires Inv(w) && i < |w.procs| && Admissible(w.db, e.tx) && |e.sent| <= 1
    requires forall row: nat :: Publishes(w.procs[i], row) ==> Publishes(e.next, row) || e.tx == PublishedTx(row)
    requires forall m: nat :: m < |w.bus| && Handles(w.procs[i], m) ==> Handles(e.next, m) || e.acked == Some(m)
    requires Price(w, e) < ProcCost(w.limit, w.procs[i]) + if Draws(w, e) then RETRY_COST else 0
    ensures Cost(Apply(w, i, e)) < Cost(w)
  {
    RowsAfter(w, i, e);
    BusAfter(w, i, e);
    ProcsAfter(w, i, e);
    BudgetAfter(w, i, e);
  }

  /** Each stage owes more than what it hands on. */
  lemma StagePays(w: World, p: Proc, c: Choice)
    requires p != Gone && ProcOk(w.db, w.bus, w.limit, p) && (HoldsTicket(p) ==> TicketValid(w.db, p))
    ensures var e := EffectOf(w, p, c);
            Price(w, e) < ProcCost(w.limit, p) + if Draws(w, e) then RETRY_COST else 0
  {
    if IsWorker(p) {
      WorkersDoWorkerEffects(w, p, c);
      WorkerPays(w, p, c);
    } else {
      OthersPay(w, p, c);
    }
  }

  lemma WorkerPays(w: World, p: Proc, c: Choice)
    requires IsWorker(p) && ProcOk(w.db, w.bus, w.limit, p) && (HoldsTicket(p) ==> TicketValid(w.db, p))
    ensures var e := WorkerEffect(w, p, c);
            Price(w, e) < ProcCost(w.limit, p) + if Draws(w, e) then RETRY_COST else 0
  {
  }

  lemma OthersPay(w: World, p: Proc, c: Choice)
    requires p != Gone && !IsWorker(p) && ProcOk(w.db, w.bus, w.limit, p)
    ensures Price(w, EffectOf(w, p, c)) < ProcCost(w.limit, p)
  {
  }

  lemma StageKeepsHold(w: World, p: Proc, c: Choice)
    ensures var e := EffectOf(w, p, c);
            && |e.sent| <= 1
            && (forall row: nat :: Publishes(p, row) ==> Publishes(e.next, row) || e.tx == PublishedTx(row))
            && (forall m: nat :: Handles(p, m) ==> Handles(e.next, m) || e.acked == Some(m))
  {
  }

  // ---- Starting a handler -----------------------------------------------------------------

  lemma ClaimCosts(w: World, row: nat)
    requires Enabled(w, Claim(row)) && !Held(w.procs, row)
    ensures Cost(Next(w, Claim(row))) < Cost(w)
  {
    var w' := Next(w, Claim(row));
    var p := w'.procs[|w.procs|];
    StartCosts(w, w', p);
    var f, g := RowWeight(w.db.outbox, w'.procs), RowWeight(w.db.outbox, w.procs);
    assert Publishes(p, row);
    assert Held(w'.procs, row);
    forall r: nat | r < |w.db.outbox| ensures f(r) <= g(r) {
      if Held(w.procs, r) { HeldGrows(w.procs, p, r); }
    }
    SumDrop(|w.db.outbox|, f, g, row, RowCost(w.db.outbox[row].payload));
    BusUnmoved(w, w', p);
  }

  lemma DeliverCosts(w: World, m: nat)
    requires Enabled(w, Deliver(m)) && !Delivering(w.procs, m)
    ensures Cost(Next(w, Deliver(m))) < Cost(w)
  {
    var w' := Next(w, Deliver(m));
    var p := w'.procs[|w.procs|];
    StartCosts(w, w', p);
    var f, g := MessageWeight(w.bus, w'.procs), MessageWeight(w.bus, w.procs);
    assert Handles(p, m);
    assert Delivering(w'.procs, m);
    forall k: nat | k < |w.bus| ensures f(k) <= g(k) {
      if Delivering(w.procs, k) { DeliveringGrows(w.procs, p, k); }
    }
    SumDrop(|w.bus|, f, g, m, MessageCost(w.bus[m].payload));
    RowsUnmoved(w, w', p);
  }

  lemma HeldGrows(procs: seq<Proc>, p: Proc, row: nat)
    requires Held(procs, row)
    ensures Held(procs + [p], row)
  {
    var i :| 0 <= i < |procs| && Publishes(procs[i], row);
    assert Publishes((procs + [p])[i], row);
  }

  lemma DeliveringGrows(procs: seq<Proc>, p: Proc, m: nat)
    requires Delivering(procs, m)
    ensures Delivering(procs + [p], m)
  {
    var i :| 0 <= i < |procs| && Handles(procs[i], m);
    assert Handles((procs + [p])[i], m);
  }

  lemma StartCosts(w: World, w': World, p: Proc)
    requires w' == w.(procs := w.procs + [p])
    ensures ProcsCost(w') == ProcsCost(w) + ProcCost(w.limit, p) && BudgetCost(w') == BudgetCost(w)
  {
    var f, g := ProcWeight(w.limit, w'.procs), ProcWeight(w.limit, w.procs);
    SumMono(|w.procs|, f, g);
    SumMono(|w.procs|, g, f);
  }

  lemma BusUnmoved(w: World, w': World, p: Proc)
    requires w' == w.(procs := w.procs + [p])
    ensures BusCost(w') <= BusCost(w)
  {
    var f, g := MessageWeight(w.bus, w'.procs), MessageWeight(w.bus, w.procs);
    forall k: nat | k < |w.bus| ensures f(k) <= g(k) {
      if Delivering(w.procs, k) { DeliveringGrows(w.procs, p, k); }
    }
    SumMono(|w.bus|, f, g);
  }

  lemma RowsUnmoved(w: World, w': World, p: Proc)
    requires w' == w.(procs := w.procs + [p])
    ensures RowsCost(w') <= RowsCost(w)
  {
    var f, g := RowWeight(w.db.outbox, w'.procs), RowWeight(w.db.outbox, w.procs);
    forall r: nat | r < |w.db.outbox| ensures f(r) <= g(r) {
      if Held(w.procs, r) { HeldGrows(w.procs, p, r); }
    }
    SumMono(|w.db.outbox|, f, g);
  }

  // ---- The theorems -----------------------------------------------------------------------

  ghost predicate Sound(w: World) {
    Inv(w) && TicketInv(w)
  }

  /** Every fault-free action lowers the cost. */
  lemma FaultFreeCosts(w: World, a: Action)
    requires Sound(w) && FaultFree(w, a)
    ensures Cost(Next(w, a)) < Cost(w)
  {
    match a
    case Advance(i, c) =>
      var p := w.procs[i];
      assert ProcOk(w.db, w.bus, w.limit, p);
      StageAdmissible(w, p, c);
      StageKeepsHold(w, p, c);
      StagePays(w, p, c);
      ApplyCosts(w, i, EffectOf(w, p, c));
    case Claim(row) => ClaimCosts(w, row);
    case Deliver(m) => DeliverCosts(w, m);
  }

  /** While a payment is open, some fault-free action is enabled. */
  lemma OpenCanMove(w: World, id: PaymentId) returns (a: Action)
    requires Sound(w) && id < |w.db.payments| && !Terminal(w.db, id)
    ensures FaultFree(w, a)
  {
    var c := Choice(GatewayResult(false, None, false, None), 0, 0);
    OpenHasCarrier(w, id);
    if exists r :: Unpublished(w, id, r) {
      var row :| Unpublished(w, id, row);
      if Held(w.procs, row) {
        var i :| 0 <= i < |w.procs| && Publishes(w.procs[i], row);
        a := Advance(i, c);
      } else {
        a := Claim(row);
      }
    } else {
      var m :| Waiting(w, id, m);
      if Delivering(w.procs, m) {
        var i :| 0 <= i < |w.procs| && Handles(w.procs[i], m);
        a := Advance(i, c);
      } else {
        a := Deliver(m);
      }
    }
  }

  ghost predicate IsMove(w: World, a: Action, v: World) {
    FaultFree(w, a) && v == Next(w, a)
  }

  ghost predicate IsFaultFreeRun(ws: seq<World>, actions: seq<Action>) {
    && |ws| == |actions| + 1
    && forall k | 0 <= k < |actions| :: IsMove(ws[k], actions[k], ws[k + 1])
  }

  /** Nothing fault-free is left to do. */
  ghost predicate Quiescent(w: World) {
    forall a :: !FaultFree(w, a)
  }

  ghost predicate AllSettled(w: World) {
    forall id | 0 <= id < |w.db.payments| :: Terminal(w.db, id)
  }

  lemma RunMove(ws: seq<World>, actions: seq<Action>, k: nat)
    requires IsFaultFreeRun(ws, actions) && k < |actions|
    ensures IsMove(ws[k], actions[k], ws[k + 1])
  {
  }

  lemma {:induction false} RunStaysSound(ws: seq<World>, actions: seq<Action>, k: nat)
    requires IsFaultFreeRun(ws, actions) && Sound(ws[0]) && k < |ws|
    ensures Sound(ws[k])
  {
    if k > 0 {
      var n: nat := k - 1;
      RunStaysSound(ws, actions, n);
      RunMove(ws, actions, n);
      MoveStaysSound(ws[n], actions[n], ws[n + 1]);
    }
  }

  lemma {:induction false} RunCosts(ws: seq<World>, actions: seq<Action>, k: nat)
    requires IsFaultFreeRun(ws, actions) && Sound(ws[0]) && k < |ws|
    ensures Cost(ws[k]) + k <= Cost(ws[0])
  {
    if k > 0 {
      var n: nat := k - 1;
      RunCosts(ws, actions, n);
      RunStaysSound(ws, actions, n);
      RunMove(ws, actions, n);
      MoveStaysSound(ws[n], actions[n], ws[n + 1]);
    }
  }

  /** Every fault-free run from any moment of any history is finite, no longer than the cost of that
      moment, and one that cannot be continued has decided every payment. */
  lemma FaultFreeRunsSettle(ws: seq<World>, actions: seq<Action>, vs: seq<World>, choices: seq<Action>)
    requires IsHistory(ws, actions) && IsFaultFreeRun(vs, choices) && vs[0] == ws[|ws| - 1]
    ensures |choices| <= Cost(vs[0])
    ensures Quiescent(vs[|vs| - 1]) ==> AllSettled(vs[|vs| - 1])
  {
    HistoryInv(ws, actions, |ws| - 1);
    HistoryTickets(ws, actions, |ws| - 1);
    RunStaysSound(vs, choices, |vs| - 1);
    RunCosts(vs, choices, |vs| - 1);
    if !AllSettled(vs[|vs| - 1]) {
      var a := UnsettledCanMove(vs[|vs| - 1]);
    }
  }

  /** A fault-free run from the world to one in which every payment is decided. */
  ghost predicate SettlingRun(w: World, ws: seq<World>, actions: seq<Action>) {
    IsFaultFreeRun(ws, actions) && ws[0] == w && AllSettled(ws[|ws| - 1])
  }

  /** And such a run exists. */
  lemma {:induction false} CanSettle(w: World) returns (ws: seq<World>, actions: seq<Action>)
    requires Sound(w)
    ensures SettlingRun(w, ws, actions)
    decreases Cost(w)
  {
    if AllSettled(w) {
      ws, actions := [w], [];
    } else {
      var a := UnsettledCanMove(w);
      var v := Next(w, a);
      MoveStaysSound(w, a, v);
      var rest, then_ := CanSettle(v);
      ws, actions := PrependMove(w, a, v, rest, then_);
    }
  }

  lemma UnsettledCanMove(w: World) returns (a: Action)
    requires Sound(w) && !AllSettled(w)
    ensures FaultFree(w, a)
  {
    var id :| 0 <= id < |w.db.payments| && !Terminal(w.db, id);
    a := OpenCanMove(w, id);
  }

  lemma MoveStaysSound(w: World, a: Action, v: World)
    requires Sound(w) && IsMove(w, a, v)
    ensures Sound(v) && Cost(v) < Cost(w)
  {
    NextKeeps(w, a);
    NextKeepsTickets(w, a);
    FaultFreeCosts(w, a);
  }

  lemma PrependMove(w: World, a: Action, v: World, ws: seq<World>, actions: seq<Action>)
    returns (vs: seq<World>, bs: seq<Action>)
    requires IsMove(w, a, v) && SettlingRun(v, ws, actions)
    ensures SettlingRun(w, vs, bs)
  {
    vs, bs := [w] + ws, [a] + actions;
    forall k | 0 <= k < |bs| ensures IsMove(vs[k], bs[k], vs[k + 1]) {
      if k > 0 { assert bs[k] == actions[k - 1] && vs[k] == ws[k - 1] && vs[k + 1] == ws[k - 1 + 1]; }
    }
  }
}
