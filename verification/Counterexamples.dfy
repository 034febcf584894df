/** Reachable worlds in which documented promises fail: a DLQ record about a SUCCESS payment, a SUCCESS
    webhook that leaves its payment FAILED, a webhook refused because its read was overtaken, and a gateway call for
    a payment that is already decided. */
module Counterexamples {
  import opened Domain
  import opened Tables
  import opened Protocol

  ghost predicate EndsIn(ws: seq<World>, actions: seq<Action>, w: World) {
    IsHistory(ws, actions) && ws[|ws| - 1] == w
  }

  ghost predicate Reachable(w: World) {
    exists ws, actions :: EndsIn(ws, actions, w)
  }

  lemma StartReachable(limit: int)
    ensures Reachable(Init(limit))
  {
    assert EndsIn([Init(limit)], [], Init(limit));
  }

  lemma Take(w: World, a: Action) returns (v: World)
    requires Reachable(w) && Enabled(w, a)
    ensures v == Next(w, a) && Reachable(v)
  {
    v := Next(w, a);
    var ws, actions :| EndsIn(ws, actions, w);
    ExtendRun(ws, actions, a);
    assert EndsIn(ws + [v], actions + [a], v);
  }

  lemma ExtendRun(ws: seq<World>, actions: seq<Action>, a: Action)
    requires IsHistory(ws, actions) && Enabled(ws[|ws| - 1], a)
    ensures IsHistory(ws + [Next(ws[|ws| - 1], a)], actions + [a])
  {
    var vs, bs := ws + [Next(ws[|ws| - 1], a)], actions + [a];
    forall k | 0 <= k < |bs| ensures Enabled(vs[k], bs[k]) && vs[k + 1] == Next(vs[k], bs[k]) {
      if k < |actions| { assert bs[k] == actions[k] && vs[k] == ws[k] && vs[k + 1] == ws[k + 1]; }
    }
  }

  const INPUT := CreateInput(10.0, "EUR", None, None)
  const TIMEOUT := GatewayResult(false, None, false, Some(GatewayError("upstream_timeout", true)))
  const CHOICE := Choice(TIMEOUT, 0, 0)

  /** Handler i moves on. */
  lemma Act(w: World, i: nat, e: Effect) returns (v: World)
    requires Reachable(w) && i < |w.procs| && w.procs[i] != Gone && e == EffectOf(w, w.procs[i], CHOICE)
    ensures v == Apply(w, i, e) && Reachable(v)
  {
    v := Take(w, Advance(i, CHOICE));
  }

  lemma Ask() returns (w: World)
    ensures Reachable(w) && w == Init(1).(procs := [ApiStarted("k", INPUT)])
  {
    StartReachable(1);
    assert Trim("k") == "k";
    w := Take(Init(1), Request("k", INPUT));
  }

  lemma Admit() returns (w: World)
    ensures Reachable(w) && w == Init(1).(procs := [ApiAdmitted("k", INPUT)])
  {
    w := Ask();
    w := Act(w, 0, Move(ApiMissed("k", INPUT)));
    w := Act(w, 0, Move(ApiAdmitted("k", INPUT)));
  }

  /** One payment in this state, that many handlers, no webhook and no gateway call so far. */
  predicate Only(w: World, p: Payment, handlers: nat) {
    && w.limit == 1 && w.db.payments == [p] && |w.procs| == handlers && w.db.hooks == map[]
    && w.charges == w.crashes == multiset{}
  }

  /** The payment has been created, and nobody has worked on it. */
  lemma Create() returns (w: World)
    ensures Reachable(w) && Only(w, NewPayment(INPUT, 0), 1) && w.bus == [] && w.db.outbox == [NewRow(0, InitiatedNote)]
  {
    w := Admit();
    w := Act(w, 0, Do(CreateTx("k", INPUT, 0), ApiCreated("k")));
  }

  const INITIATION := Message(0, InitiatedNote, Some(0), false)
  const TASK := Task(0, 0, Some(0))

  /** Its initiation has been published and delivered. */
  lemma DeliverFirst() returns (w: World)
    ensures Reachable(w) && Only(w, NewPayment(INPUT, 0), 3)
    ensures w.bus == [INITIATION] && w.procs[2] == WorkerStarted(TASK)
  {
    w := Create();
    w := Take(w, Claim(0));
    w := Act(w, 1, Move(PublisherSent(0, NewRow(0, InitiatedNote))).(sent := [INITIATION]));
    w := Take(w, Deliver(0));
  }

  function Processed(retryCount: nat): Payment {
    NewPayment(INPUT, 0).(status := Processing, version := 1, retryCount := retryCount)
  }

  /** The worker has been cleared to call the gateway. */
  lemma ClearWorker() returns (w: World)
    ensures Reachable(w) && Only(w, Processed(0), 3) && w.bus == [INITIATION] && w.procs[2] == WorkerCleared(TASK)
  {
    w := DeliverFirst();
    w := Act(w, 2, Do(BeginTx(0), WorkerClaimed(TASK)));
    w := Act(w, 2, Move(WorkerCleared(TASK)));
  }

  const SETTLE := Hook("e1", 0, true, Some("GW-1"), None)
  const REFUSE := Hook("e2", 0, false, None, Some("refused"))

  /** A webhook comes in and commits with a fresh read. */
  lemma HookCommits(w: World, hook: Hook) returns (v: World)
    requires Reachable(w) && hook.eventId !in w.db.hooks && hook.paymentId < |w.db.payments|
    ensures Reachable(v)
    ensures v == w.(db := Commit(w.db, HookTx(hook, Some(w.db.payments[hook.paymentId]))), procs := w.procs + [Gone])
  {
    var n, seen := |w.procs|, Some(w.db.payments[hook.paymentId]);
    v := Take(w, HookCall(hook));
    v := Act(v, n, Move(HookSeen(hook, seen)));
    v := Act(v, n, Do(HookTx(hook, seen), Gone));
  }

  /** A SUCCESS webhook, processed, about a payment that is FAILED. */
  lemma SuccessDoesNotOverrideFailed() returns (w: World)
    ensures Reachable(w) && InStatus(w.db, 0, Failed)
    ensures SETTLE.success && SETTLE.paymentId == 0
    ensures SETTLE.eventId in w.db.hooks && w.db.hooks[SETTLE.eventId].processed
  {
    w := Create();
    w := HookCommits(w, REFUSE);
    w := HookCommits(w, SETTLE);
  }

  /** A SUCCESS webhook whose only step left changes nothing, for it read PENDING and the payment is PROCESSING. */
  lemma OvertakenWebhookChangesNothing() returns (w: World)
    ensures Reachable(w) && |w.procs| == 4 && w.procs[3] == HookSeen(SETTLE, Some(NewPayment(INPUT, 0)))
    ensures InStatus(w.db, 0, Processing) && SETTLE.eventId !in w.db.hooks
    ensures Next(w, Advance(3, CHOICE)) == w.(procs := w.procs[3 := Gone])
  {
    w := DeliverFirst();
    w := Take(w, HookCall(SETTLE));
    w := Act(w, 3, Move(HookSeen(SETTLE, Some(NewPayment(INPUT, 0)))));
    w := Act(w, 2, Do(BeginTx(0), WorkerClaimed(TASK)));
    assert EffectOf(w, w.procs[3], CHOICE) == Do(HookTx(SETTLE, Some(NewPayment(INPUT, 0))), Gone);
  }

  /** A gateway call for a payment that is decided: the webhook came between the worker's read and its call. */
  lemma DecidedPaymentIsCharged() returns (w: World)
    ensures Reachable(w) && InStatus(w.db, 0, Success) && w.charges[0] == 0
    ensures Enabled(w, Advance(2, CHOICE)) && Next(w, Advance(2, CHOICE)).charges[0] == 1
  {
    w := ClearWorker();
    w := HookCommits(w, SETTLE);
    assert EffectOf(w, w.procs[2], CHOICE) == Move(WorkerCharging(TASK)).(charged := Some(0));
  }

  /** The gateway has timed out and the worker has counted the last attempt allowed. */
  lemma FailLastAttempt() returns (w: World)
    ensures Reachable(w) && w.limit == 1 && w.db.payments == [Processed(1)] && w.db.hooks == map[]
    ensures w.bus == [INITIATION] && |w.procs| == 3 && w.procs[2] == WorkerChecked(TASK, "upstream_timeout", 1, 1)
  {
    w := ClearWorker();
    w := Act(w, 2, Move(WorkerCharging(TASK)).(charged := Some(0)));
    w := Act(w, 2, Move(WorkerAnswered(TASK, TIMEOUT)));
    w := Act(w, 2, Do(CountTx(0), WorkerCounted(TASK, "upstream_timeout", 1)));
    w := Act(w, 2, Move(WorkerChecked(TASK, "upstream_timeout", 1, 1)));
  }

  /** It gives up on a payment that a webhook has settled meanwhile. */
  lemma GiveUpOnSettled() returns (w: World)
    ensures Reachable(w) && InStatus(w.db, 0, Success) && w.bus == [INITIATION]
    ensures |w.procs| == 4 && w.procs[2] == WorkerExhausted(TASK, "upstream_timeout", 1)
  {
    w := FailLastAttempt();
    w := HookCommits(w, SETTLE);
    w := Act(w, 2, Do(ExhaustTx(0, "upstream_timeout"), WorkerExhausted(TASK, "upstream_timeout", 1)));
  }

  /** A DLQ record about a payment that is SUCCESS. */
  lemma DlqRecordOfSuccess() returns (w: World)
    ensures Reachable(w) && InStatus(w.db, 0, Success)
    ensures |w.bus| == 2 && w.bus[1] == Message(0, DlqRecord(1, "upstream_timeout"), None, false)
  {
    w := GiveUpOnSettled();
    var e := Move(WorkerDone(TASK)).(sent := [Message(0, DlqRecord(1, "upstream_timeout"), None, false)]);
    w := Act(w, 2, e);
  }
}
