/** The running system: tables, an at-least-once bus, the idempotency cache, and any number of
    handlers, each with a program counter.

    One action is one database transaction, one read, one publish or one reply. Actions of all
    handlers interleave freely; a handler may crash between any two of its actions, and a message
    stays deliverable (any number of times, also concurrently) until a handler acknowledges it.
    The Redis lock is not consulted: nothing below relies on it. */
module Protocol {
  import opened Domain
  import opened Tables

  /** `origin` is a history variable: the outbox row the message descends from, if any. */
  datatype Message = Message(paymentId: PaymentId, payload: Payload, origin: Option<nat>, acked: bool)

  /** A delivery in progress. */
  datatype Task = Task(msg: nat, paymentId: PaymentId, origin: Option<nat>)

  datatype Proc =
    | Gone
    // payment worker
    | WorkerStarted(task: Task)
    | WorkerClaimed(task: Task)
    | WorkerCleared(task: Task)
    | WorkerCharging(task: Task)
    | WorkerAnswered(task: Task, result: GatewayResult)
    | WorkerCounted(task: Task, reason: string, ticket: nat)
    | WorkerChecked(task: Task, reason: string, ticket: nat, attempt: nat)
    | WorkerExhausted(task: Task, reason: string, attempt: nat)
    | WorkerDone(task: Task)
    // retry relay
    | RelayStarted(task: Task, record: Option<nat>)
    | RelaySent(task: Task, record: Option<nat>)
    | RelayDone(task: Task)
    // outbox publisher, one row of a claimed batch
    | PublisherClaimed(row: nat, copy: OutboxRow)
    | PublisherSent(row: nat, copy: OutboxRow)
    // webhook
    | HookOpen(hook: Hook)
    | HookSeen(hook: Hook, seen: Option<Payment>)
    // POST /payments
    | ApiStarted(key: string, input: CreateInput)
    | ApiMissed(key: string, input: CreateInput)
    | ApiAdmitted(key: string, input: CreateInput)
    | ApiCreated(key: string)
    | ApiBuilt(key: string, body: Body)
    | ApiReady(key: string, body: Body)

  /** A 201 reply sent for a normalized key. */
  datatype Reply = Reply(key: string, body: Body)

  /** `limit` is MAX_RETRY_ATTEMPTS. `charges` and `crashes` are history variables: gateway calls per
      payment, and handlers lost between their gateway call and the commit that follows it. */
  datatype World = World(
    limit: int, db: Db, bus: seq<Message>, procs: seq<Proc>, cache: map<string, Body>, replies: seq<Reply>,
    charges: multiset<PaymentId>, crashes: multiset<PaymentId>)

  function Init(limit: int): World {
    World(limit, EmptyDb(), [], [], map[], [], multiset{}, multiset{})
  }

  /** What the environment decides when a handler moves on. */
  datatype Choice = Choice(result: GatewayResult, now: Instant, executeAt: Instant)

  /** Everything one handler action does. */
  datatype Effect = Effect(
    tx: Tx, next: Proc, sent: seq<Message>, acked: Option<nat>, cached: Option<Reply>, replied: Option<Reply>,
    charged: Option<PaymentId>)

  function Move(next: Proc): Effect {
    Effect(NoTx, next, [], None, None, None, None)
  }

  function Do(tx: Tx, next: Proc): Effect {
    Move(next).(tx := tx)
  }

  function Ack(task: Task): Effect {
    Move(Gone).(acked := Some(task.msg))
  }

  function RetryCountOf(db: Db, id: PaymentId): nat {
    if id < |db.payments| then db.payments[id].retryCount else 0
  }

  /** From the status read that clears the way for a gateway call to the commit that settles or reschedules. */
  predicate InGatewaySection(p: Proc) {
    p.WorkerCleared? || HasCharged(p)
  }

  /** The part of it after the call has been made. */
  predicate HasCharged(p: Proc) {
    p.WorkerCharging? || p.WorkerAnswered? || p.WorkerCounted? || p.WorkerChecked?
  }

  function WorkerEffect(w: World, p: Proc, c: Choice): Effect
    requires InGatewaySection(p) || p.WorkerStarted? || p.WorkerClaimed? || p.WorkerExhausted? || p.WorkerDone?
  {
    var id := p.task.paymentId;
    match p
    case WorkerStarted(task) => Do(BeginTx(id), WorkerClaimed(task))
    case WorkerClaimed(task) =>
      Move(if InStatus(w.db, id, Processing) then WorkerCleared(task) else WorkerDone(task))
    case WorkerCleared(task) => Move(WorkerCharging(task)).(charged := Some(id))
    case WorkerCharging(task) => Move(WorkerAnswered(task, c.result))
    case WorkerAnswered(task, result) =>
      if result.success then Do(SettleTx(id, result.txnId, result.duplicateWebhook), WorkerDone(task))
      else if !result.Transient() then Do(DeclineTx(id, result.Reason()), WorkerDone(task))
      else Do(CountTx(id), WorkerCounted(task, result.Reason(), RetryCountOf(w.db, id) + 1))
    case WorkerCounted(task, reason, ticket) =>
      Move(WorkerChecked(task, reason, ticket, RetryCountOf(w.db, id)))
    case WorkerChecked(task, reason, ticket, attempt) =>
      if attempt >= w.limit then Do(ExhaustTx(id, reason), WorkerExhausted(task, reason, attempt))
      else Do(RetryTx(id, attempt, reason, c.executeAt, ticket), WorkerDone(task))
    case WorkerExhausted(task, reason, attempt) =>
      Move(WorkerDone(task)).(sent := [Message(id, DlqRecord(attempt, reason), None, false)])
    case WorkerDone(task) => Ack(task)
  }

  function RelayEffect(p: Proc): Effect
    requires p.RelayStarted? || p.RelaySent? || p.RelayDone?
  {
    match p
    case RelayStarted(task, record) =>
      Move(RelaySent(task, record)).(sent := [Message(task.paymentId, InitiatedNote, task.origin, false)])
    case RelaySent(task, record) =>
      if record.Some? then Do(RelayedTx(record.value), RelayDone(task)) else Move(RelayDone(task))
    case RelayDone(task) => Ack(task)
  }

  function PublisherEffect(p: Proc): Effect
    requires p.PublisherClaimed? || p.PublisherSent?
  {
    match p
    case PublisherClaimed(row, copy) =>
      Move(PublisherSent(row, copy)).(sent := [Message(copy.aggregateId, copy.payload, Some(row), false)])
    case PublisherSent(row, _) => Do(PublishedTx(row), Gone)
  }

  function HookEffect(w: World, p: Proc): Effect
    requires p.HookOpen? || p.HookSeen?
  {
    match p
    case HookOpen(hook) =>
      Move(HookSeen(hook, if hook.paymentId < |w.db.payments| then Some(w.db.payments[hook.paymentId]) else None))
    case HookSeen(hook, seen) => Do(HookTx(hook, seen), Gone)
  }

  function ApiEffect(w: World, p: Proc, c: Choice): Effect
    requires p.ApiStarted? || p.ApiMissed? || p.ApiAdmitted? || p.ApiCreated? || p.ApiBuilt? || p.ApiReady?
  {
    match p
    case ApiStarted(key, input) =>
      if key in w.cache then Move(Gone).(replied := Some(Reply(key, w.cache[key]))) else Move(ApiMissed(key, input))
    case ApiMissed(key, input) =>
      if key in w.db.idem then Move(ApiBuilt(key, w.db.idem[key].body)) else Move(ApiAdmitted(key, input))
    case ApiAdmitted(key, input) =>
      // an amount that is not positive is a 422, a taken key a constraint error: no 201 either way
      if input.amount <= 0.0 || key in w.db.idem then Move(Gone)
      else Do(CreateTx(key, input, c.now), ApiCreated(key))
    case ApiCreated(key) =>
      if key in w.db.idem && w.db.idem[key].paymentId < |w.db.payments|
      then Move(ApiBuilt(key, ResponseOf(w.db.idem[key].paymentId, w.db.payments[w.db.idem[key].paymentId])))
      else Move(Gone)
    case ApiBuilt(key, body) => Move(ApiReady(key, body)).(cached := Some(Reply(key, body)))
    case ApiReady(key, body) => Move(Gone).(replied := Some(Reply(key, body)))
  }

  function EffectOf(w: World, p: Proc, c: Choice): Effect {
    if p.Gone? then Move(Gone)
    else if p.PublisherClaimed? || p.PublisherSent? then PublisherEffect(p)
    else if p.RelayStarted? || p.RelaySent? || p.RelayDone? then RelayEffect(p)
    else if p.HookOpen? || p.HookSeen? then HookEffect(w, p)
    else if p.ApiStarted? || p.ApiMissed? || p.ApiAdmitted? || p.ApiCreated? || p.ApiBuilt? || p.ApiReady?
    then ApiEffect(w, p, c)
    else WorkerEffect(w, p, c)
  }

  function Acked(bus: seq<Message>, msg: Option<nat>): seq<Message> {
    if msg.Some? && msg.value < |bus| then bus[msg.value := bus[msg.value].(acked := true)] else bus
  }

  function Apply(w: World, i: nat, e: Effect): World
    requires i < |w.procs|
  {
    w.(db := Commit(w.db, e.tx),
       bus := Acked(w.bus, e.acked) + e.sent,
       procs := w.procs[i := e.next],
       cache := if e.cached.Some? then w.cache[e.cached.value.key := e.cached.value.body] else w.cache,
       replies := if e.replied.Some? then w.replies + [e.replied.value] else w.replies,
       charges := if e.charged.Some? then w.charges + multiset{e.charged.value} else w.charges)
  }

  datatype Action =
    | Advance(proc: nat, choice: Choice)
    | Crash(proc: nat)
    | PublishFails(proc: nat, error: string)
    | Claim(row: nat)
    | Deliver(msg: nat)
    | Request(header: string, input: CreateInput)
    | HookCall(hook: Hook)
    | ManualReplay(paymentId: PaymentId)
    | Evict(key: string)

  predicate Deliverable(p: Payload) {
    p.InitiatedNote? || p.RetryOrder? || p.ReplayOrder?
  }

  /** The handler a delivered message starts. */
  function Handler(bus: seq<Message>, msg: nat): Proc
    requires msg < |bus| && Deliverable(bus[msg].payload)
  {
    var m := bus[msg];
    var task := Task(msg, m.paymentId, m.origin);
    match m.payload
    case InitiatedNote => WorkerStarted(task)
    case RetryOrder(_, _, _, record) => RelayStarted(task, Some(record))
    case _ => RelayStarted(task, None)
  }

  /** The payment worker consumes one topic and the retry relay two; each payload goes to its own topic, and to the
      handler that consumes it. */
  lemma HandlersByTopic(bus: seq<Message>, msg: nat)
    requires msg < |bus|
    ensures var p := bus[msg].payload;
            && (Deliverable(p) <==> TopicOf(p) in {PaymentInitiated, PaymentRetry, PaymentRetryReplay})
            && (Deliverable(p) ==> (Handler(bus, msg).WorkerStarted? <==> TopicOf(p) == PaymentInitiated))
            && (Deliverable(p) ==>
                  (Handler(bus, msg).RelayStarted? <==> TopicOf(p) in {PaymentRetry, PaymentRetryReplay}))
            && (p.RetryOrder? <==> TopicOf(p) == PaymentRetry) && (p.DlqRecord? <==> TopicOf(p) == PaymentDlq)
            && (p.Audit? <==> TopicOf(p) == PaymentAudit) && (p.Notification? <==> TopicOf(p) == PaymentNotification)
    ensures Deliverable(bus[msg].payload) ==>
              Handler(bus, msg).task == Task(msg, bus[msg].paymentId, bus[msg].origin)
  {
  }

  predicate Enabled(w: World, a: Action) {
    match a
    case Advance(i, _) => i < |w.procs| && w.procs[i] != Gone
    case Crash(i) => i < |w.procs| && w.procs[i] != Gone
    case PublishFails(i, _) => i < |w.procs| && (w.procs[i].PublisherClaimed? || w.procs[i].PublisherSent?)
    case Claim(row) => row < |w.db.outbox| && !w.db.outbox[row].published
    case Deliver(m) => m < |w.bus| && !w.bus[m].acked && Deliverable(w.bus[m].payload)
    case Request(header, _) => Trim(header) != ""
    case HookCall(hook) => hook.eventId !in w.db.hooks
    case ManualReplay(_) => true
    case Evict(key) => key in w.cache
  }

  function Next(w: World, a: Action): World
    requires Enabled(w, a)
  {
    match a
    case Advance(i, c) => Apply(w, i, EffectOf(w, w.procs[i], c))
    case Crash(i) =>
      w.(procs := w.procs[i := Gone],
         crashes := if HasCharged(w.procs[i]) then w.crashes + multiset{w.procs[i].task.paymentId} else w.crashes)
    case PublishFails(i, error) => w.(db := Commit(w.db, FailureTx(w.procs[i].row, error)), procs := w.procs[i := Gone])
    case Claim(row) => w.(procs := w.procs + [PublisherClaimed(row, w.db.outbox[row])])
    case Deliver(m) => w.(procs := w.procs + [Handler(w.bus, m)])
    case Request(header, input) => w.(procs := w.procs + [ApiStarted(Trim(header), input)])
    case HookCall(hook) => w.(procs := w.procs + [HookOpen(hook)])
    case ManualReplay(id) => w.(bus := w.bus + [Message(id, ReplayOrder, None, false)])
    case Evict(key) => w.(cache := w.cache - {key})
  }

  /** The transaction an action commits. */
  function TxOf(w: World, a: Action): Tx
    requires Enabled(w, a)
  {
    match a
    case Advance(i, c) => EffectOf(w, w.procs[i], c).tx
    case PublishFails(i, error) => FailureTx(w.procs[i].row, error)
    case _ => NoTx
  }

  lemma NextCommits(w: World, a: Action)
    requires Enabled(w, a)
    ensures Next(w, a).db == Commit(w.db, TxOf(w, a))
  {
  }

  /** White space and line terminators, as `trim` sees them. */
  predicate IsBlank(c: char) {
    var n := c as int;
    9 <= n <= 13 || n == 32 || n == 0xA0 || n == 0x1680 || 0x2000 <= n <= 0x200A
    || n == 0x2028 || n == 0x2029 || n == 0x202F || n == 0x205F || n == 0x3000 || n == 0xFEFF
  }

  function Trim(s: string): string {
    if s == "" then ""
    else if IsBlank(s[0]) then Trim(s[1..])
    else if IsBlank(s[|s| - 1]) then Trim(s[..|s| - 1])
    else s
  }

  /** A run: every action enabled where it is taken. */
  ghost predicate IsRun(ws: seq<World>, actions: seq<Action>) {
    && |ws| == |actions| + 1
    && forall k | 0 <= k < |actions| :: Enabled(ws[k], actions[k]) && ws[k + 1] == Next(ws[k], actions[k])
  }

  /** A run of the whole system from its empty start. */
  ghost predicate IsHistory(ws: seq<World>, actions: seq<Action>) {
    IsRun(ws, actions) && ws[0] == Init(ws[0].limit)
  }
}
