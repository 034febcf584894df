/** Statuses, topics, payloads and journal events of the payment gateway.

    Identifiers are numbers: a row's id is its position in its table, so a fresh uuid is the next
    number. Reasons, references and keys are strings; times are milliseconds. */
module Domain {

  datatype Option<+T> = None | Some(value: T)

  type PaymentId = nat
  type Instant = nat

  /** The first value if there is one (`??`). */
  function OrElse<T>(first: Option<T>, second: Option<T>): Option<T> {
    if first.Some? then first else second
  }

  datatype Status = Pending | Processing | Success | Failed

  predicate IsTerminal(s: Status) {
    s.Success? || s.Failed?
  }

  function Precedence(s: Status): nat {
    match s
    case Success => 4
    case Failed => 3
    case Processing => 2
    case Pending => 1
  }

  predicate ShouldApply(current: Status, incoming: Status) {
    Precedence(incoming) >= Precedence(current)
  }

  datatype TransitionError = InvalidStateTransition | AlreadyTerminal | InvalidWebhookBase | InvalidWebhookTarget

  /** The transition table of the state machine. */
  function Transitions(from: Status): set<Status> {
    match from
    case Pending => {Processing}
    case Processing => {Success, Failed}
    case Success => {}
    case Failed => {}
  }

  function AssertTransition(from: Status, to: Status): Option<TransitionError> {
    if from == to then None
    else if to in Transitions(from) then None
    else Some(InvalidStateTransition)
  }

  function AssertWebhookTerminal(from: Status, to: Status): Option<TransitionError> {
    if IsTerminal(from) then Some(AlreadyTerminal)
    else if from != Pending && from != Processing then Some(InvalidWebhookBase)
    else if to != Success && to != Failed then Some(InvalidWebhookTarget)
    else None
  }

  /** The two roads to a terminal status. */
  datatype Route = Worker | Webhook

  datatype Topic =
    | PaymentInitiated | PaymentProcessing | PaymentSuccess | PaymentFailed
    | PaymentRetry | PaymentDlq | PaymentAudit | PaymentNotification | PaymentRetryReplay

  /** What an outbox row or a bus message carries, beside the payment it is about. */
  datatype Payload =
    | InitiatedNote
    | ProcessingNote
    | SuccessNote(source: Route, duplicateWebhook: bool)
    | FailedNote(failedBy: Route, reason: Option<string>)
    | Notification
    | Audit(externalId: Option<string>)
    | RetryOrder(retryCount: nat, cause: string, executeAt: Instant, record: nat)
    | DlqRecord(attempts: nat, failureReason: string)
    | ReplayOrder

  function TopicOf(p: Payload): Topic {
    match p
    case InitiatedNote => PaymentInitiated
    case ProcessingNote => PaymentProcessing
    case SuccessNote(_, _) => PaymentSuccess
    case FailedNote(_, _) => PaymentFailed
    case Notification => PaymentNotification
    case Audit(_) => PaymentAudit
    case RetryOrder(_, _, _, _) => PaymentRetry
    case DlqRecord(_, _) => PaymentDlq
    case ReplayOrder => PaymentRetryReplay
  }

  /** The journal: one constructor per row shape of `payment_events`. `cause` and `failure` are history
      variables: the row leaves the reason to the payment's own failure reason and to the stored webhook. */
  datatype Event =
    | Initiated
    | ProcessingStarted
    | Settled(gatewayRef: Option<string>, duplicate: bool)
    | Exhausted(cause: string)
    | Declined(reason: string)
    | HookSucceeded(eventId: string, hookRef: Option<string>)
    | HookFailed(eventId: string, hookRef: Option<string>, failure: Option<string>)

  datatype GatewayError = GatewayError(message: string, transient: bool)

  /** The verdict shape returned by a charge. */
  datatype GatewayResult =
    GatewayResult(success: bool, txnId: Option<string>, duplicateWebhook: bool, error: Option<GatewayError>)
  {
    function Reason(): string {
      if error.Some? then error.value.message else "gateway_error"
    }
    predicate Transient() {
      if error.Some? then error.value.transient else true
    }
  }

  datatype CreateInput =
    CreateInput(amount: real, currency: string, metadata: Option<string>, correlationId: Option<string>)

  /** A parsed webhook call; its target is SUCCESS or FAILED. */
  datatype Hook =
    Hook(eventId: string, paymentId: PaymentId, success: bool, gatewayRef: Option<string>, reason: Option<string>)
  {
    function Target(): Status {
      if success then Success else Failed
    }
  }

  /** With a terminal target the precedence test never decides alone: the webhook is applied exactly
      when the payment is not yet terminal, so a later SUCCESS does not override FAILED. */
  lemma GuardChainIsTerminalTest(current: Status, hook: Hook)
    ensures (ShouldApply(current, hook.Target()) && !IsTerminal(current)) <==> !IsTerminal(current)
    ensures !IsTerminal(current) <==> AssertWebhookTerminal(current, hook.Target()).None?
    ensures ShouldApply(Failed, Success) && AssertWebhookTerminal(Failed, Success) == Some(AlreadyTerminal)
  {
  }

  /** The moves the state machine allows: to stay, PENDING to PROCESSING, PROCESSING to either decision; for a webhook,
      from an undecided status to either decision. Precedence ranks a status as high as itself and strictly orders
      SUCCESS, FAILED, PROCESSING, PENDING. */
  lemma MoveTables(from: Status, to: Status)
    ensures AssertTransition(from, to).None? <==>
              || from == to || (from == Pending && to == Processing)
              || (from == Processing && (to == Success || to == Failed))
    ensures AssertWebhookTerminal(from, to).None? <==>
              (from == Pending || from == Processing) && (to == Success || to == Failed)
    ensures AssertWebhookTerminal(from, to) == Some(AlreadyTerminal) <==> from == Success || from == Failed
    ensures ShouldApply(from, to) <==>
              from == to || from == Pending || to == Success || (from == Processing && to == Failed)
  {
  }
}
