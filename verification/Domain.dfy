/** The rows the recovery service keeps, the settings it reads and the answers
    it gets from the outside world.

    Conventions used by the whole project:
    - a textual id or contact field that the database may hold as NULL is a
      `string`, with "" standing for NULL (the code only asks such a field
      whether it is truthy, or compares it with a truthy value);
    - an instant is an `int`, in seconds; a nullable instant is an `Option<int>`;
    - amounts are in paise. */
module Domain {

  datatype Option<+T> = None | Some(value: T)

  function Max(a: int, b: int): int { if a < b then b else a }

  function Min(a: int, b: int): int { if a < b then a else b }

  predicate Distinct(ids: seq<nat>) { forall a, b | 0 <= a < b < |ids| :: ids[a] != ids[b] }

  const HOUR: int := 3600
  const DAY: int := 24 * HOUR

  // ---------------------------------------------------------------- settings

  datatype Settings = Settings(
    minRecoverableAmount: int,
    retryBackoffHours: nat,
    customerCooldownHours: nat,
    bankGraceHours: nat,
    windowStartHour: int,
    windowEndHour: int,
    zoneOffset: int,               // local time minus UTC, in seconds
    maxDeliveryFailures: nat,
    mandateRetryEnabled: bool,
    promiseWindowHours: nat,
    checkoutGraceMinutes: nat
  )

  // ------------------------------------------------------------ cases, people

  datatype Status = Open | InProgress | Recovered | Declined | Stopped {
    predicate Active() { Open? || InProgress? }
    predicate Closed() { Recovered? || Declined? || Stopped? }
  }

  /** `app.diagnosis.RootCause`. The two failure fields it is computed from
      never change after a case is opened, so a case row carries the cause. */
  datatype Cause =
    | CustomerFunds
    | CustomerInstrument
    | CustomerAction
    | BankDecline
    | Transient
    | Configuration
    | Unknown
  {
    predicate NeedsAConversation() { CustomerInstrument? }
    predicate DefersToTheBank() { Transient? || BankDecline? }
  }

  datatype Source = Razorpay | Checkout

  datatype Link = Link(id: string, url: string)

  datatype Credit = Credit(paymentId: string, amount: int, at: int)

  datatype Promise = Promise(at: int, due: int)

  datatype Case = Case(
    // set when the case is opened
    paymentId: string,
    invoiceId: string,
    subscriptionId: string,
    customerId: string,
    orderId: string,
    amount: int,
    cause: Cause,
    source: Source,
    createdAt: Option<int>,        // None only for a case not yet flushed
    maxAttempts: nat,
    // moved by the lifecycle
    status: Status,
    attemptCount: int,
    deliveryFailures: int,
    lastAttemptAt: Option<int>,
    nextEligibleAt: Option<int>,
    haltedAt: Option<int>,
    link: Option<Link>,
    promise: Option<Promise>,
    credit: Option<Credit>
  ) {
    /** Truthiness of `payment_link_id and payment_link_url`. */
    predicate HasLink() { link.Some? && link.value.id != "" && link.value.url != "" }
  }

  datatype Customer = Customer(
    phone: string,
    email: string,
    doNotContact: bool,
    phoneIsWrong: bool,
    lastContactedAt: Option<int>
  )

  // ------------------------------------------------------------ policy output

  datatype Action = RetryMandate | SendLink | PlaceCall | Wait | Stop

  datatype Reason =
    | AlreadyClosed
    | DoNotContact
    | MaxAttemptsReached
    | Undeliverable
    | BelowMinAmount
    | NeedsHuman
    | NoContactDetails
    | AwaitingBankRetry
    | WithinBackoff
    | CustomerRecentlyContacted
    | OutsideContactWindow
    | Eligible

  datatype Decision = Decision(action: Action, reason: Reason, cause: Cause, retryAfter: Option<int>)

  // ---------------------------------------------------------- call conclusions

  datatype Intent = RetryNow | RetryLater | IntentDeclined | WrongNumber | Dispute | NoAnswer | Unclear

  datatype CallStatus = Initiated | Answered | Completed | CallNoAnswer | CallFailed

  datatype Call = Call(caseId: nat, status: CallStatus, intent: Option<Intent>)

  // -------------------------------------------------------------- audit trail

  datatype ChargeOutcome = Charged | MissingDetails | NoChargeableMandate | ChargeRaised

  datatype Note =
    | PolicyDecision(decision: Decision)
    | StoppedByPolicy(reason: Reason)
    | StoppedByCall(intent: Intent)
    | MandateRetried(outcome: ChargeOutcome)
    | LinkCreated
    | LinkResent
    | LinkRaised
    | CallPlaced
    | CallRaised
    | CallConcluded(intent: Intent)
    | MachineVerdict(machine: bool)
    | PromiseMade(due: int)
    | CaseOpened
    | CheckoutAbandoned
    | RepeatFailure(paymentId: string)
    | SubscriptionPending
    | SubscriptionHalted
    | PaymentCaptured(paymentId: string, amount: int)

  datatype AuditRow = AuditRow(caseId: nat, note: Note)

  // ---------------------------------------------- answers from other services

  /** A saved instrument, as Razorpay lists it. A Cards token carries a
      confirmation status; e-mandates often carry none. */
  datatype Token = Token(
    id: string,
    recurring: bool,
    status: Option<string>,
    expiredAt: Option<int>,
    maxAmount: Option<int>,
    usedAt: int
  )

  datatype LinkAnswer = LinkMade(link: Link) | LinkRefused

  /** Fetching tokens may raise (None), as may creating the order and the payment. */
  datatype ChargeAnswer = ChargeAnswer(tokens: Option<seq<Token>>, orderAccepted: bool, paymentAccepted: bool)

  /** Everything the outside world answers while one case is worked. */
  datatype Answers = Answers(
    onSharedCooldown: bool,        // `cache.seen_only` on the customer's key
    link: LinkAnswer,
    charge: ChargeAnswer,
    callPlaced: bool               // False: the channel raised
  )
}
