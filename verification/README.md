# Payment recovery, verified

A Dafny model of a payment-recovery service, with proofs. The service opens a
case for every failed charge, decides on a schedule what to do about each case
(re-charge a mandate, send a payment link, place a call, wait, stop), listens to
payment webhooks, holds scripted phone conversations, and settles cases when
the money arrives.

`dafny verify dfyconfig.toml` checks everything.

## How it is built

Rows, settings and the answers of other services are values (`Domain`). The
policy, the printers and the graph's lookups are functions. What the service
updates in place is classes with fields that methods assign: the database
session with its case and customer objects (`Session`), the tick's counters and
the work loop (`Orchestrator`), the call conclusions (`Calls`), the webhook
handlers (`Handlers`), the envelope table and the key store (`Processor`), the
graph walker (`Walker`), the call session (`Reruns`) and the guardrail
(`Guardrail`).

Every such method is proved equal to a function of the old state. For the
database that function is `Lifecycle.Apply`, one elementary *move* on the tables:
a turn of the work loop on one case, a row opened, credited or annotated by a
webhook, a call's conclusion, a machine verdict, a link sent in mid-call. A tick is
proved to be a sequence of turns (`Orchestrator.RunOnce`) and each delivery a
sequence of moves (`Handlers`). A move whose circumstances are not met does
nothing, and no tick or handler ever makes one (`Service.EveryMoveIsLegal`), so a
statement about every sequence of moves is a statement about every interleaving of
ticks, deliveries, conclusions, verdicts and mid-call links in which each is one
atomic step (`Service.ServingIsRunning`). The main results are such statements.

| Part | Files |
|---|---|
| Values, policy, one turn | `Domain`, `Policy`, `CaseWork` |
| Which rule decides and which rung is taken | `Ladder` |
| The lifecycle as a state machine | `Lifecycle` |
| Attempt ledger, bounded workflow; who is charged, and how often | `Ledger`, `Charges` |
| Spacing and suppression per person | `Persons` |
| Debts and credits | `Money` |
| The audit trail against what happened | `Trail` |
| The whole service, step by step | `Service` |
| Several workers with row locks | `Fleet` |
| The tick, its tally, and the tally against what the tick did | `Ticks`, `Orchestrator`, `Reports` |
| The session and its row objects | `Session` |
| Webhook events, handlers, redelivery; whom an event is about | `Webhooks`, `Handlers`, `Redelivery`, `Attribution` |
| Calls, verdicts, mid-call links; what each intent does | `Calls`, `Conclusions` |
| Envelope queue; who is buried when; sweeps beside other dispatches, overlapping dispatches | `Queue`, `DeadLetters`, `Sweeping`, `Overlap` |
| Intake through the cache, the queue as a class | `Intake`, `Processor` |
| Conversation graph, walker, re-runs, cycles, the shipped flow | `Graph`, `Walker`, `Reruns`, `Cycles`, `Flow` |
| Guardrail | `Guardrail` |
| References and amounts in print and speech | `Decimals`, `References`, `Rupees`, `Spoken` |

What those functions choose is then stated a second time, from the columns and tables
before and after and without calling them: which rule of the policy decides and which
rung is taken (`Ladder`), what each intent of a call does (`Conclusions`), whom an event
credits, opens, stamps or notes (`Attribution`), which failure buries an envelope
(`DeadLetters`), and what a tick's counters count (`Reports`).

A handler's queries and fetches are an input too, required to be true of the
database at hand (`Webhooks.Truthful`). Calls, links, charges, commits, Redis commands, guardrail verdicts and handler
endings are inputs: every method takes the answer it will get, and the theorems
hold for all of them. Time is an integer number of seconds and each step carries its
own, in no particular order unless a statement says so. The zone is a fixed offset.
A failure's root cause is a column of the case, because the two columns it is
computed from never change. The priority score is an arbitrary order of the
cases, given to the claim.

## Where the code does less than its comments say

Each of these is modelled as the code has it. Where it is a condition that fails, the
exact condition is a theorem over all inputs or runs, and a witness shows that it does
fail:

- A failed mandate charge does not fall back to a payment link on the next tick
  (app/orchestrator.py:167-168, app/mandate.py:82-84): it leaves the attempt
  counter at 0, and the policy charges again exactly while the counter is 0
  (`Policy.LinkFallbackNeedsASpentAttempt`, `Charges.RefusedChargesRunOut`,
  `Charges.RefusedChargesEnd`). For the same reason its receipt is not unique per
  attempt (`References.ReferencesTellAttemptsApart`).
- Every machine verdict on the same call gives an attempt back
  (`Charges.EachVerdictRefundsAgain`), so a case can be charged again although a charge
  went through: an attempt is a charge exactly if everything delivered was refunded
  (`Charges.ChargedExactlyIfNothingIsSpent`), and a case is charged twice exactly if
  something is delivered after that (`Charges.ChargedTwiceExactlyIfRedelivered`; a run
  that ends so is `Charges.OneCaseIsChargedTwice`).
- A halt does not clear the parking column, so a case parked for the bank stays
  hidden after the bank has given up: exactly until its grace runs out
  (`CaseWork.HaltedIsHiddenUntilTheGrace`), and against the halt's purpose exactly at
  those instants at which nothing else would wait (`CaseWork.HiddenThoughActionable`;
  one such instant is in `CaseWork.HaltDoesNotUnpark`).
- RECOVERED is not final: a call's conclusion overwrites it exactly when its intent
  carries a status (`Money.ConclusionsMayUnrecover`), and the next payment is then
  credited over the first (`Money.OverwrittenRecoveryIsCreditedAgain`).
- One subscription payment is credited in full to every open case of the
  subscription (`Redelivery.ChargeCreditsEveryActiveCase`).
- A case that was never flushed waits on the bank at the instant its own wait
  names (`Policy.UnflushedCaseWaitsForever`).
- Validation accepts cycles (`Cycles.CyclesAreAccepted`), even one that no call can
  leave (`Cycles.TrapsAreAccepted`); what a call asks for is bounded exactly if there is
  none (`Cycles.BoundedExactlyIfAcyclic`).
- Two dispatches of one envelope that overlap both commit, as the row is not locked
  (`Overlap.TwoAtATimeCommitTwice`); exactly when, `Overlap.CommittedTwiceExactlyIfLate`.
- A key that outlives a failed insert turns away every redelivery of its event
  (`Intake.AStrayKeyTurnsAwayEveryRedelivery`).
- In block mode the text of a turn that is started again before it ended is lost, and so
  is that of a turn of blanks; nothing else is (`Guardrail.ConservedExactlyIfUnbroken`,
  a condition on the frames that come in).
- A negative amount may be printed with a comma behind its sign
  (`Rupees.SignIsCutOffExactlyAtOddLengths`).
- The bank's grace is checked before the backoff (app/policy.py:151-165); README.md:183-184
  lists them the other way round. `Policy.Decide` follows the code.

## Model

| member | source | states |
|---|---|---|
| Policy.ActingMeans | app/policy.py:92-184 | an intervention is only ever chosen for an active case with attempts and deliveries left, a reachable customer who is not barred, past backoff and cooldown, inside the contact window; a call only where a usable number is known |
| Policy.LocalHour | app/policy.py:275-278 | the hour the contact window is checked against is one of 24, for every instant and offset |
| Policy.ParkingIsExact | app/policy.py:140-184 | a wait that names an instant names a later one and holds at every instant before it; and its reason never fires from then on exactly unless it is the bank's wait on a case without a creation time |
| Policy.UnflushedCaseWaitsForever | app/policy.py:225-266 | without a creation time the bank wait fires at every instant |
| Policy.NextInHour | app/policy.py:275-278 | within a day of any instant there is one in any given local hour |
| Policy.NoWaitIsPermanent | app/policy.py:140-184 | but for that one wait: with an open hour in the contact window every case that is not closed is acted upon within a day of its last grace; with none, nothing ever is |
| Policy.LinkFallbackNeedsASpentAttempt | app/policy.py:187-222 | a funds case under mandate retry is charged exactly while its attempt counter is 0 |
| Ladder.FirstRuleDecides | app/policy.py:92-184 | of the eleven rules, each stated by itself on the columns it reads, the first in the order stop, wait, act that applies is the reason given, and its band is the action; a wait but for the window names its instant |
| Ladder.LocalHourIsTheClock | app/policy.py:275-278 | the hour compared with the contact window is the one on the local wall clock |
| Ladder.RungOfADecision | app/policy.py:187-222 | an expired card or revoked mandate of somebody who can be called gets a call at every attempt; any other case that is not charged gets a link at counter 0 and a call after that, if there is a number; without one nobody is called; a charge is chosen exactly for funds, under mandate retry, at counter 0 |
| Ladder.TurnsFollowDecisions | app/orchestrator.py:132-183 | what is executed is what was decided, the first audit row is that decision, and a turn waits exactly on a wait or a shared cooldown |
| Ladder.DeliveredExactlyIf | app/mandate.py:37-140 | an attempt goes through exactly if: a link is stored or made; the call is placed; details are complete, a recurring, confirmed, unexpired token covers the amount, and order and payment are accepted |
| Ladder.EveryAttemptTakesItsRung | app/policy.py:187-222 | over every run the kind of every attempt follows from the cause, the number, and whether more was delivered on the case than refunded |
| Ladder.CallsComeLater | app/policy.py:190-204 | over every run nobody is dialled about a case before a link or a charge on it went through, unless the instrument itself has to be talked about |
| CaseWork.AttemptMeans | app/orchestrator.py:124-245 | an attempt respects backoff and cooldown; it spends one contact and stamps the person exactly when delivered, else counts one failure of ours; a charge only on an unspent funds case, no call or charge to a wrong number |
| CaseWork.OtherwiseNothingMoves | app/orchestrator.py:132-162 | a turn without an attempt leaves counters, clocks and customer, and either parks or stops the case |
| CaseWork.EveryTurnKeeps | app/orchestrator.py:124-183 | whatever is decided and answered: the debt's columns, halt, promise and credit stay, a stored link is never replaced, a new one is the one Razorpay made |
| CaseWork.ParkingSkipsOnlyWaits | app/orchestrator.py:82-87 | but for that one wait: while case and customer stand still, every turn the parking column suppresses would have waited |
| CaseWork.HaltDoesNotUnpark | app/webhooks/handlers.py:311-312 | there are such instants |
| CaseWork.HaltedIsHiddenUntilTheGrace | app/webhooks/handlers.py:299-321 | for every case parked for the bank and every later halt: it is claimable exactly from the end of its grace on, and would be acted upon exactly when backoff, quiet period and contact window allow |
| CaseWork.HiddenThoughActionable | app/orchestrator.py:82-87 | so it is hidden from a tick that would act on it exactly at the instants before the end of the grace at which none of those waits |
| Lifecycle.EveryMove | app/store.py:132-198 | one move touches one case: same debt, closed stays closed, RECOVERED only by a recovery, the attempt clock only by a turn |
| Lifecycle.ClosedStaysClosed | app/policy.py:89-121 | over every run a closed case stays closed and its debt the same, and a case turns RECOVERED only by a recovery in that run |
| Lifecycle.ClosedIsNeverAttempted | app/orchestrator.py:79-91 | over every run a closed case gets no further attempt |
| Lifecycle.EveryEntry | app/store.py:201-214 | what a move logs is about the one case it touches; only a turn attempts or gives up |
| Lifecycle.RunsCompose | app/orchestrator.py:104-193 | running two sequences of moves in turn is running their concatenation |
| Ledger.AttemptsSpendBudget | app/policy.py:129-138 | (max_attempts - attempt_count) * max_delivery_failures - delivery_failures strictly falls on every attempt and stays natural |
| Ledger.BooksBalance | app/orchestrator.py:212-245 | over every run: an active case's counter is what was delivered less what was refunded, between 0 and max_attempts, and attempts plus remaining budget stay under the bound |
| Ledger.BoundedWorkflow | app/policy.py:129-138 | from the empty database a case gets at most max_delivery_failures * (max_attempts + refunds) attempts |
| Ledger.DeliveriesByKind | app/orchestrator.py:164-183 | what was delivered is calls, links and charges, and nothing else |
| Ledger.OneLinkPerCase | app/payment_links.py:166-229 | ticks, mid-call links and conclusions together make at most one payment link per case, over every run |
| Charges.ChargesComeFirst | app/policy.py:206-216 | with at most one verdict per placed call, a charge is tried only before any charge or link went through |
| Charges.OneChargePerCase | app/orchestrator.py:248-280 | under that condition at most one mandate charge succeeds per case, over every run |
| Charges.EachVerdictRefundsAgain | app/voice/amd.py:81-84 | n machine verdicts on one call give back n attempts, down to none |
| Charges.ChargedExactlyIfNothingIsSpent | app/policy.py:206-216 | on every run, what is attempted is a charge exactly if mandates are retried, the money was missing, and everything delivered on the case so far was refunded |
| Charges.ChargedTwiceExactlyIfRedelivered | app/voice/amd.py:81-84 | over every run such a case's first delivery is a charge, and a second charge is taken exactly if something is delivered after all deliveries before it were refunded |
| Charges.OneCaseIsChargedTwice | app/voice/amd.py:81-84 | a run from the empty database does take two charges on one case: a charge, a call, two machine verdicts on that call, a later turn |
| Charges.NobodyElseIsCharged | app/policy.py:206-216 | over every run no charge is ever tried on any other case |
| Charges.RefusedChargesRunOut | app/policy.py:211-216 | a funds case whose charges all fail is attempted by charges alone, at most max_delivery_failures times, and exactly that often once it is given up as undeliverable |
| Charges.RefusedChargesEnd | app/policy.py:129-138 | over every run, with n failed charges: below max_delivery_failures the next attempt is charge n + 1; at it, the next turn off cooldown gives the case up as undeliverable, or stops it for the person |
| Charges.SpentRefusalsClose | app/policy.py:132-138 | once failures reach the limit, the next turn that does not wait stops the case as undeliverable, unless the person is barred |
| Persons.GapsHold | app/policy.py:159-179 | over every run: attempts on one case are a backoff apart, and nothing is attempted on a person within a cooldown of a delivery on any of their cases |
| Persons.GapsHoldFromTheStart | app/orchestrator.py:229-245 | the same for every run from the empty database |
| Persons.ConclusionsFlag | app/voice/outcomes.py:108-132 | a refusal or dispute bars the person, a wrong number the phone, and each closes the case |
| Persons.SuppressionFollowsThePerson | app/policy.py:123-127 | once barred, no later run attempts anything on the person on any present or future case; once the number is wrong, no call or charge goes through |
| Fleet.FleetIsSafe | app/orchestrator.py:64-92 | over every interleaving of claims, work, commits and aborts of any number of workers: locks are disjoint, and committed attempts on one case are a backoff apart whatever the workers' clocks |
| Fleet.NoCaseInTwoBatches | app/orchestrator.py:79-91 | no case is in two open batches |
| Fleet.ClosedStaysClosedForTheFleet | app/orchestrator.py:81-92 | no commit of any worker reopens a case closed before |
| Fleet.OtherMovesAreElsewhere | app/webhooks/handlers.py:405-421 | what webhooks, conclusions and verdicts do to an unlocked case is what the fleet model allows to happen beside the workers |
| Money.OneDebtOneCase | app/webhooks/handlers.py:111-147 | over every run payment ids are unique across cases, and an invoice of a subscription has at most one active case |
| Money.OneCapturePerRecovery | app/store.py:184-198 | over every run without a conclusion that overwrites RECOVERED, a credit, the status RECOVERED and exactly one PAYMENT_CAPTURED row go together |
| Money.RespectfulRunsKeepCredits | app/store.py:184-198 | the same from any database in which it holds |
| Money.CreditIsWrittenOnce | app/store.py:192-198 | over every such run payment, amount and instant of a credit never change |
| Money.ConclusionsMayUnrecover | app/voice/outcomes.py:108-109 | a conclusion leaves a RECOVERED case RECOVERED exactly when its intent carries no status |
| Money.OverwrittenRecoveryIsCreditedAgain | app/store.py:192-198 | after such a conclusion the next recovery is credited over the first, with a second PAYMENT_CAPTURED row |
| Ticks.ClaimedIsTheFront | app/orchestrator.py:79-92 | the batch is the first claimable unlocked cases in score order, each once, and short only when there are no more |
| Ticks.FirstFreeAreClaimed | app/orchestrator.py:79-92 | the same told from the columns: open or under way, due, and held by no other worker |
| Ticks.EveryCaseIsCountedOnce | app/orchestrator.py:124-183 | considered = contacted + linked + charged + stopped + waiting + failed, one pending cooldown per delivery |
| Ticks.EveryTurnIsLegal | app/orchestrator.py:124-183 | every case of a batch is still claimable when its turn comes, so a tick is a run of moves |
| Reports.TicksReportWhatTheyDid | app/orchestrator.py:124-183 | for every tick: charged, linked and contacted are the delivered charges, links and calls it added to the log, failed the undelivered attempts, stopped the stop rows, needs_human those for a human, considered less waiting the decision rows, and the cooldowns announced are the persons reached, in order |
| Trail.TheTrailTellsTheTruth | app/orchestrator.py:146-183 | over every run a case has one decision row for every attempt and stop, one row for every charge tried and taken, every call tried and placed, every link made, every machine verdict, and no more |
| Trail.ConclusionIsTrue | app/voice/outcomes.py:142-176 | a conclusion adds a link row exactly when it makes a link, and no row any other law counts |
| Trail.InterventionIsTrue | app/orchestrator.py:164-183 | each intervention leaves one decision row and one outcome row that tells what happened |
| Service.EveryMoveIsLegal | app/orchestrator.py:104-193 | every move a tick or a handler makes is one the lifecycle allows at that moment |
| Service.HandlerMovesAreLegal | app/webhooks/handlers.py:81-494 | the same for each event's handler: cases it writes exist, a case it opens is a new debt |
| Service.ServingIsRunning | app/orchestrator.py:104-193 | ticks, deliveries, calls, verdicts and mid-call links in any order are one run of moves |
| Service.TheServiceKeepsItsPromises | app/policy.py:92-184 | whatever the service is given to do from the empty database: one case per payment, one active case per invoice, balanced books and bounded attempts, spaced contacts, a true trail |
| Service.OneLinkPerServedCase | app/payment_links.py:166-229 | whatever the service is given to do: at most one payment link per case |
| Service.ChargesOfServedCases | app/policy.py:206-216 | whatever the service is given to do: a case is charged twice exactly where mandates are retried, money was missing, and something is delivered after all was refunded; a case of failed charges sees nothing else |
| Service.CreditsOfServedCases | app/store.py:184-198 | over every service run that concludes no RECOVERED case with a status: credit, RECOVERED and exactly one PAYMENT_CAPTURED row go together |
| Service.CreditsOfServedCasesStay | app/store.py:192-198 | and such a run never changes a credit |
| Service.TheServiceForgetsNothing | app/voice/outcomes.py:111-132 | from any state on, who is barred and what is closed stay so and are left alone |
| Session.Tables.OneCaseMoved | app/orchestrator.py:95-101 | in-place updates of one case and its customer object change those two rows of the database and no other, although cases share the customer |
| Session.Tables.UpsertCustomer | app/store.py:24-39 | a refresh writes phone and email and leaves the flags and the contact clock |
| Session.Tables.OpenRecoveryCase | app/store.py:132-181 | a new row unless the payment has a case, and then nothing |
| Session.Tables.MarkRecovered | app/store.py:184-198 | False and nothing written exactly for a RECOVERED case, else status and credit |
| Session.Tables.LogAction | app/store.py:201-214 | the trail only grows, by one row |
| Orchestrator.UsableToken | app/mandate.py:37-68 | of the chargeable tokens the most recently used, the first of equals; none exactly if none is chargeable |
| Orchestrator.ChargeMandate | app/mandate.py:71-147 | the outcome and the audit row of a charge, for missing details, no usable token, a raised call and an accepted payment |
| Orchestrator.CreateRecoveryLink | app/payment_links.py:152-229 | an existing link is returned and logged as a resend, otherwise the new one is stored and logged, or the answer raised and nothing is written |
| Orchestrator.RetryMandate | app/orchestrator.py:248-280 | the case moves, and the counter only when the charge was accepted |
| Orchestrator.SendLink | app/orchestrator.py:283-313 | the same for a link |
| Orchestrator.Contact | app/orchestrator.py:316-344 | the same for a call |
| Orchestrator.RecordDelivery | app/orchestrator.py:212-245 | failures reset and person stamped on a delivery, counted otherwise, and the counter of the tick that Reports.TicksReportWhatTheyDid shows to be the right one |
| Orchestrator.WorkRecord | app/orchestrator.py:124-183 | one pass of the loop body on the row objects is CaseWork.Work on their values, with its audit rows and its tally |
| Orchestrator.ClaimActionableCases | app/orchestrator.py:61-92 | the claim query against the session is Ticks.Claimed of the database |
| Orchestrator.RunOnce | app/orchestrator.py:104-193 | a tick leaves the database the run of its turns leaves, and each counter it returns is the number of entries or rows of that kind it left behind |
| Calls.ApplyCallResult | app/voice/outcomes.py:48-176 | on the row objects, a conclusion is the lifecycle's Conclude move, also when the link fails, and does to every table what its intent says (Conclusions.Concludes) |
| Conclusions.IntentDecides | app/voice/outcomes.py:78-176 | for each of the seven intents, on all tables: the promise is stamped exactly for RETRY_NOW, a link made exactly for RETRY_NOW with a person, a client, no stored link and an answer that makes one; refusals close the case with their status, spend its budget and flag the person or the number; the rows of the trail, in order |
| Conclusions.QuietIntentsTouchNobody | app/voice/intents.py:43-66 | RETRY_LATER, NO_ANSWER and UNCLEAR change no case, no person and no link |
| Conclusions.UnfinishedCallsTouchNobody | app/voice/pipecat_agent.py:1144-1196 | on any validated graph, whatever the model chooses: a call that reached no end or was not heard changes no case and no person |
| Conclusions.OnlyPayNowPromises | app/voice/flow.py:102-329 | on the shipped flow a call stamps a promise exactly if it was heard and ended at pay_now |
| Conclusions.VerdictMeans | app/voice/amd.py:71-84 | a machine takes one attempt off a positive counter and unanswers the call; a person is only noted |
| Conclusions.LinkInCallMeans | app/voice/persistence.py:140-185 | a mid-call link is resent, made or refused, and moves neither counter nor clock |
| Calls.ApplyAmdResult | app/voice/amd.py:55-84 | on the row objects, a verdict is the lifecycle's JudgeMachine move; hang up exactly for a known call judged a machine |
| Calls.SendPaymentLinkNow | app/voice/persistence.py:140-185 | on the row objects, a mid-call link is the lifecycle's LinkInCall move; sent exactly if one was made or resent |
| Handlers.RecordRecovery | app/webhooks/handlers.py:415-432 | a case is credited once, with its audit row beside it |
| Handlers.HandlePaymentFailed | app/webhooks/handlers.py:81-246 | the rows, the case opened or the failure noted are those of Webhooks.Handle, for subscription charges and checkouts, and what Attribution.FailsInto says |
| Handlers.HandlePaymentCaptured | app/webhooks/handlers.py:341-369 | the same for a captured payment, which credits exactly the case of its note, or without a note every active case of the invoice's subscription |
| Handlers.HandlePaymentLinkPaid | app/webhooks/handlers.py:372-402 | the same for a paid link, which credits exactly the case of its reference, or of its note where the reference names none |
| Handlers.HandleOrderPaid | app/webhooks/handlers.py:249-269 | the same for a paid order, which credits exactly the active cases of the order |
| Handlers.HandleSubscriptionCharged | app/webhooks/handlers.py:324-338 | the same for a successful subscription charge, which credits exactly the active cases of the subscription |
| Handlers.HandleSubscriptionPending | app/webhooks/handlers.py:272-296 | the same for a pending subscription |
| Handlers.HandleSubscriptionHalted | app/webhooks/handlers.py:299-321 | the same for a halted subscription |
| Handlers.HandleSubscriptionAuthenticated | app/webhooks/handlers.py:469-494 | the same for an authenticated subscription |
| Handlers.HandlePaymentAuthorized | app/webhooks/handlers.py:436-466 | the same for an authorised payment, which opens no case |
| Redelivery.RedeliveryIsHarmless | app/webhooks/handlers.py:81-494 | for every event, database and pair of replies, the second delivery leaves the tables of the first, up to the value of halted_at and extra audit rows |
| Attribution.PaymentsCreditExactly | app/webhooks/handlers.py:249-432 | for all four payment events: exactly the cases the event names (by note, reference, subscription or order) and that are not RECOVERED get this payment, amount and instant and one PAYMENT_CAPTURED row; no other case and no other row changes |
| Attribution.FailuresBecomeCases | app/webhooks/handlers.py:81-246 | a failed payment opens a case exactly if its payment has none and, for a charge, no active case chases its invoice, or, for a checkout, the payer is known; every column of that case, and the one row noted, or the repeat failure, or nothing |
| Attribution.HaltsAreStamped | app/webhooks/handlers.py:299-321 | exactly the active cases of the subscription are stamped and noted, once each |
| Attribution.PendingIsNoted | app/webhooks/handlers.py:272-296 | exactly those are noted, once each, and none is moved |
| Attribution.TheRestTouchNoCase | app/webhooks/handlers.py:436-494 | an authorised payment and an authenticated subscription leave cases and trail alone |
| Attribution.EventsAreMirrored | app/store.py:24-93 | for every event the payment, subscription and customer rows that are written, and no others |
| Redelivery.PaidLinkCreditsItsCase | app/webhooks/handlers.py:384-395 | paying the link of a case credits that case and no other, whatever attempt, namespace and note |
| Redelivery.ChargeCreditsEveryActiveCase | app/webhooks/handlers.py:405-412 | a subscription payment is credited in full to every active case of the subscription and to no closed one |
| Queue.FrontIsTheLowest | app/webhooks/processor.py:155-163 | ORDER BY id LIMIT n: increasing, due, and shorter than n only if nothing due is left out |
| DeadLetters.DispatchesMoveOneRow | app/webhooks/processor.py:84-120 | a dispatch moves one unsettled row: settled without a handler, settled with the error cleared, or one attempt on with its trace, and buried exactly on the last attempt or a hopeless failure |
| DeadLetters.BuriedExactlyIf | app/webhooks/processor.py:115-136 | a live envelope whose handler raised is buried exactly if its attempts reach the maximum or Razorpay answered 400 to 499 other than 408 and 429 |
| DeadLetters.RetriedToTheEnd | app/webhooks/processor.py:123-171 | over every run of sweeps, an envelope that only meets other failures is live before the last try of its budget and dead after it |
| DeadLetters.HopelessTriedOnce | app/webhooks/processor.py:123-171 | and one that only meets hopeless ones is tried exactly once, whatever its budget |
| DeadLetters.EveryEventIsHandled | app/webhooks/handlers.py:497-510 | every event modelled has a handler under the name Razorpay sends |
| DeadLetters.SweepsTryTheOldest | app/webhooks/processor.py:153-171 | a sweep tries, in the order of ids and at most `limit`, envelopes neither settled nor dead and older than the cutoff, and leaves one of these out only for `limit` older ones |
| DeadLetters.RequeuesReviveTheOldest | app/webhooks/processor.py:181-205 | a requeue revives the oldest dead envelopes up to `limit` with an empty count, and touches nothing else |
| DeadLetters.ArrivalsAreStoredOnce | app/webhooks/processor.py:40-81 | an arrival is one new live row with no attempts under a free id, unless its event id is stored; then nothing |
| Queue.BoundedWaiting | app/webhooks/processor.py:139-178 | a live envelope with k live ones before it is dispatched within floor(k * max / limit) + 1 sweeps, whatever arrives, whatever else is dispatched and however handlers end |
| Sweeping.WaitingIsBoundedBesideOthers | app/webhooks/processor.py:139-178 | the same bound with each sweep split into its query and its dispatches, and deliveries, other dispatches and whole sweeps anywhere in between |
| Sweeping.SweepWithNothingBeside | app/webhooks/processor.py:153-171 | a query and its dispatches with nothing in between are one sweep |
| Queue.TheBoundIsReached | app/webhooks/processor.py:153-171 | with sweeps of one, an envelope does wait for every attempt its elders may still take |
| Queue.SweepsSpendTheBudget | app/webhooks/processor.py:208-237 | sweeps try an envelope no more often than its budget allows, and never once it is dead |
| Queue.EverythingIsSettledOnce | app/webhooks/processor.py:84-120 | over every run of dispatches one after the other, with requeues: what an envelope's handler did is committed at most once, and exactly if the row says processed |
| Overlap.CommittedTwiceExactlyIfLate | app/webhooks/processor.py:84-120 | over every interleaving of the dispatches of any number of workers: it is committed a second time exactly if somebody commits it who loaded it before it was settled |
| Overlap.OneAtATimeCommitsOnce | app/webhooks/processor.py:84-120 | if nobody loads an envelope while another is at work on it, it is committed at most once, whatever overlaps elsewhere |
| Overlap.TwoAtATimeCommitTwice | app/webhooks/processor.py:84-120 | any two workers that load an unprocessed envelope before either is done and whose handlers return both commit |
| Queue.RequeueRestoresTheBudget | app/webhooks/processor.py:181-205 | a dead envelope among the first `limit`, however many there are, has its whole budget again and is due |
| Queue.StaysValid | app/models.py:35-38 | ids below the sequence and unique event ids, over every run |
| Intake.DeliveredAlike | app/webhooks/processor.py:55-81 | one delivery through the cache does what the constraint alone does; the answers differ exactly when a known duplicate meets a failing database |
| Intake.CacheRefinesTheConstraint | app/webhooks/processor.py:48-81 | whatever the key store does, if failed commits' keys are forgotten, every run leaves the rows the constraint alone leaves, and every key stands for a row |
| Intake.EveryAnswerAgrees | app/webhooks/processor.py:48-81 | after any such run a delivery is answered as by the constraint, or Duplicate for an event that is recorded |
| Intake.LostExactlyByAStrayKey | app/webhooks/processor.py:56-60 | an event is turned away unrecorded exactly while its key is there without a row and readable |
| Intake.StrayKeysComeFromFailedForgets | app/webhooks/processor.py:74-79 | such a key appears exactly when a claimed delivery's commit and its forgetting both fail |
| Intake.AStrayKeyTurnsAwayEveryRedelivery | app/webhooks/processor.py:56-60 | any number of redeliveries is then turned away |
| Intake.ExpiryHeals | app/webhooks/processor.py:56-81 | once the key expires the next delivery is accepted and recorded |
| Processor.KeyStore.Redis | app/cache.py:35-61 | the client is built at most once and never after it was given up |
| Processor.KeyStore.Claim | app/cache.py:70-88 | refused only if the server says the key is there; without a client always granted |
| Processor.KeyStore.Forget | app/cache.py:100-108 | removes the key exactly with a client and a command that works |
| Processor.KeyStore.SeenOnly | app/cache.py:111-126 | reads a key without making one; False when in doubt |
| Processor.WebhookQueue.RecordEvent | app/webhooks/processor.py:40-81 | the cache, the insert and the release of the claim together are Intake.Deliver |
| Processor.WebhookQueue.ProcessEvent | app/webhooks/processor.py:84-120 | a dispatch is Queue.Process, which is what DeadLetters.Dispatched says: nothing for a vanished or processed envelope, settled without a handler, settled or charged by the handler's end, and buried for good exactly as BuriedExactlyIf says |
| Processor.WebhookQueue.RecordFailure | app/webhooks/processor.py:208-237 | one more attempt, and dead if it cannot be retried or the budget is spent |
| Processor.WebhookQueue.ReplayUnprocessed | app/webhooks/processor.py:139-178 | a sweep is Queue.Next of a Sweep step, and reports how many it dispatched |
| Processor.WebhookQueue.RequeueDead | app/webhooks/processor.py:181-205 | the oldest dead envelopes are alive with a full budget, the others untouched |
| Graph.Reached | app/voice/graph.py:158-166 | the worklist terminates with exactly the nodes that have a path from the start |
| Graph.ValidateNode | app/voice/graph.py:135-156 | an error exactly for an unsound node, and a true one |
| Graph.ValidateReachability | app/voice/graph.py:158-170 | an error exactly if a node is unreachable, naming all of those and no other |
| Graph.Validate | app/voice/graph.py:115-133 | a graph is accepted exactly if it is well formed, and every error names a real fault |
| Cycles.AcceptedExactlyIf | app/voice/graph.py:115-170 | the accepted graphs, told from their nodes: every node is an end with an intent and no edge, or no end, without intent and with edges to other nodes of the graph by different labels; one at least is an end; ids differ; one start, with a path to each |
| Graph.DuplicatesShrink | app/voice/graph.py:119-120 | comparing the lookup's size with the number of nodes finds duplicate ids exactly |
| Graph.DuplicateTagsShrink | app/voice/graph.py:154-156 | comparing the label set's size with the number of edges finds duplicate labels exactly |
| Walker.LogIsACompleteRecord | app/voice/walker.py:93-123 | for every validated graph and every sequence of labels: the node is in the graph at the end of a real path, an intent exists exactly at an end, and the accepted log replayed from the start rebuilds node and path |
| Walker.RefusalsOnlyLog | app/voice/walker.py:99-123 | a refusal adds one row to the log and moves nothing; after the end nothing changes at all |
| Walker.LabelsDecide | app/voice/walker.py:103-110 | a label is accepted exactly if the node has it, and leads where that one edge leads |
| Walker.GraphWalker.Transition | app/voice/walker.py:93-123 | the walker's fields move as Walker.Moved says |
| Reruns.RerunsAreBounded | app/voice/pipecat_agent.py:856-972 | with a longest path of r edges a call asks for at most r + 2 (r + 1) re-runs, whatever labels the model picks |
| Reruns.TheBoundIsReached | app/voice/pipecat_agent.py:951-972 | along every path some labels cost two refusals per node and one re-run per edge |
| Reruns.OnlyAHeardEndHasConsequences | app/voice/pipecat_agent.py:1144-1196 | a case or a person is affected only by a call that reached an end and was heard, and then as that end's intent says |
| Reruns.ResultsSayWhatWasHeard | app/voice/pipecat_agent.py:1144-1196 | for every conversation: completed if heard, else failed; the intent of the end reached if heard there, else unclear; the last node and the whole log |
| Reruns.FinishedExactlyAtAnEnd | app/voice/pipecat_agent.py:856-926 | over every sequence of labels the finished flag stands exactly at an end |
| Reruns.DunningSession.OnTransition | app/voice/pipecat_agent.py:856-926 | a tool call moves walker, refusal counter and finished flag as Reruns.Asked says, and asks for a re-run accordingly |
| Reruns.DunningSession.RejectTransition | app/voice/pipecat_agent.py:928-972 | a refusal asks again exactly for the first two in a row |
| Reruns.DunningSession.NeverAsksTooOften | app/voice/pipecat_agent.py:856-972 | the bound for every reachable session object |
| Reruns.DunningSession.Finalise | app/voice/pipecat_agent.py:1144-1196 | one result per call however often it is asked for, unclear if nothing was heard or no end reached |
| Cycles.BoundedExactlyIfAcyclic | app/voice/graph.py:158-170 | a validated graph bounds its paths exactly if it has no cycle |
| Cycles.AcyclicPathsAreShort | app/voice/graph.py:158-170 | without a cycle no path is longer than the number of nodes |
| Cycles.CyclesAreAccepted | app/voice/graph.py:115-133 | validation accepts a graph with a cycle |
| Cycles.TrapsAreAccepted | app/voice/graph.py:158-170 | it accepts a graph with a node, reachable as all nodes are, from which no end can be reached |
| Cycles.AcyclicGraphsHaveNoTraps | app/voice/graph.py:158-170 | without a cycle every node of a validated graph has a way to an end |
| Flow.DunningIsWellFormed | app/voice/flow.py:102-329 | the shipped flow passes validation |
| Flow.FourMovesAtMost | app/voice/flow.py:102-329 | a call on it takes at most four moves |
| Flow.FourteenRerunsAtMost | app/voice/flow.py:102-329 | and asks for at most fourteen re-runs |
| Flow.FourteenIsReached | app/voice/flow.py:102-329 | which some choice of labels does ask for |
| Guardrail.Transparent | app/voice/guardrails/processor.py:65-88 | outside block mode every stream comes out as it went in |
| Guardrail.HeldUntilVetted | app/voice/guardrails/processor.py:72-82 | until a turn ends none of its text is let through and all of it is kept |
| Guardrail.EveryTurnIsIntact | app/voice/guardrails/processor.py:65-144 | in block mode every bracketed stream comes out turn by turn: the turn's text in order, or one vetted replacement, or none for a blank turn, on pass, timeout and exception alike |
| Guardrail.WhatATurnSays | app/voice/guardrails/processor.py:90-144 | a turn says nothing if all its characters are spaces, the replacement alone if it was found to violate, and else its texts in order |
| Guardrail.ConservedExactlyIfUnbroken | app/voice/guardrails/processor.py:72-98 | for streams of any shape, never violated: text is conserved in order exactly if no downstream start meets an open turn with text and no end a turn all of blanks; otherwise there is less of it |
| Guardrail.ARestartedTurnIsLost | app/voice/guardrails/processor.py:72-76 | a second start drops everything held |
| Guardrail.GuardrailProcessor.ProcessFrame | app/voice/guardrails/processor.py:65-88 | the processor's fields and output move as Guardrail.Step says |
| Guardrail.GuardrailProcessor.FinishTurn | app/voice/guardrails/processor.py:90-132 | what a turn's end pushes, for every verdict |
| Guardrail.GuardrailProcessor.Release | app/voice/guardrails/processor.py:134-144 | held frames in order, then the end |
| References.CaseIdReadsBack | app/payment_links.py:45-90 | the case id parses back from its reference, for any attempt and namespace, exactly if it is natural and has at most 31 digits |
| References.OldReferencesReadBack | app/payment_links.py:81-83 | references without an attempt still name their case |
| References.ReferencesTellAttemptsApart | app/payment_links.py:48-58 | uncut references are equal exactly for the same case at the same attempt counter |
| Decimals.DigitsFit | app/payment_links.py:75 | a number prints in at most k digits exactly if it is below 10^k |
| Rupees.PrintedReadsBack | app/metrics.py:40-53 | every amount, negative ones too, taken as an exact integer of paise, reads back exactly from its printed form |
| Rupees.DoublesKeepThePaise | app/metrics.py:42-43 | below 2^52 paise either way, the floating-point quotient that is printed has exactly the paise as its hundredths |
| Rupees.GroupedThreeThenTwo | app/metrics.py:44-52 | commas stand at 3, 6, 9, ... from the right and nowhere else, whatever the length |
| Rupees.SignIsCutOffExactlyAtOddLengths | app/metrics.py:44-52 | the sign of a negative amount is set apart by a comma exactly if the rupees have an odd number of digits, three or more |
| Rupees.Rupees | app/metrics.py:40-53 | the grouping loop prints that text, and None prints as zero |
| Spoken.SaidIsUnderstood | app/voice/spoken.py:57-83 | for every amount and language, what is said denotes the amount in whole rupees rounded up |
| Spoken.UnitSaid | app/voice/spoken.py:52-83 | crores or lakhs are said exactly for so much with one decimal place at most, thousands exactly for whole ones below, the bare numeral otherwise |
| Spoken.TrimIsRead | app/voice/spoken.py:45-49 | a magnitude is said with one decimal place at most and denotes exactly its tenths |

## Left out

- HTTP, Razorpay, Twilio, Pub/Sub, LiveKit, Pipecat and NeMo clients: only their success, refusal or exception is an input.
- Signature and OIDC checks, prompts, text normalisers and guardrail checks: library calls or heuristics without a crisp specification.
- Scoring by logarithms and the SQL of the claim order: the order is an arbitrary input, and nothing is claimed about starvation in it.
- The diagnosis table, priority tiers, spoken reasons and routes: finite tables.
- The aggregate metrics: database arithmetic on the columns proved about here.
- Row-level races between webhooks, call results and verdicts: each is one atomic step; only the workers' claims are interleaved.
- Persons.GapsHold: spacing per person is for serialised ticks, because customer rows are not locked; spacing per case holds for the fleet (Fleet.FleetIsSafe).
- Fleet.FleetIsSafe: speaks of committed batches, because a tick whose commit fails takes its contacts back from the record although they were made.
- Queue.BoundedWaiting: takes a sweep as one step, which Sweeping does not; requeues are excluded from both, as they hand budgets back.
- Queue.EverythingIsSettledOnce: is for dispatches one after the other; overlapping ones may commit twice (Overlap.TwoAtATimeCommitTwice), and a handler's writes on the cases are one atomic step in either model.
- Policy.LocalHour: says no more of the hour than its range, as the zone is a fixed offset.
- DeadLetters.RetriedToTheEnd: counts what sweeps do; a dispatch by the background task or by hand, which also takes a dead envelope, and a requeue are left out of it as of Queue.SweepsSpendTheBudget.
- A handler that raises: its session is rolled back, so the tables stay as they were; the failure is the envelope's (Queue.After).
- Customer deletion, and columns that are only mirrored (names, methods, error texts, plan, status): carried as one opaque column or not at all.
- The oldest of several cases chasing one invoice: the query's answer is any of them, as at most one exists for an invoice of a subscription.
- `int()` of a reference or a note with surrounding blanks, underscores or non-ASCII digits: References.ParseInt reads an optional plus sign and ASCII digits.
- Rupees.PrintedReadsBack: for an amount of 2^52 paise or more the double that is printed may differ; below, it does not (Rupees.DoublesKeepThePaise). Decimal rounding beyond 28 digits is not modelled either.
- Template variables, prompts and spoken handoffs of the graph: Walker begins with a complete context.
- Daylight saving and leap seconds: the zone is a fixed offset.
- The list of media a link was resent over, and call details such as transcript and duration: evidence, never read back.
