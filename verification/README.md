# A verified model of the payment service

A Dafny model of the asynchronous core of a payment service written in Go: handlers that consume RabbitMQ queues
and write a payments table, retried publishers, the synchronous service that talks to Stripe and PayPal, refunds,
notifications, and refresh tokens. The properties are about what survives when anything can fail: reads, writes
that take effect although an error comes back, publications that arrive twice, consumers that crash, messages that
expire.

`dafny verify dfyconfig.toml` checks everything.

## How it is put together

- `Errors`, `Retry`: the retry strategy and the retry loop. An operation is a function from the world it finds to the
  world it leaves and the error it reports; the loop is generic in that world. The loop is specified twice, as a
  recursion and declaratively ("the run ends at the first attempt that ends it"), and the three are proved equal.
- `Models`, `Broker`: the payments table as rows with a primary key and a unique index on the order, and the queues with the
  client's publishing and consuming. A queue records every copy that reached it, so conservation can be stated.
- `AsyncService`: the two handlers and two publishers as methods over the database and the queues. Their effects are
  small functions, shared with the protocol.
- `PaymentService`: the synchronous service as an object with its tables and its providers' ledgers.
- `Pipeline`, `ServiceCalls`: the same handlers, the payment service's methods and the retried publications taken apart into one
  database, provider or broker operation per step, for any number of consumers and calls, with crashes and expiry. What
  the providers said is kept as a history. `PipelineSafety` proves that every step keeps the invariant; `PipelineTheorems`
  says what follows in every reachable state; `PipelineRefinement` and `ServiceRefinement` prove that each sequential
  handler, method and publication is one of the protocol's runs.
- `StatusSync`: the dual write of statuses, to the row by the service and through the status queue to the same row.
- `RefundTheorems`: the provider's and the service's books of refunds, over the same runs.
- `Money`: amounts between floats and cents. `Notifications`: sending mail behind the notifications queue.
  `Auth`: refresh-token rotation.

The Go files do not compile together (message types are declared twice, `PaymentService` calls a publisher that
`AsyncService` names differently, `handlePayment` sets fields `Payment` lacks). The model follows the evident intent: one
payment message, one status message with old and new status, one payments table that both services write, and
`UpdatePaymentStatusAsync` as the publisher `PaymentService` calls. Surrogate keys are opaque and never made twice; a key
determines the payment it was made for, and the database makes one for a row inserted without.

## Where the code is not what its names or comments say

Each of these is proved, with the exact condition where there is one.

- The backoff is called exponential; it multiplies once. It is the exponential schedule if and only if the multiplier is
  one or the first multiplication already reaches the cap (`Errors.BackoffIsExponentialIff`).
- The loop also sleeps after the last failed attempt: five seconds for the default strategy, two of them for nothing
  (`Retry.DefaultDelay`).
- With a strategy that allows no attempt, nil is returned without running the operation, and a payment message is
  acknowledged with no row behind it (`PipelineRefinement.NoAttemptLosesThePayment`).
- A redelivered message of a recorded pending order is not recognised as processed; every attempt runs into the unique index
  and the message goes back to the queue until a status update moves the order off pending
  (`AsyncService.RedeliveryOfRecordedOrder`, `AsyncService.StatusUpdateUnblocks`).
- An insert that takes effect although it reports an error is never announced to the customer: the next attempt takes the row
  for one already processed (`AsyncService.AmbiguousInsertIsNotAnnounced`).
- A status message whose row cannot be read is treated like one whose row is not there, and not retried
  (`AsyncService.EarlyStatusWaits`).
- A status saved but not published may be overwritten by an older queued one. It survives every continuation in which the service
  leaves the order alone, whatever is delivered, redelivered or expires, if and only if every unacknowledged message for the
  order, even one already applied, carried the same status (`StatusSync.AbandonedWriteConvergesIff`).
- A webhook event of a type the adapter does not map is saved with the empty status. It changes nothing if and only if no row has the
  transaction id the adapter left in it (`PaymentService.UnmappedEventIsNoOpIff`). At Stripe that id is empty, so the first
  row without a transaction loses its status, whatever order that is (`ServiceRefinement.NamelessEventHitsAnyOrder`); at
  PayPal an unmapped event about a capture keeps the capture's id and blanks the status of the payment it is about.
- 0.29 is charged as 28 cents. Truncation is exact if and only if the stored amount times 100 is not below the middle between
  the cents and the float just below them (`Money.TruncationExactIff`); 1.17 is such a middle (`Money.OneSeventeenTies`).
- Whole-cent refunds within a charge can refund more than was charged if and only if the charge itself lost a cent
  (`Money.NeverOverRefundsIff`); 0.29 refunded as 0.10 and 0.19 does (`Money.RefundsCanExceedCharge`).
- The consumed counter of notifications counts every one twice (`Notifications.CounterDoubles`).
- Redeeming a refresh token revokes it if and only if the second it was issued in has passed (`Auth.RedeemRevokesIff`).
- The channel is not in confirm mode: a publication can return nil for a message that never reached its queue. So a nil from
  `ProcessPaymentAsync` guarantees a row only up to copies lost so (`PipelineTheorems.AsyncPaymentIsRecorded`).

## Model

| member | source | states |
|---|---|---|
| Errors.BackoffBelowExponential | internal/errors/errors.go:69-82 | for any two attempts, the computed interval is at most min(Initial·Multiplier^n, Max), equals it on the first two attempts, lies between Initial and Max, never decreases and is constant from the second attempt on |
| Errors.BackoffIsExponentialIff | internal/retry/retry.go:56-59 | the schedule is the exponential one at every attempt if and only if the multiplier is 1 or Initial·Multiplier ≥ Max |
| Errors.DefaultFallsBehind | internal/errors/errors.go:59-82 | in nanoseconds: for the default strategy the third wait is 2 s where the exponential is 4 s, and the sixth still 2 s where the exponential has reached the cap of 30 s |
| Errors.IntervalOfAnyStrategy | internal/errors/errors.go:69-82 | under any strategy, sensible or not, the first interval is the initial one uncapped, and every other is the capped product or the product without its fraction |
| Errors.RetriedUpToTheLast | internal/errors/errors.go:85-95 | a retryable error of the last attempt allowed is still to be retried, one of a later attempt is not, nor is any other error |
| Retry.WithRetry | internal/retry/retry.go:14-54 | the loop, for every operation, context and strategy, gives the recursion's world, error, number of calls and times slept |
| Retry.RunEndsAtFirstDecision | internal/retry/retry.go:17-53 | every run ends at the first attempt that finds the context done, succeeds, fails without retry, or is interrupted while waiting, or after all attempts; world, error, calls and sleeps are given for each ending |
| Retry.SpecificationIsExact | internal/retry/retry.go:17-53 | that description determines the run: anything satisfying it at any attempt is what the loop returns |
| Retry.RetryContract | internal/retry/retry.go:17-53 | at most MaxAttempts calls; all but the last reported retryable errors; nil if and only if the last call succeeded or no attempt is allowed; any error is the last call's own or the context's |
| Retry.SleptWithinSchedule | internal/retry/retry.go:38-50 | no run sleeps longer than one through every attempt, and a run through every attempt sleeps after each of them |
| Retry.DelayBound | internal/retry/retry.go:38-50 | the longest total sleep is Initial + (MaxAttempts−1)·second interval, reached exactly as stated when every attempt fails retryably |
| Retry.DefaultDelay | internal/errors/errors.go:59-66 | three failing attempts under the default strategy sleep 1, 2 and 2 seconds |
| Retry.OneRetry | internal/retry/retry.go:24-50 | nil and every error but a retryable *PaymentError come back after one call; after one of those there is a second call, one initial interval later, and its success is returned |
| Models.WritesKeepUnique | internal/models/payment.go:48 | inserts and status updates keep order ids unique |
| Models.UniqueMeansOneRow | internal/models/payment.go:48 | then an order has one row if it is found and none otherwise |
| Models.ProcessedIsTheRow | internal/service/async_service.go:56-60 | the processed check succeeds if and only if the order's one row is there and not pending |
| Models.FindAfterSetStatus | internal/service/async_service.go:127 | a status update changes the status of the order's row and nothing any lookup sees besides |
| Broker.Client.Publish | internal/messaging/rabbitmq.go:142-170 | ready and published gain the one copy exactly if it arrived, whether nil or an error is returned, and nothing else changes; a nil return or an error is counted |
| Broker.Client.Consume | internal/messaging/rabbitmq.go:249-276 | for any deliveries and any handler, world and verdicts are those of handling the received bodies in order; exactly the offered bodies that can be delivered are received, all of them if they are ready; the queue went through exactly those rounds; every round is settled once and counted once |
| Broker.Client.Iterate | internal/messaging/rabbitmq.go:296-322 | one round moves an unreadable body to the dropped ones, a readable one to the acknowledged ones if the handler returns nil, and leaves the queue as it was if it does not; world and counters of each case |
| Broker.ReplayRound | internal/messaging/rabbitmq.go:249-276 | the k-th readable body is handled once in the world the ones before left, and acknowledged if and only if the handler returns nil, requeued otherwise; an unreadable one reaches no handler and is dropped |
| Broker.TurnsEffect | internal/messaging/rabbitmq.go:250-275 | over a whole consumer loop, acknowledged and dropped bodies are exactly those of the rounds settled so, the rest of what was ready still is, and nothing is published, expired or left in flight |
| Broker.TurnsConserve | internal/messaging/rabbitmq.go:343-370 | a consumer loop loses and duplicates no copy |
| Broker.OnlyMalformedDropped | internal/messaging/rabbitmq.go:254-270 | a body is dropped if and only if it cannot be read, whatever the handler says |
| Broker.SettleConserves | internal/messaging/rabbitmq.go:257-272 | each way of settling moves the copy to one place |
| AsyncService.Service.HandlePayment | internal/service/async_service.go:49-105 | the method is the retried payment operation; a new order whose first inserts take no effect and whose next one succeeds ends with its row, its receipt (unless lost) and nil |
| AsyncService.Service.HandlePaymentStatus | internal/service/async_service.go:108-156 | the method is the retried status operation; a recorded order whose first updates report errors and whose next one does not ends with the new status, its customer told (unless lost) and nil; a row that is missing or unreadable is an error that is not retried |
| AsyncService.OnePaymentAttempt | internal/service/async_service.go:53-104 | world and error of one attempt for each state of the table and each fault: processed, index violation, insert without effect, insert with effect and error, insert and receipt |
| AsyncService.DeliveryRecords | internal/service/async_service.go:49-105 | a new order's delivery whose k first inserts take no effect and whose next one succeeds returns nil after k + 1 attempts and k waits, with the message's row, and with the receipt sent unless lost |
| AsyncService.DeliveryFails | internal/service/async_service.go:78-84 | if no insert takes effect the delivery fails with DB_ERROR after MaxAttempts attempts, and nothing has changed |
| AsyncService.AmbiguousInsertIsNotAnnounced | internal/service/async_service.go:54-100 | an insert that takes effect and reports an error leaves the row and no receipt; the next attempt returns nil unless the message said pending, and then every attempt left fails |
| AsyncService.OneStatusAttempt | internal/service/async_service.go:112-152 | world and error of one attempt for each state of the table and each fault: not found, update with and without effect, update and notification |
| AsyncService.StatusDeliverySucceeds | internal/service/async_service.go:108-156 | a recorded order's delivery whose k first updates report errors and whose next one does not returns nil after k + 1 attempts, with the status set, every other field and order as before, and one notification unless lost |
| AsyncService.StatusDeliveryFails | internal/service/async_service.go:127-136 | if every update reports an error the delivery fails with STATUS_UPDATE_ERROR after MaxAttempts attempts; nobody is told, and the status is set if and only if an update took effect |
| AsyncService.Service.ProcessPaymentAsync | internal/service/async_service.go:159-187 | the message copies the payment's fields with the current time; queue, counters and error are those of the retried publication |
| AsyncService.Service.UpdatePaymentStatusAsync | internal/service/async_service.go:190-213 | likewise for the status message |
| AsyncService.OnePaymentDelivery | internal/service/async_service.go:53-104 | whatever faults it meets, one delivery adds at most one row, the message's own and only if the order had none, at most one notification and only for that row, and changes nothing else; if it will be acknowledged the order has a row |
| AsyncService.RedeliveryOfRecordedOrder | internal/service/async_service.go:54-84 | while reads succeed, a redelivery of a recorded order changes nothing; it is acknowledged, after one call, if and only if the status is not pending, and otherwise fails after MaxAttempts calls with the create error |
| AsyncService.PaymentLoop | internal/service/async_service.go:33-37 | the payment consumer running this handler, for any deliveries and faults: every acknowledged message's order ends with a row, orders stay unique, earlier rows are untouched |
| AsyncService.LoopSettlesByHandler | internal/service/async_service.go:33-37 | in the payment consumer's loop each readable message is handled in the world the ones before left, and acknowledged if and only if that returns nil |
| AsyncService.StatusUpdateUnblocks | internal/service/async_service.go:54-136 | a pending order's redelivery fails before, and is acknowledged without effect after, a status delivery that moves it off pending |
| AsyncService.EarlyStatusWaits | internal/service/async_service.go:113-124 | while the row is missing, or cannot be read, the operation runs once, never sleeps, changes nothing and fails with PAYMENT_NOT_FOUND |
| Models.FindAfterUpsert | internal/service/payment_service.go:84 | db.Save writes all columns of the object's own row or inserts it, is refused exactly when the order is there under another key, and changes what is found for no other order |
| Models.SavedRow | internal/service/payment_service.go:84 | a save that takes effect stores the given fields under their key and touches no other record |
| AsyncService.OneStatusDelivery | internal/service/async_service.go:112-152 | whatever faults it meets, one status delivery leaves the table or sets the status; if it will be acknowledged the row holds the new status; at most one notification; other orders and other fields stay |
| AsyncService.PublishedCopies | internal/service/async_service.go:172-186 | a publication leaves the queue as it was plus n ≤ MaxAttempts copies, and n ≥ 1 if it returned nil, unless an attempt lost its message without an error |
| AsyncService.PublicationCounted | internal/service/async_service.go:172-186 | a retried publication leaves one more copy for every attempt made that arrived, and counts one nil return, if it returned nil, and one error for every other attempt |
| AsyncService.PublicationRetries | internal/service/async_service.go:172-186 | one whose k first attempts report errors and whose next one does not returns nil after k + 1 attempts; one whose attempts all report errors returns that error after MaxAttempts |
| PipelineSafety.RowStep | internal/models/payment.go:48 | a protocol step makes an order's row appear exactly when it commits it, with the committed fields; no step removes a row or changes its key, order or immutable fields, not even a db.Save of all columns; and every step but the service's save of that order changes its status at most |
| PipelineSafety.ExactlyOnceEffect | internal/service/async_service.go:53-104 | over every run the number of commits for an order is the number of rows it gained, at most one; its key and immutable fields never change afterwards; and nothing but its status does in a run in which the payment service does not save it, whatever payment and status messages are delivered |
| PipelineSafety.FirstCommitDecides | internal/service/async_service.go:63-75 | an order that gained a row still has the key and the immutable fields written by the one step of the run that committed it |
| PipelineSafety.AnnouncedOnceKept | internal/service/async_service.go:75-100 | every step keeps: notifications of receipt sent or about to be sent number at most one per order, and none without a row |
| PipelineSafety.PaymentsDurableKept | internal/messaging/rabbitmq.go:263-274 | every step keeps: acknowledged payment messages and workers about to acknowledge have a row; only unreadable bodies are dropped |
| PipelineSafety.StatusesDurableKept | internal/messaging/rabbitmq.go:310-321 | the same for status messages |
| PipelineSafety.QueuesConservedKept | internal/messaging/rabbitmq.go:249-323 | every step of every party conserves the copies of both queues |
| PipelineSafety.RowsSourcedKept | internal/service/payment_service.go:79-84 | every step keeps: each row's status was claimed for that order by a caller's message or follows from an answer a provider gave, and its transaction was given to it by the provider |
| PipelineSafety.CallsSourcedKept | internal/service/payment_service.go:69-164 | every step of every call keeps the same of the objects and messages the calls hold: the answered status, failed on an error, refunded after an accepted refund, the event's status on the row with its transaction |
| PipelineSafety.ConfirmedKept | internal/service/async_service.go:172-186 | every step keeps: at least as many copies of a payment message reached the queue as publications of it returned nil for a copy that was not lost |
| PipelineSafety.InvKept | internal/service/async_service.go:49-156 | the conjunction of all these is inductive |
| PipelineTheorems.SafetyOfEveryRun | internal/service/async_service.go:49-156 | in every reachable state: receipts sent ≤ rows ≤ 1 per order, both queues conserved, and, if an attempt is allowed, acknowledged messages of both queues have exactly one row and only unreadable bodies were dropped |
| PipelineTheorems.DrainedIsRecorded | internal/messaging/rabbitmq.go:249-276 | once the payments queue has drained, every message of which some copy did not expire has exactly one row |
| PipelineTheorems.ExpiryLosesMessages | internal/messaging/rabbitmq.go:97-100 | the exception for expired copies is needed: a reachable state with both queues drained, a published message in each, and no row |
| PipelineTheorems.AsyncPaymentIsRecorded | internal/service/async_service.go:159-187 | once a call of ProcessPaymentAsync has returned nil, its attempts interleaved with everything else, then whenever the queue has drained the order has exactly one row, unless the copies of the message that expired and those lost without an error are as many as its publications that returned nil |
| PipelineTheorems.EarlyStatusOnlyExpires | internal/messaging/rabbitmq.go:97-100 | while an order has no row, every copy of a status message for it is ready, in flight or expired |
| PipelineTheorems.StatusProvenance | internal/service/payment_service.go:70-151 | in every reachable state a row's status was claimed for that order by a caller, or was the answer to a charge of that order, or is failed after an error to one, or was said by a provider (a refund, a status, an event) of a transaction it had given to that order or of none; and a row's transaction was given to that order |
| PipelineTheorems.AnswersAreSteps | internal/service/payment_service.go:70-177 | what the history says a provider said it said in a step of the run |
| PipelineTheorems.ClaimsAreSteps | internal/service/async_service.go:159-200 | what it says a caller claimed was in a message of the run |
| PipelineTheorems.RedeliveriesChangeNothing | internal/service/async_service.go:54-84 | once an order has its row, then in every run of all parties, however often its payment message is redelivered, retried or lost by a crash, no more receipts are sent for it than had been sent or were about to be, and its row stays as it is unless a status consumer updates it or the payment service saves it |
| PipelineRefinement.IterationIsARun | internal/messaging/rabbitmq.go:250-275 | receiving, handling with any faults and settling a payment message is a run of the protocol with the same table, notifications and queue as the sequential handler and loop |
| PipelineRefinement.StatusIterationIsARun | internal/messaging/rabbitmq.go:297-322 | the same for a status message |
| PipelineRefinement.CrashIsMadeUpFor | internal/messaging/rabbitmq.go:249-275 | after a crash anywhere in an iteration the same consumer can take the message again, and table and notifications are then those its handler makes of what the crash left |
| PipelineRefinement.NoAttemptLosesThePayment | internal/retry/retry.go:17-53 | with no attempt allowed there is a reachable state with an acknowledged payment message and no row |
| ServiceRefinement.ProcessPaymentIsARun | internal/service/payment_service.go:51-89 | the method, for every answer and every failure, is a run of the protocol with the table and verdict of its contract |
| ServiceRefinement.RefundPaymentIsARun | internal/service/payment_service.go:92-127 | likewise, with the refund rows and the refunds the provider accepted |
| ServiceRefinement.HandleWebhookIsARun | internal/service/payment_service.go:130-167 | likewise, with the status queue after the retried publication |
| ServiceRefinement.GetPaymentStatusIsARun | internal/service/payment_service.go:170-201 | likewise |
| ServiceRefinement.ProcessPaymentAsyncIsARun | internal/service/async_service.go:159-187 | the retried publication, for every context and every outcome, is a run with the same queue and verdict |
| ServiceRefinement.UpdatePaymentStatusAsyncIsARun | internal/service/async_service.go:190-213 | likewise |
| ServiceRefinement.NamelessEventHitsAnyOrder | internal/payment/stripe_provider.go:110-163 | there is a reachable state in which an order no provider ever said anything about has lost its status to an unmapped event |
| StatusSync.ConsumerKeepsHeading | internal/service/async_service.go:112-136 | whatever the consumer does, repeated and failed updates and redeliveries included, keeps the status an order is heading for, except exactly acknowledging an applied status that was overwritten since and is followed by no message |
| StatusSync.DrainEndsAtHeading | internal/service/async_service.go:127 | from any state in which acknowledging the head would not lose its status, once the order's messages have drained its row is at the status it was heading for, whatever the consumers, expiry of other messages and the writes of other orders did |
| StatusSync.StatusesConverge | internal/service/payment_service.go:148-164 | in every run in which each service write got a copy of its message into the queue and no order's last message expired with a status of its own, redeliveries and expiry of other messages included, the last message carries the last written status, or none is left and the row holds it; and every such continuation that leaves the order alone ends there once its messages have drained |
| StatusSync.AbandonedWriteConvergesIff | internal/service/payment_service.go:182-197 | after a save that no message follows every continuation that leaves the order alone, with any redelivery and expiry, ends at the saved status if and only if every unacknowledged message for the order carried that status |
| StatusSync.LostPublicationDiverges | internal/service/payment_service.go:153-164 | a run that ends with the queue empty and the row at the older status |
| StatusSync.SaveAndPublishIsARun | internal/service/payment_service.go:186-197 | the service's save and retried publication, whatever fails, are a run of this protocol with the same table and as many copies, and one that loses nothing if a copy arrived, as it has if nil was returned and none was lost without an error |
| StatusSync.DeliveryIsARun | internal/messaging/rabbitmq.go:297-322 | delivering the head to the status handler with any faults, and settling it, is a run with the handler's table; the message leaves the queue exactly when the handler returned nil |
| StatusSync.PaymentDeliveryIsARun | internal/service/async_service.go:49-105 | a delivery to the payment handler, with any faults, is at most one insert of this protocol, with the handler's table |
| PaymentService.Service.ProcessPayment | internal/service/payment_service.go:51-89 | the fields assigned on a charge and on an error, the charge made, and the saved table are given for every outcome; nil if and only if the provider charged without error and the save succeeded, and then the stored record holds the transaction and status it answered with; no other record changes |
| PaymentService.Service.RefundPayment | internal/service/payment_service.go:92-127 | payout, refund row, fields and saved table are given for every outcome; nil if and only if the refund was accepted, its row inserted and the record saved without error, and then the record says refunded; a payout lacks a row exactly when the provider answered with an error or the insert took no effect |
| PaymentService.Service.HandleWebhook | internal/service/payment_service.go:130-167 | the first record with the event's transaction gets the event's status and details, and no other is rewritten; not found, unreadable or not saved is an error and publishes nothing; after a stored one the status queue has at most MaxAttempts more copies of its status message, and at least one if nil is returned and none was lost without an error |
| PaymentService.Service.GetPaymentStatus | internal/service/payment_service.go:170-201 | the provider's answer is returned even if it could not be stored; nothing is written or published unless it differs from the caller's payment |
| PaymentService.Service.SaveAndPublish | internal/service/payment_service.go:186-197 | a failed save publishes nothing; after a stored one the status message is published with retries, which leaves at most MaxAttempts more copies and nothing else new, and at least one on success if none was lost without an error |
| PaymentService.WebhookTouchesItsRow | internal/service/payment_service.go:142-155 | the table after a webhook, for every failure: the first row with the event's transaction id has the event's status and details and the new time if it can be read and the save takes effect; everything else is as it was |
| PaymentService.StripeEventSetsStatus | internal/payment/stripe_provider.go:118-153 | a charge that succeeded, failed or was refunded leaves its row completed, failed or refunded |
| PaymentService.PayPalEventSetsStatus | internal/payment/paypal_provider.go:145-163 | a capture completed, denied or refunded leaves its row completed, failed or refunded; one of another type leaves it without a status |
| PaymentService.UnmappedEventIsNoOpIff | internal/service/payment_service.go:142-155 | an unmapped event leaves the table as it is if and only if no row has the transaction id left in it; otherwise the first such row loses its status |
| PaymentService.UnmappedStripeEventIsNoOpIff | internal/payment/stripe_provider.go:110-163 | at Stripe: if and only if every row has a transaction id |
| PaymentService.UnmappedPayPalEventIsNoOpIff | internal/payment/paypal_provider.go:139-176 | at PayPal: if and only if no row is the payment of the event's capture, or, for an event about anything else, every row has a transaction id |
| RefundTheorems.RefundsAgree | internal/service/payment_service.go:92-127 | over every run of all parties, failing anywhere, refund rows are a sub-multiset of accepted refunds; of each refund as many are missing as the run has steps that lose it (accepted with an error, insert without effect, death before the insert), besides those about to be recorded; and calls that returned nil have their own rows |
| RefundTheorems.NilRefundIsStored | internal/service/payment_service.go:118-126 | in every run of all parties, at the moment a RefundPayment returns nil its payment's row says refunded, and it still does unless a status consumer or the payment service has written that order's row since |
| Money.CentsBound | internal/payment/stripe_provider.go:43 | up to 2^51 cents, the truncated product is the cents or one less, and the printed amount is exact; so also for a webhook's cents/100 fed into a refund |
| Money.PrintedIsNearest | internal/payment/paypal_provider.go:69 | the printed cents are within half a cent of the amount, of any sign, and the even ones where two are equally near |
| Money.TruncationExactIff | internal/payment/stripe_provider.go:168 | with round-to-nearest, ties-to-even: the truncation is exact if and only if the stored amount times 100 is at or above the middle between c and the binary64 number just below it |
| Money.OneSeventeenTies | internal/payment/stripe_provider.go:43 | 1.17 times 100 is exactly that middle, and converts to 117 cents |
| Money.TwentyNineCents | internal/payment/stripe_provider.go:43 | 0.29 converts to 28 cents |
| Money.PartialRefundsStayWithin | internal/payment/stripe_provider.go:168 | in exact arithmetic n refunds within the charge refund no more cents than charged and fall short by less than n cents |
| Money.FloatRefundsNearlyStayWithin | internal/payment/stripe_provider.go:168 | in floating point whole-cent refunds exceed the charged cents by at most one, and not at all if the charge converted exactly |
| Money.NeverOverRefundsIff | internal/payment/stripe_provider.go:168 | no whole-cent refunds within a charge exceed the charged cents if and only if the charge converted exactly |
| Money.NeverOverRefundsAtTheMiddle | internal/payment/stripe_provider.go:168 | in binary64: if and only if the stored charge times 100 is at or above that middle |
| Money.RefundsCanExceedCharge | internal/payment/stripe_provider.go:168 | an instance where they do |
| Notifications.Service.ProcessNotification | internal/service/notification_service.go:35-63 | nil if and only if it is mail and the server took it; the mail may have gone out on an error; status and times are set only on success; the counters |
| Notifications.Service.SendEmail | internal/service/notification_service.go:98-115 | the letter is marked sent exactly when no error is reported |
| Notifications.NotificationsSettle | internal/messaging/rabbitmq.go:343-370 | over every run no copy is lost or duplicated and only unreadable bodies are dropped; mails sent ≥ acknowledgements for each message; only mail is acknowledged, other kinds are waiting, in flight or expired; and the consumed counter is given exactly |
| Notifications.ExpiryLosesTheMessage | internal/service/notification_service.go:47-58 | what is not mail can leave its queue by expiring, without a mail sent |
| Notifications.CounterDoubles | internal/service/notification_service.go:61 | without crashes, at rest, the consumed counter is twice the acknowledgements |
| Notifications.IterationIsARun | internal/messaging/rabbitmq.go:344-369 | an undisturbed iteration of the consumer loop around ProcessNotification is a run with the loop's queue, the handler's mails and both counts |
| Notifications.UnreadableIterationIsARun | internal/messaging/rabbitmq.go:348-355 | and so is one that meets an unreadable body |
| Auth.Service.RegisterUser | internal/service/auth_service.go:29-31 | ok if and only if the email is free and the insert reports success; the row is appended as given unless the email is taken or the insert takes no effect; emails stay unique |
| Auth.Service.Login | internal/service/auth_service.go:33-48 | a pair if and only if the email is known, the password matches and the save reports success; then the user's row holds the pair's refresh token and the login time, and the tokens' claims are given; an unknown email or a wrong password changes nothing; no other row changes, and no email, password or role |
| Auth.Service.GenerateTokenPair | internal/service/auth_service.go:50-85 | both tokens with their claims and expiry seconds; the user's row is the given one with the refresh token unless the save takes no effect; a pair is returned exactly when it reports success; no other row changes |
| Auth.Service.RefreshToken | internal/service/auth_service.go:87-114 | a pair if and only if the token is the stored one, its expiry second has not begun and the save reports success; then its refresh token has replaced the old one and its access token carries the user's claims; a refused token changes nothing; no other row changes |
| Auth.TokenLife | internal/service/auth_service.go:50-93 | in nanoseconds from issue: the refresh token of a pair is redeemed up to a second short of seven days and refused from seven days on, and the access token is valid up to a second short of an hour and not from an hour on |
| Auth.StoredIsLastAlways | internal/service/auth_service.go:75-79 | after any operations failing in any way, each user's row holds the token saved last |
| Auth.RedeemableIff | internal/service/auth_service.go:87-113 | a token is redeemable if and only if it is the one saved last for its user and its expiry second has not begun |
| Auth.AccessTokensAreNotRedeemable | internal/service/auth_service.go:87-113 | no access token is, in any run in which users are registered without a refresh token |
| Auth.RedeemRevokesIff | internal/service/auth_service.go:65-79 | redeeming revokes the token unless it is the very token issued; so a refresh token is revoked if and only if it is redeemed in a later second than it was issued in |
| Auth.RedeemedAtMostOnce | internal/service/auth_service.go:87-114 | over every run with a user's tokens issued in different seconds each token is redeemed at most once, and never after a later one was saved |
| Auth.SameSecondRedeemsTwice | internal/service/auth_service.go:65-79 | within one second a token can be redeemed twice |

## Left out

- Errors.CalculateNextInterval: the multiplier and the product are real numbers, so the rounding of the float64 product
  and durations beyond the int64 range are not modelled.
- Money.CentsBound: underflow, overflow and amounts above 2^51 cents are not modelled, nor is Go's conversion of an
  out-of-range float.
- Retry.WithRetry: the operation is a function of the world and the attempt, not a closure over shared objects; logging is omitted.
- Broker.Client.Consume: prefetched deliveries are separate consumer slots, each holding one message, and the channel
  never closes by itself; the order of ready messages is left open, except in `StatusSync`, which assumes first-in-first-out.
- The TTL is a step that may take any ready message at any time; that 24 hours must have passed is not modelled.
- StatusSync.StatusesConverge: covers runs in which only the service writes statuses and its writes of one order do not
  overlap; overlapping writers can publish in the opposite order of their saves, and no claim is made for them.
- PipelineTheorems.StatusProvenance: callers bring payments read from the table, at any earlier time, or new ones without a
  transaction; one that invents a transaction id is not covered.
- PipelineSafety.RowStep: callers do not change the order or the immutable fields of a payment they read before passing it back;
  nothing in the program does.
- Row.updatedAt is what the payment service assigns; the time columns the database layer maintains by itself are not modelled.
- RefundTheorems.RefundsAgree: no bound on the total refunded is stated, because the code sets none.
- PaymentService.Service.HandleWebhook: rows are in insertion order, and the first match is taken in that order, where the
  database would order by primary key; an event that cannot be parsed is one that fails validation.
- Exchanges and routing keys: every key the publishers use matches its queue's binding pattern, so a publication is an enqueue.
- PayPal's two-step capture and its status mapping, and Stripe's status mapping: simple case tables.
- Stripe, PayPal, SMTP, JWT signatures and bcrypt: outcomes chosen by the environment, or an injective encoding.
- HTTP and gRPC handlers, middleware, configuration, provider factory, templates, preferences, permissions: request plumbing
  and lookups that would only add easy members.
- Prometheus histograms and the queue collector: only the counters a property mentions are kept.
