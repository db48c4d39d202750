# Booking and payment protocol: a Dafny model

A marketplace lets customers reserve appointments with service providers, pay through a gateway,
cancel, have them completed and reviewed, and lets an admin refund. Bookings, payments, webhook
events, the audit log and two job queues are changed by customers, providers, admins, at-least-once
gateway webhooks and delayed jobs, in any order. This project models those operations and proves
what holds over every run of them.

## Structure

| file | content |
|---|---|
| `Domain`, `Times`, `Instants`, `Currency` | rows and transition tables, clock texts, UTC date/time splitting, amounts in smallest units with binary64 rounding |
| `Protocol` | one function per service call, webhook branch and queue job; `Step` and `Run` over arbitrary sequences of operations |
| `CaptureInvariant`, `AuditTrail`, `AuditInvariant`, `Lifecycle` | the inductive invariants and their preservation by every step |
| `Executions` | executions of a state machine, reachable states and their induction principle |
| `Guarantees`, `Overdue`, `Receipts`, `Causes`, `Replays` | the theorems about whole runs |
| `Outcomes` | for each operation, exactly when it succeeds, the rows it then writes and that nothing else changes |
| `Witnesses` | concrete bookings, among them inputs on which the code fails its description |
| `Platform` | the same services as a class that updates its tables in place, proved equal to the steps |
| `Race` | the capture webhook and the expiry workers at the level of single reads and writes |
| `Availability` | schedule validation, slot generation and stored schedules |
| `Ratings` | the mean rating through decimal division, binary64 and `toFixed(2)` |
| `Reviews`, `Notifications`, `ReviewRequests` | ratings, reminders and review requests, run beside the protocol |

A table with generated keys is a sequence whose index is the key, so a later index is a later row.
Clock values, gateway order numbers, signature validity, the mean rating the database answers and whether
an email is delivered are inputs of the steps. Unique indexes and the exclusion constraint are guards on the writes they protect.

## Where the code does not meet its own description

* **Repeat deliveries.** The handler's comments say repeats of an event are harmless. A capture or
  failure event whose gateway payment id is already stored on another payment aborts on that unique
  index, is answered `already_processed`, and leaves no event row. A repeat can then act
  (`Replays.UnsettledAfterVerify` shows it in a state `Replays.TwoUnpaidReachable` reaches). `Replays.ReplaySafeExactly`
  proves that this is the only exception, and that every such delivery is one: its repeats are
  harmless if and only if it is not authentic, its event is stored, or it did not hit that index.
* **Capture against expiry.** The comment in the capture branch says the booking row is locked, but
  the read is a plain `findUnique`. If an expiry commits between that read and the write, an EXPIRED
  reservation becomes CONFIRMED. `Race.RevivedExactly` proves that this happens exactly for those
  schedules, `Race.ReviveSchedule` gives one, and `Race.RaceOutcomes` gives the promised outcomes when
  the transaction's read and write are adjacent.
* **Late captures.** A signed capture of the right amount for a payment that is FAILED or REFUNDED, such
  as that of an expired reservation, only stores its event: `Causes.CaptureIffPrice` says that exactly
  CREATED payments are captured, and `Witnesses.LateCaptureIgnored` gives such a run.
* **Retries in another currency.** A second payment order is always in INR for the same number, whatever
  the booking was sold in. `Causes.CurrencyKeptExactly` and `Witnesses.DollarsPaidInRupees` show when.
* **Fractions of a second.** `startsAt` may carry milliseconds but the `Time(0)` columns round to
  seconds. `Guarantees.InstantsSurvive` proves the round trip if and only if the start is a whole
  second, and `Witnesses.FractionalStart` gives an accepted start that is lost. So two bookings can
  share part of a second (`Guarantees.BookedApart`, `Witnesses.FractionsOverlap`).
* **Ends just before midnight.** An end in the last half second of a day is stored as 24:00:00 and read
  back as hour 0 of the same date, so the overdue check and the review request come before the
  appointment. `Overdue.EarlyFlagExactly` and `ReviewRequests.EarlyRequestExactly` prove that exactly
  these ends are affected, and `Witnesses.MidnightEndFlaggedEarly` is one.
* **Halves in the average.** The average travels as a float, so a mean halfway between two hundredths
  may be stored as the smaller one. `Ratings.FortyOneOverForty` is such a mean, and
  `Reviews.RatingRefinesReviews` says exactly when it happens.

## Model

| member | source | states |
|---|---|---|
| `Guarantees.SingleCapture` | src/modules/payment/services/payment.service.ts:45-588 | in every run at most one payment of a booking ever gets `paidAt`; CONFIRMED and COMPLETED bookings have one; a captured payment carries the booked price and its booking is not PENDING_PAYMENT |
| `Guarantees.MoneyConserved` | src/modules/payment/services/payment.service.ts:604-704 | in every run, refunds requested for a booking never exceed what was captured for it, which never exceeds its booked price |
| `Guarantees.RefundAtMostOnce` | src/modules/payment/services/payment.service.ts:618-676 | after a successful refund, in every state any continuation reaches, a further refund of that payment is refused |
| `Guarantees.CaptureIsForEver` | src/modules/payment/repositories/payment.repository.ts:151-177 | once set, `paidAt` keeps its value for the rest of every run, and a captured payment that left SUCCESS never returns to it |
| `Guarantees.UnusedStatuses` | src/modules/booking/domain/booking-state-machine.ts:3-29 | no run ever stores a booking in PAYMENT_FAILED or a payment in PENDING |
| `Guarantees.AuditRebuildsTable` | src/modules/booking/services/booking.service.ts:187-202 | folding the audit log, with the payments table telling whose payment a refund entry is about, gives every booking's current status, and each booking entry's old status is the fold of the entries before it |
| `Guarantees.CaptureAccountedFor` | src/modules/payment/services/payment.service.ts:419-496 | for every captured payment exactly one of one BOOKING_CONFIRMED entry and one refund-required entry exists for its booking |
| `Guarantees.LifecycleBound` | src/modules/booking/domain/booking-state-machine.ts:3-29 | along every execution a booking changes status at most three times, bounded by its final rank |
| `Guarantees.BookingSurvives` | src/modules/booking/services/booking.service.ts:383-522 | in every continuation a booking is still stored, keeps its customer, provider, price and times, and never leaves CANCELLED or EXPIRED |
| `Guarantees.ReachedByRuns` | src/modules/payment/services/payment.service.ts:45-704 | the reached states are exactly the outcomes of finite runs from the empty database |
| `Guarantees.HistoryFollowsTable` | src/modules/booking/domain/booking-state-machine.ts:3-29 | between consecutive states of every run each booking keeps its status, is confirmed, cancelled or expired from PENDING_PAYMENT, completed or cancelled from CONFIRMED, or cancelled by a refund from COMPLETED; the transition table allows each of these changes but the last |
| `Guarantees.NoDoubleBooking` | prisma/migrations/20260830054222_add_booking_exclusion_constraint/migration.sql:3-11 | in every run two live bookings of one provider share no instant of their stored half-open intervals |
| `Guarantees.BookedApart` | src/modules/booking/services/booking.service.ts:136-171 | in booked rather than stored time two such bookings share less than a second, and nothing when both appointments are on whole seconds |
| `Guarantees.InstantsSurvive` | src/modules/booking/services/booking.service.ts:116-140 | for the rest of every run the recomposed start and end equal the booked instants if and only if the start is a whole second; otherwise the stored slot runs between the nearest seconds, and the recomposed start precedes the recomposed end exactly unless the end falls in the last half second of the day |
| `Guarantees.CancellationPolicy` | src/modules/booking/services/booking.service.ts:298-377 | at any later time cancelling succeeds if and only if the caller is the customer, the booking is live and more than two hours remain before the booked instant, to the nearest second |
| `Guarantees.ShiftCheckExact` | src/modules/booking/services/booking.service.ts:101-134 | the shift check accepts exactly when one shift of that weekday contains the appointment and its buffer, with the seconds of the start dropped |
| `Guarantees.ReservationsResolve` | src/modules/booking/services/booking.service.ts:222-227 | with no job due by t left, no booking created 15 minutes or more before t is PENDING_PAYMENT |
| `Guarantees.ExpiryJobsExact` | src/jobs/queues/booking.queue.ts:32-66 | in every run a booking has a queued expiry job if and only if it is PENDING_PAYMENT, due 15 minutes after its creation |
| `Guarantees.QueueDrains` | src/jobs/processors/booking.processor.ts:26-54 | from every state some sequence of due job runs leaves no job due |
| `Guarantees.AnyOrderDrains` | src/jobs/processors/booking.processor.ts:26-54 | in whatever order due jobs run, each run takes exactly one job off the queue, so every order ends |
| `Guarantees.OverdueSound` | src/modules/booking/services/booking.service.ts:529-609 | in every run a booking has one overdue entry if it is flagged and none otherwise, and it was flagged at or after its recomposed end plus two hours |
| `Overdue.EarlyFlagExactly` | src/jobs/queues/booking.queue.ts:71-111 | for every accepted booking, some continuation flags it before its booked end, to the nearest second, plus two hours if and only if that end falls in the last half second of its day; with a clock that does not go back, if and only if it was also made before two in that morning |
| `Overdue.OverdueComplete` | src/jobs/queues/booking.queue.ts:71-111 | in every run a CONFIRMED booking was paid before its check was due if and only if the check is queued or has flagged it, never both; once the queue is drained past that time exactly those bookings are flagged |
| `Guarantees.FlagOnlyWhenDue` | src/jobs/queues/booking.queue.ts:71-111 | only its own due overdue job flags a booking, while CONFIRMED, at or after its end plus two hours |
| `Guarantees.InvStep` | src/modules/payment/services/payment.service.ts:45-704 | the conjunction of all invariants is kept by every step |
| `Guarantees.InvRun` | src/modules/payment/services/payment.service.ts:45-704 | and hence by every run |
| `Guarantees.ReachedInv` | src/modules/payment/services/payment.service.ts:45-704 | every reached state satisfies it |
| `Receipts.ReceiptsMatch` | src/modules/payment/services/payment.service.ts:192-217 | in every reached state a payment has one success entry in the log if it was captured and none otherwise, and as many refund entries as refunds were sent, never more than its success entries |
| `Receipts.ReceiptsStep` | src/modules/payment/services/payment.service.ts:604-704 | every step keeps that agreement |
| `Receipts.StampsTellStatus` | src/modules/booking/repositories/booking.repository.ts:202-217 | in every reached state `cancelledAt` is set exactly on CANCELLED bookings, `completedAt` on COMPLETED ones and only those later refunded, and `refundedAt` on every REFUNDED payment |
| `Receipts.StampedStep` | src/modules/payment/repositories/payment.repository.ts:151-177 | every step keeps the stamps |
| `Receipts.HistoryIsAppendOnly` | src/modules/payment/services/payment.service.ts:678-693 | no continuation rewrites or drops an audit entry or a refund, or drops a booking or payment |
| `Causes.BookingMadeExactly` | src/modules/booking/services/booking.service.ts:55-260 | a booking is made if and only if the offering is on sale, the start is between now and thirty days on, a shift holds appointment and buffer, no live booking of that provider shares an instant with the appointment rounded to seconds, and the gateway order is new |
| `Causes.ExclusionMeaning` | prisma/migrations/20260830054222_add_booking_exclusion_constraint/migration.sql:3-11 | the constraint refuses a row exactly when some instant lies in it and in a live booking of the same provider |
| `Causes.EveryChangeIsCaused` | src/modules/booking/services/booking.service.ts:298-522 | a booking changes status only by its customer's verified payment or a signed capture for the order of an open payment of that booking, its provider or an admin, its customer in time, a refund of its captured payment, or its own due expiry job |
| `Causes.PaymentOrderIdempotent` | src/modules/payment/services/payment.service.ts:45-98 | a payment order is an open payment of that booking for its price; asking again returns the same payment and changes nothing |
| `Causes.CaptureIffPrice` | src/modules/payment/services/payment.service.ts:374-484 | with whatever the float conversion of the booked price returns, a fresh signed `payment.captured` or `order.paid` is taken if and only if the payment is CREATED, the reported amount is absent, zero or that number of units, the currency is absent or agrees up to case, and no other payment has the gateway payment id; otherwise, also for FAILED and REFUNDED rows, at most the events table changes |
| `Causes.CurrencyKeptExactly` | src/modules/payment/services/payment.service.ts:62-92 | in every continuation all payments of a booking are in the currency it was sold in, if and only if that is INR |
| `Causes.RefundMovesMoney` | src/modules/payment/services/payment.service.ts:630-693 | a successful refund is the first one for its booking, sends the requested amount or the booked price, and leaves booking CANCELLED and payment REFUNDED |
| `Outcomes.BookingStored` | src/modules/booking/services/booking.service.ts:152-227 | a booking made at any time adds one row with the caller, the offering's provider and provider user, its price, the time of creation and the appointment rounded to seconds, one CREATED payment of that order and price in the offering's currency or INR, one expiry job 15 minutes ahead and one audit entry; nothing else changes |
| `Outcomes.BookingRefused` | src/modules/booking/services/booking.service.ts:55-134 | a refused request changes nothing; it is not found exactly for a missing or inactive offering, forbidden exactly for an inactive provider user, and a conflict only when everything but slot and order was in order |
| `Outcomes.CompletionPolicy` | src/modules/booking/services/booking.service.ts:468-488 | in every continuation of the run that made a booking, completing it succeeds if and only if it is CONFIRMED and the caller is the user of the provider it was made with, or an admin |
| `Outcomes.CompleteWrites` | src/modules/booking/services/booking.service.ts:468-522 | completing writes status and time on that booking, logs it and takes its overdue check off the queue, and changes nothing when refused, with the reason |
| `Outcomes.CancelWrites` | src/modules/booking/services/booking.service.ts:298-377 | cancelling writes status and time on that booking, logs it and takes both its jobs off the queue, and changes nothing when refused, with the reason |
| `Outcomes.ExpiryExactly` | src/modules/booking/services/booking.service.ts:383-462 | the expiry job expires its booking if and only if that is PENDING_PAYMENT 15 minutes after its creation; exactly its CREATED payment becomes FAILED, and no other booking, payment or job changes |
| `Outcomes.OverdueExactly` | src/modules/booking/services/booking.service.ts:529-609 | a queued overdue check flags its booking if and only if that is CONFIRMED, not flagged, and ended two hours ago; no other row or job changes |
| `Outcomes.OrderReturnedExactly` | src/modules/payment/services/payment.service.ts:45-98 | an order is returned if and only if the caller is the customer, the booking is PENDING_PAYMENT, and it has an open payment or the order is new; the open payment is returned unchanged, or one for the booked price in INR is added |
| `Outcomes.VerifyExactly` | src/modules/payment/services/payment.service.ts:100-243 | verification succeeds if and only if the caller is the customer, the signature is valid, booking and payment wait to be paid and no other payment has the gateway id; then exactly these two rows, the log and the booking's jobs change; otherwise nothing does, and it is already verified exactly for a SUCCESS payment of a CONFIRMED booking |
| `Outcomes.CaptureTaken` | src/modules/payment/services/payment.service.ts:374-496 | a capture that is taken writes exactly its payment, and confirms a pending booking with its queue changes, or else leaves the booking alone and logs that a refund is required |
| `Outcomes.FailureTaken` | src/modules/payment/services/payment.service.ts:499-527 | a fresh failure event leaves the payment FAILED with the reported id if no other payment has it, changes only events if it was FAILED, and changes nothing at all if the id is in use |
| `Outcomes.RefundTaken` | src/modules/payment/services/payment.service.ts:529-544 | a fresh `refund.processed` or `payment.refunded` leaves the payment REFUNDED and everything else but the events as it was |
| `Outcomes.OthersOnlyStored` | src/modules/payment/services/payment.service.ts:319-355 | a fresh event of any other kind, or without a known order, is stored and changes nothing else |
| `Outcomes.RefundGrantedExactly` | src/modules/payment/services/payment.service.ts:618-693 | a refund is granted if and only if the payment is stored, SUCCESS and has a gateway payment id, and the request is absent or positive and at most the captured amount; it then sends exactly that amount, and otherwise nothing changes |
| `CaptureInvariant.ConsistentStep` | src/modules/payment/domain/payment-state-machine.ts:3-27 | every step keeps: only the newest payment of a booking may be open, never beside a capture; PENDING_PAYMENT and EXPIRED bookings have no captured payment and EXPIRED ones no open payment; confirmed ones have a capture; gateway keys are unique |
| `CaptureInvariant.ExpireKeeps` | src/modules/booking/services/booking.service.ts:383-462 | expiring a booking and failing its unpaid payments keeps bookings and payments consistent |
| `CaptureInvariant.CaptureKeeps` | src/modules/payment/services/payment.service.ts:374-484 | marking an open payment paid keeps them consistent when its booking is confirmed or had already left PENDING_PAYMENT |
| `CaptureInvariant.AcceptedTimes` | src/modules/booking/services/booking.service.ts:116-140 | an appointment that passes the shift check starts and ends on one UTC day, start before end |
| `AuditInvariant.AuditStep` | src/modules/payment/services/payment.service.ts:192-217 | every step keeps the log in agreement with the tables, with one settlement entry per captured booking |
| `AuditTrail.TrailExtends` | src/modules/booking/services/booking.service.ts:348-362 | appending one entry that records the old status and the change keeps the whole log replayable |
| `Lifecycle.PaymentsStep` | src/modules/payment/repositories/payment.repository.ts:151-177 | one step keeps each payment's booking, order, amount and `paidAt` once set, and never re-enters SUCCESS after capture |
| `Lifecycle.RefundsStep` | src/modules/payment/services/payment.service.ts:618-676 | every step keeps refunds on distinct captured payments that have left SUCCESS, each for at most the paid amount |
| `Lifecycle.JobsStep` | src/jobs/queues/booking.queue.ts:32-126 | every step keeps each queued job due at its proper time and exactly the PENDING_PAYMENT bookings with an expiry job |
| `Lifecycle.ExpiryNotEarly` | src/modules/booking/services/booking.service.ts:383-462 | a booking only becomes EXPIRED through a job at or after creation plus 15 minutes |
| `Lifecycle.OnlyCreateClaimsSlots` | src/modules/booking/services/booking.service.ts:152-171 | after any step but an insert, whatever holds a slot held the same slot before |
| `Lifecycle.OverlapStep` | prisma/migrations/20260830054222_add_booking_exclusion_constraint/migration.sql:3-11 | every step keeps live bookings of one provider from overlapping |
| `Replays.ReplaySafeExactly` | src/modules/payment/services/payment.service.ts:306-370 | after a delivery, the same delivery never has an effect again in any continuation, if and only if it was forged or malformed, its event was stored before, or it did not hit the unique gateway payment id |
| `Replays.RecordedIsHarmless` | src/modules/payment/services/payment.service.ts:306-323 | once an event is stored, no delivery under its id, repeat or not, has any effect in any continuation |
| `Replays.ClashRepeatActs` | src/modules/payment/services/payment.service.ts:499-587 | from every consistent state, after any delivery that hits the index, a refund and a failure event for the row holding the id make the very same delivery change its payment |
| `Replays.RepeatsRemovable` | src/modules/payment/services/payment.service.ts:306-370 | for every trace, forged and malformed deliveries included, whose first authentic delivery of each event does not hit the index, removing all repeat deliveries gives the same bookings, payments, events, log, jobs and refunds |
| `Replays.RepeatsRemovableExactly` | src/modules/payment/services/payment.service.ts:306-370 | those are exactly the traces for which removing repeats is safe from every beginning of the trace on, however it goes on |
| `Replays.UnsettledRepeatActs` | src/modules/payment/services/payment.service.ts:575-587 | a capture reusing another payment's gateway id is answered as processed without effect, and its repeat confirms the booking once that id moved |
| `Replays.UnsettledAfterVerify` | src/modules/payment/services/payment.service.ts:499-528 | a concrete verification and two deliveries that do so |
| `Replays.TwoUnpaidReachable` | src/modules/booking/services/booking.service.ts:55-260 | the state they start from is reached by two bookings of different providers |
| `Witnesses.ThursdayBookable` | src/modules/booking/services/booking.service.ts:101-134 | such bookings exist: a concrete offering passes every creation check at any time of its day that leaves an hour |
| `Witnesses.FractionalStart` | src/modules/booking/services/booking.service.ts:136-171 | a start one millisecond past the hour is accepted and recomposed as the full hour |
| `Witnesses.MidnightEndFlaggedEarly` | src/jobs/queues/booking.queue.ts:81-111 | an accepted appointment ending at 23:59:59.600 is recomposed with the end at the midnight before, and once paid is flagged as overdue at two in the morning, before it starts |
| `Witnesses.LateCaptureIgnored` | src/modules/payment/services/payment.service.ts:374-389 | the right amount captured after the reservation expired only stores the event: booking EXPIRED, payment FAILED, nothing to be refunded |
| `Witnesses.FractionsOverlap` | src/modules/booking/services/booking.service.ts:136-171 | an hour from 1:00:00.400 and an hour from two o'clock are both accepted for one provider |
| `Witnesses.DollarsPaidInRupees` | src/modules/payment/services/payment.service.ts:76-92 | a booking sold for 100 USD is confirmed by a capture of 100 INR after a failed attempt |
| `Replays.WebhookAfterVerify` | src/modules/payment/services/payment.service.ts:374-389 | after a successful client verification a capture webhook for that order changes at most the events table |
| `Replays.VerifyAfterWebhook` | src/modules/payment/services/payment.service.ts:137-189 | after a webhook confirmed a booking, its customer's verification answers already verified and changes nothing |
| `Race.OneWorkerExpires` | src/modules/booking/services/booking.service.ts:383-437 | in every interleaving at most one expiry worker reports that it expired the reservation |
| `Race.RevivedExactly` | src/modules/payment/services/payment.service.ts:340-484 | an expired reservation is confirmed if and only if the expiry committed between the webhook's booking read and its write |
| `Race.RaceOutcomes` | src/modules/payment/services/payment.service.ts:340-484 | with read and write adjacent, every finished interleaving with an arbitrarily stale payment snapshot ends in one of the promised outcomes and never confirms a dead reservation |
| `Race.AtomicIsAdjacent` | src/modules/payment/services/payment.service.ts:360-560 | in a trace whose transaction is not interrupted the write directly follows the read |
| `Race.RaceInvHolds` | src/modules/booking/services/booking.service.ts:383-437 | the race invariant holds in every interleaving of any number of workers |
| `Race.ReviveSchedule` | src/modules/payment/services/payment.service.ts:405-484 | a concrete interrupted schedule that confirms an expired reservation |
| `Race.HookAgrees` | src/modules/payment/services/payment.service.ts:374-484 | the webhook's read of the payment, read of the booking and writes in a row are the capture branch of the atomic step, with a refund asked for in the same cases |
| `Race.WorkerAgrees` | src/modules/booking/services/booking.service.ts:383-437 | a worker's read and conditional write in a row are the atomic expiry, reported in the same cases |
| `PlatformService.Platform.FailUnpaidPayments` | src/modules/payment/repositories/payment.repository.ts:22-34 | the conditional update fails exactly the unpaid payments of the booking |
| `PlatformService.Platform.FindLatestPayment` | src/modules/payment/repositories/payment.repository.ts:135-140 | finds the newest payment of the booking, or none if it has none |
| `PlatformService.Platform.FindPaymentByOrder` | src/modules/payment/repositories/payment.repository.ts:142-149 | finds a payment of the gateway order, or none if there is none |
| `PlatformService.Platform.Perform` | src/modules/payment/services/payment.service.ts:45-704 | any sequence of calls on the object is an execution, so every guarantee about reached states holds of its tables |
| `PlatformService.Platform.ProcessDueJobs` | src/jobs/processors/booking.processor.ts:26-54 | working off due jobs terminates with none due and no booking unpaid beyond 15 minutes |
| `Instants.FractionIsLost` | prisma/schema.prisma:280-282 | whatever whole second is stored, an instant with a fraction is not recovered |
| `Instants.WeekdayAdvances` | src/modules/booking/services/booking.service.ts:101-102 | weekdays advance by one modulo seven per day from Thursday, the first day of the epoch |
| `Instants.SameDay` | src/modules/booking/services/booking.service.ts:116-134 | an appointment ending before minute 1440 ends on its start's UTC day, its stored end that many minutes later |
| `Instants.AppointmentRoundTrip` | src/jobs/queues/booking.queue.ts:81-89 | start and end are both recovered from one date exactly for whole-second starts |
| `Times.TimeRoundTrip` | src/modules/provider/services/provider-availability.service.ts:150-165 | printing minutes as a clock text and reading it back is the identity for every number of minutes, with two digits on both sides of the colon below 100 hours |
| `Times.HourMinuteBound` | src/modules/provider/dto/availability-interval.dto.ts:18-26 | every text the DTO pattern accepts reads as the minute of one day that its digits spell |
| `Currency.TwoDecimalExact` | src/common/utils/currency.util.ts:1-27 | for every Decimal(10,2) amount, parse, multiply by 100 and round, each in nearest binary64, gives exactly the hundredths |
| `Currency.ZeroDecimalExact` | src/common/utils/currency.util.ts:22-23 | in the zero-decimal case the result is the nearest whole amount, ties upward, because half units are binary64 numbers |
| `Currency.ConversionExact` | src/common/utils/currency.util.ts:1-27 | for every storable amount and currency the float conversion returns the exact number of smallest units, and nothing else |
| `Currency.NearestExists` | src/common/utils/currency.util.ts:5-10 | every number that is not negative has a nearest 53-bit number, so the conversion always has a result |
| `Currency.RelativeError` | src/common/utils/currency.util.ts:5-10 | rounding to nearest with 53 bits changes a number by at most one part in 2^53 |
| `Currency.UpperMeaning` | src/modules/payment/services/payment.service.ts:406-410 | comparing upper-cased codes ignores the case of letters and nothing else |
| `Availability.ValidateSchedules` | src/modules/provider/services/provider-availability.service.ts:171-227 | accepts if and only if every row is non-empty and long enough and all pairs of rows of a weekday are disjoint; a refusal names rows at fault |
| `Availability.CheckRow` | src/modules/provider/services/provider-availability.service.ts:186-224 | a row that passes is well sized and clear of its successor; a row that fails shows that the day is not acceptable |
| `Availability.CheckSorted` | src/modules/provider/services/provider-availability.service.ts:185-225 | on sorted rows the neighbour loop decides disjointness of all pairs |
| `Availability.NeighboursSuffice` | src/modules/provider/services/provider-availability.service.ts:206-224 | sorted non-empty rows with disjoint neighbours are pairwise disjoint |
| `Availability.SortPermutes` | src/modules/provider/services/provider-availability.service.ts:180-183 | sorting by start keeps the rows with their multiplicities |
| `Availability.SortPairwise` | src/modules/provider/services/provider-availability.service.ts:180-183 | sorting does not change whether all pairs are disjoint |
| `Availability.GreedyIsOptimal` | src/modules/provider/services/provider-availability.service.ts:109-136 | the loop's slots fit the window with the buffer between them, and no placement that does has more |
| `Availability.SlotExists` | src/modules/provider/services/provider-availability.service.ts:115-135 | slot number k is generated whenever it still fits |
| `Availability.DaySlotsApart` | src/modules/provider/services/provider-availability.service.ts:109-136 | with disjoint windows, in any order, all slots of a day are pairwise disjoint |
| `Availability.DayExact` | src/modules/provider/services/provider-availability.service.ts:109-136 | a start is generated if and only if it is some window's start plus a whole number of slots with buffer, and its slot fits that window |
| `Availability.DayGreedyIsOptimal` | src/modules/provider/services/provider-availability.service.ts:109-136 | no placement over all windows of the day, with the buffer kept inside each window, has more slots |
| `Availability.DayGreedyPlaces` | src/modules/provider/services/provider-availability.service.ts:109-136 | with disjoint windows the generated starts are such a placement themselves |
| `Availability.WindowSlots` | src/modules/provider/services/provider-availability.service.ts:113-135 | the inner loop terminates and renders exactly the greedy starts |
| `Availability.MinRequired` | src/modules/provider/services/provider-availability.service.ts:39-50 | the least duration plus buffer over the active services, none if there are none |
| `Availability.Calendar.SetAvailability` | src/modules/provider/services/provider-availability.service.ts:31-65 | replaces the provider's rows exactly when they are acceptable, touches no other provider, and keeps every stored schedule disjoint |
| `Availability.Calendar.GenerateSlots` | src/modules/provider/services/provider-availability.service.ts:67-148 | refuses past days and missing or inactive services exactly then; otherwise the answered slots spell out, as date, two-digit clock and offset, the start and end of every start that fits an open window of that weekday and of no other, pairwise disjoint and as many as any placement over the day has |
| `Reviews.RatingRefinesReviews` | src/modules/review/repositories/review.repository.ts:111-137 | after every run, whichever floats the database answered, with the numbers of one to five star reviews of the provider, `totalReviews` is their total and `averageRating` a hundredth closest to their mean, within 1 and 5 when there are any; it is the mean rounded with ties upward if and only if the mean is not a tie whose float falls below it |
| `Ratings.PrintedAverage` | src/modules/review/repositories/review.repository.ts:123-137 | for up to 2^31-1 reviews, dividing to at least sixteen decimals, rounding to binary64 and printing two digits gives a result fixed by the ratings alone |
| `Ratings.TieSide` | src/modules/review/repositories/review.repository.ts:133-133 | for every tie from 1 to 5, a remainder modulo 25 decides on which side of it the nearest binary64 number lies |
| `Ratings.FloatMean` | src/modules/review/repositories/review.repository.ts:133-133 | for a float close to the mean, two printed digits give the rounded mean, one less exactly when the mean is a tie and the float fell below it |
| `Ratings.AnswerClose` | src/modules/review/repositories/review.repository.ts:111-121 | every float the service can receive is that close |
| `Ratings.FortyOneOverForty` | src/modules/review/repositories/review.repository.ts:133-133 | 41 stars in 40 reviews are stored as 1.02 although the mean is 1.025 |
| `Reviews.OneReviewPerBooking` | src/modules/review/services/review.service.ts:52-73 | after every run a booking has at most one review, by its customer for its provider, and is COMPLETED or CANCELLED |
| `Reviews.ReviewReachedInv` | src/modules/review/services/review.service.ts:33-215 | every execution of reviews mixed with protocol steps keeps reviews, bookings and statistics in agreement |
| `Reviews.ReviewNeverStuck` | src/modules/review/repositories/review.repository.ts:111-121 | for every valid review request the database has a mean to answer, so the step can always be taken |
| `Reviews.ReviewSavedExactly` | src/modules/review/services/review.service.ts:33-103 | a review is saved under exactly these conditions; the reviews then are the old ones and that row, the provider's count one more, and no other provider's statistics change; otherwise nothing changes, with the reason |
| `Reviews.ReviewEditedExactly` | src/modules/review/services/review.service.ts:139-213 | an edit succeeds if and only if the review exists and is the caller's; it sets exactly that row's rating, recalculates only that provider and only if the rating changed, and otherwise nothing changes |
| `Reviews.ReviewStepStores` | src/modules/review/services/review.service.ts:33-213 | on the whole ledger, creating or editing a review touches no booking or payment and stores exactly the rating given, or nothing when refused |
| `Reviews.ReviewDesk.Create` | src/modules/review/services/review.service.ts:33-121 | succeeds if and only if the booking exists, is the caller's and COMPLETED, has no review and the count still fits its column; adds exactly one review with that booking, caller, provider and the given rating, and rewrites that provider's statistics with `toFixed(2)` of the float the database answered |
| `Reviews.ReviewDesk.Update` | src/modules/review/services/review.service.ts:139-215 | new tables and reply are those of editing a review, recalculated the same way only if the rating changed |
| `Notifications.DeadBookingsStaySilent` | src/jobs/processors/notification.processor.ts:82-106 | once a booking is CANCELLED or EXPIRED, no continuation of the run mails a reminder for it, even if jobs are still queued |
| `Notifications.ScheduleExact` | src/jobs/queues/notification.queue.ts:82-206 | confirming queues the confirmation now and exactly those of the 24-hour and 2-hour reminders and the review request whose time is ahead, each at its instant with its own unsent row, and touches no other booking's jobs |
| `Notifications.ConfirmingSchedules` | src/jobs/queues/notification.queue.ts:82-206 | in every run the step that makes a booking CONFIRMED, by client or webhook, leaves its confirmation queued for now and each reminder and the review request queued exactly if still ahead, with an unsent row of its own |
| `Notifications.OtherStepsKeepMail` | src/jobs/queues/notification.queue.ts:82-232 | in every run a step that confirms no booking and is no customer's cancellation leaves notifications, queue and mails alone |
| `Notifications.CancellingSilences` | src/jobs/queues/notification.queue.ts:211-232 | after a customer's cancellation exactly the three cancellable jobs and the booking's unsent rows are gone |
| `Notifications.MailedExactly` | src/jobs/processors/notification.processor.ts:28-167 | a job is mailed if and only if it is due, its row is unsent, it is not a reminder of a CANCELLED or EXPIRED booking, and there is an address and delivery; exactly one mail is added and its row marked sent; without address or delivery the job stays queued |
| `Notifications.UnmailedRows` | src/jobs/processors/notification.processor.ts:40-117 | without a mail, a due reminder of a dead booking loses its own row, or another unsent one of its booking and type; a job to be retried keeps one; no other row changes |
| `Notifications.CancelUndoesSchedule` | src/jobs/queues/notification.queue.ts:211-232 | cancelling takes back every row and job of the confirmation's schedule except the confirmation job |
| `Notifications.MailedOnceOnTime` | src/jobs/queues/notification.queue.ts:82-206 | in every run no notification row is mailed twice, and reminders and review requests are not mailed before their time, counted from the recomposed start and end |
| `ReviewRequests.EarlyRequestExactly` | src/jobs/queues/notification.queue.ts:98-206 | for every accepted booking, some continuation mails its review request before an hour after the booked end, to the nearest second, if and only if that end falls in the last half second of its day |
| `Notifications.SystemReachedInv` | src/jobs/processors/notification.processor.ts:28-167 | every execution of protocol steps and notification jobs keeps mailed rows marked sent and jobs on time |
| `Notifications.NotificationDesk.ScheduleBookingLifecycle` | src/jobs/queues/notification.queue.ts:82-206 | stores and queues the confirmation and those reminders still ahead |
| `Notifications.NotificationDesk.CancelBookingReminders` | src/jobs/queues/notification.queue.ts:211-232 | removes the three queued jobs and the booking's unsent rows and nothing else |
| `Notifications.NotificationDesk.Work` | src/jobs/processors/notification.processor.ts:28-167 | finds or creates the row, skips sent ones, drops dead reminders, otherwise mails at most once |

## Left out

- Concurrency inside one call: outside `Race`, each service call is one atomic step. `verifyClientPayment`, `cancelBookingAsCustomer`, `completeBooking` and `refundPayment` read a status outside their transaction and then write unconditionally, so the run theorems assume that such calls are serialised.
- A crash between the gateway accepting a refund and the local transaction, and a failure of a queue call after its transaction committed.
- LatestPayment: takes creation order, so two payments of one booking created in the same millisecond are not left ambiguous as they are in the database.
- `createBooking` bound of 30 days: 30 times 24 hours after now, with no local calendar.
- Sub-second behaviour of the time column: taken from PostgreSQL, where `Time(0)` rounds to the nearest second and 24:00:00 is a value; `Instants.FractionIsLost` holds for every other choice of second.
- The currency a gateway order reports back: `createPaymentOrder` asks for INR and the model stores INR.
- Non-integer webhook amounts and the extraction of the event id from header or payload: the delivery carries the resulting values.
- Platform's handlers other than those in the table: each is proved equal to its step in `Protocol`, which `Platform.Perform` puts together.
- Signature checks, tokens, guards and HTTP plumbing: signature validity is a boolean input, and DTO bounds appear as `ValidOffering`, `ValidInterval` and the rating bounds.
- Retry counts, backoff and retention of queued jobs, the permanent-failure hook of notifications, and other notification types and channels.
- The notification lookup's row order: the model takes the oldest matching row, the source leaves the order open.
- Cancellation reasons, comments, actor ids, log texts and message texts.
- Redis caches: not every writer evicts them, so no agreement holds.
- That every generated slot can be booked: not true of the code, since slots carry a +05:30 label while booking checks UTC minutes and also needs the trailing buffer to fit.
- The order of slots across windows: windows are ordered by the text of their start, which single-digit hours put out of order.
- The database's AVG: any quotient within half a unit of its last of at least sixteen decimal digits, or the exact mean; a larger number of reviews than an `Int` column holds rolls the review back.
- `fromSmallestCurrencyUnit`, catalogue, profile, document, admin listing and dashboard operations: only easy members.
