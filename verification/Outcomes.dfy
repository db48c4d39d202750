/**
 What each operation answers and stores: exactly when it succeeds, the rows it then writes, and that
 everything else stays as it was. All is said about the rows themselves.
 */
module Outcomes {
  import opened Domain
  import opened Instants
  import opened Protocol
  import opened CaptureInvariant
  import opened Lifecycle
  import opened Executions
  import opened Guarantees
  import opened Causes

  // ---------------------------------------------------------------- bookings

  /** The row of a booking just made by `c` for the appointment from `startsAt` to `end`. */
  ghost predicate BookedFrom(row: Booking, c: UserId, o: Offering, startsAt: int, end: int, now: int) {
    && row.customerId == c && row.providerId == o.providerId && row.providerUserId == o.providerUserId
    && row.status == PendingPayment && row.bookedPrice == o.price && row.createdAt == now
    && !row.needsReview && row.overdueAt.None? && row.cancelledAt.None? && row.completedAt.None?
    && row.bookingDate % MS_PER_DAY == 0 && row.bookingDate <= startsAt < row.bookingDate + MS_PER_DAY
    && row.bookingDate + row.startTime * MS_PER_SECOND == NearestSecond(startsAt)
    && row.bookingDate + row.endTime * MS_PER_SECOND == NearestSecond(end)
  }

  /**
   A booking made adds one row with the customer, the provider and their user, the price and the appointment rounded
   to seconds, one open payment of that price in the offering's currency, and one expiry job fifteen minutes ahead.
   */
  lemma BookingStored(s: Db, c: UserId, o: Offering, startsAt: int, order: OrderId, now: int, t: Db, b: BookingId, p: PaymentId)
    requires Inv(s) && ValidOffering(o)
    requires Step(s, CreateBookingOp(c, Some(o), Some(startsAt), order, now)) == (t, BookingMade(b, p))
    ensures |t.bookings| == |s.bookings| + 1 && b == |s.bookings| && t.bookings[..b] == s.bookings
    ensures BookedFrom(t.bookings[b], c, o, startsAt, startsAt + o.durationMinutes * MS_PER_MINUTE, now)
    ensures p == |s.payments| && t.payments == s.payments +
      [Payment(b, order, None, o.price, if o.currency == "" then "INR" else o.currency, Created, None, None)]
    ensures t.jobs == s.jobs[ExpirePayment(b) := now + 15 * MS_PER_MINUTE]
    ensures t.audit == s.audit + [OnBooking(b, BookingCreated, None, PendingPayment, false)]
    ensures t.events == s.events && t.refunds == s.refunds
  {
    NewBookingInstants(c, o, startsAt, now);
    JobFact(s, ExpirePayment(b));
  }

  /** A refused request changes nothing, and says why. */
  lemma BookingRefused(s: Db, c: UserId, offering: Option<Offering>, startsAt: Option<int>, order: OrderId, now: int, t: Db, reply: Reply)
    requires PaymentsHaveBookings(s) && (t, reply) == Step(s, CreateBookingOp(c, offering, startsAt, order, now))
    requires offering.Some? ==> ValidOffering(offering.value)
    ensures reply.BookingMade? || (reply.Rejected? && t == s && reply.error in {NotFound, Forbidden, Conflict, BadRequest})
    ensures reply == Rejected(NotFound) <==> offering.None? || !offering.value.isActive
    ensures reply == Rejected(Forbidden) <==>
      offering.Some? && offering.value.isActive && offering.value.verified && !offering.value.userActive
    ensures reply == Rejected(Conflict) || reply.BookingMade? <==>
      && OnSale(offering) && startsAt.Some? && now <= startsAt.value <= now + 30 * MS_PER_DAY
      && ShiftFound(offering.value, startsAt.value)
  {
    if offering.Some? && startsAt.Some? {
      ShiftFoundMeaning(offering.value, startsAt.value);
    }
  }

  /** Row `b` alone is replaced. */
  ghost predicate OnlyBooking(s: Db, t: Db, b: BookingId, row: Booking) {
    && |t.bookings| == |s.bookings| && b < |s.bookings| && t.bookings[b] == row
    && forall i :: 0 <= i < |s.bookings| && i != b ==> t.bookings[i] == s.bookings[i]
  }

  /** Row `p` alone is replaced. */
  ghost predicate OnlyPayment(s: Db, t: Db, p: PaymentId, row: Payment) {
    && |t.payments| == |s.payments| && p < |s.payments| && t.payments[p] == row
    && forall i :: 0 <= i < |s.payments| && i != p ==> t.payments[i] == s.payments[i]
  }

  /** Everything queued in `s` but the keys in `gone` is queued in `t` for the same time, and nothing else. */
  ghost predicate OnlyLeave(s: Db, t: Db, gone: set<JobKey>) {
    && (forall key :: key in t.jobs <==> key in s.jobs && key !in gone)
    && (forall key :: key in t.jobs ==> t.jobs[key] == s.jobs[key])
  }

  /** Completing writes status and time and takes the overdue check off the queue, or changes nothing. */
  lemma CompleteWrites(s: Db, b: BookingId, userId: UserId, isAdmin: bool, now: int, t: Db, reply: Reply)
    requires PaymentsHaveBookings(s) && (t, reply) == Step(s, CompleteOp(b, userId, isAdmin, now))
    ensures reply == CompleteDone(b) <==>
      b < |s.bookings| && s.bookings[b].status == Confirmed && (userId == s.bookings[b].providerUserId || isAdmin)
    ensures reply == CompleteDone(b) ==>
      && OnlyBooking(s, t, b, s.bookings[b].(status := Completed, completedAt := Some(now)))
      && OnlyLeave(s, t, {OverdueCheck(b)})
      && t.audit == s.audit + [OnBooking(b, BookingCompleted, Some(Confirmed), Completed, false)]
      && t.payments == s.payments && t.events == s.events && t.refunds == s.refunds
    ensures reply != CompleteDone(b) ==>
      && t == s
      && reply == Rejected(if b >= |s.bookings| then NotFound
                           else if userId != s.bookings[b].providerUserId && !isAdmin then Forbidden else BadRequest)
  {
  }

  /** In every continuation exactly the user of the provider booked, or an admin, can complete the booking while it is CONFIRMED. */
  lemma CompletionPolicy(s: Db, c: UserId, o: Offering, startsAt: int, order: OrderId, now: int, t: Db,
                         userId: UserId, isAdmin: bool, later: int)
    requires Reached(s) && ValidOffering(o) && CreateBooking(s, c, Some(o), Some(startsAt), order, now).1.BookingMade?
    requires Reaches(CreateBooking(s, c, Some(o), Some(startsAt), order, now).0, t, Leads)
    ensures |s.bookings| < |t.bookings|
    ensures CompleteBooking(t, |s.bookings|, userId, isAdmin, later).1 == CompleteDone(|s.bookings|) <==>
      t.bookings[|s.bookings|].status == Confirmed && (userId == o.providerUserId || isAdmin)
  {
    CreatedSurvives(s, c, o, startsAt, order, now, t);
  }

  /** What cancelling as a customer writes; `Guarantees.CancellationPolicy` says when it succeeds. */
  lemma CancelWrites(s: Db, b: BookingId, c: UserId, now: int, t: Db, reply: Reply)
    requires PaymentsHaveBookings(s) && (t, reply) == Step(s, CancelOp(b, c, now))
    ensures reply == CancelDone(b) ==>
      && b < |s.bookings|
      && OnlyBooking(s, t, b, s.bookings[b].(status := Cancelled, cancelledAt := Some(now)))
      && OnlyLeave(s, t, {ExpirePayment(b), OverdueCheck(b)})
      && t.audit == s.audit + [OnBooking(b, BookingCancelled, Some(s.bookings[b].status), Cancelled, false)]
      && t.payments == s.payments && t.events == s.events && t.refunds == s.refunds
    ensures reply != CancelDone(b) ==>
      && t == s
      && reply == Rejected(if b >= |s.bookings| || s.bookings[b].customerId != c then NotFound
                           else if s.bookings[b].status in {PendingPayment, Confirmed} then Conflict else BadRequest)
  {
  }

  // ---------------------------------------------------------------- due jobs

  /**
   The expiry job expires its booking exactly if that is still unpaid fifteen minutes after it was made. Its open
   payment then is FAILED; no other booking, payment or job changes.
   */
  lemma ExpiryExactly(s: Db, b: BookingId, now: int, t: Db, reply: Reply)
    requires Inv(s) && (t, reply) == Step(s, RunJobOp(ExpirePayment(b), now))
    ensures reply == ExpireDone(b) <==>
      b < |s.bookings| && s.bookings[b].status == PendingPayment && s.bookings[b].createdAt + 15 * MS_PER_MINUTE <= now
    ensures reply == ExpireDone(b) ==>
      && b < |s.bookings| && OnlyBooking(s, t, b, s.bookings[b].(status := Expired))
      && |t.payments| == |s.payments|
      && (forall i :: 0 <= i < |s.payments| ==>
            var row := s.payments[i];
            t.payments[i] == if row.bookingId == b && row.status == Created then row.(status := Failed) else row)
      && OnlyLeave(s, t, {ExpirePayment(b)})
      && t.audit == s.audit + [OnBooking(b, BookingCancelled, Some(PendingPayment), Expired, false)]
      && t.events == s.events && t.refunds == s.refunds
    ensures reply != ExpireDone(b) ==> t == s && reply == Skipped
  {
    JobFact(s, ExpirePayment(b));
    forall i | 0 <= i < |s.payments| ensures s.payments[i].status != Pending {
      assert PaymentRow(s.bookings, s.payments[i]);
    }
  }

  /** The overdue check flags its booking exactly if that is CONFIRMED and not flagged two hours after its end. */
  lemma OverdueExactly(s: Db, b: BookingId, now: int, t: Db, reply: Reply)
    requires Inv(s) && OverdueCheck(b) in s.jobs && (t, reply) == Step(s, RunJobOp(OverdueCheck(b), now))
    ensures b < |s.bookings|
    ensures reply == FlagDone(b) <==>
      s.bookings[b].status == Confirmed && !s.bookings[b].needsReview && EndOf(s.bookings[b]) + 2 * MS_PER_HOUR <= now
    ensures reply == FlagDone(b) ==>
      && OnlyBooking(s, t, b, s.bookings[b].(needsReview := true, overdueAt := Some(now)))
      && t.audit == s.audit + [OnBooking(b, BookingFlaggedOverdue, Some(Confirmed), Confirmed, false)]
    ensures reply != FlagDone(b) ==> reply == Skipped && t.bookings == s.bookings && t.audit == s.audit
    ensures OnlyLeave(s, t, if EndOf(s.bookings[b]) + 2 * MS_PER_HOUR <= now then {OverdueCheck(b)} else {})
    ensures t.payments == s.payments && t.events == s.events && t.refunds == s.refunds
  {
    JobFact(s, OverdueCheck(b));
    FlagWrites(s, b, now, t, reply, EndOf(s.bookings[b]) + 2 * MS_PER_HOUR);
  }

  lemma FlagWrites(s: Db, b: BookingId, now: int, t: Db, reply: Reply, due: int)
    requires PaymentsHaveBookings(s) && b < |s.bookings| && OverdueCheck(b) in s.jobs && s.jobs[OverdueCheck(b)] == due
    requires (t, reply) == Step(s, RunJobOp(OverdueCheck(b), now))
    ensures reply == if s.bookings[b].status == Confirmed && !s.bookings[b].needsReview && due <= now then FlagDone(b) else Skipped
    ensures reply == FlagDone(b) ==>
      && OnlyBooking(s, t, b, s.bookings[b].(needsReview := true, overdueAt := Some(now)))
      && t.audit == s.audit + [OnBooking(b, BookingFlaggedOverdue, Some(Confirmed), Confirmed, false)]
    ensures reply == Skipped ==> t.bookings == s.bookings && t.audit == s.audit
    ensures OnlyLeave(s, t, if due <= now then {OverdueCheck(b)} else {})
    ensures t.payments == s.payments && t.events == s.events && t.refunds == s.refunds
  {
  }

  // ---------------------------------------------------------------- payment orders

  /** Payment `p` of the booking waits to be paid. */
  ghost predicate OpenPayment(s: Db, b: BookingId, p: PaymentId) {
    p < |s.payments| && s.payments[p].bookingId == b && s.payments[p].status == Created
  }

  /** An open payment is the newest of its booking. */
  lemma {:induction false} OpenIsLatest(s: Db, b: BookingId, p: PaymentId)
    requires ConsistentDb(s) && OpenPayment(s, b, p)
    ensures LatestPayment(s.payments, b) == Some(p)
  {
    forall i | p < i < |s.payments| ensures s.payments[i].bookingId != b {
      assert PaymentPair(s.payments[p], s.payments[i]);
    }
  }

  /**
   An order is returned exactly to the customer of an unpaid booking that has an open payment, or else if the gateway
   order is new: that open payment, or one added for the booked price in rupees. Any other request changes nothing.
   */
  lemma OrderReturnedExactly(s: Db, c: UserId, b: BookingId, order: OrderId, t: Db, reply: Reply)
    requires ConsistentDb(s) && (t, reply) == Step(s, CreateOrderOp(c, b, order))
    ensures reply.OrderReturned? <==>
      && b < |s.bookings| && s.bookings[b].customerId == c && s.bookings[b].status == PendingPayment
      && ((exists p :: OpenPayment(s, b, p)) || !OrderUsed(s, order))
    ensures reply.OrderReturned? && (exists p :: OpenPayment(s, b, p)) ==> t == s && OpenPayment(s, b, reply.paymentId)
    ensures reply.OrderReturned? && !(exists p :: OpenPayment(s, b, p)) ==>
      && b < |s.bookings| && reply.paymentId == |s.payments|
      && t == s.(payments := s.payments + [Payment(b, order, None, s.bookings[b].bookedPrice, "INR", Created, None, None)])
    ensures !reply.OrderReturned? ==>
      && t == s
      && reply == Rejected(if b >= |s.bookings| then NotFound else if s.bookings[b].customerId != c then Forbidden
                           else if s.bookings[b].status != PendingPayment then BadRequest else UniqueViolation)
  {
    OrderUsedMeaning(s, order);
    var latest := LatestPayment(s.payments, b);
    if latest.Some? && s.payments[latest.value].status == Created {
      assert OpenPayment(s, b, latest.value);
    } else if p :| OpenPayment(s, b, p) {
      OpenIsLatest(s, b, p);
      assert false;
    }
  }

  // ---------------------------------------------------------------- captures

  /** Payment `p` was paid at `now` under gateway id `g` if there is one; no other payment changed. */
  ghost predicate OnlyPaid(s: Db, t: Db, p: PaymentId, g: Option<GatewayPaymentId>, now: int) {
    && p < |s.payments|
    && OnlyPayment(s, t, p, s.payments[p].(status := Success, paidAt := Some(now),
                                           gatewayPaymentId := if g.Some? then g else s.payments[p].gatewayPaymentId))
  }

  /** The expiry job is gone and the overdue check is queued for two hours after the end if that is ahead. */
  ghost predicate ConfirmedQueue(s: Db, t: Db, b: BookingId, row: Booking, now: int) {
    var check := EndOf(row) + 2 * MS_PER_HOUR;
    && (forall key :: key != OverdueCheck(b) ==> (key in t.jobs <==> key in s.jobs && key != ExpirePayment(b)))
    && (forall key :: key != OverdueCheck(b) && key in t.jobs ==> t.jobs[key] == s.jobs[key])
    && (OverdueCheck(b) in t.jobs <==> now < check)
    && (now < check ==> t.jobs[OverdueCheck(b)] == check)
  }

  lemma ConfirmedQueued(s: Db, t: Db, b: BookingId, now: int)
    requires JobsOk(s) && b < |s.bookings| && s.bookings[b].status == PendingPayment
    requires t.jobs == ConfirmJobs(s.jobs, b, s.bookings[b], now)
    ensures ConfirmedQueue(s, t, b, s.bookings[b], now)
  {
    JobFact(s, OverdueCheck(b));
  }

  /**
   The customer's verification of payment `p` succeeds exactly with a valid signature, while booking and payment wait
   to be paid and the gateway payment id is free: both rows then change and the queue follows. A repetition after
   success is answered as already verified; nothing else changes anything.
   */
  lemma VerifyExactly(s: Db, p: PaymentId, c: UserId, g: GatewayPaymentId, valid: bool, now: int, t: Db, reply: Reply)
    requires Inv(s) && p < |s.payments| && s.payments[p].bookingId < |s.bookings|
    requires (t, reply) == Step(s, VerifyOp(c, s.payments[p].gatewayOrderId, g, valid, now))
    ensures var row, b := s.payments[p], s.payments[p].bookingId;
      var customer := valid && s.bookings[b].customerId == c;
      && (reply == PaymentVerified(b) <==>
            customer && s.bookings[b].status == PendingPayment && row.status == Created && !IdInUse(s.payments, p, Some(g)))
      && (reply == PaymentVerified(b) ==>
            && OnlyPaid(s, t, p, Some(g), now)
            && OnlyBooking(s, t, b, s.bookings[b].(status := Confirmed))
            && ConfirmedQueue(s, t, b, s.bookings[b], now)
            && t.audit == s.audit + [OnPayment(p, PaymentSucceeded, Success),
                                     OnBooking(b, BookingConfirmed, Some(PendingPayment), Confirmed, false)]
            && t.events == s.events && t.refunds == s.refunds)
      && (reply != PaymentVerified(b) ==> t == s)
      && (reply == AlreadyVerified(b) <==> customer && s.bookings[b].status == Confirmed && row.status == Success)
      && reply in {PaymentVerified(b), AlreadyVerified(b), Rejected(Forbidden), Rejected(BadRequest), Rejected(UniqueViolation)}
      && (reply == Rejected(Forbidden) <==> s.bookings[b].customerId != c)
      && (reply == Rejected(UniqueViolation) <==>
            customer && s.bookings[b].status == PendingPayment && row.status == Created && IdInUse(s.payments, p, Some(g)))
  {
    var b := s.payments[p].bookingId;
    assert PaymentRow(s.bookings, s.payments[p]);
    FindsOwn(s.payments, p);
    if reply == PaymentVerified(b) {
      VerifyWrites(s, p, c, g, now, t, b);
    }
  }

  lemma VerifyWrites(s: Db, p: PaymentId, c: UserId, g: GatewayPaymentId, now: int, t: Db, b: BookingId)
    requires PaymentsHaveBookings(s) && JobsOk(s) && p < |s.payments| && b == s.payments[p].bookingId
    requires FindByOrder(s.payments, s.payments[p].gatewayOrderId) == Some(p)
    requires (t, PaymentVerified(b)) == VerifyClientPayment(s, c, s.payments[p].gatewayOrderId, g, true, now)
    ensures b < |s.bookings|
    ensures OnlyPaid(s, t, p, Some(g), now) && OnlyBooking(s, t, b, s.bookings[b].(status := Confirmed))
    ensures ConfirmedQueue(s, t, b, s.bookings[b], now)
    ensures t.audit == s.audit + [OnPayment(p, PaymentSucceeded, Success),
                                  OnBooking(b, BookingConfirmed, Some(PendingPayment), Confirmed, false)]
    ensures t.events == s.events && t.refunds == s.refunds
  {
    ConfirmedQueued(s, t, b, now);
  }

  /** An unknown order is not found. */
  lemma VerifyUnknown(s: Db, c: UserId, order: OrderId, g: GatewayPaymentId, valid: bool, now: int)
    requires PaymentsHaveBookings(s) && !OrderUsed(s, order)
    ensures VerifyClientPayment(s, c, order, g, valid, now) == (s, Rejected(NotFound))
  {
    OrderUsedMeaning(s, order);
  }

  // ---------------------------------------------------------------- webhook deliveries

  /** An authentic delivery under a new event id for payment `p`. */
  ghost predicate FreshFor(s: Db, d: Delivery, p: PaymentId) {
    && d.signatureValid && d.parses && d.eventId !in s.events
    && p < |s.payments| && d.orderId == Some(s.payments[p].gatewayOrderId)
  }

  /** The event is stored as processed. */
  ghost predicate Stored(s: Db, t: Db, d: Delivery, now: int) {
    t.events == s.events[d.eventId := WebhookEvent(Some(now))]
  }

  /** A fresh capture that is taken pays its payment and confirms a pending booking, or else asks for a refund. */
  lemma CaptureTaken(s: Db, p: PaymentId, d: Delivery, now: int, t: Db, reply: Reply)
    requires Inv(s) && FreshFor(s, d, p) && d.kind in {PaymentCaptured, OrderPaid} && s.payments[p].bookingId < |s.bookings|
    requires (t, reply) == Step(s, WebhookOp(d, now)) && p < |t.payments| && t.payments[p] != s.payments[p]
    ensures var b := s.payments[p].bookingId;
      var before := s.bookings[b].status;
      && Stored(s, t, d, now) && OnlyPaid(s, t, p, d.gatewayPaymentId, now) && t.refunds == s.refunds
      && (before == PendingPayment ==>
            && reply == WebhookProcessed(Some(b))
            && OnlyBooking(s, t, b, s.bookings[b].(status := Confirmed))
            && ConfirmedQueue(s, t, b, s.bookings[b], now)
            && t.audit == s.audit + [OnBooking(b, BookingConfirmed, Some(PendingPayment), Confirmed, false),
                                     OnPayment(p, PaymentSucceeded, Success)])
      && (before != PendingPayment ==>
            && reply == WebhookProcessed(None) && t.bookings == s.bookings && t.jobs == s.jobs
            && t.audit == s.audit + [OnBooking(b, PaymentSucceeded, Some(before), before, true),
                                     OnPayment(p, PaymentSucceeded, Success)])
  {
    var b := s.payments[p].bookingId;
    FindsOwn(s.payments, p);
    if s.bookings[b].status == PendingPayment {
      ConfirmedQueued(s, t, b, now);
    }
  }

  /** A fresh failure with a free id leaves the payment FAILED; one whose id is in use changes nothing at all. */
  lemma FailureTaken(s: Db, p: PaymentId, d: Delivery, now: int, t: Db, reply: Reply)
    requires Inv(s) && FreshFor(s, d, p) && d.kind == PaymentFailedEvent
    requires (t, reply) == Step(s, WebhookOp(d, now))
    ensures var row := s.payments[p];
      var g := if d.gatewayPaymentId.Some? then d.gatewayPaymentId else row.gatewayPaymentId;
      && (row.status == Failed ==> reply == WebhookProcessed(None) && Stored(s, t, d, now) && SameButEvents(s, t))
      && (row.status != Failed && IdInUse(s.payments, p, d.gatewayPaymentId) ==> (t, reply) == (s, WebhookAlreadyProcessed))
      && (row.status != Failed && !IdInUse(s.payments, p, d.gatewayPaymentId) ==>
            && reply == WebhookProcessed(None) && Stored(s, t, d, now)
            && OnlyPayment(s, t, p, row.(status := Failed, gatewayPaymentId := g))
            && t.bookings == s.bookings && t.audit == s.audit + [OnPayment(p, PaymentRejected, Failed)]
            && t.jobs == s.jobs && t.refunds == s.refunds)
  {
    FindsOwn(s.payments, p);
  }

  /** A fresh refund event leaves the payment REFUNDED and everything else but the events as it was. */
  lemma RefundTaken(s: Db, p: PaymentId, d: Delivery, now: int, t: Db, reply: Reply)
    requires Inv(s) && FreshFor(s, d, p) && d.kind in {RefundProcessed, PaymentRefundedEvent}
    requires (t, reply) == Step(s, WebhookOp(d, now))
    ensures reply == WebhookProcessed(None) && Stored(s, t, d, now)
    ensures var row := s.payments[p];
      && OnlyPayment(s, t, p, if row.status == Refunded then row else row.(status := Refunded, refundedAt := Some(now)))
      && t.bookings == s.bookings && t.audit == s.audit && t.jobs == s.jobs && t.refunds == s.refunds
  {
    FindsOwn(s.payments, p);
  }

  /** A fresh event of any other kind, or without a known order, is only stored. */
  lemma OthersOnlyStored(s: Db, d: Delivery, now: int, t: Db, reply: Reply)
    requires PaymentsHaveBookings(s) && d.signatureValid && d.parses && d.eventId !in s.events
    requires d.kind == OtherEvent || d.orderId.None? || !OrderUsed(s, d.orderId.value)
    requires (t, reply) == Step(s, WebhookOp(d, now))
    ensures Stored(s, t, d, now) && SameButEvents(s, t)
    ensures reply == if d.orderId.Some? && OrderUsed(s, d.orderId.value) then WebhookProcessed(None) else WebhookIgnored
  {
    if d.orderId.Some? {
      OrderUsedMeaning(s, d.orderId.value);
    }
  }

  // ---------------------------------------------------------------- refunds

  /** The payment is SUCCESS with a gateway payment id, and the request is absent or at most the captured amount. */
  ghost predicate Refundable(s: Db, p: PaymentId, requested: Option<real>) {
    && p < |s.payments| && s.payments[p].status == Success && s.payments[p].gatewayPaymentId.Some?
    && (requested.Some? ==> 0.0 < requested.value <= s.payments[p].amount as real / 100.0)
  }

  /** A refund is granted exactly for a refundable payment, up to and including all of it; otherwise nothing changes. */
  lemma RefundGrantedExactly(s: Db, p: PaymentId, requested: Option<real>, now: int, t: Db, reply: Reply)
    requires PaymentsHaveBookings(s) && (t, reply) == Step(s, RefundOp(p, requested, now))
    ensures reply == RefundDone(p) <==> Refundable(s, p, requested)
    ensures Refundable(s, p, requested) ==>
      var row, b := s.payments[p], s.payments[p].bookingId;
      && t.refunds == s.refunds + [Refund(p, if requested.Some? then requested.value else row.amount as real / 100.0)]
      && OnlyPayment(s, t, p, row.(status := Refunded, refundedAt := Some(now)))
      && b < |s.bookings|
      && OnlyBooking(s, t, b, if s.bookings[b].status == Cancelled then s.bookings[b]
                              else s.bookings[b].(status := Cancelled, cancelledAt := Some(now)))
      && t.audit == s.audit + [OnPayment(p, PaymentReturned, Refunded)] && t.jobs == s.jobs && t.events == s.events
    ensures !Refundable(s, p, requested) ==>
      (t, reply) == (s, Rejected(if p < |s.payments| then BadRequest else NotFound))
  {
  }
}
