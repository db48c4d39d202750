/**
 The services as code that updates the stored tables and the queue in place.

 Each method performs the source's reads, guards and writes in order. Its contract says that the new
 tables and the reply are those of the corresponding step of `Protocol`, so every guarantee about runs
 of steps holds of any sequence of calls.
 */
module PlatformService {
  import opened Domain
  import opened Instants
  import opened Protocol
  import opened Guarantees
  import opened Executions
  import Currency

  /** The business branch neither reads nor writes the events table. */
  lemma EventsDoNotMatter(s: Db, events: map<EventId, WebhookEvent>, p: PaymentId, d: Delivery, now: int)
    requires PaymentsHaveBookings(s) && p < |s.payments|
    ensures ApplyEvent(s.(events := events), p, d, now).1 == ApplyEvent(s, p, d, now).1
    ensures ApplyEvent(s.(events := events), p, d, now).0 == ApplyEvent(s, p, d, now).0.(events := events)
    ensures ApplyEvent(s, p, d, now).0.events == s.events
  {
  }

  class Platform {
    var bookings: seq<Booking>
    var payments: seq<Payment>
    var events: map<EventId, WebhookEvent>
    var audit: seq<AuditEntry>
    var jobs: map<JobKey, int>
    var refunds: seq<Refund>

    ghost function State(): Db
      reads this
    {
      Db(bookings, payments, events, audit, jobs, refunds)
    }

    /** The tables are reached by steps of the protocol, so every guarantee about reached states applies to them. */
    ghost predicate Valid()
      reads this
    {
      PaymentsHaveBookings(State()) && Reached(State())
    }

    constructor ()
      ensures Valid() && State() == EmptyDb
    {
      bookings, payments, events, audit, jobs, refunds := [], [], map[], [], map[], [];
      new;
      ReachesSelf<Db, Op>(EmptyDb, Leads);
    }

    // -------------------------------------------------------------- repositories and queue

    method FindLatestPayment(b: BookingId) returns (r: Option<PaymentId>)
      ensures r == LatestPayment(payments, b)
    {
      var i := |payments|;
      assert payments[..i] == payments;
      while i > 0
        invariant 0 <= i <= |payments|
        invariant LatestPayment(payments, b) == LatestPayment(payments[..i], b)
      {
        assert payments[..i][..i - 1] == payments[..i - 1];
        i := i - 1;
        if payments[i].bookingId == b {
          return Some(i);
        }
      }
      return None;
    }

    method FindPaymentByOrder(orderId: OrderId) returns (r: Option<PaymentId>)
      ensures r == FindByOrder(payments, orderId)
    {
      var i := |payments|;
      assert payments[..i] == payments;
      while i > 0
        invariant 0 <= i <= |payments|
        invariant FindByOrder(payments, orderId) == FindByOrder(payments[..i], orderId)
      {
        assert payments[..i][..i - 1] == payments[..i - 1];
        i := i - 1;
        if payments[i].gatewayOrderId == orderId {
          return Some(i);
        }
      }
      return None;
    }

    /** `bookingRepository.updateStatus`. */
    method UpdateBookingStatus(b: BookingId, status: BookingStatus, now: int)
      requires b < |bookings|
      modifies this`bookings
      ensures bookings == SetBookingStatus(old(bookings), b, status, now)
    {
      var row := bookings[b].(status := status);
      if status == Cancelled {
        row := row.(cancelledAt := Some(now));
      }
      bookings := bookings[b := row];
    }

    /** `paymentRepository.updateStatus`: only the details that are present are written. */
    method UpdatePaymentStatus(p: PaymentId, status: PaymentStatus, g: Option<GatewayPaymentId>,
                               paidAt: Option<int>, refundedAt: Option<int>)
      requires p < |payments|
      modifies this`payments
      ensures payments == old(payments)[p := old(payments)[p].(
        status := status,
        gatewayPaymentId := if g.Some? then g else old(payments)[p].gatewayPaymentId,
        paidAt := if paidAt.Some? then paidAt else old(payments)[p].paidAt,
        refundedAt := if refundedAt.Some? then refundedAt else old(payments)[p].refundedAt)]
    {
      var row := payments[p].(status := status);
      if g.Some? {
        row := row.(gatewayPaymentId := g);
      }
      if paidAt.Some? {
        row := row.(paidAt := paidAt);
      }
      if refundedAt.Some? {
        row := row.(refundedAt := refundedAt);
      }
      payments := payments[p := row];
    }

    /** `paymentRepository.updateMany` as the expiry uses it. */
    method FailUnpaidPayments(b: BookingId) returns (count: nat)
      modifies this`payments
      ensures payments == FailUnpaid(old(payments), b)
      ensures count == 0 ==> payments == old(payments)
    {
      count := 0;
      var i := 0;
      while i < |payments|
        invariant 0 <= i <= |payments| == |old(payments)|
        invariant payments[..i] == FailUnpaid(old(payments), b)[..i]
        invariant payments[i..] == old(payments)[i..]
        invariant count == 0 ==> payments == old(payments)
      {
        assert payments[i] == old(payments)[i];
        if payments[i].bookingId == b && payments[i].status in {Created, Pending} {
          payments := payments[i := payments[i].(status := Failed)];
          count := count + 1;
        }
        i := i + 1;
      }
    }

    method AddToQueue(key: JobKey, due: int)
      modifies this`jobs
      ensures jobs == AddJob(old(jobs), key, due)
    {
      if key !in jobs {
        jobs := jobs[key := due];
      }
    }

    method CancelJob(key: JobKey) returns (removed: bool)
      modifies this`jobs
      ensures jobs == old(jobs) - {key}
      ensures removed <==> key in old(jobs)
    {
      removed := key in jobs;
      if removed {
        jobs := jobs - {key};
      }
    }

    method ScheduleBookingOverdueCheck(b: BookingId, now: int)
      requires b < |bookings|
      modifies this`jobs
      ensures jobs == if EndOf(bookings[b]) + OVERDUE_GRACE > now
                      then AddJob(old(jobs), OverdueCheck(b), EndOf(bookings[b]) + OVERDUE_GRACE) else old(jobs)
    {
      var delay := EndOf(bookings[b]) + OVERDUE_GRACE - now;
      if delay > 0 {
        AddToQueue(OverdueCheck(b), now + delay);
      }
    }

    // -------------------------------------------------------------- booking service

    method MakeBooking(customerId: UserId, offering: Option<Offering>, startsAt: Option<int>, orderId: OrderId,
                       now: int)
      returns (reply: Reply)
      modifies this`bookings, this`payments, this`audit, this`jobs
      ensures (State(), reply) == CreateBooking(old(State()), customerId, offering, startsAt, orderId, now)
    {
      if offering.None? || !offering.value.isActive {
        return Rejected(NotFound);
      }
      var o := offering.value;
      if !o.verified {
        return Rejected(BadRequest);
      }
      if !o.userActive {
        return Rejected(Forbidden);
      }
      if startsAt.None? || startsAt.value < now || startsAt.value > now + MAX_ADVANCE {
        return Rejected(BadRequest);
      }
      var start := startsAt.value;
      if !OpenOn(o, start) || !FitsShift(o, start) {
        return Rejected(BadRequest);
      }
      var b := |bookings|;
      var row := NewBooking(customerId, o, start, now);
      var clash := FindPaymentByOrder(orderId);
      if ExclusionViolated(bookings, row) || clash.Some? {
        return Rejected(Conflict);
      }
      bookings := bookings + [row];
      payments := payments + [NewPayment(b, orderId, o.price, CurrencyOr(o.currency))];
      audit := audit + [OnBooking(b, BookingCreated, None, PendingPayment, false)];
      AddToQueue(ExpirePayment(b), now + PAYMENT_WINDOW);
      return BookingMade(b, |payments| - 1);
    }

    method CancelBookingAsCustomer(b: BookingId, customerId: UserId, now: int) returns (reply: Reply)
      modifies this`bookings, this`audit, this`jobs
      ensures (State(), reply) == CancelBooking(old(State()), b, customerId, now)
    {
      if b >= |bookings| || bookings[b].customerId != customerId {
        return Rejected(NotFound);
      }
      var status := bookings[b].status;
      if !CanTransitionBooking(status, Cancelled) {
        return Rejected(BadRequest);
      }
      if now >= StartOf(bookings[b]) - CANCELLATION_NOTICE {
        return Rejected(Conflict);
      }
      UpdateBookingStatus(b, Cancelled, now);
      audit := audit + [OnBooking(b, BookingCancelled, Some(status), Cancelled, false)];
      var _ := CancelJob(ExpirePayment(b));
      var _ := CancelJob(OverdueCheck(b));
      assert jobs == old(jobs) - {ExpirePayment(b), OverdueCheck(b)};
      return CancelDone(b);
    }

    method Complete(b: BookingId, userId: UserId, isAdmin: bool, now: int) returns (reply: Reply)
      modifies this`bookings, this`audit, this`jobs
      ensures (State(), reply) == CompleteBooking(old(State()), b, userId, isAdmin, now)
    {
      if b >= |bookings| {
        return Rejected(NotFound);
      }
      var isProvider := bookings[b].providerUserId == userId;
      if !isProvider && !isAdmin {
        return Rejected(Forbidden);
      }
      var status := bookings[b].status;
      if !CanTransitionBooking(status, Completed) {
        return Rejected(BadRequest);
      }
      bookings := bookings[b := bookings[b].(status := Completed, completedAt := Some(now))];
      audit := audit + [OnBooking(b, BookingCompleted, Some(status), Completed, false)];
      var _ := CancelJob(OverdueCheck(b));
      return CompleteDone(b);
    }

    method Expire(b: BookingId) returns (reply: Reply)
      modifies this`bookings, this`payments, this`audit
      ensures (State(), reply) == ExpireBooking(old(State()), b)
    {
      if b >= |bookings| || bookings[b].status != PendingPayment {
        return Skipped;
      }
      bookings := bookings[b := bookings[b].(status := BookingStatus.Expired)];
      var _ := FailUnpaidPayments(b);
      audit := audit + [OnBooking(b, BookingCancelled, Some(PendingPayment), BookingStatus.Expired, false)];
      return ExpireDone(b);
    }

    method FlagOverdue(b: BookingId, now: int) returns (reply: Reply)
      modifies this`bookings, this`audit
      ensures (State(), reply) == FlagOverdueBooking(old(State()), b, now)
    {
      if b >= |bookings| || bookings[b].status != Confirmed {
        return Skipped;
      }
      if bookings[b].needsReview {
        return Skipped;
      }
      bookings := bookings[b := bookings[b].(needsReview := true, overdueAt := Some(now))];
      audit := audit + [OnBooking(b, BookingFlaggedOverdue, Some(Confirmed), Confirmed, false)];
      return FlagDone(b);
    }

    /** `BookingProcessor.process`: dispatch a due job, which then leaves the queue. */
    method Process(key: JobKey, now: int) returns (reply: Reply)
      modifies this`bookings, this`payments, this`audit, this`jobs
      ensures (State(), reply) == RunJob(old(State()), key, now)
    {
      if key !in jobs || now < jobs[key] {
        return Skipped;
      }
      match key {
        case ExpirePayment(b) => reply := Expire(b);
        case OverdueCheck(b) => reply := FlagOverdue(b, now);
      }
      var _ := CancelJob(key);
    }

    // -------------------------------------------------------------- payment service

    method MakePaymentOrder(customerId: UserId, b: BookingId, orderId: OrderId) returns (reply: Reply)
      modifies this`payments
      ensures (State(), reply) == CreatePaymentOrder(old(State()), customerId, b, orderId)
    {
      if b >= |bookings| {
        return Rejected(NotFound);
      }
      if bookings[b].customerId != customerId {
        return Rejected(Forbidden);
      }
      if bookings[b].status != PendingPayment {
        return Rejected(BadRequest);
      }
      var existing := FindLatestPayment(b);
      if existing.Some? && payments[existing.value].status == Created {
        return OrderReturned(existing.value);
      }
      var clash := FindPaymentByOrder(orderId);
      if clash.Some? {
        return Rejected(UniqueViolation);
      }
      payments := payments + [NewPayment(b, orderId, bookings[b].bookedPrice, "INR")];
      return OrderReturned(|payments| - 1);
    }

    method Verify(customerId: UserId, orderId: OrderId, g: GatewayPaymentId, signatureValid: bool, now: int)
      returns (reply: Reply)
      requires PaymentsHaveBookings(State())
      modifies this`bookings, this`payments, this`audit, this`jobs
      ensures (State(), reply) == VerifyClientPayment(old(State()), customerId, orderId, g, signatureValid, now)
    {
      var found := FindPaymentByOrder(orderId);
      if found.None? {
        return Rejected(NotFound);
      }
      var p := found.value;
      var payment := payments[p];
      var b := payment.bookingId;
      if bookings[b].customerId != customerId {
        return Rejected(Forbidden);
      }
      if !signatureValid {
        return Rejected(BadRequest);
      }
      if payment.status == Success && bookings[b].status == Confirmed {
        return AlreadyVerified(b);
      }
      if bookings[b].status != PendingPayment {
        return Rejected(BadRequest);
      }
      if !CanTransitionPayment(payment.status, Success) {
        return Rejected(BadRequest);
      }
      if GatewayIdTaken(payments, p, Some(g)) {
        return Rejected(UniqueViolation);
      }
      UpdatePaymentStatus(p, Success, Some(g), Some(now), None);
      UpdateBookingStatus(b, Confirmed, now);
      audit := audit + [OnPayment(p, PaymentSucceeded, Success)];
      audit := audit + [OnBooking(b, BookingConfirmed, Some(PendingPayment), Confirmed, false)];
      RescheduleJobs(b, now);
      assert audit == old(audit) + [OnPayment(p, PaymentSucceeded, Success),
                                    OnBooking(b, BookingConfirmed, Some(PendingPayment), Confirmed, false)];
      assert jobs == ConfirmJobs(old(jobs), b, old(bookings)[b], now);
      return PaymentVerified(b);
    }

    /** The `payment.captured` and `order.paid` branch, inside the webhook transaction. */
    method Capture(p: PaymentId, d: Delivery, now: int) returns (confirmed: Option<BookingId>)
      requires PaymentsHaveBookings(State()) && p < |payments| && IsCapture(d.kind)
      modifies this`bookings, this`payments, this`audit
      ensures var (t, c) := ApplyEvent(old(State()), p, d, now);
        && confirmed == c && bookings == t.bookings && payments == t.payments && audit == t.audit
    {
      confirmed := None;
      var payment := payments[p];
      if payment.status == Success {
        return;
      }
      if !CanTransitionPayment(payment.status, Success) {
        return;
      }
      var expected := Currency.SmallestUnits(payment.amount, payment.currency);
      if d.amount.Some? && d.amount.value != 0 && d.amount.value != expected {
        return;
      }
      if d.currency.Some? && d.currency.value != "" && Currency.ToUpper(d.currency.value) != Currency.ToUpper(payment.currency) {
        return;
      }
      var b := payment.bookingId;
      var current := bookings[b].status;
      if current == PendingPayment {
        UpdateBookingStatus(b, Confirmed, now);
        audit := audit + [OnBooking(b, BookingConfirmed, Some(current), Confirmed, false)];
        confirmed := Some(b);
      } else {
        audit := audit + [OnBooking(b, PaymentSucceeded, Some(current), current, true)];
      }
      UpdatePaymentStatus(p, Success, if d.gatewayPaymentId.Some? then d.gatewayPaymentId else payment.gatewayPaymentId, Some(now), None);
      audit := audit + [OnPayment(p, PaymentSucceeded, Success)];
    }

    /** The business branch of the transaction. */
    method HandleEvent(p: PaymentId, d: Delivery, now: int) returns (confirmed: Option<BookingId>)
      requires PaymentsHaveBookings(State()) && p < |payments|
      modifies this`bookings, this`payments, this`audit
      ensures var (t, c) := ApplyEvent(old(State()), p, d, now);
        && confirmed == c && bookings == t.bookings && payments == t.payments && audit == t.audit
    {
      confirmed := None;
      if IsCapture(d.kind) {
        confirmed := Capture(p, d, now);
      } else if d.kind == PaymentFailedEvent {
        if payments[p].status != Failed {
          UpdatePaymentStatus(p, Failed, d.gatewayPaymentId, None, None);
          audit := audit + [OnPayment(p, PaymentRejected, Failed)];
        }
      } else if IsRefund(d.kind) {
        if payments[p].status != Refunded {
          UpdatePaymentStatus(p, Refunded, None, None, Some(now));
        }
      }
    }

    method RescheduleJobs(b: BookingId, now: int)
      requires b < |bookings|
      modifies this`jobs
      ensures jobs == ConfirmJobs(old(jobs), b, bookings[b], now)
    {
      var _ := CancelJob(ExpirePayment(b));
      ScheduleBookingOverdueCheck(b, now);
    }

    /** The transaction, followed by the queue changes for a confirmed booking. */
    method ProcessEvent(p: PaymentId, d: Delivery, now: int) returns (confirmed: Option<BookingId>)
      requires PaymentsHaveBookings(State()) && p < |payments|
      modifies this`bookings, this`payments, this`events, this`audit, this`jobs
      ensures var (t, c) := ApplyEvent(old(State()), p, d, now); State() == RecordEvent(t, d.eventId, now) && confirmed == c
    {
      events := events[d.eventId := WebhookEvent(None)];
      EventsDoNotMatter(old(State()), events, p, d, now);
      confirmed := HandleEvent(p, d, now);
      events := events[d.eventId := WebhookEvent(Some(now))];
      assert events == old(events)[d.eventId := WebhookEvent(Some(now))];
      if confirmed.Some? {
        RescheduleJobs(confirmed.value, now);
      }
    }

    method Webhook(d: Delivery, now: int) returns (reply: Reply)
      requires PaymentsHaveBookings(State())
      modifies this`bookings, this`payments, this`events, this`audit, this`jobs
      ensures (State(), reply) == HandleWebhook(old(State()), d, now)
    {
      if !d.signatureValid || !d.parses {
        return Rejected(BadRequest);
      }
      if d.eventId in events && events[d.eventId].processedAt.Some? {
        return WebhookAlreadyProcessed;
      }
      var found := None;
      if d.orderId.Some? {
        found := FindPaymentByOrder(d.orderId.value);
      }
      if found.None? {
        if d.eventId in events {
          return Rejected(UniqueViolation);
        }
        events := events[d.eventId := WebhookEvent(Some(now))];
        return WebhookIgnored;
      }
      // The unique indexes abort the transaction before anything is committed.
      if d.eventId in events || EventClashes(Db(bookings, payments, events, audit, jobs, refunds), found.value, d) {
        return WebhookAlreadyProcessed;
      }
      var confirmed := ProcessEvent(found.value, d, now);
      return WebhookProcessed(confirmed);
    }

    method RefundByAdmin(p: PaymentId, requested: Option<real>, now: int) returns (reply: Reply)
      requires PaymentsHaveBookings(State())
      modifies this`bookings, this`payments, this`audit, this`refunds
      ensures (State(), reply) == RefundPayment(old(State()), p, requested, now)
    {
      if p >= |payments| {
        return Rejected(NotFound);
      }
      var payment := payments[p];
      if payment.status == Refunded || payment.status != Success {
        return Rejected(BadRequest);
      }
      var captured := InUnits(payment.amount);
      if requested.Some? {
        if requested.value <= 0.0 || requested.value > captured {
          return Rejected(BadRequest);
        }
      }
      if payment.gatewayPaymentId.None? {
        return Rejected(BadRequest);
      }
      refunds := refunds + [Refund(p, if requested.Some? && requested.value != 0.0 then requested.value else captured)];
      UpdatePaymentStatus(p, Refunded, None, None, Some(now));
      if bookings[payment.bookingId].status != Cancelled {
        UpdateBookingStatus(payment.bookingId, Cancelled, now);
      }
      audit := audit + [OnPayment(p, PaymentReturned, Refunded)];
      return RefundDone(p);
    }

    // -------------------------------------------------------------- runs

    method Dispatch(op: Op) returns (reply: Reply)
      requires PaymentsHaveBookings(State())
      modifies this`bookings, this`payments, this`events, this`audit, this`jobs, this`refunds
      ensures (State(), reply) == Step(old(State()), op)
    {
      match op {
        case CreateBookingOp(c, o, t, order, now) => reply := MakeBooking(c, o, t, order, now);
        case CancelOp(b, c, now) => reply := CancelBookingAsCustomer(b, c, now);
        case CompleteOp(b, u, admin, now) => reply := Complete(b, u, admin, now);
        case RunJobOp(key, now) => reply := Process(key, now);
        case CreateOrderOp(c, b, order) => reply := MakePaymentOrder(c, b, order);
        case VerifyOp(c, order, g, valid, now) => reply := Verify(c, order, g, valid, now);
        case WebhookOp(d, now) => reply := Webhook(d, now);
        case RefundOp(p, amount, now) => reply := RefundByAdmin(p, amount, now);
      }
    }

    /** Any call is one more step of the execution. */
    method Perform(op: Op) returns (reply: Reply)
      requires Valid() && ValidOp(op)
      modifies this
      ensures Valid()
      ensures (State(), reply) == Step(old(State()), op)
    {
      reply := Dispatch(op);
      ReachesNext(EmptyDb, old(State()), op, State(), Leads);
    }

    /** Working off the queue up to `now` leaves no reservation unpaid beyond its window. */
    method ProcessDueJobs(now: int)
      requires Valid()
      modifies this
      ensures Valid() && NothingDue(State(), now)
      ensures |bookings| == |old(bookings)|
      ensures forall b :: 0 <= b < |bookings| && bookings[b].createdAt + 15 * MS_PER_MINUTE <= now ==>
                bookings[b].status != PendingPayment
    {
      while exists key :: key in jobs && jobs[key] <= now
        invariant Valid() && |bookings| == |old(bookings)|
        decreases |jobs|
      {
        var key :| key in jobs && jobs[key] <= now;
        DueJobLeaves(State(), key, now);
        var _ := Perform(RunJobOp(key, now));
      }
      ReservationsResolve(State(), now);
    }
  }
}
