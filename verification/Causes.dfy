/**
 Why things change: every change of a booking's status has an authorised cause, and payment orders,
 captures and refunds move the right amounts.
 */
module Causes {
  import opened Domain
  import opened Instants
  import opened Times
  import opened Protocol
  import opened CaptureInvariant
  import opened Lifecycle
  import opened Executions
  import opened Guarantees
  import Currency

  /** The order belongs to an open payment of booking `b`. */
  predicate OpenOrder(s: Db, order: Option<OrderId>, b: BookingId) {
    && order.Some? && FindByOrder(s.payments, order.value).Some?
    && var row := s.payments[FindByOrder(s.payments, order.value).value];
       row.bookingId == b && row.status == Created
  }

  /** The steps that may bring booking `b` into its new status. */
  ghost predicate Caused(s: Db, op: Op, b: BookingId, status: BookingStatus)
    requires b < |s.bookings|
  {
    var row := s.bookings[b];
    match status
    case Confirmed =>
      || (op.VerifyOp? && op.signatureValid && op.customerId == row.customerId && OpenOrder(s, Some(op.orderId), b))
      || (op.WebhookOp? && op.delivery.signatureValid && op.delivery.kind in {PaymentCaptured, OrderPaid} && OpenOrder(s, op.delivery.orderId, b))
    case Completed => op.CompleteOp? && op.bookingId == b && (op.userId == row.providerUserId || op.isAdmin)
    case Cancelled =>
      || (op.CancelOp? && op.bookingId == b && op.customerId == row.customerId && op.now < StartOf(row) - 2 * MS_PER_HOUR)
      || (op.RefundOp? && PaidFor(s.payments, op.paymentId, b) && s.payments[op.paymentId].status == Success)
    case Expired => op.RunJobOp? && op.key == ExpirePayment(b) && op.now >= row.createdAt + 15 * MS_PER_MINUTE
    case PendingPayment => false
    case PaymentFailed => false
  }

  lemma WebhookCause(s: Db, d: Delivery, now: int, b: BookingId)
    requires ConsistentDb(s) && ConfirmedBy(HandleWebhook(s, d, now).1) == Some(b)
    ensures d.signatureValid && d.kind in {PaymentCaptured, OrderPaid} && OpenOrder(s, d.orderId, b)
  {
    var p := FindByOrder(s.payments, d.orderId.value).value;
    assert PaymentRow(s.bookings, s.payments[p]);
  }

  lemma VerifyCause(s: Db, op: Op, b: BookingId)
    requires ConsistentDb(s) && op.VerifyOp? && ConfirmedBy(Step(s, op).1) == Some(b)
    ensures op.signatureValid && OpenOrder(s, Some(op.orderId), b) && b < |s.bookings| && op.customerId == s.bookings[b].customerId
  {
    var p := FindByOrder(s.payments, op.orderId).value;
    assert PaymentRow(s.bookings, s.payments[p]);
  }

  lemma PaymentStepCause(s: Db, op: Op, b: BookingId)
    requires ConsistentDb(s) && b < |s.bookings| && (op.VerifyOp? || op.WebhookOp? || op.CreateOrderOp?)
    ensures b < |Step(s, op).0.bookings|
    ensures Step(s, op).0.bookings[b].status != s.bookings[b].status ==> Caused(s, op, b, Step(s, op).0.bookings[b].status)
  {
    var (t, reply) := Step(s, op);
    if op.WebhookOp? {
      WebhookConfirms(s, op.delivery, op.now);
      if ConfirmedBy(reply) == Some(b) {
        WebhookCause(s, op.delivery, op.now, b);
      }
    } else if op.VerifyOp? {
      VerifyConfirms(s, op);
      if ConfirmedBy(reply) == Some(b) {
        VerifyCause(s, op, b);
      }
    }
  }

  lemma RefundCause(s: Db, op: Op, b: BookingId)
    requires ConsistentDb(s) && b < |s.bookings| && op.RefundOp?
    ensures b < |Step(s, op).0.bookings|
    ensures Step(s, op).0.bookings[b].status != s.bookings[b].status ==> Caused(s, op, b, Step(s, op).0.bookings[b].status)
  {
    if op.paymentId < |s.payments| {
      assert PaymentRow(s.bookings, s.payments[op.paymentId]);
    }
  }

  lemma JobCause(s: Db, op: Op, b: BookingId)
    requires ConsistentDb(s) && JobsOk(s) && b < |s.bookings| && op.RunJobOp?
    ensures b < |Step(s, op).0.bookings|
    ensures Step(s, op).0.bookings[b].status != s.bookings[b].status ==> Caused(s, op, b, Step(s, op).0.bookings[b].status)
  {
    JobFact(s, op.key);
  }

  /** No booking changes status without its customer, its provider, an admin, the gateway or its due job behind it. */
  lemma EveryChangeIsCaused(s: Db, op: Op, b: BookingId)
    requires Inv(s) && b < |s.bookings|
    ensures b < |Step(s, op).0.bookings|
    ensures Step(s, op).0.bookings[b].status != s.bookings[b].status ==> Caused(s, op, b, Step(s, op).0.bookings[b].status)
  {
    match op
    case RefundOp(_, _, _) => RefundCause(s, op, b);
    case RunJobOp(_, _) => JobCause(s, op, b);
    case CreateBookingOp(_, _, _, _, _) =>
    case CancelOp(_, _, _) =>
    case CompleteOp(_, _, _, _) =>
    case _ => PaymentStepCause(s, op, b);
  }

  /** A payment order is an open payment of the booking for its price, and asking again returns the same one. */
  lemma PaymentOrderIdempotent(s: Db, customerId: UserId, b: BookingId, order: OrderId, order2: OrderId)
    requires Inv(s) && CreatePaymentOrder(s, customerId, b, order).1.OrderReturned?
    ensures var (t, reply) := CreatePaymentOrder(s, customerId, b, order);
      && reply.paymentId < |t.payments| && b < |t.bookings|
      && t.payments[reply.paymentId].bookingId == b && t.payments[reply.paymentId].status == Created
      && t.payments[reply.paymentId].amount == t.bookings[b].bookedPrice
      && CreatePaymentOrder(t, customerId, b, order2) == (t, reply)
  {
    var (t, reply) := CreatePaymentOrder(s, customerId, b, order);
    if t == s {
      assert PaymentRow(s.bookings, s.payments[reply.paymentId]);
    } else {
      assert t.payments[..|s.payments|] == s.payments;
    }
  }

  /** The delivery names no amount, or exactly `units`. */
  predicate AmountAgrees(d: Delivery, units: int) {
    d.amount.None? || d.amount.value == 0 || d.amount.value == units
  }

  /** The delivery names no currency, or this one up to the case of its letters. */
  ghost predicate CurrencyAgrees(d: Delivery, currency: string) {
    d.currency.None? || d.currency.value == "" || Currency.SameUpToCase(d.currency.value, currency)
  }

  /** Another payment already has this gateway payment id. */
  ghost predicate IdInUse(payments: seq<Payment>, p: PaymentId, g: Option<GatewayPaymentId>) {
    g.Some? && exists i :: 0 <= i < |payments| && i != p && payments[i].gatewayPaymentId == g
  }

  /**
   With `units` whatever the float conversion returns for the booked price: a fresh signed capture for payment `p`
   is taken exactly when the payment is open, amount and currency agree and the gateway payment id is free.
   Otherwise, so also for a failed or refunded row, it changes at most the events table.
   */
  lemma CaptureIffPrice(s: Db, p: PaymentId, d: Delivery, now: int, units: int)
    requires Inv(s) && p < |s.payments| && d.orderId == Some(s.payments[p].gatewayOrderId)
    requires d.signatureValid && d.parses && d.kind in {PaymentCaptured, OrderPaid} && d.eventId !in s.events
    requires s.payments[p].bookingId < |s.bookings|
    requires Currency.Converts(s.bookings[s.payments[p].bookingId].bookedPrice, s.payments[p].currency, units)
    ensures var row, t := s.payments[p], HandleWebhook(s, d, now).0;
      var taken := row.status == Created && AmountAgrees(d, units) && CurrencyAgrees(d, row.currency)
                   && !IdInUse(s.payments, p, d.gatewayPaymentId);
      && p < |t.payments|
      && (row.paidAt.None? && t.payments[p].paidAt == Some(now) && t.payments[p].status == Success <==> taken)
      && (!taken ==> SameButEvents(s, t))
  {
    var b := s.payments[p].bookingId;
    assert PaymentRow(s.bookings, s.payments[p]) && BookingRow(s.payments, b, s.bookings[b]);
    FindsOwn(s.payments, p);
    AppliesMeaning(s.payments[p], d, units);
    CaptureOutcome(s, p, d, now, CaptureApplies(s.payments[p], d));
  }

  /** A row that is not PENDING accepts a capture exactly if it is CREATED and amount and currency agree. */
  lemma AppliesMeaning(row: Payment, d: Delivery, units: int)
    requires row.status != Pending && row.amount < 10_000_000_000 && Currency.Converts(row.amount, row.currency, units)
    ensures CaptureApplies(row, d) <==> row.status == Created && AmountAgrees(d, units) && CurrencyAgrees(d, row.currency)
  {
    Currency.ConversionExact(row.amount, row.currency, units);
    if d.currency.Some? {
      Currency.UpperMeaning(d.currency.value, row.currency);
    }
  }

  lemma CaptureOutcome(s: Db, p: PaymentId, d: Delivery, now: int, applies: bool)
    requires PaymentsHaveBookings(s) && p < |s.payments| && d.orderId.Some? && FindByOrder(s.payments, d.orderId.value) == Some(p)
    requires d.signatureValid && d.parses && d.kind in {PaymentCaptured, OrderPaid} && d.eventId !in s.events
    requires applies == CaptureApplies(s.payments[p], d)
    ensures var row, t := s.payments[p], HandleWebhook(s, d, now).0;
      && p < |t.payments|
      && if applies && !IdInUse(s.payments, p, d.gatewayPaymentId)
         then t.payments[p].paidAt == Some(now) && t.payments[p].status == Success != row.status
         else SameButEvents(s, t)
  {
  }

  /** A successful refund sends the requested amount, or the whole booked price, and ends the booking. */
  lemma RefundMovesMoney(s: Db, p: PaymentId, requested: Option<real>, now: int)
    requires Inv(s) && RefundPayment(s, p, requested, now).1.RefundDone?
    ensures var t := RefundPayment(s, p, requested, now).0;
      && p < |s.payments|
      && var b := s.payments[p].bookingId;
         && t.refunds == s.refunds + [Refund(p, if requested.Some? then requested.value else s.bookings[b].bookedPrice as real / 100.0)]
         && t.bookings[b].status == Cancelled && t.payments[p].status == Refunded
         && RefundedFor(s.refunds, s.payments, b) == 0.0
  {
    RefundSends(s, p, requested, now);
    assert PaymentRow(s.bookings, s.payments[p]);
    NotRefundedYet(s, p, s.payments[p].bookingId);
  }

  lemma RefundSends(s: Db, p: PaymentId, requested: Option<real>, now: int)
    requires PaymentsHaveBookings(s) && RefundPayment(s, p, requested, now).1.RefundDone?
    ensures var t := RefundPayment(s, p, requested, now).0;
      && p < |s.payments| && s.payments[p].status == Success
      && t.refunds == s.refunds + [Refund(p, if requested.Some? then requested.value else s.payments[p].amount as real / 100.0)]
      && t.bookings[s.payments[p].bookingId].status == Cancelled && t.payments[p].status == Refunded
  {
  }

  /** A payment in SUCCESS is the only capture of its booking, so nothing was refunded for that. */
  lemma {:induction false} NotRefundedYet(s: Db, p: PaymentId, b: BookingId)
    requires Inv(s) && p < |s.payments| && s.payments[p].bookingId == b && s.payments[p].status == Success
    ensures RefundedFor(s.refunds, s.payments, b) == 0.0
  {
    assert PaymentRow(s.bookings, s.payments[p]);
    OneCapture(s, b);
    RefundedIsOnce(s.refunds, s.payments, b);
    assert PaidFor(s.payments, p, b);
    forall i | 0 <= i < |s.refunds| ensures !RefundOf(s.refunds[i], s.payments, b) {
      assert RefundOk(s.payments, s.refunds[i]);
      if RefundOf(s.refunds[i], s.payments, b) {
        assert PaidFor(s.payments, s.refunds[i].paymentId, b);
      }
    }
  }

  // ---------------------------------------------------------------- currencies

  ghost predicate AllIn(payments: seq<Payment>, b: BookingId, currency: string) {
    forall i :: 0 <= i < |payments| && payments[i].bookingId == b ==> payments[i].currency == currency
  }

  /** In every continuation all payments of the booking are in this currency. */
  ghost predicate StaysIn(s: Db, b: BookingId, currency: string) {
    forall t :: Reaches(s, t, Leads) ==> AllIn(t.payments, b, currency)
  }

  ghost predicate RupeesOnly(s: Db, b: BookingId) {
    Inv(s) && b < |s.bookings| && AllIn(s.payments, b, "INR")
  }

  /** Whatever is added for an existing booking is ordered in rupees. */
  lemma NewPaymentsInRupees(s: Db, op: Op, i: PaymentId)
    requires PaymentsHaveBookings(s) && |s.payments| <= i < |Step(s, op).0.payments|
    ensures var row := Step(s, op).0.payments[i]; row.bookingId < |s.bookings| ==> row.currency == "INR"
  {
  }

  lemma RupeesStep(s: Db, op: Op, t: Db, b: BookingId)
    requires RupeesOnly(s, b) && Leads(s, op, t)
    ensures RupeesOnly(t, b)
  {
    InvStep(s, op);
    BookingsStep(s, op);
    PaymentsStep(s, op);
    forall i | 0 <= i < |t.payments| && t.payments[i].bookingId == b ensures t.payments[i].currency == "INR" {
      if i < |s.payments| {
        assert PaymentEdge(s.payments[i], t.payments[i]);
      } else {
        NewPaymentsInRupees(s, op, i);
      }
    }
  }

  lemma RupeesStay(s: Db, b: BookingId)
    requires RupeesOnly(s, b)
    ensures StaysIn(s, b, "INR")
  {
    forall t | Reaches(s, t, Leads) ensures AllIn(t.payments, b, "INR") {
      var kept := (u: Db) => RupeesOnly(u, b);
      forall u, op, v | Leads(u, op, v) && kept(u) ensures kept(v) {
        RupeesStep(u, op, v, b);
      }
      HoldsFromThen(s, t, Leads, kept);
    }
  }

  lemma FailingPayment(s: Db, p: PaymentId, e: EventId, t: Db)
    requires ConsistentDb(s) && p < |s.payments| && s.payments[p].status == Created && e !in s.events
    requires t == Step(s, WebhookOp(Delivery(true, true, e, PaymentFailedEvent, Some(s.payments[p].gatewayOrderId), None, None, None), 0)).0
    ensures t.bookings == s.bookings && t.payments == s.payments[p := s.payments[p].(status := Failed)]
  {
    FindsOwn(s.payments, p);
  }

  lemma {:induction false} OrderingAgain(s: Db, b: BookingId, p: PaymentId, order: OrderId, t: Db)
    requires b < |s.bookings| && s.bookings[b].status == PendingPayment && LatestPayment(s.payments, b) == Some(p)
    requires s.payments[p].status == Failed && FindByOrder(s.payments, order).None?
    requires t == CreatePaymentOrder(s, s.bookings[b].customerId, b, order).0
    ensures t.payments == s.payments + [NewPayment(b, order, s.bookings[b].bookedPrice, "INR")]
  {
  }

  lemma {:induction false} LatestSame(ps: seq<Payment>, qs: seq<Payment>, b: BookingId)
    requires |ps| == |qs| && forall i :: 0 <= i < |ps| ==> qs[i].bookingId == ps[i].bookingId
    ensures LatestPayment(qs, b) == LatestPayment(ps, b)
  {
    var p, q := LatestPayment(ps, b), LatestPayment(qs, b);
    if p.Some? && q.Some? {
      assert !(p.value < q.value) && !(q.value < p.value);
    }
  }

  lemma {:induction false} FailThenOrder(s: Db, b: BookingId, p: PaymentId, failure: Op, failed: Db, retry: Op, t: Db, e: EventId, order: OrderId)
    requires ConsistentDb(s) && b < |s.bookings| && s.bookings[b].status == PendingPayment && LatestPayment(s.payments, b) == Some(p)
    requires s.payments[p].status == Created && e !in s.events && FindByOrder(s.payments, order).None?
    requires failure == WebhookOp(Delivery(true, true, e, PaymentFailedEvent, Some(s.payments[p].gatewayOrderId), None, None, None), 0)
    requires retry == CreateOrderOp(s.bookings[b].customerId, b, order)
    requires failed == Step(s, failure).0 && PaymentsHaveBookings(failed) && t == Step(failed, retry).0
    ensures |t.payments| == |s.payments| + 1 && t.payments[|s.payments|] == NewPayment(b, order, s.bookings[b].bookedPrice, "INR")
  {
    FailingPayment(s, p, e, failed);
    LatestSame(s.payments, failed.payments, b);
    assert forall i :: 0 <= i < |failed.payments| ==> failed.payments[i].gatewayOrderId == s.payments[i].gatewayOrderId;
    OrderingAgain(failed, b, p, order, t);
  }

  lemma TwoSteps(s: Db, a: Op, s1: Db, b: Op, t: Db)
    requires Leads(s, a, s1) && Leads(s1, b, t)
    ensures Reaches(s, t, Leads)
  {
    ReachesSelf<Db, Op>(s, Leads);
    ReachesNext(s, s, a, s1, Leads);
    ReachesNext(s, s1, b, t, Leads);
  }

  /** A failed attempt and a new order put a rupee payment beside any other. */
  lemma {:induction false} RetrySwitches(s: Db, b: BookingId, p: PaymentId, currency: string)
    requires ConsistentDb(s) && b < |s.bookings| && s.bookings[b].status == PendingPayment && LatestPayment(s.payments, b) == Some(p)
    requires s.payments[p].status == Created && currency != "INR"
    ensures !StaysIn(s, b, currency)
  {
    var e := Above(s.events.Keys);
    var order := FreshOrder(s.payments);
    var failure := WebhookOp(Delivery(true, true, e, PaymentFailedEvent, Some(s.payments[p].gatewayOrderId), None, None, None), 0);
    var retry := CreateOrderOp(s.bookings[b].customerId, b, order);
    var failed := Step(s, failure).0;
    var t := Step(failed, retry).0;
    FailThenOrder(s, b, p, failure, failed, retry, t, e, order);
    TwoSteps(s, failure, failed, retry, t);
    assert !AllIn(t.payments, b, currency);
  }

  /** All payments of a booking stay in the currency it was sold in exactly when that is rupees. */
  lemma CurrencyKeptExactly(s: Db, c: UserId, o: Offering, startsAt: int, order: OrderId, now: int, u: Db)
    requires Reached(s) && ValidOffering(o) && CreateBooking(s, c, Some(o), Some(startsAt), order, now).1.BookingMade?
    requires u == CreateBooking(s, c, Some(o), Some(startsAt), order, now).0
    ensures StaysIn(u, |s.bookings|, if o.currency == "" then "INR" else o.currency) <==> o.currency in {"", "INR"}
  {
    ReachedInv(s);
    InvStep(s, CreateBookingOp(c, Some(o), Some(startsAt), order, now));
    var b, p := |s.bookings|, |s.payments|;
    assert u.payments == s.payments + [NewPayment(b, order, o.price, CurrencyOr(o.currency))];
    assert forall i :: 0 <= i < p ==> PaymentRow(s.bookings, s.payments[i]);
    if CurrencyOr(o.currency) == "INR" {
      RupeesStay(u, b);
    } else {
      RetrySwitches(u, b, p, CurrencyOr(o.currency));
    }
  }

  // ---------------------------------------------------------------- accepting a booking

  /** The booking is live, holds its provider at this instant, and that is provider `q` between `from` and `until`. */
  ghost predicate WantSame(held: Booking, q: ProviderId, from: int, until: int, instant: int) {
    && held.status in {PendingPayment, Confirmed} && held.providerId == q
    && held.bookingDate + held.startTime * MS_PER_SECOND <= instant < held.bookingDate + held.endTime * MS_PER_SECOND
    && from <= instant < until
  }

  lemma OverlapMeaning(held: Booking, row: Booking)
    ensures Active(held.status) && Overlaps(held, row) <==>
      exists instant :: WantSame(held, row.providerId, SlotStart(row), SlotEnd(row), instant)
  {
    if Active(held.status) && Overlaps(held, row) {
      var instant := if SlotStart(held) < SlotStart(row) then SlotStart(row) else SlotStart(held);
      assert WantSame(held, row.providerId, SlotStart(row), SlotEnd(row), instant);
    }
  }

  /** The exclusion constraint refuses a row exactly when a live booking of the provider shares an instant with it. */
  lemma ExclusionMeaning(s: Db, row: Booking)
    ensures ExclusionViolated(s.bookings, row) <==> SlotTaken(s, row.providerId, SlotStart(row), SlotEnd(row))
  {
    forall b | 0 <= b < |s.bookings|
      ensures Active(s.bookings[b].status) && Overlaps(s.bookings[b], row) <==>
        exists instant :: WantSame(s.bookings[b], row.providerId, SlotStart(row), SlotEnd(row), instant)
    {
      OverlapMeaning(s.bookings[b], row);
    }
  }

  /** Some live booking holds the provider at an instant between `from` and `until`. */
  ghost predicate SlotTaken(s: Db, q: ProviderId, from: int, until: int) {
    exists b, instant :: 0 <= b < |s.bookings| && WantSame(s.bookings[b], q, from, until, instant)
  }

  /** The offering is on sale. */
  predicate OnSale(offering: Option<Offering>) {
    offering.Some? && offering.value.isActive && offering.value.verified && offering.value.userActive
  }

  /**
   A booking is made exactly when the offering is on sale, the start is within thirty days, a shift holds the
   appointment and its buffer, no live booking of the provider shares an instant with the appointment rounded to
   seconds, and the order is new.
   */
  lemma BookingMadeExactly(s: Db, c: UserId, offering: Option<Offering>, startsAt: Option<int>, order: OrderId, now: int)
    requires offering.Some? ==> ValidOffering(offering.value)
    ensures CreateBooking(s, c, offering, startsAt, order, now).1.BookingMade? <==>
      && OnSale(offering) && startsAt.Some? && now <= startsAt.value <= now + 30 * MS_PER_DAY
      && ShiftFound(offering.value, startsAt.value)
      && !SlotTaken(s, offering.value.providerId, NearestSecond(startsAt.value),
                    NearestSecond(startsAt.value + offering.value.durationMinutes * MS_PER_MINUTE))
      && !OrderUsed(s, order)
  {
    OrderUsedMeaning(s, order);
    if offering.Some? && startsAt.Some? {
      var o, start := offering.value, startsAt.value;
      ShiftFoundMeaning(o, start);
      if ShiftFound(o, start) {
        SlotTakenMeaning(s, c, o, start, now);
      }
      var taken := SlotTaken(s, o.providerId, NearestSecond(start), NearestSecond(start + o.durationMinutes * MS_PER_MINUTE));
      MadeUnless(s, c, o, start, order, now, ShiftFound(o, start), taken);
    }
  }

  lemma {:induction false} MadeUnless(s: Db, c: UserId, o: Offering, startsAt: int, order: OrderId, now: int, open: bool, taken: bool)
    requires open <==> OpenOn(o, startsAt) && FitsShift(o, startsAt)
    requires open ==> (taken <==> ExclusionViolated(s.bookings, NewBooking(c, o, startsAt, now)))
    ensures CreateBooking(s, c, Some(o), Some(startsAt), order, now).1.BookingMade? <==>
      OnSale(Some(o)) && now <= startsAt <= now + 30 * MS_PER_DAY && open && !taken && FindByOrder(s.payments, order).None?
  {
  }

  lemma SlotTakenMeaning(s: Db, c: UserId, o: Offering, startsAt: int, now: int)
    requires ValidOffering(o) && FitsShift(o, startsAt)
    ensures ExclusionViolated(s.bookings, NewBooking(c, o, startsAt, now)) <==>
      SlotTaken(s, o.providerId, NearestSecond(startsAt), NearestSecond(startsAt + o.durationMinutes * MS_PER_MINUTE))
  {
    NewBookingInstants(c, o, startsAt, now);
    ExclusionMeaning(s, NewBooking(c, o, startsAt, now));
  }

  ghost predicate OrderUsed(s: Db, order: OrderId) {
    exists p :: 0 <= p < |s.payments| && s.payments[p].gatewayOrderId == order
  }

  lemma {:induction false} OrderUsedMeaning(s: Db, order: OrderId)
    ensures FindByOrder(s.payments, order).Some? <==> OrderUsed(s, order)
  {
  }

  ghost predicate ShiftFound(o: Offering, startsAt: int) {
    exists i :: 0 <= i < |o.schedules| && ShiftHolds(o, startsAt, startsAt - startsAt % MS_PER_MINUTE, ToSpan(o.schedules[i]))
  }

  lemma ShiftFoundMeaning(o: Offering, startsAt: int)
    requires ValidOffering(o)
    ensures ShiftFound(o, startsAt) <==> OpenOn(o, startsAt) && FitsShift(o, startsAt)
  {
    ShiftCheckExact(o, startsAt);
  }
}
