/**
 The overdue check: which confirmed bookings have one queued, and which can be flagged before they are over.
 */
module Overdue {
  import opened Domain
  import opened Instants
  import opened Protocol
  import opened CaptureInvariant
  import opened Lifecycle
  import opened Executions
  import opened Guarantees

  // ---------------------------------------------------------------- runs in clock order

  /** The database with the latest time any step has seen. */
  datatype Timed = Timed(db: Db, clock: int)

  /** The time a step sees; ordering a payment reads no clock. */
  function SeenAt(op: Op, clock: int): int {
    if op.CreateOrderOp? then clock else op.now
  }

  /** One step of the protocol, with a clock that does not go back. */
  ghost predicate Ticks(u: Timed, op: Op, v: Timed) {
    Leads(u.db, op, v.db) && u.clock <= v.clock == SeenAt(op, u.clock)
  }

  ghost predicate FlaggedBefore(s: Db, b: BookingId, limit: int) {
    b < |s.bookings| && s.bookings[b].needsReview && s.bookings[b].overdueAt.Some? && s.bookings[b].overdueAt.value < limit
  }

  /** Some continuation flags `b` before `limit`. */
  ghost predicate CanFlagBefore(s: Db, b: BookingId, limit: int) {
    exists t :: Reaches(s, t, Leads) && FlaggedBefore(t, b, limit)
  }

  /** Some continuation in clock order does. */
  ghost predicate CanFlagInOrder(s: Db, clock: int, b: BookingId, limit: int) {
    exists v: Timed :: Reaches(Timed(s, clock), v, Ticks) && FlaggedBefore(v.db, b, limit)
  }

  // ---------------------------------------------------------------- flagging

  /** Payment `p` is open for the unpaid reservation `b`, and nobody uses gateway payment id `g`. */
  ghost predicate Payable(s: Db, b: BookingId, p: PaymentId, g: GatewayPaymentId) {
    && ConsistentDb(s) && JobsOk(s) && b < |s.bookings| && p < |s.payments|
    && s.bookings[b].status == PendingPayment && !s.bookings[b].needsReview
    && s.payments[p].bookingId == b && s.payments[p].status == Created
    && forall i :: 0 <= i < |s.payments| ==> s.payments[i].gatewayPaymentId != Some(g)
  }

  /** Paying before the check would be due queues it. */
  lemma PayingQueuesCheck(s: Db, b: BookingId, p: PaymentId, g: GatewayPaymentId, at: int, t: Db)
    requires Payable(s, b, p, g) && at < EndOf(s.bookings[b]) + 2 * MS_PER_HOUR
    requires t == Step(s, VerifyOp(s.bookings[b].customerId, s.payments[p].gatewayOrderId, g, true, at)).0
    ensures t.bookings == SetBookingStatus(s.bookings, b, Confirmed, at)
    ensures OverdueCheck(b) in t.jobs && t.jobs[OverdueCheck(b)] == EndOf(s.bookings[b]) + 2 * MS_PER_HOUR
  {
    FindsOwn(s.payments, p);
    JobFact(s, OverdueCheck(b));
  }

  lemma CheckFlags(s: Db, b: BookingId, t: Db)
    requires PaymentsHaveBookings(s) && b < |s.bookings| && s.bookings[b].status == Confirmed && !s.bookings[b].needsReview
    requires OverdueCheck(b) in s.jobs && s.jobs[OverdueCheck(b)] == EndOf(s.bookings[b]) + 2 * MS_PER_HOUR
    requires t == Step(s, RunJobOp(OverdueCheck(b), EndOf(s.bookings[b]) + 2 * MS_PER_HOUR)).0
    ensures |t.bookings| == |s.bookings| && t.bookings[b].needsReview
    ensures t.bookings[b].overdueAt == Some(EndOf(s.bookings[b]) + 2 * MS_PER_HOUR)
  {
  }

  /** A reservation paid before its recomposed end plus grace can be flagged at that very time, also in clock order. */
  lemma CanBeFlagged(s: Db, b: BookingId, p: PaymentId, g: GatewayPaymentId, at: int, limit: int)
    requires Payable(s, b, p, g) && at < EndOf(s.bookings[b]) + 2 * MS_PER_HOUR < limit
    ensures CanFlagBefore(s, b, limit) && CanFlagInOrder(s, at, b, limit)
  {
    var due := EndOf(s.bookings[b]) + 2 * MS_PER_HOUR;
    var verify := VerifyOp(s.bookings[b].customerId, s.payments[p].gatewayOrderId, g, true, at);
    var check := RunJobOp(OverdueCheck(b), due);
    var paid := Step(s, verify).0;
    PayingQueuesCheck(s, b, p, g, at, paid);
    var flagged := Step(paid, check).0;
    CheckFlags(paid, b, flagged);
    ReachesSelf<Db, Op>(s, Leads);
    ReachesNext(s, s, verify, paid, Leads);
    ReachesNext(s, paid, check, flagged, Leads);
    ReachesSelf<Timed, Op>(Timed(s, at), Ticks);
    ReachesNext(Timed(s, at), Timed(s, at), verify, Timed(paid, at), Ticks);
    ReachesNext(Timed(s, at), Timed(paid, at), check, Timed(flagged, due), Ticks);
    assert FlaggedBefore(flagged, b, limit) && FlaggedBefore(Timed(flagged, due).db, b, limit);
  }

  /** Too late to be checked: the recomposed end plus grace is over, nothing is queued and nothing was flagged. */
  ghost predicate PastCheck(u: Timed, row: Booking, b: BookingId) {
    && Survives(row, b, u.db) && u.clock >= EndOf(row) + 2 * MS_PER_HOUR
    && OverdueCheck(b) !in u.db.jobs && !u.db.bookings[b].needsReview
  }

  lemma PastCheckStep(u: Timed, op: Op, v: Timed, row: Booking, b: BookingId)
    requires Ticks(u, op, v) && PastCheck(u, row, b)
    ensures PastCheck(v, row, b)
  {
    InvStep(u.db, op);
    BookingsStep(u.db, op);
    assert StatusEdge(u.db.bookings[b].status, v.db.bookings[b].status);
    if v.db.bookings[b].needsReview {
      FlagOnlyWhenDue(u.db, op, b);
    }
    CheckNotAdded(u.db, op, b);
  }

  /** A check is only queued ahead of its time. */
  lemma CheckNotAdded(s: Db, op: Op, b: BookingId)
    requires PaymentsHaveBookings(s) && b < |s.bookings| && OverdueCheck(b) !in s.jobs
    ensures OverdueCheck(b) in Step(s, op).0.jobs ==> !op.CreateOrderOp? && op.now < EndOf(s.bookings[b]) + 2 * MS_PER_HOUR
  {
    match op
    case WebhookOp(d, now) => WebhookConfirms(s, d, now);
    case VerifyOp(_, _, _, _, _) => VerifyConfirms(s, op);
    case _ => RequestsAddNoCheck(s, op, b);
  }

  lemma RequestsAddNoCheck(s: Db, op: Op, b: BookingId)
    requires PaymentsHaveBookings(s) && !op.WebhookOp? && !op.VerifyOp? && OverdueCheck(b) !in s.jobs
    ensures OverdueCheck(b) !in Step(s, op).0.jobs
  {
  }

  lemma PastCheckStays(u: Timed, v: Timed, row: Booking, b: BookingId)
    requires PastCheck(u, row, b) && Reaches(u, v, Ticks)
    ensures PastCheck(v, row, b)
  {
    var kept := (w: Timed) => PastCheck(w, row, b);
    forall x, op, y | Ticks(x, op, y) && kept(x) ensures kept(y) {
      PastCheckStep(x, op, y, row, b);
    }
    HoldsFromThen(u, v, Ticks, kept);
  }

  lemma TicksLead(u: Timed, v: Timed)
    requires Reaches(u, v, Ticks) && Inv(u.db)
    ensures Reaches(u.db, v.db, Leads)
  {
    var kept := (w: Timed) => Reaches(u.db, w.db, Leads);
    ReachesSelf<Db, Op>(u.db, Leads);
    forall x, op, y | Ticks(x, op, y) && kept(x) ensures kept(y) {
      ReachesNext(u.db, x.db, op, y.db, Leads);
    }
    HoldsFromThen(u, v, Ticks, kept);
  }

  // ---------------------------------------------------------------- the exact condition

  /** Booking `b` was just made for an appointment from `startsAt` to `end`. */
  ghost predicate JustMade(s: Db, b: BookingId, p: PaymentId, row: Booking, startsAt: int, end: int) {
    && Inv(s) && b < |s.bookings| && s.bookings[b] == row && row.status == PendingPayment && !row.needsReview
    && p < |s.payments| && s.payments[p].bookingId == b && s.payments[p].status == Created
    && KeepsInstants(row, startsAt, end) && UtcMidnight(end) == UtcMidnight(startsAt)
  }

  lemma MadeByCreation(s: Db, c: UserId, o: Offering, startsAt: int, order: OrderId, now: int, u: Db, row: Booking, end: int)
    requires Inv(s) && ValidOffering(o) && CreateBooking(s, c, Some(o), Some(startsAt), order, now).1.BookingMade?
    requires u == CreateBooking(s, c, Some(o), Some(startsAt), order, now).0 && row == NewBooking(c, o, startsAt, now)
    requires end == startsAt + o.durationMinutes * MS_PER_MINUTE
    ensures JustMade(u, |s.bookings|, |s.payments|, row, startsAt, end)
  {
    InvStep(s, CreateBookingOp(c, Some(o), Some(startsAt), order, now));
    NewBookingInstants(c, o, startsAt, now);
    AcceptedTimes(o, startsAt);
  }

  lemma WrapIsEarly(row: Booking, startsAt: int, end: int)
    requires KeepsInstants(row, startsAt, end) && UtcMidnight(end) == UtcMidnight(startsAt)
    ensures EndOf(row) < NearestSecond(end) <==> end % MS_PER_DAY >= MS_PER_DAY - 500
    ensures EndOf(row) < NearestSecond(end) ==> EndOf(row) == UtcMidnight(startsAt)
  {
  }

  /** Flags never precede the recomposed end plus grace. */
  lemma FlagNeedsWrap(s: Db, t: Db, b: BookingId, row: Booking, limit: int)
    requires Inv(s) && b < |s.bookings| && s.bookings[b] == row && Reaches(s, t, Leads) && FlaggedBefore(t, b, limit)
    ensures EndOf(row) + 2 * MS_PER_HOUR < limit
  {
    BookingSurvives(s, t, b);
    assert FlagOk(t.bookings[b]);
  }

  lemma FlagNeedsTime(s: Db, clock: int, v: Timed, b: BookingId, row: Booking, limit: int)
    requires Inv(s) && b < |s.bookings| && s.bookings[b] == row && row.status == PendingPayment && !row.needsReview
    requires Reaches(Timed(s, clock), v, Ticks) && FlaggedBefore(v.db, b, limit)
    ensures EndOf(row) + 2 * MS_PER_HOUR < limit && clock < EndOf(row) + 2 * MS_PER_HOUR
  {
    TicksLead(Timed(s, clock), v);
    FlagNeedsWrap(s, v.db, b, row, limit);
    if clock >= EndOf(row) + 2 * MS_PER_HOUR {
      JobFact(s, OverdueCheck(b));
      PastCheckStays(Timed(s, clock), v, row, b);
    }
  }

  lemma EarlyFlagOf(u: Db, b: BookingId, p: PaymentId, row: Booking, startsAt: int, end: int, now: int, limit: int)
    requires JustMade(u, b, p, row, startsAt, end) && limit == NearestSecond(end) + 2 * MS_PER_HOUR
    ensures CanFlagBefore(u, b, limit) <==> end % MS_PER_DAY >= MS_PER_DAY - 500
    ensures CanFlagInOrder(u, now, b, limit) <==>
      end % MS_PER_DAY >= MS_PER_DAY - 500 && now < UtcMidnight(startsAt) + 2 * MS_PER_HOUR
  {
    WrapIsEarly(row, startsAt, end);
    var g := FreshGatewayId(u.payments);
    if EndOf(row) < NearestSecond(end) {
      CanBeFlagged(u, b, p, g, EndOf(row), limit);
      if now < EndOf(row) + 2 * MS_PER_HOUR {
        CanBeFlagged(u, b, p, g, now, limit);
      }
    }
    if CanFlagBefore(u, b, limit) {
      var t :| Reaches(u, t, Leads) && FlaggedBefore(t, b, limit);
      FlagNeedsWrap(u, t, b, row, limit);
    }
    if CanFlagInOrder(u, now, b, limit) {
      var v: Timed :| Reaches(Timed(u, now), v, Ticks) && FlaggedBefore(v.db, b, limit);
      FlagNeedsTime(u, now, v, b, row, limit);
    }
  }

  /**
   A booking can be flagged before its booked end, to the nearest second, plus two hours exactly when that end lies
   in the last half second of its day; in clock order exactly when it was also made before two in that morning.
   */
  lemma EarlyFlagExactly(s: Db, c: UserId, o: Offering, startsAt: int, order: OrderId, now: int, u: Db, end: int)
    requires Reached(s) && ValidOffering(o) && CreateBooking(s, c, Some(o), Some(startsAt), order, now).1.BookingMade?
    requires u == CreateBooking(s, c, Some(o), Some(startsAt), order, now).0
    requires end == startsAt + o.durationMinutes * MS_PER_MINUTE
    ensures CanFlagBefore(u, |s.bookings|, NearestSecond(end) + 2 * MS_PER_HOUR) <==> end % MS_PER_DAY >= MS_PER_DAY - 500
    ensures CanFlagInOrder(u, now, |s.bookings|, NearestSecond(end) + 2 * MS_PER_HOUR) <==>
      end % MS_PER_DAY >= MS_PER_DAY - 500 && now < UtcMidnight(startsAt) + 2 * MS_PER_HOUR
  {
    ReachedInv(s);
    var row, b, p, limit := NewBooking(c, o, startsAt, now), |s.bookings|, |s.payments|, NearestSecond(end) + 2 * MS_PER_HOUR;
    MadeByCreation(s, c, o, startsAt, order, now, u, row, end);
    EarlyFlagOf(u, b, p, row, startsAt, end, now, limit);
  }

  // ---------------------------------------------------------------- no booking is forgotten

  /** The booking's captured payment was taken before `limit`. */
  ghost predicate PaidBefore(payments: seq<Payment>, b: BookingId, limit: int) {
    exists p :: PaidFor(payments, p, b) && payments[p].paidAt.value < limit
  }

  /** A confirmed booking is either to be checked or flagged, never both, exactly if it was paid before its check was due. */
  ghost predicate Checked(s: Db, b: BookingId)
    requires b < |s.bookings|
  {
    && !(OverdueCheck(b) in s.jobs && s.bookings[b].needsReview)
    && var paid := PaidBefore(s.payments, b, EndOf(s.bookings[b]) + 2 * MS_PER_HOUR);
       (OverdueCheck(b) in s.jobs || s.bookings[b].needsReview <==> paid)
  }

  ghost predicate RowChecked(s: Db, b: BookingId)
    requires b < |s.bookings|
  {
    && (s.bookings[b].status == PendingPayment ==> !s.bookings[b].needsReview)
    && (s.bookings[b].status == Confirmed ==> Checked(s, b))
  }

  ghost predicate ChecksOk(s: Db) {
    forall b :: 0 <= b < |s.bookings| ==> RowChecked(s, b)
  }

  /** The one capture of a booking keeps its time. */
  lemma PaidBeforeStays(s: Db, t: Db, b: BookingId, limit: int)
    requires ConsistentDb(t) && PaymentsEvolve(s.payments, t.payments) && HasCapture(s.payments, b)
    ensures PaidBefore(t.payments, b, limit) <==> PaidBefore(s.payments, b, limit)
  {
    var q :| PaidFor(s.payments, q, b);
    assert PaymentEdge(s.payments[q], t.payments[q]);
    assert PaidFor(t.payments, q, b);
    OneCapture(t, b);
    if PaidBefore(s.payments, b, limit) {
      var p :| PaidFor(s.payments, p, b) && s.payments[p].paidAt.value < limit;
      assert PaymentEdge(s.payments[p], t.payments[p]);
      assert PaidFor(t.payments, p, b);
    }
  }

  /** What one step does to the check of a booking that stays CONFIRMED: nothing, or it runs it. */
  ghost predicate CheckKept(s: Db, t: Db, b: BookingId)
    requires b < |s.bookings| && b < |t.bookings|
  {
    || (t.bookings[b].needsReview == s.bookings[b].needsReview && (OverdueCheck(b) in t.jobs <==> OverdueCheck(b) in s.jobs))
    || (t.bookings[b].needsReview && OverdueCheck(b) in s.jobs && OverdueCheck(b) !in t.jobs)
  }

  lemma ConfirmedCheck(s: Db, op: Op, b: BookingId)
    requires PaymentsHaveBookings(s) && b < |s.bookings| && s.bookings[b].status == Confirmed
    requires b < |Step(s, op).0.bookings| && Step(s, op).0.bookings[b].status == Confirmed
    ensures CheckKept(s, Step(s, op).0, b)
  {
    match op
    case WebhookOp(_, _) => PaymentCheck(s, op, b);
    case VerifyOp(_, _, _, _, _) => PaymentCheck(s, op, b);
    case RunJobOp(_, _) => JobCheck(s, op, b);
    case RefundOp(_, _, _) => RefundCheck(s, op, b);
    case _ => RequestCheck(s, op, b);
  }

  lemma OnlyConfirmsCheck(s: Db, t: Db, confirmed: Option<BookingId>, now: int, b: BookingId)
    requires OnlyConfirms(s, t, confirmed, now) && b < |s.bookings| && s.bookings[b].status == Confirmed
    ensures b < |t.bookings| && CheckKept(s, t, b)
  {
  }

  lemma PaymentCheck(s: Db, op: Op, b: BookingId)
    requires PaymentsHaveBookings(s) && (op.WebhookOp? || op.VerifyOp?) && b < |s.bookings| && s.bookings[b].status == Confirmed
    ensures b < |Step(s, op).0.bookings| && CheckKept(s, Step(s, op).0, b)
  {
    var (t, reply) := Step(s, op);
    PaymentConfirms(s, op);
    OnlyConfirmsCheck(s, t, ConfirmedBy(reply), op.now, b);
  }

  lemma PaymentConfirms(s: Db, op: Op)
    requires PaymentsHaveBookings(s) && (op.WebhookOp? || op.VerifyOp?)
    ensures OnlyConfirms(s, Step(s, op).0, ConfirmedBy(Step(s, op).1), op.now)
  {
    if op.WebhookOp? {
      WebhookConfirms(s, op.delivery, op.now);
    } else {
      VerifyConfirms(s, op);
    }
  }

  lemma JobCheck(s: Db, op: Op, b: BookingId)
    requires PaymentsHaveBookings(s) && op.RunJobOp? && b < |s.bookings| && s.bookings[b].status == Confirmed
    ensures b < |Step(s, op).0.bookings| && CheckKept(s, Step(s, op).0, b)
  {
  }

  lemma RefundCheck(s: Db, op: Op, b: BookingId)
    requires PaymentsHaveBookings(s) && op.RefundOp? && b < |s.bookings|
    ensures b < |Step(s, op).0.bookings| && CheckKept(s, Step(s, op).0, b)
  {
  }

  lemma RequestCheck(s: Db, op: Op, b: BookingId)
    requires PaymentsHaveBookings(s) && (op.CreateBookingOp? || op.CancelOp? || op.CompleteOp? || op.CreateOrderOp?)
    requires b < |s.bookings| && b < |Step(s, op).0.bookings| && Step(s, op).0.bookings[b].status == Confirmed
    ensures CheckKept(s, Step(s, op).0, b)
  {
  }

  /** A step that confirms a booking takes its payment at that time. */
  lemma ConfirmsAndPays(s: Db, op: Op, b: BookingId)
    requires ConsistentDb(s) && (op.WebhookOp? || op.VerifyOp?) && ConfirmedBy(Step(s, op).1) == Some(b)
    ensures exists p :: PaidFor(Step(s, op).0.payments, p, b) && Step(s, op).0.payments[p].paidAt.value == op.now
  {
    var order := if op.VerifyOp? then op.orderId else op.delivery.orderId.value;
    var p := FindByOrder(s.payments, order).value;
    assert PaidFor(Step(s, op).0.payments, p, b);
  }

  lemma NewlyConfirmed(s: Db, op: Op, t: Db, b: BookingId)
    requires Inv(s) && ConsistentDb(t) && t == Step(s, op).0 && RowCheckedIn(s, b)
    requires (op.WebhookOp? || op.VerifyOp?) && ConfirmedBy(Step(s, op).1) == Some(b) && OnlyConfirms(s, t, Some(b), op.now)
    ensures b < |t.bookings| && RowChecked(t, b)
  {
    ConfirmsAndPays(s, op, b);
    var p :| PaidFor(t.payments, p, b) && t.payments[p].paidAt.value == op.now;
    OneCapture(t, b);
    JobFact(s, OverdueCheck(b));
    var due := EndOf(s.bookings[b]) + 2 * MS_PER_HOUR;
    assert PaidBefore(t.payments, b, due) <==> op.now < due;
  }

  ghost predicate RowCheckedIn(s: Db, b: BookingId) {
    b < |s.bookings| && RowChecked(s, b)
  }

  /** Only payments and new bookings change who is CONFIRMED or PENDING_PAYMENT. */
  ghost predicate ConfirmsOnly(s: Db, t: Db, b: BookingId, confirmed: Option<BookingId>)
    requires b < |t.bookings|
  {
    var was := if b < |s.bookings| then Some(s.bookings[b]) else None;
    && (t.bookings[b].status == PendingPayment && t.bookings[b].needsReview ==>
          was.Some? && was.value.status == PendingPayment && was.value.needsReview)
    && (t.bookings[b].status == Confirmed ==> (was.Some? && was.value.status == Confirmed) || confirmed == Some(b))
  }

  lemma OnlyPaymentsConfirm(s: Db, op: Op, b: BookingId)
    requires PaymentsHaveBookings(s) && b < |Step(s, op).0.bookings|
    ensures ConfirmsOnly(s, Step(s, op).0, b, if op.WebhookOp? || op.VerifyOp? then ConfirmedBy(Step(s, op).1) else None)
  {
    if op.WebhookOp? || op.VerifyOp? {
      PaymentConfirms(s, op);
      ConfirmingRow(s, Step(s, op).0, ConfirmedBy(Step(s, op).1), op.now, b);
    } else {
      RequestsConfirmNothing(s, op, b);
    }
  }

  lemma ConfirmingRow(s: Db, t: Db, confirmed: Option<BookingId>, now: int, b: BookingId)
    requires OnlyConfirms(s, t, confirmed, now) && b < |t.bookings|
    ensures ConfirmsOnly(s, t, b, confirmed)
  {
  }

  lemma RequestsConfirmNothing(s: Db, op: Op, b: BookingId)
    requires PaymentsHaveBookings(s) && !op.WebhookOp? && !op.VerifyOp? && b < |Step(s, op).0.bookings|
    ensures ConfirmsOnly(s, Step(s, op).0, b, None)
  {
  }

  lemma RowCheckedStep(s: Db, op: Op, t: Db, b: BookingId)
    requires Inv(s) && ChecksOk(s) && ValidOp(op) && t == Step(s, op).0 && ConsistentDb(t) && b < |t.bookings|
    ensures RowChecked(t, b)
  {
    OnlyPaymentsConfirm(s, op, b);
    assert b < |s.bookings| ==> RowChecked(s, b);
    if t.bookings[b].status == Confirmed {
      if b < |s.bookings| && s.bookings[b].status == Confirmed {
        BookingsStep(s, op);
        PaymentsStep(s, op);
        ConfirmedCheck(s, op, b);
        assert BookingRow(s.payments, b, s.bookings[b]);
        PaidBeforeStays(s, t, b, EndOf(s.bookings[b]) + 2 * MS_PER_HOUR);
      } else {
        PaymentConfirms(s, op);
        NewlyConfirmed(s, op, t, b);
      }
    }
  }

  ghost predicate CheckedInv(s: Db) {
    Inv(s) && ChecksOk(s)
  }

  lemma ReachedChecks(s: Db)
    requires Reached(s)
    ensures ChecksOk(s)
  {
    InvInit();
    forall u, op, v | Leads(u, op, v) && CheckedInv(u) ensures CheckedInv(v) {
      InvStep(u, op);
      forall b | 0 <= b < |v.bookings| ensures RowChecked(v, b) {
        RowCheckedStep(u, op, v, b);
      }
    }
    HoldsFromThen(EmptyDb, s, Leads, CheckedInv);
  }

  /**
   In every run a CONFIRMED booking was paid before its check was due exactly if that check is still queued or has
   flagged it. So once the queue is drained past that time, exactly those bookings are flagged.
   */
  lemma OverdueComplete(s: Db, b: BookingId, t: int)
    requires Reached(s) && b < |s.bookings| && s.bookings[b].status == Confirmed
    ensures Checked(s, b)
    ensures NothingDue(s, t) && EndOf(s.bookings[b]) + 2 * MS_PER_HOUR <= t ==>
      (s.bookings[b].needsReview <==> PaidBefore(s.payments, b, EndOf(s.bookings[b]) + 2 * MS_PER_HOUR))
  {
    ReachedInv(s);
    ReachedChecks(s);
    assert RowChecked(s, b);
    JobFact(s, OverdueCheck(b));
  }
}
