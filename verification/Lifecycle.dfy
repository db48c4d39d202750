/**
 How rows change from one step to the next: which statuses can follow which, what never changes,
 and the invariants on refunds, queued jobs, overdue flags, the exclusion constraint and events.
 */
module Lifecycle {
  import opened Domain
  import opened Instants
  import opened Protocol
  import opened CaptureInvariant

  /** The databases differ at most in the events table. */
  ghost predicate SameButEvents(s: Db, t: Db) {
    t.(events := s.events) == s
  }

  // ---------------------------------------------------------------- bookings

  /** The changes of status that happen. */
  predicate StatusEdge(before: BookingStatus, after: BookingStatus) {
    || before == after
    || (before == PendingPayment && after in {Confirmed, Cancelled, Expired})
    || (before == Confirmed && after in {Completed, Cancelled})
    || (before == Completed && after == Cancelled)
  }

  ghost predicate SameBooking(a: Booking, b: Booking) {
    && a.customerId == b.customerId && a.providerId == b.providerId && a.providerUserId == b.providerUserId
    && a.bookingDate == b.bookingDate && a.startTime == b.startTime && a.endTime == b.endTime
    && a.bookedPrice == b.bookedPrice && a.createdAt == b.createdAt
  }

  ghost predicate BookingsEvolve(bs: seq<Booking>, cs: seq<Booking>) {
    && |bs| <= |cs|
    && (forall b :: 0 <= b < |bs| ==> SameBooking(bs[b], cs[b]) && StatusEdge(bs[b].status, cs[b].status))
    && (forall b :: |bs| <= b < |cs| ==> cs[b].status == PendingPayment)
  }

  lemma RefundBookings(s: Db, op: Op)
    requires ConsistentDb(s) && op.RefundOp?
    ensures BookingsEvolve(s.bookings, Step(s, op).0.bookings)
  {
    if op.paymentId < |s.payments| {
      var b := s.payments[op.paymentId].bookingId;
      assert PaymentRow(s.bookings, s.payments[op.paymentId]);
      assert BookingRow(s.payments, b, s.bookings[b]);
    }
  }

  /** The booking a payment step reports as confirmed. */
  function ConfirmedBy(reply: Reply): Option<BookingId> {
    match reply
    case PaymentVerified(b) => Some(b)
    case WebhookProcessed(confirmed) => confirmed
    case _ => None
  }

  /** Bookings and queue change only by confirming the one pending booking that is reported. */
  ghost predicate OnlyConfirms(s: Db, t: Db, confirmed: Option<BookingId>, now: int) {
    match confirmed
    case Some(b) =>
      && b < |s.bookings| && s.bookings[b].status == PendingPayment
      && t.bookings == SetBookingStatus(s.bookings, b, Confirmed, now)
      && t.jobs == ConfirmJobs(s.jobs, b, s.bookings[b], now)
    case None => t.bookings == s.bookings && t.jobs == s.jobs
  }

  lemma WebhookConfirms(s: Db, d: Delivery, now: int)
    requires PaymentsHaveBookings(s)
    ensures var (t, reply) := HandleWebhook(s, d, now); OnlyConfirms(s, t, ConfirmedBy(reply), now)
  {
  }

  lemma VerifyConfirms(s: Db, op: Op)
    requires PaymentsHaveBookings(s) && op.VerifyOp?
    ensures var (t, reply) := Step(s, op); OnlyConfirms(s, t, ConfirmedBy(reply), op.now)
  {
  }

  /** One step moves each booking along an edge; that EXPIRED is never left rests on the payment rows. */
  lemma BookingsStep(s: Db, op: Op)
    requires ConsistentDb(s)
    ensures BookingsEvolve(s.bookings, Step(s, op).0.bookings)
  {
    match op
    case WebhookOp(_, _) => ConfirmBookings(s, op);
    case VerifyOp(_, _, _, _, _) => ConfirmBookings(s, op);
    case RefundOp(_, _, _) => RefundBookings(s, op);
    case RunJobOp(_, _) => RunJobBookings(s, op);
    case CreateBookingOp(_, _, _, _, _) => CreateBookings(s, op);
    case _ => RequestBookings(s, op);
  }

  lemma ConfirmBookings(s: Db, op: Op)
    requires PaymentsHaveBookings(s) && (op.WebhookOp? || op.VerifyOp?)
    ensures BookingsEvolve(s.bookings, Step(s, op).0.bookings)
  {
    if op.WebhookOp? {
      WebhookConfirms(s, op.delivery, op.now);
    } else {
      VerifyConfirms(s, op);
    }
  }

  lemma CreateBookings(s: Db, op: Op)
    requires PaymentsHaveBookings(s) && op.CreateBookingOp?
    ensures BookingsEvolve(s.bookings, Step(s, op).0.bookings)
  {
  }

  lemma RequestBookings(s: Db, op: Op)
    requires PaymentsHaveBookings(s) && (op.CancelOp? || op.CompleteOp? || op.CreateOrderOp?)
    ensures BookingsEvolve(s.bookings, Step(s, op).0.bookings)
  {
  }

  lemma RunJobBookings(s: Db, op: Op)
    requires PaymentsHaveBookings(s) && op.RunJobOp?
    ensures BookingsEvolve(s.bookings, Step(s, op).0.bookings)
  {
  }

  /** A reservation only expires once its payment window is over. */
  lemma ExpiryNotEarly(s: Db, op: Op, b: BookingId)
    requires ConsistentDb(s) && JobsOk(s) && b < |s.bookings|
    requires s.bookings[b].status != Expired
    requires b < |Step(s, op).0.bookings| && Step(s, op).0.bookings[b].status == Expired
    ensures op.RunJobOp? && op.now >= s.bookings[b].createdAt + 15 * MS_PER_MINUTE
  {
    if op.RunJobOp? {
      if op.key in s.jobs {
        assert JobOk(s, op.key, s.jobs[op.key]);
      }
    } else {
      OnlyJobsExpire(s, op, b);
    }
  }

  lemma OnlyJobsExpire(s: Db, op: Op, b: BookingId)
    requires ConsistentDb(s) && !op.RunJobOp? && b < |s.bookings| && s.bookings[b].status != Expired
    ensures b < |Step(s, op).0.bookings| && Step(s, op).0.bookings[b].status != Expired
  {
    match op
    case WebhookOp(d, now) => WebhookConfirms(s, d, now);
    case VerifyOp(_, _, _, _, _) => VerifyConfirms(s, op);
    case _ => RequestsDoNotExpire(s, op, b);
  }

  lemma RequestsDoNotExpire(s: Db, op: Op, b: BookingId)
    requires PaymentsHaveBookings(s) && !op.RunJobOp? && !op.WebhookOp? && !op.VerifyOp?
    requires b < |s.bookings| && s.bookings[b].status != Expired
    ensures b < |Step(s, op).0.bookings| && Step(s, op).0.bookings[b].status != Expired
  {
  }

  // ---------------------------------------------------------------- payments

  /** Identity and `paidAt` are fixed once written, and a captured payment that left SUCCESS stays out. */
  ghost predicate PaymentEdge(a: Payment, b: Payment) {
    && a.bookingId == b.bookingId && a.gatewayOrderId == b.gatewayOrderId && a.amount == b.amount && a.currency == b.currency
    && (a.paidAt.Some? ==> b.paidAt == a.paidAt)
    && (a.status != Created ==> b.status != Created)
    && (a.status != Success && a.paidAt.Some? ==> b.status != Success)
  }

  ghost predicate PaymentsEvolve(ps: seq<Payment>, qs: seq<Payment>) {
    |ps| <= |qs| && forall p :: 0 <= p < |ps| ==> PaymentEdge(ps[p], qs[p])
  }

  lemma EventPayments(s: Db, p: PaymentId, d: Delivery, now: int)
    requires ConsistentDb(s) && p < |s.payments|
    ensures PaymentsEvolve(s.payments, ApplyEvent(s, p, d, now).0.payments)
  {
    assert PaymentRow(s.bookings, s.payments[p]);
  }

  lemma WebhookPayments(s: Db, d: Delivery, now: int)
    requires ConsistentDb(s)
    ensures PaymentsEvolve(s.payments, HandleWebhook(s, d, now).0.payments)
  {
    if d.orderId.Some? && FindByOrder(s.payments, d.orderId.value).Some? {
      EventPayments(s, FindByOrder(s.payments, d.orderId.value).value, d, now);
    }
  }

  lemma VerifyPayments(s: Db, op: Op)
    requires ConsistentDb(s) && op.VerifyOp?
    ensures PaymentsEvolve(s.payments, Step(s, op).0.payments)
  {
    if Step(s, op).1.PaymentVerified? {
      var p := FindByOrder(s.payments, op.orderId).value;
      assert PaymentRow(s.bookings, s.payments[p]);
    }
  }

  lemma PaymentsStep(s: Db, op: Op)
    requires ConsistentDb(s)
    ensures PaymentsEvolve(s.payments, Step(s, op).0.payments)
  {
    match op
    case WebhookOp(d, now) => WebhookPayments(s, d, now);
    case VerifyOp(_, _, _, _, _) => VerifyPayments(s, op);
    case _ => RequestPayments(s, op);
  }

  lemma RequestPayments(s: Db, op: Op)
    requires PaymentsHaveBookings(s) && !op.WebhookOp? && !op.VerifyOp?
    ensures PaymentsEvolve(s.payments, Step(s, op).0.payments)
  {
  }

  // ---------------------------------------------------------------- refunds

  ghost predicate RefundOk(payments: seq<Payment>, r: Refund) {
    && r.paymentId < |payments|
    && payments[r.paymentId].paidAt.Some?
    && payments[r.paymentId].status != Success
    && 0.0 <= r.amount <= InUnits(payments[r.paymentId].amount)
  }

  /** Refunds go to distinct captured payments that have left SUCCESS, for no more than was paid. */
  ghost predicate RefundsOk(s: Db) {
    && (forall i :: 0 <= i < |s.refunds| ==> RefundOk(s.payments, s.refunds[i]))
    && (forall i, j :: 0 <= i < j < |s.refunds| ==> s.refunds[i].paymentId != s.refunds[j].paymentId)
  }

  lemma OnlyRefundRefunds(s: Db, op: Op)
    requires ConsistentDb(s) && !op.RefundOp?
    ensures Step(s, op).0.refunds == s.refunds
  {
    match op
    case WebhookOp(d, now) =>
    case _ =>
  }

  lemma RefundsStep(s: Db, op: Op)
    requires ConsistentDb(s) && RefundsOk(s)
    ensures RefundsOk(Step(s, op).0)
  {
    var t := Step(s, op).0;
    PaymentsStep(s, op);
    forall i | 0 <= i < |s.refunds| ensures RefundOk(t.payments, s.refunds[i]) {
      assert RefundOk(s.payments, s.refunds[i]);
      assert PaymentEdge(s.payments[s.refunds[i].paymentId], t.payments[s.refunds[i].paymentId]);
    }
    if !op.RefundOp? {
      OnlyRefundRefunds(s, op);
    } else if t.refunds != s.refunds {
      NewRefundOk(s, op);
    }
  }

  /** A payment that can be refunded has no refund yet. */
  lemma NewRefundOk(s: Db, op: Op)
    requires ConsistentDb(s) && RefundsOk(s) && op.RefundOp? && Step(s, op).0.refunds != s.refunds
    ensures var t := Step(s, op).0; |t.refunds| == |s.refunds| + 1 && t.refunds[..|s.refunds|] == s.refunds
    ensures RefundOk(Step(s, op).0.payments, Step(s, op).0.refunds[|s.refunds|])
    ensures Step(s, op).0.refunds[|s.refunds|].paymentId == op.paymentId
    ensures forall i :: 0 <= i < |s.refunds| ==> s.refunds[i].paymentId != op.paymentId
  {
    assert PaymentRow(s.bookings, s.payments[op.paymentId]);
    forall i | 0 <= i < |s.refunds| ensures s.refunds[i].paymentId != op.paymentId {
      assert RefundOk(s.payments, s.refunds[i]);
    }
  }

  // ---------------------------------------------------------------- queue and flags

  /** An expiry job belongs to an unpaid reservation, an overdue check to one that was confirmed. */
  ghost predicate JobOk(s: Db, key: JobKey, due: int) {
    && key.bookingId < |s.bookings|
    && var row := s.bookings[key.bookingId];
       match key
       case ExpirePayment(_) => due == row.createdAt + 15 * MS_PER_MINUTE && row.status == PendingPayment
       case OverdueCheck(_) => due == EndOf(row) + 2 * MS_PER_HOUR && (row.status == Confirmed || row.status == Cancelled)
  }

  /** Jobs are due when they should be, and exactly the unpaid reservations have an expiry job. */
  ghost predicate JobsOk(s: Db) {
    && (forall key :: key in s.jobs ==> JobOk(s, key, s.jobs[key]))
    && (forall b :: 0 <= b < |s.bookings| && s.bookings[b].status == PendingPayment ==> ExpirePayment(b) in s.jobs)
  }

  ghost predicate FlagOk(b: Booking) {
    if b.needsReview then b.overdueAt.Some? && b.overdueAt.value >= EndOf(b) + 2 * MS_PER_HOUR else b.overdueAt.None?
  }

  ghost predicate FlagsOk(s: Db) {
    forall b :: 0 <= b < |s.bookings| ==> FlagOk(s.bookings[b])
  }

  lemma JobFact(s: Db, key: JobKey)
    requires JobsOk(s)
    ensures key in s.jobs ==> JobOk(s, key, s.jobs[key])
  {
  }

  /** A job may stay as long as its booking stays as it was, or keeps or loses its slot by refund. */
  ghost predicate JobStays(s: Db, t: Db, key: JobKey)
    requires |s.bookings| == |t.bookings|
  {
    && key in t.jobs && key in s.jobs && t.jobs[key] == s.jobs[key]
    && (key.bookingId < |s.bookings| ==>
          || t.bookings[key.bookingId].status == s.bookings[key.bookingId].status
          || (key.OverdueCheck? && t.bookings[key.bookingId].status == Cancelled))
  }

  lemma JobsKeep(s: Db, t: Db)
    requires JobsOk(s) && |s.bookings| == |t.bookings|
    requires forall b :: 0 <= b < |s.bookings| ==> SameBooking(s.bookings[b], t.bookings[b])
    requires forall b :: 0 <= b < |s.bookings| && t.bookings[b].status == PendingPayment ==>
               s.bookings[b].status == PendingPayment && ExpirePayment(b) in t.jobs
    requires forall key :: key in t.jobs ==> JobStays(s, t, key) || JobOk(t, key, t.jobs[key])
    ensures JobsOk(t)
  {
    forall key | key in t.jobs ensures JobOk(t, key, t.jobs[key]) {
      if JobStays(s, t, key) {
        assert JobOk(s, key, s.jobs[key]);
      }
    }
  }

  lemma CreateBookingJobs(s: Db, op: Op)
    requires JobsOk(s) && PaymentsHaveBookings(s) && op.CreateBookingOp?
    ensures JobsOk(Step(s, op).0)
  {
    var t := Step(s, op).0;
    forall key | key in t.jobs ensures JobOk(t, key, t.jobs[key]) {
      if key in s.jobs {
        assert JobOk(s, key, s.jobs[key]);
      }
    }
    JobFact(s, ExpirePayment(|s.bookings|));
  }

  lemma ConfirmJobsKeep(s: Db, t: Db, b: BookingId, now: int)
    requires JobsOk(s) && b < |s.bookings| && s.bookings[b].status == PendingPayment
    requires t.bookings == SetBookingStatus(s.bookings, b, Confirmed, now)
    requires t.jobs == ConfirmJobs(s.jobs, b, s.bookings[b], now)
    ensures JobsOk(t)
  {
    JobFact(s, OverdueCheck(b));
    forall key | key in t.jobs && key.bookingId != b ensures JobStays(s, t, key) {
      assert JobOk(s, key, s.jobs[key]);
    }
    JobsKeep(s, t);
  }

  /** One booking is not in PENDING_PAYMENT any more, and only its own jobs are removed. */
  lemma RowJobsKeep(s: Db, t: Db, b: BookingId, row: Booking)
    requires ExpirePayment(b) !in t.jobs && (OverdueCheck(b) in t.jobs ==> row.status == Confirmed || row.status == Cancelled)
    requires JobsOk(s) && b < |s.bookings| && SameBooking(s.bookings[b], row) && row.status != PendingPayment
    requires t.bookings == s.bookings[b := row]
    requires forall key :: key in t.jobs ==> key in s.jobs && t.jobs[key] == s.jobs[key]
    requires forall key :: key in s.jobs && key.bookingId != b ==> key in t.jobs
    ensures JobsOk(t)
  {
    forall key | key in t.jobs ensures JobStays(s, t, key) || JobOk(t, key, t.jobs[key]) {
      assert JobOk(s, key, s.jobs[key]);
    }
    JobsKeep(s, t);
  }

  /** A booking that is not PENDING_PAYMENT has no expiry job. */
  lemma NoStaleExpiry(s: Db, b: BookingId)
    requires JobsOk(s) && b < |s.bookings| && s.bookings[b].status != PendingPayment
    ensures ExpirePayment(b) !in s.jobs
  {
    JobFact(s, ExpirePayment(b));
  }

  lemma SameJobsKeep(s: Db, t: Db)
    requires JobsOk(s) && t.bookings == s.bookings && t.jobs == s.jobs
    ensures JobsOk(t)
  {
    JobsKeep(s, t);
  }

  lemma PaymentServiceJobs(s: Db, t: Db, confirmed: Option<BookingId>, now: int)
    requires JobsOk(s) && OnlyConfirms(s, t, confirmed, now)
    ensures JobsOk(t)
  {
    match confirmed
    case Some(b) => ConfirmJobsKeep(s, t, b, now);
    case None => SameJobsKeep(s, t);
  }

  lemma RunJobJobs(s: Db, op: Op)
    requires ConsistentDb(s) && JobsOk(s) && op.RunJobOp?
    ensures JobsOk(Step(s, op).0)
  {
    var t, b := Step(s, op).0, op.key.bookingId;
    if t != s {
      assert JobOk(s, op.key, s.jobs[op.key]);
      if op.key.OverdueCheck? {
        NoStaleExpiry(s, b);
      }
      RowJobsKeep(s, t, b, t.bookings[b]);
    }
  }

  lemma RequestJobs(s: Db, op: Op)
    requires ConsistentDb(s) && JobsOk(s) && (op.CancelOp? || op.CompleteOp?)
    ensures JobsOk(Step(s, op).0)
  {
    var (t, reply) := Step(s, op);
    if !reply.Rejected? {
      var b := op.bookingId;
      if op.CompleteOp? {
        NoStaleExpiry(s, b);
      }
      RowJobsKeep(s, t, b, t.bookings[b]);
    }
  }

  lemma RefundJobs(s: Db, op: Op)
    requires ConsistentDb(s) && JobsOk(s) && op.RefundOp?
    ensures JobsOk(Step(s, op).0)
  {
    var (t, reply) := Step(s, op);
    if reply.RefundDone? {
      var b := s.payments[op.paymentId].bookingId;
      assert PaymentRow(s.bookings, s.payments[op.paymentId]);
      NoStaleExpiry(s, b);
      RowJobsKeep(s, t, b, t.bookings[b]);
    }
  }

  lemma JobsStep(s: Db, op: Op)
    requires ConsistentDb(s) && JobsOk(s)
    ensures JobsOk(Step(s, op).0)
  {
    var (t, reply) := Step(s, op);
    match op
    case CreateBookingOp(_, _, _, _, _) => CreateBookingJobs(s, op);
    case RunJobOp(_, _) => RunJobJobs(s, op);
    case RefundOp(_, _, _) => RefundJobs(s, op);
    case VerifyOp(_, _, _, _, now) =>
      VerifyConfirms(s, op);
      PaymentServiceJobs(s, t, ConfirmedBy(reply), now);
    case WebhookOp(d, now) =>
      WebhookConfirms(s, d, now);
      PaymentServiceJobs(s, t, ConfirmedBy(reply), now);
    case CreateOrderOp(_, _, _) => SameJobsKeep(s, t);
    case _ => RequestJobs(s, op);
  }

  lemma RunJobFlags(s: Db, op: Op)
    requires PaymentsHaveBookings(s) && JobsOk(s) && FlagsOk(s) && op.RunJobOp?
    ensures FlagsOk(Step(s, op).0)
  {
    if op.key in s.jobs {
      assert JobOk(s, op.key, s.jobs[op.key]);
    }
  }

  lemma FlagsStep(s: Db, op: Op)
    requires ConsistentDb(s) && JobsOk(s) && FlagsOk(s)
    ensures FlagsOk(Step(s, op).0)
  {
    match op
    case WebhookOp(_, _) => ConfirmFlags(s, op);
    case VerifyOp(_, _, _, _, _) => ConfirmFlags(s, op);
    case RunJobOp(_, _) => RunJobFlags(s, op);
    case _ => RequestFlags(s, op);
  }

  lemma ConfirmFlags(s: Db, op: Op)
    requires PaymentsHaveBookings(s) && FlagsOk(s) && (op.WebhookOp? || op.VerifyOp?)
    ensures FlagsOk(Step(s, op).0)
  {
    if op.WebhookOp? {
      WebhookConfirms(s, op.delivery, op.now);
    } else {
      VerifyConfirms(s, op);
    }
  }

  ghost predicate SameFlags(bs: seq<Booking>, cs: seq<Booking>) {
    |bs| <= |cs| && forall b :: 0 <= b < |bs| ==> cs[b].needsReview == bs[b].needsReview && cs[b].overdueAt == bs[b].overdueAt
  }

  /** No request flags a booking. */
  lemma RequestFlags(s: Db, op: Op)
    requires PaymentsHaveBookings(s) && !op.WebhookOp? && !op.VerifyOp? && !op.RunJobOp?
    ensures SameFlags(s.bookings, Step(s, op).0.bookings)
    ensures FlagsOk(s) ==> FlagsOk(Step(s, op).0)
  {
    if op.CreateBookingOp? {
      CreateFlags(s, op);
    }
  }

  lemma CreateFlags(s: Db, op: Op)
    requires PaymentsHaveBookings(s) && op.CreateBookingOp?
    ensures SameFlags(s.bookings, Step(s, op).0.bookings)
    ensures FlagsOk(s) ==> FlagsOk(Step(s, op).0)
  {
  }

  // ---------------------------------------------------------------- exclusion constraint

  ghost predicate NoOverlap(bookings: seq<Booking>) {
    forall i, j :: 0 <= i < j < |bookings| && Active(bookings[i].status) && Active(bookings[j].status) ==>
      !Overlaps(bookings[i], bookings[j])
  }

  /** No step but an insert can conflict: whatever holds a slot afterwards held the same slot before. */
  lemma OnlyCreateClaimsSlots(s: Db, op: Op, b: BookingId)
    requires ConsistentDb(s) && !op.CreateBookingOp? && b < |Step(s, op).0.bookings|
    requires Active(Step(s, op).0.bookings[b].status)
    ensures b < |s.bookings| && Active(s.bookings[b].status) && SameBooking(s.bookings[b], Step(s, op).0.bookings[b])
  {
    BookingsStep(s, op);
    match op
    case WebhookOp(d, now) => WebhookConfirms(s, d, now);
    case VerifyOp(_, _, _, _, _) => VerifyConfirms(s, op);
    case _ =>
  }

  lemma OverlapStep(s: Db, op: Op)
    requires ConsistentDb(s) && NoOverlap(s.bookings)
    ensures NoOverlap(Step(s, op).0.bookings)
  {
    var t := Step(s, op).0;
    if !op.CreateBookingOp? {
      forall i, j | 0 <= i < j < |t.bookings| && Active(t.bookings[i].status) && Active(t.bookings[j].status)
        ensures !Overlaps(t.bookings[i], t.bookings[j])
      {
        OnlyCreateClaimsSlots(s, op, i);
        OnlyCreateClaimsSlots(s, op, j);
      }
    }
  }

  // ---------------------------------------------------------------- events

  /** Every committed event row was marked processed in the same transaction. */
  ghost predicate EventsProcessed(s: Db) {
    forall e :: e in s.events ==> s.events[e].processedAt.Some?
  }

  lemma OnlyWebhooksRecord(s: Db, op: Op)
    requires PaymentsHaveBookings(s) && !op.WebhookOp?
    ensures Step(s, op).0.events == s.events
  {
  }

  lemma EventsStep(s: Db, op: Op)
    requires PaymentsHaveBookings(s) && EventsProcessed(s)
    ensures EventsProcessed(Step(s, op).0)
    ensures s.events.Keys <= Step(s, op).0.events.Keys
  {
    if op.WebhookOp? {
      WebhookEvents(s, op.delivery, op.now);
    } else {
      OnlyWebhooksRecord(s, op);
    }
  }

  lemma WebhookEvents(s: Db, d: Delivery, now: int)
    requires PaymentsHaveBookings(s)
    ensures var t := HandleWebhook(s, d, now).0;
      t.events == s.events || t.events == s.events[d.eventId := WebhookEvent(Some(now))]
  {
  }
}
