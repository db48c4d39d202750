/**
 Review requests follow the recomposed end of an appointment: when that lets them out before it is over.
 */
module ReviewRequests {
  import opened Domain
  import opened Instants
  import opened Protocol
  import opened CaptureInvariant
  import opened Executions
  import opened Guarantees
  import opened Overdue
  import opened Notifications

  ghost predicate AskedBefore(outbox: seq<Mail>, b: BookingId, limit: int) {
    exists k :: 0 <= k < |outbox| && outbox[k].key == ReviewRequest(b) && outbox[k].sentAt < limit
  }

  /** Some continuation mails a review request for `b` before `limit`. */
  ghost predicate CanAskBefore(u: System, b: BookingId, limit: int) {
    exists v :: Reaches(u, v, SystemLeads) && AskedBefore(v.mail.outbox, b, limit)
  }

  ghost predicate KeptRow(w: System, row: Booking, b: BookingId) {
    SystemInv(w) && Survives(row, b, w.db)
  }

  lemma RowKept(u: System, v: System, b: BookingId)
    requires SystemInv(u) && b < |u.db.bookings| && Reaches(u, v, SystemLeads)
    ensures KeptRow(v, u.db.bookings[b], b)
  {
    var row := u.db.bookings[b];
    var kept := (w: System) => KeptRow(w, row, b);
    forall x, op, y | SystemLeads(x, op, y) && kept(x) ensures kept(y) {
      SystemInvStep(x, op);
      if op.Core? {
        KeptByStep(x.db, op.op, row, b);
      }
    }
    HoldsFromThen(u, v, SystemLeads, kept);
  }

  lemma KeptByStep(s: Db, op: Op, row: Booking, b: BookingId)
    requires Survives(row, b, s) && ValidOp(op)
    ensures Survives(row, b, Step(s, op).0)
  {
    var t := Step(s, op).0;
    ReachesSelf<Db, Op>(s, Leads);
    ReachesNext(s, s, op, t, Leads);
    BookingSurvives(s, t, b);
  }

  /** No request precedes the recomposed end plus an hour. */
  lemma AskNeedsWrap(u: System, v: System, b: BookingId, limit: int)
    requires SystemInv(u) && b < |u.db.bookings| && Reaches(u, v, SystemLeads) && AskedBefore(v.mail.outbox, b, limit)
    ensures EndOf(u.db.bookings[b]) + MS_PER_HOUR < limit
  {
    RowKept(u, v, b);
    var k :| 0 <= k < |v.mail.outbox| && v.mail.outbox[k].key == ReviewRequest(b) && v.mail.outbox[k].sentAt < limit;
    assert DueFits(v.mail.outbox[k].key, v.db.bookings, v.mail.outbox[k].sentAt);
  }

  lemma PayingSchedules(u: System, b: BookingId, p: PaymentId, g: GatewayPaymentId, at: int, t: System)
    requires Payable(u.db, b, p, g) && NothingQueuedFor(u.mail, b) && FreshIds(u.mail)
    requires at < EndOf(u.db.bookings[b]) + MS_PER_HOUR
    requires t == SystemStep(u, Core(VerifyOp(u.db.bookings[b].customerId, u.db.payments[p].gatewayOrderId, g, true, at), at))
    ensures QueuedAt(t.mail, ReviewRequest(b), EndOf(u.db.bookings[b]) + MS_PER_HOUR)
  {
    FindsOwn(u.db.payments, p);
    var paid := SetBookingStatus(u.db.bookings, b, Confirmed, at);
    assert t.mail == ScheduleLifecycle(u.mail, b, paid[b], at);
    ScheduleExact(u.mail, b, paid[b], at);
  }

  lemma RequestSent(t: System, b: BookingId, due: int, v: System, limit: int)
    requires PaymentsHaveBookings(t.db) && QueuedAt(t.mail, ReviewRequest(b), due) && due < limit
    requires v == SystemStep(t, RunNotice(ReviewRequest(b), due, true, true))
    ensures AskedBefore(v.mail.outbox, b, limit)
  {
    assert v.mail.outbox[|t.mail.outbox|].key == ReviewRequest(b);
  }

  /** A reservation paid before its recomposed end plus an hour can be asked for a review at that very time. */
  lemma CanBeAsked(u: System, b: BookingId, p: PaymentId, g: GatewayPaymentId, at: int, limit: int)
    requires Payable(u.db, b, p, g) && NothingQueuedFor(u.mail, b) && FreshIds(u.mail)
    requires at < EndOf(u.db.bookings[b]) + MS_PER_HOUR < limit
    ensures CanAskBefore(u, b, limit)
  {
    var due := EndOf(u.db.bookings[b]) + MS_PER_HOUR;
    var verify := Core(VerifyOp(u.db.bookings[b].customerId, u.db.payments[p].gatewayOrderId, g, true, at), at);
    var ask := RunNotice(ReviewRequest(b), due, true, true);
    var t := SystemStep(u, verify);
    PayingSchedules(u, b, p, g, at, t);
    var v := SystemStep(t, ask);
    RequestSent(t, b, due, v, limit);
    ReachesSelf<System, SystemOp>(u, SystemLeads);
    ReachesNext(u, u, verify, t, SystemLeads);
    ReachesNext(u, t, ask, v, SystemLeads);
  }

  lemma EarlyRequestOf(u: System, b: BookingId, p: PaymentId, row: Booking, startsAt: int, end: int, limit: int)
    requires SystemInv(u) && JustMade(u.db, b, p, row, startsAt, end) && NothingQueuedFor(u.mail, b)
    requires limit == NearestSecond(end) + MS_PER_HOUR
    ensures CanAskBefore(u, b, limit) <==> end % MS_PER_DAY >= MS_PER_DAY - 500
  {
    WrapIsEarly(row, startsAt, end);
    if EndOf(row) < NearestSecond(end) {
      var g := FreshGatewayId(u.db.payments);
      CanBeAsked(u, b, p, g, EndOf(row), limit);
    }
    if CanAskBefore(u, b, limit) {
      var v :| Reaches(u, v, SystemLeads) && AskedBefore(v.mail.outbox, b, limit);
      AskNeedsWrap(u, v, b, limit);
    }
  }

  /**
   A customer can be asked for a review before an hour after the booked end, to the nearest second, exactly when that
   end lies in the last half second of its day.
   */
  lemma EarlyRequestExactly(s: System, c: UserId, o: Offering, startsAt: int, order: OrderId, now: int, u: System, end: int)
    requires SystemReached(s) && ValidOffering(o) && PaymentsHaveBookings(s.db)
    requires CreateBooking(s.db, c, Some(o), Some(startsAt), order, now).1.BookingMade?
    requires u == SystemStep(s, Core(CreateBookingOp(c, Some(o), Some(startsAt), order, now), now))
    requires end == startsAt + o.durationMinutes * MS_PER_MINUTE
    ensures CanAskBefore(u, |s.db.bookings|, NearestSecond(end) + MS_PER_HOUR) <==> end % MS_PER_DAY >= MS_PER_DAY - 500
  {
    SystemReachedInv(s);
    var row, b, p, limit := NewBooking(c, o, startsAt, now), |s.db.bookings|, |s.db.payments|, NearestSecond(end) + MS_PER_HOUR;
    SystemInvStep(s, Core(CreateBookingOp(c, Some(o), Some(startsAt), order, now), now));
    MadeByCreation(s.db, c, o, startsAt, order, now, u.db, row, end);
    assert u.mail == s.mail;
    EarlyRequestOf(u, b, p, row, startsAt, end, limit);
  }
}
