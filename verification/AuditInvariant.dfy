/**
 Every step keeps the audit log in agreement with the tables.
 */
module AuditInvariant {
  import opened Domain
  import opened Protocol
  import opened CaptureInvariant
  import opened AuditTrail

  ghost predicate AuditOk(s: Db) {
    TrailOk(s.bookings, s.payments, s.audit) && MarksOk(s.bookings, s.payments, s.audit)
  }

  lemma CapturesSame(ps: seq<Payment>, qs: seq<Payment>)
    requires SameOwners(ps, qs)
    requires forall p :: 0 <= p < |ps| ==> qs[p].paidAt.Some? == ps[p].paidAt.Some?
    requires forall p :: |ps| <= p < |qs| ==> qs[p].paidAt.None?
    ensures forall b: BookingId :: HasCapture(qs, b) == HasCapture(ps, b)
  {
    forall b: BookingId ensures HasCapture(qs, b) == HasCapture(ps, b) {
      if HasCapture(ps, b) {
        var p :| PaidFor(ps, p, b);
        assert PaidFor(qs, p, b);
      }
      if HasCapture(qs, b) {
        var p :| PaidFor(qs, p, b);
        assert PaidFor(ps, p, b);
      }
    }
  }

  /** An open payment means that nothing was captured for its booking. */
  lemma OpenMeansUncaptured(bs: seq<Booking>, ps: seq<Payment>, p: PaymentId)
    requires Consistent(bs, ps) && p < |ps| && ps[p].status == Created
    ensures !HasCapture(ps, ps[p].bookingId)
  {
    assert PaymentRow(bs, ps[p]);
    forall q ensures !PaidFor(ps, q, ps[p].bookingId) {
      if 0 <= q < p {
        assert PaymentPair(ps[q], ps[p]);
      } else if p < q < |ps| {
        assert PaymentPair(ps[p], ps[q]);
      }
    }
  }

  lemma CaptureSettles(bs: seq<Booking>, cs: seq<Booking>, ps: seq<Payment>, p: PaymentId, g: Option<GatewayPaymentId>,
                       now: int, log: seq<AuditEntry>, e: AuditEntry)
    requires Consistent(bs, ps) && p < |ps| && ps[p].status == Created && MarksOk(bs, ps, log)
    requires e.OnBooking? && e.bookingId == ps[p].bookingId && e.action != BookingFlaggedOverdue
    requires (e.action == BookingConfirmed) != e.requiresRefund
    requires forall i: BookingId :: Flagged(cs, i) == Flagged(bs, i)
    ensures MarksOk(cs, MarkPaid(ps, p, g, now), log + [e])
  {
    var qs, b := MarkPaid(ps, p, g, now), ps[p].bookingId;
    OpenMeansUncaptured(bs, ps, p);
    CapturesStay(ps, qs);
    assert PaidFor(qs, p, b);
    forall i: BookingId | i != b ensures HasCapture(qs, i) == HasCapture(ps, i) {
      if HasCapture(qs, i) {
        var q :| PaidFor(qs, q, i);
        assert PaidFor(ps, q, i);
      }
    }
    MarksSettle(bs, cs, ps, qs, log, e, b);
  }

  lemma WebhookCaptureAudit(s: Db, p: PaymentId, d: Delivery, now: int)
    requires ConsistentDb(s) && AuditOk(s) && p < |s.payments| && CaptureApplies(s.payments[p], d)
    ensures AuditOk(ApplyCapture(s, p, d, now).0)
  {
    assert PaymentRow(s.bookings, s.payments[p]);
    var t := ApplyCapture(s, p, d, now).0;
    var e1, e2 := t.audit[|s.audit|], t.audit[|s.audit| + 1];
    assert t.audit == (s.audit + [e1]) + [e2];
    TrailExtends(s.bookings, t.bookings, s.payments, t.payments, s.audit, e1);
    TrailExtends(t.bookings, t.bookings, t.payments, t.payments, s.audit + [e1], e2);
    CaptureSettles(s.bookings, t.bookings, s.payments, p, d.gatewayPaymentId, now, s.audit, e1);
    MarksUnmoved(t.bookings, t.bookings, t.payments, t.payments, s.audit + [e1], e2);
  }

  /** The tables after the client's verification of payment `p`. */
  ghost function Verified(s: Db, p: PaymentId, g: GatewayPaymentId, now: int): Db
    requires PaymentsHaveBookings(s) && p < |s.payments|
  {
    var b := s.payments[p].bookingId;
    s.(payments := MarkPaid(s.payments, p, Some(g), now),
       bookings := SetBookingStatus(s.bookings, b, Confirmed, now),
       audit := s.audit + [OnPayment(p, PaymentSucceeded, Success),
                           OnBooking(b, BookingConfirmed, Some(PendingPayment), Confirmed, false)])
  }

  lemma VerifiedAudit(s: Db, p: PaymentId, g: GatewayPaymentId, now: int)
    requires ConsistentDb(s) && AuditOk(s) && p < |s.payments| && s.payments[p].status == Created
    requires s.bookings[s.payments[p].bookingId].status == PendingPayment
    ensures AuditOk(Verified(s, p, g, now))
  {
    var t := Verified(s, p, g, now);
    var e1, e2 := t.audit[|s.audit|], t.audit[|s.audit| + 1];
    assert t.audit == (s.audit + [e1]) + [e2];
    TrailExtends(s.bookings, s.bookings, s.payments, s.payments, s.audit, e1);
    TrailExtends(s.bookings, t.bookings, s.payments, t.payments, s.audit + [e1], e2);
    MarksUnmoved(s.bookings, s.bookings, s.payments, s.payments, s.audit, e1);
    CaptureSettles(s.bookings, t.bookings, s.payments, p, Some(g), now, s.audit + [e1], e2);
  }

  lemma VerifyAudit(s: Db, op: Op)
    requires ConsistentDb(s) && AuditOk(s) && op.VerifyOp?
    ensures AuditOk(Step(s, op).0)
  {
    var (t, reply) := Step(s, op);
    if reply.PaymentVerified? {
      var p := FindByOrder(s.payments, op.orderId).value;
      assert PaymentRow(s.bookings, s.payments[p]);
      VerifiedAudit(s, p, op.gatewayPaymentId, op.now);
    }
  }

  /** Nothing is captured and nothing is flagged between two states. */
  ghost predicate Quiet(s: Db, t: Db) {
    && SameOwners(s.payments, t.payments)
    && (forall p :: 0 <= p < |s.payments| ==> t.payments[p].paidAt.Some? == s.payments[p].paidAt.Some?)
    && (forall p :: |s.payments| <= p < |t.payments| ==> t.payments[p].paidAt.None?)
    && (forall b: BookingId :: Flagged(t.bookings, b) == Flagged(s.bookings, b))
  }

  lemma SilentAudit(s: Db, t: Db)
    requires AuditOk(s) && Quiet(s, t) && t.audit == s.audit && t.bookings == s.bookings
    ensures AuditOk(t)
  {
    CapturesSame(s.payments, t.payments);
    TrailStable(s.bookings, s.payments, t.payments, s.audit);
  }

  /** A quiet step that writes one truthful entry. */
  lemma PlainAudit(s: Db, t: Db, e: AuditEntry)
    requires AuditOk(s) && Quiet(s, t) && t.audit == s.audit + [e]
    requires e.OnPayment? ==> e.paymentId < |t.payments|
    requires e.OnBooking? ==> e.oldStatus == StatusIn(s.bookings, e.bookingId)
    requires forall b: BookingId :: StatusIn(t.bookings, b) == After(e, t.payments, b, StatusIn(s.bookings, b))
    requires forall b: BookingId, mark :: !HasMark(e, mark, b)
    ensures AuditOk(t)
  {
    CapturesSame(s.payments, t.payments);
    TrailExtends(s.bookings, t.bookings, s.payments, t.payments, s.audit, e);
    MarksUnmoved(s.bookings, t.bookings, s.payments, t.payments, s.audit, e);
  }

  lemma FailedAudit(s: Db, p: PaymentId, d: Delivery)
    requires AuditOk(s) && p < |s.payments|
    ensures AuditOk(ApplyFailed(s, p, d))
  {
    var t := ApplyFailed(s, p, d);
    if t.audit != s.audit {
      PlainAudit(s, t, t.audit[|s.audit|]);
    }
  }

  lemma RefundedAudit(s: Db, p: PaymentId, now: int)
    requires AuditOk(s) && p < |s.payments|
    ensures AuditOk(ApplyRefunded(s, p, now))
  {
    SilentAudit(s, ApplyRefunded(s, p, now));
  }

  lemma EventAudit(s: Db, p: PaymentId, d: Delivery, now: int)
    requires ConsistentDb(s) && AuditOk(s) && p < |s.payments|
    ensures AuditOk(ApplyEvent(s, p, d, now).0)
  {
    if IsCapture(d.kind) {
      if CaptureApplies(s.payments[p], d) {
        WebhookCaptureAudit(s, p, d, now);
      }
    } else {
      FailedAudit(s, p, d);
      RefundedAudit(s, p, now);
    }
  }

  lemma WebhookAudit(s: Db, d: Delivery, now: int)
    requires ConsistentDb(s) && AuditOk(s)
    ensures AuditOk(HandleWebhook(s, d, now).0)
  {
    if HandleWebhook(s, d, now).1.WebhookProcessed? {
      EventAudit(s, FindByOrder(s.payments, d.orderId.value).value, d, now);
    }
  }

  lemma ExpireAudit(s: Db, b: BookingId)
    requires ConsistentDb(s) && AuditOk(s)
    ensures AuditOk(ExpireBooking(s, b).0)
  {
    var (t, reply) := ExpireBooking(s, b);
    if reply.ExpireDone? {
      PlainAudit(s, t, t.audit[|s.audit|]);
    }
  }

  lemma FlagAudit(s: Db, b: BookingId, now: int)
    requires AuditOk(s)
    ensures AuditOk(FlagOverdueBooking(s, b, now).0)
  {
    var (t, reply) := FlagOverdueBooking(s, b, now);
    if reply.FlagDone? {
      var e := t.audit[|s.audit|];
      TrailExtends(s.bookings, t.bookings, s.payments, t.payments, s.audit, e);
      MarksFlag(s.bookings, t.bookings, s.payments, s.audit, e, b);
    }
  }

  lemma BookingServiceAudit(s: Db, op: Op)
    requires PaymentsHaveBookings(s) && AuditOk(s) && (op.CreateBookingOp? || op.CancelOp? || op.CompleteOp?)
    ensures AuditOk(Step(s, op).0)
  {
    var (t, reply) := Step(s, op);
    if !reply.Rejected? {
      PlainAudit(s, t, t.audit[|s.audit|]);
    }
  }

  lemma RefundAudit(s: Db, op: Op)
    requires ConsistentDb(s) && AuditOk(s) && op.RefundOp?
    ensures AuditOk(Step(s, op).0)
  {
    var (t, reply) := Step(s, op);
    if reply.RefundDone? {
      PlainAudit(s, t, t.audit[|s.audit|]);
    }
  }

  lemma OrderAudit(s: Db, op: Op)
    requires PaymentsHaveBookings(s) && AuditOk(s) && op.CreateOrderOp?
    ensures AuditOk(Step(s, op).0)
  {
    SilentAudit(s, Step(s, op).0);
  }

  lemma JobAudit(s: Db, op: Op)
    requires ConsistentDb(s) && AuditOk(s) && op.RunJobOp?
    ensures AuditOk(Step(s, op).0)
  {
    ExpireAudit(s, op.key.bookingId);
    FlagAudit(s, op.key.bookingId, op.now);
  }

  /** Every step keeps the log in agreement with the tables. */
  lemma AuditStep(s: Db, op: Op)
    requires ConsistentDb(s) && AuditOk(s)
    ensures AuditOk(Step(s, op).0)
  {
    match op
    case RunJobOp(_, _) => JobAudit(s, op);
    case VerifyOp(_, _, _, _, _) => VerifyAudit(s, op);
    case WebhookOp(d, now) => WebhookAudit(s, d, now);
    case CreateOrderOp(_, _, _) => OrderAudit(s, op);
    case RefundOp(_, _, _) => RefundAudit(s, op);
    case _ => BookingServiceAudit(s, op);
  }
}
