/**
 Receipts and time stamps: the log of each payment agrees with the money that moved, the stamps on the
 rows agree with their statuses, and history is only ever appended to.
 */
module Receipts {
  import opened Domain
  import opened Protocol
  import opened CaptureInvariant
  import opened Lifecycle
  import opened Executions
  import opened Guarantees

  // ---------------------------------------------------------------- stamps

  /** `cancelledAt` marks exactly the CANCELLED bookings; `completedAt` those that were COMPLETED and at most refunded since. */
  ghost predicate BookingStamped(row: Booking) {
    && (row.cancelledAt.Some? <==> row.status == Cancelled)
    && (row.status == Completed ==> row.completedAt.Some?)
    && (row.completedAt.Some? ==> row.status in {Completed, Cancelled})
  }

  /** A REFUNDED payment says when; a stamp from an earlier refund notice can outlive a later failure notice. */
  ghost predicate PaymentStamped(row: Payment) {
    && (row.status == Refunded ==> row.refundedAt.Some?)
    && (row.refundedAt.Some? ==> row.status in {Refunded, Failed})
  }

  ghost predicate StampsOk(s: Db) {
    && (forall b :: 0 <= b < |s.bookings| ==> BookingStamped(s.bookings[b]))
    && (forall p :: 0 <= p < |s.payments| ==> PaymentStamped(s.payments[p]))
  }

  /** Every step keeps the stamps. */
  lemma StampedStep(s: Db, op: Op)
    requires PaymentsHaveBookings(s) && StampsOk(s)
    ensures StampsOk(Step(s, op).0)
  {
    match op
    case WebhookOp(d, now) => StampedWebhook(s, d, now);
    case VerifyOp(_, _, _, _, _) => StampedVerify(s, op);
    case RefundOp(p, requested, now) => StampedRefund(s, p, requested, now);
    case RunJobOp(_, _) => StampedJob(s, op);
    case _ => StampedRequest(s, op);
  }

  lemma StampedVerify(s: Db, op: Op)
    requires PaymentsHaveBookings(s) && StampsOk(s) && op.VerifyOp?
    ensures StampsOk(Step(s, op).0)
  {
  }

  lemma StampedRefund(s: Db, p: PaymentId, requested: Option<real>, now: int)
    requires PaymentsHaveBookings(s) && StampsOk(s)
    ensures StampsOk(RefundPayment(s, p, requested, now).0)
  {
  }

  lemma StampedJob(s: Db, op: Op)
    requires PaymentsHaveBookings(s) && StampsOk(s) && op.RunJobOp?
    ensures StampsOk(Step(s, op).0)
  {
  }

  lemma StampedRequest(s: Db, op: Op)
    requires PaymentsHaveBookings(s) && StampsOk(s)
    requires op.CreateBookingOp? || op.CancelOp? || op.CompleteOp? || op.CreateOrderOp?
    ensures StampsOk(Step(s, op).0)
  {
  }

  lemma StampedEvent(s: Db, p: PaymentId, d: Delivery, now: int)
    requires PaymentsHaveBookings(s) && StampsOk(s) && p < |s.payments|
    ensures StampsOk(ApplyEvent(s, p, d, now).0)
  {
    assert PaymentStamped(s.payments[p]);
    assert BookingStamped(s.bookings[s.payments[p].bookingId]);
  }

  lemma StampedWebhook(s: Db, d: Delivery, now: int)
    requires PaymentsHaveBookings(s) && StampsOk(s)
    ensures StampsOk(HandleWebhook(s, d, now).0)
  {
    if HandleWebhook(s, d, now).1.WebhookProcessed? {
      StampedEvent(s, FindByOrder(s.payments, d.orderId.value).value, d, now);
    }
  }

  // ---------------------------------------------------------------- receipts

  predicate LogsPayment(e: AuditEntry, p: PaymentId, action: AuditAction) {
    e.OnPayment? && e.paymentId == p && e.action == action
  }

  function Logged(log: seq<AuditEntry>, p: PaymentId, action: AuditAction): nat {
    if log == [] then 0
    else Logged(log[..|log| - 1], p, action) + if LogsPayment(log[|log| - 1], p, action) then 1 else 0
  }

  function RefundCount(refunds: seq<Refund>, p: PaymentId): nat {
    if refunds == [] then 0
    else RefundCount(refunds[..|refunds| - 1], p) + if refunds[|refunds| - 1].paymentId == p then 1 else 0
  }

  function CaptureCount(payments: seq<Payment>, p: PaymentId): nat {
    if p < |payments| && payments[p].paidAt.Some? then 1 else 0
  }

  /** One success entry per captured payment and one refund entry per refund sent, none otherwise. */
  ghost predicate ReceiptsOk(payments: seq<Payment>, log: seq<AuditEntry>, refunds: seq<Refund>) {
    forall p: PaymentId ::
      && Logged(log, p, PaymentSucceeded) == CaptureCount(payments, p)
      && Logged(log, p, PaymentReturned) == RefundCount(refunds, p)
  }

  /** Writing one entry together with the change it documents. */
  ghost predicate Documents(e: AuditEntry, ps: seq<Payment>, qs: seq<Payment>, rs: seq<Refund>, us: seq<Refund>) {
    forall p: PaymentId ::
      && CaptureCount(qs, p) == CaptureCount(ps, p) + (if LogsPayment(e, p, PaymentSucceeded) then 1 else 0)
      && RefundCount(us, p) == RefundCount(rs, p) + (if LogsPayment(e, p, PaymentReturned) then 1 else 0)
  }

  lemma ReceiptsExtend(ps: seq<Payment>, qs: seq<Payment>, log: seq<AuditEntry>, e: AuditEntry, rs: seq<Refund>, us: seq<Refund>)
    requires ReceiptsOk(ps, log, rs) && Documents(e, ps, qs, rs, us)
    ensures ReceiptsOk(qs, log + [e], us)
  {
    assert (log + [e])[..|log|] == log;
  }

  ghost predicate ReceiptsIn(s: Db) {
    ReceiptsOk(s.payments, s.audit, s.refunds)
  }

  lemma PaidReceipts(s: Db, t: Db, p: PaymentId, e1: AuditEntry, e2: AuditEntry)
    requires ConsistentDb(s) && ReceiptsIn(s) && p < |s.payments| && s.payments[p].status == Created
    requires |t.payments| == |s.payments| && t.payments[p].paidAt.Some? && t.refunds == s.refunds
    requires forall q :: 0 <= q < |s.payments| && q != p ==> t.payments[q].paidAt == s.payments[q].paidAt
    requires t.audit == s.audit + [e1, e2]
    requires var paid := OnPayment(p, PaymentSucceeded, Success); (e1 == paid && e2.OnBooking?) || (e1.OnBooking? && e2 == paid)
    ensures ReceiptsIn(t)
  {
    assert PaymentRow(s.bookings, s.payments[p]);
    var mid := if e1.OnPayment? then t.payments else s.payments;
    ReceiptsExtend(s.payments, mid, s.audit, e1, s.refunds, s.refunds);
    ReceiptsExtend(mid, t.payments, s.audit + [e1], e2, s.refunds, s.refunds);
    assert t.audit == (s.audit + [e1]) + [e2];
  }

  /** A step that captures and refunds nothing and writes at most one entry, about something else. */
  lemma PlainReceipts(s: Db, t: Db)
    requires ReceiptsIn(s) && t.refunds == s.refunds && |s.payments| <= |t.payments|
    requires forall p :: 0 <= p < |s.payments| ==> t.payments[p].paidAt == s.payments[p].paidAt
    requires forall p :: |s.payments| <= p < |t.payments| ==> t.payments[p].paidAt.None?
    requires t.audit == s.audit || (t.audit != [] && t.audit[..|t.audit| - 1] == s.audit)
    requires t.audit != s.audit ==> var e := t.audit[|s.audit|]; e.OnBooking? || e.action == PaymentRejected
    ensures ReceiptsIn(t)
  {
    if t.audit != s.audit {
      var e := t.audit[|s.audit|];
      ReceiptsExtend(s.payments, t.payments, s.audit, e, s.refunds, s.refunds);
      assert t.audit == s.audit + [e];
    }
  }

  lemma RefundReceipts(s: Db, p: PaymentId, requested: Option<real>, now: int)
    requires ConsistentDb(s) && ReceiptsIn(s)
    ensures ReceiptsIn(RefundPayment(s, p, requested, now).0)
  {
    var (t, reply) := RefundPayment(s, p, requested, now);
    if reply.RefundDone? {
      var e := OnPayment(p, PaymentReturned, Refunded);
      assert t.refunds[..|s.refunds|] == s.refunds;
      ReceiptsExtend(s.payments, t.payments, s.audit, e, s.refunds, t.refunds);
    }
  }

  lemma EventReceipts(s: Db, p: PaymentId, d: Delivery, now: int)
    requires ConsistentDb(s) && ReceiptsIn(s) && p < |s.payments|
    ensures ReceiptsIn(ApplyEvent(s, p, d, now).0)
  {
    var t := ApplyEvent(s, p, d, now).0;
    if IsCapture(d.kind) && CaptureApplies(s.payments[p], d) {
      assert PaymentRow(s.bookings, s.payments[p]);
      PaidReceipts(s, t, p, t.audit[|s.audit|], t.audit[|s.audit| + 1]);
    } else {
      PlainReceipts(s, t);
    }
  }

  lemma WebhookReceipts(s: Db, d: Delivery, now: int)
    requires ConsistentDb(s) && ReceiptsIn(s)
    ensures ReceiptsIn(HandleWebhook(s, d, now).0)
  {
    if HandleWebhook(s, d, now).1.WebhookProcessed? {
      EventReceipts(s, FindByOrder(s.payments, d.orderId.value).value, d, now);
    }
  }

  lemma VerifyReceipts(s: Db, op: Op)
    requires ConsistentDb(s) && ReceiptsIn(s) && op.VerifyOp?
    ensures ReceiptsIn(Step(s, op).0)
  {
    var (t, reply) := Step(s, op);
    if reply.PaymentVerified? {
      var p := FindByOrder(s.payments, op.orderId).value;
      assert PaymentRow(s.bookings, s.payments[p]);
      PaidReceipts(s, t, p, t.audit[|s.audit|], t.audit[|s.audit| + 1]);
    }
  }

  lemma JobReceipts(s: Db, key: JobKey, now: int)
    requires ReceiptsIn(s)
    ensures ReceiptsIn(RunJob(s, key, now).0)
  {
    PlainReceipts(s, RunJob(s, key, now).0);
  }

  lemma RequestReceipts(s: Db, op: Op)
    requires PaymentsHaveBookings(s) && ReceiptsIn(s)
    requires op.CreateBookingOp? || op.CancelOp? || op.CompleteOp? || op.CreateOrderOp?
    ensures ReceiptsIn(Step(s, op).0)
  {
    PlainReceipts(s, Step(s, op).0);
  }

  /** Every step keeps the payment log in agreement with captures and refunds. */
  lemma ReceiptsStep(s: Db, op: Op)
    requires ConsistentDb(s) && ReceiptsIn(s)
    ensures ReceiptsIn(Step(s, op).0)
  {
    match op
    case WebhookOp(d, now) => WebhookReceipts(s, d, now);
    case VerifyOp(_, _, _, _, _) => VerifyReceipts(s, op);
    case RefundOp(p, requested, now) => RefundReceipts(s, p, requested, now);
    case RunJobOp(key, now) => JobReceipts(s, key, now);
    case _ => RequestReceipts(s, op);
  }

  // ---------------------------------------------------------------- theorems

  ghost predicate Accounted(s: Db) {
    Inv(s) && StampsOk(s) && ReceiptsIn(s)
  }

  lemma ReachedAccounted(s: Db)
    requires Reached(s)
    ensures Accounted(s)
  {
    InvInit();
    forall u, op, v | Leads(u, op, v) && Accounted(u) ensures Accounted(v) {
      InvStep(u, op);
      StampedStep(u, op);
      ReceiptsStep(u, op);
    }
    HoldsFromThen(EmptyDb, s, Leads, Accounted);
  }

  /** In every reached state the log holds one success entry per capture and one refund entry per refund sent. */
  lemma {:induction false} ReceiptsMatch(s: Db, p: PaymentId)
    requires Reached(s) && p < |s.payments|
    ensures Logged(s.audit, p, PaymentSucceeded) == if s.payments[p].paidAt.Some? then 1 else 0
    ensures Logged(s.audit, p, PaymentReturned) == RefundCount(s.refunds, p) <= Logged(s.audit, p, PaymentSucceeded)
  {
    ReachedAccounted(s);
    RefundCountBound(s, p);
  }

  lemma {:induction false} RefundCountBound(s: Db, p: PaymentId)
    requires RefundsOk(s)
    ensures RefundCount(s.refunds, p) <= CaptureCount(s.payments, p)
  {
    RefundCountOne(s.refunds, p);
    if i :| 0 <= i < |s.refunds| && s.refunds[i].paymentId == p {
      assert RefundOk(s.payments, s.refunds[i]);
    }
  }

  lemma {:induction false} RefundCountOne(rs: seq<Refund>, p: PaymentId)
    requires forall i, j :: 0 <= i < j < |rs| ==> rs[i].paymentId != rs[j].paymentId
    ensures RefundCount(rs, p) <= 1
    ensures RefundCount(rs, p) == 1 ==> exists i :: 0 <= i < |rs| && rs[i].paymentId == p
  {
    if rs != [] {
      var n := |rs| - 1;
      RefundCountOne(rs[..n], p);
      if RefundCount(rs[..n], p) == 1 {
        var i :| 0 <= i < n && rs[..n][i].paymentId == p;
        assert rs[i].paymentId == p;
      }
    }
  }

  /** In every reached state the stamps on bookings and payments agree with their statuses. */
  lemma StampsTellStatus(s: Db)
    requires Reached(s)
    ensures forall b :: 0 <= b < |s.bookings| ==> BookingStamped(s.bookings[b])
    ensures forall p :: 0 <= p < |s.payments| ==> PaymentStamped(s.payments[p])
  {
    ReachedAccounted(s);
  }

  ghost predicate Extends(s: Db, t: Db) {
    s.audit <= t.audit && s.refunds <= t.refunds && |s.bookings| <= |t.bookings| && |s.payments| <= |t.payments|
  }

  lemma AppendStep(s: Db, op: Op)
    requires PaymentsHaveBookings(s)
    ensures Extends(s, Step(s, op).0)
  {
    match op
    case WebhookOp(d, now) => AppendWebhook(s, d, now);
    case _ =>
  }

  lemma AppendWebhook(s: Db, d: Delivery, now: int)
    requires PaymentsHaveBookings(s)
    ensures Extends(s, HandleWebhook(s, d, now).0)
  {
  }

  /** No execution rewrites or removes an audit entry or a refund, or removes a booking or a payment. */
  lemma HistoryIsAppendOnly(s: Db, t: Db)
    requires Reached(s) && Reaches(s, t, Leads)
    ensures s.audit <= t.audit && s.refunds <= t.refunds
    ensures |s.bookings| <= |t.bookings| && |s.payments| <= |t.payments|
  {
    ReachedInv(s);
    var kept := (u: Db) => Inv(u) && Extends(s, u);
    forall u, op, v | Leads(u, op, v) && kept(u) ensures kept(v) {
      InvStep(u, op);
      AppendStep(u, op);
    }
    HoldsFromThen(s, t, Leads, kept);
  }
}
