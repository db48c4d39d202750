/**
 The mutually supporting facts about bookings and payments that every step keeps.
 */
module CaptureInvariant {
  import opened Domain
  import opened Times
  import opened Instants
  import opened Protocol

  ghost predicate PaidFor(payments: seq<Payment>, p: int, b: int) {
    0 <= p < |payments| && payments[p].bookingId == b && payments[p].paidAt.Some?
  }

  /** Some payment of the booking was captured, whatever its status is now. */
  ghost predicate HasCapture(payments: seq<Payment>, b: int) {
    exists p :: PaidFor(payments, p, b)
  }

  /** What holds of one payment row next to its booking. */
  ghost predicate PaymentRow(bookings: seq<Booking>, row: Payment) {
    && row.bookingId < |bookings|
    && row.amount == bookings[row.bookingId].bookedPrice
    && row.status != Pending
    && (row.status == Created ==> row.paidAt.None?)
    && (row.status == Success ==> row.paidAt.Some?)
    && (bookings[row.bookingId].status == PendingPayment ==> row.paidAt.None?)
    && (bookings[row.bookingId].status == Expired ==> row.paidAt.None? && row.status != Created)
  }

  /** Of two payments of one booking only the newer may be open, and never beside a capture. */
  ghost predicate PaymentPair(older: Payment, newer: Payment) {
    older.bookingId == newer.bookingId ==>
      && older.status != Created
      && (older.paidAt.Some? ==> newer.paidAt.None? && newer.status != Created)
  }

  ghost predicate BookingRow(payments: seq<Payment>, b: nat, row: Booking) {
    && row.bookingDate % MS_PER_DAY == 0
    && 0 <= row.startTime < row.endTime <= 86400
    && row.bookedPrice < DECIMAL_10_2
    && row.status != PaymentFailed
    && (row.status == Confirmed || row.status == Completed ==> HasCapture(payments, b))
  }

  ghost predicate UniqueKeys(payments: seq<Payment>) {
    forall i, j :: 0 <= i < j < |payments| ==>
      && payments[i].gatewayOrderId != payments[j].gatewayOrderId
      && (payments[i].gatewayPaymentId.Some? ==> payments[i].gatewayPaymentId != payments[j].gatewayPaymentId)
  }

  ghost predicate Consistent(bookings: seq<Booking>, payments: seq<Payment>) {
    && (forall p :: 0 <= p < |payments| ==> PaymentRow(bookings, payments[p]))
    && (forall i, j :: 0 <= i < j < |payments| ==> PaymentPair(payments[i], payments[j]))
    && (forall b :: 0 <= b < |bookings| ==> BookingRow(payments, b, bookings[b]))
    && UniqueKeys(payments)
  }

  ghost predicate ConsistentDb(s: Db) {
    Consistent(s.bookings, s.payments)
  }

  lemma {:induction false} FindsOwn(ps: seq<Payment>, p: PaymentId)
    requires UniqueKeys(ps) && p < |ps|
    ensures FindByOrder(ps, ps[p].gatewayOrderId) == Some(p)
  {
    var order := ps[p].gatewayOrderId;
    assert forall i :: 0 <= i < |ps| && ps[i].gatewayOrderId == order ==> i == p;
  }

  /** A number above all used ones. */
  lemma {:induction false} Above(used: set<nat>) returns (n: nat)
    ensures forall x :: x in used ==> x < n
    decreases |used|
  {
    n := 0;
    if x :| x in used {
      var m := Above(used - {x});
      n := if m > x then m else x + 1;
      forall y | y in used ensures y < n {
        assert y == x || y in used - {x};
      }
    }
  }

  /** The gateway can always give a payment a new id, */
  lemma FreshGatewayId(ps: seq<Payment>) returns (g: GatewayPaymentId)
    ensures forall i :: 0 <= i < |ps| ==> ps[i].gatewayPaymentId != Some(g)
  {
    var used := set i | 0 <= i < |ps| && ps[i].gatewayPaymentId.Some? :: ps[i].gatewayPaymentId.value;
    g := Above(used);
    forall i | 0 <= i < |ps| ensures ps[i].gatewayPaymentId != Some(g) {
      if ps[i].gatewayPaymentId.Some? {
        assert ps[i].gatewayPaymentId.value in used;
      }
    }
  }

  /** and an order a new number. */
  lemma FreshOrder(ps: seq<Payment>) returns (order: OrderId)
    ensures FindByOrder(ps, order).None?
  {
    var used := set i | 0 <= i < |ps| :: ps[i].gatewayOrderId;
    order := Above(used);
    forall i | 0 <= i < |ps| ensures ps[i].gatewayOrderId != order {
      assert ps[i].gatewayOrderId in used;
    }
  }

  /** The shift check keeps an appointment inside one UTC day. */
  lemma AcceptedTimes(o: Offering, startsAt: int)
    requires ValidOffering(o) && FitsShift(o, startsAt)
    ensures var end := startsAt + o.durationMinutes * MS_PER_MINUTE;
            UtcMidnight(end) == UtcMidnight(startsAt) && StoredTime(startsAt) < StoredTime(end)
  {
    var i :| 0 <= i < |o.schedules| && FitsIn(o, o.schedules[i], startsAt);
    assert ValidInterval(o.schedules[i]);
    EndsBeforeMidnight(o, o.schedules[i], startsAt);
    SameDay(startsAt, o.durationMinutes);
  }

  lemma EndsBeforeMidnight(o: Offering, w: Interval, startsAt: int)
    requires ValidInterval(w) && o.bufferMinutes >= 0 && FitsIn(o, w, startsAt)
    ensures UtcMinuteOfDay(startsAt) + o.durationMinutes < 1440
  {
    HourMinuteBound(w.endTime);
  }

  lemma NewBookingRow(ps: seq<Payment>, b: nat, customerId: UserId, o: Offering, startsAt: int, now: int)
    requires ValidOffering(o) && FitsShift(o, startsAt)
    ensures BookingRow(ps, b, NewBooking(customerId, o, startsAt, now))
  {
    AcceptedTimes(o, startsAt);
  }

  lemma CapturesStay(ps: seq<Payment>, qs: seq<Payment>)
    requires |ps| <= |qs|
    requires forall p :: 0 <= p < |ps| ==> qs[p].bookingId == ps[p].bookingId && (ps[p].paidAt.Some? ==> qs[p].paidAt.Some?)
    ensures forall b :: HasCapture(ps, b) ==> HasCapture(qs, b)
  {
    forall b | HasCapture(ps, b) ensures HasCapture(qs, b) {
      var p :| PaidFor(ps, p, b);
      assert PaidFor(qs, p, b);
    }
  }

  lemma {:induction false} InsertBookingKeeps(bs: seq<Booking>, ps: seq<Payment>, row: Booking, pay: Payment)
    requires Consistent(bs, ps)
    requires row.status == PendingPayment && BookingRow(ps, |bs|, row)
    requires pay.bookingId == |bs| && pay.status == Created && pay.paidAt.None? && pay.gatewayPaymentId.None?
    requires pay.amount == row.bookedPrice && FindByOrder(ps, pay.gatewayOrderId).None?
    ensures Consistent(bs + [row], ps + [pay])
  {
    CapturesStay(ps, ps + [pay]);
  }

  lemma {:induction false} InsertPaymentKeeps(bs: seq<Booking>, ps: seq<Payment>, pay: Payment)
    requires Consistent(bs, ps)
    requires pay.bookingId < |bs| && bs[pay.bookingId].status == PendingPayment
    requires pay.amount == bs[pay.bookingId].bookedPrice
    requires pay.status == Created && pay.paidAt.None? && pay.gatewayPaymentId.None?
    requires FindByOrder(ps, pay.gatewayOrderId).None?
    requires var latest := LatestPayment(ps, pay.bookingId); latest.Some? ==> ps[latest.value].status != Created
    ensures Consistent(bs, ps + [pay])
  {
    CapturesStay(ps, ps + [pay]);
    OlderClosed(bs, ps, pay);
  }

  lemma {:induction false} OlderClosed(bs: seq<Booking>, ps: seq<Payment>, pay: Payment)
    requires Consistent(bs, ps) && pay.bookingId < |bs| && bs[pay.bookingId].status == PendingPayment
    requires var latest := LatestPayment(ps, pay.bookingId); latest.Some? ==> ps[latest.value].status != Created
    ensures forall i :: 0 <= i < |ps| ==> PaymentPair(ps[i], pay)
  {
    forall i | 0 <= i < |ps| ensures PaymentPair(ps[i], pay) {
      assert PaymentRow(bs, ps[i]);
      NotLatestClosed(ps, pay.bookingId, i);
    }
  }

  lemma {:induction false} NotLatestClosed(ps: seq<Payment>, b: BookingId, i: nat)
    requires i < |ps| && forall j :: i < j < |ps| ==> PaymentPair(ps[i], ps[j])
    requires var latest := LatestPayment(ps, b); latest.Some? ==> ps[latest.value].status != Created
    ensures ps[i].bookingId == b ==> ps[i].status != Created
  {
    var latest := LatestPayment(ps, b);
    if latest.Some? && i < latest.value {
      assert PaymentPair(ps[i], ps[latest.value]);
    }
  }

  /** Marking an open payment paid while its booking leaves PENDING_PAYMENT, or already left it. */
  lemma CaptureKeeps(bs: seq<Booking>, ps: seq<Payment>, p: PaymentId, g: Option<GatewayPaymentId>, now: int)
    requires Consistent(bs, ps) && p < |ps| && ps[p].status == Created && !GatewayIdTaken(ps, p, g)
    ensures var b := ps[p].bookingId;
            b < |bs| && Consistent(if bs[b].status == PendingPayment then SetBookingStatus(bs, b, Confirmed, now) else bs,
                                   MarkPaid(ps, p, g, now))
  {
    assert PaymentRow(bs, ps[p]);
    var qs := MarkPaid(ps, p, g, now);
    CapturesStay(ps, qs);
    assert PaidFor(qs, p, ps[p].bookingId);
    forall i, j | 0 <= i < j < |qs| ensures PaymentPair(qs[i], qs[j]) {
      assert PaymentPair(ps[i], ps[j]);
    }
  }

  /** Rewriting one row to FAILED or REFUNDED without touching `paidAt`. */
  lemma SettleKeeps(bs: seq<Booking>, ps: seq<Payment>, p: PaymentId, row: Payment)
    requires Consistent(bs, ps) && p < |ps|
    requires row.status == Failed || row.status == Refunded
    requires row.bookingId == ps[p].bookingId && row.amount == ps[p].amount && row.paidAt == ps[p].paidAt
    requires row.gatewayOrderId == ps[p].gatewayOrderId && !GatewayIdTaken(ps, p, row.gatewayPaymentId)
    ensures Consistent(bs, ps[p := row])
  {
    var qs := ps[p := row];
    CapturesStay(ps, qs);
    forall i, j | 0 <= i < j < |qs| ensures PaymentPair(qs[i], qs[j]) {
      assert PaymentPair(ps[i], ps[j]);
    }
  }

  /** Moving a booking to a status that asks nothing new of its payments. */
  lemma StatusKeeps(bs: seq<Booking>, ps: seq<Payment>, b: BookingId, row: Booking)
    requires Consistent(bs, ps) && b < |bs|
    requires row.bookedPrice == bs[b].bookedPrice && row.bookingDate == bs[b].bookingDate
    requires row.startTime == bs[b].startTime && row.endTime == bs[b].endTime
    requires row.status == bs[b].status || row.status == Cancelled || (bs[b].status == Confirmed && row.status == Completed)
    ensures Consistent(bs[b := row], ps)
  {
    forall p | 0 <= p < |ps| ensures PaymentRow(bs[b := row], ps[p]) {
      assert PaymentRow(bs, ps[p]);
    }
  }

  lemma ExpireKeeps(bs: seq<Booking>, ps: seq<Payment>, b: BookingId)
    requires Consistent(bs, ps) && b < |bs| && bs[b].status == PendingPayment
    ensures Consistent(bs[b := bs[b].(status := Expired)], FailUnpaid(ps, b))
  {
    var qs := FailUnpaid(ps, b);
    CapturesStay(ps, qs);
    forall i, j | 0 <= i < j < |qs| ensures PaymentPair(qs[i], qs[j]) {
      assert PaymentPair(ps[i], ps[j]);
    }
    forall p | 0 <= p < |qs| ensures PaymentRow(bs[b := bs[b].(status := Expired)], qs[p]) {
      assert PaymentRow(bs, ps[p]);
    }
  }

  lemma WebhookKeeps(s: Db, d: Delivery, now: int)
    requires ConsistentDb(s)
    ensures ConsistentDb(HandleWebhook(s, d, now).0)
  {
    var (t, reply) := HandleWebhook(s, d, now);
    if reply.WebhookProcessed? {
      var p := FindByOrder(s.payments, d.orderId.value).value;
      var row := s.payments[p];
      assert PaymentRow(s.bookings, row);
      if IsCapture(d.kind) && CaptureApplies(row, d) {
        CaptureKeeps(s.bookings, s.payments, p, d.gatewayPaymentId, now);
      } else if t.payments != s.payments {
        SettleKeeps(s.bookings, s.payments, p, t.payments[p]);
      }
    }
  }

  lemma VerifyKeeps(s: Db, op: Op)
    requires ConsistentDb(s) && op.VerifyOp?
    ensures ConsistentDb(Step(s, op).0)
  {
    if Step(s, op).1.PaymentVerified? {
      var p := FindByOrder(s.payments, op.orderId).value;
      assert PaymentRow(s.bookings, s.payments[p]);
      CaptureKeeps(s.bookings, s.payments, p, Some(op.gatewayPaymentId), op.now);
    }
  }

  lemma RefundKeeps(s: Db, op: Op)
    requires ConsistentDb(s) && op.RefundOp?
    ensures ConsistentDb(Step(s, op).0)
  {
    var (t, reply) := Step(s, op);
    if reply.RefundDone? {
      var p, b := op.paymentId, s.payments[op.paymentId].bookingId;
      SettleKeeps(s.bookings, s.payments, p, t.payments[p]);
      StatusKeeps(s.bookings, t.payments, b, t.bookings[b]);
    }
  }

  lemma CreateBookingKeeps(s: Db, op: Op)
    requires ConsistentDb(s) && ValidOp(op) && op.CreateBookingOp?
    ensures ConsistentDb(Step(s, op).0)
  {
    var (t, reply) := Step(s, op);
    if reply.BookingMade? {
      var row := NewBooking(op.customerId, op.offering.value, op.startsAt.value, op.now);
      NewBookingRow(s.payments, |s.bookings|, op.customerId, op.offering.value, op.startsAt.value, op.now);
      InsertBookingKeeps(s.bookings, s.payments, row, t.payments[|s.payments|]);
    }
  }

  lemma JobKeeps(s: Db, op: Op)
    requires ConsistentDb(s) && op.RunJobOp?
    ensures ConsistentDb(Step(s, op).0)
  {
    var (t, reply) := Step(s, op);
    var b := op.key.bookingId;
    if reply.ExpireDone? {
      ExpireKeeps(s.bookings, s.payments, b);
    } else if reply.FlagDone? {
      StatusKeeps(s.bookings, s.payments, b, t.bookings[b]);
    }
  }

  /** Every step keeps bookings and payments consistent. */
  lemma ConsistentStep(s: Db, op: Op)
    requires ConsistentDb(s) && ValidOp(op)
    ensures ConsistentDb(Step(s, op).0)
  {
    var (t, reply) := Step(s, op);
    match op
    case CreateBookingOp(_, _, _, _, _) => CreateBookingKeeps(s, op);
    case CancelOp(b, _, _) => if reply.CancelDone? { StatusKeeps(s.bookings, s.payments, b, t.bookings[b]); }
    case CompleteOp(b, _, _, _) => if reply.CompleteDone? { StatusKeeps(s.bookings, s.payments, b, t.bookings[b]); }
    case RunJobOp(_, _) => JobKeeps(s, op);
    case CreateOrderOp(_, _, _) =>
      if t.payments != s.payments { InsertPaymentKeeps(s.bookings, s.payments, t.payments[|s.payments|]); }
    case VerifyOp(_, _, _, _, _) => VerifyKeeps(s, op);
    case WebhookOp(d, now) => WebhookKeeps(s, d, now);
    case RefundOp(_, _, _) => RefundKeeps(s, op);
  }
}
