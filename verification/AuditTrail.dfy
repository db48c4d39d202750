/**
 The audit log read back: replaying it rebuilds every booking's status, and it accounts for every
 capture and every overdue flag exactly once.
 */
module AuditTrail {
  import opened Domain
  import opened CaptureInvariant

  /** What an entry makes of a booking's status; a refund of one of its payments reads as CANCELLED. */
  function After(e: AuditEntry, payments: seq<Payment>, b: BookingId,
                 before: Option<BookingStatus>): Option<BookingStatus> {
    match e
    case OnBooking(i, _, _, status, _) => if i == b then Some(status) else before
    case OnPayment(p, action, _) =>
      if action == PaymentReturned && p < |payments| && payments[p].bookingId == b then Some(Cancelled) else before
  }

  /** The status of a booking according to the log; the payments table only tells whose payment an entry is about. */
  function Replay(log: seq<AuditEntry>, payments: seq<Payment>, b: BookingId): Option<BookingStatus> {
    if log == [] then None
    else After(log[|log| - 1], payments, b, Replay(log[..|log| - 1], payments, b))
  }

  /** Each booking entry's recorded old status is the replay of the entries before it. */
  ghost predicate Faithful(log: seq<AuditEntry>, payments: seq<Payment>) {
    forall k :: 0 <= k < |log| && log[k].OnBooking? ==> log[k].oldStatus == Replay(log[..k], payments, log[k].bookingId)
  }

  ghost predicate LogRefs(log: seq<AuditEntry>, payments: seq<Payment>) {
    forall k :: 0 <= k < |log| && log[k].OnPayment? ==> log[k].paymentId < |payments|
  }

  ghost function StatusIn(bookings: seq<Booking>, b: BookingId): Option<BookingStatus> {
    if b < |bookings| then Some(bookings[b].status) else None
  }

  /** The log agrees with the bookings table. */
  ghost predicate TrailOk(bookings: seq<Booking>, payments: seq<Payment>, log: seq<AuditEntry>) {
    && LogRefs(log, payments)
    && Faithful(log, payments)
    && forall b: BookingId :: Replay(log, payments, b) == StatusIn(bookings, b)
  }

  ghost predicate SameOwners(ps: seq<Payment>, qs: seq<Payment>) {
    |ps| <= |qs| && forall p :: 0 <= p < |ps| ==> qs[p].bookingId == ps[p].bookingId
  }

  lemma {:induction false} ReplayStable(log: seq<AuditEntry>, ps: seq<Payment>, qs: seq<Payment>, b: BookingId)
    requires LogRefs(log, ps) && SameOwners(ps, qs)
    ensures Replay(log, qs, b) == Replay(log, ps, b)
  {
    if log != [] {
      ReplayStable(log[..|log| - 1], ps, qs, b);
    }
  }

  lemma TrailStable(bs: seq<Booking>, ps: seq<Payment>, qs: seq<Payment>, log: seq<AuditEntry>)
    requires TrailOk(bs, ps, log) && SameOwners(ps, qs)
    ensures TrailOk(bs, qs, log)
  {
    forall b: BookingId ensures Replay(log, qs, b) == StatusIn(bs, b) {
      ReplayStable(log, ps, qs, b);
    }
    forall k | 0 <= k < |log| && log[k].OnBooking? ensures log[k].oldStatus == Replay(log[..k], qs, log[k].bookingId) {
      ReplayStable(log[..k], ps, qs, log[k].bookingId);
    }
  }

  /** Appending one entry that tells the truth about one change of the tables. */
  lemma TrailExtends(bs: seq<Booking>, cs: seq<Booking>, ps: seq<Payment>, qs: seq<Payment>,
                     log: seq<AuditEntry>, e: AuditEntry)
    requires TrailOk(bs, ps, log) && SameOwners(ps, qs)
    requires e.OnPayment? ==> e.paymentId < |qs|
    requires e.OnBooking? ==> e.oldStatus == StatusIn(bs, e.bookingId)
    requires forall b: BookingId :: StatusIn(cs, b) == After(e, qs, b, StatusIn(bs, b))
    ensures TrailOk(cs, qs, log + [e])
  {
    TrailStable(bs, ps, qs, log);
    var longer := log + [e];
    assert longer[..|log|] == log;
    forall k | 0 <= k < |longer| && longer[k].OnBooking?
      ensures longer[k].oldStatus == Replay(longer[..k], qs, longer[k].bookingId)
    {
      assert longer[..k] == log[..k];
    }
    forall b: BookingId ensures Replay(longer, qs, b) == StatusIn(cs, b) {
    }
  }

  // ---------------------------------------------------------------- counting entries

  datatype Mark = ConfirmMark | RefundDueMark | OverdueMark

  predicate HasMark(e: AuditEntry, mark: Mark, b: BookingId) {
    e.OnBooking? && e.bookingId == b &&
    match mark
    case ConfirmMark => e.action == BookingConfirmed
    case RefundDueMark => e.requiresRefund
    case OverdueMark => e.action == BookingFlaggedOverdue
  }

  function Tally(log: seq<AuditEntry>, mark: Mark, b: BookingId): nat {
    if log == [] then 0
    else Tally(log[..|log| - 1], mark, b) + if HasMark(log[|log| - 1], mark, b) then 1 else 0
  }

  lemma {:induction false} TallyPush(log: seq<AuditEntry>, e: AuditEntry, mark: Mark, b: BookingId)
    ensures Tally(log + [e], mark, b) == Tally(log, mark, b) + if HasMark(e, mark, b) then 1 else 0
  {
    assert (log + [e])[..|log|] == log;
  }

  /** Entries that close the account of a capture: confirmed, or to be refunded. */
  function Settlements(log: seq<AuditEntry>, b: BookingId): nat {
    Tally(log, ConfirmMark, b) + Tally(log, RefundDueMark, b)
  }

  ghost predicate Flagged(bookings: seq<Booking>, b: BookingId) {
    b < |bookings| && bookings[b].needsReview
  }

  /** One settlement entry per captured booking, one overdue entry per flagged booking, none otherwise. */
  ghost predicate MarksOk(bookings: seq<Booking>, payments: seq<Payment>, log: seq<AuditEntry>) {
    && (forall b: BookingId :: Settlements(log, b) == if HasCapture(payments, b) then 1 else 0)
    && (forall b: BookingId :: Tally(log, OverdueMark, b) == if Flagged(bookings, b) then 1 else 0)
  }

  ghost predicate SameMarks(bs: seq<Booking>, cs: seq<Booking>, ps: seq<Payment>, qs: seq<Payment>) {
    && (forall b: BookingId :: HasCapture(qs, b) == HasCapture(ps, b))
    && (forall b: BookingId :: Flagged(cs, b) == Flagged(bs, b))
  }

  lemma MarksUnmoved(bs: seq<Booking>, cs: seq<Booking>, ps: seq<Payment>, qs: seq<Payment>,
                     log: seq<AuditEntry>, e: AuditEntry)
    requires MarksOk(bs, ps, log) && SameMarks(bs, cs, ps, qs)
    requires forall b: BookingId, mark :: !HasMark(e, mark, b)
    ensures MarksOk(cs, qs, log + [e])
  {
    forall b: BookingId, mark ensures Tally(log + [e], mark, b) == Tally(log, mark, b) {
      TallyPush(log, e, mark, b);
    }
  }

  lemma MarksSettle(bs: seq<Booking>, cs: seq<Booking>, ps: seq<Payment>, qs: seq<Payment>,
                    log: seq<AuditEntry>, e: AuditEntry, b: BookingId)
    requires MarksOk(bs, ps, log)
    requires !HasCapture(ps, b) && HasCapture(qs, b)
    requires forall i: BookingId :: i != b ==> HasCapture(qs, i) == HasCapture(ps, i)
    requires forall i: BookingId :: Flagged(cs, i) == Flagged(bs, i)
    requires e.OnBooking? && e.bookingId == b && e.action != BookingFlaggedOverdue
    requires (e.action == BookingConfirmed) != e.requiresRefund
    ensures MarksOk(cs, qs, log + [e])
  {
    forall i: BookingId
      ensures Settlements(log + [e], i) == Settlements(log, i) + (if i == b then 1 else 0)
      ensures Tally(log + [e], OverdueMark, i) == Tally(log, OverdueMark, i)
    {
      TallyPush(log, e, ConfirmMark, i);
      TallyPush(log, e, RefundDueMark, i);
      TallyPush(log, e, OverdueMark, i);
    }
  }

  lemma MarksFlag(bs: seq<Booking>, cs: seq<Booking>, ps: seq<Payment>, log: seq<AuditEntry>, e: AuditEntry,
                  b: BookingId)
    requires MarksOk(bs, ps, log)
    requires !Flagged(bs, b) && Flagged(cs, b)
    requires forall i: BookingId :: i != b ==> Flagged(cs, i) == Flagged(bs, i)
    requires e.OnBooking? && e.bookingId == b && e.action == BookingFlaggedOverdue && !e.requiresRefund
    ensures MarksOk(cs, ps, log + [e])
  {
    forall i: BookingId
      ensures Settlements(log + [e], i) == Settlements(log, i)
      ensures Tally(log + [e], OverdueMark, i) == Tally(log, OverdueMark, i) + (if i == b then 1 else 0)
    {
      TallyPush(log, e, ConfirmMark, i);
      TallyPush(log, e, RefundDueMark, i);
      TallyPush(log, e, OverdueMark, i);
    }
  }
}
