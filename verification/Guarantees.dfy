/**
 What holds in every run of the protocol, from an empty database and of any length.
 */
module Guarantees {
  import opened Domain
  import opened Instants
  import opened Times
  import opened Protocol
  import opened CaptureInvariant
  import opened AuditTrail
  import opened AuditInvariant
  import opened Lifecycle
  import opened Executions

  ghost predicate Inv(s: Db) {
    && ConsistentDb(s)
    && AuditOk(s)
    && RefundsOk(s)
    && JobsOk(s)
    && FlagsOk(s)
    && NoOverlap(s.bookings)
    && EventsProcessed(s)
  }

  lemma InvInit()
    ensures Inv(EmptyDb)
  {
    assert forall b: BookingId :: !HasCapture(EmptyDb.payments, b);
  }

  lemma InvStep(s: Db, op: Op)
    requires Inv(s) && ValidOp(op)
    ensures Inv(Step(s, op).0)
  {
    ConsistentStep(s, op);
    AuditStep(s, op);
    RefundsStep(s, op);
    JobsStep(s, op);
    FlagsStep(s, op);
    OverlapStep(s, op);
    EventsStep(s, op);
  }

  /** The invariant holds after every run from a state in which it holds. */
  lemma {:induction false} InvRun(s: Db, ops: seq<Op>)
    requires Inv(s) && ValidOps(ops)
    ensures Inv(Run(s, ops))
    decreases |ops|
  {
    if ops != [] {
      InvStep(s, ops[0]);
      InvRun(Step(s, ops[0]).0, ops[1..]);
    }
  }

  /** One step of the protocol. */
  ghost predicate Leads(s: Db, op: Op, t: Db) {
    ValidOp(op) && PaymentsHaveBookings(s) && t == Step(s, op).0
  }

  /** The database after some execution from the empty one. */
  ghost predicate Reached(s: Db) {
    Reaches(EmptyDb, s, Leads)
  }

  lemma InvKept()
    ensures Keeps(Leads, Inv)
  {
    forall s, op, t | Leads(s, op, t) && Inv(s) ensures Inv(t) {
      InvStep(s, op);
    }
  }

  lemma ReachedInv(s: Db)
    requires Reached(s)
    ensures Inv(s)
  {
    InvInit();
    InvKept();
    HoldsFromThen(EmptyDb, s, Leads, Inv);
  }

  ghost predicate EndsRun(s: Db) {
    exists ops :: ValidOps(ops) && Run(EmptyDb, ops) == s
  }

  lemma EndsRunStep(s: Db, op: Op)
    requires EndsRun(s) && ValidOp(op)
    ensures PaymentsHaveBookings(s) && EndsRun(Step(s, op).0)
  {
    var ops :| ValidOps(ops) && Run(EmptyDb, ops) == s;
    RunAppend(EmptyDb, ops, [op]);
    assert Run(s, [op]) == Run(Step(s, op).0, []);
    assert ValidOps(ops + [op]);
  }

  lemma {:induction false} RunReaches(s: Db, ops: seq<Op>)
    requires Reached(s) && PaymentsHaveBookings(s) && ValidOps(ops)
    ensures Reached(Run(s, ops))
    decreases |ops|
  {
    if ops != [] {
      ReachesNext(EmptyDb, s, ops[0], Step(s, ops[0]).0, Leads);
      RunReaches(Step(s, ops[0]).0, ops[1..]);
    }
  }

  /** The reached states are exactly the outcomes of runs. */
  lemma ReachedByRuns(s: Db)
    ensures Reached(s) <==> EndsRun(s)
  {
    if Reached(s) {
      assert Run(EmptyDb, []) == EmptyDb && ValidOps([]);
      assert EndsRun(EmptyDb);
      forall u, op, t | Leads(u, op, t) && EndsRun(u) ensures EndsRun(t) {
        EndsRunStep(u, op);
      }
      HoldsFromThen(EmptyDb, s, Leads, EndsRun);
    }
    if EndsRun(s) {
      var ops :| ValidOps(ops) && Run(EmptyDb, ops) == s;
      ReachesSelf<Db, Op>(EmptyDb, Leads);
      RunReaches(EmptyDb, ops);
    }
  }

  lemma {:induction false} RunAppend(s: Db, ops: seq<Op>, more: seq<Op>)
    requires PaymentsHaveBookings(s)
    ensures Run(s, ops + more) == Run(Run(s, ops), more)
    decreases |ops|
  {
    if ops == [] {
      assert ops + more == more;
    } else {
      assert (ops + more)[1..] == ops[1..] + more;
      RunAppend(Step(s, ops[0]).0, ops[1..], more);
    }
  }

  // ---------------------------------------------------------------- single capture

  /** At most one payment of a booking is ever captured; a served booking has exactly one, for its price. */
  lemma SingleCapture(s: Db, b: BookingId)
    requires Reached(s) && b < |s.bookings|
    ensures forall p, q :: PaidFor(s.payments, p, b) && PaidFor(s.payments, q, b) ==> p == q
    ensures forall p :: PaidFor(s.payments, p, b) ==> s.payments[p].amount == s.bookings[b].bookedPrice
    ensures s.bookings[b].status in {Confirmed, Completed} ==> exists p :: PaidFor(s.payments, p, b)
    ensures s.bookings[b].status in {PendingPayment, Expired} ==> forall p :: !PaidFor(s.payments, p, b)
  {
    ReachedInv(s);
    assert BookingRow(s.payments, b, s.bookings[b]);
    OneCapture(s, b);
    forall p | PaidFor(s.payments, p, b)
      ensures s.payments[p].amount == s.bookings[b].bookedPrice && s.bookings[b].status !in {PendingPayment, Expired}
    {
      assert PaymentRow(s.bookings, s.payments[p]);
    }
  }

  lemma OneCapture(s: Db, b: int)
    requires ConsistentDb(s)
    ensures forall p, q :: PaidFor(s.payments, p, b) && PaidFor(s.payments, q, b) ==> p == q
  {
    forall p, q | PaidFor(s.payments, p, b) && PaidFor(s.payments, q, b) ensures p == q {
      assert p < q ==> PaymentPair(s.payments[p], s.payments[q]);
      assert q < p ==> PaymentPair(s.payments[q], s.payments[p]);
    }
  }

  /** The statuses no service writes are never stored. */
  lemma UnusedStatuses(s: Db)
    requires Reached(s)
    ensures forall b :: 0 <= b < |s.bookings| ==> s.bookings[b].status != PaymentFailed
    ensures forall p :: 0 <= p < |s.payments| ==> s.payments[p].status != Pending
  {
    ReachedInv(s);
    forall b | 0 <= b < |s.bookings| ensures s.bookings[b].status != PaymentFailed {
      assert BookingRow(s.payments, b, s.bookings[b]);
    }
    forall p | 0 <= p < |s.payments| ensures s.payments[p].status != Pending {
      assert PaymentRow(s.bookings, s.payments[p]);
    }
  }

  // ---------------------------------------------------------------- money

  /** Hundredths captured for a booking. */
  function CapturedFor(payments: seq<Payment>, b: BookingId): nat {
    if payments == [] then 0
    else
      var last := payments[|payments| - 1];
      CapturedFor(payments[..|payments| - 1], b) + if last.bookingId == b && last.paidAt.Some? then last.amount else 0
  }

  /** Currency units the platform asked the gateway to refund for a booking. */
  function RefundedFor(refunds: seq<Refund>, payments: seq<Payment>, b: BookingId): real {
    if refunds == [] then 0.0
    else
      var last := refunds[|refunds| - 1];
      RefundedFor(refunds[..|refunds| - 1], payments, b) + if RefundOf(last, payments, b) then last.amount else 0.0
  }

  predicate RefundOf(r: Refund, payments: seq<Payment>, b: BookingId) {
    r.paymentId < |payments| && payments[r.paymentId].bookingId == b
  }

  lemma {:induction false} CapturedIsOnce(ps: seq<Payment>, b: BookingId, price: nat)
    requires forall p, q :: PaidFor(ps, p, b) && PaidFor(ps, q, b) ==> p == q
    requires forall p :: PaidFor(ps, p, b) ==> ps[p].amount == price
    ensures CapturedFor(ps, b) == if HasCapture(ps, b) then price else 0
  {
    if ps != [] {
      var n := |ps| - 1;
      var init := ps[..n];
      assert forall p :: PaidFor(init, p, b) <==> p < n && PaidFor(ps, p, b);
      CapturedIsOnce(init, b, price);
      if HasCapture(init, b) {
        var p :| PaidFor(init, p, b);
        assert PaidFor(ps, p, b);
        assert !PaidFor(ps, n, b);
      } else if HasCapture(ps, b) {
        var p :| PaidFor(ps, p, b);
        assert p == n;
      } else {
        assert !PaidFor(ps, n, b);
      }
    }
  }

  /** With distinct refunds of captured payments, at most one refund belongs to a booking. */
  lemma {:induction false} RefundedIsOnce(rs: seq<Refund>, ps: seq<Payment>, b: BookingId)
    requires forall i :: 0 <= i < |rs| ==> RefundOk(ps, rs[i])
    requires forall i, j :: 0 <= i < j < |rs| ==> rs[i].paymentId != rs[j].paymentId
    requires forall p, q :: PaidFor(ps, p, b) && PaidFor(ps, q, b) ==> p == q
    ensures (forall i :: 0 <= i < |rs| ==> !RefundOf(rs[i], ps, b)) ==> RefundedFor(rs, ps, b) == 0.0
    ensures forall i :: 0 <= i < |rs| && RefundOf(rs[i], ps, b) ==> RefundedFor(rs, ps, b) == rs[i].amount
  {
    if rs != [] {
      var n := |rs| - 1;
      RefundedIsOnce(rs[..n], ps, b);
      assert RefundOk(ps, rs[n]);
      if RefundOf(rs[n], ps, b) {
        assert PaidFor(ps, rs[n].paymentId, b);
        forall i | 0 <= i < n ensures !RefundOf(rs[i], ps, b) {
          assert RefundOk(ps, rs[i]);
          if RefundOf(rs[i], ps, b) {
            assert PaidFor(ps, rs[i].paymentId, b);
          }
        }
      }
    }
  }

  /** Refunds requested never exceed captures, and captures never exceed the booked price. */
  lemma {:induction false} MoneyConserved(s: Db, b: BookingId)
    requires Reached(s) && b < |s.bookings|
    ensures 0.0 <= RefundedFor(s.refunds, s.payments, b) <= CapturedFor(s.payments, b) as real / 100.0
    ensures CapturedFor(s.payments, b) <= s.bookings[b].bookedPrice
  {
    ReachedInv(s);
    SingleCapture(s, b);
    CapturedIsOnce(s.payments, b, s.bookings[b].bookedPrice);
    RefundedIsOnce(s.refunds, s.payments, b);
    if i :| 0 <= i < |s.refunds| && RefundOf(s.refunds[i], s.payments, b) {
      assert RefundOk(s.payments, s.refunds[i]);
      assert PaidFor(s.payments, s.refunds[i].paymentId, b);
    }
  }

  ghost predicate RefundedAlready(s: Db, p: PaymentId) {
    exists i :: 0 <= i < |s.refunds| && s.refunds[i].paymentId == p
  }

  lemma RefundDoneStep(s: Db, op: Op, p: PaymentId)
    requires Inv(s)
    ensures RefundedAlready(s, p) ==> RefundedAlready(Step(s, op).0, p) && Step(s, op).1 != RefundDone(p)
    ensures Step(s, op).1 == RefundDone(p) ==> RefundedAlready(Step(s, op).0, p)
  {
    var t := Step(s, op).0;
    if op.RefundOp? {
      if t.refunds != s.refunds {
        NewRefundOk(s, op);
        assert t.refunds[|s.refunds|].paymentId == op.paymentId;
        assert forall i :: 0 <= i < |s.refunds| ==> t.refunds[i] == s.refunds[i];
      }
    } else {
      OnlyRefundRefunds(s, op);
    }
  }

  lemma RefundedStays(s: Db, t: Db, p: PaymentId)
    requires Inv(s) && RefundedAlready(s, p) && Reaches(s, t, Leads)
    ensures Inv(t) && RefundedAlready(t, p)
  {
    var kept := (u: Db) => Inv(u) && RefundedAlready(u, p);
    forall u, op, v | Leads(u, op, v) && kept(u) ensures kept(v) {
      InvStep(u, op);
      RefundDoneStep(u, op, p);
    }
    HoldsFromThen(s, t, Leads, kept);
  }

  /** After a successful refund every further one of that payment is refused, whatever webhooks arrive in between. */
  lemma RefundAtMostOnce(s: Db, p: PaymentId, requested: Option<real>, now: int, t: Db, again: Option<real>, later: int)
    requires Reached(s) && PaymentsHaveBookings(s) && RefundPayment(s, p, requested, now).1 == RefundDone(p)
    requires Reaches(RefundPayment(s, p, requested, now).0, t, Leads)
    ensures PaymentsHaveBookings(t) && RefundPayment(t, p, again, later).1.Rejected?
  {
    ReachedInv(s);
    var op := RefundOp(p, requested, now);
    InvStep(s, op);
    RefundDoneStep(s, op, p);
    RefundedStays(Step(s, op).0, t, p);
    RefundDoneStep(t, RefundOp(p, again, later), p);
    assert RefundPayment(t, p, again, later).1 != RefundDone(p);
  }

  // ---------------------------------------------------------------- audit log

  /** The log, with the owners of the payments it names, rebuilds the table at every point of every run. */
  lemma AuditRebuildsTable(s: Db)
    requires Reached(s)
    ensures forall b :: 0 <= b < |s.bookings| ==> Replay(s.audit, s.payments, b) == Some(s.bookings[b].status)
    ensures forall k :: 0 <= k < |s.audit| && s.audit[k].OnBooking? ==>
      s.audit[k].oldStatus == Replay(s.audit[..k], s.payments, s.audit[k].bookingId)
  {
    ReachedInv(s);
  }

  /** Every captured payment's booking is either confirmed once or flagged for refund once, never both. */
  lemma CaptureAccountedFor(s: Db, p: PaymentId)
    requires Reached(s) && p < |s.payments| && s.payments[p].paidAt.Some?
    ensures var b := s.payments[p].bookingId;
      || (Tally(s.audit, ConfirmMark, b) == 1 && Tally(s.audit, RefundDueMark, b) == 0)
      || (Tally(s.audit, ConfirmMark, b) == 0 && Tally(s.audit, RefundDueMark, b) == 1)
  {
    ReachedInv(s);
    assert PaidFor(s.payments, p, s.payments[p].bookingId);
    assert Settlements(s.audit, s.payments[p].bookingId) == 1;
  }

  // ---------------------------------------------------------------- lifecycle

  predicate Dead(status: BookingStatus) {
    status == Cancelled || status == Expired
  }

  /** Position in the lifecycle; it grows with every change of status. */
  function Rank(status: BookingStatus): nat {
    match status
    case PendingPayment => 0
    case PaymentFailed => 0
    case Confirmed => 1
    case Completed => 2
    case Cancelled => 3
    case Expired => 3
  }

  /** How often a booking changes its status along a sequence of states. */
  function StatusChanges(states: seq<Db>, b: BookingId): nat {
    var n := |states|;
    if n < 2 then 0
    else StatusChanges(states[..n - 1], b) + if StatusDiffers(states[n - 2], states[n - 1], b) then 1 else 0
  }

  predicate StatusDiffers(s: Db, t: Db, b: BookingId) {
    b < |s.bookings| && b < |t.bookings| && s.bookings[b].status != t.bookings[b].status
  }

  function RankIn(s: Db, b: BookingId): nat {
    if b < |s.bookings| then Rank(s.bookings[b].status) else 0
  }

  lemma RankGrows(s: Db, op: Op, b: BookingId)
    requires Inv(s) && ValidOp(op)
    ensures RankIn(Step(s, op).0, b) >= RankIn(s, b) + (if StatusDiffers(s, Step(s, op).0, b) then 1 else 0)
  {
    if b < |s.bookings| {
      InvStep(s, op);
      BookingsStep(s, op);
      var t := Step(s, op).0;
      assert BookingRow(s.payments, b, s.bookings[b]) && BookingRow(t.payments, b, t.bookings[b]);
      assert StatusEdge(s.bookings[b].status, t.bookings[b].status);
    }
  }

  /** No execution changes a booking's status more than three times. */
  lemma {:induction false} LifecycleBound(states: seq<Db>, ops: seq<Op>, b: BookingId)
    requires Execution(states, ops, Leads) && states[0] == EmptyDb
    ensures StatusChanges(states, b) <= RankIn(states[|ops|], b) <= 3
    decreases |ops|
  {
    if ops != [] {
      var n := |ops| - 1;
      assert Execution(states[..n + 1], ops[..n], Leads);
      LifecycleBound(states[..n + 1], ops[..n], b);
      ReachesPrefix(states, ops, Leads, n);
      ReachedInv(states[n]);
      assert Leads(states[n], ops[n], states[n + 1]);
      RankGrows(states[n], ops[n], b);
    }
  }

  /** What stays true of the booking whose row once was `row`. */
  ghost predicate Survives(row: Booking, b: BookingId, s: Db) {
    && Inv(s) && b < |s.bookings| && SameBooking(row, s.bookings[b])
    && (Dead(row.status) ==> s.bookings[b].status == row.status)
  }

  /** A booking is never lost, keeps its terms, and never leaves CANCELLED or EXPIRED. */
  lemma BookingSurvives(s: Db, t: Db, b: BookingId)
    requires Inv(s) && Reaches(s, t, Leads) && b < |s.bookings|
    ensures Survives(s.bookings[b], b, t)
  {
    var kept := (u: Db) => Survives(s.bookings[b], b, u);
    forall u, op, v | Leads(u, op, v) && kept(u) ensures kept(v) {
      InvStep(u, op);
      BookingsStep(u, op);
      assert StatusEdge(u.bookings[b].status, v.bookings[b].status);
    }
    HoldsFromThen(s, t, Leads, kept);
  }

  /**
   Between any two consecutive states of a run every booking keeps its status, is confirmed, cancelled or expired
   from PENDING_PAYMENT, completed or cancelled from CONFIRMED, or cancelled from COMPLETED. The transition table
   allows each of these changes but the last.
   */
  lemma HistoryFollowsTable(states: seq<Db>, ops: seq<Op>, k: nat)
    requires Execution(states, ops, Leads) && states[0] == EmptyDb && k < |ops|
    ensures BookingsEvolve(states[k].bookings, states[k + 1].bookings)
    ensures forall b :: 0 <= b < |states[k].bookings| ==>
      var before, after := states[k].bookings[b].status, states[k + 1].bookings[b].status;
      before == after || (CanTransitionBooking(before, after) <==> before != Completed)
  {
    ReachesPrefix(states, ops, Leads, k);
    ReachedInv(states[k]);
    assert Leads(states[k], ops[k], states[k + 1]);
    BookingsStep(states[k], ops[k]);
  }

  /** Once captured, always captured at the same instant; once out of SUCCESS, never back. */
  lemma {:induction false} CaptureIsForEver(s: Db, ops: seq<Op>, p: PaymentId)
    requires Inv(s) && ValidOps(ops) && p < |s.payments| && s.payments[p].paidAt.Some?
    ensures p < |Run(s, ops).payments| && Run(s, ops).payments[p].paidAt == s.payments[p].paidAt
    ensures s.payments[p].status != Success ==> Run(s, ops).payments[p].status != Success
    decreases |ops|
  {
    if ops != [] {
      InvStep(s, ops[0]);
      PaymentsStep(s, ops[0]);
      assert PaymentEdge(s.payments[p], Step(s, ops[0]).0.payments[p]);
      CaptureIsForEver(Step(s, ops[0]).0, ops[1..], p);
    }
  }

  // ---------------------------------------------------------------- slots

  /** Two live bookings of one provider never share an instant. */
  lemma NoDoubleBooking(s: Db, i: BookingId, j: BookingId, instant: int)
    requires Reached(s) && i < |s.bookings| && j < |s.bookings| && i != j
    requires s.bookings[i].providerId == s.bookings[j].providerId
    requires Active(s.bookings[i].status) && Active(s.bookings[j].status)
    ensures !(SlotStart(s.bookings[i]) <= instant < SlotEnd(s.bookings[i]) && SlotStart(s.bookings[j]) <= instant < SlotEnd(s.bookings[j]))
  {
    ReachedInv(s);
    var a, c := if i < j then i else j, if i < j then j else i;
    assert !Overlaps(s.bookings[a], s.bookings[c]);
  }

  /** What a row keeps of the appointment from `startsAt` to `end`. */
  ghost predicate KeepsInstants(row: Booking, startsAt: int, end: int) {
    && SlotStart(row) == NearestSecond(startsAt) < SlotEnd(row) == NearestSecond(end)
    && StartOf(row) == NearestSecond(startsAt)
    && EndOf(row) == if StoredTime(end) == 86400 then UtcMidnight(startsAt) else NearestSecond(end)
  }

  /**
   For the rest of every run, the policy check, the overdue check and the reminder scheduler recompose exactly the
   booked instants if and only if the start was a whole second; otherwise each is the nearest second, except that
   an end stored as 24:00:00 reads as the midnight before the appointment. So start precedes end exactly otherwise.
   */
  lemma InstantsSurvive(s: Db, c: UserId, o: Offering, startsAt: int, order: OrderId, now: int, t: Db)
    requires Reached(s) && ValidOffering(o) && CreateBooking(s, c, Some(o), Some(startsAt), order, now).1.BookingMade?
    requires Reaches(CreateBooking(s, c, Some(o), Some(startsAt), order, now).0, t, Leads)
    ensures |s.bookings| < |t.bookings|
    ensures var row := t.bookings[|s.bookings|];
      var end := startsAt + o.durationMinutes * MS_PER_MINUTE;
      && (StartOf(row) == startsAt <==> startsAt % MS_PER_SECOND == 0)
      && (EndOf(row) == end <==> startsAt % MS_PER_SECOND == 0)
      && (StartOf(row) < EndOf(row) <==> end % MS_PER_DAY < MS_PER_DAY - 500)
      && KeepsInstants(row, startsAt, end)
  {
    CreatedSurvives(s, c, o, startsAt, order, now, t);
    NewBookingInstants(c, o, startsAt, now);
  }

  /**
   Two live bookings of one provider for the appointments from `s1` to `e1` and from `s2` to `e2` share less than a
   second of booked time, and none at all when both start on whole seconds.
   */
  lemma BookedApart(s: Db, i: BookingId, j: BookingId, s1: int, e1: int, s2: int, e2: int)
    requires Reached(s) && i < |s.bookings| && j < |s.bookings| && i != j
    requires s.bookings[i].providerId == s.bookings[j].providerId
    requires Active(s.bookings[i].status) && Active(s.bookings[j].status)
    requires KeepsInstants(s.bookings[i], s1, e1) && KeepsInstants(s.bookings[j], s2, e2)
    ensures e1 < s2 + MS_PER_SECOND || e2 < s1 + MS_PER_SECOND
    ensures s1 % MS_PER_SECOND == e1 % MS_PER_SECOND == s2 % MS_PER_SECOND == e2 % MS_PER_SECOND == 0 ==> e1 <= s2 || e2 <= s1
  {
    var a, c := s.bookings[i], s.bookings[j];
    NoDoubleBooking(s, i, j, if SlotStart(a) < SlotStart(c) then SlotStart(c) else SlotStart(a));
    if SlotEnd(a) <= SlotStart(c) {
      RoundedOrder(e1, s2);
    } else {
      RoundedOrder(e2, s1);
    }
  }

  lemma RoundedOrder(x: int, y: int)
    requires NearestSecond(x) <= NearestSecond(y)
    ensures x < y + MS_PER_SECOND && (x % MS_PER_SECOND == y % MS_PER_SECOND == 0 ==> x <= y)
  {
  }

  lemma CreatedSurvives(s: Db, c: UserId, o: Offering, startsAt: int, order: OrderId, now: int, t: Db)
    requires Reached(s) && ValidOffering(o) && CreateBooking(s, c, Some(o), Some(startsAt), order, now).1.BookingMade?
    requires Reaches(CreateBooking(s, c, Some(o), Some(startsAt), order, now).0, t, Leads)
    ensures Survives(NewBooking(c, o, startsAt, now), |s.bookings|, t) && FitsShift(o, startsAt)
  {
    ReachedInv(s);
    var op := CreateBookingOp(c, Some(o), Some(startsAt), order, now);
    InvStep(s, op);
    assert Step(s, op).0.bookings[|s.bookings|] == NewBooking(c, o, startsAt, now);
    BookingSurvives(Step(s, op).0, t, |s.bookings|);
  }

  lemma NewBookingInstants(customerId: UserId, o: Offering, startsAt: int, now: int)
    requires ValidOffering(o) && FitsShift(o, startsAt)
    ensures var row := NewBooking(customerId, o, startsAt, now);
      var end := startsAt + o.durationMinutes * MS_PER_MINUTE;
      && (StartOf(row) == startsAt <==> startsAt % MS_PER_SECOND == 0)
      && (EndOf(row) == end <==> startsAt % MS_PER_SECOND == 0)
      && (StartOf(row) < EndOf(row) <==> end % MS_PER_DAY < MS_PER_DAY - 500)
      && KeepsInstants(row, startsAt, end)
  {
    AcceptedTimes(o, startsAt);
    AppointmentRoundTrip(startsAt, o.durationMinutes);
    RowInstants(NewBooking(customerId, o, startsAt, now), startsAt, startsAt + o.durationMinutes * MS_PER_MINUTE);
  }

  lemma RowInstants(row: Booking, startsAt: int, end: int)
    requires UtcMidnight(end) == UtcMidnight(startsAt) == row.bookingDate
    requires row.startTime == StoredTime(startsAt) < row.endTime == StoredTime(end)
    ensures KeepsInstants(row, startsAt, end)
    ensures StartOf(row) < EndOf(row) <==> end % MS_PER_DAY < MS_PER_DAY - 500
  {
    StoredIsNearest(startsAt);
    StoredIsNearest(end);
    RecomposeIsSql(row.bookingDate, row.startTime);
    RecomposeIsSql(row.bookingDate, row.endTime);
  }

  /** The customer can cancel a live booking exactly until two hours before the booked instant, to the nearest second. */
  lemma CancellationPolicy(s: Db, c: UserId, o: Offering, startsAt: int, order: OrderId, now: int, t: Db,
                           customerId: UserId, later: int)
    requires Reached(s) && ValidOffering(o) && CreateBooking(s, c, Some(o), Some(startsAt), order, now).1.BookingMade?
    requires Reaches(CreateBooking(s, c, Some(o), Some(startsAt), order, now).0, t, Leads)
    ensures |s.bookings| < |t.bookings|
    ensures CancelBooking(t, |s.bookings|, customerId, later).1 == CancelDone(|s.bookings|) <==>
      customerId == c && Active(t.bookings[|s.bookings|].status) && later < NearestSecond(startsAt) - 2 * MS_PER_HOUR
  {
    CreatedSurvives(s, c, o, startsAt, order, now, t);
    NewBookingInstants(c, o, startsAt, now);
    assert BookingRow(t.payments, |s.bookings|, t.bookings[|s.bookings|]);
  }

  /** One shift of the start's weekday, in milliseconds, holds the appointment and its buffer from instant `from` on. */
  ghost predicate ShiftHolds(o: Offering, startsAt: int, from: int, w: Span) {
    var midnight := UtcMidnight(startsAt);
    && w.weekday == UtcWeekday(startsAt) && w.row.isAvailable
    && midnight + w.start * MS_PER_MINUTE <= from
    && from + (o.durationMinutes + o.bufferMinutes) * MS_PER_MINUTE <= midnight + w.end * MS_PER_MINUTE
  }

  lemma FitsInMeaning(o: Offering, w: Interval, startsAt: int)
    requires ValidInterval(w)
    ensures FitsIn(o, w, startsAt) <==> ShiftHolds(o, startsAt, startsAt - startsAt % MS_PER_MINUTE, ToSpan(w))
  {
    HourMinuteBound(w.startTime);
    HourMinuteBound(w.endTime);
    MinuteFloor(startsAt);
  }

  /** The shift check is exact containment of the appointment and its buffer, with the start's seconds dropped. */
  lemma ShiftCheckExact(o: Offering, startsAt: int)
    requires ValidOffering(o)
    ensures FitsShift(o, startsAt) <==>
      exists i :: 0 <= i < |o.schedules| && ShiftHolds(o, startsAt, startsAt - startsAt % MS_PER_MINUTE, ToSpan(o.schedules[i]))
  {
    forall i | 0 <= i < |o.schedules|
      ensures FitsIn(o, o.schedules[i], startsAt)
        <==> ShiftHolds(o, startsAt, startsAt - startsAt % MS_PER_MINUTE, ToSpan(o.schedules[i]))
    {
      assert ValidInterval(o.schedules[i]);
      FitsInMeaning(o, o.schedules[i], startsAt);
    }
  }

  // ---------------------------------------------------------------- jobs

  ghost predicate NothingDue(s: Db, t: int) {
    forall key :: key in s.jobs ==> t < s.jobs[key]
  }

  /** With the queue drained up to `t`, no reservation older than the payment window is still unpaid. */
  lemma ReservationsResolve(s: Db, t: int)
    requires Reached(s) && NothingDue(s, t)
    ensures forall b :: 0 <= b < |s.bookings| && s.bookings[b].createdAt + 15 * MS_PER_MINUTE <= t ==> s.bookings[b].status != PendingPayment
  {
    ReachedInv(s);
    forall b | 0 <= b < |s.bookings| && s.bookings[b].status == PendingPayment
      ensures t < s.bookings[b].createdAt + 15 * MS_PER_MINUTE
    {
      assert JobOk(s, ExpirePayment(b), s.jobs[ExpirePayment(b)]);
    }
  }

  /** The queue holds an expiry job for exactly the unpaid reservations, due at the end of their payment window. */
  lemma ExpiryJobsExact(s: Db, b: BookingId)
    requires Reached(s) && b < |s.bookings|
    ensures ExpirePayment(b) in s.jobs <==> s.bookings[b].status == PendingPayment
    ensures ExpirePayment(b) in s.jobs ==> s.jobs[ExpirePayment(b)] == s.bookings[b].createdAt + 15 * MS_PER_MINUTE
  {
    ReachedInv(s);
    JobFact(s, ExpirePayment(b));
  }

  /** Each operation runs a job that is due by `t` when its turn comes. */
  ghost predicate RunsDueJobs(s: Db, ops: seq<Op>, t: int)
    requires PaymentsHaveBookings(s)
    decreases |ops|
  {
    ops != [] ==>
      && ops[0].RunJobOp? && ops[0].now == t && ops[0].key in s.jobs && s.jobs[ops[0].key] <= t
      && RunsDueJobs(Step(s, ops[0]).0, ops[1..], t)
  }

  lemma DueJobLeaves(s: Db, key: JobKey, t: int)
    requires PaymentsHaveBookings(s) && key in s.jobs && s.jobs[key] <= t
    ensures var after := Step(s, RunJobOp(key, t)).0;
      after.jobs == s.jobs - {key} && |after.jobs| == |s.jobs| - 1 && |after.bookings| == |s.bookings|
  {
    assert (s.jobs - {key}).Keys == s.jobs.Keys - {key};
  }

  /** In whatever order due jobs run, each run takes one job off the queue, so no order goes on for ever. */
  lemma {:induction false} AnyOrderDrains(s: Db, ops: seq<Op>, t: int)
    requires PaymentsHaveBookings(s) && RunsDueJobs(s, ops, t)
    ensures |ops| + |Run(s, ops).jobs| == |s.jobs|
    decreases |ops|
  {
    if ops != [] {
      DueJobLeaves(s, ops[0].key, t);
      AnyOrderDrains(Step(s, ops[0]).0, ops[1..], t);
    }
  }

  /** Some order of due job runs leaves nothing due. */
  lemma {:induction false} QueueDrains(s: Db, t: int) returns (ops: seq<Op>)
    requires PaymentsHaveBookings(s)
    ensures RunsDueJobs(s, ops, t)
    ensures NothingDue(Run(s, ops), t)
    decreases |s.jobs|
  {
    if key :| key in s.jobs && s.jobs[key] <= t {
      var op := RunJobOp(key, t);
      DueJobLeaves(s, key, t);
      var rest := QueueDrains(Step(s, op).0, t);
      ops := [op] + rest;
      assert ops[1..] == rest;
    } else {
      ops := [];
    }
  }

  // ---------------------------------------------------------------- overdue flags

  /** One overdue entry exactly for the flagged bookings, flagged at or after their recomposed end plus grace. */
  lemma {:induction false} OverdueSound(s: Db, b: BookingId)
    requires Reached(s) && b < |s.bookings|
    ensures Tally(s.audit, OverdueMark, b) == (if s.bookings[b].needsReview then 1 else 0)
    ensures s.bookings[b].needsReview <==> s.bookings[b].overdueAt.Some?
    ensures s.bookings[b].needsReview ==> s.bookings[b].overdueAt.value >= EndOf(s.bookings[b]) + 2 * MS_PER_HOUR
  {
    ReachedInv(s);
    assert FlagOk(s.bookings[b]);
    assert Tally(s.audit, OverdueMark, b) == if Flagged(s.bookings, b) then 1 else 0;
  }

  /** A booking is only flagged by its due job, while CONFIRMED and unflagged, after end plus grace. */
  lemma FlagOnlyWhenDue(s: Db, op: Op, b: BookingId)
    requires Inv(s) && ValidOp(op) && b < |s.bookings|
    requires !s.bookings[b].needsReview && b < |Step(s, op).0.bookings| && Step(s, op).0.bookings[b].needsReview
    ensures op == RunJobOp(OverdueCheck(b), op.now) && Step(s, op).1 == FlagDone(b)
    ensures s.bookings[b].status == Confirmed && op.now >= EndOf(s.bookings[b]) + 2 * MS_PER_HOUR
  {
    match op
    case RunJobOp(key, now) =>
      if key in s.jobs {
        assert JobOk(s, key, s.jobs[key]);
      }
    case WebhookOp(d, now) => WebhookConfirms(s, d, now);
    case VerifyOp(_, _, _, _, _) => VerifyConfirms(s, op);
    case _ => RequestFlags(s, op);
  }
}
