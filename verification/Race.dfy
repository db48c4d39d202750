/**
 One capture webhook racing any number of expiry workers on one reservation, interleaved at the level
 of single reads and writes.

 The webhook reads the payment long before its transaction, then reads the booking and writes booking
 and payment. A worker reads the booking and then writes only if it is still PENDING_PAYMENT. The
 indices of the webhook's read and write and of the successful expiry are kept as history.
 */
module Race {
  import opened Domain
  import opened Protocol

  datatype Hook =
    | Waiting
    | Loaded(snapshot: PaymentStatus)
    | InTransaction(seen: BookingStatus)
    | HookDone

  datatype Worker = Idle | SawPending | ReportedExpired | ReportedSkipped

  datatype Reservation = Reservation(
    booking: BookingStatus,
    payment: PaymentStatus,
    requiresRefund: bool,
    hook: Hook,
    workers: seq<Worker>,
    clock: nat,
    readAt: Option<nat>,
    wroteAt: Option<nat>,
    expiredAt: Option<nat>,
    revived: bool)

  datatype Action = LoadPayment | ReadBooking | WriteCapture | WorkerRead(w: nat) | WorkerWrite(w: nat)

  function Start(workers: nat): Reservation {
    Reservation(PendingPayment, Created, false, Waiting, seq(workers, _ => Idle), 0, None, None, None, false)
  }

  /** The webhook's snapshot of the payment row, possibly long before its transaction. */
  function DoLoad(r: Reservation): Reservation {
    if r.hook.Waiting? then r.(hook := Loaded(r.payment)) else r
  }

  /** The transaction checks the stale snapshot and reads the booking. */
  function DoRead(r: Reservation): Reservation {
    if !r.hook.Loaded? then r
    else if r.hook.snapshot == Success || !CanTransitionPayment(r.hook.snapshot, Success) then r.(hook := HookDone)
    else r.(hook := InTransaction(r.booking), readAt := Some(r.clock))
  }

  /** The transaction's unconditional writes, decided by what it read. */
  function DoWrite(r: Reservation): Reservation {
    if !r.hook.InTransaction? then r
    else
      var pending := r.hook.seen == PendingPayment;
      r.(booking := if pending then Confirmed else r.booking,
         requiresRefund := r.requiresRefund || !pending,
         payment := Success,
         revived := r.revived || (pending && r.booking != PendingPayment),
         hook := HookDone,
         wroteAt := Some(r.clock))
  }

  function DoWorkerRead(r: Reservation, w: nat): Reservation {
    if w >= |r.workers| || r.workers[w] != Idle then r
    else r.(workers := r.workers[w := if r.booking == PendingPayment then SawPending else ReportedSkipped])
  }

  /** The conditional update: exactly one row, or none. */
  function DoWorkerWrite(r: Reservation, w: nat): Reservation {
    if w >= |r.workers| || r.workers[w] != SawPending then r
    else if r.booking != PendingPayment then r.(workers := r.workers[w := ReportedSkipped])
    else r.(booking := Expired,
            payment := if r.payment in {Created, Pending} then Failed else r.payment,
            workers := r.workers[w := ReportedExpired],
            expiredAt := Some(r.clock))
  }

  function Next(r: Reservation, a: Action): Reservation {
    var t := match a
      case LoadPayment => DoLoad(r)
      case ReadBooking => DoRead(r)
      case WriteCapture => DoWrite(r)
      case WorkerRead(w) => DoWorkerRead(r, w)
      case WorkerWrite(w) => DoWorkerWrite(r, w);
    t.(clock := r.clock + 1)
  }

  function Interleave(r: Reservation, trace: seq<Action>): Reservation
    decreases |trace|
  {
    if trace == [] then r else Interleave(Next(r, trace[0]), trace[1..])
  }

  ghost predicate Before(a: Option<nat>, b: Option<nat>) {
    a.Some? && b.Some? && a.value < b.value
  }

  /** What every interleaving keeps. */
  ghost predicate RaceInv(r: Reservation) {
    && (forall v, w :: 0 <= v < w < |r.workers| ==> r.workers[v] != ReportedExpired || r.workers[w] != ReportedExpired)
    && (r.expiredAt.None? ==> forall w :: 0 <= w < |r.workers| ==> r.workers[w] != ReportedExpired)
    && (r.readAt.Some? ==> r.readAt.value < r.clock)
    && (r.expiredAt.Some? ==> r.expiredAt.value < r.clock && r.expiredAt != r.readAt && r.expiredAt != r.wroteAt)
    && (r.wroteAt.None? ==> !r.revived && !r.requiresRefund)
    && (r.wroteAt.None? && r.expiredAt.None? ==> r.booking == PendingPayment && r.payment == Created)
    && (r.wroteAt.None? && r.expiredAt.Some? ==> r.booking == Expired && r.payment == Failed)
    && (r.wroteAt.Some? ==>
          && r.hook == HookDone && r.payment == Success && Before(r.readAt, r.wroteAt)
          && (r.expiredAt.Some? ==> Before(r.expiredAt, r.wroteAt))
          && (r.requiresRefund <==> Before(r.expiredAt, r.readAt))
          && (r.revived <==> Before(r.readAt, r.expiredAt))
          && r.booking == if r.requiresRefund then Expired else Confirmed)
    && match r.hook
       case Waiting => r.readAt.None?
       case Loaded(snapshot) => r.readAt.None? && (snapshot == Created || (snapshot == Failed && r.expiredAt.Some?))
       case InTransaction(seen) =>
         r.readAt.Some? && r.wroteAt.None? && seen == if Before(r.expiredAt, r.readAt) then Expired else PendingPayment
       case HookDone => r.wroteAt.None? ==> r.expiredAt.Some?
  }

  lemma RaceInvStart(workers: nat)
    ensures RaceInv(Start(workers))
  {
  }

  lemma HookKeeps(r: Reservation, a: Action)
    requires RaceInv(r) && (a.LoadPayment? || a.ReadBooking? || a.WriteCapture?)
    ensures RaceInv(Next(r, a))
  {
  }

  lemma WorkerReadKeeps(r: Reservation, a: Action)
    requires RaceInv(r) && a.WorkerRead?
    ensures RaceInv(Next(r, a))
  {
  }

  lemma WorkerWriteKeeps(r: Reservation, a: Action)
    requires RaceInv(r) && a.WorkerWrite?
    ensures RaceInv(Next(r, a))
  {
  }

  lemma RaceInvNext(r: Reservation, a: Action)
    requires RaceInv(r)
    ensures RaceInv(Next(r, a))
  {
    match a
    case WorkerRead(_) => WorkerReadKeeps(r, a);
    case WorkerWrite(_) => WorkerWriteKeeps(r, a);
    case _ => HookKeeps(r, a);
  }

  lemma {:induction false} RaceInvHolds(r: Reservation, trace: seq<Action>)
    requires RaceInv(r)
    ensures RaceInv(Interleave(r, trace))
    decreases |trace|
  {
    if trace != [] {
      RaceInvNext(r, trace[0]);
      RaceInvHolds(Next(r, trace[0]), trace[1..]);
    }
  }

  /** However the workers interleave, at most one reports that it expired the reservation. */
  lemma {:induction false} OneWorkerExpires(workers: nat, trace: seq<Action>, v: nat, w: nat)
    ensures var r := Interleave(Start(workers), trace);
      v < |r.workers| && w < |r.workers| && r.workers[v] == ReportedExpired && r.workers[w] == ReportedExpired ==> v == w
  {
    RaceInvStart(workers);
    RaceInvHolds(Start(workers), trace);
  }

  /** A dead reservation is revived exactly when its expiry committed between the webhook's read and its write. */
  lemma {:induction false} RevivedExactly(workers: nat, trace: seq<Action>)
    ensures var r := Interleave(Start(workers), trace);
      r.revived <==> Before(r.readAt, r.expiredAt) && Before(r.expiredAt, r.wroteAt)
  {
    RaceInvStart(workers);
    RaceInvHolds(Start(workers), trace);
  }

  // ---------------------------------------------------------------- atomic transactions

  /** Nothing comes between the webhook transaction's read of the booking and its writes. */
  ghost predicate AtomicCapture(trace: seq<Action>) {
    forall i :: 0 <= i < |trace| && trace[i] == ReadBooking ==> i + 1 < |trace| && trace[i + 1] == WriteCapture
  }

  lemma {:induction false} AtomicIsAdjacent(r: Reservation, trace: seq<Action>)
    requires AtomicCapture(trace) && RaceInv(r)
    requires r.hook.InTransaction? ==> trace != [] && trace[0] == WriteCapture && r.readAt == Some(r.clock - 1)
    requires Before(r.readAt, r.wroteAt) ==> r.wroteAt.value == r.readAt.value + 1
    ensures var t := Interleave(r, trace); t.wroteAt.Some? ==> t.readAt.Some? && t.wroteAt.value == t.readAt.value + 1
    decreases |trace|
  {
    if trace != [] {
      RaceInvNext(r, trace[0]);
      forall i | 0 <= i < |trace| - 1 && trace[1..][i] == ReadBooking
        ensures i + 1 < |trace| - 1 && trace[1..][i + 1] == WriteCapture
      {
        assert trace[i + 1] == ReadBooking;
      }
      AtomicIsAdjacent(Next(r, trace[0]), trace[1..]);
    }
  }

  /**
   With the webhook's transaction atomic, a reservation that left PENDING_PAYMENT is never confirmed, and a
   finished webhook leaves one of three outcomes.
   */
  lemma {:induction false} RaceOutcomes(workers: nat, trace: seq<Action>)
    requires AtomicCapture(trace)
    ensures var r := Interleave(Start(workers), trace);
      && !r.revived
      && (r.hook == HookDone ==>
            || (r.booking == Confirmed && r.payment == Success && !r.requiresRefund && r.expiredAt.None?)
            || (r.booking == Expired && r.payment == Failed && !r.requiresRefund)
            || (r.booking == Expired && r.payment == Success && r.requiresRefund))
  {
    RaceInvStart(workers);
    RaceInvHolds(Start(workers), trace);
    AtomicIsAdjacent(Start(workers), trace);
  }

  /** Without atomicity the schedule read, expire, write does confirm an expired reservation. */
  lemma ReviveSchedule()
    ensures var r := Interleave(Start(1), [LoadPayment, WorkerRead(0), ReadBooking, WorkerWrite(0), WriteCapture]);
      r.revived && r.booking == Confirmed && r.workers == [ReportedExpired]
  {
    var t0 := [LoadPayment, WorkerRead(0), ReadBooking, WorkerWrite(0), WriteCapture];
    var t1, t2, t3, t4 := t0[1..], t0[2..], t0[3..], t0[4..];
    assert t1 == [WorkerRead(0), ReadBooking, WorkerWrite(0), WriteCapture] && t1[1..] == t2;
    assert t2 == [ReadBooking, WorkerWrite(0), WriteCapture] && t2[1..] == t3;
    assert t3 == [WorkerWrite(0), WriteCapture] && t3[1..] == t4;
    assert t4 == [WriteCapture] && t4[1..] == [];
    var r1 := Next(Start(1), LoadPayment);
    var r2 := Next(r1, WorkerRead(0));
    var r3 := Next(r2, ReadBooking);
    var r4 := Next(r3, WorkerWrite(0));
    var r5 := Next(r4, WriteCapture);
    assert r5.revived && r5.workers == [ReportedExpired];
    assert Interleave(r4, t4) == Interleave(r5, []) == r5;
    assert Interleave(r3, t3) == r5;
    assert Interleave(r2, t2) == r5;
    assert Interleave(r1, t1) == r5;
  }

  // ---------------------------------------------------------------- agreement with the atomic steps

  /** The reservation shows booking `b` and its payment `p` of the database. */
  ghost predicate Shows(r: Reservation, s: Db, b: BookingId, p: PaymentId) {
    && b < |s.bookings| && p < |s.payments| && s.payments[p].bookingId == b
    && r.booking == s.bookings[b].status && r.payment == s.payments[p].status
  }

  /** The log asks for a refund of booking `b` in its entries from `k` on. */
  ghost predicate AsksRefund(log: seq<AuditEntry>, b: BookingId, k: nat) {
    exists i :: k <= i < |log| && log[i].OnBooking? && log[i].bookingId == b && log[i].requiresRefund
  }

  /** The webhook's three actions in a row are the capture branch of the atomic step. */
  lemma HookAgrees(r: Reservation, s: Db, b: BookingId, p: PaymentId, d: Delivery, now: int)
    requires Shows(r, s, b, p) && r.hook == Waiting && !r.requiresRefund && PaymentsHaveBookings(s) && d.kind in {PaymentCaptured, OrderPaid}
    requires CaptureApplies(s.payments[p], d) <==> s.payments[p].status != Success && CanTransitionPayment(s.payments[p].status, Success)
    ensures var after, t := DoWrite(DoRead(DoLoad(r))), ApplyEvent(s, p, d, now).0;
      && Shows(after, t, b, p) && after.hook == HookDone
      && (after.requiresRefund <==> AsksRefund(t.audit, b, |s.audit|))
  {
    var t := ApplyEvent(s, p, d, now).0;
    if CaptureApplies(s.payments[p], d) {
      assert t.audit[|s.audit|].OnBooking?;
    }
  }

  /** A worker's read and write in a row are the atomic expiry. */
  lemma WorkerAgrees(r: Reservation, s: Db, b: BookingId, p: PaymentId, w: nat)
    requires Shows(r, s, b, p) && w < |r.workers| && r.workers[w] == Idle
    ensures var after, (t, reply) := DoWorkerWrite(DoWorkerRead(r, w), w), ExpireBooking(s, b);
      && Shows(after, t, b, p)
      && after.workers == r.workers[w := if reply == ExpireDone(b) then ReportedExpired else ReportedSkipped]
  {
  }
}
