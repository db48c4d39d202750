/**
 The booking and payment protocol as a state machine.

 Every service call, webhook delivery and due queue job is one atomic step on the database and the
 booking queue. The functions here say what each step does; class `Platform` runs the same steps as
 updates in place and is proved equal to them.
 */
module Protocol {
  import opened Domain
  import opened Times
  import opened Instants
  import Currency

  /** The stored tables, the queued jobs with their due times, and the refunds requested at the gateway. */
  datatype Db = Db(
    bookings: seq<Booking>,
    payments: seq<Payment>,
    events: map<EventId, WebhookEvent>,
    audit: seq<AuditEntry>,
    jobs: map<JobKey, int>,
    refunds: seq<Refund>)

  const EmptyDb := Db([], [], map[], [], map[], [])

  const PAYMENT_WINDOW := 15 * MS_PER_MINUTE
  const OVERDUE_GRACE := 2 * MS_PER_HOUR
  const CANCELLATION_NOTICE := 2 * MS_PER_HOUR
  const MAX_ADVANCE := 30 * MS_PER_DAY

  datatype Error = NotFound | Forbidden | BadRequest | Conflict | UniqueViolation | OutOfRange

  datatype Reply =
    | Rejected(error: Error)
    | BookingMade(bookingId: BookingId, paymentId: PaymentId)
    | OrderReturned(paymentId: PaymentId)
    | AlreadyVerified(bookingId: BookingId)
    | PaymentVerified(bookingId: BookingId)
    | WebhookAlreadyProcessed
    | WebhookIgnored
    | WebhookProcessed(confirmed: Option<BookingId>)
    | CancelDone(bookingId: BookingId)
    | CompleteDone(bookingId: BookingId)
    | RefundDone(paymentId: PaymentId)
    | ExpireDone(bookingId: BookingId)
    | FlagDone(bookingId: BookingId)
    | Skipped

  /** The catalogue entry a booking is made from, with its provider's state and weekly shifts. */
  datatype Offering = Offering(
    providerId: ProviderId, providerUserId: UserId, isActive: bool, verified: bool, userActive: bool,
    price: nat, currency: string, durationMinutes: int, bufferMinutes: int, schedules: seq<Interval>)

  /** Decimal(10,2) columns hold less than this many hundredths. */
  const DECIMAL_10_2 := 10_000_000_000

  /** Bounds the DTOs and the price column impose on stored offerings and shifts. */
  ghost predicate ValidOffering(o: Offering) {
    && o.price < DECIMAL_10_2
    && o.durationMinutes >= 1
    && o.bufferMinutes >= 0
    && forall i :: 0 <= i < |o.schedules| ==> ValidInterval(o.schedules[i])
  }

  datatype EventKind = PaymentCaptured | OrderPaid | PaymentFailedEvent | RefundProcessed | PaymentRefundedEvent | OtherEvent

  /** A webhook delivery after the signature check and JSON parsing were attempted. */
  datatype Delivery = Delivery(
    signatureValid: bool, parses: bool, eventId: EventId, kind: EventKind,
    orderId: Option<OrderId>, gatewayPaymentId: Option<GatewayPaymentId>,
    amount: Option<int>, currency: Option<string>)

  // ---------------------------------------------------------------- reading tables

  /** `findByBookingId`: the newest payment of a booking. */
  function LatestPayment(payments: seq<Payment>, b: BookingId): (r: Option<PaymentId>)
    ensures r.Some? ==> r.value < |payments| && payments[r.value].bookingId == b
                        && forall j :: r.value < j < |payments| ==> payments[j].bookingId != b
    ensures r.None? ==> forall j :: 0 <= j < |payments| ==> payments[j].bookingId != b
  {
    if payments == [] then None
    else if payments[|payments| - 1].bookingId == b then Some(|payments| - 1)
    else LatestPayment(payments[..|payments| - 1], b)
  }

  /** `findByGatewayOrderId`. */
  function FindByOrder(payments: seq<Payment>, orderId: OrderId): (r: Option<PaymentId>)
    ensures r.Some? ==> r.value < |payments| && payments[r.value].gatewayOrderId == orderId
    ensures r.None? ==> forall j :: 0 <= j < |payments| ==> payments[j].gatewayOrderId != orderId
  {
    if payments == [] then None
    else if payments[|payments| - 1].gatewayOrderId == orderId then Some(|payments| - 1)
    else FindByOrder(payments[..|payments| - 1], orderId)
  }

  /** The unique index on `gatewayPaymentId` refuses `g` for row `p`. */
  predicate GatewayIdTaken(payments: seq<Payment>, p: PaymentId, g: Option<GatewayPaymentId>) {
    g.Some? && exists i :: 0 <= i < |payments| && i != p && payments[i].gatewayPaymentId == g
  }

  /** The start and end the services recompose from the row. */
  function StartOf(b: Booking): int { Recompose(b.bookingDate, b.startTime) }

  function EndOf(b: Booking): int { Recompose(b.bookingDate, b.endTime) }

  /** The half-open range the exclusion constraint sees. */
  function SlotStart(b: Booking): int { SqlTimestamp(b.bookingDate, b.startTime) }

  function SlotEnd(b: Booking): int { SqlTimestamp(b.bookingDate, b.endTime) }

  /** The partial index of the exclusion constraint covers these statuses. */
  predicate Active(status: BookingStatus) {
    status == PendingPayment || status == Confirmed
  }

  /** Two half-open, non-empty ranges of one provider intersect. */
  predicate Overlaps(a: Booking, b: Booking) {
    && a.providerId == b.providerId && SlotStart(a) < SlotEnd(a) && SlotStart(b) < SlotEnd(b)
    && SlotStart(a) < SlotEnd(b) && SlotStart(b) < SlotEnd(a)
  }

  predicate ExclusionViolated(bookings: seq<Booking>, row: Booking) {
    exists i :: 0 <= i < |bookings| && Active(bookings[i].status) && Overlaps(bookings[i], row)
  }

  // ---------------------------------------------------------------- booking service

  predicate OpenOn(o: Offering, startsAt: int) {
    exists i :: 0 <= i < |o.schedules| && o.schedules[i].weekday == UtcWeekday(startsAt) && o.schedules[i].isAvailable
  }

  /** The slot and its trailing buffer fit in one of the day's shifts. */
  predicate FitsShift(o: Offering, startsAt: int) {
    exists i :: 0 <= i < |o.schedules| && FitsIn(o, o.schedules[i], startsAt)
  }

  predicate FitsIn(o: Offering, w: Interval, startsAt: int) {
    && w.weekday == UtcWeekday(startsAt) && w.isAvailable
    && ClockText(w.startTime) && ClockText(w.endTime)
    && TimeToMinutes(w.startTime) <= UtcMinuteOfDay(startsAt)
    && UtcMinuteOfDay(startsAt) + o.durationMinutes + o.bufferMinutes <= TimeToMinutes(w.endTime)
  }

  /** Adding a job under an id already in the queue does nothing. */
  function AddJob(jobs: map<JobKey, int>, key: JobKey, due: int): map<JobKey, int> {
    if key in jobs then jobs else jobs[key := due]
  }

  /** The row `createBooking` inserts: the start instant split into a date and times of day. */
  function NewBooking(customerId: UserId, o: Offering, startsAt: int, now: int): Booking {
    Booking(customerId, o.providerId, o.providerUserId, UtcMidnight(startsAt), StoredTime(startsAt),
            StoredTime(startsAt + o.durationMinutes * MS_PER_MINUTE), PendingPayment, o.price, now, false, None, None, None)
  }

  function NewPayment(b: BookingId, orderId: OrderId, amount: nat, currency: string): Payment {
    Payment(b, orderId, None, amount, currency, Created, None, None)
  }

  function CurrencyOr(currency: string): string {
    if currency == "" then "INR" else currency
  }

  function CreateBookingRefusal(s: Db, customerId: UserId, offering: Option<Offering>, startsAt: Option<int>,
                                orderId: OrderId, now: int): Option<Error> {
    if offering.None? || !offering.value.isActive then Some(NotFound)
    else if !offering.value.verified then Some(BadRequest)
    else if !offering.value.userActive then Some(Forbidden)
    else if startsAt.None? || startsAt.value < now || startsAt.value > now + MAX_ADVANCE then Some(BadRequest)
    else if !OpenOn(offering.value, startsAt.value) || !FitsShift(offering.value, startsAt.value) then Some(BadRequest)
    else if || ExclusionViolated(s.bookings, NewBooking(customerId, offering.value, startsAt.value, now))
            || FindByOrder(s.payments, orderId).Some? then Some(Conflict)
    else None
  }

  function CreateBooking(s: Db, customerId: UserId, offering: Option<Offering>, startsAt: Option<int>,
                         orderId: OrderId, now: int): (Db, Reply) {
    var refusal := CreateBookingRefusal(s, customerId, offering, startsAt, orderId, now);
    if refusal.Some? then (s, Rejected(refusal.value))
    else
      var b, p := |s.bookings|, |s.payments|;
      (s.(bookings := s.bookings + [NewBooking(customerId, offering.value, startsAt.value, now)],
          payments := s.payments + [NewPayment(b, orderId, offering.value.price, CurrencyOr(offering.value.currency))],
          audit := s.audit + [OnBooking(b, BookingCreated, None, PendingPayment, false)],
          jobs := AddJob(s.jobs, ExpirePayment(b), now + PAYMENT_WINDOW)),
       BookingMade(b, p))
  }

  function SetBookingStatus(bookings: seq<Booking>, b: BookingId, status: BookingStatus, now: int): seq<Booking>
    requires b < |bookings|
  {
    bookings[b := bookings[b].(status := status,
                               cancelledAt := if status == Cancelled then Some(now) else bookings[b].cancelledAt)]
  }

  function CancelBooking(s: Db, b: BookingId, customerId: UserId, now: int): (Db, Reply) {
    if b >= |s.bookings| || s.bookings[b].customerId != customerId then (s, Rejected(NotFound))
    else if !CanTransitionBooking(s.bookings[b].status, Cancelled) then (s, Rejected(BadRequest))
    else if now >= StartOf(s.bookings[b]) - CANCELLATION_NOTICE then (s, Rejected(Conflict))
    else
      (s.(bookings := SetBookingStatus(s.bookings, b, Cancelled, now),
          audit := s.audit + [OnBooking(b, BookingCancelled, Some(s.bookings[b].status), Cancelled, false)],
          jobs := s.jobs - {ExpirePayment(b), OverdueCheck(b)}),
       CancelDone(b))
  }

  function CompleteBooking(s: Db, b: BookingId, userId: UserId, isAdmin: bool, now: int): (Db, Reply) {
    if b >= |s.bookings| then (s, Rejected(NotFound))
    else if s.bookings[b].providerUserId != userId && !isAdmin then (s, Rejected(Forbidden))
    else if !CanTransitionBooking(s.bookings[b].status, Completed) then (s, Rejected(BadRequest))
    else
      (s.(bookings := s.bookings[b := s.bookings[b].(status := Completed, completedAt := Some(now))],
          audit := s.audit + [OnBooking(b, BookingCompleted, Some(s.bookings[b].status), Completed, false)],
          jobs := s.jobs - {OverdueCheck(b)}),
       CompleteDone(b))
  }

  /** Every unpaid payment of the booking becomes FAILED; other rows stay as they are. */
  function FailUnpaid(payments: seq<Payment>, b: BookingId): (r: seq<Payment>)
    ensures |r| == |payments|
  {
    seq(|payments|, i requires 0 <= i < |payments| =>
      if payments[i].bookingId == b && payments[i].status in {Created, Pending} then payments[i].(status := Failed)
      else payments[i])
  }

  function ExpireBooking(s: Db, b: BookingId): (Db, Reply) {
    if b >= |s.bookings| || s.bookings[b].status != PendingPayment then (s, Skipped)
    else
      (s.(bookings := s.bookings[b := s.bookings[b].(status := Expired)],
          payments := FailUnpaid(s.payments, b),
          audit := s.audit + [OnBooking(b, BookingCancelled, Some(PendingPayment), Expired, false)]),
       ExpireDone(b))
  }

  function FlagOverdueBooking(s: Db, b: BookingId, now: int): (Db, Reply) {
    if b >= |s.bookings| || s.bookings[b].status != Confirmed || s.bookings[b].needsReview then (s, Skipped)
    else
      (s.(bookings := s.bookings[b := s.bookings[b].(needsReview := true, overdueAt := Some(now))],
          audit := s.audit + [OnBooking(b, BookingFlaggedOverdue, Some(Confirmed), Confirmed, false)]),
       FlagDone(b))
  }

  /** A job runs once it is due and then leaves the queue. */
  function RunJob(s: Db, key: JobKey, now: int): (Db, Reply) {
    if key !in s.jobs || now < s.jobs[key] then (s, Skipped)
    else
      var (s1, reply) := match key
        case ExpirePayment(b) => ExpireBooking(s, b)
        case OverdueCheck(b) => FlagOverdueBooking(s, b, now);
      (s1.(jobs := s1.jobs - {key}), reply)
  }

  // ---------------------------------------------------------------- payment service

  function CreatePaymentOrder(s: Db, customerId: UserId, b: BookingId, orderId: OrderId): (Db, Reply) {
    if b >= |s.bookings| then (s, Rejected(NotFound))
    else if s.bookings[b].customerId != customerId then (s, Rejected(Forbidden))
    else if s.bookings[b].status != PendingPayment then (s, Rejected(BadRequest))
    else
      var latest := LatestPayment(s.payments, b);
      if latest.Some? && s.payments[latest.value].status == Created then (s, OrderReturned(latest.value))
      else if FindByOrder(s.payments, orderId).Some? then (s, Rejected(UniqueViolation))
      else (s.(payments := s.payments + [NewPayment(b, orderId, s.bookings[b].bookedPrice, "INR")]),
            OrderReturned(|s.payments|))
  }

  /** `updateStatus` to SUCCESS: absent details leave the stored value alone. */
  function MarkPaid(payments: seq<Payment>, p: PaymentId, g: Option<GatewayPaymentId>, now: int): seq<Payment>
    requires p < |payments|
  {
    payments[p := payments[p].(status := Success, paidAt := Some(now),
                               gatewayPaymentId := if g.Some? then g else payments[p].gatewayPaymentId)]
  }

  /** Queue changes after a booking is confirmed: no expiry any more, an overdue check if still ahead. */
  function ConfirmJobs(jobs: map<JobKey, int>, b: BookingId, booking: Booking, now: int): map<JobKey, int> {
    var rest := jobs - {ExpirePayment(b)};
    var due := EndOf(booking) + OVERDUE_GRACE;
    if due > now then AddJob(rest, OverdueCheck(b), due) else rest
  }

  function VerifyClientPayment(s: Db, customerId: UserId, orderId: OrderId, g: GatewayPaymentId,
                               signatureValid: bool, now: int): (r: (Db, Reply))
    requires PaymentsHaveBookings(s)
    ensures PaymentsHaveBookings(r.0)
  {
    var found := FindByOrder(s.payments, orderId);
    if found.None? then (s, Rejected(NotFound))
    else
      var p := found.value;
      var b := s.payments[p].bookingId;
      if s.bookings[b].customerId != customerId then (s, Rejected(Forbidden))
      else if !signatureValid then (s, Rejected(BadRequest))
      else if s.payments[p].status == Success && s.bookings[b].status == Confirmed then (s, AlreadyVerified(b))
      else if s.bookings[b].status != PendingPayment then (s, Rejected(BadRequest))
      else if !CanTransitionPayment(s.payments[p].status, Success) then (s, Rejected(BadRequest))
      else if GatewayIdTaken(s.payments, p, Some(g)) then (s, Rejected(UniqueViolation))
      else
        (s.(payments := MarkPaid(s.payments, p, Some(g), now),
            bookings := SetBookingStatus(s.bookings, b, Confirmed, now),
            audit := s.audit + [OnPayment(p, PaymentSucceeded, Success),
                                OnBooking(b, BookingConfirmed, Some(PendingPayment), Confirmed, false)],
            jobs := ConfirmJobs(s.jobs, b, s.bookings[b], now)),
         PaymentVerified(b))
  }

  ghost predicate PaymentsHaveBookings(s: Db) {
    forall p :: 0 <= p < |s.payments| ==> s.payments[p].bookingId < |s.bookings|
  }

  /** A capture event passes the status, amount and currency checks on the payment row it was read with. */
  predicate CaptureApplies(row: Payment, d: Delivery) {
    && row.status != Success
    && CanTransitionPayment(row.status, Success)
    && (d.amount.None? || d.amount.value == 0 || d.amount.value == Currency.SmallestUnits(row.amount, row.currency))
    && (d.currency.None? || d.currency.value == "" || Currency.ToUpper(d.currency.value) == Currency.ToUpper(row.currency))
  }

  predicate IsCapture(kind: EventKind) {
    kind == PaymentCaptured || kind == OrderPaid
  }

  predicate IsRefund(kind: EventKind) {
    kind == RefundProcessed || kind == PaymentRefundedEvent
  }

  /** The row write of this event breaks the unique index on `gatewayPaymentId`. */
  predicate EventClashes(s: Db, p: PaymentId, d: Delivery)
    requires p < |s.payments|
  {
    if IsCapture(d.kind) then CaptureApplies(s.payments[p], d) && GatewayIdTaken(s.payments, p, d.gatewayPaymentId)
    else d.kind == PaymentFailedEvent && s.payments[p].status != Failed
         && GatewayIdTaken(s.payments, p, d.gatewayPaymentId)
  }

  /** The capture branch: confirm a pending booking, flag any other for refund, and mark the payment paid. */
  function ApplyCapture(s: Db, p: PaymentId, d: Delivery, now: int): (Db, Option<BookingId>)
    requires PaymentsHaveBookings(s) && p < |s.payments|
  {
    var b := s.payments[p].bookingId;
    var current := s.bookings[b].status;
    var paid := MarkPaid(s.payments, p, d.gatewayPaymentId, now);
    if current == PendingPayment then
      (s.(payments := paid,
          bookings := SetBookingStatus(s.bookings, b, Confirmed, now),
          audit := s.audit + [OnBooking(b, BookingConfirmed, Some(current), Confirmed, false),
                              OnPayment(p, PaymentSucceeded, Success)],
          jobs := ConfirmJobs(s.jobs, b, s.bookings[b], now)),
       Some(b))
    else
      (s.(payments := paid,
          audit := s.audit + [OnBooking(b, PaymentSucceeded, Some(current), current, true),
                              OnPayment(p, PaymentSucceeded, Success)]),
       None)
  }

  function ApplyFailed(s: Db, p: PaymentId, d: Delivery): Db
    requires p < |s.payments|
  {
    if s.payments[p].status == Failed then s
    else
      var g := if d.gatewayPaymentId.Some? then d.gatewayPaymentId else s.payments[p].gatewayPaymentId;
      s.(payments := s.payments[p := s.payments[p].(status := Failed, gatewayPaymentId := g)],
         audit := s.audit + [OnPayment(p, PaymentRejected, Failed)])
  }

  function ApplyRefunded(s: Db, p: PaymentId, now: int): Db
    requires p < |s.payments|
  {
    if s.payments[p].status == Refunded then s
    else s.(payments := s.payments[p := s.payments[p].(status := Refunded, refundedAt := Some(now))])
  }

  function ApplyEvent(s: Db, p: PaymentId, d: Delivery, now: int): (Db, Option<BookingId>)
    requires PaymentsHaveBookings(s) && p < |s.payments|
  {
    if IsCapture(d.kind) then
      if CaptureApplies(s.payments[p], d) then ApplyCapture(s, p, d, now) else (s, None)
    else if d.kind == PaymentFailedEvent then (ApplyFailed(s, p, d), None)
    else if IsRefund(d.kind) then (ApplyRefunded(s, p, now), None)
    else (s, None)
  }

  function RecordEvent(s: Db, e: EventId, now: int): Db {
    s.(events := s.events[e := WebhookEvent(Some(now))])
  }

  /** Events without a known order are stored and otherwise ignored. */
  function RecordIgnored(s: Db, e: EventId, now: int): (Db, Reply) {
    if e in s.events then (s, Rejected(UniqueViolation)) else (RecordEvent(s, e, now), WebhookIgnored)
  }

  function HandleWebhook(s: Db, d: Delivery, now: int): (r: (Db, Reply))
    requires PaymentsHaveBookings(s)
    ensures PaymentsHaveBookings(r.0)
  {
    if !d.signatureValid || !d.parses then (s, Rejected(BadRequest))
    else if d.eventId in s.events && s.events[d.eventId].processedAt.Some? then (s, WebhookAlreadyProcessed)
    else if d.orderId.None? then RecordIgnored(s, d.eventId, now)
    else
      var found := FindByOrder(s.payments, d.orderId.value);
      if found.None? then RecordIgnored(s, d.eventId, now)
      else if d.eventId in s.events || EventClashes(s, found.value, d) then (s, WebhookAlreadyProcessed)
      else
        var (s1, confirmed) := ApplyEvent(s, found.value, d, now);
        (RecordEvent(s1, d.eventId, now), WebhookProcessed(confirmed))
  }

  function InUnits(hundredths: nat): real {
    hundredths as real / 100.0
  }

  /** The amount sent to the gateway: the requested one, or all of it when none is requested. */
  function RefundAmount(row: Payment, requested: Option<real>): real {
    if requested.Some? && requested.value != 0.0 then requested.value else InUnits(row.amount)
  }

  function RefundPayment(s: Db, p: PaymentId, requested: Option<real>, now: int): (r: (Db, Reply))
    requires PaymentsHaveBookings(s)
    ensures PaymentsHaveBookings(r.0)
  {
    if p >= |s.payments| then (s, Rejected(NotFound))
    else
      var row := s.payments[p];
      if row.status != Success then (s, Rejected(BadRequest))
      else if requested.Some? && (requested.value <= 0.0 || requested.value > InUnits(row.amount)) then (s, Rejected(BadRequest))
      else if row.gatewayPaymentId.None? then (s, Rejected(BadRequest))
      else
        (s.(refunds := s.refunds + [Refund(p, RefundAmount(row, requested))],
            payments := s.payments[p := row.(status := Refunded, refundedAt := Some(now))],
            bookings := if s.bookings[row.bookingId].status == Cancelled then s.bookings
                        else SetBookingStatus(s.bookings, row.bookingId, Cancelled, now),
            audit := s.audit + [OnPayment(p, PaymentReturned, Refunded)]),
         RefundDone(p))
  }

  // ---------------------------------------------------------------- runs

  datatype Op =
    | CreateBookingOp(customerId: UserId, offering: Option<Offering>, startsAt: Option<int>, orderId: OrderId, now: int)
    | CancelOp(bookingId: BookingId, customerId: UserId, now: int)
    | CompleteOp(bookingId: BookingId, userId: UserId, isAdmin: bool, now: int)
    | RunJobOp(key: JobKey, now: int)
    | CreateOrderOp(customerId: UserId, bookingId: BookingId, orderId: OrderId)
    | VerifyOp(customerId: UserId, orderId: OrderId, gatewayPaymentId: GatewayPaymentId, signatureValid: bool, now: int)
    | WebhookOp(delivery: Delivery, now: int)
    | RefundOp(paymentId: PaymentId, amount: Option<real>, now: int)

  /** Inputs that passed DTO validation. */
  ghost predicate ValidOp(op: Op) {
    op.CreateBookingOp? && op.offering.Some? ==> ValidOffering(op.offering.value)
  }

  function Step(s: Db, op: Op): (r: (Db, Reply))
    requires PaymentsHaveBookings(s)
    ensures PaymentsHaveBookings(r.0)
  {
    match op
    case CreateBookingOp(c, o, t, order, now) => CreateBooking(s, c, o, t, order, now)
    case CancelOp(b, c, now) => CancelBooking(s, b, c, now)
    case CompleteOp(b, u, admin, now) => CompleteBooking(s, b, u, admin, now)
    case RunJobOp(key, now) => RunJob(s, key, now)
    case CreateOrderOp(c, b, order) => CreatePaymentOrder(s, c, b, order)
    case VerifyOp(c, order, g, valid, now) => VerifyClientPayment(s, c, order, g, valid, now)
    case WebhookOp(d, now) => HandleWebhook(s, d, now)
    case RefundOp(p, amount, now) => RefundPayment(s, p, amount, now)
  }

  /** The database after a whole run. */
  function Run(s: Db, ops: seq<Op>): (r: Db)
    requires PaymentsHaveBookings(s)
    ensures PaymentsHaveBookings(r)
    decreases |ops|
  {
    if ops == [] then s else Run(Step(s, ops[0]).0, ops[1..])
  }

  ghost predicate ValidOps(ops: seq<Op>) {
    forall i :: 0 <= i < |ops| ==> ValidOp(ops[i])
  }
}
