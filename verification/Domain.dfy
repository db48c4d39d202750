/**
 Rows, enumerations and transition tables shared by the booking and payment protocol.

 A table whose primary key is generated on insert is a sequence: the row's id is its index, so
 insertion order is also creation order. Money stored in a Decimal(10,2) column is a number of
 hundredths; instants are milliseconds since the epoch.
 */
module Domain {

  datatype Option<+T> = None | Some(value: T)

  type UserId = nat
  type ProviderId = nat
  type BookingId = nat
  type PaymentId = nat
  type OrderId = nat
  type GatewayPaymentId = nat
  type EventId = nat

  datatype BookingStatus = PendingPayment | PaymentFailed | Confirmed | Completed | Cancelled | Expired

  datatype PaymentStatus = Created | Pending | Success | Failed | Refunded

  function ValidBookingTransitions(current: BookingStatus): set<BookingStatus> {
    match current
    case PendingPayment => {Confirmed, PaymentFailed, Cancelled, Expired}
    case Confirmed => {Completed, Cancelled}
    case PaymentFailed => {PendingPayment, Expired}
    case Completed => {}
    case Cancelled => {}
    case Expired => {}
  }

  predicate CanTransitionBooking(current: BookingStatus, next: BookingStatus) {
    next in ValidBookingTransitions(current)
  }

  function ValidPaymentTransitions(current: PaymentStatus): set<PaymentStatus> {
    match current
    case Created => {Pending, Success, Failed}
    case Pending => {Success, Failed}
    case Success => {Refunded}
    case Failed => {}
    case Refunded => {}
  }

  /** Reflexive: keeping a status is always allowed. */
  predicate CanTransitionPayment(current: PaymentStatus, next: PaymentStatus) {
    current == next || next in ValidPaymentTransitions(current)
  }

  /** `bookingDate` is midnight UTC in milliseconds; `startTime` and `endTime` are seconds of the day. */
  datatype Booking = Booking(
    customerId: UserId,
    providerId: ProviderId,
    providerUserId: UserId,
    bookingDate: int,
    startTime: int,
    endTime: int,
    status: BookingStatus,
    bookedPrice: nat,
    createdAt: int,
    needsReview: bool,
    overdueAt: Option<int>,
    cancelledAt: Option<int>,
    completedAt: Option<int>)

  datatype Payment = Payment(
    bookingId: BookingId,
    gatewayOrderId: OrderId,
    gatewayPaymentId: Option<GatewayPaymentId>,
    amount: nat,
    currency: string,
    status: PaymentStatus,
    paidAt: Option<int>,
    refundedAt: Option<int>)

  datatype WebhookEvent = WebhookEvent(processedAt: Option<int>)

  datatype AuditAction =
    | BookingCreated | BookingConfirmed | BookingCancelled | BookingCompleted | BookingFlaggedOverdue
    | PaymentSucceeded | PaymentRejected | PaymentReturned

  /** `oldStatus` and `newStatus` are the statuses in the logged old and new values; a creation logs its as `bookingStatus`. */
  datatype AuditEntry =
    | OnBooking(bookingId: BookingId, action: AuditAction,
                oldStatus: Option<BookingStatus>, newStatus: BookingStatus, requiresRefund: bool)
    | OnPayment(paymentId: PaymentId, action: AuditAction, paymentStatus: PaymentStatus)

  /** Deterministic job ids of the booking queue. */
  datatype JobKey = ExpirePayment(bookingId: BookingId) | OverdueCheck(bookingId: BookingId)

  /** One refund request sent to the gateway, in currency units. */
  datatype Refund = Refund(paymentId: PaymentId, amount: real)
}
