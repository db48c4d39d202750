/**
 Concrete bookings: what the checks accept, and inputs on which the code does not do what it describes.
 */
module Witnesses {
  import opened Domain
  import opened Times
  import opened Instants
  import opened Protocol
  import opened Lifecycle

  /** The offering can be booked at `t`, seen from time zero. */
  ghost predicate Bookable(o: Offering, t: int) {
    ValidOffering(o) && o.isActive && o.verified && o.userActive && 0 <= t <= 30 * MS_PER_DAY && OpenOn(o, t) && FitsShift(o, t)
  }

  lemma ClockValues()
    ensures ClockText("0:00") && TimeToMinutes("0:00") == 0 && ClockText("23:59") && TimeToMinutes("23:59") == 1439
  {
    ClockTextAt("0:00", 1);
    ClockTextAt("23:59", 2);
    ParseShort("0:00"[..1]);
    ParseShort("0:00"[2..]);
    ParseShort("23:59"[..2]);
    ParseShort("23:59"[3..]);
  }

  /** An hour's service without buffer, for a hundred units. */
  function HourService(p: ProviderId, w: Interval, currency: string): Offering {
    Offering(p, 9, true, true, true, 10000, currency, 60, 0, [w])
  }

  lemma ShiftBookable(p: ProviderId, w: Interval, currency: string, t: int)
    requires ValidInterval(w) && w.weekday == 4 && w.isAvailable && ClockText(w.startTime) && ClockText(w.endTime)
    requires TimeToMinutes(w.startTime) == 0 && TimeToMinutes(w.endTime) == 1439
    requires LeavesAnHour(t)
    ensures Bookable(HourService(p, w, currency), t)
  {
    var o := HourService(p, w, currency);
    assert UtcWeekday(t) == 4;
    assert FitsIn(o, o.schedules[0], t);
  }

  /** Any time of the first Thursday that leaves an hour before the shift ends. */
  predicate LeavesAnHour(t: int) {
    0 <= t < MS_PER_DAY && UtcMinuteOfDay(t) + 60 <= 1439
  }

  /** There are bookable offerings: an hour's service, open on Thursdays, at any of those times. */
  lemma ThursdayBookable(p: ProviderId, currency: string) returns (o: Offering)
    ensures o.providerId == p && o.durationMinutes == 60 && o.price == 10000 && o.currency == currency
    ensures forall t :: LeavesAnHour(t) ==> Bookable(o, t)
  {
    ClockValues();
    var w := Interval(4, "0:00", "23:59", true);
    o := HourService(p, w, currency);
    forall t | LeavesAnHour(t) ensures Bookable(o, t) {
      ShiftBookable(p, w, currency, t);
    }
  }

  /** Customer `c` books `o` at `t`; the gateway order carries the provider's number. */
  function Book(c: UserId, o: Offering, t: int): Op {
    CreateBookingOp(c, Some(o), Some(t), o.providerId, 0)
  }

  lemma Booked(s: Db, c: UserId, o: Offering, t: int)
    requires PaymentsHaveBookings(s) && Bookable(o, t) && FindByOrder(s.payments, o.providerId).None?
    requires forall b :: 0 <= b < |s.bookings| ==> s.bookings[b].providerId != o.providerId
    ensures var (after, reply) := Step(s, Book(c, o, t));
      && reply == BookingMade(|s.bookings|, |s.payments|)
      && after.bookings == s.bookings + [NewBooking(c, o, t, 0)]
      && after.payments == s.payments + [NewPayment(|s.bookings|, o.providerId, o.price, CurrencyOr(o.currency))]
      && after.events == s.events
  {
  }

  /** A start one millisecond past the hour is accepted, and the services see the full hour. */
  lemma FractionalStart(c: UserId, p: ProviderId) returns (o: Offering)
    ensures ValidOffering(o) && Step(EmptyDb, Book(c, o, MS_PER_HOUR + 1)).1 == BookingMade(0, 0)
    ensures Step(EmptyDb, Book(c, o, MS_PER_HOUR + 1)).0.bookings == [NewBooking(c, o, MS_PER_HOUR + 1, 0)]
    ensures StartOf(NewBooking(c, o, MS_PER_HOUR + 1, 0)) == MS_PER_HOUR
  {
    o := ThursdayBookable(p, "INR");
    assert LeavesAnHour(MS_PER_HOUR + 1);
    Booked(EmptyDb, c, o, MS_PER_HOUR + 1);
    ReadAsFullHour(c, o);
  }

  lemma ReadAsFullHour(c: UserId, o: Offering)
    ensures StartOf(NewBooking(c, o, MS_PER_HOUR + 1, 0)) == MS_PER_HOUR
  {
    RecomposeIsSum(0, 3600);
  }

  /** 22:59:59.600 on the first Thursday: an hour from then ends at 23:59:59.600 and is stored as 24:00:00. */
  const LATE := 23 * MS_PER_HOUR - 400

  /** Its end reads as the midnight before, so the paid booking is flagged as overdue long before it starts. */
  lemma MidnightEndFlaggedEarly(p: ProviderId) returns (o: Offering)
    ensures ValidOffering(o)
    ensures var booked := Step(EmptyDb, Book(1, o, LATE)).0;
      var paid := Step(booked, VerifyOp(1, p, 7, true, 0)).0;
      var t := Step(paid, RunJobOp(OverdueCheck(0), 2 * MS_PER_HOUR)).0;
      && |t.bookings| == 1 && t.bookings[0].status == Confirmed
      && t.bookings[0].needsReview && t.bookings[0].overdueAt == Some(2 * MS_PER_HOUR)
      && EndOf(t.bookings[0]) == 0 < 2 * MS_PER_HOUR < LATE
  {
    o := ThursdayBookable(p, "INR");
    assert LeavesAnHour(LATE);
    Booked(EmptyDb, 1, o, LATE);
    FlaggedEarly(o, NewBooking(1, o, LATE, 0));
  }

  lemma FlaggedEarly(o: Offering, row: Booking)
    requires row == NewBooking(1, o, LATE, 0) && o.durationMinutes == 60
    requires var booked := Step(EmptyDb, Book(1, o, LATE)).0;
      booked.bookings == [row] && booked.payments == [NewPayment(0, o.providerId, o.price, CurrencyOr(o.currency))]
    ensures var booked := Step(EmptyDb, Book(1, o, LATE)).0;
      var paid := Step(booked, VerifyOp(1, o.providerId, 7, true, 0)).0;
      var t := Step(paid, RunJobOp(OverdueCheck(0), 2 * MS_PER_HOUR)).0;
      t.bookings == [row.(status := Confirmed, needsReview := true, overdueAt := Some(2 * MS_PER_HOUR))] && EndOf(row) == 0
  {
    var booked := Step(EmptyDb, Book(1, o, LATE)).0;
    assert row.endTime == 86400 && EndOf(row) == 0;
    assert FindByOrder(booked.payments, o.providerId) == Some(0);
    var paid := Step(booked, VerifyOp(1, o.providerId, 7, true, 0)).0;
    assert paid.bookings == [row.(status := Confirmed)];
    assert OverdueCheck(0) in paid.jobs && paid.jobs[OverdueCheck(0)] == 2 * MS_PER_HOUR;
  }

  /** One open payment for the pending booking 0, due to expire in a quarter of an hour. */
  ghost predicate OneUnpaid(s: Db, o: Offering, t: int) {
    && s.bookings == [NewBooking(1, o, t, 0)] && s.events == map[]
    && s.payments == [NewPayment(0, o.providerId, o.price, CurrencyOr(o.currency))]
    && s.jobs == map[ExpirePayment(0) := 15 * MS_PER_MINUTE]
  }

  lemma OneBooked(s: Db, o: Offering, t: int)
    requires Bookable(o, t) && s == Step(EmptyDb, Book(1, o, t)).0
    ensures OneUnpaid(s, o, t)
  {
    Booked(EmptyDb, 1, o, t);
  }

  /** The customer pays the right amount in the right currency, but the reservation has expired: only the event is stored. */
  lemma LateCaptureIgnored(p: ProviderId) returns (o: Offering)
    ensures ValidOffering(o)
    ensures var booked := Step(EmptyDb, Book(1, o, MS_PER_HOUR)).0;
      var expired := Step(booked, RunJobOp(ExpirePayment(0), 15 * MS_PER_MINUTE)).0;
      var capture := Delivery(true, true, 5, PaymentCaptured, Some(p), Some(7), Some(10000), Some("INR"));
      var (t, reply) := HandleWebhook(expired, capture, 15 * MS_PER_MINUTE);
      && |expired.bookings| == 1 && expired.bookings[0].status == Expired && expired.bookings[0].bookedPrice == 10000
      && |expired.payments| == 1 && expired.payments[0].status == Failed && expired.payments[0].currency == "INR"
      && reply == WebhookProcessed(None) && SameButEvents(expired, t) && 5 in t.events
  {
    o := ThursdayBookable(p, "INR");
    assert LeavesAnHour(MS_PER_HOUR);
    var booked := Step(EmptyDb, Book(1, o, MS_PER_HOUR)).0;
    OneBooked(booked, o, MS_PER_HOUR);
    ExpiredThenPaid(booked, o);
  }

  lemma ExpiredThenPaid(booked: Db, o: Offering)
    requires OneUnpaid(booked, o, MS_PER_HOUR) && o.currency == "INR"
    ensures var expired := Step(booked, RunJobOp(ExpirePayment(0), 15 * MS_PER_MINUTE)).0;
      var (t, reply) := HandleWebhook(expired, Delivery(true, true, 5, PaymentCaptured, Some(o.providerId), Some(7), Some(10000), Some("INR")), 15 * MS_PER_MINUTE);
      && expired.bookings == [booked.bookings[0].(status := Expired)] && expired.payments == [booked.payments[0].(status := Failed)]
      && reply == WebhookProcessed(None) && SameButEvents(expired, t) && 5 in t.events
  {
    var expired := Step(booked, RunJobOp(ExpirePayment(0), 15 * MS_PER_MINUTE)).0;
    assert expired.payments == [booked.payments[0].(status := Failed)];
    assert FindByOrder(expired.payments, o.providerId) == Some(0);
  }

  /** An hour from 1:00:00.400 and an hour from two o'clock are both accepted, although they share 400 milliseconds. */
  lemma FractionsOverlap(p: ProviderId) returns (o: Offering)
    ensures ValidOffering(o) && o.durationMinutes == 60
    ensures var booked := Step(EmptyDb, Book(1, o, MS_PER_HOUR + 400)).0;
      Step(booked, CreateBookingOp(2, Some(o), Some(2 * MS_PER_HOUR), p + 1, 0)).1 == BookingMade(1, 1)
  {
    o := ThursdayBookable(p, "INR");
    assert LeavesAnHour(MS_PER_HOUR + 400);
    Booked(EmptyDb, 1, o, MS_PER_HOUR + 400);
    assert LeavesAnHour(2 * MS_PER_HOUR);
    SecondFits(Step(EmptyDb, Book(1, o, MS_PER_HOUR + 400)).0, o);
  }

  lemma SecondFits(s: Db, o: Offering)
    requires PaymentsHaveBookings(s) && s.bookings == [NewBooking(1, o, MS_PER_HOUR + 400, 0)] && Bookable(o, 2 * MS_PER_HOUR)
    requires s.payments == [NewPayment(0, o.providerId, o.price, CurrencyOr(o.currency))] && o.durationMinutes == 60
    ensures Step(s, CreateBookingOp(2, Some(o), Some(2 * MS_PER_HOUR), o.providerId + 1, 0)).1 == BookingMade(1, 1)
  {
    var first, second := NewBooking(1, o, MS_PER_HOUR + 400, 0), NewBooking(2, o, 2 * MS_PER_HOUR, 0);
    assert first.endTime == 7200 && second.startTime == 7200;
    assert !Overlaps(first, second);
    assert FindByOrder(s.payments, o.providerId + 1).None?;
  }

  // ---------------------------------------------------------------- retries in another currency

  /** A failed attempt on a booking sold for 100 dollars, a second order for it, and a capture of 100 rupees that confirms it. */
  lemma DollarsPaidInRupees(p: ProviderId) returns (o: Offering)
    ensures ValidOffering(o) && o.currency == "USD"
    ensures var booked := Step(EmptyDb, Book(1, o, MS_PER_HOUR)).0;
      var failed := Step(booked, WebhookOp(Delivery(true, true, 5, PaymentFailedEvent, Some(p), Some(7), None, None), 0)).0;
      var ordered := Step(failed, CreateOrderOp(1, 0, p + 1)).0;
      var capture := Delivery(true, true, 6, PaymentCaptured, Some(p + 1), Some(8), Some(10000), Some("INR"));
      HandleWebhook(ordered, capture, 0).1 == WebhookProcessed(Some(0))
  {
    o := ThursdayBookable(p, "USD");
    assert LeavesAnHour(MS_PER_HOUR);
    var booked := Step(EmptyDb, Book(1, o, MS_PER_HOUR)).0;
    OneBooked(booked, o, MS_PER_HOUR);
    var failure := WebhookOp(Delivery(true, true, 5, PaymentFailedEvent, Some(p), Some(7), None, None), 0);
    var failed := Step(booked, failure).0;
    AttemptFails(booked, o, failed);
    RetriedInRupees(failed, o, Step(failed, CreateOrderOp(1, 0, p + 1)).0);
  }

  lemma AttemptFails(booked: Db, o: Offering, failed: Db)
    requires OneUnpaid(booked, o, MS_PER_HOUR)
    requires failed == Step(booked, WebhookOp(Delivery(true, true, 5, PaymentFailedEvent, Some(o.providerId), Some(7), None, None), 0)).0
    ensures failed.bookings == booked.bookings && failed.events.Keys == {5}
    ensures failed.payments == [booked.payments[0].(status := Failed, gatewayPaymentId := Some(7))]
  {
    assert FindByOrder(booked.payments, o.providerId) == Some(0);
  }

  lemma RetriedInRupees(failed: Db, o: Offering, ordered: Db)
    requires failed.bookings == [NewBooking(1, o, MS_PER_HOUR, 0)] && failed.events.Keys == {5} && o.price == 10000
    requires |failed.payments| == 1 && failed.payments[0].bookingId == 0 && failed.payments[0].status == Failed
    requires failed.payments[0].gatewayOrderId == o.providerId && failed.payments[0].gatewayPaymentId == Some(7)
    requires ordered == Step(failed, CreateOrderOp(1, 0, o.providerId + 1)).0
    ensures PaymentsHaveBookings(ordered)
    ensures var capture := Delivery(true, true, 6, PaymentCaptured, Some(o.providerId + 1), Some(8), Some(10000), Some("INR"));
      HandleWebhook(ordered, capture, 0).1 == WebhookProcessed(Some(0))
  {
    assert FindByOrder(failed.payments, o.providerId + 1).None?;
    assert ordered.payments == failed.payments + [NewPayment(0, o.providerId + 1, 10000, "INR")];
    assert FindByOrder(ordered.payments, o.providerId + 1) == Some(1);
    assert !GatewayIdTaken(ordered.payments, 1, Some(8));
  }
}
