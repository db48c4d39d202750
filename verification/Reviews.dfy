/**
 Reviews and the rating kept denormalised on the provider profile.

 Reviews live beside the booking protocol: bookings move by protocol steps, and reviewing a booking
 stores the review and rewrites the provider's statistics. The mean the database answers is an input of the step.
 */
module Reviews {
  import opened Domain
  import opened Protocol
  import opened Lifecycle
  import opened Guarantees
  import opened Executions
  import opened Ratings

  datatype Review = Review(bookingId: BookingId, customerId: UserId, providerId: ProviderId, rating: int)

  /** `average` counts hundredths of a star. */
  datatype Stats = Stats(average: int, total: nat)

  const NoStats := Stats(0, 0)

  // ---------------------------------------------------------------- aggregates

  function Count(reviews: seq<Review>, p: ProviderId): nat {
    if reviews == [] then 0
    else Count(reviews[..|reviews| - 1], p) + if reviews[|reviews| - 1].providerId == p then 1 else 0
  }

  function Sum(reviews: seq<Review>, p: ProviderId): int {
    if reviews == [] then 0
    else
      var last := reviews[|reviews| - 1];
      Sum(reviews[..|reviews| - 1], p) + if last.providerId == p then last.rating else 0
  }

  /** The positions of the provider's reviews with `k` stars. */
  ghost function WithStars(reviews: seq<Review>, p: ProviderId, k: int): set<int> {
    set i | 0 <= i < |reviews| && reviews[i].providerId == p && reviews[i].rating == k
  }

  ghost function Stars(reviews: seq<Review>, p: ProviderId, k: int): nat {
    |WithStars(reviews, p, k)|
  }

  lemma StarsLast(reviews: seq<Review>, p: ProviderId, k: int)
    requires reviews != []
    ensures var n := |reviews| - 1;
      Stars(reviews, p, k) == Stars(reviews[..n], p, k) + if reviews[n].providerId == p && reviews[n].rating == k then 1 else 0
  {
    var n := |reviews| - 1;
    var before := WithStars(reviews[..n], p, k);
    assert WithStars(reviews, p, k) == before + if reviews[n].providerId == p && reviews[n].rating == k then {n} else {};
  }

  /** The number of the provider's reviews with one to five stars. */
  ghost function StarTotal(reviews: seq<Review>, p: ProviderId): nat {
    Stars(reviews, p, 1) + Stars(reviews, p, 2) + Stars(reviews, p, 3) + Stars(reviews, p, 4) + Stars(reviews, p, 5)
  }

  /** All their stars. */
  ghost function StarSum(reviews: seq<Review>, p: ProviderId): int {
    Stars(reviews, p, 1) + 2 * Stars(reviews, p, 2) + 3 * Stars(reviews, p, 3) + 4 * Stars(reviews, p, 4) + 5 * Stars(reviews, p, 5)
  }

  /** The aggregates count the reviews and their stars. */
  lemma {:induction false} AggregateByStars(reviews: seq<Review>, p: ProviderId)
    requires forall i :: 0 <= i < |reviews| ==> 1 <= reviews[i].rating <= 5
    ensures Count(reviews, p) == StarTotal(reviews, p) && Sum(reviews, p) == StarSum(reviews, p)
  {
    if reviews == [] {
      assert forall k :: WithStars(reviews, p, k) == {};
    } else {
      AggregateByStars(reviews[..|reviews| - 1], p);
      StarsLast(reviews, p, 1);
      StarsLast(reviews, p, 2);
      StarsLast(reviews, p, 3);
      StarsLast(reviews, p, 4);
      StarsLast(reviews, p, 5);
    }
  }

  // ---------------------------------------------------------------- steps

  datatype Ledger = Ledger(db: Db, reviews: seq<Review>, stats: map<ProviderId, Stats>)

  const EmptyLedger := Ledger(EmptyDb, [], map[])

  datatype ReviewOp =
    | Core(op: Op)
    | CreateReview(customerId: UserId, bookingId: Option<BookingId>, rating: int, mean: real)
    | UpdateReview(customerId: UserId, reviewId: nat, newRating: Option<int>, mean: real)

  function StatsOf(stats: map<ProviderId, Stats>, p: ProviderId): Stats {
    if p in stats then stats[p] else NoStats
  }

  /** `updateProviderRatingStats` with the database's count and its mean as it arrives. */
  function Recalculated(reviews: seq<Review>, p: ProviderId, mean: real): Stats {
    var count := Count(reviews, p);
    Stats(if count > 0 then ToFixed2(mean) else 0, count)
  }

  /** `mean` is a float the service may receive for the mean of the provider's reviews. */
  ghost predicate AnswersFor(reviews: seq<Review>, p: ProviderId, mean: real) {
    Count(reviews, p) > 0 ==> Answers(Sum(reviews, p), Count(reviews, p), mean)
  }

  /** The statistics as a function of the reviews alone. */
  function Aggregate(reviews: seq<Review>, p: ProviderId): Stats {
    var count := Count(reviews, p);
    if count == 0 then NoStats else Stats(Average(Sum(reviews, p), count), count)
  }

  datatype ReviewReply = Refused(error: Error) | Saved(reviewId: nat) | Edited(reviewId: nat)

  predicate Reviewed(reviews: seq<Review>, b: BookingId) {
    exists i :: 0 <= i < |reviews| && reviews[i].bookingId == b
  }

  /** The `Int` column cannot hold a larger number of reviews, so the transaction fails. */
  predicate TooMany(reviews: seq<Review>, p: ProviderId) {
    Count(reviews, p) > INT_MAX
  }

  function AddReview(bookings: seq<Booking>, reviews: seq<Review>, stats: map<ProviderId, Stats>, customerId: UserId,
                     bookingId: Option<BookingId>, rating: int, mean: real)
    : (seq<Review>, map<ProviderId, Stats>, ReviewReply) {
    if bookingId.None? then (reviews, stats, Refused(BadRequest))
    else if bookingId.value >= |bookings| then (reviews, stats, Refused(NotFound))
    else
      var booking := bookings[bookingId.value];
      if booking.customerId != customerId then (reviews, stats, Refused(Forbidden))
      else if booking.status != Completed then (reviews, stats, Refused(BadRequest))
      else if Reviewed(reviews, bookingId.value) then (reviews, stats, Refused(Conflict))
      else
        var more := reviews + [Review(bookingId.value, customerId, booking.providerId, rating)];
        if TooMany(more, booking.providerId) then (reviews, stats, Refused(OutOfRange))
        else (more, stats[booking.providerId := Recalculated(more, booking.providerId, mean)], Saved(|reviews|))
  }

  function EditReview(reviews: seq<Review>, stats: map<ProviderId, Stats>, customerId: UserId, r: nat,
                      newRating: Option<int>, mean: real)
    : (seq<Review>, map<ProviderId, Stats>, ReviewReply) {
    if r >= |reviews| then (reviews, stats, Refused(NotFound))
    else if reviews[r].customerId != customerId then (reviews, stats, Refused(Forbidden))
    else if newRating.Some? && newRating.value != reviews[r].rating then
      var edited := reviews[r := reviews[r].(rating := newRating.value)];
      if TooMany(edited, reviews[r].providerId) then (reviews, stats, Refused(OutOfRange))
      else (edited, stats[reviews[r].providerId := Recalculated(edited, reviews[r].providerId, mean)], Edited(r))
    else (reviews, stats, Edited(r))
  }

  function ReviewStep(s: Ledger, op: ReviewOp): Ledger
    requires PaymentsHaveBookings(s.db)
  {
    match op
    case Core(core) => s.(db := Step(s.db, core).0)
    case CreateReview(c, b, rating, mean) =>
      var (reviews, stats, _) := AddReview(s.db.bookings, s.reviews, s.stats, c, b, rating, mean);
      s.(reviews := reviews, stats := stats)
    case UpdateReview(c, r, rating, mean) =>
      var (reviews, stats, _) := EditReview(s.reviews, s.stats, c, r, rating, mean);
      s.(reviews := reviews, stats := stats)
  }

  /** Ratings pass DTO validation. */
  ghost predicate ValidReviewOp(op: ReviewOp) {
    match op
    case Core(core) => ValidOp(core)
    case CreateReview(_, _, rating, _) => 1 <= rating <= 5
    case UpdateReview(_, _, rating, _) => rating.Some? ==> 1 <= rating.value <= 5
  }

  /** The mean comes from the rows the step has just written. */
  ghost predicate MeanAnswered(s: Ledger, op: ReviewOp, t: Ledger) {
    match op
    case Core(_) => true
    case CreateReview(_, b, _, mean) =>
      b.Some? && b.value < |s.db.bookings| ==> AnswersFor(t.reviews, s.db.bookings[b.value].providerId, mean)
    case UpdateReview(_, r, _, mean) => r < |s.reviews| ==> AnswersFor(t.reviews, s.reviews[r].providerId, mean)
  }

  ghost predicate ReviewLeads(s: Ledger, op: ReviewOp, t: Ledger) {
    ValidReviewOp(op) && PaymentsHaveBookings(s.db) && t == ReviewStep(s, op) && MeanAnswered(s, op, t)
  }

  /** The ledger after some execution from the empty one. */
  ghost predicate ReviewReached(s: Ledger) {
    Reaches(EmptyLedger, s, ReviewLeads)
  }

  // ---------------------------------------------------------------- invariant

  ghost predicate ReviewOk(bookings: seq<Booking>, r: Review) {
    && r.bookingId < |bookings|
    && r.customerId == bookings[r.bookingId].customerId
    && r.providerId == bookings[r.bookingId].providerId
    && 1 <= r.rating <= 5
    && bookings[r.bookingId].status in {Completed, Cancelled}
  }

  ghost predicate ReviewsOk(bookings: seq<Booking>, reviews: seq<Review>, stats: map<ProviderId, Stats>) {
    && (forall i :: 0 <= i < |reviews| ==> ReviewOk(bookings, reviews[i]))
    && (forall i, j :: 0 <= i < j < |reviews| ==> reviews[i].bookingId != reviews[j].bookingId)
    && (forall p: ProviderId :: StatsOf(stats, p) == Aggregate(reviews, p) && !TooMany(reviews, p))
  }

  ghost predicate ReviewInv(s: Ledger) {
    Inv(s.db) && ReviewsOk(s.db.bookings, s.reviews, s.stats)
  }

  lemma {:induction false} AggregateFrame(rs: seq<Review>, ts: seq<Review>, p: ProviderId)
    requires |rs| <= |ts|
    requires forall i :: 0 <= i < |rs| ==> rs[i] == ts[i] || (rs[i].providerId != p && ts[i].providerId != p)
    requires forall i :: |rs| <= i < |ts| ==> ts[i].providerId != p
    ensures Count(ts, p) == Count(rs, p) && Sum(ts, p) == Sum(rs, p)
    decreases |ts|
  {
    if ts != [] {
      var n := |ts| - 1;
      if |rs| == |ts| {
        AggregateFrame(rs[..n], ts[..n], p);
      } else {
        AggregateFrame(rs, ts[..n], p);
      }
    }
  }

  lemma {:induction false} SumBounds(reviews: seq<Review>, p: ProviderId)
    requires forall i :: 0 <= i < |reviews| ==> 1 <= reviews[i].rating <= 5
    ensures Count(reviews, p) <= Sum(reviews, p) <= 5 * Count(reviews, p)
  {
    if reviews != [] {
      SumBounds(reviews[..|reviews| - 1], p);
    }
  }

  /** Whatever float the database answers, the recalculated statistics are those of the reviews. */
  lemma RecalculatedExact(reviews: seq<Review>, p: ProviderId, mean: real)
    requires forall i :: 0 <= i < |reviews| ==> 1 <= reviews[i].rating <= 5
    requires AnswersFor(reviews, p, mean) && !TooMany(reviews, p)
    ensures Recalculated(reviews, p, mean) == Aggregate(reviews, p)
  {
    SumBounds(reviews, p);
    if Count(reviews, p) > 0 {
      PrintedAverage(Sum(reviews, p), Count(reviews, p), mean);
    }
  }

  /** Rewriting the statistics of the one provider whose reviews changed. */
  lemma StatsKeep(rs: seq<Review>, ts: seq<Review>, stats: map<ProviderId, Stats>, q: ProviderId)
    requires forall p: ProviderId :: StatsOf(stats, p) == Aggregate(rs, p) && !TooMany(rs, p)
    requires |rs| <= |ts| && !TooMany(ts, q)
    requires forall i :: 0 <= i < |rs| ==> rs[i] == ts[i] || (rs[i].providerId == q && ts[i].providerId == q)
    requires forall i :: |rs| <= i < |ts| ==> ts[i].providerId == q
    ensures forall p: ProviderId :: StatsOf(stats[q := Aggregate(ts, q)], p) == Aggregate(ts, p) && !TooMany(ts, p)
  {
    forall p: ProviderId | p != q
      ensures StatsOf(stats[q := Aggregate(ts, q)], p) == Aggregate(ts, p) && !TooMany(ts, p)
    {
      assert StatsOf(stats, p) == Aggregate(rs, p);
      AggregateFrame(rs, ts, p);
    }
  }

  lemma AddReviewKeeps(bs: seq<Booking>, rs: seq<Review>, stats: map<ProviderId, Stats>, c: UserId,
                       b: Option<BookingId>, rating: int, mean: real)
    requires ReviewsOk(bs, rs, stats) && 1 <= rating <= 5
    requires var (ts, _, _) := AddReview(bs, rs, stats, c, b, rating, mean);
      b.Some? && b.value < |bs| ==> AnswersFor(ts, bs[b.value].providerId, mean)
    ensures var (ts, after, _) := AddReview(bs, rs, stats, c, b, rating, mean); ReviewsOk(bs, ts, after)
  {
    var (ts, after, reply) := AddReview(bs, rs, stats, c, b, rating, mean);
    if reply.Saved? {
      var q := bs[b.value].providerId;
      assert forall i :: 0 <= i < |ts| ==> ReviewOk(bs, ts[i]);
      RecalculatedExact(ts, q, mean);
      StatsKeep(rs, ts, stats, q);
    }
  }

  lemma EditReviewKeeps(bs: seq<Booking>, rs: seq<Review>, stats: map<ProviderId, Stats>, c: UserId, r: nat,
                        rating: Option<int>, mean: real)
    requires ReviewsOk(bs, rs, stats) && (rating.Some? ==> 1 <= rating.value <= 5)
    requires var (ts, _, _) := EditReview(rs, stats, c, r, rating, mean); r < |rs| ==> AnswersFor(ts, rs[r].providerId, mean)
    ensures var (ts, after, _) := EditReview(rs, stats, c, r, rating, mean); ReviewsOk(bs, ts, after)
  {
    var (ts, after, reply) := EditReview(rs, stats, c, r, rating, mean);
    if ts != rs {
      var q := rs[r].providerId;
      assert ReviewOk(bs, rs[r]);
      assert forall i :: 0 <= i < |ts| ==> ReviewOk(bs, ts[i]);
      RecalculatedExact(ts, q, mean);
      StatsKeep(rs, ts, stats, q);
    }
  }

  lemma CoreKeepsReviews(s: Ledger, op: Op)
    requires ReviewInv(s) && ValidOp(op)
    ensures ReviewInv(ReviewStep(s, Core(op)))
  {
    InvStep(s.db, op);
    BookingsStep(s.db, op);
    var t := ReviewStep(s, Core(op));
    forall i | 0 <= i < |s.reviews| ensures ReviewOk(t.db.bookings, s.reviews[i]) {
      assert ReviewOk(s.db.bookings, s.reviews[i]);
    }
  }

  /** Every step keeps reviews, bookings and statistics in agreement. */
  lemma ReviewInvStep(s: Ledger, op: ReviewOp, t: Ledger)
    requires ReviewInv(s) && ReviewLeads(s, op, t)
    ensures ReviewInv(t)
  {
    match op
    case Core(core) => CoreKeepsReviews(s, core);
    case CreateReview(c, b, rating, mean) => AddReviewKeeps(s.db.bookings, s.reviews, s.stats, c, b, rating, mean);
    case UpdateReview(c, r, rating, mean) => EditReviewKeeps(s.db.bookings, s.reviews, s.stats, c, r, rating, mean);
  }

  lemma ReviewReachedInv(s: Ledger)
    requires ReviewReached(s)
    ensures ReviewInv(s)
  {
    InvInit();
    forall u, op, v | ReviewLeads(u, op, v) && ReviewInv(u) ensures ReviewInv(v) {
      ReviewInvStep(u, op, v);
    }
    HoldsFromThen(EmptyLedger, s, ReviewLeads, ReviewInv);
  }

  /** Whatever is reviewed, the database has a mean to answer. */
  lemma MeanAvailable(reviews: seq<Review>, p: ProviderId) returns (mean: real)
    requires forall i :: 0 <= i < |reviews| ==> 1 <= reviews[i].rating <= 5
    ensures AnswersFor(reviews, p, mean)
  {
    SumBounds(reviews, p);
    mean := 0.0;
    if Count(reviews, p) > 0 {
      mean := AnswerExists(Sum(reviews, p), Count(reviews, p));
    }
  }

  function WithMean(op: ReviewOp, x: real): ReviewOp {
    match op
    case Core(_) => op
    case CreateReview(c, b, rating, _) => CreateReview(c, b, rating, x)
    case UpdateReview(c, r, rating, _) => UpdateReview(c, r, rating, x)
  }

  /** The rows a step writes do not depend on the mean, and their ratings stay in range. */
  lemma RowsWithoutMean(s: Ledger, op: ReviewOp, x: real)
    requires ReviewInv(s) && ValidReviewOp(op)
    ensures var rows := ReviewStep(s, op).reviews;
      && ReviewStep(s, WithMean(op, x)).reviews == rows
      && forall i :: 0 <= i < |rows| ==> 1 <= rows[i].rating <= 5
  {
    assert forall i :: 0 <= i < |s.reviews| ==> ReviewOk(s.db.bookings, s.reviews[i]);
  }

  /** No review is ever stuck for want of a mean: the database has one to answer for every valid request. */
  lemma ReviewNeverStuck(s: Ledger, op: ReviewOp) returns (mean: real)
    requires ReviewInv(s) && ValidReviewOp(op)
    ensures ReviewLeads(s, WithMean(op, mean), ReviewStep(s, WithMean(op, mean)))
  {
    RowsWithoutMean(s, op, 0.0);
    var rows := ReviewStep(s, op).reviews;
    mean := 0.0;
    match op
    case Core(_) =>
    case CreateReview(_, b, _, _) =>
      if b.Some? && b.value < |s.db.bookings| {
        mean := MeanAvailable(rows, s.db.bookings[b.value].providerId);
      }
    case UpdateReview(_, r, _, _) =>
      if r < |s.reviews| {
        mean := MeanAvailable(rows, s.reviews[r].providerId);
      }
    RowsWithoutMean(s, op, mean);
  }

  /**
   After every run, and whichever floats the database answered on the way, the stored statistics are the count of
   the provider's reviews and a hundredth closest to their mean: of two equally close ones the larger, unless the
   float nearest to the mean falls below it.
   */
  lemma RatingRefinesReviews(s: Ledger, p: ProviderId)
    requires ReviewReached(s)
    ensures var stored := StatsOf(s.stats, p);
      var sum := StarSum(s.reviews, p);
      && stored.total == StarTotal(s.reviews, p)
      && (stored.total == 0 ==> stored.average == 0)
      && (stored.total > 0 ==>
            && Closest(stored.average, sum, stored.total) && 100 <= stored.average <= 500
            && (stored.average == RoundedMean(sum, stored.total) <==> !FloatTie(sum, stored.total)))
  {
    ReviewReachedInv(s);
    assert forall i :: 0 <= i < |s.reviews| ==> ReviewOk(s.db.bookings, s.reviews[i]);
    AggregateByStars(s.reviews, p);
    StatsExact(s, p, Sum(s.reviews, p), Count(s.reviews, p));
  }

  lemma {:induction false} StatsExact(s: Ledger, p: ProviderId, sum: int, count: nat)
    requires ReviewInv(s) && sum == Sum(s.reviews, p) && count == Count(s.reviews, p)
    ensures var stored := StatsOf(s.stats, p);
      && stored.total == count
      && (count == 0 ==> stored.average == 0)
      && (count > 0 ==>
            && Closest(stored.average, sum, count) && 100 <= stored.average <= 500
            && (stored.average == RoundedMean(sum, count) <==> !FloatTie(sum, count)))
  {
    assert forall i :: 0 <= i < |s.reviews| ==> ReviewOk(s.db.bookings, s.reviews[i]);
    SumBounds(s.reviews, p);
    assert StatsOf(s.stats, p) == Aggregate(s.reviews, p);
    if count > 0 {
      AverageIsClosest(sum, count);
      ClosestBounds(Average(sum, count), sum, count);
    }
  }

  // ---------------------------------------------------------------- what is stored

  lemma {:induction false} CountFrame(rs: seq<Review>, ts: seq<Review>, p: ProviderId)
    requires |rs| == |ts| && forall i :: 0 <= i < |rs| ==> rs[i].providerId == ts[i].providerId
    ensures Count(ts, p) == Count(rs, p)
  {
    if ts != [] {
      CountFrame(rs[..|rs| - 1], ts[..|ts| - 1], p);
    }
  }

  /** Only provider `q`'s statistics may differ. */
  ghost predicate OnlyStats(before: map<ProviderId, Stats>, after: map<ProviderId, Stats>, q: ProviderId) {
    forall p: ProviderId :: p != q ==> (p in after <==> p in before) && (p in before ==> after[p] == before[p])
  }

  /** The caller's own booking, completed, not reviewed yet, of a provider whose number of reviews can still grow. */
  ghost predicate Reviewable(bookings: seq<Booking>, reviews: seq<Review>, c: UserId, b: Option<BookingId>) {
    && b.Some? && b.value < |bookings| && bookings[b.value].customerId == c && bookings[b.value].status == Completed
    && (forall i :: 0 <= i < |reviews| ==> reviews[i].bookingId != b.value)
    && Count(reviews, bookings[b.value].providerId) < 2147483647
  }

  /** A review is stored exactly for a reviewable booking, with the rating given, and counted for its provider alone. */
  lemma {:induction false} ReviewSavedExactly(bs: seq<Booking>, rs: seq<Review>, stats: map<ProviderId, Stats>, c: UserId,
                           b: Option<BookingId>, rating: int, mean: real, ts: seq<Review>, after: map<ProviderId, Stats>,
                           reply: ReviewReply)
    requires (ts, after, reply) == AddReview(bs, rs, stats, c, b, rating, mean)
    ensures reply == Saved(|rs|) <==> Reviewable(bs, rs, c, b)
    ensures Reviewable(bs, rs, c, b) ==>
      var q := bs[b.value].providerId;
      && ts == rs + [Review(b.value, c, q, rating)]
      && OnlyStats(stats, after, q) && q in after && after[q] == Stats(ToFixed2(mean), Count(rs, q) + 1)
    ensures !Reviewable(bs, rs, c, b) ==>
      && ts == rs && after == stats
      && reply == Refused(if b.None? then BadRequest else if b.value >= |bs| then NotFound
                          else if bs[b.value].customerId != c then Forbidden else if bs[b.value].status != Completed then BadRequest
                          else if Count(rs, bs[b.value].providerId) < 2147483647 || Reviewed(rs, b.value) then Conflict else OutOfRange)
  {
    if b.Some? && b.value < |bs| {
      var q := bs[b.value].providerId;
      var more := rs + [Review(b.value, c, q, rating)];
      assert more[..|rs|] == rs;
      assert Count(more, q) == Count(rs, q) + 1;
    }
  }

  /** An edit succeeds exactly for the review's author: it sets that rating, and leaves all else alone if it has it already. */
  lemma {:induction false} ReviewEditedExactly(bs: seq<Booking>, rs: seq<Review>, stats: map<ProviderId, Stats>, c: UserId, r: nat,
                            rating: Option<int>, mean: real, ts: seq<Review>, after: map<ProviderId, Stats>,
                            reply: ReviewReply)
    requires ReviewsOk(bs, rs, stats) && (ts, after, reply) == EditReview(rs, stats, c, r, rating, mean)
    ensures reply == Edited(r) <==> r < |rs| && rs[r].customerId == c
    ensures reply == Edited(r) && rating.Some? ==>
      && |ts| == |rs| && ts[r] == Review(rs[r].bookingId, c, rs[r].providerId, rating.value)
      && forall i :: 0 <= i < |rs| && i != r ==> ts[i] == rs[i]
    ensures reply == Edited(r) && rating.Some? && rating.value != rs[r].rating ==>
      var q := rs[r].providerId;
      OnlyStats(stats, after, q) && q in after && after[q] == Stats(ToFixed2(mean), Count(rs, q))
    ensures reply != Edited(r) || rating.None? || rating.value == rs[r].rating ==> ts == rs && after == stats
    ensures reply != Edited(r) ==> reply == Refused(if r < |rs| then Forbidden else NotFound)
  {
    if r < |rs| && rating.Some? {
      var q := rs[r].providerId;
      CountFrame(rs, rs[r := rs[r].(rating := rating.value)], q);
      assert !TooMany(rs, q);
      CountedOnce(rs, r);
    }
  }

  /** On the whole ledger: a review step touches no booking or payment, and stores what was asked or nothing. */
  lemma ReviewStepStores(s: Ledger, c: UserId, b: Option<BookingId>, r: nat, rating: int, mean: real)
    requires ReviewInv(s) && PaymentsHaveBookings(s.db)
    ensures var t := ReviewStep(s, CreateReview(c, b, rating, mean));
      && t.db == s.db
      && if Reviewable(s.db.bookings, s.reviews, c, b)
         then t.reviews == s.reviews + [Review(b.value, c, s.db.bookings[b.value].providerId, rating)] else t == s
    ensures var t := ReviewStep(s, UpdateReview(c, r, Some(rating), mean));
      && t.db == s.db
      && if r < |s.reviews| && s.reviews[r].customerId == c
         then t.reviews == s.reviews[r := s.reviews[r].(rating := rating)] else t == s
  {
    var (rs, stats, reply) := AddReview(s.db.bookings, s.reviews, s.stats, c, b, rating, mean);
    ReviewSavedExactly(s.db.bookings, s.reviews, s.stats, c, b, rating, mean, rs, stats, reply);
    var (es, after, answer) := EditReview(s.reviews, s.stats, c, r, Some(rating), mean);
    ReviewEditedExactly(s.db.bookings, s.reviews, s.stats, c, r, Some(rating), mean, es, after, answer);
  }

  lemma {:induction false} CountedOnce(rs: seq<Review>, r: nat)
    requires r < |rs|
    ensures Count(rs, rs[r].providerId) > 0
  {
    if r < |rs| - 1 {
      CountedOnce(rs[..|rs| - 1], r);
    }
  }

  /** A booking has at most one review, written by its customer for its provider once it was completed. */
  lemma OneReviewPerBooking(s: Ledger)
    requires ReviewReached(s)
    ensures forall i, j :: 0 <= i < j < |s.reviews| ==> s.reviews[i].bookingId != s.reviews[j].bookingId
    ensures forall i :: 0 <= i < |s.reviews| ==> ReviewOk(s.db.bookings, s.reviews[i])
  {
    ReviewReachedInv(s);
  }

  // ---------------------------------------------------------------- the service

  /** The review service over its own two tables. */
  class ReviewDesk {
    var reviews: seq<Review>
    var stats: map<ProviderId, Stats>

    constructor ()
      ensures reviews == [] && stats == map[]
    {
      reviews, stats := [], map[];
    }

    method Counted(p: ProviderId) returns (count: nat)
      ensures count == Count(reviews, p)
    {
      count := 0;
      var i := 0;
      while i < |reviews|
        invariant 0 <= i <= |reviews|
        invariant count == Count(reviews[..i], p)
      {
        if reviews[i].providerId == p {
          count := count + 1;
        }
        assert reviews[..i + 1][..i] == reviews[..i];
        i := i + 1;
      }
      assert reviews[..i] == reviews;
    }

    /** Rewrites the provider's row; `ok` is false when the number of reviews overflows its column. */
    method UpdateProviderRating(p: ProviderId, mean: real) returns (ok: bool)
      modifies this`stats
      ensures ok == !TooMany(reviews, p)
      ensures stats == if ok then old(stats)[p := Recalculated(reviews, p, mean)] else old(stats)
    {
      var count := Counted(p);
      ok := count <= INT_MAX;
      if ok {
        var average := if count > 0 then ToFixed2(mean) else 0;
        stats := stats[p := Stats(average, count)];
      }
    }

    method Create(bookings: seq<Booking>, customerId: UserId, bookingId: Option<BookingId>,
                  rating: int, mean: real) returns (reply: ReviewReply)
      modifies this
      ensures (reviews, stats, reply) == AddReview(bookings, old(reviews), old(stats), customerId, bookingId, rating, mean)
      ensures reply == Saved(|old(reviews)|) <==> Reviewable(bookings, old(reviews), customerId, bookingId)
      ensures reply.Saved? ==>
        reviews == old(reviews) + [Review(bookingId.value, customerId, bookings[bookingId.value].providerId, rating)]
    {
      ghost var (ts, after, answer) := AddReview(bookings, reviews, stats, customerId, bookingId, rating, mean);
      ReviewSavedExactly(bookings, reviews, stats, customerId, bookingId, rating, mean, ts, after, answer);
      if bookingId.None? {
        return Refused(BadRequest);
      }
      var b := bookingId.value;
      if b >= |bookings| {
        return Refused(NotFound);
      }
      if bookings[b].customerId != customerId {
        return Refused(Forbidden);
      }
      if bookings[b].status != Completed {
        return Refused(BadRequest);
      }
      if Reviewed(reviews, b) {
        return Refused(Conflict);
      }
      var before := reviews;
      reviews := reviews + [Review(b, customerId, bookings[b].providerId, rating)];
      var ok := UpdateProviderRating(bookings[b].providerId, mean);
      if !ok {
        reviews := before;
        return Refused(OutOfRange);
      }
      return Saved(|before|);
    }

    method Update(customerId: UserId, reviewId: nat, newRating: Option<int>, mean: real) returns (reply: ReviewReply)
      modifies this
      ensures (reviews, stats, reply) == EditReview(old(reviews), old(stats), customerId, reviewId, newRating, mean)
    {
      if reviewId >= |reviews| {
        return Refused(NotFound);
      }
      var review := reviews[reviewId];
      if review.customerId != customerId {
        return Refused(Forbidden);
      }
      if newRating.Some? && newRating.value != review.rating {
        var before := reviews;
        reviews := reviews[reviewId := review.(rating := newRating.value)];
        var ok := UpdateProviderRating(review.providerId, mean);
        if !ok {
          reviews := before;
          return Refused(OutOfRange);
        }
      }
      return Edited(reviewId);
    }
  }
}
