/**
 At-least-once webhook delivery: which deliveries are settled for good, and what repeats can do.
 */
module Replays {
  import opened Domain
  import opened Protocol
  import opened CaptureInvariant
  import opened Lifecycle
  import opened Guarantees
  import opened Witnesses

  /** The signature is right and the body parses. */
  predicate Authentic(d: Delivery) {
    d.signatureValid && d.parses
  }

  /** The payment write the delivery leads to breaks the unique index on `gatewayPaymentId`. */
  predicate Clashes(s: Db, d: Delivery) {
    && d.orderId.Some? && FindByOrder(s.payments, d.orderId.value).Some?
    && EventClashes(s, FindByOrder(s.payments, d.orderId.value).value, d)
  }

  lemma RecordedExactly(s: Db, d: Delivery, now: int)
    requires PaymentsHaveBookings(s) && EventsProcessed(s)
    ensures d.eventId in HandleWebhook(s, d, now).0.events <==> d.eventId in s.events || (Authentic(d) && !Clashes(s, d))
  {
  }

  lemma {:induction false} EventsStay(s: Db, ops: seq<Op>)
    requires Inv(s) && ValidOps(ops)
    ensures s.events.Keys <= Run(s, ops).events.Keys
    decreases |ops|
  {
    if ops != [] {
      InvStep(s, ops[0]);
      EventsStep(s, ops[0]);
      EventsStay(Step(s, ops[0]).0, ops[1..]);
    }
  }

  /** The same delivery never has an effect again, whatever else happens first. */
  ghost predicate RepeatsHarmless(s: Db, d: Delivery)
    requires Inv(s)
  {
    forall ops: seq<Op>, now: int :: ValidOps(ops) ==> HandleWebhook(Run(s, ops), d, now).0 == Run(s, ops)
  }

  /** Once an event is stored, no delivery under its id has any effect, be it a true repeat or not. */
  lemma {:induction false} RecordedIsHarmless(t: Db, ops: seq<Op>, again: Delivery, later: int)
    requires Inv(t) && again.eventId in t.events && ValidOps(ops)
    ensures HandleWebhook(Run(t, ops), again, later).0 == Run(t, ops)
  {
    EventsStay(t, ops);
    InvRun(t, ops);
    assert EventsProcessed(Run(t, ops));
  }

  /**
   Repeats of a delivery are harmless for ever exactly when it was forged or malformed, its event was stored
   before, or it did not hit the unique index.
   */
  lemma ReplaySafeExactly(s: Db, d: Delivery, now: int)
    requires Inv(s)
    ensures Inv(HandleWebhook(s, d, now).0)
    ensures RepeatsHarmless(HandleWebhook(s, d, now).0, d) <==> !Authentic(d) || d.eventId in s.events || !Clashes(s, d)
  {
    var t := HandleWebhook(s, d, now).0;
    InvStep(s, WebhookOp(d, now));
    assert Step(s, WebhookOp(d, now)).0 == t;
    RecordedExactly(s, d, now);
    if d.eventId in t.events {
      forall ops: seq<Op>, later: int | ValidOps(ops) ensures HandleWebhook(Run(t, ops), d, later).0 == Run(t, ops) {
        RecordedIsHarmless(t, ops, d, later);
      }
    } else if Authentic(d) {
      var q, e, g := HolderExists(s, d);
      ClashRepeatActs(s, d, now, q, e, g);
      var ops := Freeing(s.payments[q].gatewayOrderId, e, g, now);
      assert ValidOps(ops) && HandleWebhook(Run(t, ops), d, now).0 != Run(t, ops);
    }
  }

  // ---------------------------------------------------------------- a clashing delivery

  /** A refund event, then a failure event with another gateway payment id, both for the order of row `q`. */
  function Freeing(order: OrderId, e: EventId, g: GatewayPaymentId, now: int): seq<Op> {
    [WebhookOp(Delivery(true, true, e, RefundProcessed, Some(order), None, None, None), now),
     WebhookOp(Delivery(true, true, e + 1, PaymentFailedEvent, Some(order), Some(g), None, None), now)]
  }

  ghost predicate Unused(s: Db, e: EventId, g: GatewayPaymentId) {
    e !in s.events && e + 1 !in s.events && forall i :: 0 <= i < |s.payments| ==> s.payments[i].gatewayPaymentId != Some(g)
  }

  /** Only row `q` changed, and it kept its order. */
  ghost predicate OnlyRow(ps: seq<Payment>, qs: seq<Payment>, q: PaymentId) {
    && q < |ps| == |qs| && qs[q].gatewayOrderId == ps[q].gatewayOrderId
    && forall i :: 0 <= i < |ps| && i != q ==> qs[i] == ps[i]
  }

  lemma RefundEventMarks(s: Db, q: PaymentId, d: Delivery, now: int, t: Db)
    requires ConsistentDb(s) && q < |s.payments| && d.orderId == Some(s.payments[q].gatewayOrderId)
    requires Authentic(d) && d.kind == RefundProcessed && d.eventId !in s.events && t == HandleWebhook(s, d, now).0
    ensures !Clashes(s, d) && ConsistentDb(t) && OnlyRow(s.payments, t.payments, q) && t.payments[q].status == Refunded
    ensures t.events.Keys == s.events.Keys + {d.eventId}
  {
    FindsOwn(s.payments, q);
    WebhookKeeps(s, d, now);
  }

  lemma FailureEventMoves(s: Db, q: PaymentId, d: Delivery, g: GatewayPaymentId, now: int, t: Db)
    requires ConsistentDb(s) && q < |s.payments| && d.orderId == Some(s.payments[q].gatewayOrderId)
    requires Authentic(d) && d.kind == PaymentFailedEvent && d.eventId !in s.events && d.gatewayPaymentId == Some(g)
    requires s.payments[q].status == Refunded && forall i :: 0 <= i < |s.payments| && i != q ==> s.payments[i].gatewayPaymentId != Some(g)
    requires t == HandleWebhook(s, d, now).0
    ensures !Clashes(s, d) && ConsistentDb(t) && OnlyRow(s.payments, t.payments, q) && t.payments[q].gatewayPaymentId == Some(g)
    ensures t.events.Keys == s.events.Keys + {d.eventId}
  {
    FindsOwn(s.payments, q);
    WebhookKeeps(s, d, now);
  }

  lemma OnlyRowTwice(ps: seq<Payment>, qs: seq<Payment>, rs: seq<Payment>, q: PaymentId)
    requires OnlyRow(ps, qs, q) && OnlyRow(qs, rs, q)
    ensures OnlyRow(ps, rs, q)
  {
  }

  /** Whatever its status, the row loses its gateway payment id to the new one. */
  lemma FreeingMoves(s: Db, a: Op, s1: Db, b: Op, t: Db, q: PaymentId, e: EventId, g: GatewayPaymentId, now: int)
    requires ConsistentDb(s) && q < |s.payments| && Unused(s, e, g) && [a, b] == Freeing(s.payments[q].gatewayOrderId, e, g, now)
    requires s1 == Step(s, a).0 && PaymentsHaveBookings(s1) && t == Step(s1, b).0
    ensures !Clashes(s, a.delivery) && !Clashes(s1, b.delivery)
    ensures ConsistentDb(t) && OnlyRow(s.payments, t.payments, q) && t.payments[q].gatewayPaymentId == Some(g)
    ensures t.events.Keys == s.events.Keys + {e, e + 1}
  {
    assert [a, b][0] == a && [a, b][1] == b;
    RefundEventMarks(s, q, a.delivery, now, s1);
    FailureEventMoves(s1, q, b.delivery, g, now, t);
    OnlyRowTwice(s.payments, s1.payments, t.payments, q);
  }

  lemma {:induction false} RunPair(s: Db, a: Op, b: Op)
    requires PaymentsHaveBookings(s)
    ensures Run(s, [a, b]) == Step(Step(s, a).0, b).0
  {
    var s1 := Step(s, a).0;
    assert [a, b][1..] == [b] && [b][1..] == [];
    assert Run(s1, [b]) == Run(Step(s1, b).0, []);
  }

  /** With the clash gone the delivery is recorded and its payment changes status. */
  lemma FreedActs(s: Db, t: Db, q: PaymentId, d: Delivery, g: GatewayPaymentId, now: int)
    requires ConsistentDb(s) && ConsistentDb(t) && Authentic(d) && Clashes(s, d) && d.eventId !in t.events
    requires OnlyRow(s.payments, t.payments, q) && s.payments[q].gatewayPaymentId == d.gatewayPaymentId != Some(g)
    requires FindByOrder(s.payments, d.orderId.value) != Some(q) && t.payments[q].gatewayPaymentId == Some(g)
    ensures var p := FindByOrder(s.payments, d.orderId.value).value;
      var after := HandleWebhook(t, d, now).0;
      && d.eventId in after.events && |after.payments| == |t.payments|
      && after.payments[p].status == (if d.kind in {PaymentCaptured, OrderPaid} then Success else Failed) != t.payments[p].status
  {
    var p := FindByOrder(s.payments, d.orderId.value).value;
    FindsOwn(t.payments, p);
    IdFreed(s.payments, t.payments, p, q, d.gatewayPaymentId);
    FreeEventActs(t, p, d, now);
  }

  /** Once the holding row has another id, no other row has the old one. */
  lemma IdFreed(ps: seq<Payment>, qs: seq<Payment>, p: PaymentId, q: PaymentId, g: Option<GatewayPaymentId>)
    requires UniqueKeys(ps) && OnlyRow(ps, qs, q) && p < |ps| && p != q
    requires g.Some? && ps[q].gatewayPaymentId == g != qs[q].gatewayPaymentId
    ensures !GatewayIdTaken(qs, p, g)
  {
  }

  lemma FreeEventActs(t: Db, p: PaymentId, d: Delivery, now: int)
    requires PaymentsHaveBookings(t) && Authentic(d) && d.eventId !in t.events && p < |t.payments|
    requires d.orderId.Some? && FindByOrder(t.payments, d.orderId.value) == Some(p)
    requires !GatewayIdTaken(t.payments, p, d.gatewayPaymentId)
    requires if d.kind in {PaymentCaptured, OrderPaid} then CaptureApplies(t.payments[p], d) else d.kind == PaymentFailedEvent && t.payments[p].status != Failed
    ensures var after := HandleWebhook(t, d, now).0;
      && d.eventId in after.events && |after.payments| == |t.payments|
      && after.payments[p].status == (if d.kind in {PaymentCaptured, OrderPaid} then Success else Failed) != t.payments[p].status
  {
  }

  /** Row `q` holds the id the delivery needs, and `e` and `g` are fresh. */
  ghost predicate Holds(s: Db, d: Delivery, q: PaymentId, e: EventId, g: GatewayPaymentId) {
    && q < |s.payments| && s.payments[q].gatewayPaymentId == d.gatewayPaymentId && d.orderId.Some?
    && FindByOrder(s.payments, d.orderId.value) != Some(q)
    && Unused(s, e, g) && d.eventId < e
  }

  lemma HolderExists(s: Db, d: Delivery) returns (q: PaymentId, e: EventId, g: GatewayPaymentId)
    requires Clashes(s, d)
    ensures Holds(s, d, q, e, g)
  {
    var p := FindByOrder(s.payments, d.orderId.value).value;
    q :| 0 <= q < |s.payments| && q != p && s.payments[q].gatewayPaymentId == d.gatewayPaymentId;
    e := Above(s.events.Keys + {d.eventId});
    g := FreshGatewayId(s.payments);
  }

  /** In `t` the delivery is recorded and moves its payment to the status it reports. */
  ghost predicate Acts(s: Db, t: Db, d: Delivery, now: int)
    requires PaymentsHaveBookings(t)
  {
    var after := HandleWebhook(t, d, now).0;
    && d.orderId.Some? && FindByOrder(s.payments, d.orderId.value).Some?
    && var p := FindByOrder(s.payments, d.orderId.value).value;
       && p < |t.payments| == |after.payments| && d.eventId !in t.events && d.eventId in after.events
       && after.payments[p].status == (if d.kind in {PaymentCaptured, OrderPaid} then Success else Failed) != t.payments[p].status
  }

  /** After any clashing delivery, two other deliveries make the very same delivery act. */
  lemma {:induction false} ClashRepeatActs(s: Db, d: Delivery, now: int, q: PaymentId, e: EventId, g: GatewayPaymentId)
    requires ConsistentDb(s) && Authentic(d) && d.eventId !in s.events && Clashes(s, d) && Holds(s, d, q, e, g)
    ensures HandleWebhook(s, d, now) == (s, WebhookAlreadyProcessed)
    ensures Acts(s, Run(s, Freeing(s.payments[q].gatewayOrderId, e, g, now)), d, now)
  {
    var ops := Freeing(s.payments[q].gatewayOrderId, e, g, now);
    var s1, t := Step(s, ops[0]).0, Run(s, ops);
    RunPair(s, ops[0], ops[1]);
    FreeingMoves(s, ops[0], s1, ops[1], t, q, e, g, now);
    FreedActs(s, t, q, d, g, now);
  }

  lemma {:induction false} FreeingSettles(s: Db, q: PaymentId, e: EventId, g: GatewayPaymentId, now: int, seen: set<EventId>)
    requires ConsistentDb(s) && q < |s.payments| && Unused(s, e, g)
    ensures FirstsSettle(s, Freeing(s.payments[q].gatewayOrderId, e, g, now), seen)
  {
    var ops := Freeing(s.payments[q].gatewayOrderId, e, g, now);
    var s1 := Step(s, ops[0]).0;
    FreeingMoves(s, ops[0], s1, ops[1], Step(s1, ops[1]).0, q, e, g, now);
    SettlesTwo(s, ops[0], ops[1], s1, seen);
  }

  lemma {:induction false} SettlesTwo(s: Db, a: Op, b: Op, s1: Db, seen: set<EventId>)
    requires PaymentsHaveBookings(s) && a.WebhookOp? && b.WebhookOp? && s1 == Step(s, a).0
    requires !Clashes(s, a.delivery) && !Clashes(s1, b.delivery)
    ensures FirstsSettle(s, [a, b], seen)
  {
    assert [a, b][1..] == [b] && [b][1..] == [];
    assert FirstsSettle(s1, [b], Noted(seen, a));
  }

  // ---------------------------------------------------------------- whole traces

  /** An authentic delivery makes its event id one that was seen; a forged or malformed one does not. */
  function Noted(seen: set<EventId>, op: Op): set<EventId> {
    if op.WebhookOp? && Authentic(op.delivery) then seen + {op.delivery.eventId} else seen
  }

  function Seen(ops: seq<Op>, seen: set<EventId>): set<EventId> {
    if ops == [] then seen else Seen(ops[1..], Noted(seen, ops[0]))
  }

  /** The trace without the deliveries whose event id was delivered authentically before. */
  function WithoutRepeats(ops: seq<Op>, seen: set<EventId>): seq<Op> {
    if ops == [] then []
    else
      var rest := WithoutRepeats(ops[1..], Noted(seen, ops[0]));
      if ops[0].WebhookOp? && ops[0].delivery.eventId in seen then rest else [ops[0]] + rest
  }

  /** The first authentic delivery of every event does not clash when it arrives. */
  ghost predicate FirstsSettle(s: Db, ops: seq<Op>, seen: set<EventId>)
    requires PaymentsHaveBookings(s)
    decreases |ops|
  {
    ops != [] ==>
      var op := ops[0];
      && (op.WebhookOp? && Authentic(op.delivery) && op.delivery.eventId !in seen ==>
            op.delivery.eventId in s.events || !Clashes(s, op.delivery))
      && FirstsSettle(Step(s, op).0, ops[1..], Noted(seen, op))
  }

  /** Removing the repeats changes nothing in the final database. */
  ghost predicate SameWithoutRepeats(s: Db, ops: seq<Op>, seen: set<EventId>)
    requires PaymentsHaveBookings(s)
  {
    Run(s, WithoutRepeats(ops, seen)) == Run(s, ops)
  }

  /** One operation in front does not matter, whether it is dropped or kept. */
  lemma SameAfterFirst(s: Db, op: Op, t: Db, rest: seq<Op>, seen: set<EventId>)
    requires PaymentsHaveBookings(s) && EventsProcessed(s) && seen <= s.events.Keys && t == Step(s, op).0
    ensures SameWithoutRepeats(s, [op] + rest, seen) <==> SameWithoutRepeats(t, rest, Noted(seen, op))
  {
    var after := WithoutRepeats(rest, Noted(seen, op));
    assert ([op] + rest)[1..] == rest && ([op] + after)[1..] == after;
    if op.WebhookOp? && op.delivery.eventId in seen {
      assert Noted(seen, op) == seen;
      assert t == s;
    }
  }

  lemma NotedStored(s: Db, op: Op, t: Db, seen: set<EventId>)
    requires PaymentsHaveBookings(s) && EventsProcessed(s) && seen <= s.events.Keys && t == Step(s, op).0
    requires op.WebhookOp? && Authentic(op.delivery) && op.delivery.eventId !in seen ==>
      op.delivery.eventId in s.events || !Clashes(s, op.delivery)
    ensures EventsProcessed(t) && Noted(seen, op) <= t.events.Keys
  {
    EventsStep(s, op);
    if op.WebhookOp? {
      RecordedExactly(s, op.delivery, op.now);
    }
  }

  /** Where first deliveries settle, removing every repeat delivery from a trace changes nothing in the final database. */
  lemma {:induction false} RepeatsRemovable(s: Db, ops: seq<Op>, seen: set<EventId>)
    requires PaymentsHaveBookings(s) && EventsProcessed(s) && seen <= s.events.Keys && FirstsSettle(s, ops, seen)
    ensures SameWithoutRepeats(s, ops, seen)
    decreases |ops|
  {
    if ops != [] {
      var op, rest := ops[0], ops[1..];
      var t := Step(s, op).0;
      NotedStored(s, op, t, seen);
      RepeatsRemovable(t, rest, Noted(seen, op));
      assert [op] + rest == ops;
      SameAfterFirst(s, op, t, rest, seen);
    }
  }

  lemma {:induction false} FirstsSettleAppend(s: Db, ops: seq<Op>, more: seq<Op>, seen: set<EventId>)
    requires PaymentsHaveBookings(s)
    ensures FirstsSettle(s, ops + more, seen) <==> FirstsSettle(s, ops, seen) && FirstsSettle(Run(s, ops), more, Seen(ops, seen))
    decreases |ops|
  {
    if ops == [] {
      assert ops + more == more;
    } else {
      assert (ops + more)[1..] == ops[1..] + more;
      FirstsSettleAppend(Step(s, ops[0]).0, ops[1..], more, Noted(seen, ops[0]));
    }
  }

  /** If `more` settles after `ops`, removing the repeats from both together changes nothing. */
  ghost predicate RemovableFor(s: Db, ops: seq<Op>, seen: set<EventId>, more: seq<Op>)
    requires PaymentsHaveBookings(s)
  {
    ValidOps(more) && FirstsSettle(Run(s, ops), more, Seen(ops, seen)) ==> SameWithoutRepeats(s, ops + more, seen)
  }

  /**
   Removing repeats is safe for every beginning of a trace and every settled way to go on from there, exactly when
   the first authentic delivery of each event in the trace settled.
   */
  lemma {:induction false} RepeatsRemovableExactly(s: Db, ops: seq<Op>, seen: set<EventId>)
    requires ConsistentDb(s) && EventsProcessed(s) && ValidOps(ops) && seen <= s.events.Keys
    ensures FirstsSettle(s, ops, seen) <==> forall k: nat, more :: k <= |ops| ==> RemovableFor(s, ops[..k], seen, more)
  {
    if FirstsSettle(s, ops, seen) {
      forall k: nat, more | k <= |ops| ensures RemovableFor(s, ops[..k], seen, more) {
        assert ops[..k] + ops[k..] == ops;
        FirstsSettleAppend(s, ops[..k], ops[k..], seen);
        FirstsSettleAppend(s, ops[..k], more, seen);
        if ValidOps(more) && FirstsSettle(Run(s, ops[..k]), more, Seen(ops[..k], seen)) {
          RepeatsRemovable(s, ops[..k] + more, seen);
        }
      }
    } else {
      var k, more := UnsettledBreaksRemoval(s, ops, seen);
      assert !RemovableFor(s, ops[..k], seen, more);
    }
  }

  /** A first delivery that clashes, what frees it, and its repeat: without the repeat the database differs. */
  lemma ClashBreaksRemoval(s: Db, d: Delivery, now: int, seen: set<EventId>) returns (more: seq<Op>)
    requires ConsistentDb(s) && seen <= s.events.Keys && Authentic(d) && d.eventId !in s.events && Clashes(s, d)
    ensures ValidOps(more) && HandleWebhook(s, d, now).0 == s
    ensures FirstsSettle(s, more, seen + {d.eventId}) && !SameWithoutRepeats(s, more, seen + {d.eventId})
  {
    var q, e, g := HolderExists(s, d);
    var ops := Freeing(s.payments[q].gatewayOrderId, e, g, now);
    ClashRepeatActs(s, d, now, q, e, g);
    FreeingSettles(s, q, e, g, now, seen + {d.eventId});
    more := ops + [WebhookOp(d, now)];
    FreshEvents(s, d, ops, q, e, g, now, seen);
    ActsBreaks(s, ops, WebhookOp(d, now), seen + {d.eventId});
  }

  lemma FreshEvents(s: Db, d: Delivery, ops: seq<Op>, q: PaymentId, e: EventId, g: GatewayPaymentId, now: int, seen: set<EventId>)
    requires Holds(s, d, q, e, g) && ops == Freeing(s.payments[q].gatewayOrderId, e, g, now) && seen <= s.events.Keys
    ensures |ops| == 2 && ops[0].WebhookOp? && ops[1].WebhookOp? && ops[0].delivery.eventId != ops[1].delivery.eventId
    ensures ops[0].delivery.eventId !in seen + {d.eventId} && ops[1].delivery.eventId !in seen + {d.eventId}
  {
  }

  lemma {:induction false} ActsBreaks(s: Db, ops: seq<Op>, again: Op, noted: set<EventId>)
    requires PaymentsHaveBookings(s) && FirstsSettle(s, ops, noted) && again.WebhookOp? && again.delivery.eventId in noted
    requires |ops| == 2 && ops[0].WebhookOp? && ops[1].WebhookOp? && ops[0].delivery.eventId != ops[1].delivery.eventId
    requires ops[0].delivery.eventId !in noted && ops[1].delivery.eventId !in noted
    requires Acts(s, Run(s, ops), again.delivery, again.now)
    ensures FirstsSettle(s, ops + [again], noted) && !SameWithoutRepeats(s, ops + [again], noted)
  {
    SettledTwice(s, ops, again, noted);
    DropsLast(ops[0], ops[1], again, noted);
    assert ops == [ops[0], ops[1]];
  }

  /** Adding a delivery whose id was seen keeps a trace settled; it changes the outcome if it acts. */
  lemma {:induction false} SettledTwice(s: Db, ops: seq<Op>, again: Op, noted: set<EventId>)
    requires PaymentsHaveBookings(s) && FirstsSettle(s, ops, noted) && again.WebhookOp? && again.delivery.eventId in noted
    ensures FirstsSettle(s, ops + [again], noted)
    ensures Run(s, ops + [again]) == Step(Run(s, ops), again).0
  {
    FirstsSettleAppend(s, ops, [again], noted);
    SeenGrows(ops, noted);
    assert [again][1..] == [];
    RunAppend(s, ops, [again]);
    assert Run(Run(s, ops), [again]) == Run(Step(Run(s, ops), again).0, []);
  }

  lemma {:induction false} SeenGrows(ops: seq<Op>, seen: set<EventId>)
    ensures seen <= Seen(ops, seen)
  {
    if ops != [] {
      SeenGrows(ops[1..], Noted(seen, ops[0]));
    }
  }

  lemma {:induction false} DropsLast(a: Op, b: Op, again: Op, noted: set<EventId>)
    requires a.WebhookOp? && b.WebhookOp? && again.WebhookOp? && again.delivery.eventId in noted
    requires a.delivery.eventId !in noted && b.delivery.eventId !in noted && a.delivery.eventId != b.delivery.eventId
    ensures WithoutRepeats([a, b] + [again], noted) == [a, b]
  {
    var more := [a, b] + [again];
    assert more[1..] == [b, again] && [b, again][1..] == [again] && [again][1..] == [];
    assert WithoutRepeats([again], Noted(Noted(noted, a), b)) == [];
    assert WithoutRepeats([b, again], Noted(noted, a)) == [b];
  }

  lemma RemovableStep(s: Db, op: Op, t: Db, tail: seq<Op>, seen: set<EventId>, more: seq<Op>)
    requires PaymentsHaveBookings(s) && EventsProcessed(s) && seen <= s.events.Keys && t == Step(s, op).0
    ensures RemovableFor(s, [op] + tail, seen, more) <==> RemovableFor(t, tail, Noted(seen, op), more)
  {
    assert ([op] + tail)[1..] == tail;
    assert ([op] + tail) + more == [op] + (tail + more);
    SameAfterFirst(s, op, t, tail + more, seen);
  }

  /** The operation is an authentic delivery of an event that is not stored, and it clashes. */
  ghost predicate FirstClash(s: Db, op: Op) {
    op.WebhookOp? && Authentic(op.delivery) && op.delivery.eventId !in s.events && Clashes(s, op.delivery)
  }

  lemma UnsettledHere(s: Db, op: Op, t: Db, seen: set<EventId>) returns (more: seq<Op>)
    requires ConsistentDb(s) && seen <= s.events.Keys && FirstClash(s, op) && t == Step(s, op).0
    ensures !RemovableFor(t, [], Noted(seen, op), more)
  {
    more := ClashBreaksRemoval(s, op.delivery, op.now, seen);
    assert [] + more == more;
  }

  lemma {:induction false} UnsettledLater(s: Db, ops: seq<Op>, t: Db, seen: set<EventId>)
    requires ConsistentDb(s) && EventsProcessed(s) && ValidOps(ops) && seen <= s.events.Keys
    requires !FirstsSettle(s, ops, seen) && !FirstClash(s, ops[0]) && t == Step(s, ops[0]).0
    ensures ConsistentDb(t) && EventsProcessed(t)
    ensures Noted(seen, ops[0]) <= t.events.Keys && !FirstsSettle(t, ops[1..], Noted(seen, ops[0]))
  {
    ConsistentStep(s, ops[0]);
    NotedStored(s, ops[0], t, seen);
  }

  /** A trace with a first delivery that clashes has a beginning and a settled continuation whose repeats matter. */
  lemma {:induction false} UnsettledBreaksRemoval(s: Db, ops: seq<Op>, seen: set<EventId>) returns (k: nat, more: seq<Op>)
    requires ConsistentDb(s) && EventsProcessed(s) && ValidOps(ops) && seen <= s.events.Keys && !FirstsSettle(s, ops, seen)
    ensures k <= |ops| && !RemovableFor(s, ops[..k], seen, more)
    decreases |ops|
  {
    var op, rest := ops[0], ops[1..];
    var t, j := Step(s, op).0, 0;
    if FirstClash(s, op) {
      more := UnsettledHere(s, op, t, seen);
      assert rest[..0] == [];
    } else {
      UnsettledLater(s, ops, t, seen);
      j, more := UnsettledBreaksRemoval(t, rest, Noted(seen, op));
    }
    RemovableStep(s, op, t, rest[..j], seen, more);
    k := j + 1;
    assert ops[..k] == [op] + rest[..j];
  }

  // ---------------------------------------------------------------- client verification and webhook

  /** After the client's verification succeeded, a capture webhook for that order records its event and nothing else. */
  lemma WebhookAfterVerify(s: Db, op: Op, d: Delivery, now: int)
    requires ConsistentDb(s) && op.VerifyOp? && Step(s, op).1.PaymentVerified?
    requires d.kind in {PaymentCaptured, OrderPaid} && d.orderId == Some(op.orderId)
    ensures ConsistentDb(Step(s, op).0) && SameButEvents(Step(s, op).0, HandleWebhook(Step(s, op).0, d, now).0)
  {
    ConsistentStep(s, op);
    var t := Step(s, op).0;
    var p := FindByOrder(s.payments, op.orderId).value;
    assert t.payments[p].status == Success && t.payments[p].gatewayOrderId == op.orderId;
    FindsOwn(t.payments, p);
  }

  /** After a capture webhook confirmed the booking, the customer's verification reports so and changes nothing. */
  lemma VerifyAfterWebhook(s: Db, d: Delivery, at: int, customerId: UserId, g: GatewayPaymentId, now: int)
    requires ConsistentDb(s) && d.orderId.Some?
    requires ConfirmedBy(HandleWebhook(s, d, at).1).Some?
    ensures var (t, reply) := HandleWebhook(s, d, at);
      var b := ConfirmedBy(reply).value;
      && PaymentsHaveBookings(t) && b < |t.bookings|
      && (t.bookings[b].customerId == customerId ==>
            VerifyClientPayment(t, customerId, d.orderId.value, g, true, now) == (t, AlreadyVerified(b)))
  {
    ConsistentStep(s, WebhookOp(d, at));
    WebhookConfirms(s, d, at);
    var t := HandleWebhook(s, d, at).0;
    var p := FindByOrder(s.payments, d.orderId.value).value;
    assert t.payments[p].status == Success && t.payments[p].gatewayOrderId == d.orderId.value;
    FindsOwn(t.payments, p);
  }

  // ---------------------------------------------------------------- the case that does not settle

  /** A capture event for open payment `q` that carries the gateway payment id stored on `p`. */
  predicate ForeignCapture(s: Db, p: PaymentId, q: PaymentId, d: Delivery)
    requires p < |s.payments| && q < |s.payments|
  {
    && d.signatureValid && d.parses && d.kind == PaymentCaptured && d.eventId !in s.events
    && d.orderId == Some(s.payments[q].gatewayOrderId) && d.amount.None? && d.currency.None?
    && d.gatewayPaymentId.Some? && d.gatewayPaymentId == s.payments[p].gatewayPaymentId
  }

  /** A failure event that gives `p` another gateway payment id. */
  predicate MovingFailure(s: Db, p: PaymentId, d: Delivery)
    requires p < |s.payments|
  {
    && d.signatureValid && d.parses && d.kind == PaymentFailedEvent && d.eventId !in s.events
    && d.orderId == Some(s.payments[p].gatewayOrderId)
    && d.gatewayPaymentId.Some? && d.gatewayPaymentId != s.payments[p].gatewayPaymentId
    && !GatewayIdTaken(s.payments, p, d.gatewayPaymentId)
  }

  /**
   A capture whose gateway payment id is already stored on another payment is answered as already
   processed but not recorded. If that other row then takes a new id, the repeat confirms the booking.
   */
  lemma UnsettledRepeatActs(s: Db, p: PaymentId, q: PaymentId, capture: Delivery, failure: Delivery, now: int)
    requires ConsistentDb(s) && EventsProcessed(s) && p < |s.payments| && q < |s.payments| && p != q
    requires s.payments[p].status == Success && s.payments[q].status == Created
    requires s.bookings[s.payments[q].bookingId].status == PendingPayment
    requires ForeignCapture(s, p, q, capture) && MovingFailure(s, p, failure) && capture.eventId != failure.eventId
    ensures HandleWebhook(s, capture, now) == (s, WebhookAlreadyProcessed)
    ensures var mid := HandleWebhook(s, failure, now).0;
      && capture.eventId !in mid.events
      && HandleWebhook(mid, capture, now).1 == WebhookProcessed(Some(s.payments[q].bookingId))
  {
    ForeignCaptureRefused(s, p, q, capture, now);
    FindsOwn(s.payments, p);
    FailureMovesId(s, p, failure, now);
    WebhookKeeps(s, failure, now);
    FreedCaptureActs(s, HandleWebhook(s, failure, now).0, p, q, capture, failure.gatewayPaymentId, now);
  }

  lemma ForeignCaptureRefused(s: Db, p: PaymentId, q: PaymentId, capture: Delivery, now: int)
    requires ConsistentDb(s) && p < |s.payments| && q < |s.payments| && p != q && s.payments[q].status == Created
    requires ForeignCapture(s, p, q, capture)
    ensures HandleWebhook(s, capture, now) == (s, WebhookAlreadyProcessed)
  {
    FindsOwn(s.payments, q);
    assert GatewayIdTaken(s.payments, q, capture.gatewayPaymentId);
  }

  lemma FreedCaptureActs(s: Db, mid: Db, p: PaymentId, q: PaymentId, capture: Delivery, h: Option<GatewayPaymentId>, now: int)
    requires ConsistentDb(s) && ConsistentDb(mid) && p < |s.payments| && q < |s.payments| && p != q
    requires s.payments[q].status == Created && s.bookings[s.payments[q].bookingId].status == PendingPayment
    requires ForeignCapture(s, p, q, capture) && h != s.payments[p].gatewayPaymentId && capture.eventId !in mid.events
    requires mid.bookings == s.bookings
    requires mid.payments == s.payments[p := s.payments[p].(status := Failed, gatewayPaymentId := h)]
    ensures HandleWebhook(mid, capture, now).1 == WebhookProcessed(Some(s.payments[q].bookingId))
  {
    FindsOwn(mid.payments, q);
    IdFreed(s.payments, mid.payments, q, p, s.payments[p].gatewayPaymentId);
    CaptureConfirms(mid, q, capture, now);
  }

  /** Customer 1 and another customer hold unpaid reservations. */
  ghost predicate TwoUnpaid(s: Db) {
    && ConsistentDb(s) && |s.bookings| == 2 && |s.payments| == 2 && s.events == map[]
    && s.payments[0].bookingId == 0 && s.payments[0].status == Created && s.payments[0].gatewayPaymentId.None?
    && s.payments[1].bookingId == 1 && s.payments[1].status == Created && s.payments[1].gatewayPaymentId.None?
    && s.bookings[0].customerId == 1 && s.bookings[0].status == PendingPayment && s.bookings[1].status == PendingPayment
  }

  /** Such a state is reached by booking any two offerings of different providers. */
  lemma TwoUnpaidReachable(o: Offering, other: Offering, t: int, s: Db)
    requires Bookable(o, t) && Bookable(other, t) && o.providerId != other.providerId
    requires s == Run(EmptyDb, [Book(1, o, t), Book(2, other, t)])
    ensures ValidOps([Book(1, o, t), Book(2, other, t)]) && TwoUnpaid(s)
  {
    RunPair(EmptyDb, Book(1, o, t), Book(2, other, t));
    var s1 := Step(EmptyDb, Book(1, o, t)).0;
    FirstUnpaid(s1, o, t);
    SecondUnpaid(s1, s, o, other, t);
  }

  lemma FirstUnpaid(s: Db, o: Offering, t: int)
    requires Bookable(o, t) && s == Step(EmptyDb, Book(1, o, t)).0
    ensures ConsistentDb(s) && s.events == map[] && s.bookings == [NewBooking(1, o, t, 0)]
    ensures s.payments == [NewPayment(0, o.providerId, o.price, CurrencyOr(o.currency))]
  {
    ConsistentStep(EmptyDb, Book(1, o, t));
    Booked(EmptyDb, 1, o, t);
  }

  lemma SecondUnpaid(s: Db, after: Db, o: Offering, other: Offering, t: int)
    requires ConsistentDb(s) && Bookable(other, t) && o.providerId != other.providerId && s.events == map[]
    requires s.bookings == [NewBooking(1, o, t, 0)]
    requires s.payments == [NewPayment(0, o.providerId, o.price, CurrencyOr(o.currency))]
    requires after == Step(s, Book(2, other, t)).0
    ensures TwoUnpaid(after)
  {
    ConsistentStep(s, Book(2, other, t));
    Booked(s, 2, other, t);
  }

  /** There, one verification and two deliveries are enough: the first capture is answered as done, its repeat confirms. */
  lemma UnsettledAfterVerify(s: Db, capture: Delivery, failure: Delivery)
    requires TwoUnpaid(s)
    requires capture == Delivery(true, true, 5, PaymentCaptured, Some(s.payments[1].gatewayOrderId), Some(7), None, None)
    requires failure == Delivery(true, true, 6, PaymentFailedEvent, Some(s.payments[0].gatewayOrderId), Some(8), None, None)
    ensures var t := Step(s, VerifyOp(1, s.payments[0].gatewayOrderId, 7, true, 0)).0;
      && HandleWebhook(t, capture, 0) == (t, WebhookAlreadyProcessed)
      && HandleWebhook(HandleWebhook(t, failure, 0).0, capture, 0).1 == WebhookProcessed(Some(1))
  {
    var verify := VerifyOp(1, s.payments[0].gatewayOrderId, 7, true, 0);
    var t := Step(s, verify).0;
    ConsistentStep(s, verify);
    VerifiedFirst(s, t);
    UnsettledRepeatActs(t, 0, 1, capture, failure, 0);
  }

  lemma VerifiedFirst(s: Db, t: Db)
    requires TwoUnpaid(s) && t == Step(s, VerifyOp(1, s.payments[0].gatewayOrderId, 7, true, 0)).0
    ensures t.payments == [s.payments[0].(status := Success, paidAt := Some(0), gatewayPaymentId := Some(7)), s.payments[1]]
    ensures t.bookings == SetBookingStatus(s.bookings, 0, Confirmed, 0) && t.events == s.events
  {
    FindsOwn(s.payments, 0);
  }

  lemma FailureMovesId(s: Db, p: PaymentId, d: Delivery, now: int)
    requires ConsistentDb(s) && p < |s.payments| && s.payments[p].status != Failed
    requires d.signatureValid && d.parses && d.kind == PaymentFailedEvent && d.eventId !in s.events
    requires d.gatewayPaymentId.Some?
    requires d.orderId.Some? && FindByOrder(s.payments, d.orderId.value) == Some(p)
    requires !GatewayIdTaken(s.payments, p, d.gatewayPaymentId)
    ensures var t := HandleWebhook(s, d, now).0;
      && t.payments == s.payments[p := s.payments[p].(status := Failed, gatewayPaymentId := d.gatewayPaymentId)]
      && t.bookings == s.bookings && t.events.Keys == s.events.Keys + {d.eventId}
  {
  }

  lemma CaptureConfirms(s: Db, q: PaymentId, d: Delivery, now: int)
    requires ConsistentDb(s) && q < |s.payments| && s.payments[q].status == Created
    requires s.bookings[s.payments[q].bookingId].status == PendingPayment
    requires d.signatureValid && d.parses && d.kind == PaymentCaptured && d.eventId !in s.events
    requires d.amount.None? && d.currency.None?
    requires d.orderId.Some? && FindByOrder(s.payments, d.orderId.value) == Some(q)
    requires !GatewayIdTaken(s.payments, q, d.gatewayPaymentId)
    ensures var (t, reply) := HandleWebhook(s, d, now);
      reply == WebhookProcessed(Some(s.payments[q].bookingId)) && d.eventId in t.events
  {
  }
}
