/**
 Lifecycle notifications: scheduling on confirmation, removal on cancellation, and delivery by the
 notification worker, running beside the booking protocol.
 */
module Notifications {
  import opened Domain
  import opened Instants
  import opened Protocol
  import opened Lifecycle
  import opened Guarantees
  import opened Executions
  import Causes

  type NoticeId = nat

  datatype NoticeStatus = Waiting | Sent

  datatype NoticeType = ConfirmedNotice | ReminderNotice | ReviewNotice

  datatype Notice = Notice(bookingId: BookingId, kind: NoticeType, status: NoticeStatus)

  /** Deterministic job ids of the notification queue. */
  datatype NoticeKey =
    | Confirmation(bookingId: BookingId)
    | Reminder24h(bookingId: BookingId)
    | Reminder2h(bookingId: BookingId)
    | ReviewRequest(bookingId: BookingId)

  datatype NoticeJob = NoticeJob(due: int, noticeId: NoticeId)

  /** An email handed to the mail provider. */
  datatype Mail = Mail(key: NoticeKey, noticeId: NoticeId, sentAt: int)

  datatype Mailroom = Mailroom(
    notices: map<NoticeId, Notice>, nextNotice: NoticeId, queue: map<NoticeKey, NoticeJob>, outbox: seq<Mail>)

  const EmptyMailroom := Mailroom(map[], 0, map[], [])

  /** Job names starting with `reminder.`. */
  predicate IsReminder(key: NoticeKey) {
    key.Reminder24h? || key.Reminder2h?
  }

  function KindOf(key: NoticeKey): NoticeType {
    match key
    case Confirmation(_) => ConfirmedNotice
    case Reminder24h(_) => ReminderNotice
    case Reminder2h(_) => ReminderNotice
    case ReviewRequest(_) => ReviewNotice
  }

  /** `sendNotification`: a row is always stored; a job is queued unless its id is already there. */
  function Enqueue(m: Mailroom, key: NoticeKey, due: int): Mailroom {
    m.(notices := m.notices[m.nextNotice := Notice(key.bookingId, KindOf(key), Waiting)],
       nextNotice := m.nextNotice + 1,
       queue := if key in m.queue then m.queue else m.queue[key := NoticeJob(due, m.nextNotice)])
  }

  function EnqueueAhead(m: Mailroom, key: NoticeKey, due: int, now: int): Mailroom {
    if due > now then Enqueue(m, key, due) else m
  }

  /** When each kind of job is due, if it is tied to the appointment. */
  function DueOf(key: NoticeKey, row: Booking): Option<int> {
    match key
    case Confirmation(_) => None
    case Reminder24h(_) => Some(StartOf(row) - 24 * MS_PER_HOUR)
    case Reminder2h(_) => Some(StartOf(row) - 2 * MS_PER_HOUR)
    case ReviewRequest(_) => Some(EndOf(row) + MS_PER_HOUR)
  }

  function ScheduleLifecycle(m: Mailroom, b: BookingId, row: Booking, now: int): Mailroom {
    var m1 := Enqueue(m, Confirmation(b), now);
    var m2 := EnqueueAhead(m1, Reminder24h(b), DueOf(Reminder24h(b), row).value, now);
    var m3 := EnqueueAhead(m2, Reminder2h(b), DueOf(Reminder2h(b), row).value, now);
    EnqueueAhead(m3, ReviewRequest(b), DueOf(ReviewRequest(b), row).value, now)
  }

  /** `cancelBookingReminders`. */
  function CancelReminders(m: Mailroom, b: BookingId): Mailroom {
    m.(queue := m.queue - {Reminder24h(b), Reminder2h(b), ReviewRequest(b)},
       notices := map n | n in m.notices && !(m.notices[n].bookingId == b && m.notices[n].status == Waiting) :: m.notices[n])
  }

  /** The first unsent row of that booking and type, in insertion order. */
  function FindWaiting(notices: map<NoticeId, Notice>, wanted: Notice, from: nat, until: nat): (r: Option<NoticeId>)
    ensures r.Some? ==> from <= r.value < until && r.value in notices && notices[r.value] == wanted
    ensures r.Some? ==> forall n :: from <= n < r.value && n in notices ==> notices[n] != wanted
    ensures r.None? ==> forall n :: from <= n < until && n in notices ==> notices[n] != wanted
    decreases until - from
  {
    if from >= until then None
    else if from in notices && notices[from] == wanted then Some(from)
    else FindWaiting(notices, wanted, from + 1, until)
  }

  /** The row a job works on: its own, another unsent one of the same type, or a new one. */
  function RowFor(m: Mailroom, key: NoticeKey, job: NoticeJob): (r: (Mailroom, NoticeId))
    ensures r.1 in r.0.notices && (r.1 !in m.notices ==> r.0.notices[r.1].status == Waiting)
    ensures r.0.queue == m.queue && r.0.outbox == m.outbox
  {
    if job.noticeId in m.notices then (m, job.noticeId)
    else
      var wanted := Notice(key.bookingId, KindOf(key), Waiting);
      var found := FindWaiting(m.notices, wanted, 0, m.nextNotice);
      if found.Some? then (m, found.value)
      else (m.(notices := m.notices[m.nextNotice := wanted], nextNotice := m.nextNotice + 1), m.nextNotice)
  }

  predicate DeadStatus(status: Option<BookingStatus>) {
    status == Some(Cancelled) || status == Some(Expired)
  }

  /**
   `NotificationProcessor.process` on a due job. Without a recipient or when the provider fails the job
   throws and stays queued for a retry; otherwise it leaves the queue.
   */
  function Process(m: Mailroom, key: NoticeKey, status: Option<BookingStatus>, now: int, hasEmail: bool,
                   delivers: bool): Mailroom {
    if key !in m.queue || now < m.queue[key].due then m
    else
      var (m1, n) := RowFor(m, key, m.queue[key]);
      if m1.notices[n].status == Sent then m1.(queue := m1.queue - {key})
      else if IsReminder(key) && DeadStatus(status) then m1.(queue := m1.queue - {key}, notices := m1.notices - {n})
      else if !hasEmail || !delivers then m1
      else m1.(queue := m1.queue - {key},
               notices := m1.notices[n := m1.notices[n].(status := Sent)],
               outbox := m1.outbox + [Mail(key, n, now)])
  }

  // ---------------------------------------------------------------- the whole system

  datatype System = System(db: Db, mail: Mailroom)

  const EmptySystem := System(EmptyDb, EmptyMailroom)

  datatype SystemOp =
    | Core(op: Op, at: int)
    | RunNotice(key: NoticeKey, now: int, hasEmail: bool, delivers: bool)

  ghost predicate ValidSystemOp(op: SystemOp) {
    op.Core? ==> ValidOp(op.op)
  }

  function StatusOf(db: Db, b: BookingId): Option<BookingStatus> {
    if b < |db.bookings| then Some(db.bookings[b].status) else None
  }

  /** A confirmation schedules notifications and a cancellation removes them. */
  function MailAfter(m: Mailroom, bookings: seq<Booking>, reply: Reply, at: int): Mailroom {
    if ConfirmedBy(reply).Some? && ConfirmedBy(reply).value < |bookings| then
      ScheduleLifecycle(m, ConfirmedBy(reply).value, bookings[ConfirmedBy(reply).value], at)
    else if reply.CancelDone? then CancelReminders(m, reply.bookingId)
    else m
  }

  function SystemStep(s: System, op: SystemOp): (t: System)
    requires PaymentsHaveBookings(s.db)
    ensures PaymentsHaveBookings(t.db)
  {
    match op
    case Core(core, at) =>
      var (db, reply) := Step(s.db, core);
      System(db, MailAfter(s.mail, db.bookings, reply, at))
    case RunNotice(key, now, hasEmail, delivers) =>
      s.(mail := Process(s.mail, key, StatusOf(s.db, key.bookingId), now, hasEmail, delivers))
  }

  ghost predicate SystemLeads(s: System, op: SystemOp, t: System) {
    ValidSystemOp(op) && PaymentsHaveBookings(s.db) && t == SystemStep(s, op)
  }

  /** The system after some execution from the empty one. */
  ghost predicate SystemReached(s: System) {
    Reaches(EmptySystem, s, SystemLeads)
  }

  // ---------------------------------------------------------------- invariant

  ghost predicate DueFits(key: NoticeKey, bookings: seq<Booking>, at: int) {
    key.bookingId < |bookings| &&
    (DueOf(key, bookings[key.bookingId]).Some? ==> at >= DueOf(key, bookings[key.bookingId]).value)
  }

  /** Mailed rows are marked sent and mailed once; jobs and mails are never ahead of their time. */
  ghost predicate MailOk(m: Mailroom, bookings: seq<Booking>) {
    && (forall n :: n in m.notices ==> n < m.nextNotice)
    && (forall k :: 0 <= k < |m.outbox| ==>
          && m.outbox[k].noticeId in m.notices && m.notices[m.outbox[k].noticeId].status == Sent
          && DueFits(m.outbox[k].key, bookings, m.outbox[k].sentAt))
    && (forall k, l :: 0 <= k < l < |m.outbox| ==> m.outbox[k].noticeId != m.outbox[l].noticeId)
    && (forall key :: key in m.queue ==> DueFits(key, bookings, m.queue[key].due))
  }

  lemma EnqueueOk(m: Mailroom, bs: seq<Booking>, key: NoticeKey, due: int)
    requires MailOk(m, bs) && DueFits(key, bs, due)
    ensures MailOk(Enqueue(m, key, due), bs)
  {
  }

  lemma ScheduleOk(m: Mailroom, bs: seq<Booking>, b: BookingId, now: int)
    requires MailOk(m, bs) && b < |bs|
    ensures MailOk(ScheduleLifecycle(m, b, bs[b], now), bs)
  {
    var d24, d2, dr := DueOf(Reminder24h(b), bs[b]).value, DueOf(Reminder2h(b), bs[b]).value, DueOf(ReviewRequest(b), bs[b]).value;
    var m1 := Enqueue(m, Confirmation(b), now);
    EnqueueOk(m, bs, Confirmation(b), now);
    var m2 := EnqueueAhead(m1, Reminder24h(b), d24, now);
    EnqueueOk(m1, bs, Reminder24h(b), d24);
    var m3 := EnqueueAhead(m2, Reminder2h(b), d2, now);
    EnqueueOk(m2, bs, Reminder2h(b), d2);
    EnqueueOk(m3, bs, ReviewRequest(b), dr);
  }

  lemma CancelOk(m: Mailroom, bs: seq<Booking>, b: BookingId)
    requires MailOk(m, bs)
    ensures MailOk(CancelReminders(m, b), bs)
  {
  }

  lemma RowForOk(m: Mailroom, bs: seq<Booking>, key: NoticeKey, job: NoticeJob)
    requires MailOk(m, bs)
    ensures MailOk(RowFor(m, key, job).0, bs)
  {
  }

  lemma ProcessOk(m: Mailroom, bs: seq<Booking>, key: NoticeKey, status: Option<BookingStatus>, now: int,
                  hasEmail: bool, delivers: bool)
    requires MailOk(m, bs)
    ensures MailOk(Process(m, key, status, now, hasEmail, delivers), bs)
  {
    if key in m.queue && m.queue[key].due <= now {
      RowForOk(m, bs, key, m.queue[key]);
    }
  }

  lemma MailOutlivesBookings(m: Mailroom, bs: seq<Booking>, cs: seq<Booking>)
    requires MailOk(m, bs) && BookingsEvolve(bs, cs)
    ensures MailOk(m, cs)
  {
    forall key, at | DueFits(key, bs, at) ensures DueFits(key, cs, at) {
      assert SameBooking(bs[key.bookingId], cs[key.bookingId]);
    }
  }

  ghost predicate SystemInv(s: System) {
    Inv(s.db) && MailOk(s.mail, s.db.bookings)
  }

  lemma SystemInvStep(s: System, op: SystemOp)
    requires SystemInv(s) && ValidSystemOp(op)
    ensures SystemInv(SystemStep(s, op))
  {
    match op
    case Core(core, at) =>
      InvStep(s.db, core);
      BookingsStep(s.db, core);
      var (db, reply) := Step(s.db, core);
      MailOutlivesBookings(s.mail, s.db.bookings, db.bookings);
      MailAfterOk(s.mail, db.bookings, reply, at);
    case RunNotice(key, now, hasEmail, delivers) =>
      ProcessOk(s.mail, s.db.bookings, key, StatusOf(s.db, key.bookingId), now, hasEmail, delivers);
  }

  lemma MailAfterOk(m: Mailroom, bs: seq<Booking>, reply: Reply, at: int)
    requires MailOk(m, bs)
    ensures MailOk(MailAfter(m, bs, reply, at), bs)
  {
    if ConfirmedBy(reply).Some? && ConfirmedBy(reply).value < |bs| {
      ScheduleOk(m, bs, ConfirmedBy(reply).value, at);
    } else if reply.CancelDone? {
      CancelOk(m, bs, reply.bookingId);
    }
  }

  lemma SystemReachedInv(s: System)
    requires SystemReached(s)
    ensures SystemInv(s)
  {
    InvInit();
    forall u, op, v | SystemLeads(u, op, v) && SystemInv(u) ensures SystemInv(v) {
      SystemInvStep(u, op);
    }
    HoldsFromThen(EmptySystem, s, SystemLeads, SystemInv);
  }

  // ---------------------------------------------------------------- theorems

  /** No reminder for `b` was mailed at or after position `from` of the outbox. */
  ghost predicate Silent(outbox: seq<Mail>, b: BookingId, from: nat) {
    forall k :: from <= k < |outbox| && IsReminder(outbox[k].key) ==> outbox[k].key.bookingId != b
  }

  lemma MailAfterOutbox(m: Mailroom, bs: seq<Booking>, reply: Reply, at: int)
    ensures MailAfter(m, bs, reply, at).outbox == m.outbox
  {
  }

  lemma ProcessSilent(m: Mailroom, bs: seq<Booking>, key: NoticeKey, now: int, hasEmail: bool, delivers: bool,
                      b: BookingId, from: nat)
    requires MailOk(m, bs) && b < |bs| && Dead(bs[b].status)
    requires from <= |m.outbox| && Silent(m.outbox, b, from)
    ensures var status := if key.bookingId < |bs| then Some(bs[key.bookingId].status) else None;
      var t := Process(m, key, status, now, hasEmail, delivers);
      from <= |t.outbox| && Silent(t.outbox, b, from)
  {
    if key in m.queue {
      RowForOk(m, bs, key, m.queue[key]);
    }
  }

  lemma OutboxStep(s: System, op: SystemOp, b: BookingId, from: nat)
    requires SystemInv(s) && ValidSystemOp(op) && b < |s.db.bookings| && Dead(s.db.bookings[b].status)
    requires from <= |s.mail.outbox| && Silent(s.mail.outbox, b, from)
    ensures from <= |SystemStep(s, op).mail.outbox| && Silent(SystemStep(s, op).mail.outbox, b, from)
    ensures b < |SystemStep(s, op).db.bookings| && Dead(SystemStep(s, op).db.bookings[b].status)
  {
    match op
    case Core(core, at) =>
      BookingsStep(s.db, core);
      var (db, reply) := Step(s.db, core);
      MailAfterOutbox(s.mail, db.bookings, reply, at);
    case RunNotice(key, now, hasEmail, delivers) =>
      ProcessSilent(s.mail, s.db.bookings, key, now, hasEmail, delivers, b, from);
  }

  /** `b` is dead and no reminder for it was mailed since the outbox had `from` mails. */
  ghost predicate DeadAndSilent(s: System, b: BookingId, from: nat) {
    && SystemInv(s) && b < |s.db.bookings| && Dead(s.db.bookings[b].status)
    && from <= |s.mail.outbox| && Silent(s.mail.outbox, b, from)
  }

  /** Once a booking is CANCELLED or EXPIRED, no continuation mails a reminder for it, whatever is still queued. */
  lemma DeadBookingsStaySilent(s: System, t: System, b: BookingId)
    requires SystemReached(s) && b < |s.db.bookings| && Dead(s.db.bookings[b].status)
    requires Reaches(s, t, SystemLeads)
    ensures |s.mail.outbox| <= |t.mail.outbox| && Silent(t.mail.outbox, b, |s.mail.outbox|)
  {
    SystemReachedInv(s);
    var kept := (u: System) => DeadAndSilent(u, b, |s.mail.outbox|);
    forall u, op, v | SystemLeads(u, op, v) && kept(u) ensures kept(v) {
      SystemInvStep(u, op);
      OutboxStep(u, op, b, |s.mail.outbox|);
    }
    HoldsFromThen(s, t, SystemLeads, kept);
  }

  /** No stored notification is mailed twice, and nothing is mailed ahead of its time. */
  lemma MailedOnceOnTime(s: System)
    requires SystemReached(s)
    ensures forall k, l :: 0 <= k < l < |s.mail.outbox| ==> s.mail.outbox[k].noticeId != s.mail.outbox[l].noticeId
    ensures forall k :: 0 <= k < |s.mail.outbox| ==> DueFits(s.mail.outbox[k].key, s.db.bookings, s.mail.outbox[k].sentAt)
  {
    SystemReachedInv(s);
  }

  // ---------------------------------------------------------------- delivery

  /** An unsent row of the job's booking and type. */
  ghost predicate UnsentFor(row: Notice, key: NoticeKey) {
    && row.status == Waiting && row.bookingId == key.bookingId
    && (key.Confirmation? ==> row.kind == ConfirmedNotice)
    && (key.Reminder24h? || key.Reminder2h? ==> row.kind == ReminderNotice)
    && (key.ReviewRequest? ==> row.kind == ReviewNotice)
  }

  /** The row a queued job is about: its own, or else any unsent one of its booking and type, or else a new one. */
  ghost predicate WorksOn(m: Mailroom, key: NoticeKey, n: NoticeId) {
    && key in m.queue
    && if m.queue[key].noticeId in m.notices then n == m.queue[key].noticeId
       else if exists k :: k in m.notices && UnsentFor(m.notices[k], key) then n in m.notices && UnsentFor(m.notices[n], key)
       else n == m.nextNotice
  }

  lemma RowForWorks(m: Mailroom, key: NoticeKey)
    requires FreshIds(m) && key in m.queue
    ensures var (m1, n) := RowFor(m, key, m.queue[key]);
      && WorksOn(m, key, n)
      && m1.notices == if n in m.notices then m.notices else m.notices[n := Notice(key.bookingId, KindOf(key), Waiting)]
  {
    var wanted := Notice(key.bookingId, KindOf(key), Waiting);
    forall row: Notice ensures UnsentFor(row, key) <==> row == wanted {
    }
  }

  /** The job is due and not about a row that was already mailed. */
  ghost predicate DueUnsent(m: Mailroom, key: NoticeKey, now: int) {
    && key in m.queue && m.queue[key].due <= now
    && (m.queue[key].noticeId in m.notices ==> m.notices[m.queue[key].noticeId].status == Waiting)
  }

  /** The mail is a reminder and its booking is CANCELLED or EXPIRED. */
  ghost predicate Pointless(key: NoticeKey, status: Option<BookingStatus>) {
    (key.Reminder24h? || key.Reminder2h?) && (status == Some(Cancelled) || status == Some(Expired))
  }

  /**
   A job is mailed exactly when it is due, unsent, not a reminder of a dead booking, and there is an address and the
   provider delivers. Exactly one mail is then added, its row is marked sent and its job leaves the queue. Without
   address or delivery the job stays for a retry; a job about a sent row or a dead booking leaves without a mail.
   */
  lemma MailedExactly(m: Mailroom, key: NoticeKey, status: Option<BookingStatus>, now: int, hasEmail: bool, delivers: bool, t: Mailroom)
    requires FreshIds(m) && t == Process(m, key, status, now, hasEmail, delivers)
    ensures t.outbox != m.outbox <==> DueUnsent(m, key, now) && !Pointless(key, status) && hasEmail && delivers
    ensures t.outbox != m.outbox ==>
      && |t.outbox| == |m.outbox| + 1
      && var mail := t.outbox[|m.outbox|];
         && t.outbox == m.outbox + [mail] && mail.key == key && mail.sentAt == now
         && (mail.noticeId in m.notices ==> m.notices[mail.noticeId].status == Waiting)
         && mail.noticeId in t.notices && t.notices[mail.noticeId].status == Sent
         && WorksOn(m, key, mail.noticeId)
         && (forall n :: n in m.notices && n != mail.noticeId ==> n in t.notices && t.notices[n] == m.notices[n])
    ensures t.queue == m.queue <==>
      key !in m.queue || now < m.queue[key].due || (DueUnsent(m, key, now) && !Pointless(key, status) && !(hasEmail && delivers))
    ensures t.queue == m.queue || t.queue == m.queue - {key}
  {
    if key in m.queue {
      RowForWorks(m, key);
      var (m1, n) := RowFor(m, key, m.queue[key]);
      assert |m1.outbox + [Mail(key, n, now)]| == |m.outbox| + 1;
      assert key !in m.queue - {key};
    }
  }

  /** What happens to the rows without a mail: a due reminder of a dead booking loses its row, a retry keeps one. */
  lemma UnmailedRows(m: Mailroom, key: NoticeKey, status: Option<BookingStatus>, now: int, hasEmail: bool, delivers: bool, t: Mailroom)
    returns (n: NoticeId)
    requires FreshIds(m) && t == Process(m, key, status, now, hasEmail, delivers) && t.outbox == m.outbox
    ensures !DueUnsent(m, key, now) ==> t.notices == m.notices
    ensures DueUnsent(m, key, now) ==> WorksOn(m, key, n)
    ensures DueUnsent(m, key, now) && Pointless(key, status) ==> t.notices == m.notices - {n}
    ensures DueUnsent(m, key, now) && !Pointless(key, status) ==>
      n in t.notices && t.notices - {n} == m.notices - {n} && t.notices[n].status == Waiting
  {
    n := 0;
    if DueUnsent(m, key, now) {
      RowForWorks(m, key);
      var (m1, row) := RowFor(m, key, m.queue[key]);
      n := row;
      assert |m1.outbox + [Mail(key, n, now)]| == |m.outbox| + 1;
      assert m1.notices - {n} == m.notices - {n};
    }
  }

  // ---------------------------------------------------------------- scheduling

  ghost predicate NothingQueuedFor(m: Mailroom, b: BookingId) {
    forall key :: key in m.queue ==> key.bookingId != b
  }

  ghost predicate FreshIds(m: Mailroom) {
    forall n :: n in m.notices ==> n < m.nextNotice
  }

  /** Job `key` is queued for `due`, with an unsent row of its own. */
  ghost predicate QueuedAt(m: Mailroom, key: NoticeKey, due: int) {
    && key in m.queue && m.queue[key].due == due && m.queue[key].noticeId in m.notices
    && UnsentFor(m.notices[m.queue[key].noticeId], key)
  }

  /** Job `key` is queued for `due` if that is still ahead, and not queued otherwise. */
  ghost predicate QueuedIfAhead(m: Mailroom, key: NoticeKey, due: int, now: int) {
    if now < due then QueuedAt(m, key, due) else key !in m.queue
  }

  /** Everything queued in `m` is still queued in `t`, and nothing else but `key` is. */
  ghost predicate OnlyAdds(m: Mailroom, t: Mailroom, key: NoticeKey) {
    && FreshIds(t)
    && (forall k, due :: QueuedAt(m, k, due) ==> QueuedAt(t, k, due))
    && (forall k: NoticeKey :: k != key ==> (k in t.queue <==> k in m.queue) && (k in m.queue ==> t.queue[k] == m.queue[k]))
  }

  lemma EnqueueAdds(m: Mailroom, key: NoticeKey, due: int, now: int)
    requires FreshIds(m) && key !in m.queue
    ensures var t := Enqueue(m, key, due); OnlyAdds(m, t, key) && QueuedAt(t, key, due)
    ensures var t := EnqueueAhead(m, key, due, now);
      OnlyAdds(m, t, key) && QueuedIfAhead(t, key, due, now)
  {
  }

  /** Confirming a booking queues its confirmation now and exactly those later mails whose time is still ahead. */
  lemma ScheduleExact(m: Mailroom, b: BookingId, row: Booking, now: int)
    requires NothingQueuedFor(m, b) && FreshIds(m)
    ensures var t := ScheduleLifecycle(m, b, row, now);
      && QueuedAt(t, Confirmation(b), now)
      && QueuedIfAhead(t, Reminder24h(b), StartOf(row) - 24 * MS_PER_HOUR, now)
      && QueuedIfAhead(t, Reminder2h(b), StartOf(row) - 2 * MS_PER_HOUR, now)
      && QueuedIfAhead(t, ReviewRequest(b), EndOf(row) + MS_PER_HOUR, now)
      && (forall key: NoticeKey :: key.bookingId != b ==> (key in t.queue <==> key in m.queue) && (key in m.queue ==> t.queue[key] == m.queue[key]))
  {
    var d24, d2, dr := DueOf(Reminder24h(b), row).value, DueOf(Reminder2h(b), row).value, DueOf(ReviewRequest(b), row).value;
    var m1 := Enqueue(m, Confirmation(b), now);
    var m2 := EnqueueAhead(m1, Reminder24h(b), d24, now);
    var m3 := EnqueueAhead(m2, Reminder2h(b), d2, now);
    EnqueueAdds(m, Confirmation(b), now, now);
    EnqueueAdds(m1, Reminder24h(b), d24, now);
    EnqueueAdds(m2, Reminder2h(b), d2, now);
    EnqueueAdds(m3, ReviewRequest(b), dr, now);
    AllAdded(m, m1, m2, m3, ScheduleLifecycle(m, b, row, now), b, d24, d2, dr, now);
  }

  lemma AllAdded(m: Mailroom, m1: Mailroom, m2: Mailroom, m3: Mailroom, t: Mailroom, b: BookingId, d24: int, d2: int, dr: int, now: int)
    requires NothingQueuedFor(m, b)
    requires OnlyAdds(m, m1, Confirmation(b)) && QueuedAt(m1, Confirmation(b), now)
    requires OnlyAdds(m1, m2, Reminder24h(b)) && QueuedIfAhead(m2, Reminder24h(b), d24, now)
    requires OnlyAdds(m2, m3, Reminder2h(b)) && QueuedIfAhead(m3, Reminder2h(b), d2, now)
    requires OnlyAdds(m3, t, ReviewRequest(b)) && QueuedIfAhead(t, ReviewRequest(b), dr, now)
    ensures QueuedAt(t, Confirmation(b), now) && QueuedIfAhead(t, Reminder24h(b), d24, now)
    ensures QueuedIfAhead(t, Reminder2h(b), d2, now) && QueuedIfAhead(t, ReviewRequest(b), dr, now)
    ensures forall key: NoticeKey :: key.bookingId != b ==> (key in t.queue <==> key in m.queue) && (key in m.queue ==> t.queue[key] == m.queue[key])
  {
  }

  /** Nothing is queued for a booking that still waits to be paid. */
  ghost predicate Quiet(m: Mailroom, bookings: seq<Booking>) {
    forall key :: key in m.queue ==> key.bookingId < |bookings| && bookings[key.bookingId].status != PendingPayment
  }

  lemma MailAfterKeys(m: Mailroom, bs: seq<Booking>, reply: Reply, at: int, key: NoticeKey)
    requires key in MailAfter(m, bs, reply, at).queue
    ensures key in m.queue || ConfirmedBy(reply) == Some(key.bookingId)
  {
  }

  /** A booking reported as confirmed was pending and is CONFIRMED. */
  lemma ReportedConfirmed(s: Db, op: Op, b: BookingId)
    requires PaymentsHaveBookings(s) && ConfirmedBy(Step(s, op).1) == Some(b)
    ensures b < |s.bookings| && s.bookings[b].status == PendingPayment
    ensures b < |Step(s, op).0.bookings| && Step(s, op).0.bookings[b].status == Confirmed
  {
    if op.WebhookOp? {
      WebhookConfirms(s, op.delivery, op.now);
    } else {
      assert op.VerifyOp?;
      VerifyConfirms(s, op);
    }
  }

  /** Conversely a booking that becomes CONFIRMED is reported. */
  lemma ConfirmedReported(s: Db, op: Op, b: BookingId)
    requires Inv(s) && b < |s.bookings| && s.bookings[b].status != Confirmed
    requires b < |Step(s, op).0.bookings| && Step(s, op).0.bookings[b].status == Confirmed
    ensures ConfirmedBy(Step(s, op).1) == Some(b)
  {
    Causes.EveryChangeIsCaused(s, op, b);
    if op.WebhookOp? {
      WebhookConfirms(s, op.delivery, op.now);
    } else {
      VerifyConfirms(s, op);
    }
  }

  lemma QuietStep(s: System, op: SystemOp, t: System)
    requires SystemInv(s) && Quiet(s.mail, s.db.bookings) && SystemLeads(s, op, t)
    ensures Quiet(t.mail, t.db.bookings)
  {
    match op
    case Core(core, at) =>
      BookingsStep(s.db, core);
      QuietAfter(s, core, at, Step(s.db, core).0, Step(s.db, core).1);
    case RunNotice(key, now, hasEmail, delivers) =>
      QuietProcess(s.mail, s.db.bookings, key, StatusOf(s.db, key.bookingId), now, hasEmail, delivers);
  }

  lemma QuietAfter(s: System, op: Op, at: int, db: Db, reply: Reply)
    requires PaymentsHaveBookings(s.db) && Quiet(s.mail, s.db.bookings)
    requires (db, reply) == Step(s.db, op) && BookingsEvolve(s.db.bookings, db.bookings)
    ensures Quiet(MailAfter(s.mail, db.bookings, reply, at), db.bookings)
  {
    forall key | key in MailAfter(s.mail, db.bookings, reply, at).queue
      ensures key.bookingId < |db.bookings| && db.bookings[key.bookingId].status != PendingPayment
    {
      MailAfterKeys(s.mail, db.bookings, reply, at, key);
      if key !in s.mail.queue {
        ReportedConfirmed(s.db, op, key.bookingId);
      }
    }
  }

  lemma QuietProcess(m: Mailroom, bs: seq<Booking>, key: NoticeKey, status: Option<BookingStatus>, now: int, hasEmail: bool, delivers: bool)
    requires Quiet(m, bs)
    ensures Quiet(Process(m, key, status, now, hasEmail, delivers), bs)
  {
  }

  lemma ReachedQuiet(s: System)
    requires SystemReached(s)
    ensures SystemInv(s) && Quiet(s.mail, s.db.bookings)
  {
    InvInit();
    var kept := (u: System) => SystemInv(u) && Quiet(u.mail, u.db.bookings);
    forall u, op, v | SystemLeads(u, op, v) && kept(u) ensures kept(v) {
      SystemInvStep(u, op);
      QuietStep(u, op, v);
    }
    HoldsFromThen(EmptySystem, s, SystemLeads, kept);
  }

  /**
   In every run, the step that makes a booking CONFIRMED, by client or webhook, leaves its confirmation queued for
   now, its reminders for 24 and 2 hours before the start and its review request for an hour after the end, each if
   still ahead and with an unsent row of its own.
   */
  lemma ConfirmingSchedules(s: System, op: Op, at: int, b: BookingId, t: System)
    requires SystemReached(s) && SystemLeads(s, Core(op, at), t) && b < |s.db.bookings| && b < |t.db.bookings|
    requires s.db.bookings[b].status != Confirmed && t.db.bookings[b].status == Confirmed
    ensures var row := t.db.bookings[b];
      && QueuedAt(t.mail, Confirmation(b), at)
      && QueuedIfAhead(t.mail, Reminder24h(b), StartOf(row) - 24 * MS_PER_HOUR, at)
      && QueuedIfAhead(t.mail, Reminder2h(b), StartOf(row) - 2 * MS_PER_HOUR, at)
      && QueuedIfAhead(t.mail, ReviewRequest(b), EndOf(row) + MS_PER_HOUR, at)
  {
    ReachedQuiet(s);
    ConfirmedReported(s.db, op, b);
    BookingsStep(s.db, op);
    assert StatusEdge(s.db.bookings[b].status, t.db.bookings[b].status);
    ScheduleExact(s.mail, b, t.db.bookings[b], at);
  }

  /** A step that confirms no booking and is no customer's cancellation leaves the mailroom alone. */
  lemma OtherStepsKeepMail(s: System, op: Op, at: int, t: System)
    requires SystemReached(s) && SystemLeads(s, Core(op, at), t) && !op.CancelOp?
    requires forall b :: 0 <= b < |s.db.bookings| && s.db.bookings[b].status == PendingPayment && b < |t.db.bookings| ==>
               t.db.bookings[b].status != Confirmed
    ensures t.mail == s.mail
  {
    var reply := Step(s.db, op).1;
    if ConfirmedBy(reply).Some? {
      ReportedConfirmed(s.db, op, ConfirmedBy(reply).value);
    }
  }

  /** After a customer cancelled, neither reminder nor review request of the booking is queued and no unsent row is left. */
  lemma CancellingSilences(s: System, b: BookingId, c: UserId, now: int, at: int, t: System)
    requires SystemLeads(s, Core(CancelOp(b, c, now), at), t) && CancelBooking(s.db, b, c, now).1 == CancelDone(b)
    ensures forall key :: key in t.mail.queue <==> key in s.mail.queue && key !in {Reminder24h(b), Reminder2h(b), ReviewRequest(b)}
    ensures forall n :: n in t.mail.notices <==>
      n in s.mail.notices && !(s.mail.notices[n].bookingId == b && s.mail.notices[n].status == Waiting)
    ensures t.mail.outbox == s.mail.outbox
  {
  }

  /** Cancelling takes back a row just stored, and its job unless that is the confirmation. */
  lemma CancelUndoesOne(m: Mailroom, key: NoticeKey, due: int)
    requires FreshIds(m)
    ensures FreshIds(Enqueue(m, key, due))
    ensures CancelReminders(Enqueue(m, key, due), key.bookingId).notices == CancelReminders(m, key.bookingId).notices
    ensures !key.Confirmation? ==>
      CancelReminders(Enqueue(m, key, due), key.bookingId).queue == CancelReminders(m, key.bookingId).queue
  {
  }

  /** Cancelling takes back everything scheduled on confirmation except the confirmation job itself. */
  lemma CancelUndoesSchedule(m: Mailroom, b: BookingId, row: Booking, now: int)
    requires NothingQueuedFor(m, b) && FreshIds(m)
    ensures var t := CancelReminders(ScheduleLifecycle(m, b, row, now), b);
      && t.queue == m.queue[Confirmation(b) := NoticeJob(now, m.nextNotice)]
      && t.notices == CancelReminders(m, b).notices
      && t.outbox == m.outbox
  {
    var d24, d2, dr := DueOf(Reminder24h(b), row).value, DueOf(Reminder2h(b), row).value, DueOf(ReviewRequest(b), row).value;
    var m1 := Enqueue(m, Confirmation(b), now);
    var m2 := EnqueueAhead(m1, Reminder24h(b), d24, now);
    var m3 := EnqueueAhead(m2, Reminder2h(b), d2, now);
    CancelUndoesOne(m, Confirmation(b), now);
    CancelUndoesOne(m1, Reminder24h(b), d24);
    CancelUndoesOne(m2, Reminder2h(b), d2);
    CancelUndoesOne(m3, ReviewRequest(b), dr);
    assert CancelReminders(m1, b).queue == m.queue[Confirmation(b) := NoticeJob(now, m.nextNotice)];
  }

  // ---------------------------------------------------------------- the services

  /** The notification queue service and worker over their own tables. */
  class NotificationDesk {
    var notices: map<NoticeId, Notice>
    var nextNotice: NoticeId
    var queue: map<NoticeKey, NoticeJob>
    var outbox: seq<Mail>

    ghost function State(): Mailroom
      reads this
    {
      Mailroom(notices, nextNotice, queue, outbox)
    }

    constructor ()
      ensures State() == EmptyMailroom
    {
      notices, nextNotice, queue, outbox := map[], 0, map[], [];
    }

    method SendNotification(key: NoticeKey, due: int)
      modifies this`notices, this`nextNotice, this`queue
      ensures State() == Enqueue(old(State()), key, due)
    {
      var n := nextNotice;
      notices := notices[n := Notice(key.bookingId, KindOf(key), Waiting)];
      nextNotice := n + 1;
      if key !in queue {
        queue := queue[key := NoticeJob(due, n)];
      }
    }

    method ScheduleBookingLifecycle(b: BookingId, row: Booking, now: int)
      modifies this`notices, this`nextNotice, this`queue
      ensures State() == ScheduleLifecycle(old(State()), b, row, now)
    {
      var start, end := StartOf(row), EndOf(row);
      SendNotification(Confirmation(b), now);
      var delay24h := start - 24 * MS_PER_HOUR - now;
      if delay24h > 0 {
        SendNotification(Reminder24h(b), now + delay24h);
      }
      var delay2h := start - 2 * MS_PER_HOUR - now;
      if delay2h > 0 {
        SendNotification(Reminder2h(b), now + delay2h);
      }
      var delayReview := end + MS_PER_HOUR - now;
      if delayReview > 0 {
        SendNotification(ReviewRequest(b), now + delayReview);
      }
    }

    method CancelBookingReminders(b: BookingId)
      modifies this`notices, this`queue
      ensures State() == CancelReminders(old(State()), b)
    {
      var keys := [Reminder24h(b), Reminder2h(b), ReviewRequest(b)];
      var i := 0;
      while i < |keys|
        invariant 0 <= i <= |keys|
        invariant queue == old(queue) - (set k | k in keys[..i]) && notices == old(notices)
      {
        if keys[i] in queue {
          queue := queue - {keys[i]};
        }
        assert keys[..i + 1] == keys[..i] + [keys[i]];
        i := i + 1;
      }
      assert keys[..i] == keys && keys[0] in keys && keys[1] in keys && keys[2] in keys;
      assert (set k | k in keys[..i]) == {Reminder24h(b), Reminder2h(b), ReviewRequest(b)};
      notices := map n | n in notices && !(notices[n].bookingId == b && notices[n].status == Waiting) :: notices[n];
    }

    method Work(key: NoticeKey, status: Option<BookingStatus>, now: int, hasEmail: bool,
                delivers: bool) returns (delivered: bool)
      modifies this
      ensures State() == Process(old(State()), key, status, now, hasEmail, delivers)
      ensures |outbox| == |old(outbox)| + (if delivered then 1 else 0)
    {
      delivered := false;
      if key !in queue || now < queue[key].due {
        return;
      }
      var job := queue[key];
      var n := job.noticeId;
      if n !in notices {
        var wanted := Notice(key.bookingId, KindOf(key), Waiting);
        var found := FindWaiting(notices, wanted, 0, nextNotice);
        if found.Some? {
          n := found.value;
        } else {
          n := nextNotice;
          notices := notices[n := wanted];
          nextNotice := nextNotice + 1;
        }
      }
      if notices[n].status == Sent {
        queue := queue - {key};
        return;
      }
      if IsReminder(key) && DeadStatus(status) {
        notices := notices - {n};
        queue := queue - {key};
        return;
      }
      if !hasEmail || !delivers {
        return;
      }
      outbox := outbox + [Mail(key, n, now)];
      notices := notices[n := notices[n].(status := Sent)];
      queue := queue - {key};
      delivered := true;
    }
  }
}
