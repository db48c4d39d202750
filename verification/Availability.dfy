/**
 Weekly availability: validation of a schedule before it replaces the stored one, and generation of
 the bookable slots of a day.
 */
module Availability {
  import opened Domain
  import opened Instants
  import opened Times

  // ---------------------------------------------------------------- what a schedule must satisfy

  predicate Disjoint(a: Span, b: Span) {
    a.end <= b.start || b.end <= a.start
  }

  /** Non-empty, and long enough for the shortest active service when there is one. */
  predicate WellSized(w: Span, minRequired: Option<int>) {
    && w.start < w.end
    && (minRequired.Some? && minRequired.value != 0 ==> w.end - w.start >= minRequired.value)
  }

  /** Any two rows of one weekday are disjoint, neighbours in time or not. */
  ghost predicate DayDisjoint(s: seq<Span>) {
    forall i, j :: 0 <= i < j < |s| && s[i].weekday == s[j].weekday ==> Disjoint(s[i], s[j])
  }

  ghost predicate Acceptable(s: seq<Span>, minRequired: Option<int>) {
    (forall i :: 0 <= i < |s| ==> WellSized(s[i], minRequired)) && DayDisjoint(s)
  }

  // ---------------------------------------------------------------- grouping and sorting

  /** `Object.groupBy` on the weekday, one group. */
  function OfDay(s: seq<Span>, day: int): (r: seq<Span>)
    ensures forall w :: w in r <==> w in s && w.weekday == day
  {
    if s == [] then []
    else if s[0].weekday == day then [s[0]] + OfDay(s[1..], day)
    else OfDay(s[1..], day)
  }

  ghost predicate ClearOf(x: Span, s: seq<Span>) {
    forall y :: y in s ==> Disjoint(x, y)
  }

  /** All pairs are disjoint. */
  ghost predicate Pairwise(s: seq<Span>) {
    s == [] || (ClearOf(s[0], s[1..]) && Pairwise(s[1..]))
  }

  lemma {:induction false} PairwiseAt(s: seq<Span>, i: nat, j: nat)
    requires Pairwise(s) && i < j < |s|
    ensures Disjoint(s[i], s[j])
  {
    if i == 0 {
      assert s[j] == s[1..][j - 1];
    } else {
      PairwiseAt(s[1..], i - 1, j - 1);
    }
  }

  ghost predicate SortedByStart(s: seq<Span>) {
    s == [] || ((forall y :: y in s[1..] ==> s[0].start <= y.start) && SortedByStart(s[1..]))
  }

  lemma {:induction false} SortedAt(s: seq<Span>, i: nat, j: nat)
    requires SortedByStart(s) && i < j < |s|
    ensures s[i].start <= s[j].start
  {
    if i == 0 {
      assert s[j] == s[1..][j - 1];
    } else {
      SortedAt(s[1..], i - 1, j - 1);
    }
  }

  function Insert(x: Span, s: seq<Span>): (r: seq<Span>)
    requires SortedByStart(s)
    ensures SortedByStart(r)
    ensures forall w :: w in r <==> w == x || w in s
  {
    if s == [] then [x]
    else
      assert s == [s[0]] + s[1..];
      if x.start <= s[0].start then
        assert ([x] + s)[1..] == s;
        [x] + s
      else
        var rest := Insert(x, s[1..]);
        assert ([s[0]] + rest)[1..] == rest;
        [s[0]] + rest
  }

  /** The stable sort on start minutes. */
  function SortByStart(s: seq<Span>): (r: seq<Span>)
    ensures SortedByStart(r)
    ensures forall w :: w in r <==> w in s
  {
    if s == [] then []
    else
      assert s == [s[0]] + s[1..];
      Insert(s[0], SortByStart(s[1..]))
  }

  lemma {:induction false} InsertAdds(x: Span, s: seq<Span>)
    requires SortedByStart(s)
    ensures multiset(Insert(x, s)) == multiset(s) + multiset{x}
  {
    if s != [] && x.start > s[0].start {
      InsertAdds(x, s[1..]);
      assert s == [s[0]] + s[1..];
    }
  }

  /** Sorting only reorders. */
  lemma {:induction false} SortPermutes(s: seq<Span>)
    ensures multiset(SortByStart(s)) == multiset(s)
  {
    if s != [] {
      SortPermutes(s[1..]);
      InsertAdds(s[0], SortByStart(s[1..]));
      assert s == [s[0]] + s[1..];
    }
  }

  lemma ClearOfCons(z: Span, s: seq<Span>)
    requires s != []
    ensures ClearOf(z, s) <==> Disjoint(z, s[0]) && ClearOf(z, s[1..])
  {
    assert s == [s[0]] + s[1..];
  }

  lemma {:induction false} ClearOfInsert(z: Span, x: Span, s: seq<Span>)
    requires SortedByStart(s)
    ensures ClearOf(z, Insert(x, s)) <==> Disjoint(z, x) && ClearOf(z, s)
  {
    assert x in Insert(x, s);
  }

  lemma {:induction false} InsertPairwise(x: Span, s: seq<Span>)
    requires SortedByStart(s)
    ensures Pairwise(Insert(x, s)) <==> ClearOf(x, s) && Pairwise(s)
  {
    if s == [] {
    } else if x.start <= s[0].start {
      assert ([x] + s)[1..] == s;
    } else {
      var rest := Insert(x, s[1..]);
      InsertPairwise(x, s[1..]);
      assert Insert(x, s) == [s[0]] + rest && Insert(x, s)[1..] == rest;
      ClearOfInsert(s[0], x, s[1..]);
      ClearOfCons(x, s);
    }
  }

  /** Sorting does not change whether all pairs are disjoint. */
  lemma {:induction false} SortPairwise(s: seq<Span>)
    ensures Pairwise(SortByStart(s)) <==> Pairwise(s)
  {
    if s != [] {
      SortPairwise(s[1..]);
      InsertPairwise(s[0], SortByStart(s[1..]));
    }
  }

  ghost predicate DisjointOn(s: seq<Span>, day: int) {
    forall i, j :: 0 <= i < j < |s| && s[i].weekday == day && s[j].weekday == day ==> Disjoint(s[i], s[j])
  }

  lemma {:induction false} DisjointOnCons(s: seq<Span>, day: int)
    requires s != []
    ensures DisjointOn(s, day) <==>
      DisjointOn(s[1..], day) && (s[0].weekday == day ==> ClearOf(s[0], OfDay(s[1..], day)))
  {
    var rest := s[1..];
    if DisjointOn(s, day) {
      forall i, j | 0 <= i < j < |rest| && rest[i].weekday == day && rest[j].weekday == day ensures Disjoint(rest[i], rest[j]) {
        assert s[i + 1] == rest[i] && s[j + 1] == rest[j];
      }
      if s[0].weekday == day {
        forall y | y in OfDay(rest, day) ensures Disjoint(s[0], y) {
          var j :| 0 <= j < |rest| && rest[j] == y;
          assert s[j + 1] == y;
        }
      }
    } else {
      var i, j :| 0 <= i < j < |s| && s[i].weekday == day && s[j].weekday == day && !Disjoint(s[i], s[j]);
      assert rest[j - 1] == s[j];
      if i == 0 {
        assert s[j] in OfDay(rest, day);
      } else {
        assert rest[i - 1] == s[i];
      }
    }
  }

  lemma {:induction false} OfDayPairwise(s: seq<Span>, day: int)
    ensures Pairwise(OfDay(s, day)) <==> DisjointOn(s, day)
  {
    if s != [] {
      OfDayPairwise(s[1..], day);
      DisjointOnCons(s, day);
      if s[0].weekday == day {
        assert OfDay(s, day)[1..] == OfDay(s[1..], day);
      }
    }
  }

  /** Grouping drops rows but never repeats one. */
  lemma {:induction false} OfDayWithin(s: seq<Span>, day: int)
    ensures multiset(OfDay(s, day)) <= multiset(s)
  {
    if s != [] {
      OfDayWithin(s[1..], day);
      assert s == [s[0]] + s[1..];
    }
  }

  // ---------------------------------------------------------------- validation

  datatype Verdict =
    | Accepted
    | InvalidRange(row: Span)
    | TooShort(row: Span)
    | Duplicate(row: Span)
    | Overlapping(row: Span, next: Span)

  ghost predicate AllSized(s: seq<Span>, minRequired: Option<int>) {
    forall w :: w in s ==> WellSized(w, minRequired)
  }

  ghost predicate Neighbours(s: seq<Span>) {
    forall i :: 0 <= i < |s| - 1 ==> s[i].end <= s[i + 1].start
  }

  /** Sorted, non-empty rows are pairwise disjoint as soon as neighbours are. */
  lemma {:induction false} NeighboursSuffice(s: seq<Span>, minRequired: Option<int>)
    requires SortedByStart(s) && AllSized(s, minRequired) && Neighbours(s)
    ensures Pairwise(s)
  {
    if s != [] {
      var rest := s[1..];
      forall i | 0 <= i < |rest| - 1 ensures rest[i].end <= rest[i + 1].start {
        assert rest[i] == s[i + 1] && rest[i + 1] == s[i + 2];
      }
      NeighboursSuffice(rest, minRequired);
      forall y | y in rest ensures Disjoint(s[0], y) {
        var j :| 0 <= j < |rest| && rest[j] == y;
        assert s[j + 1] == y && s[0].end <= s[1].start;
      }
    }
  }

  /** Rows with the same clock texts have the same minutes. */
  ghost predicate TextsDecide(s: seq<Span>) {
    forall a, b :: a in s && b in s && SameTexts(a, b) ==> a.start == b.start && a.end == b.end
  }

  predicate SameTexts(a: Span, b: Span) {
    a.row.startTime == b.row.startTime && a.row.endTime == b.row.endTime
  }

  /** Two rows of that weekday carry the same clock texts. */
  ghost predicate Repeated(row: Span, rows: seq<Span>) {
    exists other :: multiset{row, other} <= multiset(rows) && other.weekday == row.weekday && SameTexts(row, other)
  }

  /** What a refusal says about the rows it names. */
  ghost predicate Justified(v: Verdict, rows: seq<Span>, minRequired: Option<int>) {
    match v
    case Accepted => true
    case InvalidRange(row) => row in rows && row.start >= row.end
    case TooShort(row) => row in rows && minRequired.Some? && row.end - row.start < minRequired.value
    case Duplicate(row) => Repeated(row, rows)
    case Overlapping(row, next) =>
      row in rows && next in rows && row.weekday == next.weekday && row.start <= next.start < row.end
  }

  lemma RepeatedAt(s: seq<Span>, i: nat)
    requires i + 1 < |s| && s[i].weekday == s[i + 1].weekday && SameTexts(s[i], s[i + 1])
    ensures Repeated(s[i], s)
  {
    assert s == s[..i] + [s[i]] + [s[i + 1]] + s[i + 2..];
    assert multiset(s) == multiset(s[..i]) + multiset{s[i], s[i + 1]} + multiset(s[i + 2..]);
  }

  /** The body of the loop: one row next to its successor. */
  method CheckRow(sorted: seq<Span>, i: nat, minRequired: Option<int>, ghost day: int) returns (v: Verdict)
    requires SortedByStart(sorted) && TextsDecide(sorted) && forall w :: w in sorted ==> w.weekday == day
    requires i < |sorted|
    ensures v.Accepted? ==> WellSized(sorted[i], minRequired) && (i + 1 < |sorted| ==> sorted[i].end <= sorted[i + 1].start)
    ensures !v.Accepted? ==> !(Pairwise(sorted) && AllSized(sorted, minRequired))
    ensures Justified(v, sorted, minRequired)
  {
    var current := sorted[i];
    assert current in sorted;
    if current.start >= current.end {
      return InvalidRange(current);
    }
    if minRequired.Some? && minRequired.value != 0 && current.end - current.start < minRequired.value {
      return TooShort(current);
    }
    if i + 1 < |sorted| {
      var next := sorted[i + 1];
      assert next in sorted;
      SortedAt(sorted, i, i + 1);
      if SameTexts(current, next) {
        NotPairwise(sorted, i);
        RepeatedAt(sorted, i);
        return Duplicate(current);
      }
      if current.end > next.start {
        if next.start < next.end {
          NotPairwise(sorted, i);
        }
        return Overlapping(current, next);
      }
    }
    return Accepted;
  }

  /** The loop over one weekday's rows, once they are sorted. */
  method CheckSorted(sorted: seq<Span>, minRequired: Option<int>, ghost day: int) returns (v: Verdict)
    requires SortedByStart(sorted) && TextsDecide(sorted) && forall w :: w in sorted ==> w.weekday == day
    ensures v.Accepted? <==> Pairwise(sorted) && AllSized(sorted, minRequired)
    ensures Justified(v, sorted, minRequired)
  {
    var i := 0;
    while i < |sorted|
      invariant 0 <= i <= |sorted|
      invariant forall k :: 0 <= k < i ==> WellSized(sorted[k], minRequired)
      invariant forall k :: 0 <= k < i && k + 1 < |sorted| ==> sorted[k].end <= sorted[k + 1].start
    {
      v := CheckRow(sorted, i, minRequired, day);
      if !v.Accepted? {
        return;
      }
      i := i + 1;
    }
    NeighboursSuffice(sorted, minRequired);
    return Accepted;
  }

  lemma {:induction false} NotPairwise(s: seq<Span>, i: nat)
    requires i + 1 < |s| && !Disjoint(s[i], s[i + 1])
    ensures !Pairwise(s)
  {
    if Pairwise(s) {
      PairwiseAt(s, i, i + 1);
    }
  }

  /** One weekday's rows, in the order they were given. */
  method ValidateDay(rows: seq<Span>, minRequired: Option<int>, ghost day: int) returns (v: Verdict)
    requires TextsDecide(rows) && forall w :: w in rows ==> w.weekday == day
    ensures v.Accepted? <==> Pairwise(rows) && AllSized(rows, minRequired)
    ensures Justified(v, rows, minRequired)
  {
    var sorted := SortByStart(rows);
    SortPairwise(rows);
    SortPermutes(rows);
    v := CheckSorted(sorted, minRequired, day);
  }

  /** `validateSchedules` accepts exactly the acceptable schedules, and a refusal names rows at fault. */
  method ValidateSchedules(schedule: seq<Span>, minRequired: Option<int>) returns (v: Verdict)
    requires TextsDecide(schedule) && forall w :: w in schedule ==> 0 <= w.weekday <= 6
    ensures v.Accepted? <==> Acceptable(schedule, minRequired)
    ensures Justified(v, schedule, minRequired)
  {
    var day := 0;
    while day < 7
      invariant 0 <= day <= 7
      invariant forall d :: 0 <= d < day ==> DisjointOn(schedule, d)
      invariant forall w :: w in schedule && w.weekday < day ==> WellSized(w, minRequired)
    {
      OfDayPairwise(schedule, day);
      var rows := OfDay(schedule, day);
      v := ValidateDay(rows, minRequired, day);
      if !v.Accepted? {
        OfDayWithin(schedule, day);
        if Acceptable(schedule, minRequired) {
          assert DisjointOn(schedule, day);
        }
        return;
      }
      forall w | w in schedule && w.weekday == day ensures WellSized(w, minRequired) {
        assert w in rows;
      }
      day := day + 1;
    }
    forall i, j | 0 <= i < j < |schedule| && schedule[i].weekday == schedule[j].weekday
      ensures Disjoint(schedule[i], schedule[j])
    {
      assert DisjointOn(schedule, schedule[i].weekday);
    }
    v := Accepted;
  }

  // ---------------------------------------------------------------- slots

  /** Start minutes chosen by the slot loop in one window. */
  function SlotStarts(from: nat, until: int, duration: int, buffer: int): (r: seq<nat>)
    requires duration >= 1 && buffer >= 0
    ensures forall i :: 0 <= i < |r| ==> from <= r[i] && r[i] + duration <= until
    ensures forall i, j :: 0 <= i < j < |r| ==> r[i] + duration + buffer <= r[j]
    decreases until - from
  {
    if from + duration > until then []
    else [from] + SlotStarts(from + duration + buffer, until, duration, buffer)
  }

  /** Starts inside the window, any two of them a slot and a buffer apart. */
  ghost predicate Placement(starts: seq<nat>, from: nat, until: int, duration: int, buffer: int) {
    && (forall i :: 0 <= i < |starts| ==> from <= starts[i] && starts[i] + duration <= until)
    && (forall i, j :: 0 <= i < j < |starts| ==>
          starts[i] + duration + buffer <= starts[j] || starts[j] + duration + buffer <= starts[i])
  }

  /** Slot number `k` is generated whenever it would still fit. */
  lemma {:induction false} SlotExists(from: nat, until: int, duration: int, buffer: int, k: nat)
    requires duration >= 1 && buffer >= 0 && from + k * (duration + buffer) + duration <= until
    ensures k < |SlotStarts(from, until, duration, buffer)|
    decreases k
  {
    if k > 0 {
      assert k * (duration + buffer) == (k - 1) * (duration + buffer) + (duration + buffer);
      assert 0 <= (k - 1) * (duration + buffer);
      SlotExists(from + duration + buffer, until, duration, buffer, k - 1);
    }
  }

  /** `x` is start number `k` of window `w`, counted in steps of a slot and a buffer, and its slot fits. */
  ghost predicate SlotOf(w: Span, k: nat, x: int, duration: int, buffer: int) {
    x == w.start + k * (duration + buffer) && x + duration <= w.end
  }

  /** The loop's starts are exactly the first ones a slot and a buffer apart that fit. */
  lemma {:induction false} SlotNumber(from: nat, until: int, duration: int, buffer: int, k: nat)
    requires duration >= 1 && buffer >= 0 && k < |SlotStarts(from, until, duration, buffer)|
    ensures SlotStarts(from, until, duration, buffer)[k] == from + k * (duration + buffer)
    decreases k
  {
    if k > 0 {
      SlotNumber(from + duration + buffer, until, duration, buffer, k - 1);
      assert k * (duration + buffer) == (k - 1) * (duration + buffer) + (duration + buffer);
    }
  }

  lemma {:induction false} WindowExact(w: Span, duration: int, buffer: int, x: nat)
    requires duration >= 1 && buffer >= 0
    ensures x in SlotStarts(w.start, w.end, duration, buffer) <==> exists k: nat :: SlotOf(w, k, x, duration, buffer)
  {
    var starts := SlotStarts(w.start, w.end, duration, buffer);
    if x in starts {
      var k: nat :| k < |starts| && starts[k] == x;
      SlotNumber(w.start, w.end, duration, buffer, k);
      assert SlotOf(w, k, x, duration, buffer);
    }
    if k: nat :| SlotOf(w, k, x, duration, buffer) {
      SlotExists(w.start, w.end, duration, buffer, k);
      SlotNumber(w.start, w.end, duration, buffer, k);
    }
  }

  function Cell(x: int, from: int, step: int): int
    requires step >= 1
  {
    (x - from) / step
  }

  lemma CellApart(x: int, y: int, from: int, step: int)
    requires step >= 1 && (x + step <= y || y + step <= x)
    ensures Cell(x, from, step) != Cell(y, from, step)
  {
    assert x - from == Cell(x, from, step) * step + (x - from) % step;
    assert y - from == Cell(y, from, step) * step + (y - from) % step;
  }

  lemma {:induction false} CellInRange(x: int, from: nat, until: int, duration: int, buffer: int)
    requires duration >= 1 && buffer >= 0 && from <= x && x + duration <= until
    ensures 0 <= Cell(x, from, duration + buffer) < |SlotStarts(from, until, duration, buffer)|
  {
    var step := duration + buffer;
    var q := Cell(x, from, step);
    assert x - from == q * step + (x - from) % step;
    SlotExists(from, until, duration, buffer, q);
  }

  /** Distinct naturals below `n` number at most `n`. */
  lemma {:induction false} Pigeonhole(cells: seq<int>, n: nat)
    requires forall i :: 0 <= i < |cells| ==> 0 <= cells[i] < n
    requires forall i, j :: 0 <= i < j < |cells| ==> cells[i] != cells[j]
    ensures |cells| <= n
    decreases n
  {
    if cells != [] {
      assert 0 <= cells[0] < n;
      if i :| 0 <= i < |cells| && cells[i] == n - 1 {
        Pigeonhole(cells[..i] + cells[i + 1..], n - 1);
      } else {
        Pigeonhole(cells, n - 1);
      }
    }
  }

  /** No placement with the same gaps has more slots than the loop generates. */
  lemma {:induction false} GreedyIsOptimal(starts: seq<nat>, from: nat, until: int, duration: int, buffer: int)
    requires duration >= 1 && buffer >= 0 && Placement(starts, from, until, duration, buffer)
    ensures |starts| <= |SlotStarts(from, until, duration, buffer)|
    ensures Placement(SlotStarts(from, until, duration, buffer), from, until, duration, buffer)
  {
    var step := duration + buffer;
    var cells := seq(|starts|, i requires 0 <= i < |starts| => Cell(starts[i], from, step));
    forall i | 0 <= i < |cells| ensures 0 <= cells[i] < |SlotStarts(from, until, duration, buffer)| {
      CellInRange(starts[i], from, until, duration, buffer);
    }
    forall i, j | 0 <= i < j < |cells| ensures cells[i] != cells[j] {
      CellApart(starts[i], starts[j], from, step);
    }
    Pigeonhole(cells, |SlotStarts(from, until, duration, buffer)|);
  }

  datatype Slot = Slot(startsAt: string, endsAt: string, available: bool)

  function FormatIso(date: string, time: string): string {
    date + "T" + time + ":00+05:30"
  }

  function SlotAt(date: string, start: nat, duration: nat): Slot {
    Slot(FormatIso(date, MinutesToTimeString(start)), FormatIso(date, MinutesToTimeString(start + duration)), true)
  }

  /** The slots are the given starts, each written out by `render`. */
  ghost predicate Renders(slots: seq<Slot>, starts: seq<nat>, render: nat -> Slot) {
    |slots| == |starts| && forall i :: 0 <= i < |starts| ==> slots[i] == render(starts[i])
  }

  /** Start minutes of all slots of a day, window after window. */
  function DayStarts(windows: seq<Span>, duration: int, buffer: int): (r: seq<nat>)
    requires duration >= 1 && buffer >= 0
    ensures forall i :: 0 <= i < |r| ==> InSomeWindow(windows, r[i], duration)
  {
    if windows == [] then []
    else
      var init, last := windows[..|windows| - 1], windows[|windows| - 1];
      assert forall x :: InSomeWindow(init, x, duration) ==> InSomeWindow(windows, x, duration);
      assert last in windows;
      DayStarts(init, duration, buffer) + SlotStarts(last.start, last.end, duration, buffer)
  }

  ghost predicate InSomeWindow(windows: seq<Span>, start: int, duration: int) {
    exists w :: w in windows && w.start <= start && start + duration <= w.end
  }

  /** Half-open slots of equal length that share no minute, in either order. */
  ghost predicate Apart(starts: seq<nat>, duration: int) {
    forall i, j :: 0 <= i < j < |starts| ==> starts[i] + duration <= starts[j] || starts[j] + duration <= starts[i]
  }

  /** All slots of a day are pairwise disjoint, across windows in any order. */
  lemma {:induction false} DaySlotsApart(windows: seq<Span>, duration: int, buffer: int)
    requires duration >= 1 && buffer >= 0
    requires forall i, j :: 0 <= i < j < |windows| ==> Disjoint(windows[i], windows[j])
    ensures Apart(DayStarts(windows, duration, buffer), duration)
  {
    if windows != [] {
      var n := |windows| - 1;
      var init, last := windows[..n], windows[n];
      DaySlotsApart(init, duration, buffer);
      var before := DayStarts(init, duration, buffer);
      var own := SlotStarts(last.start, last.end, duration, buffer);
      forall i, j | 0 <= i < |before| && 0 <= j < |own|
        ensures before[i] + duration <= own[j] || own[j] + duration <= before[i]
      {
        assert InSomeWindow(init, before[i], duration);
        WindowsApart(init, last, before[i], own[j], duration);
      }
      ApartConcat(before, own, duration);
    }
  }

  lemma WindowsApart(init: seq<Span>, last: Span, x: nat, y: nat, duration: int)
    requires duration >= 1 && InSomeWindow(init, x, duration) && last.start <= y && y + duration <= last.end
    requires forall w :: w in init ==> Disjoint(w, last)
    ensures x + duration <= y || y + duration <= x
  {
  }

  lemma ApartConcat(xs: seq<nat>, ys: seq<nat>, duration: int)
    requires Apart(xs, duration) && Apart(ys, duration)
    requires forall i, j :: 0 <= i < |xs| && 0 <= j < |ys| ==> xs[i] + duration <= ys[j] || ys[j] + duration <= xs[i]
    ensures Apart(xs + ys, duration)
  {
  }

  /** The day's starts are exactly the starts of every window that fit. */
  lemma {:induction false} DayExact(windows: seq<Span>, duration: int, buffer: int, x: nat)
    requires duration >= 1 && buffer >= 0
    ensures x in DayStarts(windows, duration, buffer) <==>
      exists w, k: nat :: w in windows && SlotOf(w, k, x, duration, buffer)
  {
    if windows != [] {
      var n := |windows| - 1;
      assert windows == windows[..n] + [windows[n]];
      DayExact(windows[..n], duration, buffer, x);
      WindowExact(windows[n], duration, buffer, x);
    }
  }

  ghost predicate Inside(w: Span, x: int, duration: int) {
    w.start <= x && x + duration <= w.end
  }

  /** Starts inside the windows, any two in one window a slot and a buffer apart. */
  ghost predicate DayPlacement(starts: set<nat>, windows: seq<Span>, duration: int, buffer: int) {
    && (forall x :: x in starts ==> InSomeWindow(windows, x, duration))
    && (forall x, y, w :: x in starts && y in starts && x < y && w in windows && Inside(w, x, duration) && Inside(w, y, duration) ==>
          x + duration + buffer <= y)
  }

  ghost function Elements(xs: seq<nat>): set<nat> {
    set x | x in xs
  }

  lemma {:induction false} Enumerate(s: set<nat>) returns (xs: seq<nat>)
    ensures |xs| == |s| && (forall i :: 0 <= i < |xs| ==> xs[i] in s)
    ensures forall i, j :: 0 <= i < j < |xs| ==> xs[i] != xs[j]
    decreases |s|
  {
    if s == {} {
      return [];
    }
    var x :| x in s;
    var rest := Enumerate(s - {x});
    return rest + [x];
  }

  /** No placement over the whole day has more slots than the loops generate. */
  lemma {:induction false} DayGreedyIsOptimal(starts: set<nat>, windows: seq<Span>, duration: int, buffer: int)
    requires duration >= 1 && buffer >= 0 && DayPlacement(starts, windows, duration, buffer)
    ensures |starts| <= |DayStarts(windows, duration, buffer)|
    decreases |windows|
  {
    if windows == [] {
      assert starts == {};
      return;
    }
    var n := |windows| - 1;
    var init, last := windows[..n], windows[n];
    assert windows == init + [last];
    var own := set x | x in starts && Inside(last, x, duration);
    WindowBound(own, last, duration, buffer);
    DayGreedyIsOptimal(starts - own, init, duration, buffer);
    assert starts == own + (starts - own);
  }

  lemma {:induction false} WindowBound(own: set<nat>, w: Span, duration: int, buffer: int)
    requires duration >= 1 && buffer >= 0 && forall x :: x in own ==> Inside(w, x, duration)
    requires forall x, y :: x in own && y in own && x < y ==> x + duration + buffer <= y
    ensures |own| <= |SlotStarts(w.start, w.end, duration, buffer)|
  {
    var xs := Enumerate(own);
    GreedyIsOptimal(xs, w.start, w.end, duration, buffer);
  }

  /** With disjoint windows the loops' starts are such a placement themselves. */
  lemma {:induction false} DayGreedyPlaces(windows: seq<Span>, duration: int, buffer: int)
    requires duration >= 1 && buffer >= 0
    requires forall i, j :: 0 <= i < j < |windows| ==> Disjoint(windows[i], windows[j])
    ensures DayPlacement(Elements(DayStarts(windows, duration, buffer)), windows, duration, buffer)
    decreases |windows|
  {
    var all := DayStarts(windows, duration, buffer);
    forall x | x in all ensures InSomeWindow(windows, x, duration) {
    }
    if windows != [] {
      var n := |windows| - 1;
      var init, last := windows[..n], windows[n];
      assert windows == init + [last];
      DayGreedyPlaces(init, duration, buffer);
      var before, own := DayStarts(init, duration, buffer), SlotStarts(last.start, last.end, duration, buffer);
      forall x, y, w | x in all && y in all && x < y && w in windows && Inside(w, x, duration) && Inside(w, y, duration)
        ensures x + duration + buffer <= y
      {
        SameWindow(init, last, w, x, duration, before, own);
        SameWindow(init, last, w, y, duration, before, own);
        if w in init && x in before && y in before {
          assert x in Elements(before) && y in Elements(before);
        }
      }
    }
  }

  /** A start lies in the last window exactly if it was generated there. */
  lemma SameWindow(init: seq<Span>, last: Span, w: Span, x: nat, duration: int, before: seq<nat>, own: seq<nat>)
    requires duration >= 1 && (forall v :: v in init ==> Disjoint(v, last)) && (w in init || w == last)
    requires Inside(w, x, duration) && (x in before || x in own)
    requires forall y :: y in before ==> InSomeWindow(init, y, duration)
    requires forall y :: y in own ==> Inside(last, y, duration)
    ensures if x in own then w !in init && w == last && x !in before else w in init && w != last && x in before
  {
  }

  // ---------------------------------------------------------------- the stored calendar

  /** What slot generation and validation need of a provider's service. */
  datatype ServiceTerms = ServiceTerms(isActive: bool, durationMinutes: int, bufferMinutes: int)

  /** The least duration plus buffer of the active services, if there are any. */
  function MinRequired(services: seq<ServiceTerms>): (m: Option<int>)
    ensures m.None? <==> forall t :: t in services ==> !t.isActive
    ensures m.Some? ==> exists t :: t in services && t.isActive && t.durationMinutes + t.bufferMinutes == m.value
    ensures m.Some? ==> forall t :: t in services && t.isActive ==> m.value <= t.durationMinutes + t.bufferMinutes
  {
    if services == [] then None
    else
      var first := services[0];
      var rest := MinRequired(services[1..]);
      assert services == [first] + services[1..];
      if !first.isActive then rest
      else
        var need := first.durationMinutes + first.bufferMinutes;
        if rest.None? || need <= rest.value then Some(need) else rest
  }

  ghost predicate ValidRows(rows: seq<Interval>) {
    forall i :: 0 <= i < |rows| ==> ValidInterval(rows[i])
  }

  function Spans(rows: seq<Interval>): (s: seq<Span>)
    ensures |s| == |rows| && forall i :: 0 <= i < |rows| ==> s[i] == ToSpan(rows[i])
  {
    seq(|rows|, i requires 0 <= i < |rows| => ToSpan(rows[i]))
  }

  /** Whatever function reads the texts, equal texts give equal minutes. */
  lemma MappedTexts(s: seq<Span>, f: string -> nat)
    requires forall i :: 0 <= i < |s| ==> s[i].start == f(s[i].row.startTime) && s[i].end == f(s[i].row.endTime)
    ensures TextsDecide(s)
  {
  }

  lemma SpansReadTexts(rows: seq<Interval>)
    requires ValidRows(rows)
    ensures TextsDecide(Spans(rows)) && forall w :: w in Spans(rows) ==> 0 <= w.weekday <= 6
  {
    var s := Spans(rows);
    forall i | 0 <= i < |s| ensures 0 <= s[i].weekday <= 6 {
      assert ValidInterval(rows[i]);
    }
    MappedTexts(s, Minutes);
  }

  /** `findByProviderIdAndWeekday`, up to order. */
  function OpenOnDay(s: seq<Span>, weekday: int): (r: seq<Span>)
    ensures forall w :: w in r <==> w in s && w.weekday == weekday && w.row.isAvailable
  {
    if s == [] then []
    else
      assert s == [s[0]] + s[1..];
      (if s[0].weekday == weekday && s[0].row.isAvailable then [s[0]] else []) + OpenOnDay(s[1..], weekday)
  }

  lemma {:induction false} OpenOnDayDisjoint(s: seq<Span>, weekday: int)
    requires DayDisjoint(s)
    ensures forall i, j :: 0 <= i < j < |OpenOnDay(s, weekday)| ==> Disjoint(OpenOnDay(s, weekday)[i], OpenOnDay(s, weekday)[j])
  {
    if s != [] {
      var rest := OpenOnDay(s[1..], weekday);
      forall i, j | 0 <= i < j < |s[1..]| && s[1..][i].weekday == s[1..][j].weekday ensures Disjoint(s[1..][i], s[1..][j]) {
        assert s[i + 1] == s[1..][i] && s[j + 1] == s[1..][j];
      }
      OpenOnDayDisjoint(s[1..], weekday);
      forall j | 0 <= j < |rest| && s[0].weekday == weekday ensures Disjoint(s[0], rest[j]) {
        assert rest[j] in s[1..];
        var k :| 0 <= k < |s[1..]| && s[1..][k] == rest[j];
        assert s[k + 1] == rest[j];
      }
    }
  }

  /** The text is this minute of the date, written with two-digit hours and minutes and the fixed offset. */
  ghost predicate Spells(text: string, date: string, minutes: nat) {
    exists clock :: ClockText(clock) && |clock| == 5 && TimeToMinutes(clock) == minutes && text == date + "T" + clock + ":00+05:30"
  }

  /** The slots are available and spell out their starts and ends. */
  ghost predicate Shows(slots: seq<Slot>, date: string, starts: seq<nat>, duration: nat) {
    |slots| == |starts| && forall i :: 0 <= i < |starts| ==>
      slots[i].available && Spells(slots[i].startsAt, date, starts[i]) && Spells(slots[i].endsAt, date, starts[i] + duration)
  }

  /** Start number `k` of an open window of that weekday. */
  ghost predicate OnOffer(spans: seq<Span>, weekday: int, w: Span, k: nat, x: int, duration: int, buffer: int) {
    w in spans && w.weekday == weekday && w.row.isAvailable && SlotOf(w, k, x, duration, buffer)
  }

  /** Every start that fits an open window of the weekday and no other, no two overlapping, as many as any placement has. */
  ghost predicate BestOfDay(starts: seq<nat>, spans: seq<Span>, weekday: int, duration: int, buffer: int) {
    && (forall x: nat :: x in starts <==> exists w, k: nat :: OnOffer(spans, weekday, w, k, x, duration, buffer))
    && Apart(starts, duration)
    && (forall others :: DayPlacement(others, OpenOnDay(spans, weekday), duration, buffer) ==> |others| <= |starts|)
  }

  lemma {:induction false} DayIsBest(spans: seq<Span>, weekday: int, duration: int, buffer: int)
    requires duration >= 1 && buffer >= 0 && DayDisjoint(spans)
    ensures BestOfDay(DayStarts(OpenOnDay(spans, weekday), duration, buffer), spans, weekday, duration, buffer)
  {
    var windows := OpenOnDay(spans, weekday);
    OpenOnDayDisjoint(spans, weekday);
    DaySlotsApart(windows, duration, buffer);
    forall x: nat
      ensures x in DayStarts(windows, duration, buffer) <==> exists w, k: nat :: OnOffer(spans, weekday, w, k, x, duration, buffer)
    {
      DayExact(windows, duration, buffer, x);
      if w, k: nat :| OnOffer(spans, weekday, w, k, x, duration, buffer) {
        assert w in windows && SlotOf(w, k, x, duration, buffer);
      }
      if w, k: nat :| w in windows && SlotOf(w, k, x, duration, buffer) {
        assert OnOffer(spans, weekday, w, k, x, duration, buffer);
      }
    }
    forall others | DayPlacement(others, windows, duration, buffer)
      ensures |others| <= |DayStarts(windows, duration, buffer)|
    {
      DayGreedyIsOptimal(others, windows, duration, buffer);
    }
  }

  lemma SlotSpells(date: string, start: nat)
    requires start < 1440
    ensures Spells(FormatIso(date, MinutesToTimeString(start)), date, start)
  {
    TimeRoundTrip(start);
    assert FormatIso(date, MinutesToTimeString(start)) == date + "T" + MinutesToTimeString(start) + ":00+05:30";
  }

  lemma {:induction false} SlotsShow(rows: seq<Interval>, weekday: int, slots: seq<Slot>, date: string, starts: seq<nat>, duration: nat)
    requires ValidRows(rows) && Renders(slots, starts, (start: nat) => SlotAt(date, start, duration))
    requires forall i :: 0 <= i < |starts| ==> InSomeWindow(OpenOnDay(Spans(rows), weekday), starts[i], duration)
    ensures Shows(slots, date, starts, duration)
  {
    forall i | 0 <= i < |starts|
      ensures slots[i].available && Spells(slots[i].startsAt, date, starts[i]) && Spells(slots[i].endsAt, date, starts[i] + duration)
    {
      var w :| w in OpenOnDay(Spans(rows), weekday) && w.start <= starts[i] && starts[i] + duration <= w.end;
      var k :| 0 <= k < |rows| && Spans(rows)[k] == w;
      assert ValidInterval(rows[k]);
      HourMinuteBound(rows[k].endTime);
      SlotSpells(date, starts[i]);
      SlotSpells(date, starts[i] + duration);
    }
  }

  datatype SlotReply = PastDate | NoSuchService | SlotsFound(slots: seq<Slot>)

  class Calendar {
    var stored: map<ProviderId, seq<Interval>>

    /** Stored rows never overlap on a weekday. */
    ghost predicate Valid()
      reads this
    {
      forall p :: p in stored ==> ValidRows(stored[p]) && DayDisjoint(Spans(stored[p]))
    }

    constructor ()
      ensures Valid() && stored == map[]
    {
      stored := map[];
    }

    function RowsOf(provider: ProviderId): (rows: seq<Interval>)
      reads this
    {
      if provider in stored then stored[provider] else []
    }

    /** `setAvailibity`: the new rows replace all old ones, or nothing changes. */
    method SetAvailability(provider: ProviderId, services: seq<ServiceTerms>,
                           schedules: seq<Interval>) returns (v: Verdict)
      requires Valid() && ValidRows(schedules)
      modifies this
      ensures Valid()
      ensures v.Accepted? <==> Acceptable(Spans(schedules), MinRequired(services))
      ensures stored == if v.Accepted? then old(stored)[provider := schedules] else old(stored)
    {
      SpansReadTexts(schedules);
      v := ValidateSchedules(Spans(schedules), MinRequired(services));
      if v.Accepted? {
        stored := stored - {provider};
        stored := stored[provider := schedules];
      }
    }

    /**
     `generateSlot`: the slots of all open windows of the day, spelled out. Every start that fits is there and no
     other, none overlap, and no placement over the day has more.
     */
    method GenerateSlots(provider: ProviderId, date: string, day: int, now: int, service: Option<ServiceTerms>)
      returns (reply: SlotReply)
      requires Valid()
      requires service.Some? ==> service.value.durationMinutes >= 1 && service.value.bufferMinutes >= 0
      ensures reply.PastDate? <==> day < UtcMidnight(now)
      ensures reply.NoSuchService? <==> day >= UtcMidnight(now) && (service.None? || !service.value.isActive)
      ensures reply.SlotsFound? ==>
        var duration, buffer := service.value.durationMinutes, service.value.bufferMinutes;
        exists starts ::
          && BestOfDay(starts, Spans(RowsOf(provider)), UtcWeekday(day), duration, buffer)
          && Shows(reply.slots, date, starts, duration)
    {
      if day < UtcMidnight(now) {
        return PastDate;
      }
      if service.None? || !service.value.isActive {
        return NoSuchService;
      }
      var weekday := UtcWeekday(day);
      var duration, buffer := service.value.durationMinutes, service.value.bufferMinutes;
      assert ValidRows(RowsOf(provider)) && DayDisjoint(Spans(RowsOf(provider)));
      var windows := OpenOnDay(Spans(RowsOf(provider)), weekday);
      var render := (start: nat) => SlotAt(date, start, duration);
      var slots := SlotsIn(render, windows, duration, buffer);
      DayIsBest(Spans(RowsOf(provider)), weekday, duration, buffer);
      SlotsShow(RowsOf(provider), weekday, slots, date, DayStarts(windows, duration, buffer), duration);
      return SlotsFound(slots);
    }
  }

  /** The inner loop: the slots of one window. */
  method WindowSlots(render: nat -> Slot, window: Span, duration: int, buffer: int) returns (slots: seq<Slot>)
    requires duration >= 1 && buffer >= 0
    ensures Renders(slots, SlotStarts(window.start, window.end, duration, buffer), render)
  {
    slots := [];
    ghost var starts := [];
    var currentStart: nat := window.start;
    while currentStart + duration <= window.end
      invariant starts + SlotStarts(currentStart, window.end, duration, buffer)
                == SlotStarts(window.start, window.end, duration, buffer)
      invariant Renders(slots, starts, render)
      decreases window.end - currentStart
    {
      slots := slots + [render(currentStart)];
      starts := starts + [currentStart];
      currentStart := currentStart + duration + buffer;
    }
    assert starts == SlotStarts(window.start, window.end, duration, buffer);
  }

  /** The outer loop over the windows of the day. */
  method SlotsIn(render: nat -> Slot, windows: seq<Span>, duration: int, buffer: int) returns (slots: seq<Slot>)
    requires duration >= 1 && buffer >= 0
    ensures Renders(slots, DayStarts(windows, duration, buffer), render)
  {
    slots := [];
    var k := 0;
    while k < |windows|
      invariant 0 <= k <= |windows|
      invariant Renders(slots, DayStarts(windows[..k], duration, buffer), render)
    {
      var own := WindowSlots(render, windows[k], duration, buffer);
      slots := slots + own;
      assert windows[..k + 1][..k] == windows[..k];
      k := k + 1;
    }
    assert windows[..k] == windows;
  }
}
