/**
 Clock texts such as "9:05" and "17:30", and their minutes of the day.
 */
module Times {

  predicate IsDigit(c: char) {
    '0' <= c <= '9'
  }

  predicate AllDigits(s: string) {
    forall i :: 0 <= i < |s| ==> IsDigit(s[i])
  }

  /** `Number` on a text of decimal digits. */
  function ParseDecimal(s: string): nat
    requires AllDigits(s)
  {
    if s == [] then 0 else ParseDecimal(s[..|s| - 1]) * 10 + (s[|s| - 1] as int - '0' as int)
  }

  /** `Number.prototype.toString` on a natural number. */
  function ToDecimal(n: nat): (s: string)
    ensures AllDigits(s)
    ensures ParseDecimal(s) == n
  {
    var digit := ('0' as int + n % 10) as char;
    if n < 10 then [digit]
    else
      var s := ToDecimal(n / 10) + [digit];
      assert s[..|s| - 1] == ToDecimal(n / 10);
      s
  }

  function PadStart2(s: string): string {
    if |s| == 0 then "00" else if |s| == 1 then "0" + s else s
  }

  lemma {:induction false} PadStart2Keeps(s: string)
    requires AllDigits(s)
    ensures AllDigits(PadStart2(s)) && ParseDecimal(PadStart2(s)) == ParseDecimal(s)
    ensures |s| <= 2 ==> |PadStart2(s)| == 2
  {
    if |s| == 0 {
      assert "00"[..1] == "0" && "0"[..0] == "";
    } else if |s| == 1 {
      var t := "0" + s;
      assert t[..1] == "0" && "0"[..0] == "" && s[..0] == "";
    }
  }

  function FirstColon(s: string, from: nat := 0): (k: nat)
    requires from <= |s| && ':' in s[from..]
    ensures from <= k < |s| && s[k] == ':'
    ensures forall j :: from <= j < k ==> s[j] != ':'
    decreases |s| - from
  {
    if s[from] == ':' then from else FirstColon(s, from + 1)
  }

  /** Digits, a colon, digits. */
  predicate ClockText(s: string) {
    ':' in s[0..] && AllDigits(s[..FirstColon(s)]) && AllDigits(s[FirstColon(s) + 1..])
  }

  lemma {:induction false} ClockTextAt(s: string, k: nat)
    requires k < |s| && s[k] == ':' && AllDigits(s[..k]) && AllDigits(s[k + 1..])
    ensures ClockText(s) && FirstColon(s) == k
  {
    assert s[0..][k] == ':';
    assert forall j :: 0 <= j < k ==> IsDigit(s[..k][j]);
  }

  /** `timeToMinutes`: the text before the colon counts hours, the text after it minutes. */
  function TimeToMinutes(s: string): nat
    requires ClockText(s)
  {
    ParseDecimal(s[..FirstColon(s)]) * 60 + ParseDecimal(s[FirstColon(s) + 1..])
  }

  function MinutesToTimeString(total: nat): string {
    PadStart2(ToDecimal(total / 60)) + ":" + PadStart2(ToDecimal(total % 60))
  }

  lemma {:induction false} ShortDecimal(n: nat)
    requires n < 100
    ensures |ToDecimal(n)| <= 2
  {
    assert n >= 10 ==> |ToDecimal(n / 10)| == 1;
  }

  /** Printing minutes as a clock text and reading it back is the identity; below 100 hours both parts have two digits. */
  lemma TimeRoundTrip(total: nat)
    ensures ClockText(MinutesToTimeString(total))
    ensures TimeToMinutes(MinutesToTimeString(total)) == total
    ensures total < 6000 ==> |MinutesToTimeString(total)| == 5 && MinutesToTimeString(total)[2] == ':'
  {
    ShortDecimal(total % 60);
    if total < 6000 {
      ShortDecimal(total / 60);
    }
    var hh, mm := PadStart2(ToDecimal(total / 60)), PadStart2(ToDecimal(total % 60));
    PadStart2Keeps(ToDecimal(total / 60));
    PadStart2Keeps(ToDecimal(total % 60));
    JoinedClock(hh, mm);
    assert MinutesToTimeString(total) == hh + [':'] + mm;
  }

  lemma {:induction false} JoinedClock(hh: string, mm: string)
    requires AllDigits(hh) && AllDigits(mm)
    ensures ClockText(hh + [':'] + mm)
    ensures TimeToMinutes(hh + [':'] + mm) == ParseDecimal(hh) * 60 + ParseDecimal(mm)
  {
    var s := hh + [':'] + mm;
    assert s[..|hh|] == hh && s[|hh| + 1..] == mm;
    ClockTextAt(s, |hh|);
  }

  /** The pattern the availability DTO accepts: one or two hour digits up to 23, two minute digits up to 59. */
  predicate HourMinute(s: string) {
    || (|s| == 4 && IsDigit(s[0]) && s[1] == ':' && '0' <= s[2] <= '5' && IsDigit(s[3]))
    || (|s| == 5 && (('0' <= s[0] <= '1' && IsDigit(s[1])) || (s[0] == '2' && '0' <= s[1] <= '3'))
        && s[2] == ':' && '0' <= s[3] <= '5' && IsDigit(s[4]))
  }

  lemma {:induction false} ParseShort(s: string)
    requires AllDigits(s) && 1 <= |s| <= 2
    ensures |s| == 1 ==> ParseDecimal(s) == s[0] as int - '0' as int
    ensures |s| == 2 ==> ParseDecimal(s) == (s[0] as int - '0' as int) * 10 + (s[1] as int - '0' as int)
  {
    assert ParseDecimal("") == 0 && [s[0]][..0] == "";
    assert ParseDecimal([s[0]]) == s[0] as int - '0' as int;
    assert s == if |s| == 2 then [s[0], s[1]] else [s[0]];
    if |s| == 2 {
      assert s[..1] == [s[0]];
    }
  }

  function Digit(c: char): int {
    c as int - '0' as int
  }

  /** Every accepted clock text denotes the minute of the day its digits spell. */
  lemma HourMinuteBound(s: string)
    requires HourMinute(s)
    ensures ClockText(s) && TimeToMinutes(s) < 1440
    ensures |s| == 4 ==> TimeToMinutes(s) == Digit(s[0]) * 60 + Digit(s[2]) * 10 + Digit(s[3])
    ensures |s| == 5 ==> TimeToMinutes(s) == (Digit(s[0]) * 10 + Digit(s[1])) * 60 + Digit(s[3]) * 10 + Digit(s[4])
  {
    var k := |s| - 3;
    ClockTextAt(s, k);
    ParseShort(s[..k]);
    ParseShort(s[k + 1..]);
  }

  /** A weekly availability row. */
  datatype Interval = Interval(weekday: int, startTime: string, endTime: string, isAvailable: bool)

  /** Bounds the availability DTO imposes on a row. */
  predicate ValidInterval(w: Interval) {
    0 <= w.weekday <= 6 && HourMinute(w.startTime) && HourMinute(w.endTime)
  }

  /** An availability row with its clock texts read as minutes of the day. */
  datatype Span = Span(weekday: int, start: nat, end: nat, row: Interval)

  function Minutes(s: string): nat {
    if ClockText(s) then TimeToMinutes(s) else 0
  }

  function ToSpan(w: Interval): Span {
    Span(w.weekday, Minutes(w.startTime), Minutes(w.endTime), w)
  }
}
