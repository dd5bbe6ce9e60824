/** Calendar days, the YYYY-MM-DD keys the booking code stores and compares,
    and the weekday rule the nightly price depends on.

    A calendar day is an integer day number: day 0 is 1970-01-01, a Thursday.
    Every JavaScript `Date` the source builds at midnight stands for one such
    number; time of day, time zones and daylight saving are not modelled. */
module Calendar {

  import opened Wrappers

  /** What `new Date(text)` gives for a date field of a request or a booking:
      the text as received and the calendar day it parses to, or None when
      the parse yields an Invalid Date. */
  datatype DateText = DateText(text: string, day: Option<int>)

  /** `getDay()`: 0 = Sunday, 1 = Monday, ..., 6 = Saturday. */
  function Weekday(d: int): (w: int)
    ensures 0 <= w < 7
  {
    (d + 4) % 7
  }

  lemma WeekdayPeriodic(d: int)
    ensures Weekday(d + 7) == Weekday(d)
  {
  }

  lemma WeekdayNext(d: int)
    ensures Weekday(d + 1) == if Weekday(d) == 6 then 0 else Weekday(d) + 1
  {
  }

  predicate IsDigit(c: char) {
    '0' <= c <= '9'
  }

  /** The pattern /^\d{4}-\d{2}-\d{2}$/. */
  predicate IsDateFormat(s: string) {
    && |s| == 10
    && IsDigit(s[0]) && IsDigit(s[1]) && IsDigit(s[2]) && IsDigit(s[3])
    && s[4] == '-'
    && IsDigit(s[5]) && IsDigit(s[6])
    && s[7] == '-'
    && IsDigit(s[8]) && IsDigit(s[9])
  }

  /** `s.slice(0, 10)`. */
  function Take10(s: string): (r: string)
    ensures |r| == if |s| < 10 then |s| else 10
    ensures r == s[..|r|]
  {
    if |s| <= 10 then s else s[..10]
  }

  lemma Take10Idempotent(s: string)
    ensures Take10(Take10(s)) == Take10(s)
  {
  }

  function DigitChar(k: int): (c: char)
    requires 0 <= k < 10
    ensures IsDigit(c)
  {
    ['0', '1', '2', '3', '4', '5', '6', '7', '8', '9'][k]
  }

  /** The decimal digit of n >= 0 in the place `unit` (1, 10, 100, ...). */
  function DigitAt(n: nat, unit: nat): (c: char)
    requires unit > 0
    ensures IsDigit(c)
  {
    DigitChar((n / unit) % 10)
  }

  /** The last two, four or six decimal digits of n >= 0, zero-padded. */
  function Pad2(n: nat): string {
    [DigitAt(n, 10), DigitAt(n, 1)]
  }

  function Pad4(n: nat): string {
    [DigitAt(n, 1000), DigitAt(n, 100), DigitAt(n, 10), DigitAt(n, 1)]
  }

  function Pad6(n: nat): string {
    [DigitAt(n, 100000), DigitAt(n, 10000)] + Pad4(n)
  }

  /** Proleptic Gregorian (year, month, day) of a day number, by the
      era-based civil-from-days conversion. Integer division here is floor
      division, which Dafny's `/` is for a positive divisor. */
  function CivilFromDays(dayNumber: int): (int, int, int) {
    var z := dayNumber + 719468;
    var era := z / 146097;
    var doe := z - era * 146097;
    var yoe := (doe - doe / 1460 + doe / 36524 - doe / 146096) / 365;
    var y := yoe + era * 400;
    var doy := doe - (365 * yoe + yoe / 4 - yoe / 100);
    var mp := (5 * doy + 2) / 153;
    var d := doy - (153 * mp + 2) / 5 + 1;
    var m := if mp < 10 then mp + 3 else mp - 9;
    (if m <= 2 then y + 1 else y, m, d)
  }

  function Abs(n: int): nat {
    if n < 0 then -n else n
  }

  /** The date part of `toISOString()`: a four-digit year inside 0..9999,
      otherwise a sign and six digits, then -MM-DD. */
  function IsoDate(y: int, m: int, d: int): string {
    var year := if 0 <= y <= 9999 then Pad4(y)
                else (if y < 0 then "-" else "+") + Pad6(Abs(y));
    year + "-" + Pad2(Abs(m)) + "-" + Pad2(Abs(d))
  }

  /** `d.toISOString().slice(0, 10)` for the midnight of day `dayNumber`. */
  function DayKey(dayNumber: int): (key: string)
    ensures |key| == 10
  {
    var (y, m, d) := CivilFromDays(dayNumber);
    Take10(IsoDate(y, m, d))
  }

  /** Inside years 0..9999 a day key matches the YYYY-MM-DD pattern, so it is
      a key the blocked-date operations accept. */
  lemma DayKeyIsDateFormat(dayNumber: int)
    requires 0 <= CivilFromDays(dayNumber).0 <= 9999
    ensures IsDateFormat(DayKey(dayNumber))
  {
    var (y, m, d) := CivilFromDays(dayNumber);
    var key := IsoDate(y, m, d);
    assert key == Pad4(y) + "-" + Pad2(Abs(m)) + "-" + Pad2(Abs(d));
    assert |key| == 10;
  }

  /** The civil dates of two sample days: 2024-03-08 (the Friday of the sample
      stay in the pricing rules) and 2024-06-01 (the sample booking of the
      availability rules). */
  lemma SampleCivilDates()
    ensures CivilFromDays(19790) == (2024, 3, 8)
    ensures CivilFromDays(19875) == (2024, 6, 1)
  {
    assert 739258 / 146097 == 5 && 739343 / 146097 == 5;
    assert (8773 - 8773 / 1460 + 8773 / 36524 - 8773 / 146096) / 365 == 24;
    assert (8858 - 8858 / 1460 + 8858 / 36524 - 8858 / 146096) / 365 == 24;
    assert (5 * 7 + 2) / 153 == 0 && (153 * 0 + 2) / 5 == 0;
    assert (5 * 92 + 2) / 153 == 3 && (153 * 3 + 2) / 5 == 92;
  }

  lemma SampleDayKeys()
    ensures DayKey(19790) == "2024-03-08" && Weekday(19790) == 5
    ensures DayKey(19875) == "2024-06-01"
  {
    SampleCivilDates();
    SampleIsoDates();
  }

  /** The Thursday and the Saturday around the sample Friday: 2024-03-07
      and 2024-03-09. */
  lemma SampleDayKeysAround()
    ensures DayKey(19789) == "2024-03-07" && DayKey(19791) == "2024-03-09"
  {
    SampleCivilDatesAround();
    SampleIsoDatesAround();
  }

  lemma SampleCivilDatesAround()
    ensures CivilFromDays(19789) == (2024, 3, 7)
    ensures CivilFromDays(19791) == (2024, 3, 9)
  {
    assert 739257 / 146097 == 5 && 739259 / 146097 == 5;
    assert (8772 - 8772 / 1460 + 8772 / 36524 - 8772 / 146096) / 365 == 24;
    assert (8774 - 8774 / 1460 + 8774 / 36524 - 8774 / 146096) / 365 == 24;
    assert (5 * 6 + 2) / 153 == 0 && (5 * 8 + 2) / 153 == 0 && (153 * 0 + 2) / 5 == 0;
  }

  lemma SampleIsoDatesAround()
    ensures IsoDate(2024, 3, 7) == "2024-03-07"
    ensures IsoDate(2024, 3, 9) == "2024-03-09"
  {
    assert 2024 / 1000 % 10 == 2 && 2024 / 100 % 10 == 0 && 2024 / 10 % 10 == 2 && 2024 / 1 % 10 == 4;
    assert Pad4(2024) == "2024";
    assert Pad2(3) == "03" && Pad2(7) == "07" && Pad2(9) == "09";
  }

  lemma SampleIsoDates()
    ensures IsoDate(2024, 3, 8) == "2024-03-08"
    ensures IsoDate(2024, 6, 1) == "2024-06-01"
  {
    assert 2024 / 1000 % 10 == 2 && 2024 / 100 % 10 == 0 && 2024 / 10 % 10 == 2 && 2024 / 1 % 10 == 4;
    assert Pad4(2024) == "2024";
    assert Pad2(3) == "03" && Pad2(8) == "08";
    assert Pad2(6) == "06" && Pad2(1) == "01";
  }
}
