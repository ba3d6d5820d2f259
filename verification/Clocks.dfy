/** Timezone-aware datetimes: the proleptic Gregorian calendar, the instant a datetime denotes, and
    its ISO 8601 text. */
module Clocks {
  import opened Records
  import opened Texts

  // offset: from UTC, in seconds
  datatype Clock = Clock(year: nat, month: nat, day: nat, hour: nat, minute: nat, second: nat, micro: nat, offset: int)

  predicate Leap(year: nat) { year % 4 == 0 && (year % 100 != 0 || year % 400 == 0) }

  function DaysIn(year: nat, month: nat): nat {
    if month == 2 then (if Leap(year) then 29 else 28) else if month in {4, 6, 9, 11} then 30 else 31
  }

  predicate IsOffset(offset: int) { -86400 < offset < 86400 }

  predicate IsDate(year: nat, month: nat, day: nat) {
    1 <= year <= 9999 && 1 <= month <= 12 && 1 <= day <= DaysIn(year, month)
  }

  predicate Valid(c: Clock) {
    IsDate(c.year, c.month, c.day) && c.hour < 24 && c.minute < 60 && c.second < 60 && c.micro < 1_000_000 && IsOffset(c.offset)
  }

  // The calendar, from year 1 to year 9999.
  lemma DatesAre(year: nat, month: nat, day: nat)
    ensures IsDate(year, month, day) <==>
            && 0 < year < 10_000 && day > 0
            && (|| (month in {1, 3, 5, 7, 8, 10, 12} && day < 32)
                || (month in {4, 6, 9, 11} && day < 31)
                || (month == 2 && day < 29)
                || (month == 2 && day == 29 && (year % 400 == 0 || (year % 4 == 0 && year % 100 > 0))))
  {
    LeapDivides(year);
  }

  // ---- instants ----

  function DaysOf(year: nat): nat { if Leap(year) then 366 else 365 }

  // Days before 1 January of a year, and before the first of a month.
  function BeforeYear(year: nat): nat {
    Fewer(year);
    365 * year + Multiples(year, 4) - Multiples(year, 100) + Multiples(year, 400)
  }

  // How many multiples of k lie below a year.
  function Multiples(year: nat, k: nat): nat
    requires k > 0
  {
    (year + (k - 1)) / k
  }

  lemma Fewer(year: nat)
    ensures Multiples(year, 100) <= Multiples(year, 4)
  {}

  function BeforeMonth(year: nat, month: nat): nat {
    match month
    case 0 => 0
    case 1 => 0
    case 2 => 31
    case 3 => 31 + DaysIn(year, 2)
    case 4 => 62 + DaysIn(year, 2)
    case 5 => 92 + DaysIn(year, 2)
    case 6 => 123 + DaysIn(year, 2)
    case 7 => 153 + DaysIn(year, 2)
    case 8 => 184 + DaysIn(year, 2)
    case 9 => 215 + DaysIn(year, 2)
    case 10 => 245 + DaysIn(year, 2)
    case 11 => 276 + DaysIn(year, 2)
    case 12 => 306 + DaysIn(year, 2)
    case _ => 337 + DaysIn(year, 2)
  }

  lemma NextYear(year: nat)
    ensures BeforeYear(year + 1) == BeforeYear(year) + DaysOf(year)
  {
    NextMultiple(year, 4);
    NextMultiple(year, 100);
    NextMultiple(year, 400);
    LeapDivides(year);
    hide Multiples;
  }

  lemma LeapDivides(year: nat)
    ensures Leap(year) <==> (year % 4 == 0 && year % 100 != 0) || year % 400 == 0
    ensures (year % 400 == 0 ==> year % 100 == 0) && (year % 100 == 0 ==> year % 4 == 0)
  {
    HundredDivides(year);
    FourHundredDivides(year);
  }

  lemma HundredDivides(year: nat)
    ensures year % 100 == 0 ==> year % 4 == 0
  {
    if year % 100 == 0 {
      var q := year / 100;
      assert year == 100 * q;
      FourTimes(25 * q);
    }
  }

  lemma FourTimes(m: nat)
    ensures 4 * m % 4 == 0
  {}

  lemma FourHundredDivides(year: nat)
    ensures year % 400 == 0 ==> year % 100 == 0
  {
    if year % 400 == 0 {
      var q := year / 400;
      assert year == 400 * q;
      HundredTimes(4 * q);
    }
  }

  lemma HundredTimes(m: nat)
    ensures 100 * m % 100 == 0
  {}

  lemma NextMultiple(year: nat, k: nat)
    requires k in {4, 100, 400}
    ensures Multiples(year + 1, k) == Multiples(year, k) + if year % k == 0 then 1 else 0
  {
    if k == 4 {
      assert (year + 1 + 3) / 4 == year / 4 + 1;
    } else if k == 100 {
      assert (year + 1 + 99) / 100 == year / 100 + 1;
    } else {
      assert (year + 1 + 399) / 400 == year / 400 + 1;
    }
  }

  lemma NextMonth(year: nat, month: nat)
    requires 1 <= month <= 12
    ensures BeforeMonth(year, month + 1) == BeforeMonth(year, month) + DaysIn(year, month)
  {}

  function DayNumber(year: nat, month: nat, day: nat): nat { BeforeYear(year) + BeforeMonth(year, month) + day }

  function MicroOfDay(c: Clock): nat { ((c.hour * 60 + c.minute) * 60 + c.second) * 1_000_000 + c.micro }

  const DAY := 86_400_000_000

  // Microseconds, counted on the UTC clock.
  function Instant(c: Clock): Time {
    DayNumber(c.year, c.month, c.day) * DAY + MicroOfDay(c) - c.offset * 1_000_000
  }

  lemma {:induction false} YearsAdvance(a: nat, b: nat)
    requires a < b
    ensures BeforeYear(a) + DaysOf(a) <= BeforeYear(b)
  {
    NextYear(b - 1);
    if a < b - 1 { YearsAdvance(a, b - 1); }
  }

  lemma {:induction false} MonthsAdvance(year: nat, a: nat, b: nat)
    requires 1 <= a < b <= 13
    ensures BeforeMonth(year, a) + DaysIn(year, a) <= BeforeMonth(year, b)
  {
    NextMonth(year, b - 1);
    hide BeforeMonth;
    if a < b - 1 { MonthsAdvance(year, a, b - 1); }
  }

  lemma YearIsLong(year: nat)
    ensures BeforeMonth(year, 13) == DaysOf(year)
  {}

  lemma DayFitsYear(year: nat, month: nat, day: nat)
    requires IsDate(year, month, day)
    ensures 1 <= BeforeMonth(year, month) + day <= DaysOf(year)
  {
    YearIsLong(year);
    MonthsAdvance(year, month, 13);
  }

  lemma DayNumberIdentifies(y: nat, m: nat, d: nat, y': nat, m': nat, d': nat)
    requires IsDate(y, m, d) && IsDate(y', m', d') && DayNumber(y, m, d) == DayNumber(y', m', d')
    ensures y == y' && m == m' && d == d'
  {
    DayFitsYear(y, m, d);
    DayFitsYear(y', m', d');
    hide BeforeYear, BeforeMonth, DaysIn, Leap, DaysOf;
    if y < y' { YearsAdvance(y, y'); }
    if y' < y { YearsAdvance(y', y); }
    if m < m' { MonthsAdvance(y, m, m'); }
    if m' < m { MonthsAdvance(y, m', m); }
  }

  lemma MicroIdentifies(a: Clock, b: Clock)
    requires Valid(a) && Valid(b) && MicroOfDay(a) == MicroOfDay(b)
    ensures a.hour == b.hour && a.minute == b.minute && a.second == b.second && a.micro == b.micro
  {
    hide IsDate;
    assert MicroOfDay(a) / 1_000_000 == (a.hour * 60 + a.minute) * 60 + a.second;
    assert MicroOfDay(b) / 1_000_000 == (b.hour * 60 + b.minute) * 60 + b.second;
  }

  // At one offset, one clock shows an instant.
  lemma InstantIdentifies(a: Clock, b: Clock)
    requires Valid(a) && Valid(b) && a.offset == b.offset
    ensures Instant(a) == Instant(b) <==> a == b
  {
    if Instant(a) == Instant(b) {
      MicroFits(a);
      MicroFits(b);
      hide DayNumber, MicroOfDay, DaysIn;
      assert DayNumber(a.year, a.month, a.day) == DayNumber(b.year, b.month, b.day);
      DayNumberIdentifies(a.year, a.month, a.day, b.year, b.month, b.day);
      MicroIdentifies(a, b);
    }
  }

  lemma MicroFits(c: Clock)
    requires Valid(c)
    ensures MicroOfDay(c) < DAY
  {}

  // ---- ISO 8601 text ----

  const DATE_TIME: seq<Slot> := [Slot(4, "-"), Slot(2, "-"), Slot(2, "T"), Slot(2, ":"), Slot(2, ":"), Slot(2, "")]
  const FRACTION: seq<Slot> := [Slot(6, "")]
  const OFFSET: seq<Slot> := [Slot(2, ":"), Slot(2, "")]
  const SECONDS: seq<Slot> := [Slot(2, "")]

  function Fraction(micro: nat): string { if micro == 0 then "" else "." + WriteSlots([micro], FRACTION) }

  // "+HH:MM", with ":SS" where the offset has seconds.
  function OffsetText(offset: int): string
    requires IsOffset(offset)
  {
    var m := if offset < 0 then -offset else offset;
    (if offset < 0 then "-" else "+") + (WriteSlots([m / 3600, m / 60 % 60], OFFSET)
                                         + if m % 60 == 0 then "" else ":" + WriteSlots([m % 60], SECONDS))
  }

  function WallText(c: Clock): string {
    WriteSlots([c.year, c.month, c.day, c.hour, c.minute, c.second], DATE_TIME) + Fraction(c.micro)
  }

  // datetime.isoformat()
  function Iso(c: Clock): string
    requires IsOffset(c.offset)
  {
    WallText(c) + OffsetText(c.offset)
  }

  // The text of a datetime in JSON output of the input models, which writes UTC as Z.
  function IsoZ(c: Clock): string
    requires IsOffset(c.offset)
  {
    WallText(c) + if c.offset == 0 then "Z" else OffsetText(c.offset)
  }

  function ReadOffset(t: string): Option<int> {
    if t == "Z" then Some(0)
    else if t == "" || (t[0] != '+' && t[0] != '-') || ReadSlots(t[1..], OFFSET).None? then None
    else
      var (values, rest) := ReadSlots(t[1..], OFFSET).value;
      var seconds := if rest == "" then Some(0) else ReadSeconds(rest);
      if |values| != 2 || seconds.None? then None
      else
        var m := values[0] * 3600 + values[1] * 60 + seconds.value;
        Some(if t[0] == '-' then -m else m)
  }

  function ReadSeconds(t: string): Option<int> {
    if t == "" || t[0] != ':' || ReadSlots(t[1..], SECONDS).None? then None
    else
      var (values, rest) := ReadSlots(t[1..], SECONDS).value;
      if |values| != 1 || rest != "" then None else Some(values[0])
  }

  function ReadFraction(t: string): Option<(nat, string)> {
    if t == "" || t[0] != '.' then Some((0, t))
    else if ReadSlots(t[1..], FRACTION).None? then None
    else
      var (values, rest) := ReadSlots(t[1..], FRACTION).value;
      if |values| != 1 then None else Some((values[0], rest))
  }

  // A datetime with a time zone; None for any other text.
  function ReadClock(t: string): Option<Clock> {
    if ReadSlots(t, DATE_TIME).None? then None
    else
      var (v, rest) := ReadSlots(t, DATE_TIME).value;
      var fraction := ReadFraction(rest);
      if |v| != 6 || fraction.None? then None
      else
        var offset := ReadOffset(fraction.value.1);
        if offset.None? then None
        else
          var c := Clock(v[0], v[1], v[2], v[3], v[4], v[5], fraction.value.0, offset.value);
          if Valid(c) then Some(c) else None
  }

  lemma Widths()
    ensures Pow10(2) == 100 && Pow10(4) == 10_000 && Pow10(6) == 1_000_000
  {}

  lemma OffsetReadsBack(offset: int)
    requires IsOffset(offset)
    ensures ReadOffset(OffsetText(offset)) == Some(offset)
    ensures OffsetText(offset) != "" && OffsetText(offset)[0] != '.'
  {
    hide WriteSlots, ReadSlots;
    Widths();
    var m := if offset < 0 then -offset else offset;
    var rest := if m % 60 == 0 then "" else ":" + WriteSlots([m % 60], SECONDS);
    assert OffsetText(offset)[1..] == WriteSlots([m / 3600, m / 60 % 60], OFFSET) + rest;
    SlotsReadBack([m / 3600, m / 60 % 60], OFFSET, rest);
    if m % 60 != 0 {
      assert rest[1..] == WriteSlots([m % 60], SECONDS) + "";
      SlotsReadBack([m % 60], SECONDS, "");
    }
    HourMinuteSecond(m);
  }

  lemma HourMinuteSecond(m: nat)
    ensures m / 3600 * 3600 + m / 60 % 60 * 60 + m % 60 == m
  {
    assert m / 3600 == m / 60 / 60;
  }

  lemma FractionReadsBack(micro: nat, rest: string)
    requires micro < 1_000_000 && rest != "" && rest[0] != '.'
    ensures ReadFraction(Fraction(micro) + rest) == Some((micro, rest))
  {
    hide WriteSlots, ReadSlots;
    Widths();
    if micro == 0 {
      assert Fraction(micro) + rest == rest;
    } else {
      assert (Fraction(micro) + rest)[1..] == WriteSlots([micro], FRACTION) + rest;
      SlotsReadBack([micro], FRACTION, rest);
    }
  }

  lemma WallReadsBack(c: Clock, rest: string)
    requires Valid(c) && rest != "" && rest[0] != '.'
    ensures ReadSlots(WallText(c) + rest, DATE_TIME)
         == Some(([c.year, c.month, c.day, c.hour, c.minute, c.second], Fraction(c.micro) + rest))
  {
    hide WriteSlots, ReadSlots, Fraction;
    Widths();
    DaysFit(c);
    var v := [c.year, c.month, c.day, c.hour, c.minute, c.second];
    assert WallText(c) + rest == WriteSlots(v, DATE_TIME) + (Fraction(c.micro) + rest);
    SlotsReadBack(v, DATE_TIME, Fraction(c.micro) + rest);
  }

  lemma DaysFit(c: Clock)
    requires Valid(c)
    ensures c.day < 100
  {}

  lemma ClockReadsBack(c: Clock, offsetText: string)
    requires Valid(c) && offsetText != "" && offsetText[0] != '.' && ReadOffset(offsetText) == Some(c.offset)
    ensures ReadClock(WallText(c) + offsetText) == Some(c)
  {
    hide ReadSlots, ReadFraction, ReadOffset, WallText, IsDate;
    WallReadsBack(c, offsetText);
    FractionReadsBack(c.micro, offsetText);
  }

  lemma SlotsFrom(values: seq<nat>, layout: seq<Slot>, k: nat)
    requires |values| == |layout| && k < |values|
    ensures WriteSlots(values[k..], layout[k..])
         == Padded(values[k], layout[k].width) + (layout[k].after + WriteSlots(values[k + 1..], layout[k + 1..]))
  {
    hide Padded;
    assert values[k..][1..] == values[k + 1..] && layout[k..][1..] == layout[k + 1..];
  }

  // YYYY-MM-DDTHH:MM:SS
  lemma DateTimeText(c: Clock)
    ensures WriteSlots([c.year, c.month, c.day, c.hour, c.minute, c.second], DATE_TIME) ==
            Padded(c.year, 4) + ("-" + (Padded(c.month, 2) + ("-" + (Padded(c.day, 2) + ("T" +
            (Padded(c.hour, 2) + (":" + (Padded(c.minute, 2) + (":" + (Padded(c.second, 2) + ("" + "")))))))))))
  {
    var v, l := [c.year, c.month, c.day, c.hour, c.minute, c.second], DATE_TIME;
    SlotsEnd();
    hide Padded, WriteSlots;
    assert v[0..] == v && l[0..] == l && v[6..] == [] && l[6..] == [];
    SlotsFrom(v, l, 0);
    SlotsFrom(v, l, 1);
    SlotsFrom(v, l, 2);
    SlotsFrom(v, l, 3);
    SlotsFrom(v, l, 4);
    SlotsFrom(v, l, 5);
  }

  lemma SlotsEnd()
    ensures WriteSlots([], []) == ""
  {}

  // Both texts are read back to the datetime, its offset included.
  lemma IsoReadsBack(c: Clock)
    requires Valid(c)
    ensures ReadClock(Iso(c)) == Some(c) && ReadClock(IsoZ(c)) == Some(c)
  {
    OffsetReadsBack(c.offset);
    ClockReadsBack(c, OffsetText(c.offset));
    if c.offset == 0 { ClockReadsBack(c, "Z"); }
  }

  lemma IsoIdentifies(a: Clock, b: Clock)
    requires Valid(a) && Valid(b)
    ensures Iso(a) == Iso(b) <==> a == b
  {
    IsoReadsBack(a);
    IsoReadsBack(b);
  }
}
