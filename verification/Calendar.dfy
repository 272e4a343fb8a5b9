/** The proleptic Gregorian calendar, RFC 3339 timestamps and the order of both. */
module Calendar {
  import opened Common

  predicate Leap(year: int) {
    year % 4 == 0 && (year % 100 != 0 || year % 400 == 0)
  }

  function DaysIn(year: int, month: nat): (d: nat)
    ensures 28 <= d <= 31
  {
    if month == 2 then if Leap(year) then 29 else 28
    else if month == 4 || month == 6 || month == 9 || month == 11 then 30 else 31
  }

  /** Days of the year before the first of a month. */
  function DaysBefore(year: int, month: nat): nat {
    if month <= 1 then 0 else DaysBefore(year, month - 1) + DaysIn(year, month - 1)
  }

  lemma {:induction false} MonthsAccumulate(year: int, a: nat, b: nat)
    requires 1 <= a < b
    ensures DaysBefore(year, a) + DaysIn(year, a) <= DaysBefore(year, b)
  {
    if a + 1 < b { MonthsAccumulate(year, a, b - 1); }
  }

  /** Days before the first of January of a year. */
  function DaysBeforeYear(year: nat): nat {
    if year == 0 then 0 else DaysBeforeYear(year - 1) + DaysBefore(year - 1, 13)
  }

  lemma {:induction false} YearsAccumulate(a: nat, b: nat)
    requires a < b
    ensures DaysBeforeYear(a) + DaysBefore(a, 13) <= DaysBeforeYear(b)
  {
    if a + 1 < b { YearsAccumulate(a, b - 1); }
  }

  /** A wall-clock reading to the second, as RFC 3339 writes it. */
  datatype Civil = Civil(year: nat, month: nat, day: nat, hour: nat, minute: nat, second: nat)

  predicate Good(c: Civil) {
    && c.year <= 9999 && 1 <= c.month <= 12 && 1 <= c.day <= DaysIn(c.year, c.month)
    && c.hour < 24 && c.minute < 60 && c.second < 60
  }

  function Days(c: Civil): int {
    DaysBeforeYear(c.year) + DaysBefore(c.year, c.month) + c.day
  }

  /** Seconds since the last day before year 0. */
  function Seconds(c: Civil): int {
    Days(c) * 86400 + c.hour * 3600 + c.minute * 60 + c.second
  }

  predicate DayBefore(a: Civil, b: Civil) {
    a.year < b.year || (a.year == b.year && (a.month < b.month || (a.month == b.month && a.day < b.day)))
  }

  predicate SameDay(a: Civil, b: Civil) {
    a.year == b.year && a.month == b.month && a.day == b.day
  }

  predicate ClockBefore(a: Civil, b: Civil) {
    a.hour < b.hour || (a.hour == b.hour && (a.minute < b.minute || (a.minute == b.minute && a.second < b.second)))
  }

  /** Field by field, most significant first. */
  predicate Earlier(a: Civil, b: Civil) {
    DayBefore(a, b) || (SameDay(a, b) && ClockBefore(a, b))
  }

  lemma DayOrder(a: Civil, b: Civil)
    requires Good(a) && Good(b) && DayBefore(a, b)
    ensures Days(a) < Days(b)
  {
    if a.year < b.year {
      MonthsAccumulate(a.year, a.month, 13);
      YearsAccumulate(a.year, b.year);
    } else if a.month < b.month {
      MonthsAccumulate(a.year, a.month, b.month);
    }
  }

  lemma EarlierIsSooner(a: Civil, b: Civil)
    requires Good(a) && Good(b) && Earlier(a, b)
    ensures Seconds(a) < Seconds(b)
  {
    if DayBefore(a, b) { DayOrder(a, b); }
  }

  /** The order of the fields is the order of time. */
  lemma FieldOrderIsTimeOrder(a: Civil, b: Civil)
    requires Good(a) && Good(b)
    ensures Earlier(a, b) <==> Seconds(a) < Seconds(b)
  {
    if Earlier(a, b) { EarlierIsSooner(a, b); }
    else if a != b { EarlierIsSooner(b, a); }
  }

  // ----------------------------------------------------------------------- text

  /** Go's string order: byte by byte, a proper prefix first. */
  predicate Less(a: string, b: string) {
    b != "" && (a == "" || a[0] < b[0] || (a[0] == b[0] && Less(a[1..], b[1..])))
  }

  function Digit(n: nat): char
    requires n < 10
  {
    '0' + n as char
  }

  function Two(n: nat): (s: string)
    requires n < 100
    ensures |s| == 2
  {
    [Digit(n / 10), Digit(n % 10)]
  }

  function Four(n: nat): (s: string)
    requires n < 10000
    ensures |s| == 4
  {
    Two(n / 100) + Two(n % 100)
  }

  /** The zone part: "Z" for a zero offset, else a sign and hours and minutes. */
  function Zone(offset: int): string
    requires -1440 < offset < 1440
  {
    if offset == 0 then "Z"
    else
      var m := if offset < 0 then -offset else offset;
      [if offset < 0 then '-' else '+'] + Two(m / 60) + ":" + Two(m % 60)
  }

  function Clock(c: Civil): (s: string)
    requires Good(c)
    ensures |s| == 8
  {
    Two(c.hour) + (":" + (Two(c.minute) + (":" + Two(c.second))))
  }

  function Date(c: Civil): (s: string)
    requires Good(c)
    ensures |s| == 10
  {
    Four(c.year) + ("-" + (Two(c.month) + ("-" + Two(c.day))))
  }

  /** time.RFC3339, for a clock `offset` minutes ahead of UTC. */
  function Format(c: Civil, offset: int): string
    requires Good(c) && -1440 < offset < 1440
  {
    Date(c) + ("T" + (Clock(c) + Zone(offset)))
  }

  lemma {:induction false} LessConcat(a: string, s: string, b: string, t: string)
    requires |a| == |b|
    ensures Less(a + s, b + t) <==> Less(a, b) || (a == b && Less(s, t))
  {
    if a == "" {
      assert a + s == s && b + t == t;
    } else {
      assert (a + s)[1..] == a[1..] + s && (b + t)[1..] == b[1..] + t;
      assert a == b <==> a[0] == b[0] && a[1..] == b[1..] by { assert a == [a[0]] + a[1..] && b == [b[0]] + b[1..]; }
      LessConcat(a[1..], s, b[1..], t);
    }
  }

  lemma TwoOrder(m: nat, n: nat)
    requires m < 100 && n < 100
    ensures (Less(Two(m), Two(n)) <==> m < n) && (Two(m) == Two(n) <==> m == n)
  {
    var a, b := [Digit(m % 10)], [Digit(n % 10)];
    assert Two(m)[1..] == a && Two(n)[1..] == b && a[1..] == "" && b[1..] == "";
    assert Less(a, b) <==> m % 10 < n % 10;
    assert Two(m) == Two(n) ==> Two(m)[0] == Two(n)[0] && Two(m)[1] == Two(n)[1];
  }

  lemma FourOrder(m: nat, n: nat)
    requires m < 10000 && n < 10000
    ensures (Less(Four(m), Four(n)) <==> m < n) && (Four(m) == Four(n) <==> m == n)
  {
    TwoOrder(m / 100, n / 100);
    TwoOrder(m % 100, n % 100);
    LessConcat(Two(m / 100), Two(m % 100), Two(n / 100), Two(n % 100));
    assert Four(m)[..2] == Two(m / 100) && Four(m)[2..] == Two(m % 100);
    assert Four(n)[..2] == Two(n / 100) && Four(n)[2..] == Two(n % 100);
  }

  /** A fixed-width field, then a separator, then the rest. */
  lemma FieldThenRest(a: string, s: string, b: string, t: string, sep: char)
    requires |a| == |b|
    ensures Less(a + ([sep] + s), b + ([sep] + t)) <==> Less(a, b) || (a == b && Less(s, t))
    ensures a + ([sep] + s) == b + ([sep] + t) <==> a == b && s == t
  {
    LessConcat(a, [sep] + s, b, [sep] + t);
    LessConcat([sep], s, [sep], t);
    var u, v := a + ([sep] + s), b + ([sep] + t);
    assert u[..|a|] == a && u[|a| + 1..] == s && v[..|b|] == b && v[|b| + 1..] == t;
  }

  lemma ClockOrder(a: Civil, b: Civil)
    requires Good(a) && Good(b)
    ensures Less(Clock(a), Clock(b)) <==> ClockBefore(a, b)
    ensures Clock(a) == Clock(b) <==> a.hour == b.hour && a.minute == b.minute && a.second == b.second
  {
    TwoOrder(a.hour, b.hour);
    TwoOrder(a.minute, b.minute);
    TwoOrder(a.second, b.second);
    FieldThenRest(Two(a.minute), Two(a.second), Two(b.minute), Two(b.second), ':');
    FieldThenRest(Two(a.hour), Two(a.minute) + (":" + Two(a.second)),
                  Two(b.hour), Two(b.minute) + (":" + Two(b.second)), ':');
  }

  lemma DateOrder(a: Civil, b: Civil)
    requires Good(a) && Good(b)
    ensures Less(Date(a), Date(b)) <==> DayBefore(a, b)
    ensures Date(a) == Date(b) <==> SameDay(a, b)
  {
    FourOrder(a.year, b.year);
    TwoOrder(a.month, b.month);
    TwoOrder(a.day, b.day);
    FieldThenRest(Two(a.month), Two(a.day), Two(b.month), Two(b.day), '-');
    FieldThenRest(Four(a.year), Two(a.month) + ("-" + Two(a.day)),
                  Four(b.year), Two(b.month) + ("-" + Two(b.day)), '-');
  }

  /** How two timestamps compare as text: by fields, then by the text of the zone. */
  lemma TextOrder(a: Civil, o: int, b: Civil, p: int)
    requires Good(a) && Good(b) && -1440 < o < 1440 && -1440 < p < 1440
    ensures Less(Format(a, o), Format(b, p)) <==> Earlier(a, b) || (a == b && Less(Zone(o), Zone(p)))
  {
    DateOrder(a, b);
    ClockOrder(a, b);
    FieldThenRest(Date(a), Clock(a) + Zone(o), Date(b), Clock(b) + Zone(p), 'T');
    LessConcat(Clock(a), Zone(o), Clock(b), Zone(p));
  }

  // --------------------------------------------------- the calendar and the text, checked

  /** The lengths of the months. */
  lemma MonthLengths(year: int, month: nat)
    requires 1 <= month <= 12
    ensures var february := if year % 4 == 0 && (year % 100 != 0 || year % 400 == 0) then 29 else 28;
            DaysIn(year, month) == [31, february, 31, 30, 31, 30, 31, 31, 30, 31, 30, 31][month - 1]
  {
  }

  lemma YearLength(year: int)
    ensures DaysBefore(year, 13) == if Leap(year) then 366 else 365
  {
    var february := DaysIn(year, 2);
    assert DaysBefore(year, 2) == 31 && DaysBefore(year, 3) == 31 + february;
    assert DaysBefore(year, 4) == 62 + february && DaysBefore(year, 5) == 92 + february;
    assert DaysBefore(year, 6) == 123 + february && DaysBefore(year, 7) == 153 + february;
    assert DaysBefore(year, 8) == 184 + february && DaysBefore(year, 9) == 215 + february;
    assert DaysBefore(year, 10) == 245 + february && DaysBefore(year, 11) == 276 + february;
    assert DaysBefore(year, 12) == 306 + february;
  }

  /** Leap days before a year: those of every fourth year, less the hundreds, plus the
      four hundreds. */
  function LeapDays(year: nat): int {
    (year + 3) / 4 - (year + 99) / 100 + (year + 399) / 400
  }

  lemma OneMoreYear(year: nat)
    ensures LeapDays(year + 1) == LeapDays(year) + if Leap(year) then 1 else 0
  {
    assert (year + 4) / 4 == (year + 3) / 4 + if year % 4 == 0 then 1 else 0;
    assert (year + 100) / 100 == (year + 99) / 100 + if year % 100 == 0 then 1 else 0;
    assert (year + 400) / 400 == (year + 399) / 400 + if year % 400 == 0 then 1 else 0;
    assert year % 400 == 0 ==> year % 100 == 0;
    assert year % 100 == 0 ==> year % 4 == 0;
  }

  /** Years have 365 days and their leap days. */
  lemma {:induction false} DaysOfYears(year: nat)
    ensures DaysBeforeYear(year) == 365 * year + LeapDays(year)
  {
    if year > 0 {
      DaysOfYears(year - 1);
      YearLength(year - 1);
      OneMoreYear(year - 1);
    }
  }

  lemma ValueOfTwo(t: string)
    requires |t| == 2
    ensures ValueOf(t) == 10 * (t[0] as int - '0' as int) + (t[1] as int - '0' as int)
  {
    assert t[..1][..0] == "";
    assert ValueOf(t[..1]) == t[0] as int - '0' as int;
  }

  lemma TwoReadsBack(n: nat)
    requires n < 100
    ensures ValueOf(Two(n)) == n
  {
    ValueOfTwo(Two(n));
  }

  lemma FourReadsBack(n: nat)
    requires n < 10000
    ensures ValueOf(Four(n)) == n
  {
    var t := Four(n);
    assert t[..3][..2] == Two(n / 100) && t[2..] == Two(n % 100);
    TwoReadsBack(n / 100);
    TwoReadsBack(n % 100);
    ValueOfTwo(t[2..]);
    assert ValueOf(t[..3]) == 10 * ValueOf(t[..3][..2]) + (t[2] as int - '0' as int);
  }

  lemma DateReadsBack(c: Civil)
    requires Good(c)
    ensures var t := Date(c);
            && ValueOf(t[..4]) == c.year && t[4] == '-' && ValueOf(t[5..7]) == c.month && t[7] == '-'
            && ValueOf(t[8..]) == c.day
  {
    FourReadsBack(c.year);
    TwoReadsBack(c.month);
    TwoReadsBack(c.day);
    assert Date(c)[..4] == Four(c.year) && Date(c)[5..7] == Two(c.month) && Date(c)[8..] == Two(c.day);
  }

  lemma ClockReadsBack(c: Civil)
    requires Good(c)
    ensures var t := Clock(c);
            && ValueOf(t[..2]) == c.hour && t[2] == ':' && ValueOf(t[3..5]) == c.minute && t[5] == ':'
            && ValueOf(t[6..]) == c.second
  {
    TwoReadsBack(c.hour);
    TwoReadsBack(c.minute);
    TwoReadsBack(c.second);
    assert Clock(c)[..2] == Two(c.hour) && Clock(c)[3..5] == Two(c.minute) && Clock(c)[6..] == Two(c.second);
  }

  lemma ZoneReadsBack(offset: int)
    requires -1440 < offset < 1440
    ensures var t := Zone(offset);
            if offset == 0 then t == "Z"
            else && |t| == 6 && t[0] == (if offset > 0 then '+' else '-') && t[3] == ':' && ValueOf(t[4..]) < 60
                 && 60 * ValueOf(t[1..3]) + ValueOf(t[4..]) == if offset > 0 then offset else -offset
  {
    if offset != 0 {
      var m := if offset < 0 then -offset else offset;
      TwoReadsBack(m / 60);
      TwoReadsBack(m % 60);
      assert Zone(offset)[1..3] == Two(m / 60) && Zone(offset)[4..] == Two(m % 60);
    }
  }

  lemma FormatParts(c: Civil, offset: int)
    requires Good(c) && -1440 < offset < 1440
    ensures var t := Format(c, offset);
            |t| >= 20 && t[..10] == Date(c) && t[10] == 'T' && t[11..19] == Clock(c) && t[19..] == Zone(offset)
  {
  }

  /** A timestamp is the date, a "T", the clock and the zone, and each reads back. */
  lemma FormatReadsBack(c: Civil, offset: int)
    requires Good(c) && -1440 < offset < 1440
    ensures var t := Format(c, offset);
            && |t| >= 20 && t[10] == 'T'
            && ValueOf(t[..10][..4]) == c.year && t[4] == '-' && ValueOf(t[..10][5..7]) == c.month && t[7] == '-'
            && ValueOf(t[..10][8..]) == c.day && ValueOf(t[11..19][..2]) == c.hour && t[13] == ':'
            && ValueOf(t[11..19][3..5]) == c.minute && t[16] == ':' && ValueOf(t[11..19][6..]) == c.second
            && t[19..] == Zone(offset)
  {
    var t := Format(c, offset);
    FormatParts(c, offset);
    DateReadsBack(c);
    ClockReadsBack(c);
    assert t[4] == t[..10][4] && t[7] == t[..10][7] && t[13] == t[11..19][2] && t[16] == t[11..19][5];
  }

  /** A proper prefix, or smaller where the two first differ. */
  ghost predicate Before(a: string, b: string) {
    || (a <= b && a != b)
    || exists k: nat {:trigger a[k]} :: k < |a| && k < |b| && a[..k] == b[..k] && a[k] < b[k]
  }

  lemma BeforeTail(a: string, b: string)
    requires a != "" && b != "" && a[0] == b[0]
    ensures Before(a, b) <==> Before(a[1..], b[1..])
  {
    assert a == [a[0]] + a[1..] && b == [b[0]] + b[1..];
    if k: nat :| k < |a| && k < |b| && a[..k] == b[..k] && a[k] < b[k] {
      assert a[1..][..k - 1] == a[..k][1..] && b[1..][..k - 1] == b[..k][1..];
      assert a[1..][k - 1] < b[1..][k - 1];
    }
    if k: nat :| k < |a[1..]| && k < |b[1..]| && a[1..][..k] == b[1..][..k] && a[1..][k] < b[1..][k] {
      assert a[..k + 1] == [a[0]] + a[1..][..k] && b[..k + 1] == [b[0]] + b[1..][..k];
      assert a[k + 1] < b[k + 1];
    }
  }

  /** Less is the order of texts. */
  lemma {:induction false} LessIsBefore(a: string, b: string)
    ensures Less(a, b) <==> Before(a, b)
    decreases |a|
  {
    if a != "" && b != "" {
      if a[0] == b[0] {
        BeforeTail(a, b);
        LessIsBefore(a[1..], b[1..]);
      } else if a[0] < b[0] {
        assert a[..0] == b[..0];
      }
    }
  }
}
