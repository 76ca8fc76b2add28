// Relative dates (app/consolidator/temporal.py:97-244) over the proleptic
// Gregorian calendar, weeks counted from Monday.
module Temporal {
  import opened Rows

  datatype Date = Date(year: int, month: int, day: int)

  const MIN_YEAR := 1
  const MAX_YEAR := 9999

  predicate Leap(y: int) {
    y % 4 == 0 && (y % 100 != 0 || y % 400 == 0)
  }

  function DaysIn(y: int, m: int): (n: int)
    ensures 28 <= n <= 31
  {
    if m == 2 then (if Leap(y) then 29 else 28)
    else if m == 4 || m == 6 || m == 9 || m == 11 then 30 else 31
  }

  predicate Valid(d: Date) {
    MIN_YEAR <= d.year <= MAX_YEAR && 1 <= d.month <= 12 && 1 <= d.day <= DaysIn(d.year, d.month)
  }

  const FIRST := Date(1, 1, 1)
  const LAST := Date(9999, 12, 31)
  // date.max.toordinal(); see InRange.
  const MAX_ORDINAL := 3652059

  // The day after.
  function Next(d: Date): Date {
    if d.day < DaysIn(d.year, d.month) then d.(day := d.day + 1)
    else if d.month < 12 then Date(d.year, d.month + 1, 1)
    else Date(d.year + 1, 1, 1)
  }

  function DaysBeforeYear(y: int): int {
    365 * (y - 1) + (y - 1) / 4 - (y - 1) / 100 + (y - 1) / 400
  }

  // Days of the year before a month.
  function DaysBeforeMonth(y: int, m: int): int {
    (if m == 1 then 0 else if m == 2 then 31 else if m == 3 then 59 else if m == 4 then 90 else if m == 5 then 120
     else if m == 6 then 151 else if m == 7 then 181 else if m == 8 then 212 else if m == 9 then 243
     else if m == 10 then 273 else if m == 11 then 304 else 334)
    + (if m > 2 && Leap(y) then 1 else 0)
  }

  // date.toordinal: 1 January of year 1 is day 1.
  function Ordinal(d: Date): int {
    DaysBeforeYear(d.year) + DaysBeforeMonth(d.year, d.month) + d.day
  }

  lemma Quarter(n: int)
    ensures n / 4 == (n - 1) / 4 + (if n % 4 == 0 then 1 else 0)
  {
  }

  lemma Century(n: int)
    ensures n / 100 == (n - 1) / 100 + (if n % 100 == 0 then 1 else 0) && (n % 100 == 0 ==> n % 4 == 0)
  {
  }

  lemma FourCenturies(n: int)
    ensures n / 400 == (n - 1) / 400 + (if n % 400 == 0 then 1 else 0) && (n % 400 == 0 ==> n % 100 == 0)
  {
  }

  lemma YearLength(y: int)
    ensures DaysBeforeYear(y + 1) == DaysBeforeYear(y) + 365 + (if Leap(y) then 1 else 0)
    ensures DaysBeforeMonth(y, 12) + DaysIn(y, 12) == 365 + (if Leap(y) then 1 else 0)
  {
    Quarter(y);
    Century(y);
    FourCenturies(y);
  }

  // The calendar and the count agree: one day later is one more.
  lemma NextIsOneMore(d: Date)
    requires Valid(d)
    ensures Ordinal(Next(d)) == Ordinal(d) + 1 && (d != LAST ==> Valid(Next(d)))
  {
    YearLength(d.year);
  }

  lemma MonthsAhead(y: int, m: int, n: int)
    requires 1 <= m < n <= 12
    ensures 0 <= DaysBeforeMonth(y, m) && DaysBeforeMonth(y, m) + DaysIn(y, m) <= DaysBeforeMonth(y, n)
  {
  }

  lemma {:induction false} YearsAhead(y: int, z: int)
    requires y < z
    ensures DaysBeforeYear(y) + 365 + (if Leap(y) then 1 else 0) <= DaysBeforeYear(z)
    decreases z - y
  {
    YearLength(z - 1);
    if z > y + 1 {
      YearsAhead(y, z - 1);
    }
  }

  predicate Earlier(a: Date, b: Date) {
    a.year < b.year || (a.year == b.year && (a.month < b.month || (a.month == b.month && a.day < b.day)))
  }

  // The count follows the order of dates, so no two dates share a number.
  lemma OrdinalOrders(a: Date, b: Date)
    requires Valid(a) && Valid(b)
    ensures Earlier(a, b) <==> Ordinal(a) < Ordinal(b)
    ensures a == b <==> Ordinal(a) == Ordinal(b)
  {
    if Earlier(a, b) {
      EarlierIsLess(a, b);
    } else if Earlier(b, a) {
      EarlierIsLess(b, a);
    }
  }

  lemma EarlierIsLess(a: Date, b: Date)
    requires Valid(a) && Valid(b) && Earlier(a, b)
    ensures Ordinal(a) < Ordinal(b)
  {
    WithinYear(a);
    WithinYear(b);
    if a.year < b.year {
      YearsAhead(a.year, b.year);
    } else if a.month < b.month {
      MonthsAhead(a.year, a.month, b.month);
    }
  }

  lemma WithinYear(d: Date)
    requires Valid(d)
    ensures DaysBeforeYear(d.year) < Ordinal(d) <= DaysBeforeYear(d.year) + 365 + (if Leap(d.year) then 1 else 0)
  {
    YearLength(d.year);
    if d.month < 12 {
      MonthsAhead(d.year, d.month, 12);
    }
  }

  lemma FirstAndLastYear()
    ensures DaysBeforeYear(1) == 0 && DaysBeforeYear(9999) == 3651694
  {
  }

  // Day numbers run from 1 to the number of the last day.
  lemma InRange(d: Date)
    requires Valid(d)
    ensures 1 <= Ordinal(d) <= MAX_ORDINAL && (Ordinal(d) == MAX_ORDINAL ==> d == LAST)
  {
    FirstAndLastYear();
    WithinYear(d);
    if d.year > 1 {
      YearsAhead(1, d.year);
    }
    if d.year < 9999 {
      YearsAhead(d.year, 9999);
    } else if d.month < 12 {
      MonthsAhead(d.year, d.month, 12);
    }
  }

  // date.fromordinal, walking the calendar.
  function FromOrdinal(n: int): (d: Date)
    requires 1 <= n <= MAX_ORDINAL
    ensures Valid(d) && Ordinal(d) == n
    decreases n
  {
    if n == 1 then FIRST
    else
      var p := FromOrdinal(n - 1);
      InRange(p);
      NextIsOneMore(p);
      Next(p)
  }

  // date + timedelta(days): None is the OverflowError past either end.
  function AddDays(d: Date, days: int): (r: Option<Date>)
    requires Valid(d)
    ensures r.Some? <==> 1 <= Ordinal(d) + days <= MAX_ORDINAL
    ensures r.Some? ==> Valid(r.value) && Ordinal(r.value) == Ordinal(d) + days
  {
    if 1 <= Ordinal(d) + days <= MAX_ORDINAL then Some(FromOrdinal(Ordinal(d) + days)) else None
  }

  // Monday is 0.
  function Weekday(d: Date): (w: int)
    requires Valid(d)
    ensures 0 <= w < 7
  {
    (Ordinal(d) + 6) % 7
  }

  datatype Span = Span(start: Date, end: Date)

  lemma MondayOf(n: int, w: int)
    requires w == (n + 6) % 7
    ensures (n - w + 6) % 7 == 0 && (n - w + 12) % 7 == 6
    ensures n >= 1 ==> n - w >= 1
  {
  }

  lemma WeekdayIs(d: Date, n: int)
    requires Valid(d) && Ordinal(d) == n
    ensures Weekday(d) == (n + 6) % 7
  {
  }

  ghost predicate WeekAround(s: Span, n: int) {
    && Valid(s.start) && Valid(s.end) && Weekday(s.start) == 0 && Weekday(s.end) == 6
    && Ordinal(s.end) == Ordinal(s.start) + 6 && Ordinal(s.start) <= n <= Ordinal(s.end)
  }

  lemma WeekNumbers(moved: Date, start: Date, end: Date)
    requires Valid(moved) && Valid(start) && Valid(end)
    requires Ordinal(start) == Ordinal(moved) - Weekday(moved) && Ordinal(end) == Ordinal(start) + 6
    ensures WeekAround(Span(start, end), Ordinal(moved))
  {
    var n, w := Ordinal(moved), Weekday(moved);
    WeekdayIs(moved, n);
    MondayOf(n, w);
    WeekdayIs(start, n - w);
    WeekdayIs(end, n - w + 6);
  }

  lemma StartsInRange(moved: Date)
    requires Valid(moved)
    ensures 1 <= Ordinal(moved) - Weekday(moved) <= MAX_ORDINAL
  {
    InRange(moved);
    MondayOf(Ordinal(moved), Weekday(moved));
  }

  // The Monday-to-Sunday week of a date. The first day of the calendar is a
  // Monday, so only the last week runs past an end.
  function WeekOf(moved: Date): (r: Option<Span>)
    requires Valid(moved)
    ensures r.Some? <==> Ordinal(moved) - Weekday(moved) + 6 <= MAX_ORDINAL
    ensures r.Some? ==> WeekAround(r.value, Ordinal(moved))
  {
    StartsInRange(moved);
    match AddDays(moved, -Weekday(moved))
    case None => None
    case Some(start) =>
      match AddDays(start, 6)
      case None => None
      case Some(end) =>
        WeekNumbers(moved, start, end);
        Some(Span(start, end))
  }

  function Index(d: Date): int {
    d.year * 12 + d.month - 1
  }

  // Python's divmod floors, as Dafny's does for a positive divisor.
  function AddMonths(anchor: Date, months: int): Option<Date> {
    var total := Index(anchor) + months;
    var year, month := total / 12, total % 12 + 1;
    if MIN_YEAR <= year <= MAX_YEAR
    then Some(Date(year, month, if anchor.day < DaysIn(year, month) then anchor.day else DaysIn(year, month)))
    else None
  }

  datatype Unit = Day | Week | Month | Year

  // None is the exception raised when a date falls outside years 1 to 9999.
  function RangeFor(anchor: Date, unit: Unit, offset: int): Option<Span>
    requires Valid(anchor)
  {
    match unit
    case Day =>
      (match AddDays(anchor, offset)
       case None => None
       case Some(d) => Some(Span(d, d)))
    case Week =>
      (match AddDays(anchor, 7 * offset)
       case None => None
       case Some(moved) => WeekOf(moved))
    case Month =>
      (match AddMonths(anchor, offset)
       case None => None
       case Some(d) => Some(Span(d.(day := 1), d.(day := DaysIn(d.year, d.month)))))
    case Year =>
      if MIN_YEAR <= anchor.year + offset <= MAX_YEAR
      then Some(Span(Date(anchor.year + offset, 1, 1), Date(anchor.year + offset, 12, 31)))
      else None
  }

  // Shifting by months lands on a valid date, `months` months away, on the same
  // day or the last one of a shorter month, and fails only outside the years.
  lemma AddMonthsLands(anchor: Date, months: int)
    requires Valid(anchor)
    ensures AddMonths(anchor, months).Some? <==> MIN_YEAR * 12 <= Index(anchor) + months <= MAX_YEAR * 12 + 11
    ensures AddMonths(anchor, months).Some? ==>
              var d := AddMonths(anchor, months).value;
              && Valid(d) && Index(d) == Index(anchor) + months && d.day <= anchor.day
              && (d.day < anchor.day ==> d.day == DaysIn(d.year, d.month))
  {
    var total := Index(anchor) + months;
    assert total == total / 12 * 12 + total % 12;
  }

  // What each unit covers, exactly.
  ghost predicate Covers(unit: Unit, s: Span) {
    && Valid(s.start) && Valid(s.end)
    && match unit
       case Day => s.end == s.start
       case Week => Weekday(s.start) == 0 && Weekday(s.end) == 6 && Ordinal(s.end) == Ordinal(s.start) + 6
       case Month =>
         && s.start.day == 1 && s.end.day == DaysIn(s.end.year, s.end.month)
         && s.start.year == s.end.year && s.start.month == s.end.month
       case Year => s.start == Date(s.start.year, 1, 1) && s.end == Date(s.start.year, 12, 31)
  }

  lemma SevenApart(s: int, t: int, n: int)
    requires (s + 6) % 7 == 0 && (t + 6) % 7 == 0 && s <= n <= s + 6 && t <= n + 7 <= t + 6
    ensures t == s + 7
  {
    assert (t - s) % 7 == 0;
  }

  lemma NextWeekFollows(v: Span, w: Span, n: int)
    requires WeekAround(v, n) && WeekAround(w, n + 7)
    ensures Next(v.end) == w.start
  {
    SevenApart(Ordinal(v.start), Ordinal(w.start), n);
    DayAfter(v.end, w.start);
  }

  lemma WeekIsAround(anchor: Date, k: int)
    requires Valid(anchor) && RangeFor(anchor, Week, k).Some?
    ensures WeekAround(RangeFor(anchor, Week, k).value, Ordinal(anchor) + 7 * k)
  {
  }

  lemma WeekExists(anchor: Date, k: int)
    requires Valid(anchor)
    ensures var n := Ordinal(anchor) + 7 * k;
            RangeFor(anchor, Week, k).Some? <==> 1 <= n <= MAX_ORDINAL && Monday(n) + 6 <= MAX_ORDINAL
  {
    var moved := AddDays(anchor, 7 * k);
    if moved.Some? {
      WeekFits(moved.value, Ordinal(anchor) + 7 * k);
    }
  }

  lemma WeekFits(moved: Date, n: int)
    requires Valid(moved) && Ordinal(moved) == n
    ensures WeekOf(moved).Some? <==> Monday(n) + 6 <= MAX_ORDINAL
  {
    WeekdayIs(moved, n);
  }

  lemma WeeksAbut(anchor: Date, k: int)
    requires Valid(anchor) && RangeFor(anchor, Week, k).Some? && RangeFor(anchor, Week, k + 1).Some?
    ensures Next(RangeFor(anchor, Week, k).value.end) == RangeFor(anchor, Week, k + 1).value.start
  {
    WeekIsAround(anchor, k);
    WeekIsAround(anchor, k + 1);
    NextWeekFollows(RangeFor(anchor, Week, k).value, RangeFor(anchor, Week, k + 1).value, Ordinal(anchor) + 7 * k);
  }

  function Monday(n: int): int {
    n - (n + 6) % 7
  }

  lemma RangeCovers(anchor: Date, unit: Unit, offset: int)
    requires Valid(anchor) && RangeFor(anchor, unit, offset).Some?
    ensures Covers(unit, RangeFor(anchor, unit, offset).value)
  {
    match unit
    case Day =>
    case Week =>
    case Month => AddMonthsLands(anchor, offset);
    case Year =>
  }

  // Range 0 contains its anchor.
  lemma RangeZeroContains(anchor: Date, unit: Unit)
    requires Valid(anchor) && RangeFor(anchor, unit, 0).Some?
    ensures var s := RangeFor(anchor, unit, 0).value; Ordinal(s.start) <= Ordinal(anchor) <= Ordinal(s.end)
  {
    RangeCovers(anchor, unit, 0);
    var s := RangeFor(anchor, unit, 0).value;
    match unit
    case Day =>
    case Week => OrdinalOrders(anchor, AddDays(anchor, 0).value);
    case Month =>
      AddMonthsLands(anchor, 0);
      SameIndex(anchor, AddMonths(anchor, 0).value);
      OrdinalOrders(s.start, anchor);
      OrdinalOrders(anchor, s.end);
    case Year =>
      OrdinalOrders(s.start, anchor);
      OrdinalOrders(anchor, s.end);
  }

  lemma SameIndex(a: Date, b: Date)
    requires Valid(a) && Valid(b) && Index(a) == Index(b)
    ensures a.year == b.year && a.month == b.month
  {
  }

  // Consecutive ranges abut: no gap, no overlap.
  lemma RangesAbut(anchor: Date, unit: Unit, k: int)
    requires Valid(anchor) && RangeFor(anchor, unit, k).Some? && RangeFor(anchor, unit, k + 1).Some?
    ensures Next(RangeFor(anchor, unit, k).value.end) == RangeFor(anchor, unit, k + 1).value.start
  {
    var a, b := RangeFor(anchor, unit, k).value, RangeFor(anchor, unit, k + 1).value;
    match unit
    case Day => DayAfter(a.end, b.start);
    case Week =>
      WeeksAbut(anchor, k);
    case Month =>
      AddMonthsLands(anchor, k);
      AddMonthsLands(anchor, k + 1);
    case Year =>
  }

  lemma DayAfter(a: Date, b: Date)
    requires Valid(a) && Valid(b) && Ordinal(b) == Ordinal(a) + 1
    ensures Next(a) == b
  {
    NextIsOneMore(a);
    InRange(a);
    InRange(b);
    OrdinalOrders(Next(a), b);
  }

  // A range exists if and only if it stays within years 1 to 9999.
  lemma RangeExistsIff(anchor: Date, unit: Unit, k: int)
    requires Valid(anchor)
    ensures RangeFor(anchor, unit, k).Some? <==>
              match unit
              case Day => 1 <= Ordinal(anchor) + k <= MAX_ORDINAL
              case Week => 1 <= Ordinal(anchor) + 7 * k <= MAX_ORDINAL
                  && Monday(Ordinal(anchor) + 7 * k) + 6 <= MAX_ORDINAL
              case Month => MIN_YEAR * 12 <= Index(anchor) + k <= MAX_YEAR * 12 + 11
              case Year => MIN_YEAR <= anchor.year + k <= MAX_YEAR
  {
    match unit
    case Day =>
    case Week => WeekExists(anchor, k);
    case Month => AddMonthsLands(anchor, k);
    case Year =>
  }

  datatype Value = Scalar | Text(text: string) | Items(items: seq<Value>)

  // Every string of a value, depth first; objects and lists alike.
  function StringsIn(v: Value): seq<string> {
    match v
    case Scalar => []
    case Text(t) => [t]
    case Items(xs) => StringsAmong(v, |xs|)
  }

  function StringsAmong(v: Value, n: nat): seq<string>
    requires v.Items? && n <= |v.items|
    decreases v, 0, n
  {
    if n == 0 then [] else StringsAmong(v, n - 1) + StringsIn(v.items[n - 1])
  }

  datatype Expression = Expression(unit: Unit, offset: int)

  // The table of exact phrases; the matcher that finds them is a parameter.
  datatype Phrase =
    | Yesterday | Today | Tonight | Tomorrow | LastWeek | ThisWeek | NextWeek
    | LastMonth | ThisMonth | NextMonth | LastYear | ThisYear | NextYear
    | Ago(count: nat, unit: Unit) | InFuture(count: nat, unit: Unit)

  function Meaning(p: Phrase): Expression {
    match p
    case Yesterday => Expression(Day, -1)
    case Today => Expression(Day, 0)
    case Tonight => Expression(Day, 0)
    case Tomorrow => Expression(Day, 1)
    case LastWeek => Expression(Week, -1)
    case ThisWeek => Expression(Week, 0)
    case NextWeek => Expression(Week, 1)
    case LastMonth => Expression(Month, -1)
    case ThisMonth => Expression(Month, 0)
    case NextMonth => Expression(Month, 1)
    case LastYear => Expression(Year, -1)
    case ThisYear => Expression(Year, 0)
    case NextYear => Expression(Year, 1)
    case Ago(n, u) => Expression(u, -(n as int))
    case InFuture(n, u) => Expression(u, n)
  }

  function Meanings(phrases: seq<Phrase>): set<Expression> {
    if phrases == [] then {} else Meanings(phrases[..|phrases| - 1]) + {Meaning(phrases[|phrases| - 1])}
  }

  function Mentioned(texts: seq<string>, find: string -> seq<Phrase>): set<Expression> {
    if texts == [] then {}
    else Mentioned(texts[..|texts| - 1], find) + Meanings(find(texts[|texts| - 1]))
  }

  datatype Resolution = Absent | Resolved(span: Span) | OutOfCalendar

  // The loops of resolve_relative_range, with their early exit: a range comes
  // back if and only if the value names exactly one distinct expression.
  method ResolveRelativeRange(value: Value, anchor: Option<Date>, find: string -> seq<Phrase>) returns (r: Resolution)
    requires anchor.Some? ==> Valid(anchor.value)
    ensures anchor.None? || |Mentioned(StringsIn(value), find)| != 1 ==> r == Absent
    ensures forall x :: anchor.Some? && Mentioned(StringsIn(value), find) == {x} ==>
              r == (match RangeFor(anchor.value, x.unit, x.offset)
                    case None => OutOfCalendar
                    case Some(s) => Resolved(s))
  {
    if anchor == None {
      return Absent;
    }
    var texts := StringsIn(value);
    var found: set<Expression> := {};
    for i := 0 to |texts|
      invariant found == Mentioned(texts[..i], find)
    {
      MentionedNext(texts, i, find);
      var meanings := MeaningsIn(find(texts[i]));
      found := found + meanings;
      if |found| > 1 {
        MentionedGrows(texts, i + 1, find);
        Crowded(found, Mentioned(texts, find));
        return Absent;
      }
    }
    assert texts[..|texts|] == texts;
    if |found| != 1 {
      return Absent;
    }
    var x :| x in found;
    Lone(found, x);
    match RangeFor(anchor.value, x.unit, x.offset)
    case None => return OutOfCalendar;
    case Some(s) => return Resolved(s);
  }

  lemma MentionedNext(texts: seq<string>, i: nat, find: string -> seq<Phrase>)
    requires i < |texts|
    ensures Mentioned(texts[..i + 1], find) == Mentioned(texts[..i], find) + Meanings(find(texts[i]))
  {
    assert texts[..i + 1][..i] == texts[..i];
  }

  method MeaningsIn(phrases: seq<Phrase>) returns (found: set<Expression>)
    ensures found == Meanings(phrases)
  {
    found := {};
    for j := 0 to |phrases|
      invariant found == Meanings(phrases[..j])
    {
      assert phrases[..j + 1][..j] == phrases[..j];
      found := found + {Meaning(phrases[j])};
    }
    assert phrases[..|phrases|] == phrases;
  }

  lemma {:induction false} MentionedGrows(texts: seq<string>, n: nat, find: string -> seq<Phrase>)
    requires n <= |texts|
    ensures Mentioned(texts[..n], find) <= Mentioned(texts, find)
  {
    if n == |texts| {
      assert texts[..n] == texts;
    } else {
      MentionedGrows(texts[..|texts| - 1], n, find);
      assert texts[..|texts| - 1][..n] == texts[..n];
    }
  }

  lemma Crowded(a: set<Expression>, b: set<Expression>)
    requires a <= b && |a| > 1
    ensures |b| > 1
  {
    assert b == a + (b - a);
  }

  lemma Lone(s: set<Expression>, x: Expression)
    requires x in s && |s| == 1
    ensures s == {x}
  {
    assert |s - {x}| == 0;
  }

  // The instants a value spells out, in order, and when the fact is about: the
  // only one of them, or else the start of the resolved range.
  function DatesIn(texts: seq<string>, parse: string -> Option<int>): seq<int> {
    if texts == [] then []
    else
      DatesIn(texts[..|texts| - 1], parse)
      + match parse(texts[|texts| - 1])
        case None => []
        case Some(x) => [x]
  }

  function ObservedAt(value: Value, rangeStart: Option<string>, parse: string -> Option<int>): Option<int> {
    var dates := DatesIn(StringsIn(value), parse);
    if |dates| == 1 then Some(dates[0]) else if rangeStart.Some? then parse(rangeStart.value) else None
  }

  lemma {:induction false} DatesAreParsed(texts: seq<string>, parse: string -> Option<int>, x: int)
    ensures x in DatesIn(texts, parse) <==> exists i :: 0 <= i < |texts| && parse(texts[i]) == Some(x)
  {
    if texts != [] {
      var n := |texts| - 1;
      DatesAreParsed(texts[..n], parse, x);
      if i :| 0 <= i < |texts| && parse(texts[i]) == Some(x) {
        assert i < n ==> texts[..n][i] == texts[i];
      }
      if i :| 0 <= i < n && parse(texts[..n][i]) == Some(x) {
        assert texts[i] == texts[..n][i];
      }
    }
  }

  // A lone date in the value wins over the range; with none or several the
  // range decides, and without a range nothing is guessed.
  lemma ObservedAtIsUnambiguous(value: Value, rangeStart: Option<string>, parse: string -> Option<int>, x: int, y: int)
    ensures rangeStart.None? && (forall i :: 0 <= i < |StringsIn(value)| ==> parse(StringsIn(value)[i]) == None) ==>
              ObservedAt(value, rangeStart, parse) == None
    ensures x in DatesIn(StringsIn(value), parse) && y in DatesIn(StringsIn(value), parse) && x != y ==>
              ObservedAt(value, rangeStart, parse) == (if rangeStart.Some? then parse(rangeStart.value) else None)
    ensures DatesIn(StringsIn(value), parse) == [x] ==> ObservedAt(value, rangeStart, parse) == Some(x)
  {
    var texts := StringsIn(value);
    if forall i :: 0 <= i < |texts| ==> parse(texts[i]) == None {
      forall z ensures z !in DatesIn(texts, parse) {
        DatesAreParsed(texts, parse, z);
      }
      assert forall i :: 0 <= i < |DatesIn(texts, parse)| ==> DatesIn(texts, parse)[i] in DatesIn(texts, parse);
    }
  }
}
