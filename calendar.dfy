/**
 * The month calendar: the day-to-categories index, the visible grid of whole
 * weeks around the current month, month navigation and the per-day dots.
 * Days are integers counted from 1970-01-01 (a Thursday); months follow the
 * proleptic Gregorian calendar; weeks start on Sunday.
 */
module Calendar {
  import opened Wrappers
  import opened Seqs
  import opened Events

  // ------------------------------------------------------------ weeks

  /** The day of the week, Sunday = 0 … Saturday = 6. */
  function Weekday(d: Day): (w: int)
    ensures 0 <= w < 7
  {
    (d + 4) % 7
  }

  /** `startOfWeek`: the Sunday on or before `d`. */
  function StartOfWeek(d: Day): (s: Day)
    ensures s <= d < s + 7 && Weekday(s) == 0
  {
    d - Weekday(d)
  }

  /** `endOfWeek`: the Saturday on or after `d`. */
  function EndOfWeek(d: Day): (e: Day)
    ensures e - 7 < d <= e && Weekday(e) == 6
  {
    d + 6 - Weekday(d)
  }

  // ------------------------------------------------------------ months

  type MonthIndex = m: int | 0 <= m < 12

  /** A month, as the `currentMonth` state holds it (the first instant of that month); `month` counts from 0 as JavaScript does. */
  datatype YearMonth = YearMonth(year: int, month: MonthIndex)

  predicate IsLeapYear(y: int)
  {
    y % 4 == 0 && (y % 100 != 0 || y % 400 == 0)
  }

  function YearLength(y: int): int
  {
    if IsLeapYear(y) then 366 else 365
  }

  function DaysInMonth(y: int, m: MonthIndex): (n: int)
    ensures 28 <= n <= 31
  {
    if m == 1 then (if IsLeapYear(y) then 29 else 28)
    else if m == 3 || m == 5 || m == 8 || m == 10 then 30
    else 31
  }

  function DaysBeforeMonth(y: int, m: MonthIndex): int
  {
    [0, 31, 59, 90, 120, 151, 181, 212, 243, 273, 304, 334][m] + (if IsLeapYear(y) && m >= 2 then 1 else 0)
  }

  /** The months of a year follow each other without gaps and fill the year. */
  lemma {:induction false} MonthsTileYear(y: int, m: MonthIndex)
    ensures m < 11 ==> DaysBeforeMonth(y, m + 1) == DaysBeforeMonth(y, m) + DaysInMonth(y, m)
    ensures DaysBeforeMonth(y, 11) + DaysInMonth(y, 11) == YearLength(y)
  {
    if m == 0 {} else if m == 1 {} else if m == 2 {} else if m == 3 {}
    else if m == 4 {} else if m == 5 {} else if m == 6 {} else if m == 7 {}
    else if m == 8 {} else if m == 9 {} else if m == 10 {} else {}
  }

  /** The day on which year `y` begins. */
  function YearStart(y: int): Day
    decreases if y >= 1970 then y - 1970 else 1970 - y
  {
    if y == 1970 then 0
    else if y > 1970 then YearStart(y - 1) + YearLength(y - 1)
    else YearStart(y + 1) - YearLength(y)
  }

  lemma {:induction false} YearStartStep(y: int)
    ensures YearStart(y + 1) == YearStart(y) + YearLength(y)
  {
  }

  /** Later years start later. */
  lemma {:induction false} YearStartMonotone(y1: int, y2: int)
    requires y1 < y2
    ensures YearStart(y1) < YearStart(y2)
    decreases y2 - y1
  {
    YearStartStep(y1);
    if y1 + 1 < y2 {
      YearStartMonotone(y1 + 1, y2);
    }
  }

  function FirstDay(ym: YearMonth): Day
  {
    YearStart(ym.year) + DaysBeforeMonth(ym.year, ym.month)
  }

  function LastDay(ym: YearMonth): Day
  {
    FirstDay(ym) + DaysInMonth(ym.year, ym.month) - 1
  }

  predicate InMonth(d: Day, ym: YearMonth)
  {
    FirstDay(ym) <= d <= LastDay(ym)
  }

  /** `addMonths(currentMonth, 1)` */
  function MonthAfter(ym: YearMonth): YearMonth
  {
    if ym.month == 11 then YearMonth(ym.year + 1, 0) else YearMonth(ym.year, ym.month + 1)
  }

  /** `subMonths(currentMonth, 1)` */
  function MonthBefore(ym: YearMonth): YearMonth
  {
    if ym.month == 0 then YearMonth(ym.year - 1, 11) else YearMonth(ym.year, ym.month - 1)
  }

  /** The next month begins the day after this one ends, and stepping forward then back returns to the same month. */
  lemma {:induction false} MonthAfterAdjacent(ym: YearMonth)
    ensures FirstDay(MonthAfter(ym)) == LastDay(ym) + 1
    ensures MonthBefore(MonthAfter(ym)) == ym && MonthAfter(MonthBefore(ym)) == ym
  {
    MonthsTileYear(ym.year, ym.month);
    YearStartStep(ym.year);
  }

  /** The previous month ends the day before this one begins. */
  lemma {:induction false} MonthBeforeAdjacent(ym: YearMonth)
    ensures LastDay(MonthBefore(ym)) + 1 == FirstDay(ym)
  {
    var prev := MonthBefore(ym);
    MonthAfterAdjacent(prev);
    assert MonthAfter(prev) == ym;
  }

  /** A month starts after every earlier month has ended. */
  lemma {:induction false} MonthsOrdered(a: YearMonth, b: YearMonth)
    requires a.year < b.year || (a.year == b.year && a.month < b.month)
    ensures LastDay(a) < FirstDay(b)
  {
    MonthsTileYear(a.year, a.month);
    if a.year < b.year {
      YearStartStep(a.year);
      if a.year + 1 < b.year {
        YearStartMonotone(a.year + 1, b.year);
      }
      MonthsTileYear(a.year, 11);
      assert DaysBeforeMonth(a.year, a.month) + DaysInMonth(a.year, a.month) <= YearLength(a.year) by {
        var m: MonthIndex := a.month;
        if m < 11 {
          assert DaysBeforeMonth(a.year, m) + DaysInMonth(a.year, m) == DaysBeforeMonth(a.year, m + 1);
          assert DaysBeforeMonth(a.year, m + 1) <= DaysBeforeMonth(a.year, 11);
        }
      }
    } else {
      assert DaysBeforeMonth(a.year, a.month + 1) <= DaysBeforeMonth(a.year, b.month);
    }
  }

  /** A day lies in exactly one month. */
  lemma {:induction false} InMonthUnique(d: Day, a: YearMonth, b: YearMonth)
    requires InMonth(d, a) && InMonth(d, b)
    ensures a == b
  {
    if a.year < b.year || (a.year == b.year && a.month < b.month) {
      MonthsOrdered(a, b);
    } else if b.year < a.year || (a.year == b.year && b.month < a.month) {
      MonthsOrdered(b, a);
    }
  }

  function YearUp(d: Day, y: int): (r: int)
    requires YearStart(y) <= d
    ensures YearStart(r) <= d < YearStart(r + 1)
    decreases d - YearStart(y)
  {
    YearStartStep(y);
    if d < YearStart(y + 1) then y else YearUp(d, y + 1)
  }

  function YearDown(d: Day, y: int): (r: int)
    requires d < YearStart(y + 1)
    ensures YearStart(r) <= d < YearStart(r + 1)
    decreases YearStart(y + 1) - d
  {
    YearStartStep(y);
    if YearStart(y) <= d then y else YearDown(d, y - 1)
  }

  function MonthFrom(y: int, d: Day, m: MonthIndex): (r: MonthIndex)
    requires FirstDay(YearMonth(y, m)) <= d < YearStart(y + 1)
    ensures InMonth(d, YearMonth(y, r))
    decreases 11 - m
  {
    MonthsTileYear(y, m);
    if m == 11 || d <= LastDay(YearMonth(y, m)) then m else MonthFrom(y, d, m + 1)
  }

  /** `startOfMonth(d)`: the month that contains day `d`. */
  function MonthOf(d: Day): (ym: YearMonth)
    ensures InMonth(d, ym)
  {
    var y := if d >= 0 then YearUp(d, 1970) else YearDown(d, 1969);
    YearMonth(y, MonthFrom(y, d, 0))
  }

  /** `isSameMonth(d, currentMonth)` is exactly `MonthOf(d) == currentMonth`, and every month is the month of its own days. */
  lemma {:induction false} MonthOfExact(d: Day, ym: YearMonth)
    ensures InMonth(d, ym) <==> MonthOf(d) == ym
  {
    if InMonth(d, ym) {
      InMonthUnique(d, ym, MonthOf(d));
    }
  }

  // ------------------------------------------------------------ the grid

  /** `eachDayOfInterval({start: lo, end: hi})` for `lo <= hi`: every day from `lo` to `hi`, ascending. */
  function DaysBetween(lo: Day, hi: Day): (days: seq<Day>)
    requires lo <= hi
    ensures |days| == hi - lo + 1
  {
    seq(hi - lo + 1, k requires 0 <= k <= hi - lo => lo + k)
  }

  function GridStart(ym: YearMonth): Day
  {
    StartOfWeek(FirstDay(ym))
  }

  function GridEnd(ym: YearMonth): Day
  {
    EndOfWeek(LastDay(ym))
  }

  /** The days drawn for month `ym`: from the Sunday of the week of its first day to the Saturday of the week of its last day. */
  function GridDays(ym: YearMonth): seq<Day>
  {
    DaysBetween(GridStart(ym), GridEnd(ym))
  }

  /** Whole weeks from the week of `f` to the week of `l`, when `l` is 27 to 30 days after `f`: 4 to 6 weeks. */
  lemma {:induction false} WeekSpan(f: Day, l: Day)
    requires 27 <= l - f <= 30
    ensures (EndOfWeek(l) - StartOfWeek(f) + 1) % 7 == 0
    ensures 28 <= EndOfWeek(l) - StartOfWeek(f) + 1 <= 42
  {
    var qf := (f + 4) / 7;
    var ql := (l + 4) / 7;
    assert StartOfWeek(f) == 7 * qf - 4;
    assert EndOfWeek(l) == 7 * ql + 2;
    assert 3 <= ql - qf <= 5;
    assert EndOfWeek(l) - StartOfWeek(f) + 1 == 7 * (ql - qf + 1);
  }

  /**
   * The days from the Sunday of `f`'s week to the Saturday of `l`'s week,
   * for `l` 27 to 30 days after `f`: whole weeks, consecutive days, holding
   * `f` to `l`, with the other days less than a week outside that range.
   */
  lemma {:induction false} WeekGrid(f: Day, l: Day)
    requires 27 <= l - f <= 30
    ensures var g := DaysBetween(StartOfWeek(f), EndOfWeek(l));
      |g| % 7 == 0 && 28 <= |g| <= 42 &&
      Weekday(g[0]) == 0 && Weekday(g[|g| - 1]) == 6 &&
      (forall k :: 0 <= k < |g| ==> g[k] == StartOfWeek(f) + k) &&
      (forall d :: f <= d <= l ==> d in g) &&
      (forall d :: d in g && !(f <= d <= l) ==> (d < f && f - d < 7) || (d > l && d - l < 7))
  {
    WeekSpan(f, l);
    var lo := StartOfWeek(f);
    var g := DaysBetween(lo, EndOfWeek(l));
    assert g[0] == lo && g[|g| - 1] == EndOfWeek(l);
    forall d | f <= d <= l ensures d in g {
      assert g[d - lo] == d;
    }
    forall d | d in g && !(f <= d <= l)
      ensures (d < f && f - d < 7) || (d > l && d - l < 7)
    {
      var k :| 0 <= k < |g| && g[k] == d;
    }
  }

  /**
   * The grid is whole weeks (4 to 6 of them) starting on a Sunday and
   * ending on a Saturday, consecutive days, holding every day of the month,
   * with the days before and after the month all in its first and last week.
   */
  lemma {:induction false} GridShape(ym: YearMonth)
    ensures |GridDays(ym)| % 7 == 0 && 28 <= |GridDays(ym)| <= 42
    ensures Weekday(GridDays(ym)[0]) == 0 && Weekday(GridDays(ym)[|GridDays(ym)| - 1]) == 6
    ensures forall k :: 0 <= k < |GridDays(ym)| ==> GridDays(ym)[k] == GridStart(ym) + k
    ensures forall d :: InMonth(d, ym) ==> d in GridDays(ym)
    ensures forall d :: d in GridDays(ym) && !InMonth(d, ym) ==>
      (d < FirstDay(ym) && FirstDay(ym) - d < 7) || (d > LastDay(ym) && d - LastDay(ym) < 7)
  {
    var f, l := FirstDay(ym), LastDay(ym);
    assert 27 <= l - f <= 30;
    WeekGrid(f, l);
    assert GridDays(ym) == DaysBetween(StartOfWeek(f), EndOfWeek(l));
  }

  // ------------------------------------------------------------ the day index

  /** `eventsByDate`: the categories shown on each day. */
  type DayIndex = map<Day, seq<string>>

  /** `eventsByDate[dayKey] || []` */
  function Get(index: DayIndex, d: Day): seq<string>
  {
    if d in index then index[d] else []
  }

  /** One turn of the inner `forEach`: create the day's list if missing, then add the category unless it is there. */
  function AddToDay(index: DayIndex, d: Day, cat: string): DayIndex
  {
    index[d := AppendNew(Get(index, d), cat)]
  }

  /** The inner `forEach` over the days `lo … hi`. */
  function AddSpan(index: DayIndex, lo: Day, hi: Day, cat: string): DayIndex
    decreases if hi < lo then 0 else hi - lo + 1
  {
    if hi < lo then index else AddToDay(AddSpan(index, lo, hi - 1, cat), hi, cat)
  }

  predicate HasValidDates(e: CalendarEvent)
  {
    e.start.Some? && e.end.Some?
  }

  /** The first and last day of an event's range; a range given end first covers the same days. */
  function SpanLo(e: CalendarEvent): Day
    requires HasValidDates(e)
  {
    if e.start.value <= e.end.value then e.start.value else e.end.value
  }

  function SpanHi(e: CalendarEvent): Day
    requires HasValidDates(e)
  {
    if e.start.value <= e.end.value then e.end.value else e.start.value
  }

  predicate Covers(e: CalendarEvent, d: Day)
  {
    HasValidDates(e) && SpanLo(e) <= d <= SpanHi(e)
  }

  /** One turn of the `reduce`: an event with an invalid date leaves the index as it is. */
  function IndexEvent(index: DayIndex, e: CalendarEvent): DayIndex
  {
    if HasValidDates(e) then AddSpan(index, SpanLo(e), SpanHi(e), CategoryOf(e)) else index
  }

  function Index(events: seq<CalendarEvent>): DayIndex
  {
    if events == [] then map[] else IndexEvent(Index(events[..|events| - 1]), events[|events| - 1])
  }

  /** The independent description: the categories of the events covering `d`, in event order, repeats included. */
  function CategoriesOn(events: seq<CalendarEvent>, d: Day): seq<string>
  {
    if events == [] then []
    else
      var last := events[|events| - 1];
      CategoriesOn(events[..|events| - 1], d) + (if Covers(last, d) then [CategoryOf(last)] else [])
  }

  /** Adding a span adds the category once to each day from `lo` to `hi` and touches no other day. */
  lemma {:induction false} AddSpanAt(index: DayIndex, lo: Day, hi: Day, cat: string, d: Day)
    ensures Get(AddSpan(index, lo, hi, cat), d) == if lo <= d <= hi then AppendNew(Get(index, d), cat) else Get(index, d)
    ensures d in AddSpan(index, lo, hi, cat) <==> d in index || lo <= d <= hi
    decreases if hi < lo then 0 else hi - lo + 1
  {
    if lo <= hi {
      AddSpanAt(index, lo, hi - 1, cat, d);
    }
  }

  /** The index holds, for every day, the distinct categories of the events covering it, and has an entry exactly for the days some event covers. */
  lemma {:induction false} IndexAt(events: seq<CalendarEvent>, d: Day)
    ensures Get(Index(events), d) == Distinct(CategoriesOn(events, d))
    ensures d in Index(events) <==> CategoriesOn(events, d) != []
  {
    if events != [] {
      var init := events[..|events| - 1];
      var e := events[|events| - 1];
      IndexAt(init, d);
      var before := CategoriesOn(init, d);
      if HasValidDates(e) {
        AddSpanAt(Index(init), SpanLo(e), SpanHi(e), CategoryOf(e), d);
      }
      if Covers(e, d) {
        var s := before + [CategoryOf(e)];
        assert s[..|s| - 1] == before;
        assert Distinct(s) == AppendNew(Distinct(before), CategoryOf(e));
      } else {
        assert CategoriesOn(events, d) == before;
      }
    }
  }

  lemma {:induction false} CategoriesOnMembers(events: seq<CalendarEvent>, d: Day)
    ensures forall c :: c in CategoriesOn(events, d) ==> exists e :: e in events && Covers(e, d) && CategoryOf(e) == c
    ensures forall e :: e in events && Covers(e, d) ==> CategoryOf(e) in CategoriesOn(events, d)
  {
    if events != [] {
      var init := events[..|events| - 1];
      var last := events[|events| - 1];
      CategoriesOnMembers(init, d);
      forall c | c in CategoriesOn(events, d) ensures exists e :: e in events && Covers(e, d) && CategoryOf(e) == c {
        if c in CategoriesOn(init, d) {
          var e :| e in init && Covers(e, d) && CategoryOf(e) == c;
          assert e in events;
        } else {
          assert last in events;
        }
      }
      forall e | e in events && Covers(e, d) ensures CategoryOf(e) in CategoriesOn(events, d) {
        if e != last {
          var k :| 0 <= k < |events| && events[k] == e;
          assert e in init by { assert init[k] == e; }
        }
      }
    }
  }

  /**
   * What the calendar shows for a day: every event covering it contributes
   * its category; no category appears twice; a category appears only if an
   * event covering the day has it; categories are in the order events first
   * contributed them.
   */
  lemma {:induction false} IndexProperties(events: seq<CalendarEvent>, d: Day)
    ensures forall e :: e in events && Covers(e, d) ==> CategoryOf(e) in Get(Index(events), d)
    ensures NoDup(Get(Index(events), d))
    ensures forall c :: c in Get(Index(events), d) ==> exists e :: e in events && Covers(e, d) && CategoryOf(e) == c
    ensures forall i, j :: 0 <= i < j < |Get(Index(events), d)| ==>
      Get(Index(events), d)[i] in CategoriesOn(events, d) && Get(Index(events), d)[j] in CategoriesOn(events, d) &&
      FirstIndex(CategoriesOn(events, d), Get(Index(events), d)[i]) < FirstIndex(CategoriesOn(events, d), Get(Index(events), d)[j])
  {
    IndexAt(events, d);
    CategoriesOnMembers(events, d);
    DistinctMembers(CategoriesOn(events, d));
    DistinctNoDup(CategoriesOn(events, d));
    DistinctFirstSeenOrder(CategoriesOn(events, d));
  }

  /** An event with an invalid start or end changes nothing. */
  lemma {:induction false} IndexSkipsInvalid(events: seq<CalendarEvent>, e: CalendarEvent)
    requires !HasValidDates(e)
    ensures Index(events + [e]) == Index(events)
  {
    assert (events + [e])[..|events|] == events;
  }

  /** The `reduce` that builds `eventsByDate`, with its inner `forEach` over each event's days. */
  method BuildIndex(events: seq<CalendarEvent>) returns (acc: DayIndex)
    ensures acc == Index(events)
  {
    acc := map[];
    var j := 0;
    while j < |events|
      invariant 0 <= j <= |events|
      invariant acc == Index(events[..j])
    {
      var event := events[j];
      assert events[..j + 1][..j] == events[..j];
      if event.start.Some? && event.end.Some? {
        var lo := SpanLo(event);
        var hi := SpanHi(event);
        var cat := CategoryOf(event);
        ghost var before := acc;
        var day := lo;
        while day <= hi
          invariant lo <= day <= hi + 1
          invariant acc == AddSpan(before, lo, day - 1, cat)
        {
          if day !in acc {
            acc := acc[day := []];
          }
          if cat !in acc[day] {
            acc := acc[day := acc[day] + [cat]];
          }
          day := day + 1;
        }
      }
      j := j + 1;
    }
    assert events[..j] == events;
  }

  // ------------------------------------------------------------ dots

  const MaxDots: nat := 3

  const CategoryColors: map<string, string> :=
    map["お祭り" := "#ffc107", "スポーツ" := "#28a745", "教育" := "#007bff", "その他" := "#6c757d"]

  /** `categoryColors[category] || categoryColors["その他"]` */
  function Colour(category: string): (c: string)
    ensures category in CategoryColors ==> c == CategoryColors[category]
    ensures category !in CategoryColors ==> c == CategoryColors[Other]
  {
    if category in CategoryColors then CategoryColors[category] else CategoryColors[Other]
  }

  /** The dot colours drawn in a day cell: the first three categories of the day. */
  function Dots(index: DayIndex, d: Day): seq<string>
  {
    var shown := SlicePrefix(Get(index, d), MaxDots);
    seq(|shown|, k requires 0 <= k < |shown| => Colour(shown[k]))
  }

  /**
   * A day cell shows one dot per category of the day, up to three, in the
   * day's order; a day without an entry shows none; every dot is one of the
   * four configured colours.
   */
  lemma {:induction false} DotsSpec(index: DayIndex, d: Day)
    ensures |Dots(index, d)| == if |Get(index, d)| < MaxDots then |Get(index, d)| else MaxDots
    ensures forall k :: 0 <= k < |Dots(index, d)| ==> Dots(index, d)[k] == Colour(Get(index, d)[k])
    ensures d !in index ==> Dots(index, d) == []
    ensures forall k :: 0 <= k < |Dots(index, d)| ==> Dots(index, d)[k] in CategoryColors.Values
  {
    var shown := SlicePrefix(Get(index, d), MaxDots);
    forall k | 0 <= k < |Dots(index, d)| ensures Dots(index, d)[k] in CategoryColors.Values {
      if shown[k] in CategoryColors {
        assert CategoryColors[shown[k]] in CategoryColors.Values;
      } else {
        assert Other in CategoryColors;
        assert CategoryColors[Other] in CategoryColors.Values;
      }
    }
  }

  // ------------------------------------------------------------ the view state

  /** The calendar component's state: the month on display. */
  class CalendarView {
    var currentMonth: YearMonth

    /** `useState(startOfMonth(selectedDate))` */
    constructor (selectedDate: Day)
      ensures currentMonth == MonthOf(selectedDate) && InMonth(selectedDate, currentMonth)
    {
      currentMonth := MonthOf(selectedDate);
    }

    /** `prevMonth`: the month that ends the day before the current one begins. */
    method PrevMonth()
      modifies this
      ensures currentMonth == MonthBefore(old(currentMonth))
      ensures LastDay(currentMonth) + 1 == FirstDay(old(currentMonth))
    {
      var prev := MonthBefore(currentMonth);
      MonthBeforeAdjacent(currentMonth);
      currentMonth := prev;
    }

    /** `nextMonth`: the month that begins the day after the current one ends. */
    method NextMonth()
      modifies this
      ensures currentMonth == MonthAfter(old(currentMonth))
      ensures FirstDay(currentMonth) == LastDay(old(currentMonth)) + 1
    {
      var next := MonthAfter(currentMonth);
      MonthAfterAdjacent(currentMonth);
      currentMonth := next;
    }

    /** `days`: the grid for the month on display. */
    function Days(): (r: seq<Day>)
      reads this
      ensures |r| % 7 == 0 && 28 <= |r| <= 42
      ensures forall d :: InMonth(d, currentMonth) ==> d in r
    {
      GridShape(currentMonth);
      GridDays(currentMonth)
    }

    /** `isNotInMonth` of a day cell. */
    predicate IsNotInMonth(d: Day)
      reads this
    {
      !InMonth(d, currentMonth)
    }
  }
}
