// The calendar page: a shown month that the joystick moves by months and
// years, the Gregorian days-in-month table, a 6 x 7 grid of day numbers
// starting at the weekday of the month's first day, a highlight on today's
// cell, and a once-a-second refresh of the clock from the real-time clock.
// RTC readings and the weekday that mktime()/localtime() compute are
// parameters.

module CalendarPage {
  import opened Clock
  import opened PageBase

  const TimeUpdateInterval: nat := 1000
  /** Six rows of seven days. */
  const GridCells: int := 42

  const MonthDays: seq<int> := [31, 28, 31, 30, 31, 30, 31, 31, 30, 31, 30, 31]

  /** One reading of the real-time clock. */
  datatype DateReading = DateReading(year: int, month: int, day: int, hour: int, minute: int)

  /** What the RTC library hands out: a month, a day, an hour and a minute
    * in their ranges. */
  predicate Plausible(r: DateReading)
  {
    1 <= r.month <= 12 && 1 <= r.day <= 31 && 0 <= r.hour < 24 && 0 <= r.minute < 60
  }

  /** The date initializeRTC falls back to when no RTC answers. */
  const FallbackDate: DateReading := DateReading(2024, 12, 21, 12, 0)

  // ---------------------------------------------------------------------
  // Month navigation

  /** The month after `m` of year `y`: December rolls over to January of the
    * next year. Counting months from year 0, it is the next one. */
  function NextMonth(y: int, m: int): (r: (int, int))
    requires 1 <= m <= 12
    ensures 1 <= r.1 <= 12
    ensures r.0 * 12 + r.1 == y * 12 + m + 1
  {
    if m + 1 > 12 then (y + 1, 1) else (y, m + 1)
  }

  /** The month before: January rolls back to December of the previous year. */
  function PrevMonth(y: int, m: int): (r: (int, int))
    requires 1 <= m <= 12
    ensures 1 <= r.1 <= 12
    ensures r.0 * 12 + r.1 == y * 12 + m - 1
  {
    if m - 1 < 1 then (y - 1, 12) else (y, m - 1)
  }

  /** A (year, month) pair with the month in 1..12 is fixed by its month count. */
  lemma {:induction false} MonthCountInjective(y1: int, m1: int, y2: int, m2: int)
    requires 1 <= m1 <= 12 && 1 <= m2 <= 12
    requires y1 * 12 + m1 == y2 * 12 + m2
    ensures y1 == y2 && m1 == m2
  {
  }

  /** RIGHT then LEFT, or LEFT then RIGHT, comes back to the same month. */
  lemma {:induction false} NextPrevInverse(y: int, m: int)
    requires 1 <= m <= 12
    ensures PrevMonth(NextMonth(y, m).0, NextMonth(y, m).1) == (y, m)
    ensures NextMonth(PrevMonth(y, m).0, PrevMonth(y, m).1) == (y, m)
  {
    var n := NextMonth(y, m);
    var b := PrevMonth(n.0, n.1);
    MonthCountInjective(b.0, b.1, y, m);
    var p := PrevMonth(y, m);
    var f := NextMonth(p.0, p.1);
    MonthCountInjective(f.0, f.1, y, m);
  }

  // ---------------------------------------------------------------------
  // Leap years and month lengths

  /** The firmware's leap-year test. C's `%` truncates, but a zero remainder
    * means divisibility either way, so Dafny's `%` gives the same answer for
    * every year, negative ones included. */
  predicate IsLeap(y: int)
  {
    (y % 4 == 0 && y % 100 != 0) || y % 400 == 0
  }

  /** The Gregorian rule read century-first: a century year is a leap year
    * only when divisible by 400, any other year when divisible by 4. */
  lemma {:induction false} GregorianRule(y: int)
    ensures IsLeap(y) <==> if y % 100 == 0 then y % 400 == 0 else y % 4 == 0
  {
    if y % 400 == 0 {
      var k := y / 400;
      assert y == 100 * (4 * k) + 0;
      assert y == 4 * (100 * k) + 0;
    }
  }

  /** The leap-year pattern repeats every 400 years. */
  lemma {:induction false} LeapCycle(y: int)
    ensures IsLeap(y + 400) <==> IsLeap(y)
  {
    assert (y + 400) % 4 == y % 4 by { assert y + 400 == y + 4 * 100; }
    assert (y + 400) % 100 == y % 100 by { assert y + 400 == y + 100 * 4; }
    assert (y + 400) % 400 == y % 400;
  }

  /** The length of month `m` of year `y`: the table, with February at 29
    * days in a leap year. */
  function DaysInMonth(y: int, m: int): (d: int)
    requires 1 <= m <= 12
    ensures 28 <= d <= 31
    ensures d == 29 <==> m == 2 && IsLeap(y)
    ensures m != 2 ==> d >= 30
  {
    if m == 2 && IsLeap(y) then 29 else MonthDays[m - 1]
  }

  /** The days of months 1..n of year `y`. */
  function DaysThrough(y: int, n: int): int
    requires 0 <= n <= 12
  {
    if n == 0 then 0 else DaysThrough(y, n - 1) + DaysInMonth(y, n)
  }

  /** The twelve month lengths add up to 366 in a leap year, else 365. */
  lemma {:induction false} DaysInYear(y: int)
    ensures DaysThrough(y, 12) == if IsLeap(y) then 366 else 365
  {
    var feb := if IsLeap(y) then 29 else 28;
    assert DaysThrough(y, 1) == 31;
    assert DaysThrough(y, 2) == 31 + feb;
    assert DaysThrough(y, 3) == 62 + feb;
    assert DaysThrough(y, 4) == 92 + feb;
    assert DaysThrough(y, 5) == 123 + feb;
    assert DaysThrough(y, 6) == 153 + feb;
    assert DaysThrough(y, 7) == 184 + feb;
    assert DaysThrough(y, 8) == 215 + feb;
    assert DaysThrough(y, 9) == 245 + feb;
    assert DaysThrough(y, 10) == 276 + feb;
    assert DaysThrough(y, 11) == 306 + feb;
  }

  // ---------------------------------------------------------------------
  // The date grid

  /** The cell that day k of a month starting on weekday `startDow` goes to. */
  function DayCell(startDow: nat, k: int): int
  {
    startDow + k - 1
  }

  /** The grid after the first `d` days were written: day k goes to cell
    * `startDow + k - 1` when that cell exists; 0 marks an empty cell. */
  function Placed(startDow: nat, d: nat): (g: seq<int>)
    ensures |g| == GridCells
  {
    if d == 0 then seq(GridCells, _ => 0)
    else
      var g := Placed(startDow, d - 1);
      if startDow + d - 1 < GridCells then g[startDow + d - 1 := d] else g
  }

  /** Cell p shows day `p - startDow + 1` when that is one of the days
    * written, and is empty otherwise. */
  lemma {:induction false} PlacedCells(startDow: nat, d: nat)
    ensures forall p :: 0 <= p < GridCells ==>
      Placed(startDow, d)[p] == if startDow <= p < startDow + d then p - startDow + 1 else 0
  {
    if d > 0 {
      PlacedCells(startDow, d - 1);
    }
  }

  /** A day appears at most once, and day k appears exactly when its cell
    * `startDow + k - 1` exists; with the first day on a weekday (0..6) every
    * day of a month fits, in the column of its weekday. */
  lemma {:induction false} EveryDayShown(startDow: nat, days: nat)
    ensures forall p, q :: 0 <= p < q < GridCells && Placed(startDow, days)[p] != 0 ==>
      Placed(startDow, days)[p] != Placed(startDow, days)[q]
    ensures forall k :: 1 <= k <= days && DayCell(startDow, k) < GridCells ==>
      Placed(startDow, days)[DayCell(startDow, k)] == k
    ensures forall k, p :: 1 <= k <= days && DayCell(startDow, k) >= GridCells && 0 <= p < GridCells ==>
      Placed(startDow, days)[p] != k
    ensures startDow <= 6 && days <= 31 ==>
      forall k :: 1 <= k <= days ==> DayCell(startDow, k) < GridCells && Placed(startDow, days)[DayCell(startDow, k)] == k
    ensures forall p :: 0 <= p < GridCells && Placed(startDow, days)[p] != 0 ==>
      (startDow + Placed(startDow, days)[p] - 1) % 7 == p % 7
  {
    PlacedCells(startDow, days);
  }

  /** The highlighted cells: those showing today's day number, when the grid
    * shows today's month. */
  function Highlight(g: seq<int>, thisMonth: bool, today: int): (h: seq<bool>)
    requires |g| == GridCells
    ensures |h| == GridCells
    ensures forall p :: 0 <= p < GridCells ==> (h[p] <==> thisMonth && g[p] != 0 && g[p] == today)
  {
    seq(GridCells, p requires 0 <= p < GridCells => thisMonth && g[p] != 0 && g[p] == today)
  }

  /** On a filled grid at most one cell is highlighted, and only in today's
    * month. */
  lemma {:induction false} HighlightUnique(startDow: nat, days: nat, thisMonth: bool, today: int)
    ensures forall p, q :: 0 <= p < q < GridCells ==>
      !(Highlight(Placed(startDow, days), thisMonth, today)[p] && Highlight(Placed(startDow, days), thisMonth, today)[q])
    ensures !thisMonth ==> forall p :: 0 <= p < GridCells ==> !Highlight(Placed(startDow, days), thisMonth, today)[p]
  {
    EveryDayShown(startDow, days);
  }

  /** The highlight as updateCalendar leaves it: its clearing loop resets the
    * text colour of every cell but not the background, so a background set
    * for an earlier month survives next to the new one. */
  function HighlightAsWritten(prev: seq<bool>, g: seq<int>, thisMonth: bool, today: int): (h: seq<bool>)
    requires |prev| == GridCells && |g| == GridCells
    ensures |h| == GridCells
    ensures forall p :: 0 <= p < GridCells ==> (h[p] <==> prev[p] || Highlight(g, thisMonth, today)[p])
  {
    seq(GridCells, p requires 0 <= p < GridCells => prev[p] || Highlight(g, thisMonth, today)[p])
  }

  /** With today at Saturday 21 December 2024 (December starts on a Sunday),
    * one step right to January 2025 (starting on a Wednesday) leaves the
    * background on cell 20, which now shows the 18th. */
  lemma StaleHighlight()
    ensures var before := Highlight(Placed(0, 31), true, 21);
      && before[20]
      && HighlightAsWritten(before, Placed(3, 31), false, 21)[20]
      && Placed(3, 31)[20] == 18
      && !Highlight(Placed(3, 31), false, 21)[20]
  {
    PlacedCells(0, 31);
    PlacedCells(3, 31);
  }

  /** Starting from no background anywhere, the as-written highlight is the
    * corrected one. */
  lemma {:induction false} HighlightFromClear(g: seq<int>, thisMonth: bool, today: int)
    requires |g| == GridCells
    ensures HighlightAsWritten(seq(GridCells, _ => false), g, thisMonth, today) == Highlight(g, thisMonth, today)
  {
  }

  /** updateCalendar's redraw as written: the clearing loop empties every
    * cell and resets its text colour (`accents`) but leaves its background
    * (`marks`); then day 1..days go from cell `startDow` on, each only if
    * its cell exists, and today's cell gets both the accent and the
    * background. */
  method FillGridAsWritten(dates: array<int>, accents: array<bool>, marks: array<bool>,
                           startDow: nat, days: nat, thisMonth: bool, today: int)
    requires dates.Length == GridCells && accents.Length == GridCells && marks.Length == GridCells
    requires accents != marks
    modifies dates, accents, marks
    ensures dates[..] == Placed(startDow, days)
    ensures accents[..] == Highlight(Placed(startDow, days), thisMonth, today)
    ensures marks[..] == HighlightAsWritten(old(marks[..]), Placed(startDow, days), thisMonth, today)
  {
    for i := 0 to GridCells
      invariant forall p :: 0 <= p < i ==> dates[p] == 0 && !accents[p]
      invariant marks[..] == old(marks[..])
    {
      dates[i] := 0;
      accents[i] := false;
    }
    assert dates[..] == Placed(startDow, 0);
    for day := 1 to days + 1
      invariant dates[..] == Placed(startDow, day - 1)
      invariant accents[..] == Highlight(Placed(startDow, day - 1), thisMonth, today)
      invariant marks[..] == HighlightAsWritten(old(marks[..]), Placed(startDow, day - 1), thisMonth, today)
    {
      PlacedCells(startDow, day - 1);
      var position := startDow + day - 1;
      if position < GridCells {
        dates[position] := day;
        if thisMonth && day == today {
          accents[position] := true;
          marks[position] := true;
        }
      }
    }
  }

  /** The redraw with the background cleared as well: every cell loses its
    * old background first, so the text colour and the background both
    * mark exactly today's cell. */
  method FillGrid(dates: array<int>, accents: array<bool>, marks: array<bool>,
                  startDow: nat, days: nat, thisMonth: bool, today: int)
    requires dates.Length == GridCells && accents.Length == GridCells && marks.Length == GridCells
    requires accents != marks
    modifies dates, accents, marks
    ensures dates[..] == Placed(startDow, days)
    ensures accents[..] == Highlight(Placed(startDow, days), thisMonth, today)
    ensures marks[..] == Highlight(Placed(startDow, days), thisMonth, today)
  {
    for i := 0 to GridCells
      invariant forall p :: 0 <= p < i ==> !marks[p]
    {
      marks[i] := false;
    }
    assert marks[..] == seq(GridCells, _ => false);
    FillGridAsWritten(dates, accents, marks, startDow, days, thisMonth, today);
    HighlightFromClear(Placed(startDow, days), thisMonth, today);
  }

  class Calendar {
    var currentYear: int
    var currentMonth: int
    var currentDay: int
    var currentHour: int
    var currentMinute: int
    var lastTimeUpdate: Millis
    /** Whether createCalendarUI has run (monthLabel is set). */
    var uiCreated: bool
    /** The day number each date label shows; 0 for an empty label. */
    const dates: array<int>
    /** Whether a date label has the "today" text colour. */
    const accents: array<bool>
    /** Whether a date label carries the "today" background. */
    const marks: array<bool>

    /** The month indexes the 12 month names. */
    ghost predicate Valid()
      reads this
    {
      && 1 <= currentMonth <= 12
      && dates.Length == GridCells && accents.Length == GridCells && marks.Length == GridCells
      && accents != marks
    }

    /** The grid shows the current month for `today`, whose first day falls
      * on weekday `startDow`: its days in place, today's text accented, and
      * the backgrounds `prev` plus today's, as the clearing loop leaves
      * them. */
    ghost predicate Shows(prev: seq<bool>, today: DateReading, startDow: nat)
      reads this, dates, accents, marks
      requires Valid()
    {
      var g := Placed(startDow, DaysInMonth(currentYear, currentMonth));
      var thisMonth := currentYear == today.year && currentMonth == today.month;
      && dates[..] == g
      && accents[..] == Highlight(g, thisMonth, today.day)
      && |prev| == GridCells && marks[..] == HighlightAsWritten(prev, g, thisMonth, today.day)
    }

    /** The cells and their two styles are as they were. */
    ghost predicate GridUnchanged(d: seq<int>, a: seq<bool>, m: seq<bool>)
      reads this, dates, accents, marks
    {
      dates[..] == d && accents[..] == a && marks[..] == m
    }

    /** The constructor's initializeRTC: without an RTC the fixed fallback
      * date; with one that reads a year before 2020, the clock is set to the
      * build time first. */
    constructor (rtcFound: bool, reading: DateReading, buildTime: DateReading)
      requires Plausible(reading) && Plausible(buildTime)
      ensures Valid() && fresh(dates) && fresh(accents) && fresh(marks) && !uiCreated && lastTimeUpdate == 0
      ensures var r := if !rtcFound then FallbackDate else if reading.year < 2020 then buildTime else reading;
        currentYear == r.year && currentMonth == r.month && currentDay == r.day
        && currentHour == r.hour && currentMinute == r.minute
    {
      var r := reading;
      if !rtcFound {
        r := FallbackDate;
      } else if reading.year < 2020 {
        r := buildTime;
      }
      currentYear := r.year;
      currentMonth := r.month;
      currentDay := r.day;
      currentHour := r.hour;
      currentMinute := r.minute;
      dates := new int[GridCells](_ => 0);
      accents := new bool[GridCells](_ => false);
      marks := new bool[GridCells](_ => false);
      uiCreated := false;
      lastTimeUpdate := 0;
    }

    /** onViewDidLoad: createCalendarUI makes 42 empty date labels in the
      * plain style, neither accented nor with a background. */
    method OnViewDidLoad()
      requires Valid()
      modifies this, dates, accents, marks
      ensures Valid() && uiCreated
      ensures forall p :: 0 <= p < GridCells ==> dates[p] == 0 && !accents[p] && !marks[p]
      ensures currentYear == old(currentYear) && currentMonth == old(currentMonth) && currentDay == old(currentDay)
      ensures currentHour == old(currentHour) && currentMinute == old(currentMinute)
      ensures lastTimeUpdate == old(lastTimeUpdate)
    {
      uiCreated := true;
      FillGrid(dates, accents, marks, 0, 0, false, 0);
      PlacedCells(0, 0);
    }

    /** updateCalendar: before the UI exists nothing; otherwise the grid is
      * redrawn for the current month, old backgrounds kept. `startDow` is
      * the weekday of the month's first day, 0 for Sunday to 6, so every
      * day lands in its weekday's column. */
    method UpdateCalendar(today: DateReading, startDow: nat)
      requires Valid() && startDow < 7
      modifies dates, accents, marks
      ensures uiCreated ==> Shows(old(marks[..]), today, startDow)
      ensures uiCreated ==> forall k :: 1 <= k <= DaysInMonth(currentYear, currentMonth) ==>
        DayCell(startDow, k) < GridCells && dates[DayCell(startDow, k)] == k
      ensures !uiCreated ==> GridUnchanged(old(dates[..]), old(accents[..]), old(marks[..]))
    {
      if !uiCreated {
        return;
      }
      var days := DaysInMonth(currentYear, currentMonth);
      FillGridAsWritten(dates, accents, marks, startDow, days, currentYear == today.year && currentMonth == today.month, today.day);
      EveryDayShown(startDow, days);
    }

    /** onKey: LEFT and RIGHT step the month, TOP and BOTTOM the year, each
      * followed by a redraw; NONE changes nothing. */
    method OnKey(dir: Dir, today: DateReading, startDow: nat)
      requires Valid() && startDow < 7
      modifies this, dates, accents, marks
      ensures Valid()
      ensures dir == Left ==> (currentYear, currentMonth) == PrevMonth(old(currentYear), old(currentMonth))
      ensures dir == Right ==> (currentYear, currentMonth) == NextMonth(old(currentYear), old(currentMonth))
      ensures dir == Top ==> currentYear == old(currentYear) - 1 && currentMonth == old(currentMonth)
      ensures dir == Bottom ==> currentYear == old(currentYear) + 1 && currentMonth == old(currentMonth)
      ensures dir == DirNone ==>
        currentYear == old(currentYear) && currentMonth == old(currentMonth)
        && GridUnchanged(old(dates[..]), old(accents[..]), old(marks[..]))
      ensures dir != DirNone && uiCreated ==> Shows(old(marks[..]), today, startDow)
      ensures !uiCreated ==> GridUnchanged(old(dates[..]), old(accents[..]), old(marks[..]))
      ensures currentDay == old(currentDay) && currentHour == old(currentHour) && currentMinute == old(currentMinute)
      ensures lastTimeUpdate == old(lastTimeUpdate) && uiCreated == old(uiCreated)
    {
      match dir
      case Left =>
        currentMonth := currentMonth - 1;
        if currentMonth < 1 {
          currentMonth := 12;
          currentYear := currentYear - 1;
        }
        UpdateCalendar(today, startDow);
      case Right =>
        currentMonth := currentMonth + 1;
        if currentMonth > 12 {
          currentMonth := 1;
          currentYear := currentYear + 1;
        }
        UpdateCalendar(today, startDow);
      case Top =>
        currentYear := currentYear - 1;
        UpdateCalendar(today, startDow);
      case Bottom =>
        currentYear := currentYear + 1;
        UpdateCalendar(today, startDow);
      case DirNone =>
    }

    /** updateCurrentTime: every field takes the RTC's reading. */
    method UpdateCurrentTime(reading: DateReading)
      requires Valid() && Plausible(reading)
      modifies this
      ensures Valid()
      ensures currentYear == reading.year && currentMonth == reading.month && currentDay == reading.day
      ensures currentHour == reading.hour && currentMinute == reading.minute
      ensures lastTimeUpdate == old(lastTimeUpdate) && uiCreated == old(uiCreated)
    {
      currentYear := reading.year;
      currentMonth := reading.month;
      currentDay := reading.day;
      currentHour := reading.hour;
      currentMinute := reading.minute;
    }

    /** onButton, and onViewWillAppear with `pressed` set: back to the RTC's
      * date and time, then a redraw. */
    method OnButton(pressed: bool, reading: DateReading, startDow: nat)
      requires Valid() && startDow < 7 && Plausible(reading)
      modifies this, dates, accents, marks
      ensures Valid()
      ensures pressed ==>
        && currentYear == reading.year && currentMonth == reading.month && currentDay == reading.day
        && currentHour == reading.hour && currentMinute == reading.minute
        && (uiCreated ==> Shows(old(marks[..]), reading, startDow))
      ensures !pressed ==>
        && currentYear == old(currentYear) && currentMonth == old(currentMonth) && currentDay == old(currentDay)
        && currentHour == old(currentHour) && currentMinute == old(currentMinute)
        && GridUnchanged(old(dates[..]), old(accents[..]), old(marks[..]))
      ensures !uiCreated ==> GridUnchanged(old(dates[..]), old(accents[..]), old(marks[..]))
      ensures lastTimeUpdate == old(lastTimeUpdate) && uiCreated == old(uiCreated)
    {
      if pressed {
        UpdateCurrentTime(reading);
        UpdateCalendar(reading, startDow);
      }
    }

    /** update: at most once per second the clock is read; the date is taken
      * over (and the grid redrawn) only when the hour or minute moved and
      * the date differs. */
    method Update(now: Millis, reading: DateReading, startDow: nat)
      requires Valid() && startDow < 7 && Plausible(reading)
      modifies this, dates, accents, marks
      ensures Valid()
      ensures Elapsed(now, old(lastTimeUpdate)) < TimeUpdateInterval ==> lastTimeUpdate == old(lastTimeUpdate)
      ensures Elapsed(now, old(lastTimeUpdate)) >= TimeUpdateInterval ==> lastTimeUpdate == now
      ensures var acted := Elapsed(now, old(lastTimeUpdate)) >= TimeUpdateInterval
          && (reading.hour != old(currentHour) || reading.minute != old(currentMinute));
        && (acted ==> currentHour == reading.hour && currentMinute == reading.minute)
        && (!acted ==> currentHour == old(currentHour) && currentMinute == old(currentMinute))
        && (var moved := acted && (reading.year != old(currentYear) || reading.month != old(currentMonth)
                                   || reading.day != old(currentDay));
            && (moved ==> currentYear == reading.year && currentMonth == reading.month && currentDay == reading.day
                          && (uiCreated ==> Shows(old(marks[..]), reading, startDow)))
            && (!moved ==> currentYear == old(currentYear) && currentMonth == old(currentMonth)
                           && currentDay == old(currentDay)
                           && GridUnchanged(old(dates[..]), old(accents[..]), old(marks[..]))))
      ensures !uiCreated ==> GridUnchanged(old(dates[..]), old(accents[..]), old(marks[..]))
      ensures uiCreated == old(uiCreated)
    {
      if Elapsed(now, lastTimeUpdate) >= TimeUpdateInterval {
        lastTimeUpdate := now;
        if reading.hour != currentHour || reading.minute != currentMinute {
          currentHour := reading.hour;
          currentMinute := reading.minute;
          if reading.year != currentYear || reading.month != currentMonth || reading.day != currentDay {
            currentYear := reading.year;
            currentMonth := reading.month;
            currentDay := reading.day;
            UpdateCalendar(reading, startDow);
          }
        }
      }
    }
  }
}
