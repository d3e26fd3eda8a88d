/** The date-of-birth calendar of src/screens/auth/DatePickerScreen.tsx:
    the month grid, month navigation and the selected-date label.
    JavaScript's `Date` is modelled by the proleptic Gregorian calendar,
    including the constructor's rule that a year in 0..99 means 1900..1999. */
module DatePicker {
  import opened Strings
  import opened Options

  const MonthNames: seq<string> :=
    ["January", "February", "March", "April", "May", "June",
     "July", "August", "September", "October", "November", "December"]

  predicate IsMonth(m: int) { 1 <= m <= 12 }

  predicate IsLeapYear(y: int)
  {
    (y % 4 == 0 && y % 100 != 0) || y % 400 == 0
  }

  /** The number of days of month `m` of Gregorian year `y`. */
  function GregorianDaysInMonth(y: int, m: int): (r: int)
    requires IsMonth(m)
    ensures 28 <= r <= 31
    ensures m == 2 ==> (r == 29 <==> IsLeapYear(y)) && (r == 28 <==> !IsLeapYear(y))
    ensures m in {4, 6, 9, 11} ==> r == 30
    ensures m in {1, 3, 5, 7, 8, 10, 12} ==> r == 31
  {
    if m == 2 then (if IsLeapYear(y) then 29 else 28)
    else if m == 4 || m == 6 || m == 9 || m == 11 then 30
    else 31
  }

  const MonthOffsets: seq<int> := [0, 3, 2, 5, 0, 3, 5, 1, 4, 6, 2, 4]

  /** The weekday (0 = Sunday) of day `d` of month `m` of Gregorian year `y`,
      by Sakamoto's formula. */
  function GregorianWeekday(y: int, m: int, d: int): (r: int)
    requires IsMonth(m)
    ensures 0 <= r < 7
  {
    var yy := if m < 3 then y - 1 else y;
    (YearBase(yy) + MonthOffsets[m - 1] + d) % 7
  }

  /** The year term of Sakamoto's formula. */
  function YearBase(yy: int): int
  {
    yy + yy / 4 - yy / 100 + yy / 400
  }

  /** A leap year adds one more day to the year term. */
  lemma YearBaseStep(y: int)
    ensures YearBase(y) - YearBase(y - 1) == if IsLeapYear(y) then 2 else 1
  {
    assert y / 4 - (y - 1) / 4 == (if y % 4 == 0 then 1 else 0);
    assert y / 100 - (y - 1) / 100 == (if y % 100 == 0 then 1 else 0) by {
      CenturyStep(y);
    }
    assert y / 400 - (y - 1) / 400 == (if y % 400 == 0 then 1 else 0) by {
      QuadCenturyStep(y);
    }
  }

  lemma CenturyStep(y: int)
    ensures y / 100 - (y - 1) / 100 == (if y % 100 == 0 then 1 else 0)
  {
  }

  lemma QuadCenturyStep(y: int)
    ensures y / 400 - (y - 1) / 400 == (if y % 400 == 0 then 1 else 0)
  {
  }

  lemma ModShift(a: int, b: int)
    ensures (a % 7 + b) % 7 == (a + b) % 7
  {
    assert a == 7 * (a / 7) + a % 7;
  }

  /** The year `new Date(year, …)` means. */
  function JsYear(year: int): (r: int)
    ensures 0 <= year <= 99 ==> r == 1900 + year
    ensures !(0 <= year <= 99) ==> r == year
  {
    if 0 <= year <= 99 then 1900 + year else year
  }

  /** `firstDay`: `new Date(year, month - 1, 1).getDay()`. */
  function FirstDay(year: int, month: int): (r: int)
    requires IsMonth(month)
    ensures 0 <= r < 7
  {
    GregorianWeekday(JsYear(year), month, 1)
  }

  /** `daysInMonth`: `new Date(year, month, 0).getDate()`, the last day of
      the month before the zero-based `month`, i.e. of the one-based `month`. */
  function DaysInMonth(year: int, month: int): (r: int)
    requires IsMonth(month)
    ensures 28 <= r <= 31
    ensures r == GregorianDaysInMonth(JsYear(year), month)
  {
    GregorianDaysInMonth(JsYear(year), month)
  }

  /** `handlePrevMonth` on (month, year). */
  function PrevMonth(month: int, year: int): (r: (int, int))
    requires IsMonth(month)
    ensures IsMonth(r.0)
    ensures month == 1 ==> r == (12, year - 1)
    ensures month != 1 ==> r == (month - 1, year)
  {
    if month == 1 then (12, year - 1) else (month - 1, year)
  }

  /** `handleNextMonth` on (month, year). */
  function NextMonth(month: int, year: int): (r: (int, int))
    requires IsMonth(month)
    ensures IsMonth(r.0)
    ensures month == 12 ==> r == (1, year + 1)
    ensures month != 12 ==> r == (month + 1, year)
  {
    if month == 12 then (1, year + 1) else (month + 1, year)
  }

  /** Next undoes Prev and Prev undoes Next. */
  lemma PrevNextInverse(month: int, year: int)
    requires IsMonth(month)
    ensures var p := PrevMonth(month, year); NextMonth(p.0, p.1) == (month, year)
    ensures var n := NextMonth(month, year); PrevMonth(n.0, n.1) == (month, year)
  {
  }

  /** The weekday formula and the month lengths agree: the next month starts
      on the weekday after the last day of this one. */
  lemma NextMonthStartsAfterLastDay(y: int, m: int)
    requires IsMonth(m)
    ensures var n := NextMonth(m, y);
      GregorianWeekday(n.1, n.0, 1) == (GregorianWeekday(y, m, 1) + GregorianDaysInMonth(y, m)) % 7
  {
    var yy := if m < 3 then y - 1 else y;
    var here := YearBase(yy) + MonthOffsets[m - 1] + 1;
    var d := GregorianDaysInMonth(y, m);
    var n := NextMonth(m, y);
    var nyy := if n.0 < 3 then n.1 - 1 else n.1;
    var there := YearBase(nyy) + MonthOffsets[n.0 - 1] + 1;
    var q := if m == 4 || m == 7 || m == 10 || m == 12 then 5 else 4;
    if m == 2 {
      YearBaseStep(y);
    }
    assert there == here + d - 7 * q;
    ModMinus(here + d, q);
    ModShift(here, d);
  }

  lemma ModMinus(x: int, q: int)
    ensures (x - 7 * q) % 7 == x % 7
  {
    assert x == 7 * (x / 7) + x % 7;
    assert x - 7 * q == 7 * (x / 7 - q) + x % 7;
  }

  /** `${day} ${monthNames[month - 1]} ${year}` */
  function FormatDate(day: int, month: int, year: int): string
    requires IsMonth(month)
  {
    IntToString(day) + " " + MonthNames[month - 1] + " " + IntToString(year)
  }

  predicate NoSpace(s: string)
  {
    forall i :: 0 <= i < |s| ==> s[i] != ' '
  }

  /** Two strings without spaces, each followed by a space, split alike. */
  lemma SplitAtSpace(a: string, b: string, r1: string, r2: string)
    requires NoSpace(a) && NoSpace(b)
    requires a + " " + r1 == b + " " + r2
    ensures a == b && r1 == r2
  {
    var k := if |a| < |b| then |a| else |b|;
    assert (a + " " + r1)[k] == (b + " " + r2)[k];
    assert |a| == |b|;
    assert a == (a + " " + r1)[..|a|];
    assert b == (b + " " + r2)[..|b|];
    assert r1 == (a + " " + r1)[|a| + 1..];
    assert r2 == (b + " " + r2)[|b| + 1..];
  }

  lemma IntToStringInjective(i: int, j: int)
    requires IntToString(i) == IntToString(j)
    ensures i == j
  {
    if i >= 0 && j >= 0 {
    } else if i < 0 && j < 0 {
      assert NatToString(-i) == IntToString(i)[1..];
      assert NatToString(-j) == IntToString(j)[1..];
    }
  }

  lemma IntToStringNoSpace(i: int)
    ensures NoSpace(IntToString(i))
  {
    var n := NatToString(if i >= 0 then i else -i);
    assert forall k :: 0 <= k < |n| ==> IsDigit(n[k]);
  }

  /** The selected-date label is unambiguous: it determines the day, the
      month and the year it was made from. */
  lemma FormatDateInjective(d1: int, m1: int, y1: int, d2: int, m2: int, y2: int)
    requires IsMonth(m1) && IsMonth(m2)
    requires FormatDate(d1, m1, y1) == FormatDate(d2, m2, y2)
    ensures d1 == d2 && m1 == m2 && y1 == y2
  {
    IntToStringNoSpace(d1);
    IntToStringNoSpace(d2);
    var n1, n2 := MonthNames[m1 - 1], MonthNames[m2 - 1];
    var t1, t2 := n1 + " " + IntToString(y1), n2 + " " + IntToString(y2);
    FormatDateShape(d1, m1, y1);
    FormatDateShape(d2, m2, y2);
    SplitAtSpace(IntToString(d1), IntToString(d2), t1, t2);
    IntToStringInjective(d1, d2);
    MonthNameNoSpace(m1);
    MonthNameNoSpace(m2);
    SplitAtSpace(n1, n2, IntToString(y1), IntToString(y2));
    MonthNameInjective(m1, m2);
    IntToStringInjective(y1, y2);
  }

  lemma FormatDateShape(d: int, m: int, y: int)
    requires IsMonth(m)
    ensures FormatDate(d, m, y) == IntToString(d) + " " + (MonthNames[m - 1] + " " + IntToString(y))
  {
    Regroup(IntToString(d), MonthNames[m - 1], IntToString(y));
  }

  lemma Regroup(a: string, b: string, c: string)
    ensures a + " " + b + " " + c == a + " " + (b + " " + c)
  {
  }

  lemma MonthNameNoSpace(m: int)
    requires IsMonth(m)
    ensures NoSpace(MonthNames[m - 1])
  {
  }

  lemma MonthNameInjective(m1: int, m2: int)
    requires IsMonth(m1) && IsMonth(m2)
    requires MonthNames[m1 - 1] == MonthNames[m2 - 1]
    ensures m1 == m2
  {
  }

  /** The initial label is the one the initial day, month and year format to. */
  lemma InitialLabel()
    ensures FormatDate(22, 11, 2000) == "22 November 2000"
  {
    var day, year := IntToString(22), IntToString(2000);
    assert day == "22" by {
      assert NatToString(22) == NatToString(2) + [DigitChar(2)];
    }
    assert year == "2000" by {
      Numeral2000();
    }
    assert MonthNames[10] == "November";
    assert FormatDate(22, 11, 2000) == day + " " + "November" + " " + year;
  }

  lemma Numeral2000()
    ensures NatToString(2000) == "2000"
  {
    assert NatToString(20) == NatToString(2) + [DigitChar(0)];
    assert NatToString(200) == NatToString(20) + [DigitChar(0)];
    assert NatToString(2000) == NatToString(200) + [DigitChar(0)];
  }

  /** 1 November 2000, the month first shown, was a Wednesday. */
  lemma November2000StartsOnWednesday()
    ensures FirstDay(2000, 11) == 3 && DaysInMonth(2000, 11) == 30
  {
  }

  class DatePickerScreen {
    var selectedDate: string
    var selectedDay: int
    var currentMonth: int
    var currentYear: int

    ghost predicate Valid()
      reads this
    {
      IsMonth(currentMonth)
    }

    constructor ()
      ensures Valid()
      ensures selectedDate == "22 November 2000" && selectedDay == 22
      ensures currentMonth == 11 && currentYear == 2000
    {
      selectedDate := "22 November 2000";
      selectedDay := 22;
      currentMonth := 11;
      currentYear := 2000;
    }

    /** `generateCalendarDays`: `firstDay` empty cells, then the days
        1..daysInMonth of the month shown. */
    method GenerateCalendarDays() returns (days: seq<Option<int>>)
      requires Valid()
      ensures |days| == FirstDay(currentYear, currentMonth) + DaysInMonth(currentYear, currentMonth)
      ensures forall i :: 0 <= i < FirstDay(currentYear, currentMonth) ==> days[i] == None
      ensures forall k :: 1 <= k <= DaysInMonth(currentYear, currentMonth) ==>
        days[FirstDay(currentYear, currentMonth) + k - 1] == Some(k)
    {
      var firstDay := FirstDay(currentYear, currentMonth);
      var daysInMonth := DaysInMonth(currentYear, currentMonth);
      days := [];
      var i := 0;
      while i < firstDay
        invariant 0 <= i <= firstDay
        invariant |days| == i
        invariant forall j :: 0 <= j < i ==> days[j] == None
      {
        days := days + [None];
        i := i + 1;
      }
      var day := 1;
      while day <= daysInMonth
        invariant 1 <= day <= daysInMonth + 1
        invariant |days| == firstDay + day - 1
        invariant forall j :: 0 <= j < firstDay ==> days[j] == None
        invariant forall k :: 1 <= k < day ==> days[firstDay + k - 1] == Some(k)
      {
        days := days + [Some(day)];
        day := day + 1;
      }
    }

    /** `handleDaySelect(day)`: a non-zero day becomes the selection. */
    method HandleDaySelect(day: int)
      modifies this`selectedDay, this`selectedDate
      requires Valid()
      ensures Valid()
      ensures day != 0 ==> selectedDay == day && selectedDate == FormatDate(day, currentMonth, currentYear)
      ensures day == 0 ==> selectedDay == old(selectedDay) && selectedDate == old(selectedDate)
    {
      if day != 0 {
        selectedDay := day;
        selectedDate := FormatDate(day, currentMonth, currentYear);
      }
    }

    method HandlePrevMonth()
      modifies this`currentMonth, this`currentYear
      requires Valid()
      ensures Valid()
      ensures (currentMonth, currentYear) == PrevMonth(old(currentMonth), old(currentYear))
    {
      if currentMonth == 1 {
        currentMonth := 12;
        currentYear := currentYear - 1;
      } else {
        currentMonth := currentMonth - 1;
      }
    }

    method HandleNextMonth()
      modifies this`currentMonth, this`currentYear
      requires Valid()
      ensures Valid()
      ensures (currentMonth, currentYear) == NextMonth(old(currentMonth), old(currentYear))
    {
      if currentMonth == 12 {
        currentMonth := 1;
        currentYear := currentYear + 1;
      } else {
        currentMonth := currentMonth + 1;
      }
    }

    /** `handleOk`: the selected label goes to the caller's `onDateSelect`
        callback when there is one. */
    method HandleOk(hasCallback: bool) returns (delivered: Option<string>)
      ensures delivered == if hasCallback then Some(selectedDate) else None
    {
      delivered := if hasCallback then Some(selectedDate) else None;
    }
  }
}
