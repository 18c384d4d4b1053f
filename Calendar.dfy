/** The calendar arithmetic of CalendarView.tsx: the "YYYY-MM-DD" history keys,
    the Monday-first month grid and the weekly summary over the history.

    The host's Date is not modelled: a date is its (year, 0-based month, day)
    triple, and the weekday of a date and the lengths of months are inputs. */
module Calendar {
  import opened Types
  import opened Decimal

  /** A local calendar date as the host reports it. */
  datatype CalDate = CalDate(year: int, month0: nat, day: nat)

  /** A month and day the host can report: months 0..11, days 1..31. */
  predicate Reportable(d: CalDate) {
    d.month0 < 12 && 1 <= d.day <= 31
  }

  // ---------------------------------------------------------------------------
  // History keys

  /** The history key of a date: the year as the host spells it, then the
      1-based month and the day, each left-padded to two digits. */
  function ToLocalDateString(d: CalDate): string
    requires Reportable(d)
  {
    IntToString(d.year) + "-" + PadStart2(NatToString(d.month0 + 1)) + "-" + PadStart2(NatToString(d.day))
  }

  /** The shape of a key: the year's spelling, '-', two digits, '-', two digits. */
  lemma DateKeyShape(d: CalDate)
    requires Reportable(d)
    ensures var key := ToLocalDateString(d);
      && |key| == |IntToString(d.year)| + 6
      && key[..|key| - 6] == IntToString(d.year)
      && key[|key| - 6] == '-' && key[|key| - 3] == '-'
      && AllDigits(key[|key| - 5..|key| - 3]) && AllDigits(key[|key| - 2..])
  {
    TwoDigitField(d.month0 + 1);
    TwoDigitField(d.day);
    KeyFields(IntToString(d.year), PadStart2(NatToString(d.month0 + 1)), PadStart2(NatToString(d.day)));
  }

  /** Where the three fields sit in a key "year-mm-dd" with two-character mm and dd. */
  lemma KeyFields(y: string, mm: string, dd: string)
    requires |mm| == 2 && |dd| == 2
    ensures var s := y + "-" + mm + "-" + dd;
      && |s| == |y| + 6 && s[..|s| - 6] == y && s[|s| - 6] == '-' && s[|s| - 3] == '-'
      && s[|s| - 5..|s| - 3] == mm && s[|s| - 2..] == dd
  {
    var s := y + "-" + mm + "-" + dd;
    assert s[..|y|] == y;
    assert s[|y| + 1..|y| + 3] == mm;
    assert s[|y| + 4..] == dd;
  }

  /** The year part of a key: an optional minus sign and at least one digit. */
  function ParseYear(y: string): Option<int> {
    if |y| >= 2 && y[0] == '-' && AllDigits(y[1..]) then Some(0 - ParseDecimal(y[1..]) as int)
    else if |y| >= 1 && AllDigits(y) then Some(ParseDecimal(y))
    else None
  }

  /** Reads a history key back into a date; anything not of the key's shape is None. */
  function ParseDateKey(s: string): Option<CalDate> {
    if |s| >= 7 && s[|s| - 6] == '-' && s[|s| - 3] == '-' &&
       AllDigits(s[|s| - 5..|s| - 3]) && AllDigits(s[|s| - 2..]) &&
       ParseDecimal(s[|s| - 5..|s| - 3]) >= 1
    then
      match ParseYear(s[..|s| - 6])
      case None => None
      case Some(year) =>
        Some(CalDate(year, ParseDecimal(s[|s| - 5..|s| - 3]) - 1, ParseDecimal(s[|s| - 2..])))
    else
      None
  }

  lemma ParseYearOfIntToString(y: int)
    ensures ParseYear(IntToString(y)) == Some(y)
  {
    var s := IntToString(y);
    if y < 0 {
      ParseNatToString(-y);
    } else {
      ParseNatToString(y);
      assert IsDigit(s[0]);
    }
  }

  /** A key assembled from well-formed fields reads back as those fields. */
  lemma ParseKeyFields(y: string, mm: string, dd: string)
    requires |mm| == 2 && |dd| == 2 && AllDigits(mm) && AllDigits(dd)
    requires ParseDecimal(mm) >= 1 && ParseYear(y).Some?
    ensures ParseDateKey(y + "-" + mm + "-" + dd) ==
      Some(CalDate(ParseYear(y).value, ParseDecimal(mm) - 1, ParseDecimal(dd)))
  {
    KeyFields(y, mm, dd);
  }

  /** Every key reads back as the date it was made from. */
  lemma DateKeyRoundTrip(d: CalDate)
    requires Reportable(d)
    ensures ParseDateKey(ToLocalDateString(d)) == Some(d)
  {
    var y := IntToString(d.year);
    var mm, dd := PadStart2(NatToString(d.month0 + 1)), PadStart2(NatToString(d.day));
    TwoDigitField(d.month0 + 1);
    TwoDigitField(d.day);
    ParseYearOfIntToString(d.year);
    ParseKeyFields(y, mm, dd);
    assert ToLocalDateString(d) == y + "-" + mm + "-" + dd;
  }

  /** Distinct dates have distinct keys, so no two days share a history entry. */
  lemma DateKeyInjective(a: CalDate, b: CalDate)
    requires Reportable(a) && Reportable(b)
    ensures ToLocalDateString(a) == ToLocalDateString(b) <==> a == b
  {
    if ToLocalDateString(a) == ToLocalDateString(b) {
      DateKeyRoundTrip(a);
      DateKeyRoundTrip(b);
    }
  }

  /** Example keys: single-digit months and days gain a leading zero. */
  lemma KeyExamples()
    ensures ToLocalDateString(CalDate(2024, 0, 5)) == "2024-01-05"
    ensures ToLocalDateString(CalDate(2023, 11, 31)) == "2023-12-31"
  {
    assert NatToString(2024) == "2024" && NatToString(2023) == "2023";
  }

  // ---------------------------------------------------------------------------
  // Weekdays, Monday first

  /** The host's weekday (0 = Sunday) as a column of a Monday-first week. */
  function MondayIndex(weekday: int): (m: nat)
    requires 0 <= weekday < 7
    ensures m < 7
    ensures (m + 1) % 7 == weekday
    ensures weekday == 1 ==> m == 0
    ensures weekday == 0 ==> m == 6
  {
    (weekday + 6) % 7
  }

  /** Day k of a month whose first day has weekday w lands in the column of its own weekday. */
  lemma ColumnOfDay(w: int, k: nat)
    requires 0 <= w < 7 && k >= 1
    ensures (MondayIndex(w) + k - 1) % 7 == MondayIndex((w + k - 1) % 7)
  {
    var x := w + k + 5;
    ModShift(x, -((w + 6) / 7));
    ModShift(x, -((w + k - 1) / 7));
  }

  /** Adding a multiple of 7 does not change the remainder. */
  lemma ModShift(x: int, q: int)
    ensures (x + 7 * q) % 7 == x % 7
  {
    var r := x % 7;
    var y := x + 7 * q;
    assert y == 7 * (x / 7 + q) + r;
    assert y / 7 == x / 7 + q;
  }

  // ---------------------------------------------------------------------------
  // The month grid

  /** The cells of the month view: one empty cell per weekday before the 1st,
      counting from Monday, then the days of the month in order. */
  method CalendarDays(year: int, month0: nat, firstWeekday: int, daysInMonth: nat)
    returns (days: seq<Option<CalDate>>)
    requires 0 <= firstWeekday < 7
    ensures |days| == MondayIndex(firstWeekday) + daysInMonth
    ensures forall i :: 0 <= i < MondayIndex(firstWeekday) ==> days[i] == None
    ensures forall i :: MondayIndex(firstWeekday) <= i < |days| ==>
      days[i] == Some(CalDate(year, month0, i - MondayIndex(firstWeekday) + 1))
    ensures forall i :: MondayIndex(firstWeekday) <= i < |days| ==>
      i % 7 == MondayIndex((firstWeekday + days[i].value.day - 1) % 7)
  {
    var pad := (firstWeekday + 6) % 7;
    days := [];
    var i := 0;
    while i < pad
      invariant 0 <= i <= pad && |days| == i
      invariant forall j :: 0 <= j < i ==> days[j] == None
    {
      days := days + [None];
      i := i + 1;
    }
    var k := 1;
    while k <= daysInMonth
      invariant 1 <= k <= daysInMonth + 1 && |days| == pad + k - 1
      invariant forall j :: 0 <= j < pad ==> days[j] == None
      invariant forall j :: pad <= j < |days| ==> days[j] == Some(CalDate(year, month0, j - pad + 1))
      invariant forall j :: pad <= j < |days| ==> j % 7 == MondayIndex((firstWeekday + days[j].value.day - 1) % 7)
    {
      ColumnOfDay(firstWeekday, k);
      days := days + [Some(CalDate(year, month0, k))];
      k := k + 1;
    }
  }

  // ---------------------------------------------------------------------------
  // The week of the selected date

  /** What the week computation knows about the selected date: its weekday and
      the lengths of its month and of the month before. */
  predicate WeekContext(sel: CalDate, weekday: int, daysPrev: nat, daysCur: nat) {
    && sel.month0 < 12
    && 0 <= weekday < 7
    && 28 <= daysPrev <= 31 && 28 <= daysCur <= 31
    && 1 <= sel.day <= daysCur
  }

  function MonthBefore(year: int, month0: nat): (int, nat) {
    if month0 == 0 then (year - 1, 11) else (year, month0 - 1)
  }

  function MonthAfter(year: int, month0: nat): (int, nat) {
    if month0 >= 11 then (year + 1, 0) else (year, month0 + 1)
  }

  /** The i-th day of the week of `sel`: the Monday on or before `sel`, moved
      forward i days, running over into the neighbouring months. */
  function WeekDate(sel: CalDate, weekday: int, daysPrev: nat, daysCur: nat, i: nat): (d: CalDate)
    requires WeekContext(sel, weekday, daysPrev, daysCur) && i < 7
    ensures Reportable(d)
    ensures || ((d.year, d.month0) == MonthBefore(sel.year, sel.month0) && daysPrev - 5 <= d.day <= daysPrev)
            || (d.year == sel.year && d.month0 == sel.month0 && 1 <= d.day <= daysCur)
            || ((d.year, d.month0) == MonthAfter(sel.year, sel.month0) && 1 <= d.day <= 6)
  {
    var j := sel.day - MondayIndex(weekday) + i;
    if j < 1 then
      var (y, m) := MonthBefore(sel.year, sel.month0);
      CalDate(y, m, daysPrev + j)
    else if j > daysCur then
      var (y, m) := MonthAfter(sel.year, sel.month0);
      CalDate(y, m, j - daysCur)
    else
      CalDate(sel.year, sel.month0, j)
  }

  /** The next calendar day, for a date in a month of `len` days. */
  function NextDay(d: CalDate, len: nat): CalDate {
    if d.day < len then CalDate(d.year, d.month0, d.day + 1)
    else
      var (y, m) := MonthAfter(d.year, d.month0);
      CalDate(y, m, 1)
  }

  /** The selected date sits in its own weekday's column of the week. */
  lemma WeekContainsSelected(sel: CalDate, weekday: int, daysPrev: nat, daysCur: nat)
    requires WeekContext(sel, weekday, daysPrev, daysCur)
    ensures WeekDate(sel, weekday, daysPrev, daysCur, MondayIndex(weekday)) == sel
  {
  }

  /** The seven days are consecutive: each is the day after the one before.
      A day of the week in the month before has that month's length, one in
      the selected month that month's; a day in the month after is at most the
      6th, so any month length gives the same next day. */
  lemma WeekConsecutive(sel: CalDate, weekday: int, daysPrev: nat, daysCur: nat, i: nat)
    requires WeekContext(sel, weekday, daysPrev, daysCur) && i < 6
    ensures var d := WeekDate(sel, weekday, daysPrev, daysCur, i);
      WeekDate(sel, weekday, daysPrev, daysCur, i + 1) ==
        NextDay(d, if d.year == sel.year && d.month0 == sel.month0 then daysCur else daysPrev)
  {
  }

  /** No date occurs twice in a week. */
  lemma WeekDatesDistinct(sel: CalDate, weekday: int, daysPrev: nat, daysCur: nat, i: nat, k: nat)
    requires WeekContext(sel, weekday, daysPrev, daysCur) && i < k < 7
    ensures WeekDate(sel, weekday, daysPrev, daysCur, i) != WeekDate(sel, weekday, daysPrev, daysCur, k)
  {
  }

  /** The history keys of the week, Monday first. */
  function WeekKeys(sel: CalDate, weekday: int, daysPrev: nat, daysCur: nat): (keys: seq<string>)
    requires WeekContext(sel, weekday, daysPrev, daysCur)
    ensures |keys| == 7
    ensures forall i :: 0 <= i < 7 ==> keys[i] == ToLocalDateString(WeekDate(sel, weekday, daysPrev, daysCur, i))
  {
    seq(7, i requires 0 <= i < 7 => ToLocalDateString(WeekDate(sel, weekday, daysPrev, daysCur, i)))
  }

  /** The week's seven keys are pairwise different, so no entry is counted twice. */
  lemma WeekKeysDistinct(sel: CalDate, weekday: int, daysPrev: nat, daysCur: nat, i: nat, k: nat)
    requires WeekContext(sel, weekday, daysPrev, daysCur) && i < k < 7
    ensures WeekKeys(sel, weekday, daysPrev, daysCur)[i] != WeekKeys(sel, weekday, daysPrev, daysCur)[k]
  {
    var a, b := WeekDate(sel, weekday, daysPrev, daysCur, i), WeekDate(sel, weekday, daysPrev, daysCur, k);
    WeekDatesDistinct(sel, weekday, daysPrev, daysCur, i, k);
    DateKeyInjective(a, b);
  }

  // ---------------------------------------------------------------------------
  // Goal-met days and the weekly summary

  /** The check mark of a day: it has an entry whose intake reached its goal. */
  function IsGoalMet(log: HydrationLog, key: string): (met: bool)
    ensures key !in log ==> !met
    ensures key in log ==> (met <==> log[key].intake >= log[key].goal)
  {
    key in log && log[key].intake >= log[key].goal
  }

  /** What a day adds to the weekly intake: its intake, or nothing without an entry. */
  function Intake(log: HydrationLog, key: string): int {
    if key in log then log[key].intake else 0
  }

  /** Total logged intake over the keys. */
  function SumIntake(log: HydrationLog, keys: seq<string>): int {
    if keys == [] then 0 else SumIntake(log, keys[..|keys| - 1]) + Intake(log, keys[|keys| - 1])
  }

  /** Number of keys whose day met its goal. */
  function CountMet(log: HydrationLog, keys: seq<string>): nat {
    if keys == [] then 0
    else CountMet(log, keys[..|keys| - 1]) + (if IsGoalMet(log, keys[|keys| - 1]) then 1 else 0)
  }

  /** The count is at most the number of days, reaches it exactly when every
      day met its goal, and is zero exactly when none did. */
  lemma {:induction false} CountMetBounds(log: HydrationLog, keys: seq<string>)
    ensures CountMet(log, keys) <= |keys|
    ensures CountMet(log, keys) == |keys| <==> forall i :: 0 <= i < |keys| ==> IsGoalMet(log, keys[i])
    ensures CountMet(log, keys) == 0 <==> forall i :: 0 <= i < |keys| ==> !IsGoalMet(log, keys[i])
  {
    if keys != [] {
      var init := keys[..|keys| - 1];
      CountMetBounds(log, init);
      assert forall i :: 0 <= i < |init| ==> init[i] == keys[i];
    }
  }

  /** Number of keys that have an entry in the history. */
  function CountLogged(log: HydrationLog, keys: seq<string>): nat {
    if keys == [] then 0
    else CountLogged(log, keys[..|keys| - 1]) + (if keys[|keys| - 1] in log then 1 else 0)
  }

  /** Only a logged day can be goal met: the count is at most the logged days,
      and equals them exactly when every logged day reached its goal. */
  lemma {:induction false} MetOnlyIfLogged(log: HydrationLog, keys: seq<string>)
    ensures CountMet(log, keys) <= CountLogged(log, keys)
    ensures CountMet(log, keys) == CountLogged(log, keys) <==>
      forall i :: 0 <= i < |keys| && keys[i] in log ==> log[keys[i]].intake >= log[keys[i]].goal
  {
    if keys != [] {
      var init := keys[..|keys| - 1];
      MetOnlyIfLogged(log, init);
      assert forall i :: 0 <= i < |init| ==> init[i] == keys[i];
    }
  }

  /** Days without an entry contribute nothing: a week with no entries sums to 0. */
  lemma {:induction false} NoEntriesNoIntake(log: HydrationLog, keys: seq<string>)
    requires forall k :: k in keys ==> k !in log
    ensures SumIntake(log, keys) == 0 && CountMet(log, keys) == 0
  {
    if keys != [] {
      assert keys[|keys| - 1] in keys;
      var init := keys[..|keys| - 1];
      assert forall k :: k in init ==> k in keys;
      NoEntriesNoIntake(log, init);
    }
  }

  /** The summary reads only the entries under the given keys: two histories
      that agree on them give the same totals. */
  lemma {:induction false} SummaryLocal(log1: HydrationLog, log2: HydrationLog, keys: seq<string>)
    requires forall k :: k in keys ==> (k in log1 <==> k in log2)
    requires forall k :: k in keys && k in log1 ==> log1[k] == log2[k]
    ensures SumIntake(log1, keys) == SumIntake(log2, keys)
    ensures CountMet(log1, keys) == CountMet(log2, keys)
  {
    if keys != [] {
      assert keys[|keys| - 1] in keys;
      var init := keys[..|keys| - 1];
      assert forall k :: k in init ==> k in keys;
      SummaryLocal(log1, log2, init);
    }
  }

  /** Extending the prefix by one key adds that key's contribution. */
  lemma SummaryStep(log: HydrationLog, keys: seq<string>, i: nat)
    requires i < |keys|
    ensures SumIntake(log, keys[..i + 1]) == SumIntake(log, keys[..i]) + Intake(log, keys[i])
    ensures CountMet(log, keys[..i + 1]) == CountMet(log, keys[..i]) + (if IsGoalMet(log, keys[i]) then 1 else 0)
  {
    assert keys[..i + 1][..i] == keys[..i];
  }

  /** The week summary: total intake over the seven days of the selected
      date's week that have an entry, and how many of them met their goal. */
  method WeeklySummary(log: HydrationLog, sel: CalDate, weekday: int, daysPrev: nat, daysCur: nat)
    returns (totalIntake: int, goalMetDays: nat)
    requires WeekContext(sel, weekday, daysPrev, daysCur)
    ensures totalIntake == SumIntake(log, WeekKeys(sel, weekday, daysPrev, daysCur))
    ensures goalMetDays == CountMet(log, WeekKeys(sel, weekday, daysPrev, daysCur))
    ensures goalMetDays <= 7
  {
    ghost var keys := WeekKeys(sel, weekday, daysPrev, daysCur);
    totalIntake, goalMetDays := 0, 0;
    for i := 0 to 7
      invariant totalIntake == SumIntake(log, keys[..i])
      invariant goalMetDays == CountMet(log, keys[..i])
    {
      var date := WeekDate(sel, weekday, daysPrev, daysCur, i);
      var dateString := ToLocalDateString(date);
      assert dateString == keys[i];
      SummaryStep(log, keys, i);
      totalIntake, goalMetDays := AddDay(log, dateString, totalIntake, goalMetDays);
    }
    assert keys[..7] == keys;
    assert goalMetDays <= 7 by {
      CountMetBounds(log, keys);
    }
  }

  /** One day of the summary: a day with an entry adds its intake, and counts
      when the intake reached the goal. */
  method AddDay(log: HydrationLog, dateString: string, total: int, met: nat)
    returns (total': int, met': nat)
    ensures total' == total + Intake(log, dateString)
    ensures met' == met + (if IsGoalMet(log, dateString) then 1 else 0)
  {
    total', met' := total, met;
    if dateString in log {
      var dayLog := log[dateString];
      total' := total' + dayLog.intake;
      if dayLog.intake >= dayLog.goal {
        met' := met' + 1;
      }
    }
  }
}
