# Hydration reminder app — verified model of its core rules

The app builds a user profile in a four-screen onboarding wizard (lifestyle
category, weight and height on a radial picker, water habit), derives a daily
water goal from it, and arms a handful of reminders spread over the waking
day. A dashboard counts the glasses drunk against the goal, and a calendar
view summarises a history of daily intakes by week.

This project models, in Dafny:

- `Hydration` (Hydration.dfy): the daily-goal formula, in exact arithmetic,
  with an integer closed form proved equal to it.
- `Reminders` (Reminders.dfy): the reminder effect of the app shell.
  - It reads the two "HH:MM" times and builds the active window, moving bed
    time forward a day when it is not after wake time.
  - It sets the reminder count from the goal and the evenly spread firing
    instants, and drops those already past.
  - It models the host's timers (`TimerHost`) and the `reminderTimers` buffer
    of handles (`ReminderTimers`). The buffer is emptied and its timers
    cancelled before each reschedule.
  - Instants are milliseconds since local midnight of the day of `now`.
    The window always opens at today's wake time, so a run after midnight
    inside an overnight window arms the coming night's reminders and none of
    the current night's (`Reminders.OvernightExample`).
- `AppShell` (App.dfy): the wizard's step machine with its guards, and the
  `App` class, whose step and profile changes re-run the reminder effect.
- `Calendar` (Calendar.dfy): the "YYYY-MM-DD" history keys, the Monday-first
  month grid and the weekly summary.
- `Metrics` (Metrics.dfy): the metric ranges, the angle-to-value rule of the
  radial picker, and the form's active metric and drag flag.
- `DashboardModel` (Dashboard.dfy): the intake counter with its one-off
  "goal reached" feedback, the capped progress and the urine-colour update.
- `Types`, `Arith` and `Decimal` hold shared material:
  - `Types`: the records and enumerations of types.ts.
  - `Arith`: division facts.
  - `Decimal`: the decimal spelling that `toString` and `padStart` produce.

The host's clock, calendar and timers are parameters:

- `now` is an argument.
- A date is a (year, 0-based month, day) triple. Its weekday and the month
  lengths around it are inputs.
- Timers are a map from handle to due instant.

The goal shown on the dashboard is `Hydration.CalculateDailyGoal` of the
profile, by definition (`DashboardModel.Dashboard.DailyGoal`). The intake
counter keeps its count when the profile changes, so the "goal reached"
feedback can fire a second time after reporting dehydration raises the goal.
This counts as reaching a new goal, not a defect, and is stated as
`DashboardModel.FiresAgainAfterGoalRise`.

## Model

| member | source | states |
|---|---|---|
| Hydration.JsRound | utils/hydration.ts:12 | Math.round is floor(x + 1/2): the result is within half a unit, ties going up |
| Hydration.RoundedGoal | utils/hydration.ts:12 | the goal before the dehydration step is a multiple of 100 |
| Hydration.CalculateDailyGoal | utils/hydration.ts:3-18 | unless the last colour is Dehydrated the goal is the rounded goal; with Dehydrated it is at most the rounded goal times 1.15 plus 1/2 (the exact value, 115 ml per 100, is stated by DehydratedBonusExact) |
| Hydration.Factor50 | utils/hydration.ts:5-10 | the combined category/habit factor is one of 1, 1.2, 0.9 or 1.08 (in fiftieths) |
| Hydration.BaseIntake | utils/hydration.ts:4-10 | the base intake: weight*33, then the Athlete and Low factors in source order; what it equals is stated by BaseIntakeScaled |
| Hydration.BaseIntakeScaled | utils/hydration.ts:4-10 | before rounding the value is weight*33, times 1.2 only for Athlete, then 0.9 only for Low; the factors compose |
| Hydration.RoundedGoalClosedForm | utils/hydration.ts:4-12 | round(base/100)*100 equals the integer formula (w*33*k + 2500) / 5000 * 100 |
| Hydration.DehydratedBonusExact | utils/hydration.ts:14-16 | Dehydrated gives exactly 115 ml per 100 ml of the rounded goal; the second rounding never acts |
| Hydration.GoalMultipleOf100 | utils/hydration.ts:12 | unless Dehydrated the result is a multiple of 100, given by round-half-up of base/100 |
| Hydration.GoalDependsOnlyOnFormulaFields | utils/hydration.ts:3-17 | profiles that agree on weight, category, habit and last colour get the same goal |
| Hydration.GoalClosedForm | utils/hydration.ts:3-18 | the whole function as an integer closed form, for every profile |
| Hydration.RoundedGoalIntMonotone | utils/hydration.ts:4-12 | the rounded goal never decreases with the weight |
| Hydration.GoalMonotoneInWeight | utils/hydration.ts:4-16 | a heavier user, all else equal, never gets a smaller goal |
| Hydration.LowWeightGivesZero | utils/hydration.ts:3-18 | the function is total and a weight of 0 or 1 kg yields 0 |
| Hydration.WorkedExamples | utils/hydration.ts:4-16 | 70 kg: 2310 -> 2300; Athlete 2772 -> 2800; Low and Dehydrated 2079 -> 2100 -> 2415 |
| Decimal.NatToString | components/Calendar/CalendarView.tsx:12-15 | the decimal spelling is all digits, has no leading zero except for 0, and one or two digits below 100 |
| Decimal.ParseNatToString | components/Calendar/CalendarView.tsx:12-15 | reading the decimal spelling back gives the number |
| Calendar.ParseYearOfIntToString | components/Calendar/CalendarView.tsx:12 | the year's spelling (Decimal.IntToString, with a minus sign for a negative year) reads back as the year, for every integer |
| Decimal.PadStart2 | components/Calendar/CalendarView.tsx:13-14 | padStart(2, '0') leaves a string of two or more characters alone and otherwise left-fills it with '0' to length 2 |
| Decimal.TwoDigitField | components/Calendar/CalendarView.tsx:13-14 | a padded month or day is exactly two digits whose value is the number |
| Reminders.ParseClock | App.tsx:91-92 | a time is readable exactly when it has the "DD:DD" shape, and then reads as at most 99:99 (its value, hours*60 + minutes, is stated by ParseFormatClock) |
| Reminders.ParseFormatClock | App.tsx:91-92 | every two-digit "HH:MM" reads back as its minutes since midnight |
| Reminders.ActiveWindow | App.tsx:94-100 | wake and bed instants of today, bed moved a day forward when not after wake; its properties are stated by WindowPositive and WindowWholeMinutes |
| Reminders.WindowPositive | App.tsx:94-106 | for times within a day, the adjusted bed instant is after wake, at most a day later, and past midnight exactly when bed <= wake |
| Reminders.WindowWholeMinutes | App.tsx:94-105 | the active duration is a whole number of minutes |
| Reminders.ReminderCount | App.tsx:111 | min(10, max(2, floor(goal/400))), always within [2, 10] |
| Reminders.FiringInstant | App.tsx:118 | the i-th instant, wake + i*duration/(count+1) truncated; FiringInstants collects i = 1..count, and FiringInstantStep and FiringInstantsInsideWindow state their order and bounds |
| Reminders.FiringInstantStep | App.tsx:114-118 | each firing instant is strictly after the one before |
| Reminders.FiringInstantsInsideWindow | App.tsx:114-118 | the count firing instants, wake + i*duration/(count+1) truncated to the millisecond, are strictly increasing and strictly between wake and bed |
| Reminders.InstantInside | App.tsx:114-118 | each of the i = 1..count instants lies strictly inside the window |
| Reminders.IncreasingFrom | App.tsx:114-118 | a later index gives a later instant |
| Reminders.FutureOnlyAppend | App.tsx:117-121 | one more loop turn keeps the new instant exactly when it lies after now |
| Reminders.FiringPrefixIsInstants | App.tsx:117-118 | the instants the loop has produced after n turns are the first n firing instants |
| Reminders.FutureOnlyMembers | App.tsx:120-121 | the kept instants are exactly those after now, and no more than there were |
| Reminders.FutureOnlyNone | App.tsx:120-121 | with no instant after now nothing is armed |
| Reminders.FutureOnlyIncreasing | App.tsx:117-121 | keeping the future instants of an increasing sequence keeps it increasing |
| Reminders.FutureOnlyCut | App.tsx:117-121 | of increasing instants the past ones form a prefix, and exactly the rest is armed |
| Reminders.FutureOnlyAll | App.tsx:117-121 | with every instant after now all are armed |
| Reminders.ArmedInstantsFacts | App.tsx:114-129 | the armed instants are at most count, after now, increasing and strictly inside the window |
| Reminders.ReminderPlan | App.tsx:84-129 | the effect's scheduling decision: nothing off the dashboard, with an empty or unreadable time (PlanWindow), past bed time or for an empty window, otherwise the firing instants after now; its properties are stated by PlanFacts and PlanOnDashboard |
| Reminders.PlanFacts | App.tsx:84-129 | something is armed only on the dashboard with both times non-empty and now not past bed; at most 10 instants, all after now, increasing, inside the window |
| Reminders.NothingAfterBedtime | App.tsx:103 | past (adjusted) bed time nothing is armed |
| Reminders.AllArmedBeforeWake | App.tsx:111-129 | with nothing yet past, exactly the reminder count of timers is armed |
| Reminders.PlanOnDashboard | App.tsx:84-121 | on the dashboard, with both times readable, a nonempty window and now not past bed, the plan is the future part of the firing instants |
| Reminders.DefaultScheduleExample | App.tsx:69-70 | 08:00-23:00 with 2300 ml: 5 reminders 150 minutes apart from 10:30; at noon only the last four |
| Reminders.FourteenHourExample | App.tsx:114-118 | 08:00-22:00 with 4 reminders: 168 minutes apart |
| Reminders.OvernightExample | App.tsx:97-100 | 22:00-06:00 runs past midnight: 5 reminders 23:20 to 04:40; a run at 02:00 arms the same five of the coming night and none of the current one |
| Reminders.Armed | App.tsx:124-128 | the timers of one run are the consecutive new handles, the k-th due at the k-th armed instant |
| Reminders.TimerHost.SetTimeout | App.tsx:122-127 | arming returns a fresh handle and records it as due at now + delay |
| Reminders.TimerHost.ClearTimeout | App.tsx:81 | cancelling removes the handle from the pending timers; an unknown handle is ignored |
| Reminders.ReminderTimers.constructor | App.tsx:74 | the buffer starts empty |
| Reminders.ReminderTimers.Cleanup | App.tsx:136-138 | cleanup cancels exactly the buffer's timers and keeps the no-stale-timer invariant |
| Reminders.ReminderTimers.CancelAll | App.tsx:80-82 | every held timer is cancelled and the buffer is emptied |
| Reminders.ReminderTimers.Schedule | App.tsx:79-133 | old timers cancelled; the buffer holds only this run's handles, one per planned instant; the pending timers are the old ones minus the buffer plus exactly the plan (the handles are HandleRange from the host's next handle) |
| Reminders.ReminderTimers.ArmFuture | App.tsx:117-130 | the loop arms one timer per firing instant after now, in order, with consecutive new handles |
| Reminders.ReminderTimers.ArmIfFuture | App.tsx:120-129 | one loop turn arms and pushes a timer only for an instant after now |
| Reminders.ReminderTimers.Arm | App.tsx:122-128 | arming takes the host's next handle, records the instant as due and pushes the handle, keeping the no-stale-timer invariant |
| Reminders.NoStaleTimerPush | App.tsx:122-128 | arming a fresh handle and pushing it keeps every issued, still pending timer in the buffer |
| AppShell.NextStep | App.tsx:159-198 | Next moves one step forward; it is enabled on Welcome only with a category set, always on Metrics, and on Habits only with a habit set |
| AppShell.BackStep | App.tsx:171-198 | Back moves one step back, from Metrics and Habits only |
| AppShell.Transition | App.tsx:160-193 | one press: Next or Back applied to the step; GuardedEntries states which presses enter Metrics and the dashboard |
| AppShell.Run | App.tsx:160-193 | the step after a sequence of presses; DashboardIsFinal and DashboardReachedThroughHabits state where runs can lead |
| AppShell.GuardedEntries | App.tsx:164-193 | the dashboard is entered only by Next on Habits with a habit set; Metrics is entered from Welcome only with a category set |
| AppShell.DashboardIsFinal | App.tsx:199-204 | no sequence of presses leaves the dashboard |
| AppShell.DashboardReachedThroughHabits | App.tsx:187-193 | any run that reaches the dashboard passes Habits with a Next press while a habit is set |
| AppShell.App.constructor | App.tsx:62-74 | the app starts on Welcome with the default profile, and the first run of the effect arms nothing |
| AppShell.App.RerunEffect | App.tsx:79-139 | the previous run's cleanup plus the new run: exactly the new plan is armed and the old buffer's timers are gone |
| AppShell.App.PressNext | App.tsx:15-21 | a step change re-runs the effect; a disabled Next changes nothing |
| AppShell.App.PressBack | App.tsx:23-28 | a step change re-runs the effect; where there is no Back nothing changes |
| AppShell.App.SetProfile | App.tsx:150-152 | a new profile object replaces the old one and the effect re-runs |
| AppShell.App.CloseSettings | App.tsx:154-157 | closing the settings screen unedited hands back the same profile object and changes nothing, the armed timers included; an edited copy replaces the profile and the effect re-runs |
| AppShell.App.SelectCategory | App.tsx:142-144 | only the category changes, and the effect re-runs |
| AppShell.App.SelectHabit | App.tsx:146-148 | only the habit changes, and the effect re-runs |
| AppShell.App.ChangeWeight | App.tsx:182 | only the weight changes, and the effect re-runs |
| AppShell.App.ChangeHeight | App.tsx:183 | only the height changes, and the effect re-runs |
| Calendar.ToLocalDateString | components/Calendar/CalendarView.tsx:11-16 | the key `${year}-${mm}-${dd}`, built from IntToString and PadStart2; its shape is stated by DateKeyShape and its round trip by DateKeyRoundTrip |
| Calendar.DateKeyShape | components/Calendar/CalendarView.tsx:11-16 | the key is the year, '-', two month digits, '-', two day digits |
| Calendar.ParseKeyFields | components/Calendar/CalendarView.tsx:11-16 | a key assembled from a readable year and two two-digit fields reads back as those fields, the month shifted to 0-based |
| Calendar.DateKeyRoundTrip | components/Calendar/CalendarView.tsx:11-16 | reading a key back gives the year, the 0-based month (the key holds month + 1) and the day |
| Calendar.DateKeyInjective | components/Calendar/CalendarView.tsx:11-16 | two dates share a key exactly when they are the same date |
| Calendar.KeyExamples | components/Calendar/CalendarView.tsx:13-15 | 5 January 2024 is "2024-01-05"; 31 December 2023 is "2023-12-31" |
| Calendar.MondayIndex | components/Calendar/CalendarView.tsx:30 | (weekday + 6) % 7 is in [0, 6], Monday is 0, Sunday is 6, and it counts days from Monday |
| Calendar.ColumnOfDay | components/Calendar/CalendarView.tsx:30-41 | day k of the month falls in the column of its own weekday |
| Calendar.CalendarDays | components/Calendar/CalendarView.tsx:22-45 | pad + daysInMonth cells: pad empty ones, then days 1..daysInMonth in order, each in its weekday's column |
| Calendar.WeekDate | components/Calendar/CalendarView.tsx:48-57 | each day of the week is a real date of the previous, selected or next month |
| Calendar.WeekContainsSelected | components/Calendar/CalendarView.tsx:48-50 | the week starts at the Monday on or before the selected date, which sits at its weekday's index |
| Calendar.WeekConsecutive | components/Calendar/CalendarView.tsx:55-57 | the seven dates are consecutive days, across month ends |
| Calendar.WeekDatesDistinct | components/Calendar/CalendarView.tsx:55-57 | no date occurs twice in a week |
| Calendar.WeekKeysDistinct | components/Calendar/CalendarView.tsx:55-59 | the seven keys looked up (WeekKeys, those of the seven week dates) are pairwise different, so no entry counts twice |
| Calendar.MetOnlyIfLogged | components/Calendar/CalendarView.tsx:59-66 | a day without an entry is never goal met (IsGoalMet): the goal-met days are at most the logged days, and all of them exactly when every logged day has intake >= goal |
| Calendar.CountMetBounds | components/Calendar/CalendarView.tsx:63-65 | goal-met count is at most the days, equals them exactly when all met, is 0 exactly when none did |
| Calendar.NoEntriesNoIntake | components/Calendar/CalendarView.tsx:59-62 | days without entries contribute nothing to either figure |
| Calendar.SummaryLocal | components/Calendar/CalendarView.tsx:59-66 | the summary depends only on the entries of the looked-up keys |
| Calendar.AddDay | components/Calendar/CalendarView.tsx:59-66 | one day adds its entry's intake (0 without an entry) to the total and counts it when its goal was met |
| Calendar.WeeklySummary | components/Calendar/CalendarView.tsx:47-69 | total is the intake summed over the week's present dates, goal-met days count those with intake >= goal, at most 7 |
| Metrics.Max | components/Onboarding/MetricsForm.tsx:19-22 | with Metrics.Min: weight from 30 to 150 kg, height from 130 to 220 cm, each range non-empty |
| Metrics.NormalizeAngle | components/Onboarding/MetricsForm.tsx:32-35 | a negative raw angle gains 360; raw angles in [-360, 360) end in [0, 360) |
| Metrics.Clamp | components/Onboarding/MetricsForm.tsx:46 | the result is within [min, max] and equals the input when it already is |
| Metrics.PickValue | components/Onboarding/MetricsForm.tsx:38-46 | no update exactly when the angle is more than 180 degrees from the handle's; otherwise a value within [min, max] |
| Metrics.ClampIdleOnCircle | components/Onboarding/MetricsForm.tsx:43-46 | for angles in [0, 360] the value is round(angle/360 * range) + min, the clamp never acting |
| Metrics.CurrentAngle | components/Onboarding/MetricsForm.tsx:38-39 | the handle's angle, its value's share of the range times 360; PickAtHandle states that pointing there keeps the value |
| Metrics.PickAtHandle | components/Onboarding/MetricsForm.tsx:38-46 | pointing at the handle keeps every in-range value |
| Metrics.PickMonotone | components/Onboarding/MetricsForm.tsx:43-44 | a larger angle never picks a smaller value |
| Metrics.MetricsForm.constructor | components/Onboarding/MetricsForm.tsx:15-17 | the form opens on weight with no drag |
| Metrics.MetricsForm.SelectMetric | components/Onboarding/MetricsForm.tsx:102-105 | switching metric changes neither stored value |
| Metrics.MetricsForm.UpdateValue | components/Onboarding/MetricsForm.tsx:26-47 | the active metric takes the picked value, the other never changes, and a rejected jump changes nothing |
| Metrics.MetricsForm.StartDrag | components/Onboarding/MetricsForm.tsx:72-78 | pressing starts a drag and sets the value at once |
| Metrics.MetricsForm.Move | components/Onboarding/MetricsForm.tsx:51-57 | a move edits the value only while dragging |
| Metrics.MetricsForm.EndDrag | components/Onboarding/MetricsForm.tsx:50 | releasing ends the drag and changes no value |
| DashboardModel.ProgressOf | components/Dashboard/Dashboard.tsx:35 | progress never exceeds 100; for a positive goal it is 100 exactly when the goal is met and intake*100/goal below it; 0/0 is NaN |
| DashboardModel.GoalCrossed | components/Dashboard/Dashboard.tsx:43-47 | the success condition, below the goal before and at or above it after; FiresAtMostOnce states how often it holds |
| DashboardModel.WithUrineColor | components/Dashboard/Dashboard.tsx:54-56 | the same profile with only lastUrineColor replaced |
| DashboardModel.UrineColorEffect | components/Dashboard/Dashboard.tsx:54-56 | a colour other than Dehydrated makes the goal the plain rounded goal; Dehydrated makes it 23/20 of it |
| DashboardModel.FiresAtMostOnce | components/Dashboard/Dashboard.tsx:42-51 | for a fixed goal and non-negative additions the success feedback fires at most once, exactly when the intake went from below the goal to at or above it |
| DashboardModel.GlassesAddUp | components/Dashboard/Dashboard.tsx:105-109 | n presses from zero give n * 200 ml |
| DashboardModel.FiresAgainAfterGoalRise | components/Dashboard/Dashboard.tsx:27-51 | intake persists while the goal follows the profile, so reporting dehydration after the goal was met lets the feedback fire again |
| DashboardModel.Dashboard.DailyGoal | components/Dashboard/Dashboard.tsx:27-29 | the goal recomputed from the profile; its value is stated by Hydration.GoalClosedForm |
| DashboardModel.Dashboard.CurrentProgress | components/Dashboard/Dashboard.tsx:35 | with a positive goal the bar shows a percentage in [0, 100], full exactly when the goal is met |
| DashboardModel.Dashboard.constructor | components/Dashboard/Dashboard.tsx:33 | intake starts at 0 |
| DashboardModel.Dashboard.AddWater | components/Dashboard/Dashboard.tsx:42-52 | the intake grows by the amount; the feedback fires exactly when it was below the goal and now is not |
| DashboardModel.Dashboard.AddGlass | components/Dashboard/Dashboard.tsx:105-109 | each press adds 200 ml |
| DashboardModel.Dashboard.SelectUrineColor | components/Dashboard/Dashboard.tsx:54-56 | only the colour of the profile changes; the intake stays |

## Left out

- Timer callbacks are not modelled. When a timer fires, the reminder message is generated and the notification shown; only the arming and cancelling of timers is. The message service, notification sounds, haptics and the notification permission request are I/O.
- The host's Date is not modelled.
  - Time zones and daylight-saving changes are out.
  - `setDate`/`setMonth` overflow is modelled only as the week's run-over into neighbouring months.
  - A date's weekday and the lengths of its month and the month before are inputs.
  - The month navigation (`changeMonth`) of the calendar is not modelled.
- Reminders.ParseClock: reads only the "HH:MM" shape that the time inputs produce. Other strings the host's `Number` would still read, such as "8:00", are treated as unreadable and give no reminders. A malformed time in the source gives NaN dates, and every comparison with NaN then schedules nothing.
- Floating point is not modelled.
  - The goal is computed exactly, so the IEEE rounding of 1.2, 0.9 and 1.15 is left out.
  - A firing instant is the exact quotient, truncated to the millisecond as the Date constructor does. The source multiplies doubles.
  - Angles and progress are exact reals.
- The radial picker's geometry is not modelled: atan2 of the pointer position, the SVG handle and arc, and the check for a missing element. The angle is an input.
- Metrics.MetricsForm: the weight and height it edits are the app's profile fields, passed down. The form holds them as its own fields, and App.ChangeWeight/ChangeHeight write them into the profile.
- The history log has no writer in this repository: the calendar view receives it as a parameter and nothing renders it. The history's display text (litres with one decimal) is not modelled, nor is the "today" and "selected" highlighting.
- The settings screen, category and habit selectors, theme tables, the water-drop animation and the unused circular progress component only render or forward a selection. They are not modelled.
- Dashboard feedback is not modelled as a haptic pattern: the "goal reached" event is the boolean result of AddWater.
- Reminders.TimerHost: hands out consecutive increasing handles from 1. The host is only required to return a positive handle not used by an active timer, so the exact numbering stated by Armed and ReminderTimers.Schedule is an idealisation of the host.
- DashboardModel.Dashboard.AddWater: requires a non-negative amount, so that the intake stays non-negative; its only caller adds one 200 ml glass.
