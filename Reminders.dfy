/** The reminder-scheduling effect of App.tsx: from the profile, the current
    step and the current time, the instants at which reminders are armed, and
    the buffer of timer handles that is emptied before every reschedule.

    All instants are milliseconds since local midnight of the day `now` falls
    on; the host's clock and timers are the TimerHost class below. */
module Reminders {
  import opened Types
  import Hydration
  import opened Arith
  import opened Decimal

  const MsPerMinute: int := 60000
  const MsPerDay: int := 86400000

  // ---------------------------------------------------------------------------
  // Reading "HH:MM"

  /** Minutes since midnight of an "HH:MM" string; any other shape is unreadable.
      Hours past 23 or minutes past 59 are accepted and run on into later
      hours and days, as the host's date constructor does. */
  function ParseClock(s: string): (r: Option<nat>)
    ensures r.Some? <==> |s| == 5 && s[2] == ':' && IsDigit(s[0]) && IsDigit(s[1]) && IsDigit(s[3]) && IsDigit(s[4])
    ensures r.Some? ==> r.value <= 99 * 60 + 99
  {
    if |s| == 5 && s[2] == ':' && IsDigit(s[0]) && IsDigit(s[1]) && IsDigit(s[3]) && IsDigit(s[4]) then
      Some((10 * DigitValue(s[0]) + DigitValue(s[1])) * 60 + 10 * DigitValue(s[3]) + DigitValue(s[4]))
    else
      None
  }

  /** The "HH:MM" form of a clock time with two-digit fields. */
  function FormatClock(h: nat, m: nat): string
    requires h < 100 && m < 100
  {
    [DigitChar(h / 10), DigitChar(h % 10), ':', DigitChar(m / 10), DigitChar(m % 10)]
  }

  /** Reading back a formatted clock time gives its minutes since midnight. */
  lemma ParseFormatClock(h: nat, m: nat)
    requires h < 100 && m < 100
    ensures ParseClock(FormatClock(h, m)) == Some(h * 60 + m)
  {
    var s := FormatClock(h, m);
    assert DigitValue(s[0]) == h / 10 && DigitValue(s[1]) == h % 10;
    assert DigitValue(s[3]) == m / 10 && DigitValue(s[4]) == m % 10;
  }

  // ---------------------------------------------------------------------------
  // The active window and the firing instants

  datatype Window = Window(start: int, end: int)

  /** Today's wake and bed instants; a bed time not after the wake time is
      moved forward one day, as an overnight window. */
  function ActiveWindow(wake: nat, bed: nat): Window {
    var start := wake * MsPerMinute;
    var end := bed * MsPerMinute;
    Window(start, if end <= start then end + MsPerDay else end)
  }

  /** For clock times within one day, the adjusted bed time is after the wake
      time, the active duration is positive and at most one day, and the
      window runs past midnight exactly when bed time is not after wake time. */
  lemma WindowPositive(wake: nat, bed: nat)
    requires wake < 24 * 60 && bed < 24 * 60
    ensures ActiveWindow(wake, bed).start < ActiveWindow(wake, bed).end
    ensures ActiveWindow(wake, bed).end - ActiveWindow(wake, bed).start <= MsPerDay
    ensures bed <= wake <==> ActiveWindow(wake, bed).end >= MsPerDay
  {
  }

  /** The number of reminders: one per 400 ml of goal, at least 2 and at most 10. */
  function ReminderCount(goal: int): (n: nat)
    ensures 2 <= n <= 10
    ensures 800 <= goal < 4400 ==> n == goal / 400
    ensures goal < 800 ==> n == 2
    ensures goal >= 4400 ==> n == 10
  {
    var n := goal / 400;
    if n > 10 then 10 else if n < 2 then 2 else n
  }

  /** The i-th of `count` instants spread evenly over the window, i counted from 1.
      The host's date constructor truncates to whole milliseconds. */
  function FiringInstant(w: Window, count: nat, i: nat): int {
    w.start + i * (w.end - w.start) / (count + 1)
  }

  /** The `count` firing instants of a window, in order. */
  function FiringInstants(w: Window, count: nat): (r: seq<int>)
    ensures |r| == count
    ensures forall k :: 0 <= k < count ==> r[k] == FiringInstant(w, count, k + 1)
  {
    seq(count, k requires 0 <= k < count => FiringInstant(w, count, k + 1))
  }

  /** The instants strictly after `now`, in their original order. */
  function FutureOnly(s: seq<int>, now: int): seq<int> {
    if s == [] then []
    else FutureOnly(s[..|s| - 1], now) + (if s[|s| - 1] > now then [s[|s| - 1]] else [])
  }

  predicate StrictlyIncreasing(s: seq<int>) {
    forall j, k :: 0 <= j < k < |s| ==> s[j] < s[k]
  }

  /** What the effect arms, for a given step, profile and time: nothing off the
      dashboard, with an empty or unreadable time, or past bed time; otherwise
      the firing instants still in the future. */
  function ReminderPlan(step: OnboardingStep, p: UserProfile, now: int): seq<int> {
    if step != Dashboard || p.wakeUpTime == "" || p.bedTime == "" then []
    else match PlanWindow(p)
      case None => []
      case Some(w) =>
        if now > w.end || w.end - w.start <= 0 then []
        else FutureOnly(FiringInstants(w, ReminderCount(Hydration.CalculateDailyGoal(p))), now)
  }

  /** The active window of a profile whose two times are both readable. */
  function PlanWindow(p: UserProfile): (r: Option<Window>)
    ensures r.Some? <==> ParseClock(p.wakeUpTime).Some? && ParseClock(p.bedTime).Some?
    ensures r.Some? ==> r.value == ActiveWindow(ParseClock(p.wakeUpTime).value, ParseClock(p.bedTime).value)
  {
    match (ParseClock(p.wakeUpTime), ParseClock(p.bedTime))
    case (Some(wake), Some(bed)) => Some(ActiveWindow(wake, bed))
    case _ => None
  }

  // ---------------------------------------------------------------------------
  // Properties of the plan

  /** Instant i grows strictly with i once the window is at least count+1 ms long. */
  lemma FiringInstantStep(w: Window, count: nat, i: nat)
    requires w.end - w.start >= count + 1
    ensures FiringInstant(w, count, i) < FiringInstant(w, count, i + 1)
  {
    var d, n := w.end - w.start, count + 1;
    var q := i * d / n;
    assert i * d >= q * n;
    assert (i + 1) * d == i * d + d;
    assert (i + 1) * d >= (q + 1) * n;
    DivLowerBound((i + 1) * d, q + 1, n);
  }

  /** The firing instants are strictly increasing and lie strictly between the
      wake and bed instants: none falls on either boundary. */
  lemma {:induction false} FiringInstantsInsideWindow(w: Window, count: nat)
    requires w.end - w.start >= count + 1
    ensures StrictlyIncreasing(FiringInstants(w, count))
    ensures forall k :: 0 <= k < count ==> w.start < FiringInstants(w, count)[k] < w.end
  {
    var s := FiringInstants(w, count);
    forall k | 0 <= k < count
      ensures w.start < s[k] < w.end
    {
      InstantInside(w, count, k + 1);
    }
    forall j, k | 0 <= j < k < count
      ensures s[j] < s[k]
    {
      IncreasingFrom(w, count, j + 1, k + 1);
    }
  }

  lemma InstantInside(w: Window, count: nat, i: nat)
    requires w.end - w.start >= count + 1
    requires 1 <= i <= count
    ensures w.start < FiringInstant(w, count, i) < w.end
  {
    var d, n := w.end - w.start, count + 1;
    MulMonotone(1, i, d);
    DivLowerBound(i * d, 1, n);
    MulMonotone(i + 1, n, d);
    assert (i + 1) * d == i * d + d;
    assert n * d == d * n;
    DivUpperBound(i * d, d, n);
  }

  lemma {:induction false} IncreasingFrom(w: Window, count: nat, i: nat, m: nat)
    requires w.end - w.start >= count + 1
    requires i < m
    ensures FiringInstant(w, count, i) < FiringInstant(w, count, m)
    decreases m - i
  {
    FiringInstantStep(w, count, i);
    if i + 1 < m {
      IncreasingFrom(w, count, i + 1, m);
    }
  }

  /** The filter keeps exactly the instants after `now`, and no more of them than there are. */
  lemma {:induction false} FutureOnlyMembers(s: seq<int>, now: int)
    ensures |FutureOnly(s, now)| <= |s|
    ensures forall x :: x in FutureOnly(s, now) <==> x in s && x > now
  {
    if s != [] {
      FutureOnlyMembers(s[..|s| - 1], now);
      assert s == s[..|s| - 1] + [s[|s| - 1]];
    }
  }

  /** No instant after `now`: everything is dropped. */
  lemma {:induction false} FutureOnlyNone(s: seq<int>, now: int)
    requires forall k :: 0 <= k < |s| ==> s[k] <= now
    ensures FutureOnly(s, now) == []
  {
    if s != [] {
      FutureOnlyNone(s[..|s| - 1], now);
    }
  }

  /** The filter of an increasing sequence is increasing. */
  lemma {:induction false} FutureOnlyIncreasing(s: seq<int>, now: int)
    requires StrictlyIncreasing(s)
    ensures StrictlyIncreasing(FutureOnly(s, now))
  {
    if s != [] {
      var init, last := s[..|s| - 1], s[|s| - 1];
      FutureOnlyIncreasing(init, now);
      FutureOnlyMembers(init, now);
      var r := FutureOnly(init, now);
      if last > now {
        forall j | 0 <= j < |r|
          ensures r[j] < last
        {
          assert r[j] in r;
        }
      }
    }
  }

  /** Of an increasing sequence whose k-th instant is the first after `now`,
      exactly the instants from k on are kept: dropping the past drops a prefix. */
  lemma {:induction false} FutureOnlyCut(s: seq<int>, now: int, k: nat)
    requires StrictlyIncreasing(s)
    requires k < |s| && s[k] > now && (k > 0 ==> s[k - 1] <= now)
    ensures FutureOnly(s, now) == s[k..]
    decreases |s|
  {
    var init, last := s[..|s| - 1], s[|s| - 1];
    assert last > now by {
      IncreasingOrder(s, k, |s| - 1);
    }
    assert FutureOnly(s, now) == FutureOnly(init, now) + [last];
    if k < |init| {
      assert StrictlyIncreasing(init) && init[k] > now && (k > 0 ==> init[k - 1] <= now) by {
        IncreasingInit(s);
      }
      FutureOnlyCut(init, now, k);
      SuffixOfInit(s, k);
    } else {
      assert forall j :: 0 <= j < |init| ==> init[j] <= now by {
        PastBefore(s, now, k);
      }
      FutureOnlyNone(init, now);
    }
  }

  lemma SuffixOfInit(s: seq<int>, k: nat)
    requires k < |s|
    ensures s[k..] == s[..|s| - 1][k..] + [s[|s| - 1]]
  {
    var r := s[..|s| - 1][k..] + [s[|s| - 1]];
    assert |r| == |s| - k;
    forall j | 0 <= j < |r| ensures r[j] == s[k + j] {
    }
  }

  lemma IncreasingOrder(s: seq<int>, j: nat, k: nat)
    requires StrictlyIncreasing(s) && j <= k < |s|
    ensures s[j] <= s[k]
  {
  }

  lemma IncreasingInit(s: seq<int>)
    requires StrictlyIncreasing(s) && |s| > 0
    ensures StrictlyIncreasing(s[..|s| - 1])
  {
  }

  lemma PastBefore(s: seq<int>, now: int, k: nat)
    requires StrictlyIncreasing(s) && k < |s| && (k > 0 ==> s[k - 1] <= now)
    ensures forall j :: 0 <= j < k ==> s[j] <= now
  {
    forall j | 0 <= j < k ensures s[j] <= now {
      IncreasingOrder(s, j, k - 1);
    }
  }

  /** Every instant after `now`: nothing is dropped. */
  lemma {:induction false} FutureOnlyAll(s: seq<int>, now: int)
    requires forall k :: 0 <= k < |s| ==> s[k] > now
    ensures FutureOnly(s, now) == s
  {
    if s != [] {
      FutureOnlyAll(s[..|s| - 1], now);
      assert s == s[..|s| - 1] + [s[|s| - 1]];
    }
  }

  /** A window read from two readable clock times is a whole number of minutes long. */
  lemma WindowWholeMinutes(wake: nat, bed: nat)
    ensures (ActiveWindow(wake, bed).end - ActiveWindow(wake, bed).start) % MsPerMinute == 0
  {
  }

  /** The instants armed for one positive window: at most `count`, after `now`,
      strictly increasing, strictly inside the window, and the tail of the
      firing instants that are still to come. */
  lemma ArmedInstantsFacts(w: Window, count: nat, now: int)
    requires w.end - w.start > 0 && (w.end - w.start) % MsPerMinute == 0 && count <= 10
    ensures |FutureOnly(FiringInstants(w, count), now)| <= count
    ensures StrictlyIncreasing(FutureOnly(FiringInstants(w, count), now))
    ensures forall k :: 0 <= k < |FutureOnly(FiringInstants(w, count), now)| ==>
      now < FutureOnly(FiringInstants(w, count), now)[k] &&
      w.start < FutureOnly(FiringInstants(w, count), now)[k] < w.end
  {
    var s := FiringInstants(w, count);
    FiringInstantsInsideWindow(w, count);
    FutureOnlyMembers(s, now);
    FutureOnlyIncreasing(s, now);
    var r := FutureOnly(s, now);
    forall k | 0 <= k < |r|
      ensures now < r[k] && w.start < r[k] < w.end
    {
      assert r[k] in r;
    }
  }

  /** Reminders are armed only on the dashboard with both times filled in and
      readable, and never when `now` is past (adjusted) bed time; the armed
      instants are at most 10, all after `now`, strictly increasing, and
      strictly inside the active window. */
  lemma PlanFacts(step: OnboardingStep, p: UserProfile, now: int)
    ensures ReminderPlan(step, p, now) != [] ==>
      step == Dashboard && p.wakeUpTime != "" && p.bedTime != "" && PlanWindow(p).Some? &&
      now <= PlanWindow(p).value.end
    ensures |ReminderPlan(step, p, now)| <= 10
    ensures StrictlyIncreasing(ReminderPlan(step, p, now))
    ensures forall k :: 0 <= k < |ReminderPlan(step, p, now)| ==>
      now < ReminderPlan(step, p, now)[k] &&
      PlanWindow(p).value.start < ReminderPlan(step, p, now)[k] < PlanWindow(p).value.end
  {
    if step == Dashboard && p.wakeUpTime != "" && p.bedTime != "" && PlanWindow(p).Some? {
      var w := PlanWindow(p).value;
      WindowWholeMinutes(ParseClock(p.wakeUpTime).value, ParseClock(p.bedTime).value);
      if !(now > w.end || w.end - w.start <= 0) {
        ArmedInstantsFacts(w, ReminderCount(Hydration.CalculateDailyGoal(p)), now);
      }
    }
  }

  /** Once `now` is past the (adjusted) bed time, nothing is armed. */
  lemma NothingAfterBedtime(step: OnboardingStep, p: UserProfile, now: int)
    requires PlanWindow(p).Some? && now > PlanWindow(p).value.end
    ensures ReminderPlan(step, p, now) == []
  {
  }

  /** With clock times within one day and nothing yet past, every firing
      instant is armed: as many reminders as the goal calls for. */
  lemma AllArmedBeforeWake(p: UserProfile, now: int)
    requires PlanWindow(p).Some?
    requires ParseClock(p.wakeUpTime).value < 24 * 60 && ParseClock(p.bedTime).value < 24 * 60
    requires now <= PlanWindow(p).value.start
    ensures |ReminderPlan(Dashboard, p, now)| == ReminderCount(Hydration.CalculateDailyGoal(p))
  {
    var w := PlanWindow(p).value;
    WindowPositive(ParseClock(p.wakeUpTime).value, ParseClock(p.bedTime).value);
    var count := ReminderCount(Hydration.CalculateDailyGoal(p));
    WindowWholeMinutes(ParseClock(p.wakeUpTime).value, ParseClock(p.bedTime).value);
    FiringInstantsInsideWindow(w, count);
    FutureOnlyAll(FiringInstants(w, count), now);
  }

  /** On the dashboard, with a readable nonempty window not yet over, the plan
      is the future part of the window's firing instants. */
  lemma PlanOnDashboard(p: UserProfile, now: int, wake: nat, bed: nat, count: nat)
    requires ParseClock(p.wakeUpTime) == Some(wake) && ParseClock(p.bedTime) == Some(bed)
    requires ReminderCount(Hydration.CalculateDailyGoal(p)) == count
    requires now <= ActiveWindow(wake, bed).end && ActiveWindow(wake, bed).start < ActiveWindow(wake, bed).end
    ensures ReminderPlan(Dashboard, p, now) == FutureOnly(FiringInstants(ActiveWindow(wake, bed), count), now)
  {
    assert p.wakeUpTime != "" && p.bedTime != "";
  }

  lemma DefaultInstants()
    ensures FiringInstants(ActiveWindow(480, 1380), 5) ==
      [630 * MsPerMinute, 780 * MsPerMinute, 930 * MsPerMinute, 1080 * MsPerMinute, 1230 * MsPerMinute]
  {
    var s := FiringInstants(ActiveWindow(480, 1380), 5);
    assert s[0] == 630 * MsPerMinute && s[1] == 780 * MsPerMinute && s[2] == 930 * MsPerMinute;
    assert s[3] == 1080 * MsPerMinute && s[4] == 1230 * MsPerMinute;
  }

  /** The default window 08:00-23:00 with a 2300 ml goal spreads 5 reminders
      150 minutes apart from 10:30; at noon the first two are past. */
  lemma DefaultScheduleExample(p: UserProfile)
    requires p.wakeUpTime == "08:00" && p.bedTime == "23:00"
    requires Hydration.CalculateDailyGoal(p) == 2300
    ensures ReminderPlan(Dashboard, p, 0) ==
      [630 * MsPerMinute, 780 * MsPerMinute, 930 * MsPerMinute, 1080 * MsPerMinute, 1230 * MsPerMinute]
    ensures ReminderPlan(Dashboard, p, 720 * MsPerMinute) ==
      [780 * MsPerMinute, 930 * MsPerMinute, 1080 * MsPerMinute, 1230 * MsPerMinute]
  {
    assert ParseClock(p.wakeUpTime) == Some(480);
    assert ParseClock(p.bedTime) == Some(1380);
    var w := ActiveWindow(480, 1380);
    var s := FiringInstants(w, 5);
    PlanOnDashboard(p, 0, 480, 1380, 5);
    PlanOnDashboard(p, 720 * MsPerMinute, 480, 1380, 5);
    DefaultInstants();
    FiringInstantsInsideWindow(w, 5);
    FutureOnlyAll(s, 0);
    FutureOnlyCut(s, 720 * MsPerMinute, 1);
  }

  lemma FourteenHourInstants()
    ensures FiringInstants(ActiveWindow(480, 1320), 4) ==
      [648 * MsPerMinute, 816 * MsPerMinute, 984 * MsPerMinute, 1152 * MsPerMinute]
  {
    var s := FiringInstants(ActiveWindow(480, 1320), 4);
    assert s[0] == 648 * MsPerMinute && s[1] == 816 * MsPerMinute;
    assert s[2] == 984 * MsPerMinute && s[3] == 1152 * MsPerMinute;
  }

  /** A 14-hour window 08:00-22:00 with 4 reminders spaces them 168 minutes apart. */
  lemma FourteenHourExample(p: UserProfile)
    requires p.wakeUpTime == "08:00" && p.bedTime == "22:00"
    requires ReminderCount(Hydration.CalculateDailyGoal(p)) == 4
    ensures ReminderPlan(Dashboard, p, 0) ==
      [648 * MsPerMinute, 816 * MsPerMinute, 984 * MsPerMinute, 1152 * MsPerMinute]
  {
    assert ParseClock(p.wakeUpTime) == Some(480);
    assert ParseClock(p.bedTime) == Some(1320);
    PlanOnDashboard(p, 0, 480, 1320, 4);
    FourteenHourInstants();
    FutureOnlyAll(FiringInstants(ActiveWindow(480, 1320), 4), 0);
  }

  lemma OvernightInstants()
    ensures FiringInstants(ActiveWindow(1320, 360), 5) ==
      [1400 * MsPerMinute, 1480 * MsPerMinute, 1560 * MsPerMinute, 1640 * MsPerMinute, 1720 * MsPerMinute]
  {
    var s := FiringInstants(ActiveWindow(1320, 360), 5);
    assert s[0] == 1400 * MsPerMinute && s[1] == 1480 * MsPerMinute && s[2] == 1560 * MsPerMinute;
    assert s[3] == 1640 * MsPerMinute && s[4] == 1720 * MsPerMinute;
  }

  /** An overnight window 22:00-06:00 is eight hours long and schedules across
      midnight: with a 2300 ml goal, 5 reminders from 23:20 to 04:40. The
      window is always today's 22:00 onward, so a run at 02:00 arms the coming
      night's five reminders and none for the rest of the current night. */
  lemma OvernightExample(p: UserProfile)
    requires p.wakeUpTime == "22:00" && p.bedTime == "06:00"
    requires Hydration.CalculateDailyGoal(p) == 2300
    ensures ReminderPlan(Dashboard, p, 0) ==
      [1400 * MsPerMinute, 1480 * MsPerMinute, 1560 * MsPerMinute, 1640 * MsPerMinute, 1720 * MsPerMinute]
    ensures ReminderPlan(Dashboard, p, 120 * MsPerMinute) == ReminderPlan(Dashboard, p, 0)
  {
    assert ParseClock(p.wakeUpTime) == Some(1320);
    assert ParseClock(p.bedTime) == Some(360);
    PlanOnDashboard(p, 0, 1320, 360, 5);
    PlanOnDashboard(p, 120 * MsPerMinute, 1320, 360, 5);
    OvernightInstants();
    FutureOnlyAll(FiringInstants(ActiveWindow(1320, 360), 5), 0);
    FutureOnlyAll(FiringInstants(ActiveWindow(1320, 360), 5), 120 * MsPerMinute);
  }

  // ---------------------------------------------------------------------------
  // The host's timers and the buffer of handles

  /** The set of handles held in a buffer. */
  function Elements(s: seq<nat>): set<nat> {
    set h | h in s
  }

  /** The timers armed by one run: consecutive handles from `first`, the k-th
      due at plan[k]. */
  function Armed(first: nat, plan: seq<int>): (m: map<nat, int>)
    ensures forall h :: h in m <==> first <= h < first + |plan|
    ensures forall k :: 0 <= k < |plan| ==> m[first + k] == plan[k]
  {
    if plan == [] then map[]
    else Armed(first, plan[..|plan| - 1])[first + |plan| - 1 := plan[|plan| - 1]]
  }

  /** The handles `first`, `first`+1, ... of one run, in order. */
  function HandleRange(first: nat, n: nat): (r: seq<nat>)
    ensures |r| == n && forall k :: 0 <= k < n ==> r[k] == first + k
  {
    seq(n, k requires 0 <= k < n => first + k)
  }

  /** The host's timer service: handles are handed out in increasing order, and
      `pending` maps each armed, not yet cancelled handle to its due instant. */
  class TimerHost {
    var nextId: nat
    var pending: map<nat, int>

    ghost predicate Valid()
      reads this
    {
      1 <= nextId && forall h :: h in pending ==> 1 <= h < nextId
    }

    constructor ()
      ensures Valid() && nextId == 1 && pending == map[]
    {
      nextId := 1;
      pending := map[];
    }

    /** Arms a timer `delay` ms after `now` and returns its fresh handle. */
    method SetTimeout(now: int, delay: int) returns (id: nat)
      requires Valid()
      modifies this
      ensures Valid()
      ensures id == old(nextId) && nextId == old(nextId) + 1 && id !in old(pending)
      ensures pending == old(pending)[id := now + delay]
    {
      id := nextId;
      pending := pending[id := now + delay];
      nextId := nextId + 1;
    }

    /** Cancels a timer; an unknown or already cancelled handle is ignored. */
    method ClearTimeout(id: nat)
      requires Valid()
      modifies this
      ensures Valid() && nextId == old(nextId)
      ensures pending == old(pending) - {id}
    {
      pending := pending - {id};
    }
  }

  /** The `reminderTimers` buffer: the handles of the reminders this app armed. */
  class ReminderTimers {
    var handles: seq<nat>
    const host: TimerHost
    /** Every handle this buffer has ever been given. */
    ghost var issued: set<nat>

    /** The buffer's invariant: besides well-formed handles, no stale timer —
        every timer this buffer armed that is still pending is in the buffer. */
    ghost predicate Valid()
      reads this, host
    {
      host.Valid() && NoStaleTimer(handles, issued, host.nextId, host.pending)
    }

    constructor (host: TimerHost)
      requires host.Valid()
      ensures Valid() && this.host == host && handles == [] && issued == {}
    {
      this.host := host;
      handles := [];
      issued := {};
    }

    /** Cancels every held timer without emptying the buffer (the effect's cleanup). */
    method Cleanup()
      requires Valid()
      modifies host
      ensures Valid() && host.nextId == old(host.nextId)
      ensures host.pending == old(host.pending) - Elements(handles)
    {
      for i := 0 to |handles|
        invariant host.Valid() && host.nextId == old(host.nextId)
        invariant host.pending == old(host.pending) - Elements(handles[..i])
        invariant host.pending.Keys <= old(host.pending.Keys)
      {
        assert Elements(handles[..i + 1]) == Elements(handles[..i]) + {handles[i]};
        host.ClearTimeout(handles[i]);
      }
      assert handles[..|handles|] == handles;
    }

    /** Cancels every held timer and empties the buffer. */
    method CancelAll()
      requires Valid()
      modifies this, host
      ensures Valid() && host.nextId == old(host.nextId) && handles == [] && issued == old(issued)
      ensures host.pending == old(host.pending) - Elements(old(handles))
    {
      Cleanup();
      handles := [];
    }

    /** The effect body: cancel and empty the buffer, then arm one timer per
        instant of the plan and keep its handle. Other timers of the host are
        left alone; after the call the buffer holds only this run's handles. */
    method Schedule(step: OnboardingStep, p: UserProfile, now: int)
      requires Valid()
      modifies this, host
      ensures Valid()
      ensures handles == HandleRange(old(host.nextId), |ReminderPlan(step, p, now)|)
      ensures host.nextId == old(host.nextId) + |handles|
      ensures issued == old(issued) + Elements(handles)
      ensures host.pending ==
        (old(host.pending) - Elements(old(handles))) + Armed(old(host.nextId), ReminderPlan(step, p, now))
    {
      CancelAll();
      assert host.pending + Armed(host.nextId, []) == host.pending;
      if step != Dashboard || p.wakeUpTime == "" || p.bedTime == "" {
        return;
      }
      var wakeClock, bedClock := ParseClock(p.wakeUpTime), ParseClock(p.bedTime);
      if wakeClock.None? || bedClock.None? {
        return;
      }
      var w := ActiveWindow(wakeClock.value, bedClock.value);
      if now > w.end {
        return;
      }
      var duration := w.end - w.start;
      if duration <= 0 {
        return;
      }
      var count := ReminderCount(Hydration.CalculateDailyGoal(p));
      ArmFuture(w, count, now);
    }

    /** The loop of the effect: for i = 1..count, arm a timer for the i-th
        firing instant when it lies after `now`, and push its handle. */
    method ArmFuture(w: Window, count: nat, now: int)
      requires Valid() && handles == []
      modifies this, host
      ensures Valid()
      ensures handles == HandleRange(old(host.nextId), |FutureOnly(FiringInstants(w, count), now)|)
      ensures host.nextId == old(host.nextId) + |handles|
      ensures issued == old(issued) + Elements(handles)
      ensures host.pending == old(host.pending) + Armed(old(host.nextId), FutureOnly(FiringInstants(w, count), now))
    {
      ghost var base := host.pending;
      ghost var first := host.nextId;
      ghost var issued0 := issued;
      assert Elements([]) == {};
      ghost var armed: seq<int> := [];
      for i := 1 to count + 1
        invariant armed == FutureOnly(FiringPrefix(w, count, i - 1), now)
        invariant Valid()
        invariant issued == issued0 + Elements(handles)
        invariant handles == HandleRange(first, |armed|)
        invariant host.nextId == first + |handles|
        invariant host.pending == base + Armed(first, armed)
      {
        var instant := FiringInstant(w, count, i);
        FutureOnlyAppend(FiringPrefix(w, count, i - 1), instant, now);
        ArmIfFuture(instant, now, first, base, armed, issued0);
        armed := armed + (if instant > now then [instant] else []);
      }
      FiringPrefixIsInstants(w, count, count);
      assert FiringInstants(w, count)[..count] == FiringInstants(w, count);
    }

    /** One turn of the loop: arm a timer for `instant` only if it is after
        `now`, and push its handle. */
    method ArmIfFuture(instant: int, now: int, ghost first: nat, ghost base: map<nat, int>, ghost before: seq<int>,
                       ghost issued0: set<nat>)
      requires Valid() && issued == issued0 + Elements(handles)
      requires handles == HandleRange(first, |before|) && host.nextId == first + |handles|
      requires host.pending == base + Armed(first, before)
      modifies this, host
      ensures Valid() && issued == issued0 + Elements(handles)
      ensures var after := before + (if instant > now then [instant] else []);
        handles == HandleRange(first, |after|) && host.nextId == first + |handles| &&
        host.pending == base + Armed(first, after)
    {
      if instant > now {
        ghost var n := |before|;
        HandleRangePush(handles, first, n);
        ArmedPush(host.pending, base, first, before, instant);
        ElementsPush(handles, first + n);
        Arm(instant, now);
        assert |before + [instant]| == n + 1;
      } else {
        assert before + [] == before;
      }
    }

    /** Arms a timer for an instant after `now` and pushes its handle. */
    method Arm(instant: int, now: int)
      requires Valid()
      modifies this, host
      ensures Valid() && host.nextId == old(host.nextId) + 1
      ensures handles == old(handles) + [old(host.nextId)] && issued == old(issued) + {old(host.nextId)}
      ensures host.pending == old(host.pending)[old(host.nextId) := instant]
    {
      NoStaleTimerPush(handles, issued, host.nextId, host.pending, now + (instant - now));
      var id := host.SetTimeout(now, instant - now);
      handles := handles + [id];
      issued := issued + {id};
    }
  }

  /** The buffer's invariant over the host's state: the buffer's handles were
      all issued to it, every issued handle was handed out by the host, and no
      stale timer: every issued timer still pending is in the buffer. */
  ghost predicate NoStaleTimer(handles: seq<nat>, issued: set<nat>, nextId: nat, pending: map<nat, int>) {
    && Elements(handles) <= issued
    && (forall h :: h in issued ==> h < nextId)
    && (forall h :: h in issued && h in pending ==> h in handles)
  }

  /** Arming a timer with the next handle and pushing that handle keeps the invariant. */
  lemma NoStaleTimerPush(handles: seq<nat>, issued: set<nat>, nextId: nat, pending: map<nat, int>, due: int)
    requires NoStaleTimer(handles, issued, nextId, pending)
    ensures NoStaleTimer(handles + [nextId], issued + {nextId}, nextId + 1, pending[nextId := due])
  {
    ElementsPush(handles, nextId);
  }

  /** The first n firing instants, as the loop produces them. */
  function FiringPrefix(w: Window, count: nat, n: nat): seq<int> {
    if n == 0 then [] else FiringPrefix(w, count, n - 1) + [FiringInstant(w, count, n)]
  }

  lemma {:induction false} FiringPrefixIsInstants(w: Window, count: nat, n: nat)
    requires n <= count
    ensures FiringPrefix(w, count, n) == FiringInstants(w, count)[..n]
  {
    if n > 0 {
      FiringPrefixIsInstants(w, count, n - 1);
      var all := FiringInstants(w, count);
      assert all[..n] == all[..n - 1] + [all[n - 1]];
    }
  }

  lemma FutureOnlyAppend(s: seq<int>, x: int, now: int)
    ensures FutureOnly(s + [x], now) == FutureOnly(s, now) + (if x > now then [x] else [])
  {
    assert (s + [x])[..|s|] == s;
  }

  /** Pushing the next handle onto a run of consecutive handles extends the run. */
  lemma HandleRangePush(h: seq<nat>, first: nat, n: nat)
    requires h == HandleRange(first, n)
    ensures h + [first + n] == HandleRange(first, n + 1)
  {
  }

  lemma ElementsPush(h: seq<nat>, x: nat)
    ensures Elements(h + [x]) == Elements(h) + {x}
  {
  }

  /** Arming the next handle for a new instant extends this run's timers by it. */
  lemma ArmedPush(pending: map<nat, int>, base: map<nat, int>, first: nat, before: seq<int>, x: int)
    requires pending == base + Armed(first, before)
    ensures pending[first + |before| := x] == base + Armed(first, before + [x])
  {
    ArmedExtend(first, before, x);
  }

  lemma ArmedExtend(first: nat, s: seq<int>, x: int)
    ensures Armed(first, s + [x]) == Armed(first, s)[first + |s| := x]
  {
    assert (s + [x])[..|s|] == s;
  }
}
