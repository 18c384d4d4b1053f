/** The application shell of App.tsx: the four-step onboarding wizard and the
    mutable `step` and `profile` whose changes re-run the reminder effect. */
module AppShell {
  import opened Types
  import opened Reminders

  /** The two buttons of the onboarding container. */
  datatype WizardEvent = Next | Back

  function StepIndex(s: OnboardingStep): nat {
    match s
    case Welcome => 0
    case Metrics => 1
    case Habits => 2
    case Dashboard => 3
  }

  /** The Next button: disabled on the welcome screen until a category is
      chosen and on the habits screen until a habit is chosen; the dashboard
      has none. Enabled, it moves exactly one step forward. */
  function NextStep(step: OnboardingStep, p: UserProfile): (r: OnboardingStep)
    ensures r == step || StepIndex(r) == StepIndex(step) + 1
    ensures r != step <==>
      (step == Welcome && p.category.Some?) || step == Metrics || (step == Habits && p.habit.Some?)
  {
    match step
    case Welcome => if p.category.Some? then Metrics else Welcome
    case Metrics => Habits
    case Habits => if p.habit.Some? then Dashboard else Habits
    case Dashboard => Dashboard
  }

  /** The Back button: present on the metrics and habits screens only, where
      it moves exactly one step back. */
  function BackStep(step: OnboardingStep): (r: OnboardingStep)
    ensures r == step || StepIndex(r) + 1 == StepIndex(step)
    ensures r != step <==> step == Metrics || step == Habits
  {
    match step
    case Metrics => Welcome
    case Habits => Metrics
    case _ => step
  }

  function Transition(step: OnboardingStep, p: UserProfile, e: WizardEvent): OnboardingStep {
    match e
    case Next => NextStep(step, p)
    case Back => BackStep(step)
  }

  /** The wizard driven by a sequence of button presses, each made with the
      profile as it was at that moment. */
  function Run(step: OnboardingStep, trace: seq<(WizardEvent, UserProfile)>): OnboardingStep {
    if trace == [] then step
    else
      var last := trace[|trace| - 1];
      Transition(Run(step, trace[..|trace| - 1]), last.1, last.0)
  }

  /** There is no transition out of the dashboard. */
  lemma {:induction false} DashboardIsFinal(trace: seq<(WizardEvent, UserProfile)>)
    ensures Run(Dashboard, trace) == Dashboard
  {
    if trace != [] {
      DashboardIsFinal(trace[..|trace| - 1]);
    }
  }

  /** One press enters the dashboard only as Next on the habits screen with a
      habit chosen, and enters the metrics screen from the welcome screen only
      with a category chosen. */
  lemma GuardedEntries(step: OnboardingStep, p: UserProfile, e: WizardEvent)
    ensures step != Dashboard && Transition(step, p, e) == Dashboard <==>
      step == Habits && e == Next && p.habit.Some?
    ensures step == Welcome ==> (Transition(step, p, e) == Metrics <==> e == Next && p.category.Some?)
  {
  }

  /** Whatever the presses, the wizard reaches the dashboard from any earlier
      screen only through a Next press on the habits screen with a habit set. */
  lemma {:induction false} DashboardReachedThroughHabits(step: OnboardingStep, trace: seq<(WizardEvent, UserProfile)>)
    requires step != Dashboard && Run(step, trace) == Dashboard
    ensures exists j :: (0 <= j < |trace| && Run(step, trace[..j]) == Habits &&
                         trace[j].0 == Next && trace[j].1.habit.Some?)
  {
    var init, last := trace[..|trace| - 1], trace[|trace| - 1];
    var before := Run(step, init);
    if before == Dashboard {
      DashboardReachedThroughHabits(step, init);
      var j :| 0 <= j < |init| && Run(step, init[..j]) == Habits && init[j].0 == Next && init[j].1.habit.Some?;
      assert trace[..j] == init[..j];
    } else {
      GuardedEntries(before, last.1, last.0);
      assert trace[..|trace| - 1] == init;
    }
  }

  /** The application: the current step, the profile, and the reminder buffer
      over the host's timers. */
  class App {
    var step: OnboardingStep
    var profile: UserProfile
    const reminders: ReminderTimers

    ghost predicate Valid()
      reads this, reminders, reminders.host
    {
      reminders.Valid()
    }

    /** The reminder effect has just run for the current step and profile at
        `now`, starting from buffer `h0`, pending timers `p0` and next handle `n0`:
        the old buffer's timers are cancelled and exactly the plan is armed. */
    ghost predicate Rescheduled(h0: seq<nat>, p0: map<nat, int>, n0: nat, now: int)
      reads this, reminders, reminders.host
    {
      && reminders.handles == HandleRange(n0, |ReminderPlan(step, profile, now)|)
      && reminders.host.nextId == n0 + |reminders.handles|
      && reminders.host.pending == (p0 - Elements(h0)) + Armed(n0, ReminderPlan(step, profile, now))
    }

    /** The app as mounted: the welcome screen, the default profile, and the
        effect's first run, which arms nothing off the dashboard. */
    constructor (host: TimerHost, now: int)
      requires host.Valid()
      modifies host
      ensures Valid() && fresh(reminders) && reminders.host == host
      ensures step == Welcome && profile == InitialProfile()
      ensures reminders.handles == [] && host.pending == old(host.pending)
    {
      step := Welcome;
      profile := InitialProfile();
      reminders := new ReminderTimers(host);
      new;
      reminders.Schedule(step, profile, now);
    }

    /** A change of `step` or `profile` re-runs the effect: the previous run's
        cleanup cancels the buffer's timers, then the effect body empties the
        buffer and schedules afresh. */
    method RerunEffect(now: int)
      requires Valid()
      modifies reminders, reminders.host
      ensures Valid()
      ensures Rescheduled(old(reminders.handles), old(reminders.host.pending), old(reminders.host.nextId), now)
    {
      ghost var h0, p0 := reminders.handles, reminders.host.pending;
      reminders.Cleanup();
      assert reminders.host.pending == p0 - Elements(h0);
      reminders.Schedule(step, profile, now);
      assert (p0 - Elements(h0)) - Elements(h0) == p0 - Elements(h0);
    }

    /** The Next button; a disabled or absent button changes nothing. */
    method PressNext(now: int)
      requires Valid()
      modifies this, reminders, reminders.host
      ensures Valid()
      ensures step == NextStep(old(step), old(profile)) && profile == old(profile)
      ensures step == old(step) ==> unchanged(reminders) && unchanged(reminders.host)
      ensures step != old(step) ==>
        Rescheduled(old(reminders.handles), old(reminders.host.pending), old(reminders.host.nextId), now)
    {
      var s := NextStep(step, profile);
      if s != step {
        step := s;
        RerunEffect(now);
      }
    }

    /** The Back button; where there is none, nothing changes. */
    method PressBack(now: int)
      requires Valid()
      modifies this, reminders, reminders.host
      ensures Valid()
      ensures step == BackStep(old(step)) && profile == old(profile)
      ensures step == old(step) ==> unchanged(reminders) && unchanged(reminders.host)
      ensures step != old(step) ==>
        Rescheduled(old(reminders.handles), old(reminders.host.pending), old(reminders.host.nextId), now)
    {
      var s := BackStep(step);
      if s != step {
        step := s;
        RerunEffect(now);
      }
    }

    /** Replaces the profile with a new profile object (a category or habit
        choice, a metric edit, a urine colour from the dashboard, an edited
        settings screen) and re-runs the effect. */
    method SetProfile(p: UserProfile, now: int)
      requires Valid()
      modifies this, reminders, reminders.host
      ensures Valid()
      ensures profile == p && step == old(step)
      ensures Rescheduled(old(reminders.handles), old(reminders.host.pending), old(reminders.host.nextId), now)
    {
      profile := p;
      RerunEffect(now);
    }

    /** Closing the settings screen hands back its local copy of the profile.
        Unedited, that copy is the app's own profile object, the state update
        is skipped and the effect does not run: the armed timers stay. Edited
        (`Some`), it is a new object and the effect re-runs for it. */
    method CloseSettings(edited: Option<UserProfile>, now: int)
      requires Valid()
      modifies this, reminders, reminders.host
      ensures Valid() && step == old(step)
      ensures edited.None? ==> profile == old(profile) && unchanged(reminders) && unchanged(reminders.host)
      ensures edited.Some? ==> profile == edited.value
      ensures edited.Some? ==>
        Rescheduled(old(reminders.handles), old(reminders.host.pending), old(reminders.host.nextId), now)
    {
      if edited.Some? {
        SetProfile(edited.value, now);
      }
    }

    method SelectCategory(c: UserCategory, now: int)
      requires Valid()
      modifies this, reminders, reminders.host
      ensures Valid()
      ensures profile == old(profile).(category := Some(c)) && step == old(step)
      ensures Rescheduled(old(reminders.handles), old(reminders.host.pending), old(reminders.host.nextId), now)
    {
      SetProfile(profile.(category := Some(c)), now);
    }

    method SelectHabit(h: WaterHabit, now: int)
      requires Valid()
      modifies this, reminders, reminders.host
      ensures Valid()
      ensures profile == old(profile).(habit := Some(h)) && step == old(step)
      ensures Rescheduled(old(reminders.handles), old(reminders.host.pending), old(reminders.host.nextId), now)
    {
      SetProfile(profile.(habit := Some(h)), now);
    }

    /** The metrics screen writes the picked weight back into the profile. */
    method ChangeWeight(w: int, now: int)
      requires Valid()
      modifies this, reminders, reminders.host
      ensures Valid()
      ensures profile == old(profile).(weight := w) && step == old(step)
      ensures Rescheduled(old(reminders.handles), old(reminders.host.pending), old(reminders.host.nextId), now)
    {
      SetProfile(profile.(weight := w), now);
    }

    /** The metrics screen writes the picked height back into the profile. */
    method ChangeHeight(h: int, now: int)
      requires Valid()
      modifies this, reminders, reminders.host
      ensures Valid()
      ensures profile == old(profile).(height := h) && step == old(step)
      ensures Rescheduled(old(reminders.handles), old(reminders.host.pending), old(reminders.host.nextId), now)
    {
      SetProfile(profile.(height := h), now);
    }
  }
}
