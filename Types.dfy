/** The records and enumerations shared by every part of the hydration app. */
module Types {

  datatype Option<T> = None | Some(value: T)

  /** Lifestyle category chosen on the welcome screen. */
  datatype UserCategory = Athlete | BusinessPerson | Student

  /** How regularly the user drinks water without being reminded. */
  datatype WaterHabit = Low | Medium | High

  /** The user's last reported urine colour, a proxy for hydration. */
  datatype UrineColor = Optimal | Good | Dehydrated

  /** The sound a reminder notification plays. */
  datatype NotificationSound = Drop | Chime | Default

  /** The profile the onboarding wizard builds and the settings screen edits.
      Weight (kg) and height (cm) are whole numbers: the only editor of either
      is the radial picker, which rounds. Times are "HH:MM" strings or empty. */
  datatype UserProfile = UserProfile(
    category: Option<UserCategory>,
    weight: int,
    height: int,
    habit: Option<WaterHabit>,
    lastUrineColor: Option<UrineColor>,
    wakeUpTime: string,
    bedTime: string,
    notificationSound: NotificationSound)

  /** The four screens of the linear onboarding wizard. */
  datatype OnboardingStep = Welcome | Metrics | Habits | Dashboard

  /** One day of the hydration history. */
  datatype HydrationLogEntry = HydrationLogEntry(intake: int, goal: int)

  /** The history, keyed by local calendar date written "YYYY-MM-DD". */
  type HydrationLog = map<string, HydrationLogEntry>

  /** The profile the app starts with before onboarding. */
  function InitialProfile(): UserProfile {
    UserProfile(None, 70, 175, None, None, "08:00", "23:00", Default)
  }
}
