/**
 * The records of src/types/profile.ts: to-do items, time blocks, daily plans
 * and the lifestyle profile, as values; plus the weekday helpers and the
 * half-hour time table. Optional properties of the source (`x?: T`) are
 * `Option<T>` fields; tip texts are referred to by pool and position.
 */
module Profile {
  import opened Strings

  datatype Option<+T> = None | Some(value: T)

  datatype Gender = Male | Female | OtherGender
  datatype LifestyleType = Office | OfficeFlex | Shift | Student | Freelancer | OtherLifestyle
  datatype ShiftType = DayShift | AfternoonShift | NightShift | Rotating
  datatype WorkHourPeriod = Morning | Afternoon | Evening | Night
  datatype Weekday = Mon | Tue | Wed | Thu | Fri | Sat | Sun
  datatype Priority = High | Medium | Low
  datatype BlockType = Work | Meal | Break | Commute | Exercise | Sleep | Free
  datatype Condition = Good | Normal | Bad
  datatype MenstrualCondition = MenstrualNormal | Pms | Period | Post

  datatype TodoItem = TodoItem(
    id: string,
    text: string,
    duration: Option<int>,        // expected minutes
    priority: Option<Priority>,
    completed: Option<bool>)

  /** The tip pools of the wellness selector. */
  datatype TipPool =
    | WakeTips | BreakfastTips | LunchTips | DinnerTips
    | WorkMorningTips | WorkAfternoonTips | ExerciseTips | BreakTips
    | FreeTimeTips | SleepTips | CommuteTips
    | ConditionTips(condition: Condition)
    | MenstrualTips(menstrual: MenstrualCondition)

  /** A tip, named by its pool and its position in that pool. */
  datatype TipRef = TipRef(pool: TipPool, index: nat)

  datatype TimeBlock = TimeBlock(
    id: string,
    labelText: string,           // the source's `label` (a reserved word here)
    startTime: string,
    endTime: string,
    icon: string,
    isFixed: bool,
    blockType: BlockType,
    todos: seq<TodoItem>,
    exerciseType: Option<string>,
    exercisePlan: Option<string>,
    wellnessTip: Option<TipRef>)

  datatype DailyPlan = DailyPlan(
    date: string,
    condition: Condition,
    menstrualCondition: Option<MenstrualCondition>,
    timeBlocks: seq<TimeBlock>,
    todayExerciseType: Option<string>,
    notes: string)

  datatype OfficeHours = OfficeHours(start: string, end: string, lunchTime: string)
  datatype ClassHours = ClassHours(start: string, end: string)

  datatype Lifestyle = Lifestyle(
    kind: LifestyleType,
    officeHours: Option<OfficeHours>,
    commuteMinutes: Option<int>,
    shiftType: Option<ShiftType>,
    classHours: Option<ClassHours>,
    freeDays: Option<seq<Weekday>>,
    preferredWorkHours: Option<seq<WorkHourPeriod>>)

  datatype SleepPattern = SleepPattern(
    wakeTime: string,
    bedTime: string,
    weekendDifferent: Option<bool>,
    weekendWakeTime: Option<string>,
    weekendBedTime: Option<string>)

  datatype Meal = Meal(enabled: bool, time: Option<string>)
  datatype Meals = Meals(breakfast: Meal, lunch: Meal, dinner: Meal)

  datatype ExerciseHabit = ExerciseHabit(
    active: bool,
    weeklyCount: Option<int>,
    days: Option<seq<Weekday>>,
    time: Option<string>,
    duration: Option<int>,
    types: Option<seq<string>>)

  datatype BreakSetting = BreakSetting(enabled: bool, time: string, duration: int)
  datatype Breaks = Breaks(morning: Option<BreakSetting>, afternoon: Option<BreakSetting>)

  datatype Routine = Routine(enabled: bool, time: Option<string>, duration: Option<int>)
  datatype Routines = Routines(caffeine: Option<Routine>, nap: Option<Routine>, meditation: Option<Routine>)

  datatype UserProfile = UserProfile(
    gender: Gender,
    trackMenstrual: Option<bool>,
    lifestyle: Lifestyle,
    sleep: SleepPattern,
    meals: Meals,
    exercise: ExerciseHabit,
    breaks: Option<Breaks>,
    routines: Option<Routines>)

  /** JavaScript truthiness of an optional string: present and non-empty. */
  predicate IsSet(t: Option<string>) {
    t.Some? && t.value != ""
  }

  /** The position `Date.getDay()` gives a weekday: Sunday is 0. */
  function DayIndex(w: Weekday): (i: nat)
    ensures i < 7
  {
    match w
    case Sun => 0
    case Mon => 1
    case Tue => 2
    case Wed => 3
    case Thu => 4
    case Fri => 5
    case Sat => 6
  }

  /**
   * `getTodayWeekday`: the weekday of today's `getDay()` index, which the
   * caller reads from the clock and passes in.
   */
  function TodayWeekday(dayIndex: int): (w: Weekday)
    requires 0 <= dayIndex < 7
    ensures DayIndex(w) == dayIndex
  {
    [Sun, Mon, Tue, Wed, Thu, Fri, Sat][dayIndex]
  }

  lemma TodayWeekdayOfIndex(w: Weekday)
    ensures TodayWeekday(DayIndex(w)) == w
  {
  }

  /**
   * `isExerciseDay`: never when exercise is inactive; every day when no days
   * are chosen; otherwise exactly on the chosen days.
   */
  function IsExerciseDay(profile: UserProfile, today: Weekday): (b: bool)
    ensures !profile.exercise.active ==> !b
    ensures profile.exercise.active && (profile.exercise.days.None? || profile.exercise.days.value == []) ==> b
    ensures profile.exercise.active && profile.exercise.days.Some? && profile.exercise.days.value != [] ==>
      (b <==> today in profile.exercise.days.value)
  {
    var ex := profile.exercise;
    if !ex.active then false
    else if ex.days.None? || |ex.days.value| == 0 then true
    else today in ex.days.value
  }

  /** `TIME_OPTIONS`: the 48 half-hour values "00:00", "00:30", ..., "23:30". */
  function TimeOptions(): (r: seq<string>)
    ensures |r| == 48
  {
    seq(48, i requires 0 <= i < 48 => Pad2(i / 2) + ":" + (if i % 2 == 0 then "00" else "30"))
  }
}
