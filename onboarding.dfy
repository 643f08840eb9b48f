/**
 * src/app/onboarding/page.tsx: the eight-step questionnaire that builds a
 * user profile. The page's state variables are the fields of a class; its
 * handlers are methods that update them. The answers the steps gate on
 * (gender, lifestyle, shift type, whether one exercises) and the exercise
 * days are fields of their own; the other form inputs, which the page
 * simply stores, are one record.
 *
 * A handler that the page only offers on one step (its controls are
 * rendered only while `step` has that value) requires that step; `Next`
 * requires CanProceed, because the page disables its button otherwise.
 */
module Onboarding {
  import opened Profile
  import Templates

  const TotalSteps := 8

  /** The plain form inputs, stored as entered and copied into the profile. */
  datatype FormValues = FormValues(
    trackMenstrual: bool,
    officeStart: string, officeEnd: string, lunchTime: string,
    commuteMinutes: int,
    classStart: string, classEnd: string,
    freeDays: seq<Weekday>,
    preferredWorkHours: seq<WorkHourPeriod>,
    wakeTime: string, bedTime: string,
    weekendDifferent: bool, weekendWakeTime: string, weekendBedTime: string,
    breakfast: Meal, lunch: Meal, dinner: Meal,
    exerciseTime: string, exerciseDuration: int, exerciseTypes: seq<string>,
    caffeine: Routine, nap: Routine,
    morningBreak: BreakSetting, afternoonBreak: BreakSetting)

  /** The initial values of the page's state. */
  function DefaultForm(): FormValues {
    FormValues(
      false,
      "09:00", "18:00", "12:00",
      30,
      "09:00", "17:00",
      [],
      [Morning, Afternoon],
      "07:00", "23:00",
      false, "09:00", "00:00",
      Meal.Meal(true, Some("07:30")), Meal.Meal(true, Some("12:00")), Meal.Meal(true, Some("19:00")),
      "19:00", 60, [],
      Routine(false, Some("09:00"), None), Routine(false, Some("13:00"), Some(30)),
      BreakSetting(false, "10:30", 15), BreakSetting(false, "15:00", 15))
  }

  /**
   * Submitted untouched, the initial form gives a profile whose times are
   * all well-formed "HH:MM" times, whatever the step answers were, so the
   * day can be generated from it.
   */
  lemma DefaultFormTimesValid(gender: Gender, kind: LifestyleType, shiftType: Option<ShiftType>,
                              active: bool, weeklyCount: int, days: seq<Weekday>)
    ensures Templates.ProfileTimesValid(Assemble(gender, kind, shiftType, DefaultForm(), active, weeklyCount, days))
  {
    var f := DefaultForm();
    assert Templates.ValidTime("07:00") && Templates.ValidTime("23:00") && Templates.ValidTime("07:30");
    assert Templates.ValidTime("09:00") && Templates.ValidTime("18:00") && Templates.ValidTime("12:00");
    assert Templates.ValidTime("17:00") && Templates.ValidTime("19:00");
    assert f.breakfast.time == Some("07:30") && f.lunch.time == Some("12:00") && f.dinner.time == Some("19:00");
  }

  predicate NoDuplicates(days: seq<Weekday>) {
    forall i, j :: 0 <= i < j < |days| ==> days[i] != days[j]
  }

  /** `days.filter(d => d !== day)`. */
  function Without(days: seq<Weekday>, day: Weekday): (r: seq<Weekday>)
    ensures |r| <= |days|
    ensures forall d :: d in r <==> d in days && d != day
    ensures NoDuplicates(days) ==> NoDuplicates(r)
  {
    if days == [] then []
    else
      var rest := Without(days[1..], day);
      assert NoDuplicates(days) ==> days[0] !in days[1..];
      (if days[0] != day then [days[0]] else []) + rest
  }

  /** Removing a present day from a list without duplicates shortens it by one. */
  lemma {:induction false} WithoutPresent(days: seq<Weekday>, day: Weekday)
    requires NoDuplicates(days) && day in days
    ensures |Without(days, day)| == |days| - 1
  {
    if days[0] == day {
      WithoutAbsent(days[1..], day);
    } else {
      WithoutPresent(days[1..], day);
    }
  }

  lemma {:induction false} WithoutAbsent(days: seq<Weekday>, day: Weekday)
    requires day !in days
    ensures Without(days, day) == days
  {
    if days != [] {
      WithoutAbsent(days[1..], day);
      assert days == [days[0]] + days[1..];
    }
  }

  /** The `lifestyle` record of the profile: only the fields of the chosen type are present. */
  function AssembleLifestyle(kind: LifestyleType, shiftType: Option<ShiftType>, f: FormValues): (l: Lifestyle)
    ensures l.kind == kind
    ensures l.officeHours.Some? <==> kind == Office || kind == OfficeFlex
    ensures l.commuteMinutes.Some? <==> kind == Office || kind == OfficeFlex
    ensures l.officeHours.Some? ==> l.officeHours.value == OfficeHours(f.officeStart, f.officeEnd, f.lunchTime)
    ensures l.commuteMinutes.Some? ==> l.commuteMinutes.value == f.commuteMinutes
    ensures kind == Shift ==> l.shiftType == shiftType
    ensures kind != Shift ==> l.shiftType.None?
    ensures l.classHours.Some? <==> kind == Student
    ensures l.freeDays.Some? <==> kind == Student
    ensures l.freeDays.Some? ==> l.freeDays.value == f.freeDays
    ensures l.preferredWorkHours.Some? <==> kind == Freelancer
    ensures l.preferredWorkHours.Some? ==> l.preferredWorkHours.value == f.preferredWorkHours
  {
    var office := kind == Office || kind == OfficeFlex;
    Lifestyle(
      kind,
      if office then Some(OfficeHours(f.officeStart, f.officeEnd, f.lunchTime)) else None,
      if office then Some(f.commuteMinutes) else None,
      if kind == Shift then shiftType else None,
      if kind == Student then Some(ClassHours(f.classStart, f.classEnd)) else None,
      if kind == Student then Some(f.freeDays) else None,
      if kind == Freelancer then Some(f.preferredWorkHours) else None)
  }

  /** The `exercise` record: the details only when one exercises; no types when none are chosen. */
  function AssembleExercise(active: bool, weeklyCount: int, days: seq<Weekday>, f: FormValues): (e: ExerciseHabit)
    ensures e.active == active
    ensures active ==> e.weeklyCount == Some(weeklyCount) && e.days == Some(days)
    ensures active ==> e.time == Some(f.exerciseTime) && e.duration == Some(f.exerciseDuration)
    ensures active ==> (e.types.Some? <==> f.exerciseTypes != []) && (e.types.Some? ==> e.types.value == f.exerciseTypes)
    ensures !active ==> e.weeklyCount.None? && e.days.None? && e.time.None? && e.duration.None? && e.types.None?
  {
    if active then
      ExerciseHabit(true, Some(weeklyCount), Some(days), Some(f.exerciseTime), Some(f.exerciseDuration),
        if |f.exerciseTypes| > 0 then Some(f.exerciseTypes) else None)
    else ExerciseHabit(false, None, None, None, None, None)
  }

  /**
   * The profile that `handleNext` saves on the last step: the menstrual flag
   * only for women, the lifestyle fields of the chosen type, the weekend
   * times only when they differ, and the breaks and routines only when
   * enabled.
   */
  function Assemble(gender: Gender, kind: LifestyleType, shiftType: Option<ShiftType>, f: FormValues,
                    active: bool, weeklyCount: int, days: seq<Weekday>): (p: UserProfile)
    ensures p.gender == gender
    ensures p.trackMenstrual.Some? <==> gender == Female
    ensures p.trackMenstrual.Some? ==> p.trackMenstrual.value == f.trackMenstrual
    ensures p.lifestyle == AssembleLifestyle(kind, shiftType, f)
    ensures p.sleep.weekendWakeTime.Some? <==> f.weekendDifferent
    ensures p.sleep.weekendBedTime.Some? <==> f.weekendDifferent
    ensures p.exercise == AssembleExercise(active, weeklyCount, days, f)
    ensures p.breaks.Some? && p.routines.Some?
    ensures p.breaks.value.morning.Some? <==> f.morningBreak.enabled
    ensures p.breaks.value.afternoon.Some? <==> f.afternoonBreak.enabled
    ensures p.routines.value.caffeine.Some? <==> f.caffeine.enabled
    ensures p.routines.value.nap.Some? <==> f.nap.enabled
    ensures p.routines.value.meditation.None?
  {
    UserProfile(
      gender,
      if gender == Female then Some(f.trackMenstrual) else None,
      AssembleLifestyle(kind, shiftType, f),
      SleepPattern(f.wakeTime, f.bedTime, Some(f.weekendDifferent),
        if f.weekendDifferent then Some(f.weekendWakeTime) else None,
        if f.weekendDifferent then Some(f.weekendBedTime) else None),
      Meals(f.breakfast, f.lunch, f.dinner),
      AssembleExercise(active, weeklyCount, days, f),
      Some(Breaks(
        if f.morningBreak.enabled then Some(f.morningBreak) else None,
        if f.afternoonBreak.enabled then Some(f.afternoonBreak) else None)),
      Some(Routines(
        if f.caffeine.enabled then Some(f.caffeine) else None,
        if f.nap.enabled then Some(f.nap) else None,
        None)))
  }

  class OnboardingPage {
    var step: int
    var gender: Option<Gender>
    var lifestyleType: Option<LifestyleType>
    var shiftType: Option<ShiftType>
    var exerciseActive: Option<bool>
    var weeklyCount: int
    var exerciseDays: seq<Weekday>
    var form: FormValues

    /**
     * The page's invariant: the step is in range, the chosen days are
     * distinct and no more than the weekly count, and every step already
     * passed had its question answered.
     */
    predicate Valid()
      reads this
    {
      && 1 <= step <= TotalSteps
      && 1 <= weeklyCount <= 5
      && |exerciseDays| <= weeklyCount
      && NoDuplicates(exerciseDays)
      && (step > 1 ==> gender.Some?)
      && (step > 2 ==> lifestyleType.Some?)
      && (step > 3 && lifestyleType == Some(Shift) ==> shiftType.Some?)
      && (step > 6 ==> exerciseActive.Some?)
      && (step > 6 && exerciseActive == Some(true) ==> exerciseDays != [])
    }

    constructor()
      ensures Valid()
      ensures step == 1 && gender.None? && lifestyleType.None? && shiftType.None? && exerciseActive.None?
      ensures weeklyCount == 3 && exerciseDays == [Mon, Wed, Fri] && form == DefaultForm()
    {
      step := 1;
      gender := None;
      lifestyleType := None;
      shiftType := None;
      exerciseActive := None;
      weeklyCount := 3;
      exerciseDays := [Mon, Wed, Fri];
      form := DefaultForm();
    }

    /**
     * `canProceed`: the current step's question is answered. Step 4 needs
     * both sleep times non-empty; step 6 needs an answer, and at least one
     * day when the answer is yes.
     */
    predicate CanProceed()
      reads this
      ensures step == 1 ==> (CanProceed() <==> gender.Some?)
      ensures step == 2 ==> (CanProceed() <==> lifestyleType.Some?)
      ensures step == 3 ==> (CanProceed() <==> lifestyleType != Some(Shift) || shiftType.Some?)
      ensures step == 6 ==> (CanProceed() <==> exerciseActive.Some? && (exerciseActive.value ==> exerciseDays != []))
      ensures step == 4 ==> (CanProceed() <==> form.wakeTime != [] && form.bedTime != [])
      ensures step == 5 || step == 7 || step == 8 ==> CanProceed()
      ensures !(1 <= step <= 8) ==> !CanProceed()
    {
      match step
      case 1 => gender.Some?
      case 2 => lifestyleType.Some?
      case 3 => if lifestyleType == Some(Shift) then shiftType.Some? else true
      case 4 => form.wakeTime != "" && form.bedTime != ""
      case 5 => true
      case 6 => if exerciseActive.None? then false else !(exerciseActive.value && |exerciseDays| == 0)
      case 7 => true
      case 8 => true
      case _ => false
    }

    /**
     * `handleNext`: moves one step forward; on the last step it returns the
     * assembled profile (whose saving and the navigation after it are not
     * modelled) and stays put.
     */
    method Next() returns (profile: Option<UserProfile>)
      requires Valid() && CanProceed()
      modifies this`step
      ensures Valid()
      ensures old(step) < TotalSteps ==> step == old(step) + 1 && profile.None?
      ensures old(step) == TotalSteps ==> step == old(step) && profile.Some?
      ensures old(step) == TotalSteps ==> profile.value == Assemble(gender.value, lifestyleType.value, shiftType,
        form, exerciseActive.value, weeklyCount, exerciseDays)
      ensures old(step) == TotalSteps && profile.value.exercise.active ==>
        0 < |profile.value.exercise.days.value| <= weeklyCount <= 5
    {
      if step < TotalSteps {
        step := step + 1;
        profile := None;
      } else {
        profile := Some(Assemble(gender.value, lifestyleType.value, shiftType,
          form, exerciseActive.value, weeklyCount, exerciseDays));
      }
    }

    /** `handleBack`: one step back, never below the first. */
    method Back()
      requires Valid()
      modifies this`step
      ensures Valid()
      ensures step == if old(step) > 1 then old(step) - 1 else old(step)
    {
      if step > 1 {
        step := step - 1;
      }
    }

    /**
     * `handleWeeklyCountChange`: sets the count and keeps only the first
     * `count` chosen days.
     */
    method WeeklyCountChange(count: int)
      requires Valid() && 1 <= count <= 5
      modifies this`weeklyCount, this`exerciseDays
      ensures Valid()
      ensures weeklyCount == count
      ensures exerciseDays == if |old(exerciseDays)| > count then old(exerciseDays)[..count] else old(exerciseDays)
    {
      weeklyCount := count;
      if |exerciseDays| > count {
        exerciseDays := exerciseDays[..count];
      }
    }

    /**
     * `handleExerciseDayToggle`: a chosen day is removed; another is added
     * at the end while fewer than `weeklyCount` days are chosen, and
     * ignored otherwise.
     */
    method ExerciseDayToggle(day: Weekday)
      requires Valid() && step == 6
      modifies this`exerciseDays
      ensures Valid()
      ensures day in old(exerciseDays) ==> exerciseDays == Without(old(exerciseDays), day)
      ensures day in old(exerciseDays) ==> |exerciseDays| == |old(exerciseDays)| - 1
      ensures day !in old(exerciseDays) && |old(exerciseDays)| < weeklyCount ==>
        exerciseDays == old(exerciseDays) + [day]
      ensures day !in old(exerciseDays) && |old(exerciseDays)| >= weeklyCount ==>
        exerciseDays == old(exerciseDays)
      ensures day in exerciseDays <==> day !in old(exerciseDays) && |old(exerciseDays)| < weeklyCount
    {
      if day in exerciseDays {
        WithoutPresent(exerciseDays, day);
        exerciseDays := Without(exerciseDays, day);
      } else if |exerciseDays| < weeklyCount {
        exerciseDays := exerciseDays + [day];
      }
    }

    /** Choosing a gender, offered on step 1. */
    method SetGender(g: Gender)
      requires Valid() && step == 1
      modifies this`gender
      ensures Valid() && gender == Some(g)
    {
      gender := Some(g);
    }

    /** Choosing a lifestyle, offered on step 2. */
    method SetLifestyleType(t: LifestyleType)
      requires Valid() && step == 2
      modifies this`lifestyleType
      ensures Valid() && lifestyleType == Some(t)
    {
      lifestyleType := Some(t);
    }

    /** Choosing a shift type, offered on step 3 for shift workers. */
    method SetShiftType(s: ShiftType)
      requires Valid() && step == 3
      modifies this`shiftType
      ensures Valid() && shiftType == Some(s)
    {
      shiftType := Some(s);
    }

    /** Answering whether one exercises, offered on step 6. */
    method SetExerciseActive(active: bool)
      requires Valid() && step == 6
      modifies this`exerciseActive
      ensures Valid() && exerciseActive == Some(active)
    {
      exerciseActive := Some(active);
    }

    /** Any of the plain form inputs. */
    method SetForm(f: FormValues)
      requires Valid()
      modifies this`form
      ensures Valid() && form == f
    {
      form := f;
    }
  }

  /**
   * A profile completed through the questionnaire picks its exercise days
   * exactly: when one exercises, the day list is non-empty, so it is an
   * exercise day exactly when it is one of the chosen days.
   */
  lemma CompletedExerciseDays(gender: Gender, kind: LifestyleType, shiftType: Option<ShiftType>, f: FormValues,
                              active: bool, weeklyCount: int, days: seq<Weekday>, today: Weekday)
    requires active ==> days != []
    ensures var p := Assemble(gender, kind, shiftType, f, active, weeklyCount, days);
      IsExerciseDay(p, today) <==> active && today in days
  {
  }
}
