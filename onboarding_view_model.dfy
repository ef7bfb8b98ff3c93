/**
 * `OnboardingViewModel`: a seven-step wizard from `welcome` to `completion`. Whether the user may
 * go on, and whether a skip button shows, follow the current step and selections; leaving the
 * last step saves the preferences through a service whose outcome enters as an input.
 * Its `Language` is the eight-language enum declared beside the view model, not the onboarding
 * models' one.
 */
module OnboardingFlow {
  import opened Wrappers

  datatype Step = Welcome | LanguageSelection | ProficiencyLevel | LearningGoals | DailyGoal | Notifications | Completion

  /** `OnboardingStep.rawValue`. */
  function RawValue(s: Step): (r: nat)
    ensures r <= 6
  {
    match s
    case Welcome => 0
    case LanguageSelection => 1
    case ProficiencyLevel => 2
    case LearningGoals => 3
    case DailyGoal => 4
    case Notifications => 5
    case Completion => 6
  }

  /** `OnboardingStep(rawValue:)`: no step outside 0..6. */
  function StepOf(n: int): (r: Option<Step>)
    ensures r.Some? <==> 0 <= n <= 6
    ensures r.Some? ==> RawValue(r.value) == n
  {
    if n == 0 then Some(Welcome)
    else if n == 1 then Some(LanguageSelection)
    else if n == 2 then Some(ProficiencyLevel)
    else if n == 3 then Some(LearningGoals)
    else if n == 4 then Some(DailyGoal)
    else if n == 5 then Some(Notifications)
    else if n == 6 then Some(Completion)
    else None
  }

  datatype Language = Spanish | French | German | Italian | Portuguese | Chinese | Japanese | Korean
  datatype ProficiencyLevel = Beginner | Elementary | Intermediate | Advanced | Native
  datatype LearningGoal = Travel | Business | Culture | Family | Education | Career

  datatype Validation = Validation(canProceed: bool, showSkipButton: bool)

  /** `validateCurrentStep`: the selection a step asks for, and the three skippable steps. */
  function ValidateStep(step: Step, language: Option<Language>, level: Option<ProficiencyLevel>,
                        goals: set<LearningGoal>): Validation {
    match step
    case Welcome => Validation(true, false)
    case LanguageSelection => Validation(language.Some?, false)
    case ProficiencyLevel => Validation(level.Some?, false)
    case LearningGoals => Validation(goals != {}, true)
    case DailyGoal => Validation(true, true)
    case Notifications => Validation(true, true)
    case Completion => Validation(true, false)
  }

  /** The step `nextStep` moves to; there is none after `completion`. */
  function Successor(s: Step): (r: Option<Step>)
    ensures r.None? <==> s == Completion
    ensures r.Some? ==> RawValue(r.value) == RawValue(s) + 1
  {
    StepOf(RawValue(s) + 1)
  }

  /** The step `previousStep` moves to; there is none before `welcome`. */
  function Predecessor(s: Step): (r: Option<Step>)
    ensures r.None? <==> s == Welcome
    ensures r.Some? ==> RawValue(r.value) + 1 == RawValue(s)
  {
    StepOf(RawValue(s) - 1)
  }

  /** `toggleGoal` as a value. */
  function Toggled(goals: set<LearningGoal>, g: LearningGoal): (r: set<LearningGoal>)
    ensures g in r <==> g !in goals
    ensures r - {g} == goals - {g}
  {
    if g in goals then goals - {g} else goals + {g}
  }

  // ---------------------------------------------------------------------------
  // Lemmas about steps, validation and goals

  /** Raw values 0..6 name the seven steps, one each. */
  lemma StepRawRoundTrip(s: Step, n: int)
    ensures StepOf(RawValue(s)) == Some(s)
    ensures RawValue(s) <= 6
    ensures StepOf(n).Some? <==> 0 <= n <= 6
    ensures StepOf(n).Some? ==> RawValue(StepOf(n).value) == n
  {
  }

  /** Going forward moves up one raw value except at `completion`; going back moves down one except at `welcome`. */
  lemma StepsMoveByOne(s: Step)
    ensures Successor(s).None? <==> s == Completion
    ensures Successor(s).Some? ==> RawValue(Successor(s).value) == RawValue(s) + 1
    ensures Predecessor(s).None? <==> s == Welcome
    ensures Predecessor(s).Some? ==> RawValue(Predecessor(s).value) + 1 == RawValue(s)
  {
    StepRawRoundTrip(s, RawValue(s) + 1);
    StepRawRoundTrip(s, RawValue(s) - 1);
  }

  /** Back undoes forward and forward undoes back. */
  lemma ForwardBackInverse(s: Step)
    ensures Successor(s).Some? ==> Predecessor(Successor(s).value) == Some(s)
    ensures Predecessor(s).Some? ==> Successor(Predecessor(s).value) == Some(s)
  {
  }

  /** Only the language, level and goals steps can block; each needs its own selection. */
  lemma ValidationCases(step: Step, language: Option<Language>, level: Option<ProficiencyLevel>, goals: set<LearningGoal>)
    ensures var v := ValidateStep(step, language, level, goals);
      (v.canProceed <==>
        (step == LanguageSelection ==> language.Some?) &&
        (step == ProficiencyLevel ==> level.Some?) &&
        (step == LearningGoals ==> goals != {})) &&
      (v.showSkipButton <==> step == LearningGoals || step == DailyGoal || step == Notifications)
  {
  }

  /** The skip button on the goals step leads nowhere until a goal is chosen, since skipping defers to the guarded advance. */
  lemma SkipOnGoalsNeedsAGoal(language: Option<Language>, level: Option<ProficiencyLevel>)
    ensures ValidateStep(LearningGoals, language, level, {}).showSkipButton
    ensures !ValidateStep(LearningGoals, language, level, {}).canProceed
  {
  }

  /** A toggle flips exactly one membership, so toggling twice restores the set. */
  lemma ToggleFlipsOne(goals: set<LearningGoal>, g: LearningGoal, h: LearningGoal)
    ensures h in Toggled(goals, g) <==> (h in goals) != (h == g)
    ensures Toggled(Toggled(goals, g), g) == goals
  {
  }

  // ---------------------------------------------------------------------------
  // The view model

  class OnboardingViewModel {
    var currentStep: Step
    var isLoading: bool
    var errorMessage: string
    var isOnboardingComplete: bool
    var selectedLanguage: Option<Language>
    var selectedProficiencyLevel: Option<ProficiencyLevel>
    var selectedGoals: set<LearningGoal>
    var dailyGoalMinutes: int
    var notificationsEnabled: bool
    /** `preferredNotificationTime`, in seconds since an epoch. */
    var preferredNotificationTime: int
    var canProceed: bool
    var showSkipButton: bool

    function Validated(): Validation
      reads this
    {
      ValidateStep(currentStep, selectedLanguage, selectedProficiencyLevel, selectedGoals)
    }

    /**
     * The validation subscription keeps both flags equal to the current step's validation; and a
     * step past the language or level step was reached with that selection, which nothing unsets.
     */
    predicate Valid()
      reads this
    {
      canProceed == Validated().canProceed && showSkipButton == Validated().showSkipButton &&
      (RawValue(currentStep) > 1 ==> selectedLanguage.Some?) &&
      (RawValue(currentStep) > 2 ==> selectedProficiencyLevel.Some?)
    }

    /** The save's force-unwraps succeed. */
    predicate CanSave()
      reads this
    {
      selectedLanguage.Some? && selectedProficiencyLevel.Some?
    }

    /** `init` at time `now`: on `welcome` with the defaults; subscribing validates at once. */
    constructor (now: int)
      ensures Valid()
      ensures currentStep == Welcome && !isLoading && errorMessage == "" && !isOnboardingComplete
      ensures selectedLanguage.None? && selectedProficiencyLevel.None? && selectedGoals == {}
      ensures dailyGoalMinutes == 15 && notificationsEnabled && preferredNotificationTime == now
      ensures canProceed && !showSkipButton
    {
      currentStep := Welcome;
      isLoading := false;
      errorMessage := "";
      isOnboardingComplete := false;
      selectedLanguage := None;
      selectedProficiencyLevel := None;
      selectedGoals := {};
      dailyGoalMinutes := 15;
      notificationsEnabled := true;
      preferredNotificationTime := now;
      canProceed := true;
      showSkipButton := false;
    }

    /** `validateCurrentStep` on the current values, as the subscription and `updateStepValidation` run it. */
    method UpdateStepValidation()
      modifies this`canProceed, this`showSkipButton
      ensures canProceed == Validated().canProceed && showSkipButton == Validated().showSkipButton
    {
      match currentStep
      case Welcome =>
        canProceed, showSkipButton := true, false;
      case LanguageSelection =>
        canProceed, showSkipButton := selectedLanguage.Some?, false;
      case ProficiencyLevel =>
        canProceed, showSkipButton := selectedProficiencyLevel.Some?, false;
      case LearningGoals =>
        canProceed, showSkipButton := selectedGoals != {}, true;
      case DailyGoal =>
        canProceed, showSkipButton := true, true;
      case Notifications =>
        canProceed, showSkipButton := true, true;
      case Completion =>
        canProceed, showSkipButton := true, false;
    }

    /**
     * `nextStep`: nothing when the step blocks; otherwise one step on, or at `completion` the
     * save starts and the step stays.
     */
    method NextStep()
      requires Valid()
      modifies this`currentStep, this`canProceed, this`showSkipButton, this`isLoading, this`errorMessage
      ensures Valid()
      ensures !old(canProceed) ==> currentStep == old(currentStep) && isLoading == old(isLoading) && errorMessage == old(errorMessage)
      ensures old(canProceed) && old(currentStep) != Completion ==>
        Some(currentStep) == Successor(old(currentStep)) && isLoading == old(isLoading) && errorMessage == old(errorMessage)
      ensures old(canProceed) && old(currentStep) == Completion ==>
        currentStep == Completion && isLoading && errorMessage == ""
      ensures canProceed == Validated().canProceed && showSkipButton == Validated().showSkipButton
      ensures currentStep == Completion ==> CanSave()
    {
      if !canProceed {
        return;
      }
      var next := StepOf(RawValue(currentStep) + 1);
      if next.Some? {
        currentStep := next.value;
        UpdateStepValidation();
      } else {
        CompleteOnboarding();
      }
    }

    /** `previousStep`: one step back, or nothing at `welcome`. */
    method PreviousStep()
      requires Valid()
      modifies this`currentStep, this`canProceed, this`showSkipButton
      ensures Valid()
      ensures old(currentStep) == Welcome ==> currentStep == Welcome
      ensures old(currentStep) != Welcome ==> Some(currentStep) == Predecessor(old(currentStep))
    {
      var previous := StepOf(RawValue(currentStep) - 1);
      if previous.Some? {
        currentStep := previous.value;
        UpdateStepValidation();
      }
    }

    /** `skipStep`: `nextStep`, when the skip button shows. */
    method SkipStep()
      requires Valid()
      modifies this`currentStep, this`canProceed, this`showSkipButton, this`isLoading, this`errorMessage
      ensures Valid()
      ensures !old(showSkipButton) || !old(canProceed) ==>
        currentStep == old(currentStep) && isLoading == old(isLoading) && errorMessage == old(errorMessage)
      ensures old(showSkipButton) && old(canProceed) ==>
        Some(currentStep) == Successor(old(currentStep)) && isLoading == old(isLoading) && errorMessage == old(errorMessage)
      ensures canProceed == Validated().canProceed && showSkipButton == Validated().showSkipButton
    {
      if !showSkipButton {
        return;
      }
      NextStep();
    }

    method SelectLanguage(language: Language)
      requires Valid()
      modifies this`selectedLanguage, this`canProceed, this`showSkipButton
      ensures Valid()
      ensures selectedLanguage == Some(language)
    {
      selectedLanguage := Some(language);
      UpdateStepValidation();
    }

    method SelectProficiencyLevel(level: ProficiencyLevel)
      requires Valid()
      modifies this`selectedProficiencyLevel, this`canProceed, this`showSkipButton
      ensures Valid()
      ensures selectedProficiencyLevel == Some(level)
    {
      selectedProficiencyLevel := Some(level);
      UpdateStepValidation();
    }

    method ToggleGoal(goal: LearningGoal)
      requires Valid()
      modifies this`selectedGoals, this`canProceed, this`showSkipButton
      ensures Valid()
      ensures selectedGoals == Toggled(old(selectedGoals), goal)
    {
      if goal in selectedGoals {
        selectedGoals := selectedGoals - {goal};
      } else {
        selectedGoals := selectedGoals + {goal};
      }
      UpdateStepValidation();
    }

    /** Stores any number of minutes, unchecked. */
    method SetDailyGoal(minutes: int)
      modifies this`dailyGoalMinutes
      ensures dailyGoalMinutes == minutes
    {
      dailyGoalMinutes := minutes;
    }

    method ToggleNotifications()
      modifies this`notificationsEnabled
      ensures notificationsEnabled == !old(notificationsEnabled)
    {
      notificationsEnabled := !notificationsEnabled;
    }

    /** `completeOnboarding` up to its task: loading starts and the error is cleared. */
    method CompleteOnboarding()
      modifies this`isLoading, this`errorMessage
      ensures isLoading && errorMessage == ""
    {
      isLoading := true;
      errorMessage := "";
    }

    /**
     * The task of `completeOnboarding`: the preferences, built with the two force-unwraps, are
     * saved with the given outcome. Success completes onboarding; failure reports why.
     */
    method SaveTaskFinished(outcome: Outcome) returns (saved: UserPreferences)
      requires CanSave()
      modifies this`isOnboardingComplete, this`errorMessage, this`isLoading
      ensures saved == UserPreferences(selectedLanguage.value, selectedProficiencyLevel.value, selectedGoals,
                                       dailyGoalMinutes, notificationsEnabled, preferredNotificationTime)
      ensures !isLoading
      ensures outcome.Succeeded? ==> isOnboardingComplete && errorMessage == old(errorMessage)
      ensures outcome.Failed? ==>
        isOnboardingComplete == old(isOnboardingComplete) &&
        errorMessage == "Failed to save preferences: " + outcome.description && errorMessage != ""
    {
      saved := UserPreferences(selectedLanguage.value, selectedProficiencyLevel.value, selectedGoals,
                               dailyGoalMinutes, notificationsEnabled, preferredNotificationTime);
      if outcome.Succeeded? {
        isOnboardingComplete := true;
      } else {
        errorMessage := "Failed to save preferences: " + outcome.description;
      }
      isLoading := false;
    }
  }

  /** `UserPreferences`; the goals are a set here, where the source makes an array of them in no fixed order. */
  datatype UserPreferences = UserPreferences(
    selectedLanguage: Language, proficiencyLevel: ProficiencyLevel, learningGoals: set<LearningGoal>,
    dailyGoalMinutes: int, notificationsEnabled: bool, preferredNotificationTime: int)
}
