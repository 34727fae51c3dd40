/**
 * The five-step onboarding wizard: the guarded step counter, the form record
 * edited field by field, the fitness-goal toggles, the progress bar and the
 * navigation buttons of each step.
 */
module OnboardingFlow {
  import opened Common

  /** `age` starts as the number 0; an edit of the number input stores the
      input's text, as every edit does. */
  datatype AgeValue = AgeNumber(n: int) | AgeText(text: string)

  datatype OnboardingData = OnboardingData(
    name: string, age: AgeValue, gender: string, location: string, fitnessGoals: seq<string>)

  /** The `name` attribute of the edited input or select. */
  datatype InputField = NameInput | AgeInput | GenderSelect | LocationInput

  const InitialData: OnboardingData := OnboardingData("", AgeNumber(0), "male", "", [])

  const FitnessGoalOptions: seq<string> := [
    "Lose Weight", "Build Muscle", "Stay Fit & Active", "Try New Gyms",
    "Improve Stamina", "Learn Group Workouts", "De-Stress from Work"]

  const LastStep: int := 4

  /** What the page renders before the wizard: a loading text while the
      session is resolved, a redirect when signed out. */
  datatype Gate = Loading | RedirectToLogin | Wizard

  function GateFor(isLoading: bool, isAuthenticated: bool): (r: Gate)
    ensures r == Wizard <==> !isLoading && isAuthenticated
    ensures r == RedirectToLogin <==> !isLoading && !isAuthenticated
  {
    if isLoading then Loading else if !isAuthenticated then RedirectToLogin else Wizard
  }

  // ---------------------------------------------------------------------
  // Form edits

  /** `setFormData(prev => ({...prev, [name]: value}))`. */
  function SetField(d: OnboardingData, field: InputField, value: string): (r: OnboardingData)
    ensures r.fitnessGoals == d.fitnessGoals
    ensures r.name == (if field == NameInput then value else d.name)
    ensures r.age == (if field == AgeInput then AgeText(value) else d.age)
    ensures r.gender == (if field == GenderSelect then value else d.gender)
    ensures r.location == (if field == LocationInput then value else d.location)
  {
    match field
    case NameInput => d.(name := value)
    case AgeInput => d.(age := AgeText(value))
    case GenderSelect => d.(gender := value)
    case LocationInput => d.(location := value)
  }

  /** The latest edit of a field wins, and edits of different fields commute. */
  lemma SetFieldLastWins(d: OnboardingData, f: InputField, g: InputField, v: string, w: string)
    ensures SetField(SetField(d, f, v), f, w) == SetField(d, f, w)
    ensures f != g ==> SetField(SetField(d, f, v), g, w) == SetField(SetField(d, g, w), f, v)
  {
  }

  /** `includes(goal) ? filter(g => g !== goal) : [...goals, goal]`. */
  function ToggleGoal(goals: seq<string>, goal: string): (r: seq<string>)
    ensures goal in r <==> goal !in goals
    ensures forall g :: g != goal ==> (g in r <==> g in goals)
  {
    if goal in goals then Filter(goals, (g: string) => g != goal) else goals + [goal]
  }

  /** Toggling never introduces a duplicate goal. */
  lemma ToggleGoalNoDup(goals: seq<string>, goal: string)
    requires NoDup(goals)
    ensures NoDup(ToggleGoal(goals, goal))
  {
    if goal in goals {
      FilterNoDup(goals, (g: string) => g != goal);
    }
  }

  /** Toggling a goal twice gives back the same set of goals; the very same
      list comes back when the goal was not chosen, while a chosen goal moves
      to the end of the list. */
  lemma ToggleGoalTwice(goals: seq<string>, goal: string)
    ensures forall g :: g in ToggleGoal(ToggleGoal(goals, goal), goal) <==> g in goals
    ensures goal !in goals ==> ToggleGoal(ToggleGoal(goals, goal), goal) == goals
    ensures goal in goals ==>
      ToggleGoal(ToggleGoal(goals, goal), goal) == Filter(goals, (g: string) => g != goal) + [goal]
  {
    var p := (g: string) => g != goal;
    if goal !in goals {
      FilterConcat(goals, [goal], p);
      FilterAllPass(goals, p);
      FilterSingle(goal, p);
      assert goals + [] == goals;
    }
  }

  /** The answer for a two-goal selection in the order they were tapped. */
  lemma ToggleTwoGoals()
    ensures ToggleGoal(ToggleGoal([], FitnessGoalOptions[1]), FitnessGoalOptions[4]) ==
      ["Build Muscle", "Improve Stamina"]
  {
  }

  // ---------------------------------------------------------------------
  // Progress and navigation

  /** `(step / 4) * 100` percent. */
  function ProgressWidth(step: int): (r: real)
    ensures r == 25.0 * step as real
  {
    (step as real / 4.0) * 100.0
  }

  lemma ProgressBounds(step: int)
    requires 0 <= step <= LastStep
    ensures 0.0 <= ProgressWidth(step) <= 100.0
    ensures ProgressWidth(step) == 0.0 <==> step == 0
    ensures ProgressWidth(step) == 100.0 <==> step == LastStep
  {
  }

  /** The button under the step content. */
  datatype NavButton = NoNavButton | NextButton | CompleteButton

  function NavFor(step: int): (r: NavButton)
    ensures r == NoNavButton <==> step <= 0
    ensures r == CompleteButton <==> step == LastStep
  {
    if step <= 0 then NoNavButton else if step == LastStep then CompleteButton else NextButton
  }

  /** The back arrow shows after the welcome step. */
  predicate ShowsBack(step: int) {
    step > 0
  }

  /** On the five reachable steps: the welcome step has only its own "Get
      Started" button, steps 1-3 show Back and Next, step 4 shows Back and
      Complete, which alone submits. */
  lemma NavigationPerStep(step: int)
    requires 0 <= step <= LastStep
    ensures step == 0 ==> NavFor(step) == NoNavButton && !ShowsBack(step)
    ensures 1 <= step <= 3 ==> NavFor(step) == NextButton && ShowsBack(step)
    ensures step == 4 ==> NavFor(step) == CompleteButton && ShowsBack(step)
  {
  }

  // ---------------------------------------------------------------------
  // The wizard state

  class OnboardingWizard {
    var step: int
    var formData: OnboardingData
    /** Set once the submission was accepted: `completeOnboarding()` ran and
        the page went home. */
    var completed: bool

    /** The step stays in range and no goal is listed twice. */
    ghost predicate Valid()
      reads this
    {
      0 <= step <= LastStep && NoDup(formData.fitnessGoals)
    }

    constructor ()
      ensures Valid()
      ensures step == 0 && formData == InitialData && !completed
    {
      step := 0;
      formData := InitialData;
      completed := false;
    }

    /** "Get Started" / "Next": one step on, never past the goals step. */
    method HandleNext()
      requires Valid()
      modifies this
      ensures Valid()
      ensures step == if old(step) < LastStep then old(step) + 1 else old(step)
      ensures formData == old(formData) && completed == old(completed)
    {
      if step < LastStep {
        step := step + 1;
      }
    }

    method HandleBack()
      requires Valid()
      modifies this
      ensures Valid()
      ensures step == if old(step) > 0 then old(step) - 1 else old(step)
      ensures formData == old(formData) && completed == old(completed)
    {
      if step > 0 {
        step := step - 1;
      }
    }

    method HandleInputChange(field: InputField, value: string)
      requires Valid()
      modifies this
      ensures Valid()
      ensures formData == SetField(old(formData), field, value)
      ensures step == old(step) && completed == old(completed)
    {
      formData := SetField(formData, field, value);
    }

    method ToggleFitnessGoal(goal: string)
      requires Valid()
      modifies this
      ensures Valid()
      ensures formData == old(formData).(fitnessGoals := ToggleGoal(old(formData).fitnessGoals, goal))
      ensures step == old(step) && completed == old(completed)
    {
      ToggleGoalNoDup(formData.fitnessGoals, goal);
      formData := formData.(fitnessGoals := ToggleGoal(formData.fitnessGoals, goal));
    }

    /** "Complete": `postSucceeded` stands for the outcome of the POST of
        `formData`; a failed POST is only logged. */
    method HandleSubmit(postSucceeded: bool)
      requires Valid()
      modifies this
      ensures Valid()
      ensures completed == (old(completed) || postSucceeded)
      ensures step == old(step) && formData == old(formData)
    {
      if postSucceeded {
        completed := true;
      }
    }
  }
}
