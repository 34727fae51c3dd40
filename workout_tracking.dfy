/**
 * The live tracking screen of one workout: the session built from the saved
 * workout, set completion, the seconds timer, `formatTime` and the exercise
 * cursor that ends in `onComplete`.
 */
module WorkoutTracking {
  import opened Common
  import Workouts

  datatype SetRecord = SetRecord(setNumber: int, weight: string, reps: string, completed: bool)
  datatype TrackedExercise = TrackedExercise(name: string, sets: seq<SetRecord>)
  datatype TrackedWorkout = TrackedWorkout(id: int, title: string, exercises: seq<TrackedExercise>)

  // ---------------------------------------------------------------------
  // The session

  /** `Array.from({length: n}, (_, i) => ({set: i + 1, ...}))`; a length
      below zero yields no records. */
  function SetsFor(n: int): (r: seq<SetRecord>)
    ensures |r| == if n > 0 then n else 0
    ensures forall i :: 0 <= i < |r| ==> r[i] == SetRecord(i + 1, "", "", false)
  {
    if n <= 0 then [] else seq(n, i requires 0 <= i < n => SetRecord(i + 1, "", "", false))
  }

  function TrackExercise(e: Workouts.Exercise): TrackedExercise {
    TrackedExercise(e.name, SetsFor(e.sets))
  }

  function BuildSession(w: Workouts.Workout): (r: TrackedWorkout)
    ensures r.id == w.id && r.title == w.name && |r.exercises| == |w.exercises|
    ensures forall i :: 0 <= i < |w.exercises| ==> r.exercises[i] == TrackExercise(w.exercises[i])
  {
    TrackedWorkout(w.id, w.name,
      seq(|w.exercises|, i requires 0 <= i < |w.exercises| => TrackExercise(w.exercises[i])))
  }

  /** The lookup of the route id; `None` as the id stands for a `NaN` parse,
      which matches nothing. No session means the screen navigates back. */
  function LookupSession(workouts: seq<Workouts.Workout>, routeId: Option<int>): (r: Option<TrackedWorkout>)
    ensures r.None? <==> routeId.None? || forall w :: w in workouts ==> w.id != routeId.value
    ensures r.Some? ==> exists w :: w in workouts && w.id == routeId.value && r.value == BuildSession(w)
  {
    match routeId
    case None => None
    case Some(id) =>
      match Find(workouts, (w: Workouts.Workout) => w.id == id)
      case None => None
      case Some(w) => Some(BuildSession(w))
  }

  /** The session of a saved exercise with n sets has n records numbered 1..n,
      none completed, with empty weight and reps. */
  lemma SessionSets(w: Workouts.Workout, i: int, k: int)
    requires 0 <= i < |w.exercises|
    requires 0 <= k < w.exercises[i].sets
    ensures var s := BuildSession(w).exercises[i].sets;
      |s| == w.exercises[i].sets && s[k].setNumber == k + 1 && !s[k].completed &&
      s[k].weight == "" && s[k].reps == ""
  {
  }

  /** `exercises[e].sets[s].completed = true`. */
  function CompleteSet(w: TrackedWorkout, e: int, s: int): (r: TrackedWorkout)
    requires 0 <= e < |w.exercises| && 0 <= s < |w.exercises[e].sets|
    ensures r.id == w.id && r.title == w.title && |r.exercises| == |w.exercises|
    ensures |r.exercises[e].sets| == |w.exercises[e].sets|
    ensures r.exercises[e].sets[s].completed
    ensures r.exercises[e].sets[s] == w.exercises[e].sets[s].(completed := true)
    ensures forall j :: 0 <= j < |w.exercises[e].sets| && j != s ==> r.exercises[e].sets[j] == w.exercises[e].sets[j]
    ensures forall i :: 0 <= i < |w.exercises| && i != e ==> r.exercises[i] == w.exercises[i]
  {
    var ex := w.exercises[e];
    var sets := ex.sets[s := ex.sets[s].(completed := true)];
    w.(exercises := w.exercises[e := ex.(sets := sets)])
  }

  /** Marking a set twice is marking it once. */
  lemma CompleteSetIdempotent(w: TrackedWorkout, e: int, s: int)
    requires 0 <= e < |w.exercises| && 0 <= s < |w.exercises[e].sets|
    ensures CompleteSet(CompleteSet(w, e, s), e, s) == CompleteSet(w, e, s)
  {
    var once := CompleteSet(w, e, s);
    var twice := CompleteSet(once, e, s);
    assert twice.exercises[e].sets == once.exercises[e].sets;
    assert twice.exercises == once.exercises;
  }

  // ---------------------------------------------------------------------
  // formatTime

  function DigitChar(d: int): char
    requires 0 <= d < 10
  {
    ('0' as int + d) as char
  }

  /** `n.toString()` for a non-negative integer. */
  function NatToString(n: nat): (r: string)
    ensures |r| >= 1
    ensures n < 10 ==> |r| == 1
    ensures n < 100 ==> |r| <= 2
    decreases n
  {
    if n < 10 then [DigitChar(n)] else NatToString(n / 10) + [DigitChar(n % 10)]
  }

  /** `padStart(2, '0')`. */
  function PadStart2(s: string): (r: string)
    ensures |s| <= 2 ==> |r| == 2
    ensures |s| >= 2 ==> r == s
  {
    if |s| == 0 then "00" else if |s| == 1 then "0" + s else s
  }

  /** The `mm:ss` text; minutes grow past two digits after 100 minutes. */
  function FormatTime(seconds: nat): string {
    PadStart2(NatToString(seconds / 60)) + ":" + PadStart2(NatToString(seconds % 60))
  }

  /** The value of a string of decimal digits. */
  function DecimalValue(s: string): int {
    if s == [] then 0 else DecimalValue(s[..|s| - 1]) * 10 + (s[|s| - 1] as int - '0' as int)
  }

  /** Reads a `formatTime` text back: minutes before the colon, seconds in the
      last two characters. */
  function ParseTime(s: string): int
    requires |s| >= 3
  {
    DecimalValue(s[..|s| - 3]) * 60 + DecimalValue(s[|s| - 2..])
  }

  lemma {:induction false} NatToStringValue(n: nat)
    ensures DecimalValue(NatToString(n)) == n
    decreases n
  {
    if n >= 10 {
      NatToStringValue(n / 10);
      var s := NatToString(n);
      assert s[..|s| - 1] == NatToString(n / 10);
    }
  }

  lemma {:induction false} LeadingZeroValue(s: string)
    ensures DecimalValue("0" + s) == DecimalValue(s)
    decreases |s|
  {
    if s != [] {
      LeadingZeroValue(s[..|s| - 1]);
      assert ("0" + s)[..|"0" + s| - 1] == "0" + s[..|s| - 1];
    }
  }

  lemma PadStart2Value(n: nat)
    requires n < 100
    ensures DecimalValue(PadStart2(NatToString(n))) == n
  {
    NatToStringValue(n);
    var s := NatToString(n);
    if |s| == 1 {
      LeadingZeroValue(s);
    }
  }

  /** `formatTime` can be read back for every non-negative count: minutes ×
      60 + seconds is the count; below 100 minutes the text is `mm:ss`. */
  lemma FormatTimeRoundTrip(seconds: nat)
    ensures |FormatTime(seconds)| >= 5
    ensures FormatTime(seconds)[|FormatTime(seconds)| - 3] == ':'
    ensures ParseTime(FormatTime(seconds)) == seconds
    ensures seconds < 6000 ==> |FormatTime(seconds)| == 5
  {
    var mins := PadStart2(NatToString(seconds / 60));
    var secs := PadStart2(NatToString(seconds % 60));
    var r := FormatTime(seconds);
    assert r == mins + ":" + secs;
    assert |secs| == 2;
    assert r[..|r| - 3] == mins;
    assert r[|r| - 2..] == secs;
    PadStart2Value(seconds % 60);
    NatToStringValue(seconds / 60);
    if |NatToString(seconds / 60)| == 1 {
      LeadingZeroValue(NatToString(seconds / 60));
    }
  }

  lemma FormatTimeExamples()
    ensures FormatTime(0) == "00:00"
    ensures FormatTime(75) == "01:15"
  {
    assert NatToString(15) == NatToString(1) + [DigitChar(5)];
  }

  // ---------------------------------------------------------------------
  // The screen state

  class TrackingSession {
    var workout: Option<TrackedWorkout>
    var currentExercise: int
    var timer: nat
    var isRunning: bool
    var workoutComplete: bool
    var navigatedBack: bool
    /** The `onComplete(id, duration)` calls made, oldest first. */
    var completions: seq<(int, string)>

    /** The cursor stays on an exercise (or at 0 when there is none). */
    ghost predicate Valid()
      reads this
    {
      0 <= currentExercise &&
      (workout.Some? && |workout.value.exercises| > 0 ==> currentExercise < |workout.value.exercises|) &&
      ((workout.None? || |workout.value.exercises| == 0) ==> currentExercise == 0)
    }

    constructor (workouts: seq<Workouts.Workout>, routeId: Option<int>)
      ensures Valid()
      ensures workout == LookupSession(workouts, routeId)
      ensures navigatedBack <==> workout.None?
      ensures currentExercise == 0 && timer == 0 && !isRunning && !workoutComplete && completions == []
    {
      workout := LookupSession(workouts, routeId);
      navigatedBack := LookupSession(workouts, routeId).None?;
      currentExercise := 0;
      timer := 0;
      isRunning := false;
      workoutComplete := false;
      completions := [];
    }

    /** `handleSetComplete(e, s)` on a rendered set; nothing without a
        session. */
    method HandleSetComplete(e: int, s: int)
      requires Valid()
      requires workout.Some? ==> 0 <= e < |workout.value.exercises| && 0 <= s < |workout.value.exercises[e].sets|
      modifies this
      ensures Valid()
      ensures workout == if old(workout).None? then None else Some(CompleteSet(old(workout).value, e, s))
      ensures currentExercise == old(currentExercise) && timer == old(timer) && isRunning == old(isRunning)
      ensures completions == old(completions) && workoutComplete == old(workoutComplete)
    {
      if workout.None? {
        return;
      }
      workout := Some(CompleteSet(workout.value, e, s));
    }

    /** One interval tick: the interval exists only while the timer runs. */
    method Tick()
      requires Valid()
      modifies this
      ensures Valid()
      ensures timer == if old(isRunning) then old(timer) + 1 else old(timer)
      ensures isRunning == old(isRunning) && workout == old(workout) && currentExercise == old(currentExercise)
      ensures completions == old(completions)
    {
      if isRunning {
        timer := timer + 1;
      }
    }

    method ToggleTimer()
      requires Valid()
      modifies this
      ensures Valid()
      ensures isRunning == !old(isRunning) && timer == old(timer)
      ensures workout == old(workout) && currentExercise == old(currentExercise) && completions == old(completions)
    {
      isRunning := !isRunning;
    }

    /** Next moves the cursor on; on the last exercise it reports the
        formatted time and shows the completion screen. */
    method HandleNextExercise()
      requires Valid()
      modifies this
      ensures Valid()
      ensures workout == old(workout) && timer == old(timer)
      ensures old(workout).None? ==>
        (currentExercise == old(currentExercise) && completions == old(completions) &&
         workoutComplete == old(workoutComplete))
      ensures old(workout).Some? && old(currentExercise) < |old(workout).value.exercises| - 1 ==>
        (currentExercise == old(currentExercise) + 1 && completions == old(completions) &&
         workoutComplete == old(workoutComplete))
      ensures old(workout).Some? && old(currentExercise) >= |old(workout).value.exercises| - 1 ==>
        (currentExercise == old(currentExercise) && workoutComplete &&
         completions == old(completions) + [(old(workout).value.id, FormatTime(old(timer)))])
    {
      if workout.None? {
        return;
      }
      if currentExercise < |workout.value.exercises| - 1 {
        currentExercise := currentExercise + 1;
      } else {
        completions := completions + [(workout.value.id, FormatTime(timer))];
        workoutComplete := true;
      }
    }

    method HandlePreviousExercise()
      requires Valid()
      modifies this
      ensures Valid()
      ensures currentExercise == if old(currentExercise) > 0 then old(currentExercise) - 1 else old(currentExercise)
      ensures workout == old(workout) && timer == old(timer) && completions == old(completions)
    {
      if currentExercise > 0 {
        currentExercise := currentExercise - 1;
      }
    }

    /** The Previous button is disabled on the first exercise. */
    predicate PreviousDisabled()
      reads this
    {
      currentExercise == 0
    }

    /** The forward button reads "Finish Workout" on the last exercise. */
    predicate ShowsFinish()
      reads this
    {
      workout.Some? && currentExercise == |workout.value.exercises| - 1
    }
  }

  /** A finished session hands `completeWorkout` a duration that reads back as
      the elapsed seconds. */
  lemma ReportedDurationReadsBack(timer: nat)
    ensures ParseTime(FormatTime(timer)) == timer
  {
    FormatTimeRoundTrip(timer);
  }
}
