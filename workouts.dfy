/**
 * The workouts page: the list of saved workouts with its per-id toggles,
 * delete and completion, and the "add workout" form with its exercise rows.
 */
module Workouts {
  import opened Common

  datatype Exercise = Exercise(name: string, sets: int, reps: int)

  datatype Workout = Workout(
    id: int,
    name: string,
    duration: string,
    calories: string,
    lastCompleted: Option<string>,
    exercises: seq<Exercise>,
    expanded: bool,
    favorite: bool)

  /** A row of the form: every field is the text of its input. */
  datatype ExerciseRow = ExerciseRow(name: string, sets: string, reps: string)

  datatype WorkoutForm = WorkoutForm(name: string, duration: string, calories: string, exercises: seq<ExerciseRow>)

  /** The `name` attribute of the input that changed. */
  datatype FormField = NameField | DurationField | CaloriesField
  datatype RowField = RowName | RowSets | RowReps

  const BlankRow: ExerciseRow := ExerciseRow("", "", "")
  const BlankForm: WorkoutForm := WorkoutForm("", "", "", [BlankRow])

  const InitialWorkouts: seq<Workout> := [
    Workout(1, "Full Body Circuit", "45 mins", "320", Some("2023-06-15"),
      [Exercise("Squats", 3, 12), Exercise("Push-ups", 3, 15), Exercise("Lunges", 3, 10)], false, true),
    Workout(2, "HIIT Blast", "30 mins", "400", Some("2023-06-10"),
      [Exercise("Burpees", 4, 10), Exercise("Jump Squats", 3, 15), Exercise("Mountain Climbers", 3, 20)], false, false)
  ]

  predicate DistinctIds(ws: seq<Workout>) {
    forall i, j :: 0 <= i < j < |ws| ==> ws[i].id != ws[j].id
  }

  predicate SameIds(a: seq<Workout>, b: seq<Workout>) {
    |a| == |b| && forall i :: 0 <= i < |a| ==> a[i].id == b[i].id
  }

  // ---------------------------------------------------------------------
  // List operations

  /** `workouts.map(w => w.id === id ? {...w, expanded: !w.expanded} : w)`. */
  function ToggleExpand(ws: seq<Workout>, id: int): (r: seq<Workout>)
    ensures SameIds(r, ws)
    ensures forall i :: 0 <= i < |ws| ==>
      r[i] == if ws[i].id == id then ws[i].(expanded := !ws[i].expanded) else ws[i]
  {
    seq(|ws|, i requires 0 <= i < |ws| =>
      if ws[i].id == id then ws[i].(expanded := !ws[i].expanded) else ws[i])
  }

  /** The same for `favorite`. */
  function ToggleFavorite(ws: seq<Workout>, id: int): (r: seq<Workout>)
    ensures SameIds(r, ws)
    ensures forall i :: 0 <= i < |ws| ==>
      r[i] == if ws[i].id == id then ws[i].(favorite := !ws[i].favorite) else ws[i]
  {
    seq(|ws|, i requires 0 <= i < |ws| =>
      if ws[i].id == id then ws[i].(favorite := !ws[i].favorite) else ws[i])
  }

  /** Toggling twice restores the list. */
  lemma TogglesAreInvolutions(ws: seq<Workout>, id: int)
    ensures ToggleExpand(ToggleExpand(ws, id), id) == ws
    ensures ToggleFavorite(ToggleFavorite(ws, id), id) == ws
  {
    assert ToggleExpand(ToggleExpand(ws, id), id) == ws by {
      var r := ToggleExpand(ToggleExpand(ws, id), id);
      assert forall i :: 0 <= i < |ws| ==> r[i] == ws[i];
    }
    assert ToggleFavorite(ToggleFavorite(ws, id), id) == ws by {
      var r := ToggleFavorite(ToggleFavorite(ws, id), id);
      assert forall i :: 0 <= i < |ws| ==> r[i] == ws[i];
    }
  }

  /** The largest id of a non-empty list. */
  function MaxId(ws: seq<Workout>): (m: int)
    requires |ws| > 0
    ensures forall w :: w in ws ==> w.id <= m
    ensures exists w :: w in ws && w.id == m
  {
    if |ws| == 1 then ws[0].id
    else
      var rest := MaxId(ws[1..]);
      assert forall w :: w in ws ==> w == ws[0] || w in ws[1..];
      if ws[0].id >= rest then ws[0].id else rest
  }

  /** `workouts.length > 0 ? Math.max(...ids) + 1 : 1`. */
  function NextId(ws: seq<Workout>): (r: int)
    ensures forall w :: w in ws ==> w.id < r
  {
    if |ws| > 0 then MaxId(ws) + 1 else 1
  }

  /** The workout `handleSubmit` builds; `toNumber` stands for `Number`. */
  function WorkoutFromForm(form: WorkoutForm, id: int, toNumber: string -> int): (w: Workout)
    ensures w.id == id && w.name == form.name && w.duration == form.duration && w.calories == form.calories
    ensures w.lastCompleted.None? && !w.expanded && !w.favorite
    ensures |w.exercises| == |form.exercises|
    ensures forall i :: 0 <= i < |form.exercises| ==>
      w.exercises[i] == Exercise(form.exercises[i].name, toNumber(form.exercises[i].sets), toNumber(form.exercises[i].reps))
  {
    Workout(id, form.name, form.duration, form.calories, None,
      seq(|form.exercises|, i requires 0 <= i < |form.exercises| =>
        Exercise(form.exercises[i].name, toNumber(form.exercises[i].sets), toNumber(form.exercises[i].reps))),
      false, false)
  }

  function AddWorkout(ws: seq<Workout>, form: WorkoutForm, toNumber: string -> int): seq<Workout> {
    ws + [WorkoutFromForm(form, NextId(ws), toNumber)]
  }

  /** Submit appends exactly one workout, whose id is new, so distinct ids
      stay distinct. */
  lemma AddWorkoutSpec(ws: seq<Workout>, form: WorkoutForm, toNumber: string -> int)
    ensures var r := AddWorkout(ws, form, toNumber);
      |r| == |ws| + 1 && r[..|ws|] == ws &&
      (forall w :: w in ws ==> w.id != r[|ws|].id) &&
      (DistinctIds(ws) ==> DistinctIds(r))
  {
    var r := AddWorkout(ws, form, toNumber);
    assert r[..|ws|] == ws;
    forall i | 0 <= i < |ws| ensures r[i].id != r[|ws|].id {
      assert r[i] == ws[i] && ws[i] in ws;
    }
  }

  /** `workouts.filter(w => w.id !== id)`. */
  function DeleteWorkout(ws: seq<Workout>, id: int): seq<Workout> {
    Filter(ws, (w: Workout) => w.id != id)
  }

  /** Delete drops every workout with that id and keeps the rest in order. */
  lemma DeleteWorkoutSpec(ws: seq<Workout>, id: int)
    ensures var r := DeleteWorkout(ws, id);
      IsSubsequence(r, ws) &&
      (forall w :: w in r <==> w in ws && w.id != id) &&
      (DistinctIds(ws) ==> DistinctIds(r))
  {
    var p := (w: Workout) => w.id != id;
    FilterIsSubsequence(ws, p);
    if DistinctIds(ws) {
      SubsequenceKeepsDistinct(DeleteWorkout(ws, id), ws);
    }
  }

  lemma {:induction false} SubsequenceKeepsDistinct(a: seq<Workout>, b: seq<Workout>)
    requires IsSubsequence(a, b)
    requires DistinctIds(b)
    ensures DistinctIds(a)
    decreases |b|
  {
    if a != [] {
      assert DistinctIds(b[1..]) by {
        forall i, j | 0 <= i < j < |b[1..]| ensures b[1..][i].id != b[1..][j].id {
          assert b[1..][i] == b[i + 1] && b[1..][j] == b[j + 1];
        }
      }
      if a[0] == b[0] {
        SubsequenceKeepsDistinct(a[1..], b[1..]);
        SubsequenceMembers(a[1..], b[1..]);
        forall j | 1 <= j < |a| ensures a[0].id != a[j].id {
          assert a[j] == a[1..][j - 1];
          assert a[j] in b[1..];
          var k :| 0 <= k < |b[1..]| && b[1..][k] == a[j];
          assert b[k + 1] == a[j];
        }
      } else {
        SubsequenceKeepsDistinct(a, b[1..]);
      }
    }
  }

  /** `completeWorkout(id, duration)`; `today` stands for the date part of the
      current timestamp. */
  function CompleteWorkout(ws: seq<Workout>, id: int, duration: string, today: string): (r: seq<Workout>)
    ensures SameIds(r, ws)
    ensures forall i :: 0 <= i < |ws| ==>
      r[i] == if ws[i].id == id then ws[i].(lastCompleted := Some(today), duration := duration) else ws[i]
  {
    seq(|ws|, i requires 0 <= i < |ws| =>
      if ws[i].id == id then ws[i].(lastCompleted := Some(today), duration := duration) else ws[i])
  }

  /** The same ids in the same order keep distinct ids distinct. */
  lemma SameIdsKeepDistinct(a: seq<Workout>, b: seq<Workout>)
    requires SameIds(a, b) && DistinctIds(b)
    ensures DistinctIds(a)
  {
  }

  // ---------------------------------------------------------------------
  // Form operations

  function SetFormField(form: WorkoutForm, field: FormField, value: string): (r: WorkoutForm)
    ensures r.exercises == form.exercises
    ensures r.name == (if field == NameField then value else form.name)
    ensures r.duration == (if field == DurationField then value else form.duration)
    ensures r.calories == (if field == CaloriesField then value else form.calories)
  {
    match field
    case NameField => form.(name := value)
    case DurationField => form.(duration := value)
    case CaloriesField => form.(calories := value)
  }

  function SetRowField(row: ExerciseRow, field: RowField, value: string): ExerciseRow {
    match field
    case RowName => row.(name := value)
    case RowSets => row.(sets := value)
    case RowReps => row.(reps := value)
  }

  /** `removeExerciseField(i)`: `filter((_, j) => j !== i)`. */
  function RemoveRow(rows: seq<ExerciseRow>, index: int): (r: seq<ExerciseRow>)
    ensures 0 <= index < |rows| ==> |r| == |rows| - 1
    ensures !(0 <= index < |rows|) ==> r == rows
  {
    if 0 <= index < |rows| then rows[..index] + rows[index + 1..] else rows
  }

  /** Removing row i keeps every other row, in order. */
  lemma RemoveRowSpec(rows: seq<ExerciseRow>, index: int)
    requires 0 <= index < |rows|
    ensures var r := RemoveRow(rows, index);
      (forall j :: 0 <= j < index ==> r[j] == rows[j]) &&
      (forall j :: index < j < |rows| ==> r[j - 1] == rows[j])
  {
  }

  /** The Remove button is shown only with two rows or more. */
  predicate RemoveShown(form: WorkoutForm) {
    |form.exercises| > 1
  }

  // ---------------------------------------------------------------------
  // The page state

  class WorkoutPageState {
    var workouts: seq<Workout>
    var newWorkout: WorkoutForm
    var showAddForm: bool

    /** Ids are distinct and the form always has a row. */
    ghost predicate Valid()
      reads this
    {
      DistinctIds(workouts) && |newWorkout.exercises| >= 1
    }

    constructor ()
      ensures Valid()
      ensures workouts == InitialWorkouts && newWorkout == BlankForm && !showAddForm
    {
      workouts := InitialWorkouts;
      newWorkout := BlankForm;
      showAddForm := false;
    }

    /** "Add Workout": the form opens with whatever it last held. */
    method ShowAddForm()
      requires Valid()
      modifies this
      ensures Valid()
      ensures showAddForm && workouts == old(workouts) && newWorkout == old(newWorkout)
    {
      showAddForm := true;
    }

    /** The close icon and "Cancel": the form hides without being reset, so
        reopening it shows the same entries. */
    method CancelAddForm()
      requires Valid() && showAddForm
      modifies this
      ensures Valid()
      ensures !showAddForm && workouts == old(workouts) && newWorkout == old(newWorkout)
    {
      showAddForm := false;
    }

    method HandleToggleExpand(id: int)
      requires Valid()
      modifies this
      ensures Valid()
      ensures workouts == ToggleExpand(old(workouts), id)
      ensures newWorkout == old(newWorkout) && showAddForm == old(showAddForm)
    {
      workouts := ToggleExpand(workouts, id);
    }

    method HandleToggleFavorite(id: int)
      requires Valid()
      modifies this
      ensures Valid()
      ensures workouts == ToggleFavorite(old(workouts), id)
      ensures newWorkout == old(newWorkout) && showAddForm == old(showAddForm)
    {
      workouts := ToggleFavorite(workouts, id);
    }

    method HandleInputChange(field: FormField, value: string)
      requires Valid() && showAddForm
      modifies this
      ensures Valid()
      ensures newWorkout == SetFormField(old(newWorkout), field, value)
      ensures workouts == old(workouts) && showAddForm == old(showAddForm)
    {
      newWorkout := SetFormField(newWorkout, field, value);
    }

    /** Edits one field of the row at `index` (a rendered row). */
    method HandleExerciseChange(index: int, field: RowField, value: string)
      requires Valid() && showAddForm
      requires 0 <= index < |newWorkout.exercises|
      modifies this
      ensures Valid()
      ensures newWorkout == old(newWorkout).(exercises :=
        old(newWorkout).exercises[index := SetRowField(old(newWorkout).exercises[index], field, value)])
      ensures workouts == old(workouts) && showAddForm == old(showAddForm)
    {
      var rows := newWorkout.exercises;
      newWorkout := newWorkout.(exercises := rows[index := SetRowField(rows[index], field, value)]);
    }

    method AddExerciseField()
      requires Valid() && showAddForm
      modifies this
      ensures Valid()
      ensures newWorkout == old(newWorkout).(exercises := old(newWorkout).exercises + [BlankRow])
      ensures workouts == old(workouts) && showAddForm
    {
      newWorkout := newWorkout.(exercises := newWorkout.exercises + [BlankRow]);
    }

    /** The Remove button of row `index`, which exists only with two rows or
        more; the form therefore never loses its last row. */
    method RemoveExerciseField(index: int)
      requires Valid() && showAddForm
      requires RemoveShown(newWorkout) && 0 <= index < |newWorkout.exercises|
      modifies this
      ensures Valid()
      ensures newWorkout == old(newWorkout).(exercises := RemoveRow(old(newWorkout).exercises, index))
      ensures workouts == old(workouts) && showAddForm == old(showAddForm)
    {
      newWorkout := newWorkout.(exercises := RemoveRow(newWorkout.exercises, index));
    }

    /** `handleSubmit`: appends the new workout, resets the form and hides it. */
    method HandleSubmit(toNumber: string -> int)
      requires Valid() && showAddForm
      modifies this
      ensures Valid()
      ensures workouts == AddWorkout(old(workouts), old(newWorkout), toNumber)
      ensures newWorkout == BlankForm && !showAddForm
    {
      AddWorkoutSpec(workouts, newWorkout, toNumber);
      workouts := AddWorkout(workouts, newWorkout, toNumber);
      newWorkout := BlankForm;
      showAddForm := false;
    }

    method HandleDelete(id: int)
      requires Valid()
      modifies this
      ensures Valid()
      ensures workouts == DeleteWorkout(old(workouts), id)
      ensures newWorkout == old(newWorkout) && showAddForm == old(showAddForm)
    {
      DeleteWorkoutSpec(workouts, id);
      workouts := DeleteWorkout(workouts, id);
    }

    method HandleComplete(id: int, duration: string, today: string)
      requires Valid()
      modifies this
      ensures Valid()
      ensures workouts == CompleteWorkout(old(workouts), id, duration, today)
      ensures newWorkout == old(newWorkout) && showAddForm == old(showAddForm)
    {
      workouts := CompleteWorkout(workouts, id, duration, today);
    }
  }
}
