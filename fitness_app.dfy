/** fitness_app.py: weighted calorie rule, Workout and User running totals, and the
    catalog search of `log_workout`. */
module FitnessApp {
  import opened Options
  import opened Sums
  import opened ExerciseDatabase

  /** One performed exercise; the program never changes one after building it. */
  datatype Exercise = Exercise(name: string, muscleGroup: string, duration: int, cpm: real)
  {
    /** `duration * calories_burned_per_minute * (weight / 70)`. */
    function CaloriesBurned(weight: real): (c: real)
      ensures weight == BaselineWeight ==> c == duration as real * cpm
      ensures c == duration as real * AdjustedRate(cpm, weight)
    {
      duration as real * cpm * (weight / BaselineWeight)
    }
  }

  /** What each `add_exercise(e_i, w_i)` call contributed, in call order. */
  function Burned(es: seq<Exercise>, ws: seq<real>): seq<real>
    requires |es| == |ws|
  {
    seq(|es|, i requires 0 <= i < |es| => es[i].CaloriesBurned(ws[i]))
  }

  class Workout {
    var exercises: seq<Exercise>
    var caloriesBurned: real
    /** The weight passed with each exercise; the source does not keep it. */
    ghost var weights: seq<real>

    /** The running total is the sum of what every added exercise burned at its weight. */
    ghost predicate Valid()
      reads this
    {
      |weights| == |exercises| && caloriesBurned == Sum(Burned(exercises, weights))
    }

    constructor ()
      ensures Valid()
      ensures exercises == [] && weights == [] && caloriesBurned == 0.0
    {
      exercises, caloriesBurned := [], 0.0;
      weights := [];
    }

    /** `add_exercise(exercise, weight)`: append, then add that exercise's calories. */
    method AddExercise(e: Exercise, weight: real)
      requires Valid()
      modifies this
      ensures Valid()
      ensures exercises == old(exercises) + [e] && weights == old(weights) + [weight]
      ensures caloriesBurned == old(caloriesBurned) + e.CaloriesBurned(weight)
    {
      assert Burned(exercises + [e], weights + [weight]) == Burned(exercises, weights) + [e.CaloriesBurned(weight)];
      SumAppend(Burned(exercises, weights), e.CaloriesBurned(weight));
      exercises := exercises + [e];
      caloriesBurned := caloriesBurned + e.CaloriesBurned(weight);
      weights := weights + [weight];
    }
  }

  class User {
    var name: string
    var weight: real
    var workouts: seq<Workout>
    var calories: real
    /** Each workout's `calories_burned` at the moment it was added. */
    ghost var credited: seq<real>

    /** The user's total is the sum of the totals credited, one per workout. */
    ghost predicate Valid()
      reads this
    {
      |credited| == |workouts| && calories == Sum(credited)
    }

    /** `User(name, weight, calories=0)`: the `calories` argument is ignored. */
    constructor (name: string, weight: real, calories: real := 0.0)
      ensures Valid()
      ensures this.name == name && this.weight == weight
      ensures workouts == [] && credited == [] && this.calories == 0.0
    {
      this.name, this.weight := name, weight;
      workouts, this.calories := [], 0.0;
      credited := [];
    }

    /** `add_workout(workout)`: append, then add the workout's current total. */
    method AddWorkout(wk: Workout)
      requires Valid()
      modifies this
      ensures Valid()
      ensures workouts == old(workouts) + [wk] && credited == old(credited) + [wk.caloriesBurned]
      ensures calories == old(calories) + wk.caloriesBurned
      ensures name == old(name) && weight == old(weight)
    {
      SumAppend(credited, wk.caloriesBurned);
      workouts := workouts + [wk];
      calories := calories + wk.caloriesBurned;
      credited := credited + [wk.caloriesBurned];
    }
  }

  // ---------------------------------------------------------------------------
  // The search of log_workout for one entered exercise name.
  //
  // `replies(k)` is the answer to the k-th duration prompt of this search:
  // `Some(d)` when `int(...)` parses it, `None` when it raises ValueError.

  /** Where the search stopped: at the entry it built an Exercise from, with the
      duration entered, or after the last group; and how many prompts it made. */
  datatype SearchOutcome =
    | Found(group: nat, index: nat, duration: int, prompts: nat)
    | NotFound(prompts: nat)

  /** The nested `for` loops from group `g`, entry `i`, after `k` prompts. An
      invalid duration ends only the inner loop: the search goes on with the
      next group. */
  function Scan(cat: Catalog, name: string, replies: nat -> Option<int>, g: nat, i: nat, k: nat): (r: SearchOutcome)
    requires g <= |cat|
    ensures r.Found? ==> g <= r.group < |cat| && r.index < |cat[r.group].entries|
    ensures r.Found? ==> Matches(cat[r.group].entries[r.index], name)
    ensures r.Found? ==> k < r.prompts && replies(r.prompts - 1) == Some(r.duration)
    ensures r.NotFound? ==> k <= r.prompts
    ensures forall j :: k <= j < r.prompts - (if r.Found? then 1 else 0) ==> replies(j).None?
    decreases |cat| - g, if g < |cat| then |cat[g].entries| - i else 0
  {
    if g == |cat| then NotFound(k)
    else if i >= |cat[g].entries| then Scan(cat, name, replies, g + 1, 0, k)
    else if !Matches(cat[g].entries[i], name) then Scan(cat, name, replies, g, i + 1, k)
    else match replies(k)
      case None => Scan(cat, name, replies, g + 1, 0, k + 1)
      case Some(d) => Found(g, i, d, k + 1)
  }

  /** The search from the first entry of the first group, before any prompt. */
  function Search(cat: Catalog, name: string, replies: nat -> Option<int>): (r: SearchOutcome)
    ensures r.Found? ==> r.group < |cat| && r.index < |cat[r.group].entries|
    ensures r.Found? ==> Matches(cat[r.group].entries[r.index], name)
    ensures r.Found? ==> 0 < r.prompts && replies(r.prompts - 1) == Some(r.duration)
    ensures forall j :: 0 <= j < r.prompts - (if r.Found? then 1 else 0) ==> replies(j).None?
  {
    Scan(cat, name, replies, 0, 0, 0)
  }

  /** No entry before position (g, i), in group-then-entry order, matches `name`. */
  ghost predicate NoMatchBefore(cat: Catalog, name: string, g: nat, i: nat)
  {
    forall g', i' :: 0 <= g' < |cat| && 0 <= i' < |cat[g'].entries| && (g' < g || (g' == g && i' < i))
      ==> !Matches(cat[g'].entries[i'], name)
  }

  /** No entry of the catalog matches `name`. */
  ghost predicate NoMatch(cat: Catalog, name: string)
  {
    forall g', i' :: 0 <= g' < |cat| && 0 <= i' < |cat[g'].entries| ==> !Matches(cat[g'].entries[i'], name)
  }

  /** Entry (g, i) matches and is the first that does. */
  ghost predicate IsFirstMatch(cat: Catalog, name: string, g: nat, i: nat)
  {
    g < |cat| && i < |cat[g].entries| && Matches(cat[g].entries[i], name) && NoMatchBefore(cat, name, g, i)
  }

  lemma {:induction false} ScanFromNoMatch(cat: Catalog, name: string, replies: nat -> Option<int>, g: nat, i: nat, k: nat)
    requires g <= |cat| && NoMatchBefore(cat, name, g, i) && replies(k).Some?
    ensures var r := Scan(cat, name, replies, g, i, k);
      match r
      case Found(gf, ix, d, p) => IsFirstMatch(cat, name, gf, ix) && d == replies(k).value && p == k + 1
      case NotFound(p) => p == k && NoMatch(cat, name)
    decreases |cat| - g, if g < |cat| then |cat[g].entries| - i else 0
  {
    if g == |cat| {
    } else if i >= |cat[g].entries| {
      ScanFromNoMatch(cat, name, replies, g + 1, 0, k);
    } else if !Matches(cat[g].entries[i], name) {
      ScanFromNoMatch(cat, name, replies, g, i + 1, k);
    }
  }

  /** When the first duration typed is an integer (of any sign), the search stops
      at the first matching entry in catalog order, after one prompt; it finds
      nothing exactly when no entry matches, and then it prompts for nothing. */
  lemma SearchFindsFirstMatch(cat: Catalog, name: string, replies: nat -> Option<int>)
    requires replies(0).Some?
    ensures Search(cat, name, replies).Found? ==>
      var r := Search(cat, name, replies);
      IsFirstMatch(cat, name, r.group, r.index) && r.duration == replies(0).value && r.prompts == 1
    ensures Search(cat, name, replies).NotFound? <==> NoMatch(cat, name)
  {
    ScanFromNoMatch(cat, name, replies, 0, 0, 0);
  }

  lemma {:induction false} ScanNoMatch(cat: Catalog, name: string, replies: nat -> Option<int>, g: nat, i: nat, k: nat)
    requires g <= |cat| && NoMatch(cat, name)
    ensures Scan(cat, name, replies, g, i, k) == NotFound(k)
    decreases |cat| - g, if g < |cat| then |cat[g].entries| - i else 0
  {
    if g == |cat| {
    } else if i >= |cat[g].entries| {
      ScanNoMatch(cat, name, replies, g + 1, 0, k);
    } else {
      ScanNoMatch(cat, name, replies, g, i + 1, k);
    }
  }

  /** A name that no entry matches asks for no duration and finds nothing. */
  lemma SearchUnknownName(cat: Catalog, name: string, replies: nat -> Option<int>)
    requires NoMatch(cat, name)
    ensures Search(cat, name, replies) == NotFound(0)
  {
    ScanNoMatch(cat, name, replies, 0, 0, 0);
  }

  /** If no duration typed parses as an integer, nothing is found, whatever matches. */
  lemma SearchAllInvalid(cat: Catalog, name: string, replies: nat -> Option<int>)
    requires forall j: nat :: replies(j).None?
    ensures Search(cat, name, replies).NotFound?
  {
  }

  /** A non-integer reply ends only the current group: with a match in each of two
      groups and a first reply that does not parse, the search prompts again at the
      second group's match and builds the Exercise from that one. */
  lemma SearchRetriesInNextGroup(replies: nat -> Option<int>)
    requires replies(0).None? && replies(1) == Some(30)
    ensures var cat := [Group("legs", [Entry("Squats", 10, 8.0)]), Group("Legs", [Entry("squats", 20, 6.0)])];
      Search(cat, "SQUATS", replies) == Found(1, 0, 30, 2)
  {
    var cat := [Group("legs", [Entry("Squats", 10, 8.0)]), Group("Legs", [Entry("squats", 20, 6.0)])];
    assert Lower("Squats") == "squats" && Lower("squats") == "squats" && Lower("SQUATS") == "squats";
    assert Scan(cat, "SQUATS", replies, 0, 0, 0) == Scan(cat, "SQUATS", replies, 1, 0, 1);
  }

  /** The Exercise the logger builds from entry i of group g and an entered duration. */
  function FromEntry(cat: Catalog, g: nat, i: nat, duration: int): (e: Exercise)
    requires g < |cat| && i < |cat[g].entries|
    ensures e.name == cat[g].entries[i].name && e.muscleGroup == cat[g].muscleGroup
    ensures e.cpm == cat[g].entries[i].cpm && e.duration == duration
  {
    Exercise(cat[g].entries[i].name, cat[g].muscleGroup, duration, cat[g].entries[i].cpm)
  }

  /** What a logged exercise burns is its duration times the rate the suggester
      lists for the same entry and weight. */
  lemma LoggedAgreesWithSuggested(cat: Catalog, g: nat, i: nat, duration: int, weight: real)
    requires UniqueGroups(cat) && g < |cat| && i < |cat[g].entries|
    ensures Suggest(cat, cat[g].muscleGroup, weight).Listed?
    ensures var items := Suggest(cat, cat[g].muscleGroup, weight).items;
      i < |items| &&
      FromEntry(cat, g, i, duration).CaloriesBurned(weight) == duration as real * items[i].rate
  {
    GroupIndexOfKey(cat, g);
  }

  /** The nested loop with its `found` flag and its `break`s. */
  method SearchCatalog(cat: Catalog, name: string, replies: nat -> Option<int>) returns (r: SearchOutcome)
    ensures r == Search(cat, name, replies)
  {
    var found := false;
    var k: nat := 0;
    var g := 0;
    r := NotFound(0);
    while g < |cat|
      invariant 0 <= g <= |cat|
      invariant Search(cat, name, replies) == Scan(cat, name, replies, g, 0, k)
    {
      var entries := cat[g].entries;
      var i := 0;
      while i < |entries|
        invariant 0 <= i <= |entries|
        invariant Search(cat, name, replies) == Scan(cat, name, replies, g, i, k)
      {
        if Lower(entries[i].name) == Lower(name) {
          var reply := replies(k);
          k := k + 1;
          if reply.None? {
            // ValueError: print a message and leave this group's loop
            break;
          }
          r := Found(g, i, reply.value, k);
          found := true;
          break;
        }
        i := i + 1;
      }
      if found {
        break;
      }
      g := g + 1;
    }
    if !found {
      r := NotFound(k);
    }
  }

  /** One pass of `log_workout`'s outer loop for an entered name: search, and on
      success append the built Exercise at the user's weight. */
  method LogExercise(workout: Workout, cat: Catalog, name: string, weight: real, replies: nat -> Option<int>)
    returns (found: bool)
    requires workout.Valid()
    modifies workout
    ensures workout.Valid()
    ensures found == Search(cat, name, replies).Found?
    ensures match Search(cat, name, replies)
      case Found(g, i, d, _) =>
        workout.exercises == old(workout.exercises) + [FromEntry(cat, g, i, d)] &&
        workout.caloriesBurned == old(workout.caloriesBurned) + FromEntry(cat, g, i, d).CaloriesBurned(weight)
      case NotFound(_) =>
        workout.exercises == old(workout.exercises) && workout.weights == old(workout.weights) &&
        workout.caloriesBurned == old(workout.caloriesBurned)
  {
    var r := SearchCatalog(cat, name, replies);
    found := r.Found?;
    if found {
      workout.AddExercise(FromEntry(cat, r.group, r.index, r.duration), weight);
    }
  }

  /** A client of the classes: ten minutes at 5.0 per minute logged at 70 kg burn
      50 calories, and the user is credited with them. */
  method ExampleSession()
  {
    var user := new User("John", 70.0);
    var workout := new Workout();
    workout.AddExercise(Exercise("Push-ups", "Upper Body", 10, 5.0), user.weight);
    assert workout.caloriesBurned == 50.0;
    user.AddWorkout(workout);
    assert user.calories == 50.0 && user.workouts == [workout];
  }
}
