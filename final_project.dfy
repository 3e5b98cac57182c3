/** Final_project.py: the weight-free calorie rule, the Workout running total and the
    User history. */
module FinalProject {
  import opened Sums
  import opened ExerciseDatabase

  datatype Exercise = Exercise(name: string, muscleGroup: string, duration: int, cpm: real)
  {
    /** `duration * calories_burned_per_minute`: no weight argument. It is what the
        weighted drafts give at the baseline weight. */
    function CaloriesBurned(): (c: real)
      ensures c == duration as real * AdjustedRate(cpm, BaselineWeight)
      ensures 0 <= duration && 0.0 <= cpm ==> 0.0 <= c
    {
      duration as real * cpm
    }
  }

  function Burned(es: seq<Exercise>): seq<real>
  {
    seq(|es|, i requires 0 <= i < |es| => es[i].CaloriesBurned())
  }

  class Workout {
    var exercises: seq<Exercise>
    var caloriesBurned: real

    /** The running total is the sum of what the listed exercises burn. */
    ghost predicate Valid()
      reads this
    {
      caloriesBurned == Sum(Burned(exercises))
    }

    constructor ()
      ensures Valid()
      ensures exercises == [] && caloriesBurned == 0.0
    {
      exercises, caloriesBurned := [], 0.0;
    }

    /** `add_exercise(exercise)`: append, then add what it burns. */
    method AddExercise(e: Exercise)
      requires Valid()
      modifies this
      ensures Valid()
      ensures exercises == old(exercises) + [e]
      ensures caloriesBurned == old(caloriesBurned) + e.CaloriesBurned()
    {
      assert Burned(exercises + [e]) == Burned(exercises) + [e.CaloriesBurned()];
      SumAppend(Burned(exercises), e.CaloriesBurned());
      exercises := exercises + [e];
      caloriesBurned := caloriesBurned + e.CaloriesBurned();
    }
  }

  class User {
    var name: string
    var workouts: seq<Workout>
    var calories: real
    /** Each workout's `calories_burned` at the moment it was added. */
    ghost var credited: seq<real>

    ghost predicate Valid()
      reads this
    {
      |credited| == |workouts| && calories == Sum(credited)
    }

    /** `User(name, calories)`: the `calories` argument is required and then ignored. */
    constructor (name: string, calories: real)
      ensures Valid()
      ensures this.name == name && workouts == [] && credited == [] && this.calories == 0.0
    {
      this.name := name;
      workouts, this.calories := [], 0.0;
      credited := [];
    }

    /** `add_workout(workout)`: append, then add the workout's current total. */
    method AddWorkout(wk: Workout)
      requires Valid()
      modifies this
      ensures Valid()
      ensures workouts == old(workouts) + [wk] && credited == old(credited) + [wk.caloriesBurned]
      ensures calories == old(calories) + wk.caloriesBurned
      ensures name == old(name)
    {
      SumAppend(credited, wk.caloriesBurned);
      workouts := workouts + [wk];
      calories := calories + wk.caloriesBurned;
      credited := credited + [wk.caloriesBurned];
    }
  }
}
