# Fitness tracker drafts: calorie accounting, in Dafny

The repository holds three drafts of a console fitness tracker. Each defines
`Exercise`, `Workout` and `User` classes around menus and prompts. This project
models the logic under the prompts:

- the calorie rule `duration * calories_per_minute * (weight / 70)` of
  `fitness_app.py` and `Check_In_2.py`, and the weight-free
  `duration * calories_per_minute` of `Final_project.py`;
- the running totals `Workout.add_exercise` and `User.add_workout` keep beside
  the lists they append to, one class per draft, each with that draft's shape;
- the exercise catalog (`exercise_database.json`): an ordered sequence of
  muscle groups, each with its ordered list of records, as a Python dict
  iterates in insertion order;
- `workout_suggester`: the exact-key lookup of one group and the rate scaled by
  `weight / 70` for each of its entries, in catalog order;
- the catalog search in `log_workout` of `fitness_app.py`: the first entry, groups
  then entries, whose name equals the entered one ignoring case;
- the weight-string test and retry loop of `get_valid_weight` in `Check_In_2.py`.

Quantities are exact `real`s. Exercises are never changed after they are built,
so they are datatypes; workouts and users are classes whose methods update their
fields. Each class has a `Valid()` invariant tying its running total to its list:
`Workout.calories_burned` is the sum of what each added exercise burned at the
weight it was added with, and `User.calories` is the sum of each workout's total
*at the moment it was added*. A user holds references to its workouts, so a
workout changed later does not change the user's total. Ghost fields (`weights`,
`credited`) record these values, which the program itself does not keep.

Modules: `Options`, `Sums` (sums and the append lemma), `ExerciseDatabase` (the
catalog, the weighted rate, case folding, lookup and the suggester, shared
because `fitness_app.py:98-106` and `Check_In_2.py:96-104` are the same code),
and one module per draft: `FitnessApp`, `CheckIn2`, `FinalProject`.

The duration prompts inside the search are a parameter. `replies(k)` is the
answer to the k-th prompt: `Some(d)` when `int()` parses it, `None` when it
raises `ValueError`. On `ValueError` the code leaves only the inner loop over
the current group's entries. The search then goes on with the next group, and
may prompt again if a later group has an entry of the same name. If the search
ends without adding anything, "not found" is printed, even when the name did
match. `Scan` states this, and `SearchRetriesInNextGroup` shows it on a two-group catalog; `SearchFindsFirstMatch` covers the case where the
first reply is an integer. Any integer is accepted, including zero and
negative ones.

Descriptions of this program elsewhere mention intensity and heart-rate factors,
goals, equipment filtering, ranked suggestions and validation when an exercise is
built. None of these is in the three files modelled here. The model follows the
code.

## Model

| member | source | states |
|---|---|---|
| `ExerciseDatabase.AdjustedRate` | fitness_app.py:105 | the suggester's rate `cpm * (weight / 70)` is the catalog rate at 70 kg, is non-negative for non-negative inputs, and times 70 equals cpm times weight |
| `ExerciseDatabase.MatchesIgnoresCase` | fitness_app.py:139 | the name test compares lower-cased names, so lower-casing the entered name first changes nothing |
| `ExerciseDatabase.Lower` | fitness_app.py:139 | definition of `str.lower()` on ASCII: each capital letter replaced by its small letter, every other character kept |
| `ExerciseDatabase.Matches` | fitness_app.py:139 | definition of the name test `e['name'].lower() == exercise_name.lower()` |
| `ExerciseDatabase.GroupIndexFrom` | fitness_app.py:98 | `data.get`: the result is a group whose key is exactly the one asked for, no earlier group has that key, and nothing is found exactly when no group has it |
| `ExerciseDatabase.GroupIndex` | fitness_app.py:98 | `data.get(muscle_group)` over the whole catalog: a found group has exactly that key, and nothing is found exactly when no group has it |
| `ExerciseDatabase.GroupIndexOfKey` | fitness_app.py:98 | in a catalog with distinct keys, looking up a group's key finds that group |
| `ExerciseDatabase.Adjust` | fitness_app.py:104-106 | one suggestion per entry, in the same order, with the entry's name and duration and its weight-adjusted rate |
| `ExerciseDatabase.Suggest` | fitness_app.py:98-101 | a listed suggestion is never empty: a missing or empty group gives the "No exercises found" outcome instead |
| `ExerciseDatabase.SuggestGroup` | fitness_app.py:98-106 | for a catalog group: empty list iff "No exercises found"; otherwise exactly one suggestion per entry, in catalog order, none filtered or reordered, each rate times 70 equal to cpm times weight |
| `ExerciseDatabase.SuggestMissingGroup` | Check_In_2.py:96-99 | an unknown muscle group lists nothing (the same code as fitness_app.py:98-101) |
| `ExerciseDatabase.SuggestAtBaseline` | Check_In_2.py:100-104 | at 70 kg every listed rate is the catalog's own rate, entry by entry (the same code as fitness_app.py:102-106) |
| `FitnessApp.Exercise.CaloriesBurned` | fitness_app.py:62-67 | at 70 kg the result is duration times cpm; in general it is the duration times the suggester's adjusted rate |
| `FitnessApp.Workout.constructor` | fitness_app.py:43-45 | a new workout has no exercises and a total of 0 |
| `FitnessApp.Workout.AddExercise` | fitness_app.py:47-52 | the exercise is appended at the end, earlier ones unchanged; the total rises by what it burns at the given weight; the total stays the sum over all calls |
| `FitnessApp.User.constructor` | fitness_app.py:5-9 | a new user has the given name and weight, no workouts and 0 calories whatever `calories` is passed |
| `FitnessApp.User.AddWorkout` | fitness_app.py:11-16 | the workout is appended; calories rise by its current total; calories stay the sum of the totals credited at each add; name and weight unchanged |
| `FitnessApp.Scan` | fitness_app.py:136-154 | a found entry matches the name and carries the duration typed at the last prompt; every earlier prompt of the search got a non-integer |
| `FitnessApp.Search` | fitness_app.py:136-154 | the search from the first group, before any prompt: a found entry matches the name and carries the duration typed at the last prompt, and every earlier prompt got a non-integer |
| `FitnessApp.SearchFindsFirstMatch` | fitness_app.py:136-154 | when the first duration typed is an integer of any sign, the result is the first matching entry over groups then entries, with that duration, after one prompt; nothing found iff no entry matches |
| `FitnessApp.SearchUnknownName` | fitness_app.py:136-157 | a name no entry matches prompts for nothing and finds nothing |
| `FitnessApp.SearchAllInvalid` | fitness_app.py:141-145 | if no duration typed parses as an integer, nothing is added, whatever matches |
| `FitnessApp.SearchRetriesInNextGroup` | fitness_app.py:137-145 | an invalid duration ends only the current group: with a match in each of two groups and a first reply that does not parse, the search prompts again and finds the second group's entry after two prompts |
| `FitnessApp.FromEntry` | fitness_app.py:147-148 | the built Exercise has the entry's name and cpm, the group's key and the entered duration |
| `FitnessApp.LoggedAgreesWithSuggested` | fitness_app.py:147-149 | a logged exercise burns its duration times the rate the suggester lists for the same entry and weight |
| `FitnessApp.SearchCatalog` | fitness_app.py:136-154 | the nested loop with its `found` flag and `break`s returns exactly the outcome of `Scan` from the start |
| `FitnessApp.LogExercise` | fitness_app.py:136-157 | if the search finds an entry, the built Exercise is appended and the total rises by its calories at the user's weight; otherwise the workout is unchanged |
| `CheckIn2.Exercise.CaloriesBurned` | Check_In_2.py:59-64 | at 70 kg the result is duration times cpm; in general it is the duration times the suggester's adjusted rate |
| `CheckIn2.Workout.constructor` | Check_In_2.py:41-44 | a new workout has no exercises and both totals 0 |
| `CheckIn2.Workout.AddExercise` | Check_In_2.py:46-50 | the dictionary is appended at the end; `total_duration` and `total_calories_burned` rise by its two fields and stay the sums of those fields over the list |
| `CheckIn2.User.constructor` | Check_In_2.py:4-8 | a new user has no workouts and 0 calories whatever `calories` is passed |
| `CheckIn2.User.AddWorkout` | Check_In_2.py:10-15 | as written: the workout is appended, then reading `calories_burned` fails; calories, name and weight are unchanged and the history and the total no longer agree |
| `CheckIn2.User.AddWorkoutTotal` | Check_In_2.py:10-15 | corrected: the workout is appended and calories rise by its `total_calories_burned`, keeping calories the sum of the credited totals |
| `CheckIn2.IsDigitString` | Check_In_2.py:161 | definition of `str.isdigit()` on ASCII: non-empty and digits only |
| `CheckIn2.CountChar` | Check_In_2.py:161 | definition of `s.count(c)` for one character |
| `CheckIn2.RemoveFirstDot` | Check_In_2.py:161 | definition of `s.replace('.', '', 1)`: the first dot, if any, removed |
| `CheckIn2.Accepted` | Check_In_2.py:161 | definition of the validator's test as written: `replace('.', '', 1).isdigit()` and `count('.') < 2` |
| `CheckIn2.AcceptedIff` | Check_In_2.py:161 | a string passes iff it is made of digits and dots, has at most one dot, and has at least one digit |
| `CheckIn2.DotCountTestRedundant` | Check_In_2.py:161 | the `count('.') < 2` test never rejects what the `replace(...).isdigit()` test accepts |
| `CheckIn2.RemoveFirstDotFacts` | Check_In_2.py:161 | `replace('.', '', 1)` removes one character exactly when there is a dot, and leaves only digits iff the string had only digits and dots with at most one dot |
| `CheckIn2.RefusedExamples` | Check_In_2.py:161 | "", ".", "-70", "+70" and "1.2.3" are refused |
| `CheckIn2.AcceptedExamples` | Check_In_2.py:161 | "70", "70.5", ".5" and "5." pass |
| `CheckIn2.DecimalValue` | Check_In_2.py:162 | the value of an accepted string is non-negative and lies between its integer part and that plus one; without a dot it is the integer the digits denote |
| `CheckIn2.DecimalValueExact` | Check_In_2.py:162 | `float(s)` is the number the digits denote with the dot taken out, over ten to the number of digits after the dot: "70.5" is 705 / 10 |
| `CheckIn2.DecimalValueOfIntegers` | Check_In_2.py:162 | "0" gives 0 and "70" gives 70 |
| `CheckIn2.DecimalValueOfDecimals` | Check_In_2.py:162 | "70.5" gives 70.5, ".5" gives 0.5 and "5." gives 5 |
| `CheckIn2.TrimLeft` | Check_In_2.py:158 | `strip()` on the left: only whitespace is removed, and the rest does not start with whitespace |
| `CheckIn2.TrimRight` | Check_In_2.py:158 | `strip()` on the right: only whitespace is removed, and the rest does not end with whitespace |
| `CheckIn2.Strip` | Check_In_2.py:158 | `strip()`: the result is a slice of the input with only whitespace removed at both ends, and it neither starts nor ends with whitespace |
| `CheckIn2.GetValidWeight` | Check_In_2.py:155-164 | returns only on the first line that passes once stripped, with its non-negative value, the number its digits denote over the power of ten its fraction needs, having read no further; every earlier line was refused |
| `FinalProject.Exercise.CaloriesBurned` | Final_project.py:34-35 | duration times the rate, with no weight: what the weighted drafts give at 70 kg; non-negative for non-negative inputs |
| `FinalProject.Workout.constructor` | Final_project.py:17-19 | a new workout has no exercises and a total of 0 |
| `FinalProject.Workout.AddExercise` | Final_project.py:21-23 | the exercise is appended at the end; the total rises by what it burns and stays the sum over the list |
| `FinalProject.User.constructor` | Final_project.py:3-6 | the `calories` argument is ignored: no workouts and 0 calories |
| `FinalProject.User.AddWorkout` | Final_project.py:8-10 | the workout is appended; calories rise by its current total and stay the sum of the totals credited; the name is unchanged |

## Findings

| source | as written | input that shows it | evidently intended | confidence | as-written member | corrected member |
|---|---|---|---|---|---|---|
| Check_In_2.py:10-15 | `add_workout` appends the workout and then reads `workout.calories_burned`, which this file's `Workout` (lines 40-50) never sets: AttributeError, with the workout already in the history and `calories` not raised | any `Workout()` of this file passed to `User.add_workout` | raise `calories` by the workout's `total_calories_burned` | not executed; high | `CheckIn2.User.AddWorkout` | `CheckIn2.User.AddWorkoutTotal` |

## Left out

- Console I/O: the `main` menu loops, every prompt and printed message, `view_workouts`, `show_available_exercises`, and the `:.2f` and `capitalize` formatting.
- Loading `exercise_database.json` and its `FileNotFoundError` / `JSONDecodeError` handling: the catalog is a given value.
- The outer `while True` loop of `log_workout`: the "show exercises" question, the `done` check and the final `user.add_workout(workout)` call. `LogExercise` models one pass for one entered name; `User.AddWorkout` models the final call.
- FitnessApp.LogExercise: in the source, `add_exercise` runs inside the inner loop just before a `break`; the model makes the same call after the search returns, which has the same effect.
- FitnessApp.SearchCatalog: the entered name is taken as already stripped, and durations as already parsed by `int()` (or refused); string-to-integer parsing is not modelled.
- ExerciseDatabase.Matches: `str.lower()` is modelled on the ASCII letters only; other Unicode case mappings are not.
- CheckIn2.GetValidWeight: `isdigit()` and `strip()` are modelled on ASCII only. Python's `isdigit()` also accepts other Unicode digits, such as superscript two, which `float()` then rejects with an uncaught ValueError; that path is not modelled. The lines typed are a finite sequence; when they run out (an EOFError in the program) the model returns `None`.
- CheckIn2.Workout.AddExercise: requires both `'duration'` and `'calories_burned'` keys. A missing key raises KeyError after the append, which is not modelled.
- `get_valid_weight` in `fitness_app.py` (lines 163-168) and the `float()` parsing of weights in `main`: Python float parsing is not modelled.
- Python float rounding: all arithmetic is exact.
- `log_workout` in `Check_In_2.py` does not fit that file's own classes. It calls the one-argument `add_exercise` with two arguments, which is a TypeError, and it never calls `add_workout`. So it is not modelled.
- The empty `workout_suggester` and `log_workout` stubs of `Final_project.py` (lines 59-66).
- The lemmas about looking up a group's own key assume distinct group keys (`UniqueGroups`). A loaded dict always has distinct keys.
