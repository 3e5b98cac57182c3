/** The exercise catalog that the later drafts load from `exercise_database.json`,
    and the two read-only operations on it that fitness_app.py and Check_In_2.py
    share word for word: the weight-adjusted rate of the suggester and the
    case-insensitive name match of the workout logger.

    A JSON object loads into a Python dict, which iterates in insertion order,
    so the catalog is an ordered sequence of muscle groups, each holding the
    ordered list of its exercise records. */
module ExerciseDatabase {
  import opened Options

  /** One record of a muscle group's list: `name`, `duration` (minutes) and
      `calories_burned_per_minute`. */
  datatype Entry = Entry(name: string, duration: int, cpm: real)

  /** One key of the JSON object with its list of records. */
  datatype Group = Group(muscleGroup: string, entries: seq<Entry>)

  type Catalog = seq<Group>

  /** A dict has each key once. */
  ghost predicate UniqueGroups(cat: Catalog)
  {
    forall a, b :: 0 <= a < b < |cat| ==> cat[a].muscleGroup != cat[b].muscleGroup
  }

  /** The reference body weight (kg) every weighted rule divides by. */
  const BaselineWeight: real := 70.0

  /** A per-minute rate scaled to a body weight: `cpm * (weight / 70)`. */
  function AdjustedRate(cpm: real, weight: real): (r: real)
    ensures weight == BaselineWeight ==> r == cpm
    ensures 0.0 <= cpm && 0.0 <= weight ==> 0.0 <= r
    ensures r * BaselineWeight == cpm * weight
  {
    assert 0.0 <= weight ==> 0.0 <= weight / BaselineWeight;
    cpm * (weight / BaselineWeight)
  }

  // ---------------------------------------------------------------------------
  // Case folding (str.lower on the ASCII letters)

  function LowerChar(c: char): char
  {
    if 'A' <= c <= 'Z' then (c as int + 32) as char else c
  }

  function Lower(s: string): string
  {
    seq(|s|, i requires 0 <= i < |s| => LowerChar(s[i]))
  }

  /** Folding twice is folding once. */
  lemma LowerIdempotent(s: string)
    ensures Lower(Lower(s)) == Lower(s)
  {
    assert forall i :: 0 <= i < |s| ==> LowerChar(LowerChar(s[i])) == LowerChar(s[i]);
  }

  /** `e['name'].lower() == exercise_name.lower()`. */
  predicate Matches(e: Entry, name: string)
  {
    Lower(e.name) == Lower(name)
  }

  /** The match ignores the case of the entered name. */
  lemma MatchesIgnoresCase(e: Entry, name: string)
    ensures Matches(e, Lower(name)) <==> Matches(e, name)
  {
    LowerIdempotent(name);
  }

  // ---------------------------------------------------------------------------
  // data.get(muscle_group): exact key lookup

  /** The first group at or after `from` whose key is exactly `key`. */
  function GroupIndexFrom(cat: Catalog, key: string, from: nat): (r: Option<nat>)
    requires from <= |cat|
    ensures r.Some? ==> from <= r.value < |cat| && cat[r.value].muscleGroup == key
    ensures r.Some? ==> forall h :: from <= h < r.value ==> cat[h].muscleGroup != key
    ensures r.None? <==> forall h :: from <= h < |cat| ==> cat[h].muscleGroup != key
    decreases |cat| - from
  {
    if from == |cat| then None
    else if cat[from].muscleGroup == key then Some(from)
    else GroupIndexFrom(cat, key, from + 1)
  }

  /** The position of the group `data.get(key)` returns, if there is one. */
  function GroupIndex(cat: Catalog, key: string): (r: Option<nat>)
    ensures r.Some? ==> r.value < |cat| && cat[r.value].muscleGroup == key
    ensures r.None? <==> forall h :: 0 <= h < |cat| ==> cat[h].muscleGroup != key
  {
    GroupIndexFrom(cat, key, 0)
  }

  /** In a catalog with distinct keys, looking up a group's own key finds that group. */
  lemma GroupIndexOfKey(cat: Catalog, g: nat)
    requires UniqueGroups(cat) && g < |cat|
    ensures GroupIndex(cat, cat[g].muscleGroup) == Some(g)
  {
  }

  // ---------------------------------------------------------------------------
  // workout_suggester: one weight-adjusted line per entry of the group

  /** One printed suggestion: the entry's name and duration, and its adjusted rate. */
  datatype Suggestion = Suggestion(name: string, duration: int, rate: real)

  /** What the suggester prints: the "No exercises found" message, or one line per entry. */
  datatype Suggestions = NoExercises | Listed(items: seq<Suggestion>)

  /** The body of the suggester's `for e in exercises` loop, for every entry in order. */
  function Adjust(es: seq<Entry>, weight: real): (r: seq<Suggestion>)
    ensures |r| == |es|
    ensures forall i :: 0 <= i < |es| ==>
      r[i].name == es[i].name && r[i].duration == es[i].duration &&
      r[i].rate == AdjustedRate(es[i].cpm, weight)
  {
    if es == [] then []
    else [Suggestion(es[0].name, es[0].duration, AdjustedRate(es[0].cpm, weight))] + Adjust(es[1..], weight)
  }

  /** `workout_suggester(muscle_group, user_weight)` on an already loaded catalog. */
  function Suggest(cat: Catalog, key: string, weight: real): (r: Suggestions)
    ensures r.Listed? ==> r.items != []
  {
    match GroupIndex(cat, key)
    case None => NoExercises
    case Some(g) =>
      if cat[g].entries == [] then NoExercises else Listed(Adjust(cat[g].entries, weight))
  }

  /** An unknown muscle group gives the "No exercises found" outcome. */
  lemma SuggestMissingGroup(cat: Catalog, key: string, weight: real)
    requires forall h :: 0 <= h < |cat| ==> cat[h].muscleGroup != key
    ensures Suggest(cat, key, weight) == NoExercises
  {
  }

  /** For a group of the catalog: an empty list gives the "No exercises found" outcome;
      otherwise one suggestion per entry, in catalog order, with the entry's own name and
      duration and its rate scaled by weight / 70. Nothing is filtered or reordered. */
  lemma SuggestGroup(cat: Catalog, g: nat, weight: real)
    requires UniqueGroups(cat) && g < |cat|
    ensures cat[g].entries == [] <==> Suggest(cat, cat[g].muscleGroup, weight) == NoExercises
    ensures Suggest(cat, cat[g].muscleGroup, weight).Listed? ==>
      var items, es := Suggest(cat, cat[g].muscleGroup, weight).items, cat[g].entries;
      |items| == |es| &&
      forall i :: 0 <= i < |es| ==>
        items[i].name == es[i].name && items[i].duration == es[i].duration &&
        items[i].rate * BaselineWeight == es[i].cpm * weight
  {
    GroupIndexOfKey(cat, g);
  }

  /** At the baseline weight every suggested rate is the catalog's own rate. */
  lemma SuggestAtBaseline(cat: Catalog, key: string)
    requires Suggest(cat, key, BaselineWeight).Listed?
    ensures GroupIndex(cat, key).Some?
    ensures var items := Suggest(cat, key, BaselineWeight).items;
      var es := cat[GroupIndex(cat, key).value].entries;
      |items| == |es| && forall i :: 0 <= i < |items| ==> items[i].rate == es[i].cpm
  {
  }
}
