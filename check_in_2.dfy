/** Check_In_2.py: the weighted calorie rule, a Workout that keeps two totals over
    dictionaries, the User history, and the weight-string validator of
    `get_valid_weight`. */
module CheckIn2 {
  import opened Options
  import opened Sums
  import opened ExerciseDatabase

  /** Check_In_2.py's own Exercise class (no caller in the file builds one for its Workout). */
  datatype Exercise = Exercise(name: string, muscleGroup: string, duration: int, cpm: real)
  {
    /** `duration * calories_burned_per_minute * (weight / 70)`. */
    function CaloriesBurned(weight: real): (c: real)
      ensures weight == BaselineWeight ==> c == duration as real * cpm
      ensures c == duration as real * AdjustedRate(cpm, weight)
    {
      duration as real * cpm * (weight / BaselineWeight)
    }
  }

  // ---------------------------------------------------------------------------
  // Workout over dictionaries

  /** The dictionary `add_exercise` receives; only its numeric keys matter here. */
  type Record = map<string, real>

  /** The two keys `add_exercise` reads. */
  predicate HasTotals(r: Record)
  {
    "duration" in r && "calories_burned" in r
  }

  /** The values of one key across a list of dictionaries. */
  function Field(rs: seq<Record>, key: string): seq<real>
    requires forall i :: 0 <= i < |rs| ==> key in rs[i]
  {
    seq(|rs|, i requires 0 <= i < |rs| => rs[i][key])
  }

  lemma FieldAppend(rs: seq<Record>, r: Record, key: string)
    requires forall i :: 0 <= i < |rs| ==> key in rs[i]
    requires key in r
    ensures Field(rs + [r], key) == Field(rs, key) + [r[key]]
  {
  }

  class Workout {
    var exercises: seq<Record>
    var totalDuration: real
    var totalCaloriesBurned: real

    /** Every stored dictionary has both keys, and each total is the sum of its key's values. */
    ghost predicate Valid()
      reads this
    {
      (forall i :: 0 <= i < |exercises| ==> HasTotals(exercises[i])) &&
      totalDuration == Sum(Field(exercises, "duration")) &&
      totalCaloriesBurned == Sum(Field(exercises, "calories_burned"))
    }

    constructor ()
      ensures Valid()
      ensures exercises == [] && totalDuration == 0.0 && totalCaloriesBurned == 0.0
    {
      exercises, totalDuration, totalCaloriesBurned := [], 0.0, 0.0;
    }

    /** `add_exercise(exercise)`: append, then add its `'duration'` and its `'calories_burned'`. */
    method AddExercise(e: Record)
      requires Valid()
      requires HasTotals(e)
      modifies this
      ensures Valid()
      ensures exercises == old(exercises) + [e]
      ensures totalDuration == old(totalDuration) + e["duration"]
      ensures totalCaloriesBurned == old(totalCaloriesBurned) + e["calories_burned"]
    {
      FieldAppend(exercises, e, "duration");
      FieldAppend(exercises, e, "calories_burned");
      SumAppend(Field(exercises, "duration"), e["duration"]);
      SumAppend(Field(exercises, "calories_burned"), e["calories_burned"]);
      exercises := exercises + [e];
      totalDuration := totalDuration + e["duration"];
      totalCaloriesBurned := totalCaloriesBurned + e["calories_burned"];
    }
  }

  // ---------------------------------------------------------------------------
  // User

  /** How a call ended: normally, or with Python's AttributeError for the named attribute. */
  datatype Completion = AttributeError(attribute: string)

  class User {
    var name: string
    var weight: real
    var workouts: seq<Workout>
    var calories: real
    /** The total credited for each workout when it was added. */
    ghost var credited: seq<real>

    ghost predicate Valid()
      reads this
    {
      |credited| == |workouts| && calories == Sum(credited)
    }

    /** `User(name, weight, calories=0)`: the `calories` argument is ignored. */
    constructor (name: string, weight: real, calories: real := 0.0)
      ensures Valid()
      ensures this.name == name && this.weight == weight
      ensures workouts == [] && credited == [] && this.calories == 0.0
    {
      this.name, this.weight := name, weight;
      workouts, this.calories := [], 0.0;
      credited := [];
    }

    /** `add_workout(workout)` as written: the workout is appended, then reading
        `workout.calories_burned` fails, because this file's Workout has no such
        attribute. The total is not raised and the history and the total no
        longer agree. */
    method AddWorkout(wk: Workout) returns (completion: Completion)
      requires Valid()
      modifies this
      ensures completion == AttributeError("calories_burned")
      ensures workouts == old(workouts) + [wk] && calories == old(calories) && credited == old(credited)
      ensures name == old(name) && weight == old(weight)
      ensures !Valid()
    {
      workouts := workouts + [wk];
      completion := AttributeError("calories_burned");
    }

    /** `add_workout` reading the total this file's Workout does keep,
        `total_calories_burned`: append, and raise the total by it. */
    method AddWorkoutTotal(wk: Workout)
      requires Valid()
      modifies this
      ensures Valid()
      ensures workouts == old(workouts) + [wk] && credited == old(credited) + [wk.totalCaloriesBurned]
      ensures calories == old(calories) + wk.totalCaloriesBurned
      ensures name == old(name) && weight == old(weight)
    {
      SumAppend(credited, wk.totalCaloriesBurned);
      workouts := workouts + [wk];
      calories := calories + wk.totalCaloriesBurned;
      credited := credited + [wk.totalCaloriesBurned];
    }
  }

  // ---------------------------------------------------------------------------
  // get_valid_weight: `s.replace('.', '', 1).isdigit() and s.count('.') < 2`

  predicate IsDigitChar(c: char)
  {
    '0' <= c <= '9'
  }

  predicate AllDigits(s: string)
  {
    forall i :: 0 <= i < |s| ==> IsDigitChar(s[i])
  }

  /** `str.isdigit()`: non-empty and digits only. */
  predicate IsDigitString(s: string)
  {
    |s| > 0 && AllDigits(s)
  }

  /** `s.count(c)`. */
  function CountChar(s: string, c: char): nat
  {
    if s == [] then 0 else (if s[0] == c then 1 else 0) + CountChar(s[1..], c)
  }

  /** `s.replace('.', '', 1)`: the first dot, if any, removed. */
  function RemoveFirstDot(s: string): string
  {
    if s == [] then []
    else if s[0] == '.' then s[1..]
    else [s[0]] + RemoveFirstDot(s[1..])
  }

  /** The validator's test, as written. */
  predicate Accepted(s: string)
  {
    IsDigitString(RemoveFirstDot(s)) && CountChar(s, '.') < 2
  }

  /** Every character is a digit or a dot. */
  predicate DigitsAndDots(s: string)
  {
    forall i :: 0 <= i < |s| ==> IsDigitChar(s[i]) || s[i] == '.'
  }

  /** A non-empty string is digits and dots iff its head is one and its tail is. */
  lemma DigitsAndDotsCons(s: string)
    requires s != []
    ensures DigitsAndDots(s) <==> (IsDigitChar(s[0]) || s[0] == '.') && DigitsAndDots(s[1..])
  {
    if (IsDigitChar(s[0]) || s[0] == '.') && DigitsAndDots(s[1..]) {
      forall i | 0 <= i < |s| ensures IsDigitChar(s[i]) || s[i] == '.' {
        if i > 0 { assert s[i] == s[1..][i - 1]; }
      }
    }
  }

  lemma {:induction false} AllDigitsIff(s: string)
    ensures AllDigits(s) <==> DigitsAndDots(s) && CountChar(s, '.') == 0
  {
    if s != [] {
      AllDigitsIff(s[1..]);
      assert AllDigits(s) <==> IsDigitChar(s[0]) && AllDigits(s[1..]) by {
        if IsDigitChar(s[0]) && AllDigits(s[1..]) {
          forall i | 0 <= i < |s| ensures IsDigitChar(s[i]) {
            if i > 0 { assert s[i] == s[1..][i - 1]; }
          }
        }
      }
      DigitsAndDotsCons(s);
    }
  }

  lemma {:induction false} RemoveFirstDotFacts(s: string)
    ensures |RemoveFirstDot(s)| == |s| - (if CountChar(s, '.') > 0 then 1 else 0)
    ensures AllDigits(RemoveFirstDot(s)) <==> DigitsAndDots(s) && CountChar(s, '.') <= 1
  {
    if s != [] {
      var t := RemoveFirstDot(s);
      DigitsAndDotsCons(s);
      if s[0] == '.' {
        AllDigitsIff(s[1..]);
      } else {
        RemoveFirstDotFacts(s[1..]);
        var u := RemoveFirstDot(s[1..]);
        assert t == [s[0]] + u;
        assert AllDigits(t) <==> IsDigitChar(s[0]) && AllDigits(u) by {
          if IsDigitChar(s[0]) && AllDigits(u) {
            forall i | 0 <= i < |t| ensures IsDigitChar(t[i]) {
              if i > 0 { assert t[i] == u[i - 1]; }
            }
          }
          if AllDigits(t) {
            assert t[0] == s[0];
            forall j | 0 <= j < |u| ensures IsDigitChar(u[j]) {
              assert u[j] == t[j + 1];
            }
          }
        }
      }
    }
  }

  /** A string passes exactly when it is digits with at most one dot and at least one digit. */
  lemma AcceptedIff(s: string)
    ensures Accepted(s) <==> DigitsAndDots(s) && CountChar(s, '.') <= 1 && CountChar(s, '.') < |s|
  {
    RemoveFirstDotFacts(s);
  }

  /** The `count('.') < 2` test never rejects a string the first test lets through. */
  lemma DotCountTestRedundant(s: string)
    ensures Accepted(s) <==> IsDigitString(RemoveFirstDot(s))
  {
    RemoveFirstDotFacts(s);
  }

  /** The empty string, a lone dot, signed numbers and two dots are refused. */
  lemma RefusedExamples()
    ensures !Accepted("") && !Accepted(".") && !Accepted("-70") && !Accepted("+70") && !Accepted("1.2.3")
  {
    assert RemoveFirstDot(".") == "";
    assert RemoveFirstDot("-70") == "-70" && !IsDigitChar('-');
    assert RemoveFirstDot("+70") == "+70" && !IsDigitChar('+');
    assert CountChar("1.2.3", '.') == 2;
  }

  /** Plain and decimal numbers pass, with the dot anywhere, at either end too. */
  lemma AcceptedExamples()
    ensures Accepted("70") && Accepted("70.5") && Accepted(".5") && Accepted("5.")
  {
    assert RemoveFirstDot("70.5") == "705";
    assert RemoveFirstDot(".5") == "5";
    assert RemoveFirstDot("5.") == "5";
    assert RemoveFirstDot("70") == "70";
  }

  // ---------------------------------------------------------------------------
  // float() of an accepted string

  function DigitValue(c: char): nat
  {
    if IsDigitChar(c) then c as int - '0' as int else 0
  }

  /** The number a digit string denotes (the empty string denotes 0). */
  function DigitsValue(s: string): nat
  {
    if s == [] then 0 else DigitsValue(s[..|s| - 1]) * 10 + DigitValue(s[|s| - 1])
  }

  function Pow10(n: nat): (p: nat)
    ensures p >= 1
  {
    if n == 0 then 1 else 10 * Pow10(n - 1)
  }

  /** n digits denote less than 10^n. */
  lemma {:induction false} DigitsValueBelow(s: string)
    ensures DigitsValue(s) < Pow10(|s|)
  {
    if s != [] {
      var p := s[..|s| - 1];
      DigitsValueBelow(p);
      assert DigitsValue(s) == DigitsValue(p) * 10 + DigitValue(s[|s| - 1]);
      assert DigitsValue(p) * 10 <= (Pow10(|p|) - 1) * 10;
    }
  }

  /** The position of the first dot, or |s| when there is none. */
  function DotIndex(s: string): (d: nat)
    ensures d <= |s| && (d < |s| ==> s[d] == '.')
    ensures forall j :: 0 <= j < d ==> s[j] != '.'
  {
    if s == [] then 0
    else if s[0] == '.' then 0
    else 1 + DotIndex(s[1..])
  }

  function IntegerPart(s: string): string
  {
    s[..DotIndex(s)]
  }

  function FractionPart(s: string): string
  {
    if DotIndex(s) < |s| then s[DotIndex(s) + 1..] else []
  }

  /** The fraction digits over a power of ten: less than one. */
  function FractionValue(f: string): (v: real)
    ensures 0.0 <= v < 1.0
  {
    DigitsValueBelow(f);
    QuotientBelowOne(DigitsValue(f) as real, Pow10(|f|) as real);
    DigitsValue(f) as real / Pow10(|f|) as real
  }

  lemma QuotientBelowOne(x: real, y: real)
    requires 0.0 <= x < y
    ensures 0.0 <= x / y < 1.0
  {
    assert (x / y) * y == x;
  }

  /** The value `float(s)` gives a string of digits with at most one dot: the integer
      digits plus the fraction digits over a power of ten. The fraction adds less than one. */
  function DecimalValue(s: string): (v: real)
    ensures DigitsValue(IntegerPart(s)) as real <= v < DigitsValue(IntegerPart(s)) as real + 1.0
    ensures 0.0 <= v
    ensures CountChar(s, '.') == 0 ==> v == DigitsValue(s) as real
  {
    NoDotIndex(s);
    assert CountChar(s, '.') == 0 ==> IntegerPart(s) == s && FractionPart(s) == [];
    DigitsValue(IntegerPart(s)) as real + FractionValue(FractionPart(s))
  }

  lemma {:induction false} NoDotIndex(s: string)
    ensures CountChar(s, '.') == 0 ==> DotIndex(s) == |s|
  {
    if s != [] {
      NoDotIndex(s[1..]);
    }
  }

  /** n digits after m digits: the first m shifted left by n places. */
  lemma {:induction false} DigitsValueAppend(a: string, b: string)
    ensures DigitsValue(a + b) == DigitsValue(a) * Pow10(|b|) + DigitsValue(b)
    decreases |b|
  {
    if b == [] {
      assert a + b == a;
    } else {
      var b', d := b[..|b| - 1], b[|b| - 1];
      assert (a + b)[..|a + b| - 1] == a + b';
      assert (a + b)[|a + b| - 1] == d;
      DigitsValueAppend(a, b');
      ShiftDigit(DigitsValue(a), Pow10(|b'|), DigitsValue(b'), DigitValue(d));
    }
  }

  lemma ShiftDigit(x: int, p: int, y: int, d: int)
    ensures (x * p + y) * 10 + d == x * (10 * p) + (y * 10 + d)
  {
  }

  /** Removing the first dot joins the digits before it to the digits after it. */
  lemma {:induction false} DotSplit(s: string)
    ensures RemoveFirstDot(s) == IntegerPart(s) + FractionPart(s)
  {
    if s != [] && s[0] != '.' {
      DotSplit(s[1..]);
      assert IntegerPart(s) == [s[0]] + IntegerPart(s[1..]);
      assert FractionPart(s) == FractionPart(s[1..]);
    }
  }

  /** What `float(s)` means: the number the digits denote once the dot is taken out,
      over ten to the number of digits after the dot. So "70.5" is 705 / 10. */
  lemma DecimalValueExact(s: string)
    ensures DecimalValue(s) == DigitsValue(RemoveFirstDot(s)) as real / Pow10(|FractionPart(s)|) as real
  {
    var x, f := IntegerPart(s), FractionPart(s);
    var dx, df, p := DigitsValue(x), DigitsValue(f), Pow10(|f|);
    assert DecimalValue(s) == dx as real + df as real / p as real;
    DigitsWithoutDot(s);
    ShiftQuotient(dx, df, p, DigitsValue(RemoveFirstDot(s)));
  }

  lemma ShiftQuotient(x: int, y: int, p: int, n: int)
    requires p > 0 && n == x * p + y
    ensures x as real + y as real / p as real == n as real / p as real
  {
    CastShift(x, p, y);
    SplitQuotient(x as real, y as real, p as real);
  }

  lemma CastShift(x: int, p: int, y: int)
    ensures (x * p + y) as real == x as real * p as real + y as real
  {
  }

  lemma SplitQuotient(x: real, y: real, p: real)
    requires p != 0.0
    ensures x + y / p == (x * p + y) / p
  {
    assert (x * p + y) / p == x * p / p + y / p;
  }

  /** The digits left once the first dot is removed denote the integer digits
      shifted past the fraction digits. */
  lemma DigitsWithoutDot(s: string)
    ensures DigitsValue(RemoveFirstDot(s)) ==
      DigitsValue(IntegerPart(s)) * Pow10(|FractionPart(s)|) + DigitsValue(FractionPart(s))
  {
    DotSplit(s);
    DigitsValueAppend(IntegerPart(s), FractionPart(s));
  }

  lemma DecimalValueOfIntegers()
    ensures DecimalValue("0") == 0.0 && DecimalValue("70") == 70.0
  {
    assert DigitsValue("7") == 7;
  }

  lemma DecimalValueOfDecimals()
    ensures DecimalValue("70.5") == 70.5 && DecimalValue(".5") == 0.5 && DecimalValue("5.") == 5.0
  {
    assert DotIndex("70.5") == 2 && IntegerPart("70.5") == "70" && FractionPart("70.5") == "5";
    assert DotIndex(".5") == 0 && IntegerPart(".5") == "" && FractionPart(".5") == "5";
    assert DotIndex("5.") == 1 && IntegerPart("5.") == "5" && FractionPart("5.") == "";
    assert DigitsValue("7") == 7 && DigitsValue("70") == 70 && DigitsValue("5") == 5;
    assert FractionValue("5") == 5.0 / 10.0;
  }

  // ---------------------------------------------------------------------------
  // str.strip() on ASCII whitespace

  /** The ASCII characters Python treats as whitespace. */
  predicate IsSpace(c: char)
  {
    c == ' ' || ('\t' <= c <= '\r') || (28 <= c as int <= 31)
  }

  function TrimLeft(s: string): (r: string)
    ensures |r| <= |s| && r == s[|s| - |r|..]
    ensures forall i :: 0 <= i < |s| - |r| ==> IsSpace(s[i])
    ensures r != [] ==> !IsSpace(r[0])
  {
    if s != [] && IsSpace(s[0]) then TrimLeft(s[1..]) else s
  }

  function TrimRight(s: string): (r: string)
    ensures |r| <= |s| && r == s[..|r|]
    ensures forall i :: |r| <= i < |s| ==> IsSpace(s[i])
    ensures r != [] ==> !IsSpace(r[|r| - 1])
  {
    if s != [] && IsSpace(s[|s| - 1]) then TrimRight(s[..|s| - 1]) else s
  }

  /** `str.strip()`: whitespace removed at both ends, and nothing else. */
  function Strip(s: string): (r: string)
    ensures |r| <= |TrimLeft(s)| <= |s| && r == TrimLeft(s)[..|r|]
    ensures forall i :: 0 <= i < |s| - |TrimLeft(s)| ==> IsSpace(s[i])
    ensures forall i :: |r| <= i < |TrimLeft(s)| ==> IsSpace(TrimLeft(s)[i])
    ensures r != [] ==> !IsSpace(r[0]) && !IsSpace(r[|r| - 1])
  {
    TrimRight(TrimLeft(s))
  }

  /** The `while True` retry loop over the lines typed, in order. It returns the value
      of the first line that passes (stripped), after reading exactly up to that line;
      `None` when the lines run out first (an EOFError in the program). */
  method GetValidWeight(inputs: seq<string>) returns (weight: Option<real>, attempts: nat)
    ensures attempts <= |inputs|
    ensures weight.None? ==> attempts == |inputs| && forall j :: 0 <= j < |inputs| ==> !Accepted(Strip(inputs[j]))
    ensures weight.Some? ==>
      0 < attempts && Accepted(Strip(inputs[attempts - 1])) &&
      weight.value == DecimalValue(Strip(inputs[attempts - 1])) && 0.0 <= weight.value
    ensures weight.Some? ==>
      var t := Strip(inputs[attempts - 1]);
      weight.value == DigitsValue(RemoveFirstDot(t)) as real / Pow10(|FractionPart(t)|) as real
    ensures weight.Some? ==> forall j :: 0 <= j < attempts - 1 ==> !Accepted(Strip(inputs[j]))
  {
    var i := 0;
    while i < |inputs| && !Accepted(Strip(inputs[i]))
      invariant i <= |inputs|
      invariant forall j :: 0 <= j < i ==> !Accepted(Strip(inputs[j]))
    {
      i := i + 1;
    }
    if i < |inputs| {
      DecimalValueExact(Strip(inputs[i]));
      weight, attempts := Some(DecimalValue(Strip(inputs[i]))), i + 1;
    } else {
      weight, attempts := None, i;
    }
  }
}
