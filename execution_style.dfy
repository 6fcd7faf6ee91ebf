/** Exercise rules: when an option may be exercised, given the time and the maturity. */
module ExecutionStyles {

  datatype ExecutionStyle = European | American | Bermudan(exerciseDates: seq<real>)

  /** canExercise(time, maturity). */
  function CanExercise(s: ExecutionStyle, time: real, maturity: real): (b: bool)
    ensures b && !s.Bermudan? ==> time <= maturity
    ensures s.European? ==> (b <==> time == maturity)
    ensures s.American? ==> (b <==> time <= maturity)
    ensures s.Bermudan? ==> (b <==> exists i :: 0 <= i < |s.exerciseDates| && s.exerciseDates[i] == time)
  {
    match s
    case European => time == maturity
    case American => time <= maturity
    case Bermudan(dates) => time in dates
  }

  /** European exercise is allowed at maturity and at no other time. */
  lemma EuropeanOnlyAtMaturity(time: real, maturity: real)
    ensures CanExercise(European, time, maturity) <==> time == maturity
  {
  }

  /** American exercise is allowed at any time up to maturity, with no lower bound. */
  lemma AmericanUpToMaturity(time: real, maturity: real)
    ensures CanExercise(American, time, maturity) <==> time <= maturity
    ensures CanExercise(American, maturity - 1000000.0, maturity)
  {
  }

  /** Whenever European exercise is allowed, so is American exercise. */
  lemma EuropeanImpliesAmerican(time: real, maturity: real)
    ensures CanExercise(European, time, maturity) ==> CanExercise(American, time, maturity)
  {
  }

  /** Bermudan exercise is allowed exactly at a stored date, whatever the maturity;
      with no dates it is never allowed. */
  lemma BermudanAtStoredDates(dates: seq<real>, time: real, maturity: real, other: real)
    ensures CanExercise(Bermudan(dates), time, maturity) <==> exists i :: 0 <= i < |dates| && dates[i] == time
    ensures CanExercise(Bermudan(dates), time, maturity) == CanExercise(Bermudan(dates), time, other)
    ensures dates == [] ==> !CanExercise(Bermudan(dates), time, maturity)
  {
    if time in dates {
      var i :| 0 <= i < |dates| && dates[i] == time;
    }
  }
}
