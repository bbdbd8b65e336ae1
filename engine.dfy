/**
 * The calorie target engine of the signup, profile edit and weight edit handlers, and the age
 * computed from a birth date. Activity, goal and rate are the strings the handlers compare
 * against; a typed reference engine (closed enumerations with total tables) is the partner the
 * string engine is proved against.
 */
module Engine {
  import opened Common

  // ---------------------------------------------------------------------------------------------
  // Age

  /** A calendar date, as Python's datetime.date holds it. */
  datatype Date = Date(year: int, month: int, day: int)

  /** The tuple comparison (a.month, a.day) < (b.month, b.day). */
  predicate MonthDayBefore(a: Date, b: Date) {
    a.month < b.month || (a.month == b.month && a.day < b.day)
  }

  /** Chronological order of two dates. */
  predicate DateBefore(a: Date, b: Date) {
    a.year < b.year || (a.year == b.year && MonthDayBefore(a, b))
  }

  /** The n-th birthday of someone born on `birth`. */
  function Anniversary(birth: Date, n: int): Date {
    birth.(year := birth.year + n)
  }

  /**
   * calculate_age: the year difference, less one when today's (month, day) comes before the
   * birth (month, day). It is the number of birthdays reached: the age-th has come, the next
   * has not.
   */
  function CalculateAge(today: Date, birth: Date): (age: int)
    ensures !DateBefore(today, Anniversary(birth, age))
    ensures DateBefore(today, Anniversary(birth, age + 1))
  {
    today.year - birth.year - (if MonthDayBefore(today, birth) then 1 else 0)
  }

  /** Only one count of reached birthdays fits, so the age is fully determined by that reading. */
  lemma AgeIsUnique(today: Date, birth: Date, n: int)
    requires !DateBefore(today, Anniversary(birth, n))
    requires DateBefore(today, Anniversary(birth, n + 1))
    ensures n == CalculateAge(today, birth)
  {
  }

  /** One less than the year difference exactly when the birthday is still ahead this year. */
  lemma AgeYearDifference(today: Date, birth: Date)
    ensures CalculateAge(today, birth) == today.year - birth.year - 1 <==> MonthDayBefore(today, birth)
    ensures CalculateAge(today, birth) == today.year - birth.year <==> !MonthDayBefore(today, birth)
  {
  }

  // ---------------------------------------------------------------------------------------------
  // Truncation toward zero, as Python's int() on a float

  function Trunc(x: real): (n: int)
    ensures 0.0 <= x ==> n as real <= x < n as real + 1.0
    ensures x < 0.0 ==> n as real - 1.0 < x <= n as real
  {
    if x >= 0.0 then x.Floor else -((-x).Floor)
  }

  /** The two bounds of Trunc single out one integer on each side of zero. */
  lemma TruncOfInt(k: int)
    ensures Trunc(k as real) == k
  {
  }

  lemma TruncMonotone(x: real, y: real)
    requires x <= y
    ensures Trunc(x) <= Trunc(y)
  {
    if x < 0.0 && 0.0 <= y {
      assert Trunc(x) <= 0;
    }
  }

  /** Shifting a non-negative value by a whole number that keeps it non-negative shifts its truncation. */
  lemma TruncShift(x: real, k: int)
    requires 0.0 <= x && 0.0 <= x + k as real
    ensures Trunc(x + k as real) == Trunc(x) + k
  {
    var t := Trunc(x);
    assert t as real <= x < t as real + 1.0;
    assert (t + k) as real <= x + k as real < (t + k) as real + 1.0;
  }

  // ---------------------------------------------------------------------------------------------
  // The engine as the handlers run it

  /** Harris-Benedict BMR: the male formula for sex "m", the female formula for every other value. */
  function Bmr(sex: string, weight: int, height: int, age: int): real {
    if sex == "m" then 66.0 + 6.2 * weight as real + 12.7 * height as real - 6.76 * age as real
    else 655.0 + 4.35 * weight as real + 4.7 * height as real - 4.7 * age as real
  }

  /** tdee starts at 0 and only a matching activity string overwrites it. */
  function Tdee(activity: string, bmr: real): (tdee: real)
    ensures ParseActivity(activity).None? ==> tdee == 0.0
    ensures ParseActivity(activity).Some? ==> tdee == bmr * Multiplier(ParseActivity(activity).value)
  {
    if activity == "sedentary" then bmr * 1.2
    else if activity == "light" then bmr * 1.4
    else if activity == "active" then bmr * 1.8
    else 0.0
  }

  /**
   * daily_calories: the TDEE for "maintain", the TDEE less or plus the rate's step for "lose" or
   * "gain"; None where no branch assigns it (an unknown goal, or an unknown rate under lose/gain).
   */
  function DailyCalories(goal: string, rate: string, tdee: real): (c: Option<real>)
    ensures c.Some? <==> goal == "maintain" || ((goal == "lose" || goal == "gain") && rate in RateNames)
  {
    if goal == "maintain" then Some(tdee)
    else if goal == "lose" then
      (if rate == "slow" then Some(tdee - 175.0)
       else if rate == "normal" then Some(tdee - 300.0)
       else if rate == "fast" then Some(tdee - 500.0)
       else None)
    else if goal == "gain" then
      (if rate == "slow" then Some(tdee + 175.0)
       else if rate == "normal" then Some(tdee + 300.0)
       else if rate == "fast" then Some(tdee + 500.0)
       else None)
    else None
  }

  /** The stored calorie target: int(daily_calories), or None when daily_calories is unbound. */
  function Target(sex: string, weight: int, height: int, age: int,
                  activity: string, goal: string, rate: string): Option<int>
  {
    match DailyCalories(goal, rate, Tdee(activity, Bmr(sex, weight, height, age)))
    case None => None
    case Some(c) => Some(Trunc(c))
  }

  // ---------------------------------------------------------------------------------------------
  // Reference engine: closed enumerations and total tables

  datatype Activity = Sedentary | Light | Active
  datatype Goal = Lose | Maintain | Gain
  datatype Rate = Slow | Normal | Fast

  const ActivityNames: set<string> := {"sedentary", "light", "active"}
  const GoalNames: set<string> := {"lose", "maintain", "gain"}
  const RateNames: set<string> := {"slow", "normal", "fast"}

  function ActivityName(a: Activity): string {
    match a
    case Sedentary => "sedentary"
    case Light => "light"
    case Active => "active"
  }

  function GoalName(g: Goal): string {
    match g
    case Lose => "lose"
    case Maintain => "maintain"
    case Gain => "gain"
  }

  function RateName(r: Rate): string {
    match r
    case Slow => "slow"
    case Normal => "normal"
    case Fast => "fast"
  }

  /** Inverse of ActivityName: defined exactly on the engine's activity strings. */
  function ParseActivity(s: string): (a: Option<Activity>)
    ensures a.Some? <==> s in ActivityNames
    ensures a.Some? ==> ActivityName(a.value) == s
  {
    if s == "sedentary" then Some(Sedentary)
    else if s == "light" then Some(Light)
    else if s == "active" then Some(Active)
    else None
  }

  function ParseGoal(s: string): (g: Option<Goal>)
    ensures g.Some? <==> s in GoalNames
    ensures g.Some? ==> GoalName(g.value) == s
  {
    if s == "lose" then Some(Lose)
    else if s == "maintain" then Some(Maintain)
    else if s == "gain" then Some(Gain)
    else None
  }

  function ParseRate(s: string): (r: Option<Rate>)
    ensures r.Some? <==> s in RateNames
    ensures r.Some? ==> RateName(r.value) == s
  {
    if s == "slow" then Some(Slow)
    else if s == "normal" then Some(Normal)
    else if s == "fast" then Some(Fast)
    else None
  }

  lemma NamesRoundTrip(a: Activity, g: Goal, r: Rate)
    ensures ParseActivity(ActivityName(a)) == Some(a)
    ensures ParseGoal(GoalName(g)) == Some(g)
    ensures ParseRate(RateName(r)) == Some(r)
  {
  }

  function Multiplier(a: Activity): real {
    match a
    case Sedentary => 1.2
    case Light => 1.4
    case Active => 1.8
  }

  function RateStep(r: Rate): int {
    match r
    case Slow => 175
    case Normal => 300
    case Fast => 500
  }

  /** The signed goal adjustment in kcal: lose and gain are mirror images, maintain is zero. */
  function Adjustment(g: Goal, r: Rate): int {
    match g
    case Lose => -RateStep(r)
    case Maintain => 0
    case Gain => RateStep(r)
  }

  function ReferenceTarget(sex: string, weight: int, height: int, age: int,
                           a: Activity, g: Goal, r: Rate): int
  {
    Trunc(Bmr(sex, weight, height, age) * Multiplier(a) + Adjustment(g, r) as real)
  }

  // ---------------------------------------------------------------------------------------------
  // Properties of the engine

  /** On the engine's own spellings the string engine is the total reference engine. */
  lemma {:induction false} TargetMatchesReference(sex: string, weight: int, height: int, age: int,
                                                  a: Activity, g: Goal, r: Rate)
    ensures Target(sex, weight, height, age, ActivityName(a), GoalName(g), RateName(r))
         == Some(ReferenceTarget(sex, weight, height, age, a, g, r))
  {
    var bmr := Bmr(sex, weight, height, age);
    assert Tdee(ActivityName(a), bmr) == bmr * Multiplier(a) by {
      match a
      case Sedentary =>
      case Light =>
      case Active =>
    }
  }

  /** Any activity string outside the three spellings leaves TDEE at 0: the target is the bare offset. */
  lemma {:induction false} UnmatchedActivityGivesBareOffset(sex: string, weight: int, height: int, age: int,
                                                            activity: string, g: Goal, r: Rate)
    requires activity !in ActivityNames
    ensures Target(sex, weight, height, age, activity, GoalName(g), RateName(r)) == Some(Adjustment(g, r))
  {
    assert Tdee(activity, Bmr(sex, weight, height, age)) == 0.0;
    TruncOfInt(Adjustment(g, r));
  }

  /** The target is defined exactly for maintain, or for lose/gain with a known rate. */
  lemma TargetDefinedness(sex: string, weight: int, height: int, age: int,
                          activity: string, goal: string, rate: string)
    ensures Target(sex, weight, height, age, activity, goal, rate).Some?
        <==> goal == "maintain" || ((goal == "lose" || goal == "gain") && rate in RateNames)
  {
  }

  /** Maintain takes the TDEE whatever the rate says. */
  lemma MaintainIgnoresRate(sex: string, weight: int, height: int, age: int,
                            activity: string, rate1: string, rate2: string)
    ensures Target(sex, weight, height, age, activity, "maintain", rate1)
         == Target(sex, weight, height, age, activity, "maintain", rate2)
         == Some(Trunc(Tdee(activity, Bmr(sex, weight, height, age))))
  {
  }

  /** Before truncation, the lose and gain targets of a rate lie symmetric about the TDEE. */
  lemma LoseGainSymmetric(tdee: real, r: Rate)
    ensures DailyCalories("lose", RateName(r), tdee).Some?
    ensures DailyCalories("gain", RateName(r), tdee).Some?
    ensures DailyCalories("lose", RateName(r), tdee).value + DailyCalories("gain", RateName(r), tdee).value
         == 2.0 * tdee
  {
  }

  /**
   * After truncation the stored lose and gain values of a rate are symmetric about int(TDEE), as
   * long as the lose value stays non-negative; Target stores exactly these truncations.
   */
  lemma {:induction false} StoredLoseGainSymmetric(tdee: real, r: Rate)
    requires RateStep(r) as real <= tdee
    ensures DailyCalories("lose", RateName(r), tdee).Some?
    ensures DailyCalories("gain", RateName(r), tdee).Some?
    ensures Trunc(DailyCalories("lose", RateName(r), tdee).value)
          + Trunc(DailyCalories("gain", RateName(r), tdee).value)
         == 2 * Trunc(tdee)
  {
    var k := RateStep(r);
    assert DailyCalories("lose", RateName(r), tdee) == Some(tdee + (-k) as real);
    assert DailyCalories("gain", RateName(r), tdee) == Some(tdee + k as real);
    TruncShift(tdee, -k);
    TruncShift(tdee, k);
  }

  /** A heavier user never gets a lower target, other inputs equal. */
  lemma {:induction false} TargetMonotoneInWeight(sex: string, w1: int, w2: int, height: int, age: int,
                                                  activity: string, goal: string, rate: string)
    requires w1 <= w2
    requires Target(sex, w1, height, age, activity, goal, rate).Some?
    ensures Target(sex, w2, height, age, activity, goal, rate).Some?
    ensures Target(sex, w1, height, age, activity, goal, rate).value
         <= Target(sex, w2, height, age, activity, goal, rate).value
  {
    var t1 := Tdee(activity, Bmr(sex, w1, height, age));
    var t2 := Tdee(activity, Bmr(sex, w2, height, age));
    assert t1 <= t2;
    var c1 := DailyCalories(goal, rate, t1).value;
    var c2 := DailyCalories(goal, rate, t2).value;
    assert c1 <= c2;
    TruncMonotone(c1, c2);
  }

  /** An older user never gets a higher target, other inputs equal. */
  lemma {:induction false} TargetAntitoneInAge(sex: string, weight: int, height: int, a1: int, a2: int,
                                               activity: string, goal: string, rate: string)
    requires a1 <= a2
    requires Target(sex, weight, height, a1, activity, goal, rate).Some?
    ensures Target(sex, weight, height, a2, activity, goal, rate).Some?
    ensures Target(sex, weight, height, a2, activity, goal, rate).value
         <= Target(sex, weight, height, a1, activity, goal, rate).value
  {
    var t1 := Tdee(activity, Bmr(sex, weight, height, a1));
    var t2 := Tdee(activity, Bmr(sex, weight, height, a2));
    assert t2 <= t1;
    var c1 := DailyCalories(goal, rate, t1).value;
    var c2 := DailyCalories(goal, rate, t2).value;
    assert c2 <= c1;
    TruncMonotone(c2, c1);
  }

  /** A 180 lb, 70 in, 30 year old sedentary man: 2241 kcal to maintain, 1941 to lose at normal rate. */
  lemma WorkedExample()
    ensures Bmr("m", 180, 70, 30) == 1868.2
    ensures Target("m", 180, 70, 30, "sedentary", "maintain", "normal") == Some(2241)
    ensures Target("m", 180, 70, 30, "sedentary", "lose", "normal") == Some(1941)
  {
  }
}
