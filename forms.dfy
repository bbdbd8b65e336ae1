/**
 * The input domains of the web forms: choice sets, required fields and numeric ranges, as the
 * form validators accept them. A form's fields arrive as the values the form library parsed;
 * a field left empty is None.
 */
module Forms {
  import opened Common
  import Engine

  const GoalChoices: set<string> := {"lose", "maintain", "gain"}
  /** The activity values the goals form offers as written; "lightly active" is not an engine spelling. */
  const SignupActivityChoicesAsWritten: set<string> := {"sedentary", "lightly active", "active"}
  /** The activity values of the edit form; the goals form uses them too in this model. */
  const ActivityChoices: set<string> := {"sedentary", "light", "active"}
  const RateChoices: set<string> := {"fast", "normal", "slow"}
  const SexChoices: set<string> := {"m", "f"}
  const UnitChoices: set<string> := {"imp", "met"}
  const DietChoices: set<string> := {"vegan", "veg", "gf"}

  /** Characters that str.strip() removes, restricted to ASCII. */
  predicate IsSpace(c: char) {
    c == ' ' || c == '\t' || c == '\n' || c == '\r' || c == '\U{000B}' || c == '\U{000C}'
  }

  /** DataRequired on a text field: something other than white space was entered. */
  predicate Filled(s: string) {
    exists i :: 0 <= i < |s| && !IsSpace(s[i])
  }

  /** DataRequired on a float field: present and not 0.0, which the validator treats as missing. */
  predicate FloatRequired(x: Option<real>) {
    x.Some? && x.value != 0.0
  }

  /** DataRequired with NumberRange(min=lo, max=hi) on an integer field: both bounds inclusive. */
  predicate IntInRange(x: Option<int>, lo: int, hi: int) {
    x.Some? && lo <= x.value <= hi
  }

  /** A radio field with Optional(): left empty, or one of the choices. */
  predicate OptionalChoice(x: Option<string>, choices: set<string>) {
    x.None? || x.value in choices
  }

  /** The three range checks on the birth date fields; the day is checked apart from the month. */
  predicate BirthFieldsInRange(year: Option<int>, month: Option<int>, day: Option<int>) {
    IntInRange(year, 1850, 2004) && IntInRange(month, 1, 12) && IntInRange(day, 1, 31)
  }

  /** Gregorian leap years, as Python's date uses them. */
  predicate IsLeapYear(year: int) {
    year % 4 == 0 && (year % 100 != 0 || year % 400 == 0)
  }

  function DaysInMonth(year: int, month: int): int {
    if month == 2 then (if IsLeapYear(year) then 29 else 28)
    else if month == 4 || month == 6 || month == 9 || month == 11 then 30
    else 31
  }

  /** The dates Python's date(year, month, day) constructs without raising ValueError. */
  predicate IsCalendarDate(year: int, month: int, day: int) {
    1 <= year <= 9999 && 1 <= month <= 12 && 1 <= day <= DaysInMonth(year, month)
  }

  // ---------------------------------------------------------------------------------------------
  // The forms

  /** AddUserForm: the goals page filled in before signing up. */
  datatype GoalsForm = GoalsForm(
    goal: string, activity: string,
    year: Option<int>, month: Option<int>, day: Option<int>,
    unit: string, weight: Option<real>, goalWeight: Option<real>, rate: string,
    height: Option<real>, dietType: Option<string>, budget: Option<real>)

  /** Every field check of the goals form, the activity checked against `activities`. */
  predicate GoalsFieldsValid(f: GoalsForm, activities: set<string>) {
    && f.goal in GoalChoices
    && f.activity in activities
    && BirthFieldsInRange(f.year, f.month, f.day)
    && f.unit in UnitChoices
    && FloatRequired(f.weight)
    && FloatRequired(f.goalWeight)
    && f.rate in RateChoices
    && FloatRequired(f.height)
    && OptionalChoice(f.dietType, DietChoices)
  }

  /** The goals form's validation as written: "lightly active", and no check that the date exists. */
  predicate ValidGoalsFormAsWritten(f: GoalsForm) {
    GoalsFieldsValid(f, SignupActivityChoicesAsWritten)
  }

  /** The goals form's validation as the rest of the model uses it: engine spellings, real dates. */
  predicate ValidGoalsForm(f: GoalsForm) {
    GoalsFieldsValid(f, ActivityChoices) && IsCalendarDate(f.year.value, f.month.value, f.day.value)
  }

  function BirthDate(f: GoalsForm): Engine.Date
    requires f.year.Some? && f.month.Some? && f.day.Some?
  {
    Engine.Date(f.year.value, f.month.value, f.day.value)
  }

  /** EditUserForm: profile edit. */
  datatype EditUserForm = EditUserForm(
    email: string, goal: string, activity: string, unit: string,
    weight: Option<real>, goalWeight: Option<real>, rate: string,
    dietType: Option<string>, budget: Option<real>)

  predicate ValidEditUserForm(f: EditUserForm) {
    && Filled(f.email)
    && f.goal in GoalChoices
    && f.activity in ActivityChoices
    && f.unit in UnitChoices
    && FloatRequired(f.weight)
    && FloatRequired(f.goalWeight)
    && f.rate in RateChoices
    && OptionalChoice(f.dietType, DietChoices)
  }

  datatype LoginForm = LoginForm(email: string, password: string)

  predicate ValidLoginForm(f: LoginForm) {
    Filled(f.email) && |f.password| >= 6 && Filled(f.password)
  }

  datatype SignUpForm = SignUpForm(name: string, sex: string, email: string, password: string, confirm: string)

  predicate ValidSignUpForm(f: SignUpForm) {
    && Filled(f.name)
    && f.sex in SexChoices
    && Filled(f.email)
    && |f.password| >= 6 && Filled(f.password) && f.password == f.confirm
  }

  datatype EditUserWeightForm = EditUserWeightForm(unit: string, weight: Option<real>)

  predicate ValidEditUserWeightForm(f: EditUserWeightForm) {
    f.unit in UnitChoices && FloatRequired(f.weight)
  }

  // ---------------------------------------------------------------------------------------------
  // What the domains guarantee the engine

  /** The goal and rate choices are the engine's spellings; the edit activities are too, the goals form's are not. */
  lemma ChoicesAgainstEngine()
    ensures GoalChoices == Engine.GoalNames && RateChoices == Engine.RateNames
    ensures ActivityChoices == Engine.ActivityNames
    ensures "lightly active" in SignupActivityChoicesAsWritten && "lightly active" !in Engine.ActivityNames
  {
  }

  /** A goals form accepted as written with "lightly active" gets the bare goal offset as its target. */
  lemma {:induction false} LightlyActiveGetsBareOffset(f: GoalsForm, sex: string, weight: int, height: int, age: int)
    requires ValidGoalsFormAsWritten(f) && f.activity == "lightly active"
    ensures Engine.ParseGoal(f.goal).Some? && Engine.ParseRate(f.rate).Some?
    ensures Engine.Target(sex, weight, height, age, f.activity, f.goal, f.rate)
         == Some(Engine.Adjustment(Engine.ParseGoal(f.goal).value, Engine.ParseRate(f.rate).value))
  {
    var g, r := Engine.ParseGoal(f.goal).value, Engine.ParseRate(f.rate).value;
    Engine.UnmatchedActivityGivesBareOffset(sex, weight, height, age, f.activity, g, r);
  }

  /** Every goals form the model accepts gets the reference target, with a real activity multiplier. */
  lemma {:induction false} AcceptedGoalsHaveReferenceTarget(f: GoalsForm, sex: string, weight: int, height: int, age: int)
    requires ValidGoalsForm(f)
    ensures Engine.ParseActivity(f.activity).Some?
    ensures Engine.ParseGoal(f.goal).Some? && Engine.ParseRate(f.rate).Some?
    ensures Engine.Target(sex, weight, height, age, f.activity, f.goal, f.rate)
         == Some(Engine.ReferenceTarget(sex, weight, height, age, Engine.ParseActivity(f.activity).value,
                                        Engine.ParseGoal(f.goal).value, Engine.ParseRate(f.rate).value))
  {
    var a, g, r := Engine.ParseActivity(f.activity).value, Engine.ParseGoal(f.goal).value, Engine.ParseRate(f.rate).value;
    Engine.TargetMatchesReference(sex, weight, height, age, a, g, r);
  }

  /** Every accepted profile edit gets the reference target, with a real activity multiplier. */
  lemma {:induction false} AcceptedEditHasReferenceTarget(f: EditUserForm, sex: string, weight: int, height: int, age: int)
    requires ValidEditUserForm(f)
    ensures Engine.ParseActivity(f.activity).Some?
    ensures Engine.ParseGoal(f.goal).Some? && Engine.ParseRate(f.rate).Some?
    ensures Engine.Target(sex, weight, height, age, f.activity, f.goal, f.rate)
         == Some(Engine.ReferenceTarget(sex, weight, height, age, Engine.ParseActivity(f.activity).value,
                                        Engine.ParseGoal(f.goal).value, Engine.ParseRate(f.rate).value))
  {
    var a, g, r := Engine.ParseActivity(f.activity).value, Engine.ParseGoal(f.goal).value, Engine.ParseRate(f.rate).value;
    Engine.TargetMatchesReference(sex, weight, height, age, a, g, r);
  }

  /** A goals form with a 31 February birth date. */
  const February31: GoalsForm := GoalsForm("maintain", "sedentary", Some(2001), Some(2), Some(31),
                                           "imp", Some(180.0), Some(170.0), "normal", Some(70.0), None, None)

  /** The range checks let 31 February through; date(2001, 2, 31) then raises. */
  lemma February31PassesAsWritten()
    ensures ValidGoalsFormAsWritten(February31)
    ensures !IsCalendarDate(2001, 2, 31)
    ensures !ValidGoalsForm(February31)
  {
  }

  /** An accepted goals form always names a date that exists, so the age can be computed from it. */
  lemma AcceptedBirthDateIsCalendarDate(f: GoalsForm)
    requires ValidGoalsForm(f)
    ensures f.year.Some? && f.month.Some? && f.day.Some?
    ensures 1 <= f.day.value <= DaysInMonth(f.year.value, f.month.value)
    ensures f.month.value == 2 ==> f.day.value <= 29
  {
  }
}
