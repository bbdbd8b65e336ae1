/**
 * The request handlers around the tables: the goals-to-signup hand-off through the session, the
 * profile and weight edits, the recipe-detail-to-confirmation hand-off, meal deletion, the diet
 * filter of the recipe search and the price taken from the catalog's cost. The catalog's answers
 * arrive as parameters; the column coercion of a float into an integer column is the parameter
 * `column`, and password hashing the parameter `hash`.
 */
module Handlers {
  import opened Common
  import Engine
  import Forms
  import opened Store

  /** A value held in the session dictionary. */
  datatype Value = IntV(i: int) | RealV(x: real) | StrV(s: string) | NoneV | NutritionV(n: Nutrition)

  /** The session key that holds the logged-in user's id. */
  const CurrUserKey: string := "curr_user"

  /** The browser session: a dictionary that handlers read, fill and clear. */
  class Session {
    var store: map<string, Value>

    constructor ()
      ensures store == map[]
    {
      store := map[];
    }
  }

  /** The logged-in user's id, if the session holds one. */
  function CurrentUser(store: map<string, Value>): Option<int> {
    if CurrUserKey in store && store[CurrUserKey].IntV? then Some(store[CurrUserKey].i) else None
  }

  /**
   * The login page: an accepted form whose email and password authenticate logs that user in;
   * anything else leaves the session as it was.
   */
  method Login(db: Database, session: Session, form: Forms.LoginForm, check: (string, string) -> bool)
    returns (r: Result<int>)
    requires db.Valid()
    modifies session
    ensures !Forms.ValidLoginForm(form) ==> r == Err(InvalidForm)
    ensures Forms.ValidLoginForm(form) && r.Err? ==>
              r == Err(InvalidCredentials)
              && forall id :: id in db.users && db.users[id].email == form.email ==> !check(db.users[id].password, form.password)
    ensures r.Err? ==> session.store == old(session.store)
    ensures r.Ok? ==>
              && Forms.ValidLoginForm(form)
              && r.value in db.users && db.users[r.value].email == form.email
              && check(db.users[r.value].password, form.password)
              && session.store == old(session.store)[CurrUserKey := IntV(r.value)]
              && CurrentUser(session.store) == Some(r.value)
  {
    if !Forms.ValidLoginForm(form) {
      return Err(InvalidForm);
    }
    var user := db.Authenticate(form.email, form.password, check);
    if user.None? {
      return Err(InvalidCredentials);
    }
    session.store := session.store[CurrUserKey := IntV(user.value.id)];
    r := Ok(user.value.id);
  }

  // ---------------------------------------------------------------------------------------------
  // Unit conversion and column coercion

  /** Weight in pounds: kilograms times 2.205 for the metric unit, the number as given otherwise. */
  function ToPounds(unit: string, weight: real): (lb: real)
    ensures unit == "met" ==> lb / 2.205 == weight
    ensures unit != "met" ==> lb == weight
    ensures 0.0 <= weight ==> weight <= lb
  {
    if unit == "met" then weight * 2.205 else weight
  }

  /** Height in inches: centimetres divided by 2.54 for the metric unit, the number as given otherwise. */
  function ToInches(unit: string, height: real): (inches: real)
    ensures unit == "met" ==> inches * 2.54 == height
    ensures unit != "met" ==> inches == height
    ensures 0.0 <= height ==> 0.0 <= inches <= height
  {
    if unit == "met" then height / 2.54 else height
  }

  /** A nullable float stored into a nullable integer column. */
  function ColumnOpt(column: real -> int, x: Option<real>): Option<int> {
    match x
    case None => None
    case Some(v) => Some(column(v))
  }

  // ---------------------------------------------------------------------------------------------
  // Goals to signup: the scratch keys

  const ScratchKeys: set<string> :=
    {"age", "goal", "goal_weight", "activity", "height", "weight", "rate", "diet_type", "budget", "unit"}

  /** What the goals page leaves in the session for the signup page. */
  datatype Scratch = Scratch(
    age: int, goal: string, goalWeight: real, activity: string, height: real, weight: real,
    rate: string, dietType: Option<string>, budget: Option<real>, unit: string)

  function OptionalText(x: Option<string>): Value {
    match x
    case None => NoneV
    case Some(s) => StrV(s)
  }

  function OptionalNumber(x: Option<real>): Value {
    match x
    case None => NoneV
    case Some(v) => RealV(v)
  }

  function ScratchEntries(s: Scratch): map<string, Value> {
    map["age" := IntV(s.age), "goal" := StrV(s.goal), "goal_weight" := RealV(s.goalWeight),
        "activity" := StrV(s.activity), "height" := RealV(s.height), "weight" := RealV(s.weight),
        "rate" := StrV(s.rate), "diet_type" := OptionalText(s.dietType),
        "budget" := OptionalNumber(s.budget), "unit" := StrV(s.unit)]
  }

  /** The scratch the signup page reads back, if all ten keys hold values of the right kind. */
  function ReadScratch(store: map<string, Value>): (s: Option<Scratch>)
    ensures s.Some? ==> forall k :: k in ScratchKeys ==> k in store
  {
    if && "age" in store && store["age"].IntV?
       && "goal" in store && store["goal"].StrV?
       && "goal_weight" in store && store["goal_weight"].RealV?
       && "activity" in store && store["activity"].StrV?
       && "height" in store && store["height"].RealV?
       && "weight" in store && store["weight"].RealV?
       && "rate" in store && store["rate"].StrV?
       && "diet_type" in store && (store["diet_type"].StrV? || store["diet_type"].NoneV?)
       && "budget" in store && (store["budget"].RealV? || store["budget"].NoneV?)
       && "unit" in store && store["unit"].StrV?
    then
      Some(Scratch(
        store["age"].i, store["goal"].s, store["goal_weight"].x, store["activity"].s,
        store["height"].x, store["weight"].x, store["rate"].s,
        if store["diet_type"].StrV? then Some(store["diet_type"].s) else None,
        if store["budget"].RealV? then Some(store["budget"].x) else None,
        store["unit"].s))
    else None
  }

  /** Whatever the session held before, writing a scratch and reading it back gives that scratch. */
  lemma ScratchRoundTrip(store: map<string, Value>, s: Scratch)
    ensures ReadScratch(store + ScratchEntries(s)) == Some(s)
  {
  }

  /** Once the scratch keys are deleted there is no scratch left to sign up with. */
  lemma ScratchCleared(store: map<string, Value>, k: string, v: Value)
    requires k !in ScratchKeys
    ensures ReadScratch((store - ScratchKeys)[k := v]) == None
  {
    assert "age" !in (store - ScratchKeys)[k := v];
  }

  /** The scratch an accepted goals form leaves, with the age computed from its birth date. */
  function ScratchOf(f: Forms.GoalsForm, age: int): Scratch
    requires f.weight.Some? && f.goalWeight.Some? && f.height.Some?
  {
    Scratch(age, f.goal, f.goalWeight.value, f.activity, f.height.value, f.weight.value,
            f.rate, f.dietType, f.budget, f.unit)
  }

  /** The goals page: an accepted form leaves its values and the computed age in the session. */
  method Goals(session: Session, form: Forms.GoalsForm, today: Engine.Date) returns (r: Result<int>)
    modifies session
    ensures !Forms.ValidGoalsForm(form) ==> r == Err(InvalidForm) && session.store == old(session.store)
    ensures Forms.ValidGoalsForm(form) ==>
              && r == Ok(Engine.CalculateAge(today, Forms.BirthDate(form)))
              && session.store == old(session.store) + ScratchEntries(ScratchOf(form, r.value))
              && ReadScratch(session.store) == Some(ScratchOf(form, r.value))
  {
    if !Forms.ValidGoalsForm(form) {
      return Err(InvalidForm);
    }
    var age := Engine.CalculateAge(today, Forms.BirthDate(form));
    ScratchRoundTrip(session.store, ScratchOf(form, age));
    session.store := session.store + ScratchEntries(ScratchOf(form, age));
    r := Ok(age);
  }

  /** The row signup stores for a scratch: metric values converted, every value coerced to its column. */
  function SignupRow(id: int, form: Forms.SignUpForm, s: Scratch, hash: string -> string, column: real -> int): User {
    User(id, form.email, hash(form.password), form.name, form.sex, s.unit, s.age, s.goal, s.activity,
         column(ToPounds(s.unit, s.weight)), column(ToPounds(s.unit, s.goalWeight)),
         column(ToInches(s.unit, s.height)), s.rate, s.dietType, ColumnOpt(column, s.budget))
  }

  /**
   * The signup page: the user and its calorie row are created from the form and the scratch;
   * only then are the scratch keys deleted and the user logged in. A failure leaves the tables
   * and the session, scratch included, as they were.
   */
  method Signup(db: Database, session: Session, form: Forms.SignUpForm, hash: string -> string, column: real -> int)
    returns (r: Result<int>)
    requires db.Valid()
    modifies db, session
    ensures db.Valid()
    ensures r == (if !Forms.ValidSignUpForm(form) then Err(InvalidForm)
                  else if ReadScratch(old(session.store)).None? then Err(MissingScratch)
                  else if EmailInUse(old(db.users), form.email) then Err(DuplicateEmail)
                  else if TargetOf(SignupRow(old(db.nextUserId), form, ReadScratch(old(session.store)).value, hash, column)).None?
                  then Err(NoTarget)
                  else Ok(old(db.nextUserId)))
    ensures r.Err? ==> session.store == old(session.store) && unchanged(db)
    ensures r.Ok? ==>
              && ReadScratch(old(session.store)).Some?
              && r.value == old(db.nextUserId)
              && db.users == old(db.users)[r.value := SignupRow(r.value, form, ReadScratch(old(session.store)).value, hash, column)]
              && db.calories == old(db.calories)[r.value := TargetOf(db.users[r.value]).value]
              && db.meals == old(db.meals)
              && session.store == (old(session.store) - ScratchKeys)[CurrUserKey := IntV(r.value)]
              && ReadScratch(session.store) == None
  {
    if !Forms.ValidSignUpForm(form) {
      return Err(InvalidForm);
    }
    var scratch := ReadScratch(session.store);
    if scratch.None? {
      return Err(MissingScratch);
    }
    var s := scratch.value;
    r := db.Signup(form.email, form.password, form.name, s.unit, form.sex, s.age, s.goal,
                   column(ToPounds(s.unit, s.goalWeight)), s.activity, column(ToInches(s.unit, s.height)),
                   column(ToPounds(s.unit, s.weight)), s.rate, s.dietType, ColumnOpt(column, s.budget), hash);
    if r.Ok? {
      ScratchCleared(session.store, CurrUserKey, IntV(r.value));
      session.store := (session.store - ScratchKeys)[CurrUserKey := IntV(r.value)];
    }
  }

  /** The scratch an accepted goals form leaves always yields a target: signup never fails for want of one. */
  lemma {:induction false} GoalsScratchHasTarget(f: Forms.GoalsForm, age: int, id: int, form: Forms.SignUpForm,
                                                 hash: string -> string, column: real -> int)
    requires Forms.ValidGoalsForm(f)
    ensures TargetOf(SignupRow(id, form, ScratchOf(f, age), hash, column)).Some?
  {
    var u := SignupRow(id, form, ScratchOf(f, age), hash, column);
    Forms.AcceptedGoalsHaveReferenceTarget(f, u.sex, u.weight, u.height, u.age);
  }

  // ---------------------------------------------------------------------------------------------
  // Profile and weight edits

  /** The user row a profile edit writes: the form's choices, its weights converted from its unit. */
  function EditedUser(u: User, form: Forms.EditUserForm, column: real -> int): User
    requires form.weight.Some? && form.goalWeight.Some?
  {
    u.(goal := form.goal, activity := form.activity, rate := form.rate, dietType := form.dietType,
       budget := ColumnOpt(column, form.budget), email := form.email,
       weight := column(ToPounds(form.unit, form.weight.value)),
       goalWeight := column(ToPounds(form.unit, form.goalWeight.value)))
  }

  /**
   * The profile edit: goal, activity, rate, diet type, budget, email, weight and goal weight come
   * from the form, weights converted from the form's unit; the target is recomputed. An accepted
   * form always has a target, so only an unknown user, a rejected form or an email another user
   * holds make it fail; height, age and sex are never touched.
   */
  method Edit(db: Database, userId: int, form: Forms.EditUserForm, column: real -> int) returns (r: Result<int>)
    requires db.Valid()
    modifies db
    ensures db.Valid()
    ensures r.Err? <==> userId !in old(db.users) || !Forms.ValidEditUserForm(form)
                        || EmailUsedByOther(old(db.users), form.email, userId)
    ensures userId !in old(db.users) ==> r == Err(NotFound)
    ensures userId in old(db.users) && !Forms.ValidEditUserForm(form) ==> r == Err(InvalidForm)
    ensures userId in old(db.users) && Forms.ValidEditUserForm(form) && EmailUsedByOther(old(db.users), form.email, userId)
            ==> r == Err(DuplicateEmail)
    ensures r.Err? ==> unchanged(db)
    ensures r.Ok? ==>
              && Forms.ValidEditUserForm(form)
              && db.users == old(db.users)[userId := EditedUser(old(db.users)[userId], form, column)]
              && db.calories == old(db.calories)[userId := r.value]
              && Some(r.value) == TargetOf(db.users[userId])
              && db.meals == old(db.meals)
    ensures r.Ok? ==> && db.users[userId].height == old(db.users)[userId].height
                      && db.users[userId].age == old(db.users)[userId].age
                      && db.users[userId].sex == old(db.users)[userId].sex
  {
    if userId !in db.users {
      return Err(NotFound);
    }
    if !Forms.ValidEditUserForm(form) {
      return Err(InvalidForm);
    }
    var u := EditedUser(db.users[userId], form, column);
    Forms.AcceptedEditHasReferenceTarget(form, u.sex, u.weight, u.height, u.age);
    r := db.UpdateProfile(userId, form.email, form.goal, form.activity, form.rate, form.dietType,
                          ColumnOpt(column, form.budget), column(ToPounds(form.unit, form.weight.value)),
                          column(ToPounds(form.unit, form.goalWeight.value)));
  }

  /** The weight edit: only the weight changes, converted from the form's unit; the target is recomputed. */
  method EditWeight(db: Database, userId: int, form: Forms.EditUserWeightForm, column: real -> int)
    returns (r: Result<int>)
    requires db.Valid()
    modifies db
    ensures db.Valid()
    ensures userId !in old(db.users) ==> r == Err(NotFound)
    ensures userId in old(db.users) && !Forms.ValidEditUserWeightForm(form) ==> r == Err(InvalidForm)
    ensures r.Err? <==> userId !in old(db.users) || !Forms.ValidEditUserWeightForm(form)
    ensures r.Err? ==> unchanged(db)
    ensures r.Ok? ==>
              && db.users == old(db.users)[userId := old(db.users)[userId].(weight := column(ToPounds(form.unit, form.weight.value)))]
              && db.calories == old(db.calories)[userId := r.value]
              && r.value == TargetOf(db.users[userId]).value
              && db.meals == old(db.meals)
  {
    if userId !in db.users {
      return Err(NotFound);
    }
    if !Forms.ValidEditUserWeightForm(form) {
      return Err(InvalidForm);
    }
    var u := db.users[userId];
    var weight := column(ToPounds(form.unit, form.weight.value));
    // Whether a target exists does not depend on the weight, and the stored user has one.
    Engine.TargetDefinedness(u.sex, u.weight, u.height, u.age, u.activity, u.goal, u.rate);
    Engine.TargetDefinedness(u.sex, weight, u.height, u.age, u.activity, u.goal, u.rate);
    r := db.UpdateWeight(userId, weight);
  }

  // ---------------------------------------------------------------------------------------------
  // Recipe detail to meal confirmation

  /** What the recipe catalog answers for one recipe: its title, nutrition and total cost in cents. */
  datatype RecipeDetail = RecipeDetail(title: string, nutrition: Nutrition, totalCost: real)

  /** What the detail page leaves in the session for the confirmation. */
  datatype Selection = Selection(price: real, title: string, nutrition: Nutrition)

  const SelectionKeys: set<string> := {"price", "meal_title", "nut_details"}

  function SelectionEntries(sel: Selection): map<string, Value> {
    map["price" := RealV(sel.price), "meal_title" := StrV(sel.title), "nut_details" := NutritionV(sel.nutrition)]
  }

  function ReadSelection(store: map<string, Value>): (sel: Option<Selection>)
    ensures sel.Some? ==> forall k :: k in SelectionKeys ==> k in store
  {
    if && "price" in store && store["price"].RealV?
       && "meal_title" in store && store["meal_title"].StrV?
       && "nut_details" in store && store["nut_details"].NutritionV?
    then Some(Selection(store["price"].x, store["meal_title"].s, store["nut_details"].n))
    else None
  }

  lemma SelectionRoundTrip(store: map<string, Value>, sel: Selection)
    ensures ReadSelection(store + SelectionEntries(sel)) == Some(sel)
  {
  }

  /** int(totalCost) / 100: the cost in cents truncated to whole cents, in currency units. */
  function PriceFromCost(totalCost: real): (price: real)
    ensures (price * 100.0).Floor as real == price * 100.0
    ensures 0.0 <= totalCost ==> 0.0 <= price && price * 100.0 <= totalCost < price * 100.0 + 1.0
    ensures totalCost < 0.0 ==> price <= 0.0 && totalCost <= price * 100.0 < totalCost + 1.0
  {
    Engine.Trunc(totalCost) as real / 100.0
  }

  /** The detail page: for a logged-in user, the recipe's price, title and nutrition go to the session. */
  method ShowMealDetails(db: Database, session: Session, detail: RecipeDetail) returns (r: Result<Selection>)
    modifies session
    ensures CurrentUser(old(session.store)).None? ==> r == Err(NotLoggedIn)
    ensures CurrentUser(old(session.store)).Some? && CurrentUser(old(session.store)).value !in db.users
            ==> r == Err(NotFound)
    ensures r.Ok? <==> CurrentUser(old(session.store)).Some? && CurrentUser(old(session.store)).value in db.users
    ensures r.Err? ==> session.store == old(session.store)
    ensures r.Ok? ==>
              && r.value == Selection(PriceFromCost(detail.totalCost), detail.title, detail.nutrition)
              && session.store == old(session.store) + SelectionEntries(r.value)
              && ReadSelection(session.store) == Some(r.value)
  {
    var user := CurrentUser(session.store);
    if user.None? {
      return Err(NotLoggedIn);
    }
    if user.value !in db.users {
      return Err(NotFound);
    }
    var sel := Selection(PriceFromCost(detail.totalCost), detail.title, detail.nutrition);
    SelectionRoundTrip(session.store, sel);
    session.store := session.store + SelectionEntries(sel);
    r := Ok(sel);
  }

  /** The meal a confirmation stores: the id from the URL, everything else from the last detail viewed. */
  function MealFrom(mealId: int, sel: Selection, userId: int, timestamp: int): Meal {
    Meal(mealId, sel.title, sel.nutrition.calories, sel.nutrition.protein, sel.nutrition.fat,
         sel.nutrition.carbs, sel.price, userId, timestamp)
  }

  /**
   * The confirmation: a meal with the recipe id of the URL and the values the last detail page
   * captured is logged for the current user. The session is only read: the captured values stay.
   */
  method AddMeal(db: Database, session: Session, mealId: int) returns (r: Result<int>)
    requires db.Valid()
    modifies db
    ensures db.Valid()
    ensures r == (if CurrentUser(session.store).None? then Err(NotLoggedIn)
                  else if CurrentUser(session.store).value !in old(db.users) then Err(NotFound)
                  else if ReadSelection(session.store).None? then Err(NoPendingSelection)
                  else if mealId in old(db.meals) then Err(DuplicateMeal)
                  else Ok(mealId))
    ensures r.Ok? ==> db.meals == old(db.meals)[mealId := MealFrom(mealId, ReadSelection(session.store).value,
                                                                 CurrentUser(session.store).value, db.loadTime)]
    ensures r.Err? ==> db.meals == old(db.meals)
    ensures db.users == old(db.users) && db.calories == old(db.calories) && db.nextUserId == old(db.nextUserId)
  {
    var user := CurrentUser(session.store);
    if user.None? {
      return Err(NotLoggedIn);
    }
    if user.value !in db.users {
      return Err(NotFound);
    }
    var sel := ReadSelection(session.store);
    if sel.None? {
      return Err(NoPendingSelection);
    }
    r := db.InsertMeal(mealId, user.value, sel.value.title, sel.value.nutrition, sel.value.price);
  }

  /** Meal deletion by id, for the logged-in owner of the meal. */
  method DeleteMeals(db: Database, session: Session, mealId: int) returns (r: Result<int>)
    requires db.Valid()
    modifies db
    ensures db.Valid()
    ensures r == (if CurrentUser(session.store).None? then Err(NotLoggedIn)
                  else if CurrentUser(session.store).value !in old(db.users) then Err(NotFound)
                  else if mealId !in old(db.meals) then Err(NoSuchMeal)
                  else if old(db.meals)[mealId].userId != CurrentUser(session.store).value then Err(NotOwner)
                  else Ok(mealId))
    ensures r.Ok? ==> db.meals == old(db.meals) - {mealId}
    ensures r.Err? ==> db.meals == old(db.meals)
    ensures db.users == old(db.users) && db.calories == old(db.calories) && db.nextUserId == old(db.nextUserId)
    ensures forall k :: k in old(db.meals) && Some(old(db.meals)[k].userId) != CurrentUser(session.store)
                        ==> k in db.meals && db.meals[k] == old(db.meals)[k]
  {
    var user := CurrentUser(session.store);
    if user.None? {
      return Err(NotLoggedIn);
    }
    if user.value !in db.users {
      return Err(NotFound);
    }
    r := db.DeleteMeal(user.value, mealId);
  }

  /**
   * delete_meals as written: the meal with the id goes whoever owns it, and a missing id makes
   * the delete raise (None). The logged-in user only has to exist.
   */
  function DeleteMealsAsWritten(meals: map<int, Meal>, userId: int, mealId: int): (r: Option<map<int, Meal>>)
    ensures r.Some? <==> mealId in meals
    ensures r.Some? ==> r.value.Keys == meals.Keys - {mealId}
                        && forall k :: k in r.value ==> r.value[k] == meals[k]
  {
    if mealId in meals then Some(meals - {mealId}) else None
  }

  /** A meal that user 2 logged. */
  const SomeoneElsesMeal: Meal := Meal(716429, "Pasta", 584, "21g", "16g", "83g", 3.45, 2, 0)

  /** As written, user 1 deletes user 2's meal; the ownership check refuses it. */
  lemma AnyUserDeletesAnyMealAsWritten()
    ensures var meals := map[SomeoneElsesMeal.id := SomeoneElsesMeal];
            && DeleteMealsAsWritten(meals, 1, SomeoneElsesMeal.id).Some?
            && SomeoneElsesMeal.id !in DeleteMealsAsWritten(meals, 1, SomeoneElsesMeal.id).value
            && meals[SomeoneElsesMeal.id].userId != 1
  {
  }

  // ---------------------------------------------------------------------------------------------
  // Recipe search filter

  /** The restriction the recipe search sends: an intolerance, a diet, or nothing. */
  datatype DietQuery = NoFilter | Intolerance(name: string) | Diet(name: string)

  /** gf asks for gluten intolerance, vegan and veg for a diet; any other diet type searches unfiltered. */
  function DietFilter(dietType: Option<string>): (q: DietQuery)
    ensures q != NoFilter <==> dietType.Some? && dietType.value in Forms.DietChoices
  {
    if dietType == Some("gf") then Intolerance("gluten")
    else if dietType == Some("vegan") then Diet("vegan")
    else if dietType == Some("veg") then Diet("vegetarian")
    else NoFilter
  }

  /** Different diet choices never send the same filter. */
  lemma DietFilterDistinguishesChoices(a: string, b: string)
    requires a in Forms.DietChoices && b in Forms.DietChoices && a != b
    ensures DietFilter(Some(a)) != DietFilter(Some(b))
  {
  }
}
