/**
 * The users, calories and meals tables, and the row operations the handlers perform on them.
 * Each table is a map from its primary key; the class invariant holds the key, uniqueness and
 * foreign-key constraints, and that every stored calorie target is the engine's target for the
 * user's current attributes.
 */
module Store {
  import opened Common
  import Engine

  /** A row of users. The password column holds the hash of the password. */
  datatype User = User(
    id: int, email: string, password: string, name: string, sex: string, unit: string,
    age: int, goal: string, activity: string, weight: int, goalWeight: int, height: int,
    rate: string, dietType: Option<string>, budget: Option<int>)

  /** The calorie target the engine gives a user's stored attributes. */
  function TargetOf(u: User): Option<int> {
    Engine.Target(u.sex, u.weight, u.height, u.age, u.activity, u.goal, u.rate)
  }

  /** The nutrition figures of a recipe, as the recipe catalog reports them. */
  datatype Nutrition = Nutrition(calories: int, protein: string, fat: string, carbs: string)

  /** A row of meals. Its id is the recipe catalog's id; the timestamp is the column default. */
  datatype Meal = Meal(
    id: int, name: string, calories: int, protein: string, fat: string, carbohydrate: string,
    price: real, userId: int, timestamp: int)

  predicate EmailsUnique(users: map<int, User>) {
    forall i, j :: i in users && j in users && users[i].email == users[j].email ==> i == j
  }

  predicate EmailInUse(users: map<int, User>, email: string) {
    exists j :: j in users && users[j].email == email
  }

  predicate EmailUsedByOther(users: map<int, User>, email: string, self: int) {
    exists j :: j in users && j != self && users[j].email == email
  }

  // ---------------------------------------------------------------------------------------------
  // Totals over a user's meals

  /** The two meal columns the handlers add up. */
  datatype Column = CaloriesColumn | PriceColumn

  function Amount(m: Meal, c: Column): real {
    match c
    case CaloriesColumn => m.calories as real
    case PriceColumn => m.price
  }

  /** The ids of the meals a user owns: the user's meal relationship. */
  function MealsOf(meals: map<int, Meal>, userId: int): set<int> {
    set k | k in meals && meals[k].userId == userId
  }

  /** A set with no members is the empty set. */
  lemma EmptyIfNoMember(ids: set<int>)
    ensures (forall k :: k !in ids) ==> ids == {}
  {
    if forall k :: k !in ids {
      assert forall k :: k in ids <==> k in {};
    }
  }

  lemma NonEmptyHasMember(ids: set<int>)
    requires ids != {}
    ensures exists k :: k in ids
  {
    EmptyIfNoMember(ids);
  }

  /** The sum of a column over a set of meals, in no particular order. */
  ghost function SumOf(meals: map<int, Meal>, ids: set<int>, c: Column): real
    requires ids <= meals.Keys
    decreases ids
  {
    if ids == {} then 0.0
    else
      NonEmptyHasMember(ids);
      var k :| k in ids;
      Amount(meals[k], c) + SumOf(meals, ids - {k}, c)
  }

  /** What a user has logged, in calories or in money. */
  ghost function Consumed(meals: map<int, Meal>, userId: int, c: Column): real {
    SumOf(meals, MealsOf(meals, userId), c)
  }

  /** Any meal of the set can be taken out first: the sum does not depend on the order. */
  lemma {:induction false} SumOfRemove(meals: map<int, Meal>, ids: set<int>, k: int, c: Column)
    requires ids <= meals.Keys && k in ids
    ensures SumOf(meals, ids, c) == Amount(meals[k], c) + SumOf(meals, ids - {k}, c)
    decreases ids
  {
    var j :| j in ids && SumOf(meals, ids, c) == Amount(meals[j], c) + SumOf(meals, ids - {j}, c);
    if j != k {
      SumOfRemove(meals, ids - {j}, k, c);
      SumOfRemove(meals, ids - {k}, j, c);
      assert ids - {j} - {k} == ids - {k} - {j};
    }
  }

  /** The sum over a set of meals only reads those meals. */
  lemma {:induction false} SumOfFrame(m1: map<int, Meal>, m2: map<int, Meal>, ids: set<int>, c: Column)
    requires ids <= m1.Keys && ids <= m2.Keys
    requires forall k :: k in ids ==> m1[k] == m2[k]
    ensures SumOf(m1, ids, c) == SumOf(m2, ids, c)
    decreases ids
  {
    if ids != {} {
      NonEmptyHasMember(ids);
      var k :| k in ids;
      SumOfRemove(m1, ids, k, c);
      SumOfRemove(m2, ids, k, c);
      SumOfFrame(m1, m2, ids - {k}, c);
    }
  }

  /** Logging a meal adds exactly its amount to its owner's total and leaves everyone else's alone. */
  lemma {:induction false} ConsumedAfterInsert(meals: map<int, Meal>, m: Meal, userId: int, c: Column)
    requires m.id !in meals
    ensures Consumed(meals[m.id := m], userId, c)
         == Consumed(meals, userId, c) + (if m.userId == userId then Amount(m, c) else 0.0)
  {
    var after := meals[m.id := m];
    var before := MealsOf(meals, userId);
    SumOfFrame(meals, after, before, c);
    if m.userId == userId {
      assert MealsOf(after, userId) == before + {m.id};
      SumOfRemove(after, before + {m.id}, m.id, c);
      assert (before + {m.id}) - {m.id} == before;
    } else {
      assert MealsOf(after, userId) == before;
    }
  }

  /** Deleting a meal takes exactly its amount off its owner's total and leaves everyone else's alone. */
  lemma {:induction false} ConsumedAfterDelete(meals: map<int, Meal>, id: int, userId: int, c: Column)
    requires id in meals
    ensures Consumed(meals - {id}, userId, c)
         == Consumed(meals, userId, c) - (if meals[id].userId == userId then Amount(meals[id], c) else 0.0)
  {
    var after := meals - {id};
    var before := MealsOf(meals, userId);
    if meals[id].userId == userId {
      assert MealsOf(after, userId) == before - {id};
      SumOfRemove(meals, before, id, c);
      SumOfFrame(meals, after, before - {id}, c);
    } else {
      assert MealsOf(after, userId) == before;
      SumOfFrame(meals, after, before, c);
    }
  }

  // ---------------------------------------------------------------------------------------------
  // The database

  class Database {
    var users: map<int, User>
    /** The calories table: user id to daily calorie target. */
    var calories: map<int, int>
    var meals: map<int, Meal>
    /** The next value of the users id sequence. */
    var nextUserId: int
    /** The meal timestamp default, evaluated once when the models module is loaded. */
    const loadTime: int

    /** Users are keyed by their id, which the sequence has handed out, and no two share an email. */
    ghost predicate UsersValid()
      reads this
    {
      && 1 <= nextUserId
      && (forall id :: id in users ==> users[id].id == id && 1 <= id < nextUserId)
      && EmailsUnique(users)
    }

    /** One calorie row per user, holding the target of the user's current attributes. */
    ghost predicate TargetsCurrent()
      reads this
    {
      && calories.Keys == users.Keys
      && (forall id :: id in users ==> TargetOf(users[id]) == Some(calories[id]))
    }

    /** Meals are keyed by their id, each belongs to an existing user and carries the load-time stamp. */
    ghost predicate MealsValid()
      reads this
    {
      forall k :: k in meals ==> meals[k].id == k && meals[k].userId in users && meals[k].timestamp == loadTime
    }

    ghost predicate Valid()
      reads this
    {
      UsersValid() && TargetsCurrent() && MealsValid()
    }

    constructor (loadTime: int)
      ensures Valid()
      ensures users == map[] && calories == map[] && meals == map[] && this.loadTime == loadTime
    {
      users, calories, meals, nextUserId := map[], map[], map[], 1;
      this.loadTime := loadTime;
    }

    /**
     * User.signup followed by the calorie row: the new user gets the next id, the password hash,
     * and every other argument unchanged; its calorie row holds its target. A taken email or an
     * unbound target commits nothing.
     */
    method Signup(email: string, password: string, name: string, unit: string, sex: string, age: int,
                  goal: string, goalWeight: int, activity: string, height: int, weight: int,
                  rate: string, dietType: Option<string>, budget: Option<int>, hash: string -> string)
      returns (r: Result<int>)
      requires Valid()
      modifies this
      ensures Valid()
      ensures var u := User(old(nextUserId), email, hash(password), name, sex, unit, age, goal, activity,
                            weight, goalWeight, height, rate, dietType, budget);
              r == (if EmailInUse(old(users), email) then Err(DuplicateEmail)
                    else if TargetOf(u).None? then Err(NoTarget)
                    else Ok(u.id))
              && (r.Ok? ==> users == old(users)[u.id := u] && calories == old(calories)[u.id := TargetOf(u).value])
      ensures r.Ok? ==> nextUserId == old(nextUserId) + 1 && meals == old(meals)
      ensures r.Err? ==> unchanged(this)
    {
      if exists j :: j in users && users[j].email == email {
        return Err(DuplicateEmail);
      }
      var u := User(nextUserId, email, hash(password), name, sex, unit, age, goal, activity,
                    weight, goalWeight, height, rate, dietType, budget);
      var target := TargetOf(u);
      if target.None? {
        return Err(NoTarget);
      }
      users := users[u.id := u];
      calories := calories[u.id := target.value];
      nextUserId := nextUserId + 1;
      r := Ok(u.id);
    }

    /**
     * User.authenticate: the user with this email, when there is one and the password checks
     * against its stored hash; None otherwise.
     */
    method Authenticate(email: string, password: string, check: (string, string) -> bool)
      returns (r: Option<User>)
      requires Valid()
      ensures r.Some? ==> r.value.id in users && users[r.value.id] == r.value
      ensures r.Some? ==> r.value.email == email && check(r.value.password, password)
      ensures r.None? ==> forall id :: id in users && users[id].email == email ==> !check(users[id].password, password)
    {
      if exists j :: j in users && users[j].email == email {
        var j :| j in users && users[j].email == email;
        if check(users[j].password, password) {
          return Some(users[j]);
        }
      }
      return None;
    }

    /**
     * The profile edit: goal, activity, rate, diet type, budget, email, weight and goal weight
     * are replaced, the target is recomputed and stored. Name, sex, unit, age and height stay.
     */
    method UpdateProfile(userId: int, email: string, goal: string, activity: string, rate: string,
                         dietType: Option<string>, budget: Option<int>, weight: int, goalWeight: int)
      returns (r: Result<int>)
      requires Valid()
      modifies this
      ensures Valid()
      ensures userId !in old(users) ==> r == Err(NotFound)
      ensures userId in old(users) ==>
                var u := old(users)[userId].(goal := goal, activity := activity, rate := rate, dietType := dietType,
                                             budget := budget, email := email, weight := weight, goalWeight := goalWeight);
                r == (if EmailUsedByOther(old(users), email, userId) then Err(DuplicateEmail)
                      else if TargetOf(u).None? then Err(NoTarget)
                      else Ok(TargetOf(u).value))
                && (r.Ok? ==> users == old(users)[userId := u] && calories == old(calories)[userId := r.value])
      ensures r.Ok? ==> meals == old(meals) && nextUserId == old(nextUserId)
      ensures r.Err? ==> unchanged(this)
    {
      if userId !in users {
        return Err(NotFound);
      }
      if exists j :: j in users && j != userId && users[j].email == email {
        return Err(DuplicateEmail);
      }
      var u := users[userId].(goal := goal, activity := activity, rate := rate, dietType := dietType,
                              budget := budget, email := email, weight := weight, goalWeight := goalWeight);
      var target := TargetOf(u);
      if target.None? {
        return Err(NoTarget);
      }
      users := users[userId := u];
      calories := calories[userId := target.value];
      r := Ok(target.value);
    }

    /** The weight edit: only the weight is replaced, then the target is recomputed and stored. */
    method UpdateWeight(userId: int, weight: int) returns (r: Result<int>)
      requires Valid()
      modifies this
      ensures Valid()
      ensures userId !in old(users) ==> r == Err(NotFound)
      ensures userId in old(users) ==>
                var u := old(users)[userId].(weight := weight);
                r == (if TargetOf(u).None? then Err(NoTarget) else Ok(TargetOf(u).value))
                && (r.Ok? ==> users == old(users)[userId := u] && calories == old(calories)[userId := r.value])
      ensures r.Ok? ==> meals == old(meals) && nextUserId == old(nextUserId)
      ensures r.Err? ==> unchanged(this)
    {
      if userId !in users {
        return Err(NotFound);
      }
      var u := users[userId].(weight := weight);
      var target := TargetOf(u);
      if target.None? {
        return Err(NoTarget);
      }
      users := users[userId := u];
      calories := calories[userId := target.value];
      r := Ok(target.value);
    }

    /** Inserts a meal under the recipe's id; an id already in the table is a primary key violation. */
    method InsertMeal(id: int, userId: int, name: string, n: Nutrition, price: real) returns (r: Result<int>)
      requires Valid()
      modifies this
      ensures Valid()
      ensures r == (if userId !in old(users) then Err(NotFound)
                    else if id in old(meals) then Err(DuplicateMeal)
                    else Ok(id))
      ensures r.Ok? ==> meals == old(meals)[id := Meal(id, name, n.calories, n.protein, n.fat, n.carbs, price, userId, loadTime)]
      ensures r.Err? ==> meals == old(meals)
      ensures users == old(users) && calories == old(calories) && nextUserId == old(nextUserId)
    {
      if userId !in users {
        return Err(NotFound);
      }
      if id in meals {
        return Err(DuplicateMeal);
      }
      meals := meals[id := Meal(id, name, n.calories, n.protein, n.fat, n.carbs, price, userId, loadTime)];
      r := Ok(id);
    }

    /** Deletes the meal with this id if the user owns it; every other meal stays as it was. */
    method DeleteMeal(userId: int, id: int) returns (r: Result<int>)
      requires Valid()
      modifies this
      ensures Valid()
      ensures r == (if id !in old(meals) then Err(NoSuchMeal)
                    else if old(meals)[id].userId != userId then Err(NotOwner)
                    else Ok(id))
      ensures r.Ok? ==> meals == old(meals) - {id}
      ensures r.Err? ==> meals == old(meals)
      ensures users == old(users) && calories == old(calories) && nextUserId == old(nextUserId)
    {
      if id !in meals {
        return Err(NoSuchMeal);
      }
      if meals[id].userId != userId {
        return Err(NotOwner);
      }
      meals := meals - {id};
      r := Ok(id);
    }

    /** The stored target less the calories of all the user's meals; negative once they exceed it. */
    method RemainingCalories(userId: int) returns (r: Result<int>)
      requires Valid()
      ensures userId !in users ==> r == Err(NotFound)
      ensures userId in users ==> r.Ok? && r.value as real == calories[userId] as real - Consumed(meals, userId, CaloriesColumn)
    {
      if userId !in users || userId !in calories {
        return Err(NotFound);
      }
      var todo := MealsOf(meals, userId);
      var total := 0;
      while todo != {}
        invariant todo <= MealsOf(meals, userId)
        invariant total as real + SumOf(meals, todo, CaloriesColumn) == Consumed(meals, userId, CaloriesColumn)
        decreases todo
      {
        var k :| k in todo;
        SumOfRemove(meals, todo, k, CaloriesColumn);
        total := total + meals[k].calories;
        todo := todo - {k};
      }
      r := Ok(calories[userId] - total);
    }

    /** The user's budget less the prices of all the user's meals; a NULL budget has no remainder. */
    method RemainingBudget(userId: int) returns (r: Result<real>)
      requires Valid()
      ensures userId !in users ==> r == Err(NotFound)
      ensures userId in users && users[userId].budget.None? ==> r == Err(NoBudget)
      ensures userId in users && users[userId].budget.Some? ==>
                r == Ok(users[userId].budget.value as real - Consumed(meals, userId, PriceColumn))
    {
      if userId !in users {
        return Err(NotFound);
      }
      var todo := MealsOf(meals, userId);
      var total := 0.0;
      while todo != {}
        invariant todo <= MealsOf(meals, userId)
        invariant total + SumOf(meals, todo, PriceColumn) == Consumed(meals, userId, PriceColumn)
        decreases todo
      {
        var k :| k in todo;
        SumOfRemove(meals, todo, k, PriceColumn);
        total := total + meals[k].price;
        todo := todo - {k};
      }
      if users[userId].budget.None? {
        return Err(NoBudget);
      }
      r := Ok(users[userId].budget.value as real - total);
    }
  }

  // ---------------------------------------------------------------------------------------------
  // Table constraints as consequences of the invariant

  /** Two users with the same email are the same user. */
  lemma EmailIdentifiesUser(d: Database, i: int, j: int)
    requires d.Valid()
    requires i in d.users && j in d.users && d.users[i].email == d.users[j].email
    ensures i == j
  {
  }

  /** Every meal has exactly one owner, an existing user, and the meal tables partition by owner. */
  lemma {:induction false} MealOwnersPartition(d: Database, k: int, u1: int, u2: int)
    requires d.Valid()
    requires k in MealsOf(d.meals, u1) && k in MealsOf(d.meals, u2)
    ensures u1 == u2 && u1 in d.users
  {
  }

  /** Logging a meal of c calories lowers the user's remaining calories by exactly c. */
  lemma {:induction false} LoggingLowersRemaining(calories: map<int, int>, meals: map<int, Meal>, m: Meal)
    requires m.id !in meals && m.userId in calories
    ensures calories[m.userId] as real - Consumed(meals[m.id := m], m.userId, CaloriesColumn)
         == calories[m.userId] as real - Consumed(meals, m.userId, CaloriesColumn) - m.calories as real
  {
    ConsumedAfterInsert(meals, m, m.userId, CaloriesColumn);
  }
}
