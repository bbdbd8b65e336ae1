# Calorie tracker core, modelled in Dafny

This project models the business logic of a small Flask calorie tracker:

- **The calorie target engine.** Signup, the profile edit and the weight edit each run the same engine. It computes a Harris-Benedict BMR by sex and an activity multiplier whose TDEE stays 0 for an unmatched activity. It then applies a ±175/300/500 offset by goal and rate, and stores `int(...)` of the result.
- **Age.** The age is computed from the birth date.
- **The three tables** (`users`, `calories`, `meals`). Each is a map keyed by its primary key. A class invariant holds the tables' constraints, and every stored target equals the engine's target for the user's current attributes.
- **The handlers that change them.** These cover signup, the two edits, logging a meal and deleting one. They also compute the remaining calories and the remaining budget.
- **The two session hand-offs.** The goals page hands off to signup, and the recipe detail page hands off to the meal confirmation.
- **The diet filter of the recipe search.**
- **The input domains of the web forms.**

Modules:

- `Common`: `Option`, `Result`, and the ways a handler ends without doing its work.
- `Engine`: `CalculateAge`, and truncation toward zero (`Trunc`). It has the engine on strings, exactly as the handlers branch (`Bmr`, `Tdee`, `DailyCalories`, `Target`). Its partner is a total reference engine on enumerations (`Activity`, `Goal`, `Rate`, `ReferenceTarget`), with lemmas relating the two.
- `Forms`: the choice sets and validator ranges of the five forms, and what they guarantee the engine.
- `Store`: the class `Database`, which holds the three tables and their invariant, the row operations, and the two remaining-amount loops. Sums over a user's meals are specified by `SumOf`/`Consumed` over sets of meal ids.
- `Handlers`: the class `Session` over a key/value dictionary, the route handlers, the unit conversions, the price taken from a recipe's cost, and the diet filter.

Things the program gets from outside are parameters:

- today's date;
- the recipe catalog's answer for a recipe;
- the password hash and hash check;
- the coercion of a float into an integer column.

## Model

| member | source | states |
|---|---|---|
| Engine.CalculateAge | app.py:83-85 | the age is the number of birthdays reached by today: the age-th anniversary is not after today, the next one is |
| Engine.AgeIsUnique | app.py:83-85 | exactly one integer satisfies that reading, so it determines the age |
| Engine.AgeYearDifference | app.py:83-85 | the age is the year difference less one exactly when today's (month, day) comes before the birth (month, day), and the full difference otherwise, the birthday included |
| Engine.Trunc | app.py:201 | int() on a float truncates toward zero: the result is within 1 below a non-negative value and within 1 above a negative one |
| Engine.Bmr | app.py:168-172 | the male Harris-Benedict formula for sex "m", the female formula for any other value; its behaviour is stated by Engine.TargetMonotoneInWeight, Engine.TargetAntitoneInAge and Engine.WorkedExample |
| Engine.Tdee | app.py:166-179 | an activity outside the three spellings leaves TDEE at 0; otherwise TDEE is BMR times the reference multiplier of the parsed activity (1.2, 1.4, 1.8) |
| Engine.Target | app.py:201 | the stored target is int() of the daily calories, absent where they are unbound; stated by Engine.TargetMatchesReference and Engine.TargetDefinedness |
| Engine.DailyCalories | app.py:181-198 | daily calories are bound exactly for maintain, or for lose/gain with one of the three rates |
| Engine.ParseActivity | app.py:174-179 | the three activity spellings the engine matches are exactly the names of the reference activities |
| Engine.ParseGoal | app.py:181-192 | the three goal spellings are exactly the names of the reference goals |
| Engine.ParseRate | app.py:185-190 | the three rate spellings are exactly the names of the reference rates |
| Engine.NamesRoundTrip | app.py:174-198 | parsing the name of an activity, goal or rate gives it back |
| Engine.TargetMatchesReference | app.py:166-201 | on the engine's spellings the stored target is int(BMR × multiplier ± offset) of the reference engine |
| Engine.UnmatchedActivityGivesBareOffset | app.py:166-179 | any activity outside sedentary/light/active leaves TDEE at 0, so the target is the bare offset |
| Engine.TargetDefinedness | app.py:181-198 | the target exists iff the goal is maintain, or lose/gain with a known rate |
| Engine.MaintainIgnoresRate | app.py:181-182 | maintain gives int(TDEE) whatever the rate |
| Engine.LoseGainSymmetric | app.py:184-198 | before truncation, the lose and gain calories of a rate are symmetric about the TDEE |
| Engine.StoredLoseGainSymmetric | app.py:184-201 | after truncation the stored lose and gain values of a rate are symmetric about int(TDEE), provided the lose value stays non-negative |
| Engine.TargetMonotoneInWeight | app.py:168-201 | with other inputs equal, a heavier user never gets a lower target |
| Engine.TargetAntitoneInAge | app.py:168-201 | with other inputs equal, an older user never gets a higher target |
| Engine.WorkedExample | app.py:168-201 | a sedentary man of 180 lb, 70 in and 30 years has BMR 1868.2 and targets 2241 (maintain) and 1941 (lose, normal) |
| Forms.ValidGoalsFormAsWritten | forms.py:12-26 | the goals form's checks as written: the choice sets with "lightly active", the three birth-date ranges checked apart, required weights and height, optional diet type and budget |
| Forms.ValidGoalsForm | forms.py:12-26 | the goals form with the engine's activity spellings and a birth date that exists (the corrected validator of the Findings) |
| Forms.ValidEditUserForm | forms.py:33-44 | a non-blank email, the goal, activity, unit and rate choices, required weights, optional diet type and budget |
| Forms.ValidLoginForm | forms.py:51-52 | a non-blank email and a non-blank password of at least 6 characters |
| Forms.ValidSignUpForm | forms.py:57-63 | a non-blank name and email, sex m or f, a non-blank password of at least 6 characters equal to the confirmation |
| Forms.ValidEditUserWeightForm | forms.py:69-70 | a unit choice and a required weight |
| Forms.ChoicesAgainstEngine | forms.py:12-41 | the goal, rate and edit-activity choices are the engine's spellings; the goals form's "lightly active" is not |
| Forms.LightlyActiveGetsBareOffset | forms.py:13 | a goals form accepted as written with "lightly active" gets the bare goal offset as its target |
| Forms.AcceptedGoalsHaveReferenceTarget | forms.py:12-26 | every goals form the corrected validator accepts has a target, equal to the reference engine's |
| Forms.AcceptedEditHasReferenceTarget | forms.py:33-44 | every accepted profile edit has a target, equal to the reference engine's |
| Forms.February31PassesAsWritten | forms.py:14-16 | 2001-02-31 passes the range checks as written, though it is no calendar date |
| Forms.AcceptedBirthDateIsCalendarDate | forms.py:14-16 | every birth date the corrected validator accepts exists, so the age can be computed |
| Store.TargetOf | app.py:168-201 | the target of a stored user is the engine's target for its sex, weight, height, age, activity, goal and rate |
| Store.Database.Valid | models.py:16-239 | users keyed by id with unique emails, one calorie row per user holding its current target, meals keyed by id with an existing owner and the load-time stamp; every method keeps it |
| Store.EmailIdentifiesUser | models.py:22-26 | two users with the same email are the same user |
| Store.MealOwnersPartition | models.py:229-233 | a meal id belongs to exactly one user's meals, and that user exists |
| Store.ConsumedAfterInsert | app.py:235-241 | logging a meal with a new id adds its amount to its owner's total and leaves every other user's total alone |
| Store.ConsumedAfterDelete | app.py:235-241 | deleting a meal takes its amount off its owner's total and leaves every other user's total alone |
| Store.LoggingLowersRemaining | app.py:235-241 | logging a meal of c calories lowers the owner's remaining calories by exactly c, with no clamping at zero |
| Store.Database.constructor | models.py:235-239 | the tables start empty and every meal will carry the one time stamp taken at load |
| Store.Database.Signup | models.py:114-141 | a taken email or an undefined target changes nothing; otherwise the new user gets the next id, the password hash and every other argument unchanged, and its calorie row holds its target |
| Store.Database.Authenticate | models.py:144-161 | returns the user exactly when a user with that email exists and the password checks against its hash; otherwise no user with that email passes the check |
| Store.Database.UpdateProfile | app.py:298-350 | an unknown user, an email another user holds or an undefined target change nothing; otherwise the user gets the new fields and its calorie row gets the recomputed target |
| Store.Database.UpdateWeight | app.py:376-417 | only the weight changes, and the calorie row gets the recomputed target |
| Store.Database.InsertMeal | app.py:538-542 | a meal with the recipe's id is added for an existing user and stamped with the load time; a taken id is refused |
| Store.Database.DeleteMeal | app.py:570-573 | exactly the meal with that id goes when the user owns it; a missing id or another owner changes nothing |
| Store.Database.RemainingCalories | app.py:232-241 | the stored target minus the sum of the calories of the user's meals; not found for an unknown user |
| Store.Database.RemainingBudget | app.py:268-276 | the budget minus the sum of the prices of the user's meals; no budget when the budget is NULL |
| Handlers.Login | app.py:58-69 | a rejected form or failed credentials leave the session alone; success logs in a user with that email whose password checks |
| Handlers.ToPounds | app.py:138-141 | the metric weight is kilograms × 2.205; any other unit keeps the number; a non-negative weight never shrinks |
| Handlers.ToInches | app.py:140 | the metric height is centimetres / 2.54; any other unit keeps the number; a non-negative height never grows |
| Handlers.ReadScratch | app.py:120-162 | a scratch is read only when all ten scratch keys are present (see Left out for a partial scratch) |
| Handlers.ScratchRoundTrip | app.py:94-103 | what the goals page writes, the signup page reads back unchanged |
| Handlers.ScratchCleared | app.py:205-214 | once the ten keys are deleted there is no scratch left to sign up with |
| Handlers.Goals | app.py:87-105 | a rejected form leaves the session alone; an accepted one stores its values and the computed age under the scratch keys |
| Handlers.SignupRow | app.py:128-163 | the row signup writes: form email, hashed password, name and sex, the scratch's unit, age, goal, activity and rate, weights and height converted from the unit and coerced to their columns, diet type and budget |
| Handlers.Signup | app.py:118-222 | invalid form, missing scratch, taken email or undefined target change neither tables nor session; success stores the converted row, deletes the scratch and logs the new user in |
| Handlers.GoalsScratchHasTarget | app.py:181-201 | the scratch of an accepted goals form always has a target, so signup never fails for want of one |
| Handlers.EditedUser | app.py:298-310 | the row the profile edit writes: the form's goal, activity, rate, diet type, budget and email, and its weights converted from its unit; all else kept |
| Handlers.Edit | app.py:289-355 | fails only for an unknown user, a rejected form or an email another user holds; otherwise it writes the converted weights and form fields, recomputes the target, and keeps height, age and sex |
| Handlers.EditWeight | app.py:367-423 | fails exactly for an unknown user or a rejected form; otherwise only the converted weight and the recomputed target change |
| Handlers.ReadSelection | app.py:526-528 | a selection is read only when price, title and nutrition are all present |
| Handlers.SelectionRoundTrip | app.py:514-516 | what the detail page writes, the confirmation reads back unchanged |
| Handlers.PriceFromCost | app.py:512-514 | the price is a whole number of cents, truncated toward zero from the cost in cents |
| Handlers.ShowMealDetails | app.py:504-516 | succeeds exactly for a logged-in existing user, and then writes the price, title and nutrition to the session; otherwise nothing changes |
| Handlers.AddMeal | app.py:525-542 | logs the meal with the URL's recipe id and the captured title, nutrition and price for the current user; fails for no user, no capture or a taken id; the session is left unchanged |
| Handlers.DeleteMeals | app.py:568-573 | deletes exactly the meal with that id when the logged-in user owns it; another user's meal is never removed |
| Handlers.DeleteMealsAsWritten | app.py:568-573 | as written, any existing meal id is deleted whoever owns it, every other meal stays and none is added, and a missing id raises |
| Handlers.AnyUserDeletesAnyMealAsWritten | app.py:570-572 | user 1 deletes a meal of user 2 |
| Handlers.DietFilter | app.py:475-488 | a filter is sent exactly when the diet type is one of vegan, veg and gf |
| Handlers.DietFilterDistinguishesChoices | app.py:475-488 | different diet choices never send the same filter |

## Left out

- Routing, templates, flash messages, redirects, the logout page and the meal search form are not modelled. They are framework plumbing. `Handlers.Login` models the login page's form check and credential lookup, without its redirect for a user already logged in.
- Handlers.ReadScratch: a session holding only some of the ten scratch keys counts as no scratch, and signup then fails with `MissingScratch`. The source reads each key with `session.get`, gets None for a missing one, and goes on. A missing `budget` signs up with a NULL budget, after both commits, and then raises at `del session['budget']` (app.py:214). A missing required key violates a NOT NULL column, which is caught and reported as a taken email (app.py:216-218). In the metric branch, a missing weight or height raises on `None * 2.205` or `None / 2.54` (app.py:138-141). The goals page always writes all ten keys (`Handlers.Goals`), so a partial scratch arises only from a session that was changed in some other way.
- Handlers.Edit: an email another user holds makes the commit at app.py:313 raise an uncaught integrity error. The model returns `DuplicateEmail` and changes nothing.
- Handlers.AddMeal: a meal id already in the table makes the commit at app.py:542 raise an uncaught integrity error, and with no captured recipe detail `nut_details['calories']` raises on None (app.py:538). The model returns `DuplicateMeal` and `NoPendingSelection` and changes nothing.
- Handlers.Goals: validates with the corrected goals form (`Forms.ValidGoalsForm`). As written, the activity field refuses "light" and accepts "lightly active" (forms.py:13), and the birth date is not checked to exist (forms.py:14-16). See the Findings.
- Handlers.Edit: does not model the `g.user` check (app.py:297). Any request for an existing user id edits that user, because the source checks no ownership on edit either.
- Handlers.EditWeight: does not model the `g.user` check (app.py:374), for the same reason.
- Handlers.AddMeal: does not model the `g.user` check (app.py:534). It only requires that the session names an existing user.
- Store.Database.RemainingCalories: not gated on `g.user` (app.py:243-247). The page computes the sum before that check anyway.
- The recipe catalog's HTTP calls (app.py:477-510) are not modelled. The detail page's answer is the parameter `RecipeDetail`, and the search models only the filter it chooses.
- Password hashing and checking (bcrypt) are the parameters `hash` and `check`.
- The coercion of a float into an integer column on commit is the parameter `column`. The target is computed from the coerced values, as the source does after its commit reloads them.
- Commits are not modelled. Staging and committing are one step, and signup writes the user and its calorie row together. The source commits the user (app.py:164) before the target exists (app.py:201-203), so its signup is not atomic. The model keeps the intended all-or-nothing behaviour.
- The trailing comma at app.py:350 and app.py:417 assigns a one-element tuple. The model stores the integer that was evidently intended.
- An unbound `daily_calories` (app.py:184-198) raises in the source. The model returns `NoTarget` and changes nothing. From forms the validators accept, it cannot happen (`Handlers.GoalsScratchHasTarget`, `Handlers.Edit`).
- `db.session.delete(None)` on a missing meal id (app.py:570-572) raises in the source. The model returns `NoSuchMeal` and changes nothing.
- A NULL budget makes the subtraction at app.py:276 raise. The model returns `NoBudget`.
- A missing `curr_user` session key raises in the source. The model returns `NotLoggedIn`.
- A session value of the wrong kind counts as a missing key.
- Floating-point rounding is not modelled. The engine, the unit factors 2.205 and 2.54, and the budget and price arithmetic use exact reals.
- `date.today()` is the parameter `today`.
- The `Email()` validator's address format check is not modelled. A required text field only has to contain a non-space character, and only ASCII white space counts as space.
- An unselected diet type is modelled as absent. The form library's own value for an unselected radio field is not modelled. Neither is the NOT NULL constraint on `users.diet_type` (models.py:93-97).
- The meal price column is text (models.py:223-227). The model keeps it as a number, and the `float(...)` at app.py:274 is not modelled.
- The Postgres id sequence is modelled as `nextUserId`, which advances only on a successful signup. The real sequence can skip numbers after a failed insert.
- The remaining-calories sums on the search-results and all-meals pages (app.py:461-467, 554-560) are the same computation as `Store.Database.RemainingCalories`. They are not modelled separately.
- Meal nutrition figures are kept as the catalog's text, except the calories.

## Findings

| source | as written | input that shows it | evidently intended | confidence | as-written member | corrected member |
|---|---|---|---|---|---|---|
| forms.py:13 | the goals form offers activity "lightly active", which the engine never matches (it tests "light", app.py:176), so TDEE stays 0 | goals form with activity "lightly active", goal maintain: the stored target is 0 | the spelling "light", as on the edit form (forms.py:35), giving BMR × 1.4 | not executed | Forms.LightlyActiveGetsBareOffset | Forms.AcceptedGoalsHaveReferenceTarget |
| forms.py:16 | the day is checked against 1..31 whatever the month, and `date(year, month, day)` (app.py:92) then raises | year 2001, month 2, day 31 | only dates that exist are accepted | not executed | Forms.February31PassesAsWritten | Forms.AcceptedBirthDateIsCalendarDate |
| app.py:570-572 | any logged-in user deletes any meal by its id | user 1 posts a delete for meal 716429, which user 2 logged | only the owner deletes a meal | not executed | Handlers.AnyUserDeletesAnyMealAsWritten | Handlers.DeleteMeals |
