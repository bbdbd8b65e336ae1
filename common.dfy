/** Optional values, results, and the ways a request handler can end without doing its work. */
module Common {

  /** A value that may be absent: SQL NULL, a missing session key, an unbound local. */
  datatype Option<+T> = None | Some(value: T)

  /** Why a handler stopped. Each one leaves the tables and the session as they were. */
  datatype Error =
    | InvalidForm         // the form did not validate: the page is rendered again
    | NotFound            // get_or_404 found no such user or calorie row
    | NotLoggedIn         // the session holds no current user
    | DuplicateEmail      // the unique constraint on users.email
    | DuplicateMeal       // the primary key of meals is already taken
    | NoSuchMeal          // there is no meal with the id to delete
    | NotOwner            // the meal to delete belongs to another user
    | NoTarget            // goal and rate left the daily calories unbound
    | MissingScratch      // signup without the goals scratch in the session
    | NoPendingSelection  // a meal confirmation without a viewed recipe detail
    | NoBudget            // remaining budget of a user whose budget is NULL
    | InvalidCredentials  // no user has that email, or the password does not check

  datatype Result<+T> = Ok(value: T) | Err(error: Error)
}
