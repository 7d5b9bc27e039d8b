/** What the form handlers have in common: the messages they show, the checks
    they run before writing, the backend requests they issue and the other
    effects a handler has beyond its own fields. */
module Forms {
  import opened Records

  const SelectCategoryMessage := "Please select a category."
  const InvalidAmountMessage := "Please enter a valid positive amount."
  const LoginToAddExpense := "You must be logged in to add an expense."
  const LoginToAddBudget := "You must be logged in to add a budget."
  const UserNotFound := "User not found"

  /** `!category` is false: a category chip has been chosen; null and "" are
      both falsy. */
  predicate Selected(category: Option<string>)
  {
    category.Some? && category.value != ""
  }

  /** `!(isNaN(parsedAmount) || parsedAmount <= 0)`, where the parse result
      None stands for NaN. */
  predicate PositiveAmount(parsed: Option<real>)
  {
    parsed.Some? && parsed.value > 0.0
  }

  /** The outcome of a form's checks: the category and amount to write, or the
      message of the first check that failed. */
  datatype Verdict = Accept(category: string, amount: real) | Reject(message: string)

  /** The checks of the add-expense, quick-add and add-budget forms, in the
      order they run: category, then user, then amount. `loginMessage` is the
      form's own message for a missing user. */
  function CheckAddForm(category: Option<string>, user: Option<UserId>, loginMessage: string,
                        parsed: Option<real>): (v: Verdict)
    ensures v.Accept? <==> Selected(category) && user.Some? && PositiveAmount(parsed)
    ensures v.Accept? ==> v.category == category.value && v.amount == parsed.value
    ensures !Selected(category) ==> v == Reject(SelectCategoryMessage)
    ensures Selected(category) && user.None? ==> v == Reject(loginMessage)
    ensures Selected(category) && user.Some? && !PositiveAmount(parsed) ==> v == Reject(InvalidAmountMessage)
  {
    if !Selected(category) then Reject(SelectCategoryMessage)
    else if user.None? then Reject(loginMessage)
    else if !PositiveAmount(parsed) then Reject(InvalidAmountMessage)
    else Accept(category.value, parsed.value)
  }

  /** The checks of the edit form: category, then amount; there is no check of
      the user. */
  function CheckEditForm(category: Option<string>, parsed: Option<real>): (v: Verdict)
    ensures v.Accept? <==> Selected(category) && PositiveAmount(parsed)
    ensures v.Accept? ==> v.category == category.value && v.amount == parsed.value
    ensures !Selected(category) ==> v == Reject(SelectCategoryMessage)
    ensures Selected(category) && !PositiveAmount(parsed) ==> v == Reject(InvalidAmountMessage)
  {
    if !Selected(category) then Reject(SelectCategoryMessage)
    else if !PositiveAmount(parsed) then Reject(InvalidAmountMessage)
    else Accept(category.value, parsed.value)
  }

  /** The edit form decides as an add form does for a logged-in user, whatever
      that form's login message. */
  lemma EditIsAddWhenLoggedIn(category: Option<string>, user: UserId, loginMessage: string, parsed: Option<real>)
    ensures CheckEditForm(category, parsed) == CheckAddForm(category, Some(user), loginMessage, parsed)
  {
  }

  /** A request sent to the backend. */
  datatype Request =
    | InsertExpense(amount: real, category: string, description: string, userId: UserId, date: Timestamp)
    | UpsertBudget(userId: UserId, category: string, amount: real)
    | UpdateExpense(id: int, amount: real, category: string, description: string)
    | DeleteExpense(id: int)
    | SelectExpenses(userId: UserId)
    | InsertCategory(name: string, userId: UserId)
    | DeleteCategory(id: int)
    | SelectCategories(userId: UserId)

  /** What a handler does beyond its own fields. `Issued` records a request and
      the screen's `loading` flag at the moment it went out. */
  datatype Effect =
    | Issued(request: Request, whileLoading: bool)
    | GoBack
    | ExpenseAdded
    | Alert(title: string, message: string)
}
