/** The add-expense screen's form and its save handler. */
module AddExpense {
  import opened Records
  import opened Forms

  class AddExpenseScreen {
    var amount: string
    var category: Option<string>
    var description: string
    var loading: bool
    var error: Option<string>
    ghost var effects: seq<Effect>

    constructor ()
      ensures amount == "" && category == None && description == ""
      ensures !loading && error == None && effects == []
    {
      amount, category, description := "", None, "";
      loading, error := false, None;
      effects := [];
    }

    /** `handleSave`. `user` is what the session answers, `parseFloat` the
        parse of the amount text, `now` the clock and `insertError` the
        backend's answer to the insert. The form fields are never changed. */
    method HandleSave(user: Option<UserId>, parseFloat: string -> Option<real>, now: Timestamp,
                      insertError: Option<string>)
      modifies this
      ensures amount == old(amount) && category == old(category) && description == old(description)
      ensures !loading
      ensures match CheckAddForm(category, user, LoginToAddExpense, parseFloat(amount))
              case Reject(message) =>
                error == Some(message) && effects == old(effects)
              case Accept(c, x) =>
                && error == insertError
                && effects == old(effects) + [Issued(InsertExpense(x, c, description, user.value, now), true)]
                                           + (if insertError.None? then [GoBack] else [])
    {
      loading := true;
      error := None;
      if !Selected(category) {
        error := Some(SelectCategoryMessage);
        loading := false;
        return;
      }
      if user.None? {
        error := Some(LoginToAddExpense);
        loading := false;
        return;
      }
      var parsedAmount := parseFloat(amount);
      if !PositiveAmount(parsedAmount) {
        error := Some(InvalidAmountMessage);
        loading := false;
        return;
      }
      effects := effects + [Issued(InsertExpense(parsedAmount.value, category.value, description, user.value, now), loading)];
      if insertError.Some? {
        error := insertError;
      } else {
        effects := effects + [GoBack];
      }
      loading := false;
    }
  }
}
