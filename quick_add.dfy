/** The dashboard's quick-add panel: a collapsible add-expense form that resets
    itself after a successful save and tells its parent. */
module QuickAdd {
  import opened Records
  import opened Forms

  class QuickAddExpense {
    /** Whether the parent passed an `onExpenseAdded` callback. */
    const hasCallback: bool
    var amount: string
    var category: Option<string>
    var description: string
    var loading: bool
    var isExpanded: bool
    var error: Option<string>
    ghost var effects: seq<Effect>

    /** The form is empty and the panel collapsed. */
    predicate Pristine()
      reads this
    {
      amount == "" && category == None && description == "" && error == None && !isExpanded
    }

    constructor (hasCallback: bool)
      ensures this.hasCallback == hasCallback
      ensures Pristine() && !loading && effects == []
    {
      this.hasCallback := hasCallback;
      amount, category, description := "", None, "";
      loading, isExpanded, error := false, false, None;
      effects := [];
    }

    /** The plus button of the collapsed panel. */
    method Expand()
      modifies this`isExpanded
      ensures isExpanded
    {
      isExpanded := true;
    }

    /** The close button of the expanded panel. */
    method Collapse()
      modifies this`isExpanded
      ensures !isExpanded
    {
      isExpanded := false;
    }

    /** `handleSave`: the add-expense checks and insert; on success the form is
        reset, the panel collapses and the parent is told once. A failed check
        or insert keeps what was typed. */
    method HandleSave(user: Option<UserId>, parseFloat: string -> Option<real>, now: Timestamp,
                      insertError: Option<string>)
      modifies this
      ensures !loading
      ensures match CheckAddForm(old(category), user, LoginToAddExpense, parseFloat(old(amount)))
              case Reject(message) =>
                && error == Some(message) && effects == old(effects)
                && amount == old(amount) && category == old(category) && description == old(description)
                && isExpanded == old(isExpanded)
              case Accept(c, x) =>
                && effects == old(effects) + [Issued(InsertExpense(x, c, old(description), user.value, now), true)]
                                           + (if insertError.None? && hasCallback then [ExpenseAdded] else [])
                && (insertError.Some? ==>
                      && error == insertError
                      && amount == old(amount) && category == old(category) && description == old(description)
                      && isExpanded == old(isExpanded))
                && (insertError.None? ==> Pristine())
    {
      loading := true;
      error := None;
      if !Selected(category) {
        error := Some(SelectCategoryMessage);
        loading := false;
        return;
      }
      if user.None? {
        error := Some(LoginToAddExpense);
        loading := false;
        return;
      }
      var parsedAmount := parseFloat(amount);
      if !PositiveAmount(parsedAmount) {
        error := Some(InvalidAmountMessage);
        loading := false;
        return;
      }
      effects := effects + [Issued(InsertExpense(parsedAmount.value, category.value, description, user.value, now), loading)];
      if insertError.Some? {
        error := insertError;
      } else {
        amount, category, description := "", None, "";
        error := None;
        isExpanded := false;
        if hasCallback {
          effects := effects + [ExpenseAdded];
        }
      }
      loading := false;
    }
  }
}
