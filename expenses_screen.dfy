/** The expenses list: fetching the user's expenses, the delete dialog, and the
    colour shown for each category. */
module ExpensesList {
  import opened Records
  import opened Forms

  // ---------------------------------------------------------------------------
  // `getCategoryColor`

  const DefaultColor := "#64748b"

  /** The fixed colours of the six known categories. */
  const KnownColors: map<string, string> := map[
    "Food" := "#059669",
    "Transport" := "#2563eb",
    "Shopping" := "#d97706",
    "Entertainment" := "#7c3aed",
    "Bills" := "#dc2626",
    "Health" := "#0891b2"
  ]

  /** `colors[category] || '#64748b'`; a null category is looked up under "null". */
  function CategoryColor(category: Option<string>): (color: string)
    ensures PropertyKey(category) in KnownColors ==> color == KnownColors[PropertyKey(category)]
    ensures PropertyKey(category) !in KnownColors ==> color == DefaultColor
  {
    var key := PropertyKey(category);
    if key in KnownColors then KnownColors[key] else DefaultColor
  }

  /** Exactly the six known categories get a colour of their own, no two the
      same, and every other category, null included, gets the default. */
  lemma CategoryColorsDistinct(a: Option<string>, b: Option<string>)
    ensures CategoryColor(a) != DefaultColor <==> a.Some? && a.value in KnownColors
    ensures CategoryColor(a) == CategoryColor(b) && CategoryColor(a) != DefaultColor ==> a == b
  {
  }

  // ---------------------------------------------------------------------------
  // The screen.

  class ExpensesScreen {
    var expenses: seq<Expense>
    var loading: bool
    var error: Option<string>
    var selected: Option<Expense>
    var dialogVisible: bool
    ghost var effects: seq<Effect>

    /** The dialog is shown exactly while an expense is selected. */
    predicate Valid()
      reads this
    {
      dialogVisible <==> selected.Some?
    }

    constructor ()
      ensures Valid()
      ensures expenses == [] && !loading && error == None && selected == None && effects == []
    {
      expenses, loading, error := [], false, None;
      selected, dialogVisible := None, false;
      effects := [];
    }

    /** `fetchExpenses`; `user` is what the session answers and `response` the
        backend's answer to the select. */
    method FetchExpenses(user: Option<UserId>, response: Response<seq<Expense>>)
      modifies this`expenses, this`loading, this`error, this`effects
      ensures !loading
      ensures user.None? ==> error == Some(UserNotFound) && expenses == old(expenses) && effects == old(effects)
      ensures user.Some? ==> effects == old(effects) + [Issued(SelectExpenses(user.value), true)]
      ensures user.Some? && response.Failure? ==> error == Some(response.message) && expenses == old(expenses)
      ensures user.Some? && response.Data? ==> error == None && expenses == response.rows
    {
      loading := true;
      error := None;
      if user.None? {
        error := Some(UserNotFound);
        loading := false;
        return;
      }
      effects := effects + [Issued(SelectExpenses(user.value), loading)];
      if response.Failure? {
        error := Some(response.message);
      } else {
        expenses := response.rows;
      }
      loading := false;
    }

    /** `showDialog`: a long press on an expense. */
    method ShowDialog(expense: Expense)
      modifies this`selected, this`dialogVisible
      ensures Valid()
      ensures selected == Some(expense) && dialogVisible
    {
      selected := Some(expense);
      dialogVisible := true;
    }

    /** `hideDialog`: cancel, dismiss, or the end of a delete. */
    method HideDialog()
      modifies this`selected, this`dialogVisible
      ensures Valid()
      ensures selected == None && !dialogVisible
    {
      selected := None;
      dialogVisible := false;
    }

    /** `handleDelete`. `deleteError` is the backend's answer to the delete;
        `user` and `refetched` are the answers the re-fetch after a successful
        delete receives. */
    method HandleDelete(deleteError: Option<string>, user: Option<UserId>, refetched: Response<seq<Expense>>)
      requires Valid()
      modifies this
      ensures Valid()
      ensures old(selected).None? ==>
                && expenses == old(expenses) && loading == old(loading) && error == old(error)
                && selected == None && !dialogVisible && effects == old(effects)
      ensures old(selected).Some? ==> selected == None && !dialogVisible
      ensures old(selected).Some? && deleteError.Some? ==>
                && error == deleteError && expenses == old(expenses) && loading == old(loading)
                && effects == old(effects) + [Issued(DeleteExpense(old(selected).value.id), old(loading))]
      ensures old(selected).Some? && deleteError.None? ==>
                && !loading
                && (user.None? ==>
                      && error == Some(UserNotFound) && expenses == old(expenses)
                      && effects == old(effects) + [Issued(DeleteExpense(old(selected).value.id), old(loading))])
                && (user.Some? ==>
                      effects == old(effects) + [Issued(DeleteExpense(old(selected).value.id), old(loading)),
                                                 Issued(SelectExpenses(user.value), true)])
                && (user.Some? && refetched.Failure? ==> error == Some(refetched.message) && expenses == old(expenses))
                && (user.Some? && refetched.Data? ==> error == None && expenses == refetched.rows)
    {
      if selected.None? {
        return;
      }
      effects := effects + [Issued(DeleteExpense(selected.value.id), loading)];
      if deleteError.Some? {
        error := deleteError;
      } else {
        FetchExpenses(user, refetched);
      }
      HideDialog();
    }
  }
}
