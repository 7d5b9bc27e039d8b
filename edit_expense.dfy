/** The edit-expense screen: a form filled from the edited expense, its update
    handler, and what the update asks of the expenses table. */
module EditExpense {
  import opened Records
  import opened Forms

  // ---------------------------------------------------------------------------
  // The expenses table under `update({ amount, category, description }).match({ id })`.

  function ApplyUpdate(rows: seq<Expense>, id: int, amount: real, category: string, description: string): (r: seq<Expense>)
    ensures |r| == |rows|
    ensures forall i :: 0 <= i < |r| && rows[i].id != id ==> r[i] == rows[i]
    ensures forall i :: 0 <= i < |r| && rows[i].id == id ==>
              r[i].amount == amount && r[i].category == Some(category) && r[i].description == description
    ensures forall i :: 0 <= i < |r| ==>
              r[i].id == rows[i].id && r[i].userId == rows[i].userId && r[i].day == rows[i].day
  {
    seq(|rows|, i requires 0 <= i < |rows| =>
      if rows[i].id == id then rows[i].(amount := amount, category := Some(category), description := description)
      else rows[i])
  }

  /** Of two updates of the same row, the later one wins. */
  lemma UpdateTwice(rows: seq<Expense>, id: int, amount: real, category: string, description: string,
                    amount': real, category': string, description': string)
    ensures ApplyUpdate(ApplyUpdate(rows, id, amount, category, description), id, amount', category', description')
              == ApplyUpdate(rows, id, amount', category', description')
  {
  }

  /** Saving the values the row already has leaves the table as it is. */
  lemma UpdateWithOwnValues(rows: seq<Expense>, e: Expense)
    requires e.category.Some?
    requires forall i :: 0 <= i < |rows| && rows[i].id == e.id ==> rows[i] == e
    ensures ApplyUpdate(rows, e.id, e.amount, e.category.value, e.description) == rows
  {
    var r := ApplyUpdate(rows, e.id, e.amount, e.category.value, e.description);
    forall i | 0 <= i < |rows|
      ensures r[i] == rows[i]
    {
      if rows[i].id == e.id {
        assert rows[i] == e;
      }
    }
  }

  /** When the amount's text parses back to the amount, an untouched form passes
      its checks with the expense's own category and amount. */
  lemma UntouchedFormPasses(e: Expense, toString: real -> string, parseFloat: string -> Option<real>)
    requires parseFloat(toString(e.amount)) == Some(e.amount)
    requires Selected(e.category) && e.amount > 0.0
    ensures CheckEditForm(e.category, parseFloat(toString(e.amount))) == Accept(e.category.value, e.amount)
  {
  }

  // ---------------------------------------------------------------------------
  // The screen.

  class EditExpenseScreen {
    /** The expense passed in the route's parameters. */
    const expense: Expense
    var amount: string
    var category: Option<string>
    var description: string
    var loading: bool
    var error: Option<string>
    ghost var effects: seq<Effect>

    /** The form starts from the expense: its amount as text (`toString` is
        the number-to-string conversion), its category and its description. */
    constructor (expense: Expense, toString: real -> string)
      ensures this.expense == expense
      ensures amount == toString(expense.amount) && category == expense.category
      ensures description == expense.description
      ensures !loading && error == None && effects == []
    {
      this.expense := expense;
      amount, category, description := toString(expense.amount), expense.category, expense.description;
      loading, error := false, None;
      effects := [];
    }

    /** `handleUpdate`: category, then amount, then one update of the edited
        row's amount, category and description. */
    method HandleUpdate(parseFloat: string -> Option<real>, updateError: Option<string>)
      modifies this
      ensures amount == old(amount) && category == old(category) && description == old(description)
      ensures !loading
      ensures match CheckEditForm(category, parseFloat(amount))
              case Reject(message) =>
                error == Some(message) && effects == old(effects)
              case Accept(c, x) =>
                && error == updateError
                && effects == old(effects) + [Issued(UpdateExpense(expense.id, x, c, description), true)]
                                           + (if updateError.None? then [GoBack] else [])
    {
      loading := true;
      error := None;
      if !Selected(category) {
        error := Some(SelectCategoryMessage);
        loading := false;
        return;
      }
      var parsedAmount := parseFloat(amount);
      if !PositiveAmount(parsedAmount) {
        error := Some(InvalidAmountMessage);
        loading := false;
        return;
      }
      effects := effects + [Issued(UpdateExpense(expense.id, parsedAmount.value, category.value, description), loading)];
      if updateError.Some? {
        error := updateError;
      } else {
        effects := effects + [GoBack];
      }
      loading := false;
    }
  }
}
