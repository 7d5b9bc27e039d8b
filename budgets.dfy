/** The budgets screen: this month's spending per category attached to each
    budget, and the status, progress and remaining amount shown for it. */
module Budgets {
  import opened Records
  import opened Calendar
  import opened Forms

  // ---------------------------------------------------------------------------
  // The month window the expenses query asks for.

  /** The bounds of `.gte('date', lower).lte('date', upper)`. */
  datatype Window = Window(lower: Instant, upper: Instant)

  predicate InWindow(t: Instant, w: Window)
  {
    NotAfter(w.lower, t) && NotAfter(t, w.upper)
  }

  predicate InMonthOf(t: Instant, now: LocalDate)
  {
    t.date.year == now.year && t.date.month == now.month
  }

  /** The window as written: from `new Date(y, m, 1)` to `new Date(y, m + 1, 0)`,
      both at 00:00. */
  function MonthWindow(now: LocalDate): (w: Window)
    requires ValidDate(now)
    ensures w.lower == Midnight(LocalDate(now.year, now.month, 1))
    ensures w.upper == Midnight(LocalDate(now.year, now.month, DaysInMonth(now.year, now.month)))
    ensures NotAfter(w.lower, w.upper)
  {
    DayZeroIsLastDay(now.year, now.month);
    Window(Midnight(MakeDate(now.year, now.month, 1)), Midnight(MakeDate(now.year, now.month + 1, 0)))
  }

  /** The window as written leaves out the last day of the month after its
      first millisecond: spending later that day is not counted. */
  lemma MonthWindowMissesLastDay(now: LocalDate)
    requires ValidDate(now)
    ensures var t := Instant(LocalDate(now.year, now.month, DaysInMonth(now.year, now.month)), 1);
            ValidInstant(t) && InMonthOf(t, now) && !InWindow(t, MonthWindow(now))
  {
  }

  /** The window the query evidently means: from 00:00 on day 1 to the last
      millisecond of the last day. It holds exactly the instants of the month. */
  function MonthWindowCorrected(now: LocalDate): (w: Window)
    requires ValidDate(now)
    ensures w.lower == MonthWindow(now).lower
    ensures forall t :: ValidInstant(t) ==> (InWindow(t, w) <==> InMonthOf(t, now))
  {
    DayZeroIsLastDay(now.year, now.month);
    Window(Midnight(MakeDate(now.year, now.month, 1)), Instant(MakeDate(now.year, now.month + 1, 0), MillisPerDay - 1))
  }

  // ---------------------------------------------------------------------------
  // Spending per category: the `expensesByCategory` reduce.

  /** The expenses stored under key `c` by `acc[expense.category]`. */
  function HasKey(c: string): Expense -> bool
  {
    (e: Expense) => PropertyKey(e.category) == c
  }

  /** The reference meaning of a category's spending: the sum of the amounts of
      the expenses whose category is `c`. */
  function SpentIn(es: seq<Expense>, c: string): real
  {
    SumIf(es, HasKey(c))
  }

  function KeysOf(es: seq<Expense>): set<string>
  {
    set i | 0 <= i < |es| :: PropertyKey(es[i].category)
  }

  /** `m` has a key for each category of `es` and no other, and stores under
      each the sum of that category's amounts. */
  ghost predicate IsSpendingTable(m: map<string, real>, es: seq<Expense>)
  {
    m.Keys == KeysOf(es) && forall c :: c in m ==> m[c] == SpentIn(es, c)
  }

  /** A category with no expense has spent 0. */
  lemma SpentWithoutExpenses(es: seq<Expense>, c: string)
    requires c !in KeysOf(es)
    ensures SpentIn(es, c) == 0.0
  {
    forall i | 0 <= i < |es|
      ensures !HasKey(c)(es[i])
    {
      assert PropertyKey(es[i].category) in KeysOf(es);
    }
    SumIfNone(es, HasKey(c));
  }

  /** `expensesByCategory`: the reduce updates the dictionary in place. */
  method ExpensesByCategory(expenses: seq<Expense>) returns (acc: map<string, real>)
    ensures IsSpendingTable(acc, expenses)
  {
    acc := map[];
    var i := 0;
    while i < |expenses|
      invariant 0 <= i <= |expenses|
      invariant IsSpendingTable(acc, expenses[..i])
    {
      var expense := expenses[i];
      var key := PropertyKey(expense.category);
      ghost var done := expenses[..i];
      if key !in acc {
        SpentWithoutExpenses(done, key);
      }
      acc := acc[key := (if key in acc then acc[key] else 0.0) + expense.amount];
      assert expenses[..i + 1] == done + [expense];
      assert KeysOf(done + [expense]) == KeysOf(done) + {key} by {
        assert forall j :: 0 <= j < |done| ==> (done + [expense])[j] == done[j];
        assert (done + [expense])[|done|] == expense;
      }
      forall c | c in acc
        ensures acc[c] == SpentIn(done + [expense], c)
      {
        SumIfAppend(done, expense, HasKey(c));
      }
      i := i + 1;
    }
    assert expenses[..i] == expenses;
  }

  // ---------------------------------------------------------------------------
  // `budgetWithSpending`: every budget row with its spending attached.

  /** A budget row with the extra field `spent`; the other fields (`...budget`)
      are the budget's own. */
  datatype BudgetRow = BudgetRow(budget: Budget, spent: real)

  /** `expensesByCategory[budget.category] || 0` */
  function SpentOrZero(m: map<string, real>, c: string): real
  {
    if c in m then m[c] else 0.0
  }

  function WithSpending(budgets: seq<Budget>, m: map<string, real>): (rows: seq<BudgetRow>)
    ensures |rows| == |budgets|
    ensures forall i :: 0 <= i < |rows| ==> rows[i].budget == budgets[i]
  {
    seq(|budgets|, i requires 0 <= i < |budgets| => BudgetRow(budgets[i], SpentOrZero(m, budgets[i].category)))
  }

  /** With the table of this month's spending, every budget row gets the sum of
      the amounts of the month's expenses in its category, 0 when there is none. */
  lemma WithSpendingIsSpentIn(budgets: seq<Budget>, m: map<string, real>, es: seq<Expense>)
    requires IsSpendingTable(m, es)
    ensures forall i :: 0 <= i < |budgets| ==> WithSpending(budgets, m)[i].spent == SpentIn(es, budgets[i].category)
  {
    forall i | 0 <= i < |budgets|
      ensures WithSpending(budgets, m)[i].spent == SpentIn(es, budgets[i].category)
    {
      if budgets[i].category !in m {
        SpentWithoutExpenses(es, budgets[i].category);
      }
    }
  }

  // ---------------------------------------------------------------------------
  // Status, progress and remaining amount of one budget.

  datatype Status = OverBudget | NearlyFull | OnTrack
  {
    function Color(): string
    {
      match this
      case OverBudget => "#dc2626"
      case NearlyFull => "#d97706"
      case OnTrack => "#059669"
    }

    function Label(): string
    {
      match this
      case OverBudget => "Over budget"
      case NearlyFull => "Nearly full"
      case OnTrack => "On track"
    }
  }

  /** `budget > 0 ? spent / budget : 0` */
  function Ratio(spent: real, budget: real): real
  {
    if budget > 0.0 then spent / budget else 0.0
  }

  /** Against a positive budget, the ratio reaches `k` exactly when the spending
      reaches `k` times the budget. */
  lemma RatioAtLeast(spent: real, budget: real, k: real)
    ensures budget > 0.0 ==> (Ratio(spent, budget) >= k <==> spent >= k * budget)
  {
    if budget <= 0.0 { return; }
    var ratio := spent / budget;
    assert ratio * budget == spent;
    if ratio >= k {
      assert (ratio - k) * budget >= 0.0;
    } else {
      assert (k - ratio) * budget > 0.0;
    }
  }

  /** `getBudgetStatus`: both thresholds are inclusive, and a budget of 0 or
      less is always on track. */
  function GetBudgetStatus(spent: real, budget: real): (s: Status)
    ensures budget <= 0.0 ==> s == OnTrack
    ensures budget > 0.0 ==> (s == OverBudget <==> spent >= budget)
    ensures budget > 0.0 ==> (s == NearlyFull <==> 0.8 * budget <= spent < budget)
    ensures budget > 0.0 ==> (s == OnTrack <==> spent < 0.8 * budget)
  {
    var ratio := Ratio(spent, budget);
    RatioAtLeast(spent, budget, 1.0);
    RatioAtLeast(spent, budget, 0.8);
    if ratio >= 1.0 then OverBudget
    else if ratio >= 0.8 then NearlyFull
    else OnTrack
  }

  /** `amount > 0 ? Math.min(spent / amount, 1) : 0` */
  function Progress(spent: real, amount: real): (p: real)
    ensures p <= 1.0
    ensures spent >= 0.0 ==> 0.0 <= p
    ensures amount <= 0.0 ==> p == 0.0
    ensures amount > 0.0 ==> (p == 1.0 <==> spent >= amount)
    ensures amount > 0.0 && spent < amount ==> p * amount == spent
  {
    if amount > 0.0 then
      var ratio := spent / amount;
      assert ratio * amount == spent;
      if ratio < 1.0 then ratio else 1.0
    else 0.0
  }

  /** `Math.max(amount - spent, 0)` */
  function Remaining(spent: real, amount: real): (r: real)
    ensures r >= 0.0
    ensures r == 0.0 <==> spent >= amount
    ensures spent < amount ==> spent + r == amount
  {
    if amount - spent > 0.0 then amount - spent else 0.0
  }

  // ---------------------------------------------------------------------------
  // The screen's state and `fetchBudgetData`.

  /** `budgetsResponse.error?.message || expensesResponse.error?.message` */
  function FetchError(budgets: Response<seq<Budget>>, expenses: Response<seq<Expense>>): Option<string>
  {
    if budgets.Failure? && budgets.message != "" then Some(budgets.message)
    else if expenses.Failure? then Some(expenses.message)
    else None
  }

  class BudgetsScreen {
    var budgets: seq<BudgetRow>
    var loading: bool
    var error: Option<string>
    /** The user and month window of every expenses query sent. */
    ghost var queries: seq<(UserId, Window)>

    constructor ()
      ensures budgets == [] && !loading && error == None && queries == []
    {
      budgets, loading, error := [], false, None;
      queries := [];
    }

    /** One run of `fetchBudgetData`; `user`, `today` and the two responses are
        what the session, the clock and the backend answer. */
    method FetchBudgetData(user: Option<UserId>, today: LocalDate,
                           budgetsResponse: Response<seq<Budget>>,
                           expensesResponse: Response<seq<Expense>>)
      requires ValidDate(today)
      modifies this
      ensures !loading
      ensures user.None? ==> error == Some(UserNotFound) && budgets == old(budgets) && queries == old(queries)
      ensures user.Some? ==> queries == old(queries) + [(user.value, MonthWindow(today))]
      ensures user.Some? && (budgetsResponse.Failure? || expensesResponse.Failure?) ==>
                error == FetchError(budgetsResponse, expensesResponse) && budgets == old(budgets)
      ensures user.Some? && budgetsResponse.Data? && expensesResponse.Data? ==>
                && error == None
                && |budgets| == |budgetsResponse.rows|
                && (forall i :: 0 <= i < |budgets| ==> budgets[i].budget == budgetsResponse.rows[i])
                && (forall i :: 0 <= i < |budgets| ==>
                      budgets[i].spent == SpentIn(expensesResponse.rows, budgetsResponse.rows[i].category))
    {
      loading := true;
      error := None;
      if user.None? {
        error := Some(UserNotFound);
        loading := false;
        return;
      }
      var window := MonthWindow(today);
      queries := queries + [(user.value, window)];
      if budgetsResponse.Failure? || expensesResponse.Failure? {
        error := FetchError(budgetsResponse, expensesResponse);
        loading := false;
        return;
      }
      var byCategory := ExpensesByCategory(expensesResponse.rows);
      WithSpendingIsSpentIn(budgetsResponse.rows, byCategory, expensesResponse.rows);
      budgets := WithSpending(budgetsResponse.rows, byCategory);
      loading := false;
    }
  }
}
