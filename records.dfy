/** The rows the screens of the expense tracker read and write, the backend's
    answers, and the left-to-right sums the screens compute over expense rows. */
module Records {

  datatype Option<T> = None | Some(value: T)

  /** A backend answer: the rows on success, the backend's error message otherwise. */
  datatype Response<T> = Data(rows: T) | Failure(message: string)

  type UserId = string

  /** An instant as produced by `new Date()`; the model only passes it through. */
  type Timestamp = int

  /** An expense row. `day` is the local calendar day of the row's date, counted
      in days since 1970-01-01, or None when the date does not parse. */
  datatype Expense = Expense(id: int, userId: UserId, amount: real,
                             category: Option<string>, description: string,
                             day: Option<int>)

  datatype Budget = Budget(id: int, userId: UserId, category: string, amount: real)

  datatype Category = Category(id: int, name: string)

  /** The string under which a JavaScript object stores a category value:
      a null category is stored under the key "null". */
  function PropertyKey(category: Option<string>): string
  {
    match category
    case Some(c) => c
    case None => "null"
  }

  /** `es.filter(keep).reduce((sum, e) => sum + e.amount, 0)`, folded left to right. */
  function SumIf(es: seq<Expense>, keep: Expense -> bool): real
  {
    if es == [] then 0.0
    else SumIf(es[..|es| - 1], keep) + (if keep(es[|es| - 1]) then es[|es| - 1].amount else 0.0)
  }

  /** The sum of every amount in the snapshot. */
  function Total(es: seq<Expense>): real
  {
    SumIf(es, _ => true)
  }

  /** Appending one expense adds its amount exactly when it is kept. */
  lemma SumIfAppend(es: seq<Expense>, e: Expense, keep: Expense -> bool)
    ensures SumIf(es + [e], keep) == SumIf(es, keep) + (if keep(e) then e.amount else 0.0)
  {
    assert (es + [e])[..|es|] == es;
  }

  /** A sum over expenses none of which is kept is 0. */
  lemma {:induction false} SumIfNone(es: seq<Expense>, keep: Expense -> bool)
    requires forall i :: 0 <= i < |es| ==> !keep(es[i])
    ensures SumIf(es, keep) == 0.0
  {
    if es != [] {
      SumIfNone(es[..|es| - 1], keep);
    }
  }

  /** When every expense kept by `p` is kept by exactly one of `q` and `r`, and
      nothing else is, the sum by `p` is the sum by `q` plus the sum by `r`. */
  lemma {:induction false} SumIfSplit(es: seq<Expense>, p: Expense -> bool, q: Expense -> bool, r: Expense -> bool)
    requires forall i :: 0 <= i < |es| ==> (p(es[i]) <==> q(es[i]) || r(es[i]))
    requires forall i :: 0 <= i < |es| ==> !(q(es[i]) && r(es[i]))
    ensures SumIf(es, p) == SumIf(es, q) + SumIf(es, r)
  {
    if es != [] {
      SumIfSplit(es[..|es| - 1], p, q, r);
    }
  }
}
