/** The add-budget screen's form, its save handler, and the keyed replace that
    its upsert asks of the budgets table. */
module AddBudget {
  import opened Records
  import opened Forms

  // ---------------------------------------------------------------------------
  // The budgets table under `upsert(..., { onConflict: 'user_id, category' })`.

  predicate SameKey(b: Budget, userId: UserId, category: string)
  {
    b.userId == userId && b.category == category
  }

  /** The amount budgeted for `category` by `userId`, if the table has a row for it. */
  function AmountOf(table: seq<Budget>, userId: UserId, category: string): Option<real>
  {
    if table == [] then None
    else if SameKey(table[0], userId, category) then Some(table[0].amount)
    else AmountOf(table[1..], userId, category)
  }

  /** No two rows share a (user, category) key. */
  ghost predicate UniqueKeys(table: seq<Budget>)
  {
    forall i, j :: 0 <= i < j < |table| ==> !SameKey(table[j], table[i].userId, table[i].category)
  }

  /** The row for (`userId`, `category`) gets `amount` when the table has one;
      otherwise a row with the fresh id `freshId` is added at the end. */
  function Upsert(table: seq<Budget>, userId: UserId, category: string, amount: real, freshId: int): seq<Budget>
  {
    if table == [] then [Budget(freshId, userId, category, amount)]
    else if SameKey(table[0], userId, category) then [table[0].(amount := amount)] + table[1..]
    else [table[0]] + Upsert(table[1..], userId, category, amount, freshId)
  }

  /** An upsert adds a row only when the key is new: a second save for the same
      category replaces the amount. */
  lemma {:induction false} UpsertLength(table: seq<Budget>, userId: UserId, category: string, amount: real, freshId: int)
    ensures |Upsert(table, userId, category, amount, freshId)| == |table| + (if AmountOf(table, userId, category).None? then 1 else 0)
  {
    if table != [] && !SameKey(table[0], userId, category) {
      UpsertLength(table[1..], userId, category, amount, freshId);
    }
  }

  /** After an upsert the key holds the new amount, and every other key holds
      what it held before. */
  lemma {:induction false} UpsertAmounts(table: seq<Budget>, userId: UserId, category: string, amount: real, freshId: int,
                                         otherUser: UserId, otherCategory: string)
    ensures AmountOf(Upsert(table, userId, category, amount, freshId), userId, category) == Some(amount)
    ensures otherUser != userId || otherCategory != category ==>
              AmountOf(Upsert(table, userId, category, amount, freshId), otherUser, otherCategory)
                == AmountOf(table, otherUser, otherCategory)
  {
    var r := Upsert(table, userId, category, amount, freshId);
    if table == [] {
    } else if SameKey(table[0], userId, category) {
      assert r[1..] == table[1..];
    } else {
      assert r[1..] == Upsert(table[1..], userId, category, amount, freshId);
      UpsertAmounts(table[1..], userId, category, amount, freshId, otherUser, otherCategory);
    }
  }

  /** The conflict key of a row. */
  function Key(b: Budget): (UserId, string)
  {
    (b.userId, b.category)
  }

  function Keys(table: seq<Budget>): set<(UserId, string)>
  {
    set i | 0 <= i < |table| :: Key(table[i])
  }

  lemma KeysCons(b: Budget, table: seq<Budget>)
    ensures Keys([b] + table) == {Key(b)} + Keys(table)
  {
    var s := [b] + table;
    forall k | k in Keys(s)
      ensures k in {Key(b)} + Keys(table)
    {
      var i :| 0 <= i < |s| && Key(s[i]) == k;
      if i > 0 {
        assert s[i] == table[i - 1];
      }
    }
    forall k | k in Keys(table)
      ensures k in Keys(s)
    {
      var i :| 0 <= i < |table| && Key(table[i]) == k;
      assert s[i + 1] == table[i];
    }
    assert s[0] == b;
  }

  /** An upsert adds the key to the table's keys and no other. */
  lemma {:induction false} UpsertKeys(table: seq<Budget>, userId: UserId, category: string, amount: real, freshId: int)
    ensures Keys(Upsert(table, userId, category, amount, freshId)) == Keys(table) + {(userId, category)}
  {
    if table == [] {
      assert Keys([Budget(freshId, userId, category, amount)]) == {(userId, category)} by {
        KeysCons(Budget(freshId, userId, category, amount), []);
      }
    } else if SameKey(table[0], userId, category) {
      KeysCons(table[0].(amount := amount), table[1..]);
      KeysCons(table[0], table[1..]);
      assert [table[0]] + table[1..] == table;
    } else {
      UpsertKeys(table[1..], userId, category, amount, freshId);
      KeysCons(table[0], Upsert(table[1..], userId, category, amount, freshId));
      KeysCons(table[0], table[1..]);
      assert [table[0]] + table[1..] == table;
    }
  }

  /** An upsert keeps the keys unique. */
  lemma {:induction false} UpsertKeepsKeysUnique(table: seq<Budget>, userId: UserId, category: string, amount: real, freshId: int)
    requires UniqueKeys(table)
    ensures UniqueKeys(Upsert(table, userId, category, amount, freshId))
  {
    var r := Upsert(table, userId, category, amount, freshId);
    if table == [] {
    } else if SameKey(table[0], userId, category) {
      forall i, j | 0 <= i < j < |r|
        ensures !SameKey(r[j], r[i].userId, r[i].category)
      {
        assert r[j] == table[j];
        assert Key(r[i]) == Key(table[i]);
      }
    } else {
      var rest := Upsert(table[1..], userId, category, amount, freshId);
      assert UniqueKeys(table[1..]);
      UpsertKeepsKeysUnique(table[1..], userId, category, amount, freshId);
      UpsertKeys(table[1..], userId, category, amount, freshId);
      assert Key(table[0]) !in Keys(table[1..]) by {
        forall k | 0 <= k < |table[1..]|
          ensures Key(table[1..][k]) != Key(table[0])
        {
          assert table[1..][k] == table[k + 1];
        }
      }
      forall i, j | 0 <= i < j < |r|
        ensures !SameKey(r[j], r[i].userId, r[i].category)
      {
        assert r[j] == rest[j - 1];
        if i == 0 {
          assert Key(rest[j - 1]) in Keys(rest);
        } else {
          assert r[i] == rest[i - 1];
        }
      }
    }
  }

  /** Saving the same category twice is saving it once with the second amount. */
  lemma {:induction false} UpsertTwice(table: seq<Budget>, userId: UserId, category: string,
                                       first: real, second: real, freshId: int, laterId: int)
    ensures Upsert(Upsert(table, userId, category, first, freshId), userId, category, second, laterId)
              == Upsert(table, userId, category, second, freshId)
  {
    if table == [] {
    } else if SameKey(table[0], userId, category) {
      var once := Upsert(table, userId, category, first, freshId);
      assert once[1..] == table[1..];
    } else {
      var once := Upsert(table, userId, category, first, freshId);
      assert once[1..] == Upsert(table[1..], userId, category, first, freshId);
      UpsertTwice(table[1..], userId, category, first, second, freshId, laterId);
    }
  }

  // ---------------------------------------------------------------------------
  // The screen.

  class AddBudgetScreen {
    var category: Option<string>
    var amount: string
    var loading: bool
    var error: Option<string>
    ghost var effects: seq<Effect>

    constructor ()
      ensures category == None && amount == "" && !loading && error == None && effects == []
    {
      category, amount := None, "";
      loading, error := false, None;
      effects := [];
    }

    /** `handleSave`: the same checks as the add-expense form, then one upsert
        keyed on the user and the category. */
    method HandleSave(user: Option<UserId>, parseFloat: string -> Option<real>, upsertError: Option<string>)
      modifies this
      ensures category == old(category) && amount == old(amount)
      ensures !loading
      ensures match CheckAddForm(category, user, LoginToAddBudget, parseFloat(amount))
              case Reject(message) =>
                error == Some(message) && effects == old(effects)
              case Accept(c, x) =>
                && error == upsertError
                && effects == old(effects) + [Issued(UpsertBudget(user.value, c, x), true)]
                                           + (if upsertError.None? then [GoBack] else [])
    {
      loading := true;
      error := None;
      if !Selected(category) {
        error := Some(SelectCategoryMessage);
        loading := false;
        return;
      }
      if user.None? {
        error := Some(LoginToAddBudget);
        loading := false;
        return;
      }
      var parsedAmount := parseFloat(amount);
      if !PositiveAmount(parsedAmount) {
        error := Some(InvalidAmountMessage);
        loading := false;
        return;
      }
      effects := effects + [Issued(UpsertBudget(user.value, category.value, parsedAmount.value), loading)];
      if upsertError.Some? {
        error := upsertError;
      } else {
        effects := effects + [GoBack];
      }
      loading := false;
    }
  }
}
