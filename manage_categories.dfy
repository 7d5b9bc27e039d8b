/** The category manager: listing the user's categories, adding one by name and
    deleting one. */
module ManageCategories {
  import opened Records
  import opened Forms

  // ---------------------------------------------------------------------------
  // `String.prototype.trim` and the blank-name guard.

  /** The characters `trim` removes: the white space and line terminators of
      section 12.2 and 12.3 of ECMA-262. */
  predicate IsWhitespace(c: char)
  {
    || c == '\t' || c == '\n' || c == '\U{000B}' || c == '\U{000C}' || c == '\r' || c == ' '
    || c == '\U{00A0}' || c == '\U{1680}' || ('\U{2000}' <= c <= '\U{200A}')
    || c == '\U{2028}' || c == '\U{2029}' || c == '\U{202F}' || c == '\U{205F}'
    || c == '\U{3000}' || c == '\U{FEFF}'
  }

  function TrimStart(s: string): string
  {
    if s != [] && IsWhitespace(s[0]) then TrimStart(s[1..]) else s
  }

  function TrimEnd(s: string): string
  {
    if s != [] && IsWhitespace(s[|s| - 1]) then TrimEnd(s[..|s| - 1]) else s
  }

  function Trim(s: string): string
  {
    TrimEnd(TrimStart(s))
  }

  predicate AllWhitespace(s: string)
  {
    forall i :: 0 <= i < |s| ==> IsWhitespace(s[i])
  }

  lemma {:induction false} TrimStartEmpty(s: string)
    ensures TrimStart(s) == "" <==> AllWhitespace(s)
    ensures TrimStart(s) != "" ==> !IsWhitespace(TrimStart(s)[0])
  {
    if s != [] && IsWhitespace(s[0]) {
      TrimStartEmpty(s[1..]);
      assert AllWhitespace(s) <==> AllWhitespace(s[1..]) by {
        if AllWhitespace(s[1..]) {
          forall i | 0 <= i < |s|
            ensures IsWhitespace(s[i])
          {
            if i > 0 {
              assert s[i] == s[1..][i - 1];
            }
          }
        }
      }
    }
  }

  lemma {:induction false} TrimEndEmpty(s: string)
    ensures TrimEnd(s) == "" <==> AllWhitespace(s)
  {
    if s != [] && IsWhitespace(s[|s| - 1]) {
      var front := s[..|s| - 1];
      TrimEndEmpty(front);
      assert AllWhitespace(s) <==> AllWhitespace(front) by {
        if AllWhitespace(front) {
          forall i | 0 <= i < |s|
            ensures IsWhitespace(s[i])
          {
            if i < |s| - 1 {
              assert s[i] == front[i];
            }
          }
        }
      }
    }
  }

  /** `name.trim() === ''` exactly when every character of the name is white
      space, the empty name included. */
  lemma TrimBlank(s: string)
    ensures Trim(s) == "" <==> AllWhitespace(s)
  {
    TrimStartEmpty(s);
    var t := TrimStart(s);
    TrimEndEmpty(t);
    if t != "" {
      assert !AllWhitespace(t) by {
        assert !IsWhitespace(t[0]);
      }
    }
  }

  const FetchFailedMessage := "Failed to fetch categories."
  const AddFailedMessage := "Failed to add category. It might already exist."
  const DeleteFailedMessage := "Failed to delete category."

  // ---------------------------------------------------------------------------
  // The screen.

  class ManageCategoriesScreen {
    var categories: seq<Category>
    var newCategory: string
    var loading: bool
    ghost var effects: seq<Effect>

    constructor ()
      ensures categories == [] && newCategory == "" && !loading && effects == []
    {
      categories, newCategory, loading := [], "", false;
      effects := [];
    }

    /** `fetchCategories`. With no user, reading `user.id` throws after
        `loading` was set, and the screen is left loading. */
    method FetchCategories(user: Option<UserId>, response: Response<seq<Category>>)
      modifies this`categories, this`loading, this`effects
      ensures user.None? ==> loading && categories == old(categories) && effects == old(effects)
      ensures user.Some? ==> !loading
      ensures user.Some? ==> categories == (if response.Data? then response.rows else old(categories))
      ensures user.Some? ==>
                effects == old(effects) + [Issued(SelectCategories(user.value), true)]
                                        + (if response.Failure? then [Alert("Error", FetchFailedMessage)] else [])
    {
      loading := true;
      if user.None? {
        return;
      }
      effects := effects + [Issued(SelectCategories(user.value), loading)];
      if response.Failure? {
        effects := effects + [Alert("Error", FetchFailedMessage)];
      } else {
        categories := response.rows;
      }
      loading := false;
    }

    /** `handleAddCategory`. A blank name does nothing; otherwise the name is
        inserted as typed, untrimmed. With no user, reading `user.id` throws
        before the insert. `user` and `refetched` also serve the re-fetch. */
    method HandleAddCategory(user: Option<UserId>, insertError: Option<string>, refetched: Response<seq<Category>>)
      modifies this
      ensures Trim(old(newCategory)) == "" || user.None? ==>
                && newCategory == old(newCategory) && categories == old(categories)
                && loading == old(loading) && effects == old(effects)
      ensures Trim(old(newCategory)) != "" && user.Some? && insertError.Some? ==>
                && newCategory == old(newCategory) && categories == old(categories) && loading == old(loading)
                && effects == old(effects) + [Issued(InsertCategory(old(newCategory), user.value), old(loading)),
                                              Alert("Error", AddFailedMessage)]
      ensures Trim(old(newCategory)) != "" && user.Some? && insertError.None? ==>
                && newCategory == "" && !loading
                && categories == (if refetched.Data? then refetched.rows else old(categories))
                && effects == old(effects) + [Issued(InsertCategory(old(newCategory), user.value), old(loading)),
                                              Issued(SelectCategories(user.value), true)]
                                           + (if refetched.Failure? then [Alert("Error", FetchFailedMessage)] else [])
    {
      if Trim(newCategory) == "" {
        return;
      }
      if user.None? {
        return;
      }
      effects := effects + [Issued(InsertCategory(newCategory, user.value), loading)];
      if insertError.Some? {
        effects := effects + [Alert("Error", AddFailedMessage)];
      } else {
        newCategory := "";
        FetchCategories(user, refetched);
      }
    }

    /** `handleDeleteCategory`; `user` and `refetched` serve the re-fetch after
        a successful delete. */
    method HandleDeleteCategory(categoryId: int, deleteError: Option<string>,
                                user: Option<UserId>, refetched: Response<seq<Category>>)
      modifies this
      ensures newCategory == old(newCategory)
      ensures deleteError.Some? ==>
                && categories == old(categories) && loading == old(loading)
                && effects == old(effects) + [Issued(DeleteCategory(categoryId), old(loading)),
                                              Alert("Error", DeleteFailedMessage)]
      ensures deleteError.None? && user.None? ==>
                && loading && categories == old(categories)
                && effects == old(effects) + [Issued(DeleteCategory(categoryId), old(loading))]
      ensures deleteError.None? && user.Some? ==>
                && !loading
                && categories == (if refetched.Data? then refetched.rows else old(categories))
                && effects == old(effects) + [Issued(DeleteCategory(categoryId), old(loading)),
                                              Issued(SelectCategories(user.value), true)]
                                           + (if refetched.Failure? then [Alert("Error", FetchFailedMessage)] else [])
    {
      effects := effects + [Issued(DeleteCategory(categoryId), loading)];
      if deleteError.Some? {
        effects := effects + [Alert("Error", DeleteFailedMessage)];
      } else {
        FetchCategories(user, refetched);
      }
    }
  }
}
