/** The shared credit state of the signed-in user: a provider holding
    `credits`, `hasUsedFreeCredits` and `loading`, refreshed from the
    `users` table of the backend. The table lookup is not performed here;
    its outcome is passed in as a `Result`. */
module UserContext {
  import opened Wrappers

  /** The authenticated identity the provider tracks. */
  datatype AuthUser = AuthUser(id: string)

  /** The selected columns of a `users` row. */
  datatype UserRow = UserRow(credits: int, hasUsedFreeCredits: bool, planId: Option<string>)

  /** Outcome of the single-row lookup by user id: the row, or the backend's error message. */
  type Lookup = Result<UserRow, string>

  /** The smallest credit amount an extraction may use: 500 once the free
      credits have been spent, 1 for the first extraction. */
  function MinimumCredits(hasUsedFreeCredits: bool): (m: int)
    ensures m >= 1
    ensures m == 500 <==> hasUsedFreeCredits
  {
    if hasUsedFreeCredits then 500 else 1
  }

  class UserProvider {
    var credits: int
    var hasUsedFreeCredits: bool
    var loading: bool

    /** A provider starts with no credits, free credits unused, and loading. */
    constructor ()
      ensures credits == 0 && !hasUsedFreeCredits && loading
    {
      credits := 0;
      hasUsedFreeCredits := false;
      loading := true;
    }

    /** `setCredits(prev => f(prev))`, as exposed to the pages. */
    method UpdateCredits(f: int -> int)
      modifies this`credits
      ensures credits == f(old(credits))
    {
      credits := f(credits);
    }

    /** `setHasUsedFreeCredits(value)`. */
    method SetHasUsedFreeCredits(value: bool)
      modifies this`hasUsedFreeCredits
      ensures hasUsedFreeCredits == value
    {
      hasUsedFreeCredits := value;
    }

    /** `refreshCredits` for the current `user`. Without a user nothing
        changes. With one, a found row replaces both credit fields, a failed
        lookup keeps them, and `loading` ends false either way. */
    method RefreshCredits(user: Option<AuthUser>, lookup: Lookup)
      modifies this
      ensures user.None? ==>
        credits == old(credits) && hasUsedFreeCredits == old(hasUsedFreeCredits) && loading == old(loading)
      ensures user.Some? && lookup.Ok? ==>
        credits == lookup.value.credits && hasUsedFreeCredits == lookup.value.hasUsedFreeCredits
      ensures user.Some? && lookup.Err? ==>
        credits == old(credits) && hasUsedFreeCredits == old(hasUsedFreeCredits)
      ensures user.Some? ==> !loading
    {
      if user.None? {
        return;
      }
      loading := true;
      match lookup {
        case Ok(row) =>
          credits := row.credits;
          hasUsedFreeCredits := row.hasUsedFreeCredits;
        case Err(_) =>
      }
      loading := false;
    }

    /** The effect run whenever `user` changes: refresh for a signed-in user,
        otherwise reset to no credits, free credits unused, not loading. */
    method OnUserChanged(user: Option<AuthUser>, lookup: Lookup)
      modifies this
      ensures user.None? ==> credits == 0 && !hasUsedFreeCredits && !loading
      ensures user.Some? && lookup.Ok? ==>
        credits == lookup.value.credits && hasUsedFreeCredits == lookup.value.hasUsedFreeCredits
      ensures user.Some? && lookup.Err? ==>
        credits == old(credits) && hasUsedFreeCredits == old(hasUsedFreeCredits)
      ensures !loading
    {
      if user.Some? {
        RefreshCredits(user, lookup);
      } else {
        credits := 0;
        hasUsedFreeCredits := false;
        loading := false;
      }
    }
  }

  const OutsideProviderMessage := "useUser must be used within a UserProvider"

  /** `useUser()`: the nearest provider, or the error thrown when a
      component is rendered outside every provider. */
  function UseUser(context: Option<UserProvider>): (r: Result<UserProvider, string>)
    ensures r.Ok? <==> context.Some?
    ensures r.Ok? ==> r.value == context.value
    ensures r.Err? ==> r.error == OutsideProviderMessage
  {
    match context
    case Some(p) => Ok(p)
    case None => Err(OutsideProviderMessage)
  }
}
