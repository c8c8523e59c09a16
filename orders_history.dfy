/** The orders table of the dashboard: the search filter over extraction
    records, the per-row "Continue Scraping" offer, and the continue modal
    whose start button deducts credits from the shared user state. */
module OrdersHistory {
  import opened Wrappers
  import opened Js
  import opened UserContext

  datatype ExtractionType = Followers | Following | Hashtag

  datatype ExtractionStatus = Completed | InProgress | Failed

  /** The string value of an extraction's `type` field. */
  function TypeName(t: ExtractionType): string
  {
    match t
    case Followers => "followers"
    case Following => "following"
    case Hashtag => "hashtag"
  }

  /** One row of the orders table; optional fields are `None` when absent
      (JavaScript `undefined`). The `type` field is called `kind` here. */
  datatype Extraction = Extraction(
    id: string,
    date: string,
    platform: string,
    kind: ExtractionType,
    target: string,
    status: ExtractionStatus,
    progress: Option<int>,
    error: Option<string>,
    lastProcessedId: Option<string>,
    extractedCount: Option<int>,
    totalCount: Option<int>)

  // ---------------------------------------------------------------------
  // Search filter

  /** The filter's test for one extraction: an empty query keeps it;
      otherwise the lowercased query must occur in the lowercased id,
      target or type. */
  predicate MatchesQuery(e: Extraction, searchQuery: string)
    ensures MatchesQuery(e, searchQuery) <==>
      searchQuery == [] ||
      OccursIn(Lower(e.id), Lower(searchQuery)) ||
      OccursIn(Lower(e.target), Lower(searchQuery)) ||
      OccursIn(Lower(TypeName(e.kind)), Lower(searchQuery))
  {
    searchQuery == [] ||
    var query := Lower(searchQuery);
    Includes(Lower(e.id), query) || Includes(Lower(e.target), query) || Includes(Lower(TypeName(e.kind)), query)
  }

  /** `filteredExtractions`: `extractions.filter(...)` with the test above. */
  function FilterExtractions(extractions: seq<Extraction>, searchQuery: string): (r: seq<Extraction>)
    ensures |r| <= |extractions|
    ensures forall k :: 0 <= k < |r| ==> MatchesQuery(r[k], searchQuery)
  {
    if extractions == [] then []
    else
      var rest := FilterExtractions(extractions[1..], searchQuery);
      if MatchesQuery(extractions[0], searchQuery) then [extractions[0]] + rest else rest
  }

  /** `sub` can be obtained from `s` by deleting elements, keeping the order. */
  ghost predicate IsSubsequence<T>(sub: seq<T>, s: seq<T>)
    decreases |s|
  {
    if sub == [] then true
    else if s == [] then false
    else (sub[0] == s[0] && IsSubsequence(sub[1..], s[1..])) || IsSubsequence(sub, s[1..])
  }

  /** An empty search box shows every extraction, in order. */
  lemma {:induction false} FilterEmptyQuery(extractions: seq<Extraction>)
    ensures FilterExtractions(extractions, "") == extractions
  {
    if extractions != [] {
      FilterEmptyQuery(extractions[1..]);
    }
  }

  /** The visible rows keep the order of `extractions`. */
  lemma {:induction false} FilterIsSubsequence(extractions: seq<Extraction>, searchQuery: string)
    ensures IsSubsequence(FilterExtractions(extractions, searchQuery), extractions)
  {
    if extractions != [] {
      FilterIsSubsequence(extractions[1..], searchQuery);
      var rest := FilterExtractions(extractions[1..], searchQuery);
      if !MatchesQuery(extractions[0], searchQuery) && rest != [] {
        assert IsSubsequence(rest, extractions[1..]);
      }
    }
  }

  /** Each extraction appears in the visible rows exactly as often as in
      `extractions` when it matches the query, and not at all otherwise. */
  lemma {:induction false} FilterMultiplicity(extractions: seq<Extraction>, searchQuery: string, e: Extraction)
    ensures multiset(FilterExtractions(extractions, searchQuery))[e]
         == if MatchesQuery(e, searchQuery) then multiset(extractions)[e] else 0
  {
    if extractions != [] {
      var head, tail := extractions[0], extractions[1..];
      FilterMultiplicity(tail, searchQuery, e);
      var rest := FilterExtractions(tail, searchQuery);
      assert extractions == [head] + tail;
      assert multiset(extractions) == multiset([head]) + multiset(tail);
      if MatchesQuery(head, searchQuery) {
        assert FilterExtractions(extractions, searchQuery) == [head] + rest;
        assert multiset([head] + rest) == multiset([head]) + multiset(rest);
      } else {
        assert FilterExtractions(extractions, searchQuery) == rest;
        assert head == e ==> !MatchesQuery(e, searchQuery);
      }
    }
  }

  /** An extraction is visible exactly when it is listed and matches. */
  lemma FilterMembership(extractions: seq<Extraction>, searchQuery: string, e: Extraction)
    ensures e in FilterExtractions(extractions, searchQuery) <==> e in extractions && MatchesQuery(e, searchQuery)
  {
    FilterMultiplicity(extractions, searchQuery, e);
  }

  /** Filtering the visible rows again with the same query changes nothing. */
  lemma {:induction false} FilterIdempotent(extractions: seq<Extraction>, searchQuery: string)
    ensures FilterExtractions(FilterExtractions(extractions, searchQuery), searchQuery)
         == FilterExtractions(extractions, searchQuery)
  {
    if extractions != [] {
      FilterIdempotent(extractions[1..], searchQuery);
    }
  }

  /** A query that extends another can only match less. */
  lemma MatchesShorterQuery(e: Extraction, query: string, more: string)
    requires MatchesQuery(e, query + more)
    ensures MatchesQuery(e, query)
  {
    if query != [] {
      LowerConcat(query, more);
      var q, m := Lower(query), Lower(more);
      assert Lower(query + more) == q + m;
      if Includes(Lower(e.id), q + m) {
        IncludesLonger(Lower(e.id), q, m);
      } else if Includes(Lower(e.target), q + m) {
        IncludesLonger(Lower(e.target), q, m);
      } else {
        IncludesLonger(Lower(TypeName(e.kind)), q, m);
      }
    }
  }

  /** Typing more characters into the search box narrows the visible rows:
      the new rows are an ordered subsequence of the old ones. */
  lemma {:induction false} FilterNarrows(extractions: seq<Extraction>, query: string, more: string)
    ensures IsSubsequence(FilterExtractions(extractions, query + more), FilterExtractions(extractions, query))
  {
    if extractions != [] {
      FilterNarrows(extractions[1..], query, more);
      var head := extractions[0];
      var narrow := FilterExtractions(extractions[1..], query + more);
      var wide := FilterExtractions(extractions[1..], query);
      if MatchesQuery(head, query + more) {
        MatchesShorterQuery(head, query, more);
        assert ([head] + wide)[1..] == wide;
      } else if MatchesQuery(head, query) && narrow != [] {
        assert ([head] + wide)[1..] == wide;
      }
    }
  }

  /** The search ignores the case of the query: a query and its lowercased
      form select the same rows. */
  lemma {:induction false} QueryCaseInsensitive(extractions: seq<Extraction>, searchQuery: string)
    ensures FilterExtractions(extractions, Lower(searchQuery)) == FilterExtractions(extractions, searchQuery)
  {
    LowerIdempotent(searchQuery);
    if extractions != [] {
      QueryCaseInsensitive(extractions[1..], searchQuery);
      assert MatchesQuery(extractions[0], Lower(searchQuery)) == MatchesQuery(extractions[0], searchQuery);
    }
  }

  // ---------------------------------------------------------------------
  // Row actions and the modal's figures

  /** JavaScript `a < b` on optional numbers: `undefined` compares false. */
  predicate LessThan(a: Option<int>, b: Option<int>)
  {
    a.Some? && b.Some? && a.value < b.value
  }

  /** The "Remaining" figure, `totalCount - extractedCount`; `None` stands
      for the `NaN` shown when either count is missing. */
  function RemainingCount(e: Extraction): (r: Option<int>)
    ensures r.Some? <==> e.totalCount.Some? && e.extractedCount.Some?
    ensures r.Some? ==> e.extractedCount.value + r.value == e.totalCount.value
  {
    if e.totalCount.Some? && e.extractedCount.Some? then Some(e.totalCount.value - e.extractedCount.value) else None
  }

  /** Whether the row offers "Continue Scraping": every failed extraction,
      and a completed one that stopped short of its total, that is, one with
      a positive remaining count; never one in progress. */
  predicate ContinueOffered(e: Extraction)
    ensures ContinueOffered(e) <==>
      e.status == Failed ||
      (e.status == Completed && RemainingCount(e).Some? && RemainingCount(e).value > 0)
  {
    match e.status
    case Failed => true
    case Completed => LessThan(e.extractedCount, e.totalCount)
    case InProgress => false
  }

  /** The "Remaining Credits" figure of the modal. */
  function RemainingCredits(credits: int, creditsToUse: int): (r: int)
    ensures r + creditsToUse == credits
  {
    credits - creditsToUse
  }

  /** The start button's `disabled` expression. It is enabled exactly when
      nothing is loading, the terms are agreed and the amount lies between
      the plan's minimum and the balance; so an enabled start spends at least
      one credit (500 once the free credits are used) and leaves a balance
      that is not negative. */
  predicate StartDisabled(loading: bool, agreedToTerms: bool, creditsToUse: int, hasUsedFreeCredits: bool, credits: int)
    ensures !StartDisabled(loading, agreedToTerms, creditsToUse, hasUsedFreeCredits, credits) <==>
      !loading && agreedToTerms && MinimumCredits(hasUsedFreeCredits) <= creditsToUse <= credits
    ensures !StartDisabled(loading, agreedToTerms, creditsToUse, hasUsedFreeCredits, credits) ==>
      creditsToUse >= 1 && RemainingCredits(credits, creditsToUse) >= 0
    ensures !StartDisabled(loading, agreedToTerms, creditsToUse, hasUsedFreeCredits, credits) && hasUsedFreeCredits ==>
      creditsToUse >= 500
  {
    loading || !agreedToTerms || creditsToUse < MinimumCredits(hasUsedFreeCredits) || creditsToUse > credits
  }

  // ---------------------------------------------------------------------
  // The component's state

  const OrdersRoute := "/dashboard/orders"

  class OrdersView {
    /** The shared credit state (`credits`, `setCredits`, `hasUsedFreeCredits`). */
    const user: UserProvider
    var searchQuery: string
    var extractions: seq<Extraction>
    var showContinueModal: bool
    var selectedExtraction: Option<Extraction>
    var creditsToUse: int
    var loading: bool
    var agreedToTerms: bool
    /** The `creditsToUse` captured by each start handler still waiting for
        its 2-second timer, oldest first. */
    var pendingDeductions: seq<int>
    /** The last route passed to `navigate`, if any. */
    var navigation: Option<string>

    /** What the page's own controls maintain: the modal is shown exactly
        when an extraction is selected, `loading` means one start is
        pending, and a pending deduction is at least one credit and within
        the balance. */
    ghost predicate Valid()
      reads this, user
    {
      (showContinueModal <==> selectedExtraction.Some?) &&
      (loading <==> pendingDeductions != []) &&
      |pendingDeductions| <= 1 &&
      (loading ==> showContinueModal) &&
      forall k :: 0 <= k < |pendingDeductions| ==> 1 <= pendingDeductions[k] <= user.credits
    }

    /** The modal is rendered (`showContinueModal && selectedExtraction`). */
    predicate ModalVisible()
      reads this
    {
      showContinueModal && selectedExtraction.Some?
    }

    /** The start button's `disabled` state, read from the component and the
        shared user state. */
    predicate StartButtonDisabled()
      reads this, user
    {
      StartDisabled(loading, agreedToTerms, creditsToUse, user.hasUsedFreeCredits, user.credits)
    }

    /** Initial state: empty search and list, modal closed, 500 credits
        preselected, terms not agreed, nothing loading. */
    constructor (user: UserProvider)
      ensures this.user == user
      ensures searchQuery == "" && extractions == []
      ensures !showContinueModal && selectedExtraction.None?
      ensures creditsToUse == 500 && !loading && !agreedToTerms
      ensures pendingDeductions == [] && navigation.None?
      ensures Valid()
    {
      this.user := user;
      searchQuery := "";
      extractions := [];
      showContinueModal := false;
      selectedExtraction := None;
      creditsToUse := 500;
      loading := false;
      agreedToTerms := false;
      pendingDeductions := [];
      navigation := None;
    }

    /** Typing into the search box. */
    method SetSearchQuery(query: string)
      modifies this`searchQuery
      ensures searchQuery == query
      ensures old(Valid()) ==> Valid()
    {
      searchQuery := query;
    }

    /** `handleContinueScraping`: select the row, show the modal, and reset
        the amount to the plan's minimum. */
    method HandleContinueScraping(extraction: Extraction)
      modifies this`selectedExtraction, this`showContinueModal, this`creditsToUse
      ensures selectedExtraction == Some(extraction) && showContinueModal
      ensures creditsToUse == MinimumCredits(user.hasUsedFreeCredits)
      ensures creditsToUse == (if user.hasUsedFreeCredits then 500 else 1)
      ensures old(Valid()) ==> Valid()
    {
      selectedExtraction := Some(extraction);
      showContinueModal := true;
      creditsToUse := MinimumCredits(user.hasUsedFreeCredits);
    }

    /** The credits input: `parseInt(value) || 0`. */
    method SetCreditsToUse(parsed: Option<int>)
      modifies this`creditsToUse
      ensures creditsToUse == IntOrZero(parsed)
      ensures old(Valid()) ==> Valid()
    {
      creditsToUse := IntOrZero(parsed);
    }

    /** The terms checkbox. */
    method SetAgreedToTerms(agreed: bool)
      modifies this`agreedToTerms
      ensures agreedToTerms == agreed
      ensures old(Valid()) ==> Valid()
    {
      agreedToTerms := agreed;
    }

    /** `handleStartExtraction` up to its `await`: without a selection or
        without agreed terms nothing happens; otherwise `loading` is set and
        a deduction of the current `creditsToUse` is scheduled. */
    method HandleStartExtraction()
      modifies this`loading, this`pendingDeductions
      ensures selectedExtraction.None? || !agreedToTerms ==>
        loading == old(loading) && pendingDeductions == old(pendingDeductions)
      ensures selectedExtraction.Some? && agreedToTerms ==>
        loading && pendingDeductions == old(pendingDeductions) + [creditsToUse]
    {
      if selectedExtraction.None? || !agreedToTerms {
        return;
      }
      loading := true;
      pendingDeductions := pendingDeductions + [creditsToUse];
    }

    /** The rest of `handleStartExtraction` once the oldest timer fires:
        deduct the captured amount, close and reset the modal, navigate to
        the orders page, and clear `loading`. Started through the page's
        controls, the balance it leaves is not negative. */
    method CompleteStartExtraction()
      requires pendingDeductions != []
      modifies this`showContinueModal, this`selectedExtraction, this`agreedToTerms, this`loading,
        this`pendingDeductions, this`navigation, user`credits
      ensures user.credits == old(user.credits) - old(pendingDeductions[0])
      ensures !showContinueModal && selectedExtraction.None? && !agreedToTerms && !loading
      ensures pendingDeductions == old(pendingDeductions[1..])
      ensures navigation == Some(OrdersRoute)
      ensures old(Valid()) ==> Valid() && user.credits >= 0
    {
      var amount := pendingDeductions[0];
      user.UpdateCredits(prev => prev - amount);
      pendingDeductions := pendingDeductions[1..];
      showContinueModal := false;
      selectedExtraction := None;
      agreedToTerms := false;
      navigation := Some(OrdersRoute);
      loading := false;
    }

    /** A click on the modal's start button: nothing while it is disabled,
        otherwise the start handler runs. */
    method ClickStartButton()
      requires Valid() && ModalVisible()
      modifies this`loading, this`pendingDeductions
      ensures Valid()
      ensures old(StartButtonDisabled()) ==> loading == old(loading) && pendingDeductions == old(pendingDeductions)
      ensures !old(StartButtonDisabled()) ==> loading && pendingDeductions == [creditsToUse]
    {
      if !StartButtonDisabled() {
        HandleStartExtraction();
      }
    }

    /** A start click whose timer fires before anything else happens: an
        enabled start spends exactly the amount shown, leaves a balance that
        is not negative and resets the modal; a disabled one changes nothing.
        It starts from an idle modal, as no second start can be pending. */
    method StartExtractionUninterrupted()
      requires Valid() && ModalVisible() && !loading
      modifies this`showContinueModal, this`selectedExtraction, this`agreedToTerms, this`loading,
        this`pendingDeductions, this`navigation, user`credits
      ensures Valid()
      ensures old(StartButtonDisabled()) ==>
        user.credits == old(user.credits) && ModalVisible() && agreedToTerms == old(agreedToTerms) &&
        loading == old(loading) && navigation == old(navigation) &&
        showContinueModal == old(showContinueModal) && selectedExtraction == old(selectedExtraction) &&
        pendingDeductions == old(pendingDeductions)
      ensures !old(StartButtonDisabled()) ==>
        user.credits == old(user.credits) - creditsToUse && user.credits >= 0 &&
        !showContinueModal && selectedExtraction.None? && !agreedToTerms && !loading &&
        navigation == Some(OrdersRoute)
    {
      ClickStartButton();
      if loading {
        CompleteStartExtraction();
      }
    }

    /** The backdrop's click handler; the Cancel button runs the same code.
        While loading nothing changes; otherwise the modal closes, the
        selection and the agreement are cleared, and the balance and amount
        stay as they were. */
    method CloseContinueModal()
      modifies this`showContinueModal, this`selectedExtraction, this`agreedToTerms
      ensures old(loading) ==>
        showContinueModal == old(showContinueModal) && selectedExtraction == old(selectedExtraction) &&
        agreedToTerms == old(agreedToTerms)
      ensures !old(loading) ==> !showContinueModal && selectedExtraction.None? && !agreedToTerms
      ensures old(Valid()) ==> Valid()
    {
      if !loading {
        showContinueModal := false;
        selectedExtraction := None;
        agreedToTerms := false;
      }
    }
  }
}
