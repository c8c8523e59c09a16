/** The start-scraping page: a sign-up / sign-in form for visitors and an
    extraction form for signed-in users. The sign-up and sign-in calls are
    not performed here; their outcome is passed in as an `AuthOutcome`. */
module StartScrapingPage {
  import opened Wrappers
  import opened Js
  import opened UserContext

  datatype AuthMode = Login | Register

  /** The extraction form's settings. */
  datatype ExtractionConfig = ExtractionConfig(
    isHashtagMode: bool,
    profileUrl: string,
    hashtag: string,
    extractFollowers: bool,
    extractFollowing: bool,
    creditsToUse: int)

  // ---------------------------------------------------------------------
  // The extraction form, as updates of its settings

  /** The settings a page starts with: profile mode, followers only, no
      target typed yet, and the plan's minimum amount of credits. */
  function InitialConfig(hasUsedFreeCredits: bool): (c: ExtractionConfig)
    ensures !c.isHashtagMode && c.profileUrl == "" && c.hashtag == ""
    ensures c.extractFollowers && !c.extractFollowing
    ensures c.creditsToUse == (if hasUsedFreeCredits then 500 else 1)
  {
    ExtractionConfig(false, "", "", true, false, MinimumCredits(hasUsedFreeCredits))
  }

  /** The text shown in the target input: the hashtag in hashtag mode, the
      profile URL otherwise. */
  function TargetValue(c: ExtractionConfig): (r: string)
    ensures c.isHashtagMode ==> r == c.hashtag
    ensures !c.isHashtagMode ==> r == c.profileUrl
  {
    if c.isHashtagMode then c.hashtag else c.profileUrl
  }

  /** The Profile and Hashtag buttons: only the mode changes. */
  function WithHashtagMode(prev: ExtractionConfig, hashtagMode: bool): (c: ExtractionConfig)
    ensures c.isHashtagMode == hashtagMode
    ensures c.(isHashtagMode := prev.isHashtagMode) == prev
  {
    prev.(isHashtagMode := hashtagMode)
  }

  /** Typing into the target input: what is typed is what the input then
      shows, the mode and the other mode's text are kept, and nothing else
      changes. */
  function WithTarget(prev: ExtractionConfig, value: string): (c: ExtractionConfig)
    ensures TargetValue(c) == value
    ensures c.isHashtagMode == prev.isHashtagMode
    ensures c.isHashtagMode ==> c.profileUrl == prev.profileUrl
    ensures !c.isHashtagMode ==> c.hashtag == prev.hashtag
    ensures c.extractFollowers == prev.extractFollowers && c.extractFollowing == prev.extractFollowing
    ensures c.creditsToUse == prev.creditsToUse
  {
    if prev.isHashtagMode then prev.(hashtag := value) else prev.(profileUrl := value)
  }

  /** The Followers checkbox: only `extractFollowers` changes. */
  function WithExtractFollowers(prev: ExtractionConfig, checked: bool): (c: ExtractionConfig)
    ensures c.extractFollowers == checked
    ensures c.(extractFollowers := prev.extractFollowers) == prev
  {
    prev.(extractFollowers := checked)
  }

  /** The Following checkbox: only `extractFollowing` changes. */
  function WithExtractFollowing(prev: ExtractionConfig, checked: bool): (c: ExtractionConfig)
    ensures c.extractFollowing == checked
    ensures c.(extractFollowing := prev.extractFollowing) == prev
  {
    prev.(extractFollowing := checked)
  }

  /** The credits input, `parseInt(value) || 0`: an unparsable entry gives 0,
      and only `creditsToUse` changes. */
  function WithCreditsInput(prev: ExtractionConfig, parsed: Option<int>): (c: ExtractionConfig)
    ensures parsed.None? ==> c.creditsToUse == 0
    ensures parsed.Some? ==> c.creditsToUse == parsed.value
    ensures c.(creditsToUse := prev.creditsToUse) == prev
  {
    prev.(creditsToUse := IntOrZero(parsed))
  }

  /** Switching modes loses no typed text: going to the other mode and back
      shows the same target again, and typing in the other mode meanwhile
      does not touch it. */
  lemma TargetSurvivesModeSwitch(c: ExtractionConfig, typedElsewhere: string)
    ensures TargetValue(WithHashtagMode(WithHashtagMode(c, !c.isHashtagMode), c.isHashtagMode)) == TargetValue(c)
    ensures TargetValue(WithHashtagMode(WithTarget(WithHashtagMode(c, !c.isHashtagMode), typedElsewhere), c.isHashtagMode))
         == TargetValue(c)
  {
  }

  // ---------------------------------------------------------------------
  // The authentication form

  /** The submit button's `disabled` expression. Submitting is possible
      exactly when nothing is loading and, to register, the terms are agreed
      and both names are filled in; signing in is held back by `loading`
      alone. */
  predicate SubmitDisabled(loading: bool, authState: AuthMode, agreedToTerms: bool, firstName: string, lastName: string)
    ensures !SubmitDisabled(loading, authState, agreedToTerms, firstName, lastName) <==>
      !loading && (authState == Register ==> agreedToTerms && |firstName| > 0 && |lastName| > 0)
    ensures authState == Login ==> (SubmitDisabled(loading, authState, agreedToTerms, firstName, lastName) <==> loading)
  {
    loading || (authState == Register && (!agreedToTerms || firstName == "" || lastName == ""))
  }

  /** Whether a submission is stopped before `handleSubmit` runs: by the
      disabled button, or by the browser's `required` check on the inputs
      that are rendered (email and password always, both names only when
      registering). It goes through exactly when nothing is loading, email
      and password are filled in, and, to register, the terms are agreed and
      both names are filled in. */
  predicate SubmitBlocked(loading: bool, authState: AuthMode, agreedToTerms: bool,
                          firstName: string, lastName: string, email: string, password: string)
    ensures !SubmitBlocked(loading, authState, agreedToTerms, firstName, lastName, email, password) <==>
      !loading && |email| > 0 && |password| > 0 &&
      (authState == Register ==> agreedToTerms && |firstName| > 0 && |lastName| > 0)
  {
    SubmitDisabled(loading, authState, agreedToTerms, firstName, lastName) ||
    email == "" || password == "" ||
    (authState == Register && (firstName == "" || lastName == ""))
  }

  /** How a sign-up or sign-in request ends: success, an
      `AuthenticationError` with its message and code, or any other error. */
  datatype AuthOutcome = Succeeded | AuthenticationError(message: string, code: string) | OtherError

  const UserAlreadyExists := "user_already_exists"
  const UnexpectedErrorMessage := "An unexpected error occurred. Please try again."
  const VerifyEmailRoute := "/verify-email"
  const DashboardRoute := "/dashboard"

  /** Where a successful request leads: after registering, to email
      verification; after signing in, to the dashboard if the account was
      already verified, and to email verification otherwise. */
  function SuccessRoute(mode: AuthMode, isVerified: bool): (route: string)
    ensures route == DashboardRoute <==> mode == Login && isVerified
    ensures route == VerifyEmailRoute <==> !(mode == Login && isVerified)
  {
    match mode
    case Register => VerifyEmailRoute
    case Login => if isVerified then DashboardRoute else VerifyEmailRoute
  }

  class ScrapingPage {
    var authState: AuthMode
    var firstName: string
    var lastName: string
    var email: string
    var password: string
    var showPassword: bool
    var loading: bool
    var error: string
    var agreedToTerms: bool
    var extractionConfig: ExtractionConfig
    /** The request in flight, sign-up or sign-in, if any. */
    var pendingSubmit: Option<AuthMode>
    /** The last route passed to `navigate`, if any. */
    var navigation: Option<string>

    /** `loading` is set exactly while a request is in flight. */
    ghost predicate Valid()
      reads this
    {
      loading <==> pendingSubmit.Some?
    }

    /** `SubmitBlocked` on the page's current fields. */
    predicate SubmissionBlocked()
      reads this
    {
      SubmitBlocked(loading, authState, agreedToTerms, firstName, lastName, email, password)
    }

    /** A page opens on the registration form with every field empty and the
        initial extraction settings. */
    constructor (hasUsedFreeCredits: bool)
      ensures authState == Register
      ensures firstName == "" && lastName == "" && email == "" && password == ""
      ensures !showPassword && !loading && error == "" && !agreedToTerms
      ensures extractionConfig == InitialConfig(hasUsedFreeCredits)
      ensures pendingSubmit.None? && navigation.None?
      ensures Valid()
    {
      authState := Register;
      firstName, lastName, email, password := "", "", "", "";
      showPassword, loading, error, agreedToTerms := false, false, "", false;
      extractionConfig := InitialConfig(hasUsedFreeCredits);
      pendingSubmit, navigation := None, None;
    }

    method SetFirstName(value: string)
      modifies this`firstName
      ensures firstName == value
    {
      firstName := value;
    }

    method SetLastName(value: string)
      modifies this`lastName
      ensures lastName == value
    {
      lastName := value;
    }

    method SetEmail(value: string)
      modifies this`email
      ensures email == value
    {
      email := value;
    }

    method SetPassword(value: string)
      modifies this`password
      ensures password == value
    {
      password := value;
    }

    /** The eye button beside the password. */
    method ToggleShowPassword()
      modifies this`showPassword
      ensures showPassword == !old(showPassword)
    {
      showPassword := !showPassword;
    }

    method SetAgreedToTerms(agreed: bool)
      modifies this`agreedToTerms
      ensures agreedToTerms == agreed
    {
      agreedToTerms := agreed;
    }

    /** `setExtractionConfig(prev => update(prev))`, used by every control of
        the extraction form with one of the `With…` updates above. */
    method UpdateExtractionConfig(update: ExtractionConfig -> ExtractionConfig)
      modifies this`extractionConfig
      ensures extractionConfig == update(old(extractionConfig))
    {
      extractionConfig := update(extractionConfig);
    }

    /** The link under the form: switch between signing in and registering,
        clear both names and the error, keep email and password. */
    method ToggleAuthMode()
      modifies this`authState, this`firstName, this`lastName, this`error
      ensures authState != old(authState)
      ensures firstName == "" && lastName == "" && error == ""
    {
      authState := if authState == Login then Register else Login;
      firstName := "";
      lastName := "";
      error := "";
    }

    /** Submitting the form: nothing while the submit button is disabled or
        a required input is empty; otherwise `handleSubmit` up to its
        `await` sets `loading`, clears
        the error and sends a sign-up or a sign-in request for the current
        mode. */
    method SubmitForm()
      requires Valid()
      modifies this`loading, this`error, this`pendingSubmit
      ensures Valid()
      ensures old(SubmissionBlocked()) ==>
        loading == old(loading) && error == old(error) && pendingSubmit == old(pendingSubmit)
      ensures !old(SubmissionBlocked()) ==> loading && error == "" && pendingSubmit == Some(authState)
    {
      if SubmissionBlocked() {
        return;
      }
      loading := true;
      error := "";
      pendingSubmit := Some(authState);
    }

    /** The rest of `handleSubmit` once the request settles. Success
        navigates to `SuccessRoute`, with `isVerified` as read when the form
        was submitted. An `AuthenticationError` shows its message, and for an
        existing user switches to signing in and clears the password. Any
        other error shows the generic message. `loading` ends false. */
    method CompleteSubmit(outcome: AuthOutcome, isVerified: bool)
      requires pendingSubmit.Some?
      modifies this`error, this`authState, this`password, this`navigation, this`loading, this`pendingSubmit
      ensures Valid() && !loading
      ensures outcome.Succeeded? ==>
        navigation == Some(SuccessRoute(old(pendingSubmit.value), isVerified)) &&
        error == old(error) && authState == old(authState) && password == old(password)
      ensures outcome.AuthenticationError? ==> error == outcome.message && navigation == old(navigation)
      ensures outcome.AuthenticationError? && outcome.code == UserAlreadyExists ==>
        authState == Login && password == ""
      ensures outcome.AuthenticationError? && outcome.code != UserAlreadyExists ==>
        authState == old(authState) && password == old(password)
      ensures outcome.OtherError? ==>
        error == UnexpectedErrorMessage && navigation == old(navigation) &&
        authState == old(authState) && password == old(password)
    {
      var mode := pendingSubmit.value;
      match outcome {
        case Succeeded =>
          navigation := Some(SuccessRoute(mode, isVerified));
        case AuthenticationError(message, code) =>
          error := message;
          if code == UserAlreadyExists {
            authState := Login;
            password := "";
          }
        case OtherError =>
          error := UnexpectedErrorMessage;
      }
      pendingSubmit := None;
      loading := false;
    }

    /** A submission whose request settles before anything else happens:
        a blocked submission changes nothing; otherwise the error is first
        cleared and stays clear on success, the outcome is applied as in
        `CompleteSubmit`, and `loading` ends false. */
    method SubmitUninterrupted(outcome: AuthOutcome, isVerified: bool)
      requires Valid() && !loading
      modifies this`error, this`authState, this`password, this`navigation, this`loading, this`pendingSubmit
      ensures Valid() && !loading
      ensures old(SubmissionBlocked()) ==>
        error == old(error) && authState == old(authState) && password == old(password) &&
        navigation == old(navigation) && pendingSubmit == old(pendingSubmit)
      ensures !old(SubmissionBlocked()) && outcome.Succeeded? ==>
        error == "" && navigation == Some(SuccessRoute(old(authState), isVerified)) &&
        authState == old(authState) && password == old(password)
      ensures !old(SubmissionBlocked()) && outcome.AuthenticationError? ==>
        error == outcome.message && navigation == old(navigation)
      ensures !old(SubmissionBlocked()) && outcome.AuthenticationError? && outcome.code == UserAlreadyExists ==>
        authState == Login && password == ""
      ensures !old(SubmissionBlocked()) && outcome.AuthenticationError? && outcome.code != UserAlreadyExists ==>
        authState == old(authState) && password == old(password)
      ensures !old(SubmissionBlocked()) && outcome.OtherError? ==>
        error == UnexpectedErrorMessage && navigation == old(navigation) &&
        authState == old(authState) && password == old(password)
    {
      SubmitForm();
      if loading {
        CompleteSubmit(outcome, isVerified);
      }
    }
  }
}
