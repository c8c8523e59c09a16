/** The guard around the dashboard's routes. */
module PrivateRoute {

  const StartScrapingRoute := "/start-scraping"
  const VerifyEmailRoute := "/verify-email"

  /** What the guard renders: a redirect, or the protected children. */
  datatype RouteDecision = Redirect(to: string) | RenderChildren

  /** A visitor who is not signed in is sent to the start page whatever the
      verification flag says; a signed-in but unverified user is sent to
      email verification; the children appear only for a verified user. */
  function Decide(isAuthenticated: bool, isVerified: bool): (d: RouteDecision)
    ensures !isAuthenticated ==> d == Redirect(StartScrapingRoute)
    ensures isAuthenticated && !isVerified ==> d == Redirect(VerifyEmailRoute)
    ensures d == RenderChildren <==> isAuthenticated && isVerified
  {
    if !isAuthenticated then Redirect(StartScrapingRoute)
    else if !isVerified then Redirect(VerifyEmailRoute)
    else RenderChildren
  }

  /** Every input gets one of the three outcomes, and they are told apart by
      the inputs alone: the redirect to the start page exactly when not
      signed in, to email verification exactly when signed in but
      unverified. */
  lemma DecisionTotal(isAuthenticated: bool, isVerified: bool)
    ensures var d := Decide(isAuthenticated, isVerified);
      d in {Redirect(StartScrapingRoute), Redirect(VerifyEmailRoute), RenderChildren}
    ensures Decide(isAuthenticated, isVerified) == Redirect(StartScrapingRoute) <==> !isAuthenticated
    ensures Decide(isAuthenticated, isVerified) == Redirect(VerifyEmailRoute) <==> isAuthenticated && !isVerified
  {
  }
}
