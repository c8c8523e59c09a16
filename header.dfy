/** The site header: hidden on dashboard pages, and otherwise a set of
    navigation links that depends on whether the visitor is signed in. */
module Header {
  import opened Js

  const DashboardPrefix := "/dashboard"

  /** A router link: its target and the translation key of its label. */
  datatype NavLink = NavLink(to: string, labelKey: string)

  /** What the header renders: nothing, or the home link, the auth-dependent
      links and the community link's label key. */
  datatype HeaderView = Hidden | Shown(home: string, links: seq<NavLink>, communityLabelKey: string)

  /** The header: nothing exactly on paths that begin with `/dashboard`;
      elsewhere the home link and a community link whose label key reads
      "community" for members and "join" otherwise. */
  function RenderHeader(pathname: string, isAuthenticated: bool): (v: HeaderView)
    ensures v.Hidden? <==> StartsWith(pathname, DashboardPrefix)
    ensures v.Shown? ==>
      v.home == "/" &&
      v.communityLabelKey == (if isAuthenticated then "header.community" else "header.joinCommunity")
  {
    if StartsWith(pathname, DashboardPrefix) then Hidden
    else if isAuthenticated then
      Shown("/", [NavLink("/dashboard", "header.dashboard"), NavLink("/start-scraping", "header.newExtraction")],
            "header.community")
    else
      Shown("/", [NavLink("/features", "header.features"), NavLink("/pricing", "header.pricing"),
                  NavLink("/start-scraping", "header.startScraping")],
            "header.joinCommunity")
  }

  /** The targets of a list of links, in order. */
  function Targets(links: seq<NavLink>): (r: seq<string>)
    ensures |r| == |links|
    ensures forall k :: 0 <= k < |links| ==> r[k] == links[k].to
  {
    if links == [] then [] else [links[0].to] + Targets(links[1..])
  }

  /** The header is hidden exactly on paths that begin with `/dashboard`,
      which includes `/dashboard` followed by anything at all. */
  lemma HiddenOnDashboardPaths(pathname: string, isAuthenticated: bool, suffix: string)
    ensures RenderHeader(pathname, isAuthenticated).Hidden? <==>
      |pathname| >= |DashboardPrefix| && pathname[..|DashboardPrefix|] == DashboardPrefix
    ensures RenderHeader(DashboardPrefix + suffix, isAuthenticated) == Hidden
  {
    assert (DashboardPrefix + suffix)[..|DashboardPrefix|] == DashboardPrefix;
  }

  /** When shown, a signed-in visitor gets links to the dashboard and to a
      new extraction, and a visitor who is not signed in gets features,
      pricing and the start page. */
  lemma ShownLinks(pathname: string, isAuthenticated: bool)
    requires !StartsWith(pathname, DashboardPrefix)
    ensures RenderHeader(pathname, isAuthenticated).Shown?
    ensures isAuthenticated ==>
      Targets(RenderHeader(pathname, isAuthenticated).links) == ["/dashboard", "/start-scraping"]
    ensures !isAuthenticated ==>
      Targets(RenderHeader(pathname, isAuthenticated).links) == ["/features", "/pricing", "/start-scraping"]
  {
  }

  /** Wherever the header is shown, whether or not the visitor is signed
      in, the start page is linked. */
  lemma StartPageAlwaysLinked(pathname: string, isAuthenticated: bool)
    requires RenderHeader(pathname, isAuthenticated).Shown?
    ensures "/start-scraping" in Targets(RenderHeader(pathname, isAuthenticated).links)
  {
    var links := RenderHeader(pathname, isAuthenticated).links;
    assert Targets(links)[|links| - 1] == "/start-scraping";
  }
}
