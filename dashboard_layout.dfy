/** The dashboard shell that wraps every protected page: the session gate,
    the navigation list with its "current" highlight, and the mobile
    sidebar's open/closed flag. */
module DashboardLayout {
  import opened Wrappers

  /** The session status reported by the authentication library. */
  datatype Status = Loading | Unauthenticated | Authenticated

  /** What the shell shows of the signed-in user. */
  datatype Identity = Identity(name: string, email: string)

  const LoginRoute: string := "/login"
  const OverviewHref: string := "/dashboard"
  const UsersHref: string := "/dashboard/users"
  const SubscriptionHref: string := "/dashboard/subscription"

  datatype NavItem = NavItem(name: string, href: string, current: bool)

  /** The sidebar's navigation for the page at `pathname`. */
  function Navigation(pathname: string): (nav: seq<NavItem>)
    ensures |nav| == 3
    ensures nav[0].href == OverviewHref && nav[1].href == UsersHref && nav[2].href == SubscriptionHref
    ensures forall k :: 0 <= k < |nav| ==> (nav[k].current <==> pathname == nav[k].href)
    ensures forall j, k :: 0 <= j < |nav| && 0 <= k < |nav| && nav[j].current && nav[k].current ==> j == k
    ensures (exists k :: 0 <= k < |nav| && nav[k].current) <==>
              pathname == OverviewHref || pathname == UsersHref || pathname == SubscriptionHref
  {
    var nav := [
      NavItem("Overview", OverviewHref, pathname == OverviewHref),
      NavItem("User List", UsersHref, pathname == UsersHref),
      NavItem("Subscription", SubscriptionHref, pathname == SubscriptionHref)
    ];
    assert OverviewHref != UsersHref && UsersHref != SubscriptionHref && OverviewHref != SubscriptionHref by {
      assert |OverviewHref| == 10 && |UsersHref| == 16 && |SubscriptionHref| == 23;
    }
    nav
  }

  /** What the shell renders: the loading screen, nothing at all, or the
      sidebar and header around the page's own content. */
  datatype View =
    | LoadingScreen
    | NoContent
    | Shell(identity: Identity, navigation: seq<NavItem>, overlayShown: bool)

  /** Whether the wrapped page's content appears. */
  predicate ChildrenRendered(v: View) {
    v.Shell?
  }

  /** The route the mount effect navigates to, if any. */
  function Redirect(status: Status): (route: Option<string>)
    ensures route.Some? <==> status == Unauthenticated
    ensures route.Some? ==> route.value == LoginRoute
  {
    if status == Unauthenticated then Some(LoginRoute) else None
  }

  /** The render result for the session's `status` and data. */
  function Render(status: Status, session: Option<Identity>, pathname: string, sidebarOpen: bool): (v: View)
    ensures v.LoadingScreen? <==> status == Loading
    ensures v.NoContent? <==> status != Loading && session.None?
    ensures ChildrenRendered(v) <==> status != Loading && session.Some?
    ensures v.Shell? ==> v.identity == session.value && v.navigation == Navigation(pathname)
    ensures v.Shell? ==> (v.overlayShown <==> sidebarOpen)
  {
    if status == Loading then LoadingScreen
    else if session.None? then NoContent
    else Shell(session.value, Navigation(pathname), sidebarOpen)
  }

  /** An unauthenticated visitor (the library reports no session data then)
      is sent to the login route and never sees the protected content. */
  lemma UnauthenticatedVisitRedirects(session: Option<Identity>, pathname: string, sidebarOpen: bool)
    requires session.None?
    ensures Redirect(Unauthenticated) == Some(LoginRoute)
    ensures !ChildrenRendered(Render(Unauthenticated, session, pathname, sidebarOpen))
  {
  }

  /** The clickable things that open or close the mobile sidebar. */
  datatype SidebarEvent = OverlayClicked | CloseClicked | NavLinkClicked(href: string) | MenuClicked

  /** The shell's component state. */
  class LayoutState {
    var sidebarOpen: bool

    constructor ()
      ensures !sidebarOpen
    {
      sidebarOpen := false;
    }

    /** The overlay, the close button and every navigation link close the
        sidebar; the menu button opens it. */
    method Handle(e: SidebarEvent)
      modifies this
      ensures sidebarOpen <==> e.MenuClicked?
    {
      match e
      case OverlayClicked => sidebarOpen := false;
      case CloseClicked => sidebarOpen := false;
      case NavLinkClicked(_) => sidebarOpen := false;
      case MenuClicked => sidebarOpen := true;
    }
  }
}
