/**
 * The route table of the app: which page each path renders for a signed-in
 * or signed-out visitor, where it redirects otherwise, and the layout
 * wrapped around the protected pages.
 */
module App {
  import opened Common

  /** `!!currentUser` */
  predicate IsAuthenticated(currentUser: Option<AuthUser>)
  {
    currentUser.Some?
  }

  datatype Screen =
    | LoginScreen | SignUpScreen | OnboardingScreen
    | HomeScreen | GroupsScreen | CourtsScreen | ProfileScreen
    | CreateGroupScreen | GroupDetailsScreen(groupId: string) | RequestsScreen

  /** A route's element: a page, with or without the navigation layout, or a redirect. */
  datatype Element = Render(screen: Screen, inLayout: bool) | Redirect(to: string) | NoMatch

  /** Whether a path is one of the protected pages, and which. */
  function ProtectedScreen(path: string): Option<Screen>
  {
    if path == "/" then Some(HomeScreen)
    else if path == "/groups" then Some(GroupsScreen)
    else if path == "/courts" then Some(CourtsScreen)
    else if path == "/profile" then Some(ProfileScreen)
    else if path == "/create-group" then Some(CreateGroupScreen)
    else if path == "/requests" then Some(RequestsScreen)
    else if IsGroupPath(path) then Some(GroupDetailsScreen(path[|"/groups/"|..]))
    else None
  }

  /** `/groups/:groupId`: one non-empty segment after `/groups/`. */
  predicate IsGroupPath(path: string)
  {
    StartsWith(path, "/groups/") && |path| > |"/groups/"| && '/' !in path[|"/groups/"|..]
  }

  /** The element the `Routes` table picks for a path. */
  function Resolve(path: string, authenticated: bool): (e: Element)
    ensures (path == "/login" || path == "/signup") ==>
              (authenticated <==> e == Redirect("/")) &&
              (!authenticated ==> e.Render? && !e.inLayout)
    ensures path == "/login" && !authenticated ==> e == Render(LoginScreen, false)
    ensures path == "/signup" && !authenticated ==> e == Render(SignUpScreen, false)
    ensures path == "/onboarding" ==>
              (authenticated ==> e == Render(OnboardingScreen, false)) &&
              (!authenticated ==> e == Redirect("/login"))
    ensures ProtectedScreen(path).Some? ==>
              (authenticated ==> e == Render(ProtectedScreen(path).value, true)) &&
              (!authenticated ==> e == Redirect("/login"))
    ensures e.Render? && e.inLayout ==> authenticated
    ensures e.Redirect? ==> e.to in {"/", "/login"}
  {
    assert "/onboarding"[..8][1] != "/groups/"[1];
    if path == "/login" then (if !authenticated then Render(LoginScreen, false) else Redirect("/"))
    else if path == "/signup" then (if !authenticated then Render(SignUpScreen, false) else Redirect("/"))
    else if path == "/onboarding" then (if authenticated then Render(OnboardingScreen, false) else Redirect("/login"))
    else match ProtectedScreen(path)
      case Some(screen) => if authenticated then Render(screen, true) else Redirect("/login")
      case None => NoMatch
  }

  /** For a fixed sign-in state a redirect always lands on a page: at most one hop. */
  lemma AtMostOneRedirect(path: string, authenticated: bool)
    ensures Resolve(path, authenticated).Redirect? ==>
              Resolve(Resolve(path, authenticated).to, authenticated).Render?
  {
    assert !IsGroupPath("/") && !IsGroupPath("/login");
  }

  /** What `AuthLayout` draws around its page. */
  datatype LayoutParts = LayoutParts(header: bool, navigation: bool)

  /** The header is left off the home page only; the navigation bar is always drawn. */
  function AuthLayout(pathname: string): (parts: LayoutParts)
    ensures parts.header <==> pathname != "/"
    ensures parts.navigation
  {
    LayoutParts(pathname != "/", true)
  }

  /** A signed-out visitor never sees the layout, so never the header or the navigation bar. */
  lemma SignedOutSeesNoLayout(path: string)
    ensures !(Resolve(path, false).Render? && Resolve(path, false).inLayout)
  {
  }
}
