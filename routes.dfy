/**
 * Client-side route guarding of the single-page app: the two guard wrappers,
 * the boot gate on the auth check, and the static route table with its catch-all.
 * Auth state is an input record; the auth store that produces it is not modelled.
 */
module Routes {
  import opened Common

  datatype User = User(isVerified: bool)

  /** The part of the auth store the app reads. `user` is null (None) when nobody is signed in. */
  datatype AuthState = AuthState(isAuthenticated: bool, user: Option<User>, isCheckingAuth: bool)

  /** The store never claims a session without a user record. */
  predicate Consistent(s: AuthState) {
    s.isAuthenticated ==> s.user.Some?
  }

  predicate IsVerifiedSession(s: AuthState)
    requires Consistent(s)
  {
    s.isAuthenticated && s.user.value.isVerified
  }

  datatype Page =
    | DashboardPage
    | SignUpPage
    | LoginPage
    | EmailVerificationPage
    | ForgotPasswordPage
    | ResetPasswordPage(token: string)

  /**
   * What rendering produces: the boot placeholder, a page, a `<Navigate replace>`,
   * or the TypeError thrown by reading `user.isVerified` on a null user.
   */
  datatype Screen = Preloader | Render(page: Page) | Redirect(to: string) | NullUserError

  /** ProtectedRoute: signed-out users go to the login page, unverified ones to email verification. */
  function ProtectedRoute(s: AuthState, children: Page): (r: Screen)
    ensures !s.isAuthenticated ==> r == Redirect("/login")
    ensures r.Render? <==> s.isAuthenticated && s.user.Some? && s.user.value.isVerified
    ensures r.Render? ==> r.page == children
    ensures s.isAuthenticated && s.user.Some? && !s.user.value.isVerified ==> r == Redirect("/verify-email")
  {
    if !s.isAuthenticated then Redirect("/login")
    else if s.user.None? then NullUserError
    else if !s.user.value.isVerified then Redirect("/verify-email")
    else Render(children)
  }

  /** RedirectAuthenticatedUser: keeps verified users out of the sign-up, login and password pages. */
  function RedirectAuthenticatedUser(s: AuthState, children: Page): (r: Screen)
    ensures r == Redirect("/") <==> s.isAuthenticated && s.user.Some? && s.user.value.isVerified
    ensures r == Render(children) <==> !s.isAuthenticated || (s.user.Some? && !s.user.value.isVerified)
  {
    if !s.isAuthenticated then Render(children)
    else if s.user.None? then NullUserError
    else if s.user.value.isVerified then Redirect("/")
    else Render(children)
  }

  /** Neither guard looks at the user record while signed out. */
  lemma GuardsIgnoreUserWhenSignedOut(s: AuthState, u: Option<User>, children: Page)
    requires !s.isAuthenticated
    ensures ProtectedRoute(s, children) == ProtectedRoute(s.(user := u), children) == Redirect("/login")
    ensures RedirectAuthenticatedUser(s, children) == RedirectAuthenticatedUser(s.(user := u), children) == Render(children)
  {
  }

  /** For every consistent auth state exactly one of the two guards renders its children. */
  lemma GuardsComplementary(s: AuthState, children: Page)
    requires Consistent(s)
    ensures ProtectedRoute(s, children).Render? != RedirectAuthenticatedUser(s, children).Render?
    ensures ProtectedRoute(s, children).Render? <==> IsVerifiedSession(s)
  {
  }

  /** Which wrapper a route element uses. */
  datatype Guard = Protected | RedirectIfAuthenticated | Unguarded

  datatype RouteElement = Guarded(guard: Guard, page: Page) | NavigateHome

  const ResetPrefix: string := "/reset-password/"

  /** A `:token` path parameter: one non-empty path segment. */
  predicate IsSegment(t: string) {
    t != [] && '/' !in t
  }

  /** The route table; any path it does not list falls to the catch-all, which navigates to "/". */
  function Resolve(path: string): (r: RouteElement)
    ensures path == "/" ==> r == Guarded(Protected, DashboardPage)
    ensures path == "/signup" ==> r == Guarded(RedirectIfAuthenticated, SignUpPage)
    ensures path == "/login" ==> r == Guarded(RedirectIfAuthenticated, LoginPage)
    ensures path == "/forgot-password" ==> r == Guarded(RedirectIfAuthenticated, ForgotPasswordPage)
    ensures path == "/verify-email" ==> r == Guarded(Unguarded, EmailVerificationPage)
    ensures forall t :: IsSegment(t) && path == ResetPrefix + t ==> r == Guarded(RedirectIfAuthenticated, ResetPasswordPage(t))
    ensures r.Guarded? && r.guard == Unguarded ==> path == "/verify-email"
    ensures r.Guarded? && r.guard == Protected ==> path == "/"
    ensures r == NavigateHome <==> !IsListed(path)
  {
    if path == "/" then Guarded(Protected, DashboardPage)
    else if path == "/signup" then Guarded(RedirectIfAuthenticated, SignUpPage)
    else if path == "/login" then Guarded(RedirectIfAuthenticated, LoginPage)
    else if path == "/verify-email" then Guarded(Unguarded, EmailVerificationPage)
    else if path == "/forgot-password" then Guarded(RedirectIfAuthenticated, ForgotPasswordPage)
    else if IsResetPath(path) then
      assert path == ResetPrefix + path[|ResetPrefix|..];
      Guarded(RedirectIfAuthenticated, ResetPasswordPage(path[|ResetPrefix|..]))
    else NavigateHome
  }

  predicate IsResetPath(path: string) {
    |ResetPrefix| < |path| && path[..|ResetPrefix|] == ResetPrefix && IsSegment(path[|ResetPrefix|..])
  }

  /** The paths the table lists explicitly. */
  predicate IsListed(path: string) {
    path in {"/", "/signup", "/login", "/verify-email", "/forgot-password"} || IsResetPath(path)
  }

  /** App: a preloader until the boot-time auth check resolves, then the route table under its guards. */
  function App(s: AuthState, path: string): (r: Screen)
    ensures s.isCheckingAuth <==> r == Preloader
  {
    if s.isCheckingAuth then Preloader
    else
      match Resolve(path)
      case NavigateHome => Redirect("/")
      case Guarded(Protected, p) => ProtectedRoute(s, p)
      case Guarded(RedirectIfAuthenticated, p) => RedirectAuthenticatedUser(s, p)
      case Guarded(Unguarded, p) => Render(p)
  }

  /** Follow `<Navigate>` elements for at most `hops` redirects. */
  function Follow(s: AuthState, path: string, hops: nat): Screen
    decreases hops
  {
    match App(s, path)
    case Redirect(to) => if hops == 0 then Redirect(to) else Follow(s, to, hops - 1)
    case other => other
  }

  /** The page a user lands on after redirects settle. */
  function Landing(s: AuthState, path: string): Page
    requires Consistent(s)
  {
    match Resolve(path)
    case Guarded(Unguarded, p) => p
    case Guarded(RedirectIfAuthenticated, p) => if IsVerifiedSession(s) then DashboardPage else p
    case _ =>
      if !s.isAuthenticated then LoginPage
      else if !s.user.value.isVerified then EmailVerificationPage
      else DashboardPage
  }

  /**
   * No redirect loop: from any path, any auth state settles within two redirects, and for a
   * consistent state that has finished checking the result is the landing page.
   */
  lemma {:induction false} RedirectsSettle(s: AuthState, path: string, hops: nat)
    requires hops >= 2
    ensures !Follow(s, path, 2).Redirect?
    ensures Follow(s, path, hops) == Follow(s, path, 2)
    ensures Consistent(s) && !s.isCheckingAuth ==> Follow(s, path, hops) == Render(Landing(s, path))
  {
    assert Resolve("/") == Guarded(Protected, DashboardPage);
    assert Resolve("/login") == Guarded(RedirectIfAuthenticated, LoginPage);
    assert Resolve("/verify-email") == Guarded(Unguarded, EmailVerificationPage);
    var first := App(s, path);
    if first.Redirect? {
      var to := first.to;
      assert to in {"/", "/login", "/verify-email"};
      var second := App(s, to);
      if second.Redirect? {
        var to2 := second.to;
        assert to2 in {"/", "/login", "/verify-email"};
        assert Follow(s, to2, hops - 2) == App(s, to2) == Follow(s, to2, 0);
        assert Follow(s, to, hops - 1) == Follow(s, to, 1);
      } else {
        assert Follow(s, to, hops - 1) == second == Follow(s, to, 1);
      }
    }
  }

  /** Redirect targets never need more than one further hop. */
  lemma TargetsSettleInOneHop(s: AuthState)
    ensures !Follow(s, "/login", 1).Redirect?
    ensures !Follow(s, "/verify-email", 0).Redirect?
    ensures Consistent(s) && !s.isCheckingAuth && IsVerifiedSession(s) ==> Follow(s, "/login", 1) == Render(DashboardPage)
  {
    assert Resolve("/") == Guarded(Protected, DashboardPage);
    assert Resolve("/login") == Guarded(RedirectIfAuthenticated, LoginPage);
    assert Resolve("/verify-email") == Guarded(Unguarded, EmailVerificationPage);
  }

  /** While the boot-time auth check runs, every path shows only the preloader: no guard fires. */
  lemma BootGateHoldsRedirects(s: AuthState, path: string, hops: nat)
    requires s.isCheckingAuth
    ensures Follow(s, path, hops) == Preloader
  {
  }
}
