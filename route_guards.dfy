/** The two route wrappers: `ProtectedRoute` keeps signed-out visitors (and,
    for admin pages, non-admins) away from a page; `GuestRoute` keeps
    signed-in users away from the sign-in pages. */
module RouteGuards {
  import opened Common

  /** The signed-in user as the guards see it. */
  datatype SessionUser = SessionUser(isAdmin: bool)

  /** What `useAuth()` reports. */
  datatype AuthState = AuthState(loading: bool, isAuthenticated: bool, user: Option<SessionUser>)

  datatype View = Spinner | NavigateTo(path: string, replace: bool) | ErrorPage | Outlet | Nothing

  /** The default of the `adminOnly` prop. */
  const DefaultAdminOnly := false

  /** The default of the `redirectTo` prop. */
  const DefaultRedirect := "/"

  /** A settled session with a user present. */
  predicate SignedIn(auth: AuthState)
  {
    !auth.loading && auth.isAuthenticated && auth.user.Some?
  }

  /** `ProtectedRoute`: while the session loads, the spinner; without a
      session or a user, a replacing redirect to `/login`; on an admin page
      without admin rights, the error page; otherwise the page itself. */
  function ProtectedRoute(auth: AuthState, adminOnly: bool): (v: View)
    ensures auth.loading ==> v == Spinner
    ensures v == NavigateTo("/login", true) <==> !auth.loading && !(auth.isAuthenticated && auth.user.Some?)
    ensures v == ErrorPage <==> SignedIn(auth) && adminOnly && !auth.user.value.isAdmin
    ensures v == Outlet <==> SignedIn(auth) && (adminOnly ==> auth.user.value.isAdmin)
    ensures v != Nothing
  {
    if auth.loading then Spinner
    else if !auth.isAuthenticated || auth.user.None? then NavigateTo("/login", true)
    else if adminOnly && !auth.user.value.isAdmin then ErrorPage
    else Outlet
  }

  /** Admin pages admit fewer visitors: whoever passes an admin-only guard
      passes the plain one, and with the default prop every signed-in user
      passes. */
  lemma AdminOnlyIsStricter(auth: AuthState)
    ensures ProtectedRoute(auth, true) == Outlet ==> ProtectedRoute(auth, DefaultAdminOnly) == Outlet
    ensures SignedIn(auth) <==> ProtectedRoute(auth, DefaultAdminOnly) == Outlet
  {
  }

  /** A render of `GuestRoute`: what it shows, and where its effect
      navigates (always with `replace`). */
  datatype GuestRender = GuestRender(view: View, navigation: Option<string>)

  function GuestRoute(auth: AuthState, redirectTo: string): (g: GuestRender)
    ensures auth.loading ==> g.view == Spinner && g.navigation == None
    ensures g.view == Outlet <==> !auth.loading && !auth.isAuthenticated
    ensures g.navigation == Some(redirectTo) <==> !auth.loading && auth.isAuthenticated
    ensures g.navigation.Some? ==> g.navigation == Some(redirectTo) && g.view == Nothing
  {
    var navigation := if !auth.loading && auth.isAuthenticated then Some(redirectTo) else None;
    if auth.loading then GuestRender(Spinner, navigation)
    else if !auth.isAuthenticated then GuestRender(Outlet, navigation)
    else GuestRender(Nothing, navigation)
  }

  /** No session state opens both a guest page and a protected page, and a
      settled signed-out visitor is sent from a protected page to a guest
      one. */
  lemma GuardsAreExclusive(auth: AuthState, adminOnly: bool, redirectTo: string)
    ensures !(ProtectedRoute(auth, adminOnly) == Outlet && GuestRoute(auth, redirectTo).view == Outlet)
    ensures !auth.loading && !auth.isAuthenticated ==>
      ProtectedRoute(auth, adminOnly) == NavigateTo("/login", true) && GuestRoute(auth, redirectTo).view == Outlet
  {
  }
}
