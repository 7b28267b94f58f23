/** Role routing and access guards: where a login lands, where the
    `/dashboard` redirector sends a session, and which sessions the two
    layout guards let through. Navigation is a returned route. */
module Access {
  import opened Common

  /** The session's cached user record, as far as routing needs it. */
  datatype User = User(id: string, role: string)

  const Login := "/login"
  const Dashboard := "/dashboard"
  const MahasiswaHome := "/dashboard/mahasiswa"
  const DplHome := "/dashboard/dpl"
  const LppmHome := "/dashboard/lppm"

  /** The three roles the portal knows. */
  predicate KnownRole(role: string) {
    role == "mahasiswa" || role == "dpl" || role == "lppm"
  }

  /** The home route of a known role. */
  function HomeOf(role: string): (route: string)
    requires KnownRole(role)
  {
    if role == "mahasiswa" then MahasiswaHome
    else if role == "dpl" then DplHome
    else LppmHome
  }

  // ---------------------------------------------------------------- login

  /** What the authentication call gave back. */
  datatype AuthResult =
    | Authenticated(role: string)
    | ResponseError      // the backend answered with an error (bad credentials)
    | OtherError         // anything else that was thrown

  /** The login form after `handleLogin`; `route` is the navigation, if any. */
  datatype LoginState = LoginState(isLoading: bool, error: string, notification: string, route: Option<string>)

  const LoginSuccessNotice := "Login berhasil! Sedang mengalihkan ke dasbor..."
  const CredentialsError := "Gagal masuk. Periksa kembali email dan password Anda."
  const UnknownError := "Terjadi kesalahan yang tidak diketahui."

  /** The `switch (role)` after a successful login. */
  function LoginRoute(role: string): (route: string)
    ensures KnownRole(role) ==> route == HomeOf(role)
    ensures !KnownRole(role) ==> route == Dashboard
  {
    match role
    case "mahasiswa" => MahasiswaHome
    case "dpl" => DplHome
    case "lppm" => LppmHome
    case _ => Dashboard
  }

  /** `handleLogin`: the notice is set before the call and cleared on failure;
      loading is reset only on failure (a successful login navigates away). */
  function HandleLogin(result: AuthResult): (s: LoginState)
    ensures result.Authenticated? <==> s.route.Some?
    ensures result.Authenticated? ==>
      s == LoginState(true, "", LoginSuccessNotice, Some(LoginRoute(result.role)))
    ensures !result.Authenticated? ==> s.notification == "" && !s.isLoading
    ensures result.ResponseError? ==> s.error == CredentialsError
    ensures result.OtherError? ==> s.error == UnknownError
  {
    match result
    case Authenticated(role) => LoginState(true, "", LoginSuccessNotice, Some(LoginRoute(role)))
    case ResponseError => LoginState(false, CredentialsError, "", None)
    case OtherError => LoginState(false, UnknownError, "", None)
  }

  // ----------------------------------------------------- /dashboard redirect

  /** The redirector's decision: where to go and whether it clears the session. */
  datatype Redirect = Redirect(route: string, clearSession: bool)

  /** `DashboardRedirector`: a known role goes home; an unknown role clears
      the session and goes to the login page; no user goes to the login page. */
  function DashboardRedirect(user: Option<User>): (d: Redirect)
    ensures user.None? ==> d == Redirect(Login, false)
    ensures user.Some? && KnownRole(user.value.role) ==> d == Redirect(HomeOf(user.value.role), false)
    ensures d.clearSession <==> user.Some? && !KnownRole(user.value.role)
    ensures d.clearSession ==> d.route == Login
  {
    match user
    case None => Redirect(Login, false)
    case Some(u) =>
      match u.role
      case "mahasiswa" => Redirect(MahasiswaHome, false)
      case "dpl" => Redirect(DplHome, false)
      case "lppm" => Redirect(LppmHome, false)
      case _ => Redirect(Login, true)
  }

  /** The login switch and the redirector agree on every known role; on an
      unknown role the login form lands on `/dashboard`, whose redirector
      then sends the session to the login page. */
  lemma LoginThenRedirect(role: string, id: string)
    ensures KnownRole(role) ==>
      LoginRoute(role) == DashboardRedirect(Some(User(id, role))).route
    ensures !KnownRole(role) ==>
      LoginRoute(role) == Dashboard &&
      DashboardRedirect(Some(User(id, role))) == Redirect(Login, true)
  {
  }

  // ------------------------------------------------------------ layout guards

  /** What a layout does on mount and what it renders. */
  datatype Rendered = Placeholder | Children
  datatype LayoutDecision = LayoutDecision(redirectToLogin: bool, rendered: Rendered)

  /** `isAuthorized` of the supervisor layout: role 'dpl' or 'lppm'. */
  predicate DplAuthorized(user: Option<User>) {
    user.Some? && (user.value.role == "dpl" || user.value.role == "lppm")
  }

  /** The supervisor layout: redirect unless the session is valid and
      authorized; show the placeholder while the session is invalid. */
  function DplLayout(sessionValid: bool, user: Option<User>): (d: LayoutDecision)
    ensures !d.redirectToLogin <==>
      sessionValid && user.Some? && user.value.role in {"dpl", "lppm"}
    ensures d.rendered == Placeholder <==> !sessionValid
  {
    LayoutDecision(!sessionValid || !DplAuthorized(user),
                   if !sessionValid then Placeholder else Children)
  }

  /** The student layout: redirect unless the session is valid with role
      'mahasiswa'; the children are rendered whatever the decision. */
  function MahasiswaLayout(sessionValid: bool, user: Option<User>): (d: LayoutDecision)
    ensures !d.redirectToLogin <==> sessionValid && user.Some? && user.value.role == "mahasiswa"
    ensures d.rendered == Children
  {
    LayoutDecision(!sessionValid || user.None? || user.value.role != "mahasiswa", Children)
  }

  /** No session passes both layouts: the student area and the supervisor
      area admit disjoint roles, and 'dpl' or 'lppm' is turned away from the
      student area. */
  lemma LayoutsDisjoint(sessionValid: bool, user: Option<User>)
    ensures DplLayout(sessionValid, user).redirectToLogin || MahasiswaLayout(sessionValid, user).redirectToLogin
    ensures user.Some? && user.value.role in {"dpl", "lppm"} ==> MahasiswaLayout(sessionValid, user).redirectToLogin
  {
  }

  /** Every route a successful login picks for a known role is let through
      by the layout guarding it, as long as the session stays valid. */
  lemma LoginRouteAdmitted(role: string, id: string)
    ensures LoginRoute(role) == MahasiswaHome ==> !MahasiswaLayout(true, Some(User(id, role))).redirectToLogin
    ensures LoginRoute(role) == DplHome ==> !DplLayout(true, Some(User(id, role))).redirectToLogin
  {
  }

  // -------------------------------------------------------------- page guards

  /** The guard at the top of the signed-in pages (supervisor dashboard,
      history, report list): with no cached user, go to the login page. */
  function RequireUser(user: Option<User>): (redirect: Option<string>)
    ensures redirect.Some? <==> user.None?
    ensures redirect.Some? ==> redirect.value == Login
  {
    if user.None? then Some(Login) else None
  }

  /** The student dashboard's guard: no user, or a role other than
      'mahasiswa', goes to the login page. */
  function RequireMahasiswa(user: Option<User>): (redirect: Option<string>)
    ensures redirect.None? <==> user.Some? && user.value.role == "mahasiswa"
    ensures redirect.Some? ==> redirect.value == Login
  {
    if user.None? || user.value.role != "mahasiswa" then Some(Login) else None
  }

  /** The student dashboard's guard admits exactly the users the student
      layout admits on a valid session. */
  lemma StudentGuardsAgree(user: Option<User>)
    ensures RequireMahasiswa(user).None? <==> !MahasiswaLayout(true, user).redirectToLogin
  {
  }
}
