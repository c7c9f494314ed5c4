/** App.jsx: the route table and the `PrivateRoute` guard, which reads the
    token and the role string the client keeps in local storage. A missing
    storage entry is None. */
module Routes {
  import opened Common

  const PatientRole := "patient"
  const ContactRole := "emergency_contact"

  /** What a route renders. */
  datatype Page = LoginPage | RegisterPage | PatientDashboard | ContactDashboard

  /** What the router does for a path: render a page, navigate elsewhere
      (`replace` keeps the guarded path out of the history), or match nothing. */
  datatype Outcome = Show(page: Page) | Navigate(to: string, replace: bool) | NoMatch

  /** The truthiness test `!token`: null and the empty string are falsy. */
  predicate HasToken(token: Option<string>) {
    token.Some? && token.value != ""
  }

  /** Where a wrong role is sent (line 22). */
  function HomeOf(userType: Option<string>): (to: string)
    ensures to == "/emergency-dashboard" <==> userType == Some(ContactRole)
    ensures to != "/emergency-dashboard" ==> to == "/dashboard"
  {
    if userType == Some(ContactRole) then "/emergency-dashboard" else "/dashboard"
  }

  /** `PrivateRoute` around `page`, for the role `allowed` (lines 14-26). The
      empty string as `allowed` is falsy and lets every role through. */
  function PrivateRoute(token: Option<string>, userType: Option<string>, allowed: string, page: Page): (o: Outcome)
    ensures !HasToken(token) ==> o == Navigate("/login", true)
    ensures HasToken(token) && (allowed == "" || userType == Some(allowed)) ==> o == Show(page)
    ensures HasToken(token) && allowed != "" && userType != Some(allowed) ==> o == Navigate(HomeOf(userType), false)
  {
    if !HasToken(token) then Navigate("/login", true)
    else if allowed != "" && userType != Some(allowed) then Navigate(HomeOf(userType), false)
    else Show(page)
  }

  /** The `<Routes>` table (lines 75-99). */
  function Resolve(path: string, token: Option<string>, userType: Option<string>): Outcome {
    if path == "/login" then Show(LoginPage)
    else if path == "/register" then Show(RegisterPage)
    else if path == "/" then Navigate("/login", false)
    else if path == "/dashboard" then PrivateRoute(token, userType, PatientRole, PatientDashboard)
    else if path == "/emergency-dashboard" then PrivateRoute(token, userType, ContactRole, ContactDashboard)
    else NoMatch
  }

  /** Without a token both dashboards send to /login, whatever the role; "/"
      always goes to /login; the public pages show without a token. */
  lemma GuardedWithoutToken(token: Option<string>, userType: Option<string>)
    requires !HasToken(token)
    ensures Resolve("/dashboard", token, userType) == Navigate("/login", true)
    ensures Resolve("/emergency-dashboard", token, userType) == Navigate("/login", true)
    ensures Resolve("/", token, userType) == Navigate("/login", false)
    ensures Resolve("/login", token, userType) == Show(LoginPage)
    ensures Resolve("/register", token, userType) == Show(RegisterPage)
  {
  }

  /** Each dashboard shows only for its own role. */
  lemma DashboardsByRole(token: Option<string>, userType: Option<string>)
    requires HasToken(token)
    ensures Resolve("/dashboard", token, userType) == Show(PatientDashboard) <==> userType == Some(PatientRole)
    ensures Resolve("/emergency-dashboard", token, userType) == Show(ContactDashboard) <==> userType == Some(ContactRole)
  {
  }

  /** With a token and one of the two roles, any dashboard path reaches that
      role's own dashboard after at most one redirect. */
  lemma KnownRoleSettles(token: Option<string>, userType: Option<string>, path: string)
    requires HasToken(token)
    requires userType == Some(PatientRole) || userType == Some(ContactRole)
    requires path == "/dashboard" || path == "/emergency-dashboard"
    ensures var home := if userType == Some(PatientRole) then PatientDashboard else ContactDashboard;
      var first := Resolve(path, token, userType);
      first == Show(home) || (first.Navigate? && Resolve(first.to, token, userType) == Show(home))
  {
  }

  /** With a token but no stored role (or any third value), /dashboard
      redirects to /dashboard itself and nothing is ever shown there. */
  lemma UnknownRoleRedirectsToItself(token: Option<string>, userType: Option<string>)
    requires HasToken(token)
    requires userType != Some(PatientRole) && userType != Some(ContactRole)
    ensures Resolve("/dashboard", token, userType) == Navigate("/dashboard", false)
    ensures Resolve("/emergency-dashboard", token, userType) == Navigate("/dashboard", false)
  {
  }

  /** The role checks the two dashboards make again on mounting
      (components/Dashboard.jsx:79-84, components/EmergencyContactDashboard.jsx:32-37). */
  function PatientPageRedirect(userType: Option<string>): (to: Option<string>)
    ensures to.Some? <==> userType == Some(ContactRole)
    ensures to.Some? ==> to.value == "/emergency-dashboard"
  {
    if userType == Some(ContactRole) then Some("/emergency-dashboard") else None
  }

  function ContactPageRedirect(userType: Option<string>): (to: Option<string>)
    ensures to.Some? <==> userType == Some(PatientRole)
    ensures to.Some? ==> to.value == "/dashboard"
  {
    if userType == Some(PatientRole) then Some("/dashboard") else None
  }

  /** Once the guard shows a dashboard, that page's own check never moves away. */
  lemma ShownDashboardStays(token: Option<string>, userType: Option<string>)
    ensures Resolve("/dashboard", token, userType) == Show(PatientDashboard) ==> PatientPageRedirect(userType).None?
    ensures Resolve("/emergency-dashboard", token, userType) == Show(ContactDashboard) ==> ContactPageRedirect(userType).None?
  {
  }
}
