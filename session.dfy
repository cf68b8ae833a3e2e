/**
 * The small callbacks around the session store: page routing, login,
 * logout and the AI panel toggle. The `session-store` data is a dictionary
 * {'username': ..., 'authenticated': ...}; callbacks may also receive None.
 */
module Session {
  import opened Wrappers

  datatype SessionData = SessionData(username: Option<string>, authenticated: bool)

  /** The store's initial content, and what logout writes. */
  const SignedOut := SessionData(None, false)

  /** A stored account: the password is kept as its hash. */
  datatype User = User(password: string, email: string, fullName: string, department: string, role: string, createdAt: string)

  /** The page the router renders, with the user name it is rendered for. */
  datatype Page =
    | LoginPage
    | ProfilePage(user: Option<string>)
    | MlAnalysisPage(user: Option<string>)
    | DashboardPage(user: Option<string>)

  /** A pathname output: Dash's `no_update` or a new path. */
  datatype UrlUpdate = NoUpdate | Navigate(path: string)

  /** Python truthiness of an optional string: neither None nor ''. */
  predicate Truthy(s: Option<string>)
  {
    s.Some? && s.value != ""
  }

  /** Python truthiness of an `n_clicks` value: neither None nor 0. */
  predicate Clicked(n: Option<nat>)
  {
    n.Some? && n.value != 0
  }

  /**
   * display_page: without an authenticated session every path shows the
   * login page; otherwise '/profile' and '/ml-analysis' have their own pages
   * and every other path, None included, shows the dashboard.
   */
  function DisplayPage(pathname: Option<string>, session: Option<SessionData>): (p: Page)
    ensures p.LoginPage? <==> session.None? || !session.value.authenticated
    ensures !p.LoginPage? ==> p.user == session.value.username
    ensures !p.LoginPage? ==> (p.ProfilePage? <==> pathname == Some("/profile"))
    ensures !p.LoginPage? ==> (p.MlAnalysisPage? <==> pathname == Some("/ml-analysis"))
  {
    var data := if session.None? then SignedOut else session.value;
    if !data.authenticated then LoginPage
    else
      var path := if pathname.None? then "/" else pathname.value;
      if path == "/profile" then ProfilePage(data.username)
      else if path == "/ml-analysis" then MlAnalysisPage(data.username)
      else if path == "/dashboard" || path == "/" then DashboardPage(data.username)
      else DashboardPage(data.username)
  }

  /** The three outputs of the login callback. */
  datatype LoginResult = LoginResult(session: Option<SessionData>, error: string, url: UrlUpdate)

  /**
   * login: with a click and both fields filled in, the session becomes
   * authenticated exactly when the user exists and the stored hash equals
   * the hash of the password; every other case keeps the session.
   * `hash` stands for hash_password (SHA-256 hex digest).
   */
  function Login(nClicks: Option<nat>, username: Option<string>, password: Option<string>,
                 session: Option<SessionData>, users: map<string, User>, hash: string -> string): (r: LoginResult)
    ensures r.url.Navigate? <==>
      nClicks.Some? && Truthy(username) && Truthy(password)
      && username.value in users && users[username.value].password == hash(password.value)
    ensures r.url.Navigate? ==>
      r.session == Some(SessionData(username, true)) && r.error == "" && r.url.path == "/dashboard"
    ensures !r.url.Navigate? ==> r.session == session
    ensures nClicks.None? ==> r.error == ""
    ensures nClicks.Some? && !(Truthy(username) && Truthy(password)) ==>
      r.error == "Please enter both username and password"
    ensures nClicks.Some? && Truthy(username) && Truthy(password) && !r.url.Navigate? ==>
      r.error == "Invalid username or password"
  {
    if nClicks.None? then LoginResult(session, "", NoUpdate)
    else if !Truthy(username) || !Truthy(password) then
      LoginResult(session, "Please enter both username and password", NoUpdate)
    else if username.value in users && users[username.value].password == hash(password.value) then
      LoginResult(Some(SessionData(username, true)), "", Navigate("/dashboard"))
    else LoginResult(session, "Invalid username or password", NoUpdate)
  }

  /**
   * logout: a click signs the session out and navigates to '/'; without a
   * click nothing changes.
   */
  function Logout(nClicks: Option<nat>, session: Option<SessionData>): (r: (Option<SessionData>, UrlUpdate))
    ensures Clicked(nClicks) ==> r == (Some(SignedOut), Navigate("/"))
    ensures !Clicked(nClicks) ==> r == (session, NoUpdate)
  {
    if Clicked(nClicks) then (Some(SignedOut), Navigate("/")) else (session, NoUpdate)
  }

  /** toggle_ai_modal: a click on either button flips the panel, otherwise it stays. */
  function ToggleAiModal(openClicks: Option<nat>, closeClicks: Option<nat>, isOpen: bool): (r: bool)
    ensures r != isOpen <==> Clicked(openClicks) || Clicked(closeClicks)
  {
    if Clicked(openClicks) || Clicked(closeClicks) then !isOpen else isOpen
  }

  /** After a successful login the redirect to '/dashboard' renders the dashboard for that user. */
  lemma LoginLeadsToDashboard(nClicks: Option<nat>, username: Option<string>, password: Option<string>,
                              session: Option<SessionData>, users: map<string, User>, hash: string -> string)
    requires Login(nClicks, username, password, session, users, hash).url.Navigate?
    ensures var r := Login(nClicks, username, password, session, users, hash);
      DisplayPage(Some(r.url.path), r.session) == DashboardPage(username)
    ensures var r := Login(nClicks, username, password, session, users, hash);
      forall path :: !DisplayPage(path, r.session).LoginPage? && DisplayPage(path, r.session).user == username
  {
  }

  /** A failed or incomplete login never grants access that the session did not already have. */
  lemma FailedLoginKeepsAccess(nClicks: Option<nat>, username: Option<string>, password: Option<string>,
                               session: Option<SessionData>, users: map<string, User>, hash: string -> string,
                               path: Option<string>)
    requires !Login(nClicks, username, password, session, users, hash).url.Navigate?
    ensures DisplayPage(path, Login(nClicks, username, password, session, users, hash).session) == DisplayPage(path, session)
  {
  }

  /** After logging out every path shows the login page. */
  lemma LogoutLocksEveryPage(nClicks: Option<nat>, session: Option<SessionData>, path: Option<string>)
    requires Clicked(nClicks)
    ensures DisplayPage(path, Logout(nClicks, session).0) == LoginPage
  {
  }

  /** Two clicks on the toggle give back the original state. */
  lemma ToggleTwice(openClicks: Option<nat>, closeClicks: Option<nat>, isOpen: bool)
    requires Clicked(openClicks) || Clicked(closeClicks)
    ensures ToggleAiModal(openClicks, closeClicks, ToggleAiModal(openClicks, closeClicks, isOpen)) == isOpen
  {
  }
}
