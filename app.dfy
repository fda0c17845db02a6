/** Access and navigation rules of the application shell (App.tsx): the route
    guard, the route table, the sidebar filter, the active-link test, the
    breadcrumb, and the authentication and theme state that the session check,
    login, logout and the theme switch update. The token service and the
    browser storage are outside the model: their answers are parameters. */
module App {
  import opened Js
  import opened Types

  // ---------------------------------------------------------------------------
  // The route guard

  /** What the guard reads from the authentication context. */
  datatype AuthState = AuthState(user: Option<User>, token: Option<string>, isLoading: bool, sessionExpired: bool)

  datatype GuardResult =
    | Spinner                         // the "validating token" screen
    | Redirect(to: string)
    | AccessRestricted(role: UserRole) // the "restricted access" screen naming the user's role
    | RenderPage

  /** `ProtectedRoute`: loading first, then an expired session, then a missing
      user or token (an empty token is falsy), and only then the role list,
      which an Admin always passes. A given but empty role list is truthy and
      admits Admin only. */
  function ProtectedRoute(auth: AuthState, roles: Option<seq<UserRole>>): (r: GuardResult)
    ensures auth.isLoading ==> r == Spinner
    ensures !auth.isLoading && auth.sessionExpired ==> r == Redirect("/login?expired=true")
    ensures !auth.isLoading && !auth.sessionExpired && (auth.user.None? || !Truthy(auth.token))
            ==> r == Redirect("/login")
    ensures r == RenderPage <==>
              !auth.isLoading && !auth.sessionExpired && auth.user.Some? && Truthy(auth.token) &&
              (roles.None? || auth.user.value.role in roles.value || auth.user.value.role == Admin)
    ensures r.AccessRestricted? ==> auth.user.Some? && r.role == auth.user.value.role && r.role != Admin
  {
    if auth.isLoading then Spinner
    else if auth.sessionExpired then Redirect("/login?expired=true")
    else if auth.user.None? || !Truthy(auth.token) then Redirect("/login")
    else if roles.Some? && auth.user.value.role !in roles.value && auth.user.value.role != Admin then
      AccessRestricted(auth.user.value.role)
    else RenderPage
  }

  /** The guard's role rule on its own: with a signed-in user and a live
      token, the page renders exactly when no list is given, the role is
      listed, or the role is Admin. */
  lemma RoleRule(u: User, token: string, roles: Option<seq<UserRole>>)
    requires token != ""
    ensures var r := ProtectedRoute(AuthState(Some(u), Some(token), false, false), roles);
            (r == RenderPage <==> roles.None? || u.role in roles.value || u.role == Admin) &&
            (r != RenderPage ==> r == AccessRestricted(u.role))
  {
  }

  // ---------------------------------------------------------------------------
  // The route table

  const FacilityRoles: seq<UserRole> := [Admin, GerenteInstalacao, EngProcesso]
  const AssetRoles: seq<UserRole> := [Admin, GerenteInstalacao, TecnicoManutencao]
  const MocRoles: seq<UserRole> := [Admin, GerenteInstalacao, EngProcesso, CoordHse, ComiteAprovacao]
  const RiskRoles: seq<UserRole> := [Admin, EngProcesso, CoordHse]
  const WorkOrderRoles: seq<UserRole> := [Admin, TecnicoManutencao, GerenteInstalacao]
  const AdminRoles: seq<UserRole> := [Admin]

  datatype Route =
    | Public(page: string)
    | Guarded(page: string, roles: Option<seq<UserRole>>)
    | Fallback(to: string)

  /** `/mocs/:id`: one non-empty segment after `/mocs/`. */
  predicate IsMocDetailPath(pathname: string) {
    "/mocs/" <= pathname && |pathname| > 6 && '/' !in pathname[6..]
  }

  lemma MocDetailPathsStartWithM(pathname: string)
    ensures IsMocDetailPath(pathname) ==> pathname[1] == 'm'
  {
    if IsMocDetailPath(pathname) {
      assert pathname[..6] == "/mocs/";
    }
  }

  /** The `<Routes>` table, matched on the exact path; anything else goes to "/". */
  function RouteFor(pathname: string): (r: Route)
    ensures r.Guarded? && r.roles.Some? ==> Admin in r.roles.value
    ensures r.Fallback? ==> r.to == "/"
  {
    if pathname == "/login" then Public("Login")
    else if pathname == "/forgot-password" then Public("ForgotPassword")
    else if pathname == "/" then Guarded("Dashboard", None)
    else if pathname == "/facilities" then Guarded("Facilities", Some(FacilityRoles))
    else if pathname == "/assets" then Guarded("Assets", Some(AssetRoles))
    else if pathname == "/mocs" then Guarded("MOCRequests", Some(MocRoles))
    else if IsMocDetailPath(pathname) then Guarded("MOCDetails", Some(MocRoles))
    else if pathname == "/risk" then Guarded("RiskAnalysis", Some(RiskRoles))
    else if pathname == "/work-orders" then Guarded("WorkOrders", Some(WorkOrderRoles))
    else if pathname == "/standards" then Guarded("Standards", None)
    else if pathname == "/users" then Guarded("UserAdmin", Some(AdminRoles))
    else if pathname == "/audit" then Guarded("AuditTrail", Some(AdminRoles))
    else Fallback("/")
  }

  datatype Visit = ShowPublic(page: string) | Guard(page: string, result: GuardResult) | RedirectHome

  /** Opening a path: its route, and for a guarded one the guard's verdict. */
  function Open(auth: AuthState, pathname: string): (r: Visit)
    ensures r.ShowPublic? <==> pathname == "/login" || pathname == "/forgot-password"
    ensures r.Guard? && r.result == RenderPage ==> SignedIn(auth)
    ensures r.Guard? && auth.isLoading ==> r.result == Spinner
  {
    match RouteFor(pathname)
    case Public(page) => ShowPublic(page)
    case Guarded(page, roles) => Guard(page, ProtectedRoute(auth, roles))
    case Fallback(_) => RedirectHome
  }

  /** A session that has passed the first three rules: loaded, not expired, with a user and a token. */
  predicate SignedIn(auth: AuthState) {
    !auth.isLoading && !auth.sessionExpired && auth.user.Some? && Truthy(auth.token)
  }

  /** `/users` and `/audit` render for Admin only; every other signed-in
      user gets the restricted-access screen. */
  lemma AdminOnlyPages(auth: AuthState, pathname: string)
    requires AdminOnlyPath(pathname)
    requires SignedIn(auth)
    ensures Open(auth, pathname).Guard?
    ensures Open(auth, pathname).result == RenderPage <==> auth.user.value.role == Admin
    ensures auth.user.value.role != Admin ==> Open(auth, pathname).result == AccessRestricted(auth.user.value.role)
  {
  }

  /** `/` and `/standards` carry no role list: every signed-in user sees them. */
  lemma UnrestrictedPages(auth: AuthState, pathname: string)
    requires pathname == "/" || pathname == "/standards"
    requires SignedIn(auth)
    ensures Open(auth, pathname).Guard? && Open(auth, pathname).result == RenderPage
  {
    MocDetailPathsStartWithM(pathname);
  }

  /** A signed-in Admin reaches every guarded page. */
  lemma AdminReachesEveryPage(auth: AuthState, pathname: string)
    requires SignedIn(auth) && auth.user.value.role == Admin
    ensures Open(auth, pathname).Guard? ==> Open(auth, pathname).result == RenderPage
  {
  }

  /** A path outside the table redirects to the dashboard, whoever asks. */
  lemma UnknownPathsGoHome(auth: AuthState, pathname: string)
    requires pathname !in ["/login", "/forgot-password", "/", "/facilities", "/assets", "/mocs",
                           "/risk", "/work-orders", "/standards", "/users", "/audit"]
    requires !IsMocDetailPath(pathname)
    ensures Open(auth, pathname) == RedirectHome
  {
  }

  // ---------------------------------------------------------------------------
  // The sidebar

  datatype MenuItem = MenuItem(name: string, path: string, role: Option<UserRole>)

  const MenuItems: seq<MenuItem> := [
    MenuItem("Dashboard", "/", None),
    MenuItem("Unidades", "/facilities", None),
    MenuItem("Equipamentos", "/assets", None),
    MenuItem("MOC Requests", "/mocs", None),
    MenuItem("Risco", "/risk", None),
    MenuItem("Ordens de Serviço", "/work-orders", None),
    MenuItem("Normas & Links", "/standards", None),
    MenuItem("Administração", "/users", Some(Admin)),
    MenuItem("Audit Trail", "/audit", Some(Admin))
  ]

  /** The two pages only Admin may open. */
  predicate AdminOnlyPath(p: string) {
    p == "/users" || p == "/audit"
  }

  function RoleOf(user: Option<User>): Option<UserRole> {
    if user.Some? then Some(user.value.role) else None
  }

  /** The filter `!item.role || user?.role === item.role || user?.role === ADMIN`. */
  predicate ItemShown(role: Option<UserRole>, item: MenuItem) {
    item.role.None? || role == item.role || role == Some(Admin)
  }

  /** The sidebar entries the user sees, in menu order. */
  function VisibleMenu(user: Option<User>): (r: seq<MenuItem>)
    ensures IsSubsequence(r, MenuItems)
    ensures forall it :: it in r <==> it in MenuItems && ItemShown(RoleOf(user), it)
  {
    Filter(MenuItems, (it: MenuItem) => ItemShown(RoleOf(user), it))
  }

  /** Only `/users` and `/audit` carry a role, and that role is Admin. */
  lemma MenuRoles()
    ensures forall it :: it in MenuItems ==> (it.role.None? <==> !AdminOnlyPath(it.path))
    ensures forall it :: it in MenuItems && it.role.Some? ==> it.role == Some(Admin)
  {
    forall it | it in MenuItems
      ensures it.role.None? <==> !AdminOnlyPath(it.path)
      ensures it.role.Some? ==> it.role == Some(Admin)
    {
      var i :| 0 <= i < 9 && MenuItems[i] == it;
      assert i == 0 || i == 1 || i == 2 || i == 3 || i == 4 || i == 5 || i == 6 || i == 7 || i == 8;
    }
  }

  /** The menu entry by entry: the first seven carry no role, the last two
      (`/users` and `/audit`) are for Admin; every path but "/" has at least
      three characters, and no two share their first three. */
  lemma MenuTable()
    ensures |MenuItems| == 9 && MenuItems[0].path == "/"
    ensures forall it :: it in MenuItems ==> (it.role.None? <==> !AdminOnlyPath(it.path))
    ensures forall it :: it in MenuItems && it.role.Some? ==> it.role == Some(Admin)
    ensures forall i :: 7 <= i < 9 ==> MenuItems[i].role == Some(Admin)
    ensures MenuItems[7].path == "/users" && MenuItems[8].path == "/audit"
    ensures forall i :: 1 <= i < 9 ==> |MenuItems[i].path| >= 3
    ensures forall i, j :: 1 <= i < j < 9 ==>
              MenuItems[i].path[1] != MenuItems[j].path[1] || MenuItems[i].path[2] != MenuItems[j].path[2]
  {
    MenuRoles();
    MenuKeys();
    forall i, j | 1 <= i < j < 9
      ensures MenuItems[i].path[1] != MenuItems[j].path[1] || MenuItems[i].path[2] != MenuItems[j].path[2]
    {
      assert i == 1 || i == 2 || i == 3 || i == 4 || i == 5 || i == 6 || i == 7;
      assert j == 2 || j == 3 || j == 4 || j == 5 || j == 6 || j == 7 || j == 8;
    }
  }

  /** The second and third characters of each path but "/". */
  lemma MenuKeys()
    ensures |MenuItems| == 9 && MenuItems[0].path == "/"
    ensures MenuItems[7].role == Some(Admin) && MenuItems[8].role == Some(Admin)
    ensures MenuItems[7].path == "/users" && MenuItems[8].path == "/audit"
    ensures forall i :: 1 <= i < 9 ==> |MenuItems[i].path| >= 3
    ensures MenuItems[1].path[1] == 'f' && MenuItems[1].path[2] == 'a'
    ensures MenuItems[2].path[1] == 'a' && MenuItems[2].path[2] == 's'
    ensures MenuItems[3].path[1] == 'm' && MenuItems[3].path[2] == 'o'
    ensures MenuItems[4].path[1] == 'r' && MenuItems[4].path[2] == 'i'
    ensures MenuItems[5].path[1] == 'w' && MenuItems[5].path[2] == 'o'
    ensures MenuItems[6].path[1] == 's' && MenuItems[6].path[2] == 't'
    ensures MenuItems[7].path[1] == 'u' && MenuItems[7].path[2] == 's'
    ensures MenuItems[8].path[1] == 'a' && MenuItems[8].path[2] == 'u'
  {
    forall i | 1 <= i < 9 ensures |MenuItems[i].path| >= 3 {
      assert i == 1 || i == 2 || i == 3 || i == 4 || i == 5 || i == 6 || i == 7 || i == 8;
    }
  }

  /** An entry shown to a role other than Admin carries no role. */
  lemma ShownWithoutRole(role: Option<UserRole>, it: MenuItem)
    requires role != Some(Admin) && it in MenuItems && ItemShown(role, it)
    ensures it.role.None?
  {
    MenuRoles();
  }

  /** What a user other than Admin, or a visitor with no user, is shown
      carries no role. */
  lemma ShownToNonAdmin(user: Option<User>, it: MenuItem)
    requires RoleOf(user) != Some(Admin)
    requires it in VisibleMenu(user)
    ensures it in MenuItems && it.role.None?
  {
    ShownWithoutRole(RoleOf(user), it);
  }

  /** A user other than Admin, and a visitor with no user, never see
      `/users` or `/audit`. */
  lemma NonAdminMenuHidesAdminPages(user: Option<User>)
    requires RoleOf(user) != Some(Admin)
    ensures forall it :: it in VisibleMenu(user) ==> !AdminOnlyPath(it.path)
  {
    forall it | it in VisibleMenu(user) ensures !AdminOnlyPath(it.path) {
      ShownToNonAdmin(user, it);
      MenuRoles();
    }
  }

  /** Admin sees the whole menu, in order. */
  lemma AdminSeesWholeMenu(u: User)
    requires u.role == Admin
    ensures VisibleMenu(Some(u)) == MenuItems
  {
    FilterKeepsAll(MenuItems, (it: MenuItem) => ItemShown(RoleOf(Some(u)), it));
  }

  /** An entry missing from a user's sidebar is an Admin entry and the
      user is not Admin. */
  lemma HiddenEntry(user: Option<User>, it: MenuItem)
    requires it in MenuItems && it !in VisibleMenu(user)
    ensures it.role == Some(Admin) && RoleOf(user) != Some(Admin) && AdminOnlyPath(it.path)
  {
    assert !ItemShown(RoleOf(user), it);
    MenuRoles();
  }

  /** The sidebar hides a link only when its page would refuse the user:
      every entry a signed-in user does not see is an Admin-only page that
      the guard restricts for that user. */
  lemma HiddenEntriesAreRefused(auth: AuthState, it: MenuItem)
    requires SignedIn(auth)
    requires it in MenuItems && it !in VisibleMenu(auth.user)
    ensures Open(auth, it.path).Guard? && Open(auth, it.path).result.AccessRestricted?
  {
    HiddenEntry(auth.user, it);
    AdminOnlyPages(auth, it.path);
  }

  /** Every signed-in user, whatever the role, sees the "Unidades" entry. */
  lemma FacilitiesEntryShown(user: Option<User>)
    ensures MenuItems[1] in VisibleMenu(user) && MenuItems[1].path == "/facilities"
  {
    assert MenuItems[1] in MenuItems && MenuItems[1].role.None?;
  }

  /** The converse fails: the sidebar shows "Unidades" to a maintenance
      technician, whom the `/facilities` page then turns away. */
  lemma ShownEntryCanBeRefused(auth: AuthState)
    requires SignedIn(auth) && auth.user.value.role == TecnicoManutencao
    ensures MenuItems[1] in VisibleMenu(auth.user) && MenuItems[1].path == "/facilities"
    ensures Open(auth, "/facilities") == Guard("Facilities", AccessRestricted(TecnicoManutencao))
  {
    FacilitiesEntryShown(auth.user);
    FacilitiesRefusesTechnician(auth);
  }

  lemma FacilitiesRefusesTechnician(auth: AuthState)
    requires SignedIn(auth) && auth.user.value.role == TecnicoManutencao
    ensures Open(auth, "/facilities") == Guard("Facilities", AccessRestricted(TecnicoManutencao))
  {
    assert RouteFor("/facilities") == Guarded("Facilities", Some(FacilityRoles));
    assert TecnicoManutencao !in FacilityRoles;
  }

  /** The highlight test: the exact path, or for any entry but "/" a path
      that starts with the entry's path. */
  function IsActive(pathname: string, path: string): (b: bool)
    ensures path == "/" ==> (b <==> pathname == "/")
    ensures path != "/" ==> (b <==> path <= pathname)
  {
    pathname == path || (path != "/" && path <= pathname)
  }

  lemma PrefixesOfOnePath(a: string, b: string, s: string)
    requires a <= s && b <= s && |a| <= |b|
    ensures a <= b
  {
    assert a == s[..|a|] && b == s[..|b|];
    assert b[..|a|] == s[..|a|];
  }

  /** No menu path is a prefix of another, so whatever the location at most
      one sidebar entry is highlighted. */
  lemma {:induction false} AtMostOneActive(pathname: string)
    ensures forall i, j :: 0 <= i < j < |MenuItems| ==>
              !(IsActive(pathname, MenuItems[i].path) && IsActive(pathname, MenuItems[j].path))
  {
    MenuTable();
    forall i, j | 0 <= i < j < |MenuItems|
      ensures !(IsActive(pathname, MenuItems[i].path) && IsActive(pathname, MenuItems[j].path))
    {
      var a, b := MenuItems[i].path, MenuItems[j].path;
      if IsActive(pathname, b) {
        assert b <= pathname && |b| >= 3;
        if i == 0 {
          assert pathname != "/";
        } else {
          assert a[1] != b[1] || a[2] != b[2];
          assert b[1] == pathname[1] && b[2] == pathname[2];
          if a[1] != pathname[1] {
            assert !(a <= pathname);
          } else {
            assert a[2] != pathname[2];
            assert !(a <= pathname);
          }
        }
      }
    }
  }

  /** The header's breadcrumb: "Dashboard" on "/", otherwise the first path
      segment with its first "-" turned into a space. A location without any
      "/" has no second field and the expression throws (`None`). */
  function Breadcrumb(pathname: string): (r: Option<string>)
    ensures pathname == "/" ==> r == Some("Dashboard")
    ensures pathname != "/" ==> (r.None? <==> '/' !in pathname)
    ensures pathname != "/" && r.Some? ==> '/' !in r.value
  {
    if pathname == "/" then Some("Dashboard")
    else match SplitSecond(pathname, '/')
      case None => None
      case Some(segment) => Some(ReplaceFirst(segment, '-', ' '))
  }

  /** On "/segment" and "/segment/rest" the breadcrumb is the segment with
      only its first "-" replaced. */
  lemma BreadcrumbOfSegment(segment: string, rest: Option<string>)
    requires '/' !in segment
    requires segment != "" || rest.Some?
    ensures Breadcrumb("/" + segment + (if rest.Some? then "/" + rest.value else ""))
         == Some(ReplaceFirst(segment, '-', ' '))
  {
    var pathname := "/" + segment + (if rest.Some? then "/" + rest.value else "");
    assert pathname == [] + ['/'] + segment + (if rest.Some? then ['/'] + rest.value else []);
    SplitSecondOf([], '/', segment, rest);
    assert pathname != "/" by { assert |pathname| > 1; }
  }

  // ---------------------------------------------------------------------------
  // Authentication and theme state

  /** The answer of the refresh service: a new user and token. */
  datatype Refreshed = Refreshed(user: User, token: string)

  /** The branches of the session check. */
  datatype SessionDecision =
    | NoSavedSession                   // a saved token or saved user is missing: nothing changes
    | Kept                             // the saved token validates: the saved session is restored
    | Renewed(user: User, token: string) // the refresh token yields a new session
    | Expired                          // logged out and flagged as expired

  /** Which branch `checkSession` takes. `savedUser` is the stored user
      (present exactly when its stored JSON is non-empty); `validate` and
      `refresh` are the token service (`None` for a rejected refresh). */
  function SessionCheck(savedToken: Option<string>, savedRefresh: Option<string>, savedUser: Option<User>,
                        validate: string -> Option<User>, refresh: string -> Option<Refreshed>): (d: SessionDecision)
    ensures d == NoSavedSession <==> !Truthy(savedToken) || savedUser.None?
    ensures d == Kept <==> Truthy(savedToken) && savedUser.Some? && validate(savedToken.value).Some?
    ensures d.Renewed? ==> Truthy(savedRefresh) && refresh(savedRefresh.value) == Some(Refreshed(d.user, d.token))
    ensures d == Expired ==> !Truthy(savedRefresh) || refresh(savedRefresh.value).None?
  {
    if !(Truthy(savedToken) && savedUser.Some?) then NoSavedSession
    else if validate(savedToken.value).Some? then Kept
    else if Truthy(savedRefresh) then
      match refresh(savedRefresh.value)
      case Some(res) => Renewed(res.user, res.token)
      case None => Expired
    else Expired
  }

  /** The authentication state after a session check that took branch `d`. */
  function CheckedState(before: AuthState, d: SessionDecision, savedToken: Option<string>, savedUser: Option<User>): (r: AuthState)
    ensures !r.isLoading
    ensures r.sessionExpired <==> d == Expired || (d == NoSavedSession && before.sessionExpired)
    ensures d == Expired ==> r.user.None? && r.token.None?
    ensures d.Renewed? ==> r.user == Some(d.user) && r.token == Some(d.token)
    ensures d == Kept ==> r.user == savedUser && r.token == savedToken
    ensures d == NoSavedSession ==> r.user == before.user && r.token == before.token
  {
    match d
    case NoSavedSession => before.(isLoading := false)
    case Kept => AuthState(savedUser, savedToken, false, false)
    case Renewed(u, t) => AuthState(Some(u), Some(t), false, false)
    case Expired => AuthState(None, None, false, true)
  }

  /** After a session check the guard never shows the spinner; an expired
      session is sent to the expired-login page, a kept one passes the
      login rules; and a check that finds nothing saved leaves the guard to
      judge the state it had. */
  lemma {:induction false} GuardAfterSessionCheck(before: AuthState, savedToken: Option<string>, savedRefresh: Option<string>,
                                savedUser: Option<User>, validate: string -> Option<User>,
                                refresh: string -> Option<Refreshed>, roles: Option<seq<UserRole>>)
    ensures var d := SessionCheck(savedToken, savedRefresh, savedUser, validate, refresh);
            var r := ProtectedRoute(CheckedState(before, d, savedToken, savedUser), roles);
            r != Spinner &&
            (d == Expired ==> r == Redirect("/login?expired=true")) &&
            (d == Kept ==> r == RenderPage || r.AccessRestricted?) &&
            (d == NoSavedSession ==> r == ProtectedRoute(before.(isLoading := false), roles))
  {
    var d := SessionCheck(savedToken, savedRefresh, savedUser, validate, refresh);
    if d == Kept {
      assert SignedIn(CheckedState(before, d, savedToken, savedUser));
    }
  }

  /** The state of the `App` component. `storedTheme` is the browser's saved
      theme, which the constructor reads and the theme switch writes. */
  class AppState {
    var user: Option<User>
    var token: Option<string>
    var isLoading: bool
    var sessionExpired: bool
    var isDark: bool
    var storedTheme: Option<string>

    /** The theme shown is the saved one. */
    predicate Valid()
      reads this
    {
      isDark <==> storedTheme == Some("dark")
    }

    function Auth(): AuthState
      reads this
    {
      AuthState(user, token, isLoading, sessionExpired)
    }

    /** The first render: loading, no session, the saved theme. */
    constructor (savedTheme: Option<string>)
      ensures Valid()
      ensures Auth() == AuthState(None, None, true, false)
      ensures storedTheme == savedTheme
    {
      user := None;
      token := None;
      isLoading := true;
      sessionExpired := false;
      isDark := savedTheme == Some("dark");
      storedTheme := savedTheme;
    }

    /** `handleLogout`: the session is cleared and not flagged as expired. */
    method HandleLogout()
      modifies this`user, this`token, this`sessionExpired
      ensures user == None && token == None && !sessionExpired
    {
      user := None;
      token := None;
      sessionExpired := false;
    }

    /** `handleLogin`: `login` is the login service (`None` when it rejects,
        and then nothing changes and the failure goes to the caller). */
    method HandleLogin(email: string, login: string -> Option<AuthResponse>) returns (ok: bool)
      modifies this`user, this`token, this`sessionExpired
      ensures ok <==> login(email).Some?
      ensures ok ==> user == Some(login(email).value.user) && token == Some(login(email).value.token) && !sessionExpired
      ensures !ok ==> user == old(user) && token == old(token) && sessionExpired == old(sessionExpired)
    {
      var res := login(email);
      ok := res.Some?;
      if ok {
        user := Some(res.value.user);
        token := Some(res.value.token);
        sessionExpired := false;
      }
    }

    /** `checkSession`, run as one synchronous step. */
    method CheckSession(savedToken: Option<string>, savedRefresh: Option<string>, savedUser: Option<User>,
                        validate: string -> Option<User>, refresh: string -> Option<Refreshed>)
      requires Valid()
      modifies this`user, this`token, this`sessionExpired, this`isLoading
      ensures Valid()
      ensures Auth() == CheckedState(old(Auth()), SessionCheck(savedToken, savedRefresh, savedUser, validate, refresh),
                                     savedToken, savedUser)
    {
      if Truthy(savedToken) && savedUser.Some? {
        var activeUser := validate(savedToken.value);
        if activeUser.Some? {
          user := savedUser;
          token := savedToken;
          sessionExpired := false;
        } else if Truthy(savedRefresh) {
          var res := refresh(savedRefresh.value);
          if res.Some? {
            user := Some(res.value.user);
            token := Some(res.value.token);
            sessionExpired := false;
          } else {
            HandleLogout();
            sessionExpired := true;
          }
        } else {
          HandleLogout();
          sessionExpired := true;
        }
      }
      isLoading := false;
    }

    /** `toggleTheme`: the theme flips and the new choice is saved. */
    method ToggleTheme()
      requires Valid()
      modifies this`isDark, this`storedTheme
      ensures Valid()
      ensures isDark == !old(isDark)
      ensures storedTheme == Some(if isDark then "dark" else "light")
    {
      isDark := !isDark;
      storedTheme := Some(if isDark then "dark" else "light");
    }
  }
}
