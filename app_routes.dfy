/** The route table and its three guards. */
module AppRoutes {
  import opened Common
  import opened Text
  import opened Session
  import opened RoleAccess

  datatype Page = LoginPage | DashboardPage | EquipmentPage | ReportDowntimePage | DowntimesPage

  /** The five paths of the route table. Links and `<Navigate to>` targets
      name one of these, so they are modelled by the route they name. */
  datatype RoutePath = LoginPath | RootPath | EquipmentPath | ReportPath | DowntimesPath

  function PathText(r: RoutePath): string {
    match r
    case LoginPath => "/login"
    case RootPath => "/"
    case EquipmentPath => "/equipment"
    case ReportPath => "/report-downtime"
    case DowntimesPath => "/downtimes"
  }

  /** A route either renders a page or redirects (with `replace`) to a path. */
  datatype Outcome = Render(page: Page) | Redirect(to: RoutePath)

  /** The paths of the protected layout. */
  predicate IsProtectedPath(r: RoutePath) {
    r != LoginPath
  }

  /** `ProtectedRoute`. */
  function ProtectedRoute(user: Option<User>, inner: Outcome): (o: Outcome)
    ensures user.None? ==> o == Redirect(LoginPath)
    ensures user.Some? ==> o == inner
  {
    if user.None? then Redirect(LoginPath) else inner
  }

  /** `DashboardGuard`. */
  function DashboardGuard(access: Access): (o: Outcome)
    ensures o == Render(DashboardPage) <==> access.canViewDashboard
    ensures o != Render(DashboardPage) ==> o == Redirect(EquipmentPath)
  {
    if !access.canViewDashboard then Redirect(EquipmentPath) else Render(DashboardPage)
  }

  /** `DowntimesGuard`. */
  function DowntimesGuard(access: Access): (o: Outcome)
    ensures o == Render(DowntimesPage) <==> access.canViewDowntimes
    ensures o != Render(DowntimesPage) ==> o == Redirect(EquipmentPath)
  {
    if !access.canViewDowntimes then Redirect(EquipmentPath) else Render(DowntimesPage)
  }

  /** `path` without its trailing `/` characters. */
  function DropTrailingSlashes(path: string): (r: string)
    ensures |r| <= |path| && r == path[..|r|]
    ensures r == [] || r[|r| - 1] != '/'
    ensures forall i :: |r| <= i < |path| ==> path[i] == '/'
  {
    if path != [] && path[|path| - 1] == '/' then DropTrailingSlashes(path[..|path| - 1]) else path
  }

  /** The form in which the router compares a location with a route path:
      `<Route path>` matches without regard to ASCII case (its default
      `caseSensitive` is false) and ignores trailing slashes, so "/" stands
      for every path made only of slashes. */
  function NormalPath(path: string): string {
    var t := DropTrailingSlashes(Lower(path));
    if t == [] then "/" else t
  }

  /** The route a location matches, if any. */
  function MatchRoute(path: string): (m: Option<RoutePath>)
    ensures m.Some? ==> PathText(m.value) == NormalPath(path)
    ensures m.None? ==> forall r :: PathText(r) != NormalPath(path)
  {
    MatchNormal(NormalPath(path))
  }

  /** The route table's lookup of a path in normal form. */
  function MatchNormal(p: string): (m: Option<RoutePath>)
    ensures m.Some? ==> PathText(m.value) == p
    ensures m.None? ==> forall r :: PathText(r) != p
  {
    if p == "/login" then Some(LoginPath)
    else if p == "/" then Some(RootPath)
    else if p == "/equipment" then Some(EquipmentPath)
    else if p == "/report-downtime" then Some(ReportPath)
    else if p == "/downtimes" then Some(DowntimesPath)
    else None
  }

  /** What the route table shows for a matched route, or for no match. */
  function RouteTo(m: Option<RoutePath>, user: Option<User>): Outcome {
    match m
    case Some(LoginPath) => Render(LoginPage)
    case Some(RootPath) => ProtectedRoute(user, DashboardGuard(UseRoleAccess(user)))
    case Some(EquipmentPath) => ProtectedRoute(user, Render(EquipmentPage))
    case Some(ReportPath) => ProtectedRoute(user, Render(ReportDowntimePage))
    case Some(DowntimesPath) => ProtectedRoute(user, DowntimesGuard(UseRoleAccess(user)))
    case None => Redirect(RootPath)
  }

  /** `AppRoutes`: what the router shows at `path` for the current user. */
  function Route(path: string, user: Option<User>): Outcome {
    RouteTo(MatchRoute(path), user)
  }

  /** The page reached from route `m` following at most `hops` redirects. */
  function Resolve(m: Option<RoutePath>, user: Option<User>, hops: nat): Option<Page>
    decreases hops
  {
    match RouteTo(m, user)
    case Render(p) => Some(p)
    case Redirect(to) => if hops == 0 then None else Resolve(Some(to), user, hops - 1)
  }

  /** A location names a route exactly when its normal form is that route's
      path. */
  lemma MatchRouteIff(path: string, r: RoutePath)
    ensures MatchRoute(path) == Some(r) <==> NormalPath(path) == PathText(r)
  {
  }

  /** A trailing `/` does not change where a path leads. */
  lemma {:induction false} TrailingSlashIgnored(path: string, user: Option<User>)
    ensures Route(path + "/", user) == Route(path, user)
  {
    NormalPathTrailingSlash(path);
  }

  lemma {:induction false} NormalPathTrailingSlash(path: string)
    ensures NormalPath(path + "/") == NormalPath(path)
  {
    LowerAppend(path, "/");
    assert Lower("/") == "/";
    assert (Lower(path) + "/")[..|Lower(path) + "/"| - 1] == Lower(path);
  }

  /** Paths that differ only in ASCII case lead to the same place. */
  lemma RouteIgnoresCase(a: string, b: string, user: Option<User>)
    requires SameFold(a, b)
    ensures Route(a, user) == Route(b, user)
  {
  }

  /** The signed-out user is sent to the login page from every protected path. */
  lemma SignedOutGoesToLogin(path: string)
    requires MatchRoute(path).Some? && IsProtectedPath(MatchRoute(path).value)
    ensures Route(path, None) == Redirect(LoginPath)
  {
  }

  /** /login is never guarded (in any case, with any trailing slashes) and
      an unknown path goes to "/". */
  lemma LoginAndFallback(path: string, user: Option<User>)
    ensures NormalPath(path) == "/login" ==> Route(path, user) == Render(LoginPage)
    ensures (forall r :: PathText(r) != NormalPath(path)) ==> Route(path, user) == Redirect(RootPath)
  {
    MatchRouteIff(path, LoginPath);
  }

  /** A signed-in user sees the equipment and report pages whatever the role. */
  lemma OpenPagesForAnyUser(u: User)
    ensures RouteTo(Some(EquipmentPath), Some(u)) == Render(EquipmentPage)
    ensures RouteTo(Some(ReportPath), Some(u)) == Render(ReportDowntimePage)
  {
  }

  /** Whatever route a location matches, a rendered page is one the user is
      allowed: a protected page needs a user, the dashboard and the downtime
      list their capability. */
  lemma RenderedPagesAreAllowed(m: Option<RoutePath>, user: Option<User>)
    ensures RouteTo(m, user).Render? && RouteTo(m, user).page != LoginPage ==> user.Some?
    ensures RouteTo(m, user) == Render(DashboardPage) ==> UseRoleAccess(user).canViewDashboard
    ensures RouteTo(m, user) == Render(DowntimesPage) ==> UseRoleAccess(user).canViewDowntimes
  {
  }

  /** From whatever route a location matches, redirects settle within two
      hops: the signed-out user always lands on the login page, and a
      signed-in user on a page they may see. */
  lemma {:induction false} RoutingSettles(m: Option<RoutePath>, user: Option<User>)
    ensures Resolve(m, user, 2).Some?
    ensures user.None? ==> Resolve(m, user, 2) == Some(LoginPage)
    ensures user.Some? && m != Some(LoginPath) ==> Resolve(m, user, 2) != Some(LoginPage)
  {
    var access := UseRoleAccess(user);
    assert Resolve(Some(EquipmentPath), user, 0) == (if user.None? then None else Some(EquipmentPage));
    assert Resolve(Some(LoginPath), user, 0) == Some(LoginPage);
    assert Resolve(Some(RootPath), user, 1) == (if user.None? then Some(LoginPage)
                                                else if access.canViewDashboard then Some(DashboardPage)
                                                else Some(EquipmentPage));
  }
}
