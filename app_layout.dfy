/** The application shell: the side navigation, the role label and sign-out. */
module AppLayout {
  import opened Common
  import opened Types
  import opened Session
  import opened RoleAccess
  import AppRoutes

  /** The four navigation entries. */
  datatype NavItem = DashboardLink | EquipmentLink | ReportLink | DowntimesLink

  /** The route each entry links to. */
  function NavPath(n: NavItem): AppRoutes.RoutePath {
    match n
    case DashboardLink => AppRoutes.RootPath
    case EquipmentLink => AppRoutes.EquipmentPath
    case ReportLink => AppRoutes.ReportPath
    case DowntimesLink => AppRoutes.DowntimesPath
  }

  function NavTitle(n: NavItem): string {
    match n
    case DashboardLink => "Dashboard"
    case EquipmentLink => "Equipment"
    case ReportLink => "Report Downtime"
    case DowntimesLink => "Downtimes"
  }

  /** No two entries share a label. */
  lemma NavTitlesDistinct(a: NavItem, b: NavItem)
    ensures NavTitle(a) == NavTitle(b) ==> a == b
  {
  }

  /** The capability flag that makes an entry `visible`. */
  predicate NavVisible(access: Access, n: NavItem) {
    match n
    case DashboardLink => access.canViewDashboard
    case EquipmentLink => access.canViewEquipment
    case ReportLink => access.canReportDowntime
    case DowntimesLink => access.canViewDowntimes
  }

  /** `navItems`, in their fixed order. */
  const NavItems: seq<NavItem> := [DashboardLink, EquipmentLink, ReportLink, DowntimesLink]

  /** `navItems.filter((n) => n.visible)`. */
  function VisibleItems(access: Access, items: seq<NavItem>): seq<NavItem> {
    if items == [] then []
    else (if NavVisible(access, items[0]) then [items[0]] else []) + VisibleItems(access, items[1..])
  }

  /** An entry is kept exactly when it is listed and its flag is set, and
      the filter never lengthens the list. */
  lemma {:induction false} VisibleItemsMembers(access: Access, items: seq<NavItem>)
    ensures |VisibleItems(access, items)| <= |items|
    ensures forall n :: n in VisibleItems(access, items) <==> n in items && NavVisible(access, n)
  {
    if items != [] {
      VisibleItemsMembers(access, items[1..]);
      assert items == [items[0]] + items[1..];
    }
  }

  /** The filter looks at the first entry, then at the rest. */
  lemma VisibleItemsCons(access: Access, n: NavItem, rest: seq<NavItem>)
    ensures VisibleItems(access, [n] + rest) ==
      (if NavVisible(access, n) then [n] else []) + VisibleItems(access, rest)
  {
    assert ([n] + rest)[1..] == rest;
  }

  /** The shown links are exactly the flagged ones, in the fixed order. */
  lemma VisibleNavInOrder(access: Access)
    ensures VisibleItems(access, NavItems) ==
      (if access.canViewDashboard then [DashboardLink] else [])
      + (if access.canViewEquipment then [EquipmentLink] else [])
      + (if access.canReportDowntime then [ReportLink] else [])
      + (if access.canViewDowntimes then [DowntimesLink] else [])
  {
    var last: seq<NavItem> := [DowntimesLink];
    var fromReport := [ReportLink] + last;
    var fromEquipment := [EquipmentLink] + fromReport;
    assert NavItems == [DashboardLink] + fromEquipment;
    assert last == [DowntimesLink] + [];
    VisibleItemsCons(access, DowntimesLink, []);
    VisibleItemsCons(access, ReportLink, last);
    VisibleItemsCons(access, EquipmentLink, fromReport);
    VisibleItemsCons(access, DashboardLink, fromEquipment);
  }

  /** Each link is shown iff its flag is set. */
  lemma LinkShownIffFlag(access: Access, n: NavItem)
    ensures n in VisibleItems(access, NavItems) <==> NavVisible(access, n)
  {
    VisibleItemsMembers(access, NavItems);
    assert n in NavItems;
  }

  /** Every link shown to a signed-in user opens its page without a redirect. */
  lemma ShownLinksRender(u: User)
    ensures forall n :: n in VisibleItems(UseRoleAccess(Some(u)), NavItems) ==>
      AppRoutes.RouteTo(Some(NavPath(n)), Some(u)).Render?
  {
    var access := UseRoleAccess(Some(u));
    VisibleItemsMembers(access, NavItems);
    forall n | n in VisibleItems(access, NavItems) ensures AppRoutes.RouteTo(Some(NavPath(n)), Some(u)).Render? {
      assert NavVisible(access, n);
    }
  }

  /** The role line under the user's name. */
  function RoleLine(user: Option<User>): (s: string)
    ensures user.Some? ==> s == RoleLabel(user.value.role)
    ensures user.None? ==> s == ""
  {
    if user.Some? then RoleLabel(user.value.role) else ""
  }

  /** `handleLogout`: end the session, then go to the login page. */
  method HandleLogout(session: AuthSession) returns (navigateTo: AppRoutes.RoutePath)
    modifies session
    ensures session.user == None
    ensures navigateTo == AppRoutes.LoginPath
    ensures AppRoutes.RouteTo(Some(navigateTo), session.user) == AppRoutes.Render(AppRoutes.LoginPage)
  {
    session.Logout();
    navigateTo := AppRoutes.LoginPath;
  }
}
