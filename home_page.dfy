/** The root page: chooses one view from the loading flag, the user and the user type. */
module HomePage {
  import opened AppContext
  import RoleGate
  import UserApp
  import CompanyApp
  import AdminApp

  datatype View = LoadingScreen | AuthPage | UserAppView | CompanyAppView | AdminAppView | UnassignedRoleNotice

  predicate Privileged(v: View)
  {
    v.UserAppView? || v.CompanyAppView? || v.AdminAppView?
  }

  function SelectView(c: Snapshot): View
  {
    if c.isLoadingUser then LoadingScreen
    else if c.user.None? then AuthPage
    else if c.userType == PERSONAL then UserAppView
    else if c.userType == EMPRESA then CompanyAppView
    else if c.userType == ADMIN then AdminAppView
    else UnassignedRoleNotice
  }

  /** While loading, the loading view is chosen whatever the user and role. */
  lemma LoadingFirst(c: Snapshot)
    requires c.isLoadingUser
    ensures SelectView(c) == LoadingScreen
  {
  }

  /** Loading over and no user: the auth page. */
  lemma NoUserGetsAuthPage(c: Snapshot)
    requires !c.isLoadingUser && c.user.None?
    ensures SelectView(c) == AuthPage
  {
  }

  /** Each dashboard is chosen exactly when loading is over, a user is present and the role is its own. */
  lemma DashboardsNeedExactRole(c: Snapshot)
    ensures SelectView(c) == UserAppView <==> !c.isLoadingUser && c.user.Some? && c.userType == PERSONAL
    ensures SelectView(c) == CompanyAppView <==> !c.isLoadingUser && c.user.Some? && c.userType == EMPRESA
    ensures SelectView(c) == AdminAppView <==> !c.isLoadingUser && c.user.Some? && c.userType == ADMIN
  {
  }

  /** Any other role, "none" or an unknown string, gives the notice and never a dashboard. */
  lemma OtherRolesGetNotice(c: Snapshot)
    requires !c.isLoadingUser && c.user.Some?
    requires c.userType !in {PERSONAL, EMPRESA, ADMIN}
    ensures SelectView(c) == UnassignedRoleNotice && !Privileged(SelectView(c))
  {
  }

  /** Exactly one of the six conditions holds for every input, and it decides the view. */
  lemma ExactlyOneView(c: Snapshot)
    ensures c.isLoadingUser <==> SelectView(c) == LoadingScreen
    ensures (!c.isLoadingUser && c.user.None?) <==> SelectView(c) == AuthPage
    ensures (!c.isLoadingUser && c.user.Some? && c.userType !in {PERSONAL, EMPRESA, ADMIN})
            <==> SelectView(c) == UnassignedRoleNotice
  {
  }

  /** The dashboard the router picks passes its own gate: it neither redirects nor shows a placeholder. */
  lemma RouterAgreesWithDashboardGates(c: Snapshot)
    ensures SelectView(c) == UserAppView ==> !UserApp.Redirect(c) && UserApp.View(c).Content?
    ensures SelectView(c) == CompanyAppView ==> !CompanyApp.Redirect(c) && CompanyApp.View(c).Content?
    ensures SelectView(c) == AdminAppView ==> !AdminApp.Redirect(c) && AdminApp.Gate(c) != AdminApp.Blocked
  {
  }

  /** A dashboard's own gate never shows content the router would not have routed to it. */
  lemma DashboardGatesAgreeWithRouter(c: Snapshot)
    ensures UserApp.View(c).Content? ==> SelectView(c) == UserAppView
    ensures CompanyApp.View(c).Content? ==> SelectView(c) == CompanyAppView
    ensures AdminApp.Gate(c) != AdminApp.Blocked ==> SelectView(c) == AdminAppView
  {
  }
}
