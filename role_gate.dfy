/** The client-side role gate that wraps every admin page: while the session
    is loading it shows a loading screen; afterwards it either renders the
    wrapped page or shows a placeholder and navigates to `/unauthorized`. The
    navigation (an effect hook) and the rendered screen are two separate
    computations over the same inputs; both are modelled, and proved to agree. */
module RoleGate {
  import opened Values

  /** The role of a user profile. */
  datatype Role = SuperAdmin | StoreAdmin | User

  /** The signed-in user, as far as the gate and the pages read it. */
  datatype SessionUser = SessionUser(id: string, role: Role)

  /** The `requiredRole` argument: one role, or a list of roles. */
  datatype Required = Single(role: Role) | AnyOf(roles: seq<Role>)

  /** What the wrapper renders. */
  datatype Screen = LoadingScreen | CheckingPermissions | Wrapped

  const UnauthorizedPath := "/unauthorized"

  /** `user?.role || null`: the session user's role, or null when nobody is
      signed in (every role name is a non-empty string, so never falsy). */
  function UserRole(user: Option<SessionUser>): (role: Option<Role>)
    ensures role.None? <==> user.None?
    ensures user.Some? ==> role == Some(user.value.role)
  {
    match user
    case None => None
    case Some(u) => Some(u.role)
  }

  /** `Array.isArray(requiredRole) ? requiredRole : [requiredRole]`. */
  function RolesArray(required: Required): seq<Role> {
    match required
    case Single(r) => [r]
    case AnyOf(rs) => rs
  }

  /** `!userRole || !rolesArray.includes(userRole)`. */
  predicate Denied(userRole: Option<Role>, required: Required) {
    userRole.None? || userRole.value !in RolesArray(required)
  }

  /** The access rule stated directly on the argument: a signed-in role that
      is the required role, or one of the required roles. */
  predicate Admits(userRole: Option<Role>, required: Required) {
    match required
    case Single(r) => userRole == Some(r)
    case AnyOf(rs) => exists i :: 0 <= i < |rs| && userRole == Some(rs[i])
  }

  /** The effect hook: where the router is sent when the effect runs. */
  function Redirect(loading: bool, userRole: Option<Role>, required: Required): (target: Option<string>)
    ensures target.Some? <==> !loading && !Admits(userRole, required)
    ensures target.Some? ==> target.value == UnauthorizedPath
  {
    if !loading && Denied(userRole, required) then Some(UnauthorizedPath) else None
  }

  /** The screen the wrapper returns. */
  function Render(loading: bool, userRole: Option<Role>, required: Required): (screen: Screen)
    ensures screen == LoadingScreen <==> loading
    ensures screen == Wrapped <==> !loading && Admits(userRole, required)
    ensures screen == CheckingPermissions <==> !loading && !Admits(userRole, required)
  {
    if loading then LoadingScreen
    else if Denied(userRole, required) then CheckingPermissions
    else Wrapped
  }

  /** While loading, nothing is rendered and nobody is redirected. */
  lemma LoadingShowsNothing(userRole: Option<Role>, required: Required)
    ensures Render(true, userRole, required) == LoadingScreen
    ensures Redirect(true, userRole, required) == None
  {
  }

  /** The redirect is issued exactly when the placeholder replaces the page. */
  lemma RedirectIffPlaceholder(loading: bool, userRole: Option<Role>, required: Required)
    ensures Redirect(loading, userRole, required).Some?
        <==> Render(loading, userRole, required) == CheckingPermissions
    ensures Redirect(loading, userRole, required).None?
        <==> Render(loading, userRole, required) in {LoadingScreen, Wrapped}
  {
  }

  /** Without a signed-in user the wrapped page is never rendered. */
  lemma NoRoleNeverRendered(loading: bool, required: Required)
    ensures Render(loading, None, required) != Wrapped
    ensures !loading ==> Redirect(loading, None, required) == Some(UnauthorizedPath)
  {
  }

  /** A single required role behaves exactly as the one-element list. */
  lemma SingleRoleIsOneElementList(loading: bool, userRole: Option<Role>, r: Role)
    ensures Render(loading, userRole, Single(r)) == Render(loading, userRole, AnyOf([r]))
    ensures Redirect(loading, userRole, Single(r)) == Redirect(loading, userRole, AnyOf([r]))
  {
  }

  /** The admin pages that are wrapped by the gate. */
  datatype AdminPage =
    | Dashboard | UsersPage | StoresPage | OrdersPage
    | ProductsPage | CustomersPage | TeamsPage | AnalyticsPage

  /** The roles each admin page passes to the gate. */
  function PageRoles(p: AdminPage): Required {
    if p == UsersPage then AnyOf([SuperAdmin]) else AnyOf([SuperAdmin, StoreAdmin])
  }

  /** Once the session has loaded: a super admin sees every admin page, a
      store admin every page but user management, and a plain user none. */
  lemma AdminPageAccess(p: AdminPage, r: Role)
    ensures Render(false, Some(r), PageRoles(p)) == Wrapped
        <==> r == SuperAdmin || (r == StoreAdmin && p != UsersPage)
  {
    if p == UsersPage {
      assert RolesArray(PageRoles(p)) == [SuperAdmin];
    } else {
      assert RolesArray(PageRoles(p)) == [SuperAdmin, StoreAdmin];
    }
  }
}
