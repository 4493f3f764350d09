/**
 * The site header: the admin flag read from storage, the active-link rule,
 * the dashboard link that depends on the flag, the navigation items shown
 * in each mode, and the logout button.
 */
module Header {
  import opened Opt
  import opened Text
  import Auth

  /** Admin mode is on exactly when the stored flag is the string "true". */
  function AdminFlag(stored: Option<string>): (isAdmin: bool)
    ensures isAdmin <==> stored == Some("true")
  {
    stored.Some? && stored.value == "true"
  }

  /** The header and the login service agree on admin mode. */
  lemma AdminFlagAgreesWithAuth(store: Auth.Storage)
    ensures AdminFlag(store.GetItem(Auth.AdminKey)) == Auth.IsAdmin(store)
  {
  }

  /** `isActive`: home only on "/" itself, every other link on any path it prefixes. */
  function IsActive(pathname: string, path: string): (active: bool)
    ensures path == "/" ==> (active <==> pathname == "/")
    ensures path != "/" ==> (active <==> |path| <= |pathname| && pathname[..|path|] == path)
  {
    if path == "/" then pathname == "/" else StartsWith(pathname, path)
  }

  /** A link other than home stays active on every page below it. */
  lemma ActiveBelow(pathname: string, path: string, rest: string)
    requires path != "/" && IsActive(pathname, path)
    ensures IsActive(pathname + rest, path)
  {
    assert (pathname + rest)[..|path|] == pathname[..|path|];
  }

  /** On the admin dashboard the Admin link is active and Home is not. */
  lemma AdminActiveOnDashboard()
    ensures IsActive("/admin/dashboard", "/admin")
    ensures !IsActive("/admin/dashboard", "/")
  {
    assert "/admin/dashboard"[..|"/admin"|] == "/admin";
  }

  function DashboardPath(isAdmin: bool): string
  {
    if isAdmin then "/admin/dashboard" else "/user/dashboard"
  }

  function DashboardText(isAdmin: bool): string
  {
    if isAdmin then "Admin Dashboard" else "Dashboard"
  }

  /** A link with its target, its text and whether it is highlighted, or the logout button. */
  datatype NavItem = Link(path: string, text: string, active: bool) | LogoutButton

  /**
   * The navigation bar: Home, the dashboard, About Us and Contact Us in
   * both modes, then the logout button in admin mode or the Admin link
   * otherwise. Each link is highlighted by the active-link rule.
   */
  function NavItems(pathname: string, isAdmin: bool): (items: seq<NavItem>)
    ensures |items| == 5
    ensures LogoutButton in items <==> isAdmin
    ensures Link("/admin", "Admin", IsActive(pathname, "/admin")) in items <==> !isAdmin
    ensures items[0] == Link("/", "Home", pathname == "/")
    ensures isAdmin ==> items[1].Link? && items[1].path == "/admin/dashboard" && items[1].text == "Admin Dashboard"
    ensures !isAdmin ==> items[1].Link? && items[1].path == "/user/dashboard" && items[1].text == "Dashboard"
    ensures items[2] == Link("/about", "About Us", IsActive(pathname, "/about"))
    ensures items[3] == Link("/contact", "Contact Us", IsActive(pathname, "/contact"))
    ensures items[4] == if isAdmin then LogoutButton else Link("/admin", "Admin", IsActive(pathname, "/admin"))
    ensures forall i :: 0 <= i < |items| && items[i].Link? ==> items[i].active == IsActive(pathname, items[i].path)
  {
    var dashboard := DashboardPath(isAdmin);
    var common := [ Link("/", "Home", IsActive(pathname, "/")),
                    Link(dashboard, DashboardText(isAdmin), IsActive(pathname, dashboard)),
                    Link("/about", "About Us", IsActive(pathname, "/about")),
                    Link("/contact", "Contact Us", IsActive(pathname, "/contact")) ];
    common + [if isAdmin then LogoutButton else Link("/admin", "Admin", IsActive(pathname, "/admin"))]
  }

  /** `handleLogout`: remove the flag and go home; the header then shows visitor mode. */
  method HandleLogout(store: Auth.Storage) returns (navigateTo: string)
    modifies store
    ensures store.items == Auth.AfterLogout(old(store.items))
    ensures navigateTo == "/"
    ensures !AdminFlag(store.GetItem(Auth.AdminKey))
  {
    store.RemoveItem(Auth.AdminKey);
    navigateTo := "/";
  }
}
