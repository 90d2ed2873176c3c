/**
 * src/components/AppLayout.tsx: the role-dependent sidebar links, the
 * mobile sidebar toggle, and the logout button.
 */
module AppLayout {
  import opened Types
  import opened AuthContext
  import opened Guards
  import opened AppRoutes
  import Seqs

  /** A sidebar link: its target path and text. */
  datatype NavItem = NavItem(to: string, text: string)

  predicate IsAdmin(user: Option<User>)
  {
    user.Some? && user.value.role == Admin
  }

  /** The sidebar links, top to bottom. */
  function NavItems(user: Option<User>): seq<NavItem>
  {
    [NavItem("/dashboard", "Dashboard"), NavItem("/assets", "Assets")] +
    (if IsAdmin(user) then [NavItem("/users", "Users"), NavItem("/reports", "Reports")] else []) +
    [NavItem("/profile", "Profile")]
  }

  predicate AdminOnly(item: NavItem)
  {
    item.to == "/users" || item.to == "/reports"
  }

  /**
   * Dashboard and Assets always lead and Profile always closes the list; the
   * Users and Reports links appear exactly for an admin.
   */
  lemma NavItemsByRole(user: Option<User>)
    ensures |NavItems(user)| >= 3
    ensures NavItems(user)[0].to == "/dashboard" && NavItems(user)[1].to == "/assets"
    ensures NavItems(user)[|NavItems(user)| - 1].to == "/profile"
    ensures (exists i :: 0 <= i < |NavItems(user)| && AdminOnly(NavItems(user)[i])) <==> IsAdmin(user)
    ensures (exists i :: 0 <= i < |NavItems(user)| && NavItems(user)[i].to == "/users") <==> IsAdmin(user)
    ensures (exists i :: 0 <= i < |NavItems(user)| && NavItems(user)[i].to == "/reports") <==> IsAdmin(user)
    ensures IsAdmin(user) ==> NavItems(user)[2..4] == [NavItem("/users", "Users"), NavItem("/reports", "Reports")]
    ensures IsAdmin(user) ==> |NavItems(user)| == 5
    ensures !IsAdmin(user) ==> |NavItems(user)| == 3
  {
    if IsAdmin(user) {
      assert AdminOnly(NavItems(user)[2]);
      assert NavItems(user)[3].to == "/reports";
    }
  }

  /** A non-admin sees the admin's list with Users and Reports removed, order kept. */
  lemma NonAdminNavIsFilteredAdminNav(user: Option<User>, admin: User)
    requires !IsAdmin(user) && admin.role == Admin
    ensures NavItems(user) == Seqs.Filter(NavItems(Some(admin)), item => !AdminOnly(item))
  {
    var full := NavItems(Some(admin));
    var p := (item: NavItem) => !AdminOnly(item);
    assert full[1..][1..][1..][1..][1..] == [];
    calc {
      Seqs.Filter(full, p);
      [full[0]] + Seqs.Filter(full[1..], p);
      [full[0], full[1]] + Seqs.Filter(full[1..][1..], p);
      [full[0], full[1]] + Seqs.Filter(full[1..][1..][1..], p);
      [full[0], full[1]] + Seqs.Filter(full[1..][1..][1..][1..], p);
      [full[0], full[1], full[4]];
    }
  }

  /**
   * The Users, Reports and Profile links lead to no route of the route table:
   * once loaded they render the not-found page.
   */
  lemma SidebarLinksOutsideRouteTable(user: Option<User>, ctx: ContextValue)
    requires !ctx.isLoading
    ensures forall item :: item in NavItems(user) && item.to !in {"/dashboard", "/assets"} ==>
              AppView(ctx, item.to) == Render(NotFoundPage, false)
  {
  }

  /** The layout's own state: whether the mobile sidebar is open. */
  class Layout {
    var sidebarOpen: bool

    constructor ()
      ensures !sidebarOpen
    {
      sidebarOpen := false;
    }

    /** The menu button: flips the sidebar, so pressing it twice restores it. */
    method ToggleSidebar()
      modifies this
      ensures sidebarOpen == !old(sidebarOpen)
    {
      sidebarOpen := !sidebarOpen;
    }

    /** A click on the backdrop closes the sidebar. */
    method CloseSidebar()
      modifies this
      ensures !sidebarOpen
    {
      sidebarOpen := false;
    }

    /**
     * `handleLogout`: log out, then show the "Logged out" toast. `logout`
     * swallows storage errors itself, so the toast is always shown.
     */
    method HandleLogout(auth: AuthProvider) returns (toastShown: bool)
      modifies auth, auth.storage
      ensures auth.State() == LogoutStep(old(auth.State()))
      ensures toastShown
    {
      auth.Logout();
      toastShown := true;
    }
  }
}
