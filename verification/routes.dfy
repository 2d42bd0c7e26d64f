/** The application's route table: which page each path renders, which roles
    the route guard lets through, and the redirect of the bare root path.
    The guard component itself is not part of this model; a guarded route is
    taken to admit a signed-in user exactly when its role list is absent or
    contains the user's role. */
module Routes {
  import opened Wrappers
  import opened Types
  import opened Navigation

  datatype Route =
    | Public(path: string)
      /** `allowed` is the guard's role list; `None` means any signed-in user. */
    | Guarded(path: string, allowed: Option<seq<Role>>)
    | Redirect(path: string, target: string)

  /** The routes in declaration order; no path is declared twice, so the
      first match is the only one. */
  function RouteTable(): (t: seq<Route>)
    ensures forall i, j :: 0 <= i < j < |t| ==> t[i].path != t[j].path
  {
    [ Public("/login"),
      Guarded("/dashboard", None),
      Guarded("/users", Some([Admin])),
      Guarded("/meters", Some([Admin])),
      Guarded("/readings", Some([Admin, Technician])),
      Guarded("/bills", Some([Admin, Landlord])),
      Redirect("/", "/dashboard") ]
  }

  /** The first route of `routes` declared for `path`. */
  function FindRoute(routes: seq<Route>, path: string): Option<Route>
  {
    if |routes| == 0 then None
    else if routes[0].path == path then Some(routes[0])
    else FindRoute(routes[1..], path)
  }

  /** The route table, looked up path by path. */
  lemma LookupTable(path: string)
    ensures FindRoute(RouteTable(), path) ==
      if path == "/login" then Some(Public("/login"))
      else if path == "/dashboard" then Some(Guarded("/dashboard", None))
      else if path == "/users" then Some(Guarded("/users", Some([Admin])))
      else if path == "/meters" then Some(Guarded("/meters", Some([Admin])))
      else if path == "/readings" then Some(Guarded("/readings", Some([Admin, Technician])))
      else if path == "/bills" then Some(Guarded("/bills", Some([Admin, Landlord])))
      else if path == "/" then Some(Redirect("/", "/dashboard"))
      else None
  {
    var t := RouteTable();
    assert t[7..] == [];
    assert FindRoute(t[6..], path) == if path == "/" then Some(t[6]) else FindRoute(t[7..], path);
    assert FindRoute(t[5..], path) == if path == "/bills" then Some(t[5]) else FindRoute(t[6..], path);
    assert FindRoute(t[4..], path) == if path == "/readings" then Some(t[4]) else FindRoute(t[5..], path);
    assert FindRoute(t[3..], path) == if path == "/meters" then Some(t[3]) else FindRoute(t[4..], path);
    assert FindRoute(t[2..], path) == if path == "/users" then Some(t[2]) else FindRoute(t[3..], path);
    assert FindRoute(t[1..], path) == if path == "/dashboard" then Some(t[1]) else FindRoute(t[2..], path);
    assert FindRoute(t, path) == if path == "/login" then Some(t[0]) else FindRoute(t[1..], path);
  }

  /** The set of roles in a guard's role list. */
  function RoleSet(roles: seq<Role>): (rs: set<Role>)
    ensures forall r :: r in rs <==> r in roles
  {
    set r | r in roles
  }

  /** The roles a guarded path admits; `None` for paths that are not guarded. */
  function AdmittedRoles(path: string): (rs: Option<set<Role>>)
  {
    match FindRoute(RouteTable(), path)
    case Some(Guarded(_, None)) => Some({Admin, Technician, Landlord})
    case Some(Guarded(_, Some(roles))) => Some(RoleSet(roles))
    case _ => None
  }

  /** Where a visit to `path` ends up before any guard runs. */
  function Resolve(path: string): (target: string)
  {
    match FindRoute(RouteTable(), path)
    case Some(Redirect(_, to)) => to
    case _ => path
  }

  /** The guard admits every role on the dashboard, only administrators on
      the users and meters pages, administrators and technicians on the
      readings page, administrators and landlords on the bills page, and the
      root path redirects to the dashboard. */
  lemma RouteTableFacts()
    ensures FindRoute(RouteTable(), "/dashboard") == Some(Guarded("/dashboard", None))
    ensures AdmittedRoles("/dashboard") == Some({Admin, Technician, Landlord})
    ensures AdmittedRoles("/users") == Some({Admin})
    ensures AdmittedRoles("/meters") == Some({Admin})
    ensures AdmittedRoles("/readings") == Some({Admin, Technician})
    ensures AdmittedRoles("/bills") == Some({Admin, Landlord})
    ensures AdmittedRoles("/login") == None
    ensures Resolve("/") == "/dashboard"
  {
    LookupTable("/dashboard");
    LookupTable("/users");
    LookupTable("/meters");
    LookupTable("/readings");
    LookupTable("/bills");
    LookupTable("/login");
    LookupTable("/");
    assert RoleSet([Admin]) == {Admin};
    assert RoleSet([Admin, Technician]) == {Admin, Technician};
    assert RoleSet([Admin, Landlord]) == {Admin, Landlord};
  }

  /** The route guards and the menu tables agree: a menu entry is listed for
      exactly the roles its route admits, and every guarded route has a menu
      entry. */
  lemma RoutesAgreeWithNavigation()
    ensures forall it :: it in SidebarItems() ==> AdmittedRoles(it.path) == Some(RoleSet(it.roles))
    ensures forall it :: it in LayoutItems() ==> AdmittedRoles(it.path) == Some(RoleSet(it.roles))
    ensures forall path :: AdmittedRoles(path).Some? ==> path in Paths(SidebarItems())
  {
    EntriesMatchGuards(SidebarItems());
    EntriesMatchGuards(LayoutItems());
    forall path | AdmittedRoles(path).Some?
      ensures path in Paths(SidebarItems())
    {
      GuardedPaths(path);
    }
  }

  /** Each entry of either menu table lists the roles its route admits. */
  lemma EntriesMatchGuards(items: seq<NavItem>)
    requires items == SidebarItems() || items == LayoutItems()
    ensures forall it :: it in items ==> AdmittedRoles(it.path) == Some(RoleSet(it.roles))
  {
    SidebarEntriesMatchGuards();
    LayoutMatchesSidebar();
    forall it | it in items
      ensures AdmittedRoles(it.path) == Some(RoleSet(it.roles))
    {
      var i :| 0 <= i < |items| && items[i] == it;
      assert it.path == SidebarItems()[i].path && it.roles == SidebarItems()[i].roles;
    }
  }

  /** Each sidebar entry, by position, lists the roles its route admits. */
  lemma SidebarEntriesMatchGuards()
    ensures forall i :: 0 <= i < |SidebarItems()| ==>
              AdmittedRoles(SidebarItems()[i].path) == Some(RoleSet(SidebarItems()[i].roles))
  {
    var s := SidebarItems();
    assert AdmittedRoles(s[0].path) == Some(RoleSet(s[0].roles)) by {
      RouteTableFacts();
      assert RoleSet([Admin, Technician, Landlord]) == {Admin, Technician, Landlord};
    }
    assert AdmittedRoles(s[1].path) == Some(RoleSet(s[1].roles)) by {
      RouteTableFacts();
      assert RoleSet([Admin]) == {Admin};
    }
    assert AdmittedRoles(s[2].path) == Some(RoleSet(s[2].roles)) by {
      RouteTableFacts();
      assert RoleSet([Admin]) == {Admin};
    }
    assert AdmittedRoles(s[3].path) == Some(RoleSet(s[3].roles)) by {
      RouteTableFacts();
      assert RoleSet([Admin, Technician]) == {Admin, Technician};
    }
    assert AdmittedRoles(s[4].path) == Some(RoleSet(s[4].roles)) by {
      RouteTableFacts();
      assert RoleSet([Admin, Landlord]) == {Admin, Landlord};
    }
  }

  /** Only the five menu paths carry a guard. */
  lemma GuardedPaths(path: string)
    requires AdmittedRoles(path).Some?
    ensures path in Paths(SidebarItems())
  {
    LookupTable(path);
    assert Paths(SidebarItems()) == ["/dashboard", "/users", "/meters", "/readings", "/bills"];
  }

  /** A role reaches a menu path through the guard exactly when the sidebar
      shows it that entry. */
  lemma GuardMatchesMenu(role: Role, path: string)
    requires path in Paths(SidebarItems())
    ensures (role in AdmittedRoles(path).value)
              <==> (exists it :: it in VisibleItems(SidebarItems(), Some(role)) && it.path == path)
  {
    RoutesAgreeWithNavigation();
    VisibleItemsSpec(SidebarItems(), Some(role));
    var s := SidebarItems();
    var i :| 0 <= i < |s| && Paths(s)[i] == path;
    assert s[i] in s;
  }
}
