/** The two navigation chromes (the sidebar layout and the older top-bar
    layout): their role-annotated menu tables, the role filter that yields the
    visible menu, the page title lookup and the role badge colours. */
module Navigation {
  import opened Wrappers
  import opened Seqs
  import opened Types

  /** One menu entry: the route it opens, its caption and the roles it is shown to. */
  datatype NavItem = NavItem(path: string, caption: string, roles: seq<Role>)

  /** The sidebar layout's menu table, in display order. */
  function SidebarItems(): seq<NavItem>
  {
    [ NavItem("/dashboard", "Dashboard", [Admin, Technician, Landlord]),
      NavItem("/users", "User Management", [Admin]),
      NavItem("/meters", "Meter Management", [Admin]),
      NavItem("/readings", "Meter Readings", [Admin, Technician]),
      NavItem("/bills", "Bills & Payments", [Admin, Landlord]) ]
  }

  /** The top-bar layout's menu table, in display order. */
  function LayoutItems(): seq<NavItem>
  {
    [ NavItem("/dashboard", "Dashboard", [Admin, Technician, Landlord]),
      NavItem("/users", "Users", [Admin]),
      NavItem("/meters", "Meters", [Admin]),
      NavItem("/readings", "Readings", [Admin, Technician]),
      NavItem("/bills", "Bills", [Admin, Landlord]) ]
  }

  /** The routes of a menu, in menu order. */
  function Paths(items: seq<NavItem>): (ps: seq<string>)
    ensures |ps| == |items|
    ensures forall i :: 0 <= i < |items| ==> ps[i] == items[i].path
  {
    seq(|items|, i requires 0 <= i < |items| => items[i].path)
  }

  /** The entries of `items` whose role list contains `role`, in table order
      (`items.filter(item => item.roles.includes(role))`). */
  function Menu(items: seq<NavItem>, role: Role): seq<NavItem>
  {
    if |items| == 0 then []
    else (if role in items[0].roles then [items[0]] else []) + Menu(items[1..], role)
  }

  /** The test the menu filter applies to an entry. */
  function ListsRole(role: Role): NavItem -> bool
  {
    (it: NavItem) => role in it.roles
  }

  /** The menu is the generic filter with the role test, so it inherits the
      filter's characterisation. */
  lemma {:induction false} MenuIsFilter(items: seq<NavItem>, role: Role)
    ensures Menu(items, role) == Filter(items, ListsRole(role))
  {
    if |items| > 0 {
      MenuIsFilter(items[1..], role);
    }
  }

  /** The menu shown to role `role` is exactly the entries that list it, each
      as often as the table holds it, kept in table order. */
  lemma {:induction false} MenuSpec(items: seq<NavItem>, role: Role)
    ensures IsSubsequence(Menu(items, role), items)
    ensures forall it :: it in Menu(items, role) <==> it in items && role in it.roles
    ensures forall it :: multiset(Menu(items, role))[it] == if role in it.roles then multiset(items)[it] else 0
  {
    MenuIsFilter(items, role);
  }

  /** The menu entries shown to a signed-in user with role `role`
      (`None` when nobody is signed in). */
  function VisibleItems(items: seq<NavItem>, role: Option<Role>): seq<NavItem>
  {
    match role
    case None => []
    case Some(ro) => Menu(items, ro)
  }

  /** Nobody signed in sees nothing; a signed-in user sees exactly the
      entries that list their role, each as often as the table holds it, in
      table order. */
  lemma VisibleItemsSpec(items: seq<NavItem>, role: Option<Role>)
    ensures role.None? ==> VisibleItems(items, role) == []
    ensures IsSubsequence(VisibleItems(items, role), items)
    ensures forall it :: it in VisibleItems(items, role) <==> role.Some? && it in items && role.value in it.roles
    ensures forall it :: multiset(VisibleItems(items, role))[it]
                           == if role.Some? && role.value in it.roles then multiset(items)[it] else 0
  {
    if role.Some? {
      MenuSpec(items, role.value);
    }
  }

  /** Index of the first entry whose route is `path`, if any. */
  function FindPath(items: seq<NavItem>, path: string): (k: Option<nat>)
    ensures k.Some? ==> k.value < |items| && items[k.value].path == path
    ensures k.Some? ==> forall j :: 0 <= j < k.value ==> items[j].path != path
    ensures k.None? ==> forall j :: 0 <= j < |items| ==> items[j].path != path
  {
    if |items| == 0 then None
    else if items[0].path == path then Some(0)
    else match FindPath(items[1..], path)
      case None => None
      case Some(k) => Some(k + 1)
  }

  /** The header title for the current location: the caption of the first
      entry of the whole table (not only the visible part) whose route is
      `path`, and "Dashboard" when none is, or when that caption is empty. */
  function PageTitle(items: seq<NavItem>, path: string): (title: string)
    ensures (forall j :: 0 <= j < |items| ==> items[j].path != path) ==> title == "Dashboard"
    ensures forall i :: (0 <= i < |items| && items[i].path == path && items[i].caption != ""
              && (forall j :: 0 <= j < i ==> items[j].path != path)) ==> title == items[i].caption
  {
    match FindPath(items, path)
    case None => "Dashboard"
    case Some(k) => OrElse(Some(items[k].caption), "Dashboard")
  }

  const Gray := "bg-gray-100 text-gray-800"

  /** Badge colour of a role given as a raw string; unknown strings (and the
      empty string used when nobody is signed in) are gray. */
  function RoleColor(role: string): (c: string)
    ensures c == Gray <==> ParseRole(role).None?
    ensures ParseRole(role) == Some(Admin) ==> c == "bg-red-100 text-red-800"
    ensures ParseRole(role) == Some(Technician) ==> c == "bg-blue-100 text-blue-800"
    ensures ParseRole(role) == Some(Landlord) ==> c == "bg-green-100 text-green-800"
  {
    match role
    case "ADMIN" => "bg-red-100 text-red-800"
    case "TECHNICIAN" => "bg-blue-100 text-blue-800"
    case "LANDLORD" => "bg-green-100 text-green-800"
    case _ => Gray
  }

  /** Distinct roles get distinct badges. */
  lemma RoleColorInjective(a: Role, b: Role)
    ensures RoleColor(RoleName(a)) == RoleColor(RoleName(b)) <==> a == b
  {
  }

  /** The two layouts list the same routes for the same roles in the same
      order; only the captions differ. */
  lemma LayoutMatchesSidebar()
    ensures |LayoutItems()| == |SidebarItems()|
    ensures forall i :: 0 <= i < |SidebarItems()| ==>
              LayoutItems()[i].path == SidebarItems()[i].path
              && LayoutItems()[i].roles == SidebarItems()[i].roles
    ensures forall r :: Paths(VisibleItems(LayoutItems(), r)) == Paths(VisibleItems(SidebarItems(), r))
  {
    forall r ensures Paths(VisibleItems(LayoutItems(), r)) == Paths(VisibleItems(SidebarItems(), r)) {
      FilterSameRoutes(LayoutItems(), SidebarItems(), r);
    }
  }

  /** Filtering two tables that agree entry by entry on routes and roles
      yields menus with the same routes. */
  lemma {:induction false} FilterSameRoutes(a: seq<NavItem>, b: seq<NavItem>, r: Option<Role>)
    requires |a| == |b|
    requires forall i :: 0 <= i < |a| ==> a[i].path == b[i].path && a[i].roles == b[i].roles
    ensures Paths(VisibleItems(a, r)) == Paths(VisibleItems(b, r))
  {
    if r.Some? && |a| > 0 {
      FilterSameRoutes(a[1..], b[1..], r);
    }
  }

  /** Filtering a table entry by entry. */
  lemma MenuCons(x: NavItem, rest: seq<NavItem>, role: Role)
    ensures Menu([x] + rest, role) == (if role in x.roles then [x] else []) + Menu(rest, role)
  {
    assert ([x] + rest)[1..] == rest;
  }

  /** The sidebar menu of each role, entry by entry. */
  lemma SidebarMenu(r: Role)
    ensures Menu(SidebarItems(), r)
              == [SidebarItems()[0]]
                 + ((if r == Admin then [SidebarItems()[1]] else [])
                 + ((if r == Admin then [SidebarItems()[2]] else [])
                 + ((if r != Landlord then [SidebarItems()[3]] else [])
                 + (if r != Technician then [SidebarItems()[4]] else []))))
  {
    var s := SidebarItems();
    MenuOfFive(s, r);
    assert Keep(s[0], r) == [s[0]];
    assert Keep(s[1], r) == (if r == Admin then [s[1]] else []);
    assert Keep(s[2], r) == (if r == Admin then [s[2]] else []);
    assert Keep(s[3], r) == (if r != Landlord then [s[3]] else []);
    assert Keep(s[4], r) == (if r != Technician then [s[4]] else []);
  }

  /** An entry as the menu of role `r` keeps it: alone, or not at all. */
  function Keep(x: NavItem, r: Role): seq<NavItem>
  {
    if r in x.roles then [x] else []
  }

  /** The menu of a five-entry table, entry by entry. */
  lemma MenuOfFive(s: seq<NavItem>, r: Role)
    requires |s| == 5
    ensures Menu(s, r) == Keep(s[0], r) + (Keep(s[1], r) + (Keep(s[2], r) + (Keep(s[3], r) + Keep(s[4], r))))
  {
    assert Menu(s[4..], r) == Keep(s[4], r) by {
      assert s[4..][1..] == [];
    }
    assert Menu(s[3..], r) == Keep(s[3], r) + Keep(s[4], r) by {
      assert s[3..][1..] == s[4..];
    }
    assert Menu(s[2..], r) == Keep(s[2], r) + Menu(s[3..], r) by {
      assert s[2..][1..] == s[3..];
    }
    assert Menu(s[1..], r) == Keep(s[1], r) + Menu(s[2..], r) by {
      assert s[1..][1..] == s[2..];
    }
  }

  /** The menu of each role, in display order. */
  lemma MenusPerRole()
    ensures Paths(VisibleItems(SidebarItems(), Some(Admin)))
              == ["/dashboard", "/users", "/meters", "/readings", "/bills"]
    ensures Paths(VisibleItems(SidebarItems(), Some(Technician))) == ["/dashboard", "/readings"]
    ensures Paths(VisibleItems(SidebarItems(), Some(Landlord))) == ["/dashboard", "/bills"]
  {
    AdminMenu();
    TechnicianMenu();
    LandlordMenu();
  }

  lemma AdminMenu()
    ensures Menu(SidebarItems(), Admin) == SidebarItems()
  {
    SidebarMenu(Admin);
  }

  lemma TechnicianMenu()
    ensures Menu(SidebarItems(), Technician) == [SidebarItems()[0], SidebarItems()[3]]
  {
    SidebarMenu(Technician);
  }

  lemma LandlordMenu()
    ensures Menu(SidebarItems(), Landlord) == [SidebarItems()[0], SidebarItems()[4]]
  {
    SidebarMenu(Landlord);
  }

  /** Every role sees the dashboard entry, and sees it first. */
  lemma DashboardVisibleToAll(r: Role)
    ensures |VisibleItems(SidebarItems(), Some(r))| > 0
    ensures VisibleItems(SidebarItems(), Some(r))[0] == SidebarItems()[0]
    ensures SidebarItems()[0].path == "/dashboard"
  {
  }

  /** The title comes from the whole table: a technician who opens the users
      page still sees its caption, although that entry is not in their menu. */
  lemma TitleIgnoresVisibility()
    ensures PageTitle(SidebarItems(), "/users") == "User Management"
    ensures forall it :: it in VisibleItems(SidebarItems(), Some(Technician)) ==> it.path != "/users"
    ensures PageTitle(SidebarItems(), "/login") == "Dashboard"
  {
  }
}
