/**
 * The dashboard frame around every signed-in page: the sidebar links for the user's role
 * and the page title chosen from the current path.
 */
module Layout {
  import opened Optional
  import opened Text
  import opened Routing

  /** A sidebar entry (its icon is not modelled). */
  datatype NavLink = NavLink(to: string, caption: string)

  /** A link to a page under a dashboard. */
  function Under(home: string, suffix: string, caption: string): NavLink {
    NavLink(home + suffix, caption)
  }

  function NavLinks(role: string): seq<NavLink> {
    if role == "admin" then
      var home := "/admin";
      [ NavLink(home, "Dashboard"),
        Under(home, "/clients", "Clients"),
        Under(home, "/interns", "Interns"),
        Under(home, "/orders", "Orders"),
        Under(home, "/payouts", "Payouts"),
        Under(home, "/analytics", "Analytics"),
        Under(home, "/settings", "Settings") ]
    else if role == "client" then
      var home := "/client";
      [ NavLink(home, "Dashboard"),
        Under(home, "/profile", "Profile"),
        Under(home, "/orders", "Orders"),
        Under(home, "/reviews", "Reviews"),
        Under(home, "/settings", "Settings") ]
    else if role == "intern" then
      var home := "/intern";
      [ NavLink(home, "Dashboard"),
        Under(home, "/tasks", "Review Tasks"),
        Under(home, "/earnings", "Earnings"),
        Under(home, "/settings", "Settings") ]
    else []
  }

  /** The header title: exact dashboard paths first, then substring tests in a fixed order,
      then the role's own dashboard name. */
  function PageTitle(path: string, role: string): string {
    if path == "/client" then "Client Dashboard"
    else if path == "/intern" then "Intern Dashboard"
    else if path == "/admin" then "Admin Dashboard"
    else if Contains(path, "/profile") then "Profile"
    else if Contains(path, "/orders/new") then "New Order"
    else if Contains(path, "/orders") then "Orders"
    else if Contains(path, "/reviews") then "Reviews"
    else if Contains(path, "/settings") then "Settings"
    else if Contains(path, "/tasks") then "Review Tasks"
    else if Contains(path, "/earnings") then "Earnings"
    else Capitalize(role) + " Dashboard"
  }

  /** The substring tests of `PageTitle` as data, in priority order: an independent statement
      of the title rule. */
  const TitleRules: seq<(string, string)> := [
    ("/profile", "Profile"),
    ("/orders/new", "New Order"),
    ("/orders", "Orders"),
    ("/reviews", "Reviews"),
    ("/settings", "Settings"),
    ("/tasks", "Review Tasks"),
    ("/earnings", "Earnings")
  ]

  /** The title of the first rule whose fragment occurs in `path`. */
  function FirstMatchingTitle(rules: seq<(string, string)>, path: string): Option<string>
    decreases |rules|
  {
    if rules == [] then None
    else if Contains(path, rules[0].0) then Some(rules[0].1)
    else FirstMatchingTitle(rules[1..], path)
  }

  /** What the frame shows: nothing at all without a signed-in user. */
  datatype Frame = Frame(links: seq<NavLink>, title: string)

  function DashboardFrame(user: Option<User>, path: string): (f: Option<Frame>)
    ensures f.None? <==> user.None?
    ensures f.Some? ==> f.value.links == NavLinks(user.value.role)
    ensures f.Some? ==> f.value.title == PageTitle(path, user.value.role)
  {
    match user
    case None => None
    case Some(u) => Some(Frame(NavLinks(u.role), PageTitle(path, u.role)))
  }

  /** Only the three known roles get links. */
  lemma UnknownRoleHasNoLinks(role: string)
    ensures NavLinks(role) == [] <==> !KnownRole(role)
  {
  }

  /** Admins get seven links, clients five, interns four; each list opens with the role's dashboard,
      and every link stays inside the role's own section. */
  lemma NavLinksShape(role: string)
    requires KnownRole(role)
    ensures |NavLinks(role)| == (if role == "admin" then 7 else if role == "client" then 5 else 4)
    ensures NavLinks(role)[0] == NavLink(DashboardOf(role).value, "Dashboard")
    ensures forall i :: 0 <= i < |NavLinks(role)| ==> StartsWith(NavLinks(role)[i].to, DashboardOf(role).value)
  {
  }

  /** The three dashboard paths are titled before any substring test is tried. */
  lemma DashboardPathsTitledFirst(role: string)
    ensures PageTitle("/client", role) == "Client Dashboard"
    ensures PageTitle("/intern", role) == "Intern Dashboard"
    ensures PageTitle("/admin", role) == "Admin Dashboard"
  {
  }

  /** Away from the exact dashboard paths the title is the first matching rule, else the
      capitalised role followed by " Dashboard". */
  lemma {:induction false} TitleFollowsRules(path: string, role: string)
    requires path != "/client" && path != "/intern" && path != "/admin"
    ensures PageTitle(path, role) == FirstMatchingTitle(TitleRules, path).GetOr(Capitalize(role) + " Dashboard")
  {
    var r := TitleRules;
    assert r[1..][1..][1..][1..][1..][1..][1..] == [];
  }

  /** A path under `/orders/new` is titled "New Order" unless it also names a profile;
      it is never titled "Orders". */
  lemma NewOrderBeatsOrders(path: string, role: string)
    requires Contains(path, "/orders/new")
    ensures PageTitle(path, role) != "Orders"
    ensures !Contains(path, "/profile") ==> PageTitle(path, role) == "New Order"
  {
    ContainsNeedsRoom(path, "/orders/new");
  }

  /** A path that matches no rule is titled with the capitalised role, whatever the role:
      `/admin/clients` reads "Admin Dashboard" for an admin. */
  lemma FallbackTitle(path: string, role: string)
    requires path != "/client" && path != "/intern" && path != "/admin"
    requires FirstMatchingTitle(TitleRules, path).None?
    ensures PageTitle(path, role) == Capitalize(role) + " Dashboard"
  {
    TitleFollowsRules(path, role);
  }
}
