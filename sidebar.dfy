/** The sidebar: the navigation entries a user's role may see, and which entry is highlighted
    for the current location. */
module Sidebar {
  import opened Outcomes
  import Js
  import Seqs

  datatype NavItem = NavItem(name: string, href: string, roles: seq<string>)

  const AllRoles: seq<string> := ["project_manager", "delivery_manager", "admin"]
  const Managers: seq<string> := ["delivery_manager", "admin"]

  /** The entries in the order they are declared. */
  const NavigationItems: seq<NavItem> := [
    NavItem("Dashboard", "/", AllRoles),
    NavItem("Projects", "/projects", AllRoles),
    NavItem("Weekly Reports", "/weekly-reports", AllRoles),
    NavItem("Technical Reviews", "/technical-reviews", AllRoles),
    NavItem("Analytics", "/analytics", Managers),
    NavItem("LLM Configuration", "/llm-config", Managers)
  ]

  function AllowedFor(role: string): NavItem -> bool {
    (item: NavItem) => role in item.roles
  }

  /** `NAVIGATION_ITEMS.filter(item => user?.role && item.roles.includes(user.role))`; `None`
      is a missing user, and an empty role is falsy. */
  function VisibleItems(role: Option<string>): (r: seq<NavItem>)
    ensures role.None? || role.value == "" ==> r == []
    ensures role.Some? && role.value != "" ==>
              forall item :: item in r <==> item in NavigationItems && role.value in item.roles
  {
    if role.None? || role.value == "" then [] else Seqs.Filter(NavigationItems, AllowedFor(role.value))
  }

  /** A project manager sees the first four entries, in order. */
  lemma {:induction false} ProjectManagerItems()
    ensures VisibleItems(Some("project_manager")) == NavigationItems[..4]
  {
    var pm := AllRoles[0];
    assert pm != Managers[0] && pm != Managers[1];
    Seqs.FilterPrefix(NavigationItems, 4, AllowedFor(pm));
  }

  /** A project manager never sees Analytics or LLM Configuration. */
  lemma {:induction false} ProjectManagerNoAnalytics(item: NavItem)
    requires item in VisibleItems(Some("project_manager"))
    ensures item.name != "Analytics" && item.name != "LLM Configuration"
    ensures item.href != "/analytics" && item.href != "/llm-config"
  {
    ProjectManagerItems();
  }

  /** Delivery managers and admins see every entry, in order. */
  lemma {:induction false} ManagersSeeAll(role: string)
    requires role in Managers
    ensures VisibleItems(Some(role)) == NavigationItems
  {
    Seqs.FilterAll(NavigationItems, AllowedFor(role));
  }

  /** Any other role sees nothing. */
  lemma {:induction false} OtherRolesSeeNothing(role: string)
    requires role !in AllRoles
    ensures VisibleItems(Some(role)) == []
  {
    if role != "" {
      Seqs.FilterNone(NavigationItems, AllowedFor(role));
    }
  }

  /** `location === item.href || (item.href !== "/" && location.startsWith(item.href))`. */
  predicate IsActive(location: string, href: string) {
    location == href || (href != "/" && Js.StartsWith(location, href))
  }

  /** The dashboard entry is highlighted only at "/" itself. */
  lemma {:induction false} RootActiveOnlyAtRoot(location: string)
    ensures IsActive(location, "/") <==> location == "/"
  {
  }

  /** Any other entry is highlighted exactly where the location begins with its link, a raw
      prefix test: "/projectsX" highlights "/projects". */
  lemma {:induction false} ActiveIsPrefix(location: string, href: string, suffix: string)
    requires href != "/"
    ensures IsActive(location, href) <==> |href| <= |location| && location[..|href|] == href
    ensures IsActive(href + suffix, href)
  {
    assert (href + suffix)[..|href|] == href;
  }

  /** Concretely, the raw prefix test highlights the projects entry on "/projectsX". */
  lemma {:induction false} ProjectsPrefixExample()
    ensures IsActive("/projectsX", "/projects")
    ensures !IsActive("/projects", "/")
  {
    ActiveIsPrefix("/projectsX", "/projects", "X");
    assert "/projects" + "X" == "/projectsX";
  }
}
