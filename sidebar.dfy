/** The sidebar (src/components/Sidebar.js): the project id read off the pathname,
    the navigation items, the highlighted item, collapsing and logging out. */
module Sidebar {
  import opened Common
  import opened Records
  import opened Text

  const ProjectsPrefix := "/projects/"

  /** The pattern `\/projects\/([^/]+)` matches starting at `i`: `/projects/`
      followed by at least one character other than `/`. */
  predicate MatchAt(pathname: string, i: int) {
    OccursAt(pathname, ProjectsPrefix, i) && i + 10 < |pathname| && pathname[i + 10] != '/'
  }

  /** The leftmost match at or after `from`, as the regex engine tries positions. */
  function FindFrom(pathname: string, from: nat): (found: Option<nat>)
    ensures found.Some? ==>
              from <= found.value && MatchAt(pathname, found.value) &&
              forall j :: from <= j < found.value ==> !MatchAt(pathname, j)
    ensures found.None? ==> forall j :: from <= j ==> !MatchAt(pathname, j)
    decreases |pathname| - from
  {
    if from + 10 >= |pathname| then None
    else if MatchAt(pathname, from) then Some(from)
    else FindFrom(pathname, from + 1)
  }

  /** The greedy `[^/]+` group: the longest run of non-`/` characters from `j`. */
  function RunFrom(s: string, j: nat): (run: string)
    requires j <= |s|
    ensures j + |run| <= |s| && run == s[j..j + |run|]
    ensures '/' !in run
    ensures j + |run| == |s| || s[j + |run|] == '/'
    decreases |s| - j
  {
    if j == |s| || s[j] == '/' then ""
    else
      var rest := RunFrom(s, j + 1);
      assert s[j..j + 1 + |rest|] == [s[j]] + rest;
      [s[j]] + rest
  }

  /** `projectId`: the group of the leftmost match, or none. A match's group is
      never empty, so the id is truthy exactly when present. */
  function ProjectId(pathname: string): (id: Option<string>)
    ensures id.None? <==> forall j :: !MatchAt(pathname, j)
    ensures id.Some? ==>
              id.value != "" && '/' !in id.value &&
              exists i :: MatchAt(pathname, i) && id.value == RunFrom(pathname, i + 10)
  {
    match FindFrom(pathname, 0)
    case None => None
    case Some(i) => Some(RunFrom(pathname, i + 10))
  }

  /** The id is what follows the leftmost `/projects/` that has a segment after it. */
  lemma ProjectIdIsLeftmost(pathname: string, i: nat)
    requires MatchAt(pathname, i) && forall j :: 0 <= j < i ==> !MatchAt(pathname, j)
    ensures ProjectId(pathname) == Some(RunFrom(pathname, i + 10))
  {
  }

  /** `/projects` has no project id. */
  lemma ProjectsHasNoId()
    ensures ProjectId("/projects") == None
  {
  }

  /** `/projects/new` has the project id `new`. */
  lemma NewProjectPageId()
    ensures ProjectId("/projects/new") == Some("new")
  {
    var p := "/projects/new";
    assert p[0..10] == ProjectsPrefix;
    assert MatchAt(p, 0);
    assert RunFrom(p, 13) == "";
    assert RunFrom(p, 10) == "new";
  }

  /** A project page yields its project's id. */
  lemma ProjectPageId(id: string, rest: string)
    requires id != "" && '/' !in id
    ensures ProjectId(ProjectsPrefix + id + "/" + rest) == Some(id)
  {
    var p := ProjectsPrefix + id + "/" + rest;
    assert p[0..10] == ProjectsPrefix;
    assert p[10] == id[0];
    ProjectIdIsLeftmost(p, 0);
    var run := RunFrom(p, 10);
    assert forall k :: 0 <= k < |id| ==> p[10 + k] == id[k];
    assert p[10 + |id|] == '/';
    assert run == p[10..10 + |id|] == id;
  }

  /** One navigation link. */
  datatype NavItem = NavItem(name: string, path: string)

  /** The three links every page shows. */
  const BaseItems := [
    NavItem("Dashboard", "/dashboard"),
    NavItem("Projects", "/projects"),
    NavItem("New Project", "/projects/new")
  ]

  /** `navItems`: the three base links, then the project's two ticket links pushed
      when the pathname has a project id. */
  method NavItems(pathname: string) returns (items: seq<NavItem>)
    ensures |items| == (if ProjectId(pathname).Some? then 5 else 3) && items[..3] == BaseItems
    ensures ProjectId(pathname).None? ==> items == BaseItems
    ensures ProjectId(pathname).Some? ==>
              var id := ProjectId(pathname).value;
              items == BaseItems + [NavItem("Tickets", "/projects/" + id + "/tickets"),
                                    NavItem("New Ticket", "/projects/" + id + "/tickets/new")]
  {
    items := BaseItems;
    var projectId := ProjectId(pathname);
    if projectId.Some? {
      var id := projectId.value;
      items := items + [NavItem("Tickets", "/projects/" + id + "/tickets"),
                        NavItem("New Ticket", "/projects/" + id + "/tickets/new")];
    }
  }

  /** An item is highlighted exactly when the pathname is its path. */
  predicate IsActive(pathname: string, item: NavItem) {
    pathname == item.path
  }

  /** The five possible paths differ, so at most one item is highlighted. */
  lemma AtMostOneActive(pathname: string, id: string, i: nat, j: nat)
    requires var items := BaseItems + [NavItem("Tickets", "/projects/" + id + "/tickets"),
                                       NavItem("New Ticket", "/projects/" + id + "/tickets/new")];
             i < |items| && j < |items| && IsActive(pathname, items[i]) && IsActive(pathname, items[j])
    ensures i == j
  {
    var items := BaseItems + [NavItem("Tickets", "/projects/" + id + "/tickets"),
                              NavItem("New Ticket", "/projects/" + id + "/tickets/new")];
    assert |items[0].path| == 10 && |items[1].path| == 9 && |items[2].path| == 13;
    assert |items[3].path| == 18 + |id| && |items[4].path| == 22 + |id|;
    if |id| == 0 {
      assert items[3].path[10] == '/' && items[2].path[10] == 'n';
    }
  }

  /** The sidebar's own state: whether it is collapsed, and what its handlers did
      outside it. */
  class SidebarPanel {
    var collapsed: bool
    var effects: seq<Effect>

    /** Expanded at first. */
    constructor ()
      ensures !collapsed && effects == []
    {
      collapsed := false;
      effects := [];
    }

    /** Item labels, and the Logout label, are shown only when expanded. */
    function ShowsLabels(): (shown: bool)
      reads this
      ensures shown <==> !collapsed
    {
      !collapsed
    }

    /** The menu button flips `collapsed`. */
    method Toggle()
      modifies this
      ensures collapsed == !old(collapsed) && effects == old(effects)
    {
      collapsed := !collapsed;
    }

    /** `handleLogout`: sign out, then go to `/login` whatever the sign-out returned. */
    method HandleLogout()
      modifies this
      ensures collapsed == old(collapsed)
      ensures effects == old(effects) + [Send(SignOut), Navigate("/login")]
    {
      effects := effects + [Send(SignOut), Navigate("/login")];
    }
  }
}
