/** The application shell (src/App.js): the route table, which tags each path as
    protected, public-only or unguarded, and the shell's own session effect. */
module App {
  import opened Common
  import opened Records
  import opened AuthProvider
  import opened Guards

  /** A route's access classification. */
  datatype Zone = Protected | PublicOnly | Open

  /** The page components the routes render. */
  datatype Page =
    | HomePage | RegisterPage | LoginPage | DashboardPage | ProjectsPage | CreateProjectPage
    | TicketsPage | CreateTicketPage | EditTicketPage | KanbanBoardPage | TicketDetailsPage
    | MyTicketsPage | ForgotPasswordPage | ResetPasswordPage

  /** One `<Route>`: its path pattern, its guard, whether the page sits in `Layout`. */
  datatype RouteEntry = RouteEntry(path: string, zone: Zone, inLayout: bool, page: Page)

  /** The routes, in the order they are declared. */
  const Routes: seq<RouteEntry> := [
    RouteEntry("/", Open, false, HomePage),
    RouteEntry("/register", PublicOnly, false, RegisterPage),
    RouteEntry("/login", PublicOnly, false, LoginPage),
    RouteEntry("/dashboard", Protected, true, DashboardPage),
    RouteEntry("/projects", Protected, true, ProjectsPage),
    RouteEntry("/projects/new", Protected, true, CreateProjectPage),
    RouteEntry("/projects/:projectId/tickets", Protected, true, TicketsPage),
    RouteEntry("/projects/:projectId/tickets/new", Protected, true, CreateTicketPage),
    RouteEntry("/projects/:projectId/tickets/:ticketId/edit", Protected, true, EditTicketPage),
    RouteEntry("/projects/:projectId/kanban", Protected, true, KanbanBoardPage),
    RouteEntry("/projects/:projectId/tickets/:ticketId", Protected, true, TicketDetailsPage),
    RouteEntry("/my-tickets", Protected, true, MyTicketsPage),
    RouteEntry("/forgot-password", Open, false, ForgotPasswordPage),
    RouteEntry("/reset-password", Open, false, ResetPasswordPage)
  ]

  /** What a matched route shows. */
  datatype Screen = Loading | Show(page: Page, inLayout: bool) | Redirect(path: string)

  /** The element of a route under the provider's pair: an unguarded page is shown
      as it is; a guarded one goes through its guard. */
  function Element(r: RouteEntry, auth: AuthValue): (s: Screen)
    ensures r.zone == Open ==> s == Show(r.page, r.inLayout)
    ensures r.zone == Protected ==>
              (s == Loading <==> ProtectedRoute(auth) == Placeholder) &&
              (s == Show(r.page, r.inLayout) <==> ProtectedRoute(auth) == Children) &&
              (s.Redirect? <==> ProtectedRoute(auth).RedirectTo?) &&
              (ProtectedRoute(auth).RedirectTo? ==> s == Redirect(ProtectedRoute(auth).path))
    ensures r.zone == PublicOnly ==>
              (s == Loading <==> PublicRoute(auth) == Placeholder) &&
              (s == Show(r.page, r.inLayout) <==> PublicRoute(auth) == Children) &&
              (s.Redirect? <==> PublicRoute(auth).RedirectTo?) &&
              (PublicRoute(auth).RedirectTo? ==> s == Redirect(PublicRoute(auth).path))
  {
    var d := match r.zone
      case Open => Children
      case Protected => ProtectedRoute(auth)
      case PublicOnly => PublicRoute(auth);
    match d
    case Placeholder => Loading
    case Children => Show(r.page, r.inLayout)
    case RedirectTo(p) => Redirect(p)
  }

  /** Some route is declared with `path` and guarded as `zone`. */
  ghost predicate Declares(path: string, zone: Zone) {
    exists i :: 0 <= i < |Routes| && Routes[i].path == path && Routes[i].zone == zone
  }

  /** `/` is unguarded, `/register` and `/login` are public-only, `/dashboard` and
      `/my-tickets` are protected, and the two password-reset pages are unguarded. */
  lemma RouteZones()
    ensures Declares("/", Open)
    ensures Declares("/register", PublicOnly) && Declares("/login", PublicOnly)
    ensures Declares("/dashboard", Protected) && Declares("/my-tickets", Protected)
    ensures Declares("/forgot-password", Open) && Declares("/reset-password", Open)
  {
    assert Routes[0].path == "/";
    assert Routes[1].path == "/register" && Routes[2].path == "/login";
    assert Routes[3].path == "/dashboard" && Routes[11].path == "/my-tickets";
    assert Routes[12].path == "/forgot-password" && Routes[13].path == "/reset-password";
  }

  /** The paths of the signed-in area. */
  predicate InAppArea(path: string) {
    path == "/dashboard" || path == "/my-tickets" || "/projects" <= path
  }

  /** Every `/dashboard`, `/projects...` and `/my-tickets` route is protected and
      sits in `Layout`, and no other route is protected or uses `Layout`. */
  lemma ProtectedRoutesUseLayout()
    ensures forall i :: 0 <= i < |Routes| ==> (Routes[i].zone == Protected <==> InAppArea(Routes[i].path))
    ensures forall i :: 0 <= i < |Routes| ==> (Routes[i].inLayout <==> Routes[i].zone == Protected)
  {
    forall i | 0 <= i < |Routes|
      ensures Routes[i].zone == Protected <==> InAppArea(Routes[i].path)
    {
      var p := Routes[i].path;
      if Routes[i].zone != Protected {
        assert |p| == 1 || (p[1] != 'd' && p[1] != 'm' && p[1] != 'p');
      } else if 4 <= i <= 10 {
        assert |p| >= 9 && forall k :: 0 <= k < 9 ==> p[k] == "/projects"[k];
      }
    }
  }

  /** No path pattern is declared twice. */
  lemma RoutePathsDistinct()
    ensures forall i, j :: 0 <= i < j < |Routes| ==> Routes[i].path != Routes[j].path
  {
  }

  /** The shell's own `user` cell and listener: written by `getUser` and by its own
      auth-change listener. Routing never reads it; `Element` takes only the
      provider's pair. */
  class AppRoot {
    var user: Option<User>
    var listening: bool

    /** `useState(null)`, and the effect subscribes the listener. */
    constructor ()
      ensures user == None && listening
    {
      user, listening := None, true;
    }

    /** `getUser` resolved: the user it reports, or none. */
    method OnGetUser(reported: Option<User>)
      modifies this
      ensures user == reported && listening == old(listening)
    {
      user := reported;
    }

    /** The shell's listener: `session?.user || null`. Nothing arrives once released. */
    method OnAuthStateChange(session: Option<Session>)
      modifies this
      ensures user == (if old(listening) then SessionUser(session) else old(user))
      ensures listening == old(listening)
    {
      if listening {
        user := SessionUser(session);
      }
    }

    /** The effect's cleanup, `listener?.subscription?.unsubscribe()`. */
    method Unsubscribe()
      modifies this
      ensures !listening && user == old(user)
    {
      listening := false;
    }
  }
}
