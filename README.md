# Bug tracker front end — a Dafny model

This project models the client-side logic of a React bug tracker. The tracker keeps
its projects, tickets, comments and user profiles in a hosted backend that also
handles authentication. The model covers three parts:

- **The session store and route guarding.** One state cell `(user, loading)` is
  written by two callbacks: the resolution of the one-shot session fetch and the
  auth-change listener. The two guards turn that pair into a placeholder, their
  children or a redirect. The route table tags each path as protected,
  public-only or unguarded.
- **The pure rules.** These are the password policy, the ticket search and filter,
  the users map, removal and replacement by id, the Kanban columns, the dashboard
  counts, the breadcrumb segments, paths and labels, and the sidebar's project-id
  extraction and navigation items.
- **The form handlers.** Each page with handlers is a class holding the
  component's state fields plus `effects`, the sequence of what its handlers did
  outside it. An effect is a backend request, a message shown to the user (an
  alert or a toast), or a navigation. Each handler takes the outcome of every
  backend call as an input (`Ok(data)` or `Err(message)`). Its contract states
  which fields change, which checks fire in which order, and which effects it
  emits.

Modules follow the source files (`AuthProvider`, `Guards`, `App`, `Register`,
`Tickets`, `KanbanBoard`, `Dashboard`, `Breadcrumb`, `Sidebar`, `MyTickets`,
`TicketDetails`, `EditTicketModal`, `CreateTicket`, `EditTicket`, `CreateProject`,
`Projects`). They share four modules:

- `Common`: `Option`, `Remote`, and `OrEmpty` for `data || []`.
- `Seqs`: `Array.prototype.filter` and the subsequence relation.
- `Text`: JavaScript `trim` with its full white-space set, `split`, `join`,
  `includes`, and ASCII case mapping.
- `Records`: the table rows, the requests, the effects, the `''` ↔ `null`
  assignee mapping, and removal by id.

The session store is a class whose ghost `history` records the events applied
so far. Its invariant is that the fields equal the left fold `Run` of those
events from the initial state, so the lemmas about `Run` describe every reachable
state.

Some rules are predicates with no contract of their own. Their lemmas or the
methods that use them state their properties:

- `TicketDetails.EditSkipped`,
- `Sidebar.IsActive`,
- `Tickets.Matches`.

Both callbacks of the session store write `user` in the order they are
delivered, with no precedence between them: a `getSession` result delivered after
a change event overwrites what that event stored.
`AuthProvider.LateSessionOverridesChange` and `AuthProvider.LastWriteWins` state
this.

## Model

| member | source | states |
|---|---|---|
| Common.OrEmpty | src/pages/Dashboard.js:23-24 | a query with no data gives the empty list, otherwise its rows |
| AuthProvider.SessionUser | src/context/AuthProvider.js:13 | no session gives no user, otherwise the session's user |
| AuthProvider.LoadingStaysFalse | src/context/AuthProvider.js:8-14 | once `loading` is false, no sequence of events makes it true again |
| AuthProvider.LoadingUntilResolved | src/context/AuthProvider.js:12-20 | the store is loading exactly until a session fetch has resolved |
| AuthProvider.QuietKeepsUser | src/context/AuthProvider.js:18-22 | events that write nothing leave `user` unchanged: no fetch resolution, and change events only after the unsubscribe |
| AuthProvider.LastWriteWins | src/context/AuthProvider.js:12-20 | after an effective write with no later effective write, `user` is what that write stored, whichever writer it was |
| AuthProvider.LateSessionOverridesChange | src/context/AuthProvider.js:12-20 | a session fetch delivered after a sign-out event overwrites it with the fetched user |
| AuthProvider.ReleasedListenerIgnoresChanges | src/context/AuthProvider.js:18-22 | after unsubscribing, change events leave the state unchanged |
| AuthProvider.AuthProviderCell.constructor | src/context/AuthProvider.js:7-8 | initial state: no user, loading, listener subscribed, invariant established |
| AuthProvider.AuthProviderCell.OnSessionResolved | src/context/AuthProvider.js:12-15 | sets `user` to the session's user or none and `loading` to false, keeping the invariant |
| AuthProvider.AuthProviderCell.OnAuthStateChange | src/context/AuthProvider.js:18-20 | sets only `user`, to the session's user or none, while subscribed; `loading` untouched |
| AuthProvider.AuthProviderCell.Unsubscribe | src/context/AuthProvider.js:22 | releases the listener and changes nothing else |
| AuthProvider.AuthProviderCell.Provided | src/context/AuthProvider.js:26 | consumers see exactly the pair `(user, loading)` |
| Guards.ProtectedRoute | src/components/ProtectedRoute.js:7-11 | placeholder while loading; children with a user; redirect to `/login` without one |
| Guards.PublicRoute | src/components/PublicRoute.js:7-11 | placeholder while loading; redirect to `/dashboard` with a user; children without one |
| Guards.NoRedirectWhileLoading | src/components/ProtectedRoute.js:9 | while loading neither guard redirects, whatever the user |
| Guards.ExactlyOneAdmits | src/components/PublicRoute.js:11 | once loaded, exactly one of the guards renders its children and the other redirects |
| Guards.DecisionsIgnoreIdentity | src/components/ProtectedRoute.js:7-11 | the decisions depend only on `loading` and whether a user is present |
| Guards.SignOutRedirectsProtected | src/components/ProtectedRoute.js:11 | a sign-out event turns a protected page into the `/login` redirect |
| App.Element | src/App.js:50-75 | an unguarded route shows its page; a guarded one shows a placeholder, its page, or a redirect to the guard's target, exactly as its guard decides |
| App.RouteZones | src/App.js:51-75 | `/`, `/forgot-password` and `/reset-password` are unguarded, `/register` and `/login` public-only, `/dashboard` and `/my-tickets` protected |
| App.ProtectedRoutesUseLayout | src/App.js:56-72 | a route is protected exactly when its path is `/dashboard`, `/my-tickets` or under `/projects`, and exactly those use `Layout` |
| App.RoutePathsDistinct | src/App.js:51-75 | no path is declared twice |
| App.AppRoot.constructor | src/App.js:29-38 | the shell's own cell starts with no user and subscribes its listener |
| App.AppRoot.OnGetUser | src/App.js:32-35 | `getUser` stores the reported user |
| App.AppRoot.OnAuthStateChange | src/App.js:38-40 | the shell's listener stores the session's user or none while subscribed |
| App.AppRoot.Unsubscribe | src/App.js:42 | teardown releases the shell's listener |
| Register.AnyChar | src/pages/Register.js:15-18 | a character-class test holds exactly when some character is in the class |
| Register.ValidatePassword | src/pages/Register.js:12-20 | length holds iff at least 8 characters; each class criterion iff some character is in a–z, A–Z, 0–9, or outside all three |
| Register.PasswordPolicy | src/pages/Register.js:22-27 | a password is valid exactly when all five criteria hold |
| Register.SpaceIsSymbol | src/pages/Register.js:18 | a space satisfies the symbol criterion |
| Register.FormError | src/pages/Register.js:34-48 | an empty field, then a mismatch, then a weak password, each with its message; none exactly when the form may be sent |
| Register.RegisterForm.constructor | src/pages/Register.js:6-9 | empty fields, no error, not loading, every criterion unmet |
| Register.RegisterForm.SetPassword | src/pages/Register.js:91-95 | typing a password stores it and recomputes the criteria |
| Register.RegisterForm.HandleRegister | src/pages/Register.js:29-71 | failed checks return before sign-up; a failed sign-up or profile insert shows its error with `loading` false and no navigation; success inserts the new user's id and email and navigates to `/login` |
| Records.RemoveById | src/pages/Tickets.js:48 | exactly the rows with that id are removed; the rest keep order and multiplicity |
| Records.RemoveAbsentId | src/pages/Projects.js:28 | removing an id no row has changes nothing |
| Records.AssigneeToDb | src/pages/CreateTicket.js:48 | the empty choice is stored as no assignee, any other as itself |
| Records.AssigneeToForm | src/pages/EditTicket.js:36 | no assignee is shown as the empty choice |
| Records.AssigneeFormRoundTrip | src/pages/EditTicket.js:36-59 | a form choice survives storing and reading back |
| Records.AssigneeDbRoundTrip | src/pages/EditTicket.js:36-59 | a stored assignee, a missing one included, survives showing and storing again |
| Tickets.FilteredTickets | src/pages/Tickets.js:52-57 | the order-preserving subsequence of exactly the matching tickets, with their multiplicities |
| Tickets.EmptySearchMatches | src/pages/Tickets.js:53 | the empty search matches every ticket |
| Tickets.EmptyFilterKeepsAll | src/pages/Tickets.js:53-55 | with the three controls empty, every ticket is shown |
| Tickets.FilterControlsAreExact | src/pages/Tickets.js:54-55 | a non-empty priority or status control keeps only equal tickets |
| Tickets.SearchIgnoresCase | src/pages/Tickets.js:53 | a title containing the search text after lower-casing both is found |
| Tickets.BuildUsersMap | src/pages/Tickets.js:26-30 | the keys are exactly the profile ids, and each maps to the email of the last profile with that id |
| Tickets.AssigneeKey | src/pages/Tickets.js:162 | a missing assignee looks up the key `"null"` |
| Tickets.AssigneeLabel | src/pages/Tickets.js:162 | the mapped email, or "Unassigned" when unmapped or empty |
| Tickets.UnknownAssigneeUnassigned | src/pages/Tickets.js:162 | an assignee without a profile shows as "Unassigned" |
| Tickets.ReplaceById | src/pages/Tickets.js:192-194 | same length; every ticket with the updated id is replaced, every other kept in place |
| Tickets.ReplaceIdempotent | src/pages/Tickets.js:192-194 | replacing twice is replacing once |
| Tickets.ReplaceKeepsOthers | src/pages/Tickets.js:192-194 | apart from tickets with the updated id, the list is unchanged |
| Tickets.ReplacedPresentIff | src/pages/Tickets.js:192-194 | the updated ticket is present afterwards iff some ticket had its id |
| Tickets.TicketsPage.constructor | src/pages/Tickets.js:8-15 | no tickets, loading, empty map and controls, no ticket being edited |
| Tickets.TicketsPage.Visible | src/pages/Tickets.js:52-57 | the shown list is the matching subsequence of the tickets |
| Tickets.TicketsPage.FetchTicketsAndUsers | src/pages/Tickets.js:19-35 | failed queries count as empty; the map is built last-wins; loading ends |
| Tickets.TicketsPage.HandleDelete | src/pages/Tickets.js:40-50 | a cancelled confirmation sends nothing; a failed delete alerts and keeps the list; a successful one removes exactly that id |
| Tickets.TicketsPage.OnUpdate | src/pages/Tickets.js:191-196 | replaces by id and keeps `editingTicket` null |
| KanbanBoard.ColumnIsFilter | src/pages/KanbanBoard.js:68-70 | each column is the filter of the tickets by its status |
| KanbanBoard.GroupTickets | src/pages/KanbanBoard.js:62-70 | always three columns, in status order, each the tickets of its status in list order |
| KanbanBoard.ColumnMembers | src/pages/KanbanBoard.js:68-70 | a column holds exactly the tickets with its status |
| KanbanBoard.TicketInItsColumnOnly | src/pages/KanbanBoard.js:68-70 | a ticket with a known status is in its column and no other |
| KanbanBoard.UnknownStatusOnNoColumn | src/pages/KanbanBoard.js:69 | a ticket with another status is on no column |
| KanbanBoard.ColumnSizesSum | src/pages/KanbanBoard.js:62-70 | the column sizes sum to at most the total, and to the total iff every status is known |
| KanbanBoard.KanbanBoardPage.constructor | src/pages/KanbanBoard.js:22-23 | no tickets before the first fetch |
| KanbanBoard.KanbanBoardPage.FetchTickets | src/pages/KanbanBoard.js:29-40 | success replaces the tickets; failure keeps them and shows a toast |
| KanbanBoard.KanbanBoardPage.HandleDragEnd | src/pages/KanbanBoard.js:42-60 | no destination does nothing; otherwise the dragged ticket's status is set to the destination column, and only a successful update refetches |
| Dashboard.FetchData | src/pages/Dashboard.js:17-26 | each list is its query's rows, or empty when it returned no data |
| Dashboard.TicketStatusData | src/pages/Dashboard.js:32-35 | exactly three entries named in status order |
| Dashboard.ChartMatchesBoard | src/pages/Dashboard.js:32-35 | each entry's value is the number of tickets with its status, the size of the board's column |
| Dashboard.StatusCountsSum | src/pages/Dashboard.js:32-35 | the three values sum to at most the total, and to the total iff every status is known |
| Dashboard.OpenCount | src/pages/Dashboard.js:60 | the open count is at most the total |
| Dashboard.OpenIsTotalLessDone | src/pages/Dashboard.js:60 | the open count is the total less the "Done" count |
| Dashboard.LastProject | src/pages/Dashboard.js:37 | the first project, and none exactly when the list is empty |
| Dashboard.RecentActivity | src/pages/Dashboard.js:93-100 | the last project's title, or "No recent projects yet." |
| Breadcrumb.Segments | src/components/Breadcrumb.js:7 | exactly the non-empty pieces of the split on `/`, in order and each as often as it occurs; none contains `/` |
| Breadcrumb.SingleSegment | src/components/Breadcrumb.js:7 | a pathname without `/` is one segment, or none when empty |
| Breadcrumb.Paths | src/components/Breadcrumb.js:9 | one path per segment, each starting with `/` |
| Breadcrumb.PathsExtend | src/components/Breadcrumb.js:9 | each path is the previous one plus `/` and the next segment |
| Breadcrumb.PathsPrefix | src/components/Breadcrumb.js:9 | every earlier path is a prefix of every later one |
| Breadcrumb.PathSplitsBack | src/components/Breadcrumb.js:7-9 | splitting a path after its leading `/` gives back its segments |
| Breadcrumb.Label | src/components/Breadcrumb.js:23-32 | an id-shaped segment shows the title when truthy and `...` otherwise; any other segment is capitalised, the rest unchanged |
| Breadcrumb.CapitalisedUnchanged | src/components/Breadcrumb.js:31 | a segment not starting with a lower-case letter keeps its text |
| Breadcrumb.Trail | src/components/Breadcrumb.js:14-48 | Home first; one crumb per segment with its label; only the last is plain text, every earlier one links to its path |
| Sidebar.FindFrom | src/components/Sidebar.js:20 | the leftmost position where the pattern matches, or none |
| Sidebar.RunFrom | src/components/Sidebar.js:20 | the maximal run of non-`/` characters |
| Sidebar.ProjectId | src/components/Sidebar.js:20-21 | none iff the pattern matches nowhere; otherwise a non-empty run without `/` after a match |
| Sidebar.ProjectIdIsLeftmost | src/components/Sidebar.js:20-21 | the id is the run after the leftmost match |
| Sidebar.ProjectsHasNoId | src/components/Sidebar.js:20-21 | `/projects` has no id |
| Sidebar.NewProjectPageId | src/components/Sidebar.js:20-21 | `/projects/new` has the id `new` |
| Sidebar.ProjectPageId | src/components/Sidebar.js:20-21 | a project page gives its project's id |
| Sidebar.NavItems | src/components/Sidebar.js:23-35 | Dashboard, Projects and New Project first, then the two ticket links iff there is a project id |
| Sidebar.AtMostOneActive | src/components/Sidebar.js:72 | highlighting is exact path equality, so at most one item is highlighted |
| Sidebar.SidebarPanel.constructor | src/components/Sidebar.js:15 | starts expanded |
| Sidebar.SidebarPanel.ShowsLabels | src/components/Sidebar.js:78 | labels are shown iff not collapsed |
| Sidebar.SidebarPanel.Toggle | src/components/Sidebar.js:57 | the toggle flips `collapsed` |
| Sidebar.SidebarPanel.HandleLogout | src/components/Sidebar.js:37-40 | signs out, then navigates to `/login` |
| MyTickets.SetStatus | src/pages/MyTickets.js:39-43 | same length; only `status` changes, and only on tickets with the id |
| MyTickets.SetStatusIdempotent | src/pages/MyTickets.js:41 | applying the update twice equals applying it once |
| MyTickets.SetStatusAbsent | src/pages/MyTickets.js:39-43 | an update for an absent id changes nothing |
| MyTickets.MyTicketsPage.constructor | src/pages/MyTickets.js:7-9 | no tickets, loading, no user |
| MyTickets.MyTicketsPage.FetchData | src/pages/MyTickets.js:13-27 | without a user only navigates to `/login` and stays loading; a failed query keeps the tickets and loading ends |
| MyTickets.MyTicketsPage.UpdateStatus | src/pages/MyTickets.js:32-45 | success applies the status update locally; failure leaves the list |
| TicketDetails.BlankEditSavesEmpty | src/pages/TicketDetails.js:66-70 | a blank but non-empty answer is not skipped and saves `''` |
| TicketDetails.AuthorLabel | src/pages/TicketDetails.js:116 | the author's email, or "Unknown User" |
| TicketDetails.TicketDetailsPage.constructor | src/pages/TicketDetails.js:6-11 | nothing loaded, loading |
| TicketDetails.TicketDetailsPage.ShowsControls | src/pages/TicketDetails.js:123 | a comment's edit and delete controls are shown iff the signed-in user wrote it, and never when no one is signed in |
| TicketDetails.TicketDetailsPage.SubmitDisabled | src/pages/TicketDetails.js:156 | the submit button is disabled iff the new comment is all white space |
| TicketDetails.TicketDetailsPage.FetchDetails | src/pages/TicketDetails.js:14-33 | stores the user and ticket; comments that did not load count as none; loading ends |
| TicketDetails.TicketDetailsPage.FetchComments | src/pages/TicketDetails.js:77-85 | the comments are replaced, by none when the query failed |
| TicketDetails.TicketDetailsPage.HandleAddComment | src/pages/TicketDetails.js:38-56 | a blank comment does nothing; no user alerts; the row has the trimmed text, ticket id and user id; success clears the input and refetches, failure keeps it |
| TicketDetails.TicketDetailsPage.PostComment | src/pages/TicketDetails.js:44-55 | the insert is sent; success clears the input and refetches; failure alerts and keeps the input and list |
| TicketDetails.TicketDetailsPage.HandleDeleteComment | src/pages/TicketDetails.js:58-62 | failure alerts and keeps the list; success refetches |
| TicketDetails.TicketDetailsPage.HandleEditComment | src/pages/TicketDetails.js:64-75 | a cancelled, empty or unchanged answer does nothing; otherwise the trimmed answer is saved |
| EditTicketModal.InitForm | src/components/EditTicketModal.js:6-11 | the form starts as the ticket's four fields |
| EditTicketModal.WithField | src/components/EditTicketModal.js:14-16 | only the named field changes |
| EditTicketModal.Merge | src/components/EditTicketModal.js:26 | the form's fields override; id, assignee, project, creator and date are kept |
| EditTicketModal.MergeInitForm | src/components/EditTicketModal.js:6-26 | saving the untouched form gives back the ticket |
| EditTicketModal.InitFormOfMerge | src/components/EditTicketModal.js:6-26 | the saved ticket reopens with the saved form |
| EditTicketModal.EditTicketDialog.constructor | src/components/EditTicketModal.js:5-12 | opens with the ticket's form, not saving |
| EditTicketModal.EditTicketDialog.SaveDisabled | src/components/EditTicketModal.js:73 | Save is disabled iff saving |
| EditTicketModal.EditTicketDialog.HandleChange | src/components/EditTicketModal.js:14-16 | updates the named field only |
| EditTicketModal.EditTicketDialog.BeginSave | src/components/EditTicketModal.js:18-23 | only while Save is enabled; saving, with the form as it is now captured and sent as the update |
| EditTicketModal.EditTicketDialog.FinishSave | src/components/EditTicketModal.js:24-27 | no longer saving; success passes the ticket merged with the form that was sent, not any later edit, to `onUpdate` and closes; failure alerts and calls neither |
| CreateTicket.TicketRow | src/pages/CreateTicket.js:40-50 | status "To Do", the route's project, the user as creator, the empty assignee as none |
| CreateTicket.CreateTicketForm.constructor | src/pages/CreateTicket.js:11-16 | priority "Low", no assignee, empty fields |
| CreateTicket.CreateTicketForm.FetchUsers | src/pages/CreateTicket.js:19-22 | the user list is replaced only on success |
| CreateTicket.CreateTicketForm.HandleSubmit | src/pages/CreateTicket.js:27-58 | the error is cleared first; an empty field sets it with no insert; success navigates to the ticket list, failure stays |
| EditTicket.PatchOf | src/pages/EditTicket.js:54-60 | exactly the five fields, the empty assignee as none |
| EditTicket.LoadThenSave | src/pages/EditTicket.js:32-60 | loading and saving untouched writes back the ticket's own fields, a missing assignee included |
| EditTicket.EditTicketForm.constructor | src/pages/EditTicket.js:11-17 | empty fields, "Low", "To Do", no assignee |
| EditTicket.EditTicketForm.Load | src/pages/EditTicket.js:20-43 | a load error sets the error and fetches no users; otherwise the ticket fills the form |
| EditTicket.EditTicketForm.HandleSubmit | src/pages/EditTicket.js:48-69 | the error is cleared; the payload is sent; success navigates to the ticket list, failure stays |
| CreateProject.FilledIff | src/pages/CreateProject.js:15 | a field passes iff it has a character that is not white space |
| CreateProject.ProjectRow | src/pages/CreateProject.js:20 | the untrimmed title and description, and the user's id or none |
| CreateProject.CreateProjectForm.constructor | src/pages/CreateProject.js:8-11 | empty fields |
| CreateProject.CreateProjectForm.HandleCreate | src/pages/CreateProject.js:13-28 | a blank field alerts with no insert; success navigates to `/projects`; failure alerts and stays |
| Projects.ProjectsPage.constructor | src/pages/Projects.js:7 | no projects before the first fetch |
| Projects.ProjectsPage.FetchProjects | src/pages/Projects.js:14-20 | success replaces the list; failure leaves it |
| Projects.ProjectsPage.HandleDelete | src/pages/Projects.js:22-33 | a cancelled confirmation sends nothing; success removes exactly that id; failure keeps the list |

## Left out

- All backend calls: authentication, selects, inserts, updates and deletes. Each is an `Ok(data)`/`Err(message)` input. Server-side `eq`/`order` filtering and the row order it produces are not modelled.
- `getUser` and `getSession` are auth-client reads, not backend requests. They are inputs and are not recorded among the effects.
- Rendering: JSX, styling classes, animations, charts, icons, toast styling.
- The drag-and-drop library and its portal wrapper. Only the `{destination, draggableId}` drop result is kept.
- Browser dialogs (`confirm`, `prompt`, `alert`). Their answers are inputs; an alert is a `Notify` effect.
- Date formatting (`toLocaleDateString`, `toLocaleString`).
- Unicode case mapping. Lower- and upper-casing are ASCII-only. Lengths count code points, not UTF-16 units.
- Promise, `async` and effect scheduling. Each handler is a sequence of steps. The one interleaving modelled is the delivery order of the session store's two writers.
- react-router's route ranking and path matching. `navigate` and `Navigate` become a target path.
- Plain input setters: search, filter and form fields other than the ones listed above.
- KanbanBoard.GroupTickets: a status that names an `Object.prototype` member, such as `toString`, makes the source's `push` throw. The model puts such a ticket on no column.
- Tickets.AssigneeLabel: an assignee id that names an `Object.prototype` member would read an inherited property in the source. The model treats it as unmapped.
- CreateTicket.CreateTicketForm.HandleSubmit: without a user, the source's `user.id` throws and the handler stops. The model stops at the same point with no insert and no message.
- Tickets.TicketsPage.OnUpdate: is modelled, but `editingTicket` is never set to a ticket, so the modal that would call it never opens.
- Login, ForgotPassword, ResetPassword, Home, Topbar and Layout are thin wrappers over auth calls or pure interface toggles, and are not part of this model.
