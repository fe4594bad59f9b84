/** The rows the application reads from and writes to the backend's tables, the
    requests it issues, and the outward effects of its event handlers. */
module Records {
  import opened Common
  import opened Seqs

  /** Row and user identifiers (UUID strings issued by the backend). */
  type Id = string

  /** An authenticated identity, and a `user_profiles` row, which has the same shape. */
  datatype User = User(id: Id, email: string)

  /** A session as the auth client reports it; its `user` may be absent. */
  datatype Session = Session(user: Option<User>)

  /** A `tickets` row. */
  datatype Ticket = Ticket(
    id: Id, title: string, description: string, priority: string, status: string,
    assignee: Option<Id>, projectId: Id, createdBy: Id, createdAt: string)

  /** A `projects` row. */
  datatype Project = Project(id: Id, title: string, description: string,
                             createdBy: Option<Id>, createdAt: string)

  /** A `comments` row joined with its author's profile email. */
  datatype Comment = Comment(id: Id, content: string, userId: Id, createdAt: string,
                             authorEmail: Option<string>)

  /** The three workflow statuses, in board and chart order. */
  const Statuses: seq<string> := ["To Do", "In Progress", "Done"]

  /** The id of a ticket, and of a project. */
  function TicketIdOf(): Ticket -> Id {
    (t: Ticket) => t.id
  }

  function ProjectIdOf(): Project -> Id {
    (p: Project) => p.id
  }

  /** The row's id differs from `id`. */
  function IdIsNot<T>(idOf: T -> Id, id: Id): T -> bool {
    (row: T) => idOf(row) != id
  }

  /** `rows.filter(row => row.id !== id)`, the local removal after a delete: exactly
      the rows with that id are gone, the rest keep their order and multiplicity. */
  function RemoveById<T(==,!new)>(rows: seq<T>, idOf: T -> Id, id: Id): (r: seq<T>)
    ensures IsSubsequence(r, rows)
    ensures forall x :: x in r <==> x in rows && idOf(x) != id
    ensures forall x :: x in rows && idOf(x) != id ==> multiset(r)[x] == multiset(rows)[x]
  {
    Filter(rows, IdIsNot(idOf, id))
  }

  /** Removing an id no row has leaves the list as it was. */
  lemma RemoveAbsentId<T(!new)>(rows: seq<T>, idOf: T -> Id, id: Id)
    requires forall i :: 0 <= i < |rows| ==> idOf(rows[i]) != id
    ensures RemoveById(rows, idOf, id) == rows
  {
    FilterKeepsAll(rows, IdIsNot(idOf, id));
  }

  /** The ticket's status is `status`. */
  function HasStatus(status: string): Ticket -> bool {
    (t: Ticket) => t.status == status
  }

  /** The row inserted by the ticket creation form. */
  datatype NewTicket = NewTicket(title: string, description: string, priority: string,
                                 status: string, projectId: Id, createdBy: Id,
                                 assignee: Option<Id>)

  /** The row inserted by the project creation form. */
  datatype NewProject = NewProject(title: string, description: string, createdBy: Option<Id>)

  /** The row inserted when a comment is posted. */
  datatype NewComment = NewComment(ticketId: Id, userId: Id, content: string)

  /** The four ticket fields the edit modal holds. */
  datatype TicketForm = TicketForm(title: string, description: string, priority: string,
                                   status: string)

  /** The five ticket fields the edit page writes. */
  datatype TicketPatch = TicketPatch(title: string, description: string, priority: string,
                                     status: string, assignee: Option<Id>)

  /** `assignee || null`: the form's empty choice is stored as no assignee. */
  function AssigneeToDb(choice: string): (stored: Option<Id>)
    ensures choice == "" <==> stored.None?
    ensures choice != "" ==> stored == Some(choice)
  {
    if choice == "" then None else Some(choice)
  }

  /** `ticket.assignee || ''`: no assignee is shown as the empty choice. */
  function AssigneeToForm(stored: Option<Id>): (choice: string)
    ensures stored.None? ==> choice == ""
    ensures stored.Some? ==> choice == stored.value
  {
    match stored
    case None => ""
    case Some(id) => id
  }

  /** A form choice survives being stored and read back. */
  lemma AssigneeFormRoundTrip(choice: string)
    ensures AssigneeToForm(AssigneeToDb(choice)) == choice
  {
  }

  /** A stored assignee survives being shown and stored again, unless it is the
      empty id, which comes back as no assignee. */
  lemma AssigneeDbRoundTrip(stored: Option<Id>)
    ensures stored != Some("") ==> AssigneeToDb(AssigneeToForm(stored)) == stored
    ensures stored == Some("") ==> AssigneeToDb(AssigneeToForm(stored)) == None
  {
  }

  /** One call into the backend. */
  datatype Request =
    | SignUp(email: string, password: string)
    | SignOut
    | InsertProfile(profile: User)
    | SelectProfiles
    | SelectProjects
    | SelectAllTickets
    | SelectProjectTickets(projectId: Id)
    | SelectAssignedTickets(userId: Id)
    | SelectTicket(ticketId: Id)
    | SelectComments(ticketId: Id)
    | InsertTicket(ticket: NewTicket)
    | InsertProject(project: NewProject)
    | InsertComment(comment: NewComment)
    | UpdateTicketStatus(ticketId: Id, status: string)
    | UpdateTicketForm(ticketId: Id, form: TicketForm)
    | UpdateTicket(ticketId: Id, patch: TicketPatch)
    | UpdateComment(commentId: Id, content: string)
    | DeleteTicket(ticketId: Id)
    | DeleteProject(projectId: Id)
    | DeleteComment(commentId: Id)

  /** What a handler does outside its own state: a backend call, a message shown
      to the user (an alert or a toast), or a navigation. */
  datatype Effect = Send(request: Request) | Notify(message: string) | Navigate(path: string)
}
