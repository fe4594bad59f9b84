/** The ticket creation form (src/pages/CreateTicket.js): the required fields and
    the inserted row. */
module CreateTicket {
  import opened Common
  import opened Records

  const FillAllFields := "Please fill in all fields."
  const Created := "\U{2705} Ticket created successfully!"

  /** The row the form inserts: always "To Do", in the route's project, created by
      the signed-in user, with the empty assignee choice stored as none. */
  function TicketRow(title: string, description: string, priority: string, assignee: string,
                     projectId: Id, userId: Id): (row: NewTicket)
    ensures row.title == title && row.description == description && row.priority == priority
    ensures row.status == "To Do" && row.projectId == projectId && row.createdBy == userId
    ensures assignee == "" ==> row.assignee.None?
    ensures assignee != "" ==> row.assignee == Some(assignee)
  {
    NewTicket(title, description, priority, "To Do", projectId, userId, AssigneeToDb(assignee))
  }

  /** The form's state, and what its handlers did outside it. */
  class CreateTicketForm {
    const projectId: Id
    var title: string
    var description: string
    var priority: string
    var assignee: string
    var users: seq<User>
    var error: string
    var effects: seq<Effect>

    /** Empty fields, priority "Low", no assignee chosen. */
    constructor (projectId: Id)
      ensures this.projectId == projectId && title == "" && description == ""
      ensures priority == "Low" && assignee == "" && users == [] && error == "" && effects == []
    {
      this.projectId := projectId;
      title, description, priority, assignee := "", "", "Low", "";
      users, error, effects := [], "", [];
    }

    /** `fetchUsers`: the list is replaced only when the query succeeded. */
    method FetchUsers(res: Remote<seq<User>>)
      modifies this
      ensures users == (if res.Ok? then res.data else old(users))
      ensures title == old(title) && description == old(description)
      ensures priority == old(priority) && assignee == old(assignee) && error == old(error)
      ensures effects == old(effects) + [Send(SelectProfiles)]
    {
      effects := effects + [Send(SelectProfiles)];
      if res.Ok? {
        users := res.data;
      }
    }

    /** `handleSubmit`, with the user `getUser` reports and the insert's outcome as
        inputs. The error is cleared first; an empty title or description (white
        space counts as filled) stops before any call. Without a user, reading
        `user.id` throws and nothing is inserted. */
    method HandleSubmit(user: Option<User>, insert: Remote<()>)
      modifies this
      ensures title == old(title) && description == old(description)
      ensures priority == old(priority) && assignee == old(assignee) && users == old(users)
      ensures title == "" || description == "" ==>
                error == FillAllFields && effects == old(effects)
      ensures title != "" && description != "" ==> error == ""
      ensures title != "" && description != "" && user.None? ==> effects == old(effects)
      ensures title != "" && description != "" && user.Some? ==>
                var row := TicketRow(title, description, priority, assignee, projectId, user.value.id);
                effects == old(effects) + [Send(InsertTicket(row))] +
                  (if insert.Err? then [Notify(insert.message)]
                   else [Notify(Created), Navigate("/projects/" + projectId + "/tickets")])
    {
      error := "";
      if title == "" || description == "" {
        error := FillAllFields;
        return;
      }
      if user.None? {
        return;
      }
      var row := TicketRow(title, description, priority, assignee, projectId, user.value.id);
      effects := effects + [Send(InsertTicket(row))];
      if insert.Err? {
        effects := effects + [Notify(insert.message)];
      } else {
        effects := effects + [Notify(Created), Navigate("/projects/" + projectId + "/tickets")];
      }
    }
  }
}
