/** The ticket edit page (src/pages/EditTicket.js): loading a ticket into the form,
    and the update it saves. */
module EditTicket {
  import opened Common
  import opened Records

  /** The update a form saves: its five fields, the empty assignee choice as none. */
  function PatchOf(title: string, description: string, priority: string, status: string,
                   assignee: string): (patch: TicketPatch)
    ensures patch.title == title && patch.description == description
    ensures patch.priority == priority && patch.status == status
    ensures patch.assignee == AssigneeToDb(assignee)
  {
    TicketPatch(title, description, priority, status, AssigneeToDb(assignee))
  }

  /** Loading a ticket and saving the form untouched writes back the ticket's own
      five fields, a missing assignee included. */
  lemma LoadThenSave(t: Ticket)
    requires t.assignee != Some("")
    ensures PatchOf(t.title, t.description, t.priority, t.status, AssigneeToForm(t.assignee))
            == TicketPatch(t.title, t.description, t.priority, t.status, t.assignee)
  {
    AssigneeDbRoundTrip(t.assignee);
  }

  /** The form's state, and what its handlers did outside it. */
  class EditTicketForm {
    const projectId: Id
    const ticketId: Id
    var title: string
    var description: string
    var priority: string
    var status: string
    var assignee: string
    var users: seq<User>
    var error: string
    var effects: seq<Effect>

    /** Before loading: empty fields, "Low", "To Do", no assignee. */
    constructor (projectId: Id, ticketId: Id)
      ensures this.projectId == projectId && this.ticketId == ticketId
      ensures title == "" && description == "" && priority == "Low" && status == "To Do"
      ensures assignee == "" && users == [] && error == "" && effects == []
    {
      this.projectId, this.ticketId := projectId, ticketId;
      title, description, priority, status, assignee := "", "", "Low", "To Do", "";
      users, error, effects := [], "", [];
    }

    /** `fetchTicketAndUsers`: a failed ticket query sets the error and stops before
        the users are fetched; otherwise the ticket's fields fill the form and the
        users that loaded, or none, fill the list. */
    method Load(ticketRes: Remote<Ticket>, usersRes: Remote<seq<User>>)
      modifies this
      ensures ticketRes.Err? ==>
                error == ticketRes.message &&
                title == old(title) && description == old(description) &&
                priority == old(priority) && status == old(status) &&
                assignee == old(assignee) && users == old(users) &&
                effects == old(effects) + [Send(SelectTicket(ticketId))]
      ensures ticketRes.Ok? ==>
                var t := ticketRes.data;
                title == t.title && description == t.description &&
                priority == t.priority && status == t.status &&
                assignee == AssigneeToForm(t.assignee) && users == OrEmpty(usersRes) &&
                error == old(error) &&
                effects == old(effects) + [Send(SelectTicket(ticketId)), Send(SelectProfiles)]
    {
      effects := effects + [Send(SelectTicket(ticketId))];
      if ticketRes.Err? {
        error := ticketRes.message;
        return;
      }
      var t := ticketRes.data;
      title, description, priority, status := t.title, t.description, t.priority, t.status;
      assignee := AssigneeToForm(t.assignee);
      effects := effects + [Send(SelectProfiles)];
      users := OrEmpty(usersRes);
    }

    /** `handleSubmit`, with the update's outcome as input: the error is cleared,
        the payload sent, and success goes back to the project's ticket list. */
    method HandleSubmit(outcome: Remote<()>)
      modifies this
      ensures error == ""
      ensures title == old(title) && description == old(description) && priority == old(priority)
      ensures status == old(status) && assignee == old(assignee) && users == old(users)
      ensures effects == old(effects) +
                [Send(UpdateTicket(ticketId, PatchOf(title, description, priority, status, assignee)))] +
                (if outcome.Err? then [Notify(outcome.message)]
                 else [Notify(" Ticket updated!"), Navigate("/projects/" + projectId + "/tickets")])
    {
      error := "";
      effects := effects + [Send(UpdateTicket(ticketId, PatchOf(title, description, priority, status, assignee)))];
      if outcome.Err? {
        effects := effects + [Notify(outcome.message)];
      } else {
        effects := effects + [Notify(" Ticket updated!"), Navigate("/projects/" + projectId + "/tickets")];
      }
    }
  }
}
