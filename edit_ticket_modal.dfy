/** The edit dialog (src/components/EditTicketModal.js): its four-field form, the
    field update, and the save that merges the form into the ticket. */
module EditTicketModal {
  import opened Common
  import opened Records

  /** The `name` of an input of the form. */
  datatype Field = Title | Description | Priority | Status

  /** The form's value for a field. */
  function Get(form: TicketForm, field: Field): string {
    match field
    case Title => form.title
    case Description => form.description
    case Priority => form.priority
    case Status => form.status
  }

  /** The initial form: the ticket's four editable fields. */
  function InitForm(ticket: Ticket): (form: TicketForm)
    ensures form.title == ticket.title && form.description == ticket.description
    ensures form.priority == ticket.priority && form.status == ticket.status
  {
    TicketForm(ticket.title, ticket.description, ticket.priority, ticket.status)
  }

  /** `{ ...form, [name]: value }`: the named field takes the value, the others keep
      theirs. */
  function WithField(form: TicketForm, field: Field, value: string): (r: TicketForm)
    ensures Get(r, field) == value
    ensures forall other :: other != field ==> Get(r, other) == Get(form, other)
  {
    match field
    case Title => form.(title := value)
    case Description => form.(description := value)
    case Priority => form.(priority := value)
    case Status => form.(status := value)
  }

  /** `{ ...ticket, ...form }`: the form's fields override, every other field of the
      ticket is kept. */
  function Merge(ticket: Ticket, form: TicketForm): (merged: Ticket)
    ensures merged.title == form.title && merged.description == form.description
    ensures merged.priority == form.priority && merged.status == form.status
    ensures merged.id == ticket.id && merged.assignee == ticket.assignee
    ensures merged.projectId == ticket.projectId && merged.createdBy == ticket.createdBy
    ensures merged.createdAt == ticket.createdAt
  {
    ticket.(title := form.title, description := form.description,
            priority := form.priority, status := form.status)
  }

  /** Saving the untouched form gives back the ticket. */
  lemma MergeInitForm(ticket: Ticket)
    ensures Merge(ticket, InitForm(ticket)) == ticket
  {
  }

  /** The saved ticket reopens with the form that was saved. */
  lemma InitFormOfMerge(ticket: Ticket, form: TicketForm)
    ensures InitForm(Merge(ticket, form)) == form
  {
  }

  /** The dialog's state, what its handlers did outside it, and what it passed to
      its `onUpdate` and `onClose` callbacks. `pending` is the form a save in flight
      captured when Save was clicked; the inputs stay editable meanwhile. */
  class EditTicketDialog {
    const ticket: Ticket
    var form: TicketForm
    var pending: TicketForm
    var saving: bool
    var effects: seq<Effect>
    var updated: Option<Ticket>
    var closed: bool

    /** Opening on a ticket. */
    constructor (ticket: Ticket)
      ensures this.ticket == ticket && form == InitForm(ticket) && !saving
      ensures pending == form && effects == [] && updated == None && !closed
    {
      this.ticket := ticket;
      form := InitForm(ticket);
      pending := form;
      saving := false;
      effects := [];
      updated := None;
      closed := false;
    }

    /** The Save button is disabled while a save is in flight. */
    function SaveDisabled(): (disabled: bool)
      reads this
      ensures disabled <==> saving
    {
      saving
    }

    /** `handleChange` for the input named `field`. */
    method HandleChange(field: Field, value: string)
      modifies this
      ensures form == WithField(old(form), field, value) && pending == old(pending)
      ensures saving == old(saving) && effects == old(effects)
      ensures updated == old(updated) && closed == old(closed)
    {
      form := WithField(form, field, value);
    }

    /** The first half of `handleSave`, reachable only while Save is enabled: in
        flight, with the form as it is now captured and sent as the update of the
        ticket's row. */
    method BeginSave()
      requires !saving
      modifies this
      ensures saving && form == old(form) && pending == old(form)
      ensures effects == old(effects) + [Send(UpdateTicketForm(ticket.id, old(form)))]
      ensures updated == old(updated) && closed == old(closed)
    {
      saving := true;
      pending := form;
      effects := effects + [Send(UpdateTicketForm(ticket.id, pending))];
    }

    /** The second half of `handleSave`, once the update returned: no longer in
        flight; on success the ticket merged with the form that was sent goes to
        `onUpdate`, whatever was typed since, and the dialog closes; on failure an
        alert and neither callback. */
    method FinishSave(outcome: Remote<()>)
      requires saving
      modifies this
      ensures !saving && form == old(form) && pending == old(pending)
      ensures outcome.Err? ==>
                updated == old(updated) && closed == old(closed) &&
                effects == old(effects) + [Notify("Failed to update ticket")]
      ensures outcome.Ok? ==>
                updated == Some(Merge(ticket, pending)) && closed && effects == old(effects)
    {
      saving := false;
      if outcome.Err? {
        effects := effects + [Notify("Failed to update ticket")];
        return;
      }
      updated := Some(Merge(ticket, pending));
      closed := true;
    }
  }
}
