/** The signed-in user's assigned tickets (src/pages/MyTickets.js): the guarded
    fetch and the local status update. */
module MyTickets {
  import opened Common
  import opened Records

  /** `prev.map(t => t.id === ticketId ? { ...t, status: newStatus } : t)`: the
      tickets with that id get the new status, and nothing else changes. */
  function SetStatus(tickets: seq<Ticket>, ticketId: Id, newStatus: string): (r: seq<Ticket>)
    ensures |r| == |tickets|
    ensures forall i :: 0 <= i < |r| ==> r[i].(status := tickets[i].status) == tickets[i]
    ensures forall i :: 0 <= i < |r| ==>
              r[i].status == (if tickets[i].id == ticketId then newStatus else tickets[i].status)
    decreases |tickets|
  {
    if tickets == [] then []
    else
      var t := tickets[0];
      [if t.id == ticketId then t.(status := newStatus) else t] + SetStatus(tickets[1..], ticketId, newStatus)
  }

  /** Applying the same update twice gives the list one application gives. */
  lemma SetStatusIdempotent(tickets: seq<Ticket>, ticketId: Id, newStatus: string)
    ensures SetStatus(SetStatus(tickets, ticketId, newStatus), ticketId, newStatus)
            == SetStatus(tickets, ticketId, newStatus)
  {
    var once := SetStatus(tickets, ticketId, newStatus);
    var twice := SetStatus(once, ticketId, newStatus);
    assert forall i :: 0 <= i < |twice| ==> twice[i] == once[i];
  }

  /** An update for an id no ticket has changes nothing. */
  lemma SetStatusAbsent(tickets: seq<Ticket>, ticketId: Id, newStatus: string)
    requires forall i :: 0 <= i < |tickets| ==> tickets[i].id != ticketId
    ensures SetStatus(tickets, ticketId, newStatus) == tickets
  {
    var r := SetStatus(tickets, ticketId, newStatus);
    assert forall i :: 0 <= i < |r| ==> r[i] == tickets[i];
  }

  /** The page's state, and what its handlers did outside it. */
  class MyTicketsPage {
    var tickets: seq<Ticket>
    var loading: bool
    var userId: Option<Id>
    var effects: seq<Effect>

    /** No tickets, loading, no user yet. */
    constructor ()
      ensures tickets == [] && loading && userId == None && effects == []
    {
      tickets, loading, userId, effects := [], true, None, [];
    }

    /** `fetchData`, with the user `getUser` reports and the query's outcome as
        inputs. Without a user it only navigates to `/login`, leaving the page
        loading; a failed query leaves the tickets as they were. */
    method FetchData(user: Option<User>, res: Remote<seq<Ticket>>)
      modifies this
      ensures user.None? ==>
                tickets == old(tickets) && loading == old(loading) && userId == old(userId) &&
                effects == old(effects) + [Navigate("/login")]
      ensures user.Some? ==>
                userId == Some(user.value.id) && !loading &&
                tickets == (if res.Ok? then res.data else old(tickets)) &&
                effects == old(effects) + [Send(SelectAssignedTickets(user.value.id))]
    {
      if user.None? {
        effects := effects + [Navigate("/login")];
        return;
      }
      var u := user.value;
      userId := Some(u.id);
      effects := effects + [Send(SelectAssignedTickets(u.id))];
      if res.Ok? {
        tickets := res.data;
      }
      loading := false;
    }

    /** `updateStatus`: sends the update, and changes the local list only when it
        succeeded. */
    method UpdateStatus(ticketId: Id, newStatus: string, outcome: Remote<()>)
      modifies this
      ensures tickets == (if outcome.Ok? then SetStatus(old(tickets), ticketId, newStatus)
                          else old(tickets))
      ensures loading == old(loading) && userId == old(userId)
      ensures effects == old(effects) + [Send(UpdateTicketStatus(ticketId, newStatus))]
    {
      effects := effects + [Send(UpdateTicketStatus(ticketId, newStatus))];
      if outcome.Ok? {
        tickets := SetStatus(tickets, ticketId, newStatus);
      }
    }
  }
}
