/** The Kanban board (src/pages/KanbanBoard.js): the three status columns and the
    drop handler that moves a ticket to another status. */
module KanbanBoard {
  import opened Common
  import opened Records
  import opened Seqs

  /** One column of the board as the pass builds it: the column of all but the last
      ticket, with the last one pushed when its status is the column's. */
  function Column(tickets: seq<Ticket>, status: string): seq<Ticket>
    decreases |tickets|
  {
    if tickets == [] then []
    else
      var last := tickets[|tickets| - 1];
      Column(tickets[..|tickets| - 1], status) + (if last.status == status then [last] else [])
  }

  /** The column is the filter of the tickets by its status: the tickets with that
      status, in list order, each as often as it occurs. */
  lemma {:induction false} ColumnIsFilter(tickets: seq<Ticket>, status: string)
    ensures Column(tickets, status) == Filter(tickets, HasStatus(status))
    decreases |tickets|
  {
    if tickets != [] {
      var init := tickets[..|tickets| - 1];
      var last := tickets[|tickets| - 1];
      assert tickets == init + [last];
      calc {
        Column(tickets, status);
        Column(init, status) + (if last.status == status then [last] else []);
        { ColumnIsFilter(init, status); }
        Filter(init, HasStatus(status)) + (if HasStatus(status)(last) then [last] else []);
        { FilterSnoc(init, last, HasStatus(status)); }
        Filter(init + [last], HasStatus(status));
      }
    }
  }

  /** `groupedTickets`: three columns, created empty and filled by one pass that
      pushes each ticket onto the column of its status, if there is one. */
  method GroupTickets(tickets: seq<Ticket>) returns (columns: seq<seq<Ticket>>)
    ensures |columns| == |Statuses|
    ensures forall c :: 0 <= c < |Statuses| ==> columns[c] == Column(tickets, Statuses[c])
  {
    var todo, inProgress, done := [], [], [];
    var k := 0;
    while k < |tickets|
      invariant 0 <= k <= |tickets|
      invariant todo == Column(tickets[..k], "To Do")
      invariant inProgress == Column(tickets[..k], "In Progress")
      invariant done == Column(tickets[..k], "Done")
    {
      var t := tickets[k];
      assert tickets[..k + 1][..k] == tickets[..k];
      assert |"To Do"| == 5 && |"In Progress"| == 11 && |"Done"| == 4;
      if t.status == "To Do" {
        todo := todo + [t];
      } else if t.status == "In Progress" {
        inProgress := inProgress + [t];
      } else if t.status == "Done" {
        done := done + [t];
      }
      k := k + 1;
    }
    assert tickets[..k] == tickets;
    columns := [todo, inProgress, done];
  }

  /** A column holds exactly the tickets with its status. */
  lemma ColumnMembers(tickets: seq<Ticket>, status: string, t: Ticket)
    ensures t in Column(tickets, status) <==> t in tickets && t.status == status
  {
    ColumnIsFilter(tickets, status);
  }

  /** A ticket with one of the three statuses is in its column and in no other. */
  lemma TicketInItsColumnOnly(tickets: seq<Ticket>, t: Ticket, c: nat)
    requires t in tickets && c < |Statuses| && t.status == Statuses[c]
    ensures t in Column(tickets, Statuses[c])
    ensures forall d :: 0 <= d < |Statuses| && d != c ==> t !in Column(tickets, Statuses[d])
  {
    ColumnMembers(tickets, Statuses[c], t);
    forall d | 0 <= d < |Statuses| && d != c
      ensures t !in Column(tickets, Statuses[d])
    {
      assert |Statuses[0]| == 5 && |Statuses[1]| == 11 && |Statuses[2]| == 4;
      ColumnMembers(tickets, Statuses[d], t);
    }
  }

  /** A ticket with any other status is on no column. */
  lemma UnknownStatusOnNoColumn(tickets: seq<Ticket>, t: Ticket)
    requires t.status !in Statuses
    ensures forall c :: 0 <= c < |Statuses| ==> t !in Column(tickets, Statuses[c])
  {
    forall c | 0 <= c < |Statuses| ensures t !in Column(tickets, Statuses[c]) {
      ColumnMembers(tickets, Statuses[c], t);
    }
  }

  /** The three column sizes. */
  function ColumnSizes(tickets: seq<Ticket>): nat {
    |Column(tickets, "To Do")| + |Column(tickets, "In Progress")| + |Column(tickets, "Done")|
  }

  /** The columns hold at most every ticket, and all of them exactly when every
      status is one of the three. */
  lemma {:induction false} ColumnSizesSum(tickets: seq<Ticket>)
    ensures ColumnSizes(tickets) <= |tickets|
    ensures ColumnSizes(tickets) == |tickets| <==>
            forall i :: 0 <= i < |tickets| ==> tickets[i].status in Statuses
    decreases |tickets|
  {
    if tickets != [] {
      var init := tickets[..|tickets| - 1];
      var last := tickets[|tickets| - 1];
      ColumnSizesSum(init);
      assert |"To Do"| == 5 && |"In Progress"| == 11 && |"Done"| == 4;
      assert ColumnSizes(tickets) == ColumnSizes(init) + (if last.status in Statuses then 1 else 0);
      assert forall i :: 0 <= i < |init| ==> init[i] == tickets[i];
    }
  }

  /** The drop result the drag-and-drop library reports: the target column's id, if
      the ticket was dropped on one, and the dragged ticket's id. */
  datatype DropResult = DropResult(destination: Option<string>, draggableId: Id)

  /** The board's state: the fetched tickets, and what its handlers did outside it. */
  class KanbanBoardPage {
    const projectId: Id
    var tickets: seq<Ticket>
    var effects: seq<Effect>

    /** Mounting on a project: no tickets yet. */
    constructor (projectId: Id)
      ensures this.projectId == projectId && tickets == [] && effects == []
    {
      this.projectId := projectId;
      tickets := [];
      effects := [];
    }

    /** `fetchTickets`: a successful query replaces the tickets; a failed one keeps
        them and shows a toast. */
    method FetchTickets(res: Remote<seq<Ticket>>)
      modifies this
      ensures res.Ok? ==>
                tickets == res.data &&
                effects == old(effects) + [Send(SelectProjectTickets(projectId))]
      ensures res.Err? ==>
                tickets == old(tickets) &&
                effects == old(effects) + [Send(SelectProjectTickets(projectId)),
                                           Notify("Failed to fetch tickets.")]
    {
      effects := effects + [Send(SelectProjectTickets(projectId))];
      if res.Ok? {
        tickets := res.data;
      } else {
        effects := effects + [Notify("Failed to fetch tickets.")];
      }
    }

    /** `handleDragEnd`, with the outcomes of the status update and of the refetch
        as inputs. The source column is not consulted, so a drop into the same
        column still sends an update; `tickets` changes only through the refetch. */
    method HandleDragEnd(result: DropResult, update: Remote<()>, refetch: Remote<seq<Ticket>>)
      modifies this
      ensures result.destination.None? ==> tickets == old(tickets) && effects == old(effects)
      ensures result.destination.Some? && update.Err? ==>
                tickets == old(tickets) &&
                effects == old(effects) +
                  [Send(UpdateTicketStatus(result.draggableId, result.destination.value)),
                   Notify("Failed to update ticket status.")]
      ensures result.destination.Some? && update.Ok? ==>
                tickets == (if refetch.Ok? then refetch.data else old(tickets)) &&
                effects == old(effects) +
                  [Send(UpdateTicketStatus(result.draggableId, result.destination.value)),
                   Notify("Ticket status updated."),
                   Send(SelectProjectTickets(projectId))] +
                  (if refetch.Ok? then [] else [Notify("Failed to fetch tickets.")])
    {
      if result.destination.None? {
        return;
      }
      var newStatus := result.destination.value;
      var ticketId := result.draggableId;
      effects := effects + [Send(UpdateTicketStatus(ticketId, newStatus))];
      if update.Err? {
        effects := effects + [Notify("Failed to update ticket status.")];
      } else {
        effects := effects + [Notify("Ticket status updated.")];
        FetchTickets(refetch);
      }
    }
  }
}
