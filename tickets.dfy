/** A project's ticket list (src/pages/Tickets.js): the search and filter
    predicate, the id-to-email map, and the local removal and replacement by id. */
module Tickets {
  import opened Common
  import opened Records
  import opened Seqs
  import opened Text

  /** The three controls above the list; an empty priority or status means "all". */
  datatype TicketFilter = TicketFilter(search: string, priority: string, status: string)

  /** The search text occurs, ignoring case, in the title or in the description. */
  predicate MatchesSearch(t: Ticket, search: string) {
    Contains(ToLower(t.title), ToLower(search)) || Contains(ToLower(t.description), ToLower(search))
  }

  /** The predicate of `filteredTickets`. */
  predicate Matches(t: Ticket, f: TicketFilter) {
    MatchesSearch(t, f.search) &&
    (f.priority == "" || t.priority == f.priority) &&
    (f.status == "" || t.status == f.status)
  }

  /** `Matches` as a value, so that every use filters with the same predicate. */
  function Keeps(f: TicketFilter): Ticket -> bool {
    t => Matches(t, f)
  }

  /** `filteredTickets`: the tickets that match, in their order, none lost or duplicated. */
  function FilteredTickets(tickets: seq<Ticket>, f: TicketFilter): (r: seq<Ticket>)
    ensures IsSubsequence(r, tickets)
    ensures forall t :: t in r <==> t in tickets && Matches(t, f)
    ensures forall t :: t in tickets && Matches(t, f) ==> multiset(r)[t] == multiset(tickets)[t]
  {
    Filter(tickets, Keeps(f))
  }

  /** Every string includes the empty string, in either case. */
  lemma EmptySearchMatches(t: Ticket)
    ensures MatchesSearch(t, "")
  {
    assert OccursAt(ToLower(t.title), ToLower(""), 0);
  }

  /** With the three controls empty, every ticket is shown. */
  lemma EmptyFilterKeepsAll(tickets: seq<Ticket>)
    ensures FilteredTickets(tickets, TicketFilter("", "", "")) == tickets
  {
    forall i | 0 <= i < |tickets| ensures Keeps(TicketFilter("", "", ""))(tickets[i]) {
      EmptySearchMatches(tickets[i]);
    }
    FilterKeepsAll(tickets, Keeps(TicketFilter("", "", "")));
  }

  /** A non-empty priority or status control keeps only tickets equal to it. */
  lemma FilterControlsAreExact(tickets: seq<Ticket>, f: TicketFilter, t: Ticket)
    requires t in FilteredTickets(tickets, f)
    ensures f.priority != "" ==> t.priority == f.priority
    ensures f.status != "" ==> t.status == f.status
  {
  }

  /** Search ignores case: a title that includes the search text once both are
      lower-cased is found. */
  lemma SearchIgnoresCase(t: Ticket, search: string, i: nat)
    requires OccursAt(ToLower(t.title), ToLower(search), i)
    ensures MatchesSearch(t, search)
  {
  }

  /** `usersMap`, built by a loop over the profiles: every profile's id is a key,
      nothing else is, and each key maps to the email of the LAST profile with
      that id. */
  method BuildUsersMap(users: seq<User>) returns (m: map<Id, string>)
    ensures m.Keys == set u | u in users :: u.id
    ensures forall id :: id in m ==>
              exists i :: 0 <= i < |users| && users[i].id == id && m[id] == users[i].email &&
                          forall j :: i < j < |users| ==> users[j].id != id
  {
    m := map[];
    var k := 0;
    while k < |users|
      invariant 0 <= k <= |users|
      invariant m.Keys == set u | u in users[..k] :: u.id
      invariant forall id :: id in m ==>
                  exists i :: 0 <= i < k && users[i].id == id && m[id] == users[i].email &&
                              forall j :: i < j < k ==> users[j].id != id
    {
      assert users[..k + 1] == users[..k] + [users[k]];
      m := m[users[k].id := users[k].email];
      k := k + 1;
    }
    assert users[..k] == users;
  }

  /** The key `usersMap[ticket.assignee]` looks up: a missing assignee is the key
      `"null"`, as JavaScript converts it. */
  function AssigneeKey(assignee: Option<Id>): (key: string)
    ensures assignee.Some? ==> key == assignee.value
    ensures assignee.None? ==> key == "null"
  {
    match assignee
    case None => "null"
    case Some(id) => id
  }

  /** The assignee shown on a card: the mapped email, or "Unassigned" when the key
      is unmapped or maps to an empty email. */
  function AssigneeLabel(usersMap: map<Id, string>, assignee: Option<Id>): (shown: string)
    ensures AssigneeKey(assignee) !in usersMap ==> shown == "Unassigned"
    ensures AssigneeKey(assignee) in usersMap && usersMap[AssigneeKey(assignee)] != "" ==>
              shown == usersMap[AssigneeKey(assignee)]
    ensures AssigneeKey(assignee) in usersMap && usersMap[AssigneeKey(assignee)] == "" ==>
              shown == "Unassigned"
    ensures shown != "Unassigned" ==> AssigneeKey(assignee) in usersMap
  {
    var key := AssigneeKey(assignee);
    if key in usersMap && usersMap[key] != "" then usersMap[key] else "Unassigned"
  }

  /** A ticket assigned to a user without a profile shows as unassigned. */
  lemma UnknownAssigneeUnassigned(users: seq<User>, m: map<Id, string>, id: Id)
    requires m.Keys == set u | u in users :: u.id
    requires forall i :: 0 <= i < |users| ==> users[i].id != id
    ensures AssigneeLabel(m, Some(id)) == "Unassigned"
  {
  }

  /** `prev.map(t => t.id === updated.id ? updated : t)`. */
  function ReplaceById(tickets: seq<Ticket>, updated: Ticket): (r: seq<Ticket>)
    ensures |r| == |tickets|
    ensures forall i :: 0 <= i < |r| && tickets[i].id == updated.id ==> r[i] == updated
    ensures forall i :: 0 <= i < |r| && tickets[i].id != updated.id ==> r[i] == tickets[i]
    decreases |tickets|
  {
    if tickets == [] then []
    else
      var rest := ReplaceById(tickets[1..], updated);
      [if tickets[0].id == updated.id then updated else tickets[0]] + rest
  }

  /** Replacing is idempotent. */
  lemma ReplaceIdempotent(tickets: seq<Ticket>, updated: Ticket)
    ensures ReplaceById(ReplaceById(tickets, updated), updated) == ReplaceById(tickets, updated)
  {
  }

  /** The replacement touches only the tickets with the updated id: removing that id
      afterwards gives what removing it from the original list gives. */
  lemma {:induction false} ReplaceKeepsOthers(tickets: seq<Ticket>, updated: Ticket)
    ensures RemoveById(ReplaceById(tickets, updated), TicketIdOf(), updated.id) ==
            RemoveById(tickets, TicketIdOf(), updated.id)
    decreases |tickets|
  {
    if tickets != [] {
      var r := ReplaceById(tickets, updated);
      assert r[1..] == ReplaceById(tickets[1..], updated);
      ReplaceKeepsOthers(tickets[1..], updated);
    }
  }

  /** The updated ticket is in the list afterwards exactly when some ticket had its id. */
  lemma ReplacedPresentIff(tickets: seq<Ticket>, updated: Ticket)
    ensures updated in ReplaceById(tickets, updated) <==>
            exists i :: 0 <= i < |tickets| && tickets[i].id == updated.id
  {
    var r := ReplaceById(tickets, updated);
    if updated in r {
      var i :| 0 <= i < |r| && r[i] == updated;
      assert tickets[i].id == updated.id;
    }
  }

  /** The page's state. `editingTicket` is never set to anything but null, so the
      edit modal never opens. */
  class TicketsPage {
    const projectId: Id
    var tickets: seq<Ticket>
    var loading: bool
    var usersMap: map<Id, string>
    var filter: TicketFilter
    var editingTicket: Option<Ticket>
    var effects: seq<Effect>

    ghost predicate Valid()
      reads this
    {
      editingTicket.None?
    }

    /** Mounting on a project: no tickets, loading, empty map and controls. */
    constructor (projectId: Id)
      ensures Valid()
      ensures this.projectId == projectId && tickets == [] && loading
      ensures usersMap == map[] && filter == TicketFilter("", "", "") && effects == []
    {
      this.projectId := projectId;
      tickets, loading, usersMap := [], true, map[];
      filter := TicketFilter("", "", "");
      editingTicket := None;
      effects := [];
    }

    /** What the list shows. */
    function Visible(): (r: seq<Ticket>)
      reads this
      ensures IsSubsequence(r, tickets)
      ensures forall t :: t in r <==> t in tickets && Matches(t, filter)
    {
      FilteredTickets(tickets, filter)
    }

    /** `fetchTicketsAndUsers`: both queries are sent; a failed query counts as an
        empty result, whose map is empty. */
    method FetchTicketsAndUsers(ticketsRes: Remote<seq<Ticket>>, usersRes: Remote<seq<User>>)
      requires Valid()
      modifies this
      ensures Valid() && !loading && filter == old(filter)
      ensures tickets == OrEmpty(ticketsRes)
      ensures usersMap.Keys == set u | u in OrEmpty(usersRes) :: u.id
      ensures var users := OrEmpty(usersRes);
              forall id :: id in usersMap ==>
                exists i :: 0 <= i < |users| && users[i].id == id && usersMap[id] == users[i].email &&
                            forall j :: i < j < |users| ==> users[j].id != id
      ensures effects == old(effects) + [Send(SelectProjectTickets(projectId)), Send(SelectProfiles)]
    {
      loading := true;
      effects := effects + [Send(SelectProjectTickets(projectId)), Send(SelectProfiles)];
      var users := OrEmpty(usersRes);
      var m := BuildUsersMap(users);
      tickets := OrEmpty(ticketsRes);
      usersMap := m;
      loading := false;
    }

    /** `handleDelete`, with the confirmation answer and the delete's outcome as
        inputs. */
    method HandleDelete(ticketId: Id, confirmed: bool, outcome: Remote<()>)
      requires Valid()
      modifies this
      ensures Valid()
      ensures loading == old(loading) && usersMap == old(usersMap) && filter == old(filter)
      ensures !confirmed ==> tickets == old(tickets) && effects == old(effects)
      ensures confirmed && outcome.Err? ==>
                tickets == old(tickets) &&
                effects == old(effects) + [Send(DeleteTicket(ticketId)),
                                           Notify("Error deleting ticket: " + outcome.message)]
      ensures confirmed && outcome.Ok? ==>
                tickets == RemoveById(old(tickets), TicketIdOf(), ticketId) &&
                effects == old(effects) + [Send(DeleteTicket(ticketId))]
    {
      if !confirmed {
        return;
      }
      effects := effects + [Send(DeleteTicket(ticketId))];
      if outcome.Err? {
        effects := effects + [Notify("Error deleting ticket: " + outcome.message)];
      } else {
        tickets := RemoveById(tickets, TicketIdOf(), ticketId);
      }
    }

    /** The modal's `onUpdate` callback: replace by id and close the modal. */
    method OnUpdate(updated: Ticket)
      requires Valid()
      modifies this
      ensures Valid()
      ensures tickets == ReplaceById(old(tickets), updated)
      ensures loading == old(loading) && usersMap == old(usersMap)
      ensures filter == old(filter) && effects == old(effects)
    {
      tickets := ReplaceById(tickets, updated);
      editingTicket := None;
    }
  }
}
