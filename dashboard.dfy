/** The dashboard (src/pages/Dashboard.js): the status chart's counts, the open
    ticket count and the most recent project. */
module Dashboard {
  import opened Common
  import opened Records
  import opened Seqs
  import opened KanbanBoard

  /** What the page holds once its two queries have returned. */
  datatype DashboardData = DashboardData(projects: seq<Project>, tickets: seq<Ticket>)

  /** `fetchData`: each query's rows, or an empty list when it returned no data. */
  function FetchData(projectsRes: Remote<seq<Project>>, ticketsRes: Remote<seq<Ticket>>): (d: DashboardData)
    ensures projectsRes.Ok? ==> d.projects == projectsRes.data
    ensures projectsRes.Err? ==> d.projects == []
    ensures ticketsRes.Ok? ==> d.tickets == ticketsRes.data
    ensures ticketsRes.Err? ==> d.tickets == []
  {
    DashboardData(OrEmpty(projectsRes), OrEmpty(ticketsRes))
  }

  /** One slice of the status chart. */
  datatype StatusEntry = StatusEntry(name: string, value: nat)

  /** `ticketStatusData`: one entry per status, in the order of `Statuses`, valued
      with the number of tickets that have it. */
  function TicketStatusData(tickets: seq<Ticket>): (data: seq<StatusEntry>)
    ensures |data| == |Statuses|
    ensures forall c :: 0 <= c < |data| ==> data[c].name == Statuses[c]
  {
    seq(|Statuses|, c requires 0 <= c < |Statuses| =>
      StatusEntry(Statuses[c], |Filter(tickets, HasStatus(Statuses[c]))|))
  }

  /** The chart shows the sizes of the board's columns: each value counts the
      tickets of its status. */
  lemma ChartMatchesBoard(tickets: seq<Ticket>)
    ensures forall c :: 0 <= c < |Statuses| ==>
              TicketStatusData(tickets)[c].value == |Column(tickets, Statuses[c])|
  {
    forall c | 0 <= c < |Statuses|
      ensures TicketStatusData(tickets)[c].value == |Column(tickets, Statuses[c])|
    {
      ColumnIsFilter(tickets, Statuses[c]);
    }
  }

  /** The three values add up to at most the total, and to the total exactly when
      every ticket has one of the three statuses. */
  lemma StatusCountsSum(tickets: seq<Ticket>)
    ensures var data := TicketStatusData(tickets);
            data[0].value + data[1].value + data[2].value <= |tickets|
    ensures var data := TicketStatusData(tickets);
            data[0].value + data[1].value + data[2].value == |tickets| <==>
            forall i :: 0 <= i < |tickets| ==> tickets[i].status in Statuses
  {
    ChartMatchesBoard(tickets);
    ColumnSizesSum(tickets);
  }

  /** The ticket is not done. */
  function IsOpen(): Ticket -> bool {
    (t: Ticket) => t.status != "Done"
  }

  /** The "Open Tickets" card: the tickets whose status is not "Done". */
  function OpenCount(tickets: seq<Ticket>): (n: nat)
    ensures n <= |tickets|
  {
    |Filter(tickets, IsOpen())|
  }

  /** The open count is the total less the "Done" slice of the chart. */
  lemma OpenIsTotalLessDone(tickets: seq<Ticket>)
    ensures OpenCount(tickets) == |tickets| - TicketStatusData(tickets)[2].value
  {
    FilterComplement(tickets, HasStatus("Done"), IsOpen());
  }

  /** `lastProject`: the first of the projects, which the query orders newest first. */
  function LastProject(projects: seq<Project>): (p: Option<Project>)
    ensures projects == [] <==> p.None?
    ensures projects != [] ==> p == Some(projects[0])
  {
    if projects == [] then None else Some(projects[0])
  }

  /** The "Recent Activity" text. */
  function RecentActivity(projects: seq<Project>): (text: string)
    ensures projects == [] ==> text == "No recent projects yet."
    ensures projects != [] ==> text == "Last Project Created: " + projects[0].title
  {
    match LastProject(projects)
    case None => "No recent projects yet."
    case Some(p) => "Last Project Created: " + p.title
  }
}
