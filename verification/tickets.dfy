/** The ticket record of tools/ticket_tools.py: the fixed value sets, the agent
    table, the SLA targets and breach test, and the shape of the dictionaries
    the store keeps. Times are integer minutes; ISO 8601 timestamps of one
    format order like the minutes they denote. */
module Tickets {
  import opened Common

  /** `TicketPriority`, `TicketStatus` and `TicketCategory`, in declaration order. */
  const PRIORITIES: seq<string> := ["low", "normal", "high", "urgent"]
  const STATUSES: seq<string> := ["new", "open", "pending", "solved", "closed"]
  const CATEGORIES: seq<string> := [
    "hardware", "software", "network", "account_access", "email", "printer", "vpn", "security", "other"]

  /** The value sets are as declared: four priorities, five statuses, nine
      categories, each without repetition. */
  lemma ValueSets()
    ensures |PRIORITIES| == 4 && NoDup(PRIORITIES)
    ensures |STATUSES| == 5 && NoDup(STATUSES)
    ensures |CATEGORIES| == 9 && NoDup(CATEGORIES) && "other" in CATEGORIES
  {
  }

  datatype Agent = Agent(id: string, name: string, email: string)

  /** `AVAILABLE_AGENTS`. */
  const AGENTS: seq<Agent> := [
    Agent("agent_1", "น้องเทค (IT Support)", "techsupport@bluewave-tech.co.th"),
    Agent("agent_2", "พี่แอดมิน (Admin)", "admin@bluewave-tech.co.th"),
    Agent("agent_3", "พี่เน็ต (Network)", "network@bluewave-tech.co.th"),
    Agent("agent_4", "พี่ซีเคียว (Security)", "security@bluewave-tech.co.th")]

  function AgentIds(agents: seq<Agent>): seq<string> {
    MapSeq(agents, (a: Agent) => a.id)
  }

  /** The agent table has four agents with distinct ids agent_1 to agent_4. */
  lemma AgentTable()
    ensures AgentIds(AGENTS) == ["agent_1", "agent_2", "agent_3", "agent_4"]
    ensures NoDup(AgentIds(AGENTS))
  {
  }

  /** `next((a for a in agents if a["id"] == id), None)`. */
  function FirstAgent(agents: seq<Agent>, id: string): (a: Option<Agent>)
    ensures a.Some? <==> id in AgentIds(agents)
    ensures a.Some? ==> a.value in agents && a.value.id == id
    decreases |agents|
  {
    if |agents| == 0 then None
    else if agents[0].id == id then Some(agents[0])
    else
      assert AgentIds(agents) == [agents[0].id] + AgentIds(agents[1..]);
      FirstAgent(agents[1..], id)
  }

  /** The agent an assignee id names in the table, if any. */
  function FindAgent(id: string): (a: Option<Agent>)
    ensures a.Some? <==> id in ["agent_1", "agent_2", "agent_3", "agent_4"]
    ensures a.Some? ==> a.value in AGENTS && a.value.id == id
  {
    AgentTable();
    FirstAgent(AGENTS, id)
  }

  // ---------------------------------------------------------------- SLA

  /** Minutes to the first response and to the resolution. */
  datatype SlaTarget = SlaTarget(firstResponse: int, resolution: int)

  /** `SLA_TARGETS.get(priority, SLA_TARGETS["normal"])`. */
  function SlaTargetOf(priority: string): SlaTarget {
    if priority == "urgent" then SlaTarget(15, 240)
    else if priority == "high" then SlaTarget(60, 480)
    else if priority == "low" then SlaTarget(480, 2880)
    else SlaTarget(240, 1440)
  }

  /** The SLA table: urgent 15/240, high 60/480, normal 240/1440, low
      480/2880 minutes; any other priority is treated as normal; the first
      response is always due before the resolution, and a more urgent
      priority never allows more time. */
  lemma SlaTable(priority: string)
    ensures SlaTargetOf("urgent") == SlaTarget(15, 240) && SlaTargetOf("high") == SlaTarget(60, 480)
    ensures SlaTargetOf("normal") == SlaTarget(240, 1440) && SlaTargetOf("low") == SlaTarget(480, 2880)
    ensures priority !in PRIORITIES ==> SlaTargetOf(priority) == SlaTargetOf("normal")
    ensures 0 < SlaTargetOf(priority).firstResponse < SlaTargetOf(priority).resolution
    ensures forall i, j :: 0 <= i < j < |PRIORITIES| ==>
      SlaTargetOf(PRIORITIES[j]).resolution < SlaTargetOf(PRIORITIES[i]).resolution
  {
  }

  datatype SlaDues = SlaDues(firstResponseDue: int, resolutionDue: int)

  /** `_calculate_sla_targets`: the due times from the creation time. */
  function CalculateSlaTargets(priority: string, createdAt: int): (d: SlaDues)
    ensures createdAt < d.firstResponseDue < d.resolutionDue
    ensures d.firstResponseDue - createdAt == SlaTargetOf(priority).firstResponse
    ensures d.resolutionDue - createdAt == SlaTargetOf(priority).resolution
  {
    var target := SlaTargetOf(priority);
    SlaDues(createdAt + target.firstResponse, createdAt + target.resolution)
  }

  datatype Breach = Breach(firstResponseBreached: bool, resolutionBreached: bool)

  /** `_check_sla_breach`: a recorded time breaches when strictly after its due
      time; an unrecorded one when `now` is. */
  function CheckSlaBreach(createdAt: int, priority: string, firstResponseAt: Option<int>,
                          resolvedAt: Option<int>, now: int): (b: Breach)
    ensures b.firstResponseBreached <==> firstResponseAt.GetOr(now) - createdAt > SlaTargetOf(priority).firstResponse
    ensures b.resolutionBreached <==> resolvedAt.GetOr(now) - createdAt > SlaTargetOf(priority).resolution
  {
    var dues := CalculateSlaTargets(priority, createdAt);
    Breach(if firstResponseAt.Some? then firstResponseAt.value > dues.firstResponseDue else now > dues.firstResponseDue,
           if resolvedAt.Some? then resolvedAt.value > dues.resolutionDue else now > dues.resolutionDue)
  }

  /** The two flags are computed independently: the first-response flag does
      not look at the resolution time, nor the resolution flag at the first
      response; a recorded time makes its flag independent of `now`, and an
      unrecorded one, once breached, stays breached as time passes. */
  lemma BreachIndependence(createdAt: int, priority: string, f1: Option<int>, f2: Option<int>,
                           r1: Option<int>, r2: Option<int>, now1: int, now2: int)
    ensures CheckSlaBreach(createdAt, priority, f1, r1, now1).firstResponseBreached
            == CheckSlaBreach(createdAt, priority, f1, r2, now1).firstResponseBreached
    ensures CheckSlaBreach(createdAt, priority, f1, r1, now1).resolutionBreached
            == CheckSlaBreach(createdAt, priority, f2, r1, now1).resolutionBreached
    ensures f1.Some? ==> CheckSlaBreach(createdAt, priority, f1, r1, now1).firstResponseBreached
                         == CheckSlaBreach(createdAt, priority, f1, r1, now2).firstResponseBreached
    ensures r1.Some? ==> CheckSlaBreach(createdAt, priority, f1, r1, now1).resolutionBreached
                         == CheckSlaBreach(createdAt, priority, f1, r1, now2).resolutionBreached
    ensures now1 <= now2 && CheckSlaBreach(createdAt, priority, f1, r1, now1).firstResponseBreached
            ==> CheckSlaBreach(createdAt, priority, f1, r1, now2).firstResponseBreached
    ensures now1 <= now2 && CheckSlaBreach(createdAt, priority, f1, r1, now1).resolutionBreached
            ==> CheckSlaBreach(createdAt, priority, f1, r1, now2).resolutionBreached
  {
  }

  /** A response or resolution recorded at creation time never breaches. */
  lemma NoBreachAtCreation(createdAt: int, priority: string, now: int)
    ensures !CheckSlaBreach(createdAt, priority, Some(createdAt), Some(createdAt), now).firstResponseBreached
    ensures !CheckSlaBreach(createdAt, priority, Some(createdAt), Some(createdAt), now).resolutionBreached
    ensures now <= createdAt ==> CheckSlaBreach(createdAt, priority, None, None, now) == Breach(false, false)
  {
  }

  // ------------------------------------------------------------- the record

  datatype Comment = Comment(author: string, body: string, public: bool, createdAt: int)

  datatype HistoryEntry = HistoryEntry(timestamp: int, action: string, actor: string, changes: Payload)

  /** The ticket dictionary. `slaBreach` is None for a record without the key. */
  datatype Ticket = Ticket(
    id: int,
    subject: string,
    description: string,
    priority: string,
    status: string,
    requesterEmail: string,
    requesterName: string,
    createdAt: int,
    updatedAt: int,
    comments: seq<Comment>,
    assigneeId: Option<string>,
    assigneeName: Option<string>,
    tags: seq<string>,
    category: string,
    dueDate: Option<int>,
    firstResponseAt: Option<int>,
    resolvedAt: Option<int>,
    slaFirstResponseDue: int,
    slaResolutionDue: int,
    slaBreach: Option<Breach>,
    history: seq<HistoryEntry>)

  /** `{"old": a, "new": b}`. */
  function OldNew(a: Value, b: Value): Value {
    VObj(map["old" := a, "new" := b])
  }

  /** The due times agree with the priority and the creation time. */
  predicate SlaConsistent(t: Ticket) {
    SlaDues(t.slaFirstResponseDue, t.slaResolutionDue) == CalculateSlaTargets(t.priority, t.createdAt)
  }

  /** A ticket as the program writes it: known priority, status and
      category, and a history that opens with its creation. */
  predicate Valid(t: Ticket) {
    && t.priority in PRIORITIES && t.status in STATUSES && t.category in CATEGORIES
    && |t.history| >= 1 && t.history[0].action == "created"
  }

  /** How a stored ticket may change under an update: its id, subject,
      description, requester and creation time stay, history and comments only grow, and a recorded first response
      or resolution time is never overwritten. */
  predicate Evolves(a: Ticket, b: Ticket) {
    && b.id == a.id && b.createdAt == a.createdAt
    && b.subject == a.subject && b.description == a.description
    && b.requesterEmail == a.requesterEmail && b.requesterName == a.requesterName
    && a.history <= b.history && a.comments <= b.comments
    && (a.firstResponseAt.Some? ==> b.firstResponseAt == a.firstResponseAt)
    && (a.resolvedAt.Some? ==> b.resolvedAt == a.resolvedAt)
  }

  /** Successive updates compose. */
  lemma EvolvesTransitive(a: Ticket, b: Ticket, c: Ticket)
    requires Evolves(a, b) && Evolves(b, c)
    ensures Evolves(a, c)
  {
  }
}
