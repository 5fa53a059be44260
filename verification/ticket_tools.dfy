/** The ticket tools of tools/ticket_tools.py that the agent calls. Each tool
    reads the store, checks its arguments in the source's order, and on
    success appends the updated ticket to the store; an error leaves the store
    as it was. The markdown texts the tools return are not modelled: a tool
    answers with the stored ticket or the error it reports. */
module TicketTools {
  import opened Common
  import opened Tickets
  import opened TicketStore
  import opened Sorting

  /** The errors the tools report. */
  datatype ToolError = InvalidStatus | InvalidPriority | NotFound | InvalidAssignee | InvalidCategory | AllTagsExist

  const AGENT_ACTOR := "IT Support Agent"
  const SYSTEM_ACTOR := "IT Support System"

  /** The history entry an update appends. */
  function Entry1(now: int, action: string, actor: string, key: string, change: Value): HistoryEntry {
    HistoryEntry(now, action, actor, map[key := change])
  }

  // ------------------------------------------------------------ creation

  /** `create_ticket` replaces an unknown priority by "normal". */
  function CoercePriority(priority: string): (p: string)
    ensures p in PRIORITIES
    ensures priority in PRIORITIES <==> p == priority
  {
    if priority in PRIORITIES then priority else "normal"
  }

  /** The ticket a creation stores: new, uncategorised, without comments,
      tags or assignee, due times from the priority, not breached, and one
      "created" history entry by `actor`. */
  function CreatedTicket(id: int, subject: string, description: string, priority: string,
                         requesterEmail: string, requesterName: string, actor: string, now: int): (t: Ticket)
    ensures t.id == id && t.status == "new" && t.category == "other" && t.priority == priority
    ensures t.comments == [] && t.tags == [] && t.assigneeId.None? && t.dueDate.None?
    ensures t.firstResponseAt.None? && t.resolvedAt.None? && t.createdAt == now && t.updatedAt == now
    ensures SlaConsistent(t) && t.slaBreach == Some(Breach(false, false))
    ensures |t.history| == 1 && t.history[0].action == "created" && t.history[0].actor == actor
    ensures priority in PRIORITIES <==> Valid(t)
  {
    var dues := CalculateSlaTargets(priority, now);
    Ticket(id, subject, description, priority, "new", requesterEmail, requesterName, now, now, [],
           None, None, [], "other", None, None, None, dues.firstResponseDue, dues.resolutionDue,
           Some(CheckSlaBreach(now, priority, None, None, now)),
           [HistoryEntry(now, "created", actor, map["status" := VStr("new"), "priority" := VStr(priority)])])
  }

  /** The ticket `create_ticket` stores under `id`. */
  function ToolCreatedTicket(id: int, subject: string, description: string, priority: string,
                             requesterEmail: Option<string>, requesterName: Option<string>, now: int): (t: Ticket)
    ensures Valid(t) && t.id == id && t.priority == CoercePriority(priority)
    ensures t.requesterEmail == (if Truthy(requesterEmail) then requesterEmail.value else "unknown@company.com")
    ensures t.requesterName == (if Truthy(requesterName) then requesterName.value else "Unknown User")
    ensures t.history[0].actor == (if Truthy(requesterName) then requesterName.value else "System")
  {
    CreatedTicket(id, subject, description, CoercePriority(priority),
                  if Truthy(requesterEmail) then requesterEmail.value else "unknown@company.com",
                  if Truthy(requesterName) then requesterName.value else "Unknown User",
                  if Truthy(requesterName) then requesterName.value else "System", now)
  }

  /** `create_ticket`: stores a new ticket under the next id. */
  method CreateTicket(st: TicketStorage, subject: string, description: string, priority: string,
                      requesterEmail: Option<string>, requesterName: Option<string>, now: int)
    returns (t: Ticket)
    modifies st
    ensures t == ToolCreatedTicket(NextId(Load(old(st.lines))), subject, description, priority,
                                   requesterEmail, requesterName, now)
    ensures st.lines == old(st.lines) + [Entry(t)]
  {
    var p := CoercePriority(priority);
    var id := st.GetNextId();
    t := ToolCreatedTicket(id, subject, description, p, requesterEmail, requesterName, now);
    st.SaveTicket(t);
  }

  /** Creating a ticket stores it under an id above every other, and the
      other tickets load as before. */
  lemma CreateEffect(lines: seq<Line>, t: Ticket, k: int)
    requires t.id == NextId(Load(lines))
    ensures t.id !in Ids(Load(lines))
    ensures Find(Load(lines + [Entry(t)]), t.id) == Some(t)
    ensures k != t.id ==> Find(Load(lines + [Entry(t)]), k) == Find(Load(lines), k)
    ensures NextId(Load(lines + [Entry(t)])) == t.id + 1
  {
    SaveThenGet(lines, t, k);
    SaveThenGet(lines, t, t.id);
    ConsecutiveIds(lines, t);
    assert t.id !in Ids(Load(lines)) by {
      IdsMember(Load(lines), t.id);
    }
  }

  // ------------------------------------------------------------- reading

  /** `get_ticket`. */
  method GetTicket(st: TicketStorage, ticketId: int) returns (r: Result<Ticket, ToolError>)
    ensures r.Err? <==> ticketId !in Ids(Load(st.lines))
    ensures r.Err? ==> r.error == NotFound
    ensures r.Ok? ==> r.value.id == ticketId && LastEntry(st.lines, ticketId) == Some(r.value)
  {
    var t := st.GetTicket(ticketId);
    if t.None? {
      return Err(NotFound);
    }
    r := Ok(t.value);
  }

  // ------------------------------------------------------------- updates

  /** Moving to solved or closed. */
  predicate Resolving(status: string) {
    status == "solved" || status == "closed"
  }

  /** The ticket after `update_ticket_status`: the breach flags are
      recomputed after the resolution time and before the comment's first
      response time is recorded. */
  function StatusUpdated(t: Ticket, status: string, comment: Option<string>, now: int): (r: Ticket)
    ensures Evolves(t, r) && r.status == status && r.updatedAt == now
    ensures r.priority == t.priority && r.category == t.category && r.tags == t.tags && r.assigneeId == t.assigneeId
    ensures SlaConsistent(t) ==> SlaConsistent(r)
    ensures r.resolvedAt == if Resolving(status) && t.resolvedAt.None? then Some(now) else t.resolvedAt
    ensures r.firstResponseAt == if Truthy(comment) && t.firstResponseAt.None? && |t.comments| == 0 then Some(now) else t.firstResponseAt
    ensures r.comments == t.comments + (if Truthy(comment) then [Comment(AGENT_ACTOR, comment.value, true, now)] else [])
    ensures r.history == t.history + [Entry1(now, "status_changed", AGENT_ACTOR, "status", OldNew(VStr(t.status), VStr(status)))]
    ensures r.slaBreach == Some(CheckSlaBreach(t.createdAt, t.priority, t.firstResponseAt, r.resolvedAt, now))
    ensures Valid(t) && status in STATUSES ==> Valid(r)
  {
    var resolvedAt := if Resolving(status) && t.resolvedAt.None? then Some(now) else t.resolvedAt;
    var breach := CheckSlaBreach(t.createdAt, t.priority, t.firstResponseAt, resolvedAt, now);
    var first := Truthy(comment) && t.firstResponseAt.None? && |t.comments| == 0;
    t.(status := status, updatedAt := now, resolvedAt := resolvedAt, slaBreach := Some(breach),
       firstResponseAt := if first then Some(now) else t.firstResponseAt,
       comments := t.comments + (if Truthy(comment) then [Comment(AGENT_ACTOR, comment.value, true, now)] else []),
       history := t.history + [Entry1(now, "status_changed", AGENT_ACTOR, "status", OldNew(VStr(t.status), VStr(status)))])
  }

  /** `update_ticket_status`: an invalid status is rejected before the
      ticket is looked up; nothing is saved on either error. */
  method UpdateTicketStatus(st: TicketStorage, ticketId: int, status: string, comment: Option<string>, now: int)
    returns (r: Result<Ticket, ToolError>)
    modifies st
    ensures status !in STATUSES ==> r == Err(InvalidStatus)
    ensures status in STATUSES && ticketId !in Ids(Load(old(st.lines))) ==> r == Err(NotFound)
    ensures r.Err? ==> st.lines == old(st.lines)
    ensures r.Ok? ==> && Find(Load(old(st.lines)), ticketId).Some?
                      && r.value == StatusUpdated(Find(Load(old(st.lines)), ticketId).value, status, comment, now)
                      && st.lines == old(st.lines) + [Entry(r.value)]
  {
    if status !in STATUSES {
      return Err(InvalidStatus);
    }
    var t := st.GetTicket(ticketId);
    if t.None? {
      return Err(NotFound);
    }
    var u := StatusUpdated(t.value, status, comment, now);
    st.SaveTicket(u);
    r := Ok(u);
  }

  /** The first `n` characters of a comment, with "..." when it was longer. */
  function Preview(comment: string): (p: string)
    ensures |comment| <= 50 ==> p == comment
    ensures |comment| > 50 ==> |p| == 53 && p[..50] == comment[..50]
  {
    if |comment| > 50 then comment[..50] + "..." else comment
  }

  /** The ticket after `add_ticket_comment`: the first comment on a ticket
      without a first response records one and recomputes the breach flags. */
  function Commented(t: Ticket, comment: string, isPublic: bool, now: int): (r: Ticket)
    ensures Evolves(t, r) && r.updatedAt == now && r.status == t.status && r.priority == t.priority
    ensures r.comments == t.comments + [Comment(AGENT_ACTOR, comment, isPublic, now)]
    ensures r.firstResponseAt == if t.firstResponseAt.None? && |t.comments| == 0 then Some(now) else t.firstResponseAt
    ensures t.firstResponseAt.None? && |t.comments| == 0 ==>
      r.slaBreach == Some(CheckSlaBreach(t.createdAt, t.priority, Some(now), t.resolvedAt, now))
    ensures !(t.firstResponseAt.None? && |t.comments| == 0) ==> r.slaBreach == t.slaBreach
    ensures |r.history| == |t.history| + 1 && r.history[|t.history|].action == "comment_added"
    ensures SlaConsistent(t) ==> SlaConsistent(r)
    ensures Valid(t) ==> Valid(r)
  {
    var first := t.firstResponseAt.None? && |t.comments| == 0;
    t.(firstResponseAt := if first then Some(now) else t.firstResponseAt,
       slaBreach := if first then Some(CheckSlaBreach(t.createdAt, t.priority, Some(now), t.resolvedAt, now)) else t.slaBreach,
       comments := t.comments + [Comment(AGENT_ACTOR, comment, isPublic, now)],
       updatedAt := now,
       history := t.history + [Entry1(now, "comment_added", AGENT_ACTOR, "comment",
                                      VObj(map["public" := VBool(isPublic), "preview" := VStr(Preview(comment))]))])
  }

  /** `add_ticket_comment`. */
  method AddTicketComment(st: TicketStorage, ticketId: int, comment: string, isPublic: bool, now: int)
    returns (r: Result<Ticket, ToolError>)
    modifies st
    ensures r.Err? <==> ticketId !in Ids(Load(old(st.lines)))
    ensures r.Err? ==> r.error == NotFound && st.lines == old(st.lines)
    ensures r.Ok? ==> && r.value == Commented(Find(Load(old(st.lines)), ticketId).value, comment, isPublic, now)
                      && st.lines == old(st.lines) + [Entry(r.value)]
  {
    var t := st.GetTicket(ticketId);
    if t.None? {
      return Err(NotFound);
    }
    var u := Commented(t.value, comment, isPublic, now);
    st.SaveTicket(u);
    r := Ok(u);
  }

  const PRIORITY_CHANGED := "Priority changed from "

  /** The ticket after `update_ticket_priority`: the due times are recomputed
      from the original creation time, and an internal comment records the
      change. */
  function Reprioritised(t: Ticket, priority: string, now: int): (r: Ticket)
    ensures Evolves(t, r) && r.priority == priority && r.status == t.status && r.updatedAt == now
    ensures SlaConsistent(r)
    ensures r.slaBreach == Some(CheckSlaBreach(t.createdAt, priority, t.firstResponseAt, t.resolvedAt, now))
    ensures |r.comments| == |t.comments| + 1 && !r.comments[|t.comments|].public
    ensures r.comments[|t.comments|].body == PRIORITY_CHANGED + Upper(t.priority) + " to " + Upper(priority)
    ensures r.history == t.history + [Entry1(now, "priority_changed", SYSTEM_ACTOR, "priority",
                                             OldNew(VStr(t.priority), VStr(priority)))]
    ensures Valid(t) && priority in PRIORITIES ==> Valid(r)
  {
    var dues := CalculateSlaTargets(priority, t.createdAt);
    t.(priority := priority, updatedAt := now,
       slaFirstResponseDue := dues.firstResponseDue, slaResolutionDue := dues.resolutionDue,
       slaBreach := Some(CheckSlaBreach(t.createdAt, priority, t.firstResponseAt, t.resolvedAt, now)),
       comments := t.comments + [Comment(SYSTEM_ACTOR, PRIORITY_CHANGED + Upper(t.priority) + " to " + Upper(priority), false, now)],
       history := t.history + [Entry1(now, "priority_changed", SYSTEM_ACTOR, "priority", OldNew(VStr(t.priority), VStr(priority)))])
  }

  /** `update_ticket_priority`: an invalid priority is rejected before the
      ticket is looked up. */
  method UpdateTicketPriority(st: TicketStorage, ticketId: int, priority: string, now: int)
    returns (r: Result<Ticket, ToolError>)
    modifies st
    ensures priority !in PRIORITIES ==> r == Err(InvalidPriority)
    ensures priority in PRIORITIES && ticketId !in Ids(Load(old(st.lines))) ==> r == Err(NotFound)
    ensures r.Err? ==> st.lines == old(st.lines)
    ensures r.Ok? ==> && Find(Load(old(st.lines)), ticketId).Some?
                      && r.value == Reprioritised(Find(Load(old(st.lines)), ticketId).value, priority, now)
                      && st.lines == old(st.lines) + [Entry(r.value)]
  {
    if priority !in PRIORITIES {
      return Err(InvalidPriority);
    }
    var t := st.GetTicket(ticketId);
    if t.None? {
      return Err(NotFound);
    }
    var u := Reprioritised(t.value, priority, now);
    st.SaveTicket(u);
    r := Ok(u);
  }

  /** The ticket after an assignment to `agent`. */
  function Assigned(t: Ticket, agent: Agent, now: int): (r: Ticket)
    ensures Evolves(t, r) && r.status == t.status && r.priority == t.priority && r.updatedAt == now
    ensures r.assigneeId == Some(agent.id) && r.assigneeName == Some(agent.name)
    ensures r.history == t.history + [Entry1(now, "assigned", SYSTEM_ACTOR, "assignee",
                                             OldNew(OptStr(t.assigneeName), VStr(agent.name)))]
    ensures SlaConsistent(t) ==> SlaConsistent(r)
    ensures Valid(t) ==> Valid(r)
  {
    t.(assigneeId := Some(agent.id), assigneeName := Some(agent.name), updatedAt := now,
       history := t.history + [Entry1(now, "assigned", SYSTEM_ACTOR, "assignee", OldNew(OptStr(t.assigneeName), VStr(agent.name)))])
  }

  /** `assign_ticket`: the ticket is looked up before the agent. */
  method AssignTicket(st: TicketStorage, ticketId: int, assigneeId: string, now: int)
    returns (r: Result<Ticket, ToolError>)
    modifies st
    ensures ticketId !in Ids(Load(old(st.lines))) ==> r == Err(NotFound)
    ensures ticketId in Ids(Load(old(st.lines))) && FindAgent(assigneeId).None? ==> r == Err(InvalidAssignee)
    ensures r.Err? ==> st.lines == old(st.lines)
    ensures r.Ok? ==> && Find(Load(old(st.lines)), ticketId).Some? && FindAgent(assigneeId).Some?
                      && r.value == Assigned(Find(Load(old(st.lines)), ticketId).value, FindAgent(assigneeId).value, now)
                      && st.lines == old(st.lines) + [Entry(r.value)]
  {
    var t := st.GetTicket(ticketId);
    if t.None? {
      return Err(NotFound);
    }
    var agent := FindAgent(assigneeId);
    if agent.None? {
      return Err(InvalidAssignee);
    }
    var u := Assigned(t.value, agent.value, now);
    st.SaveTicket(u);
    r := Ok(u);
  }

  /** `[tag.lower() for tag in tags if tag.lower() not in existing]`: the
      lowercased requested tags the ticket does not have yet, in request
      order; a tag requested twice is kept twice. */
  function NewTags(existing: seq<string>, tags: seq<string>): (r: seq<string>)
    ensures |r| <= |tags|
    ensures forall x :: x in r ==> x !in existing && exists i :: 0 <= i < |tags| && x == Lower(tags[i])
    ensures forall i :: 0 <= i < |tags| && Lower(tags[i]) !in existing ==> Lower(tags[i]) in r
    decreases |tags|
  {
    if |tags| == 0 then []
    else
      var rest := NewTags(existing, tags[1..]);
      assert forall i :: 0 <= i < |tags| - 1 ==> tags[1..][i] == tags[i + 1];
      (if Lower(tags[0]) !in existing then [Lower(tags[0])] else []) + rest
  }

  /** Duplicates inside one request are not collapsed. */
  lemma NewTagsKeepsRepeats()
    ensures NewTags([], ["vpn", "vpn"]) == ["vpn", "vpn"]
    ensures NewTags(["vpn"], ["VPN"]) == []
  {
    assert Lower("vpn") == "vpn";
    assert Lower("VPN") == "vpn";
  }

  /** The ticket after tags were added. */
  function TagsAdded(t: Ticket, newTags: seq<string>, now: int): (r: Ticket)
    ensures Evolves(t, r) && r.status == t.status && r.priority == t.priority && r.updatedAt == now
    ensures r.tags == t.tags + newTags
    ensures r.history == t.history + [Entry1(now, "tags_added", SYSTEM_ACTOR, "tags_added", StrList(newTags))]
    ensures SlaConsistent(t) ==> SlaConsistent(r)
    ensures Valid(t) ==> Valid(r)
  {
    t.(tags := t.tags + newTags, updatedAt := now,
       history := t.history + [Entry1(now, "tags_added", SYSTEM_ACTOR, "tags_added", StrList(newTags))])
  }

  /** `add_tags_to_ticket`: nothing is saved when no tag is new. */
  method AddTagsToTicket(st: TicketStorage, ticketId: int, tags: seq<string>, now: int)
    returns (r: Result<Ticket, ToolError>)
    modifies st
    ensures ticketId !in Ids(Load(old(st.lines))) ==> r == Err(NotFound)
    ensures ticketId in Ids(Load(old(st.lines))) ==>
      var t := Find(Load(old(st.lines)), ticketId).value;
      && (NewTags(t.tags, tags) == [] ==> r == Err(AllTagsExist))
      && (NewTags(t.tags, tags) != [] ==> r == Ok(TagsAdded(t, NewTags(t.tags, tags), now)))
    ensures r.Err? ==> st.lines == old(st.lines)
    ensures r.Ok? ==> st.lines == old(st.lines) + [Entry(r.value)]
  {
    var t := st.GetTicket(ticketId);
    if t.None? {
      return Err(NotFound);
    }
    var newTags := NewTags(t.value.tags, tags);
    if newTags == [] {
      return Err(AllTagsExist);
    }
    var u := TagsAdded(t.value, newTags, now);
    st.SaveTicket(u);
    r := Ok(u);
  }

  /** The ticket after a category change. */
  function CategorySet(t: Ticket, category: string, now: int): (r: Ticket)
    ensures Evolves(t, r) && r.status == t.status && r.priority == t.priority && r.updatedAt == now
    ensures r.category == category
    ensures r.history == t.history + [Entry1(now, "category_changed", SYSTEM_ACTOR, "category",
                                             OldNew(VStr(t.category), VStr(category)))]
    ensures SlaConsistent(t) ==> SlaConsistent(r)
    ensures Valid(t) && category in CATEGORIES ==> Valid(r)
  {
    t.(category := category, updatedAt := now,
       history := t.history + [Entry1(now, "category_changed", SYSTEM_ACTOR, "category", OldNew(VStr(t.category), VStr(category)))])
  }

  /** `set_ticket_category`: the ticket is looked up before the category is checked. */
  method SetTicketCategory(st: TicketStorage, ticketId: int, category: string, now: int)
    returns (r: Result<Ticket, ToolError>)
    modifies st
    ensures ticketId !in Ids(Load(old(st.lines))) ==> r == Err(NotFound)
    ensures ticketId in Ids(Load(old(st.lines))) && category !in CATEGORIES ==> r == Err(InvalidCategory)
    ensures r.Err? ==> st.lines == old(st.lines)
    ensures r.Ok? ==> && Find(Load(old(st.lines)), ticketId).Some?
                      && r.value == CategorySet(Find(Load(old(st.lines)), ticketId).value, category, now)
                      && st.lines == old(st.lines) + [Entry(r.value)]
  {
    var t := st.GetTicket(ticketId);
    if t.None? {
      return Err(NotFound);
    }
    if category !in CATEGORIES {
      return Err(InvalidCategory);
    }
    var u := CategorySet(t.value, category, now);
    st.SaveTicket(u);
    r := Ok(u);
  }

  /** The ticket after a due date was set. */
  function DueDateSet(t: Ticket, dueDate: int, now: int): (r: Ticket)
    ensures Evolves(t, r) && r.status == t.status && r.priority == t.priority && r.updatedAt == now
    ensures r.dueDate == Some(dueDate)
    ensures r.history == t.history + [Entry1(now, "due_date_set", SYSTEM_ACTOR, "due_date",
                                             OldNew(OptInt(t.dueDate), VInt(dueDate)))]
    ensures SlaConsistent(t) ==> SlaConsistent(r)
    ensures Valid(t) ==> Valid(r)
  {
    t.(dueDate := Some(dueDate), updatedAt := now,
       history := t.history + [Entry1(now, "due_date_set", SYSTEM_ACTOR, "due_date", OldNew(OptInt(t.dueDate), VInt(dueDate)))])
  }

  /** `set_ticket_due_date`. */
  method SetTicketDueDate(st: TicketStorage, ticketId: int, dueDate: int, now: int)
    returns (r: Result<Ticket, ToolError>)
    modifies st
    ensures r.Err? <==> ticketId !in Ids(Load(old(st.lines)))
    ensures r.Err? ==> r.error == NotFound && st.lines == old(st.lines)
    ensures r.Ok? ==> && r.value == DueDateSet(Find(Load(old(st.lines)), ticketId).value, dueDate, now)
                      && st.lines == old(st.lines) + [Entry(r.value)]
  {
    var t := st.GetTicket(ticketId);
    if t.None? {
      return Err(NotFound);
    }
    var u := DueDateSet(t.value, dueDate, now);
    st.SaveTicket(u);
    r := Ok(u);
  }

  /** `delete_ticket`: the store rewrites its file without the ticket. */
  method DeleteTicket(st: TicketStorage, ticketId: int) returns (r: Result<Ticket, ToolError>)
    modifies st
    ensures r.Err? <==> ticketId !in Ids(Load(old(st.lines)))
    ensures r.Err? ==> r.error == NotFound && st.lines == old(st.lines)
    ensures r.Ok? ==> && r.value == Find(Load(old(st.lines)), ticketId).value
                      && st.lines == Rewrite(RemoveId(Load(old(st.lines)), ticketId))
  {
    var t := st.GetTicket(ticketId);
    if t.None? {
      return Err(NotFound);
    }
    var deleted := st.DeleteTicket(ticketId);
    r := Ok(t.value);
  }

  // ------------------------------------------------------------- queries

  /** The subject or the description contains the query, ignoring case. */
  predicate QueryMatch(t: Ticket, query: string) {
    Contains(Lower(t.subject), Lower(query)) || Contains(Lower(t.description), Lower(query))
  }

  /** `if status and ticket["status"] != status: continue`. */
  predicate StatusPasses(t: Ticket, status: Option<string>) {
    !Truthy(status) || t.status == status.value
  }

  /** The tickets the search looks for, in store order. */
  function Matching(ts: seq<Ticket>, query: string, status: Option<string>): seq<Ticket>
    decreases |ts|
  {
    if |ts| == 0 then []
    else (if StatusPasses(ts[0], status) && QueryMatch(ts[0], query) then [ts[0]] else []) + Matching(ts[1..], query, status)
  }

  /** A ticket is among the matches exactly when it is stored, passes the
      status filter and matches the query. */
  lemma {:induction false} MatchingSpec(ts: seq<Ticket>, query: string, status: Option<string>)
    ensures forall t :: t in Matching(ts, query, status) <==> t in ts && StatusPasses(t, status) && QueryMatch(t, query)
    decreases |ts|
  {
    if |ts| > 0 {
      MatchingSpec(ts[1..], query, status);
      assert ts == [ts[0]] + ts[1..];
    }
  }

  /** The scan of `search_tickets` as written: after each ticket that passes
      the status filter, the scan stops once `limit` results are held. */
  function SearchScan(ts: seq<Ticket>, query: string, status: Option<string>, limit: int, acc: seq<Ticket>): (r: seq<Ticket>)
    ensures acc <= r
    ensures forall t :: t in r ==> t in acc || (t in ts && StatusPasses(t, status) && QueryMatch(t, query))
    decreases |ts|
  {
    if |ts| == 0 then acc
    else if !StatusPasses(ts[0], status) then SearchScan(ts[1..], query, status, limit, acc)
    else
      var acc' := acc + (if QueryMatch(ts[0], query) then [ts[0]] else []);
      if |acc'| >= limit then acc' else SearchScan(ts[1..], query, status, limit, acc')
  }

  /** The results `search_tickets` evidently intends: the first `limit`
      matching tickets, none for a limit of zero or less. */
  function SearchResults(ts: seq<Ticket>, query: string, status: Option<string>, limit: int): (r: seq<Ticket>)
    ensures var n := |Matching(ts, query, status)|;
      |r| == if limit < 0 then 0 else if limit < n then limit else n
    ensures r <= Matching(ts, query, status)
    ensures forall t :: t in r ==> StatusPasses(t, status) && QueryMatch(t, query)
    ensures |Matching(ts, query, status)| <= limit ==> r == Matching(ts, query, status)
  {
    MatchingSpec(ts, query, status);
    Take(Matching(ts, query, status), if limit < 0 then 0 else limit)
  }

  /** With a positive limit the scan returns exactly the intended results. */
  lemma {:induction false} SearchScanAgrees(ts: seq<Ticket>, query: string, status: Option<string>, limit: int, acc: seq<Ticket>)
    requires |acc| < limit
    ensures SearchScan(ts, query, status, limit, acc) == acc + Take(Matching(ts, query, status), limit - |acc|)
    decreases |ts|
  {
    if |ts| > 0 {
      var t := ts[0];
      var rest := Matching(ts[1..], query, status);
      var n := limit - |acc|;
      if !StatusPasses(t, status) {
        assert SearchScan(ts, query, status, limit, acc) == SearchScan(ts[1..], query, status, limit, acc);
        assert Matching(ts, query, status) == rest;
        SearchScanAgrees(ts[1..], query, status, limit, acc);
      } else if !QueryMatch(t, query) {
        assert acc + [] == acc;
        assert SearchScan(ts, query, status, limit, acc) == SearchScan(ts[1..], query, status, limit, acc);
        assert Matching(ts, query, status) == rest;
        SearchScanAgrees(ts[1..], query, status, limit, acc);
      } else {
        var acc' := acc + [t];
        assert Matching(ts, query, status) == [t] + rest;
        TakeCons(t, rest, n);
        if |acc'| < limit {
          assert SearchScan(ts, query, status, limit, acc) == SearchScan(ts[1..], query, status, limit, acc');
          SearchScanAgrees(ts[1..], query, status, limit, acc');
          Assoc(acc, [t], Take(rest, n - 1));
        } else {
          assert SearchScan(ts, query, status, limit, acc) == acc';
          assert Take(rest, n - 1) == [];
          assert [t] + [] == [t];
        }
      }
    }
  }

  /** For every limit of at least one, the scan as written is the intended search. */
  lemma SearchPositiveLimit(ts: seq<Ticket>, query: string, status: Option<string>, limit: int)
    requires limit >= 1
    ensures SearchScan(ts, query, status, limit, []) == SearchResults(ts, query, status, limit)
  {
    SearchScanAgrees(ts, query, status, limit, []);
  }

  /** With a limit of zero the scan as written still returns the first
      ticket when it matches: one ticket and an empty query give one result. */
  lemma SearchZeroLimitReturnsOne(t: Ticket)
    ensures |SearchScan([t], "", None, 0, [])| == 1
    ensures SearchResults([t], "", None, 0) == []
  {
    assert Lower("") == "";
    assert Contains(Lower(t.subject), "");
  }

  /** `search_tickets`, as written. */
  method SearchTickets(st: TicketStorage, query: string, status: Option<string>, limit: int)
    returns (results: seq<Ticket>)
    ensures results == SearchScan(Load(st.lines), query, status, limit, [])
    ensures limit >= 1 ==> results == SearchResults(Load(st.lines), query, status, limit)
  {
    var tickets := st.LoadAllTickets();
    results := [];
    var i := 0;
    while i < |tickets|
      invariant 0 <= i <= |tickets|
      invariant SearchScan(tickets, query, status, limit, []) == SearchScan(tickets[i..], query, status, limit, results)
    {
      var t := tickets[i];
      assert tickets[i..][1..] == tickets[i + 1..];
      if !StatusPasses(t, status) {
        i := i + 1;
        continue;
      }
      if QueryMatch(t, query) {
        results := results + [t];
      } else {
        assert results + [] == results;
      }
      if |results| >= limit {
        break;
      }
      i := i + 1;
    }
    if limit >= 1 {
      SearchPositiveLimit(tickets, query, status, limit);
    }
  }

  /** The statuses `get_my_open_tickets` lists. */
  predicate IsOpen(t: Ticket) {
    t.status == "new" || t.status == "open" || t.status == "pending"
  }

  /** `priority_order.get(priority, 2)`. */
  function PriorityRank(priority: string): (n: int)
    ensures 0 <= n <= 3
    ensures n == 0 <==> priority == "urgent"
    ensures n == 3 <==> priority == "low"
  {
    if priority == "urgent" then 0 else if priority == "high" then 1 else if priority == "low" then 3 else 2
  }

  /** The sort key of the open-ticket list: priority rank, then creation time. */
  function OpenKey(t: Ticket): Key {
    Key(PriorityRank(t.priority), t.createdAt)
  }

  /** The open tickets in store order. */
  function OpenTickets(ts: seq<Ticket>): (r: seq<Ticket>)
    ensures forall t :: t in r <==> t in ts && IsOpen(t)
    decreases |ts|
  {
    if |ts| == 0 then [] else (if IsOpen(ts[0]) then [ts[0]] else []) + OpenTickets(ts[1..])
  }

  /** `get_my_open_tickets`: the open tickets, most urgent first and oldest
      first within a priority, cut to `limit` (Python slicing). */
  function MyOpenTickets(ts: seq<Ticket>, limit: int): (r: seq<Ticket>)
    ensures |r| == SliceBound(limit, |OpenTickets(ts)|)
    ensures multiset(r) <= multiset(OpenTickets(ts))
  {
    SortedTake(OpenTickets(ts), OpenKey, limit);
    PyPrefix(SortBy(OpenTickets(ts), OpenKey), limit)
  }

  /** Only open tickets are listed, ordered by rank then creation time; with
      room for all, every open ticket is listed exactly as often as it is
      stored. Otherwise the slice keeps the `limit` most urgent, oldest open
      tickets (a negative limit drops that many from the end), and among
      tickets with the same rank and creation time the ones stored first. */
  lemma MyOpenTicketsSpec(ts: seq<Ticket>, limit: int)
    ensures forall t :: t in MyOpenTickets(ts, limit) ==> t in ts && IsOpen(t)
    ensures SortedBy(MyOpenTickets(ts, limit), OpenKey)
    ensures var l := MyOpenTickets(ts, limit);
      var open := OpenTickets(ts);
      && |l| == SliceBound(limit, |open|)
      && multiset(l) <= multiset(open)
      && (forall u, t :: u in l && t in multiset(open) - multiset(l) ==> KeyLe(OpenKey(u), OpenKey(t)))
      && (forall k :: Filter(l, WithKey(OpenKey, k)) <= Filter(open, WithKey(OpenKey, k)))
    ensures limit >= |OpenTickets(ts)| ==> multiset(MyOpenTickets(ts, limit)) == multiset(OpenTickets(ts))
  {
    var open := OpenTickets(ts);
    var sorted := SortBy(open, OpenKey);
    SortBySpec(open, OpenKey);
    SortedTake(open, OpenKey, limit);
    var r := MyOpenTickets(ts, limit);
    SortedPrefix(sorted, OpenKey, |r|);
    assert r == sorted[..|r|];
    forall t | t in r ensures t in ts && IsOpen(t) {
      SortByMembers(open, OpenKey, t);
    }
    if limit >= |open| {
      assert r == sorted;
    }
  }

  /** The method form of `get_my_open_tickets`, reading the store. */
  method GetMyOpenTickets(st: TicketStorage, limit: int) returns (r: seq<Ticket>)
    ensures r == MyOpenTickets(Load(st.lines), limit)
    ensures forall t :: t in r ==> t in Load(st.lines) && IsOpen(t)
    ensures SortedBy(r, OpenKey)
  {
    var tickets := st.LoadAllTickets();
    r := MyOpenTickets(tickets, limit);
    MyOpenTicketsSpec(tickets, limit);
  }
}
