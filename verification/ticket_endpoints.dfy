/** The ticket CRUD endpoints of api/ticket_endpoints.py. They share the store
    and the SLA helpers with the ticket tools but apply their own updates: an
    update through the endpoint changes the priority without recomputing the
    due times, and records one "updated" history entry for all its fields. */
module TicketEndpoints {
  import opened Common
  import opened Tickets
  import opened TicketStore
  import opened Sorting
  import opened TicketTools

  /** The logged-in user (config/user_context.py), as the endpoints use it. */
  datatype UserProfile = UserProfile(email: string, displayName: string)

  datatype CreateRequest = CreateRequest(subject: string, description: string, priority: string,
                                         requesterEmail: Option<string>, requesterName: Option<string>)

  datatype UpdateRequest = UpdateRequest(status: Option<string>, priority: Option<string>, comment: Option<string>)

  /** A ticket list with the count the endpoint reports. */
  datatype TicketList = TicketList(tickets: seq<Ticket>, total: int)

  function NotFoundError(id: int): HttpError {
    HttpError(404, "Ticket #" + IntToString(id) + " not found")
  }

  function InvalidStatusError(): HttpError {
    HttpError(400, "Invalid status. Valid options: " + Join(STATUSES, ", "))
  }

  function InvalidPriorityError(): HttpError {
    HttpError(400, "Invalid priority. Valid options: " + Join(PRIORITIES, ", "))
  }

  // --------------------------------------------------------------- listing

  /** `sort(key=created_at, reverse=True)`: newest first, store order among equals. */
  function NewestFirst(t: Ticket): Key {
    Key(-t.createdAt, 0)
  }

  predicate HasStatus(t: Ticket, status: Option<string>) {
    !Truthy(status) || t.status == status.value
  }

  function WithStatus(ts: seq<Ticket>, status: Option<string>): (r: seq<Ticket>)
    ensures forall t :: t in r <==> t in ts && HasStatus(t, status)
    decreases |ts|
  {
    if |ts| == 0 then [] else (if HasStatus(ts[0], status) then [ts[0]] else []) + WithStatus(ts[1..], status)
  }

  /** The list `list_tickets` answers for the stored tickets `ts`. */
  function ListTickets(ts: seq<Ticket>, status: Option<string>, limit: int): (r: Result<TicketList, HttpError>)
    ensures r.Err? <==> Truthy(status) && status.value !in STATUSES
    ensures r.Err? ==> r.error == InvalidStatusError()
    ensures r.Ok? ==> r.value.total == |r.value.tickets|
  {
    if Truthy(status) && status.value !in STATUSES then Err(InvalidStatusError())
    else
      var listed := PyPrefix(SortBy(WithStatus(ts, status), NewestFirst), limit);
      Ok(TicketList(listed, |listed|))
  }

  /** Only stored tickets with the requested status are listed, newest
      first, and every one when there is room. Otherwise the slice keeps the
      `limit` newest of them (a negative limit drops that many from the end),
      and among tickets created at the same time the ones stored first. */
  lemma ListTicketsSpec(ts: seq<Ticket>, status: Option<string>, limit: int)
    requires !Truthy(status) || status.value in STATUSES
    ensures var l := ListTickets(ts, status, limit).value.tickets;
      var w := WithStatus(ts, status);
      && (forall t :: t in l ==> t in ts && HasStatus(t, status))
      && (forall i, j :: 0 <= i < j < |l| ==> l[i].createdAt >= l[j].createdAt)
      && |l| == SliceBound(limit, |w|)
      && multiset(l) <= multiset(w)
      && (forall u, t :: u in l && t in multiset(w) - multiset(l) ==> u.createdAt >= t.createdAt)
      && (forall k :: Filter(l, WithKey(NewestFirst, k)) <= Filter(w, WithKey(NewestFirst, k)))
      && (limit >= |w| ==> multiset(l) == multiset(w))
  {
    var w := WithStatus(ts, status);
    var sorted := SortBy(w, NewestFirst);
    SortBySpec(w, NewestFirst);
    SortedTake(w, NewestFirst, limit);
    var l := ListTickets(ts, status, limit).value.tickets;
    forall u, t | u in l && t in multiset(w) - multiset(l) ensures u.createdAt >= t.createdAt {
      assert KeyLe(NewestFirst(u), NewestFirst(t));
    }
    assert l == sorted[..|l|];
    SortedPrefix(sorted, NewestFirst, |l|);
    forall i, j | 0 <= i < j < |l| ensures l[i].createdAt >= l[j].createdAt {
      assert KeyLe(NewestFirst(l[i]), NewestFirst(l[j]));
    }
    forall t | t in l ensures t in ts && HasStatus(t, status) {
      SortByMembers(w, NewestFirst, t);
    }
    if limit >= |w| {
      assert l == sorted;
    }
  }

  /** `list_tickets`. */
  method ListTicketsEndpoint(st: TicketStorage, status: Option<string>, limit: int)
    returns (r: Result<TicketList, HttpError>)
    ensures r == ListTickets(Load(st.lines), status, limit)
  {
    var tickets := st.LoadAllTickets();
    r := ListTickets(tickets, status, limit);
  }

  /** `get_agents`: the agent table. */
  function GetAgents(): (agents: seq<Agent>)
    ensures |agents| == 4 && AgentIds(agents) == ["agent_1", "agent_2", "agent_3", "agent_4"]
  {
    AgentTable();
    AGENTS
  }

  /** `get_ticket_detail`. */
  method GetTicketDetail(st: TicketStorage, ticketId: int) returns (r: Result<Ticket, HttpError>)
    ensures r.Err? <==> ticketId !in Ids(Load(st.lines))
    ensures r.Err? ==> r.error == NotFoundError(ticketId)
    ensures r.Ok? ==> LastEntry(st.lines, ticketId) == Some(r.value) && r.value.id == ticketId
  {
    var t := st.GetTicket(ticketId);
    if t.None? {
      return Err(NotFoundError(ticketId));
    }
    r := Ok(t.value);
  }

  // -------------------------------------------------------------- creation

  /** `create_new_ticket`: the requester defaults to the logged-in user, and
      an unknown priority is rejected rather than coerced. */
  method CreateNewTicket(st: TicketStorage, req: CreateRequest, user: UserProfile, now: int)
    returns (r: Result<Ticket, HttpError>)
    modifies st
    ensures req.priority !in PRIORITIES <==> r.Err?
    ensures r.Err? ==> r.error == InvalidPriorityError() && st.lines == old(st.lines)
    ensures r.Ok? ==>
      var name := if Truthy(req.requesterName) then req.requesterName.value else user.displayName;
      && r.value == CreatedTicket(NextId(Load(old(st.lines))), req.subject, req.description, req.priority,
                                  if Truthy(req.requesterEmail) then req.requesterEmail.value else user.email,
                                  name, name, now)
      && st.lines == old(st.lines) + [Entry(r.value)]
  {
    var email := if Truthy(req.requesterEmail) then req.requesterEmail.value else user.email;
    var name := if Truthy(req.requesterName) then req.requesterName.value else user.displayName;
    if req.priority !in PRIORITIES {
      return Err(InvalidPriorityError());
    }
    var id := st.GetNextId();
    var t := CreatedTicket(id, req.subject, req.description, req.priority, email, name, name, now);
    st.SaveTicket(t);
    r := Ok(t);
  }

  // ---------------------------------------------------------------- update

  /** The status part of `update_ticket`: moving to open or pending records
      the first response, moving to solved or closed the resolution (each
      only when unset), and the breach flags are recomputed. */
  function StatusApplied(t: Ticket, status: string, now: int): (r: Ticket)
    ensures Evolves(t, r) && r.status == status && r.priority == t.priority
    ensures r.firstResponseAt == if (status == "open" || status == "pending") && t.firstResponseAt.None? then Some(now) else t.firstResponseAt
    ensures r.resolvedAt == if Resolving(status) && t.resolvedAt.None? then Some(now) else t.resolvedAt
    ensures r.slaBreach == Some(CheckSlaBreach(t.createdAt, t.priority, r.firstResponseAt, r.resolvedAt, now))
    ensures r.comments == t.comments && r.history == t.history
  {
    var fr := if (status == "open" || status == "pending") && t.firstResponseAt.None? then Some(now) else t.firstResponseAt;
    var rs := if Resolving(status) && t.resolvedAt.None? then Some(now) else t.resolvedAt;
    t.(status := status, firstResponseAt := fr, resolvedAt := rs,
       slaBreach := Some(CheckSlaBreach(t.createdAt, t.priority, fr, rs, now)))
  }

  /** The "changes" of the "updated" history entry. */
  function UpdateChanges(t: Ticket, req: UpdateRequest): (changes: Payload)
    ensures "status" in changes <==> Truthy(req.status)
    ensures "priority" in changes <==> Truthy(req.priority)
    ensures "comment_added" in changes <==> Truthy(req.comment)
  {
    var c1: Payload := if Truthy(req.status) then map["status" := OldNew(VStr(t.status), VStr(req.status.value))] else map[];
    var c2 := if Truthy(req.priority) then c1["priority" := OldNew(VStr(t.priority), VStr(req.priority.value))] else c1;
    if Truthy(req.comment) then c2["comment_added" := VBool(true)] else c2
  }

  /** Whether the request names any field. */
  predicate AnyField(req: UpdateRequest) {
    Truthy(req.status) || Truthy(req.priority) || Truthy(req.comment)
  }

  /** The ticket `update_ticket` saves for a valid request. */
  function Updated(t: Ticket, req: UpdateRequest, now: int): (r: Ticket)
    ensures Evolves(t, r) && r.updatedAt == now
    ensures r.status == if Truthy(req.status) then req.status.value else t.status
    ensures r.priority == if Truthy(req.priority) then req.priority.value else t.priority
    ensures r.comments == t.comments + (if Truthy(req.comment) then [Comment(AGENT_ACTOR, req.comment.value, true, now)] else [])
    ensures r.slaFirstResponseDue == t.slaFirstResponseDue && r.slaResolutionDue == t.slaResolutionDue
    ensures r.history == t.history + (if AnyField(req) then [HistoryEntry(now, "updated", AGENT_ACTOR, UpdateChanges(t, req))] else [])
    ensures !Truthy(req.status) ==> r.firstResponseAt == t.firstResponseAt && r.resolvedAt == t.resolvedAt && r.slaBreach == t.slaBreach
    ensures (&& Valid(t) && (!Truthy(req.status) || req.status.value in STATUSES)
             && (!Truthy(req.priority) || req.priority.value in PRIORITIES)) ==> Valid(r)
  {
    var s1 := if Truthy(req.status) then StatusApplied(t, req.status.value, now) else t;
    var s2 := if Truthy(req.priority) then s1.(priority := req.priority.value) else s1;
    var s3 := if Truthy(req.comment) then s2.(comments := s2.comments + [Comment(AGENT_ACTOR, req.comment.value, true, now)]) else s2;
    s3.(updatedAt := now,
        history := s3.history + (if AnyField(req) then [HistoryEntry(now, "updated", AGENT_ACTOR, UpdateChanges(t, req))] else []))
  }

  /** Unlike `update_ticket_priority`, a priority change through the
      endpoint keeps the due times of the old priority: a consistent low
      priority ticket raised to urgent is no longer consistent. */
  lemma EndpointPriorityKeepsDues(t: Ticket, now: int)
    requires SlaConsistent(t) && t.priority == "low"
    ensures !SlaConsistent(Updated(t, UpdateRequest(None, Some("urgent"), None), now))
    ensures SlaConsistent(Reprioritised(t, "urgent", now))
  {
  }

  /** Solving a ticket through the endpoint records no first response, even
      when none was recorded; solving it through the tool with a comment does. */
  lemma EndpointSolveWithoutResponse(t: Ticket, now: int)
    requires t.firstResponseAt.None? && t.comments == []
    ensures Updated(t, UpdateRequest(Some("solved"), None, Some("done")), now).firstResponseAt.None?
    ensures StatusUpdated(t, "solved", Some("done"), now).firstResponseAt == Some(now)
  {
  }

  /** `update_ticket`: not found first, then an invalid status, then an
      invalid priority; the ticket is saved on success even when the request
      names no field. */
  method UpdateTicket(st: TicketStorage, ticketId: int, req: UpdateRequest, now: int)
    returns (r: Result<Ticket, HttpError>)
    modifies st
    ensures ticketId !in Ids(Load(old(st.lines))) ==> r == Err(NotFoundError(ticketId))
    ensures ticketId in Ids(Load(old(st.lines))) && Truthy(req.status) && req.status.value !in STATUSES
            ==> r == Err(InvalidStatusError())
    ensures (&& ticketId in Ids(Load(old(st.lines))) && (!Truthy(req.status) || req.status.value in STATUSES)
             && Truthy(req.priority) && req.priority.value !in PRIORITIES) ==> r == Err(InvalidPriorityError())
    ensures r.Err? ==> st.lines == old(st.lines)
    ensures r.Ok? ==> && Find(Load(old(st.lines)), ticketId).Some?
                      && r.value == Updated(Find(Load(old(st.lines)), ticketId).value, req, now)
                      && st.lines == old(st.lines) + [Entry(r.value)]
  {
    var t := st.GetTicket(ticketId);
    if t.None? {
      return Err(NotFoundError(ticketId));
    }
    if Truthy(req.status) && req.status.value !in STATUSES {
      return Err(InvalidStatusError());
    }
    if Truthy(req.priority) && req.priority.value !in PRIORITIES {
      return Err(InvalidPriorityError());
    }
    var u := Updated(t.value, req, now);
    st.SaveTicket(u);
    r := Ok(u);
  }

  /** `delete_ticket`. */
  method DeleteTicketEndpoint(st: TicketStorage, ticketId: int) returns (r: Result<int, HttpError>)
    modifies st
    ensures r.Err? <==> ticketId !in Ids(Load(old(st.lines)))
    ensures r.Err? ==> r.error == NotFoundError(ticketId) && st.lines == old(st.lines)
    ensures r.Ok? ==> r.value == ticketId && st.lines == Rewrite(RemoveId(Load(old(st.lines)), ticketId))
  {
    var t := st.GetTicket(ticketId);
    if t.None? {
      return Err(NotFoundError(ticketId));
    }
    var deleted := st.DeleteTicket(ticketId);
    r := Ok(ticketId);
  }

  // ----------------------------------------------------------------- stats

  /** A `defaultdict(int)` turned into a dict: counts in first-seen order. */
  type Tally = seq<(string, int)>

  function Keys(tally: Tally): seq<string> {
    MapSeq(tally, (e: (string, int)) => e.0)
  }

  /** `tally[k]`, 0 when absent. */
  function Lookup(tally: Tally, k: string): int
    decreases |tally|
  {
    if |tally| == 0 then 0 else if tally[0].0 == k then tally[0].1 else Lookup(tally[1..], k)
  }

  function Sum(tally: Tally): int
    decreases |tally|
  {
    if |tally| == 0 then 0 else tally[0].1 + Sum(tally[1..])
  }

  lemma KeysCons(e: (string, int), rest: Tally)
    ensures Keys([e] + rest) == [e.0] + Keys(rest)
  {
  }

  /** `tally[k] += 1`: an existing key is counted in place, a new one appended. */
  function Bump(tally: Tally, k: string): Tally
    decreases |tally|
  {
    if |tally| == 0 then [(k, 1)]
    else if tally[0].0 == k then [(k, tally[0].1 + 1)] + tally[1..]
    else [tally[0]] + Bump(tally[1..], k)
  }

  /** Bumping keeps the keys of the table and appends a new key at the end. */
  lemma {:induction false} BumpKeys(tally: Tally, k: string)
    ensures k in Keys(tally) ==> Keys(Bump(tally, k)) == Keys(tally)
    ensures k !in Keys(tally) ==> Keys(Bump(tally, k)) == Keys(tally) + [k]
    decreases |tally|
  {
    if |tally| > 0 {
      assert tally == [tally[0]] + tally[1..];
      KeysCons(tally[0], tally[1..]);
      if tally[0].0 == k {
        KeysCons((k, tally[0].1 + 1), tally[1..]);
      } else {
        BumpKeys(tally[1..], k);
        KeysCons(tally[0], Bump(tally[1..], k));
      }
    }
  }

  /** Bumping a key adds one to its count and to the sum and leaves every
      other count alone. */
  lemma {:induction false} BumpSpec(tally: Tally, k: string)
    ensures Lookup(Bump(tally, k), k) == Lookup(tally, k) + 1
    ensures forall x :: x != k ==> Lookup(Bump(tally, k), x) == Lookup(tally, x)
    ensures Sum(Bump(tally, k)) == Sum(tally) + 1
    decreases |tally|
  {
    if |tally| > 0 && tally[0].0 != k {
      BumpSpec(tally[1..], k);
      var r := Bump(tally, k);
      assert r == [tally[0]] + Bump(tally[1..], k);
      assert r[0] == tally[0] && r[1..] == Bump(tally[1..], k);
    } else if |tally| > 0 {
      var r := Bump(tally, k);
      assert r[1..] == tally[1..];
    }
  }

  /** The tally of `keys`, counted in order. */
  function TallyOf(keys: seq<string>): Tally
    decreases |keys|
  {
    if |keys| == 0 then [] else Bump(TallyOf(keys[..|keys| - 1]), keys[|keys| - 1])
  }

  /** Each key is counted as often as it occurs, each once in the table,
      and the counts add up to the number of keys. */
  lemma TallySpec(keys: seq<string>)
    ensures forall x :: Lookup(TallyOf(keys), x) == multiset(keys)[x]
    ensures Sum(TallyOf(keys)) == |keys|
    ensures NoDup(Keys(TallyOf(keys)))
    ensures forall x :: x in Keys(TallyOf(keys)) <==> x in keys
  {
    TallyCounts(keys);
    TallyKeys(keys);
  }

  lemma {:induction false} TallyCounts(keys: seq<string>)
    ensures forall x :: Lookup(TallyOf(keys), x) == multiset(keys)[x]
    ensures Sum(TallyOf(keys)) == |keys|
    decreases |keys|
  {
    if |keys| > 0 {
      var init := keys[..|keys| - 1];
      var k := keys[|keys| - 1];
      TallyCounts(init);
      assert TallyOf(keys) == Bump(TallyOf(init), k);
      BumpSpec(TallyOf(init), k);
      assert keys == init + [k];
      assert multiset(keys) == multiset(init) + multiset{k};
    }
  }

  lemma {:induction false} TallyKeys(keys: seq<string>)
    ensures NoDup(Keys(TallyOf(keys)))
    ensures forall x :: x in Keys(TallyOf(keys)) <==> x in keys
    decreases |keys|
  {
    if |keys| > 0 {
      var init := keys[..|keys| - 1];
      var k := keys[|keys| - 1];
      TallyKeys(init);
      assert TallyOf(keys) == Bump(TallyOf(init), k);
      BumpKeys(TallyOf(init), k);
      assert keys == init + [k];
      var before := Keys(TallyOf(init));
      var after := Keys(TallyOf(keys));
      if k !in before {
        assert after == before + [k];
        forall i, j | 0 <= i < j < |after| ensures after[i] != after[j] {
          if j == |before| {
            assert after[i] == before[i] && before[i] in before;
          }
        }
      }
    }
  }

  function Statuses(ts: seq<Ticket>): (ks: seq<string>)
    ensures |ks| == |ts| && forall i :: 0 <= i < |ts| ==> ks[i] == ts[i].status
  {
    seq(|ts|, i requires 0 <= i < |ts| => ts[i].status)
  }

  function Priorities(ts: seq<Ticket>): (ks: seq<string>)
    ensures |ks| == |ts| && forall i :: 0 <= i < |ts| ==> ks[i] == ts[i].priority
  {
    seq(|ts|, i requires 0 <= i < |ts| => ts[i].priority)
  }

  datatype Stats = Stats(total: int, byStatus: Tally, byPriority: Tally)

  /** `get_ticket_stats`: counts per status and per priority over the stored
      tickets, in the order each value is first met. */
  method GetTicketStats(st: TicketStorage) returns (stats: Stats)
    ensures stats.total == |Load(st.lines)|
    ensures stats.byStatus == TallyOf(Statuses(Load(st.lines)))
    ensures stats.byPriority == TallyOf(Priorities(Load(st.lines)))
  {
    var tickets := st.LoadAllTickets();
    var byStatus: Tally := [];
    var byPriority: Tally := [];
    var i := 0;
    while i < |tickets|
      invariant 0 <= i <= |tickets|
      invariant byStatus == TallyOf(Statuses(tickets[..i]))
      invariant byPriority == TallyOf(Priorities(tickets[..i]))
    {
      assert Statuses(tickets[..i + 1])[..i] == Statuses(tickets[..i]);
      assert Priorities(tickets[..i + 1])[..i] == Priorities(tickets[..i]);
      byStatus := Bump(byStatus, tickets[i].status);
      byPriority := Bump(byPriority, tickets[i].priority);
      i := i + 1;
    }
    assert tickets[..i] == tickets;
    stats := Stats(|tickets|, byStatus, byPriority);
  }

  /** Every stored ticket is counted once under its status and once under
      its priority, and both tables add up to the total. */
  lemma StatsSpec(ts: seq<Ticket>, status: string)
    ensures Sum(TallyOf(Statuses(ts))) == |ts| && Sum(TallyOf(Priorities(ts))) == |ts|
    ensures status != "" ==> Lookup(TallyOf(Statuses(ts)), status) == |WithStatus(ts, Some(status))|
  {
    TallySpec(Statuses(ts));
    TallySpec(Priorities(ts));
    if status != "" {
      StatusCount(ts, status);
    }
  }

  /** The number of tickets with a status is its multiplicity in the statuses. */
  lemma {:induction false} StatusCount(ts: seq<Ticket>, status: string)
    requires status != ""
    ensures multiset(Statuses(ts))[status] == |WithStatus(ts, Some(status))|
    decreases |ts|
  {
    if |ts| > 0 {
      StatusCount(ts[1..], status);
      assert Statuses(ts) == [ts[0].status] + Statuses(ts[1..]);
    }
  }
}
