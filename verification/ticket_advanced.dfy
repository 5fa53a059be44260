/** The advanced ticket endpoints of api/ticket_advanced_endpoints.py:
    assignment, tags and category through HTTP, the multi-filter search and
    the bulk update. The single-ticket endpoints apply the same updates as
    the matching ticket tools. */
module TicketAdvanced {
  import opened Common
  import opened Tickets
  import opened TicketStore
  import opened Sorting
  import opened TicketTools
  import opened TicketEndpoints

  // ------------------------------------------------- single-ticket updates

  /** `assign_ticket_endpoint`: not found first, then an unknown agent. */
  method AssignTicketEndpoint(st: TicketStorage, ticketId: int, assigneeId: string, now: int)
    returns (r: Result<Ticket, HttpError>)
    modifies st
    ensures ticketId !in Ids(Load(old(st.lines))) ==> r == Err(NotFoundError(ticketId))
    ensures ticketId in Ids(Load(old(st.lines))) && FindAgent(assigneeId).None?
            ==> r == Err(HttpError(400, "Invalid assignee ID"))
    ensures r.Err? ==> st.lines == old(st.lines)
    ensures r.Ok? ==> && Find(Load(old(st.lines)), ticketId).Some? && FindAgent(assigneeId).Some?
                      && r.value == Assigned(Find(Load(old(st.lines)), ticketId).value, FindAgent(assigneeId).value, now)
                      && st.lines == old(st.lines) + [Entry(r.value)]
  {
    var t := st.GetTicket(ticketId);
    if t.None? {
      return Err(NotFoundError(ticketId));
    }
    var agent := FindAgent(assigneeId);
    if agent.None? {
      return Err(HttpError(400, "Invalid assignee ID"));
    }
    var u := Assigned(t.value, agent.value, now);
    st.SaveTicket(u);
    r := Ok(u);
  }

  /** What the tags endpoint answers: the ticket and the tags it gained. */
  datatype TagsAnswer = TagsAnswer(ticket: Ticket, newTags: seq<string>)

  /** `add_tags_endpoint`: answers the ticket unchanged, and saves nothing,
      when no tag is new. */
  method AddTagsEndpoint(st: TicketStorage, ticketId: int, tags: seq<string>, now: int)
    returns (r: Result<TagsAnswer, HttpError>)
    modifies st
    ensures r.Err? <==> ticketId !in Ids(Load(old(st.lines)))
    ensures r.Err? ==> r.error == NotFoundError(ticketId) && st.lines == old(st.lines)
    ensures r.Ok? ==>
      var t := Find(Load(old(st.lines)), ticketId).value;
      && r.value.newTags == NewTags(t.tags, tags)
      && (r.value.newTags == [] ==> r.value.ticket == t && st.lines == old(st.lines))
      && (r.value.newTags != [] ==> && r.value.ticket == TagsAdded(t, r.value.newTags, now)
                                    && st.lines == old(st.lines) + [Entry(r.value.ticket)])
  {
    var t := st.GetTicket(ticketId);
    if t.None? {
      return Err(NotFoundError(ticketId));
    }
    var newTags := NewTags(t.value.tags, tags);
    if newTags == [] {
      return Ok(TagsAnswer(t.value, []));
    }
    var u := TagsAdded(t.value, newTags, now);
    st.SaveTicket(u);
    r := Ok(TagsAnswer(u, newTags));
  }

  /** `set_category_endpoint`: not found first, then an unknown category. */
  method SetCategoryEndpoint(st: TicketStorage, ticketId: int, category: string, now: int)
    returns (r: Result<Ticket, HttpError>)
    modifies st
    ensures ticketId !in Ids(Load(old(st.lines))) ==> r == Err(NotFoundError(ticketId))
    ensures ticketId in Ids(Load(old(st.lines))) && category !in CATEGORIES
            ==> r == Err(HttpError(400, "Invalid category"))
    ensures r.Err? ==> st.lines == old(st.lines)
    ensures r.Ok? ==> && Find(Load(old(st.lines)), ticketId).Some?
                      && r.value == CategorySet(Find(Load(old(st.lines)), ticketId).value, category, now)
                      && st.lines == old(st.lines) + [Entry(r.value)]
  {
    var t := st.GetTicket(ticketId);
    if t.None? {
      return Err(NotFoundError(ticketId));
    }
    if category !in CATEGORIES {
      return Err(HttpError(400, "Invalid category"));
    }
    var u := CategorySet(t.value, category, now);
    st.SaveTicket(u);
    r := Ok(u);
  }

  // ------------------------------------------------------ advanced search

  /** The query parameters of `advanced_search`; dates are minutes. */
  datatype SearchQuery = SearchQuery(
    query: Option<string>, status: Option<string>, priority: Option<string>,
    assigneeId: Option<string>, category: Option<string>, tags: Option<string>,
    slaBreached: Option<bool>, createdAfter: Option<int>, createdBefore: Option<int>, limit: int)

  /** `[tag.strip().lower() for tag in tags.split(",")]`. */
  function TagList(tags: string): (r: seq<string>)
    ensures |r| == |Split(tags, ',')|
    ensures forall i :: 0 <= i < |r| ==> r[i] == Lower(Strip(Split(tags, ',')[i]))
  {
    var parts := Split(tags, ',');
    seq(|parts|, i requires 0 <= i < |parts| => Lower(Strip(parts[i])))
  }

  /** The ticket carries one of the listed tags. */
  predicate AnyTag(t: Ticket, tagList: seq<string>) {
    exists i :: 0 <= i < |tagList| && tagList[i] in t.tags
  }

  /** The k-th filter of the search, in the order the endpoint applies them;
      a filter whose parameter is absent keeps every ticket. */
  predicate Passes(t: Ticket, q: SearchQuery, k: nat) {
    if k == 0 then !Truthy(q.query) || QueryMatch(t, q.query.value)
    else if k == 1 then !Truthy(q.status) || t.status == q.status.value
    else if k == 2 then !Truthy(q.priority) || t.priority == q.priority.value
    else if k == 3 then !Truthy(q.assigneeId) || t.assigneeId == Some(q.assigneeId.value)
    else if k == 4 then !Truthy(q.category) || t.category == q.category.value
    else if k == 5 then !Truthy(q.tags) || AnyTag(t, TagList(q.tags.value))
    else if k == 6 then q.slaBreached.None? || (t.slaBreach.Some? && t.slaBreach.value.resolutionBreached == q.slaBreached.value)
    else if k == 7 then q.createdAfter.None? || t.createdAt >= q.createdAfter.value
    else if k == 8 then q.createdBefore.None? || t.createdAt <= q.createdBefore.value
    else true
  }

  const FILTERS := 9

  /** One list comprehension of the search. */
  function Keep(ts: seq<Ticket>, q: SearchQuery, k: nat): (r: seq<Ticket>)
    decreases |ts|
  {
    if |ts| == 0 then [] else (if Passes(ts[0], q, k) then [ts[0]] else []) + Keep(ts[1..], q, k)
  }

  /** The first k filters applied one after the other. */
  function Chain(ts: seq<Ticket>, q: SearchQuery, k: nat): seq<Ticket>
    decreases k
  {
    if k == 0 then ts else Keep(Chain(ts, q, k - 1), q, k - 1)
  }

  /** The ticket passes every one of the first k filters. */
  predicate PassesAll(t: Ticket, q: SearchQuery, k: nat) {
    forall j :: 0 <= j < k ==> Passes(t, q, j)
  }

  /** The tickets passing the first k filters, in store order. */
  function KeepAll(ts: seq<Ticket>, q: SearchQuery, k: nat): (r: seq<Ticket>)
    ensures forall t :: t in r <==> t in ts && PassesAll(t, q, k)
    decreases |ts|
  {
    if |ts| == 0 then [] else (if PassesAll(ts[0], q, k) then [ts[0]] else []) + KeepAll(ts[1..], q, k)
  }

  lemma {:induction false} KeepStep(ts: seq<Ticket>, q: SearchQuery, k: nat)
    ensures Keep(KeepAll(ts, q, k), q, k) == KeepAll(ts, q, k + 1)
    decreases |ts|
  {
    if |ts| > 0 {
      KeepStep(ts[1..], q, k);
      var t := ts[0];
      assert PassesAll(t, q, k + 1) <==> PassesAll(t, q, k) && Passes(t, q, k);
      var rest := KeepAll(ts[1..], q, k);
      if PassesAll(t, q, k) {
        assert KeepAll(ts, q, k) == [t] + rest;
        assert ([t] + rest)[1..] == rest;
        assert Keep([t] + rest, q, k) == (if Passes(t, q, k) then [t] else []) + Keep(rest, q, k);
      } else {
        assert KeepAll(ts, q, k) == rest;
      }
      assert KeepAll(ts, q, k + 1) == (if PassesAll(t, q, k + 1) then [t] else []) + KeepAll(ts[1..], q, k + 1);
    }
  }

  /** Filtering one parameter after another keeps, in store order, exactly
      the tickets that pass all the filters. */
  lemma {:induction false} ChainIsConjunction(ts: seq<Ticket>, q: SearchQuery, k: nat)
    ensures Chain(ts, q, k) == KeepAll(ts, q, k)
    decreases k
  {
    if k == 0 {
      KeepNone(ts, q);
    } else {
      ChainIsConjunction(ts, q, k - 1);
      assert Chain(ts, q, k) == Keep(KeepAll(ts, q, k - 1), q, k - 1);
      KeepStep(ts, q, k - 1);
    }
  }

  lemma {:induction false} KeepNone(ts: seq<Ticket>, q: SearchQuery)
    ensures KeepAll(ts, q, 0) == ts
    decreases |ts|
  {
    if |ts| > 0 {
      KeepNone(ts[1..], q);
    }
  }

  /** `advanced_search` over the stored tickets `ts`. */
  function AdvancedSearch(ts: seq<Ticket>, q: SearchQuery): (r: TicketList)
    ensures r.total == |r.tickets| == SliceBound(q.limit, |KeepAll(ts, q, FILTERS)|)
    ensures multiset(r.tickets) <= multiset(KeepAll(ts, q, FILTERS))
  {
    ChainIsConjunction(ts, q, FILTERS);
    SortedTake(KeepAll(ts, q, FILTERS), NewestFirst, q.limit);
    var found := PyPrefix(SortBy(Chain(ts, q, FILTERS), NewestFirst), q.limit);
    TicketList(found, |found|)
  }

  /** Every ticket found passes every given filter, the results are newest
      first, and with room for all every stored ticket passing the filters is
      found. Otherwise the slice keeps the `limit` newest matches (a negative
      limit drops that many from the end), and among matches created at the
      same time the ones stored first. */
  lemma AdvancedSearchSpec(ts: seq<Ticket>, q: SearchQuery)
    ensures forall t :: t in AdvancedSearch(ts, q).tickets ==> t in ts && PassesAll(t, q, FILTERS)
    ensures var l := AdvancedSearch(ts, q).tickets;
      forall i, j :: 0 <= i < j < |l| ==> l[i].createdAt >= l[j].createdAt
    ensures var l := AdvancedSearch(ts, q).tickets;
      var w := KeepAll(ts, q, FILTERS);
      && |l| == SliceBound(q.limit, |w|)
      && multiset(l) <= multiset(w)
      && (forall u, t :: u in l && t in multiset(w) - multiset(l) ==> u.createdAt >= t.createdAt)
      && (forall k :: Filter(l, WithKey(NewestFirst, k)) <= Filter(w, WithKey(NewestFirst, k)))
    ensures q.limit >= |KeepAll(ts, q, FILTERS)| ==>
      multiset(AdvancedSearch(ts, q).tickets) == multiset(KeepAll(ts, q, FILTERS))
  {
    ChainIsConjunction(ts, q, FILTERS);
    var w := KeepAll(ts, q, FILTERS);
    var sorted := SortBy(w, NewestFirst);
    SortBySpec(w, NewestFirst);
    SortedTake(w, NewestFirst, q.limit);
    var l := AdvancedSearch(ts, q).tickets;
    forall u, t | u in l && t in multiset(w) - multiset(l) ensures u.createdAt >= t.createdAt {
      assert KeyLe(NewestFirst(u), NewestFirst(t));
    }
    assert l == sorted[..|l|];
    SortedPrefix(sorted, NewestFirst, |l|);
    forall i, j | 0 <= i < j < |l| ensures l[i].createdAt >= l[j].createdAt {
      assert KeyLe(NewestFirst(l[i]), NewestFirst(l[j]));
    }
    forall t | t in l ensures t in ts && PassesAll(t, q, FILTERS) {
      SortByMembers(w, NewestFirst, t);
    }
    if q.limit >= |w| {
      assert l == sorted;
    }
  }

  /** A ticket without breach flags never matches a breach filter, whether
      it asks for breached or for unbreached tickets. */
  lemma UnflaggedNeverMatches(t: Ticket, q: SearchQuery)
    requires t.slaBreach.None? && q.slaBreached.Some?
    ensures !PassesAll(t, q, FILTERS)
  {
    assert !Passes(t, q, 6);
  }

  /** A tag parameter without a comma is one tag, trimmed and lowercased. */
  lemma TagFilterSingle(t: Ticket, tags: string)
    requires ',' !in tags && Lower(Strip(tags)) in t.tags
    ensures AnyTag(t, TagList(tags))
  {
    assert Split(tags, ',') == [tags];
    assert TagList(tags)[0] == Lower(Strip(tags));
  }

  /** `advanced_search`. */
  method AdvancedSearchEndpoint(st: TicketStorage, q: SearchQuery) returns (r: TicketList)
    ensures r == AdvancedSearch(Load(st.lines), q)
  {
    var tickets := st.LoadAllTickets();
    r := AdvancedSearch(tickets, q);
  }

  // ----------------------------------------------------------- bulk update

  /** The body of `bulk_update_tickets`; an absent tag list is empty. */
  datatype BulkRequest = BulkRequest(ticketIds: seq<int>, status: Option<string>, priority: Option<string>,
                                     assigneeId: Option<string>, tags: seq<string>)

  /** What one id of the bulk update comes to. */
  datatype BulkStep = Failed(error: string) | Unchanged | Changed(ticket: Ticket)

  /** The "changes" a bulk update records for ticket t. */
  function BulkChanges(t: Ticket, req: BulkRequest): (changes: Payload)
    requires !Truthy(req.assigneeId) || FindAgent(req.assigneeId.value).Some?
    ensures changes == map[] <==>
      !Truthy(req.status) && !Truthy(req.priority) && !Truthy(req.assigneeId) && NewTags(t.tags, req.tags) == []
  {
    var c1: Payload := if Truthy(req.status) then map["status" := OldNew(VStr(t.status), VStr(req.status.value))] else map[];
    var c2 := if Truthy(req.priority) then c1["priority" := OldNew(VStr(t.priority), VStr(req.priority.value))] else c1;
    var c3 := if Truthy(req.assigneeId)
      then c2["assignee" := OldNew(OptStr(t.assigneeName), VStr(FindAgent(req.assigneeId.value).value.name))] else c2;
    var newTags := NewTags(t.tags, req.tags);
    var c4 := if newTags != [] then c3["tags_added" := StrList(newTags)] else c3;
    assert Truthy(req.status) ==> "status" in c4;
    assert Truthy(req.priority) ==> "priority" in c4;
    assert Truthy(req.assigneeId) ==> "assignee" in c4;
    assert newTags != [] ==> "tags_added" in c4;
    c4
  }

  /** The ticket a bulk update saves: the given fields replaced, new tags
      appended, one "bulk_updated" history entry; the SLA fields are left
      as they were. */
  function BulkUpdated(t: Ticket, req: BulkRequest, now: int): (r: Ticket)
    requires !Truthy(req.assigneeId) || FindAgent(req.assigneeId.value).Some?
    ensures Evolves(t, r) && r.updatedAt == now && r.comments == t.comments
    ensures r.status == if Truthy(req.status) then req.status.value else t.status
    ensures r.priority == if Truthy(req.priority) then req.priority.value else t.priority
    ensures r.assigneeId == if Truthy(req.assigneeId) then req.assigneeId else t.assigneeId
    ensures r.tags == t.tags + NewTags(t.tags, req.tags)
    ensures r.history == t.history + [HistoryEntry(now, "bulk_updated", SYSTEM_ACTOR, BulkChanges(t, req))]
    ensures r.firstResponseAt == t.firstResponseAt && r.resolvedAt == t.resolvedAt && r.slaBreach == t.slaBreach
    ensures (&& Valid(t) && (!Truthy(req.status) || req.status.value in STATUSES)
             && (!Truthy(req.priority) || req.priority.value in PRIORITIES)) ==> Valid(r)
  {
    var agent := if Truthy(req.assigneeId) then FindAgent(req.assigneeId.value) else None;
    t.(status := if Truthy(req.status) then req.status.value else t.status,
       priority := if Truthy(req.priority) then req.priority.value else t.priority,
       assigneeId := if agent.Some? then Some(agent.value.id) else t.assigneeId,
       assigneeName := if agent.Some? then Some(agent.value.name) else t.assigneeName,
       tags := t.tags + NewTags(t.tags, req.tags),
       updatedAt := now,
       history := t.history + [HistoryEntry(now, "bulk_updated", SYSTEM_ACTOR, BulkChanges(t, req))])
  }

  /** The per-ticket checks of the bulk update, in the source's order. */
  function BulkApply(t: Ticket, req: BulkRequest, now: int): (s: BulkStep)
    ensures s.Failed? <==> (|| (Truthy(req.status) && req.status.value !in STATUSES)
                            || (Truthy(req.priority) && req.priority.value !in PRIORITIES)
                            || (Truthy(req.assigneeId) && FindAgent(req.assigneeId.value).None?))
    ensures s.Unchanged? <==> !s.Failed? && !Truthy(req.status) && !Truthy(req.priority)
                              && !Truthy(req.assigneeId) && NewTags(t.tags, req.tags) == []
    ensures s.Changed? ==> s.ticket == BulkUpdated(t, req, now)
  {
    if Truthy(req.status) && req.status.value !in STATUSES then Failed("Invalid status for ticket #" + IntToString(t.id))
    else if Truthy(req.priority) && req.priority.value !in PRIORITIES then Failed("Invalid priority for ticket #" + IntToString(t.id))
    else if Truthy(req.assigneeId) && FindAgent(req.assigneeId.value).None? then Failed("Invalid assignee for ticket #" + IntToString(t.id))
    else if BulkChanges(t, req) == map[] then Unchanged
    else Changed(BulkUpdated(t, req, now))
  }

  /** The store, the update count and the errors after some ids. */
  datatype BulkOutcome = BulkOutcome(lines: seq<Line>, updated: nat, errors: seq<string>)

  /** One id of the loop: a missing ticket and a failed check each add one
      error; a changed ticket is saved and counted. */
  function BulkId(o: BulkOutcome, req: BulkRequest, now: int, id: int): BulkOutcome {
    var t := Find(Load(o.lines), id);
    if t.None? then o.(errors := o.errors + ["Ticket #" + IntToString(id) + " not found"])
    else match BulkApply(t.value, req, now)
      case Failed(e) => o.(errors := o.errors + [e])
      case Unchanged => o
      case Changed(u) => BulkOutcome(o.lines + [Entry(u)], o.updated + 1, o.errors)
  }

  /** The loop over `ids`, from the store `lines`. */
  function BulkRun(lines: seq<Line>, req: BulkRequest, now: int, ids: seq<int>): BulkOutcome
    decreases |ids|
  {
    if |ids| == 0 then BulkOutcome(lines, 0, [])
    else BulkId(BulkRun(lines, req, now, ids[..|ids| - 1]), req, now, ids[|ids| - 1])
  }

  /** Each id is either counted as updated, reported as one error, or left
      unchanged: the counts never exceed the number of ids. */
  lemma {:induction false} BulkCounts(lines: seq<Line>, req: BulkRequest, now: int, ids: seq<int>)
    ensures BulkRun(lines, req, now, ids).updated + |BulkRun(lines, req, now, ids).errors| <= |ids|
    decreases |ids|
  {
    if |ids| > 0 {
      BulkCounts(lines, req, now, ids[..|ids| - 1]);
    }
  }

  /** An invalid status fails every id: nothing is saved, nothing counted,
      and there is one error per id. */
  lemma {:induction false} BulkInvalidStatus(lines: seq<Line>, req: BulkRequest, now: int, ids: seq<int>)
    requires Truthy(req.status) && req.status.value !in STATUSES
    ensures BulkRun(lines, req, now, ids) == BulkOutcome(lines, 0, BulkRun(lines, req, now, ids).errors)
    ensures |BulkRun(lines, req, now, ids).errors| == |ids|
    decreases |ids|
  {
    if |ids| > 0 {
      BulkInvalidStatus(lines, req, now, ids[..|ids| - 1]);
    }
  }

  /** A valid request that sets a field changes and counts a stored ticket. */
  lemma BulkIdChanged(o: BulkOutcome, req: BulkRequest, now: int, id: int)
    requires !Truthy(req.status) || req.status.value in STATUSES
    requires !Truthy(req.priority) || req.priority.value in PRIORITIES
    requires !Truthy(req.assigneeId) || FindAgent(req.assigneeId.value).Some?
    requires Truthy(req.status) || Truthy(req.priority) || Truthy(req.assigneeId)
    requires id in Ids(Load(o.lines))
    ensures BulkId(o, req, now, id).updated == o.updated + 1 && BulkId(o, req, now, id).errors == o.errors
    ensures Ids(Load(BulkId(o, req, now, id).lines)) == Ids(Load(o.lines))
  {
    var t := Find(Load(o.lines), id).value;
    var step := BulkApply(t, req, now);
    assert step.Changed?;
    var u := step.ticket;
    assert BulkId(o, req, now, id) == BulkOutcome(o.lines + [Entry(u)], o.updated + 1, o.errors);
    SaveThenGet(o.lines, u, u.id);
  }

  /** With a valid request that sets a field and ids of stored tickets, no
      error is reported and every id is counted. */
  lemma {:induction false} BulkAllUpdated(lines: seq<Line>, req: BulkRequest, now: int, ids: seq<int>)
    requires !Truthy(req.status) || req.status.value in STATUSES
    requires !Truthy(req.priority) || req.priority.value in PRIORITIES
    requires !Truthy(req.assigneeId) || FindAgent(req.assigneeId.value).Some?
    requires Truthy(req.status) || Truthy(req.priority) || Truthy(req.assigneeId)
    requires forall i :: 0 <= i < |ids| ==> ids[i] in Ids(Load(lines))
    ensures BulkRun(lines, req, now, ids).updated == |ids| && BulkRun(lines, req, now, ids).errors == []
    ensures Ids(Load(BulkRun(lines, req, now, ids).lines)) == Ids(Load(lines))
    decreases |ids|
  {
    if |ids| > 0 {
      var init := ids[..|ids| - 1];
      assert forall i :: 0 <= i < |init| ==> init[i] == ids[i];
      BulkAllUpdated(lines, req, now, init);
      var o := BulkRun(lines, req, now, init);
      BulkIdChanged(o, req, now, ids[|ids| - 1]);
    }
  }

  lemma BulkRunSnoc(lines: seq<Line>, req: BulkRequest, now: int, ids: seq<int>, i: nat)
    requires i < |ids|
    ensures BulkRun(lines, req, now, ids[..i + 1]) == BulkId(BulkRun(lines, req, now, ids[..i]), req, now, ids[i])
  {
    assert ids[..i + 1][..i] == ids[..i];
  }

  /** The body of the loop of `bulk_update_tickets` for one id. */
  method BulkUpdateOne(st: TicketStorage, req: BulkRequest, now: int, id: int, updated0: nat, errors0: seq<string>)
    returns (updated: nat, errors: seq<string>)
    modifies st
    ensures BulkOutcome(st.lines, updated, errors) == BulkId(BulkOutcome(old(st.lines), updated0, errors0), req, now, id)
  {
    updated, errors := updated0, errors0;
    var t := st.GetTicket(id);
    if t.None? {
      errors := errors + ["Ticket #" + IntToString(id) + " not found"];
    } else {
      var step := BulkApply(t.value, req, now);
      match step {
        case Failed(e) =>
          errors := errors + [e];
        case Unchanged =>
        case Changed(u) =>
          st.SaveTicket(u);
          updated := updated + 1;
      }
    }
  }

  /** `bulk_update_tickets`. */
  method BulkUpdateTickets(st: TicketStorage, req: BulkRequest, now: int) returns (updated: nat, errors: seq<string>)
    modifies st
    ensures BulkOutcome(st.lines, updated, errors) == BulkRun(old(st.lines), req, now, req.ticketIds)
    ensures updated + |errors| <= |req.ticketIds|
  {
    ghost var lines0 := st.lines;
    updated := 0;
    errors := [];
    var i := 0;
    while i < |req.ticketIds|
      invariant 0 <= i <= |req.ticketIds|
      invariant BulkOutcome(st.lines, updated, errors) == BulkRun(lines0, req, now, req.ticketIds[..i])
    {
      BulkRunSnoc(lines0, req, now, req.ticketIds, i);
      updated, errors := BulkUpdateOne(st, req, now, req.ticketIds[i], updated, errors);
      i := i + 1;
    }
    assert req.ticketIds[..i] == req.ticketIds;
    BulkCounts(lines0, req, now, req.ticketIds);
  }
}
