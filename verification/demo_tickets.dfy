/** The demo seeder of api/init_demo_tickets.py: it clears the store and saves
    one ticket per sample, numbered from 1000, categorised and assigned by
    keywords of the subject. The sample table itself is a parameter. */
module DemoTickets {
  import opened Common
  import opened Tickets
  import opened TicketStore
  import opened TicketTools

  /** One entry of the sample table. */
  datatype Sample = Sample(subject: string, description: string, priority: string, status: string,
                           requesterName: string, requesterEmail: string, createdAt: int, comments: seq<Comment>)

  /** The category, agent and tags the keyword rules give a subject. */
  datatype Classification = Classification(category: string, assignee: Option<Agent>, tags: seq<string>)

  /** The keyword rules, first match wins, over the lowercased subject. */
  function Classify(s: string): (c: Classification)
    ensures c.category in CATEGORIES
    ensures c.assignee.Some? ==> c.assignee.value in AGENTS
    ensures c.category == "other" <==> c.assignee.None?
    ensures c.assignee.None? ==> c.tags == []
    ensures c.assignee.Some? ==> |c.tags| == 2 && "urgent" !in c.tags
  {
    if Contains(s, "email") || Contains(s, "เข้าสู่ระบบ") then
      Classification("email", Some(AGENTS[0]), ["email", "login"])
    else if Contains(s, "internet") || Contains(s, "wifi") || Contains(s, "network") then
      Classification("network", Some(AGENTS[2]), ["network", "connectivity"])
    else if Contains(s, "printer") || Contains(s, "เครื่องพิมพ์") then
      Classification("printer", Some(AGENTS[0]), ["printer", "hardware"])
    else if Contains(s, "vpn") then
      Classification("vpn", Some(AGENTS[3]), ["vpn", "remote-access"])
    else if Contains(s, "password") || Contains(s, "รหัสผ่าน") then
      Classification("account_access", Some(AGENTS[1]), ["password", "account"])
    else if Contains(s, "software") || Contains(s, "canva") || Contains(s, "adobe") then
      Classification("software", Some(AGENTS[0]), ["software", "license"])
    else if Contains(s, "computer") || Contains(s, "คอมพิวเตอร์") then
      Classification("hardware", Some(AGENTS[0]), ["hardware", "performance"])
    else if Contains(s, "admin") || Contains(s, "สิทธิ์") then
      Classification("account_access", Some(AGENTS[1]), ["permissions", "admin"])
    else if Contains(s, "storage") || Contains(s, "onedrive") then
      Classification("software", Some(AGENTS[0]), ["storage", "cloud"])
    else if Contains(s, "teams") then
      Classification("software", Some(AGENTS[0]), ["teams", "collaboration"])
    else
      Classification("other", None, [])
  }

  /** The rules are ordered: a subject naming software gets the software
      rule even when it also asks for admin rights, and one naming a vpn
      never reaches the account rules. */
  lemma ClassifyOrder(s: string)
    ensures Contains(s, "software") ==> Classify(s).tags != ["permissions", "admin"]
    ensures Contains(s, "vpn") ==> Classify(s).category in ["email", "network", "printer", "vpn"]
  {
  }

  /** Minutes until the due date: 4 hours for urgent, 8 for high, one day
      for normal and two days otherwise. */
  function DueMinutes(priority: string): (m: int)
    ensures priority in PRIORITIES ==> m == SlaTargetOf(priority).resolution
    ensures priority !in PRIORITIES ==> m == SlaTargetOf("low").resolution
  {
    if priority == "urgent" then 240 else if priority == "high" then 480 else if priority == "normal" then 1440 else 2880
  }

  /** The ticket the seeder saves for one sample under `id`. */
  function DemoTicket(s: Sample, id: int, now: int): (t: Ticket)
    ensures t.id == id && t.subject == s.subject && t.priority == s.priority && t.status == s.status
    ensures t.createdAt == s.createdAt && t.updatedAt == now && t.comments == s.comments
    ensures SlaConsistent(t)
    ensures t.category == Classify(Lower(s.subject)).category
    ensures "urgent" in t.tags <==> s.priority == "urgent"
    ensures t.resolvedAt == if Resolving(s.status) then Some(s.createdAt) else None
    ensures t.firstResponseAt == if |s.comments| > 0 then Some(s.comments[0].createdAt) else None
    ensures t.dueDate.None? <==> Resolving(s.status)
    ensures s.priority in PRIORITIES && !Resolving(s.status) ==> t.dueDate == Some(t.slaResolutionDue)
    ensures |t.history| == (if t.assigneeId.Some? then 2 else 1) && t.history[0].actor == s.requesterName
    ensures s.priority in PRIORITIES && s.status in STATUSES ==> Valid(t)
  {
    var c := Classify(Lower(s.subject));
    var fr := if |s.comments| > 0 then Some(s.comments[0].createdAt) else None;
    var rs := if Resolving(s.status) then Some(s.createdAt) else None;
    var dues := CalculateSlaTargets(s.priority, s.createdAt);
    var created := HistoryEntry(s.createdAt, "created", s.requesterName, map["status" := VStr("new"), "priority" := VStr(s.priority)]);
    var assignment := if c.assignee.Some?
      then [HistoryEntry(s.createdAt, "assigned", "System", map["assignee" := OldNew(VNull, VStr(c.assignee.value.name))])]
      else [];
    Ticket(id, s.subject, s.description, s.priority, s.status, s.requesterEmail, s.requesterName,
           s.createdAt, now, s.comments,
           if c.assignee.Some? then Some(c.assignee.value.id) else None,
           if c.assignee.Some? then Some(c.assignee.value.name) else None,
           c.tags + (if s.priority == "urgent" then ["urgent"] else []), c.category,
           if Resolving(s.status) then None else Some(s.createdAt + DueMinutes(s.priority)),
           fr, rs, dues.firstResponseDue, dues.resolutionDue,
           Some(CheckSlaBreach(s.createdAt, s.priority, fr, rs, now)),
           [created] + assignment)
  }

  /** The seeded store: sample j under id 1000 + j. */
  function Seeded(samples: seq<Sample>, now: int): (ts: seq<Ticket>)
    ensures |ts| == |samples|
    ensures forall j :: 0 <= j < |samples| ==> ts[j] == DemoTicket(samples[j], 1000 + j, now)
  {
    seq(|samples|, j requires 0 <= j < |samples| => DemoTicket(samples[j], 1000 + j, now))
  }

  /** Consecutive ids from 1000 put the next id right after them. */
  lemma ConsecutiveNextId(ts: seq<Ticket>)
    requires forall j :: 0 <= j < |ts| ==> ts[j].id == 1000 + j
    ensures NextId(ts) == 1000 + |ts|
  {
    if |ts| > 0 {
      var m := NextId(ts) - 1;
      var j :| 0 <= j < |ts| && Ids(ts)[j] == m;
      assert ts[|ts| - 1] in ts;
    }
  }

  /** Seeding one more sample appends its ticket. */
  lemma SeededSnoc(samples: seq<Sample>, i: nat, now: int)
    requires i < |samples|
    ensures Seeded(samples[..i + 1], now) == Seeded(samples[..i], now) + [DemoTicket(samples[i], 1000 + i, now)]
  {
    var a := Seeded(samples[..i + 1], now);
    var b := Seeded(samples[..i], now) + [DemoTicket(samples[i], 1000 + i, now)];
    forall j | 0 <= j < |a| ensures a[j] == b[j] {
      assert samples[..i + 1][j] == samples[j];
      if j < i {
        assert samples[..i][j] == samples[j];
      }
    }
  }

  /** Saving a ticket whose id is above every stored id appends it. */
  lemma SaveFresh(lines: seq<Line>, t: Ticket)
    requires forall u :: u in Load(lines) ==> u.id < t.id
    ensures Load(lines + [Entry(t)]) == Load(lines) + [t]
  {
    var ts := Load(lines);
    assert t.id !in Ids(ts) by {
      IdsMember(ts, t.id);
    }
    assert (lines + [Entry(t)])[..|lines|] == lines;
  }

  /** Saving the next sample under the next id extends the seeded store by it. */
  lemma SeedStep(lines: seq<Line>, samples: seq<Sample>, i: nat, now: int)
    requires i < |samples| && Load(lines) == Seeded(samples[..i], now)
    ensures NextId(Load(lines)) == 1000 + i
    ensures Load(lines + [Entry(DemoTicket(samples[i], 1000 + i, now))]) == Seeded(samples[..i + 1], now)
  {
    var ts := Load(lines);
    forall j | 0 <= j < |ts| ensures ts[j].id == 1000 + j {
      assert samples[..i][j] == samples[j];
    }
    ConsecutiveNextId(ts);
    SaveFresh(lines, DemoTicket(samples[i], 1000 + i, now));
    SeededSnoc(samples, i, now);
  }

  /** `initialize_demo_tickets`: clears the store, saves every sample under
      the next id and reports how many tickets the store then holds. */
  method InitializeDemoTickets(st: TicketStorage, samples: seq<Sample>, now: int) returns (count: int)
    modifies st
    ensures Load(st.lines) == Seeded(samples, now)
    ensures count == |samples|
  {
    st.Clear();
    var i := 0;
    while i < |samples|
      invariant 0 <= i <= |samples|
      invariant Load(st.lines) == Seeded(samples[..i], now)
    {
      SeedStep(st.lines, samples, i, now);
      var id := st.GetNextId();
      var t := DemoTicket(samples[i], id, now);
      st.SaveTicket(t);
      i := i + 1;
    }
    assert samples[..i] == samples;
    var tickets := st.LoadAllTickets();
    count := |tickets|;
  }
}
