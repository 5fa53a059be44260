/** The tool step of the workflow (agents/tool_node.py): the tool executor
    runs the requested calls, and the node keeps two context lists up to date,
    the documents searched and the ticket numbers seen. The executor is an
    oracle from the conversation to the tool results it produces. */
module ToolNode {
  import opened Common
  import opened Emitter
  import opened Middleware
  import opened Messages
  import opened AgentNode

  /** One tool message returned by the executor. */
  datatype ToolResult = ToolResult(name: string, content: string)

  type Executor = seq<Message> -> seq<ToolResult>

  function ToolMessages(rs: seq<ToolResult>): (r: seq<Message>)
    ensures |r| == |rs|
    ensures forall i :: 0 <= i < |rs| ==> r[i] == Tool(rs[i].content, rs[i].name)
  {
    seq(|rs|, i requires 0 <= i < |rs| => Tool(rs[i].content, rs[i].name))
  }

  /** The partial state the tools node returns. */
  datatype ToolsUpdate = ToolsUpdate(
    messages: seq<Message>,
    searchedDocuments: seq<string>,
    activeTickets: seq<int>,
    nextAction: string)

  // ------------------------------------------------------------ bookkeeping

  /** `for x in xs: if x not in acc: acc.append(x)`. */
  function AddNew<T(==)>(acc: seq<T>, xs: seq<T>): seq<T>
    decreases |xs|
  {
    if |xs| == 0 then acc
    else
      var a := AddNew(acc, xs[..|xs| - 1]);
      if xs[|xs| - 1] in a then a else a + [xs[|xs| - 1]]
  }

  /** The old list is kept as a prefix, exactly the old and the offered
      elements end up in it, and no duplicate is ever introduced. */
  lemma {:induction false} AddNewProps<T>(acc: seq<T>, xs: seq<T>)
    ensures acc <= AddNew(acc, xs)
    ensures forall x :: x in AddNew(acc, xs) <==> x in acc || x in xs
    ensures NoDup(acc) ==> NoDup(AddNew(acc, xs))
    decreases |xs|
  {
    if |xs| > 0 {
      var init := xs[..|xs| - 1];
      AddNewProps(acc, init);
      assert xs == init + [xs[|xs| - 1]];
    }
  }

  /** Offering two lists in turn is offering their concatenation. */
  lemma {:induction false} AddNewConcat<T>(acc: seq<T>, xs: seq<T>, ys: seq<T>)
    ensures AddNew(AddNew(acc, xs), ys) == AddNew(acc, xs + ys)
    decreases |ys|
  {
    if |ys| == 0 {
      assert xs + ys == xs;
    } else {
      AddNewConcat(acc, xs, ys[..|ys| - 1]);
      assert (xs + ys)[..|xs + ys| - 1] == xs + ys[..|ys| - 1];
    }
  }

  /** Offering one more element appends it exactly when it is new. */
  lemma AddNewStep<T>(acc: seq<T>, xs: seq<T>, x: T)
    ensures AddNew(acc, xs + [x]) == if x in AddNew(acc, xs) then AddNew(acc, xs) else AddNew(acc, xs) + [x]
  {
    assert (xs + [x])[..|xs|] == xs;
  }

  /** Names of the results whose tool name contains "search", in order. */
  function SearchNames(rs: seq<ToolResult>): (r: seq<string>)
    ensures forall n :: n in r ==> Contains(n, "search")
    decreases |rs|
  {
    if |rs| == 0 then []
    else
      var last := rs[|rs| - 1];
      SearchNames(rs[..|rs| - 1]) + (if Contains(last.name, "search") then [last.name] else [])
  }

  /** `re.findall(r"#(\d+)", s)` converted with `int`: every `#` followed by
      digits, scanning left to right without overlaps. */
  function TicketRefs(s: string): seq<int>
    decreases |s|
  {
    if |s| == 0 then []
    else if s[0] == '#' && DigitRun(s[1..]) > 0 then
      var n := DigitRun(s[1..]);
      [DigitsValue(s[1..1 + n]) as int] + TicketRefs(s[1 + n..])
    else TicketRefs(s[1..])
  }

  /** A text without '#' mentions no ticket. */
  lemma {:induction false} NoHashNoRefs(s: string)
    requires '#' !in s
    ensures TicketRefs(s) == []
    decreases |s|
  {
    if |s| > 0 {
      assert s[0] != '#';
      assert forall c :: c in s[1..] ==> c in s;
      NoHashNoRefs(s[1..]);
    }
  }

  /** A ticket number written as "#N" is found. */
  lemma TicketRefWritten(n: nat)
    ensures TicketRefs("#" + NatToString(n)) == [n]
  {
    var s := "#" + NatToString(n);
    var d := NatToString(n);
    assert s[1..] == d;
    assert DigitRun(d) == |d|;
    assert s[1..1 + |d|] == d;
    assert s[1 + |d|..] == [];
    DigitsOfNatToString(n);
    assert TicketRefs(s) == [DigitsValue(d) as int] + TicketRefs([]);
  }

  /** The ticket numbers found in all results that mention '#', in order. */
  function ResultRefs(rs: seq<ToolResult>): seq<int>
    decreases |rs|
  {
    if |rs| == 0 then []
    else
      var last := rs[|rs| - 1];
      ResultRefs(rs[..|rs| - 1]) + (if Contains(last.content, "#") then TicketRefs(last.content) else [])
  }

  /** What `tools_node` returns for a state. */
  function ToolsUpdateOf(s: AgentState, exec: Executor): ToolsUpdate {
    var rs := exec(s.messages);
    ToolsUpdate(ToolMessages(rs), AddNew(s.searchedDocuments, SearchNames(rs)),
                AddNew(s.activeTickets, ResultRefs(rs)), "observe")
  }

  /** The tools node hands on the executor's messages, routes to "observe",
      extends both context lists without dropping or duplicating entries, and
      adds exactly the searched names and the ticket numbers seen. */
  lemma ToolsUpdateProps(s: AgentState, exec: Executor)
    ensures var u := ToolsUpdateOf(s, exec);
      && u.messages == ToolMessages(exec(s.messages))
      && u.nextAction == "observe"
      && s.searchedDocuments <= u.searchedDocuments
      && (forall d :: d in u.searchedDocuments <==> d in s.searchedDocuments || d in SearchNames(exec(s.messages)))
      && (NoDup(s.searchedDocuments) ==> NoDup(u.searchedDocuments))
      && s.activeTickets <= u.activeTickets
      && (forall t :: t in u.activeTickets <==> t in s.activeTickets || t in ResultRefs(exec(s.messages)))
      && (NoDup(s.activeTickets) ==> NoDup(u.activeTickets))
  {
    AddNewProps(s.searchedDocuments, SearchNames(exec(s.messages)));
    AddNewProps(s.activeTickets, ResultRefs(exec(s.messages)));
  }

  /** Appends each offered element that is not there yet. */
  method AddEach<T(==)>(acc: seq<T>, xs: seq<T>) returns (r: seq<T>)
    ensures r == AddNew(acc, xs)
  {
    r := acc;
    var j := 0;
    while j < |xs|
      invariant 0 <= j <= |xs|
      invariant r == AddNew(acc, xs[..j])
    {
      assert xs[..j + 1] == xs[..j] + [xs[j]];
      AddNewStep(acc, xs[..j], xs[j]);
      if xs[j] !in r {
        r := r + [xs[j]];
      }
      j := j + 1;
    }
    assert xs[..j] == xs;
  }

  /** The documents loop of `tools_node`. */
  method CollectDocuments(rs: seq<ToolResult>, docs0: seq<string>) returns (docs: seq<string>)
    ensures docs == AddNew(docs0, SearchNames(rs))
  {
    docs := docs0;
    var i := 0;
    while i < |rs|
      invariant 0 <= i <= |rs|
      invariant docs == AddNew(docs0, SearchNames(rs[..i]))
    {
      assert rs[..i + 1][..i] == rs[..i];
      if Contains(rs[i].name, "search") {
        assert SearchNames(rs[..i + 1]) == SearchNames(rs[..i]) + [rs[i].name];
        AddNewStep(docs0, SearchNames(rs[..i]), rs[i].name);
        if rs[i].name !in docs {
          docs := docs + [rs[i].name];
        }
      } else {
        assert SearchNames(rs[..i + 1]) == SearchNames(rs[..i]);
      }
      i := i + 1;
    }
    assert rs[..i] == rs;
  }

  /** The tickets loop of `tools_node`. */
  method CollectTickets(rs: seq<ToolResult>, tickets0: seq<int>) returns (tickets: seq<int>)
    ensures tickets == AddNew(tickets0, ResultRefs(rs))
  {
    tickets := tickets0;
    var i := 0;
    while i < |rs|
      invariant 0 <= i <= |rs|
      invariant tickets == AddNew(tickets0, ResultRefs(rs[..i]))
    {
      assert rs[..i + 1][..i] == rs[..i];
      if Contains(rs[i].content, "#") {
        var ids := TicketRefs(rs[i].content);
        assert ResultRefs(rs[..i + 1]) == ResultRefs(rs[..i]) + ids;
        AddNewConcat(tickets0, ResultRefs(rs[..i]), ids);
        tickets := AddEach(tickets, ids);
      } else {
        assert ResultRefs(rs[..i + 1]) == ResultRefs(rs[..i]);
      }
      i := i + 1;
    }
    assert rs[..i] == rs;
  }

  /** `tools_node`. */
  method ToolsNodeStep(s: AgentState, exec: Executor) returns (u: ToolsUpdate)
    ensures u == ToolsUpdateOf(s, exec)
  {
    var rs := exec(s.messages);
    var docs := CollectDocuments(rs, s.searchedDocuments);
    var tickets := CollectTickets(rs, s.activeTickets);
    u := ToolsUpdate(ToolMessages(rs), docs, tickets, "observe");
  }

  // ------------------------------------------------- ticket creation events

  /** `re.search(r"Ticket ID\*\*:\s*#(\d+)", s)`: the number after the first
      "Ticket ID**:" that is followed by optional spaces, '#' and digits. */
  function TicketIdMatch(s: string): Option<int>
    decreases |s|
  {
    if |s| == 0 then None
    else
      var key := "Ticket ID**:";
      if key <= s then
        var t := s[|key|..];
        var n := SpaceRun(t);
        if n < |t| && t[n] == '#' && DigitRun(t[n + 1..]) > 0 then
          Some(DigitsValue(t[n + 1..n + 1 + DigitRun(t[n + 1..])]) as int)
        else TicketIdMatch(s[1..])
      else TicketIdMatch(s[1..])
  }

  /** The text of `u` before its first newline. */
  function UntilNewline(u: string): (r: string)
    ensures r <= u && '\n' !in r
    ensures |r| < |u| ==> u[|r|] == '\n'
    decreases |u|
  {
    if |u| == 0 || u[0] == '\n' then [] else [u[0]] + UntilNewline(u[1..])
  }

  /** The greedy `\s*([^\n]+)` after a key: the whitespace run gives back
      characters, longest first, until a non-empty line can start. */
  function Capture(t: string, k: nat): Option<string>
    requires k <= |t|
    decreases k
  {
    if |UntilNewline(t[k..])| > 0 then Some(UntilNewline(t[k..]))
    else if k == 0 then None
    else Capture(t, k - 1)
  }

  const SUBJECT_KEY := "Subject**:"

  /** `re.search(r"Subject\*\*:\s*([^\n]+)", s)`. */
  function SubjectMatch(s: string): Option<string>
    decreases |s|
  {
    if |s| == 0 then None
    else
      if SUBJECT_KEY <= s then
        var t := s[|SUBJECT_KEY|..];
        match Capture(t, SpaceRun(t))
        case Some(subject) => Some(subject)
        case None => SubjectMatch(s[1..])
      else SubjectMatch(s[1..])
  }

  lemma {:induction false} UntilNewlineWhole(u: string)
    requires '\n' !in u
    ensures UntilNewline(u) == u
    decreases |u|
  {
    if |u| > 0 {
      assert forall c :: c in u[1..] ==> c in u;
      UntilNewlineWhole(u[1..]);
      assert u == [u[0]] + u[1..];
    }
  }

  /** A subject written on the key's own line, after one space, is captured whole. */
  lemma SubjectOnSameLine(subject: string)
    requires |subject| > 0 && !IsSpace(subject[0])
    requires '\n' !in subject
    ensures SubjectMatch(SUBJECT_KEY + " " + subject) == Some(subject)
  {
    var t := " " + subject;
    var s := SUBJECT_KEY + t;
    assert SUBJECT_KEY + " " + subject == s;
    assert SUBJECT_KEY <= s;
    assert s[|SUBJECT_KEY|..] == t;
    assert t[1..] == subject;
    assert SpaceRun(t) == 1 by {
      assert IsSpace(t[0]);
      assert SpaceRun(t[1..]) == 0;
    }
    UntilNewlineWhole(subject);
    assert Capture(t, 1) == Some(subject);
  }

  /** The `ticket_created` event for one tool result, if it reports a new ticket. */
  function CreatedEvent(r: ToolResult, now: int): Option<Event> {
    if r.name == "create_ticket" then
      match TicketIdMatch(r.content)
      case None => None
      case Some(id) =>
        var subject := match SubjectMatch(r.content) case Some(sub) => sub case None => "New Ticket";
        Some(Event(TICKET_CREATED, now, map[
          "ticket_id" := VInt(id),
          "subject" := VStr(subject),
          "message" := VStr("Ticket #" + IntToString(id) + " created successfully")]))
    else None
  }

  function CreatedEvents(rs: seq<ToolResult>, now: int): (r: seq<Event>)
    ensures forall e :: e in r ==> e.eventType == TICKET_CREATED
    decreases |rs|
  {
    if |rs| == 0 then []
    else
      var e := CreatedEvent(rs[|rs| - 1], now);
      CreatedEvents(rs[..|rs| - 1], now) + (if e.Some? then [e.value] else [])
  }

  // ------------------------------------------------------- event wrapper

  /** The tool calls of every AI message of the conversation, in order. */
  function HistoryCalls(messages: seq<Message>): seq<ToolCall>
    decreases |messages|
  {
    if |messages| == 0 then []
    else
      var last := messages[|messages| - 1];
      HistoryCalls(messages[..|messages| - 1]) + (if last.Ai? then last.toolCalls else [])
  }

  /** `on_tool_start` for one call, with its arguments as data. */
  function StartInv(tc: ToolCall, it: int): Invocation {
    ToolStart(CallName(tc), Some(it), Some(map["args" := VObj(tc.args)]))
  }

  function StartInvs(calls: seq<ToolCall>, it: int): (r: seq<Invocation>)
    ensures |r| == |calls|
    ensures forall i :: 0 <= i < |calls| ==> r[i] == StartInv(calls[i], it)
    decreases |calls|
  {
    if |calls| == 0 then []
    else StartInvs(calls[..|calls| - 1], it) + [StartInv(calls[|calls| - 1], it)]
  }

  function EndInvs(names: seq<string>, it: int): (r: seq<Invocation>)
    ensures |r| == |names|
    ensures forall i :: 0 <= i < |names| ==> r[i] == ToolEnd(names[i], Some(it), None)
  {
    seq(|names|, i requires 0 <= i < |names| => ToolEnd(names[i], Some(it), None))
  }

  /** The summary status, present only when some tool name was collected. */
  function SummaryInvs(names: seq<string>): seq<Invocation> {
    if |names| > 0 then
      [Status("Executed " + NatToString(|names|) + " tool(s): " + Join(names, ", "), Some("tools"),
              Some(map["tool_count" := VInt(|names|)]))]
    else []
  }

  /** All events of one tool step, in emission order. */
  function ToolsTrace(s: AgentState, rs: seq<ToolResult>, now: int): seq<Event> {
    var it := IterOf(s);
    var calls := HistoryCalls(s.messages);
    EventsOf([NodeStart("tools", Some(it), None)], now)
    + EventsOf(StartInvs(calls, it), now)
    + CreatedEvents(rs, now)
    + EventsOf(EndInvs(CallNames(calls), it), now)
    + EventsOf(SummaryInvs(CallNames(calls)), now)
    + EventsOf([NodeEnd("tools", Some(it), None)], now)
  }

  /** Number of events of type t. */
  function CountType(evs: seq<Event>, t: string): (n: nat)
    ensures n <= |evs|
    decreases |evs|
  {
    if |evs| == 0 then 0
    else CountType(evs[..|evs| - 1], t) + (if evs[|evs| - 1].eventType == t then 1 else 0)
  }

  lemma {:induction false} CountTypeConcat(a: seq<Event>, b: seq<Event>, t: string)
    ensures CountType(a + b, t) == CountType(a, t) + CountType(b, t)
    decreases |b|
  {
    if |b| == 0 {
      assert a + b == a;
    } else {
      CountTypeConcat(a, b[..|b| - 1], t);
      assert (a + b)[..|a + b| - 1] == a + b[..|b| - 1];
    }
  }

  /** A series whose events all have type u counts all of them for u and none for other types. */
  lemma {:induction false} CountTypeUniform(evs: seq<Event>, u: string, t: string)
    requires forall e :: e in evs ==> e.eventType == u
    ensures CountType(evs, t) == if t == u then |evs| else 0
    decreases |evs|
  {
    if |evs| > 0 {
      assert forall e :: e in evs[..|evs| - 1] ==> e in evs;
      CountTypeUniform(evs[..|evs| - 1], u, t);
    }
  }

  lemma CountSix(a: seq<Event>, b: seq<Event>, c: seq<Event>, d: seq<Event>, e: seq<Event>, f: seq<Event>, t: string)
    ensures CountType(a + b + c + d + e + f, t)
      == CountType(a, t) + CountType(b, t) + CountType(c, t) + CountType(d, t) + CountType(e, t) + CountType(f, t)
  {
    CountTypeConcat(a, b, t);
    CountTypeConcat(a + b, c, t);
    CountTypeConcat(a + b + c, d, t);
    CountTypeConcat(a + b + c + d, e, t);
    CountTypeConcat(a + b + c + d + e, f, t);
  }

  /** A series of invocations of one callback, of type u, adds its length to
      the count of u and nothing to the count of any other type. */
  lemma SegmentCount(invs: seq<Invocation>, now: int, u: string, t: string)
    requires forall inv :: inv in invs ==> TypeOf(inv) == u
    ensures CountType(EventsOf(invs, now), t) == if t == u then |invs| else 0
  {
    EventsOfShape(invs, now);
    forall x | x in EventsOf(invs, now) ensures x.eventType == u {
      var k :| 0 <= k < |EventsOf(invs, now)| && EventsOf(invs, now)[k] == x;
      assert invs[k] in invs;
    }
    CountTypeUniform(EventsOf(invs, now), u, t);
  }

  lemma StartInvsType(calls: seq<ToolCall>, it: int)
    ensures forall inv :: inv in StartInvs(calls, it) ==> TypeOf(inv) == TOOL_START
  {
    var r := StartInvs(calls, it);
    forall inv | inv in r ensures TypeOf(inv) == TOOL_START {
      var k :| 0 <= k < |r| && r[k] == inv;
      assert r[k] == StartInv(calls[k], it);
    }
  }

  lemma EndInvsType(names: seq<string>, it: int)
    ensures forall inv :: inv in EndInvs(names, it) ==> TypeOf(inv) == TOOL_END
  {
    var r := EndInvs(names, it);
    forall inv | inv in r ensures TypeOf(inv) == TOOL_END {
      var k :| 0 <= k < |r| && r[k] == inv;
      assert r[k] == ToolEnd(names[k], Some(it), None);
    }
  }

  /** The count of one type in a tool step's trace is the sum over its six segments. */
  lemma TraceSplit(s: AgentState, rs: seq<ToolResult>, now: int, t: string)
    ensures var it, calls := IterOf(s), HistoryCalls(s.messages);
      CountType(ToolsTrace(s, rs, now), t)
      == CountType(EventsOf([NodeStart("tools", Some(it), None)], now), t)
       + CountType(EventsOf(StartInvs(calls, it), now), t)
       + CountType(CreatedEvents(rs, now), t)
       + CountType(EventsOf(EndInvs(CallNames(calls), it), now), t)
       + CountType(EventsOf(SummaryInvs(CallNames(calls)), now), t)
       + CountType(EventsOf([NodeEnd("tools", Some(it), None)], now), t)
  {
    var it, calls := IterOf(s), HistoryCalls(s.messages);
    CountSix(EventsOf([NodeStart("tools", Some(it), None)], now), EventsOf(StartInvs(calls, it), now),
             CreatedEvents(rs, now), EventsOf(EndInvs(CallNames(calls), it), now),
             EventsOf(SummaryInvs(CallNames(calls)), now), EventsOf([NodeEnd("tools", Some(it), None)], now), t);
  }

  /** Counts in the segments before the tool ends. */
  lemma HeadCounts(s: AgentState, rs: seq<ToolResult>, now: int, t: string)
    ensures var it, calls := IterOf(s), HistoryCalls(s.messages);
      && CountType(EventsOf([NodeStart("tools", Some(it), None)], now), t) == (if t == NODE_START then 1 else 0)
      && CountType(EventsOf(StartInvs(calls, it), now), t) == (if t == TOOL_START then |calls| else 0)
      && CountType(CreatedEvents(rs, now), t) == (if t == TICKET_CREATED then |CreatedEvents(rs, now)| else 0)
  {
    var it, calls := IterOf(s), HistoryCalls(s.messages);
    SegmentCount([NodeStart("tools", Some(it), None)], now, NODE_START, t);
    StartInvsType(calls, it);
    SegmentCount(StartInvs(calls, it), now, TOOL_START, t);
    CountTypeUniform(CreatedEvents(rs, now), TICKET_CREATED, t);
  }

  /** Counts in the segments from the tool ends on. */
  lemma TailCounts(s: AgentState, now: int, t: string)
    ensures var it, calls := IterOf(s), HistoryCalls(s.messages);
      && CountType(EventsOf(EndInvs(CallNames(calls), it), now), t) == (if t == TOOL_END then |calls| else 0)
      && CountType(EventsOf(SummaryInvs(CallNames(calls)), now), t) == (if t == STATUS && |calls| > 0 then 1 else 0)
      && CountType(EventsOf([NodeEnd("tools", Some(it), None)], now), t) == (if t == NODE_END then 1 else 0)
  {
    var it, calls := IterOf(s), HistoryCalls(s.messages);
    var names := CallNames(calls);
    EndCount(names, it, now, t);
    SummaryCount(names, now, t);
    NodeEndCount(it, now, t);
  }

  lemma EndCount(names: seq<string>, it: int, now: int, t: string)
    ensures CountType(EventsOf(EndInvs(names, it), now), t) == (if t == TOOL_END then |names| else 0)
  {
    EndInvsType(names, it);
    SegmentCount(EndInvs(names, it), now, TOOL_END, t);
  }

  lemma SummaryCount(names: seq<string>, now: int, t: string)
    ensures CountType(EventsOf(SummaryInvs(names), now), t) == (if t == STATUS && |names| > 0 then 1 else 0)
  {
    SegmentCount(SummaryInvs(names), now, STATUS, t);
  }

  lemma NodeEndCount(it: int, now: int, t: string)
    ensures CountType(EventsOf([NodeEnd("tools", Some(it), None)], now), t) == (if t == NODE_END then 1 else 0)
  {
    SegmentCount([NodeEnd("tools", Some(it), None)], now, NODE_END, t);
  }

  /** The count of one type in a tool step's trace, segment by segment. */
  lemma TraceCount(s: AgentState, rs: seq<ToolResult>, now: int, t: string)
    ensures var n := |HistoryCalls(s.messages)|;
      CountType(ToolsTrace(s, rs, now), t)
      == (if t == NODE_START then 1 else 0) + (if t == TOOL_START then n else 0)
       + (if t == TICKET_CREATED then |CreatedEvents(rs, now)| else 0) + (if t == TOOL_END then n else 0)
       + (if t == STATUS && n > 0 then 1 else 0) + (if t == NODE_END then 1 else 0)
  {
    TraceSplit(s, rs, now, t);
    HeadCounts(s, rs, now, t);
    TailCounts(s, now, t);
  }

  /** Every tool call of the conversation gets one `tool_start` and one
      `tool_end`; the step opens with `node_start`, closes with `node_end`, and
      has a summary status only when the conversation holds some tool call. */
  lemma ToolsTraceCounts(s: AgentState, rs: seq<ToolResult>, now: int)
    ensures var tr := ToolsTrace(s, rs, now);
      && |tr| >= 2
      && tr[0].eventType == NODE_START && tr[|tr| - 1].eventType == NODE_END
      && CountType(tr, TOOL_START) == |HistoryCalls(s.messages)|
      && CountType(tr, TOOL_END) == |HistoryCalls(s.messages)|
      && CountType(tr, STATUS) == (if |HistoryCalls(s.messages)| > 0 then 1 else 0)
      && CountType(tr, TICKET_CREATED) == |CreatedEvents(rs, now)|
  {
    TraceCount(s, rs, now, TOOL_START);
    TraceCount(s, rs, now, TOOL_END);
    TraceCount(s, rs, now, STATUS);
    TraceCount(s, rs, now, TICKET_CREATED);
  }

  /** One more `tool_start` extends the emitted starts by the next call. */
  lemma StartStep(done: seq<Event>, calls: seq<ToolCall>, i: nat, it: int, now: int)
    requires i < |calls|
    ensures done + EventsOf(StartInvs(calls[..i], it), now) + EventsOf([StartInv(calls[i], it)], now)
            == done + EventsOf(StartInvs(calls[..i + 1], it), now)
    ensures CallNames(calls[..i]) + [CallName(calls[i])] == CallNames(calls[..i + 1])
  {
    assert calls[..i + 1][..i] == calls[..i];
    EventsOfConcat(StartInvs(calls[..i], it), [StartInv(calls[i], it)], now);
  }

  /** One more result extends the `ticket_created` events by its own, if any. */
  lemma CreatedStep(done: seq<Event>, rs: seq<ToolResult>, i: nat, now: int)
    requires i < |rs|
    ensures CreatedEvent(rs[i], now).Some? ==>
      done + CreatedEvents(rs[..i], now) + [CreatedEvent(rs[i], now).value] == done + CreatedEvents(rs[..i + 1], now)
    ensures CreatedEvent(rs[i], now).None? ==> CreatedEvents(rs[..i + 1], now) == CreatedEvents(rs[..i], now)
  {
    assert rs[..i + 1][..i] == rs[..i];
  }

  /** One more `tool_end` extends the emitted ends by the next name. */
  lemma EndStep(done: seq<Event>, names: seq<string>, i: nat, it: int, now: int)
    requires i < |names|
    ensures done + EventsOf(EndInvs(names[..i], it), now) + EventsOf([ToolEnd(names[i], Some(it), None)], now)
            == done + EventsOf(EndInvs(names[..i + 1], it), now)
  {
    assert EndInvs(names[..i + 1], it) == EndInvs(names[..i], it) + [ToolEnd(names[i], Some(it), None)];
    EventsOfConcat(EndInvs(names[..i], it), [ToolEnd(names[i], Some(it), None)], now);
  }

  /** Emits one `tool_start` per tool call and collects the call names. */
  method EmitToolStarts(em: EventEmitter, ghost e0: seq<Event>, ghost i0: map<QueueId, seq<Event>>, ghost c0: seq<Call>,
                        ghost done: seq<Event>, calls: seq<ToolCall>, iteration: int, now: int)
    returns (names: seq<string>)
    requires em.Valid() && em.Emitted(e0, i0, c0, done)
    modifies em
    ensures em.Valid() && em.Emitted(e0, i0, c0, done + EventsOf(StartInvs(calls, iteration), now))
    ensures em.listeners == old(em.listeners) && em.queues == old(em.queues) && em.nextQueue == old(em.nextQueue)
    ensures names == CallNames(calls)
  {
    names := [];
    var i := 0;
    assert done + EventsOf(StartInvs(calls[..0], iteration), now) == done;
    while i < |calls|
      invariant 0 <= i <= |calls|
      invariant names == CallNames(calls[..i])
      invariant em.Valid() && em.Emitted(e0, i0, c0, done + EventsOf(StartInvs(calls[..i], iteration), now))
      invariant em.listeners == old(em.listeners) && em.queues == old(em.queues) && em.nextQueue == old(em.nextQueue)
    {
      StartStep(done, calls, i, iteration, now);
      names := names + [CallName(calls[i])];
      FireMore(em, e0, i0, c0, done + EventsOf(StartInvs(calls[..i], iteration), now), [StartInv(calls[i], iteration)], now);
      i := i + 1;
    }
    assert calls[..i] == calls;
  }

  /** Emits the `ticket_created` event of every result that reports a new ticket. */
  method EmitCreated(em: EventEmitter, ghost e0: seq<Event>, ghost i0: map<QueueId, seq<Event>>, ghost c0: seq<Call>,
                     ghost done: seq<Event>, rs: seq<ToolResult>, now: int)
    requires em.Valid() && em.Emitted(e0, i0, c0, done)
    modifies em
    ensures em.Valid() && em.Emitted(e0, i0, c0, done + CreatedEvents(rs, now))
    ensures em.listeners == old(em.listeners) && em.queues == old(em.queues) && em.nextQueue == old(em.nextQueue)
  {
    var i := 0;
    assert done + CreatedEvents(rs[..0], now) == done;
    while i < |rs|
      invariant 0 <= i <= |rs|
      invariant em.Valid() && em.Emitted(e0, i0, c0, done + CreatedEvents(rs[..i], now))
      invariant em.listeners == old(em.listeners) && em.queues == old(em.queues) && em.nextQueue == old(em.nextQueue)
    {
      EmitCreatedOne(em, e0, i0, c0, done, rs, i, now);
      i := i + 1;
    }
    assert rs[..i] == rs;
  }

  /** The `ticket_created` event of result i, if it reports a new ticket. */
  method EmitCreatedOne(em: EventEmitter, ghost e0: seq<Event>, ghost i0: map<QueueId, seq<Event>>, ghost c0: seq<Call>,
                        ghost done: seq<Event>, rs: seq<ToolResult>, i: nat, now: int)
    requires i < |rs|
    requires em.Valid() && em.Emitted(e0, i0, c0, done + CreatedEvents(rs[..i], now))
    modifies em
    ensures em.Valid() && em.Emitted(e0, i0, c0, done + CreatedEvents(rs[..i + 1], now))
    ensures em.listeners == old(em.listeners) && em.queues == old(em.queues) && em.nextQueue == old(em.nextQueue)
  {
    var created := CreatedEvent(rs[i], now);
    CreatedStep(done, rs, i, now);
    if created.Some? {
      em.EmitMore(e0, i0, c0, done + CreatedEvents(rs[..i], now), [created.value]);
    }
  }

  /** Emits one `tool_end` per collected name. */
  method EmitToolEnds(em: EventEmitter, ghost e0: seq<Event>, ghost i0: map<QueueId, seq<Event>>, ghost c0: seq<Call>,
                      ghost done: seq<Event>, names: seq<string>, iteration: int, now: int)
    requires em.Valid() && em.Emitted(e0, i0, c0, done)
    modifies em
    ensures em.Valid() && em.Emitted(e0, i0, c0, done + EventsOf(EndInvs(names, iteration), now))
    ensures em.listeners == old(em.listeners) && em.queues == old(em.queues) && em.nextQueue == old(em.nextQueue)
  {
    var i := 0;
    assert done + EventsOf(EndInvs(names[..0], iteration), now) == done;
    while i < |names|
      invariant 0 <= i <= |names|
      invariant em.Valid() && em.Emitted(e0, i0, c0, done + EventsOf(EndInvs(names[..i], iteration), now))
      invariant em.listeners == old(em.listeners) && em.queues == old(em.queues) && em.nextQueue == old(em.nextQueue)
    {
      EndStep(done, names, i, iteration, now);
      FireMore(em, e0, i0, c0, done + EventsOf(EndInvs(names[..i], iteration), now), [ToolEnd(names[i], Some(iteration), None)], now);
      i := i + 1;
    }
    assert names[..i] == names;
  }

  /** The event-emitting tools node: the same update as `tools_node`, with
      node_start, one tool_start per tool call of the conversation, the
      ticket_created events, one tool_end per call, the summary status and
      node_end emitted in that order. */
  method ToolsNodeWithEvents(em: EventEmitter, s: AgentState, exec: Executor, now: int) returns (u: ToolsUpdate)
    requires em.Valid()
    modifies em
    ensures em.Valid()
    ensures u == ToolsUpdateOf(s, exec)
    ensures em.Emitted(old(em.events), old(em.inbox), old(em.calls), ToolsTrace(s, exec(s.messages), now))
    ensures em.listeners == old(em.listeners) && em.queues == old(em.queues) && em.nextQueue == old(em.nextQueue)
  {
    var iteration := IterOf(s);
    ghost var e0, i0, c0 := em.events, em.inbox, em.calls;
    FireAll(em, [NodeStart("tools", Some(iteration), None)], now);
    ghost var done := EventsOf([NodeStart("tools", Some(iteration), None)], now);
    var calls := HistoryCalls(s.messages);
    var names := EmitToolStarts(em, e0, i0, c0, done, calls, iteration, now);
    done := done + EventsOf(StartInvs(calls, iteration), now);
    u := ToolsNodeStep(s, exec);
    EmitCreated(em, e0, i0, c0, done, exec(s.messages), now);
    done := done + CreatedEvents(exec(s.messages), now);
    EmitToolEnds(em, e0, i0, c0, done, names, iteration, now);
    done := done + EventsOf(EndInvs(names, iteration), now);
    if |names| > 0 {
      FireMore(em, e0, i0, c0, done, SummaryInvs(names), now);
    } else {
      assert done + EventsOf(SummaryInvs(names), now) == done;
    }
    done := done + EventsOf(SummaryInvs(names), now);
    FireMore(em, e0, i0, c0, done, [NodeEnd("tools", Some(iteration), None)], now);
  }
}
