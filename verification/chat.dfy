/** The chat endpoints of api/chat_endpoints.py: the in-memory session table,
    the plain chat request, the streamed workflow request with its drain loop,
    and clearing and reading a session. langgraph's checkpointer, which keeps
    the conversation of every thread id, is the `checkpoints` map. */
module Chat {
  import opened Common
  import opened Emitter
  import opened Middleware
  import opened Messages
  import opened AgentNode
  import opened ToolNode
  import opened Workflow

  /** One stored exchange of a session. */
  datatype Turn = Turn(user: string, assistant: string)

  datatype ChatRequest = ChatRequest(message: string, sessionId: Option<string>)

  datatype ChatResponse = ChatResponse(message: string, sessionId: string, iteration: int, nextAction: string)

  /** What `clear_session` answers, always. */
  datatype Ack = Ack(status: string, message: string)

  /** What `get_session` answers. */
  datatype SessionView = SessionView(sessionId: string, history: seq<Turn>)

  const APOLOGY := "I apologize, but I couldn't generate a response. Please try again."

  /** `request.session_id or str(uuid.uuid4())`; the generated id is a parameter. */
  function SessionKey(req: ChatRequest, freshId: string): (sid: string)
    ensures Truthy(req.sessionId) ==> sid == req.sessionId.value
    ensures !Truthy(req.sessionId) ==> sid == freshId
  {
    if Truthy(req.sessionId) then req.sessionId.value else freshId
  }

  /** The state a request starts the graph from: the thread's checkpointed
      conversation with the new human message appended (the `add_messages`
      reducer), and the other keys reset. */
  function InitialState(history: seq<Message>, message: string): AgentState {
    AgentState(history + [Human(message)], Some(0), Some("start"), [], [])
  }

  /** The checkpointed conversation of a thread, empty for a new one. */
  function History(checkpoints: map<string, seq<Message>>, sid: string): seq<Message> {
    if sid in checkpoints then checkpoints[sid] else []
  }

  // ------------------------------------------------------ reply extraction

  /** The content of the last AI message, if any. */
  function LastAi(messages: seq<Message>): (r: Option<string>)
    ensures r.Some? <==> exists i :: 0 <= i < |messages| && messages[i].Ai?
    decreases |messages|
  {
    if |messages| == 0 then None
    else if messages[|messages| - 1].Ai? then Some(messages[|messages| - 1].content)
    else LastAi(messages[..|messages| - 1])
  }

  /** LastAi finds nothing exactly when there is no AI message, and otherwise
      the content of an AI message after which no AI message follows. */
  lemma {:induction false} LastAiSpec(messages: seq<Message>)
    ensures LastAi(messages).None? <==> forall i :: 0 <= i < |messages| ==> !messages[i].Ai?
    ensures LastAi(messages).Some? ==>
      exists i :: 0 <= i < |messages| && messages[i].Ai? && messages[i].content == LastAi(messages).value
                  && forall j :: i < j < |messages| ==> !messages[j].Ai?
    decreases |messages|
  {
    if |messages| > 0 {
      var init := messages[..|messages| - 1];
      LastAiSpec(init);
      if !messages[|messages| - 1].Ai? {
        assert forall i :: 0 <= i < |init| ==> init[i] == messages[i];
        if LastAi(init).Some? {
          var i :| 0 <= i < |init| && init[i].Ai? && init[i].content == LastAi(init).value
            && forall j :: i < j < |init| ==> !init[j].Ai?;
          assert messages[i].Ai? && forall j :: i < j < |messages| ==> !messages[j].Ai?;
        }
      }
    }
  }

  /** The assistant text: the last AI message's content, or the apology when
      there is none or it is empty. */
  function ReplyText(messages: seq<Message>): string {
    match LastAi(messages)
    case Some(c) => if c != "" then c else APOLOGY
    case None => APOLOGY
  }

  /** The assistant text is never empty. */
  lemma ReplyTextNonEmpty(messages: seq<Message>)
    ensures ReplyText(messages) != ""
    ensures LastAi(messages).None? ==> ReplyText(messages) == APOLOGY
    ensures LastAi(messages) == Some("") ==> ReplyText(messages) == APOLOGY
  {
  }

  /** The reversed search of the final messages for the last AI message. */
  method ExtractReply(messages: seq<Message>) returns (text: string)
    ensures text == ReplyText(messages)
  {
    text := "";
    var found := false;
    var i := |messages|;
    assert messages[..i] == messages;
    while i > 0 && !found
      invariant 0 <= i <= |messages|
      invariant !found ==> text == "" && LastAi(messages) == LastAi(messages[..i])
      invariant found ==> LastAi(messages) == Some(text)
    {
      i := i - 1;
      assert messages[..i + 1][..i] == messages[..i];
      if messages[i].Ai? {
        text := messages[i].content;
        found := true;
      }
    }
    if text == "" {
      text := APOLOGY;
    }
  }

  // --------------------------------------------------------- session table

  /** The session table after a request on `sid`: the key exists, and the
      turn, if any, joins the end of its history. */
  function Record(sessions: map<string, seq<Turn>>, sid: string, turn: Option<Turn>): map<string, seq<Turn>> {
    var before := if sid in sessions then sessions[sid] else [];
    sessions[sid := before + (if turn.Some? then [turn.value] else [])]
  }

  /** A request never resets an existing history, appends at most the one
      turn, and leaves every other session as it was. */
  lemma RecordIsolates(sessions: map<string, seq<Turn>>, sid: string, turn: Option<Turn>)
    ensures Record(sessions, sid, turn).Keys == sessions.Keys + {sid}
    ensures sid in sessions ==> sessions[sid] <= Record(sessions, sid, turn)[sid]
    ensures sid !in sessions ==> Record(sessions, sid, turn)[sid] == (if turn.Some? then [turn.value] else [])
    ensures |Record(sessions, sid, turn)[sid]| == (if sid in sessions then |sessions[sid]| else 0) + (if turn.Some? then 1 else 0)
    ensures forall k :: k in sessions && k != sid ==> Record(sessions, sid, turn)[k] == sessions[k]
  {
  }

  /** The events a streamed request emits: workflow_start, the nodes' events,
      and on success done (with the reply) and workflow_end. */
  function WorkflowStream(sid: string, start: AgentState, llm: Llm, exec: Executor, prompt: string,
                          maxIterations: int, now: int): seq<Event>
  {
    var out := RunFrom(start, llm, exec, prompt, maxIterations);
    EventsOf([WorkflowStart(Some(map["session_id" := VStr(sid)]))], now)
    + RunTrace(start, llm, exec, prompt, maxIterations, now)
    + (if out.ok then EventsOf(Closing(sid, out), now) else [])
  }

  /** The `on_done` and `on_workflow_end` calls after a successful run. */
  function Closing(sid: string, out: Outcome): seq<Invocation> {
    [Done(Some(ReplyText(out.state.messages)),
          Some(map["session_id" := VStr(sid), "iteration" := VInt(IterOf(out.state)),
                   "next_action" := VStr(out.state.nextAction.GetOr("end"))])),
     WorkflowEnd(Some(map["session_id" := VStr(sid)]))]
  }

  /** A series without events of type t counts none. */
  lemma {:induction false} CountNone(evs: seq<Event>, t: string)
    requires forall e :: e in evs ==> e.eventType != t
    ensures CountType(evs, t) == 0
    decreases |evs|
  {
    if |evs| > 0 {
      assert forall e :: e in evs[..|evs| - 1] ==> e in evs;
      CountNone(evs[..|evs| - 1], t);
    }
  }

  /** A series of invocations none of which has type t adds nothing to its count. */
  lemma CountAbsent(invs: seq<Invocation>, now: int, t: string)
    requires forall inv :: inv in invs ==> TypeOf(inv) != t
    ensures CountType(EventsOf(invs, now), t) == 0
  {
    EventsOfShape(invs, now);
    forall e | e in EventsOf(invs, now) ensures e.eventType != t {
      var k :| 0 <= k < |EventsOf(invs, now)| && EventsOf(invs, now)[k] == e;
      assert invs[k] in invs;
    }
    CountNone(EventsOf(invs, now), t);
  }

  /** The agent node never emits workflow or done events. */
  lemma AgentEventsLack(s: AgentState, reply: Option<Reply>, now: int, t: string)
    requires t == DONE || t == WORKFLOW_START || t == WORKFLOW_END || t == WORKFLOW_ERROR
    ensures CountType(EventsOf(AgentNodeInvocations(s, reply), now), t) == 0
  {
    CountAbsent(AgentNodeInvocations(s, reply), now, t);
  }

  /** Counting over a round of agent events, tool events and the rest of a run. */
  lemma CountThree(a: seq<Event>, b: seq<Event>, c: seq<Event>, t: string)
    ensures CountType(a + b + c, t) == CountType(a, t) + CountType(b, t) + CountType(c, t)
  {
    CountTypeConcat(a, b, t);
    CountTypeConcat(a + b, c, t);
  }

  /** The nodes never emit workflow or done events. */
  lemma {:induction false} RunTraceLacks(s: AgentState, llm: Llm, exec: Executor, prompt: string,
                                         maxIterations: int, now: int, t: string)
    requires t == DONE || t == WORKFLOW_START || t == WORKFLOW_END || t == WORKFLOW_ERROR
    ensures CountType(RunTrace(s, llm, exec, prompt, maxIterations, now), t) == 0
    decreases Budget(s, maxIterations)
  {
    AgentEventsLack(s, llm(Prompted(s, prompt)), now, t);
    match AgentStep(s, llm, prompt)
    case None =>
    case Some(u) =>
      var a := AfterAgent(s, u);
      if Route(a, maxIterations) != END {
        var next := AfterTools(a, ToolsUpdateOf(a, exec));
        RunTraceLacks(next, llm, exec, prompt, maxIterations, now, t);
        TraceCount(a, exec(a.messages), now, t);
        RunTraceNext(s, llm, exec, prompt, maxIterations, now);
        CountThree(EventsOf(AgentNodeInvocations(s, llm(Prompted(s, prompt))), now), ToolsTrace(a, exec(a.messages), now),
                   RunTrace(next, llm, exec, prompt, maxIterations, now), t);
      }
  }

  /** The stream has one done and one workflow_end exactly when the run
      succeeded, and never a workflow_error event. */
  lemma StreamCount(sid: string, start: AgentState, llm: Llm, exec: Executor, prompt: string,
                    maxIterations: int, now: int, t: string)
    requires t == DONE || t == WORKFLOW_END || t == WORKFLOW_ERROR
    ensures CountType(WorkflowStream(sid, start, llm, exec, prompt, maxIterations, now), t)
            == (if RunFrom(start, llm, exec, prompt, maxIterations).ok && t != WORKFLOW_ERROR then 1 else 0)
  {
    var out := RunFrom(start, llm, exec, prompt, maxIterations);
    var head := EventsOf([WorkflowStart(Some(map["session_id" := VStr(sid)]))], now);
    var body := RunTrace(start, llm, exec, prompt, maxIterations, now);
    var tail := if out.ok then EventsOf(Closing(sid, out), now) else [];
    assert WorkflowStream(sid, start, llm, exec, prompt, maxIterations, now) == head + body + tail;
    CountAbsent([WorkflowStart(Some(map["session_id" := VStr(sid)]))], now, t);
    RunTraceLacks(start, llm, exec, prompt, maxIterations, now, t);
    CountThree(head, body, tail, t);
    if out.ok {
      ClosingCount(sid, out, now, t);
    } else {
      assert CountType(tail, t) == 0;
    }
  }

  /** The closing events count one done and one workflow_end. */
  lemma ClosingCount(sid: string, out: Outcome, now: int, t: string)
    requires t == DONE || t == WORKFLOW_END || t == WORKFLOW_ERROR
    ensures CountType(EventsOf(Closing(sid, out), now), t) == (if t != WORKFLOW_ERROR then 1 else 0)
  {
    var c := Closing(sid, out);
    assert c == [c[0]] + [c[1]];
    EventsOfConcat([c[0]], [c[1]], now);
    CountTypeConcat(EventsOf([c[0]], now), EventsOf([c[1]], now), t);
  }

  /** The closing events: done carrying the reply, then workflow_end. */
  lemma ClosingShape(sid: string, out: Outcome, now: int)
    ensures var tail := EventsOf(Closing(sid, out), now);
      && |tail| == 2 && tail[0].eventType == DONE && tail[1].eventType == WORKFLOW_END
      && "message" in tail[0].data && tail[0].data["message"] == VStr(ReplyText(out.state.messages))
  {
    EventsOfShape(Closing(sid, out), now);
    DoneMessage(Some(ReplyText(out.state.messages)),
                Some(map["session_id" := VStr(sid), "iteration" := VInt(IterOf(out.state)),
                         "next_action" := VStr(out.state.nextAction.GetOr("end"))]));
    ReplyTextNonEmpty(out.state.messages);
  }

  /** The stream opens with workflow_start; on success it closes with done,
      carrying the reply, and workflow_end. */
  lemma WorkflowStreamShape(sid: string, start: AgentState, llm: Llm, exec: Executor, prompt: string,
                            maxIterations: int, now: int)
    ensures var st := WorkflowStream(sid, start, llm, exec, prompt, maxIterations, now);
      var out := RunFrom(start, llm, exec, prompt, maxIterations);
      && |st| >= 1 && st[0].eventType == WORKFLOW_START
      && (out.ok ==> && |st| >= 3
                     && st[|st| - 1].eventType == WORKFLOW_END && st[|st| - 2].eventType == DONE
                     && "message" in st[|st| - 2].data
                     && st[|st| - 2].data["message"] == VStr(ReplyText(out.state.messages)))
  {
    var out := RunFrom(start, llm, exec, prompt, maxIterations);
    var head := EventsOf([WorkflowStart(Some(map["session_id" := VStr(sid)]))], now);
    var body := RunTrace(start, llm, exec, prompt, maxIterations, now);
    var st := WorkflowStream(sid, start, llm, exec, prompt, maxIterations, now);
    if out.ok {
      var tail := EventsOf(Closing(sid, out), now);
      assert st == (head + body) + tail;
      ClosingShape(sid, out, now);
      assert st[|st| - 2] == tail[0];
      assert st[|st| - 1] == tail[1];
    } else {
      assert st == head + body + [];
    }
  }

  /** The drain loop once the run is over: every queued event, oldest first,
      each exactly once, until the queue is empty. */
  method Drain(em: EventEmitter, q: QueueId) returns (out: seq<Event>)
    requires em.Valid() && q in em.inbox
    modifies em
    ensures em.Valid()
    ensures out == old(em.inbox[q])
    ensures em.inbox == old(em.inbox)[q := []]
    ensures em.listeners == old(em.listeners) && em.queues == old(em.queues) && em.events == old(em.events)
  {
    out := [];
    while true
      invariant em.Valid() && q in em.inbox
      invariant out + em.inbox[q] == old(em.inbox[q])
      invariant em.inbox == old(em.inbox)[q := em.inbox[q]]
      invariant em.listeners == old(em.listeners) && em.queues == old(em.queues) && em.events == old(em.events)
      decreases |em.inbox[q]|
    {
      var e := em.Poll(q);
      if e.None? {
        break;
      }
      out := out + [e.value];
    }
    assert out + [] == out;
  }

  /** The generator of `chat_workflow`: a fresh emitter with one subscribed
      queue, workflow_start, the run, done and workflow_end on success; then
      the queue is drained and unsubscribed. The stream is every event the run
      emitted, in emission order, each once. */
  method StreamRun(sid: string, start: AgentState, llm: Llm, exec: Executor, prompt: string,
                   maxIterations: int, now: int)
    returns (out: Outcome, stream: seq<Event>)
    ensures out == RunFrom(start, llm, exec, prompt, maxIterations)
    ensures stream == WorkflowStream(sid, start, llm, exec, prompt, maxIterations, now)
  {
    var em := new EventEmitter();
    var sub := em.Subscribe(None, None);
    var q := sub.value.value;
    ghost var e0, i0, c0 := em.events, em.inbox, em.calls;
    FireAll(em, [WorkflowStart(Some(map["session_id" := VStr(sid)]))], now);
    ghost var done := EventsOf([WorkflowStart(Some(map["session_id" := VStr(sid)]))], now);
    out := RunSegment(em, e0, i0, c0, done, start, llm, exec, prompt, maxIterations, now);
    done := done + RunTrace(start, llm, exec, prompt, maxIterations, now);
    EmitClosing(em, e0, i0, c0, done, sid, out, now);
    done := done + (if out.ok then EventsOf(Closing(sid, out), now) else []);
    BroadcastAllFifo(i0, em.queues, done);
    stream := Drain(em, q);
    em.Unsubscribe(QueueTarget(q), None);
  }

  /** After a successful run, `on_done` with the reply and `on_workflow_end`. */
  method EmitClosing(em: EventEmitter, ghost e0: seq<Event>, ghost i0: map<QueueId, seq<Event>>, ghost c0: seq<Call>,
                     ghost done: seq<Event>, sid: string, out: Outcome, now: int)
    requires em.Valid() && em.Emitted(e0, i0, c0, done)
    modifies em
    ensures em.Valid() && em.Emitted(e0, i0, c0, done + (if out.ok then EventsOf(Closing(sid, out), now) else []))
    ensures em.listeners == old(em.listeners) && em.queues == old(em.queues) && em.nextQueue == old(em.nextQueue)
  {
    if out.ok {
      var text := ExtractReply(out.state.messages);
      var closing := [Done(Some(text), Some(map["session_id" := VStr(sid), "iteration" := VInt(IterOf(out.state)),
                                               "next_action" := VStr(out.state.nextAction.GetOr("end"))])),
                      WorkflowEnd(Some(map["session_id" := VStr(sid)]))];
      assert closing == Closing(sid, out);
      FireMore(em, e0, i0, c0, done, closing, now);
    } else {
      assert done + [] == done;
    }
  }

  /** The graph run of `chat_workflow`, as the next segment of the emitter's events. */
  method RunSegment(em: EventEmitter, ghost e0: seq<Event>, ghost i0: map<QueueId, seq<Event>>, ghost c0: seq<Call>,
                    ghost done: seq<Event>, start: AgentState, llm: Llm, exec: Executor, prompt: string,
                    maxIterations: int, now: int)
    returns (out: Outcome)
    requires em.Valid() && em.Emitted(e0, i0, c0, done)
    modifies em
    ensures em.Valid() && em.Emitted(e0, i0, c0, done + RunTrace(start, llm, exec, prompt, maxIterations, now))
    ensures em.listeners == old(em.listeners) && em.queues == old(em.queues) && em.nextQueue == old(em.nextQueue)
    ensures out == RunFrom(start, llm, exec, prompt, maxIterations)
  {
    ghost var more := RunTrace(start, llm, exec, prompt, maxIterations, now);
    ghost var events1, inbox1, calls1 := em.events, em.inbox, em.calls;
    out := InvokeWithEvents(em, start, llm, exec, prompt, maxIterations, now);
    ChainEmitted(em.listeners, em.queues, e0, i0, c0, done, events1, inbox1, calls1, more, em.events, em.inbox, em.calls);
  }


  /** The chat service: the session table and the checkpointer's memory. */
  class ChatService {
    var sessions: map<string, seq<Turn>>
    var checkpoints: map<string, seq<Message>>
    /** `settings.max_iterations`. */
    const maxIterations: int
    /** `AGENT_SYSTEM_PROMPT`. */
    const systemPrompt: string

    constructor (maxIterations: int, systemPrompt: string)
      ensures sessions == map[] && checkpoints == map[]
      ensures this.maxIterations == maxIterations && this.systemPrompt == systemPrompt
    {
      sessions := map[];
      checkpoints := map[];
      this.maxIterations := maxIterations;
      this.systemPrompt := systemPrompt;
    }

    /** Records the end of a request on `sid`: the session key exists, a
        successful run adds its turn, and the checkpointer keeps the messages
        of the last completed step. */
    method Store(sid: string, message: string, out: Outcome)
      modifies this
      ensures checkpoints == old(checkpoints)[sid := out.state.messages]
      ensures sessions == Record(old(sessions), sid, if out.ok then Some(Turn(message, ReplyText(out.state.messages))) else None)
    {
      if sid !in sessions {
        sessions := sessions[sid := []];
      }
      checkpoints := checkpoints[sid := out.state.messages];
      if out.ok {
        var text := ExtractReply(out.state.messages);
        sessions := sessions[sid := sessions[sid] + [Turn(message, text)]];
      } else {
        assert sessions[sid] + [] == sessions[sid];
      }
    }

    /** `chat`: runs the plain graph for the session; on success stores one
        turn and answers with the reply; when the model raises, the request
        fails with 500 and no turn is stored. */
    method Chat(req: ChatRequest, freshId: string, llm: Llm, exec: Executor)
      returns (res: Result<ChatResponse, HttpError>)
      modifies this
      ensures var sid := SessionKey(req, freshId);
        var out := RunFrom(InitialState(old(History(checkpoints, sid)), req.message), llm, exec, systemPrompt, maxIterations);
        && checkpoints == old(checkpoints)[sid := out.state.messages]
        && sessions == Record(old(sessions), sid, if out.ok then Some(Turn(req.message, ReplyText(out.state.messages))) else None)
        && (out.ok ==> res == Ok(ChatResponse(ReplyText(out.state.messages), sid, IterOf(out.state),
                                              out.state.nextAction.GetOr("end"))))
        && (!out.ok ==> res == Err(HttpError(500, "Internal Server Error")))
    {
      var sid := SessionKey(req, freshId);
      var start := InitialState(History(checkpoints, sid), req.message);
      var out := Invoke(start, llm, exec, systemPrompt, maxIterations);
      Store(sid, req.message, out);
      if !out.ok {
        return Err(HttpError(500, "Internal Server Error"));
      }
      var text := ExtractReply(out.state.messages);
      res := Ok(ChatResponse(text, sid, IterOf(out.state), out.state.nextAction.GetOr("end")));
    }

    /** `chat_workflow`: runs the event-emitting graph, streams its events and
        records the request like `chat`. */
    method ChatWorkflow(req: ChatRequest, freshId: string, llm: Llm, exec: Executor, now: int)
      returns (stream: seq<Event>)
      modifies this
      ensures var sid := SessionKey(req, freshId);
        var start := InitialState(old(History(checkpoints, sid)), req.message);
        var out := RunFrom(start, llm, exec, systemPrompt, maxIterations);
        && stream == WorkflowStream(sid, start, llm, exec, systemPrompt, maxIterations, now)
        && checkpoints == old(checkpoints)[sid := out.state.messages]
        && sessions == Record(old(sessions), sid, if out.ok then Some(Turn(req.message, ReplyText(out.state.messages))) else None)
    {
      var sid := SessionKey(req, freshId);
      var start := InitialState(History(checkpoints, sid), req.message);
      var out;
      out, stream := StreamRun(sid, start, llm, exec, systemPrompt, maxIterations, now);
      Store(sid, req.message, out);
    }
    /** `clear_session`: the session is gone, whether it existed or not; the
        checkpointer's memory of the thread is kept. */
    method ClearSession(sid: string) returns (r: Ack)
      modifies this
      ensures sessions == old(sessions) - {sid}
      ensures checkpoints == old(checkpoints)
      ensures r == Ack("success", "Session cleared")
    {
      if sid in sessions {
        sessions := sessions - {sid};
      }
      r := Ack("success", "Session cleared");
    }

    /** `get_session`: 404 for an unknown id, the stored history otherwise. */
    function GetSession(sid: string): (r: Result<SessionView, HttpError>)
      reads this
      ensures r.Err? <==> sid !in sessions
      ensures r.Err? ==> r.error == HttpError(404, "Session not found")
      ensures r.Ok? ==> r.value.sessionId == sid && r.value.history == sessions[sid]
    {
      if sid !in sessions then Err(HttpError(404, "Session not found"))
      else Ok(SessionView(sid, sessions[sid]))
    }
  }
}
