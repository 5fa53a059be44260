/** The callback table that workflow nodes use to report progress
    (events/middleware.py). Each callback performs exactly one emit whose type
    is fixed by the callback; its payload is a small built-in dictionary with
    the caller's optional `data` spread over it last. */
module Middleware {
  import opened Common
  import opened Emitter

  /** One call of one callback of the table, with its arguments. */
  datatype Invocation =
    | WorkflowStart(data: Option<Payload>)
    | WorkflowEnd(data: Option<Payload>)
    | WorkflowError(error: string, data: Option<Payload>)
    | NodeStart(nodeName: string, iteration: Option<int>, data: Option<Payload>)
    | NodeEnd(nodeName: string, iteration: Option<int>, data: Option<Payload>)
    | NodeError(nodeName: string, error: string, iteration: Option<int>, data: Option<Payload>)
    | ToolStart(toolName: string, iteration: Option<int>, data: Option<Payload>)
    | ToolEnd(toolName: string, iteration: Option<int>, data: Option<Payload>)
    | ToolError(toolName: string, error: string, iteration: Option<int>, data: Option<Payload>)
    | AgentThinking(iteration: Option<int>, data: Option<Payload>)
    | AgentResponse(message: string, iteration: Option<int>, data: Option<Payload>)
    | RouterDecision(decision: string, iteration: Option<int>, data: Option<Payload>)
    | Status(message: string, statusNode: Option<string>, data: Option<Payload>)
    | Token(token: string, data: Option<Payload>)
    | Done(doneMessage: Option<string>, data: Option<Payload>)

  /** The names under which the table exports its callbacks. */
  const CALLBACK_NAMES: seq<string> := [
    "on_workflow_start", "on_workflow_end", "on_workflow_error",
    "on_node_start", "on_node_end", "on_node_error",
    "on_tool_start", "on_tool_end", "on_tool_error",
    "on_agent_thinking", "on_agent_response", "on_router_decision",
    "on_status", "on_token", "on_done"]

  /** The exported name of the callback an invocation calls. */
  function NameOf(inv: Invocation): string {
    match inv
    case WorkflowStart(_) => "on_workflow_start"
    case WorkflowEnd(_) => "on_workflow_end"
    case WorkflowError(_, _) => "on_workflow_error"
    case NodeStart(_, _, _) => "on_node_start"
    case NodeEnd(_, _, _) => "on_node_end"
    case NodeError(_, _, _, _) => "on_node_error"
    case ToolStart(_, _, _) => "on_tool_start"
    case ToolEnd(_, _, _) => "on_tool_end"
    case ToolError(_, _, _, _) => "on_tool_error"
    case AgentThinking(_, _) => "on_agent_thinking"
    case AgentResponse(_, _, _) => "on_agent_response"
    case RouterDecision(_, _, _) => "on_router_decision"
    case Status(_, _, _) => "on_status"
    case Token(_, _) => "on_token"
    case Done(_, _) => "on_done"
  }

  /** The event type each callback emits. */
  function TypeOf(inv: Invocation): string {
    match inv
    case WorkflowStart(_) => WORKFLOW_START
    case WorkflowEnd(_) => WORKFLOW_END
    case WorkflowError(_, _) => WORKFLOW_ERROR
    case NodeStart(_, _, _) => NODE_START
    case NodeEnd(_, _, _) => NODE_END
    case NodeError(_, _, _, _) => NODE_ERROR
    case ToolStart(_, _, _) => TOOL_START
    case ToolEnd(_, _, _) => TOOL_END
    case ToolError(_, _, _, _) => TOOL_ERROR
    case AgentThinking(_, _) => AGENT_THINKING
    case AgentResponse(_, _, _) => AGENT_RESPONSE
    case RouterDecision(_, _, _) => ROUTER_DECISION
    case Status(_, _, _) => STATUS
    case Token(_, _) => TOKEN
    case Done(_, _) => DONE
  }

  /** The table exports exactly fifteen callbacks, under distinct names, and
      every invocation goes through one of them. */
  lemma CallbackTable(inv: Invocation)
    ensures |CALLBACK_NAMES| == 15 && NoDup(CALLBACK_NAMES)
    ensures NameOf(inv) in CALLBACK_NAMES
  {
    CallbackNamesDistinct();
  }

  lemma CallbackNamesDistinct()
    ensures NoDup(CALLBACK_NAMES)
  {
  }

  /** Callbacks with different names emit events of different types, and none
      of them emits `ticket_created`. */
  lemma TypePerCallback(a: Invocation, b: Invocation)
    ensures NameOf(a) != NameOf(b) ==> TypeOf(a) != TypeOf(b)
    ensures NameOf(a) == NameOf(b) ==> TypeOf(a) == TypeOf(b)
    ensures TypeOf(a) != TICKET_CREATED
  {
  }

  /** `{**built_in, **(data or {})}`: the caller's keys are spread last and win. */
  function Spread(builtIn: Payload, data: Option<Payload>): Payload {
    if data.Some? then builtIn + data.value else builtIn
  }

  /** The dictionary each callback writes before the caller's data. */
  function BuiltIn(inv: Invocation): Payload {
    match inv
    case WorkflowStart(_) =>
      map["message" := VStr("Workflow execution started")]
    case WorkflowEnd(_) =>
      map["message" := VStr("Workflow execution completed")]
    case WorkflowError(error, _) =>
      map["message" := VStr("Workflow execution error"), "error" := VStr(error)]
    case NodeStart(n, it, _) =>
      map["node_name" := VStr(n), "message" := VStr("Entering node: " + n), "iteration" := OptInt(it)]
    case NodeEnd(n, it, _) =>
      map["node_name" := VStr(n), "message" := VStr("Completed node: " + n), "iteration" := OptInt(it)]
    case NodeError(n, error, it, _) =>
      map["node_name" := VStr(n), "message" := VStr("Error in node: " + n), "error" := VStr(error),
          "iteration" := OptInt(it)]
    case ToolStart(t, it, _) =>
      map["tool_name" := VStr(t), "message" := VStr("Executing tool: " + t), "iteration" := OptInt(it)]
    case ToolEnd(t, it, _) =>
      map["tool_name" := VStr(t), "message" := VStr("Tool completed: " + t), "iteration" := OptInt(it)]
    case ToolError(t, error, it, _) =>
      map["tool_name" := VStr(t), "message" := VStr("Tool error: " + t), "error" := VStr(error),
          "iteration" := OptInt(it)]
    case AgentThinking(it, _) =>
      map["node_name" := VStr("agent"), "message" := VStr("Agent is analyzing the request..."),
          "iteration" := OptInt(it)]
    case AgentResponse(m, it, _) =>
      map["node_name" := VStr("agent"), "message" := VStr(m), "iteration" := OptInt(it)]
    case RouterDecision(d, it, _) =>
      map["node_name" := VStr("router"), "message" := VStr("Router decision: " + d),
          "iteration" := OptInt(it), "decision" := VStr(d)]
    case Status(m, n, _) =>
      map["node_name" := OptStr(n), "message" := VStr(m)]
    case Token(t, _) =>
      map["message" := VStr(t)]
    case Done(m, _) =>
      map["message" := VStr(if Truthy(m) then m.value else "Processing complete")]
  }

  /** The payload of the single event an invocation emits. */
  function PayloadOf(inv: Invocation): Payload {
    Spread(BuiltIn(inv), inv.data)
  }

  /** Every payload has a message; the caller's data keys override the
      built-in ones, and the built-in keys it does not mention keep their value. */
  lemma DataOverrides(inv: Invocation)
    ensures "message" in PayloadOf(inv)
    ensures PayloadOf(inv).Keys == BuiltIn(inv).Keys + (if inv.data.Some? then inv.data.value.Keys else {})
    ensures inv.data.Some? ==> forall k :: k in inv.data.value ==> PayloadOf(inv)[k] == inv.data.value[k]
    ensures forall k :: k in BuiltIn(inv) && (inv.data.None? || k !in inv.data.value) ==> PayloadOf(inv)[k] == BuiltIn(inv)[k]
  {
    BuiltInMessage(inv);
    SpreadSpec(BuiltIn(inv), inv.data);
  }

  lemma BuiltInMessage(inv: Invocation)
    ensures "message" in BuiltIn(inv)
  {
    match inv
    case WorkflowStart(_) =>
    case WorkflowEnd(_) =>
    case WorkflowError(_, _) =>
    case NodeStart(_, _, _) =>
    case NodeEnd(_, _, _) =>
    case NodeError(_, _, _, _) =>
    case ToolStart(_, _, _) =>
    case ToolEnd(_, _, _) =>
    case ToolError(_, _, _, _) =>
    case AgentThinking(_, _) =>
    case AgentResponse(_, _, _) =>
    case RouterDecision(_, _, _) =>
    case Status(_, _, _) =>
    case Token(_, _) =>
    case Done(_, _) =>
  }

  lemma SpreadSpec(builtIn: Payload, data: Option<Payload>)
    ensures Spread(builtIn, data).Keys == builtIn.Keys + (if data.Some? then data.value.Keys else {})
    ensures data.Some? ==> forall k :: k in data.value ==> Spread(builtIn, data)[k] == data.value[k]
    ensures forall k :: k in builtIn && (data.None? || k !in data.value) ==> Spread(builtIn, data)[k] == builtIn[k]
  {
  }

  /** Without caller data, the node and agent-thinking callbacks record the
      iteration they are given. */
  lemma IterationPayload(inv: Invocation)
    requires inv.NodeStart? || inv.NodeEnd? || inv.AgentThinking?
    requires inv.data.None?
    ensures "iteration" in PayloadOf(inv) && PayloadOf(inv)["iteration"] == OptInt(inv.iteration)
  {
  }

  /** The event an invocation emits at time `now`. */
  function EventOf(inv: Invocation, now: int): Event {
    NewEvent(TypeOf(inv), Some(PayloadOf(inv)), None, now)
  }

  /** The events of a series of invocations, in order. */
  function EventsOf(invs: seq<Invocation>, now: int): seq<Event> {
    seq(|invs|, i requires 0 <= i < |invs| => EventOf(invs[i], now))
  }

  /** Each invocation emits one event, of the callback's type, at `now`, with
      the callback's payload, in invocation order. */
  lemma EventsOfShape(invs: seq<Invocation>, now: int)
    ensures |EventsOf(invs, now)| == |invs|
    ensures forall i :: 0 <= i < |invs| ==>
      && EventsOf(invs, now)[i].eventType == TypeOf(invs[i])
      && EventsOf(invs, now)[i].timestamp == now
      && EventsOf(invs, now)[i].data == PayloadOf(invs[i])
  {
  }

  /** The events of two series of invocations, one after the other. */
  lemma EventsOfConcat(a: seq<Invocation>, b: seq<Invocation>, now: int)
    ensures EventsOf(a + b, now) == EventsOf(a, now) + EventsOf(b, now)
  {
    var l := EventsOf(a + b, now);
    var r := EventsOf(a, now) + EventsOf(b, now);
    forall i | 0 <= i < |l| ensures l[i] == r[i] {
      if i < |a| {
        assert (a + b)[i] == a[i];
      } else {
        assert (a + b)[i] == b[i - |a|];
      }
    }
  }

  /** `on_done` reports "Processing complete" when the message is missing or
      empty, and the given message otherwise. */
  lemma DoneMessage(m: Option<string>, data: Option<Payload>)
    requires data.None? || "message" !in data.value
    ensures PayloadOf(Done(m, data))["message"] == VStr(if m.None? || m.value == "" then "Processing complete" else m.value)
  {
  }

  /** `on_router_decision` always names the router and the decision. */
  lemma RouterPayload(d: string, it: Option<int>)
    ensures PayloadOf(RouterDecision(d, it, None)).Keys == {"node_name", "message", "iteration", "decision"}
    ensures PayloadOf(RouterDecision(d, it, None))["node_name"] == VStr("router")
    ensures PayloadOf(RouterDecision(d, it, None))["decision"] == VStr(d)
    ensures PayloadOf(RouterDecision(d, it, None))["message"] == VStr("Router decision: " + d)
  {
  }

  /** Calls a callback of the table bound to `em`: exactly one emit. */
  method Fire(em: EventEmitter, inv: Invocation, now: int)
    requires em.Valid()
    modifies em
    ensures em.Valid()
    ensures em.events == old(em.events) + [EventOf(inv, now)]
    ensures em.inbox == Broadcast(old(em.inbox), em.queues, EventOf(inv, now))
    ensures em.calls == old(em.calls) + CallsFor(Registered(em.listeners, TypeOf(inv)), EventOf(inv, now))
    ensures em.listeners == old(em.listeners) && em.queues == old(em.queues)
    ensures em.nextQueue == old(em.nextQueue)
  {
    em.Emit(TypeOf(inv), Some(PayloadOf(inv)), now);
  }

  /** Calls a series of callbacks in order. */
  method FireAll(em: EventEmitter, invs: seq<Invocation>, now: int)
    requires em.Valid()
    modifies em
    ensures em.Valid() && em.Emitted(old(em.events), old(em.inbox), old(em.calls), EventsOf(invs, now))
    ensures em.listeners == old(em.listeners) && em.queues == old(em.queues) && em.nextQueue == old(em.nextQueue)
  {
    em.EmitAll(EventsOf(invs, now));
  }

  /** Calls a series of callbacks as the next segment of a longer series. */
  method FireMore(em: EventEmitter, ghost events0: seq<Event>, ghost inbox0: map<QueueId, seq<Event>>,
                  ghost calls0: seq<Call>, ghost done: seq<Event>, invs: seq<Invocation>, now: int)
    requires em.Valid() && em.Emitted(events0, inbox0, calls0, done)
    modifies em
    ensures em.Valid() && em.Emitted(events0, inbox0, calls0, done + EventsOf(invs, now))
    ensures em.listeners == old(em.listeners) && em.queues == old(em.queues) && em.nextQueue == old(em.nextQueue)
  {
    em.EmitMore(events0, inbox0, calls0, done, EventsOf(invs, now));
  }
}
