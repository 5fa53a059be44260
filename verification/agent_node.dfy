/** The agent step of the workflow (agents/agent_node.py): the language model
    is asked, with the system prompt in front of the conversation, either to
    call tools or to answer. The model is an oracle `Llm` that returns a reply
    or None when the call raises. */
module AgentNode {
  import opened Common
  import opened Emitter
  import opened Middleware
  import opened Messages

  /** The tools bound to the model, by name, in table order. */
  const TOOLS: seq<string> := [
    "get_current_time", "search_it_policy", "search_troubleshooting_guide", "search_all_documents",
    "create_ticket", "get_ticket", "search_tickets", "get_my_open_tickets", "delete_ticket",
    "update_ticket_status", "update_ticket_priority", "add_ticket_comment", "assign_ticket",
    "add_tags_to_ticket", "set_ticket_category", "set_ticket_due_date"]

  /** The tool table has sixteen entries with pairwise distinct names. */
  lemma ToolTable()
    ensures |TOOLS| == 16
    ensures NoDup(TOOLS)
  {
  }

  /** The workflow state the nodes read and write; a key the state lacks is None. */
  datatype AgentState = AgentState(
    messages: seq<Message>,
    iteration: Option<int>,
    nextAction: Option<string>,
    activeTickets: seq<int>,
    searchedDocuments: seq<string>)

  /** `state.get("iteration", 0)`. */
  function IterOf(s: AgentState): int {
    s.iteration.GetOr(0)
  }

  /** A model reply: an AI message, possibly with tool calls. */
  datatype Reply = Reply(content: string, toolCalls: seq<ToolCall>)

  function AsMessage(r: Reply): (m: Message)
    ensures m.Ai? && m.content == r.content && m.toolCalls == r.toolCalls
  {
    Ai(r.content, r.toolCalls)
  }

  /** The language model: None when the call raises. */
  type Llm = seq<Message> -> Option<Reply>

  /** The partial state the agent node returns. */
  datatype AgentUpdate = AgentUpdate(reply: Reply, iteration: int, nextAction: string)

  /** "tools" when the reply carries tool calls, "end" otherwise. */
  function ActionFor(r: Reply): (a: string)
    ensures a == "tools" <==> |r.toolCalls| > 0
    ensures a == "tools" || a == "end"
  {
    if |r.toolCalls| > 0 then "tools" else "end"
  }

  /** What the model is shown: the system prompt, then the conversation. */
  function Prompted(s: AgentState, systemPrompt: string): seq<Message> {
    BaseMessages(s.messages, systemPrompt)
  }

  /** `agent_node`: one model call; None when it raises. */
  function AgentStep(s: AgentState, llm: Llm, systemPrompt: string): (r: Option<AgentUpdate>)
    ensures r.None? <==> llm(Prompted(s, systemPrompt)).None?
    ensures r.Some? ==> r.value.reply == llm(Prompted(s, systemPrompt)).value
    ensures r.Some? ==> r.value.iteration == IterOf(s) + 1
    ensures r.Some? ==> (r.value.nextAction == "tools" <==> |r.value.reply.toolCalls| > 0)
  {
    match llm(Prompted(s, systemPrompt))
    case None => None
    case Some(reply) => Some(AgentUpdate(reply, IterOf(s) + 1, ActionFor(reply)))
  }

  /** The status callback `_emit_agent_decision` makes for a reply. */
  function DecisionStatus(r: Reply): (inv: Invocation)
    ensures inv.Status? && inv.statusNode == Some("agent")
  {
    if |r.toolCalls| > 0 then
      Status("Agent calling tools: " + Join(CallNames(r.toolCalls), ", "), Some("agent"),
             Some(map["tool_names" := StrList(CallNames(r.toolCalls))]))
    else
      Status("Agent providing final answer", Some("agent"), None)
  }

  /** A reply with tool calls is announced with their names, unnamed calls as
      "unknown"; a reply without is announced as the final answer. */
  lemma DecisionStatusText(r: Reply)
    ensures |r.toolCalls| > 0 ==>
      DecisionStatus(r).message == "Agent calling tools: " + Join(CallNames(r.toolCalls), ", ")
      && PayloadOf(DecisionStatus(r))["tool_names"] == StrList(CallNames(r.toolCalls))
    ensures |r.toolCalls| == 0 ==>
      DecisionStatus(r).message == "Agent providing final answer"
      && PayloadOf(DecisionStatus(r)).Keys == {"node_name", "message"}
    ensures forall i :: 0 <= i < |r.toolCalls| && r.toolCalls[i].name.None? ==> CallNames(r.toolCalls)[i] == "unknown"
  {
  }

  /** `_emit_agent_decision`, as the next segment of the node's events: one
      status event, and the same decision as `agent_node`. */
  method EmitAgentDecision(em: EventEmitter, ghost events0: seq<Event>, ghost inbox0: map<QueueId, seq<Event>>,
                           ghost calls0: seq<Call>, ghost done: seq<Event>, r: Reply, iteration: int, now: int)
    returns (action: string)
    requires em.Valid() && em.Emitted(events0, inbox0, calls0, done)
    modifies em
    ensures em.Valid() && em.Emitted(events0, inbox0, calls0, done + EventsOf([DecisionStatus(r)], now))
    ensures em.listeners == old(em.listeners) && em.queues == old(em.queues) && em.nextQueue == old(em.nextQueue)
    ensures action == ActionFor(r)
  {
    FireMore(em, events0, inbox0, calls0, done, [DecisionStatus(r)], now);
    if |r.toolCalls| > 0 {
      action := "tools";
    } else {
      action := "end";
    }
  }

  /** The callbacks the event-emitting agent node makes: node start and thinking
      before the model call, then (if the call returned) the decision status
      and node end. */
  function AgentNodeInvocations(s: AgentState, reply: Option<Reply>): seq<Invocation> {
    var it := IterOf(s) + 1;
    [NodeStart("agent", Some(it), None), AgentThinking(Some(it), None)]
    + (if reply.Some? then [DecisionStatus(reply.value), NodeEnd("agent", Some(it), None)] else [])
  }

  /** The event order of one agent step: node_start, agent_thinking, status,
      node_end; the node events carry the iteration the step returns. */
  lemma AgentNodeEventOrder(s: AgentState, llm: Llm, systemPrompt: string, now: int)
    requires AgentStep(s, llm, systemPrompt).Some?
    ensures var evs := EventsOf(AgentNodeInvocations(s, llm(Prompted(s, systemPrompt))), now);
      && |evs| == 4
      && evs[0].eventType == NODE_START && evs[1].eventType == AGENT_THINKING
      && evs[2].eventType == STATUS && evs[3].eventType == NODE_END
      && evs[0].data["iteration"] == VInt(AgentStep(s, llm, systemPrompt).value.iteration)
      && evs[1].data["iteration"] == VInt(AgentStep(s, llm, systemPrompt).value.iteration)
      && evs[3].data["iteration"] == VInt(AgentStep(s, llm, systemPrompt).value.iteration)
  {
    var it := IterOf(s) + 1;
    var reply := llm(Prompted(s, systemPrompt));
    var invs := AgentNodeInvocations(s, reply);
    assert invs == [NodeStart("agent", Some(it), None), AgentThinking(Some(it), None),
                    DecisionStatus(reply.value), NodeEnd("agent", Some(it), None)];
    NodeEvents(it, DecisionStatus(reply.value), now);
  }

  /** The four events of a step around any status invocation. */
  lemma NodeEvents(it: int, status: Invocation, now: int)
    requires status.Status?
    ensures var evs := EventsOf([NodeStart("agent", Some(it), None), AgentThinking(Some(it), None),
                                 status, NodeEnd("agent", Some(it), None)], now);
      && |evs| == 4
      && evs[0].eventType == NODE_START && evs[1].eventType == AGENT_THINKING
      && evs[2].eventType == STATUS && evs[3].eventType == NODE_END
      && evs[0].data["iteration"] == VInt(it)
      && evs[1].data["iteration"] == VInt(it)
      && evs[3].data["iteration"] == VInt(it)
  {
    var invs := [NodeStart("agent", Some(it), None), AgentThinking(Some(it), None), status, NodeEnd("agent", Some(it), None)];
    EventsOfShape(invs, now);
    IterationPayload(invs[0]);
    IterationPayload(invs[1]);
    IterationPayload(invs[3]);
  }

  /** The event-emitting agent node: the same update as `agent_node`, with its
      events emitted around the model call. */
  method AgentNodeWithEvents(em: EventEmitter, s: AgentState, llm: Llm, systemPrompt: string, now: int)
    returns (r: Option<AgentUpdate>)
    requires em.Valid()
    modifies em
    ensures em.Valid()
    ensures r == AgentStep(s, llm, systemPrompt)
    ensures em.Emitted(old(em.events), old(em.inbox), old(em.calls),
                       EventsOf(AgentNodeInvocations(s, llm(Prompted(s, systemPrompt))), now))
    ensures em.listeners == old(em.listeners) && em.queues == old(em.queues) && em.nextQueue == old(em.nextQueue)
  {
    var iteration := IterOf(s) + 1;
    var before := [NodeStart("agent", Some(iteration), None), AgentThinking(Some(iteration), None)];
    FireAll(em, before, now);
    var reply := llm(BaseMessages(s.messages, systemPrompt));
    if reply.None? {
      assert AgentNodeInvocations(s, reply) == before;
      return None;
    }
    var action := EmitAgentDecision(em, old(em.events), old(em.inbox), old(em.calls), EventsOf(before, now),
                                     reply.value, iteration, now);
    FireMore(em, old(em.events), old(em.inbox), old(em.calls),
             EventsOf(before, now) + EventsOf([DecisionStatus(reply.value)], now),
             [NodeEnd("agent", Some(iteration), None)], now);
    r := Some(AgentUpdate(reply.value, IterOf(s) + 1, action));
    EventsOfConcat(before, [DecisionStatus(reply.value)], now);
    EventsOfConcat(before + [DecisionStatus(reply.value)], [NodeEnd("agent", Some(iteration), None)], now);
    assert AgentNodeInvocations(s, reply) == before + [DecisionStatus(reply.value)] + [NodeEnd("agent", Some(iteration), None)];
  }
}
