/** The agent/tools loop of graph/workflow.py: the router, the wiring of the
    two graphs, and a run of the loop from a state. langgraph executes the
    graph; here the run is a loop over the two node steps, with the router
    deciding after every agent step. */
module Workflow {
  import opened Common
  import opened Emitter
  import opened Middleware
  import opened Messages
  import opened AgentNode
  import opened ToolNode

  /** langgraph's end marker. */
  const END := "__end__"

  /** `route_after_agent`. */
  function Route(s: AgentState, maxIterations: int): (r: string)
    ensures r == "tools" || r == END
    ensures IterOf(s) >= maxIterations ==> r == END
    ensures IterOf(s) < maxIterations ==> (r == "tools" <==> s.nextAction.GetOr("end") == "tools")
  {
    if IterOf(s) >= maxIterations then END
    else if s.nextAction.GetOr("end") == "tools" then "tools"
    else END
  }

  /** A state without an iteration or a next action routes like iteration 0
      and next action "end": to END. */
  lemma RouteDefaults(messages: seq<Message>, tickets: seq<int>, docs: seq<string>, maxIterations: int)
    ensures Route(AgentState(messages, None, None, tickets, docs), maxIterations) == END
    ensures Route(AgentState(messages, Some(0), Some("tools"), tickets, docs), maxIterations) == (if 0 < maxIterations then "tools" else END)
  {
  }

  // --------------------------------------------------------------- topology

  /** Which node functions a graph was built with. */
  datatype NodeImpl = PlainNodes | EventNodes

  /** A compiled graph: its nodes, the conditional edges of a node (router
      result to target), the fixed edges, and the entry point. Both graphs use
      `route_after_agent` as their only router. */
  datatype Graph = Graph(
    nodes: seq<string>,
    impl: NodeImpl,
    conditional: map<string, map<string, string>>,
    edges: map<string, string>,
    entry: string)

  /** `create_workflow`. */
  function CreateWorkflow(): Graph {
    Graph(["agent", "tools"], PlainNodes,
          map["agent" := map["tools" := "tools", END := END]],
          map["tools" := "agent"],
          "agent")
  }

  /** `create_workflow_with_events`. */
  function CreateWorkflowWithEvents(): Graph {
    Graph(["agent", "tools"], EventNodes,
          map["agent" := map["tools" := "tools", END := END]],
          map["tools" := "agent"],
          "agent")
  }

  /** Where a graph goes after `node`, in state s. */
  function Successor(g: Graph, node: string, s: AgentState, maxIterations: int): Option<string> {
    if node in g.conditional && Route(s, maxIterations) in g.conditional[node] then
      Some(g.conditional[node][Route(s, maxIterations)])
    else if node in g.edges then Some(g.edges[node])
    else None
  }

  /** The two graphs differ only in their node functions. */
  lemma SameTopology()
    ensures CreateWorkflow().nodes == CreateWorkflowWithEvents().nodes
    ensures CreateWorkflow().conditional == CreateWorkflowWithEvents().conditional
    ensures CreateWorkflow().edges == CreateWorkflowWithEvents().edges
    ensures CreateWorkflow().entry == CreateWorkflowWithEvents().entry
    ensures CreateWorkflow().impl != CreateWorkflowWithEvents().impl
  {
  }

  /** Both graphs enter at the agent; the agent goes where the router says,
      which is the tools node or END; the tools node always returns to the agent. */
  lemma Topology(g: Graph, s: AgentState, maxIterations: int)
    requires g == CreateWorkflow() || g == CreateWorkflowWithEvents()
    ensures g.entry == "agent"
    ensures Successor(g, "agent", s, maxIterations) == Some(Route(s, maxIterations))
    ensures Successor(g, "agent", s, maxIterations) in {Some("tools"), Some(END)}
    ensures Successor(g, "tools", s, maxIterations) == Some("agent")
  {
  }

  // -------------------------------------------------------------- one run

  /** The state after the agent step: the reply joins the messages (the
      `add_messages` reducer appends), the other keys are overwritten. */
  function AfterAgent(s: AgentState, u: AgentUpdate): AgentState {
    s.(messages := s.messages + [AsMessage(u.reply)], iteration := Some(u.iteration), nextAction := Some(u.nextAction))
  }

  /** The state after the tools step. */
  function AfterTools(s: AgentState, u: ToolsUpdate): AgentState {
    s.(messages := s.messages + u.messages, searchedDocuments := u.searchedDocuments,
       activeTickets := u.activeTickets, nextAction := Some(u.nextAction))
  }

  /** How a run ends: the last state reached, whether it reached END (false
      when the model raised), and the number of completed agent steps. */
  datatype Outcome = Outcome(state: AgentState, ok: bool, agentSteps: nat)

  /** The agent steps left before the cap. */
  function Budget(s: AgentState, maxIterations: int): nat {
    if IterOf(s) < maxIterations then maxIterations - IterOf(s) else 0
  }

  /** A run of the graph from state s: agent, router, and tools then agent
      again while the router says "tools". */
  function RunFrom(s: AgentState, llm: Llm, exec: Executor, prompt: string, maxIterations: int): Outcome
    decreases Budget(s, maxIterations)
  {
    match AgentStep(s, llm, prompt)
    case None => Outcome(s, false, 0)
    case Some(u) =>
      var a := AfterAgent(s, u);
      if Route(a, maxIterations) == END then Outcome(a, true, 1)
      else
        var r := RunFrom(AfterTools(a, ToolsUpdateOf(a, exec)), llm, exec, prompt, maxIterations);
        Outcome(r.state, r.ok, r.agentSteps + 1)
  }

  /** A run makes at most max(1, cap - start) agent steps, each adding one to
      the iteration; a run that reaches END was routed there, so it stopped at
      the cap or on a reply without tool calls, and it keeps the whole
      conversation it started from. */
  lemma {:induction false} RunBounds(s: AgentState, llm: Llm, exec: Executor, prompt: string, maxIterations: int)
    ensures var r := RunFrom(s, llm, exec, prompt, maxIterations);
      && r.agentSteps <= (if Budget(s, maxIterations) > 1 then Budget(s, maxIterations) else 1)
      && IterOf(r.state) == IterOf(s) + r.agentSteps
      && (r.ok ==> r.agentSteps >= 1 && Route(r.state, maxIterations) == END)
      && (r.ok ==> IterOf(r.state) >= maxIterations || r.state.nextAction == Some("end"))
      && s.messages <= r.state.messages
    decreases Budget(s, maxIterations)
  {
    match AgentStep(s, llm, prompt)
    case None =>
    case Some(u) =>
      var a := AfterAgent(s, u);
      if Route(a, maxIterations) != END {
        var next := AfterTools(a, ToolsUpdateOf(a, exec));
        RunBounds(next, llm, exec, prompt, maxIterations);
        assert s.messages <= a.messages <= next.messages;
      }
  }

  /** A model that always asks for a tool. */
  ghost predicate AlwaysCallsTools(llm: Llm) {
    forall m :: llm(m).Some? && |llm(m).value.toolCalls| > 0
  }

  /** When the cap fires, the run still ends "successfully", on an AI message
      whose tool calls were never executed and with next action "tools". */
  lemma {:induction false} CapLeavesToolsPending(s: AgentState, llm: Llm, exec: Executor, prompt: string, maxIterations: int)
    requires AlwaysCallsTools(llm)
    requires IterOf(s) < maxIterations
    ensures var r := RunFrom(s, llm, exec, prompt, maxIterations);
      && r.ok
      && IterOf(r.state) == maxIterations
      && r.agentSteps == maxIterations - IterOf(s)
      && r.state.nextAction == Some("tools")
      && |r.state.messages| > 0
      && r.state.messages[|r.state.messages| - 1].Ai?
      && |r.state.messages[|r.state.messages| - 1].toolCalls| > 0
    decreases Budget(s, maxIterations)
  {
    var u := AgentStep(s, llm, prompt).value;
    var a := AfterAgent(s, u);
    if Route(a, maxIterations) != END {
      CapLeavesToolsPending(AfterTools(a, ToolsUpdateOf(a, exec)), llm, exec, prompt, maxIterations);
    }
  }

  /** `workflow.invoke`: the plain graph driven step by step. */
  method Invoke(s0: AgentState, llm: Llm, exec: Executor, prompt: string, maxIterations: int)
    returns (out: Outcome)
    ensures out == RunFrom(s0, llm, exec, prompt, maxIterations)
  {
    var s := s0;
    var steps: nat := 0;
    var running := true;
    out := Outcome(s0, false, 0);
    while running
      invariant running ==> var r := RunFrom(s, llm, exec, prompt, maxIterations);
        RunFrom(s0, llm, exec, prompt, maxIterations) == Outcome(r.state, r.ok, r.agentSteps + steps)
      invariant !running ==> out == RunFrom(s0, llm, exec, prompt, maxIterations)
      decreases if running then Budget(s, maxIterations) + 1 else 0
    {
      var r := AgentStep(s, llm, prompt);
      if r.None? {
        out := Outcome(s, false, steps);
        running := false;
      } else {
        s := AfterAgent(s, r.value);
        steps := steps + 1;
        if Route(s, maxIterations) == END {
          out := Outcome(s, true, steps);
          running := false;
        } else {
          var u := ToolsNodeStep(s, exec);
          s := AfterTools(s, u);
        }
      }
    }
  }

  // ----------------------------------------------------- the event variant

  /** The events a run of the event-emitting graph emits, node by node. */
  function RunTrace(s: AgentState, llm: Llm, exec: Executor, prompt: string, maxIterations: int, now: int): seq<Event>
    decreases Budget(s, maxIterations)
  {
    var agentEvents := EventsOf(AgentNodeInvocations(s, llm(Prompted(s, prompt))), now);
    match AgentStep(s, llm, prompt)
    case None => agentEvents
    case Some(u) =>
      var a := AfterAgent(s, u);
      if Route(a, maxIterations) == END then agentEvents
      else agentEvents + ToolsTrace(a, exec(a.messages), now)
           + RunTrace(AfterTools(a, ToolsUpdateOf(a, exec)), llm, exec, prompt, maxIterations, now)
  }

  /** The trace of a run that stops after its first agent step. */
  lemma RunTraceLast(s: AgentState, llm: Llm, exec: Executor, prompt: string, maxIterations: int, now: int)
    requires AgentStep(s, llm, prompt).None? || Route(AfterAgent(s, AgentStep(s, llm, prompt).value), maxIterations) == END
    ensures RunTrace(s, llm, exec, prompt, maxIterations, now) == EventsOf(AgentNodeInvocations(s, llm(Prompted(s, prompt))), now)
  {
  }

  /** The trace of a run that goes on to the tools node. */
  lemma RunTraceNext(s: AgentState, llm: Llm, exec: Executor, prompt: string, maxIterations: int, now: int)
    requires AgentStep(s, llm, prompt).Some?
    requires Route(AfterAgent(s, AgentStep(s, llm, prompt).value), maxIterations) != END
    ensures var a := AfterAgent(s, AgentStep(s, llm, prompt).value);
      RunTrace(s, llm, exec, prompt, maxIterations, now)
      == EventsOf(AgentNodeInvocations(s, llm(Prompted(s, prompt))), now) + ToolsTrace(a, exec(a.messages), now)
         + RunTrace(AfterTools(a, ToolsUpdateOf(a, exec)), llm, exec, prompt, maxIterations, now)
  {
  }

  /** The event-emitting agent node, as the next segment of a run's events. */
  method AgentSegment(em: EventEmitter, ghost e0: seq<Event>, ghost i0: map<QueueId, seq<Event>>, ghost c0: seq<Call>,
                      ghost done: seq<Event>, s: AgentState, llm: Llm, prompt: string, now: int)
    returns (r: Option<AgentUpdate>)
    requires em.Valid() && em.Emitted(e0, i0, c0, done)
    modifies em
    ensures em.Valid() && em.Emitted(e0, i0, c0, done + EventsOf(AgentNodeInvocations(s, llm(Prompted(s, prompt))), now))
    ensures em.listeners == old(em.listeners) && em.queues == old(em.queues) && em.nextQueue == old(em.nextQueue)
    ensures r == AgentStep(s, llm, prompt)
  {
    ghost var more := EventsOf(AgentNodeInvocations(s, llm(Prompted(s, prompt))), now);
    ghost var events1, inbox1, calls1 := em.events, em.inbox, em.calls;
    r := AgentNodeWithEvents(em, s, llm, prompt, now);
    ChainEmitted(em.listeners, em.queues, e0, i0, c0, done, events1, inbox1, calls1, more, em.events, em.inbox, em.calls);
  }

  /** The event-emitting tools node, as the next segment of a run's events. */
  method ToolsSegment(em: EventEmitter, ghost e0: seq<Event>, ghost i0: map<QueueId, seq<Event>>, ghost c0: seq<Call>,
                      ghost done: seq<Event>, s: AgentState, exec: Executor, now: int)
    returns (u: ToolsUpdate)
    requires em.Valid() && em.Emitted(e0, i0, c0, done)
    modifies em
    ensures em.Valid() && em.Emitted(e0, i0, c0, done + ToolsTrace(s, exec(s.messages), now))
    ensures em.listeners == old(em.listeners) && em.queues == old(em.queues) && em.nextQueue == old(em.nextQueue)
    ensures u == ToolsUpdateOf(s, exec)
  {
    ghost var more := ToolsTrace(s, exec(s.messages), now);
    ghost var events1, inbox1, calls1 := em.events, em.inbox, em.calls;
    u := ToolsNodeWithEvents(em, s, exec, now);
    ChainEmitted(em.listeners, em.queues, e0, i0, c0, done, events1, inbox1, calls1, more, em.events, em.inbox, em.calls);
  }

  lemma SeqAssoc<T>(d: seq<T>, x: seq<T>, y: seq<T>, z: seq<T>)
    ensures d + (x + y + z) == d + x + y + z
  {
  }

  /** The tools half of a round, after an agent step the router sent to the tools. */
  method ToolsHalf(em: EventEmitter, ghost e0: seq<Event>, ghost i0: map<QueueId, seq<Event>>, ghost c0: seq<Call>,
                   ghost done: seq<Event>, s: AgentState, u: AgentUpdate, llm: Llm, exec: Executor, prompt: string,
                   maxIterations: int, now: int)
    returns (next: AgentState, ghost done2: seq<Event>)
    requires AgentStep(s, llm, prompt) == Some(u) && Route(AfterAgent(s, u), maxIterations) != END
    requires em.Valid() && em.Emitted(e0, i0, c0, done + EventsOf(AgentNodeInvocations(s, llm(Prompted(s, prompt))), now))
    modifies em
    ensures em.Valid() && em.Emitted(e0, i0, c0, done2)
    ensures em.listeners == old(em.listeners) && em.queues == old(em.queues) && em.nextQueue == old(em.nextQueue)
    ensures next == AfterTools(AfterAgent(s, u), ToolsUpdateOf(AfterAgent(s, u), exec))
    ensures done2 + RunTrace(next, llm, exec, prompt, maxIterations, now) == done + RunTrace(s, llm, exec, prompt, maxIterations, now)
  {
    ghost var agentEvents := EventsOf(AgentNodeInvocations(s, llm(Prompted(s, prompt))), now);
    var a := AfterAgent(s, u);
    RunTraceNext(s, llm, exec, prompt, maxIterations, now);
    var tu := ToolsSegment(em, e0, i0, c0, done + agentEvents, a, exec, now);
    ghost var toolEvents := ToolsTrace(a, exec(a.messages), now);
    next := AfterTools(a, tu);
    ghost var rest := RunTrace(next, llm, exec, prompt, maxIterations, now);
    SeqAssoc(done, agentEvents, toolEvents, rest);
    done2 := done + agentEvents + toolEvents;
  }

  /** One round of the event-emitting graph: the agent node, and the tools
      node when the router sends the run there. */
  method EventRound(em: EventEmitter, ghost e0: seq<Event>, ghost i0: map<QueueId, seq<Event>>, ghost c0: seq<Call>,
                    ghost done: seq<Event>, s: AgentState, llm: Llm, exec: Executor, prompt: string,
                    maxIterations: int, now: int)
    returns (r: Option<AgentUpdate>, next: AgentState, ghost done2: seq<Event>)
    requires em.Valid() && em.Emitted(e0, i0, c0, done)
    modifies em
    ensures em.Valid() && em.Emitted(e0, i0, c0, done2)
    ensures em.listeners == old(em.listeners) && em.queues == old(em.queues) && em.nextQueue == old(em.nextQueue)
    ensures r == AgentStep(s, llm, prompt)
    ensures r.None? ==> done2 == done + RunTrace(s, llm, exec, prompt, maxIterations, now)
    ensures r.Some? && Route(AfterAgent(s, r.value), maxIterations) == END ==>
      next == AfterAgent(s, r.value) && done2 == done + RunTrace(s, llm, exec, prompt, maxIterations, now)
    ensures r.Some? && Route(AfterAgent(s, r.value), maxIterations) != END ==>
      && next == AfterTools(AfterAgent(s, r.value), ToolsUpdateOf(AfterAgent(s, r.value), exec))
      && done2 + RunTrace(next, llm, exec, prompt, maxIterations, now) == done + RunTrace(s, llm, exec, prompt, maxIterations, now)
  {
    r := AgentSegment(em, e0, i0, c0, done, s, llm, prompt, now);
    next := s;
    if r.None? || Route(AfterAgent(s, r.value), maxIterations) == END {
      RunTraceLast(s, llm, exec, prompt, maxIterations, now);
      done2 := done + EventsOf(AgentNodeInvocations(s, llm(Prompted(s, prompt))), now);
      if r.Some? {
        next := AfterAgent(s, r.value);
      }
    } else {
      next, done2 := ToolsHalf(em, e0, i0, c0, done, s, r.value, llm, exec, prompt, maxIterations, now);
    }
  }

  /** One round of a run: how the outcome from s follows from the outcome
      of the next round, and that each round uses up budget. */
  lemma RunFromUnfold(s: AgentState, llm: Llm, exec: Executor, prompt: string, maxIterations: int)
    ensures AgentStep(s, llm, prompt).None? ==> RunFrom(s, llm, exec, prompt, maxIterations) == Outcome(s, false, 0)
    ensures AgentStep(s, llm, prompt).Some? ==>
      var a := AfterAgent(s, AgentStep(s, llm, prompt).value);
      if Route(a, maxIterations) == END then RunFrom(s, llm, exec, prompt, maxIterations) == Outcome(a, true, 1)
      else
        var next := AfterTools(a, ToolsUpdateOf(a, exec));
        var r := RunFrom(next, llm, exec, prompt, maxIterations);
        && RunFrom(s, llm, exec, prompt, maxIterations) == Outcome(r.state, r.ok, r.agentSteps + 1)
        && Budget(next, maxIterations) < Budget(s, maxIterations)
  {
  }

  /** The loop of `workflow.invoke` is on track at state s after `steps`
      agent steps and the events `done`: what is left of the run completes
      the whole outcome and the whole trace. */
  ghost predicate OnTrack(whole: Outcome, trace: seq<Event>, s: AgentState, steps: nat, done: seq<Event>,
                          llm: Llm, exec: Executor, prompt: string, maxIterations: int, now: int)
  {
    var r := RunFrom(s, llm, exec, prompt, maxIterations);
    && whole == Outcome(r.state, r.ok, r.agentSteps + steps)
    && trace == done + RunTrace(s, llm, exec, prompt, maxIterations, now)
  }

  /** One pass of the loop of `workflow.invoke`: a round of the graph, after
      which the run either has its outcome or goes on from a state with less
      budget. */
  method InvokeRound(em: EventEmitter, ghost e0: seq<Event>, ghost i0: map<QueueId, seq<Event>>, ghost c0: seq<Call>,
                     ghost done: seq<Event>, ghost whole: Outcome, ghost trace: seq<Event>,
                     s: AgentState, steps: nat, llm: Llm, exec: Executor, prompt: string, maxIterations: int, now: int)
    returns (running: bool, out: Outcome, next: AgentState, steps2: nat, ghost done2: seq<Event>)
    requires em.Valid() && em.Emitted(e0, i0, c0, done)
    requires OnTrack(whole, trace, s, steps, done, llm, exec, prompt, maxIterations, now)
    modifies em
    ensures em.Valid() && em.Emitted(e0, i0, c0, done2)
    ensures em.listeners == old(em.listeners) && em.queues == old(em.queues) && em.nextQueue == old(em.nextQueue)
    ensures running ==> OnTrack(whole, trace, next, steps2, done2, llm, exec, prompt, maxIterations, now)
    ensures running ==> Budget(next, maxIterations) < Budget(s, maxIterations)
    ensures !running ==> out == whole && done2 == trace
  {
    var r;
    r, next, done2 := EventRound(em, e0, i0, c0, done, s, llm, exec, prompt, maxIterations, now);
    RunFromUnfold(s, llm, exec, prompt, maxIterations);
    steps2 := steps;
    out := Outcome(s, false, steps);
    running := false;
    if r.Some? {
      steps2 := steps + 1;
      if Route(AfterAgent(s, r.value), maxIterations) == END {
        out := Outcome(next, true, steps2);
      } else {
        running := true;
      }
    }
  }

  /** `workflow.invoke` on the event-emitting graph: the same outcome as the
      plain graph, with the nodes' events emitted in order. */
  method InvokeWithEvents(em: EventEmitter, s0: AgentState, llm: Llm, exec: Executor, prompt: string,
                          maxIterations: int, now: int)
    returns (out: Outcome)
    requires em.Valid()
    modifies em
    ensures em.Valid()
    ensures out == RunFrom(s0, llm, exec, prompt, maxIterations)
    ensures em.Emitted(old(em.events), old(em.inbox), old(em.calls), RunTrace(s0, llm, exec, prompt, maxIterations, now))
    ensures em.listeners == old(em.listeners) && em.queues == old(em.queues) && em.nextQueue == old(em.nextQueue)
  {
    ghost var e0, i0, c0 := em.events, em.inbox, em.calls;
    ghost var whole := RunFrom(s0, llm, exec, prompt, maxIterations);
    ghost var trace := RunTrace(s0, llm, exec, prompt, maxIterations, now);
    ghost var done: seq<Event> := [];
    var s := s0;
    var steps: nat := 0;
    var running := true;
    out := Outcome(s0, false, 0);
    while running
      invariant em.Valid() && em.Emitted(e0, i0, c0, done)
      invariant em.listeners == old(em.listeners) && em.queues == old(em.queues) && em.nextQueue == old(em.nextQueue)
      invariant running ==> OnTrack(whole, trace, s, steps, done, llm, exec, prompt, maxIterations, now)
      invariant !running ==> out == whole && done == trace
      decreases if running then Budget(s, maxIterations) + 1 else 0
    {
      running, out, s, steps, done := InvokeRound(em, e0, i0, c0, done, whole, trace, s, steps, llm, exec, prompt, maxIterations, now);
    }
  }
}
