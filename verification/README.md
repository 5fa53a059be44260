# Typhoon IT support agent: a verified model of the agentic-workflow backend

This project is a Dafny model of the backend of the Typhoon IT support agent. In that backend, a LangGraph workflow alternates between two nodes:
- an **agent node**, which asks the LLM for a reply;
- a **tools node**, which runs the tool calls in that reply.

The run stops when the reply calls no tool or when the iteration cap is reached. Every step is published as an event through an **event emitter**. The **chat endpoints** stream those events to the browser. The events are built by a table of **middleware callbacks**.

The tools and the REST endpoints manage IT **tickets**. Tickets are kept in an append-only JSONL file. On load, the last line written for an id wins.

The evaluation package scores agent replies against a table of **test cases**.

## Modules

One module per source file of the backend:

| Module | Models |
|---|---|
| `Emitter` | `events/emitter.py` |
| `Middleware` | `events/middleware.py` |
| `Workflow` | `graph/workflow.py` |
| `AgentNode` | `agents/agent_node.py` |
| `ToolNode` | `agents/tool_node.py` |
| `Messages` | `utils/message_builder.py` |
| `Chat` | `api/chat_endpoints.py` |
| `Tickets` | the ticket records, enums, agents and SLA rules of `tools/ticket_tools.py` |
| `TicketTools` | the ticket tools of `tools/ticket_tools.py` |
| `TicketStore` | `tools/ticket_storage.py` |
| `TicketEndpoints` | `api/ticket_endpoints.py` |
| `TicketAdvanced` | `api/ticket_advanced_endpoints.py` |
| `DemoTickets` | `api/init_demo_tickets.py` |
| `Metrics` | `evaluation/metrics.py` |
| `TestCases` | `evaluation/test_cases.py` |

Two modules hold shared helpers:
- `Common` has option and result types, JSON-like values, ASCII case folding, `strip` and `split`, Python slicing and digit strings.
- `Sorting` is a stable sort by key.

## Form of the model

Objects that the source updates in place are classes:
- The emitter is `Emitter.EventEmitter`. Its fields are the listener table, the event history, the subscribed queues, the contents of every queue, and a log of callback invocations.
- The JSONL file is `TicketStore.TicketStorage`, which holds a sequence of lines.
- The chat service's session and checkpoint dictionaries are `Chat.ChatService`.

The methods of these classes state their whole new state.

Loops in the source are methods with loop invariants, each proved equal to a specification function. Examples: emitting to every queue and listener, the tool and ticket scans, the workflow loop, the store's load and rewrite, the statistics and bulk loops, and the evaluation loops. The properties the source promises are lemmas about those functions.

The parts the model cannot see are parameters:
- The LLM is a function from the prompt messages to a reply, or to `None` when it raises.
- The tool executor is a function from the message history to tool results.
- The clock is an integer number of minutes.
- A fresh session id is a string passed in.

## Model

| member | source | states |
|---|---|---|
| Emitter.NewEvent | agentic-workflow/src/typhoon_it_support/events/emitter.py:34-49 | An event keeps its type; absent data becomes an empty payload; an absent timestamp becomes the current time |
| Emitter.ToDict | agentic-workflow/src/typhoon_it_support/events/emitter.py:51-61 | The dictionary form has exactly the keys type, timestamp and data |
| Emitter.ToDictRoundTrip | agentic-workflow/src/typhoon_it_support/events/emitter.py:51-61 | Reading an event back from its dictionary form gives the same event, so storing the event stands for storing its dictionary |
| Emitter.EventEmitter.constructor | agentic-workflow/src/typhoon_it_support/events/emitter.py:90-94 | A new emitter has no listeners, no history and no queues |
| Emitter.EventEmitter.On | agentic-workflow/src/typhoon_it_support/events/emitter.py:96-105 | The callback is appended to the list of its event type, creating the list if needed; nothing else changes |
| Emitter.EventEmitter.Subscribe | agentic-workflow/src/typhoon_it_support/events/emitter.py:107-136 | With neither type nor callback, a fresh empty queue is created and subscribed; with both, the callback is registered; any other combination is the ValueError and changes nothing |
| Emitter.EventEmitter.Emit | agentic-workflow/src/typhoon_it_support/events/emitter.py:138-157 | The event is appended to the history, appended to every subscribed queue and to no other queue, and passed to each callback of its type in registration order |
| Emitter.EventEmitter.EmitAll | agentic-workflow/src/typhoon_it_support/events/emitter.py:138-157 | Emitting a sequence of events extends the history, every subscribed queue and the call log by exactly those events, in order |
| Emitter.Deliver | agentic-workflow/src/typhoon_it_support/events/emitter.py:150-152 | The loop over subscribed queues gives each of them the event once and leaves the other queues alone |
| Emitter.Notify | agentic-workflow/src/typhoon_it_support/events/emitter.py:154-157 | The loop over listeners calls each registered callback once, in order, with the event |
| Emitter.Broadcast | agentic-workflow/src/typhoon_it_support/events/emitter.py:150-152 | Delivery appends the event to subscribed queues only and creates or drops no queue |
| Emitter.CallsFor | agentic-workflow/src/typhoon_it_support/events/emitter.py:154-157 | One call per registered callback, in registration order, each receiving the event |
| Emitter.BroadcastAllFifo | agentic-workflow/src/typhoon_it_support/events/emitter.py:138-157 | After a run of emits, each subscribed queue holds its old contents followed by the events in emission order (FIFO); other queues are untouched |
| Emitter.DispatchedMatchesType | agentic-workflow/src/typhoon_it_support/events/emitter.py:154-157 | Every callback invocation is for an emitted event and a callback registered for that event's type |
| Emitter.EventEmitter.GetEvents | agentic-workflow/src/typhoon_it_support/events/emitter.py:159-170 | Without a type filter the whole history is returned; with one, exactly the events of that type |
| Emitter.OfTypeAppend | agentic-workflow/src/typhoon_it_support/events/emitter.py:159-170 | Filtering by type after an emit gives the old filtered history plus the new event exactly when it has that type |
| Emitter.EventEmitter.Clear | agentic-workflow/src/typhoon_it_support/events/emitter.py:172-174 | Clearing empties the history and keeps listeners and queues |
| Emitter.EventEmitter.Unsubscribe | agentic-workflow/src/typhoon_it_support/events/emitter.py:176-201 | A queue target leaves the subscriber list; a type target with a callback removes that callback's first registration; anything else changes nothing |
| Emitter.RemoveQueue | agentic-workflow/src/typhoon_it_support/events/emitter.py:191-195 | Removing a queue from a duplicate-free subscriber list removes it and keeps every other queue |
| Emitter.UnsubscribeIsolates | agentic-workflow/src/typhoon_it_support/events/emitter.py:176-201 | After a queue unsubscribes, later events do not reach it but still reach every other subscribed queue |
| Emitter.EventEmitter.Poll | agentic-workflow/src/typhoon_it_support/api/chat_endpoints.py:205-213 | A non-blocking get returns the oldest queued event and removes it, or nothing when the queue is empty |
| Middleware.CallbackTable | agentic-workflow/src/typhoon_it_support/events/middleware.py:241-257 | The callback table has 15 distinct names and every invocation goes through one of them |
| Middleware.TypePerCallback | agentic-workflow/src/typhoon_it_support/events/middleware.py:21-239 | Each callback emits one fixed event type, different callbacks emit different types, and none emits ticket_created |
| Middleware.DataOverrides | agentic-workflow/src/typhoon_it_support/events/middleware.py:21-239 | Every payload carries a message; caller data is spread last, so its keys win and every other built-in key is kept |
| Middleware.SpreadSpec | agentic-workflow/src/typhoon_it_support/events/middleware.py:21-239 | Spreading keeps every built-in key the data does not name, and takes every key the data names from the data |
| Middleware.IterationPayload | agentic-workflow/src/typhoon_it_support/events/middleware.py:52-66 | Node and thinking events carry the iteration as given, or null |
| Middleware.DoneMessage | agentic-workflow/src/typhoon_it_support/events/middleware.py:228-239 | The done event says "Processing complete" when no message or an empty one is given |
| Middleware.RouterPayload | agentic-workflow/src/typhoon_it_support/events/middleware.py:183-198 | A router decision names the router node, the decision and the message "Router decision: <decision>" |
| Middleware.EventsOfShape | agentic-workflow/src/typhoon_it_support/events/middleware.py:21-239 | One event per callback invocation, in order, each of its callback's type |
| Middleware.Fire | agentic-workflow/src/typhoon_it_support/events/middleware.py:21-239 | A callback emits exactly its event through the emitter |
| Middleware.FireAll | agentic-workflow/src/typhoon_it_support/events/middleware.py:21-239 | A run of callbacks emits their events in order |
| Workflow.Route | agentic-workflow/src/typhoon_it_support/graph/workflow.py:12-31 | At or past the iteration cap the run ends; below it the router goes to tools exactly when next_action is "tools" |
| Workflow.RouteDefaults | agentic-workflow/src/typhoon_it_support/graph/workflow.py:24-28 | A missing iteration counts as 0 and a missing next_action as "end" |
| Workflow.SameTopology | agentic-workflow/src/typhoon_it_support/graph/workflow.py:47-114 | The plain and the event-emitting graphs have the same nodes, edges and entry, and differ only in the node implementations |
| Workflow.Topology | agentic-workflow/src/typhoon_it_support/graph/workflow.py:50-67 | The entry is the agent; after the agent comes the router's choice of tools or END; after tools comes the agent |
| Workflow.RunBounds | agentic-workflow/src/typhoon_it_support/graph/workflow.py:12-31 | A run takes at most max(1, cap - iteration) agent steps, adds that many to the iteration, only extends the message history, and ends normally only on a routed END |
| Workflow.CapLeavesToolsPending | agentic-workflow/src/typhoon_it_support/graph/workflow.py:12-31 | When every reply calls a tool, the run stops at the cap with next_action still "tools" and the last AI message's tool calls not executed |
| Workflow.Invoke | agentic-workflow/src/typhoon_it_support/graph/workflow.py:34-71 | Running the compiled graph step by step gives the outcome of the recursive run |
| Workflow.InvokeWithEvents | agentic-workflow/src/typhoon_it_support/graph/workflow.py:74-118 | The event-emitting graph gives the same outcome and emits exactly the node events of that run, in order |
| AgentNode.ToolTable | agentic-workflow/src/typhoon_it_support/agents/agent_node.py:28-48 | The LLM is bound to 16 distinct tools |
| AgentNode.AgentStep | agentic-workflow/src/typhoon_it_support/agents/agent_node.py:50-75 | The LLM sees the system prompt followed by the history; the step fails exactly when the LLM raises; otherwise it adds the reply, increments the iteration, and sets next_action to "tools" exactly when the reply has tool calls |
| AgentNode.ActionFor | agentic-workflow/src/typhoon_it_support/agents/agent_node.py:74 | next_action is "tools" exactly when there are tool calls, and "end" otherwise |
| AgentNode.AsMessage | agentic-workflow/src/typhoon_it_support/agents/agent_node.py:66-73 | The reply enters the history as an AI message with its content and tool calls |
| AgentNode.DecisionStatusText | agentic-workflow/src/typhoon_it_support/agents/agent_node.py:78-103 | The status names the called tools, with "unknown" for unnamed calls, or says a final answer was given |
| AgentNode.EmitAgentDecision | agentic-workflow/src/typhoon_it_support/agents/agent_node.py:78-103 | Emits one agent status event and returns the next action the reply implies |
| AgentNode.AgentNodeEventOrder | agentic-workflow/src/typhoon_it_support/agents/agent_node.py:119-141 | A successful agent step emits exactly four events, node_start, agent_thinking, the decision status and node_end, and the node events carry the iteration the step returns |
| AgentNode.AgentNodeWithEvents | agentic-workflow/src/typhoon_it_support/agents/agent_node.py:106-143 | The wrapper returns the plain node's update and emits that event sequence |
| ToolNode.ToolsUpdateProps | agentic-workflow/src/typhoon_it_support/agents/tool_node.py:15-55 | The tools step appends one tool message per result, and adds new search-tool names and new ticket references without duplicates while keeping the old ones |
| ToolNode.ToolsNodeStep | agentic-workflow/src/typhoon_it_support/agents/tool_node.py:15-55 | The imperative tools step computes exactly that update |
| ToolNode.CollectDocuments | agentic-workflow/src/typhoon_it_support/agents/tool_node.py:31-35 | Search-tool names not yet recorded are appended once each |
| ToolNode.CollectTickets | agentic-workflow/src/typhoon_it_support/agents/tool_node.py:38-48 | Ticket numbers written as #digits in results are appended once each |
| ToolNode.AddNewProps | agentic-workflow/src/typhoon_it_support/agents/tool_node.py:31-48 | Adding new items keeps the old list as a prefix, holds exactly the old and new items, and stays duplicate-free |
| ToolNode.NoHashNoRefs | agentic-workflow/src/typhoon_it_support/agents/tool_node.py:41-48 | A result with no '#' refers to no ticket |
| ToolNode.TicketRefWritten | agentic-workflow/src/typhoon_it_support/agents/tool_node.py:41-48 | "#n" is read back as ticket n |
| ToolNode.ToolMessages | agentic-workflow/src/typhoon_it_support/agents/tool_node.py:50-55 | One tool message per result, with its content and tool name |
| ToolNode.SubjectOnSameLine | agentic-workflow/src/typhoon_it_support/agents/tool_node.py:99-118 | A subject written on the same line after the subject key is captured whole |
| ToolNode.CreatedEvents | agentic-workflow/src/typhoon_it_support/agents/tool_node.py:99-118 | Only ticket_created events come from the created-ticket scan |
| ToolNode.ToolsTraceCounts | agentic-workflow/src/typhoon_it_support/agents/tool_node.py:71-135 | One node_start, one tool_start and one tool_end per tool call in the whole history, at most one summary status, and one node_end |
| ToolNode.ToolsNodeWithEvents | agentic-workflow/src/typhoon_it_support/agents/tool_node.py:71-135 | The wrapper returns the plain node's update and emits node_start, the tool starts, the ticket_created events, the tool ends, the summary and node_end, in that order |
| Messages.BaseMessages | agentic-workflow/src/typhoon_it_support/utils/message_builder.py:8-20 | The system prompt comes first, followed by the history unchanged |
| Messages.MessageChain.AddInstruction | agentic-workflow/src/typhoon_it_support/utils/message_builder.py:23-34 | A system instruction is appended and the same chain is returned for chaining |
| Messages.SummaryLinesCount | agentic-workflow/src/typhoon_it_support/utils/message_builder.py:49-60 | One line per human, tool, and non-empty or tool-calling AI message; system messages give none |
| Messages.SummaryLine | agentic-workflow/src/typhoon_it_support/utils/message_builder.py:49-60 | No line for a system message or an empty AI message without tool calls; a human message appears whole; a tool result is cut to 200 characters |
| Messages.SummaryLinePrefixes | agentic-workflow/src/typhoon_it_support/utils/message_builder.py:49-60 | Every summary line starts with "User: ", "Agent used tools: ", "Agent: " or "Tool result: " |
| Messages.ConversationSummary | agentic-workflow/src/typhoon_it_support/utils/message_builder.py:37-62 | The summary joins the last max_messages lines with newlines; 0 means all lines, as Python's [-0:] does |
| Messages.SummaryWindow | agentic-workflow/src/typhoon_it_support/utils/message_builder.py:62 | The window is the whole list for 0 and the last min(k, n) lines for k >= 1 |
| Messages.HasToolResults | agentic-workflow/src/typhoon_it_support/utils/message_builder.py:65-78 | True exactly when a tool message is among the last look_back messages |
| Chat.SessionKey | agentic-workflow/src/typhoon_it_support/api/chat_endpoints.py:120 | A given non-empty session id is kept; otherwise a fresh id is used |
| Chat.LastAiSpec | agentic-workflow/src/typhoon_it_support/api/chat_endpoints.py:164-174 | The reply is the content of the last AI message, or none when there is no AI message |
| Chat.LastAi | agentic-workflow/src/typhoon_it_support/api/chat_endpoints.py:289-299 | An AI text is found exactly when the history holds an AI message |
| Chat.ReplyTextNonEmpty | agentic-workflow/src/typhoon_it_support/api/chat_endpoints.py:164-174 | The returned text is never empty; with no AI message, or an empty one, it is the apology |
| Chat.ExtractReply | agentic-workflow/src/typhoon_it_support/api/chat_endpoints.py:289-299 | The backward scan returns that reply text |
| Chat.RecordIsolates | agentic-workflow/src/typhoon_it_support/api/chat_endpoints.py:177-182 | Recording a turn creates the session if needed, appends only to that session, and leaves every other session unchanged |
| Chat.StreamCount | agentic-workflow/src/typhoon_it_support/api/chat_endpoints.py:153-225 | A streamed run sends done and workflow_end once each when it succeeds and never otherwise, and never sends workflow_error |
| Chat.ClosingShape | agentic-workflow/src/typhoon_it_support/api/chat_endpoints.py:184-194 | A successful stream closes with done, carrying the reply, followed by workflow_end |
| Chat.WorkflowStreamShape | agentic-workflow/src/typhoon_it_support/api/chat_endpoints.py:153-194 | The stream is workflow_start, then the run's node events, then the closing events |
| Chat.Drain | agentic-workflow/src/typhoon_it_support/api/chat_endpoints.py:200-214 | Draining the queue returns its contents in FIFO order and leaves it empty |
| Chat.StreamRun | agentic-workflow/src/typhoon_it_support/api/chat_endpoints.py:129-236 | Subscribing, running, draining and unsubscribing gives the run's outcome and exactly that event stream |
| Chat.ChatService.constructor | agentic-workflow/src/typhoon_it_support/api/chat_endpoints.py:25 | The service starts with no sessions and no checkpoints |
| Chat.ChatService.Store | agentic-workflow/src/typhoon_it_support/api/chat_endpoints.py:177-182 | The checkpoint takes the final history; a turn is recorded only for a run that succeeded |
| Chat.ChatService.Chat | agentic-workflow/src/typhoon_it_support/api/chat_endpoints.py:249-315 | The run continues the session's checkpointed history; a raising run answers 500 without recording a turn; otherwise the reply is the last AI text and the turn is recorded |
| Chat.ChatService.ChatWorkflow | agentic-workflow/src/typhoon_it_support/api/chat_endpoints.py:110-246 | The streaming endpoint sends exactly the workflow stream and records the turn as the plain endpoint does |
| Chat.ChatService.ClearSession | agentic-workflow/src/typhoon_it_support/api/chat_endpoints.py:318-331 | The session's turns are removed and the checkpoints are kept |
| Chat.ChatService.GetSession | agentic-workflow/src/typhoon_it_support/api/chat_endpoints.py:334-352 | An unknown session is a 404; a known one returns its turns |
| TicketStore.LastWriterWins | agentic-workflow/src/typhoon_it_support/tools/ticket_storage.py:28-51 | Looking a ticket up in the loaded tickets gives the last line written for its id |
| TicketStore.LoadDistinct | agentic-workflow/src/typhoon_it_support/tools/ticket_storage.py:28-51 | Loaded tickets have distinct ids |
| TicketStore.Load | agentic-workflow/src/typhoon_it_support/tools/ticket_storage.py:37-51 | Every loaded ticket was written as a line of the file |
| TicketStore.LoadSize | agentic-workflow/src/typhoon_it_support/tools/ticket_storage.py:28-51 | Loading never yields more tickets than there are non-blank lines |
| TicketStore.UpsertSpec | agentic-workflow/src/typhoon_it_support/tools/ticket_storage.py:43-49 | An update keeps the id order and replaces the ticket in place; a new id goes last |
| TicketStore.TicketStorage.constructor | agentic-workflow/src/typhoon_it_support/tools/ticket_storage.py:15-26 | The store holds the given file contents |
| TicketStore.TicketStorage.LoadAllTickets | agentic-workflow/src/typhoon_it_support/tools/ticket_storage.py:28-51 | The loading loop gives the last-writer-wins ticket table, which is duplicate-free |
| TicketStore.TicketStorage.SaveTicket | agentic-workflow/src/typhoon_it_support/tools/ticket_storage.py:53-64 | Saving appends one line and rewrites nothing |
| TicketStore.SaveThenGet | agentic-workflow/src/typhoon_it_support/tools/ticket_storage.py:53-102 | After a save, the saved ticket is found under its id and every other id is found as before; a new id is added last |
| TicketStore.TicketStorage.DeleteTicket | agentic-workflow/src/typhoon_it_support/tools/ticket_storage.py:66-90 | Deleting reports whether the id existed; if so, the file is rewritten with every other ticket once, in order; otherwise nothing changes |
| TicketStore.DeleteEffect | agentic-workflow/src/typhoon_it_support/tools/ticket_storage.py:66-90 | After the rewrite the deleted id is gone and every other id is found as before |
| TicketStore.RemoveIdSpec | agentic-workflow/src/typhoon_it_support/tools/ticket_storage.py:77-88 | Removal drops exactly that id, shrinks by one when it was present, and keeps every other ticket |
| TicketStore.RewriteLoads | agentic-workflow/src/typhoon_it_support/tools/ticket_storage.py:86-88 | Reloading a rewritten file gives back the same tickets in the same order |
| TicketStore.TicketStorage.WriteAll | agentic-workflow/src/typhoon_it_support/tools/ticket_storage.py:122-124 | The rewrite loop writes one line per ticket, in order |
| TicketStore.TicketStorage.GetTicket | agentic-workflow/src/typhoon_it_support/tools/ticket_storage.py:92-102 | The lookup returns the last line written for the id |
| TicketStore.TicketStorage.Compact | agentic-workflow/src/typhoon_it_support/tools/ticket_storage.py:104-127 | Compaction rewrites one line per current ticket and reports how many non-blank lines it dropped |
| TicketStore.CompactEffect | agentic-workflow/src/typhoon_it_support/tools/ticket_storage.py:104-127 | Compaction keeps the loaded tickets, leaves no superseded line, and removes a non-negative count |
| TicketStore.TicketStorage.Clear | agentic-workflow/src/typhoon_it_support/tools/ticket_storage.py:129-133 | Clearing empties the file |
| TicketStore.ClearEffect | agentic-workflow/src/typhoon_it_support/tools/ticket_storage.py:129-144 | After clearing there are no tickets and the next id is 1000 |
| TicketStore.NextId | agentic-workflow/src/typhoon_it_support/tools/ticket_storage.py:135-144 | The next id is above every stored id: 1000 for an empty store, otherwise the highest id plus one |
| TicketStore.TicketStorage.GetNextId | agentic-workflow/src/typhoon_it_support/tools/ticket_storage.py:135-144 | The method returns that next id |
| TicketStore.ConsecutiveIds | agentic-workflow/src/typhoon_it_support/tools/ticket_storage.py:135-144 | Saving a ticket under the next id moves the next id up by one, starting from 1000 |
| TicketStore.IdReuse | agentic-workflow/src/typhoon_it_support/tools/ticket_storage.py:135-144 | Deleting the ticket with the highest id lowers the next id to at most the deleted id, so that id or a smaller one is handed out next |
| Tickets.ValueSets | agentic-workflow/src/typhoon_it_support/tools/ticket_tools.py:14-44 | 4 distinct priorities, 5 distinct statuses and 9 distinct categories including "other" |
| Tickets.SlaTable | agentic-workflow/src/typhoon_it_support/tools/ticket_tools.py:48-53 | Response and resolution targets of 15/240, 60/480, 240/1440 and 480/2880 minutes; unknown priorities use normal; targets loosen from urgent to low |
| Tickets.AgentTable | agentic-workflow/src/typhoon_it_support/tools/ticket_tools.py:56-69 | Four agents, agent_1 to agent_4, with distinct ids |
| Tickets.FindAgent | agentic-workflow/src/typhoon_it_support/tools/ticket_tools.py:56-69 | An id finds an agent exactly when it is one of the four, and the agent found carries that id |
| Tickets.CalculateSlaTargets | agentic-workflow/src/typhoon_it_support/tools/ticket_tools.py:218-242 | Both due times lie after creation by the priority's targets, response before resolution |
| Tickets.CheckSlaBreach | agentic-workflow/src/typhoon_it_support/tools/ticket_tools.py:245-294 | A flag is raised exactly when the time from creation to the recorded time, or to now when none is recorded, exceeds the priority's allowance |
| Tickets.BreachIndependence | agentic-workflow/src/typhoon_it_support/tools/ticket_tools.py:245-296 | Each breach flag depends only on its own timestamp; a recorded time fixes the flag, and an open breach stays breached as time passes |
| Tickets.NoBreachAtCreation | agentic-workflow/src/typhoon_it_support/tools/ticket_tools.py:245-296 | A ticket answered and resolved at creation, or checked no later than creation, is not breached |
| Tickets.EvolvesTransitive | agentic-workflow/src/typhoon_it_support/tools/ticket_tools.py:299-1003 | The invariant of every update composes: the same id, subject, description, requester and creation time, history and comments that only grow, and recorded response and resolution times that are never overwritten |
| TicketTools.CoercePriority | agentic-workflow/src/typhoon_it_support/tools/ticket_tools.py:325-326 | An unknown priority becomes a valid one and a valid priority is kept |
| TicketTools.CreatedTicket | agentic-workflow/src/typhoon_it_support/tools/ticket_tools.py:328-369 | A new ticket is "new", uncategorised, unassigned and unbreached, has SLA dues from its priority and one "created" history entry, and is valid exactly when its priority is |
| TicketTools.ToolCreatedTicket | agentic-workflow/src/typhoon_it_support/tools/ticket_tools.py:299-382 | The tool's ticket is valid, defaults the requester to "unknown@company.com" and "Unknown User", and the history actor to "System" |
| TicketTools.CreateTicket | agentic-workflow/src/typhoon_it_support/tools/ticket_tools.py:299-382 | The ticket gets the next id and is saved |
| TicketTools.CreateEffect | agentic-workflow/src/typhoon_it_support/tools/ticket_tools.py:299-382 | The new id was free, the new ticket is found under it, other ids are unchanged, and the next id moves up by one |
| TicketTools.GetTicket | agentic-workflow/src/typhoon_it_support/tools/ticket_tools.py:385-428 | A missing id is the not-found answer; otherwise the last line written for the id |
| TicketTools.StatusUpdated | agentic-workflow/src/typhoon_it_support/tools/ticket_tools.py:431-518 | Status, timestamps and history change as the tool writes them; resolved_at is set once on solving or closing; a comment is the first response only for a ticket without one; the breach is computed before that comment; validity is kept |
| TicketTools.UpdateTicketStatus | agentic-workflow/src/typhoon_it_support/tools/ticket_tools.py:431-518 | An invalid status is rejected before the lookup and a missing id after it, both without writing; otherwise the updated ticket is saved |
| TicketTools.Preview | agentic-workflow/src/typhoon_it_support/tools/ticket_tools.py:578 | Comments up to 50 characters are shown whole; longer ones as their first 50 characters and "..." |
| TicketTools.Commented | agentic-workflow/src/typhoon_it_support/tools/ticket_tools.py:521-600 | The comment is appended; the first comment on an unanswered ticket becomes its first response and refreshes the breach; validity is kept |
| TicketTools.AddTicketComment | agentic-workflow/src/typhoon_it_support/tools/ticket_tools.py:521-600 | A missing id is rejected without writing; otherwise the commented ticket is saved |
| TicketTools.Reprioritised | agentic-workflow/src/typhoon_it_support/tools/ticket_tools.py:603-680 | The SLA dues are recomputed from the new priority, the breach is refreshed, and an internal comment and a history entry record the change |
| TicketTools.UpdateTicketPriority | agentic-workflow/src/typhoon_it_support/tools/ticket_tools.py:603-680 | An invalid priority is rejected before the lookup and a missing id after it, both without writing; otherwise the reprioritised ticket is saved |
| TicketTools.SearchTickets | agentic-workflow/src/typhoon_it_support/tools/ticket_tools.py:683-733 | The scan returns the store-order matches of status and case-insensitive query, stopping at the limit; for a limit of at least 1 that is the first limit matches |
| TicketTools.SearchScan | agentic-workflow/src/typhoon_it_support/tools/ticket_tools.py:700-716 | The scan only adds to the results, and every ticket it adds is stored, passes the status filter and matches the query |
| TicketTools.SearchResults | agentic-workflow/src/typhoon_it_support/tools/ticket_tools.py:683-733 | The intended search: the first min(limit, n) of the n matches in store order, none for a limit of 0 or less, and all of them when they fit |
| TicketTools.MatchingSpec | agentic-workflow/src/typhoon_it_support/tools/ticket_tools.py:700-713 | A ticket matches exactly when it passes the status filter and its subject or description contains the query, ignoring case |
| TicketTools.SearchScanAgrees | agentic-workflow/src/typhoon_it_support/tools/ticket_tools.py:703-716 | While under the limit, the scan equals the results so far plus the first remaining matches |
| TicketTools.SearchPositiveLimit | agentic-workflow/src/typhoon_it_support/tools/ticket_tools.py:703-716 | For limits of at least 1 the written scan and the intended search agree |
| TicketTools.SearchZeroLimitReturnsOne | agentic-workflow/src/typhoon_it_support/tools/ticket_tools.py:703-716 | With limit 0, one ticket and an empty query, the written scan returns one ticket where the intended search returns none |
| TicketTools.PriorityRank | agentic-workflow/src/typhoon_it_support/tools/ticket_tools.py:761-764 | Urgent ranks first (0) and low last (3) |
| TicketTools.OpenTickets | agentic-workflow/src/typhoon_it_support/tools/ticket_tools.py:751-755 | Exactly the tickets whose status is new, open or pending |
| TicketTools.MyOpenTicketsSpec | agentic-workflow/src/typhoon_it_support/tools/ticket_tools.py:751-767 | Only open tickets, ordered by priority rank and then by creation time; the slice keeps as many as the Python slice bound of limit allows, all drawn from the open tickets, none ranked after an open ticket left out, and among equal rank and creation time the ones stored first; all of them when they fit |
| TicketTools.MyOpenTickets | agentic-workflow/src/typhoon_it_support/tools/ticket_tools.py:751-767 | The listing has as many tickets as the slice bound of limit allows over the open tickets, and lists no ticket more often than it is open in the store |
| TicketTools.GetMyOpenTickets | agentic-workflow/src/typhoon_it_support/tools/ticket_tools.py:736-780 | The tool returns that ordered list |
| TicketTools.Assigned | agentic-workflow/src/typhoon_it_support/tools/ticket_tools.py:783-840 | The ticket takes the agent's id and name and records the old and new assignee |
| TicketTools.AssignTicket | agentic-workflow/src/typhoon_it_support/tools/ticket_tools.py:783-840 | A missing id, then an unknown agent, is rejected without writing; otherwise the assigned ticket is saved |
| TicketTools.NewTags | agentic-workflow/src/typhoon_it_support/tools/ticket_tools.py:866-867 | The added tags are exactly the lower-cased request tags not already on the ticket |
| TicketTools.NewTagsKeepsRepeats | agentic-workflow/src/typhoon_it_support/tools/ticket_tools.py:866-867 | A tag repeated in one request is added twice, and a tag already present in another case is not added |
| TicketTools.TagsAdded | agentic-workflow/src/typhoon_it_support/tools/ticket_tools.py:843-896 | New tags are appended after the old ones and recorded in the history |
| TicketTools.AddTagsToTicket | agentic-workflow/src/typhoon_it_support/tools/ticket_tools.py:843-896 | A missing id is rejected; with no new tag nothing is written; otherwise the tagged ticket is saved |
| TicketTools.CategorySet | agentic-workflow/src/typhoon_it_support/tools/ticket_tools.py:899-952 | The category is replaced and the old and new values are recorded |
| TicketTools.SetTicketCategory | agentic-workflow/src/typhoon_it_support/tools/ticket_tools.py:899-952 | A missing id, then an unknown category, is rejected without writing; otherwise the ticket is saved |
| TicketTools.DueDateSet | agentic-workflow/src/typhoon_it_support/tools/ticket_tools.py:955-1003 | The due date is set and recorded in the history |
| TicketTools.SetTicketDueDate | agentic-workflow/src/typhoon_it_support/tools/ticket_tools.py:955-1003 | A missing id is rejected without writing; otherwise the ticket is saved |
| TicketTools.DeleteTicket | agentic-workflow/src/typhoon_it_support/tools/ticket_tools.py:1006-1045 | A missing id is rejected without writing; otherwise the ticket is returned and removed by rewriting the file |
| TicketEndpoints.WithStatus | agentic-workflow/src/typhoon_it_support/api/ticket_endpoints.py:39-45 | Exactly the tickets with the requested status, or all tickets when no status is given |
| TicketEndpoints.ListTickets | agentic-workflow/src/typhoon_it_support/api/ticket_endpoints.py:22-57 | An unknown status is a 400 and nothing else is; the total is the number of tickets returned |
| TicketEndpoints.ListTicketsSpec | agentic-workflow/src/typhoon_it_support/api/ticket_endpoints.py:22-57 | The listing holds only tickets with the status, newest first; it keeps as many as the slice bound of limit allows, all drawn from the matches, none older than a match left out, and among equal creation times the ones stored first; all of them when they fit |
| TicketEndpoints.ListTicketsEndpoint | agentic-workflow/src/typhoon_it_support/api/ticket_endpoints.py:22-57 | The endpoint lists the stored tickets that way |
| TicketEndpoints.GetAgents | agentic-workflow/src/typhoon_it_support/api/ticket_endpoints.py:60-67 | The four agents agent_1 to agent_4 |
| TicketEndpoints.GetTicketDetail | agentic-workflow/src/typhoon_it_support/api/ticket_endpoints.py:70-87 | A missing id is a 404; otherwise the last line written for the id |
| TicketEndpoints.CreateNewTicket | agentic-workflow/src/typhoon_it_support/api/ticket_endpoints.py:90-159 | An invalid priority is a 400 with nothing written; otherwise a new ticket under the next id, with the requester defaulting to the current user, is saved |
| TicketEndpoints.StatusApplied | agentic-workflow/src/typhoon_it_support/api/ticket_endpoints.py:193-217 | Moving to open or pending is the first response; solving or closing sets resolved_at once; the breach is refreshed from the new times |
| TicketEndpoints.UpdateChanges | agentic-workflow/src/typhoon_it_support/api/ticket_endpoints.py:245-252 | The change record names exactly the fields the request sets |
| TicketEndpoints.Updated | agentic-workflow/src/typhoon_it_support/api/ticket_endpoints.py:162-268 | The status, priority and comment given are applied and everything else is kept; the SLA dues are not recomputed; one history entry is added when any field is given; validity is kept for valid values |
| TicketEndpoints.UpdateTicket | agentic-workflow/src/typhoon_it_support/api/ticket_endpoints.py:162-268 | 404 for a missing id, then 400 for an invalid status, then 400 for an invalid priority, each without writing; otherwise the updated ticket is saved |
| TicketEndpoints.EndpointPriorityKeepsDues | agentic-workflow/src/typhoon_it_support/api/ticket_endpoints.py:219-228 | Raising the priority through the endpoint leaves the old SLA dues, where the ticket tool recomputes them |
| TicketEndpoints.EndpointSolveWithoutResponse | agentic-workflow/src/typhoon_it_support/api/ticket_endpoints.py:193-240 | Solving with a comment through the endpoint leaves first_response_at unset, where the status tool sets it |
| TicketEndpoints.DeleteTicketEndpoint | agentic-workflow/src/typhoon_it_support/api/ticket_endpoints.py:271-291 | A missing id is a 404 with nothing written; otherwise the file is rewritten without the ticket |
| TicketEndpoints.GetTicketStats | agentic-workflow/src/typhoon_it_support/api/ticket_endpoints.py:294-317 | The counting loop gives the total and the per-status and per-priority tallies of the stored tickets |
| TicketEndpoints.TallySpec | agentic-workflow/src/typhoon_it_support/api/ticket_endpoints.py:303-311 | A tally counts each key as often as it occurs, sums to the number of keys, and lists each key once, in first-seen order |
| TicketEndpoints.BumpSpec | agentic-workflow/src/typhoon_it_support/api/ticket_endpoints.py:309-311 | Counting one key raises only its count, by one |
| TicketEndpoints.StatsSpec | agentic-workflow/src/typhoon_it_support/api/ticket_endpoints.py:294-317 | Both tallies sum to the total, and a status's count is the number of tickets the status filter of the listing returns |
| TicketAdvanced.AssignTicketEndpoint | agentic-workflow/src/typhoon_it_support/api/ticket_advanced_endpoints.py:28-65 | 404 for a missing id, then 400 for an unknown assignee, both without writing; otherwise the assigned ticket is saved |
| TicketAdvanced.AddTagsEndpoint | agentic-workflow/src/typhoon_it_support/api/ticket_advanced_endpoints.py:68-107 | 404 for a missing id; the new tags are the lower-cased tags not yet present; nothing is written when there are none |
| TicketAdvanced.SetCategoryEndpoint | agentic-workflow/src/typhoon_it_support/api/ticket_advanced_endpoints.py:110-145 | 404 for a missing id, then 400 for an unknown category, both without writing; otherwise the ticket is saved |
| TicketAdvanced.TagList | agentic-workflow/src/typhoon_it_support/api/ticket_advanced_endpoints.py:203 | The tag filter is the comma-separated parts, stripped and lower-cased |
| TicketAdvanced.ChainIsConjunction | agentic-workflow/src/typhoon_it_support/api/ticket_advanced_endpoints.py:181-219 | Applying the nine filters one after another keeps exactly the tickets that pass all of them, in store order |
| TicketAdvanced.AdvancedSearchSpec | agentic-workflow/src/typhoon_it_support/api/ticket_advanced_endpoints.py:178-229 | The result passes every filter and is newest first; it keeps as many as the slice bound of limit allows, all drawn from the matches, none older than a match left out, and among equal creation times the ones stored first; all matches when they fit |
| TicketAdvanced.AdvancedSearch | agentic-workflow/src/typhoon_it_support/api/ticket_advanced_endpoints.py:181-229 | The total is the number of tickets returned, which is the slice bound of limit over the matches, and no ticket is returned more often than it matches |
| TicketAdvanced.UnflaggedNeverMatches | agentic-workflow/src/typhoon_it_support/api/ticket_advanced_endpoints.py:208-213 | A ticket with no breach record never passes an sla_breached filter, true or false |
| TicketAdvanced.TagFilterSingle | agentic-workflow/src/typhoon_it_support/api/ticket_advanced_endpoints.py:202-206 | A single tag the ticket carries, in any case or padding, lets it through |
| TicketAdvanced.AdvancedSearchEndpoint | agentic-workflow/src/typhoon_it_support/api/ticket_advanced_endpoints.py:148-239 | The endpoint runs that search over the stored tickets |
| TicketAdvanced.BulkApply | agentic-workflow/src/typhoon_it_support/api/ticket_advanced_endpoints.py:260-320 | A ticket fails on an invalid status, priority or assignee; is left unsaved when nothing changes; and is otherwise updated |
| TicketAdvanced.BulkChanges | agentic-workflow/src/typhoon_it_support/api/ticket_advanced_endpoints.py:261-302 | The change record is empty exactly when no field is set and no tag is new |
| TicketAdvanced.BulkUpdated | agentic-workflow/src/typhoon_it_support/api/ticket_advanced_endpoints.py:263-317 | The given fields are applied without touching SLA times, new tags are appended, and one bulk_updated entry is recorded |
| TicketAdvanced.BulkCounts | agentic-workflow/src/typhoon_it_support/api/ticket_advanced_endpoints.py:252-327 | Updates plus errors never exceed the number of ids |
| TicketAdvanced.BulkInvalidStatus | agentic-workflow/src/typhoon_it_support/api/ticket_advanced_endpoints.py:264-267 | An invalid status writes nothing and gives one error per id |
| TicketAdvanced.BulkAllUpdated | agentic-workflow/src/typhoon_it_support/api/ticket_advanced_endpoints.py:255-327 | With valid fields, at least one field set and every id present, every ticket is updated, no error is reported, and no id is added or lost |
| TicketAdvanced.BulkUpdateTickets | agentic-workflow/src/typhoon_it_support/api/ticket_advanced_endpoints.py:242-327 | The loop processes the ids in order, one at a time, against the current file |
| DemoTickets.Classify | agentic-workflow/src/typhoon_it_support/api/init_demo_tickets.py:262-316 | The keyword classifier gives a valid category; it assigns one of the four agents with two tags exactly when the category is not "other" |
| DemoTickets.ClassifyOrder | agentic-workflow/src/typhoon_it_support/api/init_demo_tickets.py:262-316 | Earlier keywords win: a VPN subject can still be classed as email, network or printer, and a software subject never gets the admin tags |
| DemoTickets.DueMinutes | agentic-workflow/src/typhoon_it_support/api/init_demo_tickets.py:323-340 | The demo due dates of 4 h, 8 h, 1 day and 2 days equal each priority's resolution target |
| DemoTickets.DemoTicket | agentic-workflow/src/typhoon_it_support/api/init_demo_tickets.py:245-386 | A demo ticket keeps its sample; it is resolved at creation when solved or closed, first answered by its first comment, tagged urgent exactly when urgent, due only while unresolved, and valid for valid samples |
| DemoTickets.SeedStep | agentic-workflow/src/typhoon_it_support/api/init_demo_tickets.py:246-386 | Each sample is saved under the next id, which is 1000 plus its index |
| DemoTickets.InitializeDemoTickets | agentic-workflow/src/typhoon_it_support/api/init_demo_tickets.py:15-388 | The seeder clears the store, then the store holds exactly one demo ticket per sample, ids 1000 onward in table order, and the count returned is the number of samples |
| TestCases.TableShape | agentic-workflow/src/typhoon_it_support/evaluation/test_cases.py:6-188 | Ten cases with distinct ids; each is judged on replying in Thai; a case judged on tool use expects exactly one tool |
| TestCases.GetTestCasesByCategory | agentic-workflow/src/typhoon_it_support/evaluation/test_cases.py:191-200 | Exactly the cases of the category |
| TestCases.ByCategorySnoc | agentic-workflow/src/typhoon_it_support/evaluation/test_cases.py:200 | The listing keeps table order: a case added at the end of the table is listed last exactly when it has the category |
| TestCases.ByCategoryAppend | agentic-workflow/src/typhoon_it_support/evaluation/test_cases.py:200 | The cases of the front of a table are listed before those of the back, each part in its own order |
| TestCases.FindCase | agentic-workflow/src/typhoon_it_support/evaluation/test_cases.py:203-215 | The first case with the id, or the "Test case <id> not found" error when none has it |
| TestCases.GetTestCaseById | agentic-workflow/src/typhoon_it_support/evaluation/test_cases.py:203-215 | The lookup over the table succeeds exactly for the table's ids |
| TestCases.FindCaseUnique | agentic-workflow/src/typhoon_it_support/evaluation/test_cases.py:203-215 | With distinct ids the lookup returns the one case with that id |
| Metrics.CheckThaiLanguage | agentic-workflow/src/typhoon_it_support/evaluation/metrics.py:41-51 | True exactly when some character is in U+0E00..U+0E7E |
| Metrics.CheckToolsUsed | agentic-workflow/src/typhoon_it_support/evaluation/metrics.py:54-64 | True exactly when every expected tool was called |
| Metrics.AnyIndicator | agentic-workflow/src/typhoon_it_support/evaluation/metrics.py:76-77 | True exactly when the text contains one of the indicators |
| Metrics.CheckActionableSteps | agentic-workflow/src/typhoon_it_support/evaluation/metrics.py:67-77 | True exactly when one of the step indicators occurs in the lower-cased reply |
| Metrics.ActionableStepsExamples | agentic-workflow/src/typhoon_it_support/evaluation/metrics.py:67-77 | A numbered "1." or a "Step" in any case counts as actionable |
| Metrics.CheckTicketId | agentic-workflow/src/typhoon_it_support/evaluation/metrics.py:80-90 | True exactly when a '#' is followed by a digit |
| Metrics.PutGet | agentic-workflow/src/typhoon_it_support/evaluation/metrics.py:115-142 | Setting a criterion sets that one result and leaves the others |
| Metrics.Update | agentic-workflow/src/typhoon_it_support/evaluation/metrics.py:141-142 | Additional checks override computed results of the same name, add new names, and keep the rest |
| Metrics.ComputedSpec | agentic-workflow/src/typhoon_it_support/evaluation/metrics.py:115-138 | A result is computed exactly for the listed criteria the evaluator knows, each with its own check |
| Metrics.CheckCriteria | agentic-workflow/src/typhoon_it_support/evaluation/metrics.py:115-138 | The six checks in order give exactly those computed results |
| Metrics.PassThreshold | agentic-workflow/src/typhoon_it_support/evaluation/metrics.py:144-150 | A case passes exactly when it has criteria and at least 80% of them are true, stated as 5 * passed >= 4 * total |
| Metrics.ScoreUnaided | agentic-workflow/src/typhoon_it_support/evaluation/metrics.py:144-150 | Without additional checks the score lies between 0 and 1 |
| Metrics.Score | agentic-workflow/src/typhoon_it_support/evaluation/metrics.py:144-147 | The score is the share of true results among the criteria, never negative, and 0 for a case without criteria |
| Metrics.AdditionalChecksExceedOne | agentic-workflow/src/typhoon_it_support/evaluation/metrics.py:140-147 | Additional checks can push the score above 1, because they count in the numerator but not the denominator |
| Metrics.UncomputedCriterionFails | agentic-workflow/src/typhoon_it_support/evaluation/metrics.py:112-150 | A case with at most four criteria, one of which no check computes, cannot reach 80% without additional checks |
| Metrics.NoTestCasePassesUnaided | agentic-workflow/scripts/run_evaluation.py:93-95 | As the evaluation script calls it, with no additional checks, no test case of the table can pass |
| Metrics.NotesSpec | agentic-workflow/src/typhoon_it_support/evaluation/metrics.py:152-168 | One "Failed: <criterion>" note per false result; the notes read "All criteria passed" exactly when every result is true |
| Metrics.WriteNotes | agentic-workflow/src/typhoon_it_support/evaluation/metrics.py:152-168 | The notes loop joins those notes with "; " |
| Metrics.EvaluateResponse | agentic-workflow/src/typhoon_it_support/evaluation/metrics.py:93-170 | The result copies the case and the inputs, holds the computed results updated by the additional checks, scores them over the case's criteria, passes at 80%, and carries those notes |
| Metrics.TallySpec | agentic-workflow/src/typhoon_it_support/evaluation/metrics.py:192-199 | Counting one result raises its category's total by one, and its passed count when it passed |
| Metrics.BreakdownSpec | agentic-workflow/src/typhoon_it_support/evaluation/metrics.py:191-199 | Each category appears once; its total is the number of its results and its passed count no more than that; the totals sum to the number of results |
| Metrics.CountCategories | agentic-workflow/src/typhoon_it_support/evaluation/metrics.py:191-199 | The counting loop gives that breakdown |
| Metrics.CalculateAggregateMetrics | agentic-workflow/src/typhoon_it_support/evaluation/metrics.py:173-213 | No results give an empty answer; otherwise total, passed, failed, the pass rate, the averages and the per-category rates of the breakdown |
| Metrics.AggregateBounds | agentic-workflow/src/typhoon_it_support/evaluation/metrics.py:182-213 | Failed is never negative, and the pass rate and every category's rate lie in [0, 1] with a non-zero denominator |
| Sorting.SortBySpec | agentic-workflow/src/typhoon_it_support/api/ticket_endpoints.py:48 | The sort orders by the key and is a permutation of its input |
| Sorting.SortByStable | agentic-workflow/src/typhoon_it_support/api/ticket_endpoints.py:48 | The sort is stable: the elements that share a key come out in their input order |
| Sorting.SortedTake | agentic-workflow/src/typhoon_it_support/tools/ticket_tools.py:761-767 | A sorted list cut by `[:limit]` keeps as many elements as the slice bound allows, all from the input, none keyed above an element left out, and among equal keys the first ones in input order |
| Common.SplitJoin | agentic-workflow/src/typhoon_it_support/api/ticket_advanced_endpoints.py:203 | Splitting on a separator and joining with it gives back the string |
| Common.PySuffixShape | agentic-workflow/src/typhoon_it_support/utils/message_builder.py:62 | Python's s[-k:] is the whole list for k = 0 and the last min(k, n) elements for k >= 1 |

## Left out

- LLM token streaming (`chat_stream`, chat_endpoints.py:28-107) is not part of this model. It relays tokens from the model provider and holds no logic of its own beyond the event calls modelled elsewhere.
- The LLM and the tool functions are oracles passed as parameters. Document search and the HTTP ticket API behind `_call_ticket_api` are not part of this model.
- LangGraph internals are reduced to the parts the backend depends on:
  - the checkpointer is a map from session id to message history;
  - the `add_messages` reducer only appends;
  - LangGraph's recursion limit is left out. Neither the workflow nor the chat endpoints set `recursion_limit`, so LangGraph's default of 25 node steps applies. A run that calls tools on every reply therefore raises `GraphRecursionError` after 13 agent steps and 12 tool steps. With the default cap of 30 (settings.py:21), that happens before the cap is reached. The chat endpoints then answer with an error, as they do for any exception. The model's runs continue up to the cap.
- Workflow.RunBounds: describes the source only for runs of at most 25 node steps. That holds for every run when the cap is at most 12 and otherwise only when the model stops calling tools early enough. Longer runs raise `GraphRecursionError` in the source.
- Workflow.CapLeavesToolsPending: holds in the source only when the cap minus the starting iteration is at most 12. With a larger cap, the recursion limit raises first.
- Workflow.Invoke: equals the recursive run for any cap. For runs longer than 25 node steps the source raises instead.
- Concurrency in the streaming endpoint is sequential in the model: the background run finishes, and then the queue is drained. Interleavings of the run with the drain loop and the 0.1 s polling are not modelled.
- Clocks:
  - Times are integers (minutes), passed in.
  - One `now` stands for all the `datetime.now()` calls within one operation.
  - ISO timestamp strings, their comparison and `fromisoformat`, and the due-date string of `set_ticket_due_date` are integers.
- Text handling:
  - `lower()`, `upper()` and `strip()` fold and trim ASCII only.
  - `\d` and `\s` in the regular expressions match ASCII digits and whitespace only.
  - Unicode case folding is left out.
- I/O formats:
  - JSON encoding of the JSONL lines is left out. A line is blank, a JSON object without an id, or a ticket.
  - The file is assumed to hold only JSON objects. In the source, a malformed line makes `json.loads` raise (ticket_storage.py:46). That exception aborts every load, and with it every tool and endpoint that reads the store. The model has no such line.
  - The markdown text the tools return and the CSV export (ticket_advanced_endpoints.py:330-418) are left out. The model keeps the data those strings are built from.
  - The list of change sentences that `update_ticket` returns (ticket_endpoints.py:191-238) is left out. The change record written to the history is modelled.
- Metrics.CalculateAggregateMetrics: averages are exact rationals, not floating point, so rounding is not modelled. `execution_time` is a real passed in.
- Metrics.EvaluateResponse: the timestamp is the `now` parameter; the `EvaluationResult.to_dict` serialisation is not modelled.
- The second callback table in emitter.py:204-280 is left out. It is shadowed by middleware.py and never reached.
- `reset_storage` and the module-level `_storage` singleton are left out. Each operation takes the store as a parameter.
- The accessor shims of ticket_tools.py:108-162 are left out. The seeder is modelled on the store operations they forward to.
- Settings are parameters, including the iteration cap and the system prompt.
- The frontend, the server wiring, and the scripts other than the evaluation call are not part of this model.
- DemoTickets.InitializeDemoTickets: the twelve sample literals are a parameter. Their properties are stated for any sample table.
- The demo seeder's ticket data otherwise follows the source (init_demo_tickets.py:342-384).

## Findings

| source | as written | input that shows it | evidently intended | confidence | as-written member | corrected member |
|---|---|---|---|---|---|---|
| agentic-workflow/src/typhoon_it_support/tools/ticket_tools.py:703-716 | The limit check runs only after a ticket has been examined, so a limit of 0 (or less) still returns the first ticket that passes the status filter when it matches the query | one stored ticket, query "", no status, limit 0: one ticket is returned | a limit of 0 or less returns no tickets; otherwise the first `limit` matches | not executed | TicketTools.SearchZeroLimitReturnsOne | TicketTools.SearchResults |

The scan as written is `TicketTools.SearchScan`, and `TicketTools.SearchTickets` is proved equal to it. `TicketTools.SearchPositiveLimit` proves that the scan and the corrected search agree for every limit of at least 1.
