/** The in-process event bus of the workflow (events/emitter.py): an `Event`
    record and the `EventEmitter` that keeps a table of listeners, the history
    of emitted events and the list of subscribed queues.

    Queues are Python `Queue` objects in the source. Here every queue the
    emitter ever handed out is named by a `QueueId`, and its contents live in
    the emitter's `inbox` map; `queues` lists the ones still subscribed, in
    subscription order. Listener callbacks are opaque `CallbackId`s; invoking
    one is recorded in the `calls` log, which is the only effect of a callback
    that the model keeps. */
module Emitter {
  import opened Common

  // The string values of the EventType enumeration.
  const WORKFLOW_START := "workflow_start"
  const WORKFLOW_END := "workflow_end"
  const WORKFLOW_ERROR := "workflow_error"
  const NODE_START := "node_start"
  const NODE_END := "node_end"
  const NODE_ERROR := "node_error"
  const TOOL_START := "tool_start"
  const TOOL_END := "tool_end"
  const TOOL_ERROR := "tool_error"
  const AGENT_THINKING := "agent_thinking"
  const AGENT_RESPONSE := "agent_response"
  const ROUTER_DECISION := "router_decision"
  const STATUS := "status"
  const TOKEN := "token"
  const DONE := "done"
  const TICKET_CREATED := "ticket_created"

  /** An immutable event: type tag, timestamp (minutes) and payload. */
  datatype Event = Event(eventType: string, timestamp: int, data: Payload)

  /** `Event(event_type, data, timestamp)`: a missing payload becomes `{}` and a
      missing timestamp is the current time. */
  function NewEvent(eventType: string, data: Option<Payload>, timestamp: Option<int>, now: int): (e: Event)
    ensures e.eventType == eventType
    ensures data.None? ==> e.data == map[]
    ensures data.Some? ==> e.data == data.value
    ensures e.timestamp == if timestamp.Some? then timestamp.value else now
  {
    Event(eventType, timestamp.GetOr(now), data.GetOr(map[]))
  }

  /** `Event.to_dict`. */
  function ToDict(e: Event): (d: map<string, Value>)
    ensures d.Keys == {"type", "timestamp", "data"}
  {
    map["type" := VStr(e.eventType), "timestamp" := VInt(e.timestamp), "data" := VObj(e.data)]
  }

  /** Reads an event back from its dictionary form. */
  function FromDict(d: map<string, Value>): Option<Event> {
    if "type" in d && "timestamp" in d && "data" in d
       && d["type"].VStr? && d["timestamp"].VInt? && d["data"].VObj?
    then Some(Event(d["type"].s, d["timestamp"].i, d["data"].fields))
    else None
  }

  /** The dictionary form loses nothing: it holds exactly type, timestamp and data. */
  lemma ToDictRoundTrip(e: Event)
    ensures FromDict(ToDict(e)) == Some(e)
  {
  }

  type QueueId = nat
  type CallbackId = nat

  /** One invocation of a listener callback with an event. */
  datatype Call = Call(callback: CallbackId, event: Event)

  datatype SubscribeError = ValueError

  /** The first argument of `unsubscribe`: a queue, or an event type. */
  datatype UnsubscribeTarget = QueueTarget(queue: QueueId) | TypeTarget(eventType: string)

  /** The callbacks registered for an event type, in registration order. */
  function Registered(listeners: map<string, seq<CallbackId>>, eventType: string): seq<CallbackId> {
    if eventType in listeners then listeners[eventType] else []
  }

  /** What `emit` does to the queue contents: the event joins the tail of every
      subscribed queue and no other. */
  function Broadcast(inbox: map<QueueId, seq<Event>>, subscribed: seq<QueueId>, e: Event): (r: map<QueueId, seq<Event>>)
    ensures r.Keys == inbox.Keys
    ensures forall q :: q in inbox && q in subscribed ==> r[q] == inbox[q] + [e]
    ensures forall q :: q in inbox && q !in subscribed ==> r[q] == inbox[q]
  {
    map q | q in inbox :: if q in subscribed then inbox[q] + [e] else inbox[q]
  }

  /** The listener invocations `emit` performs for one event. */
  function CallsFor(callbacks: seq<CallbackId>, e: Event): (r: seq<Call>)
    ensures |r| == |callbacks|
    ensures forall i :: 0 <= i < |r| ==> r[i] == Call(callbacks[i], e)
  {
    seq(|callbacks|, i requires 0 <= i < |callbacks| => Call(callbacks[i], e))
  }

  predicate HasType(t: string, e: Event) {
    e.eventType == t
  }

  /** Filtering a history that grew by one event grows by that event iff its type matches. */
  lemma OfTypeAppend(events: seq<Event>, e: Event, t: string)
    ensures Filter(events + [e], ev => HasType(t, ev)) == Filter(events, ev => HasType(t, ev)) + (if e.eventType == t then [e] else [])
  {
    assert (events + [e])[..|events|] == events;
  }

  /** A queue removed from a duplicate-free subscription list is no longer in it,
      and every other queue keeps its place. */
  lemma {:induction false} RemoveQueue(queues: seq<QueueId>, q: QueueId)
    requires NoDup(queues)
    ensures q !in RemoveFirst(queues, q)
    ensures NoDup(RemoveFirst(queues, q))
    ensures forall x :: x != q ==> (x in RemoveFirst(queues, q) <==> x in queues)
    decreases |queues|
  {
    if |queues| > 0 {
      var tail := queues[1..];
      NoDupTail(queues);
      assert queues == [queues[0]] + tail;
      if queues[0] != q {
        RemoveQueue(tail, q);
        var rest := RemoveFirst(tail, q);
        assert RemoveFirst(queues, q) == [queues[0]] + rest;
        NoDupCons(queues[0], rest);
      }
    }
  }

  class EventEmitter {
    var listeners: map<string, seq<CallbackId>>
    var events: seq<Event>
    var queues: seq<QueueId>
    /** Contents of every queue ever handed out by `subscribe`. */
    var inbox: map<QueueId, seq<Event>>
    var nextQueue: nat
    /** Every listener invocation so far, in order. */
    var calls: seq<Call>

    ghost predicate Valid()
      reads this
    {
      && NoDup(queues)
      && (forall q :: q in queues ==> q in inbox)
      && (forall q :: q in inbox ==> q < nextQueue)
    }

    constructor ()
      ensures Valid()
      ensures listeners == map[] && events == [] && queues == [] && inbox == map[] && calls == []
    {
      listeners := map[];
      events := [];
      queues := [];
      inbox := map[];
      nextQueue := 0;
      calls := [];
    }

    /** `on(event_type, callback)`: the callback joins the end of that type's list. */
    method On(eventType: string, callback: CallbackId)
      requires Valid()
      modifies this
      ensures Valid()
      ensures listeners == old(listeners)[eventType := Registered(old(listeners), eventType) + [callback]]
      ensures events == old(events) && queues == old(queues) && inbox == old(inbox)
      ensures nextQueue == old(nextQueue) && calls == old(calls)
    {
      if eventType !in listeners {
        listeners := listeners[eventType := []];
      }
      listeners := listeners[eventType := listeners[eventType] + [callback]];
    }

    /** `subscribe()` hands out a fresh empty queue; `subscribe(t, cb)` registers a
        listener; any other combination raises ValueError and changes nothing. */
    method Subscribe(eventType: Option<string>, callback: Option<CallbackId>)
      returns (r: Result<Option<QueueId>, SubscribeError>)
      requires Valid()
      modifies this
      ensures Valid()
      ensures events == old(events) && calls == old(calls)
      ensures eventType.None? && callback.None? ==>
        && r.Ok? && r.value.Some?
        && r.value.value !in old(inbox)
        && queues == old(queues) + [r.value.value]
        && inbox == old(inbox)[r.value.value := []]
        && listeners == old(listeners)
      ensures Truthy(eventType) && callback.Some? ==>
        && r == Ok(None)
        && listeners == old(listeners)[eventType.value := Registered(old(listeners), eventType.value) + [callback.value]]
        && queues == old(queues) && inbox == old(inbox)
      ensures !(eventType.None? && callback.None?) && !(Truthy(eventType) && callback.Some?) ==>
        && r == Err(ValueError)
        && listeners == old(listeners) && queues == old(queues) && inbox == old(inbox)
        && nextQueue == old(nextQueue)
    {
      if eventType.None? && callback.None? {
        var q := nextQueue;
        assert q !in queues;
        nextQueue := nextQueue + 1;
        inbox := inbox[q := []];
        queues := queues + [q];
        return Ok(Some(q));
      }
      if Truthy(eventType) && callback.Some? {
        On(eventType.value, callback.value);
        return Ok(None);
      }
      return Err(ValueError);
    }

    /** `emit(event_type, data)`: one record joins the history, the same event
        joins the tail of every subscribed queue, then the listeners of that type
        are called in registration order. */
    method Emit(eventType: string, data: Option<Payload>, now: int)
      requires Valid()
      modifies this
      ensures Valid()
      ensures events == old(events) + [NewEvent(eventType, data, None, now)]
      ensures inbox == Broadcast(old(inbox), queues, NewEvent(eventType, data, None, now))
      ensures calls == old(calls) + CallsFor(Registered(listeners, eventType), NewEvent(eventType, data, None, now))
      ensures listeners == old(listeners) && queues == old(queues) && nextQueue == old(nextQueue)
    {
      var e := NewEvent(eventType, data, None, now);
      events := events + [e];
      inbox := Deliver(inbox, queues, e);
      calls := Notify(calls, Registered(listeners, eventType), e);
    }

    /** Since the state (events0, inbox0, calls0), exactly the series `done`
        has been emitted: it extends the history, reached the tail of every
        subscribed queue in order, and was dispatched to the listeners. */
    ghost predicate Emitted(events0: seq<Event>, inbox0: map<QueueId, seq<Event>>, calls0: seq<Call>, done: seq<Event>)
      reads this
    {
      && events == events0 + done
      && inbox == BroadcastAll(inbox0, queues, done)
      && calls == calls0 + Dispatched(listeners, done)
    }

    /** One emit of a series. */
    method EmitNext(ghost events0: seq<Event>, ghost inbox0: map<QueueId, seq<Event>>,
                    ghost calls0: seq<Call>, ghost done: seq<Event>, e: Event)
      requires Valid() && Emitted(events0, inbox0, calls0, done)
      modifies this
      ensures Valid() && Emitted(events0, inbox0, calls0, done + [e])
      ensures listeners == old(listeners) && queues == old(queues) && nextQueue == old(nextQueue)
    {
      FoldsStep(inbox0, queues, listeners, done, e);
      assert NewEvent(e.eventType, Some(e.data), None, e.timestamp) == e;
      ghost var inbox1 := inbox;
      ghost var calls1 := calls;
      Emit(e.eventType, Some(e.data), e.timestamp);
      assert inbox == Broadcast(inbox1, queues, e);
      assert calls == calls1 + CallsFor(Registered(listeners, e.eventType), e);
      assert calls == calls0 + (Dispatched(listeners, done) + CallsFor(Registered(listeners, e.eventType), e));
    }

    /** Emits a series of events in order, each with its own type, payload and time. */
    method EmitAll(evs: seq<Event>)
      requires Valid()
      modifies this
      ensures Valid() && Emitted(old(events), old(inbox), old(calls), evs)
      ensures listeners == old(listeners) && queues == old(queues) && nextQueue == old(nextQueue)
    {
      var i := 0;
      while i < |evs|
        invariant 0 <= i <= |evs|
        invariant Valid() && Emitted(old(events), old(inbox), old(calls), evs[..i])
        invariant listeners == old(listeners) && queues == old(queues) && nextQueue == old(nextQueue)
      {
        EmitNext(old(events), old(inbox), old(calls), evs[..i], evs[i]);
        assert evs[..i + 1] == evs[..i] + [evs[i]];
        i := i + 1;
      }
      assert evs[..i] == evs;
    }

    /** Emits one more segment of a series. */
    method EmitMore(ghost events0: seq<Event>, ghost inbox0: map<QueueId, seq<Event>>,
                    ghost calls0: seq<Call>, ghost done: seq<Event>, evs: seq<Event>)
      requires Valid() && Emitted(events0, inbox0, calls0, done)
      modifies this
      ensures Valid() && Emitted(events0, inbox0, calls0, done + evs)
      ensures listeners == old(listeners) && queues == old(queues) && nextQueue == old(nextQueue)
    {
      EmitAll(evs);
      BroadcastConcat(inbox0, queues, done, evs);
      DispatchedConcat(listeners, done, evs);
    }

    /** `get_events(t)`: the history entries of type t, or the whole history
        when no (or an empty) type is given. */
    function GetEvents(eventType: Option<string>): (r: seq<Event>)
      reads this
      ensures !Truthy(eventType) ==> r == events
      ensures Truthy(eventType) ==> forall e :: e in r <==> e in events && e.eventType == eventType.value
    {
      if Truthy(eventType) then Filter(events, ev => HasType(eventType.value, ev))
      else events
    }

    /** `clear()` empties the history only. */
    method Clear()
      requires Valid()
      modifies this
      ensures Valid()
      ensures events == []
      ensures listeners == old(listeners) && queues == old(queues) && inbox == old(inbox)
      ensures nextQueue == old(nextQueue) && calls == old(calls)
    {
      events := [];
    }

    /** `unsubscribe(queue)` drops that queue from the subscribers (its contents
        stay readable); `unsubscribe(t, cb)` drops one registration of cb for t.
        Unknown queues, types and callbacks are ignored. */
    method Unsubscribe(target: UnsubscribeTarget, callback: Option<CallbackId>)
      requires Valid()
      modifies this
      ensures Valid()
      ensures events == old(events) && inbox == old(inbox) && calls == old(calls)
      ensures nextQueue == old(nextQueue)
      ensures target.QueueTarget? ==>
        queues == RemoveFirst(old(queues), target.queue) && listeners == old(listeners)
      ensures target.TypeTarget? ==> queues == old(queues)
      ensures target.TypeTarget? && callback.Some? && target.eventType in old(listeners) ==>
        listeners == old(listeners)[target.eventType := RemoveFirst(old(listeners)[target.eventType], callback.value)]
      ensures target.TypeTarget? && (callback.None? || target.eventType !in old(listeners)) ==>
        listeners == old(listeners)
    {
      match target
      case QueueTarget(q) =>
        DropQueue(q);
      case TypeTarget(t) =>
        if callback.Some? {
          DropListener(t, callback.value);
        }
    }

    /** The queue branch of `unsubscribe`. */
    method DropQueue(q: QueueId)
      requires Valid()
      modifies this
      ensures Valid()
      ensures queues == RemoveFirst(old(queues), q)
      ensures listeners == old(listeners) && events == old(events) && inbox == old(inbox)
      ensures calls == old(calls) && nextQueue == old(nextQueue)
    {
      if q in queues {
        RemoveQueue(queues, q);
        queues := RemoveFirst(queues, q);
      }
    }

    /** The callback branch of `unsubscribe`. */
    method DropListener(t: string, cb: CallbackId)
      modifies this
      ensures t in old(listeners) ==> listeners == old(listeners)[t := RemoveFirst(old(listeners)[t], cb)]
      ensures t !in old(listeners) ==> listeners == old(listeners)
      ensures queues == old(queues) && events == old(events) && inbox == old(inbox)
      ensures calls == old(calls) && nextQueue == old(nextQueue)
    {
      if t in listeners {
        if cb in listeners[t] {
          listeners := listeners[t := RemoveFirst(listeners[t], cb)];
        }
      }
    }

    /** The consumer's `get_nowait()` guarded by `empty()`: the oldest event of
        the queue, or None when it is empty. */
    method Poll(q: QueueId) returns (e: Option<Event>)
      requires Valid() && q in inbox
      modifies this
      ensures Valid()
      ensures old(inbox[q]) == [] ==> e.None? && inbox == old(inbox)
      ensures old(inbox[q]) != [] ==> e == Some(old(inbox[q])[0]) && inbox == old(inbox)[q := old(inbox[q])[1..]]
      ensures listeners == old(listeners) && events == old(events) && queues == old(queues)
      ensures nextQueue == old(nextQueue) && calls == old(calls)
    {
      if inbox[q] == [] {
        return None;
      }
      e := Some(inbox[q][0]);
      inbox := inbox[q := inbox[q][1..]];
    }
  }

  /** The `put` loop of `emit`: the event joins every subscribed queue in turn. */
  method Deliver(inbox: map<QueueId, seq<Event>>, subscribed: seq<QueueId>, e: Event)
    returns (box: map<QueueId, seq<Event>>)
    requires NoDup(subscribed) && forall q :: q in subscribed ==> q in inbox
    ensures box == Broadcast(inbox, subscribed, e)
  {
    box := inbox;
    var i := 0;
    while i < |subscribed|
      invariant 0 <= i <= |subscribed|
      invariant box.Keys == inbox.Keys
      invariant forall q :: q in inbox ==> box[q] == if q in subscribed[..i] then inbox[q] + [e] else inbox[q]
    {
      var q := subscribed[i];
      assert subscribed[..i + 1] == subscribed[..i] + [q];
      assert q !in subscribed[..i];
      box := box[q := box[q] + [e]];
      i := i + 1;
    }
    assert subscribed[..i] == subscribed;
  }

  /** The listener loop of `emit`: each callback is invoked with the event, in order. */
  method Notify(calls: seq<Call>, callbacks: seq<CallbackId>, e: Event) returns (log: seq<Call>)
    ensures log == calls + CallsFor(callbacks, e)
  {
    log := calls;
    var j := 0;
    while j < |callbacks|
      invariant 0 <= j <= |callbacks|
      invariant log == calls + CallsFor(callbacks[..j], e)
    {
      log := log + [Call(callbacks[j], e)];
      assert callbacks[..j + 1] == callbacks[..j] + [callbacks[j]];
      j := j + 1;
    }
    assert callbacks[..j] == callbacks;
  }

  /** The queue contents after a series of emits to a fixed set of subscribers. */
  function BroadcastAll(inbox: map<QueueId, seq<Event>>, subscribed: seq<QueueId>, evs: seq<Event>): map<QueueId, seq<Event>>
    decreases |evs|
  {
    if |evs| == 0 then inbox
    else Broadcast(BroadcastAll(inbox, subscribed, evs[..|evs| - 1]), subscribed, evs[|evs| - 1])
  }

  /** FIFO delivery: a subscribed queue receives the emitted events at its tail,
      in emit order, and a queue that is not subscribed receives nothing. */
  lemma {:induction false} BroadcastAllFifo(inbox: map<QueueId, seq<Event>>, subscribed: seq<QueueId>, evs: seq<Event>)
    ensures BroadcastAll(inbox, subscribed, evs).Keys == inbox.Keys
    ensures forall q :: q in inbox && q in subscribed ==> BroadcastAll(inbox, subscribed, evs)[q] == inbox[q] + evs
    ensures forall q :: q in inbox && q !in subscribed ==> BroadcastAll(inbox, subscribed, evs)[q] == inbox[q]
    decreases |evs|
  {
    if |evs| > 0 {
      var init := evs[..|evs| - 1];
      BroadcastAllFifo(inbox, subscribed, init);
      assert evs == init + [evs[|evs| - 1]];
    }
  }

  /** The listener invocations of a series of emits. */
  function Dispatched(listeners: map<string, seq<CallbackId>>, evs: seq<Event>): seq<Call>
    decreases |evs|
  {
    if |evs| == 0 then []
    else Dispatched(listeners, evs[..|evs| - 1])
         + CallsFor(Registered(listeners, evs[|evs| - 1].eventType), evs[|evs| - 1])
  }

  /** Every invocation pairs an emitted event with a callback registered for that
      event's own type: no listener of another type is ever called. */
  lemma {:induction false} DispatchedMatchesType(listeners: map<string, seq<CallbackId>>, evs: seq<Event>)
    ensures forall c :: c in Dispatched(listeners, evs) ==>
      c.event in evs && c.callback in Registered(listeners, c.event.eventType)
    decreases |evs|
  {
    if |evs| > 0 {
      var init := evs[..|evs| - 1];
      DispatchedMatchesType(listeners, init);
      var last := evs[|evs| - 1];
      var tail := CallsFor(Registered(listeners, last.eventType), last);
      forall c | c in Dispatched(listeners, evs)
        ensures c.event in evs && c.callback in Registered(listeners, c.event.eventType)
      {
        if c in tail {
          var k :| 0 <= k < |tail| && tail[k] == c;
          assert c == Call(Registered(listeners, last.eventType)[k], last);
        } else {
          assert c in Dispatched(listeners, init);
          assert c.event in init;
        }
      }
    }
  }

  /** One more emit extends both folds by one step. */
  lemma FoldsStep(inbox: map<QueueId, seq<Event>>, subscribed: seq<QueueId>,
                  listeners: map<string, seq<CallbackId>>, evs: seq<Event>, e: Event)
    ensures BroadcastAll(inbox, subscribed, evs + [e]) == Broadcast(BroadcastAll(inbox, subscribed, evs), subscribed, e)
    ensures Dispatched(listeners, evs + [e]) == Dispatched(listeners, evs) + CallsFor(Registered(listeners, e.eventType), e)
  {
    assert (evs + [e])[..|evs|] == evs;
  }

  /** Emitting two series one after the other is emitting their concatenation. */
  lemma {:induction false} BroadcastConcat(inbox: map<QueueId, seq<Event>>, subscribed: seq<QueueId>, a: seq<Event>, b: seq<Event>)
    ensures BroadcastAll(BroadcastAll(inbox, subscribed, a), subscribed, b) == BroadcastAll(inbox, subscribed, a + b)
    decreases |b|
  {
    if |b| == 0 {
      assert a + b == a;
    } else {
      var init := b[..|b| - 1];
      BroadcastConcat(inbox, subscribed, a, init);
      assert (a + b)[..|a + b| - 1] == a + init;
    }
  }

  lemma {:induction false} DispatchedConcat(listeners: map<string, seq<CallbackId>>, a: seq<Event>, b: seq<Event>)
    ensures Dispatched(listeners, a) + Dispatched(listeners, b) == Dispatched(listeners, a + b)
    decreases |b|
  {
    if |b| == 0 {
      assert a + b == a;
    } else {
      var init := b[..|b| - 1];
      var e := b[|b| - 1];
      var x := Dispatched(listeners, a);
      var y := Dispatched(listeners, init);
      var z := CallsFor(Registered(listeners, e.eventType), e);
      assert Dispatched(listeners, b) == y + z by {
        assert b == init + [e];
        DispatchedStep(listeners, init, e);
      }
      assert Dispatched(listeners, a + b) == (x + y) + z by {
        assert a + b == (a + init) + [e];
        DispatchedStep(listeners, a + init, e);
        DispatchedConcat(listeners, a, init);
      }
      Assoc(x, y, z);
    }
  }

  lemma DispatchedStep(listeners: map<string, seq<CallbackId>>, evs: seq<Event>, e: Event)
    ensures Dispatched(listeners, evs + [e]) == Dispatched(listeners, evs) + CallsFor(Registered(listeners, e.eventType), e)
  {
    assert (evs + [e])[..|evs|] == evs;
  }

  /** Two consecutive series of emits, seen from the start of the first. */
  lemma ChainEmitted(listeners: map<string, seq<CallbackId>>, queues: seq<QueueId>,
                     events0: seq<Event>, inbox0: map<QueueId, seq<Event>>, calls0: seq<Call>, done: seq<Event>,
                     events1: seq<Event>, inbox1: map<QueueId, seq<Event>>, calls1: seq<Call>, more: seq<Event>,
                     events2: seq<Event>, inbox2: map<QueueId, seq<Event>>, calls2: seq<Call>)
    requires events1 == events0 + done && inbox1 == BroadcastAll(inbox0, queues, done)
    requires calls1 == calls0 + Dispatched(listeners, done)
    requires events2 == events1 + more && inbox2 == BroadcastAll(inbox1, queues, more)
    requires calls2 == calls1 + Dispatched(listeners, more)
    ensures events2 == events0 + (done + more)
    ensures inbox2 == BroadcastAll(inbox0, queues, done + more)
    ensures calls2 == calls0 + Dispatched(listeners, done + more)
  {
    BroadcastConcat(inbox0, queues, done, more);
    DispatchedConcat(listeners, done, more);
  }

  /** After `unsubscribe(q)` an emit leaves q's contents alone while every other
      still-subscribed queue gets the event. */
  lemma UnsubscribeIsolates(inbox: map<QueueId, seq<Event>>, subscribed: seq<QueueId>, q: QueueId, e: Event)
    requires NoDup(subscribed) && q in inbox
    ensures Broadcast(inbox, RemoveFirst(subscribed, q), e)[q] == inbox[q]
    ensures forall x :: x in inbox && x != q ==>
      Broadcast(inbox, RemoveFirst(subscribed, q), e)[x] == Broadcast(inbox, subscribed, e)[x]
  {
    RemoveQueue(subscribed, q);
  }
}
