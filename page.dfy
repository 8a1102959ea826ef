/** The page script's message bridge: the MQTT callbacks feeding a FIFO queue,
    the per-rerun drain of that queue into the session log, and the button
    handlers that publish commands or reconnect.

    The network thread is not modelled: each callback is a method call, and a
    rerun is a method call that runs after any callbacks made before it.
 */
module Page {
  import opened Wire
  import opened LogText

  /** A call the page makes on the MQTT client, recorded in the order made. */
  datatype ClientCall =
    | Connect(host: string, port: int, keepalive: int)
    | Subscribe(topic: string)
    | Publish(topic: string, payload: Payload)
    | Disconnect
    | Reconnect

  /** The two process-wide cached resources: the incoming-message queue and
      the MQTT client, whose calls are recorded in `calls`. */
  class Bridge {
    var queue: seq<Entry>
    var calls: seq<ClientCall>

    // Every entry ever put on the queue, and every entry ever taken off it.
    ghost var pushed: seq<Entry>
    ghost var popped: seq<Entry>

    /** Over the whole lifetime the queue is first in, first out: what was
        taken off is a prefix of what was put on, and the rest is still queued,
        so no entry is lost, duplicated or reordered. */
    ghost predicate Valid()
      reads this
    {
      pushed == popped + queue
    }

    /** Creates the queue and the client and connects to the broker with a
        60-second keepalive. */
    constructor ()
      ensures Valid() && queue == [] && pushed == [] && popped == []
      ensures calls == [Connect(BrokerHost, BrokerPort, KeepaliveSeconds)]
    {
      queue := [];
      calls := [Connect(BrokerHost, BrokerPort, KeepaliveSeconds)];
      pushed := [];
      popped := [];
    }

    /** `q.put`: appends at the back of the queue. */
    method Put(e: Entry)
      requires Valid()
      modifies this
      ensures Valid() && queue == old(queue) + [e] && calls == old(calls)
      ensures pushed == old(pushed) + [e] && popped == old(popped)
    {
      queue := queue + [e];
      pushed := pushed + [e];
    }

    /** The connect callback: on success subscribe to status and telemetry,
        otherwise queue one `SYSTEM` entry naming the result code. */
    method OnConnect(rc: int)
      requires Valid()
      modifies this
      ensures Valid() && popped == old(popped)
      ensures rc == 0 ==> calls == old(calls) + [Subscribe(TopicStatus), Subscribe(TopicTelemetry)]
                          && queue == old(queue) && pushed == old(pushed)
      ensures rc != 0 ==> calls == old(calls)
                          && queue == old(queue) + [Entry(TopicSystem, FailureText(rc))]
                          && pushed == old(pushed) + [Entry(TopicSystem, FailureText(rc))]
    {
      if rc == 0 {
        calls := calls + [Subscribe(TopicStatus)];
        calls := calls + [Subscribe(TopicTelemetry)];
      } else {
        Put(Entry(TopicSystem, FailureText(rc)));
      }
    }

    /** The disconnect callback: queues one `SYSTEM` "Disconnected" entry,
        whatever the result code. */
    method OnDisconnect(rc: int)
      requires Valid()
      modifies this
      ensures Valid() && calls == old(calls) && popped == old(popped)
      ensures queue == old(queue) + [Entry(TopicSystem, "Disconnected")]
      ensures pushed == old(pushed) + [Entry(TopicSystem, "Disconnected")]
    {
      Put(Entry(TopicSystem, "Disconnected"));
    }

    /** The message callback: queues the message's topic and decoded payload. */
    method OnMessage(topic: string, payload: string)
      requires Valid()
      modifies this
      ensures Valid() && calls == old(calls) && popped == old(popped)
      ensures queue == old(queue) + [Entry(topic, payload)]
      ensures pushed == old(pushed) + [Entry(topic, payload)]
    {
      Put(Entry(topic, payload));
    }

    /** `q.empty()`. */
    method IsEmpty() returns (empty: bool)
      ensures empty <==> queue == []
    {
      empty := |queue| == 0;
    }

    /** `q.get()` on a non-empty queue: removes and returns the oldest entry. */
    method Get() returns (e: Entry)
      requires Valid() && queue != []
      modifies this
      ensures Valid() && calls == old(calls) && pushed == old(pushed)
      ensures e == old(queue)[0] && queue == old(queue)[1..]
      ensures popped == old(popped) + [e]
    {
      e := queue[0];
      queue := queue[1..];
      popped := popped + [e];
    }
  }

  /** The button pressed on a rerun; Streamlit reports at most one. */
  datatype Button = NoButton | CommandButton(action: Action) | ReconnectButton

  const NotConnectedWarning: string := "Not connected \U{2014} cannot send"

  /** The log lines a button adds, given the rerun's connectivity snapshot. */
  function ButtonLines(button: Button, ts: string, connOk: bool): (lines: seq<string>)
    ensures |lines| <= 1
    ensures button.CommandButton? ==> (lines == [] <==> !connOk)
  {
    match button
    case NoButton => []
    case CommandButton(a) => if connOk then [SentLine(ts, a)] else []
    case ReconnectButton => [ReconnectLine(ts)]
  }

  /** The client calls a button makes: nothing is ever published while the
      snapshot says disconnected, and a command button publishes exactly one
      payload, on the command topic, when it says connected. */
  function ButtonCalls(button: Button, millis: int, connOk: bool): (cs: seq<ClientCall>)
    ensures forall c :: c in cs && c.Publish? ==>
              connOk && button.CommandButton? && c == Publish(TopicCommand, CommandPayload(button.action, millis))
    ensures button.CommandButton? && connOk ==> cs == [Publish(TopicCommand, CommandPayload(button.action, millis))]
  {
    match button
    case NoButton => []
    case CommandButton(a) => if connOk then [Publish(TopicCommand, CommandPayload(a, millis))] else []
    case ReconnectButton => [Disconnect, Reconnect]
  }

  /** The warning a button shows. */
  function ButtonWarning(button: Button, connOk: bool): (w: Option<string>)
    ensures w.Some? <==> button.CommandButton? && !connOk
    ensures w.Some? ==> w.value == NotConnectedWarning
  {
    if button.CommandButton? && !connOk then Some(NotConnectedWarning) else None
  }

  /** One browser session's state: `st.session_state.logs`, which may be absent. */
  class Session {
    var hasLogs: bool
    var logs: seq<string>

    constructor ()
      ensures !hasLogs && logs == []
    {
      hasLogs := false;
      logs := [];
    }

    /** Creates an empty log only when the session has none, so the log
        survives reruns. */
    method InitLogs()
      modifies this
      ensures hasLogs
      ensures logs == if old(hasLogs) then old(logs) else []
    {
      if !hasLogs {
        hasLogs := true;
        logs := [];
      }
    }

    /** Moves every queued entry, oldest first, into the log as one line each,
        stamped with successive clock readings: the queue ends empty and the
        earlier log lines are unchanged. */
    method Drain(bridge: Bridge, clock: nat -> string)
      requires hasLogs && bridge.Valid()
      modifies this, bridge
      ensures hasLogs && logs == old(logs) + DrainLines(old(bridge.queue), clock)
      ensures bridge.Valid() && bridge.queue == []
      ensures bridge.calls == old(bridge.calls) && bridge.pushed == old(bridge.pushed)
      ensures bridge.popped == old(bridge.popped) + old(bridge.queue)
    {
      ghost var entries := bridge.queue;
      ghost var before := logs;
      var n: nat := 0;
      var empty := bridge.IsEmpty();
      while !empty
        invariant hasLogs && bridge.Valid()
        invariant n <= |entries| && bridge.queue == entries[n..]
        invariant empty <==> bridge.queue == []
        invariant logs == before + DrainLines(entries[..n], clock)
        invariant bridge.calls == old(bridge.calls) && bridge.pushed == old(bridge.pushed)
        invariant bridge.popped == old(bridge.popped) + entries[..n]
        decreases |bridge.queue|
      {
        var e := bridge.Get();
        assert entries[..n + 1] == entries[..n] + [e];
        logs := logs + [EntryLine(clock(n), e)];
        n := n + 1;
        empty := bridge.IsEmpty();
      }
      assert entries[..n] == entries;
    }

    /** The Land or Brake button: with the snapshot connected, publish the
        command payload and log one SENT line; otherwise only warn. */
    method PressCommand(bridge: Bridge, a: Action, ts: string, millis: int, connOk: bool)
      returns (warning: Option<string>)
      requires hasLogs
      modifies this, bridge
      ensures hasLogs && bridge.queue == old(bridge.queue)
      ensures bridge.pushed == old(bridge.pushed) && bridge.popped == old(bridge.popped)
      ensures connOk ==> warning == None
                         && bridge.calls == old(bridge.calls) + [Publish(TopicCommand, CommandPayload(a, millis))]
                         && logs == old(logs) + [SentLine(ts, a)]
      ensures !connOk ==> warning == Some(NotConnectedWarning)
                          && bridge.calls == old(bridge.calls) && logs == old(logs)
    {
      if connOk {
        bridge.calls := bridge.calls + [Publish(TopicCommand, CommandPayload(a, millis))];
        logs := logs + [SentLine(ts, a)];
        warning := None;
      } else {
        warning := Some(NotConnectedWarning);
      }
    }

    /** The Reconnect button: disconnect, reconnect, log one line. */
    method PressReconnect(bridge: Bridge, ts: string)
      requires hasLogs
      modifies this, bridge
      ensures hasLogs && bridge.queue == old(bridge.queue)
      ensures bridge.pushed == old(bridge.pushed) && bridge.popped == old(bridge.popped)
      ensures bridge.calls == old(bridge.calls) + [Disconnect, Reconnect]
      ensures logs == old(logs) + [ReconnectLine(ts)]
    {
      bridge.calls := bridge.calls + [Disconnect];
      bridge.calls := bridge.calls + [Reconnect];
      logs := logs + [ReconnectLine(ts)];
    }

    /** One run of the page script: ensure the log exists, drain the queue,
        then handle the pressed button against the connectivity snapshot.
        Lines of drained entries come before any line the button adds. */
    method Rerun(bridge: Bridge, clock: nat -> string, connOk: bool, button: Button, ts: string, millis: int)
      returns (warning: Option<string>)
      requires bridge.Valid()
      modifies this, bridge
      ensures hasLogs && bridge.Valid() && bridge.queue == []
      ensures logs == (if old(hasLogs) then old(logs) else [])
                      + DrainLines(old(bridge.queue), clock)
                      + ButtonLines(button, ts, connOk)
      ensures bridge.calls == old(bridge.calls) + ButtonCalls(button, millis, connOk)
      ensures bridge.popped == old(bridge.popped) + old(bridge.queue) && bridge.pushed == old(bridge.pushed)
      ensures warning == ButtonWarning(button, connOk)
    {
      InitLogs();
      Drain(bridge, clock);
      warning := None;
      match button {
        case NoButton =>
        case CommandButton(a) =>
          warning := PressCommand(bridge, a, ts, millis, connOk);
        case ReconnectButton =>
          PressReconnect(bridge, ts);
      }
    }
  }

  /** A session that sends Land while connected, then sees the transport drop. */
  method LandThenDisconnect(clock: nat -> string, ts: string, millis: int)
  {
    var bridge := new Bridge();
    var session := new Session();
    bridge.OnConnect(0);
    assert bridge.calls == [Connect(BrokerHost, BrokerPort, KeepaliveSeconds),
                            Subscribe(TopicStatus), Subscribe(TopicTelemetry)];
    var w := session.Rerun(bridge, clock, true, CommandButton(Land), ts, millis);
    assert w == None && bridge.calls[3] == Publish(TopicCommand, CommandPayload(Land, millis));
    assert session.logs == [SentLine(ts, Land)];
    bridge.OnDisconnect(0);
    w := session.Rerun(bridge, clock, false, CommandButton(Land), ts, millis);
    assert w == Some(NotConnectedWarning) && |bridge.calls| == 4;
    DrainLinesInOrder([Entry(TopicSystem, "Disconnected")], clock);
    assert session.logs == [SentLine(ts, Land), EntryLine(clock(0), Entry(TopicSystem, "Disconnected"))];
  }
}
