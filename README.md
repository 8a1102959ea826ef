# Drone-control MQTT bridge, modelled in Dafny

`mqtt_1.py` is a Streamlit page that sends Land and Brake commands to a drone
over MQTT and shows the status and telemetry messages the drone publishes.
Beneath the page layout sits a small message bridge, and this project models it:

- The MQTT client's callbacks run on a background thread. They put entries on
  a process-wide FIFO queue: a `SYSTEM` entry when the broker refuses the
  connection or the connection drops, and `(topic, payload)` for every message.
  A successful connect subscribes to `mavsdk/status` and `mavsdk/telemetry`.
- Every rerun of the page first makes sure the session log exists. It then
  drains the queue into the log, one `[time] topic: payload` line per entry,
  oldest first.
- The Land and Brake buttons publish a five-key command payload to
  `mavsdk/command` and log a `SENT` line. They do this only when that rerun's
  connectivity snapshot says connected; otherwise they only warn.
- The Reconnect button disconnects, reconnects and logs a line.
- The log box shows the last twenty log lines joined by newlines.

Files:

- `wire.dfy` (module `Wire`): the broker and topic constants, the queue entry,
  the command payload as an ordered key/value list, and the decimal text of
  the connect result code.
- `log_text.dfy` (module `LogText`): the stamped line formats, the lines a
  drain appends, and the last-twenty view.
- `page.dfy` (module `Page`): class `Bridge` holds the cached queue and the
  client, with every client call recorded in `calls`. Class `Session` holds
  the session log. Its methods are the drain, the buttons and a whole rerun.

`Bridge` carries two ghost histories, `pushed` and `popped`. Its invariant
`Valid()` says `pushed == popped + queue`. Every method keeps it. So over the
bridge's whole lifetime no entry is lost, duplicated or reordered.

The code has no connection state machine. It reads `client.is_connected()`
once per rerun (line 66), and the model takes that reading as the boolean
input `connOk`. There are no connection states. A button pressed while
disconnected shows a warning and returns no error. The payload arrives already
decoded, and the model does not claim that decoding is total.

## Model

| member | source | states |
|---|---|---|
| `Page.Bridge.constructor` | mqtt_1.py:21-48 | A fresh bridge has an empty queue, empty histories and one recorded call: connect to `broker.emqx.io:1883` with keepalive 60 |
| `Page.Bridge.OnConnect` | mqtt_1.py:31-36 | With `rc == 0` the client subscribes to exactly `mavsdk/status`, then `mavsdk/telemetry`, and nothing is queued. With `rc != 0` exactly one `("SYSTEM", "Connection failed (rc=<rc>)")` entry goes to the back of the queue and nothing is subscribed. FIFO invariant kept |
| `Page.Bridge.OnDisconnect` | mqtt_1.py:37-38 | Whatever `rc` is, exactly one `("SYSTEM", "Disconnected")` entry goes to the back of the queue and nothing else changes |
| `Page.Bridge.OnMessage` | mqtt_1.py:39-40 | Exactly one `(topic, payload)` entry is appended at the back of the queue. Earlier entries and the client calls are untouched |
| `Page.Bridge.IsEmpty` | mqtt_1.py:56 | Returns true exactly when the queue holds no entry |
| `Page.Bridge.Get` | mqtt_1.py:57 | Removes and returns the oldest entry, and records it as taken. FIFO invariant kept |
| `Page.Session.InitLogs` | mqtt_1.py:51-52 | The log is created empty only when the session has none. An existing log is kept unchanged across reruns |
| `Page.Session.Drain` | mqtt_1.py:55-59 | Afterwards the queue is empty. The log is the old log followed by exactly one `[clock(i)] topic: payload` line per formerly queued entry, in queue order. Every drained entry is recorded as taken. Client calls are unchanged |
| `Page.Session.PressCommand` | mqtt_1.py:72-99 | When connected: exactly one publish of the command payload to `mavsdk/command`, exactly one `[ts] SENT LAND`/`SENT BRAKE` line, no warning. When disconnected: no publish, no log line, only the warning `Not connected — cannot send` |
| `Page.Session.PressReconnect` | mqtt_1.py:101-106 | Records a disconnect, then a reconnect, and appends exactly one `[ts] Reconnecting...` line. The queue is unchanged |
| `Page.Session.Rerun` | mqtt_1.py:50-106 | After a rerun the log is the old log (or empty if there was none), then the drained lines in queue order, then the button's lines. So drained lines always come before `SENT` or `Reconnecting...` lines. The queue ends empty and the client calls are exactly the button's |
| `Page.ButtonCalls` | mqtt_1.py:72-106 | No button publishes while the snapshot says disconnected. A command button that is connected publishes exactly one payload, on the command topic, for its own action |
| `Page.ButtonLines` | mqtt_1.py:72-106 | A button adds at most one line. A command button adds none exactly when the snapshot says disconnected |
| `Page.Bridge.Put` | mqtt_1.py:36-40 | `q.put`: exactly one entry goes to the back of the queue and is recorded as pushed; client calls and taken entries are unchanged. FIFO invariant kept |
| `Page.Session.constructor` | mqtt_1.py:51 | A new browser session has no `logs` key yet |
| `Page.ButtonWarning` | mqtt_1.py:83-99 | A warning is shown exactly when a Land or Brake button is pressed while the snapshot says disconnected, and it is `Not connected — cannot send` |
| `Wire.FailureText` | mqtt_1.py:36 | The failure text starts with `Connection failed (rc=` and ends with `)`; what lies between is all digits exactly when the code is not negative |
| `LogText.EntryLine` | mqtt_1.py:59 | For a time text with no `]`, the drained line splits back into that time and the body `topic: payload` |
| `LogText.SentLine` | mqtt_1.py:82-97 | For a time text with no `]`, the line splits back into that time and the body `SENT LAND` or `SENT BRAKE` |
| `LogText.ReconnectLine` | mqtt_1.py:106 | For a time text with no `]`, the line splits back into that time and the body `Reconnecting...` |
| `LogText.DrainLines` | mqtt_1.py:56-59 | A drain of `n` entries appends exactly `n` lines |
| `LogText.LogView` | mqtt_1.py:111 | An empty log shows an empty box; otherwise the newest log line is always the end of the box's text |
| `Wire.CommandPayload` | mqtt_1.py:74-80 | The payload's keys are exactly `action, timestamp, source, mavsdk_command, priority`, in that order. Looking up each key gives the action name, the given millis, `streamlit_app`, the MAVSDK call and `high` |
| `Wire.CommandPayloadInjective` | mqtt_1.py:74-95 | Equal payloads carry the same action and the same millis, so Land and Brake payloads can be told apart |
| `Wire.IntToDecimalRoundTrip` | mqtt_1.py:36 | The decimal text of every integer result code parses back to that integer |
| `Wire.FailureTextRoundTrip` | mqtt_1.py:36 | The result code can be read back from the `Connection failed (rc=…)` text |
| `Wire.FailureTextInjective` | mqtt_1.py:36 | Different result codes give different failure entries |
| `LogText.StampRoundTrip` | mqtt_1.py:58-59 | For a time text with no `]`, every stamped line (`[ts] body`) splits back into that time and that body |
| `LogText.DrainLinesInOrder` | mqtt_1.py:56-59 | A drain produces exactly one line per entry. Line `i` is `[clock(i)] topic_i: payload_i`, so the lines follow queue order |
| `LogText.DrainLinesAppend` | mqtt_1.py:56-59 | Draining `a + b` gives the lines of `a`, then the lines of `b`, with the clock readings continuing |
| `LogText.Recent` | mqtt_1.py:111 | `logs[-20:]` has `min(20, len(logs))` lines and is exactly the suffix of the log |
| `LogText.NewestLinesVisible` | mqtt_1.py:111 | However long the log is, up to twenty lines just appended are the bottom rows of the view |
| `LogText.SplitJoin` | mqtt_1.py:111 | Splitting a `"\n"`-join back at newlines gives the lines again, when no line holds a newline |
| `LogText.LogViewRows` | mqtt_1.py:111 | An empty log shows an empty box. Otherwise, when no line holds a newline, the box's rows are exactly the most recent `min(20, len(logs))` lines in order |

## Left out

- Streamlit rendering: the page config, title, markdown, columns, button widgets, caption and the log box widget. A button press is a `Button` value or a method call. `st.warning` is the returned `warning` value.
- `st.cache_resource` singletons: the cached queue and client are one `Bridge` object that the caller passes to every rerun.
- On the very first rerun the drain runs before `init_mqtt_client` creates the client. In the model the bridge already exists; its queue is empty then, so the drain does nothing either way.
- `Page.Bridge.constructor` and `Page.Session.PressReconnect`: a failed `connect` (line 46) or `reconnect` (line 105) is not modelled; both always succeed in the model. In the source these calls raise when the broker cannot be reached: on the first run the script stops with no client, and after Reconnect the `Reconnecting...` line is never appended. An unreachable broker queues no `SYSTEM` entry in the source either; only a broker refusal (`rc != 0`, line 36) does.
- paho-mqtt internals: the model records `connect`, `subscribe`, `publish`, `disconnect` and `reconnect` as `ClientCall` values and does not model delivery. `loop_start` and the time-based `client_id` are not modelled. `is_connected()` is the `connOk` input.
- The callbacks that the transport fires after `disconnect()` and `reconnect()` are not triggered automatically. The caller invokes `OnDisconnect` and `OnConnect` when the transport would.
- The background network thread and `queue.Queue` locking. Callbacks and reruns run one after another, so a callback firing during a drain is not modelled.
- The clock: each drained line's time is `clock(i)`, the `i`-th wall-clock reading of that drain. The button line's time `ts` and the integer `millis` are parameters. `int(time.time() * 1000)` on a float and `time.sleep(1)` are not modelled.
- `msg.payload.decode()`: the payload arrives already decoded as a string. The UTF-8 decode that can raise on invalid bytes is not modelled.
- `str(payload)`: the payload is an ordered key/value list. Python's dict repr text (quotes, spacing) is not modelled.
- `Page.Bridge.Get`: requires a non-empty queue. A blocking `get()` on an empty queue never happens while one session drains at a time, the sequential setting the model assumes, because the drain loop checks `empty()` first. The queue is shared by all browser sessions (lines 21-23), so two sessions draining at once can both see one entry left and the loser blocks in `get()` until another message arrives; that is not modelled.
