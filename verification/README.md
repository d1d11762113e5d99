# Live dashboard state and connection hook

This project models the two pieces of logic in the apple-classification
dashboard's front end:

- the **live-state reducer** of `src/components/Dashboard.js`. A pushed
  `new_classification` message updates three views in one step: the list of
  recent classifications (newest first, at most 20), the per-color statistics
  (find-or-insert, in first-seen order) and the activity window (oldest first,
  at most 15). Every other message, or no message, leaves all three views
  alone. The table shows the first 10 entries of the list.
- the **connection hook** `useWebSocket` of `src/hooks/useWebSocket.js`. It
  reports `disconnected` / `connected` / `error` from the socket's open, error
  and close callbacks. It keeps the last inbound frame that decodes. It sends
  only while the socket is OPEN, and its cleanup closes the socket.

The inputs the code takes from the environment are parameters: the clock value
used as the event id (`Date.now()`), the display label of the timestamp
(`toLocaleTimeString()`), the seeded timestamps, and `JSON.parse` /
`JSON.stringify` (a `decode` function returning `Option`, an `encode`
function). The socket is an id plus a `readyState`. Browser callbacks are
events tagged with the id of the socket that fired them. The status is a
three-valued datatype, so it is always one of `disconnected`, `connected` and
`error`.

The code names the category field `color`; the model does the same.
`{ id: Date.now(), ...lastMessage.data }` lets an `id` in the payload override
the clock value, so `Payload.id` is optional and `Stamp` gives the payload's id
precedence.

Files: `wrappers.dfy` (Option), `dashboard.dfy` (the reducer),
`dashboard_lemmas.dfy` (its properties), `websocket_hook.dfy` (the hook),
`websocket_hook_lemmas.dfy` (its properties).

## Model

| member | source | states |
|---|---|---|
| Dashboard.Step | src/components/Dashboard.js:50-51 | a message that is absent or whose type is not `new_classification` leaves the list, the statistics and the window unchanged |
| Dashboard.Stamp | src/components/Dashboard.js:52-55 | the new classification takes the clock value as its id unless the payload carries an id, which then wins; color and timestamp come from the payload |
| Dashboard.PrependRecent | src/components/Dashboard.js:57 | the new list has length min(20, n+1), starts with the new event, and continues with the previous entries in their order |
| Dashboard.Table | src/components/Dashboard.js:194 | the table holds exactly the first min(10, n) entries of the list, in order |
| Dashboard.FindIndex | src/components/Dashboard.js:61 | the result is the first index whose color matches, and None exactly when no entry has the color |
| Dashboard.Increment | src/components/Dashboard.js:59-68 | if the color is present, its first entry's count rises by 1 and every other entry stays; if absent, `{color, 1}` is appended; length grows by at most 1 and existing colors keep their positions |
| Dashboard.LastN | src/components/Dashboard.js:74 | for a positive width n (the source uses `slice(-15)`), the result is the suffix of length min(n, length) |
| Dashboard.Slide | src/components/Dashboard.js:70-75 | the new window has length min(15, n+1), ends with the new point, and its front is the newest part of the previous window |
| Dashboard.SeedClassifications | src/components/Dashboard.js:42-47 | the seed has 20 entries; entry i has id i+1, is red at even and green at odd positions, and its timestamp is `stampAt(i)` |
| DashboardLemmas.IncrementTotal | src/components/Dashboard.js:59-68 | each classification adds exactly 1 to the sum of counts |
| DashboardLemmas.IncrementCounts | src/components/Dashboard.js:61-66 | the event color's count rises by exactly 1 and every other color's count is unchanged |
| DashboardLemmas.IncrementKeepsDistinct | src/components/Dashboard.js:61-66 | if the colors were distinct before a step they are distinct after it |
| DashboardLemmas.StepUpdatesAllViews | src/components/Dashboard.js:50-77 | one classification updates all three views in the same step: list head, length and order; the color's count +1 with others unchanged; total +1; window length and last point |
| DashboardLemmas.SlideIsFifo | src/components/Dashboard.js:70-74 | within the cap the point is appended; at the cap only the oldest point is evicted |
| DashboardLemmas.TableAfterStep | src/components/Dashboard.js:194 | after a classification the table is the new event followed by the first nine rows shown before |
| DashboardLemmas.RunRecent | src/components/Dashboard.js:57 | after any sequence of messages the list is the newest 20 of all classifications seen (new ones first, then the seed), so its length is min(20, events so far) |
| DashboardLemmas.RunRealtime | src/components/Dashboard.js:70-75 | after any sequence of messages the window is the last 15 of all points, oldest first |
| DashboardLemmas.RunStatistics | src/components/Dashboard.js:59-68 | after any sequence of messages each color's count has grown by exactly its number of classifications, the total by the number of classifications, and distinct colors stay distinct |
| DashboardLemmas.SeededRedApple | src/components/Dashboard.js:36-68 | from the seed, one red-apple event gives red 46 and green 38, a list of 20 led by the new event with the seeded entry of id 20 dropped, and a one-point window |
| DashboardLemmas.SeedThenRedAppleStatistics | src/components/Dashboard.js:36-68 | on the snapshot seed itself, one red-apple event gives the statistics red 46, green 38 |
| DashboardLemmas.SeedThenRedAppleViews | src/components/Dashboard.js:36-76 | on the snapshot seed itself, one red-apple event gives a list of 20 led by the new event with ids 1..19 behind it (id 20 dropped) and a one-point window |
| WebSocketHook.CloseSocket | src/hooks/useWebSocket.js:33-35 | closing leaves the same socket, now closing or closed |
| WebSocketHook.SendMessage | src/hooks/useWebSocket.js:38-42 | the encoded message is sent if and only if a socket exists and its readyState is OPEN; otherwise nothing is sent |
| WebSocketHook.StepAsWritten | src/hooks/useWebSocket.js:8-36 | open sets connected, error sets error, close sets disconnected, from any status; no other event changes the status; a frame that decodes replaces the last message and one that does not keeps it; a send changes nothing; a new url creates a fresh connecting socket; the same url changes nothing; unmount closes the socket |
| WebSocketHook.Step | src/hooks/useWebSocket.js:8-36 | callbacks of a socket other than the current one change nothing; every other event acts as in the source |
| WebSocketHookLemmas.RunAsWrittenFollowsCallbacks | src/hooks/useWebSocket.js:11-29 | while mounted, the status is the one named by the last open/error/close callback and the last message is the value of the last frame that decoded |
| WebSocketHookLemmas.InitialFollowsCallbacks | src/hooks/useWebSocket.js:5-6 | from the initial hook the status is `disconnected` and the last message is null until a callback or a decodable frame changes them |
| WebSocketHookLemmas.NothingAfterUnmount | src/hooks/useWebSocket.js:33-35 | after unmounting, no event changes the hook's state |
| WebSocketHookLemmas.NoSendAfterUnmount | src/hooks/useWebSocket.js:33-42 | teardown leaves the socket closing or closed, so a later `sendMessage` sends nothing |
| WebSocketHookLemmas.StaleCloseAsWritten | src/hooks/useWebSocket.js:26-36 | in the source, the old socket's late close after a url change marks the hook disconnected while the new socket is open; the guarded hook stays connected |
| WebSocketHookLemmas.StepKeepsConsistent | src/hooks/useWebSocket.js:11-36 | each event of the guarded hook keeps socket ids fresh; an open current socket shows as connected; connected shows only while the current socket is connecting or open |
| WebSocketHookLemmas.RunKeepsConsistent | src/hooks/useWebSocket.js:11-36 | every run of the guarded hook from a consistent state stays consistent |
| WebSocketHookLemmas.InitialConsistent | src/hooks/useWebSocket.js:3-36 | every run of the guarded hook from its initial state is consistent |

## Left out

- `src/services/api.js` (the snapshot HTTP calls): a thin axios wrapper with no logic; the seeded state stands in for its results.
- The mock hook at `src/components/Dashboard.js:5-26`: it uses a timer, `Math.random` and the clock, and stands in for the push channel. `Dashboard.js` wires this mock, not `useWebSocket`, so the model does not compose the two; each is modelled on its own.
- JSX and chart rendering, the color palette and the status label (`src/components/Dashboard.js:80-216`), apart from the 10-row table slice.
- `Date.now()`, `toISOString`, `toLocaleTimeString`, `toLocaleString`: clock and locale dependent; they are opaque parameters. Two events in the same millisecond get the same id in the source; the model does not constrain ids.
- `JSON.parse` / `JSON.stringify` and the real `WebSocket`: decoding and encoding are parameters, the socket is an id and a readyState. A decoded value is modelled as a message with a type tag and a `{id?, color, timestamp}` body; other JSON values, missing fields and extra fields are not modelled.
- React scheduling, effect batching and stale closures: each decoded message is taken to run the message effect exactly once, and `sendMessage` reads the current `ws`.
- The readyState of a socket after it is replaced is not tracked; only the current socket's is.
- Console logging (`src/hooks/useWebSocket.js:12, 22, 27`).
- JavaScript numbers are doubles; counts are unbounded naturals here.
- DashboardLemmas.RunRecent: stated for a starting list of at most 20 entries (the empty and the seeded list both qualify); a longer starting list is cut at the first step.
- DashboardLemmas.RunRealtime: stated for a starting window of at most 15 points (the initial window is empty); a longer one is cut at the first point.

## Findings

| source | as written | input that shows it | evidently intended | confidence | as-written member | corrected member |
|---|---|---|---|---|---|---|
| src/hooks/useWebSocket.js:26-36 | the cleanup only calls `close()` on the old socket, whose `onclose`/`onerror` handlers still write the hook's status after the url changes | activate url "a", socket 0 opens, activate url "b", socket 1 opens, then socket 0's close arrives: status becomes `disconnected` while socket 1 is OPEN | callbacks of a replaced socket do not change the status shown for the current one | not executed; needs the old socket's closing handshake to finish after the new socket opens | WebSocketHookLemmas.StaleCloseAsWritten | WebSocketHookLemmas.RunKeepsConsistent |
