# Curiosity water-quality dashboard: a Dafny model

Curiosity is a browser dashboard for an IoT water-quality probe. It shows
temperature, turbidity and pH. A mock connectivity service stands in for the
device. It connects after a delay, announces its connection status, and
pushes one telemetry sample immediately and then every 30 seconds. It also
acknowledges commands after 500 ms. The pages subscribe to its events:

- the dashboard keeps the latest sample and a 60-point history per channel;
- the alerts page manages a generated list of alerts;
- each sensor card classifies its reading and animates its progress bar.

The model has one module per source file:

| module | file | form |
|---|---|---|
| `MockData` | `mock_data.dfy` | sensor table, clamped random walk, alert generation and sorting |
| `WebSocket` | `websocket.dfy` | the service as a class with a timer table and a `Step` method that fires the earliest timer |
| `Dashboard` | `dashboard.dfy` | the dashboard page as a class whose fields are its React state |
| `AlertsPage` | `alerts.dfy` | the alert-list handlers as pure functions on sequences |
| `SensorCard` | `sensor_card.dfy` | status classification, the interpolation frame chain, the bar width |
| `Wrappers` | `wrappers.dfy` | `Option` |

Randomness and time are made explicit:

- Every `Math.random()` call is a parameter of type `MockData.Draw`, a real in `[0, 1)`.
- `Date.now()` is an `int` parameter or the service's virtual `clock`.
- Host timers are entries in `MockWebSocketService.pending`, a map from timer id to due time and action. `Step` plays the host: it fires the earliest-due timer, and ties go to the smaller id, which is the timer created first. `AdvanceClock` lets time pass between callbacks, up to the earliest due time.
- What the service hands to subscribers is recorded in two append-only logs. `emitted` holds every `emit` call. `delivered` holds every handler invocation.

## Model

| member | source | states |
|---|---|---|
| MockData.GetSensorConfig | src/lib/mockData.ts:10-32 | every sensor's range is non-empty and its fluctuation is positive and smaller than the range |
| MockData.GetCurrentValue | src/lib/mockData.ts:66-69 | a fresh reading lies in the sensor's half-open range `[min, max)` |
| MockData.Clamp | src/lib/mockData.ts:52 | the result lies in `[lo, hi]`; it is the value itself when that is in range, and otherwise the bound it crossed |
| MockData.Perturbation | src/lib/mockData.ts:48 | a step's fluctuation lies within plus or minus the sensor's fluctuation |
| MockData.WalkStep | src/lib/mockData.ts:48-52 | one walk step stays in range and moves at most one fluctuation away from an in-range previous value |
| MockData.Walk | src/lib/mockData.ts:44-60 | the walk has one value per step draw |
| MockData.WalkBoundedAndSmooth | src/lib/mockData.ts:44-60 | every value of the walk is in range; the first is within one fluctuation of the seed, and each later one within one fluctuation of its predecessor |
| MockData.SeriesTimestampsSpaced | src/lib/mockData.ts:55 | the last timestamp is `now`; consecutive timestamps differ by the interval and increase when the interval is positive |
| MockData.GenerateTimeSeriesData | src/lib/mockData.ts:35-63 | the loop returns the reference series `TimeSeries`: the clamped walk from a fresh reading, one point per step draw, stamped so that the series ends at `now` |
| MockData.TimeSeriesTimestamps | src/lib/mockData.ts:46-57 | the series has one point per iteration and none for a non-positive count; its timestamps end at `now` and are spaced by the interval |
| MockData.TimeSeriesValues | src/lib/mockData.ts:44-59 | every value of the series lies in the sensor's range; the first is within one fluctuation of the starting reading, and each later one within one fluctuation of the one before |
| MockData.Pick | src/lib/mockData.ts:83-84 | indexing by `floor(draw * length)` always picks an element of the list |
| MockData.ParseNatToString | src/lib/mockData.ts:88 | the decimal rendering of an index reads back as that index |
| MockData.AlertIdInjective | src/lib/mockData.ts:88 | different indices give different `alert-<i>` ids |
| MockData.AlertMessageShape | src/lib/mockData.ts:92-98 | the message is the sensor key with its first letter capitalised and the rest kept, one space, then the suffix of the alert type |
| MockData.MessageSecondLetter | src/lib/mockData.ts:92 | the second letter of a message is fixed by its sensor |
| MockData.MessageSuffixLetter | src/lib/mockData.ts:92-98 | the letter after the capitalised sensor key and the space is fixed by the alert type |
| MockData.MessageDeterminesKind | src/lib/mockData.ts:92-98 | two equal messages have the same sensor and the same alert type |
| MockData.MakeAlert | src/lib/mockData.ts:88 | alert `i` has id `alert-<i>` |
| MockData.MakeAlertFields | src/lib/mockData.ts:83-102 | the alert built from a draw has a known type and sensor, a timestamp within the last day, a value in the sensor's range, the message for its sensor and type, and is acknowledged iff its draw exceeds 0.5 |
| MockData.InsertNewestFirst | src/lib/mockData.ts:107 | inserting adds exactly one element |
| MockData.SortNewestFirst | src/lib/mockData.ts:107 | the sorted list has as many elements as the input |
| MockData.InsertNewestFirstPermutes | src/lib/mockData.ts:107 | inserting one alert adds exactly that alert to the multiset |
| MockData.InsertNewestFirstSorted | src/lib/mockData.ts:107 | inserting into a newest-first list keeps it newest-first |
| MockData.InsertNewestFirstUniqueIds | src/lib/mockData.ts:107 | inserting an alert with a new id keeps ids distinct |
| MockData.SortNewestFirstCorrect | src/lib/mockData.ts:107 | the sort is a permutation, is ordered by non-increasing timestamp, and keeps ids distinct |
| MockData.InsertNewestFirstStable | src/lib/mockData.ts:107 | the inserted alert goes ahead of the alerts with its timestamp; the alerts of every timestamp keep their order |
| MockData.SortNewestFirstStable | src/lib/mockData.ts:107 | the sort is stable: the alerts of any one timestamp come out in their input order |
| MockData.MakeAlerts | src/lib/mockData.ts:82-104 | the loop's list after `n` iterations has `n` alerts |
| MockData.MakeAlertAt | src/lib/mockData.ts:82-104 | alert `j` of the loop's list is the alert built from draw `j` with index `j` |
| MockData.MakeAlertsUnique | src/lib/mockData.ts:82-104 | the alerts of the loop's list have distinct ids |
| MockData.GenerateMockAlerts | src/lib/mockData.ts:77-108 | the loop builds one alert per draw and returns the reference list `MockAlerts`, that list sorted newest first; there are no alerts for a non-positive count |
| MockData.MockAlertsCorrect | src/lib/mockData.ts:77-108 | the returned list is a permutation of the alerts built one per draw, has one alert per draw, is newest first, and has distinct ids |
| WebSocket.MakeSample | src/lib/websocket.ts:94-99 | every channel of a telemetry sample lies in its sensor's range, and the sample carries the current time |
| WebSocket.AnnouncedAppend | src/lib/websocket.ts:36-53 | one more emission adds a status to the announced list, and becomes the latest status, exactly when it is a connection change |
| WebSocket.LastStatusIsLastAnnounced | src/lib/websocket.ts:36-53 | the latest status is the last one in the announced list, and there is none when nothing was announced |
| WebSocket.CommandMessage | src/lib/websocket.ts:130 | the response message is 30 characters longer than the command, and the command can be read back from it between `Command ` and ` executed successfully` |
| WebSocket.Deliveries | src/lib/websocket.ts:81-83 | one delivery per handler, in registration order, each carrying the event and payload |
| WebSocket.Without | src/lib/websocket.ts:73-75 | the filtered handler list holds exactly the other handlers and is no longer than before |
| WebSocket.WithoutConcat | src/lib/websocket.ts:73-75 | filtering distributes over concatenation, so the order of the remaining handlers is kept |
| WebSocket.WithoutCounts | src/lib/websocket.ts:73-75 | filtering removes every registration of the handler and keeps every other registration, with its multiplicity |
| WebSocket.WithoutIdempotent | src/lib/websocket.ts:70-76 | unsubscribing twice is the same as once |
| WebSocket.WithoutAbsent | src/lib/websocket.ts:70-76 | unsubscribing a handler that is not registered changes nothing |
| WebSocket.OffUndoesOn | src/lib/websocket.ts:62-76 | subscribing a new handler and then unsubscribing it restores the list |
| WebSocket.MockWebSocketService.constructor | src/lib/websocket.ts:12-17 | no listeners, not connected, no interval; exactly one timer pending, calling `connect` 1500 ms later |
| WebSocket.MockWebSocketService.SetTimer | src/lib/websocket.ts:53 | a timer is queued `delay` ms after the current time under a fresh handle, and the handle counter moves on |
| WebSocket.MockWebSocketService.Connect | src/lib/websocket.ts:19-31 | only schedules the delayed connection, 1000 ms later; nothing else changes |
| WebSocket.MockWebSocketService.Disconnect | src/lib/websocket.ts:33-44 | the interval is cancelled and forgotten, the service is disconnected, no periodic timer remains, and one "disconnected" status is emitted and delivered |
| WebSocket.MockWebSocketService.Reconnect | src/lib/websocket.ts:46-56 | same as disconnect, then "reconnecting" is emitted and a `connect` is scheduled 2000 ms later under a new handle |
| WebSocket.MockWebSocketService.IsConnected | src/lib/websocket.ts:58-60 | the service reports connected exactly when the last announced status was "connected" |
| WebSocket.MockWebSocketService.On | src/lib/websocket.ts:62-68 | for a name that is not an inherited object property, the handler is appended to the event's list, which is created when missing; other events are untouched |
| WebSocket.MockWebSocketService.Off | src/lib/websocket.ts:70-76 | for a name that is not an inherited object property, an unknown event is left alone; otherwise every registration of the handler is removed |
| WebSocket.MockWebSocketService.Emit | src/lib/websocket.ts:78-84 | for a name that is not an inherited object property, the payload reaches each registered handler once, in order; an event without handlers reaches nobody |
| WebSocket.MockWebSocketService.StartMockDataStream | src/lib/websocket.ts:86-115 | any previous interval is cancelled, a new 30000 ms interval is installed, and one sample is emitted at once |
| WebSocket.MockWebSocketService.SendCommand | src/lib/websocket.ts:117-134 | while disconnected nothing is scheduled or emitted; while connected one response is scheduled 500 ms later |
| WebSocket.MockWebSocketService.AdvanceClock | src/lib/websocket.ts:19-134 | the host's part: time passes up to the next due time without a callback running, so the public methods can be called between timer callbacks; the service invariants are kept |
| WebSocket.MockWebSocketService.Step | src/lib/websocket.ts:12-134 | the host fires the earliest timer and advances the clock to its due time; it fires nothing only when no timer is pending; each callback has its effect; the service invariants are kept, including "connected iff an interval is installed iff the last status was connected" |
| WebSocket.MockWebSocketService.Pop | src/lib/websocket.ts:14-16 | the host's part, ordering the timers created at src/lib/websocket.ts:14, 23, 53, 91 and 126: the timer taken off the table is the one that fires first, and no other timer does; the clock moves to its due time |
| WebSocket.MockWebSocketService.Fire | src/lib/websocket.ts:14-30 | each kind of callback has its own effect on the timers, the connection state and the emissions; the service invariants are kept |
| WebSocket.MockWebSocketService.FireEstablish | src/lib/websocket.ts:23-30 | the delayed connection sets connected, emits "connected", then starts the data stream |
| WebSocket.MockWebSocketService.FireInterval | src/lib/websocket.ts:91-103 | a period of the interval emits one sample and re-arms the interval 30000 ms later under the same handle |
| WebSocket.MockWebSocketService.FireTick | src/lib/websocket.ts:91-103 | while disconnected a tick emits nothing; while connected it emits one in-range sample |
| WebSocket.MockWebSocketService.FireResponse | src/lib/websocket.ts:126-133 | a command response carries the command, status success, its message and the time it fires |
| WebSocket.OpenSession | src/lib/websocket.ts:12-31 | after construction and two timer firings, the service is connected 2500 ms after start, has emitted "connected" and one sample, and has only its interval pending, due at 32500 ms |
| WebSocket.ConnectStreamDisconnect | src/lib/websocket.ts:33-44 | connect, one period of data, then disconnect: the emissions are connected, sample, sample, disconnected, and nothing stays scheduled |
| WebSocket.FreshConnectRuns | src/lib/websocket.ts:12-31 | the constructor's `connect` runs alone: a delayed connection is pending for 2500 ms, and nothing is emitted |
| WebSocket.RaceStartup | src/lib/websocket.ts:46-56 | a reconnect issued right after construction announces "disconnected" and "reconnecting" and leaves two `connect` calls pending, 1500 ms and 2000 ms after start |
| WebSocket.StartupConnectRuns | src/lib/websocket.ts:19-31 | the constructor's `connect` runs first and schedules its delayed connection for 2500 ms; nothing is emitted |
| WebSocket.ReconnectConnectRuns | src/lib/websocket.ts:19-31 | the reconnect's `connect` runs next: two delayed connections are pending, at 2500 ms and 3000 ms; nothing is emitted |
| WebSocket.FirstLinkUp | src/lib/websocket.ts:23-30 | the first delayed connection connects the service, emits "connected" and a sample, and installs an interval; the second is still pending |
| WebSocket.SecondLinkUp | src/lib/websocket.ts:86-89 | the second delayed connection, while already connected, emits "connected" and a sample again and replaces the interval, so one interval is pending |
| WebSocket.AnnouncedRace | src/lib/websocket.ts:36-53 | the statuses of that run's six emissions are disconnected, reconnecting, connected, connected |
| WebSocket.ReconnectDuringStartup | src/lib/websocket.ts:23-56 | overall, the race announces "connected" twice in a row, and the stream restart still leaves exactly one interval |
| WebSocket.CommandBetweenTicks | src/lib/websocket.ts:117-134 | a command sent 100 ms after the link came up is answered 500 ms later, before the next sample, and the interval stays queued for its period |
| WebSocket.DisconnectTwice | src/lib/websocket.ts:33-44 | disconnecting an already disconnected service announces "disconnected" again and leaves no timers |
| WebSocket.ResponseAfterDisconnect | src/lib/websocket.ts:117-134 | a command sent while connected is still answered after a later disconnect |
| Dashboard.Recent | src/pages/Index.tsx:41 | `slice(-60)` keeps the last `min(n, 60)` elements |
| Dashboard.KeepLast | src/pages/Index.tsx:38-41 | one history update grows the history by one point up to 60 points, then keeps it at 60; it always ends with the new point |
| Dashboard.KeepLastShape | src/pages/Index.tsx:38-41 | below the window an update only appends; at or above it, it drops the oldest points so that 60 remain |
| Dashboard.RecentConcat | src/pages/Index.tsx:41 | trimming to the last 60 before appending more and trimming again is the same as trimming once at the end |
| Dashboard.FeedKeepsRecent | src/pages/Index.tsx:38-51 | after any run of updates, a history that started within the window is the last 60 points of everything it has been given |
| Dashboard.KeepLastThenRecent | src/pages/Index.tsx:38-41 | one update followed by trimming the rest is the same as trimming everything |
| Dashboard.DashboardPage.RefreshDisabled | src/pages/Index.tsx:132 | the refresh button is enabled exactly when the page is connected and not loading; the handler contracts say how each event changes it |
| Dashboard.DashboardPage.constructor | src/pages/Index.tsx:18-29 | initial state: no sample, loading, disconnected; three generated histories of 20 points, 30 s apart and in range; the mount effect's closures see no sample |
| Dashboard.DashboardPage.HandleData | src/pages/Index.tsx:32-52 | the sample becomes current, loading ends, each history gets the sample's point for its channel, and refresh is enabled iff connected |
| Dashboard.DashboardPage.HandleConnection | src/pages/Index.tsx:54-59 | the status is shown as announced; "disconnected" starts loading; refresh is disabled unless connected and not loading |
| Dashboard.DashboardPage.HandleRefresh | src/pages/Index.tsx:77-79 | loading starts, one refresh callback is scheduled, and refresh is disabled |
| Dashboard.DashboardPage.RefreshFired | src/pages/Index.tsx:81-108 | the refresh callback makes an in-range sample current and applies the same history update as incoming data |
| Dashboard.DashboardPage.InitialLoadTimeoutAsWritten | src/pages/Index.tsx:65-69 | the timeout tests the sample captured at mount: it ends loading when that sample is absent and otherwise leaves it alone; since that sample is always absent, the timeout always ends loading |
| Dashboard.DashboardPage.InitialLoadTimeout | src/pages/Index.tsx:65-69 | the intended timeout ends loading only while no sample has arrived, and otherwise leaves it alone |
| Dashboard.Mounted | src/pages/Index.tsx:18-29 | just after mount, no sample has arrived, the page is loading and no refresh is scheduled |
| Dashboard.FirstSampleThenRefresh | src/pages/Index.tsx:32-79 | after "connected", a first sample and a refresh, the sample is current, the page is loading again and one refresh is scheduled |
| Dashboard.RefreshCutShortAsWritten | src/pages/Index.tsx:65-69 | first sample, refresh, then the timeout, as written: loading is off while the refresh callback is still scheduled |
| Dashboard.RefreshKeepsLoading | src/pages/Index.tsx:65-69 | the same sequence with the intended timeout: loading stays on until the refresh callback runs |
| AlertsPage.Select | src/pages/Alerts.tsx:53-55 | `filter` keeps exactly the alerts the predicate accepts and is no longer than its input |
| AlertsPage.SelectCounts | src/pages/Alerts.tsx:53-55 | `filter` keeps every accepted alert with its number of copies and drops every other one |
| AlertsPage.AcknowledgeAlert | src/pages/Alerts.tsx:45-51 | alerts with the id become acknowledged; length, order and all other fields are unchanged |
| AlertsPage.DeleteAlert | src/pages/Alerts.tsx:53-55 | the list holds exactly the alerts with another id, and is no longer than before |
| AlertsPage.AcknowledgeAll | src/pages/Alerts.tsx:57-61 | every alert becomes acknowledged; length, order and all other fields are unchanged |
| AlertsPage.ClearAlerts | src/pages/Alerts.tsx:63-65 | the list becomes empty |
| AlertsPage.FilteredAlerts | src/pages/Alerts.tsx:67-69 | "all" shows the list itself; "unacknowledged" shows exactly its unacknowledged alerts |
| AlertsPage.DeleteAlertCounts | src/pages/Alerts.tsx:53-55 | deleting drops every copy of the alerts with the id and keeps every other alert with its number of copies |
| AlertsPage.UnacknowledgedViewCounts | src/pages/Alerts.tsx:67-69 | the unacknowledged view holds every unacknowledged alert with its number of copies, and nothing else |
| AlertsPage.AcknowledgeAllDisabled | src/pages/Alerts.tsx:304 | "Acknowledge All" is disabled exactly when every alert is acknowledged, which includes the empty list; what that means for the button is stated by `AcknowledgeAllDisabledIffNoEffect` and `AcknowledgeAllDisabledIffNothingUnacknowledged` |
| AlertsPage.ClearAllDisabled | src/pages/Alerts.tsx:312 | "Clear All" is disabled exactly when the list is empty; what that means for the button is stated by `ClearAllDisabledIffNoEffect` |
| AlertsPage.DeleteAbsentIsNoOp | src/pages/Alerts.tsx:53-55 | deleting an id no alert has changes nothing |
| AlertsPage.AcknowledgeAlertIdempotent | src/pages/Alerts.tsx:45-51 | acknowledging an alert twice is the same as once |
| AlertsPage.AcknowledgeAllIdempotent | src/pages/Alerts.tsx:57-61 | acknowledging all twice is the same as once |
| AlertsPage.AcknowledgeAllDisabledIffNothingUnacknowledged | src/pages/Alerts.tsx:304 | "Acknowledge All" is disabled iff the unacknowledged view is empty |
| AlertsPage.AcknowledgeAllDisabledIffNoEffect | src/pages/Alerts.tsx:304 | "Acknowledge All" is disabled iff pressing it would change nothing |
| AlertsPage.AcknowledgeAllLeavesNothing | src/pages/Alerts.tsx:57-61 | after "Acknowledge All" its button is disabled and the unacknowledged view is empty |
| AlertsPage.ClearAllDisabledIffNoEffect | src/pages/Alerts.tsx:312 | "Clear All" is disabled iff pressing it would change nothing; after it both buttons are disabled |
| AlertsPage.AcknowledgeLeavesUnacknowledgedView | src/pages/Alerts.tsx:45-69 | in the unacknowledged view, acknowledging an alert looks exactly like deleting it |
| AlertsPage.DeleteCommutesWithView | src/pages/Alerts.tsx:53-69 | deleting and then filtering equals filtering and then deleting |
| SensorCard.Classify | src/components/dashboard/SensorCard.tsx:54-70 | for a non-empty range: critical iff the reading is within 10% of the range from either end; warning iff it is not critical and is within 20%; normal iff it is in the middle 60%. An empty range is always critical |
| SensorCard.ClassifyMirror | src/components/dashboard/SensorCard.tsx:58-66 | the bands are symmetric about the middle of the range |
| SensorCard.ClassifyTowardsMiddle | src/components/dashboard/SensorCard.tsx:58-70 | moving a reading towards the middle never makes its status more severe |
| SensorCard.NextStatus | src/components/dashboard/SensorCard.tsx:51-72 | the status is unchanged when the reading or a bound is missing; otherwise it follows the bands |
| SensorCard.BeforeFirstSampleAllCritical | src/components/dashboard/SensorCard.tsx:58-62 | a card showing the dashboard's placeholder reading 0 is critical for every configured sensor |
| SensorCard.Progress | src/components/dashboard/SensorCard.tsx:37 | progress never exceeds 1; it is 1 exactly when 1000 ms have elapsed; it is 0 at the start and non-negative afterwards |
| SensorCard.ProgressMonotone | src/components/dashboard/SensorCard.tsx:37 | progress never decreases with elapsed time |
| SensorCard.Interpolate | src/components/dashboard/SensorCard.tsx:36-38 | the value is `start` at elapsed 0 and `end` from 1000 ms on, and lies between them for any non-negative elapsed time |
| SensorCard.InterpolateMonotone | src/components/dashboard/SensorCard.tsx:36-38 | for a rising animation, later moments never show smaller values |
| SensorCard.LerpBetween | src/components/dashboard/SensorCard.tsx:38 | `start + (end - start) * progress` is `start` at progress 0, `end` at progress 1, and between them for progress in 0..1 |
| SensorCard.FramesRun | src/components/dashboard/SensorCard.tsx:35-47 | the chain runs at most one frame per frame time; every frame but its last is before 1000 ms; when it stops before the frame times run out, its last frame is at or past 1000 ms |
| SensorCard.Animate | src/components/dashboard/SensorCard.tsx:35-47 | one value per frame the chain runs, each the interpolation at that frame's elapsed time |
| SensorCard.AnimateEndsAtEnd | src/components/dashboard/SensorCard.tsx:35-47 | if the chain stops before the frame times run out, or its last frame is at or past 1000 ms, the final value shown is `end` |
| SensorCard.MountWithReadingHolds | src/components/dashboard/SensorCard.tsx:24-47 | a card that mounts with a reading starts its animated value at that reading, so the mount effect's animation shows the reading on every frame |
| SensorCard.FirstReadingAnimatesFromZero | src/components/dashboard/SensorCard.tsx:24-47 | a card that mounts without a reading starts at 0, so the first reading is animated from 0: the first frame at the start time shows 0, every frame stays between 0 and the reading, and the chain ends on the reading when it stops |
| SensorCard.BarWidth | src/components/dashboard/SensorCard.tsx:143-147 | 0 when a bound is missing; no finite width for an empty range; otherwise the position in the range times 100 |
| SensorCard.BarWidthEnds | src/components/dashboard/SensorCard.tsx:143-147 | the width is 0 at the lower bound and 100 at the upper bound, and lies in 0..100 between them |
| SensorCard.BarWidthMonotone | src/components/dashboard/SensorCard.tsx:145 | a larger value never gives a narrower bar |

## Left out

- Host timers and the event loop are modelled as an explicit timer table with a virtual clock. The clock moves when the earliest timer fires (`Step`) or when time passes between callbacks (`AdvanceClock`), so a public method can be called at any moment, but not past a due timer. Ties between equal due times go to the smaller timer id. A browser orders a re-armed interval by when it was re-armed, so the two can differ only when a re-armed interval ties with a timeout created after the interval was created.
- Handler bodies are opaque identities. Their side effects, re-entrant calls into the service, and exceptions are not modelled. `emit` does not isolate a throwing handler, so a throw would stop the dispatch.
- `console.log` and `console.error` output is not modelled. The `params` argument of `sendCommand` is only logged, so the model leaves it out.
- Numbers are unbounded reals and integers. IEEE rounding, `NaN` and `Infinity` are not modelled. The bar width of an empty range is `None` instead of a non-finite number.
- `lastUpdated` holds the sample's timestamp rather than a `Date`. Time formatting and all rendering (icons, colours, charts, layout, toasts) are left out.
- The dashboard page and the service are separate models. The page's handlers are the methods the service's deliveries would call. The unmount cleanup that unsubscribes them is not modelled.
- The alerts page's mount effect is not modelled. It loads `generateMockAlerts(8)` after 1500 ms and sets a loading flag.
- SensorCard: when the reading changes before an animation finishes, the new animation starts without cancelling the old one. The two frame chains then interleave; each chain is modelled on its own.
- MockData.SortNewestFirst: the engine's `Array.prototype.sort` is stable, and the model is a stable insertion sort (`MockData.SortNewestFirstStable`). The engine's own algorithm is not modelled.
- Event names are a datatype: the three names the service emits (`connection`, `data`, `commandResponse`) and `OtherEvent(name)` for any other name. `ListenableEvent` rules out an `OtherEvent` carrying one of the three names, so each name has one representation.
- WebSocket.MockWebSocketService.On: requires `ListenableEvent(e)`. For the name of a property every object inherits (`toString`, `constructor`, `__proto__`, ...) the listener table is a plain object whose lookup finds an inherited value instead of a handler list, and `on` throws a `TypeError` at the `push`. The model excludes those names instead of modelling the exception.
- WebSocket.MockWebSocketService.Off: requires `ListenableEvent(e)`; for the same inherited names `off` throws a `TypeError` at the `filter`, which is not modelled.
- WebSocket.MockWebSocketService.Emit: requires `ListenableEvent(e)`; for the same inherited names `emit` throws a `TypeError` at the `forEach`, which is not modelled. The service only emits its three own names.
- `generateMockAlerts` calls `Date.now()` once per alert; each alert's draw carries its own `now`.
- The code's behaviour differs from the service's intended behaviour in two places, and the model follows the code:
  - A pending command response is still delivered after a `disconnect` (`WebSocket.ResponseAfterDisconnect`).
  - Overlapping delayed connections announce "connected" twice in a row (`WebSocket.ReconnectDuringStartup`). The constructor's `connect` timer (src/lib/websocket.ts:14) and the link timers of `connect` (src/lib/websocket.ts:23) are never stored, so `disconnect` and `reconnect` cannot cancel them.

## Findings

| source | as written | input that shows it | evidently intended | confidence | as-written member | corrected member |
|---|---|---|---|---|---|---|
| src/pages/Index.tsx:65-69 | the 3000 ms initial-load callback tests `sensorData` captured when the mount effect ran, which is always `null`, so it always clears the loading flag | a sample arrives, the user presses refresh, and the 3000 ms timeout then fires before the refresh callback: loading is shown as finished while the refresh is still pending | clear the loading flag only if no sample has arrived yet | medium, not executed | Dashboard.DashboardPage.InitialLoadTimeoutAsWritten, Dashboard.RefreshCutShortAsWritten | Dashboard.DashboardPage.InitialLoadTimeout, Dashboard.RefreshKeepsLoading |
