# lutron-gps-server in Dafny

A model of the two event-driven controllers of lutron-gps-server, which keeps
the location, UTC offset, date and time of Lutron QNET lighting controllers in
step with a moving GPS receiver.

- **GPS server** (`src/index.js`). A position sentence is accepted only when its
  status is `"A"`. A resync starts when the fix lies more than 160934 m (100
  miles) from the last synced position, or when the last sync is more than one
  day old. A resync builds four `#SYSTEM` commands: location, UTC offset in
  hours, date, time. The same command array is handed to every configured
  controller. For each controller, `syncLutron` sends one command on `ready`
  and one more on every `data` event. A `data` event that finds the array empty
  ends the client and resolves `true`. A 10-second deadline resolves `false`
  unless the batch was drained. The synced position and time change only if
  every controller answered `true`.
  - Modules: `Position` (the filter), `Decimal` (number text, with a parser),
    `Batch` (the commands, with a parser), `Delivery` (the per-controller
    state machine as pure functions), `OneShot` (the shared array and the
    per-controller sessions as objects) and `GpsServer` (the globals and the
    handler).
- **Session controller** (`src/lutron.js`). A long-lived telnet session
  driven by messages from a parent process.
  - Its module globals are the fields of `Lutron.LutronSession`. Its
    callbacks are methods. The heartbeat interval and the reconnect timeout
    are flags. The socket and the parent process are append-only logs.
  - The line splitting and filtering of `parseResponse` is the pure module
    `Lines`.

What the proofs show about the code as written:

- `Delivery.SharedBatchDrainedByFirst` and `OneShot.ReadyConsumesForAll`: every
  controller shares one command array, which `shift()` consumes in place. With
  more than one controller, commands that one connection sends are gone for
  the others. A connection that finds the array already empty sends
  `undefined` on `ready`. Its first acknowledgement then resolves `true`,
  although none of the batch reached that controller. The configuration lists
  a single controller, so this does not show today.
- `Lutron.TimeoutReconnectNeverDials` and `ProcessCommand`'s contract: the
  reconnect timer and the parent's `connect\n` message both call `connect`
  with no arguments. That only replaces the client object and never opens a
  connection. Only a caller of the exported `connect(ipAddress, port)` can open
  one.
- `isAlive` is an implicit global that is first assigned by `startHearbeat`
  or at the end of `parseResponse`. Reading it earlier throws a
  `ReferenceError`. The model keeps it as `Option<bool>`, with `None` for
  "never assigned". For forwarding, `None` behaves like `false`. A response
  that holds a reply line before the first assignment stops `parseResponse`
  before it sets `isAlive`, so nothing changes. A response with no reply line
  runs to the end and sets `isAlive` to `true`.

Behaviour of the code worth knowing:

- A failed login or a connection error in `syncLutron` only logs. The result
  is `false` only when the deadline fires.
- If the k-th acknowledgement never arrives, k commands were sent, because
  `ready` sends the first one.
- The UTC offset is sent in hours (`utcOffset() / 60`).
- Nothing prevents a second resync from starting while one is outstanding.

## Model

| member | source | states |
|---|---|---|
| Position.ValidateRecord | src/index.js:28-34 | a record is accepted exactly when its status field equals "A"; every other value is rejected |
| Position.InitialLastSynced | src/index.js:26 | the initial last-sync time lies before startup |
| Position.HasDeviated | src/index.js:36-47 | a deviation is a distance strictly greater than the allowance (its properties are DeviationIsStrict and DeviationMonotone) |
| Position.HasCoordinatesExpired | src/index.js:49-55 | the last sync is expired when it lies strictly before now minus one day (its properties are ExpiryMonotone and InitialSyncExpired) |
| Position.ShouldResync | src/index.js:138 | a resync starts iff the fix is valid and its distance exceeds 160934 m or the last sync is before now minus 86400000 ms; an invalid fix never resyncs |
| Position.DeviationIsStrict | src/index.js:36-47 | a distance equal to the 160934 m allowance is no deviation; one metre more is |
| Position.DeviationMonotone | src/index.js:36-47 | a larger distance than a deviating one also deviates |
| Position.ExpiryMonotone | src/index.js:49-55 | an expired sync stays expired as time goes on |
| Position.InitialSyncExpired | src/index.js:24-26 | the initial last-sync time is expired at exactly the checks strictly after startup |
| Position.FirstValidFixResyncs | src/index.js:125-138 | the first valid fix after startup starts a resync whatever its distance |
| Position.NearAndFreshSkips | src/index.js:138 | a fix within the allowance of a sync less than a day old starts no resync |
| Decimal.NatText | src/index.js:143 | the decimal text of a number is non-empty digits with no leading zero |
| Decimal.ParseNatText | src/index.js:143 | reading back the decimal text of a number gives the number |
| Decimal.HoursText | src/index.js:132 | the offset text is non-empty and starts with a minus sign exactly when the offset is negative; HoursRoundTrip shows it names the offset exactly |
| Decimal.HoursRoundTrip | src/index.js:132 | the offset text (minutes / 60, with .25/.5/.75 fractions) reads back to the offset in minutes |
| Decimal.WholeHoursText | src/index.js:132 | a whole number of hours is rendered as that signed integer |
| Batch.ParseSystemCommandOf | src/index.js:141-145 | a `#SYSTEM,code,payload\r` line parses back to its code and payload |
| Batch.BuildBatch | src/index.js:141-145 | the batch is exactly four lines ending in CR with codes 4, 5, 2, 1 in that order, carrying lat,lon, the offset in hours, the date and the time |
| Batch.OffsetCommandInHours | src/index.js:132 | an offset of -300 minutes is sent as `#SYSTEM,5,-5` |
| Batch.OffsetCommandRoundTrip | src/index.js:143 | the offset read back from the second command is the zone's offset |
| Delivery.Resolve | src/index.js:99 | a promise once settled keeps its value; an unsettled one takes the value given |
| Delivery.Front | src/index.js:90 | `shift()` yields undefined exactly on an empty array, and otherwise the element that, put back in front of the rest, restores the array |
| Delivery.Rest | src/index.js:90 | `shift()` leaves the array's suffix one element shorter, or the empty array unchanged |
| Delivery.Step | src/index.js:87-116 | one ready, data or deadline event only appends to what was sent, at most one command, and never changes a settled result (the run lemmas below give the exact states) |
| Delivery.RunAppend | src/index.js:87-116 | running two event sequences one after the other is running their concatenation |
| Delivery.DeliveryInProgress | src/index.js:87-101 | after ready and k < N acknowledgements the first k+1 commands were sent in order, the rest are queued and nothing is resolved |
| Delivery.DeliveryCompletes | src/index.js:87-101 | with N ≥ 1 commands, ready plus N acknowledgements gives exactly N sends in order, one end of the client and the result true |
| Delivery.DeadlineBeforeDrain | src/index.js:111-116 | the deadline after ready and k < N acknowledgements resolves false after k+1 sends |
| Delivery.DeadlineAfterSyncInert | src/index.js:111-116 | once the batch is drained the deadline changes nothing |
| Delivery.FirstResolutionWins | src/index.js:93-116 | no event after the first resolution changes the result |
| Delivery.LateAcksAfterDeadline | src/index.js:93-116 | acknowledgements arriving after the deadline keep the result false |
| Delivery.SharedBatchDrainedByFirst | src/index.js:147 | with the array shared, a second connection after the first drained it sends undefined and still resolves true |
| OneShot.CommandQueue.constructor | src/index.js:141-145 | the array holds the batch |
| OneShot.CommandQueue.Shift | src/index.js:90 | shift removes and returns the front element, or returns undefined on an empty array |
| OneShot.SyncSession.constructor | src/index.js:57-72 | a new connection has sent nothing, is not synced and is unresolved |
| OneShot.SyncSession.OnReady | src/index.js:87-91 | on ready the front of the shared array is sent; the state follows the delivery step |
| OneShot.SyncSession.OnData | src/index.js:93-101 | on data the next command is sent, or with the array empty the client is ended, synced is set and true resolves unless already resolved |
| OneShot.SyncSession.OnDeadline | src/index.js:111-116 | the deadline ends the client and resolves false unless synced; when synced it changes nothing |
| OneShot.StartSync | src/index.js:147 | one fresh, distinct session per server, all holding the same array object |
| OneShot.ReadyConsumesForAll | src/index.js:90 | a command sent by one session is removed from the array every other session sees |
| GpsServer.AllTrue | src/index.js:149 | the aggregate holds iff every per-server result is true |
| GpsServer.Tracker.constructor | src/index.js:24-26 | the synced position starts at 0, 0 and is expired at every moment after startup |
| GpsServer.Tracker.OnMessage | src/index.js:125-146 | a batch is produced iff the fix is valid and deviates or the sync expired, and it is the four-command batch of the fix |
| GpsServer.Tracker.OnSyncSettled | src/index.js:147-157 | synced latitude, longitude and time are replaced only when all results are true, otherwise all three are unchanged |
| GpsServer.RepeatedSyncIdempotent | src/index.js:149-152 | a second successful sync of the same position leaves the same synced position |
| Lines.SplitLines | src/lutron.js:46 | `split('\r\n')` gives at least one piece; SplitLinesPieces and JoinSplit pin the pieces exactly |
| Lines.SplitLinesPieces | src/lutron.js:46 | no piece of the split holds CR LF, and the first piece is a prefix of the response |
| Lines.JoinSplit | src/lutron.js:46 | joining the pieces with CR LF gives the response back |
| Lines.SplitWithoutCrlf | src/lutron.js:46 | a text without CR LF is a single piece |
| Lines.Replies | src/lutron.js:47-51 | the filter keeps no more lines than it gets; RepliesExactly and RepliesAppend make it the in-order filter of reply lines |
| Lines.RepliesExactly | src/lutron.js:47-51 | every forwarded string is a line of the input that is non-empty and not the exact prompt `QNET> `, and every such line is forwarded |
| Lines.Forwarded | src/lutron.js:46-51 | the forwarded lines of a response are the reply lines of its CR LF split, in order (SplitLinesPieces, JoinSplit, RepliesExactly, RepliesAppend; PromptForwardsNothing for the prompt) |
| Lines.RepliesAppend | src/lutron.js:47-51 | the forwarded lines of a concatenation are those of each part, in order |
| Lines.PromptForwardsNothing | src/lutron.js:48 | a bare prompt, or a blank line and a prompt, forward nothing |
| Lutron.LutronSession.constructor | src/lutron.js:3-10 | at load there is no client, no timer, nothing sent and isAlive unassigned |
| Lutron.LutronSession.SendToSocket | src/lutron.js:57-71 | the message with CR appended is sent when a client exists; without one nothing changes |
| Lutron.LutronSession.Connect | src/lutron.js:73-121 | connect always makes a new client and opens a connection only when address and port are both given |
| Lutron.LutronSession.Close | src/lutron.js:123-133 | with a client, close cancels the reconnect, sets doNotReconnect and ends the client; without one it changes nothing |
| Lutron.LutronSession.ProcessCommand | src/lutron.js:28-40 | exactly `connect\n` calls connect with no arguments (no connection opened), exactly `close\n` closes, anything else is sent with CR appended |
| Lutron.LutronSession.ConnectEventHandler | src/lutron.js:137-143 | ready reports `catch-service-connected`, clears retrying, cancels the reconnect, sets isAlive and starts the heartbeat |
| Lutron.LutronSession.StartHeartbeat | src/lutron.js:145-148 | the heartbeat starts with isAlive true |
| Lutron.LutronSession.ParseResponse | src/lutron.js:44-53 | the response's replies are forwarded in order only if isAlive was true on entry, and isAlive is true afterwards; with isAlive unassigned and a reply present nothing changes |
| Lutron.LutronSession.CheckHeartbeat | src/lutron.js:150-159 | a live session is marked not alive and probed with `gettime`; a silent one gets doNotReconnect false and its client destroyed |
| Lutron.LutronSession.FailedLoginEventHandler | src/lutron.js:161-166 | a failed login is reported, forbids reconnecting and destroys the client |
| Lutron.LutronSession.TimeoutEventHandler | src/lutron.js:168-172 | a timeout permits reconnecting and destroys the client |
| Lutron.LutronSession.ErrorEventHandler | src/lutron.js:174-178 | a connection error permits reconnecting and destroys the client |
| Lutron.LutronSession.CloseEventHandler | src/lutron.js:180-196 | the close event cancels both timers, reports `catch-service-disconnected`, schedules one reconnect iff doNotReconnect is false, and sets retrying only if it was false |
| Lutron.LutronSession.ReconnectTimerFires | src/lutron.js:194 | the reconnect calls connect without arguments: a new client and no connection |
| Lutron.TwoSilentTicks | src/lutron.js:150-159 | two ticks with no data between send one probe and then destroy the client |
| Lutron.TickReplyTick | src/lutron.js:44-53 | a reply between two ticks keeps the client: two probes and no destroy |
| Lutron.ExplicitCloseNeverReconnects | src/lutron.js:123-133 | close followed by the close event leaves no reconnect scheduled |
| Lutron.FailedLoginNeverReconnects | src/lutron.js:161-166 | a failed login followed by the close event schedules no reconnect |
| Lutron.TimeoutReconnectNeverDials | src/lutron.js:194 | after a timeout one reconnect is scheduled, and when it fires no connection is opened |

## Left out

- The UDP socket, its binding and the `listening` log. These are I/O.
- Parsing of the position sentence is not modelled: a `Position.Fix` carries
  the status and the one-decimal latitude and longitude texts as inputs.
- geolib's great-circle distance is not computed. It is an input in whole
  metres.
- The geo-tz time-zone lookup and dayjs formatting are foreign calls. The UTC
  offset in minutes, the date text and the time text are inputs. Only the
  division by 60 and its rendering are modelled.
- Batch.BuildBatch: requires the offset to be a whole number of quarter hours.
  Every current time zone meets this. The JavaScript text of other fractions
  of an hour is not modelled.
- GpsServer.Tracker.OnMessage: carries the same quarter-hour requirement,
  because it builds the batch.
- Position.HasCoordinatesExpired: one day is taken as 86400000 ms. dayjs
  subtracts a calendar day in local time, which is 23 or 25 hours across a
  daylight-saving change.
- Position.ValidateRecord: the status is compared as a string. JavaScript's
  loose `==` against values of other types is not modelled.
- `syncedLatitude` and `syncedLongitude` start as the number 0 and later hold
  strings. The model keeps them as the text "0".
- telnet-client internals are not modelled: negotiation, login and password
  prompt matching, and what `send`, `end` and `destroy` do to the socket. The
  library's events are method calls, and `end` and `destroy` are logged.
- The `failedlogin`, `connect`, `timeout` and `close` listeners of
  `syncLutron`, and its `connect(...).catch`, only log. They change no state,
  so they have no methods.
- Real timers and `Promise.all` concurrency are not modelled. Timers are flags
  and explicit tick or deadline methods. The per-server results reach
  `OnSyncSettled` as a sequence. Interleavings of the servers' events are
  shown only for the shared array.
- Lutron.LutronSession.ParseResponse: an escaping `ReferenceError` is modelled
  as the handler stopping with nothing changed. What the host process then
  does with the uncaught exception is not modelled.
- Lutron.LutronSession.StartHeartbeat: the heartbeat is one flag. If a second
  `ready` arrives without a close in between, the first interval leaks; the
  model does not capture that.
- `log` is not declared anywhere in `src/lutron.js`, so each `log(...)` call
  there would throw a `ReferenceError` before the handler changes anything.
  The model assumes the host supplies `log` and treats every call as
  harmless output.
- Logging, `process.on('message')` and `process.send` are not modelled beyond
  their effect: messages become `ProcessCommand` calls and sent messages
  become the `responses` log.
- dotenv loading and the `LUTRON_SERVERS` literal, including its duplicated
  `user` key that leaves the password undefined, are configuration.
- The hard-coded login and password of the session controller only feed the
  telnet-client options. They are not modelled.
