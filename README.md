# FreeMDU GUI: worker and application state

FreeMDU's desktop GUI talks to a Miele appliance over a serial port. It uses two threads.

- **The worker thread** (`gui/src/worker.rs`) opens the port and performs the handshake. It then serves the GUI's commands until it is told to disconnect or its command channel closes. The commands are: query one category of properties, trigger an action with an optional parameter, and disconnect.
- **The GUI** (`gui/src/app.rs`) holds everything else:
  - the port list and the connection state;
  - a per-category property cache with timestamps;
  - the staged action parameters (enumeration choices, and flag sets joined by `" | "`);
  - a status line;
  - an auto-refresh scheduler. It polls at most once per 500 ms and asks for the first due category in the order I/O (500 ms), operation (1 s), failure (5 s), general (30 s).

The model is split into these modules:

- `Device`: the parts of the `freemdu` crate the GUI uses, as plain values.
- `Messages`: the worker's message types, and the conversions `From<&Value>` and `ActionInfo::from_action`.
- `Format`: `format_value`, together with decimal rendering and its read-back.
- `Staging`: parameter staging.
- `Store`: `PropertyStorage` and the polling schedule.
- `Worker`: `run_worker`.
  - Its loops are methods, proved against recursive specification functions.
  - The appliance is an oracle. It gives each query or trigger in a given round a value, an error or a timeout.
  - The command channel is a finite sequence of 50 ms polls.
- `Handle`: `WorkerHandle`, as a class over its channel state. The class is the corrected handle of the first finding below; `try_recv` as written is modelled beside it as a function.
- `App`: `FreeMduApp`, as a class whose methods update its fields. The effect of the worker's responses is also stated as a pure reducer.

Time is a natural number of milliseconds. It is passed in as `now`. `Instant::duration_since` saturates at zero.

## Model

| member | source | states |
|---|---|---|
| Messages.FromValue | gui/src/worker.rs:43-53 | every device value becomes the display value of the same variant |
| Messages.ValueConversionRoundTrip | gui/src/worker.rs:43-53 | the conversion loses nothing: converting back gives the original value, in both directions |
| Messages.FromParameters | gui/src/app.rs:590-597 | enumeration options and flags are copied as the same lists, and the variant is kept |
| Messages.FromAction | gui/src/app.rs:588-605 | id and name are copied; parameters are present exactly when the device's action has them, and are converted |
| Messages.FromActions | gui/src/worker.rs:151-155 | the announced action list has the device's actions, one for one, in order |
| Format.Decimal | gui/src/app.rs:541 | `to_string` of a number is a canonical decimal (digits only, no leading zero except "0") |
| Format.DecimalRoundTrip | gui/src/app.rs:541 | reading the decimal text back gives the number |
| Format.CanonicalRoundTrip | gui/src/app.rs:541 | every canonical decimal is the rendering of exactly one number |
| Format.SplitDuration | gui/src/app.rs:550-555 | the hours and minutes shown are the whole hours and the remaining whole minutes, m < 60, h·3600 + m·60 <= secs < that + 60 |
| Format.SplitDurationUnique | gui/src/app.rs:550-555 | any (h, m) with m < 60 that brackets the seconds that way is the one shown |
| Format.ValueText | gui/src/app.rs:533-556 | the text of a value is never empty |
| Format.FormatValue | gui/src/app.rs:532-563 | the displayed text is never empty |
| Format.ReadNumberThenDecimal | gui/src/app.rs:541-542 | a rendered number followed by a non-digit separator reads back as that number and the rest |
| Format.FormatValueReadsBack | gui/src/app.rs:532-563 | a unit is appended after one space; Yes/No for booleans; a number reads back to itself; a sensor cell parses back to its two numbers; "-" for the empty string; a duration cell parses back to the whole hours and minutes of SplitDuration |
| Staging.Split | gui/src/app.rs:505-507 | splitting on the separator yields at least one segment |
| Staging.Without | gui/src/app.rs:507-508 | the filter removes every segment equal to the flag and keeps every other one |
| Staging.WithoutSingle | gui/src/app.rs:507 | one segment is kept exactly when it differs from the flag |
| Staging.WithoutConcat | gui/src/app.rs:505-509 | the filter works segment by segment, so the kept segments keep their order and repetitions |
| Staging.SplitJoin | gui/src/app.rs:505-509 | joining the split pieces gives the string back |
| Staging.JoinSplit | gui/src/app.rs:505-509 | splitting a join of one or more segments that contain no bar character gives the segments back |
| Staging.CheckAppends | gui/src/app.rs:498-502 | checking a flag appends it to the staged flags (no separator on an empty string) and keeps the string well formed |
| Staging.UncheckRemoves | gui/src/app.rs:503-510 | unchecking a flag removes every occurrence of it from the staged flags and keeps the rest, well formed |
| Staging.UncheckUndoesCheck | gui/src/app.rs:497-510 | unchecking a flag just checked restores the previous string |
| Staging.ClickAsWrittenCannotStagePrefix | gui/src/app.rs:495-510 | with flags "A" and "AB" and "AB" staged, the box of "A" shows as ticked and a click leaves "AB" unchanged |
| Staging.ClickToggles | gui/src/app.rs:495-510 | with the box state read as segment membership, a click flips the clicked flag, leaves every other flag's state alone and keeps the string well formed |
| Staging.EnumerationDefault | gui/src/app.rs:476-479 | the default choice is one of the options when there are any |
| Staging.WithDefault | gui/src/app.rs:476-491 | `entry().or_insert`: an existing choice is kept, a missing one gets the default, and every other action's input is untouched |
| Store.PropertyStorage.With | gui/src/app.rs:36-43 | writing through `get_mut` replaces the one category's entry and leaves the other three untouched |
| Store.PropertyStorage.Stale | gui/src/app.rs:338-346 | "Refresh All" forgets every timestamp and keeps every cached list |
| Store.Cleared | gui/src/app.rs:45-50 | `clear` and the default leave every category with no rows and no timestamp |
| Store.FirstDueFrom | gui/src/app.rs:203-211 | the position found is due and no earlier position is; if none is found, none is due |
| Store.FirstDue | gui/src/app.rs:195-211 | a category is requested exactly when some category is due |
| Store.FirstDuePriority | gui/src/app.rs:195-211 | I/O if due, else operation, else failure, else general, else nothing; intervals 500, 1000, 5000 and 30000 ms |
| Store.RefreshAllRequestsIo | gui/src/app.rs:339-344 | after "Refresh All" every category is due and I/O is asked for next |
| Worker.Kept | gui/src/worker.rs:172-190 | the kept positions are increasing and are exactly the properties of the category whose query succeeded |
| Worker.CollectIsKept | gui/src/worker.rs:170-192 | a batch is the in-order rows of the kept properties; a failed or timed-out query drops only that property |
| Worker.CollectAllOk | gui/src/worker.rs:172-182 | when every query succeeds, the batch has one row per property of the category, each present |
| Worker.FindAction | gui/src/worker.rs:196 | the first action with the id, or none when no action has it |
| Worker.ServeIgnoresRest | gui/src/worker.rs:230-242 | once the loop has ended, later commands change nothing |
| Worker.ServeConsumed | gui/src/worker.rs:166-243 | polls are consumed one at a time; the loop ends only on a Disconnect command or a closed channel |
| Worker.ServeStep | gui/src/worker.rs:168-242 | per poll: a query gets one Properties for its category; a known action gets one ActionResult ("Success", the error text, or "Timeout") with its parameter passed to the device as a string; an unknown id gets nothing; Disconnect gets Disconnected and stops; a quiet poll does nothing; a closed channel stops silently |
| Worker.OneResponsePerCommand | gui/src/worker.rs:166-243 | the number of responses is exactly the number of served commands that draw one |
| Worker.ServeInOrder | gui/src/worker.rs:166-243 | responses come in command order: earlier responses are a prefix of later ones |
| Worker.ServeShape | gui/src/worker.rs:166-243 | the loop never sends Connected or Error, and sends Disconnected only as its last response |
| Worker.StepShape | gui/src/worker.rs:168-242 | one poll draws at most one response, and Disconnected only when it stops the loop |
| Worker.StartupOutcome | gui/src/worker.rs:109-156 | a failed runtime, port or handshake sends exactly one Error with its message and ends the worker; a handshake timeout gives "Connection timeout"; otherwise Connected comes first and never again |
| Worker.CollectProperties | gui/src/worker.rs:170-192 | the query loop builds exactly the specified batch |
| Worker.ServeCommands | gui/src/worker.rs:166-244 | the command loop sends the specified responses, consumes the specified polls, and ends when specified |
| Worker.RunWorker | gui/src/worker.rs:109-246 | the whole worker matches its specification (startup, then the loop) |
| Handle.TryRecvAsWritten | gui/src/worker.rs:92-98 | nothing only when the channel is empty and open; queued messages in order; a synthesized Disconnected on every call once the channel is closed |
| Handle.DrainAsWrittenNeverExits | gui/src/app.rs:131-138 | once the worker is gone, the `while let` drain collects a response on every iteration and never exits |
| Handle.PortFailureHangsTheDrain | gui/src/worker.rs:126-131 | a worker that cannot open its port leaves the GUI's drain spinning |
| Handle.ReceiveStep | gui/src/app.rs:134-136 | with try_recv corrected, each receive either ends the drain with nothing left to return or yields the next response of the drain's result |
| Handle.DrainAfterHangupIsEmpty | gui/src/worker.rs:92-98 | with try_recv corrected, once the worker is gone the drain after one that handed out its Error or Disconnected yields nothing |
| Handle.ConsumerSeesOneTerminal | gui/src/worker.rs:92-98 | with try_recv corrected, a finished worker is seen to end with exactly one Error or Disconnected, as its last response |
| Handle.WorkerHandle.constructor | gui/src/worker.rs:72-86 | new channels: nothing sent, queued or closed |
| Handle.WorkerHandle.Send | gui/src/worker.rs:88-90 | the command is appended to those sent |
| Handle.WorkerHandle.Drop | gui/src/worker.rs:101-105 | dropping the handle sends one Disconnect |
| Handle.WorkerHandle.Deliver | gui/src/worker.rs:192 | a worker's send appends to the queue |
| Handle.WorkerHandle.WorkerExits | gui/src/worker.rs:230-246 | the worker's return closes the response channel |
| Handle.WorkerHandle.TryRecv | gui/src/worker.rs:92-98 | corrected: the head of the queue if there is one; otherwise Disconnected once when the channel is closed and no Error or Disconnected was handed out; otherwise nothing |
| Handle.WorkerHandle.Drain | gui/src/app.rs:131-138 | the drain ends and returns everything queued, in order, plus at most one synthesized Disconnected |
| App.Reduce | gui/src/app.rs:140-171 | only Properties touches the cache, replacing just its category with a fresh timestamp; ActionResult only sets the status, an error when it failed; Connected, Error and Disconnected set the state; only Disconnected drops the handle |
| App.ReduceAllEntry | gui/src/app.rs:149-153 | after a batch, a category holds the rows of the last Properties response for it, or what it held before |
| App.ReduceAllConnection | gui/src/app.rs:140-171 | after a batch, the connection state is the one set by the last Connected, Error or Disconnected response |
| App.ReduceAllAttached | gui/src/app.rs:165-169 | the handle survives a batch exactly when no Disconnected is in it |
| App.FinishedWorkerLeavesTerminalState | gui/src/app.rs:129-171 | with try_recv corrected, after processing everything a finished worker produced the state is Error or Disconnected |
| App.ThrottledCallsAreSilent | gui/src/app.rs:189-193 | scheduler calls within 500 ms of the last run send nothing |
| App.AtMostOneQueryPerWindow | gui/src/app.rs:180-211 | any run of scheduler calls spanning under 500 ms sends at most one query |
| App.FreeMduApp.AutoRefreshTwice | gui/src/app.rs:180-212 | two scheduler calls less than 500 ms apart append at most one query to what the handle has sent |
| App.FreeMduApp.constructor | gui/src/app.rs:76-88 | the given ports, port 0, Disconnected, no handle, an empty cache, no inputs or status, auto-refresh on |
| App.FreeMduApp.RefreshPorts | gui/src/app.rs:90-95 | the new list replaces the old; the selection is kept if it is still valid, else it is reset to 0 |
| App.FreeMduApp.SelectPort | gui/src/app.rs:311-313 | the selector sets a valid index |
| App.FreeMduApp.SetStatus | gui/src/app.rs:125-127 | the status is the message, stamped now, with its error flag |
| App.FreeMduApp.SetAutoRefresh | gui/src/app.rs:335 | the checkbox sets auto-refresh |
| App.FreeMduApp.Connect | gui/src/app.rs:97-116 | no ports: an error status and nothing else; success: Connecting, a fresh handle (the old one sends Disconnect) and "Connecting to <port>..."; failure: Error and "Failed to connect: <e>" |
| App.FreeMduApp.Disconnect | gui/src/app.rs:118-123 | the handle is dropped (sending Disconnect), the state is Disconnected, the cache is emptied, and a non-error status is set |
| App.FreeMduApp.ApplyResponses | gui/src/app.rs:140-171 | the fields end as the reducer says; the handle is released, sending one Disconnect, exactly when Disconnected arrives |
| App.FreeMduApp.ProcessWorkerResponses | gui/src/app.rs:129-172 | with try_recv corrected: with no handle nothing changes; otherwise the corrected handle is drained, its queue emptied and its delivered-terminal record updated, and the drained responses are applied in order; the same handle is kept unless a Disconnected was drained; after a frame on a closed channel a handle still held is quiet, and a frame on a quiet handle changes nothing |
| App.FreeMduApp.RequestPropertyUpdate | gui/src/app.rs:174-178 | a query for the category is sent when a handle is held |
| App.FreeMduApp.AutoRefreshProperties | gui/src/app.rs:180-212 | off, not connected or within 500 ms: nothing changes; otherwise the run is recorded and exactly the first due category is requested, or nothing |
| App.FreeMduApp.RefreshAll | gui/src/app.rs:338-346 | while connected, every timestamp is cleared and every cached list is kept |
| App.FreeMduApp.EnsureEnumerationEntry | gui/src/app.rs:476-479 | an enumeration's input is created with its first option (or "") and never overwritten |
| App.FreeMduApp.ChooseOption | gui/src/app.rs:481-487 | picking an option sets that action's input only |
| App.FreeMduApp.EnsureFlagsEntry | gui/src/app.rs:490-491 | a flags action's input is created empty when shown and never overwritten |
| App.FreeMduApp.ClickFlagBox | gui/src/app.rs:490-511 | with the tick test corrected to segment membership: the input is created empty if missing, then the clicked flag is toggled |
| App.FreeMduApp.ExecuteAction | gui/src/app.rs:518-523 | with a handle, the action is sent with its staged input (or none); without one nothing is sent |

## Left out

- Rendering: egui layouts, colours, the spinner, the "just now"/"Ns ago" labels, hiding the status after 10 s and repaint requests. The state each widget changes is kept; what it draws is not.
- `list_serial_ports` and `Instant::now()`. Port lists and the current time are parameters.
- `update` calls `process_worker_responses` and then `auto_refresh_properties` each frame. The model keeps the two operations and not the frame loop.
- Threads, channels, tokio, the 50 ms receive and the 5 s, 1 s and 2 s timeouts. Each is modelled by its outcome: a poll, or an oracle reply of `Timeout`. Interleavings of the GUI and worker threads are not modelled.
- The `freemdu` crate: serial I/O, the handshake and property decoding. Their results are the oracle's answers.
- Logging of failed or timed-out property queries. The property is simply dropped from the batch.
- `Format.FormatValue`: the display of `Duration` uses whole seconds only, so sub-second parts never show.
- App.ConnectedText: `format!` of a device kind (app.rs:143-146) is modelled as the kind's title string. The device library's `Display` is not part of this model.
- `App.FreeMduApp.Connect`: `WorkerHandle::new` returns the handle itself, but `connect` matches `Ok`/`Err` on its result. The model follows the caller: the outcome is a `SpawnResult` parameter.
- `Handle.WorkerHandle.Send`: records every command sent. It does not distinguish a command a worker that has already exited never receives. The source ignores that failure too.
- `main.rs` (window setup) is not part of this model.
- App.FreeMduApp.ProcessWorkerResponses: drains the corrected handle. As written, the drain never ends once the worker thread has returned, so the fold over the responses is never reached (first finding).
- App.FinishedWorkerLeavesTerminalState: holds over the corrected handle only. As written, the GUI spins in the drain instead of reaching Error or Disconnected.
- App.FreeMduApp.ClickFlagBox: decides the tick with the corrected segment test. As written, the substring test makes a click on "A" a no-op while "AB" is staged (second finding).
- App.FreeMduApp.ExecuteAction: the render pass that precedes a click is a separate step. It is EnsureEnumerationEntry or EnsureFlagsEntry, and it gives a shown flags action the input "" and so the parameter `Some("")`. The model does not force that order.
- Staging.CheckAppends, Staging.UncheckRemoves, Staging.UncheckUndoesCheck, Staging.ClickToggles and Staging.JoinSplit assume flag names are non-empty and contain no '|'. The source never checks this; it is an assumption about the flag strings the device library reports. A name containing the separator would be split apart.

## Findings

| source | as written | input that shows it | evidently intended | confidence | as-written member | corrected member |
|---|---|---|---|---|---|---|
| gui/src/worker.rs:92-98 | `try_recv` maps a closed response channel to `Some(Disconnected)` on every call, so the `while let` drain in `process_worker_responses` never ends once the worker thread has returned | the port fails to open: the worker sends `Error("Failed to open port: …")` and returns; on the next frame the drain collects that Error, then Disconnected forever | report the closed channel once, and not at all after an Error or Disconnected, so the drain ends | high; not executed | Handle.DrainAsWrittenNeverExits | Handle.WorkerHandle.Drain |
| gui/src/app.rs:495 | the tick of a flag's checkbox is `current.contains(flag)`, a substring test | flags "AB" and "A" with "AB" staged: "A" shows as ticked, and a click runs the removal, which leaves "AB"; "A" can never be staged | a box is ticked exactly when its flag is one of the separator-delimited segments | medium; not executed | Staging.ClickAsWrittenCannotStagePrefix | Staging.ClickToggles |
