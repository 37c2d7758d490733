/**
 * The GUI's application state (FreeMduApp in gui/src/app.rs): the port list, the connection
 * state, the worker handle, the per-category property cache, the staged action parameters, the
 * status line and the auto-refresh scheduler. Time is a natural number of milliseconds passed in
 * as `now`; rendering is left out, only the state changes made by the widgets are kept.
 */
module App {
  import opened Basics
  import opened Device
  import M = Messages
  import opened Store
  import opened Staging
  import Format
  import H = Handle
  import Worker

  /** The four exclusive connection states. */
  datatype ConnectionState = Disconnected | Connecting | Connected(info: M.DeviceInfo) | Error(message: string)

  /** The status line: its text, when it was set, and whether it reports an error. */
  datatype Status = Status(text: string, at: nat, isError: bool)

  /** What the worker's responses act on: connection state, cache, status line, and whether a handle is held. */
  datatype ViewState = ViewState(connection: ConnectionState, properties: PropertyStorage, status: Option<Status>, attached: bool)

  /** Whether creating the worker handle succeeded. */
  datatype SpawnResult = Spawned | SpawnFailed(cause: string)

  function ConnectedText(info: M.DeviceInfo): string {
    "Connected to " + info.kind.title + " (ID: " + Format.Decimal(info.softwareId) + ")"
  }

  function ActionStatus(name: string, success: bool, message: string, now: nat): Status {
    if success then Status("Action '" + name + "' executed", now, false)
    else Status("Action '" + name + "' failed: " + message, now, true)
  }

  /**
   * One response applied to the view (the body of the for-loop in process_worker_responses).
   * Only Properties touches the cache, and only its own category; only Disconnected drops the handle.
   */
  function Reduce(v: ViewState, r: M.WorkerResponse, now: nat): (v': ViewState)
    ensures !r.Properties? ==> v'.properties == v.properties
    ensures r.Properties? ==> v'.properties.Get(r.kind) == Entry(r.data, Some(now))
    ensures r.Properties? ==> forall k :: k != r.kind ==> v'.properties.Get(k) == v.properties.Get(k)
    ensures r.Properties? ==> v'.connection == v.connection && v'.status == v.status
    ensures r.ActionResult? ==> v'.connection == v.connection && v'.status.Some? && v'.status.value.isError == !r.success
    ensures r.Connected? ==> v'.connection == Connected(r.info) && v'.status.Some? && !v'.status.value.isError
    ensures r.Error? ==> v'.connection == Error(r.reason) && v'.status.Some? && v'.status.value.isError
    ensures r.Disconnected? ==> v'.connection == Disconnected && v'.status.Some? && v'.status.value.isError
    ensures v'.attached == (v.attached && !r.Disconnected?)
  {
    match r
    case Connected(info) => v.(connection := Connected(info), status := Some(Status(ConnectedText(info), now, false)))
    case Properties(kind, data) => v.(properties := v.properties.With(kind, Entry(data, Some(now))))
    case ActionResult(name, success, message) => v.(status := Some(ActionStatus(name, success, message, now)))
    case Error(e) => v.(connection := Error(e), status := Some(Status("Error: " + e, now, true)))
    case Disconnected => v.(connection := Disconnected, attached := false, status := Some(Status("Device disconnected", now, true)))
  }

  /** A batch of responses applied in order. */
  function ReduceAll(v: ViewState, rs: seq<M.WorkerResponse>, now: nat): ViewState {
    if rs == [] then v else Reduce(ReduceAll(v, rs[..|rs| - 1], now), rs[|rs| - 1], now)
  }

  /** The rows of the last Properties response for `kind` in a batch, if there is one. */
  function LastBatch(rs: seq<M.WorkerResponse>, kind: PropertyKind): Option<seq<M.PropertyData>> {
    if rs == [] then None
    else if rs[|rs| - 1].Properties? && rs[|rs| - 1].kind == kind then Some(rs[|rs| - 1].data)
    else LastBatch(rs[..|rs| - 1], kind)
  }

  /**
   * After a batch, a category holds exactly the rows of the last Properties response for it,
   * stamped `now`, or what it held before when the batch has none: replacement is wholesale.
   */
  lemma {:induction false} ReduceAllEntry(v: ViewState, rs: seq<M.WorkerResponse>, now: nat, kind: PropertyKind)
    ensures ReduceAll(v, rs, now).properties.Get(kind) ==
      match LastBatch(rs, kind)
      case None => v.properties.Get(kind)
      case Some(data) => Entry(data, Some(now))
  {
    if rs != [] {
      ReduceAllEntry(v, rs[..|rs| - 1], now, kind);
    }
  }

  /** The connection state a response sets, if it sets one. */
  function StateSet(r: M.WorkerResponse): Option<ConnectionState> {
    match r
    case Connected(info) => Some(Connected(info))
    case Error(e) => Some(Error(e))
    case Disconnected => Some(Disconnected)
    case _ => None
  }

  /** The state set by the last state-setting response of a batch, if any. */
  function LastStateSet(rs: seq<M.WorkerResponse>): Option<ConnectionState> {
    if rs == [] then None
    else if StateSet(rs[|rs| - 1]).Some? then StateSet(rs[|rs| - 1])
    else LastStateSet(rs[..|rs| - 1])
  }

  /** After a batch, the connection state is the one set last (Connected, Error or Disconnected), or the old one. */
  lemma {:induction false} ReduceAllConnection(v: ViewState, rs: seq<M.WorkerResponse>, now: nat)
    ensures ReduceAll(v, rs, now).connection ==
      match LastStateSet(rs)
      case None => v.connection
      case Some(s) => s
  {
    if rs != [] {
      ReduceAllConnection(v, rs[..|rs| - 1], now);
    }
  }

  /** After a batch, the handle is still held exactly when it was and no Disconnected arrived. */
  lemma {:induction false} ReduceAllAttached(v: ViewState, rs: seq<M.WorkerResponse>, now: nat)
    ensures ReduceAll(v, rs, now).attached == (v.attached && M.Disconnected !in rs)
  {
    if rs != [] {
      var prefix := rs[..|rs| - 1];
      ReduceAllAttached(v, prefix, now);
      assert rs == prefix + [rs[|rs| - 1]];
    }
  }

  /**
   * Once a worker has finished, however it finished, processing everything its handle yields
   * leaves the application in Error or Disconnected: never stuck in Connecting or Connected.
   */
  lemma FinishedWorkerLeavesTerminalState(v: ViewState, startup: Worker.Startup, oracle: Worker.Oracle, polls: seq<Worker.Poll>, now: nat)
    requires Worker.Run(startup, oracle, polls).finished
    ensures var after := ReduceAll(v, H.DrainResult(Worker.Run(startup, oracle, polls).responses, true, false), now);
      after.connection.Error? || after.connection.Disconnected?
  {
    var rs := H.DrainResult(Worker.Run(startup, oracle, polls).responses, true, false);
    H.ConsumerSeesOneTerminal(startup, oracle, polls);
    ReduceAllConnection(v, rs, now);
    assert StateSet(rs[|rs| - 1]).Some?;
  }

  /** Whether auto_refresh_properties gets past its three early returns. */
  predicate ShouldPoll(autoRefresh: bool, state: ConnectionState, last: nat, now: nat) {
    autoRefresh && state.Connected? && Elapsed(now, last) >= 500
  }

  /** The command a scheduling decision sends. */
  function Requested(choice: Option<PropertyKind>): seq<M.WorkerCommand> {
    match choice
    case None => []
    case Some(k) => [M.QueryProperties(k)]
  }

  /** One call of the scheduler, with what it reads of the application at that moment. */
  datatype Tick = Tick(now: nat, autoRefresh: bool, connection: ConnectionState, properties: PropertyStorage)

  /** How many queries a run of scheduler calls sends, starting from the given last_refresh. */
  function QueriesSent(last: nat, ticks: seq<Tick>): nat
    decreases |ticks|
  {
    if ticks == [] then 0
    else
      var t := ticks[0];
      if ShouldPoll(t.autoRefresh, t.connection, last, t.now) then
        (if FirstDue(t.properties, t.now).Some? then 1 else 0) + QueriesSent(t.now, ticks[1..])
      else QueriesSent(last, ticks[1..])
  }

  /** Calls within 500 ms after a run of the scheduler send nothing. */
  lemma {:induction false} ThrottledCallsAreSilent(last: nat, ticks: seq<Tick>)
    requires forall i :: 0 <= i < |ticks| ==> last <= ticks[i].now < last + 500
    ensures QueriesSent(last, ticks) == 0
  {
    if ticks != [] {
      ThrottledCallsAreSilent(last, ticks[1..]);
    }
  }

  /** Any run of scheduler calls spanning less than 500 ms sends at most one query. */
  lemma {:induction false} AtMostOneQueryPerWindow(last: nat, ticks: seq<Tick>)
    requires forall i, j :: 0 <= i <= j < |ticks| ==> ticks[i].now <= ticks[j].now
    requires |ticks| > 0 ==> ticks[|ticks| - 1].now < ticks[0].now + 500
    ensures QueriesSent(last, ticks) <= 1
  {
    if ticks != [] {
      var t := ticks[0];
      var rest := ticks[1..];
      if ShouldPoll(t.autoRefresh, t.connection, last, t.now) {
        ThrottledCallsAreSilent(t.now, rest);
      } else {
        AtMostOneQueryPerWindow(last, rest);
      }
    }
  }

  /** The application. */
  class FreeMduApp {
    var availablePorts: seq<string>
    var selectedPort: nat
    var connectionState: ConnectionState
    var worker: H.WorkerHandle?
    var properties: PropertyStorage
    var actionInputs: map<string, string>
    var statusMessage: Option<Status>
    var autoRefresh: bool
    var lastRefresh: nat

    /** The selected port is a valid index, or 0 when there are no ports. */
    ghost predicate Valid()
      reads this
    {
      selectedPort == 0 || selectedPort < |availablePorts|
    }

    /** The part of the state the worker's responses act on. */
    function View(): ViewState
      reads this
    {
      ViewState(connectionState, properties, statusMessage, worker != null)
    }

    /** FreeMduApp::new, with the port list it enumerates and the current time passed in. */
    constructor (ports: seq<string>, now: nat)
      ensures Valid()
      ensures availablePorts == ports && selectedPort == 0 && connectionState == Disconnected && worker == null
      ensures properties == Cleared() && actionInputs == map[] && statusMessage == None
      ensures autoRefresh && lastRefresh == now
    {
      availablePorts, selectedPort := ports, 0;
      connectionState, worker := Disconnected, null;
      properties, actionInputs, statusMessage := Cleared(), map[], None;
      autoRefresh, lastRefresh := true, now;
    }

    /** refresh_ports, with the freshly enumerated port list passed in. */
    method RefreshPorts(ports: seq<string>)
      modifies this`availablePorts, this`selectedPort
      ensures availablePorts == ports
      ensures selectedPort == if old(selectedPort) < |ports| then old(selectedPort) else 0
      ensures Valid()
    {
      availablePorts := ports;
      if selectedPort >= |availablePorts| {
        selectedPort := 0;
      }
    }

    /** Picking a port in the port selector, which offers the listed ports only. */
    method SelectPort(i: nat)
      requires i < |availablePorts|
      modifies this`selectedPort
      ensures selectedPort == i && Valid()
    {
      selectedPort := i;
    }

    /** set_status. */
    method SetStatus(text: string, isError: bool, now: nat)
      modifies this`statusMessage
      ensures statusMessage == Some(Status(text, now, isError))
    {
      statusMessage := Some(Status(text, now, isError));
    }

    /** The "Auto-refresh" checkbox. */
    method SetAutoRefresh(on: bool)
      modifies this`autoRefresh
      ensures autoRefresh == on
    {
      autoRefresh := on;
    }

    /**
     * connect: with no ports only the status changes; otherwise the state becomes Connecting and
     * a new handle replaces the old one (which, dropped, sends Disconnect), or on failure the state
     * becomes Error and the old handle stays.
     */
    method Connect(spawn: SpawnResult, now: nat)
      requires Valid()
      modifies this`connectionState, this`worker, this`statusMessage, (if worker != null then {worker} else {})`sent
      ensures Valid()
      ensures availablePorts == [] ==>
        && connectionState == old(connectionState) && worker == old(worker)
        && statusMessage == Some(Status("No serial ports available", now, true))
        && (worker != null ==> worker.sent == old(worker.sent))
      ensures availablePorts != [] && spawn.Spawned? ==>
        && connectionState == Connecting
        && worker != null && fresh(worker)
        && worker.sent == [] && worker.queued == [] && !worker.senderGone && !worker.terminalSeen
        && statusMessage == Some(Status("Connecting to " + availablePorts[selectedPort] + "...", now, false))
        && (old(worker) != null ==> old(worker).sent == old(worker.sent) + [M.Disconnect])
      ensures availablePorts != [] && spawn.SpawnFailed? ==>
        && connectionState == Error(spawn.cause) && worker == old(worker)
        && statusMessage == Some(Status("Failed to connect: " + spawn.cause, now, true))
        && (worker != null ==> worker.sent == old(worker.sent))
    {
      if availablePorts == [] {
        SetStatus("No serial ports available", true, now);
        return;
      }
      var portName := availablePorts[selectedPort];
      connectionState := Connecting;
      match spawn {
      case Spawned =>
        var handle := new H.WorkerHandle();
        if worker != null {
          worker.Drop();
        }
        worker := handle;
        SetStatus("Connecting to " + portName + "...", false, now);
      case SpawnFailed(e) =>
        connectionState := Error(e);
        SetStatus("Failed to connect: " + e, true, now);
      }
    }

    /** disconnect: the handle is dropped (sending Disconnect), the cache emptied, the state Disconnected. */
    method Disconnect(now: nat)
      modifies this`worker, this`connectionState, this`properties, this`statusMessage, (if worker != null then {worker} else {})`sent
      ensures worker == null && connectionState == Disconnected
      ensures forall k :: properties.Get(k) == Entry([], None)
      ensures statusMessage == Some(Status("Disconnected", now, false))
      ensures old(worker) != null ==> old(worker).sent == old(worker.sent) + [M.Disconnect]
    {
      if worker != null {
        worker.Drop();
      }
      worker := null;
      connectionState := Disconnected;
      properties := Cleared();
      SetStatus("Disconnected", false, now);
    }

    /** The for-loop of process_worker_responses over the drained responses. */
    method ApplyResponses(rs: seq<M.WorkerResponse>, now: nat)
      modifies this`connectionState, this`worker, this`properties, this`statusMessage, (if worker != null then {worker} else {})`sent
      ensures View() == ReduceAll(old(View()), rs, now)
      ensures worker == if M.Disconnected in rs then null else old(worker)
      ensures old(worker) != null ==> old(worker).sent == old(worker.sent) + (if M.Disconnected in rs then [M.Disconnect] else [])
    {
      for i := 0 to |rs|
        invariant View() == ReduceAll(old(View()), rs[..i], now)
        invariant worker == if M.Disconnected in rs[..i] then null else old(worker)
        invariant old(worker) != null ==> old(worker).sent == old(worker.sent) + (if M.Disconnected in rs[..i] then [M.Disconnect] else [])
      {
        match rs[i] {
        case Connected(info) =>
          SetStatus(ConnectedText(info), false, now);
          connectionState := Connected(info);
        case Properties(kind, data) =>
          properties := properties.With(kind, Entry(data, Some(now)));
        case ActionResult(name, success, message) =>
          if success {
            SetStatus("Action '" + name + "' executed", false, now);
          } else {
            SetStatus("Action '" + name + "' failed: " + message, true, now);
          }
        case Error(e) =>
          connectionState := Error(e);
          SetStatus("Error: " + e, true, now);
        case Disconnected =>
          connectionState := Disconnected;
          if worker != null {
            worker.Drop();
          }
          worker := null;
          SetStatus("Device disconnected", true, now);
        }
        assert rs[..i + 1] == rs[..i] + [rs[i]];
      }
      assert rs[..|rs|] == rs;
    }

    /**
     * process_worker_responses over the corrected handle: drain it, then apply what was drained.
     * Only the queue, the handle's record of a delivered Error or Disconnected, and what the handle
     * has sent change on the handle.
     */
    method ProcessWorkerResponses(now: nat)
      modifies this`connectionState, this`worker, this`properties, this`statusMessage
      modifies (if worker != null then {worker} else {})`sent
      modifies (if worker != null then {worker} else {})`queued
      modifies (if worker != null then {worker} else {})`terminalSeen
      ensures old(worker) == null ==> View() == old(View())
      ensures old(worker) != null ==>
        var rs := H.DrainResult(old(worker.queued), old(worker.senderGone), old(worker.terminalSeen));
        && View() == ReduceAll(old(View()), rs, now)
        && old(worker).queued == []
        && old(worker).terminalSeen == (old(worker.terminalSeen) || H.HasTerminal(rs))
        && old(worker).sent == old(worker.sent) + (if M.Disconnected in rs then [M.Disconnect] else [])
        && worker == (if M.Disconnected in rs then null else old(worker))
      ensures old(worker) == null ==> worker == null
      ensures old(worker) != null && old(worker.senderGone) && worker != null ==> worker.queued == [] && worker.terminalSeen
      ensures old(worker) != null && old(worker.senderGone) && old(worker.queued) == [] && old(worker.terminalSeen) ==>
        View() == old(View()) && worker == old(worker)
    {
      if worker == null {
        return;
      }
      ghost var w, before, seen := worker, worker.queued, worker.terminalSeen;
      var rs := worker.Drain();
      if w.senderGone && !seen && !H.HasTerminal(before) {
        H.HasTerminalAppend(before, M.Disconnected);
        assert rs[|rs| - 1] == M.Disconnected;
      } else if H.HasTerminal(before) {
        assert rs == before;
      }
      ApplyResponses(rs, now);
    }

    /** request_property_update: a query is sent only when a handle is held. */
    method RequestPropertyUpdate(kind: PropertyKind)
      modifies (if worker != null then {worker} else {})`sent
      ensures worker != null ==> worker.sent == old(worker.sent) + [M.QueryProperties(kind)]
    {
      if worker != null {
        worker.Send(M.QueryProperties(kind));
      }
    }

    /**
     * auto_refresh_properties: nothing happens unless auto-refresh is on, the device is connected
     * and 500 ms have passed since the last run; a run records `now` and asks for the first due
     * category in the order Io, Operation, Failure, General, and for nothing when none is due.
     */
    method AutoRefreshProperties(now: nat)
      modifies this`lastRefresh, (if worker != null then {worker} else {})`sent
      ensures !ShouldPoll(autoRefresh, connectionState, old(lastRefresh), now) ==>
        lastRefresh == old(lastRefresh) && (worker != null ==> worker.sent == old(worker.sent))
      ensures ShouldPoll(autoRefresh, connectionState, old(lastRefresh), now) ==>
        lastRefresh == now && (worker != null ==> worker.sent == old(worker.sent) + Requested(FirstDue(properties, now)))
    {
      if !autoRefresh {
        return;
      }
      if !connectionState.Connected? {
        return;
      }
      if Elapsed(now, lastRefresh) < 500 {
        return;
      }
      lastRefresh := now;
      var i := 0;
      while i < |Schedule|
        invariant 0 <= i <= |Schedule|
        invariant forall j :: 0 <= j < i ==> !DueAt(properties, now, j)
        invariant worker != null ==> worker.sent == old(worker.sent)
      {
        var (kind, interval) := Schedule[i];
        var lastUpdate := properties.Get(kind).updated;
        var shouldUpdate := match lastUpdate case None => true case Some(t) => Elapsed(now, t) >= interval;
        if shouldUpdate {
          assert DueAt(properties, now, i);
          assert FirstDueFrom(properties, now, 0) == Some(i);
          RequestPropertyUpdate(kind);
          return;
        }
        i := i + 1;
      }
    }

    /**
     * Two frames' scheduler calls less than 500 ms apart: together they send at most one query,
     * whatever state the application is in.
     */
    method AutoRefreshTwice(first: nat, second: nat)
      requires first <= second < first + 500
      modifies this`lastRefresh, (if worker != null then {worker} else {})`sent
      ensures worker != null ==> old(worker.sent) <= worker.sent && |worker.sent| <= |old(worker.sent)| + 1
    {
      AutoRefreshProperties(first);
      AutoRefreshProperties(second);
    }

    /** The "Refresh All" button, shown only while connected: every timestamp cleared, every list kept. */
    method RefreshAll()
      modifies this`properties
      ensures properties == if connectionState.Connected? then old(properties).Stale() else old(properties)
    {
      if connectionState.Connected? {
        properties := properties.Stale();
      }
    }

    /** An enumeration's entry is created with its first option (or "") when the action is first shown. */
    method EnsureEnumerationEntry(id: string, options: seq<string>)
      modifies this`actionInputs
      ensures actionInputs == WithDefault(old(actionInputs), id, EnumerationDefault(options))
    {
      if id !in actionInputs {
        actionInputs := actionInputs[id := if options == [] then "" else options[0]];
      }
    }

    /** A flags action's input is created empty (`or_default`) whenever the action is shown, before any click. */
    method EnsureFlagsEntry(id: string)
      modifies this`actionInputs
      ensures actionInputs == WithDefault(old(actionInputs), id, "")
    {
      if id !in actionInputs {
        actionInputs := actionInputs[id := ""];
      }
    }

    /** Picking an option of an enumeration. */
    method ChooseOption(id: string, option: string)
      modifies this`actionInputs
      ensures actionInputs == old(actionInputs)[id := option]
    {
      actionInputs := actionInputs[id := option];
    }

    /** A click on a flag's checkbox: the entry is created empty if needed, then the flag toggled. */
    method ClickFlagBox(id: string, flag: string)
      modifies this`actionInputs
      ensures var before := WithDefault(old(actionInputs), id, "");
        actionInputs == before[id := ClickFlag(before[id], flag)]
    {
      if id !in actionInputs {
        actionInputs := actionInputs[id := ""];
      }
      assert actionInputs == WithDefault(old(actionInputs), id, "");
      var current := actionInputs[id];
      ghost var prior := current;
      var checked := !IsFlagSet(current, flag);
      if checked {
        if current != "" {
          current := current + Separator;
        }
        current := current + flag;
        assert current == CheckFlag(prior, flag);
      } else {
        current := Join(Without(Split(current), flag));
      }
      actionInputs := actionInputs[id := current];
    }

    /** The Execute button: the staged parameter, if any, goes with the action's id. */
    method ExecuteAction(id: string)
      modifies (if worker != null then {worker} else {})`sent
      ensures worker != null ==>
        worker.sent == old(worker.sent) + [M.TriggerAction(id, if id in actionInputs then Some(actionInputs[id]) else None)]
    {
      if worker != null {
        var param := if id in actionInputs then Some(actionInputs[id]) else None;
        worker.Send(M.TriggerAction(id, param));
      }
    }
  }
}
