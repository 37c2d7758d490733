/**
 * The worker thread (run_worker in gui/src/worker.rs): it opens the port, performs the handshake
 * and then serves the GUI's commands one at a time until told to disconnect or until the command
 * channel closes.
 *
 * The device is an oracle: for the command received at position `round` of the command stream it
 * answers the query of the property at position `j` of the device's list, or the triggering of an
 * action with a parameter, with a value, a device error, or a timeout (the bounded wait expiring).
 * The command channel is a finite sequence of polls, each the outcome of one 50 ms receive.
 */
module Worker {
  import opened Basics
  import D = Device
  import opened Messages

  /** The outcome of one device operation under its timeout. */
  datatype Reply<+T> = Ok(value: T) | Err(message: string) | Timeout

  /** The device's answers. */
  datatype Oracle = Oracle(
    query: (nat, nat) -> Reply<D.Value>,
    trigger: (nat, D.Action, Option<D.Value>) -> Reply<()>)

  /** How the start of the worker went: the runtime, the port and the handshake (5 s timeout). */
  datatype Startup =
    | RuntimeFailed(cause: string)
    | PortFailed(cause: string)
    | HandshakeFailed(cause: string)
    | HandshakeTimeout
    | Ready(device: D.Device)

  /** One receive with a 50 ms timeout: a command, nothing yet, or the GUI's end of the channel gone. */
  datatype Poll = Received(command: WorkerCommand) | Quiet | Hangup

  /** What the worker has sent, how many polls it has consumed, and whether its loop has ended. */
  datatype Session = Session(responses: seq<WorkerResponse>, consumed: nat, finished: bool)

  /** The DeviceInfo announced after the handshake. */
  function InfoOf(dev: D.Device): DeviceInfo {
    DeviceInfo(dev.softwareId, dev.kind, FromActions(dev.actions))
  }

  /** The error text sent when the start fails. */
  function StartupError(startup: Startup): string
    requires !startup.Ready?
  {
    match startup
    case RuntimeFailed(e) => "Failed to create runtime: " + e
    case PortFailed(e) => "Failed to open port: " + e
    case HandshakeFailed(e) => "Failed to connect: " + e
    case HandshakeTimeout => "Connection timeout"
  }

  /** The device's answers to the queries of the first n properties during one round. */
  function Replies(oracle: Oracle, round: nat, n: nat): (r: seq<Reply<D.Value>>)
    ensures |r| == n
    ensures forall j :: 0 <= j < n ==> r[j] == oracle.query(round, j)
  {
    seq(n, j requires 0 <= j => oracle.query(round, j))
  }

  /** The row reported for a property whose query succeeded. */
  function Datum(p: D.PropertyDescriptor, v: D.Value): PropertyData {
    PropertyData(p.name, FromValue(v), p.unit)
  }

  /** The rows a QueryProperties(kind) collects from properties `props` whose queries got `replies`. */
  function Collect(props: seq<D.PropertyDescriptor>, replies: seq<Reply<D.Value>>, kind: D.PropertyKind): seq<PropertyData>
    requires |props| == |replies|
  {
    if props == [] then []
    else
      var last := |props| - 1;
      Collect(props[..last], replies[..last], kind)
        + (if props[last].kind == kind && replies[last].Ok? then [Datum(props[last], replies[last].value)] else [])
  }

  /** The positions of the properties of `kind` whose query succeeded, in increasing order. */
  function Kept(props: seq<D.PropertyDescriptor>, replies: seq<Reply<D.Value>>, kind: D.PropertyKind): (ks: seq<nat>)
    requires |props| == |replies|
    ensures forall i :: 0 <= i < |ks| ==> ks[i] < |props|
    ensures forall i, j :: 0 <= i < j < |ks| ==> ks[i] < ks[j]
    ensures forall j :: 0 <= j < |props| ==> (j in ks <==> props[j].kind == kind && replies[j].Ok?)
  {
    if props == [] then []
    else
      var last := |props| - 1;
      Kept(props[..last], replies[..last], kind) + (if props[last].kind == kind && replies[last].Ok? then [last] else [])
  }

  /**
   * The batch is the in-order subsequence of the properties of the asked category whose query
   * succeeded: a failed or timed-out query drops that property and nothing else.
   */
  lemma {:induction false} CollectIsKept(props: seq<D.PropertyDescriptor>, replies: seq<Reply<D.Value>>, kind: D.PropertyKind)
    requires |props| == |replies|
    ensures var ks := Kept(props, replies, kind);
      var data := Collect(props, replies, kind);
      |data| == |ks| && forall i :: 0 <= i < |ks| ==> replies[ks[i]].Ok? && data[i] == Datum(props[ks[i]], replies[ks[i]].value)
  {
    if props != [] {
      var last := |props| - 1;
      CollectIsKept(props[..last], replies[..last], kind);
    }
  }

  /** How many properties belong to `kind`. */
  function CountOf(props: seq<D.PropertyDescriptor>, kind: D.PropertyKind): nat {
    if props == [] then 0
    else CountOf(props[..|props| - 1], kind) + (if props[|props| - 1].kind == kind then 1 else 0)
  }

  /** When every query succeeds, the batch holds every property of the category, in the device's order. */
  lemma {:induction false} CollectAllOk(props: seq<D.PropertyDescriptor>, replies: seq<Reply<D.Value>>, kind: D.PropertyKind)
    requires |props| == |replies|
    requires forall j :: 0 <= j < |replies| ==> replies[j].Ok?
    ensures |Collect(props, replies, kind)| == CountOf(props, kind)
    ensures forall j :: 0 <= j < |props| && props[j].kind == kind ==> Datum(props[j], replies[j].value) in Collect(props, replies, kind)
  {
    if props != [] {
      var last := |props| - 1;
      CollectAllOk(props[..last], replies[..last], kind);
      forall j | 0 <= j < |props| && props[j].kind == kind
        ensures Datum(props[j], replies[j].value) in Collect(props, replies, kind)
      {
        if j < last {
          assert props[..last][j] == props[j] && replies[..last][j] == replies[j];
        }
      }
    }
  }

  /** The position of the first action with the given id (Iterator::find). */
  function FindAction(actions: seq<D.Action>, id: string): (r: Option<nat>)
    ensures r.Some? ==> r.value < |actions| && actions[r.value].id == id
    ensures r.Some? ==> forall j :: 0 <= j < r.value ==> actions[j].id != id
    ensures r.None? ==> forall j :: 0 <= j < |actions| ==> actions[j].id != id
  {
    if actions == [] then None
    else if actions[0].id == id then Some(0)
    else
      match FindAction(actions[1..], id)
      case None => None
      case Some(k) => Some(k + 1)
  }

  /** A staged parameter is handed to the device as a string value. */
  function ParamValue(param: Option<string>): Option<D.Value> {
    match param
    case None => None
    case Some(p) => Some(D.String(p))
  }

  /** The ActionResult sent for an action once the device has answered or the 2 s timeout has fired. */
  function ActionResponse(a: D.Action, reply: Reply<()>): WorkerResponse {
    match reply
    case Ok(_) => ActionResult(a.name, true, "Success")
    case Err(e) => ActionResult(a.name, false, e)
    case Timeout => ActionResult(a.name, false, "Timeout")
  }

  /** What the loop does with one poll: the responses it sends and whether it stops. */
  function Step(dev: D.Device, oracle: Oracle, round: nat, p: Poll): (seq<WorkerResponse>, bool) {
    match p
    case Quiet => ([], false)
    case Hangup => ([], true)
    case Received(QueryProperties(kind)) =>
      ([Properties(kind, Collect(dev.properties, Replies(oracle, round, |dev.properties|), kind))], false)
    case Received(TriggerAction(id, param)) =>
      (match FindAction(dev.actions, id)
       case None => ([], false)
       case Some(i) => ([ActionResponse(dev.actions[i], oracle.trigger(round, dev.actions[i], ParamValue(param)))], false))
    case Received(Disconnect) => ([Disconnected], true)
  }

  /** The serving loop over a finite stream of polls; polls after the loop has ended are never read. */
  function Serve(dev: D.Device, oracle: Oracle, polls: seq<Poll>): Session {
    if polls == [] then Session([], 0, false)
    else
      var s := Serve(dev, oracle, polls[..|polls| - 1]);
      if s.finished then s
      else
        var (out, stop) := Step(dev, oracle, |polls| - 1, polls[|polls| - 1]);
        Session(s.responses + out, s.consumed + 1, stop)
  }

  /** The whole worker: the startup outcome, then the serving loop. */
  function Run(startup: Startup, oracle: Oracle, polls: seq<Poll>): Session {
    match startup
    case Ready(dev) =>
      var s := Serve(dev, oracle, polls);
      Session([Connected(InfoOf(dev))] + s.responses, s.consumed, s.finished)
    case _ => Session([Error(StartupError(startup))], 0, true)
  }

  /** Once the loop has ended, nothing that arrives later changes what the worker did. */
  lemma {:induction false} ServeIgnoresRest(dev: D.Device, oracle: Oracle, polls: seq<Poll>, more: seq<Poll>)
    requires Serve(dev, oracle, polls).finished
    ensures Serve(dev, oracle, polls + more) == Serve(dev, oracle, polls)
    decreases |more|
  {
    if more != [] {
      var all := polls + more;
      assert all[..|all| - 1] == polls + more[..|more| - 1];
      ServeIgnoresRest(dev, oracle, polls, more[..|more| - 1]);
    } else {
      assert polls + more == polls;
    }
  }

  /** The loop consumes polls one by one and only ends on the poll that ends it. */
  lemma {:induction false} ServeConsumed(dev: D.Device, oracle: Oracle, polls: seq<Poll>)
    ensures var s := Serve(dev, oracle, polls);
      s.consumed <= |polls| && (!s.finished ==> s.consumed == |polls|)
    ensures var s := Serve(dev, oracle, polls);
      s.finished ==> (s.consumed > 0 && Serve(dev, oracle, polls[..s.consumed]) == s
        && (polls[s.consumed - 1] == Hangup || polls[s.consumed - 1] == Received(Disconnect)))
  {
    if polls != [] {
      var prefix := polls[..|polls| - 1];
      ServeConsumed(dev, oracle, prefix);
      var s := Serve(dev, oracle, prefix);
      if s.finished {
        assert polls[..s.consumed] == prefix[..s.consumed];
      } else {
        assert polls[..|polls|] == polls;
      }
    }
  }

  /**
   * What the loop does with the poll at position i when it is still running: a query is answered
   * by exactly one Properties for that category; an action with a known id by exactly one
   * ActionResult naming it, the staged parameter reaching the device as a string; an unknown id
   * by nothing; Disconnect by a final Disconnected; a quiet receive by nothing; a closed channel
   * ends the loop silently.
   */
  lemma ServeStep(dev: D.Device, oracle: Oracle, polls: seq<Poll>, i: nat)
    requires i < |polls| && !Serve(dev, oracle, polls[..i]).finished
    ensures var before, after := Serve(dev, oracle, polls[..i]), Serve(dev, oracle, polls[..i + 1]);
      && after.consumed == before.consumed + 1
      && (polls[i].Quiet? ==> after == before.(consumed := i + 1))
      && (polls[i].Hangup? ==> after.responses == before.responses && after.finished)
      && (polls[i] == Received(Disconnect) ==> after.responses == before.responses + [Disconnected] && after.finished)
      && (polls[i].Received? && polls[i].command.QueryProperties? ==>
            var kind := polls[i].command.category;
            after.responses == before.responses + [Properties(kind, Collect(dev.properties, Replies(oracle, i, |dev.properties|), kind))]
            && !after.finished)
      && (polls[i].Received? && polls[i].command.TriggerAction? ==>
            var c := polls[i].command;
            !after.finished
            && match FindAction(dev.actions, c.actionId)
               case None => after.responses == before.responses
               case Some(a) =>
                 var action := dev.actions[a];
                 var reply := oracle.trigger(i, action, ParamValue(c.param));
                 after.responses == before.responses + [ActionResult(action.name, reply.Ok?,
                   match reply case Ok(_) => "Success" case Err(e) => e case Timeout => "Timeout")])
  {
    ServeConsumed(dev, oracle, polls[..i]);
    assert polls[..i + 1][..i] == polls[..i];
  }

  /** How many responses a poll draws: one for a query, a known action or Disconnect, none otherwise. */
  function Answers(dev: D.Device, p: Poll): nat {
    match p
    case Received(QueryProperties(_)) => 1
    case Received(TriggerAction(id, _)) => if FindAction(dev.actions, id).Some? then 1 else 0
    case Received(Disconnect) => 1
    case _ => 0
  }

  function TotalAnswers(dev: D.Device, polls: seq<Poll>): nat {
    if polls == [] then 0 else TotalAnswers(dev, polls[..|polls| - 1]) + Answers(dev, polls[|polls| - 1])
  }

  /** Exactly one response per handled command that draws one, and no other response. */
  lemma {:induction false} OneResponsePerCommand(dev: D.Device, oracle: Oracle, polls: seq<Poll>)
    ensures var s := Serve(dev, oracle, polls);
      s.consumed <= |polls| && |s.responses| == TotalAnswers(dev, polls[..s.consumed])
  {
    ServeConsumed(dev, oracle, polls);
    if polls != [] {
      var prefix := polls[..|polls| - 1];
      ServeConsumed(dev, oracle, prefix);
      OneResponsePerCommand(dev, oracle, prefix);
      var s := Serve(dev, oracle, prefix);
      if s.finished {
        assert polls[..s.consumed] == prefix[..s.consumed];
      } else {
        assert polls[..|polls|] == polls;
        assert prefix[..s.consumed] == prefix;
      }
    }
  }

  /** Responses to earlier polls come first: the responses so far are a prefix of all later ones. */
  lemma {:induction false} ServeInOrder(dev: D.Device, oracle: Oracle, polls: seq<Poll>, i: nat)
    requires i <= |polls|
    ensures Serve(dev, oracle, polls[..i]).responses <= Serve(dev, oracle, polls).responses
    decreases |polls| - i
  {
    if i < |polls| {
      var n := |polls|;
      ServeInOrder(dev, oracle, polls[..n - 1], i);
      assert polls[..n - 1][..i] == polls[..i];
    } else {
      assert polls[..i] == polls;
    }
  }

  /** No Connected or Error among the responses, and Disconnected only as the last one of a finished loop. */
  ghost predicate ServingShape(s: Session) {
    && (forall j :: 0 <= j < |s.responses| ==> !s.responses[j].Connected? && !s.responses[j].Error?)
    && (forall j :: 0 <= j < |s.responses| && s.responses[j].Disconnected? ==> j == |s.responses| - 1 && s.finished)
  }

  /** The loop never announces a connection or an error, and Disconnected only as its last response. */
  lemma {:induction false} ServeShape(dev: D.Device, oracle: Oracle, polls: seq<Poll>)
    ensures ServingShape(Serve(dev, oracle, polls))
  {
    if polls != [] {
      var prefix := polls[..|polls| - 1];
      ServeShape(dev, oracle, prefix);
      var s := Serve(dev, oracle, prefix);
      if !s.finished {
        var step := Step(dev, oracle, |polls| - 1, polls[|polls| - 1]);
        var out, stop := step.0, step.1;
        StepShape(dev, oracle, |polls| - 1, polls[|polls| - 1]);
        var all := s.responses + out;
        assert Serve(dev, oracle, polls) == Session(all, s.consumed + 1, stop);
        forall j | 0 <= j < |all|
          ensures !all[j].Connected? && !all[j].Error?
          ensures all[j].Disconnected? ==> j == |all| - 1 && stop
        {
          if j >= |s.responses| {
            assert all[j] in out;
          } else {
            assert all[j] == s.responses[j];
          }
        }
      }
    }
  }

  /** One poll draws at most one response, never Connected or Error, and Disconnected only when it stops the loop. */
  lemma StepShape(dev: D.Device, oracle: Oracle, round: nat, p: Poll)
    ensures var step := Step(dev, oracle, round, p);
      |step.0| <= 1 && forall r :: r in step.0 ==> !r.Connected? && !r.Error? && (r.Disconnected? ==> step.1)
  {
  }

  /**
   * The start: a failed runtime, port or handshake sends exactly one Error (with "Connection timeout"
   * for the handshake timeout), never Connected, and ends the worker; a good handshake sends
   * Connected first, before any command is served, and never again.
   */
  lemma StartupOutcome(startup: Startup, oracle: Oracle, polls: seq<Poll>)
    ensures var s := Run(startup, oracle, polls);
      !startup.Ready? ==> s == Session([Error(StartupError(startup))], 0, true)
    ensures startup.HandshakeTimeout? ==> Run(startup, oracle, polls).responses == [Error("Connection timeout")]
    ensures var s := Run(startup, oracle, polls);
      startup.Ready? ==> (|s.responses| > 0 && s.responses[0] == Connected(InfoOf(startup.device))
        && forall j :: 0 < j < |s.responses| ==> !s.responses[j].Connected? && !s.responses[j].Error?)
  {
    if startup.Ready? {
      ServeShape(startup.device, oracle, polls);
      var s := Serve(startup.device, oracle, polls);
      var all := [Connected(InfoOf(startup.device))] + s.responses;
      forall j | 0 < j < |all|
        ensures !all[j].Connected? && !all[j].Error?
      {
        assert all[j] == s.responses[j - 1];
      }
    }
  }

  /** The rows of one QueryProperties(kind): the worker's for-loop over the filtered properties. */
  method CollectProperties(props: seq<D.PropertyDescriptor>, oracle: Oracle, round: nat, kind: D.PropertyKind)
    returns (data: seq<PropertyData>)
    ensures data == Collect(props, Replies(oracle, round, |props|), kind)
  {
    data := [];
    for j := 0 to |props|
      invariant data == Collect(props[..j], Replies(oracle, round, j), kind)
    {
      var prop := props[j];
      if prop.kind == kind {
        match oracle.query(round, j)
        case Ok(value) =>
          data := data + [Datum(prop, value)];
        case Err(_) =>
        case Timeout =>
      }
      assert props[..j + 1][..j] == props[..j];
      assert Replies(oracle, round, j + 1)[..j] == Replies(oracle, round, j);
    }
    assert props[..|props|] == props;
  }

  /** The command loop of run_worker, after a successful handshake. */
  method ServeCommands(dev: D.Device, oracle: Oracle, polls: seq<Poll>)
    returns (responses: seq<WorkerResponse>, consumed: nat, finished: bool)
    ensures Session(responses, consumed, finished) == Serve(dev, oracle, polls)
  {
    responses, consumed, finished := [], 0, false;
    while consumed < |polls| && !finished
      invariant consumed <= |polls|
      invariant Serve(dev, oracle, polls[..consumed]) == Session(responses, consumed, finished)
      decreases |polls| - consumed
    {
      var round := consumed;
      match polls[round] {
      case Received(QueryProperties(kind)) =>
        var data := CollectProperties(dev.properties, oracle, round, kind);
        responses := responses + [Properties(kind, data)];
      case Received(TriggerAction(id, param)) =>
        var found := FindAction(dev.actions, id);
        if found.Some? {
          var action := dev.actions[found.value];
          var reply := oracle.trigger(round, action, ParamValue(param));
          responses := responses + [ActionResponse(action, reply)];
        }
      case Received(Disconnect) =>
        responses := responses + [Disconnected];
        finished := true;
      case Quiet =>
      case Hangup =>
        finished := true;
      }
      consumed := consumed + 1;
      assert polls[..consumed][..round] == polls[..round];
    }
    if finished {
      ServeIgnoresRest(dev, oracle, polls[..consumed], polls[consumed..]);
      assert polls[..consumed] + polls[consumed..] == polls;
    } else {
      assert polls[..consumed] == polls;
    }
  }

  /** run_worker: the start, then the command loop when the handshake succeeded. */
  method RunWorker(startup: Startup, oracle: Oracle, polls: seq<Poll>)
    returns (responses: seq<WorkerResponse>, consumed: nat, finished: bool)
    ensures Session(responses, consumed, finished) == Run(startup, oracle, polls)
  {
    match startup
    case RuntimeFailed(e) =>
      return [Error("Failed to create runtime: " + e)], 0, true;
    case PortFailed(e) =>
      return [Error("Failed to open port: " + e)], 0, true;
    case HandshakeFailed(e) =>
      return [Error("Failed to connect: " + e)], 0, true;
    case HandshakeTimeout =>
      return [Error("Connection timeout")], 0, true;
    case Ready(dev) =>
      var served;
      served, consumed, finished := ServeCommands(dev, oracle, polls);
      responses := [Connected(InfoOf(dev))] + served;
  }
}
