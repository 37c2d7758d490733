/**
 * The GUI's handle on a worker (WorkerHandle in gui/src/worker.rs): the sending end of the
 * command channel and the receiving end of the response channel.
 */
module Handle {
  import opened Basics
  import opened Messages
  import Worker

  /** The receiving end of the response channel: what is queued, and whether the worker's end is gone. */
  datatype Channel = Channel(queued: seq<WorkerResponse>, senderGone: bool)

  /** std::sync::mpsc::Receiver::try_recv: a queued message first, then Empty or Disconnected. */
  datatype Received = Message(response: WorkerResponse) | Empty | Hungup

  function RawTryRecv(ch: Channel): Received {
    if ch.queued != [] then Message(ch.queued[0])
    else if ch.senderGone then Hungup
    else Empty
  }

  /** try_recv as written: a message, nothing when the channel is empty, Disconnected once it is closed. */
  function TryRecvAsWritten(ch: Channel): (r: (Option<WorkerResponse>, Channel))
    ensures r.0.None? <==> ch.queued == [] && !ch.senderGone
    ensures ch.queued != [] ==> r.0 == Some(ch.queued[0]) && r.1.queued == ch.queued[1..]
    ensures ch.queued == [] ==> r.1 == ch
    ensures ch.queued == [] && ch.senderGone ==> r.0 == Some(Disconnected)
  {
    match RawTryRecv(ch)
    case Message(resp) => (Some(resp), ch.(queued := ch.queued[1..]))
    case Empty => (None, ch)
    case Hungup => (Some(Disconnected), ch)
  }

  /**
   * The `while let Some(response) = worker.try_recv()` drain of process_worker_responses, run for
   * at most `fuel` iterations: what it has collected, and whether the loop has exited by then.
   */
  function DrainAsWritten(ch: Channel, fuel: nat): (seq<WorkerResponse>, bool)
    decreases fuel
  {
    if fuel == 0 then ([], false)
    else
      match TryRecvAsWritten(ch)
      case (None, _) => ([], true)
      case (Some(resp), rest) =>
        var (more, exited) := DrainAsWritten(rest, fuel - 1);
        ([resp] + more, exited)
  }

  /**
   * Once the worker has exited, the drain never exits: however many iterations are allowed, each
   * one collects a response (a synthesized Disconnected once the queue is empty).
   */
  lemma {:induction false} DrainAsWrittenNeverExits(ch: Channel, fuel: nat)
    requires ch.senderGone
    ensures !DrainAsWritten(ch, fuel).1
    ensures |DrainAsWritten(ch, fuel).0| == fuel
    decreases fuel
  {
    if fuel > 0 {
      DrainAsWrittenNeverExits(TryRecvAsWritten(ch).1, fuel - 1);
    }
  }

  /** A worker that could not open its port sends one Error and exits; the GUI's drain then spins forever. */
  lemma PortFailureHangsTheDrain(cause: string, fuel: nat)
    ensures var ch := Channel(Worker.Run(Worker.PortFailed(cause), Worker.Oracle((r, j) => Worker.Timeout, (r, a, p) => Worker.Timeout), []).responses, true);
      !DrainAsWritten(ch, fuel).1
  {
    DrainAsWrittenNeverExits(Channel([Error("Failed to open port: " + cause)], true), fuel);
  }

  predicate HasTerminal(rs: seq<WorkerResponse>) {
    exists j :: 0 <= j < |rs| && IsTerminal(rs[j])
  }

  lemma HasTerminalAppend(rs: seq<WorkerResponse>, r: WorkerResponse)
    ensures HasTerminal(rs + [r]) <==> HasTerminal(rs) || IsTerminal(r)
  {
    if HasTerminal(rs) {
      var j :| 0 <= j < |rs| && IsTerminal(rs[j]);
      assert (rs + [r])[j] == rs[j];
    }
    assert (rs + [r])[|rs|] == r;
  }

  lemma HasTerminalCons(r: WorkerResponse, rs: seq<WorkerResponse>)
    ensures HasTerminal([r] + rs) <==> IsTerminal(r) || HasTerminal(rs)
  {
    if HasTerminal(rs) {
      var j :| 0 <= j < |rs| && IsTerminal(rs[j]);
      assert ([r] + rs)[j + 1] == rs[j];
    }
    if HasTerminal([r] + rs) {
      var j :| 0 <= j < |rs| + 1 && IsTerminal(([r] + rs)[j]);
      if j > 0 { assert ([r] + rs)[j] == rs[j - 1]; }
    }
    assert ([r] + rs)[0] == r;
  }

  /**
   * What a drain of the corrected handle returns: everything queued, then one synthesized
   * Disconnected if the worker is gone and no Error or Disconnected has been or will be delivered.
   */
  function DrainResult(queued: seq<WorkerResponse>, senderGone: bool, terminalSeen: bool): seq<WorkerResponse> {
    queued + (if senderGone && !terminalSeen && !HasTerminal(queued) then [Disconnected] else [])
  }

  /** One successful receive peels one response off the drain's result. */
  lemma DrainResultStep(queued: seq<WorkerResponse>, senderGone: bool, terminalSeen: bool)
    ensures queued != [] ==> (DrainResult(queued, senderGone, terminalSeen)
      == [queued[0]] + DrainResult(queued[1..], senderGone, terminalSeen || IsTerminal(queued[0])))
    ensures queued == [] && senderGone && !terminalSeen ==> DrainResult(queued, senderGone, terminalSeen) == [Disconnected]
    ensures queued == [] && (!senderGone || terminalSeen) ==> DrainResult(queued, senderGone, terminalSeen) == []
  {
    if queued != [] {
      assert queued == [queued[0]] + queued[1..];
      HasTerminalCons(queued[0], queued[1..]);
    }
  }

  /** One receive of the corrected handle peels the next response off the drain's result, or ends it. */
  lemma ReceiveStep(before: seq<WorkerResponse>, senderGone: bool, seen: bool,
                    r: Option<WorkerResponse>, after: seq<WorkerResponse>, seenAfter: bool)
    requires before != [] ==> r == Some(before[0]) && after == before[1..]
    requires before == [] ==> after == [] && r == (if senderGone && !seen then Some(Disconnected) else None)
    requires seenAfter == (seen || (r.Some? && IsTerminal(r.value)))
    ensures r.None? ==> DrainResult(before, senderGone, seen) == []
    ensures r.Some? ==> DrainResult(before, senderGone, seen) == [r.value] + DrainResult(after, senderGone, seenAfter)
    ensures r.Some? ==> |after| + (if seenAfter then 0 else 1) < |before| + (if seen then 0 else 1)
  {
    DrainResultStep(before, senderGone, seen);
    if before == [] && r.Some? {
      DrainResultStep(after, senderGone, seenAfter);
    }
  }

  /**
   * Once the worker is gone, a drain hands out an Error or Disconnected (queued or synthesized) or
   * one was handed out before; so the next drain, with nothing new queued, yields nothing.
   */
  lemma DrainAfterHangupIsEmpty(queued: seq<WorkerResponse>, terminalSeen: bool)
    ensures var rs := DrainResult(queued, true, terminalSeen);
      DrainResult([], true, terminalSeen || HasTerminal(rs)) == []
  {
    var rs := DrainResult(queued, true, terminalSeen);
    if HasTerminal(queued) {
      assert rs == queued;
    } else if !terminalSeen {
      HasTerminalAppend(queued, Disconnected);
    }
  }

  /**
   * A worker that has finished, however it finished, is seen by the GUI to end with exactly one
   * Error or Disconnected, as the last response: the start failed, the loop was told to
   * disconnect, or the command channel closed and the handle synthesized it.
   */
  lemma ConsumerSeesOneTerminal(startup: Worker.Startup, oracle: Worker.Oracle, polls: seq<Worker.Poll>)
    requires Worker.Run(startup, oracle, polls).finished
    ensures var rs := DrainResult(Worker.Run(startup, oracle, polls).responses, true, false);
      |rs| > 0 && IsTerminal(rs[|rs| - 1]) && forall j :: 0 <= j < |rs| - 1 ==> !IsTerminal(rs[j])
  {
    var run := Worker.Run(startup, oracle, polls);
    if startup.Ready? {
      var dev := startup.device;
      var s := Worker.Serve(dev, oracle, polls);
      Worker.ServeShape(dev, oracle, polls);
      Worker.StartupOutcome(startup, oracle, polls);
      var rs := DrainResult(run.responses, true, false);
      if HasTerminal(run.responses) {
        var k :| 0 <= k < |run.responses| && IsTerminal(run.responses[k]);
        assert run.responses[k] == s.responses[k - 1];
        assert k == |run.responses| - 1;
        forall j | 0 <= j < |rs| - 1 ensures !IsTerminal(rs[j]) {
          if j > 0 { assert rs[j] == s.responses[j - 1]; }
        }
      } else {
        forall j | 0 <= j < |rs| - 1 ensures !IsTerminal(rs[j]) {
          assert rs[j] == run.responses[j];
        }
      }
    } else {
      assert IsTerminal(run.responses[0]);
    }
  }

  /**
   * The handle, with try_recv corrected: once the response channel is closed it synthesizes a
   * Disconnected only if no Error or Disconnected has reached the GUI, and then only once.
   */
  class WorkerHandle {
    /** Every command handed to the command channel, in order. */
    var sent: seq<WorkerCommand>
    /** Responses the worker has sent that the GUI has not received yet. */
    var queued: seq<WorkerResponse>
    /** The worker's end of the response channel is gone (the worker thread has returned). */
    var senderGone: bool
    /** An Error or Disconnected has already been handed to the GUI. */
    var terminalSeen: bool

    /** WorkerHandle::new: fresh channels, nothing sent or received yet. */
    constructor ()
      ensures sent == [] && queued == [] && !senderGone && !terminalSeen
    {
      sent, queued, senderGone, terminalSeen := [], [], false, false;
    }

    /** send: fire and forget; a failure to deliver is ignored. */
    method Send(cmd: WorkerCommand)
      modifies this`sent
      ensures sent == old(sent) + [cmd]
    {
      sent := sent + [cmd];
    }

    /** Drop: a best-effort Disconnect, without waiting for an answer. */
    method Drop()
      modifies this`sent
      ensures sent == old(sent) + [Disconnect]
    {
      Send(Disconnect);
    }

    /** The worker's side: a response sent on the response channel. */
    method Deliver(r: WorkerResponse)
      requires !senderGone
      modifies this`queued
      ensures queued == old(queued) + [r]
    {
      queued := queued + [r];
    }

    /** The worker's side: the worker thread returns and its end of the response channel is dropped. */
    method WorkerExits()
      modifies this`senderGone
      ensures senderGone
    {
      senderGone := true;
    }

    /** try_recv, corrected: at most one message per call, and a synthesized Disconnected at most once. */
    method TryRecv() returns (r: Option<WorkerResponse>)
      modifies this`queued, this`terminalSeen
      ensures old(queued) != [] ==> r == Some(old(queued)[0]) && queued == old(queued)[1..]
      ensures old(queued) == [] ==> queued == [] && r == (if senderGone && !old(terminalSeen) then Some(Disconnected) else None)
      ensures terminalSeen == (old(terminalSeen) || (r.Some? && IsTerminal(r.value)))
    {
      match RawTryRecv(Channel(queued, senderGone)) {
      case Message(resp) =>
        queued := queued[1..];
        r := Some(resp);
      case Empty =>
        r := None;
      case Hungup =>
        r := if terminalSeen then None else Some(Disconnected);
      }
      if r.Some? && IsTerminal(r.value) {
        terminalSeen := true;
      }
    }

    /** Everything receivable now, in order: the drain of process_worker_responses, which now always ends. */
    method Drain() returns (rs: seq<WorkerResponse>)
      modifies this`queued, this`terminalSeen
      ensures rs == DrainResult(old(queued), senderGone, old(terminalSeen))
      ensures queued == []
      ensures terminalSeen == (old(terminalSeen) || HasTerminal(rs))
    {
      rs := [];
      while true
        invariant rs + DrainResult(queued, senderGone, terminalSeen) == DrainResult(old(queued), senderGone, old(terminalSeen))
        invariant terminalSeen == (old(terminalSeen) || HasTerminal(rs))
        decreases |queued| + (if terminalSeen then 0 else 1)
      {
        ghost var before, seen := queued, terminalSeen;
        var r := TryRecv();
        ReceiveStep(before, senderGone, seen, r, queued, terminalSeen);
        if r.None? {
          break;
        }
        HasTerminalAppend(rs, r.value);
        assert (rs + [r.value]) + DrainResult(queued, senderGone, terminalSeen) == rs + DrainResult(before, senderGone, seen);
        rs := rs + [r.value];
      }
    }
  }
}
