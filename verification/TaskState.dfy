/** Events, outcomes and the manager's per-task state (runtime/agentruntime.go and
    runtime/internal/server/server.go). */
module TaskState {
  import opened Prelude

  /** `OtherKind` stands for any kind an engine invents. */
  datatype Kind = StatusKind | ToolCall | ApprovalRequired | Output | ErrorKind | DoneKind | OtherKind(name: string)

  datatype Event = Event(kind: Kind, text: string, tool: string, approvalId: string)

  datatype RunResult = RunResult(output: string, auditRef: string)

  /** What Engine.Run returned: a result and, when it failed, an error text. */
  datatype RunOutcome = RunOutcome(result: RunResult, err: Option<string>)

  datatype PendingApproval = PendingApproval(tool: string, approvalId: string)

  datatype TaskStatus = Running | AwaitingApproval | Done | Failed

  datatype View = View(events: seq<Event>, pending: Option<PendingApproval>, status: TaskStatus,
                       result: RunResult, errMsg: string)

  datatype Snapshot = Snapshot(status: TaskStatus, events: seq<Event>, pending: Option<PendingApproval>,
                               result: Option<RunResult>, error: string)

  const FRESH := View([], None, Running, RunResult("", ""), "")

  function Absorb(v: View, e: Event): View {
    var v1 := v.(events := v.events + [e]);
    if e.kind.ApprovalRequired? then
      v1.(status := AwaitingApproval, pending := Some(PendingApproval(e.tool, e.approvalId)))
    else if e.kind.ErrorKind? then v1.(errMsg := e.text)
    else v1
  }

  function AbsorbAll(v: View, stream: seq<Event>): View {
    if stream == [] then v
    else Absorb(AbsorbAll(v, stream[..|stream| - 1]), stream[|stream| - 1])
  }

  function Finish(v: View, o: RunOutcome): View {
    if o.err.Some? then
      v.(result := o.result, status := Failed, pending := None,
         errMsg := if v.errMsg == "" then o.err.value else v.errMsg)
    else v.(result := o.result, status := Done, pending := None)
  }

  /** What an accepted approval does to the task: whichever id was sent. */
  function Resolve(v: View): View {
    if v.status == AwaitingApproval then v.(status := Running, pending := None) else v
  }

  function SnapshotOf(v: View): Snapshot {
    Snapshot(v.status, v.events, v.pending, if v.status == Done then Some(v.result) else None, v.errMsg)
  }

  /** The text of the last error event, or "". */
  function LastErrorText(events: seq<Event>): string {
    if events == [] then ""
    else
      var n := |events| - 1;
      if events[n].kind.ErrorKind? then events[n].text else LastErrorText(events[..n])
  }

  class TaskState {
    var events: seq<Event>
    var pending: Option<PendingApproval>
    var status: TaskStatus
    var result: RunResult
    var errMsg: string

    function State(): View
      reads this
    {
      View(events, pending, status, result, errMsg)
    }

    constructor ()
      ensures State() == FRESH
    {
      events, pending, status, result, errMsg := [], None, Running, RunResult("", ""), "";
    }

    /** One iteration of drain, under the lock. */
    method Append(e: Event)
      modifies this
      ensures State() == Absorb(old(State()), e)
    {
      events := events + [e];
      match e.kind {
        case ApprovalRequired =>
          status := AwaitingApproval;
          pending := Some(PendingApproval(e.tool, e.approvalId));
        case ErrorKind =>
          errMsg := e.text;
        case _ =>
      }
    }

    /** The end of drain, once the stream is closed and the outcome known. */
    method Conclude(o: RunOutcome)
      modifies this
      ensures State() == Finish(old(State()), o)
    {
      result := o.result;
      if o.err.Some? {
        status := Failed;
        if errMsg == "" {
          errMsg := o.err.value;
        }
      } else {
        status := Done;
      }
      pending := None;
    }

    /** An undisturbed drain of a whole stream. */
    method Drain(stream: seq<Event>, o: RunOutcome)
      modifies this
      ensures State() == Finish(AbsorbAll(old(State()), stream), o)
    {
      for i := 0 to |stream|
        invariant State() == AbsorbAll(old(State()), stream[..i])
      {
        assert stream[..i + 1][..i] == stream[..i];
        Append(stream[i]);
      }
      assert stream[..|stream|] == stream;
      Conclude(o);
    }

    /** The state part of handleApprove, after ResolveApproval accepted the decision. */
    method ApprovalAccepted()
      modifies this
      ensures State() == Resolve(old(State()))
    {
      if status == AwaitingApproval {
        status := Running;
        pending := None;
      }
    }

    method TakeSnapshot() returns (s: Snapshot)
      ensures s == SnapshotOf(State())
    {
      s := Snapshot(status, events, pending, None, errMsg);
      if status == Done {
        s := s.(result := Some(result));
      }
    }
  }
}
