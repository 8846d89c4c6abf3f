/** What the Slack gateway posts about a task, message by message, in the terms of the polls it made. */
module SlackTrace {
  import opened Prelude
  import opened TaskState
  import opened Slack
  import TaskProtocol
  import TaskTrace

  predicate Shows(p: Poll, id: string) {
    p.Got? && p.snapshot.pending.Some? && p.snapshot.pending.value.approvalId == id
  }

  /** Poll `k` is the first that shows approval `id` pending, and it shows it for `tool`. */
  ghost predicate FirstShown(polls: nat -> Poll, k: nat, id: string, tool: string) {
    && Shows(polls(k), id)
    && polls(k).snapshot.pending.value.tool == tool
    && forall j: nat :: j < k ==> !Shows(polls(j), id)
  }

  /** One after another, the first polls of two approvals. */
  ghost predicate ShownInTurn(polls: nat -> Poll, n: nat, id1: string, tool1: string, id2: string, tool2: string) {
    exists k1: nat, k2: nat :: k1 < k2 < n && FirstShown(polls, k1, id1, tool1) && FirstShown(polls, k2, id2, tool2)
  }

  // ---------------------------------------------------------------------------------------------
  // The announcements
  // ---------------------------------------------------------------------------------------------

  lemma ShowsPending(p: Poll, id: string)
    ensures Shows(p, id) <==> PendingOf(p).Some? && PendingOf(p).value.approvalId == id
  {}

  lemma {:induction false} AnnouncedWasFirstShown(polls: nat -> Poll, n: nat, i: nat) returns (k: nat)
    requires i < |Announced(polls, n)|
    ensures var p := Announced(polls, n)[i]; k < n && FirstShown(polls, k, p.approvalId, p.tool)
  {
    if i < |Announced(polls, n - 1)| {
      k := AnnouncedWasFirstShown(polls, n - 1, i);
    } else {
      k := n - 1;
      var id := Announced(polls, n)[i].approvalId;
      AnnouncedIffShown(polls, n - 1, id);
      forall j: nat | j < k ensures !Shows(polls(j), id) {
        ShowsPending(polls(j), id);
      }
    }
  }

  lemma {:induction false} AnnouncedInTurn(polls: nat -> Poll, n: nat, i: nat, j: nat)
    requires i < j < |Announced(polls, n)|
    ensures var (p, q) := (Announced(polls, n)[i], Announced(polls, n)[j]);
            ShownInTurn(polls, n, p.approvalId, p.tool, q.approvalId, q.tool)
  {
    if j < |Announced(polls, n - 1)| {
      AnnouncedInTurn(polls, n - 1, i, j);
    } else {
      var k1 := AnnouncedWasFirstShown(polls, n - 1, i);
      var k2 := AnnouncedWasFirstShown(polls, n, j);
      AnnouncedLast(polls, n, k2);
    }
  }

  /** An approval announced at poll n-1 was not shown before it. */
  lemma AnnouncedLast(polls: nat -> Poll, n: nat, k: nat)
    requires n > 0 && |Announced(polls, n)| > |Announced(polls, n - 1)|
    requires var p := Announced(polls, n)[|Announced(polls, n - 1)|];
             k < n && FirstShown(polls, k, p.approvalId, p.tool)
    ensures k == n - 1
  {
    var p := Announced(polls, n)[|Announced(polls, n - 1)|];
    AnnouncedIffShown(polls, n - 1, p.approvalId);
    ShowsPending(polls(k), p.approvalId);
  }

  lemma FirstShownIsAnnounced(polls: nat -> Poll, n: nat, k: nat, id: string, tool: string)
    requires k < n && FirstShown(polls, k, id, tool)
    ensures PendingApproval(tool, id) in Announced(polls, n)
  {
    AnnouncedIffShown(polls, k, id);
    forall j: nat | j < k ensures !(PendingOf(polls(j)).Some? && PendingOf(polls(j)).value.approvalId == id) {
      assert !Shows(polls(j), id);
    }
    var upTo := Announced(polls, k + 1);
    assert upTo[|upTo| - 1] == PendingApproval(tool, id);
    AnnouncementsOnlyGrow(polls, k + 1, n);
    assert Announced(polls, n)[|upTo| - 1] == PendingApproval(tool, id);
  }

  // ---------------------------------------------------------------------------------------------
  // The messages
  // ---------------------------------------------------------------------------------------------

  lemma {:induction false} AsksAt(at: Thread, task: string, pendings: seq<PendingApproval>)
    ensures |Asks(at, task, pendings)| == |pendings|
    ensures forall i :: 0 <= i < |pendings| ==>
              Asks(at, task, pendings)[i] ==
              Message(at, AskApproval(task, pendings[i].approvalId, pendings[i].tool))
  {
    if pendings != [] {
      AsksAt(at, task, pendings[..|pendings| - 1]);
    }
  }

  predicate Ends(post: Post) {
    post.TaskDone? || post.TaskFailed? || post.TimedOut?
  }

  /** The trace: everything in one thread, the acknowledgement first, then the approvals announced, then
      one ending. */
  lemma TraceShape(sent: seq<Message>, at: Thread, task: string, polls: nat -> Poll, clock: nat -> int,
                   deadline: int, n: nat)
    requires PolledTrace(sent, at, task, polls, clock, deadline, n)
    ensures |sent| == |Announced(polls, n)| + 2
    ensures sent[0] == Message(at, Working)
    ensures forall i :: 0 < i < |sent| - 1 ==>
              var p := Announced(polls, n)[i - 1]; sent[i] == Message(at, AskApproval(task, p.approvalId, p.tool))
    ensures sent[|sent| - 1].thread == at && Ends(sent[|sent| - 1].post)
  {
    var asks := Asks(at, task, Announced(polls, n));
    AsksAt(at, task, Announced(polls, n));
    assert sent == [Message(at, Working)] + asks + [sent[|sent| - 1]];
    assert forall i :: 0 < i < |sent| - 1 ==> sent[i] == asks[i - 1];
  }

  /** First the acknowledgement; at the end exactly one of done, failed or timed out; between them only
      requests for approval; all of it in the thread of the request. */
  lemma PostsInOrder(sent: seq<Message>, at: Thread, task: string, polls: nat -> Poll, clock: nat -> int,
                     deadline: int, n: nat)
    requires PolledTrace(sent, at, task, polls, clock, deadline, n)
    ensures |sent| >= 2 && sent[0].post == Working && Ends(sent[|sent| - 1].post)
    ensures forall i :: 0 < i < |sent| - 1 ==> sent[i].post.AskApproval? && sent[i].post.task == task
    ensures forall i :: 0 <= i < |sent| ==> sent[i].thread == at
  {
    TraceShape(sent, at, task, polls, clock, deadline, n);
  }

  /** An approval is posted, with its id and tool, if and only if the first poll that shows the id pending
      shows it for that tool. */
  lemma ApprovalPostedIffShown(sent: seq<Message>, at: Thread, task: string, polls: nat -> Poll, clock: nat -> int,
                               deadline: int, n: nat, id: string, tool: string)
    requires PolledTrace(sent, at, task, polls, clock, deadline, n)
    ensures Message(at, AskApproval(task, id, tool)) in sent <==>
            exists k: nat :: k < n && FirstShown(polls, k, id, tool)
  {
    TraceShape(sent, at, task, polls, clock, deadline, n);
    var announced := Announced(polls, n);
    if Message(at, AskApproval(task, id, tool)) in sent {
      var i :| 0 <= i < |sent| && sent[i] == Message(at, AskApproval(task, id, tool));
      assert 0 < i < |sent| - 1;
      var k := AnnouncedWasFirstShown(polls, n, i - 1);
    }
    if exists k: nat :: k < n && FirstShown(polls, k, id, tool) {
      var k: nat :| k < n && FirstShown(polls, k, id, tool);
      FirstShownIsAnnounced(polls, n, k, id, tool);
      var i :| 0 <= i < |announced| && announced[i] == PendingApproval(tool, id);
      assert sent[i + 1] == Message(at, AskApproval(task, id, tool));
    }
  }

  /** Approvals are posted in the order they were first shown, so none is posted twice. */
  lemma ApprovalsPostedInTurn(sent: seq<Message>, at: Thread, task: string, polls: nat -> Poll, clock: nat -> int,
                              deadline: int, n: nat, i: nat, j: nat)
    requires PolledTrace(sent, at, task, polls, clock, deadline, n)
    requires i < j < |sent| && sent[i].post.AskApproval? && sent[j].post.AskApproval?
    ensures ShownInTurn(polls, n, sent[i].post.approvalId, sent[i].post.tool,
                        sent[j].post.approvalId, sent[j].post.tool)
    ensures sent[i].post.approvalId != sent[j].post.approvalId
  {
    TraceShape(sent, at, task, polls, clock, deadline, n);
    assert 0 < i && j < |sent| - 1;
    AnnouncedInTurn(polls, n, i - 1, j - 1);
  }

  /** The text of the latest error event, or "task failed" without one. */
  ghost predicate IsErrorText(events: seq<Event>, text: string) {
    || (text == "task failed" && forall i :: 0 <= i < |events| ==> events[i].kind != ErrorKind)
    || exists i :: 0 <= i < |events| && events[i].kind == ErrorKind && events[i].text == text &&
                   forall j :: i < j < |events| ==> events[j].kind != ErrorKind
  }

  lemma {:induction false} LastErrorTextMeans(events: seq<Event>) returns (i: nat)
    requires HasError(events)
    ensures i < |events| && events[i].kind == ErrorKind && events[i].text == LastErrorText(events)
    ensures forall j :: i < j < |events| ==> events[j].kind != ErrorKind
  {
    var n := |events| - 1;
    if events[n].kind.ErrorKind? {
      i := n;
    } else {
      var e :| e in events && e.kind.ErrorKind?;
      assert e in events[..n];
      i := LastErrorTextMeans(events[..n]);
      assert forall j :: 0 <= j < n ==> events[j] == events[..n][j];
    }
  }

  /** The ending: the output if the last poll found the task done, its latest error if it found it failed,
      and a timeout if no poll before the deadline found it either. */
  lemma EndingTellsTheLastPoll(sent: seq<Message>, at: Thread, task: string, polls: nat -> Poll, clock: nat -> int,
                               deadline: int, n: nat)
    requires PolledTrace(sent, at, task, polls, clock, deadline, n)
    ensures sent != []
    ensures match sent[|sent| - 1].post
            case TaskDone(output) =>
              && n > 0 && polls(n - 1).Got? && polls(n - 1).snapshot.status == Done
              && var result := polls(n - 1).snapshot.result;
              output == if result.Some? then result.value.output else ""
            case TaskFailed(error) =>
              && n > 0 && polls(n - 1).Got? && polls(n - 1).snapshot.status == Failed
              && IsErrorText(polls(n - 1).snapshot.events, error)
            case TimedOut =>
              && clock(n) >= deadline
              && forall k: nat :: k < n ==>
                   clock(k) < deadline && !(polls(k).Got? && polls(k).snapshot.status in {Done, Failed})
            case _ => false
  {
    TraceShape(sent, at, task, polls, clock, deadline, n);
    if n > 0 && Terminal(polls(n - 1)) && HasError(polls(n - 1).snapshot.events) {
      var i := LastErrorTextMeans(polls(n - 1).snapshot.events);
    }
  }

  // ---------------------------------------------------------------------------------------------
  // Against the run of the task polled
  // ---------------------------------------------------------------------------------------------

  lemma RequestedLater(schedule: seq<TaskProtocol.Action>, m: nat, tool: string, id: string)
    requires m <= |schedule| && TaskTrace.AskedOrEmitted(schedule[..m], tool, id)
    ensures TaskTrace.AskedOrEmitted(schedule, tool, id)
  {
    var i :| 0 <= i < m &&
             (schedule[..m][i] == TaskProtocol.Ask(tool, id) ||
              (schedule[..m][i].Emit? && schedule[..m][i].event.kind == ApprovalRequired &&
               schedule[..m][i].event.tool == tool && schedule[..m][i].event.approvalId == id));
    assert schedule[i] == schedule[..m][i];
  }

  /** Every approval posted for a task is one its engine called Approve with, that tool and that id, or one
      it emitted itself. */
  lemma PostedApprovalWasRequested(sent: seq<Message>, at: Thread, task: string, polls: nat -> Poll,
                                   clock: nat -> int, deadline: int, n: nat, schedule: seq<TaskProtocol.Action>,
                                   moment: nat -> nat, id: string, tool: string)
    requires PolledTrace(sent, at, task, polls, clock, deadline, n) && PollsOfRun(polls, n, schedule, moment)
    requires Message(at, AskApproval(task, id, tool)) in sent
    ensures TaskTrace.AskedOrEmitted(schedule, tool, id)
  {
    ApprovalPostedIffShown(sent, at, task, polls, clock, deadline, n, id, tool);
    var k: nat :| k < n && FirstShown(polls, k, id, tool);
    var upTo := schedule[..moment(k)];
    TaskTrace.PendingWasRequested(upTo, TaskProtocol.After(TaskProtocol.INIT, upTo).value);
    RequestedLater(schedule, moment(k), tool, id);
  }

  /** What Slack finally posts is what the task's engine returned: its output, or its error. */
  lemma EndingIsWhatTheEngineReturned(sent: seq<Message>, at: Thread, task: string, polls: nat -> Poll,
                                      clock: nat -> int, deadline: int, n: nat,
                                      schedule: seq<TaskProtocol.Action>, moment: nat -> nat)
    requires PolledTrace(sent, at, task, polls, clock, deadline, n) && PollsOfRun(polls, n, schedule, moment)
    requires sent != [] && (sent[|sent| - 1].post.TaskDone? || sent[|sent| - 1].post.TaskFailed?)
    ensures n > 0 && moment(n - 1) <= |schedule|
    ensures var (returned, post) := (TaskTrace.ReturnedOf(schedule[..moment(n - 1)]), sent[|sent| - 1].post);
            && returned.Some?
            && (post.TaskDone? ==> returned.value.err.None? && post.output == returned.value.result.output)
            && (post.TaskFailed? ==> returned.value.err == Some(post.error))
  {
    EndingTellsTheLastPoll(sent, at, task, polls, clock, deadline, n);
    var upTo := schedule[..moment(n - 1)];
    var s := TaskProtocol.After(TaskProtocol.INIT, upTo).value;
    TaskTrace.TerminalSnapshotTellsTheRun(upTo, s);
    var o := TaskTrace.ReturnedOf(upTo).value;
    if sent[|sent| - 1].post.TaskFailed? {
      OnlyErrorText(TaskTrace.Streamed(upTo), o.err.value, sent[|sent| - 1].post.error);
    }
  }

  lemma OnlyErrorText(streamed: seq<Event>, error: string, text: string)
    requires IsErrorText(streamed + [Event(ErrorKind, error, "", ""), Event(DoneKind, "", "", "")], text)
    ensures text == error
  {
    var events := streamed + [Event(ErrorKind, error, "", ""), Event(DoneKind, "", "", "")];
    assert events[|streamed|].kind == ErrorKind && events[|streamed|].text == error;
    assert events[|streamed| + 1].kind == DoneKind;
  }
}
