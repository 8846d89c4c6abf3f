/** The Slack gateway's polling loop (services/slack-gateway/internal/slack/handler.go). The runtime's
    answers and the clock are streams; strings.TrimSpace is an argument. */
module Slack {
  import opened Prelude
  import opened TaskState
  import TaskProtocol
  import TaskWaits

  /** One answer of Runtime.Get. */
  datatype Poll = Got(snapshot: Snapshot) | GetFailed

  datatype Post =
    | Working
    | CouldNotStart(error: string)
    | AskApproval(task: string, approvalId: string, tool: string)
    | TaskDone(output: string)
    | TaskFailed(error: string)
    | TimedOut

  datatype Thread = Thread(channel: string, timestamp: string)

  datatype Message = Message(thread: Thread, post: Post)

  ghost predicate HasError(events: seq<Event>) {
    exists e :: e in events && e.kind.ErrorKind?
  }

  method LastError(events: seq<Event>) returns (text: string)
    ensures text == if HasError(events) then LastErrorText(events) else "task failed"
  {
    var i := |events|;
    assert events[..i] == events;
    while i > 0
      invariant 0 <= i <= |events|
      invariant LastErrorText(events) == LastErrorText(events[..i])
      invariant forall j :: i <= j < |events| ==> !events[j].kind.ErrorKind?
    {
      i := i - 1;
      assert events[..i + 1][..i] == events[..i];
      if events[i].kind.ErrorKind? {
        assert events[i] in events;
        return events[i].text;
      }
    }
    return "task failed";
  }

  predicate Terminal(p: Poll) {
    p.Got? && (p.snapshot.status == Done || p.snapshot.status == Failed)
  }

  function PendingOf(p: Poll): Option<PendingApproval> {
    if p.Got? then p.snapshot.pending else None
  }

  /** The approvals the first `n` polls showed, one per id, in the order they first appeared. */
  function Announced(polls: nat -> Poll, n: nat): seq<PendingApproval> {
    if n == 0 then [] else Announce(Announced(polls, n - 1), PendingOf(polls(n - 1)))
  }

  function Announce(before: seq<PendingApproval>, shown: Option<PendingApproval>): seq<PendingApproval> {
    if shown.Some? && shown.value.approvalId !in Ids(before) then before + [shown.value] else before
  }

  function Ids(pendings: seq<PendingApproval>): set<string> {
    set p | p in pendings :: p.approvalId
  }

  function Asks(at: Thread, task: string, pendings: seq<PendingApproval>): seq<Message> {
    if pendings == [] then []
    else
      var n := |pendings| - 1;
      Asks(at, task, pendings[..n]) + [Ask(at, task, pendings[n])]
  }

  function Ask(at: Thread, task: string, p: PendingApproval): Message {
    Message(at, AskApproval(task, p.approvalId, p.tool))
  }

  /** The post a terminal poll leads to. */
  ghost function Verdict(p: Poll): Post
    requires Terminal(p)
  {
    var s := p.snapshot;
    if s.status == Done then TaskDone(if s.result.Some? then s.result.value.output else "")
    else TaskFailed(if HasError(s.events) then LastErrorText(s.events) else "task failed")
  }

  /** What a task that started has posted after `n` polls: the acknowledgement and the approvals. */
  function Opening(at: Thread, task: string, polls: nat -> Poll, n: nat): seq<Message> {
    [Message(at, Working)] + Asks(at, task, Announced(polls, n))
  }

  /** The loop made `n` polls before the deadline, none but the last terminal; `sent` is the whole trace:
      the opening, then one verdict or a timeout, all in one thread. */
  ghost predicate PolledTrace(sent: seq<Message>, at: Thread, task: string, polls: nat -> Poll, clock: nat -> int,
                              deadline: int, n: nat)
  {
    && (forall k: nat :: k < n ==> clock(k) < deadline)
    && (forall k: nat :: k < n - 1 ==> !Terminal(polls(k)))
    && (if n > 0 && Terminal(polls(n - 1))
        then sent == Opening(at, task, polls, n) + [Message(at, Verdict(polls(n - 1)))]
        else clock(n) >= deadline && sent == Opening(at, task, polls, n) + [Message(at, TimedOut)])
  }

  ghost predicate Ticks(clock: nat -> int, every: int, k: nat) {
    clock(k + 1) >= clock(k) + every
  }

  /** The post a poll ends the loop with, if it does. */
  method Conclude(poll: Poll) returns (verdict: Option<Post>)
    ensures verdict == if Terminal(poll) then Some(Verdict(poll)) else None
  {
    if poll.GetFailed? {
      return None;
    }
    var snap := poll.snapshot;
    if snap.status == Done {
      var output := "";
      if snap.result.Some? {
        output := snap.result.value.output;
      }
      return Some(TaskDone(output));
    }
    if snap.status == Failed {
      var error := LastError(snap.events);
      return Some(TaskFailed(error));
    }
    return None;
  }

  /** The posts of one task, in order (the Poster's errors are ignored). `started` is the clock when the
      deadline is set, `clock(k)` its reading at the k-th check; a sleep between checks lasts at least
      `pollEvery`. Blank text posts nothing; a refused submission posts exactly the acknowledgement and
      the refusal. `made` is the number of polls. */
  method RunTask(at: Thread, text: string, submitted: Result<string, string>, polls: nat -> Poll,
                 started: int, clock: nat -> int, pollEvery: int, pollFor: int, trim: string -> string)
    returns (sent: seq<Message>, made: nat)
    requires pollEvery > 0 && forall k: nat :: Ticks(clock, pollEvery, k)
    ensures trim(text) == "" ==> sent == []
    ensures trim(text) != "" && submitted.Err? ==>
              sent == [Message(at, Working), Message(at, CouldNotStart(submitted.error))]
    ensures trim(text) != "" && submitted.Ok? ==>
              PolledTrace(sent, at, submitted.value, polls, clock, started + pollFor, made)
  {
    sent, made := [], 0;
    if trim(text) == "" {
      return;
    }
    sent := sent + [Message(at, Working)];
    if submitted.Err? {
      sent := sent + [Message(at, CouldNotStart(submitted.error))];
      return;
    }
    sent, made := PollUntil(at, submitted.value, polls, started + pollFor, clock, pollEvery);
  }

  /** The polling loop; the acknowledgement has been posted. */
  method PollUntil(at: Thread, task: string, polls: nat -> Poll, deadline: int, clock: nat -> int, pollEvery: int)
    returns (sent: seq<Message>, made: nat)
    requires pollEvery > 0 && forall k: nat :: Ticks(clock, pollEvery, k)
    ensures PolledTrace(sent, at, task, polls, clock, deadline, made)
  {
    sent, made := [Message(at, Working)], 0;
    var posted: set<string> := {};
    while clock(made) < deadline
      invariant StillPolling(sent, posted, at, task, polls, clock, deadline, made)
      decreases deadline - clock(made)
    {
      var poll := polls(made);
      PollAdvances(sent, posted, at, task, polls, clock, deadline, made);
      if poll.Got? && poll.snapshot.pending.Some? && poll.snapshot.pending.value.approvalId !in posted {
        var p := poll.snapshot.pending.value;
        posted := posted + {p.approvalId};
        sent := sent + [Ask(at, task, p)];
      }
      var verdict := Conclude(poll);
      assert Ticks(clock, pollEvery, made);
      made := made + 1;
      if verdict.Some? {
        sent := sent + [Message(at, verdict.value)];
        return;
      }
    }
    DeadlineEnds(sent, posted, at, task, polls, clock, deadline, made);
    sent := sent + [Message(at, TimedOut)];
  }

  ghost predicate StillPolling(sent: seq<Message>, posted: set<string>, at: Thread, task: string,
                               polls: nat -> Poll, clock: nat -> int, deadline: int, n: nat)
  {
    && (forall j: nat :: j < n ==> clock(j) < deadline && !Terminal(polls(j)))
    && posted == Ids(Announced(polls, n))
    && sent == Opening(at, task, polls, n)
  }

  /** One poll: its approval is announced if it is new, and a terminal one leads to its verdict. */
  lemma PollAdvances(sent: seq<Message>, posted: set<string>, at: Thread, task: string,
                     polls: nat -> Poll, clock: nat -> int, deadline: int, n: nat)
    requires StillPolling(sent, posted, at, task, polls, clock, deadline, n) && clock(n) < deadline
    ensures var shown := PendingOf(polls(n));
            var isNew := shown.Some? && shown.value.approvalId !in posted;
            var sent1 := if isNew then sent + [Ask(at, task, shown.value)] else sent;
            var posted1 := if isNew then posted + {shown.value.approvalId} else posted;
            if Terminal(polls(n))
            then PolledTrace(sent1 + [Message(at, Verdict(polls(n)))], at, task, polls, clock, deadline, n + 1)
            else StillPolling(sent1, posted1, at, task, polls, clock, deadline, n + 1)
  {
    OpeningGrows(at, task, polls, n);
  }

  lemma DeadlineEnds(sent: seq<Message>, posted: set<string>, at: Thread, task: string,
                     polls: nat -> Poll, clock: nat -> int, deadline: int, n: nat)
    requires StillPolling(sent, posted, at, task, polls, clock, deadline, n) && clock(n) >= deadline
    ensures PolledTrace(sent + [Message(at, TimedOut)], at, task, polls, clock, deadline, n)
  {}

  lemma OpeningGrows(at: Thread, task: string, polls: nat -> Poll, n: nat)
    ensures var (before, shown) := (Announced(polls, n), PendingOf(polls(n)));
            if shown.Some? && shown.value.approvalId !in Ids(before) then
              && Opening(at, task, polls, n + 1) == Opening(at, task, polls, n) + [Ask(at, task, shown.value)]
              && Ids(Announced(polls, n + 1)) == Ids(before) + {shown.value.approvalId}
            else Announced(polls, n + 1) == before
  {
    var before, shown := Announced(polls, n), PendingOf(polls(n));
    if shown.Some? {
      AsksSnoc(at, task, before, shown.value);
    }
  }

  lemma AsksSnoc(at: Thread, task: string, pendings: seq<PendingApproval>, p: PendingApproval)
    ensures Asks(at, task, pendings + [p]) == Asks(at, task, pendings) + [Ask(at, task, p)]
    ensures Ids(pendings + [p]) == Ids(pendings) + {p.approvalId}
  {
    assert (pendings + [p])[..|pendings|] == pendings;
    forall id ensures id in Ids(pendings + [p]) <==> id in Ids(pendings) + {p.approvalId} {
      if id == p.approvalId {
        assert p in pendings + [p];
      }
      assert forall q :: q in pendings + [p] <==> q in pendings || q == p;
    }
  }

  /** Announcements only grow with further polls, so they stand in first-seen order. */
  lemma {:induction false} AnnouncementsOnlyGrow(polls: nat -> Poll, m: nat, n: nat)
    requires m <= n
    ensures Announced(polls, m) <= Announced(polls, n)
  {
    if m < n {
      AnnouncementsOnlyGrow(polls, m, n - 1);
    }
  }

  /** No approval id is announced twice. */
  lemma {:induction false} AnnouncedOnce(polls: nat -> Poll, n: nat)
    ensures forall i, j :: 0 <= i < j < |Announced(polls, n)| ==>
              Announced(polls, n)[i].approvalId != Announced(polls, n)[j].approvalId
  {
    if n > 0 {
      AnnouncedOnce(polls, n - 1);
      var before := Announced(polls, n - 1);
      forall i | 0 <= i < |before| ensures before[i].approvalId in Ids(before) {
        assert before[i] in before;
      }
    }
  }

  /** An approval id is announced exactly if some poll showed it pending. */
  lemma {:induction false} AnnouncedIffShown(polls: nat -> Poll, n: nat, id: string)
    ensures id in Ids(Announced(polls, n)) <==>
            exists k: nat :: k < n && PendingOf(polls(k)).Some? && PendingOf(polls(k)).value.approvalId == id
  {
    if n > 0 {
      AnnouncedIffShown(polls, n - 1, id);
      var before, shown := Announced(polls, n - 1), PendingOf(polls(n - 1));
      if Announced(polls, n) != before {
        AsksSnoc(Thread("", ""), "", before, shown.value);
      }
    }
  }

  /** End to end: what Slack posts about a finished task is that run's own output or its own error,
      whatever else the engine streamed and however the approvers interleaved. */
  lemma VerdictIsTheRunsOwn(s: TaskProtocol.State)
    requires TaskProtocol.Reachable(s) && Terminal(Got(SnapshotOf(s.view)))
    ensures s.outcome.Some?
    ensures Verdict(Got(SnapshotOf(s.view))) ==
            if s.outcome.value.err.Some? then TaskFailed(s.outcome.value.err.value)
            else TaskDone(s.outcome.value.result.output)
  {
    TaskProtocol.StatusAutomaton(s);
    TaskProtocol.ManagerSeesTheStream(s);
    var o := s.outcome.value;
    if o.err.Some? {
      TaskProtocol.ReportIsLastError(s.streamed, o);
      var events := s.streamed + [TaskProtocol.ReportEvent(o), TaskProtocol.DONE_EVENT];
      assert events[|s.streamed|] == TaskProtocol.ReportEvent(o);
      assert TaskProtocol.ReportEvent(o) in events;
    }
  }

  /** The successful polls are snapshots of one task, taken at moments of its run `schedule`. */
  ghost predicate PollsOfRun(polls: nat -> Poll, n: nat, schedule: seq<TaskProtocol.Action>, moment: nat -> nat) {
    forall k: nat :: k < n && polls(k).Got? ==>
      && moment(k) <= |schedule|
      && var s := TaskProtocol.After(TaskProtocol.INIT, schedule[..moment(k)]);
      s.Some? && polls(k).snapshot == SnapshotOf(s.value.view)
  }

  lemma {:induction false} AnnouncedWasShown(polls: nat -> Poll, n: nat, p: PendingApproval)
    requires p in Announced(polls, n)
    ensures exists k: nat :: k < n && PendingOf(polls(k)) == Some(p)
  {
    if p in Announced(polls, n - 1) {
      AnnouncedWasShown(polls, n - 1, p);
    } else {
      assert PendingOf(polls(n - 1)) == Some(p);
    }
  }

  /** Every approval Slack posts for a task was asked for by that task's engine, with that tool. */
  lemma AnnouncedWereAsked(polls: nat -> Poll, n: nat, schedule: seq<TaskProtocol.Action>, moment: nat -> nat,
                           p: PendingApproval)
    requires TaskProtocol.After(TaskProtocol.INIT, schedule).Some? && PollsOfRun(polls, n, schedule, moment)
    requires p in Announced(polls, n)
    ensures exists e :: e in TaskProtocol.After(TaskProtocol.INIT, schedule).value.streamed &&
                        TaskWaits.IsAsk(e) && e.tool == p.tool && e.approvalId == p.approvalId
  {
    AnnouncedWasShown(polls, n, p);
    var k: nat :| k < n && PendingOf(polls(k)) == Some(p);
    var s := TaskProtocol.After(TaskProtocol.INIT, schedule[..moment(k)]).value;
    TaskWaits.PendingWasAsked(s);
    TaskWaits.StreamedGrows(schedule, moment(k));
  }
}
