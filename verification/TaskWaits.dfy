/** What a task shows of its engine's wait: the pending approval of runtime/internal/server/server.go
    against the Approve hook of runtime/runtime.go, over whole schedules. */
module TaskWaits {
  import opened Prelude
  import opened TaskState
  import opened TaskProtocol

  predicate IsAsk(e: Event) {
    e.kind.ApprovalRequired?
  }

  /** The approval the latest approval event asks for, if there is one. */
  function LastAsk(events: seq<Event>): Option<PendingApproval> {
    if events == [] then None
    else
      var e := events[|events| - 1];
      if IsAsk(e) then Some(PendingApproval(e.tool, e.approvalId)) else LastAsk(events[..|events| - 1])
  }

  lemma LastAskSnoc(events: seq<Event>, e: Event)
    ensures LastAsk(events + [e]) == if IsAsk(e) then Some(PendingApproval(e.tool, e.approvalId)) else LastAsk(events)
  {
    assert (events + [e])[..|events|] == events;
  }

  lemma {:induction false} LastAskIsAnEvent(events: seq<Event>)
    requires LastAsk(events).Some?
    ensures var p := LastAsk(events).value;
            exists e :: e in events && IsAsk(e) && e.tool == p.tool && e.approvalId == p.approvalId
  {
    var n := |events| - 1;
    if IsAsk(events[n]) {
      assert events[n] in events;
    } else {
      LastAskIsAnEvent(events[..n]);
    }
  }

  /** Some approver's reply came after everything the drain appended. */
  ghost predicate RepliedSinceAppend(schedule: seq<Action>) {
    exists i :: 0 <= i < |schedule| && schedule[i].Reply? && forall j :: i < j < |schedule| ==> !schedule[j].Append?
  }

  lemma RepliedBefore(schedule: seq<Action>, a: Action)
    requires RepliedSinceAppend(schedule + [a]) && !a.Reply?
    ensures RepliedSinceAppend(schedule) && !a.Append?
  {
    var n, all := |schedule|, schedule + [a];
    var i :| 0 <= i < |all| && all[i].Reply? && forall j :: i < j < |all| ==> !all[j].Append?;
    assert all[n] == a;
    assert schedule[i].Reply?;
    assert forall j :: i < j < n ==> schedule[j] == all[j];
  }

  lemma RepliedSnoc(schedule: seq<Action>, a: Action)
    ensures RepliedSinceAppend(schedule + [a]) <==> a.Reply? || (RepliedSinceAppend(schedule) && !a.Append?)
  {
    var n, all := |schedule|, schedule + [a];
    if a.Reply? {
      assert all[n].Reply?;
    } else if RepliedSinceAppend(all) {
      RepliedBefore(schedule, a);
    } else if RepliedSinceAppend(schedule) {
      var i :| 0 <= i < n && schedule[i].Reply? && forall j :: i < j < n ==> !schedule[j].Append?;
      assert all[i].Reply? && forall j :: i < j < n ==> !all[j].Append?;
    }
  }

  // ---------------------------------------------------------------------------------------------
  // The engine's side and the manager's side
  // ---------------------------------------------------------------------------------------------

  /** An engine that waits has just streamed the approval it waits for. */
  ghost predicate WaitsForLast(s: State) {
    s.engine.Waiting? ==>
      && s.streamed != []
      && IsAsk(s.streamed[|s.streamed| - 1])
      && s.streamed[|s.streamed| - 1].approvalId == s.engine.id
  }

  lemma WaitsStep(s: State, a: Action)
    requires WaitsForLast(s) && Enabled(s, a)
    ensures WaitsForLast(Next(s, a))
  {}

  /** A pending approval is the latest one the manager saw. While the drain runs, a latest event that asks
      for approval is shown, unless a reply came after it. */
  ghost predicate Shown(v: View, finished: bool, replied: bool) {
    && (v.pending.Some? ==> v.pending == LastAsk(v.events))
    && (replied ==> v.status != AwaitingApproval)
    && (!replied && !finished && v.events != [] && IsAsk(v.events[|v.events| - 1]) ==> v.status == AwaitingApproval)
  }

  lemma AppendIsShown(v: View, e: Event, replied: bool)
    requires Shown(v, false, replied)
    ensures Shown(Absorb(v, e), false, false)
  {
    LastAskSnoc(v.events, e);
  }

  lemma ReplyIsShown(v: View, finished: bool, replied: bool)
    requires Shown(v, finished, replied)
    ensures Shown(Resolve(v), finished, true)
  {}

  lemma ConcludeIsShown(v: View, o: RunOutcome, replied: bool)
    requires Shown(v, false, replied)
    ensures Shown(Finish(v, o), true, replied)
  {}

  lemma KeepsView(s: State, a: Action)
    requires Enabled(s, a) && !a.Append? && !a.Reply? && !a.Conclude?
    ensures Next(s, a).view == s.view && Next(s, a).drainer.Finished? == s.drainer.Finished?
  {}

  lemma ShownStep(s: State, a: Action, replied: bool)
    requires Shown(s.view, s.drainer.Finished?, replied) && Enabled(s, a)
    ensures var s1 := Next(s, a);
            Shown(s1.view, s1.drainer.Finished?, a.Reply? || (replied && !a.Append?))
  {
    if a.Append? {
      AppendIsShown(s.view, s.drainer.event, replied);
    } else if a.Reply? {
      ReplyIsShown(s.view, s.drainer.Finished?, replied);
    } else if a.Conclude? {
      ConcludeIsShown(s.view, s.drainer.outcome, replied);
    } else {
      KeepsView(s, a);
    }
  }

  lemma {:induction false} ShownAlways(schedule: seq<Action>)
    requires After(INIT, schedule).Some?
    ensures var s := After(INIT, schedule).value;
            WaitsForLast(s) && Shown(s.view, s.drainer.Finished?, RepliedSinceAppend(schedule))
  {
    if schedule != [] {
      var before, a := schedule[..|schedule| - 1], schedule[|schedule| - 1];
      var s := After(INIT, before).value;
      ShownAlways(before);
      WaitsStep(s, a);
      ShownStep(s, a, RepliedSinceAppend(before));
      RepliedSnoc(before, a);
      assert before + [a] == schedule;
    }
  }

  // ---------------------------------------------------------------------------------------------
  // When a wait shows
  // ---------------------------------------------------------------------------------------------

  /** The drain has taken and appended everything the engine streamed. */
  predicate CaughtUp(s: State) {
    s.drainer.Receiving? && s.events == []
  }

  /** In every schedule, once the drain has caught up with an engine that waits, the task shows the wait
      if and only if no reply, to whichever approval, came after the last appended event; and what it
      then shows is the approval the engine waits for. */
  lemma WaitShowsIffNoReplySince(schedule: seq<Action>, s: State)
    requires After(INIT, schedule) == Some(s) && s.engine.Waiting? && CaughtUp(s)
    ensures s.view.status == AwaitingApproval <==> !RepliedSinceAppend(schedule)
    ensures s.view.status == AwaitingApproval ==>
              s.view.pending.Some? && s.view.pending.value.approvalId == s.engine.id
  {
    ShownAlways(schedule);
    CaughtUpSawAll(s);
  }

  lemma CaughtUpSawAll(s: State)
    requires Reachable(s) && s.engine.Waiting? && CaughtUp(s)
    ensures s.view.events == s.streamed
    ensures s.view.pending.Some? <==> s.view.status == AwaitingApproval
  {
    ReachableInv(s);
    ManagerSeesTheStream(s);
    assert s.view.events + [] + [] == s.view.events && s.streamed + [] == s.streamed;
  }

  /** In every reachable state a pending approval is the latest one the manager saw, and the engine did
      ask for it. */
  lemma PendingWasAsked(s: State)
    requires Reachable(s) && s.view.pending.Some?
    ensures s.view.pending == LastAsk(s.view.events)
    ensures var p := s.view.pending.value;
            exists e :: e in s.streamed && IsAsk(e) && e.tool == p.tool && e.approvalId == p.approvalId
  {
    var schedule :| After(INIT, schedule) == Some(s);
    ShownAlways(schedule);
    ManagerSeesTheStream(s);
    LastAskIsAnEvent(s.view.events);
    var p := s.view.pending.value;
    var e :| e in s.view.events && IsAsk(e) && e.tool == p.tool && e.approvalId == p.approvalId;
    assert e in s.streamed + Tail(s);
    assert e !in Tail(s);
  }

  /** What the engine streamed by any moment of a schedule is what it streamed first. */
  lemma {:induction false} StreamedGrows(schedule: seq<Action>, m: nat)
    requires m <= |schedule| && After(INIT, schedule).Some?
    ensures After(INIT, schedule[..m]).Some?
    ensures After(INIT, schedule[..m]).value.streamed <= After(INIT, schedule).value.streamed
  {
    if m == |schedule| {
      assert schedule[..m] == schedule;
    } else {
      var n := |schedule| - 1;
      StreamedGrows(schedule[..n], m);
      assert schedule[..n][..m] == schedule[..m];
      StepStreams(After(INIT, schedule[..n]).value, schedule[n]);
    }
  }

  lemma StepStreams(s: State, a: Action)
    requires Enabled(s, a)
    ensures s.streamed <= Next(s, a).streamed
  {}

  /** A reply to the only approval decided, which fitted it, can come so late that it hides the wait for
      the next one: the engine waits for "b", the drain has caught up, and the task shows "running". */
  lemma LateReplyHidesTheNextWait() returns (s: State)
    ensures Reachable(s) && s.engine == Waiting("b") && CaughtUp(s)
    ensures s.view.status == Running && s.view.pending.None?
    ensures s.accepted == [Decision("a", true, "someone")] && s.fates == [Served(0)]
  {
    s := NextApprovalShown();
    s := Go(s, Reply(0));
  }

  /** The engine asked for "b" next, and the manager shows it. */
  lemma NextApprovalShown() returns (s: State)
    ensures Reachable(s) && s.engine == Waiting("b") && CaughtUp(s) && s.view.status == AwaitingApproval
    ensures 0 in s.approvers && s.approvers[0] == Accepted
    ensures s.accepted == [Decision("a", true, "someone")] && s.fates == [Served(0)]
  {
    s := FirstApprovalServed();
    s := Go(s, Ask("tool", "b"));
    s := Go(s, AskSend);
    s := Go(s, Take);
    s := Go(s, Append);
  }

  /** The engine asked for "a", got it, and goes on; the approver has not replied yet. */
  lemma FirstApprovalServed() returns (s: State)
    ensures Reachable(s) && s.engine.Computing? && CaughtUp(s)
    ensures 0 in s.approvers && s.approvers[0] == Accepted
    ensures s.accepted == [Decision("a", true, "someone")] && s.fates == [Served(0)]
  {
    s := FirstApprovalShown();
    s := Go(s, Arrive(0, Decision("a", true, "someone")));
    s := Go(s, Accept(0));
    s := Go(s, Receive);
  }

  lemma FirstApprovalShown() returns (s: State)
    ensures Reachable(s) && s.engine == Waiting("a") && CaughtUp(s)
    ensures s.approvers == map[] && s.decisions == s.accepted == [] && s.fates == [] && s.answers == []
  {
    InitIsReachable();
    s := Go(INIT, Ask("tool", "a"));
    s := Go(s, AskSend);
    s := Go(s, Take);
    s := Go(s, Append);
  }
}
