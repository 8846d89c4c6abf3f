/** A task told from its schedule: what the engine streamed, which approvals it asked for, which decisions
    were accepted and what it returned, read off the actions alone (runtime/runtime.go,
    runtime/agentruntime.go, runtime/internal/server/server.go). */
module TaskTrace {
  import opened Prelude
  import opened TaskState
  import opened TaskProtocol
  import opened TaskWaits

  // ---------------------------------------------------------------------------------------------
  // Reading a schedule
  // ---------------------------------------------------------------------------------------------

  /** The hook call the engine made last. */
  function LastHook(schedule: seq<Action>): Option<Action> {
    if schedule == [] then None
    else
      var a := schedule[|schedule| - 1];
      if a.Emit? || a.Ask? then Some(a) else LastHook(schedule[..|schedule| - 1])
  }

  /** The event a hook call puts on the stream: an emitted one as it is, an approval request with the tool
      and the id it was asked with. */
  function EventOf(hook: Action): Event
    requires hook.Emit? || hook.Ask?
  {
    match hook
    case Emit(e) => e
    case Ask(tool, id) => Event(ApprovalRequired, "", tool, id)
  }

  /** What the engine streamed: the events of the hook calls whose send went through, in order. */
  function Streamed(schedule: seq<Action>): seq<Event> {
    if schedule == [] then []
    else
      var before, a := schedule[..|schedule| - 1], schedule[|schedule| - 1];
      Streamed(before) +
      if (a.EmitSend? || a.AskSend?) && IsHook(LastHook(before)) then [EventOf(LastHook(before).value)] else []
  }

  predicate IsHook(hook: Option<Action>) {
    hook.Some? && (hook.value.Emit? || hook.value.Ask?)
  }

  /** The ids asked for, one for each call of Approve. */
  function AskedIds(schedule: seq<Action>): seq<string> {
    if schedule == [] then []
    else
      var before, a := schedule[..|schedule| - 1], schedule[|schedule| - 1];
      AskedIds(before) + if a.Ask? then [a.id] else []
  }

  function ReturnedOf(schedule: seq<Action>): Option<RunOutcome> {
    if schedule == [] then None
    else
      var a := schedule[|schedule| - 1];
      if a.Return? then Some(a.outcome) else ReturnedOf(schedule[..|schedule| - 1])
  }

  /** The decision approver `who` arrived with. */
  function DecisionOf(schedule: seq<Action>, who: nat): Option<Decision> {
    if schedule == [] then None
    else
      var a := schedule[|schedule| - 1];
      if a.Arrive? && a.who == who then Some(a.decision) else DecisionOf(schedule[..|schedule| - 1], who)
  }

  /** The decisions whose ResolveApproval call put them in the buffer, in order. */
  function AcceptedOf(schedule: seq<Action>): seq<Decision> {
    if schedule == [] then []
    else
      var before, a := schedule[..|schedule| - 1], schedule[|schedule| - 1];
      AcceptedOf(before) +
      if a.Accept? && DecisionOf(before, a.who).Some? then [DecisionOf(before, a.who).value] else []
  }

  // ---------------------------------------------------------------------------------------------
  // The state agrees with the schedule
  // ---------------------------------------------------------------------------------------------

  /** The engine is in the hook call it made last. */
  ghost predicate InHook(s: State, hook: Option<Action>) {
    match s.engine
    case Emitting(e) => hook == Some(Emit(e))
    case Asking(tool, id) => hook == Some(Ask(tool, id))
    case Waiting(id) =>
      && hook.Some? && hook.value.Ask? && hook.value.id == id
      && s.streamed != [] && s.streamed[|s.streamed| - 1] == EventOf(hook.value)
    case _ => true
  }

  predicate Blocked(e: Engine) {
    e.Asking? || e.Waiting?
  }

  /** The Approve calls that returned are the ones made, but for the one the engine is in. */
  ghost predicate AnswersFollow(s: State, asked: seq<string>) {
    && |asked| == |s.answers| + (if Blocked(s.engine) then 1 else 0)
    && (forall k :: 0 <= k < |s.answers| ==> s.answers[k].id == asked[k])
    && (Blocked(s.engine) ==> asked[|s.answers|] == s.engine.id)
  }

  ghost predicate SendersFollow(s: State, schedule: seq<Action>) {
    forall who :: IsSending(s, who) ==> DecisionOf(schedule, who) == Some(s.approvers[who].decision)
  }

  lemma HookStep(s: State, a: Action, hook: Option<Action>)
    requires InHook(s, hook) && Enabled(s, a)
    ensures InHook(Next(s, a), if a.Emit? || a.Ask? then Some(a) else hook)
  {}

  predicate Streams(a: Action) {
    a.EmitSend? || a.AskSend?
  }

  lemma StreamedStep(s: State, a: Action, hook: Option<Action>)
    requires InHook(s, hook) && Enabled(s, a)
    ensures Streams(a) ==> IsHook(hook) && Next(s, a).streamed == s.streamed + [EventOf(hook.value)]
    ensures !Streams(a) ==> Next(s, a).streamed == s.streamed
  {}

  lemma AnswersStep(s: State, a: Action, asked: seq<string>)
    requires AnswersFollow(s, asked) && Enabled(s, a)
    ensures AnswersFollow(Next(s, a), if a.Ask? then asked + [a.id] else asked)
  {}

  lemma OutcomeStep(s: State, a: Action)
    requires Enabled(s, a)
    ensures Next(s, a).outcome == if a.Return? then Some(a.outcome) else s.outcome
  {}

  lemma SendersStep(s: State, a: Action, schedule: seq<Action>)
    requires SendersFollow(s, schedule) && Enabled(s, a)
    ensures SendersFollow(Next(s, a), schedule + [a])
  {
    assert (schedule + [a])[..|schedule|] == schedule;
    forall who | IsSending(Next(s, a), who)
      ensures DecisionOf(schedule + [a], who) == Some(Next(s, a).approvers[who].decision)
    {
      SenderSince(s, a, who);
    }
  }

  lemma SenderSince(s: State, a: Action, who: nat)
    requires Enabled(s, a) && IsSending(Next(s, a), who)
    ensures if a.Arrive? && a.who == who then Next(s, a).approvers[who].decision == a.decision
            else IsSending(s, who) && Next(s, a).approvers[who] == s.approvers[who]
  {}

  lemma AcceptedStep(s: State, a: Action)
    requires Enabled(s, a)
    ensures Next(s, a).accepted ==
            if a.Accept? then s.accepted + [s.approvers[a.who].decision] else s.accepted
  {}

  /** In every schedule: what the engine streamed, asked, was answered and returned is what its actions
      say. */
  lemma {:induction false} StateFollowsSchedule(schedule: seq<Action>)
    requires After(INIT, schedule).Some?
    ensures var s := After(INIT, schedule).value;
            && InHook(s, LastHook(schedule))
            && s.streamed == Streamed(schedule)
            && AnswersFollow(s, AskedIds(schedule))
            && s.outcome == ReturnedOf(schedule)
  {
    if schedule != [] {
      var before, a := schedule[..|schedule| - 1], schedule[|schedule| - 1];
      var s := After(INIT, before).value;
      StateFollowsSchedule(before);
      HookStep(s, a, LastHook(before));
      StreamedStep(s, a, LastHook(before));
      AnswersStep(s, a, AskedIds(before));
      OutcomeStep(s, a);
    }
  }

  /** And the decisions accepted are those brought by the approvers whose calls the actions let through. */
  lemma {:induction false} ApproversFollowSchedule(schedule: seq<Action>)
    requires After(INIT, schedule).Some?
    ensures var s := After(INIT, schedule).value;
            SendersFollow(s, schedule) && s.accepted == AcceptedOf(schedule)
  {
    if schedule != [] {
      var before, a := schedule[..|schedule| - 1], schedule[|schedule| - 1];
      var s := After(INIT, before).value;
      ApproversFollowSchedule(before);
      SendersStep(s, a, before);
      AcceptedStep(s, a);
      assert before + [a] == schedule;
    }
  }

  // ---------------------------------------------------------------------------------------------
  // What the manager shows of it
  // ---------------------------------------------------------------------------------------------

  /** Some action of the schedule streams exactly this event. */
  ghost predicate Requested(schedule: seq<Action>, e: Event) {
    exists i :: 0 <= i < |schedule| &&
                (schedule[i] == Emit(e) || (schedule[i] == Ask(e.tool, e.approvalId) &&
                                            e == Event(ApprovalRequired, "", e.tool, e.approvalId)))
  }

  lemma {:induction false} LastHookWasMade(schedule: seq<Action>) returns (i: nat)
    requires LastHook(schedule).Some?
    ensures i < |schedule| && LastHook(schedule) == Some(schedule[i]) && IsHook(LastHook(schedule))
  {
    var n := |schedule| - 1;
    if schedule[n].Emit? || schedule[n].Ask? {
      i := n;
    } else {
      i := LastHookWasMade(schedule[..n]);
    }
  }

  /** Nothing is streamed that the engine did not emit or ask for, with that very tool and id. */
  lemma {:induction false} StreamedWasRequested(schedule: seq<Action>, e: Event)
    requires e in Streamed(schedule)
    ensures Requested(schedule, e)
  {
    var before := schedule[..|schedule| - 1];
    if e in Streamed(before) {
      StreamedWasRequested(before, e);
      var i :| 0 <= i < |before| &&
               (before[i] == Emit(e) || (before[i] == Ask(e.tool, e.approvalId) &&
                                         e == Event(ApprovalRequired, "", e.tool, e.approvalId)));
      assert schedule[i] == before[i];
    } else {
      var i := LastHookWasMade(before);
      assert schedule[i] == before[i];
      assert e == EventOf(schedule[i]);
    }
  }

  /** The engine asked for the approval, or streamed such a request itself. */
  ghost predicate AskedOrEmitted(schedule: seq<Action>, tool: string, id: string) {
    exists i :: 0 <= i < |schedule| &&
                (schedule[i] == Ask(tool, id) ||
                 (schedule[i].Emit? && schedule[i].event.kind == ApprovalRequired &&
                  schedule[i].event.tool == tool && schedule[i].event.approvalId == id))
  }

  /** A pending approval is one the engine called Approve with, tool and id, or one it emitted itself. */
  lemma PendingWasRequested(schedule: seq<Action>, s: State)
    requires After(INIT, schedule) == Some(s) && s.view.pending.Some?
    ensures AskedOrEmitted(schedule, s.view.pending.value.tool, s.view.pending.value.approvalId)
  {
    var p := s.view.pending.value;
    StateFollowsSchedule(schedule);
    PendingWasAsked(s);
    var e :| e in s.streamed && IsAsk(e) && e.tool == p.tool && e.approvalId == p.approvalId;
    StreamedWasRequested(schedule, e);
  }

  /** The engine never emits an approval request of its own. */
  predicate EmitsNoRequest(schedule: seq<Action>) {
    forall i :: 0 <= i < |schedule| && schedule[i].Emit? ==> schedule[i].event.kind != ApprovalRequired
  }

  lemma PendingWasAskedWith(schedule: seq<Action>, s: State) returns (i: nat)
    requires After(INIT, schedule) == Some(s) && s.view.pending.Some? && EmitsNoRequest(schedule)
    ensures i < |schedule| && schedule[i] == Ask(s.view.pending.value.tool, s.view.pending.value.approvalId)
  {
    PendingWasRequested(schedule, s);
    var p := s.view.pending.value;
    i :| 0 <= i < |schedule| && schedule[i] == Ask(p.tool, p.approvalId);
  }

  /** Without that condition a request may show that nobody asked for: an emitted one. */
  lemma EmittedRequestShows() returns (s: State)
    ensures Reachable(s) && s.view.pending == Some(PendingApproval("tool", "a")) && s.engine.Computing?
    ensures s.answers == [] && s.accepted == []
  {
    InitIsReachable();
    s := Go(INIT, Emit(Event(ApprovalRequired, "", "tool", "a")));
    s := Go(s, EmitSend);
    s := Go(s, Take);
    s := Go(s, Append);
  }

  lemma LatestAsk(events: seq<Event>, hook: Action, pending: Option<PendingApproval>)
    requires hook.Ask? && events != [] && events[|events| - 1] == EventOf(hook) && pending == LastAsk(events)
    ensures pending.Some? && hook == Ask(pending.value.tool, pending.value.approvalId)
  {}

  /** What a shown wait shows is the request the engine waits in, tool and id. */
  lemma WaitShowsTheRequest(schedule: seq<Action>, s: State)
    requires After(INIT, schedule) == Some(s) && s.engine.Waiting? && CaughtUp(s)
    requires s.view.status == AwaitingApproval
    ensures var p := s.view.pending;
            p.Some? && LastHook(schedule) == Some(Ask(p.value.tool, p.value.approvalId))
  {
    StateFollowsSchedule(schedule);
    WaitShowsIffNoReplySince(schedule, s);
    CaughtUpSawAll(s);
    PendingWasAsked(s);
    LatestAsk(s.streamed, LastHook(schedule).value, s.view.pending);
  }

  /** The two events that end every run: its output, or its error, and "done". */
  function Closing(o: RunOutcome): seq<Event> {
    [if o.err.Some? then Event(ErrorKind, o.err.value, "", "") else Event(Output, o.result.output, "", ""),
     Event(DoneKind, "", "", "")]
  }

  /** What a client is told of a run that ended: everything the engine streamed and the run's own end. */
  lemma TerminalSnapshotTellsTheRun(schedule: seq<Action>, s: State)
    requires After(INIT, schedule) == Some(s) && SnapshotOf(s.view).status in {Done, Failed}
    ensures ReturnedOf(schedule).Some?
    ensures var (o, snap) := (ReturnedOf(schedule).value, SnapshotOf(s.view));
            && snap.events == Streamed(schedule) + Closing(o)
            && snap.pending.None?
            && (snap.status == Done <==> o.err.None?)
            && snap.result == (if o.err.None? then Some(o.result) else None)
            && (o.err.Some? ==> snap.error == o.err.value)
  {
    StateFollowsSchedule(schedule);
    StatusAutomaton(s);
    ManagerSeesTheStream(s);
  }

  /** And of one that has not: a part of the stream from its start, no result, and a pending approval
      exactly while awaiting one, which the engine requested. */
  lemma LiveSnapshotTellsTheRun(schedule: seq<Action>, s: State)
    requires After(INIT, schedule) == Some(s) && SnapshotOf(s.view).status !in {Done, Failed}
    ensures var (o, snap) := (ReturnedOf(schedule), SnapshotOf(s.view));
            && snap.events <= Streamed(schedule) + (if o.Some? then Closing(o.value) else [])
            && snap.result.None?
            && (snap.pending.Some? <==> snap.status == AwaitingApproval)
            && (snap.pending.Some? ==> AskedOrEmitted(schedule, snap.pending.value.tool, snap.pending.value.approvalId))
  {
    StateFollowsSchedule(schedule);
    StatusAutomaton(s);
    ManagerSeesTheStream(s);
    TailIsPartOfClosing(s);
    PrefixOfPrefix(s.view.events, s.streamed, Tail(s), if s.outcome.Some? then Closing(s.outcome.value) else []);
    if s.view.pending.Some? {
      PendingWasRequested(schedule, s);
    }
  }

  lemma TailIsPartOfClosing(s: State)
    ensures Tail(s) <= if s.outcome.Some? then Closing(s.outcome.value) else []
  {}

  lemma PrefixOfPrefix(events: seq<Event>, streamed: seq<Event>, tail: seq<Event>, closing: seq<Event>)
    requires events <= streamed + tail && tail <= closing
    ensures events <= streamed + closing
  {}

  // ---------------------------------------------------------------------------------------------
  // Approvers
  // ---------------------------------------------------------------------------------------------

  lemma {:induction false} DecisionWasBrought(schedule: seq<Action>, who: nat) returns (i: nat)
    requires DecisionOf(schedule, who).Some?
    ensures i < |schedule| && schedule[i] == Arrive(who, DecisionOf(schedule, who).value)
  {
    var n := |schedule| - 1;
    if schedule[n].Arrive? && schedule[n].who == who {
      i := n;
    } else {
      i := DecisionWasBrought(schedule[..n], who);
    }
  }

  lemma {:induction false} AcceptedWasBrought(schedule: seq<Action>, p: nat) returns (i: nat, j: nat, who: nat)
    requires p < |AcceptedOf(schedule)|
    ensures i < j < |schedule|
    ensures schedule[i] == Arrive(who, AcceptedOf(schedule)[p]) && schedule[j] == Accept(who)
  {
    var n := |schedule| - 1;
    if p < |AcceptedOf(schedule[..n])| {
      i, j, who := AcceptedWasBrought(schedule[..n], p);
    } else {
      who, j := schedule[n].who, n;
      i := DecisionWasBrought(schedule[..n], who);
    }
  }

  /** A granted Approve was granted by an approver: one who arrived with a grant for its id, or for the empty
      id, and whose ResolveApproval call was accepted. */
  lemma GrantWasBrought(schedule: seq<Action>, s: State, k: nat) returns (i: nat, j: nat)
    requires After(INIT, schedule) == Some(s) && k < |s.answers| && s.answers[k].granted
    ensures i < j < |schedule| && schedule[i].Arrive? && schedule[j] == Accept(schedule[i].who)
    ensures schedule[i].decision.granted && schedule[i].decision.approvalId in {"", s.answers[k].id}
    ensures k < |AskedIds(schedule)| && s.answers[k].id == AskedIds(schedule)[k]
  {
    StateFollowsSchedule(schedule);
    ApproversFollowSchedule(schedule);
    GrantsComeFromDecisions(s, k);
    var who;
    i, j, who := AcceptedWasBrought(schedule, s.answers[k].source.value);
  }

  ghost predicate RefusedWhenDone(s: State) {
    forall who :: who in s.approvers && s.approvers[who].Refused? ==> s.doneClosed
  }

  lemma RefusedStep(s: State, a: Action)
    requires RefusedWhenDone(s) && Enabled(s, a)
    ensures RefusedWhenDone(Next(s, a))
  {}

  /** ResolveApproval returns an error only once the task has finished. */
  lemma {:induction false} RefusedOnlyWhenFinished(schedule: seq<Action>)
    requires After(INIT, schedule).Some?
    ensures RefusedWhenDone(After(INIT, schedule).value)
  {
    if schedule != [] {
      RefusedOnlyWhenFinished(schedule[..|schedule| - 1]);
      RefusedStep(After(INIT, schedule[..|schedule| - 1]).value, schedule[|schedule| - 1]);
    }
  }

  // ---------------------------------------------------------------------------------------------
  // How far the engine runs ahead
  // ---------------------------------------------------------------------------------------------

  /** What was put on the stream is never more than 33 events ahead of the manager: 32 in the channel and one
      in the drain's hands. */
  lemma StreamIsAtMost33Ahead(s: State)
    requires Reachable(s)
    ensures |s.sent| <= |s.view.events| + 33
  {
    ReachableInv(s);
  }

  /** And the engine does get 32 ahead of a drain that has taken nothing. */
  lemma {:induction false} EngineRunsAhead(n: nat) returns (s: State)
    requires n <= 32
    ensures Reachable(s) && s.engine.Computing? && s.drainer.Receiving?
    ensures |s.events| == n && |s.streamed| == n && s.view.events == []
  {
    if n == 0 {
      InitIsReachable();
      s := INIT;
    } else {
      s := EngineRunsAhead(n - 1);
      s := Go(s, Emit(Event(StatusKind, "", "", "")));
      s := Go(s, EmitSend);
    }
  }
}
