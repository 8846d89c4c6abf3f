/** One task as a concurrent protocol (runtime/runtime.go, runtime/agentruntime.go,
    runtime/internal/server/server.go): the goroutine running the engine, the manager's drain, and any
    number of approvers, over the channels `events` (capacity 32), `decisions` (capacity 1) and `done`.
    A run is a sequence of atomic actions in any order the channels allow; the engine is an arbitrary
    sequence of Emit and Approve calls ending in a result or an error, and its Approve calls may be
    cancelled. */
module TaskProtocol {
  import opened Prelude
  import opened TaskState

  const EVENTS_CAPACITY := 32
  const DECISIONS_CAPACITY := 1

  datatype Decision = Decision(approvalId: string, granted: bool, decidedBy: string)

  /** Where the goroutine of Runtime.run stands. */
  datatype Engine =
    | Computing
    | Emitting(event: Event)
    | Asking(tool: string, id: string)
    | Waiting(id: string)
    | Reporting
    | Ending
    | ClosingEvents
    | ClosingDone
    | Exited

  datatype Drainer = Receiving | Holding(event: Event) | Joining | Joined(outcome: RunOutcome) | Finished

  /** One ResolveApproval call followed by handleApprove's update. */
  datatype Approver = Sending(decision: Decision) | Accepted | Replied | Refused

  /** What became of an accepted decision once Approve received it. */
  datatype Fate = Served(answer: nat) | Discarded(wanted: string)

  /** A return of Approve; `source` is the accepted decision it consumed, none if it was cancelled. */
  datatype Answer = Answer(id: string, granted: bool, source: Option<nat>)

  /** The last five components are history: everything the engine streamed, everything put on the
      events channel, every accepted decision, the fate of each received one, every Approve return. */
  datatype State = State(engine: Engine, events: seq<Event>, eventsClosed: bool, decisions: seq<Decision>,
                         doneClosed: bool, outcome: Option<RunOutcome>, drainer: Drainer, view: View,
                         approvers: map<nat, Approver>,
                         streamed: seq<Event>, sent: seq<Event>, accepted: seq<Decision>, fates: seq<Fate>,
                         answers: seq<Answer>)

  const INIT := State(Computing, [], false, [], false, None, Receiving, FRESH, map[], [], [], [], [], [])

  datatype Action =
    // the engine and its hooks
    | Emit(event: Event) | EmitSend
    | Ask(tool: string, id: string) | AskSend | AskCancel
    | Receive | WaitCancel
    | Return(outcome: RunOutcome)
    // the end of Runtime.run
    | SendReport | SendDone | CloseEvents | CloseDone
    // the drain
    | Take | Append | EndOfStream | Join | Conclude
    // approvers
    | Arrive(who: nat, decision: Decision) | Accept(who: nat) | Refuse(who: nat) | Reply(who: nat)

  predicate IsSending(s: State, who: nat) {
    who in s.approvers && s.approvers[who].Sending?
  }

  predicate Enabled(s: State, a: Action) {
    match a
    case Emit(_) => s.engine.Computing?
    case EmitSend => s.engine.Emitting? && |s.events| < EVENTS_CAPACITY
    case Ask(_, _) => s.engine.Computing?
    case AskSend => s.engine.Asking? && |s.events| < EVENTS_CAPACITY
    case AskCancel => s.engine.Asking?
    case Receive => s.engine.Waiting? && s.decisions != []
    case WaitCancel => s.engine.Waiting?
    case Return(_) => s.engine.Computing?
    case SendReport => s.engine.Reporting? && |s.events| < EVENTS_CAPACITY
    case SendDone => s.engine.Ending? && |s.events| < EVENTS_CAPACITY
    case CloseEvents => s.engine.ClosingEvents?
    case CloseDone => s.engine.ClosingDone?
    case Take => s.drainer.Receiving? && s.events != []
    case Append => s.drainer.Holding?
    case EndOfStream => s.drainer.Receiving? && s.events == [] && s.eventsClosed
    case Join => s.drainer.Joining? && s.doneClosed && s.outcome.Some?
    case Conclude => s.drainer.Joined?
    case Arrive(who, _) => who !in s.approvers
    case Accept(who) => IsSending(s, who) && |s.decisions| < DECISIONS_CAPACITY
    case Refuse(who) => IsSending(s, who) && s.doneClosed
    case Reply(who) => who in s.approvers && s.approvers[who].Accepted?
  }

  function ReportEvent(o: RunOutcome): Event {
    if o.err.Some? then Event(ErrorKind, o.err.value, "", "") else Event(Output, o.result.output, "", "")
  }

  const DONE_EVENT := Event(DoneKind, "", "", "")

  function Put(s: State, e: Event): State {
    s.(events := s.events + [e], sent := s.sent + [e])
  }

  /** Approve receives a decision: it serves the wait if its id is empty or the wanted one. */
  function Received(s: State, wanted: string): State
    requires s.decisions != []
  {
    var d := s.decisions[0];
    var s1 := s.(decisions := s.decisions[1..]);
    if d.approvalId != "" && d.approvalId != wanted then s1.(fates := s.fates + [Discarded(wanted)])
    else
      s1.(engine := Computing, fates := s.fates + [Served(|s.answers|)],
          answers := s.answers + [Answer(wanted, d.granted, Some(|s.fates|))])
  }

  function Next(s: State, a: Action): State
    requires Enabled(s, a)
  {
    match a
    case Emit(e) => s.(engine := Emitting(e))
    case EmitSend =>
      var e := s.engine.event;
      Put(s, e).(engine := Computing, streamed := s.streamed + [e])
    case Ask(tool, id) => s.(engine := Asking(tool, id))
    case AskSend =>
      var e := Event(ApprovalRequired, "", s.engine.tool, s.engine.id);
      Put(s, e).(engine := Waiting(s.engine.id), streamed := s.streamed + [e])
    case AskCancel => s.(engine := Computing, answers := s.answers + [Answer(s.engine.id, false, None)])
    case Receive => Received(s, s.engine.id)
    case WaitCancel => s.(engine := Computing, answers := s.answers + [Answer(s.engine.id, false, None)])
    case Return(o) => s.(engine := Reporting, outcome := Some(o))
    case SendReport =>
      (if s.outcome.Some? then Put(s, ReportEvent(s.outcome.value)) else s).(engine := Ending)
    case SendDone => Put(s, DONE_EVENT).(engine := ClosingEvents)
    case CloseEvents => s.(engine := ClosingDone, eventsClosed := true)
    case CloseDone => s.(engine := Exited, doneClosed := true)
    case Take => s.(drainer := Holding(s.events[0]), events := s.events[1..])
    case Append => s.(drainer := Receiving, view := Absorb(s.view, s.drainer.event))
    case EndOfStream => s.(drainer := Joining)
    case Join => s.(drainer := Joined(s.outcome.value))
    case Conclude => s.(drainer := Finished, view := Finish(s.view, s.drainer.outcome))
    case Arrive(who, d) => s.(approvers := s.approvers[who := Sending(d)])
    case Accept(who) =>
      var d := s.approvers[who].decision;
      s.(approvers := s.approvers[who := Accepted], decisions := s.decisions + [d], accepted := s.accepted + [d])
    case Refuse(who) => s.(approvers := s.approvers[who := Refused])
    case Reply(who) => s.(approvers := s.approvers[who := Replied], view := Resolve(s.view))
  }

  // ---------------------------------------------------------------------------------------------
  // The inductive invariant
  // ---------------------------------------------------------------------------------------------

  function Held(d: Drainer): seq<Event> {
    if d.Holding? then [d.event] else []
  }

  /** The events Runtime.run has added after the engine returned. */
  function Tail(s: State): seq<Event> {
    if s.outcome.None? || s.engine.Reporting? then []
    else if s.engine.Ending? then [ReportEvent(s.outcome.value)]
    else [ReportEvent(s.outcome.value), DONE_EVENT]
  }

  predicate Returned(e: Engine) {
    e.Reporting? || e.Ending? || e.ClosingEvents? || e.ClosingDone? || e.Exited?
  }

  ghost predicate StreamInv(s: State) {
    && s.view.events + Held(s.drainer) + s.events == s.sent
    && s.sent == s.streamed + Tail(s)
    && |s.events| <= EVENTS_CAPACITY
  }

  ghost predicate EngineStage(s: State) {
    && (s.outcome.Some? <==> Returned(s.engine))
    && (s.eventsClosed <==> s.engine.ClosingDone? || s.engine.Exited?)
    && (s.doneClosed <==> s.engine.Exited?)
  }

  ghost predicate DrainStage(s: State) {
    && (!s.drainer.Receiving? && !s.drainer.Holding? ==> s.eventsClosed && s.events == [])
    && (s.drainer.Joined? || s.drainer.Finished? ==> s.doneClosed)
    && (s.drainer.Joined? ==> s.outcome == Some(s.drainer.outcome))
  }

  ghost predicate StageInv(s: State) {
    EngineStage(s) && DrainStage(s)
  }

  ghost predicate ViewInv(s: State) {
    && (s.view.pending.Some? <==> s.view.status == AwaitingApproval)
    && (!s.drainer.Finished? ==>
          && s.view.status in {Running, AwaitingApproval}
          && s.view.errMsg == LastErrorText(s.view.events))
    && (s.drainer.Finished? && s.outcome.Some? ==>
          var o := s.outcome.value;
          && s.view.result == o.result
          && s.view.status == (if o.err.Some? then Failed else Done)
          && s.view.errMsg == LastErrorText(s.view.events)
          && (o.err.Some? ==> s.view.errMsg == o.err.value))
  }

  ghost predicate DecisionInv(s: State) {
    && |s.decisions| <= DECISIONS_CAPACITY
    && |s.accepted| == |s.fates| + |s.decisions|
    && s.accepted[|s.fates|..] == s.decisions
    && (forall p :: 0 <= p < |s.fates| ==> FateOk(s, p))
    && (forall k :: 0 <= k < |s.answers| ==> AnswerOk(s, k))
  }

  /** A received decision either served exactly the answer that names it, or was for another id. */
  ghost predicate FateOk(s: State, p: nat)
    requires p < |s.fates| <= |s.accepted|
  {
    match s.fates[p]
    case Served(k) => k < |s.answers| && s.answers[k].source == Some(p)
    case Discarded(wanted) => s.accepted[p].approvalId != "" && s.accepted[p].approvalId != wanted
  }

  /** An answer is the decision it consumed, which fits its id; a cancelled one is a refusal. */
  ghost predicate AnswerOk(s: State, k: nat)
    requires k < |s.answers| && |s.fates| <= |s.accepted|
  {
    var a := s.answers[k];
    if a.source.None? then !a.granted
    else
      var p := a.source.value;
      && p < |s.fates|
      && s.fates[p] == Served(k)
      && a.granted == s.accepted[p].granted
      && (s.accepted[p].approvalId == "" || s.accepted[p].approvalId == a.id)
  }

  ghost predicate Inv(s: State) {
    StreamInv(s) && StageInv(s) && ViewInv(s) && DecisionInv(s)
  }

  lemma InitHolds()
    ensures Inv(INIT)
  {}

  lemma EngineStageStep(s: State, a: Action)
    requires EngineStage(s) && Enabled(s, a)
    ensures EngineStage(Next(s, a))
  {}

  lemma StageStep(s: State, a: Action)
    requires StageInv(s) && Enabled(s, a)
    ensures StageInv(Next(s, a))
  {
    EngineStageStep(s, a);
  }

  /** An event put on the channel joins the end of the trace. */
  lemma StreamPut(s: State, e: Event, s1: State)
    requires StreamInv(s) && |s.events| < EVENTS_CAPACITY
    requires s1.view == s.view && s1.drainer == s.drainer
    requires s1.events == s.events + [e] && s1.sent == s.sent + [e]
    requires s1.streamed + Tail(s1) == s.streamed + Tail(s) + [e]
    ensures StreamInv(s1)
  {}

  lemma StreamTake(s: State)
    requires StreamInv(s) && Enabled(s, Take)
    ensures StreamInv(Next(s, Take))
  {
    assert s.events == [s.events[0]] + s.events[1..];
  }

  lemma StreamAppend(s: State)
    requires StreamInv(s) && Enabled(s, Append)
    ensures StreamInv(Next(s, Append))
  {
    assert Next(s, Append).view.events + [] == s.view.events + Held(s.drainer);
  }

  lemma StreamFrame(s: State, s1: State)
    requires StreamInv(s)
    requires s1.view.events == s.view.events && Held(s1.drainer) == Held(s.drainer) && s1.events == s.events
    requires s1.sent == s.sent && s1.streamed == s.streamed && Tail(s1) == Tail(s)
    ensures StreamInv(s1)
  {}

  predicate MovesStream(a: Action) {
    a.EmitSend? || a.AskSend? || a.SendReport? || a.SendDone? || a.Take? || a.Append?
  }

  lemma LeavesStream(s: State, a: Action)
    requires EngineStage(s) && Enabled(s, a) && !MovesStream(a)
    ensures var s1 := Next(s, a);
            && s1.view.events == s.view.events && Held(s1.drainer) == Held(s.drainer) && s1.events == s.events
            && s1.sent == s.sent && s1.streamed == s.streamed && Tail(s1) == Tail(s)
  {}

  lemma StreamStep(s: State, a: Action)
    requires StageInv(s) && StreamInv(s) && Enabled(s, a)
    ensures StreamInv(Next(s, a))
  {
    var s1 := Next(s, a);
    match a
    case EmitSend => StreamPut(s, s.engine.event, s1);
    case AskSend => StreamPut(s, Event(ApprovalRequired, "", s.engine.tool, s.engine.id), s1);
    case SendReport => StreamPut(s, ReportEvent(s.outcome.value), s1);
    case SendDone => StreamPut(s, DONE_EVENT, s1);
    case Take => StreamTake(s);
    case Append => StreamAppend(s);
    case _ =>
      LeavesStream(s, a);
      StreamFrame(s, s1);
  }

  lemma LastErrorSnoc(events: seq<Event>, e: Event)
    ensures LastErrorText(events + [e]) == if e.kind.ErrorKind? then e.text else LastErrorText(events)
  {
    assert (events + [e])[..|events|] == events;
  }

  /** Once the report and "done" are in, the last error event is the run's own error, if it has one. */
  lemma ReportIsLastError(streamed: seq<Event>, o: RunOutcome)
    ensures o.err.Some? ==> LastErrorText(streamed + [ReportEvent(o), DONE_EVENT]) == o.err.value
  {
    var reported := streamed + [ReportEvent(o)];
    LastErrorSnoc(streamed, ReportEvent(o));
    LastErrorSnoc(reported, DONE_EVENT);
    assert streamed + [ReportEvent(o), DONE_EVENT] == reported + [DONE_EVENT];
  }

  predicate MovesView(a: Action) {
    a.Append? || a.Conclude? || a.Reply? || a.Return?
  }

  lemma LeavesView(s: State, a: Action)
    requires Enabled(s, a) && !MovesView(a)
    ensures Next(s, a).view == s.view && Next(s, a).outcome == s.outcome
    ensures Next(s, a).drainer.Finished? == s.drainer.Finished?
  {}

  lemma ViewFrame(s: State, s1: State)
    requires ViewInv(s) && s1.view == s.view && s1.outcome == s.outcome
    requires s1.drainer.Finished? == s.drainer.Finished?
    ensures ViewInv(s1)
  {}

  lemma ViewAppend(s: State)
    requires ViewInv(s) && Enabled(s, Append)
    ensures ViewInv(Next(s, Append))
  {
    LastErrorSnoc(s.view.events, s.drainer.event);
  }

  lemma ViewConclude(s: State)
    requires StageInv(s) && StreamInv(s) && ViewInv(s) && Enabled(s, Conclude)
    ensures ViewInv(Next(s, Conclude))
  {
    ReportIsLastError(s.streamed, s.outcome.value);
  }

  lemma ViewReply(s: State, who: nat)
    requires StageInv(s) && ViewInv(s) && Enabled(s, Reply(who))
    ensures ViewInv(Next(s, Reply(who)))
  {}

  lemma ViewReturn(s: State, o: RunOutcome)
    requires StageInv(s) && ViewInv(s) && Enabled(s, Return(o))
    ensures ViewInv(Next(s, Return(o)))
  {}

  lemma ViewStep(s: State, a: Action)
    requires StageInv(s) && StreamInv(s) && ViewInv(s) && Enabled(s, a)
    ensures ViewInv(Next(s, a))
  {
    if !MovesView(a) {
      LeavesView(s, a);
      ViewFrame(s, Next(s, a));
    } else {
      match a
      case Append => ViewAppend(s);
      case Conclude => ViewConclude(s);
      case Reply(who) => ViewReply(s, who);
      case Return(o) => ViewReturn(s, o);
    }
  }

  /** Fates and answers already given stay right as the histories grow. */
  lemma DecisionsGrow(s: State, s1: State)
    requires DecisionInv(s)
    requires s.accepted <= s1.accepted && s.fates <= s1.fates && s.answers <= s1.answers
    requires |s1.fates| <= |s1.accepted|
    ensures forall p :: 0 <= p < |s.fates| ==> FateOk(s1, p)
    ensures forall k :: 0 <= k < |s.answers| ==> AnswerOk(s1, k)
  {
    forall p | 0 <= p < |s.fates| ensures FateOk(s1, p) {
      assert FateOk(s, p);
    }
    forall k | 0 <= k < |s.answers| ensures AnswerOk(s1, k) {
      assert AnswerOk(s, k);
    }
  }

  lemma ReceiveStep(s: State, wanted: string)
    requires DecisionInv(s) && s.decisions != []
    ensures DecisionInv(Received(s, wanted))
  {
    var s1 := Received(s, wanted);
    assert s.accepted[|s.fates|] == s.decisions[0];
    DecisionsGrow(s, s1);
    assert s1.accepted[|s1.fates|..] == s.accepted[|s.fates|..][1..];
  }

  lemma AcceptStep(s: State, who: nat)
    requires DecisionInv(s) && Enabled(s, Accept(who))
    ensures DecisionInv(Next(s, Accept(who)))
  {
    var s1 := Next(s, Accept(who));
    DecisionsGrow(s, s1);
    assert s1.accepted[|s1.fates|..] == s.accepted[|s.fates|..] + [s.approvers[who].decision];
  }

  lemma CancelStep(s: State, id: string, s1: State)
    requires DecisionInv(s)
    requires s1.decisions == s.decisions && s1.accepted == s.accepted && s1.fates == s.fates
    requires s1.answers == s.answers + [Answer(id, false, None)]
    ensures DecisionInv(s1)
  {
    DecisionsGrow(s, s1);
  }

  lemma DecisionFrame(s: State, s1: State)
    requires DecisionInv(s)
    requires s1.decisions == s.decisions && s1.accepted == s.accepted
    requires s1.fates == s.fates && s1.answers == s.answers
    ensures DecisionInv(s1)
  {
    DecisionsGrow(s, s1);
  }

  predicate MovesDecisions(a: Action) {
    a.Receive? || a.Accept? || a.AskCancel? || a.WaitCancel?
  }

  lemma LeavesDecisions(s: State, a: Action)
    requires Enabled(s, a) && !MovesDecisions(a)
    ensures Next(s, a).decisions == s.decisions && Next(s, a).accepted == s.accepted
    ensures Next(s, a).fates == s.fates && Next(s, a).answers == s.answers
  {}

  lemma DecisionStep(s: State, a: Action)
    requires DecisionInv(s) && Enabled(s, a)
    ensures DecisionInv(Next(s, a))
  {
    match a
    case Receive => ReceiveStep(s, s.engine.id);
    case Accept(who) => AcceptStep(s, who);
    case AskCancel => CancelStep(s, s.engine.id, Next(s, a));
    case WaitCancel => CancelStep(s, s.engine.id, Next(s, a));
    case _ =>
      LeavesDecisions(s, a);
      DecisionFrame(s, Next(s, a));
  }

  lemma InvStep(s: State, a: Action)
    requires Inv(s) && Enabled(s, a)
    ensures Inv(Next(s, a))
  {
    StageStep(s, a);
    StreamStep(s, a);
    ViewStep(s, a);
    DecisionStep(s, a);
  }

  // ---------------------------------------------------------------------------------------------
  // Runs
  // ---------------------------------------------------------------------------------------------

  /** The state a schedule leads to from `s`; None if some action was not enabled. */
  function After(s: State, schedule: seq<Action>): Option<State> {
    if schedule == [] then Some(s)
    else
      var n := |schedule| - 1;
      var s1 := After(s, schedule[..n]);
      if s1.Some? && Enabled(s1.value, schedule[n]) then Some(Next(s1.value, schedule[n])) else None
  }

  ghost predicate Reachable(s: State) {
    exists schedule :: After(INIT, schedule) == Some(s)
  }

  lemma {:induction false} InvAfter(s: State, schedule: seq<Action>)
    requires Inv(s) && After(s, schedule).Some?
    ensures Inv(After(s, schedule).value)
  {
    if schedule != [] {
      var n := |schedule| - 1;
      InvAfter(s, schedule[..n]);
      InvStep(After(s, schedule[..n]).value, schedule[n]);
    }
  }

  lemma ReachableInv(s: State)
    requires Reachable(s)
    ensures Inv(s)
  {
    var schedule :| After(INIT, schedule) == Some(s);
    InitHolds();
    InvAfter(INIT, schedule);
  }

  // ---------------------------------------------------------------------------------------------
  // Event-stream refinement
  // ---------------------------------------------------------------------------------------------

  /** In every reachable interleaving the manager's events, the one in flight and the channel are
      together the emitted trace: what the engine streamed, then the report, then "done". At a
      terminal status the manager has the whole of it. */
  lemma ManagerSeesTheStream(s: State)
    requires Reachable(s)
    ensures s.view.events + Held(s.drainer) + s.events == s.streamed + Tail(s)
    ensures s.view.status == Done || s.view.status == Failed ==>
              && s.outcome.Some?
              && s.view.events == s.streamed + [ReportEvent(s.outcome.value), DONE_EVENT]
  {
    ReachableInv(s);
  }

  lemma StepAppends(s: State, a: Action)
    requires Enabled(s, a)
    ensures s.view.events <= Next(s, a).view.events && |Next(s, a).view.events| <= |s.view.events| + 1
  {}

  /** The manager's list only grows, by at most one event a step, in the order of emission. */
  lemma {:induction false} ManagerOnlyAppends(s: State, schedule: seq<Action>)
    requires After(s, schedule).Some?
    ensures s.view.events <= After(s, schedule).value.view.events
    ensures |After(s, schedule).value.view.events| <= |s.view.events| + |schedule|
  {
    if schedule != [] {
      var n := |schedule| - 1;
      ManagerOnlyAppends(s, schedule[..n]);
      StepAppends(After(s, schedule[..n]).value, schedule[n]);
    }
  }

  // ---------------------------------------------------------------------------------------------
  // The status automaton
  // ---------------------------------------------------------------------------------------------

  /** In every reachable state: a pending approval exactly while awaiting one; a terminal status
      exactly when the drain has concluded, "done" exactly if the run's error is nil; a snapshot
      carries a result exactly if done, and then the run's; a failed task carries the run's error, and
      a successful one whatever error text the engine streamed last. */
  lemma StatusAutomaton(s: State)
    requires Reachable(s)
    ensures var (v, snap) := (s.view, SnapshotOf(s.view));
            && (v.pending.Some? <==> v.status == AwaitingApproval)
            && (v.status == Done || v.status == Failed <==> s.drainer.Finished?)
            && (s.drainer.Finished? ==> s.outcome.Some?)
            && (v.status == Done <==> s.drainer.Finished? && s.outcome.value.err.None?)
            && (snap.result.Some? <==> v.status == Done)
            && (v.status == Done ==> snap.result == Some(s.outcome.value.result))
            && (v.status == Failed ==> Some(snap.error) == s.outcome.value.err)
            && (v.status == Done ==> snap.error == LastErrorText(s.streamed))
  {
    ReachableInv(s);
    if s.view.status == Done {
      ManagerSeesTheStream(s);
      var o := s.outcome.value;
      LastErrorSnoc(s.streamed, ReportEvent(o));
      LastErrorSnoc(s.streamed + [ReportEvent(o)], DONE_EVENT);
      assert s.view.events == s.streamed + [ReportEvent(o)] + [DONE_EVENT];
    }
  }

  lemma FinishedStep(s: State, a: Action)
    requires Inv(s) && s.drainer.Finished? && Enabled(s, a)
    ensures Next(s, a).view == s.view && Next(s, a).drainer.Finished?
  {}

  /** Terminal is forever: whatever happens afterwards, late approvals included, the view is frozen. */
  lemma {:induction false} TerminalIsFrozen(s: State, schedule: seq<Action>)
    requires Inv(s) && s.drainer.Finished? && After(s, schedule).Some?
    ensures After(s, schedule).value.view == s.view && After(s, schedule).value.drainer.Finished?
  {
    if schedule != [] {
      var n := |schedule| - 1;
      TerminalIsFrozen(s, schedule[..n]);
      InvAfter(s, schedule[..n]);
      FinishedStep(After(s, schedule[..n]).value, schedule[n]);
    }
  }

  /** One more enabled action from a reachable state. */
  lemma Go(s: State, a: Action) returns (s1: State)
    requires Reachable(s) && Enabled(s, a)
    ensures s1 == Next(s, a) && Reachable(s1)
  {
    var schedule :| After(INIT, schedule) == Some(s);
    s1 := Next(s, a);
    assert (schedule + [a])[..|schedule|] == schedule;
    assert After(INIT, schedule + [a]) == Some(s1);
  }

  lemma InitIsReachable()
    ensures Reachable(INIT)
  {
    assert After(INIT, []) == Some(INIT);
  }

  // ---------------------------------------------------------------------------------------------
  // Decisions
  // ---------------------------------------------------------------------------------------------

  /** How many received decisions served an Approve. */
  function ServedCount(fates: seq<Fate>): nat {
    if fates == [] then 0
    else
      var n := |fates| - 1;
      ServedCount(fates[..n]) + if fates[n].Served? then 1 else 0
  }

  function AnsweredCount(answers: seq<Answer>): nat {
    if answers == [] then 0
    else
      var n := |answers| - 1;
      AnsweredCount(answers[..n]) + if answers[n].source.Some? then 1 else 0
  }

  lemma ServedSnoc(fates: seq<Fate>, f: Fate)
    ensures ServedCount(fates + [f]) == ServedCount(fates) + if f.Served? then 1 else 0
  {
    assert (fates + [f])[..|fates|] == fates;
  }

  lemma AnsweredSnoc(answers: seq<Answer>, a: Answer)
    ensures AnsweredCount(answers + [a]) == AnsweredCount(answers) + if a.source.Some? then 1 else 0
  {
    assert (answers + [a])[..|answers|] == answers;
  }

  lemma CountsAgreeReceive(s: State, wanted: string)
    requires s.decisions != [] && ServedCount(s.fates) == AnsweredCount(s.answers)
    ensures ServedCount(Received(s, wanted).fates) == AnsweredCount(Received(s, wanted).answers)
  {
    ServedSnoc(s.fates, Discarded(wanted));
    ServedSnoc(s.fates, Served(|s.answers|));
    AnsweredSnoc(s.answers, Answer(wanted, s.decisions[0].granted, Some(|s.fates|)));
  }

  lemma CountsAgreeStep(s: State, a: Action)
    requires Enabled(s, a) && ServedCount(s.fates) == AnsweredCount(s.answers)
    ensures ServedCount(Next(s, a).fates) == AnsweredCount(Next(s, a).answers)
  {
    match a
    case Receive => CountsAgreeReceive(s, s.engine.id);
    case AskCancel => AnsweredSnoc(s.answers, Answer(s.engine.id, false, None));
    case WaitCancel => AnsweredSnoc(s.answers, Answer(s.engine.id, false, None));
    case Accept(_) =>
    case _ => LeavesDecisions(s, a);
  }

  lemma {:induction false} CountsAgree(schedule: seq<Action>)
    requires After(INIT, schedule).Some?
    ensures var s := After(INIT, schedule).value; ServedCount(s.fates) == AnsweredCount(s.answers)
  {
    if schedule != [] {
      var n := |schedule| - 1;
      CountsAgree(schedule[..n]);
      CountsAgreeStep(After(INIT, schedule[..n]).value, schedule[n]);
    }
  }

  /** Approve's answer `k` is the decision at `p`: its verdict, under the same id or the empty one. */
  predicate Carries(s: State, k: nat, p: nat)
    requires k < |s.answers| && p < |s.accepted|
  {
    && s.answers[k].source == Some(p)
    && s.answers[k].granted == s.accepted[p].granted
    && (s.accepted[p].approvalId == "" || s.accepted[p].approvalId == s.answers[k].id)
  }

  /** Decision conservation: in every reachable state the accepted decisions are, in order, those
      received and at most one still buffered; each received one served the Approve that carries its
      verdict or was discarded for another id; as many were served as Approves returned a decision. */
  lemma DecisionsAreConserved(s: State)
    requires Reachable(s)
    ensures |s.decisions| <= 1
    ensures |s.accepted| == |s.fates| + |s.decisions| && s.accepted[|s.fates|..] == s.decisions
    ensures ServedCount(s.fates) == AnsweredCount(s.answers)
    ensures forall p, wanted :: 0 <= p < |s.fates| && s.fates[p] == Discarded(wanted) ==>
              s.accepted[p].approvalId != "" && s.accepted[p].approvalId != wanted
    ensures forall p: nat :: p < |s.fates| && s.fates[p].Served? ==>
              s.fates[p].answer < |s.answers| && Carries(s, s.fates[p].answer, p)
  {
    ReachableInv(s);
    var schedule :| After(INIT, schedule) == Some(s);
    CountsAgree(schedule);
    forall p | 0 <= p < |s.fates|
      ensures s.fates[p].Discarded? ==>
                s.accepted[p].approvalId != "" && s.accepted[p].approvalId != s.fates[p].wanted
      ensures s.fates[p].Served? ==> s.fates[p].answer < |s.answers| && Carries(s, s.fates[p].answer, p)
    {
      assert FateOk(s, p);
      assert s.fates[p].Served? ==> AnswerOk(s, s.fates[p].answer);
    }
  }

  /** Whatever Approve returns with a decision, granted or denied, is that decision's verdict; the
      decision served this Approve and no other. */
  lemma AnswersComeFromDecisions(s: State, k: nat)
    requires Reachable(s) && k < |s.answers| && s.answers[k].source.Some?
    ensures var p := s.answers[k].source.value;
            && p < |s.fates| <= |s.accepted|
            && s.fates[p] == Served(k)
            && Carries(s, k, p)
            && (forall l :: 0 <= l < |s.answers| && l != k ==> s.answers[l].source != Some(p))
  {
    ReachableInv(s);
    assert AnswerOk(s, k);
    forall l | 0 <= l < |s.answers| && l != k ensures s.answers[l].source != s.answers[k].source {
      assert AnswerOk(s, l);
    }
  }

  /** Approve returns true only by consuming an accepted, granted decision whose id is the wanted one
      or empty, and no decision serves two Approves. */
  lemma GrantsComeFromDecisions(s: State, k: nat)
    requires Reachable(s) && k < |s.answers| && s.answers[k].granted
    ensures s.answers[k].source.Some?
    ensures var p := s.answers[k].source.value;
            && p < |s.accepted|
            && s.accepted[p].granted
            && (s.accepted[p].approvalId == "" || s.accepted[p].approvalId == s.answers[k].id)
            && (forall l :: 0 <= l < |s.answers| && l != k ==> s.answers[l].source != Some(p))
  {
    ReachableInv(s);
    assert AnswerOk(s, k);
    AnswersComeFromDecisions(s, k);
  }

  /** A fitting decision resumes a waiting engine with exactly its verdict. */
  lemma FittingDecisionResumes(s: State, who: nat)
    requires s.engine.Waiting? && s.decisions == [] && IsSending(s, who)
    requires var id := s.approvers[who].decision.approvalId; id == "" || id == s.engine.id
    ensures Enabled(s, Accept(who)) && Enabled(Next(s, Accept(who)), Receive)
    ensures var s2 := Next(Next(s, Accept(who)), Receive);
            && s2.engine == Computing
            && s2.answers == s.answers + [Answer(s.engine.id, s.approvers[who].decision.granted, Some(|s.fates|))]
  {}

  /** The comment at agentruntime.go:79 says ResolveApproval returns an error if the task already
      finished. It can still return nil, exactly when the decision buffer has room. */
  lemma LateApprovalAcceptedIff(s: State, who: nat)
    requires Reachable(s) && s.doneClosed && IsSending(s, who)
    ensures Enabled(s, Refuse(who))
    ensures Enabled(s, Accept(who)) <==> s.decisions == []
  {
    ReachableInv(s);
  }

  /** And over everything that happens after the task finished, at most one is accepted, and none is
      ever acted on. */
  lemma {:induction false} AtMostOneLateApproval(s: State, schedule: seq<Action>)
    requires Inv(s) && s.doneClosed && After(s, schedule).Some?
    ensures var s1 := After(s, schedule).value;
            && Inv(s1) && s1.doneClosed
            && |s1.accepted| - |s.accepted| == |s1.decisions| - |s.decisions| <= 1 - |s.decisions|
            && s1.answers == s.answers
  {
    if schedule != [] {
      var n := |schedule| - 1;
      AtMostOneLateApproval(s, schedule[..n]);
      InvStep(After(s, schedule[..n]).value, schedule[n]);
    }
  }

  /** A run in which a finished task accepts an approval. */
  lemma LateApprovalHappens() returns (s: State)
    ensures Reachable(s) && s.doneClosed && 0 in s.approvers && s.approvers[0] == Accepted
  {
    InitIsReachable();
    s := Go(INIT, Return(RunOutcome(RunResult("", ""), None)));
    s := Go(s, SendReport);
    s := Go(s, SendDone);
    s := Go(s, CloseEvents);
    s := Go(s, CloseDone);
    s := Go(s, Arrive(0, Decision("a", true, "someone")));
    s := Go(s, Accept(0));
  }

  /** A reply clears `pending` whichever id was sent: after a decision for another approval the engine
      still waits, yet the task no longer shows that it does. This is one way of hiding a wait;
      TaskWaits.WaitShowsIffNoReplySince says exactly when a wait shows. */
  lemma ReplyToAnotherIdHidesTheWait(s: State, who: nat)
    requires s.engine.Waiting? && s.decisions == [] && IsSending(s, who)
    requires var id := s.approvers[who].decision.approvalId; id != "" && id != s.engine.id
    ensures Enabled(s, Accept(who)) && Enabled(Next(s, Accept(who)), Receive)
    ensures var s2 := Next(Next(s, Accept(who)), Receive);
            && Enabled(s2, Reply(who))
            && var s3 := Next(s2, Reply(who));
            && s3.engine == s.engine && s3.view.status != AwaitingApproval && s3.answers == s.answers
            && (Reachable(s) ==> Reachable(s3))
  {
    if Reachable(s) {
      var s1 := Go(s, Accept(who));
      var s2 := Go(s1, Receive);
      var s3 := Go(s2, Reply(who));
    }
  }

  // ---------------------------------------------------------------------------------------------
  // Progress
  // ---------------------------------------------------------------------------------------------

  /** The end of Runtime.run and the drain: what happens without the engine or anyone outside. */
  predicate Internal(a: Action) {
    match a
    case SendReport | SendDone | CloseEvents | CloseDone => true
    case Take | Append | EndOfStream | Join | Conclude => true
    case _ => false
  }

  /** A send the engine is blocked in. */
  predicate HookSend(a: Action) {
    a.EmitSend? || a.AskSend? || a.Receive?
  }

  /** The step that is always possible, unless the engine is computing or waiting for a decision. */
  function Progress(s: State): Option<Action> {
    match s.drainer
    case Holding(_) => Some(Append)
    case Joined(_) => Some(Conclude)
    case Finished => None
    case Joining => Some(if s.doneClosed then Join else CloseDone)
    case Receiving =>
      if s.events != [] then Some(Take)
      else
        match s.engine
        case Computing => None
        case Emitting(_) => Some(EmitSend)
        case Asking(_, _) => Some(AskSend)
        case Waiting(_) => if s.decisions != [] then Some(Receive) else None
        case Reporting => Some(SendReport)
        case Ending => Some(SendDone)
        case ClosingEvents => Some(CloseEvents)
        case _ => Some(EndOfStream)
  }

  /** No stuck states: a reachable state whose task is not terminal has an enabled step of the
      runtime, the drain or a blocked send, unless the engine is computing or waits for a decision. */
  lemma NeverStuck(s: State)
    requires Reachable(s) && !s.drainer.Finished?
    ensures Progress(s).None? ==> s.engine.Computing? || (s.engine.Waiting? && s.decisions == [])
    ensures Progress(s).Some? ==>
              Enabled(s, Progress(s).value) && (Internal(Progress(s).value) || HookSend(Progress(s).value))
  {
    ReachableInv(s);
  }

  function EngineWork(e: Engine): nat {
    match e
    case Reporting => 8
    case Ending => 5
    case ClosingEvents => 2
    case ClosingDone => 1
    case _ => 0
  }

  function DrainerWork(d: Drainer): nat {
    match d
    case Holding(_) => 4
    case Receiving => 3
    case Joining => 2
    case Joined(_) => 1
    case Finished => 0
  }

  /** What is left to do once the engine has returned. */
  function Work(s: State): nat {
    EngineWork(s.engine) + 2 * |s.events| + DrainerWork(s.drainer)
  }

  lemma InternalStepWorks(s: State, a: Action)
    requires Inv(s) && s.outcome.Some? && Enabled(s, a) && Internal(a)
    ensures Next(s, a).outcome.Some? && Work(Next(s, a)) == Work(s) - 1
  {}

  lemma OtherStepLeavesWork(s: State, a: Action)
    requires Inv(s) && s.outcome.Some? && Enabled(s, a) && !Internal(a)
    ensures Next(s, a).outcome.Some? && Work(Next(s, a)) == Work(s)
  {}

  lemma WorkStep(s: State, a: Action)
    requires Inv(s) && s.outcome.Some? && Enabled(s, a)
    ensures Next(s, a).outcome.Some?
    ensures Work(Next(s, a)) == if Internal(a) then Work(s) - 1 else Work(s)
  {
    if Internal(a) {
      InternalStepWorks(s, a);
    } else {
      OtherStepLeavesWork(s, a);
    }
  }

  function InternalCount(schedule: seq<Action>): nat {
    if schedule == [] then 0
    else
      var n := |schedule| - 1;
      InternalCount(schedule[..n]) + if Internal(schedule[n]) then 1 else 0
  }

  /** After the engine returned, every schedule, whatever the approvers do, does the remaining work one
      unit per runtime or drain step; when none is left the task is terminal. */
  lemma {:induction false} WorkIsDoneStepByStep(s: State, schedule: seq<Action>)
    requires Inv(s) && s.outcome.Some? && After(s, schedule).Some?
    ensures var s1 := After(s, schedule).value;
            && Inv(s1) && s1.outcome.Some?
            && Work(s1) == Work(s) - InternalCount(schedule)
            && (Work(s1) == 0 ==> s1.drainer.Finished?)
  {
    if schedule != [] {
      var n := |schedule| - 1;
      WorkIsDoneStepByStep(s, schedule[..n]);
      InvStep(After(s, schedule[..n]).value, schedule[n]);
      WorkStep(After(s, schedule[..n]).value, schedule[n]);
    }
  }

  lemma {:induction false} AfterCons(s: State, first: Action, rest: seq<Action>)
    requires Enabled(s, first)
    ensures After(s, [first] + rest) == After(Next(s, first), rest)
    decreases |rest|
  {
    var all := [first] + rest;
    if rest == [] {
      assert all[..0] == [];
      assert After(s, all[..0]) == Some(s);
    } else {
      var n := |rest| - 1;
      AfterCons(s, first, rest[..n]);
      assert all[..n + 1] == [first] + rest[..n];
    }
  }

  lemma ReturnedTaskMoves(s: State) returns (a: Action, s1: State)
    requires Reachable(s) && s.outcome.Some? && !s.drainer.Finished?
    ensures Internal(a) && Enabled(s, a) && s1 == Next(s, a) && Reachable(s1)
    ensures Work(s1) == Work(s) - 1 && s1.outcome == s.outcome && s1.streamed == s.streamed
  {
    ReachableInv(s);
    NeverStuck(s);
    a := Progress(s).value;
    WorkStep(s, a);
    s1 := Go(s, a);
  }

  /** And some step is always left until then, so runtime and drain take the task to a terminal
      status, after which the whole stream is in the manager's hands. */
  lemma {:induction false} ReturnedTaskTerminates(s: State) returns (schedule: seq<Action>, end: State)
    requires Reachable(s) && s.outcome.Some?
    ensures After(s, schedule) == Some(end)
    ensures |schedule| <= Work(s) && forall i :: 0 <= i < |schedule| ==> Internal(schedule[i])
    ensures Reachable(end) && end.drainer.Finished? && end.outcome == s.outcome && end.streamed == s.streamed
    ensures end.view.events == s.streamed + [ReportEvent(s.outcome.value), DONE_EVENT]
    decreases Work(s)
  {
    if s.drainer.Finished? {
      schedule, end := [], s;
      ManagerSeesTheStream(s);
      ReachableInv(s);
    } else {
      var a, s1 := ReturnedTaskMoves(s);
      schedule, end := ReturnedTaskTerminates(s1);
      AfterCons(s, a, schedule);
      schedule := [a] + schedule;
    }
  }

  /** An engine may stream an error event and still succeed: a task that is done with an error text. */
  lemma ErrorEventsDoNotFail() returns (end: State)
    ensures Reachable(end) && end.view.status == Done && end.view.errMsg == "oops"
  {
    InitIsReachable();
    var error := Event(ErrorKind, "oops", "", "");
    var s := Go(INIT, Emit(error));
    s := Go(s, EmitSend);
    s := Go(s, Return(RunOutcome(RunResult("fine", ""), None)));
    assert s.streamed == [error];
    LastErrorSnoc([], error);
    assert [] + [error] == [error];
    var schedule;
    schedule, end := ReturnedTaskTerminates(s);
    StatusAutomaton(end);
  }

  /** Every ResolveApproval still blocked when the task has finished can return. */
  lemma BlockedApproversCanReturn(s: State, who: nat)
    requires Reachable(s) && s.drainer.Finished? && IsSending(s, who)
    ensures Enabled(s, Refuse(who))
  {
    ReachableInv(s);
  }
}
