/** Whole runs of the gateway and its registry, started on an empty database: what the tables and the
    downstream log say at any moment, in terms of the history of steps alone. */
module GatewayRuns {
  import opened Prelude
  import opened Limits
  import opened Store
  import opened Policy
  import Ordering

  datatype Step =
    | Call(request: CallRequest, env: Environment)
    | Register(input: ServerInput, fault: Fault, auditFault: bool)
    | Decide(approval: nat, status: Status, decider: string)
    | SetLifecycle(server: string, lifecycle: Lifecycle)
    | SetEnabled(server: string, enabled: bool)

  const INIT := State(Db(Tables(map[], map[], {}, 0), [], [], 1), LimiterState(map[], map[]), [])

  function Apply(cfg: Config, s: State, step: Step): State {
    match step
    case Call(req, env) => Called(cfg, s, req, env).0
    case Register(input, fault, auditFault) => RegisterStep(s, input, fault, auditFault)
    case Decide(id, status, decider) =>
      var d := Decided(s.db.approvals, id, status, decider);
      if d.None? then s else s.(db := s.db.(approvals := d.value))
    case SetLifecycle(name, lifecycle) =>
      var t := WithLifecycle(s.db.tables, name, lifecycle);
      if t.None? then s else s.(db := s.db.(tables := t.value))
    case SetEnabled(name, enabled) =>
      var t := WithEnabled(s.db.tables, name, enabled);
      if t.None? then s else s.(db := s.db.(tables := t.value))
  }

  function Exec(cfg: Config, steps: seq<Step>): State
    decreases |steps|, 1
  {
    if steps == [] then INIT else ExecLast(cfg, steps)
  }

  function ExecLast(cfg: Config, steps: seq<Step>): State
    requires steps != []
    decreases |steps|, 0
  {
    var n := |steps| - 1;
    Apply(cfg, Exec(cfg, steps[..n]), steps[n])
  }

  lemma ExecStep(cfg: Config, steps: seq<Step>, n: nat)
    requires n < |steps|
    ensures Exec(cfg, steps[..n + 1]) == Apply(cfg, Exec(cfg, steps[..n]), steps[n])
  {
    assert steps[..n + 1][..n] == steps[..n];
  }

  // ---------------------------------------------------------------------------------------------
  // One call
  // ---------------------------------------------------------------------------------------------

  predicate AsksApproval(r: Outcome) {
    r.Failed? && r.error.ApprovalRequired?
  }

  predicate Admitted(cfg: Config, s: State, req: CallRequest, env: Environment) {
    LimiterAllow(cfg.limits, s.limiter, RateKey(req.identity), env.committeeClock, env.globalClock).1
  }

  /** The downstream condition of one call, read off the tables. */
  predicate MayProceed(cfg: Config, s: State, req: CallRequest, env: Environment) {
    var found := Resolve(s.db.tables, req.server, req.tool);
    && Admitted(cfg, s, req, env)
    && !env.resolveFault
    && found.Some?
    && Authorized(s.db.tables, found.value.0, req.identity.committees)
    && (found.value.1.impact == High ==> !env.listFault && HasApproval(s.db.approvals, req.session, req.tool))
  }

  lemma CallEffect(cfg: Config, s: State, req: CallRequest, env: Environment)
    ensures var (s1, r) := Called(cfg, s, req, env);
            && s1.db.tables == s.db.tables
            && s1.limiter == LimiterAllow(cfg.limits, s.limiter, RateKey(req.identity),
                                          env.committeeClock, env.globalClock).0
            && s1.db.approvals ==
                 (if AsksApproval(r)
                  then s.db.approvals + [Approval(Nullable(req.session), req.tool,
                                                  DefaultJson(cfg.redact(req.args)), Pending, "")]
                  else s.db.approvals)
            && (AsksApproval(r) ==> r.error == ApprovalRequired(|s.db.approvals|, req.tool))
            && (r.Failed? && r.error.RateLimited? <==> !Admitted(cfg, s, req, env))
            && (if MayProceed(cfg, s, req, env) then
                  var (row, tool) := Resolve(s.db.tables, req.server, req.tool).value;
                  s1.sent == s.sent + [Invocation(req, row, Tool(req.tool, tool.scope, tool.impact), req.args)]
                else s1.sent == s.sent)
  {}

  // ---------------------------------------------------------------------------------------------
  // Approvals
  // ---------------------------------------------------------------------------------------------

  /** Step `i` is a call for (session, tool) that was gated and opened approval `a`. */
  ghost predicate GatedAt(cfg: Config, steps: seq<Step>, i: nat, a: nat, session: string, tool: string) {
    && i < |steps|
    && steps[i].Call?
    && steps[i].request.session == session
    && steps[i].request.tool == tool
    && var r := Called(cfg, Exec(cfg, steps[..i]), steps[i].request, steps[i].env).1;
    && r.Failed? && r.error == ApprovalRequired(a, tool)
  }

  /** A decision on approval `a` that the database accepts once `a` exists. */
  predicate Decides(step: Step, a: nat) {
    step.Decide? && step.approval == a && !step.status.OtherStatus?
  }

  /** Step `j` granted approval `a` and no later step decided it again. */
  ghost predicate StandingGrant(steps: seq<Step>, j: nat, a: nat) {
    && j < |steps|
    && Decides(steps[j], a) && steps[j].status == Granted
    && forall l :: j < l < |steps| ==> !Decides(steps[l], a)
  }

  /** Some call for (session, tool) was gated and its approval was later granted, and still is. */
  ghost predicate ApprovedInHistory(cfg: Config, steps: seq<Step>, session: string, tool: string) {
    exists i, j, a :: i < j && GatedAt(cfg, steps, i, a, session, tool) && StandingGrant(steps, j, a)
  }

  /** The status decisions after step `from` leave on approval `a`. */
  function Latest(steps: seq<Step>, a: nat, from: nat): Status {
    if |steps| <= from + 1 then Pending
    else
      var n := |steps| - 1;
      if Decides(steps[n], a) then steps[n].status else Latest(steps[..n], a, from)
  }

  lemma {:induction false} LatestIsStandingGrant(steps: seq<Step>, a: nat, from: nat)
    ensures Latest(steps, a, from) == Granted <==> exists j :: from < j && StandingGrant(steps, j, a)
  {
    if |steps| > from + 1 {
      var n := |steps| - 1;
      LatestIsStandingGrant(steps[..n], a, from);
      if Decides(steps[n], a) {
        if steps[n].status == Granted {
          assert StandingGrant(steps, n, a);
        }
      } else {
        forall j: nat ensures StandingGrant(steps[..n], j, a) <==> StandingGrant(steps, j, a) {
          if j < n {
            assert steps[..n][j] == steps[j];
            assert forall l :: j < l < n ==> steps[..n][l] == steps[l];
          }
        }
      }
    }
  }

  lemma GatedInPrefix(cfg: Config, steps: seq<Step>, n: nat, i: nat, a: nat, session: string, tool: string)
    requires n <= |steps| && i < n
    ensures GatedAt(cfg, steps[..n], i, a, session, tool) <==> GatedAt(cfg, steps, i, a, session, tool)
  {
    assert steps[..n][..i] == steps[..i];
  }

  /** `row` is `was` with, at most, another decision on it. */
  ghost predicate SameRow(row: Approval, was: Approval, status: Status) {
    row == was.(status := status, decidedBy := row.decidedBy)
  }

  ghost function Rows(cfg: Config, steps: seq<Step>, n: nat): seq<Approval>
    requires n <= |steps|
  {
    Exec(cfg, steps[..n]).db.approvals
  }

  /** One step keeps a row, except for a decision on it. */
  lemma RowAfterStep(cfg: Config, steps: seq<Step>, n: nat, a: nat)
    requires n < |steps| && a < |Rows(cfg, steps, n)|
    ensures a < |Rows(cfg, steps, n + 1)|
    ensures var was := Rows(cfg, steps, n)[a];
            SameRow(Rows(cfg, steps, n + 1)[a], was, if Decides(steps[n], a) then steps[n].status else was.status)
    ensures var (was, row) := (Rows(cfg, steps, n)[a], Rows(cfg, steps, n + 1)[a]);
            if Decides(steps[n], a) then row.decidedBy == steps[n].decider else row == was
  {
    ExecStep(cfg, steps, n);
    if steps[n].Call? {
      CallEffect(cfg, Exec(cfg, steps[..n]), steps[n].request, steps[n].env);
    }
  }

  lemma {:induction false} RowSince(cfg: Config, steps: seq<Step>, i: nat, a: nat, n: nat, row: Approval)
    requires i < n <= |steps| && a < |Rows(cfg, steps, i + 1)|
    requires Rows(cfg, steps, i + 1)[a] == row && row.status == Pending
    ensures a < |Rows(cfg, steps, n)| && SameRow(Rows(cfg, steps, n)[a], row, Latest(steps[..n], a, i))
  {
    if i < n - 1 {
      RowSince(cfg, steps, i, a, n - 1, row);
      RowAfterStep(cfg, steps, n - 1, a);
      assert steps[..n][..n - 1] == steps[..n - 1];
    }
  }

  /** A gated call's row keeps its session, tool and redacted arguments for the rest of the run, and
      its status is the latest decision's. */
  lemma GatedRowFollowsDecisions(cfg: Config, steps: seq<Step>, i: nat, a: nat, session: string, tool: string)
    requires GatedAt(cfg, steps, i, a, session, tool)
    ensures var rows := Exec(cfg, steps).db.approvals;
            && a < |rows|
            && rows[a].session == Nullable(session)
            && rows[a].tool == tool
            && rows[a].args == DefaultJson(cfg.redact(steps[i].request.args))
            && rows[a].status == Latest(steps, a, i)
  {
    ExecStep(cfg, steps, i);
    CallEffect(cfg, Exec(cfg, steps[..i]), steps[i].request, steps[i].env);
    RowSince(cfg, steps, i, a, |steps|, Rows(cfg, steps, i + 1)[a]);
    assert steps[..|steps|] == steps;
  }

  /** Every approval row was opened by a gated call. */
  lemma {:induction false} RowHasOrigin(cfg: Config, steps: seq<Step>, a: nat) returns (i: nat)
    requires a < |Exec(cfg, steps).db.approvals|
    ensures i < |steps| && steps[i].Call?
    ensures GatedAt(cfg, steps, i, a, steps[i].request.session, steps[i].request.tool)
  {
    var n := |steps| - 1;
    var last, s := steps[n], Exec(cfg, steps[..n]);
    if last.Call? {
      CallEffect(cfg, s, last.request, last.env);
    }
    if a < |s.db.approvals| {
      i := RowHasOrigin(cfg, steps[..n], a);
      GatedInPrefix(cfg, steps, n, i, a, steps[i].request.session, steps[i].request.tool);
    } else {
      i := n;
    }
  }

  /** The approvals table says exactly what the history says: a (session, tool) counts as approved if
      and only if the session is not empty and a gated call for it has a standing grant. */
  lemma ApprovalTableIsHistory(cfg: Config, steps: seq<Step>, session: string, tool: string)
    ensures HasApproval(Exec(cfg, steps).db.approvals, session, tool) <==>
            session != "" && ApprovedInHistory(cfg, steps, session, tool)
  {
    var rows := Exec(cfg, steps).db.approvals;
    if HasApproval(rows, session, tool) {
      var row :| row in rows && row.session == Some(session) && row.tool == tool && row.status == Granted;
      var a :| 0 <= a < |rows| && rows[a] == row;
      var i := RowHasOrigin(cfg, steps, a);
      GatedRowFollowsDecisions(cfg, steps, i, a, steps[i].request.session, steps[i].request.tool);
      LatestIsStandingGrant(steps, a, i);
      var j :| i < j && StandingGrant(steps, j, a);
      assert GatedAt(cfg, steps, i, a, session, tool);
    }
    if session != "" && ApprovedInHistory(cfg, steps, session, tool) {
      var i: nat, j: nat, a: nat :| i < j && GatedAt(cfg, steps, i, a, session, tool) && StandingGrant(steps, j, a);
      GatedRowFollowsDecisions(cfg, steps, i, a, session, tool);
      LatestIsStandingGrant(steps, a, i);
      assert rows[a] in rows;
    }
  }

  /** Approval history: in every run, a call reaches downstream if and only if the limiter admits it,
      the tool resolves, the caller is authorized and, for impact "high", the session is not empty and
      an earlier gated call for the same session and tool has a grant that still stands. */
  lemma CallRunsIffApprovedInHistory(cfg: Config, steps: seq<Step>, n: nat)
    requires n < |steps| && steps[n].Call?
    ensures var (req, env) := (steps[n].request, steps[n].env);
            var s := Exec(cfg, steps[..n]);
            var s1 := Exec(cfg, steps[..n + 1]);
            var found := Resolve(s.db.tables, req.server, req.tool);
            && (s1.sent != s.sent <==>
                  && Admitted(cfg, s, req, env)
                  && !env.resolveFault
                  && found.Some?
                  && Authorized(s.db.tables, found.value.0, req.identity.committees)
                  && (found.value.1.impact == High ==>
                        !env.listFault && req.session != "" &&
                        ApprovedInHistory(cfg, steps[..n], req.session, req.tool)))
            && (s1.sent != s.sent ==>
                  s1.sent == s.sent + [Invocation(req, found.value.0,
                                                  Tool(req.tool, found.value.1.scope, found.value.1.impact), req.args)])
  {
    var s := Exec(cfg, steps[..n]);
    ExecStep(cfg, steps, n);
    CallEffect(cfg, s, steps[n].request, steps[n].env);
    ApprovalTableIsHistory(cfg, steps[..n], steps[n].request.session, steps[n].request.tool);
  }

  // ---------------------------------------------------------------------------------------------
  // Promotion and the kill switch
  // ---------------------------------------------------------------------------------------------

  ghost predicate Known(cfg: Config, steps: seq<Step>, j: nat, name: string)
    requires j <= |steps|
  {
    name in Exec(cfg, steps[..j]).db.tables.servers
  }

  predicate SetsLifecycle(step: Step, name: string) {
    step.SetLifecycle? && step.server == name && !step.lifecycle.OtherLifecycle?
  }

  /** Step `j` promoted the registered server and no later step gave it another lifecycle. */
  ghost predicate StandingPromotion(cfg: Config, steps: seq<Step>, j: nat, name: string) {
    && j < |steps|
    && Known(cfg, steps, j, name)
    && SetsLifecycle(steps[j], name) && steps[j].lifecycle == Approved
    && forall l :: j < l < |steps| ==> !SetsLifecycle(steps[l], name)
  }

  /** Step `j` switched the registered server off and no later step touched the switch. */
  ghost predicate StandingKill(cfg: Config, steps: seq<Step>, j: nat, name: string) {
    && j < |steps|
    && Known(cfg, steps, j, name)
    && steps[j] == SetEnabled(name, false)
    && forall l :: j < l < |steps| ==> steps[l] != SetEnabled(name, true) && steps[l] != SetEnabled(name, false)
  }

  lemma KnownInPrefix(cfg: Config, steps: seq<Step>, n: nat, j: nat, name: string)
    requires j <= n <= |steps|
    ensures Known(cfg, steps[..n], j, name) <==> Known(cfg, steps, j, name)
  {
    assert steps[..n][..j] == steps[..j];
  }

  /** Servers are never forgotten. */
  lemma StillKnown(cfg: Config, s: State, step: Step, name: string)
    requires name in s.db.tables.servers
    ensures name in Apply(cfg, s, step).db.tables.servers
    ensures !SetsLifecycle(step, name) ==>
              Apply(cfg, s, step).db.tables.servers[name].lifecycle == s.db.tables.servers[name].lifecycle
    ensures !(step.SetEnabled? && step.server == name) ==>
              Apply(cfg, s, step).db.tables.servers[name].enabled == s.db.tables.servers[name].enabled
  {
    if step.Call? {
      CallEffect(cfg, s, step.request, step.env);
    }
  }

  lemma NewcomersArriveProposed(cfg: Config, s: State, step: Step, name: string)
    requires name !in s.db.tables.servers && name in Apply(cfg, s, step).db.tables.servers
    ensures step.Register?
    ensures var row := Apply(cfg, s, step).db.tables.servers[name]; row.lifecycle == Proposed && row.enabled
  {
    if step.Call? {
      CallEffect(cfg, s, step.request, step.env);
    }
  }

  lemma {:induction false} UnknownUntilRegistered(cfg: Config, steps: seq<Step>, j: nat, name: string)
    requires j <= |steps| && Known(cfg, steps, j, name)
    ensures name in Exec(cfg, steps).db.tables.servers
    decreases |steps|
  {
    if j == |steps| {
      assert steps[..j] == steps;
    } else {
      var n := |steps| - 1;
      KnownInPrefix(cfg, steps, n, j, name);
      UnknownUntilRegistered(cfg, steps[..n], j, name);
      StillKnown(cfg, Exec(cfg, steps[..n]), steps[n], name);
    }
  }

  lemma StandingInPrefix(cfg: Config, steps: seq<Step>, n: nat, j: nat, name: string)
    requires j < n < |steps| && n == |steps| - 1
    ensures !SetsLifecycle(steps[n], name) ==>
              (StandingPromotion(cfg, steps[..n], j, name) <==> StandingPromotion(cfg, steps, j, name))
    ensures !(steps[n].SetEnabled? && steps[n].server == name) ==>
              (StandingKill(cfg, steps[..n], j, name) <==> StandingKill(cfg, steps, j, name))
  {
    KnownInPrefix(cfg, steps, n, j, name);
    assert forall l :: 0 <= l < n ==> steps[..n][l] == steps[l];
  }

  lemma NeverKnown(cfg: Config, steps: seq<Step>, n: nat, j: nat, name: string)
    requires j <= n <= |steps| && name !in Exec(cfg, steps[..n]).db.tables.servers
    ensures !Known(cfg, steps, j, name)
  {
    KnownInPrefix(cfg, steps, n, j, name);
    if Known(cfg, steps[..n], j, name) {
      UnknownUntilRegistered(cfg, steps[..n], j, name);
    }
  }

  /** A server is approved if and only if it was promoted and no later step gave it another
      lifecycle; re-registration does not matter. */
  lemma {:induction false} ApprovedIsHistory(cfg: Config, steps: seq<Step>, name: string)
    requires name in Exec(cfg, steps).db.tables.servers
    ensures Exec(cfg, steps).db.tables.servers[name].lifecycle == Approved <==>
            exists j :: StandingPromotion(cfg, steps, j, name)
  {
    var n := |steps| - 1;
    var s, last := Exec(cfg, steps[..n]), steps[n];
    forall j: nat | j < n {
      StandingInPrefix(cfg, steps, n, j, name);
    }
    if name in s.db.tables.servers {
      ApprovedIsHistory(cfg, steps[..n], name);
      StillKnown(cfg, s, last, name);
      if SetsLifecycle(last, name) && last.lifecycle == Approved {
        assert StandingPromotion(cfg, steps, n, name);
      }
    } else {
      NewcomersArriveProposed(cfg, s, last, name);
      forall j: nat | j < n {
        NeverKnown(cfg, steps, n, j, name);
      }
    }
  }

  /** A server is enabled if and only if no kill stands: neither promotion nor re-registration turns
      it back on. */
  lemma {:induction false} EnabledIsHistory(cfg: Config, steps: seq<Step>, name: string)
    requires name in Exec(cfg, steps).db.tables.servers
    ensures Exec(cfg, steps).db.tables.servers[name].enabled <==>
            !exists j :: StandingKill(cfg, steps, j, name)
  {
    var n := |steps| - 1;
    var s, last := Exec(cfg, steps[..n]), steps[n];
    forall j: nat | j < n {
      StandingInPrefix(cfg, steps, n, j, name);
    }
    if name in s.db.tables.servers {
      EnabledIsHistory(cfg, steps[..n], name);
      StillKnown(cfg, s, last, name);
      if last == SetEnabled(name, false) {
        assert StandingKill(cfg, steps, n, name);
      }
    } else {
      NewcomersArriveProposed(cfg, s, last, name);
      forall j: nat | j < n {
        NeverKnown(cfg, steps, n, j, name);
      }
    }
  }

  /** Nothing runs downstream on a server before it is promoted, after its promotion is revoked, or
      while the kill switch stands. */
  lemma OnlyLiveServersRun(cfg: Config, steps: seq<Step>, n: nat)
    requires n < |steps| && steps[n].Call?
    requires Exec(cfg, steps[..n + 1]).sent != Exec(cfg, steps[..n]).sent
    ensures exists j :: StandingPromotion(cfg, steps[..n], j, steps[n].request.server)
    ensures !exists j :: StandingKill(cfg, steps[..n], j, steps[n].request.server)
  {
    CallRunsIffApprovedInHistory(cfg, steps, n);
    ApprovedIsHistory(cfg, steps[..n], steps[n].request.server);
    EnabledIsHistory(cfg, steps[..n], steps[n].request.server);
  }

  /** The setters touch no id, tool or grant. */
  lemma RowUpdateKeepsKeys(t: Tables, name: string, row: ServerRow)
    requires TablesOk(t) && name in t.servers
    requires row.id == t.servers[name].id && !row.lifecycle.OtherLifecycle?
    ensures TablesOk(t.(servers := t.servers[name := row]))
  {
    var t1 := t.(servers := t.servers[name := row]);
    forall id | HasServer(t, id) ensures HasServer(t1, id) {
      var n :| n in t.servers && t.servers[n].id == id;
      assert n in t1.servers && t1.servers[n].id == id;
    }
  }

  lemma StepKeepsTables(cfg: Config, s: State, step: Step)
    requires TablesOk(s.db.tables)
    ensures TablesOk(Apply(cfg, s, step).db.tables)
  {
    var t := s.db.tables;
    match step
    case Call(req, env) =>
      CallEffect(cfg, s, req, env);
    case Register(input, _, _) =>
      if Registered(t, input).Some? {
        RegisteredKeepsKeys(t, input);
      }
    case Decide(_, _, _) =>
    case SetLifecycle(name, lifecycle) =>
      if WithLifecycle(t, name, lifecycle).Some? {
        RowUpdateKeepsKeys(t, name, t.servers[name].(lifecycle := lifecycle));
      }
    case SetEnabled(name, enabled) =>
      if WithEnabled(t, name, enabled).Some? {
        RowUpdateKeepsKeys(t, name, t.servers[name].(enabled := enabled));
      }
  }

  /** The schema's constraints hold in every run, so discovery equals enforcement in every run. */
  lemma {:induction false} TablesAlwaysOk(cfg: Config, steps: seq<Step>)
    ensures TablesOk(Exec(cfg, steps).db.tables)
  {
    if steps != [] {
      var n := |steps| - 1;
      TablesAlwaysOk(cfg, steps[..n]);
      StepKeepsTables(cfg, Exec(cfg, steps[..n]), steps[n]);
    }
  }

  /** Whatever runs downstream is something its caller could have listed at that moment. */
  lemma OnlyListedToolsRun(cfg: Config, steps: seq<Step>, n: nat, listed: seq<VisibleTool>)
    requires n < |steps| && steps[n].Call?
    requires Exec(cfg, steps[..n + 1]).sent != Exec(cfg, steps[..n]).sent
    requires Ordering.Lists(listed, JoinRows(Exec(cfg, steps[..n]).db.tables, steps[n].request.identity.committees),
                            VisibleColumns)
    ensures exists v :: v in listed && v.serverName == steps[n].request.server && v.toolName == steps[n].request.tool
  {
    TablesAlwaysOk(cfg, steps[..n]);
    CallRunsIffApprovedInHistory(cfg, steps, n);
    DiscoveryEqualsEnforcement(Exec(cfg, steps[..n]).db.tables, steps[n].request.identity.committees, listed,
                               steps[n].request.server, steps[n].request.tool);
  }
}
