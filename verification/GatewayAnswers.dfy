/** What a caller of the gateway gets back, and what the audit log then says, in the terms of the request,
    the tables and the outside world alone; and when the limiter lets a call of a run through. */
module GatewayAnswers {
  import opened Prelude
  import opened Limits
  import opened LimiterHistory
  import opened Store
  import opened Policy
  import opened GatewayRuns
  import opened GatewayTotals

  /** What stands in the way of one call. */
  datatype Fate =
    | TooMany
    | StoreFailed
    | NoSuchTool
    | NotAllowed
    | NeedsApproval
    | Runs(row: ServerRow, tool: ToolRow)

  /** Approved, enabled and granted to a committee of the caller. */
  ghost predicate MayUse(t: Tables, row: ServerRow, id: Identity) {
    row.lifecycle.Approved? && row.enabled && exists c :: c in id.committees && (row.id, c) in t.grants
  }

  /** The session, which must not be empty, has an approved row for the tool. */
  ghost predicate IsApproved(approvals: seq<Approval>, session: string, tool: string) {
    session != "" &&
    exists i :: 0 <= i < |approvals| &&
                approvals[i] == Approval(Some(session), tool, approvals[i].args, Granted, approvals[i].decidedBy)
  }

  /** The fate of a call that the limiter has answered. */
  ghost function FateOf(db: Db, req: CallRequest, env: Environment, admitted: bool): Fate {
    var t := db.tables;
    if !admitted then TooMany
    else if env.resolveFault then StoreFailed
    else if req.server !in t.servers then NoSuchTool
    else
      var row := t.servers[req.server];
      if (row.id, req.tool) !in t.tools then NoSuchTool
      else
        var tool := t.tools[(row.id, req.tool)];
        if !MayUse(t, row, req.identity) then NotAllowed else AllowedFate(db.approvals, req, env, row, tool)
  }

  /** The fate of a call its caller may make: impact "high" needs an approval. */
  ghost function AllowedFate(approvals: seq<Approval>, req: CallRequest, env: Environment, row: ServerRow,
                             tool: ToolRow): Fate
  {
    if !tool.impact.High? then Runs(row, tool)
    else if req.session != "" && env.listFault then StoreFailed
    else if IsApproved(approvals, req.session, req.tool) then Runs(row, tool)
    else if env.createFault then StoreFailed
    else NeedsApproval
  }

  /** The text the audit log stores for a call; none after a database failure. */
  ghost function LoggedText(fate: Fate, reply: Result<string, string>): Option<string> {
    match fate
    case TooMany => Some("denied: rate limited")
    case StoreFailed => None
    case NoSuchTool => Some("denied: unknown tool")
    case NotAllowed => Some("denied: unauthorized")
    case NeedsApproval => Some("gated: awaiting approval")
    case Runs(_, _) => if reply.Ok? then Some("ok") else Some("error: " + reply.error)
  }

  /** What the caller is told: the downstream output, the downstream error, or why the call did not run. */
  ghost function ReplyTo(fate: Fate, req: CallRequest, reply: Result<string, string>, approval: nat)
    : Result<string, CallError>
  {
    match fate
    case TooMany => Err(RateLimited)
    case StoreFailed => Err(StoreFailure)
    case NoSuchTool => Err(UnknownTool)
    case NotAllowed => Err(Unauthorized)
    case NeedsApproval => Err(ApprovalRequired(approval, req.tool))
    case Runs(_, _) => if reply.Ok? then Result.Ok(reply.value) else Err(Downstream(reply.error))
  }

  /** `r` tells the caller `told`; a call that ran also gets the id of its audit row. */
  ghost predicate Answers(r: Outcome, told: Result<string, CallError>, ran: bool, id: nat) {
    r == var shown := if ran then id else 0;
         if told.Ok? then Answer(told.value, shown) else Failed(told.error, shown)
  }

  /** `rows` are the audit rows a call adds: one, with the caller, "server/tool", the redacted arguments and
      the text of its fate, unless the database failed the call or the write. */
  ghost predicate Logs(rows: seq<AuditRow>, cfg: Config, req: CallRequest, text: Option<string>, lost: bool, id: nat) {
    if text.None? || lost then rows == [] && id == 0
    else
      && |rows| == 1
      && rows[0].id == id
      && rows[0].actor == req.identity.subject
      && rows[0].tool == req.server + "/" + req.tool
      && rows[0].args == (if cfg.redact(req.args) == "" then "{}" else cfg.redact(req.args))
      && rows[0].result.Text() == text.value
  }

  lemma AllowedFollowsFate(cfg: Config, s: State, req: CallRequest, env: Environment, row: ServerRow, tool: ToolRow)
    ensures RulingIs(Governed(cfg, s, req, env, row, Tool(req.tool, tool.scope, tool.impact)), s,
                     AllowedFate(s.db.approvals, req, env, row, tool), req, env)
  {
    ApprovalMeans(s.db.approvals, req.session, req.tool);
  }

  /** What the gateway rules once the limiter has admitted a call. */
  lemma DispatchFollowsFate(cfg: Config, s: State, req: CallRequest, env: Environment)
    ensures RulingIs(Dispatched(cfg, s, req, env), s, FateOf(s.db, req, env, true), req, env)
  {
    var found := Resolve(s.db.tables, req.server, req.tool);
    if found.Some? {
      AllowedFollowsFate(cfg, s, req, env, found.value.0, found.value.1);
    }
  }

  /** The ruling `v` on a call from `s` is what its fate says. */
  ghost predicate RulingIs(v: Ruling, s: State, fate: Fate, req: CallRequest, env: Environment) {
    && v.result.Some? == LoggedText(fate, env.reply).Some?
    && (v.result.Some? ==> v.result.value.Text() == LoggedText(fate, env.reply).value)
    && (fate.Runs? <==> v.result.Some? && (v.result.value.Ok? || v.result.value.Error?))
    && v.answer == ReplyTo(fate, req, env.reply, |s.db.approvals|)
    && v.state.db.audit == s.db.audit && v.state.db.nextAudit == s.db.nextAudit
    && v.state.sent == s.sent + Invoked(fate, req)
  }

  /** The downstream call, if it is made: to the row and tool found, with the caller's own arguments. */
  ghost function Invoked(fate: Fate, req: CallRequest): seq<Invocation> {
    match fate
    case Runs(row, tool) => [Invocation(req, row, Tool(req.tool, tool.scope, tool.impact), req.args)]
    case _ => []
  }

  lemma CallFollowsFate(cfg: Config, s: State, req: CallRequest, env: Environment)
    ensures RulingIs(Ruled(cfg, s, req, env), s, FateOf(s.db, req, env, Admitted(cfg, s, req, env)), req, env)
  {
    var limiter := LimiterAllow(cfg.limits, s.limiter, RateKey(req.identity), env.committeeClock, env.globalClock).0;
    DispatchFollowsFate(cfg, s.(limiter := limiter), req, env);
  }

  /** How a ruling is written down and returned. */
  lemma ConcludedAnswersAndLogs(cfg: Config, s: State, v: Ruling, req: CallRequest, env: Environment, fate: Fate)
    returns (id: nat, rows: seq<AuditRow>)
    requires RulingIs(v, s, fate, req, env)
    ensures var (s1, r) := Concluded(cfg, v, req, env);
            && Answers(r, ReplyTo(fate, req, env.reply, |s.db.approvals|), fate.Runs?, id)
            && s1.db.audit == s.db.audit + rows
            && Logs(rows, cfg, req, LoggedText(fate, env.reply), env.auditFault, id)
            && (rows != [] ==> id == s.db.nextAudit)
            && s1.sent == v.state.sent
  {
    id := if v.result.Some? && !env.auditFault then s.db.nextAudit else 0;
    rows := Concluded(cfg, v, req, env).0.db.audit[|s.db.audit|..];
  }

  lemma ApprovalMeans(approvals: seq<Approval>, session: string, tool: string)
    ensures HasApproval(approvals, session, tool) <==> IsApproved(approvals, session, tool)
  {
    if IsApproved(approvals, session, tool) {
      var i :| 0 <= i < |approvals| &&
               approvals[i] == Approval(Some(session), tool, approvals[i].args, Granted, approvals[i].decidedBy);
      assert approvals[i] in approvals;
    }
  }

  /** What one call does, answers and logs, on every path. */
  lemma CallAnswersAndLogs(cfg: Config, s: State, req: CallRequest, env: Environment)
    returns (id: nat, rows: seq<AuditRow>)
    ensures var (s1, r) := Called(cfg, s, req, env);
            var fate := FateOf(s.db, req, env, Admitted(cfg, s, req, env));
            && Answers(r, ReplyTo(fate, req, env.reply, |s.db.approvals|), fate.Runs?, id)
            && s1.db.audit == s.db.audit + rows
            && Logs(rows, cfg, req, LoggedText(fate, env.reply), env.auditFault, id)
            && (rows != [] ==> id == s.db.nextAudit)
            && s1.sent == s.sent + Invoked(fate, req)
  {
    CallFollowsFate(cfg, s, req, env);
    id, rows := ConcludedAnswersAndLogs(cfg, s, Ruled(cfg, s, req, env), req, env,
                                        FateOf(s.db, req, env, Admitted(cfg, s, req, env)));
  }

  /** A call that needs an approval opens one, pending, for its session (NULL without one), its bare tool name
      and its redacted arguments; no other call touches the approvals. */
  lemma CallOpensItsApproval(cfg: Config, s: State, req: CallRequest, env: Environment)
    ensures var s1 := Called(cfg, s, req, env).0;
            s1.db.approvals == s.db.approvals +
              if FateOf(s.db, req, env, Admitted(cfg, s, req, env)).NeedsApproval? then
                [Approval(if req.session == "" then None else Some(req.session), req.tool,
                          if cfg.redact(req.args) == "" then "{}" else cfg.redact(req.args), Pending, "")]
              else []
  {
    CallEffect(cfg, s, req, env);
    CallFollowsFate(cfg, s, req, env);
    var fate := FateOf(s.db, req, env, Admitted(cfg, s, req, env));
    assert AsksApproval(Called(cfg, s, req, env).1) <==> fate.NeedsApproval?;
  }

  /** A registration the registry commits, and whose caller hears of it, logs one row in the registry's own
      name; nothing else about it is logged. */
  lemma RegistrationLogs(s: State, input: ServerInput, fault: Fault, auditFault: bool)
    ensures var (audit, audit1) := (s.db.audit, RegisterStep(s, input, fault, auditFault).db.audit);
            if Registered(s.db.tables, input).Some? && fault == NoFault && !auditFault
            then audit1 == audit + [AuditRow(s.db.nextAudit, "registry", "register:" + input.name, "{}",
                                             AuditResult.Ok)]
            else audit1 == audit
  {}

  // ---------------------------------------------------------------------------------------------
  // Decisions
  // ---------------------------------------------------------------------------------------------

  /** No decision on approval `a` after step `from` and before step `to`. */
  ghost predicate Undecided(steps: seq<Step>, a: nat, from: nat, to: nat)
    requires to <= |steps|
  {
    forall l :: from < l < to ==> !Decides(steps[l], a)
  }

  lemma {:induction false} RowStands(cfg: Config, steps: seq<Step>, a: nat, from: nat, to: nat)
    requires from < to <= |steps| && a < |Rows(cfg, steps, from + 1)| && Undecided(steps, a, from, to)
    ensures a < |Rows(cfg, steps, to)| && Rows(cfg, steps, to)[a] == Rows(cfg, steps, from + 1)[a]
  {
    if from + 1 < to {
      RowStands(cfg, steps, a, from, to - 1);
      RowAfterStep(cfg, steps, to - 1, a);
    }
  }

  /** A decision is recorded with the one who made it, and stands until the next: of the approval that call
      `i` opened, the row says what the latest decision said and who made it; without one it is pending. */
  lemma DecisionIsRecorded(cfg: Config, steps: seq<Step>, i: nat, a: nat, session: string, tool: string, j: nat)
    requires GatedAt(cfg, steps, i, a, session, tool)
    requires i <= j < |steps| && (j > i ==> Decides(steps[j], a)) && Undecided(steps, a, j, |steps|)
    ensures var rows := Exec(cfg, steps).db.approvals;
            && a < |rows|
            && rows[a].status == (if j > i then steps[j].status else Pending)
            && rows[a].decidedBy == (if j > i then steps[j].decider else "")
  {
    GateOpensPending(cfg, steps, i, a, session, tool);
    if j > i {
      RowSince(cfg, steps, i, a, j, Rows(cfg, steps, i + 1)[a]);
      RowAfterStep(cfg, steps, j, a);
    }
    RowStands(cfg, steps, a, j, |steps|);
    assert steps[..|steps|] == steps;
  }

  lemma GateOpensPending(cfg: Config, steps: seq<Step>, i: nat, a: nat, session: string, tool: string)
    requires GatedAt(cfg, steps, i, a, session, tool)
    ensures a < |Rows(cfg, steps, i + 1)|
    ensures Rows(cfg, steps, i + 1)[a].status == Pending && Rows(cfg, steps, i + 1)[a].decidedBy == ""
  {
    ExecStep(cfg, steps, i);
    CallEffect(cfg, Exec(cfg, steps[..i]), steps[i].request, steps[i].env);
  }

  // ---------------------------------------------------------------------------------------------
  // Admission in the history of a run
  // ---------------------------------------------------------------------------------------------

  /** A call as the limiter sees it: under the caller's first committee, or the caller's own name. */
  function PassOf(req: CallRequest, env: Environment): Pass {
    var committees := req.identity.committees;
    Pass(if committees == [] then req.identity.subject else committees[0], env.committeeClock, env.globalClock)
  }

  /** The calls of a run. */
  function Passes(steps: seq<Step>): seq<Pass> {
    if steps == [] then []
    else
      var n := |steps| - 1;
      Passes(steps[..n]) + if steps[n].Call? then [PassOf(steps[n].request, steps[n].env)] else []
  }

  lemma {:induction false} RunServes(cfg: Config, steps: seq<Step>)
    ensures Exec(cfg, steps).limiter == Serve(cfg.limits, Passes(steps)).0
  {
    if steps != [] {
      var n := |steps| - 1;
      var s, last := Exec(cfg, steps[..n]), steps[n];
      RunServes(cfg, steps[..n]);
      assert s.limiter == Serve(cfg.limits, Passes(steps[..n])).0;
      if last.Call? {
        CallEffect(cfg, s, last.request, last.env);
        var p := PassOf(last.request, last.env);
        assert p.committee == RateKey(last.request.identity);
        ServeSnoc(cfg.limits, Passes(steps[..n]), p);
        assert Passes(steps) == Passes(steps[..n]) + [p];
      } else {
        assert Apply(cfg, s, last).limiter == s.limiter;
        assert Passes(steps) == Passes(steps[..n]);
      }
    }
  }

  /** In every run, on any clocks, the limiter admits a call if and only if both windows have room, read
      off the earlier calls of the run alone. */
  lemma AdmittedIffWindowsHaveRoom(cfg: Config, steps: seq<Step>, req: CallRequest, env: Environment)
    requires LimiterSane(cfg.limits)
    ensures Admitted(cfg, Exec(cfg, steps), req, env) <==>
            && CommitteeHasRoom(cfg.limits, Passes(steps), PassOf(req, env))
            && GlobalHasRoom(cfg.limits, Passes(steps), PassOf(req, env))
  {
    RunServes(cfg, steps);
    ServeTracks(cfg.limits, Passes(steps));
    LimiterStep(cfg.limits, Serve(cfg.limits, Passes(steps)).0, Passes(steps), PassOf(req, env));
  }

  // ---------------------------------------------------------------------------------------------
  // Throughput in configured terms
  // ---------------------------------------------------------------------------------------------

  /** The downstream calls made by members of one committee: those whose first committee it is, or callers
      of that name without one; a caller with neither counts as "_unknown". */
  function MadeBy(sent: seq<Invocation>, committee: string): nat {
    if sent == [] then 0
    else
      var n := |sent| - 1;
      var id := sent[n].request.identity;
      var name := if id.committees == [] then id.subject else id.committees[0];
      MadeBy(sent[..n], committee) + if (if name == "" then "_unknown" else name) == committee then 1 else 0
  }

  lemma {:induction false} MadeByIsCharged(sent: seq<Invocation>, committee: string)
    ensures MadeBy(sent, committee) == Charged(sent, Committee(committee))
  {
    if sent != [] {
      MadeByIsCharged(sent[..|sent| - 1], committee);
    }
  }

  /** Sixty times the calls are at most sixty times the burst plus the calls a minute times the seconds. */
  ghost predicate WithinBudget(perMinute: int, burst: int, calls: int, elapsed: real) {
    60.0 * calls as real <= 60.0 * BurstOf(burst) as real + perMinute as real * elapsed
  }

  lemma ConfiguredBound(perMinute: int, burst: int, calls: int, elapsed: real)
    requires WithinRate(MakeRate(perMinute, burst), calls, elapsed)
    ensures WithinBudget(perMinute, burst, calls, elapsed)
  {
    PerSecond(perMinute, elapsed);
  }

  lemma MeterWithinBudget(cfg: Config, m: Meter, perMinute: int, burst: int, steps: seq<Step>, from: nat, to: nat,
                          calls: int, elapsed: real)
    requires LimiterSane(cfg.limits) && RateOf(cfg, m) == Some(MakeRate(perMinute, burst)) && from <= to <= |steps|
    requires calls == Charged(Exec(cfg, steps[..to]).sent, m) - Charged(Exec(cfg, steps[..from]).sent, m)
    requires elapsed == Elapsed(History(cfg, m, steps), KeyOf(m), from, to)
    ensures WithinBudget(perMinute, burst, calls, elapsed)
  {
    MeterWithinRate(cfg, m, steps, from, to, calls, elapsed);
    ConfiguredBound(perMinute, burst, calls, elapsed);
  }

  lemma MeterWithinRate(cfg: Config, m: Meter, steps: seq<Step>, from: nat, to: nat, calls: int, elapsed: real)
    requires LimiterSane(cfg.limits) && RateOf(cfg, m).Some? && from <= to <= |steps|
    requires calls == Bill(cfg, m, steps)(to) - Bill(cfg, m, steps)(from)
    requires elapsed == Elapsed(History(cfg, m, steps), KeyOf(m), from, to)
    ensures WithinRate(RateOf(cfg, m).value, calls, elapsed)
  {
    ThroughputBound(cfg, m, steps, from, to);
  }

  /** For a gateway built with a global rate: over any stretch of any run its downstream calls are within
      that budget, for the seconds the bucket's mark moved. */
  lemma GlobalThroughput(cfg: Config, cpm: int, cburst: int, gpm: int, gburst: int, steps: seq<Step>,
                         from: nat, to: nat)
    requires cfg.limits == MakeLimiter(cpm, cburst, gpm, gburst) && gpm > 0 && from <= to <= |steps|
    ensures WithinBudget(gpm, gburst, |Exec(cfg, steps[..to]).sent| - |Exec(cfg, steps[..from]).sent|,
                         Elapsed(History(cfg, Global, steps), "_global", from, to))
  {
    var calls := |Exec(cfg, steps[..to]).sent| - |Exec(cfg, steps[..from]).sent|;
    GlobalChargesAll(Exec(cfg, steps[..to]).sent);
    GlobalChargesAll(Exec(cfg, steps[..from]).sent);
    MeterWithinBudget(cfg, Global, gpm, gburst, steps, from, to, calls,
                      Elapsed(History(cfg, Global, steps), "_global", from, to));
  }

  /** And for one built with a committee rate, each committee's downstream calls. */
  lemma CommitteeThroughput(cfg: Config, cpm: int, cburst: int, gpm: int, gburst: int, steps: seq<Step>,
                            committee: string, from: nat, to: nat)
    requires cfg.limits == MakeLimiter(cpm, cburst, gpm, gburst) && cpm > 0 && from <= to <= |steps|
    ensures WithinBudget(cpm, cburst, MadeBy(Exec(cfg, steps[..to]).sent, committee) -
                                      MadeBy(Exec(cfg, steps[..from]).sent, committee),
                         Elapsed(History(cfg, Committee(committee), steps), committee, from, to))
  {
    var calls := MadeBy(Exec(cfg, steps[..to]).sent, committee) - MadeBy(Exec(cfg, steps[..from]).sent, committee);
    MadeByIsCharged(Exec(cfg, steps[..to]).sent, committee);
    MadeByIsCharged(Exec(cfg, steps[..from]).sent, committee);
    MeterWithinBudget(cfg, Committee(committee), cpm, cburst, steps, from, to, calls,
                      Elapsed(History(cfg, Committee(committee), steps), committee, from, to));
  }
}
