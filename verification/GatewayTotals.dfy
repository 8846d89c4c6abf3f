/** Totals over whole gateway runs: throughput of the two buckets, and conservation of the audit log. */
module GatewayTotals {
  import opened Prelude
  import opened Limits
  import opened Store
  import opened Policy
  import opened GatewayRuns

  // ---------------------------------------------------------------------------------------------
  // Throughput
  // ---------------------------------------------------------------------------------------------

  /** One of the two kinds of bucket a call has to pay. */
  datatype Meter = Global | Committee(key: string)

  function RateOf(cfg: Config, m: Meter): Option<Rate> {
    if m.Global? then cfg.limits.global else cfg.limits.committee
  }

  function BucketsOf(s: State, m: Meter): Buckets {
    if m.Global? then s.limiter.global else s.limiter.committee
  }

  function KeyOf(m: Meter): string {
    if m.Global? then GLOBAL else m.key
  }

  /** Does the meter's bucket pay for a call by this identity? */
  predicate Pays(m: Meter, id: Identity) {
    m.Global? || CommitteeKey(RateKey(id)) == m.key
  }

  function Charged(sent: seq<Invocation>, m: Meter): nat {
    if sent == [] then 0
    else
      var n := |sent| - 1;
      Charged(sent[..n], m) + if Pays(m, sent[n].request.identity) then 1 else 0
  }

  lemma ChargedSnoc(sent: seq<Invocation>, i: Invocation, m: Meter)
    ensures Charged(sent + [i], m) == Charged(sent, m) + if Pays(m, i.request.identity) then 1 else 0
  {
    assert (sent + [i])[..|sent|] == sent;
  }

  lemma {:induction false} GlobalChargesAll(sent: seq<Invocation>)
    ensures Charged(sent, Global) == |sent|
  {
    if sent != [] {
      GlobalChargesAll(sent[..|sent| - 1]);
    }
  }

  /** Each step pays for the downstream call it makes. */
  lemma StepPays(cfg: Config, credit: real -> real, s: State, step: Step, m: Meter)
    requires LimiterSane(cfg.limits) && LimiterOk(cfg.limits, s.limiter)
    requires RateOf(cfg, m).Some? && Earns(RateOf(cfg, m).value, credit)
    ensures var s1 := Apply(cfg, s, step);
            && Charged(s.sent, m) <= Charged(s1.sent, m) <= Charged(s.sent, m) + 1
            && Paid(RateOf(cfg, m).value, credit, BucketsOf(s, m), BucketsOf(s1, m), KeyOf(m),
                    Charged(s1.sent, m) > Charged(s.sent, m))
  {
    if step.Call? {
      CallPays(cfg, credit, s, step.request, step.env, m);
    }
  }

  lemma CallPays(cfg: Config, credit: real -> real, s: State, req: CallRequest, env: Environment, m: Meter)
    requires LimiterSane(cfg.limits) && LimiterOk(cfg.limits, s.limiter)
    requires RateOf(cfg, m).Some? && Earns(RateOf(cfg, m).value, credit)
    ensures var s1 := Called(cfg, s, req, env).0;
            && Charged(s.sent, m) <= Charged(s1.sent, m) <= Charged(s.sent, m) + 1
            && Paid(RateOf(cfg, m).value, credit, BucketsOf(s, m), BucketsOf(s1, m), KeyOf(m),
                    Charged(s1.sent, m) > Charged(s.sent, m))
  {
    var committee, tc, tg := RateKey(req.identity), env.committeeClock, env.globalClock;
    if m.Global? {
      GlobalPays(cfg.limits, credit, s.limiter, committee, tc, tg);
    } else {
      CommitteePays(cfg.limits, credit, s.limiter, committee, tc, tg, m.key);
    }
    CallEffect(cfg, s, req, env);
    if MayProceed(cfg, s, req, env) {
      var s1 := Called(cfg, s, req, env).0;
      ChargedSnoc(s.sent, s1.sent[|s.sent|], m);
    }
  }

  /** The meter's buckets after the first `i` steps of a run. */
  function History(cfg: Config, m: Meter, steps: seq<Step>): nat -> Buckets {
    (i: nat) => if i <= |steps| then BucketsOf(Exec(cfg, steps[..i]), m) else map[]
  }

  /** What the meter was charged by then. */
  function Bill(cfg: Config, m: Meter, steps: seq<Step>): nat -> nat {
    (i: nat) => if i <= |steps| then Charged(Exec(cfg, steps[..i]).sent, m) else 0
  }

  lemma {:induction false} LimiterAlwaysOk(cfg: Config, steps: seq<Step>, n: nat)
    requires LimiterSane(cfg.limits) && n <= |steps|
    ensures LimiterOk(cfg.limits, Exec(cfg, steps[..n]).limiter)
  {
    if n > 0 {
      LimiterAlwaysOk(cfg, steps, n - 1);
      ExecStep(cfg, steps, n - 1);
      KeepsLimiterOk(cfg, Exec(cfg, steps[..n - 1]), steps[n - 1]);
    }
  }

  lemma KeepsLimiterOk(cfg: Config, s: State, step: Step)
    requires LimiterSane(cfg.limits) && LimiterOk(cfg.limits, s.limiter)
    ensures LimiterOk(cfg.limits, Apply(cfg, s, step).limiter)
  {
    if step.Call? {
      CallEffect(cfg, s, step.request, step.env);
      LimiterStaysOk(cfg.limits, s.limiter, RateKey(step.request.identity), step.env.committeeClock,
                     step.env.globalClock);
    }
  }

  lemma RunPays(cfg: Config, credit: real -> real, m: Meter, steps: seq<Step>, n: nat)
    requires LimiterSane(cfg.limits) && n < |steps|
    requires RateOf(cfg, m).Some? && Earns(RateOf(cfg, m).value, credit)
    ensures var (history, bill) := (History(cfg, m, steps), Bill(cfg, m, steps));
            && bill(n) <= bill(n + 1) <= bill(n) + 1
            && Paid(RateOf(cfg, m).value, credit, history(n), history(n + 1), KeyOf(m), bill(n + 1) > bill(n))
  {
    LimiterAlwaysOk(cfg, steps, n);
    StepPays(cfg, credit, Exec(cfg, steps[..n]), steps[n], m);
    ExecStep(cfg, steps, n);
  }

  lemma TokensInRange(cfg: Config, m: Meter, steps: seq<Step>, n: nat)
    requires LimiterSane(cfg.limits) && RateOf(cfg, m).Some? && n <= |steps|
    ensures var c := RateOf(cfg, m).value;
            0.0 <= Tokens(c, History(cfg, m, steps)(n), KeyOf(m)) <= c.burst
  {
    LimiterAlwaysOk(cfg, steps, n);
  }

  lemma RunPaysThroughout(cfg: Config, credit: real -> real, m: Meter, steps: seq<Step>, from: nat, to: nat)
    requires LimiterSane(cfg.limits) && from <= to <= |steps|
    requires RateOf(cfg, m).Some? && Earns(RateOf(cfg, m).value, credit)
    ensures PaysAsItGoes(RateOf(cfg, m).value, credit, History(cfg, m, steps), Bill(cfg, m, steps), KeyOf(m), from, to)
  {
    var history, bill := History(cfg, m, steps), Bill(cfg, m, steps);
    forall i: nat | from <= i < to
      ensures bill(i) <= bill(i + 1) <= bill(i) + 1
      ensures Paid(RateOf(cfg, m).value, credit, history(i), history(i + 1), KeyOf(m), bill(i + 1) > bill(i))
    {
      RunPays(cfg, credit, m, steps, i);
    }
  }

  lemma StretchBound(cfg: Config, credit: real -> real, m: Meter, steps: seq<Step>, from: nat, to: nat)
    requires LimiterSane(cfg.limits) && from <= to <= |steps|
    requires RateOf(cfg, m).Some? && Earns(RateOf(cfg, m).value, credit)
    ensures var (history, bill) := (History(cfg, m, steps), Bill(cfg, m, steps));
            var (c, key) := (RateOf(cfg, m).value, KeyOf(m));
            var elapsed := Elapsed(history, key, from, to);
            && elapsed >= 0.0
            && (bill(to) - bill(from)) as real <= c.burst + ElapsedCredit(credit, history, key, from, to)
            && (key in history(from) ==>
                  key in history(to) && elapsed == history(to)[key].last - history(from)[key].last)
  {
    RunPaysThroughout(cfg, credit, m, steps, from, to);
    StretchIsPaid(RateOf(cfg, m).value, credit, History(cfg, m, steps), Bill(cfg, m, steps), KeyOf(m), from, to);
    TokensInRange(cfg, m, steps, from);
    TokensInRange(cfg, m, steps, to);
  }

  ghost predicate WithinRate(c: Rate, calls: int, elapsed: real) {
    calls as real <= c.burst + c.perSecond * elapsed
  }

  /** End-to-end throughput: over any stretch of any run, even with clocks that step back, the
      downstream calls a bucket pays for number at most its burst plus its rate times the advance of
      its own high-water mark; and for a bucket that exists when the stretch begins, that advance is
      the difference of its marks. */
  lemma ThroughputBound(cfg: Config, m: Meter, steps: seq<Step>, from: nat, to: nat)
    requires LimiterSane(cfg.limits) && RateOf(cfg, m).Some? && from <= to <= |steps|
    ensures var (history, bill) := (History(cfg, m, steps), Bill(cfg, m, steps));
            var (c, key) := (RateOf(cfg, m).value, KeyOf(m));
            var elapsed := Elapsed(history, key, from, to);
            && elapsed >= 0.0
            && WithinRate(c, bill(to) - bill(from), elapsed)
            && (key in history(from) ==>
                  key in history(to) && elapsed == history(to)[key].last - history(from)[key].last)
  {
    var c, key := RateOf(cfg, m).value, KeyOf(m);
    var credit, history := (t: real) => c.perSecond * t, History(cfg, m, steps);
    StretchBound(cfg, credit, m, steps, from, to);
    ElapsedEarns(c, credit, history, key, from, to);
    CreditIsWithinRate(c, Bill(cfg, m, steps)(to) - Bill(cfg, m, steps)(from),
                       ElapsedCredit(credit, history, key, from, to), Elapsed(history, key, from, to));
  }

  lemma CreditIsWithinRate(c: Rate, calls: int, earned: real, elapsed: real)
    requires calls as real <= c.burst + earned && earned == c.perSecond * elapsed
    ensures WithinRate(c, calls, elapsed)
  {}

  lemma ConfiguredLimiterIsSane(committeePerMinute: int, committeeBurst: int, globalPerMinute: int, globalBurst: int)
    ensures LimiterSane(MakeLimiter(committeePerMinute, committeeBurst, globalPerMinute, globalBurst))
  {}

  // ---------------------------------------------------------------------------------------------
  // The audit log
  // ---------------------------------------------------------------------------------------------

  predicate FaultFree(step: Step) {
    match step
    case Call(_, env) => !env.resolveFault && !env.listFault && !env.createFault && !env.auditFault
    case Register(_, fault, auditFault) => fault == NoFault && !auditFault
    case _ => true
  }

  function Calls(steps: seq<Step>): nat {
    if steps == [] then 0
    else Calls(steps[..|steps| - 1]) + if steps[|steps| - 1].Call? then 1 else 0
  }

  /** Registrations the registry accepted. */
  function Registrations(cfg: Config, steps: seq<Step>): nat {
    if steps == [] then 0
    else
      var n := |steps| - 1;
      Registrations(cfg, steps[..n]) +
      if steps[n].Register? && Registered(Exec(cfg, steps[..n]).db.tables, steps[n].input).Some? then 1 else 0
  }

  datatype RowKind = Executed | Gate | Refusal

  function KindOf(result: AuditResult): RowKind {
    if result.Ok? || result.Error? then Executed
    else if result.AwaitingApproval? then Gate
    else Refusal
  }

  function Kind(row: AuditRow): RowKind {
    KindOf(row.result)
  }

  function CountKind(rows: seq<AuditRow>, k: RowKind): nat {
    if rows == [] then 0
    else
      var n := |rows| - 1;
      CountKind(rows[..n], k) + if Kind(rows[n]) == k then 1 else 0
  }

  lemma CountKindSnoc(rows: seq<AuditRow>, row: AuditRow, k: RowKind)
    ensures CountKind(rows + [row], k) == CountKind(rows, k) + if Kind(row) == k then 1 else 0
  {
    assert (rows + [row])[..|rows|] == rows;
  }

  /** A fault-free call writes one row: "ok" or "error: ..." if it ran downstream, "gated" if it
      opened an approval, a refusal otherwise. */
  lemma CallAuditsItsFate(cfg: Config, s: State, req: CallRequest, env: Environment) returns (row: AuditRow)
    requires FaultFree(Call(req, env))
    ensures var s1 := Called(cfg, s, req, env).0;
            && s1.db.audit == s.db.audit + [row]
            && |s1.sent| == |s.sent| + (if Kind(row) == Executed then 1 else 0)
            && |s1.db.approvals| == |s.db.approvals| + (if Kind(row) == Gate then 1 else 0)
  {
    var v := Ruled(cfg, s, req, env);
    assert v.state.db.audit == s.db.audit && v.result.Some?;
    row := Called(cfg, s, req, env).0.db.audit[|s.db.audit|];
  }

  predicate Accepted(s: State, step: Step) {
    step.Register? && Registered(s.db.tables, step.input).Some?
  }

  lemma StepConserves(cfg: Config, s: State, step: Step)
    requires FaultFree(step)
    ensures var s1 := Apply(cfg, s, step);
            && |s1.db.audit| == |s.db.audit| + (if step.Call? || Accepted(s, step) then 1 else 0)
            && CountKind(s1.db.audit, Executed) - CountKind(s.db.audit, Executed)
                 == |s1.sent| - |s.sent| + (if Accepted(s, step) then 1 else 0)
            && CountKind(s1.db.audit, Gate) - CountKind(s.db.audit, Gate) == |s1.db.approvals| - |s.db.approvals|
  {
    if step.Call? {
      var row := CallAuditsItsFate(cfg, s, step.request, step.env);
      CountKindSnoc(s.db.audit, row, Executed);
      CountKindSnoc(s.db.audit, row, Gate);
    } else if Accepted(s, step) {
      var row := AuditRow(s.db.nextAudit, "registry", "register:" + step.input.name, "{}", AuditResult.Ok);
      CountKindSnoc(s.db.audit, row, Executed);
      CountKindSnoc(s.db.audit, row, Gate);
    }
  }

  /** Audit conservation: in a run where the database does not fail, every call and every accepted
      registration leaves exactly one row; "ok" and "error: ..." rows are the downstream invocations
      and the registrations; "gated" rows are the approvals. */
  lemma {:induction false} AuditConservation(cfg: Config, steps: seq<Step>)
    requires forall i :: 0 <= i < |steps| ==> FaultFree(steps[i])
    ensures var s := Exec(cfg, steps);
            && |s.db.audit| == Calls(steps) + Registrations(cfg, steps)
            && CountKind(s.db.audit, Executed) == |s.sent| + Registrations(cfg, steps)
            && CountKind(s.db.audit, Gate) == |s.db.approvals|
  {
    if steps != [] {
      var n := |steps| - 1;
      AuditConservation(cfg, steps[..n]);
      StepConserves(cfg, Exec(cfg, steps[..n]), steps[n]);
    }
  }

  // With database failures the same totals hold once the lost rows are counted.

  /** The registry committed the registration, whether or not its caller was told. */
  predicate Committed(s: State, step: Step) {
    Accepted(s, step) && step.fault != BeforeCommit
  }

  /** The audit result a step comes to, if it comes to one. */
  function Due(cfg: Config, s: State, step: Step): Option<AuditResult> {
    match step
    case Call(req, env) => Ruled(cfg, s, req, env).result
    case Register(_, _, _) => if Committed(s, step) then Some(AuditResult.Ok) else None
    case _ => None
  }

  /** A failure keeps the step's row from being written. */
  predicate Loses(step: Step) {
    match step
    case Call(_, env) => env.auditFault
    case Register(_, fault, auditFault) => fault != NoFault || auditFault
    case _ => false
  }

  function One(b: bool): nat {
    if b then 1 else 0
  }

  predicate DueOf(cfg: Config, s: State, step: Step, k: RowKind) {
    var due := Due(cfg, s, step);
    due.Some? && KindOf(due.value) == k
  }

  /** Steps whose row of kind `k` a failure lost. */
  function Lost(cfg: Config, steps: seq<Step>, k: RowKind): nat {
    if steps == [] then 0
    else
      var n := |steps| - 1;
      Lost(cfg, steps[..n], k) + One(Loses(steps[n]) && DueOf(cfg, Exec(cfg, steps[..n]), steps[n], k))
  }

  function Commits(cfg: Config, steps: seq<Step>): nat {
    if steps == [] then 0
    else
      var n := |steps| - 1;
      Commits(cfg, steps[..n]) + One(Committed(Exec(cfg, steps[..n]), steps[n]))
  }

  /** A step writes the row it comes to, and no other, unless a failure loses it. */
  lemma StepWritesItsDue(cfg: Config, s: State, step: Step) returns (rows: seq<AuditRow>)
    ensures Apply(cfg, s, step).db.audit == s.db.audit + rows
    ensures if Due(cfg, s, step).Some? && !Loses(step)
            then |rows| == 1 && rows[0].result == Due(cfg, s, step).value
            else rows == []
  {
    rows := AtMostOneRow(cfg, s, step);
    if step.Call? {
      CallWritesItsDue(cfg, s, step.request, step.env, rows);
    } else if step.Register? {
      RegisterWritesItsDue(s, step.input, step.fault, step.auditFault, rows);
    }
  }

  lemma RegisterWritesItsDue(s: State, input: ServerInput, fault: Fault, auditFault: bool, rows: seq<AuditRow>)
    requires RegisterStep(s, input, fault, auditFault).db.audit == s.db.audit + rows && |rows| <= 1
    ensures if Registered(s.db.tables, input).Some? && fault == NoFault && !auditFault
            then |rows| == 1 && rows[0].result == AuditResult.Ok
            else rows == []
  {
    if rows != [] {
      assert rows[0] == (s.db.audit + rows)[|s.db.audit|];
    }
  }

  lemma CallWritesItsDue(cfg: Config, s: State, req: CallRequest, env: Environment, rows: seq<AuditRow>)
    requires Called(cfg, s, req, env).0.db.audit == s.db.audit + rows && |rows| <= 1
    ensures var due := Ruled(cfg, s, req, env).result;
            if due.Some? && !env.auditFault then |rows| == 1 && rows[0].result == due.value else rows == []
  {
    var v := Ruled(cfg, s, req, env);
    assert v.state.db.audit == s.db.audit;
    if v.result.Some? && !env.auditFault {
      assert rows[0] == (s.db.audit + rows)[|s.db.audit|];
    }
  }

  /** An executed row is due for each downstream call and each committed registration, a gate row for
      each approval opened; failures or not. */
  lemma StepIsDue(cfg: Config, s: State, step: Step)
    ensures var s1 := Apply(cfg, s, step);
            && |s1.sent| - |s.sent| == One(DueOf(cfg, s, step, Executed)) - One(Committed(s, step))
            && |s1.db.approvals| - |s.db.approvals| == One(DueOf(cfg, s, step, Gate))
  {
    if step.Call? {
      CallIsDue(cfg, s, step.request, step.env);
    }
  }

  /** The ruling `v` on a call from `s` runs it if an executed row is due, and opens an approval if a gate
      row is due. */
  predicate RulingIsDue(s: State, v: Ruling) {
    && |v.state.sent| - |s.sent| == One(v.result.Some? && KindOf(v.result.value) == Executed)
    && |v.state.db.approvals| - |s.db.approvals| == One(v.result.Some? && KindOf(v.result.value) == Gate)
  }

  lemma GovernedIsDue(cfg: Config, s: State, req: CallRequest, env: Environment, row: ServerRow, tool: Tool)
    ensures RulingIsDue(s, Governed(cfg, s, req, env, row, tool))
  {}

  lemma DispatchedIsDue(cfg: Config, s: State, req: CallRequest, env: Environment)
    ensures RulingIsDue(s, Dispatched(cfg, s, req, env))
  {
    var found := Resolve(s.db.tables, req.server, req.tool);
    if found.Some? {
      var (row, tool) := found.value;
      GovernedIsDue(cfg, s, req, env, row, Tool(req.tool, tool.scope, tool.impact));
    }
  }

  lemma CallIsDue(cfg: Config, s: State, req: CallRequest, env: Environment)
    ensures RulingIsDue(s, Ruled(cfg, s, req, env))
    ensures var (s1, v) := (Called(cfg, s, req, env).0, Ruled(cfg, s, req, env));
            s1.sent == v.state.sent && s1.db.approvals == v.state.db.approvals
  {
    var limiter := LimiterAllow(cfg.limits, s.limiter, RateKey(req.identity),
                                env.committeeClock, env.globalClock).0;
    DispatchedIsDue(cfg, s.(limiter := limiter), req, env);
  }

  lemma CountKindAppend(before: seq<AuditRow>, rows: seq<AuditRow>, k: RowKind)
    requires |rows| <= 1
    ensures CountKind(before + rows, k) == CountKind(before, k) + One(rows != [] && Kind(rows[0]) == k)
  {
    if rows == [] {
      assert before + rows == before;
    } else {
      assert rows == [rows[0]];
      CountKindSnoc(before, rows[0], k);
    }
  }

  lemma StepBalances(cfg: Config, s: State, step: Step, k: RowKind)
    ensures CountKind(Apply(cfg, s, step).db.audit, k) + One(Loses(step) && DueOf(cfg, s, step, k)) ==
            CountKind(s.db.audit, k) + One(DueOf(cfg, s, step, k))
  {
    var rows := StepWritesItsDue(cfg, s, step);
    CountKindAppend(s.db.audit, rows, k);
  }

  /** Audit conservation in every run, whatever fails: the "ok" and "error: ..." rows, written or lost,
      are the downstream invocations and the committed registrations; the "gated" rows, written or lost,
      are the approvals. */
  lemma {:induction false} AuditConservationUnderFaults(cfg: Config, steps: seq<Step>)
    ensures var s := Exec(cfg, steps);
            && CountKind(s.db.audit, Executed) + Lost(cfg, steps, Executed) == |s.sent| + Commits(cfg, steps)
            && CountKind(s.db.audit, Gate) + Lost(cfg, steps, Gate) == |s.db.approvals|
  {
    if steps != [] {
      var n := |steps| - 1;
      var s := Exec(cfg, steps[..n]);
      AuditConservationUnderFaults(cfg, steps[..n]);
      StepIsDue(cfg, s, steps[n]);
      StepBalances(cfg, s, steps[n], Executed);
      StepBalances(cfg, s, steps[n], Gate);
    }
  }

  ghost predicate IdsOk(db: Db) {
    && db.nextAudit > 0
    && (forall i :: 0 <= i < |db.audit| ==> 0 < db.audit[i].id < db.nextAudit)
    && (forall i, j :: 0 <= i < j < |db.audit| ==> db.audit[i].id < db.audit[j].id)
  }

  lemma AtMostOneRow(cfg: Config, s: State, step: Step) returns (rows: seq<AuditRow>)
    ensures var db := Apply(cfg, s, step).db;
            && db.audit == s.db.audit + rows && |rows| <= 1
            && db.nextAudit == s.db.nextAudit + |rows|
            && (rows != [] ==> rows[0].id == s.db.nextAudit)
  {
    if step.Call? {
      var v := Ruled(cfg, s, step.request, step.env);
      assert v.state.db.audit == s.db.audit && v.state.db.nextAudit == s.db.nextAudit;
    }
    var audit := Apply(cfg, s, step).db.audit;
    rows := if |audit| == |s.db.audit| then [] else [audit[|s.db.audit|]];
  }

  lemma StepKeepsIds(cfg: Config, s: State, step: Step)
    requires IdsOk(s.db)
    ensures IdsOk(Apply(cfg, s, step).db) && s.db.audit <= Apply(cfg, s, step).db.audit
  {
    var rows := AtMostOneRow(cfg, s, step);
    IdsOkSnoc(s.db, rows, Apply(cfg, s, step).db);
  }

  lemma IdsOkSnoc(db: Db, rows: seq<AuditRow>, db1: Db)
    requires IdsOk(db) && db1.audit == db.audit + rows && |rows| <= 1
    requires db1.nextAudit == db.nextAudit + |rows| && (rows != [] ==> rows[0].id == db.nextAudit)
    ensures IdsOk(db1)
  {}

  /** Whatever fails, audit ids increase strictly. */
  lemma {:induction false} AuditIdsIncrease(cfg: Config, steps: seq<Step>)
    ensures IdsOk(Exec(cfg, steps).db)
  {
    if steps != [] {
      var n := |steps| - 1;
      AuditIdsIncrease(cfg, steps[..n]);
      StepKeepsIds(cfg, Exec(cfg, steps[..n]), steps[n]);
    }
  }

  lemma StepAppends(cfg: Config, steps: seq<Step>, n: nat)
    requires n < |steps|
    ensures Exec(cfg, steps[..n]).db.audit <= Exec(cfg, steps[..n + 1]).db.audit
  {
    ExecStep(cfg, steps, n);
    var rows := AtMostOneRow(cfg, Exec(cfg, steps[..n]), steps[n]);
  }

  /** And rows are only ever appended. */
  lemma {:induction false} AuditIsAppendOnly(cfg: Config, steps: seq<Step>, m: nat, n: nat)
    requires m <= n <= |steps|
    ensures Exec(cfg, steps[..m]).db.audit <= Exec(cfg, steps[..n]).db.audit
  {
    if m < n {
      AuditIsAppendOnly(cfg, steps, m, n - 1);
      StepAppends(cfg, steps, n - 1);
      PrefixOfPrefix(Exec(cfg, steps[..m]).db.audit, Exec(cfg, steps[..n - 1]).db.audit,
                     Exec(cfg, steps[..n]).db.audit);
    }
  }

  lemma PrefixOfPrefix(a: seq<AuditRow>, b: seq<AuditRow>, c: seq<AuditRow>)
    requires a <= b && b <= c
    ensures a <= c
  {}

  /** A rate-limited call leaves registry, approvals and downstream untouched; the run shows it only
      in the limiter and, unless the write fails, one audit row. */
  lemma RateLimitedTouchesNothing(cfg: Config, s: State, req: CallRequest, env: Environment)
    requires !Admitted(cfg, s, req, env)
    ensures var (s1, r) := Called(cfg, s, req, env);
            && r == Failed(RateLimited, 0)
            && s1.db.tables == s.db.tables && s1.db.approvals == s.db.approvals && s1.sent == s.sent
            && s1.db.audit == (if env.auditFault then s.db.audit
                 else s.db.audit + [AuditRow(s.db.nextAudit, req.identity.subject, req.server + "/" + req.tool,
                                             DefaultJson(cfg.redact(req.args)), DeniedRate)])
  {}
}
