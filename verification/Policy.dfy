/** The gateway's policy engine (gateway/internal/policy/gateway.go) over the repository, the limiter
    and a downstream caller. What the outside world decides during one call (clock readings, database
    failures, the downstream reply) is an argument. */
module Policy {
  import opened Prelude
  import opened Limits
  import opened Ordering
  import opened Store

  datatype Identity = Identity(subject: string, committees: seq<string>, isAgent: bool)

  datatype CallRequest = CallRequest(identity: Identity, session: string, server: string, tool: string,
                                     args: string)

  /** One downstream invocation: the server row and tool it was routed to, with the raw arguments. */
  datatype Invocation = Invocation(request: CallRequest, server: ServerRow, tool: Tool, args: string)

  datatype Environment = Environment(committeeClock: real, globalClock: real, reply: Result<string, string>,
                                     resolveFault: bool, listFault: bool, createFault: bool, auditFault: bool)

  datatype CallError =
    | RateLimited
    | UnknownTool
    | Unauthorized
    | ApprovalRequired(approval: nat, tool: string)
    | StoreFailure
    | Downstream(message: string)

  datatype Outcome = Answer(output: string, auditId: nat) | Failed(error: CallError, auditId: nat)

  datatype Config = Config(limits: LimiterConfig, redact: string -> string)

  datatype State = State(db: Db, limiter: LimiterState, sent: seq<Invocation>)

  function RateKey(id: Identity): string {
    if |id.committees| > 0 then id.committees[0] else id.subject
  }

  /** Approved, enabled, and granted to one of the caller's committees. */
  predicate Authorized(t: Tables, row: ServerRow, committees: seq<string>) {
    row.lifecycle == Approved && row.enabled && exists c :: c in committees && (row.id, c) in t.grants
  }

  predicate HasApproval(approvals: seq<Approval>, session: string, tool: string) {
    session != "" &&
    exists a :: a in approvals && a.session == Some(session) && a.tool == tool && a.status == Granted
  }

  /** What the gateway decided about one call before auditing it: the state so far, the audit result
      to write (none after a database failure), and the answer. */
  datatype Ruling = Ruling(state: State, result: Option<AuditResult>, answer: Result<string, CallError>)

  function Refused(s: State, result: AuditResult, error: CallError): Ruling {
    Ruling(s, Some(result), Err(error))
  }

  function Broken(s: State): Ruling {
    Ruling(s, None, Err(StoreFailure))
  }

  /** The gateway consults the limiter, the registry and, for impact "high", the approvals; only then
      does it call downstream. */
  function Ruled(cfg: Config, s: State, req: CallRequest, env: Environment): Ruling {
    var (limiter, admitted) := LimiterAllow(cfg.limits, s.limiter, RateKey(req.identity),
                                            env.committeeClock, env.globalClock);
    var s1 := s.(limiter := limiter);
    if admitted then Dispatched(cfg, s1, req, env) else Refused(s1, DeniedRate, RateLimited)
  }

  function Dispatched(cfg: Config, s: State, req: CallRequest, env: Environment): Ruling {
    if env.resolveFault then Broken(s)
    else
      var found := Resolve(s.db.tables, req.server, req.tool);
      if found.None? then Refused(s, DeniedUnknown, UnknownTool)
      else
        var (row, tool) := found.value;
        if !Authorized(s.db.tables, row, req.identity.committees) then
          Refused(s, DeniedUnauthorized, Unauthorized)
        else Governed(cfg, s, req, env, row, Tool(req.tool, tool.scope, tool.impact))
  }

  function Governed(cfg: Config, s: State, req: CallRequest, env: Environment, row: ServerRow, tool: Tool): Ruling {
    if tool.impact == High && req.session != "" && env.listFault then Broken(s)
    else if tool.impact == High && !HasApproval(s.db.approvals, req.session, req.tool) then Gated(cfg, s, req, env)
    else Forwarded(s, req, env, row, tool)
  }

  function Gated(cfg: Config, s: State, req: CallRequest, env: Environment): Ruling {
    if env.createFault then Broken(s)
    else
      Refused(s.(db := WithApproval(s.db, req.session, req.tool, cfg.redact(req.args))), AwaitingApproval,
              ApprovalRequired(|s.db.approvals|, req.tool))
  }

  function Forwarded(s: State, req: CallRequest, env: Environment, row: ServerRow, tool: Tool): Ruling {
    var s1 := s.(sent := s.sent + [Invocation(req, row, tool, req.args)]);
    match env.reply
    case Ok(output) => Ruling(s1, Some(AuditResult.Ok), Result.Ok(output))
    case Err(message) => Ruling(s1, Some(Error(message)), Err(Downstream(message)))
  }

  /** Writes the ruling's audit row; only a forwarded call reports the row's id. */
  function Concluded(cfg: Config, v: Ruling, req: CallRequest, env: Environment): (State, Outcome) {
    var write := v.result.Some? && !env.auditFault;
    var s1 := if write then v.state.(db := WithAudit(v.state.db, req.identity.subject, req.server + "/" + req.tool,
                                                     cfg.redact(req.args), v.result.value))
              else v.state;
    var forwarded := v.result.Some? && (v.result.value.Ok? || v.result.value.Error?);
    var id := if write && forwarded then v.state.db.nextAudit else 0;
    (s1, if v.answer.Ok? then Answer(v.answer.value, id) else Failed(v.answer.error, id))
  }

  function Called(cfg: Config, s: State, req: CallRequest, env: Environment): (State, Outcome) {
    Concluded(cfg, Ruled(cfg, s, req, env), req, env)
  }

  class Gateway {
    const store: Repository
    const limiter: Limiter?
    const redact: string -> string
    var sent: seq<Invocation>

    ghost predicate Valid()
    {
      limiter != null ==> limiter.Valid()
    }

    ghost function Cfg(): Config
    {
      Config(if limiter == null then LimiterConfig(None, None) else limiter.Config(), redact)
    }

    ghost function View(): State
      reads this, store, LimiterFrame()
    {
      State(store.View(), if limiter == null then LimiterState(map[], map[]) else limiter.View(), sent)
    }

    ghost function LimiterFrame(): set<object?>
    {
      if limiter == null then {} else {limiter.committee, limiter.global}
    }

    constructor (store: Repository, limiter: Limiter?, redact: string -> string)
      requires limiter != null ==> limiter.Valid()
      ensures Valid() && this.store == store && this.limiter == limiter && this.redact == redact
      ensures sent == []
    {
      this.store, this.limiter, this.redact, sent := store, limiter, redact, [];
    }

    method Audit(req: CallRequest, result: AuditResult, fault: bool) returns (id: nat)
      requires Valid()
      modifies store
      ensures id == if fault then 0 else old(store.nextAudit)
      ensures store.View() == if fault then old(store.View())
              else WithAudit(old(store.View()), req.identity.subject, req.server + "/" + req.tool,
                             redact(req.args), result)
    {
      id := store.WriteAudit(req.identity.subject, req.server + "/" + req.tool, redact(req.args), result, fault);
    }

    /** Adds or updates a server and audits the change. */
    method Register(input: ServerInput, fault: Fault, auditFault: bool) returns (r: Result<Server, StoreError>)
      requires Valid()
      modifies store
      ensures View() == RegisterStep(old(View()), input, fault, auditFault)
      ensures r.Ok? <==> Registered(old(store.Registry()), input).Some? && fault == NoFault
    {
      r := store.RegisterServer(input, fault);
      if r.Err? {
        return r;
      }
      var _ := store.WriteAudit("registry", "register:" + input.name, "", AuditResult.Ok, auditFault);
    }

    method ListTools(id: Identity, fault: bool) returns (r: Result<seq<VisibleTool>, StoreError>)
      requires Valid() && TablesOk(store.Registry())
      ensures r.Err? <==> id.committees != [] && fault
      ensures r.Ok? ==> Lists(r.value, JoinRows(store.Registry(), id.committees), VisibleColumns)
    {
      r := store.ListVisibleTools(id.committees, fault);
    }

    method CheckAuthorized(s: Server, id: Identity) returns (ok: bool)
      requires IsServer(store.Registry(), s.name, s)
      ensures ok == Authorized(store.Registry(), s.row, id.committees)
    {
      if s.row.lifecycle != Approved || !s.row.enabled {
        return false;
      }
      for i := 0 to |id.committees|
        invariant forall c :: c in id.committees[..i] ==> c !in s.committees
      {
        for j := 0 to |s.committees|
          invariant id.committees[i] !in s.committees[..j]
        {
          if id.committees[i] == s.committees[j] {
            assert s.committees[j] in CommitteeRows(store.Registry(), s.row.id);
            return true;
          }
        }
      }
      assert id.committees[..|id.committees|] == id.committees;
      forall c | c in id.committees ensures (s.row.id, c) !in store.grants {
        assert c in CommitteeRows(store.Registry(), s.row.id) <==> (s.row.id, c) in store.grants;
      }
      return false;
    }

    method CheckApproval(session: string, tool: string, fault: bool) returns (r: Result<bool, StoreError>)
      ensures r.Err? <==> session != "" && fault
      ensures r.Ok? ==> r.value == HasApproval(store.approvals, session, tool)
    {
      if session == "" {
        return Result.Ok(false);
      }
      var listed := store.ListApprovalsBySession(session, fault);
      if listed.Err? {
        return Err(listed.error);
      }
      var approvals := listed.value;
      forall a ensures a in approvals <==> a in store.approvals && a.session == Some(session) {
        OfSessionMembers(store.approvals, session, a);
      }
      for i := 0 to |approvals|
        invariant forall j :: 0 <= j < i ==> !(approvals[j].tool == tool && approvals[j].status == Granted)
      {
        if approvals[i].tool == tool && approvals[i].status == Granted {
          assert approvals[i] in approvals;
          return Result.Ok(true);
        }
      }
      return Result.Ok(false);
    }

    method Call(req: CallRequest, env: Environment) returns (r: Outcome)
      requires Valid()
      modifies `sent, store, LimiterFrame()
      ensures (View(), r) == Called(Cfg(), old(View()), req, env)
    {
      if limiter != null {
        var admitted := limiter.Allow(RateKey(req.identity), env.committeeClock, env.globalClock);
        if !admitted {
          var _ := Audit(req, DeniedRate, env.auditFault);
          return Failed(RateLimited, 0);
        }
      }
      r := Dispatch(req, env);
    }

    method Dispatch(req: CallRequest, env: Environment) returns (r: Outcome)
      requires Valid()
      modifies `sent, store
      ensures (View(), r) == Concluded(Cfg(), Dispatched(Cfg(), old(View()), req, env), req, env)
    {
      var resolved := store.ResolveTool(req.server, req.tool, env.resolveFault);
      if resolved.Err? {
        if resolved.error == NotFound {
          var _ := Audit(req, DeniedUnknown, env.auditFault);
          return Failed(UnknownTool, 0);
        }
        return Failed(StoreFailure, 0);
      }
      var binding := resolved.value;
      var authorized := CheckAuthorized(binding.server, req.identity);
      if !authorized {
        var _ := Audit(req, DeniedUnauthorized, env.auditFault);
        return Failed(Unauthorized, 0);
      }
      r := Govern(req, env, binding);
    }

    method Govern(req: CallRequest, env: Environment, binding: ToolBinding) returns (r: Outcome)
      requires Valid() && binding.tool.name == req.tool
      modifies `sent, store
      ensures (View(), r) ==
              Concluded(Cfg(), Governed(Cfg(), old(View()), req, env, binding.server.row, binding.tool), req, env)
    {
      if binding.tool.impact == High {
        var approved := CheckApproval(req.session, req.tool, env.listFault);
        if approved.Err? {
          return Failed(StoreFailure, 0);
        }
        if !approved.value {
          r := Gate(req, env);
          return;
        }
      }
      r := Proxy(req, env, binding);
    }

    method Gate(req: CallRequest, env: Environment) returns (r: Outcome)
      requires Valid()
      modifies store
      ensures (View(), r) == Concluded(Cfg(), Gated(Cfg(), old(View()), req, env), req, env)
    {
      var created := store.CreateApproval(req.session, req.tool, redact(req.args), env.createFault);
      if created.Err? {
        return Failed(StoreFailure, 0);
      }
      var _ := Audit(req, AwaitingApproval, env.auditFault);
      return Failed(ApprovalRequired(created.value, req.tool), 0);
    }

    method Proxy(req: CallRequest, env: Environment, binding: ToolBinding) returns (r: Outcome)
      requires Valid() && binding.tool.name == req.tool
      modifies `sent, store
      ensures (View(), r) ==
              Concluded(Cfg(), Forwarded(old(View()), req, env, binding.server.row, binding.tool), req, env)
    {
      sent := sent + [Invocation(req, binding.server.row, binding.tool, req.args)];
      var result := AuditResult.Ok;
      if env.reply.Err? {
        result := Error(env.reply.error);
      }
      var id := Audit(req, result, env.auditFault);
      if env.reply.Err? {
        return Failed(Downstream(env.reply.error), id);
      }
      return Answer(env.reply.value, id);
    }
  }

  function RegisterStep(s: State, input: ServerInput, fault: Fault, auditFault: bool): State {
    var t := Registered(s.db.tables, input);
    if t.None? || fault == BeforeCommit then s
    else
      var db := s.db.(tables := t.value);
      s.(db := if fault == AfterCommit || auditFault then db
               else WithAudit(db, "registry", "register:" + input.name, "", AuditResult.Ok))
  }

  // ---------------------------------------------------------------------------------------------
  // Discovery and enforcement
  // ---------------------------------------------------------------------------------------------

  /** Discovery equals enforcement: in every registry state a caller lists (server, tool) exactly when
      the tool resolves and the caller is authorized for its server, and then with the same scope and
      impact; the list is strictly sorted by (server, tool), hence duplicate-free. */
  lemma DiscoveryEqualsEnforcement(t: Tables, committees: seq<string>, listed: seq<VisibleTool>,
                                   server: string, tool: string)
    requires TablesOk(t) && Lists(listed, JoinRows(t, committees), VisibleColumns)
    ensures var found := Resolve(t, server, tool);
            && ((exists v :: v in listed && v.serverName == server && v.toolName == tool) <==>
                found.Some? && Authorized(t, found.value.0, committees))
            && (forall v :: v in listed && v.serverName == server && v.toolName == tool ==>
                  && found.Some?
                  && v == VisibleTool(server, found.value.0.id, tool, found.value.1.scope, found.value.1.impact))
    ensures forall i, j :: 0 <= i < j < |listed| ==> Less(VisibleColumns(listed[i]), VisibleColumns(listed[j]))
  {
    var found := Resolve(t, server, tool);
    if found.Some? && Authorized(t, found.value.0, committees) {
      var (row, toolRow) := found.value;
      var c :| c in committees && (row.id, c) in t.grants;
      var k, g := (row.id, tool), (row.id, c);
      assert server in t.servers && k in t.tools && g in t.grants;
      assert VisibleTool(server, row.id, tool, toolRow.scope, toolRow.impact) in JoinRows(t, committees);
      assert VisibleTool(server, row.id, tool, toolRow.scope, toolRow.impact) in listed;
    }
    forall v | v in listed && v.serverName == server && v.toolName == tool
      ensures found.Some? && Authorized(t, found.value.0, committees)
      ensures v == VisibleTool(server, found.value.0.id, tool, found.value.1.scope, found.value.1.impact)
    {
      assert v in JoinRows(t, committees);
      var n, k, g :| n in t.servers && k in t.tools && g in t.grants &&
                     k.0 == t.servers[n].id && g.0 == t.servers[n].id &&
                     t.servers[n].lifecycle == Approved && t.servers[n].enabled && g.1 in committees &&
                     v == VisibleTool(n, t.servers[n].id, k.1, t.tools[k].scope, t.tools[k].impact);
      assert (k.0, k.1) == k && (g.0, g.1) == g;
    }
  }
}
