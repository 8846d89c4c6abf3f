/** The repository behind the gateway: the MCP server registry (store/registry.go), approvals and the
    audit log (store/governance.go), with the constraints of migrations 00001 and 00002. Every
    operation that talks to the database takes a flag saying whether the database failed it; a failed
    statement changes nothing. */
module Store {
  import opened Prelude
  import opened Ordering

  // ---------------------------------------------------------------------------------------------
  // Registry tables
  // ---------------------------------------------------------------------------------------------

  /** The lifecycle column; `OtherLifecycle` stands for any text its CHECK refuses. */
  datatype Lifecycle = Proposed | Approved | Deprecated | Disabled | OtherLifecycle(text: string)

  /** The impact column, likewise. */
  datatype Impact = Read | Write | High | OtherImpact(text: string)

  datatype ToolInput = ToolInput(name: string, scope: string, impact: Impact)

  datatype ServerInput = ServerInput(name: string, owner: string, description: string, endpoint: string,
                                     transport: string, auth: string, tools: seq<ToolInput>,
                                     committees: seq<string>)

  datatype ServerRow = ServerRow(id: nat, owner: string, description: string, endpoint: string,
                                 transport: string, auth: string, lifecycle: Lifecycle, enabled: bool)

  datatype ToolRow = ToolRow(scope: string, impact: Impact)

  /** mcp_servers keyed by its UNIQUE name, mcp_tools by UNIQUE (server_id, name), server_committees
      by its primary key; `nextId` is the next unused server id. */
  datatype Tables = Tables(servers: map<string, ServerRow>, tools: map<(nat, string), ToolRow>,
                           grants: set<(nat, string)>, nextId: nat)

  ghost predicate HasServer(t: Tables, id: nat) {
    exists n :: n in t.servers && t.servers[n].id == id
  }

  /** The schema's constraints: the servers' primary key, the foreign keys of tools and grants, and the
      CHECKs on lifecycle and impact. */
  ghost predicate TablesOk(t: Tables) {
    && (forall n :: n in t.servers ==> t.servers[n].id < t.nextId && !t.servers[n].lifecycle.OtherLifecycle?)
    && (forall m, n :: m in t.servers && n in t.servers && t.servers[m].id == t.servers[n].id ==> m == n)
    && (forall k :: k in t.tools ==> HasServer(t, k.0) && !t.tools[k].impact.OtherImpact?)
    && (forall g :: g in t.grants ==> HasServer(t, g.0))
  }

  datatype Tool = Tool(name: string, scope: string, impact: Impact)

  /** A server with its tools and committee grants, as GetServerByName loads it. */
  datatype Server = Server(name: string, row: ServerRow, tools: seq<Tool>, committees: seq<string>)

  datatype ToolBinding = ToolBinding(server: Server, tool: Tool)

  datatype VisibleTool = VisibleTool(serverName: string, serverId: nat, toolName: string, scope: string,
                                     impact: Impact)

  datatype StoreError = NotFound | Rejected | DatabaseFailure

  function ToolColumns(t: Tool): Columns { (t.name, "") }

  function CommitteeColumns(c: string): Columns { (c, "") }

  function VisibleColumns(v: VisibleTool): Columns { (v.serverName, v.toolName) }

  function ToolRows(t: Tables, id: nat): set<Tool> {
    set k | k in t.tools && k.0 == id :: Tool(k.1, t.tools[k].scope, t.tools[k].impact)
  }

  function CommitteeRows(t: Tables, id: nat): set<string> {
    set g | g in t.grants && g.0 == id :: g.1
  }

  /** `s` is the server `name` with its tools and committees, each listed in order. */
  ghost predicate IsServer(t: Tables, name: string, s: Server) {
    && name in t.servers
    && s.name == name
    && s.row == t.servers[name]
    && Lists(s.tools, ToolRows(t, s.row.id), ToolColumns)
    && Lists(s.committees, CommitteeRows(t, s.row.id), CommitteeColumns)
  }

  /** The tool row a (server name, tool name) pair denotes, if any. */
  function Resolve(t: Tables, serverName: string, toolName: string): Option<(ServerRow, ToolRow)> {
    if serverName !in t.servers then None
    else
      var row := t.servers[serverName];
      if (row.id, toolName) in t.tools then Some((row, t.tools[(row.id, toolName)])) else None
  }

  /** The rows of the discovery query: tools JOIN servers JOIN server_committees, filtered. */
  function JoinRows(t: Tables, committees: seq<string>): set<VisibleTool> {
    set n, k, g | n in t.servers && k in t.tools && g in t.grants &&
                  k.0 == t.servers[n].id && g.0 == t.servers[n].id &&
                  t.servers[n].lifecycle == Approved && t.servers[n].enabled && g.1 in committees
      :: VisibleTool(n, t.servers[n].id, k.1, t.tools[k].scope, t.tools[k].impact)
  }

  /** INSERT of the input's tools one by one; None when a constraint refuses one. */
  function InsertTools(tools: map<(nat, string), ToolRow>, id: nat, input: seq<ToolInput>)
    : Option<map<(nat, string), ToolRow>>
    decreases |input|
  {
    if input == [] then Some(tools)
    else
      var t := input[0];
      if (id, t.name) in tools || t.impact.OtherImpact? then None
      else InsertTools(tools[(id, t.name) := ToolRow(t.scope, t.impact)], id, input[1..])
  }

  function ToolsWithout(tools: map<(nat, string), ToolRow>, id: nat): map<(nat, string), ToolRow> {
    map k | k in tools && k.0 != id :: tools[k]
  }

  function GrantsWithout(grants: set<(nat, string)>, id: nat): set<(nat, string)> {
    set g | g in grants && g.0 != id
  }

  function GrantsWith(grants: set<(nat, string)>, id: nat, committees: seq<string>): set<(nat, string)> {
    grants + set c | c in committees :: (id, c)
  }

  function OrDefault(s: string, default: string): string {
    if s == "" then default else s
  }

  function UpsertRow(t: Tables, input: ServerInput): ServerRow {
    var transport := OrDefault(input.transport, "streamable-http");
    var auth := OrDefault(input.auth, "bearer");
    if input.name in t.servers then
      t.servers[input.name].(owner := input.owner, description := input.description,
                             endpoint := input.endpoint, transport := transport, auth := auth)
    else
      ServerRow(t.nextId, input.owner, input.description, input.endpoint, transport, auth, Proposed, true)
  }

  /** The committed effect of RegisterServer; None when it is refused, and then nothing changes. */
  function Registered(t: Tables, input: ServerInput): Option<Tables> {
    if input.name == "" || input.endpoint == "" then None
    else
      var row := UpsertRow(t, input);
      var tools := InsertTools(ToolsWithout(t.tools, row.id), row.id, input.tools);
      if tools.None? then None
      else Some(Tables(t.servers[input.name := row], tools.value,
                       GrantsWith(GrantsWithout(t.grants, row.id), row.id, input.committees),
                       if input.name in t.servers then t.nextId else t.nextId + 1))
  }

  /** The UPDATE of SetServerLifecycle; a value outside the CHECK is refused. */
  function WithLifecycle(t: Tables, name: string, lifecycle: Lifecycle): Option<Tables> {
    if name in t.servers && !lifecycle.OtherLifecycle?
    then Some(t.(servers := t.servers[name := t.servers[name].(lifecycle := lifecycle)]))
    else None
  }

  function WithEnabled(t: Tables, name: string, enabled: bool): Option<Tables> {
    if name in t.servers
    then Some(t.(servers := t.servers[name := t.servers[name].(enabled := enabled)]))
    else None
  }

  // ---------------------------------------------------------------------------------------------
  // Governance tables
  // ---------------------------------------------------------------------------------------------

  /** The status column of approvals; `OtherStatus` stands for any text its CHECK refuses. */
  datatype Status = Pending | Granted | Denied | Cancelled | OtherStatus(text: string)

  /** What the gateway writes in the result column of the audit log. */
  datatype AuditResult =
    | Ok | Error(message: string) | AwaitingApproval | DeniedRate | DeniedUnknown | DeniedUnauthorized
  {
    function Text(): string {
      match this
      case Ok => "ok"
      case Error(message) => "error: " + message
      case AwaitingApproval => "gated: awaiting approval"
      case DeniedRate => "denied: rate limited"
      case DeniedUnknown => "denied: unknown tool"
      case DeniedUnauthorized => "denied: unauthorized"
    }
  }

  /** The stored texts are as distinct as the results. */
  lemma TextIsInjective(a: AuditResult, b: AuditResult)
    requires a.Text() == b.Text()
    ensures a == b
  {
    assert a.Error? <==> a.Text()[0] == 'e';
    assert b.Error? <==> b.Text()[0] == 'e';
    if a.Error? {
      assert a.message == a.Text()[7..] == b.Text()[7..] == b.message;
    }
  }

  /** A row of `approvals`; its id is its position, and a NULL session is None. */
  datatype Approval = Approval(session: Option<string>, tool: string, args: string, status: Status,
                               decidedBy: string)

  datatype AuditRow = AuditRow(id: nat, actor: string, tool: string, args: string, result: AuditResult)

  function Nullable(s: string): Option<string> {
    if s == "" then None else Some(s)
  }

  function DefaultJson(s: string): string {
    OrDefault(s, "{}")
  }

  datatype Db = Db(tables: Tables, approvals: seq<Approval>, audit: seq<AuditRow>, nextAudit: nat)

  function WithApproval(db: Db, session: string, tool: string, args: string): Db {
    db.(approvals := db.approvals + [Approval(Nullable(session), tool, DefaultJson(args), Pending, "")])
  }

  function Decided(approvals: seq<Approval>, id: nat, status: Status, decider: string): Option<seq<Approval>> {
    if id < |approvals| && !status.OtherStatus?
    then Some(approvals[id := approvals[id].(status := status, decidedBy := decider)])
    else None
  }

  function WithAudit(db: Db, actor: string, tool: string, args: string, result: AuditResult): Db {
    db.(audit := db.audit + [AuditRow(db.nextAudit, actor, tool, DefaultJson(args), result)],
        nextAudit := db.nextAudit + 1)
  }

  datatype Fault = NoFault | BeforeCommit | AfterCommit

  method InsertToolRows(tools: map<(nat, string), ToolRow>, id: nat, input: seq<ToolInput>)
    returns (r: Option<map<(nat, string), ToolRow>>)
    ensures r == InsertTools(tools, id, input)
  {
    var rows := tools;
    for i := 0 to |input|
      invariant InsertTools(tools, id, input) == InsertTools(rows, id, input[i..])
    {
      var t := input[i];
      assert input[i..][1..] == input[i + 1..];
      if (id, t.name) in rows || t.impact.OtherImpact? {
        return None;
      }
      rows := rows[(id, t.name) := ToolRow(t.scope, t.impact)];
    }
    return Some(rows);
  }

  /** ON CONFLICT DO NOTHING: a repeated committee is granted once. */
  method InsertGrantRows(grants: set<(nat, string)>, id: nat, committees: seq<string>)
    returns (r: set<(nat, string)>)
    ensures r == GrantsWith(grants, id, committees)
  {
    r := grants;
    for i := 0 to |committees|
      invariant r == GrantsWith(grants, id, committees[..i])
    {
      r := r + {(id, committees[i])};
    }
    assert committees[..|committees|] == committees;
  }

  class Repository {
    var servers: map<string, ServerRow>
    var tools: map<(nat, string), ToolRow>
    var grants: set<(nat, string)>
    var nextId: nat
    var approvals: seq<Approval>
    var audit: seq<AuditRow>
    var nextAudit: nat

    function Registry(): Tables
      reads this
    {
      Tables(servers, tools, grants, nextId)
    }

    function View(): Db
      reads this
    {
      Db(Registry(), approvals, audit, nextAudit)
    }

    constructor ()
      ensures View() == Db(Tables(map[], map[], {}, 0), [], [], 1)
    {
      servers, tools, grants, nextId := map[], map[], {}, 0;
      approvals, audit, nextAudit := [], [], 1;
    }

    /** The row INSERT ... ON CONFLICT DO UPDATE writes. */
    method UpsertedRow(input: ServerInput) returns (row: ServerRow)
      ensures row == UpsertRow(Registry(), input)
    {
      var transport, auth := input.transport, input.auth;
      if transport == "" {
        transport := "streamable-http";
      }
      if auth == "" {
        auth := "bearer";
      }
      row := ServerRow(nextId, input.owner, input.description, input.endpoint, transport, auth, Proposed, true);
      if input.name in servers {
        row := row.(id := servers[input.name].id, lifecycle := servers[input.name].lifecycle,
                    enabled := servers[input.name].enabled);
      }
    }

    method RegisterServer(input: ServerInput, fault: Fault) returns (r: Result<Server, StoreError>)
      modifies this
      ensures var t := Registered(old(Registry()), input);
              && View() == old(View()).(tables :=
                   if t.Some? && fault != BeforeCommit then t.value else old(Registry()))
              && (r.Ok? <==> t.Some? && fault == NoFault)
              && (r.Ok? ==> IsServer(Registry(), input.name, r.value))
    {
      if input.name == "" || input.endpoint == "" {
        return Err(Rejected);
      }
      // The transaction works on local copies and publishes them at commit.
      var row := UpsertedRow(input);
      var txTools := InsertToolRows(ToolsWithout(tools, row.id), row.id, input.tools);
      if txTools.None? {
        return Err(Rejected);
      }
      var txGrants := InsertGrantRows(GrantsWithout(grants, row.id), row.id, input.committees);
      if fault == BeforeCommit {
        return Err(DatabaseFailure);
      }
      if input.name !in servers {
        nextId := nextId + 1;
      }
      servers, tools, grants := servers[input.name := row], txTools.value, txGrants;
      r := GetServerByName(input.name, fault == AfterCommit);
    }

    method GetServerByName(name: string, fault: bool) returns (r: Result<Server, StoreError>)
      ensures r.Ok? <==> !fault && name in servers
      ensures r.Ok? ==> IsServer(Registry(), name, r.value)
      ensures r.Err? ==> r.error == if fault then DatabaseFailure else NotFound
    {
      if fault {
        return Err(DatabaseFailure);
      }
      if name !in servers {
        return Err(NotFound);
      }
      var row := servers[name];
      var listed := SortRows(ToolRows(Registry(), row.id), ToolColumns);
      var granted := SortRows(CommitteeRows(Registry(), row.id), CommitteeColumns);
      return Result.Ok(Server(name, row, listed, granted));
    }

    method ResolveTool(serverName: string, toolName: string, fault: bool)
      returns (r: Result<ToolBinding, StoreError>)
      ensures var found := Resolve(Registry(), serverName, toolName);
              && (r.Ok? <==> !fault && found.Some?)
              && (r.Err? ==> r.error == if fault then DatabaseFailure else NotFound)
              && (r.Ok? ==> && IsServer(Registry(), serverName, r.value.server)
                            && r.value.server.row == found.value.0
                            && r.value.tool == Tool(toolName, found.value.1.scope, found.value.1.impact))
    {
      var loaded := GetServerByName(serverName, fault);
      if loaded.Err? {
        return Err(loaded.error);
      }
      var s := loaded.value;
      for i := 0 to |s.tools|
        invariant forall j :: 0 <= j < i ==> s.tools[j].name != toolName
      {
        var t := s.tools[i];
        if t.name == toolName {
          assert t in ToolRows(Registry(), s.row.id);
          return Result.Ok(ToolBinding(s, t));
        }
      }
      assert (s.row.id, toolName) in tools ==>
        var row := tools[(s.row.id, toolName)];
        Tool(toolName, row.scope, row.impact) in ToolRows(Registry(), s.row.id);
      return Err(NotFound);
    }

    /** Without committees nothing is visible, and the database is not asked. */
    method ListVisibleTools(committees: seq<string>, fault: bool) returns (r: Result<seq<VisibleTool>, StoreError>)
      requires TablesOk(Registry())
      ensures r.Err? <==> committees != [] && fault
      ensures r.Ok? ==> Lists(r.value, JoinRows(Registry(), committees), VisibleColumns)
    {
      if |committees| == 0 {
        return Result.Ok([]);
      }
      if fault {
        return Err(DatabaseFailure);
      }
      var out := SortRows(JoinRows(Registry(), committees), VisibleColumns);
      return Result.Ok(out);
    }

    method SetServerLifecycle(name: string, lifecycle: Lifecycle, fault: bool) returns (r: Result<(), StoreError>)
      modifies this
      ensures var t := WithLifecycle(old(Registry()), name, lifecycle);
              && (r.Ok? <==> t.Some? && !fault)
              && View() == old(View()).(tables := if r.Ok? then t.value else old(Registry()))
      ensures r == Err(NotFound) <==> !fault && name !in old(servers)
    {
      if fault {
        return Err(DatabaseFailure);
      }
      if name !in servers {
        return Err(NotFound);
      }
      if lifecycle.OtherLifecycle? {
        return Err(Rejected);
      }
      servers := servers[name := servers[name].(lifecycle := lifecycle)];
      return Result.Ok(());
    }

    method SetServerEnabled(name: string, enabled: bool, fault: bool) returns (r: Result<(), StoreError>)
      modifies this
      ensures var t := WithEnabled(old(Registry()), name, enabled);
              && (r.Ok? <==> t.Some? && !fault)
              && View() == old(View()).(tables := if r.Ok? then t.value else old(Registry()))
      ensures r.Err? ==> r.error == if fault then DatabaseFailure else NotFound
    {
      if fault {
        return Err(DatabaseFailure);
      }
      if name !in servers {
        return Err(NotFound);
      }
      servers := servers[name := servers[name].(enabled := enabled)];
      return Result.Ok(());
    }

    method CreateApproval(session: string, tool: string, args: string, fault: bool)
      returns (r: Result<nat, StoreError>)
      modifies this
      ensures r == if fault then Err(DatabaseFailure) else Result.Ok(|old(approvals)|)
      ensures View() == if fault then old(View()) else WithApproval(old(View()), session, tool, args)
    {
      if fault {
        return Err(DatabaseFailure);
      }
      r := Result.Ok(|approvals|);
      approvals := approvals + [Approval(Nullable(session), tool, DefaultJson(args), Pending, "")];
    }

    method DecideApproval(id: nat, status: Status, decider: string, fault: bool)
      returns (r: Result<Approval, StoreError>)
      modifies this
      ensures var decided := Decided(old(approvals), id, status, decider);
              && (r.Ok? <==> decided.Some? && !fault)
              && View() == old(View()).(approvals := if r.Ok? then decided.value else old(approvals))
              && (r.Ok? ==> r.value == approvals[id])
      ensures r == Err(NotFound) <==> !fault && id >= |old(approvals)|
    {
      if fault {
        return Err(DatabaseFailure);
      }
      if id >= |approvals| {
        return Err(NotFound);
      }
      if status.OtherStatus? {
        return Err(Rejected);
      }
      approvals := approvals[id := approvals[id].(status := status, decidedBy := decider)];
      return Result.Ok(approvals[id]);
    }

    /** A session's approvals, newest first. */
    method ListApprovalsBySession(session: string, fault: bool) returns (r: Result<seq<Approval>, StoreError>)
      ensures r.Err? <==> fault
      ensures r.Ok? ==> r.value == OfSession(approvals, session)
    {
      if fault {
        return Err(DatabaseFailure);
      }
      var out := [];
      var i := |approvals|;
      assert approvals[..i] == approvals;
      while i > 0
        invariant 0 <= i <= |approvals|
        invariant OfSession(approvals, session) == out + OfSession(approvals[..i], session)
      {
        i := i - 1;
        OfSessionStep(out, approvals, i, session);
        if approvals[i].session == Some(session) {
          out := out + [approvals[i]];
        }
      }
      return Result.Ok(out);
    }

    /** Returns the new row's id, or 0 when the database failed. */
    method WriteAudit(actor: string, tool: string, args: string, result: AuditResult, fault: bool)
      returns (id: nat)
      modifies this
      ensures id == if fault then 0 else old(nextAudit)
      ensures View() == if fault then old(View()) else WithAudit(old(View()), actor, tool, args, result)
    {
      if fault {
        return 0;
      }
      id := nextAudit;
      audit := audit + [AuditRow(nextAudit, actor, tool, DefaultJson(args), result)];
      nextAudit := nextAudit + 1;
    }
  }

  /** The rows `WHERE session_id = session`, latest row first; NULL matches nothing. */
  function OfSession(approvals: seq<Approval>, session: string): seq<Approval> {
    if approvals == [] then []
    else
      var n := |approvals| - 1;
      (if approvals[n].session == Some(session) then [approvals[n]] else []) + OfSession(approvals[..n], session)
  }

  lemma OfSessionStep(out: seq<Approval>, approvals: seq<Approval>, i: nat, session: string)
    requires i < |approvals|
    ensures var out1 := if approvals[i].session == Some(session) then out + [approvals[i]] else out;
            out + OfSession(approvals[..i + 1], session) == out1 + OfSession(approvals[..i], session)
  {
    assert approvals[..i + 1][..i] == approvals[..i];
  }

  lemma {:induction false} OfSessionMembers(approvals: seq<Approval>, session: string, a: Approval)
    ensures a in OfSession(approvals, session) <==> a in approvals && a.session == Some(session)
  {
    if approvals != [] {
      var n := |approvals| - 1;
      OfSessionMembers(approvals[..n], session, a);
      assert approvals == approvals[..n] + [approvals[n]];
    }
  }

  // ---------------------------------------------------------------------------------------------
  // What registration does
  // ---------------------------------------------------------------------------------------------

  ghost predicate DistinctNames(input: seq<ToolInput>) {
    forall i, j :: 0 <= i < j < |input| ==> input[i].name != input[j].name
  }

  predicate Insertable(tools: map<(nat, string), ToolRow>, id: nat, t: ToolInput) {
    (id, t.name) !in tools && !t.impact.OtherImpact?
  }

  lemma {:induction false} InsertSucceedsIff(tools: map<(nat, string), ToolRow>, id: nat, input: seq<ToolInput>)
    decreases |input|
    ensures InsertTools(tools, id, input).Some? <==>
            DistinctNames(input) && forall t :: t in input ==> Insertable(tools, id, t)
  {
    if input != [] {
      var t, rest := input[0], input[1..];
      assert input == [t] + rest;
      if Insertable(tools, id, t) {
        var tools1 := tools[(id, t.name) := ToolRow(t.scope, t.impact)];
        InsertSucceedsIff(tools1, id, rest);
        DistinctNamesCons(t, rest);
        assert forall u :: Insertable(tools1, id, u) <==> Insertable(tools, id, u) && u.name != t.name;
        assert forall u :: u in input <==> u == t || u in rest;
      } else {
        assert t in input;
      }
    }
  }

  lemma {:induction false} InsertAddsRows(tools: map<(nat, string), ToolRow>, id: nat, input: seq<ToolInput>)
    requires InsertTools(tools, id, input).Some?
    decreases |input|
    ensures var rows := InsertTools(tools, id, input).value;
            && (forall k :: k in rows <==> k in tools || (k.0 == id && exists t :: t in input && t.name == k.1))
            && (forall k :: k in tools ==> rows[k] == tools[k])
            && (forall t :: t in input ==> rows[(id, t.name)] == ToolRow(t.scope, t.impact))
  {
    if input != [] {
      var t, rest := input[0], input[1..];
      assert input == [t] + rest;
      InsertAddsRows(tools[(id, t.name) := ToolRow(t.scope, t.impact)], id, rest);
    }
  }

  /** Inserting succeeds exactly on fresh, distinct, valid tools, and adds exactly those. */
  lemma InsertToolsAddsExactly(tools: map<(nat, string), ToolRow>, id: nat, input: seq<ToolInput>)
    ensures var r := InsertTools(tools, id, input);
            && (r.Some? <==> && DistinctNames(input)
                             && forall t :: t in input ==> (id, t.name) !in tools && !t.impact.OtherImpact?)
            && (r.Some? ==>
                  && (forall k :: k in r.value <==>
                        k in tools || (k.0 == id && exists t :: t in input && t.name == k.1))
                  && (forall k :: k in tools ==> r.value[k] == tools[k])
                  && (forall t :: t in input ==> r.value[(id, t.name)] == ToolRow(t.scope, t.impact)))
  {
    InsertSucceedsIff(tools, id, input);
    if InsertTools(tools, id, input).Some? {
      InsertAddsRows(tools, id, input);
    }
  }

  lemma DistinctNamesCons(t: ToolInput, rest: seq<ToolInput>)
    ensures DistinctNames([t] + rest) <==> DistinctNames(rest) && forall u :: u in rest ==> u.name != t.name
  {
    var all := [t] + rest;
    assert forall i :: 0 <= i < |rest| ==> all[i + 1] == rest[i];
    if DistinctNames(all) {
      forall i, j | 0 <= i < j < |rest| ensures rest[i].name != rest[j].name {
        assert all[i + 1].name != all[j + 1].name;
      }
      forall u | u in rest ensures u.name != t.name {
        var i :| 0 <= i < |rest| && rest[i] == u;
        assert all[0].name != all[i + 1].name;
      }
    }
  }

  /** Registration is accepted exactly when the input is well formed. */
  lemma RegisteredIffWellFormed(t: Tables, input: ServerInput)
    requires TablesOk(t)
    ensures Registered(t, input).Some? <==>
            && input.name != "" && input.endpoint != ""
            && DistinctNames(input.tools) && forall x :: x in input.tools ==> !x.impact.OtherImpact?
  {
    var id := UpsertRow(t, input).id;
    InsertToolsAddsExactly(ToolsWithout(t.tools, id), id, input.tools);
  }

  /** No server disappears, and the registered one is there. */
  lemma RegisteredKeepsServers(t: Tables, input: ServerInput, id: nat)
    requires TablesOk(t) && Registered(t, input).Some?
    requires HasServer(t, id) || id == UpsertRow(t, input).id
    ensures HasServer(Registered(t, input).value, id)
  {
    var t1 := Registered(t, input).value;
    if id == UpsertRow(t, input).id {
      assert t1.servers[input.name].id == id;
    } else {
      var n :| n in t.servers && t.servers[n].id == id;
      assert t1.servers[n].id == id;
    }
  }

  /** Registration keeps the primary key, the foreign keys and the CHECKs. */
  lemma RegisteredKeepsKeys(t: Tables, input: ServerInput)
    requires TablesOk(t) && Registered(t, input).Some?
    ensures TablesOk(Registered(t, input).value)
  {
    var id := UpsertRow(t, input).id;
    var t1 := Registered(t, input).value;
    InsertToolsAddsExactly(ToolsWithout(t.tools, id), id, input.tools);
    forall k | k in t1.tools ensures HasServer(t1, k.0) && !t1.tools[k].impact.OtherImpact? {
      RegisteredKeepsServers(t, input, k.0);
      if k !in ToolsWithout(t.tools, id) {
        var x :| x in input.tools && x.name == k.1;
        assert t1.tools[(id, x.name)] == ToolRow(x.scope, x.impact);
      }
    }
    forall g | g in t1.grants ensures HasServer(t1, g.0) {
      RegisteredKeepsServers(t, input, g.0);
    }
  }

  lemma RegisteredTools(t: Tables, input: ServerInput)
    requires TablesOk(t) && Registered(t, input).Some?
    ensures var (t1, row) := (Registered(t, input).value, UpsertRow(t, input));
            && (forall x :: x in input.tools ==>
                  Resolve(t1, input.name, x.name) == Some((row, ToolRow(x.scope, x.impact))))
            && (forall tool :: Resolve(t1, input.name, tool).Some? ==> exists x :: x in input.tools && x.name == tool)
  {
    var id := UpsertRow(t, input).id;
    InsertToolsAddsExactly(ToolsWithout(t.tools, id), id, input.tools);
  }

  lemma OtherServersAreUntouched(t: Tables, input: ServerInput, n: string)
    requires TablesOk(t) && Registered(t, input).Some? && n in t.servers && n != input.name
    ensures var (t1, id) := (Registered(t, input).value, t.servers[n].id);
            && n in t1.servers && t1.servers[n] == t.servers[n]
            && (forall tool :: Resolve(t1, n, tool) == Resolve(t, n, tool))
            && CommitteeRows(t1, id) == CommitteeRows(t, id)
  {
    var t1, id, changed := Registered(t, input).value, t.servers[n].id, UpsertRow(t, input).id;
    InsertToolsAddsExactly(ToolsWithout(t.tools, changed), changed, input.tools);
    assert id != changed;
    assert forall g: (nat, string) :: g.0 == id ==> (g in t1.grants <==> g in t.grants);
  }

  lemma RegisteredGrants(t: Tables, input: ServerInput)
    requires Registered(t, input).Some?
    ensures CommitteeRows(Registered(t, input).value, UpsertRow(t, input).id) == set c | c in input.committees
  {
    var t1, id := Registered(t, input).value, UpsertRow(t, input).id;
    forall c ensures c in CommitteeRows(t1, id) <==> c in input.committees {
      assert c in CommitteeRows(t1, id) <==> (id, c) in t1.grants;
    }
  }

  /** Registration round trip: afterwards the server resolves exactly the tools of the input and is
      granted to exactly its committees; every other server resolves as before; and promotion and the
      kill switch stand as before (a new server is 'proposed' and enabled). */
  lemma RegisterThenResolve(t: Tables, input: ServerInput)
    requires TablesOk(t) && Registered(t, input).Some?
    ensures var t1 := Registered(t, input).value;
            && input.name in t1.servers
            && var row := t1.servers[input.name];
            && (forall x :: x in input.tools ==>
                  Resolve(t1, input.name, x.name) == Some((row, ToolRow(x.scope, x.impact))))
            && (forall tool :: Resolve(t1, input.name, tool).Some? ==> exists x :: x in input.tools && x.name == tool)
            && (forall n, tool :: n != input.name ==> Resolve(t1, n, tool) == Resolve(t, n, tool))
            && (forall n :: n != input.name && n in t.servers ==>
                  CommitteeRows(t1, t.servers[n].id) == CommitteeRows(t, t.servers[n].id))
            && CommitteeRows(t1, row.id) == (set c | c in input.committees)
            && (row.lifecycle, row.enabled) ==
                 if input.name in t.servers then (t.servers[input.name].lifecycle, t.servers[input.name].enabled)
                 else (Proposed, true)
  {
    RegisteredTools(t, input);
    RegisteredGrants(t, input);
    forall n | n in t.servers && n != input.name
      ensures CommitteeRows(Registered(t, input).value, t.servers[n].id) == CommitteeRows(t, t.servers[n].id)
      ensures forall tool :: Resolve(Registered(t, input).value, n, tool) == Resolve(t, n, tool)
    {
      OtherServersAreUntouched(t, input, n);
    }
  }
}
