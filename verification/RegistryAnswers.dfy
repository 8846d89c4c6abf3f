/** What the registry and approval tables mean, column by column and in order, without their own
    definitions (services/session-memory/store/registry.go, governance.go). */
module RegistryAnswers {
  import opened Prelude
  import opened Ordering
  import opened Store

  /** A registered server's row is the input's, with the two defaults; a known server keeps its id,
      lifecycle and switch, a new one gets an id no other server has, 'proposed' and enabled. */
  lemma RegisteredRow(t: Tables, input: ServerInput)
    requires TablesOk(t) && Registered(t, input).Some?
    ensures var t1 := Registered(t, input).value;
            && t1.servers.Keys == t.servers.Keys + {input.name}
            && (forall n :: n in t.servers && n != input.name ==> t1.servers[n] == t.servers[n])
            && var row := t1.servers[input.name];
            && row.owner == input.owner && row.description == input.description && row.endpoint == input.endpoint
            && row.transport == (if input.transport == "" then "streamable-http" else input.transport)
            && row.auth == (if input.auth == "" then "bearer" else input.auth)
            && (input.name in t.servers ==>
                  var was := t.servers[input.name];
                  row.id == was.id && row.lifecycle == was.lifecycle && row.enabled == was.enabled)
            && (input.name !in t.servers ==>
                  && row.lifecycle == Proposed && row.enabled
                  && forall n :: n in t.servers ==> t.servers[n].id != row.id)
  {}

  /** The setters change their one column of the one server. */
  lemma SettersChangeOneColumn(t: Tables, name: string, lifecycle: Lifecycle, enabled: bool)
    ensures WithLifecycle(t, name, lifecycle).Some? <==> name in t.servers && !lifecycle.OtherLifecycle?
    ensures WithEnabled(t, name, enabled).Some? <==> name in t.servers
    ensures WithLifecycle(t, name, lifecycle).Some? ==>
              var (t1, was) := (WithLifecycle(t, name, lifecycle).value, t.servers[name]);
              && OnlyServer(t, t1, name)
              && t1.servers[name] == ServerRow(was.id, was.owner, was.description, was.endpoint, was.transport,
                                               was.auth, lifecycle, was.enabled)
    ensures WithEnabled(t, name, enabled).Some? ==>
              var (t1, was) := (WithEnabled(t, name, enabled).value, t.servers[name]);
              && OnlyServer(t, t1, name)
              && t1.servers[name] == ServerRow(was.id, was.owner, was.description, was.endpoint, was.transport,
                                               was.auth, was.lifecycle, enabled)
  {}

  /** Nothing but the row of server `name` differs. */
  ghost predicate OnlyServer(t: Tables, t1: Tables, name: string) {
    && t1.servers.Keys == t.servers.Keys + {name}
    && (forall n :: n in t.servers && n != name ==> t1.servers[n] == t.servers[n])
    && t1.tools == t.tools && t1.grants == t.grants && t1.nextId == t.nextId
  }

  /** A discovery list is in byte order of the server's name, then of the tool's. */
  lemma ListedByServerThenTool(t: Tables, committees: seq<string>, listed: seq<VisibleTool>)
    requires Lists(listed, JoinRows(t, committees), VisibleColumns)
    ensures forall i, j :: 0 <= i < j < |listed| ==>
              || Precedes(listed[i].serverName, listed[j].serverName)
              || (listed[i].serverName == listed[j].serverName && Precedes(listed[i].toolName, listed[j].toolName))
  {
    forall i, j | 0 <= i < j < |listed|
      ensures || Precedes(listed[i].serverName, listed[j].serverName)
              || (listed[i].serverName == listed[j].serverName && Precedes(listed[i].toolName, listed[j].toolName))
    {
      StrLessIsByteOrder(listed[i].serverName, listed[j].serverName);
      StrLessIsByteOrder(listed[i].toolName, listed[j].toolName);
      assert Less(VisibleColumns(listed[i]), VisibleColumns(listed[j]));
    }
  }

  /** A loaded server lists its tools and its committees in byte order of their names, each one it has and
      no other. */
  lemma ServerListsByName(t: Tables, name: string, s: Server)
    requires IsServer(t, name, s)
    ensures forall i, j :: 0 <= i < j < |s.tools| ==> Precedes(s.tools[i].name, s.tools[j].name)
    ensures forall i, j :: 0 <= i < j < |s.committees| ==> Precedes(s.committees[i], s.committees[j])
    ensures forall tool :: tool in s.tools <==>
              (s.row.id, tool.name) in t.tools && t.tools[(s.row.id, tool.name)] == ToolRow(tool.scope, tool.impact)
    ensures forall c :: c in s.committees <==> (s.row.id, c) in t.grants
  {
    forall i, j | 0 <= i < j < |s.tools| ensures Precedes(s.tools[i].name, s.tools[j].name) {
      StrLessIsByteOrder(s.tools[i].name, s.tools[j].name);
      StrLessIsByteOrder("", "");
      assert Less(ToolColumns(s.tools[i]), ToolColumns(s.tools[j]));
    }
    forall i, j | 0 <= i < j < |s.committees| ensures Precedes(s.committees[i], s.committees[j]) {
      StrLessIsByteOrder(s.committees[i], s.committees[j]);
      assert Less(CommitteeColumns(s.committees[i]), CommitteeColumns(s.committees[j]));
    }
    forall tool: Tool
      ensures tool in s.tools <==>
                (s.row.id, tool.name) in t.tools && t.tools[(s.row.id, tool.name)] == ToolRow(tool.scope, tool.impact)
    {
      assert tool in s.tools <==> tool in ToolRows(t, s.row.id);
    }
    forall c ensures c in s.committees <==> (s.row.id, c) in t.grants {
      assert c in s.committees <==> c in CommitteeRows(t, s.row.id);
      assert c in CommitteeRows(t, s.row.id) <==> (s.row.id, c) in t.grants;
    }
  }

  /** The positions of a session's rows, from the last to the first. */
  function Positions(approvals: seq<Approval>, session: string): seq<nat> {
    if approvals == [] then []
    else
      var n := |approvals| - 1;
      if approvals[n].session == Some(session) then [n] + Positions(approvals[..n], session)
      else Positions(approvals[..n], session)
  }

  ghost predicate Descends(at: seq<nat>, bound: nat) {
    && (forall i :: 0 <= i < |at| ==> at[i] < bound)
    && (forall i, j :: 0 <= i < j < |at| ==> at[i] > at[j])
  }

  lemma ConsDescends(n: nat, rest: seq<nat>)
    requires Descends(rest, n)
    ensures Descends([n] + rest, n + 1) && Descends(rest, n + 1)
  {}

  lemma {:induction false} PositionsDescend(approvals: seq<Approval>, session: string)
    ensures Descends(Positions(approvals, session), |approvals|)
  {
    if approvals != [] {
      var n := |approvals| - 1;
      PositionsDescend(approvals[..n], session);
      ConsDescends(n, Positions(approvals[..n], session));
    }
  }

  lemma {:induction false} PositionsAreAll(approvals: seq<Approval>, session: string, p: nat)
    ensures p in Positions(approvals, session) <==> p < |approvals| && approvals[p].session == Some(session)
  {
    if approvals != [] {
      PositionsAreAll(approvals[..|approvals| - 1], session, p);
    }
  }

  /** The rows at some positions. */
  function At(approvals: seq<Approval>, at: seq<nat>): seq<Approval>
    requires forall i :: 0 <= i < |at| ==> at[i] < |approvals|
  {
    seq(|at|, i requires 0 <= i < |at| => approvals[at[i]])
  }

  lemma AtPrefix(approvals: seq<Approval>, n: nat, at: seq<nat>)
    requires n <= |approvals| && forall i :: 0 <= i < |at| ==> at[i] < n
    ensures At(approvals[..n], at) == At(approvals, at)
  {}

  lemma AtCons(approvals: seq<Approval>, n: nat, at: seq<nat>)
    requires n < |approvals| && forall i :: 0 <= i < |at| ==> at[i] < |approvals|
    ensures forall i :: 0 <= i < |at| + 1 ==> ([n] + at)[i] < |approvals|
    ensures At(approvals, [n] + at) == [approvals[n]] + At(approvals, at)
  {}

  lemma OfSessionLast(approvals: seq<Approval>, session: string)
    requires approvals != []
    ensures var n := |approvals| - 1;
            OfSession(approvals, session) ==
            if approvals[n].session == Some(session) then [approvals[n]] + OfSession(approvals[..n], session)
            else OfSession(approvals[..n], session)
  {
    var rest := OfSession(approvals[..|approvals| - 1], session);
    assert [] + rest == rest;
  }

  /** A session's approvals are its rows of the table, the latest first. */
  lemma {:induction false} ApprovalsNewestFirst(approvals: seq<Approval>, session: string)
    ensures Descends(Positions(approvals, session), |approvals|)
    ensures OfSession(approvals, session) == At(approvals, Positions(approvals, session))
  {
    PositionsDescend(approvals, session);
    if approvals != [] {
      var n := |approvals| - 1;
      var rest := Positions(approvals[..n], session);
      ApprovalsNewestFirst(approvals[..n], session);
      AtPrefix(approvals, n, rest);
      AtCons(approvals, n, rest);
      OfSessionLast(approvals, session);
    }
  }
}
