/** Scoped long-term memory (services/session-memory/store/memory.go): the table memory_facts, its
    queries, and the retention sweep. now(), generated ids and database failures are arguments (a failed
    statement changes nothing); rows created at the same
    instant with the same key come back in insertion order. */
module Memory {
  import opened Prelude
  import opened Ordering

  const USER := "user"
  const COMMITTEE := "committee"
  const ORG := "org"

  predicate ValidScope(t: string) {
    t == USER || t == COMMITTEE || t == ORG
  }

  datatype Scope = Scope(kind: string, id: string)

  datatype Fact = Fact(id: nat, scope: Scope, key: string, value: string, tags: seq<string>, source: string,
                       createdAt: int, expiresAt: Option<int>)

  datatype FactInput = FactInput(scope: Scope, key: string, value: string, tags: seq<string>, source: string,
                                 expiresAt: Option<int>)

  datatype FactQuery = FactQuery(scope: Scope, tags: seq<string>, limit: int, includeExpired: bool)

  datatype MemoryError = InvalidScope | DatabaseFailure

  type Table = seq<Fact>

  predicate Expired(f: Fact, at: int) {
    f.expiresAt.Some? && f.expiresAt.value <= at
  }

  /** tags && array: at least one tag in common. */
  predicate SharesTag(a: seq<string>, b: seq<string>) {
    exists t :: t in a && t in b
  }

  predicate Matches(f: Fact, q: FactQuery, now: int) {
    && f.scope == q.scope
    && (q.includeExpired || !Expired(f, now))
    && (q.tags == [] || SharesTag(f.tags, q.tags))
  }

  function Wanted(q: FactQuery, now: int): Fact -> bool {
    (f: Fact) => Matches(f, q, now)
  }

  function Filter(rows: Table, keep: Fact -> bool): Table {
    if rows == [] then []
    else
      var n := |rows| - 1;
      Filter(rows[..n], keep) + if keep(rows[n]) then [rows[n]] else []
  }

  /** ORDER BY created_at DESC, key. */
  predicate Before(a: Fact, b: Fact) {
    a.createdAt > b.createdAt || (a.createdAt == b.createdAt && StrLess(a.key, b.key))
  }

  function InsertRow(rows: Table, f: Fact): Table {
    if rows == [] || !Before(f, rows[|rows| - 1]) then rows + [f]
    else InsertRow(rows[..|rows| - 1], f) + [rows[|rows| - 1]]
  }

  /** A stable sort: ties stay in table order. */
  function Sort(rows: Table): Table {
    if rows == [] then [] else InsertRow(Sort(rows[..|rows| - 1]), rows[|rows| - 1])
  }

  function Limited(rows: Table, limit: int): Table {
    if 0 < limit < |rows| then rows[..limit] else rows
  }

  function Search(rows: Table, q: FactQuery, now: int): Table {
    Limited(Sort(Filter(rows, Wanted(q, now))), q.limit)
  }

  function WithFact(rows: Table, input: FactInput, id: nat, now: int): Table {
    if ValidScope(input.scope.kind)
    then rows + [Fact(id, input.scope, input.key, input.value, input.tags, input.source, now, input.expiresAt)]
    else rows
  }

  function WithoutId(rows: Table, id: nat): Table {
    Filter(rows, (f: Fact) => f.id != id)
  }

  function WithoutKey(rows: Table, scope: Scope, key: string): Table {
    Filter(rows, (f: Fact) => !(f.scope == scope && f.key == key))
  }

  function WithoutExpired(rows: Table, before: int): Table {
    Filter(rows, (f: Fact) => !Expired(f, before))
  }

  lemma {:induction false} FilterSnoc(rows: Table, f: Fact, keep: Fact -> bool)
    ensures Filter(rows + [f], keep) == Filter(rows, keep) + if keep(f) then [f] else []
  {
    assert (rows + [f])[..|rows|] == rows;
  }

  class MemoryStore {
    var facts: Table

    constructor ()
      ensures facts == []
    {
      facts := [];
    }

    method WriteFact(input: FactInput, id: nat, now: int, fault: bool) returns (r: Result<Fact, MemoryError>)
      modifies this
      ensures facts == if fault then old(facts) else WithFact(old(facts), input, id, now)
      ensures r.Ok? <==> ValidScope(input.scope.kind) && !fault
      ensures r.Err? ==> r.error == if ValidScope(input.scope.kind) then DatabaseFailure else InvalidScope
      ensures r.Ok? ==> facts == old(facts) + [r.value] && r.value.id == id && r.value.createdAt == now
    {
      if !ValidScope(input.scope.kind) {
        return Err(InvalidScope);
      }
      if fault {
        return Err(DatabaseFailure);
      }
      var f := Fact(id, input.scope, input.key, input.value, input.tags, input.source, now, input.expiresAt);
      facts := facts + [f];
      return Ok(f);
    }

    method SearchFacts(q: FactQuery, now: int, fault: bool) returns (r: Result<Table, MemoryError>)
      ensures r == if !ValidScope(q.scope.kind) then Err(InvalidScope)
                   else if fault then Err(DatabaseFailure)
                   else Ok(Search(facts, q, now))
    {
      if !ValidScope(q.scope.kind) {
        return Err(InvalidScope);
      }
      if fault {
        return Err(DatabaseFailure);
      }
      ghost var keep := Wanted(q, now);
      var out: Table := [];
      for i := 0 to |facts|
        invariant out == Sort(Filter(facts[..i], keep))
      {
        FilterSnoc(facts[..i], facts[i], keep);
        assert facts[..i + 1] == facts[..i] + [facts[i]];
        if Matches(facts[i], q, now) {
          SortSnoc(Filter(facts[..i], keep), facts[i]);
          out := Insert(out, facts[i]);
        } else {
          assert Filter(facts[..i + 1], keep) == Filter(facts[..i], keep);
        }
      }
      assert facts[..|facts|] == facts;
      if 0 < q.limit < |out| {
        out := out[..q.limit];
      }
      return Ok(out);
    }

    static method Insert(rows: Table, f: Fact) returns (r: Table)
      ensures r == InsertRow(rows, f)
    {
      var n := |rows|;
      assert rows[..n] == rows;
      while n > 0 && Before(f, rows[n - 1])
        invariant 0 <= n <= |rows|
        invariant InsertRow(rows, f) == InsertRow(rows[..n], f) + rows[n..]
      {
        assert rows[..n][..n - 1] == rows[..n - 1];
        assert [rows[n - 1]] + rows[n..] == rows[n - 1..];
        n := n - 1;
      }
      return rows[..n] + [f] + rows[n..];
    }

    method ForgetFact(id: nat, fault: bool) returns (r: Result<bool, MemoryError>)
      modifies this
      ensures facts == if fault then old(facts) else WithoutId(old(facts), id)
      ensures r == if fault then Err(DatabaseFailure) else Ok(exists f :: f in old(facts) && f.id == id)
    {
      if fault {
        return Err(DatabaseFailure);
      }
      ghost var keep := (f: Fact) => f.id != id;
      var rest: Table := [];
      var removed := false;
      for i := 0 to |facts|
        invariant facts == old(facts) && rest == Filter(facts[..i], keep)
        invariant removed <==> exists f :: f in facts[..i] && f.id == id
      {
        assert facts[..i + 1] == facts[..i] + [facts[i]];
        FilterSnoc(facts[..i], facts[i], keep);
        if facts[i].id != id {
          rest := rest + [facts[i]];
        } else {
          removed := true;
          assert facts[i] in facts[..i + 1];
        }
      }
      assert facts[..|facts|] == facts;
      facts := rest;
      return Ok(removed);
    }

    method ForgetFactsByKey(scope: Scope, key: string, fault: bool) returns (r: Result<nat, MemoryError>)
      modifies this
      ensures facts == if fault then old(facts) else WithoutKey(old(facts), scope, key)
      ensures r == if fault then Err(DatabaseFailure) else Ok(|old(facts)| - |facts|)
    {
      if fault {
        return Err(DatabaseFailure);
      }
      ghost var keep := (f: Fact) => !(f.scope == scope && f.key == key);
      var rest: Table := [];
      var count := 0;
      for i := 0 to |facts|
        invariant facts == old(facts) && rest == Filter(facts[..i], keep) && count == i - |rest|
      {
        assert facts[..i + 1] == facts[..i] + [facts[i]];
        FilterSnoc(facts[..i], facts[i], keep);
        if facts[i].scope == scope && facts[i].key == key {
          count := count + 1;
        } else {
          rest := rest + [facts[i]];
        }
      }
      assert facts[..|facts|] == facts;
      facts := rest;
      return Ok(count);
    }

    method DeleteExpiredFacts(before: int, fault: bool) returns (r: Result<nat, MemoryError>)
      modifies this
      ensures facts == if fault then old(facts) else WithoutExpired(old(facts), before)
      ensures r == if fault then Err(DatabaseFailure) else Ok(|old(facts)| - |facts|)
    {
      if fault {
        return Err(DatabaseFailure);
      }
      ghost var keep := (f: Fact) => !Expired(f, before);
      var rest: Table := [];
      var count := 0;
      for i := 0 to |facts|
        invariant facts == old(facts) && rest == Filter(facts[..i], keep) && count == i - |rest|
      {
        assert facts[..i + 1] == facts[..i] + [facts[i]];
        FilterSnoc(facts[..i], facts[i], keep);
        if Expired(facts[i], before) {
          count := count + 1;
        } else {
          rest := rest + [facts[i]];
        }
      }
      assert facts[..|facts|] == facts;
      facts := rest;
      return Ok(count);
    }
  }

  lemma SortSnoc(rows: Table, f: Fact)
    ensures Sort(rows + [f]) == InsertRow(Sort(rows), f)
  {
    assert (rows + [f])[..|rows|] == rows;
  }

  // ---------------------------------------------------------------------------------------------
  // What a search returns
  // ---------------------------------------------------------------------------------------------

  ghost predicate InOrder(rows: Table) {
    forall i, j :: 0 <= i < j < |rows| ==> !Before(rows[j], rows[i])
  }

  lemma BeforeIsWeakOrder(a: Fact, b: Fact, c: Fact)
    ensures Before(a, b) ==> !Before(b, a)
    ensures Before(a, b) && !Before(c, b) ==> Before(a, c)
  {
    StrTrichotomy(a.key, b.key);
    StrTrichotomy(b.key, c.key);
    if StrLess(a.key, b.key) && StrLess(b.key, c.key) {
      StrTransitive(a.key, b.key, c.key);
    }
  }

  lemma LastIsCounted(rows: Table)
    requires rows != []
    ensures multiset(rows) == multiset(rows[..|rows| - 1]) + multiset{rows[|rows| - 1]}
  {
    assert rows == rows[..|rows| - 1] + [rows[|rows| - 1]];
  }

  lemma {:induction false} InsertAddsOne(rows: Table, f: Fact)
    ensures multiset(InsertRow(rows, f)) == multiset(rows) + multiset{f}
  {
    if rows != [] && Before(f, rows[|rows| - 1]) {
      InsertAddsOne(rows[..|rows| - 1], f);
      LastIsCounted(rows);
    }
  }

  lemma InsertedMembers(rows: Table, f: Fact, x: Fact)
    requires x in InsertRow(rows, f)
    ensures x == f || x in rows
  {
    InsertAddsOne(rows, f);
    assert x in multiset(InsertRow(rows, f));
    assert x in multiset(rows) + multiset{f};
  }

  lemma OrderSnoc(rows: Table, last: Fact)
    requires InOrder(rows) && forall x :: x in rows ==> !Before(last, x)
    ensures InOrder(rows + [last])
  {}

  lemma {:induction false} InsertKeepsOrder(rows: Table, f: Fact)
    requires InOrder(rows)
    ensures InOrder(InsertRow(rows, f))
  {
    if rows != [] && Before(f, rows[|rows| - 1]) {
      var n := |rows| - 1;
      var last := rows[n];
      var inner := InsertRow(rows[..n], f);
      InsertKeepsOrder(rows[..n], f);
      BeforeIsWeakOrder(f, last, last);
      forall x | x in inner ensures !Before(last, x) {
        InsertedMembers(rows[..n], f, x);
      }
      OrderSnoc(inner, last);
    } else {
      forall x | x in rows ensures !Before(f, x) {
        BeforeIsWeakOrder(f, x, rows[|rows| - 1]);
      }
      OrderSnoc(rows, f);
    }
  }

  lemma {:induction false} SortPermutes(rows: Table)
    ensures multiset(Sort(rows)) == multiset(rows)
  {
    if rows != [] {
      SortPermutes(rows[..|rows| - 1]);
      InsertAddsOne(Sort(rows[..|rows| - 1]), rows[|rows| - 1]);
      LastIsCounted(rows);
    }
  }

  lemma {:induction false} SortSorts(rows: Table)
    ensures InOrder(Sort(rows))
  {
    if rows != [] {
      SortSorts(rows[..|rows| - 1]);
      InsertKeepsOrder(Sort(rows[..|rows| - 1]), rows[|rows| - 1]);
    }
  }

  lemma {:induction false} FilterKeeps(rows: Table, keep: Fact -> bool, f: Fact)
    ensures multiset(Filter(rows, keep))[f] == if keep(f) then multiset(rows)[f] else 0
    ensures |Filter(rows, keep)| <= |rows|
  {
    if rows != [] {
      var n := |rows| - 1;
      FilterKeeps(rows[..n], keep, f);
      LastIsCounted(rows);
    }
  }

  /** An unlimited search returns, newest first and then by key, exactly the rows that match: each as
      often as the table holds it, and none of another scope. */
  lemma SearchIsExact(rows: Table, q: FactQuery, now: int)
    requires q.limit <= 0
    ensures InOrder(Search(rows, q, now))
    ensures forall f :: multiset(Search(rows, q, now))[f] == if Matches(f, q, now) then multiset(rows)[f] else 0
    ensures forall f :: f in Search(rows, q, now) <==> f in rows && Matches(f, q, now)
  {
    var found := Filter(rows, Wanted(q, now));
    SortSorts(found);
    SortPermutes(found);
    forall f
      ensures multiset(Sort(found))[f] == if Matches(f, q, now) then multiset(rows)[f] else 0
      ensures f in Sort(found) <==> f in rows && Matches(f, q, now)
    {
      FilterKeeps(rows, Wanted(q, now), f);
      assert f in Sort(found) <==> f in multiset(Sort(found));
      assert f in rows <==> f in multiset(rows);
    }
  }

  /** A limit keeps the first rows of the unlimited search. */
  lemma LimitTakesAPrefix(rows: Table, q: FactQuery, now: int)
    ensures var all := Search(rows, q.(limit := 0), now);
            Search(rows, q, now) == all[..if 0 < q.limit < |all| then q.limit else |all|]
  {
    FilterAgrees(rows, Wanted(q, now), Wanted(q.(limit := 0), now));
    var all := Search(rows, q.(limit := 0), now);
    assert all[..|all|] == all;
  }

  // ---------------------------------------------------------------------------------------------
  // Runs, retention and noninterference
  // ---------------------------------------------------------------------------------------------

  lemma {:induction false} FilterAgrees(rows: Table, p: Fact -> bool, q: Fact -> bool)
    requires forall f :: p(f) == q(f)
    ensures Filter(rows, p) == Filter(rows, q)
  {
    if rows != [] {
      FilterAgrees(rows[..|rows| - 1], p, q);
    }
  }

  lemma {:induction false} FilterTwice(rows: Table, p: Fact -> bool, q: Fact -> bool, both: Fact -> bool)
    requires forall f :: both(f) == (p(f) && q(f))
    ensures Filter(Filter(rows, p), q) == Filter(rows, both)
  {
    if rows != [] {
      var n := |rows| - 1;
      FilterTwice(rows[..n], p, q, both);
      if p(rows[n]) {
        FilterSnoc(Filter(rows[..n], p), rows[n], q);
      } else {
        assert Filter(rows, p) == Filter(rows[..n], p);
      }
    }
  }

  lemma FiltersCommute(rows: Table, p: Fact -> bool, q: Fact -> bool)
    ensures Filter(Filter(rows, p), q) == Filter(Filter(rows, q), p)
  {
    FilterTwice(rows, p, q, (f: Fact) => p(f) && q(f));
    FilterTwice(rows, q, p, (f: Fact) => p(f) && q(f));
  }

  /** Invisible retention: a sweep up to `before` changes no default search at any time from then on, for
      any scope, tags and limit. */
  lemma RetentionIsInvisible(rows: Table, before: int, q: FactQuery, now: int)
    requires before <= now && !q.includeExpired
    ensures Search(WithoutExpired(rows, before), q, now) == Search(rows, q, now)
  {
    var keep := Wanted(q, now);
    FilterTwice(rows, (f: Fact) => !Expired(f, before), keep, keep);
  }

  /** A search that asks for expired facts sees the sweep exactly when it removes a matching row. */
  lemma RetentionIsVisibleIff(rows: Table, before: int, q: FactQuery, now: int)
    requires q.includeExpired && q.limit <= 0
    ensures Search(WithoutExpired(rows, before), q, now) == Search(rows, q, now) <==>
            !exists f :: f in rows && Matches(f, q, now) && Expired(f, before)
  {
    var swept := WithoutExpired(rows, before);
    var live := (f: Fact) => !Expired(f, before);
    if f :| f in rows && Matches(f, q, now) && Expired(f, before) {
      SearchIsExact(rows, q, now);
      SearchIsExact(swept, q, now);
      FilterKeeps(rows, live, f);
      assert f in Search(rows, q, now);
      assert multiset(swept)[f] == 0;
    } else {
      var keep := Wanted(q, now);
      FiltersCommute(rows, live, keep);
      forall f | f in Filter(rows, keep) ensures live(f) {
        FilterKeeps(rows, keep, f);
        assert f in multiset(Filter(rows, keep));
        assert f in multiset(rows);
      }
      FilterKeepsAll(Filter(rows, keep), live);
    }
  }

  lemma {:induction false} FilterKeepsAll(rows: Table, keep: Fact -> bool)
    requires forall f :: f in rows ==> keep(f)
    ensures Filter(rows, keep) == rows
  {
    if rows != [] {
      FilterKeepsAll(rows[..|rows| - 1], keep);
      assert rows == rows[..|rows| - 1] + [rows[|rows| - 1]];
    }
  }

  datatype Op =
    | Write(input: FactInput, id: nat, now: int)
    | ForgetId(id: nat)
    | ForgetKey(scope: Scope, key: string)
    | Sweep(before: int)

  function ApplyOp(rows: Table, op: Op): Table {
    match op
    case Write(input, id, now) => WithFact(rows, input, id, now)
    case ForgetId(id) => WithoutId(rows, id)
    case ForgetKey(scope, key) => WithoutKey(rows, scope, key)
    case Sweep(before) => WithoutExpired(rows, before)
  }

  function Exec(ops: seq<Op>): Table {
    if ops == [] then [] else ApplyOp(Exec(ops[..|ops| - 1]), ops[|ops| - 1])
  }

  function InScope(rows: Table, scope: Scope): Table {
    Filter(rows, (f: Fact) => f.scope == scope)
  }

  /** Does the operation, on this table, concern the scope? Writes and key-forgets name their scope, an
      id-forget concerns the scope of the fact it finds, a sweep concerns everyone. */
  predicate Concerns(op: Op, rows: Table, scope: Scope) {
    match op
    case Write(input, _, _) => input.scope == scope
    case ForgetId(id) => exists f :: f in rows && f.scope == scope && f.id == id
    case ForgetKey(s, _) => s == scope
    case Sweep(_) => true
  }

  /** A run with everything that does not concern the scope struck out. */
  function Purge(ops: seq<Op>, scope: Scope): seq<Op> {
    if ops == [] then []
    else
      var n := |ops| - 1;
      Purge(ops[..n], scope) + if Concerns(ops[n], Exec(ops[..n]), scope) then [ops[n]] else []
  }

  /** An operation acts on the scope's rows alone; one that does not concern it leaves them alone. */
  lemma OpActsOnScope(rows: Table, op: Op, scope: Scope)
    ensures InScope(ApplyOp(rows, op), scope) ==
            if Concerns(op, rows, scope) then ApplyOp(InScope(rows, scope), op) else InScope(rows, scope)
  {
    var mine := (f: Fact) => f.scope == scope;
    match op
    case Write(input, id, now) =>
      if ValidScope(input.scope.kind) {
        FilterSnoc(rows, WithFact([], input, id, now)[0], mine);
      }
    case ForgetId(id) =>
      FiltersCommute(rows, (f: Fact) => f.id != id, mine);
      if !Concerns(op, rows, scope) {
        KeepsScope(rows, scope, (f: Fact) => f.id != id);
      }
    case ForgetKey(s, key) =>
      FiltersCommute(rows, (f: Fact) => !(f.scope == s && f.key == key), mine);
      if s != scope {
        KeepsScope(rows, scope, (f: Fact) => !(f.scope == s && f.key == key));
      }
    case Sweep(before) =>
      FiltersCommute(rows, (f: Fact) => !Expired(f, before), mine);
  }

  lemma KeepsScope(rows: Table, scope: Scope, keep: Fact -> bool)
    requires forall f :: f in rows && f.scope == scope ==> keep(f)
    ensures Filter(InScope(rows, scope), keep) == InScope(rows, scope)
  {
    forall f | f in InScope(rows, scope) ensures keep(f) {
      FilterKeeps(rows, (g: Fact) => g.scope == scope, f);
      assert f in multiset(InScope(rows, scope));
      assert f in multiset(rows);
    }
    FilterKeepsAll(InScope(rows, scope), keep);
  }

  /** What a scope holds after a run is what the run leaves when everything else is struck out. */
  lemma {:induction false} PurgeIsInvisible(ops: seq<Op>, scope: Scope)
    ensures InScope(Exec(ops), scope) == Exec(Purge(ops, scope))
  {
    if ops != [] {
      var n := |ops| - 1;
      PurgeIsInvisible(ops[..n], scope);
      OpActsOnScope(Exec(ops[..n]), ops[n], scope);
      if Concerns(ops[n], Exec(ops[..n]), scope) {
        assert Purge(ops, scope)[..|Purge(ops, scope)| - 1] == Purge(ops[..n], scope);
      } else {
        assert Purge(ops, scope) == Purge(ops[..n], scope);
      }
    }
  }

  lemma SearchSeesOnlyItsScope(rows: Table, q: FactQuery, now: int)
    ensures Search(rows, q, now) == Search(InScope(rows, q.scope), q, now)
  {
    var keep := Wanted(q, now);
    FilterTwice(rows, (f: Fact) => f.scope == q.scope, keep, keep);
  }

  /** Scope noninterference: two runs that agree on what concerns a scope, and differ arbitrarily on
      writes, key-forgets and id-forgets elsewhere, give identical searches of that scope. */
  lemma ScopesDoNotInterfere(ops1: seq<Op>, ops2: seq<Op>, q: FactQuery, now: int)
    requires Purge(ops1, q.scope) == Purge(ops2, q.scope)
    ensures Search(Exec(ops1), q, now) == Search(Exec(ops2), q, now)
  {
    PurgeIsInvisible(ops1, q.scope);
    PurgeIsInvisible(ops2, q.scope);
    SearchSeesOnlyItsScope(Exec(ops1), q, now);
    SearchSeesOnlyItsScope(Exec(ops2), q, now);
  }

  function WithoutSweeps(ops: seq<Op>): seq<Op> {
    if ops == [] then []
    else
      var n := |ops| - 1;
      WithoutSweeps(ops[..n]) + if ops[n].Sweep? then [] else [ops[n]]
  }

  function Live(rows: Table, now: int): Table {
    Filter(rows, (f: Fact) => !Expired(f, now))
  }

  lemma OpActsOnLive(rows: Table, op: Op, now: int)
    requires op.Sweep? ==> op.before <= now
    ensures Live(ApplyOp(rows, op), now) ==
            if op.Sweep? then Live(rows, now) else Live(ApplyOp(Live(rows, now), op), now)
  {
    var live := (f: Fact) => !Expired(f, now);
    FilterTwice(rows, live, live, live);
    match op
    case Write(input, id, at) =>
      if ValidScope(input.scope.kind) {
        var f := WithFact([], input, id, at)[0];
        FilterSnoc(rows, f, live);
        FilterSnoc(Live(rows, now), f, live);
      }
    case ForgetId(id) =>
      FiltersCommute(rows, (f: Fact) => f.id != id, live);
      FiltersCommute(Live(rows, now), (f: Fact) => f.id != id, live);
    case ForgetKey(s, key) =>
      FiltersCommute(rows, (f: Fact) => !(f.scope == s && f.key == key), live);
      FiltersCommute(Live(rows, now), (f: Fact) => !(f.scope == s && f.key == key), live);
    case Sweep(before) =>
      FilterTwice(rows, (f: Fact) => !Expired(f, before), live, live);
  }

  lemma {:induction false} SweepsLeaveTheLive(ops: seq<Op>, now: int)
    requires forall i :: 0 <= i < |ops| && ops[i].Sweep? ==> ops[i].before <= now
    ensures Live(Exec(ops), now) == Live(Exec(WithoutSweeps(ops)), now)
  {
    if ops != [] {
      var n := |ops| - 1;
      SweepsLeaveTheLive(ops[..n], now);
      OpActsOnLive(Exec(ops[..n]), ops[n], now);
      if ops[n].Sweep? {
        assert WithoutSweeps(ops) == WithoutSweeps(ops[..n]);
      } else {
        OpActsOnLive(Exec(WithoutSweeps(ops[..n])), ops[n], now);
        assert WithoutSweeps(ops)[..|WithoutSweeps(ops)| - 1] == WithoutSweeps(ops[..n]);
      }
    }
  }

  /** Retention over whole runs: whenever sweeps run, with cutoffs in the past, a default search finds
      what it would have found had none ever run. */
  lemma SweepsAreInvisibleInRuns(ops: seq<Op>, q: FactQuery, now: int)
    requires !q.includeExpired
    requires forall i :: 0 <= i < |ops| && ops[i].Sweep? ==> ops[i].before <= now
    ensures Search(Exec(ops), q, now) == Search(Exec(WithoutSweeps(ops)), q, now)
  {
    var keep := Wanted(q, now);
    SweepsLeaveTheLive(ops, now);
    FilterTwice(Exec(ops), (f: Fact) => !Expired(f, now), keep, keep);
    FilterTwice(Exec(WithoutSweeps(ops)), (f: Fact) => !Expired(f, now), keep, keep);
  }
}
