/** What the fact table's operations mean, row by row, without their own definitions: what a search
    returns and leaves out, what is stored, and what a forget or a sweep removes. */
module MemoryAnswers {
  import opened Prelude
  import opened Ordering
  import opened Memory

  /** The rows a query asks for: its scope, not expired at `now` unless expired ones are wanted, and with a
      tag in common if it names any. */
  ghost predicate AskedFor(f: Fact, q: FactQuery, now: int) {
    && f.scope.kind == q.scope.kind && f.scope.id == q.scope.id
    && (q.includeExpired || f.expiresAt.None? || f.expiresAt.value > now)
    && (q.tags == [] || exists i, j :: 0 <= i < |f.tags| && 0 <= j < |q.tags| && f.tags[i] == q.tags[j])
  }

  lemma AskedForIsMatched(f: Fact, q: FactQuery, now: int)
    ensures Matches(f, q, now) <==> AskedFor(f, q, now)
  {
    if exists i, j :: 0 <= i < |f.tags| && 0 <= j < |q.tags| && f.tags[i] == q.tags[j] {
      var i, j :| 0 <= i < |f.tags| && 0 <= j < |q.tags| && f.tags[i] == q.tags[j];
      assert f.tags[i] in q.tags;
    }
    if SharesTag(f.tags, q.tags) {
      var t :| t in f.tags && t in q.tags;
      var i :| 0 <= i < |f.tags| && f.tags[i] == t;
      var j :| 0 <= j < |q.tags| && q.tags[j] == t;
    }
  }

  /** `f` may stand before `g`: it is newer, or as old with a key that is not after. */
  ghost predicate NotAfter(f: Fact, g: Fact) {
    f.createdAt > g.createdAt || (f.createdAt == g.createdAt && !Precedes(g.key, f.key))
  }

  lemma BeforeMeans(f: Fact, g: Fact)
    ensures !Before(g, f) <==> NotAfter(f, g)
  {
    StrLessIsByteOrder(g.key, f.key);
  }

  function Unlimited(q: FactQuery): FactQuery {
    q.(limit := 0)
  }

  /** Without a limit a search returns each row asked for as often as the table holds it, and nothing else. */
  lemma SearchReturnsWhatIsAskedFor(rows: Table, q: FactQuery, now: int, f: Fact)
    requires q.limit <= 0
    ensures multiset(Search(rows, q, now))[f] == if AskedFor(f, q, now) then multiset(rows)[f] else 0
    ensures f in Search(rows, q, now) <==> f in rows && AskedFor(f, q, now)
  {
    SearchIsExact(rows, q, now);
    AskedForIsMatched(f, q, now);
  }

  /** Every search, limited or not, lists newer facts first, and facts of one instant by key. */
  lemma SearchIsNewestFirst(rows: Table, q: FactQuery, now: int)
    ensures var found := Search(rows, q, now);
            forall i, j :: 0 <= i < j < |found| ==> NotAfter(found[i], found[j])
  {
    var all := Search(rows, Unlimited(q), now);
    LimitTakesAPrefix(rows, q, now);
    SearchIsExact(rows, Unlimited(q), now);
    forall i, j | 0 <= i < j < |all| ensures NotAfter(all[i], all[j]) {
      BeforeMeans(all[i], all[j]);
    }
  }

  /** A positive limit is filled before anything asked for is left out, and nothing left out should have
      come before what is returned. */
  lemma LimitLeavesOutTheOldest(rows: Table, q: FactQuery, now: int, f: Fact)
    requires q.limit > 0 && f in rows && AskedFor(f, q, now) && f !in Search(rows, q, now)
    ensures var found := Search(rows, q, now);
            |found| == q.limit && forall g :: g in found ==> NotAfter(g, f)
  {
    var all, found := Search(rows, Unlimited(q), now), Search(rows, q, now);
    LimitTakesAPrefix(rows, q, now);
    AskedForIsMatched(f, q, now);
    SearchIsExact(rows, Unlimited(q), now);
    SearchIsNewestFirst(rows, Unlimited(q), now);
    CutTailComesAfter(all, q.limit, f);
  }

  lemma CutTailComesAfter(all: Table, limit: nat, f: Fact)
    requires forall i, j :: 0 <= i < j < |all| ==> NotAfter(all[i], all[j])
    requires limit < |all| && f in all && f !in all[..limit]
    ensures forall g :: g in all[..limit] ==> NotAfter(g, f)
  {
    var j :| 0 <= j < |all| && all[j] == f;
    forall i | 0 <= i < limit ensures all[i] in all[..limit] {
      assert all[..limit][i] == all[i];
    }
    forall g | g in all[..limit] ensures NotAfter(g, f) {
      var i :| 0 <= i < limit && all[..limit][i] == g;
      assert all[i] == g;
    }
  }

  lemma LimitIsKept(rows: Table, q: FactQuery, now: int)
    requires q.limit > 0
    ensures |Search(rows, q, now)| <= q.limit
    ensures forall f :: f in Search(rows, q, now) ==> f in rows && AskedFor(f, q, now)
  {
    var all, found := Search(rows, Unlimited(q), now), Search(rows, q, now);
    LimitTakesAPrefix(rows, q, now);
    SearchIsExact(rows, Unlimited(q), now);
    forall f | f in found ensures f in rows && AskedFor(f, q, now) {
      assert f in all;
      AskedForIsMatched(f, q, now);
    }
  }

  /** Store and retrieve: a fact written in a known scope is found there, with everything it was written
      with, for as long as it has not expired. */
  lemma WrittenFactIsFound(rows: Table, input: FactInput, id: nat, written: int, at: int)
    requires input.scope.kind in {"user", "committee", "org"}
    requires input.expiresAt.None? || input.expiresAt.value > at
    ensures exists f :: f in Search(WithFact(rows, input, id, written), FactQuery(input.scope, [], 0, false), at) &&
                        f.id == id && f.scope == input.scope && f.key == input.key && f.value == input.value &&
                        f.tags == input.tags && f.source == input.source &&
                        f.createdAt == written && f.expiresAt == input.expiresAt
  {
    var rows1 := WithFact(rows, input, id, written);
    assert rows1 == rows + [rows1[|rows|]];
    var f := rows1[|rows|];
    SearchReturnsWhatIsAskedFor(rows1, FactQuery(input.scope, [], 0, false), at, f);
  }

  /** Writing in an unknown scope stores nothing; otherwise it leaves every other row. */
  lemma WritingAddsAtMostOne(rows: Table, input: FactInput, id: nat, now: int)
    ensures var rows1 := WithFact(rows, input, id, now);
            rows <= rows1 &&
            |rows1| == |rows| + if input.scope.kind in {"user", "committee", "org"} then 1 else 0
  {}

  /** Each removal takes out exactly the rows it names. */
  lemma RemovalsAreExact(rows: Table, id: nat, scope: Scope, key: string, before: int, f: Fact)
    ensures multiset(WithoutId(rows, id))[f] == if f.id == id then 0 else multiset(rows)[f]
    ensures multiset(WithoutKey(rows, scope, key))[f] ==
            if f.scope.kind == scope.kind && f.scope.id == scope.id && f.key == key then 0 else multiset(rows)[f]
    ensures multiset(WithoutExpired(rows, before))[f] ==
            if f.expiresAt.Some? && f.expiresAt.value <= before then 0 else multiset(rows)[f]
  {
    FilterKeeps(rows, (g: Fact) => g.id != id, f);
    FilterKeeps(rows, (g: Fact) => !(g.scope == scope && g.key == key), f);
    FilterKeeps(rows, (g: Fact) => !Expired(g, before), f);
  }
}
