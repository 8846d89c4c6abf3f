/** The keyed token-bucket limiter and the two-level limiter built from it
    (gateway/internal/limits/limits.go). Clock readings are arguments; tokens and seconds are exact
    reals. */
module Limits {
  import opened Prelude

  /** A limiter's configuration: tokens per second and bucket size. */
  datatype Rate = Rate(perSecond: real, burst: real)

  function MakeRate(perMinute: int, burst: int): Rate {
    Rate(perMinute as real / 60.0, (if burst < 1 then 1 else burst) as real)
  }

  ghost predicate Sane(c: Rate) {
    c.perSecond >= 0.0 && c.burst >= 1.0
  }

  datatype Bucket = Bucket(tokens: real, last: real)

  type Buckets = map<string, Bucket>

  function Refill(c: Rate, b: Bucket, now: real): Bucket {
    var elapsed := now - b.last;
    if elapsed > 0.0 then
      var t := b.tokens + elapsed * c.perSecond;
      Bucket(if t > c.burst then c.burst else t, now)
    else b
  }

  /** One call against one (possibly not yet created) bucket: the new bucket and the answer. */
  function Spend(c: Rate, ob: Option<Bucket>, now: real): (Bucket, bool) {
    Take(Refill(c, if ob.None? then Bucket(c.burst, now) else ob.value, now))
  }

  function Take(b: Bucket): (Bucket, bool) {
    if b.tokens >= 1.0 then (b.(tokens := b.tokens - 1.0), true) else (b, false)
  }

  function Lookup(bs: Buckets, key: string): Option<Bucket> {
    if key in bs then Some(bs[key]) else None
  }

  function AllowKey(c: Rate, bs: Buckets, key: string, now: real): (Buckets, bool) {
    var (b, ok) := Spend(c, Lookup(bs, key), now);
    (bs[key := b], ok)
  }

  class RateLimiter {
    var buckets: Buckets
    const cfg: Rate

    constructor (perMinute: int, burst: int)
      ensures buckets == map[] && cfg == MakeRate(perMinute, burst)
      ensures 60.0 * cfg.perSecond == perMinute as real
      ensures cfg.burst == if burst < 1 then 1.0 else burst as real
    {
      var b := burst;
      if b < 1 {
        b := 1;
      }
      buckets := map[];
      cfg := Rate(perMinute as real / 60.0, b as real);
    }

    method Allow(key: string, now: real) returns (ok: bool)
      modifies this
      ensures (buckets, ok) == AllowKey(cfg, old(buckets), key, now)
    {
      if key !in buckets {
        buckets := buckets[key := Bucket(cfg.burst, now)];
      }
      var b := buckets[key];
      ghost var found := b;
      var elapsed := now - b.last;
      if elapsed > 0.0 {
        var earned := elapsed * cfg.perSecond;
        b := b.(tokens := b.tokens + earned);
        if b.tokens > cfg.burst {
          b := b.(tokens := cfg.burst);
        }
        b := b.(last := now);
      }
      assert b == Refill(cfg, found, now);
      ok := b.tokens >= 1.0;
      if ok {
        b := b.(tokens := b.tokens - 1.0);
      }
      assert (b, ok) == Spend(cfg, Lookup(old(buckets), key), now);
      buckets := buckets[key := b];
      assert buckets == old(buckets)[key := b];
    }
  }

  // ---------------------------------------------------------------------------------------------
  // One bucket against the full admission history
  // ---------------------------------------------------------------------------------------------

  /** A private bucket fed a sequence of clock readings: its final content and its answers. */
  function Feed(c: Rate, times: seq<real>): (r: (Option<Bucket>, seq<bool>))
    ensures |r.1| == |times| && (r.0.Some? <==> times != [])
  {
    if times == [] then (None, [])
    else
      var n := |times| - 1;
      var (ob, answers) := Feed(c, times[..n]);
      var (b, ok) := Spend(c, ob, times[n]);
      (Some(b), answers + [ok])
  }

  /** The clock's high-water marks: the largest reading up to and including each call. */
  function Marks(times: seq<real>): (r: seq<real>)
    ensures |r| == |times|
  {
    if times == [] then []
    else
      var n := |times| - 1;
      var before := Marks(times[..n]);
      before + [if n == 0 then times[n] else Max(before[n - 1], times[n])]
  }

  /** The window rule: for every earlier admitted call, the calls admitted from it on plus this one
      number at most burst + rate * (time since it). No bucket is involved. */
  ghost predicate WindowAdmits(c: Rate, marks: seq<real>, answers: seq<bool>, t: real)
    requires |marks| == |answers|
  {
    forall i :: 0 <= i < |answers| && answers[i] ==> Fits(c, CountTrue(answers[i..]), t - marks[i])
  }

  /** With `count` calls admitted over the last `elapsed` seconds, one more fits the window. */
  ghost predicate Fits(c: Rate, count: nat, elapsed: real) {
    count as real + 1.0 <= c.burst + c.perSecond * elapsed
  }

  /** The reference limiter: remembers every call and applies the window rule. */
  ghost function Window(c: Rate, times: seq<real>): (r: seq<bool>)
    ensures |r| == |times|
  {
    if times == [] then []
    else
      var n := |times| - 1;
      var answers := Window(c, times[..n]);
      answers + [WindowAdmits(c, Marks(times)[..n], answers, Marks(times)[n])]
  }

  // The proof reads time as credit, the tokens earned by then, in which a bucket refills one for one.
  // Everything between `Earns` and `BucketIsWindow` is then linear.

  /** A pair of instants to compare; gives the quantifier of `Earns` its trigger. */
  ghost predicate Span(from: real, to: real) { true }

  ghost predicate Earns(c: Rate, credit: real -> real) {
    forall x, y {:trigger Span(x, y)} :: Span(x, y) ==> credit(y) - credit(x) == c.perSecond * (y - x)
  }

  /** What the window opened by call `i` still has room for at mark `t`. */
  function Room(burst: real, credit: real -> real, marks: seq<real>, answers: seq<bool>, i: nat, t: real): real
    requires i < |answers| == |marks|
  {
    burst + credit(t) - credit(marks[i]) - CountTrue(answers[i..]) as real
  }

  /** The room of every window at mark `t`. */
  ghost function Rooms(burst: real, credit: real -> real, marks: seq<real>, answers: seq<bool>, t: real)
    : (rooms: seq<real>)
    requires |marks| == |answers|
    ensures |rooms| == |answers|
    ensures forall i :: 0 <= i < |rooms| ==> rooms[i] == Room(burst, credit, marks, answers, i, t)
  {
    seq(|answers|, i requires 0 <= i < |answers| => Room(burst, credit, marks, answers, i, t))
  }

  /** Every window opened by an admitted call has room for one more. */
  ghost predicate HasRoom(rooms: seq<real>, answers: seq<bool>)
    requires |rooms| == |answers|
  {
    forall i :: 0 <= i < |answers| && answers[i] ==> rooms[i] >= 1.0
  }

  /** `tokens` is the smallest room of any window opened by an admitted call, capped at the burst. */
  ghost predicate Least(burst: real, rooms: seq<real>, answers: seq<bool>, tokens: real)
    requires |rooms| == |answers|
  {
    && 0.0 <= tokens <= burst
    && (forall i :: 0 <= i < |answers| && answers[i] ==> tokens <= rooms[i])
    && (tokens == burst || exists i :: 0 <= i < |answers| && answers[i] && tokens == rooms[i])
  }

  /** A bucket's content is the smallest room of any window at its mark, capped at the burst. */
  ghost predicate Level(burst: real, credit: real -> real, marks: seq<real>, answers: seq<bool>, b: Bucket) {
    |marks| == |answers| && Least(burst, Rooms(burst, credit, marks, answers, b.last), answers, b.tokens)
  }

  function Capped(burst: real, tokens: real): real {
    if tokens > burst then burst else tokens
  }

  lemma NonNegativeProduct(a: real, b: real)
    requires a >= 0.0 && b >= 0.0
    ensures a * b >= 0.0
  {}

  lemma RefillEarns(c: Rate, credit: real -> real, b: Bucket, now: real)
    requires Sane(c) && Earns(c, credit) && b.tokens <= c.burst
    ensures var t := Max(b.last, now);
            && credit(b.last) <= credit(t)
            && Refill(c, b, now) == Bucket(Capped(c.burst, b.tokens + credit(t) - credit(b.last)), t)
  {
    var t := Max(b.last, now);
    assert Span(b.last, t);
    NonNegativeProduct(c.perSecond, t - b.last);
    assert (t - b.last) * c.perSecond == c.perSecond * (t - b.last);
  }

  lemma LeastAfterGain(burst: real, rooms: seq<real>, rooms1: seq<real>, answers: seq<bool>, tokens: real, gain: real)
    requires |rooms| == |rooms1| == |answers| && gain >= 0.0
    requires Least(burst, rooms, answers, tokens)
    requires forall i :: 0 <= i < |rooms| ==> rooms1[i] == rooms[i] + gain
    ensures Least(burst, rooms1, answers, Capped(burst, tokens + gain))
  {
    if tokens != burst {
      var i :| 0 <= i < |answers| && answers[i] && tokens == rooms[i];
      assert rooms1[i] == tokens + gain;
    }
  }

  lemma LevelAfterRefill(burst: real, credit: real -> real, marks: seq<real>, answers: seq<bool>,
                         b: Bucket, t: real)
    requires Level(burst, credit, marks, answers, b) && credit(b.last) <= credit(t)
    ensures Level(burst, credit, marks, answers,
                  Bucket(Capped(burst, b.tokens + credit(t) - credit(b.last)), t))
  {
    LeastAfterGain(burst, Rooms(burst, credit, marks, answers, b.last), Rooms(burst, credit, marks, answers, t),
                   answers, b.tokens, credit(t) - credit(b.last));
  }

  /** One more call is admitted exactly if every window has room for it; it then takes one unit from
      each, and opens a window of its own. */
  lemma LeastAfterTake(burst: real, rooms: seq<real>, answers: seq<bool>, tokens: real, rooms1: seq<real>)
    requires burst >= 1.0 && |rooms| == |answers| && |rooms1| == |rooms| + 1
    requires Least(burst, rooms, answers, tokens)
    requires var cost := if tokens >= 1.0 then 1.0 else 0.0;
             && (forall i :: 0 <= i < |rooms| ==> rooms1[i] == rooms[i] - cost)
             && rooms1[|rooms|] == burst - cost
    ensures tokens >= 1.0 <==> HasRoom(rooms, answers)
    ensures Least(burst, rooms1, answers + [tokens >= 1.0], if tokens >= 1.0 then tokens - 1.0 else tokens)
  {
    var answers1 := answers + [tokens >= 1.0];
    if tokens == burst {
      assert answers1[|rooms|];
    } else {
      var i :| 0 <= i < |answers| && answers[i] && tokens == rooms[i];
      assert answers1[i];
    }
  }

  lemma WindowAfterAnswer(answers: seq<bool>, i: nat, ok: bool)
    requires i <= |answers|
    ensures CountTrue((answers + [ok])[i..]) == CountTrue(answers[i..]) + if ok then 1 else 0
  {
    assert (answers + [ok])[i..] == answers[i..] + [ok];
    CountTrueSnoc(answers[i..], ok);
  }

  /** An answer takes one unit, if it admits, from every window; its own window starts at the burst. */
  lemma RoomsAfterAnswer(burst: real, credit: real -> real, marks: seq<real>, answers: seq<bool>, t: real, ok: bool)
    requires |marks| == |answers|
    ensures var (rooms, rooms1) := (Rooms(burst, credit, marks, answers, t),
                                    Rooms(burst, credit, marks + [t], answers + [ok], t));
            var cost := if ok then 1.0 else 0.0;
            && (forall i :: 0 <= i < |rooms| ==> rooms1[i] == rooms[i] - cost)
            && rooms1[|rooms|] == burst - cost
  {
    forall i | 0 <= i <= |answers|
      ensures CountTrue((answers + [ok])[i..]) == CountTrue(answers[i..]) + if ok then 1 else 0
    {
      WindowAfterAnswer(answers, i, ok);
    }
  }

  lemma LevelAfterTake(burst: real, credit: real -> real, marks: seq<real>, answers: seq<bool>, b: Bucket)
    requires burst >= 1.0 && Level(burst, credit, marks, answers, b)
    ensures Take(b).1 <==> HasRoom(Rooms(burst, credit, marks, answers, b.last), answers)
    ensures Level(burst, credit, marks + [b.last], answers + [Take(b).1], Take(b).0)
  {
    var ok := Take(b).1;
    RoomsAfterAnswer(burst, credit, marks, answers, b.last, ok);
    LeastAfterTake(burst, Rooms(burst, credit, marks, answers, b.last), answers, b.tokens,
                   Rooms(burst, credit, marks + [b.last], answers + [ok], b.last));
  }

  lemma RoomFits(c: Rate, credit: real -> real, mark: real, count: nat, t: real)
    requires Earns(c, credit)
    ensures Fits(c, count, t - mark) <==> c.burst + credit(t) - credit(mark) - count as real >= 1.0
  {
    assert Span(mark, t);
    CreditFits(c, count, t - mark, credit(t) - credit(mark));
  }

  lemma CreditFits(c: Rate, count: nat, elapsed: real, earned: real)
    requires earned == c.perSecond * elapsed
    ensures Fits(c, count, elapsed) <==> c.burst + earned - count as real >= 1.0
  {}

  lemma RoomIsWindow(c: Rate, credit: real -> real, marks: seq<real>, answers: seq<bool>, t: real)
    requires Earns(c, credit) && |marks| == |answers|
    ensures HasRoom(Rooms(c.burst, credit, marks, answers, t), answers) <==> WindowAdmits(c, marks, answers, t)
  {
    var rooms := Rooms(c.burst, credit, marks, answers, t);
    forall i | 0 <= i < |answers|
      ensures Fits(c, CountTrue(answers[i..]), t - marks[i]) <==> rooms[i] >= 1.0
    {
      RoomFits(c, credit, marks[i], CountTrue(answers[i..]), t);
    }
  }

  lemma SpendKeepsLevel(c: Rate, credit: real -> real, marks: seq<real>, answers: seq<bool>,
                        b0: Bucket, now: real)
    requires Sane(c) && Earns(c, credit) && Level(c.burst, credit, marks, answers, b0)
    ensures var (b, ok) := Spend(c, Some(b0), now);
            && b.last == Max(b0.last, now)
            && (ok <==> WindowAdmits(c, marks, answers, b.last))
            && Level(c.burst, credit, marks + [b.last], answers + [ok], b)
  {
    var t := Max(b0.last, now);
    RefillEarns(c, credit, b0, now);
    LevelAfterRefill(c.burst, credit, marks, answers, b0, t);
    LevelAfterTake(c.burst, credit, marks, answers, Refill(c, b0, now));
    RoomIsWindow(c, credit, marks, answers, t);
  }

  lemma {:induction false} FeedIsWindow(c: Rate, credit: real -> real, times: seq<real>)
    requires Sane(c) && Earns(c, credit)
    ensures Feed(c, times).1 == Window(c, times)
    ensures times != [] ==>
              && Feed(c, times).0.value.last == Marks(times)[|times| - 1]
              && Level(c.burst, credit, Marks(times), Window(c, times), Feed(c, times).0.value)
  {
    if times != [] {
      var n := |times| - 1;
      FeedIsWindow(c, credit, times[..n]);
      var (ob, answers) := Feed(c, times[..n]);
      var marks := Marks(times[..n]);
      var b0 := if ob.None? then Bucket(c.burst, times[n]) else ob.value;
      SpendKeepsLevel(c, credit, marks, answers, b0, times[n]);
      assert Spend(c, ob, times[n]) == Spend(c, Some(b0), times[n]);
      assert Marks(times) == marks + [Feed(c, times).0.value.last];
      assert Marks(times)[..n] == marks;
    }
  }

  /** Bucket exactness, on any clock: the one-cell capped bucket gives exactly the answers of the
      full-history window rule read at the clock's high-water marks, which is where `last` stands. */
  lemma BucketIsWindow(c: Rate, times: seq<real>)
    requires Sane(c)
    ensures Feed(c, times).1 == Window(c, times)
    ensures times != [] ==> var b := Feed(c, times).0.value;
              b.last == Marks(times)[|times| - 1] && 0.0 <= b.tokens <= c.burst
  {
    FeedIsWindow(c, (t: real) => c.perSecond * t, times);
  }

  ghost predicate NonDecreasing(times: seq<real>) {
    forall i :: 0 < i < |times| ==> times[i - 1] <= times[i]
  }

  lemma {:induction false} MarksOfMonotoneClock(times: seq<real>)
    requires NonDecreasing(times)
    ensures Marks(times) == times
  {
    if times != [] {
      MarksOfMonotoneClock(times[..|times| - 1]);
    }
  }

  lemma {:induction false} FeedPrefix(c: Rate, times: seq<real>, n: nat)
    requires n <= |times|
    ensures Feed(c, times).1[..n] == Feed(c, times[..n]).1
  {
    if n == |times| {
      assert times[..n] == times;
    } else {
      var m := |times| - 1;
      FeedPrefix(c, times[..m], n);
      assert times[..m][..n] == times[..n];
    }
  }

  /** Bucket exactness on a clock that does not step back, call by call: call `n` is admitted if and
      only if every earlier admitted call's window has room for it. */
  lemma AdmittedIffWindowHasRoom(c: Rate, times: seq<real>, n: nat)
    requires Sane(c) && NonDecreasing(times) && n < |times|
    ensures var answers := Feed(c, times).1;
            answers[n] <==>
            forall i :: 0 <= i < n && answers[i] ==>
              Fits(c, CountTrue(answers[i..n]), times[n] - times[i])
  {
    FeedPrefix(c, times, n + 1);
    FeedPrefix(c, times, n);
    var upTo, answers := times[..n + 1], Feed(c, times).1;
    assert upTo[..n] == times[..n];
    LastAnswerIsWindow(c, upTo);
    assert answers[n] == answers[..n + 1][n];
    WindowOfPrefix(c, times, answers, n);
  }

  lemma LastAnswerIsWindow(c: Rate, times: seq<real>)
    requires Sane(c) && NonDecreasing(times) && times != []
    ensures var n := |times| - 1;
            Feed(c, times).1[n] <==> WindowAdmits(c, times[..n], Feed(c, times[..n]).1, times[n])
  {
    MarksOfMonotoneClock(times);
    BucketIsWindow(c, times);
    BucketIsWindow(c, times[..|times| - 1]);
  }

  /** The rule on the first `n` calls, spelled out over the whole history. */
  lemma WindowOfPrefix(c: Rate, times: seq<real>, answers: seq<bool>, n: nat)
    requires |times| == |answers| && n < |times|
    ensures WindowAdmits(c, times[..n], answers[..n], times[n]) <==>
            forall i :: 0 <= i < n && answers[i] ==>
              Fits(c, CountTrue(answers[i..n]), times[n] - times[i])
  {
    var past := answers[..n];
    forall i | 0 <= i < n
      ensures Fits(c, CountTrue(past[i..]), times[n] - times[..n][i]) <==>
              Fits(c, CountTrue(answers[i..n]), times[n] - times[i])
    {
      assert past[i..] == answers[i..n];
    }
  }

  /** A key whose calls are at least 60/perMinute seconds apart is never denied by its own bucket. */
  lemma {:induction false} SpacedCallsAreNeverDenied(perMinute: int, burst: int, times: seq<real>)
    requires perMinute > 0
    requires forall i :: 0 < i < |times| ==> times[i] - times[i - 1] >= 60.0 / perMinute as real
    ensures var (ob, answers) := Feed(MakeRate(perMinute, burst), times);
            && (forall i :: 0 <= i < |answers| ==> answers[i])
            && (times != [] ==> ob.value.last == times[|times| - 1] && ob.value.tokens >= 0.0)
  {
    if times != [] {
      var n := |times| - 1;
      SpacedCallsAreNeverDenied(perMinute, burst, times[..n]);
      if n > 0 {
        SpacingRefillsOne(perMinute, times[n] - times[n - 1]);
        SpacedStep(MakeRate(perMinute, burst), Feed(MakeRate(perMinute, burst), times[..n]).0.value, times[n]);
      } else {
        assert Feed(MakeRate(perMinute, burst), times[..0]) == (None, []);
      }
    }
  }

  lemma SpacedStep(c: Rate, b: Bucket, now: real)
    requires c.burst >= 1.0 && b.tokens >= 0.0
    requires now > b.last && (now - b.last) * c.perSecond >= 1.0
    ensures var (b1, ok) := Spend(c, Some(b), now); ok && b1.last == now && b1.tokens >= 0.0
  {
    var gain := (now - b.last) * c.perSecond;
    assert Refill(c, b, now) == Bucket(Capped(c.burst, b.tokens + gain), now);
  }

  lemma SpacingRefillsOne(perMinute: int, elapsed: real)
    requires perMinute > 0 && elapsed >= 60.0 / perMinute as real
    ensures elapsed > 0.0 && elapsed * (perMinute as real / 60.0) >= 1.0
  {
    var p := perMinute as real;
    var gap := 60.0 / p;
    assert gap * p == 60.0;
    assert gap > 0.0;
    NonNegativeProduct(elapsed - gap, p);
    assert elapsed * p >= gap * p;
    assert elapsed * (p / 60.0) == (elapsed * p) / 60.0;
  }

  // ---------------------------------------------------------------------------------------------
  // Many keys
  // ---------------------------------------------------------------------------------------------

  datatype Attempt = Attempt(key: string, now: real)

  function FeedKeyed(c: Rate, calls: seq<Attempt>): (r: (Buckets, seq<bool>))
    ensures |r.1| == |calls|
  {
    if calls == [] then (map[], [])
    else
      var n := |calls| - 1;
      var (bs, answers) := FeedKeyed(c, calls[..n]);
      var (bs1, ok) := AllowKey(c, bs, calls[n].key, calls[n].now);
      (bs1, answers + [ok])
  }

  function TimesOf(calls: seq<Attempt>, key: string): seq<real> {
    if calls == [] then []
    else
      var n := |calls| - 1;
      TimesOf(calls[..n], key) + if calls[n].key == key then [calls[n].now] else []
  }

  function AnswersOf(calls: seq<Attempt>, answers: seq<bool>, key: string): seq<bool>
    requires |calls| == |answers|
  {
    if calls == [] then []
    else
      var n := |calls| - 1;
      AnswersOf(calls[..n], answers[..n], key) + if calls[n].key == key then [answers[n]] else []
  }

  /** Keyed projection: whatever the other keys do, one key sees exactly a private bucket fed that
      key's own readings, hence exactly the window rule on them. */
  lemma {:induction false} KeyedProjection(c: Rate, calls: seq<Attempt>, key: string)
    requires Sane(c)
    ensures var (bs, answers) := FeedKeyed(c, calls);
            && Lookup(bs, key) == Feed(c, TimesOf(calls, key)).0
            && AnswersOf(calls, answers, key) == Feed(c, TimesOf(calls, key)).1
            && AnswersOf(calls, answers, key) == Window(c, TimesOf(calls, key))
            && (key in bs ==> 0.0 <= bs[key].tokens <= c.burst)
  {
    var times := TimesOf(calls, key);
    if calls != [] {
      var n := |calls| - 1;
      KeyedProjection(c, calls[..n], key);
      var (bs0, answers0) := FeedKeyed(c, calls[..n]);
      assert FeedKeyed(c, calls).1[..n] == answers0;
      if calls[n].key == key {
        assert times[..|times| - 1] == TimesOf(calls[..n], key);
      } else {
        assert times == TimesOf(calls[..n], key);
      }
    }
    BucketIsWindow(c, times);
  }

  // ---------------------------------------------------------------------------------------------
  // Throughput of one bucket over one step
  // ---------------------------------------------------------------------------------------------

  ghost predicate BucketsOk(c: Rate, bs: Buckets) {
    forall k :: k in bs ==> 0.0 <= bs[k].tokens <= c.burst
  }

  /** A bucket that does not exist yet is full. */
  function Tokens(c: Rate, bs: Buckets, key: string): real {
    if key in bs then bs[key].tokens else c.burst
  }

  /** How far a step moved the key's `last`; creating the bucket does not move it. */
  function Advance(before: Buckets, after: Buckets, key: string): real {
    if key in before && key in after then after[key].last - before[key].last else 0.0
  }

  /** The credit a step earned the key. */
  function Gained(credit: real -> real, before: Buckets, after: Buckets, key: string): real {
    if key in before && key in after then credit(after[key].last) - credit(before[key].last) else 0.0
  }

  /** A step from `before` to `after` that spent at most what the key's bucket held and gained. */
  ghost predicate Paid(c: Rate, credit: real -> real, before: Buckets, after: Buckets, key: string, spent: bool) {
    && before.Keys <= after.Keys
    && Advance(before, after, key) >= 0.0
    && Tokens(c, after, key) + (if spent then 1.0 else 0.0)
         <= Tokens(c, before, key) + Gained(credit, before, after, key)
  }

  lemma SpendPays(c: Rate, credit: real -> real, ob: Option<Bucket>, now: real)
    requires Sane(c) && Earns(c, credit) && (ob.Some? ==> 0.0 <= ob.value.tokens <= c.burst)
    ensures var (b, ok) := Spend(c, ob, now);
            var b0 := if ob.None? then Bucket(c.burst, now) else ob.value;
            && 0.0 <= b.tokens <= c.burst
            && b0.last <= b.last
            && b.tokens + (if ok then 1.0 else 0.0) <= b0.tokens + (credit(b.last) - credit(b0.last))
  {
    RefillEarns(c, credit, if ob.None? then Bucket(c.burst, now) else ob.value, now);
  }

  lemma AllowPaysForItself(c: Rate, credit: real -> real, bs: Buckets, key: string, now: real, k: string)
    requires Sane(c) && Earns(c, credit) && BucketsOk(c, bs)
    ensures var (bs1, ok) := AllowKey(c, bs, key, now);
            BucketsOk(c, bs1) && Paid(c, credit, bs, bs1, k, ok && k == key)
  {
    SpendPays(c, credit, Lookup(bs, key), now);
  }

  // ---------------------------------------------------------------------------------------------
  // The two-level limiter
  // ---------------------------------------------------------------------------------------------

  /** A missing rate disables that dimension. */
  datatype LimiterConfig = LimiterConfig(committee: Option<Rate>, global: Option<Rate>)

  datatype LimiterState = LimiterState(committee: Buckets, global: Buckets)

  const UNKNOWN := "_unknown"
  const GLOBAL := "_global"

  function CommitteeKey(committee: string): string {
    if committee == "" then UNKNOWN else committee
  }

  /** Both clock readings are inputs: each bucket reads the clock for itself. */
  function LimiterAllow(cfg: LimiterConfig, s: LimiterState, committee: string, tc: real, tg: real)
    : (LimiterState, bool)
  {
    var (cb, cok) :=
      if cfg.committee.None? then (s.committee, true)
      else AllowKey(cfg.committee.value, s.committee, CommitteeKey(committee), tc);
    if !cok then (s.(committee := cb), false)
    else
      var (gb, gok) :=
        if cfg.global.None? then (s.global, true) else AllowKey(cfg.global.value, s.global, GLOBAL, tg);
      (LimiterState(cb, gb), gok)
  }

  function MakeLimiter(committeePerMinute: int, committeeBurst: int, globalPerMinute: int, globalBurst: int)
    : LimiterConfig
  {
    LimiterConfig(
      if committeePerMinute > 0 then Some(MakeRate(committeePerMinute, committeeBurst)) else None,
      if globalPerMinute > 0 then Some(MakeRate(globalPerMinute, globalBurst)) else None)
  }

  class Limiter {
    const committee: RateLimiter?
    const global: RateLimiter?

    ghost predicate Valid()
    {
      committee != null ==> committee != global
    }

    ghost function Config(): LimiterConfig
    {
      LimiterConfig(if committee == null then None else Some(committee.cfg),
                    if global == null then None else Some(global.cfg))
    }

    ghost function View(): LimiterState
      reads committee, global
    {
      LimiterState(if committee == null then map[] else committee.buckets,
                   if global == null then map[] else global.buckets)
    }

    constructor (committeePerMinute: int, committeeBurst: int, globalPerMinute: int, globalBurst: int)
      ensures Valid() && View() == LimiterState(map[], map[])
      ensures Config() == MakeLimiter(committeePerMinute, committeeBurst, globalPerMinute, globalBurst)
      ensures committee != null ==> fresh(committee)
      ensures global != null ==> fresh(global)
    {
      var c: RateLimiter?, g: RateLimiter? := null, null;
      if committeePerMinute > 0 {
        c := new RateLimiter(committeePerMinute, committeeBurst);
      }
      if globalPerMinute > 0 {
        g := new RateLimiter(globalPerMinute, globalBurst);
      }
      committee, global := c, g;
    }

    method Allow(committeeName: string, tc: real, tg: real) returns (ok: bool)
      requires Valid()
      modifies committee, global
      ensures (View(), ok) == LimiterAllow(Config(), old(View()), committeeName, tc, tg)
    {
      var key := committeeName;
      if key == "" {
        key := UNKNOWN;
      }
      if committee != null {
        var admitted := committee.Allow(key, tc);
        if !admitted {
          return false;
        }
      }
      if global != null {
        var admitted := global.Allow(GLOBAL, tg);
        if !admitted {
          return false;
        }
      }
      return true;
    }
  }

  ghost predicate LimiterSane(cfg: LimiterConfig) {
    (cfg.committee.Some? ==> Sane(cfg.committee.value)) && (cfg.global.Some? ==> Sane(cfg.global.value))
  }

  ghost predicate LimiterOk(cfg: LimiterConfig, s: LimiterState) {
    && (cfg.committee.Some? ==> BucketsOk(cfg.committee.value, s.committee))
    && (cfg.global.Some? ==> BucketsOk(cfg.global.value, s.global))
  }

  /** What this key's bucket would hold now; a caller can ask before calling. */
  function Refilled(c: Rate, bs: Buckets, key: string, now: real): real {
    if key in bs then Refill(c, bs[key], now).tokens else c.burst
  }

  /** The comment at limits.go:82-83 says a global denial does not burn a committee token. Whatever
      the global bucket says, the committee bucket keeps its tokens exactly when it had none to give. */
  lemma DenialSparesCommitteeIffItHadNone(c: Rate, g: Rate, s: LimiterState, committee: string,
                                          tc: real, tg: real)
    requires Sane(c) && Sane(g)
    ensures var key := CommitteeKey(committee);
            var had := Refilled(c, s.committee, key, tc);
            var (after, ok) := LimiterAllow(LimiterConfig(Some(c), Some(g)), s, committee, tc, tg);
            && (ok <==> had >= 1.0 && Refilled(g, s.global, GLOBAL, tg) >= 1.0)
            && key in after.committee
            && (after.committee[key].tokens == had <==> had < 1.0)
            && (had >= 1.0 ==> after.committee[key].tokens == had - 1.0)
  {}

  /** A concrete case: per-committee burst 1000, global burst 2; the third call is denied globally
      and its committee is left with 999 tokens. */
  lemma GlobalDenialBurnsCommitteeToken()
    ensures var cfg := MakeLimiter(1000, 1000, 100, 2);
            var s1 := LimiterAllow(cfg, LimiterState(map[], map[]), "a", 0.0, 0.0);
            var s2 := LimiterAllow(cfg, s1.0, "b", 0.0, 0.0);
            var s3 := LimiterAllow(cfg, s2.0, "c", 0.0, 0.0);
            s1.1 && s2.1 && !s3.1 && "c" in s3.0.committee && s3.0.committee["c"].tokens == 999.0
  {}

  /** A call through both levels pays one token of the global bucket if it is admitted. */
  lemma GlobalPays(cfg: LimiterConfig, credit: real -> real, s: LimiterState, committee: string,
                   tc: real, tg: real)
    requires LimiterSane(cfg) && LimiterOk(cfg, s) && cfg.global.Some? && Earns(cfg.global.value, credit)
    ensures var (s1, ok) := LimiterAllow(cfg, s, committee, tc, tg);
            Paid(cfg.global.value, credit, s.global, s1.global, GLOBAL, ok)
  {
    AllowPaysForItself(cfg.global.value, credit, s.global, GLOBAL, tg, GLOBAL);
  }

  /** And one token of its committee's bucket, whichever key `k` one watches. */
  lemma CommitteePays(cfg: LimiterConfig, credit: real -> real, s: LimiterState, committee: string,
                      tc: real, tg: real, k: string)
    requires LimiterSane(cfg) && LimiterOk(cfg, s) && cfg.committee.Some? && Earns(cfg.committee.value, credit)
    ensures var (s1, ok) := LimiterAllow(cfg, s, committee, tc, tg);
            Paid(cfg.committee.value, credit, s.committee, s1.committee, k, ok && CommitteeKey(committee) == k)
  {
    AllowPaysForItself(cfg.committee.value, credit, s.committee, CommitteeKey(committee), tc, k);
  }

  lemma AllowKeepsBuckets(c: Rate, bs: Buckets, key: string, now: real)
    requires Sane(c) && BucketsOk(c, bs)
    ensures BucketsOk(c, AllowKey(c, bs, key, now).0)
  {
    AllowPaysForItself(c, (t: real) => c.perSecond * t, bs, key, now, key);
  }

  lemma LimiterStaysOk(cfg: LimiterConfig, s: LimiterState, committee: string, tc: real, tg: real)
    requires LimiterSane(cfg) && LimiterOk(cfg, s)
    ensures LimiterOk(cfg, LimiterAllow(cfg, s, committee, tc, tg).0)
  {
    if cfg.committee.Some? {
      AllowKeepsBuckets(cfg.committee.value, s.committee, CommitteeKey(committee), tc);
    }
    if cfg.global.Some? {
      AllowKeepsBuckets(cfg.global.value, s.global, GLOBAL, tg);
    }
  }

  // ---------------------------------------------------------------------------------------------
  // Throughput of one bucket over a stretch of steps
  // ---------------------------------------------------------------------------------------------

  // A stretch is a range of moments of a `history` of limiter states; `charged` counts the calls the
  // key's bucket had admitted by each moment.

  /** How far the key's `last` moves over a stretch: the sum of its advances. */
  function Elapsed(history: nat -> Buckets, key: string, from: nat, until: nat): real
    requires from <= until
    decreases until
  {
    if from == until then 0.0
    else Elapsed(history, key, from, until - 1) + Advance(history(until - 1), history(until), key)
  }

  function ElapsedCredit(credit: real -> real, history: nat -> Buckets, key: string, from: nat, until: nat): real
    requires from <= until
    decreases until
  {
    if from == until then 0.0
    else ElapsedCredit(credit, history, key, from, until - 1) + Gained(credit, history(until - 1), history(until), key)
  }

  lemma Distribute(r: real, a: real, b: real)
    ensures r * (a + b) == r * a + r * b
  {}

  lemma {:induction false} ElapsedEarns(c: Rate, credit: real -> real, history: nat -> Buckets, key: string,
                                        from: nat, until: nat)
    requires Earns(c, credit) && from <= until
    ensures ElapsedCredit(credit, history, key, from, until) == c.perSecond * Elapsed(history, key, from, until)
    decreases until
  {
    if from < until {
      ElapsedEarns(c, credit, history, key, from, until - 1);
      var before, after := history(until - 1), history(until);
      if key in before && key in after {
        assert Span(before[key].last, after[key].last);
      }
      assert Gained(credit, before, after, key) == c.perSecond * Advance(before, after, key);
      Distribute(c.perSecond, Elapsed(history, key, from, until - 1), Advance(before, after, key));
    }
  }

  /** Each step admits at most one call and pays for it. */
  ghost predicate PaysAsItGoes(c: Rate, credit: real -> real, history: nat -> Buckets, charged: nat -> nat,
                               key: string, from: nat, until: nat)
  {
    forall i :: from <= i < until ==>
      && charged(i) <= charged(i + 1) <= charged(i) + 1
      && Paid(c, credit, history(i), history(i + 1), key, charged(i + 1) > charged(i))
  }

  lemma {:induction false} StretchIsPaid(c: Rate, credit: real -> real, history: nat -> Buckets,
                                         charged: nat -> nat, key: string, from: nat, until: nat)
    requires from <= until && PaysAsItGoes(c, credit, history, charged, key, from, until)
    ensures Elapsed(history, key, from, until) >= 0.0
    ensures (charged(until) - charged(from)) as real + Tokens(c, history(until), key)
              <= Tokens(c, history(from), key) + ElapsedCredit(credit, history, key, from, until)
    ensures key in history(from) ==>
              && key in history(until)
              && Elapsed(history, key, from, until) == history(until)[key].last - history(from)[key].last
    decreases until
  {
    if from < until {
      StretchIsPaid(c, credit, history, charged, key, from, until - 1);
      assert Paid(c, credit, history(until - 1), history(until), key, charged(until) > charged(until - 1));
    }
  }
}
