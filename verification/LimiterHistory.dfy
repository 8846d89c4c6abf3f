/** The limiters of gateway/internal/limits/limits.go against the history of their calls, in the terms
    they are configured in: calls a minute and a burst. */
module LimiterHistory {
  import opened Prelude
  import opened Limits

  /** The burst a configured integer stands for. */
  function BurstOf(burst: int): int {
    if burst < 1 then 1 else burst
  }

  lemma PerSecond(perMinute: int, elapsed: real)
    ensures 60.0 * ((perMinute as real / 60.0) * elapsed) == perMinute as real * elapsed
  {
    var p := perMinute as real;
    assert 60.0 * (p / 60.0) == p;
    assert (60.0 * (p / 60.0)) * elapsed == 60.0 * ((p / 60.0) * elapsed);
  }

  /** With `count` calls admitted over the last `elapsed` seconds there is room for one more: sixty times
      the calls, this one included, are at most sixty times the burst plus perMinute times the seconds. */
  ghost predicate RoomForOne(perMinute: int, burst: int, count: nat, elapsed: real) {
    60.0 * (count as real + 1.0) <= 60.0 * BurstOf(burst) as real + perMinute as real * elapsed
  }

  lemma RoomIsFit(perMinute: int, burst: int, count: nat, elapsed: real)
    ensures Fits(MakeRate(perMinute, burst), count, elapsed) <==> RoomForOne(perMinute, burst, count, elapsed)
  {
    PerSecond(perMinute, elapsed);
  }

  ghost predicate AllRoom(perMinute: int, burst: int, times: seq<real>, answers: seq<bool>, n: nat)
    requires |times| == |answers| && n < |times|
  {
    forall i :: 0 <= i < n && answers[i] ==>
      RoomForOne(perMinute, burst, CountTrue(answers[i..n]), times[n] - times[i])
  }

  lemma AllRoomIsFit(perMinute: int, burst: int, times: seq<real>, answers: seq<bool>, n: nat)
    requires |times| == |answers| && n < |times|
    ensures AllRoom(perMinute, burst, times, answers, n) <==>
            forall i :: 0 <= i < n && answers[i] ==>
              Fits(MakeRate(perMinute, burst), CountTrue(answers[i..n]), times[n] - times[i])
  {
    forall i | 0 <= i < n
      ensures Fits(MakeRate(perMinute, burst), CountTrue(answers[i..n]), times[n] - times[i]) <==>
              RoomForOne(perMinute, burst, CountTrue(answers[i..n]), times[n] - times[i])
    {
      RoomIsFit(perMinute, burst, CountTrue(answers[i..n]), times[n] - times[i]);
    }
  }

  /** Call by call, in the constructor's own integers: on a clock that does not step back, a limiter of
      `perMinute` calls a minute and the given burst admits call `n` if and only if there is room in the
      window of every earlier admitted call. */
  lemma ConfiguredBucketAdmitsIff(perMinute: int, burst: int, times: seq<real>, n: nat)
    requires perMinute >= 0 && NonDecreasing(times) && n < |times|
    ensures var answers := Feed(MakeRate(perMinute, burst), times).1;
            answers[n] <==> AllRoom(perMinute, burst, times, answers, n)
  {
    AdmittedIffWindowHasRoom(MakeRate(perMinute, burst), times, n);
    AllRoomIsFit(perMinute, burst, times, Feed(MakeRate(perMinute, burst), times).1, n);
  }

  /** Sixty calls a minute with a burst of one: the second of two calls half a second apart is denied. */
  lemma HalfASecondIsTooSoon()
    ensures Feed(MakeRate(60, 1), [0.0, 0.5]).1 == [true, false]
  {
    var times := [0.0, 0.5];
    assert times[..1] == [0.0] && times[..1][..0] == [];
  }

  // ---------------------------------------------------------------------------------------------
  // Both levels
  // ---------------------------------------------------------------------------------------------

  /** One call of the two-level limiter, with its two clock readings. */
  datatype Pass = Pass(committee: string, tc: real, tg: real)

  /** A fresh limiter fed a sequence of calls: its final state and its answers. */
  function Serve(cfg: LimiterConfig, calls: seq<Pass>): (r: (LimiterState, seq<bool>))
    ensures |r.1| == |calls|
  {
    if calls == [] then (LimiterState(map[], map[]), [])
    else
      var n := |calls| - 1;
      var (s, answers) := Serve(cfg, calls[..n]);
      var (s1, ok) := LimiterAllow(cfg, s, calls[n].committee, calls[n].tc, calls[n].tg);
      (s1, answers + [ok])
  }

  /** The full-history window rule on one more call after `earlier` ones. */
  ghost predicate WindowSays(c: Rate, earlier: seq<real>, now: real) {
    Window(c, earlier + [now])[|earlier|]
  }

  /** Both calls without a committee count as one committee, "_unknown". */
  predicate SameCommittee(a: string, b: string) {
    a == b || (a in {"", "_unknown"} && b in {"", "_unknown"})
  }

  /** The clock readings of the calls for a committee. */
  function CommitteeReadings(calls: seq<Pass>, committee: string): seq<real> {
    if calls == [] then []
    else
      var n := |calls| - 1;
      CommitteeReadings(calls[..n], committee) +
      if SameCommittee(calls[n].committee, committee) then [calls[n].tc] else []
  }

  /** The first level, from the history: the committee's own calls alone. */
  ghost predicate CommitteeHasRoom(cfg: LimiterConfig, before: seq<Pass>, p: Pass) {
    cfg.committee.Some? ==> WindowSays(cfg.committee.value, CommitteeReadings(before, p.committee), p.tc)
  }

  /** The clock readings of the calls that reach the second level: those their committee has room for. */
  ghost function GlobalReadings(cfg: LimiterConfig, calls: seq<Pass>): seq<real> {
    if calls == [] then []
    else
      var n := |calls| - 1;
      GlobalReadings(cfg, calls[..n]) + if CommitteeHasRoom(cfg, calls[..n], calls[n]) then [calls[n].tg] else []
  }

  ghost predicate GlobalHasRoom(cfg: LimiterConfig, before: seq<Pass>, p: Pass) {
    cfg.global.Some? ==> WindowSays(cfg.global.value, GlobalReadings(cfg, before), p.tg)
  }

  /** Each bucket of the state is a private bucket fed its own readings. */
  ghost predicate TracksCommittees(cfg: LimiterConfig, buckets: Buckets, calls: seq<Pass>) {
    cfg.committee.Some? ==>
      forall k :: Lookup(buckets, CommitteeKey(k)) == Feed(cfg.committee.value, CommitteeReadings(calls, k)).0
  }

  ghost predicate TracksGlobal(cfg: LimiterConfig, buckets: Buckets, calls: seq<Pass>) {
    cfg.global.Some? ==> Lookup(buckets, GLOBAL) == Feed(cfg.global.value, GlobalReadings(cfg, calls)).0
  }

  ghost predicate Tracks(cfg: LimiterConfig, s: LimiterState, calls: seq<Pass>) {
    TracksCommittees(cfg, s.committee, calls) && TracksGlobal(cfg, s.global, calls)
  }

  /** A bucket fed `earlier` answers the next call as the window does. */
  lemma NextAnswer(c: Rate, earlier: seq<real>, now: real)
    requires Sane(c)
    ensures var (b, ok) := Spend(c, Feed(c, earlier).0, now);
            Feed(c, earlier + [now]).0 == Some(b) && (ok <==> WindowSays(c, earlier, now))
  {
    var all := earlier + [now];
    assert all[..|earlier|] == earlier;
    BucketIsWindow(c, all);
  }

  lemma CommitteeReadingsSnoc(calls: seq<Pass>, p: Pass, committee: string)
    ensures CommitteeReadings(calls + [p], committee) ==
            if SameCommittee(p.committee, committee) then CommitteeReadings(calls, committee) + [p.tc]
            else CommitteeReadings(calls, committee)
  {
    assert (calls + [p])[..|calls|] == calls;
  }

  lemma GlobalReadingsSnoc(cfg: LimiterConfig, calls: seq<Pass>, p: Pass)
    ensures GlobalReadings(cfg, calls + [p]) ==
            if CommitteeHasRoom(cfg, calls, p) then GlobalReadings(cfg, calls) + [p.tg]
            else GlobalReadings(cfg, calls)
  {
    assert (calls + [p])[..|calls|] == calls;
  }

  lemma {:induction false} SameReadings(calls: seq<Pass>, a: string, b: string)
    requires SameCommittee(a, b)
    ensures CommitteeReadings(calls, a) == CommitteeReadings(calls, b)
  {
    if calls != [] {
      SameReadings(calls[..|calls| - 1], a, b);
    }
  }

  lemma KeysAreCommittees(a: string, b: string)
    ensures CommitteeKey(a) == CommitteeKey(b) <==> SameCommittee(a, b)
  {}

  lemma CommitteeStep(cfg: LimiterConfig, buckets: Buckets, calls: seq<Pass>, p: Pass)
    requires LimiterSane(cfg) && cfg.committee.Some? && TracksCommittees(cfg, buckets, calls)
    ensures var (after, ok) := AllowKey(cfg.committee.value, buckets, CommitteeKey(p.committee), p.tc);
            && (ok <==> CommitteeHasRoom(cfg, calls, p))
            && TracksCommittees(cfg, after, calls + [p])
  {
    var c := cfg.committee.value;
    NextAnswer(c, CommitteeReadings(calls, p.committee), p.tc);
    forall k ensures Lookup(AllowKey(c, buckets, CommitteeKey(p.committee), p.tc).0, CommitteeKey(k)) ==
                     Feed(c, CommitteeReadings(calls + [p], k)).0 {
      KeysAreCommittees(p.committee, k);
      CommitteeReadingsSnoc(calls, p, k);
      if SameCommittee(p.committee, k) {
        SameReadings(calls, p.committee, k);
      }
    }
  }

  /** The second level sees only the calls their committee has room for. */
  lemma GlobalStep(cfg: LimiterConfig, buckets: Buckets, calls: seq<Pass>, p: Pass)
    requires LimiterSane(cfg) && cfg.global.Some? && TracksGlobal(cfg, buckets, calls)
    ensures var (after, ok) := AllowKey(cfg.global.value, buckets, GLOBAL, p.tg);
            && (ok <==> GlobalHasRoom(cfg, calls, p))
            && TracksGlobal(cfg, if CommitteeHasRoom(cfg, calls, p) then after else buckets, calls + [p])
  {
    GlobalReadingsSnoc(cfg, calls, p);
    NextAnswer(cfg.global.value, GlobalReadings(cfg, calls), p.tg);
  }

  /** One call of the limiter, told from the history. */
  lemma LimiterStep(cfg: LimiterConfig, s: LimiterState, calls: seq<Pass>, p: Pass)
    requires LimiterSane(cfg) && Tracks(cfg, s, calls)
    ensures var (s1, ok) := LimiterAllow(cfg, s, p.committee, p.tc, p.tg);
            && Tracks(cfg, s1, calls + [p])
            && (ok <==> CommitteeHasRoom(cfg, calls, p) && GlobalHasRoom(cfg, calls, p))
  {
    if cfg.committee.Some? {
      CommitteeStep(cfg, s.committee, calls, p);
    }
    if cfg.global.Some? {
      GlobalStep(cfg, s.global, calls, p);
    }
  }

  lemma {:induction false} ServeTracks(cfg: LimiterConfig, calls: seq<Pass>)
    requires LimiterSane(cfg)
    ensures Tracks(cfg, Serve(cfg, calls).0, calls)
  {
    if calls != [] {
      var n := |calls| - 1;
      ServeTracks(cfg, calls[..n]);
      LimiterStep(cfg, Serve(cfg, calls[..n]).0, calls[..n], calls[n]);
      assert calls[..n] + [calls[n]] == calls;
    }
  }

  lemma {:induction false} ServePrefix(cfg: LimiterConfig, calls: seq<Pass>, n: nat)
    requires n <= |calls|
    ensures Serve(cfg, calls).1[..n] == Serve(cfg, calls[..n]).1
  {
    if n == |calls| {
      assert calls[..n] == calls;
    } else {
      var m := |calls| - 1;
      ServePrefix(cfg, calls[..m], n);
      assert calls[..m][..n] == calls[..n];
      assert Serve(cfg, calls).1[..m] == Serve(cfg, calls[..m]).1;
    }
  }

  lemma ServeSnoc(cfg: LimiterConfig, calls: seq<Pass>, p: Pass)
    ensures var (s, ok) := LimiterAllow(cfg, Serve(cfg, calls).0, p.committee, p.tc, p.tg);
            Serve(cfg, calls + [p]) == (s, Serve(cfg, calls).1 + [ok])
  {
    assert (calls + [p])[..|calls|] == calls;
  }

  /** Two-level exactness, on any clocks: a limiter admits a call if and only if its committee's window has
      room, counting the calls of that committee that its own level let through, and the global window has
      room, counting the calls that reached it. A call that only the global level denies still takes room
      in its committee's window. */
  lemma LimiterIsTwoWindows(cfg: LimiterConfig, calls: seq<Pass>, n: nat)
    requires LimiterSane(cfg) && n < |calls|
    ensures Serve(cfg, calls).1[n] <==>
            CommitteeHasRoom(cfg, calls[..n], calls[n]) && GlobalHasRoom(cfg, calls[..n], calls[n])
  {
    ServePrefix(cfg, calls, n + 1);
    assert Serve(cfg, calls).1[n] == Serve(cfg, calls).1[..n + 1][n];
    assert calls[..n + 1] == calls[..n] + [calls[n]];
    ServeSnoc(cfg, calls[..n], calls[n]);
    ServeTracks(cfg, calls[..n]);
    LimiterStep(cfg, Serve(cfg, calls[..n]).0, calls[..n], calls[n]);
  }
}
