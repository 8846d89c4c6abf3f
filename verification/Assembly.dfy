/** Budgeted context assembly (services/session-memory/internal/assembly/assemble.go). A Go string is
    modelled as a sequence of bytes, one char per byte; the token counter is any function. */
module Assembly {

  datatype Part = Part(name: string, content: string, trimmable: bool)

  datatype Assembled = Assembled(text: string, tokens: int, included: seq<string>, truncated: seq<string>,
                                 dropped: seq<string>)

  type Counter = string -> int

  function EstimateTokens(s: string): int {
    if s == "" then 0 else (|s| + 3) / 4
  }

  const SEPARATOR := "\n\n"

  /** A newline, the three bytes of an ellipsis, and "[trimmed]": 13 bytes. */
  const MARKER := "\n\U{E2}\U{80}\U{A6}[trimmed]"

  function Join(segments: seq<string>): string {
    if segments == [] then ""
    else if |segments| == 1 then segments[0]
    else Join(segments[..|segments| - 1]) + SEPARATOR + segments[|segments| - 1]
  }

  // ---------------------------------------------------------------------------------------------
  // Truncation
  // ---------------------------------------------------------------------------------------------

  /** The first of s[:cut], s[:cut-16], ... that fits with the marker; "" if none does. */
  function Shrink(s: string, cut: int, maxTokens: int, count: Counter): string
    requires cut <= |s|
    decreases cut
  {
    if cut <= 0 then ""
    else if count(s[..cut] + MARKER) <= maxTokens then s[..cut] + MARKER
    else Shrink(s, cut - 16, maxTokens, count)
  }

  function Truncated(s: string, maxTokens: int, count: Counter): string {
    if maxTokens <= 0 then ""
    else if count(s) <= maxTokens then s
    else Shrink(s, if maxTokens * 4 > |s| then |s| else maxTokens * 4, maxTokens, count)
  }

  method TruncateToTokens(s: string, maxTokens: int, count: Counter) returns (r: string)
    ensures r == Truncated(s, maxTokens, count)
  {
    if maxTokens <= 0 {
      return "";
    }
    if count(s) <= maxTokens {
      return s;
    }
    var cut := maxTokens * 4;
    if cut > |s| {
      cut := |s|;
    }
    while cut > 0
      invariant cut <= |s|
      invariant Truncated(s, maxTokens, count) == Shrink(s, cut, maxTokens, count)
      decreases cut
    {
      var candidate := s[..cut] + MARKER;
      if count(candidate) <= maxTokens {
        return candidate;
      }
      cut := cut - 16;
    }
    return "";
  }

  /** For any counter: the result is "" or fits, and it is a prefix of the input, marked unless whole. */
  lemma {:induction false} ShrinkFits(s: string, cut: int, maxTokens: int, count: Counter)
    requires cut <= |s|
    ensures var r := Shrink(s, cut, maxTokens, count);
            r == "" || (count(r) <= maxTokens && exists n :: 0 < n <= cut && r == s[..n] + MARKER)
    decreases cut
  {
    if cut > 0 && count(s[..cut] + MARKER) > maxTokens {
      ShrinkFits(s, cut - 16, maxTokens, count);
    }
  }

  /** Truncation in closed form, with the default counter and a string over budget: nothing for at most
      four tokens; otherwise the second try, s[:4m-16] with the marker, which costs exactly m. */
  lemma TruncationClosedForm(s: string, m: int)
    requires m > 0 && EstimateTokens(s) > m
    ensures |MARKER| == 13
    ensures Truncated(s, m, EstimateTokens) == "" <==> m <= 4
    ensures m > 4 ==>
              && 4 * m - 16 < |s|
              && Truncated(s, m, EstimateTokens) == s[..4 * m - 16] + MARKER
              && EstimateTokens(Truncated(s, m, EstimateTokens)) == m
  {
    assert |MARKER| == 13;
    assert |s| > 4 * m;
    assert |s[..4 * m] + MARKER| == 4 * m + 13;
    assert Truncated(s, m, EstimateTokens) == Shrink(s, 4 * m - 16, m, EstimateTokens);
    if m > 4 {
      assert |s[..4 * m - 16] + MARKER| == 4 * m - 3;
    }
  }

  // ---------------------------------------------------------------------------------------------
  // Assembly
  // ---------------------------------------------------------------------------------------------

  /** The parts with content: the others are skipped. */
  function NonEmpty(parts: seq<Part>): seq<Part> {
    if parts == [] then []
    else
      var n := |parts| - 1;
      NonEmpty(parts[..n]) + if parts[n].content == "" then [] else [parts[n]]
  }

  function Cost(parts: seq<Part>, count: Counter): int {
    if parts == [] then 0
    else Cost(parts[..|parts| - 1], count) + count(parts[|parts| - 1].content)
  }

  function Names(parts: seq<Part>): (r: seq<string>)
    ensures |r| == |parts|
  {
    if parts == [] then [] else Names(parts[..|parts| - 1]) + [parts[|parts| - 1].name]
  }

  function Contents(parts: seq<Part>): (r: seq<string>)
    ensures |r| == |parts|
  {
    if parts == [] then [] else Contents(parts[..|parts| - 1]) + [parts[|parts| - 1].content]
  }

  predicate Fits(parts: seq<Part>, k: nat, budget: int, count: Counter)
    requires k < |parts|
  {
    budget <= 0 || count(parts[k].content) <= budget - Cost(parts[..k], count)
  }

  /** `k` parts fit whole, one after the other, and the next one, if any, does not. */
  ghost predicate FitLength(parts: seq<Part>, k: nat, budget: int, count: Counter) {
    && k <= |parts|
    && (forall i :: 0 <= i < k ==> Fits(parts, i, budget, count))
    && (k < |parts| ==> !Fits(parts, k, budget, count))
  }

  /** What can be kept of a part that does not fit. */
  function Kept(p: Part, remaining: int, count: Counter): string {
    if p.trimmable && remaining > 0 then Truncated(p.content, remaining, count) else ""
  }

  /** What becomes of the first part that does not fit: its trimmed form, or "". */
  function Trimmed(parts: seq<Part>, k: nat, budget: int, count: Counter): string
    requires k <= |parts|
  {
    if k < |parts| then Kept(parts[k], budget - Cost(parts[..k], count), count) else ""
  }

  function Segments(parts: seq<Part>, k: nat, budget: int, count: Counter): seq<string>
    requires k <= |parts|
  {
    var trimmed := Trimmed(parts, k, budget, count);
    Contents(parts[..k]) + if trimmed == "" then [] else [trimmed]
  }

  /** The assembly of non-empty parts of which `k` fit. */
  function Result(parts: seq<Part>, k: nat, budget: int, count: Counter): Assembled
    requires k <= |parts|
  {
    var trimmed := Trimmed(parts, k, budget, count);
    Assembled(Join(Segments(parts, k, budget, count)),
              Cost(parts[..k], count) + (if trimmed == "" then 0 else count(trimmed)),
              Names(parts[..k]),
              if trimmed == "" then [] else [parts[k].name],
              if trimmed == "" && k < |parts| then [parts[k].name] else [])
  }

  /** How many parts fit whole, the first `k` being known to. */
  function FitFrom(parts: seq<Part>, k: nat, budget: int, count: Counter): (n: nat)
    requires k <= |parts|
    requires forall i :: 0 <= i < k ==> Fits(parts, i, budget, count)
    ensures FitLength(parts, n, budget, count)
    decreases |parts| - k
  {
    if k < |parts| && Fits(parts, k, budget, count) then FitFrom(parts, k + 1, budget, count) else k
  }

  /** The assembly as a function of its inputs. */
  function AssemblyOf(parts: seq<Part>, budget: int, count: Counter): Assembled {
    Result(NonEmpty(parts), FitFrom(NonEmpty(parts), 0, budget, count), budget, count)
  }

  /** How many parts fit is determined by the inputs. */
  lemma FitLengthIsUnique(parts: seq<Part>, k1: nat, k2: nat, budget: int, count: Counter)
    requires FitLength(parts, k1, budget, count) && FitLength(parts, k2, budget, count)
    ensures k1 == k2
  {}

  lemma AssemblyIsResult(parts: seq<Part>, k: nat, budget: int, count: Counter)
    requires FitLength(NonEmpty(parts), k, budget, count)
    ensures AssemblyOf(parts, budget, count) == Result(NonEmpty(parts), k, budget, count)
  {
    FitLengthIsUnique(NonEmpty(parts), k, FitFrom(NonEmpty(parts), 0, budget, count), budget, count);
  }

  /** Includes parts in order until one does not fit; that one is trimmed or dropped, and nothing after
      it is considered. */
  method Assemble(parts: seq<Part>, budget: int, count: Counter) returns (out: Assembled)
    ensures out == AssemblyOf(parts, budget, count)
  {
    out := Assembled("", 0, [], [], []);
    var segments: seq<string> := [];
    ghost var kept: seq<Part> := [];
    for i := 0 to |parts|
      invariant kept == NonEmpty(parts[..i])
      invariant Progress(kept, out, segments, budget, count)
    {
      var p := parts[i];
      NonEmptyStep(parts, i);
      if p.content == "" {
        continue;
      }
      var cost := count(p.content);
      var remaining := budget - out.tokens;
      if budget <= 0 || cost <= remaining {
        IncludeStep(kept, p, out, segments, budget, count);
        segments := segments + [p.content];
        out := out.(tokens := out.tokens + cost, included := out.included + [p.name]);
        kept := kept + [p];
        continue;
      }
      out := CutShort(parts, i, out, segments, budget, count);
      return;
    }
    assert parts[..|parts|] == parts;
    WholeIsAssembly(parts, out, segments, budget, count);
    out := out.(text := Join(segments));
  }

  /** The end of an assembly at the first part that does not fit: it is trimmed or dropped. */
  method CutShort(parts: seq<Part>, i: nat, soFar: Assembled, segments: seq<string>, budget: int, count: Counter)
    returns (out: Assembled)
    requires i < |parts| && parts[i].content != ""
    requires Progress(NonEmpty(parts[..i]), soFar, segments, budget, count)
    requires budget > 0 && count(parts[i].content) > budget - soFar.tokens
    ensures out == AssemblyOf(parts, budget, count)
  {
    CutIsAssembly(parts, i, soFar, segments, budget, count);
    out := TrimOrDrop(soFar, segments, parts[i], budget - soFar.tokens, count);
  }

  method TrimOrDrop(soFar: Assembled, segments: seq<string>, p: Part, remaining: int, count: Counter)
    returns (out: Assembled)
    requires soFar.truncated == soFar.dropped == []
    ensures out == WithCut(soFar, segments, p, Kept(p, remaining, count), count)
  {
    out := soFar;
    var segs := segments;
    if p.trimmable && remaining > 0 {
      var trimmed := TruncateToTokens(p.content, remaining, count);
      if trimmed != "" {
        segs := segs + [trimmed];
        out := out.(tokens := out.tokens + count(trimmed), truncated := out.truncated + [p.name]);
      } else {
        out := out.(dropped := out.dropped + [p.name]);
      }
    } else {
      out := out.(dropped := out.dropped + [p.name]);
    }
    out := out.(text := Join(segs));
    assert segments + [] == segments;
  }

  function WithCut(soFar: Assembled, segments: seq<string>, p: Part, trimmed: string, count: Counter): Assembled {
    soFar.(text := Join(segments + if trimmed == "" then [] else [trimmed]),
           tokens := soFar.tokens + (if trimmed == "" then 0 else count(trimmed)),
           truncated := if trimmed == "" then [] else [p.name],
           dropped := if trimmed == "" then [p.name] else [])
  }

  lemma {:induction false} PrefixOfNonEmpty(parts: seq<Part>, i: nat)
    requires i <= |parts|
    ensures NonEmpty(parts[..i]) <= NonEmpty(parts)
  {
    if i < |parts| {
      PrefixOfNonEmpty(parts[..|parts| - 1], i);
      assert parts[..|parts| - 1][..i] == parts[..i];
    } else {
      assert parts[..i] == parts;
    }
  }

  ghost predicate AllFit(kept: seq<Part>, budget: int, count: Counter) {
    forall j :: 0 <= j < |kept| ==> Fits(kept, j, budget, count)
  }

  lemma NonEmptyStep(parts: seq<Part>, i: nat)
    requires i < |parts|
    ensures NonEmpty(parts[..i + 1]) ==
            if parts[i].content == "" then NonEmpty(parts[..i]) else NonEmpty(parts[..i]) + [parts[i]]
  {
    assert parts[..i + 1][..i] == parts[..i];
  }

  /** An assembly under way: everything in `kept` fitted and was included. */
  ghost predicate Progress(kept: seq<Part>, out: Assembled, segments: seq<string>, budget: int, count: Counter) {
    && AllFit(kept, budget, count)
    && out == Assembled("", Cost(kept, count), Names(kept), [], [])
    && segments == Contents(kept)
  }

  lemma IncludeStep(kept: seq<Part>, p: Part, out: Assembled, segments: seq<string>, budget: int, count: Counter)
    requires Progress(kept, out, segments, budget, count)
    requires budget <= 0 || count(p.content) <= budget - out.tokens
    ensures Progress(kept + [p], out.(tokens := out.tokens + count(p.content), included := out.included + [p.name]),
                     segments + [p.content], budget, count)
  {
    FitsExtends(kept, p, budget, count);
    assert (kept + [p])[..|kept|] == kept;
  }

  lemma FitsExtends(kept: seq<Part>, p: Part, budget: int, count: Counter)
    requires AllFit(kept, budget, count)
    requires budget <= 0 || count(p.content) <= budget - Cost(kept, count)
    ensures AllFit(kept + [p], budget, count)
  {
    forall j | 0 <= j <= |kept| ensures Fits(kept + [p], j, budget, count) {
      assert (kept + [p])[..j] == kept[..j];
      assert kept[..|kept|] == kept;
      if j < |kept| {
        assert Fits(kept, j, budget, count);
      }
    }
  }

  /** The first part that does not fit ends the assembly. */
  lemma MisfitEnds(parts: seq<Part>, kept: seq<Part>, p: Part, budget: int, count: Counter)
    requires var all := NonEmpty(parts); |kept| < |all| && all[..|kept|] == kept && all[|kept|] == p
    requires AllFit(kept, budget, count)
    requires budget > 0 && count(p.content) > budget - Cost(kept, count)
    ensures AssemblyOf(parts, budget, count) == Result(NonEmpty(parts), |kept|, budget, count)
  {
    var all := NonEmpty(parts);
    forall j | 0 <= j < |kept| ensures Fits(all, j, budget, count) {
      assert Fits(kept, j, budget, count);
      assert kept[..j] == all[..j];
    }
    AssemblyIsResult(parts, |kept|, budget, count);
  }

  lemma CutIsResult(all: seq<Part>, kept: seq<Part>, p: Part, out: Assembled, segments: seq<string>,
                    budget: int, count: Counter)
    requires |kept| < |all| && all[..|kept|] == kept && all[|kept|] == p
    requires Progress(kept, out, segments, budget, count)
    ensures Result(all, |kept|, budget, count) ==
            WithCut(out, segments, p, Kept(p, budget - out.tokens, count), count)
  {}

  /** The cut happens at the first non-empty part that does not fit. */
  lemma CutIsAssembly(parts: seq<Part>, i: nat, out: Assembled, segments: seq<string>, budget: int, count: Counter)
    requires i < |parts| && parts[i].content != ""
    requires Progress(NonEmpty(parts[..i]), out, segments, budget, count)
    requires budget > 0 && count(parts[i].content) > budget - out.tokens
    ensures AssemblyOf(parts, budget, count) ==
            WithCut(out, segments, parts[i], Kept(parts[i], budget - out.tokens, count), count)
  {
    var kept := NonEmpty(parts[..i]);
    FirstMisfit(parts, i);
    MisfitEnds(parts, kept, parts[i], budget, count);
    CutIsResult(NonEmpty(parts), kept, parts[i], out, segments, budget, count);
  }

  lemma FirstMisfit(parts: seq<Part>, i: nat)
    requires i < |parts| && parts[i].content != ""
    ensures var (kept, all) := (NonEmpty(parts[..i]), NonEmpty(parts));
            |kept| < |all| && all[..|kept|] == kept && all[|kept|] == parts[i]
  {
    NonEmptyStep(parts, i);
    PrefixOfNonEmpty(parts, i + 1);
    PrefixParts(NonEmpty(parts), NonEmpty(parts[..i]), parts[i]);
  }

  lemma PrefixParts(all: seq<Part>, kept: seq<Part>, p: Part)
    requires kept + [p] <= all
    ensures |kept| < |all| && all[..|kept|] == kept && all[|kept|] == p
  {
    assert all[|kept|] == (kept + [p])[|kept|];
  }

  /** With no misfit the whole of the non-empty parts is included. */
  lemma WholeIsAssembly(parts: seq<Part>, out: Assembled, segments: seq<string>, budget: int, count: Counter)
    requires Progress(NonEmpty(parts), out, segments, budget, count)
    ensures AssemblyOf(parts, budget, count) == out.(text := Join(segments))
  {
    var all := NonEmpty(parts);
    assert all[..|all|] == all;
    assert Segments(all, |all|, budget, count) == Contents(all);
    AssemblyIsResult(parts, |all|, budget, count);
  }
}
