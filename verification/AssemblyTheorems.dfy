/** What an assembly guarantees, for any counter and for the default one. */
module AssemblyTheorems {
  import opened Assembly

  function SumCounts(segments: seq<string>, count: Counter): int {
    if segments == [] then 0
    else SumCounts(segments[..|segments| - 1], count) + count(segments[|segments| - 1])
  }

  lemma {:induction false} CostIsSum(parts: seq<Part>, count: Counter)
    ensures SumCounts(Contents(parts), count) == Cost(parts, count)
  {
    if parts != [] {
      var n := |parts| - 1;
      CostIsSum(parts[..n], count);
      assert Contents(parts)[..n] == Contents(parts[..n]);
    }
  }

  lemma {:induction false} NamesPrefix(parts: seq<Part>, k: nat)
    requires k <= |parts|
    ensures Names(parts[..k]) <= Names(parts) && Contents(parts[..k]) <= Contents(parts)
    ensures k < |parts| ==> Names(parts)[k] == parts[k].name
  {
    var n := |parts| - 1;
    if k <= n {
      NamesPrefix(parts[..n], k);
      assert parts[..n][..k] == parts[..k];
    } else {
      assert parts[..k] == parts;
    }
  }

  lemma FittingCost(parts: seq<Part>, k: nat, budget: int, count: Counter)
    requires FitLength(parts, k, budget, count) && budget > 0
    ensures Cost(parts[..k], count) <= budget
  {
    if k > 0 {
      assert Fits(parts, k - 1, budget, count);
      assert parts[..k][..k - 1] == parts[..k - 1];
    }
  }

  /** For any counter: the token count is the sum over the emitted segments and at most a positive
      budget; the included names, then at most one trimmed or dropped name, are a prefix of the names of
      the non-empty parts, so later parts appear nowhere; without a budget everything is included. */
  lemma AssemblyIsCorrect(parts: seq<Part>, k: nat, budget: int, count: Counter)
    requires FitLength(parts, k, budget, count)
    ensures var out := Result(parts, k, budget, count);
            && out.tokens == SumCounts(Segments(parts, k, budget, count), count)
            && (budget > 0 ==> out.tokens <= budget)
            && out.included + out.truncated + out.dropped <= Names(parts)
            && |out.truncated| + |out.dropped| <= 1
            && (budget <= 0 ==> out.included == Names(parts) && out.text == Join(Contents(parts)))
  {
    TokensAreCounted(parts, k, budget, count);
    NamesInOrder(parts, k, budget, count);
    if budget <= 0 {
      WithoutBudget(parts, k, budget, count);
    }
  }

  /** The part that does not fit is named once, as trimmed or as dropped. */
  lemma ResultNames(parts: seq<Part>, k: nat, budget: int, count: Counter)
    requires k <= |parts|
    ensures var out := Result(parts, k, budget, count);
            && out.included == Names(parts[..k])
            && out.truncated + out.dropped == (if k < |parts| then [parts[k].name] else [])
  {}

  lemma NamesInOrder(parts: seq<Part>, k: nat, budget: int, count: Counter)
    requires k <= |parts|
    ensures var out := Result(parts, k, budget, count);
            && out.included + out.truncated + out.dropped <= Names(parts)
            && |out.truncated| + |out.dropped| <= 1
  {
    var out := Result(parts, k, budget, count);
    ResultNames(parts, k, budget, count);
    NamesPrefix(parts, k);
    NamedInOrder(Names(parts), k, out.included, out.truncated, out.dropped);
  }

  lemma NamedInOrder(names: seq<string>, k: nat, included: seq<string>, truncated: seq<string>, dropped: seq<string>)
    requires k <= |names| && included <= names && |included| == k
    requires truncated + dropped == if k < |names| then [names[k]] else []
    ensures included + truncated + dropped <= names && |truncated| + |dropped| <= 1
  {
    assert included + truncated + dropped == included + (truncated + dropped);
    assert |truncated + dropped| <= 1;
    assert k < |names| ==> included + [names[k]] == names[..k + 1];
  }

  lemma WithoutBudget(parts: seq<Part>, k: nat, budget: int, count: Counter)
    requires FitLength(parts, k, budget, count) && budget <= 0
    ensures var out := Result(parts, k, budget, count);
            out.included == Names(parts) && out.text == Join(Contents(parts))
  {
    assert k == |parts| && parts[..k] == parts;
    assert Segments(parts, k, budget, count) == Contents(parts);
  }

  lemma TokensAreCounted(parts: seq<Part>, k: nat, budget: int, count: Counter)
    requires FitLength(parts, k, budget, count)
    ensures var tokens := Result(parts, k, budget, count).tokens;
            && tokens == SumCounts(Segments(parts, k, budget, count), count)
            && (budget > 0 ==> tokens <= budget)
  {
    var trimmed := Trimmed(parts, k, budget, count);
    var kept := Contents(parts[..k]);
    CostIsSum(parts[..k], count);
    assert (kept + [trimmed])[..|kept|] == kept;
    assert kept + [] == kept;
    if budget > 0 {
      FittingCost(parts, k, budget, count);
      if trimmed != "" {
        TrimmedFits(parts[k].content, budget - Cost(parts[..k], count), count);
      }
    }
  }

  lemma TrimmedFits(s: string, maxTokens: int, count: Counter)
    ensures Truncated(s, maxTokens, count) == "" || count(Truncated(s, maxTokens, count)) <= maxTokens
  {
    if maxTokens > 0 && count(s) > maxTokens {
      ShrinkFits(s, if maxTokens * 4 > |s| then |s| else maxTokens * 4, maxTokens, count);
    }
  }

  /** With the default counter an assembly that trims spends its budget exactly; a trimmable part that
      does not fit is dropped exactly when at most four tokens remain. */
  lemma TrimmingSpendsTheBudget(parts: seq<Part>, k: nat, budget: int)
    requires budget > 0 && FitLength(parts, k, budget, EstimateTokens)
    ensures var out := Result(parts, k, budget, EstimateTokens);
            && (out.truncated != [] ==> out.tokens == budget)
            && (k < |parts| ==>
                  (out.truncated == [parts[k].name] <==>
                   parts[k].trimmable && budget - Cost(parts[..k], EstimateTokens) > 4))
  {
    if k < |parts| && parts[k].trimmable && budget - Cost(parts[..k], EstimateTokens) > 0 {
      assert !Fits(parts, k, budget, EstimateTokens);
      TruncationClosedForm(parts[k].content, budget - Cost(parts[..k], EstimateTokens));
    }
  }

  lemma CutIsTrimmable(all: seq<Part>, k: nat, budget: int, count: Counter)
    requires k <= |all|
    ensures var cut := Result(all, k, budget, count).truncated;
            cut == [] || (k < |all| && all[k].trimmable && cut == [all[k].name])
  {}

  lemma {:induction false} JoinPrefix(xs: seq<string>, k: nat)
    requires k <= |xs|
    ensures Join(xs[..k]) <= Join(xs)
  {
    if k == |xs| {
      assert xs[..k] == xs;
    } else if k > 0 {
      var n := |xs| - 1;
      JoinPrefix(xs[..n], k);
      assert xs[..n][..k] == xs[..k];
    }
  }

  lemma FitsMore(parts: seq<Part>, k1: nat, k2: nat, b1: int, b2: int, count: Counter)
    requires 0 < b1 && (b1 <= b2 || b2 <= 0)
    requires FitLength(parts, k1, b1, count) && FitLength(parts, k2, b2, count)
    ensures k1 <= k2
  {
    assert k2 < k1 ==> Fits(parts, k2, b1, count);
  }

  /** Budget monotonicity, for any counter: under a larger budget, or none, the included parts only
      grow, and if the smaller budget trimmed nothing its text is a prefix of the larger one's. */
  lemma LargerBudgetIncludesMore(parts: seq<Part>, k1: nat, k2: nat, b1: int, b2: int, count: Counter)
    requires 0 < b1 && (b1 <= b2 || b2 <= 0)
    requires FitLength(parts, k1, b1, count) && FitLength(parts, k2, b2, count)
    ensures var (small, large) := (Result(parts, k1, b1, count), Result(parts, k2, b2, count));
            && small.included <= large.included
            && (small.truncated == [] ==> small.text <= large.text)
  {
    FitsMore(parts, k1, k2, b1, b2, count);
    NamesPrefix(parts[..k2], k1);
    assert parts[..k2][..k1] == parts[..k1];
    var segments := Segments(parts, k2, b2, count);
    JoinPrefix(segments, k1);
    assert segments[..k1] == Contents(parts[..k1]);
    assert Contents(parts[..k1]) + [] == Contents(parts[..k1]);
  }

  function TotalLength(segments: seq<string>): nat {
    if segments == [] then 0
    else TotalLength(segments[..|segments| - 1]) + |segments[|segments| - 1]|
  }

  /** The bytes of the segments and of the separators between them. */
  function JoinedLength(segments: seq<string>): nat {
    TotalLength(segments) + if segments == [] then 0 else 2 * (|segments| - 1)
  }

  lemma {:induction false} JoinLength(segments: seq<string>)
    ensures |Join(segments)| == JoinedLength(segments)
  {
    if |segments| > 0 {
      JoinLength(segments[..|segments| - 1]);
    }
  }

  lemma {:induction false} TokensCoverLength(segments: seq<string>)
    ensures TotalLength(segments) <= 4 * SumCounts(segments, EstimateTokens)
  {
    if segments != [] {
      TokensCoverLength(segments[..|segments| - 1]);
    }
  }

  /** The separators are not counted: the text of k segments costs at most ceil((k-1)/2) tokens more
      than reported. */
  lemma JoinOverhead(parts: seq<Part>, k: nat, budget: int)
    requires FitLength(parts, k, budget, EstimateTokens)
    ensures var out := Result(parts, k, budget, EstimateTokens);
            var segments := Segments(parts, k, budget, EstimateTokens);
            && |out.text| == JoinedLength(segments)
            && EstimateTokens(out.text) <= out.tokens + |segments| / 2
  {
    var segments := Segments(parts, k, budget, EstimateTokens);
    AssemblyIsCorrect(parts, k, budget, EstimateTokens);
    JoinLength(segments);
    TokensCoverLength(segments);
  }

  /** The text stays within a positive budget if and only if the segments and the separators between
      them have at most four bytes a token. */
  lemma TextWithinBudgetIff(parts: seq<Part>, k: nat, budget: int)
    requires budget > 0 && FitLength(parts, k, budget, EstimateTokens)
    ensures EstimateTokens(Result(parts, k, budget, EstimateTokens).text) <= budget <==>
            JoinedLength(Segments(parts, k, budget, EstimateTokens)) <= 4 * budget
  {
    JoinOverhead(parts, k, budget);
  }

  /** The same, told from the parts alone: the padding their token counts round up must make room for the
      separators, together with what the budget leaves or, behind a trimmed part, with three bytes. */
  predicate SeparatorsFit(parts: seq<Part>, k: nat, budget: int)
    requires k <= |parts|
  {
    var bytes, cost := TotalLength(Contents(parts[..k])), Cost(parts[..k], EstimateTokens);
    if k < |parts| && parts[k].trimmable && budget - cost > 4 then bytes + 2 * k <= 4 * cost + 3
    else k == 0 || bytes + 2 * (k - 1) <= 4 * budget
  }

  lemma TextWithinBudgetIffSeparatorsFit(parts: seq<Part>, k: nat, budget: int)
    requires budget > 0 && FitLength(parts, k, budget, EstimateTokens)
    ensures EstimateTokens(Result(parts, k, budget, EstimateTokens).text) <= budget <==>
            SeparatorsFit(parts, k, budget)
  {
    var kept, trimmed := Contents(parts[..k]), Trimmed(parts, k, budget, EstimateTokens);
    var left := budget - Cost(parts[..k], EstimateTokens);
    TextWithinBudgetIff(parts, k, budget);
    assert (kept + [trimmed])[..k] == kept;
    assert kept + [] == kept;
    if k < |parts| && parts[k].trimmable && left > 0 {
      assert !Fits(parts, k, budget, EstimateTokens);
      TruncationClosedForm(parts[k].content, left);
    }
  }

  /** `n` parts of four bytes, one token each. */
  function Words(n: nat): seq<Part> {
    seq(n, _ => Part("word", "aaaa", false))
  }

  lemma {:induction false} WordsTotals(n: nat)
    ensures Cost(Words(n), EstimateTokens) == n
    ensures |Contents(Words(n))| == n && TotalLength(Contents(Words(n))) == 4 * n
    ensures NonEmpty(Words(n)) == Words(n)
  {
    if n > 0 {
      WordsTotals(n - 1);
      assert Words(n)[..n - 1] == Words(n - 1);
      assert Contents(Words(n))[..n - 1] == Contents(Words(n - 1));
    }
  }

  lemma WordsFit(n: nat)
    ensures FitLength(Words(n), n, n, EstimateTokens)
  {
    forall i | 0 <= i < n ensures Fits(Words(n), i, n, EstimateTokens) {
      assert Words(n)[..i] == Words(i);
      WordsTotals(i);
    }
  }

  /** And the bound is reached for every number of segments. */
  lemma JoinOverheadIsReached(k: nat)
    ensures FitLength(Words(k), k, k, EstimateTokens)
    ensures var out := Result(Words(k), k, k, EstimateTokens);
            && |Segments(Words(k), k, k, EstimateTokens)| == k
            && out.tokens == k
            && EstimateTokens(out.text) == out.tokens + k / 2
  {
    WordsFit(k);
    WordsTotals(k);
    assert Words(k)[..k] == Words(k);
    assert Segments(Words(k), k, k, EstimateTokens) == Contents(Words(k));
    JoinLength(Contents(Words(k)));
    assert Join(Contents(Words(k))) == "" <==> k == 0;
  }

  /** So the text itself may exceed the budget it was assembled under: two parts of four bytes fill a
      budget of two tokens, and their text costs three. */
  lemma TextCanExceedBudget()
    ensures var parts := [Part("a", "aaaa", false), Part("b", "bbbb", false)];
            && FitLength(parts, 2, 2, EstimateTokens)
            && Result(parts, 2, 2, EstimateTokens).tokens == 2
            && EstimateTokens(Result(parts, 2, 2, EstimateTokens).text) == 3
  {
    var parts := [Part("a", "aaaa", false), Part("b", "bbbb", false)];
    assert parts[..0] == [] && parts[..1] == [parts[0]] && parts[..2] == parts;
    assert parts[..1][..0] == [] && parts[..2][..1] == parts[..1];
    assert Fits(parts, 0, 2, EstimateTokens) && Fits(parts, 1, 2, EstimateTokens);
    var segments := Segments(parts, 2, 2, EstimateTokens);
    assert segments == ["aaaa", "bbbb"];
    JoinLength(segments);
    assert segments[..1] == ["aaaa"] && segments[..1][..0] == [];
    assert TotalLength(segments) == 8;
  }

  // ---------------------------------------------------------------------------------------------
  // For the callers of Assemble
  // ---------------------------------------------------------------------------------------------

  /** How many of the non-empty parts an assembly includes whole, and what it joins. */
  function Whole(parts: seq<Part>, budget: int, count: Counter): (k: nat)
    ensures FitLength(NonEmpty(parts), k, budget, count)
  {
    FitFrom(NonEmpty(parts), 0, budget, count)
  }

  function Joined(parts: seq<Part>, budget: int, count: Counter): seq<string> {
    Segments(NonEmpty(parts), Whole(parts, budget, count), budget, count)
  }

  /** What Assemble returns, for any counter. */
  lemma AssembledIsCorrect(parts: seq<Part>, budget: int, count: Counter)
    ensures var (out, all) := (AssemblyOf(parts, budget, count), NonEmpty(parts));
            && out.text == Join(Joined(parts, budget, count))
            && out.tokens == SumCounts(Joined(parts, budget, count), count)
            && (budget > 0 ==> out.tokens <= budget)
            && out.included + out.truncated + out.dropped <= Names(all)
            && |out.truncated| + |out.dropped| <= 1
            && (budget <= 0 ==> out.included == Names(all) && out.text == Join(Contents(all)))
  {
    AssemblyIsCorrect(NonEmpty(parts), Whole(parts, budget, count), budget, count);
  }

  lemma AssembledGrowsWithBudget(parts: seq<Part>, b1: int, b2: int, count: Counter)
    requires 0 < b1 && (b1 <= b2 || b2 <= 0)
    ensures var (small, large) := (AssemblyOf(parts, b1, count), AssemblyOf(parts, b2, count));
            && small.included <= large.included
            && (small.truncated == [] ==> small.text <= large.text)
  {
    LargerBudgetIncludesMore(NonEmpty(parts), Whole(parts, b1, count), Whole(parts, b2, count), b1, b2, count);
  }

  /** With the default counter: trimming spends the budget exactly, and the text itself is within it if
      and only if the separators fit as well. */
  lemma AssembledByDefault(parts: seq<Part>, budget: int)
    requires budget > 0
    ensures var (out, segments) := (AssemblyOf(parts, budget, EstimateTokens), Joined(parts, budget, EstimateTokens));
            && (out.truncated != [] ==> out.tokens == budget)
            && EstimateTokens(out.text) <= out.tokens + |segments| / 2
            && (EstimateTokens(out.text) <= budget <==> JoinedLength(segments) <= 4 * budget)
            && (EstimateTokens(out.text) <= budget <==>
                SeparatorsFit(NonEmpty(parts), Whole(parts, budget, EstimateTokens), budget))
  {
    var all, k := NonEmpty(parts), Whole(parts, budget, EstimateTokens);
    TrimmingSpendsTheBudget(all, k, budget);
    JoinOverhead(all, k, budget);
    TextWithinBudgetIff(all, k, budget);
    TextWithinBudgetIffSeparatorsFit(all, k, budget);
  }
}
