/** The text of an assembly, byte by byte and part by part, for any counter. */
module AssemblyText {
  import opened Assembly
  import opened AssemblyTheorems

  /** Segments are joined by two newlines. */
  lemma JoinedByBlankLines(segments: seq<string>, last: string)
    ensures Join([]) == "" && Join([last]) == last
    ensures segments != [] ==> Join(segments + [last]) == Join(segments) + [10 as char, 10 as char] + last
  {
    assert (segments + [last])[..|segments|] == segments;
  }

  /** The mark of a trimmed part: a newline, the UTF-8 bytes of an ellipsis, and "[trimmed]". */
  function Mark(): string {
    [10 as char, 0xE2 as char, 0x80 as char, 0xA6 as char] + "[trimmed]"
  }

  lemma MarkIsMarker()
    ensures MARKER == Mark() && |Mark()| == 13
  {}

  /** A trimmed text under the default counter, byte by byte: with more than four tokens left it keeps all
      bytes but sixteen of what would fit, and ends in the mark. */
  lemma TrimmedBytes(s: string, m: int)
    requires m > 4 && EstimateTokens(s) > m
    ensures 4 * m - 16 < |s| && Truncated(s, m, EstimateTokens) == s[..4 * m - 16] + Mark()
  {
    TruncationClosedForm(s, m);
    MarkIsMarker();
  }

  // ---------------------------------------------------------------------------------------------
  // Which parts
  // ---------------------------------------------------------------------------------------------

  /** The positions of the parts with content, in order. */
  function Positions(parts: seq<Part>): (at: seq<nat>)
    ensures forall i :: 0 <= i < |at| ==> at[i] < |parts|
  {
    if parts == [] then []
    else
      var n := |parts| - 1;
      Positions(parts[..n]) + if parts[n].content != "" then [n] else []
  }

  lemma {:induction false} PositionsAreAll(parts: seq<Part>, p: nat)
    ensures p in Positions(parts) <==> p < |parts| && parts[p].content != ""
  {
    if parts != [] {
      PositionsAreAll(parts[..|parts| - 1], p);
    }
  }

  lemma {:induction false} PositionsAscend(parts: seq<Part>)
    ensures forall i, j :: 0 <= i < j < |Positions(parts)| ==> Positions(parts)[i] < Positions(parts)[j]
  {
    if parts != [] {
      PositionsAscend(parts[..|parts| - 1]);
    }
  }

  /** The parts considered are those with content, in the order given. */
  lemma {:induction false} ConsideredInOrder(parts: seq<Part>)
    ensures |NonEmpty(parts)| == |Positions(parts)|
    ensures forall i :: 0 <= i < |NonEmpty(parts)| ==> NonEmpty(parts)[i] == parts[Positions(parts)[i]]
  {
    if parts != [] {
      ConsideredInOrder(parts[..|parts| - 1]);
    }
  }

  lemma {:induction false} ContentsAndNamesAt(parts: seq<Part>)
    ensures forall i :: 0 <= i < |parts| ==>
              Contents(parts)[i] == parts[i].content && Names(parts)[i] == parts[i].name
  {
    if parts != [] {
      ContentsAndNamesAt(parts[..|parts| - 1]);
    }
  }

  // ---------------------------------------------------------------------------------------------
  // What is in the text
  // ---------------------------------------------------------------------------------------------

  /** `segment` is what is left of a trimmed text: a non-empty start of it, and the mark. */
  ghost predicate CutFrom(segment: string, content: string) {
    exists n :: 0 < n <= |content| && segment == content[..n] + Mark()
  }

  /** The text of `out` joins the segments: the contents of the parts it includes, whole and in order, and
      after them what is left of the one it trimmed. */
  ghost predicate IsText(out: Assembled, all: seq<Part>, segments: seq<string>) {
    var k := |out.included|;
    && out.text == Join(segments)
    && k <= |all| && k <= |segments|
    && (forall i :: 0 <= i < k ==> segments[i] == all[i].content && out.included[i] == all[i].name)
    && |segments| == k + |out.truncated|
    && (out.truncated != [] ==>
          && k < |all| && all[k].trimmable && out.truncated == [all[k].name]
          && CutFrom(segments[k], all[k].content))
    && (k < |all| && out.truncated == [] ==> out.dropped == [all[k].name])
    && (k == |all| ==> out.truncated == [] && out.dropped == [])
  }

  /** So it is for what Assemble returns, over the parts with content. */
  lemma TextIsTheParts(parts: seq<Part>, budget: int, count: Counter)
    ensures IsText(AssemblyOf(parts, budget, count), NonEmpty(parts), Joined(parts, budget, count))
  {
    var all, k := NonEmpty(parts), Whole(parts, budget, count);
    ContentsAndNamesAt(all[..k]);
    var trimmed := Trimmed(all, k, budget, count);
    if trimmed != "" {
      TrimmedIsCut(all, k, budget, count);
    }
  }

  lemma TrimmedIsCut(all: seq<Part>, k: nat, budget: int, count: Counter)
    requires FitLength(all, k, budget, count) && Trimmed(all, k, budget, count) != ""
    ensures k < |all| && all[k].trimmable && CutFrom(Trimmed(all, k, budget, count), all[k].content)
  {
    var left := budget - Cost(all[..k], count);
    var content := all[k].content;
    assert !Fits(all, k, budget, count);
    MarkIsMarker();
    var cut := if left * 4 > |content| then |content| else left * 4;
    ShrinkFits(content, cut, left, count);
    var n :| 0 < n <= cut && Shrink(content, cut, left, count) == content[..n] + MARKER;
    assert content[..n] + Mark() == Trimmed(all, k, budget, count);
  }
}
