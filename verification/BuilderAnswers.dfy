/** What a context contains, in the terms of the turn, the facts found and the session's tables
    (services/session-memory/internal/assembly/builder.go). */
module BuilderAnswers {
  import opened Prelude
  import opened Memory
  import opened Assembly
  import opened AssemblyTheorems
  import opened AssemblyText
  import opened Builder

  // ---------------------------------------------------------------------------------------------
  // The texts of facts and turns
  // ---------------------------------------------------------------------------------------------

  lemma Regroup(a: string, b: string, c: string)
    ensures a + (b + c) == (a + b) + c && a + "" == a
  {}

  /** A fact's line is "- key: value" with its tags, if any, in brackets. */
  lemma FactsLine(f: Fact)
    ensures FactLine(f) ==
            "\n- " + f.key + ": " + f.value + if f.tags == [] then "" else " [" + JoinTags(f.tags) + "]"
  {}

  /** One fact is one line; the first follows a heading. */
  lemma FactsByLine(facts: Table, f: Fact)
    ensures FactsText([]) == ""
    ensures FactsText(facts + [f]) ==
            (if facts == [] then "Relevant memory:" else FactsText(facts)) + FactLine(f)
  {
    assert (facts + [f])[..|facts|] == facts;
    Regroup("Relevant memory:", FactLines(facts), FactLine(f));
  }

  /** Tags are separated by a comma and a blank. */
  lemma TagsByComma(tags: seq<string>, last: string)
    ensures JoinTags([last]) == last
    ensures tags != [] ==> JoinTags(tags + [last]) == JoinTags(tags) + ", " + last
  {
    assert (tags + [last])[..|tags|] == tags;
  }

  /** One turn is one line, "role: content"; the first follows a heading. */
  lemma TurnsByLine(turns: seq<Turn>, t: Turn)
    ensures TurnsText([]) == ""
    ensures TurnsText(turns + [t]) ==
            (if turns == [] then "Recent conversation:" else TurnsText(turns)) + ("\n" + t.role + ": " + t.content)
  {
    assert (turns + [t])[..|turns|] == turns;
    Regroup("Recent conversation:", TurnLines(turns), "\n" + t.role + ": " + t.content);
  }

  /** The recent turns are the last ones, oldest first, as many as are wanted and there are. */
  lemma RecentAreTheLast(turns: seq<Turn>, limit: int)
    requires limit > 0
    ensures var recent := Recent(turns, limit);
            && |recent| == (if |turns| < limit then |turns| else limit)
            && recent == turns[|turns| - |recent|..]
  {}

  // ---------------------------------------------------------------------------------------------
  // The parts
  // ---------------------------------------------------------------------------------------------

  predicate WantsMemory(input: TurnInput) {
    input.scope.kind != "" && input.scope.id != ""
  }

  predicate MemoryFails(input: TurnInput, session: SessionReads) {
    WantsMemory(input) && (input.scope.kind !in {"user", "committee", "org"} || session.memoryFault)
  }

  predicate WantsTurns(input: TurnInput) {
    input.sessionId != "" && input.recentTurns > 0
  }

  /** The error of the first read that fails. */
  function FirstFailure(session: SessionReads, input: TurnInput): Option<BuildError> {
    if MemoryFails(input, session) then Some(MemoryFailed)
    else if input.sessionId != "" && session.summary.None? then Some(SummaryFailed)
    else if WantsTurns(input) && session.turns.None? then Some(TurnsFailed)
    else None
  }

  lemma GatheringFails(found: Table, session: SessionReads, input: TurnInput, trim: string -> string)
    ensures var r := Gathered(found, session, input, trim);
            if FirstFailure(session, input).Some? then r == Err(FirstFailure(session, input).value) else r.Ok?
  {}

  /** Reads happen in the order memory, summary, turns, and only as far as the turn asks for them; the first
      that fails is the error, and without one the context is built. */
  lemma FailsAtTheFirstFailedRead(rows: Table, session: SessionReads, input: TurnInput, now: int,
                                  trim: string -> string, count: Counter)
    ensures var r := Built(rows, session, input, now, trim, count);
            if FirstFailure(session, input).Some? then r == Err(FirstFailure(session, input).value) else r.Ok?
  {
    GatheringFails(Search(rows, MemoryQuery(input), now), session, input, trim);
  }

  /** The seven names, most relevant first. */
  function NAMES(): seq<string> {
    ["system", "goosehints", "recipe", "memory", "summary", "recent_turns", "tool_output"]
  }

  /** The facts a turn retrieves: of its own scope, unexpired, by its tags and limit. */
  function FactsFound(rows: Table, input: TurnInput, now: int): Table {
    if WantsMemory(input) then Search(rows, FactQuery(input.scope, input.memoryTags, input.memoryTopK, false), now)
    else []
  }

  /** The trimmed summary, if the session has one. */
  function SummaryFound(session: SessionReads, input: TurnInput, trim: string -> string): string {
    if input.sessionId != "" && session.summary.Some? && session.summary.value.Some?
    then trim(session.summary.value.value) else ""
  }

  function TurnsFound(session: SessionReads, input: TurnInput): seq<Turn> {
    if WantsTurns(input) && session.turns.Some? then Recent(session.turns.value, input.recentTurns) else []
  }

  /** What stands under the seven names: the turn's own texts, then what was found. */
  function Texts(input: TurnInput, memory: string, summary: string, turns: string, trim: string -> string)
    : (texts: seq<string>)
    ensures |texts| == 7
  {
    [input.systemPrompt,
     input.gooseHints,
     input.recipeInstructions,
     memory,
     if trim(summary) == "" then "" else "Conversation summary:\n" + summary,
     turns,
     if trim(input.toolOutput) == "" then "" else "Tool results:\n" + input.toolOutput]
  }

  /** `parts` carry the seven names and the given texts, and only the last may be trimmed. */
  ghost predicate AreParts(parts: seq<Part>, texts: seq<string>) {
    && |parts| == |texts| == 7
    && (forall i :: 0 <= i < 7 ==> parts[i].content == texts[i] && parts[i].name == NAMES()[i])
    && (forall i :: 0 <= i < 7 ==> (parts[i].trimmable <==> i == 6))
  }

  lemma PartsAreTexts(input: TurnInput, memory: string, summary: string, turns: string, trim: string -> string)
    ensures AreParts(Parts(input, memory, summary, turns, trim), Texts(input, memory, summary, turns, trim))
  {
    assert "Conversation summary:" + "\n" == "Conversation summary:\n";
    assert "Tool results:" + "\n" == "Tool results:\n";
  }

  lemma GatheredParts(found: Table, session: SessionReads, input: TurnInput, trim: string -> string)
    requires Gathered(found, session, input, trim).Ok?
    ensures Gathered(found, session, input, trim).value ==
            Parts(input, FactsText(if WantsMemory(input) then found else []), SummaryFound(session, input, trim),
                  TurnsText(TurnsFound(session, input)), trim)
  {}

  /** The seven texts of a turn's context. */
  function ContextTexts(rows: Table, session: SessionReads, input: TurnInput, now: int, trim: string -> string)
    : (texts: seq<string>)
    ensures |texts| == 7
  {
    Texts(input, FactsText(FactsFound(rows, input, now)), SummaryFound(session, input, trim),
          TurnsText(TurnsFound(session, input)), trim)
  }

  /** `at` are the places among the seven that have a text, in order. `out` includes the first of them by name
      and joins their texts whole; only tool output is ever cut, and then its start and the mark stand last;
      without a budget all are included. So nothing is included while anything more relevant is missing. */
  ghost predicate Holds(out: Assembled, texts: seq<string>, at: seq<nat>, segments: seq<string>, budget: int)
    requires |texts| == 7
  {
    var k := |out.included|;
    && (forall p: nat :: p in at <==> p < 7 && texts[p] != "")
    && (forall i, j :: 0 <= i < j < |at| ==> at[i] < at[j])
    && k <= |at| && k <= |segments|
    && (forall i :: 0 <= i < k ==> at[i] < 7 && out.included[i] == NAMES()[at[i]] && segments[i] == texts[at[i]])
    && out.text == Join(segments)
    && |segments| == k + |out.truncated|
    && (out.truncated != [] ==> k < |at| && at[k] == 6 && CutFrom(segments[k], texts[6]))
    && (budget <= 0 ==> k == |at|)
  }

  /** What a context contains. */
  lemma ContextIsTheTexts(rows: Table, session: SessionReads, input: TurnInput, now: int,
                          trim: string -> string, count: Counter)
    returns (at: seq<nat>, segments: seq<string>)
    requires Built(rows, session, input, now, trim, count).Ok?
    ensures Holds(Built(rows, session, input, now, trim, count).value, ContextTexts(rows, session, input, now, trim),
                  at, segments, input.budget)
  {
    var found, texts := Search(rows, MemoryQuery(input), now), ContextTexts(rows, session, input, now, trim);
    var parts := Gathered(found, session, input, trim).value;
    GatheredParts(found, session, input, trim);
    PartsAreTexts(input, FactsText(FactsFound(rows, input, now)), SummaryFound(session, input, trim),
                  TurnsText(TurnsFound(session, input)), trim);
    at, segments := AssemblyIsTheTexts(parts, texts, input.budget, count);
  }

  lemma AssemblyIsTheTexts(parts: seq<Part>, texts: seq<string>, budget: int, count: Counter)
    returns (at: seq<nat>, segments: seq<string>)
    requires AreParts(parts, texts)
    ensures Holds(AssemblyOf(parts, budget, count), texts, at, segments, budget)
  {
    at, segments := Positions(parts), Joined(parts, budget, count);
    forall p: nat ensures p in at <==> p < 7 && texts[p] != "" {
      PositionsAreAll(parts, p);
    }
    PositionsAscend(parts);
    ConsideredInOrder(parts);
    TextIsTheParts(parts, budget, count);
    AssembledIsCorrect(parts, budget, count);
    TextHolds(AssemblyOf(parts, budget, count), parts, NonEmpty(parts), texts, at, segments, budget);
  }

  lemma TextHolds(out: Assembled, parts: seq<Part>, all: seq<Part>, texts: seq<string>, at: seq<nat>,
                  segments: seq<string>, budget: int)
    requires AreParts(parts, texts) && IsText(out, all, segments)
    requires |all| == |at| && forall i :: 0 <= i < |at| ==> at[i] < 7 && all[i] == parts[at[i]]
    requires forall p: nat :: p in at <==> p < 7 && texts[p] != ""
    requires forall i, j :: 0 <= i < j < |at| ==> at[i] < at[j]
    requires budget <= 0 ==> |out.included| == |all|
    ensures Holds(out, texts, at, segments, budget)
  {}
}
