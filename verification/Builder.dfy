/** Per-turn context building (services/session-memory/internal/assembly/builder.go). What the session
    tables answer is an argument, and so is strings.TrimSpace. */
module Builder {
  import opened Prelude
  import opened Memory
  import opened Assembly
  import opened AssemblyTheorems

  datatype Turn = Turn(role: string, content: string)

  datatype TurnInput = TurnInput(sessionId: string, scope: Scope, memoryTags: seq<string>, memoryTopK: int,
                                 recentTurns: int, systemPrompt: string, gooseHints: string,
                                 recipeInstructions: string, toolOutput: string, budget: int)

  /** What GetSummary (None when there is no row) and ListTurns (all turns, oldest first) answer; None of
      an outer Option when the read fails. `memoryFault` says whether the memory query fails. */
  datatype SessionReads = SessionReads(summary: Option<Option<string>>, turns: Option<seq<Turn>>,
                                       memoryFault: bool)

  datatype BuildError = MemoryFailed | SummaryFailed | TurnsFailed

  function JoinTags(tags: seq<string>): string {
    if tags == [] then ""
    else if |tags| == 1 then tags[0]
    else JoinTags(tags[..|tags| - 1]) + ", " + tags[|tags| - 1]
  }

  function FactLine(f: Fact): string {
    "\n- " + f.key + ": " + f.value + if |f.tags| > 0 then " [" + JoinTags(f.tags) + "]" else ""
  }

  function FactLines(facts: Table): string {
    if facts == [] then "" else FactLines(facts[..|facts| - 1]) + FactLine(facts[|facts| - 1])
  }

  function FactsText(facts: Table): string {
    if facts == [] then "" else "Relevant memory:" + FactLines(facts)
  }

  function TurnLines(turns: seq<Turn>): string {
    if turns == [] then ""
    else TurnLines(turns[..|turns| - 1]) + ("\n" + turns[|turns| - 1].role + ": " + turns[|turns| - 1].content)
  }

  function TurnsText(turns: seq<Turn>): string {
    if turns == [] then "" else "Recent conversation:" + TurnLines(turns)
  }

  method FormatFacts(facts: Table) returns (text: string)
    ensures text == FactsText(facts)
  {
    if |facts| == 0 {
      return "";
    }
    text := "Relevant memory:";
    for i := 0 to |facts|
      invariant text == "Relevant memory:" + FactLines(facts[..i])
    {
      var f := facts[i];
      assert facts[..i + 1][..i] == facts[..i];
      var line := "\n- " + f.key + ": " + f.value;
      if |f.tags| > 0 {
        line := line + (" [" + JoinTags(f.tags) + "]");
      }
      text := text + line;
    }
    assert facts[..|facts|] == facts;
  }

  method FormatTurns(turns: seq<Turn>) returns (text: string)
    ensures text == TurnsText(turns)
  {
    if |turns| == 0 {
      return "";
    }
    text := "Recent conversation:";
    for i := 0 to |turns|
      invariant text == "Recent conversation:" + TurnLines(turns[..i])
    {
      assert turns[..i + 1][..i] == turns[..i];
      text := text + ("\n" + turns[i].role + ": " + turns[i].content);
    }
    assert turns[..|turns|] == turns;
  }

  function Prefixed(prefix: string, body: string, trim: string -> string): string {
    if trim(body) == "" then "" else prefix + "\n" + body
  }

  /** The last `limit` turns, oldest first. */
  function Recent(turns: seq<Turn>, limit: int): seq<Turn>
    requires limit > 0
  {
    if limit < |turns| then turns[|turns| - limit..] else turns
  }

  /** The seven parts in priority order; only tool output may be trimmed. */
  function Parts(input: TurnInput, memory: string, summary: string, turns: string, trim: string -> string): seq<Part> {
    [Part("system", input.systemPrompt, false),
     Part("goosehints", input.gooseHints, false),
     Part("recipe", input.recipeInstructions, false),
     Part("memory", memory, false),
     Part("summary", Prefixed("Conversation summary:", summary, trim), false),
     Part("recent_turns", turns, false),
     Part("tool_output", Prefixed("Tool results:", input.toolOutput, trim), true)]
  }

  function MemoryQuery(input: TurnInput): FactQuery {
    FactQuery(input.scope, input.memoryTags, input.memoryTopK, false)
  }

  predicate ReadsMemory(input: TurnInput) {
    input.scope.kind != "" && input.scope.id != ""
  }

  /** The parts Build assembles, given the facts its memory query found. */
  function Gathered(found: Table, session: SessionReads, input: TurnInput, trim: string -> string)
    : Result<seq<Part>, BuildError>
  {
    if ReadsMemory(input) && (!ValidScope(input.scope.kind) || session.memoryFault) then Err(MemoryFailed)
    else
      var memory := if ReadsMemory(input) then FactsText(found) else "";
      if input.sessionId == "" then Ok(Parts(input, memory, "", "", trim))
      else if session.summary.None? then Err(SummaryFailed)
      else
        var summary := if session.summary.value.Some? then trim(session.summary.value.value) else "";
        if input.recentTurns <= 0 then Ok(Parts(input, memory, summary, "", trim))
        else if session.turns.None? then Err(TurnsFailed)
        else Ok(Parts(input, memory, summary, TurnsText(Recent(session.turns.value, input.recentTurns)), trim))
  }

  function BuiltFrom(found: Table, session: SessionReads, input: TurnInput, trim: string -> string, count: Counter)
    : Result<Assembled, BuildError>
  {
    match Gathered(found, session, input, trim)
    case Err(e) => Err(e)
    case Ok(parts) => Ok(AssemblyOf(parts, input.budget, count))
  }

  function Built(rows: Table, session: SessionReads, input: TurnInput, now: int, trim: string -> string, count: Counter)
    : Result<Assembled, BuildError>
  {
    BuiltFrom(Search(rows, MemoryQuery(input), now), session, input, trim, count)
  }

  class ContextBuilder {
    const store: MemoryStore
    const count: Counter
    const trim: string -> string

    constructor (store: MemoryStore, count: Counter, trim: string -> string)
      ensures this.store == store && this.count == count && this.trim == trim
    {
      this.store, this.count, this.trim := store, count, trim;
    }

    method Build(input: TurnInput, session: SessionReads, now: int) returns (r: Result<Assembled, BuildError>)
      ensures r == Built(store.facts, session, input, now, trim, count)
    {
      var memoryText, summaryText, turnsText := "", "", "";
      if input.scope.kind != "" && input.scope.id != "" {
        var found := store.SearchFacts(MemoryQuery(input), now, session.memoryFault);
        if found.Err? {
          return Err(MemoryFailed);
        }
        memoryText := FormatFacts(found.value);
      }
      if input.sessionId != "" {
        if session.summary.None? {
          return Err(SummaryFailed);
        }
        if session.summary.value.Some? {
          summaryText := trim(session.summary.value.value);
        }
        if input.recentTurns > 0 {
          if session.turns.None? {
            return Err(TurnsFailed);
          }
          turnsText := FormatTurns(Recent(session.turns.value, input.recentTurns));
        }
      }
      var parts := Parts(input, memoryText, summaryText, turnsText, trim);
      var out := Assemble(parts, input.budget, count);
      return Ok(out);
    }
  }

  /** Scope noninterference, through to the assembled context: two histories that agree on what concerns
      the turn's scope build the same context from the same session data. */
  lemma BuildSeesOnlyItsScope(ops1: seq<Op>, ops2: seq<Op>, session: SessionReads, input: TurnInput, now: int,
                              trim: string -> string, count: Counter)
    requires Purge(ops1, input.scope) == Purge(ops2, input.scope)
    ensures Built(Exec(ops1), session, input, now, trim, count) == Built(Exec(ops2), session, input, now, trim, count)
  {
    ScopesDoNotInterfere(ops1, ops2, MemoryQuery(input), now);
  }

  /** And retention sweeps, with cutoffs in the past, never change a context. */
  lemma SweepsDoNotChangeContexts(ops: seq<Op>, session: SessionReads, input: TurnInput, now: int,
                                  trim: string -> string, count: Counter)
    requires forall i :: 0 <= i < |ops| && ops[i].Sweep? ==> ops[i].before <= now
    ensures Built(Exec(ops), session, input, now, trim, count) ==
            Built(Exec(WithoutSweeps(ops)), session, input, now, trim, count)
  {
    SweepsAreInvisibleInRuns(ops, MemoryQuery(input), now);
  }

  /** A built context keeps priority order within its budget: the included names are the leading
      non-empty parts, and nothing but the tool output is ever cut. */
  lemma ContextKeepsPriority(found: Table, session: SessionReads, input: TurnInput, trim: string -> string,
                             count: Counter, parts: seq<Part>)
    requires Gathered(found, session, input, trim) == Ok(parts)
    ensures BuiltFrom(found, session, input, trim, count).Ok?
    ensures var out := BuiltFrom(found, session, input, trim, count).value;
            && out.included + out.truncated + out.dropped <= Names(NonEmpty(parts))
            && (input.budget > 0 ==> out.tokens <= input.budget)
            && (out.truncated == [] || (parts[6].name == "tool_output" && out.truncated == [parts[6].name]))
  {
    GatheredShape(found, session, input, trim);
    OnlyTheLastIsCut(parts, input.budget, count);
  }

  lemma GatheredShape(found: Table, session: SessionReads, input: TurnInput, trim: string -> string)
    ensures var r := Gathered(found, session, input, trim);
            r.Ok? ==> && |r.value| == 7 && r.value[6].name == "tool_output"
                      && forall i :: 0 <= i < 6 ==> !r.value[i].trimmable
  {}

  lemma OnlyTheLastIsCut(parts: seq<Part>, budget: int, count: Counter)
    requires parts != [] && forall i :: 0 <= i < |parts| - 1 ==> !parts[i].trimmable
    ensures var out := AssemblyOf(parts, budget, count);
            && out.included + out.truncated + out.dropped <= Names(NonEmpty(parts))
            && (budget > 0 ==> out.tokens <= budget)
            && (out.truncated == [] || out.truncated == [parts[|parts| - 1].name])
  {
    var all := NonEmpty(parts);
    var k := FitFrom(all, 0, budget, count);
    AssembledIsCorrect(parts, budget, count);
    CutIsTrimmable(all, k, budget, count);
    if k < |all| {
      NonEmptyMember(parts, all[k]);
    }
  }

  lemma {:induction false} NonEmptyMember(parts: seq<Part>, p: Part)
    requires p in NonEmpty(parts)
    ensures p in parts && p.content != ""
  {
    if parts != [] && p in NonEmpty(parts[..|parts| - 1]) {
      NonEmptyMember(parts[..|parts| - 1], p);
    }
  }
}
