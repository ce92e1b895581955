/** The retrieval script: for a fixed `database_deadlock` incident it asks the
    engine for the culprit functions, the tables they modify and their source,
    and assembles the prompt an LLM would be given. The progress lines the
    script prints along the way are not modelled; the prompt is returned
    instead of printed. */
module DeadlockScenario {
  import opened Wrappers
  import opened Text
  import opened CodeGraph
  import opened QueryEngine

  const IncidentErrorType := "database_deadlock"

  const PromptContext := "A 'database_deadlock' incident occurred. A Code Intelligence Graph analysis has identified the following functions as the most likely root cause due to their interaction with shared database resources. The relevant source code is provided below."

  /** A line of fifty `#`. */
  function Rule(): (r: string)
    ensures |r| == 50 && forall i :: 0 <= i < 50 ==> r[i] == '#'
  {
    Repeat('#', 50)
  }

  /** The context and the banner, grouped as the script appends them. */
  function Preamble(): string {
    PromptContext + "\n\n" + (Rule() + "\n") + "# CULPRIT ANALYSIS\n" + (Rule() + "\n\n")
  }

  function FunctionLine(name: string): string {
    "--- Function: " + name + " ---\n"
  }

  /** The tables line is written even when the list is empty. */
  function TablesLine(tables: seq<string>): string {
    "--- Modifies Tables: " + Join(", ", tables) + " ---\n"
  }

  const CodeOpening := "```python\n"

  function SourceLine(source: string): string {
    source + "\n"
  }

  const CodeClosing := "```\n\n"

  /** One culprit's block of the prompt. */
  function Section(d: Details): string {
    FunctionLine(d.name) + TablesLine(d.modified) + CodeOpening + SourceLine(d.source) + CodeClosing
  }

  function SectionsText(ds: seq<Details>): string {
    if ds == [] then "" else SectionsText(ds[..|ds| - 1]) + Section(ds[|ds| - 1])
  }

  const TaskHeading := "--- TASK ---\n"

  const TaskText := "Analyze the provided"
    + " source code for these functions. "
    + "Specifically, examine the order in which they acquire database locks (e.g., `DB_LOCK_ORDERS`, `DB_LOCK_INVENTORY`). Identify the inconsistent lock ordering that is causing the deadlock and describe the exact remediation required to fix it."

  /** The whole prompt for the culprit blocks `ds`. */
  function PromptText(ds: seq<Details>): string {
    Preamble() + SectionsText(ds) + TaskHeading + TaskText
  }

  /** Appending a block piece by piece, as the script does, appends the block. */
  lemma AppendBlock(before: string, d: Details)
    ensures before + FunctionLine(d.name) + TablesLine(d.modified) + CodeOpening + SourceLine(d.source) + CodeClosing
            == before + Section(d)
  {
    var f, t, s := FunctionLine(d.name), TablesLine(d.modified), SourceLine(d.source);
    AppendAssociative(before, f + t + CodeOpening + s, CodeClosing);
    AppendAssociative(before, f + t + CodeOpening, s);
    AppendAssociative(before, f + t, CodeOpening);
    AppendAssociative(before, f, t);
  }

  /** The prompt so far stays the preamble followed by the blocks so far. */
  lemma PromptStep(ds: seq<Details>, sofar: string, d: Details)
    requires sofar == Preamble() + SectionsText(ds)
    ensures sofar + FunctionLine(d.name) + TablesLine(d.modified) + CodeOpening + SourceLine(d.source) + CodeClosing
            == Preamble() + SectionsText(ds + [d])
  {
    AppendBlock(sofar, d);
    SectionsAppend(ds, [d]);
    assert SectionsText([d]) == Section(d) by { assert [d][..0] == []; }
    AppendAssociative(Preamble(), SectionsText(ds), Section(d));
  }

  /** The blocks of a prompt lay out side by side: those of `a` followed by
      those of `b`. */
  lemma {:induction false} SectionsAppend(a: seq<Details>, b: seq<Details>)
    ensures SectionsText(a + b) == SectionsText(a) + SectionsText(b)
  {
    if b == [] {
      assert a + b == a;
    } else {
      var init, last := b[..|b| - 1], b[|b| - 1];
      assert (a + b)[..|a + b| - 1] == a + init;
      assert (a + b)[|a + b| - 1] == last;
      SectionsAppend(a, init);
      AppendAssociative(SectionsText(a), SectionsText(init), Section(last));
    }
  }

  /** Step C of the scenario: each culprit's source, keyed by its name. */
  method RetrieveCode(engine: GraphQueryEngine, culpritFunctions: seq<string>) returns (retrievedCode: map<string, string>)
    ensures retrievedCode.Keys == Elems(culpritFunctions)
    ensures forall f :: f in retrievedCode ==> retrievedCode[f] == SourceOf(engine.graph, f)
  {
    retrievedCode := map[];
    for i := 0 to |culpritFunctions|
      invariant retrievedCode.Keys == Elems(culpritFunctions[..i])
      invariant forall f :: f in retrievedCode ==> retrievedCode[f] == SourceOf(engine.graph, f)
    {
      var funcName := culpritFunctions[i];
      assert culpritFunctions[..i + 1] == culpritFunctions[..i] + [funcName];
      assert Elems(culpritFunctions[..i + 1]) == Elems(culpritFunctions[..i]) + {funcName};
      retrievedCode := retrievedCode[funcName := engine.GetFunctionSourceCode(funcName)];
    }
    assert culpritFunctions[..|culpritFunctions|] == culpritFunctions;
  }

  /** Step D of the scenario: the prompt, one block per culprit in culprit
      order (the order in which the sources were retrieved). */
  method AssemblePrompt(ghost g: Graph, culpritFunctions: seq<string>, tableModifications: map<string, seq<string>>,
                        retrievedCode: map<string, string>)
    returns (finalPrompt: string, ghost details: seq<Details>)
    requires forall f :: f in culpritFunctions ==> f in retrievedCode && retrievedCode[f] == SourceOf(g, f)
    ensures |details| == |culpritFunctions| && BuiltFrom(g, tableModifications, culpritFunctions, details)
    ensures finalPrompt == PromptText(details)
  {
    details := [];
    finalPrompt := PromptContext + "\n\n";
    finalPrompt := finalPrompt + (Rule() + "\n");
    finalPrompt := finalPrompt + "# CULPRIT ANALYSIS\n";
    finalPrompt := finalPrompt + (Rule() + "\n\n");

    // The dictionary's items come out in insertion order, which is the
    // culprit order since no culprit is listed twice.
    for i := 0 to |culpritFunctions|
      invariant |details| == i && BuiltFrom(g, tableModifications, culpritFunctions, details)
      invariant finalPrompt == Preamble() + SectionsText(details)
    {
      var funcName := culpritFunctions[i];
      var sourceCode := retrievedCode[funcName];
      var tables := TablesFor(tableModifications, funcName);
      PromptStep(details, finalPrompt, Details(funcName, tables, sourceCode));
      BuiltFromExtend(g, tableModifications, culpritFunctions, details);
      finalPrompt := finalPrompt + FunctionLine(funcName);
      finalPrompt := finalPrompt + TablesLine(tables);
      finalPrompt := finalPrompt + CodeOpening;
      finalPrompt := finalPrompt + SourceLine(sourceCode);
      finalPrompt := finalPrompt + CodeClosing;
      details := details + [Details(funcName, tables, sourceCode)];
    }

    finalPrompt := finalPrompt + TaskHeading;
    finalPrompt := finalPrompt + TaskText;
  }

  /** `run_deadlock_scenario(engine)`: no prompt exactly when nothing in the
      graph can cause a deadlock; otherwise the prompt holds one block per
      culprit, each culprit once, with its tables and its stored source. */
  method RunDeadlockScenario(engine: GraphQueryEngine) returns (prompt: Option<string>, ghost details: seq<Details>)
    ensures prompt.None? <==> CulpritSet(engine.graph, IncidentErrorType) == {}
    ensures prompt.Some? ==>
      Describes(engine.graph, IncidentErrorType, details) && prompt.value == PromptText(details)
  {
    details := [];
    var culpritFunctions := engine.FindFunctionsCausingError(IncidentErrorType);
    if culpritFunctions == [] {
      return None, details;
    }
    assert culpritFunctions[0] in Elems(culpritFunctions);
    var tableModifications := engine.FindModifiedTables(culpritFunctions);

    var retrievedCode := RetrieveCode(engine, culpritFunctions);
    assert forall f :: f in culpritFunctions ==> f in Elems(culpritFunctions);

    var finalPrompt;
    finalPrompt, details := AssemblePrompt(engine.graph, culpritFunctions, tableModifications, retrievedCode);
    LoopDescribes(engine.graph, IncidentErrorType, culpritFunctions, tableModifications, details);
    prompt := Some(finalPrompt);
  }

  /** What the script's entry point ends with: the scenario ran (with or
      without a prompt), or a load error was reported in two lines. */
  datatype ScriptOutcome = Completed(prompt: Option<string>) | Reported(lines: seq<string>)

  const RebuildHint := "Please ensure you have run 'build_graph.py' to generate the graph file first."

  /** `main()`: open the engine on the default path and run the scenario;
      a missing graph file is reported with the rebuild hint, any other load
      failure as unexpected. */
  method RetrievalMain(files: map<string, FileContent>) returns (outcome: ScriptOutcome)
    ensures DefaultGraphPath !in files ==>
      outcome == Reported(["\nERROR: " + NotFoundMessage(RetrievalScript, DefaultGraphPath), RebuildHint])
    ensures DefaultGraphPath in files && files[DefaultGraphPath].Unparsable? ==>
      outcome == Reported(["\nAn unexpected error occurred: " + files[DefaultGraphPath].reason])
    ensures DefaultGraphPath in files && files[DefaultGraphPath].GraphML? ==>
      var g := files[DefaultGraphPath].graph;
      && outcome.Completed?
      && (outcome.prompt.None? <==> CulpritSet(g, IncidentErrorType) == {})
      && (outcome.prompt.Some? ==>
            exists ds :: Describes(g, IncidentErrorType, ds) && outcome.prompt.value == PromptText(ds))
  {
    var loaded := Open(DefaultGraphPath, files, RetrievalScript);
    match loaded
    case Err(GraphFileNotFound(message)) =>
      outcome := Reported(["\nERROR: " + message, RebuildHint]);
    case Err(ReadFailure(message)) =>
      outcome := Reported(["\nAn unexpected error occurred: " + message]);
    case Ok(engine) =>
      var prompt;
      ghost var details;
      prompt, details := RunDeadlockScenario(engine);
      outcome := Completed(prompt);
  }
}
