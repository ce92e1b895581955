/** `code_graph_tool`, the adapter an agent calls with an error label: it
    loads the graph from the default path, chains the culprit, table and source
    queries, and renders one text report. Every failure becomes a fixed text;
    nothing escapes the tool. */
module GraphTool {
  import opened Wrappers
  import opened Text
  import opened CodeGraph
  import opened QueryEngine

  function NoCulpritsReport(errorType: string): string {
    "No functions found in the knowledge graph that are known to cause '" + errorType + "'."
  }

  function NotGeneratedReport(details: string): string {
    "Error: The code intelligence graph file has not been generated yet. Please run build_graph.py. Details: " + details
  }

  function UnexpectedReport(details: string): string {
    "An unexpected error occurred while querying the code graph: " + details
  }

  /** The two header lines, each one f-string of the source. */
  function AnalysisLine(errorType: string): string {
    "Analysis for ErrorType '" + errorType + "':\n"
  }

  function CountLine(culprits: seq<string>): string {
    "Found " + NatToString(|culprits|) + " potential culprit function(s): " + Join(", ", culprits) + "\n\n"
  }

  function Header(errorType: string, culprits: seq<string>): string {
    AnalysisLine(errorType) + CountLine(culprits)
  }

  function DetailsHeading(name: string): string {
    "--- Details for function: " + name + " ---\n"
  }

  function ModifiesLine(tables: seq<string>): string {
    "Modifies Resources: " + Join(", ", tables) + "\n"
  }

  const SourceOpening := "Source Code:\n```python\n"

  function SourceClosing(source: string): string {
    source + "\n```\n\n"
  }

  /** One culprit's section; the "Modifies Resources" line only when the
      function modifies at least one table. */
  function DetailsText(d: Details): string {
    DetailsHeading(d.name)
    + (if d.modified != [] then ModifiesLine(d.modified) else "")
    + SourceOpening
    + SourceClosing(d.source)
  }

  /** Appending a section piece by piece, as the tool's loop does, appends
      the section. */
  lemma AppendSection(before: string, d: Details)
    ensures before + DetailsText(d) ==
      (if d.modified != [] then before + DetailsHeading(d.name) + ModifiesLine(d.modified) else before + DetailsHeading(d.name))
      + SourceOpening + SourceClosing(d.source)
  {
    var h := DetailsHeading(d.name);
    var m := if d.modified != [] then ModifiesLine(d.modified) else "";
    AppendAssociative(before, h + m + SourceOpening, SourceClosing(d.source));
    AppendAssociative(before, h + m, SourceOpening);
    AppendAssociative(before, h, m);
    assert before + h + "" == before + h;
  }

  function DetailsListText(ds: seq<Details>): string {
    if ds == [] then "" else DetailsListText(ds[..|ds| - 1]) + DetailsText(ds[|ds| - 1])
  }

  function AnalysisReport(errorType: string, ds: seq<Details>): string {
    Header(errorType, Names(ds)) + DetailsListText(ds)
  }

  /** The sections of a report lay out side by side: the sections of `a`
      followed by those of `b`, one per culprit, in culprit order. */
  lemma {:induction false} DetailsListAppend(a: seq<Details>, b: seq<Details>)
    ensures DetailsListText(a + b) == DetailsListText(a) + DetailsListText(b)
  {
    if b == [] {
      assert a + b == a;
    } else {
      var init, last := b[..|b| - 1], b[|b| - 1];
      assert (a + b)[..|a + b| - 1] == a + init;
      assert (a + b)[|a + b| - 1] == last;
      DetailsListAppend(a, init);
      AppendAssociative(DetailsListText(a), DetailsListText(init), DetailsText(last));
    }
  }

  ghost predicate IsAnalysisOf(g: Graph, errorType: string, report: string) {
    exists ds :: Describes(g, errorType, ds) && report == AnalysisReport(errorType, ds)
  }

  /** Appending one culprit's section piece by piece keeps the report equal
      to the header followed by the sections so far. */
  lemma ReportStep(header: string, ds: seq<Details>, report: string, d: Details)
    requires report == header + DetailsListText(ds)
    ensures (if d.modified != [] then report + DetailsHeading(d.name) + ModifiesLine(d.modified)
             else report + DetailsHeading(d.name))
            + SourceOpening + SourceClosing(d.source)
            == header + DetailsListText(ds + [d])
  {
    AppendSection(report, d);
    AppendName(ds, d);
    DetailsListAppend(ds, [d]);
    assert DetailsListText([d]) == DetailsText(d) by { assert [d][..0] == []; }
    AppendAssociative(header, DetailsListText(ds), DetailsText(d));
  }

  /** The body of the tool once the engine is loaded. */
  method Analyze(engine: GraphQueryEngine, errorType: string) returns (report: string, ghost details: seq<Details>)
    ensures CulpritSet(engine.graph, errorType) == {} ==> report == NoCulpritsReport(errorType)
    ensures CulpritSet(engine.graph, errorType) != {} ==>
      Describes(engine.graph, errorType, details) && report == AnalysisReport(errorType, details)
  {
    details := [];
    var culpritFunctions := engine.FindFunctionsCausingError(errorType);
    if culpritFunctions == [] {
      return NoCulpritsReport(errorType), details;
    }
    var tableModifications := engine.FindModifiedTables(culpritFunctions);

    assert culpritFunctions[0] in Elems(culpritFunctions);
    report := AnalysisLine(errorType);
    report := report + CountLine(culpritFunctions);

    for i := 0 to |culpritFunctions|
      invariant |details| == i && BuiltFrom(engine.graph, tableModifications, culpritFunctions, details)
      invariant report == Header(errorType, culpritFunctions) + DetailsListText(details)
    {
      var func := culpritFunctions[i];
      var sourceCode := engine.GetFunctionSourceCode(func);
      var modified := TablesFor(tableModifications, func);
      ReportStep(Header(errorType, culpritFunctions), details, report, Details(func, modified, sourceCode));
      BuiltFromExtend(engine.graph, tableModifications, culpritFunctions, details);
      report := report + DetailsHeading(func);
      if modified != [] {
        report := report + ModifiesLine(modified);
      }
      report := report + SourceOpening;
      report := report + SourceClosing(sourceCode);
      details := details + [Details(func, modified, sourceCode)];
    }
    LoopDescribes(engine.graph, errorType, culpritFunctions, tableModifications, details);
  }

  /** `code_graph_tool(error_type)`. `files` is what exists on disk; the
      engine reads the default graph path. */
  method CodeGraphTool(errorType: string, files: map<string, FileContent>) returns (report: string)
    ensures DefaultGraphPath !in files ==>
      report == NotGeneratedReport(NotFoundMessage(AgentTool, DefaultGraphPath))
    ensures DefaultGraphPath in files && files[DefaultGraphPath].Unparsable? ==>
      report == UnexpectedReport(files[DefaultGraphPath].reason)
    ensures DefaultGraphPath in files && files[DefaultGraphPath].GraphML? ==>
      var g := files[DefaultGraphPath].graph;
      && (CulpritSet(g, errorType) == {} ==> report == NoCulpritsReport(errorType))
      && (CulpritSet(g, errorType) != {} ==> IsAnalysisOf(g, errorType, report))
  {
    var loaded := Open(DefaultGraphPath, files, AgentTool);
    match loaded
    case Err(GraphFileNotFound(message)) =>
      report := NotGeneratedReport(message);
    case Err(ReadFailure(message)) =>
      report := UnexpectedReport(message);
    case Ok(engine) =>
      ghost var details;
      report, details := Analyze(engine, errorType);
  }
}
