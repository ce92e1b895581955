/** `GraphQueryEngine`, the read-only query side of the Code Intelligence
    Graph. The class appears with the same logic in two scripts, the agent tool
    module and the retrieval script; this one model stands for both. */
module QueryEngine {
  import opened Wrappers
  import opened CodeGraph

  const DefaultGraphPath := "code_intelligence_graph.graphml"

  /** The placeholder for a node that exists without a `source_code` attribute. */
  const SourceCodeNotFound := "# Source code not found."

  /** The placeholder for a function name that is not a node. */
  function FunctionNotFound(name: string): string {
    "# Function '" + name + "' not found in graph."
  }

  predicate NoDuplicates(s: seq<string>) {
    forall i, j :: 0 <= i < j < |s| ==> s[i] != s[j]
  }

  function Elems(s: seq<string>): set<string> {
    set x | x in s
  }

  /** A duplicate-free sequence has as many elements as its element set. */
  lemma {:induction false} DistinctCount(s: seq<string>)
    requires NoDuplicates(s)
    ensures |Elems(s)| == |s|
  {
    if s != [] {
      var init := s[..|s| - 1];
      assert Elems(s) == Elems(init) + {s[|s| - 1]};
      assert s[|s| - 1] !in Elems(init);
      DistinctCount(init);
    }
  }

  /** The culprits of an error: nothing when the error is not a node, and
      otherwise its predecessors that are Function nodes joined to it by a
      CAN_CAUSE edge. */
  function CulpritSet(g: Graph, errorType: string): (r: set<string>)
    ensures forall p :: p in r <==>
      errorType in g.nodes && EdgeKind(g, p, errorType) == Some(CanCause) && KindOf(g, p) == Some(Function)
  {
    if errorType !in g.nodes then {}
    else set p | p in Predecessors(g, errorType) && KindOf(g, p) == Some(Function) && g.edges[(p, errorType)] == CanCause
  }

  /** The tables a function modifies: its successors that are DatabaseTable
      nodes reached over a MODIFIES edge. */
  function ModifiedTableSet(g: Graph, functionName: string): (r: set<string>)
    ensures forall t :: t in r <==>
      EdgeKind(g, functionName, t) == Some(Modifies) && KindOf(g, t) == Some(DatabaseTable)
  {
    set t | t in Successors(g, functionName) && KindOf(g, t) == Some(DatabaseTable) && g.edges[(functionName, t)] == Modifies
  }

  /** In a well-formed graph every culprit is itself a node. */
  lemma CulpritsAreNodes(g: ValidGraph, errorType: string)
    ensures CulpritSet(g, errorType) <= g.nodes.Keys
  {
  }

  /** The stored text of a node's `source_code`, or the placeholder that the
      lookup falls back to. */
  function SourceOf(g: Graph, name: string): (source: string)
    ensures name !in g.nodes ==> source == FunctionNotFound(name)
    ensures name in g.nodes && g.nodes[name].sourceCode.Some? ==> source == g.nodes[name].sourceCode.value
    ensures name in g.nodes && g.nodes[name].sourceCode.None? ==> source == SourceCodeNotFound
  {
    if name in g.nodes then
      match g.nodes[name].sourceCode
      case Some(text) => text
      case None => SourceCodeNotFound
    else FunctionNotFound(name)
  }

  /** A serialized graph file as the loader finds it: a parsable GraphML
      document, or one that `read_graphml` rejects with some message. */
  datatype FileContent = GraphML(graph: ValidGraph) | Unparsable(reason: string)

  /** The two copies of the engine word their not-found message differently. */
  datatype Script = AgentTool | RetrievalScript

  datatype LoadError = GraphFileNotFound(message: string) | ReadFailure(message: string)

  function NotFoundMessage(script: Script, path: string): string {
    match script
    case AgentTool => "Graph file not found: " + path + "."
    case RetrievalScript => "Graph file not found: " + path + ". Please run build_graph.py first."
  }

  class GraphQueryEngine {
    const graph: ValidGraph

    constructor (g: ValidGraph)
      ensures graph == g
    {
      graph := g;
    }

    /** The functions that can cause `errorType`, each once, in the
        (unspecified) order of the predecessor scan. */
    method FindFunctionsCausingError(errorType: string) returns (culprits: seq<string>)
      ensures errorType !in graph.nodes ==> culprits == []
      ensures NoDuplicates(culprits)
      ensures Elems(culprits) == CulpritSet(graph, errorType)
    {
      culprits := [];
      if errorType !in graph.nodes {
        return [];
      }
      var predecessors := Predecessors(graph, errorType);
      var pending := predecessors;
      while pending != {}
        invariant pending <= predecessors
        invariant NoDuplicates(culprits)
        invariant forall x :: x in culprits ==> x !in pending
        invariant Elems(culprits) == CulpritSet(graph, errorType) - pending
        decreases pending
      {
        var predecessor :| predecessor in pending;
        if KindOf(graph, predecessor) == Some(Function) && graph.edges[(predecessor, errorType)] == CanCause {
          assert Elems(culprits + [predecessor]) == Elems(culprits) + {predecessor};
          culprits := culprits + [predecessor];
        }
        pending := pending - {predecessor};
      }
    }

    /** For every name that is a node (of any type), the DatabaseTable nodes
        it MODIFIES, each once; names that are not nodes get no key. */
    method FindModifiedTables(functionNames: seq<string>) returns (modificationMap: map<string, seq<string>>)
      ensures modificationMap.Keys == set f | f in functionNames && f in graph.nodes
      ensures forall f :: f in modificationMap ==>
        NoDuplicates(modificationMap[f]) && Elems(modificationMap[f]) == ModifiedTableSet(graph, f)
    {
      modificationMap := map[];
      for i := 0 to |functionNames|
        invariant modificationMap.Keys == set f | f in functionNames[..i] && f in graph.nodes
        invariant forall f :: f in modificationMap ==>
          NoDuplicates(modificationMap[f]) && Elems(modificationMap[f]) == ModifiedTableSet(graph, f)
      {
        var funcName := functionNames[i];
        var modifiedTables := [];
        if funcName !in graph.nodes {
          assert functionNames[..i + 1] == functionNames[..i] + [funcName];
          continue;
        }
        var successors := Successors(graph, funcName);
        var pending := successors;
        while pending != {}
          invariant pending <= successors
          invariant NoDuplicates(modifiedTables)
          invariant forall x :: x in modifiedTables ==> x !in pending
          invariant Elems(modifiedTables) == ModifiedTableSet(graph, funcName) - pending
          decreases pending
        {
          var successor :| successor in pending;
          if KindOf(graph, successor) == Some(DatabaseTable) && graph.edges[(funcName, successor)] == Modifies {
            assert Elems(modifiedTables + [successor]) == Elems(modifiedTables) + {successor};
            modifiedTables := modifiedTables + [successor];
          }
          pending := pending - {successor};
        }
        modificationMap := modificationMap[funcName := modifiedTables];
        assert functionNames[..i + 1] == functionNames[..i] + [funcName];
      }
      assert functionNames[..|functionNames|] == functionNames;
    }

    /** The function's stored source, or one of the two fixed placeholders;
        the lookup never fails. */
    function GetFunctionSourceCode(functionName: string): (source: string)
      ensures functionName !in graph.nodes ==> source == FunctionNotFound(functionName)
      ensures functionName in graph.nodes && graph.nodes[functionName].sourceCode.Some? ==>
        source == graph.nodes[functionName].sourceCode.value
      ensures functionName in graph.nodes && graph.nodes[functionName].sourceCode.None? ==>
        source == SourceCodeNotFound
    {
      SourceOf(graph, functionName)
    }
  }

  /** The engine's constructor: a missing graph file is a not-found error
      naming the path, an unreadable one fails with the reader's message, and
      otherwise the engine holds the loaded graph. */
  method Open(path: string, files: map<string, FileContent>, script: Script)
    returns (r: Result<GraphQueryEngine, LoadError>)
    ensures path !in files ==> r == Err(GraphFileNotFound(NotFoundMessage(script, path)))
    ensures path in files && files[path].Unparsable? ==> r == Err(ReadFailure(files[path].reason))
    ensures path in files && files[path].GraphML? ==> r.Ok? && r.value.graph == files[path].graph
  {
    if path !in files {
      return Err(GraphFileNotFound(NotFoundMessage(script, path)));
    }
    match files[path]
    case Unparsable(reason) =>
      r := Err(ReadFailure(reason));
    case GraphML(g) =>
      var engine := new GraphQueryEngine(g);
      r := Ok(engine);
  }

  /** What the retrieval step gathers for one culprit function: its name, the
      tables it modifies and its source text. */
  datatype Details = Details(name: string, modified: seq<string>, source: string)

  function Names(ds: seq<Details>): (names: seq<string>)
    ensures |names| == |ds| && forall i :: 0 <= i < |ds| ==> names[i] == ds[i].name
  {
    if ds == [] then [] else Names(ds[..|ds| - 1]) + [ds[|ds| - 1].name]
  }

  /** `ds` lists every culprit of `errorType` in `g` exactly once, each with
      the tables it modifies (each once) and its source lookup. Every culprit
      is a node, so neither the missing-entry default of the table map nor the
      not-in-graph placeholder of the source lookup is ever used. */
  ghost predicate Describes(g: Graph, errorType: string, ds: seq<Details>) {
    && NoDuplicates(Names(ds))
    && Elems(Names(ds)) == CulpritSet(g, errorType)
    && forall i :: 0 <= i < |ds| ==>
      && ds[i].name in g.nodes
      && NoDuplicates(ds[i].modified)
      && Elems(ds[i].modified) == ModifiedTableSet(g, ds[i].name)
      && ds[i].source == SourceOf(g, ds[i].name)
  }

  /** The count in the header of a described report is the number of culprits. */
  lemma DescribedCount(g: Graph, errorType: string, ds: seq<Details>)
    requires Describes(g, errorType, ds)
    ensures |ds| == |CulpritSet(g, errorType)|
  {
    DistinctCount(Names(ds));
  }

  lemma AppendName(ds: seq<Details>, d: Details)
    ensures Names(ds + [d]) == Names(ds) + [d.name]
  {
    assert (ds + [d])[..|ds|] == ds;
  }

  lemma NamesOf(ds: seq<Details>, names: seq<string>)
    requires |ds| == |names| && forall k :: 0 <= k < |ds| ==> ds[k].name == names[k]
    ensures Names(ds) == names
  {
  }

  /** `table_modifications.get(func, [])`. */
  function TablesFor(modificationMap: map<string, seq<string>>, func: string): seq<string> {
    if func in modificationMap then modificationMap[func] else []
  }

  /** The first |ds| culprits, each with its table list and source. */
  ghost predicate BuiltFrom(g: Graph, modificationMap: map<string, seq<string>>, culprits: seq<string>, ds: seq<Details>) {
    && |ds| <= |culprits|
    && forall k :: 0 <= k < |ds| ==>
      ds[k] == Details(culprits[k], TablesFor(modificationMap, culprits[k]), SourceOf(g, culprits[k]))
  }

  lemma BuiltFromExtend(g: Graph, modificationMap: map<string, seq<string>>, culprits: seq<string>, ds: seq<Details>)
    requires BuiltFrom(g, modificationMap, culprits, ds) && |ds| < |culprits|
    ensures BuiltFrom(g, modificationMap, culprits, ds + [Details(culprits[|ds|],
      TablesFor(modificationMap, culprits[|ds|]), SourceOf(g, culprits[|ds|]))])
  {
  }

  /** What the tool's loop has built describes the culprits. */
  lemma LoopDescribes(g: ValidGraph, errorType: string, culprits: seq<string>,
                      modificationMap: map<string, seq<string>>, ds: seq<Details>)
    requires NoDuplicates(culprits) && Elems(culprits) == CulpritSet(g, errorType)
    requires modificationMap.Keys == set f | f in culprits && f in g.nodes
    requires forall f :: f in modificationMap ==>
      NoDuplicates(modificationMap[f]) && Elems(modificationMap[f]) == ModifiedTableSet(g, f)
    requires |ds| == |culprits| && BuiltFrom(g, modificationMap, culprits, ds)
    ensures Names(ds) == culprits
    ensures Describes(g, errorType, ds)
  {
    NamesOf(ds, culprits);
    CulpritsAreNodes(g, errorType);
    forall k | 0 <= k < |ds|
      ensures ds[k].name in g.nodes && culprits[k] in modificationMap
    {
      assert culprits[k] in Elems(culprits);
    }
  }

}
