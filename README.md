# Code Intelligence Graph — a verified Dafny model

The system builds a **Code Intelligence Graph** for an e-commerce demo
application and queries it during incidents. The graph is a typed directed
graph (a networkx `DiGraph`) with these node types:

- `File`, `Service`, `Function`, `DatabaseTable` and `ErrorType`.

Its edges are typed too:

- `CONTAINS`, `CALLS`, `MODIFIES`, `IMPLEMENTS` and `CAN_CAUSE`.

This project models four pieces of that system, listed below with what is
proved about each.

- **The graph** (`graph.dfy`, module `CodeGraph`).
  - Nodes are a map from id to attributes, and edges are a map keyed by the ordered pair. This gives at most one edge per pair.
  - `add_node` merges attributes. `add_edge` creates missing endpoints and retypes an edge that already exists.
  - The builder's shared `DiGraph` object is a class whose methods are proved against these two operations.
- **The query engine** (`query_engine.dfy`, module `QueryEngine`). The engine appears twice in the repository with the same logic, and both copies are modelled by the one class `GraphQueryEngine`.
  - Its results are proved equal to set definitions:
    - the culprits of an error are the Function predecessors over CAN_CAUSE;
    - the tables of a function are its DatabaseTable successors over MODIFIES;
    - the source lookup returns the stored text or one of two placeholders.
  - The engine's graph is a constant, so no query changes it.
  - The two copies differ only in the not-found message of their constructor, and `Open` models both.
- **The two consumers of the engine.**
  - `code_graph_tool` (`graph_tool.dfy`) turns every outcome into a text report and never fails.
  - The deadlock retrieval script (`deadlock_scenario.dfy`) assembles the prompt given to an LLM.
  - Both build their text with `+=` in a loop. Each is proved equal to a text function of a culprit list, and that list is proved to enumerate exactly the culprits, with their tables and their source.
- **The graph builder** (`graph_builder.dfy`).
  - The syntax tree is replaced by the sequence of visitor callbacks it produces: entering and leaving a function definition, a call, and a `with` statement.
  - `CodeVisitor` and `CodeGraphBuilder` are classes whose methods are proved against a functional `Step`/`Run` and against the two mapping layers.
  - The end-to-end theorem `BuiltCulprits` says that, in a graph built from an empty graph, the culprits the engine finds for an error of the hand-written table are exactly the functions listed under that error that the parsed file defines.
  - The visitor clears `current_function` when any definition ends. So after a nested definition, the rest of the enclosing function's body adds no edges. This is modelled as written.
- **The service-status state machine** of the incident simulator (`ecommerce.dfy`).
  - `EcommercePlatform` holds the services table and the current incident.
  - Incident methods, the incident dispatcher, recovery, affected services, the health-check counters and the access-log status codes are modelled.
  - Random choices are parameters.
  - The dispatcher names seven scenarios for which the class defines no method. Picking one of them fails the method lookup and changes nothing, which the model states as a `MissingHandler` outcome.
  - Nothing ever marks a service critical or down. So in every reachable state a service is running or degraded, and the health check never reports CRITICAL.

`wrappers.dfy` holds `Option`/`Result`, and `text.dfy` holds the string formatting the reports use.

## Model

| member | source | states |
|---|---|---|
| CodeGraph.Predecessors | 17092025/code_graph_tool.py:16 | a node is a predecessor of `v` exactly when an edge runs from it to `v` |
| CodeGraph.Successors | 17092025/code_graph_tool.py:27 | a node is a successor of `u` exactly when an edge runs from `u` to it |
| CodeGraph.Merge | build_graph.py:36-41 | re-adding a node replaces each attribute passed and keeps the others |
| CodeGraph.WithNode | build_graph.py:36-41 | adding a node adds its id and merges its attributes; other nodes and all edges are unchanged; well-formedness is kept |
| CodeGraph.WithEdge | build_graph.py:83 | a DiGraph edge: endpoints become nodes (new ones without attributes); the pair maps to the new type, so there is never a second edge; other edges and existing nodes are unchanged; well-formedness is kept |
| CodeGraph.DiGraph.constructor | build_graph.py:83 | a new DiGraph is empty |
| CodeGraph.DiGraph.AddNode | build_graph.py:36-41 | the object's graph becomes the graph with the node added |
| CodeGraph.DiGraph.AddEdge | build_graph.py:42 | the object's graph becomes the graph with the edge added |
| QueryEngine.CulpritSet | 17092025/code_graph_tool.py:13-20 | empty when the error is not a node; otherwise exactly the Function nodes joined to it by a CAN_CAUSE edge |
| QueryEngine.ModifiedTableSet | 17092025/code_graph_tool.py:27-30 | exactly the DatabaseTable nodes the function reaches over a MODIFIES edge |
| QueryEngine.SourceOf | 17092025/code_graph_tool.py:34-37 | the stored source when the node has one; `# Source code not found.` for a node without; the not-found placeholder naming the function when there is no node |
| QueryEngine.GraphQueryEngine.FindFunctionsCausingError | 17092025/code_graph_tool.py:13-20 | `[]` for an absent error; otherwise no duplicates, and its elements are exactly the culprit set; the retrieval script's copy (17092025/query_graph.py:40-48) is the same query |
| QueryEngine.GraphQueryEngine.FindModifiedTables | 17092025/code_graph_tool.py:22-32 | the keys are exactly the input names that are nodes, of any type, a repeated name giving one key; each list has no duplicates and holds exactly the modified-table set; the same holds for the retrieval script's copy (17092025/query_graph.py:58-69) |
| QueryEngine.GraphQueryEngine.GetFunctionSourceCode | 17092025/code_graph_tool.py:34-37 | one of three outcomes, chosen by whether the node and its attribute are present; it never fails; the same holds for the retrieval script's copy (17092025/query_graph.py:75-77) |
| QueryEngine.Open | 17092025/code_graph_tool.py:8-11 | a missing path fails with the not-found message; a file the reader rejects fails with its message; otherwise the engine holds the file's graph; the retrieval script's constructor (17092025/query_graph.py:22-24) adds the build_graph.py hint to the not-found message |
| QueryEngine.DescribedCount | 17092025/code_graph_tool.py:57 | a culprit list that describes the culprits is as long as the culprit set |
| QueryEngine.LoopDescribes | 17092025/code_graph_tool.py:59-66 | the entries built in culprit order, with `.get(func, [])` tables and looked-up source, name every culprit once, each a node with exactly its modified tables and its source |
| Text.NatToString | 17092025/code_graph_tool.py:57 | `str(n)`: a non-empty run of decimal digits with no leading zero |
| Text.ParseNatToString | 17092025/code_graph_tool.py:57 | reading the digits of `str(n)` gives back `n` |
| Text.Join | 17092025/code_graph_tool.py:57 | `', '.join` of no names is empty, and of one name is that name |
| Text.JoinAppend | 17092025/code_graph_tool.py:57 | joining two non-empty lists one after the other gives their joins with one separator between them |
| Text.Repeat | 17092025/query_graph.py:124 | `'#' * n` has length `n` and only that character |
| GraphTool.DetailsListAppend | 17092025/code_graph_tool.py:59-66 | the section text of a culprit list is the sections of its parts side by side, one per culprit, in culprit order |
| GraphTool.ReportStep | 17092025/code_graph_tool.py:62-66 | the loop's appends, with the "Modifies Resources" line only for a non-empty table list, add exactly one culprit's section |
| GraphTool.Analyze | 17092025/code_graph_tool.py:50-68 | no culprits gives the fixed "No functions found" text; otherwise the report is the header (count and joined names) followed by one section per culprit, for a list that names each culprit once with its tables and source |
| GraphTool.CodeGraphTool | 17092025/code_graph_tool.py:40-72 | a missing graph file gives the "has not been generated yet" text with the not-found details; an unreadable file gives the generic text; otherwise the analysis; nothing escapes |
| DeadlockScenario.Rule | 17092025/query_graph.py:124 | the banner line is fifty `#` |
| DeadlockScenario.PromptStep | 17092025/query_graph.py:128-133 | the five appends of the loop add exactly one culprit block, tables line included even when empty |
| DeadlockScenario.SectionsAppend | 17092025/query_graph.py:128-133 | the blocks of a culprit list are the blocks of its parts side by side |
| DeadlockScenario.RetrieveCode | 17092025/query_graph.py:111-114 | the retrieved map has exactly the culprits as keys, each mapped to its source lookup |
| DeadlockScenario.AssemblePrompt | 17092025/query_graph.py:121-136 | the prompt is the context, the banner, one block per culprit in culprit order with its `.get(func, [])` tables and retrieved source, then the task |
| DeadlockScenario.RunDeadlockScenario | 17092025/query_graph.py:79-141 | no prompt exactly when the deadlock has no culprits; otherwise the prompt for a block list naming each culprit once with its tables and source |
| DeadlockScenario.RetrievalMain | 17092025/query_graph.py:143-152 | a missing graph is reported with its message and the rebuild hint; an unreadable one as unexpected; otherwise the scenario's outcome |
| GraphBuilder.TableFor | build_graph.py:68 | the table is the lock name with `DB_LOCK_` removed: INVENTORY or ORDERS |
| GraphBuilder.DefineFunction | build_graph.py:34-42 | the defined name becomes a Function node with its file and source text, and the file gets a CONTAINS edge to it; only that edge changes |
| GraphBuilder.CallEdge | build_graph.py:48-55 | outside a function, or for a callee that is not a bare name or not yet a node, nothing changes; otherwise only a CALLS edge from the current function to the callee |
| GraphBuilder.LockItem | build_graph.py:63-72 | only the two lock names act: the table node is created as DatabaseTable only when absent, and a MODIFIES edge goes from the current function to it |
| GraphBuilder.LockEdges | build_graph.py:63-72 | a `with` statement only adds or retypes MODIFIES edges from the current function to INVENTORY or ORDERS, never touches existing nodes, and creates no Function node |
| GraphBuilder.LockEdgesCover | build_graph.py:63-72 | every lock among the items ends with a MODIFIES edge to its table |
| GraphBuilder.Step | build_graph.py:32-73 | each callback only adds and keeps the graph well-formed; a node is a Function afterwards exactly when it was one or the callback defines it; leaving a definition clears the current function; a `with` outside a function changes nothing |
| GraphBuilder.Run | build_graph.py:23-73 | over a whole traversal, the graph only grows, no CAN_CAUSE edge appears, and the Function nodes are the earlier ones plus exactly the defined names |
| GraphBuilder.Implementations | build_graph.py:125-127 | IMPLEMENTS edges from the service go only to listed functions that are already nodes, and every such function gets one |
| GraphBuilder.Causes | build_graph.py:140-142 | CAN_CAUSE edges into the error come only from listed functions that are already nodes, and every such function gets one |
| GraphBuilder.ServiceEntry | build_graph.py:123-127 | one service entry: the key becomes a Service node; the only changed edges are IMPLEMENTS edges from it to functions in its own list; every listed function that is already a node gets one |
| GraphBuilder.ErrorEntry | build_graph.py:138-142 | one error entry: the key becomes an ErrorType node; the only changed edges are CAN_CAUSE edges into it from functions in its own list; every listed function that is already a node gets one |
| GraphBuilder.ServiceLinks | build_graph.py:114-127 | every key becomes a Service node; other nodes keep their attributes; the only changed edges are IMPLEMENTS edges from a key to a function listed under that key |
| GraphBuilder.ServiceLinksCover | build_graph.py:123-127 | every listed function that exists before the layer ends with an IMPLEMENTS edge from its service |
| GraphBuilder.ErrorLinks | build_graph.py:130-142 | every key becomes an ErrorType node; the only changed edges are CAN_CAUSE edges into a key from a function listed under it |
| GraphBuilder.ErrorLinksCover | build_graph.py:138-142 | every listed function that exists before the layer ends with a CAN_CAUSE edge into its error |
| GraphBuilder.ServiceKeys | build_graph.py:114-122 | the service table's keys are the seven services |
| GraphBuilder.ErrorKeys | build_graph.py:130-137 | the error table's keys are the six errors |
| GraphBuilder.ErrorTableShape | build_graph.py:130-137 | no error is listed twice, and no listed function is a service or an error |
| GraphBuilder.ListedUnderIndex | build_graph.py:130-137 | a function is listed under a key exactly when some entry with that key lists it |
| GraphBuilder.ServiceLinksNoCauses | build_graph.py:123-127 | the service layer creates no CAN_CAUSE edge |
| GraphBuilder.CulpritWasListed | build_graph.py:138-142 | a culprit after the error layer was listed under that error and was already a Function node |
| GraphBuilder.ListedIsCulprit | build_graph.py:138-142 | a listed function that is a Function node is a culprit after the error layer |
| GraphBuilder.LayeredCulprits | build_graph.py:108-142 | over a graph without CAN_CAUSE edges, the culprits of a table error after both layers are exactly its listed Function nodes |
| GraphBuilder.BuiltCulprits | build_graph.py:86-142 | in a graph built from empty, the culprits of a table error are exactly its listed functions that the file defines |
| GraphBuilder.CodeVisitor.constructor | build_graph.py:27-30 | the visitor shares the given graph and starts outside any function |
| GraphBuilder.CodeVisitor.VisitFunctionDef | build_graph.py:32-42 | the visitor's state becomes the Step for entering a definition |
| GraphBuilder.CodeVisitor.EndFunctionDef | build_graph.py:46 | the current function is cleared |
| GraphBuilder.CodeVisitor.VisitCall | build_graph.py:48-55 | the visitor's state becomes the Step for the call |
| GraphBuilder.CodeVisitor.VisitWith | build_graph.py:57-73 | the visitor's state becomes the Step for the `with` statement, item by item |
| GraphBuilder.CodeVisitor.Visit | build_graph.py:100-101 | the visitor's state becomes Run over the whole traversal |
| GraphBuilder.CodeGraphBuilder.Create | build_graph.py:79-84 | a missing path fails with "Source file not found: <path>"; otherwise a fresh builder with an empty graph |
| GraphBuilder.CodeGraphBuilder.Build | build_graph.py:86-106 | the text is kept, and the graph becomes the File node, then the visitor's insertions, then both mapping layers |
| GraphBuilder.CodeGraphBuilder.AddManualMappings | build_graph.py:108-142 | the graph becomes the service layer followed by the error layer |
| GraphBuilder.CodeGraphBuilder.AddServiceEntry | build_graph.py:124-127 | the inner loop over one service's functions computes that entry |
| GraphBuilder.CodeGraphBuilder.AddServiceLinks | build_graph.py:123-127 | the loop over the service table computes the service layer |
| GraphBuilder.CodeGraphBuilder.AddErrorEntry | build_graph.py:139-142 | the inner loop over one error's functions computes that entry |
| GraphBuilder.CodeGraphBuilder.AddErrorLinks | build_graph.py:138-142 | the loop over the error table computes the error layer |
| Ecommerce.AffectedIn | 17092025/enhanced_ecommerce_runner.py:490-501 | the entries name exactly the services that are not running, once each and in table order, each with that service's status, port and version |
| Ecommerce.NotRunning | 17092025/enhanced_ecommerce_runner.py:717 | the recovery candidates are exactly the services that are not running |
| Ecommerce.HealthyIffAllRunning | 17092025/enhanced_ecommerce_runner.py:625-647 | the overall status is HEALTHY exactly when every service is running |
| Ecommerce.CountsCoverNotRunning | 17092025/enhanced_ecommerce_runner.py:625-647 | critical plus degraded counts equal the number of services that are not running |
| Ecommerce.LastNotRunningDecides | 17092025/enhanced_ecommerce_runner.py:625-647 | for every table, the overall status is HEALTHY when no service is not running, and otherwise the category of the last service that is not running, whatever the others are |
| Ecommerce.LastNotWorst | 17092025/enhanced_ecommerce_runner.py:636-647 | an instance of that rule: a critical service followed by a degraded one reports DEGRADED, with one critical service counted |
| Ecommerce.NoCriticalWhenReachable | 17092025/enhanced_ecommerce_runner.py:251-478 | when every service is running or degraded, the critical count is 0 and the report is never CRITICAL |
| Ecommerce.RecoverIsOneStep | 17092025/enhanced_ecommerce_runner.py:720-732 | recovery moves a service that is not running exactly one step along down→critical→degraded→running |
| Ecommerce.AccessLogStatus | 17092025/enhanced_ecommerce_runner.py:553-563 | the logged code is one of the codes fixed for the status of the service on that port |
| Ecommerce.AccessLogFollowsHealth | 17092025/enhanced_ecommerce_runner.py:553-563 | the port's position names the service listening on it; running gives a code below 500; critical or down give 5xx; degraded gives 200 or 5xx |
| Ecommerce.MissingHandlers | 17092025/enhanced_ecommerce_runner.py:171-248 | a catalogue scenario has no incident method exactly when it is one of the seven unimplemented ones |
| Ecommerce.DegradingHandlers | 17092025/enhanced_ecommerce_runner.py:251-302 | only the connection leak and the connection timeout degrade a service, and both name a service of the table |
| Ecommerce.EcommercePlatform.constructor | 17092025/enhanced_ecommerce_runner.py:79-90 | six running services with their ports and versions, and no current incident |
| Ecommerce.EcommercePlatform.GetAffectedServices | 17092025/enhanced_ecommerce_runner.py:490-501 | the loop returns the affected services in table order |
| Ecommerce.EcommercePlatform.HealthCheck | 17092025/enhanced_ecommerce_runner.py:621-653 | the loop's overall status and two counters are those of the table, so the status is decided by the last service that is not running and the counters add up to the services that are not running |
| Ecommerce.EcommercePlatform.SaveIncidentMetadata | 17092025/enhanced_ecommerce_runner.py:148-169 | the current incident becomes an open record with the given type, service and severity and the affected services of the moment; statuses are unchanged |
| Ecommerce.EcommercePlatform.RaiseIncident | 17092025/enhanced_ecommerce_runner.py:251-302 | an incident method saves its incident and, for the two that do, sets only its own service to degraded |
| Ecommerce.EcommercePlatform.SimulateIncident | 17092025/enhanced_ecommerce_runner.py:171-248 | the picked scenario's method runs; a scenario without one fails and changes nothing |
| Ecommerce.EcommercePlatform.SimulateRecoveryScenario | 17092025/enhanced_ecommerce_runner.py:712-738 | nothing changes when every service runs; otherwise only the picked service moves one step, and the current incident is marked resolved by this step exactly when it names that service and the service now runs; otherwise it is unchanged |

## Left out

- GraphML reading and writing (`read_graphml`, `write_graphml`, `save_graph`) and checks that a file exists. The file system is a parameter:
  - for the engine, a map from path to a parsed graph or a reader error;
  - for the builder, a set of existing paths.
- Python's `ast` parser, `astunparse` and the matplotlib visualisation. A parsed file is the sequence of visitor callbacks its tree produces, and a definition's text is an opaque string.
- `CodeGraphBuilder.Build`: a file that `ast.parse` rejects is not modelled; the callbacks are given.
- The order in which networkx yields predecessors and successors. The engine's lists are stated as duplicate-free sequences whose elements are exactly the expected sets. The order itself is not stated.
- Node and edge `type` strings other than the five of each kind. A node without a `type` attribute has no kind. A GraphML file holding other strings is not represented.
- All printing and logging: the progress lines of the retrieval script, the simulator's log lines and the access-log line format. `RunDeadlockScenario` returns the prompt it would print.
- The crewai `@tool` decorator, 17092025/mcp_server.py, mcp_host_gradio.py and llm_provider.py. These are agent orchestration, HTTP streaming, UI and environment configuration.
- From the simulator, these are left out:
  - logging setup and the incident JSON file;
  - uuid identifiers, which become a parameter, and timestamps;
  - fingerprints, incident details, `get_current_metrics`, `generate_metrics`, `generate_business_impact_data` and `create_rag_knowledge_structure`;
  - the threaded load test (`run_load_test`, `_simulate_request`) and the driver loop;
  - the `database_connection_pool` and `redis_connections` fields, which the modelled core never reads.
- Ecommerce.AccessLogStatus: the weights of `random.choices` are not modelled; the pick is an index parameter.
- Ecommerce.EcommercePlatform.SimulateIncident: the random picks of category and scenario are index parameters. The incident methods' log lines and detail dictionaries are not modelled.
- Ecommerce.EcommercePlatform.SimulateRecoveryScenario: `random.choice` is an index parameter into the recovery candidates.
