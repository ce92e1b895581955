/** The graph builder: a visitor walks the parsed application and turns what
    it meets into node and edge insertions on a shared `DiGraph`, then a layer
    of hand-written knowledge links services to the functions implementing them
    and functions to the errors they can cause.

    The syntax tree is abstracted into the sequence of visitor callbacks it
    produces, in visiting order: entering a function definition, leaving it
    once its body has been visited, a call, and a `with` statement. The text of
    a definition (what the unparser prints) is an opaque string. */
module GraphBuilder {
  import opened Wrappers
  import opened CodeGraph
  import opened QueryEngine

  datatype SyntaxEvent =
    | FunctionDef(name: string, sourceCode: string)
    | EndFunctionDef
      /** `callee` is the name called when the called expression is a bare name. */
    | Call(callee: Option<string>)
      /** One entry per `with` item: the name when the context expression is a bare name. */
    | With(items: seq<Option<string>>)

  /** What the visitor knows: the graph so far and `current_function`. */
  datatype VisitState = VisitState(graph: Graph, current: Option<string>)

  const FileAttrs := NodeAttrs(Some(File), None, None)
  const ServiceAttrs := NodeAttrs(Some(Service), None, None)
  const ErrorAttrs := NodeAttrs(Some(ErrorType), None, None)
  const TableAttrs := NodeAttrs(Some(DatabaseTable), None, None)

  function FunctionAttrs(filepath: string, sourceCode: string): NodeAttrs {
    NodeAttrs(Some(Function), Some(filepath), Some(sourceCode))
  }

  /** Python truthiness of `current_function`: set and not empty. */
  predicate InFunction(current: Option<string>) {
    current.Some? && current.value != ""
  }

  /** No edge of the graph is a CAN_CAUSE edge. */
  predicate NoCauses(g: Graph) {
    forall e :: e in g.edges ==> g.edges[e] != CanCause
  }

  /** The edge `k` is new in `r`, or carries a different type than in `g`. */
  predicate EdgeChanged(g: Graph, r: Graph, k: (string, string)) {
    k in r.edges && (k !in g.edges || r.edges[k] != g.edges[k])
  }

  /** The two lock variables the visitor recognises. */
  const InventoryLock := "DB_LOCK_INVENTORY"
  const OrdersLock := "DB_LOCK_ORDERS"
  const LockPrefix := "DB_LOCK_"

  predicate IsLock(name: string) {
    name == InventoryLock || name == OrdersLock
  }

  /** The table a lock guards: the lock's name with `DB_LOCK_` removed. */
  function TableFor(lock: string): (table: string)
    requires IsLock(lock)
    ensures LockPrefix + table == lock
    ensures table == "INVENTORY" || table == "ORDERS"
  {
    lock[|LockPrefix|..]
  }

  /** One `with` item: a lock gives a MODIFIES edge from `func` to its table,
      the table node being created only when absent; anything else is skipped. */
  function LockItem(g: Graph, func: string, item: Option<string>): (r: Graph)
    ensures g.nodes.Keys <= r.nodes.Keys && g.edges.Keys <= r.edges.Keys
    ensures forall x :: x in g.nodes ==> r.nodes[x] == g.nodes[x]
    ensures forall x :: x in r.nodes && x !in g.nodes ==> r.nodes[x].kind != Some(Function)
    ensures forall k :: EdgeChanged(g, r, k) ==>
      k.0 == func && (k.1 == "INVENTORY" || k.1 == "ORDERS") && r.edges[k] == Modifies
    ensures item.Some? && IsLock(item.value) ==>
      && EdgeKind(r, func, TableFor(item.value)) == Some(Modifies)
      && KindOf(r, TableFor(item.value)) == (if TableFor(item.value) in g.nodes then KindOf(g, TableFor(item.value)) else Some(DatabaseTable))
    ensures WellFormed(g) ==> WellFormed(r)
  {
    if item.Some? && IsLock(item.value) then
      var table := TableFor(item.value);
      var withTable := if table in g.nodes then g else WithNode(g, table, TableAttrs);
      WithEdge(withTable, func, table, Modifies)
    else g
  }

  /** The items of one `with` statement, in order. */
  function LockEdges(g: Graph, func: string, items: seq<Option<string>>): (r: Graph)
    ensures g.nodes.Keys <= r.nodes.Keys && g.edges.Keys <= r.edges.Keys
    ensures forall x :: x in g.nodes ==> r.nodes[x] == g.nodes[x]
    ensures forall x :: x in r.nodes && x !in g.nodes ==> r.nodes[x].kind != Some(Function)
    ensures forall k :: EdgeChanged(g, r, k) ==>
      k.0 == func && (k.1 == "INVENTORY" || k.1 == "ORDERS") && r.edges[k] == Modifies
    ensures WellFormed(g) ==> WellFormed(r)
    decreases |items|
  {
    if items == [] then g
    else
      var prev := LockEdges(g, func, items[..|items| - 1]);
      var r := LockItem(prev, func, items[|items| - 1]);
      assert forall k :: EdgeChanged(g, r, k) ==> EdgeChanged(g, prev, k) || EdgeChanged(prev, r, k);
      r
  }

  /** Every lock among the items ends with a MODIFIES edge to its table. */
  lemma {:induction false} LockEdgesCover(g: Graph, func: string, items: seq<Option<string>>, i: nat)
    requires i < |items| && items[i].Some? && IsLock(items[i].value)
    ensures EdgeKind(LockEdges(g, func, items), func, TableFor(items[i].value)) == Some(Modifies)
    decreases |items|
  {
    var init := items[..|items| - 1];
    if i < |items| - 1 {
      assert init[i] == items[i];
      LockEdgesCover(g, func, init, i);
    }
  }

  /** Entering a definition: a Function node carrying its file and text, and a
      CONTAINS edge from the file to it. */
  function DefineFunction(g: Graph, filepath: string, name: string, sourceCode: string): (r: Graph)
    ensures name in r.nodes && KindOf(r, name) == Some(Function)
    ensures r.nodes[name].file == Some(filepath) && r.nodes[name].sourceCode == Some(sourceCode)
    ensures EdgeKind(r, filepath, name) == Some(Contains)
    ensures r.nodes.Keys == g.nodes.Keys + {filepath, name}
    ensures forall x :: x in g.nodes && x != name ==> r.nodes[x] == g.nodes[x]
    ensures forall x :: x in r.nodes && x !in g.nodes && x != name ==> r.nodes[x] == NoAttrs
    ensures forall k :: EdgeChanged(g, r, k) ==> k == (filepath, name)
    ensures g.edges.Keys <= r.edges.Keys
    ensures WellFormed(g) ==> WellFormed(r)
  {
    WithEdge(WithNode(g, name, FunctionAttrs(filepath, sourceCode)), filepath, name, Contains)
  }

  /** A call inside a function: a CALLS edge to a callee that is already a
      node; calls to anything else, or outside a function, add nothing. */
  function CallEdge(g: Graph, current: Option<string>, callee: Option<string>): (r: Graph)
    ensures !InFunction(current) || callee.None? || callee.value !in g.nodes ==> r == g
    ensures g.nodes.Keys <= r.nodes.Keys && g.edges.Keys <= r.edges.Keys
    ensures forall x :: x in g.nodes ==> r.nodes[x] == g.nodes[x]
    ensures forall x :: x in r.nodes && x !in g.nodes ==> r.nodes[x] == NoAttrs
    ensures forall k :: EdgeChanged(g, r, k) ==>
      current.Some? && callee.Some? && k == (current.value, callee.value) && callee.value in g.nodes && r.edges[k] == Calls
    ensures InFunction(current) && callee.Some? && callee.value in g.nodes ==>
      EdgeKind(r, current.value, callee.value) == Some(Calls)
    ensures WellFormed(g) ==> WellFormed(r)
  {
    if InFunction(current) && callee.Some? && callee.value in g.nodes then
      WithEdge(g, current.value, callee.value, Calls)
    else g
  }

  /** One visitor callback. Leaving a definition clears the current function;
      outside a function, `with` statements add nothing. */
  function Step(filepath: string, s: VisitState, e: SyntaxEvent): (r: VisitState)
    ensures s.graph.nodes.Keys <= r.graph.nodes.Keys && s.graph.edges.Keys <= r.graph.edges.Keys
    ensures WellFormed(s.graph) ==> WellFormed(r.graph)
    ensures NoCauses(s.graph) ==> NoCauses(r.graph)
    ensures forall x :: KindOf(r.graph, x) == Some(Function) <==>
      KindOf(s.graph, x) == Some(Function) || (e.FunctionDef? && e.name == x)
    ensures r.current == (if e.FunctionDef? then Some(e.name) else if e.EndFunctionDef? then None else s.current)
    ensures e.EndFunctionDef? || (e.With? && !InFunction(s.current)) ==> r.graph == s.graph
  {
    match e
    case FunctionDef(name, sourceCode) =>
      VisitState(DefineFunction(s.graph, filepath, name, sourceCode), Some(name))
    case EndFunctionDef =>
      s.(current := None)
    case Call(callee) =>
      s.(graph := CallEdge(s.graph, s.current, callee))
    case With(items) =>
      if InFunction(s.current) then s.(graph := LockEdges(s.graph, s.current.value, items)) else s
  }

  /** A function definition among the events. */
  predicate Defined(events: seq<SyntaxEvent>, f: string) {
    exists k :: 0 <= k < |events| && events[k].FunctionDef? && events[k].name == f
  }

  /** The visitor over a whole event sequence: it only ever adds, it never
      creates a CAN_CAUSE edge, and the Function nodes afterwards are the
      earlier ones and exactly the functions defined along the way. */
  function Run(filepath: string, s: VisitState, events: seq<SyntaxEvent>): (r: VisitState)
    ensures s.graph.nodes.Keys <= r.graph.nodes.Keys && s.graph.edges.Keys <= r.graph.edges.Keys
    ensures WellFormed(s.graph) ==> WellFormed(r.graph)
    ensures NoCauses(s.graph) ==> NoCauses(r.graph)
    ensures forall x :: KindOf(r.graph, x) == Some(Function) <==>
      KindOf(s.graph, x) == Some(Function) || Defined(events, x)
    decreases |events|
  {
    if events == [] then s
    else
      var prefix := events[..|events| - 1];
      var last := events[|events| - 1];
      var prev := Run(filepath, s, prefix);
      assert forall x :: Defined(events, x) <==> Defined(prefix, x) || (last.FunctionDef? && last.name == x) by {
        forall x
          ensures Defined(events, x) <==> Defined(prefix, x) || (last.FunctionDef? && last.name == x)
        {
          if Defined(events, x) {
            var k :| 0 <= k < |events| && events[k].FunctionDef? && events[k].name == x;
            if k < |prefix| { assert prefix[k] == events[k]; }
          }
          if Defined(prefix, x) {
            var k :| 0 <= k < |prefix| && prefix[k].FunctionDef? && prefix[k].name == x;
            assert events[k] == prefix[k];
          }
        }
      }
      Step(filepath, prev, last)
  }

  /** The hand-written mapping tables: each entry a key and the functions it
      names, in the order written. */
  type Mapping = seq<(string, seq<string>)>

  const ServiceMapping: Mapping := [
    ("user-service", ["user_login"]),
    ("product-service", ["product_search"]),
    ("order-service", ["create_order", "call_payment_service_from_order_service"]),
    ("inventory-service", ["process_inventory_update"]),
    ("payment-service", ["process_payment"]),
    ("notification-service", ["send_notification"]),
    ("worker-service", ["run_heavy_computation"])
  ]

  const ErrorMapping: Mapping := [
    ("sql_injection_attempt", ["user_login"]),
    ("database_slow_queries", ["product_search"]),
    ("database_deadlock", ["create_order", "process_inventory_update"]),
    ("version_compatibility_issue", ["call_payment_service_from_order_service"]),
    ("environment_variable_missing", ["send_notification"]),
    ("thread_pool_exhaustion", ["run_heavy_computation"])
  ]

  /** The keys of a mapping table. */
  function KeysOf(m: Mapping): set<string>
    decreases |m|
  {
    if m == [] then {} else KeysOf(m[..|m| - 1]) + {m[|m| - 1].0}
  }

  /** `f` is listed under `key` in some entry of the table. */
  predicate ListedUnder(m: Mapping, key: string, f: string)
    decreases |m|
  {
    m != [] && (ListedUnder(m[..|m| - 1], key, f) || (m[|m| - 1].0 == key && f in m[|m| - 1].1))
  }

  /** IMPLEMENTS edges from `service` to each listed function that is already a node. */
  function Implementations(g: Graph, service: string, funcs: seq<string>): (r: Graph)
    requires service in g.nodes
    ensures r.nodes == g.nodes && g.edges.Keys <= r.edges.Keys
    ensures forall k :: EdgeChanged(g, r, k) ==>
      k.0 == service && k.1 in funcs && k.1 in g.nodes && r.edges[k] == Implements
    ensures forall f :: f in funcs && f in g.nodes ==> EdgeKind(r, service, f) == Some(Implements)
    ensures WellFormed(g) ==> WellFormed(r)
    decreases |funcs|
  {
    if funcs == [] then g
    else
      var prev := Implementations(g, service, funcs[..|funcs| - 1]);
      var f := funcs[|funcs| - 1];
      if f in prev.nodes then WithEdge(prev, service, f, Implements) else prev
  }

  /** CAN_CAUSE edges from each listed function that is already a node to `error`. */
  function Causes(g: Graph, error: string, funcs: seq<string>): (r: Graph)
    requires error in g.nodes
    ensures r.nodes == g.nodes && g.edges.Keys <= r.edges.Keys
    ensures forall k :: EdgeChanged(g, r, k) ==>
      k.1 == error && k.0 in funcs && k.0 in g.nodes && r.edges[k] == CanCause
    ensures forall f :: f in funcs && f in g.nodes ==> EdgeKind(r, f, error) == Some(CanCause)
    ensures WellFormed(g) ==> WellFormed(r)
    decreases |funcs|
  {
    if funcs == [] then g
    else
      var prev := Causes(g, error, funcs[..|funcs| - 1]);
      var f := funcs[|funcs| - 1];
      if f in prev.nodes then WithEdge(prev, f, error, CanCause) else prev
  }

  /** One entry of the service table: a Service node, then its links. */
  function ServiceEntry(g: Graph, service: string, funcs: seq<string>): (r: Graph)
    ensures r.nodes.Keys == g.nodes.Keys + {service}
    ensures forall x :: x in g.nodes && x != service ==> r.nodes[x] == g.nodes[x]
    ensures r.nodes[service].kind == Some(Service)
    ensures g.edges.Keys <= r.edges.Keys
    ensures forall k :: EdgeChanged(g, r, k) ==>
      k.0 == service && k.1 in funcs && (k.1 in g.nodes || k.1 == service) && r.edges[k] == Implements
    ensures forall f :: f in funcs && f in g.nodes ==> EdgeKind(r, service, f) == Some(Implements)
    ensures WellFormed(g) ==> WellFormed(r)
  {
    Implementations(WithNode(g, service, ServiceAttrs), service, funcs)
  }

  /** One entry of the error table: an ErrorType node, then its links. */
  function ErrorEntry(g: Graph, error: string, funcs: seq<string>): (r: Graph)
    ensures r.nodes.Keys == g.nodes.Keys + {error}
    ensures forall x :: x in g.nodes && x != error ==> r.nodes[x] == g.nodes[x]
    ensures r.nodes[error].kind == Some(ErrorType)
    ensures g.edges.Keys <= r.edges.Keys
    ensures forall k :: EdgeChanged(g, r, k) ==>
      k.1 == error && k.0 in funcs && (k.0 in g.nodes || k.0 == error) && r.edges[k] == CanCause
    ensures forall f :: f in funcs && f in g.nodes ==> EdgeKind(r, f, error) == Some(CanCause)
    ensures WellFormed(g) ==> WellFormed(r)
  {
    Causes(WithNode(g, error, ErrorAttrs), error, funcs)
  }

  /** The service layer: every key becomes a Service node; the only edges it
      adds or retypes are IMPLEMENTS edges out of a key to a function listed
      under that key, which existed before or is itself a key. */
  function ServiceLinks(g: Graph, m: Mapping): (r: Graph)
    ensures r.nodes.Keys == g.nodes.Keys + KeysOf(m)
    ensures forall x :: x in g.nodes && x !in KeysOf(m) ==> r.nodes[x] == g.nodes[x]
    ensures forall x :: x in KeysOf(m) ==> r.nodes[x].kind == Some(Service)
    ensures g.edges.Keys <= r.edges.Keys
    ensures forall k :: EdgeChanged(g, r, k) ==>
      k.0 in KeysOf(m) && ListedUnder(m, k.0, k.1) && (k.1 in g.nodes || k.1 in KeysOf(m)) && r.edges[k] == Implements
    ensures WellFormed(g) ==> WellFormed(r)
    decreases |m|
  {
    if m == [] then g
    else
      var prev := ServiceLinks(g, m[..|m| - 1]);
      var r := ServiceEntry(prev, m[|m| - 1].0, m[|m| - 1].1);
      assert forall k :: EdgeChanged(g, r, k) ==> EdgeChanged(g, prev, k) || EdgeChanged(prev, r, k);
      r
  }

  /** Every listed function that is a node before the service layer ends
      with an IMPLEMENTS edge from its service. */
  lemma {:induction false} ServiceLinksCover(g: Graph, m: Mapping, i: nat, f: string)
    requires i < |m| && f in m[i].1 && f in g.nodes
    ensures EdgeKind(ServiceLinks(g, m), m[i].0, f) == Some(Implements)
    decreases |m|
  {
    var init := m[..|m| - 1];
    if i < |m| - 1 {
      assert init[i] == m[i];
      ServiceLinksCover(g, init, i, f);
    }
  }

  /** The error layer: every key becomes an ErrorType node; the only edges it
      adds or retypes are CAN_CAUSE edges into a key from a function listed
      under that key, which existed before or is itself a key. */
  function ErrorLinks(g: Graph, m: Mapping): (r: Graph)
    ensures r.nodes.Keys == g.nodes.Keys + KeysOf(m)
    ensures forall x :: x in g.nodes && x !in KeysOf(m) ==> r.nodes[x] == g.nodes[x]
    ensures forall x :: x in KeysOf(m) ==> r.nodes[x].kind == Some(ErrorType)
    ensures g.edges.Keys <= r.edges.Keys
    ensures forall k :: EdgeChanged(g, r, k) ==>
      ListedUnder(m, k.1, k.0) && (k.0 in g.nodes || k.0 in KeysOf(m)) && r.edges[k] == CanCause
    ensures WellFormed(g) ==> WellFormed(r)
    decreases |m|
  {
    if m == [] then g
    else
      var prev := ErrorLinks(g, m[..|m| - 1]);
      var r := ErrorEntry(prev, m[|m| - 1].0, m[|m| - 1].1);
      assert forall k :: EdgeChanged(g, r, k) ==> EdgeChanged(g, prev, k) || EdgeChanged(prev, r, k);
      r
  }

  /** Every listed function that is a node before the error layer ends with
      a CAN_CAUSE edge into its error. */
  lemma {:induction false} ErrorLinksCover(g: Graph, m: Mapping, i: nat, f: string)
    requires i < |m| && f in m[i].1 && f in g.nodes
    ensures EdgeKind(ErrorLinks(g, m), f, m[i].0) == Some(CanCause)
    decreases |m|
  {
    var init := m[..|m| - 1];
    if i < |m| - 1 {
      assert init[i] == m[i];
      ErrorLinksCover(g, init, i, f);
    }
  }

  /** The service layer over one more entry is that entry applied last. */
  lemma ServiceLinksStep(g: Graph, m: Mapping, i: nat)
    requires i < |m|
    ensures ServiceLinks(g, m[..i + 1]) == ServiceEntry(ServiceLinks(g, m[..i]), m[i].0, m[i].1)
  {
    assert m[..i + 1][..i] == m[..i];
  }

  /** The error layer over one more entry is that entry applied last. */
  lemma ErrorLinksStep(g: Graph, m: Mapping, i: nat)
    requires i < |m|
    ensures ErrorLinks(g, m[..i + 1]) == ErrorEntry(ErrorLinks(g, m[..i]), m[i].0, m[i].1)
  {
    assert m[..i + 1][..i] == m[..i];
  }

  function ManualMappings(g: Graph): Graph {
    ErrorLinks(ServiceLinks(g, ServiceMapping), ErrorMapping)
  }

  lemma {:induction false} KeysOfIndex(m: Mapping, i: nat)
    requires i < |m|
    ensures m[i].0 in KeysOf(m)
    decreases |m|
  {
    if i < |m| - 1 {
      assert m[..|m| - 1][i] == m[i];
      KeysOfIndex(m[..|m| - 1], i);
    }
  }

  /** `f` is listed under `key` exactly when some entry with that key lists it. */
  lemma {:induction false} ListedUnderIndex(m: Mapping, key: string, f: string)
    ensures ListedUnder(m, key, f) <==> exists j :: 0 <= j < |m| && m[j].0 == key && f in m[j].1
    decreases |m|
  {
    if m != [] {
      var init := m[..|m| - 1];
      ListedUnderIndex(init, key, f);
      if exists j :: 0 <= j < |init| && init[j].0 == key && f in init[j].1 {
        var j :| 0 <= j < |init| && init[j].0 == key && f in init[j].1;
        assert m[j] == init[j];
      }
      if exists j :: 0 <= j < |m| && m[j].0 == key && f in m[j].1 {
        var j :| 0 <= j < |m| && m[j].0 == key && f in m[j].1;
        if j < |init| { assert init[j] == m[j]; }
      }
    }
  }

  const ServiceNames := {"user-service", "product-service", "order-service", "inventory-service",
                         "payment-service", "notification-service", "worker-service"}
  const ErrorNames := {"sql_injection_attempt", "database_slow_queries", "database_deadlock",
                       "version_compatibility_issue", "environment_variable_missing", "thread_pool_exhaustion"}

  lemma ServiceKeys()
    ensures KeysOf(ServiceMapping) == ServiceNames
  {
    var m := ServiceMapping;
    assert KeysOf(m) == KeysOf(m[..6]) + {"worker-service"};
    assert KeysOf(m[..6]) == KeysOf(m[..5]) + {"notification-service"} by { assert m[..6][..5] == m[..5]; }
    assert KeysOf(m[..5]) == KeysOf(m[..4]) + {"payment-service"} by { assert m[..5][..4] == m[..4]; }
    assert KeysOf(m[..4]) == KeysOf(m[..3]) + {"inventory-service"} by { assert m[..4][..3] == m[..3]; }
    assert KeysOf(m[..3]) == KeysOf(m[..2]) + {"order-service"} by { assert m[..3][..2] == m[..2]; }
    assert KeysOf(m[..2]) == KeysOf(m[..1]) + {"product-service"} by { assert m[..2][..1] == m[..1]; }
    assert KeysOf(m[..1]) == {"user-service"} by { assert m[..1][..0] == []; }
  }

  lemma ErrorKeys()
    ensures KeysOf(ErrorMapping) == ErrorNames
  {
    var n := ErrorMapping;
    assert KeysOf(n) == KeysOf(n[..5]) + {"thread_pool_exhaustion"};
    assert KeysOf(n[..5]) == KeysOf(n[..4]) + {"environment_variable_missing"} by { assert n[..5][..4] == n[..4]; }
    assert KeysOf(n[..4]) == KeysOf(n[..3]) + {"version_compatibility_issue"} by { assert n[..4][..3] == n[..3]; }
    assert KeysOf(n[..3]) == KeysOf(n[..2]) + {"database_deadlock"} by { assert n[..3][..2] == n[..2]; }
    assert KeysOf(n[..2]) == KeysOf(n[..1]) + {"database_slow_queries"} by { assert n[..2][..1] == n[..1]; }
    assert KeysOf(n[..1]) == {"sql_injection_attempt"} by { assert n[..1][..0] == []; }
  }

  /** No error is listed twice in the error table, and no function listed
      there is itself a service or an error. */
  lemma ErrorTableShape(i: nat)
    requires i < |ErrorMapping|
    ensures forall j :: 0 <= j < |ErrorMapping| && ErrorMapping[j].0 == ErrorMapping[i].0 ==> j == i
    ensures forall f :: f in ErrorMapping[i].1 ==> f !in KeysOf(ServiceMapping) && f !in KeysOf(ErrorMapping)
  {
    ServiceKeys();
    ErrorKeys();
  }

  /** What `build()` leaves in the graph: the File node, then the visitor's
      insertions, then the two mapping layers. */
  function Built(g: Graph, filepath: string, events: seq<SyntaxEvent>): Graph {
    ManualMappings(Run(filepath, VisitState(WithNode(g, filepath, FileAttrs), None), events).graph)
  }

  /** The service layer adds no CAN_CAUSE edge. */
  lemma ServiceLinksNoCauses(v: Graph, sm: Mapping)
    requires NoCauses(v)
    ensures NoCauses(ServiceLinks(v, sm))
  {
    var s1 := ServiceLinks(v, sm);
    forall k | k in s1.edges ensures s1.edges[k] != CanCause {
      if !EdgeChanged(v, s1, k) { assert v.edges[k] != CanCause; }
    }
  }

  /** A culprit after the error layer was listed under the error and was a
      Function node before. */
  lemma CulpritWasListed(s1: Graph, em: Mapping, i: nat, f: string)
    requires NoCauses(s1) && i < |em|
    requires forall j :: 0 <= j < |em| && em[j].0 == em[i].0 ==> j == i
    requires f !in KeysOf(em)
    requires f in CulpritSet(ErrorLinks(s1, em), em[i].0)
    ensures f in em[i].1 && f in s1.nodes && KindOf(s1, f) == Some(Function)
  {
    var r := ErrorLinks(s1, em);
    assert EdgeChanged(s1, r, (f, em[i].0));
    ListedUnderIndex(em, em[i].0, f);
  }

  /** A listed Function node is a culprit after the error layer. */
  lemma ListedIsCulprit(s1: Graph, em: Mapping, i: nat, f: string)
    requires i < |em| && f in em[i].1 && f !in KeysOf(em)
    requires KindOf(s1, f) == Some(Function)
    ensures f in CulpritSet(ErrorLinks(s1, em), em[i].0)
  {
    KeysOfIndex(em, i);
    ErrorLinksCover(s1, em, i, f);
  }

  /** Over any graph without CAN_CAUSE edges, the two mapping layers make the
      culprits of a table error exactly the listed functions that were
      Function nodes before, provided the error is listed once and none of
      its functions is a key of either table. */
  lemma LayeredCulprits(v: Graph, sm: Mapping, em: Mapping, i: nat)
    requires NoCauses(v) && i < |em|
    requires forall j :: 0 <= j < |em| && em[j].0 == em[i].0 ==> j == i
    requires forall f :: f in em[i].1 ==> f !in KeysOf(sm) && f !in KeysOf(em)
    ensures CulpritSet(ErrorLinks(ServiceLinks(v, sm), em), em[i].0) ==
            set f | f in em[i].1 && KindOf(v, f) == Some(Function)
  {
    var s1 := ServiceLinks(v, sm);
    ServiceLinksNoCauses(v, sm);
    forall f
      ensures f in CulpritSet(ErrorLinks(s1, em), em[i].0) <==> f in em[i].1 && KindOf(v, f) == Some(Function)
    {
      if f in CulpritSet(ErrorLinks(s1, em), em[i].0) {
        CulpritWasListed(s1, em, i, f);
      }
      if f in em[i].1 && KindOf(v, f) == Some(Function) {
        ListedIsCulprit(s1, em, i, f);
      }
    }
  }

  /** Built from an empty graph, the culprits the query engine finds for an
      error of the table are exactly the functions listed under it that the
      parsed file defines. */
  lemma BuiltCulprits(filepath: string, events: seq<SyntaxEvent>, i: nat)
    requires i < |ErrorMapping|
    ensures CulpritSet(Built(EmptyGraph, filepath, events), ErrorMapping[i].0) ==
            set f | f in ErrorMapping[i].1 && Defined(events, f)
  {
    var start := WithNode(EmptyGraph, filepath, FileAttrs);
    var v := Run(filepath, VisitState(start, None), events).graph;
    assert forall f :: KindOf(start, f) != Some(Function);
    assert forall f :: KindOf(v, f) == Some(Function) <==> Defined(events, f);
    ErrorTableShape(i);
    LayeredCulprits(v, ServiceMapping, ErrorMapping, i);
  }

  /** The visitor object: it shares the builder's graph and remembers the
      function whose body it is in. */
  class CodeVisitor {
    const graph: DiGraph
    const filepath: string
    var currentFunction: Option<string>

    function State(): VisitState
      reads this, graph
    {
      VisitState(graph.Value(), currentFunction)
    }

    constructor (graph: DiGraph, filepath: string)
      ensures this.graph == graph && this.filepath == filepath && currentFunction == None
    {
      this.graph := graph;
      this.filepath := filepath;
      currentFunction := None;
    }

    /** `visit_FunctionDef` up to the visit of the body. */
    method VisitFunctionDef(name: string, sourceCode: string)
      modifies this, graph
      ensures State() == Step(filepath, old(State()), FunctionDef(name, sourceCode))
    {
      currentFunction := Some(name);
      graph.AddNode(name, FunctionAttrs(filepath, sourceCode));
      graph.AddEdge(filepath, name, Contains);
    }

    /** The end of `visit_FunctionDef`, once the body has been visited. */
    method EndFunctionDef()
      modifies this
      ensures State() == Step(filepath, old(State()), SyntaxEvent.EndFunctionDef)
    {
      currentFunction := None;
    }

    /** `visit_Call`. */
    method VisitCall(callee: Option<string>)
      modifies graph
      ensures State() == Step(filepath, old(State()), Call(callee))
    {
      if InFunction(currentFunction) && callee.Some? {
        var calleeName := callee.value;
        if calleeName in graph.nodes {
          graph.AddEdge(currentFunction.value, calleeName, Calls);
        }
      }
    }

    /** `visit_With`. */
    method VisitWith(items: seq<Option<string>>)
      modifies graph
      ensures State() == Step(filepath, old(State()), With(items))
    {
      if !InFunction(currentFunction) {
        return;
      }
      var current := currentFunction.value;
      for i := 0 to |items|
        invariant graph.Value() == LockEdges(old(graph.Value()), current, items[..i])
      {
        var item := items[i];
        if item.Some? && IsLock(item.value) {
          var tableName := TableFor(item.value);
          if tableName !in graph.nodes {
            graph.AddNode(tableName, TableAttrs);
          }
          graph.AddEdge(current, tableName, Modifies);
        }
        assert items[..i + 1][..i] == items[..i];
      }
      assert items[..|items|] == items;
    }

    /** `visit(tree)`: every callback the tree produces, in order. */
    method Visit(events: seq<SyntaxEvent>)
      modifies this, graph
      ensures State() == Run(filepath, old(State()), events)
    {
      for i := 0 to |events|
        invariant State() == Run(filepath, old(State()), events[..i])
      {
        assert events[..i + 1][..i] == events[..i];
        match events[i] {
          case FunctionDef(name, sourceCode) => VisitFunctionDef(name, sourceCode);
          case EndFunctionDef => EndFunctionDef();
          case Call(callee) => VisitCall(callee);
          case With(items) => VisitWith(items);
        }
      }
      assert events[..|events|] == events;
    }
  }

  /** The builder: the path of the application file, its text once read, and
      the graph under construction. */
  class CodeGraphBuilder {
    const filepath: string
    const graph: DiGraph
    var sourceCode: string

    constructor (filepath: string)
      ensures this.filepath == filepath && fresh(graph) && graph.Value() == EmptyGraph && sourceCode == ""
    {
      this.filepath := filepath;
      graph := new DiGraph();
      sourceCode := "";
    }

    /** `CodeGraphBuilder(filepath)`: it refuses a path that does not exist. */
    static method Create(filepath: string, existing: set<string>) returns (r: Result<CodeGraphBuilder, string>)
      ensures filepath !in existing ==> r == Err("Source file not found: " + filepath)
      ensures filepath in existing ==>
        r.Ok? && fresh(r.value) && fresh(r.value.graph) && r.value.filepath == filepath &&
        r.value.graph.Value() == EmptyGraph && r.value.sourceCode == ""
    {
      if filepath !in existing {
        return Err("Source file not found: " + filepath);
      }
      var builder := new CodeGraphBuilder(filepath);
      r := Ok(builder);
    }

    /** `build()`: `text` is what the file holds and `events` what visiting
      its syntax tree produces. */
    method Build(text: string, events: seq<SyntaxEvent>)
      modifies this, graph
      ensures sourceCode == text
      ensures graph.Value() == Built(old(graph.Value()), filepath, events)
    {
      sourceCode := text;
      graph.AddNode(filepath, FileAttrs);
      var visitor := new CodeVisitor(graph, filepath);
      visitor.Visit(events);
      AddManualMappings();
    }

    /** `_add_manual_mappings()`: the service table, then the error table. */
    method AddManualMappings()
      modifies graph
      ensures graph.Value() == ManualMappings(old(graph.Value()))
    {
      AddServiceLinks(ServiceMapping);
      AddErrorLinks(ErrorMapping);
    }

    /** One entry of the service table: the Service node and its links. */
    method AddServiceEntry(service: string, funcs: seq<string>)
      modifies graph
      ensures graph.Value() == ServiceEntry(old(graph.Value()), service, funcs)
    {
      graph.AddNode(service, ServiceAttrs);
      for j := 0 to |funcs|
        invariant graph.Value() == Implementations(WithNode(old(graph.Value()), service, ServiceAttrs), service, funcs[..j])
      {
        if funcs[j] in graph.nodes {
          graph.AddEdge(service, funcs[j], Implements);
        }
        assert funcs[..j + 1][..j] == funcs[..j];
      }
      assert funcs[..|funcs|] == funcs;
    }

    /** The loop over the service table. */
    method AddServiceLinks(serviceMapping: Mapping)
      modifies graph
      ensures graph.Value() == ServiceLinks(old(graph.Value()), serviceMapping)
    {
      for i := 0 to |serviceMapping|
        invariant graph.Value() == ServiceLinks(old(graph.Value()), serviceMapping[..i])
      {
        ServiceLinksStep(old(graph.Value()), serviceMapping, i);
        AddServiceEntry(serviceMapping[i].0, serviceMapping[i].1);
      }
      assert serviceMapping[..|serviceMapping|] == serviceMapping;
    }

    /** One entry of the error table: the ErrorType node and its links. */
    method AddErrorEntry(error: string, funcs: seq<string>)
      modifies graph
      ensures graph.Value() == ErrorEntry(old(graph.Value()), error, funcs)
    {
      graph.AddNode(error, ErrorAttrs);
      for j := 0 to |funcs|
        invariant graph.Value() == Causes(WithNode(old(graph.Value()), error, ErrorAttrs), error, funcs[..j])
      {
        if funcs[j] in graph.nodes {
          graph.AddEdge(funcs[j], error, CanCause);
        }
        assert funcs[..j + 1][..j] == funcs[..j];
      }
      assert funcs[..|funcs|] == funcs;
    }

    /** The loop over the error table. */
    method AddErrorLinks(errorMapping: Mapping)
      modifies graph
      ensures graph.Value() == ErrorLinks(old(graph.Value()), errorMapping)
    {
      for i := 0 to |errorMapping|
        invariant graph.Value() == ErrorLinks(old(graph.Value()), errorMapping[..i])
      {
        ErrorLinksStep(old(graph.Value()), errorMapping, i);
        AddErrorEntry(errorMapping[i].0, errorMapping[i].1);
      }
      assert errorMapping[..|errorMapping|] == errorMapping;
    }
  }
}

