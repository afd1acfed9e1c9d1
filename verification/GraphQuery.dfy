/**
 `GraphQuery` (packages/forge-repo-graph/src/query.ts): a read-only query layer over
 a repository graph. The constructor fills hash indexes; the queries use them.
 */
module RepoGraph {
  import opened Text

  datatype NodeType = File | Package | App | Symbol | Route | Test | Migration | Table

  datatype Node = Node(id: string, kind: NodeType, name: string, path: Option<string>)

  datatype EdgeType =
    Imports | Exports | Calls | Defines | References | Routes | Tests | DependsOn | OwnedBy | ConnectsTo

  datatype Edge = Edge(source: string, target: string, kind: EdgeType)

  datatype Definition = Definition(name: string, file: string, nodeId: string)

  datatype CallSite = CallSite(caller: string, callee: string, file: string, line: nat)

  datatype Reference = Reference(name: string, file: string, source: string, target: Option<string>)

  datatype Graph = Graph(nodes: seq<Node>, edges: seq<Edge>, definitions: seq<Definition>,
                         references: seq<Reference>, calls: seq<CallSite>)

  // ---------------------------------------------------------------- plain scans

  /** The elements with a given key, in order. */
  function Matching<T>(xs: seq<T>, key: T -> Option<string>, k: string): seq<T> {
    if xs == [] then []
    else Matching(xs[..|xs| - 1], key, k)
         + (if key(xs[|xs| - 1]) == Some(k) then [xs[|xs| - 1]] else [])
  }

  /** A later node with the same id hides an earlier one. */
  function NodeAt(nodes: seq<Node>, id: string): Option<Node> {
    if nodes == [] then None
    else if nodes[|nodes| - 1].id == id then Some(nodes[|nodes| - 1])
    else NodeAt(nodes[..|nodes| - 1], id)
  }

  predicate HasPath(n: Node) {
    n.path.Some? && n.path.value != ""
  }

  function NodeAtPath(nodes: seq<Node>, path: string): Option<Node> {
    if nodes == [] then None
    else if HasPath(nodes[|nodes| - 1]) && nodes[|nodes| - 1].path == Some(path) then Some(nodes[|nodes| - 1])
    else NodeAtPath(nodes[..|nodes| - 1], path)
  }

  function NameOf(n: Node): Option<string> { Some(n.name) }

  function SourceOf(e: Edge): Option<string> { Some(e.source) }

  function TargetOf(e: Edge): Option<string> { Some(e.target) }

  function DefinedName(d: Definition): Option<string> { Some(d.name) }

  function DefiningFile(d: Definition): Option<string> { Some(d.file) }

  /** The node a reference resolves to, or a name made up for it. */
  function ReferredTo(r: Reference): Option<string> {
    Some(if r.target.Some? then r.target.value else "sym:" + r.file + ":" + r.name)
  }

  function ReferredFrom(r: Reference): Option<string> { Some(r.source) }

  function CallerOf(c: CallSite): Option<string> { Some(c.caller) }

  function CalleeOf(c: CallSite): Option<string> { Some(c.callee) }

  /** The node id of the first definition of a name; an empty id counts as none. */
  function SymbolId(definitions: seq<Definition>, name: string): Option<string> {
    var defs := Matching(definitions, DefinedName, name);
    if defs == [] || defs[0].nodeId == "" then None else Some(defs[0].nodeId)
  }

  /** `id` is the node of the first definition of a name. */
  ghost predicate FirstDefines(definitions: seq<Definition>, name: string, id: string) {
    exists k :: 0 <= k < |definitions| && definitions[k].name == name && definitions[k].nodeId == id
                && forall j :: 0 <= j < k ==> definitions[j].name != name
  }

  /** What a name's symbol is, said of the definitions. */
  lemma SymbolMeaning(definitions: seq<Definition>, name: string, id: string)
    ensures SymbolId(definitions, name) == Some(id) <==> id != "" && FirstDefines(definitions, name, id)
  {
    MatchingFirst(definitions, DefinedName, name);
    if FirstDefines(definitions, name, id) {
      var k :| 0 <= k < |definitions| && definitions[k].name == name && definitions[k].nodeId == id
               && forall j :: 0 <= j < k ==> definitions[j].name != name;
      assert FirstWithKey(definitions, DefinedName, name, definitions[k]);
    }
    var defs := Matching(definitions, DefinedName, name);
    if defs != [] {
      assert FirstWithKey(definitions, DefinedName, name, defs[0]);
    }
  }

  function CalleeSymbol(definitions: seq<Definition>): CallSite -> Option<string> {
    (c: CallSite) => SymbolId(definitions, c.callee)
  }

  /** Where a test edge files its test: under the target's path, or its id for want of a path. */
  function FileKey(target: Node): string {
    if target.path.Some? then target.path.value else target.id
  }

  predicate IsTestEdge(nodes: seq<Node>, e: Edge, file: string) {
    && e.kind.Tests?
    && NodeAt(nodes, e.target).Some? && FileKey(NodeAt(nodes, e.target).value) == file
    && NodeAt(nodes, e.source).Some?
  }

  /** The tests of a file in edge order, each once. */
  function TestNodes(nodes: seq<Node>, edges: seq<Edge>, file: string): seq<Node> {
    if edges == [] then []
    else
      var before := TestNodes(nodes, edges[..|edges| - 1], file);
      var e := edges[|edges| - 1];
      if IsTestEdge(nodes, e, file) then Include(before, NodeAt(nodes, e.source).value) else before
  }

  predicate HasId(ns: seq<Node>, id: string) {
    exists k :: 0 <= k < |ns| && ns[k].id == id
  }

  function Include(ns: seq<Node>, n: Node): seq<Node> {
    if HasId(ns, n.id) then ns else ns + [n]
  }

  /** The known targets of a test's own test edges, each once. */
  function SuiteFiles(nodes: seq<Node>, edges: seq<Edge>): seq<Node> {
    if edges == [] then []
    else
      var before := SuiteFiles(nodes, edges[..|edges| - 1]);
      var e := edges[|edges| - 1];
      if e.kind.Tests? && NodeAt(nodes, e.target).Some?
      then Include(before, NodeAt(nodes, e.target).value) else before
  }

  // ---------------------------------------------------------------- hash indexes

  function Bucket<T>(m: map<string, seq<T>>, k: string): seq<T> {
    if k in m then m[k] else []
  }

  /** An index answers for every key what a scan of the list answers. */
  ghost predicate Indexes<T>(m: map<string, seq<T>>, xs: seq<T>, key: T -> Option<string>) {
    forall k :: Bucket(m, k) == Matching(xs, key, k)
  }

  function Push<T>(m: map<string, seq<T>>, k: Option<string>, x: T): map<string, seq<T>> {
    if k.None? then m else m[k.value := Bucket(m, k.value) + [x]]
  }

  lemma PushIndexes<T>(m: map<string, seq<T>>, xs: seq<T>, i: nat, key: T -> Option<string>)
    requires i < |xs| && Indexes(m, xs[..i], key)
    ensures Indexes(Push(m, key(xs[i]), xs[i]), xs[..i + 1], key)
  {
    assert xs[..i + 1][..i] == xs[..i];
    forall k
      ensures Bucket(Push(m, key(xs[i]), xs[i]), k) == Matching(xs[..i + 1], key, k)
    {
      assert Bucket(m, k) == Matching(xs[..i], key, k);
    }
  }

  lemma {:induction false} MatchingMembers<T>(xs: seq<T>, key: T -> Option<string>, k: string, x: T)
    ensures x in Matching(xs, key, k) <==> x in xs && key(x) == Some(k)
    decreases |xs|
  {
    if xs != [] {
      MatchingMembers(xs[..|xs| - 1], key, k, x);
      assert xs == xs[..|xs| - 1] + [xs[|xs| - 1]];
    }
  }

  lemma {:induction false} NodeAtId(nodes: seq<Node>, id: string)
    ensures NodeAt(nodes, id).Some? ==> NodeAt(nodes, id).value.id == id && NodeAt(nodes, id).value in nodes
    ensures (exists k :: 0 <= k < |nodes| && nodes[k].id == id) ==> NodeAt(nodes, id).Some?
    decreases |nodes|
  {
    if nodes != [] {
      NodeAtId(nodes[..|nodes| - 1], id);
    }
  }

  /** `n` is the last node with the id. */
  ghost predicate LastWithId(nodes: seq<Node>, id: string, n: Node) {
    exists k :: 0 <= k < |nodes| && nodes[k] == n && n.id == id && forall j :: k < j < |nodes| ==> nodes[j].id != id
  }

  /** The last node at a path has the id; an empty path counts as none. */
  ghost predicate LastAtPath(nodes: seq<Node>, path: string, id: string) {
    && path != ""
    && exists k :: 0 <= k < |nodes| && nodes[k].path == Some(path) && nodes[k].id == id
                   && forall j :: k < j < |nodes| ==> nodes[j].path != Some(path)
  }

  /** The first node of a name has the id. */
  ghost predicate FirstOfName(nodes: seq<Node>, name: string, id: string) {
    exists k :: 0 <= k < |nodes| && nodes[k].name == name && nodes[k].id == id
                && forall j :: 0 <= j < k ==> nodes[j].name != name
  }

  ghost predicate SomeAtPath(nodes: seq<Node>, path: string) {
    path != "" && exists k :: 0 <= k < |nodes| && nodes[k].path == Some(path)
  }

  /** The id a query stands for, said of the list of nodes: its own, else by path, else by name. */
  ghost predicate StandsFor(nodes: seq<Node>, query: string, id: string) {
    && id != ""
    && if HasId(nodes, query) then id == query
       else if SomeAtPath(nodes, query) then LastAtPath(nodes, query, id)
       else FirstOfName(nodes, query, id)
  }

  /** A lookup by id gives the last node with it. */
  lemma {:induction false} NodeAtMeaning(nodes: seq<Node>, id: string)
    ensures NodeAt(nodes, id).Some? <==> HasId(nodes, id)
    ensures forall n :: NodeAt(nodes, id) == Some(n) <==> LastWithId(nodes, id, n)
    decreases |nodes|
  {
    if nodes != [] {
      var front, last := nodes[..|nodes| - 1], nodes[|nodes| - 1];
      NodeAtMeaning(front, id);
      assert forall k :: 0 <= k < |front| ==> front[k] == nodes[k];
      if last.id == id {
        assert nodes[|nodes| - 1].id == id;
        assert LastWithId(nodes, id, last);
      } else {
        assert HasId(nodes, id) <==> HasId(front, id);
        forall n
          ensures LastWithId(nodes, id, n) <==> LastWithId(front, id, n)
        {
        }
      }
    }
  }

  /** A lookup by path gives the last node there. */
  lemma {:induction false} NodeAtPathMeaning(nodes: seq<Node>, path: string)
    ensures NodeAtPath(nodes, path).Some? <==> SomeAtPath(nodes, path)
    ensures NodeAtPath(nodes, path).Some? ==> LastAtPath(nodes, path, NodeAtPath(nodes, path).value.id)
    ensures NodeAtPath(nodes, path).Some? ==> NodeAtPath(nodes, path).value in nodes
    decreases |nodes|
  {
    if nodes != [] {
      var front := nodes[..|nodes| - 1];
      NodeAtPathMeaning(front, path);
      assert forall k :: 0 <= k < |front| ==> front[k] == nodes[k];
    }
  }

  /** `x` is the first element of a list with the key. */
  ghost predicate FirstWithKey<T>(xs: seq<T>, key: T -> Option<string>, k: string, x: T) {
    exists i :: 0 <= i < |xs| && xs[i] == x && key(x) == Some(k) && forall j :: 0 <= j < i ==> key(xs[j]) != Some(k)
  }

  /** A bucket begins with the first element of its key. */
  lemma {:induction false} MatchingFirst<T>(xs: seq<T>, key: T -> Option<string>, k: string)
    ensures Matching(xs, key, k) == [] <==> forall i :: 0 <= i < |xs| ==> key(xs[i]) != Some(k)
    ensures forall x :: (Matching(xs, key, k) != [] && Matching(xs, key, k)[0] == x) <==> FirstWithKey(xs, key, k, x)
    decreases |xs|
  {
    if xs != [] {
      var front, last := xs[..|xs| - 1], xs[|xs| - 1];
      MatchingFirst(front, key, k);
      assert forall i :: 0 <= i < |front| ==> front[i] == xs[i];
      assert xs[|xs| - 1] == last;
      forall x
        ensures FirstWithKey(xs, key, k, x)
           <==> FirstWithKey(front, key, k, x) || (Matching(front, key, k) == [] && key(last) == Some(k) && x == last)
      {
        if FirstWithKey(front, key, k, x) {
          var i :| 0 <= i < |front| && front[i] == x && key(x) == Some(k)
                   && forall j :: 0 <= j < i ==> key(front[j]) != Some(k);
          assert xs[i] == x;
        }
      }
    }
  }

  lemma FirstsByName(nodes: seq<Node>, name: string)
    ensures forall id ::
      FirstOfName(nodes, name, id) <==> exists n :: FirstWithKey(nodes, NameOf, name, n) && n.id == id
  {
    forall id
      ensures FirstOfName(nodes, name, id) <==> exists n :: FirstWithKey(nodes, NameOf, name, n) && n.id == id
    {
      if FirstOfName(nodes, name, id) {
        var k :| 0 <= k < |nodes| && nodes[k].name == name && nodes[k].id == id
                 && forall j :: 0 <= j < k ==> nodes[j].name != name;
        assert FirstWithKey(nodes, NameOf, name, nodes[k]);
      }
    }
  }

  lemma LastAtPathOnce(nodes: seq<Node>, path: string)
    ensures forall a, b :: LastAtPath(nodes, path, a) && LastAtPath(nodes, path, b) ==> a == b
  {
  }

  /** Buckets keep the order of the list. */
  lemma {:induction false} MatchingConcat<T>(a: seq<T>, b: seq<T>, key: T -> Option<string>, k: string)
    ensures Matching(a + b, key, k) == Matching(a, key, k) + Matching(b, key, k)
    decreases |b|
  {
    if b == [] {
      assert a + b == a;
    } else {
      assert (a + b)[..|a + b| - 1] == a + b[..|b| - 1];
      MatchingConcat(a, b[..|b| - 1], key, k);
    }
  }

  method IndexNodes(nodes: seq<Node>)
    returns (byId: map<string, Node>, byPath: map<string, Node>, byName: map<string, seq<Node>>)
    ensures forall id :: (if id in byId then Some(byId[id]) else None) == NodeAt(nodes, id)
    ensures forall p :: (if p in byPath then Some(byPath[p]) else None) == NodeAtPath(nodes, p)
    ensures Indexes(byName, nodes, NameOf)
  {
    byId, byPath, byName := map[], map[], map[];
    for i := 0 to |nodes|
      invariant forall id :: (if id in byId then Some(byId[id]) else None) == NodeAt(nodes[..i], id)
      invariant forall p :: (if p in byPath then Some(byPath[p]) else None) == NodeAtPath(nodes[..i], p)
      invariant Indexes(byName, nodes[..i], NameOf)
    {
      var node := nodes[i];
      assert nodes[..i + 1][..i] == nodes[..i];
      PushIndexes(byName, nodes, i, NameOf);
      byId := byId[node.id := node];
      if HasPath(node) { byPath := byPath[node.path.value := node]; }
      byName := Push(byName, Some(node.name), node);
    }
    assert nodes[..|nodes|] == nodes;
  }

  method IndexEdges(edges: seq<Edge>)
    returns (outgoing: map<string, seq<Edge>>, incoming: map<string, seq<Edge>>)
    ensures Indexes(outgoing, edges, SourceOf) && Indexes(incoming, edges, TargetOf)
  {
    outgoing, incoming := map[], map[];
    for i := 0 to |edges|
      invariant Indexes(outgoing, edges[..i], SourceOf) && Indexes(incoming, edges[..i], TargetOf)
    {
      PushIndexes(outgoing, edges, i, SourceOf);
      PushIndexes(incoming, edges, i, TargetOf);
      outgoing := Push(outgoing, Some(edges[i].source), edges[i]);
      incoming := Push(incoming, Some(edges[i].target), edges[i]);
    }
    assert edges[..|edges|] == edges;
  }

  method IndexDefinitions(definitions: seq<Definition>)
    returns (byName: map<string, seq<Definition>>, byFile: map<string, seq<Definition>>)
    ensures Indexes(byName, definitions, DefinedName) && Indexes(byFile, definitions, DefiningFile)
  {
    byName, byFile := map[], map[];
    for i := 0 to |definitions|
      invariant Indexes(byName, definitions[..i], DefinedName) && Indexes(byFile, definitions[..i], DefiningFile)
    {
      PushIndexes(byName, definitions, i, DefinedName);
      PushIndexes(byFile, definitions, i, DefiningFile);
      byName := Push(byName, Some(definitions[i].name), definitions[i]);
      byFile := Push(byFile, Some(definitions[i].file), definitions[i]);
    }
    assert definitions[..|definitions|] == definitions;
  }

  method IndexReferences(references: seq<Reference>)
    returns (byTarget: map<string, seq<Reference>>, bySource: map<string, seq<Reference>>)
    ensures Indexes(byTarget, references, ReferredTo) && Indexes(bySource, references, ReferredFrom)
  {
    byTarget, bySource := map[], map[];
    for i := 0 to |references|
      invariant Indexes(byTarget, references[..i], ReferredTo) && Indexes(bySource, references[..i], ReferredFrom)
    {
      PushIndexes(byTarget, references, i, ReferredTo);
      PushIndexes(bySource, references, i, ReferredFrom);
      byTarget := Push(byTarget, ReferredTo(references[i]), references[i]);
      bySource := Push(bySource, Some(references[i].source), references[i]);
    }
    assert references[..|references|] == references;
  }

  method IndexCalls(calls: seq<CallSite>, definitions: seq<Definition>, defsByName: map<string, seq<Definition>>)
    returns (byTarget: map<string, seq<CallSite>>, bySource: map<string, seq<CallSite>>,
             bySymbol: map<string, seq<CallSite>>)
    requires Indexes(defsByName, definitions, DefinedName)
    ensures Indexes(byTarget, calls, CalleeOf) && Indexes(bySource, calls, CallerOf)
    ensures Indexes(bySymbol, calls, CalleeSymbol(definitions))
  {
    byTarget, bySource, bySymbol := map[], map[], map[];
    for i := 0 to |calls|
      invariant Indexes(byTarget, calls[..i], CalleeOf) && Indexes(bySource, calls[..i], CallerOf)
      invariant Indexes(bySymbol, calls[..i], CalleeSymbol(definitions))
    {
      var call := calls[i];
      PushIndexes(byTarget, calls, i, CalleeOf);
      PushIndexes(bySource, calls, i, CallerOf);
      PushIndexes(bySymbol, calls, i, CalleeSymbol(definitions));
      byTarget := Push(byTarget, Some(call.callee), call);
      bySource := Push(bySource, Some(call.caller), call);
      var defs := Bucket(defsByName, call.callee);
      if |defs| > 0 && defs[0].nodeId != "" {
        bySymbol := Push(bySymbol, Some(defs[0].nodeId), call);
      }
    }
    assert calls[..|calls|] == calls;
  }

  method IndexTests(nodes: seq<Node>, edges: seq<Edge>, byId: map<string, Node>)
    returns (tests: map<string, seq<Node>>)
    requires forall id :: (if id in byId then Some(byId[id]) else None) == NodeAt(nodes, id)
    ensures forall f :: Bucket(tests, f) == TestNodes(nodes, edges, f)
  {
    tests := map[];
    for i := 0 to |edges|
      invariant forall f :: Bucket(tests, f) == TestNodes(nodes, edges[..i], f)
    {
      var edge := edges[i];
      assert edges[..i + 1][..i] == edges[..i];
      assert (if edge.target in byId then Some(byId[edge.target]) else None) == NodeAt(nodes, edge.target);
      assert (if edge.source in byId then Some(byId[edge.source]) else None) == NodeAt(nodes, edge.source);
      if !edge.kind.Tests? { continue; }
      if edge.target !in byId { continue; }
      var key := FileKey(byId[edge.target]);
      var bucket := Bucket(tests, key);
      if edge.source in byId {
        bucket := Include(bucket, byId[edge.source]);
      }
      tests := tests[key := bucket];
    }
    assert edges[..|edges|] == edges;
  }

  // ---------------------------------------------------------------- walks

  predicate Known(g: Graph, id: string) {
    NodeAt(g.nodes, id).Some?
  }

  /** `es` is a chain of edges of the graph from `a` to `b` through known nodes. */
  ghost predicate Walk(g: Graph, a: string, es: seq<Edge>, b: string)
    decreases |es|
  {
    if es == [] then a == b
    else
      var e := es[|es| - 1];
      e in g.edges && e.target == b && Known(g, b) && Walk(g, a, es[..|es| - 1], e.source)
  }

  lemma WalkStep(g: Graph, a: string, es: seq<Edge>, e: Edge)
    requires Walk(g, a, es, e.source) && e in g.edges && Known(g, e.target)
    ensures Walk(g, a, es + [e], e.target)
  {
    assert (es + [e])[..|es|] == es;
  }

  /** The nodes along a chain of edges. */
  predicate Traces(g: Graph, a: string, es: seq<Edge>, ns: seq<Node>) {
    && |ns| == |es| + 1 && NodeAt(g.nodes, a) == Some(ns[0])
    && forall k :: 0 <= k < |es| ==> NodeAt(g.nodes, es[k].target) == Some(ns[k + 1])
  }

  lemma TracesStep(g: Graph, a: string, es: seq<Edge>, ns: seq<Node>, e: Edge, n: Node)
    requires Traces(g, a, es, ns) && NodeAt(g.nodes, e.target) == Some(n)
    ensures Traces(g, a, es + [e], ns + [n])
  {
  }

  /** One entry of the search queue. */
  datatype Entry = Entry(id: string, path: seq<Node>, edges: seq<Edge>)

  function Bound(maxDepth: Option<int>): int {
    match maxDepth case None => 4 case Some(n) => n
  }

  ghost function OpenIds(queue: seq<Entry>): set<string> {
    set k | 0 <= k < |queue| :: queue[k].id
  }

  datatype DependencyPath = DependencyPath(nodes: seq<Node>, edges: seq<Edge>)

  /** The entry was reached by a chain as long as the recorded distance. */
  ghost predicate Reached(g: Graph, a: string, dist: map<string, nat>, q: Entry) {
    && q.id in dist && |q.edges| == dist[q.id]
    && Walk(g, a, q.edges, q.id) && Traces(g, a, q.edges, q.path)
  }

  /** The queue holds reached nodes in order of distance, over two neighbouring levels at most. */
  ghost predicate Layered(g: Graph, a: string, dist: map<string, nat>, queue: seq<Entry>, level: nat) {
    && (forall k :: 0 <= k < |queue| ==> Reached(g, a, dist, queue[k]) && level <= dist[queue[k].id] <= level + 1)
    && forall k, j :: 0 <= k < j < |queue| ==> dist[queue[k].id] <= dist[queue[j].id]
  }

  lemma Pop(g: Graph, a: string, dist: map<string, nat>, queue: seq<Entry>, level: nat)
    requires queue != [] && Layered(g, a, dist, queue, level)
    ensures Reached(g, a, dist, queue[0])
    ensures forall x :: x in OpenIds(queue) ==> x in dist && dist[queue[0].id] <= dist[x]
    ensures Layered(g, a, dist, queue[1..], dist[queue[0].id])
    ensures OpenIds(queue) == OpenIds(queue[1..]) + {queue[0].id}
  {
    var rest := queue[1..];
    forall x | x in OpenIds(queue)
      ensures x in OpenIds(rest) + {queue[0].id}
    {
      var k :| 0 <= k < |queue| && queue[k].id == x;
      assert k > 0 ==> rest[k - 1].id == x;
    }
    assert forall k :: 0 <= k < |rest| ==> rest[k] == queue[k + 1];
  }

  lemma Append(g: Graph, a: string, dist: map<string, nat>, queue: seq<Entry>, level: nat, q: Entry)
    requires Layered(g, a, dist, queue, level) && q.id !in dist
    requires |q.edges| == level + 1 && Walk(g, a, q.edges, q.id) && Traces(g, a, q.edges, q.path)
    ensures Layered(g, a, dist[q.id := level + 1], queue + [q], level)
    ensures OpenIds(queue + [q]) == OpenIds(queue) + {q.id}
  {
    OpenIdsSnoc(queue, q);
    var longer := queue + [q];
    assert forall k :: 0 <= k < |queue| ==> longer[k] == queue[k];
  }

  /** No chain is shorter than the recorded distance. */
  ghost predicate Shortest(g: Graph, a: string, dist: map<string, nat>) {
    && a in dist && dist[a] == 0
    && forall es, x :: Walk(g, a, es, x) && x in dist ==> dist[x] <= |es|
  }

  /** Every neighbour of a visited node is visited, unless the node is still open or at the depth bound. */
  ghost predicate Explored(g: Graph, dist: map<string, nat>, open: set<string>, bound: int) {
    forall e :: e in g.edges && e.source in dist && e.source !in open && dist[e.source] < bound && Known(g, e.target)
            ==> e.target in dist && dist[e.target] <= dist[e.source] + 1
  }

  /** With every open node at distance d or more, chains of at most d edges end in visited nodes. */
  lemma {:induction false} Frontier(g: Graph, a: string, dist: map<string, nat>, open: set<string>, bound: int,
                                    d: int, es: seq<Edge>, b: string)
    requires Shortest(g, a, dist) && Explored(g, dist, open, bound)
    requires forall x :: x in open && x in dist ==> d <= dist[x]
    requires d <= bound && Walk(g, a, es, b) && |es| <= d
    ensures b in dist && dist[b] <= |es|
    decreases |es|
  {
    if es != [] {
      Frontier(g, a, dist, open, bound, d, es[..|es| - 1], es[|es| - 1].source);
    }
  }

  /** A node not yet visited is at distance d + 1 when an edge leads to it from a node at distance d. */
  lemma Discover(g: Graph, a: string, dist: map<string, nat>, seen: map<string, nat>, open: set<string>, bound: int,
                 d: nat, es: seq<Edge>, e: Edge)
    requires Shortest(g, a, seen) && Explored(g, seen, open, bound) && d <= bound
    requires forall x :: x in open && x in seen ==> d <= seen[x]
    requires Shortest(g, a, dist) && seen.Keys <= dist.Keys && e.target !in dist
    requires Walk(g, a, es, e.source) && |es| == d && e in g.edges && Known(g, e.target)
    ensures Walk(g, a, es + [e], e.target)
    ensures forall f :: Walk(g, a, f, e.target) ==> d + 1 <= |f|
    ensures Shortest(g, a, dist[e.target := d + 1])
  {
    WalkStep(g, a, es, e);
    forall f | Walk(g, a, f, e.target)
      ensures d + 1 <= |f|
    {
      if |f| <= d { Frontier(g, a, seen, open, bound, d, f, e.target); }
    }
  }

  /** A chain from `a` to `b` with its nodes, no longer than any other, and within the bound unless empty. */
  ghost predicate IsShortestPath(g: Graph, a: string, b: string, bound: int, p: DependencyPath) {
    && Walk(g, a, p.edges, b) && Traces(g, a, p.edges, p.nodes)
    && (a != b ==> |p.edges| <= bound)
    && forall es :: Walk(g, a, es, b) ==> |p.edges| <= |es|
  }

  ghost predicate NoPathWithin(g: Graph, a: string, b: string, bound: int) {
    forall es :: Walk(g, a, es, b) ==> |es| > bound
  }

  lemma NothingOpen(g: Graph, a: string, b: string, dist: map<string, nat>, bound: int)
    requires Shortest(g, a, dist) && Explored(g, dist, {}, bound) && b !in dist
    ensures NoPathWithin(g, a, b, bound)
  {
    forall es | Walk(g, a, es, b)
      ensures |es| > bound
    {
      if |es| <= bound { Frontier(g, a, dist, {}, bound, bound, es, b); }
    }
  }

  lemma WaitingFar(g: Graph, a: string, dist: map<string, nat>, queue: seq<Entry>, level: nat)
    requires Layered(g, a, dist, queue, level)
    ensures forall x :: x in OpenIds(queue) ==> x in dist && level <= dist[x]
  {
  }

  /** A newly visited node is open, so nothing is required of its neighbours yet. */
  lemma ExploredGrows(g: Graph, dist: map<string, nat>, x: string, d: nat, open: set<string>, bound: int)
    requires Explored(g, dist, open, bound) && x !in dist
    ensures Explored(g, dist[x := d], open + {x}, bound)
  {
  }

  lemma OpenIdsSnoc(queue: seq<Entry>, q: Entry)
    ensures OpenIds(queue + [q]) == OpenIds(queue) + {q.id}
  {
    assert forall k :: 0 <= k < |queue| ==> (queue + [q])[k] == queue[k];
    assert (queue + [q])[|queue|] == q;
    forall x | x in OpenIds(queue)
      ensures x in OpenIds(queue + [q])
    {
      var k :| 0 <= k < |queue| && queue[k].id == x;
      assert (queue + [q])[k].id == x;
    }
  }

  /** The known targets of the first n edges are visited. */
  ghost predicate LookedAt(g: Graph, dist: map<string, nat>, outgoing: seq<Edge>, n: nat)
    requires n <= |outgoing|
  {
    forall k :: 0 <= k < n && Known(g, outgoing[k].target) ==> outgoing[k].target in dist
  }

  lemma LookedAtNext(g: Graph, dist: map<string, nat>, after: map<string, nat>, outgoing: seq<Edge>, n: nat)
    requires n < |outgoing| && LookedAt(g, dist, outgoing, n) && dist.Keys <= after.Keys
    requires Known(g, outgoing[n].target) ==> outgoing[n].target in after
    ensures LookedAt(g, after, outgoing, n + 1)
  {
  }

  /** Once all its outgoing edges are looked at, the head of the queue need not be open. */
  lemma HeadExplored(g: Graph, a: string, dist: map<string, nat>, open: set<string>, bound: int,
                     head: Entry, outgoing: seq<Edge>)
    requires Shortest(g, a, dist) && Reached(g, a, dist, head)
    requires Explored(g, dist, open + {head.id}, bound)
    requires outgoing == Matching(g.edges, SourceOf, head.id)
    requires LookedAt(g, dist, outgoing, |outgoing|)
    ensures Explored(g, dist, open, bound)
  {
    forall e | e in g.edges && e.source == head.id && Known(g, e.target)
      ensures e.target in dist && dist[e.target] <= dist[head.id] + 1
    {
      MatchingMembers(g.edges, SourceOf, head.id, e);
      WalkStep(g, a, head.edges, e);
    }
  }

  /** Everything one newly visited neighbour of the head changes; `open` are the head and the queue. */
  lemma Advance(g: Graph, a: string, dist: map<string, nat>, seen: map<string, nat>, open0: set<string>,
                open: set<string>, bound: int, level: nat, head: Entry, queue: seq<Entry>, e: Edge, next: Entry)
    requires level < bound && Shortest(g, a, seen) && Explored(g, seen, open0, bound)
    requires forall x :: x in open0 && x in seen ==> level <= seen[x]
    requires seen.Keys <= dist.Keys && Shortest(g, a, dist) && Reached(g, a, dist, head) && dist[head.id] == level
    requires Layered(g, a, dist, queue, level) && Explored(g, dist, open, bound)
    requires open == OpenIds(queue) + {head.id}
    requires e in g.edges && e.source == head.id && Known(g, e.target) && e.target !in dist
    requires next == Entry(e.target, head.path + [NodeAt(g.nodes, e.target).value], head.edges + [e])
    ensures IsShortestPath(g, a, e.target, bound, DependencyPath(next.path, next.edges))
    ensures Shortest(g, a, dist[e.target := level + 1]) && Reached(g, a, dist[e.target := level + 1], head)
    ensures Layered(g, a, dist[e.target := level + 1], queue + [next], level)
    ensures Explored(g, dist[e.target := level + 1], open + {e.target}, bound)
    ensures open + {e.target} == OpenIds(queue + [next]) + {head.id}
    ensures dist[e.target := level + 1].Keys == dist.Keys + {e.target}
  {
    Discover(g, a, dist, seen, open0, bound, level, head.edges, e);
    TracesStep(g, a, head.edges, head.path, e, NodeAt(g.nodes, e.target).value);
    ExploredGrows(g, dist, next.id, level + 1, open, bound);
    Append(g, a, dist, queue, level, next);
  }

  class GraphQuery {
    const graph: Graph
    const nodesById: map<string, Node>
    const nodesByPath: map<string, Node>
    const nodesByName: map<string, seq<Node>>
    const outgoingBySource: map<string, seq<Edge>>
    const incomingByTarget: map<string, seq<Edge>>
    const defsByName: map<string, seq<Definition>>
    const defsByFile: map<string, seq<Definition>>
    const refsByTarget: map<string, seq<Reference>>
    const refsBySource: map<string, seq<Reference>>
    const callsByTarget: map<string, seq<CallSite>>
    const callsBySource: map<string, seq<CallSite>>
    const callsBySymbol: map<string, seq<CallSite>>
    const testsByTargetFile: map<string, seq<Node>>

    function ById(id: string): Option<Node> {
      if id in nodesById then Some(nodesById[id]) else None
    }

    function ByPath(path: string): Option<Node> {
      if path in nodesByPath then Some(nodesByPath[path]) else None
    }

    /** Every index answers what a scan of the raw graph answers. */
    ghost predicate Valid() {
      && (forall id :: ById(id) == NodeAt(graph.nodes, id))
      && (forall path :: ByPath(path) == NodeAtPath(graph.nodes, path))
      && Indexes(nodesByName, graph.nodes, NameOf)
      && Indexes(outgoingBySource, graph.edges, SourceOf)
      && Indexes(incomingByTarget, graph.edges, TargetOf)
      && Indexes(defsByName, graph.definitions, DefinedName)
      && Indexes(defsByFile, graph.definitions, DefiningFile)
      && Indexes(refsByTarget, graph.references, ReferredTo)
      && Indexes(refsBySource, graph.references, ReferredFrom)
      && Indexes(callsByTarget, graph.calls, CalleeOf)
      && Indexes(callsBySource, graph.calls, CallerOf)
      && Indexes(callsBySymbol, graph.calls, CalleeSymbol(graph.definitions))
      && (forall f :: Bucket(testsByTargetFile, f) == TestNodes(graph.nodes, graph.edges, f))
    }

    constructor (g: Graph)
      ensures graph == g && Valid()
    {
      var byId, byPath, byName := IndexNodes(g.nodes);
      var outgoing, incoming := IndexEdges(g.edges);
      var defs, inFile := IndexDefinitions(g.definitions);
      var toTarget, fromSource := IndexReferences(g.references);
      var calls, made, symbols := IndexCalls(g.calls, g.definitions, defs);
      var tests := IndexTests(g.nodes, g.edges, byId);
      graph := g;
      nodesById, nodesByPath, nodesByName := byId, byPath, byName;
      outgoingBySource, incomingByTarget := outgoing, incoming;
      defsByName, defsByFile := defs, inFile;
      refsByTarget, refsBySource := toTarget, fromSource;
      callsByTarget, callsBySource, callsBySymbol := calls, made, symbols;
      testsByTargetFile := tests;
    }

    /** An id stands for itself, else a path, else a name; an empty result counts as none. */
    function Resolve(query: string): (r: Option<string>)
      requires Valid()
      ensures forall id :: r == Some(id) <==> StandsFor(graph.nodes, query, id)
      ensures r.Some? ==> Known(graph, r.value)
    {
      assert ById(query) == NodeAt(graph.nodes, query);
      assert ByPath(query) == NodeAtPath(graph.nodes, query);
      assert Bucket(nodesByName, query) == Matching(graph.nodes, NameOf, query);
      NodeAtPathMeaning(graph.nodes, query);
      NodeAtMeaning(graph.nodes, query);
      MatchingFirst(graph.nodes, NameOf, query);
      FirstsByName(graph.nodes, query);
      LastAtPathOnce(graph.nodes, query);
      var named := Bucket(nodesByName, query);
      var id :=
        if ById(query).Some? then query
        else if ByPath(query).Some? then (NodeAtId(graph.nodes, ByPath(query).value.id); ByPath(query).value.id)
        else if named != [] then (NodeAtId(graph.nodes, named[0].id); named[0].id)
        else "";
      if id == "" then None else Some(id)
    }

    /** The inner loop: visit every neighbour of the node just taken from the queue. */
    method Expand(fromId: string, toId: string, head: Entry, waiting: seq<Entry>, visitedBefore: set<string>,
                  ghost distBefore: map<string, nat>, ghost level: nat, ghost bound: int)
      returns (found: Option<DependencyPath>, queue: seq<Entry>, visited: set<string>, ghost dist: map<string, nat>)
      requires Valid() && level < bound
      requires visitedBefore == distBefore.Keys && toId !in visitedBefore && visitedBefore <= nodesById.Keys
      requires Shortest(graph, fromId, distBefore) && Reached(graph, fromId, distBefore, head)
      requires distBefore[head.id] == level && Layered(graph, fromId, distBefore, waiting, level)
      requires Explored(graph, distBefore, OpenIds(waiting) + {head.id}, bound)
      ensures found.Some? ==> IsShortestPath(graph, fromId, toId, bound, found.value)
      ensures found.None? ==>
        && visited == dist.Keys && toId !in visited && visitedBefore <= visited <= nodesById.Keys
        && Shortest(graph, fromId, dist) && Layered(graph, fromId, dist, queue, level)
        && Explored(graph, dist, OpenIds(queue), bound)
        && (visited == visitedBefore ==> queue == waiting)
    {
      queue, visited, dist := waiting, visitedBefore, distBefore;
      ghost var open0 := OpenIds(waiting) + {head.id};
      ghost var open := open0;
      WaitingFar(graph, fromId, distBefore, waiting, level);
      var outgoing := Bucket(outgoingBySource, head.id);
      assert outgoing == Matching(graph.edges, SourceOf, head.id);
      for i := 0 to |outgoing|
        invariant visited == dist.Keys && toId !in visited && visitedBefore <= visited <= nodesById.Keys
        invariant Shortest(graph, fromId, dist) && Reached(graph, fromId, dist, head) && dist[head.id] == level
        invariant Layered(graph, fromId, dist, queue, level)
        invariant open == OpenIds(queue) + {head.id}
        invariant Explored(graph, dist, open, bound)
        invariant LookedAt(graph, dist, outgoing, i)
        invariant visited == visitedBefore ==> queue == waiting
      {
        var edge := outgoing[i];
        MatchingMembers(graph.edges, SourceOf, head.id, edge);
        assert ById(edge.target) == NodeAt(graph.nodes, edge.target);
        if Known(graph, edge.target) {
          LookedAtNext(graph, dist, dist[edge.target := level + 1], outgoing, i);
        }
        if edge.target in visited || !Known(graph, edge.target) {
          LookedAtNext(graph, dist, dist, outgoing, i);
        }
        if edge.target in visited { continue; }
        if edge.target !in nodesById { continue; }
        var targetNode := nodesById[edge.target];
        var next := Entry(edge.target, head.path + [targetNode], head.edges + [edge]);
        Advance(graph, fromId, dist, distBefore, open0, open, bound, level, head, queue, edge, next);
        if edge.target == toId {
          found := Some(DependencyPath(next.path, next.edges));
          return;
        }
        dist := dist[edge.target := level + 1];
        open := open + {edge.target};
        visited := visited + {edge.target};
        queue := queue + [next];
      }
      HeadExplored(graph, fromId, dist, OpenIds(queue), bound, head, outgoing);
      found := None;
    }

    /** What holds whenever the search looks at its queue. */
    ghost predicate Searching(fromId: string, toId: string, queue: seq<Entry>, visited: set<string>,
                              dist: map<string, nat>, level: nat, bound: int) {
      && visited == dist.Keys && toId !in visited && visited <= nodesById.Keys
      && Shortest(graph, fromId, dist) && Layered(graph, fromId, dist, queue, level)
      && Explored(graph, dist, OpenIds(queue), bound)
    }

    /** One round of the outer loop: the node taken from the queue is expanded unless it is at the bound. */
    method Round(fromId: string, toId: string, queueBefore: seq<Entry>, visitedBefore: set<string>,
                 ghost distBefore: map<string, nat>, ghost levelBefore: nat, bound: int)
      returns (found: Option<DependencyPath>, queue: seq<Entry>, visited: set<string>,
               ghost dist: map<string, nat>, ghost level: nat)
      requires Valid() && queueBefore != []
      requires Searching(fromId, toId, queueBefore, visitedBefore, distBefore, levelBefore, bound)
      ensures found.Some? ==> IsShortestPath(graph, fromId, toId, bound, found.value)
      ensures found.None? ==> Searching(fromId, toId, queue, visited, dist, level, bound)
      ensures found.None? ==>
        visitedBefore < visited || (visited == visitedBefore && |queue| < |queueBefore|)
    {
      var head := queueBefore[0];
      Pop(graph, fromId, distBefore, queueBefore, levelBefore);
      visited, dist, level := visitedBefore, distBefore, distBefore[head.id];
      queue := queueBefore[1..];
      found := None;
      if |head.path| - 1 >= bound {
        assert Explored(graph, dist, OpenIds(queue), bound);
        return;
      }
      found, queue, visited, dist := Expand(fromId, toId, head, queue, visited, dist, level, bound);
    }

    /** The outer loop: take nodes from the queue in order of distance. */
    method Search(fromId: string, toId: string, bound: int) returns (r: Option<DependencyPath>)
      requires Valid() && Known(graph, fromId) && fromId != toId
      ensures r.Some? ==> IsShortestPath(graph, fromId, toId, bound, r.value)
      ensures r.None? ==> NoPathWithin(graph, fromId, toId, bound)
    {
      assert ById(fromId) == NodeAt(graph.nodes, fromId);
      var visited := {fromId};
      var queue := [Entry(fromId, [nodesById[fromId]], [])];
      ghost var dist: map<string, nat> := map[fromId := 0];
      ghost var level: nat := 0;
      FirstEntry(fromId, toId, queue[0], bound);
      while queue != []
        invariant Searching(fromId, toId, queue, visited, dist, level, bound)
        decreases nodesById.Keys - visited, |queue|
      {
        var found;
        found, queue, visited, dist, level := Round(fromId, toId, queue, visited, dist, level, bound);
        if found.Some? { return found; }
      }
      NothingOpen(graph, fromId, toId, dist, bound);
      return None;
    }

    lemma FirstEntry(fromId: string, toId: string, first: Entry, bound: int)
      requires Valid() && Known(graph, fromId) && fromId != toId
      requires first == Entry(fromId, [NodeAt(graph.nodes, fromId).value], [])
      ensures Searching(fromId, toId, [first], {fromId}, map[fromId := 0], 0, bound)
    {
      assert ById(fromId) == NodeAt(graph.nodes, fromId);
      OpenIdsSnoc([], first);
      assert [] + [first] == [first];
    }

    /**
     Breadth-first search over outgoing edges. The path found is a shortest one; none is
     found exactly when an end stands for nothing or every walk has more than `maxDepth` edges.
     */
    method FindDependencyPath(from: string, to: string, maxDepth: Option<int>) returns (r: Option<DependencyPath>)
      requires Valid()
      ensures r.Some? ==>
        exists a, b :: StandsFor(graph.nodes, from, a) && StandsFor(graph.nodes, to, b)
                       && IsShortestPath(graph, a, b, if maxDepth.None? then 4 else maxDepth.value, r.value)
      ensures r.None? ==>
        forall a, b :: StandsFor(graph.nodes, from, a) && StandsFor(graph.nodes, to, b) ==>
          a != b && NoPathWithin(graph, a, b, if maxDepth.None? then 4 else maxDepth.value)
    {
      var source, target := Resolve(from), Resolve(to);
      if source.None? || target.None? { return None; }
      var fromId, toId := source.value, target.value;
      if fromId == toId {
        assert ById(fromId) == NodeAt(graph.nodes, fromId);
        return Some(DependencyPath([nodesById[fromId]], []));
      }
      r := Search(fromId, toId, Bound(maxDepth));
    }

    /** Append the calls whose key was not seen yet. */
    method PushCalls(keyOf: CallSite -> string, calls: seq<CallSite>, hitsBefore: seq<CallSite>,
                     seenBefore: set<string>, ghost before: seq<CallSite>)
      returns (hits: seq<CallSite>, seen: set<string>)
      requires hitsBefore == FirstPerKey(keyOf, before) && seenBefore == Keys(keyOf, hitsBefore)
      ensures hits == FirstPerKey(keyOf, before + calls) && seen == Keys(keyOf, hits)
    {
      hits, seen := hitsBefore, seenBefore;
      assert before + calls[..0] == before;
      for i := 0 to |calls|
        invariant hits == FirstPerKey(keyOf, before + calls[..i]) && seen == Keys(keyOf, hits)
      {
        var call := calls[i];
        assert before + calls[..i + 1] == before + calls[..i] + [call];
        FirstPerKeySnoc(keyOf, before + calls[..i], call);
        KeysSnoc(keyOf, hits, call);
        var key := keyOf(call);
        if key in seen { continue; }
        seen := seen + {key};
        hits := hits + [call];
      }
      assert before + calls[..|calls|] == before + calls;
    }

    /** Look up both indexes, the first call for every key. */
    method CollectCallers(symbol: string) returns (calls: seq<CallSite>)
      requires Valid()
      ensures calls == FirstPerKey(CallKey, Listed(graph, symbol))
    {
      var named := Bucket(callsByTarget, symbol);
      assert named == Matching(graph.calls, CalleeOf, symbol);
      var seen;
      calls, seen := PushCalls(CallKey, named, [], {}, []);
      AppendNothing(named);
      var symbolNodeId := SymbolNodeId(symbol);
      if symbolNodeId.Some? {
        var resolved := Bucket(callsBySymbol, symbolNodeId.value);
        assert resolved == Matching(graph.calls, CalleeSymbol(graph.definitions), symbolNodeId.value);
        calls, seen := PushCalls(CallKey, resolved, calls, seen, named);
      }
    }

    /**
     Every caller of a symbol: the calls naming it, then those whose callee resolves to its
     node, the first call of every key, sorted.
     */
    method FindCallers(symbol: string, collate: (string, string) -> int) returns (hits: seq<CallerHit>)
      requires Valid() && Collation(collate)
      ensures CallsOf(hits) == Sort(collate, FirstPerKey(CallKey, Listed(graph, symbol)))
      ensures IsCallerList(graph.calls, CallTo(graph, symbol), CallKey, collate, CallsOf(hits))
      ensures forall i :: 0 <= i < |hits| ==> hits[i] == HitOf(graph, hits[i].call)
    {
      var calls := CollectCallers(symbol);
      var sorted := Sort(collate, calls);
      CallsListed(graph, symbol);
      FirstPerKeyForm(CallKey, Listed(graph, symbol));
      CallersSorted(graph.calls, CallTo(graph, symbol), CallKey, collate, Listed(graph, symbol), calls);
      hits := Hits(sorted);
    }

    function Hits(calls: seq<CallSite>): (hits: seq<CallerHit>)
      requires Valid()
      ensures CallsOf(hits) == calls
      ensures forall i :: 0 <= i < |hits| ==> hits[i] == HitOf(graph, hits[i].call)
    {
      var all := seq(|calls|, i requires 0 <= i < |calls| => Hit(calls[i]));
      assert CallsOf(all) == calls;
      all
    }

    /** The paths of the file nodes a pattern matches, each once. */
    method MatchedFiles(matches: string -> bool) returns (matched: seq<string>)
      ensures forall p :: p in matched <==> IsMatchedFile(graph, matches, p)
    {
      matched := [];
      for i := 0 to |graph.nodes|
        invariant forall p :: p in matched <==>
          exists k :: 0 <= k < i && IsFileAt(graph.nodes[k], p) && matches(p)
      {
        var node := graph.nodes[i];
        if !node.kind.File? || !HasPath(node) { continue; }
        if matches(node.path.value) && node.path.value !in matched {
          matched := matched + [node.path.value];
        }
      }
    }

    /** The targets of a test's own test edges, each once. */
    method CollectSuiteRelatedFiles(test: Node) returns (out: seq<Node>)
      requires Valid()
      ensures out == SuiteFiles(graph.nodes, Matching(graph.edges, SourceOf, test.id))
    {
      out := [];
      var edges := Bucket(outgoingBySource, test.id);
      assert edges == Matching(graph.edges, SourceOf, test.id);
      for i := 0 to |edges|
        invariant out == SuiteFiles(graph.nodes, edges[..i])
      {
        var edge := edges[i];
        assert edges[..i + 1][..i] == edges[..i];
        assert ById(edge.target) == NodeAt(graph.nodes, edge.target);
        if !edge.kind.Tests? { continue; }
        if edge.target in nodesById {
          out := Include(out, nodesById[edge.target]);
        }
      }
      assert edges[..|edges|] == edges;
    }

    /** Every test with a test edge to a matching file, once, with the files its suite touches. */
    method FindAffectedTests(matches: string -> bool) returns (hits: seq<AffectedTest>)
      requires Valid()
      ensures forall id :: id in TestIds(hits) <==> IsAffected(graph, matches, id)
      ensures AllHits(graph, hits)
    {
      hits := [];
      var seen: set<string> := {};
      var matchedFiles := MatchedFiles(matches);
      for i := 0 to |matchedFiles|
        invariant forall id :: id in seen <==>
          exists k :: 0 <= k < i && HasId(TestNodes(graph.nodes, graph.edges, matchedFiles[k]), id)
        invariant seen == TestIds(hits) && AllHits(graph, hits)
      {
        assert Bucket(testsByTargetFile, matchedFiles[i]) == TestNodes(graph.nodes, graph.edges, matchedFiles[i]);
        hits, seen := AddTests(hits, seen, Bucket(testsByTargetFile, matchedFiles[i]), matchedFiles[i]);
      }
      forall id
        ensures id in seen <==> IsAffected(graph, matches, id)
      {
        AffectedByFiles(graph, matches, matchedFiles, id);
      }
    }

    /** The inner loop: the tests of one file not seen before. */
    method AddTests(before: seq<AffectedTest>, seenBefore: set<string>, tests: seq<Node>, ghost file: string)
      returns (hits: seq<AffectedTest>, seen: set<string>)
      requires Valid() && tests == TestNodes(graph.nodes, graph.edges, file)
      requires seenBefore == TestIds(before) && AllHits(graph, before)
      ensures forall id :: id in seen <==> id in seenBefore || HasId(tests, id)
      ensures seen == TestIds(hits) && AllHits(graph, hits)
    {
      hits, seen := before, seenBefore;
      TestNodesForm(graph.nodes, graph.edges, file);
      for i := 0 to |tests|
        invariant forall id :: id in seen <==> id in seenBefore || HasId(tests[..i], id)
        invariant seen == TestIds(hits) && AllHits(graph, hits)
      {
        var test := tests[i];
        HasIdSnoc(tests, i);
        if test.id in seen { continue; }
        var relatedFiles := CollectSuiteRelatedFiles(test);
        AllHitsSnoc(graph, hits, AffectedTest(test, relatedFiles));
        seen := seen + {test.id};
        hits := hits + [AffectedTest(test, relatedFiles)];
      }
      assert tests[..|tests|] == tests;
    }

    function SymbolNodeId(name: string): (id: Option<string>)
      requires Valid()
      ensures id == SymbolId(graph.definitions, name)
    {
      assert Bucket(defsByName, name) == Matching(graph.definitions, DefinedName, name);
      var defs := Bucket(defsByName, name);
      if defs == [] || defs[0].nodeId == "" then None else Some(defs[0].nodeId)
    }

    function Hit(call: CallSite): (h: CallerHit)
      requires Valid()
      ensures h == HitOf(graph, call)
    {
      assert ById("file:" + call.caller) == NodeAt(graph.nodes, "file:" + call.caller);
      var id := SymbolNodeId(call.callee);
      assert id.Some? ==> ById(id.value) == NodeAt(graph.nodes, id.value);
      CallerHit(call, ById("file:" + call.caller), if id.None? then None else ById(id.value))
    }
  }

  // ---------------------------------------------------------------- callers

  datatype CallerHit = CallerHit(call: CallSite, callerFile: Option<Node>, calleeSymbol: Option<Node>)

  function HitOf(g: Graph, call: CallSite): CallerHit {
    var id := SymbolId(g.definitions, call.callee);
    CallerHit(call, NodeAt(g.nodes, "file:" + call.caller), if id.None? then None else NodeAt(g.nodes, id.value))
  }

  /** What is told of a caller: the last node of its file's id, and of its callee's symbol. */
  lemma HitMeaning(g: Graph, call: CallSite, n: Node)
    ensures HitOf(g, call).call == call
    ensures HitOf(g, call).callerFile == Some(n) <==> LastWithId(g.nodes, "file:" + call.caller, n)
    ensures HitOf(g, call).calleeSymbol == Some(n)
       <==> n.id != "" && FirstDefines(g.definitions, call.callee, n.id) && LastWithId(g.nodes, n.id, n)
  {
    NodeAtMeaning(g.nodes, "file:" + call.caller);
    var id := SymbolId(g.definitions, call.callee);
    SymbolMeaning(g.definitions, call.callee, n.id);
    if id.Some? {
      NodeAtMeaning(g.nodes, id.value);
    }
  }

  /** The call names the symbol, or its callee resolves to the same node. */
  predicate IsCallTo(g: Graph, symbol: string, c: CallSite) {
    || c.callee == symbol
    || (SymbolId(g.definitions, symbol).Some?
        && SymbolId(g.definitions, c.callee) == SymbolId(g.definitions, symbol))
  }

  function CallTo(g: Graph, symbol: string): CallSite -> bool {
    (c: CallSite) => IsCallTo(g, symbol, c)
  }

  function CallsOf(hits: seq<CallerHit>): seq<CallSite> {
    seq(|hits|, i requires 0 <= i < |hits| => hits[i].call)
  }

  /** The key calls are told apart by. */
  function CallKey(c: CallSite): string {
    c.caller + ":" + Decimal(c.line) + ":" + c.callee
  }

  ghost function Keys(keyOf: CallSite -> string, calls: seq<CallSite>): set<string> {
    set k | 0 <= k < |calls| :: keyOf(calls[k])
  }

  /** One call for every key found in `all`. */
  ghost predicate OnePerKey(keyOf: CallSite -> string, calls: seq<CallSite>, all: seq<CallSite>) {
    && (forall k :: 0 <= k < |calls| ==> calls[k] in all)
    && (forall i, j :: 0 <= i < j < |calls| ==> keyOf(calls[i]) != keyOf(calls[j]))
    && Keys(keyOf, calls) == Keys(keyOf, all)
  }

  lemma AppendNothing<T>(xs: seq<T>)
    ensures [] + xs == xs && xs + [] == xs
  {
  }

  /** The calls whose key no earlier call has. */
  ghost function FirstPerKey(keyOf: CallSite -> string, all: seq<CallSite>): seq<CallSite> {
    if all == [] then []
    else
      var before, last := FirstPerKey(keyOf, all[..|all| - 1]), all[|all| - 1];
      if keyOf(last) in Keys(keyOf, before) then before else before + [last]
  }

  lemma FirstPerKeySnoc(keyOf: CallSite -> string, all: seq<CallSite>, c: CallSite)
    ensures FirstPerKey(keyOf, all + [c])
         == if keyOf(c) in Keys(keyOf, FirstPerKey(keyOf, all)) then FirstPerKey(keyOf, all)
            else FirstPerKey(keyOf, all) + [c]
  {
    assert (all + [c])[..|all|] == all;
  }

  lemma {:induction false} FirstPerKeyForm(keyOf: CallSite -> string, all: seq<CallSite>)
    ensures OnePerKey(keyOf, FirstPerKey(keyOf, all), all)
    decreases |all|
  {
    if all != [] {
      var front := all[..|all| - 1];
      FirstPerKeyForm(keyOf, front);
      FirstPerKeyStep(keyOf, front, all[|all| - 1], FirstPerKey(keyOf, front));
      assert front + [all[|all| - 1]] == all;
    }
  }

  lemma FirstPerKeyStep(keyOf: CallSite -> string, front: seq<CallSite>, last: CallSite, found: seq<CallSite>)
    requires found == FirstPerKey(keyOf, front) && OnePerKey(keyOf, found, front)
    ensures OnePerKey(keyOf, FirstPerKey(keyOf, front + [last]), front + [last])
  {
    FirstPerKeySnoc(keyOf, front, last);
    OnePerKeyNext(keyOf, found, front, last);
  }

  ghost predicate IsFirst(keyOf: CallSite -> string, all: seq<CallSite>, i: nat) {
    i < |all| && forall j :: 0 <= j < i ==> keyOf(all[j]) != keyOf(all[i])
  }

  ghost predicate IsFirstCall(keyOf: CallSite -> string, all: seq<CallSite>, c: CallSite) {
    exists i: nat :: IsFirst(keyOf, all, i) && all[i] == c
  }

  /** A call that looks the same to the query as an earlier one is dropped, whatever else sets them apart. */
  lemma {:induction false} FirstIsKept(keyOf: CallSite -> string, all: seq<CallSite>, c: CallSite)
    ensures c in FirstPerKey(keyOf, all) <==> IsFirstCall(keyOf, all, c)
    decreases |all|
  {
    if all != [] {
      var front, last := all[..|all| - 1], all[|all| - 1];
      FirstIsKept(keyOf, front, c);
      KeysOfFirst(keyOf, front);
      assert front + [last] == all;
      FirstCallSnoc(keyOf, front, last, c);
    }
  }

  lemma FirstCallSnoc(keyOf: CallSite -> string, front: seq<CallSite>, last: CallSite, c: CallSite)
    ensures IsFirstCall(keyOf, front + [last], c)
       <==> IsFirstCall(keyOf, front, c) || (c == last && keyOf(last) !in Keys(keyOf, front))
  {
    var all := front + [last];
    assert forall j :: 0 <= j < |front| ==> all[j] == front[j];
    if IsFirstCall(keyOf, front, c) {
      var i: nat :| IsFirst(keyOf, front, i) && front[i] == c;
      assert IsFirst(keyOf, all, i);
    }
    if c == last && keyOf(last) !in Keys(keyOf, front) {
      assert forall j :: 0 <= j < |front| ==> keyOf(front[j]) in Keys(keyOf, front);
      assert IsFirst(keyOf, all, |front|) && all[|front|] == c;
    }
    if IsFirstCall(keyOf, all, c) {
      var i: nat :| IsFirst(keyOf, all, i) && all[i] == c;
      if i < |front| {
        assert IsFirst(keyOf, front, i);
      } else {
        assert forall j :: 0 <= j < |front| ==> keyOf(front[j]) != keyOf(last);
      }
    }
  }

  lemma KeysOfFirst(keyOf: CallSite -> string, all: seq<CallSite>)
    ensures forall key :: key in Keys(keyOf, FirstPerKey(keyOf, all)) <==> key in Keys(keyOf, all)
  {
    FirstPerKeyForm(keyOf, all);
  }

  lemma KeysSnoc(keyOf: CallSite -> string, calls: seq<CallSite>, c: CallSite)
    ensures Keys(keyOf, calls + [c]) == Keys(keyOf, calls) + {keyOf(c)}
  {
    var longer := calls + [c];
    assert forall k :: 0 <= k < |calls| ==> longer[k] == calls[k];
    assert longer[|calls|] == c;
    forall x | x in Keys(keyOf, calls)
      ensures x in Keys(keyOf, longer)
    {
      var k :| 0 <= k < |calls| && keyOf(calls[k]) == x;
      assert keyOf(longer[k]) == x;
    }
    assert keyOf(longer[|calls|]) in Keys(keyOf, longer);
  }

  lemma OnePerKeyNext(keyOf: CallSite -> string, calls: seq<CallSite>, all: seq<CallSite>, c: CallSite)
    requires OnePerKey(keyOf, calls, all)
    ensures OnePerKey(keyOf, if keyOf(c) in Keys(keyOf, calls) then calls else calls + [c], all + [c])
  {
    KeysSnoc(keyOf, calls, c);
    KeysSnoc(keyOf, all, c);
  }

  /** What `localeCompare` is taken to be: a total order of strings. */
  ghost predicate Collation(collate: (string, string) -> int) {
    && (forall a, b :: collate(a, b) == 0 <==> a == b)
    && (forall a, b :: collate(a, b) < 0 <==> collate(b, a) > 0)
    && (forall a, b, c :: collate(a, b) <= 0 && collate(b, c) <= 0 ==> collate(a, c) <= 0)
  }

  /** By file, then by line. */
  predicate NotAfter(collate: (string, string) -> int, a: CallSite, b: CallSite) {
    if a.file != b.file then collate(a.file, b.file) <= 0 else a.line <= b.line
  }

  /** After the calls that do not come after it: what keeps the sort stable. */
  function Insert(collate: (string, string) -> int, c: CallSite, calls: seq<CallSite>): seq<CallSite> {
    if calls == [] then [c]
    else if NotAfter(collate, calls[0], c) then [calls[0]] + Insert(collate, c, calls[1..])
    else [c] + calls
  }

  function Sort(collate: (string, string) -> int, calls: seq<CallSite>): seq<CallSite> {
    if calls == [] then [] else Insert(collate, calls[|calls| - 1], Sort(collate, calls[..|calls| - 1]))
  }

  predicate Sorted(collate: (string, string) -> int, calls: seq<CallSite>) {
    forall i, j :: 0 <= i < j < |calls| ==> NotAfter(collate, calls[i], calls[j])
  }

  lemma SortedCons(collate: (string, string) -> int, head: CallSite, rest: seq<CallSite>)
    requires Sorted(collate, rest) && forall k :: 0 <= k < |rest| ==> NotAfter(collate, head, rest[k])
    ensures Sorted(collate, [head] + rest)
  {
  }

  lemma NotAfterTransitive(collate: (string, string) -> int, a: CallSite, b: CallSite, c: CallSite)
    requires Collation(collate) && !NotAfter(collate, b, a) && NotAfter(collate, b, c)
    ensures NotAfter(collate, a, b) && NotAfter(collate, a, c)
  {
    assert collate(a.file, b.file) <= 0 && collate(b.file, c.file) <= 0;
    assert collate(a.file, c.file) == 0 ==> collate(b.file, a.file) <= 0;
  }

  lemma InsertBehind(collate: (string, string) -> int, head: CallSite, c: CallSite, tail: seq<CallSite>,
                     rest: seq<CallSite>)
    requires Sorted(collate, rest) && multiset(rest) == multiset(tail) + multiset{c}
    requires NotAfter(collate, head, c) && forall j :: 0 <= j < |tail| ==> NotAfter(collate, head, tail[j])
    ensures Sorted(collate, [head] + rest)
    ensures multiset([head] + rest) == multiset([head] + tail) + multiset{c}
  {
    forall k | 0 <= k < |rest|
      ensures NotAfter(collate, head, rest[k])
    {
      assert rest[k] in multiset(rest);
      if rest[k] != c {
        var j :| 0 <= j < |tail| && tail[j] == rest[k];
      }
    }
    SortedCons(collate, head, rest);
  }

  lemma {:induction false} InsertForm(collate: (string, string) -> int, c: CallSite, calls: seq<CallSite>)
    requires Collation(collate) && Sorted(collate, calls)
    ensures Sorted(collate, Insert(collate, c, calls))
    ensures multiset(Insert(collate, c, calls)) == multiset(calls) + multiset{c}
    decreases |calls|
  {
    if calls != [] {
      var head, tail := calls[0], calls[1..];
      assert calls == [head] + tail;
      if NotAfter(collate, head, c) {
        InsertForm(collate, c, tail);
        assert forall j :: 0 <= j < |tail| ==> tail[j] == calls[j + 1] && NotAfter(collate, head, tail[j]);
        InsertBehind(collate, head, c, tail, Insert(collate, c, tail));
      } else {
        forall k | 0 <= k < |calls|
          ensures NotAfter(collate, c, calls[k])
        {
          NotAfterTransitive(collate, c, head, calls[k]);
        }
        SortedCons(collate, c, calls);
      }
    }
  }

  lemma {:induction false} SortForm(collate: (string, string) -> int, calls: seq<CallSite>)
    requires Collation(collate)
    ensures Sorted(collate, Sort(collate, calls)) && multiset(Sort(collate, calls)) == multiset(calls)
    decreases |calls|
  {
    if calls != [] {
      var front := calls[..|calls| - 1];
      SortForm(collate, front);
      InsertForm(collate, calls[|calls| - 1], Sort(collate, front));
      assert calls == front + [calls[|calls| - 1]];
    }
  }

  /** The calls at one line of one file. */
  function At(calls: seq<CallSite>, file: string, line: nat): seq<CallSite> {
    if calls == [] then []
    else (if calls[0].file == file && calls[0].line == line then [calls[0]] else []) + At(calls[1..], file, line)
  }

  lemma {:induction false} AtConcat(a: seq<CallSite>, b: seq<CallSite>, file: string, line: nat)
    ensures At(a + b, file, line) == At(a, file, line) + At(b, file, line)
    decreases |a|
  {
    if a == [] {
      assert a + b == b;
    } else {
      assert (a + b)[1..] == a[1..] + b;
      AtConcat(a[1..], b, file, line);
    }
  }

  lemma {:induction false} AtNothing(calls: seq<CallSite>, file: string, line: nat)
    requires forall k :: 0 <= k < |calls| ==> calls[k].file != file || calls[k].line != line
    ensures At(calls, file, line) == []
    decreases |calls|
  {
    if calls != [] { AtNothing(calls[1..], file, line); }
  }

  lemma {:induction false} InsertStable(collate: (string, string) -> int, c: CallSite, calls: seq<CallSite>,
                                        file: string, line: nat)
    requires Collation(collate) && Sorted(collate, calls)
    ensures At(Insert(collate, c, calls), file, line) == At(calls, file, line) + At([c], file, line)
    decreases |calls|
  {
    if calls != [] {
      if NotAfter(collate, calls[0], c) {
        InsertStable(collate, c, calls[1..], file, line);
        ConcatAssoc(At([calls[0]], file, line), At(calls[1..], file, line), At([c], file, line));
        var rest := Insert(collate, c, calls[1..]);
        AtConcat([calls[0]], rest, file, line);
        AtConcat([calls[0]], calls[1..], file, line);
        assert [calls[0]] + calls[1..] == calls;
      } else {
        AtConcat([c], calls, file, line);
        if c.file == file && c.line == line {
          assert forall k :: 0 <= k < |calls| ==> NotAfter(collate, calls[0], calls[k]) || k == 0;
          AtNothing(calls, file, line);
        }
      }
    }
  }

  /** Callers at the same line of the same file stay in the order they were looked up in. */
  lemma {:induction false} SortStable(collate: (string, string) -> int, calls: seq<CallSite>, file: string, line: nat)
    requires Collation(collate)
    ensures At(Sort(collate, calls), file, line) == At(calls, file, line)
    decreases |calls|
  {
    if calls != [] {
      var front, last := calls[..|calls| - 1], calls[|calls| - 1];
      SortStable(collate, front, file, line);
      SortForm(collate, front);
      InsertStable(collate, last, Sort(collate, front), file, line);
      AtConcat(front, [last], file, line);
      assert front + [last] == calls;
    }
  }

  /** What the two index lookups give together. */
  ghost function Listed(g: Graph, symbol: string): seq<CallSite> {
    var id := SymbolId(g.definitions, symbol);
    Matching(g.calls, CalleeOf, symbol)
    + if id.None? then [] else Matching(g.calls, CalleeSymbol(g.definitions), id.value)
  }

  /** They hold exactly the calls to the symbol. */
  lemma CallsListed(g: Graph, symbol: string)
    ensures forall c :: c in Listed(g, symbol) <==> c in g.calls && CallTo(g, symbol)(c)
  {
    var id := SymbolId(g.definitions, symbol);
    forall c
      ensures c in Listed(g, symbol) <==> c in g.calls && CallTo(g, symbol)(c)
    {
      MatchingMembers(g.calls, CalleeOf, symbol, c);
      if id.Some? { MatchingMembers(g.calls, CalleeSymbol(g.definitions), id.value, c); }
    }
  }

  /** By file in the order of the collation, and by line within a file. */
  ghost predicate InFileOrder(collate: (string, string) -> int, calls: seq<CallSite>) {
    forall i, j :: 0 <= i < j < |calls| ==>
      && collate(calls[i].file, calls[j].file) <= 0
      && (calls[i].file == calls[j].file ==> calls[i].line <= calls[j].line)
  }

  /** Exactly the wanted calls, one for every key, by file and line. */
  ghost predicate IsCallerList(calls: seq<CallSite>, wanted: CallSite -> bool, keyOf: CallSite -> string,
                               collate: (string, string) -> int, hits: seq<CallSite>) {
    && (forall i :: 0 <= i < |hits| ==> hits[i] in calls && wanted(hits[i]))
    && (forall c :: c in calls && wanted(c) ==> keyOf(c) in Keys(keyOf, hits))
    && (forall i, j :: 0 <= i < j < |hits| ==> keyOf(hits[i]) != keyOf(hits[j]))
    && InFileOrder(collate, hits)
  }

  lemma CallersSorted(calls: seq<CallSite>, wanted: CallSite -> bool, keyOf: CallSite -> string,
                      collate: (string, string) -> int, all: seq<CallSite>, found: seq<CallSite>)
    requires Collation(collate) && OnePerKey(keyOf, found, all)
    requires forall c :: c in all <==> c in calls && wanted(c)
    ensures IsCallerList(calls, wanted, keyOf, collate, Sort(collate, found))
  {
    var sorted := Sort(collate, found);
    SortForm(collate, found);
    forall i | 0 <= i < |sorted|
      ensures sorted[i] in calls && wanted(sorted[i])
    {
      assert sorted[i] in multiset(found);
      assert sorted[i] in all;
    }
    forall c | c in calls && wanted(c)
      ensures keyOf(c) in Keys(keyOf, sorted)
    {
      var n :| 0 <= n < |all| && all[n] == c;
      assert keyOf(all[n]) in Keys(keyOf, all);
      var k :| 0 <= k < |found| && keyOf(found[k]) == keyOf(c);
      assert found[k] in multiset(sorted);
      var i :| 0 <= i < |sorted| && sorted[i] == found[k];
      assert keyOf(sorted[i]) in Keys(keyOf, sorted);
    }
    DistinctKeys(keyOf, found, sorted);
  }

  lemma DistinctKeys(keyOf: CallSite -> string, calls: seq<CallSite>, sorted: seq<CallSite>)
    requires forall i, j :: 0 <= i < j < |calls| ==> keyOf(calls[i]) != keyOf(calls[j])
    requires multiset(sorted) == multiset(calls)
    ensures forall i, j :: 0 <= i < j < |sorted| ==> keyOf(sorted[i]) != keyOf(sorted[j])
  {
    forall i, j | 0 <= i < j < |sorted| && keyOf(sorted[i]) == keyOf(sorted[j])
      ensures false
    {
      assert sorted[i] in multiset(calls) && sorted[j] in multiset(calls);
      assert sorted[i] == sorted[j];
      var c := sorted[i];
      TwiceCounts(sorted, i, j);
      CountOnce(keyOf, calls, c);
    }
  }

  lemma TwiceCounts(calls: seq<CallSite>, i: nat, j: nat)
    requires i < j < |calls| && calls[i] == calls[j]
    ensures multiset(calls)[calls[i]] >= 2
  {
    assert calls == calls[..j] + [calls[j]] + calls[j + 1..];
    assert calls[i] in calls[..j];
  }

  lemma {:induction false} CountOnce(keyOf: CallSite -> string, calls: seq<CallSite>, c: CallSite)
    requires forall i, j :: 0 <= i < j < |calls| ==> keyOf(calls[i]) != keyOf(calls[j])
    ensures multiset(calls)[c] <= 1
    decreases |calls|
  {
    if calls != [] {
      var front, last := calls[..|calls| - 1], calls[|calls| - 1];
      CountOnce(keyOf, front, c);
      assert calls == front + [last];
      assert forall i :: 0 <= i < |front| ==> keyOf(front[i]) == keyOf(calls[i]) != keyOf(last);
      assert c == last ==> c !in front;
    }
  }

  lemma LastColon(x: string, y: string, x': string, y': string)
    requires ':' !in y && ':' !in y' && x + ":" + y == x' + ":" + y'
    ensures x == x' && y == y'
  {
    var s := x + ":" + y;
    assert s[|x|] == ':' && s[|x'|] == ':';
    assert forall k :: |x| < k < |s| ==> s[k] == y[k - |x| - 1];
    assert forall k :: |x'| < k < |s| ==> s[k] == y'[k - |x'| - 1];
    assert |x| == |x'|;
    assert x == s[..|x|] == x';
    assert y == s[|x| + 1..] == y';
  }

  /** Keys tell calls apart when no callee name holds a colon. */
  lemma KeyTellsApart(a: CallSite, b: CallSite)
    requires ':' !in a.callee && ':' !in b.callee && CallKey(a) == CallKey(b)
    ensures a.caller == b.caller && a.line == b.line && a.callee == b.callee
  {
    LastColon(a.caller + ":" + Decimal(a.line), a.callee, b.caller + ":" + Decimal(b.line), b.callee);
    LastColon(a.caller, Decimal(a.line), b.caller, Decimal(b.line));
    DecimalRoundTrip(a.line);
    DecimalRoundTrip(b.line);
  }

  /** So no call is lost from the callers then ... */
  lemma CallersComplete(g: Graph, symbol: string, collate: (string, string) -> int, hits: seq<CallSite>, c: CallSite)
    requires IsCallerList(g.calls, CallTo(g, symbol), CallKey, collate, hits)
    requires forall d :: d in g.calls ==> ':' !in d.callee
    requires c in g.calls && IsCallTo(g, symbol, c)
    ensures exists i :: 0 <= i < |hits|
                        && hits[i].caller == c.caller && hits[i].line == c.line && hits[i].callee == c.callee
  {
    assert CallTo(g, symbol)(c);
    assert CallKey(c) in Keys(CallKey, hits);
    var i :| 0 <= i < |hits| && CallKey(hits[i]) == CallKey(c);
    KeyTellsApart(hits[i], c);
  }

  /** ... while with a colon in a callee's name, two different calls can have one key. */
  lemma KeyCollision()
    ensures CallKey(CallSite("a", "2:f", "a", 1)) == CallKey(CallSite("a:1", "f", "a", 2))
  {
    assert Decimal(1) == "1" && Decimal(2) == "2";
    assert "a" + ":" + "1" + ":" + "2:f" == "a:1" + ":" + "2" + ":" + "f";
  }

  // ---------------------------------------------------------------- affected tests

  datatype AffectedTest = AffectedTest(test: Node, relatedFiles: seq<Node>)

  predicate IsFileAt(n: Node, path: string) {
    n.kind.File? && HasPath(n) && n.path == Some(path)
  }

  ghost predicate IsMatchedFile(g: Graph, matches: string -> bool, path: string) {
    exists k :: 0 <= k < |g.nodes| && IsFileAt(g.nodes[k], path) && matches(path)
  }

  /** A test edge leads from the known test to a known node filed under a matching file's path. */
  ghost predicate IsAffected(g: Graph, matches: string -> bool, id: string) {
    exists e, n :: e in g.edges && e.kind.Tests? && e.source == id && Known(g, id) && IsFiled(g, matches, e.target, n)
  }

  /** The node of the id has a matching file's path, or for want of a path such an id. */
  ghost predicate IsFiled(g: Graph, matches: string -> bool, id: string, n: Node) {
    && NodeAt(g.nodes, id) == Some(n)
    && IsMatchedFile(g, matches, if n.path.Some? then n.path.value else n.id)
  }

  ghost function TestIds(hits: seq<AffectedTest>): set<string> {
    set k | 0 <= k < |hits| :: hits[k].test.id
  }

  /** Every hit is a known node with its suite's files, and no test comes twice. */
  ghost predicate AllHits(g: Graph, hits: seq<AffectedTest>) {
    && (forall k :: 0 <= k < |hits| ==> IsHit(g, hits[k]))
    && forall k, j :: 0 <= k < j < |hits| ==> hits[k].test.id != hits[j].test.id
  }

  ghost predicate IsHit(g: Graph, h: AffectedTest) {
    && NodeAt(g.nodes, h.test.id) == Some(h.test)
    && h.relatedFiles == SuiteFiles(g.nodes, Matching(g.edges, SourceOf, h.test.id))
  }

  lemma AllHitsSnoc(g: Graph, hits: seq<AffectedTest>, h: AffectedTest)
    requires AllHits(g, hits) && IsHit(g, h) && h.test.id !in TestIds(hits)
    ensures AllHits(g, hits + [h]) && TestIds(hits + [h]) == TestIds(hits) + {h.test.id}
  {
    var longer := hits + [h];
    assert longer[|hits|] == h && forall k :: 0 <= k < |hits| ==> longer[k] == hits[k];
    forall id | id in TestIds(hits)
      ensures id in TestIds(longer)
    {
      var k :| 0 <= k < |hits| && hits[k].test.id == id;
      assert longer[k].test.id == id;
    }
    assert longer[|hits|].test.id in TestIds(longer);
  }

  lemma HasIdSnoc(ns: seq<Node>, i: nat)
    requires i < |ns|
    ensures forall id :: HasId(ns[..i + 1], id) <==> HasId(ns[..i], id) || ns[i].id == id
  {
    forall id | HasId(ns[..i], id)
      ensures HasId(ns[..i + 1], id)
    {
      var k :| 0 <= k < i && ns[..i][k].id == id;
      assert ns[..i + 1][k].id == id;
    }
    assert ns[..i + 1][i] == ns[i];
    assert forall k :: 0 <= k < i ==> ns[..i + 1][k] == ns[..i][k];
  }

  ghost predicate IsTestSource(nodes: seq<Node>, edges: seq<Edge>, file: string, id: string) {
    exists k :: 0 <= k < |edges| && IsTestEdge(nodes, edges[k], file) && edges[k].source == id
  }

  lemma TestSourceSnoc(nodes: seq<Node>, edges: seq<Edge>, file: string, id: string)
    requires edges != []
    ensures IsTestSource(nodes, edges, file, id) <==>
      || IsTestSource(nodes, edges[..|edges| - 1], file, id)
      || (IsTestEdge(nodes, edges[|edges| - 1], file) && edges[|edges| - 1].source == id)
  {
    var front := edges[..|edges| - 1];
    assert forall k :: 0 <= k < |front| ==> front[k] == edges[k];
    if IsTestSource(nodes, front, file, id) {
      var k :| 0 <= k < |front| && IsTestEdge(nodes, front[k], file) && front[k].source == id;
      assert IsTestEdge(nodes, edges[k], file);
    }
  }

  /** The tests filed under a path are the sources of its test edges. */
  lemma {:induction false} TestNodesForm(nodes: seq<Node>, edges: seq<Edge>, file: string)
    ensures forall k :: 0 <= k < |TestNodes(nodes, edges, file)| ==>
      NodeAt(nodes, TestNodes(nodes, edges, file)[k].id) == Some(TestNodes(nodes, edges, file)[k])
    ensures forall id :: HasId(TestNodes(nodes, edges, file), id) <==> IsTestSource(nodes, edges, file, id)
    decreases |edges|
  {
    if edges != [] {
      var front, e := edges[..|edges| - 1], edges[|edges| - 1];
      TestNodesForm(nodes, front, file);
      forall id { TestSourceSnoc(nodes, edges, file, id); }
      if IsTestEdge(nodes, e, file) {
        var before, n := TestNodes(nodes, front, file), NodeAt(nodes, e.source).value;
        NodeAtId(nodes, e.source);
        HasIdSnoc(before + [n], |before|);
        assert (before + [n])[..|before|] == before && (before + [n])[..|before| + 1] == before + [n];
      }
    }
  }

  /** The files of a suite are the known targets of its test edges, each once. */
  lemma {:induction false} SuiteFilesForm(nodes: seq<Node>, edges: seq<Edge>, id: string)
    ensures HasId(SuiteFiles(nodes, edges), id)
       <==> HasId(nodes, id) && exists e :: e in edges && e.kind.Tests? && e.target == id
    ensures forall n :: n in SuiteFiles(nodes, edges) ==> LastWithId(nodes, n.id, n)
    ensures forall k, j :: 0 <= k < j < |SuiteFiles(nodes, edges)| ==>
      SuiteFiles(nodes, edges)[k].id != SuiteFiles(nodes, edges)[j].id
    decreases |edges|
  {
    if edges != [] {
      var front, e := edges[..|edges| - 1], edges[|edges| - 1];
      SuiteFilesForm(nodes, front, id);
      assert edges == front + [e];
      NodeAtMeaning(nodes, e.target);
      if e.kind.Tests? && NodeAt(nodes, e.target).Some? {
        var before, n := SuiteFiles(nodes, front), NodeAt(nodes, e.target).value;
        NodeAtId(nodes, e.target);
        HasIdSnoc(before + [n], |before|);
        assert (before + [n])[..|before|] == before && (before + [n])[..|before| + 1] == before + [n];
      }
    }
  }

  lemma AffectedByFiles(g: Graph, matches: string -> bool, files: seq<string>, id: string)
    requires forall p :: p in files <==> IsMatchedFile(g, matches, p)
    ensures IsAffected(g, matches, id)
       <==> exists k :: 0 <= k < |files| && HasId(TestNodes(g.nodes, g.edges, files[k]), id)
  {
    if IsAffected(g, matches, id) {
      var e, n :| e in g.edges && e.kind.Tests? && e.source == id && Known(g, id) && IsFiled(g, matches, e.target, n);
      var file := if n.path.Some? then n.path.value else n.id;
      assert file in files;
      var k :| 0 <= k < |files| && files[k] == file;
      var j :| 0 <= j < |g.edges| && g.edges[j] == e;
      assert IsTestEdge(g.nodes, g.edges[j], file);
      assert IsTestSource(g.nodes, g.edges, file, id);
      TestNodesForm(g.nodes, g.edges, file);
    }
    if k :| 0 <= k < |files| && HasId(TestNodes(g.nodes, g.edges, files[k]), id) {
      TestNodesForm(g.nodes, g.edges, files[k]);
      var j :| 0 <= j < |g.edges| && IsTestEdge(g.nodes, g.edges[j], files[k]) && g.edges[j].source == id;
      assert g.edges[j] in g.edges && files[k] in files;
      NodeAtId(g.nodes, id);
      assert IsFiled(g, matches, g.edges[j].target, NodeAt(g.nodes, g.edges[j].target).value);
    }
  }
}
