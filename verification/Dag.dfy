/** The workflow graph object of internal/engine/dag.go. */
module Dag {
  import opened Prelude
  import opened Model
  import opened Graph

  datatype NodeDef = StepOf(step: StepDef) | ApprovalOf(approval: ApprovalDef)

  datatype SortResult = Sorted(layers: seq<seq<string>>) | CycleAmong(remaining: seq<string>)

  function PutStep(): (map<string, NodeDef>, StepDef) -> map<string, NodeDef> {
    (nodes: map<string, NodeDef>, step: StepDef) => nodes[step.id := StepOf(step)]
  }

  function PutApproval(): (map<string, NodeDef>, ApprovalDef) -> map<string, NodeDef> {
    (nodes: map<string, NodeDef>, approval: ApprovalDef) => nodes[approval.id := ApprovalOf(approval)]
  }

  /** The nodes of a definition. The last one with an ID wins, and approvals come after steps. */
  function NodesOf(def: WorkflowDefinition): map<string, NodeDef> {
    FoldLeft(PutApproval(), FoldLeft(PutStep(), map[], def.steps), def.approvals)
  }

  /** The (dependency, node) pairs of a node. */
  function PairsTo(id: string, deps: seq<string>): seq<(string, string)> {
    if deps == [] then [] else [(deps[0], id)] + PairsTo(id, deps[1..])
  }

  function StepPairs(steps: seq<StepDef>): seq<(string, string)> {
    if steps == [] then [] else PairsTo(steps[0].id, steps[0].dependsOn) + StepPairs(steps[1..])
  }

  function ApprovalPairs(approvals: seq<ApprovalDef>): seq<(string, string)> {
    if approvals == [] then []
    else PairsTo(approvals[0].id, approvals[0].dependsOn) + ApprovalPairs(approvals[1..])
  }

  /** All dependencies of a definition, in the order in which they are written. */
  function PairsOf(def: WorkflowDefinition): seq<(string, string)> {
    StepPairs(def.steps) + ApprovalPairs(def.approvals)
  }

  function SourcesOf(pairs: seq<(string, string)>, to: string): seq<string> {
    if pairs == [] then []
    else
      var last := pairs[|pairs| - 1];
      SourcesOf(pairs[..|pairs| - 1], to) + (if last.1 == to then [last.0] else [])
  }

  function TargetsOf(pairs: seq<(string, string)>, from: string): seq<string> {
    if pairs == [] then []
    else
      var last := pairs[|pairs| - 1];
      TargetsOf(pairs[..|pairs| - 1], from) + (if last.0 == from then [last.1] else [])
  }

  function InEdgesOf(pairs: seq<(string, string)>): map<string, seq<string>> {
    map id | id in (set p | p in pairs :: p.1) :: SourcesOf(pairs, id)
  }

  function EdgesOf(pairs: seq<(string, string)>): map<string, seq<string>> {
    map id | id in (set p | p in pairs :: p.0) :: TargetsOf(pairs, id)
  }

  /** Every dependency names a step or an approval. */
  predicate DependenciesKnown(def: WorkflowDefinition) {
    forall p :: p in PairsOf(def) ==> p.0 in NodesOf(def)
  }

  function GraphOf(def: WorkflowDefinition): Graph {
    Graph(NodesOf(def).Keys, InEdgesOf(PairsOf(def)))
  }

  lemma {:induction false} PairSnoc(pairs: seq<(string, string)>, p: (string, string), id: string)
    ensures SourcesOf(pairs + [p], id) == if p.1 == id then SourcesOf(pairs, id) + [p.0] else SourcesOf(pairs, id)
    ensures TargetsOf(pairs + [p], id) == if p.0 == id then TargetsOf(pairs, id) + [p.1] else TargetsOf(pairs, id)
  {
    assert (pairs + [p])[..|pairs|] == pairs;
  }

  lemma {:induction false} AddInEdge(pairs: seq<(string, string)>, p: (string, string))
    ensures InEdgesOf(pairs + [p]) == InEdgesOf(pairs)[p.1 := Get(InEdgesOf(pairs), p.1) + [p.0]]
  {
    NoSources(pairs, p.1);
    var more := InEdgesOf(pairs + [p]);
    assert more.Keys == InEdgesOf(pairs).Keys + {p.1} by {
      assert p in pairs + [p];
      forall q | q in pairs
        ensures q in pairs + [p]
      {
      }
    }
    forall id | id in more
      ensures more[id] == InEdgesOf(pairs)[p.1 := Get(InEdgesOf(pairs), p.1) + [p.0]][id]
    {
      PairSnoc(pairs, p, id);
    }
  }

  lemma {:induction false} AddOutEdge(pairs: seq<(string, string)>, p: (string, string))
    ensures EdgesOf(pairs + [p]) == EdgesOf(pairs)[p.0 := Get(EdgesOf(pairs), p.0) + [p.1]]
  {
    NoTargets(pairs, p.0);
    var more := EdgesOf(pairs + [p]);
    assert more.Keys == EdgesOf(pairs).Keys + {p.0} by {
      assert p in pairs + [p];
      forall q | q in pairs
        ensures q in pairs + [p]
      {
      }
    }
    forall id | id in more
      ensures more[id] == EdgesOf(pairs)[p.0 := Get(EdgesOf(pairs), p.0) + [p.1]][id]
    {
      PairSnoc(pairs, p, id);
    }
  }

  lemma {:induction false} NoSources(pairs: seq<(string, string)>, to: string)
    ensures to !in (set p | p in pairs :: p.1) ==> SourcesOf(pairs, to) == []
  {
    if pairs != [] {
      NoSources(pairs[..|pairs| - 1], to);
    }
  }

  lemma {:induction false} NoTargets(pairs: seq<(string, string)>, from: string)
    ensures from !in (set p | p in pairs :: p.0) ==> TargetsOf(pairs, from) == []
  {
    if pairs != [] {
      NoTargets(pairs[..|pairs| - 1], from);
    }
  }

  /** An edge occurs as often among the targets of its source as among the sources of its target. */
  lemma {:induction false} EdgesMatch(pairs: seq<(string, string)>, from: string, to: string)
    ensures multiset(TargetsOf(pairs, from))[to] == multiset(SourcesOf(pairs, to))[from]
  {
    if pairs != [] {
      EdgesMatch(pairs[..|pairs| - 1], from, to);
    }
  }

  lemma {:induction false} GetEdges(pairs: seq<(string, string)>, id: string)
    ensures Get(InEdgesOf(pairs), id) == SourcesOf(pairs, id)
    ensures Get(EdgesOf(pairs), id) == TargetsOf(pairs, id)
  {
    NoSources(pairs, id);
    NoTargets(pairs, id);
  }

  lemma {:induction false} SourcesAreInPairs(pairs: seq<(string, string)>, id: string, dep: string)
    ensures dep in SourcesOf(pairs, id) <==> (dep, id) in pairs
    ensures id in TargetsOf(pairs, dep) <==> (dep, id) in pairs
  {
    if pairs != [] {
      SourcesAreInPairs(pairs[..|pairs| - 1], id, dep);
    }
  }

  lemma {:induction false} PairTargetsAreNodes(def: WorkflowDefinition, p: (string, string))
    requires p in PairsOf(def)
    ensures p.1 in NodesOf(def)
  {
    var withSteps := FoldLeft(PutStep(), map[], def.steps);
    if p in StepPairs(def.steps) {
      StepPairIsNode(map[], def.steps, p);
    }
    ApprovalPairIsNode(withSteps, def.approvals, p);
  }

  lemma {:induction false} PairsToTarget(id: string, deps: seq<string>, p: (string, string))
    requires p in PairsTo(id, deps)
    ensures p.1 == id
  {
    if p != (deps[0], id) {
      PairsToTarget(id, deps[1..], p);
    }
  }

  lemma {:induction false} StepPairIsNode(nodes: map<string, NodeDef>, steps: seq<StepDef>, p: (string, string))
    ensures nodes.Keys <= FoldLeft(PutStep(), nodes, steps).Keys
    ensures p in StepPairs(steps) ==> p.1 in FoldLeft(PutStep(), nodes, steps)
    decreases |steps|
  {
    if steps != [] {
      StepPairIsNode(PutStep()(nodes, steps[0]), steps[1..], p);
      if p in PairsTo(steps[0].id, steps[0].dependsOn) {
        PairsToTarget(steps[0].id, steps[0].dependsOn, p);
      }
    }
  }

  lemma {:induction false} ApprovalPairIsNode(
      nodes: map<string, NodeDef>, approvals: seq<ApprovalDef>, p: (string, string))
    ensures nodes.Keys <= FoldLeft(PutApproval(), nodes, approvals).Keys
    ensures p in ApprovalPairs(approvals) ==> p.1 in FoldLeft(PutApproval(), nodes, approvals)
    decreases |approvals|
  {
    if approvals != [] {
      ApprovalPairIsNode(PutApproval()(nodes, approvals[0]), approvals[1..], p);
      if p in PairsTo(approvals[0].id, approvals[0].dependsOn) {
        PairsToTarget(approvals[0].id, approvals[0].dependsOn, p);
      }
    }
  }

  function Elements(s: seq<string>): set<string> {
    set x | x in s
  }

  predicate NoDuplicates(s: seq<string>) {
    forall i, j :: 0 <= i < j < |s| ==> s[i] != s[j]
  }

  /** A layer lists the ready nodes of its round, each once; no round is empty. */
  ghost predicate IsLayer(g: Graph, k: nat, layer: seq<string>) {
    layer != [] && NoDuplicates(layer) && Elements(layer) == Layer(g, k)
  }

  ghost predicate AreLayers(g: Graph, layers: seq<seq<string>>) {
    forall k :: 0 <= k < |layers| ==> IsLayer(g, k, layers[k])
  }

  /** Round by round, the layers list the ready nodes, and together they cover the graph. */
  ghost predicate IsLayering(g: Graph, layers: seq<seq<string>>) {
    AreLayers(g, layers) && DoneAt(g, |layers|) == g.ids
  }

  lemma {:induction false} AnotherLayer(g: Graph, layers: seq<seq<string>>, layer: seq<string>)
    requires AreLayers(g, layers) && IsLayer(g, |layers|, layer)
    ensures AreLayers(g, layers + [layer])
    ensures |DoneAt(g, |layers|)| < |DoneAt(g, |layers| + 1)| <= |g.ids|
  {
    assert layer[0] in Elements(layer);
    DoneAtIsClosed(g, |layers| + 1);
    SubsetSize(DoneAt(g, |layers|), DoneAt(g, |layers| + 1));
    SubsetSize(DoneAt(g, |layers| + 1), g.ids);
  }

  /** How many entries of deps have not been visited. */
  function Pending(deps: seq<string>, visited: set<string>): nat {
    if deps == [] then 0
    else Pending(deps[..|deps| - 1], visited) + (if deps[|deps| - 1] in visited then 0 else 1)
  }

  lemma {:induction false} PendingZero(deps: seq<string>, visited: set<string>)
    ensures Pending(deps, visited) == 0 <==> forall dep :: dep in deps ==> dep in visited
  {
    if deps != [] {
      PendingZero(deps[..|deps| - 1], visited);
      assert deps == deps[..|deps| - 1] + [deps[|deps| - 1]];
    }
  }

  lemma {:induction false} PendingVisit(deps: seq<string>, visited: set<string>, id: string)
    requires id !in visited
    ensures Pending(deps, visited + {id}) == Pending(deps, visited) - multiset(deps)[id]
  {
    if deps != [] {
      PendingVisit(deps[..|deps| - 1], visited, id);
      assert deps == deps[..|deps| - 1] + [deps[|deps| - 1]];
    }
  }

  lemma {:induction false} PendingNone(deps: seq<string>)
    ensures Pending(deps, {}) == |deps|
  {
    if deps != [] {
      PendingNone(deps[..|deps| - 1]);
    }
  }

  lemma {:induction false} TakeOne(s: seq<string>, j: nat, x: string)
    requires j < |s|
    ensures multiset(s[..j + 1])[x] == multiset(s[..j])[x] + (if s[j] == x then 1 else 0)
    ensures Elements(s[..j + 1]) == Elements(s[..j]) + {s[j]}
  {
    assert s[..j + 1] == s[..j] + [s[j]];
  }

  lemma SubsetSize(a: set<string>, b: set<string>)
    requires a <= b
    ensures |a| <= |b| && (|a| == |b| ==> a == b)
    decreases b
  {
    if b != {} {
      var x :| x in b;
      SubsetSize(a - {x}, b - {x});
      assert x in a ==> a == (a - {x}) + {x};
      assert b == (b - {x}) + {x};
    }
  }

  ghost predicate HasCycleAmong(g: Graph, remaining: seq<string>) {
    exists c :: IsCycle(g, c) && forall i :: 0 <= i < |c| ==> c[i] in remaining
  }

  lemma {:induction false} StuckSort(g: Graph, k: nat, remaining: seq<string>)
    requires Closed(g) && Layer(g, k) == {} && |DoneAt(g, k)| < |g.ids|
    requires Elements(remaining) == g.ids - DoneAt(g, k)
    ensures HasCycleAmong(g, remaining) && !Acyclic(g)
  {
    DoneAtIsClosed(g, k);
    SmallerSet(DoneAt(g, k), g.ids);
    StuckMeansCycle(g, DoneAt(g, k));
    var c :| IsCycle(g, c) && forall i :: 0 <= i < |c| ==> c[i] in g.ids - DoneAt(g, k);
    forall i | 0 <= i < |c|
      ensures c[i] in remaining
    {
      assert c[i] in Elements(remaining);
    }
  }

  lemma {:induction false} CompleteSort(g: Graph, k: nat)
    requires Closed(g) && |DoneAt(g, k)| == |g.ids|
    ensures Acyclic(g) && DoneAt(g, k) == g.ids
  {
    DoneAtIsClosed(g, k);
    SubsetSize(DoneAt(g, k), g.ids);
    assert Layer(g, k) == {};
    CoveredIffAcyclic(g, k);
  }

  lemma SmallerSet(a: set<string>, b: set<string>)
    requires a <= b && |a| < |b|
    ensures !(b <= a)
  {
    SubsetSize(a, b);
    var extra := b - a;
    assert b == a + extra;
    assert extra != {} by {
      assert a + {} == a;
    }
  }

  /** The counters hold, for every node, how many of its dependency entries are unvisited. */
  ghost predicate CountsPending(g: Graph, inDegree: map<string, int>, visited: set<string>) {
    && inDegree.Keys == g.ids
    && forall id :: id in g.ids ==> inDegree[id] == Pending(Deps(g, id), visited)
  }

  /** The forward edges are the dependency edges turned around, with the same multiplicity. */
  ghost predicate Transposed(g: Graph, edges: map<string, seq<string>>) {
    && (forall from, to :: multiset(Get(edges, from))[to] == multiset(Deps(g, to))[from])
    && (forall from, to :: to in Get(edges, from) ==> to in g.ids)
  }

  method InitialDegrees(nodes: map<string, NodeDef>, inEdges: map<string, seq<string>>)
      returns (inDegree: map<string, int>)
    ensures CountsPending(Graph(nodes.Keys, inEdges), inDegree, {})
  {
    inDegree := map id | id in nodes :: |Get(inEdges, id)|;
    forall id | id in nodes {
      PendingNone(Get(inEdges, id));
    }
  }

  /** The loop that collects the ready nodes, in any order. */
  method CollectLayer(ghost g: Graph, inDegree: map<string, int>, visited: set<string>) returns (layer: seq<string>)
    requires CountsPending(g, inDegree, visited)
    ensures NoDuplicates(layer) && Elements(layer) == Wave(g, visited)
  {
    layer := [];
    var todo := inDegree.Keys;
    while todo != {}
      invariant todo <= inDegree.Keys && NoDuplicates(layer)
      invariant forall id :: id in layer <==> id in inDegree && id !in todo && inDegree[id] == 0 && id !in visited
    {
      var id :| id in todo;
      todo := todo - {id};
      if inDegree[id] == 0 && id !in visited {
        layer := layer + [id];
      }
    }
    forall id | id in g.ids {
      PendingZero(Deps(g, id), visited);
    }
  }

  method CollectRemaining(nodes: map<string, NodeDef>, visited: set<string>) returns (remaining: seq<string>)
    ensures Elements(remaining) == nodes.Keys - visited
  {
    remaining := [];
    var todo := nodes.Keys;
    while todo != {}
      invariant todo <= nodes.Keys
      invariant forall id :: id in remaining <==> id in nodes && id !in todo && id !in visited
    {
      var id :| id in todo;
      todo := todo - {id};
      if id !in visited {
        remaining := remaining + [id];
      }
    }
  }

  /** The loop that marks a layer as visited and counts down what waits for it. */
  method VisitLayer(ghost g: Graph, edges: map<string, seq<string>>, layer: seq<string>,
                    inDegree: map<string, int>, visited: set<string>)
      returns (inDegree': map<string, int>, visited': set<string>)
    requires Transposed(g, edges) && CountsPending(g, inDegree, visited)
    requires NoDuplicates(layer) && Elements(layer) == Wave(g, visited)
    ensures visited' == visited + Wave(g, visited) && CountsPending(g, inDegree', visited')
  {
    inDegree', visited' := inDegree, visited;
    for i := 0 to |layer|
      invariant visited' == visited + Elements(layer[..i]) && CountsPending(g, inDegree', visited')
    {
      var id := layer[i];
      assert id in Elements(layer);
      TakeOne(layer, i, id);
      inDegree' := CountDown(g, edges, id, inDegree', visited');
      visited' := visited' + {id};
    }
    assert layer[..|layer|] == layer;
  }

  method CountDown(ghost g: Graph, edges: map<string, seq<string>>, id: string, inDegree: map<string, int>,
                   ghost visited: set<string>)
      returns (r: map<string, int>)
    requires Transposed(g, edges) && CountsPending(g, inDegree, visited) && id !in visited
    ensures CountsPending(g, r, visited + {id})
  {
    var downstream := Get(edges, id);
    r := CountEach(downstream, inDegree);
    forall to | to in g.ids {
      PendingVisit(Deps(g, to), visited, id);
    }
  }

  /** The inner loop: every entry of the list takes one off its counter. */
  method CountEach(downstream: seq<string>, inDegree: map<string, int>) returns (r: map<string, int>)
    requires forall to :: to in downstream ==> to in inDegree
    ensures r.Keys == inDegree.Keys
    ensures forall to :: to in r ==> r[to] == inDegree[to] - multiset(downstream)[to]
  {
    r := inDegree;
    for j := 0 to |downstream|
      invariant r.Keys == inDegree.Keys
      invariant forall to :: to in r ==> r[to] == inDegree[to] - multiset(downstream[..j])[to]
    {
      forall to | to in r {
        TakeOne(downstream, j, to);
      }
      assert downstream[j] in downstream;
      r := r[downstream[j] := r[downstream[j]] - 1];
    }
    assert downstream[..|downstream|] == downstream;
  }

  class DAG {
    var nodes: map<string, NodeDef>
    var edges: map<string, seq<string>>
    var inEdges: map<string, seq<string>>

    constructor ()
      ensures nodes == map[] && edges == map[] && inEdges == map[]
    {
      nodes, edges, inEdges := map[], map[], map[];
    }

    ghost function AsGraph(): Graph
      reads this
    {
      Graph(nodes.Keys, inEdges)
    }

    ghost predicate Valid()
      reads this
    {
      Closed(AsGraph()) && Transposed(AsGraph(), edges)
    }

    method AddNodes(def: WorkflowDefinition)
      requires nodes == map[]
      modifies this`nodes
      ensures nodes == NodesOf(def)
    {
      for i := 0 to |def.steps|
        invariant FoldLeft(PutStep(), nodes, def.steps[i..]) == FoldLeft(PutStep(), map[], def.steps)
      {
        FoldLeftStep(PutStep(), nodes, def.steps, i);
        nodes := nodes[def.steps[i].id := StepOf(def.steps[i])];
      }
      for i := 0 to |def.approvals|
        invariant FoldLeft(PutApproval(), nodes, def.approvals[i..]) == NodesOf(def)
      {
        FoldLeftStep(PutApproval(), nodes, def.approvals, i);
        nodes := nodes[def.approvals[i].id := ApprovalOf(def.approvals[i])];
      }
    }

    method AddEdges(id: string, deps: seq<string>, ghost pairs: seq<(string, string)>) returns (ok: bool)
      requires inEdges == InEdgesOf(pairs) && edges == EdgesOf(pairs)
      modifies this`edges, this`inEdges
      ensures ok <==> forall dep :: dep in deps ==> dep in nodes
      ensures ok ==> inEdges == InEdgesOf(pairs + PairsTo(id, deps)) && edges == EdgesOf(pairs + PairsTo(id, deps))
    {
      ghost var done := pairs;
      for i := 0 to |deps|
        invariant done + PairsTo(id, deps[i..]) == pairs + PairsTo(id, deps)
        invariant inEdges == InEdgesOf(done) && edges == EdgesOf(done)
        invariant forall j :: 0 <= j < i ==> deps[j] in nodes
      {
        var dep := deps[i];
        if dep !in nodes {
          return false;
        }
        assert deps[i..][1..] == deps[i + 1..];
        AddInEdge(done, (dep, id));
        AddOutEdge(done, (dep, id));
        edges := edges[dep := Get(edges, dep) + [id]];
        inEdges := inEdges[id := Get(inEdges, id) + [dep]];
        Assoc(done, [(dep, id)], PairsTo(id, deps[i + 1..]));
        done := done + [(dep, id)];
      }
      assert deps[|deps|..] == [];
      assert done + [] == done;
      return true;
    }

    method TopologicalSort() returns (r: SortResult)
      requires Valid()
      ensures r.Sorted? <==> Acyclic(AsGraph())
      ensures r.Sorted? ==> IsLayering(AsGraph(), r.layers)
      ensures r.CycleAmong? ==> HasCycleAmong(AsGraph(), r.remaining)
    {
      ghost var g := AsGraph();
      var inDegree := InitialDegrees(nodes, inEdges);
      var layers: seq<seq<string>> := [];
      var visited: set<string> := {};
      ghost var k := 0;
      while |visited| < |nodes|
        invariant k == |layers| && visited == DoneAt(g, k) && |visited| <= |nodes|
        invariant CountsPending(g, inDegree, visited)
        invariant AreLayers(g, layers)
        decreases |nodes| - |visited|
      {
        var layer := CollectLayer(g, inDegree, visited);
        if |layer| == 0 {
          var remaining := CollectRemaining(nodes, visited);
          StuckSort(g, k, remaining);
          return CycleAmong(remaining);
        }
        AnotherLayer(g, layers, layer);
        inDegree, visited := VisitLayer(g, edges, layer, inDegree, visited);
        assert visited == DoneAt(g, k + 1);
        layers := layers + [layer];
        k := k + 1;
      }
      CompleteSort(g, k);
      return Sorted(layers);
    }

    method DetectCycles() returns (acyclic: bool)
      requires Valid()
      ensures acyclic <==> Acyclic(AsGraph())
    {
      var r := TopologicalSort();
      return r.Sorted?;
    }

    /** The nodes that are not completed although everything they depend on is, in any order. */
    method GetReadyNodes(completed: set<string>) returns (ready: seq<string>)
      ensures NoDuplicates(ready) && Elements(ready) == Wave(AsGraph(), completed)
    {
      ready := [];
      var todo := nodes.Keys;
      while todo != {}
        invariant todo <= nodes.Keys && NoDuplicates(ready)
        invariant forall id :: id in ready <==> id in nodes && id !in todo && IsReady(AsGraph(), completed, id)
      {
        var id :| id in todo;
        todo := todo - {id};
        if id in completed {
          continue;
        }
        var deps := Get(inEdges, id);
        var allDepsComplete := true;
        for i := 0 to |deps|
          invariant allDepsComplete
          invariant forall j :: 0 <= j < i ==> deps[j] in completed
        {
          if deps[i] !in completed {
            allDepsComplete := false;
            break;
          }
        }
        if allDepsComplete {
          ready := ready + [id];
        }
      }
    }
  }

  /** Builds the graph of a definition, or nothing when some dependency names no node. */
  method BuildDAG(def: WorkflowDefinition) returns (dag: DAG?)
    ensures dag == null <==> !DependenciesKnown(def)
    ensures dag != null ==> fresh(dag) && dag.Valid() && dag.nodes == NodesOf(def) && dag.AsGraph() == GraphOf(def)
  {
    hide NodesOf;
    hide InEdgesOf;
    hide EdgesOf;
    NoEdgesYet();
    var d := new DAG();
    d.AddNodes(def);
    ghost var pairs: seq<(string, string)> := [];
    for i := 0 to |def.steps|
      invariant d.nodes == NodesOf(def) && pairs + StepPairs(def.steps[i..]) == StepPairs(def.steps)
      invariant d.inEdges == InEdgesOf(pairs) && d.edges == EdgesOf(pairs)
      invariant forall p :: p in pairs ==> p.0 in d.nodes
    {
      var step := def.steps[i];
      assert def.steps[i..][1..] == def.steps[i + 1..];
      Assoc(pairs, PairsTo(step.id, step.dependsOn), StepPairs(def.steps[i + 1..]));
      PairsKnown(d.nodes, step.id, step.dependsOn);
      var ok := d.AddEdges(step.id, step.dependsOn, pairs);
      if !ok {
        UnknownDependency(
          def, pairs, PairsTo(step.id, step.dependsOn), StepPairs(def.steps[i + 1..]) + ApprovalPairs(def.approvals));
        return null;
      }
      pairs := pairs + PairsTo(step.id, step.dependsOn);
    }
    assert def.steps[|def.steps|..] == [];
    assert pairs == StepPairs(def.steps);
    for i := 0 to |def.approvals|
      invariant d.nodes == NodesOf(def) && pairs + ApprovalPairs(def.approvals[i..]) == PairsOf(def)
      invariant d.inEdges == InEdgesOf(pairs) && d.edges == EdgesOf(pairs)
      invariant forall p :: p in pairs ==> p.0 in d.nodes
    {
      var approval := def.approvals[i];
      assert def.approvals[i..][1..] == def.approvals[i + 1..];
      Assoc(pairs, PairsTo(approval.id, approval.dependsOn), ApprovalPairs(def.approvals[i + 1..]));
      PairsKnown(d.nodes, approval.id, approval.dependsOn);
      var ok := d.AddEdges(approval.id, approval.dependsOn, pairs);
      if !ok {
        UnknownDependency(def, pairs, PairsTo(approval.id, approval.dependsOn), ApprovalPairs(def.approvals[i + 1..]));
        return null;
      }
      pairs := pairs + PairsTo(approval.id, approval.dependsOn);
    }
    assert def.approvals[|def.approvals|..] == [];
    assert pairs == PairsOf(def);
    GraphIsValid(def);
    return d;
  }

  lemma NoEdgesYet()
    ensures InEdgesOf([]) == map[] && EdgesOf([]) == map[]
  {
  }

  lemma {:induction false} PairsKnown(nodes: map<string, NodeDef>, id: string, deps: seq<string>)
    ensures (forall p :: p in PairsTo(id, deps) ==> p.0 in nodes) <==> (forall dep :: dep in deps ==> dep in nodes)
    decreases |deps|
  {
    if deps != [] {
      PairsKnown(nodes, id, deps[1..]);
      assert deps == [deps[0]] + deps[1..];
      assert (deps[0], id) in PairsTo(id, deps);
    }
  }

  lemma {:induction false} UnknownDependency(
      def: WorkflowDefinition, before: seq<(string, string)>, here: seq<(string, string)>, after: seq<(string, string)>)
    requires before + here + after == PairsOf(def) && !forall p :: p in here ==> p.0 in NodesOf(def)
    ensures !DependenciesKnown(def)
  {
    var p :| p in here && p.0 !in NodesOf(def);
    assert p in before + here + after;
  }

  lemma {:induction false} GraphIsValid(def: WorkflowDefinition)
    requires DependenciesKnown(def)
    ensures Closed(GraphOf(def))
    ensures forall from, to ::
              multiset(Get(EdgesOf(PairsOf(def)), from))[to] == multiset(Get(InEdgesOf(PairsOf(def)), to))[from]
    ensures forall from, to :: to in Get(EdgesOf(PairsOf(def)), from) ==> to in NodesOf(def)
  {
    var pairs := PairsOf(def);
    forall from, to
      ensures multiset(Get(EdgesOf(pairs), from))[to] == multiset(Get(InEdgesOf(pairs), to))[from]
      ensures to in Get(EdgesOf(pairs), from) ==> to in NodesOf(def)
      ensures from in Get(InEdgesOf(pairs), to) ==> from in NodesOf(def)
    {
      GetEdges(pairs, from);
      GetEdges(pairs, to);
      EdgesMatch(pairs, from, to);
      SourcesAreInPairs(pairs, to, from);
      if (from, to) in pairs {
        PairTargetsAreNodes(def, (from, to));
      }
    }
  }
}
