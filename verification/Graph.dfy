/** Dependency graphs, their layers and their cycles. */
module Graph {

  /** deps maps a node to the nodes it depends on; duplicates are allowed, and a missing entry is an empty one. */
  datatype Graph = Graph(ids: set<string>, deps: map<string, seq<string>>)

  function Get(m: map<string, seq<string>>, id: string): seq<string> {
    if id in m then m[id] else []
  }

  function Deps(g: Graph, id: string): seq<string> {
    Get(g.deps, id)
  }

  /** Every dependency of a node is a node. */
  ghost predicate Closed(g: Graph) {
    forall id, dep :: id in g.ids && dep in Deps(g, id) ==> dep in g.ids
  }

  predicate IsReady(g: Graph, done: set<string>, id: string) {
    id !in done && forall dep :: dep in Deps(g, id) ==> dep in done
  }

  /** The nodes that can be processed once the nodes in done are. */
  function Wave(g: Graph, done: set<string>): set<string> {
    set id | id in g.ids && IsReady(g, done, id)
  }

  /** The nodes processed before round k, when every round takes the whole wave. */
  function DoneAt(g: Graph, k: nat): set<string> {
    if k == 0 then {} else DoneAt(g, k - 1) + Wave(g, DoneAt(g, k - 1))
  }

  function Layer(g: Graph, k: nat): set<string> {
    Wave(g, DoneAt(g, k))
  }

  /** A chain of nodes, each depending on the one before it. */
  ghost predicate IsChain(g: Graph, c: seq<string>) {
    && c != []
    && (forall i :: 0 <= i < |c| ==> c[i] in g.ids)
    && (forall i, j :: 0 <= i < j < |c| && j == i + 1 ==> c[i] in Deps(g, c[j]))
  }

  ghost predicate IsChainTo(g: Graph, c: seq<string>, id: string) {
    IsChain(g, c) && c[|c| - 1] == id
  }

  ghost predicate IsCycle(g: Graph, c: seq<string>) {
    IsChain(g, c) && |c| > 1 && c[0] == c[|c| - 1]
  }

  ghost predicate Acyclic(g: Graph) {
    forall c :: !IsCycle(g, c)
  }

  /** d is needed, directly or through others, before id. */
  ghost predicate Upstream(g: Graph, d: string, id: string) {
    exists c :: IsChainTo(g, c, id) && |c| > 1 && c[0] == d
  }

  ghost predicate DependencyClosed(g: Graph, done: set<string>) {
    forall id, dep :: id in done && dep in Deps(g, id) ==> dep in done
  }

  lemma {:induction false} DoneAtIsClosed(g: Graph, k: nat)
    ensures DoneAt(g, k) <= g.ids && DependencyClosed(g, DoneAt(g, k))
  {
    if k > 0 {
      DoneAtIsClosed(g, k - 1);
    }
  }

  lemma {:induction false} DoneAtGrows(g: Graph, j: nat, k: nat)
    requires j <= k
    ensures DoneAt(g, j) <= DoneAt(g, k)
    decreases k - j
  {
    if j < k {
      DoneAtGrows(g, j, k - 1);
    }
  }

  /** A node belongs to the done set from the round after its layer on. */
  lemma {:induction false} LayerOf(g: Graph, k: nat, id: string)
    requires id in DoneAt(g, k)
    ensures exists j :: 0 <= j < k && id in Layer(g, j)
  {
    if id in DoneAt(g, k - 1) {
      LayerOf(g, k - 1, id);
      var j :| 0 <= j < k - 1 && id in Layer(g, j);
    } else {
      assert id in Layer(g, k - 1);
    }
  }

  /** No node is in two layers. */
  lemma {:induction false} LayersAreDisjoint(g: Graph, j: nat, k: nat)
    requires j < k
    ensures Layer(g, j) !! Layer(g, k)
  {
    DoneAtGrows(g, j + 1, k);
  }

  /** Every dependency of a node is in a strictly earlier layer. */
  lemma {:induction false} DependencyIsEarlier(g: Graph, k: nat, id: string, dep: string)
    requires id in Layer(g, k) && dep in Deps(g, id)
    ensures exists j :: 0 <= j < k && dep in Layer(g, j)
  {
    LayerOf(g, k, dep);
  }

  /** A node of a later layer has a dependency in the layer just before. */
  lemma {:induction false} PreviousLayer(g: Graph, k: nat, id: string)
    requires k > 0 && id in Layer(g, k)
    ensures exists dep :: dep in Deps(g, id) && dep in Layer(g, k - 1)
  {
    DoneAtGrows(g, k - 1, k);
    assert !IsReady(g, DoneAt(g, k - 1), id);
    var dep :| dep in Deps(g, id) && dep !in DoneAt(g, k - 1);
    assert dep in DoneAt(g, k);
  }

  lemma {:induction false} ChainOfLayerLength(g: Graph, k: nat, id: string)
    requires id in Layer(g, k)
    ensures exists c :: IsChainTo(g, c, id) && |c| == k + 1
  {
    if k == 0 {
      assert IsChainTo(g, [id], id);
    } else {
      PreviousLayer(g, k, id);
      var dep :| dep in Deps(g, id) && dep in Layer(g, k - 1);
      ChainOfLayerLength(g, k - 1, dep);
      var c :| IsChainTo(g, c, dep) && |c| == k;
      assert IsChainTo(g, c + [id], id);
    }
  }

  lemma {:induction false} NoLongerChain(g: Graph, k: nat, id: string, c: seq<string>)
    requires id in Layer(g, k) && IsChainTo(g, c, id)
    ensures |c| <= k + 1
    decreases |c|
  {
    if |c| > 1 {
      var front := c[..|c| - 1];
      var dep := c[|c| - 2];
      DependencyIsEarlier(g, k, id, dep);
      var j :| 0 <= j < k && dep in Layer(g, j);
      assert IsChainTo(g, front, dep);
      NoLongerChain(g, j, dep, front);
    }
  }

  /** The layer of a node is the length of the longest dependency chain that ends in it. */
  lemma {:induction false} LayerIsLongestChain(g: Graph, k: nat, id: string)
    requires id in Layer(g, k)
    ensures exists c :: IsChainTo(g, c, id) && |c| == k + 1
    ensures forall c :: IsChainTo(g, c, id) ==> |c| <= k + 1
  {
    ChainOfLayerLength(g, k, id);
    forall c | IsChainTo(g, c, id)
      ensures |c| <= k + 1
    {
      NoLongerChain(g, k, id, c);
    }
  }

  /** A sequence longer than the set its elements come from repeats one of them. */
  lemma {:induction false} Pigeonhole(s: seq<string>, from: set<string>)
    requires |s| > |from| && forall i :: 0 <= i < |s| ==> s[i] in from
    ensures exists i, j :: 0 <= i < j < |s| && s[i] == s[j]
    decreases |s|
  {
    var last := s[|s| - 1];
    if i :| 0 <= i < |s| - 1 && s[i] == last {
    } else {
      Pigeonhole(s[..|s| - 1], from - {last});
    }
  }

  lemma {:induction false} ChainCons(g: Graph, dep: string, c: seq<string>)
    requires IsChain(g, c) && dep in g.ids && dep in Deps(g, c[0])
    ensures IsChain(g, [dep] + c)
  {
    var longer := [dep] + c;
    forall i, j | 0 <= i < j < |longer| && j == i + 1
      ensures longer[i] in Deps(g, longer[j])
    {
      assert longer[j] == c[j - 1];
      assert i > 0 ==> longer[i] == c[i - 1];
    }
  }

  lemma {:induction false} SubChain(g: Graph, c: seq<string>, from: nat, to: nat)
    requires IsChain(g, c) && from < to <= |c|
    ensures IsChain(g, c[from..to])
  {
    var part := c[from..to];
    forall i, j | 0 <= i < j < |part| && j == i + 1
      ensures part[i] in Deps(g, part[j])
    {
      assert part[i] == c[from + i] && part[j] == c[from + j];
    }
  }

  ghost predicate DependsOnOneOf(g: Graph, stuck: set<string>, id: string) {
    exists dep :: dep in Deps(g, id) && dep in stuck
  }

  /** Within a set where every node depends on another of the set there are chains of any length. */
  lemma {:induction false} WalkBack(g: Graph, stuck: set<string>, n: nat)
    requires stuck != {} && stuck <= g.ids
    requires forall id {:trigger DependsOnOneOf(g, stuck, id)} :: id in stuck ==> DependsOnOneOf(g, stuck, id)
    ensures exists c :: IsChain(g, c) && |c| == n + 1 && forall i :: 0 <= i < |c| ==> c[i] in stuck
  {
    if n == 0 {
      var id :| id in stuck;
      assert IsChain(g, [id]);
    } else {
      WalkBack(g, stuck, n - 1);
      var c :| IsChain(g, c) && |c| == n && forall i :: 0 <= i < |c| ==> c[i] in stuck;
      assert DependsOnOneOf(g, stuck, c[0]);
      var dep :| dep in Deps(g, c[0]) && dep in stuck;
      var longer := [dep] + c;
      ChainCons(g, dep, c);
    }
  }

  lemma {:induction false} StuckNodeDepends(g: Graph, done: set<string>, id: string)
    requires Closed(g) && Wave(g, done) == {} && id in g.ids && id !in done
    ensures DependsOnOneOf(g, g.ids - done, id)
  {
    assert id !in Wave(g, done);
    var dep :| dep in Deps(g, id) && dep !in done;
    assert dep in g.ids - done;
  }

  lemma {:induction false} CycleInWalk(g: Graph, stuck: set<string>, c: seq<string>)
    requires IsChain(g, c) && |c| > |stuck| && forall i :: 0 <= i < |c| ==> c[i] in stuck
    ensures exists cycle :: IsCycle(g, cycle) && forall i :: 0 <= i < |cycle| ==> cycle[i] in stuck
  {
    Pigeonhole(c, stuck);
    var i, j :| 0 <= i < j < |c| && c[i] == c[j];
    SubChain(g, c, i, j + 1);
    var cycle := c[i..j + 1];
    assert forall k :: 0 <= k < |cycle| ==> cycle[k] in stuck;
    assert IsCycle(g, cycle);
  }

  /** When no node is ready although some are left, the remaining nodes contain a cycle. */
  lemma {:induction false} StuckMeansCycle(g: Graph, done: set<string>)
    requires Closed(g) && Wave(g, done) == {} && !(g.ids <= done)
    ensures exists c :: IsCycle(g, c) && forall i :: 0 <= i < |c| ==> c[i] in g.ids - done
  {
    var stuck := g.ids - done;
    var id :| id in g.ids && id !in done;
    assert id in stuck;
    forall id | id in stuck {
      StuckNodeDepends(g, done, id);
    }
    WalkBack(g, stuck, |stuck|);
    var c :| IsChain(g, c) && |c| == |stuck| + 1 && forall i :: 0 <= i < |c| ==> c[i] in stuck;
    CycleInWalk(g, stuck, c);
  }

  /** A node of a cycle is never processed. */
  lemma {:induction false} CyclesAreNeverDone(g: Graph, c: seq<string>, k: nat)
    requires IsCycle(g, c)
    ensures forall i :: 0 <= i < |c| ==> c[i] !in DoneAt(g, k)
  {
    if k > 0 {
      CyclesAreNeverDone(g, c, k - 1);
      forall i | 0 <= i < |c|
        ensures c[i] !in Layer(g, k - 1)
      {
        var before := if i == 0 then c[|c| - 2] else c[i - 1];
        assert before in Deps(g, c[i]);
      }
    }
  }

  /** Processing layer by layer covers the graph exactly when it has no cycle. */
  lemma {:induction false} CoveredIffAcyclic(g: Graph, k: nat)
    requires Closed(g) && Layer(g, k) == {}
    ensures DoneAt(g, k) == g.ids <==> Acyclic(g)
  {
    DoneAtIsClosed(g, k);
    if DoneAt(g, k) == g.ids {
      forall c
        ensures !IsCycle(g, c)
      {
        if IsCycle(g, c) {
          CyclesAreNeverDone(g, c, k);
        }
      }
    } else {
      StuckMeansCycle(g, DoneAt(g, k));
    }
  }

  /** What a node needs transitively is done once its direct dependencies and theirs are. */
  lemma {:induction false} UpstreamIsDone(g: Graph, done: set<string>, c: seq<string>, id: string)
    requires DependencyClosed(g, done) && IsChainTo(g, c, id) && |c| > 1
    requires forall dep :: dep in Deps(g, id) ==> dep in done
    ensures c[0] in done
    decreases |c|
  {
    var dep := c[|c| - 2];
    if |c| > 2 {
      UpstreamIsDone(g, done, c[..|c| - 1], dep);
    }
  }

  lemma {:induction false} AllUpstreamDone(g: Graph, done: set<string>, id: string)
    requires DependencyClosed(g, done) && forall dep :: dep in Deps(g, id) ==> dep in done
    ensures forall d :: Upstream(g, d, id) ==> d in done
  {
    forall d | Upstream(g, d, id)
      ensures d in done
    {
      var c :| IsChainTo(g, c, id) && |c| > 1 && c[0] == d;
      UpstreamIsDone(g, done, c, id);
    }
  }
}
