/** The rounds in which Execute processes ready nodes, and how they relate to the layers of the sort. */
module Waves {
  import opened Prelude
  import opened Graph
  import opened Dag

  function Flatten(waves: seq<seq<string>>): seq<string> {
    if waves == [] then [] else waves[0] + Flatten(waves[1..])
  }

  /** Each wave lists exactly the nodes that were ready when it began, each once. */
  ghost predicate AreWaves(g: Graph, done: set<string>, waves: seq<seq<string>>)
    decreases |waves|
  {
    waves == []
    || (waves[0] != [] && NoDuplicates(waves[0]) && Elements(waves[0]) == Wave(g, done)
        && AreWaves(g, done + Elements(waves[0]), waves[1..]))
  }

  lemma {:induction false} FlattenSnoc(waves: seq<seq<string>>, wave: seq<string>)
    ensures Flatten(waves + [wave]) == Flatten(waves) + wave
  {
    if waves == [] {
      assert waves + [wave] == [wave];
      assert wave + [] == wave && [] + wave == wave;
    } else {
      FlattenSnoc(waves[1..], wave);
      assert (waves + [wave])[1..] == waves[1..] + [wave];
      Assoc(waves[0], Flatten(waves[1..]), wave);
    }
  }

  lemma {:induction false} AnotherWave(g: Graph, done: set<string>, waves: seq<seq<string>>, wave: seq<string>)
    requires AreWaves(g, done, waves) && wave != [] && NoDuplicates(wave)
    requires Elements(wave) == Wave(g, done + Elements(Flatten(waves)))
    ensures AreWaves(g, done, waves + [wave])
    decreases |waves|
  {
    if waves == [] {
      assert done + Elements(Flatten(waves)) == done;
      assert (waves + [wave])[1..] == [];
    } else {
      assert done + Elements(waves[0]) + Elements(Flatten(waves[1..])) == done + Elements(Flatten(waves));
      AnotherWave(g, done + Elements(waves[0]), waves[1..], wave);
      assert (waves + [wave])[1..] == waves[1..] + [wave];
    }
  }

  /** From an empty checkpoint, the k-th wave is the k-th layer of the topological sort. */
  lemma {:induction false} WavesAreLayers(g: Graph, k: nat, waves: seq<seq<string>>, i: nat)
    requires AreWaves(g, DoneAt(g, k), waves) && i < |waves|
    ensures Elements(waves[i]) == Layer(g, k + i)
    decreases i
  {
    if i > 0 {
      assert DoneAt(g, k) + Elements(waves[0]) == DoneAt(g, k + 1);
      WavesAreLayers(g, k + 1, waves[1..], i - 1);
    }
  }

  /** A run over a graph without cycles only runs out of ready nodes when every node is done. */
  lemma {:induction false} NoCycleNoDeadEnd(g: Graph, done: set<string>)
    requires Closed(g) && Acyclic(g) && Wave(g, done) == {} && done <= g.ids
    ensures done == g.ids
  {
    if done != g.ids {
      StuckMeansCycle(g, done);
    }
  }

  /** Waves taken from nothing until none is left cover the graph exactly when it has no cycle. */
  lemma {:induction false} WavesCoverIffAcyclic(g: Graph, waves: seq<seq<string>>)
    requires Closed(g) && AreWaves(g, {}, waves) && Wave(g, Elements(Flatten(waves))) == {}
    ensures Elements(Flatten(waves)) == g.ids <==> Acyclic(g)
  {
    WavesReach(g, 0, waves);
    assert {} + Elements(Flatten(waves)) == Elements(Flatten(waves));
    CoveredIffAcyclic(g, |waves|);
  }

  /** All waves of a finished run together are the layering: as many waves as layers, none left over. */
  lemma {:induction false} WavesCoverTheSort(g: Graph, waves: seq<seq<string>>, layers: seq<seq<string>>)
    requires AreWaves(g, {}, waves) && Wave(g, Elements(Flatten(waves))) == {} && IsLayering(g, layers)
    ensures |waves| == |layers|
    ensures forall i :: 0 <= i < |waves| ==> Elements(waves[i]) == Elements(layers[i])
  {
    WavesReach(g, 0, waves);
    assert {} + Elements(Flatten(waves)) == Elements(Flatten(waves));
    forall i | 0 <= i < |waves|
      ensures Layer(g, i) != {} && Elements(waves[i]) == Layer(g, i)
    {
      WavesAreLayers(g, 0, waves, i);
      WaveIsNotEmpty(g, {}, waves, i);
    }
    forall i | 0 <= i < |layers|
      ensures Layer(g, i) != {} && Elements(layers[i]) == Layer(g, i)
    {
      assert IsLayer(g, i, layers[i]);
      assert layers[i][0] in Elements(layers[i]);
    }
    assert Layer(g, |layers|) == {};
    FirstEmptyLayer(g, |waves|, |layers|);
  }

  lemma FirstEmptyLayer(g: Graph, m: nat, n: nat)
    requires Layer(g, m) == {} && Layer(g, n) == {}
    requires (forall i :: 0 <= i < m ==> Layer(g, i) != {}) && forall i :: 0 <= i < n ==> Layer(g, i) != {}
    ensures m == n
  {
  }

  lemma {:induction false} WavesReach(g: Graph, k: nat, waves: seq<seq<string>>)
    requires AreWaves(g, DoneAt(g, k), waves)
    ensures DoneAt(g, k) + Elements(Flatten(waves)) == DoneAt(g, k + |waves|)
    decreases |waves|
  {
    if waves != [] {
      assert DoneAt(g, k) + Elements(waves[0]) == DoneAt(g, k + 1);
      WavesReach(g, k + 1, waves[1..]);
      assert DoneAt(g, k) + Elements(waves[0]) + Elements(Flatten(waves[1..]))
             == DoneAt(g, k) + Elements(Flatten(waves));
    } else {
      assert Elements(Flatten(waves)) == {};
    }
  }

  lemma {:induction false} WaveIsNotEmpty(g: Graph, done: set<string>, waves: seq<seq<string>>, i: nat)
    requires AreWaves(g, done, waves) && i < |waves|
    ensures Elements(waves[i]) != {}
    decreases i
  {
    if i > 0 {
      WaveIsNotEmpty(g, done + Elements(waves[0]), waves[1..], i - 1);
    } else {
      assert waves[0][0] in Elements(waves[0]);
    }
  }
}
