/** Two Execute calls that start from the same rows, and choose their orders differently, end alike. */
module TwoCalls {
  import opened Model
  import opened Graph
  import opened Dag
  import opened Semantics
  import opened OrderIndependence
  import opened Waves
  import opened Executor

  /** Whatever respects the dependencies stays within what is done when no node is ready any more. */
  lemma {:induction false} RespectedStaysWithin(g: Graph, done: set<string>, order: seq<string>, all: set<string>)
    requires Respects(g, done, order) && done <= all && Wave(g, all) == {}
    ensures Elements(order) <= all
    decreases |order|
  {
    if order != [] {
      assert order[0] in all by {
        assert order[0] !in Wave(g, all);
      }
      RespectedStaysWithin(g, done + {order[0]}, order[1..], all);
    }
  }

  /** A run that has run out of ready nodes: no order can stop, and every order leads to the same results. */
  lemma {:induction false} FinishedRunDecides(
      w: World, g: Graph, nodes: map<string, NodeDef>, st: RunState, order: seq<string>, order': seq<string>)
    requires nodes.Keys == g.ids && Keyed(nodes) && ReadsOnlyUpstream(g, nodes) && NoApprovalOutputs(nodes, st)
    requires DependencyClosed(g, st.completed.Keys)
    requires Respects(g, st.completed.Keys, order) && Respects(g, st.completed.Keys, order')
    requires (forall id :: id in order ==> id in nodes) && forall id :: id in order' ==> id in nodes
    requires RunSeq(w, nodes, st, order).Next?
    requires Wave(g, RunSeq(w, nodes, st, order).st.completed.Keys) == {}
    ensures RunSeq(w, nodes, st, order').Next?
    ensures Wave(g, RunSeq(w, nodes, st, order').st.completed.Keys) == {} ==>
              RunSeq(w, nodes, st, order').st.completed == RunSeq(w, nodes, st, order).st.completed
  {
    hide RunSeq;
    hide Wave;
    hide Keyed;
    hide ReadsOnlyUpstream;
    hide NoApprovalOutputs;
    hide DependencyClosed;
    hide Settled;
    var final := RunSeq(w, nodes, st, order).st;
    RunSeqCompletes(w, nodes, st, order);
    RespectedStaysWithin(g, st.completed.Keys, order', final.completed.Keys);
    RespectsAreNodes(g, st.completed.Keys, order');
    forall id | id in order'
      ensures Settled(w, nodes, st.rows, final, id)
    {
      assert id in Elements(order');
      FinishedRunIsSettled(w, g, nodes, st, order, st.rows, id);
    }
    RunsExtend(w, g, nodes, st, order);
    ReplaySettled(w, g, nodes, st, order', st.rows, final);
    var final' := RunSeq(w, nodes, st, order').st;
    RunSeqCompletes(w, nodes, st, order');
    if Wave(g, final'.completed.Keys) == {} {
      RespectedStaysWithin(g, st.completed.Keys, order, final'.completed.Keys);
      SameResults(final, final');
    }
  }

  lemma SameResults(a: RunState, b: RunState)
    requires a.completed.Keys == b.completed.Keys && Extends(b, a)
    ensures a.completed == b.completed
  {
    forall id | id in a.completed
      ensures a.completed[id] == b.completed[id]
    {
      assert SameAt(b, a, id);
    }
  }

  /**
   * If one call goes through, every call does, with the same results and the same final status; so either
   * both are cut short or none is, although different nodes may have stopped them.
   */
  lemma {:induction false} TwoCallsEndAlike(
      def: WorkflowDefinition, st: RunState, x: Executor, r: ExecuteResult, waves: seq<seq<string>>,
      partial: seq<string>,
      y: Executor, r': ExecuteResult, waves': seq<seq<string>>, partial': seq<string>)
    requires x.world == y.world && ReadsOnlyUpstream(GraphOf(def), NodesOf(def)) && NoApprovalOutputs(NodesOf(def), st)
    requires DependencyClosed(GraphOf(def), st.completed.Keys)
    requires x.RanFrom(GraphOf(def), NodesOf(def), st, r, waves, partial)
    requires y.RanFrom(GraphOf(def), NodesOf(def), st, r', waves', partial')
    ensures partial == [] <==> partial' == []
    ensures partial == [] ==> x.completed == y.completed && x.status == y.status && r == r'
  {
    hide GraphOf;
    hide NodesOf;
    if partial == [] {
      OneCallDecides(def, st, x, r, waves, y, r', waves', partial');
    } else if partial' == [] {
      OneCallDecides(def, st, y, r', waves', x, r, waves, partial);
    }
  }

  lemma {:induction false} OneCallDecides(
      def: WorkflowDefinition, st: RunState, x: Executor, r: ExecuteResult, waves: seq<seq<string>>,
      y: Executor, r': ExecuteResult, waves': seq<seq<string>>, partial': seq<string>)
    requires x.world == y.world && ReadsOnlyUpstream(GraphOf(def), NodesOf(def)) && NoApprovalOutputs(NodesOf(def), st)
    requires DependencyClosed(GraphOf(def), st.completed.Keys)
    requires x.RanFrom(GraphOf(def), NodesOf(def), st, r, waves, [])
    requires y.RanFrom(GraphOf(def), NodesOf(def), st, r', waves', partial')
    ensures partial' == [] && x.completed == y.completed && x.status == y.status && r == r'
  {
    hide RunSeq;
    hide Wave;
    hide Respects;
    hide ReadsOnlyUpstream;
    hide NoApprovalOutputs;
    hide DependencyClosed;
    hide AreWaves;
    var g, nodes := GraphOf(def), NodesOf(def);
    NodesAreKeyed(def);
    assert nodes.Keys == g.ids;
    hide GraphOf;
    hide NodesOf;
    hide Keyed;
    if partial' == [] {
      FinishedRunDecides(x.world, g, nodes, st, Flatten(waves), Flatten(waves'));
    } else {
      var reason :| StoppedBy(y.world, g, nodes, st, Flatten(waves') + partial', reason);
      FinishedRunDecides(x.world, g, nodes, st, Flatten(waves), Flatten(waves') + partial');
    }
  }
}
