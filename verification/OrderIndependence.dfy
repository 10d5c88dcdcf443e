/** The order in which ready nodes are processed does not matter, and neither does a restart from a checkpoint. */
module OrderIndependence {
  import opened Prelude
  import opened Model
  import opened Graph
  import opened Dag
  import opened Evaluator
  import opened Templates
  import opened Semantics

  /** The reference paths in the templates of a node. */
  function NodePaths(node: NodeDef): set<seq<string>> {
    match node
    case ApprovalOf(approval) => TemplatePaths(approval.when_)
    case StepOf(step) =>
      TemplatePaths(step.when_) + TemplatePaths(step.command) + TemplatePaths(step.image) + TemplatePaths(step.host)
      + (set k, path | k in step.env && path in TemplatePaths(step.env[k]) :: path)
  }

  /** Templates read the results of other steps only by name, and only of nodes they transitively depend on. */
  ghost predicate ReadsOnlyUpstream(g: Graph, nodes: map<string, NodeDef>) {
    forall id, path :: id in nodes && path in NodePaths(nodes[id]) && path != [] && path[0] == "steps"
      ==> |path| > 1 && Upstream(g, path[1], id)
  }

  /** A step node carries its own ID, as BuildDAG makes it. */
  ghost predicate Keyed(nodes: map<string, NodeDef>) {
    forall id :: id in nodes && nodes[id].StepOf? ==> nodes[id].step.id == id
  }

  lemma {:induction false} NodesAreKeyed(def: WorkflowDefinition)
    ensures Keyed(NodesOf(def))
  {
    StepsAreKeyed(map[], def.steps);
    ApprovalsKeepKeyed(FoldLeft(PutStep(), map[], def.steps), def.approvals);
  }

  lemma {:induction false} StepsAreKeyed(nodes: map<string, NodeDef>, steps: seq<StepDef>)
    requires Keyed(nodes)
    ensures Keyed(FoldLeft(PutStep(), nodes, steps))
    decreases |steps|
  {
    if steps != [] {
      StepsAreKeyed(PutStep()(nodes, steps[0]), steps[1..]);
    }
  }

  lemma {:induction false} ApprovalsKeepKeyed(nodes: map<string, NodeDef>, approvals: seq<ApprovalDef>)
    requires Keyed(nodes)
    ensures Keyed(FoldLeft(PutApproval(), nodes, approvals))
    decreases |approvals|
  {
    if approvals != [] {
      ApprovalsKeepKeyed(PutApproval()(nodes, approvals[0]), approvals[1..]);
    }
  }

  lemma {:induction false} EvaluateOrEmptyDependsOnPaths(lib: Library, s: string, ctx: EvalContext, ctx': EvalContext)
    requires Agree(TemplatePaths(s), ctx, ctx')
    ensures EvaluateOrEmpty(lib, s, ctx) == EvaluateOrEmpty(lib, s, ctx')
  {
    EvaluateStringDependsOnPaths(lib, s, ctx, ctx');
  }

  lemma {:induction false} RequestDependsOnPaths(
      lib: Library, step: StepDef, command: string, ctx: EvalContext, ctx': EvalContext)
    requires Agree(NodePaths(StepOf(step)), ctx, ctx')
    ensures RequestOf(lib, step, command, ctx) == RequestOf(lib, step, command, ctx')
  {
    EvaluateOrEmptyDependsOnPaths(lib, step.image, ctx, ctx');
    EvaluateOrEmptyDependsOnPaths(lib, step.host, ctx, ctx');
    forall k | k in step.env
      ensures EvaluateOrEmpty(lib, step.env[k], ctx) == EvaluateOrEmpty(lib, step.env[k], ctx')
    {
      assert forall path :: path in TemplatePaths(step.env[k]) ==> path in NodePaths(StepOf(step));
      EvaluateOrEmptyDependsOnPaths(lib, step.env[k], ctx, ctx');
    }
  }

  /** What becomes of a node depends on the context only through the paths in its templates. */
  lemma {:induction false} OutcomeDependsOnPaths(
      w: World, node: NodeDef, rowTaken: bool, ctx: EvalContext, ctx': EvalContext, id: string)
    requires Agree(NodePaths(node), ctx, ctx')
    ensures NodeOutcomeOf(w, node, rowTaken, ctx, id) == NodeOutcomeOf(w, node, rowTaken, ctx', id)
  {
    hide EvaluateString;
    hide TemplatePaths;
    hide RequestOf;
    hide TryFrom;
    match node
    case ApprovalOf(approval) =>
      EvaluateStringDependsOnPaths(w.lib, approval.when_, ctx, ctx');
    case StepOf(step) =>
      EvaluateStringDependsOnPaths(w.lib, step.when_, ctx, ctx');
      EvaluateStringDependsOnPaths(w.lib, step.command, ctx, ctx');
      match EvaluateString(w.lib, step.command, ctx)
      case Err =>
      case Ok(command) => RequestDependsOnPaths(w.lib, step, command, ctx, ctx');
  }

  /** The two states tell the same about node id. */
  ghost predicate SameAt(a: RunState, b: RunState, id: string) {
    && id in a.completed && id in b.completed && a.completed[id] == b.completed[id]
    && (id in a.steps <==> id in b.steps)
    && (id in a.steps ==> a.steps[id] == b.steps[id])
  }

  ghost predicate Extends(a: RunState, b: RunState) {
    forall id :: id in a.completed ==> SameAt(a, b, id)
  }

  lemma {:induction false} StepsOnlyReadUpstream(
      w: World, g: Graph, nodes: map<string, NodeDef>, a: RunState, b: RunState, id: string)
    requires ReadsOnlyUpstream(g, nodes) && id in nodes && Extends(a, b)
    requires DependencyClosed(g, a.completed.Keys) && IsReady(g, a.completed.Keys, id)
    ensures Agree(NodePaths(nodes[id]), Context(w, a.steps), Context(w, b.steps))
  {
    hide NodePaths;
    hide DrillDown;
    hide Upstream;
    hide DependencyClosed;
    AllUpstreamDone(g, a.completed.Keys, id);
    forall path | path in NodePaths(nodes[id])
      ensures ResolveRef(path, Context(w, a.steps)) == ResolveRef(path, Context(w, b.steps))
    {
      if path != [] && path[0] == "steps" {
        assert SameAt(a, b, path[1]);
      }
    }
  }

  /** Later nodes change neither the result nor the outputs of earlier ones, and add only their own rows. */
  lemma {:induction false} RunsExtend(w: World, g: Graph, nodes: map<string, NodeDef>, st: RunState, order: seq<string>)
    requires nodes.Keys == g.ids && Keyed(nodes) && Respects(g, st.completed.Keys, order)
    ensures forall id :: id in order ==> id in nodes
    ensures RunSeq(w, nodes, st, order).Next? ==> Extends(st, RunSeq(w, nodes, st, order).st)
    decreases |order|
  {
    RespectsAreNodes(g, st.completed.Keys, order);
    if order != [] && ProcessNode(w, nodes[order[0]], st, order[0]).Next? {
      var st' := ProcessNode(w, nodes[order[0]], st, order[0]).st;
      assert st'.completed.Keys == st.completed.Keys + {order[0]};
      RunsExtend(w, g, nodes, st', order[1..]);
    }
  }

  /** Seen from the final outputs, every processed node of a finished run still has the result it got. */
  ghost predicate Settled(w: World, nodes: map<string, NodeDef>, rows: set<string>, final: RunState, id: string)
    requires id in nodes
  {
    && id in final.completed
    && NodeOutcomeOf(w, nodes[id], RowTaken(nodes[id], rows), Context(w, final.steps), id)
        == Finished(final.completed[id])
    && (nodes[id].StepOf? ==> id in final.steps && final.steps[id] == OutputsOf(final.completed[id]))
    && (nodes[id].ApprovalOf? ==> id !in final.steps)
  }

  /** Approvals never publish outputs, so nothing but a step has any. */
  ghost predicate NoApprovalOutputs(nodes: map<string, NodeDef>, st: RunState) {
    forall id :: id in nodes && nodes[id].ApprovalOf? ==> id !in st.steps
  }

  lemma {:induction false} FinishedRunIsSettled(
      w: World, g: Graph, nodes: map<string, NodeDef>, st: RunState, order: seq<string>, rows: set<string>, n: string)
    requires nodes.Keys == g.ids && Keyed(nodes) && ReadsOnlyUpstream(g, nodes) && NoApprovalOutputs(nodes, st)
    requires DependencyClosed(g, st.completed.Keys) && Respects(g, st.completed.Keys, order)
    requires forall id :: id in nodes && id !in st.completed ==> (id in st.rows <==> id in rows)
    requires (forall id :: id in order ==> id in nodes) && RunSeq(w, nodes, st, order).Next? && n in order
    ensures Settled(w, nodes, rows, RunSeq(w, nodes, st, order).st, n)
    decreases |order|
  {
    var id := order[0];
    var final := RunSeq(w, nodes, st, order).st;
    var st' := ProcessNode(w, nodes[id], st, id).st;
    assert st'.completed.Keys == st.completed.Keys + {id};
    if n == id {
      RunsExtend(w, g, nodes, st, order);
      RunsExtend(w, g, nodes, st', order[1..]);
      StepsOnlyReadUpstream(w, g, nodes, st, final, id);
      OutcomeDependsOnPaths(w, nodes[id], RowTaken(nodes[id], rows), Context(w, st.steps), Context(w, final.steps), id);
      assert SameAt(st', final, id);
    } else {
      FinishedRunIsSettled(w, g, nodes, st', order[1..], rows, n);
    }
  }

  /** Any dependency-respecting order replays the results of a settled state. */
  lemma {:induction false} ReplaySettled(
      w: World, g: Graph, nodes: map<string, NodeDef>, st: RunState, order: seq<string>, rows: set<string>,
      final: RunState)
    requires nodes.Keys == g.ids && Keyed(nodes) && ReadsOnlyUpstream(g, nodes) && Extends(st, final)
    requires DependencyClosed(g, st.completed.Keys) && Respects(g, st.completed.Keys, order)
    requires NoApprovalOutputs(nodes, st)
    requires forall id :: id in nodes && id !in st.completed ==> (id in st.rows <==> id in rows)
    requires forall id :: id in order ==> id in nodes && Settled(w, nodes, rows, final, id)
    ensures RunSeq(w, nodes, st, order).Next? && Extends(RunSeq(w, nodes, st, order).st, final)
    decreases |order|
  {
    hide ReadsOnlyUpstream;
    hide NodeOutcomeOf;
    if order != [] {
      var id := order[0];
      assert Settled(w, nodes, rows, final, id);
      ReplayOne(w, g, nodes, st, id, rows, final);
      ReplaySettled(w, g, nodes, ProcessNode(w, nodes[id], st, id).st, order[1..], rows, final);
    }
  }

  lemma {:induction false} ReplayOne(
      w: World, g: Graph, nodes: map<string, NodeDef>, st: RunState, id: string, rows: set<string>, final: RunState)
    requires Keyed(nodes) && ReadsOnlyUpstream(g, nodes) && Extends(st, final) && NoApprovalOutputs(nodes, st)
    requires DependencyClosed(g, st.completed.Keys) && id in nodes && IsReady(g, st.completed.Keys, id)
    requires forall x :: x in nodes && x !in st.completed ==> (x in st.rows <==> x in rows)
    requires Settled(w, nodes, rows, final, id)
    ensures ProcessNode(w, nodes[id], st, id).Next?
    ensures var st' := ProcessNode(w, nodes[id], st, id).st;
            && Extends(st', final) && NoApprovalOutputs(nodes, st')
            && st'.completed.Keys == st.completed.Keys + {id} && DependencyClosed(g, st'.completed.Keys)
            && forall x :: x in nodes && x !in st'.completed ==> (x in st'.rows <==> x in rows)
  {
    StepsOnlyReadUpstream(w, g, nodes, st, final, id);
    OutcomeDependsOnPaths(w, nodes[id], RowTaken(nodes[id], rows), Context(w, st.steps), Context(w, final.steps), id);
    assert RowTaken(nodes[id], rows) == RowTaken(nodes[id], st.rows);
    hide NodeOutcomeOf;
    hide ReadsOnlyUpstream;
    hide NodePaths;
    assert ProcessNode(w, nodes[id], st, id) == Next(CompleteNode(st, nodes[id], id, final.completed[id]));
    hide ProcessNode;
    hide DependencyClosed;
    hide IsReady;
    CompletionExtends(w, nodes, st, id, rows, final);
    ClosedWithReady(g, st.completed.Keys, id);
  }

  lemma ClosedWithReady(g: Graph, done: set<string>, id: string)
    requires DependencyClosed(g, done) && IsReady(g, done, id)
    ensures DependencyClosed(g, done + {id})
  {
  }

  lemma CompletionExtends(
      w: World, nodes: map<string, NodeDef>, st: RunState, id: string, rows: set<string>, final: RunState)
    requires Keyed(nodes) && Extends(st, final) && NoApprovalOutputs(nodes, st) && id in nodes && id !in st.completed
    requires forall x :: x in nodes && x !in st.completed ==> (x in st.rows <==> x in rows)
    requires Settled(w, nodes, rows, final, id)
    ensures var st' := CompleteNode(st, nodes[id], id, final.completed[id]);
            && Extends(st', final) && NoApprovalOutputs(nodes, st') && st'.completed.Keys == st.completed.Keys + {id}
            && forall x :: x in nodes && x !in st'.completed ==> (x in st'.rows <==> x in rows)
  {
    hide NodeOutcomeOf;
  }

  /** A whole run from st: it respects dependencies and processes every node that is left. */
  ghost predicate WholeRun(g: Graph, st: RunState, order: seq<string>) {
    Respects(g, st.completed.Keys, order) && st.completed.Keys + Elements(order) == g.ids
  }

  /**
   * If one processing order succeeds, every order that respects the dependencies does, with the same results;
   * so if one fails, none succeeds.
   */
  lemma {:induction false} OrderDoesNotMatter(
      w: World, g: Graph, nodes: map<string, NodeDef>, st: RunState, order: seq<string>, order': seq<string>)
    requires nodes.Keys == g.ids && Keyed(nodes) && ReadsOnlyUpstream(g, nodes) && NoApprovalOutputs(nodes, st)
    requires DependencyClosed(g, st.completed.Keys) && WholeRun(g, st, order) && WholeRun(g, st, order')
    ensures (forall id :: id in order ==> id in nodes) && forall id :: id in order' ==> id in nodes
    ensures RunSeq(w, nodes, st, order).Next? <==> RunSeq(w, nodes, st, order').Next?
    ensures RunSeq(w, nodes, st, order).Next? ==>
              RunSeq(w, nodes, st, order).st.completed == RunSeq(w, nodes, st, order').st.completed
  {
    RespectsAreNodes(g, st.completed.Keys, order);
    RespectsAreNodes(g, st.completed.Keys, order');
    if RunSeq(w, nodes, st, order).Next? {
      OneOrderDecides(w, g, nodes, st, order, order');
    } else if RunSeq(w, nodes, st, order').Next? {
      OneOrderDecides(w, g, nodes, st, order', order);
    }
  }

  lemma {:induction false} OneOrderDecides(
      w: World, g: Graph, nodes: map<string, NodeDef>, st: RunState, order: seq<string>, order': seq<string>)
    requires nodes.Keys == g.ids && Keyed(nodes) && ReadsOnlyUpstream(g, nodes) && NoApprovalOutputs(nodes, st)
    requires DependencyClosed(g, st.completed.Keys) && WholeRun(g, st, order) && WholeRun(g, st, order')
    requires (forall id :: id in order ==> id in nodes) && forall id :: id in order' ==> id in nodes
    requires RunSeq(w, nodes, st, order).Next?
    ensures RunSeq(w, nodes, st, order').Next?
    ensures RunSeq(w, nodes, st, order).st.completed == RunSeq(w, nodes, st, order').st.completed
  {
    var final := RunSeq(w, nodes, st, order).st;
    RespectsAreNodes(g, st.completed.Keys, order');
    forall id | id in order'
      ensures Settled(w, nodes, st.rows, final, id)
    {
      assert id in st.completed.Keys + Elements(order);
      FinishedRunIsSettled(w, g, nodes, st, order, st.rows, id);
    }
    RunsExtend(w, g, nodes, st, order);
    ReplaySettled(w, g, nodes, st, order', st.rows, final);
    RunSeqCompletes(w, nodes, st, order);
    RunSeqCompletes(w, nodes, st, order');
    var final' := RunSeq(w, nodes, st, order').st;
    forall id | id in final'.completed
      ensures final'.completed[id] == final.completed[id]
    {
      assert SameAt(final', final, id);
    }
  }
}
