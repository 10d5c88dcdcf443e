/** What the validator's acceptance means for an execution: its run cannot get stuck. */
module AcceptedRuns {
  import opened Graph
  import opened Dag
  import opened StateMachine
  import opened Semantics
  import opened OrderIndependence
  import opened Resume
  import opened Waves
  import opened Executor
  import opened Validator
  import opened Evaluator
  import opened Model
  import opened ExprRoundTrip

  /** In whatever way the run from st0 has gone so far, the next ready node finishes. */
  ghost predicate RunsSmoothly(w: World, g: Graph, nodes: map<string, NodeDef>, st0: RunState) {
    forall order, st, id ::
      GoneThrough(w, g, nodes, st0, order, st) && id in nodes && IsReady(g, st.completed.Keys, id) ==>
        NodeOutcomeOf(w, nodes[id], RowTaken(nodes[id], st.rows), Context(w, st.steps), id).Finished?
  }

  lemma {:induction false} SmoothNeverStops(
      w: World, g: Graph, nodes: map<string, NodeDef>, st0: RunState, done: seq<string>, st: RunState,
      rest: seq<string>)
    requires RunsSmoothly(w, g, nodes, st0) && GoneThrough(w, g, nodes, st0, done, st)
    requires Respects(g, st.completed.Keys, rest) && forall id :: id in rest ==> id in nodes
    ensures RunSeq(w, nodes, st, rest).Next?
    decreases |rest|
  {
    hide GoneThrough;
    hide NodeOutcomeOf;
    if rest != [] {
      var id := rest[0];
      assert NodeOutcomeOf(w, nodes[id], RowTaken(nodes[id], st.rows), Context(w, st.steps), id).Finished?;
      OneMore(w, g, nodes, st0, done, st, id);
      var st' := ProcessNode(w, nodes[id], st, id).st;
      assert st'.completed.Keys == st.completed.Keys + {id};
      hide RunsSmoothly;
      SmoothNeverStops(w, g, nodes, st0, done + [id], st', rest[1..]);
    }
  }

  // ----- what makes a run smooth -----

  /** Every runner exists and succeeds within the attempts of its step. */
  ghost predicate RunnersSucceed(w: World, nodes: map<string, NodeDef>) {
    forall id, req :: id in nodes && nodes[id].StepOf? ==> RunnerSucceeds(w, nodes[id].step, req)
  }

  predicate RunnerSucceeds(w: World, step: StepDef, req: Request) {
    var t := TryFrom(w, step.runner, req, 1, MaxAttempts(step));
    w.hasRunner(step.runner) && (t.Success? || t.NeverRun?)
  }

  ghost predicate ApprovalsGranted(w: World, nodes: map<string, NodeDef>) {
    forall id :: id in nodes && nodes[id].ApprovalOf? ==> w.approves(nodes[id].approval.id)
  }

  /** What a finished step may have published: nothing when it was skipped or not run, else what a success leaves. */
  ghost predicate MayPublish(step: StepDef, outputs: map<string, Value>) {
    || (outputs == map[] && (step.when_ != "" || MaxAttempts(step) < 1))
    || exists r :: IsSuccess(r) && outputs == Outputs(r)
  }

  /** The outputs a node can find when its turn comes: all its upstream steps have published theirs. */
  ghost predicate Presents(g: Graph, nodes: map<string, NodeDef>, steps: map<string, map<string, Value>>, id: string) {
    forall d :: Upstream(g, d, id) && d in nodes && nodes[d].StepOf? ==>
        d in steps && MayPublish(nodes[d].step, steps[d])
  }

  ghost predicate Evaluates(w: World, node: NodeDef, ctx: EvalContext) {
    match node
    case ApprovalOf(approval) => !EvaluateCondition(w.lib, approval.when_, ctx).ConditionError?
    case StepOf(step) =>
      var condition := EvaluateCondition(w.lib, step.when_, ctx);
      !condition.ConditionError? && (condition.Proceed? ==> Templates.EvaluateString(w.lib, step.command, ctx).Ok?)
  }

  /** Conditions and commands evaluate on the inputs of the execution and on what upstream steps can publish. */
  ghost predicate TemplatesEvaluate(w: World, g: Graph, nodes: map<string, NodeDef>) {
    forall id, steps :: id in nodes && Presents(g, nodes, steps, id) ==> Evaluates(w, nodes[id], Context(w, steps))
  }

  /** Every finished step of the state has published something that it may publish. */
  ghost predicate AllPublished(nodes: map<string, NodeDef>, st: RunState) {
    forall d :: d in st.completed && d in nodes && nodes[d].StepOf? ==>
        d in st.steps && MayPublish(nodes[d].step, st.steps[d])
  }

  /** No node that is still to be processed has a row already. */
  ghost predicate RowsAreFree(nodes: map<string, NodeDef>, st: RunState) {
    forall id :: id in nodes && id !in st.completed ==> id !in st.rows
  }

  lemma {:induction false} FinishedPublishes(w: World, step: StepDef, rowTaken: bool, ctx: EvalContext)
    requires ExecuteStep(w, step, rowTaken, ctx).Done?
    ensures MayPublish(step, OutputsOf(ExecuteStep(w, step, rowTaken, ctx).result))
  {
    hide RequestOf;
    match EvaluateCondition(w.lib, step.when_, ctx)
    case ConditionError =>
    case Skip =>
    case Proceed =>
      match Templates.EvaluateString(w.lib, step.command, ctx)
      case Err =>
      case Ok(command) => TriedUntil(w, step.runner, RequestOf(w.lib, step, command, ctx), 1, MaxAttempts(step));
  }

  lemma {:induction false} TriedUntil(w: World, runner: string, req: Request, k: nat, max: int)
    ensures TryFrom(w, runner, req, k, max).Success? ==> IsSuccess(TryFrom(w, runner, req, k, max).result)
    ensures TryFrom(w, runner, req, k, max).NeverRun? ==> k > max
    decreases max - k
  {
    if k < max && !IsSuccess(w.run(runner, req, k)) && !w.deadlinePasses(req.stepId, k) {
      TriedUntil(w, runner, req, k + 1, max);
    }
  }

  lemma {:induction false} RunPublishes(
      w: World, g: Graph, nodes: map<string, NodeDef>, st: RunState, order: seq<string>)
    requires Keyed(nodes) && AllPublished(nodes, st) && RowsAreFree(nodes, st)
    requires (forall id :: id in order ==> id in nodes) && RunSeq(w, nodes, st, order).Next?
    ensures AllPublished(nodes, RunSeq(w, nodes, st, order).st) && RowsAreFree(nodes, RunSeq(w, nodes, st, order).st)
    decreases |order|
  {
    hide ExecuteStep;
    hide EvaluateCondition;
    hide MayPublish;
    if order != [] {
      var id := order[0];
      if nodes[id].StepOf? {
        FinishedPublishes(w, nodes[id].step, RowTaken(nodes[id], st.rows), Context(w, st.steps));
      }
      RunPublishes(w, g, nodes, ProcessNode(w, nodes[id], st, id).st, order[1..]);
    }
  }

  lemma {:induction false} GoodNodeFinishes(w: World, node: NodeDef, ctx: EvalContext, id: string)
    requires Evaluates(w, node, ctx)
    requires node.StepOf? ==> forall req :: RunnerSucceeds(w, node.step, req)
    requires node.ApprovalOf? ==> w.approves(node.approval.id)
    ensures NodeOutcomeOf(w, node, false, ctx, id).Finished?
  {
    hide EvaluateCondition;
    hide RequestOf;
    if node.StepOf? && Templates.EvaluateString(w.lib, node.step.command, ctx).Ok? {
      var command := Templates.EvaluateString(w.lib, node.step.command, ctx).value;
      assert RunnerSucceeds(w, node.step, RequestOf(w.lib, node.step, command, ctx));
    }
  }

  /** Runners that succeed, approvals that are granted and templates that evaluate make every run smooth. */
  lemma {:induction false} GoodWorldRunsSmoothly(w: World, g: Graph, nodes: map<string, NodeDef>, st0: RunState)
    requires Keyed(nodes) && nodes.Keys == g.ids && DependencyClosed(g, st0.completed.Keys)
    requires AllPublished(nodes, st0) && RowsAreFree(nodes, st0)
    requires RunnersSucceed(w, nodes) && ApprovalsGranted(w, nodes) && TemplatesEvaluate(w, g, nodes)
    ensures RunsSmoothly(w, g, nodes, st0)
  {
    hide NodeOutcomeOf;
    hide RunnerSucceeds;
    hide Evaluates;
    hide MayPublish;
    hide RunSeq;
    forall order, st, id |
      GoneThrough(w, g, nodes, st0, order, st) && id in nodes && IsReady(g, st.completed.Keys, id)
      ensures NodeOutcomeOf(w, nodes[id], RowTaken(nodes[id], st.rows), Context(w, st.steps), id).Finished?
    {
      RunPublishes(w, g, nodes, st0, order);
      RespectedIsClosed(g, st0.completed.Keys, order);
      AllUpstreamDone(g, st.completed.Keys, id);
      assert Presents(g, nodes, st.steps, id);
      assert !RowTaken(nodes[id], st.rows);
      GoodNodeFinishes(w, nodes[id], Context(w, st.steps), id);
    }
  }

  const PLAIN := SKIPPED.(when_ := "")
  const PLAIN_THEN_READ := map["a" := StepOf(PLAIN), "b" := StepOf(READER)]
  const PLAIN_THEN_READ_GRAPH := Graph({"a", "b"}, map["b" := ["a"]])

  /** For example, a step that reads what an earlier one has published evaluates whenever its turn comes. */
  lemma {:induction false} ReadingUpstreamEvaluates(w: World)
    ensures TemplatesEvaluate(w, PLAIN_THEN_READ_GRAPH, PLAIN_THEN_READ)
  {
    var g, nodes := PLAIN_THEN_READ_GRAPH, PLAIN_THEN_READ;
    assert IsChainTo(g, ["a", "b"], "b") && Upstream(g, "a", "b");
    hide Upstream;
    hide Evaluates;
    hide ReadAll;
    forall id, steps | id in nodes && Presents(g, nodes, steps, id)
      ensures Evaluates(w, nodes[id], Context(w, steps))
    {
      if id == "b" {
        assert "a" in steps;
        ReaderEvaluates(w, Context(w, steps));
      } else {
        PlainEvaluates(w, Context(w, steps));
      }
    }
  }

  lemma ReaderEvaluates(w: World, ctx: EvalContext)
    requires "a" in ctx.steps
    ensures Evaluates(w, StepOf(READER), ctx)
  {
    hide ReadAll;
    hide Templates.EvaluateString;
    assert IsIdent("a");
    ReadAllReadsOutputs(w.lib, "a", ctx);
  }

  lemma PlainEvaluates(w: World, ctx: EvalContext)
    ensures Evaluates(w, StepOf(PLAIN), ctx)
  {
  }

  lemma {:induction false} ReachedIsWithin(w: World, g: Graph, nodes: map<string, NodeDef>, st0: RunState,
                                           waves: seq<seq<string>>, st: RunState)
    requires nodes.Keys == g.ids && st0.completed.Keys <= g.ids && InWaves(w, g, nodes, st0, waves, st)
    ensures st.completed.Keys <= g.ids
    ensures |st.completed| == |nodes| <==> st.completed.Keys == g.ids
  {
    RespectsAreNodes(g, st0.completed.Keys, Flatten(waves));
    SubsetSize(st.completed.Keys, g.ids);
    assert |st.completed| == |st.completed.Keys| && |nodes| == |nodes.Keys|;
  }

  /**
   * A call that starts from nothing and runs out of ready nodes has finished all nodes, each once,
   * exactly when the graph has no cycle; otherwise it takes the branch that marks a stuck execution as failed.
   */
  lemma {:induction false} StuckIffCyclic(w: World, g: Graph, nodes: map<string, NodeDef>, rows: set<string>,
                                          waves: seq<seq<string>>, st: RunState)
    requires Closed(g) && nodes.Keys == g.ids
    requires InWaves(w, g, nodes, Restored(map[], rows), waves, st) && Wave(g, st.completed.Keys) == {}
    ensures |st.completed| == |nodes| <==> Acyclic(g)
    ensures |st.completed| == |nodes| <==> Elements(Flatten(waves)) == g.ids
    ensures NoDuplicates(Flatten(waves))
  {
    hide AreWaves;
    hide Acyclic;
    hide Closed;
    hide Wave;
    hide RunSeq;
    var st0 := Restored(map[], rows);
    assert st0.completed.Keys == {};
    ReachedIsWithin(w, g, nodes, st0, waves, st);
    RespectsDistinct(g, {}, Flatten(waves));
    assert st.completed.Keys == Elements(Flatten(waves));
    WavesCoverIffAcyclic(g, waves);
  }

  /** An accepted definition whose nodes all finish when their turn comes succeeds, whatever is finished already. */
  lemma {:induction false} AcceptedRunSucceeds(
      e: Executor, def: WorkflowDefinition, saved: Completed, rows: set<string>,
      r: ExecuteResult, waves: seq<seq<string>>, partial: seq<string>)
    requires Accepted(def) && saved.Keys <= NodesOf(def).Keys
    requires RunsSmoothly(e.world, GraphOf(def), NodesOf(def), Restored(saved, rows))
    requires e.RanFrom(GraphOf(def), NodesOf(def), Restored(saved, rows), r, waves, partial)
    ensures r.Ended? && e.rowStatus == Succeeded && e.completed.Keys == NodesOf(def).Keys
  {
    hide RunsSmoothly;
    hide NodesOf;
    hide GraphOf;
    var g, nodes, st0 := GraphOf(def), NodesOf(def), Restored(saved, rows);
    AcceptedGraph(def);
    if partial != [] {
      var order := Flatten(waves) + partial;
      var reason :| StoppedBy(e.world, g, nodes, st0, order, reason);
      NothingYet(e.world, g, nodes, st0);
      SmoothNeverStops(e.world, g, nodes, st0, [], st0, order);
    } else {
      ReachedIsWithin(e.world, g, nodes, st0, waves, e.Memory());
      NoCycleNoDeadEnd(g, e.completed.Keys);
    }
  }

  lemma AcceptedGraph(def: WorkflowDefinition)
    requires Accepted(def)
    ensures Closed(GraphOf(def)) && Acyclic(GraphOf(def)) && GraphOf(def).ids == NodesOf(def).Keys
            && Keyed(NodesOf(def))
  {
    NodesAreKeyed(def);
    GraphIsValid(def);
  }

  /** So from an empty checkpoint it succeeds when runners succeed, approvals are granted and templates evaluate. */
  lemma {:induction false} AcceptedInGoodWorldSucceeds(e: Executor, def: WorkflowDefinition, r: ExecuteResult,
                                                       waves: seq<seq<string>>, partial: seq<string>)
    requires Accepted(def) && RunnersSucceed(e.world, NodesOf(def)) && ApprovalsGranted(e.world, NodesOf(def))
    requires TemplatesEvaluate(e.world, GraphOf(def), NodesOf(def))
    requires e.RanFrom(GraphOf(def), NodesOf(def), Restored(map[], {}), r, waves, partial)
    ensures r.Ended? && e.rowStatus == Succeeded && e.completed.Keys == NodesOf(def).Keys
  {
    hide NodesOf;
    hide GraphOf;
    AcceptedGraph(def);
    GoodWorldRunsSmoothly(e.world, GraphOf(def), NodesOf(def), Restored(map[], {}));
    AcceptedRunSucceeds(e, def, map[], {}, r, waves, partial);
  }

  /** From an empty checkpoint its waves are, one by one, the layers of the sort. */
  lemma {:induction false} AcceptedRunFollowsTheSort(e: Executor, def: WorkflowDefinition, r: ExecuteResult,
      waves: seq<seq<string>>, layers: seq<seq<string>>)
    requires Accepted(def) && IsLayering(GraphOf(def), layers)
    requires e.RanFrom(GraphOf(def), NodesOf(def), Restored(map[], {}), r, waves, [])
    ensures e.rowStatus == Succeeded && e.completed.Keys == NodesOf(def).Keys
    ensures |waves| == |layers| && forall i :: 0 <= i < |waves| ==> Elements(waves[i]) == Elements(layers[i])
  {
    GraphIsValid(def);
    StuckIffCyclic(e.world, GraphOf(def), NodesOf(def), {}, waves, e.Memory());
    ReachedIsWithin(e.world, GraphOf(def), NodesOf(def), Restored(map[], {}), waves, e.Memory());
    assert {} + Elements(Flatten(waves)) == e.completed.Keys;
    WavesCoverTheSort(GraphOf(def), waves, layers);
  }
}
