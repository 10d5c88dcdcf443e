/** Running an execution again from its saved checkpoint. */
module Resume {
  import opened Prelude
  import opened HumlAst
  import opened Model
  import opened Graph
  import opened Dag
  import opened Evaluator
  import opened Templates
  import opened Semantics
  import opened OrderIndependence
  import opened ExprSyntax
  import opened ExprRoundTrip
  import opened TokenRoundTrip

  /** Saved as JSON, an empty set of outputs is left out. */
  function Encode(result: StepResult): StepResult {
    if result.outputs == Some(map[]) then result.(outputs := None) else result
  }

  function EncodeAll(completed: Completed): Completed {
    map id | id in completed :: Encode(completed[id])
  }

  /** The two sets of results are saved as the same checkpoint. */
  ghost predicate SavedAlike(a: Completed, b: Completed) {
    a.Keys == b.Keys && forall id :: id in a ==> Encode(a[id]) == Encode(b[id])
  }

  lemma {:induction false} SavedAlikeMeansSameCheckpoint(a: Completed, b: Completed)
    ensures SavedAlike(a, b) <==> EncodeAll(a) == EncodeAll(b)
  {
    if EncodeAll(a) == EncodeAll(b) {
      assert EncodeAll(a).Keys == a.Keys && EncodeAll(b).Keys == b.Keys;
      forall id | id in a
        ensures Encode(a[id]) == Encode(b[id])
      {
        assert EncodeAll(a)[id] == EncodeAll(b)[id];
      }
    }
  }

  /** The state a new Execute call starts from: results from the checkpoint, outputs only of results that have some. */
  function Restored(checkpoint: Completed, rows: set<string>): RunState {
    var steps := map id | id in checkpoint && checkpoint[id].outputs.Some? :: checkpoint[id].outputs.value;
    RunState(checkpoint, steps, rows)
  }

  /** In a run that started from an empty checkpoint, the published outputs are those of the results. */
  ghost predicate Consistent(st: RunState) {
    && (forall id :: id in st.steps ==> id in st.completed && st.steps[id] == OutputsOf(st.completed[id]))
    && (forall id :: id in st.completed && st.completed[id].outputs.Some? ==> id in st.steps)
  }

  /** b is what a restart remembers of a: results as saved, and outputs except those that are empty. */
  ghost predicate Remembers(a: RunState, b: RunState) {
    && SavedAlike(a.completed, b.completed)
    && a.rows == b.rows
    && (forall id :: id in b.steps ==> id in a.steps && a.steps[id] == b.steps[id])
    && (forall id :: id in a.steps && id !in b.steps ==> a.steps[id] == map[])
  }

  /** Nodes whose outputs are published before a restart and missing after it: the skipped ones. */
  function Forgotten(a: RunState, b: RunState): set<string> {
    a.steps.Keys - b.steps.Keys
  }

  predicate ListsSteps(path: seq<string>) {
    |path| == 1 && path[0] == "steps"
  }

  /** No template lists all steps, and none reads a forgotten step as a whole. */
  ghost predicate NoBareRead(nodes: map<string, NodeDef>, order: seq<string>, forgotten: set<string>) {
    forall id, path :: id in order && id in nodes && path in NodePaths(nodes[id]) ==>
      !ListsSteps(path) && (|path| == 2 && path[0] == "steps" ==> path[1] !in forgotten)
  }

  lemma {:induction false} RunsStayConsistent(w: World, nodes: map<string, NodeDef>, st: RunState, order: seq<string>)
    requires Consistent(st) && forall id :: id in order ==> id in nodes
    requires forall i, j :: 0 <= i < j < |order| ==> order[i] != order[j]
    requires forall id :: id in order ==> id !in st.completed
    ensures RunSeq(w, nodes, st, order).Next? ==> Consistent(RunSeq(w, nodes, st, order).st)
    decreases |order|
  {
    if order != [] {
      match NodeOutcomeOf(w, nodes[order[0]], RowTaken(nodes[order[0]], st.rows), Context(w, st.steps), order[0])
      case Stopped(_) =>
      case Finished(result) =>
        ResultFits(w, nodes[order[0]], RowTaken(nodes[order[0]], st.rows), Context(w, st.steps), order[0]);
        hide NodeOutcomeOf;
        CompletionStaysConsistent(st, nodes[order[0]], order[0], result);
        hide Consistent;
        RunsStayConsistent(w, nodes, CompleteNode(st, nodes[order[0]], order[0], result), order[1..]);
    }
  }

  /** An approval has no outputs. */
  lemma ResultFits(w: World, node: NodeDef, rowTaken: bool, ctx: EvalContext, id: string)
    ensures NodeOutcomeOf(w, node, rowTaken, ctx, id).Finished? && node.ApprovalOf? ==>
              NodeOutcomeOf(w, node, rowTaken, ctx, id).result.outputs.None?
  {
    hide ExecuteStep;
    hide EvaluateCondition;
  }

  lemma CompletionStaysConsistent(st: RunState, node: NodeDef, id: string, result: StepResult)
    requires Consistent(st) && id !in st.completed && (node.ApprovalOf? ==> result.outputs.None?)
    ensures Consistent(CompleteNode(st, node, id, result))
    ensures CompleteNode(st, node, id, result).completed.Keys == st.completed.Keys + {id}
  {
  }

  /** What is saved after a finished node and read back is remembered. */
  lemma {:induction false} CheckpointRemembers(st: RunState)
    requires Consistent(st)
    ensures Remembers(st, Restored(EncodeAll(st.completed), st.rows))
    ensures Forgotten(st, Restored(EncodeAll(st.completed), st.rows))
         == set id | id in st.steps && (st.completed[id].outputs.None? || st.completed[id].outputs == Some(map[]))
  {
  }

  lemma {:induction false} RememberedPathsAgree(w: World, a: RunState, b: RunState, path: seq<string>)
    requires Remembers(a, b) && !ListsSteps(path)
    requires |path| == 2 && path[0] == "steps" ==> path[1] !in Forgotten(a, b)
    ensures ResolveRef(path, Context(w, a.steps)) == ResolveRef(path, Context(w, b.steps))
  {
  }

  lemma {:induction false} RememberedOutcome(
      w: World, nodes: map<string, NodeDef>, a: RunState, b: RunState, id: string)
    requires id in nodes && Remembers(a, b) && NoBareRead(nodes, [id], Forgotten(a, b))
    ensures NodeOutcomeOf(w, nodes[id], RowTaken(nodes[id], a.rows), Context(w, a.steps), id)
         == NodeOutcomeOf(w, nodes[id], RowTaken(nodes[id], b.rows), Context(w, b.steps), id)
  {
    hide NodePaths;
    hide ResolveRef;
    hide NodeOutcomeOf;
    forall path | path in NodePaths(nodes[id])
      ensures ResolveRef(path, Context(w, a.steps)) == ResolveRef(path, Context(w, b.steps))
    {
      assert id in [id];
      RememberedPathsAgree(w, a, b, path);
    }
    OutcomeDependsOnPaths(w, nodes[id], RowTaken(nodes[id], a.rows), Context(w, a.steps), Context(w, b.steps), id);
  }

  lemma {:induction false} RememberedCompletion(a: RunState, b: RunState, node: NodeDef, id: string, result: StepResult)
    requires Remembers(a, b)
    ensures Remembers(CompleteNode(a, node, id, result), CompleteNode(b, node, id, result))
    ensures Forgotten(CompleteNode(a, node, id, result), CompleteNode(b, node, id, result)) <= Forgotten(a, b)
  {
  }

  lemma {:induction false} NoBareReadSplit(
      nodes: map<string, NodeDef>, order: seq<string>, forgotten: set<string>, fewer: set<string>)
    requires order != [] && NoBareRead(nodes, order, forgotten) && fewer <= forgotten
    ensures NoBareRead(nodes, [order[0]], forgotten) && NoBareRead(nodes, order[1..], fewer)
  {
    hide NodePaths;
    hide ListsSteps;
    forall id | id in [order[0]] || id in order[1..]
      ensures id in order
    {
    }
  }

  /** Both runs go on in lockstep: same stop for the same reason, or results that are saved alike. */
  lemma {:induction false} Lockstep(w: World, nodes: map<string, NodeDef>, a: RunState, b: RunState, order: seq<string>)
    requires Remembers(a, b) && NoBareRead(nodes, order, Forgotten(a, b)) && forall id :: id in order ==> id in nodes
    ensures RunSeq(w, nodes, a, order).Stop? ==> RunSeq(w, nodes, b, order) == RunSeq(w, nodes, a, order)
    ensures RunSeq(w, nodes, a, order).Next? ==>
              RunSeq(w, nodes, b, order).Next?
                  && Remembers(RunSeq(w, nodes, a, order).st, RunSeq(w, nodes, b, order).st)
    decreases |order|
  {
    if order != [] {
      var id := order[0];
      NoBareReadSplit(nodes, order, Forgotten(a, b), Forgotten(a, b));
      RememberedOutcome(w, nodes, a, b, id);
      match NodeOutcomeOf(w, nodes[id], RowTaken(nodes[id], a.rows), Context(w, a.steps), id)
      case Stopped(_) =>
      case Finished(result) =>
        RememberedCompletion(a, b, nodes[id], id, result);
        var a', b' := CompleteNode(a, nodes[id], id, result), CompleteNode(b, nodes[id], id, result);
        NoBareReadSplit(nodes, order, Forgotten(a, b), Forgotten(a', b'));
        Lockstep(w, nodes, a', b', order[1..]);
    }
  }

  /**
   * A run that is stopped right after a checkpoint was saved, and executed again from it in the same order,
   * ends like the uninterrupted run: same final status, same results as they are saved.
   */
  lemma {:induction false} ResumeEqualsUninterrupted(
      w: World, nodes: map<string, NodeDef>, before: seq<string>, after: seq<string>)
    requires forall id :: id in before + after ==> id in nodes
    requires forall i, j :: 0 <= i < j < |before| ==> before[i] != before[j]
    requires (forall id :: id in before ==> id in nodes) && forall id :: id in after ==> id in nodes
    requires RunSeq(w, nodes, Restored(map[], {}), before).Next?
    requires var st := RunSeq(w, nodes, Restored(map[], {}), before).st;
             NoBareRead(nodes, after, Forgotten(st, Restored(EncodeAll(st.completed), st.rows)))
    ensures var st := RunSeq(w, nodes, Restored(map[], {}), before).st;
            var whole := RunSeq(w, nodes, Restored(map[], {}), before + after);
            var resumed := RunSeq(w, nodes, Restored(EncodeAll(st.completed), st.rows), after);
            && (whole.Stop? <==> resumed.Stop?)
            && (whole.Stop? ==> whole == resumed)
            && (whole.Next? ==> EncodeAll(whole.st.completed) == EncodeAll(resumed.st.completed))
  {
    var st := RunSeq(w, nodes, Restored(map[], {}), before).st;
    RunsStayConsistent(w, nodes, Restored(map[], {}), before);
    CheckpointRemembers(st);
    RunSeqAppend(w, nodes, Restored(map[], {}), before, after);
    var restored := Restored(EncodeAll(st.completed), st.rows);
    Lockstep(w, nodes, st, restored, after);
    if RunSeq(w, nodes, st, after).Next? {
      SavedAlikeMeansSameCheckpoint(RunSeq(w, nodes, st, after).st.completed,
          RunSeq(w, nodes, restored, after).st.completed);
    }
  }

  /** The restart may also take the remaining nodes in another order, as Go's map iteration will. */
  lemma {:induction false} ResumeInAnyOrder(
      w: World, g: Graph, nodes: map<string, NodeDef>, before: seq<string>, after: seq<string>, after': seq<string>)
    requires nodes.Keys == g.ids && Keyed(nodes) && ReadsOnlyUpstream(g, nodes)
    requires Respects(g, {}, before) && (forall id :: id in before ==> id in nodes)
    requires RunSeq(w, nodes, Restored(map[], {}), before).Next?
    requires var st := RunSeq(w, nodes, Restored(map[], {}), before).st;
             && WholeRun(g, st, after) && WholeRun(g, st, after')
             && NoBareRead(nodes, after, Forgotten(st, Restored(EncodeAll(st.completed), st.rows)))
    ensures (forall id :: id in before + after ==> id in nodes) && forall id :: id in after' ==> id in nodes
    ensures var st := RunSeq(w, nodes, Restored(map[], {}), before).st;
            var whole := RunSeq(w, nodes, Restored(map[], {}), before + after);
            var resumed := RunSeq(w, nodes, Restored(EncodeAll(st.completed), st.rows), after');
            && (whole.Next? <==> resumed.Next?)
            && (whole.Next? ==> EncodeAll(whole.st.completed) == EncodeAll(resumed.st.completed))
  {
    var empty := Restored(map[], {});
    var st := RunSeq(w, nodes, empty, before).st;
    var restored := Restored(EncodeAll(st.completed), st.rows);
    RespectsAreNodes(g, st.completed.Keys, after);
    RespectsAreNodes(g, st.completed.Keys, after');
    RespectsDistinct(g, {}, before);
    RunSeqCompletes(w, nodes, empty, before);
    RespectedIsClosed(g, {}, before);
    assert {} + Elements(before) == st.completed.Keys == restored.completed.Keys;
    StepsComeFromSteps(w, g, nodes, empty, before);
    ResumeEqualsUninterrupted(w, nodes, before, after);
    OrderDoesNotMatter(w, g, nodes, restored, after, after');
  }

  lemma {:induction false} RespectsDistinct(g: Graph, done: set<string>, order: seq<string>)
    requires Respects(g, done, order)
    ensures forall i, j :: 0 <= i < j < |order| ==> order[i] != order[j]
    decreases |order|
  {
    if order != [] {
      RespectsDistinct(g, done + {order[0]}, order[1..]);
      RespectsAreNodes(g, done + {order[0]}, order[1..]);
      forall i, j | 0 <= i < j < |order|
        ensures order[i] != order[j]
      {
        assert order[j] == order[1..][j - 1] && order[j] in order[1..];
        assert i > 0 ==> order[i] == order[1..][i - 1];
      }
    }
  }

  lemma {:induction false} RespectedIsClosed(g: Graph, done: set<string>, order: seq<string>)
    requires DependencyClosed(g, done) && Respects(g, done, order)
    ensures DependencyClosed(g, done + Elements(order))
    decreases |order|
  {
    if order == [] {
      assert done + Elements(order) == done;
    } else {
      RespectedIsClosed(g, done + {order[0]}, order[1..]);
      assert done + {order[0]} + Elements(order[1..]) == done + Elements(order);
    }
  }

  lemma {:induction false} StepsComeFromSteps(
      w: World, g: Graph, nodes: map<string, NodeDef>, st: RunState, order: seq<string>)
    requires NoApprovalOutputs(nodes, st) && NoOutputsWithoutStep(nodes, st)
    requires (forall id :: id in order ==> id in nodes) && RunSeq(w, nodes, st, order).Next?
    ensures NoApprovalOutputs(nodes, RunSeq(w, nodes, st, order).st)
    ensures NoOutputsWithoutStep(nodes, RunSeq(w, nodes, st, order).st)
    decreases |order|
  {
    if order != [] {
      StepsComeFromSteps(w, g, nodes, ProcessNode(w, nodes[order[0]], st, order[0]).st, order[1..]);
    }
  }

  /** Results of approvals carry no outputs. */
  ghost predicate NoOutputsWithoutStep(nodes: map<string, NodeDef>, st: RunState) {
    forall id :: id in st.completed && id in nodes && nodes[id].ApprovalOf? ==> st.completed[id].outputs.None?
  }

  /** A template that reads everything a step has published. */
  function ReadAll(id: string): string {
    "${" + (PrintPath(["steps", id]) + "}")
  }

  lemma {:induction false} NoBraces(s: string, depth: nat)
    requires depth > 0 && '{' !in s && '}' !in s
    ensures Balanced(s, depth) <==> depth == 1
  {
    if s != "" {
      NoBraces(s[1..], depth);
    }
  }

  lemma {:induction false} ReadAllParses(id: string)
    requires IsIdent(id)
    ensures ParseExpression(PrintPath(["steps", id])) == Ok(Ref(["steps", id]))
    ensures Balanced(PrintPath(["steps", id]), 1)
  {
    var path := ["steps", id];
    var raw := PrintPath(path);
    assert path[1..] == [id] && path[1..][1..] == [];
    assert PrintFields([id]) == "." + (id + "");
    assert raw == "steps" + ("." + (id + ""));
    assert AllIdents([id]);
    NoBraces(raw, 1);
    ExpressionRoundTrip(Ref(path));
  }

  lemma {:induction false} ReadAllReadsOutputs(lib: Library, id: string, ctx: EvalContext)
    requires IsIdent(id)
    ensures EvaluateString(lib, ReadAll(id), ctx)
         == if id in ctx.steps then Ok(Format(lib, MapValue(ctx.steps[id]))) else Err
  {
    hide PrintPath;
    hide ParseExpression;
    hide EvaluateString;
    hide Balanced;
    ReadAllParses(id);
    WholeExpression(lib, PrintPath(["steps", id]), ctx);
    assert ResolveRef(["steps", id], ctx) == if id in ctx.steps then Ok(MapValue(ctx.steps[id])) else Err;
  }

  const SKIPPED := StepDef("a", "a", "local", [], "false", map[], "", "", "", "", None, None, map[])
  const READER := StepDef("b", "b", "local", ["a"], "", map[], ReadAll("a"), "", "", "", None, None, map[])
  const SKIP_THEN_READ := map["a" := StepOf(SKIPPED), "b" := StepOf(READER)]

  /**
   * The proviso is needed: a step that reads a skipped one as a whole succeeds in the uninterrupted run,
   * and fails the execution when it is run again from the checkpoint saved after the skip.
   */
  lemma {:induction false} BareReadBreaksResume(w: World)
    requires w.hasRunner("local") && forall req, k :: IsSuccess(w.run("local", req, k))
    ensures var before := RunSeq(w, SKIP_THEN_READ, Restored(map[], {}), ["a"]);
            && RunSeq(w, SKIP_THEN_READ, Restored(map[], {}), ["a", "b"]).Next?
            && before.Next?
            && RunSeq(w, SKIP_THEN_READ, Restored(EncodeAll(before.st.completed), before.st.rows), ["b"])
                == Stop(StepFailed)
  {
    hide EvaluateString;
    hide ReadAll;
    var nodes, empty := SKIP_THEN_READ, Restored(map[], {});
    var ctx := Context(w, empty.steps);
    FalseSkips(w.lib, ctx);
    hide EvaluateCondition;
    var skipped := StepResult("a", StepSkipped, None);
    var st := CompleteNode(empty, nodes["a"], "a", skipped);
    assert ProcessNode(w, nodes["a"], empty, "a") == Next(st);
    assert ["a"][1..] == [];
    assert RunSeq(w, nodes, st, []) == Next(st);
    assert RunSeq(w, nodes, empty, ["a"]) == Next(st);
    assert IsIdent("a");
    ReadAllReadsOutputs(w.lib, "a", Context(w, st.steps));
    ReaderOutcome(w, st);
    assert ["a", "b"][1..] == ["b"];
    var restored := Restored(EncodeAll(st.completed), st.rows);
    ReadAllReadsOutputs(w.lib, "a", Context(w, restored.steps));
    ReaderOutcome(w, restored);
  }

  lemma {:induction false} ReaderOutcome(w: World, st: RunState)
    requires w.hasRunner("local") && (forall req, k :: IsSuccess(w.run("local", req, k))) && "b" !in st.rows
    ensures RunSeq(w, SKIP_THEN_READ, st, ["b"]).Next?
            <==> EvaluateString(w.lib, ReadAll("a"), Context(w, st.steps)).Ok?
    ensures RunSeq(w, SKIP_THEN_READ, st, ["b"]).Stop? ==> RunSeq(w, SKIP_THEN_READ, st, ["b"]) == Stop(StepFailed)
  {
    assert ["b"][1..] == [];
    var outcome := ExecuteStep(w, READER, false, Context(w, st.steps));
    assert EvaluateCondition(w.lib, READER.when_, Context(w, st.steps)) == Proceed;
    match EvaluateString(w.lib, READER.command, Context(w, st.steps))
    case Err =>
    case Ok(command) =>
      var req := RequestOf(w.lib, READER, command, Context(w, st.steps));
      assert IsSuccess(w.run("local", req, 1));
      assert TryFrom(w, "local", req, 1, 1).Success?;
  }

  lemma {:induction false} NoMarker(s: string)
    requires '$' !in s
    ensures !HasMarker(s)
  {
    if s != "" {
      NoMarker(s[1..]);
    }
  }

  lemma FalseSkips(lib: Library, ctx: EvalContext)
    ensures EvaluateCondition(lib, "false", ctx) == Skip
  {
    NoMarker("false");
    hide HasMarker;
    hide Expand;
  }
}
