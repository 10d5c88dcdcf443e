/**
 * What one Execute call computes when no statement fails and nobody interrupts it: the effect of one node,
 * and of nodes processed one after the other (internal/engine/executor.go).
 */
module Semantics {
  import opened Prelude
  import opened Model
  import opened Graph
  import opened Dag
  import opened Evaluator
  import opened Templates
  import opened Backoff

  datatype StepStatus = StepSucceeded | StepSkipped

  datatype StepResult = StepResult(stepId: string, status: StepStatus, outputs: Option<map<string, Value>>)

  type Completed = map<string, StepResult>

  datatype Request = Request(
    stepId: string, command: string, image: string, host: string, env: map<string, string>, config: map<string, Value>)

  datatype RunResult = RunError | Exit(code: int, stdout: string, stderr: string)

  /** What is fixed while one execution runs: its inputs, the runners, the deciders of its approvals. */
  datatype World = World(
    inputs: map<string, Value>,
    lib: Library,
    parse: DurationParser,
    hasRunner: string -> bool,
    run: (string, Request, nat) -> RunResult,
    deadlinePasses: (string, nat) -> bool,
    approves: string -> bool)

  function Context(w: World, steps: map<string, map<string, Value>>): EvalContext {
    EvalContext(w.inputs, steps, map[], map[])
  }

  /** evaluateStr: an empty text stays empty, and so does one that cannot be evaluated. */
  function EvaluateOrEmpty(lib: Library, s: string, ctx: EvalContext): string {
    if s == "" then ""
    else
      match EvaluateString(lib, s, ctx)
      case Ok(text) => text
      case Err => ""
  }

  function RequestOf(lib: Library, step: StepDef, command: string, ctx: EvalContext): Request {
    Request(step.id, command, EvaluateOrEmpty(lib, step.image, ctx), EvaluateOrEmpty(lib, step.host, ctx),
            map k | k in step.env :: EvaluateOrEmpty(lib, step.env[k], ctx), step.config)
  }

  predicate IsSuccess(r: RunResult) {
    r.Exit? && r.code == 0
  }

  datatype Attempts = NeverRun | Success(result: RunResult) | Failure | DeadlinePassed

  /** The retry loop from attempt k on. */
  function TryFrom(w: World, runner: string, req: Request, k: nat, max: int): Attempts
    decreases max - k
  {
    if k > max then NeverRun
    else
      var r := w.run(runner, req, k);
      if IsSuccess(r) then Success(r)
      else if k == max then Failure
      else if w.deadlinePasses(req.stepId, k) then DeadlinePassed
      else TryFrom(w, runner, req, k + 1, max)
  }

  /** How often the retry loop calls the runner. */
  function CallsFrom(w: World, runner: string, req: Request, k: nat, max: int): nat
    decreases max - k
  {
    if k > max then 0
    else if IsSuccess(w.run(runner, req, k)) || k == max || w.deadlinePasses(req.stepId, k) then 1
    else 1 + CallsFrom(w, runner, req, k + 1, max)
  }

  /** How long the retry loop waits at most, in nanoseconds. */
  function WaitFrom(w: World, retry: Option<RetryPolicy>, runner: string, req: Request, k: nat, max: int): int
    decreases max - k
  {
    if k >= max || IsSuccess(w.run(runner, req, k)) then 0
    else
      BackoffWait(w.parse, k, retry)
      + (if w.deadlinePasses(req.stepId, k) then 0 else WaitFrom(w, retry, runner, req, k + 1, max))
  }

  function MaxAttempts(step: StepDef): int {
    if step.retry.Some? then step.retry.value.maxAttempts else 1
  }

  function Outputs(r: RunResult): map<string, Value> {
    if r.Exit? then
      map["stdout" := StringValue(r.stdout), "stderr" := StringValue(r.stderr), "exit_code" := IntValue(r.code)]
    else map[]
  }

  datatype StepOutcome = Done(result: StepResult) | StepError

  /** The when clause of a node: evaluated to nothing or to false, it skips the node. */
  datatype Condition = Proceed | Skip | ConditionError

  function EvaluateCondition(lib: Library, when_: string, ctx: EvalContext): Condition {
    if when_ == "" then Proceed
    else
      match EvaluateString(lib, when_, ctx)
      case Err => ConditionError
      case Ok(text) => if text == "false" || text == "" then Skip else Proceed
  }

  /** What considering a node comes to: the verdict of its condition, and an error when a step has no command then. */
  function Verdict(lib: Library, node: NodeDef, ctx: EvalContext): Condition {
    match node
    case ApprovalOf(approval) => EvaluateCondition(lib, approval.when_, ctx)
    case StepOf(step) =>
      var condition := EvaluateCondition(lib, step.when_, ctx);
      if condition.Proceed? && EvaluateString(lib, step.command, ctx).Err? then ConditionError else condition
  }

  /** Some outputs of other steps make considering the node come to this. */
  ghost predicate MayComeTo(lib: Library, node: NodeDef, inputs: map<string, Value>, condition: Condition) {
    exists steps :: Verdict(lib, node, EvalContext(inputs, steps, map[], map[])) == condition
  }

  /** The verdict of a condition that contains no expression. */
  function PlainVerdict(when_: string): Condition {
    if when_ == "false" then Skip else Proceed
  }

  /** Without an expression in its condition and its command, a node has one verdict. */
  lemma PlainNodesHaveOneVerdict(lib: Library, node: NodeDef, inputs: map<string, Value>, condition: Condition)
    requires !HasMarker(if node.StepOf? then node.step.when_ else node.approval.when_)
    requires node.StepOf? ==> !HasMarker(node.step.command)
    ensures MayComeTo(lib, node, inputs, condition)
            <==> condition == PlainVerdict(if node.StepOf? then node.step.when_ else node.approval.when_)
  {
    hide HasMarker;
    var steps: map<string, map<string, Value>> := map[];
    assert Verdict(lib, node, EvalContext(inputs, steps, map[], map[]))
        == PlainVerdict(if node.StepOf? then node.step.when_ else node.approval.when_);
  }

  /** The row of a step is inserted with attempt 1 always, so a row that is there already refuses the step. */
  function ExecuteStep(w: World, step: StepDef, rowTaken: bool, ctx: EvalContext): StepOutcome {
    match EvaluateCondition(w.lib, step.when_, ctx)
    case ConditionError => StepError
    case Skip => Done(StepResult(step.id, StepSkipped, None))
    case Proceed =>
      match EvaluateString(w.lib, step.command, ctx)
      case Err => StepError
      case Ok(command) => if rowTaken then StepError else RunStep(w, step, command, ctx)
  }

  function RunStep(w: World, step: StepDef, command: string, ctx: EvalContext): StepOutcome {
    if !w.hasRunner(step.runner) then StepError
    else
      match TryFrom(w, step.runner, RequestOf(w.lib, step, command, ctx), 1, MaxAttempts(step))
      case Success(r) => Done(StepResult(step.id, StepSucceeded, Some(Outputs(r))))
      case NeverRun => Done(StepResult(step.id, StepSucceeded, Some(map[])))
      case _ => StepError
  }

  /** The status column of a row of execution_steps. */
  datatype StepRowStatus = RowRunning | RowSucceeded | RowFailed

  /** The mark a step leaves on its row: none when its runner is unknown or its deadline passes between attempts. */
  function MarkOf(w: World, step: StepDef, command: string, ctx: EvalContext): StepRowStatus {
    if !w.hasRunner(step.runner) then RowRunning
    else
      match TryFrom(w, step.runner, RequestOf(w.lib, step, command, ctx), 1, MaxAttempts(step))
      case Success(_) => RowSucceeded
      case NeverRun => RowSucceeded
      case Failure => RowFailed
      case DeadlinePassed => RowRunning
  }

  /** A call of a runner. */
  datatype Call = Call(runner: string, req: Request)

  function Repeat(call: Call, n: nat): seq<Call> {
    if n == 0 then [] else Repeat(call, n - 1) + [call]
  }

  /** The compensation runs once, on its own runner or else on that of the step. */
  function CompensationCalls(w: World, step: StepDef, comp: CompensationDef, ctx: EvalContext): seq<Call> {
    var runner := if comp.runner == "" then step.runner else comp.runner;
    if w.hasRunner(runner) then
      var command := CompensationCommand(w.lib, comp, ctx);
      [Call(runner, Request(step.id + "_compensation", command, "", "", map[], comp.config))]
    else []
  }

  function CompensationCommand(lib: Library, comp: CompensationDef, ctx: EvalContext): string {
    match EvaluateString(lib, comp.command, ctx)
    case Ok(text) => text
    case Err => ""
  }

  /** The calls of the retry loop, and that of the compensation when they all failed. */
  function RunCalls(w: World, step: StepDef, req: Request, ctx: EvalContext): seq<Call> {
    Repeat(Call(step.runner, req), CallsFrom(w, step.runner, req, 1, MaxAttempts(step)))
    + (if TryFrom(w, step.runner, req, 1, MaxAttempts(step)).Failure? && step.compensation.Some?
       then CompensationCalls(w, step, step.compensation.value, ctx) else [])
  }

  /** The runner calls a step makes. */
  function StepCalls(w: World, step: StepDef, rowTaken: bool, ctx: EvalContext): seq<Call> {
    if !EvaluateCondition(w.lib, step.when_, ctx).Proceed? || rowTaken || !w.hasRunner(step.runner) then []
    else
      match EvaluateString(w.lib, step.command, ctx)
      case Err => []
      case Ok(command) => RunCalls(w, step, RequestOf(w.lib, step, command, ctx), ctx)
  }

  /** What Execute keeps while it runs: results, the outputs templates can read, and the step rows in the table. */
  datatype RunState = RunState(completed: Completed, steps: map<string, map<string, Value>>, rows: set<string>)

  datatype StopReason = StepFailed | ApprovalRejected | ApprovalError

  datatype Outcome = Next(st: RunState) | Stop(reason: StopReason)

  datatype NodeOutcome = Finished(result: StepResult) | Stopped(reason: StopReason)

  /** What becomes of a node in a given context; rowTaken says whether the table has a row for it already. */
  function NodeOutcomeOf(w: World, node: NodeDef, rowTaken: bool, ctx: EvalContext, id: string): NodeOutcome {
    match node
    case StepOf(step) =>
      (match ExecuteStep(w, step, rowTaken, ctx)
       case StepError => Stopped(StepFailed)
       case Done(result) => Finished(result))
    case ApprovalOf(approval) =>
      match EvaluateCondition(w.lib, approval.when_, ctx)
      case ConditionError => Stopped(ApprovalError)
      case Skip => Finished(StepResult(id, StepSucceeded, None))
      case Proceed =>
        if w.approves(approval.id) then Finished(StepResult(id, StepSucceeded, None)) else Stopped(ApprovalRejected)
  }

  function OutputsOf(result: StepResult): map<string, Value> {
    if result.outputs.Some? then result.outputs.value else map[]
  }

  /** A finished step publishes its outputs, none when it was skipped; an approval publishes nothing. */
  function CompleteNode(st: RunState, node: NodeDef, id: string, result: StepResult): RunState {
    if node.ApprovalOf? then st.(completed := st.completed[id := result])
    else
      RunState(st.completed[id := result], st.steps[id := OutputsOf(result)],
               if result.status.StepSucceeded? then st.rows + {node.step.id} else st.rows)
  }

  predicate RowTaken(node: NodeDef, rows: set<string>) {
    node.StepOf? && node.step.id in rows
  }

  function ProcessNode(w: World, node: NodeDef, st: RunState, id: string): Outcome {
    match NodeOutcomeOf(w, node, RowTaken(node, st.rows), Context(w, st.steps), id)
    case Stopped(reason) => Stop(reason)
    case Finished(result) => Next(CompleteNode(st, node, id, result))
  }

  /** Nodes processed one after the other until one stops the run. */
  function RunSeq(w: World, nodes: map<string, NodeDef>, st: RunState, order: seq<string>): Outcome
    requires forall id :: id in order ==> id in nodes
    decreases |order|
  {
    if order == [] then Next(st)
    else
      match ProcessNode(w, nodes[order[0]], st, order[0])
      case Stop(reason) => Stop(reason)
      case Next(st') => RunSeq(w, nodes, st', order[1..])
  }

  /** Every node of the order is new when its turn comes, and everything it depends on is done. */
  ghost predicate Respects(g: Graph, done: set<string>, order: seq<string>)
    decreases |order|
  {
    order == []
    || (order[0] in g.ids && IsReady(g, done, order[0]) && Respects(g, done + {order[0]}, order[1..]))
  }

  lemma {:induction false} RespectsAreNodes(g: Graph, done: set<string>, order: seq<string>)
    requires Respects(g, done, order)
    ensures forall id :: id in order ==> id in g.ids && id !in done
    decreases |order|
  {
    if order != [] {
      RespectsAreNodes(g, done + {order[0]}, order[1..]);
    }
  }

  lemma {:induction false} RespectsAppend(g: Graph, done: set<string>, a: seq<string>, b: seq<string>)
    ensures Respects(g, done, a + b) <==> Respects(g, done, a) && Respects(g, done + Elements(a), b)
    decreases |a|
  {
    if a == [] {
      assert a + b == b && done + Elements(a) == done;
    } else {
      RespectsAppend(g, done + {a[0]}, a[1..], b);
      assert (a + b)[1..] == a[1..] + b;
      assert done + {a[0]} + Elements(a[1..]) == done + Elements(a);
    }
  }

  lemma {:induction false} RunSeqAppend(
      w: World, nodes: map<string, NodeDef>, st: RunState, a: seq<string>, b: seq<string>)
    requires forall id :: id in a + b ==> id in nodes
    ensures forall id :: id in a ==> id in nodes
    ensures forall id :: id in b ==> id in nodes
    ensures RunSeq(w, nodes, st, a + b)
         == match RunSeq(w, nodes, st, a)
            case Stop(reason) => Stop(reason)
            case Next(st') => RunSeq(w, nodes, st', b)
    decreases |a|
  {
    forall id | id in a || id in b
      ensures id in a + b
    {
    }
    if a == [] {
      assert a + b == b;
    } else {
      assert (a + b)[1..] == a[1..] + b;
      match ProcessNode(w, nodes[a[0]], st, a[0])
      case Stop(_) =>
      case Next(st') => RunSeqAppend(w, nodes, st', a[1..], b);
    }
  }

  lemma {:induction false} RunSeqCompletes(w: World, nodes: map<string, NodeDef>, st: RunState, order: seq<string>)
    requires (forall id :: id in order ==> id in nodes) && RunSeq(w, nodes, st, order).Next?
    ensures RunSeq(w, nodes, st, order).st.completed.Keys == st.completed.Keys + Elements(order)
    decreases |order|
  {
    if order != [] {
      var st' := ProcessNode(w, nodes[order[0]], st, order[0]).st;
      assert st'.completed.Keys == st.completed.Keys + {order[0]};
      RunSeqCompletes(w, nodes, st', order[1..]);
      assert Elements(order) == {order[0]} + Elements(order[1..]);
    } else {
      assert Elements(order) == {};
    }
  }

  /** The retry loop calls the runner at most as often as the policy says, and never again after a success. */
  lemma {:induction false} RetryStopsAtFirstSuccess(w: World, runner: string, req: Request, k: nat, max: int)
    ensures var n := CallsFrom(w, runner, req, k, max);
            && n <= (if k > max then 0 else max - k + 1)
            && (forall i :: k <= i < k + n - 1 ==> !IsSuccess(w.run(runner, req, i)))
            && (TryFrom(w, runner, req, k, max).Success? <==> n > 0 && IsSuccess(w.run(runner, req, k + n - 1)))
            && (TryFrom(w, runner, req, k, max).Failure?
                <==> n > 0 && n == max - k + 1 && !IsSuccess(w.run(runner, req, k + n - 1)))
    decreases max - k
  {
    if k < max && !IsSuccess(w.run(runner, req, k)) && !w.deadlinePasses(req.stepId, k) {
      RetryStopsAtFirstSuccess(w, runner, req, k + 1, max);
    }
  }

  /**
   * The row of a step is marked as succeeded exactly when the step is done, and as failed exactly when all allowed
   * attempts were made in vain; a step that fails otherwise leaves its row running.
   */
  lemma {:induction false} MarkTellsOutcome(w: World, step: StepDef, command: string, ctx: EvalContext)
    ensures MarkOf(w, step, command, ctx) == RowSucceeded <==> RunStep(w, step, command, ctx).Done?
    ensures var req := RequestOf(w.lib, step, command, ctx);
            MarkOf(w, step, command, ctx) == RowFailed
            <==> && w.hasRunner(step.runner)
                 && CallsFrom(w, step.runner, req, 1, MaxAttempts(step)) == MaxAttempts(step) > 0
                 && !IsSuccess(w.run(step.runner, req, MaxAttempts(step)))
  {
    hide RequestOf;
    RetryStopsAtFirstSuccess(w, step.runner, RequestOf(w.lib, step, command, ctx), 1, MaxAttempts(step));
  }

  lemma {:induction false} RepeatAt(call: Call, n: nat)
    ensures |Repeat(call, n)| == n && forall i :: 0 <= i < n ==> Repeat(call, n)[i] == call
  {
    if n > 0 {
      RepeatAt(call, n - 1);
    }
  }

  lemma {:induction false} RepeatPrefix(call: Call, n: nat, m: nat)
    requires n <= m
    ensures Repeat(call, n) <= Repeat(call, m)
    decreases m - n
  {
    if n < m {
      RepeatPrefix(call, n, m - 1);
    }
  }

  /**
   * The runner of a step is called at most as often as the policy says. The compensation is called at most once,
   * after the last attempt the policy allows, and only when every attempt failed.
   */
  lemma {:induction false} CompensationIsLast(w: World, step: StepDef, req: Request, ctx: EvalContext)
    ensures var n := CallsFrom(w, step.runner, req, 1, MaxAttempts(step));
            var calls := RunCalls(w, step, req, ctx);
            && n <= (if MaxAttempts(step) > 0 then MaxAttempts(step) else 0)
            && n <= |calls| <= n + 1
            && (forall i :: 0 <= i < n ==> calls[i] == Call(step.runner, req))
            && (|calls| == n + 1 ==>
                  && step.compensation.Some? && n == MaxAttempts(step)
                  && calls[n].req.stepId == step.id + "_compensation"
                  && forall k :: 1 <= k <= n ==> !IsSuccess(w.run(step.runner, req, k)))
  {
    hide EvaluateString;
    var n := CallsFrom(w, step.runner, req, 1, MaxAttempts(step));
    RetryStopsAtFirstSuccess(w, step.runner, req, 1, MaxAttempts(step));
    RepeatAt(Call(step.runner, req), n);
  }

  /**
   * However often it doubles, and even where it overflows, all the exponential waiting of a step together stays
   * below (attempts - 1) times the cap; it is not negative either as long as the last wait is in range.
   */
  lemma {:induction false} TotalWaitIsBounded(
      w: World, retry: RetryPolicy, runner: string, req: Request, k: nat, max: int)
    requires k <= max && retry.backoff == "exponential" && MaxWait(w.parse, retry) >= 0
    ensures WaitFrom(w, Some(retry), runner, req, k, max) <= (max - k) * MaxWait(w.parse, retry)
    ensures k == max || InRange(w.parse, retry, max - 1) ==> 0 <= WaitFrom(w, Some(retry), runner, req, k, max)
    decreases max - k
  {
    var cap := MaxWait(w.parse, retry);
    assert (max - k) * cap >= 0 by {
      NotNegative(max - k, cap);
    }
    if k < max {
      TotalWaitIsBounded(w, retry, runner, req, k + 1, max);
      assert (max - k) * cap == cap + (max - (k + 1)) * cap;
      NotNegative(max - (k + 1), cap);
      if InRange(w.parse, retry, max - 1) {
        WaitsAreMonotone(w.parse, retry, k, max - 1);
      }
    }
  }

  lemma NotNegative(a: nat, b: nat)
    ensures a * b >= 0
  {
  }

  /** A step whose row is there already, as a crash leaves it, gets done if and only if its condition skips it. */
  lemma {:induction false} TakenStepOnlySkips(w: World, step: StepDef, ctx: EvalContext)
    ensures ExecuteStep(w, step, true, ctx).Done? <==> EvaluateCondition(w.lib, step.when_, ctx).Skip?
  {
    hide EvaluateCondition;
    hide EvaluateString;
  }

  /** A step succeeds without calling any runner exactly when its runner exists and its policy allows no attempt. */
  lemma {:induction false} SucceedsUncalled(w: World, step: StepDef, command: string, ctx: EvalContext)
    ensures RunStep(w, step, command, ctx).Done? && RunCalls(w, step, RequestOf(w.lib, step, command, ctx), ctx) == []
       <==> w.hasRunner(step.runner) && MaxAttempts(step) < 1
  {
    var req := RequestOf(w.lib, step, command, ctx);
    RepeatAt(Call(step.runner, req), CallsFrom(w, step.runner, req, 1, MaxAttempts(step)));
  }
}
