/**
 * Exactly when an execution that is run again from its checkpoints, any number of times, ends like the
 * uninterrupted one: unless an evaluation reaches a step whose outputs a restart has forgotten.
 */
module Restarts {
  import opened Prelude
  import opened HumlAst
  import opened Model
  import opened Dag
  import opened ExprSyntax
  import opened Evaluator
  import opened Templates
  import opened Semantics
  import opened Resume
  import opened Waves

  /** References that a restart can change: the list of all steps, or one of these steps as a whole. */
  datatype Kind = Listing | Whole(ids: set<string>)

  predicate Matches(kind: Kind, path: seq<string>) {
    match kind
    case Listing => ListsSteps(path)
    case Whole(ids) => |path| == 2 && path[0] == "steps" && path[1] in ids
  }

  /** Evaluating the tree reaches such a reference: errors end the evaluation, and one branch is taken. */
  predicate Reads(lib: Library, e: Expr, ctx: EvalContext, kind: Kind)
    decreases e, 0
  {
    match e
    case Lit(_) => false
    case Ref(path) => Matches(kind, path)
    case Binary(_, left, right) =>
      Reads(lib, left, ctx, kind) || (Evaluate(lib, left, ctx).Ok? && Reads(lib, right, ctx, kind))
    case Unary(_, operand) => Reads(lib, operand, ctx, kind)
    case Cond(cond, thn, els) =>
      Reads(lib, cond, ctx, kind)
      || (Evaluate(lib, cond, ctx).Ok?
          && if ToBool(Evaluate(lib, cond, ctx).value) then Reads(lib, thn, ctx, kind) else Reads(lib, els, ctx, kind))
    case Call(_, args) => ReadsInAny(lib, args, ctx, kind)
    case Index(obj, idx) =>
      Reads(lib, obj, ctx, kind) || (Evaluate(lib, obj, ctx).Ok? && Reads(lib, idx, ctx, kind))
  }

  predicate ReadsInAny(lib: Library, es: seq<Expr>, ctx: EvalContext, kind: Kind)
    decreases es, 1
  {
    es != []
    && (Reads(lib, es[0], ctx, kind) || (Evaluate(lib, es[0], ctx).Ok? && ReadsInAny(lib, es[1..], ctx, kind)))
  }

  predicate TemplateReads(lib: Library, s: string, ctx: EvalContext, kind: Kind)
    decreases |s|
  {
    if s == "" then false
    else if StartsMarker(s) then
      var (raw, rest) := SplitBraces(s[2..], 1);
      match ParseExpression(raw)
      case Err => false
      case Ok(e) => Reads(lib, e, ctx, kind) || (Evaluate(lib, e, ctx).Ok? && TemplateReads(lib, rest, ctx, kind))
    else TemplateReads(lib, s[1..], ctx, kind)
  }

  /** What a restart has forgotten of the context, and nothing else, is missing from the second one. */
  ghost predicate Forgets(ctx: EvalContext, ctx': EvalContext, ids: set<string>) {
    && ctx'.inputs == ctx.inputs && ctx'.secrets == ctx.secrets && ctx'.env == ctx.env
    && (forall id :: id in ctx'.steps <==> id in ctx.steps && id !in ids)
    && (forall id :: id in ctx'.steps ==> ctx'.steps[id] == ctx.steps[id])
    && (forall id :: id in ids ==> id in ctx.steps && ctx.steps[id] == map[])
  }

  /** Without a list of all steps, a tree fails where it reads a forgotten step, and else evaluates as before. */
  lemma {:induction false} EvaluatesExactly(
      lib: Library, e: Expr, ctx: EvalContext, ctx': EvalContext, ids: set<string>)
    requires Forgets(ctx, ctx', ids) && !Reads(lib, e, ctx, Listing)
    ensures if Reads(lib, e, ctx, Whole(ids)) then Evaluate(lib, e, ctx').Err?
            else Evaluate(lib, e, ctx') == Evaluate(lib, e, ctx)
    decreases e, 0
  {
    match e
    case Lit(_) =>
    case Ref(path) => ResolvesExactly(path, ctx, ctx', ids);
    case Binary(_, left, right) =>
      EvaluatesExactly(lib, left, ctx, ctx', ids);
      if Evaluate(lib, left, ctx).Ok? {
        EvaluatesExactly(lib, right, ctx, ctx', ids);
      }
    case Unary(_, operand) => EvaluatesExactly(lib, operand, ctx, ctx', ids);
    case Cond(cond, thn, els) =>
      EvaluatesExactly(lib, cond, ctx, ctx', ids);
      if Evaluate(lib, cond, ctx).Ok? {
        EvaluatesExactly(lib, if ToBool(Evaluate(lib, cond, ctx).value) then thn else els, ctx, ctx', ids);
      }
    case Call(_, args) => AllEvaluateExactly(lib, args, ctx, ctx', ids);
    case Index(obj, idx) =>
      EvaluatesExactly(lib, obj, ctx, ctx', ids);
      if Evaluate(lib, obj, ctx).Ok? {
        EvaluatesExactly(lib, idx, ctx, ctx', ids);
      }
  }

  lemma {:induction false} AllEvaluateExactly(
      lib: Library, es: seq<Expr>, ctx: EvalContext, ctx': EvalContext, ids: set<string>)
    requires Forgets(ctx, ctx', ids) && !ReadsInAny(lib, es, ctx, Listing)
    ensures if ReadsInAny(lib, es, ctx, Whole(ids)) then EvaluateAll(lib, es, ctx').Err?
            else EvaluateAll(lib, es, ctx') == EvaluateAll(lib, es, ctx)
    decreases es, 1
  {
    if es != [] {
      EvaluatesExactly(lib, es[0], ctx, ctx', ids);
      if Evaluate(lib, es[0], ctx).Ok? {
        AllEvaluateExactly(lib, es[1..], ctx, ctx', ids);
      }
    }
  }

  lemma {:induction false} ResolvesExactly(path: seq<string>, ctx: EvalContext, ctx': EvalContext, ids: set<string>)
    requires Forgets(ctx, ctx', ids) && !Matches(Listing, path)
    ensures if Matches(Whole(ids), path) then ResolveRef(path, ctx').Err?
            else ResolveRef(path, ctx') == ResolveRef(path, ctx)
  {
    hide DrillDown;
  }

  lemma {:induction false} TemplateExactly(
      lib: Library, s: string, ctx: EvalContext, ctx': EvalContext, ids: set<string>)
    requires Forgets(ctx, ctx', ids) && !TemplateReads(lib, s, ctx, Listing)
    ensures if TemplateReads(lib, s, ctx, Whole(ids)) then EvaluateString(lib, s, ctx').Err?
            else EvaluateString(lib, s, ctx') == EvaluateString(lib, s, ctx)
  {
    ExpandsExactly(lib, s, ctx, ctx', ids);
    EvaluateStringIsExpand(lib, s, ctx);
    EvaluateStringIsExpand(lib, s, ctx');
  }

  lemma {:induction false} ExpandsExactly(
      lib: Library, s: string, ctx: EvalContext, ctx': EvalContext, ids: set<string>)
    requires Forgets(ctx, ctx', ids) && !TemplateReads(lib, s, ctx, Listing)
    ensures if TemplateReads(lib, s, ctx, Whole(ids)) then Expand(lib, s, ctx').Err?
            else Expand(lib, s, ctx') == Expand(lib, s, ctx)
    decreases |s|
  {
    hide Forgets;
    if s == "" {
    } else if StartsMarker(s) {
      var (raw, rest) := SplitBraces(s[2..], 1);
      match ParseExpression(raw)
      case Err =>
      case Ok(e) =>
        EvaluatesExactly(lib, e, ctx, ctx', ids);
        if Evaluate(lib, e, ctx).Ok? {
          ExpandsExactly(lib, rest, ctx, ctx', ids);
        }
    } else {
      ExpandsExactly(lib, s[1..], ctx, ctx', ids);
    }
  }

  // ----- nodes -----

  /** Processing the node reaches such a reference in its condition or, if it proceeds, in its command. */
  predicate NodeReads(w: World, node: NodeDef, ctx: EvalContext, kind: Kind) {
    match node
    case ApprovalOf(approval) => TemplateReads(w.lib, approval.when_, ctx, kind)
    case StepOf(step) =>
      || TemplateReads(w.lib, step.when_, ctx, kind)
      || (EvaluateCondition(w.lib, step.when_, ctx).Proceed? && TemplateReads(w.lib, step.command, ctx, kind))
  }

  /** The parts of a request whose errors are swallowed reach no reference of this kind. */
  predicate SideReads(w: World, node: NodeDef, ctx: EvalContext, kind: Kind) {
    node.StepOf?
    && (|| TemplateReads(w.lib, node.step.image, ctx, kind) || TemplateReads(w.lib, node.step.host, ctx, kind)
        || exists k :: k in node.step.env && TemplateReads(w.lib, node.step.env[k], ctx, kind))
  }

  /** No list of all steps is read, and image, host and environment read no forgotten step as a whole. */
  predicate Benign(w: World, node: NodeDef, ctx: EvalContext, ids: set<string>) {
    && !NodeReads(w, node, ctx, Listing) && !SideReads(w, node, ctx, Listing)
    && !SideReads(w, node, ctx, Whole(ids))
  }

  /** How a node stops the run when its condition or command cannot be evaluated. */
  function FailureOf(node: NodeDef): StopReason {
    if node.StepOf? then StepFailed else ApprovalError
  }

  lemma {:induction false} ConditionExactly(
      lib: Library, when_: string, ctx: EvalContext, ctx': EvalContext, ids: set<string>)
    requires Forgets(ctx, ctx', ids) && !TemplateReads(lib, when_, ctx, Listing)
    ensures if TemplateReads(lib, when_, ctx, Whole(ids)) then EvaluateCondition(lib, when_, ctx').ConditionError?
            else EvaluateCondition(lib, when_, ctx') == EvaluateCondition(lib, when_, ctx)
  {
    TemplateExactly(lib, when_, ctx, ctx', ids);
  }

  lemma {:induction false} RequestExactly(
      lib: Library, w: World, step: StepDef, command: string, ctx: EvalContext, ctx': EvalContext, ids: set<string>)
    requires w.lib == lib && Forgets(ctx, ctx', ids)
    requires !SideReads(w, StepOf(step), ctx, Listing) && !SideReads(w, StepOf(step), ctx, Whole(ids))
    ensures RequestOf(lib, step, command, ctx) == RequestOf(lib, step, command, ctx')
  {
    hide Forgets;
    TemplateExactly(lib, step.image, ctx, ctx', ids);
    TemplateExactly(lib, step.host, ctx, ctx', ids);
    forall k | k in step.env
      ensures EvaluateOrEmpty(lib, step.env[k], ctx) == EvaluateOrEmpty(lib, step.env[k], ctx')
    {
      TemplateExactly(lib, step.env[k], ctx, ctx', ids);
    }
  }

  /** After a restart a benign node stops the run if it reads a forgotten step, and else it ends as before. */
  lemma {:induction false} NodeExactly(
      w: World, node: NodeDef, rowTaken: bool, ctx: EvalContext, ctx': EvalContext, ids: set<string>, id: string)
    requires Forgets(ctx, ctx', ids) && Benign(w, node, ctx, ids)
    ensures NodeOutcomeOf(w, node, rowTaken, ctx', id)
         == if NodeReads(w, node, ctx, Whole(ids)) then Stopped(FailureOf(node))
             else NodeOutcomeOf(w, node, rowTaken, ctx, id)
  {
    hide Forgets;
    hide TemplateReads;
    hide EvaluateCondition;
    hide EvaluateString;
    match node
    case ApprovalOf(approval) => ConditionExactly(w.lib, approval.when_, ctx, ctx', ids);
    case StepOf(step) =>
      ConditionExactly(w.lib, step.when_, ctx, ctx', ids);
      if EvaluateCondition(w.lib, step.when_, ctx).Proceed? {
        TemplateExactly(w.lib, step.command, ctx, ctx', ids);
        match EvaluateString(w.lib, step.command, ctx)
        case Err =>
        case Ok(command) => RequestExactly(w.lib, w, step, command, ctx, ctx', ids);
      }
  }

  // ----- runs -----

  lemma {:induction false} RememberedContexts(w: World, a: RunState, b: RunState)
    requires Remembers(a, b)
    ensures Forgets(Context(w, a.steps), Context(w, b.steps), Forgotten(a, b))
  {
  }

  /**
   * Along the run from a, the stop that the first node to read a forgotten step makes in the run from b,
   * where b is what a restart remembers of a; none when no node that is processed does.
   */
  ghost function FirstRead(
      w: World, nodes: map<string, NodeDef>, a: RunState, b: RunState, order: seq<string>): Option<StopReason>
    requires forall id :: id in order ==> id in nodes
    decreases |order|
  {
    if order == [] then None
    else if NodeReads(w, nodes[order[0]], Context(w, a.steps), Whole(Forgotten(a, b))) then
        Some(FailureOf(nodes[order[0]]))
    else
      match NodeOutcomeOf(w, nodes[order[0]], RowTaken(nodes[order[0]], a.rows), Context(w, a.steps), order[0])
      case Stopped(_) => None
      case Finished(result) =>
        FirstRead(w, nodes, CompleteNode(a, nodes[order[0]], order[0], result),
                  CompleteNode(b, nodes[order[0]], order[0], result), order[1..])
  }

  /** Every node that is processed before such a stop is benign. */
  ghost predicate BenignRun(w: World, nodes: map<string, NodeDef>, a: RunState, b: RunState, order: seq<string>)
    requires forall id :: id in order ==> id in nodes
    decreases |order|
  {
    order != [] ==>
      && Benign(w, nodes[order[0]], Context(w, a.steps), Forgotten(a, b))
      && (NodeReads(w, nodes[order[0]], Context(w, a.steps), Whole(Forgotten(a, b))) ||
          match NodeOutcomeOf(w, nodes[order[0]], RowTaken(nodes[order[0]], a.rows), Context(w, a.steps), order[0])
          case Stopped(_) => true
          case Finished(result) =>
            BenignRun(w, nodes, CompleteNode(a, nodes[order[0]], order[0], result),
                      CompleteNode(b, nodes[order[0]], order[0], result), order[1..]))
  }

  /** The restarted run stops at the first such read, and otherwise goes on in lockstep. */
  lemma {:induction false} LockstepExactly(
      w: World, nodes: map<string, NodeDef>, a: RunState, b: RunState, order: seq<string>)
    requires Remembers(a, b) && (forall id :: id in order ==> id in nodes) && BenignRun(w, nodes, a, b, order)
    ensures match FirstRead(w, nodes, a, b, order)
            case Some(reason) => RunSeq(w, nodes, b, order) == Stop(reason)
            case None =>
              && (RunSeq(w, nodes, a, order).Stop? ==> RunSeq(w, nodes, b, order) == RunSeq(w, nodes, a, order))
              && (RunSeq(w, nodes, a, order).Next? ==>
                    && RunSeq(w, nodes, b, order).Next?
                    && Remembers(RunSeq(w, nodes, a, order).st, RunSeq(w, nodes, b, order).st))
    decreases |order|
  {
    hide NodeOutcomeOf;
    hide NodeReads;
    hide Benign;
    if order != [] {
      var id := order[0];
      RememberedContexts(w, a, b);
      NodeExactly(w, nodes[id], RowTaken(nodes[id], a.rows), Context(w, a.steps), Context(w, b.steps), Forgotten(a, b),
          id);
      assert a.rows == b.rows;
      match NodeOutcomeOf(w, nodes[id], RowTaken(nodes[id], a.rows), Context(w, a.steps), id)
      case Stopped(_) =>
      case Finished(result) =>
        RememberedCompletion(a, b, nodes[id], id, result);
        if !NodeReads(w, nodes[id], Context(w, a.steps), Whole(Forgotten(a, b))) {
          hide Remembers;
          LockstepExactly(w, nodes, CompleteNode(a, nodes[id], id, result), CompleteNode(b, nodes[id], id, result),
              order[1..]);
        }
    }
  }

  /** The same stop, or results that are saved as the same checkpoint. */
  ghost predicate EndsAlike(whole: Outcome, resumed: Outcome) {
    match whole
    case Stop(_) => resumed == whole
    case Next(st) => resumed.Next? && EncodeAll(resumed.st.completed) == EncodeAll(st.completed)
  }

  /** Saved, and read again by a new call. */
  function Restart(st: RunState): RunState {
    Restored(EncodeAll(st.completed), st.rows)
  }

  /** A run that is saved and read again after every segment. */
  function RunRestarted(w: World, nodes: map<string, NodeDef>, st: RunState, segments: seq<seq<string>>): Outcome
    requires forall i, id :: 0 <= i < |segments| && id in segments[i] ==> id in nodes
    decreases |segments|
  {
    if segments == [] then Next(st)
    else
      match RunSeq(w, nodes, st, segments[0])
      case Stop(reason) => Stop(reason)
      case Next(st1) => RunRestarted(w, nodes, Restart(st1), segments[1..])
  }

  /** The same run without a restart. */
  function RunThrough(w: World, nodes: map<string, NodeDef>, st: RunState, segments: seq<seq<string>>): Outcome
    requires forall i, id :: 0 <= i < |segments| && id in segments[i] ==> id in nodes
    decreases |segments|
  {
    if segments == [] then Next(st)
    else
      match RunSeq(w, nodes, st, segments[0])
      case Stop(reason) => Stop(reason)
      case Next(st1) => RunThrough(w, nodes, st1, segments[1..])
  }

  /** The stop that the first read of a forgotten step makes in the restarted run, in whichever segment. */
  ghost function FirstReadRestarted(
      w: World, nodes: map<string, NodeDef>, a: RunState, b: RunState, segments: seq<seq<string>>): Option<StopReason>
    requires forall i, id :: 0 <= i < |segments| && id in segments[i] ==> id in nodes
    decreases |segments|
  {
    if segments == [] then None
    else if FirstRead(w, nodes, a, b, segments[0]).Some? then FirstRead(w, nodes, a, b, segments[0])
    else
      match (RunSeq(w, nodes, a, segments[0]), RunSeq(w, nodes, b, segments[0]))
      case (Next(a1), Next(b1)) => FirstReadRestarted(w, nodes, a1, Restart(b1), segments[1..])
      case _ => None
  }

  ghost predicate BenignRestarted(
      w: World, nodes: map<string, NodeDef>, a: RunState, b: RunState, segments: seq<seq<string>>)
    requires forall i, id :: 0 <= i < |segments| && id in segments[i] ==> id in nodes
    decreases |segments|
  {
    segments != [] ==>
      && BenignRun(w, nodes, a, b, segments[0])
      && (FirstRead(w, nodes, a, b, segments[0]).Some? ||
          match (RunSeq(w, nodes, a, segments[0]), RunSeq(w, nodes, b, segments[0]))
          case (Next(a1), Next(b1)) => BenignRestarted(w, nodes, a1, Restart(b1), segments[1..])
          case _ => true)
  }

  /** No node occurs twice in the segments, and none of them is done already. */
  ghost predicate Fresh(done: set<string>, segments: seq<seq<string>>)
    decreases |segments|
  {
    segments != [] ==>
      && NoDuplicates(segments[0]) && (forall id :: id in segments[0] ==> id !in done)
      && Fresh(done + Elements(segments[0]), segments[1..])
  }

  lemma {:induction false} RestartRemembers(a: RunState, b: RunState)
    requires Remembers(a, b) && Consistent(b)
    ensures Remembers(a, Restart(b)) && Consistent(Restart(b))
  {
    CheckpointRemembers(b);
  }

  /** With any number of restarts: the run stops at the first read of a forgotten step, or ends like the whole one. */
  lemma {:induction false} RestartsExactly(
      w: World, nodes: map<string, NodeDef>, a: RunState, b: RunState, segments: seq<seq<string>>)
    requires forall i, id :: 0 <= i < |segments| && id in segments[i] ==> id in nodes
    requires Remembers(a, b) && Consistent(b) && Fresh(b.completed.Keys, segments)
    requires BenignRestarted(w, nodes, a, b, segments)
    ensures match FirstReadRestarted(w, nodes, a, b, segments)
            case Some(reason) => RunRestarted(w, nodes, b, segments) == Stop(reason)
            case None => EndsAlike(RunThrough(w, nodes, a, segments), RunRestarted(w, nodes, b, segments))
    decreases |segments|
  {
    hide ProcessNode;
    hide Remembers;
    hide Consistent;
    if segments == [] {
      RememberedIsSaved(a, b);
    } else {
      LockstepExactly(w, nodes, a, b, segments[0]);
      if FirstRead(w, nodes, a, b, segments[0]).None? && RunSeq(w, nodes, a, segments[0]).Next? {
        var a1, b1 := RunSeq(w, nodes, a, segments[0]).st, RunSeq(w, nodes, b, segments[0]).st;
        RunsStayConsistent(w, nodes, b, segments[0]);
        RunSeqCompletes(w, nodes, b, segments[0]);
        RestartRemembers(a1, b1);
        assert Restart(b1).completed.Keys == b1.completed.Keys;
        RestAreNodes(nodes, segments);
        RestartsExactly(w, nodes, a1, Restart(b1), segments[1..]);
      }
    }
  }

  lemma RememberedIsSaved(a: RunState, b: RunState)
    requires Remembers(a, b)
    ensures EncodeAll(a.completed) == EncodeAll(b.completed)
  {
    SavedAlikeMeansSameCheckpoint(a.completed, b.completed);
  }

  lemma {:induction false} FlattenedAreNodes(nodes: map<string, NodeDef>, segments: seq<seq<string>>)
    requires forall i, id :: 0 <= i < |segments| && id in segments[i] ==> id in nodes
    ensures forall id :: id in Flatten(segments) ==> id in nodes
    decreases |segments|
  {
    if segments != [] {
      RestAreNodes(nodes, segments);
      FlattenedAreNodes(nodes, segments[1..]);
    }
  }

  lemma RestAreNodes(nodes: map<string, NodeDef>, segments: seq<seq<string>>)
    requires segments != [] && forall i, id :: 0 <= i < |segments| && id in segments[i] ==> id in nodes
    ensures forall i, id :: 0 <= i < |segments[1..]| && id in segments[1..][i] ==> id in nodes
  {
    forall i, id | 0 <= i < |segments[1..]| && id in segments[1..][i]
      ensures id in nodes
    {
      assert segments[1..][i] == segments[i + 1];
    }
  }

  /** Running the segments one after the other is running them in one go. */
  lemma {:induction false} ThroughIsWhole(
      w: World, nodes: map<string, NodeDef>, st: RunState, segments: seq<seq<string>>)
    requires forall i, id :: 0 <= i < |segments| && id in segments[i] ==> id in nodes
    ensures forall id :: id in Flatten(segments) ==> id in nodes
    ensures RunThrough(w, nodes, st, segments) == RunSeq(w, nodes, st, Flatten(segments))
    decreases |segments|
  {
    hide ProcessNode;
    FlattenedAreNodes(nodes, segments);
    if segments != [] {
      RestAreNodes(nodes, segments);
      RunSeqAppend(w, nodes, st, segments[0], Flatten(segments[1..]));
      match RunSeq(w, nodes, st, segments[0])
      case Stop(_) =>
      case Next(st1) => ThroughIsWhole(w, nodes, st1, segments[1..]);
    }
  }

  /**
   * So the restarted run ends like the one that processes the same nodes in one go if and only if no processed node
   * reads a forgotten step as a whole, or that run stops for the reason for which such a read stops the restarted one.
   */
  lemma {:induction false} ResumesExactly(
      w: World, nodes: map<string, NodeDef>, st: RunState, segments: seq<seq<string>>)
    requires forall i, id :: 0 <= i < |segments| && id in segments[i] ==> id in nodes
    requires Consistent(st) && Fresh(st.completed.Keys, segments) && BenignRestarted(w, nodes, st, st, segments)
    ensures forall id :: id in Flatten(segments) ==> id in nodes
    ensures var read := FirstReadRestarted(w, nodes, st, st, segments);
            var whole := RunSeq(w, nodes, st, Flatten(segments));
            EndsAlike(whole, RunRestarted(w, nodes, st, segments)) <==> read.None? || whole == Stop(read.value)
  {
    hide BenignRestarted;
    hide FirstReadRestarted;
    hide RunSeq;
    assert Remembers(st, st);
    RestartsExactly(w, nodes, st, st, segments);
    ThroughIsWhole(w, nodes, st, segments);
  }

  /**
   * A step in flight at a crash has its row and no result. A run that starts from there only goes through when the
   * conditions of all such steps skip them; otherwise it stops, because no row is inserted with a second attempt.
   */
  lemma {:induction false} InFlightStepsOnlySkip(
      w: World, nodes: map<string, NodeDef>, st: RunState, order: seq<string>, id: string)
    requires (forall x :: x in order ==> x in nodes) && NoDuplicates(order) && id in order
    requires RowTaken(nodes[id], st.rows) && RunSeq(w, nodes, st, order).Next?
    ensures id in RunSeq(w, nodes, st, order).st.completed
    ensures RunSeq(w, nodes, st, order).st.completed[id].status.StepSkipped?
    decreases |order|
  {
    hide EvaluateCondition;
    hide EvaluateString;
    hide RunStep;
    var st1 := ProcessNode(w, nodes[order[0]], st, order[0]).st;
    if order[0] == id {
      assert st1.completed[id].status.StepSkipped? by {
        TakenStepOnlySkips(w, nodes[id].step, Context(w, st.steps));
      }
      ResultStays(w, nodes, st1, order[1..], id);
    } else {
      InFlightStepsOnlySkip(w, nodes, st1, order[1..], id);
    }
  }

  lemma {:induction false} ResultStays(
      w: World, nodes: map<string, NodeDef>, st: RunState, order: seq<string>, id: string)
    requires (forall x :: x in order ==> x in nodes) && id !in order && id in st.completed
    requires RunSeq(w, nodes, st, order).Next?
    ensures id in RunSeq(w, nodes, st, order).st.completed
    ensures RunSeq(w, nodes, st, order).st.completed[id] == st.completed[id]
    decreases |order|
  {
    hide NodeOutcomeOf;
    if order != [] {
      ResultStays(w, nodes, ProcessNode(w, nodes[order[0]], st, order[0]).st, order[1..], id);
    }
  }
}
