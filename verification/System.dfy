/**
 * The rows shared by all scheduler nodes and API handlers, and every atomic step that can change them:
 * one step per SQL statement, with the local moves of each running Execute call in between
 * (internal/engine/scheduler.go, internal/engine/executor.go, internal/api/handler).
 */
module System {
  import opened Prelude
  import opened Model
  import opened Graph
  import opened Dag
  import opened StateMachine
  import opened Evaluator
  import opened Semantics

  type ExecId = nat
  type ProcId = nat
  type ApprovalId = nat
  type NodeId = string
  type TenantId = nat

  /**
   * What is fixed about each execution: the definition it was started with, and what considering one of its nodes
   * can come to, given its inputs.
   */
  datatype Defs = Defs(of: ExecId -> WorkflowDefinition, can: (ExecId, string, Condition) -> bool)

  /** What considering a node of e can come to is what its templates can come to, whatever other steps put out. */
  ghost predicate Suits(defs: Defs, e: ExecId, lib: Library, inputs: map<string, Value>) {
    forall id, c :: id in NodesOf(defs.of(e)) ==>
      (defs.can(e, id, c) <==> MayComeTo(lib, NodesOf(defs.of(e))[id], inputs, c))
  }

  /** A row of executions. Of the checkpoint only the finished nodes are kept. */
  datatype Row = Row(tenant: TenantId, status: Status, createdAt: nat, startedAt: Option<nat>, finishedAt: Option<nat>,
                     checkpoint: Option<set<string>>, node: Option<NodeId>)

  /** A row of execution_steps, always with attempt 1, and the call that inserted it. */
  datatype StepRow = StepRow(owner: ProcId, status: StepRowStatus)

  datatype Decision = Undecided | Approved | Rejected

  datatype ApprovalRow = ApprovalRow(exec: ExecId, stepId: string, tenant: TenantId, status: Decision)

  /** Where an Execute call is between two statements. */
  datatype Pc =
    | Acquired
    | Starting
    | Todo(todo: seq<string>)
    | Inserting(id: string, rest: seq<string>)
    | Attempting(id: string, rest: seq<string>, made: nat)
    | Succeeding(id: string, rest: seq<string>)
    | Failing(id: string)
    | Compensating(id: string)
    | Asking(id: string, rest: seq<string>)
    | Announcing(id: string, rest: seq<string>, approval: ApprovalId)
    | Waiting(id: string, rest: seq<string>, approval: ApprovalId)
    | Granted(id: string, rest: seq<string>)
    | Saving(rest: seq<string>)
    | Ending(to: Status)
    | Gone

  /** One Execute call: its execution, the node it runs on and its memory. */
  datatype Inc = Inc(exec: ExecId, node: NodeId, status: Status, completed: set<string>, pc: Pc)

  /** A node a takeover query found, the heartbeat it saw and when it looked. */
  datatype Dead = Dead(node: NodeId, heartbeat: nat, seenAt: nat)

  datatype RunnerCall = RunnerCall(exec: ExecId, stepId: string, caller: ProcId)

  datatype System = System(
    now: nat,
    rows: map<ExecId, Row>,
    stepRows: map<(ExecId, string), StepRow>,
    approvals: map<ApprovalId, ApprovalRow>,
    nodes: map<NodeId, nat>,
    incs: map<ProcId, Inc>,
    takers: map<ProcId, set<Dead>>,
    // What happened so far: runner and compensation calls, nodes begun and finished, approvals not needed.
    calls: multiset<RunnerCall>,
    compensations: multiset<RunnerCall>,
    started: set<(ExecId, string)>,
    finished: set<(ExecId, string)>,
    waived: set<(ExecId, string)>)

  /** A move of one Execute call; ok tells whether its statement succeeds. */
  datatype Move =
    | Load(ok: bool)
    | Begin(ok: bool)
    | Choose(order: seq<string>)
    | Consider(condition: Condition)
    | InsertRow(ok: bool)
    | Attempt(success: bool)
    | NoAttempts
    | Abandon
    | MarkFailed(ok: bool)
    | Compensate(found: bool)
    | MarkSucceeded(ok: bool)
    | Ask(approval: ApprovalId, ok: bool)
    | Announce(ok: bool)
    | Check
    | GoOn(ok: bool)
    | Save(ok: bool)
    | End(ok: bool)
    | Crash

  datatype Action =
    | Tick(passed: nat)
    | Insert(exec: ExecId, tenant: TenantId)
    | Cancel(exec: ExecId, tenant: TenantId)
    | Register(node: NodeId)
    | Beat(node: NodeId)
    | Deregister(node: NodeId)
    | Query(taker: ProcId, me: NodeId, threshold: nat)
    | Release(taker: ProcId, dead: Dead)
    | Bury(taker: ProcId, dead: Dead)
    | Acquire(proc: ProcId, node: NodeId, exec: ExecId)
    | Decide(approval: ApprovalId, tenant: TenantId, decision: Decision)
    | Moves(proc: ProcId, move: Move)

  // ----- single statements -----

  /** The update of transitionExecution. It has no guard, starts the clock on running and stops it on terminal. */
  function WriteStatus(row: Row, to: Status, now: nat): Row {
    row.(status := to,
         startedAt := if to == Running then Some(now) else row.startedAt,
         finishedAt := if IsTerminalStatus(to) then Some(now) else None)
  }

  function CancelRow(row: Row, now: nat): Row {
    if IsTerminalStatus(row.status) then row else row.(status := Cancelled, finishedAt := Some(now))
  }

  function ReleaseRow(row: Row, dead: NodeId): Row {
    if row.node == Some(dead) && (row.status == Running || row.status == Queued)
    then row.(node := None, status := Queued) else row
  }

  predicate CanAcquire(row: Row, node: NodeId) {
    row.node.None? || row.node == Some(node)
  }

  function DecideRow(row: ApprovalRow, tenant: TenantId, decision: Decision): ApprovalRow {
    if row.tenant == tenant && row.status == Undecided then row.(status := decision) else row
  }

  function StaleNodes(nodes: map<NodeId, nat>, me: NodeId, threshold: nat, now: nat): set<Dead> {
    set n | n in nodes && n != me && nodes[n] + threshold < now :: Dead(n, nodes[n], now)
  }

  // ----- moves of an Execute call -----

  predicate IsStep(defs: Defs, e: ExecId, id: string) {
    id in NodesOf(defs.of(e)) && NodesOf(defs.of(e))[id].StepOf?
  }

  predicate IsApproval(defs: Defs, e: ExecId, id: string) {
    id in NodesOf(defs.of(e)) && NodesOf(defs.of(e))[id].ApprovalOf?
  }

  /** How often the runner of a step may be called. */
  function Limit(defs: Defs, e: ExecId, id: string): int {
    if IsStep(defs, e, id) then MaxAttempts(NodesOf(defs.of(e))[id].step) else 0
  }

  predicate HasCompensation(defs: Defs, e: ExecId, id: string) {
    IsStep(defs, e, id) && NodesOf(defs.of(e))[id].step.compensation.Some?
  }

  predicate CanMove(defs: Defs, s: System, inc: Inc, m: Move) {
    match m
    case Load(_) => inc.pc.Acquired?
    case Begin(_) => inc.pc.Starting?
    case Choose(order) =>
      inc.pc == Todo([]) && NoDuplicates(order) && Elements(order) == Wave(GraphOf(defs.of(inc.exec)), inc.completed)
    case Consider(condition) =>
      && inc.pc.Todo? && inc.pc.todo != [] && inc.pc.todo[0] in NodesOf(defs.of(inc.exec))
      && defs.can(inc.exec, inc.pc.todo[0], condition)
    case InsertRow(_) => inc.pc.Inserting?
    case Attempt(_) => inc.pc.Attempting? && inc.pc.made < Limit(defs, inc.exec, inc.pc.id)
    case NoAttempts => inc.pc.Attempting? && inc.pc.made == 0 && Limit(defs, inc.exec, inc.pc.id) <= 0
    case Abandon => inc.pc.Attempting?
    case MarkFailed(_) => inc.pc.Failing?
    case Compensate(_) => inc.pc.Compensating?
    case MarkSucceeded(_) => inc.pc.Succeeding?
    case Ask(a, _) => inc.pc.Asking? && a !in s.approvals
    case Announce(_) => inc.pc.Announcing?
    case Check => inc.pc.Waiting? && inc.pc.approval in s.approvals
    case GoOn(_) => inc.pc.Granted?
    case Save(_) => inc.pc.Saving?
    case End(_) => inc.pc.Ending?
    case Crash => true
  }

  /** A call goes on at pc, without touching anything shared. */
  function At(s: System, p: ProcId, pc: Pc): System
    requires p in s.incs
  {
    s.(incs := s.incs[p := s.incs[p].(pc := pc)])
  }

  /** transitionExecution: checked against the status in memory only; on success memory and row both hold it. */
  function Transition(s: System, p: ProcId, to: Status, ok: bool): System
    requires p in s.incs && s.incs[p].exec in s.rows
  {
    var inc := s.incs[p];
    if ok && ValidTransition(inc.status, to) then
      s.(rows := s.rows[inc.exec := WriteStatus(s.rows[inc.exec], to, s.now)], incs := s.incs[p := inc.(status := to)])
    else s
  }

  /** A node finished: it joins the completed ones, and the checkpoint is saved next. */
  function Finish(s: System, p: ProcId, id: string, rest: seq<string>): System
    requires p in s.incs
  {
    var inc := s.incs[p];
    s.(incs := s.incs[p := inc.(completed := inc.completed + {id}, pc := Saving(rest))],
       finished := s.finished + {(inc.exec, id)})
  }

  function Loaded(defs: Defs, s: System, p: ProcId, ok: bool): System
    requires p in s.incs && s.incs[p].exec in s.rows
  {
    var inc := s.incs[p];
    var row := s.rows[inc.exec];
    if !ok || !DependenciesKnown(defs.of(inc.exec)) || !ValidTransition(row.status, Running) then At(s, p, Gone)
    else
      s.(incs := s.incs[p := inc.(status := row.status, pc := Starting,
                                  completed := if row.checkpoint.Some? then row.checkpoint.value else {})])
  }

  function Considered(defs: Defs, s: System, p: ProcId, condition: Condition): System
    requires p in s.incs && s.incs[p].pc.Todo? && s.incs[p].pc.todo != []
    requires s.incs[p].pc.todo[0] in NodesOf(defs.of(s.incs[p].exec))
  {
    var inc := s.incs[p];
    var id, rest := inc.pc.todo[0], inc.pc.todo[1..];
    var s1 := s.(started := s.started + {(inc.exec, id)});
    if NodesOf(defs.of(inc.exec))[id].StepOf? then
      match condition
      case ConditionError => At(s1, p, Ending(Failed))
      case Skip => Finish(s1, p, id, rest)
      case Proceed => At(s1, p, Inserting(id, rest))
    else
      match condition
      case ConditionError => At(s1, p, Gone)
      case Skip => Finish(s1.(waived := s1.waived + {(inc.exec, id)}), p, id, rest)
      case Proceed => At(s1, p, Asking(id, rest))
  }

  function RowInserted(s: System, p: ProcId, ok: bool): System
    requires p in s.incs && s.incs[p].pc.Inserting?
  {
    var inc := s.incs[p];
    var key := (inc.exec, inc.pc.id);
    if ok && key !in s.stepRows then
      At(s.(stepRows := s.stepRows[key := StepRow(p, RowRunning)]), p, Attempting(inc.pc.id, inc.pc.rest, 0))
    else At(s, p, Ending(Failed))
  }

  function Attempted(defs: Defs, s: System, p: ProcId, success: bool): System
    requires p in s.incs && s.incs[p].pc.Attempting?
  {
    var inc := s.incs[p];
    var id, rest, made := inc.pc.id, inc.pc.rest, inc.pc.made + 1;
    At(s.(calls := s.calls + multiset{RunnerCall(inc.exec, id, p)}), p,
       if success then Succeeding(id, rest)
       else if made < Limit(defs, inc.exec, id) then Attempting(id, rest, made)
       else Failing(id))
  }

  function Marked(s: System, e: ExecId, id: string, status: StepRowStatus, ok: bool): System {
    if ok && (e, id) in s.stepRows then s.(stepRows := s.stepRows[(e, id) := s.stepRows[(e, id)].(status := status)])
    else s
  }

  function MarkedFailed(defs: Defs, s: System, p: ProcId, ok: bool): System
    requires p in s.incs && s.incs[p].pc.Failing?
  {
    var inc := s.incs[p];
    var s1 := Marked(s, inc.exec, inc.pc.id, RowFailed, ok);
    At(s1, p, if HasCompensation(defs, inc.exec, inc.pc.id) then Compensating(inc.pc.id) else Ending(Failed))
  }

  function Compensated(s: System, p: ProcId, found: bool): System
    requires p in s.incs && s.incs[p].pc.Compensating?
  {
    var inc := s.incs[p];
    var call := RunnerCall(inc.exec, inc.pc.id, p);
    At(if found then s.(compensations := s.compensations + multiset{call}) else s, p, Ending(Failed))
  }

  function Asked(s: System, p: ProcId, a: ApprovalId, ok: bool): System
    requires p in s.incs && s.incs[p].pc.Asking? && s.incs[p].exec in s.rows
  {
    var inc := s.incs[p];
    if !ok then At(s, p, Gone)
    else
      At(s.(approvals := s.approvals[a := ApprovalRow(inc.exec, inc.pc.id, s.rows[inc.exec].tenant, Undecided)]), p,
         Announcing(inc.pc.id, inc.pc.rest, a))
  }

  function Checked(s: System, p: ProcId): System
    requires p in s.incs && s.incs[p].pc.Waiting? && s.incs[p].pc.approval in s.approvals
  {
    var inc := s.incs[p];
    match s.approvals[inc.pc.approval].status
    case Undecided => s
    case Approved => At(s, p, Granted(inc.pc.id, inc.pc.rest))
    case Rejected => At(s, p, Ending(Cancelled))
  }

  function Saved(s: System, p: ProcId, ok: bool): System
    requires p in s.incs && s.incs[p].pc.Saving? && s.incs[p].exec in s.rows
  {
    var inc := s.incs[p];
    At(if ok then s.(rows := s.rows[inc.exec := s.rows[inc.exec].(checkpoint := Some(inc.completed))]) else s, p,
       Todo(inc.pc.rest))
  }

  function Moved(defs: Defs, s: System, p: ProcId, m: Move): System
    requires p in s.incs && s.incs[p].exec in s.rows
  {
    var inc := s.incs[p];
    match m
    case Load(ok) => Loaded(defs, s, p, ok)
    case Begin(ok) =>
      if ok && ValidTransition(inc.status, Running) then At(Transition(s, p, Running, ok), p, Todo([]))
      else At(s, p, Gone)
    case Choose(order) =>
      At(s, p, if order != [] then Todo(order)
               else Ending(if |inc.completed| == |NodesOf(defs.of(inc.exec))| then Succeeded else Failed))
    case Consider(condition) =>
      if inc.pc.Todo? && inc.pc.todo != [] && inc.pc.todo[0] in NodesOf(defs.of(inc.exec)) then
        Considered(defs, s, p, condition)
      else s
    case InsertRow(ok) => if inc.pc.Inserting? then RowInserted(s, p, ok) else s
    case Attempt(success) => if inc.pc.Attempting? then Attempted(defs, s, p, success) else s
    case NoAttempts => if inc.pc.Attempting? then At(s, p, Succeeding(inc.pc.id, inc.pc.rest)) else s
    case Abandon => At(s, p, Ending(Failed))
    case MarkFailed(ok) => if inc.pc.Failing? then MarkedFailed(defs, s, p, ok) else s
    case Compensate(found) => if inc.pc.Compensating? then Compensated(s, p, found) else s
    case MarkSucceeded(ok) =>
      if inc.pc.Succeeding? then Finish(Marked(s, inc.exec, inc.pc.id, RowSucceeded, ok), p, inc.pc.id, inc.pc.rest)
      else s
    case Ask(a, ok) => if inc.pc.Asking? then Asked(s, p, a, ok) else s
    case Announce(ok) =>
      if inc.pc.Announcing? then
        At(Transition(s, p, WaitingApproval, ok), p, Waiting(inc.pc.id, inc.pc.rest, inc.pc.approval)) else s
    case Check => if inc.pc.Waiting? && inc.pc.approval in s.approvals then Checked(s, p) else s
    case GoOn(ok) => if inc.pc.Granted? then Finish(Transition(s, p, Running, ok), p, inc.pc.id, inc.pc.rest) else s
    case Save(ok) => if inc.pc.Saving? then Saved(s, p, ok) else s
    case End(ok) => if inc.pc.Ending? then At(Transition(s, p, inc.pc.to, ok), p, Gone) else s
    case Crash => At(s, p, Gone)
  }

  // ----- all actions -----

  predicate Enabled(defs: Defs, s: System, a: Action) {
    match a
    case Insert(e, _) => e !in s.rows
    case Query(t, _, _) => t !in s.takers
    case Release(t, dead) => t in s.takers && dead in s.takers[t]
    case Bury(t, dead) => t in s.takers && dead in s.takers[t]
    case Acquire(p, n, e) => p !in s.incs && e in s.rows && CanAcquire(s.rows[e], n)
    case Decide(_, _, d) => d != Undecided
    case Moves(p, m) => p in s.incs && s.incs[p].exec in s.rows && CanMove(defs, s, s.incs[p], m)
    case _ => true
  }

  function Apply(defs: Defs, s: System, a: Action): System {
    match a
    case Tick(passed) => s.(now := s.now + passed)
    case Insert(e, tenant) => s.(rows := s.rows[e := Row(tenant, Queued, s.now, None, None, None, None)])
    case Cancel(e, tenant) =>
      if e in s.rows && s.rows[e].tenant == tenant then s.(rows := s.rows[e := CancelRow(s.rows[e], s.now)]) else s
    case Register(n) => s.(nodes := s.nodes[n := s.now])
    case Beat(n) => if n in s.nodes then s.(nodes := s.nodes[n := s.now]) else s
    case Deregister(n) => s.(nodes := s.nodes - {n})
    case Query(t, me, threshold) => s.(takers := s.takers[t := StaleNodes(s.nodes, me, threshold, s.now)])
    case Release(_, dead) => s.(rows := map e | e in s.rows :: ReleaseRow(s.rows[e], dead.node))
    case Bury(_, dead) => s.(nodes := s.nodes - {dead.node})
    case Acquire(p, n, e) =>
      if e in s.rows then
        s.(rows := s.rows[e := s.rows[e].(node := Some(n))], incs := s.incs[p := Inc(e, n, Queued, {}, Acquired)])
      else s
    case Decide(a, tenant, d) =>
      if a in s.approvals then s.(approvals := s.approvals[a := DecideRow(s.approvals[a], tenant, d)]) else s
    case Moves(p, m) => if p in s.incs && s.incs[p].exec in s.rows then Moved(defs, s, p, m) else s
  }

  const INITIAL := System(0, map[], map[], map[], map[], map[], map[], multiset{}, multiset{}, {}, {}, {})

  /** The state after a sequence of actions. */
  function After(defs: Defs, actions: seq<Action>): System {
    if actions == [] then INITIAL
    else Apply(defs, After(defs, actions[..|actions| - 1]), actions[|actions| - 1])
  }

  /** A run: every action could happen when it did. */
  ghost predicate IsRun(defs: Defs, actions: seq<Action>) {
    actions == []
    || (IsRun(defs, actions[..|actions| - 1])
        && Enabled(defs, After(defs, actions[..|actions| - 1]), actions[|actions| - 1]))
  }
}
