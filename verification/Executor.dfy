/** The executor object of internal/engine/executor.go: one Execute call over the rows of one execution. */
module Executor {
  import opened Prelude
  import opened Model
  import opened Graph
  import opened Dag
  import opened StateMachine
  import opened Evaluator
  import opened Templates
  import opened Backoff
  import opened Semantics
  import opened OrderIndependence
  import opened Resume
  import opened Waves
  import opened System
  import opened CallMoves

  datatype ExecuteResult = LoadFailed | BuildFailed | Refused | Interrupted | ApprovalFailed | Ended

  /** Processing this order from st0 leaves st. */
  ghost predicate GoneThrough(w: World, g: Graph, nodes: map<string, NodeDef>, st0: RunState, order: seq<string>,
                              st: RunState) {
    && Respects(g, st0.completed.Keys, order)
    && (forall id :: id in order ==> id in nodes)
    && RunSeq(w, nodes, st0, order) == Next(st)
    && st.completed.Keys == st0.completed.Keys + Elements(order)
  }

  /** Processing this order from st0 stops at its last node. */
  ghost predicate StoppedBy(w: World, g: Graph, nodes: map<string, NodeDef>, st0: RunState, order: seq<string>,
                            reason: StopReason) {
    && Respects(g, st0.completed.Keys, order)
    && (forall id :: id in order ==> id in nodes)
    && RunSeq(w, nodes, st0, order) == Stop(reason)
  }

  lemma {:induction false} OneMore(w: World, g: Graph, nodes: map<string, NodeDef>, st0: RunState, order: seq<string>,
                                   st: RunState, id: string)
    requires GoneThrough(w, g, nodes, st0, order, st) && id in nodes && id in g.ids && IsReady(g, st.completed.Keys, id)
    ensures match ProcessNode(w, nodes[id], st, id)
            case Next(st') => GoneThrough(w, g, nodes, st0, order + [id], st')
            case Stop(reason) => StoppedBy(w, g, nodes, st0, order + [id], reason)
  {
    hide NodeOutcomeOf;
    hide IsReady;
    RespectsAppend(g, st0.completed.Keys, order, [id]);
    RunSeqAppend(w, nodes, st0, order, [id]);
    RunSeqCompletes(w, nodes, st, if ProcessNode(w, nodes[id], st, id).Next? then [id] else []);
    assert Elements(order + [id]) == Elements(order) + Elements([id]);
  }

  lemma {:induction false} NothingYet(w: World, g: Graph, nodes: map<string, NodeDef>, st0: RunState)
    ensures InWaves(w, g, nodes, st0, [], st0)
  {
    assert Elements([]) == {};
  }

  /** Taking these waves from st0 leaves st. */
  ghost predicate InWaves(w: World, g: Graph, nodes: map<string, NodeDef>, st0: RunState, waves: seq<seq<string>>,
                          st: RunState) {
    AreWaves(g, st0.completed.Keys, waves) && GoneThrough(w, g, nodes, st0, Flatten(waves), st)
  }

  /** These nodes begin the wave that follows the given waves. */
  ghost predicate BeginsNextWave(
      w: World, g: Graph, nodes: map<string, NodeDef>, st0: RunState, waves: seq<seq<string>>,
      partial: seq<string>) {
    exists st, rest ::
      && InWaves(w, g, nodes, st0, waves, st)
      && NoDuplicates(partial + rest) && Elements(partial + rest) == Wave(g, st.completed.Keys)
  }

  lemma BeginsWave(
      w: World, g: Graph, nodes: map<string, NodeDef>, st0: RunState, waves: seq<seq<string>>, st: RunState,
      ready: seq<string>, partial: seq<string>)
    requires InWaves(w, g, nodes, st0, waves, st) && NoDuplicates(ready)
             && Elements(ready) == Wave(g, st.completed.Keys)
    requires partial <= ready
    ensures BeginsNextWave(w, g, nodes, st0, waves, partial)
  {
    assert partial + ready[|partial|..] == ready;
  }

  lemma WavesSoFar(
      w: World, g: Graph, nodes: map<string, NodeDef>, st0: RunState, waves: seq<seq<string>>, st: RunState)
    requires InWaves(w, g, nodes, st0, waves, st)
    ensures AreWaves(g, st0.completed.Keys, waves) && GoneThrough(w, g, nodes, st0, Flatten(waves), st)
  {
  }

  lemma {:induction false} WaveRan(w: World, g: Graph, nodes: map<string, NodeDef>, st0: RunState,
                                   waves: seq<seq<string>>, st: RunState, ready: seq<string>, st': RunState)
    requires InWaves(w, g, nodes, st0, waves, st) && GoneThrough(w, g, nodes, st0, Flatten(waves) + ready, st')
    requires ready != [] && NoDuplicates(ready) && Elements(ready) == Wave(g, st.completed.Keys)
    ensures InWaves(w, g, nodes, st0, waves + [ready], st')
  {
    AnotherWave(g, st0.completed.Keys, waves, ready);
    FlattenSnoc(waves, ready);
  }

  /** How a call ends when a node stops it. */
  predicate StopMatches(reason: StopReason, r: ExecuteResult, status: Status) {
    match reason
    case StepFailed => r.Ended? && status == Failed
    case ApprovalRejected => r.Ended? && status == Cancelled
    case ApprovalError => r.ApprovalFailed? && status == Running
  }

  /** The names of these calls, each as often as it was used. */
  function Names(calls: seq<Call>): multiset<string> {
    if calls == [] then multiset{} else Names(calls[..|calls| - 1]) + multiset{calls[|calls| - 1].req.stepId}
  }

  lemma NamesSnoc(earlier: multiset<string>, calls: seq<Call>, call: Call)
    ensures earlier + Names(calls + [call]) == earlier + Names(calls) + multiset{call.req.stepId}
  {
    assert (calls + [call])[..|calls|] == calls;
  }

  /** n calls of the retry loop, and that of the compensation after a failure, begin all calls of a step. */
  lemma {:induction false} CallsSoFar(w: World, step: StepDef, req: Request, ctx: EvalContext, before: seq<Call>,
                                      n: nat, r: Attempts)
    requires n <= CallsFrom(w, step.runner, req, 1, MaxAttempts(step))
    requires r.Failure? ==> n == CallsFrom(w, step.runner, req, 1, MaxAttempts(step))
    requires r.Failure? ==> TryFrom(w, step.runner, req, 1, MaxAttempts(step)).Failure?
    ensures var all, last := RunCalls(w, step, req, ctx), if r.Failure? && step.compensation.Some? then
                                CompensationCalls(w, step, step.compensation.value, ctx) else [];
            var made := before + Repeat(Call(step.runner, req), n) + last;
            var most, tried := CallsFrom(w, step.runner, req, 1, MaxAttempts(step)),
                               TryFrom(w, step.runner, req, 1, MaxAttempts(step));
            && before <= made <= before + all
            && (n == most && r == tried ==> made == before + all)
  {
    hide CompensationCalls;
    hide CallsFrom;
    hide TryFrom;
    hide Repeat;
    RepeatPrefix(Call(step.runner, req), n, CallsFrom(w, step.runner, req, 1, MaxAttempts(step)));
  }

  class Executor {
    const world: World
    /** True when no statement fails and nobody cancels the call. */
    const reliable: bool

    /** Which call this is, and the state of the shared system in which its execution was acquired. */
    ghost const me: Caller
    /** The names under which it had called runners by then. */
    ghost const earlier: multiset<string>

    // The rows of this execution in the database.
    var rowStatus: Status
    var startedAt: Option<nat>
    var finishedAt: Option<nat>
    var checkpoint: Option<Completed>
    var stepRows: map<string, StepRowStatus>
    var approvalRequests: seq<string>

    // The memory of the call.
    var status: Status
    var completed: Completed
    var steps: map<string, map<string, Value>>

    /** The runner calls made so far. */
    var calls: seq<Call>

    /** The statuses this call has written so far. */
    ghost var written: seq<Status>

    /** How often the transition table has refused a status. */
    ghost var refusals: nat

    /** The clock of the machine. */
    var clock: nat

    /** The state of the shared system: after every move of the call, and after whatever the deciders have done. */
    ghost var sys: System

    /** A call that was just acquired; its rows are as the system holds them. */
    constructor (world: World, reliable: bool, clock: nat, rowStatus: Status, startedAt: Option<nat>,
                 finishedAt: Option<nat>, checkpoint: Option<Completed>, stepRows: map<string, StepRowStatus>,
                 ghost me: Caller, ghost earlier: multiset<string>)
      requires Suits(me.defs, me.exec, world.lib, world.inputs)
      requires me.proc in me.start.incs && me.start.incs[me.proc].exec == me.exec
      requires me.start.incs[me.proc].pc == Acquired
      requires Holds(me.start, me.proc, me.exec,
                     Tables(clock, rowStatus, startedAt, finishedAt, KeysIn(checkpoint), stepRows, earlier))
      ensures this.world == world && this.reliable == reliable && this.rowStatus == rowStatus
      ensures this.startedAt == startedAt && this.finishedAt == finishedAt
      ensures this.checkpoint == checkpoint && this.stepRows == stepRows && written == [] && calls == []
      ensures this.me == me && sys == me.start && Suited() && Begun(me, sys, Rows())
    {
      this.world, this.reliable, this.clock := world, reliable, clock;
      this.rowStatus, this.checkpoint, this.stepRows := rowStatus, checkpoint, stepRows;
      this.startedAt, this.finishedAt, approvalRequests := startedAt, finishedAt, [];
      status, completed, steps := rowStatus, map[], map[];
      calls := [];
      written, refusals := [], 0;
      this.me, this.earlier, sys := me, earlier, me.start;
      new;
      BegunAtOnce(me, Rows());
    }

    /** What the rows of the execution hold. */
    ghost function Rows(): Tables
      reads this`clock, this`rowStatus, this`startedAt, this`finishedAt, this`checkpoint, this`stepRows, this`calls
    {
      Tables(clock, rowStatus, startedAt, finishedAt, KeysIn(checkpoint), stepRows, earlier + Names(calls))
    }

    /** The system got here by moves of this call, which is now at pc; the rows are those of the system. */
    ghost predicate In(pc: Pc)
      reads this`sys, this`status, this`completed, this`clock, this`rowStatus, this`startedAt, this`finishedAt,
            this`checkpoint, this`stepRows, this`calls
    {
      Linked(me, sys, status, completed.Keys, pc, Rows())
    }

    /** The same, when the node id has just finished and its result is not kept yet. */
    ghost predicate Finishing(id: string, rest: seq<string>)
      reads this`sys, this`status, this`completed, this`clock, this`rowStatus, this`startedAt, this`finishedAt,
            this`checkpoint, this`stepRows, this`calls
    {
      Linked(me, sys, status, completed.Keys + {id}, Saving(rest), Rows())
    }

    ghost predicate IsOver()
      reads this`sys, this`clock, this`rowStatus, this`startedAt, this`finishedAt,
            this`checkpoint, this`stepRows, this`calls
    {
      Over(me, sys, Rows())
    }

    /** What considering a node can come to is known from its templates. */
    ghost predicate Suited() {
      Suits(me.defs, me.exec, world.lib, world.inputs)
    }

    /** The definition has this node. */
    ghost predicate IsMine(id: string, node: NodeDef) {
      id in NodesOf(me.defs.of(me.exec)) && NodesOf(me.defs.of(me.exec))[id] == node
    }

    /** What was written is in the language, and the memory holds the last status that was written. */
    ghost predicate Traced()
      reads this`written, this`status, this`rowStatus
    {
      InLanguage(written) && (written != [] ==> status == written[|written| - 1] && rowStatus == status)
    }

    ghost function Memory(): RunState
      reads this`completed, this`steps, this`stepRows
    {
      RunState(completed, steps, stepRows.Keys)
    }

    /** A database statement: it may fail, unless the call is reliable. */
    method Statement() returns (ok: bool)
      ensures reliable ==> ok
    {
      ok := *;
      if reliable {
        ok := true;
      }
    }

    /** Reads the clock; time may have passed. */
    method Now(ghost done: set<string>, ghost pc: Pc) returns (now: nat)
      requires Linked(me, sys, status, done, pc, Rows())
      modifies this`clock, this`sys
      ensures now == clock >= old(clock) && sys.approvals == old(sys.approvals)
      ensures Linked(me, sys, status, done, pc, Rows())
    {
      hide Linked;
      now := *;
      if now < clock {
        now := clock;
      }
      sys := TickMove(me, sys, status, done, pc, Rows(), now - clock);
      clock := now;
    }

    /** The statement of a transition; the move that it belongs to is made afterwards. */
    method TransitionExecution(to: Status, ghost done: set<string>, ghost pc: Pc) returns (ok: bool)
      requires Traced() && (to == Running || (written != [] && (to == WaitingApproval || IsTerminalStatus(to))))
      requires ValidTransition(status, to) ==> Linked(me, sys, status, done, pc, Rows())
      modifies this`status, this`rowStatus, this`startedAt, this`finishedAt, this`written, this`refusals,
               this`clock, this`sys
      ensures Traced()
      ensures ok ==> ValidTransition(old(status), to) && status == to && written == old(written) + [to]
      ensures !ok ==> status == old(status) && written == old(written)
      ensures clock >= old(clock) && sys.approvals == old(sys.approvals)
      ensures var before := old(Rows()).(now := clock);
              && Rows() == (if ok then Written(before, to) else before)
              && (ValidTransition(old(status), to) ==> Linked(me, sys, old(status), done, pc, before))
      ensures !ValidTransition(old(status), to) ==> sys == old(sys) && clock == old(clock)
      ensures reliable && ValidTransition(old(status), to) ==> ok
      ensures refusals == old(refusals) + if ValidTransition(old(status), to) then 0 else 1
    {
      hide Linked;
      hide InLanguage;
      hide Names;
      hide ValidTransition;
      ok := ValidateExecutionTransition(status, to);
      if !ok {
        refusals := refusals + 1;
        return;
      }
      ghost var before := Rows();
      var now := Now(done, pc);
      assert Rows() == before.(now := clock);
      ok := Statement();
      if !ok {
        return;
      }
      if written == [] {
        WriteFirst();
        assert written + [to] == [Running];
      } else {
        WriteNext(written, to);
      }
      // The start time of the execution is never loaded, so that every transition to running writes it.
      if to == Running {
        startedAt := Some(now);
      }
      finishedAt := if to == Succeeded || to == Failed || to == Cancelled then Some(now) else None;
      rowStatus := to;
      status := to;
      written := written + [to];
      assert Rows() == Written(before.(now := clock), to);
    }

    method SaveCheckpoint(ghost rest: seq<string>)
      requires In(Saving(rest))
      modifies this`checkpoint, this`sys
      ensures checkpoint == old(checkpoint) || checkpoint == Some(EncodeAll(completed))
      ensures reliable ==> checkpoint == Some(EncodeAll(completed))
      ensures In(Todo(rest))
    {
      hide Linked;
      var ok := Statement();
      sys := SaveMove(me, sys, status, completed.Keys, rest, Rows(), ok);
      if ok {
        checkpoint := Some(EncodeAll(completed));
        assert checkpoint.value.Keys == completed.Keys;
      }
    }

    method LoadCheckpoint()
      modifies this`completed, this`steps
      ensures Memory() == Restored(SavedIn(checkpoint), stepRows.Keys) && completed == SavedIn(checkpoint)
    {
      completed := if checkpoint.Some? then checkpoint.value else map[];
      steps := map[];
      var todo := completed.Keys;
      while todo != {}
        invariant completed == SavedIn(checkpoint) && todo <= completed.Keys
        invariant forall id :: id in steps <==> id in completed && id !in todo && completed[id].outputs.Some?
        invariant forall id :: id in steps ==> steps[id] == completed[id].outputs.value
      {
        var id :| id in todo;
        todo := todo - {id};
        if completed[id].outputs.Some? {
          steps := steps[id := completed[id].outputs.value];
        }
      }
      assert steps == Restored(completed, stepRows.Keys).steps;
    }

    lemma StepIsMine(step: StepDef)
      requires IsMine(step.id, StepOf(step))
      ensures Limit(me.defs, me.exec, step.id) == MaxAttempts(step)
      ensures HasCompensation(me.defs, me.exec, step.id) == step.compensation.Some?
    {
      hide NodesOf;
    }

    // ----- moves that touch no row -----

    /** The verdict on the next node. */
    ghost method Consider(id: string, node: NodeDef, rest: seq<string>)
      requires In(Todo([id] + rest)) && IsMine(id, node) && Suited()
      modifies this`sys
      ensures var verdict := Verdict(world.lib, node, Context(world, steps));
              if verdict.Skip? then Finishing(id, rest) else In(AfterVerdict(node.StepOf?, verdict, id, rest))
    {
      hide Linked;
      hide Verdict;
      hide NodesOf;
      VerdictCanBe(me, world, id, steps);
      var verdict := Verdict(world.lib, node, Context(world, steps));
      sys := ConsiderMove(me, sys, status, completed.Keys, id, rest, Rows(), verdict);
    }

    /** The call gives up a step between two attempts. */
    ghost method Abandon(id: string, rest: seq<string>, made: nat)
      requires In(Attempting(id, rest, made))
      modifies this`sys
      ensures In(Ending(Failed))
    {
      hide Linked;
      sys := AbandonMove(me, sys, status, completed.Keys, Attempting(id, rest, made), Rows());
    }

    ghost method NoAttempts(id: string, rest: seq<string>)
      requires In(Attempting(id, rest, 0)) && Limit(me.defs, me.exec, id) <= 0
      modifies this`sys
      ensures In(Succeeding(id, rest))
    {
      hide Linked;
      hide Limit;
      sys := NoAttemptsMove(me, sys, status, completed.Keys, id, rest, Rows());
    }

    /** The call ends where it is. */
    ghost method Crash(pc: Pc)
      requires In(pc)
      modifies this`sys
      ensures IsOver()
    {
      hide Linked;
      sys := CrashMove(me, sys, status, completed.Keys, pc, Rows());
    }

    /** The next wave is taken, or the call is about to end. */
    ghost method Choose(order: seq<string>)
      requires In(Todo([])) && NoDuplicates(order)
      requires Elements(order) == Wave(GraphOf(me.defs.of(me.exec)), completed.Keys)
      modifies this`sys
      ensures In(if order != [] then Todo(order)
                 else Ending(if |completed| == |NodesOf(me.defs.of(me.exec))| then Succeeded else Failed))
    {
      hide Linked;
      hide NodesOf;
      hide GraphOf;
      hide Wave;
      assert |completed.Keys| == |completed|;
      sys := ChooseMove(me, sys, status, completed.Keys, Rows(), order);
    }

    // ----- one node -----

    /** One call of the runner of a step. */
    method CallRunner(step: StepDef, req: Request, attempt: nat, ghost id: string, ghost rest: seq<string>)
        returns (result: RunResult)
      requires 0 < attempt <= Limit(me.defs, me.exec, id) && In(Attempting(id, rest, attempt - 1)) && req.stepId == id
      modifies this`calls, this`sys
      ensures result == world.run(step.runner, req, attempt)
      ensures calls == old(calls) + [Call(step.runner, req)]
      ensures In(if IsSuccess(result) then Succeeding(id, rest)
                 else if attempt < Limit(me.defs, me.exec, id) then Attempting(id, rest, attempt) else Failing(id))
    {
      hide Linked;
      hide Limit;
      hide IsSuccess;
      hide Names;
      ghost var before := Rows();
      result := world.run(step.runner, req, attempt);
      calls := calls + [Call(step.runner, req)];
      sys := AttemptMove(me, sys, status, completed.Keys, id, rest, attempt - 1, before, IsSuccess(result));
      NamesSnoc(earlier, old(calls), Call(step.runner, req));
      assert Rows() == before.(made := before.made + multiset{id});
    }

    /** The retry loop of a step: the runner is called until it succeeds or the attempts are used up. */
    method RunAttempts(step: StepDef, req: Request, ghost id: string, ghost rest: seq<string>)
      returns (r: Attempts, ghost n: nat, ghost waited: int)
      requires req.stepId == step.id
      requires In(Attempting(id, rest, 0)) && id == step.id && Limit(me.defs, me.exec, id) == MaxAttempts(step)
      modifies this`calls, this`sys
      ensures In(AfterTry(r, id, rest))
      ensures n <= CallsFrom(world, step.runner, req, 1, MaxAttempts(step))
      ensures calls == old(calls) + Repeat(Call(step.runner, req), n)
      ensures reliable || r.Failure? ==> n == CallsFrom(world, step.runner, req, 1, MaxAttempts(step))
      ensures reliable || r.Failure? ==> r == TryFrom(world, step.runner, req, 1, MaxAttempts(step))
      ensures reliable ==> waited == WaitFrom(world, step.retry, step.runner, req, 1, MaxAttempts(step))
    {
      hide In;
      hide Limit;
      n, waited := 0, 0;
      var maxAttempts := if step.retry.Some? then step.retry.value.maxAttempts else 1;
      var attempt := 1;
      assert calls + [] == calls;
      while attempt <= maxAttempts
        invariant 1 <= attempt && calls == old(calls) + Repeat(Call(step.runner, req), n)
        invariant TryFrom(world, step.runner, req, 1, maxAttempts)
                  == TryFrom(world, step.runner, req, attempt, maxAttempts)
        invariant CallsFrom(world, step.runner, req, 1, maxAttempts)
               == n + CallsFrom(world, step.runner, req, attempt, maxAttempts)
        invariant reliable ==> (
                    WaitFrom(world, step.retry, step.runner, req, 1, maxAttempts)
                 == waited + WaitFrom(world, step.retry, step.runner, req, attempt, maxAttempts))
        invariant attempt > 1 ==> attempt <= maxAttempts
        invariant In(Attempting(id, rest, attempt - 1))
        decreases maxAttempts - attempt
      {
        Assoc(old(calls), Repeat(Call(step.runner, req), n), [Call(step.runner, req)]);
        var result := CallRunner(step, req, attempt, id, rest);
        n := n + 1;
        if IsSuccess(result) {
          return Success(result), n, waited;
        }
        if attempt == maxAttempts {
          return Failure, n, waited;
        }
        var wait := CalculateBackoff(world.parse, attempt, step.retry);
        waited := waited + wait;
        var slept := Statement();
        if world.deadlinePasses(step.id, attempt) || !slept {
          Abandon(id, rest, attempt);
          return DeadlinePassed, n, waited;
        }
        attempt := attempt + 1;
      }
      NoAttempts(id, rest);
      return NeverRun, n, waited;
    }

    method RunCompensation(step: StepDef, comp: CompensationDef, ctx: EvalContext)
      requires In(Compensating(step.id))
      modifies this`calls, this`sys
      ensures In(Ending(Failed))
      ensures calls == old(calls) + CompensationCalls(world, step, comp, ctx)
    {
      hide Linked;
      var text := EvaluateStringLoop(world.lib, comp.command, ctx);
      var command := if text.Ok? then text.value else "";
      var runner := if comp.runner == "" then step.runner else comp.runner;
      ghost var before := Rows();
      sys := CompensateMove(me, sys, status, completed.Keys, step.id, before, world.hasRunner(runner));
      if !world.hasRunner(runner) {
        assert calls + [] == calls;
        return;
      }
      calls := calls + [Call(runner, Request(step.id + "_compensation", command, "", "", map[], comp.config))];
      NamesSnoc(earlier, old(calls), calls[|calls| - 1]);
      assert Rows() == before.(made := before.made + multiset{step.id + SUFFIX});
    }

    /** The update of the row of a step that succeeded, whose failure goes unnoticed. */
    method MarkSucceeded(id: string, ghost rest: seq<string>)
      requires id in stepRows && In(Succeeding(id, rest))
      modifies this`stepRows, this`sys
      ensures Finishing(id, rest)
      ensures stepRows == old(stepRows) || stepRows == old(stepRows)[id := RowSucceeded]
      ensures reliable ==> stepRows == old(stepRows)[id := RowSucceeded]
    {
      hide Linked;
      ghost var before := Rows();
      var ok := Statement();
      if ok {
        stepRows := stepRows[id := RowSucceeded];
      }
      sys := MarkSucceededMove(me, sys, status, completed.Keys, id, rest, before, ok);
      assert Rows() == if ok then before.(marks := before.marks[id := RowSucceeded]) else before;
    }

    /** The same for a step that failed. */
    method MarkFailed(id: string)
      requires id in stepRows && In(Failing(id))
      modifies this`stepRows, this`sys
      ensures In(if HasCompensation(me.defs, me.exec, id) then Compensating(id) else Ending(Failed))
      ensures stepRows == old(stepRows) || stepRows == old(stepRows)[id := RowFailed]
      ensures reliable ==> stepRows == old(stepRows)[id := RowFailed]
    {
      hide Linked;
      hide HasCompensation;
      ghost var before := Rows();
      var ok := Statement();
      if ok {
        stepRows := stepRows[id := RowFailed];
      }
      sys := MarkFailedMove(me, sys, status, completed.Keys, id, before, ok);
      assert Rows() == if ok then before.(marks := before.marks[id := RowFailed]) else before;
    }

    /** The part of a step after its retry loop. */
    method Conclude(step: StepDef, attempts: Attempts, ctx: EvalContext, ghost rest: seq<string>)
        returns (r: StepOutcome)
      requires step.id in stepRows && In(AfterTry(attempts, step.id, rest)) && IsMine(step.id, StepOf(step))
      modifies this`stepRows, this`calls, this`sys
      ensures if r.Done? then Finishing(step.id, rest) else In(Ending(Failed))
      ensures match attempts
              case Success(result) => r == Done(StepResult(step.id, StepSucceeded, Some(Outputs(result))))
              case NeverRun => r == Done(StepResult(step.id, StepSucceeded, Some(map[])))
              case _ => r == StepError
      ensures var marked := old(stepRows)[step.id := if r.Done? then RowSucceeded else RowFailed];
              && (stepRows == marked || stepRows == old(stepRows))
              && (reliable ==> stepRows == if attempts.DeadlinePassed? then old(stepRows) else marked)
      ensures calls == old(calls) + if attempts.Failure? && step.compensation.Some? then
                                      CompensationCalls(world, step, step.compensation.value, ctx) else []
    {
      hide CompensationCalls;
      hide IsMine;
      hide HasCompensation;
      hide In;
      hide Finishing;
      StepIsMine(step);
      assert calls + [] == calls;
      if attempts.DeadlinePassed? {
        return StepError;
      }
      if attempts.Failure? {
        MarkFailed(step.id);
        if step.compensation.Some? {
          RunCompensation(step, step.compensation.value, ctx);
        }
        return StepError;
      }
      MarkSucceeded(step.id, rest);
      var outputs := if attempts.Success? then Outputs(attempts.result) else map[];
      return Done(StepResult(step.id, StepSucceeded, Some(outputs)));
    }

    /** The part of a step after its row was inserted. */
    method RunRow(step: StepDef, command: string, ctx: EvalContext, ghost rest: seq<string>) returns (r: StepOutcome)
      requires step.id in stepRows && stepRows[step.id] == RowRunning
      requires In(Attempting(step.id, rest, 0)) && IsMine(step.id, StepOf(step))
      modifies this`stepRows, this`calls, this`sys
      ensures if r.Done? then Finishing(step.id, rest) else In(Ending(Failed))
      ensures reliable ==> r == RunStep(world, step, command, ctx)
      ensures r.Done? ==> r.result.status.StepSucceeded?
      ensures reliable ==> stepRows == old(stepRows)[step.id := MarkOf(world, step, command, ctx)]
      ensures || stepRows == old(stepRows)
              || stepRows == old(stepRows)[step.id := if r.Done? then RowSucceeded else RowFailed]
      ensures var req := RequestOf(world.lib, step, command, ctx);
              var all := if world.hasRunner(step.runner) then RunCalls(world, step, req, ctx) else [];
              old(calls) <= calls <= old(calls) + all && (reliable ==> calls == old(calls) + all)
    {
      hide RequestOf;
      hide CallsFrom;
      hide TryFrom;
      hide Repeat;
      hide CompensationCalls;
      hide RunCalls;
      hide IsMine;
      hide Limit;
      hide HasCompensation;
      hide In;
      hide Finishing;
      StepIsMine(step);
      RequestNamesItsStep(world.lib, step, command, ctx);
      assert stepRows == stepRows[step.id := RowRunning];
      if !world.hasRunner(step.runner) {
        Abandon(step.id, rest, 0);
        return StepError;
      }
      var req := RequestOf(world.lib, step, command, ctx);
      var attempts, n, _ := RunAttempts(step, req, step.id, rest);
      CallsSoFar(world, step, req, ctx, old(calls), n, attempts);
      r := Conclude(step, attempts, ctx, rest);
    }

    /** The insert of the row of a step, always with attempt 1: refused when it is there already. */
    method InsertRow(id: string, ghost rest: seq<string>) returns (ok: bool)
      requires In(Inserting(id, rest))
      modifies this`stepRows, this`sys
      ensures ok ==> id !in old(stepRows) && stepRows == old(stepRows)[id := RowRunning]
      ensures !ok ==> stepRows == old(stepRows) && (reliable ==> id in stepRows)
      ensures In(if ok then Attempting(id, rest, 0) else Ending(Failed))
    {
      hide Linked;
      ghost var before := Rows();
      ok := Statement();
      sys := InsertMove(me, sys, status, completed.Keys, id, rest, before, ok);
      ok := ok && id !in stepRows;
      if ok {
        stepRows := stepRows[id := RowRunning];
        assert Rows() == before.(marks := before.marks[id := RowRunning]);
      }
    }

    method ExecuteStepNode(step: StepDef, ctx: EvalContext, ghost rest: seq<string>) returns (r: StepOutcome)
      requires In(Todo([step.id] + rest)) && IsMine(step.id, StepOf(step)) && Suited()
      requires ctx == Context(world, steps)
      modifies this`stepRows, this`calls, this`sys
      ensures if r.Done? then Finishing(step.id, rest) else In(Ending(Failed))
      ensures reliable ==> r == ExecuteStep(world, step, step.id in old(stepRows), ctx)
      ensures r.Done? ==>
                stepRows.Keys
                == if r.result.status.StepSucceeded? then old(stepRows).Keys + {step.id} else old(stepRows).Keys
      ensures r.Done? && r.result.status.StepSucceeded? ==> step.id !in old(stepRows)
      ensures old(stepRows).Keys <= stepRows.Keys <= old(stepRows).Keys + {step.id}
      ensures forall id :: id in old(stepRows) ==> stepRows[id] == old(stepRows)[id]
      ensures reliable && step.id in stepRows && step.id !in old(stepRows) ==>
                && EvaluateString(world.lib, step.command, ctx).Ok?
                && stepRows[step.id] == MarkOf(world, step, EvaluateString(world.lib, step.command, ctx).value, ctx)
      ensures var all := StepCalls(world, step, step.id in old(stepRows), ctx);
              old(calls) <= calls <= old(calls) + all && (reliable ==> calls == old(calls) + all)
    {
      hide In;
      hide Finishing;
      hide Suits;
      hide NodesOf;
      Consider(step.id, StepOf(step), rest);
      var condition := Evaluate(step.when_, ctx);
      if condition.ConditionError? {
        return StepError;
      }
      if condition.Skip? {
        return Done(StepResult(step.id, StepSkipped, None));
      }
      var command := EvaluateStringLoop(world.lib, step.command, ctx);
      if command.Err? {
        return StepError;
      }
      var inserted := InsertRow(step.id, rest);
      if !inserted {
        return StepError;
      }
      r := RunRow(step, command.value, ctx, rest);
    }

    method Evaluate(when_: string, ctx: EvalContext) returns (c: Condition)
      ensures c == EvaluateCondition(world.lib, when_, ctx)
    {
      if when_ != "" {
        var text := EvaluateStringLoop(world.lib, when_, ctx);
        if text.Err? {
          return ConditionError;
        }
        if text.value == "false" || text.value == "" {
          return Skip;
        }
      }
      return Proceed;
    }

    /** Asks for an approval and waits for the decision, unless the condition of the approval says it is not needed. */
    method HandleApproval(approval: ApprovalDef, ctx: EvalContext, ghost id: string, ghost rest: seq<string>)
        returns (r: Result<bool>)
      requires Traced() && written != []
      requires In(Todo([id] + rest)) && IsMine(id, ApprovalOf(approval)) && Suited() && ctx == Context(world, steps)
      modifies this`status, this`rowStatus, this`startedAt, this`finishedAt, this`written, this`refusals,
               this`approvalRequests, this`clock, this`sys
      ensures Traced() && written != []
      ensures match r
              case Err => IsOver()
              case Ok(approved) => if approved then Finishing(id, rest) else In(Ending(Cancelled))
      ensures reliable && old(status) == Running ==> refusals == old(refusals)
      ensures reliable && old(status) == Running ==>
                match EvaluateCondition(world.lib, approval.when_, ctx)
                case ConditionError => r.Err? && status == Running
                case Skip => r == Ok(true) && status == Running && approvalRequests == old(approvalRequests)
                case Proceed =>
                  && r == Ok(world.approves(approval.id))
                  && approvalRequests == old(approvalRequests) + [approval.id]
                  && status == if world.approves(approval.id) then Running else WaitingApproval
    {
      hide EvaluateCondition;
      hide InLanguage;
      hide In;
      hide Finishing;
      hide IsOver;
      hide NodesOf;
      hide Suits;
      Consider(id, ApprovalOf(approval), rest);
      var condition := Evaluate(approval.when_, ctx);
      if condition.ConditionError? {
        Crash(Gone);
        return Err;
      }
      if condition.Skip? {
        return Ok(true);
      }
      r := Wait(approval, id, rest);
    }

    /** The part of an approval after its condition: the request, and the wait for the decision. */
    method Wait(approval: ApprovalDef, ghost id: string, ghost rest: seq<string>) returns (r: Result<bool>)
      requires Traced() && written != [] && In(Asking(id, rest))
      modifies this`status, this`rowStatus, this`startedAt, this`finishedAt, this`written, this`refusals,
               this`approvalRequests, this`clock, this`sys
      ensures Traced() && written != []
      ensures match r
              case Err => IsOver()
              case Ok(approved) => if approved then Finishing(id, rest) else In(Ending(Cancelled))
      ensures reliable && old(status) == Running ==>
                && refusals == old(refusals) && r == Ok(world.approves(approval.id))
                && approvalRequests == old(approvalRequests) + [approval.id]
                && status == if world.approves(approval.id) then Running else WaitingApproval
    {
      hide InLanguage;
      hide In;
      hide Finishing;
      hide IsOver;
      var inserted, request := Ask(approval, id, rest);
      if !inserted {
        return Err;
      }
      Announce(id, rest, request);
      var answered := Statement();
      if !answered {
        Crash(Waiting(id, rest, request));
        return Err;
      }
      Decided(id, rest, request, world.approves(approval.id));
      if !world.approves(approval.id) {
        return Ok(false);
      }
      GoOn(id, rest);
      return Ok(true);
    }

    /** The insert of the request. */
    method Ask(approval: ApprovalDef, ghost id: string, ghost rest: seq<string>)
        returns (ok: bool, ghost request: ApprovalId)
      requires In(Asking(id, rest))
      modifies this`approvalRequests, this`sys
      ensures approvalRequests == if ok then old(approvalRequests) + [approval.id] else old(approvalRequests)
      ensures if ok then In(Announcing(id, rest, request)) && IsPending(sys, request) else IsOver()
      ensures reliable ==> ok
    {
      hide Linked;
      ok := Statement();
      sys, request := AskMove(me, sys, status, completed.Keys, id, rest, Rows(), ok);
      if ok {
        approvalRequests := approvalRequests + [approval.id];
      } else {
        GoneIsOver(me, sys, status, completed.Keys, Rows());
      }
    }

    /** Somebody has decided. */
    ghost method Decided(id: string, rest: seq<string>, request: ApprovalId, approved: bool)
      requires In(Waiting(id, rest, request)) && IsPending(sys, request)
      modifies this`sys
      ensures In(if approved then Granted(id, rest) else Ending(Cancelled))
    {
      hide Linked;
      sys := DecideMove(me, sys, status, completed.Keys, id, rest, request, Rows(), approved);
    }

    method Announce(ghost id: string, ghost rest: seq<string>, ghost request: ApprovalId)
      requires Traced() && written != [] && In(Announcing(id, rest, request)) && IsPending(sys, request)
      modifies this`status, this`rowStatus, this`startedAt, this`finishedAt, this`written, this`refusals,
               this`clock, this`sys
      ensures Traced() && written != [] && In(Waiting(id, rest, request)) && IsPending(sys, request)
      ensures reliable && old(status) == Running ==> status == WaitingApproval && refusals == old(refusals)
    {
      hide InLanguage;
      hide Linked;
      ghost var was, before := status, Rows();
      var announced := TransitionExecution(WaitingApproval, completed.Keys, Announcing(id, rest, request));
      sys := AnnounceMove(me, sys, was, completed.Keys, id, rest, request, before.(now := clock), announced);
    }

    method GoOn(ghost id: string, ghost rest: seq<string>)
      requires Traced() && written != [] && In(Granted(id, rest))
      modifies this`status, this`rowStatus, this`startedAt, this`finishedAt, this`written, this`refusals,
               this`clock, this`sys
      ensures Traced() && written != [] && Finishing(id, rest)
      ensures reliable && old(status) == WaitingApproval ==> status == Running && refusals == old(refusals)
    {
      hide InLanguage;
      hide Linked;
      ghost var was, before := status, Rows();
      var running := TransitionExecution(Running, completed.Keys, Granted(id, rest));
      sys := GoOnMove(me, sys, was, completed.Keys, id, rest, before.(now := clock), running);
    }

    method EndWith(to: Status)
      requires Traced() && written != [] && IsTerminalStatus(to) && In(Ending(to))
      modifies this`status, this`rowStatus, this`startedAt, this`finishedAt, this`written, this`refusals,
               this`clock, this`sys
      ensures Traced() && written != [] && IsOver()
      ensures reliable && ValidTransition(old(status), to) ==> status == rowStatus == to && refusals == old(refusals)
    {
      hide Linked;
      ghost var was, before := status, Rows();
      var ended := TransitionExecution(to, completed.Keys, Ending(to));
      sys := EndMove(me, sys, was, completed.Keys, to, before.(now := clock), ended);
    }

    /** The result of a finished node is kept. */
    method Keep(id: string, result: StepResult, ghost rest: seq<string>)
      requires Finishing(id, rest)
      modifies this`completed
      ensures completed == old(completed)[id := result] && In(Saving(rest))
    {
      hide Linked;
      completed := completed[id := result];
      assert completed.Keys == old(completed.Keys) + {id};
    }

    /** The step case of the node loop. */
    method RunStepNode(step: StepDef, id: string, ghost rest: seq<string>) returns (r: Option<ExecuteResult>)
      requires Traced() && written != []
      requires In(Todo([id] + rest)) && IsMine(id, StepOf(step)) && Suited()
      modifies this`stepRows, this`calls, this`completed, this`steps, this`status, this`rowStatus, this`startedAt,
               this`finishedAt, this`written, this`refusals, this`clock, this`sys
      ensures Traced() && written != []
      ensures if r.None? then In(Saving(rest)) else IsOver()
      ensures r == None || r == Some(Ended)
      ensures r.None? ==> id in completed && completed.Keys == old(completed.Keys) + {id} && status == old(status)
      ensures reliable && old(status) == Running ==> refusals == old(refusals)
      ensures reliable && old(status) == Running ==>
                match ProcessNode(world, StepOf(step), old(Memory()), id)
                case Next(st) => r == None && Memory() == st
                case Stop(reason) => r.Some? && StopMatches(reason, r.value, status)
    {
      hide Traced;
      hide ExecuteStep;
      hide StepCalls;
      hide EvaluateCondition;
      hide EvaluateString;
      hide MarkOf;
      hide In;
      hide Finishing;
      hide IsOver;
      hide NodesOf;
      hide Suits;
      ghost var st := Memory();
      NodesAreKeyed(me.defs.of(me.exec));
      var outcome := ExecuteStepNode(step, Context(world, steps), rest);
      if outcome.StepError? {
        EndWith(Failed);
        return Some(Ended);
      }
      Keep(id, outcome.result, rest);
      steps := steps[id := OutputsOf(outcome.result)];
      assert Memory() == CompleteNode(st, StepOf(step), id, outcome.result);
      return None;
    }

    /** The approval case of the node loop. */
    method RunApprovalNode(approval: ApprovalDef, id: string, ghost rest: seq<string>)
        returns (r: Option<ExecuteResult>)
      requires Traced() && written != []
      requires In(Todo([id] + rest)) && IsMine(id, ApprovalOf(approval)) && Suited()
      modifies this`approvalRequests, this`completed, this`status, this`rowStatus, this`startedAt, this`finishedAt,
               this`written, this`refusals, this`clock, this`sys
      ensures Traced() && written != []
      ensures if r.None? then In(Saving(rest)) else IsOver()
      ensures r.None? || r.value.Ended? || r.value.ApprovalFailed?
      ensures r.None? ==> id in completed && completed.Keys == old(completed.Keys) + {id}
      ensures reliable && old(status) == Running ==> refusals == old(refusals)
      ensures reliable && old(status) == Running ==>
                match ProcessNode(world, ApprovalOf(approval), old(Memory()), id)
                case Next(st) => r == None && Memory() == st && status == Running
                case Stop(reason) => r.Some? && StopMatches(reason, r.value, status)
    {
      hide InLanguage;
      hide EvaluateCondition;
      hide EvaluateString;
      hide In;
      hide Finishing;
      hide IsOver;
      hide NodesOf;
      hide Suits;
      ghost var st := Memory();
      var approved := HandleApproval(approval, Context(world, steps), id, rest);
      if approved.Err? {
        return Some(ApprovalFailed);
      }
      if !approved.value {
        EndWith(Cancelled);
        return Some(Ended);
      }
      Keep(id, StepResult(id, StepSucceeded, None), rest);
      assert Memory() == CompleteNode(st, ApprovalOf(approval), id, StepResult(id, StepSucceeded, None));
      return None;
    }

    /** Processes one ready node: its result is kept and saved, or the call has to stop. */
    method RunNode(node: NodeDef, id: string, ghost rest: seq<string>) returns (r: Option<ExecuteResult>)
      requires Traced() && written != []
      requires In(Todo([id] + rest)) && IsMine(id, node) && Suited()
      modifies this
      ensures Traced() && written != []
      ensures if r.None? then In(Todo(rest)) else IsOver()
      ensures r.None? || r.value.Ended? || r.value.ApprovalFailed?
      ensures r.None? ==> id in completed && completed.Keys == old(completed.Keys) + {id}
      ensures reliable && old(status) == Running ==> refusals == old(refusals)
      ensures reliable && old(status) == Running ==>
                match ProcessNode(world, node, old(Memory()), id)
                case Next(st) =>
                  r == None && Memory() == st && status == Running && checkpoint == Some(EncodeAll(completed))
                case Stop(reason) => r.Some? && StopMatches(reason, r.value, status)
    {
      hide ProcessNode;
      hide In;
      hide IsOver;
      hide NodesOf;
      hide Suits;
      match node {
        case StepOf(step) => r := RunStepNode(step, id, rest);
        case ApprovalOf(approval) => r := RunApprovalNode(approval, id, rest);
      }
      if r.None? {
        SaveCheckpoint(rest);
      }
    }

    /** The last node of this order stopped the run, and the call ended as it should then. */
    ghost predicate CutShort(g: Graph, nodes: map<string, NodeDef>, st0: RunState, order: seq<string>, r: ExecuteResult)
      reads this`status
    {
      exists reason :: StoppedBy(world, g, nodes, st0, order, reason) && StopMatches(reason, r, status)
    }

    /** One turn of the node loop, for a node that is ready. */
    method RunReadyNode(id: string, node: NodeDef, ghost nodes: map<string, NodeDef>, ghost g: Graph,
                        ghost st0: RunState, ghost order: seq<string>, ghost rest: seq<string>)
      returns (r: Option<ExecuteResult>)
      requires Traced() && written != [] && id in nodes && nodes[id] == node
      requires In(Todo([id] + rest)) && nodes == NodesOf(me.defs.of(me.exec)) && Suited()
      requires id in g.ids && IsReady(g, completed.Keys, id)
      requires reliable ==> GoneThrough(world, g, nodes, st0, order, Memory()) && status == Running
      modifies this
      ensures Traced() && written != []
      ensures if r.None? then In(Todo(rest)) else IsOver()
      ensures r.None? || r.value.Ended? || r.value.ApprovalFailed?
      ensures r.None? ==> completed.Keys == old(completed.Keys) + {id}
      ensures reliable ==> refusals == old(refusals)
      ensures reliable && r.None? ==>
                && GoneThrough(world, g, nodes, st0, order + [id], Memory()) && status == Running
                && checkpoint == Some(EncodeAll(completed))
      ensures reliable && r.Some? ==> CutShort(g, nodes, st0, order + [id], r.value)
    {
      hide InLanguage;
      hide EncodeAll;
      hide GoneThrough;
      hide StoppedBy;
      hide ProcessNode;
      hide StopMatches;
      hide In;
      hide IsOver;
      hide NodesOf;
      hide Suits;
      if reliable {
        OneMore(world, g, nodes, st0, order, Memory(), id);
      }
      r := RunNode(node, id, rest);
    }

    method RunWave(ready: seq<string>, nodes: map<string, NodeDef>, ghost g: Graph, ghost st0: RunState,
                   ghost before: seq<string>)
      returns (r: Option<ExecuteResult>, ghost partial: seq<string>)
      requires Traced() && written != []
      requires nodes.Keys == g.ids && NoDuplicates(ready) && Elements(ready) == Wave(g, completed.Keys)
      requires reliable ==> GoneThrough(world, g, nodes, st0, before, Memory()) && status == Running
      requires In(Todo(ready)) && nodes == NodesOf(me.defs.of(me.exec)) && Suited()
      modifies this
      ensures Traced() && written != []
      ensures if r.None? then In(Todo([])) else IsOver()
      ensures r.None? || r.value.Ended? || r.value.ApprovalFailed?
      ensures r.None? ==> completed.Keys == old(completed.Keys) + Elements(ready)
      ensures reliable && r.None? ==>
                GoneThrough(world, g, nodes, st0, before + ready, Memory()) && status == Running
      ensures reliable && r.None? && ready != [] ==> checkpoint == Some(EncodeAll(completed))
      ensures reliable ==> refusals == old(refusals)
      ensures partial <= ready
      ensures reliable && r.Some? ==> partial != [] && CutShort(g, nodes, st0, before + partial, r.value)
    {
      hide InLanguage;
      hide Wave;
      hide NoDuplicates;
      hide EncodeAll;
      hide GoneThrough;
      hide CutShort;
      hide Traced;
      hide In;
      hide IsOver;
      hide NodesOf;
      hide Suits;
      hide Elements;
      partial := [];
      Ends(before, ready);
      for i := 0 to |ready|
        invariant Traced() && written != []
        invariant completed.Keys == old(completed.Keys) + Elements(ready[..i])
        invariant partial == ready[..i]
        invariant reliable ==> GoneThrough(world, g, nodes, st0, before + partial, Memory()) && status == Running
        invariant reliable ==> refusals == old(refusals)
        invariant reliable && i > 0 ==> checkpoint == Some(EncodeAll(completed))
        invariant In(Todo(ready[i..]))
      {
        var id := ready[i];
        StillReady(g, old(completed.Keys), ready, i);
        TakeNext(before, ready, i);
        r := RunReadyNode(id, nodes[id], nodes, g, st0, before + partial, ready[i + 1..]);
        partial := partial + [id];
        if r.Some? {
          return;
        }
      }
      return None, partial;
    }

    /** One round of the main loop: the wave of the nodes that are ready now. */
    method RunRound(ready: seq<string>, nodes: map<string, NodeDef>, ghost g: Graph, ghost st0: RunState,
                    ghost waves: seq<seq<string>>)
        returns (r: Option<ExecuteResult>, ghost partial: seq<string>)
      requires Traced() && written != []
      requires nodes.Keys == g.ids && ready != [] && NoDuplicates(ready) && Elements(ready) == Wave(g, completed.Keys)
      requires reliable ==> InWaves(world, g, nodes, st0, waves, Memory()) && status == Running
      requires In(Todo([])) && g == GraphOf(me.defs.of(me.exec)) && nodes == NodesOf(me.defs.of(me.exec)) && Suited()
      modifies this
      ensures Traced() && written != []
      ensures if r.None? then In(Todo([])) else IsOver()
      ensures r.None? || r.value.Ended? || r.value.ApprovalFailed?
      ensures r.None? ==> g.ids - completed.Keys < g.ids - old(completed.Keys)
      ensures reliable && r.None? ==> InWaves(world, g, nodes, st0, waves + [ready], Memory()) && status == Running
      ensures reliable && r.None? ==> checkpoint == Some(EncodeAll(completed))
      ensures reliable ==> refusals == old(refusals)
      ensures reliable && r.Some? ==> RanFrom(g, nodes, st0, r.value, waves, partial)
    {
      hide GoneThrough;
      hide CutShort;
      hide AreWaves;
      hide InLanguage;
      hide BeginsNextWave;
      hide In;
      hide IsOver;
      hide NodesOf;
      hide GraphOf;
      hide Suits;
      hide Traced;
      assert ready[0] in Elements(ready);
      if reliable {
        WavesSoFar(world, g, nodes, st0, waves, Memory());
      }
      ghost var st := Memory();
      Choose(ready);
      r, partial := RunWave(ready, nodes, g, st0, Flatten(waves));
      if r.Some? && reliable {
        BeginsWave(world, g, nodes, st0, waves, st, ready, partial);
      }
      if r.None? && reliable {
        WaveRan(world, g, nodes, st0, waves, st, ready, Memory());
      }
    }

    /** The end of the main loop, when no node is ready. */
    method EndOfWaves(ready: seq<string>, nodes: map<string, NodeDef>, ghost g: Graph, ghost st0: RunState,
                      ghost waves: seq<seq<string>>)
      requires Traced() && written != [] && |ready| == 0 && Elements(ready) == Wave(g, completed.Keys)
      requires reliable ==> InWaves(world, g, nodes, st0, waves, Memory()) && status == Running
      requires reliable && waves != [] ==> checkpoint == Some(EncodeAll(completed))
      requires In(Todo([])) && g == GraphOf(me.defs.of(me.exec)) && nodes == NodesOf(me.defs.of(me.exec))
      modifies this`status, this`rowStatus, this`startedAt, this`finishedAt, this`written, this`refusals,
               this`clock, this`sys
      ensures Traced() && written != [] && IsOver()
      ensures reliable ==> refusals == old(refusals) && RanFrom(g, nodes, st0, Ended, waves, [])
    {
      hide InWaves;
      hide InLanguage;
      hide EncodeAll;
      hide Traced;
      hide Elements;
      hide Wave;
      hide BeginsNextWave;
      hide CutShort;
      hide In;
      hide IsOver;
      hide NodesOf;
      hide GraphOf;
      NothingListed(ready);
      Choose(ready);
      EndWith(if |completed| == |nodes| then Succeeded else Failed);
    }

    /** The loop over the waves. */
    method RunAllWaves(dag: DAG, ghost g: Graph, nodes: map<string, NodeDef>)
        returns (r: ExecuteResult, ghost waves: seq<seq<string>>, ghost partial: seq<string>)
      requires Traced() && written != [] && status == Running
      requires dag.nodes == nodes && dag.AsGraph() == g && nodes.Keys == g.ids
      requires In(Todo([])) && g == GraphOf(me.defs.of(me.exec)) && nodes == NodesOf(me.defs.of(me.exec)) && Suited()
      modifies this
      ensures Traced() && written != [] && IsOver()
      ensures r.Ended? || r.ApprovalFailed? || r.Interrupted?
      ensures reliable ==> refusals == old(refusals)
      ensures reliable ==> RanFrom(g, nodes, old(Memory()), r, waves, partial)
    {
      hide InWaves;
      hide RanFrom;
      hide Traced;
      hide Wave;
      hide Elements;
      hide NoDuplicates;
      hide EncodeAll;
      hide DAG.AsGraph;
      hide In;
      hide IsOver;
      hide NodesOf;
      hide GraphOf;
      hide Suits;
      waves, partial := [], [];
      ghost var st0 := Memory();
      NothingYet(world, g, nodes, st0);
      while true
        invariant Traced() && written != [] && partial == []
        invariant dag.nodes == nodes && dag.AsGraph() == g
        invariant reliable ==> InWaves(world, g, nodes, st0, waves, Memory()) && status == Running
        invariant reliable ==> refusals == old(refusals)
        invariant reliable && waves != [] ==> checkpoint == Some(EncodeAll(completed))
        invariant In(Todo([]))
        decreases g.ids - completed.Keys
      {
        var alive := Statement();
        if !alive {
          Crash(Todo([]));
          return Interrupted, waves, partial;
        }
        var ready := dag.GetReadyNodes(completed.Keys);
        if |ready| == 0 {
          EndOfWaves(ready, dag.nodes, g, st0, waves);
          return Ended, waves, partial;
        }
        var stop;
        stop, partial := RunRound(ready, nodes, g, st0, waves);
        if stop.Some? {
          return stop.value, waves, partial;
        }
        waves, partial := waves + [ready], [];
      }
    }

    /** The call has loaded its execution and may take it to running; otherwise it is over. */
    ghost predicate IsLoaded()
      reads this
    {
      if ValidTransition(status, Running) then Linked(me, sys, status, SavedIn(checkpoint).Keys, Starting, Rows())
      else IsOver()
    }

    /** Reads the execution; a status that cannot become running is noticed at the first transition. */
    method Load(ghost def: WorkflowDefinition) returns (ok: bool)
      requires def == me.defs.of(me.exec) && Begun(me, sys, Rows())
      modifies this`status, this`sys
      ensures ok ==> status == rowStatus
      ensures if ok && DependenciesKnown(def) then IsLoaded() else IsOver()
      ensures reliable ==> ok
    {
      hide Linked;
      hide DependenciesKnown;
      hide ValidTransition;
      hide Over;
      ghost var rows := Rows();
      ok := Statement();
      sys := LoadMove(me, sys, rows, ok);
      if ok {
        status := rowStatus;
      }
      assert SavedIn(checkpoint).Keys == if rows.saved.Some? then rows.saved.value else {};
      assert Rows() == rows;
    }

    /** The move to running, and the results of earlier calls. */
    method Start() returns (ok: bool)
      requires Traced() && written == [] && IsLoaded()
      modifies this`status, this`rowStatus, this`startedAt, this`finishedAt, this`written, this`refusals,
               this`completed, this`steps, this`clock, this`sys
      ensures Traced()
      ensures ok ==> ValidTransition(old(status), Running) && status == Running && written != []
      ensures ok ==> In(Todo([])) && Memory() == Restored(SavedIn(checkpoint), stepRows.Keys)
      ensures !ok ==> written == [] && IsOver()
      ensures reliable && ValidTransition(old(status), Running) ==> ok && refusals == old(refusals)
    {
      hide InLanguage;
      hide Linked;
      hide ValidTransition;
      hide Restored;
      ghost var was, before := status, Rows();
      ok := TransitionExecution(Running, SavedIn(checkpoint).Keys, Starting);
      if ValidTransition(was, Running) {
        sys := BeginMove(me, sys, was, SavedIn(checkpoint).Keys, before.(now := clock), ok);
        if !ok {
          GoneIsOver(me, sys, was, SavedIn(checkpoint).Keys, Rows());
        }
      }
      if ok {
        LoadCheckpoint();
      }
    }

    /** The part of a call after its graph was built. */
    method RunGraph(dag: DAG, ghost g: Graph, ghost nodes: map<string, NodeDef>)
      returns (r: ExecuteResult, ghost waves: seq<seq<string>>, ghost partial: seq<string>)
      requires Traced() && written == [] && status == rowStatus
      requires dag.nodes == nodes && dag.AsGraph() == g && nodes.Keys == g.ids
      requires g == GraphOf(me.defs.of(me.exec)) && nodes == NodesOf(me.defs.of(me.exec)) && Suited()
      requires IsLoaded()
      modifies this
      ensures IsOver()
      ensures Traced() && !r.LoadFailed? && !r.BuildFailed?
      ensures r.Refused? ==>
                written == [] && stepRows == old(stepRows) && checkpoint == old(checkpoint) && calls == old(calls)
      ensures reliable ==> (r.Refused? <==> !ValidTransition(old(rowStatus), Running))
      ensures reliable && !r.Refused? ==> refusals == old(refusals)
      ensures reliable && !r.Refused? ==>
                RanFrom(g, nodes, Restored(SavedIn(old(checkpoint)), old(stepRows).Keys), r, waves, partial)
    {
      hide RanFrom;
      hide Restored;
      hide ValidTransition;
      hide InLanguage;
      hide In;
      hide IsOver;
      hide IsLoaded;
      hide NodesOf;
      hide GraphOf;
      hide Suits;
      hide SavedIn;
      waves, partial := [], [];
      var started := Start();
      if !started {
        return Refused, waves, partial;
      }
      r, waves, partial := RunAllWaves(dag, g, dag.nodes);
    }

    /**
     * One call. Whatever fails, what it writes is in the language and begins with the move to running.
     * When nothing fails, no later transition is refused, and the call takes the ready nodes wave by wave,
     * in some order, until none is left or one stops it. Either way it is a run of the shared system, which then holds
     * what the rows of the call hold.
     */
    method Execute(def: WorkflowDefinition)
      returns (r: ExecuteResult, ghost waves: seq<seq<string>>, ghost partial: seq<string>)
      requires written == []
      requires def == me.defs.of(me.exec) && Suited() && Begun(me, sys, Rows())
      modifies this
      ensures IsOver()
      ensures Traced()
      ensures r.LoadFailed? ==> !reliable
      ensures !r.LoadFailed? ==> (r.BuildFailed? <==> !DependenciesKnown(def))
      ensures r.LoadFailed? || r.BuildFailed? || r.Refused? ==>
                written == [] && stepRows == old(stepRows) && checkpoint == old(checkpoint) && calls == old(calls)
      ensures reliable ==> (r.Refused? <==> DependenciesKnown(def) && !ValidTransition(old(rowStatus), Running))
      ensures reliable && !r.BuildFailed? && !r.Refused? ==>
                && refusals == old(refusals)
                && RanFrom(GraphOf(def), NodesOf(def), Restored(SavedIn(old(checkpoint)), old(stepRows).Keys), r, waves,
                           partial)
    {
      hide RanFrom;
      hide Restored;
      hide GraphOf;
      hide NodesOf;
      hide DependenciesKnown;
      hide ValidTransition;
      hide DAG.Valid;
      hide IsOver;
      hide IsLoaded;
      hide Begun;
      hide Suits;
      hide SavedIn;
      GraphIsOfNodes(def);
      waves, partial := [], [];
      var loaded := Load(def);
      if !loaded {
        return LoadFailed, waves, partial;
      }
      var dag := BuildDAG(def);
      if dag == null {
        return BuildFailed, waves, partial;
      }
      r, waves, partial := RunGraph(dag, GraphOf(def), NodesOf(def));
    }

    /** What a reliable call that got past its first transition has done. */
    ghost predicate RanFrom(g: Graph, nodes: map<string, NodeDef>, st0: RunState, r: ExecuteResult,
                            waves: seq<seq<string>>, partial: seq<string>)
      reads this
    {
      if partial == [] then
        && InWaves(world, g, nodes, st0, waves, Memory())
        && Wave(g, completed.Keys) == {}
        && r.Ended? && rowStatus == status == (if |completed| == |nodes| then Succeeded else Failed)
        && (waves != [] ==> checkpoint == Some(EncodeAll(completed)))
      else
        && BeginsNextWave(world, g, nodes, st0, waves, partial)
        && CutShort(g, nodes, st0, Flatten(waves) + partial, r)
    }
  }

  /** The nodes whose results are in a checkpoint column. */
  function KeysIn(checkpoint: Option<Completed>): Option<set<string>> {
    if checkpoint.Some? then Some(checkpoint.value.Keys) else None
  }

  /** The results in a checkpoint column, none when it was never written. */
  function SavedIn(checkpoint: Option<Completed>): Completed {
    if checkpoint.Some? then checkpoint.value else map[]
  }

  lemma RequestNamesItsStep(lib: Library, step: StepDef, command: string, ctx: EvalContext)
    ensures RequestOf(lib, step, command, ctx).stepId == step.id
  {
    hide EvaluateOrEmpty;
  }

  lemma GraphIsOfNodes(def: WorkflowDefinition)
    ensures GraphOf(def).ids == NodesOf(def).Keys
  {
    hide NodesOf;
  }

  lemma Ends(before: seq<string>, ready: seq<string>)
    ensures ready[..0] == [] && ready[0..] == ready && ready[..|ready|] == ready && ready[|ready|..] == []
    ensures Elements(ready[..0]) == {} && before + [] == before
  {
  }

  lemma TakeNext(before: seq<string>, ready: seq<string>, i: nat)
    requires i < |ready|
    ensures ready[..i + 1] == ready[..i] + [ready[i]] && ready[i..] == [ready[i]] + ready[i + 1..]
    ensures before + (ready[..i] + [ready[i]]) == before + ready[..i] + [ready[i]]
    ensures Elements(ready[..i + 1]) == Elements(ready[..i]) + {ready[i]}
  {
    TakeOne(ready, i, ready[i]);
  }

  lemma NothingListed(ready: seq<string>)
    requires |ready| == 0
    ensures Elements(ready) == {}
  {
  }

  /** A node that was ready when its wave began still is when its turn comes. */
  lemma {:induction false} StillReady(g: Graph, done: set<string>, ready: seq<string>, i: nat)
    requires NoDuplicates(ready) && Elements(ready) == Wave(g, done) && i < |ready|
    ensures ready[i] in g.ids && IsReady(g, done + Elements(ready[..i]), ready[i])
  {
    assert ready[i] in Elements(ready);
  }
}
