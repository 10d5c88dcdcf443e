/** What an Execute call computes and what holds in every run of the shared system, put together. */
module CallRuns {
  import opened Graph
  import opened Dag
  import opened StateMachine
  import opened System
  import opened Safety
  import opened Reachability
  import opened CallMoves
  import opened Executor

  /** A call that was acquired in a run and is over has gone on with it, and the system holds what its rows hold. */
  lemma {:induction false} CallGoesOn(x: Executor, actions: seq<Action>) returns (more: seq<Action>)
    requires IsRun(x.me.defs, actions) && x.me.start == After(x.me.defs, actions) && x.IsOver()
    ensures IsRun(x.me.defs, actions + more) && After(x.me.defs, actions + more) == x.sys
    ensures Holds(x.sys, x.me.proc, x.me.exec, x.Rows())
  {
    hide Holds;
    hide Executor.Rows;
    hide Apply;
    hide Enabled;
    more :| CanRun(x.me.defs, x.me.start, more) && ApplyAll(x.me.defs, x.me.start, more) == x.sys;
    Continuations(x.me.defs, actions, more);
  }

  /**
   * So whatever failed on the way, the rows it leaves have times that match their status and a checkpoint that is
   * closed under dependencies.
   */
  lemma {:induction false} CallLeavesSoundRows(x: Executor, actions: seq<Action>)
    requires IsRun(x.me.defs, actions) && x.me.start == After(x.me.defs, actions) && x.IsOver()
    ensures x.finishedAt.Some? <==> IsTerminalStatus(x.rowStatus)
    ensures (x.rowStatus == Running || x.rowStatus == WaitingApproval || x.rowStatus == Succeeded
             || x.rowStatus == Failed) ==> x.startedAt.Some?
    ensures x.checkpoint.Some? ==> DependencyClosed(GraphOf(x.me.defs.of(x.me.exec)), x.checkpoint.value.Keys)
  {
    hide CallsNamed;
    hide GraphOf;
    hide DependencyClosed;
    var more := CallGoesOn(x, actions);
    TimesAlwaysMatch(x.me.defs, actions + more, x.me.exec);
    CheckpointsAreSound(x.me.defs, actions + more);
  }

  /** And no step runs more often than its policy allows, nor at all when another call has run it. */
  lemma {:induction false} CallRunsStepsOnce(x: Executor, actions: seq<Action>, id: string, q: ProcId)
    requires IsRun(x.me.defs, actions) && x.me.start == After(x.me.defs, actions) && x.IsOver()
    requires !IsCompensation(id)
    ensures Names(x.calls)[id] <= if Limit(x.me.defs, x.me.exec, id) > 0 then Limit(x.me.defs, x.me.exec, id) else 0
    ensures q != x.me.proc && RunnerCall(x.me.exec, id, q) in x.sys.calls ==> id !in Names(x.calls)
  {
    hide IsCompensation;
    hide Limit;
    hide Names;
    var more := CallGoesOn(x, actions);
    RunnerAtMostOnce(x.me.defs, actions + more, x.me.exec, id, x.me.proc, q);
    assert CallsNamed(x.sys.calls, x.sys.compensations, x.me.proc, x.me.exec, id) == x.Rows().made[id];
  }
}
