/** What holds in every state the system can reach, whatever interleaving of calls, crashes and takeovers led there. */
module Safety {
  import opened Prelude
  import opened Graph
  import opened Dag
  import opened StateMachine
  import opened System
  import opened SystemInvariant
  import opened SystemMoves

  // ----- actions other than the moves of a call -----

  /** An action that leaves the calls and their rows of steps alone. */
  lemma OtherTablesKeep(defs: Defs, s: System, s': System)
    requires Inv(defs, s) && Grows(s, s') && s'.incs == s.incs && s'.stepRows == s.stepRows
    requires s'.finished == s.finished && s'.started == s.started && s'.calls == s.calls
    requires s'.compensations == s.compensations
    requires forall e {:trigger RowOk(defs, s', e)} :: RowOk(defs, s', e)
    ensures Inv(defs, s')
  {
    hide IncOk;
    hide RowOk;
    hide Grows;
    SharedStays(defs, s, s');
    forall q | q in s'.incs
      ensures IncOk(defs, s', q, s'.incs[q])
    {
      IncStays(defs, s, s', q, s.incs[q]);
    }
  }

  /** Rows may be replaced by others that keep starts, checkpoints and matching times. */
  lemma RowsReplaced(defs: Defs, s: System, rows: map<ExecId, Row>)
    requires Inv(defs, s)
    requires forall e :: e in s.rows ==> e in rows && KeepsRow(s.rows[e], rows[e])
    requires forall e :: e in rows && e !in s.rows ==> TimesMatch(rows[e]) && rows[e].checkpoint.None?
    ensures Inv(defs, s.(rows := rows))
  {
    hide IncOk;
    hide Sound;
    hide TimesMatch;
    var s' := s.(rows := rows);
    forall e
      ensures RowOk(defs, s', e)
    {
      assert RowOk(defs, s, e);
      if e in s.rows && s.rows[e].checkpoint.Some? {
        SoundStays(defs, s, s', e, s.rows[e].checkpoint.value);
      }
    }
    OtherTablesKeep(defs, s, s');
  }

  predicate KeepsRow(a: Row, b: Row) {
    && b.checkpoint == a.checkpoint
    && (a.startedAt.Some? ==> b.startedAt.Some?)
    && (TimesMatch(a) ==> TimesMatch(b))
  }

  lemma RowStepKeeps(defs: Defs, s: System, a: Action)
    requires Inv(defs, s) && Enabled(defs, s, a) && (a.Insert? || a.Cancel? || a.Release?)
    ensures Inv(defs, Apply(defs, s, a))
  {
    hide Inv;
    hide Moved;
    hide CanMove;
    hide TimesMatch;
    var s' := Apply(defs, s, a);
    forall e | e in s'.rows
      ensures if e in s.rows then KeepsRow(s.rows[e], s'.rows[e])
              else s'.rows[e].checkpoint.None? && TimesMatch(s'.rows[e])
    {
      RowStep(s, a, e);
    }
    hide KeepsRow;
    RowsReplaced(defs, s, s'.rows);
    assert s' == s.(rows := s'.rows);
  }

  lemma RowStep(s: System, a: Action, e: ExecId)
    ensures e in s.rows ==>
              && KeepsRow(s.rows[e], s.rows[e]) && KeepsRow(s.rows[e], CancelRow(s.rows[e], s.now))
              && (a.Release? ==> KeepsRow(s.rows[e], ReleaseRow(s.rows[e], a.dead.node)))
    ensures a.Insert? ==> TimesMatch(Row(a.tenant, Queued, s.now, None, None, None, None))
  {
  }

  /** The clock, the heartbeats and what takeover queries found play no part in the invariant. */
  lemma NodesAreFree(defs: Defs, s: System, now: nat, nodes: map<NodeId, nat>, takers: map<ProcId, set<Dead>>)
    requires Inv(defs, s)
    ensures Inv(defs, s.(now := now, nodes := nodes, takers := takers))
  {
    hide IncOk;
    var s' := s.(now := now, nodes := nodes, takers := takers);
    assert Grows(s, s');
    forall e
      ensures RowOk(defs, s', e)
    {
      assert RowOk(defs, s, e);
      RowStays(defs, s, s', e);
    }
    OtherTablesKeep(defs, s, s');
  }

  lemma NodeStepKeeps(defs: Defs, s: System, a: Action)
    requires Inv(defs, s) && (a.Tick? || a.Register? || a.Beat? || a.Deregister? || a.Query? || a.Bury?)
    ensures Inv(defs, Apply(defs, s, a))
  {
    hide Inv;
    hide Moved;
    var s' := Apply(defs, s, a);
    NodesAreFree(defs, s, s'.now, s'.nodes, s'.takers);
    assert s' == s.(now := s'.now, nodes := s'.nodes, takers := s'.takers);
  }

  lemma DecisionGrows(s: System, a: ApprovalId, tenant: TenantId, d: Decision)
    requires a in s.approvals
    ensures Grows(s, s.(approvals := s.approvals[a := DecideRow(s.approvals[a], tenant, d)]))
  {
  }

  lemma DecideKeeps(defs: Defs, s: System, a: ApprovalId, tenant: TenantId, d: Decision)
    requires Inv(defs, s)
    ensures Inv(defs, Apply(defs, s, Decide(a, tenant, d)))
  {
    hide IncOk;
    hide Moved;
    hide RowOk;
    if a in s.approvals {
      var s' := s.(approvals := s.approvals[a := DecideRow(s.approvals[a], tenant, d)]);
      DecisionGrows(s, a, tenant, d);
      hide Grows;
      hide DecideRow;
      forall e
        ensures RowOk(defs, s', e)
      {
        RowStays(defs, s, s', e);
      }
      OtherTablesKeep(defs, s, s');
    }
  }

  lemma AcquireKeeps(defs: Defs, s: System, p: ProcId, n: NodeId, e: ExecId)
    requires Inv(defs, s) && Enabled(defs, s, Acquire(p, n, e))
    ensures Inv(defs, Apply(defs, s, Acquire(p, n, e)))
  {
    hide Inv;
    hide Moved;
    hide CanMove;
    hide TimesMatch;
    var rows := s.rows[e := s.rows[e].(node := Some(n))];
    OwnerIsFree(s.rows[e], n);
    forall x | x in s.rows
      ensures KeepsRow(s.rows[x], rows[x])
    {
      OwnerIsFree(s.rows[x], n);
    }
    hide KeepsRow;
    RowsReplaced(defs, s, rows);
    ProcessStarts(defs, s.(rows := rows), p, n, e);
  }

  lemma OwnerIsFree(row: Row, n: NodeId)
    ensures KeepsRow(row, row) && KeepsRow(row, row.(node := Some(n)))
  {
  }

  lemma ProcessStarts(defs: Defs, s: System, p: ProcId, n: NodeId, e: ExecId)
    requires Inv(defs, s) && p !in s.incs && e in s.rows
    ensures Inv(defs, s.(incs := s.incs[p := Inc(e, n, Queued, {}, Acquired)]))
  {
    hide IncOk;
    hide RowOk;
    var inc := Inc(e, n, Queued, {}, Acquired);
    var s' := s.(incs := s.incs[p := inc]);
    forall x
      ensures RowOk(defs, s', x)
    {
      assert RowOk(defs, s, x);
      RowStays(defs, s, s', x);
    }
    SharedStays(defs, s, s');
    FreshIsOk(defs, s', p, inc);
    forall q | q in s'.incs
      ensures IncOk(defs, s', q, s'.incs[q])
    {
      if q != p {
        IncStays(defs, s, s', q, s.incs[q]);
      }
    }
  }

  lemma FreshIsOk(defs: Defs, s: System, p: ProcId, inc: Inc)
    requires inc.exec in s.rows && inc.completed == {} && inc.pc.Acquired?
    ensures IncOk(defs, s, p, inc)
  {
  }

  lemma ActionKeepsInv(defs: Defs, s: System, a: Action)
    requires Inv(defs, s) && Enabled(defs, s, a)
    ensures Inv(defs, Apply(defs, s, a))
  {
    hide Inv;
    hide Moved;
    match a
    case Insert(_, _) => RowStepKeeps(defs, s, a);
    case Cancel(_, _) => RowStepKeeps(defs, s, a);
    case Release(_, _) => RowStepKeeps(defs, s, a);
    case Acquire(p, n, e) => AcquireKeeps(defs, s, p, n, e);
    case Decide(a', tenant, d) => DecideKeeps(defs, s, a', tenant, d);
    case Moves(p, m) => MoveKeepsInv(defs, s, p, m);
    case _ => NodeStepKeeps(defs, s, a);
  }

  /** The invariant holds after every run. */
  lemma {:induction false} RunsKeepInv(defs: Defs, actions: seq<Action>)
    requires IsRun(defs, actions)
    ensures Inv(defs, After(defs, actions))
    decreases |actions|
  {
    if actions == [] {
      assert Inv(defs, INITIAL);
    } else {
      hide Inv;
      RunsKeepInv(defs, actions[..|actions| - 1]);
      ActionKeepsInv(defs, After(defs, actions[..|actions| - 1]), actions[|actions| - 1]);
    }
  }

  // ----- the safety theorems -----

  /**
   * At most one Execute call ever calls the runner of a step of an execution, it does so at most as often as
   * the retry policy allows, and the compensation runs at most once, by that same call, after all attempts.
   */
  lemma {:induction false} RunnerAtMostOnce(
      defs: Defs, actions: seq<Action>, e: ExecId, id: string, p: ProcId, q: ProcId)
    requires IsRun(defs, actions)
    ensures var s := After(defs, actions);
            var mine, theirs := RunnerCall(e, id, p), RunnerCall(e, id, q);
            && (mine in s.calls && theirs in s.calls ==> p == q)
            && s.calls[mine] <= AtLeastZero(Limit(defs, e, id))
            && (mine in s.compensations && theirs in s.compensations ==> p == q)
            && s.compensations[mine] <= 1
            && (mine in s.compensations ==> s.calls[mine] == Limit(defs, e, id) > 0)
  {
    hide Limit;
    RunsKeepInv(defs, actions);
    var s := After(defs, actions);
    var mine, theirs := RunnerCall(e, id, p), RunnerCall(e, id, q);
    assert mine in s.calls ==> CallOk(defs, s, mine);
    assert theirs in s.calls ==> CallOk(defs, s, theirs);
    assert mine in s.compensations ==> CompensationOk(defs, s, mine);
    assert theirs in s.compensations ==> CompensationOk(defs, s, theirs);
  }

  function FinishedOf(s: System, e: ExecId): set<string> {
    set x | x in s.finished && x.0 == e :: x.1
  }

  lemma FinishedIsClosed(defs: Defs, s: System, e: ExecId, id: string)
    requires Inv(defs, s) && (id in FinishedOf(s, e) || (e, id) in s.started)
    ensures DependencyClosed(GraphOf(defs.of(e)), FinishedOf(s, e))
    ensures forall d :: Upstream(GraphOf(defs.of(e)), d, id) ==> (e, d) in s.finished
  {
    hide GraphOf;
    hide IncOk;
    hide RowOk;
    hide CallOk;
    var g, done := GraphOf(defs.of(e)), FinishedOf(s, e);
    forall x, dep | x in done && dep in Deps(g, x)
      ensures dep in done
    {
      assert (e, x) in s.finished && DepsFinished(defs, s, e, x);
      assert (e, dep) in s.finished;
    }
    assert DepsFinished(defs, s, e, id);
    forall dep | dep in Deps(g, id)
      ensures dep in done
    {
      assert (e, dep) in s.finished;
    }
    AllUpstreamDone(g, done, id);
  }

  /** No node is begun before everything it transitively depends on has finished, in whatever call. */
  lemma {:induction false} NothingStartsEarly(defs: Defs, actions: seq<Action>, e: ExecId, id: string)
    requires IsRun(defs, actions) && (e, id) in After(defs, actions).started
    ensures forall d :: Upstream(GraphOf(defs.of(e)), d, id) ==> (e, d) in After(defs, actions).finished
  {
    RunsKeepInv(defs, actions);
    FinishedIsClosed(defs, After(defs, actions), e, id);
  }

  /** Saved checkpoints and the memories of live calls hold only finished nodes, with all they depend on. */
  lemma {:induction false} CheckpointsAreSound(defs: Defs, actions: seq<Action>)
    requires IsRun(defs, actions)
    ensures var s := After(defs, actions);
            && (forall e :: e in s.rows && s.rows[e].checkpoint.Some? ==> Sound(defs, s, e, s.rows[e].checkpoint.value))
            && (forall p :: p in s.incs ==> Sound(defs, s, s.incs[p].exec, s.incs[p].completed))
  {
    hide Sound;
    RunsKeepInv(defs, actions);
    var s := After(defs, actions);
    forall e | e in s.rows && s.rows[e].checkpoint.Some?
      ensures Sound(defs, s, e, s.rows[e].checkpoint.value)
    {
      assert RowOk(defs, s, e);
    }
    forall p | p in s.incs
      ensures Sound(defs, s, s.incs[p].exec, s.incs[p].completed)
    {
      assert IncOk(defs, s, p, s.incs[p]);
    }
  }

  /** Nothing downstream of an approval begins unless a request for it was approved or it was not needed. */
  lemma {:induction false} ApprovalsGate(defs: Defs, actions: seq<Action>, e: ExecId, id: string, approval: string)
    requires IsRun(defs, actions) && (e, id) in After(defs, actions).started
    requires IsApproval(defs, e, approval) && Upstream(GraphOf(defs.of(e)), approval, id)
    ensures (e, approval) in After(defs, actions).waived || HasApproval(After(defs, actions), e, approval)
  {
    hide GraphOf;
    hide IsApproval;
    NothingStartsEarly(defs, actions, e, id);
    RunsKeepInv(defs, actions);
    assert GateOk(defs, After(defs, actions), e, approval);
  }

  /** The timestamps of every row match its status, in every reachable state. */
  lemma {:induction false} TimesAlwaysMatch(defs: Defs, actions: seq<Action>, e: ExecId)
    requires IsRun(defs, actions) && e in After(defs, actions).rows
    ensures TimesMatch(After(defs, actions).rows[e])
  {
    RunsKeepInv(defs, actions);
    assert RowOk(defs, After(defs, actions), e);
  }
}
