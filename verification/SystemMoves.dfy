/** Every move of an Execute call keeps the invariant of the system. */
module SystemMoves {
  import opened Prelude
  import opened Graph
  import opened Dag
  import opened StateMachine
  import opened Semantics
  import opened System
  import opened SystemInvariant

  lemma Weaken(defs: Defs, s: System, p: ProcId)
    requires Inv(defs, s) && p in s.incs
    ensures InvBut(defs, s, p) && IncOk(defs, s, p, s.incs[p])
  {
  }

  lemma GoneIsOk(defs: Defs, s: System, p: ProcId, inc: Inc)
    requires IncOk(defs, s, p, inc)
    ensures IncOk(defs, s, p, inc.(pc := Gone))
  {
  }

  lemma EndingIsOk(defs: Defs, s: System, p: ProcId, inc: Inc, to: Status)
    requires IncOk(defs, s, p, inc) && HasBegun(inc.pc)
    ensures IncOk(defs, s, p, inc.(pc := Ending(to)))
  {
  }

  /** What is ready stays ready while another node of the wave finishes. */
  lemma ReadyRest(g: Graph, done: set<string>, id: string, rest: seq<string>)
    requires AllReady(g, done, [id] + rest)
    ensures AllReady(g, done + {id}, rest)
    ensures id in g.ids && IsReady(g, done, id)
  {
    var all := [id] + rest;
    assert all[0] == id && all[1..] == rest && id in all;
    forall x | x in rest
      ensures x in g.ids && IsReady(g, done + {id}, x)
    {
      var i :| 0 <= i < |rest| && rest[i] == x;
      assert all[i + 1] == x && x in all;
    }
    forall i, j | 0 <= i < j < |rest|
      ensures rest[i] != rest[j]
    {
      assert all[i + 1] == rest[i] && all[j + 1] == rest[j];
    }
  }

  lemma FinishKeeps(defs: Defs, s: System, p: ProcId, id: string, rest: seq<string>)
    requires InvBut(defs, s, p) && IncOk(defs, s, p, s.incs[p])
    requires Remaining(s.incs[p].pc) == [id] + rest && HasBegun(s.incs[p].pc)
    requires GateOk(defs, s, s.incs[p].exec, id)
    ensures Inv(defs, Finish(s, p, id, rest))
  {
    hide IncOk;
    hide GateOk;
    hide GraphOf;
    hide Inv;
    hide SharedOk;
    hide OwnersExist;
    hide Grows;
    hide DepsFinished;
    var inc := s.incs[p];
    var e, done := inc.exec, inc.completed + {id};
    FinishedIsOk(defs, s, p, inc, id, rest);
    NodeFinishes(defs, s, p, e, id);
    var s' := s.(finished := s.finished + {(e, id)});
    var inc' := inc.(completed := done);
    MemoryChanges(defs, s', p, inc');
    var s2 := s'.(incs := s'.incs[p := inc']);
    IncStays(defs, s', s2, p, inc'.(pc := Saving(rest)));
    AtKeeps(defs, s2, p, Saving(rest));
    assert At(s2, p, Saving(rest)) == Finish(s, p, id, rest);
  }

  lemma FinishedIsOk(defs: Defs, s: System, p: ProcId, inc: Inc, id: string, rest: seq<string>)
    requires IncOk(defs, s, p, inc) && Remaining(inc.pc) == [id] + rest && HasBegun(inc.pc)
    ensures DepsFinished(defs, s, inc.exec, id)
    ensures IncOk(defs, s.(finished := s.finished + {(inc.exec, id)}), p,
                  inc.(completed := inc.completed + {id}, pc := Saving(rest)))
  {
    hide GraphOf;
    ReadyRest(GraphOf(defs.of(inc.exec)), inc.completed, id, rest);
  }

  lemma NodeFinishes(defs: Defs, s: System, p: ProcId, e: ExecId, id: string)
    requires InvBut(defs, s, p) && DepsFinished(defs, s, e, id) && GateOk(defs, s, e, id)
    ensures var s' := s.(finished := s.finished + {(e, id)}); InvBut(defs, s', p) && Grows(s, s')
  {
    hide IncOk;
    hide RowOk;
    hide DepsFinished;
    var s' := s.(finished := s.finished + {(e, id)});
    assert Grows(s, s');
    forall x
      ensures RowOk(defs, s', x)
    {
      assert RowOk(defs, s, x);
      RowStays(defs, s, s', x);
    }
    forall x, y | (x, y) in s'.finished
      ensures DepsFinished(defs, s', x, y) && GateOk(defs, s', x, y)
    {
      DepsStay(defs, s, s', x, y);
    }
    forall x, y | (x, y) in s'.started
      ensures DepsFinished(defs, s', x, y)
    {
      DepsStay(defs, s, s', x, y);
    }
    CallsStay(defs, s, s');
    OthersStay(defs, s, s', p);
  }

  lemma RowStays(defs: Defs, s: System, s': System, e: ExecId)
    requires RowOk(defs, s, e) && Grows(s, s') && s'.rows == s.rows
    ensures RowOk(defs, s', e)
  {
  }

  lemma DepsStay(defs: Defs, s: System, s': System, e: ExecId, id: string)
    requires Grows(s, s')
    ensures DepsFinished(defs, s, e, id) ==> DepsFinished(defs, s', e, id)
    ensures GateOk(defs, s, e, id) ==> GateOk(defs, s', e, id)
  {
    if HasApproval(s, e, id) {
      ApprovalStays(s, s', e, id);
    }
  }

  lemma CallsStay(defs: Defs, s: System, s': System)
    requires SharedOk(defs, s) && Grows(s, s') && s'.calls == s.calls && s'.compensations == s.compensations
    ensures forall c :: c in s'.calls ==> CallOk(defs, s', c)
    ensures forall c :: c in s'.compensations ==> CompensationOk(defs, s', c)
  {
    forall c | c in s'.calls
      ensures CallOk(defs, s', c)
    {
      assert CallOk(defs, s, c);
    }
    forall c | c in s'.compensations
      ensures CompensationOk(defs, s', c)
    {
      assert CompensationOk(defs, s, c);
    }
  }

  lemma LoadKeeps(defs: Defs, s: System, p: ProcId, ok: bool)
    requires Inv(defs, s) && p in s.incs && s.incs[p].pc.Acquired? && s.incs[p].exec in s.rows
    ensures Inv(defs, Loaded(defs, s, p, ok))
  {
    hide IncOk;
    hide Sound;
    hide DependenciesKnown;
    hide ValidTransition;
    hide RowOk;
    hide Inv;
    hide InvBut;
    hide Grows;
    Weaken(defs, s, p);
    var inc := s.incs[p];
    var row := s.rows[inc.exec];
    if !ok || !DependenciesKnown(defs.of(inc.exec)) || !ValidTransition(row.status, Running) {
      GoneIsOk(defs, s, p, inc);
      AtKeeps(defs, s, p, Gone);
    } else {
      var done := if row.checkpoint.Some? then row.checkpoint.value else {};
      var inc' := inc.(status := row.status, completed := done);
      MemoryChanges(defs, s, p, inc');
      var s' := s.(incs := s.incs[p := inc']);
      RowIsOk(defs, s', p, inc.exec);
      StartingIsOk(defs, s', p, inc', done);
      AtKeeps(defs, s', p, Starting);
      assert At(s', p, Starting) == Loaded(defs, s, p, ok);
    }
  }

  lemma RowIsOk(defs: Defs, s: System, p: ProcId, e: ExecId)
    requires InvBut(defs, s, p)
    ensures RowOk(defs, s, e)
  {
  }

  lemma StartingIsOk(defs: Defs, s: System, p: ProcId, inc: Inc, done: set<string>)
    requires inc.exec in s.rows && RowOk(defs, s, inc.exec) && inc.completed == done
    requires done == if s.rows[inc.exec].checkpoint.Some? then s.rows[inc.exec].checkpoint.value else {}
    ensures IncOk(defs, s, p, inc.(pc := Starting))
  {
  }

  lemma BegunIsOk(defs: Defs, s: System, s': System, p: ProcId, inc: Inc)
    requires IncOk(defs, s, p, inc) && Grows(s, s') && p in s'.incs && s'.incs[p] == inc.(status := s'.incs[p].status)
    requires inc.exec in s.rows && inc.exec in s'.rows ==> s'.rows[inc.exec].startedAt.Some?
    ensures IncOk(defs, s', p, s'.incs[p].(pc := Todo([])))
  {
    hide GraphOf;
    hide Sound;
    SoundStays(defs, s, s', inc.exec, inc.completed);
  }

  lemma BeginKeeps(defs: Defs, s: System, p: ProcId, ok: bool)
    requires Inv(defs, s) && p in s.incs && s.incs[p].pc.Starting? && s.incs[p].exec in s.rows
    ensures Inv(defs, Moved(defs, s, p, Begin(ok)))
  {
    hide ValidTransition;
    hide GraphOf;
    hide Inv;
    hide InvBut;
    hide Grows;
    hide Sound;
    hide IncOk;
    hide At;
    Weaken(defs, s, p);
    var inc := s.incs[p];
    if ok && ValidTransition(inc.status, Running) {
      TransitionKeeps(defs, s, p, Running, ok);
      var s' := Transition(s, p, Running, ok);
      assert p in s'.incs && inc.exec in s'.rows;
      hide Transition;
      BegunIsOk(defs, s, s', p, inc);
      AtKeeps(defs, s', p, Todo([]));
    } else {
      GoneIsOk(defs, s, p, inc);
      AtKeeps(defs, s, p, Gone);
    }
  }

  lemma ChooseKeeps(defs: Defs, s: System, p: ProcId, order: seq<string>)
    requires Inv(defs, s) && p in s.incs && s.incs[p].exec in s.rows && CanMove(defs, s, s.incs[p], Choose(order))
    ensures Inv(defs, Moved(defs, s, p, Choose(order)))
  {
    hide GraphOf;
    hide NodesOf;
    hide Sound;
    hide InvBut;
    hide Inv;
    Weaken(defs, s, p);
    var inc := s.incs[p];
    var g := GraphOf(defs.of(inc.exec));
    forall id | id in order
      ensures id in g.ids && IsReady(g, inc.completed, id)
    {
      assert id in Elements(order);
    }
    AtKeeps(defs, s, p, if order != [] then Todo(order)
                        else Ending(if |inc.completed| == |NodesOf(defs.of(inc.exec))| then Succeeded else Failed));
  }

  lemma NodeStarts(defs: Defs, s: System, p: ProcId, e: ExecId, id: string, waived: set<(ExecId, string)>)
    requires InvBut(defs, s, p) && DepsFinished(defs, s, e, id) && s.waived <= waived
    ensures var s' := s.(started := s.started + {(e, id)}, waived := waived); InvBut(defs, s', p) && Grows(s, s')
  {
    hide IncOk;
    hide RowOk;
    hide DepsFinished;
    var s' := s.(started := s.started + {(e, id)}, waived := waived);
    assert Grows(s, s');
    forall x
      ensures RowOk(defs, s', x)
    {
      assert RowOk(defs, s, x);
      RowStays(defs, s, s', x);
    }
    forall x, y | (x, y) in s'.finished
      ensures DepsFinished(defs, s', x, y) && GateOk(defs, s', x, y)
    {
      DepsStay(defs, s, s', x, y);
    }
    forall x, y | (x, y) in s'.started
      ensures DepsFinished(defs, s', x, y)
    {
      DepsStay(defs, s, s', x, y);
    }
    CallsStay(defs, s, s');
    OthersStay(defs, s, s', p);
  }

  lemma ConsiderKeeps(defs: Defs, s: System, p: ProcId, condition: Condition)
    requires Inv(defs, s) && p in s.incs && s.incs[p].exec in s.rows && CanMove(defs, s, s.incs[p], Consider(condition))
    ensures Inv(defs, Considered(defs, s, p, condition))
  {
    hide IncOk;
    hide NodesOf;
    hide GateOk;
    Weaken(defs, s, p);
    var inc := s.incs[p];
    var id, rest := inc.pc.todo[0], inc.pc.todo[1..];
    assert inc.pc.todo == [id] + rest;
    NextIsReady(defs, s, p);
    var isStep := NodesOf(defs.of(inc.exec))[id].StepOf?;
    var waived := if !isStep && condition.Skip? then s.waived + {(inc.exec, id)} else s.waived;
    NodeStarts(defs, s, p, inc.exec, id, waived);
    var s1 := s.(started := s.started + {(inc.exec, id)}, waived := waived);
    IncStays(defs, s, s1, p, inc);
    if condition.Skip? {
      SkipOpensGate(defs, s1, inc.exec, id);
      FinishKeeps(defs, s1, p, id, rest);
    } else {
      PlaceFor(defs, s1, p, inc, id, rest);
      AtKeeps(defs, s1, p,
              if condition.ConditionError? then (if isStep then Ending(Failed) else Gone)
              else if isStep then Inserting(id, rest) else Asking(id, rest));
    }
    assert s.(started := s.started + {(inc.exec, id)}, waived := s.waived)
           == s.(started := s.started + {(inc.exec, id)});
  }

  lemma NextIsReady(defs: Defs, s: System, p: ProcId)
    requires p in s.incs && IncOk(defs, s, p, s.incs[p]) && s.incs[p].pc.Todo? && s.incs[p].pc.todo != []
    ensures DepsFinished(defs, s, s.incs[p].exec, s.incs[p].pc.todo[0])
  {
    assert s.incs[p].pc.todo[0] in Remaining(s.incs[p].pc);
  }

  lemma SkipOpensGate(defs: Defs, s: System, e: ExecId, id: string)
    requires IsApproval(defs, e, id) ==> (e, id) in s.waived
    ensures GateOk(defs, s, e, id)
  {
  }

  lemma PlaceFor(defs: Defs, s: System, p: ProcId, inc: Inc, id: string, rest: seq<string>)
    requires IncOk(defs, s, p, inc) && inc.pc == Todo([id] + rest) && id in NodesOf(defs.of(inc.exec))
    ensures IncOk(defs, s, p, inc.(pc := Ending(Failed))) && IncOk(defs, s, p, inc.(pc := Gone))
    ensures IsStep(defs, inc.exec, id) ==> IncOk(defs, s, p, inc.(pc := Inserting(id, rest)))
    ensures !IsStep(defs, inc.exec, id) ==> IncOk(defs, s, p, inc.(pc := Asking(id, rest)))
  {
  }

  lemma RowInserts(defs: Defs, s: System, p: ProcId, key: (ExecId, string))
    requires InvBut(defs, s, p) && key !in s.stepRows
    ensures var s' := s.(stepRows := s.stepRows[key := StepRow(p, RowRunning)]); InvBut(defs, s', p) && Grows(s, s')
  {
    hide IncOk;
    hide RowOk;
    var s' := s.(stepRows := s.stepRows[key := StepRow(p, RowRunning)]);
    forall e
      ensures RowOk(defs, s', e)
    {
      assert RowOk(defs, s, e);
      RowStays(defs, s, s', e);
    }
    SharedStays(defs, s, s');
    OthersStay(defs, s, s', p);
  }

  /** A row that is not there yet means that nobody has called the runner, this call included. */
  lemma InsertKeeps(defs: Defs, s: System, p: ProcId, ok: bool)
    requires Inv(defs, s) && p in s.incs && s.incs[p].pc.Inserting?
    ensures Inv(defs, RowInserted(s, p, ok))
  {
    hide IncOk;
    hide InvBut;
    Weaken(defs, s, p);
    var inc := s.incs[p];
    var id, rest := inc.pc.id, inc.pc.rest;
    var key := (inc.exec, id);
    if ok && key !in s.stepRows {
      var c := RunnerCall(inc.exec, id, p);
      assert s.calls[c] == 0 && s.compensations[c] == 0 by {
        assert c in s.calls ==> CallOk(defs, s, c);
        assert c in s.compensations ==> CompensationOk(defs, s, c);
      }
      RowInserts(defs, s, p, key);
      var s' := s.(stepRows := s.stepRows[key := StepRow(p, RowRunning)]);
      IncStays(defs, s, s', p, inc);
      AttemptingIsOk(defs, s', p, inc);
      AtKeeps(defs, s', p, Attempting(id, rest, 0));
    } else {
      EndingIsOk(defs, s, p, inc, Failed);
      AtKeeps(defs, s, p, Ending(Failed));
    }
  }

  lemma AttemptingIsOk(defs: Defs, s: System, p: ProcId, inc: Inc)
    requires IncOk(defs, s, p, inc) && inc.pc.Inserting? && OwnsRow(s, RunnerCall(inc.exec, inc.pc.id, p))
    requires s.calls[RunnerCall(inc.exec, inc.pc.id, p)] == 0 == s.compensations[RunnerCall(inc.exec, inc.pc.id, p)]
    ensures IncOk(defs, s, p, inc.(pc := Attempting(inc.pc.id, inc.pc.rest, 0)))
  {
    hide GraphOf;
    hide NodesOf;
  }

  lemma RunnerIsCalled(defs: Defs, s: System, p: ProcId, c: RunnerCall)
    requires InvBut(defs, s, p) && c.caller == p && OwnsRow(s, c) && s.compensations[c] == 0
    requires s.calls[c] < Limit(defs, c.exec, c.stepId)
    ensures var s' := s.(calls := s.calls + multiset{c}); InvBut(defs, s', p) && Grows(s, s')
  {
    hide IncOk;
    hide RowOk;
    hide Limit;
    hide HasCompensation;
    hide GateOk;
    hide DepsFinished;
    var s' := s.(calls := s.calls + multiset{c});
    forall e
      ensures RowOk(defs, s', e)
    {
      assert RowOk(defs, s, e);
      RowStays(defs, s, s', e);
    }
    forall e, id | (e, id) in s'.finished || (e, id) in s'.started
      ensures (DepsFinished(defs, s, e, id) ==> DepsFinished(defs, s', e, id))
              && (GateOk(defs, s, e, id) ==> GateOk(defs, s', e, id))
    {
      DepsStay(defs, s, s', e, id);
    }
    forall d | d in s'.calls
      ensures CallOk(defs, s', d)
    {
      assert d in s.calls ==> CallOk(defs, s, d);
    }
    forall d | d in s'.compensations
      ensures CompensationOk(defs, s', d)
    {
      assert CompensationOk(defs, s, d);
    }
    OthersStay(defs, s, s', p);
  }

  lemma AttemptKeeps(defs: Defs, s: System, p: ProcId, success: bool)
    requires Inv(defs, s) && p in s.incs && s.incs[p].exec in s.rows && CanMove(defs, s, s.incs[p], Attempt(success))
    ensures Inv(defs, Attempted(defs, s, p, success))
  {
    hide InvBut;
    hide Inv;
    hide Sound;
    hide AllReady;
    hide GraphOf;
    hide NodesOf;
    hide Limit;
    Weaken(defs, s, p);
    var inc := s.incs[p];
    var id, rest, made := inc.pc.id, inc.pc.rest, inc.pc.made + 1;
    var c := RunnerCall(inc.exec, id, p);
    assert PlaceOk(defs, s, p, inc.exec, inc.pc);
    RunnerIsCalled(defs, s, p, c);
    var s' := s.(calls := s.calls + multiset{c});
    SoundStays(defs, s, s', inc.exec, inc.completed);
    NothingRemains(defs, inc.exec, inc.completed);
    AtKeeps(defs, s', p,
            if success then Succeeding(id, rest)
            else if made < Limit(defs, inc.exec, id) then Attempting(id, rest, made)
            else Failing(id));
  }

  lemma NothingRemains(defs: Defs, e: ExecId, done: set<string>)
    ensures AllReady(GraphOf(defs.of(e)), done, [])
  {
  }

  lemma SucceedingIsOk(defs: Defs, s: System, p: ProcId, inc: Inc)
    requires IncOk(defs, s, p, inc) && inc.pc.Attempting?
    ensures IncOk(defs, s, p, inc.(pc := Succeeding(inc.pc.id, inc.pc.rest)))
  {
  }

  lemma RowIsMarked(defs: Defs, s: System, p: ProcId, e: ExecId, id: string, status: StepRowStatus, ok: bool)
    requires InvBut(defs, s, p)
    ensures var s' := Marked(s, e, id, status, ok); InvBut(defs, s', p) && Grows(s, s')
  {
    hide IncOk;
    MarkedSame(s, p, e, id, status, ok);
    hide Marked;
    var s' := Marked(s, e, id, status, ok);
    forall q | q != p
      ensures SameCalls(s, s', q)
    {
      MarkedSame(s, q, e, id, status, ok);
    }
    forall x
      ensures RowOk(defs, s', x)
    {
      RowStays(defs, s, s', x);
    }
    SharedStays(defs, s, s');
    OthersStay(defs, s, s', p);
  }

  lemma MarkFailedKeeps(defs: Defs, s: System, p: ProcId, ok: bool)
    requires Inv(defs, s) && p in s.incs && s.incs[p].pc.Failing?
    ensures Inv(defs, MarkedFailed(defs, s, p, ok))
  {
    hide IncOk;
    hide Inv;
    hide InvBut;
    hide Marked;
    Weaken(defs, s, p);
    var inc := s.incs[p];
    RowIsMarked(defs, s, p, inc.exec, inc.pc.id, RowFailed, ok);
    var s' := Marked(s, inc.exec, inc.pc.id, RowFailed, ok);
    MarkedSame(s, p, inc.exec, inc.pc.id, RowFailed, ok);
    IncStays(defs, s, s', p, inc);
    FailingGoesOn(defs, s', p, inc);
    AtKeeps(defs, s', p,
            if HasCompensation(defs, inc.exec, inc.pc.id) then Compensating(inc.pc.id) else Ending(Failed));
  }

  /** The rows of steps and their owners are the same. */
  ghost predicate OwnersStay(s: System, s': System) {
    s'.stepRows.Keys == s.stepRows.Keys && forall key :: key in s.stepRows ==>
      s'.stepRows[key].owner == s.stepRows[key].owner
  }

  lemma MarkedSame(s: System, p: ProcId, e: ExecId, id: string, status: StepRowStatus, ok: bool)
    ensures Marked(s, e, id, status, ok).incs == s.incs && SameCalls(s, Marked(s, e, id, status, ok), p)
    ensures Marked(s, e, id, status, ok).waived == s.waived && Marked(s, e, id, status, ok).approvals == s.approvals
    ensures Grows(s, Marked(s, e, id, status, ok)) && OwnersStay(s, Marked(s, e, id, status, ok))
    ensures Marked(s, e, id, status, ok).rows == s.rows && Marked(s, e, id, status, ok).finished == s.finished
    ensures Marked(s, e, id, status, ok).started == s.started && Marked(s, e, id, status, ok).calls == s.calls
    ensures Marked(s, e, id, status, ok).compensations == s.compensations
  {
  }

  lemma FailingGoesOn(defs: Defs, s: System, p: ProcId, inc: Inc)
    requires IncOk(defs, s, p, inc) && inc.pc.Failing?
    ensures IncOk(defs, s, p, inc.(pc := Ending(Failed)))
    ensures HasCompensation(defs, inc.exec, inc.pc.id) ==> IncOk(defs, s, p, inc.(pc := Compensating(inc.pc.id)))
  {
    hide GraphOf;
    hide NodesOf;
  }

  lemma CompensateKeeps(defs: Defs, s: System, p: ProcId, found: bool)
    requires Inv(defs, s) && p in s.incs && s.incs[p].pc.Compensating?
    ensures Inv(defs, Compensated(s, p, found))
  {
    hide IncOk;
    hide Inv;
    hide InvBut;
    Weaken(defs, s, p);
    var inc := s.incs[p];
    EndingIsOk(defs, s, p, inc, Failed);
    if found {
      var c := RunnerCall(inc.exec, inc.pc.id, p);
      MayCompensate(defs, s, p, inc);
      CompensationIsCalled(defs, s, p, c);
      EndingStays(defs, s, s.(compensations := s.compensations + multiset{c}), p, inc);
      AtKeeps(defs, s.(compensations := s.compensations + multiset{c}), p, Ending(Failed));
    } else {
      AtKeeps(defs, s, p, Ending(Failed));
    }
  }

  lemma MayCompensate(defs: Defs, s: System, p: ProcId, inc: Inc)
    requires IncOk(defs, s, p, inc) && inc.pc.Compensating?
    ensures var c := RunnerCall(inc.exec, inc.pc.id, p);
            && OwnsRow(s, c) && s.compensations[c] == 0
            && s.calls[c] == Limit(defs, c.exec, c.stepId) > 0 && HasCompensation(defs, c.exec, c.stepId)
  {
  }

  lemma EndingStays(defs: Defs, s: System, s': System, p: ProcId, inc: Inc)
    requires IncOk(defs, s, p, inc.(pc := Ending(Failed))) && Grows(s, s')
    ensures IncOk(defs, s', p, inc.(pc := Ending(Failed)))
  {
    hide Sound;
    SoundStays(defs, s, s', inc.exec, inc.completed);
  }

  lemma CompensationIsCalled(defs: Defs, s: System, p: ProcId, c: RunnerCall)
    requires InvBut(defs, s, p) && c.caller == p && OwnsRow(s, c) && s.compensations[c] == 0
    requires s.calls[c] == Limit(defs, c.exec, c.stepId) > 0 && HasCompensation(defs, c.exec, c.stepId)
    ensures var s' := s.(compensations := s.compensations + multiset{c}); InvBut(defs, s', p) && Grows(s, s')
  {
    hide IncOk;
    hide RowOk;
    hide Limit;
    hide HasCompensation;
    hide GateOk;
    hide DepsFinished;
    var s' := s.(compensations := s.compensations + multiset{c});
    forall e
      ensures RowOk(defs, s', e)
    {
      assert RowOk(defs, s, e);
      RowStays(defs, s, s', e);
    }
    forall e, id | (e, id) in s'.finished || (e, id) in s'.started
      ensures (DepsFinished(defs, s, e, id) ==> DepsFinished(defs, s', e, id))
              && (GateOk(defs, s, e, id) ==> GateOk(defs, s', e, id))
    {
      DepsStay(defs, s, s', e, id);
    }
    forall d | d in s'.calls
      ensures CallOk(defs, s', d)
    {
      assert CallOk(defs, s, d);
    }
    forall d | d in s'.compensations
      ensures CompensationOk(defs, s', d)
    {
      assert d in s.compensations ==> CompensationOk(defs, s, d);
    }
    OthersStay(defs, s, s', p);
  }

  lemma MarkSucceededKeeps(defs: Defs, s: System, p: ProcId, ok: bool)
    requires Inv(defs, s) && p in s.incs && s.incs[p].pc.Succeeding?
    ensures var inc := s.incs[p];
            Inv(defs, Finish(Marked(s, inc.exec, inc.pc.id, RowSucceeded, ok), p, inc.pc.id, inc.pc.rest))
  {
    hide IncOk;
    hide Inv;
    hide InvBut;
    hide Marked;
    Weaken(defs, s, p);
    var inc := s.incs[p];
    RowIsMarked(defs, s, p, inc.exec, inc.pc.id, RowSucceeded, ok);
    var s' := Marked(s, inc.exec, inc.pc.id, RowSucceeded, ok);
    MarkedSame(s, p, inc.exec, inc.pc.id, RowSucceeded, ok);
    IncStays(defs, s, s', p, inc);
    StepsHaveNoGate(defs, s', p, inc);
    FinishKeeps(defs, s', p, inc.pc.id, inc.pc.rest);
  }

  lemma StepsHaveNoGate(defs: Defs, s: System, p: ProcId, inc: Inc)
    requires IncOk(defs, s, p, inc) && inc.pc.Succeeding?
    ensures GateOk(defs, s, inc.exec, inc.pc.id)
  {
  }

  lemma RequestInserts(defs: Defs, s: System, p: ProcId, a: ApprovalId, row: ApprovalRow)
    requires InvBut(defs, s, p)
    requires a in s.approvals ==> SameRequest(s.approvals[a], row)
    ensures var s' := s.(approvals := s.approvals[a := row]); InvBut(defs, s', p) && Grows(s, s')
  {
    hide IncOk;
    var s' := s.(approvals := s.approvals[a := row]);
    forall e
      ensures RowOk(defs, s', e)
    {
      RowStays(defs, s, s', e);
    }
    SharedStays(defs, s, s');
    OthersStay(defs, s, s', p);
  }

  lemma AskKeeps(defs: Defs, s: System, p: ProcId, a: ApprovalId, ok: bool)
    requires Inv(defs, s) && p in s.incs && s.incs[p].exec in s.rows && s.incs[p].pc.Asking? && a !in s.approvals
    ensures Inv(defs, Asked(s, p, a, ok))
  {
    hide IncOk;
    hide Inv;
    hide InvBut;
    Weaken(defs, s, p);
    var inc := s.incs[p];
    if !ok {
      GoneIsOk(defs, s, p, inc);
      AtKeeps(defs, s, p, Gone);
    } else {
      var row := ApprovalRow(inc.exec, inc.pc.id, s.rows[inc.exec].tenant, Undecided);
      RequestInserts(defs, s, p, a, row);
      var s' := s.(approvals := s.approvals[a := row]);
      IncStays(defs, s, s', p, inc);
      AnnouncingIsOk(defs, s', p, inc, a);
      AtKeeps(defs, s', p, Announcing(inc.pc.id, inc.pc.rest, a));
    }
  }

  lemma AnnouncingIsOk(defs: Defs, s: System, p: ProcId, inc: Inc, a: ApprovalId)
    requires IncOk(defs, s, p, inc) && inc.pc.Asking? && IsRequest(s, a, inc.exec, inc.pc.id)
    ensures IncOk(defs, s, p, inc.(pc := Announcing(inc.pc.id, inc.pc.rest, a)))
  {
    hide GraphOf;
    hide NodesOf;
  }

  /** The status in memory plays no part in what is kept. */
  lemma AfterTransition(defs: Defs, s: System, p: ProcId, to: Status, ok: bool, pc: Pc)
    requires p in s.incs && InvBut(defs, s, p) && IncOk(defs, s, p, s.incs[p].(pc := pc))
    requires s.incs[p].exec in s.rows && (s.rows[s.incs[p].exec].startedAt.Some? || to == Running)
    ensures Inv(defs, At(Transition(s, p, to, ok), p, pc))
  {
    hide InvBut;
    hide Sound;
    hide PlaceOk;
    hide AllReady;
    hide ValidTransition;
    TransitionKeeps(defs, s, p, to, ok);
    var s' := Transition(s, p, to, ok);
    IncStays(defs, s, s', p, s.incs[p].(pc := pc));
    AtKeeps(defs, s', p, pc);
  }

  lemma AnnounceKeeps(defs: Defs, s: System, p: ProcId, ok: bool)
    requires Inv(defs, s) && p in s.incs && s.incs[p].exec in s.rows && s.incs[p].pc.Announcing?
    ensures Inv(defs, Moved(defs, s, p, Announce(ok)))
  {
    hide Inv;
    hide InvBut;
    hide Transition;
    Weaken(defs, s, p);
    var inc := s.incs[p];
    WaitingIsOk(defs, s, p, inc);
    AfterTransition(defs, s, p, WaitingApproval, ok, Waiting(inc.pc.id, inc.pc.rest, inc.pc.approval));
  }

  lemma WaitingIsOk(defs: Defs, s: System, p: ProcId, inc: Inc)
    requires IncOk(defs, s, p, inc) && inc.pc.Announcing?
    ensures IncOk(defs, s, p, inc.(pc := Waiting(inc.pc.id, inc.pc.rest, inc.pc.approval)))
  {
    hide GraphOf;
    hide NodesOf;
  }

  lemma CheckKeeps(defs: Defs, s: System, p: ProcId)
    requires Inv(defs, s) && p in s.incs && s.incs[p].pc.Waiting? && s.incs[p].pc.approval in s.approvals
    ensures Inv(defs, Checked(s, p))
  {
    hide Inv;
    hide InvBut;
    hide IncOk;
    Weaken(defs, s, p);
    var inc := s.incs[p];
    match s.approvals[inc.pc.approval].status
    case Undecided =>
    case Approved =>
      GrantedIsOk(defs, s, p, inc);
      AtKeeps(defs, s, p, Granted(inc.pc.id, inc.pc.rest));
    case Rejected =>
      EndingIsOk(defs, s, p, inc, Cancelled);
      AtKeeps(defs, s, p, Ending(Cancelled));
  }

  lemma GrantedIsOk(defs: Defs, s: System, p: ProcId, inc: Inc)
    requires IncOk(defs, s, p, inc) && inc.pc.Waiting? && inc.pc.approval in s.approvals
    requires s.approvals[inc.pc.approval].status == Approved
    ensures IncOk(defs, s, p, inc.(pc := Granted(inc.pc.id, inc.pc.rest)))
  {
    hide GraphOf;
    hide NodesOf;
    var a := inc.pc.approval;
    assert s.approvals[a] == ApprovalRow(inc.exec, inc.pc.id, s.approvals[a].tenant, Approved);
    assert HasApproval(s, inc.exec, inc.pc.id);
  }

  lemma GoOnKeeps(defs: Defs, s: System, p: ProcId, ok: bool)
    requires Inv(defs, s) && p in s.incs && s.incs[p].exec in s.rows && s.incs[p].pc.Granted?
    ensures var inc := s.incs[p]; Inv(defs, Finish(Transition(s, p, Running, ok), p, inc.pc.id, inc.pc.rest))
  {
    hide Inv;
    hide InvBut;
    hide IncOk;
    hide ValidTransition;
    Weaken(defs, s, p);
    var inc := s.incs[p];
    TransitionKeeps(defs, s, p, Running, ok);
    var s' := Transition(s, p, Running, ok);
    IncStays(defs, s, s', p, inc);
    GrantedHasGate(defs, s', p, inc);
    StatusIsFree(defs, s', p, inc, s'.incs[p].status);
    FinishKeeps(defs, s', p, inc.pc.id, inc.pc.rest);
  }

  lemma StatusIsFree(defs: Defs, s: System, p: ProcId, inc: Inc, status: Status)
    requires IncOk(defs, s, p, inc)
    ensures IncOk(defs, s, p, inc.(status := status))
  {
  }

  lemma GrantedHasGate(defs: Defs, s: System, p: ProcId, inc: Inc)
    requires IncOk(defs, s, p, inc) && inc.pc.Granted?
    ensures GateOk(defs, s, inc.exec, inc.pc.id)
  {
  }

  lemma SaveKeeps(defs: Defs, s: System, p: ProcId, ok: bool)
    requires Inv(defs, s) && p in s.incs && s.incs[p].exec in s.rows && s.incs[p].pc.Saving?
    ensures Inv(defs, Saved(s, p, ok))
  {
    hide Inv;
    hide IncOk;
    hide Sound;
    Weaken(defs, s, p);
    var inc := s.incs[p];
    TodoIsOk(defs, s, p, inc);
    if ok {
      assert RowOk(defs, s, inc.exec);
      forall e | e in s.rows
        ensures RowOk(defs, s, e)
      {
      }
      var rows := s.rows[inc.exec := s.rows[inc.exec].(checkpoint := Some(inc.completed))];
      RowsChange(defs, s, p, rows);
      IncStays(defs, s, s.(rows := rows), p, inc.(pc := Todo(inc.pc.rest)));
      AtKeeps(defs, s.(rows := rows), p, Todo(inc.pc.rest));
    } else {
      AtKeeps(defs, s, p, Todo(inc.pc.rest));
    }
  }

  lemma TodoIsOk(defs: Defs, s: System, p: ProcId, inc: Inc)
    requires IncOk(defs, s, p, inc) && inc.pc.Saving?
    ensures IncOk(defs, s, p, inc.(pc := Todo(inc.pc.rest))) && Sound(defs, s, inc.exec, inc.completed)
  {
  }

  lemma EndKeeps(defs: Defs, s: System, p: ProcId, ok: bool)
    requires Inv(defs, s) && p in s.incs && s.incs[p].exec in s.rows && s.incs[p].pc.Ending?
    ensures Inv(defs, Moved(defs, s, p, End(ok)))
  {
    hide Inv;
    hide InvBut;
    hide Transition;
    Weaken(defs, s, p);
    var inc := s.incs[p];
    GoneIsOk(defs, s, p, inc);
    AfterTransition(defs, s, p, inc.pc.to, ok, Gone);
  }

  /** Every move of a call keeps the invariant. */
  lemma MoveKeepsInv(defs: Defs, s: System, p: ProcId, m: Move)
    requires Inv(defs, s) && Enabled(defs, s, Moves(p, m))
    ensures Inv(defs, Moved(defs, s, p, m))
  {
    hide Inv;
    hide InvBut;
    hide IncOk;
    hide Loaded;
    hide Considered;
    hide RowInserted;
    hide Attempted;
    hide MarkedFailed;
    hide Compensated;
    hide Asked;
    hide Checked;
    hide Saved;
    hide Finish;
    hide Marked;
    hide Transition;
    hide At;
    hide ValidTransition;
    hide GraphOf;
    hide NodesOf;
    hide Limit;
    Weaken(defs, s, p);
    var inc := s.incs[p];
    match m
    case Load(ok) => LoadKeeps(defs, s, p, ok);
    case Begin(ok) => BeginKeeps(defs, s, p, ok);
    case Choose(order) => ChooseKeeps(defs, s, p, order);
    case Consider(condition) => ConsiderKeeps(defs, s, p, condition);
    case InsertRow(ok) => InsertKeeps(defs, s, p, ok);
    case Attempt(success) => AttemptKeeps(defs, s, p, success);
    case NoAttempts =>
      SucceedingIsOk(defs, s, p, inc);
      AtKeeps(defs, s, p, Succeeding(inc.pc.id, inc.pc.rest));
    case Abandon =>
      EndingIsOk(defs, s, p, inc, Failed);
      AtKeeps(defs, s, p, Ending(Failed));
    case MarkFailed(ok) => MarkFailedKeeps(defs, s, p, ok);
    case Compensate(found) => CompensateKeeps(defs, s, p, found);
    case MarkSucceeded(ok) => MarkSucceededKeeps(defs, s, p, ok);
    case Ask(a, ok) => AskKeeps(defs, s, p, a, ok);
    case Announce(ok) => AnnounceKeeps(defs, s, p, ok);
    case Check => CheckKeeps(defs, s, p);
    case GoOn(ok) => GoOnKeeps(defs, s, p, ok);
    case Save(ok) => SaveKeeps(defs, s, p, ok);
    case End(ok) => EndKeeps(defs, s, p, ok);
    case Crash =>
      GoneIsOk(defs, s, p, inc);
      AtKeeps(defs, s, p, Gone);
  }
}
