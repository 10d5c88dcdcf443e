/**
 * When a cancelled execution stays cancelled. The update of transitionExecution has no guard, so a call that is
 * past its load may still write its own status; this module says exactly which calls can.
 */
module Cancellation {
  import opened Prelude
  import opened Graph
  import opened Dag
  import opened StateMachine
  import opened Semantics
  import opened System
  import opened SystemInvariant
  import opened Safety
  import opened Reachability
  import opened Prospects

  // ----- where a call can write -----

  /** The retry loop can still end in a success. */
  predicate CanSucceed(defs: Defs, e: ExecId, id: string, made: nat) {
    made < Limit(defs, e, id) || (made == 0 && Limit(defs, e, id) <= 0)
  }

  predicate NotRejected(s: System, a: ApprovalId) {
    a in s.approvals && s.approvals[a].status != Rejected
  }

  /**
   * The places from which a call can still write a status other than cancelled: always before its first transition and
   * when it is to ask for an approval; while it remembers running, from a step it has begun; and otherwise when an
   * approval it waits for is not rejected or what lies ahead of it can make it write.
   */
  predicate MayOverwrite(defs: Defs, s: System, inc: Inc) {
    var e, done, running, taken := inc.exec, inc.completed, inc.status == Running, s.stepRows.Keys;
    match inc.pc
    case Acquired => false
    case Starting => true
    case Todo(todo) => Ahead(defs, taken, e, done, todo, running)
    case Inserting(id, rest) => running || ((e, id) !in taken && Ahead(defs, taken, e, done + {id}, rest, false))
    case Attempting(id, rest, made) =>
      running || (CanSucceed(defs, e, id, made) && Ahead(defs, taken, e, done + {id}, rest, false))
    case Succeeding(id, rest) => Ahead(defs, taken, e, done + {id}, rest, running)
    case Failing(_) => running
    case Compensating(_) => running
    case Asking(_, _) => true
    case Announcing(_, _, a) => running || NotRejected(s, a)
    case Waiting(id, rest, a) => NotRejected(s, a) && (!running || Ahead(defs, taken, e, done + {id}, rest, true))
    case Granted(id, rest) => !running || Ahead(defs, taken, e, done + {id}, rest, true)
    case Saving(rest) => Ahead(defs, taken, e, done, rest, running)
    case Ending(to) => running && to != Cancelled
    case Gone => false
  }

  // ----- the status in memory -----

  /** What the place of a call says about the status it remembers. */
  predicate StatusOk(inc: Inc) {
    && (inc.pc.Starting? ==> ValidTransition(inc.status, Running))
    && (HasBegun(inc.pc) ==> inc.status == Running || inc.status == WaitingApproval)
    && (inc.pc.Ending? ==> IsTerminalStatus(inc.pc.to))
  }

  ghost predicate StatusesOk(s: System) {
    forall p :: p in s.incs ==> StatusOk(s.incs[p])
  }

  /** What the moves of p leave alone: other calls, other rows, rows of steps and decisions. */
  ghost predicate OnlyMine(s: System, s': System, p: ProcId)
    requires p in s.incs
  {
    && s'.incs.Keys == s.incs.Keys && (forall q :: q in s.incs && q != p ==> s'.incs[q] == s.incs[q])
    && s'.incs[p].exec == s.incs[p].exec
    && s'.rows.Keys == s.rows.Keys && (forall e :: e in s.rows && e != s.incs[p].exec ==> s'.rows[e] == s.rows[e])
    && KeepsAnswers(s, s')
  }

  ghost predicate KeepsAnswers(s: System, s': System) {
    && s.stepRows.Keys <= s'.stepRows.Keys
    && forall a :: a in s.approvals ==>
         a in s'.approvals && (s.approvals[a].status == Rejected ==> s'.approvals[a].status == Rejected)
  }

  lemma MineItself(s: System, p: ProcId)
    requires p in s.incs
    ensures OnlyMine(s, s, p)
  {
  }

  lemma ThenAt(s: System, s1: System, p: ProcId, pc: Pc)
    requires p in s.incs && OnlyMine(s, s1, p) && p in s1.incs
    ensures var s' := At(s1, p, pc);
            && OnlyMine(s, s', p) && s'.incs[p] == s1.incs[p].(pc := pc) && s'.rows == s1.rows
            && s'.stepRows == s1.stepRows && s'.approvals == s1.approvals
  {
  }

  lemma ThenFinish(s: System, s1: System, p: ProcId, id: string, rest: seq<string>)
    requires p in s.incs && OnlyMine(s, s1, p) && p in s1.incs
    ensures var s', inc := Finish(s1, p, id, rest), s1.incs[p];
            && OnlyMine(s, s', p) && s'.incs[p] == inc.(completed := inc.completed + {id}, pc := Saving(rest))
            && s'.rows == s1.rows && s'.stepRows == s1.stepRows && s'.approvals == s1.approvals
  {
  }

  /** The status a transition leaves in memory and in the row. */
  function StatusAfter(before: Status, memory: Status, to: Status, ok: bool): Status {
    if ok && ValidTransition(memory, to) then to else before
  }

  lemma TransitionIsMine(s: System, p: ProcId, to: Status, ok: bool)
    requires p in s.incs && s.incs[p].exec in s.rows
    ensures var s', inc := Transition(s, p, to, ok), s.incs[p];
            && OnlyMine(s, s', p) && s'.stepRows == s.stepRows && s'.approvals == s.approvals
            && p in s'.incs && s'.incs[p] == inc.(status := StatusAfter(inc.status, inc.status, to, ok))
            && inc.exec in s'.rows
            && s'.rows[inc.exec].status == StatusAfter(s.rows[inc.exec].status, inc.status, to, ok)
  {
    hide ValidTransition;
  }

  // ----- a call that cannot overwrite a cancel never will -----

  /** The row of the call is cancelled, and the call cannot overwrite that. */
  predicate Harmless(defs: Defs, s: System, p: ProcId) {
    && p in s.incs && s.incs[p].exec in s.rows && StatusOk(s.incs[p])
    && s.rows[s.incs[p].exec].status == Cancelled && !MayOverwrite(defs, s, s.incs[p])
  }

  /** A move of p from s to s' keeps what is remembered in order, and a harmless call harmless. */
  ghost predicate KeepsHarmless(defs: Defs, s: System, s': System, p: ProcId)
    requires p in s.incs
  {
    && OnlyMine(s, s', p)
    && (StatusOk(s.incs[p]) ==> StatusOk(s'.incs[p]))
    && (Harmless(defs, s, p) ==> Harmless(defs, s', p))
  }

  /** What other tables than the answers hold plays no part. */
  lemma SamePlace(defs: Defs, s: System, s': System, inc: Inc)
    requires s'.stepRows.Keys == s.stepRows.Keys && s'.approvals == s.approvals
    ensures MayOverwrite(defs, s', inc) == MayOverwrite(defs, s, inc)
  {
    hide Ahead;
    hide CanSucceed;
  }

  lemma LoadStays(defs: Defs, s: System, p: ProcId, ok: bool)
    requires p in s.incs && s.incs[p].exec in s.rows && s.incs[p].pc.Acquired?
    ensures KeepsHarmless(defs, s, Moved(defs, s, p, Load(ok)), p)
  {
    hide DependenciesKnown;
  }

  lemma BeginStays(defs: Defs, s: System, p: ProcId, ok: bool)
    requires p in s.incs && s.incs[p].exec in s.rows && s.incs[p].pc.Starting?
    ensures KeepsHarmless(defs, s, Moved(defs, s, p, Begin(ok)), p)
  {
    hide Transition;
    hide At;
    hide OnlyMine;
    MineItself(s, p);
    ThenAt(s, s, p, Gone);
    TransitionIsMine(s, p, Running, ok);
    ThenAt(s, Transition(s, p, Running, ok), p, Todo([]));
  }

  /** A move that changes only the memory of p, as far as the status of the row and the answers go. */
  ghost predicate Goes(s: System, s': System, p: ProcId, inc': Inc)
    requires p in s.incs && s.incs[p].exec in s.rows
  {
    && OnlyMine(s, s', p) && p in s'.incs && s'.incs[p] == inc'
    && s.incs[p].exec in s'.rows && s'.rows[s.incs[p].exec].status == s.rows[s.incs[p].exec].status
    && s'.stepRows.Keys == s.stepRows.Keys && s'.approvals == s.approvals
  }

  /** From the first memory, the second is in order and no more harmful. */
  predicate Follows(defs: Defs, s: System, inc: Inc, inc': Inc) {
    StatusOk(inc) ==> StatusOk(inc') && (!MayOverwrite(defs, s, inc) ==> !MayOverwrite(defs, s, inc'))
  }

  lemma GoesOn(defs: Defs, s: System, s': System, p: ProcId, inc': Inc)
    requires p in s.incs && s.incs[p].exec in s.rows && Goes(s, s', p, inc') && Follows(defs, s, s.incs[p], inc')
    ensures KeepsHarmless(defs, s, s', p)
  {
    hide MayOverwrite;
    hide StatusOk;
    SamePlace(defs, s, s', inc');
  }

  lemma PlaceGoes(s: System, p: ProcId, pc: Pc)
    requires p in s.incs && s.incs[p].exec in s.rows
    ensures Goes(s, At(s, p, pc), p, s.incs[p].(pc := pc))
  {
    hide OnlyMine;
    MineItself(s, p);
    ThenAt(s, s, p, pc);
  }

  lemma ChooseStays(defs: Defs, s: System, p: ProcId, order: seq<string>)
    requires p in s.incs && s.incs[p].exec in s.rows && CanMove(defs, s, s.incs[p], Choose(order))
    ensures KeepsHarmless(defs, s, Moved(defs, s, p, Choose(order)), p)
  {
    hide At;
    hide Goes;
    hide KeepsHarmless;
    hide Ahead;
    hide NodesOf;
    hide GraphOf;
    var inc := s.incs[p];
    var pc := if order != [] then Todo(order)
              else Ending(if |inc.completed| == |NodesOf(defs.of(inc.exec))| then Succeeded else Failed);
    PlaceGoes(s, p, pc);
    ChosenFollows(defs, s, inc, order);
    hide Follows;
    GoesOn(defs, s, At(s, p, pc), p, inc.(pc := pc));
  }

  lemma ChosenFollows(defs: Defs, s: System, inc: Inc, order: seq<string>)
    requires inc.pc == Todo([]) && Elements(order) == Wave(GraphOf(defs.of(inc.exec)), inc.completed)
    ensures order != [] ==> Follows(defs, s, inc, inc.(pc := Todo(order)))
    ensures order == [] ==>
              Follows(defs, s, inc, inc.(pc := Ending(Succeeded))) && Follows(defs, s, inc, inc.(pc := Ending(Failed)))
  {
    hide GraphOf;
    hide Wave;
    var e, done, taken, running := inc.exec, inc.completed, s.stepRows.Keys, inc.status == Running;
    if order == [] {
      assert Wave(GraphOf(defs.of(e)), done) == {};
      assert Ahead(defs, taken, e, done, [], running) == running;
    } else if Ahead(defs, taken, e, done, order, running) {
      ChoiceOpensNothing(defs, taken, e, done, order, running);
    }
    hide Ahead;
  }

  /** Where a call can be after it has considered the next node. */
  predicate IsConsidered(defs: Defs, inc: Inc, inc': Inc)
    requires inc.pc.Todo? && inc.pc.todo != []
  {
    var e, id, rest := inc.exec, inc.pc.todo[0], inc.pc.todo[1..];
    || (IsStep(defs, e, id) && defs.can(e, id, ConditionError) && inc' == inc.(pc := Ending(Failed)))
    || inc' == inc.(pc := Gone)
    || (IsStep(defs, e, id) && defs.can(e, id, Proceed) && inc' == inc.(pc := Inserting(id, rest)))
    || (IsApproval(defs, e, id) && defs.can(e, id, Proceed) && inc' == inc.(pc := Asking(id, rest)))
    || (defs.can(e, id, Skip) && inc' == inc.(completed := inc.completed + {id}, pc := Saving(rest)))
  }

  lemma ConsiderGoes(defs: Defs, s: System, p: ProcId, condition: Condition) returns (inc': Inc)
    requires p in s.incs && s.incs[p].exec in s.rows && CanMove(defs, s, s.incs[p], Consider(condition))
    ensures IsConsidered(defs, s.incs[p], inc') && Goes(s, Moved(defs, s, p, Consider(condition)), p, inc')
  {
    hide At;
    hide Finish;
    hide OnlyMine;
    hide NodesOf;
    var inc := s.incs[p];
    var e, id, rest := inc.exec, inc.pc.todo[0], inc.pc.todo[1..];
    BeganIsMine(s, p, id);
    var s1 := s.(started := s.started + {(e, id)});
    match condition {
      case ConditionError =>
        ThenAt(s, s1, p, Ending(Failed));
        ThenAt(s, s1, p, Gone);
      case Skip =>
        ThenFinish(s, s1, p, id, rest);
        ThenFinish(s, s1.(waived := s1.waived + {(e, id)}), p, id, rest);
      case Proceed =>
        ThenAt(s, s1, p, Inserting(id, rest));
        ThenAt(s, s1, p, Asking(id, rest));
    }
    inc' := Moved(defs, s, p, Consider(condition)).incs[p];
  }

  lemma ConsideredFollows(defs: Defs, s: System, inc: Inc, inc': Inc)
    requires inc.pc.Todo? && inc.pc.todo != [] && IsConsidered(defs, inc, inc')
    requires inc.pc.todo[0] in Wave(GraphOf(defs.of(inc.exec)), inc.completed)
    ensures Follows(defs, s, inc, inc')
  {
    var e, id := inc.exec, inc.pc.todo[0];
    assert id in GraphOf(defs.of(e)).ids && id !in inc.completed;
    assert IsStep(defs, e, id) ==> !IsApproval(defs, e, id);
    hide GraphOf;
    hide Wave;
    hide IsStep;
    hide IsApproval;
  }

  lemma ConsiderStays(defs: Defs, s: System, p: ProcId, condition: Condition)
    requires p in s.incs && s.incs[p].exec in s.rows && CanMove(defs, s, s.incs[p], Consider(condition))
    requires s.incs[p].pc.todo[0] in Wave(GraphOf(defs.of(s.incs[p].exec)), s.incs[p].completed)
    ensures KeepsHarmless(defs, s, Moved(defs, s, p, Consider(condition)), p)
  {
    hide Goes;
    hide Follows;
    hide KeepsHarmless;
    hide IsConsidered;
    hide Moved;
    hide Wave;
    hide GraphOf;
    var inc' := ConsiderGoes(defs, s, p, condition);
    ConsideredFollows(defs, s, s.incs[p], inc');
    GoesOn(defs, s, Moved(defs, s, p, Consider(condition)), p, inc');
  }

  lemma BeganIsMine(s: System, p: ProcId, id: string)
    requires p in s.incs
    ensures var key := (s.incs[p].exec, id);
            && OnlyMine(s, s.(started := s.started + {key}), p)
            && OnlyMine(s, s.(started := s.started + {key}).(waived := s.waived + {key}), p)
  {
  }

  lemma InsertStays(defs: Defs, s: System, p: ProcId, ok: bool)
    requires p in s.incs && s.incs[p].exec in s.rows && s.incs[p].pc.Inserting?
    ensures KeepsHarmless(defs, s, Moved(defs, s, p, InsertRow(ok)), p)
  {
    hide At;
    hide OnlyMine;
    hide Ahead;
    var inc := s.incs[p];
    var key := (inc.exec, inc.pc.id);
    MineItself(s, p);
    ThenAt(s, s, p, Ending(Failed));
    InsertedIsMine(s, p, key);
    FewerAhead(defs, s.stepRows.Keys, s.stepRows.Keys + {key}, inc.exec);
    var s1 := s.(stepRows := s.stepRows[key := StepRow(p, RowRunning)]);
    assert s1.stepRows.Keys == s.stepRows.Keys + {key};
    ThenAt(s, s1, p, Attempting(inc.pc.id, inc.pc.rest, 0));
  }

  lemma FewerAhead(defs: Defs, taken: set<(ExecId, string)>, more: set<(ExecId, string)>, e: ExecId)
    requires taken <= more
    ensures forall done, todo, running ::
              Ahead(defs, more, e, done, todo, running) ==> Ahead(defs, taken, e, done, todo, running)
  {
    hide Ahead;
    forall done, todo, running | Ahead(defs, more, e, done, todo, running)
      ensures Ahead(defs, taken, e, done, todo, running)
    {
      AheadShrinks(defs, taken, more, e, done, todo, running);
    }
  }

  lemma InsertedIsMine(s: System, p: ProcId, key: (ExecId, string))
    requires p in s.incs
    ensures OnlyMine(s, s.(stepRows := s.stepRows[key := StepRow(p, RowRunning)]), p)
  {
  }

  lemma CountsAreFree(s: System, p: ProcId, calls: multiset<RunnerCall>, compensations: multiset<RunnerCall>)
    requires p in s.incs
    ensures OnlyMine(s, s.(calls := calls), p) && OnlyMine(s, s.(compensations := compensations), p)
  {
  }

  lemma AttemptStays(defs: Defs, s: System, p: ProcId, success: bool)
    requires p in s.incs && s.incs[p].exec in s.rows && CanMove(defs, s, s.incs[p], Attempt(success))
    ensures KeepsHarmless(defs, s, Moved(defs, s, p, Attempt(success)), p)
  {
    hide At;
    hide OnlyMine;
    hide KeepsHarmless;
    hide Ahead;
    hide Limit;
    var inc := s.incs[p];
    var id, rest, made := inc.pc.id, inc.pc.rest, inc.pc.made + 1;
    var s1 := s.(calls := s.calls + multiset{RunnerCall(inc.exec, id, p)});
    CountsAreFree(s, p, s1.calls, s.compensations);
    var pc := if success then Succeeding(id, rest)
              else if made < Limit(defs, inc.exec, id) then Attempting(id, rest, made)
              else Failing(id);
    ThenAt(s, s1, p, pc);
    GoesOn(defs, s, At(s1, p, pc), p, inc.(pc := pc));
  }

  lemma NoAttemptsStays(defs: Defs, s: System, p: ProcId)
    requires p in s.incs && s.incs[p].exec in s.rows && CanMove(defs, s, s.incs[p], NoAttempts)
    ensures KeepsHarmless(defs, s, Moved(defs, s, p, NoAttempts), p)
  {
    hide At;
    hide Goes;
    hide KeepsHarmless;
    hide Ahead;
    hide Limit;
    var inc := s.incs[p];
    PlaceGoes(s, p, Succeeding(inc.pc.id, inc.pc.rest));
    GoesOn(defs, s, At(s, p, Succeeding(inc.pc.id, inc.pc.rest)), p, inc.(pc := Succeeding(inc.pc.id, inc.pc.rest)));
  }

  lemma LeavesStay(defs: Defs, s: System, p: ProcId)
    requires p in s.incs && s.incs[p].exec in s.rows
    ensures KeepsHarmless(defs, s, Moved(defs, s, p, Crash), p)
    ensures s.incs[p].pc.Attempting? ==> KeepsHarmless(defs, s, Moved(defs, s, p, Abandon), p)
  {
    hide At;
    hide Goes;
    hide KeepsHarmless;
    hide Ahead;
    hide CanSucceed;
    PlaceGoes(s, p, Gone);
    GoesOn(defs, s, At(s, p, Gone), p, s.incs[p].(pc := Gone));
    if s.incs[p].pc.Attempting? {
      PlaceGoes(s, p, Ending(Failed));
      GoesOn(defs, s, At(s, p, Ending(Failed)), p, s.incs[p].(pc := Ending(Failed)));
    }
  }

  lemma MarkIsMine(s: System, p: ProcId, id: string, status: StepRowStatus, ok: bool)
    requires p in s.incs
    ensures var s1 := Marked(s, s.incs[p].exec, id, status, ok);
            && OnlyMine(s, s1, p) && s1.stepRows.Keys == s.stepRows.Keys && s1.incs == s.incs && s1.rows == s.rows
            && s1.approvals == s.approvals
  {
  }

  lemma MarkFailedStays(defs: Defs, s: System, p: ProcId, ok: bool)
    requires p in s.incs && s.incs[p].exec in s.rows && s.incs[p].pc.Failing?
    ensures KeepsHarmless(defs, s, Moved(defs, s, p, MarkFailed(ok)), p)
  {
    hide At;
    hide OnlyMine;
    hide KeepsHarmless;
    hide Marked;
    hide HasCompensation;
    var inc := s.incs[p];
    MarkIsMine(s, p, inc.pc.id, RowFailed, ok);
    var s1 := Marked(s, inc.exec, inc.pc.id, RowFailed, ok);
    var pc := if HasCompensation(defs, inc.exec, inc.pc.id) then Compensating(inc.pc.id) else Ending(Failed);
    ThenAt(s, s1, p, pc);
    GoesOn(defs, s, At(s1, p, pc), p, inc.(pc := pc));
  }

  lemma CompensateStays(defs: Defs, s: System, p: ProcId, found: bool)
    requires p in s.incs && s.incs[p].exec in s.rows && s.incs[p].pc.Compensating?
    ensures KeepsHarmless(defs, s, Moved(defs, s, p, Compensate(found)), p)
  {
    hide At;
    hide OnlyMine;
    hide KeepsHarmless;
    var inc := s.incs[p];
    var s1 := if found then s.(compensations := s.compensations + multiset{RunnerCall(inc.exec, inc.pc.id, p)}) else s;
    MineItself(s, p);
    CountsAreFree(s, p, s.calls, s1.compensations);
    ThenAt(s, s1, p, Ending(Failed));
    GoesOn(defs, s, At(s1, p, Ending(Failed)), p, inc.(pc := Ending(Failed)));
  }

  lemma MarkSucceededStays(defs: Defs, s: System, p: ProcId, ok: bool)
    requires p in s.incs && s.incs[p].exec in s.rows && s.incs[p].pc.Succeeding?
    ensures KeepsHarmless(defs, s, Moved(defs, s, p, MarkSucceeded(ok)), p)
  {
    hide Finish;
    hide OnlyMine;
    hide KeepsHarmless;
    hide Marked;
    hide Wave;
    hide Ahead;
    var inc := s.incs[p];
    MarkIsMine(s, p, inc.pc.id, RowSucceeded, ok);
    var s1 := Marked(s, inc.exec, inc.pc.id, RowSucceeded, ok);
    ThenFinish(s, s1, p, inc.pc.id, inc.pc.rest);
    GoesOn(defs, s, Finish(s1, p, inc.pc.id, inc.pc.rest), p,
           inc.(completed := inc.completed + {inc.pc.id}, pc := Saving(inc.pc.rest)));
  }

  lemma AskStays(defs: Defs, s: System, p: ProcId, a: ApprovalId, ok: bool)
    requires p in s.incs && s.incs[p].exec in s.rows && CanMove(defs, s, s.incs[p], Ask(a, ok))
    ensures KeepsHarmless(defs, s, Moved(defs, s, p, Ask(a, ok)), p)
  {
    hide At;
    hide OnlyMine;
    var inc := s.incs[p];
    var row := ApprovalRow(inc.exec, inc.pc.id, s.rows[inc.exec].tenant, Undecided);
    MineItself(s, p);
    ThenAt(s, s, p, Gone);
    AskedIsMine(s, p, a, row);
    ThenAt(s, s.(approvals := s.approvals[a := row]), p, Announcing(inc.pc.id, inc.pc.rest, a));
  }

  lemma AskedIsMine(s: System, p: ProcId, a: ApprovalId, row: ApprovalRow)
    requires p in s.incs && a !in s.approvals
    ensures OnlyMine(s, s.(approvals := s.approvals[a := row]), p)
  {
  }

  lemma AnnouncedFollows(defs: Defs, s: System, inc: Inc, ok: bool)
    requires inc.pc.Announcing? && StatusOk(inc)
    ensures var status := StatusAfter(inc.status, inc.status, WaitingApproval, ok);
            var inc' := inc.(status := status, pc := Waiting(inc.pc.id, inc.pc.rest, inc.pc.approval));
            && StatusOk(inc')
            && (!MayOverwrite(defs, s, inc) ==>
                  !MayOverwrite(defs, s, inc') && StatusAfter(Cancelled, inc.status, WaitingApproval, ok) == Cancelled)
  {
    hide Ahead;
  }

  lemma AnnounceStays(defs: Defs, s: System, p: ProcId, ok: bool)
    requires p in s.incs && s.incs[p].exec in s.rows && s.incs[p].pc.Announcing?
    ensures KeepsHarmless(defs, s, Moved(defs, s, p, Announce(ok)), p)
  {
    hide At;
    hide Transition;
    hide OnlyMine;
    hide MayOverwrite;
    hide StatusOk;
    hide StatusAfter;
    var pc := Waiting(s.incs[p].pc.id, s.incs[p].pc.rest, s.incs[p].pc.approval);
    TransitionIsMine(s, p, WaitingApproval, ok);
    ThenAt(s, Transition(s, p, WaitingApproval, ok), p, pc);
    var s' := Moved(defs, s, p, Announce(ok));
    assert s' == At(Transition(s, p, WaitingApproval, ok), p, pc);
    hide Moved;
    if StatusOk(s.incs[p]) {
      AnnouncedFollows(defs, s, s.incs[p], ok);
      SamePlace(defs, s, s', s'.incs[p]);
    }
  }

  lemma CheckedFollows(defs: Defs, s: System, inc: Inc)
    requires inc.pc.Waiting? && inc.pc.approval in s.approvals
    ensures Follows(defs, s, inc, inc)
    ensures s.approvals[inc.pc.approval].status == Approved ==>
              Follows(defs, s, inc, inc.(pc := Granted(inc.pc.id, inc.pc.rest)))
    ensures Follows(defs, s, inc, inc.(pc := Ending(Cancelled)))
  {
    hide Ahead;
  }

  lemma CheckStays(defs: Defs, s: System, p: ProcId)
    requires p in s.incs && s.incs[p].exec in s.rows && CanMove(defs, s, s.incs[p], Check)
    ensures KeepsHarmless(defs, s, Moved(defs, s, p, Check), p)
  {
    hide At;
    hide Goes;
    hide Follows;
    hide KeepsHarmless;
    var inc := s.incs[p];
    CheckedFollows(defs, s, inc);
    match s.approvals[inc.pc.approval].status
    case Undecided =>
      NothingGoes(s, p);
      GoesOn(defs, s, s, p, inc);
    case Approved =>
      PlaceGoes(s, p, Granted(inc.pc.id, inc.pc.rest));
      GoesOn(defs, s, At(s, p, Granted(inc.pc.id, inc.pc.rest)), p, inc.(pc := Granted(inc.pc.id, inc.pc.rest)));
    case Rejected =>
      PlaceGoes(s, p, Ending(Cancelled));
      GoesOn(defs, s, At(s, p, Ending(Cancelled)), p, inc.(pc := Ending(Cancelled)));
  }

  lemma NothingGoes(s: System, p: ProcId)
    requires p in s.incs && s.incs[p].exec in s.rows
    ensures Goes(s, s, p, s.incs[p])
  {
  }

  lemma GrantedFollows(defs: Defs, s: System, inc: Inc, ok: bool)
    requires inc.pc.Granted? && StatusOk(inc)
    ensures var id, status := inc.pc.id, StatusAfter(inc.status, inc.status, Running, ok);
            var inc' := inc.(status := status, completed := inc.completed + {id}, pc := Saving(inc.pc.rest));
            && StatusOk(inc')
            && (!MayOverwrite(defs, s, inc) ==>
                  !MayOverwrite(defs, s, inc') && StatusAfter(Cancelled, inc.status, Running, ok) == Cancelled)
  {
    hide Ahead;
  }

  lemma GoOnStays(defs: Defs, s: System, p: ProcId, ok: bool)
    requires p in s.incs && s.incs[p].exec in s.rows && s.incs[p].pc.Granted?
    ensures KeepsHarmless(defs, s, Moved(defs, s, p, GoOn(ok)), p)
  {
    hide Finish;
    hide Transition;
    hide OnlyMine;
    hide MayOverwrite;
    hide StatusOk;
    hide StatusAfter;
    var inc := s.incs[p];
    TransitionIsMine(s, p, Running, ok);
    ThenFinish(s, Transition(s, p, Running, ok), p, inc.pc.id, inc.pc.rest);
    var s' := Moved(defs, s, p, GoOn(ok));
    assert s' == Finish(Transition(s, p, Running, ok), p, inc.pc.id, inc.pc.rest);
    hide Moved;
    if StatusOk(inc) {
      GrantedFollows(defs, s, inc, ok);
      SamePlace(defs, s, s', s'.incs[p]);
    }
  }

  lemma SavedFollows(defs: Defs, s: System, inc: Inc)
    requires inc.pc.Saving?
    ensures Follows(defs, s, inc, inc.(pc := Todo(inc.pc.rest)))
  {
    hide Ahead;
  }

  lemma SaveStays(defs: Defs, s: System, p: ProcId, ok: bool)
    requires p in s.incs && s.incs[p].exec in s.rows && s.incs[p].pc.Saving?
    ensures KeepsHarmless(defs, s, Moved(defs, s, p, Save(ok)), p)
  {
    hide At;
    hide OnlyMine;
    hide KeepsHarmless;
    hide Follows;
    var inc := s.incs[p];
    var s1 := if ok then s.(rows := s.rows[inc.exec := s.rows[inc.exec].(checkpoint := Some(inc.completed))]) else s;
    SavedIsMine(s, p, inc.completed);
    MineItself(s, p);
    ThenAt(s, s1, p, Todo(inc.pc.rest));
    assert Moved(defs, s, p, Save(ok)) == At(s1, p, Todo(inc.pc.rest));
    hide Moved;
    SavedFollows(defs, s, inc);
    GoesOn(defs, s, At(s1, p, Todo(inc.pc.rest)), p, inc.(pc := Todo(inc.pc.rest)));
  }

  lemma SavedIsMine(s: System, p: ProcId, done: set<string>)
    requires p in s.incs && s.incs[p].exec in s.rows
    ensures var e := s.incs[p].exec; OnlyMine(s, s.(rows := s.rows[e := s.rows[e].(checkpoint := Some(done))]), p)
  {
  }

  lemma EndedFollows(defs: Defs, s: System, inc: Inc, ok: bool)
    requires inc.pc.Ending? && StatusOk(inc)
    ensures var inc' := inc.(status := StatusAfter(inc.status, inc.status, inc.pc.to, ok), pc := Gone);
            && StatusOk(inc') && !MayOverwrite(defs, s, inc')
            && (!MayOverwrite(defs, s, inc) ==> StatusAfter(Cancelled, inc.status, inc.pc.to, ok) == Cancelled)
  {
  }

  lemma EndStays(defs: Defs, s: System, p: ProcId, ok: bool)
    requires p in s.incs && s.incs[p].exec in s.rows && s.incs[p].pc.Ending?
    ensures KeepsHarmless(defs, s, Moved(defs, s, p, End(ok)), p)
  {
    hide At;
    hide Transition;
    hide OnlyMine;
    hide MayOverwrite;
    hide StatusOk;
    hide StatusAfter;
    var to := s.incs[p].pc.to;
    TransitionIsMine(s, p, to, ok);
    ThenAt(s, Transition(s, p, to, ok), p, Gone);
    var s' := Moved(defs, s, p, End(ok));
    assert s' == At(Transition(s, p, to, ok), p, Gone);
    hide Moved;
    if StatusOk(s.incs[p]) {
      EndedFollows(defs, s, s.incs[p], ok);
      SamePlace(defs, s, s', s'.incs[p]);
    }
  }

  // ----- all moves and all actions -----

  /** The node a call works on is one of those that are ready. */
  lemma WorksOnReady(defs: Defs, s: System, p: ProcId)
    requires p in s.incs && IncOk(defs, s, p, s.incs[p])
    ensures var inc := s.incs[p];
            Remaining(inc.pc) != [] ==> Remaining(inc.pc)[0] in Wave(GraphOf(defs.of(inc.exec)), inc.completed)
  {
    hide Sound;
    hide PlaceOk;
    hide GraphOf;
    var inc := s.incs[p];
    if Remaining(inc.pc) != [] {
      assert Remaining(inc.pc)[0] in Remaining(inc.pc);
    }
  }

  lemma MovesStay(defs: Defs, s: System, p: ProcId, m: Move)
    requires p in s.incs && s.incs[p].exec in s.rows && IncOk(defs, s, p, s.incs[p]) && CanMove(defs, s, s.incs[p], m)
    ensures KeepsHarmless(defs, s, Moved(defs, s, p, m), p)
  {
    hide IncOk;
    hide Moved;
    hide KeepsHarmless;
    hide Wave;
    hide GraphOf;
    hide NodesOf;
    hide Limit;
    WorksOnReady(defs, s, p);
    match m
    case Load(ok) => LoadStays(defs, s, p, ok);
    case Begin(ok) => BeginStays(defs, s, p, ok);
    case Choose(order) => ChooseStays(defs, s, p, order);
    case Consider(condition) => ConsiderStays(defs, s, p, condition);
    case InsertRow(ok) => InsertStays(defs, s, p, ok);
    case Attempt(success) => AttemptStays(defs, s, p, success);
    case NoAttempts => NoAttemptsStays(defs, s, p);
    case Abandon => LeavesStay(defs, s, p);
    case MarkFailed(ok) => MarkFailedStays(defs, s, p, ok);
    case Compensate(found) => CompensateStays(defs, s, p, found);
    case MarkSucceeded(ok) => MarkSucceededStays(defs, s, p, ok);
    case Ask(a, ok) => AskStays(defs, s, p, a, ok);
    case Announce(ok) => AnnounceStays(defs, s, p, ok);
    case Check => CheckStays(defs, s, p);
    case GoOn(ok) => GoOnStays(defs, s, p, ok);
    case Save(ok) => SaveStays(defs, s, p, ok);
    case End(ok) => EndStays(defs, s, p, ok);
    case Crash => LeavesStay(defs, s, p);
  }

  /** The row is cancelled, and no call of the execution can overwrite that. */
  ghost predicate CancelHolds(defs: Defs, s: System, e: ExecId) {
    && e in s.rows && s.rows[e].status == Cancelled
    && forall p :: p in s.incs && s.incs[p].exec == e ==> !MayOverwrite(defs, s, s.incs[p])
  }

  /** What others do makes no call harmful. */
  lemma OthersStayHarmless(defs: Defs, s: System, s': System, p: ProcId, inc: Inc)
    requires KeepsAnswers(s, s') && IncOk(defs, s, p, inc) && !MayOverwrite(defs, s, inc)
    ensures !MayOverwrite(defs, s', inc)
  {
    hide Ahead;
    hide CanSucceed;
    hide Sound;
    hide AllReady;
    FewerAhead(defs, s.stepRows.Keys, s'.stepRows.Keys, inc.exec);
  }

  lemma MoveHolds(defs: Defs, s: System, p: ProcId, m: Move, e: ExecId)
    requires Inv(defs, s) && StatusesOk(s) && Enabled(defs, s, Moves(p, m)) && CancelHolds(defs, s, e)
    ensures CancelHolds(defs, Moved(defs, s, p, m), e)
  {
    hide SharedOk;
    hide IncOk;
    hide MayOverwrite;
    hide StatusOk;
    MovesStay(defs, s, p, m);
    var s' := Moved(defs, s, p, m);
    hide Moved;
    forall q | q in s'.incs && s'.incs[q].exec == e
      ensures !MayOverwrite(defs, s', s'.incs[q])
    {
      if q != p {
        OthersStayHarmless(defs, s, s', q, s.incs[q]);
      }
    }
  }

  /** Actions that touch no call and no cancelled status. */
  lemma SharedHolds(defs: Defs, s: System, s': System, e: ExecId)
    requires Inv(defs, s) && CancelHolds(defs, s, e) && KeepsAnswers(s, s') && s'.incs == s.incs
    requires e in s'.rows && s'.rows[e].status == Cancelled
    ensures CancelHolds(defs, s', e)
  {
    hide SharedOk;
    hide IncOk;
    hide MayOverwrite;
    hide KeepsAnswers;
    forall q | q in s'.incs && s'.incs[q].exec == e
      ensures !MayOverwrite(defs, s', s'.incs[q])
    {
      OthersStayHarmless(defs, s, s', q, s.incs[q]);
    }
  }

  /** No other action than acquiring and moving touches calls or takes answers back. */
  lemma OtherAnswers(defs: Defs, s: System, a: Action)
    requires !a.Moves? && !a.Acquire?
    ensures Apply(defs, s, a).incs == s.incs && KeepsAnswers(s, Apply(defs, s, a))
  {
    hide Moved;
    hide KeepsAnswers;
    if a.Decide? {
      DecisionsStay(s, a.approval, a.tenant, a.decision);
    } else {
      SameAnswers(s, Apply(defs, s, a));
    }
  }

  /** None of them revives a cancelled row. */
  lemma OtherRows(defs: Defs, s: System, a: Action, e: ExecId)
    requires Enabled(defs, s, a) && !a.Moves? && !a.Acquire? && e in s.rows && s.rows[e].status == Cancelled
    ensures e in Apply(defs, s, a).rows && Apply(defs, s, a).rows[e].status == Cancelled
  {
    hide Moved;
    hide CanMove;
  }

  lemma DecisionsStay(s: System, a: ApprovalId, tenant: TenantId, d: Decision)
    ensures KeepsAnswers(s, s)
    ensures a in s.approvals ==>
              KeepsAnswers(s, s.(approvals := s.approvals[a := DecideRow(s.approvals[a], tenant, d)]))
  {
  }

  lemma SameAnswers(s: System, s': System)
    requires s'.stepRows == s.stepRows && s'.approvals == s.approvals
    ensures KeepsAnswers(s, s')
  {
  }

  lemma ActionHolds(defs: Defs, s: System, a: Action, e: ExecId)
    requires Inv(defs, s) && StatusesOk(s) && Enabled(defs, s, a) && CancelHolds(defs, s, e)
    ensures CancelHolds(defs, Apply(defs, s, a), e)
  {
    hide Inv;
    hide CanMove;
    hide Moved;
    hide MayOverwrite;
    hide KeepsAnswers;
    if a.Moves? {
      MoveHolds(defs, s, a.proc, a.move, e);
    } else if a.Acquire? {
      AcquireHolds(defs, s, a.proc, a.node, a.exec, e);
    } else {
      OtherAnswers(defs, s, a);
      OtherRows(defs, s, a, e);
      hide Apply;
      SharedHolds(defs, s, Apply(defs, s, a), e);
    }
  }

  lemma AcquireHolds(defs: Defs, s: System, p: ProcId, n: NodeId, x: ExecId, e: ExecId)
    requires Inv(defs, s) && Enabled(defs, s, Acquire(p, n, x)) && CancelHolds(defs, s, e)
    ensures CancelHolds(defs, Apply(defs, s, Acquire(p, n, x)), e)
  {
    hide Inv;
    hide Ahead;
    hide CanSucceed;
    var s1 := s.(rows := s.rows[x := s.rows[x].(node := Some(n))]);
    SharedHolds(defs, s, s1, e);
    var s' := Apply(defs, s, Acquire(p, n, x));
    forall q | q in s'.incs && s'.incs[q].exec == e
      ensures !MayOverwrite(defs, s', s'.incs[q])
    {
      if q != p {
        SamePlace(defs, s1, s', s1.incs[q]);
      }
    }
  }

  lemma ActionKeepsStatuses(defs: Defs, s: System, a: Action)
    requires Inv(defs, s) && StatusesOk(s) && Enabled(defs, s, a)
    ensures StatusesOk(Apply(defs, s, a))
  {
    hide IncOk;
    hide SharedOk;
    hide CanMove;
    hide Moved;
    if a.Moves? {
      MovesStay(defs, s, a.proc, a.move);
    } else if a.Acquire? {
    } else {
      OtherAnswers(defs, s, a);
    }
  }

  lemma {:induction false} RunsKeepStatuses(defs: Defs, actions: seq<Action>)
    requires IsRun(defs, actions)
    ensures StatusesOk(After(defs, actions))
    decreases |actions|
  {
    hide Enabled;
    hide Apply;
    hide StatusOk;
    if actions != [] {
      var front := actions[..|actions| - 1];
      RunsKeepInv(defs, front);
      RunsKeepStatuses(defs, front);
      hide Inv;
      hide StatusesOk;
      ActionKeepsStatuses(defs, After(defs, front), actions[|actions| - 1]);
    }
  }

  lemma {:induction false} RunsHold(defs: Defs, s: System, actions: seq<Action>, e: ExecId)
    requires Inv(defs, s) && StatusesOk(s) && CanRun(defs, s, actions) && CancelHolds(defs, s, e)
    ensures CancelHolds(defs, ApplyAll(defs, s, actions), e)
    decreases |actions|
  {
    hide Inv;
    hide Apply;
    hide Enabled;
    hide CancelHolds;
    hide StatusesOk;
    if actions != [] {
      ActionKeepsInv(defs, s, actions[0]);
      ActionKeepsStatuses(defs, s, actions[0]);
      ActionHolds(defs, s, actions[0], e);
      RunsHold(defs, Apply(defs, s, actions[0]), actions[1..], e);
    }
  }
}
