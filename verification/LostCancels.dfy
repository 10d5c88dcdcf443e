/**
 * The other half: from every place from which a call may overwrite a cancel some continuation does; so a cancel is
 * final exactly when there is no such call. And a run that loses a cancel.
 */
module LostCancels {
  import opened Prelude
  import opened Model
  import opened Graph
  import opened Dag
  import opened StateMachine
  import opened Evaluator
  import opened Semantics
  import opened System
  import opened SystemInvariant
  import opened Safety
  import opened Reachability
  import opened Prospects
  import opened Cancellation

  /** Some continuation gives the row of e another status than cancelled. */
  ghost predicate CanBeOverwritten(defs: Defs, s: System, e: ExecId) {
    exists s' :: Reaches(defs, s, s') && e in s'.rows && s'.rows[e].status != Cancelled
  }

  lemma FirstThis(defs: Defs, s: System, a: Action, e: ExecId)
    requires Enabled(defs, s, a) && CanBeOverwritten(defs, Apply(defs, s, a), e)
    ensures CanBeOverwritten(defs, s, e)
  {
    hide Apply;
    hide Enabled;
    hide Reaches;
    var s1 := Apply(defs, s, a);
    ReachesByOne(defs, s, a);
    var s' :| Reaches(defs, s1, s') && e in s'.rows && s'.rows[e].status != Cancelled;
    ReachesOn(defs, s, s1, s');
  }

  lemma FirstMove(defs: Defs, s: System, p: ProcId, m: Move, e: ExecId)
    requires p in s.incs && s.incs[p].exec in s.rows && CanMove(defs, s, s.incs[p], m)
    requires CanBeOverwritten(defs, Moved(defs, s, p, m), e)
    ensures CanBeOverwritten(defs, s, e)
  {
    hide Moved;
    hide CanMove;
    hide CanBeOverwritten;
    FirstThis(defs, s, Moves(p, m), e);
  }

  lemma AlreadyWritten(defs: Defs, s: System, e: ExecId)
    requires e in s.rows && s.rows[e].status != Cancelled
    ensures CanBeOverwritten(defs, s, e)
  {
    hide Reaches;
    ReachesItself(defs, s);
  }

  lemma {:induction false} FromEnding(defs: Defs, s: System, p: ProcId, e: ExecId, done: set<string>, to: Status)
    requires Stands(s, p, e, Running, done, Ending(to)) && (to == Succeeded || to == Failed)
    ensures CanBeOverwritten(defs, s, e)
  {
    hide CanBeOverwritten;
    FirstMoveWrites(defs, s, p, e, End(true));
  }

  /** The next move writes another status. */
  lemma FirstMoveWrites(defs: Defs, s: System, p: ProcId, e: ExecId, m: Move)
    requires p in s.incs && s.incs[p].exec == e && e in s.rows && CanMove(defs, s, s.incs[p], m)
    requires e in Moved(defs, s, p, m).rows && Moved(defs, s, p, m).rows[e].status != Cancelled
    ensures CanBeOverwritten(defs, s, e)
  {
    hide Moved;
    hide CanMove;
    hide CanBeOverwritten;
    AlreadyWritten(defs, Moved(defs, s, p, m), e);
    FirstMove(defs, s, p, m, e);
  }

  lemma {:induction false} FromBroken(defs: Defs, s: System, p: ProcId, e: ExecId, done: set<string>, pc: Pc)
    requires Stands(s, p, e, Running, done, pc) && (pc.Inserting? || pc.Attempting? || pc.Compensating?)
    ensures CanBeOverwritten(defs, s, e)
  {
    hide CanBeOverwritten;
    var m := if pc.Inserting? then InsertRow(false) else if pc.Attempting? then Abandon else Compensate(false);
    var s1 := Moved(defs, s, p, m);
    assert Stands(s1, p, e, Running, done, Ending(Failed));
    FromEnding(defs, s1, p, e, done, Failed);
    FirstMove(defs, s, p, m, e);
  }

  lemma {:induction false} FromFailing(defs: Defs, s: System, p: ProcId, e: ExecId, done: set<string>, id: string)
    requires Stands(s, p, e, Running, done, Failing(id))
    ensures CanBeOverwritten(defs, s, e)
  {
    hide CanBeOverwritten;
    hide HasCompensation;
    var s1 := Moved(defs, s, p, MarkFailed(false));
    if HasCompensation(defs, e, id) {
      assert Stands(s1, p, e, Running, done, Compensating(id));
      FromBroken(defs, s1, p, e, done, Compensating(id));
    } else {
      assert Stands(s1, p, e, Running, done, Ending(Failed));
      FromEnding(defs, s1, p, e, done, Failed);
    }
    FirstMove(defs, s, p, MarkFailed(false), e);
  }

  /** A call that remembers running announces the next approval that it asks for. */
  lemma {:induction false} FromAsking(
      defs: Defs, s: System, p: ProcId, e: ExecId, done: set<string>, id: string, rest: seq<string>)
    requires Stands(s, p, e, Running, done, Asking(id, rest))
    ensures CanBeOverwritten(defs, s, e)
  {
    hide CanBeOverwritten;
    var a := FreshApproval(s.approvals.Keys);
    var s1 := Moved(defs, s, p, Ask(a, true));
    assert Stands(s1, p, e, Running, done, Announcing(id, rest, a));
    FirstMoveWrites(defs, s1, p, e, Announce(true));
    FirstMove(defs, s, p, Ask(a, true), e);
  }

  // ----- going through the nodes -----

  lemma ChoiceOf(
      defs: Defs, s: System, p: ProcId, e: ExecId, status: Status, done: set<string>, order: seq<string>)
    requires Stands(s, p, e, status, done, Todo([]))
    requires NoDuplicates(order) && Elements(order) == Wave(GraphOf(defs.of(e)), done)
    ensures CanMove(defs, s, s.incs[p], Choose(order))
    ensures var s' := Moved(defs, s, p, Choose(order));
            && s'.stepRows == s.stepRows
            && if order != [] then Stands(s', p, e, status, done, Todo(order))
               else Stands(s', p, e, status, done, Ending(Succeeded)) || Stands(s', p, e, status, done, Ending(Failed))
  {
    hide GraphOf;
    hide NodesOf;
  }

  /** Where the verdict on the next node leads. */
  lemma {:induction false} NextOf(
      defs: Defs, s: System, p: ProcId, e: ExecId, status: Status, done: set<string>, id: string, rest: seq<string>,
      c: Condition)
    requires Stands(s, p, e, status, done, Todo([id] + rest)) && id in NodesOf(defs.of(e)) && defs.can(e, id, c)
    requires !c.Skip?
    ensures CanMove(defs, s, s.incs[p], Consider(c)) && Moved(defs, s, p, Consider(c)).stepRows == s.stepRows
    ensures Stands(Moved(defs, s, p, Consider(c)), p, e, status, done,
                   if IsApproval(defs, e, id) then (if c.Proceed? then Asking(id, rest) else Gone)
                   else if c.Proceed? then Inserting(id, rest) else Ending(Failed))
  {
    hide NodesOf;
    hide Finish;
    hide At;
    assert ([id] + rest)[1..] == rest;
    var s1 := s.(started := s.started + {(e, id)});
    AtLeads(s1, p, e, status, done, Todo([id] + rest), Ending(Failed));
    AtLeads(s1, p, e, status, done, Todo([id] + rest), Gone);
    AtLeads(s1, p, e, status, done, Todo([id] + rest), Inserting(id, rest));
    AtLeads(s1, p, e, status, done, Todo([id] + rest), Asking(id, rest));
  }

  lemma AtLeads(s: System, p: ProcId, e: ExecId, status: Status, done: set<string>, pc: Pc, next: Pc)
    requires Stands(s, p, e, status, done, pc)
    ensures Stands(At(s, p, next), p, e, status, done, next) && At(s, p, next).stepRows == s.stepRows
  {
  }

  lemma FinishLeads(
      s: System, p: ProcId, e: ExecId, status: Status, done: set<string>, pc: Pc, id: string, rest: seq<string>)
    requires Stands(s, p, e, status, done, pc)
    ensures Stands(Finish(s, p, id, rest), p, e, status, done + {id}, Saving(rest))
    ensures Finish(s, p, id, rest).stepRows == s.stepRows
  {
  }

  lemma {:induction false} SkipOf(
      defs: Defs, s: System, p: ProcId, e: ExecId, status: Status, done: set<string>, id: string, rest: seq<string>)
    requires Stands(s, p, e, status, done, Todo([id] + rest)) && id in NodesOf(defs.of(e)) && defs.can(e, id, Skip)
    ensures CanMove(defs, s, s.incs[p], Consider(Skip)) && Moved(defs, s, p, Consider(Skip)).stepRows == s.stepRows
    ensures Stands(Moved(defs, s, p, Consider(Skip)), p, e, status, done + {id}, Saving(rest))
  {
    hide NodesOf;
    hide Finish;
    assert ([id] + rest)[1..] == rest;
    var s1 := s.(started := s.started + {(e, id)});
    FinishLeads(s1, p, e, status, done, Todo([id] + rest), id, rest);
    FinishLeads(s1.(waived := s1.waived + {(e, id)}), p, e, status, done, Todo([id] + rest), id, rest);
  }

  lemma {:induction false} FromWriter(
      defs: Defs, s: System, p: ProcId, e: ExecId, status: Status, done: set<string>, id: string, rest: seq<string>)
    requires Stands(s, p, e, status, done, Todo([id] + rest)) && id in NodesOf(defs.of(e))
    requires Writes(defs, e, id, status == Running) && (status == Running || status == WaitingApproval)
    ensures CanBeOverwritten(defs, s, e)
    decreases GraphOf(defs.of(e)).ids - (done + {id}), 9
  {
    hide CanBeOverwritten;
    hide Moved;
    hide CanMove;
    assert IsStep(defs, e, id) || IsApproval(defs, e, id);
    hide NodesOf;
    var c := if defs.can(e, id, Proceed) then Proceed else ConditionError;
    NextOf(defs, s, p, e, status, done, id, rest, c);
    var s1 := Moved(defs, s, p, Consider(c));
    if IsApproval(defs, e, id) {
      if status == Running {
        FromAsking(defs, s1, p, e, done, id, rest);
      } else {
        FromAskingAgain(defs, s1, p, e, done, id, rest);
      }
    } else if c.Proceed? {
      FromBroken(defs, s1, p, e, done, Inserting(id, rest));
    } else {
      FromEnding(defs, s1, p, e, done, Failed);
    }
    FirstMove(defs, s, p, Consider(c), e);
  }

  /** The call can list what is ready so that what is ahead stays ahead. */
  lemma {:induction false} GoodOrder(
      defs: Defs, taken: set<(ExecId, string)>, e: ExecId, done: set<string>, running: bool)
      returns (order: seq<string>)
    requires Ahead(defs, taken, e, done, [], running)
    ensures NoDuplicates(order) && Elements(order) == Wave(GraphOf(defs.of(e)), done)
    ensures if order == [] then running else Ahead(defs, taken, e, done, order, running)
  {
    hide Writes;
    hide Passes;
    hide GraphOf;
    var wave := Wave(GraphOf(defs.of(e)), done);
    if id :| id in wave && Writes(defs, e, id, running) {
      order := ListedFirst(wave, id);
    } else {
      order := Listed(wave);
      if order == [] {
        assert Elements(order) == {};
      } else {
        assert order[0] in Elements(order);
        PassedInOrder(defs, taken, e, done, order, running);
      }
    }
  }

  lemma {:induction false} FromTodo(
      defs: Defs, s: System, p: ProcId, e: ExecId, status: Status, done: set<string>, todo: seq<string>)
    requires Stands(s, p, e, status, done, Todo(todo)) && (status == Running || status == WaitingApproval)
    requires Ahead(defs, s.stepRows.Keys, e, done, todo, status == Running)
    ensures CanBeOverwritten(defs, s, e)
    decreases GraphOf(defs.of(e)).ids - done, if todo == [] then 1 else 0
  {
    hide CanBeOverwritten;
    hide Wave;
    hide Moved;
    hide CanMove;
    hide Writes;
    hide Passes;
    var running := status == Running;
    if todo == [] {
      var order := GoodOrder(defs, s.stepRows.Keys, e, done, running);
      hide Ahead;
      ChoiceOf(defs, s, p, e, status, done, order);
      var s1 := Moved(defs, s, p, Choose(order));
      if order == [] {
        FromEnding(defs, s1, p, e, done, s1.incs[p].pc.to);
      } else {
        FromTodo(defs, s1, p, e, status, done, order);
      }
      FirstMove(defs, s, p, Choose(order), e);
    } else {
      var id, rest := todo[0], todo[1..];
      assert todo == [id] + rest && id in NodesOf(defs.of(e));
      NodeProgress(GraphOf(defs.of(e)), done, id);
      if Writes(defs, e, id, running) {
        FromWriter(defs, s, p, e, status, done, id, rest);
      } else {
        FromPassed(defs, s, p, e, status, done, id, rest);
      }
    }
  }

  lemma {:induction false} FromPassed(
      defs: Defs, s: System, p: ProcId, e: ExecId, status: Status, done: set<string>, id: string, rest: seq<string>)
    requires Stands(s, p, e, status, done, Todo([id] + rest)) && (status == Running || status == WaitingApproval)
    requires id in NodesOf(defs.of(e)) && id !in done && !Writes(defs, e, id, status == Running)
    requires Passes(defs, s.stepRows.Keys, e, id)
    requires Ahead(defs, s.stepRows.Keys, e, done + {id}, rest, status == Running)
    ensures CanBeOverwritten(defs, s, e)
    decreases GraphOf(defs.of(e)).ids - (done + {id}), 6
  {
    hide CanBeOverwritten;
    hide Ahead;
    hide Moved;
    hide CanMove;
    hide NodesOf;
    if defs.can(e, id, Skip) {
      SkipOf(defs, s, p, e, status, done, id, rest);
      FromSaving(defs, Moved(defs, s, p, Consider(Skip)), p, e, status, done + {id}, rest);
      FirstMove(defs, s, p, Consider(Skip), e);
    } else {
      NextOf(defs, s, p, e, status, done, id, rest, Proceed);
      FromInserting(defs, Moved(defs, s, p, Consider(Proceed)), p, e, done, id, rest);
      FirstMove(defs, s, p, Consider(Proceed), e);
    }
  }

  lemma {:induction false} FromSaving(
      defs: Defs, s: System, p: ProcId, e: ExecId, status: Status, done: set<string>, rest: seq<string>)
    requires Stands(s, p, e, status, done, Saving(rest)) && (status == Running || status == WaitingApproval)
    requires Ahead(defs, s.stepRows.Keys, e, done, rest, status == Running)
    ensures CanBeOverwritten(defs, s, e)
    decreases GraphOf(defs.of(e)).ids - done, 2
  {
    hide CanBeOverwritten;
    hide Ahead;
    hide GraphOf;
    var s1 := Moved(defs, s, p, Save(false));
    assert Stands(s1, p, e, status, done, Todo(rest)) && s1.stepRows == s.stepRows;
    FromTodo(defs, s1, p, e, status, done, rest);
    FirstMove(defs, s, p, Save(false), e);
  }

  lemma {:induction false} FromSucceeding(
      defs: Defs, s: System, p: ProcId, e: ExecId, status: Status, done: set<string>, id: string, rest: seq<string>)
    requires Stands(s, p, e, status, done, Succeeding(id, rest)) && (status == Running || status == WaitingApproval)
    requires Ahead(defs, s.stepRows.Keys, e, done + {id}, rest, status == Running)
    ensures CanBeOverwritten(defs, s, e)
    decreases GraphOf(defs.of(e)).ids - (done + {id}), 3
  {
    hide CanBeOverwritten;
    hide Ahead;
    hide GraphOf;
    var s1 := Moved(defs, s, p, MarkSucceeded(false));
    assert Stands(s1, p, e, status, done + {id}, Saving(rest)) && s1.stepRows == s.stepRows;
    FromSaving(defs, s1, p, e, status, done + {id}, rest);
    FirstMove(defs, s, p, MarkSucceeded(false), e);
  }

  /** A call that remembers waiting and is between the attempts of a step. */
  lemma {:induction false} FromAttempting(
      defs: Defs, s: System, p: ProcId, e: ExecId, done: set<string>, id: string, rest: seq<string>, made: nat)
    requires Stands(s, p, e, WaitingApproval, done, Attempting(id, rest, made)) && CanSucceed(defs, e, id, made)
    requires Ahead(defs, s.stepRows.Keys, e, done + {id}, rest, false)
    ensures CanBeOverwritten(defs, s, e)
    decreases GraphOf(defs.of(e)).ids - (done + {id}), 4
  {
    hide CanBeOverwritten;
    hide Ahead;
    hide GraphOf;
    hide Limit;
    var m := if made < Limit(defs, e, id) then Attempt(true) else NoAttempts;
    var s1 := Moved(defs, s, p, m);
    assert Stands(s1, p, e, WaitingApproval, done, Succeeding(id, rest)) && s1.stepRows == s.stepRows;
    FromSucceeding(defs, s1, p, e, WaitingApproval, done, id, rest);
    FirstMove(defs, s, p, m, e);
  }

  lemma {:induction false} FromInserting(
      defs: Defs, s: System, p: ProcId, e: ExecId, done: set<string>, id: string, rest: seq<string>)
    requires Stands(s, p, e, WaitingApproval, done, Inserting(id, rest)) && (e, id) !in s.stepRows
    requires Ahead(defs, s.stepRows.Keys, e, done + {id}, rest, false)
    ensures CanBeOverwritten(defs, s, e)
    decreases GraphOf(defs.of(e)).ids - (done + {id}), 5
  {
    hide CanBeOverwritten;
    hide Ahead;
    hide GraphOf;
    hide Limit;
    var s1 := Moved(defs, s, p, InsertRow(true));
    assert Stands(s1, p, e, WaitingApproval, done, Attempting(id, rest, 0));
    assert s1.stepRows.Keys == s.stepRows.Keys + {(e, id)};
    DoneRowsAreFree(defs, s.stepRows.Keys, e, id, done + {id}, rest, false);
    FromAttempting(defs, s1, p, e, done, id, rest, 0);
    FirstMove(defs, s, p, InsertRow(true), e);
  }

  // ----- around an approval -----

  lemma GrantIsWritten(defs: Defs, s: System, p: ProcId, e: ExecId, done: set<string>, id: string, rest: seq<string>)
    requires Stands(s, p, e, WaitingApproval, done, Granted(id, rest))
    ensures var s1 := Moved(defs, s, p, GoOn(true)); e in s1.rows && s1.rows[e].status == Running
  {
  }

  lemma GrantIsNotWritten(
      defs: Defs, s: System, p: ProcId, e: ExecId, done: set<string>, id: string, rest: seq<string>)
    requires Stands(s, p, e, Running, done, Granted(id, rest))
    ensures var s1 := Moved(defs, s, p, GoOn(false));
            Stands(s1, p, e, Running, done + {id}, Saving(rest)) && s1.stepRows == s.stepRows
  {
  }

  lemma {:induction false} FromGranted(
      defs: Defs, s: System, p: ProcId, e: ExecId, status: Status, done: set<string>, id: string, rest: seq<string>)
    requires Stands(s, p, e, status, done, Granted(id, rest))
    requires || status == WaitingApproval
             || (status == Running && Ahead(defs, s.stepRows.Keys, e, done + {id}, rest, true))
    ensures CanBeOverwritten(defs, s, e)
    decreases GraphOf(defs.of(e)).ids - (done + {id}), 3
  {
    hide CanBeOverwritten;
    hide Ahead;
    hide Moved;
    hide GraphOf;
    if status == WaitingApproval {
      GrantIsWritten(defs, s, p, e, done, id, rest);
      FirstMoveWrites(defs, s, p, e, GoOn(true));
    } else {
      var s1 := Moved(defs, s, p, GoOn(false));
      GrantIsNotWritten(defs, s, p, e, done, id, rest);
      FromSaving(defs, s1, p, e, Running, done + {id}, rest);
      FirstMove(defs, s, p, GoOn(false), e);
    }
  }

  lemma {:induction false} FromApproved(
      defs: Defs, s: System, p: ProcId, e: ExecId, status: Status, done: set<string>, id: string, rest: seq<string>,
      a: ApprovalId)
    requires Stands(s, p, e, status, done, Waiting(id, rest, a)) && a in s.approvals
             && s.approvals[a].status == Approved
    requires || status == WaitingApproval
             || (status == Running && Ahead(defs, s.stepRows.Keys, e, done + {id}, rest, true))
    ensures CanBeOverwritten(defs, s, e)
    decreases GraphOf(defs.of(e)).ids - (done + {id}), 4
  {
    hide CanBeOverwritten;
    hide Ahead;
    var s1 := Moved(defs, s, p, Check);
    assert Stands(s1, p, e, status, done, Granted(id, rest)) && s1.stepRows == s.stepRows;
    FromGranted(defs, s1, p, e, status, done, id, rest);
    FirstMove(defs, s, p, Check, e);
  }

  lemma {:induction false} FromWaiting(
      defs: Defs, s: System, p: ProcId, e: ExecId, status: Status, done: set<string>, id: string, rest: seq<string>,
      a: ApprovalId)
    requires Stands(s, p, e, status, done, Waiting(id, rest, a)) && NotRejected(s, a)
    requires || status == WaitingApproval
             || (status == Running && Ahead(defs, s.stepRows.Keys, e, done + {id}, rest, true))
    ensures CanBeOverwritten(defs, s, e)
    decreases GraphOf(defs.of(e)).ids - (done + {id}), 5
  {
    hide CanBeOverwritten;
    hide Ahead;
    if s.approvals[a].status == Approved {
      FromApproved(defs, s, p, e, status, done, id, rest, a);
    } else {
      var d := Decide(a, s.approvals[a].tenant, Approved);
      FromApproved(defs, Apply(defs, s, d), p, e, status, done, id, rest, a);
      FirstThis(defs, s, d, e);
    }
  }

  lemma {:induction false} FromAnnouncing(
      defs: Defs, s: System, p: ProcId, e: ExecId, status: Status, done: set<string>, id: string, rest: seq<string>,
      a: ApprovalId)
    requires Stands(s, p, e, status, done, Announcing(id, rest, a))
    requires status == Running || (status == WaitingApproval && NotRejected(s, a))
    ensures CanBeOverwritten(defs, s, e)
    decreases GraphOf(defs.of(e)).ids - (done + {id}), 7
  {
    hide CanBeOverwritten;
    if status == Running {
      FirstMoveWrites(defs, s, p, e, Announce(true));
    } else {
      var s1 := Moved(defs, s, p, Announce(false));
      assert Stands(s1, p, e, WaitingApproval, done, Waiting(id, rest, a)) && NotRejected(s1, a);
      FromWaiting(defs, s1, p, e, WaitingApproval, done, id, rest, a);
      FirstMove(defs, s, p, Announce(false), e);
    }
  }

  /** A call that remembers waiting goes on when the approval that it asks for is granted. */
  lemma {:induction false} FromAskingAgain(
      defs: Defs, s: System, p: ProcId, e: ExecId, done: set<string>, id: string, rest: seq<string>)
    requires Stands(s, p, e, WaitingApproval, done, Asking(id, rest))
    ensures CanBeOverwritten(defs, s, e)
    decreases GraphOf(defs.of(e)).ids - (done + {id}), 8
  {
    hide CanBeOverwritten;
    var a := FreshApproval(s.approvals.Keys);
    var s1 := Moved(defs, s, p, Ask(a, true));
    assert Stands(s1, p, e, WaitingApproval, done, Announcing(id, rest, a)) && NotRejected(s1, a);
    FromAnnouncing(defs, s1, p, e, WaitingApproval, done, id, rest, a);
    FirstMove(defs, s, p, Ask(a, true), e);
  }

  // ----- exactly when -----

  /** While a call remembers running. */
  lemma {:induction false} RunningOverwrites(defs: Defs, s: System, p: ProcId)
    requires p in s.incs && IncOk(defs, s, p, s.incs[p]) && StatusOk(s.incs[p]) && s.incs[p].status == Running
    requires HasBegun(s.incs[p].pc) && MayOverwrite(defs, s, s.incs[p])
    ensures CanBeOverwritten(defs, s, s.incs[p].exec)
  {
    hide CanBeOverwritten;
    hide Ahead;
    hide CanSucceed;
    hide AllReady;
    hide PlaceOk;
    hide Sound;
    hide GraphOf;
    var inc := s.incs[p];
    var e, done := inc.exec, inc.completed;
    match inc.pc
    case Todo(todo) => FromTodo(defs, s, p, e, Running, done, todo);
    case Inserting(_, _) => FromBroken(defs, s, p, e, done, inc.pc);
    case Attempting(_, _, _) => FromBroken(defs, s, p, e, done, inc.pc);
    case Compensating(_) => FromBroken(defs, s, p, e, done, inc.pc);
    case Failing(id) => FromFailing(defs, s, p, e, done, id);
    case Succeeding(id, rest) => FromSucceeding(defs, s, p, e, Running, done, id, rest);
    case Asking(id, rest) => FromAsking(defs, s, p, e, done, id, rest);
    case Announcing(id, rest, a) => FromAnnouncing(defs, s, p, e, Running, done, id, rest, a);
    case Waiting(id, rest, a) => FromWaiting(defs, s, p, e, Running, done, id, rest, a);
    case Granted(id, rest) => FromGranted(defs, s, p, e, Running, done, id, rest);
    case Saving(rest) => FromSaving(defs, s, p, e, Running, done, rest);
    case Ending(to) => FromEnding(defs, s, p, e, done, to);
  }

  /** While a call remembers waiting. */
  lemma {:induction false} WaitingOverwrites(defs: Defs, s: System, p: ProcId)
    requires p in s.incs && IncOk(defs, s, p, s.incs[p]) && s.incs[p].status == WaitingApproval
    requires HasBegun(s.incs[p].pc) && MayOverwrite(defs, s, s.incs[p])
    ensures CanBeOverwritten(defs, s, s.incs[p].exec)
  {
    hide CanBeOverwritten;
    hide Ahead;
    hide CanSucceed;
    hide AllReady;
    hide PlaceOk;
    hide Sound;
    hide GraphOf;
    var inc := s.incs[p];
    var e, done := inc.exec, inc.completed;
    match inc.pc
    case Todo(todo) => FromTodo(defs, s, p, e, WaitingApproval, done, todo);
    case Inserting(id, rest) => FromInserting(defs, s, p, e, done, id, rest);
    case Attempting(id, rest, made) => FromAttempting(defs, s, p, e, done, id, rest, made);
    case Succeeding(id, rest) => FromSucceeding(defs, s, p, e, WaitingApproval, done, id, rest);
    case Asking(id, rest) => FromAskingAgain(defs, s, p, e, done, id, rest);
    case Announcing(id, rest, a) => FromAnnouncing(defs, s, p, e, WaitingApproval, done, id, rest, a);
    case Waiting(id, rest, a) => FromWaiting(defs, s, p, e, WaitingApproval, done, id, rest, a);
    case Granted(id, rest) => FromGranted(defs, s, p, e, WaitingApproval, done, id, rest);
    case Saving(rest) => FromSaving(defs, s, p, e, WaitingApproval, done, rest);
    case _ => assert false;
  }

  lemma {:induction false} MayMeansCan(defs: Defs, s: System, p: ProcId)
    requires p in s.incs && IncOk(defs, s, p, s.incs[p]) && StatusOk(s.incs[p]) && MayOverwrite(defs, s, s.incs[p])
    ensures CanBeOverwritten(defs, s, s.incs[p].exec)
  {
    hide CanBeOverwritten;
    if s.incs[p].pc.Starting? {
      FirstMoveWrites(defs, s, p, s.incs[p].exec, Begin(true));
    } else {
      hide IncOk;
      if s.incs[p].status == Running {
        RunningOverwrites(defs, s, p);
      } else {
        WaitingOverwrites(defs, s, p);
      }
    }
  }

  ghost predicate IsCancelled(s: System, e: ExecId) {
    e in s.rows && s.rows[e].status == Cancelled
  }

  /**
   * Whenever a row is cancelled in a run: it stays cancelled, however the run goes on, if and only if no Execute call
   * of the execution is then at a place from which it may overwrite the row.
   */
  lemma {:induction false} CancelStaysExactly(defs: Defs, actions: seq<Action>, e: ExecId)
    requires IsRun(defs, actions) && IsCancelled(After(defs, actions), e)
    ensures var s := After(defs, actions);
            (forall more :: IsRun(defs, actions + more) ==> IsCancelled(After(defs, actions + more), e))
            <==> (forall p :: p in s.incs && s.incs[p].exec == e ==> !MayOverwrite(defs, s, s.incs[p]))
  {
    hide MayOverwrite;
    var s := After(defs, actions);
    RunsKeepInv(defs, actions);
    RunsKeepStatuses(defs, actions);
    hide IncOk;
    hide StatusOk;
    hide SharedOk;
    hide Apply;
    hide Enabled;
    hide IsRun;
    hide After;
    if CancelHolds(defs, s, e) {
      forall more | IsRun(defs, actions + more)
        ensures IsCancelled(After(defs, actions + more), e)
      {
        Continuations(defs, actions, more);
        RunsHold(defs, s, more, e);
      }
    } else {
      var p :| p in s.incs && s.incs[p].exec == e && MayOverwrite(defs, s, s.incs[p]);
      MayMeansCan(defs, s, p);
      var s' :| Reaches(defs, s, s') && e in s'.rows && s'.rows[e].status != Cancelled;
      var more :| CanRun(defs, s, more) && ApplyAll(defs, s, more) == s';
      Continuations(defs, actions, more);
    }
  }

  /** In particular when every call of the execution has not loaded it yet, or has ended. */
  lemma {:induction false} CancelStaysWithoutCalls(defs: Defs, actions: seq<Action>, e: ExecId, more: seq<Action>)
    requires IsRun(defs, actions) && IsCancelled(After(defs, actions), e)
    requires var s := After(defs, actions);
             forall p :: p in s.incs && s.incs[p].exec == e ==> s.incs[p].pc.Acquired? || s.incs[p].pc.Gone?
    requires IsRun(defs, actions + more)
    ensures IsCancelled(After(defs, actions + more), e)
  {
    hide IsRun;
    hide After;
    CancelStaysExactly(defs, actions, e);
  }

  // ----- a cancel that is lost -----

  /** A definition of one approval. */
  const GATED := WorkflowDefinition("gated", "", "", [], [], [ApprovalDef("gate", [], "", ["admin"], "")])

  /** An execution of it is cancelled when its approval has been granted and the call has not gone on yet. */
  const LOST_CANCEL: seq<Action> := [
    Insert(0, 0), Acquire(0, "node", 0), Moves(0, Load(true)), Moves(0, Begin(true)), Moves(0, Choose(["gate"])),
    Moves(0, Consider(Proceed)), Moves(0, Ask(0, true)), Moves(0, Announce(true)), Decide(0, 0, Approved),
    Moves(0, Check), Cancel(0, 0), Moves(0, GoOn(true))]

  lemma {:induction false} GatedGraph()
    ensures DependenciesKnown(GATED) && "gate" in NodesOf(GATED)
    ensures NodesOf(GATED)["gate"] == ApprovalOf(GATED.approvals[0])
    ensures Elements(["gate"]) == Wave(GraphOf(GATED), {})
  {
    var gate := GATED.approvals[0];
    assert GATED.approvals[1..] == [];
    assert PairsTo("gate", []) == [];
    assert ApprovalPairs([gate]) == [] + ApprovalPairs([]);
    assert PairsOf(GATED) == [];
    assert FoldLeft(PutApproval(), map[], [gate]) == FoldLeft(PutApproval(), PutApproval()(map[], gate), []);
    assert NodesOf(GATED) == map["gate" := ApprovalOf(gate)];
    var g := GraphOf(GATED);
    assert g.ids == {"gate"} && Deps(g, "gate") == [];
    assert Elements(["gate"]) == {"gate"};
  }

  lemma RunGoesOn(defs: Defs, run: seq<Action>, a: Action)
    requires IsRun(defs, run) && Enabled(defs, After(defs, run), a)
    ensures IsRun(defs, run + [a]) && After(defs, run + [a]) == Apply(defs, After(defs, run), a)
  {
    hide Enabled;
    hide Apply;
    assert (run + [a])[..|run|] == run;
  }

  /** The one execution with its one call, which remembers the status of the row. */
  function Alone(status: Status, started: Option<nat>, pc: Pc, begun: set<(ExecId, string)>, request: Option<Decision>)
    : System
  {
    System(0, map[0 := Row(0, status, 0, started, None, None, Some("node"))], map[],
           if request.None? then map[] else map[0 := ApprovalRow(0, "gate", 0, request.value)],
           map[], map[0 := Inc(0, "node", status, {}, pc)], map[], multiset{}, multiset{}, begun, {}, {})
  }

  lemma Replaced<T, U>(k: T, x: U, y: U)
    ensures map[k := x][k := y] == map[k := y]
  {
  }

  /** One step of the run, to a state that is already known. */
  lemma RunGoesTo(defs: Defs, run: seq<Action>, a: Action, s: System, s': System)
    requires IsRun(defs, run) && After(defs, run) == s && Enabled(defs, s, a) && Apply(defs, s, a) == s'
    ensures IsRun(defs, run + [a]) && After(defs, run + [a]) == s'
  {
    hide Enabled;
    hide Apply;
    RunGoesOn(defs, run, a);
  }

  lemma NothingRun(defs: Defs)
    ensures IsRun(defs, []) && After(defs, []) == INITIAL
  {
  }

  lemma {:induction false} Begins(defs: Defs)
    requires defs.of(0) == GATED && defs.can(0, "gate", Proceed)
    ensures IsRun(defs, LOST_CANCEL[..4])
    ensures After(defs, LOST_CANCEL[..4]) == Alone(Running, Some(0), Todo([]), {}, None)
  {
    GatedGraph();
    hide GraphOf;
    hide NodesOf;
    hide Wave;
    hide DependenciesKnown;
    hide IsRun;
    hide After;
    NothingRun(defs);
    var queued := Row(0, Queued, 0, None, None, None, None);
    var s1 := INITIAL.(rows := map[0 := queued]);
    RunGoesTo(defs, [], Insert(0, 0), INITIAL, s1);
    Replaced(0, queued, queued.(node := Some("node")));
    var s2 := Alone(Queued, None, Acquired, {}, None);
    var r1 := [] + [Insert(0, 0)];
    RunGoesTo(defs, r1, Acquire(0, "node", 0), s1, s2);
    var r2 := r1 + [Acquire(0, "node", 0)];
    var s3 := Alone(Queued, None, Starting, {}, None);
    Replaced(0, s2.incs[0], s3.incs[0]);
    RunGoesTo(defs, r2, Moves(0, Load(true)), s2, s3);
    var r3 := r2 + [Moves(0, Load(true))];
    var s4 := Alone(Running, Some(0), Todo([]), {}, None);
    Replaced(0, s3.incs[0], s3.incs[0].(status := Running));
    Replaced(0, s3.incs[0].(status := Running), s4.incs[0]);
    Replaced(0, s3.rows[0], s4.rows[0]);
    RunGoesTo(defs, r3, Moves(0, Begin(true)), s3, s4);
    assert LOST_CANCEL[..4] == r3 + [Moves(0, Begin(true))];
  }

  lemma {:induction false} Asks(defs: Defs)
    requires defs.of(0) == GATED && defs.can(0, "gate", Proceed)
    ensures IsRun(defs, LOST_CANCEL[..6])
    ensures After(defs, LOST_CANCEL[..6]) == Alone(Running, Some(0), Asking("gate", []), {(0, "gate")}, None)
  {
    GatedGraph();
    hide GraphOf;
    hide NodesOf;
    hide Wave;
    hide IsRun;
    hide After;
    Begins(defs);
    var r4, s4 := LOST_CANCEL[..4], Alone(Running, Some(0), Todo([]), {}, None);
    var s5 := Alone(Running, Some(0), Todo(["gate"]), {}, None);
    Replaced(0, s4.incs[0], s5.incs[0]);
    RunGoesTo(defs, r4, Moves(0, Choose(["gate"])), s4, s5);
    var r5 := r4 + [Moves(0, Choose(["gate"]))];
    var s6 := Alone(Running, Some(0), Asking("gate", []), {(0, "gate")}, None);
    Replaced(0, s5.incs[0], s6.incs[0]);
    assert ["gate"][1..] == [];
    RunGoesTo(defs, r5, Moves(0, Consider(Proceed)), s5, s6);
    assert LOST_CANCEL[..6] == r5 + [Moves(0, Consider(Proceed))];
  }

  lemma {:induction false} Announces(defs: Defs)
    requires defs.of(0) == GATED && defs.can(0, "gate", Proceed)
    ensures IsRun(defs, LOST_CANCEL[..8])
    ensures After(defs, LOST_CANCEL[..8])
         == Alone(WaitingApproval, Some(0), Waiting("gate", [], 0), {(0, "gate")}, Some(Undecided))
  {
    hide IsRun;
    hide After;
    Asks(defs);
    var r6, s6 := LOST_CANCEL[..6], Alone(Running, Some(0), Asking("gate", []), {(0, "gate")}, None);
    var s7 := Alone(Running, Some(0), Announcing("gate", [], 0), {(0, "gate")}, Some(Undecided));
    Replaced(0, s6.incs[0], s7.incs[0]);
    RunGoesTo(defs, r6, Moves(0, Ask(0, true)), s6, s7);
    var r7 := r6 + [Moves(0, Ask(0, true))];
    var s8 := Alone(WaitingApproval, Some(0), Waiting("gate", [], 0), {(0, "gate")}, Some(Undecided));
    Replaced(0, s7.incs[0], s7.incs[0].(status := WaitingApproval));
    Replaced(0, s7.incs[0].(status := WaitingApproval), s8.incs[0]);
    Replaced(0, s7.rows[0], s8.rows[0]);
    RunGoesTo(defs, r7, Moves(0, Announce(true)), s7, s8);
    assert LOST_CANCEL[..8] == r7 + [Moves(0, Announce(true))];
  }

  lemma {:induction false} IsGranted(defs: Defs)
    requires defs.of(0) == GATED && defs.can(0, "gate", Proceed)
    ensures IsRun(defs, LOST_CANCEL[..10])
    ensures After(defs, LOST_CANCEL[..10])
         == Alone(WaitingApproval, Some(0), Granted("gate", []), {(0, "gate")}, Some(Approved))
  {
    hide IsRun;
    hide After;
    Announces(defs);
    var r8 := LOST_CANCEL[..8];
    var s8 := Alone(WaitingApproval, Some(0), Waiting("gate", [], 0), {(0, "gate")}, Some(Undecided));
    var s9 := Alone(WaitingApproval, Some(0), Waiting("gate", [], 0), {(0, "gate")}, Some(Approved));
    Replaced(0, s8.approvals[0], s9.approvals[0]);
    RunGoesTo(defs, r8, Decide(0, 0, Approved), s8, s9);
    var r9 := r8 + [Decide(0, 0, Approved)];
    var s10 := Alone(WaitingApproval, Some(0), Granted("gate", []), {(0, "gate")}, Some(Approved));
    Replaced(0, s9.incs[0], s10.incs[0]);
    RunGoesTo(defs, r9, Moves(0, Check), s9, s10);
    assert LOST_CANCEL[..10] == r9 + [Moves(0, Check)];
  }

  lemma GateIsAsked(defs: Defs, lib: Library, inputs: map<string, Value>)
    requires defs.of(0) == GATED && Suits(defs, 0, lib, inputs)
    ensures defs.can(0, "gate", Proceed)
  {
    GatedGraph();
    hide GraphOf;
    PlainNodesHaveOneVerdict(lib, NodesOf(GATED)["gate"], inputs, Proceed);
  }

  lemma LosesIt(defs: Defs)
    ensures var s := Alone(WaitingApproval, Some(0), Granted("gate", []), {(0, "gate")}, Some(Approved));
            var s1 := Apply(defs, s, Cancel(0, 0));
            var s2 := Apply(defs, s1, Moves(0, GoOn(true)));
            && Enabled(defs, s, Cancel(0, 0)) && s1.rows.Keys == {0} && s1.rows[0].status == Cancelled
            && Enabled(defs, s1, Moves(0, GoOn(true))) && 0 in s2.rows && s2.rows[0].status == Running
  {
  }

  /**
   * A cancel can be lost: here the approval is granted, the cancel finds the row waiting and marks it as cancelled,
   * and then the call, which still remembers waiting, sets the row back to running.
   */
  lemma {:induction false} CancelIsLost(defs: Defs, lib: Library, inputs: map<string, Value>)
    requires defs.of(0) == GATED && Suits(defs, 0, lib, inputs)
    ensures IsRun(defs, LOST_CANCEL) && LOST_CANCEL[10] == Cancel(0, 0)
    ensures After(defs, LOST_CANCEL[..10]).rows.Keys == {0} == After(defs, LOST_CANCEL[..11]).rows.Keys
    ensures After(defs, LOST_CANCEL[..10]).rows[0].status == WaitingApproval
    ensures After(defs, LOST_CANCEL[..11]).rows[0].status == Cancelled
    ensures 0 in After(defs, LOST_CANCEL).rows && After(defs, LOST_CANCEL).rows[0].status == Running
  {
    hide IsRun;
    hide After;
    hide Apply;
    hide Enabled;
    hide Suits;
    GateIsAsked(defs, lib, inputs);
    IsGranted(defs);
    LosesIt(defs);
    var r10 := LOST_CANCEL[..10];
    var s10 := Alone(WaitingApproval, Some(0), Granted("gate", []), {(0, "gate")}, Some(Approved));
    var s11 := Apply(defs, s10, Cancel(0, 0));
    RunGoesTo(defs, r10, Cancel(0, 0), s10, s11);
    assert LOST_CANCEL[..11] == r10 + [Cancel(0, 0)];
    RunGoesTo(defs, LOST_CANCEL[..11], Moves(0, GoOn(true)), s11, Apply(defs, s11, Moves(0, GoOn(true))));
    assert LOST_CANCEL == LOST_CANCEL[..11] + [Moves(0, GoOn(true))];
  }
}
