/** Which steps of a run decide an approval, and when an execution passes from one scheduler node to another. */
module Handover {
  import opened Prelude
  import opened StateMachine
  import opened System
  import opened Dag
  import opened Semantics

  /** The state before action k. */
  function StateAt(defs: Defs, actions: seq<Action>, k: nat): System
    requires k <= |actions|
  {
    After(defs, actions[..k])
  }

  lemma {:induction false} RunStep(defs: Defs, actions: seq<Action>, k: nat)
    requires IsRun(defs, actions) && k < |actions|
    ensures Enabled(defs, StateAt(defs, actions, k), actions[k])
    ensures StateAt(defs, actions, k + 1) == Apply(defs, StateAt(defs, actions, k), actions[k])
    decreases |actions|
  {
    hide Enabled;
    hide Apply;
    var front := actions[..|actions| - 1];
    if k < |actions| - 1 {
      RunStep(defs, front, k);
      assert front[..k] == actions[..k] && front[..k + 1] == actions[..k + 1];
    } else {
      assert actions[..k] == front && actions[..k + 1] == actions;
    }
    assert actions[..k + 1][..k] == actions[..k];
  }

  /** What no move of an Execute call touches: owners, heartbeats, takeovers, the clock and existing requests. */
  ghost predicate Untouched(s: System, s': System) {
    && s'.rows.Keys == s.rows.Keys && (forall e :: e in s.rows ==> s'.rows[e].node == s.rows[e].node)
    && (forall a :: a in s.approvals ==> a in s'.approvals && s'.approvals[a] == s.approvals[a])
    && s'.nodes == s.nodes && s'.takers == s.takers && s'.now == s.now
  }

  lemma {:induction false} TransitionFrame(s: System, p: ProcId, to: Status, ok: bool)
    requires p in s.incs && s.incs[p].exec in s.rows
    ensures Untouched(s, Transition(s, p, to, ok)) && p in Transition(s, p, to, ok).incs
  {
    hide ValidTransition;
  }

  predicate IsPlain(m: Move) {
    !(m.Begin? || m.Announce? || m.GoOn? || m.End? || m.Save? || m.Ask?)
  }

  predicate SameTables(s: System, s': System) {
    s'.rows == s.rows && s'.approvals == s.approvals && s'.nodes == s.nodes && s'.takers == s.takers && s'.now == s.now
  }

  lemma ConsiderFrame(defs: Defs, s: System, p: ProcId, condition: Condition)
    requires p in s.incs && s.incs[p].pc.Todo? && s.incs[p].pc.todo != []
    requires s.incs[p].pc.todo[0] in NodesOf(defs.of(s.incs[p].exec))
    ensures SameTables(s, Considered(defs, s, p, condition))
  {
    hide NodesOf;
    hide Finish;
    var inc := s.incs[p];
    var id, rest := inc.pc.todo[0], inc.pc.todo[1..];
    FinishFrame(s.(started := s.started + {(inc.exec, id)}), p, id, rest);
    FinishFrame(s.(started := s.started + {(inc.exec, id)}, waived := s.waived + {(inc.exec, id)}), p, id, rest);
  }

  lemma FinishFrame(s: System, p: ProcId, id: string, rest: seq<string>)
    requires p in s.incs
    ensures SameTables(s, Finish(s, p, id, rest))
  {
  }

  lemma LoadFrame(defs: Defs, s: System, p: ProcId, ok: bool)
    requires p in s.incs && s.incs[p].exec in s.rows
    ensures SameTables(s, Loaded(defs, s, p, ok))
  {
    hide DependenciesKnown;
    hide ValidTransition;
  }

  lemma InsertFrame(s: System, p: ProcId, ok: bool)
    requires p in s.incs && s.incs[p].pc.Inserting?
    ensures SameTables(s, RowInserted(s, p, ok))
  {
  }

  lemma AttemptFrame(defs: Defs, s: System, p: ProcId, success: bool)
    requires p in s.incs && s.incs[p].pc.Attempting?
    ensures SameTables(s, Attempted(defs, s, p, success))
  {
    hide Limit;
  }

  lemma FailFrame(defs: Defs, s: System, p: ProcId, ok: bool)
    requires p in s.incs && s.incs[p].pc.Failing?
    ensures SameTables(s, MarkedFailed(defs, s, p, ok))
  {
    hide HasCompensation;
  }

  lemma CompensateFrame(s: System, p: ProcId, found: bool)
    requires p in s.incs && s.incs[p].pc.Compensating?
    ensures SameTables(s, Compensated(s, p, found))
  {
  }

  lemma CheckFrame(s: System, p: ProcId)
    requires p in s.incs && s.incs[p].pc.Waiting? && s.incs[p].pc.approval in s.approvals
    ensures SameTables(s, Checked(s, p))
  {
  }

  lemma SucceedFrame(s: System, p: ProcId, ok: bool)
    requires p in s.incs && s.incs[p].pc.Succeeding?
    ensures var inc := s.incs[p];
            SameTables(s, Finish(Marked(s, inc.exec, inc.pc.id, RowSucceeded, ok), p, inc.pc.id, inc.pc.rest))
  {
  }

  lemma AtFrame(s: System, p: ProcId, pc: Pc)
    requires p in s.incs
    ensures SameTables(s, At(s, p, pc))
  {
  }

  /** Most moves change none of these tables at all. */
  lemma {:induction false} PlainMoveFrame(defs: Defs, s: System, p: ProcId, m: Move)
    requires p in s.incs && s.incs[p].exec in s.rows && IsPlain(m)
    ensures SameTables(s, Moved(defs, s, p, m))
  {
    hide NodesOf;
    hide Limit;
    hide At;
    hide Finish;
    hide Transition;
    hide Saved;
    hide Asked;
    hide Loaded;
    hide Considered;
    hide RowInserted;
    hide Attempted;
    hide MarkedFailed;
    hide Compensated;
    hide Checked;
    hide Marked;
    hide SameTables;
    var inc := s.incs[p];
    assert SameTables(s, s) by {
      Itself(s);
    }
    match m
    case Load(ok) => LoadFrame(defs, s, p, ok);
    case Choose(order) =>
      AtFrame(s, p, if order != [] then Todo(order)
                    else Ending(if |inc.completed| == |NodesOf(defs.of(inc.exec))| then Succeeded else Failed));
    case Consider(condition) =>
      if inc.pc.Todo? && inc.pc.todo != [] && inc.pc.todo[0] in NodesOf(defs.of(inc.exec)) {
        ConsiderFrame(defs, s, p, condition);
      }
    case Abandon => AtFrame(s, p, Ending(Failed));
    case Crash => AtFrame(s, p, Gone);
    case NoAttempts =>
      if inc.pc.Attempting? {
        AtFrame(s, p, Succeeding(inc.pc.id, inc.pc.rest));
      }
    case MarkSucceeded(ok) =>
      if inc.pc.Succeeding? {
        SucceedFrame(s, p, ok);
      }
    case InsertRow(ok) =>
      if inc.pc.Inserting? {
        InsertFrame(s, p, ok);
      }
    case Attempt(success) =>
      if inc.pc.Attempting? {
        AttemptFrame(defs, s, p, success);
      }
    case MarkFailed(ok) =>
      if inc.pc.Failing? {
        FailFrame(defs, s, p, ok);
      }
    case Compensate(found) =>
      if inc.pc.Compensating? {
        CompensateFrame(s, p, found);
      }
    case Check =>
      if inc.pc.Waiting? && inc.pc.approval in s.approvals {
        CheckFrame(s, p);
      }
    case _ =>
  }

  lemma Itself(s: System)
    ensures SameTables(s, s)
  {
  }

  lemma {:induction false} MoveFrame(defs: Defs, s: System, p: ProcId, m: Move)
    requires p in s.incs && s.incs[p].exec in s.rows && (m.Ask? ==> m.approval !in s.approvals)
    ensures Untouched(s, Moved(defs, s, p, m))
  {
    hide Moved;
    hide Untouched;
    hide SameTables;
    if m.Begin? || m.Announce? || m.GoOn? || m.End? {
      TransitionMoveFrame(defs, s, p, m);
    } else if m.Save? || m.Ask? {
      SaveMoveFrame(defs, s, p, m);
    } else {
      PlainMoveFrame(defs, s, p, m);
      SameIsUntouched(s, Moved(defs, s, p, m));
    }
  }

  lemma {:induction false} SaveMoveFrame(defs: Defs, s: System, p: ProcId, m: Move)
    requires p in s.incs && s.incs[p].exec in s.rows && (m.Save? || (m.Ask? && m.approval !in s.approvals))
    ensures Untouched(s, Moved(defs, s, p, m))
  {
    hide Saved;
    hide Asked;
    hide Untouched;
    hide SameTables;
    SaveFrame(s, p, m);
    Itself(s);
    SameIsUntouched(s, s);
  }

  lemma {:induction false} TransitionMoveFrame(defs: Defs, s: System, p: ProcId, m: Move)
    requires p in s.incs && s.incs[p].exec in s.rows && (m.Begin? || m.Announce? || m.GoOn? || m.End?)
    ensures Untouched(s, Moved(defs, s, p, m))
  {
    hide ValidTransition;
    hide Transition;
    hide At;
    hide Finish;
    hide Untouched;
    hide SameTables;
    var inc := s.incs[p];
    Itself(s);
    SameIsUntouched(s, s);
    AtUntouched(s, s, p, Gone, "", []);
    match m
    case Begin(ok) =>
      TransitionFrame(s, p, Running, ok);
      AtUntouched(s, Transition(s, p, Running, ok), p, Todo([]), "", []);
    case Announce(ok) =>
      TransitionFrame(s, p, WaitingApproval, ok);
      if inc.pc.Announcing? {
        var pc := Waiting(inc.pc.id, inc.pc.rest, inc.pc.approval);
        AtUntouched(s, Transition(s, p, WaitingApproval, ok), p, pc, "", []);
      }
    case GoOn(ok) =>
      TransitionFrame(s, p, Running, ok);
      if inc.pc.Granted? {
        AtUntouched(s, Transition(s, p, Running, ok), p, Gone, inc.pc.id, inc.pc.rest);
      }
    case End(ok) =>
      if inc.pc.Ending? {
        TransitionFrame(s, p, inc.pc.to, ok);
        AtUntouched(s, Transition(s, p, inc.pc.to, ok), p, Gone, "", []);
      }
  }

  lemma SameIsUntouched(s: System, s': System)
    requires SameTables(s, s')
    ensures Untouched(s, s')
  {
  }

  lemma AtUntouched(s: System, s1: System, p: ProcId, pc: Pc, id: string, rest: seq<string>)
    requires Untouched(s, s1) && p in s1.incs
    ensures Untouched(s, At(s1, p, pc)) && Untouched(s, Finish(s1, p, id, rest))
  {
  }

  lemma {:induction false} SaveFrame(s: System, p: ProcId, m: Move)
    requires p in s.incs && s.incs[p].exec in s.rows && (m.Save? || (m.Ask? && m.approval !in s.approvals))
    ensures m.Save? && s.incs[p].pc.Saving? ==> Untouched(s, Saved(s, p, m.ok))
    ensures m.Ask? && s.incs[p].pc.Asking? ==> Untouched(s, Asked(s, p, m.approval, m.ok))
  {
  }

  // ----- approvals -----

  /** What a step can do to an approval row that exists: only a decision by its tenant changes it, and only once. */
  lemma {:induction false} ApprovalRowStep(defs: Defs, s: System, action: Action, a: ApprovalId)
    requires a in s.approvals && Enabled(defs, s, action)
    ensures a in Apply(defs, s, action).approvals
    ensures Apply(defs, s, action).approvals[a]
         == if action.Decide? && action.approval == a then DecideRow(s.approvals[a], action.tenant, action.decision)
            else s.approvals[a]
  {
    hide Moved;
    if action.Moves? {
      MoveFrame(defs, s, action.proc, action.move);
    }
  }

  /** A decision that found the request undecided. */
  predicate Wins(s: System, action: Action, a: ApprovalId) {
    && action.Decide? && action.approval == a
    && a in s.approvals && s.approvals[a].tenant == action.tenant && s.approvals[a].status == Undecided
  }

  /** Once decided, a request keeps its decision for the rest of the run. */
  lemma {:induction false} DecisionIsFinal(defs: Defs, actions: seq<Action>, a: ApprovalId, i: nat, j: nat)
    requires IsRun(defs, actions) && i <= j <= |actions|
    requires a in StateAt(defs, actions, i).approvals
    ensures a in StateAt(defs, actions, j).approvals
    ensures StateAt(defs, actions, i).approvals[a].status != Undecided ==>
              StateAt(defs, actions, j).approvals[a] == StateAt(defs, actions, i).approvals[a]
    ensures StateAt(defs, actions, j).approvals[a].tenant == StateAt(defs, actions, i).approvals[a].tenant
    decreases j - i
  {
    hide Apply;
    hide After;
    hide Enabled;
    if i < j {
      DecisionIsFinal(defs, actions, a, i, j - 1);
      RunStep(defs, actions, j - 1);
      ApprovalRowStep(defs, StateAt(defs, actions, j - 1), actions[j - 1], a);
    }
  }

  /** Of all the calls that try to decide a request, at most one succeeds, and the request keeps its decision. */
  lemma {:induction false} OneDecisionWins(defs: Defs, actions: seq<Action>, a: ApprovalId, i: nat, j: nat)
    requires IsRun(defs, actions) && i < j <= |actions| && Wins(StateAt(defs, actions, i), actions[i], a)
    ensures j < |actions| ==> !Wins(StateAt(defs, actions, j), actions[j], a)
    ensures a in StateAt(defs, actions, j).approvals
    ensures StateAt(defs, actions, j).approvals[a].status == actions[i].decision
  {
    hide Apply;
    hide After;
    RunStep(defs, actions, i);
    ApprovalRowStep(defs, StateAt(defs, actions, i), actions[i], a);
    DecisionIsFinal(defs, actions, a, i + 1, j);
  }

  /** And one does succeed: once anybody of the right tenant has tried, some call up to then has decided it. */
  lemma {:induction false} SomeDecisionWins(defs: Defs, actions: seq<Action>, a: ApprovalId, i: nat, j: nat)
    requires IsRun(defs, actions) && i <= j < |actions|
    requires a in StateAt(defs, actions, i).approvals && StateAt(defs, actions, i).approvals[a].status == Undecided
    requires actions[j].Decide? && actions[j].approval == a
    requires actions[j].tenant == StateAt(defs, actions, i).approvals[a].tenant
    ensures exists k :: i <= k <= j && Wins(StateAt(defs, actions, k), actions[k], a)
    decreases j - i
  {
    hide Apply;
    hide After;
    if !Wins(StateAt(defs, actions, i), actions[i], a) {
      RunStep(defs, actions, i);
      ApprovalRowStep(defs, StateAt(defs, actions, i), actions[i], a);
      SomeDecisionWins(defs, actions, a, i + 1, j);
      var k :| i + 1 <= k <= j && Wins(StateAt(defs, actions, k), actions[k], a);
    }
  }

  // ----- ownership -----

  /** What a step can do to the owner of an execution. */
  lemma {:induction false} OwnerStep(defs: Defs, s: System, action: Action, e: ExecId)
    requires e in s.rows && Enabled(defs, s, action)
    ensures e in Apply(defs, s, action).rows
    ensures Apply(defs, s, action).rows[e].node
         == if action.Acquire? && action.exec == e then Some(action.node)
            else if action.Release? then ReleaseRow(s.rows[e], action.dead.node).node
            else s.rows[e].node
  {
    hide Moved;
    if action.Moves? {
      MoveFrame(defs, s, action.proc, action.move);
    }
  }

  /** A takeover query at m found this node's heartbeat too old. */
  ghost predicate SawStale(defs: Defs, actions: seq<Action>, m: nat, taker: ProcId, dead: Dead)
    requires m < |actions|
  {
    var s := StateAt(defs, actions, m);
    && actions[m].Query? && actions[m].taker == taker
    && dead.node in s.nodes && dead == Dead(dead.node, s.nodes[dead.node], s.now)
    && s.nodes[dead.node] + actions[m].threshold < s.now && dead.node != actions[m].me
  }

  lemma {:induction false} TakerStep(defs: Defs, s: System, action: Action, taker: ProcId)
    requires Enabled(defs, s, action)
    ensures var s' := Apply(defs, s, action);
            if action.Query? && action.taker == taker
            then taker in s'.takers && s'.takers[taker] == StaleNodes(s.nodes, action.me, action.threshold, s.now)
            else
              && (taker in s'.takers <==> taker in s.takers)
              && (taker in s.takers ==> s'.takers[taker] == s.takers[taker])
  {
    hide Moved;
    if action.Moves? {
      MoveFrame(defs, s, action.proc, action.move);
    }
  }

  /** Whatever a takeover works on, its query has seen. */
  lemma {:induction false} TakersSawStale(defs: Defs, actions: seq<Action>, k: nat, taker: ProcId, dead: Dead)
    requires IsRun(defs, actions) && k <= |actions|
    requires taker in StateAt(defs, actions, k).takers && dead in StateAt(defs, actions, k).takers[taker]
    ensures exists m :: 0 <= m < k && SawStale(defs, actions, m, taker, dead)
    decreases k
  {
    hide Apply;
    assert actions[..0] == [];
    if k > 0 {
      RunStep(defs, actions, k - 1);
      TakerStep(defs, StateAt(defs, actions, k - 1), actions[k - 1], taker);
      if actions[k - 1].Query? && actions[k - 1].taker == taker {
        assert SawStale(defs, actions, k - 1, taker, dead);
      } else {
        TakersSawStale(defs, actions, k - 1, taker, dead);
        var m :| 0 <= m < k - 1 && SawStale(defs, actions, m, taker, dead);
      }
    }
  }

  /** Action k is a takeover that released execution e from this node, after its query saw a heartbeat too old. */
  ghost predicate ReleasedAfterStale(defs: Defs, actions: seq<Action>, k: nat, e: ExecId, node: NodeId)
    requires k < |actions|
  {
    && actions[k].Release? && actions[k].dead.node == node
    && e in StateAt(defs, actions, k).rows && StateAt(defs, actions, k).rows[e].node == Some(node)
    && StateAt(defs, actions, k).rows[e].status in {Running, Queued}
    && exists m :: 0 <= m < k && SawStale(defs, actions, m, actions[k].taker, actions[k].dead)
  }

  /** An execution owned by a node stays with it until a takeover that saw that node silent releases it. */
  lemma {:induction false} OwnerStays(defs: Defs, actions: seq<Action>, e: ExecId, node: NodeId, i: nat, j: nat)
    requires IsRun(defs, actions) && i <= j <= |actions|
    requires e in StateAt(defs, actions, i).rows && StateAt(defs, actions, i).rows[e].node == Some(node)
    ensures e in StateAt(defs, actions, j).rows
    ensures StateAt(defs, actions, j).rows[e].node == Some(node)
            || exists k :: i <= k < j && ReleasedAfterStale(defs, actions, k, e, node)
    decreases j - i
  {
    hide Apply;
    hide After;
    if i < j {
      OwnerStays(defs, actions, e, node, i, j - 1);
      RunStep(defs, actions, j - 1);
      var s, a := StateAt(defs, actions, j - 1), actions[j - 1];
      OwnerStep(defs, s, a, e);
      if s.rows[e].node == Some(node) && a.Release? && ReleaseRow(s.rows[e], a.dead.node).node != Some(node) {
        TakersSawStale(defs, actions, j - 1, a.taker, a.dead);
        assert ReleasedAfterStale(defs, actions, j - 1, e, node);
      }
    }
  }

  /**
   * If two different nodes acquire the same execution, a takeover released it in between,
   * after its query had seen the heartbeat of the first node older than the threshold.
   */
  lemma {:induction false} HandoverNeedsTakeover(defs: Defs, actions: seq<Action>, i: nat, j: nat)
    requires IsRun(defs, actions) && i < j < |actions|
    requires actions[i].Acquire? && actions[j].Acquire? && actions[i].exec == actions[j].exec
    requires actions[i].node != actions[j].node
    ensures exists k :: i < k < j && ReleasedAfterStale(defs, actions, k, actions[i].exec, actions[i].node)
  {
    hide Apply;
    hide After;
    var e := actions[i].exec;
    RunStep(defs, actions, i);
    OwnerStep(defs, StateAt(defs, actions, i), actions[i], e);
    OwnerStays(defs, actions, e, actions[i].node, i + 1, j);
    RunStep(defs, actions, j);
  }

  // ----- heartbeats -----

  predicate IsSign(action: Action, node: NodeId) {
    (action.Register? && action.node == node) || (action.Beat? && action.node == node)
  }

  lemma {:induction false} HeartbeatStep(defs: Defs, s: System, action: Action, node: NodeId)
    requires Enabled(defs, s, action)
    ensures var s' := Apply(defs, s, action);
            && s.now <= s'.now
            && (node in s'.nodes ==>
                  (IsSign(action, node) && s'.nodes[node] == s.now)
                      || (node in s.nodes && s'.nodes[node] == s.nodes[node]))
            && (IsSign(action, node) && node in s.nodes ==> node in s'.nodes && s'.nodes[node] == s.now)
  {
    hide Moved;
    if action.Moves? {
      MoveFrame(defs, s, action.proc, action.move);
    }
  }

  lemma {:induction false} ClockGrows(defs: Defs, actions: seq<Action>, i: nat, j: nat)
    requires IsRun(defs, actions) && i <= j <= |actions|
    ensures StateAt(defs, actions, i).now <= StateAt(defs, actions, j).now
    decreases j - i
  {
    hide Apply;
    hide After;
    if i < j {
      ClockGrows(defs, actions, i, j - 1);
      RunStep(defs, actions, j - 1);
      HeartbeatStep(defs, StateAt(defs, actions, j - 1), actions[j - 1], "");
    }
  }

  /** A registered node's heartbeat is at least as young as any sign of life it has given while registered. */
  lemma {:induction false} HeartbeatIsYoung(defs: Defs, actions: seq<Action>, node: NodeId, i: nat, j: nat)
    requires IsRun(defs, actions) && i < j <= |actions| && IsSign(actions[i], node)
    requires node in StateAt(defs, actions, i).nodes || actions[i].Register?
    requires node in StateAt(defs, actions, j).nodes
    ensures StateAt(defs, actions, j).nodes[node] >= StateAt(defs, actions, i).now
    decreases j - i
  {
    hide Apply;
    hide After;
    RunStep(defs, actions, j - 1);
    HeartbeatStep(defs, StateAt(defs, actions, j - 1), actions[j - 1], node);
    ClockGrows(defs, actions, i, j - 1);
    if i < j - 1 && node in StateAt(defs, actions, j - 1).nodes {
      HeartbeatIsYoung(defs, actions, node, i, j - 1);
    }
  }

  /** At every moment at which the node is registered, it has given a sign of life within the threshold. */
  ghost predicate BeatsInTime(defs: Defs, actions: seq<Action>, node: NodeId, threshold: nat) {
    forall k :: 0 <= k <= |actions| && node in StateAt(defs, actions, k).nodes ==>
        GaveSign(defs, actions, node, threshold, k)
  }

  ghost predicate GaveSign(defs: Defs, actions: seq<Action>, node: NodeId, threshold: nat, k: nat)
    requires k <= |actions|
  {
    exists i :: 0 <= i < k && IsSign(actions[i], node)
                && (node in StateAt(defs, actions, i).nodes || actions[i].Register?)
                && StateAt(defs, actions, k).now <= StateAt(defs, actions, i).now + threshold
  }

  /** A node whose heartbeats are never further apart than the threshold is never found by a takeover query. */
  lemma {:induction false} PunctualNodesAreNeverTaken(
      defs: Defs, actions: seq<Action>, node: NodeId, threshold: nat, m: nat, taker: ProcId, dead: Dead)
    requires IsRun(defs, actions) && BeatsInTime(defs, actions, node, threshold) && m < |actions|
    requires actions[m].Query? && actions[m].threshold >= threshold && dead.node == node
    ensures !SawStale(defs, actions, m, taker, dead)
  {
    hide After;
    if node in StateAt(defs, actions, m).nodes {
      assert GaveSign(defs, actions, node, threshold, m);
      var i :| 0 <= i < m && IsSign(actions[i], node)
               && (node in StateAt(defs, actions, i).nodes || actions[i].Register?)
               && StateAt(defs, actions, m).now <= StateAt(defs, actions, i).now + threshold;
      HeartbeatIsYoung(defs, actions, node, i, m);
    }
  }

  /** So its executions are never handed over, when every takeover uses at least that threshold. */
  lemma {:induction false} PunctualNodesKeepTheirWork(
      defs: Defs, actions: seq<Action>, node: NodeId, threshold: nat, e: ExecId, i: nat, j: nat)
    requires IsRun(defs, actions) && BeatsInTime(defs, actions, node, threshold) && i <= j <= |actions|
    requires forall m :: 0 <= m < |actions| && actions[m].Query? ==> actions[m].threshold >= threshold
    requires e in StateAt(defs, actions, i).rows && StateAt(defs, actions, i).rows[e].node == Some(node)
    ensures e in StateAt(defs, actions, j).rows && StateAt(defs, actions, j).rows[e].node == Some(node)
  {
    hide After;
    OwnerStays(defs, actions, e, node, i, j);
    forall k | i <= k < j
      ensures !ReleasedAfterStale(defs, actions, k, e, node)
    {
      if actions[k].Release? && actions[k].dead.node == node {
        forall m | 0 <= m < k
          ensures !SawStale(defs, actions, m, actions[k].taker, actions[k].dead)
        {
          if actions[m].Query? {
            PunctualNodesAreNeverTaken(defs, actions, node, threshold, m, actions[k].taker, actions[k].dead);
          }
        }
      }
    }
  }
}
