/**
 * One scheduler node (internal/engine/scheduler.go) and the handlers that change executions and approvals
 * (internal/api/handler), over the shared database, with everybody else acting between their statements.
 */
module Scheduler {
  import opened Prelude
  import opened StateMachine
  import opened System
  import opened Handover
  import VersionHandlers

  /** Actions that belong to a takeover round. */
  predicate IsBy(a: Action, taker: Option<ProcId>) {
    taker.Some? && (a.Query? || a.Release? || a.Bury?) && a.taker == taker.value
  }

  lemma PrefixKeeps(before: seq<Action>, after: seq<Action>)
    requires before <= after
    ensures forall a :: a in before ==> a in after
  {
  }

  /** Since position from, this node has acquired the execution, or somebody else was seen to own it. */
  ghost predicate Tried(defs: Defs, trace: seq<Action>, from: nat, node: NodeId, e: ExecId) {
    || (exists i :: from <= i < |trace| && trace[i].Acquire? && trace[i].node == node && trace[i].exec == e)
    || (exists k :: from <= k <= |trace| && OwnedElsewhere(StateAt(defs, trace, k), node, e))
  }

  predicate OwnedElsewhere(s: System, node: NodeId, e: ExecId) {
    e in s.rows && !CanAcquire(s.rows[e], node)
  }

  lemma TriedStays(defs: Defs, trace: seq<Action>, longer: seq<Action>, from: nat, node: NodeId, e: ExecId)
    requires Tried(defs, trace, from, node, e) && trace <= longer
    ensures Tried(defs, longer, from, node, e)
  {
    hide After;
    if i :| from <= i < |trace| && trace[i].Acquire? && trace[i].node == node && trace[i].exec == e {
      assert longer[i] == trace[i];
    } else {
      var k :| from <= k <= |trace| && OwnedElsewhere(StateAt(defs, trace, k), node, e);
      assert longer[..k] == trace[..k];
      assert OwnedElsewhere(StateAt(defs, longer, k), node, e);
    }
  }

  predicate IsQueued(s: System, e: ExecId) {
    e in s.rows && s.rows[e].status == Queued && s.rows[e].node.None?
  }

  predicate NotYounger(s: System, d: ExecId, e: ExecId) {
    d in s.rows && e in s.rows && s.rows[d].createdAt <= s.rows[e].createdAt
  }

  /** The poll result: queued and unowned executions, the oldest first, at most ten, and no older one left out. */
  ghost predicate IsPollResult(s: System, ids: seq<ExecId>) {
    && |ids| <= 10
    && (forall e :: e in ids ==> IsQueued(s, e))
    && (forall i, j :: 0 <= i < j < |ids| ==> ids[i] != ids[j] && NotYounger(s, ids[i], ids[j]))
    && (forall e :: IsQueued(s, e) && e !in ids ==> |ids| == 10 && forall d :: d in ids ==> NotYounger(s, d, e))
  }

  class Database {
    const defs: Defs
    /** True when no statement fails. */
    const reliable: bool
    var state: System
    /** Everything that has happened, by whomever. */
    ghost var trace: seq<Action>

    constructor (defs: Defs, reliable: bool)
      ensures Valid() && this.defs == defs && this.reliable == reliable
    {
      this.defs, this.reliable := defs, reliable;
      state, trace := INITIAL, [];
    }

    /** The state is what a run of the system has led to, so all that holds of runs holds of it. */
    ghost predicate Valid()
      reads this
    {
      IsRun(defs, trace) && state == After(defs, trace)
    }

    method Perform(a: Action)
      requires Valid() && Enabled(defs, state, a)
      modifies this
      ensures Valid() && state == Apply(defs, old(state), a) && trace == old(trace) + [a]
    {
      hide Enabled;
      hide Apply;
      state := Apply(defs, state, a);
      trace := trace + [a];
      assert trace[..|trace| - 1] == old(trace);
    }

    /** Nodes, calls and users do anything they can, any number of times; only this takeover round stands still. */
    method Others(taker: Option<ProcId>)
      requires Valid()
      modifies this
      ensures Valid() && old(trace) <= trace
      ensures taker.Some? && taker.value in old(state.takers) ==>
                taker.value in state.takers && state.takers[taker.value] == old(state.takers)[taker.value]
      ensures forall i :: |old(trace)| <= i < |trace| ==> !IsBy(trace[i], taker)
      ensures forall e :: e in old(state.rows) ==> e in state.rows
    {
      hide Apply;
      hide After;
      hide IsRun;
      hide Enabled;
      var more: bool := *;
      var n: nat := 0;
      if more {
        n :| n > 0;
      }
      for i := 0 to n
        invariant Valid() && old(trace) <= trace
        invariant taker.Some? && taker.value in old(state.takers) ==>
                    taker.value in state.takers && state.takers[taker.value] == old(state.takers)[taker.value]
        invariant forall k :: |old(trace)| <= k < |trace| ==> !IsBy(trace[k], taker)
        invariant forall e :: e in old(state.rows) ==> e in state.rows
      {
        var a: Action := *;
        if Enabled(defs, state, a) && !IsBy(a, taker) {
          OtherStep(state, a, taker);
          Perform(a);
        }
      }
    }

    lemma OtherStep(s: System, a: Action, taker: Option<ProcId>)
      requires Enabled(defs, s, a) && !IsBy(a, taker)
      ensures taker.Some? && taker.value in s.takers ==>
                taker.value in Apply(defs, s, a).takers
                    && Apply(defs, s, a).takers[taker.value] == s.takers[taker.value]
      ensures forall e :: e in s.rows ==> e in Apply(defs, s, a).rows
    {
      hide Apply;
      hide Enabled;
      if taker.Some? {
        TakerStep(defs, s, a, taker.value);
      }
      forall e | e in s.rows
        ensures e in Apply(defs, s, a).rows
      {
        OwnerStep(defs, s, a, e);
      }
    }

    /** A statement may fail, unless the database is reliable. */
    method Statement() returns (ok: bool)
      ensures reliable ==> ok
    {
      ok := *;
      if reliable {
        ok := true;
      }
    }

    /** The advisory lock may be granted or refused at will. */
    method TryLock() returns (locked: bool)
    {
      locked := *;
    }

    /** One of these executions, created no later than any other of them. */
    method Oldest(candidates: set<ExecId>) returns (oldest: ExecId)
      requires candidates != {} && candidates <= state.rows.Keys
      ensures oldest in candidates
      ensures forall e :: e in candidates ==> state.rows[oldest].createdAt <= state.rows[e].createdAt
    {
      oldest :| oldest in candidates;
      var todo := candidates - {oldest};
      while todo != {}
        invariant todo <= candidates && oldest in candidates
        invariant forall e :: e in candidates - todo ==> state.rows[oldest].createdAt <= state.rows[e].createdAt
      {
        var e :| e in todo;
        todo := todo - {e};
        if state.rows[e].createdAt < state.rows[oldest].createdAt {
          oldest := e;
        }
      }
    }

    /** The query of the poll loop. */
    method SelectQueued() returns (ids: seq<ExecId>)
      ensures IsPollResult(state, ids)
    {
      ids := [];
      var left := set e | e in state.rows && IsQueued(state, e);
      while left != {} && |ids| < 10
        invariant |ids| <= 10 && left <= state.rows.Keys
        invariant forall e :: IsQueued(state, e) <==> e in ids || e in left
        invariant forall e :: e in ids ==> e !in left
        invariant forall i, j :: 0 <= i < j < |ids| ==>
                    ids[i] != ids[j] && NotYounger(state, ids[i], ids[j])
        invariant forall d, e :: d in ids && e in left ==> NotYounger(state, d, e)
      {
        var e := Oldest(left);
        left := left - {e};
        ids := ids + [e];
      }
    }
  }

  /** The calls a node has started since, and the locks it kept, are of executions it had found and acquired. */
  ghost predicate Started(node: NodeId, trace: seq<Action>, found: seq<ExecId>, ran: map<ExecId, ProcId>,
                          running: map<ExecId, ProcId>, held: multiset<ExecId>, locks: multiset<ExecId>) {
    && (forall e :: e in running && !(e in ran && ran[e] == running[e]) ==>
          e in found && Acquire(running[e], node, e) in trace)
    && held <= locks && forall e :: locks[e] > held[e] ==> e in found && e in running
  }

  lemma StillStarted(node: NodeId, trace: seq<Action>, trace': seq<Action>, found: seq<ExecId>,
                     ran: map<ExecId, ProcId>, running: map<ExecId, ProcId>, held: multiset<ExecId>,
                     locks: multiset<ExecId>)
    requires Started(node, trace, found, ran, running, held, locks) && trace <= trace'
    ensures Started(node, trace', found, ran, running, held, locks)
  {
    PrefixKeeps(trace, trace');
  }

  lemma OneMoreStarted(node: NodeId, trace: seq<Action>, found: seq<ExecId>, ran: map<ExecId, ProcId>,
                       running: map<ExecId, ProcId>, held: multiset<ExecId>, locks: multiset<ExecId>, e: ExecId,
                       p: ProcId)
    requires Started(node, trace, found, ran, running, held, locks) && e in found && Acquire(p, node, e) in trace
    ensures Started(node, trace, found, ran, running[e := p], held, locks + multiset{e})
  {
  }

  class Scheduler {
    const db: Database
    const nodeId: NodeId
    const takeoverThreshold: nat

    /** The calls of Execute this node has started. */
    var running: map<ExecId, ProcId>

    /** The advisory locks this node was granted and has not released. */
    var locks: multiset<ExecId>

    constructor (db: Database, nodeId: NodeId, takeoverThreshold: nat)
      ensures this.db == db && this.nodeId == nodeId && this.takeoverThreshold == takeoverThreshold
      ensures running == map[] && locks == multiset{}
    {
      this.db, this.nodeId, this.takeoverThreshold := db, nodeId, takeoverThreshold;
      running, locks := map[], multiset{};
    }

    /** The last thing that happened is this action, and it could happen. */
    ghost predicate JustDid(a: Action)
      reads db
    {
      db.trace != [] && db.trace[|db.trace| - 1] == a
    }

    method RegisterNode() returns (ok: bool)
      requires db.Valid()
      modifies db
      ensures db.Valid() && (db.reliable ==> ok)
              && (ok ==> nodeId in db.state.nodes && db.state.nodes[nodeId] == db.state.now)
    {
      hide Moved;
      ok := db.Statement();
      if ok {
        db.Perform(Register(nodeId));
      }
    }

    /** One turn of the heartbeat loop. It revives nobody: a node that was taken over stays deleted. */
    method Heartbeat()
      requires db.Valid()
      modifies db
      ensures db.Valid() && db.state.nodes.Keys == old(db.state.nodes.Keys)
      ensures forall n :: n in db.state.nodes && n != nodeId ==> db.state.nodes[n] == old(db.state.nodes)[n]
      ensures db.reliable && nodeId in db.state.nodes ==> db.state.nodes[nodeId] == db.state.now
    {
      hide Moved;
      var ok := db.Statement();
      if ok {
        db.Perform(Beat(nodeId));
      }
    }

    /** Becomes the owner of an execution and keeps its lock, when that is granted and nobody else is the owner. */
    method TryAcquireExecution(e: ExecId) returns (acquired: Option<ProcId>, ghost locked: bool)
      requires db.Valid()
      modifies db, this`locks
      ensures locks == old(locks) + if acquired.Some? then multiset{e} else multiset{}
      ensures acquired.Some? ==> locked
      ensures db.Valid() && old(db.trace) <= db.trace
      ensures forall d :: d in old(db.state.rows) ==> d in db.state.rows
      ensures acquired.Some? ==>
                && JustDid(Acquire(acquired.value, nodeId, e)) && |old(db.trace)| < |db.trace|
                && e in db.state.rows && db.state.rows[e].node == Some(nodeId)
                && acquired.value in db.state.incs
                && db.state.incs[acquired.value] == Inc(e, nodeId, Queued, {}, Acquired)
      ensures db.reliable && locked && acquired.None? ==> e !in db.state.rows || OwnedElsewhere(db.state, nodeId, e)
    {
      hide Moved;
      hide After;
      hide IsRun;
      var granted := db.TryLock();
      locked := granted;
      if !granted {
        return None, locked;
      }
      locks := locks + multiset{e};
      db.Others(None);
      var updated := db.Statement();
      if !updated || e !in db.state.rows || !CanAcquire(db.state.rows[e], nodeId) {
        ReleaseAdvisoryLock(e);
        return None, locked;
      }
      var p := VersionHandlers.FreshId(db.state.incs.Keys);
      db.Perform(Acquire(p, nodeId, e));
      return Some(p), locked;
    }

    method ReleaseAdvisoryLock(e: ExecId)
      modifies this`locks
      ensures locks == old(locks) - multiset{e}
    {
      locks := locks - multiset{e};
    }

    /** One execution of the poll result: a call is started for it when it can be acquired. */
    method Take(e: ExecId, ghost from: nat, ghost found: seq<ExecId>, ghost ran: map<ExecId, ProcId>,
                ghost held: multiset<ExecId>)
        returns (ghost locked: bool)
      requires db.Valid() && from <= |db.trace| && e in db.state.rows && e in found
      requires Started(nodeId, db.trace, found, ran, running, held, locks)
      modifies this, db
      ensures db.Valid() && old(db.trace) <= db.trace
      ensures forall d :: d in old(db.state.rows) ==> d in db.state.rows
      ensures Started(nodeId, db.trace, found, ran, running, held, locks)
      ensures db.reliable && locked ==> Tried(db.defs, db.trace, from, nodeId, e)
    {
      hide After;
      hide IsRun;
      hide Started;
      ghost var before, kept := db.trace, locks;
      var acquired, granted := TryAcquireExecution(e);
      locked := granted;
      StillStarted(nodeId, before, db.trace, found, ran, running, held, kept);
      assert kept + multiset{} == kept;
      if acquired.Some? {
        assert db.trace[|db.trace| - 1] == Acquire(acquired.value, nodeId, e);
        OneMoreStarted(nodeId, db.trace, found, ran, running, held, kept, e, acquired.value);
        RunExecution(e, acquired.value);
      } else if db.reliable && locked {
        assert db.trace[..|db.trace|] == db.trace;
        assert OwnedElsewhere(StateAt(db.defs, db.trace, |db.trace|), nodeId, e);
      }
    }

    /**
     * Starts a call for every execution the poll found that this node could acquire. Without failing statements
     * every one of them is tried: it is acquired, or its lock is refused, or another node owns it by then.
     */
    method PollForWork() returns (ghost found: seq<ExecId>, ghost refused: set<ExecId>)
      requires db.Valid()
      modifies this, db
      ensures db.Valid() && old(db.trace) <= db.trace
      ensures db.reliable ==> IsPollResult(old(db.state), found)
      ensures forall e :: e in found ==> IsQueued(old(db.state), e)
      ensures Started(nodeId, db.trace, found, old(running), running, old(locks), locks)
      ensures db.reliable ==>
                forall e :: e in found && e !in refused ==> Tried(db.defs, db.trace, |old(db.trace)|, nodeId, e)
    {
      hide Moved;
      hide After;
      hide IsRun;
      hide Tried;
      found, refused := [], {};
      var ok := db.Statement();
      if !ok {
        return;
      }
      var ids := db.SelectQueued();
      found := ids;
      ghost var from := |db.trace|;
      hide Started;
      for i := 0 to |ids|
        invariant db.Valid() && old(db.trace) <= db.trace
        invariant forall e :: e in ids ==> e in db.state.rows
        invariant Started(nodeId, db.trace, ids, old(running), running, old(locks), locks)
        invariant db.reliable ==>
                    forall j :: 0 <= j < i && ids[j] !in refused ==> Tried(db.defs, db.trace, from, nodeId, ids[j])
      {
        ghost var before := db.trace;
        assert ids[i] in ids;
        ghost var locked := Take(ids[i], from, ids, old(running), old(locks));
        PrefixKeeps(before, db.trace);
        forall j | 0 <= j < i && ids[j] !in refused && db.reliable
          ensures Tried(db.defs, db.trace, from, nodeId, ids[j])
        {
          TriedStays(db.defs, before, db.trace, from, nodeId, ids[j]);
        }
        if !locked {
          refused := refused + {ids[i]};
        }
      }
    }

    method RunExecution(e: ExecId, p: ProcId)
      modifies this`running
      ensures running == old(running)[e := p]
    {
      running := running[e := p];
    }

    /** What happens when a call of Execute returns. */
    method ExecutionReturned(e: ExecId)
      modifies this
      ensures running == old(running) - {e} && locks == old(locks) - multiset{e}
    {
      running := running - {e};
      ReleaseAdvisoryLock(e);
    }

    /** Returns executions of nodes that look dead to the queue, and forgets those nodes. */
    method PerformTakeover(taker: ProcId)
      requires db.Valid() && taker !in db.state.takers
      modifies db
      ensures db.Valid() && old(db.trace) <= db.trace
      ensures forall i :: |old(db.trace)| <= i < |db.trace| && IsBy(db.trace[i], Some(taker)) && !db.trace[i].Query? ==>
                db.trace[i].dead in StaleNodes(old(db.state.nodes), nodeId, takeoverThreshold, old(db.state.now))
      ensures db.reliable ==>
                forall dead :: dead in StaleNodes(old(db.state.nodes), nodeId, takeoverThreshold, old(db.state.now)) ==>
                  Release(taker, dead) in db.trace && Bury(taker, dead) in db.trace
    {
      hide Moved;
      hide After;
      hide IsRun;
      var ok := db.Statement();
      if !ok {
        return;
      }
      db.Perform(Query(taker, nodeId, takeoverThreshold));
      var deadNodes := db.state.takers[taker];
      hide Apply;
      hide Enabled;
      var todo := deadNodes;
      while todo != {}
        invariant db.Valid() && old(db.trace) <= db.trace && todo <= deadNodes
        invariant taker in db.state.takers && db.state.takers[taker] == deadNodes
        invariant forall i ::
                    |old(db.trace)| <= i < |db.trace| && IsBy(db.trace[i], Some(taker)) && !db.trace[i].Query? ==>
                    db.trace[i].dead in deadNodes
        invariant db.reliable ==> forall dead :: dead in deadNodes && dead !in todo ==>
                    Release(taker, dead) in db.trace && Bury(taker, dead) in db.trace
      {
        var dead :| dead in todo;
        todo := todo - {dead};
        ghost var before := db.trace;
        TakeOverFrom(taker, dead);
        PrefixKeeps(before, db.trace);
      }
    }

    /** One dead node: its executions are released, and then it is deleted. */
    method TakeOverFrom(taker: ProcId, dead: Dead)
      requires db.Valid() && taker in db.state.takers && dead in db.state.takers[taker]
      modifies db
      ensures db.Valid() && old(db.trace) <= db.trace
      ensures taker in db.state.takers && db.state.takers[taker] == old(db.state.takers)[taker]
      ensures forall i :: |old(db.trace)| <= i < |db.trace| && IsBy(db.trace[i], Some(taker)) ==>
                db.trace[i] == Release(taker, dead) || db.trace[i] == Bury(taker, dead)
      ensures db.reliable ==> Release(taker, dead) in db.trace && Bury(taker, dead) in db.trace
    {
      hide Moved;
      hide After;
      hide IsRun;
      db.Others(Some(taker));
      var ok := db.Statement();
      if !ok {
        return;
      }
      db.Perform(Release(taker, dead));
      assert Release(taker, dead) in db.trace;
      ghost var before := db.trace;
      db.Others(Some(taker));
      PrefixKeeps(before, db.trace);
      ok := db.Statement();
      if ok {
        ghost var almost := db.trace;
        db.Perform(Bury(taker, dead));
        PrefixKeeps(almost, db.trace);
      }
    }
  }

  /** The last thing that happened is this attempt to decide a request. */
  predicate JustDecided(trace: seq<Action>, a: ApprovalId, tenant: TenantId, decision: Decision) {
    trace != [] && trace[|trace| - 1] == Decide(a, tenant, decision)
  }

  /** The last thing that happened found the request undecided. */
  ghost predicate JustWon(defs: Defs, trace: seq<Action>, a: ApprovalId) {
    trace != [] && Wins(StateAt(defs, trace, |trace| - 1), trace[|trace| - 1], a)
  }

  /** Approve and Reject: the guarded update that decides a request. */
  method Respond(db: Database, a: ApprovalId, tenant: TenantId, decision: Decision) returns (ok: bool)
    requires db.Valid() && decision != Undecided
    modifies db
    ensures db.Valid() && old(db.trace) <= db.trace
    ensures ok ==> JustWon(db.defs, db.trace, a) && JustDecided(db.trace, a, tenant, decision)
    ensures ok ==> a in db.state.approvals && db.state.approvals[a].status == decision
    ensures db.reliable ==> (ok <==> JustWon(db.defs, db.trace, a)) && JustDecided(db.trace, a, tenant, decision)
  {
    hide Moved;
    hide After;
    hide IsRun;
    db.Others(None);
    var sent := db.Statement();
    if !sent {
      return false;
    }
    ok := a in db.state.approvals && db.state.approvals[a].tenant == tenant
        && db.state.approvals[a].status == Undecided;
    ghost var before := db.trace;
    db.Perform(Decide(a, tenant, decision));
    assert db.trace[..|db.trace| - 1] == before;
  }

  method Approve(db: Database, a: ApprovalId, tenant: TenantId) returns (ok: bool)
    requires db.Valid()
    modifies db
    ensures db.Valid() && old(db.trace) <= db.trace
    ensures ok ==> a in db.state.approvals && db.state.approvals[a].status == Approved
    ensures db.reliable ==> (ok <==> JustWon(db.defs, db.trace, a)) && JustDecided(db.trace, a, tenant, Approved)
  {
    ok := Respond(db, a, tenant, Approved);
  }

  method Reject(db: Database, a: ApprovalId, tenant: TenantId) returns (ok: bool)
    requires db.Valid()
    modifies db
    ensures db.Valid() && old(db.trace) <= db.trace
    ensures ok ==> a in db.state.approvals && db.state.approvals[a].status == Rejected
    ensures db.reliable ==> (ok <==> JustWon(db.defs, db.trace, a)) && JustDecided(db.trace, a, tenant, Rejected)
  {
    ok := Respond(db, a, tenant, Rejected);
  }

  /** Cancel: succeeds exactly when it finds the execution in a state that is not terminal. */
  method CancelExecution(db: Database, e: ExecId, tenant: TenantId) returns (ok: bool)
    requires db.Valid()
    modifies db
    ensures db.Valid() && old(db.trace) <= db.trace
    ensures ok ==>
              && e in db.state.rows && db.state.rows[e].status == Cancelled
              && db.state.rows[e].finishedAt == Some(db.state.now)
    ensures db.reliable && !ok ==>
              e !in db.state.rows || db.state.rows[e].tenant != tenant || IsTerminalStatus(db.state.rows[e].status)
  {
    hide Moved;
    hide After;
    hide IsRun;
    db.Others(None);
    var sent := db.Statement();
    if !sent {
      return false;
    }
    ok := e in db.state.rows && db.state.rows[e].tenant == tenant && !IsTerminalStatus(db.state.rows[e].status);
    db.Perform(Cancel(e, tenant));
  }
}
