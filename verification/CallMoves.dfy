/**
 * What one Execute call does to the shared system, move by move: where the call is, and what it leaves in the rows of
 * its execution. The deciders of its approvals act in between.
 */
module CallMoves {
  import opened Prelude
  import opened Model
  import opened Graph
  import opened Dag
  import opened StateMachine
  import opened Semantics
  import opened System
  import opened Reachability

  /** An Execute call, and the state of the system in which its execution was acquired. */
  datatype Caller = Caller(defs: Defs, start: System, proc: ProcId, exec: ExecId)

  /** What the rows of an execution hold, the clock, and the names under which one call has called runners for it. */
  datatype Tables = Tables(now: nat, status: Status, startedAt: Option<nat>, finishedAt: Option<nat>,
                           saved: Option<set<string>>, marks: map<string, StepRowStatus>, made: multiset<string>)

  /** What the name of the request of a compensation adds to that of its step. */
  const SUFFIX := "_compensation"

  predicate IsCompensation(name: string) {
    |SUFFIX| <= |name| && name[|name| - |SUFFIX|..] == SUFFIX
  }

  /** How often a call p has called a runner with this name, for a step or for a compensation. */
  function CallsNamed(calls: multiset<RunnerCall>, compensations: multiset<RunnerCall>, p: ProcId, e: ExecId,
                      name: string): nat {
    calls[RunnerCall(e, name, p)]
    + if IsCompensation(name) then compensations[RunnerCall(e, name[..|name| - |SUFFIX|], p)] else 0
  }

  lemma {:induction false} OneMoreCall(
      calls: multiset<RunnerCall>, compensations: multiset<RunnerCall>, p: ProcId, e: ExecId, id: string, name: string)
    ensures CallsNamed(calls + multiset{RunnerCall(e, id, p)}, compensations, p, e, name)
         == CallsNamed(calls, compensations, p, e, name) + if name == id then 1 else 0
  {
    hide IsCompensation;
  }

  lemma {:induction false} OneMoreCompensation(
      calls: multiset<RunnerCall>, compensations: multiset<RunnerCall>, p: ProcId, e: ExecId, id: string, name: string)
    ensures CallsNamed(calls, compensations + multiset{RunnerCall(e, id, p)}, p, e, name)
         == CallsNamed(calls, compensations, p, e, name) + if name == id + SUFFIX then 1 else 0
  {
    var own := id + SUFFIX;
    assert own[|id|..] == SUFFIX && own[..|id|] == id;
    if IsCompensation(name) {
      assert name == name[..|name| - |SUFFIX|] + SUFFIX;
    }
  }

  ghost predicate Holds(s: System, p: ProcId, e: ExecId, t: Tables) {
    && s.now == t.now && e in s.rows
    && s.rows[e].status == t.status && s.rows[e].startedAt == t.startedAt && s.rows[e].finishedAt == t.finishedAt
    && s.rows[e].checkpoint == t.saved
    && (forall id :: (e, id) in s.stepRows <==> id in t.marks)
    && (forall id :: id in t.marks ==> s.stepRows[(e, id)].status == t.marks[id])
    && (forall name :: CallsNamed(s.calls, s.compensations, p, e, name) == t.made[name])
  }

  /** The system has got from the start to s, where the call is at pc and its rows hold t. */
  ghost predicate Linked(me: Caller, s: System, status: Status, done: set<string>, pc: Pc, t: Tables) {
    && Reaches(me.defs, me.start, s)
    && Stands(s, me.proc, me.exec, status, done, pc) && Holds(s, me.proc, me.exec, t)
  }

  /** The call was just acquired. */
  ghost predicate Begun(me: Caller, s: System, t: Tables) {
    exists status, done :: Linked(me, s, status, done, Acquired, t)
  }

  lemma BegunAtOnce(me: Caller, t: Tables)
    requires me.proc in me.start.incs && me.start.incs[me.proc].exec == me.exec
    requires me.start.incs[me.proc].pc == Acquired && Holds(me.start, me.proc, me.exec, t)
    ensures Begun(me, me.start, t)
  {
    hide Reaches;
    ReachesItself(me.defs, me.start);
    var inc := me.start.incs[me.proc];
    assert Linked(me, me.start, inc.status, inc.completed, Acquired, t);
  }

  /** The call is over, whatever it remembers. */
  ghost predicate Over(me: Caller, s: System, t: Tables) {
    exists status, done :: Linked(me, s, status, done, Gone, t)
  }

  lemma GoneIsOver(me: Caller, s: System, status: Status, done: set<string>, t: Tables)
    requires Linked(me, s, status, done, Gone, t)
    ensures Over(me, s, t)
  {
  }

  lemma Goes(me: Caller, s: System, a: Action)
    requires Reaches(me.defs, me.start, s) && Enabled(me.defs, s, a)
    ensures Reaches(me.defs, me.start, Apply(me.defs, s, a))
  {
    hide Reaches;
    hide Apply;
    hide Enabled;
    ReachesByOne(me.defs, s, a);
    ReachesOn(me.defs, me.start, s, Apply(me.defs, s, a));
  }

  /** The row after a transition, at the time of the clock. */
  function Written(t: Tables, to: Status): Tables {
    t.(status := to, startedAt := if to == Running then Some(t.now) else t.startedAt,
       finishedAt := if IsTerminalStatus(to) then Some(t.now) else None)
  }

  predicate Takes(status: Status, to: Status, ok: bool) {
    ok && ValidTransition(status, to)
  }

  lemma TransitionLeaves(s: System, p: ProcId, e: ExecId, status: Status, done: set<string>, pc: Pc, t: Tables,
                         to: Status, ok: bool)
    requires Stands(s, p, e, status, done, pc) && Holds(s, p, e, t)
    ensures var s' := Transition(s, p, to, ok);
            && Stands(s', p, e, if Takes(status, to, ok) then to else status, done, pc)
            && Holds(s', p, e, if Takes(status, to, ok) then Written(t, to) else t)
            && s'.approvals == s.approvals
  {
    hide ValidTransition;
  }

  lemma AtLeaves(s: System, p: ProcId, e: ExecId, status: Status, done: set<string>, pc: Pc, t: Tables, next: Pc)
    requires Stands(s, p, e, status, done, pc) && Holds(s, p, e, t)
    ensures Stands(At(s, p, next), p, e, status, done, next) && Holds(At(s, p, next), p, e, t)
    ensures At(s, p, next).approvals == s.approvals
  {
  }

  lemma FinishLeaves(s: System, p: ProcId, e: ExecId, status: Status, done: set<string>, pc: Pc, t: Tables, id: string,
                     rest: seq<string>)
    requires Stands(s, p, e, status, done, pc) && Holds(s, p, e, t)
    ensures Stands(Finish(s, p, id, rest), p, e, status, done + {id}, Saving(rest))
    ensures Holds(Finish(s, p, id, rest), p, e, t)
  {
  }

  /** Recording which nodes were begun or waived, or which requests were made, leaves the rest alone. */
  lemma RecordLeaves(s: System, s': System, p: ProcId, e: ExecId, status: Status, done: set<string>, pc: Pc, t: Tables)
    requires Stands(s, p, e, status, done, pc) && Holds(s, p, e, t)
    requires s'.now == s.now && s'.rows == s.rows && s'.stepRows == s.stepRows && s'.incs == s.incs
    requires s'.calls == s.calls && s'.compensations == s.compensations
    ensures Stands(s', p, e, status, done, pc) && Holds(s', p, e, t)
  {
    hide CallsNamed;
  }

  lemma RowIsThere(s: System, p: ProcId, e: ExecId, t: Tables, id: string)
    requires Holds(s, p, e, t)
    ensures (e, id) in s.stepRows <==> id in t.marks
  {
    hide CallsNamed;
  }

  lemma InsertedLeaves(s: System, p: ProcId, e: ExecId, status: Status, done: set<string>, pc: Pc, t: Tables,
                       id: string)
    requires Stands(s, p, e, status, done, pc) && Holds(s, p, e, t) && id !in t.marks
    ensures var s1 := s.(stepRows := s.stepRows[(e, id) := StepRow(p, RowRunning)]);
            && (e, id) !in s.stepRows
            && Stands(s1, p, e, status, done, pc) && Holds(s1, p, e, t.(marks := t.marks[id := RowRunning]))
  {
    hide CallsNamed;
  }

  lemma SavedLeaves(s: System, p: ProcId, e: ExecId, status: Status, done: set<string>, rest: seq<string>, t: Tables,
                    ok: bool)
    requires Stands(s, p, e, status, done, Saving(rest)) && Holds(s, p, e, t)
    ensures var s1 := Saved(s, p, ok);
            && Stands(s1, p, e, status, done, Todo(rest))
            && Holds(s1, p, e, if ok then t.(saved := Some(done)) else t)
  {
    hide CallsNamed;
  }

  lemma MarkedLeaves(s: System, p: ProcId, e: ExecId, status: Status, done: set<string>, pc: Pc, t: Tables, id: string,
                     mark: StepRowStatus, ok: bool)
    requires Stands(s, p, e, status, done, pc) && Holds(s, p, e, t) && id in t.marks
    ensures Stands(Marked(s, e, id, mark, ok), p, e, status, done, pc)
    ensures Holds(Marked(s, e, id, mark, ok), p, e, if ok then t.(marks := t.marks[id := mark]) else t)
  {
  }

  // ----- the clock, the start and the end of a call -----

  lemma TickMove(me: Caller, s: System, status: Status, done: set<string>, pc: Pc, t: Tables, passed: nat)
      returns (s': System)
    requires Linked(me, s, status, done, pc, t)
    ensures Linked(me, s', status, done, pc, t.(now := t.now + passed)) && s'.approvals == s.approvals
  {
    hide Reaches;
    s' := Apply(me.defs, s, Tick(passed));
    Goes(me, s, Tick(passed));
  }

  lemma LoadedLeaves(defs: Defs, s: System, p: ProcId, e: ExecId, status: Status, done: set<string>, t: Tables,
                     ok: bool)
    requires Stands(s, p, e, status, done, Acquired) && Holds(s, p, e, t)
    ensures var s' := Loaded(defs, s, p, ok);
            && (if ok && DependenciesKnown(defs.of(e)) && ValidTransition(t.status, Running) then
                  Stands(s', p, e, t.status, if t.saved.Some? then t.saved.value else {}, Starting)
                else Stands(s', p, e, status, done, Gone))
            && Holds(s', p, e, t)
  {
    hide DependenciesKnown;
    hide ValidTransition;
  }

  /** The call loads its execution: with a failing statement, an unknown dependency or a wrong status it is over. */
  lemma LoadMove(me: Caller, s: System, t: Tables, ok: bool) returns (s': System)
    requires Begun(me, s, t)
    ensures if ok && DependenciesKnown(me.defs.of(me.exec)) && ValidTransition(t.status, Running) then
              Linked(me, s', t.status, if t.saved.Some? then t.saved.value else {}, Starting, t)
            else Over(me, s', t)
  {
    hide Reaches;
    hide Holds;
    hide DependenciesKnown;
    hide ValidTransition;
    hide Loaded;
    var status, done :| Linked(me, s, status, done, Acquired, t);
    s' := Apply(me.defs, s, Moves(me.proc, Load(ok)));
    Goes(me, s, Moves(me.proc, Load(ok)));
    LoadedLeaves(me.defs, s, me.proc, me.exec, status, done, t, ok);
    if !(ok && DependenciesKnown(me.defs.of(me.exec)) && ValidTransition(t.status, Running)) {
      GoneIsOver(me, s', status, done, t);
    }
  }

  lemma BeginMove(me: Caller, s: System, status: Status, done: set<string>, t: Tables, ok: bool) returns (s': System)
    requires Linked(me, s, status, done, Starting, t)
    ensures if Takes(status, Running, ok) then Linked(me, s', Running, done, Todo([]), Written(t, Running))
            else Linked(me, s', status, done, Gone, t)
  {
    hide Reaches;
    hide Holds;
    hide ValidTransition;
    hide Transition;
    hide At;
    var m := Moves(me.proc, Begin(ok));
    s' := Apply(me.defs, s, m);
    Goes(me, s, m);
    TransitionLeaves(s, me.proc, me.exec, status, done, Starting, t, Running, ok);
    if Takes(status, Running, ok) {
      AtLeaves(Transition(s, me.proc, Running, ok), me.proc, me.exec, Running, done, Starting, Written(t, Running),
               Todo([]));
    } else {
      AtLeaves(s, me.proc, me.exec, status, done, Starting, t, Gone);
    }
  }

  lemma EndMove(me: Caller, s: System, status: Status, done: set<string>, to: Status, t: Tables, ok: bool)
      returns (s': System)
    requires Linked(me, s, status, done, Ending(to), t)
    ensures Over(me, s', if Takes(status, to, ok) then Written(t, to) else t)
  {
    hide Reaches;
    hide Holds;
    hide ValidTransition;
    hide Transition;
    hide At;
    var m := Moves(me.proc, End(ok));
    s' := Apply(me.defs, s, m);
    Goes(me, s, m);
    TransitionLeaves(s, me.proc, me.exec, status, done, Ending(to), t, to, ok);
    var status' := if Takes(status, to, ok) then to else status;
    var t' := if Takes(status, to, ok) then Written(t, to) else t;
    AtLeaves(Transition(s, me.proc, to, ok), me.proc, me.exec, status', done, Ending(to), t', Gone);
    GoneIsOver(me, s', status', done, t');
  }

  lemma CrashMove(me: Caller, s: System, status: Status, done: set<string>, pc: Pc, t: Tables) returns (s': System)
    requires Linked(me, s, status, done, pc, t)
    ensures Over(me, s', t)
  {
    hide Reaches;
    hide Holds;
    hide At;
    s' := Apply(me.defs, s, Moves(me.proc, Crash));
    Goes(me, s, Moves(me.proc, Crash));
    AtLeaves(s, me.proc, me.exec, status, done, pc, t, Gone);
    GoneIsOver(me, s', status, done, t);
  }

  // ----- between the nodes -----

  lemma ChooseMove(me: Caller, s: System, status: Status, done: set<string>, t: Tables, order: seq<string>)
      returns (s': System)
    requires Linked(me, s, status, done, Todo([]), t)
    requires NoDuplicates(order) && Elements(order) == Wave(GraphOf(me.defs.of(me.exec)), done)
    ensures Linked(me, s', status, done,
                   if order != [] then Todo(order)
                   else Ending(if |done| == |NodesOf(me.defs.of(me.exec))| then Succeeded else Failed), t)
  {
    hide Reaches;
    hide Holds;
    hide NodesOf;
    hide GraphOf;
    hide Wave;
    hide At;
    var m := Moves(me.proc, Choose(order));
    s' := Apply(me.defs, s, m);
    Goes(me, s, m);
    AtLeaves(s, me.proc, me.exec, status, done, Todo([]), t,
             if order != [] then Todo(order)
             else Ending(if |done| == |NodesOf(me.defs.of(me.exec))| then Succeeded else Failed));
  }

  lemma SaveMove(me: Caller, s: System, status: Status, done: set<string>, rest: seq<string>, t: Tables, ok: bool)
      returns (s': System)
    requires Linked(me, s, status, done, Saving(rest), t)
    ensures Linked(me, s', status, done, Todo(rest), if ok then t.(saved := Some(done)) else t)
  {
    hide Reaches;
    hide Holds;
    hide Saved;
    s' := Apply(me.defs, s, Moves(me.proc, Save(ok)));
    Goes(me, s, Moves(me.proc, Save(ok)));
    SavedLeaves(s, me.proc, me.exec, status, done, rest, t, ok);
  }

  // ----- one node -----

  /** What considering a node comes to, whatever the steps have put out, is among what its templates can come to. */
  lemma VerdictCanBe(me: Caller, w: World, id: string, steps: map<string, map<string, Value>>)
    requires Suits(me.defs, me.exec, w.lib, w.inputs) && id in NodesOf(me.defs.of(me.exec))
    ensures me.defs.can(me.exec, id, Verdict(w.lib, NodesOf(me.defs.of(me.exec))[id], Context(w, steps)))
  {
    hide NodesOf;
    hide Verdict;
    var node := NodesOf(me.defs.of(me.exec))[id];
    assert MayComeTo(w.lib, node, w.inputs, Verdict(w.lib, node, Context(w, steps)));
  }

  /** Where a call goes on after its retry loop. */
  function AfterTry(t: Attempts, id: string, rest: seq<string>): Pc {
    match t
    case Success(_) => Succeeding(id, rest)
    case NeverRun => Succeeding(id, rest)
    case Failure => Failing(id)
    case DeadlinePassed => Ending(Failed)
  }

  /** Where the verdict on the next node takes a call. */
  function AfterVerdict(isStep: bool, c: Condition, id: string, rest: seq<string>): Pc {
    match c
    case Skip => Saving(rest)
    case Proceed => if isStep then Inserting(id, rest) else Asking(id, rest)
    case ConditionError => if isStep then Ending(Failed) else Gone
  }

  lemma ConsideredLeaves(defs: Defs, s: System, p: ProcId, e: ExecId, status: Status, done: set<string>, id: string,
                         rest: seq<string>, t: Tables, c: Condition)
    requires Stands(s, p, e, status, done, Todo([id] + rest)) && Holds(s, p, e, t) && id in NodesOf(defs.of(e))
    ensures var s' := Considered(defs, s, p, c);
            Stands(s', p, e, status, if c.Skip? then done + {id} else done,
                   AfterVerdict(IsStep(defs, e, id), c, id, rest)) && Holds(s', p, e, t)
  {
    hide Holds;
    hide NodesOf;
    hide Finish;
    hide At;
    assert ([id] + rest)[1..] == rest;
    var pc, s1 := Todo([id] + rest), s.(started := s.started + {(e, id)});
    RecordLeaves(s, s1, p, e, status, done, pc, t);
    if c.Skip? {
      var s2 := s1.(waived := s1.waived + {(e, id)});
      RecordLeaves(s, s2, p, e, status, done, pc, t);
      FinishLeaves(s1, p, e, status, done, pc, t, id, rest);
      FinishLeaves(s2, p, e, status, done, pc, t, id, rest);
    } else {
      AtLeaves(s1, p, e, status, done, pc, t, AfterVerdict(IsStep(defs, e, id), c, id, rest));
    }
  }

  /** The verdict on the next node. */
  lemma ConsiderMove(me: Caller, s: System, status: Status, done: set<string>, id: string, rest: seq<string>, t: Tables,
                     c: Condition)
      returns (s': System)
    requires Linked(me, s, status, done, Todo([id] + rest), t)
    requires id in NodesOf(me.defs.of(me.exec)) && me.defs.can(me.exec, id, c)
    ensures Linked(me, s', status, if c.Skip? then done + {id} else done,
                   AfterVerdict(IsStep(me.defs, me.exec, id), c, id, rest), t)
  {
    hide Reaches;
    hide Holds;
    hide NodesOf;
    hide Considered;
    hide IsStep;
    var m := Moves(me.proc, Consider(c));
    s' := Apply(me.defs, s, m);
    Goes(me, s, m);
    ConsideredLeaves(me.defs, s, me.proc, me.exec, status, done, id, rest, t, c);
  }

  lemma InsertMove(me: Caller, s: System, status: Status, done: set<string>, id: string, rest: seq<string>, t: Tables,
                   ok: bool)
      returns (s': System)
    requires Linked(me, s, status, done, Inserting(id, rest), t)
    ensures if ok && id !in t.marks then
              Linked(me, s', status, done, Attempting(id, rest, 0), t.(marks := t.marks[id := RowRunning]))
            else Linked(me, s', status, done, Ending(Failed), t)
  {
    hide Reaches;
    hide Holds;
    hide At;
    var m := Moves(me.proc, InsertRow(ok));
    s' := Apply(me.defs, s, m);
    Goes(me, s, m);
    var e, p, pc := me.exec, me.proc, Inserting(id, rest);
    RowIsThere(s, p, e, t, id);
    if ok && id !in t.marks {
      InsertedLeaves(s, p, e, status, done, pc, t, id);
      var s1 := s.(stepRows := s.stepRows[(e, id) := StepRow(p, RowRunning)]);
      AtLeaves(s1, p, e, status, done, pc, t.(marks := t.marks[id := RowRunning]), Attempting(id, rest, 0));
    } else {
      AtLeaves(s, p, e, status, done, pc, t, Ending(Failed));
    }
  }

  lemma CalledLeaves(s: System, p: ProcId, e: ExecId, status: Status, done: set<string>, pc: Pc, t: Tables, id: string)
    requires Stands(s, p, e, status, done, pc) && Holds(s, p, e, t)
    ensures var s1 := s.(calls := s.calls + multiset{RunnerCall(e, id, p)});
            Stands(s1, p, e, status, done, pc) && Holds(s1, p, e, t.(made := t.made + multiset{id}))
  {
    hide CallsNamed;
    forall name
      ensures CallsNamed(s.calls + multiset{RunnerCall(e, id, p)}, s.compensations, p, e, name)
           == (t.made + multiset{id})[name]
    {
      OneMoreCall(s.calls, s.compensations, p, e, id, name);
    }
  }

  lemma AttemptMove(me: Caller, s: System, status: Status, done: set<string>, id: string, rest: seq<string>, made: nat,
                    t: Tables, success: bool)
      returns (s': System)
    requires Linked(me, s, status, done, Attempting(id, rest, made), t) && made < Limit(me.defs, me.exec, id)
    ensures Linked(me, s', status, done,
                   if success then Succeeding(id, rest)
                   else if made + 1 < Limit(me.defs, me.exec, id) then Attempting(id, rest, made + 1)
                   else Failing(id), t.(made := t.made + multiset{id}))
  {
    hide Reaches;
    hide Holds;
    hide Limit;
    hide At;
    var m := Moves(me.proc, Attempt(success));
    s' := Apply(me.defs, s, m);
    Goes(me, s, m);
    var e, p, pc := me.exec, me.proc, Attempting(id, rest, made);
    CalledLeaves(s, p, e, status, done, pc, t, id);
    AtLeaves(s.(calls := s.calls + multiset{RunnerCall(e, id, p)}), p, e, status, done, pc,
             t.(made := t.made + multiset{id}),
             if success then Succeeding(id, rest)
             else if made + 1 < Limit(me.defs, e, id) then Attempting(id, rest, made + 1)
             else Failing(id));
  }

  lemma NoAttemptsMove(me: Caller, s: System, status: Status, done: set<string>, id: string, rest: seq<string>,
                       t: Tables)
      returns (s': System)
    requires Linked(me, s, status, done, Attempting(id, rest, 0), t) && Limit(me.defs, me.exec, id) <= 0
    ensures Linked(me, s', status, done, Succeeding(id, rest), t)
  {
    hide Reaches;
    hide Holds;
    hide Limit;
    hide At;
    s' := Apply(me.defs, s, Moves(me.proc, NoAttempts));
    Goes(me, s, Moves(me.proc, NoAttempts));
    AtLeaves(s, me.proc, me.exec, status, done, Attempting(id, rest, 0), t, Succeeding(id, rest));
  }

  lemma AbandonMove(me: Caller, s: System, status: Status, done: set<string>, pc: Pc, t: Tables) returns (s': System)
    requires Linked(me, s, status, done, pc, t) && pc.Attempting?
    ensures Linked(me, s', status, done, Ending(Failed), t)
  {
    hide Reaches;
    hide Holds;
    hide At;
    s' := Apply(me.defs, s, Moves(me.proc, Abandon));
    Goes(me, s, Moves(me.proc, Abandon));
    AtLeaves(s, me.proc, me.exec, status, done, pc, t, Ending(Failed));
  }

  lemma MarkSucceededMove(me: Caller, s: System, status: Status, done: set<string>, id: string, rest: seq<string>,
                          t: Tables, ok: bool)
      returns (s': System)
    requires Linked(me, s, status, done, Succeeding(id, rest), t) && id in t.marks
    ensures Linked(me, s', status, done + {id}, Saving(rest),
                   if ok then t.(marks := t.marks[id := RowSucceeded]) else t)
  {
    hide Reaches;
    hide Holds;
    hide Marked;
    hide Finish;
    var m := Moves(me.proc, MarkSucceeded(ok));
    s' := Apply(me.defs, s, m);
    Goes(me, s, m);
    var e, p, t' := me.exec, me.proc, if ok then t.(marks := t.marks[id := RowSucceeded]) else t;
    MarkedLeaves(s, p, e, status, done, Succeeding(id, rest), t, id, RowSucceeded, ok);
    FinishLeaves(Marked(s, e, id, RowSucceeded, ok), p, e, status, done, Succeeding(id, rest), t', id, rest);
  }

  lemma MarkFailedMove(me: Caller, s: System, status: Status, done: set<string>, id: string, t: Tables, ok: bool)
      returns (s': System)
    requires Linked(me, s, status, done, Failing(id), t) && id in t.marks
    ensures Linked(me, s', status, done,
                   if HasCompensation(me.defs, me.exec, id) then Compensating(id) else Ending(Failed),
                   if ok then t.(marks := t.marks[id := RowFailed]) else t)
  {
    hide Reaches;
    hide Holds;
    hide Marked;
    hide At;
    hide HasCompensation;
    var m := Moves(me.proc, MarkFailed(ok));
    s' := Apply(me.defs, s, m);
    Goes(me, s, m);
    var e, p, t' := me.exec, me.proc, if ok then t.(marks := t.marks[id := RowFailed]) else t;
    MarkedLeaves(s, p, e, status, done, Failing(id), t, id, RowFailed, ok);
    AtLeaves(Marked(s, e, id, RowFailed, ok), p, e, status, done, Failing(id), t',
             if HasCompensation(me.defs, e, id) then Compensating(id) else Ending(Failed));
  }

  lemma CompensatedLeaves(s: System, p: ProcId, e: ExecId, status: Status, done: set<string>, pc: Pc, t: Tables,
                          id: string)
    requires Stands(s, p, e, status, done, pc) && Holds(s, p, e, t)
    ensures var s1 := s.(compensations := s.compensations + multiset{RunnerCall(e, id, p)});
            Stands(s1, p, e, status, done, pc) && Holds(s1, p, e, t.(made := t.made + multiset{id + SUFFIX}))
  {
    hide CallsNamed;
    forall name
      ensures CallsNamed(s.calls, s.compensations + multiset{RunnerCall(e, id, p)}, p, e, name)
           == (t.made + multiset{id + SUFFIX})[name]
    {
      OneMoreCompensation(s.calls, s.compensations, p, e, id, name);
    }
  }

  lemma CompensateMove(me: Caller, s: System, status: Status, done: set<string>, id: string, t: Tables, found: bool)
      returns (s': System)
    requires Linked(me, s, status, done, Compensating(id), t)
    ensures Linked(me, s', status, done, Ending(Failed),
                   if found then t.(made := t.made + multiset{id + SUFFIX}) else t)
  {
    hide Reaches;
    hide Holds;
    hide At;
    var m := Moves(me.proc, Compensate(found));
    s' := Apply(me.defs, s, m);
    Goes(me, s, m);
    var e, p, pc := me.exec, me.proc, Compensating(id);
    if found {
      CompensatedLeaves(s, p, e, status, done, pc, t, id);
      AtLeaves(s.(compensations := s.compensations + multiset{RunnerCall(e, id, p)}), p, e, status, done, pc,
               t.(made := t.made + multiset{id + SUFFIX}), Ending(Failed));
    } else {
      AtLeaves(s, p, e, status, done, pc, t, Ending(Failed));
    }
  }

  // ----- approvals -----

  predicate IsPending(s: System, a: ApprovalId) {
    a in s.approvals && s.approvals[a].status == Undecided
  }

  lemma AskMove(me: Caller, s: System, status: Status, done: set<string>, id: string, rest: seq<string>, t: Tables,
                ok: bool)
      returns (s': System, a: ApprovalId)
    requires Linked(me, s, status, done, Asking(id, rest), t)
    ensures if ok then Linked(me, s', status, done, Announcing(id, rest, a), t) && IsPending(s', a)
            else Linked(me, s', status, done, Gone, t)
  {
    hide Reaches;
    hide Holds;
    hide At;
    a := FreshApproval(s.approvals.Keys);
    var m := Moves(me.proc, Ask(a, ok));
    s' := Apply(me.defs, s, m);
    Goes(me, s, m);
    var e, p, pc := me.exec, me.proc, Asking(id, rest);
    if ok {
      var s1 := s.(approvals := s.approvals[a := ApprovalRow(e, id, s.rows[e].tenant, Undecided)]);
      RecordLeaves(s, s1, p, e, status, done, pc, t);
      AtLeaves(s1, p, e, status, done, pc, t, Announcing(id, rest, a));
    } else {
      AtLeaves(s, p, e, status, done, pc, t, Gone);
    }
  }

  lemma AnnounceMove(me: Caller, s: System, status: Status, done: set<string>, id: string, rest: seq<string>,
                     a: ApprovalId, t: Tables, ok: bool)
      returns (s': System)
    requires Linked(me, s, status, done, Announcing(id, rest, a), t) && IsPending(s, a)
    ensures var taken := Takes(status, WaitingApproval, ok);
            && Linked(me, s', if taken then WaitingApproval else status, done, Waiting(id, rest, a),
                      if taken then Written(t, WaitingApproval) else t)
            && IsPending(s', a)
  {
    hide Reaches;
    hide Holds;
    hide ValidTransition;
    hide Transition;
    hide At;
    var m := Moves(me.proc, Announce(ok));
    s' := Apply(me.defs, s, m);
    Goes(me, s, m);
    var e, p, pc, taken := me.exec, me.proc, Announcing(id, rest, a), Takes(status, WaitingApproval, ok);
    TransitionLeaves(s, p, e, status, done, pc, t, WaitingApproval, ok);
    AtLeaves(Transition(s, p, WaitingApproval, ok), p, e, if taken then WaitingApproval else status, done, pc,
             if taken then Written(t, WaitingApproval) else t, Waiting(id, rest, a));
  }

  lemma DecidedLeaves(s: System, p: ProcId, e: ExecId, status: Status, done: set<string>, pc: Pc, t: Tables,
                      a: ApprovalId, d: Decision)
    requires Stands(s, p, e, status, done, pc) && Holds(s, p, e, t) && IsPending(s, a)
    ensures var s1 := s.(approvals := s.approvals[a := DecideRow(s.approvals[a], s.approvals[a].tenant, d)]);
            && Stands(s1, p, e, status, done, pc) && Holds(s1, p, e, t)
            && a in s1.approvals && s1.approvals[a].status == d
  {
  }

  lemma CheckedLeaves(s: System, p: ProcId, e: ExecId, status: Status, done: set<string>, t: Tables, id: string,
                      rest: seq<string>, a: ApprovalId)
    requires Stands(s, p, e, status, done, Waiting(id, rest, a)) && Holds(s, p, e, t)
    requires a in s.approvals && s.approvals[a].status != Undecided
    ensures var to := if s.approvals[a].status == Approved then Granted(id, rest) else Ending(Cancelled);
            Stands(Checked(s, p), p, e, status, done, to) && Holds(Checked(s, p), p, e, t)
  {
  }

  lemma RespondMove(me: Caller, s: System, status: Status, done: set<string>, pc: Pc, a: ApprovalId, t: Tables,
                    decision: Decision)
      returns (s': System)
    requires Linked(me, s, status, done, pc, t) && IsPending(s, a) && decision != Undecided
    ensures Linked(me, s', status, done, pc, t) && a in s'.approvals && s'.approvals[a].status == decision
  {
    hide Reaches;
    hide Holds;
    hide DecideRow;
    var d := Decide(a, s.approvals[a].tenant, decision);
    s' := Apply(me.defs, s, d);
    Goes(me, s, d);
    DecidedLeaves(s, me.proc, me.exec, status, done, pc, t, a, decision);
  }

  lemma CheckMove(me: Caller, s: System, status: Status, done: set<string>, id: string, rest: seq<string>,
                  a: ApprovalId, t: Tables)
      returns (s': System)
    requires Linked(me, s, status, done, Waiting(id, rest, a), t)
    requires a in s.approvals && s.approvals[a].status != Undecided
    ensures Linked(me, s', status, done,
                   if s.approvals[a].status == Approved then Granted(id, rest) else Ending(Cancelled), t)
  {
    hide Reaches;
    hide Holds;
    hide Checked;
    s' := Apply(me.defs, s, Moves(me.proc, Check));
    Goes(me, s, Moves(me.proc, Check));
    CheckedLeaves(s, me.proc, me.exec, status, done, t, id, rest, a);
  }

  /** Somebody decides, and the call sees it. */
  lemma DecideMove(me: Caller, s: System, status: Status, done: set<string>, id: string, rest: seq<string>,
                   a: ApprovalId, t: Tables, approved: bool)
      returns (s': System)
    requires Linked(me, s, status, done, Waiting(id, rest, a), t) && IsPending(s, a)
    ensures Linked(me, s', status, done, if approved then Granted(id, rest) else Ending(Cancelled), t)
  {
    hide Linked;
    s' := RespondMove(me, s, status, done, Waiting(id, rest, a), a, t, if approved then Approved else Rejected);
    s' := CheckMove(me, s', status, done, id, rest, a, t);
  }

  lemma GoOnMove(me: Caller, s: System, status: Status, done: set<string>, id: string, rest: seq<string>, t: Tables,
                 ok: bool)
      returns (s': System)
    requires Linked(me, s, status, done, Granted(id, rest), t)
    ensures var taken := Takes(status, Running, ok);
            Linked(me, s', if taken then Running else status, done + {id}, Saving(rest),
                   if taken then Written(t, Running) else t)
  {
    hide Reaches;
    hide Holds;
    hide ValidTransition;
    hide Transition;
    hide Finish;
    var m := Moves(me.proc, GoOn(ok));
    s' := Apply(me.defs, s, m);
    Goes(me, s, m);
    var e, p, taken := me.exec, me.proc, Takes(status, Running, ok);
    TransitionLeaves(s, p, e, status, done, Granted(id, rest), t, Running, ok);
    FinishLeaves(Transition(s, p, Running, ok), p, e, if taken then Running else status, done, Granted(id, rest),
                 if taken then Written(t, Running) else t, id, rest);
  }
}
