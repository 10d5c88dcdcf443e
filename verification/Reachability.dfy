/** Sequences of actions from any state, not only from the initial one. */
module Reachability {
  import opened Dag
  import opened StateMachine
  import opened System

  ghost predicate CanRun(defs: Defs, s: System, actions: seq<Action>)
    decreases |actions|
  {
    actions == [] || (Enabled(defs, s, actions[0]) && CanRun(defs, Apply(defs, s, actions[0]), actions[1..]))
  }

  function ApplyAll(defs: Defs, s: System, actions: seq<Action>): System
    decreases |actions|
  {
    if actions == [] then s else ApplyAll(defs, Apply(defs, s, actions[0]), actions[1..])
  }

  /** The system can get from s to s'. */
  ghost predicate Reaches(defs: Defs, s: System, s': System) {
    exists actions :: CanRun(defs, s, actions) && ApplyAll(defs, s, actions) == s'
  }

  lemma ReachesItself(defs: Defs, s: System)
    ensures Reaches(defs, s, s)
  {
    assert CanRun(defs, s, []) && ApplyAll(defs, s, []) == s;
  }

  lemma {:induction false} RunsAppend(defs: Defs, s: System, a: seq<Action>, b: seq<Action>)
    ensures CanRun(defs, s, a + b) <==> CanRun(defs, s, a) && CanRun(defs, ApplyAll(defs, s, a), b)
    ensures ApplyAll(defs, s, a + b) == ApplyAll(defs, ApplyAll(defs, s, a), b)
    decreases |a|
  {
    hide Apply;
    hide Enabled;
    if a == [] {
      assert a + b == b;
    } else {
      assert (a + b)[1..] == a[1..] + b;
      RunsAppend(defs, Apply(defs, s, a[0]), a[1..], b);
    }
  }

  lemma {:induction false} ReachesOn(defs: Defs, a: System, b: System, c: System)
    requires Reaches(defs, a, b) && Reaches(defs, b, c)
    ensures Reaches(defs, a, c)
  {
    hide Apply;
    hide Enabled;
    var x :| CanRun(defs, a, x) && ApplyAll(defs, a, x) == b;
    var y :| CanRun(defs, b, y) && ApplyAll(defs, b, y) == c;
    RunsAppend(defs, a, x, y);
  }

  lemma {:induction false} OneAction(defs: Defs, s: System, a: Action)
    ensures CanRun(defs, s, [a]) <==> Enabled(defs, s, a)
    ensures ApplyAll(defs, s, [a]) == Apply(defs, s, a)
  {
    hide Apply;
    hide Enabled;
    assert [a][1..] == [];
    assert CanRun(defs, Apply(defs, s, a), []);
  }

  lemma {:induction false} ReachesByOne(defs: Defs, s: System, a: Action)
    requires Enabled(defs, s, a)
    ensures Reaches(defs, s, Apply(defs, s, a))
  {
    hide Apply;
    hide Enabled;
    OneAction(defs, s, a);
  }

  /** Runs are what can run from the initial state. */
  lemma {:induction false} RunsStartInitially(defs: Defs, actions: seq<Action>)
    ensures IsRun(defs, actions) <==> CanRun(defs, INITIAL, actions)
    ensures After(defs, actions) == ApplyAll(defs, INITIAL, actions)
    decreases |actions|
  {
    hide Apply;
    hide Enabled;
    if actions != [] {
      var front, last := actions[..|actions| - 1], actions[|actions| - 1];
      assert actions == front + [last];
      RunsStartInitially(defs, front);
      RunsAppend(defs, INITIAL, front, [last]);
      OneAction(defs, ApplyAll(defs, INITIAL, front), last);
    }
  }

  /** A continuation of a run is what can run from the state it has reached. */
  lemma {:induction false} Continuations(defs: Defs, actions: seq<Action>, more: seq<Action>)
    requires IsRun(defs, actions)
    ensures IsRun(defs, actions + more) <==> CanRun(defs, After(defs, actions), more)
    ensures After(defs, actions + more) == ApplyAll(defs, After(defs, actions), more)
  {
    hide Apply;
    hide Enabled;
    RunsStartInitially(defs, actions);
    RunsStartInitially(defs, actions + more);
    RunsAppend(defs, INITIAL, actions, more);
  }

  /** The call p of execution e remembers this status and these results, and is at this place. */
  predicate Stands(s: System, p: ProcId, e: ExecId, status: Status, done: set<string>, pc: Pc) {
    && p in s.incs && e in s.rows
    && s.incs[p].exec == e && s.incs[p].status == status && s.incs[p].completed == done && s.incs[p].pc == pc
  }

  /** There is always an ID that no approval has yet. */
  lemma FreshApproval(ids: set<nat>) returns (a: nat)
    ensures a !in ids
  {
    a := 0;
    var todo := ids;
    while todo != {}
      invariant todo <= ids && forall x :: x in ids && x !in todo ==> x < a
    {
      var x :| x in todo;
      todo := todo - {x};
      if x >= a {
        a := x + 1;
      }
    }
  }

  /** Every set of nodes can be listed without repetition, any of them first. */
  lemma {:induction false} Listed(ids: set<string>) returns (order: seq<string>)
    ensures NoDuplicates(order) && Elements(order) == ids
    decreases |ids|
  {
    if ids == {} {
      order := [];
    } else {
      var id :| id in ids;
      order := ListedFirst(ids, id);
    }
  }

  lemma {:induction false} ListedFirst(ids: set<string>, id: string) returns (order: seq<string>)
    requires id in ids
    ensures NoDuplicates(order) && Elements(order) == ids && order != [] && order[0] == id
    decreases |ids|, 0
  {
    var rest := Listed(ids - {id});
    order := [id] + rest;
    assert Elements(order) == {id} + Elements(rest);
    forall i, j | 0 <= i < j < |order|
      ensures order[i] != order[j]
    {
      assert order[j] == rest[j - 1] && rest[j - 1] in Elements(rest);
    }
  }
}
