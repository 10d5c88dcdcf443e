/** What a call that goes through its nodes can still come to write, from what it has done and has listed. */
module Prospects {
  import opened Graph
  import opened Dag
  import opened Semantics
  import opened System

  /** Considering this node can make the call write: to ask for an approval, or to fail while it remembers running. */
  predicate Writes(defs: Defs, e: ExecId, id: string, running: bool) {
    if IsApproval(defs, e, id) then defs.can(e, id, Proceed)
    else running && (defs.can(e, id, Proceed) || defs.can(e, id, ConditionError))
  }

  /** The call can get past this node: it is skipped, or it is a step whose row is not there yet. */
  predicate Passes(defs: Defs, taken: set<(ExecId, string)>, e: ExecId, id: string) {
    defs.can(e, id, Skip) || (IsStep(defs, e, id) && defs.can(e, id, Proceed) && (e, id) !in taken)
  }

  /**
   * Going through the listed nodes and then wave by wave, the call can still come to write: at a node that makes it
   * write, with all before it passed, or at the end, where a call that remembers running writes how it went.
   */
  predicate Ahead(defs: Defs, taken: set<(ExecId, string)>, e: ExecId, done: set<string>, todo: seq<string>,
                  running: bool)
    decreases GraphOf(defs.of(e)).ids - done
  {
    var g := GraphOf(defs.of(e));
    if todo == [] then
      var wave := Wave(g, done);
      if wave == {} then running
      else
        WaveProgress(g, done);
        || (exists id :: id in wave && Writes(defs, e, id, running))
        || ((forall id :: id in wave ==> Passes(defs, taken, e, id))
            && Ahead(defs, taken, e, done + wave, [], running))
    else
      var id := todo[0];
      && id in g.ids && id !in done
      && (NodeProgress(g, done, id);
          || Writes(defs, e, id, running)
          || (Passes(defs, taken, e, id) && Ahead(defs, taken, e, done + {id}, todo[1..], running)))
  }

  lemma NodeProgress(g: Graph, done: set<string>, id: string)
    requires id in g.ids && id !in done
    ensures g.ids - (done + {id}) < g.ids - done
  {
    assert id in g.ids - done && id !in g.ids - (done + {id});
  }

  lemma WaveProgress(g: Graph, done: set<string>)
    requires Wave(g, done) != {}
    ensures g.ids - (done + Wave(g, done)) < g.ids - done
  {
    var id :| id in Wave(g, done);
    assert id in g.ids - done && id !in g.ids - (done + Wave(g, done));
  }

  /** More rows leave less ahead. */
  lemma {:induction false} AheadShrinks(
      defs: Defs, taken: set<(ExecId, string)>, more: set<(ExecId, string)>, e: ExecId, done: set<string>,
      todo: seq<string>, running: bool)
    requires taken <= more && Ahead(defs, more, e, done, todo, running)
    ensures Ahead(defs, taken, e, done, todo, running)
    decreases GraphOf(defs.of(e)).ids - done
  {
    hide Writes;
    hide IsStep;
    hide GraphOf;
    hide Wave;
    var g := GraphOf(defs.of(e));
    if todo == [] {
      var wave := Wave(g, done);
      if wave != {} {
        WaveProgress(g, done);
        if !(exists id :: id in wave && Writes(defs, e, id, running)) {
          AheadShrinks(defs, taken, more, e, done + wave, [], running);
        }
      }
    } else {
      NodeProgress(g, done, todo[0]);
      if !Writes(defs, e, todo[0], running) {
        AheadShrinks(defs, taken, more, e, done + {todo[0]}, todo[1..], running);
      }
    }
  }

  /** The row of a node that is done is not in the way. */
  lemma {:induction false} DoneRowsAreFree(
      defs: Defs, taken: set<(ExecId, string)>, e: ExecId, id: string, done: set<string>, todo: seq<string>,
      running: bool)
    requires id in done && Ahead(defs, taken, e, done, todo, running)
    ensures Ahead(defs, taken + {(e, id)}, e, done, todo, running)
    decreases GraphOf(defs.of(e)).ids - done
  {
    hide Writes;
    hide IsStep;
    hide GraphOf;
    var g := GraphOf(defs.of(e));
    if todo == [] {
      var wave := Wave(g, done);
      if wave != {} {
        WaveProgress(g, done);
        if !(exists x :: x in wave && Writes(defs, e, x, running)) {
          DoneRowsAreFree(defs, taken, e, id, done + wave, [], running);
        }
      }
    } else {
      NodeProgress(g, done, todo[0]);
      if !Writes(defs, e, todo[0], running) {
        DoneRowsAreFree(defs, taken, e, id, done + {todo[0]}, todo[1..], running);
      }
    }
  }

  /** What is ahead with the nodes listed in some order: one of them writes, or all are passed and more is ahead. */
  lemma {:induction false} AheadInOrder(
      defs: Defs, taken: set<(ExecId, string)>, e: ExecId, done: set<string>, order: seq<string>, running: bool)
    requires Ahead(defs, taken, e, done, order, running)
    ensures || (exists id :: id in Elements(order) && Writes(defs, e, id, running))
            || ((forall id :: id in Elements(order) ==> Passes(defs, taken, e, id))
                && Ahead(defs, taken, e, done + Elements(order), [], running))
    decreases |order|
  {
    hide Writes;
    hide Passes;
    hide GraphOf;
    if order == [] {
      assert done + Elements(order) == done;
    } else {
      assert order[0] in Elements(order) && Elements(order) == {order[0]} + Elements(order[1..]);
      if !Writes(defs, e, order[0], running) {
        AheadInOrder(defs, taken, e, done + {order[0]}, order[1..], running);
        assert done + {order[0]} + Elements(order[1..]) == done + Elements(order);
      }
    }
  }

  /** So no choice of order opens a prospect. */
  lemma ChoiceOpensNothing(
      defs: Defs, taken: set<(ExecId, string)>, e: ExecId, done: set<string>, order: seq<string>, running: bool)
    requires order != [] && Elements(order) == Wave(GraphOf(defs.of(e)), done)
    requires Ahead(defs, taken, e, done, order, running)
    ensures Ahead(defs, taken, e, done, [], running)
  {
    hide Writes;
    hide Passes;
    hide GraphOf;
    hide Wave;
    assert order[0] in Elements(order);
    AheadInOrder(defs, taken, e, done, order, running);
  }

  /** When all nodes of a wave are passed, any order keeps what is ahead. */
  lemma {:induction false} PassedInOrder(
      defs: Defs, taken: set<(ExecId, string)>, e: ExecId, done: set<string>, order: seq<string>, running: bool)
    requires NoDuplicates(order) && forall id :: id in Elements(order) ==> id in GraphOf(defs.of(e)).ids && id !in done
    requires forall id :: id in Elements(order) ==> Passes(defs, taken, e, id)
    requires Ahead(defs, taken, e, done + Elements(order), [], running)
    ensures Ahead(defs, taken, e, done, order, running)
    decreases |order|
  {
    hide Writes;
    hide Passes;
    hide GraphOf;
    if order == [] {
      assert done + Elements(order) == done;
    } else {
      assert order[0] in Elements(order) && Elements(order) == {order[0]} + Elements(order[1..]);
      assert done + {order[0]} + Elements(order[1..]) == done + Elements(order);
      PassedInOrder(defs, taken, e, done + {order[0]}, order[1..], running);
    }
  }
}
