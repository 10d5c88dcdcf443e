/** The handlers that publish, roll back and start, with other requests running in between their statements. */
module VersionHandlers {
  import opened Prelude
  import opened Versions

  /** An ID that is not in use yet. */
  method FreshId(ids: set<nat>) returns (id: nat)
    ensures id !in ids
  {
    id := 0;
    var todo := ids;
    while todo != {}
      invariant todo <= ids && forall x :: x in ids && x !in todo ==> x < id
    {
      var x :| x in todo;
      todo := todo - {x};
      if x >= id {
        id := x + 1;
      }
    }
  }

  predicate IsBy(step: Step, r: RequestId) {
    match step
    case Create(_, _) => false
    case InsertKeyless(_, _, _) => false
    case _ => step.request == r
  }

  /** A workflow that has an active version never loses it. */
  predicate KeepsWorkflow(w: Workflow, w': Workflow) {
    w'.tenant == w.tenant && (w.active.Some? ==> w'.active.Some?)
  }

  predicate HasActive(s: Store, w: WorkflowId, tenant: Tenant) {
    w in s.workflows && s.workflows[w].tenant == tenant && s.workflows[w].active.Some?
  }

  /** Rows of workflows, versions and executions stay, and so does the place of this request. */
  ghost predicate Keeps(s: Store, s': Store, mine: RequestId) {
    && (mine in s.requests <==> mine in s'.requests)
    && (mine in s.requests ==> s'.requests[mine] == s.requests[mine])
    && (forall w :: w in s.workflows ==> w in s'.workflows && KeepsWorkflow(s.workflows[w], s'.workflows[w]))
    && (forall v :: v in s.versions ==> v in s'.versions && s'.versions[v] == s.versions[v])
    && (forall e :: e in s.executions ==> e in s'.executions && s'.executions[e] == s.executions[e])
    && s.answers <= s'.answers
  }

  lemma StepKeeps(s: Store, step: Step, mine: RequestId)
    requires Enabled(s, step) && !IsBy(step, mine)
    ensures Keeps(s, Apply(s, step), mine)
  {
    hide IsMax;
    hide Numbers;
    hide KeyIsFree;
    hide VersionIsFree;
  }

  lemma KeepsOn(a: Store, b: Store, c: Store, mine: RequestId)
    requires Keeps(a, b, mine) && Keeps(b, c, mine)
    ensures Keeps(a, c, mine)
  {
  }

  class Tables {
    /** True when no statement fails. */
    const reliable: bool
    var state: Store
    /** Everything that was done to the tables, by anybody. */
    ghost var steps: seq<Step>

    constructor (reliable: bool)
      ensures Valid() && this.reliable == reliable
    {
      this.reliable := reliable;
      state, steps := EMPTY, [];
    }

    ghost predicate Valid()
      reads this
    {
      After(steps) == Some(state)
    }

    method Perform(step: Step)
      requires Valid() && Enabled(state, step)
      modifies this
      ensures Valid() && state == Apply(old(state), step) && steps == old(steps) + [step]
    {
      state := Apply(state, step);
      steps := steps + [step];
      assert steps[..|steps| - 1] == old(steps);
    }

    /** Requests other than this one do anything they can, any number of times. */
    method Others(mine: RequestId)
      requires Valid()
      modifies this
      ensures Valid() && old(steps) <= steps && Keeps(old(state), state, mine)
    {
      hide After;
      hide Enabled;
      hide Apply;
      hide Keeps;
      KeepsItself(state, mine);
      var more: bool := *;
      var n: nat := 0;
      if more {
        n :| n > 0;
      }
      for i := 0 to n
        invariant Valid() && old(steps) <= steps && Keeps(old(state), state, mine)
      {
        var step: Step := *;
        if Enabled(state, step) && !IsBy(step, mine) {
          StepKeeps(state, step, mine);
          KeepsOn(old(state), state, Apply(state, step), mine);
          Perform(step);
        }
      }
    }

    lemma KeepsItself(s: Store, mine: RequestId)
      ensures Keeps(s, s, mine)
    {
    }

    /** A query or update may fail, unless the database is reliable. */
    method Statement() returns (ok: bool)
      ensures reliable ==> ok
    {
      ok := *;
      if reliable {
        ok := true;
      }
    }

    method SelectMax(w: WorkflowId) returns (max: int)
      ensures IsMax(Numbers(state, w), max)
    {
      max := 0;
      var todo := state.versions.Keys;
      var any := false;
      while todo != {}
        invariant todo <= state.versions.Keys
        invariant any ==> max in Numbers(state, w)
        invariant !any ==> max == 0
        invariant forall v :: v in state.versions && v !in todo && state.versions[v].workflow == w ==>
                    any && state.versions[v].number <= max
      {
        var v :| v in todo;
        todo := todo - {v};
        if state.versions[v].workflow == w && (!any || state.versions[v].number > max) {
          any, max := true, state.versions[v].number;
        }
      }
    }

    method SelectByKey(tenant: Tenant, key: string) returns (found: Option<ExecutionId>)
      ensures found.Some? ==> found.value in state.executions && HasKey(state.executions[found.value], tenant, key)
      ensures found.None? ==> KeyIsFree(state, tenant, key)
    {
      var todo := state.executions.Keys;
      while todo != {}
        invariant todo <= state.executions.Keys
        invariant forall e :: e in state.executions && e !in todo ==> !HasKey(state.executions[e], tenant, key)
      {
        var e :| e in todo;
        todo := todo - {e};
        if HasKey(state.executions[e], tenant, key) {
          return Some(e);
        }
      }
      return None;
    }

    method SelectVersion(w: WorkflowId, number: int) returns (found: Option<VersionId>)
      ensures found.Some? ==> found.value in state.versions && state.versions[found.value] == Version(w, number)
      ensures found.None? ==> VersionIsFree(state, w, number)
    {
      var todo := state.versions.Keys;
      while todo != {}
        invariant todo <= state.versions.Keys
        invariant forall v :: v in state.versions && v !in todo ==> state.versions[v] != Version(w, number)
      {
        var v :| v in todo;
        todo := todo - {v};
        if state.versions[v] == Version(w, number) {
          return Some(v);
        }
      }
      return None;
    }
  }

  datatype Published = Published(id: VersionId, number: int)

  /** What Publish answers: the version it names exists under that number, and was made active by the request. */
  ghost predicate IsPublished(s: Store, w: WorkflowId, p: Published) {
    && p.id in s.versions && s.versions[p.id] == Version(w, p.number)
    && w in s.workflows && s.workflows[w].active == Some(p.id)
  }

  /**
   * Publish, after the source was parsed and accepted. Other requests come in between any two of its statements.
   * On success the returned version exists and is active, and the versions are still numbered 1 to n.
   * Without failures it succeeds unless the workflow is not there or somebody else has taken the number.
   */
  method Publish(db: Tables, request: RequestId, w: WorkflowId, tenant: Tenant)
      returns (r: Option<Published>, ghost next: int)
    requires db.Valid() && request !in db.state.requests
    modifies db
    ensures db.Valid() && old(db.steps) <= db.steps
    ensures r.Some? ==> IsPublished(db.state, w, r.value) && r.value.number == next
    ensures db.reliable && r.None? ==>
              w !in old(db.state.workflows) || old(db.state.workflows)[w].tenant != tenant
                  || !VersionIsFree(db.state, w, next)
    ensures exists n: nat :: Numbers(db.state, w) == UpTo(n)
  {
    r, next := PublishSteps(db, request, w, tenant);
    VersionsAreContiguous(db.steps, w);
  }

  method PublishSteps(db: Tables, request: RequestId, w: WorkflowId, tenant: Tenant)
      returns (r: Option<Published>, next: int)
    requires db.Valid() && request !in db.state.requests
    modifies db
    ensures db.Valid() && old(db.steps) <= db.steps
    ensures r.Some? ==> IsPublished(db.state, w, r.value) && r.value.number == next
    ensures db.reliable && r.None? ==>
              w !in old(db.state.workflows) || old(db.state.workflows)[w].tenant != tenant
                  || !VersionIsFree(db.state, w, next)
  {
    hide Numbers;
    hide IsMax;
    hide After;
    next := 0;
    var found := db.Statement();
    if !found || w !in db.state.workflows || db.state.workflows[w].tenant != tenant {
      return None, next;
    }
    db.Others(request);
    var max := 0;
    var read := db.Statement();
    if read {
      max := db.SelectMax(w);
    }
    next := max + 1;
    db.Perform(ReadMax(request, w, tenant, max));
    r := InsertAndActivate(db, request, w, next);
  }

  /** The rest of Publish, when the next number is known. */
  method InsertAndActivate(db: Tables, request: RequestId, w: WorkflowId, next: int) returns (r: Option<Published>)
    requires db.Valid() && request in db.state.requests && db.state.requests[request] == Numbered(w, next)
    requires w in db.state.workflows
    modifies db
    ensures db.Valid() && old(db.steps) <= db.steps
    ensures r.Some? ==> IsPublished(db.state, w, r.value) && r.value.number == next
    ensures db.reliable && r.None? ==> !VersionIsFree(db.state, w, next)
  {
    hide Numbers;
    hide IsMax;
    hide After;
    hide KeyIsFree;
    db.Others(request);
    var version := FreshId(db.state.versions.Keys);
    var inserted := db.Statement();
    db.Perform(InsertVersion(request, version, inserted));
    if version !in db.state.versions {
      return None;
    }
    hide VersionIsFree;
    db.Others(request);
    var updated := db.Statement();
    db.Perform(Activate(request, updated));
    if !updated {
      return None;
    }
    return Some(Published(version, next));
  }

  /** Rollback makes an existing version of the workflow active again. */
  method Rollback(
      db: Tables, request: RequestId, w: WorkflowId, tenant: Tenant, number: int) returns (r: Option<VersionId>)
    requires db.Valid() && request !in db.state.requests
    modifies db
    ensures db.Valid() && old(db.steps) <= db.steps
    ensures r.Some? ==> number >= 1 && IsPublished(db.state, w, Published(r.value, number))
    ensures db.reliable && r.None? ==>
              || number < 1 || VersionIsFree(old(db.state), w, number)
              || w !in old(db.state.workflows) || old(db.state.workflows)[w].tenant != tenant
  {
    hide After;
    if number < 1 {
      return None;
    }
    var queried := db.Statement();
    var version := db.SelectVersion(w, number);
    if !queried || version.None? || w !in db.state.workflows || db.state.workflows[w].tenant != tenant {
      return None;
    }
    db.Perform(FindVersion(request, w, tenant, number, version.value));
    db.Others(request);
    var updated := db.Statement();
    db.Perform(Activate(request, updated));
    if !updated {
      return None;
    }
    return version;
  }

  /**
   * Start answers with an execution that carries the key, one that was there or one that it has inserted.
   * Without a key it fails when the tenant has an execution from a start without a key. When the workflow has
   * an active version and nothing fails, any start only fails because its key was taken before its insert.
   */
  method Start(
      db: Tables, request: RequestId, w: WorkflowId, tenant: Tenant, key: string) returns (r: Option<ExecutionId>)
    requires db.Valid() && request !in db.state.requests
    modifies db
    ensures db.Valid() && old(db.steps) <= db.steps
    ensures old(db.state.answers) <= db.state.answers
    ensures r.Some? ==> Answer(tenant, key, r.value) in db.state.answers
    ensures db.reliable && key != "" ==>
              forall e :: e in old(db.state.executions) && HasKey(old(db.state.executions)[e], tenant, key) ==>
                  r == Some(e)
    ensures key == "" && !KeyIsFree(old(db.state), tenant, key) ==> r.None?
    ensures db.reliable && HasActive(old(db.state), w, tenant) && r.None? ==> !KeyIsFree(db.state, tenant, key)
  {
    KeysStayUnique(db.steps, db.state);
    hide After;
    hide Numbers;
    hide IsMax;
    hide VersionIsFree;
    var found: Option<ExecutionId> := None;
    var queried := db.Statement();
    if key != "" && queried {
      found := db.SelectByKey(tenant, key);
    }
    db.Perform(LookUp(request, tenant, key, found));
    if found.Some? {
      return found;
    }
    r := StartNew(db, request, w, tenant, key);
  }

  lemma KeysStayUnique(steps: seq<Step>, s: Store)
    requires After(steps) == Some(s)
    ensures KeysAreUnique(s)
  {
    RunsKeepInv(steps);
  }

  /** The rest of Start, when no execution with the key was found. */
  method StartNew(
      db: Tables, request: RequestId, w: WorkflowId, tenant: Tenant, key: string) returns (r: Option<ExecutionId>)
    requires db.Valid() && request in db.state.requests && db.state.requests[request] == LookedUp(tenant, key)
    modifies db
    ensures db.Valid() && old(db.steps) <= db.steps
    ensures old(db.state.answers) <= db.state.answers
    ensures r.Some? ==> Answer(tenant, key, r.value) in db.state.answers
    ensures !KeyIsFree(old(db.state), tenant, key) ==> r.None?
    ensures db.reliable && HasActive(old(db.state), w, tenant) && r.None? ==> !KeyIsFree(db.state, tenant, key)
  {
    hide After;
    hide Numbers;
    hide IsMax;
    hide VersionIsFree;
    db.Others(request);
    var read := db.Statement();
    if !read || w !in db.state.workflows || db.state.workflows[w].tenant != tenant
        || db.state.workflows[w].active.None? {
      return None;
    }
    db.Perform(ReadActive(request, w));
    db.Others(request);
    var execution := FreshId(db.state.executions.Keys);
    var inserted := db.Statement();
    db.Perform(InsertExecution(request, execution, inserted));
    if execution !in db.state.executions {
      return None;
    }
    return Some(execution);
  }
}
