/**
 * Published versions, the active version and idempotent starts, one step per SQL statement
 * (internal/api/handler/workflow.go, internal/api/handler/execution.go, and the UNIQUE constraints of the schema).
 */
module Versions {
  import opened Prelude

  type WorkflowId = nat
  type VersionId = nat
  type ExecutionId = nat
  type Tenant = nat
  type RequestId = nat

  datatype Version = Version(workflow: WorkflowId, number: int)

  datatype Workflow = Workflow(tenant: Tenant, active: Option<VersionId>)

  /** A row of executions; the key is null for those that a retry or a schedule inserts. */
  datatype Started = Started(tenant: Tenant, key: Option<string>, version: VersionId)

  /** Where an API request is between two statements. */
  datatype Request =
    | Numbered(workflow: WorkflowId, next: int)
    | Pointing(workflow: WorkflowId, version: VersionId)
    | LookedUp(tenant: Tenant, key: string)
    | Versioned(tenant: Tenant, key: string, version: VersionId)
    | Over

  /** The answer of a successful start. */
  datatype Answer = Answer(tenant: Tenant, key: string, execution: ExecutionId)

  datatype Store = Store(
    workflows: map<WorkflowId, Workflow>,
    versions: map<VersionId, Version>,
    executions: map<ExecutionId, Started>,
    requests: map<RequestId, Request>,
    answers: set<Answer>)

  datatype Step =
    | Create(workflow: WorkflowId, tenant: Tenant)
    | ReadMax(request: RequestId, workflow: WorkflowId, tenant: Tenant, max: int)
    | InsertVersion(request: RequestId, version: VersionId, ok: bool)
    | Activate(request: RequestId, ok: bool)
    | FindVersion(request: RequestId, workflow: WorkflowId, tenant: Tenant, number: int, version: VersionId)
    | LookUp(request: RequestId, tenant: Tenant, key: string, found: Option<ExecutionId>)
    | ReadActive(request: RequestId, workflow: WorkflowId)
    | InsertExecution(request: RequestId, execution: ExecutionId, ok: bool)
    | InsertKeyless(execution: ExecutionId, tenant: Tenant, version: VersionId)

  function Numbers(s: Store, w: WorkflowId): set<int> {
    set v | v in s.versions && s.versions[v].workflow == w :: s.versions[v].number
  }

  function UpTo(n: nat): (r: set<int>)
    ensures forall k :: k in r <==> 1 <= k <= n
  {
    if n == 0 then {} else UpTo(n - 1) + {n}
  }

  /** What SELECT COALESCE(MAX(version), 0) returns. */
  predicate IsMax(numbers: set<int>, max: int) {
    (max in numbers || (max == 0 && numbers == {})) && forall k :: k in numbers ==> k <= max
  }

  predicate HasKey(e: Started, tenant: Tenant, key: string) {
    e.tenant == tenant && e.key == Some(key)
  }

  /** UNIQUE (workflow_id, version) */
  predicate VersionIsFree(s: Store, w: WorkflowId, number: int) {
    forall v :: v in s.versions ==> s.versions[v] != Version(w, number)
  }

  /** UNIQUE (tenant_id, idempotency_key) */
  predicate KeyIsFree(s: Store, tenant: Tenant, key: string) {
    forall e :: e in s.executions ==> !HasKey(s.executions[e], tenant, key)
  }

  predicate Enabled(s: Store, a: Step) {
    match a
    case Create(w, _) => w !in s.workflows
    // The query for the greatest version may fail, and then counts as zero.
    case ReadMax(r, w, tenant, max) =>
      r !in s.requests && w in s.workflows && s.workflows[w].tenant == tenant && (max == 0 || IsMax(Numbers(s, w), max))
    case InsertVersion(r, v, _) => r in s.requests && s.requests[r].Numbered? && v !in s.versions
    case Activate(r, _) => r in s.requests && s.requests[r].Pointing?
    case FindVersion(r, w, tenant, number, v) =>
      r !in s.requests && number >= 1 && w in s.workflows && s.workflows[w].tenant == tenant
      && v in s.versions && s.versions[v] == Version(w, number)
    // The lookup may fail, and then counts as nothing found. It is left out when there is no key.
    case LookUp(r, tenant, key, found) =>
      r !in s.requests
      && (found.Some? ==> key != "" && found.value in s.executions && HasKey(s.executions[found.value], tenant, key))
    case ReadActive(r, w) =>
      r in s.requests && s.requests[r].LookedUp? && w in s.workflows && s.workflows[w].tenant == s.requests[r].tenant
      && s.workflows[w].active.Some?
    case InsertExecution(r, e, _) => r in s.requests && s.requests[r].Versioned? && e !in s.executions
    case InsertKeyless(e, _, v) => e !in s.executions && v in s.versions
  }

  function Goes(s: Store, r: RequestId, to: Request): Store {
    s.(requests := s.requests[r := to])
  }

  function Apply(s: Store, a: Step): Store
    requires Enabled(s, a)
  {
    match a
    case Create(w, tenant) => s.(workflows := s.workflows[w := Workflow(tenant, None)])
    case ReadMax(r, w, _, max) => Goes(s, r, Numbered(w, max + 1))
    case InsertVersion(r, v, ok) =>
      var w, number := s.requests[r].workflow, s.requests[r].next;
      if ok && w in s.workflows && VersionIsFree(s, w, number) then
        Goes(s.(versions := s.versions[v := Version(w, number)]), r, Pointing(w, v))
      else Goes(s, r, Over)
    case Activate(r, ok) =>
      var w, v := s.requests[r].workflow, s.requests[r].version;
      if ok && w in s.workflows then
        Goes(s.(workflows := s.workflows[w := s.workflows[w].(active := Some(v))]), r, Over)
      else Goes(s, r, Over)
    case FindVersion(r, w, _, _, v) => Goes(s, r, Pointing(w, v))
    case LookUp(r, tenant, key, found) =>
      if found.Some? then Goes(s.(answers := s.answers + {Answer(tenant, key, found.value)}), r, Over)
      else Goes(s, r, LookedUp(tenant, key))
    case ReadActive(r, w) => Goes(s, r, Versioned(s.requests[r].tenant, s.requests[r].key, s.workflows[w].active.value))
    case InsertExecution(r, e, ok) =>
      var tenant, key, v := s.requests[r].tenant, s.requests[r].key, s.requests[r].version;
      if ok && KeyIsFree(s, tenant, key) then
        Goes(s.(executions := s.executions[e := Started(tenant, Some(key), v)],
                answers := s.answers + {Answer(tenant, key, e)}), r, Over)
      else Goes(s, r, Over)
    case InsertKeyless(e, tenant, v) => s.(executions := s.executions[e := Started(tenant, None, v)])
  }

  const EMPTY := Store(map[], map[], map[], map[], {})

  /** The store after a run of steps, none if some step could not happen. */
  ghost function After(steps: seq<Step>): Option<Store> {
    if steps == [] then Some(EMPTY)
    else
      var last := steps[|steps| - 1];
      match After(steps[..|steps| - 1])
      case None => None
      case Some(s) => if Enabled(s, last) then Some(Apply(s, last)) else None
  }

  /** The versions of a workflow are numbered 1 to n. */
  ghost predicate Numbered1ToN(s: Store, w: WorkflowId) {
    exists n: nat :: Numbers(s, w) == UpTo(n)
  }

  ghost predicate Unambiguous(s: Store) {
    forall u, v :: u in s.versions && v in s.versions && s.versions[u] == s.versions[v] ==> u == v
  }

  predicate ActiveIsOwn(s: Store, w: WorkflowId)
    requires w in s.workflows
  {
    s.workflows[w].active.Some? ==>
      s.workflows[w].active.value in s.versions && s.versions[s.workflows[w].active.value].workflow == w
  }

  ghost predicate RequestOk(s: Store, r: Request) {
    match r
    case Numbered(w, next) => next == 1 || next - 1 in Numbers(s, w)
    case Pointing(w, v) => v in s.versions && s.versions[v].workflow == w
    case _ => true
  }

  ghost predicate KeysAreUnique(s: Store) {
    forall d, e ::
      (d in s.executions && e in s.executions && s.executions[d].key.Some?
       && s.executions[d].tenant == s.executions[e].tenant && s.executions[d].key == s.executions[e].key) ==> d == e
  }

  predicate AnswerOk(s: Store, a: Answer) {
    a.execution in s.executions && HasKey(s.executions[a.execution], a.tenant, a.key)
  }

  ghost predicate Inv(s: Store) {
    && (forall w {:trigger Numbered1ToN(s, w)} :: Numbered1ToN(s, w)) && Unambiguous(s)
    && (forall w :: w in s.workflows ==> ActiveIsOwn(s, w))
    && (forall r :: r in s.requests ==> RequestOk(s, s.requests[r]))
    && KeysAreUnique(s)
    && (forall a :: a in s.answers ==> AnswerOk(s, a))
  }

  /** A number next to one that is taken, and itself free, can only be the one after the last. */
  lemma {:induction false} FreeNumberIsNext(numbers: set<int>, n: nat, number: int)
    requires numbers == UpTo(n) && (number == 1 || number - 1 in numbers) && number !in numbers
    ensures number == n + 1 && numbers + {number} == UpTo(n + 1)
  {
    assert 1 <= number <= n ==> number in UpTo(n);
  }

  lemma {:induction false} InsertVersionKeeps(s: Store, a: Step)
    requires Inv(s) && Enabled(s, a) && a.InsertVersion?
    ensures Inv(Apply(s, a))
  {
    var w, number := s.requests[a.request].workflow, s.requests[a.request].next;
    if a.ok && w in s.workflows && VersionIsFree(s, w, number) {
      var s1 := s.(versions := s.versions[a.version := Version(w, number)]);
      assert RequestOk(s, s.requests[a.request]);
      assert number !in Numbers(s, w);
      NumbersGrow(s, s1, a.version);
      forall x
        ensures Numbered1ToN(s1, x)
      {
        assert Numbered1ToN(s, x);
        var n: nat :| Numbers(s, x) == UpTo(n);
        if x == w {
          FreeNumberIsNext(Numbers(s, w), n, number);
          assert Numbers(s1, w) == UpTo(n + 1);
        }
      }
      assert Unambiguous(s1);
      RequestMoves(s1, a.request, Pointing(w, a.version));
    } else {
      RequestMoves(s, a.request, Over);
    }
  }

  lemma {:induction false} NumbersGrow(s: Store, s1: Store, v: VersionId)
    requires v !in s.versions && v in s1.versions && s1.versions == s.versions[v := s1.versions[v]]
    ensures forall w :: Numbers(s1, w)
                     == if w == s1.versions[v].workflow then Numbers(s, w) + {s1.versions[v].number} else Numbers(s, w)
  {
    forall w
      ensures Numbers(s1, w) == if w == s1.versions[v].workflow then Numbers(s, w) + {s1.versions[v].number}
              else Numbers(s, w)
    {
      var added: set<int> := if w == s1.versions[v].workflow then {s1.versions[v].number} else {};
      forall k | k in Numbers(s, w) + added
        ensures k in Numbers(s1, w)
      {
        if k in Numbers(s, w) {
          var u :| u in s.versions && s.versions[u].workflow == w && s.versions[u].number == k;
          assert u in s1.versions && s1.versions[u] == s.versions[u];
        }
      }
      assert Numbers(s1, w) == Numbers(s, w) + added;
    }
  }

  /** The invariant does not depend on where requests are, as long as each may be there. */
  lemma {:induction false} RequestMoves(s: Store, r: RequestId, to: Request)
    requires (forall w {:trigger Numbered1ToN(s, w)} :: Numbered1ToN(s, w)) && Unambiguous(s) && KeysAreUnique(s)
    requires forall w :: w in s.workflows ==> ActiveIsOwn(s, w)
    requires forall q :: q in s.requests && q != r ==> RequestOk(s, s.requests[q])
    requires forall a :: a in s.answers ==> AnswerOk(s, a)
    requires RequestOk(s, to)
    ensures Inv(Goes(s, r, to))
  {
    var s' := Goes(s, r, to);
    assert forall w :: Numbers(s', w) == Numbers(s, w);
    forall w
      ensures Numbered1ToN(s', w)
    {
      assert Numbered1ToN(s, w);
    }
    forall q | q in s'.requests
      ensures RequestOk(s', s'.requests[q])
    {
      assert q != r ==> RequestOk(s, s.requests[q]);
    }
    forall a | a in s'.answers
      ensures AnswerOk(s', a)
    {
      assert AnswerOk(s, a);
    }
  }

  lemma {:induction false} InsertExecutionKeeps(s: Store, a: Step)
    requires Inv(s) && Enabled(s, a) && (a.InsertExecution? || a.InsertKeyless?)
    ensures Inv(Apply(s, a))
  {
    var s' := Apply(s, a);
    assert forall w :: Numbers(s', w) == Numbers(s, w);
    forall w
      ensures Numbered1ToN(s', w)
    {
      assert Numbered1ToN(s, w);
    }
    forall q | q in s'.requests
      ensures RequestOk(s', s'.requests[q])
    {
      assert q in s.requests ==> RequestOk(s, s.requests[q]);
    }
    forall x | x in s'.answers
      ensures AnswerOk(s', x)
    {
      assert x in s.answers ==> AnswerOk(s, x);
    }
  }

  lemma {:induction false} WorkflowStepKeeps(s: Store, a: Step)
    requires Inv(s) && Enabled(s, a) && (a.Create? || a.Activate?)
    ensures Inv(Apply(s, a))
  {
    var s' := Apply(s, a);
    assert a.Activate? ==> RequestOk(s, s.requests[a.request]);
    assert forall w :: Numbers(s', w) == Numbers(s, w);
    forall w
      ensures Numbered1ToN(s', w)
    {
      assert Numbered1ToN(s, w);
    }
    forall w | w in s'.workflows
      ensures ActiveIsOwn(s', w)
    {
      assert w in s.workflows ==> ActiveIsOwn(s, w);
    }
    forall q | q in s'.requests
      ensures RequestOk(s', s'.requests[q])
    {
      assert q in s.requests ==> RequestOk(s, s.requests[q]);
    }
    forall x | x in s'.answers
      ensures AnswerOk(s', x)
    {
      assert AnswerOk(s, x);
    }
  }

  lemma {:induction false} ReadKeeps(s: Store, a: Step)
    requires Inv(s) && Enabled(s, a) && (a.ReadMax? || a.FindVersion? || a.LookUp? || a.ReadActive?)
    ensures Inv(Apply(s, a))
  {
    match a
    case ReadMax(r, w, _, max) => RequestMoves(s, r, Numbered(w, max + 1));
    case FindVersion(r, w, _, _, v) => RequestMoves(s, r, Pointing(w, v));
    case ReadActive(r, w) =>
      RequestMoves(s, r, Versioned(s.requests[r].tenant, s.requests[r].key, s.workflows[w].active.value));
    case LookUp(r, tenant, key, found) =>
      if found.Some? {
        var s1 := s.(answers := s.answers + {Answer(tenant, key, found.value)});
        assert forall w :: Numbers(s1, w) == Numbers(s, w);
        forall w
          ensures Numbered1ToN(s1, w)
        {
          assert Numbered1ToN(s, w);
        }
        RequestMoves(s1, r, Over);
      } else {
        RequestMoves(s, r, LookedUp(tenant, key));
      }
  }

  lemma {:induction false} StepKeepsInv(s: Store, a: Step)
    requires Inv(s) && Enabled(s, a)
    ensures Inv(Apply(s, a))
  {
    hide Inv;
    hide Apply;
    if a.InsertVersion? {
      InsertVersionKeeps(s, a);
    } else if a.InsertExecution? || a.InsertKeyless? {
      InsertExecutionKeeps(s, a);
    } else if a.Create? || a.Activate? {
      WorkflowStepKeeps(s, a);
    } else {
      ReadKeeps(s, a);
    }
  }

  lemma {:induction false} RunsKeepInv(steps: seq<Step>)
    requires After(steps).Some?
    ensures Inv(After(steps).value)
    decreases |steps|
  {
    if steps == [] {
      assert forall w :: Numbers(EMPTY, w) == UpTo(0);
    } else {
      hide Inv;
      RunsKeepInv(steps[..|steps| - 1]);
      StepKeepsInv(After(steps[..|steps| - 1]).value, steps[|steps| - 1]);
    }
  }

  /**
   * Whoever publishes at the same time, and whatever reads are stale or fail,
   * versions are numbered 1 to n, each once.
   */
  lemma {:induction false} VersionsAreContiguous(steps: seq<Step>, w: WorkflowId)
    requires After(steps).Some?
    ensures exists n: nat :: Numbers(After(steps).value, w) == UpTo(n)
    ensures Unambiguous(After(steps).value)
  {
    RunsKeepInv(steps);
    assert Numbered1ToN(After(steps).value, w);
  }

  /** The active version, when there is one, is a version of that workflow. */
  lemma {:induction false} ActiveVersionBelongs(steps: seq<Step>, w: WorkflowId)
    requires After(steps).Some? && w in After(steps).value.workflows
    ensures ActiveIsOwn(After(steps).value, w)
  {
    RunsKeepInv(steps);
  }

  /** All starts with the same non-empty key that succeed return the same execution. */
  lemma {:induction false} StartsAreIdempotent(steps: seq<Step>, a: Answer, b: Answer)
    requires After(steps).Some? && a in After(steps).value.answers && b in After(steps).value.answers
    requires a.tenant == b.tenant && a.key == b.key
    ensures a.execution == b.execution
  {
    RunsKeepInv(steps);
    var s := After(steps).value;
    assert AnswerOk(s, a) && AnswerOk(s, b);
  }

  lemma OneMoreStep(steps: seq<Step>, a: Step)
    requires After(steps).Some? && Enabled(After(steps).value, a)
    ensures After(steps + [a]) == Some(Apply(After(steps).value, a))
  {
    assert (steps + [a])[..|steps|] == steps;
  }

  lemma {:induction false} PrefixIsRun(steps: seq<Step>, k: nat)
    requires After(steps).Some? && k < |steps|
    ensures After(steps[..k]).Some? && After(steps[..k + 1]).Some? && Enabled(After(steps[..k]).value, steps[k])
    ensures After(steps[..k + 1]).value == Apply(After(steps[..k]).value, steps[k])
    decreases |steps|
  {
    hide Apply;
    hide Enabled;
    var front := steps[..|steps| - 1];
    if k < |steps| - 1 {
      PrefixIsRun(front, k);
      assert front[..k] == steps[..k] && front[..k + 1] == steps[..k + 1];
    } else {
      assert steps[..k] == front && steps[..k + 1] == steps;
    }
    assert steps[..k + 1][..k] == steps[..k];
  }

  /** Step k is the insert of a start of this tenant without a key. */
  ghost predicate IsKeylessInsert(steps: seq<Step>, k: nat, tenant: Tenant)
    requires After(steps).Some? && k < |steps|
  {
    PrefixIsRun(steps, k);
    var s := After(steps[..k]).value;
    steps[k].InsertExecution? && s.requests[steps[k].request].tenant == tenant && s.requests[steps[k].request].key == ""
  }

  /** And it has inserted its execution. */
  ghost predicate Inserted(steps: seq<Step>, k: nat, tenant: Tenant)
    requires After(steps).Some? && k < |steps|
  {
    PrefixIsRun(steps, k);
    IsKeylessInsert(steps, k, tenant) && steps[k].execution in After(steps[..k + 1]).value.executions
  }

  /** An execution of the tenant with the empty key is there exactly when a start without a key has inserted one. */
  lemma {:induction false} EmptyKeyIsFromStart(steps: seq<Step>, k: nat, tenant: Tenant)
    requires After(steps).Some? && k <= |steps|
    ensures After(steps[..k]).Some?
    ensures KeyIsFree(After(steps[..k]).value, tenant, "") <==> forall i :: 0 <= i < k ==> !Inserted(steps, i, tenant)
    decreases k
  {
    hide Numbers;
    hide IsMax;
    hide VersionIsFree;
    assert steps[..0] == [];
    if k > 0 {
      EmptyKeyIsFromStart(steps, k - 1, tenant);
      PrefixIsRun(steps, k - 1);
      InsertedFreesNothing(After(steps[..k - 1]).value, steps[k - 1], tenant);
      assert KeyIsFree(After(steps[..k]).value, tenant, "") <==>
               KeyIsFree(After(steps[..k - 1]).value, tenant, "") && !Inserted(steps, k - 1, tenant);
      hide Inserted;
      hide KeyIsFree;
    }
  }

  /** What one step does to the empty key of a tenant. */
  lemma {:induction false} InsertedFreesNothing(s: Store, a: Step, tenant: Tenant)
    requires Enabled(s, a)
    ensures var mine := a.InsertExecution? && s.requests[a.request].tenant == tenant && s.requests[a.request].key == "";
            KeyIsFree(Apply(s, a), tenant, "") <==>
              KeyIsFree(s, tenant, "") && !(mine && a.execution in Apply(s, a).executions)
  {
    hide Numbers;
    hide IsMax;
    hide VersionIsFree;
    var s' := Apply(s, a);
    assert forall e :: e in s.executions ==> e in s'.executions && s'.executions[e] == s.executions[e];
    if a.InsertExecution? || a.InsertKeyless? {
      assert forall e :: e in s'.executions ==> e in s.executions || e == a.execution;
    } else {
      assert s'.executions == s.executions;
    }
  }

  /**
   * A start without a key stores the empty text as its key. So of all the key-less starts of a tenant in a run
   * one insert succeeds exactly when its statement does and none has succeeded before it.
   */
  lemma {:induction false} KeylessStartSucceedsOnce(steps: seq<Step>, j: nat, tenant: Tenant)
    requires After(steps).Some? && j < |steps| && IsKeylessInsert(steps, j, tenant)
    ensures Inserted(steps, j, tenant) <==> steps[j].ok && forall i :: 0 <= i < j ==> !Inserted(steps, i, tenant)
  {
    hide Numbers;
    hide IsMax;
    PrefixIsRun(steps, j);
    EmptyKeyIsFromStart(steps, j, tenant);
    hide After;
  }

  /** A published workflow, and two starts without a key one after the other. */
  const TWO_KEYLESS_STARTS: seq<Step> := [
    Create(0, 0), ReadMax(0, 0, 0, 0), InsertVersion(0, 0, true), Activate(0, true),
    LookUp(1, 0, "", None), ReadActive(1, 0), InsertExecution(1, 0, true),
    LookUp(2, 0, "", None), ReadActive(2, 0), InsertExecution(2, 1, true)]

  lemma {:induction false} RunOf(k: nat)
    requires k <= |TWO_KEYLESS_STARTS|
    ensures After(TWO_KEYLESS_STARTS[..k]).Some?
    ensures After(TWO_KEYLESS_STARTS[..k]).value == ExpectedAfter(k)
    decreases k
  {
    if k == 0 {
      assert TWO_KEYLESS_STARTS[..0] == [];
    } else {
      RunOf(k - 1);
      var before, a := TWO_KEYLESS_STARTS[..k - 1], TWO_KEYLESS_STARTS[k - 1];
      assert TWO_KEYLESS_STARTS[..k] == before + [a];
      if k <= 4 {
        PublishingSteps(k);
      } else if k <= 7 {
        FirstStart(k);
      } else {
        SecondStart(k);
      }
      hide Apply;
      hide Enabled;
      OneMoreStep(before, a);
    }
  }

  /** The store after the first k steps of the two starts. */
  function ExpectedAfter(k: nat): Store {
    Store(
      if k < 1 then map[] else map[0 := Workflow(0, if k < 4 then None else Some(0))],
      if k < 3 then map[] else map[0 := Version(0, 1)],
      if k < 7 then map[] else map[0 := Started(0, Some(""), 0)],
      ExpectedRequests(k),
      if k < 7 then {} else {Answer(0, "", 0)})
  }

  function ExpectedRequests(k: nat): map<RequestId, Request> {
    (if k < 2 then map[] else map[0 := if k < 3 then Numbered(0, 1) else if k < 4 then Pointing(0, 0) else Over])
    + (if k < 5 then map[]
       else map[1 := if k < 6 then LookedUp(0, "") else if k < 7 then Versioned(0, "", 0) else Over])
    + (if k < 8 then map[]
       else map[2 := if k < 9 then LookedUp(0, "") else if k < 10 then Versioned(0, "", 0) else Over])
  }

  lemma {:induction false} PublishingSteps(k: nat)
    requires 1 <= k <= 4
    ensures Enabled(ExpectedAfter(k - 1), TWO_KEYLESS_STARTS[k - 1])
    ensures Apply(ExpectedAfter(k - 1), TWO_KEYLESS_STARTS[k - 1]) == ExpectedAfter(k)
  {
    var s := Apply(ExpectedAfter(k - 1), TWO_KEYLESS_STARTS[k - 1]);
    assert s.workflows == ExpectedAfter(k).workflows && s.versions == ExpectedAfter(k).versions;
    assert s.requests == ExpectedRequests(k);
  }

  lemma {:induction false} FirstStart(k: nat)
    requires 5 <= k <= 7
    ensures Enabled(ExpectedAfter(k - 1), TWO_KEYLESS_STARTS[k - 1])
    ensures Apply(ExpectedAfter(k - 1), TWO_KEYLESS_STARTS[k - 1]) == ExpectedAfter(k)
  {
    var s := Apply(ExpectedAfter(k - 1), TWO_KEYLESS_STARTS[k - 1]);
    assert s.executions == ExpectedAfter(k).executions && s.answers == ExpectedAfter(k).answers;
    assert s.requests == ExpectedRequests(k);
  }

  lemma {:induction false} SecondStart(k: nat)
    requires 8 <= k <= 10
    ensures Enabled(ExpectedAfter(k - 1), TWO_KEYLESS_STARTS[k - 1])
    ensures Apply(ExpectedAfter(k - 1), TWO_KEYLESS_STARTS[k - 1]) == ExpectedAfter(k)
  {
    var s := Apply(ExpectedAfter(k - 1), TWO_KEYLESS_STARTS[k - 1]);
    assert HasKey(ExpectedAfter(9).executions[0], 0, "");
    assert s.executions == ExpectedAfter(k).executions && s.answers == ExpectedAfter(k).answers;
    assert s.requests == ExpectedRequests(k);
  }

  /** It does happen: the second start of a tenant without a key is refused although nothing fails. */
  lemma {:induction false} SecondKeylessStartFails()
    ensures After(TWO_KEYLESS_STARTS).Some?
    ensures IsKeylessInsert(TWO_KEYLESS_STARTS, 9, 0) && TWO_KEYLESS_STARTS[9].ok && !Inserted(TWO_KEYLESS_STARTS, 9, 0)
  {
    RunOf(|TWO_KEYLESS_STARTS|);
    assert TWO_KEYLESS_STARTS[..|TWO_KEYLESS_STARTS|] == TWO_KEYLESS_STARTS;
    RunOf(9);
    RunOf(10);
    assert After(TWO_KEYLESS_STARTS[..9]).value.requests[2] == Versioned(0, "", 0);
    assert TWO_KEYLESS_STARTS[9] == InsertExecution(2, 1, true);
    assert After(TWO_KEYLESS_STARTS[..9 + 1]).value.executions == ExpectedAfter(10).executions;
    assert 1 !in ExpectedAfter(10).executions;
  }
}
