/** Which definitions are accepted (internal/validator/validator.go), and what acceptance buys a run. */
module Validator {
  import opened Prelude
  import opened Model
  import opened Graph
  import opened Dag

  class ValidationResult {
    var valid: bool
    /** The field each error was reported for. */
    var errors: seq<string>

    constructor ()
      ensures Honest() && errors == []
    {
      valid, errors := true, [];
    }

    /** Valid means that no error was reported. */
    predicate Honest()
      reads this
    {
      valid <==> errors == []
    }

    method AddError(field: string)
      modifies this
      ensures Honest() && errors == old(errors) + [field]
    {
      valid := false;
      errors := errors + [field];
    }

    /** Reports this field when the complaint is justified. */
    method Check(complaint: bool, field: string)
      requires Honest()
      modifies this
      ensures Honest() && errors == old(errors) + When(complaint, field)
    {
      if complaint {
        AddError(field);
      } else {
        assert errors + [] == errors;
      }
    }
  }

  function When(complaint: bool, field: string): seq<string> {
    if complaint then [field] else []
  }

  predicate IsInputType(kind: string) {
    kind == "string" || kind == "number" || kind == "boolean" || kind == "object" || kind == "array"
  }

  predicate IsKnownRunner(runner: string) {
    runner == "docker" || runner == "local" || runner == "ssh"
  }

  predicate IsKnownBackoff(backoff: string) {
    backoff == "exponential" || backoff == "linear" || backoff == "fixed" || backoff == ""
  }

  /** The complaints about one input, given the names before it. */
  function InputErrors(input: InputDef, seen: set<string>): seq<string> {
    if input.name == "" then ["inputs"]
    else
      When(input.name in seen, "inputs." + input.name)
      + When(!IsInputType(input.kind), "inputs." + input.name + ".type")
  }

  function AllInputErrors(inputs: seq<InputDef>): seq<string> {
    if inputs == [] then []
    else
      var before := inputs[..|inputs| - 1];
      AllInputErrors(before) + InputErrors(inputs[|inputs| - 1], InputNames(before))
  }

  function InputNames(inputs: seq<InputDef>): set<string> {
    set input | input in inputs :: input.name
  }

  function StepErrors(step: StepDef, seen: set<string>): seq<string> {
    if step.id == "" then ["steps"]
    else
      When(step.id in seen, "steps." + step.id)
      + When(!IsKnownRunner(step.runner), "steps." + step.id + ".runner")
      + When(step.command == "", "steps." + step.id + ".command")
      + When(step.runner == "docker" && step.image == "", "steps." + step.id + ".image")
      + When(step.runner == "ssh" && step.host == "", "steps." + step.id + ".host")
      + RetryErrors(step.id, step.retry)
  }

  function RetryErrors(id: string, retry: Option<RetryPolicy>): seq<string> {
    if retry.None? then []
    else
      When(retry.value.maxAttempts < 1, "steps." + id + ".retry.max_attempts")
      + When(!IsKnownBackoff(retry.value.backoff), "steps." + id + ".retry.backoff")
  }

  function AllStepErrors(steps: seq<StepDef>): seq<string> {
    if steps == [] then []
    else
      var before := steps[..|steps| - 1];
      AllStepErrors(before) + StepErrors(steps[|steps| - 1], StepIds(before))
  }

  function StepIds(steps: seq<StepDef>): set<string> {
    set step | step in steps :: step.id
  }

  function ApprovalErrors(approval: ApprovalDef, seen: set<string>): seq<string> {
    if approval.id == "" then ["approvals"]
    else
      When(approval.id in seen, "approvals." + approval.id)
      + When(approval.requiredRoles == [], "approvals." + approval.id + ".required_roles")
  }

  function AllApprovalErrors(approvals: seq<ApprovalDef>): seq<string> {
    if approvals == [] then []
    else
      var before := approvals[..|approvals| - 1];
      AllApprovalErrors(before) + ApprovalErrors(approvals[|approvals| - 1], ApprovalIds(before))
  }

  function ApprovalIds(approvals: seq<ApprovalDef>): set<string> {
    set approval | approval in approvals :: approval.id
  }

  ghost function DagErrors(def: WorkflowDefinition): seq<string> {
    When(!DependenciesKnown(def) || !Acyclic(GraphOf(def)), "dag")
  }

  /** One complaint for every unknown name in a list of dependencies. */
  function UnknownErrors(deps: seq<string>, known: set<string>, field: string): seq<string> {
    if deps == [] then []
    else UnknownErrors(deps[..|deps| - 1], known, field) + When(deps[|deps| - 1] !in known, field)
  }

  function StepDependencyErrors(steps: seq<StepDef>, known: set<string>): seq<string> {
    if steps == [] then []
    else
      var step := steps[|steps| - 1];
      StepDependencyErrors(steps[..|steps| - 1], known)
      + UnknownErrors(step.dependsOn, known, "steps." + step.id + ".depends_on")
  }

  function ApprovalDependencyErrors(approvals: seq<ApprovalDef>, known: set<string>): seq<string> {
    if approvals == [] then []
    else
      var approval := approvals[|approvals| - 1];
      ApprovalDependencyErrors(approvals[..|approvals| - 1], known)
      + UnknownErrors(approval.dependsOn, known, "approvals." + approval.id + ".depends_on")
  }

  function KnownIds(def: WorkflowDefinition): set<string> {
    StepIds(def.steps) + ApprovalIds(def.approvals)
  }

  /** Everything the validator reports, in its order. */
  ghost function AllErrors(def: WorkflowDefinition): seq<string> {
    When(def.name == "", "name") + AllInputErrors(def.inputs) + AllStepErrors(def.steps)
    + AllApprovalErrors(def.approvals) + DagErrors(def)
    + StepDependencyErrors(def.steps, KnownIds(def)) + ApprovalDependencyErrors(def.approvals, KnownIds(def))
  }

  method ValidateInput(input: InputDef, seen: set<string>, result: ValidationResult)
    requires input.name != "" && result.Honest()
    modifies result
    ensures result.errors == old(result.errors) + InputErrors(input, seen)
    ensures result.Honest()
  {
    hide When;
    ghost var base := result.errors;
    result.Check(input.name in seen, "inputs." + input.name);
    result.Check(!IsInputType(input.kind), "inputs." + input.name + ".type");
    Assoc(base, When(input.name in seen, "inputs." + input.name),
        When(!IsInputType(input.kind), "inputs." + input.name + ".type"));
  }

  method ValidateInputs(inputs: seq<InputDef>, result: ValidationResult)
    requires result.Honest()
    modifies result
    ensures result.errors == old(result.errors) + AllInputErrors(inputs)
    ensures result.Honest()
  {
    hide InputErrors;
    var seen: set<string> := {};
    assert result.errors + [] == result.errors;
    for i := 0 to |inputs|
      invariant forall name :: name != "" ==> (name in seen <==> name in InputNames(inputs[..i]))
      invariant result.errors == old(result.errors) + AllInputErrors(inputs[..i])
      invariant result.Honest()
    {
      var input := inputs[i];
      assert inputs[..i + 1][..i] == inputs[..i] && inputs[..i + 1] == inputs[..i] + [input];
      Assoc(old(result.errors), AllInputErrors(inputs[..i]), InputErrors(input, InputNames(inputs[..i])));
      SeenInput(input, seen, InputNames(inputs[..i]));
      if input.name == "" {
        result.AddError("inputs");
        continue;
      }
      ValidateInput(input, seen, result);
      seen := seen + {input.name};
    }
    assert inputs[..|inputs|] == inputs;
  }

  lemma SeenInput(input: InputDef, seen: set<string>, names: set<string>)
    requires forall name :: name != "" ==> (name in seen <==> name in names)
    ensures InputErrors(input, seen) == InputErrors(input, names)
    ensures input.name == "" ==> InputErrors(input, names) == ["inputs"]
  {
  }

  method ValidateStep(step: StepDef, seen: set<string>, result: ValidationResult)
    requires step.id != "" && result.Honest()
    modifies result
    ensures result.errors == old(result.errors) + StepErrors(step, seen)
    ensures result.Honest()
  {
    hide When;
    ghost var base := result.errors;
    ghost var path := "steps." + step.id;
    ghost var a, b, c := When(step.id in seen, path), When(!IsKnownRunner(step.runner), path + ".runner"),
                         When(step.command == "", path + ".command");
    ghost var d, e := When(step.runner == "docker" && step.image == "", path + ".image"),
                      When(step.runner == "ssh" && step.host == "", path + ".host");
    result.Check(step.id in seen, "steps." + step.id);
    result.Check(!IsKnownRunner(step.runner), "steps." + step.id + ".runner");
    Assoc(base, a, b);
    result.Check(step.command == "", "steps." + step.id + ".command");
    Assoc(base, a + b, c);
    result.Check(step.runner == "docker" && step.image == "", "steps." + step.id + ".image");
    Assoc(base, a + b + c, d);
    result.Check(step.runner == "ssh" && step.host == "", "steps." + step.id + ".host");
    Assoc(base, a + b + c + d, e);
    ValidateRetry(step.id, step.retry, result);
    Assoc(base, a + b + c + d + e, RetryErrors(step.id, step.retry));
  }

  method ValidateRetry(id: string, retry: Option<RetryPolicy>, result: ValidationResult)
    requires result.Honest()
    modifies result
    ensures result.errors == old(result.errors) + RetryErrors(id, retry)
    ensures result.Honest()
  {
    if retry.Some? {
      ghost var base := result.errors;
      result.Check(retry.value.maxAttempts < 1, "steps." + id + ".retry.max_attempts");
      result.Check(!IsKnownBackoff(retry.value.backoff), "steps." + id + ".retry.backoff");
      Assoc(base, When(retry.value.maxAttempts < 1, "steps." + id + ".retry.max_attempts"),
            When(!IsKnownBackoff(retry.value.backoff), "steps." + id + ".retry.backoff"));
    } else {
      assert result.errors + [] == result.errors;
    }
  }

  method ValidateSteps(steps: seq<StepDef>, result: ValidationResult)
    requires result.Honest()
    modifies result
    ensures result.errors == old(result.errors) + AllStepErrors(steps)
    ensures result.Honest()
  {
    hide StepErrors;
    var seen: set<string> := {};
    assert result.errors + [] == result.errors;
    for i := 0 to |steps|
      invariant forall id :: id != "" ==> (id in seen <==> id in StepIds(steps[..i]))
      invariant result.errors == old(result.errors) + AllStepErrors(steps[..i])
      invariant result.Honest()
    {
      var step := steps[i];
      assert steps[..i + 1][..i] == steps[..i] && steps[..i + 1] == steps[..i] + [step];
      Assoc(old(result.errors), AllStepErrors(steps[..i]), StepErrors(step, StepIds(steps[..i])));
      SeenStep(step, seen, StepIds(steps[..i]));
      if step.id == "" {
        result.AddError("steps");
        continue;
      }
      ValidateStep(step, seen, result);
      seen := seen + {step.id};
    }
    assert steps[..|steps|] == steps;
  }

  lemma SeenStep(step: StepDef, seen: set<string>, ids: set<string>)
    requires forall id :: id != "" ==> (id in seen <==> id in ids)
    ensures StepErrors(step, seen) == StepErrors(step, ids)
    ensures step.id == "" ==> StepErrors(step, ids) == ["steps"]
  {
  }

  method ValidateApproval(approval: ApprovalDef, seen: set<string>, result: ValidationResult)
    requires approval.id != "" && result.Honest()
    modifies result
    ensures result.errors == old(result.errors) + ApprovalErrors(approval, seen)
    ensures result.Honest()
  {
    hide When;
    ghost var base := result.errors;
    result.Check(approval.id in seen, "approvals." + approval.id);
    result.Check(approval.requiredRoles == [], "approvals." + approval.id + ".required_roles");
    Assoc(base, When(approval.id in seen, "approvals." + approval.id),
          When(approval.requiredRoles == [], "approvals." + approval.id + ".required_roles"));
  }

  method ValidateApprovals(approvals: seq<ApprovalDef>, result: ValidationResult)
    requires result.Honest()
    modifies result
    ensures result.errors == old(result.errors) + AllApprovalErrors(approvals)
    ensures result.Honest()
  {
    hide ApprovalErrors;
    var seen: set<string> := {};
    assert result.errors + [] == result.errors;
    for i := 0 to |approvals|
      invariant forall id :: id != "" ==> (id in seen <==> id in ApprovalIds(approvals[..i]))
      invariant result.errors == old(result.errors) + AllApprovalErrors(approvals[..i])
      invariant result.Honest()
    {
      var approval := approvals[i];
      assert approvals[..i + 1][..i] == approvals[..i] && approvals[..i + 1] == approvals[..i] + [approval];
      Assoc(old(result.errors), AllApprovalErrors(approvals[..i]),
          ApprovalErrors(approval, ApprovalIds(approvals[..i])));
      SeenApproval(approval, seen, ApprovalIds(approvals[..i]));
      if approval.id == "" {
        result.AddError("approvals");
        continue;
      }
      ValidateApproval(approval, seen, result);
      seen := seen + {approval.id};
    }
    assert approvals[..|approvals|] == approvals;
  }

  lemma SeenApproval(approval: ApprovalDef, seen: set<string>, ids: set<string>)
    requires forall id :: id != "" ==> (id in seen <==> id in ids)
    ensures ApprovalErrors(approval, seen) == ApprovalErrors(approval, ids)
    ensures approval.id == "" ==> ApprovalErrors(approval, ids) == ["approvals"]
  {
  }

  method ValidateDAG(def: WorkflowDefinition, result: ValidationResult)
    requires result.Honest()
    modifies result
    ensures result.errors == old(result.errors) + DagErrors(def)
    ensures result.Honest()
  {
    var dag := BuildDAG(def);
    if dag == null {
      result.AddError("dag");
      return;
    }
    var acyclic := dag.DetectCycles();
    result.Check(!acyclic, "dag");
  }

  method ValidateDependencies(deps: seq<string>, known: set<string>, field: string, result: ValidationResult)
    requires result.Honest()
    modifies result
    ensures result.errors == old(result.errors) + UnknownErrors(deps, known, field)
    ensures result.Honest()
  {
    assert result.errors + [] == result.errors;
    for i := 0 to |deps|
      invariant result.errors == old(result.errors) + UnknownErrors(deps[..i], known, field)
      invariant result.Honest()
    {
      assert deps[..i + 1][..i] == deps[..i];
      Assoc(old(result.errors), UnknownErrors(deps[..i], known, field), When(deps[i] !in known, field));
      result.Check(deps[i] !in known, field);
    }
    assert deps[..|deps|] == deps;
  }

  method ValidateExpressions(def: WorkflowDefinition, result: ValidationResult)
    requires result.Honest()
    modifies result
    ensures result.errors == old(result.errors) + StepDependencyErrors(def.steps, KnownIds(def))
                             + ApprovalDependencyErrors(def.approvals, KnownIds(def))
    ensures result.Honest()
  {
    var known := KnownIds(def);
    assert result.errors + [] == result.errors;
    for i := 0 to |def.steps|
      invariant result.errors == old(result.errors) + StepDependencyErrors(def.steps[..i], known)
      invariant result.Honest()
    {
      var step := def.steps[i];
      assert def.steps[..i + 1][..i] == def.steps[..i];
      Assoc(old(result.errors), StepDependencyErrors(def.steps[..i], known),
            UnknownErrors(step.dependsOn, known, "steps." + step.id + ".depends_on"));
      ValidateDependencies(step.dependsOn, known, "steps." + step.id + ".depends_on", result);
    }
    assert def.steps[..|def.steps|] == def.steps;
    ghost var afterSteps := result.errors;
    assert result.errors + [] == result.errors;
    for i := 0 to |def.approvals|
      invariant result.errors == afterSteps + ApprovalDependencyErrors(def.approvals[..i], known)
      invariant result.Honest()
    {
      var approval := def.approvals[i];
      assert def.approvals[..i + 1][..i] == def.approvals[..i];
      Assoc(afterSteps, ApprovalDependencyErrors(def.approvals[..i], known),
            UnknownErrors(approval.dependsOn, known, "approvals." + approval.id + ".depends_on"));
      ValidateDependencies(approval.dependsOn, known, "approvals." + approval.id + ".depends_on", result);
    }
    assert def.approvals[..|def.approvals|] == def.approvals;
  }

  /** Reports every complaint, and a definition is valid exactly when it is well formed. */
  method ValidateWorkflow(def: WorkflowDefinition) returns (result: ValidationResult)
    ensures fresh(result) && result.errors == AllErrors(def)
    ensures result.valid <==> Accepted(def)
  {
    hide When;
    hide AllInputErrors;
    hide AllStepErrors;
    hide AllApprovalErrors;
    hide DagErrors;
    hide StepDependencyErrors;
    hide ApprovalDependencyErrors;
    hide Accepted;
    result := new ValidationResult();
    assert [] + When(def.name == "", "name") == When(def.name == "", "name");
    result.Check(def.name == "", "name");
    ValidateInputs(def.inputs, result);
    ValidateSteps(def.steps, result);
    ValidateApprovals(def.approvals, result);
    ValidateDAG(def, result);
    ValidateExpressions(def, result);
    NoErrorsIffAccepted(def);
  }

  predicate GoodInput(input: InputDef) {
    input.name != "" && IsInputType(input.kind)
  }

  predicate GoodStep(step: StepDef) {
    && step.id != "" && IsKnownRunner(step.runner) && step.command != ""
    && (step.runner == "docker" ==> step.image != "")
    && (step.runner == "ssh" ==> step.host != "")
    && (step.retry.Some? ==> step.retry.value.maxAttempts >= 1 && IsKnownBackoff(step.retry.value.backoff))
  }

  predicate GoodApproval(approval: ApprovalDef) {
    approval.id != "" && approval.requiredRoles != []
  }

  /** A well-formed definition: good parts, names used once per kind, known dependencies, no cycle. */
  ghost predicate Accepted(def: WorkflowDefinition) {
    && def.name != ""
    && (forall input :: input in def.inputs ==> GoodInput(input))
    && (forall i, j :: 0 <= i < j < |def.inputs| ==> def.inputs[i].name != def.inputs[j].name)
    && (forall step :: step in def.steps ==> GoodStep(step))
    && (forall i, j :: 0 <= i < j < |def.steps| ==> def.steps[i].id != def.steps[j].id)
    && (forall approval :: approval in def.approvals ==> GoodApproval(approval))
    && (forall i, j :: 0 <= i < j < |def.approvals| ==> def.approvals[i].id != def.approvals[j].id)
    && DependenciesKnown(def) && Acyclic(GraphOf(def))
  }

  lemma {:induction false} NoInputErrors(inputs: seq<InputDef>)
    ensures AllInputErrors(inputs) == [] <==>
              && (forall input :: input in inputs ==> GoodInput(input))
              && (forall i, j :: 0 <= i < j < |inputs| ==> inputs[i].name != inputs[j].name)
  {
    hide GoodInput;
    hide InputErrors;
    if inputs != [] {
      var before, last := inputs[..|inputs| - 1], inputs[|inputs| - 1];
      NoInputErrors(before);
      assert inputs == before + [last];
      GoodInputHasNoErrors(last, InputNames(before));
    }
  }

  lemma GoodInputHasNoErrors(input: InputDef, seen: set<string>)
    ensures InputErrors(input, seen) == [] <==> GoodInput(input) && input.name !in seen
  {
  }

  lemma {:induction false} NoStepErrors(steps: seq<StepDef>)
    ensures AllStepErrors(steps) == [] <==>
              && (forall step :: step in steps ==> GoodStep(step))
              && (forall i, j :: 0 <= i < j < |steps| ==> steps[i].id != steps[j].id)
  {
    hide GoodStep;
    hide StepErrors;
    if steps != [] {
      var before, last := steps[..|steps| - 1], steps[|steps| - 1];
      NoStepErrors(before);
      assert steps == before + [last];
      GoodStepHasNoErrors(last, StepIds(before));
    }
  }

  lemma GoodStepHasNoErrors(step: StepDef, seen: set<string>)
    ensures StepErrors(step, seen) == [] <==> GoodStep(step) && step.id !in seen
  {
  }

  lemma {:induction false} NoApprovalErrors(approvals: seq<ApprovalDef>)
    ensures AllApprovalErrors(approvals) == [] <==>
              && (forall approval :: approval in approvals ==> GoodApproval(approval))
              && (forall i, j :: 0 <= i < j < |approvals| ==> approvals[i].id != approvals[j].id)
  {
    hide GoodApproval;
    hide ApprovalErrors;
    if approvals != [] {
      var before, last := approvals[..|approvals| - 1], approvals[|approvals| - 1];
      NoApprovalErrors(before);
      assert approvals == before + [last];
      GoodApprovalHasNoErrors(last, ApprovalIds(before));
    }
  }

  lemma GoodApprovalHasNoErrors(approval: ApprovalDef, seen: set<string>)
    ensures ApprovalErrors(approval, seen) == [] <==> GoodApproval(approval) && approval.id !in seen
  {
  }

  lemma {:induction false} NodesAreKnownIds(def: WorkflowDefinition)
    ensures NodesOf(def).Keys == KnownIds(def)
  {
    StepNodeIds(map[], def.steps);
    ApprovalNodeIds(FoldLeft(PutStep(), map[], def.steps), def.approvals);
  }

  lemma {:induction false} StepNodeIds(nodes: map<string, NodeDef>, steps: seq<StepDef>)
    ensures FoldLeft(PutStep(), nodes, steps).Keys == nodes.Keys + StepIds(steps)
    decreases |steps|
  {
    if steps != [] {
      StepNodeIds(PutStep()(nodes, steps[0]), steps[1..]);
      assert steps == [steps[0]] + steps[1..];
      assert StepIds(steps) == {steps[0].id} + StepIds(steps[1..]);
    }
  }

  lemma {:induction false} ApprovalNodeIds(nodes: map<string, NodeDef>, approvals: seq<ApprovalDef>)
    ensures FoldLeft(PutApproval(), nodes, approvals).Keys == nodes.Keys + ApprovalIds(approvals)
    decreases |approvals|
  {
    if approvals != [] {
      ApprovalNodeIds(PutApproval()(nodes, approvals[0]), approvals[1..]);
      assert approvals == [approvals[0]] + approvals[1..];
      assert ApprovalIds(approvals) == {approvals[0].id} + ApprovalIds(approvals[1..]);
    }
  }

  lemma {:induction false} NoUnknown(deps: seq<string>, known: set<string>, field: string)
    ensures UnknownErrors(deps, known, field) == [] <==> forall dep :: dep in deps ==> dep in known
  {
    if deps != [] {
      NoUnknown(deps[..|deps| - 1], known, field);
      assert deps == deps[..|deps| - 1] + [deps[|deps| - 1]];
    }
  }

  lemma {:induction false} StepPairsInclude(steps: seq<StepDef>, step: StepDef, dep: string)
    requires step in steps && dep in step.dependsOn
    ensures (dep, step.id) in StepPairs(steps)
    decreases |steps|
  {
    if steps[0] == step {
      PairsInclude(step.id, step.dependsOn, dep);
    } else {
      StepPairsInclude(steps[1..], step, dep);
    }
  }

  lemma {:induction false} ApprovalPairsInclude(approvals: seq<ApprovalDef>, approval: ApprovalDef, dep: string)
    requires approval in approvals && dep in approval.dependsOn
    ensures (dep, approval.id) in ApprovalPairs(approvals)
    decreases |approvals|
  {
    if approvals[0] == approval {
      PairsInclude(approval.id, approval.dependsOn, dep);
    } else {
      ApprovalPairsInclude(approvals[1..], approval, dep);
    }
  }

  lemma {:induction false} PairsInclude(id: string, deps: seq<string>, dep: string)
    requires dep in deps
    ensures (dep, id) in PairsTo(id, deps)
    decreases |deps|
  {
    if deps[0] != dep {
      PairsInclude(id, deps[1..], dep);
    }
  }

  lemma {:induction false} NoStepDependencyErrors(steps: seq<StepDef>, known: set<string>)
    requires forall step, dep :: step in steps && dep in step.dependsOn ==> dep in known
    ensures StepDependencyErrors(steps, known) == []
    decreases |steps|
  {
    if steps != [] {
      var step := steps[|steps| - 1];
      NoStepDependencyErrors(steps[..|steps| - 1], known);
      NoUnknown(step.dependsOn, known, "steps." + step.id + ".depends_on");
    }
  }

  lemma {:induction false} NoApprovalDependencyErrors(approvals: seq<ApprovalDef>, known: set<string>)
    requires forall approval, dep :: approval in approvals && dep in approval.dependsOn ==> dep in known
    ensures ApprovalDependencyErrors(approvals, known) == []
    decreases |approvals|
  {
    if approvals != [] {
      var approval := approvals[|approvals| - 1];
      NoApprovalDependencyErrors(approvals[..|approvals| - 1], known);
      NoUnknown(approval.dependsOn, known, "approvals." + approval.id + ".depends_on");
    }
  }

  /** The second dependency check never finds anything the graph check has not. */
  lemma {:induction false} NoDependencyErrors(def: WorkflowDefinition)
    requires DependenciesKnown(def)
    ensures StepDependencyErrors(def.steps, KnownIds(def)) == []
    ensures ApprovalDependencyErrors(def.approvals, KnownIds(def)) == []
  {
    NodesAreKnownIds(def);
    forall step, dep | step in def.steps && dep in step.dependsOn
      ensures dep in KnownIds(def)
    {
      StepPairsInclude(def.steps, step, dep);
      assert (dep, step.id) in PairsOf(def);
    }
    forall approval, dep | approval in def.approvals && dep in approval.dependsOn
      ensures dep in KnownIds(def)
    {
      ApprovalPairsInclude(def.approvals, approval, dep);
      assert (dep, approval.id) in PairsOf(def);
    }
    NoStepDependencyErrors(def.steps, KnownIds(def));
    NoApprovalDependencyErrors(def.approvals, KnownIds(def));
  }

  lemma {:induction false} NoErrorsIffAccepted(def: WorkflowDefinition)
    ensures AllErrors(def) == [] <==> Accepted(def)
  {
    hide GoodInput;
    hide GoodStep;
    hide GoodApproval;
    NoInputErrors(def.inputs);
    NoStepErrors(def.steps);
    NoApprovalErrors(def.approvals);
    if DependenciesKnown(def) {
      NoDependencyErrors(def);
    }
  }
}
