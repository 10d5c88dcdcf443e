/** From syntax trees to workflow definitions, as in internal/huml/convert.go. */
module Convert {
  import opened Prelude
  import opened HumlAst
  import opened Model

  /** Go's rendering of a node that has no string form of its own. */
  type NodeFormat = Node -> string

  function NodeToString(format: NodeFormat, n: Node): string {
    match n
    case StringNode(text) => text
    case ExpressionNode(raw, _) => "${" + (raw + "}")
    case IdentifierNode(ident) => ident
    case NumberNode(digits) => digits
    case _ => format(n)
  }

  function NodeToBool(n: Node): bool {
    n.BoolNode? && n.b
  }

  /** The digits of a number node, accumulated with 64-bit wrap-around; signs and dots are skipped. */
  function NodeToInt(n: Node): int {
    if n.NumberNode? then DigitsToInt(0, n.digits) else 0
  }

  function DigitsToInt(acc: int, s: string): int
    decreases |s|
  {
    if s == "" then acc else DigitsToInt(AddDigit(acc, s[0]), s[1..])
  }

  function AddDigit(acc: int, c: char): int {
    if IsDigit(c) then Wrap64(acc * 10 + (c as int - '0' as int)) else acc
  }

  function NodeToAny(n: Node): Value
    decreases n, 0
  {
    match n
    case StringNode(text) => StringValue(text)
    case NumberNode(digits) => StringValue(digits)
    case BoolNode(b) => BoolValue(b)
    case ListNode(items) => ListValue(ItemsToAny(items))
    case ExpressionNode(raw, _) => StringValue("${" + (raw + "}"))
    case _ => NullValue
  }

  function ItemsToAny(items: seq<Node>): (r: seq<Value>)
    decreases items, 1
  {
    if items == [] then [] else [NodeToAny(items[0])] + ItemsToAny(items[1..])
  }

  /** A node that is no list has no items. */
  function NodeToSlice(n: Node): seq<Value> {
    if n.ListNode? then ItemsToAny(n.items) else []
  }

  function ItemsToStrings(format: NodeFormat, items: seq<Node>): seq<string> {
    if items == [] then [] else [NodeToString(format, items[0])] + ItemsToStrings(format, items[1..])
  }

  function NodeToStringSlice(format: NodeFormat, n: Node): seq<string> {
    if n.ListNode? then ItemsToStrings(format, n.items) else []
  }

  function EmptyInput(name: string): InputDef {
    InputDef(name, "", false, NullValue, "", [])
  }

  function SetInput(format: NodeFormat): (InputDef, Node) -> InputDef {
    (input: InputDef, child: Node) =>
      if !child.AssignNode? then input
      else if child.key == "type" then input.(kind := NodeToString(format, child.value))
      else if child.key == "required" then input.(required := NodeToBool(child.value))
      else if child.key == "default" then input.(default := NodeToAny(child.value))
      else if child.key == "description" then input.(description := NodeToString(format, child.value))
      else if child.key == "enum" then input.(enum := NodeToSlice(child.value))
      else input
  }

  function EmptyRetry(): RetryPolicy {
    RetryPolicy(0, "", "", "")
  }

  function SetRetry(format: NodeFormat): (RetryPolicy, Node) -> RetryPolicy {
    (retry: RetryPolicy, child: Node) =>
      if !child.AssignNode? then retry
      else if child.key == "max_attempts" then retry.(maxAttempts := NodeToInt(child.value))
      else if child.key == "backoff" then retry.(backoff := NodeToString(format, child.value))
      else if child.key == "initial_wait" then retry.(initialWait := NodeToString(format, child.value))
      else if child.key == "max_wait" then retry.(maxWait := NodeToString(format, child.value))
      else retry
  }

  function EmptyCompensation(): CompensationDef {
    CompensationDef("", map[], "")
  }

  function SetCompensation(format: NodeFormat): (CompensationDef, Node) -> CompensationDef {
    (comp: CompensationDef, child: Node) =>
      if !child.AssignNode? then comp
      else if child.key == "runner" then comp.(runner := NodeToString(format, child.value))
      else if child.key == "command" then comp.(command := NodeToString(format, child.value))
      else comp.(config := comp.config[child.key := NodeToAny(child.value)])
  }

  function EmptyStep(id: string): StepDef {
    StepDef(id, "", "", [], "", map[], "", "", "", "", None, None, map[])
  }

  function SetStep(format: NodeFormat): (StepDef, Node) -> StepDef {
    (step: StepDef, child: Node) =>
      if child.AssignNode? then SetStepKey(format, step, child.key, child.value)
      else if child.BlockNode? && child.kind == "retry" then
        step.(retry := Some(FoldLeft(SetRetry(format), EmptyRetry(), child.body)))
      else if child.BlockNode? && child.kind == "compensation" then
        step.(compensation := Some(FoldLeft(SetCompensation(format), EmptyCompensation(), child.body)))
      else step
  }

  predicate IsStepKey(key: string) {
    || key == "runner" || key == "image" || key == "command" || key == "host" || key == "timeout"
    || key == "depends_on" || key == "when" || key == "name"
  }

  function SetStepKey(format: NodeFormat, step: StepDef, key: string, value: Node): StepDef {
    if key == "runner" then step.(runner := NodeToString(format, value))
    else if key == "image" then step.(image := NodeToString(format, value))
    else if key == "command" then step.(command := NodeToString(format, value))
    else if key == "host" then step.(host := NodeToString(format, value))
    else if key == "timeout" then step.(timeout := NodeToString(format, value))
    else if key == "depends_on" then step.(dependsOn := NodeToStringSlice(format, value))
    else if key == "when" then step.(when_ := NodeToString(format, value))
    else if key == "name" then step.(name := NodeToString(format, value))
    else step.(config := step.config[key := NodeToAny(value)])
  }

  function EmptyApproval(id: string): ApprovalDef {
    ApprovalDef(id, [], "", [], "")
  }

  function SetApproval(format: NodeFormat): (ApprovalDef, Node) -> ApprovalDef {
    (approval: ApprovalDef, child: Node) =>
      if !child.AssignNode? then approval
      else if child.key == "depends_on" then approval.(dependsOn := NodeToStringSlice(format, child.value))
      else if child.key == "when" then approval.(when_ := NodeToString(format, child.value))
      else if child.key == "required_roles" then approval.(requiredRoles := NodeToStringSlice(format, child.value))
      else if child.key == "message" then approval.(message := NodeToString(format, child.value))
      else approval
  }

  function EmptyDefinition(name: string): WorkflowDefinition {
    WorkflowDefinition(name, "", "", [], [], [])
  }

  function SetDefinition(format: NodeFormat): (WorkflowDefinition, Node) -> WorkflowDefinition {
    (def: WorkflowDefinition, child: Node) =>
      if child.AssignNode? && child.key == "version" then def.(version := NodeToString(format, child.value))
      else if child.AssignNode? && child.key == "description" then
        def.(description := NodeToString(format, child.value))
      else if child.BlockNode? then AddBlock(format, def, child.kind, child.name, child.body)
      else def
  }

  function AddBlock(format: NodeFormat, def: WorkflowDefinition, kind: string, name: string, body: seq<Node>)
    : WorkflowDefinition
  {
    if kind == "input" then def.(inputs := def.inputs + [FoldLeft(SetInput(format), EmptyInput(name), body)])
    else if kind == "step" then def.(steps := def.steps + [FoldLeft(SetStep(format), EmptyStep(name), body)])
    else if kind == "approval" then
      def.(approvals := def.approvals + [FoldLeft(SetApproval(format), EmptyApproval(name), body)])
    else def
  }

  function ConvertWorkflow(format: NodeFormat, w: WorkflowNode): WorkflowDefinition {
    FoldLeft(SetDefinition(format), EmptyDefinition(w.name), w.body)
  }

  method IntOf(n: Node) returns (result: int)
    ensures result == NodeToInt(n)
  {
    result := 0;
    if n.NumberNode? {
      for i := 0 to |n.digits|
        invariant DigitsToInt(result, n.digits[i..]) == NodeToInt(n)
      {
        assert n.digits[i..][1..] == n.digits[i + 1..];
        if IsDigit(n.digits[i]) {
          result := Wrap64(result * 10 + (n.digits[i] as int - '0' as int));
        }
      }
    }
  }

  method SliceOf(n: Node) returns (result: seq<Value>)
    ensures result == NodeToSlice(n)
  {
    result := [];
    if n.ListNode? {
      for i := 0 to |n.items|
        invariant NodeToSlice(n) == result + ItemsToAny(n.items[i..])
      {
        assert n.items[i..][1..] == n.items[i + 1..];
        result := result + [NodeToAny(n.items[i])];
      }
    }
  }

  method StringSliceOf(format: NodeFormat, n: Node) returns (result: seq<string>)
    ensures result == NodeToStringSlice(format, n)
  {
    result := [];
    if n.ListNode? {
      for i := 0 to |n.items|
        invariant NodeToStringSlice(format, n) == result + ItemsToStrings(format, n.items[i..])
      {
        assert n.items[i..][1..] == n.items[i + 1..];
        result := result + [NodeToString(format, n.items[i])];
      }
    }
  }

  method ConvertInput(format: NodeFormat, name: string, body: seq<Node>) returns (input: InputDef)
    ensures input == FoldLeft(SetInput(format), EmptyInput(name), body)
  {
    input := EmptyInput(name);
    for i := 0 to |body|
      invariant FoldLeft(SetInput(format), input, body[i..]) == FoldLeft(SetInput(format), EmptyInput(name), body)
    {
      FoldLeftStep(SetInput(format), input, body, i);
      var child := body[i];
      if !child.AssignNode? {
        continue;
      }
      match child.key {
        case "type" => input := input.(kind := NodeToString(format, child.value));
        case "required" => input := input.(required := NodeToBool(child.value));
        case "default" => input := input.(default := NodeToAny(child.value));
        case "description" => input := input.(description := NodeToString(format, child.value));
        case "enum" =>
          var enum := SliceOf(child.value);
          input := input.(enum := enum);
        case _ =>
      }
    }
  }

  method ConvertRetry(format: NodeFormat, body: seq<Node>) returns (retry: RetryPolicy)
    ensures retry == FoldLeft(SetRetry(format), EmptyRetry(), body)
  {
    retry := EmptyRetry();
    for i := 0 to |body|
      invariant FoldLeft(SetRetry(format), retry, body[i..]) == FoldLeft(SetRetry(format), EmptyRetry(), body)
    {
      FoldLeftStep(SetRetry(format), retry, body, i);
      var child := body[i];
      if !child.AssignNode? {
        continue;
      }
      match child.key {
        case "max_attempts" =>
          var attempts := IntOf(child.value);
          retry := retry.(maxAttempts := attempts);
        case "backoff" => retry := retry.(backoff := NodeToString(format, child.value));
        case "initial_wait" => retry := retry.(initialWait := NodeToString(format, child.value));
        case "max_wait" => retry := retry.(maxWait := NodeToString(format, child.value));
        case _ =>
      }
    }
  }

  method ConvertCompensation(format: NodeFormat, body: seq<Node>) returns (comp: CompensationDef)
    ensures comp == FoldLeft(SetCompensation(format), EmptyCompensation(), body)
  {
    comp := EmptyCompensation();
    for i := 0 to |body|
      invariant FoldLeft(SetCompensation(format), comp, body[i..])
             == FoldLeft(SetCompensation(format), EmptyCompensation(), body)
    {
      FoldLeftStep(SetCompensation(format), comp, body, i);
      var child := body[i];
      if !child.AssignNode? {
        continue;
      }
      match child.key {
        case "runner" => comp := comp.(runner := NodeToString(format, child.value));
        case "command" => comp := comp.(command := NodeToString(format, child.value));
        case _ => comp := comp.(config := comp.config[child.key := NodeToAny(child.value)]);
      }
    }
  }

  method ConvertStep(format: NodeFormat, name: string, body: seq<Node>) returns (step: StepDef)
    ensures step == FoldLeft(SetStep(format), EmptyStep(name), body)
  {
    step := EmptyStep(name);
    for i := 0 to |body|
      invariant FoldLeft(SetStep(format), step, body[i..]) == FoldLeft(SetStep(format), EmptyStep(name), body)
    {
      FoldLeftStep(SetStep(format), step, body, i);
      var child := body[i];
      match child {
        case AssignNode(key, value) =>
          if key == "depends_on" {
            var deps := StringSliceOf(format, value);
            step := step.(dependsOn := deps);
          } else {
            step := SetStepKey(format, step, key, value);
          }
        case BlockNode(kind, _, inner) =>
          if kind == "retry" {
            var retry := ConvertRetry(format, inner);
            step := step.(retry := Some(retry));
          } else if kind == "compensation" {
            var comp := ConvertCompensation(format, inner);
            step := step.(compensation := Some(comp));
          }
        case _ =>
      }
    }
  }

  method ConvertApproval(format: NodeFormat, name: string, body: seq<Node>) returns (approval: ApprovalDef)
    ensures approval == FoldLeft(SetApproval(format), EmptyApproval(name), body)
  {
    approval := EmptyApproval(name);
    for i := 0 to |body|
      invariant FoldLeft(SetApproval(format), approval, body[i..])
             == FoldLeft(SetApproval(format), EmptyApproval(name), body)
    {
      FoldLeftStep(SetApproval(format), approval, body, i);
      var child := body[i];
      if !child.AssignNode? {
        continue;
      }
      match child.key {
        case "depends_on" =>
          var deps := StringSliceOf(format, child.value);
          approval := approval.(dependsOn := deps);
        case "when" => approval := approval.(when_ := NodeToString(format, child.value));
        case "required_roles" =>
          var roles := StringSliceOf(format, child.value);
          approval := approval.(requiredRoles := roles);
        case "message" => approval := approval.(message := NodeToString(format, child.value));
        case _ =>
      }
    }
  }

  method ConvertTree(format: NodeFormat, w: WorkflowNode) returns (def: WorkflowDefinition)
    ensures def == ConvertWorkflow(format, w)
  {
    def := EmptyDefinition(w.name);
    for i := 0 to |w.body|
      invariant FoldLeft(SetDefinition(format), def, w.body[i..]) == ConvertWorkflow(format, w)
    {
      FoldLeftStep(SetDefinition(format), def, w.body, i);
      var child := w.body[i];
      match child {
        case AssignNode(key, value) =>
          if key == "version" {
            def := def.(version := NodeToString(format, value));
          } else if key == "description" {
            def := def.(description := NodeToString(format, value));
          }
        case BlockNode(kind, name, body) =>
          if kind == "input" {
            var input := ConvertInput(format, name, body);
            def := def.(inputs := def.inputs + [input]);
          } else if kind == "step" {
            var step := ConvertStep(format, name, body);
            def := def.(steps := def.steps + [step]);
          } else if kind == "approval" {
            var approval := ConvertApproval(format, name, body);
            def := def.(approvals := def.approvals + [approval]);
          }
        case _ =>
      }
    }
  }
}
