/** Printing definitions as HUML text, and the proof that ParseHUML reads every one of them back. */
module HumlRoundTrip {
  import opened Prelude
  import opened HumlAst
  import opened Tokens
  import opened TokenRoundTrip
  import opened HumlSyntax
  import opened SyntaxRoundTrip
  import opened Model
  import opened Convert
  import opened Huml

  /** The dynamic values HUML has a notation for: a number is read as its text. */
  predicate ExpressibleValue(v: Value) {
    match v
    case NullValue => true
    case BoolValue(_) => true
    case StringValue(_) => true
    case ListValue(items) => ExpressibleItems(items)
    case _ => false
  }

  predicate ExpressibleItems(items: seq<Value>) {
    items == [] || (ExpressibleValue(items[0]) && ExpressibleItems(items[1..]))
  }

  predicate ExpressibleInput(input: InputDef) {
    ExpressibleValue(input.default) && ExpressibleItems(input.enum)
  }

  ghost predicate ExpressibleConfig(config: map<string, Value>, reserved: string -> bool) {
    forall k :: k in config ==> IsKey(k) && !reserved(k) && ExpressibleValue(config[k])
  }

  predicate IsCompensationKey(key: string) {
    key == "runner" || key == "command"
  }

  ghost predicate ExpressibleStep(step: StepDef) {
    && ExpressibleConfig(step.config, IsStepKey)
    && step.env == map[]
    && (step.retry.Some? ==> IsInt64(step.retry.value.maxAttempts))
    && (step.compensation.Some? ==> ExpressibleConfig(step.compensation.value.config, IsCompensationKey))
  }

  ghost predicate Expressible(def: WorkflowDefinition) {
    && (forall input :: input in def.inputs ==> ExpressibleInput(input))
    && (forall step :: step in def.steps ==> ExpressibleStep(step))
  }

  function Decimal(n: nat): string {
    (if n < 10 then "" else Decimal(n / 10)) + [('0' as int + n % 10) as char]
  }

  function ValueNode(v: Value): Node
    decreases v, 0
  {
    match v
    case BoolValue(b) => BoolNode(b)
    case StringValue(s) => StringNode(s)
    case ListValue(items) => ListNode(ValueNodes(items))
    case _ => NullNode
  }

  function ValueNodes(items: seq<Value>): seq<Node>
    decreases items, 1
  {
    if items == [] then [] else [ValueNode(items[0])] + ValueNodes(items[1..])
  }

  function StringNodes(ss: seq<string>): seq<Node> {
    if ss == [] then [] else [StringNode(ss[0])] + StringNodes(ss[1..])
  }

  ghost function ConfigNodes(config: map<string, Value>): seq<Node>
    decreases |config|
  {
    if config == map[] then []
    else
      var k :| k in config;
      [AssignNode(k, ValueNode(config[k]))] + ConfigNodes(config - {k})
  }

  function InputNode(input: InputDef): Node {
    BlockNode("input", input.name,
              [AssignNode("type", StringNode(input.kind)), AssignNode("required", BoolNode(input.required)),
               AssignNode("default", ValueNode(input.default)),
               AssignNode("description", StringNode(input.description)),
               AssignNode("enum", ListNode(ValueNodes(input.enum)))])
  }

  /** A negative count is written as the decimal that wraps around to it. */
  function AttemptsText(attempts: int): string {
    var n := if attempts < 0 then attempts + 0x1_0000_0000_0000_0000 else attempts;
    if n < 0 then "" else Decimal(n)
  }

  function RetryNode(retry: RetryPolicy): Node {
    BlockNode("retry", "",
              [AssignNode("max_attempts", NumberNode(AttemptsText(retry.maxAttempts))),
               AssignNode("backoff", StringNode(retry.backoff)),
               AssignNode("initial_wait", StringNode(retry.initialWait)),
               AssignNode("max_wait", StringNode(retry.maxWait))])
  }

  ghost function CompensationNode(comp: CompensationDef): Node {
    BlockNode("compensation", "",
              [AssignNode("runner", StringNode(comp.runner)), AssignNode("command", StringNode(comp.command))]
              + ConfigNodes(comp.config))
  }

  function StepAssigns(step: StepDef): seq<Node> {
    [AssignNode("runner", StringNode(step.runner)), AssignNode("image", StringNode(step.image)),
     AssignNode("command", StringNode(step.command)), AssignNode("host", StringNode(step.host)),
     AssignNode("timeout", StringNode(step.timeout)), AssignNode("depends_on", ListNode(StringNodes(step.dependsOn))),
     AssignNode("when", StringNode(step.when_)), AssignNode("name", StringNode(step.name))]
  }

  ghost function StepBlocks(step: StepDef): seq<Node> {
    (if step.retry.Some? then [RetryNode(step.retry.value)] else [])
    + (if step.compensation.Some? then [CompensationNode(step.compensation.value)] else [])
  }

  ghost function StepNode(step: StepDef): Node {
    BlockNode("step", step.id, StepAssigns(step) + (ConfigNodes(step.config) + StepBlocks(step)))
  }

  function ApprovalNode(approval: ApprovalDef): Node {
    BlockNode("approval", approval.id,
              [AssignNode("depends_on", ListNode(StringNodes(approval.dependsOn))),
               AssignNode("when", StringNode(approval.when_)),
               AssignNode("required_roles", ListNode(StringNodes(approval.requiredRoles))),
               AssignNode("message", StringNode(approval.message))])
  }

  function InputNodes(inputs: seq<InputDef>): seq<Node> {
    if inputs == [] then [] else [InputNode(inputs[0])] + InputNodes(inputs[1..])
  }

  ghost function StepNodes(steps: seq<StepDef>): seq<Node> {
    if steps == [] then [] else [StepNode(steps[0])] + StepNodes(steps[1..])
  }

  function ApprovalNodes(approvals: seq<ApprovalDef>): seq<Node> {
    if approvals == [] then [] else [ApprovalNode(approvals[0])] + ApprovalNodes(approvals[1..])
  }

  ghost function DefinitionTree(def: WorkflowDefinition): WorkflowNode {
    WorkflowNode(def.name,
                 HeadNodes(def)
                 + (InputNodes(def.inputs) + (StepNodes(def.steps) + ApprovalNodes(def.approvals))))
  }

  /** The HUML text of a definition. */
  ghost function PrintHuml(def: WorkflowDefinition): string {
    RenderAll(WorkflowTokens(DefinitionTree(def)))
  }

  lemma {:induction false} ValueNodeRoundTrip(v: Value)
    requires ExpressibleValue(v)
    ensures NodeToAny(ValueNode(v)) == v && PrintableValue(ValueNode(v))
    decreases v, 0
  {
    if v.ListValue? {
      ValueNodesRoundTrip(v.items);
    }
  }

  lemma {:induction false} ValueNodesRoundTrip(items: seq<Value>)
    requires ExpressibleItems(items)
    ensures ItemsToAny(ValueNodes(items)) == items && PrintableItems(ValueNodes(items))
    decreases items, 1
  {
    if items != [] {
      ValueNodeRoundTrip(items[0]);
      ValueNodesRoundTrip(items[1..]);
      Head(ValueNode(items[0]), ValueNodes(items[1..]));
      assert [items[0]] + items[1..] == items;
    }
  }

  lemma {:induction false} StringNodesRoundTrip(format: NodeFormat, ss: seq<string>)
    ensures ItemsToStrings(format, StringNodes(ss)) == ss && PrintableItems(StringNodes(ss))
  {
    if ss != [] {
      StringNodesRoundTrip(format, ss[1..]);
      Head(StringNode(ss[0]), StringNodes(ss[1..]));
      assert [ss[0]] + ss[1..] == ss;
    }
  }

  /** Reading decimals with wrap-around gives the number modulo 2^64. */
  lemma {:induction false} DecimalRoundTrip(n: nat)
    ensures DigitsToInt(0, Decimal(n)) == Wrap64(n)
    ensures forall i :: 0 <= i < |Decimal(n)| ==> IsDigit(Decimal(n)[i])
    ensures Decimal(n) != ""
  {
    var last := ('0' as int + n % 10) as char;
    var front := if n < 10 then "" else Decimal(n / 10);
    if n >= 10 {
      DecimalRoundTrip(n / 10);
    }
    DigitsSnoc(0, front, last);
    WrapDigit(n / 10, n % 10);
  }

  lemma {:induction false} DigitsSnoc(acc: int, s: string, c: char)
    ensures DigitsToInt(acc, s + [c]) == AddDigit(DigitsToInt(acc, s), c)
    decreases |s|
  {
    if s == "" {
      assert s + [c] == [c];
    } else {
      assert (s + [c])[1..] == s[1..] + [c];
      DigitsSnoc(AddDigit(acc, s[0]), s[1..], c);
    }
  }

  lemma {:induction false} WrapDigit(x: int, d: int)
    ensures Wrap64(Wrap64(x) * 10 + d) == Wrap64(x * 10 + d)
  {
    var m := 0x1_0000_0000_0000_0000;
    var k := (x - INT64_MIN) / m;
    assert Wrap64(x) == x - k * m;
    assert (Wrap64(x) * 10 + d - INT64_MIN) % m == (x * 10 + d - INT64_MIN) % m;
  }

  lemma {:induction false} PrintableAll(body: seq<Node>)
    requires forall i :: 0 <= i < |body| ==> PrintableStatement(body[i])
    ensures PrintableBody(body)
  {
    if body != [] {
      PrintableAll(body[1..]);
    }
  }

  lemma {:induction false} PrintableAppend(a: seq<Node>, b: seq<Node>)
    requires PrintableBody(a) && PrintableBody(b)
    ensures PrintableBody(a + b)
  {
    if a == [] {
      assert a + b == b;
    } else {
      PrintableAppend(a[1..], b);
      assert (a + b)[1..] == a[1..] + b;
    }
  }

  lemma {:induction false} KeyFromChars(key: string)
    requires key != "" && IsLetter(key[0]) && (forall i :: 0 <= i < |key| ==> IsIdentChar(key[i]))
    requires !IsLiteralWord(key) && !IsBlockKeyword(key)
    ensures IsKey(key)
  {
  }

  lemma {:induction false} StepKeysAreKeys(key: string)
    requires IsStepKey(key)
    ensures IsKey(key)
  {
    KeyFromChars(key);
  }

  predicate IsInputKey(key: string) {
    key == "type" || key == "required" || key == "default" || key == "description" || key == "enum"
  }

  predicate IsRetryKey(key: string) {
    key == "max_attempts" || key == "backoff" || key == "initial_wait" || key == "max_wait"
  }

  predicate IsOtherKey(key: string) {
    key == "version" || key == "required_roles" || key == "message"
  }

  lemma {:induction false} InputKeysAreKeys(key: string)
    requires IsInputKey(key) || IsOtherKey(key)
    ensures IsKey(key)
  {
    KeyFromChars(key);
  }

  lemma {:induction false} RetryKeysAreKeys(key: string)
    requires IsRetryKey(key)
    ensures IsKey(key)
  {
    KeyFromChars(key);
  }

  /** A body of assignments is printable when its keys and values are. */
  lemma {:induction false} PrintableAssigns(body: seq<Node>)
    requires forall i :: 0 <= i < |body| ==>
               body[i].AssignNode? && PrintableValue(body[i].value)
               && (IsStepKey(body[i].key) || IsInputKey(body[i].key) || IsRetryKey(body[i].key)
                   || IsOtherKey(body[i].key))
    ensures PrintableBody(body)
  {
    forall i | 0 <= i < |body|
      ensures PrintableStatement(body[i])
    {
      var key := body[i].key;
      if IsStepKey(key) {
        StepKeysAreKeys(key);
      } else if IsRetryKey(key) {
        RetryKeysAreKeys(key);
      } else {
        InputKeysAreKeys(key);
      }
    }
    PrintableAll(body);
  }

  lemma {:induction false} InputAssignSets(format: NodeFormat, input: InputDef, a: InputDef, i: nat)
    requires ExpressibleInput(input) && i < 5
    ensures |InputNode(input).body| == 5
    ensures SetInput(format)(a, InputNode(input).body[i])
         == if i == 0 then a.(kind := input.kind) else if i == 1 then a.(required := input.required)
            else if i == 2 then a.(default := input.default) else if i == 3 then a.(description := input.description)
            else a.(enum := input.enum)
  {
    ValueNodeRoundTrip(input.default);
    ValueNodesRoundTrip(input.enum);
  }

  lemma {:induction false} InputRoundTrip(format: NodeFormat, input: InputDef)
    requires ExpressibleInput(input)
    ensures FoldLeft(SetInput(format), EmptyInput(input.name), InputNode(input).body) == input
    ensures PrintableStatement(InputNode(input))
  {
    InputIsPrintable(input);
    hide FoldLeft;
    hide SetInput;
    hide InputNode;
    hide PrintableStatement;
    hide ExpressibleInput;
    var f := SetInput(format);
    var body := InputNode(input).body;
    var a0 := EmptyInput(input.name);
    InputAssignSets(format, input, a0, 0);
    FoldLeftStep(f, a0, body, 0);
    var a1 := a0.(kind := input.kind);
    InputAssignSets(format, input, a1, 1);
    FoldLeftStep(f, a1, body, 1);
    var a2 := a1.(required := input.required);
    InputAssignSets(format, input, a2, 2);
    FoldLeftStep(f, a2, body, 2);
    var a3 := a2.(default := input.default);
    InputAssignSets(format, input, a3, 3);
    FoldLeftStep(f, a3, body, 3);
    var a4 := a3.(description := input.description);
    InputAssignSets(format, input, a4, 4);
    FoldLeftStep(f, a4, body, 4);
    FoldLeftNothing(f, a4.(enum := input.enum));
    assert body[0..] == body && body[5..] == [];
  }

  lemma {:induction false} InputIsPrintable(input: InputDef)
    requires ExpressibleInput(input)
    ensures PrintableStatement(InputNode(input)) && InputNode(input).BlockNode?
  {
    var body := InputNode(input).body;
    forall i | 0 <= i < |body|
      ensures body[i].AssignNode? && PrintableValue(body[i].value) && IsInputKey(body[i].key)
    {
      InputAssignIsPlain(input, i);
    }
    hide PrintableValue;
    hide IsInputKey;
    hide IsStepKey;
    hide IsRetryKey;
    hide IsOtherKey;
    PrintableAssigns(body);
  }

  lemma {:induction false} InputAssignIsPlain(input: InputDef, i: nat)
    requires ExpressibleInput(input) && i < |InputNode(input).body|
    ensures var assign := InputNode(input).body[i];
            assign.AssignNode? && PrintableValue(assign.value) && IsInputKey(assign.key)
  {
    if i == 2 {
      ValueNodeRoundTrip(input.default);
    } else if i == 4 {
      ValueNodesRoundTrip(input.enum);
      hide ValueNodes;
    } else if i == 0 || i == 3 {
    } else {
      assert i == 1;
    }
  }

  lemma {:induction false} ApprovalAssignSets(format: NodeFormat, approval: ApprovalDef, a: ApprovalDef, i: nat)
    requires i < 4
    ensures |ApprovalNode(approval).body| == 4
    ensures SetApproval(format)(a, ApprovalNode(approval).body[i])
         == if i == 0 then a.(dependsOn := approval.dependsOn) else if i == 1 then a.(when_ := approval.when_)
            else if i == 2 then a.(requiredRoles := approval.requiredRoles) else a.(message := approval.message)
  {
    StringNodesRoundTrip(format, approval.dependsOn);
    StringNodesRoundTrip(format, approval.requiredRoles);
  }

  lemma {:induction false} ApprovalRoundTrip(format: NodeFormat, approval: ApprovalDef)
    ensures FoldLeft(SetApproval(format), EmptyApproval(approval.id), ApprovalNode(approval).body) == approval
    ensures PrintableStatement(ApprovalNode(approval))
  {
    ApprovalIsPrintable(approval);
    hide FoldLeft;
    hide SetApproval;
    hide ApprovalNode;
    hide PrintableStatement;
    var f := SetApproval(format);
    var body := ApprovalNode(approval).body;
    var a0 := EmptyApproval(approval.id);
    ApprovalAssignSets(format, approval, a0, 0);
    FoldLeftStep(f, a0, body, 0);
    var a1 := f(a0, body[0]);
    ApprovalAssignSets(format, approval, a1, 1);
    FoldLeftStep(f, a1, body, 1);
    var a2 := f(a1, body[1]);
    ApprovalAssignSets(format, approval, a2, 2);
    FoldLeftStep(f, a2, body, 2);
    var a3 := f(a2, body[2]);
    ApprovalAssignSets(format, approval, a3, 3);
    FoldLeftStep(f, a3, body, 3);
    FoldLeftNothing(f, f(a3, body[3]));
    assert body[0..] == body && body[4..] == [];
  }

  lemma {:induction false} ApprovalIsPrintable(approval: ApprovalDef)
    ensures PrintableStatement(ApprovalNode(approval)) && ApprovalNode(approval).BlockNode?
  {
    StringNodesRoundTrip(_ => "", approval.dependsOn);
    StringNodesRoundTrip(_ => "", approval.requiredRoles);
    PrintableAssigns(ApprovalNode(approval).body);
  }

  lemma {:induction false} RetryRoundTrip(format: NodeFormat, retry: RetryPolicy)
    requires IsInt64(retry.maxAttempts)
    ensures FoldLeft(SetRetry(format), EmptyRetry(), RetryNode(retry).body) == retry
  {
    var f := SetRetry(format);
    var body := RetryNode(retry).body;
    AttemptsRoundTrip(retry.maxAttempts);
    var a0 := EmptyRetry();
    FoldLeftStep(f, a0, body, 0);
    var a1 := f(a0, body[0]);
    FoldLeftStep(f, a1, body, 1);
    var a2 := f(a1, body[1]);
    FoldLeftStep(f, a2, body, 2);
    var a3 := f(a2, body[2]);
    FoldLeftStep(f, a3, body, 3);
    assert body[0..] == body && body[4..] == [];
  }

  lemma WrapsBack(attempts: int)
    requires IsInt64(attempts)
    ensures Wrap64(if attempts < 0 then attempts + 0x1_0000_0000_0000_0000 else attempts) == attempts
  {
  }

  lemma {:induction false} AttemptsRoundTrip(attempts: int)
    requires IsInt64(attempts)
    ensures NodeToInt(NumberNode(AttemptsText(attempts))) == attempts
            && PrintableValue(NumberNode(AttemptsText(attempts)))
  {
    var n := if attempts < 0 then attempts + 0x1_0000_0000_0000_0000 else attempts;
    WrapsBack(attempts);
    hide Decimal;
    hide DigitsToInt;
    hide Renderable;
    hide Wrap64;
    DecimalRoundTrip(n);
    DigitsAreANumber(Decimal(n));
  }

  lemma {:induction false} RetryPrintable(retry: RetryPolicy)
    requires IsInt64(retry.maxAttempts)
    ensures PrintableStatement(RetryNode(retry))
  {
    AttemptsRoundTrip(retry.maxAttempts);
    PrintableAssigns(RetryNode(retry).body);
  }

  lemma {:induction false} DigitsAreANumber(s: string)
    requires s != "" && forall i :: 0 <= i < |s| ==> IsDigit(s[i])
    ensures Renderable(Token(NUMBER, s))
  {
    AllDigitsLength(s, false);
  }

  lemma {:induction false} AllDigitsLength(s: string, hasDecimal: bool)
    requires forall i :: 0 <= i < |s| ==> IsDigit(s[i])
    ensures DigitsLength(s, hasDecimal) == |s|
    decreases |s|
  {
    if s != "" {
      AllDigitsLength(s[1..], hasDecimal);
    }
  }

  lemma FirstPrinted(config: map<string, Value>) returns (k: string)
    requires config != map[]
    ensures k in config && ConfigNodes(config) == [AssignNode(k, ValueNode(config[k]))] + ConfigNodes(config - {k})
  {
    k :| k in config && ConfigNodes(config) == [AssignNode(k, ValueNode(config[k]))] + ConfigNodes(config - {k});
  }

  ghost predicate Stores<A>(f: (A, Node) -> A, put: map<string, Value> -> A, k: string, v: Value) {
    forall m :: f(put(m), AssignNode(k, ValueNode(v))) == put(m[k := v])
  }

  /** Loops that store each assignment into a map collect the whole map, in whatever order it is printed. */
  lemma {:induction false} ConfigFold<A>(
      f: (A, Node) -> A, put: map<string, Value> -> A, done: map<string, Value>, config: map<string, Value>)
    requires forall k :: k in config ==> Stores(f, put, k, config[k])
    ensures FoldLeft(f, put(done), ConfigNodes(config)) == put(done + config)
    decreases |config|
  {
    hide Stores;
    hide FoldLeft;
    hide ConfigNodes;
    hide ValueNode;
    if config == map[] {
      assert done + config == done;
      NothingPrinted();
      FoldLeftNothing(f, put(done));
    } else {
      var k := FirstPrinted(config);
      var rest := config - {k};
      StoresAt(f, put, k, config[k], done);
      FoldLeftCons(f, put(done), AssignNode(k, ValueNode(config[k])), ConfigNodes(rest));
      ConfigFold(f, put, done[k := config[k]], rest);
      MoveEntry(done, config, k);
    }
  }

  lemma StoresAt<A>(f: (A, Node) -> A, put: map<string, Value> -> A, k: string, v: Value, m: map<string, Value>)
    requires Stores(f, put, k, v)
    ensures f(put(m), AssignNode(k, ValueNode(v))) == put(m[k := v])
  {
  }

  lemma NothingPrinted()
    ensures ConfigNodes(map[]) == []
  {
  }

  lemma MoveEntry(done: map<string, Value>, config: map<string, Value>, k: string)
    requires k in config
    ensures done[k := config[k]] + (config - {k}) == done + config
  {
  }

  lemma {:induction false} PrintableConfig(config: map<string, Value>)
    requires forall k :: k in config ==> PrintableStatement(AssignNode(k, ValueNode(config[k])))
    ensures PrintableBody(ConfigNodes(config))
    decreases |config|
  {
    if config != map[] {
      var k :| k in config && ConfigNodes(config) == [AssignNode(k, ValueNode(config[k]))] + ConfigNodes(config - {k});
      Head(AssignNode(k, ValueNode(config[k])), ConfigNodes(config - {k}));
      PrintableConfig(config - {k});
    }
  }

  function WithCompensationConfig(comp: CompensationDef): map<string, Value> -> CompensationDef {
    m => comp.(config := m)
  }

  function WithStepConfig(step: StepDef): map<string, Value> -> StepDef {
    m => step.(config := m)
  }

  lemma CompensationStores(format: NodeFormat, comp: CompensationDef, k: string, v: Value)
    requires IsKey(k) && !IsCompensationKey(k) && ExpressibleValue(v)
    ensures Stores(SetCompensation(format), WithCompensationConfig(comp), k, v)
    ensures PrintableStatement(AssignNode(k, ValueNode(v)))
  {
    ValueNodeRoundTrip(v);
    hide ValueNode;
    hide NodeToAny;
    hide ExpressibleValue;
  }

  lemma StepStores(format: NodeFormat, step: StepDef, k: string, v: Value)
    requires IsKey(k) && !IsStepKey(k) && ExpressibleValue(v)
    ensures Stores(SetStep(format), WithStepConfig(step), k, v)
    ensures PrintableStatement(AssignNode(k, ValueNode(v)))
  {
    ValueNodeRoundTrip(v);
    hide ValueNode;
    hide NodeToAny;
    hide ExpressibleValue;
    hide FoldLeft;
  }

  lemma {:induction false} CompensationConfig(format: NodeFormat, comp: CompensationDef, config: map<string, Value>)
    requires comp.config == map[] && ExpressibleConfig(config, IsCompensationKey)
    ensures FoldLeft(SetCompensation(format), comp, ConfigNodes(config)) == comp.(config := config)
    ensures PrintableBody(ConfigNodes(config))
  {
    hide Stores;
    hide FoldLeft;
    hide SetCompensation;
    hide ConfigNodes;
    hide ValueNode;
    hide ExpressibleValue;
    hide PrintableStatement;
    hide IsKey;
    hide IsCompensationKey;
    var put := WithCompensationConfig(comp);
    forall k | k in config
      ensures Stores(SetCompensation(format), put, k, config[k])
              && PrintableStatement(AssignNode(k, ValueNode(config[k])))
    {
      CompensationStores(format, comp, k, config[k]);
    }
    ConfigFold(SetCompensation(format), put, map[], config);
    PrintableConfig(config);
    assert map[] + config == config;
  }

  lemma {:induction false} CompensationRoundTrip(format: NodeFormat, comp: CompensationDef)
    requires ExpressibleConfig(comp.config, IsCompensationKey)
    ensures FoldLeft(SetCompensation(format), EmptyCompensation(), CompensationNode(comp).body) == comp
    ensures PrintableStatement(CompensationNode(comp))
  {
    var f := SetCompensation(format);
    var body := [AssignNode("runner", StringNode(comp.runner)), AssignNode("command", StringNode(comp.command))];
    var a0 := EmptyCompensation();
    FoldLeftStep(f, a0, body, 0);
    var a1 := f(a0, body[0]);
    FoldLeftStep(f, a1, body, 1);
    assert body[0..] == body && body[2..] == [];
    FoldLeftAppend(f, a0, body, ConfigNodes(comp.config));
    CompensationConfig(format, f(a1, body[1]), comp.config);
    PrintableAssigns(body);
    PrintableAppend(body, ConfigNodes(comp.config));
  }

  lemma {:induction false} StepConfig(format: NodeFormat, step: StepDef, config: map<string, Value>)
    requires step.config == map[] && ExpressibleConfig(config, IsStepKey)
    ensures FoldLeft(SetStep(format), step, ConfigNodes(config)) == step.(config := config)
    ensures PrintableBody(ConfigNodes(config))
  {
    hide Stores;
    hide FoldLeft;
    hide SetStep;
    hide ConfigNodes;
    hide ValueNode;
    hide ExpressibleValue;
    hide PrintableStatement;
    hide IsKey;
    hide IsStepKey;
    var put := WithStepConfig(step);
    forall k | k in config
      ensures Stores(SetStep(format), put, k, config[k]) && PrintableStatement(AssignNode(k, ValueNode(config[k])))
    {
      StepStores(format, step, k, config[k]);
    }
    ConfigFold(SetStep(format), put, map[], config);
    PrintableConfig(config);
    assert map[] + config == config;
  }

  lemma {:induction false} StepSetsFirst(format: NodeFormat, step: StepDef, a: StepDef, i: nat)
    requires i < 4
    ensures SetStep(format)(a, StepAssigns(step)[i])
         == if i == 0 then a.(runner := step.runner) else if i == 1 then a.(image := step.image)
            else if i == 2 then a.(command := step.command) else a.(host := step.host)
  {
    hide FoldLeft;
    hide NodeToAny;
    hide NodeToStringSlice;
    hide StringNodes;
  }

  lemma {:induction false} StepSetsLast(format: NodeFormat, step: StepDef, a: StepDef, i: nat)
    requires 4 <= i < 8 && i != 5
    ensures SetStep(format)(a, StepAssigns(step)[i])
         == if i == 4 then a.(timeout := step.timeout) else if i == 6 then a.(when_ := step.when_)
             else a.(name := step.name)
  {
    hide FoldLeft;
    hide NodeToAny;
    hide NodeToStringSlice;
    hide StringNodes;
  }

  lemma {:induction false} StepSetsDependencies(format: NodeFormat, step: StepDef, a: StepDef)
    ensures SetStep(format)(a, StepAssigns(step)[5]) == a.(dependsOn := step.dependsOn)
  {
    hide FoldLeft;
    hide NodeToAny;
    hide NodeToString;
    StringNodesRoundTrip(format, step.dependsOn);
    hide StringNodes;
    hide ItemsToStrings;
  }

  /** What the assignment at place i sets. */
  lemma {:induction false} StepAssignSets(format: NodeFormat, step: StepDef, a: StepDef, i: nat)
    requires i < 8
    ensures |StepAssigns(step)| == 8
    ensures SetStep(format)(a, StepAssigns(step)[i])
         == if i == 0 then a.(runner := step.runner) else if i == 1 then a.(image := step.image)
            else if i == 2 then a.(command := step.command) else if i == 3 then a.(host := step.host)
            else if i == 4 then a.(timeout := step.timeout) else if i == 5 then a.(dependsOn := step.dependsOn)
            else if i == 6 then a.(when_ := step.when_) else a.(name := step.name)
  {
    assert |StepAssigns(step)| == 8;
    hide SetStep;
    hide StepAssigns;
    if i < 4 {
      StepSetsFirst(format, step, a, i);
    } else if i == 5 {
      StepSetsDependencies(format, step, a);
    } else {
      StepSetsLast(format, step, a, i);
    }
  }

  lemma {:induction false} StepAssignsRoundTrip(format: NodeFormat, step: StepDef)
    ensures FoldLeft(SetStep(format), EmptyStep(step.id), StepAssigns(step))
         == step.(config := map[], retry := None, compensation := None, env := map[])
  {
    hide FoldLeft;
    hide SetStep;
    hide StepAssigns;
    var f := SetStep(format);
    var body := StepAssigns(step);
    var a0 := EmptyStep(step.id);
    StepAssignSets(format, step, a0, 0);
    FoldLeftStep(f, a0, body, 0);
    var a1 := a0.(runner := step.runner);
    StepAssignSets(format, step, a1, 1);
    FoldLeftStep(f, a1, body, 1);
    var a2 := a1.(image := step.image);
    StepAssignSets(format, step, a2, 2);
    FoldLeftStep(f, a2, body, 2);
    var a3 := a2.(command := step.command);
    StepAssignSets(format, step, a3, 3);
    FoldLeftStep(f, a3, body, 3);
    var a4 := a3.(host := step.host);
    StepAssignSets(format, step, a4, 4);
    FoldLeftStep(f, a4, body, 4);
    var a5 := a4.(timeout := step.timeout);
    StepAssignSets(format, step, a5, 5);
    FoldLeftStep(f, a5, body, 5);
    var a6 := a5.(dependsOn := step.dependsOn);
    StepAssignSets(format, step, a6, 6);
    FoldLeftStep(f, a6, body, 6);
    var a7 := a6.(when_ := step.when_);
    StepAssignSets(format, step, a7, 7);
    FoldLeftStep(f, a7, body, 7);
    FoldLeftNothing(f, a7.(name := step.name));
    assert body[0..] == body && body[8..] == [];
  }

  lemma {:induction false} StepAssignIs(step: StepDef)
    ensures |StepAssigns(step)| == 8
    ensures StepAssigns(step)[0] == AssignNode("runner", StringNode(step.runner))
    ensures StepAssigns(step)[1] == AssignNode("image", StringNode(step.image))
    ensures StepAssigns(step)[2] == AssignNode("command", StringNode(step.command))
    ensures StepAssigns(step)[3] == AssignNode("host", StringNode(step.host))
    ensures StepAssigns(step)[4] == AssignNode("timeout", StringNode(step.timeout))
    ensures StepAssigns(step)[5] == AssignNode("depends_on", ListNode(StringNodes(step.dependsOn)))
    ensures StepAssigns(step)[6] == AssignNode("when", StringNode(step.when_))
    ensures StepAssigns(step)[7] == AssignNode("name", StringNode(step.name))
  {
    hide StringNodes;
  }

  lemma StringAssignIsPrintable(key: string, text: string)
    requires IsStepKey(key)
    ensures PrintableStatement(AssignNode(key, StringNode(text)))
  {
    StepKeysAreKeys(key);
  }

  lemma ListAssignIsPrintable(key: string, texts: seq<string>)
    requires IsStepKey(key)
    ensures PrintableStatement(AssignNode(key, ListNode(StringNodes(texts))))
  {
    StepKeysAreKeys(key);
    StringNodesRoundTrip(_ => "", texts);
  }

  lemma StepKeyNames()
    ensures IsStepKey("runner") && IsStepKey("image") && IsStepKey("command") && IsStepKey("host")
    ensures IsStepKey("timeout") && IsStepKey("depends_on") && IsStepKey("when") && IsStepKey("name")
  {
  }

  lemma PrintableFrom(body: seq<Node>, k: nat)
    requires k < |body| && PrintableStatement(body[k]) && PrintableBody(body[k + 1..])
    ensures PrintableBody(body[k..])
  {
    hide PrintableStatement;
    assert body[k..][0] == body[k] && body[k..][1..] == body[k + 1..];
  }

  lemma {:induction false} StepAssignsPrintable(step: StepDef)
    ensures PrintableBody(StepAssigns(step))
  {
    var body := StepAssigns(step);
    StepAssignIs(step);
    StepKeyNames();
    hide IsStepKey;
    hide StepAssigns;
    hide PrintableStatement;
    assert body[8..] == [] && body[0..] == body;
    StringAssignIsPrintable("name", step.name);
    PrintableFrom(body, 7);
    hide PrintableBody;
    StringAssignIsPrintable("when", step.when_);
    PrintableFrom(body, 6);
    ListAssignIsPrintable("depends_on", step.dependsOn);
    PrintableFrom(body, 5);
    StringAssignIsPrintable("timeout", step.timeout);
    PrintableFrom(body, 4);
    StringAssignIsPrintable("host", step.host);
    PrintableFrom(body, 3);
    StringAssignIsPrintable("command", step.command);
    PrintableFrom(body, 2);
    StringAssignIsPrintable("image", step.image);
    PrintableFrom(body, 1);
    StringAssignIsPrintable("runner", step.runner);
    PrintableFrom(body, 0);
  }

  lemma {:induction false} StepBlocksRoundTrip(format: NodeFormat, step: StepDef)
    requires ExpressibleStep(step)
    ensures FoldLeft(SetStep(format), step.(retry := None, compensation := None), StepBlocks(step)) == step
    ensures PrintableBody(StepBlocks(step))
  {
    var bare := step.(retry := None, compensation := None);
    var retry := if step.retry.Some? then [RetryNode(step.retry.value)] else [];
    var comp := if step.compensation.Some? then [CompensationNode(step.compensation.value)] else [];
    if step.retry.Some? {
      RetryRoundTrip(format, step.retry.value);
      RetryPrintable(step.retry.value);
    }
    if step.compensation.Some? {
      CompensationRoundTrip(format, step.compensation.value);
    }
    FoldLeftAppend(SetStep(format), bare, retry, comp);
    PrintableAppend(retry, comp);
  }

  lemma {:induction false} StepRoundTrip(format: NodeFormat, step: StepDef)
    requires ExpressibleStep(step)
    ensures FoldLeft(SetStep(format), EmptyStep(step.id), StepNode(step).body) == step
    ensures PrintableStatement(StepNode(step))
  {
    var f := SetStep(format);
    var plain := step.(config := map[], retry := None, compensation := None);
    StepAssignsRoundTrip(format, step);
    StepAssignsPrintable(step);
    StepConfig(format, plain, step.config);
    StepBlocksRoundTrip(format, step);
    FoldLeftAppend(f, EmptyStep(step.id), StepAssigns(step), ConfigNodes(step.config) + StepBlocks(step));
    FoldLeftAppend(f, plain, ConfigNodes(step.config), StepBlocks(step));
    PrintableAppend(ConfigNodes(step.config), StepBlocks(step));
    PrintableAppend(StepAssigns(step), ConfigNodes(step.config) + StepBlocks(step));
  }

  lemma {:induction false} InputsRoundTrip(format: NodeFormat, def: WorkflowDefinition, inputs: seq<InputDef>)
    requires forall input :: input in inputs ==> ExpressibleInput(input)
    ensures FoldLeft(SetDefinition(format), def, InputNodes(inputs)) == def.(inputs := def.inputs + inputs)
    ensures PrintableBody(InputNodes(inputs))
    decreases |inputs|
  {
    if inputs == [] {
      assert def.inputs + inputs == def.inputs;
    } else {
      InputRoundTrip(format, inputs[0]);
      Head(InputNode(inputs[0]), InputNodes(inputs[1..]));
      InputsRoundTrip(format, def.(inputs := def.inputs + [inputs[0]]), inputs[1..]);
      SnocCons(def.inputs, inputs);
    }
  }

  lemma {:induction false} StepsRoundTrip(format: NodeFormat, def: WorkflowDefinition, steps: seq<StepDef>)
    requires forall step :: step in steps ==> ExpressibleStep(step)
    ensures FoldLeft(SetDefinition(format), def, StepNodes(steps)) == def.(steps := def.steps + steps)
    ensures PrintableBody(StepNodes(steps))
    decreases |steps|
  {
    if steps == [] {
      assert def.steps + steps == def.steps;
    } else {
      StepRoundTrip(format, steps[0]);
      Head(StepNode(steps[0]), StepNodes(steps[1..]));
      StepsRoundTrip(format, def.(steps := def.steps + [steps[0]]), steps[1..]);
      SnocCons(def.steps, steps);
    }
  }

  lemma {:induction false} ApprovalsRoundTrip(
      format: NodeFormat, def: WorkflowDefinition, approvals: seq<ApprovalDef>)
    ensures FoldLeft(SetDefinition(format), def, ApprovalNodes(approvals))
            == def.(approvals := def.approvals + approvals)
    ensures PrintableBody(ApprovalNodes(approvals))
    decreases |approvals|
  {
    if approvals == [] {
      assert def.approvals + approvals == def.approvals;
    } else {
      ApprovalRoundTrip(format, approvals[0]);
      Head(ApprovalNode(approvals[0]), ApprovalNodes(approvals[1..]));
      ApprovalsRoundTrip(format, def.(approvals := def.approvals + [approvals[0]]), approvals[1..]);
      SnocCons(def.approvals, approvals);
    }
  }

  function HeadNodes(def: WorkflowDefinition): seq<Node> {
    [AssignNode("version", StringNode(def.version)), AssignNode("description", StringNode(def.description))]
  }

  lemma {:induction false} HeadRoundTrip(format: NodeFormat, def: WorkflowDefinition)
    ensures FoldLeft(SetDefinition(format), EmptyDefinition(def.name), HeadNodes(def))
         == def.(inputs := [], steps := [], approvals := [])
    ensures PrintableBody(HeadNodes(def))
  {
    var f := SetDefinition(format);
    var body := HeadNodes(def);
    var a0 := EmptyDefinition(def.name);
    FoldLeftStep(f, a0, body, 0);
    var a1 := a0.(version := def.version);
    assert NodeToString(format, StringNode(def.version)) == def.version;
    FoldLeftStep(f, a1, body, 1);
    assert NodeToString(format, StringNode(def.description)) == def.description;
    assert body[0..] == body && body[2..] == [];
    PrintableAssigns(body);
  }

  lemma {:induction false} TreeRoundTrip(format: NodeFormat, def: WorkflowDefinition)
    requires Expressible(def)
    ensures ConvertWorkflow(format, DefinitionTree(def)) == def
    ensures PrintableBody(DefinitionTree(def).body)
  {
    var f := SetDefinition(format);
    var ins, steps, apps := InputNodes(def.inputs), StepNodes(def.steps), ApprovalNodes(def.approvals);
    var a0 := def.(inputs := [], steps := [], approvals := []);
    HeadRoundTrip(format, def);
    FoldLeftAppend(f, EmptyDefinition(def.name), HeadNodes(def), ins + (steps + apps));
    InputsRoundTrip(format, a0, def.inputs);
    assert [] + def.inputs == def.inputs && [] + def.steps == def.steps && [] + def.approvals == def.approvals;
    var a1 := a0.(inputs := def.inputs);
    FoldLeftAppend(f, a0, ins, steps + apps);
    StepsRoundTrip(format, a1, def.steps);
    var a2 := a1.(steps := def.steps);
    FoldLeftAppend(f, a1, steps, apps);
    ApprovalsRoundTrip(format, a2, def.approvals);
    PrintableAppend(steps, apps);
    PrintableAppend(ins, steps + apps);
    PrintableAppend(HeadNodes(def), ins + (steps + apps));
  }

  /** ParseHUML reads every expressible definition back from its printed text. */
  lemma {:induction false} HumlReadsItsPrint(format: NodeFormat, def: WorkflowDefinition)
    requires Expressible(def)
    ensures ParseHuml(format, PrintHuml(def)) == Ok(def)
  {
    TreeRoundTrip(format, def);
    WorkflowStream(DefinitionTree(def));
    LexRoundTrip(WorkflowTokens(DefinitionTree(def)));
    WorkflowRoundTrip(DefinitionTree(def));
  }

  /** A property that every step of a loop keeps holds at its end. */
  lemma {:induction false} FoldInvariant<A(!new)>(inv: A -> bool, f: (A, Node) -> A, acc: A, body: seq<Node>)
    requires inv(acc)
    requires forall a, n :: n in body && inv(a) ==> inv(f(a, n))
    ensures inv(FoldLeft(f, acc, body))
    decreases |body|
  {
    if body != [] {
      FoldInvariant(inv, f, f(acc, body[0]), body[1..]);
    }
  }

  lemma {:induction false} AnyIsExpressible(n: Node)
    ensures ExpressibleValue(NodeToAny(n))
    decreases n, 0
  {
    if n.ListNode? {
      ItemsAreExpressible(n.items);
    }
  }

  lemma {:induction false} ItemsAreExpressible(items: seq<Node>)
    ensures ExpressibleItems(ItemsToAny(items))
    decreases items, 1
  {
    if items != [] {
      AnyIsExpressible(items[0]);
      ItemsAreExpressible(items[1..]);
      Head(NodeToAny(items[0]), ItemsToAny(items[1..]));
    }
  }

  lemma {:induction false} StatementIsPrintable(body: seq<Node>, n: Node)
    requires PrintableBody(body) && n in body
    ensures PrintableStatement(n)
  {
    if n != body[0] {
      StatementIsPrintable(body[1..], n);
    }
  }

  lemma {:induction false} InputIsExpressible(format: NodeFormat, name: string, body: seq<Node>)
    ensures ExpressibleInput(FoldLeft(SetInput(format), EmptyInput(name), body))
  {
    var f := SetInput(format);
    forall input, n | n in body && ExpressibleInput(input)
      ensures ExpressibleInput(f(input, n))
    {
      if n.AssignNode? {
        AnyIsExpressible(n.value);
        if n.value.ListNode? {
          ItemsAreExpressible(n.value.items);
        }
        assert ExpressibleItems(NodeToSlice(n.value));
      }
    }
    FoldInvariant(ExpressibleInput, f, EmptyInput(name), body);
  }

  lemma {:induction false} AttemptsFit(acc: int, s: string)
    requires IsInt64(acc)
    ensures IsInt64(DigitsToInt(acc, s))
    decreases |s|
  {
    if s != "" {
      AttemptsFit(AddDigit(acc, s[0]), s[1..]);
    }
  }

  lemma {:induction false} RetryIsExpressible(format: NodeFormat, body: seq<Node>)
    ensures IsInt64(FoldLeft(SetRetry(format), EmptyRetry(), body).maxAttempts)
  {
    var f := SetRetry(format);
    var inv := (r: RetryPolicy) => IsInt64(r.maxAttempts);
    forall r: RetryPolicy, n | n in body && inv(r)
      ensures inv(f(r, n))
    {
      if n.AssignNode? && n.value.NumberNode? {
        AttemptsFit(0, n.value.digits);
      }
      assert n.AssignNode? ==> IsInt64(NodeToInt(n.value));
    }
    FoldInvariant(inv, f, EmptyRetry(), body);
  }

  lemma {:induction false} CompensationIsExpressible(format: NodeFormat, body: seq<Node>)
    requires PrintableBody(body)
    ensures ExpressibleConfig(FoldLeft(SetCompensation(format), EmptyCompensation(), body).config, IsCompensationKey)
  {
    var f := SetCompensation(format);
    ghost var inv := (c: CompensationDef) => ExpressibleConfig(c.config, IsCompensationKey);
    forall c: CompensationDef, n | n in body && inv(c)
      ensures inv(f(c, n))
    {
      StatementIsPrintable(body, n);
      if n.AssignNode? {
        AnyIsExpressible(n.value);
      }
    }
    FoldInvariant(inv, f, EmptyCompensation(), body);
  }

  lemma {:induction false} StepIsExpressible(format: NodeFormat, id: string, body: seq<Node>)
    requires PrintableBody(body)
    ensures ExpressibleStep(FoldLeft(SetStep(format), EmptyStep(id), body))
  {
    var f := SetStep(format);
    ghost var inv := (step: StepDef) => ExpressibleStep(step);
    forall step, n | n in body && inv(step)
      ensures inv(f(step, n))
    {
      StatementIsPrintable(body, n);
      if n.AssignNode? {
        StepKeyIsExpressible(format, step, n.key, n.value);
      } else if n.BlockNode? {
        RetryIsExpressible(format, n.body);
        CompensationIsExpressible(format, n.body);
      }
    }
    FoldInvariant(inv, f, EmptyStep(id), body);
  }

  lemma {:induction false} StepKeyIsExpressible(format: NodeFormat, step: StepDef, key: string, value: Node)
    requires ExpressibleStep(step) && IsKey(key)
    ensures ExpressibleStep(SetStepKey(format, step, key, value))
  {
    AnyIsExpressible(value);
    hide NodeToAny;
    hide ExpressibleValue;
    hide ExpressibleConfig;
    if !IsStepKey(key) {
      MoreConfig(step.config, key, NodeToAny(value));
    }
  }

  lemma MoreConfig(config: map<string, Value>, key: string, v: Value)
    requires ExpressibleConfig(config, IsStepKey) && IsKey(key) && !IsStepKey(key) && ExpressibleValue(v)
    ensures ExpressibleConfig(config[key := v], IsStepKey)
  {
  }

  lemma {:induction false} BlockIsExpressible(format: NodeFormat, def: WorkflowDefinition, n: Node)
    requires Expressible(def) && PrintableStatement(n) && n.BlockNode?
    ensures Expressible(AddBlock(format, def, n.kind, n.name, n.body))
  {
    InputIsExpressible(format, n.name, n.body);
    StepIsExpressible(format, n.name, n.body);
  }

  /** The definitions the round trip covers are exactly the ones some HUML text denotes. */
  lemma {:induction false} ParsedIsExpressible(format: NodeFormat, source: string)
    requires ParseHuml(format, source).Ok?
    ensures Expressible(ParseHuml(format, source).value)
  {
    var tokens := Lex(source).value;
    LexedIsStream(source);
    ParsedWorkflowIsPrintable(tokens);
    var tree := ParseWorkflow(tokens).value;
    var f := SetDefinition(format);
    ghost var inv := (def: WorkflowDefinition) => Expressible(def);
    forall def, n | n in tree.body && inv(def)
      ensures inv(f(def, n))
    {
      StatementIsPrintable(tree.body, n);
      if n.BlockNode? {
        BlockIsExpressible(format, def, n);
      }
    }
    FoldInvariant(inv, f, EmptyDefinition(tree.name), tree.body);
  }

  lemma {:induction false} HumlExpressesExactly(format: NodeFormat, def: WorkflowDefinition)
    ensures Expressible(def) <==> exists source :: ParseHuml(format, source) == Ok(def)
  {
    if Expressible(def) {
      HumlReadsItsPrint(format, def);
    }
    forall source | ParseHuml(format, source) == Ok(def)
      ensures Expressible(def)
    {
      ParsedIsExpressible(format, source);
    }
  }
}
