/** Workflow definitions and the dynamic values they carry. */
module Model {
  import opened Prelude

  /** Go's any, as far as definitions and expressions produce it. */
  datatype Value =
    | NullValue
    | BoolValue(b: bool)
    | StringValue(s: string)
    | IntValue(i: int)
    | FloatValue(r: real)
    | ListValue(items: seq<Value>)
    | MapValue(fields: map<string, Value>)
    | StepsValue(steps: map<string, map<string, Value>>)
    | EnvValue(env: map<string, string>)

  datatype InputDef = InputDef(
    name: string, kind: string, required: bool, default: Value, description: string, enum: seq<Value>)

  datatype RetryPolicy = RetryPolicy(maxAttempts: int, backoff: string, initialWait: string, maxWait: string)

  datatype CompensationDef = CompensationDef(runner: string, config: map<string, Value>, command: string)

  datatype StepDef = StepDef(
    id: string, name: string, runner: string, dependsOn: seq<string>, when_: string, config: map<string, Value>,
    command: string, image: string, host: string, timeout: string,
    retry: Option<RetryPolicy>, compensation: Option<CompensationDef>, env: map<string, string>)

  datatype ApprovalDef = ApprovalDef(
    id: string, dependsOn: seq<string>, when_: string, requiredRoles: seq<string>, message: string)

  datatype WorkflowDefinition = WorkflowDefinition(
    name: string, version: string, description: string,
    inputs: seq<InputDef>, steps: seq<StepDef>, approvals: seq<ApprovalDef>)

  const INT64_MIN := -0x8000_0000_0000_0000
  const INT64_MAX := 0x7fff_ffff_ffff_ffff

  predicate IsInt64(x: int) {
    INT64_MIN <= x <= INT64_MAX
  }

  type Int64 = x: int | IsInt64(x)

  /** Two's complement wrap-around of a 64-bit integer. */
  function Wrap64(x: int): (r: Int64)
    ensures (r - x) % 0x1_0000_0000_0000_0000 == 0
    ensures IsInt64(x) ==> r == x
  {
    (x - INT64_MIN) % 0x1_0000_0000_0000_0000 + INT64_MIN
  }
}
