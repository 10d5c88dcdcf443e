/** The expression evaluator of internal/huml/evaluator.go. */
module Evaluator {
  import opened Prelude
  import opened HumlAst
  import opened Model

  datatype EvalContext = EvalContext(
    inputs: map<string, Value>, steps: map<string, map<string, Value>>,
    secrets: map<string, string>, env: map<string, string>)

  /** What is taken from Go's library as it is: number formats, number scanning and case mapping. */
  datatype Library = Library(
    format: Value -> string, scan: string -> real, number: string -> real, truncate: real -> int,
    upper: string -> string, lower: string -> string)

  /** fmt.Sprintf with the verb v. */
  function Format(lib: Library, v: Value): string {
    match v
    case NullValue => "<nil>"
    case BoolValue(b) => if b then "true" else "false"
    case StringValue(s) => s
    case _ => lib.format(v)
  }

  function LiteralValue(lib: Library, l: Literal): Value {
    match l
    case NullLit => NullValue
    case BoolLit(b) => BoolValue(b)
    case StringLit(s) => StringValue(s)
    case NumberLit(text) => FloatValue(lib.number(text))
  }

  function ToBool(v: Value): bool {
    match v
    case BoolValue(b) => b
    case NullValue => false
    case StringValue(s) => s != ""
    case FloatValue(r) => r != 0.0
    case IntValue(i) => i != 0
    case _ => true
  }

  function ToFloat(lib: Library, v: Value): real {
    match v
    case FloatValue(r) => r
    case IntValue(i) => i as real
    case StringValue(s) => lib.scan(s)
    case BoolValue(b) => if b then 1.0 else 0.0
    case _ => 0.0
  }

  predicate IsNumeric(v: Value) {
    v.FloatValue? || v.IntValue?
  }

  /** The number of bytes of a string in UTF-8. */
  function Utf8Length(s: string): nat {
    if s == "" then 0
    else
      (if s[0] as int < 0x80 then 1 else if s[0] as int < 0x800 then 2 else if s[0] as int < 0x1_0000 then 3 else 4)
      + Utf8Length(s[1..])
  }

  function Length(v: Value): Result<Value> {
    match v
    case StringValue(s) => Ok(IntValue(Utf8Length(s)))
    case ListValue(items) => Ok(IntValue(|items|))
    case MapValue(fields) => Ok(IntValue(|fields|))
    case _ => Err
  }

  predicate Contains(s: string, part: string) {
    part <= s || (s != "" && Contains(s[1..], part))
  }

  /** Go's remainder, which takes the sign of the dividend. */
  function Remainder(a: int, b: int): int
    requires b != 0
  {
    var m := if b < 0 then -b else b;
    if a < 0 then -((-a) % m) else a % m
  }

  function Evaluate(lib: Library, e: Expr, ctx: EvalContext): Result<Value>
    decreases e, 0
  {
    match e
    case Lit(value) => Ok(LiteralValue(lib, value))
    case Ref(path) => ResolveRef(path, ctx)
    case Binary(op, left, right) =>
      var l :- Evaluate(lib, left, ctx);
      var r :- Evaluate(lib, right, ctx);
      ApplyBinary(lib, op, l, r)
    case Unary(op, operand) =>
      var v :- Evaluate(lib, operand, ctx);
      if op == "!" then Ok(BoolValue(!ToBool(v)))
      else if op == "-" then Ok(FloatValue(-ToFloat(lib, v)))
      else Err
    case Cond(cond, thn, els) =>
      var c :- Evaluate(lib, cond, ctx);
      if ToBool(c) then Evaluate(lib, thn, ctx) else Evaluate(lib, els, ctx)
    case Call(name, args) =>
      var values :- EvaluateAll(lib, args, ctx);
      ApplyFunction(lib, name, values)
    case Index(obj, idx) =>
      var o :- Evaluate(lib, obj, ctx);
      var i :- Evaluate(lib, idx, ctx);
      IndexAccess(lib, o, i)
  }

  function EvaluateAll(lib: Library, es: seq<Expr>, ctx: EvalContext): Result<seq<Value>>
    decreases es, 1
  {
    if es == [] then Ok([])
    else
      var v :- Evaluate(lib, es[0], ctx);
      var vs :- EvaluateAll(lib, es[1..], ctx);
      Ok([v] + vs)
  }

  function ApplyBinary(lib: Library, op: string, l: Value, r: Value): Result<Value> {
    var lf, rf := ToFloat(lib, l), ToFloat(lib, r);
    if op == "==" then Ok(BoolValue(Format(lib, l) == Format(lib, r)))
    else if op == "!=" then Ok(BoolValue(Format(lib, l) != Format(lib, r)))
    else if op == "&&" then Ok(BoolValue(ToBool(l) && ToBool(r)))
    else if op == "||" then Ok(BoolValue(ToBool(l) || ToBool(r)))
    else if op == "<" then Ok(BoolValue(lf < rf))
    else if op == ">" then Ok(BoolValue(lf > rf))
    else if op == "<=" then Ok(BoolValue(lf <= rf))
    else if op == ">=" then Ok(BoolValue(lf >= rf))
    else if op == "+" then
      if IsNumeric(l) && IsNumeric(r) then Ok(FloatValue(lf + rf))
      else Ok(StringValue(Format(lib, l) + Format(lib, r)))
    else if op == "-" then Ok(FloatValue(lf - rf))
    else if op == "*" then Ok(FloatValue(lf * rf))
    else if op == "/" then if rf == 0.0 then Err else Ok(FloatValue(lf / rf))
    else if op == "%" then
      var m := lib.truncate(rf);
      if m == 0 then Err else Ok(IntValue(Remainder(lib.truncate(lf), m)))
    else Err
  }

  function ApplyFunction(lib: Library, name: string, args: seq<Value>): Result<Value> {
    if name == "len" && |args| == 1 then Length(args[0])
    else if name == "toJSON" && |args| == 1 then Ok(StringValue(Format(lib, args[0])))
    else if name == "upper" && |args| == 1 then Ok(StringValue(lib.upper(Format(lib, args[0]))))
    else if name == "lower" && |args| == 1 then Ok(StringValue(lib.lower(Format(lib, args[0]))))
    else if name == "contains" && |args| == 2 then
      Ok(BoolValue(Contains(Format(lib, args[0]), Format(lib, args[1]))))
    else if name == "default" && |args| == 2 then
      Ok(if args[0].NullValue? || Format(lib, args[0]) == "" then args[1] else args[0])
    else Err
  }

  function IndexAccess(lib: Library, obj: Value, idx: Value): Result<Value> {
    match obj
    case MapValue(fields) =>
      var key := Format(lib, idx);
      Ok(if key in fields then fields[key] else NullValue)
    case ListValue(items) =>
      var i := lib.truncate(ToFloat(lib, idx));
      if 0 <= i < |items| then Ok(items[i]) else Err
    case _ => Err
  }

  function ResolveRef(path: seq<string>, ctx: EvalContext): Result<Value> {
    if path == [] then Err
    else if path[0] == "inputs" then
      if |path| < 2 then Ok(MapValue(ctx.inputs))
      else if path[1] in ctx.inputs then DrillDown(ctx.inputs[path[1]], path[2..])
      else Err
    else if path[0] == "steps" then
      if |path| < 2 then Ok(StepsValue(ctx.steps))
      else if path[1] !in ctx.steps then Err
      else if |path| < 3 then Ok(MapValue(ctx.steps[path[1]]))
      else if path[2] in ctx.steps[path[1]] then DrillDown(ctx.steps[path[1]][path[2]], path[3..])
      else Err
    else if path[0] == "secrets" then
      if |path| < 2 || path[1] !in ctx.secrets then Err else Ok(StringValue(ctx.secrets[path[1]]))
    else if path[0] == "env" then
      if |path| < 2 then Ok(EnvValue(ctx.env))
      else Ok(StringValue(if path[1] in ctx.env then ctx.env[path[1]] else ""))
    else Err
  }

  function DrillDown(v: Value, path: seq<string>): Result<Value>
    decreases |path|
  {
    if path == [] then Ok(v)
    else if v.MapValue? && path[0] in v.fields then DrillDown(v.fields[path[0]], path[1..])
    else Err
  }

  method DrillDownLoop(v: Value, path: seq<string>) returns (r: Result<Value>)
    ensures r == DrillDown(v, path)
  {
    var val := v;
    for i := 0 to |path|
      invariant DrillDown(val, path[i..]) == DrillDown(v, path)
    {
      if !val.MapValue? || path[i] !in val.fields {
        return Err;
      }
      assert path[i..][1..] == path[i + 1..];
      val := val.fields[path[i]];
    }
    return Ok(val);
  }

  method EvalFunc(lib: Library, name: string, args: seq<Expr>, ctx: EvalContext) returns (r: Result<Value>)
    ensures r == Evaluate(lib, Call(name, args), ctx)
  {
    var values := [];
    ghost var all := EvaluateAll(lib, args, ctx);
    MoreValues([], [], all);
    assert args[0..] == args;
    for i := 0 to |args|
      invariant all == WithValues(values, EvaluateAll(lib, args[i..], ctx))
    {
      assert args[i..][1..] == args[i + 1..];
      var val := Evaluate(lib, args[i], ctx);
      if val.Err? {
        return Err;
      }
      MoreValues(values, [val.value], EvaluateAll(lib, args[i + 1..], ctx));
      values := values + [val.value];
    }
    assert values + [] == values;
    r := ApplyFunction(lib, name, values);
  }

  ghost function WithValues(values: seq<Value>, r: Result<seq<Value>>): Result<seq<Value>> {
    if r.Ok? then Ok(values + r.value) else Err
  }

  lemma MoreValues(values: seq<Value>, more: seq<Value>, r: Result<seq<Value>>)
    ensures WithValues([], r) == r
    ensures WithValues(values + more, r) == WithValues(values, WithValues(more, r))
  {
    if r.Ok? {
      assert [] + r.value == r.value;
      assert values + more + r.value == values + (more + r.value);
    }
  }

  /** The reference paths that occur in an expression. */
  function Paths(e: Expr): set<seq<string>>
    decreases e, 0
  {
    match e
    case Lit(_) => {}
    case Ref(path) => {path}
    case Binary(_, left, right) => Paths(left) + Paths(right)
    case Unary(_, operand) => Paths(operand)
    case Cond(cond, thn, els) => Paths(cond) + Paths(thn) + Paths(els)
    case Call(_, args) => AllPaths(args)
    case Index(obj, idx) => Paths(obj) + Paths(idx)
  }

  function AllPaths(es: seq<Expr>): set<seq<string>>
    decreases es, 1
  {
    if es == [] then {} else Paths(es[0]) + AllPaths(es[1..])
  }

  /** Two contexts that resolve these paths alike. */
  ghost predicate Agree(paths: set<seq<string>>, ctx: EvalContext, ctx': EvalContext) {
    forall path :: path in paths ==> ResolveRef(path, ctx) == ResolveRef(path, ctx')
  }

  /** Evaluation depends on the context only through the references that occur in the expression. */
  lemma {:induction false} EvaluateDependsOnPaths(lib: Library, e: Expr, ctx: EvalContext, ctx': EvalContext)
    requires Agree(Paths(e), ctx, ctx')
    ensures Evaluate(lib, e, ctx) == Evaluate(lib, e, ctx')
    decreases e, 0
  {
    match e
    case Lit(_) =>
    case Ref(path) => assert path in Paths(e);
    case Binary(_, left, right) =>
      EvaluateDependsOnPaths(lib, left, ctx, ctx');
      EvaluateDependsOnPaths(lib, right, ctx, ctx');
    case Unary(_, operand) => EvaluateDependsOnPaths(lib, operand, ctx, ctx');
    case Cond(cond, thn, els) =>
      EvaluateDependsOnPaths(lib, cond, ctx, ctx');
      EvaluateDependsOnPaths(lib, thn, ctx, ctx');
      EvaluateDependsOnPaths(lib, els, ctx, ctx');
    case Call(_, args) => EvaluateAllDependsOnPaths(lib, args, ctx, ctx');
    case Index(obj, idx) =>
      EvaluateDependsOnPaths(lib, obj, ctx, ctx');
      EvaluateDependsOnPaths(lib, idx, ctx, ctx');
  }

  lemma {:induction false} EvaluateAllDependsOnPaths(
      lib: Library, es: seq<Expr>, ctx: EvalContext, ctx': EvalContext)
    requires Agree(AllPaths(es), ctx, ctx')
    ensures EvaluateAll(lib, es, ctx) == EvaluateAll(lib, es, ctx')
    decreases es, 1
  {
    if es != [] {
      EvaluateDependsOnPaths(lib, es[0], ctx, ctx');
      EvaluateAllDependsOnPaths(lib, es[1..], ctx, ctx');
    }
  }
}
