/** Text with embedded expressions: EvaluateString of internal/huml/evaluator.go. */
module Templates {
  import opened Prelude
  import opened ExprSyntax
  import opened Model
  import opened Evaluator
  import opened Tokens
  import opened TokenRoundTrip
  import ExprParser

  predicate StartsMarker(s: string) {
    |s| > 1 && s[0] == '$' && s[1] == '{'
  }

  predicate HasMarker(s: string) {
    s != "" && (StartsMarker(s) || HasMarker(s[1..]))
  }

  /** An expression and the text after it. One that is never closed runs to the end. */
  function SplitBraces(s: string, depth: nat): (r: (string, string))
    requires depth > 0
    ensures |r.1| <= |s|
  {
    if s == "" then ("", "")
    else if s[0] == '}' && depth == 1 then ("", s[1..])
    else
      var inner := if s[0] == '{' then depth + 1 else if s[0] == '}' then depth - 1 else depth;
      var (text, rest) := SplitBraces(s[1..], inner);
      ([s[0]] + text, rest)
  }

  function EvaluateExpression(lib: Library, raw: string, ctx: EvalContext): Result<string> {
    var e :- ParseExpression(raw);
    var v :- Evaluate(lib, e, ctx);
    Ok(Format(lib, v))
  }

  /** The scanning loop: every marked expression is replaced by its formatted value. */
  function Expand(lib: Library, s: string, ctx: EvalContext): Result<string>
    decreases |s|
  {
    if s == "" then Ok("")
    else if StartsMarker(s) then
      var (raw, rest) := SplitBraces(s[2..], 1);
      var text :- EvaluateExpression(lib, raw, ctx);
      var more :- Expand(lib, rest, ctx);
      Ok(text + more)
    else
      var more :- Expand(lib, s[1..], ctx);
      Ok([s[0]] + more)
  }

  function EvaluateString(lib: Library, s: string, ctx: EvalContext): Result<string> {
    if HasMarker(s) then Expand(lib, s, ctx) else Ok(s)
  }

  function Join(a: Result<string>, b: Result<string>): Result<string> {
    if a.Ok? && b.Ok? then Ok(a.value + b.value) else Err
  }

  method EvaluateStringLoop(lib: Library, raw: string, ctx: EvalContext) returns (r: Result<string>)
    ensures r == EvaluateString(lib, raw, ctx)
  {
    if !HasMarker(raw) {
      return Ok(raw);
    }
    var result := "";
    var i := 0;
    JoinEmpty(Expand(lib, raw, ctx));
    while i < |raw|
      invariant 0 <= i <= |raw|
      invariant Expand(lib, raw, ctx) == Join(Ok(result), Expand(lib, raw[i..], ctx))
    {
      ghost var rest := raw[i..];
      if i + 1 < |raw| && raw[i] == '$' && raw[i + 1] == '{' {
        var body, next := ScanBraces(raw, i + 2);
        assert rest[2..] == raw[i + 2..];
        i := next;
        var e := ExprParser.ParseExpressionText(body);
        if e.Err? {
          return Err;
        }
        var val := Evaluate(lib, e.value, ctx);
        if val.Err? {
          return Err;
        }
        JoinMore(result, Format(lib, val.value), Expand(lib, raw[i..], ctx));
        result := result + Format(lib, val.value);
      } else {
        assert rest[1..] == raw[i + 1..];
        JoinMore(result, [raw[i]], Expand(lib, raw[i + 1..], ctx));
        result := result + [raw[i]];
        i := i + 1;
      }
    }
    assert raw[i..] == "";
    assert result + "" == result;
    return Ok(result);
  }

  /** The inner loop: from the text after a marker to the text after its closing brace. */
  method ScanBraces(runes: string, start: nat) returns (body: string, next: nat)
    requires start <= |runes|
    ensures start <= next <= |runes| && (body, runes[next..]) == SplitBraces(runes[start..], 1)
  {
    var i := start;
    var depth := 1;
    ghost var spec := SplitBraces(runes[start..], 1);
    assert runes[start..start] + spec.0 == spec.0;
    while i < |runes| && depth > 0
      invariant start <= i <= |runes| && 0 <= depth
      invariant depth > 0 ==> spec == After(runes[start..i], SplitBraces(runes[i..], depth))
      invariant depth == 0 ==> i < |runes| && spec == After(runes[start..i], ("", runes[i + 1..]))
    {
      assert runes[i..][1..] == runes[i + 1..];
      if runes[i] == '{' {
        depth := depth + 1;
      } else if runes[i] == '}' {
        depth := depth - 1;
      }
      if depth > 0 {
        assert runes[start..i] + [runes[i]] == runes[start..i + 1];
        Assoc(runes[start..i], [runes[i]], SplitBraces(runes[i + 1..], depth).0);
        i := i + 1;
      }
    }
    body := runes[start..i];
    next := if i < |runes| then i + 1 else i;
    assert body + "" == body;
    assert depth > 0 ==> runes[i..] == "";
  }

  ghost function After(read: string, r: (string, string)): (string, string) {
    (read + r.0, r.1)
  }

  lemma JoinEmpty(r: Result<string>)
    ensures r == Join(Ok(""), r)
  {
    if r.Ok? {
      assert "" + r.value == r.value;
    }
  }

  lemma JoinMore(a: string, b: string, r: Result<string>)
    ensures Join(Ok(a + b), r) == Join(Ok(a), Join(Ok(b), r))
  {
    if r.Ok? {
      Assoc(a, b, r.value);
    }
  }

  /** The early return agrees with the loop: text without a marker is its own expansion. */
  lemma {:induction false} PlainTextExpandsToItself(lib: Library, s: string, ctx: EvalContext)
    requires !HasMarker(s)
    ensures Expand(lib, s, ctx) == Ok(s)
  {
    if s != "" {
      PlainTextExpandsToItself(lib, s[1..], ctx);
      assert [s[0]] + s[1..] == s;
    }
  }

  lemma {:induction false} EvaluateStringIsExpand(lib: Library, s: string, ctx: EvalContext)
    ensures EvaluateString(lib, s, ctx) == Expand(lib, s, ctx)
  {
    if !HasMarker(s) {
      PlainTextExpandsToItself(lib, s, ctx);
    }
  }

  /** Text in which every marker is closed. */
  predicate Complete(s: string)
    decreases |s|
  {
    if s == "" then true
    else if StartsMarker(s) then
      var r := BraceTail(s[2..], 1);
      r.Ok? && Complete(r.value.1)
    else Complete(s[1..])
  }

  /** Joining a and b makes no new marker at the seam. */
  predicate CleanSeam(a: string, b: string) {
    a != "" && b != "" ==> !(a[|a| - 1] == '$' && b[0] == '{')
  }

  /** The template scanner finds the brace the lexer's scanner finds, also when more text follows. */
  lemma {:induction false} ScannersAgree(s: string, depth: nat, more: string)
    requires depth > 0 && BraceTail(s, depth).Ok?
    ensures SplitBraces(s + more, depth) == (BraceTail(s, depth).value.0, BraceTail(s, depth).value.1 + more)
    ensures exists i :: 0 <= i <= |s| && s[i..] == BraceTail(s, depth).value.1
    decreases |s|
  {
    assert (s + more)[1..] == s[1..] + more;
    if s[0] == '}' && depth == 1 {
    } else {
      var d := if s[0] == '{' then depth + 1 else if s[0] == '}' then depth - 1 else depth;
      ScannersAgree(s[1..], d, more);
      var i :| 0 <= i <= |s| - 1 && s[1..][i..] == BraceTail(s[1..], d).value.1;
      assert s[i + 1..] == s[1..][i..];
    }
  }

  /** Evaluating a concatenation is evaluating its parts, and it fails exactly when a part fails. */
  lemma {:induction false} ExpandConcat(lib: Library, a: string, b: string, ctx: EvalContext)
    requires Complete(a) && CleanSeam(a, b)
    ensures Expand(lib, a + b, ctx) == Join(Expand(lib, a, ctx), Expand(lib, b, ctx))
    decreases |a|
  {
    hide EvaluateExpression;
    if a == "" {
      assert a + b == b;
      JoinEmpty(Expand(lib, b, ctx));
    } else if StartsMarker(a) {
      var (raw, rest) := BraceTail(a[2..], 1).value;
      assert (a + b)[2..] == a[2..] + b;
      ScannersAgree(a[2..], 1, b);
      ScannersAgree(a[2..], 1, "");
      assert a[2..] + "" == a[2..] && rest + "" == rest;
      var i :| 0 <= i <= |a[2..]| && a[2..][i..] == rest;
      assert a[i + 2..] == rest;
      ExpandConcat(lib, rest, b, ctx);
      JoinParts(EvaluateExpression(lib, raw, ctx), Expand(lib, rest, ctx), Expand(lib, b, ctx));
    } else {
      assert (a + b)[1..] == a[1..] + b;
      assert !StartsMarker(a + b);
      ExpandConcat(lib, a[1..], b, ctx);
      JoinParts(Ok([a[0]]), Expand(lib, a[1..], ctx), Expand(lib, b, ctx));
    }
  }

  lemma JoinParts(a: Result<string>, b: Result<string>, c: Result<string>)
    ensures Join(Join(a, b), c) == Join(a, Join(b, c))
  {
    if a.Ok? && b.Ok? && c.Ok? {
      Assoc(a.value, b.value, c.value);
    }
  }

  lemma {:induction false} EvaluateStringConcat(lib: Library, a: string, b: string, ctx: EvalContext)
    requires Complete(a) && CleanSeam(a, b)
    ensures EvaluateString(lib, a + b, ctx) == Join(EvaluateString(lib, a, ctx), EvaluateString(lib, b, ctx))
  {
    ExpandConcat(lib, a, b, ctx);
    EvaluateStringIsExpand(lib, a, ctx);
    EvaluateStringIsExpand(lib, b, ctx);
    EvaluateStringIsExpand(lib, a + b, ctx);
  }

  /** The reference paths a template can read before its first syntax error. */
  function TemplatePaths(s: string): set<seq<string>>
    decreases |s|
  {
    if s == "" then {}
    else if StartsMarker(s) then
      var (raw, rest) := SplitBraces(s[2..], 1);
      match ParseExpression(raw)
      case Err => {}
      case Ok(e) => Paths(e) + TemplatePaths(rest)
    else TemplatePaths(s[1..])
  }

  lemma {:induction false} EvaluateStringDependsOnPaths(lib: Library, s: string, ctx: EvalContext, ctx': EvalContext)
    requires Agree(TemplatePaths(s), ctx, ctx')
    ensures EvaluateString(lib, s, ctx) == EvaluateString(lib, s, ctx')
  {
    ExpandDependsOnPaths(lib, s, ctx, ctx');
  }

  lemma {:induction false} ExpandDependsOnPaths(lib: Library, s: string, ctx: EvalContext, ctx': EvalContext)
    requires Agree(TemplatePaths(s), ctx, ctx')
    ensures Expand(lib, s, ctx) == Expand(lib, s, ctx')
    decreases |s|
  {
    if s == "" {
    } else if StartsMarker(s) {
      var (raw, rest) := SplitBraces(s[2..], 1);
      if ParseExpression(raw).Ok? {
        EvaluateDependsOnPaths(lib, ParseExpression(raw).value, ctx, ctx');
        ExpandDependsOnPaths(lib, rest, ctx, ctx');
      }
    } else {
      ExpandDependsOnPaths(lib, s[1..], ctx, ctx');
    }
  }

  function FormatResult(lib: Library, r: Result<Value>): Result<string> {
    if r.Ok? then Ok(Format(lib, r.value)) else Err
  }

  /** A template that is one closed expression evaluates to the formatted value of that expression. */
  lemma {:induction false} WholeExpression(lib: Library, raw: string, ctx: EvalContext)
    requires Balanced(raw, 1)
    ensures EvaluateString(lib, "${" + (raw + "}"), ctx) == EvaluateExpression(lib, raw, ctx)
  {
    var s := "${" + (raw + "}");
    BraceTailRoundTrip(raw, 1, "");
    assert "}" + "" == "}";
    ScannersAgree(raw + "}", 1, "");
    assert raw + "}" + "" == raw + "}";
    assert s[0] == '$' && s[1] == '{' && s[2..] == raw + "}";
    assert SplitBraces(s[2..], 1) == (raw, "");
    var r := EvaluateExpression(lib, raw, ctx);
    assert r.Ok? ==> r.value + "" == r.value;
    assert Expand(lib, s, ctx) == r;
  }
}
