/** The hand-written expression parser: one object with a cursor, proved against the grammar of ExprSyntax. */
module ExprParser {
  import opened Prelude
  import opened HumlAst
  import opened ExprSyntax

  class ExprParser {
    const input: string
    var pos: nat

    constructor (input: string)
      ensures this.input == input && pos == 0
    {
      this.input := input;
      pos := 0;
    }

    ghost predicate Valid()
      reads this
    {
      pos <= |input|
    }

    ghost function Rest(): string
      reads this
      requires Valid()
    {
      input[pos..]
    }

    /** r and the cursor are what the grammar says about the text that was unread before the call. */
    ghost predicate Agrees(r: Result<Expr>, spec: Parse)
      reads this
    {
      Valid() && if spec.Ok? then r == Ok(spec.value.0) && Rest() == spec.value.1 else r.Err?
    }

    method Advance()
      requires Valid() && pos < |input|
      modifies this`pos
      ensures Valid() && pos == old(pos) + 1 && Rest() == old(Rest())[1..]
    {
      pos := pos + 1;
    }

    method SkipWhitespace()
      requires Valid()
      modifies this`pos
      ensures Valid() && old(pos) <= pos && Rest() == SkipBlanks(old(Rest()))
    {
      while pos < |input| && (input[pos] == ' ' || input[pos] == '\t')
        invariant Valid() && old(pos) <= pos
        invariant SkipBlanks(Rest()) == SkipBlanks(old(Rest()))
      {
        Advance();
      }
    }

    method MatchStr(s: string) returns (matched: bool)
      requires Valid()
      modifies this`pos
      ensures Valid() && matched == (s <= old(Rest()))
      ensures Rest() == if matched then old(Rest())[|s|..] else old(Rest())
    {
      if pos + |s| > |input| {
        return false;
      }
      for i := 0 to |s|
        invariant pos == old(pos)
        invariant forall j :: 0 <= j < i ==> Rest()[j] == s[j]
      {
        if input[pos + i] != s[i] {
          assert Rest()[i] != s[i];
          return false;
        }
      }
      pos := pos + |s|;
      return true;
    }

    method ReadIdent() returns (ident: string)
      requires Valid()
      modifies this`pos
      ensures Valid() && (ident, Rest()) == SplitIdent(old(Rest()))
    {
      var start := pos;
      while pos < |input| && (IsLetter(input[pos]) || IsDigit(input[pos]) || input[pos] == '_')
        invariant start <= pos <= |input|
        invariant forall i :: 0 <= i < pos - start ==> IsExprIdentChar(old(Rest())[i])
      {
        pos := pos + 1;
      }
      ident := input[start..pos];
      ghost var before := old(Rest());
      assert before == ident + Rest() && ident == before[..pos - start];
      SpanExact(IsExprIdentChar, ident, Rest());
    }

    method ParseExpr() returns (r: Result<Expr>)
      requires Valid()
      modifies this`pos
      ensures Agrees(r, ParseLevel(0, old(Rest())))
      decreases |input| - pos, 20
    {
      r := ParseTernary();
    }

    method ParseTernary() returns (r: Result<Expr>)
      requires Valid()
      modifies this`pos
      ensures Agrees(r, ParseLevel(0, old(Rest())))
      decreases |input| - pos, 19
    {
      hide Chain;
      hide Comparisons;
      hide ParsePrimary;
      var cond := ParseOr();
      if cond.Err? {
        return Err;
      }
      SkipWhitespace();
      if pos < |input| && input[pos] == '?' {
        Advance();
        SkipWhitespace();
        var thn := ParseExpr();
        if thn.Err? {
          return Err;
        }
        SkipWhitespace();
        if pos >= |input| || input[pos] != ':' {
          return Err;
        }
        Advance();
        SkipWhitespace();
        var els := ParseExpr();
        if els.Err? {
          return Err;
        }
        return Ok(Cond(cond.value, thn.value, els.value));
      }
      return cond;
    }

    method ParseOr() returns (r: Result<Expr>)
      requires Valid()
      modifies this`pos
      ensures Agrees(r, ParseLevel(OR, old(Rest())))
      decreases |input| - pos, 18
    {
      hide ExprSyntax.ParseTernary;
      hide Comparisons;
      hide ParsePrimary;
      r := ParseAnd();
      if r.Err? {
        return;
      }
      while true
        invariant Valid() && r.Ok? && pos > old(pos)
        invariant ParseLevel(OR, old(Rest())) == Chain(OR, r.value, Rest())
        decreases |input| - pos
      {
        SkipWhitespace();
        ghost var text := Rest();
        var matched := MatchStr("||");
        OperatorPrefix(OR, "||", text);
        if !matched {
          return;
        }
        var right := ParseAnd();
        if right.Err? {
          return Err;
        }
        r := Ok(Binary("||", r.value, right.value));
      }
    }

    method ParseAnd() returns (r: Result<Expr>)
      requires Valid()
      modifies this`pos
      ensures Agrees(r, ParseLevel(AND, old(Rest())))
      decreases |input| - pos, 17
    {
      hide ExprSyntax.ParseTernary;
      hide Comparisons;
      hide ParsePrimary;
      r := ParseComparison();
      if r.Err? {
        return;
      }
      while true
        invariant Valid() && r.Ok? && pos > old(pos)
        invariant ParseLevel(AND, old(Rest())) == Chain(AND, r.value, Rest())
        decreases |input| - pos
      {
        SkipWhitespace();
        ghost var text := Rest();
        var matched := MatchStr("&&");
        OperatorPrefix(AND, "&&", text);
        if !matched {
          return;
        }
        var right := ParseComparison();
        if right.Err? {
          return Err;
        }
        r := Ok(Binary("&&", r.value, right.value));
      }
    }

    method ParseComparison() returns (r: Result<Expr>)
      requires Valid()
      modifies this`pos
      ensures Agrees(r, ParseLevel(COMPARE, old(Rest())))
      decreases |input| - pos, 16
    {
      hide ExprSyntax.ParseTernary;
      hide Chain;
      hide ParsePrimary;
      r := ParseAddition();
      if r.Err? {
        return;
      }
      SkipWhitespace();
      for k := 0 to COMPARISONS
        invariant Valid() && r.Ok? && pos > old(pos)
        invariant ParseLevel(COMPARE, old(Rest())) == Comparisons(k, r.value, Rest())
      {
        ghost var text := Rest();
        var matched := MatchStr(ComparisonOp(k));
        ComparisonPrefix(k, text);
        if matched {
          var right := ParseAddition();
          if right.Err? {
            return Err;
          }
          r := Ok(Binary(ComparisonOp(k), r.value, right.value));
          SkipWhitespace();
        }
      }
    }

    method ParseAddition() returns (r: Result<Expr>)
      requires Valid()
      modifies this`pos
      ensures Agrees(r, ParseLevel(ADD, old(Rest())))
      decreases |input| - pos, 15
    {
      hide ExprSyntax.ParseTernary;
      hide Comparisons;
      hide ParsePrimary;
      r := ParseMultiplication();
      if r.Err? {
        return;
      }
      while true
        invariant Valid() && r.Ok? && pos > old(pos)
        invariant ParseLevel(ADD, old(Rest())) == Chain(ADD, r.value, Rest())
        decreases |input| - pos
      {
        SkipWhitespace();
        if pos < |input| && (input[pos] == '+' || input[pos] == '-') {
          var op := [input[pos]];
          assert OperatorAt(ADD, Rest()) == Some(op);
          Advance();
          var right := ParseMultiplication();
          if right.Err? {
            return Err;
          }
          r := Ok(Binary(op, r.value, right.value));
        } else {
          return;
        }
      }
    }

    method ParseMultiplication() returns (r: Result<Expr>)
      requires Valid()
      modifies this`pos
      ensures Agrees(r, ParseLevel(MULTIPLY, old(Rest())))
      decreases |input| - pos, 14
    {
      hide ExprSyntax.ParseTernary;
      hide Comparisons;
      hide ParsePrimary;
      r := ParseUnary();
      if r.Err? {
        return;
      }
      while true
        invariant Valid() && r.Ok? && pos > old(pos)
        invariant ParseLevel(MULTIPLY, old(Rest())) == Chain(MULTIPLY, r.value, Rest())
        decreases |input| - pos
      {
        SkipWhitespace();
        if pos < |input| && (input[pos] == '*' || input[pos] == '/' || input[pos] == '%') {
          var op := [input[pos]];
          assert OperatorAt(MULTIPLY, Rest()) == Some(op);
          Advance();
          var right := ParseUnary();
          if right.Err? {
            return Err;
          }
          r := Ok(Binary(op, r.value, right.value));
        } else {
          return;
        }
      }
    }

    method ParseUnary() returns (r: Result<Expr>)
      requires Valid()
      modifies this`pos
      ensures Agrees(r, ParseLevel(UNARY, old(Rest())))
      decreases |input| - pos, 13
    {
      hide ExprSyntax.ParseTernary;
      hide Chain;
      hide Comparisons;
      hide ParsePrimary;
      ghost var unread := Rest();
      SkipWhitespace();
      PrimarySkipsBlanks(unread);
      if pos < |input| && input[pos] == '!' {
        Advance();
        var operand := ParseUnary();
        if operand.Err? {
          return Err;
        }
        return Ok(Unary("!", operand.value));
      }
      r := ParsePrimaryExpr();
    }

    method ParsePrimaryExpr() returns (r: Result<Expr>)
      requires Valid()
      modifies this`pos
      ensures Agrees(r, ParsePrimary(old(Rest())))
      decreases |input| - pos, 12
    {
      SkipWhitespace();
      if pos >= |input| {
        return Err;
      }
      var ch := input[pos];
      if ch == '(' {
        Advance();
        var e := ParseExpr();
        if e.Err? {
          return Err;
        }
        SkipWhitespace();
        if pos >= |input| || input[pos] != ')' {
          return Err;
        }
        Advance();
        return e;
      }
      if ch == '\'' || ch == '"' {
        r := ParseStringLiteral();
        return;
      }
      if IsDigit(ch) || (ch == '-' && pos + 1 < |input| && IsDigit(input[pos + 1])) {
        r := ParseNumberLiteral();
        return;
      }
      if IsLetter(ch) || ch == '_' {
        r := ParseReference();
        return;
      }
      return Err;
    }

    method ParseReference() returns (r: Result<Expr>)
      requires Valid() && Rest() != "" && IsLetter(Rest()[0])
      modifies this`pos
      ensures Agrees(r, ParseRef(old(Rest())))
      decreases |input| - pos, 11
    {
      var ident := ReadIdent();
      if ident == "true" {
        return Ok(Lit(BoolLit(true)));
      }
      if ident == "false" {
        return Ok(Lit(BoolLit(false)));
      }
      if ident == "null" || ident == "nil" {
        return Ok(Lit(NullLit));
      }
      if pos < |input| && input[pos] == '(' {
        r := ParseFuncCall(ident);
        return;
      }
      var path := [ident];
      while pos < |input| && input[pos] == '.'
        invariant Valid() && ParseRef(old(Rest())) == PathTail(path, Rest())
        decreases |input| - pos
      {
        Advance();
        var next := ReadIdent();
        if next == "" {
          return Err;
        }
        path := path + [next];
      }
      return Ok(Ref(path));
    }

    method ParseFuncCall(name: string) returns (r: Result<Expr>)
      requires Valid() && Rest() != "" && Rest()[0] == '('
      modifies this`pos
      ensures Agrees(r, ParseCall(name, old(Rest())[1..]))
      decreases |input| - pos, 10
    {
      Advance();
      SkipWhitespace();
      if pos < |input| && input[pos] == ')' {
        Advance();
        return Ok(Call(name, []));
      }
      ghost var text := Rest();
      var args := [];
      while true
        invariant Valid() && pos > old(pos)
        invariant Arguments([], text) == Arguments(args, Rest())
        decreases |input| - pos
      {
        SkipWhitespace();
        var arg := ParseExpr();
        if arg.Err? {
          return Err;
        }
        SkipWhitespace();
        if pos < |input| && input[pos] == ',' {
          Advance();
          args := args + [arg.value];
        } else {
          args := args + [arg.value];
          break;
        }
      }
      assert Arguments([], text) == Ok((args, Rest()));
      SkipWhitespace();
      if pos >= |input| || input[pos] != ')' {
        return Err;
      }
      Advance();
      return Ok(Call(name, args));
    }

    method ParseStringLiteral() returns (r: Result<Expr>)
      requires Valid() && Rest() != "" && (Rest()[0] == '\'' || Rest()[0] == '"')
      modifies this`pos
      ensures Agrees(r, ParsePrimary(old(Rest())))
    {
      var quote := input[pos];
      Advance();
      ghost var body := StringBody(quote, Rest());
      var result := "";
      PrependMore("", "", body);
      StringLiteral(old(Rest()));
      hide ParsePrimary;
      hide StringBody;
      while pos < |input|
        invariant Valid()
        invariant body == Prepend(result, StringBody(quote, Rest()))
      {
        var ch := input[pos];
        ghost var rest := Rest();
        StringStep(quote, rest);
        if ch == '\\' && pos + 1 < |input| {
          pos := pos + 1;
          PrependMore(result, [input[pos]], StringBody(quote, rest[2..]));
          result := result + [input[pos]];
          pos := pos + 1;
          assert rest[2..] == Rest();
        } else if ch == quote {
          pos := pos + 1;
          assert rest[1..] == Rest();
          assert result + "" == result;
          return Ok(Lit(StringLit(result)));
        } else {
          PrependMore(result, [ch], StringBody(quote, rest[1..]));
          result := result + [ch];
          pos := pos + 1;
          assert rest[1..] == Rest();
        }
      }
      StringStep(quote, Rest());
      return Err;
    }

    /** Moves over a sign and the digits and dots after it. */
    method ScanNumber()
      requires Valid() && StartsNumber(Rest())
      modifies this`pos
      ensures Valid() && old(pos) <= pos && NumberLength(old(Rest())) == pos - old(pos)
      ensures old(Rest())[..pos - old(pos)] == input[old(pos)..pos] && old(Rest())[pos - old(pos)..] == Rest()
    {
      hide IsNumberChar;
      var start := pos;
      if input[pos] == '-' {
        pos := pos + 1;
      }
      ghost var from := pos;
      while pos < |input| && IsNumberChar(input[pos])
        invariant start <= from <= pos <= |input|
        invariant forall i :: from <= i < pos ==> IsNumberChar(input[i])
      {
        pos := pos + 1;
      }
      NumberScanned(input, start, from, pos);
    }

    method ParseNumberLiteral() returns (r: Result<Expr>)
      requires Valid() && StartsNumber(Rest())
      modifies this`pos
      ensures Agrees(r, ParseNumber(old(Rest())))
    {
      hide NumberLength;
      hide IsFloatText;
      var start := pos;
      ScanNumber();
      var text := input[start..pos];
      if !IsFloatText(text) {
        return Err;
      }
      return Ok(Lit(NumberLit(text)));
    }
  }

  lemma OperatorPrefix(level: nat, op: string, text: string)
    requires (level == OR && op == "||") || (level == AND && op == "&&")
    ensures OperatorAt(level, text) == if op <= text then Some(op) else None
  {
  }

  lemma ComparisonPrefix(k: nat, text: string)
    requires k < COMPARISONS
    ensures ComparisonOp(k) <= text <==> ComparisonAt(k, text)
  {
  }

  lemma StringLiteral(s: string)
    requires s != "" && (s[0] == '\'' || s[0] == '"')
    ensures ParsePrimary(s) == match StringBody(s[0], s[1..])
                               case Err => Err
                               case Ok(part) => Ok((Lit(StringLit(part.0)), part.1))
  {
    hide StringBody;
  }

  lemma StringStep(quote: char, s: string)
    requires quote != '\\'
    ensures s == "" ==> StringBody(quote, s).Err?
    ensures |s| > 1 && s[0] == '\\' ==> StringBody(quote, s) == Prepend([s[1]], StringBody(quote, s[2..]))
    ensures s != "" && s[0] == quote ==> StringBody(quote, s) == Ok(("", s[1..]))
    ensures s != "" && !(|s| > 1 && s[0] == '\\') && s[0] != quote ==>
              StringBody(quote, s) == Prepend([s[0]], StringBody(quote, s[1..]))
  {
  }

  lemma NumberScanned(input: string, start: nat, from: nat, end: nat)
    requires start <= from <= end <= |input| && StartsNumber(input[start..])
    requires from == if input[start] == '-' then start + 1 else start
    requires forall i :: from <= i < end ==> IsNumberChar(input[i])
    requires end < |input| ==> !IsNumberChar(input[end])
    ensures NumberLength(input[start..]) == end - start
    ensures input[start..][..end - start] == input[start..end] && input[start..][end - start..] == input[end..]
  {
    var t := input[start..];
    var digits := if t[0] == '-' then t[1..] else t;
    assert digits == input[from..];
    SpanSplit(IsNumberChar, digits, end - from);
  }

  /** Parses the expression at the start of a text; what follows it is not looked at. */
  method ParseExpressionText(input: string) returns (r: Result<Expr>)
    ensures r == ParseExpression(input)
  {
    var p := new ExprParser(input);
    r := p.ParseExpr();
  }
}
