/**
 * The expression grammar of internal/huml/parser.go as a function on the text that is still unread.
 * Levels count from the loosest operator (0, the conditional) to the tightest (7, a primary).
 */
module ExprSyntax {
  import opened Prelude
  import opened HumlAst

  type Parse = Result<(Expr, string)>

  predicate IsBlank(c: char) {
    c == ' ' || c == '\t'
  }

  predicate IsExprIdentChar(c: char) {
    IsLetter(c) || IsDigit(c)
  }

  predicate IsNumberChar(c: char) {
    IsDigit(c) || c == '.'
  }

  function SkipBlanks(s: string): (r: string)
    ensures |r| <= |s|
    ensures r != "" ==> !IsBlank(r[0])
  {
    if s != "" && IsBlank(s[0]) then SkipBlanks(s[1..]) else s
  }

  const OR := 1
  const AND := 2
  const COMPARE := 3
  const ADD := 4
  const MULTIPLY := 5
  const UNARY := 6
  const PRIMARY := 7

  predicate IsChainLevel(level: nat) {
    level == OR || level == AND || level == ADD || level == MULTIPLY
  }

  /** The operator of a left-associative level that s starts with. */
  function OperatorAt(level: nat, s: string): (r: Option<string>)
    ensures r.Some? ==> 0 < |r.value| <= |s| && BinaryLevel(r.value) == level
  {
    if s == "" then None
    else if level == OR then (if |s| > 1 && s[0] == '|' && s[1] == '|' then Some("||") else None)
    else if level == AND then (if |s| > 1 && s[0] == '&' && s[1] == '&' then Some("&&") else None)
    else if level == ADD then (if s[0] == '+' then Some("+") else if s[0] == '-' then Some("-") else None)
    else if level == MULTIPLY then
      (if s[0] == '*' then Some("*") else if s[0] == '/' then Some("/") else if s[0] == '%' then Some("%") else None)
    else None
  }

  /** The comparison operators in the order in which they are tried. */
  function ComparisonOp(k: nat): string {
    if k == 0 then "==" else if k == 1 then "!=" else if k == 2 then "<=" else if k == 3 then ">="
    else if k == 4 then "<" else ">"
  }

  const COMPARISONS := 6

  predicate ComparisonAt(k: nat, s: string) {
    if k < 4 then
      && |s| > 1 && s[1] == '='
      && s[0] == (if k == 0 then '=' else if k == 1 then '!' else if k == 2 then '<' else '>')
    else s != "" && s[0] == (if k == 4 then '<' else '>')
  }

  /** The level of a binary operator, and PRIMARY for a string that is no operator. */
  function BinaryLevel(op: string): nat {
    if op == "||" then OR else if op == "&&" then AND
    else if op == "==" || op == "!=" || op == "<=" || op == ">=" || op == "<" || op == ">" then COMPARE
    else if op == "+" || op == "-" then ADD else if op == "*" || op == "/" || op == "%" then MULTIPLY
    else PRIMARY
  }

  /** The length of the number literal at the start of t: an optional sign, then digits and dots. */
  function NumberLength(t: string): (n: nat)
    requires StartsNumber(t)
    ensures 0 < n <= |t|
  {
    if t[0] == '-' then 1 + Span(IsNumberChar, t[1..]) else Span(IsNumberChar, t)
  }

  /** A run of decimal digits as a whole number. */
  function DigitsValue(s: string): nat {
    if s == "" then 0
    else 10 * DigitsValue(s[..|s| - 1]) + (if IsDigit(s[|s| - 1]) then s[|s| - 1] as int - '0' as int else 0)
  }

  /** The whole part of a number literal, without its sign. */
  function WholePart(s: string): string {
    var digits := if s != "" && s[0] == '-' then s[1..] else s;
    digits[..Span(IsDigit, digits)]
  }

  /** From here on a decimal rounds to infinity, and strconv.ParseFloat reports a range error. */
  function FloatOverflow(): int {
    Pow2(1024) - Pow2(970)
  }

  /** What strconv.ParseFloat accepts among the texts that the number scan can produce. */
  predicate IsFloatText(s: string) {
    && (forall i, j :: 0 <= i < j < |s| ==> s[i] != '.' || s[j] != '.')
    && DigitsValue(WholePart(s)) < FloatOverflow()
  }

  predicate IsNumberText(t: string) {
    StartsNumber(t) && NumberLength(t) == |t| && IsFloatText(t)
  }

  function ParseLevel(level: nat, s: string): (r: Parse)
    requires level <= PRIMARY
    decreases |s|, 20 - level
    ensures r.Ok? ==> |r.value.1| < |s|
  {
    if level == 0 then ParseTernary(s)
    else if IsChainLevel(level) then
      var (left, rest) :- ParseLevel(level + 1, s);
      Chain(level, left, rest)
    else if level == COMPARE then
      var (left, rest) :- ParseLevel(ADD, s);
      Comparisons(0, left, SkipBlanks(rest))
    else if level == UNARY then
      var t := SkipBlanks(s);
      if t != "" && t[0] == '!' then
        var (operand, rest) :- ParseLevel(UNARY, t[1..]);
        Ok((Unary("!", operand), rest))
      else ParseLevel(PRIMARY, s)
    else ParsePrimary(s)
  }

  function ParseTernary(s: string): (r: Parse)
    decreases |s|, 20, 0
    ensures r.Ok? ==> |r.value.1| < |s|
  {
    var (cond, r0) :- ParseLevel(OR, s);
    var r1 := SkipBlanks(r0);
    if r1 != "" && r1[0] == '?' then
      var (thn, r2) :- ParseLevel(0, SkipBlanks(r1[1..]));
      var r3 := SkipBlanks(r2);
      if r3 == "" || r3[0] != ':' then Err
      else
        var (els, r4) :- ParseLevel(0, SkipBlanks(r3[1..]));
        Ok((Cond(cond, thn, els), r4))
    else Ok((cond, r1))
  }

  /** The loop of a left-associative level: left has been read, s is unread. */
  function Chain(level: nat, left: Expr, s: string): (r: Parse)
    requires IsChainLevel(level)
    decreases |s|, 0
    ensures r.Ok? ==> |r.value.1| <= |s|
  {
    var t := SkipBlanks(s);
    match OperatorAt(level, t)
    case None => Ok((left, t))
    case Some(op) =>
      var (right, rest) :- ParseLevel(level + 1, t[|op|..]);
      Chain(level, Binary(op, left, right), rest)
  }

  /** The comparison pass: operators k and later are still to be tried, once each. */
  function Comparisons(k: nat, left: Expr, s: string): (r: Parse)
    requires k <= COMPARISONS
    decreases |s|, 0, COMPARISONS - k
    ensures r.Ok? ==> |r.value.1| <= |s|
  {
    if k == COMPARISONS then Ok((left, s))
    else if ComparisonAt(k, s) then
      var (right, rest) :- ParseLevel(ADD, s[|ComparisonOp(k)|..]);
      Comparisons(k + 1, Binary(ComparisonOp(k), left, right), SkipBlanks(rest))
    else Comparisons(k + 1, left, s)
  }

  function ParsePrimary(s: string): (r: Parse)
    decreases |s|, 12
    ensures r.Ok? ==> |r.value.1| < |s|
  {
    var t := SkipBlanks(s);
    if t == "" then Err
    else if t[0] == '(' then
      var (e, r0) :- ParseLevel(0, t[1..]);
      var r1 := SkipBlanks(r0);
      if r1 == "" || r1[0] != ')' then Err else Ok((e, r1[1..]))
    else if t[0] == '\'' || t[0] == '"' then
      var (text, rest) :- StringBody(t[0], t[1..]);
      Ok((Lit(StringLit(text)), rest))
    else if StartsNumber(t) then ParseNumber(t)
    else if IsLetter(t[0]) then ParseRef(t)
    else Err
  }

  /** The body of a quoted literal up to its closing quote. A backslash makes any next character plain. */
  function StringBody(quote: char, s: string): (r: Result<(string, string)>)
    ensures r.Ok? ==> |r.value.1| < |s|
  {
    if s == "" then Err
    else if s[0] == '\\' && |s| > 1 then
      var (text, rest) :- StringBody(quote, s[2..]);
      Ok(([s[1]] + text, rest))
    else if s[0] == quote then Ok(("", s[1..]))
    else
      var (text, rest) :- StringBody(quote, s[1..]);
      Ok(([s[0]] + text, rest))
  }

  function ParseNumber(t: string): (r: Parse)
    requires StartsNumber(t)
    ensures r.Ok? ==> |r.value.1| < |t|
  {
    var n := NumberLength(t);
    if IsFloatText(t[..n]) then Ok((Lit(NumberLit(t[..n])), t[n..])) else Err
  }

  /** Splits off the identifier at the start of s; it is empty when s starts with something else. */
  function SplitIdent(s: string): (r: (string, string))
    ensures |r.0| + |r.1| == |s|
    ensures r.0 == "" <==> s == "" || !IsExprIdentChar(s[0])
  {
    var n := Span(IsExprIdentChar, s);
    (s[..n], s[n..])
  }

  function ParseRef(t: string): (r: Parse)
    requires t != "" && IsLetter(t[0])
    decreases |t|, 11
    ensures r.Ok? ==> |r.value.1| < |t|
  {
    var (ident, rest) := SplitIdent(t);
    if ident == "true" then Ok((Lit(BoolLit(true)), rest))
    else if ident == "false" then Ok((Lit(BoolLit(false)), rest))
    else if ident == "null" || ident == "nil" then Ok((Lit(NullLit), rest))
    else if rest != "" && rest[0] == '(' then ParseCall(ident, rest[1..])
    else PathTail([ident], rest)
  }

  function PathTail(path: seq<string>, s: string): (r: Parse)
    ensures r.Ok? ==> |r.value.1| <= |s|
    decreases |s|
  {
    if s != "" && s[0] == '.' then
      var (next, rest) := SplitIdent(s[1..]);
      if next == "" then Err else PathTail(path + [next], rest)
    else Ok((Ref(path), s))
  }

  /** Arguments of a call whose opening parenthesis has been read. */
  function ParseCall(name: string, s: string): (r: Parse)
    decreases |s|, 22
    ensures r.Ok? ==> |r.value.1| <= |s|
  {
    var t := SkipBlanks(s);
    if t != "" && t[0] == ')' then Ok((Call(name, []), t[1..]))
    else
      var (args, rest) :- Arguments([], t);
      var u := SkipBlanks(rest);
      if u == "" || u[0] != ')' then Err else Ok((Call(name, args), u[1..]))
  }

  function Arguments(args: seq<Expr>, s: string): (r: Result<(seq<Expr>, string)>)
    decreases |s|, 21
    ensures r.Ok? ==> |r.value.1| < |s|
  {
    var (arg, r0) :- ParseLevel(0, SkipBlanks(s));
    var r1 := SkipBlanks(r0);
    if r1 != "" && r1[0] == ',' then Arguments(args + [arg], r1[1..])
    else Ok((args + [arg], r1))
  }

  /** ParseExpression: the tree at the start of the text. What follows it is ignored. */
  function ParseExpression(s: string): Result<Expr> {
    var (e, _) :- ParseLevel(0, s);
    Ok(e)
  }

  lemma SkippedTwice(s: string)
    ensures SkipBlanks(SkipBlanks(s)) == SkipBlanks(s)
  {
  }

  lemma PrimarySkipsBlanks(s: string)
    ensures ParsePrimary(SkipBlanks(s)) == ParsePrimary(s)
  {
    SkippedTwice(s);
    hide SkipBlanks;
    hide ParseLevel;
    hide StringBody;
    hide ParseNumber;
    hide ParseRef;
  }
}
