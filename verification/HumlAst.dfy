/** Syntax trees of the HUML front end and the character classes its scanners use. */
module HumlAst {

  /** The dynamic value of a LiteralExpr. A number keeps the text it was parsed from. */
  datatype Literal = NullLit | BoolLit(b: bool) | StringLit(s: string) | NumberLit(text: string)

  datatype Expr =
    | Ref(path: seq<string>)
    | Lit(value: Literal)
    | Binary(op: string, left: Expr, right: Expr)
    | Unary(op: string, operand: Expr)
    | Call(name: string, args: seq<Expr>)
    | Cond(cond: Expr, thn: Expr, els: Expr)
    | Index(obj: Expr, idx: Expr)

  datatype Node =
    | AssignNode(key: string, value: Node)
    | BlockNode(kind: string, name: string, body: seq<Node>)
    | StringNode(text: string)
    | NumberNode(digits: string)
    | BoolNode(b: bool)
    | NullNode
    | ListNode(items: seq<Node>)
    | ExpressionNode(raw: string, expr: Expr)
    | IdentifierNode(ident: string)

  datatype WorkflowNode = WorkflowNode(name: string, body: seq<Node>)

  predicate IsDigit(c: char) {
    '0' <= c <= '9'
  }

  predicate IsLetter(c: char) {
    'a' <= c <= 'z' || 'A' <= c <= 'Z' || c == '_'
  }

  /** A number starts here: a digit, or a minus sign before a digit. */
  predicate StartsNumber(s: string) {
    s != "" && (IsDigit(s[0]) || (s[0] == '-' && |s| > 1 && IsDigit(s[1])))
  }

  /** The four words that read as literals wherever an identifier could stand. */
  predicate IsLiteralWord(s: string) {
    s == "true" || s == "false" || s == "null" || s == "nil"
  }

  /** The length of the longest prefix of s whose characters satisfy p. */
  function Span(p: char -> bool, s: string): (n: nat)
    ensures n <= |s|
    ensures forall i :: 0 <= i < n ==> p(s[i])
    ensures n < |s| ==> !p(s[n])
  {
    if s != "" && p(s[0]) then 1 + Span(p, s[1..]) else 0
  }

  lemma {:induction false} SpanExact(p: char -> bool, s: string, rest: string)
    requires forall i :: 0 <= i < |s| ==> p(s[i])
    requires rest != "" ==> !p(rest[0])
    ensures Span(p, s + rest) == |s|
  {
    if s == "" {
      assert s + rest == rest;
    } else {
      assert (s + rest)[1..] == s[1..] + rest;
      SpanExact(p, s[1..], rest);
    }
  }

  /** The span is the first n characters when they satisfy p and the next one does not. */
  lemma SpanSplit(p: char -> bool, s: string, n: nat)
    requires n <= |s| && (forall i :: 0 <= i < n ==> p(s[i])) && (n < |s| ==> !p(s[n]))
    ensures Span(p, s) == n
  {
    assert s[..n] + s[n..] == s;
    SpanExact(p, s[..n], s[n..]);
  }

  lemma {:induction false} SpanOfPrefix(p: char -> bool, s: string)
    ensures Span(p, s[..Span(p, s)]) == Span(p, s)
  {
    var n := Span(p, s);
    if n > 0 {
      SpanOfPrefix(p, s[1..]);
      assert s[..n][1..] == s[1..][..n - 1];
    }
  }
}
