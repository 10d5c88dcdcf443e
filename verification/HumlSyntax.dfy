/** The HUML grammar of internal/huml/parser.go as a function on the tokens that are still unread. */
module HumlSyntax {
  import opened Prelude
  import opened HumlAst
  import opened Tokens
  import opened ExprSyntax

  type NodeParse = Result<(Node, seq<Token>)>

  predicate IsBlockKeyword(s: string) {
    s == "step" || s == "input" || s == "approval" || s == "retry" || s == "compensation" || s == "workflow"
  }

  /** The kind of the next token; past the end it is EOF. */
  function CurrentKind(ts: seq<Token>): Kind {
    if ts == [] then EOF else ts[0].kind
  }

  function SkipNewlines(ts: seq<Token>): (r: seq<Token>)
    ensures |r| <= |ts|
  {
    if CurrentKind(ts) == NEWLINE then SkipNewlines(ts[1..]) else ts
  }

  function Expect(kind: Kind, ts: seq<Token>): (r: Result<seq<Token>>)
    ensures r.Ok? ==> |r.value| < |ts|
  {
    if ts != [] && ts[0].kind == kind then Ok(ts[1..]) else Err
  }

  /** The quoted name a block may carry; a block without one has the empty name. */
  function BlockName(ts: seq<Token>): (r: (string, seq<Token>))
    ensures |r.1| <= |ts|
  {
    if CurrentKind(ts) == STRING then (ts[0].value, ts[1..]) else ("", ts)
  }

  function ParseWorkflow(ts: seq<Token>): Result<WorkflowNode> {
    var t := SkipNewlines(ts);
    if t == [] || t[0] != Token(IDENTIFIER, "workflow") then Err
    else
      var (name, body, _) :- NamedBody(t[1..]);
      Ok(WorkflowNode(name, body))
  }

  /** An optional name and a body in braces. */
  function NamedBody(ts: seq<Token>): (r: Result<(string, seq<Node>, seq<Token>)>)
    ensures r.Ok? ==> |r.value.2| < |ts|
    decreases |ts|, 4
  {
    var (name, t0) := BlockName(ts);
    var t1 :- Expect(BLOCK_START, t0);
    var (body, t2) :- Statements(SkipNewlines(t1));
    var t3 :- Expect(BLOCK_END, t2);
    Ok((name, body, t3))
  }

  function Statements(ts: seq<Token>): (r: Result<(seq<Node>, seq<Token>)>)
    ensures r.Ok? ==> |r.value.1| <= |ts|
    decreases |ts|, 3
  {
    if CurrentKind(ts) == BLOCK_END || CurrentKind(ts) == EOF then Ok(([], ts))
    else
      var (node, rest) :- ParseStatement(ts);
      var (nodes, rest') :- Statements(SkipNewlines(rest));
      Ok(((if node.Some? then [node.value] else []) + nodes, rest'))
  }

  /** One statement. A token that starts none is dropped. */
  function ParseStatement(ts: seq<Token>): (r: Result<(Option<Node>, seq<Token>)>)
    requires ts != []
    ensures r.Ok? ==> |r.value.1| < |ts|
    decreases |ts|, 2
  {
    if ts[0].kind != IDENTIFIER then Ok((None, ts[1..]))
    else if IsBlockKeyword(ts[0].value) then
      var (name, body, rest) :- NamedBody(ts[1..]);
      Ok((Some(BlockNode(ts[0].value, name, body)), rest))
    else if |ts| > 1 && ts[1].kind == ASSIGN then
      var (value, rest) :- ParseValue(ts[2..]);
      Ok((Some(AssignNode(ts[0].value, value)), rest))
    else Ok((Some(IdentifierNode(ts[0].value)), ts[1..]))
  }

  function ParseValue(ts: seq<Token>): (r: NodeParse)
    ensures r.Ok? ==> |r.value.1| < |ts|
    decreases |ts|, 1
  {
    if ts == [] then Err
    else
      var rest := ts[1..];
      match ts[0].kind
      case STRING => Ok((StringNode(ts[0].value), rest))
      case NUMBER => Ok((NumberNode(ts[0].value), rest))
      case BOOL => Ok((BoolNode(ts[0].value == "true"), rest))
      case NULL => Ok((NullNode, rest))
      case EXPRESSION =>
        var expr :- ParseExpression(ts[0].value);
        Ok((ExpressionNode(ts[0].value, expr), rest))
      case LIST_START =>
        var (items, t) :- Items(SkipNewlines(rest));
        var t' :- Expect(LIST_END, t);
        Ok((ListNode(items), t'))
      case IDENTIFIER => Ok((IdentifierNode(ts[0].value), rest))
      case _ => Err
  }

  /** The items of a list. A comma between them is optional, and one after the last is allowed. */
  function Items(ts: seq<Token>): (r: Result<(seq<Node>, seq<Token>)>)
    ensures r.Ok? ==> |r.value.1| <= |ts|
    decreases |ts|, 2
  {
    if CurrentKind(ts) == LIST_END || CurrentKind(ts) == EOF then Ok(([], ts))
    else
      var (item, rest) :- ParseValue(ts);
      var (items, rest') :- Items(SkipSeparator(rest));
      Ok(([item] + items, rest'))
  }

  function SkipSeparator(ts: seq<Token>): (r: seq<Token>)
    ensures |r| <= |ts|
  {
    var t := SkipNewlines(ts);
    if CurrentKind(t) == COMMA then SkipNewlines(t[1..]) else t
  }
}
