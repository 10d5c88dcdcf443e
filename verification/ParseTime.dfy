/** The expression that is checked when a definition is parsed is the expression that is run later. */
module ParseTime {
  import opened HumlAst
  import opened Tokens
  import opened TokenRoundTrip
  import opened HumlSyntax
  import opened SyntaxRoundTrip
  import opened Model
  import opened Convert
  import opened Evaluator
  import opened Templates

  /** x is n or stands inside it. */
  predicate Occurs(x: Node, n: Node)
    decreases n, 0
  {
    x == n ||
    match n
    case AssignNode(_, value) => Occurs(x, value)
    case BlockNode(_, _, body) => OccursInAny(x, body)
    case ListNode(items) => OccursInAny(x, items)
    case _ => false
  }

  predicate OccursInAny(x: Node, ns: seq<Node>)
    decreases ns, 1
  {
    ns != [] && (Occurs(x, ns[0]) || OccursInAny(x, ns[1..]))
  }

  lemma {:induction false} OccursInValue(x: Node, n: Node)
    requires PrintableValue(n) && Occurs(x, n)
    ensures PrintableValue(x)
    decreases n, 0
  {
    if n.ListNode? && x != n {
      OccursInItems(x, n.items);
    }
  }

  lemma {:induction false} OccursInItems(x: Node, items: seq<Node>)
    requires PrintableItems(items) && OccursInAny(x, items)
    ensures PrintableValue(x)
    decreases items, 1
  {
    if Occurs(x, items[0]) {
      OccursInValue(x, items[0]);
    } else {
      OccursInItems(x, items[1..]);
    }
  }

  lemma {:induction false} OccursInStatement(x: Node, n: Node)
    requires PrintableStatement(n) && Occurs(x, n) && x.ExpressionNode?
    ensures PrintableValue(x)
    decreases n, 0
  {
    match n
    case AssignNode(_, value) => OccursInValue(x, value);
    case BlockNode(_, _, body) => OccursInBody(x, body);
    case _ =>
  }

  lemma {:induction false} OccursInBody(x: Node, body: seq<Node>)
    requires PrintableBody(body) && OccursInAny(x, body) && x.ExpressionNode?
    ensures PrintableValue(x)
    decreases body, 1
  {
    if Occurs(x, body[0]) {
      OccursInStatement(x, body[0]);
    } else {
      OccursInBody(x, body[1..]);
    }
  }

  /**
   * For every expression node of a parsed source: the string it is converted to evaluates, at run time, to exactly
   * the formatted value of the tree that was built at parse time, or fails exactly when that tree does.
   */
  lemma {:induction false} ParseTimeIsRunTime(
      lib: Library, format: NodeFormat, source: string, x: Node, ctx: EvalContext)
    requires Lex(source).Ok? && ParseWorkflow(Lex(source).value).Ok?
    requires OccursInAny(x, ParseWorkflow(Lex(source).value).value.body) && x.ExpressionNode?
    ensures EvaluateString(lib, NodeToString(format, x), ctx) == FormatResult(lib, Evaluate(lib, x.expr, ctx))
    ensures NodeToAny(x) == StringValue(NodeToString(format, x))
  {
    LexedIsStream(source);
    ParsedWorkflowIsPrintable(Lex(source).value);
    OccursInBody(x, ParseWorkflow(Lex(source).value).value.body);
    WholeExpression(lib, x.raw, ctx);
  }
}
