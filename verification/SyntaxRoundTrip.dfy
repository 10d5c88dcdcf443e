/** Writing a syntax tree back as tokens: the parser rebuilds exactly the tree that was written. */
module SyntaxRoundTrip {
  import opened Prelude
  import opened HumlAst
  import opened Tokens
  import opened TokenRoundTrip
  import opened ExprSyntax
  import opened HumlSyntax

  /** The trees the parser can build for a value. */
  predicate PrintableValue(n: Node) {
    match n
    case StringNode(_) => true
    case NumberNode(digits) => Renderable(Token(NUMBER, digits))
    case BoolNode(_) => true
    case NullNode => true
    case ListNode(items) => PrintableItems(items)
    case ExpressionNode(raw, expr) => Balanced(raw, 1) && ParseExpression(raw) == Ok(expr)
    case IdentifierNode(ident) => Renderable(Token(IDENTIFIER, ident))
    case _ => false
  }

  predicate PrintableItems(items: seq<Node>) {
    items == [] || (PrintableValue(items[0]) && PrintableItems(items[1..]))
  }

  /** A key that an assignment can have: an identifier that opens no block. */
  predicate IsKey(key: string) {
    Renderable(Token(IDENTIFIER, key)) && !IsBlockKeyword(key)
  }

  predicate PrintableStatement(n: Node) {
    match n
    case AssignNode(key, value) => IsKey(key) && PrintableValue(value)
    case BlockNode(kind, name, body) => IsBlockKeyword(kind) && PrintableBody(body)
    case IdentifierNode(ident) => IsKey(ident)
    case _ => false
  }

  predicate PrintableBody(body: seq<Node>) {
    body == [] || (PrintableStatement(body[0]) && PrintableBody(body[1..]))
  }

  function ValueTokens(n: Node): seq<Token>
    decreases n, 0
  {
    match n
    case StringNode(text) => [Token(STRING, text)]
    case NumberNode(digits) => [Token(NUMBER, digits)]
    case BoolNode(b) => [Token(BOOL, if b then "true" else "false")]
    case NullNode => [Token(NULL, "null")]
    case ListNode(items) => [Token(LIST_START, "[")] + ItemTokens(items)
    case ExpressionNode(raw, _) => [Token(EXPRESSION, raw)]
    case IdentifierNode(ident) => [Token(IDENTIFIER, ident)]
    case _ => []
  }

  /** The items of a list, each with its comma, and the closing bracket. */
  function ItemTokens(items: seq<Node>): seq<Token>
    decreases items, 1
  {
    if items == [] then [Token(LIST_END, "]")]
    else ValueTokens(items[0]) + ([Token(COMMA, ",")] + ItemTokens(items[1..]))
  }

  function StatementTokens(n: Node): seq<Token>
    decreases n, 0
  {
    match n
    case AssignNode(key, value) => [Token(IDENTIFIER, key)] + ([Token(ASSIGN, "=")] + ValueTokens(value))
    case BlockNode(kind, name, body) => [Token(IDENTIFIER, kind)] + BlockTokens(name, body)
    case IdentifierNode(ident) => [Token(IDENTIFIER, ident)]
    case _ => []
  }

  function BlockTokens(name: string, body: seq<Node>): seq<Token>
    decreases body, 2
  {
    [Token(STRING, name)] + ([Token(BLOCK_START, "{")] + ([Token(NEWLINE, "\n")] + BodyTokens(body)))
  }

  /** The statements of a body, each on its line, and the closing brace. */
  function BodyTokens(body: seq<Node>): seq<Token>
    decreases body, 1
  {
    if body == [] then [Token(BLOCK_END, "}")]
    else StatementTokens(body[0]) + ([Token(NEWLINE, "\n")] + BodyTokens(body[1..]))
  }

  function WorkflowTokens(w: WorkflowNode): seq<Token> {
    [Token(IDENTIFIER, "workflow")] + (BlockTokens(w.name, w.body) + ([Token(NEWLINE, "\n")] + [Token(EOF, "")]))
  }

  lemma {:induction false} ValueHead(n: Node, rest: seq<Token>)
    requires PrintableValue(n)
    ensures var ts := ValueTokens(n) + rest;
            ts != [] && ts[0].kind != LIST_END && ts[0].kind != EOF && ts[0].kind != NEWLINE
                && ts[0] == ValueTokens(n)[0]
  {
  }

  lemma {:induction false} ItemsHead(items: seq<Node>, rest: seq<Token>)
    requires PrintableItems(items)
    ensures SkipNewlines(ItemTokens(items) + rest) == ItemTokens(items) + rest
  {
    if items != [] {
      var tail := [Token(COMMA, ",")] + ItemTokens(items[1..]);
      Assoc(ValueTokens(items[0]), tail, rest);
      ValueHead(items[0], tail + rest);
    }
  }

  lemma {:induction false} ValueRoundTrip(n: Node, rest: seq<Token>)
    requires PrintableValue(n)
    ensures ParseValue(ValueTokens(n) + rest) == Ok((n, rest))
    decreases n, 0
  {
    hide Items;
    hide ParseValue;
    hide SkipNewlines;
    if n.ListNode? {
      Assoc([Token(LIST_START, "[")], ItemTokens(n.items), rest);
      ItemsHead(n.items, rest);
      ItemsRoundTrip(n.items, rest);
      ListRoundTrip(n.items, ItemTokens(n.items) + rest, rest);
    } else {
      AtomRoundTrip(n, rest);
    }
  }

  lemma {:induction false} ListRoundTrip(items: seq<Node>, inside: seq<Token>, rest: seq<Token>)
    requires Items(SkipNewlines(inside)) == Ok((items, [Token(LIST_END, "]")] + rest))
    ensures ParseValue([Token(LIST_START, "[")] + inside) == Ok((ListNode(items), rest))
  {
    hide Items;
    hide SkipNewlines;
    Head(Token(LIST_START, "["), inside);
    Head(Token(LIST_END, "]"), rest);
  }

  lemma {:induction false} AtomRoundTrip(n: Node, rest: seq<Token>)
    requires PrintableValue(n) && !n.ListNode?
    ensures ParseValue(ValueTokens(n) + rest) == Ok((n, rest))
  {
    hide Items;
    hide ParseExpression;
    Head(ValueTokens(n)[0], rest);
  }

  lemma {:induction false} ItemsRoundTrip(items: seq<Node>, rest: seq<Token>)
    requires PrintableItems(items)
    ensures Items(ItemTokens(items) + rest) == Ok((items, [Token(LIST_END, "]")] + rest))
    decreases items, 1
  {
    if items != [] {
      var more := ItemTokens(items[1..]) + rest;
      var tail := [Token(COMMA, ",")] + ItemTokens(items[1..]);
      Assoc(ValueTokens(items[0]), tail, rest);
      Assoc([Token(COMMA, ",")], ItemTokens(items[1..]), rest);
      Head(Token(COMMA, ","), more);
      ValueHead(items[0], tail + rest);
      ValueRoundTrip(items[0], tail + rest);
      ItemsHead(items[1..], rest);
      ItemsRoundTrip(items[1..], rest);
      assert [items[0]] + items[1..] == items;
    }
  }

  lemma {:induction false} StatementRoundTrip(n: Node, rest: seq<Token>)
    requires PrintableStatement(n) && CurrentKind(rest) == NEWLINE
    ensures StatementTokens(n) != [] && StatementTokens(n)[0].kind == IDENTIFIER
    ensures ParseStatement(StatementTokens(n) + rest) == Ok((Some(n), rest))
    decreases n, 0
  {
    match n
    case AssignNode(key, value) =>
      var tail := ValueTokens(value) + rest;
      Assoc([Token(IDENTIFIER, key)], [Token(ASSIGN, "=")] + ValueTokens(value), rest);
      Assoc([Token(ASSIGN, "=")], ValueTokens(value), rest);
      Head(Token(ASSIGN, "="), tail);
      Head(Token(IDENTIFIER, key), [Token(ASSIGN, "=")] + tail);
      assert ([Token(IDENTIFIER, key)] + ([Token(ASSIGN, "=")] + tail))[2..] == tail;
      ValueRoundTrip(value, rest);
    case BlockNode(kind, name, body) =>
      Assoc([Token(IDENTIFIER, kind)], BlockTokens(name, body), rest);
      Head(Token(IDENTIFIER, kind), BlockTokens(name, body) + rest);
      BlockRoundTrip(name, body, rest);
    case IdentifierNode(ident) =>
      Head(Token(IDENTIFIER, ident), rest);
  }

  lemma {:induction false} BlockRoundTrip(name: string, body: seq<Node>, rest: seq<Token>)
    requires PrintableBody(body)
    ensures NamedBody(BlockTokens(name, body) + rest) == Ok((name, body, rest))
    decreases body, 2
  {
    var inner := BodyTokens(body) + rest;
    var open := Token(BLOCK_START, "{");
    var line := Token(NEWLINE, "\n");
    Assoc([Token(STRING, name)], [open] + ([line] + BodyTokens(body)), rest);
    Assoc([open], [line] + BodyTokens(body), rest);
    Assoc([line], BodyTokens(body), rest);
    Head(Token(STRING, name), [open] + ([line] + inner));
    Head(open, [line] + inner);
    Head(line, inner);
    BodyHead(body, rest);
    BodyRoundTrip(body, rest);
    Head(Token(BLOCK_END, "}"), rest);
  }

  lemma {:induction false} BodyHead(body: seq<Node>, rest: seq<Token>)
    requires PrintableBody(body)
    ensures SkipNewlines(BodyTokens(body) + rest) == BodyTokens(body) + rest
  {
    if body != [] {
      var tail := [Token(NEWLINE, "\n")] + BodyTokens(body[1..]);
      Assoc(StatementTokens(body[0]), tail, rest);
      StatementHead(body[0], tail + rest);
    }
  }

  lemma {:induction false} StatementHead(n: Node, rest: seq<Token>)
    requires PrintableStatement(n)
    ensures StatementTokens(n) + rest != [] && (StatementTokens(n) + rest)[0].kind == IDENTIFIER
  {
  }

  lemma {:induction false} BodyRoundTrip(body: seq<Node>, rest: seq<Token>)
    requires PrintableBody(body)
    ensures Statements(BodyTokens(body) + rest) == Ok((body, [Token(BLOCK_END, "}")] + rest))
    decreases body, 1
  {
    if body != [] {
      var more := BodyTokens(body[1..]) + rest;
      var tail := [Token(NEWLINE, "\n")] + BodyTokens(body[1..]);
      Assoc(StatementTokens(body[0]), tail, rest);
      Assoc([Token(NEWLINE, "\n")], BodyTokens(body[1..]), rest);
      Head(Token(NEWLINE, "\n"), more);
      StatementHead(body[0], tail + rest);
      StatementRoundTrip(body[0], tail + rest);
      BodyHead(body[1..], rest);
      BodyRoundTrip(body[1..], rest);
      assert [body[0]] + body[1..] == body;
    }
  }

  /** The parser rebuilds every printable workflow tree from its tokens. */
  lemma {:induction false} WorkflowRoundTrip(w: WorkflowNode)
    requires PrintableBody(w.body)
    ensures ParseWorkflow(WorkflowTokens(w)) == Ok(w)
  {
    var rest := [Token(NEWLINE, "\n")] + [Token(EOF, "")];
    Head(Token(IDENTIFIER, "workflow"), BlockTokens(w.name, w.body) + rest);
    BlockRoundTrip(w.name, w.body, rest);
  }

  /** The tokens of a printable tree are a stream the lexer can produce. */
  lemma {:induction false} ValueStream(n: Node, rest: seq<Token>)
    requires PrintableValue(n) && IsStream(rest)
    ensures IsStream(ValueTokens(n) + rest)
    decreases n, 0
  {
    if n.ListNode? {
      Assoc([Token(LIST_START, "[")], ItemTokens(n.items), rest);
      ItemsStream(n.items, rest);
      ConsStream(Token(LIST_START, "["), ItemTokens(n.items) + rest);
    } else {
      AtomStream(n, rest);
    }
  }

  lemma {:induction false} AtomStream(n: Node, rest: seq<Token>)
    requires PrintableValue(n) && !n.ListNode? && IsStream(rest)
    ensures IsStream(ValueTokens(n) + rest)
  {
    ConsStream(ValueTokens(n)[0], rest);
    hide IsStream;
  }

  lemma {:induction false} ConsStream(t: Token, rest: seq<Token>)
    requires Renderable(t) && IsStream(rest)
    ensures IsStream([t] + rest)
  {
    Head(t, rest);
  }

  lemma {:induction false} ItemsStream(items: seq<Node>, rest: seq<Token>)
    requires PrintableItems(items) && IsStream(rest)
    ensures IsStream(ItemTokens(items) + rest)
    decreases items, 1
  {
    hide IsStream;
    hide PrintableValue;
    if items == [] {
      ConsStream(Token(LIST_END, "]"), rest);
    } else {
      var tail := [Token(COMMA, ",")] + ItemTokens(items[1..]);
      Assoc(ValueTokens(items[0]), tail, rest);
      Assoc([Token(COMMA, ",")], ItemTokens(items[1..]), rest);
      ItemsStream(items[1..], rest);
      ConsStream(Token(COMMA, ","), ItemTokens(items[1..]) + rest);
      ValueStream(items[0], tail + rest);
    }
  }

  lemma {:induction false} StatementStream(n: Node, rest: seq<Token>)
    requires PrintableStatement(n) && IsStream(rest)
    ensures IsStream(StatementTokens(n) + rest)
    decreases n, 0
  {
    hide IsStream;
    hide ValueTokens;
    hide BlockTokens;
    match n
    case AssignNode(key, value) =>
      Assoc([Token(IDENTIFIER, key)], [Token(ASSIGN, "=")] + ValueTokens(value), rest);
      Assoc([Token(ASSIGN, "=")], ValueTokens(value), rest);
      ValueStream(value, rest);
      ConsStream(Token(ASSIGN, "="), ValueTokens(value) + rest);
      ConsStream(Token(IDENTIFIER, key), [Token(ASSIGN, "=")] + (ValueTokens(value) + rest));
    case BlockNode(kind, name, body) =>
      Assoc([Token(IDENTIFIER, kind)], BlockTokens(name, body), rest);
      BlockStream(name, body, rest);
      ConsStream(Token(IDENTIFIER, kind), BlockTokens(name, body) + rest);
    case IdentifierNode(ident) =>
      ConsStream(Token(IDENTIFIER, ident), rest);
  }

  lemma {:induction false} BlockStream(name: string, body: seq<Node>, rest: seq<Token>)
    requires PrintableBody(body) && IsStream(rest)
    ensures IsStream(BlockTokens(name, body) + rest)
    decreases body, 2
  {
    var open := Token(BLOCK_START, "{");
    var line := Token(NEWLINE, "\n");
    Assoc([Token(STRING, name)], [open] + ([line] + BodyTokens(body)), rest);
    Assoc([open], [line] + BodyTokens(body), rest);
    Assoc([line], BodyTokens(body), rest);
    BodyStream(body, rest);
    ConsStream(line, BodyTokens(body) + rest);
    ConsStream(open, [line] + (BodyTokens(body) + rest));
    ConsStream(Token(STRING, name), [open] + ([line] + (BodyTokens(body) + rest)));
  }

  lemma {:induction false} BodyStream(body: seq<Node>, rest: seq<Token>)
    requires PrintableBody(body) && IsStream(rest)
    ensures IsStream(BodyTokens(body) + rest)
    decreases body, 1
  {
    if body == [] {
      ConsStream(Token(BLOCK_END, "}"), rest);
    } else {
      var tail := [Token(NEWLINE, "\n")] + BodyTokens(body[1..]);
      Assoc(StatementTokens(body[0]), tail, rest);
      Assoc([Token(NEWLINE, "\n")], BodyTokens(body[1..]), rest);
      BodyStream(body[1..], rest);
      ConsStream(Token(NEWLINE, "\n"), BodyTokens(body[1..]) + rest);
      StatementStream(body[0], tail + rest);
    }
  }

  lemma WorkflowWord()
    ensures Renderable(Token(IDENTIFIER, "workflow")) && Renderable(Token(NEWLINE, "\n"))
  {
  }

  lemma {:induction false} WorkflowStream(w: WorkflowNode)
    requires PrintableBody(w.body)
    ensures IsStream(WorkflowTokens(w))
  {
    var rest := [Token(NEWLINE, "\n")] + [Token(EOF, "")];
    assert IsStream([Token(EOF, "")]);
    WorkflowWord();
    hide Renderable;
    hide IsStream;
    hide PrintableBody;
    hide BlockTokens;
    ConsStream(Token(NEWLINE, "\n"), [Token(EOF, "")]);
    BlockStream(w.name, w.body, rest);
    ConsStream(Token(IDENTIFIER, "workflow"), BlockTokens(w.name, w.body) + rest);
  }

  /** Tokens as the lexer hands them over: renderable ones and end markers. */
  predicate AllLexed(ts: seq<Token>) {
    ts == [] || ((ts[0].kind == EOF || Renderable(ts[0])) && AllLexed(ts[1..]))
  }

  lemma {:induction false} StreamIsLexed(ts: seq<Token>)
    requires IsStream(ts)
    ensures AllLexed(ts)
  {
    if |ts| > 1 {
      StreamIsLexed(ts[1..]);
    } else {
      assert ts[1..] == [];
    }
  }

  lemma {:induction false} SkipNewlinesLexed(ts: seq<Token>)
    requires AllLexed(ts)
    ensures AllLexed(SkipNewlines(ts))
  {
    if CurrentKind(ts) == NEWLINE {
      SkipNewlinesLexed(ts[1..]);
    }
  }

  /** Conversely, whatever the parser builds from lexed tokens is printable. */
  lemma {:induction false} ParsedValueIsPrintable(ts: seq<Token>)
    requires AllLexed(ts) && ParseValue(ts).Ok?
    ensures PrintableValue(ParseValue(ts).value.0) && AllLexed(ParseValue(ts).value.1)
    decreases |ts|, 1
  {
    if ts[0].kind == LIST_START {
      SkipNewlinesLexed(ts[1..]);
      ParsedItemsArePrintable(SkipNewlines(ts[1..]));
    }
  }

  lemma {:induction false} ParsedItemsArePrintable(ts: seq<Token>)
    requires AllLexed(ts) && Items(ts).Ok?
    ensures PrintableItems(Items(ts).value.0) && AllLexed(Items(ts).value.1)
    decreases |ts|, 2
  {
    if CurrentKind(ts) != LIST_END && CurrentKind(ts) != EOF {
      ParsedValueIsPrintable(ts);
      var (item, rest) := ParseValue(ts).value;
      var t := SkipNewlines(rest);
      SkipNewlinesLexed(rest);
      if CurrentKind(t) == COMMA {
        SkipNewlinesLexed(t[1..]);
      }
      ParsedItemsArePrintable(SkipSeparator(rest));
      Head(item, Items(SkipSeparator(rest)).value.0);
    }
  }

  lemma {:induction false} ParsedStatementIsPrintable(ts: seq<Token>)
    requires AllLexed(ts) && ts != [] && ParseStatement(ts).Ok?
    ensures ParseStatement(ts).value.0.Some? ==> PrintableStatement(ParseStatement(ts).value.0.value)
    ensures AllLexed(ParseStatement(ts).value.1)
    decreases |ts|, 2
  {
    if ts[0].kind == IDENTIFIER {
      if IsBlockKeyword(ts[0].value) {
        ParsedBlockIsPrintable(ts[1..]);
      } else if |ts| > 1 && ts[1].kind == ASSIGN {
        assert ts[1..][1..] == ts[2..];
        ParsedValueIsPrintable(ts[2..]);
      }
    }
  }

  lemma {:induction false} ParsedBlockIsPrintable(ts: seq<Token>)
    requires AllLexed(ts) && NamedBody(ts).Ok?
    ensures PrintableBody(NamedBody(ts).value.1) && AllLexed(NamedBody(ts).value.2)
    decreases |ts|, 4
  {
    var t0 := BlockName(ts).1;
    var t1 := SkipNewlines(t0[1..]);
    SkipNewlinesLexed(t0[1..]);
    ParsedBodyIsPrintable(t1);
  }

  lemma {:induction false} ParsedBodyIsPrintable(ts: seq<Token>)
    requires AllLexed(ts) && Statements(ts).Ok?
    ensures PrintableBody(Statements(ts).value.0) && AllLexed(Statements(ts).value.1)
    decreases |ts|, 3
  {
    if CurrentKind(ts) != BLOCK_END && CurrentKind(ts) != EOF {
      ParsedStatementIsPrintable(ts);
      var (node, rest) := ParseStatement(ts).value;
      SkipNewlinesLexed(rest);
      ParsedBodyIsPrintable(SkipNewlines(rest));
      var nodes := Statements(SkipNewlines(rest)).value.0;
      if node.Some? {
        Head(node.value, nodes);
      } else {
        assert [] + nodes == nodes;
      }
    }
  }

  lemma {:induction false} ParsedWorkflowIsPrintable(ts: seq<Token>)
    requires IsStream(ts) && ParseWorkflow(ts).Ok?
    ensures PrintableBody(ParseWorkflow(ts).value.body)
  {
    StreamIsLexed(ts);
    SkipNewlinesLexed(ts);
    ParsedBlockIsPrintable(SkipNewlines(ts)[1..]);
  }
}
