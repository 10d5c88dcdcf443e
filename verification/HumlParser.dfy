/** The recursive-descent parser object of internal/huml/parser.go, proved against HumlSyntax. */
module HumlParser {
  import opened Prelude
  import opened HumlAst
  import opened Tokens
  import opened ExprSyntax
  import opened HumlSyntax
  import ExprParser

  class Parser {
    const tokens: seq<Token>
    var pos: nat

    constructor (tokens: seq<Token>)
      ensures this.tokens == tokens && pos == 0
    {
      this.tokens := tokens;
      pos := 0;
    }

    ghost predicate Valid()
      reads this
    {
      pos <= |tokens|
    }

    ghost function Rest(): seq<Token>
      reads this
      requires Valid()
    {
      tokens[pos..]
    }

    ghost predicate Agrees(r: Result<Node>, spec: NodeParse)
      reads this
    {
      Valid() && if spec.Ok? then r == Ok(spec.value.0) && Rest() == spec.value.1 else r.Err?
    }

    function Current(): Token
      reads this
    {
      if pos >= |tokens| then Token(EOF, "") else tokens[pos]
    }

    function PeekToken(): Token
      reads this
    {
      if pos + 1 >= |tokens| then Token(EOF, "") else tokens[pos + 1]
    }

    method Advance()
      requires Valid()
      modifies this`pos
      ensures Valid() && old(pos) <= pos
      ensures Rest() == if old(Rest()) == [] then [] else old(Rest())[1..]
    {
      if pos < |tokens| {
        pos := pos + 1;
      }
    }

    method ExpectToken(kind: Kind) returns (ok: bool)
      requires Valid() && kind != EOF
      modifies this`pos
      ensures Valid() && ok == Expect(kind, old(Rest())).Ok?
      ensures ok ==> Rest() == Expect(kind, old(Rest())).value && old(pos) < pos
    {
      if Current().kind != kind {
        return false;
      }
      Advance();
      return true;
    }

    method MatchIdentifier(name: string) returns (ok: bool)
      requires Valid()
      modifies this`pos
      ensures Valid() && ok == (old(Rest()) != [] && old(Rest())[0] == Token(IDENTIFIER, name))
      ensures ok ==> Rest() == old(Rest())[1..]
    {
      if Current().kind == IDENTIFIER && Current().value == name {
        Advance();
        return true;
      }
      return false;
    }

    method SkipNewlineTokens()
      requires Valid()
      modifies this`pos
      ensures Valid() && old(pos) <= pos && Rest() == SkipNewlines(old(Rest()))
    {
      while pos < |tokens| && Current().kind == NEWLINE
        invariant Valid() && old(pos) <= pos
        invariant SkipNewlines(Rest()) == SkipNewlines(old(Rest()))
        decreases |tokens| - pos
      {
        Advance();
      }
    }

    method Parse() returns (r: Result<WorkflowNode>)
      requires Valid()
      modifies this`pos
      ensures r == ParseWorkflow(old(Rest()))
    {
      SkipNewlineTokens();
      var isWorkflow := MatchIdentifier("workflow");
      if !isWorkflow {
        return Err;
      }
      var name := "";
      if Current().kind == STRING {
        name := Current().value;
        Advance();
      }
      var open := ExpectToken(BLOCK_START);
      if !open {
        return Err;
      }
      var body := ParseBody();
      if body.Err? {
        return Err;
      }
      var close := ExpectToken(BLOCK_END);
      if !close {
        return Err;
      }
      return Ok(WorkflowNode(name, body.value));
    }

    method ParseBody() returns (r: Result<seq<Node>>)
      requires Valid()
      modifies this`pos
      ensures Valid() && r.Ok? == Statements(SkipNewlines(old(Rest()))).Ok?
      ensures r.Ok? ==> Statements(SkipNewlines(old(Rest()))) == Ok((r.value, Rest())) && old(pos) <= pos
      decreases |tokens| - pos, 3
    {
      var nodes := [];
      SkipNewlineTokens();
      ghost var spec := Statements(Rest());
      PrependMore([], [], spec);
      while pos < |tokens| && Current().kind != BLOCK_END && Current().kind != EOF
        invariant Valid() && old(pos) <= pos && spec == Prepend(nodes, Statements(Rest()))
        decreases |tokens| - pos
      {
        ghost var rest := Rest();
        var node := ParseStatementNode();
        if node.Err? {
          return Err;
        }
        SkipNewlineTokens();
        PrependMore(nodes, if node.value.Some? then [node.value.value] else [], Statements(Rest()));
        if node.value.Some? {
          nodes := nodes + [node.value.value];
        } else {
          assert nodes + [] == nodes;
        }
      }
      assert nodes + [] == nodes;
      return Ok(nodes);
    }

    method ParseStatementNode() returns (r: Result<Option<Node>>)
      requires Valid() && Rest() != []
      modifies this`pos
      ensures Valid() && r.Ok? == ParseStatement(old(Rest())).Ok?
      ensures r.Ok? ==> ParseStatement(old(Rest())) == Ok((r.value, Rest())) && old(pos) < pos
      decreases |tokens| - pos, 2
    {
      var tok := Current();
      if tok.kind == IDENTIFIER {
        var next := PeekToken();
        if IsBlockKeyword(tok.value) {
          var block := ParseBlock();
          return if block.Ok? then Ok(Some(block.value)) else Err;
        }
        if next.kind == ASSIGN {
          var assign := ParseAssignment();
          return if assign.Ok? then Ok(Some(assign.value)) else Err;
        }
        Advance();
        return Ok(Some(IdentifierNode(tok.value)));
      }
      Advance();
      return Ok(None);
    }

    method ParseBlock() returns (r: Result<Node>)
      requires Valid() && Rest() != [] && Rest()[0].kind == IDENTIFIER && IsBlockKeyword(Rest()[0].value)
      modifies this`pos
      ensures Valid() && r.Ok? == ParseStatement(old(Rest())).Ok?
      ensures r.Ok? ==> ParseStatement(old(Rest())) == Ok((Some(r.value), Rest())) && old(pos) < pos
      decreases |tokens| - pos, 1
    {
      var blockType := Current().value;
      Advance();
      var name := "";
      if Current().kind == STRING {
        name := Current().value;
        Advance();
      }
      var open := ExpectToken(BLOCK_START);
      if !open {
        return Err;
      }
      var body := ParseBody();
      if body.Err? {
        return Err;
      }
      var close := ExpectToken(BLOCK_END);
      if !close {
        return Err;
      }
      return Ok(BlockNode(blockType, name, body.value));
    }

    method ParseAssignment() returns (r: Result<Node>)
      requires Valid() && |Rest()| > 1 && Rest()[0].kind == IDENTIFIER && Rest()[1].kind == ASSIGN
      requires !IsBlockKeyword(Rest()[0].value)
      modifies this`pos
      ensures Valid() && r.Ok? == ParseStatement(old(Rest())).Ok?
      ensures r.Ok? ==> ParseStatement(old(Rest())) == Ok((Some(r.value), Rest())) && old(pos) < pos
      decreases |tokens| - pos, 1
    {
      var key := Current().value;
      Advance();
      Advance();
      assert Rest() == old(Rest())[2..];
      var value := ParseValueNode();
      if value.Err? {
        return Err;
      }
      return Ok(AssignNode(key, value.value));
    }

    method ParseValueNode() returns (r: Result<Node>)
      requires Valid()
      modifies this`pos
      ensures Agrees(r, ParseValue(old(Rest())))
      decreases |tokens| - pos, 1
    {
      var tok := Current();
      match tok.kind {
        case STRING =>
          Advance();
          return Ok(StringNode(tok.value));
        case NUMBER =>
          Advance();
          return Ok(NumberNode(tok.value));
        case BOOL =>
          Advance();
          return Ok(BoolNode(tok.value == "true"));
        case NULL =>
          Advance();
          return Ok(NullNode);
        case EXPRESSION =>
          Advance();
          var expr := ExprParser.ParseExpressionText(tok.value);
          if expr.Err? {
            return Err;
          }
          return Ok(ExpressionNode(tok.value, expr.value));
        case LIST_START =>
          r := ParseList();
        case IDENTIFIER =>
          Advance();
          return Ok(IdentifierNode(tok.value));
        case _ =>
          return Err;
      }
    }

    method ParseList() returns (r: Result<Node>)
      requires Valid() && Rest() != [] && Rest()[0].kind == LIST_START
      modifies this`pos
      ensures Agrees(r, ParseValue(old(Rest())))
      decreases |tokens| - pos, 0
    {
      hide ParseExpression;
      hide SkipNewlines;
      Advance();
      var items := [];
      SkipNewlineTokens();
      ghost var spec := Items(Rest());
      PrependMore([], [], spec);
      while Current().kind != LIST_END && Current().kind != EOF
        invariant Valid() && old(pos) < pos && spec == Prepend(items, Items(Rest()))
        decreases |tokens| - pos
      {
        var item := ParseValueNode();
        if item.Err? {
          return Err;
        }
        SkipNewlineTokens();
        if Current().kind == COMMA {
          Advance();
          SkipNewlineTokens();
        }
        PrependMore(items, [item.value], Items(Rest()));
        items := items + [item.value];
      }
      assert items + [] == items;
      var close := ExpectToken(LIST_END);
      if !close {
        return Err;
      }
      return Ok(ListNode(items));
    }
  }

  method ParseTokens(tokens: seq<Token>) returns (r: Result<WorkflowNode>)
    ensures r == ParseWorkflow(tokens)
  {
    var p := new Parser(tokens);
    assert tokens[0..] == tokens;
    r := p.Parse();
  }
}
