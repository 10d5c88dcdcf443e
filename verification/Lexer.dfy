/** The lexer object of internal/huml/lexer.go, proved against the token function. */
module Lexer {
  import opened Prelude
  import opened HumlAst
  import opened Tokens

  class Lexer {
    const input: string
    var pos: nat
    var tokens: seq<Token>

    constructor (input: string)
      ensures this.input == input && pos == 0 && tokens == []
    {
      this.input := input;
      pos := 0;
      tokens := [];
    }

    ghost predicate Valid()
      reads this
    {
      pos <= |input|
    }

    ghost function Rest(): string
      reads this
      requires Valid()
    {
      input[pos..]
    }

    /** What the whole run yields if the unread text is lexed from here. */
    ghost function Outcome(): Lexed
      reads this
      requires Valid()
    {
      Emit(tokens, Lex(Rest()))
    }

    method Tokenize() returns (r: Lexed)
      requires Valid()
      modifies this
      ensures Valid() && r == old(Outcome())
    {
      while pos < |input|
        invariant Valid() && Outcome() == old(Outcome())
      {
        var ch := input[pos];
        var kind := Punctuation(ch);
        if ch == '#' {
          SkipComment();
        } else if ch == '\n' {
          EmitChar(NEWLINE);
        } else if ch == ' ' || ch == '\t' {
          Advance();
        } else if kind.Some? {
          EmitChar(kind.value);
        } else if ch == '"' {
          var ok := ReadString();
          if !ok {
            return Err;
          }
        } else if ch == '$' && Peek() == '{' {
          var ok := ReadExpression();
          if !ok {
            return Err;
          }
        } else if IsDigit(ch) || (ch == '-' && pos + 1 < |input| && IsDigit(input[pos + 1])) {
          ReadNumber();
        } else if IsLetter(ch) || ch == '_' {
          ReadIdentifier();
        } else {
          Advance();
        }
      }
      tokens := tokens + [Token(EOF, "")];
      return Ok(tokens);
    }

    function Peek(): char
      reads this
    {
      if pos + 1 < |input| then input[pos + 1] else '\0'
    }

    method Advance()
      requires Valid() && pos < |input|
      modifies this`pos
      ensures Valid() && pos == old(pos) + 1 && Rest() == old(Rest())[1..]
    {
      pos := pos + 1;
    }

    method EmitChar(kind: Kind)
      requires Valid() && pos < |input|
      requires Lex(Rest()) == Emit([Token(kind, [input[pos]])], Lex(Rest()[1..]))
      modifies this
      ensures Valid() && pos == old(pos) + 1 && Outcome() == old(Outcome())
    {
      EmitMore(tokens, [Token(kind, [input[pos]])], Lex(Rest()[1..]));
      tokens := tokens + [Token(kind, [input[pos]])];
      Advance();
    }

    method SkipComment()
      requires Valid()
      modifies this`pos
      ensures Valid() && old(pos) <= pos && Rest() == old(Rest())[Span(NotNewline, old(Rest()))..]
    {
      var start := pos;
      while pos < |input| && input[pos] != '\n'
        invariant start <= pos <= |input|
        invariant forall i :: start <= i < pos ==> input[i] != '\n'
      {
        pos := pos + 1;
      }
      SpanSplit(NotNewline, input[start..], pos - start);
      SliceOfSuffix(input, start, pos);
    }

    method ReadString() returns (ok: bool)
      requires Valid() && Rest() != "" && Rest()[0] == '"'
      modifies this
      ensures Valid() && ok == StringTail(old(Rest())[1..]).Ok?
      ensures ok ==> old(pos) < pos && Outcome() == old(Outcome())
    {
      hide Lex;
      LexString(Rest());
      Advance();
      ghost var tail := StringTail(Rest());
      var result := "";
      PrependMore("", "", tail);
      while pos < |input|
        invariant Valid() && old(pos) < pos && tokens == old(tokens)
        invariant tail == Prepend(result, StringTail(Rest()))
      {
        var ch := input[pos];
        ghost var rest := Rest();
        if ch == '\\' && pos + 1 < |input| {
          pos := pos + 1;
          var next := input[pos];
          PrependMore(result, Unescape(next), StringTail(rest[2..]));
          match next {
            case 'n' => result := result + "\n";
            case 't' => result := result + "\t";
            case '"' => result := result + "\"";
            case '\\' => result := result + "\\";
            case _ => result := result + ['\\', next];
          }
          pos := pos + 1;
          assert rest[2..] == Rest();
        } else if ch == '"' {
          Advance();
          assert tail == Ok((result, Rest())) by {
            assert result + "" == result;
          }
          EmitMore(tokens, [Token(STRING, result)], Lex(Rest()));
          tokens := tokens + [Token(STRING, result)];
          return true;
        } else {
          PrependMore(result, [ch], StringTail(rest[1..]));
          result := result + [ch];
          Advance();
        }
      }
      return false;
    }

    method ReadExpression() returns (ok: bool)
      requires Valid() && |Rest()| > 1 && Rest()[0] == '$' && Rest()[1] == '{'
      modifies this
      ensures Valid() && ok == BraceTail(old(Rest())[2..], 1).Ok?
      ensures ok ==> old(pos) < pos && Outcome() == old(Outcome())
    {
      ghost var before := Rest();
      LexExpression(before);
      hide Lex;
      hide BraceTail;
      Advance();
      Advance();
      assert Rest() == before[2..];
      ghost var tail := BraceTail(Rest(), 1);
      var depth := 1;
      var result := "";
      PrependMore("", "", tail);
      while pos < |input| && depth > 0
        invariant Valid() && old(pos) < pos && tokens == old(tokens) && depth > 0
        invariant tail == Prepend(result, BraceTail(Rest(), depth))
      {
        var ch := input[pos];
        BraceStep(Rest(), depth);
        if ch == '{' {
          depth := depth + 1;
        } else if ch == '}' {
          depth := depth - 1;
          if depth == 0 {
            Advance();
            assert tail == Ok((result, Rest())) by {
              assert result + "" == result;
            }
            EmitMore(tokens, [Token(EXPRESSION, result)], Lex(Rest()));
            tokens := tokens + [Token(EXPRESSION, result)];
            return true;
          }
        }
        PrependMore(result, [ch], BraceTail(Rest()[1..], depth));
        result := result + [ch];
        Advance();
      }
      BraceStep(Rest(), depth);
      return false;
    }

    /** Moves over a sign, digits and at most one dot. */
    method ScanNumber()
      requires Valid() && StartsNumber(Rest())
      modifies this`pos
      ensures Valid() && pos == old(pos) + NumberTokenLength(old(Rest()))
    {
      var start := pos;
      var hasDecimal := false;
      ghost var n := NumberTokenLength(Rest());
      if input[pos] == '-' {
        pos := pos + 1;
      }
      while pos < |input|
        invariant start <= pos <= |input|
        invariant n == pos - start + DigitsLength(input[pos..], hasDecimal)
      {
        var ch := input[pos];
        assert input[pos..][0] == ch && input[pos..][1..] == input[pos + 1..];
        if IsDigit(ch) {
          pos := pos + 1;
        } else if ch == '.' && !hasDecimal {
          hasDecimal := true;
          pos := pos + 1;
        } else {
          break;
        }
      }
    }

    method ReadNumber()
      requires Valid() && StartsNumber(Rest())
      modifies this
      ensures Valid() && old(pos) < pos && Outcome() == old(Outcome())
    {
      hide Lex;
      hide NumberTokenLength;
      hide StartsNumber;
      var start := pos;
      LexNumber(Rest());
      ScanNumber();
      SliceOfSuffix(input, start, pos);
      EmitMore(tokens, [Token(NUMBER, input[start..pos])], Lex(Rest()));
      tokens := tokens + [Token(NUMBER, input[start..pos])];
    }

    method ReadIdentifier()
      requires Valid() && Rest() != "" && IsLetter(Rest()[0])
      modifies this
      ensures Valid() && old(pos) < pos && Outcome() == old(Outcome())
    {
      var start := pos;
      while pos < |input| && (IsLetter(input[pos]) || IsDigit(input[pos]) || input[pos] == '_' || input[pos] == '-')
        invariant start <= pos <= |input| && tokens == old(tokens)
        invariant forall i :: start <= i < pos ==> IsIdentChar(input[i])
      {
        pos := pos + 1;
      }
      SpanSplit(IsIdentChar, input[start..], pos - start);
      SliceOfSuffix(input, start, pos);
      var value := input[start..pos];
      LexWord(input[start..], pos - start);
      hide Lex;
      EmitMore(tokens, [WordToken(value)], Lex(Rest()));
      if value == "true" || value == "false" {
        tokens := tokens + [Token(BOOL, value)];
      } else if value == "null" || value == "nil" {
        tokens := tokens + [Token(NULL, value)];
      } else {
        tokens := tokens + [Token(IDENTIFIER, value)];
      }
    }
  }

  lemma LexNumber(s: string)
    requires StartsNumber(s)
    ensures var n := NumberTokenLength(s); Lex(s) == Emit([Token(NUMBER, s[..n])], Lex(s[n..]))
  {
    hide NumberTokenLength;
    hide StringTail;
    hide BraceTail;
  }

  lemma LexWord(s: string, n: nat)
    requires s != "" && IsLetter(s[0]) && n == Span(IsIdentChar, s)
    ensures Lex(s) == Emit([WordToken(s[..n])], Lex(s[n..]))
  {
    hide WordToken;
    hide NumberTokenLength;
    hide StringTail;
    hide BraceTail;
    hide Span;
  }

  lemma LexString(s: string)
    requires s != "" && s[0] == '"'
    ensures Lex(s)
         == match StringTail(s[1..])
            case Err => Err
            case Ok(part) => Emit([Token(STRING, part.0)], Lex(part.1))
  {
    hide NumberTokenLength;
    hide StringTail;
    hide BraceTail;
  }

  lemma LexExpression(s: string)
    requires |s| > 1 && s[0] == '$' && s[1] == '{'
    ensures Lex(s) == match BraceTail(s[2..], 1)
                      case Err => Err
                      case Ok(part) => Emit([Token(EXPRESSION, part.0)], Lex(part.1))
  {
  }

  lemma BraceStep(s: string, depth: nat)
    requires depth > 0
    ensures s == "" ==> BraceTail(s, depth).Err?
    ensures s != "" && s[0] == '}' && depth == 1 ==> BraceTail(s, depth) == Ok(("", s[1..]))
    ensures s != "" && !(s[0] == '}' && depth == 1) ==>
              var inner := if s[0] == '{' then depth + 1 else if s[0] == '}' then depth - 1 else depth;
              BraceTail(s, depth) == Prepend([s[0]], BraceTail(s[1..], inner))
  {
  }

  lemma EmitMore(before: seq<Token>, more: seq<Token>, r: Lexed)
    ensures Emit(before + more, r) == Emit(before, Emit(more, r))
  {
    if r.Ok? {
      assert before + more + r.value == before + (more + r.value);
    }
  }

  method TokenizeText(input: string) returns (r: Lexed)
    ensures r == Lex(input)
  {
    var l := new Lexer(input);
    assert l.Outcome() == Lex(input) by {
      assert input[0..] == input;
      if Lex(input).Ok? {
        assert [] + Lex(input).value == Lex(input).value;
      }
    }
    r := l.Tokenize();
  }
}
