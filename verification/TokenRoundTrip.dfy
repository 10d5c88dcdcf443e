/** Writing tokens back as text: the lexer reads exactly the tokens that were written. */
module TokenRoundTrip {
  import opened Prelude
  import opened HumlAst
  import opened Tokens

  /** The braces of s, entered at this depth, close no earlier than at its end, one level above zero. */
  predicate Balanced(s: string, depth: nat)
    requires depth > 0
  {
    if s == "" then depth == 1
    else if s[0] == '{' then Balanced(s[1..], depth + 1)
    else if s[0] == '}' then depth > 1 && Balanced(s[1..], depth - 1)
    else Balanced(s[1..], depth)
  }

  predicate AllIdentChars(s: string) {
    forall i :: 0 <= i < |s| ==> IsIdentChar(s[i])
  }

  predicate IsWord(s: string) {
    s != "" && IsLetter(s[0]) && AllIdentChars(s)
  }

  /** The tokens the lexer can produce before the end of the text. */
  predicate Renderable(t: Token) {
    match t.kind
    case EOF => false
    case NEWLINE => t.value == "\n"
    case IDENTIFIER => IsWord(t.value) && !IsLiteralWord(t.value)
    case STRING => true
    case NUMBER => StartsNumber(t.value) && NumberTokenLength(t.value) == |t.value|
    case BOOL => t.value == "true" || t.value == "false"
    case NULL => t.value == "null" || t.value == "nil"
    case EXPRESSION => Balanced(t.value, 1)
    case _ => |t.value| == 1 && Punctuation(t.value[0]) == Some(t.kind)
  }

  /** A whole lexer output: renderable tokens, then the end marker. */
  predicate IsStream(ts: seq<Token>) {
    ts != [] && if |ts| == 1 then ts[0] == Token(EOF, "") else Renderable(ts[0]) && IsStream(ts[1..])
  }

  function Render(t: Token): string {
    if t.kind == STRING then "\"" + (EscapeString(t.value) + "\"")
    else if t.kind == EXPRESSION then "${" + (t.value + "}")
    else t.value
  }

  function EscapeString(s: string): string {
    if s == "" then "" else EscapeChar(s[0]) + EscapeString(s[1..])
  }

  function EscapeChar(c: char): string {
    if c == '\n' then "\\n" else if c == '\t' then "\\t" else if c == '"' then "\\\"" else if c == '\\' then "\\\\"
    else [c]
  }

  /** The tokens, each followed by a blank; the end marker leaves no text. */
  function RenderAll(ts: seq<Token>): string {
    if |ts| <= 1 then "" else Render(ts[0]) + (" " + RenderAll(ts[1..]))
  }

  lemma {:induction false} StringTailRoundTrip(s: string, rest: string)
    ensures StringTail(EscapeString(s) + ("\"" + rest)) == Ok((s, rest))
  {
    if s == "" {
      assert "" + ("\"" + rest) == "\"" + rest;
      Head('"', rest);
    } else {
      var tail := EscapeString(s[1..]) + ("\"" + rest);
      StringTailRoundTrip(s[1..], rest);
      Assoc(EscapeChar(s[0]), EscapeString(s[1..]), "\"" + rest);
      EscapedCharRoundTrip(s[0], tail);
      assert [s[0]] + s[1..] == s;
    }
  }

  lemma {:induction false} EscapedCharRoundTrip(c: char, tail: string)
    requires StringTail(tail).Ok?
    ensures StringTail(EscapeChar(c) + tail) == Ok(([c] + StringTail(tail).value.0, StringTail(tail).value.1))
  {
    var text := EscapeChar(c) + tail;
    assert text[0] == EscapeChar(c)[0];
    if |EscapeChar(c)| == 2 {
      assert text[1] == EscapeChar(c)[1] && text[2..] == tail;
    } else {
      assert text[1..] == tail;
    }
  }

  lemma {:induction false} BraceTailRoundTrip(s: string, depth: nat, rest: string)
    requires depth > 0 && Balanced(s, depth)
    ensures BraceTail(s + ("}" + rest), depth) == Ok((s, rest))
    decreases |s|
  {
    if s == "" {
      assert "" + ("}" + rest) == "}" + rest;
      Head('}', rest);
    } else {
      BraceTailRoundTrip(s[1..], if s[0] == '{' then depth + 1 else if s[0] == '}' then depth - 1 else depth, rest);
      assert (s + ("}" + rest))[1..] == s[1..] + ("}" + rest);
      assert [s[0]] + s[1..] == s;
    }
  }

  lemma {:induction false} DigitsRoundTrip(s: string, hasDecimal: bool, rest: string)
    requires DigitsLength(s, hasDecimal) == |s|
    requires rest != "" ==> !IsDigit(rest[0]) && rest[0] != '.'
    ensures DigitsLength(s + rest, hasDecimal) == |s|
    decreases |s|
  {
    if s == "" {
      assert s + rest == rest;
    } else {
      assert (s + rest)[1..] == s[1..] + rest;
      DigitsRoundTrip(s[1..], if IsDigit(s[0]) then hasDecimal else true, rest);
    }
  }

  lemma {:induction false} NumberTokenRoundTrip(s: string, rest: string)
    requires StartsNumber(s) && NumberTokenLength(s) == |s|
    ensures Lex(s + (" " + rest)) == Emit([Token(NUMBER, s)], Lex(" " + rest))
  {
    var text := s + (" " + rest);
    assert text[0] == s[0];
    if s[0] == '-' {
      assert text[1..] == s[1..] + (" " + rest);
      DigitsRoundTrip(s[1..], false, " " + rest);
    } else {
      DigitsRoundTrip(s, false, " " + rest);
    }
    assert text[..|s|] == s && text[|s|..] == " " + rest;
  }

  lemma {:induction false} WordRoundTrip(s: string, rest: string)
    requires IsWord(s)
    ensures Lex(s + (" " + rest)) == Emit([WordToken(s)], Lex(" " + rest))
  {
    hide NumberTokenLength;
    hide StringTail;
    hide BraceTail;
    hide WordToken;
    var text := s + (" " + rest);
    SpanExact(IsIdentChar, s, " " + rest);
    assert text[0] == s[0] && text[..|s|] == s && text[|s|..] == " " + rest;
  }

  lemma {:induction false} StringTokenRoundTrip(text: string, rest: string)
    ensures Lex("\"" + (EscapeString(text) + "\"") + rest) == Emit([Token(STRING, text)], Lex(rest))
  {
    var tail := EscapeString(text) + ("\"" + rest);
    Assoc("\"", EscapeString(text) + "\"", rest);
    Assoc(EscapeString(text), "\"", rest);
    Head('"', tail);
    StringTailRoundTrip(text, rest);
    hide StringTail;
    hide EscapeString;
  }

  lemma {:induction false} ExpressionTokenRoundTrip(raw: string, rest: string)
    requires Balanced(raw, 1)
    ensures Lex("${" + (raw + "}") + rest) == Emit([Token(EXPRESSION, raw)], Lex(rest))
  {
    var tail := raw + ("}" + rest);
    Assoc("${", raw + "}", rest);
    Assoc(raw, "}", rest);
    assert ("${" + tail)[0] == '$' && ("${" + tail)[1] == '{' && ("${" + tail)[2..] == tail;
    BraceTailRoundTrip(raw, 1, rest);
    hide BraceTail;
    hide Balanced;
  }

  lemma {:induction false} BlankIsSkipped(rest: string)
    ensures Lex(" " + rest) == Lex(rest)
  {
    Head(' ', rest);
  }

  lemma {:induction false} MarkRoundTrip(t: Token, rest: string)
    requires |t.value| == 1 && ((t.kind == NEWLINE && t.value == "\n") || Punctuation(t.value[0]) == Some(t.kind))
    ensures Lex(t.value + (" " + rest)) == Emit([t], Lex(" " + rest))
  {
    assert t.value == [t.value[0]];
    Head(t.value[0], " " + rest);
  }

  lemma {:induction false} LexRendered(t: Token, rest: string)
    requires Renderable(t)
    ensures Lex(Render(t) + (" " + rest)) == Emit([t], Lex(rest))
  {
    BlankIsSkipped(rest);
    hide Lex;
    match t.kind
    case STRING => StringTokenRoundTrip(t.value, " " + rest);
    case EXPRESSION => ExpressionTokenRoundTrip(t.value, " " + rest);
    case NUMBER => NumberTokenRoundTrip(t.value, rest);
    case IDENTIFIER => WordRoundTrip(t.value, rest);
    case BOOL => WordRoundTrip(t.value, rest);
    case NULL => WordRoundTrip(t.value, rest);
    case EOF =>
    case _ => MarkRoundTrip(t, rest);
  }

  /** Every token sequence the lexer can produce is read back from its own rendering. */
  lemma {:induction false} LexRoundTrip(ts: seq<Token>)
    requires IsStream(ts)
    ensures Lex(RenderAll(ts)) == Ok(ts)
  {
    if |ts| > 1 {
      LexRoundTrip(ts[1..]);
      LexRendered(ts[0], RenderAll(ts[1..]));
      assert [ts[0]] + ts[1..] == ts;
    } else {
      assert ts == [Token(EOF, "")];
    }
  }

  lemma {:induction false} EmitStream(t: Token, r: Lexed)
    requires Renderable(t) && (r.Ok? ==> IsStream(r.value))
    ensures Emit([t], r).Ok? ==> IsStream(Emit([t], r).value)
  {
    if r.Ok? {
      assert ([t] + r.value)[1..] == r.value;
    }
  }

  lemma {:induction false} BraceTailIsBalanced(s: string, depth: nat)
    requires depth > 0 && BraceTail(s, depth).Ok?
    ensures Balanced(BraceTail(s, depth).value.0, depth)
    decreases |s|
  {
    if s[0] != '}' || depth != 1 {
      var d := if s[0] == '{' then depth + 1 else if s[0] == '}' then depth - 1 else depth;
      BraceTailIsBalanced(s[1..], d);
      Head(s[0], BraceTail(s[1..], d).value.0);
    }
  }

  lemma {:induction false} DigitsPrefix(s: string, hasDecimal: bool)
    ensures var n := DigitsLength(s, hasDecimal); DigitsLength(s[..n], hasDecimal) == n
    decreases |s|
  {
    var n := DigitsLength(s, hasDecimal);
    if n > 0 {
      DigitsPrefix(s[1..], if IsDigit(s[0]) then hasDecimal else true);
      assert s[..n][1..] == s[1..][..n - 1];
    }
  }

  lemma {:induction false} NumberTokenPrefix(s: string)
    requires StartsNumber(s)
    ensures var n := NumberTokenLength(s); StartsNumber(s[..n]) && NumberTokenLength(s[..n]) == n
  {
    var n := NumberTokenLength(s);
    if s[0] == '-' {
      DigitsPrefix(s[1..], false);
      assert s[..n][1..] == s[1..][..n - 1];
    } else {
      DigitsPrefix(s, false);
    }
  }

  /** Conversely, whatever the lexer produces is such a sequence. */
  lemma {:induction false} LexedIsStream(s: string)
    requires Lex(s).Ok?
    ensures IsStream(Lex(s).value)
    decreases |s|
  {
    if s == "" {
    } else if s[0] == '#' {
      LexedIsStream(s[Span(NotNewline, s)..]);
    } else if s[0] == '\n' {
      LexedIsStream(s[1..]);
      EmitStream(Token(NEWLINE, "\n"), Lex(s[1..]));
    } else if s[0] == ' ' || s[0] == '\t' {
      LexedIsStream(s[1..]);
    } else if Punctuation(s[0]).Some? {
      LexedIsStream(s[1..]);
      EmitStream(Token(Punctuation(s[0]).value, [s[0]]), Lex(s[1..]));
    } else if s[0] == '"' {
      var (text, rest) := StringTail(s[1..]).value;
      LexedIsStream(rest);
      EmitStream(Token(STRING, text), Lex(rest));
    } else if s[0] == '$' && |s| > 1 && s[1] == '{' {
      BraceTailIsBalanced(s[2..], 1);
      var (raw, rest) := BraceTail(s[2..], 1).value;
      LexedIsStream(rest);
      EmitStream(Token(EXPRESSION, raw), Lex(rest));
    } else {
      LexedWordsAreStreams(s);
    }
  }

  lemma {:induction false} LexedWordsAreStreams(s: string)
    requires Lex(s).Ok? && s != "" && s[0] != '#' && s[0] != '\n' && s[0] != ' ' && s[0] != '\t' && s[0] != '"'
    requires Punctuation(s[0]).None? && !(s[0] == '$' && |s| > 1 && s[1] == '{')
    ensures IsStream(Lex(s).value)
    decreases |s|, 0
  {
    if StartsNumber(s) {
      var n := NumberTokenLength(s);
      NumberTokenPrefix(s);
      LexedIsStream(s[n..]);
      EmitStream(Token(NUMBER, s[..n]), Lex(s[n..]));
    } else if IsLetter(s[0]) {
      var n := Span(IsIdentChar, s);
      assert IsWord(s[..n]);
      LexedIsStream(s[n..]);
      EmitStream(WordToken(s[..n]), Lex(s[n..]));
    } else {
      LexedIsStream(s[1..]);
    }
  }
}
