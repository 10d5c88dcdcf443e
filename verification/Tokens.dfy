/** HUML tokens: what internal/huml/lexer.go reads, as a function on the text that is still unread. */
module Tokens {
  import opened Prelude
  import opened HumlAst

  datatype Kind =
    | EOF | NEWLINE | IDENTIFIER | STRING | NUMBER | BOOL | NULL | BLOCK_START | BLOCK_END
    | ASSIGN | COLON | COMMA | DOT | LIST_START | LIST_END | EXPRESSION | PIPE

  datatype Token = Token(kind: Kind, value: string)

  type Lexed = Result<seq<Token>>

  predicate IsIdentChar(c: char) {
    IsLetter(c) || IsDigit(c) || c == '-'
  }

  predicate NotNewline(c: char) {
    c != '\n'
  }

  function Punctuation(c: char): Option<Kind> {
    if c == '{' then Some(BLOCK_START) else if c == '}' then Some(BLOCK_END)
    else if c == '=' then Some(ASSIGN) else if c == ':' then Some(COLON)
    else if c == ',' then Some(COMMA) else if c == '.' then Some(DOT)
    else if c == '[' then Some(LIST_START) else if c == ']' then Some(LIST_END)
    else if c == '|' then Some(PIPE) else None
  }

  function Emit(tokens: seq<Token>, r: Lexed): Lexed {
    if r.Ok? then Ok(tokens + r.value) else Err
  }

  function Lex(s: string): Lexed
    decreases |s|
  {
    if s == "" then Ok([Token(EOF, "")])
    else if s[0] == '#' then Lex(s[Span(NotNewline, s)..])
    else if s[0] == '\n' then Emit([Token(NEWLINE, "\n")], Lex(s[1..]))
    else if s[0] == ' ' || s[0] == '\t' then Lex(s[1..])
    else if Punctuation(s[0]).Some? then Emit([Token(Punctuation(s[0]).value, [s[0]])], Lex(s[1..]))
    else if s[0] == '"' then
      var (text, rest) :- StringTail(s[1..]);
      Emit([Token(STRING, text)], Lex(rest))
    else if s[0] == '$' && |s| > 1 && s[1] == '{' then
      var (raw, rest) :- BraceTail(s[2..], 1);
      Emit([Token(EXPRESSION, raw)], Lex(rest))
    else if StartsNumber(s) then
      var n := NumberTokenLength(s);
      Emit([Token(NUMBER, s[..n])], Lex(s[n..]))
    else if IsLetter(s[0]) then
      var n := Span(IsIdentChar, s);
      Emit([WordToken(s[..n])], Lex(s[n..]))
    else Lex(s[1..])
  }

  function WordToken(word: string): Token {
    if word == "true" || word == "false" then Token(BOOL, word)
    else if word == "null" || word == "nil" then Token(NULL, word)
    else Token(IDENTIFIER, word)
  }

  /** A string after its opening quote, with the text after its closing quote. */
  function StringTail(s: string): (r: Result<(string, string)>)
    ensures r.Ok? ==> |r.value.1| < |s|
  {
    if s == "" then Err
    else if s[0] == '\\' && |s| > 1 then
      var (text, rest) :- StringTail(s[2..]);
      Ok((Unescape(s[1]) + text, rest))
    else if s[0] == '"' then Ok(("", s[1..]))
    else
      var (text, rest) :- StringTail(s[1..]);
      Ok(([s[0]] + text, rest))
  }

  function Unescape(c: char): string {
    if c == 'n' then "\n" else if c == 't' then "\t" else if c == '"' then "\"" else if c == '\\' then "\\"
    else ['\\', c]
  }

  /** An expression up to the brace that brings the depth down to zero, with the text after that brace. */
  function BraceTail(s: string, depth: nat): (r: Result<(string, string)>)
    requires depth > 0
    ensures r.Ok? ==> |r.value.1| < |s|
  {
    if s == "" then Err
    else if s[0] == '}' && depth == 1 then Ok(("", s[1..]))
    else
      var inner := if s[0] == '{' then depth + 1 else if s[0] == '}' then depth - 1 else depth;
      var (text, rest) :- BraceTail(s[1..], inner);
      Ok(([s[0]] + text, rest))
  }

  function NumberTokenLength(s: string): (n: nat)
    requires StartsNumber(s)
    ensures 0 < n <= |s|
  {
    if s[0] == '-' then 1 + DigitsLength(s[1..], false) else DigitsLength(s, false)
  }

  /** Digits with at most one dot, none when a dot has been seen already. */
  function DigitsLength(s: string, hasDecimal: bool): (n: nat)
    ensures n <= |s| && (s != "" && IsDigit(s[0]) ==> 0 < n)
  {
    if s != "" && IsDigit(s[0]) then 1 + DigitsLength(s[1..], hasDecimal)
    else if s != "" && s[0] == '.' && !hasDecimal then 1 + DigitsLength(s[1..], true)
    else 0
  }
}
