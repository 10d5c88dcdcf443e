/** No text denotes an expression tree with fewer parentheses than the printer writes. */
module MinimalParentheses {
  import opened Prelude
  import opened HumlAst
  import opened ExprSyntax
  import opened ExprRoundTrip

  /** How many opening parentheses a text has; those of calls and within string literals count as well. */
  function Parens(s: string): nat {
    if s == "" then 0 else (if s[0] == '(' then 1 else 0) + Parens(s[1..])
  }

  lemma {:induction false} ParensAppend(a: string, b: string)
    ensures Parens(a + b) == Parens(a) + Parens(b)
  {
    if a == "" {
      assert a + b == b;
    } else {
      ParensAppend(a[1..], b);
      assert (a + b)[1..] == a[1..] + b;
    }
  }

  lemma ParensOfOne(c: char)
    ensures Parens([c]) == if c == '(' then 1 else 0
  {
    assert [c][1..] == "";
  }

  lemma ParensOfTwo(c: char, d: char)
    requires c != '(' && d != '('
    ensures Parens([c, d]) == 0
  {
    assert [c, d][1..] == [d];
    ParensOfOne(d);
  }

  lemma {:induction false} ParensSplit(s: string, n: nat)
    requires n <= |s|
    ensures Parens(s) == Parens(s[..n]) + Parens(s[n..])
  {
    ParensAppend(s[..n], s[n..]);
    assert s[..n] + s[n..] == s;
  }

  lemma {:induction false} ParensBlanks(s: string)
    ensures Parens(SkipBlanks(s)) == Parens(s)
  {
    if s != "" && IsBlank(s[0]) {
      ParensBlanks(s[1..]);
    }
  }

  /** The parentheses that the printer writes for a tree at a level. */
  function Written(level: nat, e: Expr): nat {
    Parens(Print(level, e))
  }

  lemma {:induction false} WrittenAt(level: nat, e: Expr)
    ensures Written(level, e) == Parens(Bare(e)) + if Level(e) < level then 1 else 0
  {
    hide Bare;
    if Level(e) < level {
      ParensAppend("(", Bare(e) + ")");
      ParensAppend(Bare(e), ")");
      ParensOfOne('(');
      ParensOfOne(')');
    }
  }

  /** A tighter level never needs fewer. */
  lemma WrittenGrows(level: nat, tighter: nat, e: Expr)
    requires level <= tighter
    ensures Written(level, e) <= Written(tighter, e) <= Written(level, e) + 1
  {
    hide Print;
    hide Written;
    WrittenAt(level, e);
    WrittenAt(tighter, e);
  }

  lemma {:induction false} ParensAround(l: string, op: string, r: string)
    ensures Parens(l + (" " + (op + (" " + r)))) == Parens(l) + Parens(op) + Parens(r)
  {
    ParensAppend(l, " " + (op + (" " + r)));
    ParensAppend(" ", op + (" " + r));
    ParensAppend(op, " " + r);
    ParensAppend(" ", r);
    ParensOfOne(' ');
  }

  lemma {:induction false} WrittenChain(level: nat, op: string, left: Expr, right: Expr)
    requires IsChainLevel(level) && BinaryLevel(op) == level && Parens(op) == 0
    ensures Written(level, Binary(op, left, right)) == Written(level, left) + Written(level + 1, right)
  {
    var e := Binary(op, left, right);
    WrittenAt(level, e);
    assert Bare(e) == Print(level, left) + (" " + (op + (" " + Print(level + 1, right))));
    ParensAround(Print(level, left), op, Print(level + 1, right));
  }

  /** What a left operand of comparison operator k is written with. */
  function WrittenLeft(k: nat, left: Expr): nat {
    if BareOnLeft(k, left) then Parens(Bare(left)) else Written(ADD, left)
  }

  lemma ParensOfComparisonOp(k: nat)
    ensures Parens(ComparisonOp(k)) == 0
  {
    ParensOfTwo('=', '=');
    ParensOfTwo('!', '=');
    ParensOfTwo('<', '=');
    ParensOfTwo('>', '=');
    ParensOfOne('<');
    ParensOfOne('>');
  }

  lemma {:induction false} WrittenComparison(k: nat, left: Expr, right: Expr)
    requires k < COMPARISONS
    ensures BinaryLevel(ComparisonOp(k)) == COMPARE && ComparisonIndex(ComparisonOp(k)) == k
    ensures Written(COMPARE, Binary(ComparisonOp(k), left, right)) == WrittenLeft(k, left) + Written(ADD, right)
    ensures Parens(Bare(Binary(ComparisonOp(k), left, right))) == WrittenLeft(k, left) + Written(ADD, right)
  {
    var op := ComparisonOp(k);
    ParensOfComparisonOp(k);
    var e, bare := Binary(op, left, right), if BareOnLeft(k, left) then Bare(left) else Print(ADD, left);
    WrittenAt(COMPARE, e);
    assert Bare(e) == bare + (" " + (op + (" " + Print(ADD, right))));
    ParensAround(bare, op, Print(ADD, right));
  }

  // ----- what the parser reads -----

  /** A text that reads as a tree has at least the parentheses that the printer writes for the tree. */
  lemma {:induction false} NoFewer(level: nat, s: string)
    requires level <= PRIMARY && ParseLevel(level, s).Ok?
    ensures var (e, rest) := ParseLevel(level, s).value; Written(level, e) + Parens(rest) <= Parens(s)
    decreases |s|, 20 - level
  {
    hide Written;
    if level == 0 {
      NoFewerConditional(s);
    } else if IsChainLevel(level) {
      NoFewer(level + 1, s);
      var (left, rest) := ParseLevel(level + 1, s).value;
      WrittenGrows(level, level + 1, left);
      NoFewerInChain(level, left, rest);
    } else if level == COMPARE {
      NoFewer(ADD, s);
      var (left, rest) := ParseLevel(ADD, s).value;
      WrittenGrows(COMPARE, ADD, left);
      ParensBlanks(rest);
      NoFewerInComparisons(0, left, SkipBlanks(rest), Written(ADD, left));
    } else if level == UNARY {
      NoFewerUnary(s);
    } else {
      NoFewerPrimary(s);
    }
  }

  lemma {:induction false} NoFewerUnary(s: string)
    requires ParseLevel(UNARY, s).Ok?
    ensures var (e, rest) := ParseLevel(UNARY, s).value; Written(UNARY, e) + Parens(rest) <= Parens(s)
    decreases |s|, 13
  {
    hide ParsePrimary;
    var t := SkipBlanks(s);
    ParensBlanks(s);
    if t != "" && t[0] == '!' {
      NoFewer(UNARY, t[1..]);
      var operand := ParseLevel(UNARY, t[1..]).value.0;
      ParensAppend("!", Print(UNARY, operand));
      ParensOfOne('!');
      WrittenAt(UNARY, Unary("!", operand));
      assert Bare(Unary("!", operand)) == "!" + Print(UNARY, operand);
    } else {
      NoFewerPrimary(s);
      WrittenGrows(UNARY, PRIMARY, ParseLevel(PRIMARY, s).value.0);
    }
  }

  lemma {:induction false} ParensAfter(mark: char, s: string)
    requires s != "" && s[0] == mark && mark != '('
    ensures Parens(SkipBlanks(s[1..])) == Parens(s)
  {
    ParensBlanks(s[1..]);
  }

  lemma {:induction false} WrittenCond(cond: Expr, thn: Expr, els: Expr)
    ensures Written(0, Cond(cond, thn, els)) == Written(OR, cond) + Written(0, thn) + Written(0, els)
  {
    var branches := Print(0, thn) + (" " + (":" + (" " + Print(0, els))));
    ParensOfOne('?');
    ParensOfOne(':');
    ParensAround(Print(0, thn), ":", Print(0, els));
    ParensAround(Print(OR, cond), "?", branches);
    WrittenAt(0, Cond(cond, thn, els));
    assert Bare(Cond(cond, thn, els)) == Print(OR, cond) + (" " + ("?" + (" " + branches)));
  }

  lemma {:induction false} NoFewerConditional(s: string)
    requires ParseTernary(s).Ok?
    ensures var (e, rest) := ParseTernary(s).value; Written(0, e) + Parens(rest) <= Parens(s)
    decreases |s|, 20, 0
  {
    hide Written;
    hide Chain;
    hide Comparisons;
    hide ParsePrimary;
    NoFewer(OR, s);
    var (cond, r0) := ParseLevel(OR, s).value;
    var r1 := SkipBlanks(r0);
    ParensBlanks(r0);
    if r1 != "" && r1[0] == '?' {
      ParensAfter('?', r1);
      NoFewer(0, SkipBlanks(r1[1..]));
      var (thn, r2) := ParseLevel(0, SkipBlanks(r1[1..])).value;
      var r3 := SkipBlanks(r2);
      ParensBlanks(r2);
      ParensAfter(':', r3);
      NoFewer(0, SkipBlanks(r3[1..]));
      WrittenCond(cond, thn, ParseLevel(0, SkipBlanks(r3[1..])).value.0);
    } else {
      WrittenGrows(0, OR, cond);
    }
  }

  lemma {:induction false} ParensOfOperator(level: nat, t: string)
    requires OperatorAt(level, t).Some?
    ensures Parens(OperatorAt(level, t).value) == 0
    ensures Parens(t[|OperatorAt(level, t).value|..]) == Parens(t)
  {
    var op := OperatorAt(level, t).value;
    if |op| == 1 {
      ParensOfOne(op[0]);
      assert op == [op[0]];
    } else {
      ParensOfTwo(op[0], op[1]);
      assert op == [op[0], op[1]];
    }
    ParensSplit(t, |op|);
    assert t[..|op|] == op;
  }

  lemma {:induction false} NoFewerInChain(level: nat, left: Expr, s: string)
    requires IsChainLevel(level) && Chain(level, left, s).Ok?
    ensures var (e, rest) := Chain(level, left, s).value;
            Written(level, e) + Parens(rest) <= Written(level, left) + Parens(s)
    decreases |s|, 0
  {
    hide Written;
    hide ParseLevel;
    var t := SkipBlanks(s);
    ParensBlanks(s);
    match OperatorAt(level, t)
    case None =>
    case Some(op) =>
      ParensOfOperator(level, t);
      NoFewer(level + 1, t[|op|..]);
      var (right, rest) := ParseLevel(level + 1, t[|op|..]).value;
      WrittenChain(level, op, left, right);
      NoFewerInChain(level, Binary(op, left, right), rest);
  }

  lemma {:induction false} ParensOfComparison(k: nat, s: string)
    requires k < COMPARISONS && ComparisonAt(k, s)
    ensures |ComparisonOp(k)| <= |s| && Parens(s[|ComparisonOp(k)|..]) == Parens(s)
  {
    var op := ComparisonOp(k);
    ParensOfComparisonOp(k);
    ParensSplit(s, |op|);
    assert s[..|op|] == op;
  }

  /** The left operand cost at most so much, and may be written so from operator k on. */
  lemma {:induction false} NoFewerInComparisons(k: nat, left: Expr, s: string, cost: nat)
    requires k <= COMPARISONS && Comparisons(k, left, s).Ok?
    requires Written(COMPARE, left) <= cost && (Written(ADD, left) <= cost || BareOnLeft(k, left))
    ensures var (e, rest) := Comparisons(k, left, s).value; Written(COMPARE, e) + Parens(rest) <= cost + Parens(s)
    decreases |s|, 0, COMPARISONS - k
  {
    hide Written;
    hide ParseLevel;
    if k < COMPARISONS {
      ComparisonStep(k, left, s);
      hide Comparisons;
      if ComparisonAt(k, s) {
        var text := s[|ComparisonOp(k)|..];
        ParensOfComparison(k, s);
        NoFewer(ADD, text);
        var (right, rest) := ParseLevel(ADD, text).value;
        var more := Binary(ComparisonOp(k), left, right);
        WrittenAt(COMPARE, left);
        WrittenComparison(k, left, right);
        ParensBlanks(rest);
        NoFewerInComparisons(k + 1, more, SkipBlanks(rest), WrittenLeft(k, left) + Written(ADD, right));
      } else {
        NoFewerInComparisons(k + 1, left, s, cost);
      }
    }
  }

  lemma {:induction false} NoFewerPrimary(s: string)
    requires ParsePrimary(s).Ok?
    ensures var (e, rest) := ParsePrimary(s).value; Written(PRIMARY, e) + Parens(rest) <= Parens(s)
    decreases |s|, 12
  {
    hide Written;
    hide Print;
    hide ParseLevel;
    hide StringBody;
    hide ParseNumber;
    hide ParseRef;
    var t := SkipBlanks(s);
    ParensBlanks(s);
    if t[0] == '(' {
      NoFewer(0, t[1..]);
      var (e, r0) := ParseLevel(0, t[1..]).value;
      WrittenGrows(0, PRIMARY, e);
      ParensBlanks(r0);
    } else if t[0] == '\'' || t[0] == '"' {
      NoFewerInString(t[0], t[1..]);
      WrittenString(StringBody(t[0], t[1..]).value.0);
    } else if StartsNumber(t) {
      NoFewerInNumber(t);
    } else {
      NoFewerInReference(t);
    }
  }

  lemma {:induction false} WrittenString(text: string)
    ensures Written(PRIMARY, Lit(StringLit(text))) == Parens(text)
  {
    hide Escape;
    ParensAppend("'", Escape(text) + "'");
    ParensAppend(Escape(text), "'");
    ParensOfOne('\'');
    ParensEscape(text);
  }

  lemma {:induction false} ParensEscape(text: string)
    ensures Parens(Escape(text)) == Parens(text)
  {
    if text != "" {
      ParensEscape(text[1..]);
      if text[0] == '\\' || text[0] == '\'' {
        ParensAppend(['\\', text[0]], Escape(text[1..]));
        assert ['\\', text[0]][1..] == [text[0]] && [text[0]][1..] == [];
      } else {
        Head(text[0], Escape(text[1..]));
      }
    }
  }

  lemma {:induction false} NoFewerInString(quote: char, s: string)
    requires StringBody(quote, s).Ok?
    ensures var (text, rest) := StringBody(quote, s).value; Parens(text) + Parens(rest) <= Parens(s)
    decreases |s|
  {
    if s[0] == '\\' && |s| > 1 {
      NoFewerInString(quote, s[2..]);
      Head(s[1], StringBody(quote, s[2..]).value.0);
      assert s[1..][1..] == s[2..];
    } else if s[0] != quote {
      NoFewerInString(quote, s[1..]);
      Head(s[0], StringBody(quote, s[1..]).value.0);
    }
  }

  lemma {:induction false} NoFewerInNumber(t: string)
    requires StartsNumber(t) && ParseNumber(t).Ok?
    ensures var (e, rest) := ParseNumber(t).value; Written(PRIMARY, e) + Parens(rest) <= Parens(t)
  {
    hide NumberLength;
    hide IsFloatText;
    var text := t[..NumberLength(t)];
    ParensSplit(t, NumberLength(t));
    WrittenAt(PRIMARY, Lit(NumberLit(text)));
    assert Bare(Lit(NumberLit(text))) == text;
  }

  lemma {:induction false} ParensOfWords()
    ensures Parens("true") == 0 && Parens("false") == 0 && Parens("null") == 0
  {
    assert "true"[1..] == "rue" && "rue"[1..] == "ue" && "ue"[1..] == "e" && "e"[1..] == "";
    assert "false"[1..] == "alse" && "alse"[1..] == "lse" && "lse"[1..] == "se" && "se"[1..] == "e";
    assert "null"[1..] == "ull" && "ull"[1..] == "ll" && "ll"[1..] == "l" && "l"[1..] == "";
  }

  lemma {:induction false} WrittenWord(value: Literal)
    requires value.BoolLit? || value.NullLit?
    ensures Written(PRIMARY, Lit(value)) == 0
  {
    ParensOfWords();
    WrittenAt(PRIMARY, Lit(value));
    assert Bare(Lit(value)) == PrintLiteral(value);
  }

  lemma {:induction false} NoFewerInReference(t: string)
    requires t != "" && IsLetter(t[0]) && ParseRef(t).Ok?
    ensures var (e, rest) := ParseRef(t).value; Written(PRIMARY, e) + Parens(rest) <= Parens(t)
    decreases |t|, 11
  {
    hide Written;
    hide ParseCall;
    var (ident, rest) := SplitIdent(t);
    ParensSplit(t, |ident|);
    WrittenWord(NullLit);
    WrittenWord(BoolLit(true));
    WrittenWord(BoolLit(false));
    if ident !in ["true", "false", "null", "nil"] {
      if rest != "" && rest[0] == '(' {
        NoFewerInCall(ident, rest[1..]);
      } else {
        WrittenPath([ident]);
        NoFewerInPath([ident], rest);
      }
    }
  }

  lemma {:induction false} WrittenPath(path: seq<string>)
    ensures Written(PRIMARY, Ref(path)) == Parens(PrintPath(path))
    ensures |path| == 1 ==> Parens(PrintPath(path)) == Parens(path[0])
  {
    WrittenAt(PRIMARY, Ref(path));
    assert Bare(Ref(path)) == PrintPath(path);
    if |path| == 1 {
      assert path[1..] == [] && PrintPath(path) == path[0] + "" == path[0];
    }
  }

  lemma {:induction false} FieldsSnoc(path: seq<string>, next: string)
    ensures Parens(PrintFields(path + [next])) == Parens(PrintFields(path)) + Parens(next)
  {
    if path == [] {
      assert path + [next] == [next] && [next][1..] == [];
      ParensAppend(".", next + "");
      ParensOfOne('.');
      assert next + "" == next;
    } else {
      FieldsSnoc(path[1..], next);
      assert (path + [next])[1..] == path[1..] + [next];
      var fields, more := PrintFields(path[1..]), PrintFields(path[1..] + [next]);
      ParensAppend(".", path[0] + fields);
      ParensAppend(path[0], fields);
      ParensAppend(".", path[0] + more);
      ParensAppend(path[0], more);
    }
  }

  lemma {:induction false} PathSnoc(path: seq<string>, next: string)
    requires path != []
    ensures Parens(PrintPath(path + [next])) == Parens(PrintPath(path)) + Parens(next)
  {
    assert (path + [next])[1..] == path[1..] + [next];
    FieldsSnoc(path[1..], next);
    ParensAppend(path[0], PrintFields(path[1..]));
    ParensAppend(path[0], PrintFields(path[1..] + [next]));
  }

  lemma {:induction false} NoFewerInPath(path: seq<string>, s: string)
    requires path != [] && PathTail(path, s).Ok?
    ensures var (e, rest) := PathTail(path, s).value;
            Written(PRIMARY, e) + Parens(rest) <= Parens(PrintPath(path)) + Parens(s)
    decreases |s|
  {
    hide Written;
    if s != "" && s[0] == '.' {
      var (next, rest) := SplitIdent(s[1..]);
      ParensSplit(s[1..], |next|);
      PathSnoc(path, next);
      NoFewerInPath(path + [next], rest);
    } else {
      WrittenPath(path);
    }
  }

  lemma {:induction false} WrittenCall(name: string, args: seq<Expr>)
    ensures Written(PRIMARY, Call(name, args)) == Parens(name) + 1 + Parens(PrintArguments(args))
  {
    ParensAppend(name, "(" + (PrintArguments(args) + ")"));
    ParensAppend("(", PrintArguments(args) + ")");
    ParensAppend(PrintArguments(args), ")");
    ParensOfOne('(');
    ParensOfOne(')');
  }

  lemma {:induction false} NoFewerInCall(name: string, s: string)
    requires ParseCall(name, s).Ok?
    ensures var (e, rest) := ParseCall(name, s).value;
            Written(PRIMARY, e) + Parens(rest) <= Parens(name) + 1 + Parens(s)
    decreases |s|, 22
  {
    hide Written;
    hide Arguments;
    var t := SkipBlanks(s);
    ParensBlanks(s);
    if t != "" && t[0] == ')' {
      WrittenCall(name, []);
    } else {
      NoFewerInArguments([], t);
      var (args, rest) := Arguments([], t).value;
      ParensBlanks(rest);
      WrittenCall(name, args);
    }
  }

  lemma {:induction false} ArgumentsSnoc(args: seq<Expr>, arg: Expr)
    ensures Parens(PrintArguments(args + [arg])) == Parens(PrintArguments(args)) + Written(0, arg)
  {
    if args == [] {
      assert args + [arg] == [arg];
    } else {
      ArgumentsSnoc(args[1..], arg);
      assert (args + [arg])[1..] == args[1..] + [arg];
      ArgumentsParens(args);
      ArgumentsParens(args + [arg]);
    }
  }

  lemma {:induction false} ArgumentsParens(args: seq<Expr>)
    requires args != []
    ensures Parens(PrintArguments(args)) == Written(0, args[0]) + Parens(PrintArguments(args[1..]))
  {
    if |args| == 1 {
      assert args[1..] == [];
    } else {
      ParensAppend(Print(0, args[0]), "," + (" " + PrintArguments(args[1..])));
      ParensAppend(",", " " + PrintArguments(args[1..]));
      ParensAppend(" ", PrintArguments(args[1..]));
      ParensOfOne(',');
      ParensOfOne(' ');
    }
  }

  lemma {:induction false} NoFewerInArguments(args: seq<Expr>, s: string)
    requires Arguments(args, s).Ok?
    ensures var (all, rest) := Arguments(args, s).value;
            Parens(PrintArguments(all)) + Parens(rest) <= Parens(PrintArguments(args)) + Parens(s)
    decreases |s|, 21
  {
    hide Written;
    hide ParseLevel;
    hide PrintArguments;
    var text := SkipBlanks(s);
    ParensBlanks(s);
    NoFewer(0, text);
    var (arg, r0) := ParseLevel(0, text).value;
    ArgumentsSnoc(args, arg);
    var r1 := SkipBlanks(r0);
    ParensBlanks(r0);
    if r1 != "" && r1[0] == ',' {
      NoFewerInArguments(args + [arg], r1[1..]);
    }
  }

  /** So among all the texts that the parser reads as a tree, the printed one has the fewest parentheses. */
  lemma {:induction false} PrintIsMinimal(s: string)
    requires ParseExpression(s).Ok?
    ensures Parens(Print(0, ParseExpression(s).value)) <= Parens(s)
    ensures ParseExpression(Print(0, ParseExpression(s).value)) == ParseExpression(s)
  {
    hide ParseLevel;
    NoFewer(0, s);
    ParsedIsBuildable(0, s);
    ExpressionRoundTrip(ParseLevel(0, s).value.0);
  }
}
