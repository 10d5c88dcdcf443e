/**
 * A printer for expression trees that writes only the parentheses the grammar forces, and the proof that
 * the parser reads its output back to the same tree.
 */
module ExprRoundTrip {
  import opened Prelude
  import opened HumlAst
  import opened ExprSyntax

  predicate IsIdent(s: string) {
    s != "" && forall i :: 0 <= i < |s| ==> IsExprIdentChar(s[i])
  }

  /** An identifier that starts a reference or names a function. */
  predicate IsName(s: string) {
    IsIdent(s) && IsLetter(s[0]) && !IsLiteralWord(s)
  }

  predicate AllIdents(names: seq<string>) {
    names == [] || (IsIdent(names[0]) && AllIdents(names[1..]))
  }

  predicate IsPath(path: seq<string>) {
    path != [] && IsName(path[0]) && AllIdents(path[1..])
  }

  /** The trees that the expression parser can build. */
  predicate Buildable(e: Expr) {
    match e
    case Ref(path) => IsPath(path)
    case Lit(value) => value.NumberLit? ==> IsNumberText(value.text)
    case Binary(op, left, right) => BinaryLevel(op) < PRIMARY && Buildable(left) && Buildable(right)
    case Unary(op, operand) => op == "!" && Buildable(operand)
    case Call(name, args) => IsName(name) && AllBuildable(args)
    case Cond(cond, thn, els) => Buildable(cond) && Buildable(thn) && Buildable(els)
    case Index(_, _) => false
  }

  predicate AllBuildable(es: seq<Expr>) {
    es == [] || (Buildable(es[0]) && AllBuildable(es[1..]))
  }

  predicate IsComparison(e: Expr) {
    e.Binary? && BinaryLevel(e.op) == COMPARE
  }

  function ComparisonIndex(op: string): (k: nat)
    requires BinaryLevel(op) == COMPARE
    ensures k < COMPARISONS && ComparisonOp(k) == op
  {
    if op == "==" then 0 else if op == "!=" then 1 else if op == "<=" then 2
    else if op == ">=" then 3 else if op == "<" then 4 else 5
  }

  /** The loosest level at which e can stand without parentheses. */
  function Level(e: Expr): (l: nat)
    ensures l <= PRIMARY
  {
    match e
    case Cond(_, _, _) => 0
    case Binary(op, _, _) => BinaryLevel(op)
    case Unary(_, _) => UNARY
    case _ => PRIMARY
  }

  function Print(level: nat, e: Expr): string
    decreases e, 1
  {
    if Level(e) < level then "(" + (Bare(e) + ")") else Bare(e)
  }

  /** A comparison may stand bare on the left of a later one in the list of comparison operators. */
  predicate BareOnLeft(k: nat, left: Expr) {
    IsComparison(left) && ComparisonIndex(left.op) < k
  }

  function Bare(e: Expr): string
    decreases e, 0
  {
    match e
    case Ref(path) => PrintPath(path)
    case Lit(value) => PrintLiteral(value)
    case Binary(op, left, right) =>
      if BinaryLevel(op) == COMPARE then
        (if BareOnLeft(ComparisonIndex(op), left) then Bare(left) else Print(ADD, left))
        + (" " + (op + (" " + Print(ADD, right))))
      else Print(Level(e), left) + (" " + (op + (" " + Print(Level(e) + 1, right))))
    case Unary(_, operand) => "!" + Print(UNARY, operand)
    case Call(name, args) => name + ("(" + (PrintArguments(args) + ")"))
    case Cond(cond, thn, els) => 
      Print(OR, cond) + (" " + ("?" + (" " + (Print(0, thn) + (" " + (":" + (" " + Print(0, els))))))))
    case Index(_, _) => ""
  }

  function PrintArguments(args: seq<Expr>): string
    decreases args, 2
  {
    if args == [] then ""
    else if |args| == 1 then Print(0, args[0])
    else Print(0, args[0]) + ("," + (" " + PrintArguments(args[1..])))
  }

  function PrintPath(path: seq<string>): string {
    if path == [] then "" else path[0] + PrintFields(path[1..])
  }

  function PrintFields(path: seq<string>): string {
    if path == [] then "" else "." + (path[0] + PrintFields(path[1..]))
  }

  function PrintLiteral(value: Literal): string {
    match value
    case NullLit => "null"
    case BoolLit(b) => if b then "true" else "false"
    case StringLit(s) => "'" + (Escape(s) + "'")
    case NumberLit(text) => text
  }

  function Escape(s: string): string {
    if s == "" then ""
    else if s[0] == '\\' || s[0] == '\'' then ['\\', s[0]] + Escape(s[1..])
    else [s[0]] + Escape(s[1..])
  }

  /** What may follow a primary without becoming part of it. */
  predicate AtomStops(rest: string) {
    rest != "" ==> !IsExprIdentChar(rest[0]) && rest[0] != '.' && rest[0] != '('
  }

  predicate StopsAt(level: nat, t: string) {
    if level == 0 then t == "" || t[0] != '?'
    else if IsChainLevel(level) then OperatorAt(level, t).None?
    else if level == COMPARE then forall k :: 0 <= k < COMPARISONS ==> !ComparisonAt(k, t)
    else true
  }

  /** An expression of this level ends where rest begins. */
  predicate Stops(level: nat, rest: string) {
    && AtomStops(rest)
    && var t := SkipBlanks(rest); forall l :: level <= l <= PRIMARY ==> StopsAt(l, t)
  }

  /** What the parser of a level leaves unread: the operator loops look past blanks. */
  function Remainder(level: nat, rest: string): string {
    if level <= MULTIPLY then SkipBlanks(rest) else rest
  }

  lemma {:induction false} BlanksDoNotMatter(level: nat, s: string)
    requires level <= PRIMARY
    ensures ParseLevel(level, s) == ParseLevel(level, SkipBlanks(s))
    decreases PRIMARY - level
  {
    hide Chain;
    hide Comparisons;
    hide ParsePrimary;
    hide ParseTernary;
    if level == 0 {
      BlanksDoNotMatter(OR, s);
      ConditionalFrom(s, SkipBlanks(s));
    } else if IsChainLevel(level) {
      BlanksDoNotMatter(level + 1, s);
    } else if level == COMPARE {
      BlanksDoNotMatter(ADD, s);
    } else if level == UNARY {
      SkippedTwice(s);
      BlanksDoNotMatter(PRIMARY, s);
    } else {
      PrimarySkipsBlanks(s);
    }
  }

  lemma ConditionalFrom(s: string, t: string)
    requires ParseLevel(OR, s) == ParseLevel(OR, t)
    ensures ParseTernary(s) == ParseTernary(t)
  {
    hide ParseLevel;
  }

  /** Between two operands: a blank, the operator, a blank. */
  lemma {:induction false} OperatorText(op: string, x: string)
    requires IsChainLevel(BinaryLevel(op))
    ensures var t := op + (" " + x);
            && SkipBlanks(" " + t) == t && OperatorAt(BinaryLevel(op), t) == Some(op) && t[|op|..] == " " + x
            && Stops(BinaryLevel(op) + 1, " " + t)
  {
    var t := op + (" " + x);
    Head(' ', t);
    assert t[0] == op[0];
    assert t[|op|..] == " " + x;
  }

  lemma {:induction false} ComparisonText(op: string, x: string)
    requires BinaryLevel(op) == COMPARE
    ensures var t := op + (" " + x); var k := ComparisonIndex(op);
            && SkipBlanks(" " + t) == t && ComparisonAt(k, t) && t[|op|..] == " " + x
            && (forall j :: 0 <= j < k ==> !ComparisonAt(j, t))
            && Stops(ADD, " " + t)
  {
    var t := op + (" " + x);
    Head(' ', t);
    assert t[0] == op[0] && t[1] == (op + " ")[1];
    assert t[|op|..] == " " + x;
  }

  lemma {:induction false} SkipComparisons(j: nat, k: nat, left: Expr, s: string)
    requires j <= k <= COMPARISONS
    requires forall i :: j <= i < k ==> !ComparisonAt(i, s)
    ensures Comparisons(j, left, s) == Comparisons(k, left, s)
    decreases k - j
  {
    hide ParseLevel;
    hide ComparisonAt;
    if j < k {
      SkipComparisons(j + 1, k, left, s);
    }
  }

  lemma {:induction false} StringRoundTrip(s: string, rest: string)
    ensures StringBody('\'', Escape(s) + "'" + rest) == Ok((s, rest))
  {
    if s == "" {
      Head('\'', rest);
      assert Escape(s) + "'" + rest == "'" + rest;
    } else {
      StringRoundTrip(s[1..], rest);
      assert s == [s[0]] + s[1..];
      EscapeText(s, "'" + rest);
      var tail := Escape(s[1..]) + ("'" + rest);
      Assoc(Escape(s), "'", rest);
      Assoc(Escape(s[1..]), "'", rest);
      hide Escape;
      if s[0] == '\\' || s[0] == '\'' {
        Escaped(s[0], tail);
      } else {
        Unescaped(s[0], tail);
      }
    }
  }

  lemma EscapeText(s: string, rest: string)
    requires s != ""
    ensures Escape(s) + rest
         == (if s[0] == '\\' || s[0] == '\'' then ['\\', s[0]] else [s[0]]) + (Escape(s[1..]) + rest)
  {
    Assoc(if s[0] == '\\' || s[0] == '\'' then ['\\', s[0]] else [s[0]], Escape(s[1..]), rest);
  }

  /** A character after a backslash is read as it is. */
  lemma Escaped(c: char, tail: string)
    ensures StringBody('\'', ['\\', c] + tail)
         == match StringBody('\'', tail) case Ok(part) => Ok(([c] + part.0, part.1)) case Err => Err
  {
    assert (['\\', c] + tail)[2..] == tail;
  }

  lemma Unescaped(c: char, tail: string)
    requires c != '\\' && c != '\''
    ensures StringBody('\'', [c] + tail)
         == match StringBody('\'', tail) case Ok(part) => Ok(([c] + part.0, part.1)) case Err => Err
  {
    Head(c, tail);
  }

  lemma {:induction false} IdentRoundTrip(ident: string, rest: string)
    requires forall i :: 0 <= i < |ident| ==> IsExprIdentChar(ident[i])
    requires rest != "" ==> !IsExprIdentChar(rest[0])
    ensures SplitIdent(ident + rest) == (ident, rest)
  {
    SpanExact(IsExprIdentChar, ident, rest);
  }

  lemma {:induction false} FieldsRoundTrip(done: seq<string>, path: seq<string>, rest: string)
    requires AllIdents(path)
    requires AtomStops(rest)
    ensures PathTail(done, PrintFields(path) + rest) == Ok((Ref(done + path), rest))
    decreases |path|
  {
    if path == [] {
      assert PrintFields(path) + rest == rest;
      assert done + path == done;
    } else {
      var more := PrintFields(path[1..]) + rest;
      Assoc(".", path[0] + PrintFields(path[1..]), rest);
      Assoc(path[0], PrintFields(path[1..]), rest);
      FieldsStop(path[1..], rest);
      FieldStep(done, path[0], more);
      FieldsRoundTrip(done + [path[0]], path[1..], rest);
      SnocCons(done, path);
    }
  }

  lemma {:induction false} FieldStep(done: seq<string>, name: string, more: string)
    requires IsIdent(name) && (more != "" ==> !IsExprIdentChar(more[0]))
    ensures PathTail(done, "." + (name + more)) == PathTail(done + [name], more)
  {
    Head('.', name + more);
    IdentRoundTrip(name, more);
  }

  lemma {:induction false} FieldsStop(path: seq<string>, rest: string)
    requires AtomStops(rest)
    ensures var t := PrintFields(path) + rest; t != "" ==> !IsExprIdentChar(t[0]) && t[0] != '('
  {
    if path == [] {
      assert PrintFields(path) + rest == rest;
    }
  }

  lemma {:induction false} NumberEnds(text: string, rest: string)
    requires StartsNumber(text) && NumberLength(text) == |text| && AtomStops(rest)
    ensures StartsNumber(text + rest) && NumberLength(text + rest) == |text|
  {
    var t := text + rest;
    assert t[0] == text[0];
    if text[0] == '-' {
      assert t[1..] == text[1..] + rest;
      SpanExact(IsNumberChar, text[1..], rest);
    } else {
      SpanExact(IsNumberChar, text, rest);
    }
  }

  lemma {:induction false} NumberRoundTrip(text: string, rest: string)
    requires IsNumberText(text) && AtomStops(rest)
    ensures StartsNumber(text + rest) && ParseNumber(text + rest) == Ok((Lit(NumberLit(text)), rest))
  {
    hide NumberLength;
    hide StartsNumber;
    hide IsFloatText;
    NumberEnds(text, rest);
    var t := text + rest;
    assert t[..|text|] == text && t[|text|..] == rest;
  }

  /** How a printed tree starts: no blank, no closing parenthesis and, for a primary, no negation. */
  predicate StartsTree(text: string) {
    text != "" && !IsBlank(text[0]) && text[0] != ')'
  }

  lemma {:induction false} PrintHead(level: nat, e: Expr)
    requires Buildable(e)
    ensures StartsTree(Print(level, e)) && (level == PRIMARY ==> Print(level, e)[0] != '!')
    decreases e, 1
  {
    hide Bare;
    if Level(e) < level {
      Head('(', Bare(e) + ")");
    } else {
      BareHead(e);
    }
  }

  lemma {:induction false} BareHead(e: Expr)
    requires Buildable(e)
    ensures StartsTree(Bare(e)) && (Level(e) == PRIMARY ==> Bare(e)[0] != '!')
    decreases e, 0
  {
    hide Print;
    match e
    case Binary(op, left, right) => BinaryHead(op, left, right);
    case Cond(cond, thn, els) =>
      PrintHead(OR, cond);
      SameHead(Print(OR, cond), Bare(e)[|Print(OR, cond)|..]);
      assert Bare(e) == Print(OR, cond) + Bare(e)[|Print(OR, cond)|..];
    case Call(name, args) => SameHead(name, "(" + (PrintArguments(args) + ")"));
    case _ => LeafHead(e);
  }

  lemma SameHead(first: string, more: string)
    ensures first != "" ==> first + more != "" && (first + more)[0] == first[0]
  {
  }

  lemma {:induction false} BinaryHead(op: string, left: Expr, right: Expr)
    requires Buildable(Binary(op, left, right))
    ensures StartsTree(Bare(Binary(op, left, right)))
    decreases Binary(op, left, right), 0, 0
  {
    hide Print;
    var e := Binary(op, left, right);
    if BinaryLevel(op) == COMPARE {
      if BareOnLeft(ComparisonIndex(op), left) {
        BareHead(left);
        SameHead(Bare(left), " " + (op + (" " + Print(ADD, right))));
      } else {
        PrintHead(ADD, left);
        SameHead(Print(ADD, left), " " + (op + (" " + Print(ADD, right))));
      }
    } else {
      PrintHead(Level(e), left);
      SameHead(Print(Level(e), left), " " + (op + (" " + Print(Level(e) + 1, right))));
    }
  }

  lemma {:induction false} LeafHead(e: Expr)
    requires Buildable(e) && (e.Ref? || e.Lit? || e.Unary?)
    ensures StartsTree(Bare(e)) && (Level(e) == PRIMARY ==> Bare(e)[0] != '!')
  {
    hide Print;
    hide PrintFields;
    hide Escape;
    hide IsFloatText;
    match e
    case Ref(path) => SameHead(path[0], PrintFields(path[1..]));
    case Lit(value) =>
    case Unary(op, operand) => SameHead("!", Print(UNARY, operand));
  }

  lemma {:induction false} LiteralRoundTrip(value: Literal, rest: string)
    requires Buildable(Lit(value)) && AtomStops(rest)
    ensures ParsePrimary(PrintLiteral(value) + rest) == Ok((Lit(value), rest))
  {
    hide ParsePrimary;
    hide IsNumberText;
    hide AtomStops;
    match value
    case StringLit(s) => QuotedRoundTrip(s, rest);
    case NumberLit(digits) => NumberLiteralRoundTrip(digits, rest);
    case _ => LiteralWordRoundTrip(value, rest);
  }

  lemma {:induction false} NumberLiteralRoundTrip(digits: string, rest: string)
    requires IsNumberText(digits) && AtomStops(rest)
    ensures ParsePrimary(digits + rest) == Ok((Lit(NumberLit(digits)), rest))
  {
    NumberRoundTrip(digits, rest);
    NumberHead(digits, rest);
    hide IsNumberText;
    hide StartsNumber;
    hide ParseLevel;
    hide ParseRef;
    hide ParseNumber;
    hide StringBody;
  }

  lemma NumberHead(digits: string, rest: string)
    requires StartsNumber(digits + rest)
    ensures SkipBlanks(digits + rest) == digits + rest && digits + rest != ""
    ensures (digits + rest)[0] != '(' && (digits + rest)[0] != '\'' && (digits + rest)[0] != '"'
  {
  }

  lemma {:induction false} QuotedRoundTrip(s: string, rest: string)
    ensures ParsePrimary("'" + (Escape(s) + "'") + rest) == Ok((Lit(StringLit(s)), rest))
  {
    hide ParseLevel;
    hide ParseCall;
    hide ParseRef;
    hide ParseNumber;
    Assoc("'", Escape(s) + "'", rest);
    Head('\'', Escape(s) + "'" + rest);
    StringRoundTrip(s, rest);
    hide Escape;
    hide StringBody;
  }

  lemma {:induction false} LiteralWordRoundTrip(value: Literal, rest: string)
    requires (value.NullLit? || value.BoolLit?) && AtomStops(rest)
    ensures ParsePrimary(PrintLiteral(value) + rest) == Ok((Lit(value), rest))
  {
    hide ParseLevel;
    hide ParseCall;
    hide ParseNumber;
    hide StringBody;
    var text := PrintLiteral(value) + rest;
    IdentRoundTrip(PrintLiteral(value), rest);
    assert text[0] == PrintLiteral(value)[0];
  }

  lemma {:induction false} RefRoundTrip(path: seq<string>, rest: string)
    requires IsPath(path) && AtomStops(rest)
    ensures ParsePrimary(PrintPath(path) + rest) == Ok((Ref(path), rest))
  {
    hide ParsePrimary;
    hide ParseCall;
    hide PathTail;
    hide PrintFields;
    hide AllIdents;
    hide AtomStops;
    var more := PrintFields(path[1..]) + rest;
    Assoc(path[0], PrintFields(path[1..]), rest);
    FieldsStop(path[1..], rest);
    NameText(path[0], more);
    FieldsRoundTrip([path[0]], path[1..], rest);
    assert [path[0]] + path[1..] == path;
  }

  /** A name is read whole, and as a reference unless a parenthesis follows. */
  lemma {:induction false} NameText(name: string, more: string)
    requires IsName(name) && (more != "" ==> !IsExprIdentChar(more[0]))
    ensures ParsePrimary(name + more)
         == if more != "" && more[0] == '(' then ParseCall(name, more[1..]) else PathTail([name], more)
  {
    IdentRoundTrip(name, more);
    assert (name + more)[0] == name[0];
  }

  /** A measure for the mutual induction below: a tree that needs parentheses costs more than its bare form. */
  function Cost(level: nat, e: Expr): nat {
    (if Level(e) < level then 20 else 0) + (if level <= PRIMARY then PRIMARY - level else 0)
  }

  /** Parsing the printed form of any tree gives the tree back and stops where the text after it begins. */
  lemma {:induction false} RoundTrip(level: nat, e: Expr, rest: string)
    requires level <= PRIMARY && Buildable(e) && Stops(level, rest)
    ensures ParseLevel(level, Print(level, e) + rest) == Ok((e, Remainder(level, rest)))
    decreases e, Cost(level, e), 2
  {
    if level == 0 {
      TernaryRoundTrip(e, rest);
    } else if IsChainLevel(level) {
      ChainStart(level, e, rest);
      assert StopsAt(level, SkipBlanks(rest));
    } else if level == COMPARE {
      CompareStart(e, IsComparison(e), rest);
      assert StopsAt(COMPARE, SkipBlanks(rest));
      SkipComparisons(if IsComparison(e) then ComparisonIndex(e.op) + 1 else 0, COMPARISONS, e, SkipBlanks(rest));
    } else if level == UNARY {
      UnaryRoundTrip(e, rest);
    } else {
      PrimaryRoundTrip(e, rest);
    }
  }

  lemma {:induction false} TernaryRoundTrip(e: Expr, rest: string)
    requires Buildable(e) && Stops(0, rest)
    ensures ParseLevel(0, Print(0, e) + rest) == Ok((e, SkipBlanks(rest)))
    decreases e, Cost(0, e), 1
  {
    hide ParsePrimary;
    hide Chain;
    hide Comparisons;
    if e.Cond? {
      CondRoundTrip(e.cond, e.thn, e.els, rest);
    } else {
      RoundTrip(OR, e, rest);
      assert StopsAt(0, SkipBlanks(rest));
    }
  }

  lemma {:induction false} CondRoundTrip(cond: Expr, thn: Expr, els: Expr, rest: string)
    requires Buildable(cond) && Buildable(thn) && Buildable(els) && Stops(0, rest)
    ensures ParseLevel(0, Print(0, Cond(cond, thn, els)) + rest) == Ok((Cond(cond, thn, els), SkipBlanks(rest)))
    decreases Cond(cond, thn, els), 0, 0
  {
    hide ParseLevel;
    hide Print;
    hide Stops;
    hide StopsAt;
    hide Buildable;
    var third := " " + (Print(0, els) + rest);
    var second := " " + (Print(0, thn) + (" " + (":" + third)));
    CondPrinted(cond, thn, els, rest);
    MarkText('?', second);
    MarkText(':', third);
    var s := Print(OR, cond) + (" " + ("?" + second));
    RoundTrip(OR, cond, " " + ("?" + second));
    ReadPart(0, thn, " " + (":" + third));
    ReadPart(0, els, rest);
    hide SkipBlanks;
    CondParts(s, cond, second, thn, third, els, Remainder(0, rest));
  }

  lemma CondPrinted(cond: Expr, thn: Expr, els: Expr, rest: string)
    ensures var second := " " + (Print(0, thn) + (" " + (":" + (" " + (Print(0, els) + rest)))));
            Print(0, Cond(cond, thn, els)) + rest == Print(OR, cond) + (" " + ("?" + second))
  {
    CondText(Print(OR, cond), Print(0, thn), Print(0, els), rest);
  }

  /** The parts of a conditional, read one after the other. */
  lemma CondParts(s: string, cond: Expr, second: string, thn: Expr, third: string, els: Expr, rest: string)
    requires ParseLevel(OR, s).Ok? && ParseLevel(OR, s).value.0 == cond
    requires SkipBlanks(ParseLevel(OR, s).value.1) == "?" + second && ("?" + second)[1..] == second
    requires ParseLevel(0, SkipBlanks(second)).Ok? && ParseLevel(0, SkipBlanks(second)).value.0 == thn
    requires SkipBlanks(ParseLevel(0, SkipBlanks(second)).value.1) == ":" + third && (":" + third)[1..] == third
    requires ParseLevel(0, SkipBlanks(third)) == Ok((els, rest))
    ensures ParseLevel(0, s) == Ok((Cond(cond, thn, els), rest))
  {
    hide Chain;
    hide Comparisons;
    hide ParsePrimary;
  }

  lemma {:induction false} CondText(c: string, t: string, f: string, rest: string)
    ensures c + (" " + ("?" + (" " + (t + (" " + (":" + (" " + f))))))) + rest
         == c + (" " + ("?" + (" " + (t + (" " + (":" + (" " + (f + rest))))))))
  {
    var tail := " " + (":" + (" " + f));
    assert tail + rest == " " + (":" + (" " + (f + rest)));
    assert " " + ("?" + (" " + (t + tail))) + rest == " " + ("?" + (" " + (t + (tail + rest))));
    Assoc(c, " " + ("?" + (" " + (t + tail))), rest);
  }

  /** A mark of the conditional ends everything tighter, and a colon ends a conditional too. */
  lemma {:induction false} MarkText(mark: char, x: string)
    requires mark == '?' || mark == ':'
    ensures SkipBlanks(" " + ([mark] + x)) == [mark] + x && ([mark] + x)[1..] == x
    ensures Stops(if mark == '?' then OR else 0, " " + ([mark] + x))
  {
    Head(' ', [mark] + x);
    Head(mark, x);
  }

  /** Reading a part that is set off by a blank. */
  lemma {:induction false} ReadPart(level: nat, e: Expr, rest: string)
    requires level <= PRIMARY && Buildable(e) && Stops(level, rest)
    ensures ParseLevel(level, " " + (Print(level, e) + rest)) == Ok((e, Remainder(level, rest)))
    ensures ParseLevel(level, SkipBlanks(" " + (Print(level, e) + rest))) == Ok((e, Remainder(level, rest)))
    decreases e, Cost(level, e), 3
  {
    var text := Print(level, e) + rest;
    RoundTrip(level, e, rest);
    Head(' ', text);
    BlanksDoNotMatter(level, " " + text);
    BlanksDoNotMatter(level, text);
  }

  lemma {:induction false} BinaryText(l: string, op: string, r: string, rest: string)
    ensures l + (" " + (op + (" " + r))) + rest == l + (" " + (op + (" " + (r + rest))))
  {
    assert " " + (op + (" " + r)) + rest == " " + (op + (" " + (r + rest)));
    Assoc(l, " " + (op + (" " + r)), rest);
  }

  /** An operator loop that starts on a printed tree arrives at the tree. */
  lemma {:induction false} ChainStart(level: nat, e: Expr, rest: string)
    requires IsChainLevel(level) && Buildable(e) && Stops(level + 1, rest)
    ensures ParseLevel(level, Print(level, e) + rest) == Chain(level, e, SkipBlanks(rest))
    decreases e, Cost(level, e), 1
  {
    if Level(e) == level {
      hide Chain;
      hide ParseLevel;
      hide Stops;
      var second := Print(level + 1, e.right) + rest;
      BinaryText(Print(level, e.left), e.op, Print(level + 1, e.right), rest);
      OperatorText(e.op, second);
      ChainStart(level, e.left, " " + (e.op + (" " + second)));
      ReadPart(level + 1, e.right, rest);
      ChainLink(level, e.left, e.op, e.right, second, Remainder(level + 1, rest));
      RemainderBlanks(level + 1, rest);
    } else {
      hide Chain;
      RoundTrip(level + 1, e, rest);
      ChainRemainder(level, e, rest);
    }
  }

  lemma RemainderBlanks(level: nat, rest: string)
    ensures SkipBlanks(Remainder(level, rest)) == SkipBlanks(rest)
  {
    assert SkipBlanks(SkipBlanks(rest)) == SkipBlanks(rest);
  }

  lemma {:induction false} ChainRemainder(level: nat, e: Expr, rest: string)
    requires IsChainLevel(level)
    ensures Chain(level, e, Remainder(level + 1, rest)) == Chain(level, e, SkipBlanks(rest))
  {
    RemainderBlanks(level + 1, rest);
    assert SkipBlanks(SkipBlanks(rest)) == SkipBlanks(rest);
  }

  /** One more operator and operand of a chain. */
  lemma {:induction false} ChainLink(level: nat, left: Expr, op: string, right: Expr, second: string, rem: string)
    requires IsChainLevel(level) && BinaryLevel(op) == level && ParseLevel(level + 1, " " + second) == Ok((right, rem))
    ensures Chain(level, left, SkipBlanks(" " + (op + (" " + second))))
            == Chain(level, Binary(op, left, right), SkipBlanks(rem))
  {
    hide ParseLevel;
    OperatorText(op, second);
    assert SkipBlanks(SkipBlanks(rem)) == SkipBlanks(rem);
  }

  /** The comparison pass, likewise; a bare comparison leaves only the later operators to try. */
  lemma {:induction false} CompareStart(e: Expr, bare: bool, rest: string)
    requires Buildable(e) && Stops(ADD, rest) && (bare ==> IsComparison(e))
    ensures ParseLevel(COMPARE, (if bare then Bare(e) else Print(ADD, e)) + rest)
         == Comparisons(if bare then ComparisonIndex(e.op) + 1 else 0, e, SkipBlanks(rest))
    decreases e, if bare then 0 else Cost(ADD, e) + 1, 1
  {
    hide ParsePrimary;
    hide Chain;
    hide ParseTernary;
    if bare {
      var k := ComparisonIndex(e.op);
      var second := Print(ADD, e.right) + rest;
      var tail := " " + (e.op + (" " + second));
      var bareLeft := BareOnLeft(k, e.left);
      BinaryText(if bareLeft then Bare(e.left) else Print(ADD, e.left), e.op, Print(ADD, e.right), rest);
      ComparisonText(e.op, second);
      CompareStart(e.left, bareLeft, tail);
      SkipComparisons(if bareLeft then ComparisonIndex(e.left.op) + 1 else 0, k, e.left, SkipBlanks(tail));
      ReadPart(ADD, e.right, rest);
    } else {
      RoundTrip(ADD, e, rest);
    }
  }

  lemma {:induction false} UnaryRoundTrip(e: Expr, rest: string)
    requires Buildable(e) && Stops(UNARY, rest)
    ensures ParseLevel(UNARY, Print(UNARY, e) + rest) == Ok((e, rest))
    decreases e, Cost(UNARY, e), 1
  {
    hide ParseTernary;
    hide Chain;
    hide Comparisons;
    hide ParsePrimary;
    var text := Print(UNARY, e) + rest;
    if e.Unary? {
      Assoc("!", Print(UNARY, e.operand), rest);
      Head('!', Print(UNARY, e.operand) + rest);
      RoundTrip(UNARY, e.operand, rest);
    } else {
      RoundTrip(PRIMARY, e, rest);
      PrintHead(PRIMARY, e);
      assert text[0] == Print(PRIMARY, e)[0];
    }
  }

  lemma {:induction false} PrimaryRoundTrip(e: Expr, rest: string)
    requires Buildable(e) && Stops(PRIMARY, rest)
    ensures ParseLevel(PRIMARY, Print(PRIMARY, e) + rest) == Ok((e, rest))
    decreases e, Cost(PRIMARY, e), 1
  {
    hide ParsePrimary;
    if Level(e) < PRIMARY {
      EnclosedRoundTrip(e, rest);
      assert ParseLevel(PRIMARY, Print(PRIMARY, e) + rest) == ParsePrimary(Print(PRIMARY, e) + rest);
    } else {
      hide PrintLiteral;
      hide PrintPath;
      hide PrintArguments;
      assert ParseLevel(PRIMARY, Print(PRIMARY, e) + rest) == ParsePrimary(Bare(e) + rest);
      hide ParseLevel;
      match e
      case Ref(path) => RefRoundTrip(path, rest);
      case Lit(value) => LiteralRoundTrip(value, rest);
      case Call(name, args) => CallRoundTrip(e, rest);
    }
  }

  lemma {:induction false} EnclosedRoundTrip(e: Expr, rest: string)
    requires Buildable(e) && Level(e) < PRIMARY
    ensures ParsePrimary(Print(PRIMARY, e) + rest) == Ok((e, rest))
    decreases e, Cost(PRIMARY, e), 0
  {
    CloseStops(rest);
    hide ParsePrimary;
    hide ParseLevel;
    hide Buildable;
    hide Bare;
    hide Stops;
    ParenthesesText(Bare(e), rest);
    RoundTrip(0, e, ")" + rest);
    Parenthesized(e, Bare(e), rest);
  }

  /** A closing parenthesis ends every tree. */
  lemma CloseStops(rest: string)
    ensures Stops(0, ")" + rest) && Remainder(0, ")" + rest) == ")" + rest
  {
    Head(')', rest);
  }

  lemma ParenthesesText(inner: string, rest: string)
    ensures "(" + (inner + ")") + rest == "(" + (inner + (")" + rest))
  {
    Assoc("(", inner + ")", rest);
    Assoc(inner, ")", rest);
  }

  lemma {:induction false} Parenthesized(e: Expr, inner: string, rest: string)
    requires ParseLevel(0, inner + (")" + rest)) == Ok((e, ")" + rest))
    ensures ParsePrimary("(" + (inner + (")" + rest))) == Ok((e, rest))
  {
    hide ParseLevel;
    Head('(', inner + (")" + rest));
    Head(')', rest);
  }

  lemma {:induction false} CallRoundTrip(e: Expr, rest: string)
    requires e.Call? && Buildable(e)
    ensures ParsePrimary(Bare(e) + rest) == Ok((e, rest))
    decreases e, 0, 0
  {
    var tail := PrintArguments(e.args) + (")" + rest);
    CallText(e.name, PrintArguments(e.args), rest);
    NameText(e.name, "(" + tail);
    Head('(', tail);
    Head(')', rest);
    if e.args == [] {
      assert tail == ")" + rest;
    } else {
      ArgumentsHead(e.args);
      assert tail[0] == PrintArguments(e.args)[0];
      ArgumentsRoundTrip([], e.args, rest);
      assert [] + e.args == e.args;
    }
  }

  lemma {:induction false} CallText(name: string, args: string, rest: string)
    ensures name + ("(" + (args + ")")) + rest == name + ("(" + (args + (")" + rest)))
  {
    assert "(" + (args + ")") + rest == "(" + (args + (")" + rest));
    Assoc(name, "(" + (args + ")"), rest);
  }

  lemma {:induction false} ArgumentsHead(args: seq<Expr>)
    requires args != [] && Buildable(args[0])
    ensures PrintArguments(args) != "" && !IsBlank(PrintArguments(args)[0]) && PrintArguments(args)[0] != ')'
  {
    PrintHead(0, args[0]);
  }

  /** Reading one argument and what may follow it. */
  lemma {:induction false} ArgumentRead(arg: Expr, tail: string)
    requires Buildable(arg) && Stops(0, tail) && Remainder(0, tail) == tail
    ensures ParseLevel(0, SkipBlanks(Print(0, arg) + tail)) == Ok((arg, tail))
    decreases arg, Cost(0, arg), 3
  {
    hide Print;
    hide Buildable;
    hide ParseLevel;
    RoundTrip(0, arg, tail);
    BlanksDoNotMatter(0, Print(0, arg) + tail);
  }

  lemma {:induction false} ArgumentsRoundTrip(done: seq<Expr>, args: seq<Expr>, rest: string)
    requires args != [] && AllBuildable(args)
    ensures Arguments(done, PrintArguments(args) + (")" + rest)) == Ok((done + args, ")" + rest))
    decreases args, 0, 0
  {
    hide ParseLevel;
    hide Print;
    hide Buildable;
    hide Stops;
    hide SkipBlanks;
    hide Arguments;
    hide Remainder;
    if |args| == 1 {
      CloseStops(rest);
      ArgumentRead(args[0], ")" + rest);
      assert PrintArguments(args) == Print(0, args[0]);
      Head(')', rest);
      LastArgument(done, args[0], Print(0, args[0]) + (")" + rest), ")" + rest);
      assert done + args == done + [args[0]];
    } else {
      var more := PrintArguments(args[1..]) + (")" + rest);
      var text := Print(0, args[0]) + ("," + (" " + more));
      ArgumentText(Print(0, args[0]), PrintArguments(args[1..]), ")" + rest);
      hide PrintArguments;
      CommaStops(" " + more);
      ArgumentRead(args[0], "," + (" " + more));
      OneArgument(done, args[0], text, more);
      ArgumentsRoundTrip(done + [args[0]], args[1..], rest);
      SnocCons(done, args);
    }
  }

  /** A comma ends every tree. */
  lemma CommaStops(rest: string)
    ensures Stops(0, "," + rest) && Remainder(0, "," + rest) == "," + rest
  {
    Head(',', rest);
  }

  lemma LastArgument(done: seq<Expr>, arg: Expr, text: string, rest: string)
    requires ParseLevel(0, SkipBlanks(text)) == Ok((arg, rest)) && rest != "" && rest[0] == ')'
    ensures Arguments(done, text) == Ok((done + [arg], rest))
  {
    hide ParseLevel;
  }

  /** An argument that a comma and a blank follow. */
  lemma OneArgument(done: seq<Expr>, arg: Expr, text: string, more: string)
    requires ParseLevel(0, SkipBlanks(text)) == Ok((arg, "," + (" " + more)))
    ensures Arguments(done, text) == Arguments(done + [arg], more)
  {
    hide ParseLevel;
    Head(',', " " + more);
    Head(' ', more);
    assert Arguments(done + [arg], " " + more) == Arguments(done + [arg], more);
  }

  lemma {:induction false} ArgumentText(first: string, others: string, rest: string)
    ensures first + ("," + (" " + others)) + rest == first + ("," + (" " + (others + rest)))
  {
    assert "," + (" " + others) + rest == "," + (" " + (others + rest));
    Assoc(first, "," + (" " + others), rest);
  }

  /** The parser reads the whole printed text of a tree and returns that tree. */
  lemma {:induction false} ExpressionRoundTrip(e: Expr)
    requires Buildable(e)
    ensures ParseLevel(0, Print(0, e)) == Ok((e, ""))
    ensures ParseExpression(Print(0, e)) == Ok(e)
  {
    assert Print(0, e) + "" == Print(0, e);
    RoundTrip(0, e, "");
  }

  /** Conversely, whatever the parser returns is one of the trees the round trip covers. */
  lemma {:induction false} ParsedIsBuildable(level: nat, s: string)
    requires level <= PRIMARY && ParseLevel(level, s).Ok?
    ensures Buildable(ParseLevel(level, s).value.0)
    decreases |s|, 20 - level
  {
    if level == 0 {
      TernaryIsBuildable(s);
    } else if IsChainLevel(level) {
      ParsedIsBuildable(level + 1, s);
      var (left, rest) := ParseLevel(level + 1, s).value;
      ChainIsBuildable(level, left, rest);
    } else if level == COMPARE {
      ParsedIsBuildable(ADD, s);
      var (left, rest) := ParseLevel(ADD, s).value;
      ComparisonsAreBuildable(0, left, SkipBlanks(rest));
    } else if level == UNARY {
      var t := SkipBlanks(s);
      if t != "" && t[0] == '!' {
        ParsedIsBuildable(UNARY, t[1..]);
      } else {
        ParsedIsBuildable(PRIMARY, s);
      }
    } else {
      PrimaryIsBuildable(s);
    }
  }

  lemma {:induction false} TernaryIsBuildable(s: string)
    requires ParseTernary(s).Ok?
    ensures Buildable(ParseTernary(s).value.0)
    decreases |s|, 20, 0
  {
    ParsedIsBuildable(OR, s);
    var r1 := SkipBlanks(ParseLevel(OR, s).value.1);
    if r1 != "" && r1[0] == '?' {
      var thn := SkipBlanks(r1[1..]);
      ParsedIsBuildable(0, thn);
      ParsedIsBuildable(0, SkipBlanks(SkipBlanks(ParseLevel(0, thn).value.1)[1..]));
    }
  }

  lemma {:induction false} ChainIsBuildable(level: nat, left: Expr, s: string)
    requires IsChainLevel(level) && Buildable(left) && Chain(level, left, s).Ok?
    ensures Buildable(Chain(level, left, s).value.0)
    decreases |s|, 0
  {
    var t := SkipBlanks(s);
    match OperatorAt(level, t)
    case None =>
    case Some(op) =>
      ParsedIsBuildable(level + 1, t[|op|..]);
      var (right, rest) := ParseLevel(level + 1, t[|op|..]).value;
      ChainIsBuildable(level, Binary(op, left, right), rest);
  }

  /** The two ways the comparison pass goes on at operator k. */
  lemma {:induction false} ComparisonStep(k: nat, left: Expr, s: string)
    requires k < COMPARISONS
    ensures ComparisonAt(k, s) ==> |ComparisonOp(k)| <= |s| && |s[|ComparisonOp(k)|..]| < |s|
    ensures Comparisons(k, left, s)
         == if !ComparisonAt(k, s) then Comparisons(k + 1, left, s)
            else
              match ParseLevel(ADD, s[|ComparisonOp(k)|..])
              case Err => Err
              case Ok(part) => Comparisons(k + 1, Binary(ComparisonOp(k), left, part.0), SkipBlanks(part.1))
  {
    hide ParseLevel;
  }

  lemma ComparisonIsBuildable(k: nat, left: Expr, right: Expr)
    requires Buildable(left) && Buildable(right)
    ensures Buildable(Binary(ComparisonOp(k), left, right))
  {
    ComparisonOps(k);
    hide ComparisonOp;
    hide BinaryLevel;
  }

  lemma ComparisonOps(k: nat)
    ensures BinaryLevel(ComparisonOp(k)) == COMPARE
  {
  }

  lemma {:induction false} ComparisonsAreBuildable(k: nat, left: Expr, s: string)
    requires k <= COMPARISONS && Buildable(left) && Comparisons(k, left, s).Ok?
    ensures Buildable(Comparisons(k, left, s).value.0)
    decreases |s|, 0, COMPARISONS - k
  {
    if k < COMPARISONS {
      ComparisonStep(k, left, s);
      hide Comparisons;
      hide ParseLevel;
      hide ComparisonAt;
      hide ComparisonOp;
      hide Buildable;
      if ComparisonAt(k, s) {
        var text := s[|ComparisonOp(k)|..];
        ParsedIsBuildable(ADD, text);
        var (right, rest) := ParseLevel(ADD, text).value;
        ComparisonIsBuildable(k, left, right);
        ComparisonsAreBuildable(k + 1, Binary(ComparisonOp(k), left, right), SkipBlanks(rest));
      } else {
        ComparisonsAreBuildable(k + 1, left, s);
      }
    }
  }

  lemma {:induction false} SplitIdentIsIdent(s: string)
    ensures var ident := SplitIdent(s).0; ident != "" ==> IsIdent(ident) && ident[0] == s[0]
  {
    var n := Span(IsExprIdentChar, s);
    forall i | 0 <= i < n
      ensures IsExprIdentChar(s[..n][i])
    {
      assert s[..n][i] == s[i];
    }
  }

  lemma {:induction false} PrimaryIsBuildable(s: string)
    requires ParsePrimary(s).Ok?
    ensures Buildable(ParsePrimary(s).value.0)
    decreases |s|, 12
  {
    var t := SkipBlanks(s);
    if t[0] == '(' {
      ParsedIsBuildable(0, t[1..]);
    } else if t[0] == '\'' || t[0] == '"' {
    } else if StartsNumber(t) {
      NumberIsBuildable(t);
    } else {
      var (ident, rest) := SplitIdent(t);
      SplitIdentIsIdent(t);
      if IsName(ident) {
        if rest != "" && rest[0] == '(' {
          CallIsBuildable(ident, rest[1..]);
        } else {
          assert [ident] + [] == [ident];
          PathIsBuildable([ident], [], rest);
        }
      }
    }
  }

  lemma {:induction false} NumberIsBuildable(t: string)
    requires StartsNumber(t) && ParseNumber(t).Ok?
    ensures Buildable(ParseNumber(t).value.0)
  {
    var n := NumberLength(t);
    if t[0] == '-' {
      SpanOfPrefix(IsNumberChar, t[1..]);
      assert t[..n][1..] == t[1..][..n - 1];
    } else {
      SpanOfPrefix(IsNumberChar, t);
    }
  }

  lemma {:induction false} PathIsBuildable(first: seq<string>, more: seq<string>, s: string)
    requires |first| == 1 && IsName(first[0]) && AllIdents(more) && PathTail(first + more, s).Ok?
    ensures Buildable(PathTail(first + more, s).value.0)
    decreases |s|
  {
    assert (first + more)[1..] == more;
    if s != "" && s[0] == '.' {
      var (next, rest) := SplitIdent(s[1..]);
      SplitIdentIsIdent(s[1..]);
      AllIdentsSnoc(more, next);
      assert first + more + [next] == first + (more + [next]);
      PathIsBuildable(first, more + [next], rest);
    }
  }

  lemma {:induction false} AllIdentsSnoc(names: seq<string>, name: string)
    requires AllIdents(names) && IsIdent(name)
    ensures AllIdents(names + [name])
  {
    if names != [] {
      AllIdentsSnoc(names[1..], name);
      assert (names + [name])[1..] == names[1..] + [name];
    }
  }

  lemma {:induction false} CallIsBuildable(name: string, s: string)
    requires IsName(name) && ParseCall(name, s).Ok?
    ensures Buildable(ParseCall(name, s).value.0)
    decreases |s|, 22
  {
    var t := SkipBlanks(s);
    if t[0] != ')' {
      ArgumentsAreBuildable([], t);
    }
  }

  lemma {:induction false} ArgumentsAreBuildable(args: seq<Expr>, s: string)
    requires AllBuildable(args) && Arguments(args, s).Ok?
    ensures AllBuildable(Arguments(args, s).value.0)
    decreases |s|, 21
  {
    ParsedIsBuildable(0, SkipBlanks(s));
    var (arg, r0) := ParseLevel(0, SkipBlanks(s)).value;
    AllBuildableSnoc(args, arg);
    var r1 := SkipBlanks(r0);
    if r1 != "" && r1[0] == ',' {
      ArgumentsAreBuildable(args + [arg], r1[1..]);
    }
  }

  lemma {:induction false} AllBuildableSnoc(es: seq<Expr>, e: Expr)
    requires AllBuildable(es) && Buildable(e)
    ensures AllBuildable(es + [e])
  {
    if es != [] {
      AllBuildableSnoc(es[1..], e);
      assert (es + [e])[1..] == es[1..] + [e];
    }
  }

  /** The loop of a level returns its left operand or a tree of that very level. */
  lemma {:induction false} ChainLevel(level: nat, left: Expr, s: string)
    requires IsChainLevel(level) && Chain(level, left, s).Ok?
    ensures var e := Chain(level, left, s).value.0; e == left || Level(e) == level
    decreases |s|
  {
    var t := SkipBlanks(s);
    match OperatorAt(level, t)
    case None =>
    case Some(op) =>
      var (right, rest) := ParseLevel(level + 1, t[|op|..]).value;
      ChainLevel(level, Binary(op, left, right), rest);
  }

  /** The comparison pass too, and operator k or a later one is then the root. */
  lemma {:induction false} ComparisonLevel(k: nat, left: Expr, s: string)
    requires k <= COMPARISONS && Comparisons(k, left, s).Ok?
    ensures var e := Comparisons(k, left, s).value.0;
            e == left || (IsComparison(e) && k <= ComparisonIndex(e.op)
                          && (e.left == left || BareOnLeft(ComparisonIndex(e.op), e.left)))
    decreases |s|, COMPARISONS - k
  {
    hide ParseLevel;
    if k < COMPARISONS {
      if ComparisonAt(k, s) {
        var (right, rest) := ParseLevel(ADD, s[|ComparisonOp(k)|..]).value;
        ComparisonLevel(k + 1, Binary(ComparisonOp(k), left, right), SkipBlanks(rest));
      } else {
        ComparisonLevel(k + 1, left, s);
      }
    }
  }

  /** Parentheses are written only where they are forced: any text that reads as a looser tree opens with one. */
  lemma {:induction false} ParenthesesAreForced(level: nat, s: string)
    requires level <= PRIMARY && ParseLevel(level, s).Ok? && Level(ParseLevel(level, s).value.0) < level
    ensures SkipBlanks(s) != "" && SkipBlanks(s)[0] == '('
    decreases PRIMARY - level
  {
    if IsChainLevel(level) {
      var (left, rest) := ParseLevel(level + 1, s).value;
      ChainLevel(level, left, rest);
      ParenthesesAreForced(level + 1, s);
    } else if level == COMPARE {
      var (left, rest) := ParseLevel(ADD, s).value;
      ComparisonLevel(0, left, SkipBlanks(rest));
      ParenthesesAreForced(ADD, s);
    } else if level == UNARY {
      ParenthesesAreForced(PRIMARY, s);
    } else {
      OnlyParenthesesLoosen(SkipBlanks(s));
    }
  }

  lemma {:induction false} OnlyParenthesesLoosen(t: string)
    requires SkipBlanks(t) == t && ParsePrimary(t).Ok?
    ensures t != "" && (t[0] == '(' || Level(ParsePrimary(t).value.0) == PRIMARY)
  {
    if t[0] != '(' && t[0] != '\'' && t[0] != '"' && !StartsNumber(t) && IsLetter(t[0]) {
      var (ident, rest) := SplitIdent(t);
      PathTailIsRef([ident], rest);
      if rest != "" && rest[0] == '(' {
        assert ParseCall(ident, rest[1..]).Ok? ==> ParseCall(ident, rest[1..]).value.0.Call?;
      }
      assert ParsePrimary(t) == ParseRef(t);
    }
  }

  lemma {:induction false} PathTailIsRef(path: seq<string>, s: string)
    ensures PathTail(path, s).Ok? ==> PathTail(path, s).value.0.Ref?
    decreases |s|
  {
    if s != "" && s[0] == '.' {
      var (next, rest) := SplitIdent(s[1..]);
      if next != "" {
        PathTailIsRef(path + [next], rest);
      }
    }
  }

  /** A comparison on the left of an earlier or equal comparison operator needs its parentheses as well. */
  lemma {:induction false} LeftComparisonIsForced(s: string)
    requires ParseLevel(COMPARE, s).Ok?
    requires var e := ParseLevel(COMPARE, s).value.0;
             IsComparison(e) && IsComparison(e.left) && !BareOnLeft(ComparisonIndex(e.op), e.left)
    ensures SkipBlanks(s) != "" && SkipBlanks(s)[0] == '('
  {
    var (left, rest) := ParseLevel(ADD, s).value;
    ComparisonLevel(0, left, SkipBlanks(rest));
    ParenthesesAreForced(ADD, s);
  }
}
