/** How texts group, with the operators and their precedence written out: from text to tree, not by way of the
    tables that parser and printer share. */
module ExprPrecedence {
  import opened ExprSyntax
  import opened ExprGrammar
  import opened ExprPrinting
  import opened ExprRules
  import opened ExprRoundTrip
  import opened ExprLexer
  import opened ExprScanning
  import opened ExprText
  import opened ExprWriting

  /** The binary operators, the loosest first. */
  const GROUPS: seq<seq<string>> :=
    [["||"], ["&&"], ["==", "!="], ["<", "<=", ">", ">="], ["+", "-"], ["*", "/", "%"], ["??"]]

  predicate InGroup(op: string, i: int) {
    0 <= i < |GROUPS| && op in GROUPS[i]
  }

  function Meant(op: string): Kind {
    if op == "||" then OR else if op == "&&" then AND else if op == "==" then EQ else if op == "!=" then NE
    else if op == "<" then LT else if op == "<=" then LE else if op == ">" then GT else if op == ">=" then GE
    else if op == "+" then ADD else if op == "-" then SUB else if op == "*" then MUL else if op == "/" then DIV
    else if op == "%" then MOD else NULLCOALESCE
  }

  /** Words with single spaces between them. */
  function Words(ws: seq<string>): string {
    if ws == [] then "" else if |ws| == 1 then ws[0] else ws[0] + " " + Words(ws[1..])
  }

  function TextsOf(ts: Tokens): seq<string> {
    if ts.End? then [] else [TokenText(ts.head)] + TextsOf(ts.tail)
  }

  lemma {:induction false} RenderIs(ts: Tokens)
    ensures Render(ts) == Words(TextsOf(ts))
  {
    if ts.More? {
      RenderIs(ts.tail);
      var ws := TextsOf(ts);
      assert ws[0] == TokenText(ts.head) && ws[1..] == TextsOf(ts.tail);
      if ts.tail.More? {
        assert |TextsOf(ts.tail)| >= 1;
        var word, words := TokenText(ts.head), Words(TextsOf(ts.tail));
        assert word + (" " + words) == word + " " + words;
      } else {
        assert TokenText(ts.head) + "" == TokenText(ts.head);
      }
    }
  }

  /** The words ws read as e. */
  predicate Means(ws: seq<string>, e: Expr) {
    ParseText(Words(ws), true) == Tree(e)
  }

  lemma Printed(e: Expr, ws: seq<string>)
    requires Wf(e) && Plain(e) && !e.Nil? && TextsOf(Print(e, 0, End)) == ws
    ensures Means(ws, e)
  {
    hide *;
    NothingAfter();
    NoGaps();
    TextRoundTrip(e, End, [], true);
    RenderIsSpaced(Print(e, 0, End));
    RenderIs(Print(e, 0, End));
    MeansIs(ws, e);
  }

  lemma NoGaps()
    ensures Gaps([])
  {
  }

  lemma MeansIs(ws: seq<string>, e: Expr)
    ensures Means(ws, e) <==> ParseText(Words(ws), true) == Tree(e)
  {
  }

  lemma NothingAfter()
    ensures AllCanonical(End) && Follows(0, Peek(End).kind) && !ContainsStatic(End)
  {
  }

  lemma Groups(op: string, i: int)
    requires InGroup(op, i)
    ensures OpLevel(Meant(op)) == i + 2 && OpText(Meant(op)) == op
  {
  }

  predicate Names(ns: seq<string>) {
    forall n | n in ns :: IsName(n)
  }

  // ---- a printed operand without parentheses ----

  lemma PrintName(n: string, level: nat, rest: Tokens)
    requires level <= 10
    ensures Print(Id(n), level, rest) == Push(ID, n, rest)
  {
  }

  lemma PrintOperator(op: Kind, l: Expr, r: Expr, level: nat, rest: Tokens)
    requires OpLevel(op) >= level && OpLevel(op) != 0 && !r.Nil?
    ensures Print(Binary(op, l, r), level, rest) ==
      Print(l, OpLevel(op), Push(op, OpText(op), Print(r, OpLevel(op) + 1, rest)))
  {
    hide OpText;
  }

  lemma NameIsPlain(n: string)
    requires IsName(n)
    ensures Wf(Id(n)) && Plain(Id(n))
  {
  }

  lemma PlainOperator(op: Kind, l: Expr, r: Expr)
    requires Wf(l) && Wf(r) && Plain(l) && Plain(r) && !l.Nil? && !r.Nil? && OpLevel(op) != 0
    ensures Wf(Binary(op, l, r)) && Plain(Binary(op, l, r))
  {
  }

  // ---- binary operators ----

  /** Two binary operators in a row. */
  function RightFirst(x: string, p: string, y: string, q: string, z: string): Expr {
    Binary(Meant(p), Id(x), Binary(Meant(q), Id(y), Id(z)))
  }

  function LeftFirst(x: string, p: string, y: string, q: string, z: string): Expr {
    Binary(Meant(q), Binary(Meant(p), Id(x), Id(y)), Id(z))
  }

  /** Of two operators in a row the one of the tighter group binds first, and of one group the left one. */
  lemma TwoOperators(x: string, p: string, y: string, q: string, z: string, i: int, j: int)
    requires Names([x, y, z]) && InGroup(p, i) && InGroup(q, j)
    ensures Means([x, p, y, q, z], if j > i then RightFirst(x, p, y, q, z) else LeftFirst(x, p, y, q, z))
  {
    hide *;
    ThreeNames(x, y, z);
    var e := if j > i then RightFirst(x, p, y, q, z) else LeftFirst(x, p, y, q, z);
    if j > i {
      PrintRightFirst(x, p, y, q, z, i, j);
    } else {
      PrintLeftFirst(x, p, y, q, z, i, j);
    }
    FiveTexts(x, p, y, q, z, i, j);
    Printed(e, [x, p, y, q, z]);
  }

  function FiveTokens(x: string, p: string, y: string, q: string, z: string): Tokens {
    Push(ID, x, Push(Meant(p), p, Push(ID, y, Push(Meant(q), q, Push(ID, z, End)))))
  }

  lemma FiveTexts(x: string, p: string, y: string, q: string, z: string, i: int, j: int)
    requires InGroup(p, i) && InGroup(q, j)
    ensures TextsOf(FiveTokens(x, p, y, q, z)) == [x, p, y, q, z]
  {
    hide *;
    NoStrings(Meant(p), p, i);
    NoStrings(Meant(q), q, j);
    FiveAre(x, p, y, q, z);
  }

  lemma FiveAre(x: string, p: string, y: string, q: string, z: string)
    requires Meant(p) != STR && Meant(q) != STR
    ensures TextsOf(FiveTokens(x, p, y, q, z)) == [x, p, y, q, z]
  {
    hide Meant;
    var tz := Push(ID, z, End);
    var tq := Push(Meant(q), q, tz);
    var ty := Push(ID, y, tq);
    var tp := Push(Meant(p), p, ty);
    assert TextsOf(tz) == [z];
    assert TextsOf(tq) == [q, z];
    assert TextsOf(ty) == [y, q, z];
    assert TextsOf(tp) == [p, y, q, z];
  }

  lemma PrintRightFirst(x: string, p: string, y: string, q: string, z: string, i: int, j: int)
    requires InGroup(p, i) && InGroup(q, j) && j > i && IsName(x) && IsName(y) && IsName(z)
    ensures var e := RightFirst(x, p, y, q, z);
      Print(e, 0, End) == FiveTokens(x, p, y, q, z) && Wf(e) && Plain(e) && !e.Nil?
  {
    hide IsName, OpLevel, Meant, OpText, InGroup;
    Groups(p, i);
    Groups(q, j);
    InRange(p, i);
    InRange(q, j);
    var kp, kq := Meant(p), Meant(q);
    var right := Binary(kq, Id(y), Id(z));
    var tq := Push(kq, q, Push(ID, z, End));
    PlainOperator(kq, Id(y), Id(z)) by { NameIsPlain(y); NameIsPlain(z); }
    PlainOperator(kp, Id(x), right) by { NameIsPlain(x); }
    hide Print, Wf, Plain;
    PrintOperator(kp, Id(x), right, 0, End);
    PrintOperator(kq, Id(y), Id(z), i + 3, End);
    PrintName(z, j + 3, End);
    PrintName(y, j + 2, tq);
    PrintName(x, i + 2, Push(kp, p, Push(ID, y, tq)));
  }

  lemma PrintLeftFirst(x: string, p: string, y: string, q: string, z: string, i: int, j: int)
    requires InGroup(p, i) && InGroup(q, j) && j <= i && IsName(x) && IsName(y) && IsName(z)
    ensures var e := LeftFirst(x, p, y, q, z);
      Print(e, 0, End) == FiveTokens(x, p, y, q, z) && Wf(e) && Plain(e) && !e.Nil?
  {
    hide IsName, OpLevel, Meant, OpText, InGroup;
    Groups(p, i);
    Groups(q, j);
    InRange(p, i);
    InRange(q, j);
    var kp, kq := Meant(p), Meant(q);
    var left := Binary(kp, Id(x), Id(y));
    var tq := Push(kq, q, Push(ID, z, End));
    PlainOperator(kp, Id(x), Id(y)) by { NameIsPlain(x); NameIsPlain(y); }
    PlainOperator(kq, left, Id(z)) by { NameIsPlain(z); }
    hide Print, Wf, Plain;
    PrintOperator(kq, left, Id(z), 0, End);
    PrintName(z, j + 3, End);
    PrintOperator(kp, Id(x), Id(y), j + 2, tq);
    PrintName(y, i + 3, tq);
    PrintName(x, i + 2, Push(kp, p, Push(ID, y, tq)));
  }

  lemma ThreeNames(x: string, y: string, z: string)
    requires Names([x, y, z])
    ensures forall n | n == x || n == y || n == z :: IsName(n) && Wf(Id(n)) && Plain(Id(n))
  {
    assert x in [x, y, z] && y in [x, y, z] && z in [x, y, z];
  }

  lemma InRange(op: string, i: int)
    requires InGroup(op, i)
    ensures 0 <= i < 7
  {
  }

  lemma NoStrings(k: Kind, op: string, i: int)
    requires InGroup(op, i) && k == Meant(op)
    ensures k != STR
  {
  }

  // ---- the other levels ----

  /** One binary operator between names. */
  function Op(x: string, p: string, y: string): Expr {
    Binary(Meant(p), Id(x), Id(y))
  }

  lemma PrintOp(x: string, p: string, y: string, i: int, level: nat, rest: Tokens)
    requires InGroup(p, i) && level <= i + 2 && IsName(x) && IsName(y)
    ensures Print(Op(x, p, y), level, rest) == Push(ID, x, Push(Meant(p), p, Push(ID, y, rest)))
    ensures Wf(Op(x, p, y)) && Plain(Op(x, p, y)) && Prec(Op(x, p, y)) == i + 2 && Meant(p) != STR
  {
    hide IsName, OpLevel, Meant, OpText, InGroup;
    Groups(p, i);
    InRange(p, i);
    NoStrings(Meant(p), p, i);
    PlainOperator(Meant(p), Id(x), Id(y)) by { NameIsPlain(x); NameIsPlain(y); }
    hide Print, Wf, Plain;
    PrintOperator(Meant(p), Id(x), Id(y), level, rest);
    PrintName(y, i + 3, rest);
    PrintName(x, i + 2, Push(Meant(p), p, Push(ID, y, rest)));
  }

  lemma NamesAssign(x: string, value: Expr)
    requires IsName(x) && Wf(value) && Plain(value) && !value.Nil?
    ensures Wf(AssignName(x, value)) && Plain(AssignName(x, value))
  {
  }

  lemma ParensPrint(e: Expr, level: nat, rest: Tokens)
    requires Prec(e) < level
    ensures Print(e, level, rest) == Push(LPAREN, "(", PrintBare(e, Push(RPAREN, ")", rest)))
  {
  }

  lemma BarePrint(e: Expr, rest: Tokens)
    requires Peek(rest).kind == RPAREN
    ensures Print(e, 0, rest) == PrintBare(e, rest)
  {
  }

  lemma FieldPrint(x: string, f: string, level: nat, rest: Tokens)
    requires level <= 10 && IsName(x) && IsName(f)
    ensures var e := Field(Id(x), f, false);
      Print(e, level, rest) == Push(ID, x, Push(DOT, ".", Push(ID, f, rest))) && Wf(e) && Plain(e)
  {
    hide IsName;
    NameIsPlain(x);
    NameIsPlain(f);
    PrintName(x, 10, Push(DOT, ".", Push(ID, f, rest)));
  }

  lemma PrefixPrint(e: Expr)
    requires (e.Not? || e.Neg?) && Wf(e.arg) && Plain(e.arg) && !e.arg.Nil?
    ensures Print(e, 0, End) == Push(if e.Not? then NOT else SUB, if e.Not? then "!" else "-", Print(e.arg, 9, End))
    ensures Wf(e) && Plain(e)
  {
  }

  lemma CallPrint(f: string, args: seq<Expr>, rest: Tokens)
    requires IsName(f) && forall a | a in args :: Wf(a) && Plain(a) && !a.Nil?
    ensures var e := Method(Nil, f, args, false);
      Print(e, 0, rest) == Push(ID, f, PrintCall(args, rest)) && Wf(e) && Plain(e)
    ensures PrintCall(args, rest) == Push(LPAREN, "(", PrintArgs(args, Push(RPAREN, ")", rest)))
  {
    hide IsName, PrintArgs;
    NameIsPlain(f);
  }

  lemma OneArg(x: string, rest: Tokens)
    ensures PrintCall([Id(x)], rest) == Push(LPAREN, "(", Push(ID, x, Push(RPAREN, ")", rest)))
  {
    PrintName(x, 0, Push(RPAREN, ")", rest));
    assert PrintArgs([Id(x)], Push(RPAREN, ")", rest)) == Print(Id(x), 0, Push(RPAREN, ")", rest));
  }

  lemma TwoArgs(x: string, y: string, rest: Tokens)
    ensures PrintArgs([Id(x), Id(y)], rest) == Push(ID, x, Push(COMMA, ",", Push(ID, y, rest)))
  {
    var args := [Id(x), Id(y)];
    assert args[1..] == [Id(y)];
    PrintName(y, 0, rest);
    PrintName(x, 0, Push(COMMA, ",", Push(ID, y, rest)));
    assert PrintArgs([Id(y)], rest) == Print(Id(y), 0, rest);
  }

  /** A unary operator binds tighter than any binary one. */
  lemma NotBinds(x: string, p: string, y: string, i: int)
    requires IsName(x) && IsName(y) && InGroup(p, i)
    ensures Means(["!", x, p, y], Binary(Meant(p), Not(Id(x)), Id(y)))
  {
    hide IsName, OpLevel, Meant, OpText, InGroup, Means;
    Groups(p, i);
    InRange(p, i);
    NoStrings(Meant(p), p, i);
    NameIsPlain(x);
    NameIsPlain(y);
    var t3 := Push(ID, y, End);
    assert TextsOf(t3) == [y];
    var t2 := Push(Meant(p), p, t3);
    assert TextsOf(t2) == [p, y];
    var t1 := Push(ID, x, t2);
    assert TextsOf(t1) == [x, p, y];
    var t0 := Push(NOT, "!", t1);
    assert TextsOf(t0) == ["!", x, p, y];
    var e := Binary(Meant(p), Not(Id(x)), Id(y));
    PlainOperator(Meant(p), Not(Id(x)), Id(y));
    PrintOperator(Meant(p), Not(Id(x)), Id(y), 0, End);
    PrintName(y, i + 3, End);
    PrintName(x, 9, t2);
    assert Print(e, 0, End) == t0;
    Printed(e, ["!", x, p, y]);
  }

  /** A member binds tighter than a unary operator. */
  lemma NotField(x: string, f: string)
    requires IsName(x) && IsName(f)
    ensures Means(["!", x, ".", f], Not(Field(Id(x), f, false)))
  {
    hide IsName, OpLevel, Meant, OpText, InGroup, Means;
    NameIsPlain(f);
    NameIsPlain(x);
    var t3 := Push(ID, f, End);
    assert TextsOf(t3) == [f];
    var t2 := Push(DOT, ".", t3);
    assert TextsOf(t2) == [".", f];
    var t1 := Push(ID, x, t2);
    assert TextsOf(t1) == [x, ".", f];
    var t0 := Push(NOT, "!", t1);
    assert TextsOf(t0) == ["!", x, ".", f];
    var e := Not(Field(Id(x), f, false));
    FieldPrint(x, f, 9, End);
    PrefixPrint(Not(Field(Id(x), f, false)));
    hide Print, Wf, Plain;
    assert Print(e, 0, End) == t0;
    Printed(e, ["!", x, ".", f]);
  }

  /** A unary operator binds tighter than any binary one. */
  lemma NegBinds(x: string, p: string, y: string, i: int)
    requires IsName(x) && IsName(y) && InGroup(p, i)
    ensures Means(["-", x, p, y], Binary(Meant(p), Neg(Id(x)), Id(y)))
  {
    hide IsName, OpLevel, Meant, OpText, InGroup, Means;
    Groups(p, i);
    InRange(p, i);
    NoStrings(Meant(p), p, i);
    NameIsPlain(x);
    NameIsPlain(y);
    var t3 := Push(ID, y, End);
    assert TextsOf(t3) == [y];
    var t2 := Push(Meant(p), p, t3);
    assert TextsOf(t2) == [p, y];
    var t1 := Push(ID, x, t2);
    assert TextsOf(t1) == [x, p, y];
    var t0 := Push(SUB, "-", t1);
    assert TextsOf(t0) == ["-", x, p, y];
    var e := Binary(Meant(p), Neg(Id(x)), Id(y));
    PlainOperator(Meant(p), Neg(Id(x)), Id(y));
    PrintOperator(Meant(p), Neg(Id(x)), Id(y), 0, End);
    PrintName(y, i + 3, End);
    PrintName(x, 9, t2);
    assert Print(e, 0, End) == t0;
    Printed(e, ["-", x, p, y]);
  }

  /** A member binds tighter than a unary operator. */
  lemma NegField(x: string, f: string)
    requires IsName(x) && IsName(f)
    ensures Means(["-", x, ".", f], Neg(Field(Id(x), f, false)))
  {
    hide IsName, OpLevel, Meant, OpText, InGroup, Means;
    NameIsPlain(f);
    NameIsPlain(x);
    var t3 := Push(ID, f, End);
    assert TextsOf(t3) == [f];
    var t2 := Push(DOT, ".", t3);
    assert TextsOf(t2) == [".", f];
    var t1 := Push(ID, x, t2);
    assert TextsOf(t1) == [x, ".", f];
    var t0 := Push(SUB, "-", t1);
    assert TextsOf(t0) == ["-", x, ".", f];
    var e := Neg(Field(Id(x), f, false));
    FieldPrint(x, f, 9, End);
    PrefixPrint(Neg(Field(Id(x), f, false)));
    hide Print, Wf, Plain;
    assert Print(e, 0, End) == t0;
    Printed(e, ["-", x, ".", f]);
  }

  /** A ternary is looser than all binary operators. */
  lemma TernaryBinds(x: string, p: string, y: string, a: string, b: string, i: int)
    requires IsName(x) && IsName(y) && IsName(a) && IsName(b) && InGroup(p, i)
    ensures Means([x, p, y, "?", a, ":", b], Ternary(Op(x, p, y), Id(a), Id(b)))
  {
    hide IsName, OpLevel, Meant, OpText, InGroup, Means;
    InRange(p, i);
    PrintOp(x, p, y, i, 0, End);
    NameIsPlain(a);
    NameIsPlain(b);
    var t6 := Push(ID, b, End);
    assert TextsOf(t6) == [b];
    var t5 := Push(COLON, ":", t6);
    assert TextsOf(t5) == [":", b];
    var t4 := Push(ID, a, t5);
    assert TextsOf(t4) == [a, ":", b];
    var t3 := Push(QUESTION, "?", t4);
    assert TextsOf(t3) == ["?", a, ":", b];
    var t2 := Push(ID, y, t3);
    assert TextsOf(t2) == [y, "?", a, ":", b];
    var t1 := Push(Meant(p), p, t2);
    assert TextsOf(t1) == [p, y, "?", a, ":", b];
    var t0 := Push(ID, x, t1);
    assert TextsOf(t0) == [x, p, y, "?", a, ":", b];
    var e := Ternary(Op(x, p, y), Id(a), Id(b));
    PrintName(b, 0, End);
    PrintName(a, 0, t5);
    PrintOp(x, p, y, i, 2, t3);
    assert Print(e, 0, End) == t0;
    Printed(e, [x, p, y, "?", a, ":", b]);
  }

  /** Ternaries nest to the right. */
  lemma TernaryNests(x: string, a: string, y: string, b: string, c: string)
    requires IsName(x) && IsName(a) && IsName(y) && IsName(b) && IsName(c)
    ensures Means([x, "?", a, ":", y, "?", b, ":", c], Ternary(Id(x), Id(a), Ternary(Id(y), Id(b), Id(c))))
  {
    hide IsName, OpLevel, Meant, OpText, InGroup, Means;
    NameIsPlain(x);
    NameIsPlain(a);
    NameIsPlain(y);
    NameIsPlain(b);
    NameIsPlain(c);
    var t8 := Push(ID, c, End);
    assert TextsOf(t8) == [c];
    var t7 := Push(COLON, ":", t8);
    assert TextsOf(t7) == [":", c];
    var t6 := Push(ID, b, t7);
    assert TextsOf(t6) == [b, ":", c];
    var t5 := Push(QUESTION, "?", t6);
    assert TextsOf(t5) == ["?", b, ":", c];
    var t4 := Push(ID, y, t5);
    assert TextsOf(t4) == [y, "?", b, ":", c];
    var t3 := Push(COLON, ":", t4);
    assert TextsOf(t3) == [":", y, "?", b, ":", c];
    var t2 := Push(ID, a, t3);
    assert TextsOf(t2) == [a, ":", y, "?", b, ":", c];
    var t1 := Push(QUESTION, "?", t2);
    assert TextsOf(t1) == ["?", a, ":", y, "?", b, ":", c];
    var t0 := Push(ID, x, t1);
    assert TextsOf(t0) == [x, "?", a, ":", y, "?", b, ":", c];
    var e := Ternary(Id(x), Id(a), Ternary(Id(y), Id(b), Id(c)));
    PrintName(c, 0, End);
    PrintName(b, 0, t7);
    PrintName(y, 2, t5);
    PrintName(a, 0, t3);
    PrintName(x, 2, t1);
    assert Print(Ternary(Id(y), Id(b), Id(c)), 0, End) == t4;
    assert Print(e, 0, End) == t0;
    Printed(e, [x, "?", a, ":", y, "?", b, ":", c]);
  }

  /** An assignment is the loosest. */
  lemma AssignBinds(x: string, y: string, p: string, z: string, i: int)
    requires IsName(x) && IsName(y) && IsName(z) && InGroup(p, i)
    ensures Means([x, "=", y, p, z], AssignName(x, Op(y, p, z)))
  {
    hide IsName, OpLevel, Meant, OpText, InGroup, Means;
    InRange(p, i);
    PrintOp(y, p, z, i, 0, End);
    var t4 := Push(ID, z, End);
    assert TextsOf(t4) == [z];
    var t3 := Push(Meant(p), p, t4);
    assert TextsOf(t3) == [p, z];
    var t2 := Push(ID, y, t3);
    assert TextsOf(t2) == [y, p, z];
    var t1 := Push(ASSIGN, "=", t2);
    assert TextsOf(t1) == ["=", y, p, z];
    var t0 := Push(ID, x, t1);
    assert TextsOf(t0) == [x, "=", y, p, z];
    var e := AssignName(x, Op(y, p, z));
    PrintOp(y, p, z, i, 0, End);
    NamesAssign(x, Op(y, p, z));
    assert Print(e, 0, End) == t0;
    Printed(e, [x, "=", y, p, z]);
  }

  lemma AssignTernary(x: string, y: string, a: string, b: string)
    requires IsName(x) && IsName(y) && IsName(a) && IsName(b)
    ensures Means([x, "=", y, "?", a, ":", b], AssignName(x, Ternary(Id(y), Id(a), Id(b))))
  {
    hide IsName, OpLevel, Meant, OpText, InGroup, Means;
    NameIsPlain(y);
    NameIsPlain(a);
    NameIsPlain(b);
    var t6 := Push(ID, b, End);
    assert TextsOf(t6) == [b];
    var t5 := Push(COLON, ":", t6);
    assert TextsOf(t5) == [":", b];
    var t4 := Push(ID, a, t5);
    assert TextsOf(t4) == [a, ":", b];
    var t3 := Push(QUESTION, "?", t4);
    assert TextsOf(t3) == ["?", a, ":", b];
    var t2 := Push(ID, y, t3);
    assert TextsOf(t2) == [y, "?", a, ":", b];
    var t1 := Push(ASSIGN, "=", t2);
    assert TextsOf(t1) == ["=", y, "?", a, ":", b];
    var t0 := Push(ID, x, t1);
    assert TextsOf(t0) == [x, "=", y, "?", a, ":", b];
    var e := AssignName(x, Ternary(Id(y), Id(a), Id(b)));
    PrintName(b, 0, End);
    PrintName(a, 0, t5);
    PrintName(y, 2, t3);
    assert Print(Ternary(Id(y), Id(a), Id(b)), 0, End) == t2;
    NamesAssign(x, Ternary(Id(y), Id(a), Id(b)));
    assert Print(e, 0, End) == t0;
    Printed(e, [x, "=", y, "?", a, ":", b]);
  }

  /** Assignments nest to the right. */
  lemma AssignNests(x: string, y: string, z: string)
    requires IsName(x) && IsName(y) && IsName(z)
    ensures Means([x, "=", y, "=", z], AssignName(x, AssignName(y, Id(z))))
  {
    hide IsName, OpLevel, Meant, OpText, InGroup, Means;
    NameIsPlain(z);
    var t4 := Push(ID, z, End);
    assert TextsOf(t4) == [z];
    var t3 := Push(ASSIGN, "=", t4);
    assert TextsOf(t3) == ["=", z];
    var t2 := Push(ID, y, t3);
    assert TextsOf(t2) == [y, "=", z];
    var t1 := Push(ASSIGN, "=", t2);
    assert TextsOf(t1) == ["=", y, "=", z];
    var t0 := Push(ID, x, t1);
    assert TextsOf(t0) == [x, "=", y, "=", z];
    var e := AssignName(x, AssignName(y, Id(z)));
    PrintName(z, 0, End);
    NamesAssign(y, Id(z));
    assert Print(AssignName(y, Id(z)), 0, End) == t2;
    NamesAssign(x, AssignName(y, Id(z)));
    assert Print(e, 0, End) == t0;
    Printed(e, [x, "=", y, "=", z]);
  }

  lemma ElementAssign(x: string, y: string, z: string)
    requires IsName(x) && IsName(y) && IsName(z)
    ensures Means([x, "[", y, "]", "=", z], AssignIndex(Index(Id(x), Id(y)), Id(z)))
  {
    hide IsName, OpLevel, Meant, OpText, InGroup, Means;
    NameIsPlain(x);
    NameIsPlain(y);
    NameIsPlain(z);
    var t5 := Push(ID, z, End);
    assert TextsOf(t5) == [z];
    var t4 := Push(ASSIGN, "=", t5);
    assert TextsOf(t4) == ["=", z];
    var t3 := Push(RBRACK, "]", t4);
    assert TextsOf(t3) == ["]", "=", z];
    var t2 := Push(ID, y, t3);
    assert TextsOf(t2) == [y, "]", "=", z];
    var t1 := Push(LBRACK, "[", t2);
    assert TextsOf(t1) == ["[", y, "]", "=", z];
    var t0 := Push(ID, x, t1);
    assert TextsOf(t0) == [x, "[", y, "]", "=", z];
    var e := AssignIndex(Index(Id(x), Id(y)), Id(z));
    PrintName(z, 0, End);
    PrintName(y, 0, t3);
    PrintName(x, 10, t1);
    assert Print(Index(Id(x), Id(y)), 10, t4) == t0;
    assert Print(e, 0, End) == t0;
    Printed(e, [x, "[", y, "]", "=", z]);
  }

  /** Parentheses come before precedence. */
  lemma ParensFirst(x: string, p: string, y: string, q: string, z: string, i: int, j: int)
    requires IsName(x) && IsName(y) && IsName(z) && InGroup(p, i) && InGroup(q, j) && j > i
    ensures Means(["(", x, p, y, ")", q, z], Binary(Meant(q), Op(x, p, y), Id(z)))
  {
    hide IsName, OpLevel, Meant, OpText, InGroup, Means;
    InRange(p, i);
    InRange(q, j);
    Groups(q, j);
    NoStrings(Meant(q), q, j);
    PrintOp(x, p, y, i, 0, End);
    NameIsPlain(z);
    var t6 := Push(ID, z, End);
    assert TextsOf(t6) == [z];
    var t5 := Push(Meant(q), q, t6);
    assert TextsOf(t5) == [q, z];
    var t4 := Push(RPAREN, ")", t5);
    assert TextsOf(t4) == [")", q, z];
    var t3 := Push(ID, y, t4);
    assert TextsOf(t3) == [y, ")", q, z];
    var t2 := Push(Meant(p), p, t3);
    assert TextsOf(t2) == [p, y, ")", q, z];
    var t1 := Push(ID, x, t2);
    assert TextsOf(t1) == [x, p, y, ")", q, z];
    var t0 := Push(LPAREN, "(", t1);
    assert TextsOf(t0) == ["(", x, p, y, ")", q, z];
    var e := Binary(Meant(q), Op(x, p, y), Id(z));
    PlainOperator(Meant(q), Op(x, p, y), Id(z));
    PrintOperator(Meant(q), Op(x, p, y), Id(z), 0, End);
    PrintName(z, j + 3, End);
    ParensPrint(Op(x, p, y), j + 2, t5);
    BarePrint(Op(x, p, y), t4);
    PrintOp(x, p, y, i, 0, t4);
    assert Print(e, 0, End) == t0;
    Printed(e, ["(", x, p, y, ")", q, z]);
  }

  lemma ParensLast(x: string, p: string, y: string, q: string, z: string, i: int, j: int)
    requires IsName(x) && IsName(y) && IsName(z) && InGroup(p, i) && InGroup(q, j) && j <= i
    ensures Means([x, p, "(", y, q, z, ")"], Binary(Meant(p), Id(x), Op(y, q, z)))
  {
    hide IsName, OpLevel, Meant, OpText, InGroup, Means;
    InRange(p, i);
    InRange(q, j);
    Groups(p, i);
    NoStrings(Meant(p), p, i);
    PrintOp(y, q, z, j, 0, End);
    NameIsPlain(x);
    var t6 := Push(RPAREN, ")", End);
    assert TextsOf(t6) == [")"];
    var t5 := Push(ID, z, t6);
    assert TextsOf(t5) == [z, ")"];
    var t4 := Push(Meant(q), q, t5);
    assert TextsOf(t4) == [q, z, ")"];
    var t3 := Push(ID, y, t4);
    assert TextsOf(t3) == [y, q, z, ")"];
    var t2 := Push(LPAREN, "(", t3);
    assert TextsOf(t2) == ["(", y, q, z, ")"];
    var t1 := Push(Meant(p), p, t2);
    assert TextsOf(t1) == [p, "(", y, q, z, ")"];
    var t0 := Push(ID, x, t1);
    assert TextsOf(t0) == [x, p, "(", y, q, z, ")"];
    var e := Binary(Meant(p), Id(x), Op(y, q, z));
    PlainOperator(Meant(p), Id(x), Op(y, q, z));
    PrintOperator(Meant(p), Id(x), Op(y, q, z), 0, End);
    PrintName(x, i + 2, t1);
    ParensPrint(Op(y, q, z), i + 3, End);
    BarePrint(Op(y, q, z), t6);
    PrintOp(y, q, z, j, 0, t6);
    assert Print(e, 0, End) == t0;
    Printed(e, [x, p, "(", y, q, z, ")"]);
  }

  // ---- members, calls, elements ----

  lemma FieldReads(x: string, f: string)
    requires IsName(x) && IsName(f)
    ensures Means([x, ".", f], Field(Id(x), f, false))
  {
    hide IsName, OpLevel, Meant, OpText, InGroup, Means;
    NameIsPlain(f);
    NameIsPlain(x);
    var t2 := Push(ID, f, End);
    assert TextsOf(t2) == [f];
    var t1 := Push(DOT, ".", t2);
    assert TextsOf(t1) == [".", f];
    var t0 := Push(ID, x, t1);
    assert TextsOf(t0) == [x, ".", f];
    var e := Field(Id(x), f, false);
    PrintName(x, 10, t1);
    assert Print(e, 0, End) == t0;
    Printed(e, [x, ".", f]);
  }

  lemma SafeFieldReads(x: string, f: string)
    requires IsName(x) && IsName(f)
    ensures Means([x, "?.", f], Field(Id(x), f, true))
  {
    hide IsName, OpLevel, Meant, OpText, InGroup, Means;
    NameIsPlain(f);
    NameIsPlain(x);
    var t2 := Push(ID, f, End);
    assert TextsOf(t2) == [f];
    var t1 := Push(NULLSAFE, "?.", t2);
    assert TextsOf(t1) == ["?.", f];
    var t0 := Push(ID, x, t1);
    assert TextsOf(t0) == [x, "?.", f];
    var e := Field(Id(x), f, true);
    PrintName(x, 10, t1);
    assert Print(e, 0, End) == t0;
    Printed(e, [x, "?.", f]);
  }

  lemma MethodReads(x: string, f: string, y: string)
    requires IsName(x) && IsName(f) && IsName(y)
    ensures Means([x, ".", f, "(", y, ")"], Method(Id(x), f, [Id(y)], false))
  {
    hide IsName, OpLevel, Meant, OpText, InGroup, Means;
    NameIsPlain(f);
    NameIsPlain(x);
    NameIsPlain(y);
    var t5 := Push(RPAREN, ")", End);
    assert TextsOf(t5) == [")"];
    var t4 := Push(ID, y, t5);
    assert TextsOf(t4) == [y, ")"];
    var t3 := Push(LPAREN, "(", t4);
    assert TextsOf(t3) == ["(", y, ")"];
    var t2 := Push(ID, f, t3);
    assert TextsOf(t2) == [f, "(", y, ")"];
    var t1 := Push(DOT, ".", t2);
    assert TextsOf(t1) == [".", f, "(", y, ")"];
    var t0 := Push(ID, x, t1);
    assert TextsOf(t0) == [x, ".", f, "(", y, ")"];
    var e := Method(Id(x), f, [Id(y)], false);
    PrintName(y, 0, t5);
    OneArg(y, End);
    PrintName(x, 10, t1);
    assert Print(e, 0, End) == t0;
    Printed(e, [x, ".", f, "(", y, ")"]);
  }

  lemma CallReads(f: string, x: string, y: string)
    requires IsName(f) && IsName(x) && IsName(y)
    ensures Means([f, "(", x, ",", y, ")"], Method(Nil, f, [Id(x), Id(y)], false))
  {
    hide IsName, OpLevel, Meant, OpText, InGroup, Means;
    NameIsPlain(f);
    NameIsPlain(x);
    NameIsPlain(y);
    var t5 := Push(RPAREN, ")", End);
    assert TextsOf(t5) == [")"];
    var t4 := Push(ID, y, t5);
    assert TextsOf(t4) == [y, ")"];
    var t3 := Push(COMMA, ",", t4);
    assert TextsOf(t3) == [",", y, ")"];
    var t2 := Push(ID, x, t3);
    assert TextsOf(t2) == [x, ",", y, ")"];
    var t1 := Push(LPAREN, "(", t2);
    assert TextsOf(t1) == ["(", x, ",", y, ")"];
    var t0 := Push(ID, f, t1);
    assert TextsOf(t0) == [f, "(", x, ",", y, ")"];
    var e := Method(Nil, f, [Id(x), Id(y)], false);
    TwoArgs(x, y, t5);
    CallPrint(f, [Id(x), Id(y)], End);
    hide Print, Wf, Plain, PrintArgs;
    assert Print(e, 0, End) == t0;
    Printed(e, [f, "(", x, ",", y, ")"]);
  }

  lemma IndexReads(x: string, y: string)
    requires IsName(x) && IsName(y)
    ensures Means([x, "[", y, "]"], Index(Id(x), Id(y)))
  {
    hide IsName, OpLevel, Meant, OpText, InGroup, Means;
    NameIsPlain(x);
    NameIsPlain(y);
    var t3 := Push(RBRACK, "]", End);
    assert TextsOf(t3) == ["]"];
    var t2 := Push(ID, y, t3);
    assert TextsOf(t2) == [y, "]"];
    var t1 := Push(LBRACK, "[", t2);
    assert TextsOf(t1) == ["[", y, "]"];
    var t0 := Push(ID, x, t1);
    assert TextsOf(t0) == [x, "[", y, "]"];
    var e := Index(Id(x), Id(y));
    PrintName(y, 0, t3);
    PrintName(x, 10, t1);
    assert Print(e, 0, End) == t0;
    Printed(e, [x, "[", y, "]"]);
  }

  lemma ArrayReads(x: string, y: string)
    requires IsName(x) && IsName(y)
    ensures Means(["[", x, ",", y, "]"], Array([Id(x), Id(y)]))
  {
    hide IsName, OpLevel, Meant, OpText, InGroup, Means;
    NameIsPlain(x);
    NameIsPlain(y);
    var t4 := Push(RBRACK, "]", End);
    assert TextsOf(t4) == ["]"];
    var t3 := Push(ID, y, t4);
    assert TextsOf(t3) == [y, "]"];
    var t2 := Push(COMMA, ",", t3);
    assert TextsOf(t2) == [",", y, "]"];
    var t1 := Push(ID, x, t2);
    assert TextsOf(t1) == [x, ",", y, "]"];
    var t0 := Push(LBRACK, "[", t1);
    assert TextsOf(t0) == ["[", x, ",", y, "]"];
    var e := Array([Id(x), Id(y)]);
    TwoArgs(x, y, t4);
    assert Print(e, 0, End) == t0;
    Printed(e, ["[", x, ",", y, "]"]);
  }

  lemma RangeReads(x: string, y: string)
    requires IsName(x) && IsName(y)
    ensures Means(["[", x, "..", y, "]"], Range(Id(x), Id(y)))
  {
    hide IsName, OpLevel, Meant, OpText, InGroup, Means;
    NameIsPlain(x);
    NameIsPlain(y);
    var t4 := Push(RBRACK, "]", End);
    assert TextsOf(t4) == ["]"];
    var t3 := Push(ID, y, t4);
    assert TextsOf(t3) == [y, "]"];
    var t2 := Push(RANGE, "..", t3);
    assert TextsOf(t2) == ["..", y, "]"];
    var t1 := Push(ID, x, t2);
    assert TextsOf(t1) == [x, "..", y, "]"];
    var t0 := Push(LBRACK, "[", t1);
    assert TextsOf(t0) == ["[", x, "..", y, "]"];
    var e := Range(Id(x), Id(y));
    PrintName(y, 0, t4);
    PrintName(x, 0, t2);
    assert Print(e, 0, End) == t0;
    Printed(e, ["[", x, "..", y, "]"]);
  }

  lemma StaticReads(c: string, m: string, x: string)
    requires IsName(c) && IsName(m) && IsName(x)
    ensures Means([c, "::", m, "(", x, ")"], StaticCall(c, m, [Id(x)]))
  {
    hide IsName, OpLevel, Meant, OpText, InGroup, Means;
    NameIsPlain(c);
    NameIsPlain(m);
    NameIsPlain(x);
    var t5 := Push(RPAREN, ")", End);
    assert TextsOf(t5) == [")"];
    var t4 := Push(ID, x, t5);
    assert TextsOf(t4) == [x, ")"];
    var t3 := Push(LPAREN, "(", t4);
    assert TextsOf(t3) == ["(", x, ")"];
    var t2 := Push(ID, m, t3);
    assert TextsOf(t2) == [m, "(", x, ")"];
    var t1 := Push(STATIC, "::", t2);
    assert TextsOf(t1) == ["::", m, "(", x, ")"];
    var t0 := Push(ID, c, t1);
    assert TextsOf(t0) == [c, "::", m, "(", x, ")"];
    var e := StaticCall(c, m, [Id(x)]);
    PrintName(x, 0, t5);
    OneArg(x, End);
    assert Print(e, 0, End) == t0;
    Printed(e, [c, "::", m, "(", x, ")"]);
  }

  lemma StepReads(x: string)
    requires IsName(x)
    ensures Means([x, "++"], IncDec(x, true))
  {
    hide IsName, OpLevel, Meant, OpText, InGroup, Means;
    var t1 := Push(INC, "++", End);
    assert TextsOf(t1) == ["++"];
    var t0 := Push(ID, x, t1);
    assert TextsOf(t0) == [x, "++"];
    var e := IncDec(x, true);
    assert x != "" by { NameIsPlain(x); }
    assert Print(e, 0, End) == t0;
    Printed(e, [x, "++"]);
  }

  lemma StepBackReads(x: string)
    requires IsName(x)
    ensures Means([x, "--"], IncDec(x, false))
  {
    hide IsName, OpLevel, Meant, OpText, InGroup, Means;
    var t1 := Push(DEC, "--", End);
    assert TextsOf(t1) == ["--"];
    var t0 := Push(ID, x, t1);
    assert TextsOf(t0) == [x, "--"];
    var e := IncDec(x, false);
    assert x != "" by { NameIsPlain(x); }
    assert Print(e, 0, End) == t0;
    Printed(e, [x, "--"]);
  }

  lemma MapReads(k: string, x: string)
    requires IsText(k) && IsName(x)
    ensures Means(["{", "\"" + k + "\"", ":", x, "}"], Map([Pair(k, Id(x))]))
  {
    hide IsName, IsText, OpLevel, Meant, OpText, InGroup, Means;
    NameIsPlain(x);
    var t4 := Push(RBRACE, "}", End);
    assert TextsOf(t4) == ["}"];
    var t3 := Push(ID, x, t4);
    assert TextsOf(t3) == [x, "}"];
    var t2 := Push(COLON, ":", t3);
    assert TextsOf(t2) == [":", x, "}"];
    var t1 := Push(STR, k, t2);
    assert TextsOf(t1) == ["\"" + k + "\"", ":", x, "}"];
    var t0 := Push(LBRACE, "{", t1);
    assert TextsOf(t0) == ["{", "\"" + k + "\"", ":", x, "}"];
    var e := Map([Pair(k, Id(x))]);
    PrintName(x, 0, t4);
    MapPrint(k, x);
    hide Print, Wf, Plain;
    Printed(e, ["{", "\"" + k + "\"", ":", x, "}"]);
  }

  lemma MapPrint(k: string, x: string)
    requires IsText(k) && IsName(x)
    ensures var e, close := Map([Pair(k, Id(x))]), Push(RBRACE, "}", End);
      && Print(e, 0, End) == Push(LBRACE, "{", Push(STR, k, Push(COLON, ":", Push(ID, x, close))))
      && Wf(e) && Plain(e)
  {
    hide IsText, IsName;
    NameIsPlain(x);
    var pairs, close := [Pair(k, Id(x))], Push(RBRACE, "}", End);
    PrintName(x, 0, close);
    assert PrintPairs(pairs, close) == Push(STR, k, Push(COLON, ":", Print(Id(x), 0, close)));
  }

  // ---- literals ----

  predicate Digits(v: string) {
    v != "" && forall c | c in v :: '0' <= c <= '9'
  }

  /** Digits are an integer, with a dot between them a float; a quoted text is a string. */
  lemma LiteralsRead(a: string, b: string, text: string)
    requires Digits(a) && Digits(b) && IsText(text)
    ensures Means([a], Int(a)) && Means([a + "." + b], Float(a + "." + b)) && Means(["\"" + text + "\""], Str(text))
  {
    DigitsNumeral(a);
    FloatNumeral(a, b);
    hide IsNumeral, IsText, Digits, Means;
    OneToken(Int(a), INT, a);
    OneToken(Float(a + "." + b), FLOAT, a + "." + b);
    OneToken(Str(text), STR, text);
  }

  lemma OneToken(e: Expr, k: Kind, v: string)
    requires Wf(e) && Plain(e) && !e.Nil? && Print(e, 0, End) == Push(k, v, End)
    ensures Means([TokenText(Token(k, v))], e)
  {
    hide Means, Plain;
    Printed(e, [TokenText(Token(k, v))]);
  }

  lemma {:induction false} NoDot(v: string, i: nat, j: nat)
    requires i <= j <= |v| && forall k | i <= k < j :: v[k] != '.'
    ensures !HasDot(v, i, j)
    decreases j - i
  {
    if i < j { NoDot(v, i, j - 1); }
  }

  lemma {:induction false} SomeDot(v: string, i: nat, j: nat, k: nat)
    requires i <= k < j <= |v| && v[k] == '.'
    ensures HasDot(v, i, j)
    decreases j - i
  {
    if k < j - 1 { SomeDot(v, i, j - 1, k); }
  }

  lemma DigitsNumeral(v: string)
    requires Digits(v)
    ensures IsNumeral(v, false)
  {
    assert forall k | 0 <= k < |v| :: v[k] in v;
    NoDot(v, 0, |v|);
  }

  lemma FloatNumeral(a: string, b: string)
    requires Digits(a) && Digits(b)
    ensures IsNumeral(a + "." + b, true)
  {
    var v := a + "." + b;
    assert v[|a|] == '.' && v[0] == a[0] && a[0] in a;
    SomeDot(v, 0, |v|, |a|);
    forall k | 0 <= k < |v| ensures InNumber(v, k) {
      if k < |a| {
        assert v[k] == a[k] && a[k] in a;
      } else if k > |a| {
        assert v[k] == b[k - |a| - 1] && b[k - |a| - 1] in b;
      } else {
        assert v[k + 1] == b[0] && b[0] in b;
      }
    }
  }

  /** The words for truth and nothing. */
  lemma WordsRead()
    ensures Means(["true"], Bool(true)) && Means(["TRUE"], Bool(true)) && Means(["false"], Bool(false))
    ensures Means(["FALSE"], Bool(false)) && Means(["null"], Null) && Means(["nil"], Null)
  {
    hide *;
    Keyword("true", Bool(true));
    Keyword("TRUE", Bool(true));
    Keyword("false", Bool(false));
    Keyword("FALSE", Bool(false));
    Keyword("null", Null);
    Keyword("nil", Null);
  }

  lemma Keyword(v: string, e: Expr)
    requires v == "true" || v == "TRUE" || v == "false" || v == "FALSE" || v == "null" || v == "nil"
    requires e == if v == "true" || v == "TRUE" then Bool(true)
      else if v == "false" || v == "FALSE" then Bool(false)
      else Null
    ensures Means([v], e)
  {
    hide Means;
    OneWord(v, e);
  }

  lemma OneWord(v: string, e: Expr)
    requires IsWord(v) && (e.Bool? || e.Null?) && Print(e, 0, End) == More(Word(v), End)
    ensures Means([v], e)
  {
    hide Print, Word;
    assert Words([v]) == v;
    TrimWord(v);
    WordTokens(v);
    AssignRoundTrip(e, End);
    NothingAfter();
  }

  lemma TrimWord(v: string)
    requires IsWord(v)
    ensures Trim(v) == v
  {
    assert IsIdPart(v[0]) && IsIdPart(v[|v| - 1]);
  }

  lemma WordTokens(v: string)
    requires IsWord(v)
    ensures TokensFrom(v, 0) == More(Word(v), End)
  {
    hide TokensFrom;
    assert v[0..|v|] == v;
    ScanWord(v, 0, v);
    TokensStep(v, 0);
    AtInputEnd(v);
    assert IsIdPart(v[0]) && WsEnd(v, 0) == 0;
  }

  // ---- names ----

  /** A word of letters, digits, `_` and `$` that does not start with a digit is a name, but for the six
      words above. */
  lemma NamesRead(v: string)
    requires v != "" && Letter(v[0]) && forall k | 0 <= k < |v| :: Letter(v[k]) || '0' <= v[k] <= '9'
    requires v !in ["true", "TRUE", "false", "FALSE", "null", "nil"]
    ensures Means([v], Id(v))
  {
    NoKeyword(v);
    hide IsName, Means;
    NameIsPlain(v);
    PrintName(v, 0, End);
    OneToken(Id(v), ID, v);
  }

  lemma NoKeyword(v: string)
    requires v != "" && Letter(v[0]) && forall k | 0 <= k < |v| :: Letter(v[k]) || '0' <= v[k] <= '9'
    requires v !in ["true", "TRUE", "false", "FALSE", "null", "nil"]
    ensures IsName(v)
  {
    var words := ["true", "TRUE", "false", "FALSE", "null", "nil"];
    assert v != words[0] && v != words[1] && v != words[2] && v != words[3] && v != words[4] && v != words[5];
  }

  /** A step before a name is the step after it. */
  lemma PrefixSteps(x: string, up: bool)
    requires IsName(x)
    ensures Means([if up then "++" else "--", x], IncDec(x, up))
  {
    hide IsName, Means, OpLevel, AllCanonical, Render, TokensFrom;
    var k, v := if up then INC else DEC, if up then "++" else "--";
    var t1 := Push(ID, x, End);
    var t0 := Push(k, v, t1);
    assert TextsOf(t1) == [x];
    assert TextsOf(t0) == [v, x];
    RenderIs(t0);
    StepCanonical(x, up);
    LexerRoundTrip(t0);
    StepParses(x, up);
    MeansIs([v, x], IncDec(x, up));
  }

  lemma StepCanonical(x: string, up: bool)
    requires IsName(x)
    ensures AllCanonical(Push(if up then INC else DEC, if up then "++" else "--", Push(ID, x, End)))
  {
    hide Canonical, IsName;
    Doubles();
    NameCanonical(x);
    assert AllCanonical(End);
    assert AllCanonical(Push(ID, x, End));
  }

  lemma NameCanonical(x: string)
    requires IsName(x)
    ensures Canonical(Token(ID, x))
  {
  }

  lemma StepParses(x: string, up: bool)
    ensures ParseAssign(Push(if up then INC else DEC, if up then "++" else "--", Push(ID, x, End))) ==
      Ok(IncDec(x, up), End)
  {
    hide *;
    var s, v := Push(if up then INC else DEC, if up then "++" else "--", Push(ID, x, End)), Push(ID, x, End);
    EndFacts();
    AtomName(x, End);
    PostfixAtom(v, Id(x), End);
    PostfixStop(Id(x), End);
    StepUnary(x, up);
    BinaryUnary(s);
    BinaryClimb(9, s, IncDec(x, up), End);
    AssignPlain(s, IncDec(x, up), End);
  }

  lemma StepUnary(x: string, up: bool)
    requires ParsePostfix(Push(ID, x, End)) == Ok(Id(x), End)
    ensures ParseUnary(Push(if up then INC else DEC, if up then "++" else "--", Push(ID, x, End))) ==
      Ok(IncDec(x, up), End)
  {
    hide ParsePostfix;
  }

  lemma EndFacts()
    ensures Peek(End).kind == EOF && !IsPostfix(EOF) && OpLevel(EOF) == 0
  {
  }
}
