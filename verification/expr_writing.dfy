/** Trees whose names and literals can be written as text are printed as text that parses back. */
module ExprWriting {
  import opened ExprSyntax
  import opened ExprGrammar
  import opened ExprPrinting
  import opened ExprLexer
  import opened ExprRoundTrip
  import opened ExprText

  predicate IsName(v: string) {
    IsWord(v) && Word(v).kind == ID
  }

  predicate IsText(v: string) {
    '"' !in v && '\\' !in v
  }

  predicate IsNumeral(v: string, dot: bool) {
    IsNumber(v) && HasDot(v, 0, |v|) == dot
  }

  /** Names are identifiers and no keywords, numbers are numerals, strings need no escape. */
  predicate Plain(e: Expr) {
    match e
    case Nil => true
    case Id(name) => IsName(name)
    case Str(text) => IsText(text)
    case Int(digits) => IsNumeral(digits, false)
    case Float(digits) => IsNumeral(digits, true)
    case Bool(_) => true
    case Null => true
    case AssignName(name, value) => IsName(name) && Plain(value)
    case AssignIndex(target, value) => Plain(target) && Plain(value)
    case Ternary(c, a, b) => Plain(c) && Plain(a) && Plain(b)
    case Binary(_, l, r) => Plain(l) && Plain(r)
    case Not(a) => Plain(a)
    case Neg(a) => Plain(a)
    case IncDec(name, _) => name == "" || IsName(name)
    case Field(obj, name, _) => Plain(obj) && IsName(name)
    case Method(obj, name, args, _) => Plain(obj) && (name == "" || IsName(name)) && PlainArgs(args)
    case Index(obj, index) => Plain(obj) && Plain(index)
    case StaticCall(cls, name, args) => IsName(cls) && IsName(name) && PlainArgs(args)
    case Array(args) => PlainArgs(args)
    case Range(a, b) => Plain(a) && Plain(b)
    case Map(pairs) => PlainPairs(pairs)
  }

  predicate PlainArgs(args: seq<Expr>) {
    forall a <- args :: Plain(a)
  }

  predicate PlainPairs(pairs: seq<Pair>) {
    forall p <- pairs :: IsText(p.key) && Plain(p.value)
  }

  /** A static member is called somewhere. */
  predicate HasStatic(e: Expr) {
    match e
    case AssignName(_, value) => HasStatic(value)
    case AssignIndex(target, value) => HasStatic(target) || HasStatic(value)
    case Ternary(c, a, b) => HasStatic(c) || HasStatic(a) || HasStatic(b)
    case Binary(_, l, r) => HasStatic(l) || HasStatic(r)
    case Not(a) => HasStatic(a)
    case Neg(a) => HasStatic(a)
    case Field(obj, _, _) => HasStatic(obj)
    case Method(obj, _, args, _) => HasStatic(obj) || ArgsStatic(args)
    case Index(obj, index) => HasStatic(obj) || HasStatic(index)
    case StaticCall(_, _, _) => true
    case Array(args) => ArgsStatic(args)
    case Range(a, b) => HasStatic(a) || HasStatic(b)
    case Map(pairs) => PairsStatic(pairs)
    case _ => false
  }

  predicate ArgsStatic(args: seq<Expr>) {
    exists a <- args :: HasStatic(a)
  }

  predicate PairsStatic(pairs: seq<Pair>) {
    exists p <- pairs :: HasStatic(p.value)
  }

  /** In front of `rest`, the tokens p can be written and call a static member just if `calls`. */
  predicate Written(p: Tokens, calls: bool, rest: Tokens) {
    AllCanonical(rest) ==> AllCanonical(p) && (ContainsStatic(p) <==> calls || ContainsStatic(rest))
  }

  lemma PushWritten(k: Kind, val: string, p: Tokens, calls: bool, rest: Tokens)
    requires Canonical(Token(k, val)) && Written(p, calls, rest)
    ensures Written(Push(k, val, p), calls || k == STATIC, rest)
  {
  }

  lemma NothingWritten(rest: Tokens)
    ensures Written(rest, false, rest)
  {
  }

  lemma BothWritten(p: Tokens, a: bool, q: Tokens, b: bool, rest: Tokens)
    requires Written(p, a, q) && Written(q, b, rest)
    ensures Written(p, a || b, rest)
  {
  }

  lemma NameWritten(name: string, p: Tokens, calls: bool, rest: Tokens)
    requires IsName(name) && Written(p, calls, rest)
    ensures Written(Push(ID, name, p), calls, rest)
  {
    PushWritten(ID, name, p, calls, rest);
  }

  lemma OneChar(c: char)
    requires Single(c) != EOF
    ensures Canonical(Token(Single(c), [c]))
  {
    SingleKind(c);
    SingleNoWord(c);
  }

  lemma SingleNoWord(c: char)
    ensures var k := Single(c); k != BOOL && k != NULL && k != STR && k != INT && k != FLOAT
  {
  }

  lemma TwoChars(c: char, d: char)
    requires Pair2(c, d) != EOF
    ensures Canonical(Token(Pair2(c, d), [c, d]))
  {
    PairKind(c, d);
    PairNoWord(c, d);
  }

  lemma PairNoWord(c: char, d: char)
    ensures var k := Pair2(c, d); k != BOOL && k != NULL && k != STR && k != INT && k != FLOAT
  {
  }

  lemma SingleBrackets()
    ensures Single('(') == LPAREN && Single(')') == RPAREN && Single('[') == LBRACK && Single(']') == RBRACK
    ensures Single('{') == LBRACE && Single('}') == RBRACE
  {
  }

  lemma SingleMarks()
    ensures Single('=') == ASSIGN && Single('?') == QUESTION && Single(':') == COLON && Single(',') == COMMA
    ensures Single('!') == NOT && Single('-') == SUB && Single('.') == DOT
  {
  }

  lemma PairDoubles()
    ensures Pair2('?', '.') == NULLSAFE && Pair2(':', ':') == STATIC && Pair2('.', '.') == RANGE
    ensures Pair2('+', '+') == INC && Pair2('-', '-') == DEC
  {
  }

  lemma Brackets()
    ensures Canonical(Token(LPAREN, "(")) && Canonical(Token(RPAREN, ")")) && Canonical(Token(LBRACK, "["))
    ensures Canonical(Token(RBRACK, "]")) && Canonical(Token(LBRACE, "{")) && Canonical(Token(RBRACE, "}"))
  {
    SingleBrackets();
    hide Canonical, Single;
    OneChar('(');
    OneChar(')');
    OneChar('[');
    OneChar(']');
    OneChar('{');
    OneChar('}');
  }

  lemma Marks()
    ensures Canonical(Token(ASSIGN, "=")) && Canonical(Token(QUESTION, "?")) && Canonical(Token(COLON, ":"))
    ensures Canonical(Token(COMMA, ",")) && Canonical(Token(NOT, "!")) && Canonical(Token(SUB, "-"))
    ensures Canonical(Token(DOT, "."))
  {
    SingleMarks();
    hide Canonical, Single;
    OneChar('=');
    OneChar('?');
    OneChar(':');
    OneChar(',');
    OneChar('!');
    OneChar('-');
    OneChar('.');
  }

  lemma Doubles()
    ensures Canonical(Token(NULLSAFE, "?.")) && Canonical(Token(STATIC, "::")) && Canonical(Token(RANGE, ".."))
    ensures Canonical(Token(INC, "++")) && Canonical(Token(DEC, "--"))
  {
    PairDoubles();
    hide Canonical, Pair2;
    TwoChars('?', '.');
    TwoChars(':', ':');
    TwoChars('.', '.');
    TwoChars('+', '+');
    TwoChars('-', '-');
  }

  lemma Symbols()
    ensures Canonical(Token(LPAREN, "(")) && Canonical(Token(RPAREN, ")")) && Canonical(Token(LBRACK, "["))
    ensures Canonical(Token(RBRACK, "]")) && Canonical(Token(LBRACE, "{")) && Canonical(Token(RBRACE, "}"))
    ensures Canonical(Token(ASSIGN, "=")) && Canonical(Token(QUESTION, "?")) && Canonical(Token(COLON, ":"))
    ensures Canonical(Token(COMMA, ",")) && Canonical(Token(NOT, "!")) && Canonical(Token(SUB, "-"))
    ensures Canonical(Token(DOT, ".")) && Canonical(Token(NULLSAFE, "?.")) && Canonical(Token(STATIC, "::"))
    ensures Canonical(Token(RANGE, "..")) && Canonical(Token(INC, "++")) && Canonical(Token(DEC, "--"))
  {
    hide Canonical;
    Brackets();
    Marks();
    Doubles();
  }

  lemma SingleOperators(op: Kind)
    requires OpLevel(op) != 0 && |OpText(op)| == 1
    ensures Single(OpText(op)[0]) == op
  {
  }

  lemma PairTable()
    ensures Pair2('|', '|') == OR && Pair2('&', '&') == AND && Pair2('=', '=') == EQ && Pair2('!', '=') == NE
    ensures Pair2('<', '=') == LE && Pair2('>', '=') == GE && Pair2('?', '?') == NULLCOALESCE
  {
  }

  lemma PairOperators(op: Kind)
    requires OpLevel(op) != 0 && |OpText(op)| != 1
    ensures |OpText(op)| == 2 && Pair2(OpText(op)[0], OpText(op)[1]) == op
  {
    PairTable();
    hide Pair2;
  }

  lemma NoEnd(op: Kind)
    requires OpLevel(op) != 0
    ensures op != EOF
  {
  }

  lemma Operators(op: Kind)
    requires OpLevel(op) != 0
    ensures Canonical(Token(op, OpText(op)))
  {
    hide *;
    NoEnd(op);
    var v := OpText(op);
    if |v| == 1 {
      SingleOperators(op);
      OneChar(v[0]);
      assert v == [v[0]];
    } else {
      PairOperators(op);
      TwoChars(v[0], v[1]);
      assert v == [v[0], v[1]];
    }
  }

  lemma Keywords()
    ensures Canonical(Token(BOOL, "true")) && Canonical(Token(BOOL, "false")) && Canonical(Token(NULL, "null"))
  {
  }

  lemma Literals(v: string)
    ensures IsText(v) ==> Canonical(Token(STR, v))
    ensures IsNumeral(v, false) ==> Canonical(Token(INT, v))
    ensures IsNumeral(v, true) ==> Canonical(Token(FLOAT, v))
  {
  }

  lemma {:induction false} PrintWritten(e: Expr, level: nat, rest: Tokens)
    requires Wf(e) && Plain(e)
    ensures Written(Print(e, level, rest), HasStatic(e), rest)
    decreases e, 5
  {
    hide PrintBare, Wf, Plain, Canonical, HasStatic, Written, NeedsParens;
    if NeedsParens(e, level, Peek(rest).kind) {
      ParensWritten(e, rest);
    } else {
      BareWritten(e, rest);
    }
  }

  lemma {:induction false} ParensWritten(e: Expr, rest: Tokens)
    requires Wf(e) && Plain(e)
    ensures Written(Push(LPAREN, "(", PrintBare(e, Push(RPAREN, ")", rest))), HasStatic(e), rest)
    decreases e, 4
  {
    hide PrintBare, Wf, Plain, Canonical, HasStatic, Written;
    Symbols();
    NothingWritten(rest);
    var tail := Push(RPAREN, ")", rest);
    PushWritten(RPAREN, ")", rest, false, rest);
    BareWritten(e, tail);
    BothWritten(PrintBare(e, tail), HasStatic(e), tail, false, rest);
    PushWritten(LPAREN, "(", PrintBare(e, tail), HasStatic(e), rest);
  }

  /** e in front of tokens that are written. */
  lemma {:induction false} Before(e: Expr, level: nat, q: Tokens, calls: bool, rest: Tokens)
    requires Wf(e) && Plain(e) && Written(q, calls, rest)
    ensures Written(Print(e, level, q), HasStatic(e) || calls, rest)
    decreases e, 6
  {
    hide Print, Wf, Plain, HasStatic, Written;
    PrintWritten(e, level, q);
    BothWritten(Print(e, level, q), HasStatic(e), q, calls, rest);
  }

  lemma {:induction false} BareWritten(e: Expr, rest: Tokens)
    requires Wf(e) && Plain(e)
    ensures Written(PrintBare(e, rest), HasStatic(e), rest)
    decreases e, 3
  {
    hide *;
    match e
    case AssignName(_, _) => AssignmentWritten(e, rest);
    case AssignIndex(_, _) => AssignmentWritten(e, rest);
    case Ternary(_, _, _) => TernaryWritten(e, rest);
    case Binary(_, _, _) => BinaryWritten(e, rest);
    case Not(_) => PrefixWritten(e, rest);
    case Neg(_) => PrefixWritten(e, rest);
    case Field(_, _, _) => FieldWritten(e, rest);
    case Method(_, _, _, _) => MethodWritten(e, rest);
    case Index(_, _) => IndexWritten(e, rest);
    case StaticCall(_, _, _) => StaticWritten(e, rest);
    case Array(_) => ArrayWritten(e, rest);
    case Range(_, _) => RangeWritten(e, rest);
    case Map(_) => MapWritten(e, rest);
    case IncDec(_, _) => StepWritten(e, rest);
    case _ => AtomWritten(e, rest);
  }

  lemma AtomWritten(e: Expr, rest: Tokens)
    requires Plain(e) && (e.Nil? || e.Id? || e.Str? || e.Int? || e.Float? || e.Bool? || e.Null?)
    ensures Written(PrintBare(e, rest), false, rest) && !HasStatic(e)
  {
    hide Canonical, Written, IsName, IsText, IsNumeral;
    NothingWritten(rest);
    Keywords();
    match e
    case Nil =>
    case Id(name) => NameWritten(name, rest, false, rest);
    case Str(text) =>
      Literals(text);
      PushWritten(STR, text, rest, false, rest);
    case Int(digits) =>
      Literals(digits);
      PushWritten(INT, digits, rest, false, rest);
    case Float(digits) =>
      Literals(digits);
      PushWritten(FLOAT, digits, rest, false, rest);
    case Bool(b) => PushWritten(BOOL, if b then "true" else "false", rest, false, rest);
    case Null => PushWritten(NULL, "null", rest, false, rest);
  }

  lemma StepWritten(e: Expr, rest: Tokens)
    requires e.IncDec? && Plain(e)
    ensures Written(PrintBare(e, rest), false, rest) && !HasStatic(e)
  {
    hide Canonical, Written, IsName;
    Symbols();
    Keywords();
    NothingWritten(rest);
    PushWritten(INC, "++", rest, false, rest);
    PushWritten(DEC, "--", rest, false, rest);
    var tail := if e.inc then Push(INC, "++", rest) else Push(DEC, "--", rest);
    if e.name == "" {
      PushWritten(NULL, "null", tail, false, rest);
    } else {
      NameWritten(e.name, tail, false, rest);
    }
  }

  lemma {:induction false} AssignmentWritten(e: Expr, rest: Tokens)
    requires (e.AssignName? || e.AssignIndex?) && Wf(e) && Plain(e)
    ensures Written(PrintBare(e, rest), HasStatic(e), rest)
    decreases e, 2
  {
    hide Print, Canonical, Written, IsName;
    Symbols();
    PrintWritten(e.value, 0, rest);
    var q, calls := Push(ASSIGN, "=", Print(e.value, 0, rest)), HasStatic(e.value);
    PushWritten(ASSIGN, "=", Print(e.value, 0, rest), calls, rest);
    if e.AssignName? {
      NameWritten(e.name, q, calls, rest);
    } else {
      Before(e.target, 10, q, calls, rest);
    }
  }

  lemma {:induction false} PrefixWritten(e: Expr, rest: Tokens)
    requires (e.Not? || e.Neg?) && Wf(e) && Plain(e)
    ensures Written(PrintBare(e, rest), HasStatic(e), rest)
    decreases e, 2
  {
    hide Print, Canonical, Written;
    Symbols();
    PrintWritten(e.arg, 9, rest);
    PushWritten(NOT, "!", Print(e.arg, 9, rest), HasStatic(e.arg), rest);
    PushWritten(SUB, "-", Print(e.arg, 9, rest), HasStatic(e.arg), rest);
  }

  lemma {:induction false} FieldWritten(e: Expr, rest: Tokens)
    requires e.Field? && Wf(e) && Plain(e)
    ensures Written(PrintBare(e, rest), HasStatic(e), rest)
    decreases e, 2
  {
    hide Print, Canonical, Written, IsName, PushDot;
    NothingWritten(rest);
    DotWritten(e.safe, e.name, rest, false, rest);
    Before(e.obj, 10, PushDot(e.safe, e.name, rest), false, rest);
  }

  lemma {:induction false} IndexWritten(e: Expr, rest: Tokens)
    requires e.Index? && Wf(e) && Plain(e)
    ensures Written(PrintBare(e, rest), HasStatic(e), rest)
    decreases e, 2
  {
    hide Print, Canonical, Written;
    Symbols();
    NothingWritten(rest);
    var last, i := Push(RBRACK, "]", rest), HasStatic(e.index);
    PushWritten(RBRACK, "]", rest, false, rest);
    Before(e.index, 0, last, false, rest);
    PushWritten(LBRACK, "[", Print(e.index, 0, last), i, rest);
    Before(e.obj, 10, Push(LBRACK, "[", Print(e.index, 0, last)), i, rest);
  }

  lemma {:induction false} StaticWritten(e: Expr, rest: Tokens)
    requires e.StaticCall? && Wf(e) && Plain(e)
    ensures Written(PrintBare(e, rest), HasStatic(e), rest)
    decreases e, 2
  {
    hide PrintCall, Canonical, Written, IsName, WfArgs, PlainArgs, ArgsStatic;
    Symbols();
    var call, calls := PrintCall(e.args, rest), ArgsStatic(e.args);
    CallWritten(e.args, rest);
    NameWritten(e.name, call, calls, rest);
    PushWritten(STATIC, "::", Push(ID, e.name, call), calls, rest);
    NameWritten(e.cls, Push(STATIC, "::", Push(ID, e.name, call)), true, rest);
  }

  lemma {:induction false} ArrayWritten(e: Expr, rest: Tokens)
    requires e.Array? && Wf(e) && Plain(e)
    ensures Written(PrintBare(e, rest), HasStatic(e), rest)
    decreases e, 2
  {
    hide PrintArgs, Canonical, Written, WfArgs, PlainArgs, ArgsStatic;
    Symbols();
    NothingWritten(rest);
    var last, calls := Push(RBRACK, "]", rest), ArgsStatic(e.args);
    PushWritten(RBRACK, "]", rest, false, rest);
    ArgsWritten(e.args, last);
    BothWritten(PrintArgs(e.args, last), calls, last, false, rest);
    PushWritten(LBRACK, "[", PrintArgs(e.args, last), calls, rest);
  }

  lemma {:induction false} MapWritten(e: Expr, rest: Tokens)
    requires e.Map? && Wf(e) && Plain(e)
    ensures Written(PrintBare(e, rest), HasStatic(e), rest)
    decreases e, 2
  {
    hide PrintPairs, Canonical, Written, WfPairs, PlainPairs, PairsStatic;
    Symbols();
    NothingWritten(rest);
    var last, calls := Push(RBRACE, "}", rest), PairsStatic(e.pairs);
    PushWritten(RBRACE, "}", rest, false, rest);
    PairsWritten(e.pairs, last);
    BothWritten(PrintPairs(e.pairs, last), calls, last, false, rest);
    PushWritten(LBRACE, "{", PrintPairs(e.pairs, last), calls, rest);
  }

  lemma {:induction false} TernaryWritten(e: Expr, rest: Tokens)
    requires e.Ternary? && Wf(e) && Plain(e)
    ensures Written(PrintBare(e, rest), HasStatic(e), rest)
    decreases e, 2
  {
    hide Print, Canonical, Written;
    Symbols();
    PrintWritten(e.els, 0, rest);
    var b := Print(e.els, 0, rest);
    PushWritten(COLON, ":", b, HasStatic(e.els), rest);
    Before(e.thn, 0, Push(COLON, ":", b), HasStatic(e.els), rest);
    var a := Print(e.thn, 0, Push(COLON, ":", b));
    PushWritten(QUESTION, "?", a, HasStatic(e.thn) || HasStatic(e.els), rest);
    Before(e.cond, 2, Push(QUESTION, "?", a), HasStatic(e.thn) || HasStatic(e.els), rest);
  }

  lemma {:induction false} BinaryWritten(e: Expr, rest: Tokens)
    requires e.Binary? && Wf(e) && Plain(e)
    ensures Written(PrintBare(e, rest), HasStatic(e), rest)
    decreases e, 2
  {
    hide Print, Canonical, Written, OpText;
    Operators(e.op);
    NothingWritten(rest);
    var r, level := HasStatic(e.right), OpLevel(e.op);
    PrintWritten(e.right, level + 1, rest);
    var tail := if e.right.Nil? then rest else Print(e.right, level + 1, rest);
    PushWritten(e.op, OpText(e.op), tail, r, rest);
    Before(e.left, level, Push(e.op, OpText(e.op), tail), r, rest);
  }

  lemma {:induction false} RangeWritten(e: Expr, rest: Tokens)
    requires e.Range? && Wf(e) && Plain(e)
    ensures Written(PrintBare(e, rest), HasStatic(e), rest)
    decreases e, 2
  {
    hide Print, Canonical, Written;
    Symbols();
    NothingWritten(rest);
    var last, b := Push(RBRACK, "]", rest), HasStatic(e.last);
    PushWritten(RBRACK, "]", rest, false, rest);
    Before(e.last, 0, last, false, rest);
    var q := Push(RANGE, "..", Print(e.last, 0, last));
    PushWritten(RANGE, "..", Print(e.last, 0, last), b, rest);
    Before(e.first, 0, q, b, rest);
    PushWritten(LBRACK, "[", Print(e.first, 0, q), HasStatic(e.first) || b, rest);
  }

  lemma DotWritten(safe: bool, name: string, p: Tokens, calls: bool, rest: Tokens)
    requires IsName(name) && Written(p, calls, rest)
    ensures Written(PushDot(safe, name, p), calls, rest)
  {
    hide Canonical, Written, IsName;
    Symbols();
    NameWritten(name, p, calls, rest);
    PushWritten(DOT, ".", Push(ID, name, p), calls, rest);
    PushWritten(NULLSAFE, "?.", Push(ID, name, p), calls, rest);
  }

  lemma {:induction false} MethodWritten(e: Expr, rest: Tokens)
    requires e.Method? && Wf(e) && Plain(e)
    ensures Written(PrintBare(e, rest), HasStatic(e), rest)
    decreases e, 2
  {
    hide Print, PrintCall, Canonical, Written, ArgsStatic, WfArgs, PlainArgs, IsName;
    var o, a, tail := HasStatic(e.obj), ArgsStatic(e.args), PrintCall(e.args, rest);
    CallWritten(e.args, rest);
    if e.name == "" {
      Before(e.obj, 10, tail, a, rest);
      ParensWritten(e.obj, tail);
      BothWritten(Push(LPAREN, "(", PrintBare(e.obj, Push(RPAREN, ")", tail))), o, tail, a, rest);
    } else {
      NameWritten(e.name, tail, a, rest);
      DotWritten(e.safe, e.name, tail, a, rest);
      Before(e.obj, 10, PushDot(e.safe, e.name, tail), a, rest);
    }
  }

  lemma {:induction false} CallWritten(args: seq<Expr>, rest: Tokens)
    requires WfArgs(args) && PlainArgs(args)
    ensures Written(PrintCall(args, rest), ArgsStatic(args), rest)
    decreases args, 1
  {
    hide PrintArgs, Canonical, Written, WfArgs, PlainArgs, ArgsStatic;
    Symbols();
    NothingWritten(rest);
    var last := Push(RPAREN, ")", rest);
    PushWritten(RPAREN, ")", rest, false, rest);
    ArgsWritten(args, last);
    BothWritten(PrintArgs(args, last), ArgsStatic(args), last, false, rest);
    PushWritten(LPAREN, "(", PrintArgs(args, last), ArgsStatic(args), rest);
  }

  lemma {:induction false} ArgsWritten(args: seq<Expr>, rest: Tokens)
    requires WfArgs(args) && PlainArgs(args)
    ensures Written(PrintArgs(args, rest), ArgsStatic(args), rest)
    decreases args, 0
  {
    hide Print, Wf, Plain, Canonical, Written, HasStatic;
    NothingWritten(rest);
    if args != [] {
      Symbols();
      assert args == [args[0]] + args[1..];
      PrintWritten(args[0], 0, rest);
      ArgsWritten(args[1..], rest);
      var q := Push(COMMA, ",", PrintArgs(args[1..], rest));
      PushWritten(COMMA, ",", PrintArgs(args[1..], rest), ArgsStatic(args[1..]), rest);
      Before(args[0], 0, q, ArgsStatic(args[1..]), rest);
    }
  }

  lemma {:induction false} PairsWritten(pairs: seq<Pair>, rest: Tokens)
    requires WfPairs(pairs) && PlainPairs(pairs)
    ensures Written(PrintPairs(pairs, rest), PairsStatic(pairs), rest)
    decreases pairs, 0
  {
    hide Print, Wf, Plain, Canonical, Written, HasStatic, IsText;
    NothingWritten(rest);
    if pairs != [] {
      Symbols();
      var p := pairs[0];
      assert pairs == [p] + pairs[1..];
      PairsWritten(pairs[1..], rest);
      var tail := if |pairs| == 1 then rest else Push(COMMA, ",", PrintPairs(pairs[1..], rest));
      var more := PairsStatic(pairs[1..]);
      PushWritten(COMMA, ",", PrintPairs(pairs[1..], rest), more, rest);
      Before(p.value, 0, tail, more, rest);
      PushWritten(COLON, ":", Print(p.value, 0, tail), HasStatic(p.value) || more, rest);
      Literals(p.key);
      PushWritten(STR, p.key, Push(COLON, ":", Print(p.value, 0, tail)), HasStatic(p.value) || more, rest);
    }
  }

  /** The text of a printed tree, with any blanks between the tokens and any tokens after it that do not
      continue it, parses back to that tree: the tokens after it are ignored. It is an error if a static
      member stands somewhere and may not. */
  lemma TextRoundTrip(e: Expr, rest: Tokens, gaps: seq<string>, allowStatic: bool)
    requires Wf(e) && Plain(e) && !e.Nil? && AllCanonical(rest) && Follows(0, Peek(rest).kind) && Gaps(gaps)
    ensures ParseText(Spaced(Print(e, 0, rest), gaps), allowStatic) ==
      if allowStatic || !(HasStatic(e) || ContainsStatic(rest)) then Tree(e) else Error
  {
    hide *;
    var ts := Print(e, 0, rest);
    PrintWritten(e, 0, rest);
    WrittenRule(ts, HasStatic(e), rest);
    SpacedRoundTrip(ts, gaps);
    CanonicalNoPanic(ts);
    AssignRoundTrip(e, rest);
    TextRule(Spaced(ts, gaps), allowStatic);
    HeadIsNoPanic(rest);
  }

  lemma WrittenRule(p: Tokens, calls: bool, rest: Tokens)
    requires Written(p, calls, rest) && AllCanonical(rest)
    ensures AllCanonical(p) && (ContainsStatic(p) <==> calls || ContainsStatic(rest))
  {
  }

  lemma TextRule(text: string, allowStatic: bool)
    ensures var ts := TokensFrom(Trim(text), 0); var r := ParseAssign(ts);
      ParseText(text, allowStatic) ==
        if !allowStatic && (ContainsStatic(ts) || HasPanic(ts)) then Error
        else if r.Fail? || r.e.Nil? || Peek(r.rest).kind == PANIC then Error else Tree(r.e)
  {
  }

  lemma HeadIsNoPanic(rest: Tokens)
    requires AllCanonical(rest)
    ensures Peek(rest).kind != PANIC
  {
  }
}
