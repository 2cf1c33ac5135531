/** Tokens, syntax trees and the minimal-parentheses printer of the template expression language. */
module ExprSyntax {

  /** Token kinds of enjoy/expr_lexer.go. PANIC is not a token of the source: it stands for the
      run-time panic the scanner raises when an unterminated string literal ends in a backslash. */
  datatype Kind =
    | EOF | ID | STR | INT | FLOAT | BOOL | NULL
    | ADD | SUB | MUL | DIV | MOD | EQ | NE | LT | LE | GT | GE | AND | OR | NOT
    | QUESTION | COLON | ASSIGN | LPAREN | RPAREN | LBRACK | RBRACK | LBRACE | RBRACE
    | DOT | COMMA | NULLSAFE | NULLCOALESCE | RANGE | INC | DEC | STATIC | PANIC

  datatype Token = Token(kind: Kind, val: string)

  const EOF_TOKEN := Token(EOF, "")

  /** Expression trees. Nil is the nil interface value, which several grammar positions admit. */
  datatype Expr =
    | Nil
    | Id(name: string)
    | Str(text: string)
    | Int(digits: string)
    | Float(digits: string)
    | Bool(b: bool)
    | Null
    | AssignName(name: string, value: Expr)
    | AssignIndex(target: Expr, value: Expr)
    | Ternary(cond: Expr, thn: Expr, els: Expr)
    | Binary(op: Kind, left: Expr, right: Expr)
    | Not(arg: Expr)
    | Neg(arg: Expr)
    | IncDec(name: string, inc: bool)
    | Field(obj: Expr, name: string, safe: bool)
    | Method(obj: Expr, name: string, args: seq<Expr>, safe: bool)
    | Index(obj: Expr, index: Expr)
    | StaticCall(cls: string, name: string, args: seq<Expr>)
    | Array(args: seq<Expr>)
    | Range(first: Expr, last: Expr)
    | Map(pairs: seq<Pair>)

  datatype Pair = Pair(key: string, value: Expr)

  // ---- token streams: the lookahead and what follows it; past the end the scanner repeats EOF ----

  datatype Tokens = End | More(head: Token, tail: Tokens)

  function Size(s: Tokens): nat {
    if s.End? then 0 else 1 + Size(s.tail)
  }

  function Peek(s: Tokens): Token {
    if s.End? then EOF_TOKEN else s.head
  }

  function Advance(s: Tokens): (r: Tokens)
    ensures Size(r) == if s.End? then 0 else Size(s) - 1
  {
    if s.End? then s else s.tail
  }

  function Push(k: Kind, val: string, s: Tokens): Tokens {
    More(Token(k, val), s)
  }

  // ---- precedence ----

  /** Level of a binary operator: 2 for || up to 7 for * / %, 8 for ??; 0 for any other token. */
  function OpLevel(k: Kind): nat {
    if k == OR then 2
    else if k == AND then 3
    else if k == EQ || k == NE then 4
    else if k == LT || k == LE || k == GT || k == GE then 5
    else if k == ADD || k == SUB then 6
    else if k == MUL || k == DIV || k == MOD then 7
    else if k == NULLCOALESCE then 8
    else 0
  }

  function OpText(k: Kind): string {
    match k
    case OR => "||"
    case AND => "&&"
    case EQ => "=="
    case NE => "!="
    case LT => "<"
    case LE => "<="
    case GT => ">"
    case GE => ">="
    case ADD => "+"
    case SUB => "-"
    case MUL => "*"
    case DIV => "/"
    case MOD => "%"
    case _ => "??"
  }

  function Prec(e: Expr): nat {
    match e
    case Nil => 0
    case AssignName(_, _) => 0
    case AssignIndex(_, _) => 0
    case Ternary(_, _, _) => 1
    case Binary(op, _, _) => OpLevel(op)
    case Not(_) => 9
    case Neg(_) => 9
    case IncDec(_, _) => 9
    case _ => 10
  }

  /** Tokens at which an operand may be missing: an atom that starts here is nil. */
  predicate EndsOperand(k: Kind) {
    || k == RPAREN || k == RBRACK || k == RBRACE || k == RANGE || k == COLON || k == QUESTION
    || k == AND || k == OR || k == EQ || k == NE || k == COMMA || k == EOF
  }

  predicate IsPostfix(k: Kind) {
    k == DOT || k == NULLSAFE || k == LBRACK || k == LPAREN || k == INC || k == DEC
  }

  /** The token after an expression printed at `level` continues neither that expression nor any
      tighter part of it. */
  predicate Follows(level: nat, k: Kind) {
    && !IsPostfix(k) && k != STATIC
    && (OpLevel(k) == 0 || OpLevel(k) < level)
    && (level <= 1 ==> k != QUESTION && k != ASSIGN)
  }

  /** Trees the grammar can produce. */
  predicate Wf(e: Expr) {
    match e
    case Nil => true
    case Id(name) => name != ""
    case Str(_) => true
    case Int(_) => true
    case Float(_) => true
    case Bool(_) => true
    case Null => true
    case AssignName(name, value) => name != "" && !value.Nil? && Wf(value)
    case AssignIndex(target, value) => target.Index? && Wf(target) && !value.Nil? && Wf(value)
    case Ternary(c, a, b) => !c.Nil? && !a.Nil? && !b.Nil? && Wf(c) && Wf(a) && Wf(b)
    case Binary(op, l, r) =>
      && OpLevel(op) != 0 && !l.Nil? && (op != NULLCOALESCE ==> !r.Nil?) && Wf(l) && Wf(r)
    case Not(a) => !a.Nil? && Wf(a)
    case Neg(a) => !a.Nil? && Wf(a)
    case IncDec(_, _) => true
    case Field(obj, name, _) => Wf(obj) && name != ""
    case Method(obj, name, args, safe) =>
      && Wf(obj) && (name == "" ==> !obj.Id? && !safe) && WfArgs(args)
    case Index(obj, index) => Wf(obj) && Wf(index)
    case StaticCall(cls, name, args) => cls != "" && name != "" && WfArgs(args)
    case Array(args) => WfArgs(args)
    case Range(a, b) => !a.Nil? && !b.Nil? && Wf(a) && Wf(b)
    case Map(pairs) => WfPairs(pairs)
  }

  predicate WfPairs(pairs: seq<Pair>) {
    forall p <- pairs :: !p.value.Nil? && Wf(p.value)
  }

  predicate WfArgs(args: seq<Expr>) {
    forall a <- args :: !a.Nil? && Wf(a)
  }

  // ---- printer ----

  /** A missing trailing operand is only legible when the next token may end an operand. */
  predicate OpenRight(e: Expr) {
    e.Nil? || (e.Binary? && e.right.Nil?)
  }

  predicate NeedsParens(e: Expr, level: nat, next: Kind) {
    Prec(e) < level || (OpenRight(e) && !EndsOperand(next))
  }

  /** Prints e at a grammar level in front of the tokens `rest`, parenthesised only where the
      level (or a missing last operand) needs it. */
  function Print(e: Expr, level: nat, rest: Tokens): Tokens
    decreases e, 1
  {
    if NeedsParens(e, level, Peek(rest).kind) then
      Push(LPAREN, "(", PrintBare(e, Push(RPAREN, ")", rest)))
    else
      PrintBare(e, rest)
  }

  function PrintBare(e: Expr, rest: Tokens): Tokens
    decreases e, 0
  {
    match e
    case Nil => rest
    case Id(name) => Push(ID, name, rest)
    case Str(text) => Push(STR, text, rest)
    case Int(digits) => Push(INT, digits, rest)
    case Float(digits) => Push(FLOAT, digits, rest)
    case Bool(b) => Push(BOOL, if b then "true" else "false", rest)
    case Null => Push(NULL, "null", rest)
    case AssignName(name, value) => Push(ID, name, Push(ASSIGN, "=", Print(value, 0, rest)))
    case AssignIndex(target, value) => Print(target, 10, Push(ASSIGN, "=", Print(value, 0, rest)))
    case Ternary(c, a, b) =>
      Print(c, 2, Push(QUESTION, "?", Print(a, 0, Push(COLON, ":", Print(b, 0, rest)))))
    case Binary(op, l, r) =>
      var tail := if r.Nil? then rest else Print(r, OpLevel(op) + 1, rest);
      Print(l, OpLevel(op), Push(op, OpText(op), tail))
    case Not(a) => Push(NOT, "!", Print(a, 9, rest))
    case Neg(a) => Push(SUB, "-", Print(a, 9, rest))
    case IncDec(name, inc) =>
      var tail := if inc then Push(INC, "++", rest) else Push(DEC, "--", rest);
      if name == "" then Push(NULL, "null", tail) else Push(ID, name, tail)
    case Field(obj, name, safe) => Print(obj, 10, PushDot(safe, name, rest))
    case Method(obj, name, args, safe) =>
      var tail := PrintCall(args, rest);
      if name == "" then
        // a call of a value: a field needs parentheses here, or the call would become a method
        if obj.Field? then Push(LPAREN, "(", PrintBare(obj, Push(RPAREN, ")", tail)))
        else Print(obj, 10, tail)
      else if obj.Nil? && !safe then Push(ID, name, tail)
      else Print(obj, 10, PushDot(safe, name, tail))
    case Index(obj, index) =>
      Print(obj, 10, Push(LBRACK, "[", Print(index, 0, Push(RBRACK, "]", rest))))
    case StaticCall(cls, name, args) =>
      Push(ID, cls, Push(STATIC, "::", Push(ID, name, PrintCall(args, rest))))
    case Array(args) => Push(LBRACK, "[", PrintArgs(args, Push(RBRACK, "]", rest)))
    case Range(a, b) =>
      Push(LBRACK, "[", Print(a, 0, Push(RANGE, "..", Print(b, 0, Push(RBRACK, "]", rest)))))
    case Map(pairs) => Push(LBRACE, "{", PrintPairs(pairs, Push(RBRACE, "}", rest)))
  }

  function PushDot(safe: bool, name: string, rest: Tokens): Tokens {
    if safe then Push(NULLSAFE, "?.", Push(ID, name, rest)) else Push(DOT, ".", Push(ID, name, rest))
  }

  function PrintCall(args: seq<Expr>, rest: Tokens): Tokens
    decreases args, 1
  {
    Push(LPAREN, "(", PrintArgs(args, Push(RPAREN, ")", rest)))
  }

  /** Comma-separated elements. */
  function PrintArgs(args: seq<Expr>, rest: Tokens): Tokens
    decreases args, 0
  {
    if args == [] then rest
    else if |args| == 1 then Print(args[0], 0, rest)
    else Print(args[0], 0, Push(COMMA, ",", PrintArgs(args[1..], rest)))
  }

  function PrintPairs(pairs: seq<Pair>, rest: Tokens): Tokens
    decreases pairs, 0
  {
    if pairs == [] then rest
    else
      var p := pairs[0];
      var tail := if |pairs| == 1 then rest else Push(COMMA, ",", PrintPairs(pairs[1..], rest));
      Push(STR, p.key, Push(COLON, ":", Print(p.value, 0, tail)))
  }
}
