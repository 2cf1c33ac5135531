/** The parser's steps as inference rules: each lemma is one production seen from the result. */
module ExprRules {
  import opened ExprSyntax
  import opened ExprGrammar

  predicate StartsAtom(k: Kind) {
    || k == ID || k == STR || k == INT || k == FLOAT || k == BOOL || k == NULL
    || k == LPAREN || k == LBRACK || k == LBRACE
  }

  lemma AssignPlain(s: Tokens, e: Expr, rest: Tokens)
    requires ParseBinary(2, s) == Ok(e, rest)
    requires Peek(rest).kind != QUESTION && Peek(rest).kind != ASSIGN
    ensures ParseAssign(s) == Ok(e, rest)
  {
    assert ParseTernary(s) == Ok(e, rest);
  }

  lemma AssignTernary(s: Tokens, e: Expr, rest: Tokens)
    requires ParseTernary(s) == Ok(e, rest) && Peek(rest).kind != ASSIGN
    ensures ParseAssign(s) == Ok(e, rest)
  {
  }

  lemma AssignTo(s: Tokens, target: Expr, v: Tokens, value: Expr, rest: Tokens)
    requires target.Id? || target.Index?
    requires ParseBinary(2, s) == Ok(target, Push(ASSIGN, "=", v))
    requires ParseAssign(v) == Ok(value, rest) && !value.Nil?
    ensures ParseAssign(s) ==
      Ok(if target.Id? then AssignName(target.name, value) else AssignIndex(target, value), rest)
  {
    assert ParseTernary(s) == Ok(target, Push(ASSIGN, "=", v));
  }

  lemma TernaryRule(e: Expr, s: Tokens, v1: Tokens, v2: Tokens, rest: Tokens)
    requires e.Ternary? && !e.cond.Nil? && !e.thn.Nil? && !e.els.Nil?
    requires ParseBinary(2, s) == Ok(e.cond, Push(QUESTION, "?", v1))
    requires ParseAssign(v1) == Ok(e.thn, Push(COLON, ":", v2))
    requires ParseAssign(v2) == Ok(e.els, rest)
    ensures ParseTernary(s) == Ok(e, rest)
  {
  }

  lemma BinaryRule(level: nat, op: Kind, l: Expr, v: Tokens, r: Expr, rest: Tokens)
    requires 2 <= level <= 8 && OpLevel(op) == level && !l.Nil?
    requires ParseBinary(level + 1, v) == Ok(r, rest) && (r.Nil? ==> op == NULLCOALESCE)
    ensures BinaryLoop(level, l, Push(op, OpText(op), v)) == BinaryLoop(level, Binary(op, l, r), rest)
  {
  }

  lemma BinaryOperand(level: nat, s: Tokens, e: Expr, rest: Tokens)
    requires 2 <= level <= 8 && ParseBinary(level + 1, s) == Ok(e, rest)
    ensures ParseBinary(level, s) == BinaryLoop(level, e, rest)
  {
  }

  lemma BinaryStop(level: nat, e: Expr, rest: Tokens)
    requires 2 <= level <= 9 && OpLevel(Peek(rest).kind) != level
    ensures BinaryLoop(level, e, rest) == Ok(e, rest)
  {
  }

  lemma BinaryUnary(s: Tokens)
    ensures ParseBinary(9, s) == ParseUnary(s)
  {
  }

  /** With no binary operator ahead, an operand passes through all the loops from its level up. */
  lemma {:induction false} BinaryClimb(level: nat, s: Tokens, e: Expr, rest: Tokens)
    requires 2 <= level <= 9 && ParseBinary(level, s) == Ok(e, rest)
    requires OpLevel(Peek(rest).kind) == 0
    ensures ParseBinary(2, s) == Ok(e, rest)
    decreases level
  {
    hide *;
    if level > 2 {
      NoOperator(level - 1, Peek(rest).kind);
      BinaryOperand(level - 1, s, e, rest);
      BinaryStop(level - 1, e, rest);
      BinaryClimb(level - 1, s, e, rest);
    }
  }

  lemma NoOperator(level: nat, k: Kind)
    requires OpLevel(k) == 0 && level > 0
    ensures OpLevel(k) != level
  {
  }

  lemma UnaryRule(not: bool, v: Tokens, e: Expr, rest: Tokens)
    requires ParseUnary(v) == Ok(e, rest) && !e.Nil?
    ensures ParseUnary(if not then Push(NOT, "!", v) else Push(SUB, "-", v))
         == Ok(if not then Not(e) else Neg(e), rest)
  {
  }

  lemma UnaryPostfix(s: Tokens)
    requires Peek(s).kind != NOT && Peek(s).kind != SUB && Peek(s).kind != INC && Peek(s).kind != DEC
    ensures ParseUnary(s) == ParsePostfix(s)
  {
  }

  lemma PostfixAtom(s: Tokens, e: Expr, rest: Tokens)
    requires ParseAtom(s) == Ok(e, rest)
    ensures ParsePostfix(s) == PostfixLoop(e, rest)
  {
  }

  lemma PostfixStop(e: Expr, s: Tokens)
    requires !IsPostfix(Peek(s).kind)
    ensures PostfixLoop(e, s) == Ok(e, s)
  {
  }

  lemma PostfixIncDec(e: Expr, inc: bool, rest: Tokens)
    ensures PostfixLoop(e, if inc then Push(INC, "++", rest) else Push(DEC, "--", rest))
         == Ok(IncDec(ExprName(e), inc), rest)
  {
  }

  lemma PostfixTurn(e: Expr, s: Tokens, e': Expr, rest: Tokens)
    requires IsPostfix(Peek(s).kind) && Peek(s).kind != INC && Peek(s).kind != DEC
    requires PostfixStep(e, s) == Ok(e', rest)
    ensures PostfixLoop(e, s) == PostfixLoop(e', rest)
  {
  }

  lemma PostfixMember(obj: Expr, name: string, safe: bool, s: Tokens, e: Expr, rest: Tokens)
    requires ParseMember(obj, name, safe, s) == Ok(e, rest)
    ensures PostfixLoop(obj, PushDot(safe, name, s)) == PostfixLoop(e, rest)
  {
    MemberStep(obj, name, safe, s);
    PostfixTurn(obj, PushDot(safe, name, s), e, rest);
  }

  lemma MemberStep(obj: Expr, name: string, safe: bool, s: Tokens)
    ensures var d := PushDot(safe, name, s);
      && IsPostfix(Peek(d).kind) && Peek(d).kind != INC && Peek(d).kind != DEC
      && PostfixStep(obj, d) == ParseMember(obj, name, safe, s)
  {
  }

  lemma PostfixField(obj: Expr, name: string, safe: bool, rest: Tokens)
    requires Peek(rest).kind != LPAREN
    ensures PostfixLoop(obj, PushDot(safe, name, rest)) == PostfixLoop(Field(obj, name, safe), rest)
  {
    PostfixMember(obj, name, safe, rest, Field(obj, name, safe), rest);
  }

  lemma PostfixMethod(obj: Expr, name: string, safe: bool, call: Tokens, args: seq<Expr>, rest: Tokens)
    requires Peek(call).kind == LPAREN && ParseCallArgs(call) == ArgsOk(args, rest)
    ensures PostfixLoop(obj, PushDot(safe, name, call))
         == PostfixLoop(Method(obj, name, args, safe), rest)
  {
    PostfixMember(obj, name, safe, call, Method(obj, name, args, safe), rest);
  }

  lemma PostfixCall(obj: Expr, call: Tokens, args: seq<Expr>, rest: Tokens)
    requires Peek(call).kind == LPAREN && ParseCallArgs(call) == ArgsOk(args, rest)
    ensures PostfixLoop(obj, call) == PostfixLoop(
              if obj.Id? then Method(Nil, obj.name, args, false) else Method(obj, "", args, false), rest)
  {
    PostfixTurn(obj, call,
                if obj.Id? then Method(Nil, obj.name, args, false) else Method(obj, "", args, false), rest);
  }

  lemma PostfixIndex(obj: Expr, v: Tokens, index: Expr, rest: Tokens)
    requires ParseAssign(v) == Ok(index, Push(RBRACK, "]", rest))
    ensures PostfixLoop(obj, Push(LBRACK, "[", v)) == PostfixLoop(Index(obj, index), rest)
  {
    PostfixTurn(obj, Push(LBRACK, "[", v), Index(obj, index), rest);
  }

  lemma AtomName(name: string, rest: Tokens)
    requires Peek(rest).kind != STATIC
    ensures ParseAtom(Push(ID, name, rest)) == Ok(Id(name), rest)
  {
    assert ParseAtom(Push(ID, name, rest)) == ParseName(name, rest);
  }

  lemma AtomStatic(cls: string, name: string, call: Tokens, args: seq<Expr>, rest: Tokens)
    requires Peek(call).kind == LPAREN && ParseCallArgs(call) == ArgsOk(args, rest)
    ensures ParseAtom(Push(ID, cls, Push(STATIC, "::", Push(ID, name, call))))
         == Ok(StaticCall(cls, name, args), rest)
  {
    var s := Push(STATIC, "::", Push(ID, name, call));
    assert ParseAtom(Push(ID, cls, s)) == ParseName(cls, s);
    assert ParseName(cls, s) == Ok(StaticCall(cls, name, args), rest);
  }

  lemma AtomLiteral(e: Expr, rest: Tokens)
    requires e.Str? || e.Int? || e.Float? || e.Bool? || e.Null?
    ensures ParseAtom(PrintBare(e, rest)) == Ok(e, rest)
  {
  }

  lemma AtomNil(s: Tokens)
    requires EndsOperand(Peek(s).kind)
    ensures ParseAtom(s) == Ok(Nil, s)
  {
  }

  lemma AtomParen(v: Tokens, e: Expr, rest: Tokens)
    requires ParseAssign(v) == Ok(e, Push(RPAREN, ")", rest))
    ensures ParseAtom(Push(LPAREN, "(", v)) == Ok(e, rest)
  {
  }

  lemma AtomRange(v1: Tokens, e1: Expr, v2: Tokens, e2: Expr, rest: Tokens)
    requires Peek(v1).kind != RBRACK && !e1.Nil? && !e2.Nil?
    requires ParseAssign(v1) == Ok(e1, Push(RANGE, "..", v2))
    requires ParseAssign(v2) == Ok(e2, Push(RBRACK, "]", rest))
    ensures ParseAtom(Push(LBRACK, "[", v1)) == Ok(Range(e1, e2), rest)
  {
    assert ParseArrayOrRange(Push(LBRACK, "[", v1)) == Ok(Range(e1, e2), rest);
  }

  lemma AtomEmptyArray(rest: Tokens)
    ensures ParseAtom(Push(LBRACK, "[", Push(RBRACK, "]", rest))) == Ok(Array([]), rest)
  {
    assert ParseArrayOrRange(Push(LBRACK, "[", Push(RBRACK, "]", rest))) == Ok(Array([]), rest);
  }

  lemma AtomArray(v1: Tokens, e1: Expr, v2: Tokens, args: seq<Expr>, rest: Tokens)
    requires Peek(v1).kind != RBRACK && !e1.Nil? && Peek(v2).kind != RANGE
    requires ParseAssign(v1) == Ok(e1, v2)
    requires ParseElements([e1], v2) == ArgsOk(args, Push(RBRACK, "]", rest))
    ensures ParseAtom(Push(LBRACK, "[", v1)) == Ok(Array(args), rest)
  {
    assert ParseArrayOrRange(Push(LBRACK, "[", v1)) == Ok(Array(args), rest);
  }

  lemma ElementRule(acc: seq<Expr>, v: Tokens, e: Expr, rest: Tokens)
    requires ParseAssign(v) == Ok(e, rest) && !e.Nil?
    ensures ParseElements(acc, Push(COMMA, ",", v)) == ParseElements(acc + [e], rest)
  {
  }

  lemma AtomMap(v: Tokens, pairs: seq<Pair>, rest: Tokens)
    requires ParsePairs([], v) == PairsOk(pairs, Push(RBRACE, "}", rest))
    ensures ParseAtom(Push(LBRACE, "{", v)) == Ok(Map(pairs), rest)
  {
  }

  lemma PairRule(acc: seq<Pair>, key: string, v: Tokens, e: Expr, rest: Tokens)
    requires ParseAssign(v) == Ok(e, rest) && !e.Nil?
    ensures ParsePairs(acc, Push(STR, key, Push(COLON, ":", v)))
         == ParsePairs(acc + [Pair(key, e)], SkipComma(rest))
  {
  }

  lemma CallRule(v: Tokens, args: seq<Expr>, rest: Tokens)
    requires ParseArgs([], v) == ArgsOk(args, Push(RPAREN, ")", rest))
    ensures ParseCallArgs(Push(LPAREN, "(", v)) == ArgsOk(args, rest)
  {
  }

  lemma ArgRule(acc: seq<Expr>, v: Tokens, e: Expr, rest: Tokens)
    requires !EndsOperand(Peek(v).kind) && ParseAssign(v) == Ok(e, rest) && !e.Nil?
    ensures ParseArgs(acc, v) == ParseArgs(acc + [e], SkipComma(rest))
  {
  }
}
