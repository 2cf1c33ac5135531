/** One-step facts about the printer and the shape of printable trees. */
module ExprPrinting {
  import opened ExprSyntax
  import opened ExprRules

  predicate Parens(e: Expr, level: nat, rest: Tokens) {
    NeedsParens(e, level, Peek(rest).kind)
  }

  /** The tokens that close or separate subexpressions continue none of them. */
  lemma Delimiters(k: Kind)
    requires k == RPAREN || k == RBRACK || k == RBRACE || k == COMMA || k == COLON || k == RANGE
    ensures Follows(0, k) && EndsOperand(k) && OpLevel(k) == 0
  {
  }

  lemma Ahead(k: Kind, val: string, s: Tokens)
    ensures Peek(Push(k, val, s)) == Token(k, val)
  {
  }

  lemma FollowsTighter(level: nat, k: Kind)
    requires Follows(level, k)
    ensures Follows(level + 1, k) && (level <= 2 ==> Follows(3, k) && OpLevel(k) != 2)
    ensures OpLevel(k) != level || level == 0
    ensures level <= 1 ==> k != QUESTION && k != ASSIGN && OpLevel(k) == 0
    ensures !IsPostfix(k) && k != STATIC && k != LPAREN
  {
  }

  lemma OperatorAhead(op: Kind, tail: Tokens)
    requires OpLevel(op) != 0
    ensures Follows(OpLevel(op) + 1, Peek(Push(op, OpText(op), tail)).kind) && 2 <= OpLevel(op) <= 8
  {
  }

  lemma PrintParens(e: Expr, level: nat, rest: Tokens)
    ensures Parens(e, level, rest) ==>
      Print(e, level, rest) == Push(LPAREN, "(", PrintBare(e, Push(RPAREN, ")", rest)))
    ensures !Parens(e, level, rest) ==> Print(e, level, rest) == PrintBare(e, rest)
    ensures EndsOperand(Peek(rest).kind) ==> !Parens(e, 0, rest)
  {
  }

  /** Between two levels on the same side of its precedence, a tree prints the same. */
  lemma PrintTighter(e: Expr, low: nat, high: nat, rest: Tokens)
    requires low <= high && (Parens(e, low, rest) || Prec(e) >= high)
    ensures Print(e, low, rest) == Print(e, high, rest) && Parens(e, low, rest) == Parens(e, high, rest)
  {
  }

  lemma PrintNil(rest: Tokens)
    ensures PrintBare(Nil, rest) == rest && Parens(Nil, 0, rest) == !EndsOperand(Peek(rest).kind)
  {
  }

  lemma PrintAssign(e: Expr, rest: Tokens)
    requires Wf(e) && (e.AssignName? || e.AssignIndex?)
    ensures Wf(e.value) && !e.value.Nil?
    ensures var tail := Push(ASSIGN, "=", Print(e.value, 0, rest));
      && Follows(3, Peek(tail).kind) && OpLevel(Peek(tail).kind) != 2
      && (e.AssignName? ==> PrintBare(e, rest) == Push(ID, e.name, tail))
      && (e.AssignIndex? ==> Wf(e.target) && e.target.Index?)
      && (e.AssignIndex? ==> PrintBare(e, rest) == Print(e.target, 2, tail) && !Parens(e.target, 2, tail))
  {
  }

  lemma PrintTernary(e: Expr, rest: Tokens)
    requires Wf(e) && e.Ternary?
    ensures Wf(e.cond) && Wf(e.thn) && Wf(e.els) && !e.cond.Nil? && !e.thn.Nil? && !e.els.Nil?
    ensures PrintBare(e, rest) == Print(e.cond, 2,
      Push(QUESTION, "?", Print(e.thn, 0, Push(COLON, ":", Print(e.els, 0, rest)))))
  {
  }

  lemma QuestionAhead(s: Tokens)
    ensures var k := Peek(Push(QUESTION, "?", s)).kind; Follows(3, k) && OpLevel(k) != 2
  {
  }

  function RightOperand(e: Expr, rest: Tokens): Tokens
    requires e.Binary?
  {
    if e.right.Nil? then rest else Print(e.right, OpLevel(e.op) + 1, rest)
  }

  lemma PrintBinary(e: Expr, rest: Tokens)
    requires Wf(e) && e.Binary?
    ensures Wf(e.left) && Wf(e.right) && !e.left.Nil? && Prec(e) == OpLevel(e.op) && 2 <= Prec(e) <= 8
    ensures e.right.Nil? ==> e.op == NULLCOALESCE && Prec(e) == 8 && RightOperand(e, rest) == rest
    ensures e.right.Nil? && !Parens(e, Prec(e), rest) ==> EndsOperand(Peek(rest).kind)
    ensures !e.right.Nil? ==> RightOperand(e, rest) == Print(e.right, Prec(e) + 1, rest)
    ensures PrintBare(e, rest) == Print(e.left, Prec(e), Push(e.op, OpText(e.op), RightOperand(e, rest)))
  {
  }

  lemma PrintUnary(e: Expr, rest: Tokens)
    requires Wf(e) && (e.Not? || e.Neg?)
    ensures Wf(e.arg) && !e.arg.Nil?
    ensures PrintBare(e, rest) ==
      (if e.Not? then Push(NOT, "!", Print(e.arg, 9, rest)) else Push(SUB, "-", Print(e.arg, 9, rest)))
  {
  }

  lemma PrecShape(e: Expr)
    requires Wf(e)
    ensures Prec(e) <= 10
    ensures Prec(e) < 2 <==> e.Nil? || e.AssignName? || e.AssignIndex? || e.Ternary?
    ensures 2 <= Prec(e) <= 8 <==> e.Binary?
    ensures Prec(e) == 9 <==> e.Not? || e.Neg? || e.IncDec?
  {
  }

  lemma PrintField(e: Expr, rest: Tokens)
    requires Wf(e) && e.Field?
    ensures Wf(e.obj) && PrintBare(e, rest) == Print(e.obj, 10, PushDot(e.safe, e.name, rest))
  {
  }

  lemma DotAhead(safe: bool, name: string, rest: Tokens)
    ensures var k := Peek(PushDot(safe, name, rest)).kind; k != STATIC && k != LPAREN && IsPostfix(k)
  {
  }

  lemma PrintIndex(e: Expr, rest: Tokens)
    requires Wf(e) && e.Index?
    ensures Wf(e.obj) && Wf(e.index)
    ensures PrintBare(e, rest)
         == Print(e.obj, 10, Push(LBRACK, "[", Print(e.index, 0, Push(RBRACK, "]", rest))))
  {
  }

  lemma PrintMethod(e: Expr, rest: Tokens)
    requires Wf(e) && e.Method?
    ensures Wf(e.obj) && WfArgs(e.args) && (e.name == "" ==> !e.obj.Id? && !e.safe)
    ensures var call := PrintCall(e.args, rest);
      && Peek(call).kind == LPAREN
      && (e.name == "" && e.obj.Field? ==>
            PrintBare(e, rest) == Push(LPAREN, "(", PrintBare(e.obj, Push(RPAREN, ")", call))))
      && (e.name == "" && !e.obj.Field? ==> PrintBare(e, rest) == Print(e.obj, 10, call))
      && (e.name != "" && e.obj.Nil? && !e.safe ==> PrintBare(e, rest) == Push(ID, e.name, call))
      && (e.name != "" && !(e.obj.Nil? && !e.safe) ==>
            PrintBare(e, rest) == Print(e.obj, 10, PushDot(e.safe, e.name, call)))
  {
  }

  lemma PrintStatic(e: Expr, rest: Tokens)
    requires Wf(e) && e.StaticCall?
    ensures WfArgs(e.args) && Peek(PrintCall(e.args, rest)).kind == LPAREN
    ensures PrintBare(e, rest)
         == Push(ID, e.cls, Push(STATIC, "::", Push(ID, e.name, PrintCall(e.args, rest))))
  {
  }

  lemma PrintArray(e: Expr, rest: Tokens)
    requires Wf(e) && e.Array?
    ensures WfArgs(e.args)
    ensures PrintBare(e, rest) == Push(LBRACK, "[", PrintArgs(e.args, Push(RBRACK, "]", rest)))
  {
  }

  lemma PrintRange(e: Expr, rest: Tokens)
    requires Wf(e) && e.Range?
    ensures Wf(e.first) && Wf(e.last) && !e.first.Nil? && !e.last.Nil?
    ensures PrintBare(e, rest) == Push(LBRACK, "[",
      Print(e.first, 0, Push(RANGE, "..", Print(e.last, 0, Push(RBRACK, "]", rest)))))
  {
  }

  lemma PrintMap(e: Expr, rest: Tokens)
    requires Wf(e) && e.Map?
    ensures WfPairs(e.pairs)
    ensures PrintBare(e, rest) == Push(LBRACE, "{", PrintPairs(e.pairs, Push(RBRACE, "}", rest)))
  {
  }

  /** The tokens after the first of a list of arguments. */
  function Separated(args: seq<Expr>, rest: Tokens): Tokens {
    if args == [] then rest else Push(COMMA, ",", PrintArgs(args, rest))
  }

  lemma SeparatedArgs(args: seq<Expr>, rest: Tokens)
    requires args != [] && WfArgs(args)
    requires Peek(rest).kind == RPAREN || Peek(rest).kind == RBRACK
    ensures PrintArgs(args, rest) == Print(args[0], 0, Separated(args[1..], rest))
    ensures Wf(args[0]) && !args[0].Nil? && WfArgs(args[1..])
    ensures var k := Peek(Separated(args[1..], rest)).kind; Follows(0, k) && k != RANGE
  {
  }

  function PairSeparated(pairs: seq<Pair>, rest: Tokens): Tokens {
    if pairs == [] then rest else Push(COMMA, ",", PrintPairs(pairs, rest))
  }

  lemma SeparatedPairs(pairs: seq<Pair>, rest: Tokens)
    requires pairs != [] && WfPairs(pairs) && Peek(rest).kind == RBRACE
    ensures PrintPairs(pairs, rest) == Push(STR, pairs[0].key,
      Push(COLON, ":", Print(pairs[0].value, 0, PairSeparated(pairs[1..], rest))))
    ensures Wf(pairs[0].value) && !pairs[0].value.Nil? && WfPairs(pairs[1..])
    ensures Follows(0, Peek(PairSeparated(pairs[1..], rest)).kind)
  {
  }

  /** What is printed at postfix level starts with an atom. */
  lemma {:induction false} PrintStartsAtom(e: Expr, rest: Tokens)
    requires Wf(e)
    ensures StartsAtom(Peek(Print(e, 10, rest)).kind)
    decreases e
  {
    hide *;
    PrintParens(e, 10, rest);
    if Parens(e, 10, rest) {
      ParenStarts(PrintBare(e, Push(RPAREN, ")", rest)));
    } else if e.Field? {
      PrintField(e, rest);
      PrintStartsAtom(e.obj, PushDot(e.safe, e.name, rest));
    } else if e.Index? {
      PrintIndex(e, rest);
      PrintStartsAtom(e.obj, Push(LBRACK, "[", Print(e.index, 0, Push(RBRACK, "]", rest))));
    } else if e.Method? {
      MethodStarts(e, rest);
      PrintStartsAtom(e.obj, PrintCall(e.args, rest));
      PrintStartsAtom(e.obj, PushDot(e.safe, e.name, PrintCall(e.args, rest)));
    } else {
      AtomStarts(e, rest);
    }
  }

  lemma ParenStarts(s: Tokens)
    ensures StartsAtom(Peek(Push(LPAREN, "(", s)).kind)
  {
  }

  lemma AtomStarts(e: Expr, rest: Tokens)
    requires Wf(e) && !Parens(e, 10, rest) && !e.Field? && !e.Index? && !e.Method?
    ensures StartsAtom(Peek(PrintBare(e, rest)).kind)
  {
    hide PrintArgs, PrintPairs, PrintCall;
  }

  lemma MethodStarts(e: Expr, rest: Tokens)
    requires Wf(e) && e.Method?
    ensures Wf(e.obj)
    ensures var call := PrintCall(e.args, rest);
      || StartsAtom(Peek(PrintBare(e, rest)).kind)
      || PrintBare(e, rest) == Print(e.obj, 10, call)
      || PrintBare(e, rest) == Print(e.obj, 10, PushDot(e.safe, e.name, call))
  {
    PrintMethod(e, rest);
  }

  lemma AtomIsNoEnd(k: Kind)
    requires StartsAtom(k)
    ensures !EndsOperand(k) && k != NOT && k != SUB && k != INC && k != DEC
  {
  }

  /** What is printed for a tree never starts with a token that may end an operand. */
  lemma {:induction false} PrintStarts(e: Expr, level: nat, rest: Tokens)
    requires Wf(e) && !e.Nil? && level <= 10
    ensures !EndsOperand(Peek(Print(e, level, rest)).kind)
    decreases e
  {
    PrintParens(e, level, rest);
    if !Parens(e, level, rest) {
      if e.AssignIndex? {
        PrintAssign(e, rest);
        hide *;
        PrintStarts(e.target, 2, Push(ASSIGN, "=", Print(e.value, 0, rest)));
      } else if e.Ternary? {
        PrintTernary(e, rest);
        hide *;
        PrintStarts(e.cond, 2,
                    Push(QUESTION, "?", Print(e.thn, 0, Push(COLON, ":", Print(e.els, 0, rest)))));
      } else if e.Binary? {
        PrintBinary(e, rest);
        hide *;
        PrintStarts(e.left, Prec(e), Push(e.op, OpText(e.op), RightOperand(e, rest)));
      } else if Prec(e) == 10 {
        PrintStartsAtom(e, rest);
        AtomIsNoEnd(Peek(Print(e, 10, rest)).kind);
      }
    }
  }
}
