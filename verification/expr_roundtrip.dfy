/** Printing and parsing are inverse on exactly the trees the parser produces. */
module ExprRoundTrip {
  import opened ExprSyntax
  import opened ExprGrammar
  import opened ExprRules
  import opened ExprPrinting

  /** Assignment level: the whole expression comes back and exactly `rest` is left. */
  lemma {:induction false} AssignRoundTrip(e: Expr, rest: Tokens)
    requires Wf(e) && Follows(0, Peek(rest).kind)
    ensures ParseAssign(Print(e, 0, rest)) == Ok(e, rest)
    decreases e, if Parens(e, 0, rest) then 1 else 0, 20
  {
    hide *;
    FollowsTighter(0, Peek(rest).kind);
    PrintParens(e, 0, rest);
    if Parens(e, 0, rest) || Prec(e) >= 2 {
      PrintTighter(e, 0, 2, rest);
      OperandRoundTrip(e, 2, rest);
      AssignPlain(Print(e, 2, rest), e, rest);
    } else {
      BareAssignRoundTrip(e, rest);
    }
  }

  lemma {:induction false} BareAssignRoundTrip(e: Expr, rest: Tokens)
    requires Wf(e) && Follows(0, Peek(rest).kind) && !Parens(e, 0, rest) && Prec(e) < 2
    ensures ParseAssign(PrintBare(e, rest)) == Ok(e, rest)
    decreases e, 0, 19
  {
    hide *;
    FollowsTighter(0, Peek(rest).kind);
    PrecShape(e);
    if e.Nil? {
      PrintNil(rest);
      NilOperand(rest);
      BinaryClimb(9, rest, Nil, rest);
      AssignPlain(rest, Nil, rest);
    } else if e.Ternary? {
      TernaryRoundTrip(e, rest);
      AssignTernary(PrintBare(e, rest), e, rest);
    } else {
      PrintAssign(e, rest);
      AssignRoundTrip(e.value, rest);
      var v := Print(e.value, 0, rest);
      var tail := Push(ASSIGN, "=", v);
      if e.AssignName? {
        NameOperand(e.name, v);
        AssignTo(Push(ID, e.name, tail), Id(e.name), v, e.value, rest);
      } else {
        OperandRoundTrip(e.target, 2, tail);
        AssignTo(Print(e.target, 2, tail), e.target, v, e.value, rest);
      }
    }
  }

  lemma {:induction false} TernaryRoundTrip(e: Expr, rest: Tokens)
    requires Wf(e) && Follows(0, Peek(rest).kind) && e.Ternary?
    ensures ParseTernary(PrintBare(e, rest)) == Ok(e, rest)
    decreases e, 0, 18
  {
    hide *;
    PrintTernary(e, rest);
    AssignRoundTrip(e.els, rest);
    var v2 := Print(e.els, 0, rest);
    Ahead(COLON, ":", v2);
    Delimiters(COLON);
    AssignRoundTrip(e.thn, Push(COLON, ":", v2));
    var v1 := Print(e.thn, 0, Push(COLON, ":", v2));
    QuestionAhead(v1);
    OperandRoundTrip(e.cond, 2, Push(QUESTION, "?", v1));
    TernaryRule(e, PrintBare(e, rest), v1, v2, rest);
  }

  lemma NameOperand(name: string, v: Tokens)
    ensures ParseBinary(2, Push(ID, name, Push(ASSIGN, "=", v))) == Ok(Id(name), Push(ASSIGN, "=", v))
  {
    var tail := Push(ASSIGN, "=", v);
    var s := Push(ID, name, tail);
    AtomName(name, tail);
    hide ParseAtom, ParsePostfix, PostfixLoop, ParseUnary, ParseBinary, BinaryLoop;
    PostfixAtom(s, Id(name), tail);
    PostfixStop(Id(name), tail);
    UnaryPostfix(s);
    BinaryUnary(s);
    BinaryClimb(9, s, Id(name), tail);
  }

  /** A missing operand is read as nil and consumes nothing. */
  lemma NilOperand(rest: Tokens)
    requires EndsOperand(Peek(rest).kind)
    ensures ParseBinary(9, rest) == Ok(Nil, rest)
  {
    AtomNil(rest);
    hide ParseAtom, ParsePostfix, PostfixLoop, ParseUnary, ParseBinary, BinaryLoop;
    PostfixAtom(rest, Nil, rest);
    PostfixStop(Nil, rest);
    UnaryPostfix(rest);
    BinaryUnary(rest);
  }

  /** Binary levels: parsing reaches the operator loop of the level with the tree as left operand. */
  lemma {:induction false} BinaryRoundTrip(e: Expr, level: nat, rest: Tokens)
    requires Wf(e) && 2 <= level <= 9 && Follows(level + 1, Peek(rest).kind)
    ensures ParseBinary(level, Print(e, level, rest)) == BinaryLoop(level, e, rest)
    decreases e, if Parens(e, level, rest) then 1 else 0, 20 - level, 0
  {
    hide *;
    PrintParens(e, level, rest);
    FollowsTighter(level + 1, Peek(rest).kind);
    if level == 9 {
      UnaryRoundTrip(e, rest);
      BinaryUnary(Print(e, 9, rest));
      NoUnaryOperator(Peek(rest).kind);
      BinaryStop(9, e, rest);
    } else if Parens(e, level, rest) || Prec(e) != level {
      PrintLooser(e, level, rest);
      OperandRoundTrip(e, level + 1, rest);
      BinaryOperand(level, Print(e, level, rest), e, rest);
    } else {
      InfixRoundTrip(e, level, rest);
    }
  }

  lemma NoUnaryOperator(k: Kind)
    ensures OpLevel(k) != 9
  {
  }

  lemma PrintLooser(e: Expr, level: nat, rest: Tokens)
    requires Parens(e, level, rest) || Prec(e) != level
    ensures Print(e, level, rest) == Print(e, level + 1, rest)
    ensures Parens(e, level, rest) == Parens(e, level + 1, rest)
  {
  }

  lemma {:induction false} InfixRoundTrip(e: Expr, level: nat, rest: Tokens)
    requires Wf(e) && Prec(e) == level && 2 <= level <= 8 && !Parens(e, level, rest)
    requires Follows(level + 1, Peek(rest).kind)
    ensures ParseBinary(level, PrintBare(e, rest)) == BinaryLoop(level, e, rest)
    decreases e, 0, 10
  {
    hide *;
    PrecShape(e);
    PrintBinary(e, rest);
    var tail := RightOperand(e, rest);
    OperatorAhead(e.op, tail);
    BinaryRoundTrip(e.left, level, Push(e.op, OpText(e.op), tail));
    if e.right.Nil? {
      NilOperand(rest);
    } else {
      FollowsTighter(level + 1, Peek(rest).kind);
      OperandRoundTrip(e.right, level + 1, rest);
    }
    BinaryRule(level, e.op, e.left, tail, e.right, rest);
  }

  /** When no operator of the level follows, exactly the tree comes back. */
  lemma {:induction false} OperandRoundTrip(e: Expr, level: nat, rest: Tokens)
    requires Wf(e) && 2 <= level <= 9
    requires Follows(level + 1, Peek(rest).kind) && OpLevel(Peek(rest).kind) != level
    ensures ParseBinary(level, Print(e, level, rest)) == Ok(e, rest)
    decreases e, if Parens(e, level, rest) then 1 else 0, 20 - level, 1
  {
    hide *;
    BinaryRoundTrip(e, level, rest);
    BinaryStop(level, e, rest);
  }

  lemma {:induction false} UnaryRoundTrip(e: Expr, rest: Tokens)
    requires Wf(e) && Follows(10, Peek(rest).kind)
    ensures ParseUnary(Print(e, 9, rest)) == Ok(e, rest)
    decreases e, if Parens(e, 9, rest) then 1 else 0, 9
  {
    hide *;
    PrecShape(e);
    PrintParens(e, 9, rest);
    FollowsTighter(10, Peek(rest).kind);
    if Parens(e, 9, rest) || Prec(e) == 10 {
      PrintTighter(e, 9, 10, rest);
      PrintStartsAtom(e, rest);
      AtomIsNoEnd(Peek(Print(e, 10, rest)).kind);
      PostfixRoundTrip(e, rest);
      PostfixStop(e, rest);
      UnaryPostfix(Print(e, 10, rest));
    } else if e.IncDec? {
      IncDecRoundTrip(e, rest);
    } else {
      BareAboveAssign(e, 9, rest);
      PrintUnary(e, rest);
      UnaryRoundTrip(e.arg, rest);
      UnaryRule(e.Not?, Print(e.arg, 9, rest), e.arg, rest);
    }
  }

  lemma BareAboveAssign(e: Expr, level: nat, rest: Tokens)
    requires Wf(e) && !Parens(e, level, rest) && level == 9
    ensures Prec(e) == 9 || Prec(e) == 10
  {
  }

  lemma IncDecRoundTrip(e: Expr, rest: Tokens)
    requires e.IncDec?
    ensures ParseUnary(PrintBare(e, rest)) == Ok(e, rest)
  {
    var tail := if e.inc then Push(INC, "++", rest) else Push(DEC, "--", rest);
    var atom := if e.name == "" then Null else Id(e.name);
    var s := PrintBare(e, rest);
    assert s == PrintBare(atom, tail);
    hide *;
    if e.name == "" { AtomLiteral(Null, tail); } else { AtomName(e.name, tail); }
    assert ParseAtom(s) == Ok(atom, tail);
    PostfixAtom(s, atom, tail);
    PostfixIncDec(atom, e.inc, rest);
    UnaryPostfix(s);
  }

  /** Postfix level: parsing reaches the postfix loop with the tree as operand. */
  lemma {:induction false} PostfixRoundTrip(e: Expr, rest: Tokens)
    requires Wf(e)
    requires e.Id? ==> Peek(rest).kind != STATIC
    requires e.Field? ==> Peek(rest).kind != LPAREN
    ensures ParsePostfix(Print(e, 10, rest)) == PostfixLoop(e, rest)
    decreases e, if Parens(e, 10, rest) then 1 else 0, 8
  {
    hide *;
    PrintParens(e, 10, rest);
    if Parens(e, 10, rest) {
      ParenRoundTrip(e, rest);
      PostfixAtom(Print(e, 10, rest), e, rest);
    } else if e.Field? {
      PrintField(e, rest);
      DotAhead(e.safe, e.name, rest);
      PostfixRoundTrip(e.obj, PushDot(e.safe, e.name, rest));
      PostfixField(e.obj, e.name, e.safe, rest);
    } else if e.Index? {
      IndexRoundTrip(e, rest);
    } else if e.Method? {
      MethodRoundTrip(e, rest);
    } else {
      AtomRoundTrip(e, rest);
      PostfixAtom(PrintBare(e, rest), e, rest);
    }
  }

  lemma {:induction false} IndexRoundTrip(e: Expr, rest: Tokens)
    requires Wf(e) && e.Index?
    ensures ParsePostfix(PrintBare(e, rest)) == PostfixLoop(e, rest)
    decreases e, 0, 7
  {
    hide *;
    PrintIndex(e, rest);
    var close := Push(RBRACK, "]", rest);
    Ahead(RBRACK, "]", rest);
    Delimiters(RBRACK);
    AssignRoundTrip(e.index, close);
    var v := Print(e.index, 0, close);
    Ahead(LBRACK, "[", v);
    PostfixRoundTrip(e.obj, Push(LBRACK, "[", v));
    PostfixIndex(e.obj, v, e.index, rest);
  }

  /** In parentheses every tree is an atom. */
  lemma {:induction false} ParenRoundTrip(e: Expr, rest: Tokens)
    requires Wf(e)
    ensures ParseAtom(Push(LPAREN, "(", PrintBare(e, Push(RPAREN, ")", rest)))) == Ok(e, rest)
    decreases e, 1, 0
  {
    hide *;
    var close := Push(RPAREN, ")", rest);
    Ahead(RPAREN, ")", rest);
    Delimiters(RPAREN);
    PrintParens(e, 0, close);
    AssignRoundTrip(e, close);
    AtomParen(PrintBare(e, close), e, rest);
  }

  lemma {:induction false} MethodRoundTrip(e: Expr, rest: Tokens)
    requires Wf(e) && e.Method?
    ensures ParsePostfix(PrintBare(e, rest)) == PostfixLoop(e, rest)
    decreases e, 0, 7
  {
    hide *;
    var call := PrintCall(e.args, rest);
    PrintMethod(e, rest);
    CallRoundTrip(e.args, rest);
    if e.name == "" {
      if e.obj.Field? {
        ParenRoundTrip(e.obj, call);
        PostfixAtom(PrintBare(e, rest), e.obj, call);
      } else {
        PostfixRoundTrip(e.obj, call);
      }
      PostfixCall(e.obj, call, e.args, rest);
    } else if e.obj.Nil? && !e.safe {
      AtomName(e.name, call);
      PostfixAtom(Push(ID, e.name, call), Id(e.name), call);
      PostfixCall(Id(e.name), call, e.args, rest);
    } else {
      DotAhead(e.safe, e.name, call);
      PostfixRoundTrip(e.obj, PushDot(e.safe, e.name, call));
      PostfixMethod(e.obj, e.name, e.safe, call, e.args, rest);
    }
  }

  lemma {:induction false} AtomRoundTrip(e: Expr, rest: Tokens)
    requires Wf(e) && !Parens(e, 10, rest) && !e.Field? && !e.Index? && !e.Method?
    requires e.Id? ==> Peek(rest).kind != STATIC
    ensures ParseAtom(PrintBare(e, rest)) == Ok(e, rest)
    decreases e, 0, 7
  {
    hide *;
    AtomShape(e, rest);
    if e.Id? {
      AtomName(e.name, rest);
    } else if e.StaticCall? {
      PrintStatic(e, rest);
      CallRoundTrip(e.args, rest);
      AtomStatic(e.cls, e.name, PrintCall(e.args, rest), e.args, rest);
    } else if e.Array? {
      PrintArray(e, rest);
      ArrayRoundTrip(e.args, rest);
    } else if e.Range? {
      RangeRoundTrip(e, rest);
    } else if e.Map? {
      PrintMap(e, rest);
      var close := Push(RBRACE, "}", rest);
      Ahead(RBRACE, "}", rest);
      PairsRoundTrip([], e.pairs, close);
      assert [] + e.pairs == e.pairs;
      AtomMap(PrintPairs(e.pairs, close), e.pairs, rest);
    } else {
      AtomLiteral(e, rest);
    }
  }

  lemma AtomShape(e: Expr, rest: Tokens)
    requires Wf(e) && !Parens(e, 10, rest)
    ensures || e.Id? || e.Str? || e.Int? || e.Float? || e.Bool? || e.Null? || e.StaticCall? || e.Array?
            || e.Range? || e.Map? || e.Field? || e.Index? || e.Method?
    ensures e.Id? ==> PrintBare(e, rest) == Push(ID, e.name, rest)
  {
  }

  lemma {:induction false} CallRoundTrip(args: seq<Expr>, rest: Tokens)
    requires WfArgs(args)
    ensures ParseCallArgs(PrintCall(args, rest)) == ArgsOk(args, rest)
    decreases args, 2
  {
    hide *;
    var close := Push(RPAREN, ")", rest);
    PrintedCall(args, rest);
    Ahead(RPAREN, ")", rest);
    ArgsRoundTrip([], args, close);
    assert [] + args == args;
    CallRule(PrintArgs(args, close), args, rest);
  }

  lemma PrintedCall(args: seq<Expr>, rest: Tokens)
    ensures PrintCall(args, rest) == Push(LPAREN, "(", PrintArgs(args, Push(RPAREN, ")", rest)))
  {
  }

  /** The first of a printed list of arguments is read back, up to the comma or the closing token. */
  lemma {:induction false} HeadRoundTrip(args: seq<Expr>, rest: Tokens)
    requires args != [] && WfArgs(args)
    requires Peek(rest).kind == RPAREN || Peek(rest).kind == RBRACK
    ensures !args[0].Nil? && WfArgs(args[1..])
    ensures !EndsOperand(Peek(PrintArgs(args, rest)).kind)
    ensures ParseAssign(PrintArgs(args, rest)) == Ok(args[0], Separated(args[1..], rest))
    decreases args, 0
  {
    hide *;
    SeparatedArgs(args, rest);
    PrintStarts(args[0], 0, Separated(args[1..], rest));
    AssignRoundTrip(args[0], Separated(args[1..], rest));
  }

  lemma {:induction false} ArgsRoundTrip(acc: seq<Expr>, args: seq<Expr>, rest: Tokens)
    requires WfArgs(args) && Peek(rest).kind == RPAREN
    ensures ParseArgs(acc, PrintArgs(args, rest)) == ArgsOk(acc + args, rest)
    decreases args, 1
  {
    hide *;
    if args == [] {
      assert acc + args == acc;
      ArgsEnd(acc, rest);
    } else {
      SkipSeparator(args[1..], rest);
      HeadRoundTrip(args, rest);
      ArgRule(acc, PrintArgs(args, rest), args[0], Separated(args[1..], rest));
      ArgsRoundTrip(acc + [args[0]], args[1..], rest);
      assert acc + [args[0]] + args[1..] == acc + args;
    }
  }

  lemma SkipSeparator(args: seq<Expr>, rest: Tokens)
    requires Peek(rest).kind == RPAREN
    ensures SkipComma(Separated(args, rest)) == PrintArgs(args, rest)
  {
  }

  lemma {:induction false} ArrayRoundTrip(args: seq<Expr>, rest: Tokens)
    requires WfArgs(args)
    ensures ParseAtom(Push(LBRACK, "[", PrintArgs(args, Push(RBRACK, "]", rest)))) == Ok(Array(args), rest)
    decreases args, 2
  {
    hide *;
    if args == [] {
      PrintNoArgs(Push(RBRACK, "]", rest));
      AtomEmptyArray(rest);
    } else {
      var close := Push(RBRACK, "]", rest);
      Ahead(RBRACK, "]", rest);
      HeadRoundTrip(args, close);
      ElementsRoundTrip([args[0]], args[1..], close);
      assert [args[0]] + args[1..] == args;
      SeparatedArgs(args, close);
      Delimiters(RBRACK);
      AtomArray(PrintArgs(args, close), args[0], Separated(args[1..], close), args, rest);
    }
  }

  lemma {:induction false} ElementsRoundTrip(acc: seq<Expr>, args: seq<Expr>, rest: Tokens)
    requires WfArgs(args) && Peek(rest).kind == RBRACK
    ensures ParseElements(acc, Separated(args, rest)) == ArgsOk(acc + args, rest)
    decreases args, 1
  {
    hide *;
    if args == [] {
      assert acc + args == acc;
      ElementsEnd(acc, rest);
    } else {
      CommaAhead(args, rest);
      HeadRoundTrip(args, rest);
      ElementRule(acc, PrintArgs(args, rest), args[0], Separated(args[1..], rest));
      ElementsRoundTrip(acc + [args[0]], args[1..], rest);
      assert acc + [args[0]] + args[1..] == acc + args;
    }
  }

  lemma PrintNoArgs(rest: Tokens)
    ensures PrintArgs([], rest) == rest
  {
  }

  lemma ArgsEnd(acc: seq<Expr>, rest: Tokens)
    requires Peek(rest).kind == RPAREN
    ensures ParseArgs(acc, PrintArgs([], rest)) == ArgsOk(acc, rest)
  {
  }

  lemma ElementsEnd(acc: seq<Expr>, rest: Tokens)
    requires Peek(rest).kind == RBRACK
    ensures ParseElements(acc, Separated([], rest)) == ArgsOk(acc, rest)
  {
  }

  lemma PairsEnd(acc: seq<Pair>, rest: Tokens)
    requires Peek(rest).kind == RBRACE
    ensures ParsePairs(acc, PrintPairs([], rest)) == PairsOk(acc, rest)
  {
  }

  lemma CommaAhead(args: seq<Expr>, rest: Tokens)
    requires args != []
    ensures Separated(args, rest) == Push(COMMA, ",", PrintArgs(args, rest))
  {
  }

  lemma {:induction false} RangeRoundTrip(e: Expr, rest: Tokens)
    requires Wf(e) && e.Range?
    ensures ParseAtom(PrintBare(e, rest)) == Ok(e, rest)
    decreases e, 0, 6
  {
    hide *;
    PrintRange(e, rest);
    var close := Push(RBRACK, "]", rest);
    Ahead(RBRACK, "]", rest);
    Delimiters(RBRACK);
    AssignRoundTrip(e.last, close);
    var v2 := Print(e.last, 0, close);
    var mid := Push(RANGE, "..", v2);
    Ahead(RANGE, "..", v2);
    Delimiters(RANGE);
    PrintStarts(e.first, 0, mid);
    AssignRoundTrip(e.first, mid);
    AtomRange(Print(e.first, 0, mid), e.first, v2, e.last, rest);
  }

  lemma {:induction false} PairsRoundTrip(acc: seq<Pair>, pairs: seq<Pair>, rest: Tokens)
    requires WfPairs(pairs) && Peek(rest).kind == RBRACE
    ensures ParsePairs(acc, PrintPairs(pairs, rest)) == PairsOk(acc + pairs, rest)
    decreases pairs, 0
  {
    hide *;
    if pairs == [] {
      assert acc + pairs == acc;
      PairsEnd(acc, rest);
    } else {
      SkipPair(pairs[1..], rest);
      var p := pairs[0];
      var after := PairSeparated(pairs[1..], rest);
      SeparatedPairs(pairs, rest);
      AssignRoundTrip(p.value, after);
      PairRule(acc, p.key, Print(p.value, 0, after), p.value, after);
      PairsRoundTrip(acc + [p], pairs[1..], rest);
      assert acc + [p] + pairs[1..] == acc + pairs;
    }
  }

  lemma SkipPair(pairs: seq<Pair>, rest: Tokens)
    requires Peek(rest).kind == RBRACE
    ensures SkipComma(PairSeparated(pairs, rest)) == PrintPairs(pairs, rest)
  {
  }

  // ---- a name in parentheses is the name ----

  lemma {:induction false} SameOperand(level: nat, s: Tokens, s': Tokens)
    requires 2 <= level <= 9 && ParseUnary(s) == ParseUnary(s')
    ensures ParseBinary(level, s) == ParseBinary(level, s')
    decreases 9 - level
  {
    hide ParseUnary, BinaryLoop;
    if level < 9 {
      SameOperand(level + 1, s, s');
    }
  }

  lemma SameAssign(s: Tokens, s': Tokens)
    requires ParseBinary(2, s) == ParseBinary(2, s')
    ensures ParseAssign(s) == ParseAssign(s')
  {
    assert ParseTernary(s) == ParseTernary(s');
  }

  lemma NameAlone(name: string, q: Tokens)
    requires name != ""
    ensures ParseAssign(Push(ID, name, Push(RPAREN, ")", q))) == Ok(Id(name), Push(RPAREN, ")", q))
  {
    var e, close := Id(name), Push(RPAREN, ")", q);
    assert Print(e, 0, close) == Push(ID, name, close);
    hide ParseAssign, Print;
    AssignRoundTrip(e, close);
  }

  /** Whatever comes after it but `::`, a name in parentheses parses as the name does: `(a)(x)` is a call
      of a. */
  lemma NameInParens(name: string, q: Tokens)
    requires name != "" && Peek(q).kind != STATIC
    ensures ParseAssign(Push(LPAREN, "(", Push(ID, name, Push(RPAREN, ")", q)))) == ParseAssign(Push(ID, name, q))
  {
    hide *;
    var s, s' := Push(LPAREN, "(", Push(ID, name, Push(RPAREN, ")", q))), Push(ID, name, q);
    NameAlone(name, q);
    AtomParen(Push(ID, name, Push(RPAREN, ")", q)), Id(name), q);
    AtomName(name, q);
    PostfixAtom(s, Id(name), q);
    PostfixAtom(s', Id(name), q);
    NoPrefix(LPAREN, "(", Push(ID, name, Push(RPAREN, ")", q)));
    NoPrefix(ID, name, q);
    SameOperand(2, s, s');
    SameAssign(s, s');
  }

  lemma NoPrefix(k: Kind, val: string, q: Tokens)
    requires k == LPAREN || k == ID
    ensures ParseUnary(Push(k, val, q)) == ParsePostfix(Push(k, val, q))
  {
    UnaryPostfix(Push(k, val, q));
  }
}
