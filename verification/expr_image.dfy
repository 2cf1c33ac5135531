/** Every tree the parser returns is one the printer and the round trip cover. */
module ExprImage {
  import opened ExprSyntax
  import opened ExprGrammar
  import opened ExprPrinting
  import opened ExprRoundTrip

  /** Identifiers are never empty: what the scanner guarantees of its tokens. */
  predicate Lexed(s: Tokens) {
    s.More? ==> (s.head.kind == ID ==> s.head.val != "") && Lexed(s.tail)
  }

  predicate Good(r: Parsed) {
    r.Ok? ==> Wf(r.e) && Lexed(r.rest)
  }

  lemma Next(s: Tokens)
    requires Lexed(s)
    ensures Lexed(Advance(s)) && (Peek(s).kind == ID ==> Peek(s).val != "")
  {
  }

  lemma {:induction false} AssignImage(s: Tokens)
    requires Lexed(s)
    ensures Good(ParseAssign(s))
    decreases Size(s), 20
  {
    TernaryImage(s);
    var l := ParseTernary(s);
    if l.Ok? && Peek(l.rest).kind == ASSIGN {
      Next(l.rest);
      AssignImage(Advance(l.rest));
    }
  }

  lemma {:induction false} TernaryImage(s: Tokens)
    requires Lexed(s)
    ensures Good(ParseTernary(s))
    decreases Size(s), 19
  {
    BinaryImage(2, s);
    var c := ParseBinary(2, s);
    if c.Ok? && Peek(c.rest).kind == QUESTION {
      BranchImage(c.rest);
      var a := ParseAssign(Advance(c.rest));
      if a.Ok? && Peek(a.rest).kind == COLON {
        BranchImage(a.rest);
      }
    }
  }

  lemma {:induction false} BranchImage(s: Tokens)
    requires Lexed(s) && s.More?
    ensures Good(ParseAssign(Advance(s)))
    decreases Size(s), 0
  {
    hide ParseAssign;
    Next(s);
    AssignImage(Advance(s));
  }

  lemma {:induction false} BinaryImage(level: nat, s: Tokens)
    requires Lexed(s) && 2 <= level <= 9
    ensures Good(ParseBinary(level, s))
    decreases Size(s), 18 - level
  {
    if level == 9 {
      UnaryImage(s);
    } else {
      BinaryImage(level + 1, s);
      var l := ParseBinary(level + 1, s);
      if l.Ok? {
        LoopImage(level, l.e, l.rest);
      }
    }
  }

  lemma {:induction false} LoopImage(level: nat, left: Expr, s: Tokens)
    requires Lexed(s) && Wf(left) && 2 <= level <= 9
    ensures Good(BinaryLoop(level, left, s))
    decreases Size(s), 4
  {
    var op := Peek(s).kind;
    if OpLevel(op) == level && !left.Nil? {
      Next(s);
      BinaryImage(level + 1, Advance(s));
      var r := ParseBinary(level + 1, Advance(s));
      if r.Ok? && !(r.e.Nil? && op != NULLCOALESCE) {
        LoopImage(level, Binary(op, left, r.e), r.rest);
      }
    }
  }

  lemma {:induction false} UnaryImage(s: Tokens)
    requires Lexed(s)
    ensures Good(ParseUnary(s))
    decreases Size(s), 7
  {
    Next(s);
    var k := Peek(s).kind;
    if k == NOT || k == SUB {
      UnaryImage(Advance(s));
    } else if k == INC || k == DEC {
      PostfixImage(Advance(s));
    } else {
      PostfixImage(s);
    }
  }

  lemma {:induction false} PostfixImage(s: Tokens)
    requires Lexed(s)
    ensures Good(ParsePostfix(s))
    decreases Size(s), 6
  {
    AtomImage(s);
    var a := ParseAtom(s);
    if a.Ok? {
      PostfixLoopImage(a.e, a.rest);
    }
  }

  lemma {:induction false} PostfixLoopImage(e: Expr, s: Tokens)
    requires Lexed(s) && Wf(e)
    ensures Good(PostfixLoop(e, s))
    decreases Size(s), 5
  {
    var k := Peek(s).kind;
    if k == INC || k == DEC {
      Next(s);
    } else if IsPostfix(k) {
      StepImage(e, s);
      var step := PostfixStep(e, s);
      if step.Ok? {
        PostfixLoopImage(step.e, step.rest);
      }
    }
  }

  lemma {:induction false} StepImage(e: Expr, s: Tokens)
    requires Lexed(s) && Wf(e) && IsPostfix(Peek(s).kind)
    ensures Good(PostfixStep(e, s))
    decreases Size(s), 4
  {
    var k := Peek(s).kind;
    if k == DOT || k == NULLSAFE {
      DotImage(e, s);
    } else if k == LBRACK {
      IndexImage(e, s);
    } else {
      CallImage(s);
    }
  }

  lemma {:induction false} DotImage(e: Expr, s: Tokens)
    requires Lexed(s) && Wf(e) && (Peek(s).kind == DOT || Peek(s).kind == NULLSAFE)
    ensures Good(PostfixStep(e, s))
    decreases Size(s), 3
  {
    Next(s);
    Next(Advance(s));
    var t := Peek(Advance(s));
    if t.kind == ID {
      MemberImage(e, t.val, Peek(s).kind == NULLSAFE, Advance(Advance(s)));
    }
  }

  lemma {:induction false} IndexImage(e: Expr, s: Tokens)
    requires Lexed(s) && Wf(e) && Peek(s).kind == LBRACK
    ensures Good(PostfixStep(e, s))
    decreases Size(s), 3
  {
    BranchImage(s);
    CloseImage(RBRACK, ParseAssign(Advance(s)));
  }

  lemma CloseImage(k: Kind, r: Parsed)
    requires Good(r)
    ensures r.Ok? && Peek(r.rest).kind == k ==> Lexed(Advance(r.rest))
  {
    if r.Ok? { Next(r.rest); }
  }

  lemma {:induction false} MemberImage(e: Expr, name: string, safe: bool, s: Tokens)
    requires Lexed(s) && Wf(e) && name != ""
    ensures Good(ParseMember(e, name, safe, s))
    decreases Size(s), 22
  {
    if Peek(s).kind == LPAREN {
      CallImage(s);
    }
  }

  lemma {:induction false} AtomImage(s: Tokens)
    requires Lexed(s)
    ensures Good(ParseAtom(s))
    decreases Size(s), 3
  {
    var k := Peek(s).kind;
    if k == ID {
      Next(s);
      NameImage(Peek(s).val, Advance(s));
    } else if k == LPAREN {
      ParenImage(s);
    } else if k == LBRACK {
      ArrayImage(s);
    } else if k == LBRACE {
      MapImage(s);
    } else {
      LiteralImage(s);
    }
  }

  lemma LiteralImage(s: Tokens)
    requires Lexed(s)
    requires var k := Peek(s).kind; k != ID && k != LPAREN && k != LBRACK && k != LBRACE
    ensures Good(ParseAtom(s))
  {
    hide ParseAssign, ParsePairs, ParseArrayOrRange, ParseName, Close;
    Next(s);
  }

  lemma ParenStep(s: Tokens)
    requires Peek(s).kind == LPAREN
    ensures s.More? && ParseAtom(s) == Closed(RPAREN, ParseAssign(Advance(s)))
  {
    hide ParseAssign, ParsePairs, ParseArrayOrRange, ParseName;
  }

  function Closed(k: Kind, r: Parsed): Parsed {
    if r.Fail? then Fail else Close(k, r.e, r.rest)
  }

  lemma CloseGood(k: Kind, r: Parsed)
    requires Good(r)
    ensures Good(Closed(k, r))
  {
    CloseImage(k, r);
  }

  lemma {:induction false} ParenImage(s: Tokens)
    requires Lexed(s) && Peek(s).kind == LPAREN
    ensures Good(ParseAtom(s))
    decreases Size(s), 2
  {
    hide *;
    ParenStep(s);
    BranchImage(s);
    CloseGood(RPAREN, ParseAssign(Advance(s)));
  }

  lemma {:induction false} MapImage(s: Tokens)
    requires Lexed(s) && Peek(s).kind == LBRACE
    ensures Good(ParseAtom(s))
    decreases Size(s), 2
  {
    Next(s);
    PairsImage([], Advance(s));
    var m := ParsePairs([], Advance(s));
    if m.PairsOk? { Next(m.rest); }
  }

  lemma {:induction false} NameImage(name: string, s: Tokens)
    requires Lexed(s) && name != ""
    ensures Good(ParseName(name, s))
    decreases Size(s), 22
  {
    if Peek(s).kind == STATIC {
      Next(s);
      Next(Advance(s));
      if Peek(Advance(Advance(s))).kind == LPAREN {
        CallImage(Advance(Advance(s)));
      }
    }
  }

  lemma {:induction false} ArrayImage(s: Tokens)
    requires Lexed(s) && Peek(s).kind == LBRACK
    ensures Good(ParseArrayOrRange(s))
    decreases Size(s), 2
  {
    hide ParseAssign, ParseElements;
    var s1 := Advance(s);
    Next(s);
    Next(s1);
    if Peek(s1).kind != RBRACK {
      AssignImage(s1);
      var f := ParseAssign(s1);
      if f.Ok? && !f.e.Nil? {
        ElementImage(f.e, f.rest);
      }
    }
  }

  lemma {:induction false} ElementImage(first: Expr, s: Tokens)
    requires Lexed(s) && Wf(first) && !first.Nil?
    ensures var l := ParseAssign(Advance(s));
      Peek(s).kind == RANGE ==> Good(l) && (l.Ok? ==> Lexed(Advance(l.rest)))
    ensures var m := ParseElements([first], s);
      Peek(s).kind != RANGE ==> GoodArgs(m) && (m.ArgsOk? ==> Lexed(Advance(m.rest)))
    decreases Size(s), 2
  {
    if Peek(s).kind == RANGE {
      BranchImage(s);
      var l := ParseAssign(Advance(s));
      if l.Ok? { Next(l.rest); }
    } else {
      ElementsImage([first], s);
      var m := ParseElements([first], s);
      if m.ArgsOk? { Next(m.rest); }
    }
  }

  predicate GoodArgs(r: ParsedArgs) {
    r.ArgsOk? ==> WfArgs(r.args) && Lexed(r.rest)
  }

  lemma {:induction false} ElementsImage(acc: seq<Expr>, s: Tokens)
    requires Lexed(s) && WfArgs(acc)
    ensures GoodArgs(ParseElements(acc, s))
    decreases Size(s), 1
  {
    if Peek(s).kind == COMMA {
      BranchImage(s);
      var e := ParseAssign(Advance(s));
      if e.Ok? && !e.e.Nil? {
        ElementsImage(acc + [e.e], e.rest);
      }
    }
  }

  lemma {:induction false} CallImage(s: Tokens)
    requires Lexed(s)
    ensures GoodArgs(ParseCallArgs(s))
    decreases Size(s), 2
  {
    if Peek(s).kind == LPAREN {
      Next(s);
      ArgsImage([], Advance(s));
      var a := ParseArgs([], Advance(s));
      if a.ArgsOk? { Next(a.rest); }
    }
  }

  lemma {:induction false} ArgsImage(acc: seq<Expr>, s: Tokens)
    requires Lexed(s) && WfArgs(acc)
    ensures GoodArgs(ParseArgs(acc, s))
    decreases Size(s), 21
  {
    if Peek(s).kind != RPAREN && Peek(s).kind != EOF {
      AssignImage(s);
      var e := ParseAssign(s);
      if e.Ok? && !e.e.Nil? {
        Next(e.rest);
        ArgsImage(acc + [e.e], SkipComma(e.rest));
      }
    }
  }

  lemma {:induction false} PairsImage(acc: seq<Pair>, s: Tokens)
    requires Lexed(s) && WfPairs(acc)
    ensures var r := ParsePairs(acc, s); r.PairsOk? ==> WfPairs(r.pairs) && Lexed(r.rest)
    decreases Size(s), 21
  {
    var t := Peek(s);
    if t.kind != RBRACE && t.kind != EOF && (t.kind == ID || t.kind == STR) {
      Next(s);
      if Peek(Advance(s)).kind == COLON {
        BranchImage(Advance(s));
        var v := ParseAssign(Advance(Advance(s)));
        if v.Ok? && !v.e.Nil? {
          Next(v.rest);
          PairsImage(acc + [Pair(t.val, v.e)], SkipComma(v.rest));
        }
      }
    }
  }

  /** Parsing, printing and parsing again is parsing: the printed form of any parsed tree reads back
      as that tree, whatever tokens follow that do not continue it. */
  lemma {:induction false} ReparseRoundTrip(s: Tokens, rest: Tokens)
    requires Lexed(s) && ParseAssign(s).Ok? && Follows(0, Peek(rest).kind)
    ensures ParseAssign(Print(ParseAssign(s).e, 0, rest)) == Ok(ParseAssign(s).e, rest)
  {
    AssignImage(s);
    hide *;
    AssignRoundTrip(ParseAssign(s).e, rest);
  }
}
