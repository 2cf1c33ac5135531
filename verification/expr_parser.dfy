/** The recursive-descent parser itself: one token of lookahead over a scanner, fields advanced in
    place. Every method computes what the grammar function of the same name says. */
module ExprParser {
  import opened ExprSyntax
  import opened ExprGrammar
  import opened ExprLexer
  import opened ExprText

  class Parser {
    const lexer: Lexer
    var tok: Token
    /** The lookahead and all tokens after it. */
    ghost var rest: Tokens

    ghost predicate Valid()
      reads this, lexer
    {
      lexer.Valid() && tok == Peek(rest) && lexer.Remaining() == Advance(rest)
    }

    /** The outcome of a parsing method against the grammar: result r, tokens left `rest`. */
    ghost predicate Is(ok: bool, e: Expr, r: Parsed)
      reads this
    {
      r == if ok then Ok(e, rest) else Fail
    }

    constructor (text: string)
      ensures Valid() && fresh(lexer) && rest == TokensFrom(Trim(text), 0)
    {
      var l := new Lexer(text);
      ghost var ts := l.Remaining();
      var t := l.Scan();
      lexer := l;
      tok := t;
      rest := ts;
    }

    method Next()
      requires Valid()
      modifies this, lexer
      ensures Valid() && rest == Advance(old(rest))
    {
      rest := Advance(rest);
      tok := lexer.Scan();
    }

    method Expect(k: Kind) returns (ok: bool)
      requires Valid()
      modifies this, lexer
      ensures Valid()
      ensures ok == (Peek(old(rest)).kind == k) && rest == if ok then Advance(old(rest)) else old(rest)
    {
      ok := tok.kind == k;
      if ok {
        Next();
      }
    }

    method ParseAssign() returns (ok: bool, e: Expr)
      requires Valid()
      modifies this, lexer
      ensures Valid() && Is(ok, e, ExprGrammar.ParseAssign(old(rest)))
      decreases Size(rest), 20
    {
      ok, e := ParseTernary();
      if !ok || tok.kind != ASSIGN {
        return;
      }
      Next();
      var right;
      ok, right := ParseAssign();
      if !ok || right.Nil? {
        return false, Nil;
      }
      if e.Id? {
        return true, AssignName(e.name, right);
      }
      if e.Index? {
        return true, AssignIndex(e, right);
      }
      return false, Nil;
    }

    method ParseTernary() returns (ok: bool, e: Expr)
      requires Valid()
      modifies this, lexer
      ensures Valid() && Is(ok, e, ExprGrammar.ParseTernary(old(rest)))
      decreases Size(rest), 19
    {
      hide ExprGrammar.ParseAssign, ExprGrammar.ParseBinary;
      ok, e := ParseBinary(2);
      if !ok || tok.kind != QUESTION {
        return;
      }
      if e.Nil? {
        return false, Nil;
      }
      Next();
      var thn;
      ok, thn := ParseAssign();
      if !ok || thn.Nil? {
        return false, Nil;
      }
      ok := Expect(COLON);
      if !ok {
        return;
      }
      var els;
      ok, els := ParseAssign();
      if !ok || els.Nil? {
        return false, Nil;
      }
      e := Ternary(e, thn, els);
    }

    method ParseBinary(level: nat) returns (ok: bool, e: Expr)
      requires Valid() && 2 <= level <= 9
      modifies this, lexer
      ensures Valid() && Is(ok, e, ExprGrammar.ParseBinary(level, old(rest)))
      decreases Size(rest), 18 - level
    {
      if level == 9 {
        ok, e := ParseUnary();
        return;
      }
      ok, e := ParseBinary(level + 1);
      if ok {
        ok, e := BinaryRest(level, e);
      }
    }

    /** The operator loop of ParseBinary, left operands folded in `e`. */
    method BinaryRest(level: nat, left: Expr) returns (ok: bool, e: Expr)
      requires Valid() && 2 <= level <= 8
      modifies this, lexer
      ensures Valid() && Is(ok, e, BinaryLoop(level, left, old(rest)))
      decreases Size(rest), 4
    {
      hide ExprGrammar.ParseBinary, Lexer.Valid, TokensFrom;
      ghost var start := rest;
      e := left;
      while OpLevel(tok.kind) == level
        invariant Valid() && Size(rest) <= Size(start)
        invariant BinaryLoop(level, e, rest) == BinaryLoop(level, left, start)
        decreases Size(rest)
      {
        if e.Nil? {
          return false, Nil;
        }
        var op := tok.kind;
        Next();
        var right;
        ok, right := ParseBinary(level + 1);
        if !ok || (right.Nil? && op != NULLCOALESCE) {
          return false, Nil;
        }
        e := Binary(op, e, right);
      }
      ok := true;
    }

    method ParseUnary() returns (ok: bool, e: Expr)
      requires Valid()
      modifies this, lexer
      ensures Valid() && Is(ok, e, ExprGrammar.ParseUnary(old(rest)))
      decreases Size(rest), 7
    {
      var k := tok.kind;
      if k == NOT || k == SUB {
        Next();
        ok, e := ParseUnary();
        if !ok || e.Nil? {
          return false, Nil;
        }
        e := if k == NOT then Not(e) else Neg(e);
      } else if k == INC || k == DEC {
        Next();
        ok, e := ParsePostfix();
        if !ok || e.Nil? {
          return false, Nil;
        }
        e := IncDec(ExprName(e), k == INC);
      } else {
        ok, e := ParsePostfix();
      }
    }

    method ParsePostfix() returns (ok: bool, e: Expr)
      requires Valid()
      modifies this, lexer
      ensures Valid() && Is(ok, e, ExprGrammar.ParsePostfix(old(rest)))
      decreases Size(rest), 6
    {
      ok, e := ParseAtom();
      if !ok {
        return;
      }
      while IsPostfix(tok.kind)
        invariant Valid() && Size(rest) <= Size(old(rest))
        invariant PostfixLoop(e, rest) == ExprGrammar.ParsePostfix(old(rest))
        decreases Size(rest)
      {
        var k := tok.kind;
        if k == INC || k == DEC {
          Next();
          return true, IncDec(ExprName(e), k == INC);
        }
        ok, e := PostfixTurn(e);
        if !ok {
          return;
        }
      }
      ok := true;
    }

    /** One turn of the loop of ParsePostfix. */
    method PostfixTurn(obj: Expr) returns (ok: bool, e: Expr)
      requires Valid() && IsPostfix(tok.kind) && tok.kind != INC && tok.kind != DEC
      modifies this, lexer
      ensures Valid() && Is(ok, e, PostfixStep(obj, old(rest)))
      decreases Size(rest), 4
    {
      var k := tok.kind;
      var args;
      if k == DOT || k == NULLSAFE {
        Next();
        if tok.kind != ID {
          return false, Nil;
        }
        var name := tok.val;
        Next();
        if tok.kind != LPAREN {
          return true, Field(obj, name, k == NULLSAFE);
        }
        ok, args := ParseCallArgs();
        e := Method(obj, name, args, k == NULLSAFE);
      } else if k == LBRACK {
        Next();
        var index;
        ok, index := ParseAssign();
        e := Index(obj, index);
        if ok {
          ok := Expect(RBRACK);
        }
      } else {
        ok, args := ParseCallArgs();
        e := if obj.Id? then Method(Nil, obj.name, args, false) else Method(obj, "", args, false);
      }
    }

    method ParseAtom() returns (ok: bool, e: Expr)
      requires Valid()
      modifies this, lexer
      ensures Valid() && Is(ok, e, ExprGrammar.ParseAtom(old(rest)))
      decreases Size(rest), 3
    {
      var t := tok;
      if t.kind == ID {
        ok, e := ParseName();
      } else if t.kind == STR || t.kind == INT || t.kind == FLOAT || t.kind == BOOL || t.kind == NULL {
        Next();
        ok := true;
        e := if t.kind == STR then Str(t.val) else if t.kind == INT then Int(t.val)
             else if t.kind == FLOAT then Float(t.val) else if t.kind == BOOL then Bool(t.val == "true")
             else Null;
      } else if t.kind == LPAREN {
        Next();
        ok, e := ParseAssign();
        if ok {
          ok := Expect(RPAREN);
        }
      } else if t.kind == LBRACK {
        ok, e := ParseArrayOrRange();
      } else if t.kind == LBRACE {
        ok, e := ParseMap();
      } else {
        ok, e := EndsOperand(t.kind), Nil;
      }
    }

    method ParseName() returns (ok: bool, e: Expr)
      requires Valid() && tok.kind == ID
      modifies this, lexer
      ensures Valid() && Is(ok, e, ExprGrammar.ParseName(Peek(old(rest)).val, Advance(old(rest))))
      decreases Size(rest), 2
    {
      var name := tok.val;
      Next();
      if tok.kind != STATIC {
        return true, Id(name);
      }
      Next();
      if tok.kind != ID {
        return false, Nil;
      }
      var member := tok.val;
      Next();
      var args := [];
      ok := true;
      if tok.kind == LPAREN {
        ok, args := ParseCallArgs();
      }
      e := StaticCall(name, member, args);
    }

    method ParseArrayOrRange() returns (ok: bool, e: Expr)
      requires Valid() && tok.kind == LBRACK
      modifies this, lexer
      ensures Valid() && Is(ok, e, ExprGrammar.ParseArrayOrRange(old(rest)))
      decreases Size(rest), 2
    {
      hide ExprGrammar.ParseAssign, ExprGrammar.ParseElements, ExprGrammar.ParseRangeEnd;
      Next();
      if tok.kind == RBRACK {
        Next();
        return true, Array([]);
      }
      var first;
      ok, first := ParseAssign();
      if !ok || first.Nil? {
        return false, Nil;
      }
      if tok.kind == RANGE {
        ok, e := ParseRangeEnd(first);
        return;
      }
      var elements;
      ok, elements := ParseElements(first);
      e := Array(elements);
      if ok {
        ok := Expect(RBRACK);
      }
    }

    method ParseRangeEnd(first: Expr) returns (ok: bool, e: Expr)
      requires Valid() && tok.kind == RANGE
      modifies this, lexer
      ensures Valid() && Is(ok, e, ExprGrammar.ParseRangeEnd(first, old(rest)))
      decreases Size(rest), 21
    {
      hide ExprGrammar.ParseAssign;
      Next();
      var last;
      ok, last := ParseAssign();
      if !ok || last.Nil? {
        return false, Nil;
      }
      ok := Expect(RBRACK);
      e := ExprSyntax.Range(first, last);
    }

    /** The loop of ParseArrayOrRange over ", element". */
    method ParseElements(first: Expr) returns (ok: bool, elements: seq<Expr>)
      requires Valid()
      modifies this, lexer
      ensures Valid()
      ensures ExprGrammar.ParseElements([first], old(rest)) == if ok then ArgsOk(elements, rest) else ArgsFail
      decreases Size(rest), 21
    {
      elements := [first];
      while tok.kind == COMMA
        invariant Valid() && Size(rest) <= Size(old(rest))
        invariant ExprGrammar.ParseElements(elements, rest) == ExprGrammar.ParseElements([first], old(rest))
        decreases Size(rest)
      {
        Next();
        var e;
        ok, e := ParseAssign();
        if !ok || e.Nil? {
          return false, [];
        }
        elements := elements + [e];
      }
      ok := true;
    }

    method ParseMap() returns (ok: bool, e: Expr)
      requires Valid() && tok.kind == LBRACE
      modifies this, lexer
      ensures Valid() && Is(ok, e, ExprGrammar.ParseAtom(old(rest)))
      decreases Size(rest), 2
    {
      Next();
      ghost var start := rest;
      var pairs := [];
      while tok.kind != RBRACE && tok.kind != EOF
        invariant Valid() && Size(rest) <= Size(start)
        invariant ParsePairs(pairs, rest) == ParsePairs([], start)
        decreases Size(rest)
      {
        var pair;
        ok, pair := ParsePair(pairs);
        if !ok {
          return false, Nil;
        }
        pairs := pairs + [pair];
      }
      ok := Expect(RBRACE);
      e := ExprSyntax.Map(pairs);
    }

    /** One turn of the map loop, after the pairs read so far. */
    method ParsePair(ghost acc: seq<Pair>) returns (ok: bool, pair: Pair)
      requires Valid() && tok.kind != RBRACE && tok.kind != EOF
      modifies this, lexer
      ensures Valid() && (ok ==> Size(rest) < Size(old(rest)))
      ensures ParsePairs(acc, old(rest)) == if ok then ParsePairs(acc + [pair], rest) else PairsFail
      decreases Size(rest), 2
    {
      hide ExprGrammar.ParseAssign;
      var key := tok.val;
      pair := Pair(key, Nil);
      if tok.kind != ID && tok.kind != STR {
        return false, pair;
      }
      Next();
      ok := Expect(COLON);
      if !ok {
        return;
      }
      var value;
      ok, value := ParseAssign();
      if !ok || value.Nil? {
        return false, pair;
      }
      pair := Pair(key, value);
      if tok.kind == COMMA {
        Next();
      }
    }

    method ParseCallArgs() returns (ok: bool, args: seq<Expr>)
      requires Valid()
      modifies this, lexer
      ensures Valid()
      ensures ExprGrammar.ParseCallArgs(old(rest)) == if ok then ArgsOk(args, rest) else ArgsFail
      decreases Size(rest), 2
    {
      args := [];
      ok := Expect(LPAREN);
      if !ok {
        return;
      }
      ghost var start := rest;
      while tok.kind != RPAREN && tok.kind != EOF
        invariant Valid() && Size(rest) <= Size(start)
        invariant ParseArgs(args, rest) == ParseArgs([], start)
        decreases Size(rest)
      {
        var arg;
        ok, arg := ParseAssign();
        if !ok || arg.Nil? {
          return false, [];
        }
        args := args + [arg];
        if tok.kind == COMMA {
          Next();
        }
      }
      ok := Expect(RPAREN);
    }
  }
  /** parseExprWithConfig: the whole way from a text to a tree. */
  method ParseExpr(text: string, allowStatic: bool) returns (r: TextResult)
    ensures r == ParseText(text, allowStatic)
  {
    if !allowStatic {
      var refused := ScanForStatic(text);
      if refused {
        return Error;
      }
    }
    var p := new Parser(text);
    var ok, e := p.ParseAssign();
    r := if !ok || e.Nil? || p.tok.kind == PANIC then Error else Tree(e);
  }

  /** exprContainsStatic; true also when the scan itself would panic. */
  method ScanForStatic(text: string) returns (refused: bool)
    ensures var ts := TokensFrom(Trim(text), 0); refused == (ContainsStatic(ts) || HasPanic(ts))
  {
    var l := new Lexer(text);
    ghost var ts := l.Remaining();
    while true
      invariant l.Valid() && fresh(l)
      invariant ContainsStatic(l.Remaining()) == ContainsStatic(ts) && HasPanic(l.Remaining()) == HasPanic(ts)
      decreases Size(l.Remaining())
    {
      var tok := l.Scan();
      if tok.kind == EOF {
        return false;
      }
      if tok.kind == STATIC || tok.kind == PANIC {
        return true;
      }
    }
  }
}
