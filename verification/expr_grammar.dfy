/** What the recursive-descent parser of enjoy/expr_parser.go computes, as functions on the token
    stream. Fail covers every returned error and the run-time panic of a PANIC lookahead. */
module ExprGrammar {
  import opened ExprSyntax

  datatype Parsed = Ok(e: Expr, rest: Tokens) | Fail
  datatype ParsedArgs = ArgsOk(args: seq<Expr>, rest: Tokens) | ArgsFail
  datatype ParsedPairs = PairsOk(pairs: seq<Pair>, rest: Tokens) | PairsFail

  function ExprName(e: Expr): string {
    if e.Id? then e.name else ""
  }

  /** expect(k) followed by returning e. */
  function Close(k: Kind, e: Expr, s: Tokens): Parsed {
    if Peek(s).kind == k then Ok(e, Advance(s)) else Fail
  }

  /** The parser made progress: it never gives tokens back, and a tree costs at least one token. */
  predicate Progress(r: Parsed, s: Tokens) {
    r.Ok? ==> Size(r.rest) <= Size(s) && (!r.e.Nil? ==> Size(r.rest) < Size(s))
  }

  function ParseAssign(s: Tokens): (r: Parsed)
    ensures Progress(r, s)
    decreases Size(s), 20
  {
    var l := ParseTernary(s);
    if l.Fail? || Peek(l.rest).kind != ASSIGN then l
    else
      var r := ParseAssign(Advance(l.rest));
      if r.Fail? || r.e.Nil? then Fail
      else if l.e.Id? then Ok(AssignName(l.e.name, r.e), r.rest)
      else if l.e.Index? then Ok(AssignIndex(l.e, r.e), r.rest)
      else Fail
  }

  function ParseTernary(s: Tokens): (r: Parsed)
    ensures Progress(r, s)
    decreases Size(s), 19
  {
    var c := ParseBinary(2, s);
    if c.Fail? || Peek(c.rest).kind != QUESTION then c
    else if c.e.Nil? then Fail
    else
      var a := ParseAssign(Advance(c.rest));
      if a.Fail? || a.e.Nil? || Peek(a.rest).kind != COLON then Fail
      else
        var b := ParseAssign(Advance(a.rest));
        if b.Fail? || b.e.Nil? then Fail else Ok(Ternary(c.e, a.e, b.e), b.rest)
  }

  /** parseOr, parseAnd, parseEquality, parseCompare, parseAdd, parseMul, parseNullSafe: one shape,
      levels 2 to 8, each over operands of the next level; level 9 is unary. */
  function ParseBinary(level: nat, s: Tokens): (r: Parsed)
    requires 2 <= level <= 9
    ensures Progress(r, s)
    decreases Size(s), 18 - level
  {
    if level == 9 then ParseUnary(s)
    else
      var l := ParseBinary(level + 1, s);
      if l.Fail? then Fail else BinaryLoop(level, l.e, l.rest)
  }

  /** The operator loop of a level: folds operands to the left while its operators follow. */
  function BinaryLoop(level: nat, left: Expr, s: Tokens): (r: Parsed)
    requires 2 <= level <= 9
    ensures r.Ok? ==> Size(r.rest) <= Size(s) && (r.e == left || Size(r.rest) < Size(s))
    ensures r.Ok? && r.e.Nil? ==> left.Nil?
    decreases Size(s), 4
  {
    var op := Peek(s).kind;
    if OpLevel(op) != level then Ok(left, s)
    else if left.Nil? then Fail
    else
      var r := ParseBinary(level + 1, Advance(s));
      if r.Fail? || (r.e.Nil? && op != NULLCOALESCE) then Fail
      else BinaryLoop(level, Binary(op, left, r.e), r.rest)
  }

  function ParseUnary(s: Tokens): (r: Parsed)
    ensures Progress(r, s)
    decreases Size(s), 7
  {
    var k := Peek(s).kind;
    if k == NOT || k == SUB then
      var r := ParseUnary(Advance(s));
      if r.Fail? || r.e.Nil? then Fail
      else Ok(if k == NOT then Not(r.e) else Neg(r.e), r.rest)
    else if k == INC || k == DEC then
      var r := ParsePostfix(Advance(s));
      if r.Fail? || r.e.Nil? then Fail else Ok(IncDec(ExprName(r.e), k == INC), r.rest)
    else
      ParsePostfix(s)
  }

  function ParsePostfix(s: Tokens): (r: Parsed)
    ensures Progress(r, s)
    decreases Size(s), 6
  {
    var a := ParseAtom(s);
    if a.Fail? then Fail else PostfixLoop(a.e, a.rest)
  }

  /** The postfix loop: member access, indexing and calls until `++`/`--` or another token. */
  function PostfixLoop(e: Expr, s: Tokens): (r: Parsed)
    ensures r.Ok? ==> Size(r.rest) <= Size(s) && (r.e == e || Size(r.rest) < Size(s))
    decreases Size(s), 5
  {
    var k := Peek(s).kind;
    if !IsPostfix(k) then Ok(e, s)
    else if k == INC || k == DEC then Ok(IncDec(ExprName(e), k == INC), Advance(s))
    else
      var step := PostfixStep(e, s);
      if step.Fail? then Fail else PostfixLoop(step.e, step.rest)
  }

  /** One turn of the postfix loop: a member, an index or a call. */
  function PostfixStep(e: Expr, s: Tokens): (r: Parsed)
    requires IsPostfix(Peek(s).kind)
    ensures r.Ok? ==> Size(r.rest) < Size(s) && !r.e.Nil?
    decreases Size(s), 4
  {
    var k := Peek(s).kind;
    if k == DOT || k == NULLSAFE then
      var t := Peek(Advance(s));
      if t.kind != ID then Fail else ParseMember(e, t.val, k == NULLSAFE, Advance(Advance(s)))
    else if k == LBRACK then
      var i := ParseAssign(Advance(s));
      if i.Fail? then Fail else Close(RBRACK, Index(e, i.e), i.rest)
    else
      var a := ParseCallArgs(s);
      if a.ArgsFail? then Fail
      else if e.Id? then Ok(Method(Nil, e.name, a.args, false), a.rest)
      else Ok(Method(e, "", a.args, false), a.rest)
  }

  /** After `.name` or `?.name`: a method when a call follows, else a field. */
  function ParseMember(e: Expr, name: string, safe: bool, s: Tokens): (r: Parsed)
    ensures r.Ok? ==> Size(r.rest) <= Size(s) && !r.e.Nil?
    decreases Size(s), 22
  {
    if Peek(s).kind != LPAREN then Ok(Field(e, name, safe), s)
    else
      var a := ParseCallArgs(s);
      if a.ArgsFail? then Fail else Ok(Method(e, name, a.args, safe), a.rest)
  }

  function ParseAtom(s: Tokens): (r: Parsed)
    ensures Progress(r, s)
    decreases Size(s), 3
  {
    var t := Peek(s);
    if t.kind == ID then ParseName(t.val, Advance(s))
    else if t.kind == STR then Ok(Str(t.val), Advance(s))
    else if t.kind == INT then Ok(Int(t.val), Advance(s))
    else if t.kind == FLOAT then Ok(Float(t.val), Advance(s))
    else if t.kind == BOOL then Ok(Bool(t.val == "true"), Advance(s))
    else if t.kind == NULL then Ok(Null, Advance(s))
    else if t.kind == LPAREN then
      var r := ParseAssign(Advance(s));
      if r.Fail? then Fail else Close(RPAREN, r.e, r.rest)
    else if t.kind == LBRACK then ParseArrayOrRange(s)
    else if t.kind == LBRACE then
      var m := ParsePairs([], Advance(s));
      if m.PairsFail? then Fail else Close(RBRACE, Map(m.pairs), m.rest)
    else if EndsOperand(t.kind) then Ok(Nil, s)
    else Fail
  }

  /** After a leading identifier: a static member `cls::name`, with or without call, or the name. */
  function ParseName(name: string, s: Tokens): (r: Parsed)
    ensures r.Ok? ==> Size(r.rest) <= Size(s) && !r.e.Nil?
    decreases Size(s), 22
  {
    if Peek(s).kind != STATIC then Ok(Id(name), s)
    else
      var m := Peek(Advance(s));
      var rest := Advance(Advance(s));
      if m.kind != ID then Fail
      else if Peek(rest).kind == LPAREN then
        var a := ParseCallArgs(rest);
        if a.ArgsFail? then Fail else Ok(StaticCall(name, m.val, a.args), a.rest)
      else Ok(StaticCall(name, m.val, []), rest)
  }

  function ParseArrayOrRange(s: Tokens): (r: Parsed)
    requires Peek(s).kind == LBRACK
    ensures Progress(r, s)
    decreases Size(s), 2
  {
    var s1 := Advance(s);
    if Peek(s1).kind == RBRACK then Ok(Array([]), Advance(s1))
    else
      var f := ParseAssign(s1);
      if f.Fail? || f.e.Nil? then Fail
      else if Peek(f.rest).kind == RANGE then ParseRangeEnd(f.e, f.rest)
      else
        var m := ParseElements([f.e], f.rest);
        if m.ArgsFail? then Fail else Close(RBRACK, Array(m.args), m.rest)
  }

  function ParseRangeEnd(first: Expr, s: Tokens): (r: Parsed)
    requires Peek(s).kind == RANGE
    ensures r.Ok? ==> Size(r.rest) < Size(s)
    decreases Size(s), 1
  {
    var l := ParseAssign(Advance(s));
    if l.Fail? || l.e.Nil? then Fail else Close(RBRACK, Range(first, l.e), l.rest)
  }

  /** The loop over ", element". */
  function ParseElements(acc: seq<Expr>, s: Tokens): (r: ParsedArgs)
    ensures r.ArgsOk? ==> Size(r.rest) <= Size(s)
    decreases Size(s), 1
  {
    if Peek(s).kind != COMMA then ArgsOk(acc, s)
    else
      var e := ParseAssign(Advance(s));
      if e.Fail? || e.e.Nil? then ArgsFail else ParseElements(acc + [e.e], e.rest)
  }

  function ParseCallArgs(s: Tokens): (r: ParsedArgs)
    ensures r.ArgsOk? ==> Size(r.rest) < Size(s)
    decreases Size(s), 2
  {
    if Peek(s).kind != LPAREN then ArgsFail
    else
      var a := ParseArgs([], Advance(s));
      if a.ArgsFail? || Peek(a.rest).kind != RPAREN then ArgsFail
      else ArgsOk(a.args, Advance(a.rest))
  }

  function SkipComma(s: Tokens): Tokens {
    if Peek(s).kind == COMMA then Advance(s) else s
  }

  /** The argument loop; the comma after an argument is optional. */
  function ParseArgs(acc: seq<Expr>, s: Tokens): (r: ParsedArgs)
    ensures r.ArgsOk? ==> Size(r.rest) <= Size(s)
    decreases Size(s), 21
  {
    if Peek(s).kind == RPAREN || Peek(s).kind == EOF then ArgsOk(acc, s)
    else
      var e := ParseAssign(s);
      if e.Fail? || e.e.Nil? then ArgsFail else ParseArgs(acc + [e.e], SkipComma(e.rest))
  }

  /** The map loop; keys are identifiers or strings and the comma after a pair is optional. */
  function ParsePairs(acc: seq<Pair>, s: Tokens): (r: ParsedPairs)
    ensures r.PairsOk? ==> Size(r.rest) <= Size(s)
    decreases Size(s), 21
  {
    var t := Peek(s);
    if t.kind == RBRACE || t.kind == EOF then PairsOk(acc, s)
    else if (t.kind != ID && t.kind != STR) || Peek(Advance(s)).kind != COLON then PairsFail
    else
      var v := ParseAssign(Advance(Advance(s)));
      if v.Fail? || v.e.Nil? then PairsFail
      else ParsePairs(acc + [Pair(t.val, v.e)], SkipComma(v.rest))
  }
}
