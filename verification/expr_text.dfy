/** From text to tree and back: the scanner reads what is rendered, the parser what is printed. */
module ExprText {
  import opened ExprSyntax
  import opened ExprGrammar
  import opened ExprPrinting
  import opened ExprLexer
  import opened ExprRoundTrip
  import opened ExprImage

  function TokenText(t: Token): string {
    if t.kind == STR then "\"" + t.val + "\"" else t.val
  }

  /** Tokens with single spaces between them. */
  function Render(ts: Tokens): string {
    if ts.End? then ""
    else TokenText(ts.head) + if ts.tail.End? then "" else " " + Render(ts.tail)
  }

  /** What may stand between tokens. */
  predicate Blank(c: char) {
    c in [' ', '\t', '\n', '\r']
  }

  predicate Gap(gap: string) {
    gap != "" && forall c | c in gap :: Blank(c)
  }

  function FirstGap(gaps: seq<string>): string {
    if gaps == [] then " " else gaps[0]
  }

  function MoreGaps(gaps: seq<string>): seq<string> {
    if gaps == [] then [] else gaps[1..]
  }

  /** Tokens with the given gaps between them, and single spaces when these run out. */
  function Spaced(ts: Tokens, gaps: seq<string>): string {
    if ts.End? then ""
    else TokenText(ts.head) + if ts.tail.End? then "" else FirstGap(gaps) + Spaced(ts.tail, MoreGaps(gaps))
  }

  lemma {:induction false} RenderIsSpaced(ts: Tokens)
    ensures Render(ts) == Spaced(ts, [])
    decreases ts
  {
    if ts.More? { RenderIsSpaced(ts.tail); }
  }

  predicate IsWord(v: string) {
    v != "" && IsIdStart(v[0]) && forall k | 0 <= k < |v| :: IsIdPart(v[k])
  }

  predicate IsNumber(v: string) {
    v != "" && IsDigit(v[0]) && forall k | 0 <= k < |v| :: InNumber(v, k)
  }

  /** Tokens that scanning their own text gives back. */
  predicate Canonical(t: Token) {
    if t.kind == ID || t.kind == BOOL || t.kind == NULL then IsWord(t.val) && Word(t.val) == t
    else if t.kind == STR then '"' !in t.val && '\\' !in t.val
    else if t.kind == INT || t.kind == FLOAT then
      IsNumber(t.val) && t.kind == if HasDot(t.val, 0, |t.val|) then FLOAT else INT
    else
      && t.kind != EOF && t.kind != PANIC
      && ((|t.val| == 2 && Pair2(t.val[0], t.val[1]) == t.kind)
          || (|t.val| == 1 && Single(t.val[0]) == t.kind))
  }

  predicate AllCanonical(ts: Tokens) {
    ts.More? ==> Canonical(ts.head) && AllCanonical(ts.tail)
  }

  // ---- where the loops stop ----

  lemma {:induction false} IdEndAt(s: string, i: nat, j: nat)
    requires i <= j <= |s| && (forall k | i <= k < j :: IsIdPart(s[k])) && (j < |s| ==> !IsIdPart(s[j]))
    ensures IdEnd(s, i) == j
    decreases j - i
  {
    if i < j { IdEndAt(s, i + 1, j); }
  }

  lemma {:induction false} NumberEndAt(s: string, i: nat, j: nat)
    requires i <= j <= |s| && (forall k | i <= k < j :: InNumber(s, k)) && (j < |s| ==> !InNumber(s, j))
    ensures NumberEnd(s, i) == j
    decreases j - i
  {
    if i < j { NumberEndAt(s, i + 1, j); }
  }

  lemma {:induction false} StringEndAt(s: string, quote: char, i: nat, j: nat)
    requires i <= j < |s| && s[j] == quote && forall k | i <= k < j :: s[k] != quote && s[k] != '\\'
    ensures StringEnd(s, quote, i) == j
    decreases j - i
  {
    if i < j { StringEndAt(s, quote, i + 1, j); }
  }

  lemma {:induction false} DotShift(v: string, s: string, i: nat, n: nat)
    requires n <= |v| && i + |v| <= |s| && s[i..i + |v|] == v
    ensures HasDot(s, i, i + n) == HasDot(v, 0, n)
    decreases n
  {
    if n > 0 {
      DotShift(v, s, i, n - 1);
      assert s[i + n - 1] == v[n - 1];
    }
  }

  // ---- one token ----

  /** The text v stands at position i and ends the input or is followed by a blank. */
  predicate Stands(s: string, i: nat, v: string) {
    && i + |v| <= |s| && s[i..i + |v|] == v
    && (i + |v| < |s| ==> Blank(s[i + |v|]))
  }

  lemma StandsAt(s: string, i: nat, v: string, k: nat)
    requires Stands(s, i, v) && k < |v|
    ensures s[i + k] == v[k]
  {
    assert s[i..i + |v|][k] == s[i + k];
  }

  lemma ScanWord(s: string, i: nat, v: string)
    requires Stands(s, i, v) && IsWord(v)
    ensures ScanAt(s, i) == Scanned(Word(v), i + |v|)
  {
    forall k | i <= k < i + |v| ensures IsIdPart(s[k]) {
      StandsAt(s, i, v, k - i);
    }
    StandsAt(s, i, v, 0);
    IdEndAt(s, i, i + |v|);
  }

  lemma NumeralStands(s: string, i: nat, v: string, k: nat)
    requires Stands(s, i, v) && IsNumber(v) && k < |v|
    ensures i + |v| <= |s| && s[i..i + |v|] == v && IsDigit(v[0])
    ensures InNumber(s, i + k)
  {
    StandsAt(s, i, v, k);
    assert InNumber(v, k);
    if k + 1 < |v| { StandsAt(s, i, v, k + 1); }
  }

  lemma ScanNumeral(s: string, i: nat, v: string)
    requires Stands(s, i, v) && v != "" && IsNumber(v)
    ensures ScanAt(s, i) == Scanned(Token(if HasDot(v, 0, |v|) then FLOAT else INT, v), i + |v|)
  {
    hide *;
    NumeralStands(s, i, v, 0);
    StandsAt(s, i, v, 0);
    ScanDigits(s, i);
    NumeralEnd(s, i, v);
    DotShift(v, s, i, |v|);
  }

  lemma ScanDigits(s: string, i: nat)
    requires i < |s| && IsDigit(s[i])
    ensures var j := NumberEnd(s, i);
      ScanAt(s, i) == Scanned(Token(if HasDot(s, i, j) then FLOAT else INT, s[i..j]), j)
  {
  }

  lemma NumeralEnd(s: string, i: nat, v: string)
    requires Stands(s, i, v) && IsNumber(v)
    ensures NumberEnd(s, i) == i + |v|
  {
    forall k | i <= k < i + |v| ensures InNumber(s, k) {
      NumeralStands(s, i, v, k - i);
    }
    hide NumberEnd;
    NumberEndAt(s, i, i + |v|);
  }

  lemma ScanQuoted(s: string, i: nat, v: string)
    requires Stands(s, i, "\"" + v + "\"") && '"' !in v && '\\' !in v
    ensures ScanAt(s, i) == Scanned(Token(STR, v), i + |v| + 2)
  {
    var q := "\"" + v + "\"";
    StandsAt(s, i, q, 0);
    assert StringEnd(s, '"', i + 1) == i + 1 + |v| by {
      StandsAt(s, i, q, 1 + |v|);
      forall k | i + 1 <= k < i + 1 + |v| ensures s[k] != '"' && s[k] != '\\' {
        StandsAt(s, i, q, k - i);
        assert q[k - i] == v[k - i - 1];
      }
      StringEndAt(s, '"', i + 1, i + 1 + |v|);
    }
    hide StringEnd;
    Unquoted(s, i, v);
  }

  lemma Unquoted(s: string, i: nat, v: string)
    requires Stands(s, i, "\"" + v + "\"")
    ensures s[i + 1..i + 1 + |v|] == v
  {
    var q := "\"" + v + "\"";
    forall k | 0 <= k < |v| ensures s[i + 1 + k] == v[k] {
      StandsAt(s, i, q, k + 1);
    }
  }

  lemma OperatorStart(c: char)
    requires Single(c) != EOF || c == '&' || c == '|'
    ensures !IsIdStart(c) && c != '"' && c != '\'' && !IsDigit(c) && !IsTrimmed(c)
  {
  }

  lemma PairStart(c: char, d: char)
    ensures Pair2(c, d) != EOF ==> Single(c) != EOF || c == '&' || c == '|'
    ensures Pair2(c, ' ') == EOF
  {
  }

  lemma ScanOperator(s: string, i: nat, t: Token)
    requires Stands(s, i, t.val) && Canonical(t)
    requires t.kind != ID && t.kind != BOOL && t.kind != NULL && t.kind != STR && t.kind != INT && t.kind != FLOAT
    ensures ScanAt(s, i) == Scanned(t, i + |t.val|)
  {
    var v := t.val;
    StandsAt(s, i, v, 0);
    if |v| == 2 {
      StandsAt(s, i, v, 1);
      PairStart(v[0], v[1]);
    } else {
      PairStart(v[0], ' ');
    }
    OperatorStart(v[0]);
  }

  lemma ScanToken(s: string, i: nat, t: Token)
    requires Canonical(t) && Stands(s, i, TokenText(t))
    ensures ScanAt(s, i) == Scanned(t, i + |TokenText(t)|)
  {
    if t.kind == ID || t.kind == BOOL || t.kind == NULL {
      ScanWord(s, i, t.val);
    } else if t.kind == STR {
      ScanQuoted(s, i, t.val);
    } else if t.kind == INT || t.kind == FLOAT {
      ScanNumeral(s, i, t.val);
    } else {
      ScanOperator(s, i, t);
    }
  }

  lemma TextEdges(t: Token)
    requires Canonical(t)
    ensures var v := TokenText(t); v != "" && !IsTrimmed(v[0]) && !IsTrimmed(v[|v| - 1])
  {
    var v := t.val;
    if t.kind == ID || t.kind == BOOL || t.kind == NULL {
      assert IsIdPart(v[|v| - 1]);
    } else if t.kind == STR {
    } else if t.kind == INT || t.kind == FLOAT {
      assert InNumber(v, |v| - 1);
    } else {
      if |v| == 2 {
        PairStart(v[0], v[1]);
        SecondStart(v[0], v[1]);
      }
      OperatorStart(v[0]);
    }
  }

  lemma SecondStart(c: char, d: char)
    ensures Pair2(c, d) != EOF ==> !IsTrimmed(d)
  {
  }

  // ---- all tokens ----

  lemma SpacedParts(ts: Tokens, gaps: seq<string>)
    requires AllCanonical(ts) && ts.More?
    ensures var v := TokenText(ts.head); var r := Spaced(ts, gaps);
      && Canonical(ts.head) && AllCanonical(ts.tail) && v != "" && !IsWs(v[0])
      && r == v + (if ts.tail.End? then "" else FirstGap(gaps) + Spaced(ts.tail, MoreGaps(gaps)))
  {
    TextEdges(ts.head);
  }

  /** A list at a position: its first token stands there, the rest behind the gap. */
  lemma SpacedAt(s: string, j: nat, v: string, gap: string, tail: string)
    requires j <= |s| && s[j..] == v + (gap + tail) && v != "" && (Gap(gap) || (gap == "" && tail == ""))
    ensures Stands(s, j, v) && j < |s| && s[j] == v[0]
    ensures gap == "" ==> j + |v| == |s|
    ensures gap != "" ==> j + |v| + |gap| <= |s| && Blanks(s, j + |v|, |gap|) && s[j + |v| + |gap|..] == tail
  {
    var r := s[j..];
    assert r[..|v|] == v && r[0] == v[0];
    assert s[j..j + |v|] == r[..|v|];
    if gap != "" {
      assert s[j + |v|..] == r[|v|..] == gap + tail;
      assert s[j + |v|..][..|gap|] == gap && s[j + |v|..][|gap|..] == tail;
      assert s[j + |v| + |gap|..] == s[j + |v|..][|gap|..];
      forall k | j + |v| <= k < j + |v| + |gap| ensures Blank(s[k]) {
        assert s[k] == gap[k - j - |v|];
      }
    }
  }

  predicate Blanks(s: string, i: nat, n: nat) {
    i + n <= |s| && forall k | i <= k < i + n :: Blank(s[k])
  }

  lemma {:induction false} WsAt(s: string, i: nat, n: nat)
    requires Blanks(s, i, n) && i + n < |s| && !IsWs(s[i + n])
    ensures WsEnd(s, i) == i + n
    decreases n
  {
    if n > 0 {
      WsAt(s, i + 1, n - 1);
      assert Blank(s[i]);
    }
  }

  predicate Gaps(gaps: seq<string>) {
    forall g | g in gaps :: Gap(g)
  }

  lemma GapsStep(gaps: seq<string>)
    requires Gaps(gaps)
    ensures Gap(FirstGap(gaps)) && Gaps(MoreGaps(gaps))
  {
    assert forall g | g in MoreGaps(gaps) :: g in gaps;
  }

  lemma TokenStep(s: string, i: nat, n: nat, t: Token)
    requires Canonical(t) && Blanks(s, i, n) && i + n < |s| && Stands(s, i + n, TokenText(t)) && !IsWs(s[i + n])
    ensures i + n + |TokenText(t)| <= |s| && TokensFrom(s, i) == More(t, TokensFrom(s, i + n + |TokenText(t)|))
  {
    hide Canonical, ScanAt, TokensFrom, WsEnd, TokenText;
    WsAt(s, i, n);
    TokensStep(s, i);
    ScanToken(s, i + n, t);
    CanonicalKind(t);
  }

  /** The first token of a list that starts n blanks after i, and where the rest of it is. */
  lemma SpacedStep(s: string, i: nat, n: nat, ts: Tokens, gaps: seq<string>) returns (next: nat, m: nat)
    requires AllCanonical(ts) && Gaps(gaps) && Blanks(s, i, n) && s[i + n..] == Spaced(ts, gaps) && ts.More?
    ensures next <= |s| && TokensFrom(s, i) == More(ts.head, TokensFrom(s, next)) && AllCanonical(ts.tail)
    ensures ts.tail.End? ==> next == |s|
    ensures ts.tail.More? ==> m > 0 && Blanks(s, next, m) && s[next + m..] == Spaced(ts.tail, MoreGaps(gaps))
  {
    hide *;
    BlanksIn(s, i, n);
    GapsStep(gaps);
    GapNotEmpty(FirstGap(gaps));
    var j := i + n;
    var v := TokenText(ts.head);
    var gap := if ts.tail.End? then "" else FirstGap(gaps);
    var tail := if ts.tail.End? then "" else Spaced(ts.tail, MoreGaps(gaps));
    SpacedParts(ts, gaps);
    assert v + (gap + tail) == v + gap + tail;
    SpacedAt(s, j, v, gap, tail);
    TokenStep(s, i, n, ts.head);
    next, m := j + |v|, |gap|;
  }

  /** Scanning a list of tokens from n blanks before it gives the list and then the end. */
  lemma {:induction false} ScanSpaced(s: string, i: nat, n: nat, ts: Tokens, gaps: seq<string>)
    requires AllCanonical(ts) && Gaps(gaps) && Blanks(s, i, n) && s[i + n..] == Spaced(ts, gaps) && (n > 0 ==> ts.More?)
    ensures TokensFrom(s, i) == ts
    decreases ts
  {
    hide *;
    BlanksIn(s, i, n);
    AtInputEnd(s);
    if ts.End? {
      EmptySpaced(gaps);
      assert |s[i..]| == 0;
    } else {
      var next, m := SpacedStep(s, i, n, ts, gaps);
      GapsStep(gaps);
      if ts.tail.More? {
        ScanSpaced(s, next, m, ts.tail, MoreGaps(gaps));
      }
    }
  }

  lemma BlanksIn(s: string, i: nat, n: nat)
    requires Blanks(s, i, n)
    ensures i + n <= |s|
  {
  }

  lemma GapNotEmpty(gap: string)
    requires Gap(gap)
    ensures gap != ""
  {
  }

  lemma EmptySpaced(gaps: seq<string>)
    ensures Spaced(End, gaps) == ""
  {
  }

  lemma AtInputEnd(s: string)
    ensures TokensFrom(s, |s|) == End
  {
  }

  lemma CanonicalKind(t: Token)
    requires Canonical(t)
    ensures t.kind != PANIC && t.kind != EOF
  {
  }

  lemma {:induction false} TrimSpaced(ts: Tokens, gaps: seq<string>)
    requires AllCanonical(ts)
    ensures Trim(Spaced(ts, gaps)) == Spaced(ts, gaps)
  {
    if ts.More? {
      TextEdges(ts.head);
      SpacedEnd(ts, gaps);
      var s := Spaced(ts, gaps);
      assert s[0] == TokenText(ts.head)[0];
    }
  }

  lemma {:induction false} SpacedEnd(ts: Tokens, gaps: seq<string>)
    requires AllCanonical(ts) && ts.More?
    ensures Spaced(ts, gaps) != "" && !IsTrimmed(Spaced(ts, gaps)[|Spaced(ts, gaps)| - 1])
    decreases ts
  {
    hide *;
    SpacedParts(ts, gaps);
    TextEdges(ts.head);
    if ts.tail.More? {
      SpacedEnd(ts.tail, MoreGaps(gaps));
      SameEnd(TokenText(ts.head), FirstGap(gaps), Spaced(ts.tail, MoreGaps(gaps)));
    } else {
      assert TokenText(ts.head) + "" == TokenText(ts.head);
    }
  }

  lemma SameEnd(a: string, b: string, c: string)
    requires c != ""
    ensures var r := a + (b + c); r != "" && r[|r| - 1] == c[|c| - 1]
  {
  }

  /** Write tokens with any blanks between them, then scan: the same tokens, then the end of the input. */
  lemma SpacedRoundTrip(ts: Tokens, gaps: seq<string>)
    requires AllCanonical(ts) && Gaps(gaps)
    ensures TokensFrom(Trim(Spaced(ts, gaps)), 0) == ts
  {
    hide Spaced;
    TrimSpaced(ts, gaps);
    ScanSpaced(Spaced(ts, gaps), 0, 0, ts, gaps);
  }

  /** With single spaces. */
  lemma LexerRoundTrip(ts: Tokens)
    requires AllCanonical(ts)
    ensures TokensFrom(Trim(Render(ts)), 0) == ts
  {
    RenderIsSpaced(ts);
    SpacedRoundTrip(ts, []);
  }

  // ---- whole expressions ----

  datatype TextResult = Tree(e: Expr) | Error

  /** exprContainsStatic: looks for :: up to the first token that reads as EOF. */
  predicate ContainsStatic(ts: Tokens) {
    ts.More? && ts.head.kind != EOF && ts.head.kind != PANIC
    && (ts.head.kind == STATIC || ContainsStatic(ts.tail))
  }

  predicate HasPanic(ts: Tokens) {
    ts.More? && ts.head.kind != EOF && (ts.head.kind == PANIC || HasPanic(ts.tail))
  }

  /** parseExprWithConfig: trailing tokens are ignored, a blank expression is an error. */
  function ParseText(text: string, allowStatic: bool): TextResult {
    var ts := TokensFrom(Trim(text), 0);
    if !allowStatic && (ContainsStatic(ts) || HasPanic(ts)) then Error
    else
      var r := ParseAssign(ts);
      if r.Fail? || r.e.Nil? || Peek(r.rest).kind == PANIC then Error else Tree(r.e)
  }

  lemma {:induction false} CanonicalNoPanic(ts: Tokens)
    requires AllCanonical(ts)
    ensures !HasPanic(ts)
  {
    if ts.More? { CanonicalNoPanic(ts.tail); }
  }

  /** The scanner never delivers an empty identifier. */
  lemma {:induction false} ScannedLexed(s: string, i: nat)
    requires i <= |s|
    ensures Lexed(TokensFrom(s, i))
    decreases |s| - i
  {
    TokensStep(s, i);
    var j := WsEnd(s, i);
    if j < |s| {
      ScannedName(s, j);
      var t := ScanAt(s, j);
      if t.tok.kind != PANIC {
        ScannedLexed(s, t.next);
      }
    }
  }

  lemma ScannedName(s: string, i: nat)
    requires i < |s|
    ensures ScanAt(s, i).tok.kind == ID ==> ScanAt(s, i).tok.val != ""
  {
    if !IsIdStart(s[i]) {
      SingleKind(s[i]);
      if i + 1 < |s| { PairKind(s[i], s[i + 1]); }
    }
  }

  lemma SingleKind(c: char)
    ensures Single(c) != ID && Single(c) != PANIC
  {
  }

  lemma PairKind(c: char, d: char)
    ensures Pair2(c, d) != ID && Pair2(c, d) != PANIC
  {
  }

  /** Whatever text a tree was parsed from, its printed tokens parse back to it. */
  lemma {:induction false} TextReparse(text: string, allowStatic: bool, rest: Tokens)
    requires ParseText(text, allowStatic).Tree? && Follows(0, Peek(rest).kind)
    ensures var e := ParseText(text, allowStatic).e; Wf(e) && ParseAssign(Print(e, 0, rest)) == Ok(e, rest)
  {
    var ts := TokensFrom(Trim(text), 0);
    ScannedLexed(Trim(text), 0);
    hide Print, ParseAssign, TokensFrom;
    AssignImage(ts);
    ReparseRoundTrip(ts, rest);
  }
}
