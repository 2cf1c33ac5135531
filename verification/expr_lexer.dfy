/** The scanner of enjoy/expr_lexer.go: what it reads from a text, and the object that reads it. */
module ExprLexer {
  import opened ExprSyntax

  // ---- character classes ----

  predicate IsIdStart(c: char) {
    'a' <= c <= 'z' || 'A' <= c <= 'Z' || c == '_' || c == '$'
  }

  predicate IsDigit(c: char) {
    '0' <= c <= '9'
  }

  predicate IsIdPart(c: char) {
    IsIdStart(c) || IsDigit(c)
  }

  predicate IsWs(c: char) {
    c == ' ' || c == '\t' || c == '\n' || c == '\r'
  }

  /** The ASCII part of what strings.TrimSpace removes. */
  predicate IsTrimmed(c: char) {
    IsWs(c) || c == '\U{0B}' || c == '\U{0C}'
  }

  // ---- what is read ----

  function TrimLeft(s: string): string {
    if s != "" && IsTrimmed(s[0]) then TrimLeft(s[1..]) else s
  }

  function TrimRight(s: string): string {
    if s != "" && IsTrimmed(s[|s| - 1]) then TrimRight(s[..|s| - 1]) else s
  }

  function Trim(s: string): string {
    TrimRight(TrimLeft(s))
  }

  // Where the scanning loops stop, from position i of the text.

  function WsEnd(s: string, i: nat): (j: nat)
    requires i <= |s|
    ensures i <= j <= |s|
    decreases |s| - i
  {
    if i < |s| && IsWs(s[i]) then WsEnd(s, i + 1) else i
  }

  function IdEnd(s: string, i: nat): (j: nat)
    requires i <= |s|
    ensures i <= j <= |s|
    decreases |s| - i
  {
    if i < |s| && IsIdPart(s[i]) then IdEnd(s, i + 1) else i
  }

  /** Digits and dots, up to a ".." that belongs to a range. */
  function NumberEnd(s: string, i: nat): (j: nat)
    requires i <= |s|
    ensures i <= j <= |s|
    decreases |s| - i
  {
    if i < |s| && InNumber(s, i) then NumberEnd(s, i + 1) else i
  }

  predicate InNumber(s: string, i: nat)
    requires i < |s|
  {
    IsDigit(s[i]) || (s[i] == '.' && !(i + 1 < |s| && s[i + 1] == '.'))
  }

  predicate HasDot(s: string, i: nat, j: nat)
    requires i <= j <= |s|
    decreases j - i
  {
    i < j && (s[j - 1] == '.' || HasDot(s, i, j - 1))
  }

  /** The closing quote. A backslash skips the next character unseen, so a text ending in a
      backslash is overrun by one. */
  function StringEnd(s: string, quote: char, i: nat): (j: nat)
    requires i <= |s| + 1
    ensures i <= j <= |s| + 1
    ensures j < |s| ==> s[j] == quote
    decreases |s| + 1 - i
  {
    if i < |s| && s[i] != quote then StringEnd(s, quote, if s[i] == '\\' then i + 2 else i + 1) else i
  }

  function Word(val: string): Token {
    if val == "true" || val == "TRUE" then Token(BOOL, "true")
    else if val == "false" || val == "FALSE" then Token(BOOL, "false")
    else if val == "null" || val == "nil" then Token(NULL, "null")
    else Token(ID, val)
  }

  /** The kind of a two-character operator, or EOF. */
  function Pair2(c: char, d: char): Kind {
    if c == '+' && d == '+' then INC
    else if c == '-' && d == '-' then DEC
    else if c == '=' && d == '=' then EQ
    else if c == '!' && d == '=' then NE
    else if c == '<' && d == '=' then LE
    else if c == '>' && d == '=' then GE
    else if c == '&' && d == '&' then AND
    else if c == '|' && d == '|' then OR
    else if c == '?' && d == '.' then NULLSAFE
    else if c == '?' && d == '?' then NULLCOALESCE
    else if c == ':' && d == ':' then STATIC
    else if c == '.' && d == '.' then RANGE
    else EOF
  }

  /** The kind of a one-character operator, or EOF: a lone & or | and every unknown character. */
  function Single(c: char): Kind {
    if c == '+' then ADD else if c == '-' then SUB else if c == '*' then MUL
    else if c == '/' then DIV else if c == '%' then MOD else if c == '=' then ASSIGN
    else if c == '!' then NOT else if c == '<' then LT else if c == '>' then GT
    else if c == '?' then QUESTION else if c == ':' then COLON else if c == '.' then DOT
    else if c == '(' then LPAREN else if c == ')' then RPAREN else if c == '[' then LBRACK
    else if c == ']' then RBRACK else if c == '{' then LBRACE else if c == '}' then RBRACE
    else if c == ',' then COMMA else EOF
  }

  datatype Scanned = Scanned(tok: Token, next: nat)

  const PANIC_TOKEN := Token(PANIC, "")

  /** The token that starts at position i, which is not white space. */
  function ScanAt(s: string, i: nat): (r: Scanned)
    requires i < |s|
    ensures r.tok.kind != PANIC ==> i < r.next <= |s|
  {
    var c := s[i];
    if IsIdStart(c) then Scanned(Word(s[i..IdEnd(s, i)]), IdEnd(s, i))
    else if c == '"' || c == '\'' then
      var j := StringEnd(s, c, i + 1);
      if j > |s| then Scanned(PANIC_TOKEN, j)
      else Scanned(Token(STR, s[i + 1..j]), if j < |s| then j + 1 else j)
    else if IsDigit(c) then
      var j := NumberEnd(s, i);
      Scanned(Token(if HasDot(s, i, j) then FLOAT else INT, s[i..j]), j)
    else if i + 1 < |s| && Pair2(c, s[i + 1]) != EOF then Scanned(Token(Pair2(c, s[i + 1]), s[i..i + 2]), i + 2)
    else if c == '&' || c == '|' then Scanned(EOF_TOKEN, i + 1)
    else Scanned(Token(Single(c), s[i..i + 1]), i + 1)
  }

  /** All tokens from position i: what repeated scanning delivers before the endless EOF. */
  function TokensFrom(s: string, i: nat): Tokens
    requires i <= |s|
    decreases |s| - i
  {
    var j := WsEnd(s, i);
    if j == |s| then End
    else
      var t := ScanAt(s, j);
      if t.tok.kind == PANIC then More(PANIC_TOKEN, End) else More(t.tok, TokensFrom(s, t.next))
  }

  lemma TokensStep(s: string, i: nat)
    requires i <= |s|
    ensures var j := WsEnd(s, i);
      && (j == |s| ==> TokensFrom(s, i) == End)
      && (j < |s| ==> var t := ScanAt(s, j);
            TokensFrom(s, i) == if t.tok.kind == PANIC then More(PANIC_TOKEN, End)
                                else More(t.tok, TokensFrom(s, t.next)))
  {
  }

  // ---- when the scanner panics ----

  /** The number of backslashes directly before position k, counted from i on. */
  function Backslashes(s: string, i: nat, k: nat): nat
    requires i <= k <= |s|
  {
    if i < k && s[k - 1] == '\\' then 1 + Backslashes(s, i, k - 1) else 0
  }

  /** From i on every quote is escaped, and so is the end of the text. */
  predicate Overrun(s: string, quote: char, i: nat)
    requires i <= |s|
  {
    && Backslashes(s, i, |s|) % 2 == 1
    && forall k | i <= k < |s| && s[k] == quote :: Backslashes(s, i, k) % 2 == 1
  }

  lemma {:induction false} BackslashesFrom(s: string, i: nat, k: nat)
    requires i < k <= |s|
    ensures s[i] != '\\' ==> Backslashes(s, i, k) == Backslashes(s, i + 1, k)
    ensures s[i] == '\\' && i + 2 <= k ==> Backslashes(s, i, k) % 2 == Backslashes(s, i + 2, k) % 2
    decreases k
  {
    assert Backslashes(s, i, i) == 0 && Backslashes(s, i, i + 1) == if s[i] == '\\' then 1 else 0;
    if i + 1 < k {
      BackslashesFrom(s, i, k - 1);
      assert Backslashes(s, i, k) == if s[k - 1] == '\\' then 1 + Backslashes(s, i, k - 1) else 0;
    }
  }

  lemma {:induction false} StringOverrun(s: string, quote: char, i: nat)
    requires i <= |s| && quote != '\\'
    ensures StringEnd(s, quote, i) > |s| <==> Overrun(s, quote, i)
    decreases |s| - i
  {
    assert Backslashes(s, i, i) == 0;
    if i < |s| && s[i] != quote {
      BackslashesFrom(s, i, i + 1);
      assert Backslashes(s, i, i + 1) == if s[i] == '\\' then 1 else 0;
      var next := if s[i] == '\\' then i + 2 else i + 1;
      assert StringEnd(s, quote, i) == StringEnd(s, quote, next);
      if next <= |s| {
        StringOverrun(s, quote, next);
        OverrunStep(s, quote, i, next);
      }
    }
  }

  lemma OverrunStep(s: string, quote: char, i: nat, next: nat)
    requires i < next <= |s| && quote != '\\' && s[i] != quote && next == if s[i] == '\\' then i + 2 else i + 1
    ensures Overrun(s, quote, i) <==> Overrun(s, quote, next)
  {
    forall k | next <= k <= |s| ensures Backslashes(s, i, k) % 2 == Backslashes(s, next, k) % 2 {
      BackslashesFrom(s, i, k);
    }
    assert s[i] == '\\' ==> Backslashes(s, i, i + 1) == 1 + Backslashes(s, i, i);
  }

  /** Scanning panics exactly at a string literal that is never closed and whose text ends in a
      backslash that is not itself escaped. */
  lemma PanicsIff(s: string, i: nat)
    requires i < |s|
    ensures ScanAt(s, i).tok.kind == PANIC <==> (s[i] == '"' || s[i] == '\'') && Overrun(s, s[i], i + 1)
  {
    hide Overrun, StringEnd, NumberEnd, IdEnd;
    PanicIsNoOperator(s[i], ' ');
    if i + 1 < |s| {
      PanicIsNoOperator(s[i], s[i + 1]);
    }
    if s[i] == '"' || s[i] == '\'' {
      StringOverrun(s, s[i], i + 1);
    }
  }

  lemma PanicIsNoOperator(c: char, d: char)
    ensures Single(c) != PANIC && Pair2(c, d) != PANIC
  {
  }

  // ---- the object ----

  class Lexer {
    const input: string
    var pos: nat
    /** Set where the source would have raised the slice-bounds panic; nothing is scanned after. */
    var panicked: bool

    ghost predicate Valid()
      reads this
    {
      !panicked ==> pos <= |input|
    }

    /** The tokens still to come. */
    ghost function Remaining(): Tokens
      requires Valid()
      reads this
    {
      if panicked then End else TokensFrom(input, pos)
    }

    constructor (text: string)
      ensures Valid() && Remaining() == TokensFrom(Trim(text), 0)
    {
      input := Trim(text);
      pos := 0;
      panicked := false;
    }

    /** Delivers the next token, EOF again and again at the end. */
    method Scan() returns (tok: Token)
      requires Valid()
      modifies this
      ensures Valid()
      ensures tok == Peek(old(Remaining())) && Remaining() == Advance(old(Remaining()))
    {
      if panicked {
        return EOF_TOKEN;
      }
      TokensStep(input, pos);
      SkipWs();
      if pos >= |input| {
        return EOF_TOKEN;
      }
      hide TokensFrom, WsEnd;
      var ch := input[pos];
      if IsIdStart(ch) {
        tok := ScanId();
      } else if ch == '"' || ch == '\'' {
        tok := ScanStr();
      } else if IsDigit(ch) {
        tok := ScanNumber();
      } else if pos + 1 < |input| && Pair2(ch, input[pos + 1]) != EOF {
        tok := Token(Pair2(ch, input[pos + 1]), input[pos..pos + 2]);
        pos := pos + 2;
      } else {
        tok := if ch == '&' || ch == '|' then EOF_TOKEN else Token(Single(ch), input[pos..pos + 1]);
        pos := pos + 1;
      }
    }

    method SkipWs()
      requires Valid() && !panicked
      modifies this`pos
      ensures Valid() && pos == WsEnd(input, old(pos))
    {
      while pos < |input| && IsWs(input[pos])
        invariant old(pos) <= pos <= |input| && WsEnd(input, pos) == WsEnd(input, old(pos))
      {
        pos := pos + 1;
      }
    }

    method ScanId() returns (tok: Token)
      requires Valid() && !panicked && pos < |input| && IsIdStart(input[pos])
      modifies this`pos
      ensures Valid() && Scanned(tok, pos) == ScanAt(input, old(pos))
    {
      var start := pos;
      while pos < |input| && IsIdPart(input[pos])
        invariant start <= pos <= |input| && IdEnd(input, pos) == IdEnd(input, start)
      {
        pos := pos + 1;
      }
      tok := Word(input[start..pos]);
    }

    method ScanStr() returns (tok: Token)
      requires Valid() && !panicked && pos < |input| && (input[pos] == '"' || input[pos] == '\'')
      modifies this
      ensures Valid() && panicked == (tok.kind == PANIC) && Scanned(tok, pos) == ScanAt(input, old(pos))
    {
      var quote := input[pos];
      pos := pos + 1;
      var start := pos;
      while pos < |input| && input[pos] != quote
        invariant !panicked && start <= pos <= |input| + 1
        invariant StringEnd(input, quote, pos) == StringEnd(input, quote, start)
        decreases |input| + 1 - pos
      {
        if input[pos] == '\\' {
          pos := pos + 1;
        }
        pos := pos + 1;
      }
      if pos > |input| {
        panicked := true;
        return PANIC_TOKEN;
      }
      tok := Token(STR, input[start..pos]);
      if pos < |input| {
        pos := pos + 1;
      }
    }

    method ScanNumber() returns (tok: Token)
      requires Valid() && !panicked && pos < |input| && IsDigit(input[pos])
      modifies this`pos
      ensures Valid() && Scanned(tok, pos) == ScanAt(input, old(pos))
    {
      var start := pos;
      var isFloat := false;
      while pos < |input| && (IsDigit(input[pos]) || input[pos] == '.')
        invariant start <= pos <= |input| && NumberEnd(input, pos) == NumberEnd(input, start)
        invariant isFloat == HasDot(input, start, pos)
      {
        if input[pos] == '.' {
          if pos + 1 < |input| && input[pos + 1] == '.' {
            break;
          }
          isFloat := true;
        }
        pos := pos + 1;
      }
      assert NumberEnd(input, pos) == pos;
      tok := Token(if isFloat then FLOAT else INT, input[start..pos]);
    }
  }
}
