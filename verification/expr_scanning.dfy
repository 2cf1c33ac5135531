/** How far each token reaches: names, numerals, literals and operators of the scanner, told from the text. */
module ExprScanning {
  import opened ExprSyntax
  import opened ExprLexer

  /** A letter of a name. */
  predicate Letter(c: char) {
    'a' <= c <= 'z' || 'A' <= c <= 'Z' || c == '_' || c == '$'
  }

  predicate Digit(c: char) {
    '0' <= c <= '9'
  }

  /** A dot that is not the first of two. */
  predicate LoneDot(s: string, k: nat) {
    k < |s| && s[k] == '.' && (k + 1 < |s| ==> s[k + 1] != '.')
  }

  lemma {:induction false} IdEndIs(s: string, i: nat)
    requires i <= |s|
    ensures var j := IdEnd(s, i);
      && (forall k | i <= k < j :: Letter(s[k]) || Digit(s[k]))
      && (j < |s| ==> !Letter(s[j]) && !Digit(s[j]))
    decreases |s| - i
  {
    if i < |s| && IsIdPart(s[i]) {
      IdEndIs(s, i + 1);
    }
  }

  lemma {:induction false} NumberEndIs(s: string, i: nat)
    requires i <= |s|
    ensures var j := NumberEnd(s, i);
      && (forall k | i <= k < j :: Digit(s[k]) || LoneDot(s, k))
      && (j < |s| ==> !Digit(s[j]) && !LoneDot(s, j))
    decreases |s| - i
  {
    if i < |s| && InNumber(s, i) {
      NumberEndIs(s, i + 1);
    }
  }

  lemma {:induction false} HasDotIs(s: string, i: nat, j: nat)
    requires i <= j <= |s|
    ensures HasDot(s, i, j) <==> '.' in s[i..j]
    decreases j - i
  {
    if i < j {
      HasDotIs(s, i, j - 1);
      assert s[i..j] == s[i..j - 1] + [s[j - 1]];
    }
  }

  /** A quote that no backslash escapes: an even number of them stands in front of it. */
  predicate Closes(s: string, quote: char, i: nat, k: nat) {
    i <= k < |s| && s[k] == quote && Backslashes(s, i, k) % 2 == 0
  }

  lemma {:induction false} StringEndIs(s: string, quote: char, i: nat)
    requires i <= |s| && quote != '\\'
    ensures var j := StringEnd(s, quote, i);
      && (j < |s| ==> Closes(s, quote, i, j))
      && (forall k | i <= k < j :: !Closes(s, quote, i, k))
    decreases |s| - i
  {
    assert Backslashes(s, i, i) == 0;
    if i < |s| && s[i] != quote {
      var next := if s[i] == '\\' then i + 2 else i + 1;
      if next <= |s| {
        StringEndIs(s, quote, next);
        forall k | next <= k < |s| ensures Closes(s, quote, i, k) <==> Closes(s, quote, next, k) {
          BackslashesFrom(s, i, k);
        }
        assert s[i] == '\\' ==> Backslashes(s, i, i + 1) == 1 + Backslashes(s, i, i);
      }
    }
  }

  /** A name or word is a run of letters and digits that goes as far as it can. */
  lemma NameTells(s: string, i: nat)
    requires i < |s| && Letter(s[i])
    ensures var t := ScanAt(s, i);
      && i < t.next <= |s| && (forall k | i <= k < t.next :: Letter(s[k]) || Digit(s[k]))
      && (t.next < |s| ==> !Letter(s[t.next]) && !Digit(s[t.next]))
      && (t.tok.kind == ID ==> t.tok.val == s[i..t.next])
      && (t.tok.kind != ID <==> s[i..t.next] in ["true", "TRUE", "false", "FALSE", "null", "nil"])
  {
    IdEndIs(s, i);
  }

  /** A numeral is a run of digits and lone dots that goes as far as it can, and a float if it has a dot. */
  lemma NumeralTells(s: string, i: nat)
    requires i < |s| && Digit(s[i])
    ensures var t := ScanAt(s, i);
      && i < t.next <= |s| && (forall k | i <= k < t.next :: Digit(s[k]) || LoneDot(s, k))
      && (t.next < |s| ==> !Digit(s[t.next]) && !LoneDot(s, t.next))
      && t.tok == Token(if '.' in s[i..t.next] then FLOAT else INT, s[i..t.next])
  {
    NumberEndIs(s, i);
    HasDotIs(s, i, NumberEnd(s, i));
  }

  /** The quote at i is closed at k. */
  predicate Closed(s: string, i: nat, k: nat) {
    i < k < |s| && Closes(s, s[i], i + 1, k)
  }

  /** A literal is what stands between its quote and the next one that is not escaped, as it is written. */
  lemma LiteralTells(s: string, i: nat, k: nat)
    requires i < |s| && (s[i] == '"' || s[i] == '\'') && Closed(s, i, k) && forall j | i < j < k :: !Closed(s, i, j)
    ensures ScanAt(s, i) == Scanned(Token(STR, s[i + 1..k]), k + 1)
  {
    StringEndIs(s, s[i], i + 1);
    var j := StringEnd(s, s[i], i + 1);
    assert j < k ==> Closed(s, i, j);
  }

  /** A literal that is never closed goes to the end of the text. */
  lemma OpenLiteralTells(s: string, i: nat)
    requires i < |s| && (s[i] == '"' || s[i] == '\'') && forall j | i < j < |s| :: !Closed(s, i, j)
    ensures ScanAt(s, i).tok.kind == PANIC || ScanAt(s, i) == Scanned(Token(STR, s[i + 1..]), |s|)
  {
    StringEndIs(s, s[i], i + 1);
    var j := StringEnd(s, s[i], i + 1);
    assert j < |s| ==> Closed(s, i, j);
    assert s[i + 1..|s|] == s[i + 1..];
  }

  /** ++ -- == && || ?? :: .. and != <= >= and ?. */
  predicate Pair(c: char, d: char) {
    (d == c && c in "+-=&|?:.") || (d == '=' && c in "!<>") || (d == '.' && c == '?')
  }

  /** Anything else is an operator, of two characters wherever two make one; what is none ends the scan
      of an expression. */
  lemma OperatorTells(s: string, i: nat)
    requires i < |s| && !Letter(s[i]) && !Digit(s[i]) && s[i] != '"' && s[i] != '\''
    ensures var t := ScanAt(s, i);
      if i + 1 < |s| && Pair(s[i], s[i + 1]) then
        t.next == i + 2 && t.tok.kind != EOF && t.tok.val == s[i..i + 2]
      else
        && t.next == i + 1 && (t.tok.kind != EOF ==> t.tok.val == [s[i]])
        && (t.tok.kind != EOF <==> s[i] in "+-*/%=!<>?:.()[]{},")
  {
    if i + 1 < |s| {
      PairIs(s[i], s[i + 1]);
      assert s[i..i + 2] == [s[i], s[i + 1]];
    }
    assert s[i..i + 1] == [s[i]];
    SingleIs(s[i]);
  }

  lemma PairIs(c: char, d: char)
    ensures Pair2(c, d) != EOF <==> Pair(c, d)
  {
  }

  lemma SingleIs(c: char)
    ensures Single(c) != EOF <==> c in "+-*/%=!<>?:.()[]{},"
  {
  }
}
