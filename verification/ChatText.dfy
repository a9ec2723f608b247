/**
 The C text functions that the chat application builds on: bounded copies,
 tokens, joining, decimal printing and parsing.
 */
module ChatText {
  /** A copy of `s` bounded to `n` characters. */
  function Cut(s: string, n: nat): string {
    if |s| <= n then s else s[..n]
  }

  // ---- Tokens ----

  /** The length of the first word of `s`. */
  function WordLength(s: string, d: set<char>): (n: nat)
    ensures n <= |s| && (n < |s| ==> s[n] in d)
    ensures forall i :: 0 <= i < n ==> s[i] !in d
  {
    if s == [] || s[0] in d then 0 else 1 + WordLength(s[1..], d)
  }

  /** The words of `s` between delimiters, as repeated `strtok` yields them. */
  function Tokens(s: string, d: set<char>): seq<string>
    decreases |s|
  {
    if s == [] then []
    else if s[0] in d then Tokens(s[1..], d)
    else var n := WordLength(s, d); [s[..n]] + Tokens(s[n..], d)
  }

  predicate Word(w: string, d: set<char>) {
    w != [] && forall i :: 0 <= i < |w| ==> w[i] !in d
  }

  predicate Words(ws: seq<string>, d: set<char>) {
    forall i :: 0 <= i < |ws| ==> Word(ws[i], d)
  }

  /** The words with single spaces between them. */
  function Join(ws: seq<string>): string {
    if ws == [] then [] else if |ws| == 1 then ws[0] else ws[0] + " " + Join(ws[1..])
  }

  lemma {:induction false} WordLengthIs(w: string, rest: string, d: set<char>)
    requires forall i :: 0 <= i < |w| ==> w[i] !in d
    requires rest == [] || rest[0] in d
    ensures WordLength(w + rest, d) == |w|
  {
    if w == [] {
      assert w + rest == rest;
    } else {
      assert (w + rest)[1..] == w[1..] + rest;
      WordLengthIs(w[1..], rest, d);
    }
  }

  lemma {:induction false} TokensWord(w: string, rest: string, d: set<char>)
    requires Word(w, d) && (rest == [] || rest[0] in d)
    ensures Tokens(w + rest, d) == [w] + Tokens(rest, d)
  {
    WordLengthIs(w, rest, d);
    assert (w + rest)[..|w|] == w && (w + rest)[|w|..] == rest;
  }

  lemma {:induction false} TokensNext(w: string, c: char, rest: string, d: set<char>)
    requires Word(w, d) && c in d
    ensures Tokens(w + [c] + rest, d) == [w] + Tokens(rest, d)
  {
    assert w + [c] + rest == w + ([c] + rest);
    TokensWord(w, [c] + rest, d);
    assert ([c] + rest)[1..] == rest;
  }

  lemma {:induction false} TokensSpaced(w: string, rest: string, d: set<char>)
    requires Word(w, d) && ' ' in d
    ensures Tokens(w + " " + rest, d) == [w] + Tokens(rest, d)
  {
    TokensNext(w, ' ', rest, d);
  }

  lemma {:induction false} TokensSpacedTwice(w: string, v: string, rest: string, d: set<char>)
    requires Word(w, d) && Word(v, d) && ' ' in d
    ensures Tokens(w + " " + (v + " " + rest), d) == [w, v] + Tokens(rest, d)
  {
    var after := v + " " + rest;
    TokensSpaced(v, rest, d);
    TokensSpaced(w, after, d);
    PairInFront(w, v, Tokens(rest, d));
  }

  lemma PairInFront(w: string, v: string, rest: seq<string>)
    ensures [w] + ([v] + rest) == [w, v] + rest
  {
  }

  lemma {:induction false} TokensLast(w: string, d: set<char>)
    requires Word(w, d)
    ensures Tokens(w, d) == [w]
  {
    TokensWord(w, [], d);
    assert w + [] == w;
  }

  /**
   A delimiter anywhere in a text parts its tokens, however many there are in a
   row.  With `TokensLast` and `Tokens("") == []` this determines the tokens of
   every text.
   */
  lemma {:induction false} TokensPart(a: string, c: char, b: string, d: set<char>)
    requires c in d
    ensures Tokens(a + [c] + b, d) == Tokens(a, d) + Tokens(b, d)
    decreases |a|
  {
    if a == [] {
      assert a + [c] + b == [c] + b && ([c] + b)[1..] == b;
    } else if a[0] in d {
      assert (a + [c] + b)[1..] == a[1..] + [c] + b;
      TokensPart(a[1..], c, b, d);
    } else {
      var n := WordLength(a, d);
      assert a == a[..n] + a[n..];
      assert a + [c] + b == a[..n] + (a[n..] + [c] + b);
      TokensWord(a[..n], a[n..], d);
      TokensWord(a[..n], a[n..] + [c] + b, d);
      TokensPart(a[n..], c, b, d);
    }
  }

  /** Tokens are words, made of the characters of the text. */
  lemma {:induction false} TokensAreWords(s: string, d: set<char>)
    ensures Words(Tokens(s, d), d)
    ensures forall i, j :: 0 <= i < |Tokens(s, d)| && 0 <= j < |Tokens(s, d)[i]| ==> Tokens(s, d)[i][j] in s
    decreases |s|
  {
    if s != [] {
      if s[0] in d {
        TokensAreWords(s[1..], d);
      } else {
        TokensAreWords(s[WordLength(s, d)..], d);
      }
    }
  }

  /** Splitting a joined list of words gives the words back. */
  lemma {:induction false} TokensOfJoin(ws: seq<string>, d: set<char>)
    requires Words(ws, d) && ' ' in d
    ensures Tokens(Join(ws), d) == ws
  {
    if |ws| == 1 {
      TokensLast(ws[0], d);
    } else if |ws| > 1 {
      TokensOfJoin(ws[1..], d);
      TokensSpaced(ws[0], Join(ws[1..]), d);
    }
  }

  /** Normalising never lengthens a text. */
  lemma {:induction false} JoinedTokensLength(s: string, d: set<char>)
    ensures |Join(Tokens(s, d))| <= |s|
    decreases |s|
  {
    if s != [] {
      if s[0] in d {
        JoinedTokensLength(s[1..], d);
      } else {
        var n := WordLength(s, d);
        var rest := Tokens(s[n..], d);
        assert ([s[..n]] + rest)[1..] == rest;
        if n < |s| {
          assert s[n..][1..] == s[n + 1..];
          assert rest == Tokens(s[n + 1..], d);
          JoinedTokensLength(s[n + 1..], d);
        }
      }
    }
  }

  // ---- Numbers ----

  function Digit(n: nat): char
    requires n < 10
  {
    ('0' as int + n) as char
  }

  predicate IsDigit(c: char) {
    '0' <= c <= '9'
  }

  function DigitValue(c: char): nat
    requires IsDigit(c)
  {
    c as int - '0' as int
  }

  /** What `%u` prints. */
  function Decimal(n: nat): (s: string)
    ensures s != [] && forall i :: 0 <= i < |s| ==> IsDigit(s[i])
  {
    if n < 10 then [Digit(n)] else Decimal(n / 10) + [Digit(n % 10)]
  }

  function DigitsValue(s: string): nat
    requires forall i :: 0 <= i < |s| ==> IsDigit(s[i])
  {
    if s == [] then 0 else DigitsValue(s[..|s| - 1]) * 10 + DigitValue(s[|s| - 1])
  }

  const SPACES: set<char> := {' ', '\t', '\n', 11 as char, 12 as char, '\r'}

  function DigitsLength(s: string): (n: nat)
    ensures n <= |s| && forall i :: 0 <= i < n ==> IsDigit(s[i])
  {
    if s == [] || !IsDigit(s[0]) then 0 else 1 + DigitsLength(s[1..])
  }

  /** `atoi`: leading white space, an optional sign, then digits up to the first other character. */
  function Atoi(s: string): int {
    if s == [] then 0
    else if s[0] in SPACES then Atoi(s[1..])
    else if s[0] == '-' then 0 - DigitsValue(s[1..][..DigitsLength(s[1..])])
    else if s[0] == '+' then DigitsValue(s[1..][..DigitsLength(s[1..])])
    else DigitsValue(s[..DigitsLength(s)])
  }

  lemma {:induction false} DecimalValue(n: nat)
    ensures DigitsValue(Decimal(n)) == n
  {
    if n >= 10 {
      DecimalValue(n / 10);
      assert Decimal(n)[..|Decimal(n)| - 1] == Decimal(n / 10);
    } else {
      assert [Digit(n)][..0] == [];
    }
  }

  lemma {:induction false} AllDigits(s: string)
    requires forall i :: 0 <= i < |s| ==> IsDigit(s[i])
    ensures DigitsLength(s) == |s|
  {
    if s != [] {
      AllDigits(s[1..]);
    }
  }

  /** Parsing what was printed is the identity. */
  lemma {:induction false} AtoiOfDecimal(n: nat)
    ensures Atoi(Decimal(n)) == n
  {
    var s := Decimal(n);
    AllDigits(s);
    DecimalValue(n);
    assert s[..|s|] == s;
    assert IsDigit(s[0]);
  }

  lemma {:induction false} DigitsStop(s: string, rest: string)
    requires forall i :: 0 <= i < |s| ==> IsDigit(s[i])
    requires rest == [] || !IsDigit(rest[0])
    ensures DigitsLength(s + rest) == |s|
  {
    if s == [] {
      assert s + rest == rest;
    } else {
      assert (s + rest)[1..] == s[1..] + rest;
      DigitsStop(s[1..], rest);
    }
  }

  lemma {:induction false} NumberFront(n: nat, rest: string)
    requires rest == [] || !IsDigit(rest[0])
    ensures var number := Decimal(n) + rest;
      && number != [] && IsDigit(number[0])
      && DigitsLength(number) == |Decimal(n)| && number[..|Decimal(n)|] == Decimal(n)
      && DigitsValue(Decimal(n)) == n
  {
    DigitsStop(Decimal(n), rest);
    DecimalValue(n);
  }

  lemma {:induction false} AtoiAfterSign(sign: char, number: string)
    requires sign == '-' || sign == '+'
    ensures var value := DigitsValue(number[..DigitsLength(number)]);
      Atoi([sign] + number) == if sign == '-' then 0 - value else value
  {
    assert ([sign] + number)[1..] == number;
  }

  lemma {:induction false} AtoiOfSigned(sign: string, n: nat, rest: string)
    requires (sign == "" || sign == "-" || sign == "+") && (rest == [] || !IsDigit(rest[0]))
    ensures Atoi(sign + (Decimal(n) + rest)) == if sign == "-" then 0 - n else n
  {
    var number := Decimal(n) + rest;
    NumberFront(n, rest);
    if sign == "" {
      assert sign + number == number;
    } else {
      AtoiAfterSign(sign[0], number);
      assert sign + number == [sign[0]] + number;
    }
  }

  /** Leading white space, a sign, and what follows the digits: `atoi` reads the signed number. */
  lemma {:induction false} AtoiOfNumber(blanks: string, sign: string, n: nat, rest: string)
    requires (forall i :: 0 <= i < |blanks| ==> blanks[i] in SPACES) && (sign == "" || sign == "-" || sign == "+")
    requires rest == [] || !IsDigit(rest[0])
    ensures Atoi(blanks + (sign + (Decimal(n) + rest))) == if sign == "-" then 0 - n else n
  {
    var text := sign + (Decimal(n) + rest);
    if blanks == [] {
      assert blanks + text == text;
      AtoiOfSigned(sign, n, rest);
    } else {
      assert (blanks + text)[1..] == blanks[1..] + text && (blanks + text)[0] == blanks[0];
      AtoiOfNumber(blanks[1..], sign, n, rest);
    }
  }

  // ---- The strtok loop ----

  /** The word at `start` of a text is the first token from there on. */
  lemma {:induction false} TokensAt(s: string, start: nat, end: nat, d: set<char>)
    requires start < end <= |s| && (end < |s| ==> s[end] in d)
    requires forall i :: start <= i < end ==> s[i] !in d
    ensures Tokens(s[start..], d) == [s[start..end]] + Tokens(s[end..], d)
  {
    assert s[start..] == s[start..end] + s[end..];
    TokensWord(s[start..end], s[end..], d);
  }

  lemma {:induction false} TokensSkip(s: string, start: nat, d: set<char>)
    requires start < |s| && s[start] in d
    ensures Tokens(s[start..], d) == Tokens(s[start + 1..], d)
  {
    assert s[start..][1..] == s[start + 1..];
  }

  /** One `strtok` call on the text from `pos` on. */
  method NextToken(s: string, pos: nat, d: set<char>) returns (found: bool, word: string, next: nat)
    requires pos <= |s|
    ensures pos <= next <= |s|
    ensures found <==> Tokens(s[pos..], d) != []
    ensures found ==> pos < next && [word] + Tokens(s[next..], d) == Tokens(s[pos..], d)
  {
    var start := pos;
    while start < |s| && s[start] in d
      invariant pos <= start <= |s|
      invariant Tokens(s[start..], d) == Tokens(s[pos..], d)
    {
      TokensSkip(s, start, d);
      start := start + 1;
    }
    if start == |s| {
      return false, "", start;
    }
    var end := start;
    while end < |s| && s[end] !in d
      invariant start <= end <= |s|
      invariant forall i :: start <= i < end ==> s[i] !in d
    {
      end := end + 1;
    }
    TokensAt(s, start, end, d);
    return true, s[start..end], end;
  }
}
