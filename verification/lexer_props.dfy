/** Properties of the lexer: what each kind of lexeme yields, that whitespace
    never yields anything, that lexing distributes over concatenation at a safe
    boundary, and that lexing the text of a token sequence gives it back. */
module LexerProps {
  import opened Wrappers
  import Decimal
  import opened Lexer

  lemma {:induction false} SpanAppend(s: string, u: string, p: char -> bool)
    ensures Span(s + u, p) == if Span(s, p) < |s| then Span(s, p) else |s| + Span(u, p)
    decreases |s|
  {
    if |s| > 0 {
      assert (s + u)[0] == s[0];
      if p(s[0]) {
        assert (s + u)[1..] == s[1..] + u;
        SpanAppend(s[1..], u, p);
      }
    } else {
      assert s + u == u;
    }
  }

  lemma SpanAll(s: string, p: char -> bool)
    requires forall i :: 0 <= i < |s| ==> p(s[i])
    ensures Span(s, p) == |s|
  {
  }

  lemma SkipWhitespaceAppend(ws: string, s: string)
    requires forall i :: 0 <= i < |ws| ==> IsWhitespace(ws[i])
    ensures SkipWhitespace(ws + s) == SkipWhitespace(s)
  {
    SpanAll(ws, IsWhitespace);
    SpanAppend(ws, s, IsWhitespace);
    var k := Span(s, IsWhitespace);
    assert (ws + s)[|ws| + k..] == s[k..];
  }

  lemma SkipNothing(s: string)
    requires |s| > 0 && !IsWhitespace(s[0])
    ensures SkipWhitespace(s) == s
  {
  }

  /** Leading whitespace changes nothing about the next item or the rest. */
  lemma ScanSkipsWhitespace(ws: string, s: string)
    requires forall i :: 0 <= i < |ws| ==> IsWhitespace(ws[i])
    ensures Scan(ws + s) == Scan(s)
  {
    SkipWhitespaceAppend(ws, s);
  }

  /** Whitespace never produces a token. */
  lemma TokenizeSkipsWhitespace(ws: string, s: string)
    requires forall i :: 0 <= i < |ws| ==> IsWhitespace(ws[i])
    ensures Tokenize(ws + s) == Tokenize(s)
  {
    ScanSkipsWhitespace(ws, s);
  }

  /** Input made only of whitespace yields no item at all. */
  lemma TokenizeWhitespaceOnly(ws: string)
    requires forall i :: 0 <= i < |ws| ==> IsWhitespace(ws[i])
    ensures Tokenize(ws) == []
  {
  }

  /** Once the lexer has returned `None` it keeps returning `None`. */
  lemma ScanFused(s: string)
    requires Scan(s).0.None?
    ensures Scan(Scan(s).1) == (None, [])
  {
  }

  /** A maximal run of digits is exactly one item: its decimal value when that
      fits in an i32, otherwise an integer-parse failure. */
  lemma ScanInteger(digits: string, rest: string)
    requires |digits| > 0 && Decimal.AllDigits(digits)
    requires |rest| == 0 || !IsDigit(rest[0])
    ensures Scan(digits + rest) == (Some(IntegerItem(digits)), rest)
    ensures Decimal.Value(digits) <= I32Max ==> IntegerItem(digits) == Ok(Integer(Decimal.Value(digits)))
    ensures Decimal.Value(digits) > I32Max ==> IntegerItem(digits) == Err(IntegerParse(digits))
  {
    var s := digits + rest;
    assert s[0] == digits[0];
    SkipNothing(s);
    SpanAll(digits, IsDigit);
    SpanAppend(digits, rest, IsDigit);
    assert s[..|digits|] == digits;
    assert s[|digits|..] == rest;
  }

  /** A maximal run of letters is exactly one item: `Word` if it is one of the
      ten valid words, `InvalidWord` otherwise. */
  lemma ScanWord(w: string, rest: string)
    requires |w| > 0 && forall i :: 0 <= i < |w| ==> IsAlphabetic(w[i])
    requires |rest| == 0 || !IsAlphabetic(rest[0])
    ensures Scan(w + rest) == (Some(WordItem(w)), rest)
    ensures w in ValidWords ==> WordItem(w) == Ok(Word(w))
    ensures w !in ValidWords ==> WordItem(w) == Err(InvalidWord(w))
  {
    var s := w + rest;
    assert s[0] == w[0];
    SkipNothing(s);
    SpanAll(w, IsAlphabetic);
    SpanAppend(w, rest, IsAlphabetic);
    assert s[..|w|] == w;
    assert s[|w|..] == rest;
  }

  /** Any other character is exactly one item by itself. */
  lemma ScanSymbol(c: char, rest: string)
    requires !IsWhitespace(c) && !IsDigit(c) && !IsAlphabetic(c)
    ensures Scan([c] + rest) == (Some(SymbolItem(c)), rest)
  {
    var s := [c] + rest;
    SkipNothing(s);
    assert s[1..] == rest;
  }

  /** The symbol table: each of the eleven symbol characters is one token
      (with the multiplication and division signs as synonyms of `*` and `/`),
      and every other character is `InvalidCharacter`. */
  lemma SymbolTable(c: char)
    ensures c == '+' <==> SymbolItem(c) == Ok(Plus)
    ensures c == '-' <==> SymbolItem(c) == Ok(Minus)
    ensures (c == '*' || c == '\U{00D7}') <==> SymbolItem(c) == Ok(Times)
    ensures (c == '/' || c == '\U{00F7}') <==> SymbolItem(c) == Ok(Divide)
    ensures c == '%' <==> SymbolItem(c) == Ok(Percent)
    ensures c == '(' <==> SymbolItem(c) == Ok(Open('('))
    ensures c == '[' <==> SymbolItem(c) == Ok(Open('['))
    ensures c == ')' <==> SymbolItem(c) == Ok(Close(')'))
    ensures c == ']' <==> SymbolItem(c) == Ok(Close(']'))
    ensures SymbolItem(c).Err? <==> c !in "+-*/%()[]\U{00D7}\U{00F7}"
    ensures SymbolItem(c).Err? ==> SymbolItem(c) == Err(InvalidCharacter(c))
  {
  }

  /** Two texts can be lexed separately when their meeting point does not join
      two digits or two letters into one maximal run. */
  predicate Separable(a: string, b: string) {
    || |a| == 0
    || |b| == 0
    || (&& !(IsDigit(a[|a| - 1]) && IsDigit(b[0]))
        && !(IsAlphabetic(a[|a| - 1]) && IsAlphabetic(b[0])))
  }

  /** A maximal run of `t` that does not reach into `b` is the same run of `t + b`. */
  lemma {:induction false} RunAppend(t: string, b: string, p: char -> bool)
    requires Span(t, p) < |t| || |b| == 0 || !p(b[0])
    ensures Span(t + b, p) == Span(t, p)
    ensures (t + b)[..Span(t, p)] == t[..Span(t, p)] && (t + b)[Span(t, p)..] == t[Span(t, p)..] + b
  {
    SpanAppend(t, b, p);
  }

  lemma LexemeAppend(t: string, b: string)
    requires |t| > 0 && !IsWhitespace(t[0])
    requires Separable(t, b)
    ensures Lexeme(t + b) == (Lexeme(t).0, Lexeme(t).1 + b)
  {
    assert (t + b)[0] == t[0];
    if IsDigit(t[0]) {
      assert Span(t, IsDigit) == |t| ==> IsDigit(t[|t| - 1]);
      RunAppend(t, b, IsDigit);
    } else if IsAlphabetic(t[0]) {
      assert Span(t, IsAlphabetic) == |t| ==> IsAlphabetic(t[|t| - 1]);
      RunAppend(t, b, IsAlphabetic);
    } else {
      assert (t + b)[1..] == t[1..] + b;
    }
  }

  /** Past the leading whitespace of a text with an item, `b` is still appended. */
  lemma SkipAppend(a: string, b: string)
    requires Scan(a).0.Some?
    ensures SkipWhitespace(a + b) == SkipWhitespace(a) + b
    ensures var t := SkipWhitespace(a); |t| > 0 && !IsWhitespace(t[0]) && t[|t| - 1] == a[|a| - 1]
  {
    assert |SkipWhitespace(a)| > 0;
    SkipToItemAppend(a, b);
  }

  lemma SkipToItemAppend(a: string, b: string)
    requires |SkipWhitespace(a)| > 0
    ensures SkipWhitespace(a + b) == SkipWhitespace(a) + b
    ensures var t := SkipWhitespace(a); !IsWhitespace(t[0]) && t[|t| - 1] == a[|a| - 1]
  {
    var w := Span(a, IsWhitespace);
    SpanAppend(a, b, IsWhitespace);
    assert (a + b)[w..] == a[w..] + b;
  }

  lemma ScanAppend(a: string, b: string)
    requires Scan(a).0.Some?
    requires Separable(a, b)
    ensures Scan(a + b) == (Scan(a).0, Scan(a).1 + b)
  {
    SkipAppend(a, b);
    var t := SkipWhitespace(a);
    assert Separable(t, b);
    LexemeAppend(t, b);
    ScanIsLexeme(a);
    ScanIsLexeme(a + b);
  }

  lemma ScanIsLexeme(s: string)
    requires |SkipWhitespace(s)| > 0
    ensures !IsWhitespace(SkipWhitespace(s)[0])
    ensures Scan(s) == (Some(Lexeme(SkipWhitespace(s)).0), Lexeme(SkipWhitespace(s)).1)
  {
  }

  /** One turn of the lexer loop. */
  lemma TokenizeStep(s: string, x: LexItem, rest: string)
    requires Scan(s) == (Some(x), rest)
    ensures Tokenize(s) == [x] + Tokenize(rest)
  {
  }

  lemma ConsAppend(x: LexItem, A: seq<LexItem>, B: seq<LexItem>, AB: seq<LexItem>, TA: seq<LexItem>, TAB: seq<LexItem>)
    requires AB == A + B && TA == [x] + A && TAB == [x] + AB
    ensures TAB == TA + B
  {
  }

  /** Lexing distributes over concatenation at a separable boundary. */
  lemma {:induction false} TokenizeAppend(a: string, b: string)
    requires Separable(a, b)
    ensures Tokenize(a + b) == Tokenize(a) + Tokenize(b)
    decreases |a|
  {
    if Scan(a).0.None? {
      assert Tokenize(a) == [];
      TokenizeSkipsWhitespace(a, b);
    } else {
      var x, rest := Scan(a).0.value, Scan(a).1;
      assert Separable(rest, b) by {
        if |rest| > 0 && |b| > 0 {
          assert rest[|rest| - 1] == a[|a| - 1];
        }
      }
      assert Tokenize(a) == [x] + Tokenize(rest) by {
        TokenizeStep(a, x, rest);
      }
      assert Tokenize(a + b) == [x] + Tokenize(rest + b) by {
        ScanAppend(a, b);
        TokenizeStep(a + b, x, rest + b);
      }
      TokenizeAppend(rest, b);
      ConsAppend(x, Tokenize(rest), Tokenize(b), Tokenize(rest + b), Tokenize(a), Tokenize(a + b));
    }
  }

  lemma LexemeWellFormed(t: string)
    requires |t| > 0 && !IsWhitespace(t[0])
    ensures WellFormedItem(Lexeme(t).0)
  {
  }

  /** The lexer only ever yields one of the valid words. */
  lemma {:induction false} TokenizeWellFormed(s: string)
    ensures forall i :: 0 <= i < |Tokenize(s)| ==> WellFormedItem(Tokenize(s)[i])
    decreases |s|
  {
    var (it, rest) := Scan(s);
    if it.Some? {
      ScanIsLexeme(s);
      LexemeWellFormed(SkipWhitespace(s));
      TokenizeWellFormed(rest);
      TokenizeStep(s, it.value, rest);
      ConsWellFormed(it.value, Tokenize(rest), Tokenize(s));
    }
  }

  lemma ConsWellFormed(x: LexItem, tail: seq<LexItem>, all: seq<LexItem>)
    requires all == [x] + tail && WellFormedItem(x)
    requires forall i :: 0 <= i < |tail| ==> WellFormedItem(tail[i])
    ensures forall i :: 0 <= i < |all| ==> WellFormedItem(all[i])
  {
    forall i | 0 <= i < |all|
      ensures WellFormedItem(all[i])
    {
      if i > 0 {
        assert all[i] == tail[i - 1];
      }
    }
  }

  /** The canonical text of a token: how it would be written back. */
  function TokenText(t: Token): string {
    match t
    case Integer(n) => Decimal.FromNat(n)
    case Word(w) => w
    case Plus => "+"
    case Minus => "-"
    case Times => "*"
    case Divide => "/"
    case Percent => "%"
    case Open(c) => [c]
    case Close(c) => [c]
  }

  /** The texts of the tokens, each followed by one space. */
  function Unlex(ts: seq<Token>): string {
    if |ts| == 0 then "" else TokenText(ts[0]) + " " + Unlex(ts[1..])
  }

  /** A token the lexer can produce: any token whose word, if it is one, is valid. */
  predicate Lexable(t: Token) {
    t.Word? ==> t.w in ValidWords
  }

  function Oks(ts: seq<Token>): (items: seq<LexItem>)
    ensures |items| == |ts|
    ensures forall i :: 0 <= i < |ts| ==> items[i] == Ok(ts[i])
  {
    if |ts| == 0 then [] else [Ok(ts[0])] + Oks(ts[1..])
  }

  lemma OksAppend(a: seq<Token>, b: seq<Token>)
    ensures Oks(a + b) == Oks(a) + Oks(b)
  {
    assert Oks(a + b) == Oks(a) + Oks(b);
  }

  lemma ValidWordLetters(w: string)
    requires w in ValidWords
    ensures |w| > 0 && forall i :: 0 <= i < |w| ==> IsAlphabetic(w[i])
  {
  }

  /** The item a single lexable token's text yields, followed by a space. */
  lemma ScanTokenText(t: Token, rest: string)
    requires Lexable(t)
    ensures Scan(TokenText(t) + " " + rest) == (Some(Ok(t)), " " + rest)
  {
    var s := TokenText(t);
    assert s + " " + rest == s + (" " + rest);
    if t.Integer? {
      ScanIntegerText(t.n, " " + rest);
    } else if t.Word? {
      ValidWordLetters(t.w);
      ScanWord(s, " " + rest);
    } else {
      ScanSymbolText(t, " " + rest);
    }
  }

  lemma ScanIntegerText(n: LexInt, rest: string)
    requires |rest| > 0 && rest[0] == ' '
    ensures Scan(Decimal.FromNat(n) + rest) == (Some(Ok(Integer(n))), rest)
  {
    Decimal.ValueOfFromNat(n);
    ScanInteger(Decimal.FromNat(n), rest);
  }

  lemma ScanSymbolText(t: Token, rest: string)
    requires !t.Integer? && !t.Word?
    requires |rest| > 0 && rest[0] == ' '
    ensures Scan(TokenText(t) + rest) == (Some(Ok(t)), rest)
  {
    var c := TokenText(t)[0];
    assert TokenText(t) == [c];
    SymbolTable(c);
    ScanSymbol(c, rest);
  }

  /** Lexing the text of any sequence of lexable tokens gives them back. */
  lemma {:induction false} UnlexRoundTrip(ts: seq<Token>)
    requires forall i :: 0 <= i < |ts| ==> Lexable(ts[i])
    ensures Tokenize(Unlex(ts)) == Oks(ts)
  {
    if |ts| > 0 {
      var rest := Unlex(ts[1..]);
      ScanTokenText(ts[0], rest);
      TokenizeStep(Unlex(ts), Ok(ts[0]), " " + rest);
      TokenizeSkipsWhitespace(" ", rest);
      UnlexRoundTrip(ts[1..]);
      assert Oks(ts) == [Ok(ts[0])] + Oks(ts[1..]);
    }
  }

  lemma TokenizeLastWord(w: string)
    requires |w| > 0 && forall i :: 0 <= i < |w| ==> IsAlphabetic(w[i])
    ensures Tokenize(w) == [WordItem(w)]
  {
    assert w == w + "";
    ScanWord(w, "");
    TokenizeStep(w, WordItem(w), "");
  }

  lemma TokenizeLeadingInteger(digits: string, rest: string)
    requires |digits| > 0 && Decimal.AllDigits(digits)
    requires |rest| > 0 && !IsDigit(rest[0])
    ensures Tokenize(digits + rest) == [IntegerItem(digits)] + Tokenize(rest)
  {
    ScanInteger(digits, rest);
    TokenizeStep(digits + rest, IntegerItem(digits), rest);
  }

  lemma TokenizeLeadingWord(w: string, rest: string)
    requires |w| > 0 && forall i :: 0 <= i < |w| ==> IsAlphabetic(w[i])
    requires |rest| > 0 && !IsAlphabetic(rest[0])
    ensures Tokenize(w + rest) == [WordItem(w)] + Tokenize(rest)
  {
    ScanWord(w, rest);
    TokenizeStep(w + rest, WordItem(w), rest);
  }

  /** An integer immediately followed by letters is two items: the integer,
      then the whole run of letters as one word (so `4dkh` fails on "dkh"). */
  lemma IntegerThenWord(n: nat, w: string)
    requires n <= I32Max
    requires |w| > 0 && forall i :: 0 <= i < |w| ==> IsAlphabetic(w[i])
    ensures Tokenize(Decimal.FromNat(n) + w) == [Ok(Integer(n)), WordItem(w)]
  {
    Decimal.ValueOfFromNat(n);
    DigitsThenLetters(Decimal.FromNat(n), w);
  }

  lemma DigitsThenLetters(digits: string, w: string)
    requires |digits| > 0 && Decimal.AllDigits(digits)
    requires |w| > 0 && forall i :: 0 <= i < |w| ==> IsAlphabetic(w[i])
    ensures Tokenize(digits + w) == [IntegerItem(digits), WordItem(w)]
  {
    assert !IsDigit(w[0]);
    TokenizeLeadingInteger(digits, w);
    TokenizeLastWord(w);
  }
}
