/** The tokens of printed text: which trees print unambiguously, the token
    sequence such a tree prints as, and the lexer's reading of the printed
    text, which is that sequence with the intended multiplication sign and an
    error with the sign pp.rs writes. */
module PrintedTokens {
  import opened Wrappers
  import opened Lexer
  import opened LexerProps
  import opened Ast
  import opened Parser
  import opened Printer
  import Decimal

  /** A sum or a difference. */
  predicate IsSum(n: Node) {
    n.Add? || n.Sub?
  }

  /** A product or a quotient. */
  predicate IsProduct(n: Node) {
    n.Mul? || n.Div?
  }

  /** The trees the printer writes unambiguously: literals the lexer can read
      back, rolls as the parser builds them with at most one selection, and
      operators whose right operand binds tighter than they do (the printer
      adds no parentheses for `a - (b - c)` or `a / (b * c)`), under a
      negation nothing looser than a factor. */
  predicate Canon(n: Node) {
    match n
    case Lit(v) => 0 <= v <= I32Max
    case Roll(count, sides, select) =>
      && count.Lit? && 0 <= count.value <= I32Max
      && sides.Lit? && sides.value in DieSides
      && (select.Some? ==> SingleSelection(select.value))
    case Select(_, _, _) => false
    case Neg(right) => Canon(right) && !IsProduct(right)
    case Add(left, right) => Canon(left) && Canon(right) && !IsSum(right)
    case Sub(left, right) => Canon(left) && Canon(right) && !IsSum(right)
    case Mul(left, right) => Canon(left) && Canon(right) && !IsProduct(right)
    case Div(left, right) => Canon(left) && Canon(right) && !IsProduct(right)
  }

  /** One selection with no chain after it, with a count only for a keep or drop. */
  predicate SingleSelection(n: Node) {
    && n.Select? && n.next.None?
    && (n.amount.Some? ==>
          n.amount.value.Lit? && 0 <= n.amount.value.value <= I32Max
          && n.selection != Advantage && n.selection != Disadvantage)
  }

  /** Every canonical tree is one the parser can build. */
  lemma {:induction false} CanonIsParsed(n: Node)
    requires Canon(n)
    ensures ParsedExpr(n)
    decreases n
  {
    match n
    case Lit(_) =>
    case Roll(_, _, _) =>
    case Neg(right) => CanonIsParsed(right);
    case Add(left, right) => CanonIsParsed(left); CanonIsParsed(right);
    case Sub(left, right) => CanonIsParsed(left); CanonIsParsed(right);
    case Mul(left, right) => CanonIsParsed(left); CanonIsParsed(right);
    case Div(left, right) => CanonIsParsed(left); CanonIsParsed(right);
  }

  function Bracketed(yes: bool, ts: seq<Token>): seq<Token> {
    if yes then [Open('(')] + ts + [Close(')')] else ts
  }

  function EmitSelection(n: Node): seq<Token>
    requires SingleSelection(n)
  {
    [Word(SelectionWord(n.selection))] + (if n.amount.Some? then [Integer(n.amount.value.value)] else [])
  }

  /** The tokens the printed text of a canonical tree stands for, with the
      flag `prod` of the printer. */
  function Emit(n: Node, prod: bool): seq<Token>
    requires Canon(n)
    decreases n
  {
    match n
    case Lit(v) => [Integer(v)]
    case Roll(count, sides, select) =>
      [Integer(count.value), Word("d"), Integer(sides.value)] + (if select.Some? then EmitSelection(select.value) else [])
    case Neg(right) => [Minus] + Emit(right, true)
    case Add(left, right) => Bracketed(prod, Emit(left, false) + [Plus] + Emit(right, false))
    case Sub(left, right) => Bracketed(prod, Emit(left, false) + [Minus] + Emit(right, false))
    case Mul(left, right) => Emit(left, true) + [Times] + Emit(right, true)
    case Div(left, right) => Emit(left, true) + [Divide] + Emit(right, true)
  }

  /** The text of an i32 the lexer accepts reads back as that integer. */
  lemma TokenizeNat(v: LexInt)
    ensures Tokenize(Decimal.FromNat(v)) == [Ok(Integer(v))]
  {
    var digits := Decimal.FromNat(v);
    assert digits + "" == digits;
    ScanInteger(digits, "");
    Decimal.ValueOfFromNat(v);
    TokenizeStep(digits, Ok(Integer(v)), "");
  }

  /** A single symbol character. */
  lemma TokenizeSymbol(c: char)
    requires !IsWhitespace(c) && !IsDigit(c) && !IsAlphabetic(c)
    ensures Tokenize([c]) == [SymbolItem(c)]
  {
    assert [c] + "" == [c];
    ScanSymbol(c, "");
    TokenizeStep([c], SymbolItem(c), "");
  }

  /** A symbol character between two spaces, as the printer writes operators. */
  lemma TokenizeSpaced(c: char)
    requires !IsWhitespace(c) && !IsDigit(c) && !IsAlphabetic(c)
    ensures Tokenize(" " + [c] + " ") == [SymbolItem(c)]
  {
    assert " " + [c] + " " == " " + ([c] + " ");
    TokenizeSkipsWhitespace(" ", [c] + " ");
    ScanSymbol(c, " ");
    TokenizeStep([c] + " ", SymbolItem(c), " ");
    TokenizeWhitespaceOnly(" ");
  }

  lemma TokenizeValidWord(w: string)
    requires w in ValidWords
    ensures Tokenize(w) == [Ok(Word(w))]
  {
    ValidWordLetters(w);
    TokenizeLastWord(w);
  }

  /** Lexing three texts joined at separable points. */
  lemma TokenizeThree(a: string, b: string, c: string)
    requires Separable(a, b) && Separable(a + b, c)
    ensures Tokenize(a + b + c) == Tokenize(a) + Tokenize(b) + Tokenize(c)
  {
    TokenizeAppend(a, b);
    TokenizeAppend(a + b, c);
  }

  /** A text that ends in a digit can be followed by anything but a digit. */
  lemma SeparableAfterDigit(a: string, b: string)
    requires |a| > 0 && IsDigit(a[|a| - 1]) && (|b| == 0 || !IsDigit(b[0]))
    ensures Separable(a, b)
  {
  }

  /** A text that starts with a digit can follow anything but a digit. */
  lemma SeparableBeforeDigit(a: string, b: string)
    requires |b| > 0 && IsDigit(b[0]) && (|a| == 0 || !IsDigit(a[|a| - 1]))
    ensures Separable(a, b)
  {
  }

  /** A text that ends in a space or a symbol can be followed by anything. */
  lemma SeparableAfter(a: string, b: string)
    requires |a| > 0 && !IsDigit(a[|a| - 1]) && !IsAlphabetic(a[|a| - 1])
    ensures Separable(a, b)
  {
  }

  /** Anything can be followed by a text that starts with a space or a symbol. */
  lemma SeparableBefore(a: string, b: string)
    requires |b| > 0 && !IsDigit(b[0]) && !IsAlphabetic(b[0])
    ensures Separable(a, b)
  {
  }

  lemma SelectionWordValid(s: Selection)
    ensures SelectionWord(s) in ValidWords
  {
  }

  /** A valid word followed by an integer. */
  lemma TokenizeWordNat(word: string, k: LexInt)
    requires |word| > 0 && IsAlphabetic(word[|word| - 1])
    requires Tokenize(word) == [Ok(Word(word))]
    ensures Tokenize(word + Decimal.FromNat(k)) == [Ok(Word(word)), Ok(Integer(k))]
  {
    var digits := Decimal.FromNat(k);
    TokenizeNat(k);
    assert IsDigit(digits[0]);
    TokenizeWordDigits(word, digits, Ok(Integer(k)));
  }

  /** A word followed by a run of digits that lexes as one item. */
  lemma TokenizeWordDigits(word: string, digits: string, x: LexItem)
    requires |word| > 0 && IsAlphabetic(word[|word| - 1])
    requires Tokenize(word) == [Ok(Word(word))]
    requires |digits| > 0 && IsDigit(digits[0]) && Tokenize(digits) == [x]
    ensures Tokenize(word + digits) == [Ok(Word(word)), x]
  {
    SeparableBeforeDigit(word, digits);
    TokenizeAppend(word, digits);
  }

  /** The text of one selection: its word, then its count if it has one. */
  lemma RenderSelection(n: Node, prod: bool)
    requires SingleSelection(n)
    ensures n.amount.Some? ==> Render(n, prod, TimesIntended) == SelectionWord(n.selection) + Decimal.FromNat(n.amount.value.value)
    ensures n.amount.None? ==> Render(n, prod, TimesIntended) == SelectionWord(n.selection)
  {
    if n.amount.None? {
      assert Render(n, prod, TimesIntended) == SelectionWord(n.selection) + "";
    }
  }

  lemma OksOne(a: Token)
    ensures Oks([a]) == [Ok(a)]
  {
  }

  lemma OksTwo(a: Token, b: Token)
    ensures Oks([a, b]) == [Ok(a), Ok(b)]
  {
    OksAppend([a], [b]);
    assert [a] + [b] == [a, b];
  }

  lemma OksThree(a: Token, b: Token, c: Token)
    ensures Oks([a, b, c]) == [Ok(a), Ok(b), Ok(c)]
  {
    OksAppend([a], [b, c]);
    OksTwo(b, c);
    assert [a] + [b, c] == [a, b, c];
  }

  lemma OksBracketed(ts: seq<Token>)
    ensures Oks(Bracketed(true, ts)) == [Ok(Open('('))] + Oks(ts) + [Ok(Close(')'))]
  {
    OksAppend([Open('(')], ts);
    OksAppend([Open('(')] + ts, [Close(')')]);
    OksOne(Open('('));
    OksOne(Close(')'));
  }

  lemma WordThenCount(word: string, k: LexInt)
    requires |word| > 0 && IsAlphabetic(word[|word| - 1])
    requires Tokenize(word) == [Ok(Word(word))]
    ensures Tokenize(word + Decimal.FromNat(k)) == Oks([Word(word), Integer(k)])
  {
    TokenizeWordNat(word, k);
    OksTwo(Word(word), Integer(k));
  }

  /** Lexing a text known to equal one whose lexing is known. */
  lemma LexesAs(s: string, t: string, ts: seq<Token>)
    requires s == t && Tokenize(t) == Oks(ts)
    ensures Tokenize(s) == Oks(ts)
  {
  }

  /** A selection word lexes to itself and starts with a letter. */
  lemma SelectionWordLexes(sel: Selection)
    ensures Tokenize(SelectionWord(sel)) == [Ok(Word(SelectionWord(sel)))]
    ensures |SelectionWord(sel)| > 0 && IsAlphabetic(SelectionWord(sel)[0])
    ensures IsAlphabetic(SelectionWord(sel)[|SelectionWord(sel)| - 1])
  {
    SelectionWordValid(sel);
    TokenizeValidWord(SelectionWord(sel));
    ValidWordLetters(SelectionWord(sel));
  }

  lemma EmitSelectionTokens(n: Node)
    requires SingleSelection(n)
    ensures n.amount.Some? ==> EmitSelection(n) == [Word(SelectionWord(n.selection)), Integer(n.amount.value.value)]
    ensures n.amount.None? ==> EmitSelection(n) == [Word(SelectionWord(n.selection))]
  {
    if n.amount.None? {
      assert [Word(SelectionWord(n.selection))] + [] == [Word(SelectionWord(n.selection))];
    }
  }

  /** The text of one selection lexes to its word and its count. */
  lemma TokenizeSelection(n: Node, prod: bool)
    requires SingleSelection(n)
    ensures Tokenize(Render(n, prod, TimesIntended)) == Oks(EmitSelection(n))
    ensures IsAlphabetic(Render(n, prod, TimesIntended)[0])
  {
    var word := SelectionWord(n.selection);
    SelectionWordLexes(n.selection);
    RenderSelection(n, prod);
    EmitSelectionTokens(n);
    if n.amount.Some? {
      var k: LexInt := n.amount.value.value;
      WordThenCount(word, k);
      LexesAs(Render(n, prod, TimesIntended), word + Decimal.FromNat(k), EmitSelection(n));
    } else {
      OksOne(Word(word));
      LexesAs(Render(n, prod, TimesIntended), word, EmitSelection(n));
    }
  }

  /** `count` `d` `sides`, as the printer writes a die. */
  function DieText(c: LexInt, s: LexInt): string {
    Decimal.FromNat(c) + "d" + Decimal.FromNat(s)
  }

  lemma Three(x: LexItem, y: LexItem, z: LexItem)
    ensures [x] + [y] + [z] == [x, y, z]
  {
  }

  /** An integer, a word and an integer, with nothing between them. */
  lemma TokenizeIntegerWordInteger(count: string, c: LexInt, w: string, sides: string, s: LexInt)
    requires Tokenize(count) == [Ok(Integer(c))] && Tokenize(sides) == [Ok(Integer(s))]
    requires |count| > 0 && |sides| > 0 && IsDigit(count[|count| - 1]) && IsDigit(sides[0])
    requires |w| > 0 && !IsDigit(w[0]) && !IsDigit(w[|w| - 1]) && Tokenize(w) == [Ok(Word(w))]
    ensures Tokenize(count + w + sides) == Oks([Integer(c), Word(w), Integer(s)])
  {
    SeparableAfterDigit(count, w);
    assert (count + w)[|count + w| - 1] == w[|w| - 1];
    SeparableBeforeDigit(count + w, sides);
    TokenizeThree(count, w, sides);
    Three(Ok(Integer(c)), Ok(Word(w)), Ok(Integer(s)));
    OksThree(Integer(c), Word(w), Integer(s));
  }

  lemma DieTextEnds(c: LexInt, s: LexInt)
    ensures |DieText(c, s)| > 0 && IsDigit(DieText(c, s)[|DieText(c, s)| - 1])
  {
    var sides := Decimal.FromNat(s);
    assert DieText(c, s)[|DieText(c, s)| - 1] == sides[|sides| - 1];
  }

  lemma TokenizeDieText(c: LexInt, s: LexInt)
    ensures Tokenize(DieText(c, s)) == Oks([Integer(c), Word("d"), Integer(s)])
  {
    TokenizeNat(c);
    TokenizeNat(s);
    TokenizeValidWord("d");
    TokenizeIntegerWordInteger(Decimal.FromNat(c), c, "d", Decimal.FromNat(s), s);
  }

  lemma RenderRoll(n: Node, prod: bool)
    requires n.Roll? && Canon(n)
    ensures n.select.Some? ==> Render(n, prod, TimesIntended) == DieText(n.count.value, n.sides.value) + Render(n.select.value, prod, TimesIntended)
    ensures n.select.None? ==> Render(n, prod, TimesIntended) == DieText(n.count.value, n.sides.value)
  {
    if n.select.None? {
      assert DieText(n.count.value, n.sides.value) + "" == DieText(n.count.value, n.sides.value);
    }
  }

  lemma EmitRoll(n: Node, prod: bool)
    requires n.Roll? && Canon(n)
    ensures n.select.Some? ==> Emit(n, prod) == [Integer(n.count.value), Word("d"), Integer(n.sides.value)] + EmitSelection(n.select.value)
    ensures n.select.None? ==> Emit(n, prod) == [Integer(n.count.value), Word("d"), Integer(n.sides.value)]
  {
    if n.select.None? {
      assert [Integer(n.count.value), Word("d"), Integer(n.sides.value)] + [] == [Integer(n.count.value), Word("d"), Integer(n.sides.value)];
    }
  }

  /** A die text followed by the text of a selection. */
  lemma TokenizeDieSelection(die: string, dieTokens: seq<Token>, sel: string, selTokens: seq<Token>)
    requires |die| > 0 && IsDigit(die[|die| - 1]) && Tokenize(die) == Oks(dieTokens)
    requires |sel| > 0 && IsAlphabetic(sel[0]) && Tokenize(sel) == Oks(selTokens)
    ensures Tokenize(die + sel) == Oks(dieTokens + selTokens)
  {
    TokenizeAppend(die, sel);
    OksAppend(dieTokens, selTokens);
  }

  /** The text of a roll as the parser builds it lexes to its tokens. */
  lemma TokenizeRoll(n: Node, prod: bool)
    requires n.Roll? && Canon(n)
    ensures Tokenize(Render(n, prod, TimesIntended)) == Oks(Emit(n, prod))
  {
    var c: LexInt := n.count.value;
    var s: LexInt := n.sides.value;
    RenderRoll(n, prod);
    EmitRoll(n, prod);
    TokenizeDieText(c, s);
    DieTextEnds(c, s);
    var head := [Integer(c), Word("d"), Integer(s)];
    if n.select.Some? {
      TokenizeSelection(n.select.value, prod);
      TokenizeDieSelection(DieText(c, s), head, Render(n.select.value, prod, TimesIntended), EmitSelection(n.select.value));
      LexesAs(Render(n, prod, TimesIntended), DieText(c, s) + Render(n.select.value, prod, TimesIntended), Emit(n, prod));
    } else {
      LexesAs(Render(n, prod, TimesIntended), DieText(c, s), Emit(n, prod));
    }
  }

  /** The printed text of a canonical tree, with the intended multiplication
      sign, lexes to exactly the tokens it stands for. */
  lemma {:induction false} TokenizePrinted(n: Node, prod: bool)
    requires Canon(n)
    ensures Tokenize(Render(n, prod, TimesIntended)) == Oks(Emit(n, prod))
    decreases n, 1
  {
    if n.Lit? {
      TokenizeNat(n.value);
      OksOne(Integer(n.value));
      LexesAs(Render(n, prod, TimesIntended), Decimal.FromNat(n.value), Emit(n, prod));
    } else if n.Roll? {
      TokenizeRoll(n, prod);
    } else if n.Neg? {
      TokenizePrinted(n.right, true);
      TokenizeNegation(Render(n.right, true, TimesIntended), Emit(n.right, true));
      LexesAs(Render(n, prod, TimesIntended), "-" + Render(n.right, true, TimesIntended), Emit(n, prod));
    } else {
      TokenizeOperation(n, prod);
    }
  }

  lemma TokenizeNegation(s: string, ts: seq<Token>)
    requires Tokenize(s) == Oks(ts)
    ensures Tokenize("-" + s) == Oks([Minus] + ts)
  {
    TokenizeSymbol('-');
    TokenizeAppend("-", s);
    OksAppend([Minus], ts);
    OksOne(Minus);
  }

  /** The character an operator prints as, between two spaces. */
  function OperatorChar(n: Node): char
    requires IsSum(n) || IsProduct(n)
  {
    if n.Add? then '+' else if n.Sub? then '-' else if n.Mul? then '\U{00D7}' else '/'
  }

  function OperatorToken(n: Node): Token
    requires IsSum(n) || IsProduct(n)
  {
    if n.Add? then Plus else if n.Sub? then Minus else if n.Mul? then Times else Divide
  }

  lemma OperatorLexes(n: Node)
    requires IsSum(n) || IsProduct(n)
    ensures !IsWhitespace(OperatorChar(n)) && !IsDigit(OperatorChar(n)) && !IsAlphabetic(OperatorChar(n))
    ensures SymbolItem(OperatorChar(n)) == Ok(OperatorToken(n))
  {
  }

  lemma RenderOperation(n: Node, prod: bool)
    requires IsSum(n) || IsProduct(n)
    ensures Render(n, prod, TimesIntended)
         == Parenthesised(IsSum(n) && prod, Render(n.left, IsProduct(n), TimesIntended) + (" " + [OperatorChar(n)] + " ") + Render(n.right, IsProduct(n), TimesIntended))
  {
    match n
    case Add(_, _) => assert " + " == " " + [OperatorChar(n)] + " ";
    case Sub(_, _) => assert " - " == " " + [OperatorChar(n)] + " ";
    case Mul(_, _) => assert TimesIntended == " " + [OperatorChar(n)] + " ";
    case Div(_, _) => assert " / " == " " + [OperatorChar(n)] + " ";
  }

  lemma EmitOperation(n: Node, prod: bool)
    requires Canon(n) && (IsSum(n) || IsProduct(n))
    ensures Emit(n, prod) == Bracketed(IsSum(n) && prod, Emit(n.left, IsProduct(n)) + [OperatorToken(n)] + Emit(n.right, IsProduct(n)))
  {
  }

  /** Two texts with a spaced symbol between them. */
  lemma TokenizeSpacedJoin(l: string, lt: seq<Token>, c: char, op: Token, r: string, rt: seq<Token>)
    requires Tokenize(l) == Oks(lt) && Tokenize(r) == Oks(rt)
    requires !IsWhitespace(c) && !IsDigit(c) && !IsAlphabetic(c) && SymbolItem(c) == Ok(op)
    ensures Tokenize(l + (" " + [c] + " ") + r) == Oks(lt + [op] + rt)
  {
    TokenizeSpaced(c);
    TokenizeThree(l, " " + [c] + " ", r);
    OksOne(op);
    OksAppend(lt, [op]);
    OksAppend(lt + [op], rt);
  }

  /** A text between two single-item texts. */
  lemma TokenizeAround(a: string, x: LexItem, s: string, ts: seq<LexItem>, b: string, y: LexItem)
    requires Tokenize(a) == [x] && Tokenize(s) == ts && Tokenize(b) == [y]
    requires Separable(a, s) && Separable(a + s, b)
    ensures Tokenize(a + s + b) == [x] + ts + [y]
  {
    TokenizeThree(a, s, b);
  }

  /** A text, in parentheses when `yes`. */
  lemma TokenizeParenthesised(yes: bool, s: string, ts: seq<Token>)
    requires Tokenize(s) == Oks(ts)
    ensures Tokenize(Parenthesised(yes, s)) == Oks(Bracketed(yes, ts))
  {
    if yes {
      assert Parenthesised(yes, s) == "(" + s + ")";
      TokenizeBrackets(s, Oks(ts));
      OksBracketed(ts);
    }
  }

  /** A text between the two parentheses. */
  lemma TokenizeBrackets(s: string, items: seq<LexItem>)
    requires Tokenize(s) == items
    ensures Tokenize("(" + s + ")") == [Ok(Open('('))] + items + [Ok(Close(')'))]
  {
    TokenizeParentheses();
    TokenizeBetween("(", Ok(Open('(')), s, items, ")", Ok(Close(')')));
  }

  /** Each parenthesis alone is one token, and neither is a digit or a letter. */
  lemma TokenizeParentheses()
    ensures Tokenize("(") == [Ok(Open('('))] && Tokenize(")") == [Ok(Close(')'))]
    ensures !IsDigit('(') && !IsAlphabetic('(') && !IsDigit(')') && !IsAlphabetic(')')
  {
    TokenizeSymbol('(');
    TokenizeSymbol(')');
  }

  /** A text between two one-symbol texts. */
  lemma TokenizeBetween(a: string, x: LexItem, s: string, items: seq<LexItem>, b: string, y: LexItem)
    requires Tokenize(a) == [x] && Tokenize(s) == items && Tokenize(b) == [y]
    requires |a| > 0 && !IsDigit(a[|a| - 1]) && !IsAlphabetic(a[|a| - 1])
    requires |b| > 0 && !IsDigit(b[0]) && !IsAlphabetic(b[0])
    ensures Tokenize(a + s + b) == [x] + items + [y]
  {
    SeparableAfter(a, s);
    SeparableBefore(a + s, b);
    TokenizeAround(a, x, s, items, b, y);
  }

  /** An operator node: its operands' texts and the spaced operator between them. */
  lemma {:induction false} TokenizeOperation(n: Node, prod: bool)
    requires Canon(n) && (IsSum(n) || IsProduct(n))
    ensures Tokenize(Render(n, prod, TimesIntended)) == Oks(Emit(n, prod))
    decreases n, 0
  {
    var inner := IsProduct(n);
    TokenizePrinted(n.left, inner);
    TokenizePrinted(n.right, inner);
    var l, r := Render(n.left, inner, TimesIntended), Render(n.right, inner, TimesIntended);
    var lt, rt := Emit(n.left, inner), Emit(n.right, inner);
    OperatorLexes(n);
    TokenizeSpacedJoin(l, lt, OperatorChar(n), OperatorToken(n), r, rt);
    TokenizeParenthesised(IsSum(n) && prod, l + (" " + [OperatorChar(n)] + " ") + r, lt + [OperatorToken(n)] + rt);
    RenderOperation(n, prod);
    EmitOperation(n, prod);
  }

  /** A space, a run of letters, a symbol character and a space. */
  lemma TokenizeSpacedWordSymbol(w: string, c: char)
    requires |w| > 0 && forall i :: 0 <= i < |w| ==> IsAlphabetic(w[i])
    requires !IsWhitespace(c) && !IsDigit(c) && !IsAlphabetic(c)
    ensures Tokenize(" " + (w + ([c] + " "))) == [WordItem(w), SymbolItem(c)]
  {
    TokenizeSkipsWhitespace(" ", w + ([c] + " "));
    TokenizeWordSymbol(w, c);
  }

  lemma TokenizeWordSymbol(w: string, c: char)
    requires |w| > 0 && forall i :: 0 <= i < |w| ==> IsAlphabetic(w[i])
    requires !IsWhitespace(c) && !IsDigit(c) && !IsAlphabetic(c)
    ensures Tokenize(w + ([c] + " ")) == [WordItem(w), SymbolItem(c)]
  {
    TokenizeSymbolSpace(c);
    TokenizeLeadingWord(w, [c] + " ");
    Two(WordItem(w), SymbolItem(c));
  }

  lemma TokenizeSymbolSpace(c: char)
    requires !IsWhitespace(c) && !IsDigit(c) && !IsAlphabetic(c)
    ensures Tokenize([c] + " ") == [SymbolItem(c)]
  {
    ScanSymbol(c, " ");
    TokenizeStep([c] + " ", SymbolItem(c), " ");
    TokenizeWhitespaceOnly(" ");
  }

  lemma Two(x: LexItem, y: LexItem)
    ensures [x] + [y] == [x, y]
  {
  }

  lemma TimesAsWrittenParts()
    ensures TimesAsWritten == " " + ("\U{00C3}" + (['\U{2014}'] + " "))
    ensures WordItem("\U{00C3}") == Err(InvalidWord("\U{00C3}"))
    ensures SymbolItem('\U{2014}') == Err(InvalidCharacter('\U{2014}'))
  {
  }

  /** The separator pp.rs writes lexes to an unknown word, `Ã`, and an
      unknown character, the em dash. */
  lemma TokenizeTimesAsWritten()
    ensures Tokenize(TimesAsWritten) == [Err(InvalidWord("\U{00C3}")), Err(InvalidCharacter('\U{2014}'))]
  {
    TimesAsWrittenParts();
    TokenizeSpacedWordSymbol("\U{00C3}", '\U{2014}');
  }
}
