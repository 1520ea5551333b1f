/** The lexical analyser (src/lexer.rs).

    The Rust lexer is an iterator over a character cursor. Here the cursor is
    represented by the unconsumed suffix of the input: scanning only ever looks
    forward, so the rest of the text is all the state there is. The three places
    where the Rust code panics become error items, so the lexer yields a
    sequence of `Result<Token, LexError>`. */
module Lexer {
  import opened Wrappers
  import Decimal

  /** `i32::MAX`: the largest integer literal that parses. */
  const I32Max: int := 0x7FFF_FFFF

  /** The only words the lexer accepts. */
  const ValidWords: seq<string> := ["d", "k", "kh", "kl", "dh", "dl", "adv", "dis", "da", "ad"]

  /** The lexer only ever builds `Open('(')`, `Open('[')`, `Close(')')` and `Close(']')`. */
  type OpenBracket = c: char | c == '(' || c == '[' witness '('
  type CloseBracket = c: char | c == ')' || c == ']' witness ')'

  /** The values an `Integer` token can hold: the lexer builds one only from a
      run of digits whose value fits in an i32, so it is never negative. */
  type LexInt = n: int | 0 <= n <= I32Max

  datatype Token =
    | Integer(n: LexInt)
    | Word(w: string)
    | Plus
    | Minus
    | Times
    | Divide
    | Percent
    | Open(open: OpenBracket)
    | Close(close: CloseBracket)

  /** The three failures of the Rust lexer: the panic on an unknown character,
      the panic on an unknown word and the `unwrap` of a failed i32 parse. */
  datatype LexError =
    | InvalidCharacter(c: char)
    | InvalidWord(word: string)
    | IntegerParse(digits: string)

  type LexItem = Result<Token, LexError>

  /** `char::is_whitespace`: the Unicode White_Space property, which is this finite list. */
  predicate IsWhitespace(c: char) {
    || ('\t' <= c <= '\r')
    || c == ' '
    || c == '\U{0085}'
    || c == '\U{00A0}'
    || c == '\U{1680}'
    || ('\U{2000}' <= c <= '\U{200A}')
    || c == '\U{2028}'
    || c == '\U{2029}'
    || c == '\U{202F}'
    || c == '\U{205F}'
    || c == '\U{3000}'
  }

  predicate IsDigit(c: char) {
    Decimal.IsDigit(c)
  }

  /** `char::is_alphabetic`, exact up to U+00FF (ASCII and Latin-1 letters);
      characters above U+00FF are treated as non-alphabetic. */
  predicate IsAlphabetic(c: char) {
    || ('a' <= c <= 'z')
    || ('A' <= c <= 'Z')
    || c == '\U{00AA}'
    || c == '\U{00B5}'
    || c == '\U{00BA}'
    || ('\U{00C0}' <= c <= '\U{00D6}')
    || ('\U{00D8}' <= c <= '\U{00F6}')
    || ('\U{00F8}' <= c <= '\U{00FF}')
  }

  /** Length of the longest prefix of `s` whose characters all satisfy `p`. */
  function Span(s: string, p: char -> bool): (k: nat)
    ensures k <= |s|
    ensures forall i :: 0 <= i < k ==> p(s[i])
    ensures k == |s| || !p(s[k])
    decreases |s|
  {
    if |s| == 0 || !p(s[0]) then 0 else 1 + Span(s[1..], p)
  }

  function SkipWhitespace(s: string): string {
    s[Span(s, IsWhitespace)..]
  }

  /** The item for a maximal run of digits: the i32 it denotes, or a parse failure. */
  function IntegerItem(digits: string): LexItem
    requires Decimal.AllDigits(digits)
  {
    var v := Decimal.Value(digits);
    if v <= I32Max then Ok(Integer(v)) else Err(IntegerParse(digits))
  }

  /** The item for a maximal run of letters. */
  function WordItem(w: string): LexItem {
    if w in ValidWords then Ok(Word(w)) else Err(InvalidWord(w))
  }

  /** The item for a single character that starts neither an integer nor a word. */
  function SymbolItem(c: char): LexItem {
    match c
    case '+' => Ok(Plus)
    case '-' => Ok(Minus)
    case '*' => Ok(Times)
    case '\U{00D7}' => Ok(Times)
    case '/' => Ok(Divide)
    case '\U{00F7}' => Ok(Divide)
    case '%' => Ok(Percent)
    case '(' => Ok(Open('('))
    case '[' => Ok(Open('['))
    case ')' => Ok(Close(')'))
    case ']' => Ok(Close(']'))
    case _ => Err(InvalidCharacter(c))
  }

  /** A successful item carries only one of the valid words. */
  predicate WellFormedItem(it: LexItem) {
    it.Ok? && it.value.Word? ==> it.value.w in ValidWords
  }

  /** The item whose lexeme starts at the first character of `t` (which is not
      whitespace), and the text after that lexeme. */
  function Lexeme(t: string): (r: (LexItem, string))
    requires |t| > 0 && !IsWhitespace(t[0])
    ensures |r.1| < |t| && r.1 == t[|t| - |r.1|..]
  {
    if IsDigit(t[0]) then
      var k := Span(t, IsDigit);
      (IntegerItem(t[..k]), t[k..])
    else if IsAlphabetic(t[0]) then
      var k := Span(t, IsAlphabetic);
      (WordItem(t[..k]), t[k..])
    else
      (SymbolItem(t[0]), t[1..])
  }

  /** One call of the lexer's `Iterator::next`: the item produced (`None` at the
      end of the input) and the input left unconsumed. */
  function Scan(s: string): (r: (Option<LexItem>, string))
    ensures |r.1| <= |s| && r.1 == s[|s| - |r.1|..]
    ensures r.0.None? <==> forall i :: 0 <= i < |s| ==> IsWhitespace(s[i])
    ensures r.0.None? ==> r.1 == []
    ensures r.0.Some? ==> |r.1| < |s|
  {
    var t := SkipWhitespace(s);
    if |t| == 0 then
      (None, t)
    else
      var (x, rest) := Lexeme(t);
      (Some(x), rest)
  }

  /** Every item the lexer yields for `s`, in order, until it returns `None`. */
  function Tokenize(s: string): (items: seq<LexItem>)
    ensures |items| <= |s|
    decreases |s|
  {
    var (it, rest) := Scan(s);
    match it
    case None => []
    case Some(x) => [x] + Tokenize(rest)
  }
}
