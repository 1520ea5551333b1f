/** Properties of the parser: the trees it builds are ones the evaluator can
    run, how it treats the end of input and lexer errors, and how it groups
    operators, on concrete item sequences. */
module ParserProps {
  import opened Wrappers
  import opened Lexer
  import opened LexerProps
  import opened Lookaheads
  import opened Ast
  import opened Parser

  /** Every tree the parser builds is evaluable: selections sit only in roll chains. */
  lemma {:induction false} ParsedIsExpr(n: Node)
    requires ParsedExpr(n)
    ensures IsExpr(n)
    decreases n, 1
  {
    match n
    case Lit(_) =>
    case Roll(count, sides, select) =>
      if select.Some? {
        ParsedIsChain(select.value);
      }
    case Neg(right) => ParsedIsExpr(right);
    case Add(left, right) => ParsedIsExpr(left); ParsedIsExpr(right);
    case Sub(left, right) => ParsedIsExpr(left); ParsedIsExpr(right);
    case Mul(left, right) => ParsedIsExpr(left); ParsedIsExpr(right);
    case Div(left, right) => ParsedIsExpr(left); ParsedIsExpr(right);
  }

  lemma {:induction false} ParsedIsChain(n: Node)
    requires ParsedChain(n)
    ensures IsChain(n)
    decreases n, 0
  {
    match n
    case Select(_, amount, next) =>
      if next.Some? {
        ParsedIsChain(next.value);
      }
  }

  /** Input with nothing but whitespace ends unexpectedly, with no bracket missing. */
  lemma ParseBlank(s: string)
    requires forall i :: 0 <= i < |s| ==> IsWhitespace(s[i])
    ensures Parse(s) == Err(UnexpectedEnd(None))
  {
    TokenizeWhitespaceOnly(s);
    assert New<LexItem>([]).peek == None;
  }

  /** A lexer error in the first item is the parse's error. */
  lemma FirstLexError(items: seq<LexItem>, e: LexError)
    requires |items| > 0 && items[0] == Err(e)
    ensures ParseItems(items) == Err(LexFailure(e))
  {
    var la := New(items);
    assert la.peek == Some(Err(e));
    assert ParseFactor(la) == Err(LexFailure(e));
    assert ParseTerm(la) == Err(LexFailure(e));
    assert ParseSum(la) == Err(LexFailure(e));
  }

  /** Subtraction groups to the left: `1 - 2 - 3` is `(1 - 2) - 3`. */
  lemma SubtractionIsLeftAssociative()
    ensures ParseItems([Ok(Integer(1)), Ok(Minus), Ok(Integer(2)), Ok(Minus), Ok(Integer(3))])
         == Ok(Sub(Sub(Lit(1), Lit(2)), Lit(3)))
  {
    var items := [Ok(Integer(1)), Ok(Minus), Ok(Integer(2)), Ok(Minus), Ok(Integer(3))];
    assert New(items) == At(items, 0);
    assert ParseTerm(At(items, 0)) == Ok((Lit(1), At(items, 1)));
    assert ParseTerm(At(items, 2)) == Ok((Lit(2), At(items, 3)));
    assert ParseTerm(At(items, 4)) == Ok((Lit(3), At(items, 5)));
  }

  /** Multiplication binds tighter than addition: `1 + 2 * 3` is `1 + (2 * 3)`. */
  lemma ProductBindsTighter()
    ensures ParseItems([Ok(Integer(1)), Ok(Plus), Ok(Integer(2)), Ok(Times), Ok(Integer(3))])
         == Ok(Add(Lit(1), Mul(Lit(2), Lit(3))))
  {
    var items := [Ok(Integer(1)), Ok(Plus), Ok(Integer(2)), Ok(Times), Ok(Integer(3))];
    assert New(items) == At(items, 0);
    assert ParseTerm(At(items, 0)) == Ok((Lit(1), At(items, 1)));
    assert ParseTerm(At(items, 2)) == Ok((Mul(Lit(2), Lit(3)), At(items, 5)));
  }

  /** A bare `d` is one six-sided die. */
  lemma BareDie()
    ensures ParseItems([Ok(Word("d"))]) == Ok(Roll(Lit(1), Lit(6), None))
  {
  }

  /** `2d%` rolls two hundred-sided dice. */
  lemma PercentDie()
    ensures ParseItems([Ok(Integer(2)), Ok(Word("d")), Ok(Percent)]) == Ok(Roll(Lit(2), Lit(100), None))
  {
  }

  /** A die size outside the accepted set is rejected: `3d7`. */
  lemma SevenSidedDie()
    ensures ParseItems([Ok(Integer(3)), Ok(Word("d")), Ok(Integer(7))]) == Err(InvalidDie(7))
  {
  }

  /** `4d6 kh 3 dl` chains a keep and a count-less drop onto the roll. */
  lemma SelectionChain()
    ensures ParseItems([Ok(Integer(4)), Ok(Word("d")), Ok(Integer(6)), Ok(Word("kh")), Ok(Integer(3)), Ok(Word("dl"))])
         == Ok(Roll(Lit(4), Lit(6), Some(Select(KeepHighest, Some(Lit(3)), Some(Select(DropLowest, None, None))))))
  {
    var items := [Ok(Integer(4)), Ok(Word("d")), Ok(Integer(6)), Ok(Word("kh")), Ok(Integer(3)), Ok(Word("dl"))];
    var chain := Some(Select(DropLowest, None, None));
    assert New(items) == At(items, 0);
    assert ParseSelection(At(items, 5)) == Ok((chain, At(items, 6)));
    assert ParseSelection(At(items, 3)) == Ok((Some(Select(KeepHighest, Some(Lit(3)), chain)), At(items, 6)));
    assert ParseFactor(At(items, 0)) == Ok((Roll(Lit(4), Lit(6), Some(Select(KeepHighest, Some(Lit(3)), chain))), At(items, 6)));
  }

  /** After a roll, a second `d` is a selection word: `d d` drops the lowest of one die. */
  lemma SecondDIsDrop()
    ensures ParseItems([Ok(Word("d")), Ok(Word("d"))]) == Ok(Roll(Lit(1), Lit(6), Some(Select(DropLowest, None, None))))
  {
  }

  /** Brackets must pair: `(1]` is a mismatch. */
  lemma MismatchedBrackets()
    ensures ParseItems([Ok(Open('(')), Ok(Integer(1)), Ok(Close(']'))]) == Err(MismatchedParentheses('(', ']'))
  {
    var items := [Ok(Open('(')), Ok(Integer(1)), Ok(Close(']'))];
    assert New(items) == At(items, 0);
    assert Next(At(items, 0)).0 == At(items, 1);
    assert ParseFactor(At(items, 1)) == Ok((Lit(1), At(items, 2)));
    assert ParseSum(At(items, 1)) == Ok((Lit(1), At(items, 2)));
    assert ParseFactor(At(items, 0)) == Err(MismatchedParentheses('(', ']'));
  }

  /** An unclosed `[` reports the `]` it is missing. */
  lemma UnclosedBracket()
    ensures ParseItems([Ok(Open('[')), Ok(Integer(1))]) == Err(UnexpectedEnd(Some(']')))
  {
  }

  /** A complete expression followed by more tokens is rejected at the first of them. */
  lemma LeftoverToken()
    ensures ParseItems([Ok(Integer(1)), Ok(Integer(2))]) == Err(UnexpectedToken(Integer(2), Leftover))
  {
  }
}
