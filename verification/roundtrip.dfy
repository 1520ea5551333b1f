/** Printing and parsing are inverse on the trees the printer writes
    unambiguously: the text of such a tree, printed with the intended
    multiplication sign, parses back to the same tree.

    The parse half works on a fixed item sequence and the lookahead states
    `At(items, i)`: each lemma says that the production started at position
    `i` of a tree's tokens builds that tree and stops at the position just
    after them, provided the item there is one that ends the production. */
module RoundTrip {
  import opened Wrappers
  import opened Lexer
  import opened LexerProps
  import opened Lookaheads
  import opened Ast
  import opened Parser
  import opened Printer
  import opened PrintedTokens
  import Decimal

  /** The item the slot shows in the state `At(items, j)`. */
  function ItemAt(items: seq<LexItem>, j: nat): Option<LexItem> {
    if j < |items| then Some(items[j]) else None
  }

  /** Items that end a factor: the end, a closing parenthesis or an operator. */
  predicate FactorFollower(x: Option<LexItem>) {
    || x.None?
    || x == Some(Ok(Close(')')))
    || x == Some(Ok(Plus))
    || x == Some(Ok(Minus))
    || x == Some(Ok(Times))
    || x == Some(Ok(Divide))
  }

  /** Items that end a term: a factor's followers other than `*` and `/`. */
  predicate TermFollower(x: Option<LexItem>) {
    x.None? || x == Some(Ok(Close(')'))) || x == Some(Ok(Plus)) || x == Some(Ok(Minus))
  }

  /** Items that end a sum: the end or a closing parenthesis. */
  predicate SumFollower(x: Option<LexItem>) {
    x.None? || x == Some(Ok(Close(')')))
  }

  /** The items from position `i` on start with the tokens `ts`, each lexed without error. */
  predicate Encodes(items: seq<LexItem>, i: nat, ts: seq<Token>) {
    i + |ts| <= |items| && forall k :: 0 <= k < |ts| ==> items[i + k] == Ok(ts[k])
  }

  lemma EncodesSplit(items: seq<LexItem>, i: nat, a: seq<Token>, b: seq<Token>)
    requires Encodes(items, i, a + b)
    ensures Encodes(items, i, a) && Encodes(items, i + |a|, b)
  {
    forall k | 0 <= k < |a|
      ensures items[i + k] == Ok(a[k])
    {
      assert (a + b)[k] == a[k];
    }
    forall k | 0 <= k < |b|
      ensures items[i + |a| + k] == Ok(b[k])
    {
      assert (a + b)[|a| + k] == b[k];
      assert items[i + (|a| + k)] == Ok((a + b)[|a| + k]);
    }
  }

  lemma EncodesSplit3(items: seq<LexItem>, i: nat, a: seq<Token>, b: seq<Token>, c: seq<Token>)
    requires Encodes(items, i, a + b + c)
    ensures Encodes(items, i, a) && Encodes(items, i + |a|, b) && Encodes(items, i + |a| + |b|, c)
  {
    EncodesSplit(items, i, a + b, c);
    EncodesSplit(items, i, a, b);
  }

  lemma EncodesOne(items: seq<LexItem>, i: nat, t: Token)
    requires Encodes(items, i, [t])
    ensures ItemAt(items, i) == Some(Ok(t))
  {
    assert items[i + 0] == Ok([t][0]);
  }

  lemma EncodesTwo(items: seq<LexItem>, i: nat, t: Token, u: Token)
    requires Encodes(items, i, [t, u])
    ensures ItemAt(items, i) == Some(Ok(t)) && ItemAt(items, i + 1) == Some(Ok(u))
  {
    assert [t, u] == [t] + [u];
    EncodesSplit(items, i, [t], [u]);
    EncodesOne(items, i, t);
    EncodesOne(items, i + 1, u);
  }

  lemma EncodesThree(items: seq<LexItem>, i: nat, t: Token, u: Token, v: Token)
    requires Encodes(items, i, [t, u, v])
    ensures ItemAt(items, i) == Some(Ok(t)) && ItemAt(items, i + 1) == Some(Ok(u)) && ItemAt(items, i + 2) == Some(Ok(v))
  {
    assert [t, u, v] == [t] + [u, v];
    EncodesSplit(items, i, [t], [u, v]);
    EncodesOne(items, i, t);
    EncodesTwo(items, i + 1, u, v);
  }

  /** Moving on from `At(items, i)` reaches `At(items, i + 1)` and fetches the item there. */
  lemma NextFrom(items: seq<LexItem>, i: nat)
    ensures Next(At(items, i)) == (At(items, i + 1), ItemAt(items, i + 1))
    ensures Peek(At(items, i)) == ItemAt(items, i)
  {
  }

  /** The word each selection prints as is read back as that selection. */
  lemma SelectionOfWord(s: Selection)
    ensures SelectionOf(SelectionWord(s)) == Some(s)
  {
  }

  // Single steps of the parser, each on its own.

  lemma TermTailStops(items: seq<LexItem>, j: nat, n: Node)
    requires ParsedExpr(n) && TermFollower(ItemAt(items, j))
    ensures TermTail(n, At(items, j)) == Ok((n, At(items, j)))
  {
  }

  lemma SumTailStops(items: seq<LexItem>, j: nat, n: Node)
    requires ParsedExpr(n) && SumFollower(ItemAt(items, j))
    ensures SumTail(n, At(items, j)) == Ok((n, At(items, j)))
  {
  }

  lemma TermFromFactor(la: Tokens, n: Node, la': Tokens)
    requires ParseFactor(la) == Ok((n, la'))
    ensures ParsedExpr(n) && ParseTerm(la) == TermTail(n, la')
  {
  }

  lemma SumFromTerm(la: Tokens, n: Node, la': Tokens)
    requires ParseTerm(la) == Ok((n, la'))
    ensures ParsedExpr(n) && ParseSum(la) == SumTail(n, la')
  {
  }

  lemma ProductStep(items: seq<LexItem>, j: nat, n: Node, la': Tokens)
    requires IsProduct(n) && ParsedExpr(n)
    requires ItemAt(items, j) == Some(Ok(OperatorToken(n)))
    requires ParseFactor(At(items, j + 1)) == Ok((n.right, la'))
    ensures TermTail(n.left, At(items, j)) == TermTail(n, la')
  {
    NextFrom(items, j);
  }

  lemma SumStep(items: seq<LexItem>, j: nat, n: Node, la': Tokens)
    requires IsSum(n) && ParsedExpr(n)
    requires ItemAt(items, j) == Some(Ok(OperatorToken(n)))
    requires ParseTerm(At(items, j + 1)) == Ok((n.right, la'))
    ensures SumTail(n.left, At(items, j)) == SumTail(n, la')
  {
    NextFrom(items, j);
  }

  lemma NegationStep(items: seq<LexItem>, i: nat, right: Node, la': Tokens)
    requires ItemAt(items, i) == Some(Ok(Minus))
    requires ParseFactor(At(items, i + 1)) == Ok((right, la'))
    ensures ParseFactor(At(items, i)) == Ok((Neg(right), la'))
  {
    NextFrom(items, i);
  }

  lemma BracketStep(items: seq<LexItem>, i: nat, inner: Node, e: nat)
    requires i + 2 <= e
    requires ItemAt(items, i) == Some(Ok(Open('(')))
    requires ParseSum(At(items, i + 1)) == Ok((inner, At(items, e - 1)))
    requires ItemAt(items, e - 1) == Some(Ok(Close(')')))
    ensures ParseFactor(At(items, i)) == Ok((inner, At(items, e)))
  {
    NextFrom(items, i);
    assert At(items, i).peek == Some(Ok(Open('(')));
    assert ParseFactor(At(items, i)) == ParenthesisEnd('(', inner, At(items, e - 1));
    NextFrom(items, e - 1);
    assert ParenthesisEnd('(', inner, At(items, e - 1)) == Ok((inner, At(items, e)));
  }

  lemma LiteralStep(items: seq<LexItem>, i: nat, v: LexInt)
    requires ItemAt(items, i) == Some(Ok(Integer(v)))
    requires FactorFollower(ItemAt(items, i + 1))
    ensures ParseFactor(At(items, i)) == Ok((Lit(v), At(items, i + 1)))
  {
    NextFrom(items, i);
  }

  lemma CountStep(items: seq<LexItem>, i: nat, c: LexInt)
    requires ItemAt(items, i) == Some(Ok(Integer(c))) && ItemAt(items, i + 1) == Some(Ok(Word("d")))
    ensures ParseFactor(At(items, i)) == ParseRoll(At(items, i + 1), c)
  {
    NextFrom(items, i);
  }

  lemma DieStep(items: seq<LexItem>, i: nat, c: LexInt)
    requires ItemAt(items, i) == Some(Ok(Word("d")))
    ensures ParseRoll(At(items, i), c) == RollSides(c, At(items, i + 1), ItemAt(items, i + 1))
  {
    NextFrom(items, i);
  }

  lemma SidesStep(items: seq<LexItem>, i: nat, c: LexInt, s: LexInt, select: Option<Node>, la': Tokens)
    requires ItemAt(items, i) == Some(Ok(Integer(s))) && s in DieSides
    requires ParseSelection(At(items, i + 1)) == Ok((select, la'))
    ensures RollSides(c, At(items, i), ItemAt(items, i)) == Ok((Roll(Lit(c), Lit(s), select), la'))
  {
    NextFrom(items, i);
  }

  lemma NoSelection(items: seq<LexItem>, k: nat)
    requires FactorFollower(ItemAt(items, k))
    ensures ParseSelection(At(items, k)) == Ok((None, At(items, k)))
  {
  }

  lemma RerollStep(items: seq<LexItem>, k: nat, s: Selection)
    requires s == Advantage || s == Disadvantage
    requires ItemAt(items, k) == Some(Ok(Word(SelectionWord(s))))
    requires FactorFollower(ItemAt(items, k + 1))
    ensures ParseSelection(At(items, k)) == Ok((Some(Select(s, None, None)), At(items, k + 1)))
  {
    SelectionOfWord(s);
    NextFrom(items, k);
    NoSelection(items, k + 1);
  }

  lemma CountedStep(items: seq<LexItem>, k: nat, s: Selection, a: LexInt)
    requires s != Advantage && s != Disadvantage
    requires ItemAt(items, k) == Some(Ok(Word(SelectionWord(s)))) && ItemAt(items, k + 1) == Some(Ok(Integer(a)))
    requires FactorFollower(ItemAt(items, k + 2))
    ensures ParseSelection(At(items, k)) == Ok((Some(Select(s, Some(Lit(a)), None)), At(items, k + 2)))
  {
    SelectionOfWord(s);
    NextFrom(items, k);
    NextFrom(items, k + 1);
    NoSelection(items, k + 2);
    assert ParseSelection(At(items, k)) == SelectionCount(s, At(items, k + 1), ItemAt(items, k + 1));
  }

  lemma UncountedStep(items: seq<LexItem>, k: nat, s: Selection)
    requires s != Advantage && s != Disadvantage
    requires ItemAt(items, k) == Some(Ok(Word(SelectionWord(s))))
    requires FactorFollower(ItemAt(items, k + 1))
    ensures ParseSelection(At(items, k)) == Ok((Some(Select(s, None, None)), At(items, k + 1)))
  {
    SelectionOfWord(s);
    NextFrom(items, k);
    NoSelection(items, k + 1);
    assert ParseSelection(At(items, k)) == SelectionCount(s, At(items, k + 1), ItemAt(items, k + 1));
  }

  // Where a printed tree's tokens sit, position by position.

  /** The tokens of a roll's optional selection. */
  function SelectTokens(select: Option<Node>): seq<Token>
    requires select.Some? ==> SingleSelection(select.value)
  {
    if select.Some? then EmitSelection(select.value) else []
  }

  lemma RollTokens(n: Node, prod: bool)
    requires n.Roll? && Canon(n)
    ensures Emit(n, prod) == [Integer(n.count.value), Word("d"), Integer(n.sides.value)] + SelectTokens(n.select)
  {
    EmitRoll(n, prod);
  }

  /** Where the tokens of a roll sit among the items. */
  lemma RollItems(items: seq<LexItem>, i: nat, n: Node, prod: bool)
    requires n.Roll? && Canon(n)
    requires Encodes(items, i, Emit(n, prod))
    ensures ItemAt(items, i) == Some(Ok(Integer(n.count.value))) && ItemAt(items, i + 1) == Some(Ok(Word("d"))) && ItemAt(items, i + 2) == Some(Ok(Integer(n.sides.value)))
    ensures Encodes(items, i + 3, SelectTokens(n.select))
    ensures |Emit(n, prod)| == 3 + |SelectTokens(n.select)|
  {
    var c: LexInt, s: LexInt := n.count.value, n.sides.value;
    RollTokens(n, prod);
    EncodesSplit(items, i, [Integer(c), Word("d"), Integer(s)], SelectTokens(n.select));
    EncodesThree(items, i, Integer(c), Word("d"), Integer(s));
  }

  lemma NegationItems(items: seq<LexItem>, i: nat, n: Node, prod: bool)
    requires n.Neg? && Canon(n)
    requires Encodes(items, i, Emit(n, prod))
    ensures ItemAt(items, i) == Some(Ok(Minus))
    ensures Encodes(items, i + 1, Emit(n.right, true))
    ensures |Emit(n, prod)| == 1 + |Emit(n.right, true)|
  {
    assert Emit(n, prod) == [Minus] + Emit(n.right, true);
    EncodesSplit(items, i, [Minus], Emit(n.right, true));
    EncodesOne(items, i, Minus);
  }

  lemma BracketItems(items: seq<LexItem>, i: nat, n: Node)
    requires IsSum(n) && Canon(n)
    requires Encodes(items, i, Emit(n, true))
    ensures ItemAt(items, i) == Some(Ok(Open('('))) && ItemAt(items, i + 1 + |Emit(n, false)|) == Some(Ok(Close(')')))
    ensures Encodes(items, i + 1, Emit(n, false))
    ensures |Emit(n, true)| == |Emit(n, false)| + 2
  {
    var inner := Emit(n, false);
    assert Emit(n, true) == [Open('(')] + inner + [Close(')')];
    EncodesSplit3(items, i, [Open('(')], inner, [Close(')')]);
    EncodesOne(items, i, Open('('));
    EncodesOne(items, i + 1 + |inner|, Close(')'));
  }

  lemma EncodesOperation(items: seq<LexItem>, i: nat, l: seq<Token>, op: Token, r: seq<Token>)
    requires Encodes(items, i, l + [op] + r)
    ensures Encodes(items, i, l)
    ensures ItemAt(items, i + |l|) == Some(Ok(op))
    ensures Encodes(items, i + |l| + 1, r)
  {
    EncodesSplit3(items, i, l, [op], r);
    EncodesOne(items, i + |l|, op);
  }

  lemma OperationTokens(n: Node, prod: bool)
    requires Canon(n) && (IsSum(n) || IsProduct(n)) && (IsSum(n) ==> !prod)
    ensures Emit(n, prod) == Emit(n.left, IsProduct(n)) + [OperatorToken(n)] + Emit(n.right, IsProduct(n))
  {
    EmitOperation(n, prod);
  }

  /** Where the tokens of an operator node sit: its left operand, the operator, its right operand. */
  lemma OperationItems(items: seq<LexItem>, i: nat, n: Node, prod: bool)
    requires Canon(n) && (IsSum(n) || IsProduct(n)) && (IsSum(n) ==> !prod)
    requires Encodes(items, i, Emit(n, prod))
    ensures Encodes(items, i, Emit(n.left, IsProduct(n)))
    ensures ItemAt(items, i + |Emit(n.left, IsProduct(n))|) == Some(Ok(OperatorToken(n)))
    ensures Encodes(items, i + |Emit(n.left, IsProduct(n))| + 1, Emit(n.right, IsProduct(n)))
    ensures |Emit(n, prod)| == |Emit(n.left, IsProduct(n))| + 1 + |Emit(n.right, IsProduct(n))|
  {
    OperationTokens(n, prod);
    EncodesOperation(items, i, Emit(n.left, IsProduct(n)), OperatorToken(n), Emit(n.right, IsProduct(n)));
  }

  /** The items from `k` up to `e` are the tokens of a roll's selection, if it has one. */
  predicate SelectionSpans(items: seq<LexItem>, k: nat, select: Option<Node>, e: nat) {
    match select
    case None => e == k
    case Some(s) =>
      && s.Select? && s.next.None?
      && ItemAt(items, k) == Some(Ok(Word(SelectionWord(s.selection))))
      && if s.amount.Some?
         then s.amount.value.Lit? && 0 <= s.amount.value.value <= I32Max && ItemAt(items, k + 1) == Some(Ok(Integer(s.amount.value.value))) && e == k + 2
         else e == k + 1
  }

  /** The items from `i` up to `e` are the tokens of `n` printed with the flag
      `prod`: a parenthesised sum when both hold, and otherwise the node's own
      tokens around the spans of its operands, wherever the operator falls. */
  ghost predicate Spans(items: seq<LexItem>, i: nat, n: Node, prod: bool, e: nat)
    decreases n, if prod && IsSum(n) then 1 else 0
  {
    if prod && IsSum(n) then
      && i + 2 <= e
      && ItemAt(items, i) == Some(Ok(Open('(')))
      && ItemAt(items, e - 1) == Some(Ok(Close(')')))
      && Spans(items, i + 1, n, false, e - 1)
    else
      match n
      case Lit(v) => e == i + 1 && 0 <= v <= I32Max && ItemAt(items, i) == Some(Ok(Integer(v)))
      case Roll(count, sides, select) =>
        && count.Lit? && 0 <= count.value <= I32Max && sides.Lit? && 0 <= sides.value <= I32Max
        && ItemAt(items, i) == Some(Ok(Integer(count.value)))
        && ItemAt(items, i + 1) == Some(Ok(Word("d")))
        && ItemAt(items, i + 2) == Some(Ok(Integer(sides.value)))
        && SelectionSpans(items, i + 3, select, e)
      case Select(_, _, _) => false
      case Neg(right) => ItemAt(items, i) == Some(Ok(Minus)) && Spans(items, i + 1, right, true, e)
      case Add(left, right) =>
        exists k: nat :: Spans(items, i, left, false, k) && ItemAt(items, k) == Some(Ok(Plus)) && Spans(items, k + 1, right, false, e)
      case Sub(left, right) =>
        exists k: nat :: Spans(items, i, left, false, k) && ItemAt(items, k) == Some(Ok(Minus)) && Spans(items, k + 1, right, false, e)
      case Mul(left, right) =>
        exists k: nat :: Spans(items, i, left, true, k) && ItemAt(items, k) == Some(Ok(Times)) && Spans(items, k + 1, right, true, e)
      case Div(left, right) =>
        exists k: nat :: Spans(items, i, left, true, k) && ItemAt(items, k) == Some(Ok(Divide)) && Spans(items, k + 1, right, true, e)
  }

  lemma SelectionSpansEmitted(items: seq<LexItem>, k: nat, select: Option<Node>)
    requires select.Some? ==> SingleSelection(select.value)
    requires Encodes(items, k, SelectTokens(select))
    ensures SelectionSpans(items, k, select, k + |SelectTokens(select)|)
  {
    if select.Some? {
      var n := select.value;
      EmitSelectionTokens(n);
      if n.amount.Some? {
        EncodesTwo(items, k, Word(SelectionWord(n.selection)), Integer(n.amount.value.value));
      } else {
        EncodesOne(items, k, Word(SelectionWord(n.selection)));
      }
    }
  }

  lemma RollSpans(items: seq<LexItem>, i: nat, n: Node, prod: bool)
    requires n.Roll? && Canon(n)
    requires Encodes(items, i, Emit(n, prod))
    ensures Spans(items, i, n, prod, i + |Emit(n, prod)|)
  {
    RollItems(items, i, n, prod);
    SelectionSpansEmitted(items, i + 3, n.select);
  }

  lemma OperandsSpan(items: seq<LexItem>, i: nat, k: nat, e: nat, n: Node, prod: bool)
    requires (IsSum(n) && !prod) || IsProduct(n)
    requires Spans(items, i, n.left, IsProduct(n), k)
    requires ItemAt(items, k) == Some(Ok(OperatorToken(n)))
    requires Spans(items, k + 1, n.right, IsProduct(n), e)
    ensures Spans(items, i, n, prod, e)
  {
  }

  /** The tokens of a canonical tree, wherever they sit among the items, span it. */
  lemma {:induction false} EmittedSpans(items: seq<LexItem>, i: nat, n: Node, prod: bool, e: nat)
    requires Canon(n)
    requires Encodes(items, i, Emit(n, prod)) && e == i + |Emit(n, prod)|
    ensures Spans(items, i, n, prod, e)
    decreases n, if prod && IsSum(n) then 3 else 1
  {
    if prod && IsSum(n) {
      BracketSpans(items, i, n, e);
    } else if n.Lit? {
      EncodesOne(items, i, Integer(n.value));
    } else if n.Roll? {
      RollSpans(items, i, n, prod);
    } else if n.Neg? {
      NegationSpans(items, i, n, prod, e);
    } else {
      OperationSpans(items, i, n, prod, e);
    }
  }

  lemma {:induction false} BracketSpans(items: seq<LexItem>, i: nat, n: Node, e: nat)
    requires IsSum(n) && Canon(n)
    requires Encodes(items, i, Emit(n, true)) && e == i + |Emit(n, true)|
    ensures Spans(items, i, n, true, e)
    decreases n, 2
  {
    BracketItems(items, i, n);
    EmittedSpans(items, i + 1, n, false, e - 1);
  }

  lemma {:induction false} NegationSpans(items: seq<LexItem>, i: nat, n: Node, prod: bool, e: nat)
    requires n.Neg? && Canon(n)
    requires Encodes(items, i, Emit(n, prod)) && e == i + |Emit(n, prod)|
    ensures Spans(items, i, n, prod, e)
    decreases n, 0
  {
    NegationItems(items, i, n, prod);
    EmittedSpans(items, i + 1, n.right, true, e);
  }

  lemma {:induction false} OperationSpans(items: seq<LexItem>, i: nat, n: Node, prod: bool, e: nat)
    requires Canon(n) && (IsSum(n) || IsProduct(n)) && (IsSum(n) ==> !prod)
    requires Encodes(items, i, Emit(n, prod)) && e == i + |Emit(n, prod)|
    ensures Spans(items, i, n, prod, e)
    decreases n, 0
  {
    OperationItems(items, i, n, prod);
    var k := i + |Emit(n.left, IsProduct(n))|;
    EmittedSpans(items, i, n.left, IsProduct(n), k);
    EmittedSpans(items, k + 1, n.right, IsProduct(n), e);
    OperandsSpan(items, i, k, e, n, prod);
  }

  /** Where the operator of a span falls. */
  lemma OperatorPosition(items: seq<LexItem>, i: nat, n: Node, prod: bool, e: nat) returns (k: nat)
    requires (IsSum(n) && !prod) || IsProduct(n)
    requires Spans(items, i, n, prod, e)
    ensures Spans(items, i, n.left, IsProduct(n), k)
    ensures ItemAt(items, k) == Some(Ok(OperatorToken(n)))
    ensures Spans(items, k + 1, n.right, IsProduct(n), e)
  {
    k :| Spans(items, i, n.left, IsProduct(n), k) && ItemAt(items, k) == Some(Ok(OperatorToken(n))) && Spans(items, k + 1, n.right, IsProduct(n), e);
  }

  lemma ProductOperatorEndsFactor(n: Node)
    requires IsProduct(n)
    ensures FactorFollower(Some(Ok(OperatorToken(n))))
  {
  }

  lemma SumOperatorEndsTerm(n: Node)
    requires IsSum(n)
    ensures TermFollower(Some(Ok(OperatorToken(n))))
  {
  }

  // The productions, on the span of a tree.

  lemma SelectionAt(items: seq<LexItem>, k: nat, select: Option<Node>, e: nat)
    requires select.Some? ==> SingleSelection(select.value)
    requires SelectionSpans(items, k, select, e)
    requires FactorFollower(ItemAt(items, e))
    ensures ParseSelection(At(items, k)) == Ok((select, At(items, e)))
  {
    if select.None? {
      NoSelection(items, k);
    } else {
      var n := select.value;
      if n.amount.Some? {
        CountedStep(items, k, n.selection, n.amount.value.value);
      } else if n.selection == Advantage || n.selection == Disadvantage {
        RerollStep(items, k, n.selection);
      } else {
        UncountedStep(items, k, n.selection);
      }
    }
  }

  /** A count, `d`, a die size and a selection. */
  lemma RollParse(items: seq<LexItem>, i: nat, c: LexInt, s: LexInt, select: Option<Node>, la': Tokens)
    requires i + 2 < |items|
    requires ItemAt(items, i) == Some(Ok(Integer(c))) && ItemAt(items, i + 1) == Some(Ok(Word("d"))) && ItemAt(items, i + 2) == Some(Ok(Integer(s)))
    requires s in DieSides
    requires ParseSelection(At(items, i + 3)) == Ok((select, la'))
    ensures ParseFactor(At(items, i)) == Ok((Roll(Lit(c), Lit(s), select), la'))
  {
    CountStep(items, i, c);
    DieStep(items, i + 1, c);
    SidesStep(items, i + 2, c, s, select, la');
  }

  lemma FactorRoll(items: seq<LexItem>, i: nat, n: Node, prod: bool, e: nat)
    requires n.Roll? && Canon(n)
    requires Spans(items, i, n, prod, e)
    requires FactorFollower(ItemAt(items, e))
    ensures ParseFactor(At(items, i)) == Ok((n, At(items, e)))
  {
    SelectionAt(items, i + 3, n.select, e);
    RollParse(items, i, n.count.value, n.sides.value, n.select, At(items, e));
  }

  lemma FactorNeg(items: seq<LexItem>, i: nat, n: Node, prod: bool, e: nat)
    requires n.Neg? && Canon(n)
    requires Spans(items, i, n, prod, e)
    requires FactorFollower(ItemAt(items, e))
    ensures ParseFactor(At(items, i)) == Ok((n, At(items, e)))
    decreases n, 0
  {
    FactorAt(items, i + 1, n.right, true, e);
    NegationStep(items, i, n.right, At(items, e));
  }

  lemma FactorBracket(items: seq<LexItem>, i: nat, n: Node, e: nat)
    requires IsSum(n) && Canon(n)
    requires Spans(items, i, n, true, e)
    requires FactorFollower(ItemAt(items, e))
    ensures ParseFactor(At(items, i)) == Ok((n, At(items, e)))
    decreases n, 4
  {
    SumAt(items, i + 1, n, e - 1);
    BracketStep(items, i, n, e);
  }

  /** A factor's span, followed by anything that ends a factor, parses as that factor. */
  lemma FactorAt(items: seq<LexItem>, i: nat, n: Node, prod: bool, e: nat)
    requires Canon(n) && !IsProduct(n) && (IsSum(n) ==> prod)
    requires Spans(items, i, n, prod, e)
    requires FactorFollower(ItemAt(items, e))
    ensures ParseFactor(At(items, i)) == Ok((n, At(items, e)))
    decreases n, if IsSum(n) then 5 else 1
  {
    if n.Lit? {
      LiteralStep(items, i, n.value);
    } else if n.Roll? {
      FactorRoll(items, i, n, prod, e);
    } else if n.Neg? {
      FactorNeg(items, i, n, prod, e);
    } else {
      FactorBracket(items, i, n, e);
    }
  }

  /** The right operand of a product, after its operator at `k`, folded into the term loop. */
  lemma ProductRight(items: seq<LexItem>, k: nat, n: Node, e: nat)
    requires Canon(n) && ParsedExpr(n) && IsProduct(n)
    requires ItemAt(items, k) == Some(Ok(OperatorToken(n)))
    requires Spans(items, k + 1, n.right, true, e)
    requires FactorFollower(ItemAt(items, e))
    ensures TermTail(n.left, At(items, k)) == TermTail(n, At(items, e))
    decreases n, 0
  {
    FactorAt(items, k + 1, n.right, true, e);
    ProductStep(items, k, n, At(items, e));
  }

  lemma TermPrefixProduct(items: seq<LexItem>, i: nat, n: Node, prod: bool, e: nat)
    requires Canon(n) && ParsedExpr(n) && IsProduct(n)
    requires Spans(items, i, n, prod, e)
    requires FactorFollower(ItemAt(items, e))
    ensures ParseTerm(At(items, i)) == TermTail(n, At(items, e))
    decreases n, 1
  {
    var k := OperatorPosition(items, i, n, prod, e);
    ProductOperatorEndsFactor(n);
    TermPrefix(items, i, n.left, true, k);
    ProductRight(items, k, n, e);
  }

  /** A term's span, followed by anything that ends a factor: the term loop
      is reached with that term as its left operand. */
  lemma TermPrefix(items: seq<LexItem>, i: nat, n: Node, prod: bool, e: nat)
    requires Canon(n) && ParsedExpr(n) && (IsSum(n) ==> prod)
    requires Spans(items, i, n, prod, e)
    requires FactorFollower(ItemAt(items, e))
    ensures ParseTerm(At(items, i)) == TermTail(n, At(items, e))
    decreases n, if IsSum(n) then 6 else 2
  {
    if IsProduct(n) {
      TermPrefixProduct(items, i, n, prod, e);
    } else {
      FactorAt(items, i, n, prod, e);
      TermFromFactor(At(items, i), n, At(items, e));
    }
  }

  /** A term's span, followed by anything that ends a term, parses as that term. */
  lemma TermAt(items: seq<LexItem>, i: nat, n: Node, prod: bool, e: nat)
    requires Canon(n) && (IsSum(n) ==> prod)
    requires Spans(items, i, n, prod, e)
    requires TermFollower(ItemAt(items, e))
    ensures ParseTerm(At(items, i)) == Ok((n, At(items, e)))
    decreases n, if IsSum(n) then 7 else 3
  {
    CanonIsParsed(n);
    TermPrefix(items, i, n, prod, e);
    TermTailStops(items, e, n);
  }

  /** The right operand of a sum, after its operator at `k`, folded into the sum loop. */
  lemma SumRight(items: seq<LexItem>, k: nat, n: Node, e: nat)
    requires Canon(n) && ParsedExpr(n) && IsSum(n)
    requires ItemAt(items, k) == Some(Ok(OperatorToken(n)))
    requires Spans(items, k + 1, n.right, false, e)
    requires TermFollower(ItemAt(items, e))
    ensures SumTail(n.left, At(items, k)) == SumTail(n, At(items, e))
    decreases n, 0
  {
    TermAt(items, k + 1, n.right, false, e);
    SumStep(items, k, n, At(items, e));
  }

  lemma SumPrefixSum(items: seq<LexItem>, i: nat, n: Node, e: nat)
    requires Canon(n) && ParsedExpr(n) && IsSum(n)
    requires Spans(items, i, n, false, e)
    requires TermFollower(ItemAt(items, e))
    ensures ParseSum(At(items, i)) == SumTail(n, At(items, e))
    decreases n, 1
  {
    var k := OperatorPosition(items, i, n, false, e);
    SumOperatorEndsTerm(n);
    SumPrefix(items, i, n.left, k);
    SumRight(items, k, n, e);
  }

  /** A sum's span, followed by anything that ends a term: the sum loop is
      reached with that sum as its left operand. */
  lemma SumPrefix(items: seq<LexItem>, i: nat, n: Node, e: nat)
    requires Canon(n) && ParsedExpr(n)
    requires Spans(items, i, n, false, e)
    requires TermFollower(ItemAt(items, e))
    ensures ParseSum(At(items, i)) == SumTail(n, At(items, e))
    decreases n, if IsSum(n) then 2 else 4
  {
    if IsSum(n) {
      SumPrefixSum(items, i, n, e);
    } else {
      TermAt(items, i, n, false, e);
      SumFromTerm(At(items, i), n, At(items, e));
    }
  }

  /** A sum's span, followed by the end or a closing parenthesis, parses as that sum. */
  lemma SumAt(items: seq<LexItem>, i: nat, n: Node, e: nat)
    requires Canon(n)
    requires Spans(items, i, n, false, e)
    requires SumFollower(ItemAt(items, e))
    ensures ParseSum(At(items, i)) == Ok((n, At(items, e)))
    decreases n, if IsSum(n) then 3 else 5
  {
    CanonIsParsed(n);
    SumPrefix(items, i, n, e);
    SumTailStops(items, e, n);
  }

  /** After the whole sum nothing is left, so the parse is the sum. */
  lemma RootEnds(items: seq<LexItem>, n: Node, la: Tokens)
    requires ParseSum(New(items)) == Ok((n, la)) && la.peek.None?
    ensures ParseItems(items) == Ok(n)
  {
  }

  lemma NewIsAt(items: seq<LexItem>)
    ensures New(items) == At(items, 0)
  {
  }

  lemma ParseSpanned(items: seq<LexItem>, n: Node)
    requires Canon(n) && Spans(items, 0, n, false, |items|)
    ensures ParseItems(items) == Ok(n)
  {
    NewIsAt(items);
    SumAt(items, 0, n, |items|);
    RootEnds(items, n, At(items, |items|));
  }

  /** Items that are exactly a canonical tree's tokens parse as that tree. */
  lemma ParseEncoded(items: seq<LexItem>, n: Node)
    requires Canon(n) && Encodes(items, 0, Emit(n, false)) && |items| == |Emit(n, false)|
    ensures ParseItems(items) == Ok(n)
  {
    EmittedSpans(items, 0, n, false, |items|);
    ParseSpanned(items, n);
  }

  /** The tokens of a canonical tree parse back to the tree. */
  lemma ParseEmitted(n: Node)
    requires Canon(n)
    ensures ParseItems(Oks(Emit(n, false))) == Ok(n)
  {
    var ts := Emit(n, false);
    var items := Oks(ts);
    forall k | 0 <= k < |ts|
      ensures items[0 + k] == Ok(ts[k])
    {
    }
    ParseEncoded(items, n);
  }

  /** The round trip: a canonical tree, printed with the intended multiplication
      sign, parses back to itself. */
  lemma PrintParse(n: Node)
    requires Canon(n)
    ensures Parse(PrintIntended(n)) == Ok(n)
  {
    TokenizePrinted(n, false);
    ParseEmitted(n);
  }

  // The product separator as written.

  /** An integer followed by a lexing error parses as a literal up to the error. */
  lemma LiteralBeforeError(items: seq<LexItem>, i: nat, v: LexInt, e: LexError)
    requires ItemAt(items, i) == Some(Ok(Integer(v))) && ItemAt(items, i + 1) == Some(Err(e))
    ensures ParseFactor(At(items, i)) == Ok((Lit(v), At(items, i + 1)))
  {
    NextFrom(items, i);
  }

  /** Items that begin with an integer and then a lexing error fail with that error. */
  lemma ErrorAfterLiteral(items: seq<LexItem>, v: LexInt, e: LexError)
    requires |items| >= 2 && items[0] == Ok(Integer(v)) && items[1] == Err(e)
    ensures ParseItems(items) == Err(LexFailure(e))
  {
    NewIsAt(items);
    LiteralBeforeError(items, 0, v, e);
    TermFromFactor(At(items, 0), Lit(v), At(items, 1));
    NextFrom(items, 1);
    assert ParseTerm(At(items, 0)) == Err(LexFailure(e));
  }

  /** The text pp.rs gives a product of two literals. */
  lemma PrintedProduct(a: LexInt, b: LexInt)
    ensures Print(Mul(Lit(a), Lit(b))) == Decimal.FromNat(a) + TimesAsWritten + Decimal.FromNat(b)
  {
    assert Render(Lit(a), true, TimesAsWritten) == Decimal.FromNat(a);
    assert Render(Lit(b), true, TimesAsWritten) == Decimal.FromNat(b);
  }

  /** Two integers around a separator that starts and ends with a space lex
      to the integers around the separator's own items. */
  lemma IntegersAround(a: LexInt, sep: string, b: LexInt)
    requires |sep| > 0 && sep[0] == ' ' && sep[|sep| - 1] == ' '
    ensures Tokenize(Decimal.FromNat(a) + sep + Decimal.FromNat(b))
         == [Ok(Integer(a))] + Tokenize(sep) + [Ok(Integer(b))]
  {
    var x, y := Decimal.FromNat(a), Decimal.FromNat(b);
    SeparableBefore(x, sep);
    assert (x + sep)[|x + sep| - 1] == ' ';
    SeparableAfter(x + sep, y);
    TokenizeNat(a);
    TokenizeNat(b);
    TokenizeAround(x, Ok(Integer(a)), sep, Tokenize(sep), y, Ok(Integer(b)));
  }

  lemma TimesAsWrittenSpaced()
    ensures |TimesAsWritten| > 0 && TimesAsWritten[0] == ' ' && TimesAsWritten[|TimesAsWritten| - 1] == ' '
  {
  }

  /** Two integers around a spaced separator whose first item is a lexing
      error do not parse: the parser stops at that error. */
  lemma ErrorSeparatorFails(a: LexInt, sep: string, b: LexInt, e: LexError, x: LexItem)
    requires |sep| > 0 && sep[0] == ' ' && sep[|sep| - 1] == ' '
    requires Tokenize(sep) == [Err(e), x]
    ensures Parse(Decimal.FromNat(a) + sep + Decimal.FromNat(b)) == Err(LexFailure(e))
  {
    var text := Decimal.FromNat(a) + sep + Decimal.FromNat(b);
    IntegersAround(a, sep, b);
    LeadingItems(Tokenize(text), Ok(Integer(a)), Tokenize(sep), [Ok(Integer(b))]);
    ErrorAfterLiteralText(text, a, e);
  }

  lemma LeadingItems(items: seq<LexItem>, first: LexItem, middle: seq<LexItem>, last: seq<LexItem>)
    requires items == [first] + middle + last && |middle| > 0
    ensures |items| >= 2 && items[0] == first && items[1] == middle[0]
  {
  }

  lemma ErrorAfterLiteralText(text: string, v: LexInt, e: LexError)
    requires |Tokenize(text)| >= 2 && Tokenize(text)[0] == Ok(Integer(v)) && Tokenize(text)[1] == Err(e)
    ensures Parse(text) == Err(LexFailure(e))
  {
    ErrorAfterLiteral(Tokenize(text), v, e);
  }

  /** As written, no product of two literals prints to text that parses:
      `2 * 3` prints as `2 Ã— 3`, on which the parser stops at the unknown
      word `Ã`. */
  lemma ProductAsWrittenFails(a: LexInt, b: LexInt)
    ensures Parse(Print(Mul(Lit(a), Lit(b)))) == Err(LexFailure(InvalidWord("\U{00C3}")))
  {
    PrintedProduct(a, b);
    TimesAsWrittenSpaced();
    TokenizeTimesAsWritten();
    ErrorSeparatorFails(a, TimesAsWritten, b, InvalidWord("\U{00C3}"), Err(InvalidCharacter('\U{2014}')));
  }
}
