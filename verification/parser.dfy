/** The recursive-descent parser (src/parser.rs).

    Each production is a function from the lookahead state to the tree it
    builds and the state after it, or a parse error. The Rust functions mutate
    a shared `Lookahead<Lexer>`; here the state is threaded through explicitly,
    and the two `loop`s of `parse_sum` and `parse_term` are the tail-recursive
    `SumTail` and `TermTail`. Every production that succeeds has consumed at
    least one item (the selection chain possibly none), which is what makes the
    recursion terminate. */
module Parser {
  import opened Wrappers
  import opened Lexer
  import opened Lookaheads
  import opened Ast

  /** Where an unexpected token was met; the Rust error carries this as the
      wording of its message. */
  datatype TokenContext = Leftover | InParenthetical | InFactor | InRoll

  /** The parser's errors, with the facts their messages report as fields. */
  datatype ParseError =
    | UnexpectedToken(token: Token, context: TokenContext)
      /** `missingClose` is the bracket the message asks for when a parenthetical is left open. */
    | UnexpectedEnd(missingClose: Option<CloseBracket>)
    | InvalidDie(sides: int)
    | MismatchedParentheses(open: OpenBracket, close: CloseBracket)
    | LexFailure(error: LexError)

  type Tokens = Lookahead<LexItem>

  /** A successful production: what it built and the lookahead state after it. */
  type Parsed<T> = Result<(T, Tokens), ParseError>

  /** The die sizes `parse_roll` accepts after a `d`. */
  const DieSides: set<int> := {4, 6, 8, 10, 12, 20, 100}

  /** The shape of every tree the parser builds: literals are non-negative
      i32 values, a roll's count is a literal and its sides one of the accepted
      die sizes, and selection nodes occur only in a roll's selection chain. */
  predicate ParsedExpr(n: Node) {
    match n
    case Lit(v) => 0 <= v <= I32Max
    case Roll(count, sides, select) =>
      && count.Lit? && 0 <= count.value <= I32Max
      && sides.Lit? && sides.value in DieSides
      && (select.Some? ==> ParsedChain(select.value))
    case Select(_, _, _) => false
    case Neg(right) => ParsedExpr(right)
    case Add(left, right) => ParsedExpr(left) && ParsedExpr(right)
    case Sub(left, right) => ParsedExpr(left) && ParsedExpr(right)
    case Mul(left, right) => ParsedExpr(left) && ParsedExpr(right)
    case Div(left, right) => ParsedExpr(left) && ParsedExpr(right)
  }

  /** A selection chain as `parse_selection` builds it: counts are literals,
      and advantage and disadvantage never carry one. */
  predicate ParsedChain(n: Node) {
    match n
    case Select(selection, amount, next) =>
      && (amount.Some? ==> amount.value.Lit? && 0 <= amount.value.value <= I32Max)
      && (amount.Some? ==> selection != Advantage && selection != Disadvantage)
      && (next.Some? ==> ParsedChain(next.value))
    case _ => false
  }

  /** What every successful production guarantees about the state it returns:
      the same underlying items, and a valid state if it started from one. */
  predicate Follows(la: Tokens, la': Tokens) {
    && la'.items == la.items
    && (Valid(la) ==> Valid(la'))
  }

  /** `sum = term, { ("+" | "-"), term };` */
  function ParseSum(la: Tokens): (r: Parsed<Node>)
    ensures r.Ok? ==> ParsedExpr(r.value.0)
    ensures r.Ok? ==> Remaining(r.value.1) < Remaining(la) && Follows(la, r.value.1)
    decreases Remaining(la), 3
  {
    var first :- ParseTerm(la);
    SumTail(first.0, first.1)
  }

  /** The loop of `parse_sum`: folds further terms into `left`, to the left. */
  function SumTail(left: Node, la: Tokens): (r: Parsed<Node>)
    requires ParsedExpr(left)
    ensures r.Ok? ==> ParsedExpr(r.value.0)
    ensures r.Ok? ==> Remaining(r.value.1) <= Remaining(la) && Follows(la, r.value.1)
    // A lexer error where an operator may stand is the parse's error.
    ensures la.peek.Some? && la.peek.value.Err? ==> r == Err(LexFailure(la.peek.value.error))
    // Anything but `+` or `-` ends the loop there, with `left` and nothing consumed.
    ensures la.peek.None? || (la.peek.value.Ok? && la.peek.value.value != Plus && la.peek.value.value != Minus) ==>
      r == Ok((left, la))
    decreases Remaining(la), 0
  {
    match la.peek
    case Some(Ok(Plus)) =>
      var right :- ParseTerm(Next(la).0);
      SumTail(Add(left, right.0), right.1)
    case Some(Ok(Minus)) =>
      var right :- ParseTerm(Next(la).0);
      SumTail(Sub(left, right.0), right.1)
    case Some(Err(e)) => Err(LexFailure(e))
    case _ => Ok((left, la))
  }

  /** `term = factor, { ("*" | "/"), factor };` */
  function ParseTerm(la: Tokens): (r: Parsed<Node>)
    ensures r.Ok? ==> ParsedExpr(r.value.0)
    ensures r.Ok? ==> Remaining(r.value.1) < Remaining(la) && Follows(la, r.value.1)
    decreases Remaining(la), 2
  {
    var first :- ParseFactor(la);
    TermTail(first.0, first.1)
  }

  /** The loop of `parse_term`: folds further factors into `left`, to the left. */
  function TermTail(left: Node, la: Tokens): (r: Parsed<Node>)
    requires ParsedExpr(left)
    ensures r.Ok? ==> ParsedExpr(r.value.0)
    ensures r.Ok? ==> Remaining(r.value.1) <= Remaining(la) && Follows(la, r.value.1)
    // A lexer error where an operator may stand is the parse's error.
    ensures la.peek.Some? && la.peek.value.Err? ==> r == Err(LexFailure(la.peek.value.error))
    // Anything but `*` or `/` ends the loop there, with `left` and nothing consumed.
    ensures la.peek.None? || (la.peek.value.Ok? && la.peek.value.value != Times && la.peek.value.value != Divide) ==>
      r == Ok((left, la))
    decreases Remaining(la), 0
  {
    match la.peek
    case Some(Ok(Times)) =>
      var right :- ParseFactor(Next(la).0);
      TermTail(Mul(left, right.0), right.1)
    case Some(Ok(Divide)) =>
      var right :- ParseFactor(Next(la).0);
      TermTail(Div(left, right.0), right.1)
    case Some(Err(e)) => Err(LexFailure(e))
    case _ => Ok((left, la))
  }

  /** The two bracket pairs `parse_factor` accepts. */
  predicate Matches(open: OpenBracket, close: CloseBracket) {
    (open == '(' && close == ')') || (open == '[' && close == ']')
  }

  function CloserOf(open: OpenBracket): CloseBracket {
    if open == '(' then ')' else ']'
  }

  /** `factor = "(", sum, ")" | negation | integer | roll;` */
  function ParseFactor(la: Tokens): (r: Parsed<Node>)
    ensures r.Ok? ==> ParsedExpr(r.value.0)
    ensures r.Ok? ==> Remaining(r.value.1) < Remaining(la) && Follows(la, r.value.1)
    // The end of input, a lexer error, or a token that cannot start a factor.
    ensures la.peek.None? ==> r == Err(UnexpectedEnd(None))
    ensures la.peek.Some? && la.peek.value.Err? ==> r == Err(LexFailure(la.peek.value.error))
    ensures la.peek.Some? && la.peek.value.Ok? && !la.peek.value.value.Open? && !la.peek.value.value.Integer?
            && la.peek.value.value != Word("d") && la.peek.value.value != Minus ==>
      r == Err(UnexpectedToken(la.peek.value.value, InFactor))
    decreases Remaining(la), 1
  {
    match la.peek
    case Some(Ok(Open(open))) =>
      var inner :- ParseSum(Next(la).0);
      ParenthesisEnd(open, inner.0, inner.1)
    case Some(Ok(Integer(n))) =>
      var la1, fetched := Next(la).0, Next(la).1;
      if fetched == Some(Ok(Word("d"))) then ParseRoll(la1, n) else Ok((Lit(n), la1))
    case Some(Ok(Word(w))) =>
      if w == "d" then ParseRoll(la, 1) else Err(UnexpectedToken(Word(w), InFactor))
    case Some(Ok(Minus)) =>
      var right :- ParseFactor(Next(la).0);
      Ok((Neg(right.0), right.1))
    case Some(Err(e)) => Err(LexFailure(e))
    case Some(Ok(other)) => Err(UnexpectedToken(other, InFactor))
    case None => Err(UnexpectedEnd(None))
  }

  /** The end of a parenthetical in `parse_factor`: the closing bracket, which
      must pair with `open`. */
  function ParenthesisEnd(open: OpenBracket, inner: Node, la: Tokens): (r: Parsed<Node>)
    ensures r.Ok? ==> r.value.0 == inner
    ensures r.Ok? ==> Remaining(r.value.1) < Remaining(la) && Follows(la, r.value.1)
    ensures r.Ok? <==> la.peek.Some? && la.peek.value.Ok? && la.peek.value.value.Close?
                       && Matches(open, la.peek.value.value.close)
    // The end of input reports the closer that was due; a different closer
    // reports both brackets; any other token or a lexer error is reported as such.
    ensures la.peek.None? ==> r == Err(UnexpectedEnd(Some(CloserOf(open))))
    ensures la.peek.Some? && la.peek.value.Err? ==> r == Err(LexFailure(la.peek.value.error))
    ensures la.peek.Some? && la.peek.value.Ok? && la.peek.value.value.Close? && la.peek.value.value.close != CloserOf(open) ==>
      r == Err(MismatchedParentheses(open, la.peek.value.value.close))
    ensures la.peek.Some? && la.peek.value.Ok? && !la.peek.value.value.Close? ==>
      r == Err(UnexpectedToken(la.peek.value.value, InParenthetical))
  {
    match la.peek
    case Some(Ok(Close(close))) =>
      if Matches(open, close) then Ok((inner, Next(la).0)) else Err(MismatchedParentheses(open, close))
    case Some(Ok(other)) => Err(UnexpectedToken(other, InParenthetical))
    case Some(Err(e)) => Err(LexFailure(e))
    case None => Err(UnexpectedEnd(Some(CloserOf(open))))
  }

  /** `roll = [integer], "d", [integer], [selection];` with the count already
      read by the caller; the slot must show the `d`. */
  function ParseRoll(la: Tokens, count: LexInt): (r: Parsed<Node>)
    ensures r.Ok? ==> ParsedExpr(r.value.0) && r.value.0.Roll? && r.value.0.count == Lit(count)
    ensures r.Ok? ==> Remaining(r.value.1) < Remaining(la) && Follows(la, r.value.1)
    decreases Remaining(la), 0
  {
    match la.peek
    case Some(Ok(Word(w))) =>
      if w != "d" then Err(UnexpectedToken(Word(w), InRoll))
      else
        var la1, fetched := Next(la).0, Next(la).1;
        RollSides(count, la1, fetched)
    case Some(Err(e)) => Err(LexFailure(e))
    case Some(Ok(other)) => Err(UnexpectedToken(other, InRoll))
    case None => Err(UnexpectedEnd(None))
  }

  /** What follows the `d` of a roll, which `next` has just fetched into the
      slot of `la`: an accepted die size, `%` for a hundred sides, or anything
      else, which leaves the default six sides and starts the selection. */
  function RollSides(count: LexInt, la: Tokens, fetched: Option<LexItem>): (r: Parsed<Node>)
    requires la.peek == fetched
    ensures r.Ok? ==> ParsedExpr(r.value.0) && r.value.0.Roll? && r.value.0.count == Lit(count)
    ensures r.Ok? ==> Remaining(r.value.1) <= Remaining(la) && Follows(la, r.value.1)
    // An integer is the number of sides when it is an accepted die size, and an error otherwise.
    ensures fetched.Some? && fetched.value.Ok? && fetched.value.value.Integer? ==>
      var sides := fetched.value.value.n;
      && (sides !in DieSides ==> r == Err(InvalidDie(sides)))
      && (sides in DieSides ==> (r.Ok? <==> ParseSelection(Next(la).0).Ok?))
      && (sides in DieSides && r.Ok? ==> r.value == (Roll(Lit(count), Lit(sides), ParseSelection(Next(la).0).value.0), ParseSelection(Next(la).0).value.1))
    // `%` is a hundred sides, and the selection starts after it.
    ensures fetched == Some(Ok(Percent)) ==>
      && (r.Ok? <==> ParseSelection(Next(la).0).Ok?)
      && (r.Ok? ==> r.value == (Roll(Lit(count), Lit(100), ParseSelection(Next(la).0).value.0), ParseSelection(Next(la).0).value.1))
    // Anything else leaves six sides and consumes nothing: the selection starts at that same item.
    ensures (fetched.None? || (fetched.value.Ok? && !fetched.value.value.Integer? && fetched.value.value != Percent)) ==>
      && (r.Ok? <==> ParseSelection(la).Ok?)
      && (r.Ok? ==> r.value == (Roll(Lit(count), Lit(6), ParseSelection(la).value.0), ParseSelection(la).value.1))
    ensures fetched.Some? && fetched.value.Err? ==> r == Err(LexFailure(fetched.value.error))
    decreases Remaining(la), 1
  {
    if fetched.Some? && fetched.value.Ok? && fetched.value.value.Integer? then
      var sides := fetched.value.value.n;
      if sides in DieSides then
        var select :- ParseSelection(Next(la).0);
        Ok((Roll(Lit(count), Lit(sides), select.0), select.1))
      else Err(InvalidDie(sides))
    else if fetched == Some(Ok(Percent)) then
      var select :- ParseSelection(Next(la).0);
      Ok((Roll(Lit(count), Lit(100), select.0), select.1))
    else if fetched.Some? && fetched.value.Err? then
      Err(LexFailure(fetched.value.error))
    else
      var select :- ParseSelection(la);
      Ok((Roll(Lit(count), Lit(6), select.0), select.1))
  }

  /** The selection words and what each selects: `k` and `kh` keep the highest,
      `d` and `dl` drop the lowest, `adv`/`ad` and `dis`/`da` are the two rerolls. */
  function SelectionOf(w: string): Option<Selection> {
    if w == "k" || w == "kh" then Some(KeepHighest)
    else if w == "kl" then Some(KeepLowest)
    else if w == "d" || w == "dl" then Some(DropLowest)
    else if w == "dh" then Some(DropHighest)
    else if w == "adv" || w == "ad" then Some(Advantage)
    else if w == "dis" || w == "da" then Some(Disadvantage)
    else None
  }

  /** `selection = (("k" | "kh" | "kl" | "d" | "dh" | "dl"), integer | "adv" | "ad" | "dis" | "da"), [selection];`
      where the integer after a keep or drop word is in fact optional. */
  function ParseSelection(la: Tokens): (r: Parsed<Option<Node>>)
    ensures r.Ok? && r.value.0.Some? ==> ParsedChain(r.value.0.value)
    ensures r.Ok? ==> Remaining(r.value.1) <= Remaining(la) && Follows(la, r.value.1)
    ensures r.Ok? && r.value.0.None? ==> r.value.1 == la
    decreases Remaining(la), 0
  {
    match la.peek
    case Some(Ok(Word(w))) =>
      if SelectionOf(w).None? then Ok((None, la))
      else
        var selection := SelectionOf(w).value;
        var la1, fetched := Next(la).0, Next(la).1;
        if selection == Advantage || selection == Disadvantage then
          var next :- ParseSelection(la1);
          Ok((Some(Select(selection, None, next.0)), next.1))
        else
          SelectionCount(selection, la1, fetched)
    case Some(Err(e)) => Err(LexFailure(e))
    case _ => Ok((None, la))
  }

  /** A keep or drop selection whose word `next` has just replaced in the slot
      of `la` by `fetched`: an integer there is its count, and any other token
      leaves the count out. */
  function SelectionCount(selection: Selection, la: Tokens, fetched: Option<LexItem>): (r: Parsed<Option<Node>>)
    requires la.peek == fetched
    requires selection != Advantage && selection != Disadvantage
    ensures r.Ok? ==> r.value.0.Some? && ParsedChain(r.value.0.value)
    ensures r.Ok? ==> Remaining(r.value.1) <= Remaining(la) && Follows(la, r.value.1)
    decreases Remaining(la), 1
  {
    if fetched.Some? && fetched.value.Ok? && fetched.value.value.Integer? then
      var next :- ParseSelection(Next(la).0);
      Ok((Some(Select(selection, Some(Lit(fetched.value.value.n)), next.0)), next.1))
    else if fetched.Some? && fetched.value.Err? then
      Err(LexFailure(fetched.value.error))
    else
      var next :- ParseSelection(la);
      Ok((Some(Select(selection, None, next.0)), next.1))
  }

  /** The parse of an already lexed item sequence: a sum, after which nothing may be left. */
  function ParseItems(items: seq<LexItem>): (r: Result<Node, ParseError>)
    ensures r.Ok? ==> ParsedExpr(r.value)
    // It succeeds exactly when the sum does and no item is left after it, with the sum's tree.
    ensures var root := ParseSum(New(items));
      && (r.Ok? <==> root.Ok? && Stream(root.value.1) == [])
      && (r.Ok? ==> r.value == root.value.0)
      && (root.Err? ==> r == Err(root.error))
    // Otherwise the first leftover item is the error: a token is unexpected, a lexer error is reported.
    ensures var root := ParseSum(New(items));
      root.Ok? && Stream(root.value.1) != [] ==>
        r == Err(if Stream(root.value.1)[0].Ok? then UnexpectedToken(Stream(root.value.1)[0].value, Leftover)
                 else LexFailure(Stream(root.value.1)[0].error))
  {
    var root :- ParseSum(New(items));
    match root.1.peek
    case Some(Ok(t)) => Err(UnexpectedToken(t, Leftover))
    case Some(Err(e)) => Err(LexFailure(e))
    case None => Ok(root.0)
  }

  /** `parse`: lex the input, parse a sum, and reject anything left over. */
  function Parse(input: string): (r: Result<Node, ParseError>)
    ensures r.Ok? ==> ParsedExpr(r.value)
  {
    ParseItems(Tokenize(input))
  }
}
