# roll — a Dafny model of the dice-expression core

`roll` reads dice notation such as `4d6 kh 3 + 2`, parses it into a syntax
tree, evaluates the tree on a stack machine that records every die it rolls,
and prints a tree back as notation. This project models that core as pure
functions and proves properties about them:

- **Lexer.** Whitespace is skipped. A maximal run of digits becomes an integer token.
  A maximal run of letters becomes one of the ten selection words. Every other
  character becomes a single symbol token. (`lexer.dfy`, `lexer_props.dfy`)
- **Lookahead.** A one-item buffer over the token stream. (`lookahead.dfy`)
- **Syntax tree.** The nodes `Lit`, `Roll`, `Select`, `Neg`, `Add`, `Sub`,
  `Mul` and `Div`. (`ast.dfy`)
- **Parser.** A recursive-descent parser for the grammar
  `sum / term / factor / roll / selection`. (`parser.dfy`, `parser_props.dfy`)
- **Evaluator.** The stack evaluator, with its rolls, its results stack and its
  dice-pool stack, under the four strategies: random, minimum, middle and maximum.
  (`dice.dfy`, `eval.dfy`, `eval_props.dfy`, `eval_values.dfy`, `eval_select.dfy`,
  `eval_frame.dfy`)
- **Pretty-printer**, and the round trip from printing back to parsing.
  (`printer.dfy`, `printed_tokens.dfy`, `roundtrip.dfy`)

Modelling choices:

- **Iterators and visitors.** The Rust iterator and visitor objects become
  sequences and state values that are threaded through the functions. A tree
  is an immutable datatype, and `accept` is a `match` on it.
- **Random numbers and sorting.** The random number generator is a parameter: a
  function from the draw index and the number of sides to a face. The unstable
  sort is also a parameter, constrained to return a sorted permutation.
  `InsertionSort` is one sorter that meets that constraint.
- **Panics.** Where the Rust code would panic, the model returns an explicit
  `Aborted` error or lexer error instead.

## Model

| member | source | states |
|---|---|---|
| Decimal.ValueOfFromNat | src/lexer.rs:108-117 | the digit text the printer writes for a natural number reads back, in base ten, as that number |
| Lexer.Span | src/lexer.rs:112 | the length of the maximal prefix whose characters all satisfy the predicate: every character before it does, the one at it does not |
| Lexer.Lexeme | src/lexer.rs:108-148 | one item is cut off a text that starts with a non-blank character, and what is left is a proper suffix |
| Lexer.Scan | src/lexer.rs:93-149 | the lexer's `next` returns no item exactly when the rest of the input is all whitespace, and then nothing is left; otherwise it consumes at least one character |
| Lexer.Tokenize | src/lexer.rs:93-149 | the iterator yields at most one item per input character |
| LexerProps.TokenizeSkipsWhitespace | src/lexer.rs:98-101 | leading whitespace never changes the items |
| LexerProps.TokenizeWhitespaceOnly | src/lexer.rs:103-106 | input that is all whitespace yields no item |
| LexerProps.ScanFused | src/lexer.rs:103-106 | after `None`, the lexer keeps returning `None` |
| LexerProps.ScanInteger | src/lexer.rs:108-117 | a maximal digit run is one item: the integer when its value fits in an i32, and an integer-parse error otherwise |
| LexerProps.ScanWord | src/lexer.rs:119-133 | a maximal letter run is one item: `Word` when it is one of the ten valid words, `InvalidWord` otherwise |
| LexerProps.ScanSymbol | src/lexer.rs:135-148 | any other character is one item, and the rest of the input is left untouched |
| LexerProps.SymbolTable | src/lexer.rs:137-148 | each symbol character maps to its token, in both directions: `×` and `÷` are synonyms of `*` and `/`; every other character is `InvalidCharacter` |
| LexerProps.TokenizeAppend | src/lexer.rs:93-149 | lexing two texts joined where no digit or letter run crosses the seam gives the concatenation of their items |
| LexerProps.TokenizeWellFormed | src/lexer.rs:119-133 | every word the lexer yields is one of the ten valid words |
| LexerProps.UnlexRoundTrip | src/lexer.rs:26-55 | lexing the space-separated texts of any lexable tokens gives exactly those tokens back |
| LexerProps.IntegerThenWord | src/lexer.rs:108-133 | an integer directly followed by letters is two items, and the letters are one whole word |
| Lookaheads.Next | src/lookahead.rs:22-26 | `next` returns the following underlying item and stores the same item in the slot; it preserves the slot invariant; it leaves an exhausted lookahead unchanged; it shrinks the remaining count while an item is buffered |
| Lookaheads.NextStream | src/lookahead.rs:18-26 | each `next` on a full slot drops exactly the first item of what is still to be seen |
| Lookaheads.New | src/lookahead.rs:12-16 | `new` loads the first underlying item into the slot, so the items still to be seen are the whole stream |
| Lookaheads.PeekSequence | src/lookahead.rs:12-26 | after `k` calls of `next`, `peek` shows item `k`, or `None` once past the end |
| Lookaheads.ExhaustedStaysExhausted | src/lookahead.rs:22-26 | once the slot is empty, further `next` calls change nothing and return `None` |
| Lookaheads.ValidIsAt | src/lookahead.rs:6-9 | every state satisfying the slot invariant is the state positioned at some item |
| Parser.ParseSum | src/parser.rs:65-86 | a parsed sum is a well-shaped expression, built after consuming at least one item |
| Parser.SumTail | src/parser.rs:70-85 | the loop folds further terms to the left, keeps the tree well-shaped and never goes back |
| Parser.ParseTerm | src/parser.rs:91-112 | a parsed term is a well-shaped expression, built after consuming at least one item |
| Parser.TermTail | src/parser.rs:96-111 | the loop folds further factors to the left, keeps the tree well-shaped and never goes back |
| Parser.ParseFactor | src/parser.rs:118-177 | a parsed factor is a well-shaped expression, built after consuming at least one item |
| Parser.ParenthesisEnd | src/parser.rs:122-150 | a parenthetical succeeds only on a closing bracket, and then its value is the inner sum |
| Parser.ParseRoll | src/parser.rs:183-233 | a parsed roll has the given literal count, one of the accepted die sizes and a well-formed selection chain |
| Parser.RollSides | src/parser.rs:190-221 | what follows the `d` decides the sides. An integer in the accepted set is the side count, and the selection is parsed after it. Any other integer is `InvalidDie` with that value. `%` is a hundred sides, and the selection is parsed after it. A lexer error is `LexFailure`. Anything else, or the end of input, gives six sides, consumes nothing, and starts the selection at that same item. The roll always has the given count |
| Parser.ParseSelection | src/parser.rs:248-310 | a selection chain has literal counts only on keeps and drops; with no selection word, nothing is consumed |
| Parser.SelectionCount | src/parser.rs:251-286 | a keep or drop yields a selection node with its optional count and its chain |
| Parser.ParseItems | src/parser.rs:39-51 | the parse succeeds exactly when the sum succeeds and no item is left after it, and then its tree is the sum's tree, a well-shaped expression. An error of the sum is the parse's error. A leftover item is the error: `UnexpectedToken` at the first leftover token, or `LexFailure` for a lexer error |
| Parser.Parse | src/parser.rs:39-59 | a successful parse of the text is a well-shaped expression |
| ParserProps.ParsedIsExpr | src/ast.rs:75-121 | every parsed tree is evaluable: selections appear only in the chains of rolls |
| ParserProps.ParsedIsChain | src/ast.rs:83-87 | every parsed selection chain consists of selections only |
| ParserProps.ParseBlank | src/parser.rs:175 | blank input ends unexpectedly, with no bracket missing |
| ParserProps.FirstLexError | src/parser.rs:169 | a lexer error in the first item is the error of the whole parse |
| ParserProps.SubtractionIsLeftAssociative | src/parser.rs:65-86 | `1 - 2 - 3` parses as `(1 - 2) - 3` |
| ParserProps.ProductBindsTighter | src/parser.rs:91-112 | `1 + 2 * 3` parses as `1 + (2 * 3)` |
| ParserProps.BareDie | src/parser.rs:161-221 | a bare `d` is one six-sided die: the count defaults to 1 and the sides to 6 |
| ParserProps.PercentDie | src/parser.rs:202-210 | `2d%` is two hundred-sided dice |
| ParserProps.SevenSidedDie | src/parser.rs:190-201 | a die size outside the accepted set is an `InvalidDie` error |
| ParserProps.SelectionChain | src/parser.rs:248-310 | `4d6 kh 3 dl` chains a counted keep and an uncounted drop |
| ParserProps.SecondDIsDrop | src/parser.rs:251-286 | a `d` after a roll is a drop-lowest selection |
| ParserProps.MismatchedBrackets | src/parser.rs:122-150 | `(1]` is a bracket mismatch that reports both brackets |
| ParserProps.UnclosedBracket | src/parser.rs:122-150 | an unclosed `[` reports the `]` it is missing |
| ParserProps.LeftoverToken | src/parser.rs:44-50 | tokens left after a complete expression are rejected at the first of them |
| Dice.Face | src/eval.rs:120-127 | a die's face: 1 at the minimum, the side count at the maximum, half the side count (rounded down) in the middle for a non-negative side count, and for random dice a face between 1 and the side count; it aborts exactly when random dice have no side |
| Dice.TruncDiv | src/eval.rs:329 | Rust's integer division: the magnitude of the quotient, and its sign, for each combination of operand signs |
| Dice.Insert | src/eval.rs:142 | inserting a die into a sorted sequence keeps it sorted and adds exactly that die |
| Dice.InsertionSort | src/eval.rs:187-193 | one admissible `sort_unstable_by`: the result is a sorted permutation of the input |
| Eval.Pop | src/eval.rs:111-113 | a pop removes the top result and changes nothing else; it fails exactly on an empty stack, with `StackUnderflow` |
| Eval.RollDice | src/eval.rs:120-133 | the draw loop appends exactly `count` new kept dice with the given sides and the strategy's faces, and leaves every earlier die as it was; it aborts exactly when random dice with no side are drawn |
| Eval.RerollPool | src/eval.rs:220-234 | the reroll loop appends one new die per die of the pool, with that die's sides and the face of its draw |
| Eval.SortRange | src/eval.rs:187-193 | sorting a pool rearranges only that slice of the rolls, into order |
| Eval.Mark | src/eval.rs:195-201 | every die outside the range is unchanged. Every die inside it gets the given flag and keeps its sides and its face. The length is unchanged |
| Eval.Apply | src/eval.rs:273-331 | the arithmetic operation fails exactly on division by zero, with `DivideByZero` |
| Eval.Visit | src/ast.rs:123-169 | a successful visit never shortens the rolls, leaves the pool stack as it found it, and keeps every pool within the rolls (which dice it may change is `EvalFrame.VisitFrame`) |
| Eval.VisitSelect | src/eval.rs:155-159 | a selection with no active pool is a `StackUnderflow` |
| Eval.SelectionSize | src/eval.rs:172-178 | a keep or drop with no count selects one die |
| Eval.VisitBinary | src/eval.rs:273-331 | `add`, `sub`, `mul` and `div` visit the left operand, then the right, then apply the operation. A successful one never shortens the rolls and leaves the pool stack as it found it. That it pushes exactly one result is `EvalProps.BinarySound`, its value on dice-free trees is `EvalValues.PureArithmetic`, and its frame is `EvalFrame.VisitFrame` |
| Eval.WithPool | src/eval.rs:136-140 | pushing a pool, visiting the selection and popping the pool leaves the pool stack as it was and never shortens the rolls. Which dice it may change is `EvalFrame.WithPoolFrame`, and that a chain under it pushes nothing is `EvalFrame.ChainFrame` |
| Eval.VisitRoll | src/eval.rs:109-135 | a roll visits its count and then its sides, and never shortens the rolls or changes the pool stack. That it pushes one result is `EvalProps.RollSound`, a negative count is `EvalValues.NegativeCountAborts`, and the total for any chain from any state is `EvalFrame.RollTotalFrom` |
| Eval.RollPool | src/eval.rs:120-153 | the dice, the selection chain over the new pool, the sort and the total leave the pool stack as it was. The dice it appends are `Eval.RollDice`, the frame is `EvalFrame.RollPoolFrame`, and the total is `EvalFrame.RollTotalFrom` |
| Eval.RollTotal | src/eval.rs:144-148 | as written, a roll's total is the kept total of every die before its pool plus the kept total from the pool's start on. Under the corrected scope it is the whole kept total less that of the dice before the pool |
| Eval.KeepDrop | src/eval.rs:161-216 | a keep or drop never shortens the rolls and leaves the pool stack as it found it. A count larger than the pool is `EvalSelect.SelectAmount` and `EvalSelect.KeepTooMany`, and the rest is `Eval.Narrow` |
| Eval.Narrow | src/eval.rs:187-213 | the sort, the marking and the rest of the chain never shorten the rolls and leave the pool stack as they found it. What the sort and marking do is `EvalSelect.NarrowMarks`, the rest of the chain is `EvalFrame.NarrowChain`, and the frame is `EvalFrame.NarrowFrame` |
| Eval.Reroll | src/eval.rs:218-257 | advantage and disadvantage never shorten the rolls and leave the pool stack as they found it. Which pool is kept is `EvalSelect.RerollPicks`, the rest of the chain is `EvalFrame.RerollChain`, and the frame is `EvalFrame.RerollFrame` |
| EvalSelect.PickPoolPrefers | src/eval.rs:236-251 | `Eval.PickPool` keeps one of the two pools and drops the other. Advantage keeps a pool whose face total is at least the other's, and disadvantage one whose total is at most the other's. On a tie advantage keeps the original dice and disadvantage the new ones |
| EvalProps.EvaluateSound | src/eval.rs:95-100 | `Eval.Evaluate` of an expression on a fresh evaluator succeeds exactly when the visit does. The visit then left exactly one result, which is the value, together with every die rolled. It never fails with `StackUnderflow`, an error is the visit's error, and with safe rolls it never aborts |
| EvalProps.VisitSound | src/eval.rs:103-331 | stack discipline: an evaluable expression pushes exactly one result on top of the stack it found, and a selection chain pushes none; neither ever fails with `StackUnderflow`; when every roll count is a non-negative literal and every side count a positive literal, neither aborts |
| EvalProps.BinarySound | src/eval.rs:273-331 | an arithmetic node pushes exactly one result |
| EvalProps.RollSound | src/eval.rs:109-153 | a roll pushes exactly one result, and restores the pool stack after its selection |
| EvalProps.SelectSound | src/eval.rs:155-262 | a selection chain leaves the results stack as it was |
| EvalProps.KeepDropSound | src/eval.rs:161-216 | a keep or drop leaves the results stack as it was |
| EvalProps.RerollSound | src/eval.rs:218-260 | advantage and disadvantage leave the results stack as they were |
| EvalProps.RerollNoAbort | src/eval.rs:220-234 | rerolling dice that all have sides never aborts, and the new dice have sides too |
| EvalValues.PureArithmetic | src/eval.rs:264-331 | on a tree without dice, the evaluator pushes exactly the value of an independent denotation (negation, sum, difference, product, and quotient truncated toward zero), or fails with `DivideByZero` exactly when the denotation has a zero divisor |
| EvalValues.SingleRoll | src/eval.rs:109-153 | a roll of `c` dice with `s` sides yields `c` kept dice with `s` sides; the total is `c` at the minimum, `c*s` at the maximum, `c*(s/2)` in the middle, and between `c` and `c*s` for random dice |
| EvalValues.RollFrom | src/eval.rs:109-153 | a roll without a selection, from any state, keeps the earlier dice and appends `c` kept dice of `s` sides, each with a face the strategy can produce. It pushes one total: the new dice's kept faces, plus every earlier kept face as written, or nothing more when the total counts only its own roll |
| EvalValues.RandomEmptyRange | src/eval.rs:122 | random dice with fewer than one side abort: the range to draw from is empty |
| EvalValues.NegativeCountAborts | src/eval.rs:135 | a negative count aborts at the pool computation |
| EvalValues.KeptSumPermutation | src/eval.rs:142-148 | the kept total does not depend on the order of the dice, so the sort cannot change it |
| EvalValues.KeptSumBounds | src/eval.rs:144-148 | `k` kept dice with faces in `[lo, hi]` total between `k*lo` and `k*hi` |
| EvalValues.TwoRollsAtMaximum | src/eval.rs:144-148 | at the maximum, `a d s + b d t` comes to `2as + bt` as written, and to `as + bt` when each total counts only its own roll's dice |
| EvalSelect.NarrowMarks | src/eval.rs:187-201 | a keep or drop with nothing after it changes only its pool. The pool's dice are rearranged, with the counted dice first: the highest for `kh`/`dh`, the lowest for `kl`/`dl`. The counted dice are flagged kept for a keep and dropped for a drop, and the rest get the opposite flag |
| EvalSelect.SelectAmount | src/eval.rs:172-178 | the count is the literal's value converted to `usize`, or 1 when it is absent |
| EvalSelect.KeepTooMany | src/eval.rs:180-185 | keeping more dice than were rolled fails with `InvalidSelection`, reporting the selection size and the pool size |
| EvalSelect.KeepAtMinimum | src/eval.rs:161-216 | at the minimum, `c d s kh k` totals `k` |
| EvalSelect.RerollPicks | src/eval.rs:218-251 | advantage and disadvantage with nothing after them append one reroll per pool die. The new dice are kept exactly when "the new total is higher" agrees with "this is advantage", and then the old pool is dropped; otherwise the new dice are dropped. The results stack and the pool stack are unchanged |
| EvalSelect.TieAtMaximum | src/eval.rs:239-251 | at the maximum a single die ties with its reroll. Advantage then keeps the original die and disadvantage keeps the reroll, and either way the total is the face |
| EvalFrame.VisitFrame | src/eval.rs:103-262 | a successful visit changes no die rolled before it, except the dice of the active pool (the top of the pool stack) when the node is not an expression; an expression changes none |
| EvalFrame.WithPoolFrame | src/eval.rs:136-140 | a visit with a pool pushed as the active pool changes no earlier die outside that pool |
| EvalFrame.RollPoolFrame | src/eval.rs:120-142 | the new dice, the selection chain over the new pool and the pool's sort change no earlier die |
| EvalFrame.NarrowFrame | src/eval.rs:187-213 | the sort, both marking loops and the rest of a keep or drop chain change no die outside its pool |
| EvalFrame.RerollFrame | src/eval.rs:218-257 | the rerolls, the marking of the dropped pool and the rest of the chain change no earlier die outside the pool |
| EvalFrame.ExprFrame | src/ast.rs:123-169 | an expression never changes a die rolled before it: the earlier rolls are a prefix of the rolls after it |
| EvalFrame.ChainFrame | src/eval.rs:136-140 | a selection chain run under a pool pushes no result, restores the pool stack, and changes no earlier die outside the pool |
| EvalFrame.NarrowChain | src/eval.rs:187-213 | a keep or drop followed by more of the chain first sorts and marks exactly as without it (`EvalSelect.NarrowMarks`). It then runs the rest of the chain under the counted dice for a keep, or under the remaining dice for a drop. Those dice lie inside the pool, and the rest of the chain changes no die outside them and pushes no result |
| EvalFrame.RerollChain | src/eval.rs:218-257 | advantage or disadvantage followed by more of the chain first rerolls and marks exactly as without it (`EvalSelect.RerollPicks`). It then runs the rest of the chain under the kept pool: the new dice when their total is the one preferred, the original pool otherwise. The rest of the chain changes no die outside that pool and pushes no result; an error of the reroll is the error of the whole |
| EvalFrame.RollTotalFrom | src/eval.rs:109-153 | a roll with literal count and sides and any selection chain, from any state, keeps the earlier dice in front and the pool stack as it was. It pushes exactly one result: the kept faces of the dice it added (its pool and any rerolls), plus every earlier kept face as written, or nothing more when the total counts only its own roll |
| EvalSelect.NoneKept | src/eval.rs:144-148 | dice that are all dropped total zero |
| Printer.Render | src/pp.rs:31-136 | every printed text is non-empty |
| Printer.FirstSelections | src/pp.rs:48-63 | cutting every selection chain after its first selection leaves a tree with no chains |
| Printer.IgnoresChains | src/pp.rs:48-63 | the printed text never depends on a selection's `next` |
| Printer.DifferenceLosesParentheses | src/pp.rs:94-112 | `1 - (2 - 3)` and `(1 - 2) - 3` both print as `1 - 2 - 3` |
| PrintedTokens.TokenizePrinted | src/pp.rs:31-136 | the printed text of a canonical tree, with the intended multiplication sign, lexes to exactly the tokens of the tree |
| PrintedTokens.TokenizeTimesAsWritten | src/pp.rs:119 | the product separator as written lexes as an invalid word followed by an invalid character |
| RoundTrip.ParseEmitted | src/parser.rs:39-310 | the tokens of a canonical tree parse back to that tree |
| RoundTrip.PrintParse | src/pp.rs:31-136 | round trip: a canonical tree, printed with the intended multiplication sign, parses back to itself |
| RoundTrip.ProductAsWrittenFails | src/pp.rs:114-124 | any product of two literals, printed as written, fails to parse, with a lexer error on `Ã` |
| RoundTrip.ErrorAfterLiteral | src/parser.rs:65-112 | a lexer error right after a literal is the error of the whole parse |

## Left out

- `main.rs`, `dot.rs` and `graph.rs`: the command line, the Graphviz output and the
  evaluation graph are not part of this model.
- The random number generator is a parameter.
  - `Dice.Face` only assumes that a random face lies in `1..=sides`. It is not
    given any distribution.
  - `sort_unstable_by` is a parameter that must return a sorted permutation. Which
    of the equal faces it puts first is not modelled.
- Error messages are not modelled: the `Display` texts of the parser's and the
  evaluator's errors, the ANSI-coloured `Display` of `DieRoll` (eval.rs:334-369),
  and the message wording of `UnexpectedToken`. The model keeps each error's
  kind and the facts its message reports.
- Eval.Apply: sums, differences, products, negations and roll totals are
  unbounded integers. The model does not reproduce i32 overflow (a panic in debug
  builds and wrap-around in release builds), because the two build modes differ.
  `i32::MIN / -1` is not modelled either.
- Lexer.IsAlphabetic: Unicode `is_alphabetic` is modelled only for the
  characters up to U+00FF. A higher letter is not read as part of a word: it
  counts as a symbol, and therefore becomes an `InvalidCharacter`. Whitespace is
  not cut off: `Lexer.IsWhitespace` covers every White_Space character.
- Lexer.Tokenize: in lexer.rs, an invalid word, an invalid character and an
  integer too large for i32 all panic, yet parser.rs expects items that may be
  lexer errors, which it reports as `LexFailure`. The model follows parser.rs: the
  lexer yields `Err(InvalidWord)`, `Err(InvalidCharacter)` or `Err(IntegerParse)`
  at those three places and carries on after them.
- Printer.Render: a selection prints only its own word and count, not the rest of
  its chain. That is what pp.rs does, and `Printer.IgnoresChains` states it.
- RoundTrip.PrintParse: the round trip is proved for canonical trees only. These
  are the trees the parser can produce, in the form that printing preserves:
  - literals within i32;
  - rolls with literal counts and accepted sides;
  - at most one selection;
  - no sum as the right operand of a sum, and no product as the right operand of
    a product or of a negation.

  Other trees do not survive printing, because pp.rs drops their parentheses
  (`Printer.DifferenceLosesParentheses`).
- EvalFrame.RollTotalFrom: the roll's selection must be a selection chain, as
  the selection of every parsed roll is (`ParserProps.ParsedIsChain`). A tree
  built by hand with an expression in that place pushes extra results, and is not
  covered.
- Lookaheads: the wrapped iterator is the sequence of everything it will yield,
  plus a cursor. Laziness is not modelled.
- Eval.Visit: `Evaluator::eval` clears `rolls` but not the results or the pool
  stacks. `Eval.Evaluate` always starts from an empty evaluator, so reusing an
  evaluator after an error is not modelled.

## Findings

| source | as written | input that shows it | evidently intended | confidence | as-written member | corrected member |
|---|---|---|---|---|---|---|
| src/eval.rs:144-148 | a roll's total sums the kept faces of every roll made so far in the evaluation, not only the dice of this roll | `1d6 + 1d6` at the maximum evaluates to 18 | the kept dice this roll added (its pool and any rerolls), which gives 12 | not executed | EvalValues.TwoRollsAtMaximum | EvalFrame.RollTotalFrom |
| src/pp.rs:119 | a product prints its separator as `" Ã— "`: the UTF-8 bytes of `×` mis-decoded as Windows-1252 | `Mul(Lit(2), Lit(3))` prints as `2 Ã— 3`, which fails to lex on the word `Ã` | `" × "`, which the lexer reads as `Times` | not executed | RoundTrip.ProductAsWrittenFails | RoundTrip.PrintParse |

In the first row, `Eval.TotalScope` picks which rolls a total covers:

- `AllRolls` is the code as written.
- `SinceRoll` is the corrected scope, which counts only the kept dice this roll
  added (its pool and any rerolls).

`EvalValues.TwoRollsAtMaximum` proves both the as-written and the intended result
for every `a`, `s`, `b` and `t`. `EvalFrame.RollTotalFrom` shows that under
`SinceRoll` the total of any roll, with or without a selection chain, is exactly
the kept faces of the dice it added; `EvalValues.RollFrom` adds the bounds of those
faces for a roll without a selection. The other
evaluation lemmas take the scope as a parameter and hold under both.

In the second row, `Printer.Print` renders with the separator as written, and
`Printer.PrintIntended` renders with the intended `×`.
