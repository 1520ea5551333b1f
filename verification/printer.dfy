/** The pretty-printer (src/pp.rs): a tree back to dice notation.

    The Rust `PP` visitor writes to an `io::Write` and keeps one flag, `prod`,
    that is set while printing the operands of a product, a quotient or a
    negation, and that makes a sum or difference print inside parentheses.
    Here the flag is a parameter of `Render`, so "restored on exit" is
    automatic, and the text is the function's result. */
module Printer {
  import opened Wrappers
  import opened Ast
  import Decimal

  /** The separator pp.rs writes between the operands of a product: the bytes
      of " × " in UTF-8, read back as Windows-1252, which is " Ã— ". */
  const TimesAsWritten: string := " \U{00C3}\U{2014} "

  /** The separator evidently intended, with the multiplication sign the lexer accepts. */
  const TimesIntended: string := " \U{00D7} "

  /** The word a selection prints as. */
  function SelectionWord(s: Selection): string {
    match s
    case KeepHighest => "kh"
    case KeepLowest => "kl"
    case DropHighest => "dh"
    case DropLowest => "dl"
    case Advantage => "adv"
    case Disadvantage => "dis"
  }

  function Parenthesised(yes: bool, s: string): string {
    if yes then "(" + s + ")" else s
  }

  /** The text of `n` with the flag `prod`, writing `times` between the
      operands of a product. A selection prints its word and its count but
      not the rest of its chain. */
  function Render(n: Node, prod: bool, times: string): (r: string)
    ensures |r| > 0
    decreases n
  {
    match n
    case Lit(v) => Decimal.FromInt(v)
    case Roll(count, sides, select) =>
      Render(count, prod, times) + "d" + Render(sides, prod, times)
      + (if select.Some? then Render(select.value, prod, times) else "")
    case Select(selection, amount, _) =>
      SelectionWord(selection) + (if amount.Some? then Render(amount.value, prod, times) else "")
    case Neg(right) => "-" + Render(right, true, times)
    case Add(left, right) => Parenthesised(prod, Render(left, false, times) + " + " + Render(right, false, times))
    case Sub(left, right) => Parenthesised(prod, Render(left, false, times) + " - " + Render(right, false, times))
    case Mul(left, right) => Render(left, true, times) + times + Render(right, true, times)
    case Div(left, right) => Render(left, true, times) + " / " + Render(right, true, times)
  }

  /** `PP::new` followed by `accept`: printing starts with `prod` unset. */
  function Print(n: Node): string {
    Render(n, false, TimesAsWritten)
  }

  function PrintIntended(n: Node): string {
    Render(n, false, TimesIntended)
  }

  /** The tree with every selection chain cut after its first selection. */
  function FirstSelections(n: Node): (r: Node)
    ensures NoChains(r)
    decreases n
  {
    match n
    case Lit(_) => n
    case Roll(count, sides, select) =>
      Roll(FirstSelections(count), FirstSelections(sides), if select.Some? then Some(FirstSelections(select.value)) else None)
    case Select(selection, amount, _) =>
      Select(selection, if amount.Some? then Some(FirstSelections(amount.value)) else None, None)
    case Neg(right) => Neg(FirstSelections(right))
    case Add(left, right) => Add(FirstSelections(left), FirstSelections(right))
    case Sub(left, right) => Sub(FirstSelections(left), FirstSelections(right))
    case Mul(left, right) => Mul(FirstSelections(left), FirstSelections(right))
    case Div(left, right) => Div(FirstSelections(left), FirstSelections(right))
  }

  /** No selection anywhere in the tree has a `next`. */
  predicate NoChains(n: Node)
    decreases n
  {
    match n
    case Lit(_) => true
    case Roll(count, sides, select) => NoChains(count) && NoChains(sides) && (select.Some? ==> NoChains(select.value))
    case Select(_, amount, next) => next.None? && (amount.Some? ==> NoChains(amount.value))
    case Neg(right) => NoChains(right)
    case Add(left, right) => NoChains(left) && NoChains(right)
    case Sub(left, right) => NoChains(left) && NoChains(right)
    case Mul(left, right) => NoChains(left) && NoChains(right)
    case Div(left, right) => NoChains(left) && NoChains(right)
  }

  /** The printed text does not depend on any selection's `next`: cutting
      every chain after its first selection prints the same. */
  lemma {:induction false} IgnoresChains(n: Node, prod: bool, times: string)
    ensures Render(FirstSelections(n), prod, times) == Render(n, prod, times)
    decreases n
  {
    match n
    case Lit(_) =>
    case Roll(count, sides, select) =>
      IgnoresChains(count, prod, times);
      IgnoresChains(sides, prod, times);
      if select.Some? {
        IgnoresChains(select.value, prod, times);
      }
    case Select(_, amount, _) =>
      if amount.Some? {
        IgnoresChains(amount.value, prod, times);
      }
    case Neg(right) => IgnoresChains(right, true, times);
    case Add(left, right) => IgnoresChains(left, false, times); IgnoresChains(right, false, times);
    case Sub(left, right) => IgnoresChains(left, false, times); IgnoresChains(right, false, times);
    case Mul(left, right) => IgnoresChains(left, true, times); IgnoresChains(right, true, times);
    case Div(left, right) => IgnoresChains(left, true, times); IgnoresChains(right, true, times);
  }

  /** A right-nested difference prints like the left-nested one: `1 - (2 - 3)`
      and `(1 - 2) - 3` both print as `1 - 2 - 3`. */
  lemma DifferenceLosesParentheses()
    ensures Print(Sub(Lit(1), Sub(Lit(2), Lit(3)))) == Print(Sub(Sub(Lit(1), Lit(2)), Lit(3))) == "1 - 2 - 3"
  {
  }
}
