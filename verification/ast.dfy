/** The abstract syntax tree (src/ast.rs).

    The Rust AST is a set of boxed node structs behind a `Node` trait whose
    `accept` dispatches to one `Visitor` method per node type. Here the closed
    node set is one inductive datatype, and each visitor (the evaluator, the
    printer) is a function that matches on it, one case per node kind. Children
    are values inside their parent, so every tree is finite and structural
    recursion over it terminates. */
module Ast {
  import opened Wrappers

  /** The six selections that can be applied to a pool of dice. */
  datatype Selection = KeepLowest | KeepHighest | DropLowest | DropHighest | Advantage | Disadvantage

  datatype Node =
    | Lit(value: int)
      /** Roll `count` dice of `sides` sides, then apply the optional selection chain. */
    | Roll(count: Node, sides: Node, select: Option<Node>)
      /** A selection over the active pool. `amount` is the Rust field `count`
          (renamed because Dafny gives a field name one type across constructors);
          `next` is the rest of the chain. */
    | Select(selection: Selection, amount: Option<Node>, next: Option<Node>)
    | Neg(right: Node)
    | Add(left: Node, right: Node)
    | Sub(left: Node, right: Node)
    | Mul(left: Node, right: Node)
    | Div(left: Node, right: Node)

  /** A tree the evaluator can run without a stack underflow: `Select` nodes
      appear only as the selection chain of a `Roll` (or the `next` of another
      `Select`), and everywhere else there are value-producing nodes. */
  predicate IsExpr(n: Node)
    decreases n
  {
    match n
    case Lit(_) => true
    case Roll(count, sides, select) =>
      IsExpr(count) && IsExpr(sides) && (select.Some? ==> IsChain(select.value))
    case Select(_, _, _) => false
    case Neg(right) => IsExpr(right)
    case Add(left, right) => IsExpr(left) && IsExpr(right)
    case Sub(left, right) => IsExpr(left) && IsExpr(right)
    case Mul(left, right) => IsExpr(left) && IsExpr(right)
    case Div(left, right) => IsExpr(left) && IsExpr(right)
  }

  /** A selection chain: `Select` nodes linked by `next`, whose counts are value-producing. */
  predicate IsChain(n: Node)
    decreases n
  {
    match n
    case Select(_, amount, next) =>
      (amount.Some? ==> IsExpr(amount.value)) && (next.Some? ==> IsChain(next.value))
    case _ => false
  }
}
