/** What the evaluator computes: arithmetic against an independent
    denotation, a single roll under each strategy, and the total of two
    rolls, where the code as written counts the first roll twice. */
module EvalValues {
  import opened Wrappers
  import opened Ast
  import opened Dice
  import opened Eval

  /** Trees without dice: literals and arithmetic. */
  predicate DiceFree(n: Node) {
    match n
    case Lit(_) => true
    case Neg(right) => DiceFree(right)
    case Add(left, right) => DiceFree(left) && DiceFree(right)
    case Sub(left, right) => DiceFree(left) && DiceFree(right)
    case Mul(left, right) => DiceFree(left) && DiceFree(right)
    case Div(left, right) => DiceFree(left) && DiceFree(right)
    case _ => false
  }

  /** The integer a dice-free expression stands for, with `None` for a
      division by zero anywhere in it. */
  function Denote(n: Node): Option<int>
    requires DiceFree(n)
  {
    match n
    case Lit(v) => Some(v)
    case Neg(right) => if Denote(right).Some? then Some(-Denote(right).value) else None
    case Add(left, right) =>
      if Denote(left).Some? && Denote(right).Some? then Some(Denote(left).value + Denote(right).value) else None
    case Sub(left, right) =>
      if Denote(left).Some? && Denote(right).Some? then Some(Denote(left).value - Denote(right).value) else None
    case Mul(left, right) =>
      if Denote(left).Some? && Denote(right).Some? then Some(Denote(left).value * Denote(right).value) else None
    case Div(left, right) =>
      if Denote(left).Some? && Denote(right).Some? && Denote(right).value != 0
      then Some(TruncDiv(Denote(left).value, Denote(right).value))
      else None
  }

  /** Popping what was just pushed gives the value and the state before. */
  lemma PopPush(st: State, v: int)
    ensures Pop(Push(st, v)) == Ok((v, st))
  {
    assert Push(st, v).results[..|st.results|] == st.results;
  }

  /** A binary node whose left operand pushes `a` (having made the rolls
      `rollsA`) and whose right operand then pushes `b` (having made
      `rollsB`) pushes the operation on `a` and `b`, or fails with its error. */
  lemma BinaryOfPushes(env: Env, n: Node, st: State, a: int, b: int, rollsA: seq<DieRoll>, rollsB: seq<DieRoll>)
    requires n.Add? || n.Sub? || n.Mul? || n.Div?
    requires ValidPools(st) && ValidPools(st.(rolls := rollsA))
    requires Visit(env, n.left, st) == Ok(Push(st.(rolls := rollsA), a))
    requires Visit(env, n.right, st.(rolls := rollsA)) == Ok(Push(st.(rolls := rollsB), b))
    ensures Visit(env, n, st) == if Apply(n, a, b).Ok? then Ok(Push(st.(rolls := rollsB), Apply(n, a, b).value)) else Err(DivideByZero)
  {
    PopPush(st.(rolls := rollsA), a);
    PopPush(st.(rolls := rollsB), b);
    assert Visit(env, n, st) == VisitBinary(env, n, st);
  }

  /** The value a dice-free tree pushes, or its error. */
  predicate Agrees(env: Env, n: Node, st: State)
    requires DiceFree(n) && ValidPools(st)
  {
    Visit(env, n, st) == if Denote(n).Some? then Ok(Push(st, Denote(n).value)) else Err(DivideByZero)
  }

  lemma NegationAgrees(env: Env, n: Node, st: State)
    requires n.Neg? && DiceFree(n) && ValidPools(st)
    requires Agrees(env, n.right, st)
    ensures Agrees(env, n, st)
  {
    if Denote(n.right).Some? {
      PopPush(st, Denote(n.right).value);
    }
  }

  lemma OperationAgrees(env: Env, n: Node, st: State)
    requires (n.Add? || n.Sub? || n.Mul? || n.Div?) && DiceFree(n) && ValidPools(st)
    requires Agrees(env, n.left, st) && Agrees(env, n.right, st)
    ensures Agrees(env, n, st)
  {
    if Denote(n.left).Some? && Denote(n.right).Some? {
      assert st.(rolls := st.rolls) == st;
      BinaryOfPushes(env, n, st, Denote(n.left).value, Denote(n.right).value, st.rolls, st.rolls);
      DenoteOperation(n);
    } else {
      OperandFails(env, n, st);
    }
  }

  /** The denotation of an operation on two denoted operands is the evaluator's operation. */
  lemma DenoteOperation(n: Node)
    requires (n.Add? || n.Sub? || n.Mul? || n.Div?) && DiceFree(n)
    requires Denote(n.left).Some? && Denote(n.right).Some?
    ensures var r := Apply(n, Denote(n.left).value, Denote(n.right).value);
      Denote(n) == if r.Ok? then Some(r.value) else None
  {
  }

  /** An operand without a denotation fails the whole operation. */
  lemma OperandFails(env: Env, n: Node, st: State)
    requires (n.Add? || n.Sub? || n.Mul? || n.Div?) && DiceFree(n) && ValidPools(st)
    requires Agrees(env, n.left, st) && Agrees(env, n.right, st)
    requires Denote(n.left).None? || Denote(n.right).None?
    ensures Visit(env, n, st) == Err(DivideByZero) && Denote(n).None?
  {
    assert Visit(env, n, st) == VisitBinary(env, n, st);
    if Denote(n.left).Some? {
      PopPush(st, Denote(n.left).value);
    }
  }

  /** The evaluator agrees with the denotation on every dice-free tree: it
      pushes the denoted value, or fails with `DivideByZero` exactly when the
      denotation has none. */
  lemma {:induction false} PureArithmetic(env: Env, n: Node, st: State)
    requires DiceFree(n) && ValidPools(st)
    ensures Visit(env, n, st) == if Denote(n).Some? then Ok(Push(st, Denote(n).value)) else Err(DivideByZero)
    decreases n
  {
    if n.Neg? {
      PureArithmetic(env, n.right, st);
      NegationAgrees(env, n, st);
    } else if !n.Lit? {
      PureArithmetic(env, n.left, st);
      PureArithmetic(env, n.right, st);
      OperationAgrees(env, n, st);
    }
  }

  /** The lowest and highest face a die of `sides` sides can show under the strategy. */
  function Lowest(strategy: Evaluation, sides: int): int {
    match strategy
    case Rand(_) => 1
    case Min => 1
    case Mid => TruncDiv(sides, 2)
    case Max => sides
  }

  function Highest(strategy: Evaluation, sides: int): int {
    match strategy
    case Rand(_) => sides
    case Min => 1
    case Mid => TruncDiv(sides, 2)
    case Max => sides
  }

  /** A kept die of `sides` sides whose face is one the strategy can produce. */
  predicate FaceIn(d: DieRoll, strategy: Evaluation, sides: int) {
    d.sides == sides && d.keep && Lowest(strategy, sides) <= d.result <= Highest(strategy, sides)
  }

  lemma DrawnFaceIn(strategy: Evaluation, rolls: seq<DieRoll>, i: nat, sides: int)
    requires i < |rolls| && Drawn(strategy, rolls, i, sides)
    ensures FaceIn(rolls[i], strategy, sides)
  {
  }

  /** The kept total does not depend on the order of the dice. */
  lemma {:induction false} KeptSumPermutation(a: seq<DieRoll>, b: seq<DieRoll>)
    requires multiset(a) == multiset(b)
    ensures KeptSum(a) == KeptSum(b)
    decreases |a|
  {
    if |a| == 0 {
      assert |b| == |multiset(b)| == 0;
    } else {
      var x := a[0];
      assert x in multiset(b) by {
        assert x in multiset(a);
      }
      var j :| 0 <= j < |b| && b[j] == x;
      var rest := b[..j] + b[j + 1..];
      assert b == b[..j] + [x] + b[j + 1..];
      assert a == [x] + a[1..];
      RemoveBoth(a, b, j);
      KeptSumPermutation(a[1..], rest);
      KeptSumAppend(b[..j] + [x], b[j + 1..]);
      KeptSumAppend(b[..j], [x]);
      KeptSumAppend(b[..j], b[j + 1..]);
    }
  }

  /** Taking the same die out of two rearrangements of each other leaves two
      rearrangements of each other. */
  lemma RemoveBoth(a: seq<DieRoll>, b: seq<DieRoll>, j: nat)
    requires multiset(a) == multiset(b) && |a| > 0 && j < |b| && b[j] == a[0]
    ensures multiset(a[1..]) == multiset(b[..j] + b[j + 1..])
  {
    var x := a[0];
    assert b == b[..j] + [x] + b[j + 1..];
    assert a == [x] + a[1..];
    assert multiset(b) == multiset(b[..j]) + multiset{x} + multiset(b[j + 1..]);
    assert multiset(b[..j] + b[j + 1..]) == multiset(b[..j]) + multiset(b[j + 1..]);
    assert multiset(a) == multiset{x} + multiset(a[1..]);
    assert multiset(a[1..]) == multiset(a) - multiset{x};
    assert multiset(b[..j] + b[j + 1..]) == multiset(b) - multiset{x};
  }

  /** A total of `|xs|` kept dice, each showing a face in `[lo, hi]`. */
  lemma {:induction false} KeptSumBounds(xs: seq<DieRoll>, lo: int, hi: int)
    requires forall i :: 0 <= i < |xs| ==> xs[i].keep && lo <= xs[i].result <= hi
    ensures |xs| * lo <= KeptSum(xs) <= |xs| * hi
    decreases |xs|
  {
    if |xs| > 0 {
      KeptSumBounds(xs[1..], lo, hi);
      assert |xs| * lo == (|xs| - 1) * lo + lo;
      assert |xs| * hi == (|xs| - 1) * hi + hi;
    }
  }

  /** Every die of a sorted rearrangement is a die of the original. */
  lemma PermutationMember(s: seq<DieRoll>, t: seq<DieRoll>, i: nat)
    requires multiset(s) == multiset(t) && i < |t|
    ensures exists j :: 0 <= j < |s| && s[j] == t[i]
  {
    assert t[i] in multiset(t);
    assert t[i] in multiset(s);
  }

  /** Rearranging freshly drawn dice keeps each within the strategy's faces. */
  lemma RearrangedFaceIn(strategy: Evaluation, rolls: seq<DieRoll>, sorted: seq<DieRoll>, start: nat, sides: int)
    requires start <= |rolls| == |sorted|
    requires forall i :: start <= i < |rolls| ==> Drawn(strategy, rolls, i, sides)
    requires multiset(sorted[start..]) == multiset(rolls[start..])
    ensures forall i :: 0 <= i < |sorted| - start ==> FaceIn(sorted[start..][i], strategy, sides)
  {
    forall i | 0 <= i < |sorted| - start
      ensures FaceIn(sorted[start..][i], strategy, sides)
    {
      PermutationMember(rolls[start..], sorted[start..], i);
      var j :| 0 <= j < |rolls| - start && rolls[start..][j] == sorted[start..][i];
      DrawnFaceIn(strategy, rolls, start + j, sides);
    }
  }

  /** The top of the results stack. */
  function Top(st: State): int
    requires |st.results| > 0
  {
    st.results[|st.results| - 1]
  }

  /** What `Roll(count, sides, select)` does once its count and sides are
      literals: a negative count aborts, otherwise the dice are rolled. */
  lemma VisitLiteralRoll(env: Env, c: int, s: int, select: Option<Node>, st: State)
    requires ValidPools(st)
    ensures Visit(env, Roll(Lit(c), Lit(s), select), st)
         == if c < 0 then Err(Aborted(NegativeCount)) else RollPool(env, Roll(Lit(c), Lit(s), select), c, s, st)
  {
    PopPush(st, c);
    PopPush(st, s);
    assert Visit(env, Roll(Lit(c), Lit(s), select), st) == VisitRoll(env, Roll(Lit(c), Lit(s), select), st);
  }

  /** Sorting freshly drawn dice after the earlier ones: the earlier dice stay
      in front, each new die keeps a face the strategy can produce, and the
      total splits into the earlier kept dice (when they count) and the new. */
  lemma SortedFresh(env: Env, before: seq<DieRoll>, rolls: seq<DieRoll>, c: nat, s: int)
    requires |rolls| == |before| + c && rolls[..|before|] == before
    requires forall i :: |before| <= i < |rolls| ==> Drawn(env.strategy, rolls, i, s)
    ensures var sorted := SortRange(env.sort, rolls, Pool(|before|, |before| + c), true);
      && |sorted| == |before| + c && sorted[..|before|] == before
      && (forall i :: 0 <= i < c ==> FaceIn(sorted[|before|..][i], env.strategy, s))
      && RollTotal(env.scope, sorted, Pool(|before|, |before| + c))
         == (if env.scope == AllRolls then KeptSum(before) else 0) + KeptSum(sorted[|before|..])
  {
    var pool := Pool(|before|, |before| + c);
    var sorted := SortRange(env.sort, rolls, pool, true);
    assert sorted[|before|..] == sorted[pool.start..pool.end];
    assert rolls[|before|..] == rolls[pool.start..pool.end];
    RearrangedFaceIn(env.strategy, rolls, sorted, |before|, s);
    assert sorted == before + sorted[|before|..];
    KeptSumAppend(before, sorted[|before|..]);
  }

  /** A roll without a selection draws the dice, sorts them and pushes the total. */
  lemma RollPoolUnselected(env: Env, n: Node, c: nat, s: int, st: State)
    requires n.Roll? && n.select.None? && ValidPools(st)
    requires !(env.strategy.Rand? && s < 1 && c > 0)
    ensures RollDice(env.strategy, c, s, st).Ok?
    ensures var rolls := RollDice(env.strategy, c, s, st).value.rolls;
      var sorted := SortRange(env.sort, rolls, Pool(|st.rolls|, |st.rolls| + c), true);
      RollPool(env, n, c, s, st) == Ok(Push(st.(rolls := sorted), RollTotal(env.scope, sorted, Pool(|st.rolls|, |st.rolls| + c))))
  {
    var s3 := RollDice(env.strategy, c, s, st).value;
    assert s3 == st.(rolls := s3.rolls);
  }

  /** The new dice and the total of a roll without a selection. */
  lemma RollWithoutSelection(env: Env, n: Node, c: nat, s: int, st: State)
    requires n.Roll? && n.select.None? && ValidPools(st)
    requires !(env.strategy.Rand? && s < 1 && c > 0)
    ensures var r := RollPool(env, n, c, s, st);
      && r.Ok?
      && |r.value.rolls| == |st.rolls| + c && r.value.rolls[..|st.rolls|] == st.rolls
      && (forall i :: 0 <= i < c ==> FaceIn(r.value.rolls[|st.rolls|..][i], env.strategy, s))
      && |r.value.results| == |st.results| + 1
      && r.value == Push(st.(rolls := r.value.rolls), Top(r.value))
      && Top(r.value) == (if env.scope == AllRolls then KeptSum(st.rolls) else 0) + KeptSum(r.value.rolls[|st.rolls|..])
  {
    RollPoolUnselected(env, n, c, s, st);
    var rolls := RollDice(env.strategy, c, s, st).value.rolls;
    SortedFresh(env, st.rolls, rolls, c, s);
  }

  /** The state after `Roll(Lit(c), Lit(s), None)` from any state: the dice of
      earlier rolls stay, `c` new dice follow, each of `s` sides and kept with
      a face the strategy can produce, and the pushed total adds the new dice
      to (as written) every earlier kept die, or (as intended) to nothing. */
  lemma RollFrom(env: Env, c: nat, s: int, st: State)
    requires ValidPools(st)
    requires !(env.strategy.Rand? && s < 1 && c > 0)
    ensures var r := Visit(env, Roll(Lit(c), Lit(s), None), st);
      && r.Ok?
      && |r.value.rolls| == |st.rolls| + c && r.value.rolls[..|st.rolls|] == st.rolls
      && (forall i :: 0 <= i < c ==> FaceIn(r.value.rolls[|st.rolls|..][i], env.strategy, s))
      && c * Lowest(env.strategy, s) <= KeptSum(r.value.rolls[|st.rolls|..]) <= c * Highest(env.strategy, s)
      && |r.value.results| == |st.results| + 1
      && r.value == Push(st.(rolls := r.value.rolls), Top(r.value))
      && Top(r.value) == (if env.scope == AllRolls then KeptSum(st.rolls) else 0) + KeptSum(r.value.rolls[|st.rolls|..])
  {
    VisitLiteralRoll(env, c, s, None, st);
    RollWithoutSelection(env, Roll(Lit(c), Lit(s), None), c, s, st);
    var rolls := Visit(env, Roll(Lit(c), Lit(s), None), st).value.rolls;
    KeptSumBounds(rolls[|st.rolls|..], Lowest(env.strategy, s), Highest(env.strategy, s));
  }

  /** A single roll of `c` dice with `s` sides on a fresh evaluator, as the
      source's documentation describes the four strategies: the total is `c`
      at the minimum, `c * s` at the maximum, `c * (s / 2)` in the middle, and
      between those two for random dice. */
  lemma SingleRoll(env: Env, c: nat, s: int)
    requires !(env.strategy.Rand? && s < 1 && c > 0)
    ensures var r := Evaluate(env, Roll(Lit(c), Lit(s), None));
      && r.Ok? && |r.value.1| == c
      && (forall i :: 0 <= i < c ==> r.value.1[i].sides == s && r.value.1[i].keep)
      && (env.strategy.Min? ==> r.value.0 == c)
      && (env.strategy.Max? ==> r.value.0 == c * s)
      && (env.strategy.Mid? && s >= 0 ==> r.value.0 == c * (s / 2))
      && (env.strategy.Rand? ==> c <= r.value.0 <= c * s)
  {
    RollFrom(env, c, s, Start);
    var rolls := Visit(env, Roll(Lit(c), Lit(s), None), Start).value.rolls;
    assert rolls[0..] == rolls;
    if env.strategy.Mid? && s >= 0 {
      assert Face(Mid, s, 0) == Ok(s / 2);
    }
  }

  /** Drawing from an empty range: random dice with fewer than one side. */
  lemma RandomEmptyRange(env: Env, c: nat, s: int)
    requires env.strategy.Rand? && s < 1 && c > 0
    ensures Evaluate(env, Roll(Lit(c), Lit(s), None)) == Err(Aborted(EmptyDieRange))
  {
    VisitLiteralRoll(env, c, s, None, Start);
  }

  /** A negative count is where the Rust code panics. */
  lemma NegativeCountAborts(env: Env, c: int, s: int, select: Option<Node>)
    requires c < 0
    ensures Evaluate(env, Roll(Lit(c), Lit(s), select)) == Err(Aborted(NegativeCount))
  {
    VisitLiteralRoll(env, c, s, select, Start);
  }

  /** A roll at the maximum from any state: its new dice total `c * s`, so
      the kept dice grow by `c * s`, and it pushes that, plus (as written)
      every earlier kept die. */
  lemma MaxRollFrom(env: Env, c: nat, s: int, st: State) returns (rolls: seq<DieRoll>)
    requires env.strategy.Max? && ValidPools(st)
    ensures ValidPools(st.(rolls := rolls))
    ensures KeptSum(rolls) == KeptSum(st.rolls) + c * s
    ensures Visit(env, Roll(Lit(c), Lit(s), None), st)
         == Ok(Push(st.(rolls := rolls), (if env.scope == AllRolls then KeptSum(st.rolls) else 0) + c * s))
  {
    rolls := MaxRollPush(env, c, s, st);
    KeptSumSplit(st.rolls, rolls);
  }

  /** The roll at the maximum again, with the dice it leaves named: the
      earlier dice stay in front, and the new ones total `c * s`. */
  lemma MaxRollPush(env: Env, c: nat, s: int, st: State) returns (rolls: seq<DieRoll>)
    requires env.strategy.Max? && ValidPools(st)
    ensures ValidPools(st.(rolls := rolls))
    ensures |st.rolls| <= |rolls| && rolls[..|st.rolls|] == st.rolls
    ensures KeptSum(rolls[|st.rolls|..]) == c * s
    ensures Visit(env, Roll(Lit(c), Lit(s), None), st)
         == Ok(Push(st.(rolls := rolls), (if env.scope == AllRolls then KeptSum(st.rolls) else 0) + c * s))
  {
    RollFrom(env, c, s, st);
    rolls := Visit(env, Roll(Lit(c), Lit(s), None), st).value.rolls;
  }

  /** The kept total of dice that extend `before` splits at the end of `before`. */
  lemma KeptSumSplit(before: seq<DieRoll>, rolls: seq<DieRoll>)
    requires |before| <= |rolls| && rolls[..|before|] == before
    ensures KeptSum(rolls) == KeptSum(before) + KeptSum(rolls[|before|..])
  {
    assert rolls == before + rolls[|before|..];
    KeptSumAppend(before, rolls[|before|..]);
  }

  /** The sum of two rolls at the maximum. As written, the second roll's
      total also counts the first roll's dice, so `a d s + b d t` comes to
      `2 a s + b t`; with totals taken since each roll began it is `a s + b t`. */
  lemma TwoRollsAtMaximum(sort: Sorter, scope: TotalScope, a: nat, s: int, b: nat, t: int)
    ensures var r := Evaluate(Env(Max, sort, scope), Add(Roll(Lit(a), Lit(s), None), Roll(Lit(b), Lit(t), None)));
      && r.Ok?
      && (scope == AllRolls ==> r.value.0 == 2 * (a * s) + b * t)
      && (scope == SinceRoll ==> r.value.0 == a * s + b * t)
  {
    var env := Env(Max, sort, scope);
    var n := Add(Roll(Lit(a), Lit(s), None), Roll(Lit(b), Lit(t), None));
    TwoRollsFrom(env, a, s, b, t, Start);
    assert KeptSum(Start.rolls) == 0;
    var x, y := a * s, b * t;
    OneResult(env, n, x + ((if scope == AllRolls then x else 0) + y));
  }

  /** `a d s + b d t` at the maximum from any state pushes one value: the
      first total, plus the second total, which counts (as written) every
      kept die before it, the first roll's included. */
  lemma TwoRollsFrom(env: Env, a: nat, s: int, b: nat, t: int, st: State)
    requires env.strategy.Max? && ValidPools(st)
    ensures Visit(env, Add(Roll(Lit(a), Lit(s), None), Roll(Lit(b), Lit(t), None)), st).Ok?
    ensures Visit(env, Add(Roll(Lit(a), Lit(s), None), Roll(Lit(b), Lit(t), None)), st).value.results
         == st.results + [TwoMaxTotals(env.scope, KeptSum(st.rolls), a * s, b * t)]
  {
    var rollsA := MaxRollFrom(env, a, s, st);
    var mid := st.(rolls := rollsA);
    var rollsB := MaxRollFrom(env, b, t, mid);
    assert mid.(rolls := rollsB) == st.(rolls := rollsB);
    var before := if env.scope == AllRolls then KeptSum(st.rolls) else 0;
    var second := (if env.scope == AllRolls then KeptSum(rollsA) else 0) + b * t;
    assert second == (if env.scope == AllRolls then before + a * s else 0) + b * t;
    AddOfPushes(env, Roll(Lit(a), Lit(s), None), Roll(Lit(b), Lit(t), None), st,
                before + a * s, second, rollsA, rollsB, TwoMaxTotals(env.scope, KeptSum(st.rolls), a * s, b * t));
  }

  /** What `a d s + b d t` pushes at the maximum, after earlier dice that
      total `earlier`, when the first roll's dice total `x` and the second's `y`. */
  function TwoMaxTotals(scope: TotalScope, earlier: int, x: int, y: int): int {
    var before := if scope == AllRolls then earlier else 0;
    (before + x) + ((if scope == AllRolls then before + x else 0) + y)
  }

  /** The sum of an operand that pushes `first` (leaving the dice `rollsA`)
      and one that then pushes `second` (leaving `rollsB`). */
  lemma AddOfPushes(env: Env, l: Node, r: Node, st: State, first: int, second: int, rollsA: seq<DieRoll>, rollsB: seq<DieRoll>, sum: int)
    requires sum == first + second
    requires ValidPools(st) && ValidPools(st.(rolls := rollsA))
    requires Visit(env, l, st) == Ok(Push(st.(rolls := rollsA), first))
    requires Visit(env, r, st.(rolls := rollsA)) == Ok(Push(st.(rolls := rollsB), second))
    ensures Visit(env, Add(l, r), st).Ok? && Visit(env, Add(l, r), st).value.results == st.results + [sum]
  {
    BinaryOfPushes(env, Add(l, r), st, first, second, rollsA, rollsB);
  }

  /** A tree that leaves one value on an empty stack evaluates to that value. */
  lemma OneResult(env: Env, n: Node, v: int)
    requires Visit(env, n, Start).Ok? && Visit(env, n, Start).value.results == [v]
    ensures Evaluate(env, n).Ok? && Evaluate(env, n).value.0 == v
  {
  }
}
