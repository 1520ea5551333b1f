/** The stack-machine evaluator (src/eval.rs).

    The Rust `Evaluator` is a visitor with three vectors it mutates: the rolls
    made so far, the stack of intermediate results, and the stack of active
    dice pools. Here those are the fields of an immutable `State`, and each
    visit is a function from the state before to the state after, or the
    error that stopped it. The random number generator and the unstable sort
    are parameters (an `Oracle` and a `Sorter`); the panics of the Rust code
    are the `Aborted` error. */
module Eval {
  import opened Wrappers
  import opened Ast
  import opened Dice

  /** `Range<usize>` over the rolls: the half-open interval `start..end`. */
  datatype Pool = Pool(start: nat, end: nat)

  /** `Range::len`: empty when the bounds are reversed. */
  function Len(p: Pool): nat {
    if p.start <= p.end then p.end - p.start else 0
  }

  datatype EvalError =
    | InvalidSelection(selectionSize: nat, poolSize: nat)
    | DivideByZero
    | StackUnderflow
      /** Where the Rust code panics instead of returning an error. */
    | Aborted(reason: Abort)

  /** Which rolls a `Roll` node's total adds up. The code as written adds every
      kept roll of the whole evaluation; the intended total adds only the
      kept rolls made since this roll began (its pool and any rerolls of it). */
  datatype TotalScope = AllRolls | SinceRoll

  /** What stays fixed through one evaluation: the strategy, the sort, and the
      scope of roll totals. */
  datatype Env = Env(strategy: Evaluation, sort: Sorter, scope: TotalScope)

  /** The evaluator's three vectors; the top of each stack is its last element. */
  datatype State = State(rolls: seq<DieRoll>, results: seq<int>, pools: seq<Pool>)

  const Start := State([], [], [])

  predicate PoolIn(p: Pool, rolls: seq<DieRoll>) {
    p.start <= p.end <= |rolls|
  }

  /** Every active pool lies within the rolls, so indexing by it never panics. */
  predicate ValidPools(st: State) {
    forall i :: 0 <= i < |st.pools| ==> PoolIn(st.pools[i], st.rolls)
  }

  /** What every successful visit guarantees: rolls are only ever added, the
      pool stack is as it was, and its pools are still valid. */
  predicate Extends(st: State, st': State) {
    && |st.rolls| <= |st'.rolls|
    && st'.pools == st.pools
    && ValidPools(st')
  }

  function Push(st: State, v: int): State {
    st.(results := st.results + [v])
  }

  /** `results.pop()`, with an empty stack a `StackUnderflow`. */
  function Pop(st: State): (r: Result<(int, State), EvalError>)
    ensures r.Ok? ==> r.value.1.rolls == st.rolls && r.value.1.pools == st.pools
    ensures r.Ok? ==> st.results == r.value.1.results + [r.value.0]
    ensures r.Err? <==> |st.results| == 0
    ensures r.Err? ==> r.error == StackUnderflow
  {
    if |st.results| == 0 then Err(StackUnderflow)
    else Ok((st.results[|st.results| - 1], st.(results := st.results[..|st.results| - 1])))
  }

  /** One die face under the strategy, the `k`-th drawn. */
  function Draw(strategy: Evaluation, sides: int, k: nat): (r: Result<int, EvalError>)
    ensures r.Ok? ==> Face(strategy, sides, k) == Ok(r.value)
    ensures r.Err? ==> r.error == Aborted(EmptyDieRange) && Face(strategy, sides, k).Err?
  {
    match Face(strategy, sides, k)
    case Ok(f) => Ok(f)
    case Err(a) => Err(Aborted(a))
  }

  /** A die added by a draw: `sides` sides, kept, and showing the face the
      strategy gives the draw at that index. */
  predicate Drawn(strategy: Evaluation, rolls: seq<DieRoll>, i: nat, sides: int)
    requires i < |rolls|
  {
    && rolls[i].sides == sides && rolls[i].keep
    && Face(strategy, sides, i) == Ok(rolls[i].result)
  }

  /** The `for _ in 0..count` loop of `roll`: appends `count` fresh dice. */
  function RollDice(strategy: Evaluation, count: nat, sides: int, st: State): (r: Result<State, EvalError>)
    ensures r.Ok? ==> r.value.results == st.results && r.value.pools == st.pools
    ensures r.Ok? ==> |r.value.rolls| == |st.rolls| + count && r.value.rolls[..|st.rolls|] == st.rolls
    ensures r.Ok? ==> forall i :: |st.rolls| <= i < |r.value.rolls| ==> Drawn(strategy, r.value.rolls, i, sides)
    ensures r.Err? <==> count > 0 && strategy.Rand? && sides < 1
    ensures r.Err? ==> r.error == Aborted(EmptyDieRange)
    decreases count
  {
    if count == 0 then Ok(st)
    else
      var s :- RollDice(strategy, count - 1, sides, st);
      var face :- Draw(strategy, sides, |s.rolls|);
      var rolls := s.rolls + [DieRoll(sides, face, true)];
      assert forall i | |st.rolls| <= i < |rolls| :: Drawn(strategy, rolls, i, sides) by {
        forall i | |st.rolls| <= i < |rolls|
          ensures Drawn(strategy, rolls, i, sides)
        {
          if i < |s.rolls| {
            assert rolls[i] == s.rolls[i];
            assert Drawn(strategy, s.rolls, i, sides);
          }
        }
      }
      assert rolls[..|st.rolls|] == s.rolls[..|st.rolls|];
      Ok(s.(rolls := rolls))
  }

  /** A die of the reroll that begins at index `base`: drawn with the sides of
      the die in the same place of the pool that begins at `origin`. */
  predicate Rerolled(strategy: Evaluation, rolls: seq<DieRoll>, j: nat, base: nat, origin: nat)
    requires origin <= base <= j < |rolls|
  {
    Drawn(strategy, rolls, j, rolls[origin + (j - base)].sides)
  }

  /** The reroll loop of advantage and disadvantage: for each roll of
      `rolls[i..end]`, one fresh die with the same sides, appended in order. */
  function RerollPool(strategy: Evaluation, i: nat, end: nat, st: State): (r: Result<State, EvalError>)
    requires i <= end <= |st.rolls|
    ensures r.Ok? ==> r.value.results == st.results && r.value.pools == st.pools
    ensures r.Ok? ==> |r.value.rolls| == |st.rolls| + (end - i) && r.value.rolls[..|st.rolls|] == st.rolls
    ensures r.Ok? ==> forall j :: |st.rolls| <= j < |r.value.rolls| ==> Rerolled(strategy, r.value.rolls, j, |st.rolls|, i)
    ensures r.Err? ==> r.error == Aborted(EmptyDieRange)
    decreases end - i
  {
    if i == end then Ok(st)
    else
      var face :- Draw(strategy, st.rolls[i].sides, |st.rolls|);
      var s := st.(rolls := st.rolls + [DieRoll(st.rolls[i].sides, face, true)]);
      var r := RerollPool(strategy, i + 1, end, s);
      assert r.Ok? ==> forall j :: |st.rolls| <= j < |r.value.rolls| ==> Rerolled(strategy, r.value.rolls, j, |st.rolls|, i) by {
        if r.Ok? {
          var rolls := r.value.rolls;
          forall j | |st.rolls| <= j < |rolls|
            ensures Rerolled(strategy, rolls, j, |st.rolls|, i)
          {
            assert rolls[..|s.rolls|] == s.rolls;
            assert rolls[i + (j - |st.rolls|)] == st.rolls[i + (j - |st.rolls|)] by {
              assert rolls[..|s.rolls|][i + (j - |st.rolls|)] == s.rolls[i + (j - |st.rolls|)];
            }
            if j == |st.rolls| {
              assert rolls[..|s.rolls|][j] == s.rolls[j];
            } else {
              assert Rerolled(strategy, rolls, j, |s.rolls|, i + 1);
              assert (i + 1) + (j - |s.rolls|) == i + (j - |st.rolls|);
            }
          }
          assert rolls[..|st.rolls|] == rolls[..|s.rolls|][..|st.rolls|];
        }
      }
      r
  }

  /** `sort_unstable_by` on the slice `rolls[p.start..p.end]`. */
  function SortRange(sort: Sorter, rolls: seq<DieRoll>, p: Pool, descending: bool): (r: seq<DieRoll>)
    requires PoolIn(p, rolls)
    ensures |r| == |rolls|
    ensures r[..p.start] == rolls[..p.start] && r[p.end..] == rolls[p.end..]
    ensures SortedPermutation(rolls[p.start..p.end], r[p.start..p.end], descending)
  {
    var sorted := sort(rolls[p.start..p.end], descending);
    var r := rolls[..p.start] + sorted + rolls[p.end..];
    assert r[p.start..p.end] == sorted;
    r
  }

  /** Sets the `keep` flag of every roll in `rolls[from..to]` to `flag`. */
  function Mark(rolls: seq<DieRoll>, from: nat, to: nat, flag: bool): (r: seq<DieRoll>)
    ensures |r| == |rolls|
    ensures forall i :: 0 <= i < |r| && !(from <= i < to) ==> r[i] == rolls[i]
    ensures forall i :: 0 <= i < |r| && from <= i < to ==>
      r[i].keep == flag && r[i].sides == rolls[i].sides && r[i].result == rolls[i].result
  {
    seq(|rolls|, i requires 0 <= i < |rolls| => if from <= i < to then rolls[i].(keep := flag) else rolls[i])
  }

  /** `count as usize` on a 64-bit target: an i32 count is sign-extended, so a
      negative one wraps around to `2^64 + count`. */
  function AsUsize(v: int): nat {
    v % 0x1_0000_0000_0000_0000
  }

  /** The total a `Roll` node pushes, over its `pool` of the final rolls. */
  function RollTotal(scope: TotalScope, rolls: seq<DieRoll>, pool: Pool): (r: int)
    requires pool.start <= |rolls|
    // As written, the total counts every kept die before the pool as well as
    // the kept dice from the pool's start on; corrected, only the latter.
    ensures scope == AllRolls ==> r == KeptSum(rolls[..pool.start]) + KeptSum(rolls[pool.start..])
    ensures scope == SinceRoll ==> r == KeptSum(rolls) - KeptSum(rolls[..pool.start])
  {
    assert rolls == rolls[..pool.start] + rolls[pool.start..];
    KeptSumAppend(rolls[..pool.start], rolls[pool.start..]);
    match scope
    case AllRolls => KeptSum(rolls)
    case SinceRoll => KeptSum(rolls[pool.start..])
  }

  /** The integer operation of an arithmetic node; division truncates and
      rejects a zero divisor. */
  function Apply(n: Node, a: int, b: int): (r: Result<int, EvalError>)
    requires n.Add? || n.Sub? || n.Mul? || n.Div?
    ensures r.Err? <==> n.Div? && b == 0
    ensures r.Err? ==> r.error == DivideByZero
  {
    match n
    case Add(_, _) => Ok(a + b)
    case Sub(_, _) => Ok(a - b)
    case Mul(_, _) => Ok(a * b)
    case Div(_, _) => if b == 0 then Err(DivideByZero) else Ok(TruncDiv(a, b))
  }

  /** `accept` on a node: one case per visitor method. */
  function Visit(env: Env, n: Node, st: State): (r: Result<State, EvalError>)
    requires ValidPools(st)
    ensures r.Ok? ==> Extends(st, r.value)
    decreases n, 3
  {
    match n
    case Lit(v) => Ok(Push(st, v))
    case Roll(_, _, _) => VisitRoll(env, n, st)
    case Select(_, _, _) => VisitSelect(env, n, st)
    case Neg(right) =>
      var s :- Visit(env, right, st);
      var v :- Pop(s);
      Ok(Push(v.1, -v.0))
    case _ => VisitBinary(env, n, st)
  }

  /** `add`, `sub`, `mul` and `div`: the left operand, then the right, then the operation. */
  function VisitBinary(env: Env, n: Node, st: State): (r: Result<State, EvalError>)
    requires n.Add? || n.Sub? || n.Mul? || n.Div?
    requires ValidPools(st)
    ensures r.Ok? ==> Extends(st, r.value)
    decreases n, 2
  {
    var s1 :- Visit(env, n.left, st);
    var a :- Pop(s1);
    var s2 :- Visit(env, n.right, a.1);
    var b :- Pop(s2);
    var v :- Apply(n, a.0, b.0);
    Ok(Push(b.1, v))
  }

  /** Visits `m` with `pool` pushed as the active pool, and pops it afterwards. */
  function WithPool(env: Env, m: Node, pool: Pool, st: State): (r: Result<State, EvalError>)
    requires PoolIn(pool, st.rolls) && ValidPools(st)
    ensures r.Ok? ==> Extends(st, r.value)
    decreases m, 4
  {
    var s :- Visit(env, m, st.(pools := st.pools + [pool]));
    Ok(s.(pools := s.pools[..|s.pools| - 1]))
  }

  /** `roll`: the count, then the sides, each evaluated and popped; a
      negative count is where the Rust code panics. */
  function VisitRoll(env: Env, n: Node, st: State): (r: Result<State, EvalError>)
    requires n.Roll? && ValidPools(st)
    ensures r.Ok? ==> Extends(st, r.value)
    decreases n, 2
  {
    var s1 :- Visit(env, n.count, st);
    var c :- Pop(s1);
    var s2 :- Visit(env, n.sides, c.1);
    var k :- Pop(s2);
    if c.0 < 0 then Err(Aborted(NegativeCount)) else RollPool(env, n, c.0, k.0, k.1)
  }

  /** The rest of `roll`: the dice, the selection chain over the new pool, the
      final descending sort of the pool, and the total. */
  function RollPool(env: Env, n: Node, count: nat, sides: int, st: State): (r: Result<State, EvalError>)
    requires n.Roll? && ValidPools(st)
    ensures r.Ok? ==> Extends(st, r.value)
    decreases n, 1
  {
    var s3 :- RollDice(env.strategy, count, sides, st);
    var pool := Pool(|s3.rolls| - count, |s3.rolls|);
    var s4 :- if n.select.None? then Ok(s3) else WithPool(env, n.select.value, pool, s3);
    var s5 := s4.(rolls := SortRange(env.sort, s4.rolls, pool, true));
    Ok(Push(s5, RollTotal(env.scope, s5.rolls, pool)))
  }

  /** `select`: the active pool is the top of the pool stack. */
  function VisitSelect(env: Env, n: Node, st: State): (r: Result<State, EvalError>)
    requires n.Select? && ValidPools(st)
    ensures r.Ok? ==> Extends(st, r.value)
    ensures r.Err? && |st.pools| == 0 ==> r.error == StackUnderflow
    decreases n, 2
  {
    if |st.pools| == 0 then Err(StackUnderflow)
    else
      var pool := st.pools[|st.pools| - 1];
      if n.selection == Advantage || n.selection == Disadvantage then Reroll(env, n, pool, st)
      else KeepDrop(env, n, pool, st)
  }

  /** Keep or drop the highest or lowest `count` dice of the pool; a count
      larger than the pool is an error and changes nothing. */
  function KeepDrop(env: Env, n: Node, pool: Pool, st: State): (r: Result<State, EvalError>)
    requires n.Select? && n.selection != Advantage && n.selection != Disadvantage
    requires PoolIn(pool, st.rolls) && ValidPools(st)
    ensures r.Ok? ==> Extends(st, r.value)
    decreases n, 1
  {
    var counted :- SelectionSize(env, n, st);
    if counted.0 > Len(pool) then Err(InvalidSelection(counted.0, Len(pool)))
    else Narrow(env, n, pool, counted.0, counted.1)
  }

  /** Whether a selection works on the highest dice, and whether the dice it
      counts are the ones it keeps. */
  predicate High(selection: Selection) {
    selection == KeepHighest || selection == DropHighest
  }

  predicate Keeps(selection: Selection) {
    selection == KeepHighest || selection == KeepLowest
  }

  /** Sort the pool so the dice to count come first, mark the first `count`
      with the selection's flag and the rest with the opposite, then apply the
      rest of the chain to the kept dice (for a keep) or the remaining ones
      (for a drop). */
  function Narrow(env: Env, n: Node, pool: Pool, count: nat, st: State): (r: Result<State, EvalError>)
    requires n.Select? && PoolIn(pool, st.rolls) && ValidPools(st) && count <= Len(pool)
    ensures r.Ok? ==> Extends(st, r.value)
    decreases n, 0
  {
    var sorted := SortRange(env.sort, st.rolls, pool, High(n.selection));
    var keep := Keeps(n.selection);
    var marked := Mark(Mark(sorted, pool.start, pool.start + count, keep), pool.start + count, pool.end, !keep);
    var s := st.(rolls := marked);
    if n.next.None? then Ok(s)
    else
      var remaining := if keep then Pool(pool.start, pool.start + count) else Pool(pool.start + count, pool.end);
      WithPool(env, n.next.value, remaining, s)
  }

  /** The number of dice a keep or drop selects: its count expression's value
      as a `usize`, or 1 when it has none. */
  function SelectionSize(env: Env, n: Node, st: State): (r: Result<(nat, State), EvalError>)
    requires n.Select? && ValidPools(st)
    ensures r.Ok? ==> Extends(st, r.value.1)
    ensures n.amount.None? ==> r == Ok((1, st))
    decreases n, 0
  {
    if n.amount.None? then Ok((1, st))
    else
      var s :- Visit(env, n.amount.value, st);
      var v :- Pop(s);
      Ok((AsUsize(v.0), v.1))
  }

  /** Advantage and disadvantage: reroll the pool, keep whichever of the old
      and new pools the comparison of their totals picks, mark the other
      dropped, and apply the rest of the chain to the kept one. */
  function Reroll(env: Env, n: Node, pool: Pool, st: State): (r: Result<State, EvalError>)
    requires n.Select? && (n.selection == Advantage || n.selection == Disadvantage)
    requires PoolIn(pool, st.rolls) && ValidPools(st)
    ensures r.Ok? ==> Extends(st, r.value)
    decreases n, 1
  {
    var s1 :- RerollPool(env.strategy, pool.start, pool.end, st);
    var rerolled := Pool(|s1.rolls| - Len(pool), |s1.rolls|);
    var picked := PickPool(n.selection == Advantage, s1.rolls, pool, rerolled);
    var kept, dropped := picked.0, picked.1;
    var s2 := s1.(rolls := Mark(s1.rolls, dropped.start, dropped.end, false));
    if n.next.None? then Ok(s2) else WithPool(env, n.next.value, kept, s2)
  }

  /** The kept and the dropped pool: the new one is kept exactly when "its
      total is higher" agrees with "this is advantage". */
  function PickPool(advantage: bool, rolls: seq<DieRoll>, original: Pool, rerolled: Pool): (r: (Pool, Pool))
    requires PoolIn(original, rolls) && PoolIn(rerolled, rolls)
  {
    var totalOld := FaceSum(rolls[original.start..original.end]);
    var totalNew := FaceSum(rolls[rerolled.start..rerolled.end]);
    if (totalNew > totalOld) == advantage then (rerolled, original) else (original, rerolled)
  }

  /** `Evaluator::eval` on a fresh evaluator: the value left on top of the
      results stack, and every roll made. */
  function Evaluate(env: Env, root: Node): (r: Result<(int, seq<DieRoll>), EvalError>)
  {
    var st :- Visit(env, root, Start);
    if |st.results| == 0 then Err(StackUnderflow) else Ok((st.results[|st.results| - 1], st.rolls))
  }
}
