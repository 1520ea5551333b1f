/** Properties of the evaluator: the stack discipline every well-formed tree
    keeps (so `StackUnderflow` never happens), when it can abort, and what
    it computes for arithmetic, single rolls and selections. */
module EvalProps {
  import opened Wrappers
  import opened Ast
  import opened Dice
  import opened Eval

  /** Every roll's count is a non-negative literal and its sides a positive
      literal: the trees on which the Rust code cannot panic. */
  predicate SafeRolls(n: Node) {
    match n
    case Lit(_) => true
    case Roll(count, sides, select) =>
      && count.Lit? && count.value >= 0 && sides.Lit? && sides.value >= 1
      && (select.Some? ==> SafeRolls(select.value))
    case Select(_, amount, next) =>
      (amount.Some? ==> SafeRolls(amount.value)) && (next.Some? ==> SafeRolls(next.value))
    case Neg(right) => SafeRolls(right)
    case Add(left, right) => SafeRolls(left) && SafeRolls(right)
    case Sub(left, right) => SafeRolls(left) && SafeRolls(right)
    case Mul(left, right) => SafeRolls(left) && SafeRolls(right)
    case Div(left, right) => SafeRolls(left) && SafeRolls(right)
  }

  predicate Sided(rolls: seq<DieRoll>) {
    forall i :: 0 <= i < |rolls| ==> rolls[i].sides >= 1
  }

  /** What a visit that started in `st` and ended in `r` did to the stack: on
      success it left `st`'s results below and pushed exactly `pushes` values;
      it never failed for want of a value or a pool; and when its rolls were
      safe and every die had sides, it did not abort and kept it so. */
  predicate Sound(st: State, r: Result<State, EvalError>, pushes: nat, safe: bool) {
    && (r.Ok? ==> |r.value.results| == |st.results| + pushes && r.value.results[..|st.results|] == st.results)
    && (r.Err? ==> r.error != StackUnderflow)
    && (safe && Sided(st.rolls) && r.Err? ==> !r.error.Aborted?)
    && (safe && Sided(st.rolls) && r.Ok? ==> Sided(r.value.rolls))
  }

  /** Sorting a range keeps every die with sides. */
  lemma SortKeepsSided(sort: Sorter, rolls: seq<DieRoll>, p: Pool, descending: bool)
    requires PoolIn(p, rolls) && Sided(rolls)
    ensures Sided(SortRange(sort, rolls, p, descending))
  {
    var r := SortRange(sort, rolls, p, descending);
    forall i | 0 <= i < |r|
      ensures r[i].sides >= 1
    {
      if i < p.start {
        assert r[i] == r[..p.start][i];
      } else if i >= p.end {
        assert r[i] == r[p.end..][i - p.end];
      } else {
        var slice := rolls[p.start..p.end];
        assert r[i] == r[p.start..p.end][i - p.start];
        assert r[i] in multiset(slice);
        var j :| 0 <= j < |slice| && slice[j] == r[i];
        assert slice[j] == rolls[p.start + j];
      }
    }
  }

  /** Marking keeps every die with sides. */
  lemma MarkKeepsSided(rolls: seq<DieRoll>, from: nat, to: nat, flag: bool)
    requires Sided(rolls)
    ensures Sided(Mark(rolls, from, to, flag))
  {
  }

  /** The stack discipline of every visit; the heart of "no stack underflow
      for a tree the parser produced". Expressions push one value, selection
      chains (visited with a pool active) push none. */
  lemma {:induction false} VisitSound(env: Env, n: Node, st: State)
    requires ValidPools(st)
    requires IsExpr(n) || (IsChain(n) && |st.pools| > 0)
    ensures Sound(st, Visit(env, n, st), if IsExpr(n) then 1 else 0, SafeRolls(n))
    decreases n, 4
  {
    match n
    case Lit(_) =>
    case Roll(_, _, _) => RollSound(env, n, st);
    case Select(_, _, _) => SelectSound(env, n, st);
    case Neg(right) =>
      VisitSound(env, right, st);
    case _ => BinarySound(env, n, st);
  }

  /** `eval` of an expression on a fresh evaluator: it succeeds exactly when
      the visit does, and then the visit left one result, which is the value,
      together with every die rolled; it never fails with `StackUnderflow`,
      and with safe rolls it never aborts. */
  lemma EvaluateSound(env: Env, n: Node)
    requires IsExpr(n)
    ensures var r, v := Evaluate(env, n), Visit(env, n, Start);
      && (r.Ok? <==> v.Ok?)
      && (r.Ok? ==> |v.value.results| == 1 && r.value == (v.value.results[0], v.value.rolls))
      && (r.Err? ==> r == Err(v.error) && r.error != StackUnderflow)
      && (SafeRolls(n) && r.Err? ==> !r.error.Aborted?)
  {
    VisitSound(env, n, Start);
  }

  lemma {:induction false} BinarySound(env: Env, n: Node, st: State)
    requires n.Add? || n.Sub? || n.Mul? || n.Div?
    requires ValidPools(st) && IsExpr(n)
    ensures Sound(st, VisitBinary(env, n, st), 1, SafeRolls(n))
    decreases n, 3
  {
    VisitSound(env, n.left, st);
    var r1 := Visit(env, n.left, st);
    if r1.Ok? {
      var a := Pop(r1.value);
      assert a.Ok? && a.value.1.results == st.results;
      VisitSound(env, n.right, a.value.1);
    }
  }

  lemma {:induction false} WithPoolSound(env: Env, m: Node, pool: Pool, st: State)
    requires PoolIn(pool, st.rolls) && ValidPools(st) && IsChain(m)
    ensures Sound(st, WithPool(env, m, pool, st), 0, SafeRolls(m))
    decreases m, 5
  {
    VisitSound(env, m, st.(pools := st.pools + [pool]));
  }

  lemma {:induction false} RollSound(env: Env, n: Node, st: State)
    requires n.Roll? && ValidPools(st) && IsExpr(n)
    ensures Sound(st, VisitRoll(env, n, st), 1, SafeRolls(n))
    decreases n, 3
  {
    VisitSound(env, n.count, st);
    var r1 := Visit(env, n.count, st);
    if r1.Ok? {
      var c := Pop(r1.value);
      assert c.Ok? && c.value.1.results == st.results;
      VisitSound(env, n.sides, c.value.1);
      var r2 := Visit(env, n.sides, c.value.1);
      if r2.Ok? {
        var k := Pop(r2.value);
        assert k.Ok? && k.value.1.results == st.results;
        if SafeRolls(n) {
          assert r1.value.results == st.results + [n.count.value];
          assert r2.value.results == st.results + [n.sides.value];
        }
        if c.value.0 >= 0 {
          RollPoolSound(env, n, c.value.0, k.value.0, k.value.1);
        }
      }
    }
  }

  /** After the count and the sides: the dice, the chain, the sort and the total. */
  lemma {:induction false} RollPoolSound(env: Env, n: Node, count: nat, sides: int, st: State)
    requires n.Roll? && ValidPools(st) && IsExpr(n)
    ensures Sound(st, RollPool(env, n, count, sides, st), 1, SafeRolls(n) && sides >= 1)
    decreases n, 2
  {
    var r3 := RollDice(env.strategy, count, sides, st);
    if r3.Ok? {
      var s3 := r3.value;
      var pool := Pool(|s3.rolls| - count, |s3.rolls|);
      if sides >= 1 && Sided(st.rolls) {
        assert Sided(s3.rolls) by {
          forall i | 0 <= i < |s3.rolls|
            ensures s3.rolls[i].sides >= 1
          {
            if i < |st.rolls| {
              assert s3.rolls[i] == s3.rolls[..|st.rolls|][i];
            } else {
              assert Drawn(env.strategy, s3.rolls, i, sides);
            }
          }
        }
      }
      var r4 := if n.select.None? then Ok(s3) else WithPool(env, n.select.value, pool, s3);
      if n.select.Some? {
        WithPoolSound(env, n.select.value, pool, s3);
      }
      if r4.Ok? && SafeRolls(n) && sides >= 1 && Sided(st.rolls) {
        SortKeepsSided(env.sort, r4.value.rolls, pool, true);
      }
    }
  }

  lemma {:induction false} SelectSound(env: Env, n: Node, st: State)
    requires n.Select? && ValidPools(st) && IsChain(n) && |st.pools| > 0
    ensures Sound(st, VisitSelect(env, n, st), 0, SafeRolls(n))
    decreases n, 3
  {
    var pool := st.pools[|st.pools| - 1];
    if n.selection == Advantage || n.selection == Disadvantage {
      RerollSound(env, n, pool, st);
    } else {
      KeepDropSound(env, n, pool, st);
    }
  }

  lemma {:induction false} SelectionSizeSound(env: Env, n: Node, st: State)
    requires n.Select? && ValidPools(st) && IsChain(n)
    ensures var r := SelectionSize(env, n, st);
      && (r.Ok? ==> r.value.1.results == st.results)
      && (r.Err? ==> r.error != StackUnderflow)
      && (SafeRolls(n) && Sided(st.rolls) && r.Err? ==> !r.error.Aborted?)
      && (SafeRolls(n) && Sided(st.rolls) && r.Ok? ==> Sided(r.value.1.rolls))
    decreases n, 0
  {
    if n.amount.Some? {
      VisitSound(env, n.amount.value, st);
    }
  }

  lemma {:induction false} KeepDropSound(env: Env, n: Node, pool: Pool, st: State)
    requires n.Select? && n.selection != Advantage && n.selection != Disadvantage
    requires PoolIn(pool, st.rolls) && ValidPools(st) && IsChain(n)
    ensures Sound(st, KeepDrop(env, n, pool, st), 0, SafeRolls(n))
    decreases n, 2
  {
    SelectionSizeSound(env, n, st);
    var counted := SelectionSize(env, n, st);
    if counted.Ok? && counted.value.0 <= Len(pool) {
      NarrowSound(env, n, pool, counted.value.0, counted.value.1);
    }
  }

  lemma {:induction false} NarrowSound(env: Env, n: Node, pool: Pool, count: nat, st: State)
    requires n.Select? && PoolIn(pool, st.rolls) && ValidPools(st) && count <= Len(pool) && IsChain(n)
    ensures Sound(st, Narrow(env, n, pool, count, st), 0, SafeRolls(n))
    decreases n, 1
  {
    var sorted := SortRange(env.sort, st.rolls, pool, High(n.selection));
    var keep := Keeps(n.selection);
    var once := Mark(sorted, pool.start, pool.start + count, keep);
    var marked := Mark(once, pool.start + count, pool.end, !keep);
    var s := st.(rolls := marked);
    if Sided(st.rolls) {
      SortKeepsSided(env.sort, st.rolls, pool, High(n.selection));
      MarkKeepsSided(sorted, pool.start, pool.start + count, keep);
      MarkKeepsSided(once, pool.start + count, pool.end, !keep);
    }
    assert ValidPools(s) by {
      assert |s.rolls| == |st.rolls|;
    }
    var remaining := if keep then Pool(pool.start, pool.start + count) else Pool(pool.start + count, pool.end);
    assert Narrow(env, n, pool, count, st) == if n.next.None? then Ok(s) else WithPool(env, n.next.value, remaining, s);
    NextSound(env, n, remaining, s, st);
  }

  /** The rest of a selection chain, visited from `s` on the remaining pool, is
      sound from `st` when getting from `st` to `s` changed no results. */
  lemma {:induction false} NextSound(env: Env, n: Node, kept: Pool, s: State, st: State)
    requires n.Select? && IsChain(n) && PoolIn(kept, s.rolls) && ValidPools(s)
    requires s.results == st.results
    requires SafeRolls(n) && Sided(st.rolls) ==> Sided(s.rolls)
    ensures Sound(st, if n.next.None? then Ok(s) else WithPool(env, n.next.value, kept, s), 0, SafeRolls(n))
    decreases n, 0
  {
    if n.next.Some? {
      WithPoolSound(env, n.next.value, kept, s);
      SoundFrom(st, s, WithPool(env, n.next.value, kept, s), SafeRolls(n.next.value), SafeRolls(n));
    }
  }

  /** A visit from `s` is sound from `st` when getting from `st` to `s` changed
      no results and kept dice with sides. */
  lemma SoundFrom(st: State, s: State, r: Result<State, EvalError>, safeInner: bool, safe: bool)
    requires s.results == st.results
    requires safe ==> safeInner
    requires safe && Sided(st.rolls) ==> Sided(s.rolls)
    requires Sound(s, r, 0, safeInner)
    ensures Sound(st, r, 0, safe)
  {
  }

  lemma {:induction false} RerollSound(env: Env, n: Node, pool: Pool, st: State)
    requires n.Select? && (n.selection == Advantage || n.selection == Disadvantage)
    requires PoolIn(pool, st.rolls) && ValidPools(st) && IsChain(n)
    ensures Sound(st, Reroll(env, n, pool, st), 0, SafeRolls(n))
    decreases n, 2
  {
    var r1 := RerollPool(env.strategy, pool.start, pool.end, st);
    if Sided(st.rolls) {
      RerollNoAbort(env.strategy, pool.start, pool.end, st);
    }
    if r1.Ok? {
      RerolledSound(env, n, pool, r1.value, st);
    } else {
      assert Reroll(env, n, pool, st) == Err(r1.error);
    }
  }

  /** Once the rerolls are drawn: marking the dropped pool keeps the results
      and the sides, and the rest of the chain follows on the kept pool. */
  lemma {:induction false} RerolledSound(env: Env, n: Node, pool: Pool, s1: State, st: State)
    requires n.Select? && (n.selection == Advantage || n.selection == Disadvantage)
    requires PoolIn(pool, st.rolls) && ValidPools(st) && IsChain(n)
    requires RerollPool(env.strategy, pool.start, pool.end, st) == Ok(s1)
    requires Sided(st.rolls) ==> Sided(s1.rolls)
    ensures Sound(st, Reroll(env, n, pool, st), 0, SafeRolls(n))
    decreases n, 1
  {
    var rerolled := Pool(|s1.rolls| - Len(pool), |s1.rolls|);
    var picked := PickPool(n.selection == Advantage, s1.rolls, pool, rerolled);
    var s2 := s1.(rolls := Mark(s1.rolls, picked.1.start, picked.1.end, false));
    PickedIn(n.selection == Advantage, s1.rolls, pool, rerolled);
    if Sided(st.rolls) {
      MarkKeepsSided(s1.rolls, picked.1.start, picked.1.end, false);
    }
    MarkedPools(st, s1, picked.1.start, picked.1.end);
    RerollOnce(env, n, pool, st, s1);
    NextSound(env, n, picked.0, s2, st);
  }

  /** Both pools `PickPool` returns are the two it was given. */
  lemma PickedIn(advantage: bool, rolls: seq<DieRoll>, original: Pool, rerolled: Pool)
    requires PoolIn(original, rolls) && PoolIn(rerolled, rolls)
    ensures var picked := PickPool(advantage, rolls, original, rerolled);
      PoolIn(picked.0, rolls) && PoolIn(picked.1, rolls)
  {
  }

  /** `Reroll` once the rerolls are drawn. */
  lemma RerollOnce(env: Env, n: Node, pool: Pool, st: State, s1: State)
    requires n.Select? && (n.selection == Advantage || n.selection == Disadvantage)
    requires PoolIn(pool, st.rolls) && ValidPools(st)
    requires RerollPool(env.strategy, pool.start, pool.end, st) == Ok(s1)
    ensures var rerolled := Pool(|s1.rolls| - Len(pool), |s1.rolls|);
      var picked := PickPool(n.selection == Advantage, s1.rolls, pool, rerolled);
      var s2 := s1.(rolls := Mark(s1.rolls, picked.1.start, picked.1.end, false));
      Reroll(env, n, pool, st) == if n.next.None? then Ok(s2) else WithPool(env, n.next.value, picked.0, s2)
  {
  }

  lemma MarkedPools(st: State, s1: State, from: nat, to: nat)
    requires ValidPools(st) && s1.pools == st.pools && |st.rolls| <= |s1.rolls|
    ensures ValidPools(s1.(rolls := Mark(s1.rolls, from, to, false)))
  {
  }

  /** Rerolling dice that all have sides never draws from an empty range, and
      the rerolls have sides too. */
  lemma {:induction false} RerollNoAbort(strategy: Evaluation, i: nat, end: nat, st: State)
    requires i <= end <= |st.rolls| && Sided(st.rolls)
    ensures RerollPool(strategy, i, end, st).Ok?
    ensures Sided(RerollPool(strategy, i, end, st).value.rolls)
    decreases end - i
  {
    if i < end {
      var face := Draw(strategy, st.rolls[i].sides, |st.rolls|);
      assert face.Ok?;
      var s := st.(rolls := st.rolls + [DieRoll(st.rolls[i].sides, face.value, true)]);
      RerollNoAbort(strategy, i + 1, end, s);
    }
  }
}
