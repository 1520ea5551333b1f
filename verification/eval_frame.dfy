/** Which dice a visit may touch. A selection rearranges and flags the dice of
    the active pool (the top of the pool stack) and nothing else that was
    rolled before it; a roll only appends dice and rearranges its own pool; so
    an expression leaves every earlier die as it was, and a selection chain run
    under a pool leaves every earlier die outside that pool as it was. */
module EvalFrame {
  import opened Wrappers
  import opened Ast
  import opened Dice
  import opened Eval
  import opened EvalProps
  import opened EvalValues
  import opened EvalSelect

  /** The dice of `before` outside `p` are the same dice in `after`. */
  predicate KeepsOutside(before: seq<DieRoll>, after: seq<DieRoll>, p: Pool) {
    && |before| <= |after|
    && forall i :: 0 <= i < |before| && !(p.start <= i < p.end) ==> after[i] == before[i]
  }

  /** No index lies in `q` without lying in `p`. */
  predicate Inside(q: Pool, p: Pool) {
    q.start >= q.end || (p.start <= q.start && q.end <= p.end)
  }

  /** The pool that selections act on: the top of the stack, and none at all
      (an empty pool) when the stack is empty. */
  function Active(st: State): Pool {
    if |st.pools| == 0 then Pool(0, 0) else st.pools[|st.pools| - 1]
  }

  /** The dice of `st` that visiting `n` may change: none for an expression,
      the active pool otherwise. */
  function Touched(n: Node, st: State): Pool {
    if IsExpr(n) then Pool(0, 0) else Active(st)
  }

  lemma KeepsAll(rolls: seq<DieRoll>, p: Pool)
    ensures KeepsOutside(rolls, rolls, p)
  {
  }

  /** Keeping every die of `before` is keeping the prefix. */
  lemma KeepsPrefix(before: seq<DieRoll>, after: seq<DieRoll>)
    ensures KeepsOutside(before, after, Pool(0, 0)) <==> |before| <= |after| && after[..|before|] == before
  {
    if KeepsOutside(before, after, Pool(0, 0)) {
      assert after[..|before|] == before by {
        forall i | 0 <= i < |before|
          ensures after[..|before|][i] == before[i]
        {
          assert !(0 <= i < 0);
        }
      }
    }
    if |before| <= |after| && after[..|before|] == before {
      forall i | 0 <= i < |before|
        ensures after[i] == before[i]
      {
        assert after[..|before|][i] == after[i];
      }
    }
  }

  /** One step after another: the later step changes only dice in `q`, which
      is inside `p` or lies wholly beyond the dice of `a`. */
  lemma Then(a: seq<DieRoll>, b: seq<DieRoll>, c: seq<DieRoll>, p: Pool, q: Pool)
    requires KeepsOutside(a, b, p) && KeepsOutside(b, c, q)
    requires Inside(q, p) || |a| <= q.start
    ensures KeepsOutside(a, c, p)
  {
    forall i | 0 <= i < |a| && !(p.start <= i < p.end)
      ensures c[i] == a[i]
    {
      assert !(q.start <= i < q.end);
    }
  }

  lemma SortKeepsOutside(sort: Sorter, rolls: seq<DieRoll>, p: Pool, descending: bool)
    requires PoolIn(p, rolls)
    ensures KeepsOutside(rolls, SortRange(sort, rolls, p, descending), p)
  {
    var r := SortRange(sort, rolls, p, descending);
    forall i | 0 <= i < |rolls| && !(p.start <= i < p.end)
      ensures r[i] == rolls[i]
    {
      if i < p.start {
        assert r[..p.start][i] == rolls[..p.start][i];
      } else {
        assert r[p.end..][i - p.end] == rolls[p.end..][i - p.end];
      }
    }
  }

  lemma MarkKeepsOutside(rolls: seq<DieRoll>, from: nat, to: nat, flag: bool)
    ensures KeepsOutside(rolls, Mark(rolls, from, to, flag), Pool(from, to))
  {
  }

  /** The frame of every visit. */
  lemma {:induction false} VisitFrame(env: Env, n: Node, st: State)
    requires ValidPools(st)
    ensures Visit(env, n, st).Ok? ==> KeepsOutside(st.rolls, Visit(env, n, st).value.rolls, Touched(n, st))
    decreases n, 3
  {
    match n
    case Lit(_) => KeepsAll(st.rolls, Touched(n, st));
    case Roll(_, _, _) => RollFrame(env, n, st);
    case Select(_, _, _) => SelectFrame(env, n, st);
    case Neg(right) =>
      VisitFrame(env, right, st);
    case _ => BinaryFrame(env, n, st);
  }

  lemma {:induction false} BinaryFrame(env: Env, n: Node, st: State)
    requires n.Add? || n.Sub? || n.Mul? || n.Div?
    requires ValidPools(st)
    ensures VisitBinary(env, n, st).Ok? ==> KeepsOutside(st.rolls, VisitBinary(env, n, st).value.rolls, Touched(n, st))
    decreases n, 2
  {
    if VisitBinary(env, n, st).Ok? {
      var a := BinaryOperands(env, n, st);
      var s1 := Visit(env, n.left, st).value;
      VisitFrame(env, n.left, st);
      VisitFrame(env, n.right, a);
      OperandTouched(n.left, n, st, st);
      OperandTouched(n.right, n, a, st);
      KeepsAll(st.rolls, Touched(n, st));
      Then(st.rolls, st.rolls, s1.rolls, Touched(n, st), Touched(n.left, st));
      Then(st.rolls, a.rolls, VisitBinary(env, n, st).value.rolls, Touched(n, st), Touched(n.right, a));
    }
  }

  /** A binary node that succeeds: its left operand succeeded, and the state
      `a` it left, with its value popped, is where the right operand ran; the
      rolls are the right operand's. */
  lemma BinaryOperands(env: Env, n: Node, st: State) returns (a: State)
    requires n.Add? || n.Sub? || n.Mul? || n.Div?
    requires ValidPools(st) && VisitBinary(env, n, st).Ok?
    ensures Visit(env, n.left, st).Ok? && Pop(Visit(env, n.left, st).value).Ok?
    ensures a == Pop(Visit(env, n.left, st).value).value.1
    ensures a.rolls == Visit(env, n.left, st).value.rolls && a.pools == st.pools && ValidPools(a)
    ensures Visit(env, n.right, a).Ok? && VisitBinary(env, n, st).value.rolls == Visit(env, n.right, a).value.rolls
  {
    a := Pop(Visit(env, n.left, st).value).value.1;
  }

  /** An operand visited with the same pool stack touches no more than the
      node it belongs to. */
  lemma OperandTouched(operand: Node, n: Node, st': State, st: State)
    requires st'.pools == st.pools && (IsExpr(n) ==> IsExpr(operand))
    ensures Inside(Touched(operand, st'), Touched(n, st))
  {
  }

  /** A visit under `pool` changes no earlier die outside it. */
  lemma {:induction false} WithPoolFrame(env: Env, m: Node, pool: Pool, st: State)
    requires PoolIn(pool, st.rolls) && ValidPools(st)
    ensures WithPool(env, m, pool, st).Ok? ==> KeepsOutside(st.rolls, WithPool(env, m, pool, st).value.rolls, pool)
    decreases m, 4
  {
    var pushed := st.(pools := st.pools + [pool]);
    VisitFrame(env, m, pushed);
    if Visit(env, m, pushed).Ok? {
      KeepsAll(st.rolls, pool);
      Then(st.rolls, st.rolls, Visit(env, m, pushed).value.rolls, pool, Touched(m, pushed));
    }
  }

  lemma {:induction false} RollFrame(env: Env, n: Node, st: State)
    requires n.Roll? && ValidPools(st)
    ensures VisitRoll(env, n, st).Ok? ==> KeepsOutside(st.rolls, VisitRoll(env, n, st).value.rolls, Touched(n, st))
    decreases n, 2
  {
    var r := VisitRoll(env, n, st);
    if r.Ok? {
      var s1 := Visit(env, n.count, st).value;
      var c := Pop(s1).value;
      var s2 := Visit(env, n.sides, c.1).value;
      var k := Pop(s2).value;
      VisitFrame(env, n.count, st);
      VisitFrame(env, n.sides, c.1);
      OperandTouched(n.count, n, st, st);
      OperandTouched(n.sides, n, c.1, st);
      RollPoolFrame(env, n, c.0, k.0, k.1);
      KeepsAll(st.rolls, Touched(n, st));
      Then(st.rolls, st.rolls, s1.rolls, Touched(n, st), Touched(n.count, st));
      Then(st.rolls, c.1.rolls, s2.rolls, Touched(n, st), Touched(n.sides, c.1));
      Then(st.rolls, k.1.rolls, r.value.rolls, Touched(n, st), Pool(0, 0));
    }
  }

  /** The dice, the chain over the new pool and its sort all lie beyond the
      earlier dice. */
  lemma {:induction false} RollPoolFrame(env: Env, n: Node, count: nat, sides: int, st: State)
    requires n.Roll? && ValidPools(st)
    ensures RollPool(env, n, count, sides, st).Ok? ==> KeepsOutside(st.rolls, RollPool(env, n, count, sides, st).value.rolls, Pool(0, 0))
    decreases n, 1
  {
    var r := RollPool(env, n, count, sides, st);
    if r.Ok? {
      var s3 := RollDice(env.strategy, count, sides, st).value;
      var pool := Pool(|s3.rolls| - count, |s3.rolls|);
      var s4 := (if n.select.None? then Ok(s3) else WithPool(env, n.select.value, pool, s3)).value;
      KeepsPrefix(st.rolls, s3.rolls);
      if n.select.Some? {
        WithPoolFrame(env, n.select.value, pool, s3);
      } else {
        KeepsAll(s3.rolls, pool);
      }
      Then(st.rolls, s3.rolls, s4.rolls, Pool(0, 0), pool);
      SortKeepsOutside(env.sort, s4.rolls, pool, true);
      Then(st.rolls, s4.rolls, SortRange(env.sort, s4.rolls, pool, true), Pool(0, 0), pool);
    }
  }

  lemma {:induction false} SelectFrame(env: Env, n: Node, st: State)
    requires n.Select? && ValidPools(st)
    ensures VisitSelect(env, n, st).Ok? ==> KeepsOutside(st.rolls, VisitSelect(env, n, st).value.rolls, Touched(n, st))
    decreases n, 2
  {
    if |st.pools| > 0 {
      var pool := st.pools[|st.pools| - 1];
      if n.selection == Advantage || n.selection == Disadvantage {
        RerollFrame(env, n, pool, st);
      } else {
        KeepDropFrame(env, n, pool, st);
      }
    }
  }

  /** The count expression acts on the active pool, the selection on `pool`,
      which is the active pool whenever `VisitSelect` calls it. */
  lemma {:induction false} KeepDropFrame(env: Env, n: Node, pool: Pool, st: State)
    requires n.Select? && n.selection != Advantage && n.selection != Disadvantage
    requires PoolIn(pool, st.rolls) && ValidPools(st) && Inside(Active(st), pool)
    ensures KeepDrop(env, n, pool, st).Ok? ==> KeepsOutside(st.rolls, KeepDrop(env, n, pool, st).value.rolls, pool)
    decreases n, 1
  {
    var r := KeepDrop(env, n, pool, st);
    if r.Ok? {
      var counted := SelectionSize(env, n, st).value;
      SelectionSizeFrame(env, n, st);
      NarrowFrame(env, n, pool, counted.0, counted.1);
      KeepsAll(st.rolls, pool);
      Then(st.rolls, st.rolls, counted.1.rolls, pool, Active(st));
      Then(st.rolls, counted.1.rolls, r.value.rolls, pool, pool);
    }
  }

  lemma {:induction false} SelectionSizeFrame(env: Env, n: Node, st: State)
    requires n.Select? && ValidPools(st)
    ensures SelectionSize(env, n, st).Ok? ==> KeepsOutside(st.rolls, SelectionSize(env, n, st).value.1.rolls, Active(st))
    decreases n, 0
  {
    if n.amount.None? {
      KeepsAll(st.rolls, Active(st));
    } else if Visit(env, n.amount.value, st).Ok? {
      VisitFrame(env, n.amount.value, st);
      KeepsAll(st.rolls, Active(st));
      Then(st.rolls, st.rolls, Visit(env, n.amount.value, st).value.rolls, Active(st), Touched(n.amount.value, st));
    }
  }

  /** The sort, both marks and the rest of the chain stay within the pool. */
  lemma {:induction false} NarrowFrame(env: Env, n: Node, pool: Pool, count: nat, st: State)
    requires n.Select? && PoolIn(pool, st.rolls) && ValidPools(st) && count <= Len(pool)
    ensures Narrow(env, n, pool, count, st).Ok? ==> KeepsOutside(st.rolls, Narrow(env, n, pool, count, st).value.rolls, pool)
    decreases n, 0
  {
    var sorted := SortRange(env.sort, st.rolls, pool, High(n.selection));
    var keep := Keeps(n.selection);
    var marked := Mark(Mark(sorted, pool.start, pool.start + count, keep), pool.start + count, pool.end, !keep);
    var s := st.(rolls := marked);
    SortedMarksInside(env.sort, st.rolls, pool, count, High(n.selection), keep);
    if n.next.Some? {
      var remaining := if keep then Pool(pool.start, pool.start + count) else Pool(pool.start + count, pool.end);
      assert Narrow(env, n, pool, count, st) == WithPool(env, n.next.value, remaining, s);
      WithPoolFrame(env, n.next.value, remaining, s);
      if WithPool(env, n.next.value, remaining, s).Ok? {
        Then(st.rolls, marked, WithPool(env, n.next.value, remaining, s).value.rolls, pool, remaining);
      }
    } else {
      assert Narrow(env, n, pool, count, st) == Ok(s);
    }
  }

  /** Sorting a pool and marking its two parts changes nothing outside it. */
  lemma SortedMarksInside(sort: Sorter, rolls: seq<DieRoll>, pool: Pool, count: nat, descending: bool, keep: bool)
    requires PoolIn(pool, rolls) && count <= Len(pool)
    ensures var sorted := SortRange(sort, rolls, pool, descending);
      KeepsOutside(rolls, Mark(Mark(sorted, pool.start, pool.start + count, keep), pool.start + count, pool.end, !keep), pool)
  {
    var sorted := SortRange(sort, rolls, pool, descending);
    var first := Mark(sorted, pool.start, pool.start + count, keep);
    SortKeepsOutside(sort, rolls, pool, descending);
    MarkKeepsOutside(sorted, pool.start, pool.start + count, keep);
    MarkKeepsOutside(first, pool.start + count, pool.end, !keep);
    Then(rolls, sorted, first, pool, Pool(pool.start, pool.start + count));
    Then(rolls, first, Mark(first, pool.start + count, pool.end, !keep), pool, Pool(pool.start + count, pool.end));
  }

  /** The new dice lie beyond the earlier ones, so marking or choosing them
      touches no earlier die; the original pool is the only other choice. */
  lemma {:induction false} RerollFrame(env: Env, n: Node, pool: Pool, st: State)
    requires n.Select? && (n.selection == Advantage || n.selection == Disadvantage)
    requires PoolIn(pool, st.rolls) && ValidPools(st)
    ensures Reroll(env, n, pool, st).Ok? ==> KeepsOutside(st.rolls, Reroll(env, n, pool, st).value.rolls, pool)
    decreases n, 1
  {
    var r := Reroll(env, n, pool, st);
    if r.Ok? {
      var s1 := RerollPool(env.strategy, pool.start, pool.end, st).value;
      var rerolled := Pool(|s1.rolls| - Len(pool), |s1.rolls|);
      var picked := PickPool(n.selection == Advantage, s1.rolls, pool, rerolled);
      var s2 := s1.(rolls := Mark(s1.rolls, picked.1.start, picked.1.end, false));
      RerollOnce(env, n, pool, st, s1);
      assert rerolled.start == |st.rolls|;
      assert (picked.0 == pool && picked.1 == rerolled) || (picked.0 == rerolled && picked.1 == pool);
      KeepsPrefix(st.rolls, s1.rolls);
      KeepsAll(st.rolls, pool);
      Then(st.rolls, st.rolls, s1.rolls, pool, Pool(0, 0));
      MarkKeepsOutside(s1.rolls, picked.1.start, picked.1.end, false);
      Then(st.rolls, s1.rolls, s2.rolls, pool, picked.1);
      if n.next.Some? {
        PickedIn(n.selection == Advantage, s1.rolls, pool, rerolled);
        MarkedPools(st, s1, picked.1.start, picked.1.end);
        WithPoolFrame(env, n.next.value, picked.0, s2);
        Then(st.rolls, s2.rolls, r.value.rolls, pool, picked.0);
      }
    }
  }

  /** An expression never changes a die rolled before it: the earlier rolls
      are a prefix of the rolls after it. */
  lemma ExprFrame(env: Env, n: Node, st: State)
    requires ValidPools(st) && IsExpr(n)
    ensures var r := Visit(env, n, st);
      r.Ok? ==> |st.rolls| <= |r.value.rolls| && r.value.rolls[..|st.rolls|] == st.rolls
  {
    VisitFrame(env, n, st);
    if Visit(env, n, st).Ok? {
      KeepsPrefix(st.rolls, Visit(env, n, st).value.rolls);
    }
  }

  /** A selection chain run under `pool` pushes no result, restores the pool
      stack, and changes no earlier die outside `pool`. */
  lemma ChainFrame(env: Env, m: Node, pool: Pool, st: State)
    requires PoolIn(pool, st.rolls) && ValidPools(st) && IsChain(m)
    ensures var r := WithPool(env, m, pool, st);
      r.Ok? ==> && r.value.results == st.results && r.value.pools == st.pools
                && KeepsOutside(st.rolls, r.value.rolls, pool)
  {
    WithPoolSound(env, m, pool, st);
    WithPoolFrame(env, m, pool, st);
  }

  /** A keep or drop with more of the chain after it: the same sort and marks
      as without it (which `NarrowMarks` describes), then the rest of the chain
      under the dice it counted for a keep, or the dice it left for a drop.
      That rest changes no die outside those, and pushes no result. */
  lemma NarrowChain(env: Env, n: Node, pool: Pool, count: nat, st: State)
    requires n.Select? && n.next.Some? && PoolIn(pool, st.rolls) && ValidPools(st) && count <= Len(pool)
    ensures var marked := Narrow(env, n.(next := None), pool, count, st);
      var remaining := if Keeps(n.selection) then Pool(pool.start, pool.start + count) else Pool(pool.start + count, pool.end);
      var r := Narrow(env, n, pool, count, st);
      && marked.Ok? && Inside(remaining, pool) && PoolIn(remaining, marked.value.rolls)
      && r == WithPool(env, n.next.value, remaining, marked.value)
      && (r.Ok? ==> KeepsOutside(marked.value.rolls, r.value.rolls, remaining))
      && (r.Ok? && IsChain(n.next.value) ==> r.value.results == st.results && r.value.pools == st.pools)
  {
    var last := n.(next := None);
    NarrowMarks(env, last, pool, count, st);
    var marked := Narrow(env, last, pool, count, st).value;
    var remaining := if Keeps(n.selection) then Pool(pool.start, pool.start + count) else Pool(pool.start + count, pool.end);
    assert Narrow(env, n, pool, count, st) == WithPool(env, n.next.value, remaining, marked);
    WithPoolFrame(env, n.next.value, remaining, marked);
    if IsChain(n.next.value) {
      ChainFrame(env, n.next.value, remaining, marked);
    }
  }

  /** Advantage or disadvantage with more of the chain after it: the same
      reroll and marks as without it (which `RerollPicks` describes), then the
      rest of the chain under the pool it kept, the new dice or the original
      ones. That rest changes no die outside it, and pushes no result. */
  lemma RerollChain(env: Env, n: Node, pool: Pool, st: State)
    requires n.Select? && (n.selection == Advantage || n.selection == Disadvantage) && n.next.Some?
    requires PoolIn(pool, st.rolls) && ValidPools(st)
    ensures var u := Reroll(env, n.(next := None), pool, st);
      var r := Reroll(env, n, pool, st);
      && (u.Err? ==> r == u)
      && (u.Ok? ==>
            var takeNew := (FaceSum(u.value.rolls[|st.rolls|..]) > FaceSum(u.value.rolls[pool.start..pool.end])) == (n.selection == Advantage);
            var kept := if takeNew then Pool(|st.rolls|, |u.value.rolls|) else pool;
            && PoolIn(kept, u.value.rolls)
            && r == WithPool(env, n.next.value, kept, u.value)
            && (r.Ok? ==> KeepsOutside(u.value.rolls, r.value.rolls, kept))
            && (r.Ok? && IsChain(n.next.value) ==> r.value.results == st.results && r.value.pools == st.pools))
  {
    var last := n.(next := None);
    var first := RerollPool(env.strategy, pool.start, pool.end, st);
    if first.Ok? {
      var s1 := first.value;
      RerollOnce(env, n, pool, st, s1);
      RerollOnce(env, last, pool, st, s1);
      var rerolled := Pool(|s1.rolls| - Len(pool), |s1.rolls|);
      var advantage := n.selection == Advantage;
      var picked := PickPool(advantage, s1.rolls, pool, rerolled);
      var u := s1.(rolls := Mark(s1.rolls, picked.1.start, picked.1.end, false));
      assert Reroll(env, last, pool, st) == Ok(u);
      KeptAfterReroll(advantage, st.rolls, s1.rolls, pool);
      PickedIn(advantage, s1.rolls, pool, rerolled);
      MarkedPools(st, s1, picked.1.start, picked.1.end);
      ChainUnder(env, n.next.value, picked.0, u, st);
    }
  }

  /** The rest of a chain, run under `kept` from `u`: the frame, and for a
      selection chain the stacks of `st`, which `u` shares. */
  lemma ChainUnder(env: Env, m: Node, kept: Pool, u: State, st: State)
    requires PoolIn(kept, u.rolls) && ValidPools(u) && u.results == st.results && u.pools == st.pools
    ensures var r := WithPool(env, m, kept, u);
      && (r.Ok? ==> KeepsOutside(u.rolls, r.value.rolls, kept))
      && (r.Ok? && IsChain(m) ==> r.value.results == st.results && r.value.pools == st.pools)
  {
    WithPoolFrame(env, m, kept, u);
    if IsChain(m) {
      ChainFrame(env, m, kept, u);
    }
  }

  /** The pool `PickPool` keeps after a reroll, in terms of the marked rolls:
      the new dice when their total is the one advantage (or disadvantage)
      prefers, the original pool otherwise. */
  lemma KeptAfterReroll(advantage: bool, rolls: seq<DieRoll>, after: seq<DieRoll>, pool: Pool)
    requires PoolIn(pool, rolls) && |after| == |rolls| + Len(pool) && after[..|rolls|] == rolls
    ensures var picked := PickPool(advantage, after, pool, Pool(|after| - Len(pool), |after|));
      var marked := Mark(after, picked.1.start, picked.1.end, false);
      var takeNew := (FaceSum(marked[|rolls|..]) > FaceSum(marked[pool.start..pool.end])) == advantage;
      picked.0 == if takeNew then Pool(|rolls|, |after|) else pool
  {
    var rerolled := Pool(|after| - Len(pool), |after|);
    var picked := PickPool(advantage, after, pool, rerolled);
    MarkedTotals(rolls, after, pool, picked.1, Mark(after, picked.1.start, picked.1.end, false));
    assert after[rerolled.start..rerolled.end] == after[|rolls|..];
    assert after[pool.start..pool.end] == rolls[pool.start..pool.end] by {
      assert after[..|rolls|][pool.start..pool.end] == after[pool.start..pool.end];
    }
  }

  /** The total of a roll with literal count and sides, with or without a
      selection chain: the earlier dice stay in front, the pool stack is as
      it was, and exactly one result is pushed, the kept dice this roll added
      (its pool and any rerolls) plus, as written, every earlier kept die. */
  lemma RollTotalFrom(env: Env, c: nat, s: int, select: Option<Node>, st: State)
    requires ValidPools(st) && (select.Some? ==> IsChain(select.value))
    ensures var r := Visit(env, Roll(Lit(c), Lit(s), select), st);
      r.Ok? ==>
        && |st.rolls| <= |r.value.rolls| && r.value.rolls[..|st.rolls|] == st.rolls
        && r.value.pools == st.pools
        && r.value.results == st.results + [(if env.scope == AllRolls then KeptSum(st.rolls) else 0) + KeptSum(r.value.rolls[|st.rolls|..])]
  {
    var n := Roll(Lit(c), Lit(s), select);
    VisitLiteralRoll(env, c, s, select, st);
    RollPoolTotal(env, n, c, s, st);
    var r := RollPool(env, n, c, s, st);
    if r.Ok? {
      var rolls := r.value.rolls;
      KeptSumSplit(st.rolls, rolls);
      assert RollTotal(env.scope, rolls, Pool(|st.rolls|, |rolls|))
          == (if env.scope == AllRolls then KeptSum(st.rolls) else 0) + KeptSum(rolls[|st.rolls|..]);
    }
  }

  /** After the count and the sides of a roll whose selection is a chain: the
      earlier dice stay in front and the total of the roll's pool is pushed. */
  lemma RollPoolTotal(env: Env, n: Node, c: nat, s: int, st: State)
    requires n.Roll? && ValidPools(st) && (n.select.Some? ==> IsChain(n.select.value))
    ensures var r := RollPool(env, n, c, s, st);
      r.Ok? ==>
        && |st.rolls| <= |r.value.rolls| && r.value.rolls[..|st.rolls|] == st.rolls
        && r.value.pools == st.pools
        && r.value.results == st.results + [RollTotal(env.scope, r.value.rolls, Pool(|st.rolls|, |r.value.rolls|))]
  {
    var r := RollPool(env, n, c, s, st);
    if r.Ok? {
      var s3 := RollDice(env.strategy, c, s, st).value;
      var pool := Pool(|s3.rolls| - c, |s3.rolls|);
      var s4 := (if n.select.None? then Ok(s3) else WithPool(env, n.select.value, pool, s3)).value;
      if n.select.Some? {
        ChainFrame(env, n.select.value, pool, s3);
      }
      var sorted := SortRange(env.sort, s4.rolls, pool, true);
      assert r.value == Push(s4.(rolls := sorted), RollTotal(env.scope, sorted, pool));
      RollPoolFrame(env, n, c, s, st);
      KeepsPrefix(st.rolls, sorted);
    }
  }
}
