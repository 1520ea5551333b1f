/** What the selections do to a pool: keep or drop the highest or lowest
    dice, and advantage or disadvantage, which rerolls the pool and keeps the
    better or worse of the two. */
module EvalSelect {
  import opened Wrappers
  import opened Ast
  import opened Dice
  import opened Eval
  import opened EvalProps
  import opened EvalValues

  /** The dice with their selection flags cleared: what a selection may not change. */
  function Unflagged(s: seq<DieRoll>): (r: seq<DieRoll>)
    ensures |r| == |s|
    ensures forall i :: 0 <= i < |s| ==> r[i] == s[i].(keep := true)
  {
    seq(|s|, i requires 0 <= i < |s| => s[i].(keep := true))
  }

  /** The first die of `a` sits somewhere in its rearrangement `b`, and the
      rest of `a` is a rearrangement of `b` without it. */
  lemma FindFirst(a: seq<DieRoll>, b: seq<DieRoll>) returns (j: nat)
    requires |a| > 0 && multiset(a) == multiset(b)
    ensures j < |b| && b[j] == a[0]
    ensures b == b[..j] + [a[0]] + b[j + 1..]
    ensures multiset(a[1..]) == multiset(b[..j] + b[j + 1..])
  {
    var x := a[0];
    assert x in multiset(b) by {
      assert x in multiset(a);
    }
    j :| 0 <= j < |b| && b[j] == x;
    var rest := b[..j] + b[j + 1..];
    assert b == b[..j] + [x] + b[j + 1..];
    assert a == [x] + a[1..];
    assert multiset(b) == multiset(b[..j]) + multiset{x} + multiset(b[j + 1..]);
    assert multiset(rest) == multiset(b[..j]) + multiset(b[j + 1..]);
    assert multiset(a[1..]) == multiset(a) - multiset{x};
    assert multiset(rest) == multiset(b) - multiset{x};
  }

  /** Clearing the flags of two rearrangements of the same dice gives two
      rearrangements of the same unflagged dice. */
  lemma {:induction false} UnflaggedPermutation(a: seq<DieRoll>, b: seq<DieRoll>)
    requires multiset(a) == multiset(b)
    ensures multiset(Unflagged(a)) == multiset(Unflagged(b))
    decreases |a|
  {
    if |a| == 0 {
      assert |b| == |multiset(b)| == 0;
    } else {
      var j := FindFirst(a, b);
      var rest := b[..j] + b[j + 1..];
      UnflaggedPermutation(a[1..], rest);
      var ux := [a[0].(keep := true)];
      var l, r := Unflagged(b[..j]), Unflagged(b[j + 1..]);
      assert Unflagged(a) == ux + Unflagged(a[1..]);
      assert Unflagged(b) == l + ux + r;
      assert Unflagged(rest) == l + r;
      calc {
        multiset(Unflagged(a));
        multiset(ux) + multiset(Unflagged(a[1..]));
        multiset(ux) + multiset(l + r);
        multiset(l) + multiset(ux) + multiset(r);
        multiset(l + ux + r);
      }
    }
  }

  /** A keep or drop with nothing after it, on a pool of at least `count`
      dice: only the pool changes; its dice are rearranged so the `count`
      dice the selection counts (the highest for `kh`/`dh`, the lowest for
      `kl`/`dl`) come first and are flagged kept for a keep and dropped for a
      drop, and every other die of the pool gets the opposite flag. */
  lemma NarrowMarks(env: Env, n: Node, pool: Pool, count: nat, st: State)
    requires n.Select? && n.next.None? && PoolIn(pool, st.rolls) && ValidPools(st) && count <= Len(pool)
    ensures var r := Narrow(env, n, pool, count, st);
      && r.Ok?
      && r.value.results == st.results && r.value.pools == st.pools
      && |r.value.rolls| == |st.rolls|
      && r.value.rolls[..pool.start] == st.rolls[..pool.start]
      && r.value.rolls[pool.end..] == st.rolls[pool.end..]
      && multiset(Unflagged(r.value.rolls[pool.start..pool.end])) == multiset(Unflagged(st.rolls[pool.start..pool.end]))
      && (forall i :: pool.start <= i < pool.start + count ==> r.value.rolls[i].keep == Keeps(n.selection))
      && (forall i :: pool.start + count <= i < pool.end ==> r.value.rolls[i].keep == !Keeps(n.selection))
      && (forall i, j :: pool.start <= i < pool.start + count <= j < pool.end ==>
            InOrder(r.value.rolls[i], r.value.rolls[j], High(n.selection)))
  {
    var sorted := SortRange(env.sort, st.rolls, pool, High(n.selection));
    var keep := Keeps(n.selection);
    var marked := Mark(Mark(sorted, pool.start, pool.start + count, keep), pool.start + count, pool.end, !keep);
    assert Narrow(env, n, pool, count, st) == Ok(st.(rolls := marked));
    MarkedPool(st.rolls, sorted, pool, count, High(n.selection), keep);
  }

  /** The marking step of a keep or drop, on the rolls after the sort. */
  lemma MarkedPool(rolls: seq<DieRoll>, sorted: seq<DieRoll>, pool: Pool, count: nat, descending: bool, keep: bool)
    requires PoolIn(pool, rolls) && |sorted| == |rolls| && count <= Len(pool)
    requires sorted[..pool.start] == rolls[..pool.start] && sorted[pool.end..] == rolls[pool.end..]
    requires SortedPermutation(rolls[pool.start..pool.end], sorted[pool.start..pool.end], descending)
    ensures var marked := Mark(Mark(sorted, pool.start, pool.start + count, keep), pool.start + count, pool.end, !keep);
      && |marked| == |rolls|
      && marked[..pool.start] == rolls[..pool.start]
      && marked[pool.end..] == rolls[pool.end..]
      && multiset(Unflagged(marked[pool.start..pool.end])) == multiset(Unflagged(rolls[pool.start..pool.end]))
      && (forall i :: pool.start <= i < pool.start + count ==> marked[i].keep == keep)
      && (forall i :: pool.start + count <= i < pool.end ==> marked[i].keep == !keep)
      && (forall i, j :: pool.start <= i < pool.start + count <= j < pool.end ==> InOrder(marked[i], marked[j], descending))
  {
    var marked := Mark(Mark(sorted, pool.start, pool.start + count, keep), pool.start + count, pool.end, !keep);
    assert marked[..pool.start] == sorted[..pool.start];
    assert marked[pool.end..] == sorted[pool.end..];
    SameDiceUnflagged(sorted[pool.start..pool.end], marked[pool.start..pool.end]);
    UnflaggedPermutation(sorted[pool.start..pool.end], rolls[pool.start..pool.end]);
    MarkedOrder(sorted, marked, pool, count, descending);
  }

  /** Two sequences of the same dice up to their flags. */
  lemma SameDiceUnflagged(s: seq<DieRoll>, t: seq<DieRoll>)
    requires |s| == |t| && forall i :: 0 <= i < |s| ==> t[i].(keep := true) == s[i].(keep := true)
    ensures Unflagged(t) == Unflagged(s)
  {
  }

  lemma MarkedOrder(sorted: seq<DieRoll>, marked: seq<DieRoll>, pool: Pool, count: nat, descending: bool)
    requires pool.start + count <= pool.end <= |sorted| == |marked|
    requires forall i :: 0 <= i < |sorted| ==> marked[i].result == sorted[i].result
    requires Sorted(sorted[pool.start..pool.end], descending)
    ensures forall i, j :: pool.start <= i < pool.start + count <= j < pool.end ==> InOrder(marked[i], marked[j], descending)
  {
    forall i, j | pool.start <= i < pool.start + count <= j < pool.end
      ensures InOrder(marked[i], marked[j], descending)
    {
      assert sorted[pool.start..pool.end][i - pool.start] == sorted[i];
      assert sorted[pool.start..pool.end][j - pool.start] == sorted[j];
    }
  }

  /** A keep or drop counts its literal amount as a `usize`, or one die when
      it has none, and a count larger than the pool is an error. */
  lemma SelectAmount(env: Env, n: Node, st: State)
    requires n.Select? && n.selection != Advantage && n.selection != Disadvantage
    requires n.amount.None? || n.amount.value.Lit?
    requires ValidPools(st) && |st.pools| > 0
    ensures var pool := st.pools[|st.pools| - 1];
      var count := if n.amount.None? then 1 else AsUsize(n.amount.value.value);
      Visit(env, n, st) == if count > Len(pool) then Err(InvalidSelection(count, Len(pool))) else Narrow(env, n, pool, count, st)
  {
    var pool := st.pools[|st.pools| - 1];
    if n.amount.Some? {
      PopPush(st, n.amount.value.value);
      assert SelectionSize(env, n, st) == Ok((AsUsize(n.amount.value.value), st));
    }
    assert Visit(env, n, st) == VisitSelect(env, n, st) == KeepDrop(env, n, pool, st);
  }

  /** A count below 2^64 is its own `usize`. */
  lemma UsizeOfSmall(v: int)
    requires 0 <= v < 0x1_0000_0000_0000_0000
    ensures AsUsize(v) == v
  {
  }

  /** `kh k` on a pool of `c < k` dice, the only pool: the selection's error. */
  lemma KeepTooManyOfPool(env: Env, sel: Node, st: State, c: nat, k: nat)
    requires sel == Select(KeepHighest, Some(Lit(k)), None)
    requires c < k < 0x1_0000_0000_0000_0000
    requires |st.rolls| == c && st.pools == [] && ValidPools(st)
    ensures WithPool(env, sel, Pool(0, c), st) == Err(InvalidSelection(k, c))
  {
    var pool := Pool(0, c);
    assert st.pools + [pool] == [pool];
    UsizeOfSmall(k);
    SelectAmount(env, sel, st.(pools := [pool]));
  }

  /** The roll of `c d s kh k` with `c < k` fails with the selection's error. */
  lemma KeepTooManyRoll(env: Env, c: nat, s: int, k: nat)
    requires c < k < 0x1_0000_0000_0000_0000 && !(env.strategy.Rand? && s < 1 && c > 0)
    ensures RollPool(env, Roll(Lit(c), Lit(s), Some(Select(KeepHighest, Some(Lit(k)), None))), c, s, Start)
         == Err(InvalidSelection(k, c))
  {
    var s3 := RollDice(env.strategy, c, s, Start).value;
    assert |s3.rolls| - c == 0;
    KeepTooManyOfPool(env, Select(KeepHighest, Some(Lit(k)), None), s3, c, k);
  }

  /** `c d s kh k` with more kept dice than rolled: the selection's error,
      naming both sizes. */
  lemma KeepTooMany(env: Env, c: nat, s: int, k: nat)
    requires c < k < 0x1_0000_0000_0000_0000 && !(env.strategy.Rand? && s < 1 && c > 0)
    ensures Evaluate(env, Roll(Lit(c), Lit(s), Some(Select(KeepHighest, Some(Lit(k)), None)))) == Err(InvalidSelection(k, c))
  {
    VisitLiteralRoll(env, c, s, Some(Select(KeepHighest, Some(Lit(k)), None)), Start);
    KeepTooManyRoll(env, c, s, k);
  }

  /** No die is kept: the kept total is zero. */
  lemma {:induction false} NoneKept(s: seq<DieRoll>)
    requires forall i :: 0 <= i < |s| ==> !s[i].keep
    ensures KeptSum(s) == 0
    decreases |s|
  {
    if |s| > 0 {
      NoneKept(s[1..]);
    }
  }

  /** Faces that are all `v` stay all `v` under any rearrangement and reflagging. */
  lemma SameFaces(rolls: seq<DieRoll>, marked: seq<DieRoll>, v: int)
    requires multiset(Unflagged(marked)) == multiset(Unflagged(rolls))
    requires forall i :: 0 <= i < |rolls| ==> rolls[i].result == v
    ensures forall i :: 0 <= i < |marked| ==> marked[i].result == v
  {
    forall i | 0 <= i < |marked|
      ensures marked[i].result == v
    {
      assert Unflagged(marked)[i] in multiset(Unflagged(rolls));
      var j :| 0 <= j < |rolls| && Unflagged(rolls)[j] == Unflagged(marked)[i];
    }
  }

  /** The first `k` dice kept and the rest dropped, all showing `v`: the kept total is `k v`. */
  lemma KeptPrefix(s: seq<DieRoll>, k: nat, v: int)
    requires k <= |s|
    requires forall i :: 0 <= i < |s| ==> s[i].result == v && s[i].keep == (i < k)
    ensures KeptSum(s) == k * v
  {
    assert s == s[..k] + s[k..];
    KeptSumAppend(s[..k], s[k..]);
    KeptSumBounds(s[..k], v, v);
    NoneKept(s[k..]);
  }

  /** The selection step of `KeepAtMinimum`: `kh k` over `c` dice showing 1. */
  lemma KeepOnesSelected(env: Env, c: nat, s: int, k: nat)
    requires env.strategy.Min? && k <= c && k < 0x1_0000_0000_0000_0000
    ensures RollDice(Min, c, s, Start).Ok?
    ensures var w := WithPool(env, Select(KeepHighest, Some(Lit(k)), None), Pool(0, c), RollDice(Min, c, s, Start).value);
      && w.Ok? && w.value.pools == [] && w.value.results == [] && |w.value.rolls| == c
      && KeptSum(w.value.rolls) == k
  {
    var sel := Select(KeepHighest, Some(Lit(k)), None);
    var s3 := RollDice(Min, c, s, Start).value;
    var pool := Pool(0, c);
    var inner := s3.(pools := [pool]);
    assert s3.(pools := s3.pools + [pool]) == inner;
    assert AsUsize(k) == k;
    SelectAmount(env, sel, inner);
    NarrowMarks(env, sel, pool, k, inner);
    var s4 := Narrow(env, sel, pool, k, inner).value;
    assert WithPool(env, sel, pool, s3) == Ok(s4.(pools := []));
    var marked := s4.rolls;
    assert marked[0..c] == marked && s3.rolls[0..c] == s3.rolls;
    forall i | 0 <= i < |s3.rolls|
      ensures s3.rolls[i].result == 1
    {
      assert Drawn(Min, s3.rolls, i, s);
      assert Face(Min, s, i) == Ok(1);
    }
    SameFaces(s3.rolls, marked, 1);
    KeptPrefix(marked, k, 1);
  }

  /** At the minimum every die shows 1, so keeping the highest `k` of `c`
      dice totals `k`. */
  lemma KeepAtMinimum(sort: Sorter, scope: TotalScope, c: nat, s: int, k: nat)
    requires k <= c && k < 0x1_0000_0000_0000_0000
    ensures var r := Evaluate(Env(Min, sort, scope), Roll(Lit(c), Lit(s), Some(Select(KeepHighest, Some(Lit(k)), None))));
      r.Ok? && r.value.0 == k
  {
    var env := Env(Min, sort, scope);
    var sel := Select(KeepHighest, Some(Lit(k)), None);
    var n := Roll(Lit(c), Lit(s), Some(sel));
    VisitLiteralRoll(env, c, s, n.select, Start);
    KeepOnesSelected(env, c, s, k);
    var s3 := RollDice(Min, c, s, Start).value;
    var s4 := WithPool(env, sel, Pool(0, c), s3).value;
    var pool := Pool(0, c);
    RollPoolSelected(env, n, c, s, Start);
    SortedTotal(scope, sort, s4.rolls, c);
    var sorted := SortRange(sort, s4.rolls, pool, true);
    assert RollPool(env, n, c, s, Start) == Ok(Push(s4.(rolls := sorted), k));
  }

  /** Sorting a whole pool of `c` dice keeps their total, either way it is taken. */
  lemma SortedTotal(scope: TotalScope, sort: Sorter, rolls: seq<DieRoll>, c: nat)
    requires |rolls| == c
    ensures RollTotal(scope, SortRange(sort, rolls, Pool(0, c), true), Pool(0, c)) == KeptSum(rolls)
  {
    var sorted := SortRange(sort, rolls, Pool(0, c), true);
    assert sorted[0..c] == sorted && rolls[0..c] == rolls;
    KeptSumPermutation(sorted, rolls);
    assert sorted[0..] == sorted;
  }

  /** A roll with a selection whose dice and selection succeed: the selected
      dice are sorted and their total pushed. */
  lemma RollPoolSelected(env: Env, n: Node, c: nat, s: int, st: State)
    requires n.Roll? && n.select.Some? && ValidPools(st)
    requires RollDice(env.strategy, c, s, st).Ok?
    requires var s3 := RollDice(env.strategy, c, s, st).value;
      WithPool(env, n.select.value, Pool(|st.rolls|, |st.rolls| + c), s3).Ok?
    ensures var s3 := RollDice(env.strategy, c, s, st).value;
      var pool := Pool(|st.rolls|, |st.rolls| + c);
      var s4 := WithPool(env, n.select.value, pool, s3).value;
      var sorted := SortRange(env.sort, s4.rolls, pool, true);
      RollPool(env, n, c, s, st) == Ok(Push(s4.(rolls := sorted), RollTotal(env.scope, sorted, pool)))
  {
    var s3 := RollDice(env.strategy, c, s, st).value;
    assert Pool(|st.rolls|, |st.rolls| + c) == Pool(|s3.rolls| - c, |s3.rolls|);
  }

  /** What advantage or disadvantage leaves in the rolls, `result`, when it
      rerolls `pool` of `rolls`: new dice appended after every existing roll,
      each with the sides of the die it replaces and the face the strategy
      gives its draw; the new dice are kept exactly when "the new total is
      higher" agrees with "this is advantage", and the original pool is then
      dropped, and otherwise left as it was. */
  predicate PickedReroll(strategy: Evaluation, advantage: bool, rolls: seq<DieRoll>, pool: Pool, result: seq<DieRoll>) {
    && PoolIn(pool, rolls)
    && |result| == |rolls| + Len(pool)
    && var rerolled := result[|rolls|..];
       var takeNew := (FaceSum(rerolled) > FaceSum(result[pool.start..pool.end])) == advantage;
       && (forall i :: 0 <= i < |rolls| ==>
             result[i] == if takeNew && pool.start <= i < pool.end then rolls[i].(keep := false) else rolls[i])
       && (forall j :: 0 <= j < Len(pool) ==>
             && rerolled[j].sides == rolls[pool.start + j].sides
             && rerolled[j].keep == takeNew
             && Face(strategy, rerolled[j].sides, |rolls| + j) == Ok(rerolled[j].result))
  }

  /** Advantage or disadvantage with nothing after it changes only the rolls,
      as `PickedReroll` describes, and does not abort when every die of the
      pool has a side or the dice are not random. */
  lemma RerollPicks(env: Env, n: Node, pool: Pool, st: State)
    requires n.Select? && (n.selection == Advantage || n.selection == Disadvantage) && n.next.None?
    requires PoolIn(pool, st.rolls) && ValidPools(st)
    requires !env.strategy.Rand? || forall i :: pool.start <= i < pool.end ==> st.rolls[i].sides >= 1
    ensures var r := Reroll(env, n, pool, st);
      && r.Ok?
      && r.value.results == st.results && r.value.pools == st.pools
      && PickedReroll(env.strategy, n.selection == Advantage, st.rolls, pool, r.value.rolls)
  {
    RerollSucceeds(env.strategy, pool.start, pool.end, st);
    var s1 := RerollPool(env.strategy, pool.start, pool.end, st).value;
    RerollOnce(env, n, pool, st, s1);
    RerollPicked(env.strategy, n.selection == Advantage, st.rolls, s1.rolls, pool);
  }

  /** What `PickPool` decides: one pool is kept and the other dropped;
      advantage keeps a pool whose face total is at least the other's and
      disadvantage one whose total is at most the other's; on a tie advantage
      keeps the original dice and disadvantage the new ones. */
  lemma PickPoolPrefers(advantage: bool, rolls: seq<DieRoll>, original: Pool, rerolled: Pool)
    requires PoolIn(original, rolls) && PoolIn(rerolled, rolls)
    ensures var r := PickPool(advantage, rolls, original, rerolled);
      && ((r.0 == original && r.1 == rerolled) || (r.0 == rerolled && r.1 == original))
      && (advantage ==> FaceSum(rolls[r.0.start..r.0.end]) >= FaceSum(rolls[r.1.start..r.1.end]))
      && (!advantage ==> FaceSum(rolls[r.0.start..r.0.end]) <= FaceSum(rolls[r.1.start..r.1.end]))
      && (FaceSum(rolls[original.start..original.end]) == FaceSum(rolls[rerolled.start..rerolled.end]) ==>
            r.0 == (if advantage then original else rerolled))
  {
  }

  /** The pool `PickPool` drops after a reroll: the original one when the new
      dice are taken, the new one otherwise. */
  lemma PickedDropped(advantage: bool, rolls: seq<DieRoll>, after: seq<DieRoll>, pool: Pool)
    requires PoolIn(pool, rolls) && |after| == |rolls| + Len(pool) && after[..|rolls|] == rolls
    ensures var takeNew := (FaceSum(after[|rolls|..]) > FaceSum(rolls[pool.start..pool.end])) == advantage;
      PickPool(advantage, after, pool, Pool(|after| - Len(pool), |after|)).1
      == if takeNew then pool else Pool(|rolls|, |after|)
  {
    assert after[|after| - Len(pool)..|after|] == after[|rolls|..];
    assert after[pool.start..pool.end] == rolls[pool.start..pool.end] by {
      assert after[..|rolls|][pool.start..pool.end] == after[pool.start..pool.end];
    }
  }

  /** The rolls after a reroll, marked as `PickPool` decides, are `PickedReroll`. */
  lemma RerollPicked(strategy: Evaluation, advantage: bool, rolls: seq<DieRoll>, after: seq<DieRoll>, pool: Pool)
    requires PoolIn(pool, rolls) && |after| == |rolls| + Len(pool) && after[..|rolls|] == rolls
    requires forall j :: |rolls| <= j < |after| ==> Rerolled(strategy, after, j, |rolls|, pool.start)
    ensures var dropped := PickPool(advantage, after, pool, Pool(|after| - Len(pool), |after|)).1;
      PickedReroll(strategy, advantage, rolls, pool, Mark(after, dropped.start, dropped.end, false))
  {
    PickedDropped(advantage, rolls, after, pool);
    var takeNew := (FaceSum(after[|rolls|..]) > FaceSum(rolls[pool.start..pool.end])) == advantage;
    var dropped := if takeNew then pool else Pool(|rolls|, |after|);
    var marked := Mark(after, dropped.start, dropped.end, false);
    MarkedTotals(rolls, after, pool, dropped, marked);
    MarkedEarlier(rolls, after, pool, takeNew, marked);
    MarkedRerolls(strategy, rolls, after, pool, takeNew, marked);
    PickedFromMarks(strategy, advantage, rolls, pool, marked, takeNew, FaceSum(after[|rolls|..]));
  }

  /** The marking facts of `MarkedTotals`, `MarkedEarlier` and `MarkedRerolls` are what `PickedReroll` asks for. */
  lemma PickedFromMarks(strategy: Evaluation, advantage: bool, rolls: seq<DieRoll>, pool: Pool, marked: seq<DieRoll>, takeNew: bool, totalNew: int)
    requires PoolIn(pool, rolls) && |marked| == |rolls| + Len(pool)
    requires FaceSum(marked[|rolls|..]) == totalNew
    requires FaceSum(marked[pool.start..pool.end]) == FaceSum(rolls[pool.start..pool.end])
    requires takeNew == ((totalNew > FaceSum(rolls[pool.start..pool.end])) == advantage)
    requires forall i :: 0 <= i < |rolls| ==>
      marked[i] == if takeNew && pool.start <= i < pool.end then rolls[i].(keep := false) else rolls[i]
    requires forall j :: 0 <= j < Len(pool) ==>
      && marked[|rolls|..][j].sides == rolls[pool.start + j].sides
      && marked[|rolls|..][j].keep == takeNew
      && Face(strategy, marked[|rolls|..][j].sides, |rolls| + j) == Ok(marked[|rolls|..][j].result)
    ensures PickedReroll(strategy, advantage, rolls, pool, marked)
  {
  }

  /** The marking step of a reroll, on the rolls after the new dice are drawn:
      marking changes no face, so neither total moves. */
  lemma MarkedTotals(rolls: seq<DieRoll>, after: seq<DieRoll>, pool: Pool, dropped: Pool, marked: seq<DieRoll>)
    requires PoolIn(pool, rolls) && |after| == |rolls| + Len(pool) && after[..|rolls|] == rolls
    requires marked == Mark(after, dropped.start, dropped.end, false)
    ensures FaceSum(marked[|rolls|..]) == FaceSum(after[|rolls|..])
    ensures FaceSum(marked[pool.start..pool.end]) == FaceSum(rolls[pool.start..pool.end])
  {
    assert after[pool.start..pool.end] == rolls[pool.start..pool.end] by {
      assert after[..|rolls|][pool.start..pool.end] == after[pool.start..pool.end];
    }
    SameFacesSameSum(marked[|rolls|..], after[|rolls|..]);
    SameFacesSameSum(marked[pool.start..pool.end], after[pool.start..pool.end]);
  }

  /** The earlier dice after marking: dropped exactly when the new dice are taken. */
  lemma MarkedEarlier(rolls: seq<DieRoll>, after: seq<DieRoll>, pool: Pool, takeNew: bool, marked: seq<DieRoll>)
    requires PoolIn(pool, rolls) && |after| == |rolls| + Len(pool) && after[..|rolls|] == rolls
    requires marked == if takeNew then Mark(after, pool.start, pool.end, false) else Mark(after, |rolls|, |after|, false)
    ensures forall i :: 0 <= i < |rolls| ==>
      marked[i] == if takeNew && pool.start <= i < pool.end then rolls[i].(keep := false) else rolls[i]
  {
    forall i | 0 <= i < |rolls|
      ensures marked[i] == if takeNew && pool.start <= i < pool.end then rolls[i].(keep := false) else rolls[i]
    {
      assert after[..|rolls|][i] == after[i];
    }
  }

  /** The new dice after marking: kept exactly when they are taken. */
  lemma MarkedRerolls(strategy: Evaluation, rolls: seq<DieRoll>, after: seq<DieRoll>, pool: Pool, takeNew: bool, marked: seq<DieRoll>)
    requires PoolIn(pool, rolls) && |after| == |rolls| + Len(pool) && after[..|rolls|] == rolls
    requires forall j :: |rolls| <= j < |after| ==> Rerolled(strategy, after, j, |rolls|, pool.start)
    requires marked == if takeNew then Mark(after, pool.start, pool.end, false) else Mark(after, |rolls|, |after|, false)
    ensures forall j :: 0 <= j < Len(pool) ==>
      && marked[|rolls|..][j].sides == rolls[pool.start + j].sides
      && marked[|rolls|..][j].keep == takeNew
      && Face(strategy, marked[|rolls|..][j].sides, |rolls| + j) == Ok(marked[|rolls|..][j].result)
  {
    forall j | 0 <= j < Len(pool)
      ensures marked[|rolls|..][j].sides == rolls[pool.start + j].sides
      ensures marked[|rolls|..][j].keep == takeNew
      ensures Face(strategy, marked[|rolls|..][j].sides, |rolls| + j) == Ok(marked[|rolls|..][j].result)
    {
      assert Rerolled(strategy, after, |rolls| + j, |rolls|, pool.start);
      assert after[..|rolls|][pool.start + j] == after[pool.start + j];
    }
  }

  /** The reroll loop draws without aborting when every die of the pool has
      at least one side, or when the dice are not random. */
  lemma {:induction false} RerollSucceeds(strategy: Evaluation, i: nat, end: nat, st: State)
    requires i <= end <= |st.rolls|
    requires !strategy.Rand? || forall k :: i <= k < end ==> st.rolls[k].sides >= 1
    ensures RerollPool(strategy, i, end, st).Ok?
    decreases end - i
  {
    if i < end {
      var face := Draw(strategy, st.rolls[i].sides, |st.rolls|);
      var s := st.(rolls := st.rolls + [DieRoll(st.rolls[i].sides, face.value, true)]);
      forall k | i + 1 <= k < end
        ensures s.rolls[k] == st.rolls[k]
      {
      }
      RerollSucceeds(strategy, i + 1, end, s);
    }
  }

  /** Flags do not enter the face total. */
  lemma {:induction false} SameFacesSameSum(s: seq<DieRoll>, t: seq<DieRoll>)
    requires |s| == |t| && forall i :: 0 <= i < |s| ==> s[i].result == t[i].result
    ensures FaceSum(s) == FaceSum(t)
    decreases |s|
  {
    if |s| > 0 {
      SameFacesSameSum(s[1..], t[1..]);
    }
  }

  /** One die at the maximum. */
  lemma OneDieAtMaximum(s: int)
    ensures RollDice(Max, 1, s, Start) == Ok(State([DieRoll(s, s, true)], [], []))
  {
    var s3 := RollDice(Max, 1, s, Start).value;
    assert Drawn(Max, s3.rolls, 0, s);
  }

  /** The reroll of that die: its faces tie. */
  lemma RerollTie(env: Env, s: int, advantage: bool)
    requires env.strategy.Max?
    ensures var sel := Select(if advantage then Advantage else Disadvantage, None, None);
      var st := State([DieRoll(s, s, true)], [], [Pool(0, 1)]);
      Visit(env, sel, st) == Ok(State([DieRoll(s, s, advantage), DieRoll(s, s, !advantage)], [], [Pool(0, 1)]))
  {
    var sel := Select(if advantage then Advantage else Disadvantage, None, None);
    var st := State([DieRoll(s, s, true)], [], [Pool(0, 1)]);
    assert Visit(env, sel, st) == VisitSelect(env, sel, st) == Reroll(env, sel, Pool(0, 1), st);
    RerollPicks(env, sel, Pool(0, 1), st);
    TiedPick(advantage, s, Reroll(env, sel, Pool(0, 1), st).value.rolls);
  }

  /** The only reroll of one die at the maximum: both faces are the side count. */
  lemma TiedPick(advantage: bool, s: int, rolls: seq<DieRoll>)
    requires PickedReroll(Max, advantage, [DieRoll(s, s, true)], Pool(0, 1), rolls)
    ensures rolls == [DieRoll(s, s, advantage), DieRoll(s, s, !advantage)]
  {
    assert |rolls| == 2;
    var rerolled := rolls[1..];
    assert rerolled[0] == rolls[1];
    assert rolls[1].sides == s && Face(Max, s, 1) == Ok(rolls[1].result);
    assert rolls[1].result == s;
    assert FaceSum(rerolled) == s by {
      assert rerolled == [rolls[1]];
    }
    assert FaceSum(rolls[0..1]) == s by {
      assert rolls[0..1] == [rolls[0]];
    }
    assert rolls[0] == DieRoll(s, s, advantage);
    assert rolls[1] == DieRoll(s, s, !advantage);
    assert rolls == [rolls[0], rolls[1]];
  }

  /** A sort of one die leaves it in place. */
  lemma SortOne(sort: Sorter, rolls: seq<DieRoll>)
    requires |rolls| >= 1
    ensures SortRange(sort, rolls, Pool(0, 1), true) == rolls
  {
    var sorted := SortRange(sort, rolls, Pool(0, 1), true);
    assert sorted[0..1][0] in multiset(rolls[0..1]);
    assert rolls[0..1] == [rolls[0]];
    assert sorted == sorted[0..1] + sorted[1..];
    assert rolls == rolls[0..1] + rolls[1..];
  }

  /** A single die rerolled at the maximum ties with its reroll: advantage
      keeps the original die and drops the reroll, disadvantage the reverse,
      and either way the total is the die's face. */
  lemma TieAtMaximum(sort: Sorter, scope: TotalScope, s: int, advantage: bool)
    ensures var selection := if advantage then Advantage else Disadvantage;
      Evaluate(Env(Max, sort, scope), Roll(Lit(1), Lit(s), Some(Select(selection, None, None))))
        == Ok((s, [DieRoll(s, s, advantage), DieRoll(s, s, !advantage)]))
  {
    var env := Env(Max, sort, scope);
    var sel := Select(if advantage then Advantage else Disadvantage, None, None);
    var n := Roll(Lit(1), Lit(s), Some(sel));
    var expected := [DieRoll(s, s, advantage), DieRoll(s, s, !advantage)];
    VisitLiteralRoll(env, 1, s, n.select, Start);
    OneDieAtMaximum(s);
    RerollTie(env, s, advantage);
    var s3 := State([DieRoll(s, s, true)], [], []);
    assert s3.(pools := s3.pools + [Pool(0, 1)]) == State([DieRoll(s, s, true)], [], [Pool(0, 1)]);
    assert WithPool(env, sel, Pool(0, 1), s3) == Ok(State(expected, [], []));
    SortOne(sort, expected);
    assert expected[0..] == expected;
    assert KeptSum(expected) == s by {
      var last := [DieRoll(s, s, !advantage)];
      assert expected[1..] == last && last[1..] == [];
      assert KeptSum(last) == (if advantage then 0 else s) + KeptSum([]);
    }
    assert RollTotal(scope, expected, Pool(0, 1)) == s;
    assert RollPool(env, n, 1, s, Start) == Ok(Push(State(expected, [], []), s));
  }
}
