/** The evaluator's dice (src/eval.rs): die rolls, the four evaluation
    strategies, Rust's truncating integer division, and the sorting the
    evaluator applies to a pool of rolls. */
module Dice {
  import opened Wrappers

  /** One die roll: its number of sides, the face it landed on, and whether a
      selection has kept or discarded it. */
  datatype DieRoll = DieRoll(sides: int, result: int, keep: bool)

  /** The source of random faces, standing in for the random number generator:
      the face of the `k`-th die drawn in an evaluation when it has `sides`
      sides. Like `gen_range(1..sides + 1)`, it lands in `[1, sides]`. */
  type Oracle = f: (nat, int) -> int | forall k: nat, sides: int :: 1 <= sides ==> 1 <= f(k, sides) <= sides
    witness (k: nat, sides: int) => 1

  /** `Evaluation`: random dice, or every die at its lowest, middle or highest face. */
  datatype Evaluation = Rand(rng: Oracle) | Min | Mid | Max

  /** Rust's `/` on integers: the quotient truncated toward zero. */
  function TruncDiv(n: int, d: int): (q: int)
    requires d != 0
    ensures Abs(q) == Abs(n) / Abs(d)
    ensures (n < 0) != (d < 0) ==> q <= 0
    ensures (n < 0) == (d < 0) ==> q >= 0
  {
    var m := NatDiv(Abs(n), Abs(d));
    if (n < 0) != (d < 0) then 0 - m else m
  }

  /** Division of magnitudes, where truncation and Dafny's Euclidean division agree. */
  function NatDiv(a: nat, b: nat): nat
    requires b > 0
  {
    a / b
  }

  function Abs(n: int): nat {
    if n < 0 then -n else n
  }

  /** Why an evaluation in Rust would panic rather than return: a draw from
      the empty range `1..sides + 1`, or the pool start `len - count as usize`
      underflowing for a negative count. */
  datatype Abort = EmptyDieRange | NegativeCount

  /** The face of one die, the `k`-th drawn in this evaluation, under `strategy`. */
  function Face(strategy: Evaluation, sides: int, k: nat): (r: Result<int, Abort>)
    ensures r.Ok? && strategy.Rand? ==> 1 <= r.value <= sides
    ensures r.Err? <==> strategy.Rand? && sides < 1
    ensures strategy.Min? ==> r == Ok(1)
    ensures strategy.Max? ==> r == Ok(sides)
    ensures strategy.Mid? && sides >= 0 ==> r == Ok(sides / 2)
  {
    match strategy
    case Rand(rng) => if sides < 1 then Err(EmptyDieRange) else Ok(rng(k, sides))
    case Min => Ok(1)
    case Mid => Ok(TruncDiv(sides, 2))
    case Max => Ok(sides)
  }

  /** `a` may come before `b`: descending or ascending by face. */
  predicate InOrder(a: DieRoll, b: DieRoll, descending: bool) {
    if descending then a.result >= b.result else a.result <= b.result
  }

  predicate Sorted(s: seq<DieRoll>, descending: bool) {
    forall i, j :: 0 <= i < j < |s| ==> InOrder(s[i], s[j], descending)
  }

  /** `t` is `s` rearranged into order. */
  predicate SortedPermutation(s: seq<DieRoll>, t: seq<DieRoll>, descending: bool) {
    |t| == |s| && multiset(t) == multiset(s) && Sorted(t, descending)
  }

  /** `insert` step of an insertion sort. */
  function Insert(x: DieRoll, s: seq<DieRoll>, descending: bool): (r: seq<DieRoll>)
    requires Sorted(s, descending)
    ensures |r| == |s| + 1 && multiset(r) == multiset(s) + multiset{x}
    ensures Sorted(r, descending)
  {
    if |s| == 0 then [x]
    else if InOrder(x, s[0], descending) then [x] + s
    else
      var tail := Insert(x, s[1..], descending);
      assert s == [s[0]] + s[1..];
      HeadBeforeAll(s[0], s[1..], x, tail, descending);
      [s[0]] + tail
  }

  /** A die that may come before `x` and before every die of `rest` may come
      before every die of any rearrangement of `rest` with `x`. */
  lemma HeadBeforeAll(head: DieRoll, rest: seq<DieRoll>, x: DieRoll, tail: seq<DieRoll>, descending: bool)
    requires InOrder(head, x, descending)
    requires forall j :: 0 <= j < |rest| ==> InOrder(head, rest[j], descending)
    requires multiset(tail) == multiset(rest) + multiset{x}
    ensures forall i :: 0 <= i < |tail| ==> InOrder(head, tail[i], descending)
  {
    forall i | 0 <= i < |tail|
      ensures InOrder(head, tail[i], descending)
    {
      assert tail[i] in multiset(tail);
      if tail[i] != x {
        assert tail[i] in multiset(rest);
        var j :| 0 <= j < |rest| && rest[j] == tail[i];
      }
    }
  }

  /** A stable insertion sort: one of the orderings `sort_unstable_by` may produce. */
  function InsertionSort(s: seq<DieRoll>, descending: bool): (r: seq<DieRoll>)
    ensures SortedPermutation(s, r, descending)
  {
    if |s| == 0 then []
    else
      assert s == [s[0]] + s[1..];
      Insert(s[0], InsertionSort(s[1..], descending), descending)
  }

  /** `sort_unstable_by` on the face: it may order equal faces either way, so
      the model takes any function that returns a sorted rearrangement. */
  type Sorter = f: (seq<DieRoll>, bool) -> seq<DieRoll> | forall s, descending :: SortedPermutation(s, f(s, descending), descending)
    witness (s: seq<DieRoll>, descending: bool) => InsertionSort(s, descending)

  /** The sum of the faces of the kept rolls. */
  function KeptSum(s: seq<DieRoll>): int {
    if |s| == 0 then 0 else (if s[0].keep then s[0].result else 0) + KeptSum(s[1..])
  }

  /** The kept total of two runs of dice is the sum of their kept totals. */
  lemma {:induction false} KeptSumAppend(a: seq<DieRoll>, b: seq<DieRoll>)
    ensures KeptSum(a + b) == KeptSum(a) + KeptSum(b)
    decreases |a|
  {
    if |a| > 0 {
      assert (a + b)[1..] == a[1..] + b;
      KeptSumAppend(a[1..], b);
    } else {
      assert a + b == b;
    }
  }

  /** The sum of all the faces, kept or not. */
  function FaceSum(s: seq<DieRoll>): int {
    if |s| == 0 then 0 else s[0].result + FaceSum(s[1..])
  }
}
