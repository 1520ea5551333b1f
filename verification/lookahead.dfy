/** The one-item lookahead adapter (src/lookahead.rs), generic in the item type.

    The wrapped iterator is modelled as the sequence of everything it will ever
    yield together with a cursor `next` (how many items it has yielded so far);
    `peek` is the single buffered slot. */
module Lookaheads {
  import opened Wrappers

  datatype Lookahead<T> = Lookahead(items: seq<T>, next: nat, peek: Option<T>)

  /** The underlying iterator's `next`: the item under the cursor, if any, and the new cursor. */
  function Pull<T>(items: seq<T>, next: nat): (Option<T>, nat) {
    if next < |items| then (Some(items[next]), next + 1) else (None, next)
  }

  /** The slot holds the item the underlying iterator yielded last, or is empty
      exactly when the underlying iterator is exhausted. */
  predicate Valid<T(==)>(la: Lookahead<T>) {
    && la.next <= |la.items|
    && (la.peek.Some? ==> 1 <= la.next && la.peek.value == la.items[la.next - 1])
    && (la.peek.None? ==> la.next == |la.items|)
  }

  /** The items `peek` will still show, in order: the slot, then what the iterator has left. */
  function Stream<T>(la: Lookahead<T>): seq<T> {
    match la.peek
    case None => []
    case Some(x) => [x] + (if la.next <= |la.items| then la.items[la.next..] else [])
  }

  /** How many more calls of `next` can still find an item in the slot: the
      measure the parser's recursion decreases. */
  function Remaining<T>(la: Lookahead<T>): nat {
    if la.peek.None? then 0 else if la.next <= |la.items| then |la.items| - la.next + 1 else 1
  }

  /** `Lookahead::peek`: the buffered item; it reads the state and changes nothing. */
  function Peek<T>(la: Lookahead<T>): Option<T> {
    la.peek
  }

  /** `Lookahead::next`: fetches the following underlying item, stores it as the
      new peek, and returns that same newly fetched item. */
  function Next<T(==)>(la: Lookahead<T>): (r: (Lookahead<T>, Option<T>))
    ensures r.0.items == la.items
    ensures Peek(r.0) == r.1
    ensures la.next < |la.items| ==> r.1 == Some(la.items[la.next]) && r.0.next == la.next + 1
    ensures la.next >= |la.items| ==> r.1 == None && r.0.next == la.next
    ensures Valid(la) ==> Valid(r.0)
    ensures Valid(la) && la.peek.None? ==> r.0 == la
    ensures la.peek.Some? ==> Remaining(r.0) < Remaining(la)
  {
    var (fetched, cursor) := Pull(la.items, la.next);
    (Lookahead(la.items, cursor, fetched), fetched)
  }

  /** Each `next` on a non-empty slot moves the stream on by exactly one item. */
  lemma NextStream<T>(la: Lookahead<T>)
    requires Valid(la) && la.peek.Some?
    ensures Stream(Next(la).0) == Stream(la)[1..]
  {
  }

  /** `Lookahead::new`: wraps the iterator and immediately loads its first item into the slot. */
  function New<T(==)>(items: seq<T>): (la: Lookahead<T>)
    ensures Valid(la) && la.items == items
    ensures Peek(la) == (if |items| > 0 then Some(items[0]) else None)
    ensures Stream(la) == items
  {
    Next(Lookahead(items, 0, None)).0
  }

  /** The state of a valid lookahead whose slot shows `items[i]` (or is empty once `i` reaches the end). */
  function At<T>(items: seq<T>, i: nat): Lookahead<T> {
    if i < |items| then Lookahead(items, i + 1, Some(items[i])) else Lookahead(items, |items|, None)
  }

  /** `k` successive calls of `next`. */
  function Advance<T(==)>(la: Lookahead<T>, k: nat): Lookahead<T>
    decreases k
  {
    if k == 0 then la else Advance(Next(la).0, k - 1)
  }

  lemma AtValid<T>(items: seq<T>, i: nat)
    ensures Valid(At(items, i))
    ensures Peek(At(items, i)) == (if i < |items| then Some(items[i]) else None)
    ensures i <= |items| ==> Stream(At(items, i)) == items[i..]
  {
  }

  /** Every valid state is one of the `At` states. */
  lemma ValidIsAt<T>(la: Lookahead<T>)
    requires Valid(la)
    ensures la == At(la.items, if la.peek.Some? then la.next - 1 else |la.items|)
  {
  }

  lemma NextAt<T>(items: seq<T>, i: nat)
    ensures Next(At(items, i)).0 == At(items, i + 1)
  {
  }

  lemma {:induction false} AdvanceAt<T>(items: seq<T>, i: nat, k: nat)
    ensures Advance(At(items, i), k) == At(items, i + k)
    decreases k
  {
    if k > 0 {
      calc {
        Advance(At(items, i), k);
        Advance(Next(At(items, i)).0, k - 1);
        { NextAt(items, i); }
        Advance(At(items, i + 1), k - 1);
        { AdvanceAt(items, i + 1, k - 1); }
        At(items, i + k);
      }
    }
  }

  /** The values `peek` shows across successive calls of `next` are exactly the
      underlying items in order, and `None` once they are exhausted. */
  lemma PeekSequence<T>(items: seq<T>, k: nat)
    ensures Peek(Advance(New(items), k)) == (if k < |items| then Some(items[k]) else None)
  {
    assert New(items) == At(items, 0);
    AdvanceAt(items, 0, k);
  }

  /** Once the slot is empty it stays empty and `next` keeps returning `None`. */
  lemma ExhaustedStaysExhausted<T>(la: Lookahead<T>, k: nat)
    requires Valid(la) && Peek(la).None?
    ensures Advance(la, k) == la
    ensures Next(Advance(la, k)).1 == None
  {
    ValidIsAt(la);
    AdvanceAt(la.items, |la.items|, k);
  }
}
