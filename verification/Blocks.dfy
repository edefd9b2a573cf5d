/** Lease blocks over logical workers (src/cluster.rs `block_of`, `block_range`, `claimed_ranges`). */
module Blocks {
  function BlockOf(w: nat, logical: nat, blocks: nat): nat
    requires logical > 0
  {
    w * blocks / logical
  }

  function CeilDiv(a: nat, b: nat): nat
    requires b > 0
  {
    (a + b - 1) / b
  }

  function BlockStart(b: nat, logical: nat, blocks: nat): nat
    requires blocks > 0
  {
    CeilDiv(b * logical, blocks)
  }

  /** The workers of a block, from the first to before the second. */
  function BlockRange(b: nat, logical: nat, blocks: nat): (nat, nat)
    requires blocks > 0
  {
    (BlockStart(b, logical, blocks), BlockStart(b + 1, logical, blocks))
  }

  lemma MulLe(a: int, b: int, n: nat)
    requires a <= b
    ensures a * n <= b * n
  {
  }

  lemma CeilAtMost(a: nat, n: nat, w: nat)
    requires n > 0
    ensures CeilDiv(a, n) <= w <==> a <= w * n
  {
    var q := CeilDiv(a, n);
    assert q * n <= a + n - 1 < q * n + n;
    if q <= w { MulLe(q, w, n); } else { MulLe(w + 1, q, n); }
  }

  lemma QuotientIs(x: nat, n: nat, q: nat)
    requires n > 0
    ensures x / n == q <==> q * n <= x < (q + 1) * n
  {
    var p := x / n;
    assert p * n <= x < p * n + n;
    if p < q { MulLe(p + 1, q, n); } else if q < p { MulLe(q + 1, p, n); }
  }

  /** For every number of workers and blocks, dividing evenly or not: a worker is in a block's range exactly when the
      block covers it. */
  lemma RangeIsCover(w: nat, b: nat, logical: nat, blocks: nat)
    requires logical > 0 && blocks > 0
    ensures BlockRange(b, logical, blocks).0 <= w < BlockRange(b, logical, blocks).1 <==>
        BlockOf(w, logical, blocks) == b
  {
    CeilAtMost(b * logical, blocks, w);
    CeilAtMost((b + 1) * logical, blocks, w);
    QuotientIs(w * blocks, logical, b);
  }

  /** The ranges of all the blocks tile the workers. */
  lemma BlocksTile(w: nat, logical: nat, blocks: nat)
    requires w < logical && blocks > 0
    ensures BlockOf(w, logical, blocks) < blocks
    ensures BlockRange(blocks - 1, logical, blocks).1 == logical && BlockRange(0, logical, blocks).0 == 0
  {
    BelowAll(w, logical, blocks);
    QuotientIs(blocks * logical + blocks - 1, blocks, logical);
    assert blocks * logical == logical * blocks;
    assert (logical + 1) * blocks == logical * blocks + blocks;
    assert CeilDiv(0, blocks) == 0 by { QuotientIs(blocks - 1, blocks, 0); }
  }

  lemma BelowAll(w: nat, logical: nat, blocks: nat)
    requires w < logical && blocks > 0
    ensures BlockOf(w, logical, blocks) < blocks
  {
    var b := BlockOf(w, logical, blocks);
    QuotientIs(w * blocks, logical, b);
    MulLe(w + 1, logical, blocks);
    assert (w + 1) * blocks == w * blocks + blocks && blocks * logical == logical * blocks;
    if b >= blocks { MulLe(blocks, b, logical); }
  }

  lemma {:induction false} StartsAscend(b: nat, c: nat, logical: nat, blocks: nat)
    requires blocks > 0 && b <= c
    ensures BlockStart(b, logical, blocks) <= BlockStart(c, logical, blocks)
  {
    CeilAtMost(b * logical, blocks, BlockStart(c, logical, blocks));
    CeilAtMost(c * logical, blocks, BlockStart(c, logical, blocks));
    MulLe(b, c, logical);
  }

  /** With no more blocks than workers, no block is empty. */
  lemma NoEmptyBlock(b: nat, logical: nat, blocks: nat)
    requires 0 < blocks <= logical
    ensures BlockRange(b, logical, blocks).0 < BlockRange(b, logical, blocks).1
  {
    var s := BlockStart(b, logical, blocks);
    CeilAtMost((b + 1) * logical, blocks, s);
    assert s * blocks <= b * logical + blocks - 1;
    assert (b + 1) * logical == b * logical + logical;
  }

  /** The shares are even: two blocks differ by one worker at most, and by none when the blocks divide the workers. */
  lemma EvenShares(b: nat, logical: nat, blocks: nat)
    requires blocks > 0
    ensures var size, q := BlockRange(b, logical, blocks).1 - BlockRange(b, logical, blocks).0, logical / blocks;
            if logical % blocks == 0 then size == q else q <= size <= q + 1
  {
    var s, t := BlockStart(b, logical, blocks), BlockStart(b + 1, logical, blocks);
    var a := b * logical;
    CeilBounds(a, blocks);
    CeilBounds(a + logical, blocks);
    assert (b + 1) * logical == a + logical;
    assert (t - s) * blocks == t * blocks - s * blocks;
    Between(t - s, logical, blocks);
  }

  lemma CeilBounds(a: nat, n: nat)
    requires n > 0
    ensures a <= CeilDiv(a, n) * n < a + n
  {
  }

  lemma Between(size: int, x: nat, n: nat)
    requires n > 0 && x - n < size * n < x + n
    ensures if x % n == 0 then size == x / n else x / n <= size <= x / n + 1
  {
    var q, r := x / n, x % n;
    assert x == q * n + r;
    assert (size + 1) * n == size * n + n && (q + 1) * n == q * n + n && (q + 2) * n == q * n + 2 * n;
    if size < q { MulLe(size + 1, q, n); }
    if size > q { MulLe(q + 1, size, n); }
    if size > q + 1 { MulLe(q + 2, size, n); }
  }

  // ----- the ranges a node covers

  ghost predicate InSome(ranges: seq<(nat, nat)>, w: nat) {
    exists i :: 0 <= i < |ranges| && ranges[i].0 <= w < ranges[i].1
  }

  /** Ascending, and never touching: neighbours have been merged. */
  ghost predicate Separate(ranges: seq<(nat, nat)>) {
    && (forall i :: 0 <= i < |ranges| ==> ranges[i].0 <= ranges[i].1)
    && (forall i, j :: 0 <= i < j < |ranges| ==> ranges[i].1 < ranges[j].0)
  }

  lemma InSomeLast(ranges: seq<(nat, nat)>, last: (nat, nat), w: nat)
    ensures InSome(ranges + [last], w) <==> InSome(ranges, w) || last.0 <= w < last.1
  {
    var all := ranges + [last];
    if InSome(ranges, w) {
      var i :| 0 <= i < |ranges| && ranges[i].0 <= w < ranges[i].1;
      assert all[i] == ranges[i];
    }
    if last.0 <= w < last.1 { assert all[|ranges|] == last; }
  }

  /** What the first blocks cover. */
  ghost predicate Covered(held: seq<nat>, w: nat, logical: nat, blocks: nat)
    requires logical > 0
  {
    BlockOf(w, logical, blocks) in held
  }

  /** Merging a block's range into the list: onto the last range if it starts where that one ends. */
  function Merge(ranges: seq<(nat, nat)>, r: (nat, nat)): seq<(nat, nat)> {
    if ranges != [] && ranges[|ranges| - 1].1 == r.0
    then ranges[..|ranges| - 1] + [(ranges[|ranges| - 1].0, r.1)]
    else ranges + [r]
  }

  lemma MergeCovers(ranges: seq<(nat, nat)>, r: (nat, nat), w: nat)
    requires r.0 <= r.1 && Separate(ranges) && (ranges != [] ==> ranges[|ranges| - 1].1 <= r.0)
    ensures InSome(Merge(ranges, r), w) <==> InSome(ranges, w) || r.0 <= w < r.1
  {
    if ranges != [] && ranges[|ranges| - 1].1 == r.0 {
      var front, last := ranges[..|ranges| - 1], ranges[|ranges| - 1];
      InSomeLast(front, last, w);
      assert front + [last] == ranges;
      InSomeLast(front, (last.0, r.1), w);
    } else {
      InSomeLast(ranges, r, w);
    }
  }

  /** The ranges hold exactly the workers of the first `n` blocks. */
  ghost predicate CoversFirst(held: seq<nat>, n: nat, ranges: seq<(nat, nat)>, logical: nat, blocks: nat)
    requires logical > 0
  {
    n <= |held| && forall w: nat :: InSome(ranges, w) <==> Covered(held[..n], w, logical, blocks)
  }

  lemma MergeNext(held: seq<nat>, i: nat, ranges: seq<(nat, nat)>, logical: nat, blocks: nat)
    requires logical > 0 && blocks > 0 && i < |held| && CoversFirst(held, i, ranges, logical, blocks)
        && Separate(ranges)
    requires ranges != [] ==> ranges[|ranges| - 1].1 <= BlockRange(held[i], logical, blocks).0
    ensures CoversFirst(held, i + 1, Merge(ranges, BlockRange(held[i], logical, blocks)), logical, blocks)
    ensures Separate(Merge(ranges, BlockRange(held[i], logical, blocks)))
  {
    var r := BlockRange(held[i], logical, blocks);
    StartsAscend(held[i], held[i] + 1, logical, blocks);
    forall w: nat ensures InSome(Merge(ranges, r), w) <==> Covered(held[..i + 1], w, logical, blocks) {
      MergeCovers(ranges, r, w);
      RangeIsCover(w, held[i], logical, blocks);
      assert held[..i + 1] == held[..i] + [held[i]];
      assert InSome(ranges, w) <==> Covered(held[..i], w, logical, blocks);
    }
  }

  /** `claimed_ranges`: `held` are the blocks whose leases the node holds, sorted. */
  method ClaimedRanges(held: seq<nat>, logical: nat, blocks: nat) returns (ranges: seq<(nat, nat)>)
    requires logical > 0 && blocks > 0 && forall i, j :: 0 <= i < j < |held| ==> held[i] < held[j]
    ensures Separate(ranges)
    ensures forall w: nat :: InSome(ranges, w) <==> BlockOf(w, logical, blocks) in held
  {
    ranges := [];
    for i := 0 to |held|
      invariant Separate(ranges)
      invariant ranges != [] ==> i > 0 && ranges[|ranges| - 1].1 == BlockRange(held[i - 1], logical, blocks).1
      invariant CoversFirst(held, i, ranges, logical, blocks)
    {
      var r := BlockRange(held[i], logical, blocks);
      StartsAscend(held[i], held[i] + 1, logical, blocks);
      if i > 0 { StartsAscend(held[i - 1] + 1, held[i], logical, blocks); }
      ghost var before := ranges;
      MergeNext(held, i, ranges, logical, blocks);
      if ranges != [] && ranges[|ranges| - 1].1 == r.0 {
        ranges := ranges[..|ranges| - 1] + [(ranges[|ranges| - 1].0, r.1)];
      } else {
        ranges := ranges + [r];
      }
      assert ranges == Merge(before, r);
    }
    assert held[..|held|] == held;
    forall w: nat ensures InSome(ranges, w) <==> BlockOf(w, logical, blocks) in held {
      assert Covered(held[..|held|], w, logical, blocks) <==> BlockOf(w, logical, blocks) in held;
    }
  }
}
