/** The incremental Merkle commitment of contracts/progress/src/lib.rs: a list of peaks that
    is updated like a binary counter, and the root folded from it. */
module Frontier {
  import opened Prelude
  import opened MerkleTree

  /** Root of one perfect subtree of 2^level leaves. */
  datatype Peak = Peak(level: nat, hash: Digest)

  // ----- what the frontier of a leaf list is -------------------------------------------

  /** The length of `q` blocks of 2^level leaves. */
  function Span(q: nat, level: nat): nat
    decreases q
  {
    if q == 0 then 0
    else Span(q / 2, level + 1) + if q % 2 == 0 then 0 else Pow2(level)
  }

  lemma {:induction false} SpanNext(q: nat, level: nat)
    ensures Span(q + 1, level) == Span(q, level) + Pow2(level)
    decreases q
  {
    if q % 2 == 1 {
      SpanNext(q / 2, level + 1);
    }
  }

  lemma {:induction false} SpanOfLeaves(n: nat)
    ensures Span(n, 0) == n
  {
    if n > 0 {
      SpanOfLeaves(n - 1);
      SpanNext(n - 1, 0);
    }
  }

  /** The peaks at `level` and above for the first `q` blocks of 2^level leaves: an odd `q`
      leaves one block over, the last one, which is a peak. */
  function PeaksFrom(leaves: seq<Digest>, level: nat, q: nat): seq<Peak>
    requires Span(q, level) <= |leaves|
    decreases q
  {
    if q == 0 then []
    else
      var rest := PeaksFrom(leaves, level + 1, q / 2);
      if q % 2 == 0 then rest
      else [Peak(level, MthRange(leaves, Span(q / 2, level + 1), Span(q, level)))] + rest
  }

  /** The frontier of a leaf list, defined from the list and not from the append loop. */
  function FrontierOf(leaves: seq<Digest>): seq<Peak> {
    SpanOfLeaves(|leaves|);
    PeaksFrom(leaves, 0, |leaves|)
  }

  // ----- the append loop ---------------------------------------------------------------

  /** Position of the last peak at `level` among the first `n`, or -1. */
  function LastAt(frontier: seq<Peak>, level: nat, n: nat): (i: int)
    requires n <= |frontier|
    ensures -1 <= i < n
    ensures i >= 0 ==> frontier[i].level == level
  {
    if n == 0 then -1
    else if frontier[n - 1].level == level then n - 1
    else LastAt(frontier, level, n - 1)
  }

  /** Carrying a perfect subtree of 2^level leaves into any peak list. */
  function Carry(frontier: seq<Peak>, level: nat, hash: Digest): seq<Peak>
    decreases |frontier|
  {
    var i := LastAt(frontier, level, |frontier|);
    if i < 0 then [Peak(level, hash)] + frontier
    else Carry(frontier[..i] + frontier[i + 1..], level + 1, NodeDigest(frontier[i].hash, hash))
  }

  /** `frontier_append`, for any peak list at all.  The outer loop ends because every round
      that does not return removes one peak. */
  method FrontierAppend(frontier: seq<Peak>, leaf: Digest) returns (updated: seq<Peak>)
    ensures updated == Carry(frontier, 0, leaf)
  {
    updated := frontier;
    var carryLevel: nat := 0;
    var carryHash := leaf;
    while true
      invariant Carry(updated, carryLevel, carryHash) == Carry(frontier, 0, leaf)
      decreases |updated|
    {
      var matchIdx: int := -1;
      var j := |updated|;
      while j > 0
        invariant 0 <= j <= |updated|
        invariant matchIdx == -1
        invariant LastAt(updated, carryLevel, j) == LastAt(updated, carryLevel, |updated|)
      {
        if updated[j - 1].level == carryLevel {
          matchIdx := j - 1;
          break;
        }
        j := j - 1;
      }
      assert matchIdx == LastAt(updated, carryLevel, |updated|);
      if matchIdx < 0 {
        updated := [Peak(carryLevel, carryHash)] + updated;
        return;
      }
      var existing := updated[matchIdx];
      carryHash := NodeDigest(existing.hash, carryHash);
      carryLevel := carryLevel + 1;
      updated := updated[..matchIdx] + updated[matchIdx + 1..];
    }
  }

  /** Every peak is at `level` or above, in strictly ascending order. */
  ghost predicate AscendingFrom(peaks: seq<Peak>, level: nat) {
    && (forall i :: 0 <= i < |peaks| ==> level <= peaks[i].level)
    && (forall i, j :: 0 <= i < j < |peaks| ==> peaks[i].level < peaks[j].level)
  }

  lemma {:induction false} PeaksAscend(leaves: seq<Digest>, level: nat, q: nat)
    requires Span(q, level) <= |leaves|
    ensures AscendingFrom(PeaksFrom(leaves, level, q), level)
    decreases q
  {
    if q > 0 {
      PeaksAscend(leaves, level + 1, q / 2);
    }
  }

  lemma {:induction false} FirstAt(first: Peak, rest: seq<Peak>, n: nat)
    requires 1 <= n <= |rest| + 1
    requires forall i :: 0 <= i < |rest| ==> rest[i].level != first.level
    ensures LastAt([first] + rest, first.level, n) == 0
  {
    if n > 1 {
      assert ([first] + rest)[n - 1] == rest[n - 2];
      FirstAt(first, rest, n - 1);
    }
  }

  /** A carry above which no peak waits becomes the lowest peak. */
  lemma CarryLands(rest: seq<Peak>, level: nat, hash: Digest)
    requires forall i :: 0 <= i < |rest| ==> rest[i].level != level
    ensures Carry(rest, level, hash) == [Peak(level, hash)] + rest
  {
  }

  /** One round of the append loop that finds a peak at the carry's level. */
  lemma CarryMerges(frontier: seq<Peak>, level: nat, hash: Digest)
    requires LastAt(frontier, level, |frontier|) >= 0
    ensures var i := LastAt(frontier, level, |frontier|);
      Carry(frontier, level, hash)
      == Carry(frontier[..i] + frontier[i + 1..], level + 1, NodeDigest(frontier[i].hash, hash))
  {
  }

  lemma DropFirst<T>(x: T, s: seq<T>)
    ensures ([x] + s)[..0] + ([x] + s)[1..] == s
  {
  }

  /** A carry that meets the lowest peak merges with it and goes one level up. */
  lemma CarryMeets(first: Peak, rest: seq<Peak>, hash: Digest)
    requires forall i :: 0 <= i < |rest| ==> rest[i].level != first.level
    ensures Carry([first] + rest, first.level, hash)
         == Carry(rest, first.level + 1, NodeDigest(first.hash, hash))
  {
    hide Carry, LastAt;
    var f := [first] + rest;
    FirstAt(first, rest, |f|);
    CarryMerges(f, first.level, hash);
    DropFirst(first, rest);
  }

  /** Carrying the next block of 2^level leaves gives the peaks of one more block. */
  lemma {:induction false} CarryBlock(leaves: seq<Digest>, level: nat, q: nat)
    requires Span(q, level) < Span(q + 1, level) <= |leaves|
    ensures Carry(PeaksFrom(leaves, level, q), level,
                  MthRange(leaves, Span(q, level), Span(q + 1, level)))
         == PeaksFrom(leaves, level, q + 1)
    decreases q
  {
    hide Carry, LastAt, MthRange;
    var rest := PeaksFrom(leaves, level + 1, q / 2);
    PeaksAscend(leaves, level + 1, q / 2);
    SpanNext(q, level);
    if q % 2 == 0 {
      CarryLands(rest, level, MthRange(leaves, Span(q, level), Span(q + 1, level)));
    } else {
      var start, mid, end := Span(q / 2, level + 1), Span(q, level), Span(q + 1, level);
      CarryMeets(Peak(level, MthRange(leaves, start, mid)), rest, MthRange(leaves, mid, end));
      RangeOfBlocks(leaves, start, mid, end, level);
      CarryBlock(leaves, level + 1, q / 2);
    }
  }

  lemma {:induction false} PeaksOfPrefix(leaves: seq<Digest>, longer: seq<Digest>, level: nat, q: nat)
    requires Span(q, level) <= |leaves| && leaves <= longer
    ensures PeaksFrom(longer, level, q) == PeaksFrom(leaves, level, q)
    decreases q
  {
    if q > 0 {
      PeaksOfPrefix(leaves, longer, level + 1, q / 2);
      if q % 2 == 1 {
        RangeOfPrefix(leaves, longer, Span(q / 2, level + 1), Span(q, level));
      }
    }
  }

  /** One append turns the frontier of a list into the frontier of the longer list. */
  lemma AppendExtends(leaves: seq<Digest>, leaf: Digest)
    ensures Carry(FrontierOf(leaves), 0, leaf) == FrontierOf(leaves + [leaf])
  {
    var n, longer := |leaves|, leaves + [leaf];
    SpanOfLeaves(n);
    SpanOfLeaves(n + 1);
    PeaksOfPrefix(leaves, longer, 0, n);
    CarryBlock(longer, 0, n);
  }

  // ----- the root ----------------------------------------------------------------------

  /** Wrapping an accumulator in the peaks from left to right. */
  function FoldOnto(acc: Digest, peaks: seq<Peak>): Digest
    decreases |peaks|
  {
    if peaks == [] then acc
    else FoldOnto(NodeDigest(peaks[0].hash, acc), peaks[1..])
  }

  function RootOf(frontier: seq<Peak>): Digest {
    if frontier == [] then ZERO_ROOT else FoldOnto(frontier[0].hash, frontier[1..])
  }

  /** `frontier_root`: the forward fold over the ascending peaks. */
  method FrontierRoot(frontier: seq<Peak>) returns (root: Digest)
    ensures root == RootOf(frontier)
  {
    if |frontier| == 0 {
      return ZERO_ROOT;
    }
    root := frontier[0].hash;
    for i := 1 to |frontier|
      invariant FoldOnto(root, frontier[i..]) == RootOf(frontier)
    {
      root := NodeDigest(frontier[i].hash, root);
    }
  }

  /** Folding the peaks onto the root of a shorter tail gives the root of everything. */
  lemma {:induction false} FoldIsMth(leaves: seq<Digest>, level: nat, q: nat, end: nat)
    requires Span(q, level) < end <= |leaves|
    requires end - Span(q, level) <= Pow2(level)
    ensures FoldOnto(MthRange(leaves, Span(q, level), end), PeaksFrom(leaves, level, q))
         == MthRange(leaves, 0, end)
    decreases q
  {
    hide MthRange;
    if q > 0 {
      var rest := PeaksFrom(leaves, level + 1, q / 2);
      FoldIsMth(leaves, level + 1, q / 2, end);
      if q % 2 == 1 {
        var start, mid := Span(q / 2, level + 1), Span(q, level);
        RangeOfBlocks(leaves, start, mid, end, level);
        assert PeaksFrom(leaves, level, q)[1..] == rest;
      }
    }
  }

  lemma {:induction false} PeaksRoot(leaves: seq<Digest>, level: nat, q: nat)
    requires 1 <= q && Span(q, level) <= |leaves|
    ensures Span(q, level) >= 1
    ensures RootOf(PeaksFrom(leaves, level, q)) == MthRange(leaves, 0, Span(q, level))
    decreases q
  {
    if q % 2 == 0 {
      PeaksRoot(leaves, level + 1, q / 2);
    } else {
      FoldIsMth(leaves, level + 1, q / 2, Span(q, level));
      assert PeaksFrom(leaves, level, q)[1..] == PeaksFrom(leaves, level + 1, q / 2);
    }
  }

  /** The root folded from the frontier is the Merkle Tree Hash, for every leaf list. */
  lemma FrontierRootIsMth(leaves: seq<Digest>)
    requires |leaves| >= 1
    ensures RootOf(FrontierOf(leaves)) == Mth(leaves)
    ensures RootOf(FrontierOf(leaves)) == MthRange(leaves, 0, |leaves|)
  {
    SpanOfLeaves(|leaves|);
    PeaksRoot(leaves, 0, |leaves|);
    MthRangeIsMth(leaves, 0, |leaves|);
    assert leaves[0..|leaves|] == leaves;
  }

  /** The frontier built by appending the leaves one after the other. */
  function Appended(leaves: seq<Digest>): seq<Peak> {
    if leaves == [] then []
    else Carry(Appended(leaves[..|leaves| - 1]), 0, leaves[|leaves| - 1])
  }

  /** n appends give the frontier of the n leaves, and the fold of it is `mth_range` over
      all of them: the incremental commitment refines the recursive reference. */
  lemma {:induction false} AppendsCommitToMth(leaves: seq<Digest>)
    ensures Appended(leaves) == FrontierOf(leaves)
    ensures |leaves| >= 1 ==> RootOf(Appended(leaves)) == MthRange(leaves, 0, |leaves|)
  {
    if leaves != [] {
      var n := |leaves| - 1;
      AppendsCommitToMth(leaves[..n]);
      AppendExtends(leaves[..n], leaves[n]);
      assert leaves[..n] + [leaves[n]] == leaves;
      FrontierRootIsMth(leaves);
    }
  }

  // ----- the shape of the frontier -----------------------------------------------------

  /** Bit `i` of `n`. */
  predicate Bit(n: nat, i: nat)
    decreases i
  {
    if i == 0 then n % 2 == 1 else Bit(n / 2, i - 1)
  }

  ghost predicate HasLevel(peaks: seq<Peak>, level: nat) {
    exists i :: 0 <= i < |peaks| && peaks[i].level == level
  }

  /** A peak at `level + i` exists exactly when bit `i` of the block count is set. */
  lemma {:induction false} PeakLevelsAreBits(leaves: seq<Digest>, level: nat, q: nat, i: nat)
    requires Span(q, level) <= |leaves|
    ensures HasLevel(PeaksFrom(leaves, level, q), level + i) <==> Bit(q, i)
    decreases q
  {
    if q == 0 {
      ZeroHasNoBit(i);
    } else {
      var peaks, rest := PeaksFrom(leaves, level, q), PeaksFrom(leaves, level + 1, q / 2);
      if i == 0 {
        PeaksAscend(leaves, level + 1, q / 2);
        if q % 2 == 1 {
          assert peaks[0].level == level;
        }
      } else {
        PeakLevelsAreBits(leaves, level + 1, q / 2, i - 1);
        if q % 2 == 1 {
          HasLevelBehind(peaks[0], rest, level + i);
        }
      }
    }
  }

  lemma HasLevelBehind(first: Peak, rest: seq<Peak>, level: nat)
    requires first.level != level
    ensures HasLevel([first] + rest, level) <==> HasLevel(rest, level)
  {
    var all := [first] + rest;
    if HasLevel(rest, level) {
      var k :| 0 <= k < |rest| && rest[k].level == level;
      assert all[k + 1].level == level;
    }
    if HasLevel(all, level) {
      var k :| 0 <= k < |all| && all[k].level == level;
      assert rest[k - 1].level == level;
    }
  }

  lemma {:induction false} ZeroHasNoBit(i: nat)
    ensures !Bit(0, i)
  {
    if i > 0 {
      ZeroHasNoBit(i - 1);
    }
  }

  /** No bit at or above `e` is set in a number below 2^e. */
  lemma {:induction false} HighBitsClear(n: nat, e: nat, i: nat)
    requires n < Pow2(e) && i >= e
    ensures !Bit(n, i)
    decreases i
  {
    if e == 0 {
      ZeroHasNoBit(i);
    } else {
      HighBitsClear(n / 2, e - 1, i - 1);
    }
  }

  /** Strictly ascending levels below `top` fit in `top` peaks. */
  lemma {:induction false} AscendingBounded(peaks: seq<Peak>, top: nat)
    requires AscendingFrom(peaks, 0)
    requires forall i :: 0 <= i < |peaks| ==> peaks[i].level < top
    ensures |peaks| <= top
    decreases top
  {
    if peaks != [] {
      var n := |peaks| - 1;
      AscendingBounded(peaks[..n], peaks[n].level);
    }
  }

  /** Levels strictly ascending and exactly the set bits of the leaf count; at most 32 peaks
      for any count a u32 can hold. */
  lemma FrontierShape(leaves: seq<Digest>)
    ensures AscendingFrom(FrontierOf(leaves), 0)
    ensures forall b: nat :: HasLevel(FrontierOf(leaves), b) <==> Bit(|leaves|, b)
    ensures |leaves| <= U32_MAX ==> |FrontierOf(leaves)| <= 32
  {
    var f := FrontierOf(leaves);
    SpanOfLeaves(|leaves|);
    PeaksAscend(leaves, 0, |leaves|);
    forall b: nat ensures HasLevel(f, b) <==> Bit(|leaves|, b) {
      PeakLevelsAreBits(leaves, 0, |leaves|, b);
    }
    if |leaves| <= U32_MAX {
      Pow2Of32();
      forall i | 0 <= i < |f| ensures f[i].level < 32 {
        assert HasLevel(f, f[i].level);
        if f[i].level >= 32 {
          HighBitsClear(|leaves|, 32, f[i].level);
        }
      }
      AscendingBounded(f, 32);
    }
  }

  /** Peak `i` covers 2^level leaves that end where the peaks after it, the older and larger
      ones, end plus its own size. */
  function EndOf(peaks: seq<Peak>, i: nat): nat
    requires i <= |peaks|
    decreases |peaks| - i
  {
    if i == |peaks| then 0 else EndOf(peaks, i + 1) + Pow2(peaks[i].level)
  }

  /** Peak `i` is the Merkle Tree Hash of the block of leaves it covers. */
  ghost predicate HashesItsBlock(peaks: seq<Peak>, leaves: seq<Digest>, i: nat)
    requires i < |peaks|
  {
    && EndOf(peaks, i) <= |leaves|
    && peaks[i].hash == MthRange(leaves, EndOf(peaks, i + 1), EndOf(peaks, i))
  }

  /** The blocks follow each other without a gap from the first leaf to the last. */
  lemma {:induction false} PeaksTile(leaves: seq<Digest>, level: nat, q: nat)
    requires Span(q, level) <= |leaves|
    ensures EndOf(PeaksFrom(leaves, level, q), 0) == Span(q, level)
    decreases q
  {
    hide MthRange;
    if q > 0 {
      PeaksTile(leaves, level + 1, q / 2);
      if q % 2 == 1 {
        EndOfRest(PeaksFrom(leaves, level, q)[0], PeaksFrom(leaves, level + 1, q / 2), 0);
      }
    }
  }

  lemma {:induction false} PeaksAreBlocks(leaves: seq<Digest>, level: nat, q: nat, i: nat)
    requires Span(q, level) <= |leaves|
    requires i < |PeaksFrom(leaves, level, q)|
    ensures HashesItsBlock(PeaksFrom(leaves, level, q), leaves, i)
    decreases q
  {
    hide MthRange;
    var rest := PeaksFrom(leaves, level + 1, q / 2);
    if q % 2 == 0 {
      PeaksAreBlocks(leaves, level + 1, q / 2, i);
    } else {
      var first := PeaksFrom(leaves, level, q)[0];
      EndOfRest(first, rest, i);
      if i == 0 {
        PeaksTile(leaves, level, q);
        PeaksTile(leaves, level + 1, q / 2);
      } else {
        PeaksAreBlocks(leaves, level + 1, q / 2, i - 1);
        EndOfRest(first, rest, i - 1);
      }
    }
  }

  lemma {:induction false} EndOfRest(first: Peak, rest: seq<Peak>, i: nat)
    requires i <= |rest|
    ensures EndOf([first] + rest, i + 1) == EndOf(rest, i)
    decreases |rest| - i
  {
    if i < |rest| {
      EndOfRest(first, rest, i + 1);
    }
  }

  /** Each peak of the frontier is the Merkle Tree Hash of its own block of 2^level leaves,
      and the blocks tile the leaf list. */
  lemma FrontierTiles(leaves: seq<Digest>)
    ensures EndOf(FrontierOf(leaves), 0) == |leaves|
    ensures forall i :: 0 <= i < |FrontierOf(leaves)| ==>
              HashesItsBlock(FrontierOf(leaves), leaves, i)
  {
    SpanOfLeaves(|leaves|);
    PeaksTile(leaves, 0, |leaves|);
    forall i | 0 <= i < |FrontierOf(leaves)|
      ensures HashesItsBlock(FrontierOf(leaves), leaves, i)
    {
      PeaksAreBlocks(leaves, 0, |leaves|, i);
    }
  }
}
