/** The hash tree of contracts/progress/src/lib.rs: the split point, the recursive Merkle
    Tree Hash and its range form. */
module MerkleTree {
  import opened Prelude

  /** A 32-byte digest, seen through an ideal SHA-256.

      `LeafDigest(p)` is SHA-256(0x00 || p) and `NodeDigest(l, r)` is SHA-256(0x01 || l || r);
      the two prefixes differ and a collision-free hash is injective, which is exactly what
      a datatype says.  `Raw` stands for every other 32-byte string a caller may supply. */
  datatype Digest =
    | Raw(bits: nat)
    | LeafDigest(payload: seq<byte>)
    | NodeDigest(left: Digest, right: Digest)

  /** 32 zero bytes. */
  const ZERO_ROOT := Raw(0)

  function Pow2(e: nat): (p: nat)
    ensures p >= 1
  {
    if e == 0 then 1 else 2 * Pow2(e - 1)
  }

  lemma {:induction false} Pow2Monotone(a: nat, b: nat)
    requires a <= b
    ensures Pow2(a) <= Pow2(b)
    decreases b
  {
    if a < b {
      Pow2Monotone(a, b - 1);
    }
  }

  lemma Pow2Of32()
    ensures Pow2(31) == 0x8000_0000
    ensures Pow2(32) == 0x1_0000_0000
  {
    assert Pow2(8) == 0x100;
    assert Pow2(16) == 0x1_0000;
    assert Pow2(24) == 0x100_0000;
    assert Pow2(31) == 0x8000_0000;
  }

  /** The largest power of two strictly below `n`. */
  function SplitPoint(n: nat): (k: nat)
    requires n >= 2
    ensures 1 <= k < n <= 2 * k
  {
    if n == 2 then 1 else 2 * SplitPoint((n + 1) / 2)
  }

  /** `SplitPoint` is the only power of two `k` with `k < n <= 2k`. */
  lemma {:induction false} SplitPointUnique(n: nat, e: nat)
    requires Pow2(e) < n <= Pow2(e + 1)
    ensures SplitPoint(n) == Pow2(e)
  {
    if e > 0 {
      SplitPointUnique((n + 1) / 2, e - 1);
    }
  }

  lemma {:induction false} SplitPointIsPow2(n: nat) returns (e: nat)
    requires n >= 2
    ensures SplitPoint(n) == Pow2(e) < n <= 2 * Pow2(e)
  {
    if n == 2 {
      e := 0;
    } else {
      var d := SplitPointIsPow2((n + 1) / 2);
      e := d + 1;
    }
  }

  /** `largest_pow2_lt`: doubling with saturation.  For every u32 the loop ends at the split
      point, also above 2^31 where the doubling saturates. */
  method LargestPow2Lt(n: u32) returns (k: u32)
    requires n >= 2
    ensures k == SplitPoint(n)
  {
    k := 1;
    ghost var e: nat := 0;
    Pow2Of32();
    while SatMul(k, 2) < n
      invariant k == Pow2(e) && k < n
      decreases n - k
    {
      k := SatMul(k, 2);
      e := e + 1;
    }
    SplitPointUnique(n, e);
  }

  /** The Merkle Tree Hash of section 2.1 of RFC 6962, over a list of leaf hashes. */
  function Mth(leaves: seq<Digest>): Digest
    requires |leaves| >= 1
    decreases |leaves|
  {
    if |leaves| == 1 then leaves[0]
    else
      var k := SplitPoint(|leaves|);
      NodeDigest(Mth(leaves[..k]), Mth(leaves[k..]))
  }

  /** `mth_range`: the same tree, addressed by positions in the full leaf list. */
  function MthRange(leaves: seq<Digest>, start: nat, end: nat): Digest
    requires start < end <= |leaves|
    decreases end - start
  {
    var n := end - start;
    if n == 1 then leaves[start]
    else
      var k := SplitPoint(n);
      NodeDigest(MthRange(leaves, start, start + k), MthRange(leaves, start + k, end))
  }

  lemma SliceOfSlice<T>(s: seq<T>, start: nat, mid: nat, end: nat)
    requires start <= mid <= end <= |s|
    ensures s[start..end][..mid - start] == s[start..mid]
    ensures s[start..end][mid - start..] == s[mid..end]
  {
  }

  lemma {:induction false} MthRangeIsMth(leaves: seq<Digest>, start: nat, end: nat)
    requires start < end <= |leaves|
    ensures MthRange(leaves, start, end) == Mth(leaves[start..end])
    decreases end - start
  {
    if end - start > 1 {
      hide Mth;
      var mid := start + SplitPoint(end - start);
      MthRangeIsMth(leaves, start, mid);
      MthRangeIsMth(leaves, mid, end);
      MthUnfold(leaves, start, mid, end);
    }
  }

  lemma MthUnfold(leaves: seq<Digest>, start: nat, mid: nat, end: nat)
    requires start < mid < end <= |leaves|
    requires mid == start + SplitPoint(end - start)
    ensures Mth(leaves[start..end]) == NodeDigest(Mth(leaves[start..mid]), Mth(leaves[mid..end]))
  {
    SliceOfSlice(leaves, start, mid, end);
  }

  /** A perfect block of 2^e leaves followed by at most as many leaves splits there. */
  lemma RangeOfBlocks(leaves: seq<Digest>, start: nat, mid: nat, end: nat, e: nat)
    requires start <= mid < end <= |leaves|
    requires mid - start == Pow2(e) && end - mid <= Pow2(e)
    ensures MthRange(leaves, start, end)
         == NodeDigest(MthRange(leaves, start, mid), MthRange(leaves, mid, end))
  {
    SplitPointUnique(end - start, e);
  }

  /** A range only depends on the leaves inside it. */
  lemma {:induction false} RangeOfPrefix(leaves: seq<Digest>, longer: seq<Digest>, start: nat, end: nat)
    requires start < end <= |leaves| && leaves <= longer
    ensures MthRange(longer, start, end) == MthRange(leaves, start, end)
    decreases end - start
  {
    if end - start > 1 {
      var mid := start + SplitPoint(end - start);
      RangeOfPrefix(leaves, longer, start, mid);
      RangeOfPrefix(leaves, longer, mid, end);
    }
  }

  /** Every digest in the list is the hash of some leaf, as `leaf_hashes` produces them. */
  ghost predicate AllLeafDigests(leaves: seq<Digest>) {
    forall i :: 0 <= i < |leaves| ==> leaves[i].LeafDigest?
  }

  /** A tree over leaf digests is a leaf digest exactly when it has one leaf. */
  lemma MthShape(leaves: seq<Digest>)
    requires |leaves| >= 1 && AllLeafDigests(leaves)
    ensures |leaves| == 1 ==> Mth(leaves) == leaves[0]
    ensures Mth(leaves).NodeDigest? <==> |leaves| > 1
    ensures Mth(leaves).LeafDigest? <==> |leaves| == 1
  {
  }

  /** Binding: a root determines the whole leaf list, its length included. */
  lemma {:induction false} MthBinding(a: seq<Digest>, b: seq<Digest>)
    requires |a| >= 1 && |b| >= 1
    requires AllLeafDigests(a) && AllLeafDigests(b)
    requires Mth(a) == Mth(b)
    ensures a == b
    decreases |a|
  {
    MthShape(a);
    MthShape(b);
    if |a| > 1 {
      var j, k := SplitPoint(|a|), SplitPoint(|b|);
      MthBinding(a[..j], b[..k]);
      MthBinding(a[j..], b[k..]);
      assert a == a[..j] + a[j..];
      assert b == b[..k] + b[k..];
    }
  }
}
