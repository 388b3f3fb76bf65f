/** Merkle audit paths of contracts/progress/src/lib.rs: building one, replaying one, and
    what a successful replay means. */
module AuditPath {
  import opened Prelude
  import opened MerkleTree

  datatype Step = Step(sibling: Digest, siblingIsRight: bool)

  function Combine(current: Digest, step: Step): Digest {
    if step.siblingIsRight then NodeDigest(current, step.sibling)
    else NodeDigest(step.sibling, current)
  }

  /** The digest a proof implies for a leaf; the last step is the one nearest the root. */
  function Replay(leaf: Digest, proof: seq<Step>): Digest {
    if proof == [] then leaf
    else Combine(Replay(leaf, proof[..|proof| - 1]), proof[|proof| - 1])
  }

  /** The loop of `compute_root_from_proof`. */
  method ComputeRootFromProof(leaf: Digest, proof: seq<Step>) returns (root: Digest)
    ensures root == Replay(leaf, proof)
  {
    root := leaf;
    for i := 0 to |proof|
      invariant root == Replay(leaf, proof[..i])
    {
      assert proof[..i + 1][..i] == proof[..i];
      root := Combine(root, proof[i]);
    }
    assert proof[..|proof|] == proof;
  }

  /** The audit path of section 2.1.1 of RFC 6962 for the leaf at `index` in
      `leaves[start..end]`, leaf to root. */
  function PathOf(leaves: seq<Digest>, index: nat, start: nat, end: nat): seq<Step>
    requires start <= index < end <= |leaves|
    decreases end - start
  {
    if end - start == 1 then []
    else
      var mid := start + SplitPoint(end - start);
      if index < mid then
        PathOf(leaves, index, start, mid) + [Step(MthRange(leaves, mid, end), true)]
      else
        PathOf(leaves, index, mid, end) + [Step(MthRange(leaves, start, mid), false)]
  }

  /** Two leaves: the left one's sibling stands on the right and the other way round, and the root
      hashes the left one first. */
  lemma PathsOfTwo(a: Digest, b: Digest)
    ensures Mth([a, b]) == NodeDigest(a, b)
    ensures PathOf([a, b], 0, 0, 2) == [Step(b, true)] && PathOf([a, b], 1, 0, 2) == [Step(a, false)]
    ensures Combine(a, Step(b, true)) == NodeDigest(a, b) == Combine(b, Step(a, false))
  {
    assert SplitPoint(2) == 1;
    assert [a, b][..1] == [a] && [a, b][1..] == [b];
  }

  /** `path_range`: pushes the path onto the end of a proof under construction. */
  method PathRange(leaves: seq<Digest>, index: nat, start: nat, end: nat, proof: seq<Step>)
    returns (extended: seq<Step>)
    requires start <= index < end <= |leaves| <= U32_MAX
    ensures extended == proof + PathOf(leaves, index, start, end)
    decreases end - start
  {
    hide MthRange;
    var n := end - start;
    if n == 1 {
      return proof;
    }
    var k := LargestPow2Lt(n);
    if index - start < k {
      extended := PathRange(leaves, index, start, start + k, proof);
      extended := extended + [Step(MthRange(leaves, start + k, end), true)];
    } else {
      extended := PathRange(leaves, index, start + k, end, proof);
      extended := extended + [Step(MthRange(leaves, start, start + k), false)];
    }
  }

  lemma ReplayLast(leaf: Digest, proof: seq<Step>, last: Step)
    ensures Replay(leaf, proof + [last]) == Combine(Replay(leaf, proof), last)
  {
  }

  /** Completeness: the audit path of every leaf replays to the root. */
  lemma {:induction false} PathReplays(leaves: seq<Digest>, index: nat, start: nat, end: nat)
    requires start <= index < end <= |leaves|
    ensures Replay(leaves[index], PathOf(leaves, index, start, end))
         == MthRange(leaves, start, end)
    decreases end - start
  {
    if end - start > 1 {
      hide Replay;
      var mid := start + SplitPoint(end - start);
      if index < mid {
        PathReplays(leaves, index, start, mid);
        ReplayLast(leaves[index], PathOf(leaves, index, start, mid),
                   Step(MthRange(leaves, mid, end), true));
      } else {
        PathReplays(leaves, index, mid, end);
        ReplayLast(leaves[index], PathOf(leaves, index, mid, end),
                   Step(MthRange(leaves, start, mid), false));
      }
    }
  }

  /** A range of at most 2^d leaves has audit paths of at most d steps, d = ceil(log2 n)
      being the least such. */
  lemma {:induction false} PathLength(leaves: seq<Digest>, index: nat, start: nat, end: nat, d: nat)
    requires start <= index < end <= |leaves|
    requires end - start <= Pow2(d)
    ensures |PathOf(leaves, index, start, end)| <= d
    decreases end - start
  {
    hide MthRange;
    if end - start > 1 {
      var mid := start + SplitPoint(end - start);
      var e := SplitPointIsPow2(end - start);
      if e >= d {
        Pow2Monotone(d, e);
      }
      Pow2Monotone(e, d - 1);
      if index < mid {
        PathLength(leaves, index, start, mid, d - 1);
      } else {
        PathLength(leaves, index, mid, end, d - 1);
      }
    }
  }

  lemma RangeShape(leaves: seq<Digest>, start: nat, end: nat)
    requires start < end <= |leaves| && AllLeafDigests(leaves)
    ensures MthRange(leaves, start, end).LeafDigest? <==> end - start == 1
    ensures MthRange(leaves, start, end).NodeDigest? <==> end - start > 1
  {
  }

  /** Soundness: whatever the proof contains, a leaf that replays to the root of a range is
      one of its leaves, and the proof is that leaf's audit path. */
  lemma {:induction false} ReplayIsPath(leaves: seq<Digest>, start: nat, end: nat,
                                        leaf: Digest, proof: seq<Step>)
    returns (index: nat)
    requires start < end <= |leaves| && AllLeafDigests(leaves)
    requires leaf.LeafDigest?
    requires Replay(leaf, proof) == MthRange(leaves, start, end)
    ensures start <= index < end
    ensures leaves[index] == leaf
    ensures proof == PathOf(leaves, index, start, end)
    decreases end - start
  {
    RangeShape(leaves, start, end);
    if proof == [] {
      index := start;
    } else {
      var n := |proof| - 1;
      var mid := start + SplitPoint(end - start);
      assert proof == proof[..n] + [proof[n]];
      if proof[n].siblingIsRight {
        index := ReplayIsPath(leaves, start, mid, leaf, proof[..n]);
      } else {
        index := ReplayIsPath(leaves, mid, end, leaf, proof[..n]);
      }
    }
  }
}
