/** The history entry, its canonical leaf bytes, and the commitment to a whole history. */
module History {
  import opened Prelude
  import opened SharedTypes
  import opened MerkleTree
  import opened AuditPath

  datatype ProgressEntry = ProgressEntry(
    playerId: u64,
    oldLevel: ProgressLevel,
    newLevel: ProgressLevel,
    updatedBy: Address,
    updatedAt: u64,
    milestoneRef: u32,
    ledgerSequence: u32)

  type Log = seq<ProgressEntry>

  // ----- leaf bytes --------------------------------------------------------------------

  /** `level_code`. */
  function LevelCode(level: ProgressLevel): u32 {
    match level
    case Unverified => 0
    case VerifiedIdentity => 1
    case PerformanceMilestones => 2
    case EliteTier => 3
  }

  function Pow256(width: nat): (p: nat)
    ensures p >= 1
  {
    if width == 0 then 1 else 256 * Pow256(width - 1)
  }

  /** `to_be_bytes`: the low `width` bytes of `n`, most significant first. */
  function BigEndian(n: nat, width: nat): (bytes: seq<byte>)
    ensures |bytes| == width
  {
    if width == 0 then [] else BigEndian(n / 256, width - 1) + [n % 256]
  }

  /** Byte `i` of a number written in `width` bytes, most significant first: the digit of weight
      256^(width - 1 - i). */
  function Digit(n: nat, width: nat, i: nat): nat
    requires i < width
  {
    (n / Pow256(width - 1 - i)) % 256
  }

  lemma {:induction false} BigEndianDigits(n: nat, width: nat, i: nat)
    requires i < width
    ensures BigEndian(n, width)[i] == (n / Pow256(width - 1 - i)) % 256 == Digit(n, width, i)
  {
    if i < width - 1 {
      BigEndianDigits(n / 256, width - 1, i);
      DivideTwice(n, Pow256(width - 2 - i));
    }
  }

  lemma DivideTwice(n: nat, d: nat)
    requires d > 0
    ensures n / 256 / d == n / (256 * d)
  {
    var q, r := n / (256 * d), n % (256 * d);
    assert n == 256 * (d * q) + r;
    assert n / 256 == d * q + r / 256;
    QuotientUnique(n / 256, d, q, r / 256);
  }

  lemma QuotientUnique(n: nat, d: nat, q: nat, r: nat)
    requires d > 0 && n == d * q + r && r < d
    ensures n / d == q
  {
    var k := n / d;
    assert n == d * k + n % d;
    assert d * (k - q) == r - n % d;
    SmallMultiple(d, k - q);
  }

  lemma SmallMultiple(d: int, k: int)
    requires d > 0 && -d < d * k < d
    ensures k == 0
  {
  }

  lemma {:induction false} BigEndianInjective(m: nat, n: nat, width: nat)
    requires m < Pow256(width) && n < Pow256(width)
    requires BigEndian(m, width) == BigEndian(n, width)
    ensures m == n
  {
    if width > 0 {
      var a, b := BigEndian(m, width), BigEndian(n, width);
      assert a[..width - 1] == BigEndian(m / 256, width - 1);
      assert b[..width - 1] == BigEndian(n / 256, width - 1);
      assert a[width - 1] == m % 256 && b[width - 1] == n % 256;
      BigEndianInjective(m / 256, n / 256, width - 1);
    }
  }

  lemma WidthsFit(n: nat)
    ensures Pow256(4) == 0x1_0000_0000 && Pow256(8) == 0x1_0000_0000_0000_0000
    ensures n <= U32_MAX ==> n < Pow256(4)
    ensures n <= U64_MAX ==> n < Pow256(8)
  {
    assert Pow256(4) == 0x1_0000_0000;
    assert Pow256(8) == 0x1_0000_0000 * Pow256(4);
  }

  /** The preimage `leaf_hash` feeds to SHA-256, after the 0x00 prefix. */
  function LeafBytes(e: ProgressEntry): seq<byte> {
    BigEndian(e.playerId, 8)
    + BigEndian(LevelCode(e.oldLevel), 4)
    + BigEndian(LevelCode(e.newLevel), 4)
    + e.updatedBy.xdr
    + BigEndian(e.updatedAt, 8)
    + BigEndian(e.milestoneRef, 4)
    + BigEndian(e.ledgerSequence, 4)
  }

  /** Where the fields sit: sixteen bytes before the address, sixteen after it, so the total
      length gives away the length of the address. */
  lemma LeafFields(e: ProgressEntry)
    ensures var b, n := LeafBytes(e), |e.updatedBy.xdr|;
      && |b| == 32 + n
      && b[..8] == BigEndian(e.playerId, 8)
      && b[8..12] == BigEndian(LevelCode(e.oldLevel), 4)
      && b[12..16] == BigEndian(LevelCode(e.newLevel), 4)
      && b[16..16 + n] == e.updatedBy.xdr
      && b[16 + n..24 + n] == BigEndian(e.updatedAt, 8)
      && b[24 + n..28 + n] == BigEndian(e.milestoneRef, 4)
      && b[28 + n..] == BigEndian(e.ledgerSequence, 4)
  {
  }

  /** The bytes from `at` on are the digits of a number, most significant first. */
  ghost predicate WrittenAt(b: seq<byte>, at: nat, n: nat, width: nat) {
    && at + width <= |b|
    && forall i :: 0 <= i < width ==> b[at..at + width][i] == Digit(n, width, i)
  }

  /** The preimage byte by byte: every number most significant byte first, the levels by their
      rank. */
  lemma LeafLayout(e: ProgressEntry)
    ensures var b, n := LeafBytes(e), |e.updatedBy.xdr|;
      && |b| == 32 + n
      && WrittenAt(b, 0, e.playerId, 8)
      && WrittenAt(b, 8, e.oldLevel.Rank(), 4)
      && WrittenAt(b, 12, e.newLevel.Rank(), 4)
      && b[16..16 + n] == e.updatedBy.xdr
      && WrittenAt(b, 16 + n, e.updatedAt, 8)
      && WrittenAt(b, 24 + n, e.milestoneRef, 4)
      && WrittenAt(b, 28 + n, e.ledgerSequence, 4)
  {
    hide BigEndian, Pow256, LeafBytes;
    var b, n := LeafBytes(e), |e.updatedBy.xdr|;
    LeafFields(e);
    assert b[28 + n..] == b[28 + n..28 + n + 4];
    BigEndianWritten(b, 0, e.playerId, 8);
    BigEndianWritten(b, 8, e.oldLevel.Rank(), 4);
    BigEndianWritten(b, 12, e.newLevel.Rank(), 4);
    BigEndianWritten(b, 16 + n, e.updatedAt, 8);
    BigEndianWritten(b, 24 + n, e.milestoneRef, 4);
    BigEndianWritten(b, 28 + n, e.ledgerSequence, 4);
  }

  lemma BigEndianWritten(b: seq<byte>, at: nat, n: nat, width: nat)
    requires at + width <= |b| && b[at..at + width] == BigEndian(n, width)
    ensures WrittenAt(b, at, n, width)
  {
    hide BigEndian, Digit;
    forall i | 0 <= i < width ensures b[at..at + width][i] == Digit(n, width, i) {
      BigEndianDigits(n, width, i);
    }
  }

  lemma SmallNumbers()
    ensures BigEndian(0, 4) == [0, 0, 0, 0] && BigEndian(1, 4) == [0, 0, 0, 1]
    ensures BigEndian(1, 8) == [0, 0, 0, 0, 0, 0, 0, 1]
  {
    assert BigEndian(0, 7) == BigEndian(0, 4) + [0] + [0] + [0];
    assert BigEndian(1, 8) == BigEndian(0, 7) + [1];
  }

  /** The bytes of an entry of player 1 up to the address. */
  lemma FirstPlayerBytes(e: ProgressEntry)
    requires e.playerId == 1 && e.oldLevel == Unverified && e.newLevel == VerifiedIdentity
    ensures LeafBytes(e)[..16] == [0, 0, 0, 0, 0, 0, 0, 1, 0, 0, 0, 0, 0, 0, 0, 1]
  {
    hide BigEndian, LeafBytes;
    SmallNumbers();
    LeafFields(e);
    var b := LeafBytes(e);
    assert b[..16] == b[..8] + b[8..12] + b[12..16];
  }

  /** Two entries with the same leaf bytes are the same entry. */
  lemma LeafBytesInjective(d: ProgressEntry, e: ProgressEntry)
    requires LeafBytes(d) == LeafBytes(e)
    ensures d == e
  {
    LeafFields(d);
    LeafFields(e);
    WidthsFit(d.playerId);
    WidthsFit(e.playerId);
    BigEndianInjective(d.playerId, e.playerId, 8);
    WidthsFit(LevelCode(d.oldLevel));
    WidthsFit(LevelCode(e.oldLevel));
    BigEndianInjective(LevelCode(d.oldLevel), LevelCode(e.oldLevel), 4);
    WidthsFit(LevelCode(d.newLevel));
    WidthsFit(LevelCode(e.newLevel));
    BigEndianInjective(LevelCode(d.newLevel), LevelCode(e.newLevel), 4);
    WidthsFit(d.updatedAt);
    WidthsFit(e.updatedAt);
    BigEndianInjective(d.updatedAt, e.updatedAt, 8);
    WidthsFit(d.milestoneRef);
    WidthsFit(e.milestoneRef);
    BigEndianInjective(d.milestoneRef, e.milestoneRef, 4);
    WidthsFit(d.ledgerSequence);
    WidthsFit(e.ledgerSequence);
    BigEndianInjective(d.ledgerSequence, e.ledgerSequence, 4);
  }

  function LeafHash(e: ProgressEntry): Digest {
    LeafDigest(LeafBytes(e))
  }

  /** `leaf_hashes`. */
  function LeafHashes(log: Log): (leaves: seq<Digest>)
    ensures |leaves| == |log|
    ensures forall i :: 0 <= i < |log| ==> leaves[i] == LeafHash(log[i])
  {
    seq(|log|, i requires 0 <= i < |log| => LeafHash(log[i]))
  }

  lemma LeafHashesAppend(log: Log, e: ProgressEntry)
    ensures LeafHashes(log + [e]) == LeafHashes(log) + [LeafHash(e)]
  {
  }

  /** The committed root of a non-empty history. */
  function LogRoot(log: Log): Digest
    requires |log| >= 1
  {
    MthRange(LeafHashes(log), 0, |log|)
  }

  // ----- what a root and a proof say about the history ---------------------------------

  /** Binding: two non-empty histories with the same root are the same history. */
  lemma RootBindsLog(a: Log, b: Log)
    requires |a| >= 1 && |b| >= 1
    requires LogRoot(a) == LogRoot(b)
    ensures a == b
  {
    var la, lb := LeafHashes(a), LeafHashes(b);
    MthRangeIsMth(la, 0, |a|);
    MthRangeIsMth(lb, 0, |b|);
    assert la[0..|a|] == la && lb[0..|b|] == lb;
    MthBinding(la, lb);
    forall i | 0 <= i < |a| ensures a[i] == b[i] {
      assert la[i] == lb[i];
      LeafBytesInjective(a[i], b[i]);
    }
  }

  /** The three checks of `verify_history_proof`, against the root of `log`. */
  predicate ProofAccepted(log: Log, playerId: u64, entry: ProgressEntry, proof: seq<Step>)
    requires |log| >= 1
  {
    && |proof| <= 32
    && entry.playerId == playerId
    && Replay(LeafHash(entry), proof) == LogRoot(log)
  }

  /** A proof is accepted exactly when it is the audit path of that very entry at some
      position of the history, for any entry and any sequence of steps.  The 32-step limit
      turns away no genuine path. */
  lemma ProofAcceptedIffCommitted(log: Log, playerId: u64, entry: ProgressEntry, proof: seq<Step>)
    requires 1 <= |log| <= U32_MAX
    ensures ProofAccepted(log, playerId, entry, proof) <==>
            && entry.playerId == playerId
            && exists i :: && 0 <= i < |log| && log[i] == entry
                           && proof == PathOf(LeafHashes(log), i, 0, |log|)
  {
    var leaves := LeafHashes(log);
    if ProofAccepted(log, playerId, entry, proof) {
      var i := ReplayIsPath(leaves, 0, |log|, LeafHash(entry), proof);
      LeafBytesInjective(log[i], entry);
    }
    forall i | 0 <= i < |log| && log[i] == entry && proof == PathOf(leaves, i, 0, |log|)
      ensures |proof| <= 32 && Replay(LeafHash(entry), proof) == LogRoot(log)
    {
      PathReplays(leaves, i, 0, |log|);
      Pow2Of32();
      PathLength(leaves, i, 0, |log|, 32);
    }
  }
}
