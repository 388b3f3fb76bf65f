/** What the progress contract does to one player, without storage: the history, the level,
    and the calls that change them (contracts/progress/src/lib.rs). */
module Tracks {
  import opened Prelude
  import opened SharedTypes
  import opened MerkleTree
  import opened History

  datatype ProgressError =
    | NotInitialized
    | ContractPaused
    | InvalidProgressTransition
    | AlreadyAtMaxLevel
    | PlayerNotFound
    | Overflow
    | RegistrationCallFailed
    | RegistrationNotConfigured
    | PlayerNotRegistered
    | NoLevelChange
    | MigrationNotActive
    | MigrationWindowSealed
    | InvalidHistoryIndex
    | HistoryAlreadyExists
    | MerkleRootMismatch
    | SeedPlayerMismatch
    | SeedLevelDiscontinuity
    | SeedTimestampRegression
    | HistoryTooLongForProof
    | InvalidPeerContract

  /** Who, when and why: the parts of an entry that do not come from the player's state. */
  datatype Stamp = Stamp(actor: Address, at: u64, milestoneRef: u32, ledger: u32)

  datatype Track = Track(log: Log, level: Option<ProgressLevel>)

  const NEW_TRACK := Track([], None)

  function Current(t: Track): ProgressLevel {
    t.level.GetOr(Unverified)
  }

  function EntryFor(id: u64, t: Track, target: ProgressLevel, s: Stamp): ProgressEntry {
    ProgressEntry(id, Current(t), target, s.actor, s.at, s.milestoneRef, s.ledger)
  }

  /** One recorded move to `target`. */
  function Moved(id: u64, t: Track, target: ProgressLevel, s: Stamp): Track {
    Track(t.log + [EntryFor(id, t, target, s)], Some(target))
  }

  // ----- live calls --------------------------------------------------------------------

  datatype Call = Advance(stamp: Stamp) | Reset(target: ProgressLevel, stamp: Stamp)

  /** Where a call takes the player, or None when the level rules or the full history turn it
      down. */
  function Target(t: Track, call: Call): Option<ProgressLevel> {
    if |t.log| >= U32_MAX then None
    else
      match call
      case Advance(_) => Current(t).Next()
      case Reset(target, _) => if target == Current(t) then None else Some(target)
  }

  function After(id: u64, t: Track, call: Call): Track {
    match Target(t, call)
    case None => t
    case Some(target) => Moved(id, t, target, call.stamp)
  }

  function Run(id: u64, t: Track, calls: seq<Call>): Track {
    if calls == [] then t
    else After(id, Run(id, t, calls[..|calls| - 1]), calls[|calls| - 1])
  }

  // ----- the level machine -------------------------------------------------------------

  /** The level a history ends at. */
  function LevelOfLog(log: Log): ProgressLevel {
    if log == [] then Unverified else log[|log| - 1].newLevel
  }

  /** The level the first `n` entries end at. */
  function LevelAt(log: Log, n: nat): ProgressLevel
    requires n <= |log|
  {
    if n == 0 then Unverified else log[n - 1].newLevel
  }

  /** Every entry starts where the one before it ended, the first one from Unverified. */
  ghost predicate Chained(log: Log) {
    forall i :: 0 <= i < |log| ==> log[i].oldLevel == LevelAt(log, i)
  }

  lemma ChainedAppend(log: Log, e: ProgressEntry)
    ensures Chained(log + [e]) <==> Chained(log) && e.oldLevel == LevelOfLog(log)
  {
    var longer, n := log + [e], |log|;
    forall i | 0 <= i <= n ensures LevelAt(longer, i) == LevelAt(log, i) {
    }
    assert LevelAt(log, n) == LevelOfLog(log) && longer[n] == e;
    if Chained(longer) {
      forall i | 0 <= i < n ensures log[i].oldLevel == LevelAt(log, i) {
        assert longer[i] == log[i];
      }
    }
  }

  ghost predicate BelongsTo(log: Log, id: u64) {
    forall i :: 0 <= i < |log| ==> log[i].playerId == id
  }

  ghost predicate EveryEntryMoves(log: Log) {
    forall i :: 0 <= i < |log| ==> log[i].newLevel != log[i].oldLevel
  }

  /** The level chain of a player: the history chains from Unverified, belongs to the player,
      every entry changes the level, and the stored level is where the history ends. */
  ghost predicate LevelChain(id: u64, t: Track) {
    && Chained(t.log) && BelongsTo(t.log, id) && EveryEntryMoves(t.log)
    && t.level == (if t.log == [] then None else Some(LevelOfLog(t.log)))
    && |t.log| <= U32_MAX
  }

  lemma AfterKeepsLevelChain(id: u64, t: Track, call: Call)
    requires LevelChain(id, t)
    ensures LevelChain(id, After(id, t, call))
  {
    if Target(t, call).Some? {
      var target := Target(t, call).value;
      ChainedAppend(t.log, EntryFor(id, t, target, call.stamp));
      NextRaisesRankByOne(Current(t), target);
    }
  }

  /** It holds in every run from an unknown player. */
  lemma {:induction false} RunKeepsLevelChain(id: u64, calls: seq<Call>)
    ensures LevelChain(id, Run(id, NEW_TRACK, calls))
  {
    if calls != [] {
      RunKeepsLevelChain(id, calls[..|calls| - 1]);
      AfterKeepsLevelChain(id, Run(id, NEW_TRACK, calls[..|calls| - 1]), calls[|calls| - 1]);
    }
  }

  /** Each call only extends the history, by at most one entry. */
  lemma {:induction false} RunExtends(id: u64, t: Track, calls: seq<Call>)
    ensures t.log <= Run(id, t, calls).log
    ensures |Run(id, t, calls).log| <= |t.log| + |calls|
  {
    if calls != [] {
      RunExtends(id, t, calls[..|calls| - 1]);
    }
  }

  /** Number of calls of a run that advanced the player. */
  function Advances(id: u64, t: Track, calls: seq<Call>): nat {
    if calls == [] then 0
    else
      var n := |calls| - 1;
      Advances(id, t, calls[..n])
      + if calls[n].Advance? && Target(Run(id, t, calls[..n]), calls[n]).Some? then 1 else 0
  }

  /** Sum over the accepted resets of a run of old rank minus new rank. */
  function Drops(id: u64, t: Track, calls: seq<Call>): int {
    if calls == [] then 0
    else
      var n := |calls| - 1;
      var before := Run(id, t, calls[..n]);
      Drops(id, t, calls[..n])
      + if calls[n].Reset? && Target(before, calls[n]).Some?
        then Current(before).Rank() - calls[n].target.Rank() else 0
  }

  /** No tier is gained for free: the advances of a run are the tiers climbed plus the tiers
      the resets took away. */
  lemma {:induction false} AdvancesBalance(id: u64, t: Track, calls: seq<Call>)
    ensures Advances(id, t, calls)
         == Current(Run(id, t, calls)).Rank() - Current(t).Rank() + Drops(id, t, calls)
  {
    if calls != [] {
      var n := |calls| - 1;
      AdvancesBalance(id, t, calls[..n]);
      var before := Run(id, t, calls[..n]);
      if calls[n].Advance? && Target(before, calls[n]).Some? {
        NextRaisesRankByOne(Current(before), Target(before, calls[n]).value);
      }
    }
  }

  // ----- clocks ------------------------------------------------------------------------

  /** Timestamps and ledger sequences never go back. */
  ghost predicate Chronological(log: Log) {
    forall i, j :: 0 <= i <= j < |log| ==>
      log[i].updatedAt <= log[j].updatedAt && log[i].ledgerSequence <= log[j].ledgerSequence
  }

  lemma ChronologicalAppend(log: Log, e: ProgressEntry)
    ensures Chronological(log + [e]) <==>
            && Chronological(log)
            && (log != [] ==> log[|log| - 1].updatedAt <= e.updatedAt
                              && log[|log| - 1].ledgerSequence <= e.ledgerSequence)
  {
    var longer, n := log + [e], |log|;
    assert longer[n] == e;
    if Chronological(longer) {
      forall i, j | 0 <= i <= j < n
        ensures log[i].updatedAt <= log[j].updatedAt && log[i].ledgerSequence <= log[j].ledgerSequence
      {
        assert longer[i] == log[i] && longer[j] == log[j];
      }
      if n > 0 {
        assert longer[n - 1] == log[n - 1];
      }
    }
  }

  ghost predicate ClockRuns(calls: seq<Call>) {
    forall i, j :: 0 <= i <= j < |calls| ==>
      calls[i].stamp.at <= calls[j].stamp.at && calls[i].stamp.ledger <= calls[j].stamp.ledger
  }

  lemma {:induction false} RunChronological(id: u64, calls: seq<Call>)
    requires ClockRuns(calls)
    ensures Chronological(Run(id, NEW_TRACK, calls).log)
    ensures forall i :: 0 <= i < |Run(id, NEW_TRACK, calls).log| ==>
              var e := Run(id, NEW_TRACK, calls).log[i];
              && e.updatedAt <= calls[|calls| - 1].stamp.at
              && e.ledgerSequence <= calls[|calls| - 1].stamp.ledger
  {
    if calls != [] {
      var n := |calls| - 1;
      RunChronological(id, calls[..n]);
      if n > 0 {
        assert calls[..n][n - 1] == calls[n - 1];
      }
    }
  }

  // ----- migration replay --------------------------------------------------------------

  /** One `admin_seed_history` call. */
  datatype SeedCall = SeedCall(index: u32, entry: ProgressEntry, expected: Option<Digest>)

  /** The checks on an entry for a slot that is still empty. */
  function SlotRefusal(id: u64, log: Log, index: u32, e: ProgressEntry): Option<ProgressError> {
    if index != |log| + 1 then Some(InvalidHistoryIndex)
    else if e.playerId != id then Some(SeedPlayerMismatch)
    else if e.oldLevel != LevelOfLog(log) then Some(SeedLevelDiscontinuity)
    else if log != [] && (e.updatedAt < log[|log| - 1].updatedAt
                          || e.ledgerSequence < log[|log| - 1].ledgerSequence)
    then Some(SeedTimestampRegression)
    else None
  }

  /** The history after a seed call, or why it is refused.  `root` is the stored root: a retry
      of an entry already there writes nothing and only compares the root. */
  function Seeded(id: u64, log: Log, root: Option<Digest>, call: SeedCall): Result<Log, ProgressError> {
    if call.index == 0 then Err(InvalidHistoryIndex)
    else if call.index <= |log| then
      if log[call.index - 1] != call.entry then Err(HistoryAlreadyExists)
      else if call.expected.None? then Ok(log)
      else if root.None? then Err(PlayerNotFound)
      else if root != call.expected then Err(MerkleRootMismatch)
      else Ok(log)
    else if SlotRefusal(id, log, call.index, call.entry).Some? then
      Err(SlotRefusal(id, log, call.index, call.entry).value)
    else if call.expected.Some? && call.expected.value != LogRoot(log + [call.entry]) then
      Err(MerkleRootMismatch)
    else Ok(log + [call.entry])
  }

  /** The root a live contract stores for a history. */
  function CommittedRoot(log: Log): Option<Digest> {
    if log == [] then None else Some(LogRoot(log))
  }

  /** What a seed call is taken for: a retry of the entry that is there, or the next entry of the
      player, from the level the history ends at and not back in time; with the right root where
      one is expected. */
  lemma SeededIff(id: u64, log: Log, root: Option<Digest>, c: SeedCall)
    ensures Seeded(id, log, root, c).Ok? <==>
      || (&& 1 <= c.index <= |log| && log[c.index - 1] == c.entry
          && (c.expected.Some? ==> root == c.expected))
      || (&& c.index == |log| + 1 && c.entry.playerId == id
          && c.entry.oldLevel == (if log == [] then Unverified else log[|log| - 1].newLevel)
          && (log != [] ==> log[|log| - 1].updatedAt <= c.entry.updatedAt
                            && log[|log| - 1].ledgerSequence <= c.entry.ledgerSequence)
          && (c.expected.Some? ==> c.expected == Some(LogRoot(log + [c.entry]))))
    ensures Seeded(id, log, root, c).Ok? ==>
      var after := Seeded(id, log, root, c).value;
      && after == (if c.index <= |log| then log else log + [c.entry])
      && 1 <= c.index <= |after| && after[c.index - 1] == c.entry
  {
  }

  /** Why it is refused, in this order. */
  lemma SeedErrors(id: u64, log: Log, root: Option<Digest>, c: SeedCall)
    requires Seeded(id, log, root, c).Err?
    ensures Seeded(id, log, root, c).error ==
      if c.index == 0 || c.index > |log| + 1 then InvalidHistoryIndex
      else if c.index <= |log| then
        if log[c.index - 1] != c.entry then HistoryAlreadyExists
        else if root.None? then PlayerNotFound
        else MerkleRootMismatch
      else if c.entry.playerId != id then SeedPlayerMismatch
      else if c.entry.oldLevel != (if log == [] then Unverified else log[|log| - 1].newLevel) then
        SeedLevelDiscontinuity
      else if log != [] && (c.entry.updatedAt < log[|log| - 1].updatedAt
                            || c.entry.ledgerSequence < log[|log| - 1].ledgerSequence) then
        SeedTimestampRegression
      else MerkleRootMismatch
  {
  }

  /** A sequence of seed calls, stopping at the first refusal. */
  function SeedRun(id: u64, log: Log, calls: seq<SeedCall>): Result<Log, ProgressError>
    decreases |calls|
  {
    if calls == [] then Ok(log)
    else
      match Seeded(id, log, CommittedRoot(log), calls[0])
      case Err(e) => Err(e)
      case Ok(next) => SeedRun(id, next, calls[1..])
  }

  /** The histories a migration can rebuild. */
  ghost predicate Seedable(id: u64, log: Log) {
    BelongsTo(log, id) && Chained(log) && Chronological(log)
  }

  lemma SeedableAppend(id: u64, log: Log, e: ProgressEntry)
    requires Seedable(id, log) && |log| < U32_MAX
    ensures SlotRefusal(id, log, |log| + 1, e) == None <==> Seedable(id, log + [e])
  {
    ChainedAppend(log, e);
    ChronologicalAppend(log, e);
    if BelongsTo(log + [e], id) {
      assert (log + [e])[|log|].playerId == id;
    }
  }

  lemma SeedablePrefix(id: u64, log: Log, n: nat)
    requires Seedable(id, log) && n <= |log|
    ensures Seedable(id, log[..n])
  {
  }

  lemma SeededKeepsSeedable(id: u64, log: Log, root: Option<Digest>, call: SeedCall)
    requires Seedable(id, log) && |log| <= U32_MAX
    ensures Seeded(id, log, root, call).Ok? ==>
      && Seedable(id, Seeded(id, log, root, call).value)
      && log <= Seeded(id, log, root, call).value
      && |Seeded(id, log, root, call).value| <= U32_MAX
  {
    hide Seedable, LogRoot;
    if call.index > |log| {
      SeedableAppend(id, log, call.entry);
    }
  }

  /** Seeding from nothing only ever builds seedable histories. */
  lemma {:induction false} SeedRunBuildsSeedable(id: u64, log: Log, calls: seq<SeedCall>)
    requires Seedable(id, log) && |log| <= U32_MAX
    ensures SeedRun(id, log, calls).Ok? ==>
      && Seedable(id, SeedRun(id, log, calls).value)
      && log <= SeedRun(id, log, calls).value
      && |SeedRun(id, log, calls).value| <= U32_MAX
    decreases |calls|
  {
    if calls != [] {
      SeededKeepsSeedable(id, log, CommittedRoot(log), calls[0]);
      var r := Seeded(id, log, CommittedRoot(log), calls[0]);
      if r.Ok? {
        hide Seedable, Seeded, CommittedRoot;
        SeedRunBuildsSeedable(id, r.value, calls[1..]);
      }
    }
  }

  /** `calls` replays `target` in order with arbitrary retries, from a point where its first
      `n` entries are already there.  A call may carry the root of what is there after it. */
  ghost predicate Replays(target: Log, n: nat, calls: seq<SeedCall>)
    requires n <= |target|
    decreases |calls|
  {
    calls == [] ||
    (ReplaysStep(target, n, calls[0]) && Replays(target, Reach(n, calls[0]), calls[1..]))
  }

  function Reach(n: nat, c: SeedCall): nat {
    if c.index > n then c.index else n
  }

  function ReachAll(n: nat, calls: seq<SeedCall>): nat
    decreases |calls|
  {
    if calls == [] then n else ReachAll(Reach(n, calls[0]), calls[1..])
  }

  /** One call of such a replay. */
  ghost predicate ReplaysStep(target: Log, n: nat, c: SeedCall)
    requires n <= |target|
  {
    && 1 <= c.index <= |target| && c.index <= n + 1
    && c.entry == target[c.index - 1]
    && (c.expected.Some? ==> c.expected == CommittedRoot(target[..Reach(n, c)]))
  }

  lemma ReplayStep(id: u64, target: Log, n: nat, c: SeedCall)
    requires Seedable(id, target) && n <= |target| <= U32_MAX
    requires ReplaysStep(target, n, c)
    ensures Seeded(id, target[..n], CommittedRoot(target[..n]), c) == Ok(target[..Reach(n, c)])
  {
    hide Seedable, LogRoot;
    if c.index == n + 1 {
      SeedablePrefix(id, target, n);
      SeedablePrefix(id, target, n + 1);
      assert target[..n] + [c.entry] == target[..n + 1];
      SeedableAppend(id, target[..n], c.entry);
    } else {
      assert target[..n][c.index - 1] == target[c.index - 1];
    }
  }

  /** Such a replay of a seedable history is never refused and rebuilds it. */
  lemma {:induction false} ReplayRebuilds(id: u64, target: Log, n: nat, calls: seq<SeedCall>)
    requires Seedable(id, target) && n <= |target| <= U32_MAX
    requires Replays(target, n, calls)
    ensures ReachAll(n, calls) <= |target|
    ensures SeedRun(id, target[..n], calls) == Ok(target[..ReachAll(n, calls)])
    decreases |calls|
  {
    if calls != [] {
      hide Seedable, Seeded, CommittedRoot;
      ReplayStep(id, target, n, calls[0]);
      ReplayRebuilds(id, target, Reach(n, calls[0]), calls[1..]);
    }
  }

  /** The plain in-order replay of a whole history. */
  function PlainReplay(target: Log, n: nat): seq<SeedCall>
    requires n <= |target| <= U32_MAX
    decreases |target| - n
  {
    if n == |target| then []
    else [SeedCall(n + 1, target[n], None)] + PlainReplay(target, n + 1)
  }

  lemma {:induction false} PlainReplayReplays(target: Log, n: nat)
    requires n <= |target| <= U32_MAX
    ensures Replays(target, n, PlainReplay(target, n))
    ensures ReachAll(n, PlainReplay(target, n)) == |target|
    decreases |target| - n
  {
    if n < |target| {
      PlainReplayReplays(target, n + 1);
    }
  }

  /** A history can be rebuilt by seeding if and only if it belongs to the player, chains from
      Unverified and never goes back in time. */
  lemma RebuildableIffSeedable(id: u64, log: Log)
    requires |log| <= U32_MAX
    ensures (exists calls :: SeedRun(id, [], calls) == Ok(log)) <==> Seedable(id, log)
  {
    if calls :| SeedRun(id, [], calls) == Ok(log) {
      SeedRunBuildsSeedable(id, [], calls);
    }
    if Seedable(id, log) {
      PlainReplayReplays(log, 0);
      ReplayRebuilds(id, log, 0, PlainReplay(log, 0));
      assert log[..0] == [] && log[..|log|] == log;
    }
  }

  /** Migration round trip: a history made by live calls under a clock that does not run
      back is replayed, with any retries, without a refusal and comes out the same. */
  lemma MigrationRoundTrip(id: u64, live: seq<Call>, replay: seq<SeedCall>)
    requires ClockRuns(live)
    requires Replays(Run(id, NEW_TRACK, live).log, 0, replay)
    requires ReachAll(0, replay) == |Run(id, NEW_TRACK, live).log|
    ensures SeedRun(id, [], replay) == Ok(Run(id, NEW_TRACK, live).log)
  {
    var log := Run(id, NEW_TRACK, live).log;
    RunKeepsLevelChain(id, live);
    RunChronological(id, live);
    ReplayRebuilds(id, log, 0, replay);
    assert log[..0] == [] && log[..|log|] == log;
  }

  /** If the last accepted call carried the root of the original history, the rebuilt history
      is the original one. */
  lemma {:induction false} ExpectedRootPinsHistory(id: u64, log: Log, calls: seq<SeedCall>, original: Log)
    requires |original| >= 1 && |calls| >= 1
    requires calls[|calls| - 1].expected == Some(LogRoot(original))
    requires SeedRun(id, log, calls).Ok?
    ensures SeedRun(id, log, calls).value == original
    decreases |calls|
  {
    hide LogRoot;
    var r := Seeded(id, log, CommittedRoot(log), calls[0]);
    if |calls| == 1 {
      RootBindsLog(r.value, original);
    } else {
      hide Seeded, CommittedRoot;
      ExpectedRootPinsHistory(id, r.value, calls[1..], original);
    }
  }

  // ----- seeding and live calls together -----------------------------------------------

  /** Seeding does not store a level.  A live call on a seeded player keeps the chain exactly
      when the stored level, Unverified by default, is where the history ends. */
  lemma LiveCallKeepsChainIff(id: u64, t: Track, call: Call)
    requires Chained(t.log) && Target(t, call).Some?
    ensures Chained(After(id, t, call).log) <==> Current(t) == LevelOfLog(t.log)
  {
    ChainedAppend(t.log, EntryFor(id, t, Target(t, call).value, call.stamp));
  }

  /** A player seeded with one step to VerifiedIdentity and then advanced: the history says
      Unverified to VerifiedIdentity twice. */
  lemma SeededThenAdvancedBreaksChain(id: u64, s: Stamp)
    ensures var e := ProgressEntry(id, Unverified, VerifiedIdentity, s.actor, s.at, s.milestoneRef, s.ledger);
      && SeedRun(id, [], [SeedCall(1, e, None)]) == Ok([e])
      && After(id, Track([e], None), Advance(s)).log == [e, e]
      && !Chained([e, e])
  {
    var e := ProgressEntry(id, Unverified, VerifiedIdentity, s.actor, s.at, s.milestoneRef, s.ledger);
    var calls := [SeedCall(1, e, None)];
    assert [] + [e] == [e];
    assert Seeded(id, [], CommittedRoot([]), calls[0]) == Ok([e]);
    assert calls[1..] == [];
    assert SeedRun(id, [e], calls[1..]) == Ok([e]);
    ChainedAppend([e], e);
  }
}
