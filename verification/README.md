# ScoutChain verification model

A Dafny model of the parts of ScoutChain whose correctness is hardest to see from the code, with
proofs of what those parts are for. `dafny verify dfyconfig.toml` checks everything.

## What is modelled

**Progress history and its commitment** (`contracts/progress/src/lib.rs`). Each player has an
append-only history, kept in five places at once: single entries, a counter, pages of eight, a
frontier of peaks, and a root. `MerkleTree`, `Frontier` and `AuditPath` treat the tree alone;
`History` adds the bytes of a leaf; `PlayerStore` holds the five places of one player and the
writes of an append; `Tracks` is the level machine, live and replayed; `Progress` is the contract
as a class over the stores of all players; `ProgressRuns` its runs; `HistoryReads` the paged and
timed readers; `Erasure` the purge.

**Registration and its indexes** (`contracts/registration/src/lib.rs`). One player table is
mirrored in a list of all players, a wallet map, a list per level, a list per level and region,
and a live count. `Canonical` treats spellings, `IndexViews` a single index, `Directory` the
queries on values, `Registration` the contract as a class, `RegistrationRuns` its runs.

**Both contracts together.** `TwoContracts` drives a wired pair through transactions; `Runs` is what
the runs of all contracts share.

**Sessions** (`src/services/sep10.ts`). `Sessions` is the SEP-10 login and refresh protocol as a
state machine whose steps are the code between two awaits, and a class whose methods are those
steps.

**Shared types** (`contracts/shared-types/src/lib.rs`): the level order and the peer check.

## How it is modelled

- SHA-256 is a free constructor per kind of preimage: `LeafDigest(bytes)` for prefix 0x00,
  `NodeDigest(left, right)` for prefix 0x01, `Raw` for any other 32 bytes. The results that say
  two values are equal hold for any hash function; the results that say a root or a proof
  determines something assume that SHA-256 does not collide.
- An address is identified with its XDR bytes, of any length.
- Widths are explicit: `u32` and `u64` are subset types, saturating and checked arithmetic is
  written out, and where the code can overflow the model says so.
- An entrypoint is one atomic step; one that returns an error is rolled back by the host.
- `require_auth` is a premise of a call, but for the call of the progress contract into the
  registration contract, where the address of the caller decides. The clock, the ledger sequence, the
  milestone count of the verification contract and the level the progress contract answers are
  parameters.
- The clock of the session server never runs back, which `Date.now()` does not promise. Only the
  results about when an update lands depend on it; single use and the token chain do not.
- A class carries its storage keys as fields. A ghost field names the history of each player
  (`tracks`) or the level list each player sits in (`filed`), and `Valid()` ties the real fields
  to it, so that every method states its effect on that one value. Histories in read-only methods
  are ghost parameters with the same role.
- Legacy storage is included: pages, frontier and root may be missing (`PlayerStore.Holds`), and
  registered players may have no stored level. `HoldsFully` and `Complete()` say that none is.

## Main results

1. The incremental commitment is the RFC 6962 tree hash for histories of any length
   (`Frontier.AppendsCommitToMth`), with the peaks exactly the set bits of the length and each the
   hash of its own block (`Frontier.FrontierShape`, `Frontier.FrontierTiles`).
2. A proof is accepted if and only if it is the audit path of that very entry in the player's
   history (`Progress.ProgressContract.VerifyHistoryProof`, `History.ProofAcceptedIffCommitted`);
   a root determines the whole history (`History.RootBindsLog`), and the contract's own proofs verify
   wherever there is a root (`Progress.ProveAndVerify`).
3. In every run of wiring, moves, resets and migration replays all keys of every player represent
   one history, and each transaction only extends it (`ProgressRuns.ExecuteAll`). A player the
   admin never seeds is where the level machine takes it by its accepted moves
   (`ProgressRuns.TrackIsRun`, `ProgressRuns.RunLevels`). One append repairs legacy storage
   (`PlayerStore.RecordedHolds`).
4. A history made by any run in which time does not run back replays through migration, with any
   retries, to the same keys in the new contract (`ProgressRuns.Replay`,
   `ProgressRuns.RunAndMigrate`); a history can be seeded if and only if it belongs to the player,
   chains and is chronological (`Tracks.RebuildableIffSeedable`).
5. In every reachable state the registration indexes are exactly the views of the player table, up
   to the one collision that admin seeding makes possible (`RegistrationRuns.ExecuteAll`). The index
   stands in for the full scan on every query if and only if players without a stored level are
   filed right (`Directory.RegionPathIsPlainScanIff`), and paging through a query returns its list
   once (`Directory.PagingReturnsEachMatchOnceIff`).
6. In every run of the wired pair the two contracts agree on every level and only registered players
   move, so a query follows the progress contract (`TwoContracts.ExecuteAll`,
   `TwoContracts.UnregisteredKeepsTrack`, `TwoContracts.QueryFollowsProgress`), page by page to the
   end (`TwoContracts.PageThrough`).
7. In every interleaving a challenge and a refresh token are used once, for the right account, and a
   login has at most one live refresh token (`Sessions.RunSafe`, `Sessions.Serve` and the lemmas
   that follow them).

The run theorems are not about runs in which nothing happens: `TwoContracts.SignUpAndClimb`,
`TwoContracts.ScoutAndReset`, `ProgressRuns.FirstAdvance`, `RegistrationRuns.SeedWireMove` and
`Sessions.LoginThenRefreshSucceeds` are runs with successful advances, resets, level changes, logins
and refreshes. Each entrypoint states its errors and its effect in terms of the state itself.

## Where the code falls short of a plain statement

Each of these is a proved if-and-only-if together with an input, or a family of inputs, on which
the plain statement fails; the code is modelled as it is.

- Following a history cursor never returns the last entry of a history of 2^32 - 1 entries, and an
  offset page that reaches the end of such a history lacks it; shorter histories are read whole
  (`HistoryReads.CursorReadsSnapshotIff`, `HistoryReads.OffsetPageIsSliceIff`).
- The purge loop overflows for histories of more than 4294967250 entries (`Progress.ProgressContract.PurgePlayer`).
- A purge leaves the frontier behind where one was stored. The next append commits to the right root
  if and only if there was none or the purged history was empty (`Erasure.AppendAfterErasureIff`,
  `Erasure.LegacyLeavesNothing`).
- A proof from `get_history_proof` verifies against the current root if and only if the player has a
  root and the entry names the player; a player with single entries or the old vector alone is handed a proof and has none
  (`Progress.ProveAndVerify`, `Progress.ProofWithoutRoot`).
- Seeding starts a missing page empty, which loses the earlier entries of that page to the readers;
  the page is right if and only if it was stored or the entry opens it
  (`PlayerStore.SeedHoldsIffPageReady`, `PlayerStore.LegacySeedBreaksPage`).
- Seeding stores no level. The next live move keeps the chain if and only if the stored level is
  where the history ends (`Tracks.LiveCallKeepsChainIff`, `Tracks.SeededThenAdvancedBreaksChain`).
- `register_player` does not check that the next id is free. The indexes survive if and only if it
  is (`Registration.RegistrationContract.RegisterPlayer`); only admin seeding can make it taken
  (`RegistrationRuns.ExecuteAll`, `RegistrationRuns.SeedAheadCollides`).
- `deregister_player` looks for a player without a stored level under Unverified only; the indexes
  survive if and only if it is filed there (`Registration.RegistrationContract.DeregisterPlayer`,
  `Registration.LegacyErasureLeavesEntry`).
- A query with a region goes by the list a player is filed in, one without a region asks the progress
  contract for the level of a player that has none stored. The two paths agree if and only if such
  players are filed right (`Directory.RegionPathIsPlainScanIff`, `Directory.RegionPathMissesPlayer`).
- A region padded with blanks past 64 bytes is refused while its short spelling is accepted
  (`Canonical.SpellingsAgreeIff`, `Canonical.PaddedSpellingRefused`).
- The expiry of a row is compared with a clock reading from before the database update. A bound on
  the waits in between keeps every update before the expiry if and only if it is zero
  (`Sessions.NeverLateIffNoWait`); an update is late by less than its wait (`Sessions.LandsLateIff`,
  `Sessions.MarksLandWithinWait`, `Sessions.UpdateCanLandAfterExpiry`).
- Rebuilding the very last page of a history of nearly 2^32 entries overflows a u32
  (`PlayerStore.NoPageTrapIff`, `PlayerStore.LegacyReadTraps`); never once the newest page is stored
  (`PlayerStore.NewestPageAvoidsTrap`).
- A player who only has the old history vector loses it from the readers with the next append; the
  readers go on from what they returned if and only if there was an entry already or no vector
  (`PlayerStore.AppendReadsOnIff`, `PlayerStore.OldVectorHidden`).

## Model

| member | source | states |
|---|---|---|
| MerkleTree.SplitPointUnique | contracts/progress/src/lib.rs:1740-1746 | a power of two k with k < n <= 2k is the split point, so the split of section 2.1 of RFC 6962 is the only one |
| MerkleTree.SplitPointIsPow2 | contracts/progress/src/lib.rs:1740-1746 | the split point of every n >= 2 is a power of two, which is strictly below n and at least half of n |
| MerkleTree.LargestPow2Lt | contracts/progress/src/lib.rs:1740-1746 | the doubling loop ends and finds that split point for every u32 n >= 2, also above 2^31 where the doubling saturates |
| MerkleTree.MthRangeIsMth | contracts/progress/src/lib.rs:1765-1774 | the recursion over index ranges computes the Merkle Tree Hash (RFC 6962, 2.1) of the slice it is given |
| MerkleTree.MthShape | contracts/progress/src/lib.rs:1765-1774 | the hash of a list of leaf hashes is itself a leaf hash exactly when the list has one element, and never a raw string |
| MerkleTree.MthBinding | contracts/progress/src/lib.rs:1765-1774 | two non-empty leaf lists with equal hashes are equal, lengths included, though neither length is hashed |
| Frontier.FrontierAppend | contracts/progress/src/lib.rs:1831-1864 | the carry loop ends and leaves exactly the peaks of a binary increment, whatever vector it starts from |
| Frontier.AppendExtends | contracts/progress/src/lib.rs:1831-1864 | one append turns the frontier of a leaf list into the frontier of the list with one more leaf |
| Frontier.FrontierRoot | contracts/progress/src/lib.rs:1803-1813 | the loop over the peaks folds them lowest first onto the right, the zero root for no peaks |
| Frontier.FrontierRootIsMth | contracts/progress/src/lib.rs:1803-1813 | for every non-empty leaf list, however long, the fold of its frontier is its Merkle Tree Hash |
| Frontier.AppendsCommitToMth | contracts/progress/src/lib.rs:3652-3675 | any number of appends from the empty frontier, then the fold, gives the Merkle Tree Hash of all leaves; the repository checks this up to 256 leaves |
| Frontier.FrontierShape | contracts/progress/src/lib.rs:3682-3715 | the peak levels ascend strictly and are exactly the set bits of the leaf count; at most 32 peaks for any u32 count |
| Frontier.FrontierTiles | contracts/progress/src/lib.rs:1831-1864 | the peaks tile the leaf list: consecutive blocks without a gap, the oldest and largest block last in the vector, each peak the Merkle Tree Hash of its own block of 2^level leaves |
| Frontier.CarryBlock | contracts/progress/src/lib.rs:1831-1864 | a carry that arrives with the hash of a full block at its level turns the peaks of q blocks into those of q + 1 |
| AuditPath.ComputeRootFromProof | contracts/progress/src/lib.rs:1949-1964 | the loop over the steps is the replay that folds each sibling on the side it names |
| AuditPath.PathRange | contracts/progress/src/lib.rs:1914-1942 | the recursion that pushes into the shared proof vector appends exactly the audit path (RFC 6962, 2.1.1) and keeps what was there |
| AuditPath.PathsOfTwo | contracts/progress/src/lib.rs:1914-1964 | which side a step names, and which child a node hashes first, on a tree of two leaves |
| AuditPath.PathReplays | contracts/progress/src/lib.rs:1914-1964 | completeness: replaying the path of any leaf of any range from that leaf gives the hash of the range |
| AuditPath.PathLength | contracts/progress/src/lib.rs:988-1002 | a path in a range of at most 2^d leaves has at most d steps, so 32 steps are enough for any u32 count |
| AuditPath.ReplayIsPath | contracts/progress/src/lib.rs:1949-1964 | soundness: a replay from any leaf hash that reaches the hash of a range is the path of an equal leaf of that range |
| History.BigEndianDigits | contracts/progress/src/lib.rs:1702-1713 | byte i of a number in w bytes is its digit of weight 256^(w - 1 - i): most significant first |
| History.BigEndianInjective | contracts/progress/src/lib.rs:1702-1713 | encodings of one width agree only for equal numbers |
| History.LeafLayout | contracts/progress/src/lib.rs:1702-1713 | every byte of the preimage by place: each number most significant byte first, the levels by their rank, the fields behind the variable-length address counted from its end |
| History.FirstPlayerBytes | contracts/progress/src/lib.rs:1702-1713 | the bytes of an entry of player 1 up to the address |
| History.LeafBytesInjective | contracts/progress/src/lib.rs:1702-1713 | two entries with the same leaf bytes are the same entry, whatever the lengths of their addresses |
| History.RootBindsLog | contracts/progress/src/lib.rs:2103-2118 | two non-empty histories with the same root are the same history |
| History.ProofAcceptedIffCommitted | contracts/progress/src/lib.rs:979-1011 | a proof is accepted if and only if it is the audit path of that very entry at some place of the history, and the entry names the player |
| PlayerStore.HoldsDetermines | contracts/progress/src/lib.rs:1994-2084 | the stored entries and counter determine the history they hold |
| PlayerStore.FullyHeldKeysAgree | contracts/progress/src/lib.rs:1202-1249 | two players who fully hold one history have equal entries, pages, counter, frontier and root |
| PlayerStore.ReadHistoryPages | contracts/progress/src/lib.rs:1622-1675 | what the reader returns on any storage: stored pages, missing ones rebuilt from single entries, the old vector when nothing else is there; and exactly when it traps |
| PlayerStore.NoPageTrapIff | contracts/progress/src/lib.rs:1622-1675 | the u32 overflow of rebuilding a page happens if and only if the history reaches its very last page and that page is not stored |
| PlayerStore.LegacyReadTraps | contracts/progress/src/lib.rs:1622-1675 | a history held by single entries alone traps its readers if and only if it has more than 4294967288 entries |
| PlayerStore.ReadAllIsLog | contracts/progress/src/lib.rs:1622-1675 | reading back gives the whole history, each entry once and in order, whichever pages are missing |
| PlayerStore.BuildFrontier | contracts/progress/src/lib.rs:1877-1886 | folding the first entries of a history gives the frontier of exactly those entries |
| PlayerStore.LoadOrBuildFrontier | contracts/progress/src/lib.rs:1894-1908 | the stored frontier, or one rebuilt from the first entries that can be read; and exactly when reading them traps |
| PlayerStore.LoadedFrontierIsPrior | contracts/progress/src/lib.rs:1894-1908 | stored or rebuilt, it is the frontier of the history before the new entry, which is already readable at that moment |
| PlayerStore.NewestPageAvoidsTrap | contracts/progress/src/lib.rs:1622-1675 | once the newest page is stored, rebuilding an older one never overflows a u32 |
| PlayerStore.RecordEntry | contracts/progress/src/lib.rs:1994-2084 | the writes of one live append on any storage, legacy ones included |
| PlayerStore.RecordedHolds | contracts/progress/src/lib.rs:1994-2084 | lazy upgrade: with the frontier and any pages missing, one append leaves the right newest page, frontier and root for the longer history, and reading returns all of it |
| PlayerStore.AppendReadsOnIff | contracts/progress/src/lib.rs:1622-1675 | after a live append the readers return what they did before and the new entry, if and only if the player held an entry or had no old vector |
| PlayerStore.OldVectorHidden | contracts/progress/src/lib.rs:1622-1675 | a player with nothing but an old vector: after one append the readers return the new entry alone |
| PlayerStore.SeedEntry | contracts/progress/src/lib.rs:1202-1249 | the writes of one seeded entry on any storage; unlike the live path a missing page is started empty |
| PlayerStore.LegacySeedBreaksPage | contracts/progress/src/lib.rs:1202-1249 | a legacy history that does not end with a full page: seeding makes its newest page the new entry alone |
| PlayerStore.SeedHoldsIffPageReady | contracts/progress/src/lib.rs:1202-1249 | after seeding, all keys hold the longer history if and only if the page was stored or the entry opens its page |
| Tracks.AfterKeepsLevelChain | contracts/progress/src/lib.rs:460-547 | one advance or reset that goes through keeps the entries chained from Unverified with the stored level at their end, and every entry a real move |
| Tracks.RunKeepsLevelChain | contracts/progress/src/lib.rs:306-547 | so does every run of advances and resets from nothing |
| Tracks.RunExtends | contracts/progress/src/lib.rs:1994-2084 | a run only appends to the history |
| Tracks.AdvancesBalance | contracts/progress/src/lib.rs:306-547 | in every run the number of advances is the gain in rank plus the sum of (old rank - new rank) over the resets |
| Tracks.RunChronological | contracts/progress/src/lib.rs:1994-2084 | under a clock that does not run back every live history is in order of time and ledger |
| Tracks.SeededIff | contracts/progress/src/lib.rs:1138-1260 | exactly the retries and next entries a seed call is accepted for; the entry passed is then the one at its index |
| Tracks.SeedErrors | contracts/progress/src/lib.rs:1138-1260 | why a seed call is refused: each error exactly when it is due, another entry at a filled index included |
| Tracks.SeededKeepsSeedable | contracts/progress/src/lib.rs:1121-1263 | an accepted seed call keeps or extends a history that belongs to the player, chains and is chronological |
| Tracks.ReplayRebuilds | contracts/progress/src/lib.rs:1121-1263 | an in-order replay with any retries is never refused and rebuilds the history |
| Tracks.RebuildableIffSeedable | contracts/progress/src/lib.rs:1121-1263 | some sequence of seed calls builds a history if and only if it belongs to the player, chains from Unverified and is chronological |
| Tracks.MigrationRoundTrip | contracts/progress/src/lib.rs:1121-1263 | round trip: any such replay of a history made by live calls is accepted throughout and gives the same history |
| Tracks.ExpectedRootPinsHistory | contracts/progress/src/lib.rs:1251-1260 | if the last accepted call carried the root of the original history, the rebuilt history is the original |
| Tracks.LiveCallKeepsChainIff | contracts/progress/src/lib.rs:460-547 | seeding stores no level: a live call after it keeps the chain if and only if the stored level is where the history ends |
| Tracks.SeededThenAdvancedBreaksChain | contracts/progress/src/lib.rs:1202-1249 | a concrete seeded player whose next live advance breaks the chain |
| Progress.ProgressContract.RecordMove | contracts/progress/src/lib.rs:1994-2084 | one more entry with the old and new level, all keys moved along, refused exactly at 2^32 - 1 entries |
| Progress.ProgressContract.MoveAndSync | contracts/progress/src/lib.rs:502-547 | record, store the level, pass it on; a refusal by the registration contract leaves both contracts as they were |
| Progress.ProgressContract.AdvanceLevelAuthorized | contracts/progress/src/lib.rs:460-547 | either the first failing check names the error and nothing changes, or the player is one tier up in both contracts with one more committed entry |
| Progress.ProgressContract.AdvanceLevel | contracts/progress/src/lib.rs:372-416 | each error in the terms of the state, in the order of the checks; otherwise one tier up in both contracts and one more entry with the old and new level, caller, time, milestone and ledger |
| Progress.ProgressContract.AdvanceLevelForScout | contracts/progress/src/lib.rs:425-455 | the same for a call on behalf of a scout, with the scout recorded and a milestone that exists |
| Progress.ProgressContract.ResetPlayerLevel | contracts/progress/src/lib.rs:306-363 | each error in the terms of the state, in the order of the checks; otherwise the player is at the other level in both contracts, with one more entry by the admin and milestone 0 |
| Progress.ProgressContract.OpenMigrationWindow | contracts/progress/src/lib.rs:1029-1045 | a sealed window never opens again |
| Progress.ProgressContract.CloseMigrationWindow | contracts/progress/src/lib.rs:1052-1064 | closing an open window seals it for good |
| Progress.ProgressContract.AdminSeedHistory | contracts/progress/src/lib.rs:1121-1263 | the exact answer and writes on any storage; an accepted entry is the one stored at its index, another entry there is refused; all keys hold the new history if and only if the page was stored or is new; an accepted expected root is the stored root |
| Progress.ProgressContract.Move | contracts/progress/src/lib.rs:306-547 | any of the three move entrypoints: accepted exactly when nothing refuses it, and then the step it asks for in both contracts |
| Progress.ProgressContract.SetRegistrationContract | contracts/progress/src/lib.rs:142-155 | wired when the peer check passes, the link kept otherwise |
| Progress.ProgressContract.SetVerificationContract | contracts/progress/src/lib.rs:191-205 | wired when the peer check passes, the link kept otherwise |
| Progress.ProgressContract.SetScoutAccessContract | contracts/progress/src/lib.rs:209-223 | wired when the peer check passes, the link kept otherwise |
| Progress.ProgressContract.SetPaused | contracts/progress/src/lib.rs:157-187 | pausing and unpausing, again or not |
| Progress.ProgressContract.PurgePlayerData | contracts/progress/src/lib.rs:1283-1372 | one page: what is removed, the next cursor and the flag; no other player changes; the exact inputs on which its arithmetic traps |
| Progress.ProgressContract.PurgePlayer | contracts/progress/src/lib.rs:1283-1372 | feeding the cursor back ends after max(1, ceil(n / 50)) calls with nothing of the player left but the frontier, if and only if the history has at most 4294967250 entries; no other player changes; and exactly when the contract holds all histories again |
| Progress.ProgressContract.VerifyHistoryProof | contracts/progress/src/lib.rs:979-1011 | true if and only if the proof is the audit path of that very entry in the history the player holds; an error only without a root |
| Progress.ProgressContract.GetHistoryProof | contracts/progress/src/lib.rs:913-951 | the audit path of the entry at a 1-based index, and each error exactly when it is due |
| Progress.ProveAndVerify | contracts/progress/src/lib.rs:883-951 | a proof that is handed out verifies against the current root if and only if the player has a root and the entry names the player; without older data every player with a history has one |
| Progress.ProofWithoutRoot | contracts/progress/src/lib.rs:883-1011 | players whose proofs are handed out and not accepted: with single entries alone, and with the old vector alone |
| Progress.AllHoldUpdate | contracts/progress/src/lib.rs:1994-2084 | writing one player keeps every player held if and only if the written keys hold that player's new history and level |
| ProgressRuns.Execute | contracts/progress/src/lib.rs:1121-1263 | any one transaction, wiring, pauses, moves, migration window and seeding included: accepted exactly when its guards hold; it makes the step or appends the entry it asks for, and all keys of all players hold one history each |
| ProgressRuns.ExecuteAll | contracts/progress/src/lib.rs:1994-2084 | every run from an empty contract, wired at any time to any contracts: all keys agree at the end, each transaction had its effect or none, and every history at any point is a prefix of the same player's history at any later point |
| ProgressRuns.RunExtendsHistories | contracts/progress/src/lib.rs:1994-2084 | that prefix property, for any two points of any run |
| ProgressRuns.TrackIsRun | contracts/progress/src/lib.rs:306-547 | after any run a player the admin never seeds is where the level machine takes it by its accepted moves |
| ProgressRuns.RunLevels | contracts/progress/src/lib.rs:306-547 | so in every run its history chains from Unverified to the stored level, has one entry for each accepted move, and its advances are the rank reached plus the ranks the resets took away |
| ProgressRuns.RunSeedable | contracts/progress/src/lib.rs:1121-1263 | after any run in which time does not run back, the history of a player the admin never seeds is one a migration can rebuild |
| ProgressRuns.FirstAdvance | contracts/progress/src/lib.rs:372-416 | a run with a successful advance, for any registered player |
| ProgressRuns.Replay | contracts/progress/src/lib.rs:1121-1263 | replaying the history of such a run into a contract without data for that player, with any retries, is never refused and ends with the same entries, pages, counter, frontier and root as the source contract; nobody else changes |
| ProgressRuns.RunAndMigrate | contracts/progress/src/lib.rs:1121-1263 | end to end: any run of the old contract, reading the history, and seeding it, leaves both contracts with the same keys for the player |
| HistoryReads.GetHistoryPageWithCursor | contracts/progress/src/lib.rs:743-807 | one page of the snapshot the cursor names, the next cursor, and the snapshot bound, with the saturating sums of the code |
| HistoryReads.PageReadsSnapshot | contracts/progress/src/lib.rs:743-807 | a later page reads the snapshot it was cut from, whatever was appended since |
| HistoryReads.CursorReadsSnapshotIff | contracts/progress/src/lib.rs:743-807 | following the cursor with any limits and appends in between returns exactly the history of the first call, each entry once and in order, if and only if it has fewer than 2^32 - 1 entries |
| HistoryReads.FollowSticks | contracts/progress/src/lib.rs:743-807 | with 2^32 - 1 entries the cursor never ends and the last entry is never returned |
| HistoryReads.GetProgressHistoryPage | contracts/progress/src/lib.rs:663-701 | the page read at an offset, with the saturating sums of the code |
| HistoryReads.OffsetPageIsSliceIff | contracts/progress/src/lib.rs:663-701 | the page is the slice it promises if and only if the history is shorter than 2^32 - 1 or the page stops before its end |
| HistoryReads.OffsetPageSize | contracts/progress/src/lib.rs:663-701 | a page holds as many entries as asked for, within 1 to 50, or all that are left |
| HistoryReads.CursorPageSize | contracts/progress/src/lib.rs:743-807 | so does a cursor page, and its cursor is the next index or 0 |
| HistoryReads.HistorySince | contracts/progress/src/lib.rs:2151-2216 | the newest matching entries, newest first, up to the clamped limit; truncated exactly when more match; the ten-page cap loses nothing; and exactly when it traps |
| HistoryReads.ScanPage | contracts/progress/src/lib.rs:2151-2216 | one page of that scan either settles the answer or has taken everything down to its first entry |
| HistoryReads.RecentIsMatching | contracts/progress/src/lib.rs:2151-2216 | in a chronological history the run the scan stops at is exactly the set of entries not older than the bound |
| Erasure.RemoveRange | contracts/progress/src/lib.rs:1283-1372 | the loop removes exactly the entries of its range and the pages they belong to |
| Erasure.PurgePage | contracts/progress/src/lib.rs:1283-1372 | what one purge call removes, its next cursor and whether it is done, or the overflow trap |
| Erasure.PurgedFurther | contracts/progress/src/lib.rs:1283-1372 | one call takes a player whose data are gone up to the cursor to one whose data are gone up to the next cursor, or to one with nothing left but the frontier |
| Erasure.LeftoverHoldsIff | contracts/progress/src/lib.rs:1295-1327 | what a purge leaves holds the empty history if and only if no frontier was stored or the history was empty |
| Erasure.AppendAfterErasureIff | contracts/progress/src/lib.rs:1295-1327 | the next append after a purge commits to and holds the right history if and only if no frontier was stored or the purged history was empty; otherwise its root is that of the purged history with the new entry |
| Erasure.LegacyLeavesNothing | contracts/progress/src/lib.rs:1295-1327 | a player with single entries alone leaves nothing behind; after one live append the same player leaves the frontier of the whole history |
| SharedTypes.NextRaisesRankByOne | contracts/shared-types/src/lib.rs:73-98 | the ranks are 0 to 3 in the order of the tiers, and a next level exists below the top and has exactly the next rank |
| SharedTypes.VersionAccepted | contracts/shared-types/src/lib.rs:356-384 | the parse loop accepts a version string if and only if it starts with digits whose value fits a u32 and reaches the minimum |
| SharedTypes.VerifyPeer | contracts/shared-types/src/lib.rs:343-384 | a peer is accepted if and only if it answers with the expected kind and such a version |
| Canonical.TrimUpperInto | contracts/registration/src/lib.rs:94-110 | in-place trimming and upper-casing: the window it reports holds the trimmed upper-case text; an error exactly for text longer than the buffer, which then stays as it was |
| Canonical.CharacterClasses | contracts/registration/src/lib.rs:94-149 | which bytes are blanks, letters and digits, and what upper-casing does to each |
| Canonical.CanonicalizeRegion | contracts/registration/src/lib.rs:117-149 | the checking loop accepts exactly the allowed region spellings and returns their canonical form |
| Canonical.CanonicalizePosition | contracts/registration/src/lib.rs:155-175 | accepts exactly the 18 position codes in any spelling |
| Canonical.CanonicalizeNationality | contracts/registration/src/lib.rs:181-194 | accepts exactly two letters in any spelling |
| Canonical.CanonIdempotent | contracts/registration/src/lib.rs:117-194 | region, position and nationality: a canonical spelling is its own canonical form |
| Canonical.SpellingsAgreeIff | contracts/registration/src/lib.rs:117-149 | two spellings that differ only in letter case and surrounding blanks get the same canonical form, or are both refused, if and only if it is not so that blanks take just one of them past 64 bytes and the region is well-formed |
| Canonical.PaddedSpellingRefused | contracts/registration/src/lib.rs:117-149 | a two-letter region is accepted, with 62 leading blanks too, and refused with 63 |
| IndexViews.WithoutCuts | contracts/registration/src/lib.rs:2166-2201 | removing an id leaves the others in their order |
| IndexViews.ViewsAdd | contracts/registration/src/lib.rs:2154-2188 | adding an id to its list keeps every list of the index exact and free of duplicates |
| IndexViews.ViewsRemove | contracts/registration/src/lib.rs:2166-2201 | removing an id from its list does too |
| Directory.ListingIsFiledSet | contracts/registration/src/lib.rs:1829-1945 | with a region a query lists the players filed in the lists of that region at or above the level, without one the players whose resolved level matches; each once |
| Directory.ListingIsMatchSetIff | contracts/registration/src/lib.rs:1829-1945 | a query lists exactly the matching players if and only if it gives no region or every active player in reach without a stored level is filed on the right side of the minimum |
| Directory.PathsAgreeIff | contracts/registration/src/lib.rs:1829-1945 | that is also exactly when one query returns the same multiset of players as filtering the full player list |
| Directory.RegionPathIsPlainScanIff | contracts/registration/src/lib.rs:1829-1945 | the index stands in for the full scan on every query with a region if and only if every active player without a stored level is filed under its level in the progress contract |
| Directory.RegionPathMissesPlayer | contracts/registration/src/lib.rs:2038-2057 | a player without a stored level whom the region path misses and the full scan finds |
| Directory.FollowingReadsAll | contracts/registration/src/lib.rs:1829-1945 | following the cursor over a fixed list with any limits ends and concatenates to the rest of the list |
| Directory.PagingReturnsEachMatchOnceIff | contracts/registration/src/lib.rs:1829-1945 | paging through a query on a fixed state with any limits ends, returns its list, and so every eligible player exactly once if and only if the list is right, legacy players included |
| Registration.FiledMirrorsIffFree | contracts/registration/src/lib.rs:503-634 | storing a player keeps all indexes exact if and only if the id was free |
| Registration.ErasedMirrorsIffFound | contracts/registration/src/lib.rs:659-726 | erasing keeps them exact if and only if the player is looked for in the lists it is in; the saturating decrement of the live count never saturates |
| Registration.MovedMirrors | contracts/registration/src/lib.rs:435-495 | a level change keeps every index exact |
| Registration.LevelListsPartition | contracts/registration/src/lib.rs:2179-2201 | every player is in exactly one level list, and the four lengths add up to the live count |
| Registration.RegistrationContract.RegisterPlayer | contracts/registration/src/lib.rs:503-634 | each error in the terms of the state, in the order of the checks; otherwise every vital is stored in its own field in its canonical spelling and the id is at the end of its lists; exact indexes if and only if the next id was free |
| Registration.RegistrationContract.AdminSeedPlayer | contracts/registration/src/lib.rs:968-1060 | the same with a chosen id and level, and no change of the id counter; indexes always stay exact; and exactly when the host refuses to grow the list |
| Registration.StoredIsListed | contracts/registration/src/lib.rs:1829-1945 | a player that was stored is found by every query with the region and position of the sign-up in any accepted spelling, up to its level |
| Registration.VitalsAccepted | contracts/registration/src/lib.rs:535-561 | which vitals are accepted |
| Registration.LegacyErasureLeavesEntry | contracts/registration/src/lib.rs:659-726 | a player without a stored level whose deregistration leaves its id in a level list |
| Registration.RegistrationContract.SetProgressContract | contracts/registration/src/lib.rs:396-409 | the address is stored when the peer check passes, the link kept otherwise |
| Registration.RegistrationContract.SetPaused | contracts/registration/src/lib.rs:318-346 | pausing and unpausing, again or not |
| Registration.RegistrationContract.SetRegCooldown | contracts/registration/src/lib.rs:351-368 | the cooldown is set within its bound and kept otherwise |
| Registration.RegistrationContract.SetPlayerLevel | contracts/registration/src/lib.rs:435-495 | only the wired progress contract gets through; the player moves from the list it is in to the new one; a player without a stored level is found by the sweep over all four lists |
| Registration.RegistrationContract.DeregisterPlayer | contracts/registration/src/lib.rs:659-726 | every key of the player is gone and the live count drops by one; indexes stay exact if and only if the level was stored or Unverified |
| Registration.RegistrationContract.DeactivatePlayer | contracts/registration/src/lib.rs:769-794 | the flag is set, again or not, and no index moves |
| Registration.RegistrationContract.ReactivatePlayer | contracts/registration/src/lib.rs:800-818 | the flag is cleared, again or not, and no index moves |
| Registration.RegistrationContract.ScanList | contracts/registration/src/lib.rs:1829-1945 | the shared loop over an id list: matches are skipped up to the offset, taken up to the page size, and the cursor is set on the first one left over |
| Registration.RegistrationContract.ScanRegion | contracts/registration/src/lib.rs:1829-1945 | the loop over level buckets returns the page of the concatenated buckets |
| Registration.RegistrationContract.ScanAll | contracts/registration/src/lib.rs:1829-1945 | the full scan returns the page of the filtered player list |
| Registration.RegistrationContract.FilterPlayers | contracts/registration/src/lib.rs:1829-1945 | the slice of the query's list at the offset, and a non-zero cursor exactly when matches are left |
| RegistrationRuns.Execute | contracts/registration/src/lib.rs:318-1060 | any one transaction, wiring, pauses, seeding and level changes included: accepted exactly when its guards hold, with its effect on the tables or none; every index stays exact, unless it registers a player under an id the admin seeded ahead of the counter |
| RegistrationRuns.ExecuteAll | contracts/registration/src/lib.rs:318-1060 | every run: all indexes mirror the player table up to such a collision; without admin seeding there is none |
| RegistrationRuns.SeedWireMove | contracts/registration/src/lib.rs:435-495 | a run that seeds a player, wires the progress contract and moves the player between any two levels |
| RegistrationRuns.SeedAheadCollides | contracts/registration/src/lib.rs:503-634 | a run that ends in the collision: one id, two wallets, listed twice |
| TwoContracts.Execute | contracts/progress/src/lib.rs:306-547 | one transaction on the wired pair, wiring of the other contracts and pauses included: accepted exactly when its guards hold; it keeps levels, indexes, histories and commitments in step, and only a registered player moves, by the step asked for |
| TwoContracts.ExecuteAll | contracts/progress/src/lib.rs:306-547 | every run on a fresh deployment ends in step, each transaction having had its effect or none |
| TwoContracts.UnregisteredKeepsTrack | contracts/progress/src/lib.rs:460-547 | while an id is not registered its history and level do not change, in any run |
| TwoContracts.DeregisteredStaysOut | contracts/registration/src/lib.rs:659-726 | an id that was deregistered is never registered again and keeps its history and level as they were |
| TwoContracts.AdvanceOneTier | contracts/progress/src/lib.rs:372-416 | with the verification contract wired and nothing paused, its call takes any registered player below the top one tier up |
| TwoContracts.SignUpAndClimb | contracts/progress/src/lib.rs:372-416 | a run in which any player with valid vitals signs up and climbs to the top tier in both contracts |
| TwoContracts.AdvanceForScoutOnce | contracts/progress/src/lib.rs:425-455 | with the links wired and nothing paused, a scout-access call for an existing milestone takes any registered player below the top one tier up, the scout recorded |
| TwoContracts.ResetOnce | contracts/progress/src/lib.rs:306-363 | with nothing paused the admin moves any registered player to any other level |
| TwoContracts.ScoutAndReset | contracts/progress/src/lib.rs:306-455 | a run with a scout advance and a reset |
| TwoContracts.AgreeAfterMove | contracts/registration/src/lib.rs:435-495 | after a move both contracts give the player the same level, and ids never given out have no progress data |
| TwoContracts.QueryFollowsProgress | contracts/registration/src/lib.rs:1829-1945 | with the contracts in step a query lists exactly the registered, active, matching players whose level in the progress contract reaches the minimum, each once |
| TwoContracts.RegisterAndFind | contracts/registration/src/lib.rs:503-634 | on the wired pair every query with the region and position of a sign-up, in any accepted spelling, lists the new id at once |
| TwoContracts.PageThrough | contracts/registration/src/lib.rs:1829-1945 | feeding the cursor of the query back with any limits on the wired pair ends and returns the profile of each such player exactly once, with the level the progress contract gives |
| Sessions.AuthServer.BuildChallenge | src/services/sep10.ts:77-101 | the insert of a challenge, valid for five minutes from the reading, is the step of the state machine; a hash that is there fails |
| Sessions.AuthServer.UpdateChallenges | src/services/sep10.ts:146-155 | the conditional update marks the row and counts 1 exactly when the row is there, for this account, unconsumed and unexpired |
| Sessions.AuthServer.UpdateTokens | src/services/sep10.ts:195-198 | the same for a refresh token |
| Sessions.AuthServer.ConsumeChallenge | src/services/sep10.ts:145-160 | the code from the update to the next await is the step of the state machine |
| Sessions.AuthServer.LookUpToken | src/services/sep10.ts:188-194 | so is the look-up |
| Sessions.AuthServer.RotateToken | src/services/sep10.ts:194-203 | so is the rotation |
| Sessions.AuthServer.InsertToken | src/services/sep10.ts:166-180 | so is the insert, which stores the expiry it is given, unrevoked, for the account of the request; a hash that is taken fails |
| Sessions.AuthServer.Perform | src/services/sep10.ts:77-203 | whatever the server does next is one step of the state machine |
| Sessions.StepKeepsGrants | src/services/sep10.ts:110-203 | no step takes a grant back or changes a mark on a row |
| Sessions.StepSingleUse | src/services/sep10.ts:110-203 | one step never lets two tasks be granted on one challenge or one token |
| Sessions.StepProvenance | src/services/sep10.ts:110-203 | one step keeps every grant backed by a row marked before its expiry and every token traceable to a login for the same account |
| Sessions.StepOneLive | src/services/sep10.ts:110-203 | one step keeps at most one unrevoked or pending token per login |
| Sessions.StepMarks | src/services/sep10.ts:110-203 | one step keeps every mark on a row accounted for by a granted task |
| Sessions.RunSafe | src/services/sep10.ts:110-203 | all of these hold after every interleaving of concurrent logins and refreshes |
| Sessions.Serve | src/services/sep10.ts:77-203 | a server that goes through any interleaving ends in the state of that run, and it is safe after every step |
| Sessions.ChallengeSingleUse | src/services/sep10.ts:146-158 | in every interleaving a challenge is consumed by at most one task, for the account it was built for and by a clock reading before its expiry |
| Sessions.TokenSingleRotation | src/services/sep10.ts:195-201 | in every interleaving a refresh token is rotated by at most one task, before its expiry, and the session goes to its account |
| Sessions.ChainHasOneLiveToken | src/services/sep10.ts:187-203 | in every interleaving the token chain of a login has at most one unrevoked token |
| Sessions.LoginGrantedIff | src/services/sep10.ts:146-158 | in every run a waiting login is granted if and only if its challenge is for the account, unconsumed and expires after the reading |
| Sessions.RefreshGrantedIff | src/services/sep10.ts:187-203 | in every run a waiting refresh is granted if and only if its token is unrevoked and expires after the reading |
| Sessions.InsertStores | src/services/sep10.ts:170-177 | a granted request on a free hash stores a live token for its account with exactly the expiry it is given |
| Sessions.FailureLosesGrant | src/services/sep10.ts:166-180 | a granted request that fails changes no row, so what granted it stays used |
| Sessions.RefreshGoesThrough | src/services/sep10.ts:187-203 | a refresh of a live token from request to insert: it succeeds exactly before the expiry, revokes the token and leaves the next one |
| Sessions.LoginThenRefreshSucceeds | src/services/sep10.ts:77-203 | runs in which a login, its insert and a refresh of that token all succeed, exactly while the token has not expired |
| Sessions.LandingIsUpdate | src/services/sep10.ts:145-155 | a row is marked only by the update of a waiting task, with that task's clock reading, which lies before the expiry |
| Sessions.LandsLateIff | src/services/sep10.ts:145-155 | in every run, for both tables, an update lands at or after the expiry of its row if and only if its task waited at least as long as the row was valid when it read the clock; it is late by less than it waited |
| Sessions.MarksLandWithinWait | src/services/sep10.ts:194-198 | in every run every mark landed before the expiry of its row plus the longest wait |
| Sessions.NeverLateIffNoWait | src/services/sep10.ts:145-155 | a bound on the waits keeps every update of every run before the expiry if and only if the bound is zero |
| Sessions.UpdateCanLandAfterExpiry | src/services/sep10.ts:145-155 | a family of runs, one for each reading and wait, with exactly those that land and those that land late |

## Left out

- Sessions.ChallengeSingleUse: the signature and structure checks of the SEP-10 library happen before a task starts and are not modelled.
- Time-to-live extension, archival and the restore entrypoints: host plumbing; a key that was written stays readable here.
- Events, `health`, `version`, `contract_kind`, `upgrade` and the wiring views: no logic to prove.
- Wiring epochs, admin proposal and acceptance: single-branch setters; the runs keep the admin they start with.
- ProgressRuns.ExecuteAll: the registration contracts a run is wired to change only by its own moves; a run that also registers and removes players is that of `TwoContracts.ExecuteAll`.
- `migrate` and `backfill_history_vec`: the code stores the target schema version after a single slice (contracts/progress/src/lib.rs:1448-1455), so the documented resumable behaviour is not what it does.
- Migration tickets (`redeem_migration_player`, `redeem_migration_scout`): ed25519 signatures and a nonce, then the same writes as admin seeding.
- Scout registration, verification and the scout cap: a table without secondary indexes, and a counter; they would only add easy members.
- `update_profile` and the batch and summary getters: they touch no index, level or history.
- `validate_cid` and the safe arithmetic helpers: easy single-branch facts; the latter appear as the checks of the entrypoints.
- The verification contract's voting and the scout-access contract's escrow: only their answers to the progress contract appear, as parameters.
- Access tokens, role derivation, token hashing, the routes, the database beyond the two tables, and a database that fails in the middle of a statement.
- The indexer, the reconciliation and audit scripts and the bindings: input and output without a law of their own.
