/** The storage keys the progress contract holds for one player, and the appending of one
    history entry to all of them (contracts/progress/src/lib.rs). */
module PlayerStore {
  import opened Prelude
  import opened SharedTypes
  import opened MerkleTree
  import opened Frontier
  import opened History
  import opened Tracks

  const HISTORY_PAGE_SIZE: u32 := 8

  datatype PlayerStore = PlayerStore(
    level: Option<ProgressLevel>,      // PlayerLevel(id)
    counter: Option<u32>,              // HistoryCounter(id)
    entries: map<u32, ProgressEntry>,  // HistoryEntry(id, index)
    pages: map<u32, Log>,              // HistoryPage(id, page)
    legacyVec: Option<Log>,            // HistoryVec(id)
    root: Option<Digest>,              // HistoryRoot(id)
    frontier: Option<seq<Peak>>)       // HistoryFrontier(id)

  const NO_DATA := PlayerStore(None, None, map[], map[], None, None, None)

  function Count(ps: PlayerStore): u32 {
    ps.counter.GetOr(0)
  }

  /** `history_page_index`. */
  function PageIndex(index: u32): u32 {
    SatSub(index, 1) / HISTORY_PAGE_SIZE
  }

  /** `div_ceil` by the page size. */
  function PageCount(n: nat): nat {
    (n + 7) / 8
  }

  // ----- what the keys should hold -----------------------------------------------------

  /** The single entries and the counter hold exactly the history. */
  ghost predicate EntriesHold(ps: PlayerStore, log: Log) {
    && Count(ps) == |log|
    && (forall i: u32 :: i in ps.entries <==> 1 <= i <= |log|)
    && (forall i: u32 :: 1 <= i <= |log| ==> ps.entries[i] == log[i - 1])
  }

  /** Page `k` of a history. */
  function PageSlice(log: Log, k: nat): Log
    requires 8 * k <= |log|
  {
    log[8 * k..Min(8 * k + 8, |log|)]
  }

  /** Every page that is present is its full slice of the history. */
  ghost predicate PagesHold(ps: PlayerStore, log: Log) {
    forall k: u32 :: k in ps.pages ==> 8 * k < |log| && ps.pages[k] == PageSlice(log, k)
  }

  ghost predicate PagesComplete(ps: PlayerStore, log: Log) {
    forall k: u32 :: 8 * k < |log| ==> k in ps.pages
  }

  /** Root and frontier, where present, commit to the history. */
  ghost predicate CommitmentHolds(ps: PlayerStore, log: Log) {
    && (ps.frontier.Some? ==> ps.frontier.value == FrontierOf(LeafHashes(log)))
    && (ps.root.Some? ==> ps.root == CommittedRoot(log))
  }

  /** All keys agree on one history.  Pages, frontier and root may be missing, as they are for
      players stored before those keys existed. */
  ghost predicate Holds(ps: PlayerStore, log: Log) {
    && EntriesHold(ps, log)
    && PagesHold(ps, log)
    && CommitmentHolds(ps, log)
  }

  /** All keys agree on one history and none is missing. */
  ghost predicate HoldsFully(ps: PlayerStore, log: Log) {
    && Holds(ps, log)
    && PagesComplete(ps, log)
    && ps.root == CommittedRoot(log)
    && (log != [] ==> ps.frontier.Some?)
  }

  /** The history is a function of the keys. */
  lemma HoldsDetermines(ps: PlayerStore, a: Log, b: Log)
    requires EntriesHold(ps, a) && EntriesHold(ps, b)
    ensures a == b
  {
    forall i | 0 <= i < |a| ensures a[i] == b[i] {
      assert ps.entries[i + 1] == a[i];
      assert ps.entries[i + 1] == b[i];
    }
  }

  /** Two players that fully hold the same non-empty history hold the same entries, pages,
      counter, frontier and root: a seeded player and the live one it was copied from do. */
  lemma FullyHeldKeysAgree(a: PlayerStore, b: PlayerStore, log: Log)
    requires HoldsFully(a, log) && HoldsFully(b, log) && log != []
    ensures a.entries == b.entries && a.pages == b.pages && a.counter == b.counter
    ensures a.frontier == b.frontier && a.root == b.root
  {
  }

  // ----- reading -----------------------------------------------------------------------

  /** The entries present at `low..=high`, in order. */
  function EntriesFrom(entries: map<u32, ProgressEntry>, low: nat, high: nat): Log
    decreases high
  {
    if high < low || high == 0 then []
    else EntriesFrom(entries, low, high - 1)
         + if high <= U32_MAX && high in entries then [entries[high]] else []
  }

  method CollectEntries(entries: map<u32, ProgressEntry>, low: u32, high: u32) returns (r: Log)
    requires low >= 1
    ensures r == EntriesFrom(entries, low, high)
  {
    r := [];
    if high < low {
      return;
    }
    assert EntriesFrom(entries, low, low - 1) == [];
    var idx: int := low;
    while idx <= high
      invariant low <= idx <= high + 1
      invariant r == EntriesFrom(entries, low, idx - 1)
    {
      if idx in entries {
        r := r + [entries[idx]];
      }
      idx := idx + 1;
    }
  }

  /** A page as the readers see it: the stored one, or one rebuilt from single entries. */
  function PageView(ps: PlayerStore, k: u32, count: u32): Log {
    if k in ps.pages then ps.pages[k]
    else EntriesFrom(ps.entries, 8 * k + 1, Min(8 * k + 8, count))
  }

  function PagesView(ps: PlayerStore, n: u32, count: u32): Log {
    if n == 0 then [] else PagesView(ps, n - 1, count) + PageView(ps, n - 1, count)
  }

  function ReadAll(ps: PlayerStore): Log {
    if Count(ps) == 0 || PagesView(ps, PageCount(Count(ps)), Count(ps)) == [] then
      ps.legacyVec.GetOr([])
    else PagesView(ps, PageCount(Count(ps)), Count(ps))
  }

  /** Rebuilding page `k` computes `8k + 1 + 8` in a u32, which traps for the very last page
      of a history of nearly 2^32 entries. */
  predicate RebuildFits(k: u32) {
    8 * k + 9 <= U32_MAX
  }

  /** The page of the indexes from 4294967289 on, and the number of entries before it. */
  const LAST_PAGE: u32 := 536_870_911
  const LAST_PAGE_START: nat := 4_294_967_288

  ghost predicate NoPageTrap(ps: PlayerStore) {
    forall k: u32 :: 8 * k < Count(ps) ==> k in ps.pages || RebuildFits(k)
  }

  /** One page; None is the trap. */
  method ReadPage(ps: PlayerStore, k: u32, count: u32) returns (page: Option<Log>)
    ensures page == if k in ps.pages || RebuildFits(k) then Some(PageView(ps, k, count)) else None
  {
    if k in ps.pages {
      return Some(ps.pages[k]);
    }
    if k * HISTORY_PAGE_SIZE + 1 + HISTORY_PAGE_SIZE > U32_MAX {
      return None;
    }
    var start: u32 := k * HISTORY_PAGE_SIZE + 1;
    var past: u32 := start + HISTORY_PAGE_SIZE;
    var entries := CollectEntries(ps.entries, start, Min(past - 1, count));
    return Some(entries);
  }

  /** `read_history_pages`, on any storage; None is the trap. */
  method ReadHistoryPages(ps: PlayerStore) returns (history: Option<Log>)
    ensures history.None? <==> !NoPageTrap(ps)
    ensures history.Some? ==> history.value == ReadAll(ps)
  {
    var count := Count(ps);
    if count == 0 {
      return Some(ps.legacyVec.GetOr([]));
    }
    var read := [];
    var totalPages: u32 := PageCount(count);
    for k := 0 to totalPages
      invariant read == PagesView(ps, k, count)
      invariant forall j: u32 :: j < k ==> j in ps.pages || RebuildFits(j)
    {
      var page := ReadPage(ps, k, count);
      if page.None? {
        return None;
      }
      read := read + page.value;
    }
    if read == [] {
      return Some(ps.legacyVec.GetOr([]));
    }
    return Some(read);
  }

  /** Only the very last page of a history can trap, and only when it is not stored. */
  lemma NoPageTrapIff(ps: PlayerStore)
    ensures NoPageTrap(ps) <==> Count(ps) <= LAST_PAGE_START || LAST_PAGE in ps.pages
  {
    assert !RebuildFits(LAST_PAGE);
  }

  /** Single entries, numbered from 1. */
  function EntriesOf(log: Log): (entries: map<u32, ProgressEntry>)
    requires |log| <= U32_MAX
    ensures forall i: u32 :: i in entries <==> 1 <= i <= |log|
    ensures forall i: u32 :: 1 <= i <= |log| ==> entries[i] == log[i - 1]
  {
    if log == [] then map[]
    else
      var n := |log| - 1;
      EntriesOf(log[..n])[n + 1 := log[n]]
  }

  /** The keys of a player stored before pages, root and frontier existed. */
  function LegacyStore(log: Log): PlayerStore
    requires |log| <= U32_MAX
  {
    NO_DATA.(counter := Some(|log|), entries := EntriesOf(log))
  }

  /** Any legacy history that reaches the last page traps its readers; shorter ones do not. */
  lemma LegacyReadTraps(log: Log)
    requires |log| <= U32_MAX
    ensures Holds(LegacyStore(log), log)
    ensures NoPageTrap(LegacyStore(log)) <==> |log| <= LAST_PAGE_START
  {
    NoPageTrapIff(LegacyStore(log));
  }

  lemma {:induction false} EntriesAreSlice(ps: PlayerStore, log: Log, low: nat, high: nat)
    requires EntriesHold(ps, log) && 1 <= low <= high + 1 && high <= |log|
    ensures EntriesFrom(ps.entries, low, high) == log[low - 1..high]
    decreases high
  {
    if low <= high {
      EntriesAreSlice(ps, log, low, high - 1);
      SliceGrows(log, low - 1, high);
      assert ps.entries[high] == log[high - 1];
    }
  }

  lemma SliceGrows<T>(s: seq<T>, low: nat, high: nat)
    requires low < high <= |s|
    ensures s[low..high] == s[low..high - 1] + [s[high - 1]]
  {
  }

  lemma PageTakes(log: Log, k: nat)
    requires 8 * k <= |log|
    ensures log[..8 * k] + PageSlice(log, k) == log[..Min(8 * k + 8, |log|)]
  {
  }

  lemma PageViewIsSlice(ps: PlayerStore, log: Log, k: u32)
    requires EntriesHold(ps, log) && PagesHold(ps, log) && 8 * k < |log|
    ensures PageView(ps, k, |log|) == PageSlice(log, k)
  {
    if k !in ps.pages {
      EntriesAreSlice(ps, log, 8 * k + 1, Min(8 * k + 8, |log|));
    }
  }

  lemma {:induction false} PagesViewIsPrefix(ps: PlayerStore, log: Log, n: u32)
    requires EntriesHold(ps, log) && PagesHold(ps, log) && n <= PageCount(|log|)
    ensures PagesView(ps, n, |log|) == log[..Min(8 * n, |log|)]
  {
    hide PageView, PageSlice;
    if n > 0 {
      PagesViewIsPrefix(ps, log, n - 1);
      PageViewIsSlice(ps, log, n - 1);
      PageTakes(log, n - 1);
    }
  }

  /** Reading back gives the whole history, whichever pages are missing. */
  lemma ReadAllIsLog(ps: PlayerStore, log: Log)
    requires EntriesHold(ps, log) && PagesHold(ps, log)
    ensures log != [] ==> ReadAll(ps) == log
    ensures log == [] ==> ReadAll(ps) == ps.legacyVec.GetOr([])
  {
    if log != [] {
      PagesViewIsPrefix(ps, log, PageCount(|log|));
      assert log[..|log|] == log;
    }
  }

  // ----- the frontier to append onto ---------------------------------------------------

  /** `build_frontier`. */
  method BuildFrontier(history: Log, count: u32) returns (frontier: seq<Peak>)
    ensures frontier == FrontierOf(LeafHashes(history[..Min(count, |history|)]))
  {
    hide FrontierOf, Carry, LeafHash;
    frontier := [];
    var bound := Min(count, |history|);
    EmptyFrontier();
    for i := 0 to bound
      invariant frontier == FrontierOf(LeafHashes(history[..i]))
    {
      var before := history[..i];
      AppendExtends(LeafHashes(before), LeafHash(history[i]));
      LeafHashesAppend(before, history[i]);
      assert before + [history[i]] == history[..i + 1];
      frontier := FrontierAppend(frontier, LeafHash(history[i]));
    }
  }

  lemma EmptyFrontier()
    ensures FrontierOf(LeafHashes([])) == []
  {
  }

  /** The frontier an append starts from: the stored one, or one rebuilt from the first
      `priorCount` entries that can be read. */
  function LoadedFrontier(ps: PlayerStore, priorCount: u32): seq<Peak> {
    if ps.frontier.Some? then ps.frontier.value
    else FrontierOf(LeafHashes(ReadAll(ps)[..Min(priorCount, |ReadAll(ps)|)]))
  }

  /** `load_or_build_frontier`, called when the new entry is already in the single entries and
      in its page; None is the trap. */
  method LoadOrBuildFrontier(ps: PlayerStore, priorCount: u32) returns (frontier: Option<seq<Peak>>)
    ensures frontier.None? <==> ps.frontier.None? && priorCount > 0 && !NoPageTrap(ps)
    ensures frontier.Some? ==> frontier.value == LoadedFrontier(ps, priorCount)
  {
    hide FrontierOf, ReadAll;
    if ps.frontier.Some? {
      return Some(ps.frontier.value);
    }
    EmptyFrontier();
    if priorCount == 0 {
      assert ReadAll(ps)[..0] == [];
      return Some([]);
    }
    var history := ReadHistoryPages(ps);
    if history.None? {
      return None;
    }
    var built := BuildFrontier(history.value, priorCount);
    return Some(built);
  }

  /** A lazy rebuild folds exactly the entries before the new one, so either way the append
      starts from the frontier of the history before it. */
  lemma LoadedFrontierIsPrior(ps: PlayerStore, log: Log, e: ProgressEntry)
    requires |log| < U32_MAX
    requires ps.frontier.Some? ==> ps.frontier.value == FrontierOf(LeafHashes(log))
    requires ps.frontier.None? ==> EntriesHold(ps, log + [e]) && PagesHold(ps, log + [e])
    ensures LoadedFrontier(ps, |log|) == FrontierOf(LeafHashes(log))
  {
    if ps.frontier.None? {
      ReadAllIsLog(ps, log + [e]);
      assert (log + [e])[..|log|] == log;
    }
  }

  // ----- appending ---------------------------------------------------------------------

  lemma PageSliceAppend(log: Log, e: ProgressEntry, k: nat)
    requires 8 * k <= |log|
    ensures 8 * k <= |log| < 8 * k + 8 ==> PageSlice(log + [e], k) == PageSlice(log, k) + [e]
    ensures 8 * k + 8 <= |log| ==> PageSlice(log + [e], k) == PageSlice(log, k)
  {
  }

  lemma EntriesAppend(ps: PlayerStore, log: Log, e: ProgressEntry)
    requires EntriesHold(ps, log) && |log| < U32_MAX
    ensures EntriesHold(ps.(entries := ps.entries[|log| + 1 := e], counter := Some(|log| + 1)), log + [e])
  {
  }

  /** Writing the right last page keeps every page right. */
  lemma PagesAppend(ps: PlayerStore, log: Log, e: ProgressEntry, k: u32, page: Log)
    requires PagesHold(ps, log)
    requires 8 * k <= |log| < 8 * k + 8
    ensures PagesHold(ps.(pages := ps.pages[k := page]), log + [e]) <==> page == PageSlice(log, k) + [e]
    ensures PagesComplete(ps, log) ==> PagesComplete(ps.(pages := ps.pages[k := page]), log + [e])
  {
    PageSliceAppend(log, e, k);
    var after := ps.pages[k := page];
    assert after[k] == page;
    forall j: u32 | j in after && j != k
      ensures 8 * j < |log + [e]| && after[j] == PageSlice(log + [e], j)
    {
      PageSliceAppend(log, e, j);
    }
  }

  /** With the newest page written, rebuilding an older one cannot trap. */
  lemma NewestPageAvoidsTrap(ps: PlayerStore)
    requires Count(ps) >= 1 && PageIndex(Count(ps)) in ps.pages
    ensures NoPageTrap(ps)
  {
  }

  /** The commitment after folding one more leaf onto the loaded frontier. */
  function WithLeaf(ps: PlayerStore, priorCount: u32, e: ProgressEntry): PlayerStore {
    var frontier := Carry(LoadedFrontier(ps, priorCount), 0, LeafHash(e));
    ps.(root := Some(RootOf(frontier)), frontier := Some(frontier))
  }

  /** The last part of both append paths: fold the new leaf, derive the root, store the two. */
  method CommitEntry(ps: PlayerStore, priorCount: u32, e: ProgressEntry) returns (r: PlayerStore)
    requires NoPageTrap(ps)
    ensures r == WithLeaf(ps, priorCount, e)
  {
    hide LoadedFrontier, Carry, RootOf, LeafHash;
    var loaded := LoadOrBuildFrontier(ps, priorCount);
    var frontier := FrontierAppend(loaded.value, LeafHash(e));
    var root := FrontierRoot(frontier);
    r := ps.(root := Some(root));
    r := r.(frontier := Some(frontier));
  }

  lemma WithLeafCommits(ps: PlayerStore, log: Log, e: ProgressEntry)
    requires |log| < U32_MAX
    requires LoadedFrontier(ps, |log|) == FrontierOf(LeafHashes(log))
    ensures WithLeaf(ps, |log|, e)
         == ps.(root := CommittedRoot(log + [e]), frontier := Some(FrontierOf(LeafHashes(log + [e]))))
  {
    hide LoadedFrontier, Carry, RootOf, FrontierOf, LeafHash;
    AppendExtends(LeafHashes(log), LeafHash(e));
    LeafHashesAppend(log, e);
    FrontierRootIsMth(LeafHashes(log + [e]));
  }

  /** The single entries and the counter after an append. */
  function WithEntry(ps: PlayerStore, e: ProgressEntry): PlayerStore
    requires Count(ps) < U32_MAX
  {
    ps.(entries := ps.entries[Count(ps) + 1 := e], counter := Some(Count(ps) + 1))
  }

  /** All keys hold the longer history once the entry, the right page and the commitment are
      written. */
  lemma AppendHolds(ps: PlayerStore, log: Log, e: ProgressEntry, k: u32, page: Log, r: PlayerStore)
    requires Holds(ps, log) && |log| < U32_MAX
    requires 8 * k <= |log| < 8 * k + 8
    requires r == WithLeaf(WithEntry(ps, e).(pages := ps.pages[k := page]), |log|, e)
    requires page == PageSlice(log, k) + [e]
    ensures Holds(r, log + [e])
    ensures r.root == CommittedRoot(log + [e]) && r.frontier.Some?
    ensures HoldsFully(ps, log) ==> HoldsFully(r, log + [e])
  {
    hide EntriesHold, PagesHold, PagesComplete, WithLeaf, LoadedFrontier, FrontierOf, CommittedRoot, PageSlice;
    var mid := WithEntry(ps, e).(pages := ps.pages[k := page]);
    AppendKeys(ps, log, e, k, page);
    LoadedFrontierIsPrior(mid, log, e);
    WithLeafCommits(mid, log, e);
    SameEntriesAndPages(mid, r, log + [e]);
  }

  lemma AppendKeys(ps: PlayerStore, log: Log, e: ProgressEntry, k: u32, page: Log)
    requires EntriesHold(ps, log) && PagesHold(ps, log) && |log| < U32_MAX
    requires 8 * k <= |log| < 8 * k + 8
    ensures var mid := WithEntry(ps, e).(pages := ps.pages[k := page]);
      && EntriesHold(mid, log + [e])
      && (PagesHold(mid, log + [e]) <==> page == PageSlice(log, k) + [e])
      && (PagesComplete(ps, log) ==> PagesComplete(mid, log + [e]))
  {
    EntriesAppend(ps, log, e);
    PagesAppend(ps, log, e, k, page);
  }

  lemma SameEntriesAndPages(a: PlayerStore, b: PlayerStore, log: Log)
    requires a.entries == b.entries && a.counter == b.counter && a.pages == b.pages
    ensures EntriesHold(a, log) <==> EntriesHold(b, log)
    ensures PagesHold(a, log) <==> PagesHold(b, log)
    ensures PagesComplete(a, log) <==> PagesComplete(b, log)
  {
  }

  /** The earlier entries of the page the next entry goes to: the stored page, or one seeded
      from the single entries, so that readers do not trust a partial page. */
  function OpenPage(ps: PlayerStore): Log {
    var k := Count(ps) / 8;
    if k in ps.pages then ps.pages[k] else EntriesFrom(ps.entries, 8 * k + 1, Count(ps))
  }

  /** What one live append makes of any storage. */
  function Recorded(ps: PlayerStore, e: ProgressEntry): PlayerStore
    requires Count(ps) < U32_MAX
  {
    WithLeaf(WithEntry(ps, e).(pages := ps.pages[Count(ps) / 8 := OpenPage(ps) + [e]]), Count(ps), e)
  }

  /** `record_progress_entry`, for the entry already put together, on any storage. */
  method RecordEntry(ps: PlayerStore, e: ProgressEntry) returns (r: PlayerStore)
    requires Count(ps) < U32_MAX
    ensures r == Recorded(ps, e)
  {
    hide LoadedFrontier, RootOf, Carry, EntriesFrom;
    var index := Count(ps);
    var nextIndex: u32 := index + 1;
    r := ps.(entries := ps.entries[nextIndex := e]);
    r := r.(counter := Some(nextIndex));
    var k := PageIndex(nextIndex);
    var page;
    if k in r.pages {
      page := r.pages[k];
    } else {
      page := CollectEntries(r.entries, k * HISTORY_PAGE_SIZE + 1, nextIndex - 1);
      EntriesBelow(ps.entries, 8 * k + 1, index, e);
    }
    page := page + [e];
    r := r.(pages := r.pages[k := page]);
    NewestPageAvoidsTrap(r);
    r := CommitEntry(r, index, e);
  }

  lemma {:induction false} EntriesBelow(entries: map<u32, ProgressEntry>, low: nat, high: u32, e: ProgressEntry)
    requires high < U32_MAX
    ensures forall top: nat :: top <= high ==>
              EntriesFrom(entries[high + 1 := e], low, top) == EntriesFrom(entries, low, top)
  {
    forall top: nat | top <= high
      ensures EntriesFrom(entries[high + 1 := e], low, top) == EntriesFrom(entries, low, top)
    {
      EntriesUntouched(entries, low, top, high + 1, e);
    }
  }

  lemma {:induction false} EntriesUntouched(entries: map<u32, ProgressEntry>, low: nat, high: nat,
                                            at: u32, e: ProgressEntry)
    requires high < at
    ensures EntriesFrom(entries[at := e], low, high) == EntriesFrom(entries, low, high)
    decreases high
  {
    if high > 0 {
      EntriesUntouched(entries, low, high - 1, at, e);
    }
  }

  /** From a state in which all present keys hold one history, whatever pages are missing and
      whether or not there is a frontier, a live append makes all keys hold the longer history:
      the newest page, the frontier and the root included, the new entry folded once. */
  lemma RecordedHolds(ps: PlayerStore, log: Log, e: ProgressEntry)
    requires Holds(ps, log) && |log| < U32_MAX
    ensures Holds(Recorded(ps, e), log + [e])
    ensures Recorded(ps, e).root == CommittedRoot(log + [e])
    ensures Recorded(ps, e).frontier == Some(FrontierOf(LeafHashes(log + [e])))
    ensures |log| / 8 in Recorded(ps, e).pages
    ensures ReadAll(Recorded(ps, e)) == log + [e]
    ensures HoldsFully(ps, log) ==> HoldsFully(Recorded(ps, e), log + [e])
    ensures Recorded(ps, e).level == ps.level && Recorded(ps, e).legacyVec == ps.legacyVec
  {
    hide WithLeaf, HoldsFully, CommittedRoot, FrontierOf, ReadAll, PageSlice;
    var k := |log| / 8;
    OpenPageIsSlice(ps, log);
    AppendHolds(ps, log, e, k, OpenPage(ps) + [e], Recorded(ps, e));
    WithLeafKeeps(WithEntry(ps, e).(pages := ps.pages[k := OpenPage(ps) + [e]]), |log|, e);
    ReadAllIsLog(Recorded(ps, e), log + [e]);
  }

  /** After a live append the readers return what they returned before and the new entry, if and
      only if the player held some entry or had no old vector: the first entry hides the vector. */
  lemma AppendReadsOnIff(ps: PlayerStore, log: Log, e: ProgressEntry)
    requires Holds(ps, log) && |log| < U32_MAX
    ensures ReadAll(Recorded(ps, e)) == ReadAll(ps) + [e] <==> log != [] || ps.legacyVec.GetOr([]) == []
  {
    hide Holds, Recorded, ReadAll;
    RecordedHolds(ps, log, e);
    HeldKeys(ps, log);
    ReadAllIsLog(ps, log);
  }

  lemma HeldKeys(ps: PlayerStore, log: Log)
    requires Holds(ps, log)
    ensures EntriesHold(ps, log) && PagesHold(ps, log)
  {
  }

  /** A player with nothing but an old vector of any length: one append, and the readers return
      the new entry alone. */
  lemma OldVectorHidden(vec: Log, e: ProgressEntry)
    ensures var ps := NO_DATA.(legacyVec := Some(vec));
      && Holds(ps, []) && ReadAll(ps) == vec
      && ReadAll(Recorded(ps, e)) == [e]
  {
    var ps := NO_DATA.(legacyVec := Some(vec));
    hide Recorded;
    RecordedHolds(ps, [], e);
    assert [] + [e] == [e];
  }

  lemma WithLeafKeeps(ps: PlayerStore, priorCount: u32, e: ProgressEntry)
    ensures WithLeaf(ps, priorCount, e) ==
            ps.(root := WithLeaf(ps, priorCount, e).root, frontier := WithLeaf(ps, priorCount, e).frontier)
  {
  }

  lemma OpenPageIsSlice(ps: PlayerStore, log: Log)
    requires EntriesHold(ps, log) && PagesHold(ps, log) && |log| <= U32_MAX
    ensures OpenPage(ps) == PageSlice(log, |log| / 8)
  {
    var k := |log| / 8;
    if k !in ps.pages {
      EntriesAreSlice(ps, log, 8 * k + 1, |log|);
    }
  }

  // ----- seeding -----------------------------------------------------------------------

  /** Whether the page the next entry goes to can be appended to as it is stored. */
  predicate NextPageReady(ps: PlayerStore) {
    Count(ps) % 8 == 0 || Count(ps) / 8 in ps.pages
  }

  /** What the writes of `admin_seed_history` for a new entry make of any storage.  Unlike the
      live path, a missing page is started empty. */
  function SeedWritten(ps: PlayerStore, e: ProgressEntry): PlayerStore
    requires Count(ps) < U32_MAX
  {
    var k := Count(ps) / 8;
    var page := if k in ps.pages then ps.pages[k] else [];
    WithLeaf(WithEntry(ps, e).(pages := ps.pages[k := page + [e]]), Count(ps), e)
  }

  lemma SeedWrittenEntry(ps: PlayerStore, e: ProgressEntry)
    requires Count(ps) < U32_MAX
    ensures SeedWritten(ps, e).entries == ps.entries[Count(ps) + 1 := e]
  {
  }

  method SeedEntry(ps: PlayerStore, e: ProgressEntry) returns (r: PlayerStore)
    requires Count(ps) < U32_MAX
    ensures r == SeedWritten(ps, e)
  {
    hide LoadedFrontier, RootOf, Carry;
    var index := Count(ps);
    var nextIndex: u32 := index + 1;
    r := ps.(entries := ps.entries[nextIndex := e]);
    r := r.(counter := Some(nextIndex));
    var k := PageIndex(nextIndex);
    var page := if k in r.pages then r.pages[k] else [];
    page := page + [e];
    r := r.(pages := r.pages[k := page]);
    NewestPageAvoidsTrap(r);
    r := CommitEntry(r, index, e);
  }

  /** After seeding an entry all keys hold the longer history if and only if the page was
      stored already or the entry is the first of its page.  In a contract without older data
      that is always so. */
  lemma SeedHoldsIffPageReady(ps: PlayerStore, log: Log, e: ProgressEntry)
    requires Holds(ps, log) && |log| < U32_MAX
    ensures Holds(SeedWritten(ps, e), log + [e]) <==> NextPageReady(ps)
    ensures NextPageReady(ps) ==> SeedWritten(ps, e).root == CommittedRoot(log + [e])
    ensures HoldsFully(ps, log) ==> NextPageReady(ps) && HoldsFully(SeedWritten(ps, e), log + [e])
    ensures SeedWritten(ps, e).level == ps.level && SeedWritten(ps, e).root.Some?
  {
    hide LoadedFrontier, RootOf, Carry, FrontierOf, CommittedRoot;
    var k := |log| / 8;
    var page := if k in ps.pages then ps.pages[k] else [];
    var mid := WithEntry(ps, e).(pages := ps.pages[k := page + [e]]);
    AppendKeys(ps, log, e, k, page + [e]);
    SameEntriesAndPages(mid, SeedWritten(ps, e), log + [e]);
    ReadyPage(ps, log, k);
    if NextPageReady(ps) {
      AppendHolds(ps, log, e, k, page + [e], SeedWritten(ps, e));
    }
  }

  /** A legacy history that does not end with a full page: after seeding, its newest page is the
      new entry alone, so the keys no longer hold the history. */
  lemma LegacySeedBreaksPage(log: Log, e: ProgressEntry)
    requires |log| < U32_MAX && |log| % 8 != 0
    ensures Holds(LegacyStore(log), log)
    ensures SeedWritten(LegacyStore(log), e).pages == map[|log| / 8 := [e]]
    ensures !Holds(SeedWritten(LegacyStore(log), e), log + [e])
  {
    hide LoadedFrontier, RootOf, Carry, FrontierOf, CommittedRoot;
    LegacyReadTraps(log);
    assert [] + [e] == [e];
    SeedHoldsIffPageReady(LegacyStore(log), log, e);
  }

  /** The page to append to reads as the right slice exactly when it is ready; a history whose
      pages are all there is always ready. */
  lemma ReadyPage(ps: PlayerStore, log: Log, k: u32)
    requires EntriesHold(ps, log) && PagesHold(ps, log) && 8 * k <= |log| < 8 * k + 8
    ensures NextPageReady(ps) <==> (if k in ps.pages then ps.pages[k] else []) == PageSlice(log, k)
    ensures PagesComplete(ps, log) ==> NextPageReady(ps)
  {
    assert |log| / 8 == k;
    assert |log| % 8 == 0 <==> PageSlice(log, k) == [];
  }
}
