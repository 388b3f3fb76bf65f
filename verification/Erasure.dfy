/** The paged erasure of a player's progress data (contracts/progress/src/lib.rs), the loop that
    drives it, and what it leaves behind. */
module Erasure {
  import opened Prelude
  import opened Frontier
  import opened History
  import opened Tracks
  import opened PlayerStore

  const PURGE_PAGE: u32 := 50

  /** One past the last index a call that starts at `cursor` removes. */
  function PurgeEnd(total: u32, cursor: u32): nat {
    Min(cursor + 51, total + 1)
  }

  /** Some entry strictly between `cursor` and `end` lies in page `k`. */
  predicate PageTouched(k: nat, cursor: nat, end: nat) {
    cursor + 1 < end && cursor / 8 <= k <= (end - 2) / 8
  }

  /** Everything a call may remove but the entries and pages. */
  function ClearFirst(ps: PlayerStore, cursor: u32): PlayerStore {
    if cursor == 0 then ps.(level := None, root := None, legacyVec := None) else ps
  }

  /** What one call makes of the keys: on the first page the level, root and vector go, then the
      entries after the cursor and their pages, and the counter when nothing more is left. */
  ghost predicate PageRemoved(ps: PlayerStore, cursor: u32, after: PlayerStore, next: u32, more: bool) {
    var end := PurgeEnd(Count(ps), cursor);
    && next == end - 1 && (more <==> next < Count(ps))
    && after == ClearFirst(ps, cursor).(
         entries := after.entries, pages := after.pages,
         counter := if more then ps.counter else None)
    && (forall i :: i in after.entries <==> i in ps.entries && !(cursor < i < end))
    && (forall i :: i in after.entries ==> after.entries[i] == ps.entries[i])
    && (forall k :: k in after.pages <==> k in ps.pages && !PageTouched(k, cursor, end))
    && (forall k :: k in after.pages ==> after.pages[k] == ps.pages[k])
  }

  /** The removal loop: every entry of the range, and the page of each. */
  method RemoveRange(entries0: map<u32, ProgressEntry>, pages0: map<u32, Log>, start: u32, end: u32)
    returns (entries: map<u32, ProgressEntry>, pages: map<u32, Log>)
    requires start >= 1
    ensures forall i :: i in entries <==> i in entries0 && !(start <= i < end)
    ensures forall i :: i in entries ==> entries[i] == entries0[i]
    ensures forall k :: k in pages <==> k in pages0 && !PageTouched(k, start - 1, end)
    ensures forall k :: k in pages ==> pages[k] == pages0[k]
  {
    hide PageTouched;
    entries, pages := entries0, pages0;
    NoneTouched(start - 1, start);
    if end <= start {
      NoneTouched(start - 1, end);
      return;
    }
    for idx := start to end
      invariant forall i :: i in entries <==> i in entries0 && !(start <= i < idx)
      invariant forall i :: i in entries ==> entries[i] == entries0[i]
      invariant forall k :: k in pages <==> k in pages0 && !PageTouched(k, start - 1, idx)
      invariant forall k :: k in pages ==> pages[k] == pages0[k]
    {
      if idx in entries {
        entries := entries - {idx};
      }
      var page: u32 := (idx - 1) / HISTORY_PAGE_SIZE;
      if page in pages {
        pages := pages - {page};
      }
      TouchOne(start - 1, idx);
    }
  }

  /** `purge_player_data` on the keys of one player.  None is an arithmetic trap, after which the
      host restores everything. */
  method PurgePage(ps: PlayerStore, cursor: u32) returns (r: Option<(PlayerStore, u32, bool)>)
    ensures r.None? <==> cursor + 51 > U32_MAX || Count(ps) == U32_MAX
    ensures r.Some? ==> PageRemoved(ps, cursor, r.value.0, r.value.1, r.value.2)
  {
    hide PageTouched;
    var after := ps;
    if cursor == 0 {
      // Removing a key that is absent changes nothing.
      after := after.(level := None);
      after := after.(root := None);
      after := after.(legacyVec := None);
    }
    var total := Count(after);
    if cursor + 1 > U32_MAX || cursor + 1 + PURGE_PAGE > U32_MAX || total + 1 > U32_MAX {
      return None;
    }
    var start: u32 := cursor + 1;
    var end: u32 := Min(start + PURGE_PAGE, total + 1);
    var entries, pages := RemoveRange(after.entries, after.pages, start, end);
    var nextCursor: u32 := end - 1;
    var more := nextCursor < total;
    after := after.(entries := entries, pages := pages);
    if !more {
      after := after.(counter := None);
    }
    return Some((after, nextCursor, more));
  }

  lemma NoneTouched(cursor: nat, end: nat)
    requires end <= cursor + 1
    ensures forall k: nat :: !PageTouched(k, cursor, end)
  {
  }

  lemma TouchOneAt(k: nat, cursor: nat, idx: nat)
    requires idx > cursor
    ensures PageTouched(k, cursor, idx + 1) <==> PageTouched(k, cursor, idx) || k == (idx - 1) / 8
  {
    if idx > cursor + 1 {
      var before, last := (idx - 2) / 8, (idx - 1) / 8;
      assert cursor / 8 <= before && (last == before || last == before + 1);
      assert (idx + 1 - 2) / 8 == last;
    } else {
      assert idx - 1 == cursor && idx + 1 - 2 == cursor;
    }
  }

  lemma TouchOne(cursor: nat, idx: nat)
    requires idx > cursor
    ensures forall k: nat ::
      PageTouched(k, cursor, idx + 1) <==> PageTouched(k, cursor, idx) || k == (idx - 1) / 8
  {
    hide PageTouched;
    forall k: nat
      ensures PageTouched(k, cursor, idx + 1) <==> PageTouched(k, cursor, idx) || k == (idx - 1) / 8
    {
      TouchOneAt(k, cursor, idx);
    }
  }

  // ----- driving it --------------------------------------------------------------------

  /** A player whose data are gone up to `cursor`: the entries up to there, the pages that
      start before it, and the single keys. */
  ghost predicate PurgedTo(before: PlayerStore, ps: PlayerStore, cursor: u32) {
    && (forall i :: i in ps.entries <==> i in before.entries && i > cursor)
    && (forall i :: i in ps.entries ==> ps.entries[i] == before.entries[i])
    && (forall k :: k in ps.pages <==> k in before.pages && 8 * k >= cursor)
    && (forall k :: k in ps.pages ==> ps.pages[k] == before.pages[k])
    && ps.frontier == before.frontier
    && (cursor == 0 ==> ps == before)
    && (cursor > 0 ==> ps.level == None && ps.root == None && ps.legacyVec == None)
  }

  lemma NothingPurged(ps: PlayerStore)
    ensures forall log :: Holds(ps, log) ==> PurgedTo(ps, ps, 0)
  {
    forall log | Holds(ps, log) ensures PurgedTo(ps, ps, 0) {
      HeldRange(ps, log);
    }
  }

  lemma TouchedRange(k: nat, cursor: nat, end: nat)
    requires end > cursor + 1
    ensures 8 * k >= cursor ==> (PageTouched(k, cursor, end) <==> 8 * k < end - 1)
    ensures PageTouched(k, cursor, end) ==> 8 * k < end - 1
  {
  }

  /** The last cursor a driver can go on from without an overflow is a multiple of 50 at most
      2^32 - 52, so it gets through histories of at most this many entries. */
  const PURGEABLE: nat := 4_294_967_250

  lemma HeldRange(ps: PlayerStore, log: Log)
    requires Holds(ps, log)
    ensures Count(ps) == |log|
    ensures forall i: u32 :: i in ps.entries ==> i <= |log|
    ensures forall k: u32 :: k in ps.pages ==> 8 * k < |log|
  {
  }

  lemma PurgedFurther(before: PlayerStore, cur: PlayerStore, cursor: u32,
                      after: PlayerStore, next: u32, more: bool, log: Log)
    requires Holds(before, log)
    requires PurgedTo(before, cur, cursor) && cur.counter == before.counter
    requires cursor == 0 || cursor < |log|
    requires PageRemoved(cur, cursor, after, next, more)
    ensures next == Min(cursor + 50, |log|) && (more <==> next < |log|)
    ensures more ==> PurgedTo(before, after, next) && after.counter == before.counter
    ensures !more ==> after == Leftover(before)
  {
    HeldRange(before, log);
    var end := next + 1;
    if end > cursor + 1 {
      forall k: u32 ensures k in after.pages <==> k in before.pages && 8 * k >= end - 1 {
        TouchedRange(k, cursor, end);
      }
    } else {
      assert log == [];
    }
    if !more {
      assert after.entries == map[];
      assert after.pages == map[];
    }
  }

  // ----- what is left ------------------------------------------------------------------

  /** The keys after a complete erasure: only the frontier is never removed, if there was one. */
  function Leftover(ps: PlayerStore): PlayerStore {
    NO_DATA.(frontier := ps.frontier)
  }

  /** The keys that are left hold the empty history if and only if no frontier was stored or
      the erased history was empty. */
  lemma LeftoverHoldsIff(ps: PlayerStore, log: Log)
    requires Holds(ps, log)
    ensures Holds(Leftover(ps), []) <==> ps.frontier.None? || log == []
  {
    EmptyFrontier();
    if ps.frontier.Some? && log != [] {
      FrontierNonEmpty(log);
    }
  }

  lemma FrontierNonEmpty(log: Log)
    requires log != []
    ensures FrontierOf(LeafHashes(log)) != []
  {
    SpanOfLeaves(|log|);
    PeaksTile(LeafHashes(log), 0, |log|);
  }

  /** Appending for an erased player starts from the frontier that is left.  The new one-entry
      history is committed to and held if and only if no frontier was stored or the erased history
      was empty; otherwise the root is that of the erased history with the new entry at its end. */
  lemma AppendAfterErasureIff(ps: PlayerStore, log: Log, e: ProgressEntry)
    requires Holds(ps, log) && |log| < U32_MAX
    ensures var r := Recorded(Leftover(ps), e);
      && (r.root == CommittedRoot([e]) <==> ps.frontier.None? || log == [])
      && (Holds(r, [e]) <==> ps.frontier.None? || log == [])
      && (ps.frontier.Some? ==> r.root == CommittedRoot(log + [e]))
  {
    hide Carry;
    LeftoverHoldsIff(ps, log);
    assert [] + [e] == [e];
    if ps.frontier.None? || log == [] {
      RecordedHolds(Leftover(ps), [], e);
      assert log == [] ==> log + [e] == [e];
    } else {
      StaleFrontier(ps, log, e);
      if CommittedRoot(log + [e]) == CommittedRoot([e]) {
        RootBindsLog(log + [e], [e]);
        assert false;
      }
    }
  }

  lemma StaleFrontier(ps: PlayerStore, log: Log, e: ProgressEntry)
    requires Holds(ps, log) && ps.frontier.Some?
    ensures Recorded(Leftover(ps), e).root == CommittedRoot(log + [e])
  {
    hide Carry, RootOf, FrontierOf, LeafHash;
    AppendExtends(LeafHashes(log), LeafHash(e));
    LeafHashesAppend(log, e);
    FrontierRootIsMth(LeafHashes(log + [e]));
  }

  /** A player stored before frontiers were leaves nothing behind; after one live append the same
      player leaves the frontier of the whole history. */
  lemma LegacyLeavesNothing(log: Log, e: ProgressEntry)
    requires |log| < U32_MAX
    ensures Leftover(LegacyStore(log)) == NO_DATA
    ensures Leftover(Recorded(LegacyStore(log), e)).frontier == Some(FrontierOf(LeafHashes(log + [e])))
  {
    hide Recorded;
    LegacyReadTraps(log);
    RecordedHolds(LegacyStore(log), log, e);
  }
}
