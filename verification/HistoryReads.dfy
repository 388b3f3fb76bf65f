/** The paged readers of a player's history (contracts/progress/src/lib.rs): by cursor, by
    offset and by time. */
module HistoryReads {
  import opened Prelude
  import opened History
  import opened Tracks
  import opened PlayerStore

  const MAX_PAGE: u32 := 50

  /** Index of the last entry of a page that starts at `next`, with the saturating arithmetic
      of the contract: the sum stops at 2^32 - 1 before 1 is taken off again. */
  function LastOfPage(next: u32, limit: u32, bound: u32): u32 {
    Min(SatSub(SatAdd(next, Clamp(limit, 1, MAX_PAGE)), 1), bound)
  }

  lemma LastBounded(next: u32, limit: u32, bound: u32)
    ensures LastOfPage(next, limit, bound) <= bound
  {
  }

  lemma SliceOrNothing(ps: PlayerStore, log: Log, first: u32, last: u32)
    requires EntriesHold(ps, log) && 1 <= first && last <= |log|
    ensures EntriesFrom(ps.entries, first, last) == if last < first then [] else log[first - 1..last]
  {
    if last >= first {
      EntriesAreSlice(ps, log, first, last);
    }
  }

  lemma HeldCount(ps: PlayerStore, log: Log)
    requires Holds(ps, log)
    ensures EntriesHold(ps, log) && PagesHold(ps, log) && Count(ps) == |log|
  {
  }

  // ----- cursor paging -----------------------------------------------------------------

  datatype CursorPage = CursorPage(entries: Log, nextIndex: u32, snapshot: u32)

  /** The page a cursor reads from a history. */
  function CursorPageOf(log: Log, snapshot: Option<u32>, next: Option<u32>, limit: u32): CursorPage
    requires |log| <= U32_MAX
  {
    var bound := Min(snapshot.GetOr(|log|), |log|);
    var first := next.GetOr(1);
    if first == 0 || first > bound then CursorPage([], 0, bound)
    else
      var last := LastOfPage(first, limit, bound);
      CursorPage(if last < first then [] else log[first - 1..last],
                 if last >= bound then 0 else last + 1,
                 bound)
  }

  /** `get_history_page_with_cursor`. */
  method GetHistoryPageWithCursor(ps: PlayerStore, snapshot: Option<u32>, next: Option<u32>,
                                  limit: u32, ghost log: Log)
    returns (page: CursorPage)
    requires Holds(ps, log)
    ensures page == CursorPageOf(log, snapshot, next, limit)
  {
    hide Holds, EntriesHold, LastOfPage, EntriesFrom;
    HeldCount(ps, log);
    var currentCount := Count(ps);
    var snapshotCount := if snapshot.Some? then Min(snapshot.value, currentCount) else currentCount;
    var nextIndex := next.GetOr(1);
    if snapshotCount == 0 || nextIndex == 0 || nextIndex > snapshotCount {
      return CursorPage([], 0, snapshotCount);
    }
    var end := LastOfPage(nextIndex, limit, snapshotCount);
    LastBounded(nextIndex, limit, snapshotCount);
    var entries := CollectEntries(ps.entries, nextIndex, end);
    SliceOrNothing(ps, log, nextIndex, end);
    var returnedNext := if end >= snapshotCount then 0 else SatAdd(end, 1);
    return CursorPage(entries, returnedNext, snapshotCount);
  }

  /** One later call of a cursor: the history it finds and the limit it passes. */
  datatype CursorCall = CursorCall(log: Log, limit: u32)

  /** The calls find histories that extend `base`, as appends between calls make them. */
  ghost predicate OnlyAppends(base: Log, calls: seq<CursorCall>) {
    forall i :: 0 <= i < |calls| ==> base <= calls[i].log && |calls[i].log| <= U32_MAX
  }

  /** Following a cursor until it comes back as 0: everything received, and the last cursor. */
  function Follow(calls: seq<CursorCall>, snapshot: u32, next: u32): (Log, u32)
    requires forall i :: 0 <= i < |calls| ==> |calls[i].log| <= U32_MAX
    decreases |calls|
  {
    if calls == [] || next == 0 then ([], next)
    else
      var page := CursorPageOf(calls[0].log, Some(snapshot), Some(next), calls[0].limit);
      var (rest, last) := Follow(calls[1..], page.snapshot, page.nextIndex);
      (page.entries + rest, last)
  }

  /** From the first call, without a cursor, on. */
  function FollowAll(calls: seq<CursorCall>): (Log, u32)
    requires |calls| >= 1
    requires forall i :: 0 <= i < |calls| ==> |calls[i].log| <= U32_MAX
  {
    var page := CursorPageOf(calls[0].log, None, None, calls[0].limit);
    var (rest, last) := Follow(calls[1..], page.snapshot, page.nextIndex);
    (page.entries + rest, last)
  }

  /** A later page reads the snapshot it was cut from, whatever was appended since. */
  lemma PageReadsSnapshot(base: Log, log: Log, next: u32, limit: u32)
    requires base <= log && |log| <= U32_MAX && 1 <= next <= |base|
    ensures var last := LastOfPage(next, limit, |base|);
      CursorPageOf(log, Some(|base|), Some(next), limit)
      == CursorPage(if last < next then [] else base[next - 1..last],
                    if last >= |base| then 0 else last + 1, |base|)
  {
  }

  lemma {:induction false} FollowReadsRest(base: Log, calls: seq<CursorCall>, next: u32)
    requires OnlyAppends(base, calls)
    requires 1 <= next <= |base| < U32_MAX
    requires |calls| > |base| - next
    ensures Follow(calls, |base|, next) == (base[next - 1..], 0)
    decreases |calls|
  {
    hide CursorPageOf;
    PageReadsSnapshot(base, calls[0].log, next, calls[0].limit);
    var last := LastOfPage(next, calls[0].limit, |base|);
    if last < |base| {
      hide LastOfPage;
      FollowReadsRest(base, calls[1..], last + 1);
      assert base[next - 1..last] + base[last..] == base[next - 1..];
    } else {
      assert Follow(calls[1..], |base|, 0) == ([], 0);
      assert base[next - 1..last] + [] == base[next - 1..];
    }
  }

  /** With 2^32 - 1 entries the saturating sum never reaches the last one: the cursor sticks
      at it, and what was received always lacks it. */
  lemma {:induction false} FollowSticks(base: Log, calls: seq<CursorCall>, next: u32)
    requires OnlyAppends(base, calls)
    requires 1 <= next <= |base| == U32_MAX
    ensures Follow(calls, |base|, next).1 != 0
    ensures |Follow(calls, |base|, next).0| <= U32_MAX - next
    decreases |calls|
  {
    if calls != [] {
      hide CursorPageOf;
      PageReadsSnapshot(base, calls[0].log, next, calls[0].limit);
      var last := LastOfPage(next, calls[0].limit, |base|);
      FollowSticks(base, calls[1..], last + 1);
    }
  }

  /** Following a cursor from the start, with any limits and with appends in between, ends and
      returns exactly the history of the first call, each entry once and in order, if and only
      if that history has fewer than 2^32 - 1 entries.  One call per entry is enough. */
  lemma CursorReadsSnapshotIff(calls: seq<CursorCall>)
    requires |calls| >= 1 && |calls| >= |calls[0].log|
    requires OnlyAppends(calls[0].log, calls)
    ensures FollowAll(calls) == (calls[0].log, 0) <==> |calls[0].log| < U32_MAX
  {
    var base := calls[0].log;
    var page := CursorPageOf(base, None, None, calls[0].limit);
    if base == [] || page.nextIndex == 0 {
      assert Follow(calls[1..], page.snapshot, 0) == ([], 0);
      assert page.entries + [] == base;
    } else {
      assert OnlyAppends(base, calls[1..]);
      if |base| < U32_MAX {
        FollowReadsRest(base, calls[1..], page.nextIndex);
        assert base[..page.nextIndex - 1] + base[page.nextIndex - 1..] == base;
      } else {
        FollowSticks(base, calls[1..], page.nextIndex);
      }
    }
  }

  // ----- offset paging -----------------------------------------------------------------

  function OffsetPageOf(log: Log, offset: u32, limit: u32): Log
    requires |log| <= U32_MAX
  {
    if offset >= |log| then []
    else
      var last := LastOfPage(offset + 1, limit, |log|);
      if last <= offset then [] else log[offset..last]
  }

  /** `get_progress_history_page`. */
  method GetProgressHistoryPage(ps: PlayerStore, offset: u32, limit: u32, ghost log: Log)
    returns (entries: Log)
    requires Holds(ps, log)
    ensures entries == OffsetPageOf(log, offset, limit)
  {
    hide Holds, EntriesHold, LastOfPage, EntriesFrom;
    HeldCount(ps, log);
    var count := Count(ps);
    if offset >= count {
      return [];
    }
    var start := SatAdd(offset, 1);
    var end := LastOfPage(start, limit, count);
    LastBounded(start, limit, count);
    entries := CollectEntries(ps.entries, start, end);
    SliceOrNothing(ps, log, start, end);
  }

  /** A page is the slice it promises, `limit` entries after `offset` or as many as there are,
      unless the history is as long as a u32 can count and the page reaches its end. */
  lemma OffsetPageIsSliceIff(log: Log, offset: u32, limit: u32)
    requires offset < |log| <= U32_MAX
    ensures var size := Clamp(limit, 1, MAX_PAGE);
      OffsetPageOf(log, offset, limit) == log[offset..Min(offset + size, |log|)]
      <==> !(|log| == U32_MAX && offset + size >= U32_MAX)
  {
  }

  /** A page holds as many entries as were asked for, or all that are left: a limit of 0 counts as
      1 and one above 50 as 50. */
  lemma OffsetPageSize(log: Log, offset: u32, limit: u32)
    requires offset < |log| < U32_MAX
    ensures var size := if limit == 0 then 1 else if limit > 50 then 50 else limit;
      OffsetPageOf(log, offset, limit) == log[offset..Min(offset + size, |log|)]
  {
  }

  lemma CursorPageSize(log: Log, first: u32, limit: u32)
    requires 1 <= first <= |log| < U32_MAX
    ensures var size := if limit == 0 then 1 else if limit > 50 then 50 else limit;
      var page := CursorPageOf(log, None, Some(first), limit);
      && page.entries == log[first - 1..Min(first - 1 + size, |log|)]
      && page.nextIndex == (if first + size <= |log| then first + size else 0)
      && page.snapshot == |log|
  {
  }

  // ----- reading by time ---------------------------------------------------------------

  function Reverse(log: Log): (r: Log)
    ensures |r| == |log|
    ensures forall i :: 0 <= i < |log| ==> r[i] == log[|log| - 1 - i]
  {
    seq(|log|, i requires 0 <= i < |log| => log[|log| - 1 - i])
  }

  /** Where the longest run of entries no older than `since` at the end of the history
      starts. */
  function RecentFrom(log: Log, since: u64): (m: nat)
    ensures m <= |log|
    ensures forall i :: m <= i < |log| ==> log[i].updatedAt >= since
    ensures m > 0 ==> log[m - 1].updatedAt < since
  {
    if log != [] && log[|log| - 1].updatedAt >= since then RecentFrom(log[..|log| - 1], since)
    else |log|
  }

  /** In a chronological history that run is exactly the set of matching entries. */
  lemma RecentIsMatching(log: Log, since: u64, i: nat)
    requires Chronological(log) && i < |log|
    ensures log[i].updatedAt >= since <==> i >= RecentFrom(log, since)
  {
  }

  lemma SliceEntries(log: Log, k: nat)
    requires 8 * k < |log|
    ensures |PageSlice(log, k)| == Min(8, |log| - 8 * k)
    ensures forall i :: 0 <= i < |PageSlice(log, k)| ==> PageSlice(log, k)[i] == log[8 * k + i]
  {
  }

  /** The answer promised for a history: the newest matching entries, newest first, at most
      `size` of them, and whether more exist. */
  ghost predicate SinceAnswer(log: Log, since: u64, size: nat, result: Log, truncated: bool) {
    var m := RecentFrom(log, since);
    && result == Reverse(log[if m + size < |log| then |log| - size else m..])
    && (truncated <==> |log| - m > size)
  }

  /** A scan from the newest entry down has taken everything from `at` on. */
  ghost predicate TakenFrom(log: Log, since: u64, size: nat, result: Log, at: nat) {
    && at <= |log|
    && result == Reverse(log[at..]) && |result| <= size
    && forall i :: at <= i < |log| ==> log[i].updatedAt >= since
  }

  lemma TakenOne(log: Log, since: u64, size: nat, result: Log, at: nat)
    requires TakenFrom(log, since, size, result, at) && at > 0
    requires log[at - 1].updatedAt >= since && |result| < size
    ensures TakenFrom(log, since, size, result + [log[at - 1]], at - 1)
  {
  }

  /** The scan met an older entry, or the start of the history: everything was taken. */
  lemma TakenAll(log: Log, since: u64, size: nat, result: Log, at: nat)
    requires TakenFrom(log, since, size, result, at)
    requires at == 0 || log[at - 1].updatedAt < since
    ensures SinceAnswer(log, since, size, result, false)
  {
  }

  /** The scan met one more match with the result full. */
  lemma TakenFull(log: Log, since: u64, size: nat, result: Log, at: nat)
    requires TakenFrom(log, since, size, result, at) && at > 0
    requires log[at - 1].updatedAt >= since && |result| >= size
    ensures SinceAnswer(log, since, size, result, true)
  {
  }

  /** One page of the scan, newest entry first; None when the scan goes on to an older page. */
  method ScanPage(page: Log, since: u64, size: nat, before: Log, ghost log: Log, ghost k: nat)
    returns (result: Log, verdict: Option<bool>)
    requires 8 * k < |log| && page == PageSlice(log, k)
    requires TakenFrom(log, since, size, before, 8 * k + |page|)
    ensures verdict.None? ==> TakenFrom(log, since, size, result, 8 * k)
    ensures verdict.Some? ==> SinceAnswer(log, since, size, result, verdict.value)
  {
    hide TakenFrom, SinceAnswer, PageSlice;
    SliceEntries(log, k);
    result := before;
    var i := |page|;
    while i > 0
      invariant 0 <= i <= |page|
      invariant TakenFrom(log, since, size, result, 8 * k + i)
    {
      var entry := page[i - 1];
      if entry.updatedAt < since {
        TakenAll(log, since, size, result, 8 * k + i);
        return result, Some(false);
      }
      if |result| >= size {
        TakenFull(log, since, size, result, 8 * k + i);
        return result, Some(true);
      }
      TakenOne(log, since, size, result, 8 * k + i);
      result := result + [entry];
      i := i - 1;
    }
    return result, None;
  }

  /** `history_since`: newest first, up to the clamped limit, and a flag that is set exactly
      when more matches exist.  The ten-page cap never cuts a result short.  None is the trap of
      rebuilding the very last page, which is the first one read. */
  method HistorySince(ps: PlayerStore, since: u64, limit: u32, ghost log: Log)
    returns (r: Option<(Log, bool)>)
    requires Holds(ps, log)
    ensures r.None? <==> !NoPageTrap(ps)
    ensures r.Some? ==> SinceAnswer(log, since, Clamp(limit, 1, MAX_PAGE), r.value.0, r.value.1)
    ensures r.Some? && 1 <= limit <= 50 ==> SinceAnswer(log, since, limit, r.value.0, r.value.1)
  {
    hide PageView, Holds, EntriesHold, PagesHold, NoPageTrap, SinceAnswer, TakenFrom, PageSlice;
    HeldCount(ps, log);
    NoPageTrapIff(ps);
    var result := [];
    var count := Count(ps);
    var size := Clamp(limit, 1, MAX_PAGE);
    TakenNothing(log, since, size);
    if count == 0 {
      TakenAll(log, since, size, result, 0);
      return Some((result, false));
    }
    var totalPages: u32 := PageCount(count);
    var pagesToScan := Min(totalPages, 10);
    for taken := 0 to pagesToScan
      invariant TakenFrom(log, since, size, result, Min(8 * (totalPages - taken), |log|))
      invariant taken > 0 ==> NoPageTrap(ps)
    {
      var k: u32 := totalPages - 1 - taken;
      assert 8 * k < |log|;
      var page := ReadPage(ps, k, count);
      if page.None? {
        return None;
      }
      PageViewIsSlice(ps, log, k);
      SliceEntries(log, k);
      var verdict;
      result, verdict := ScanPage(page.value, since, size, result, log, k);
      if verdict.Some? {
        return Some((result, verdict.value));
      }
    }
    // Ten pages, all full but for the newest, hold at least 73 entries, more than any limit,
    // so a scan that ends here has read every page.
    TakenLength(log, since, size, result, Min(8 * (totalPages - pagesToScan), |log|));
    TakenAll(log, since, size, result, 0);
    return Some((result, pagesToScan < totalPages));
  }

  lemma TakenNothing(log: Log, since: u64, size: nat)
    ensures TakenFrom(log, since, size, [], |log|)
  {
  }

  lemma TakenLength(log: Log, since: u64, size: nat, result: Log, at: nat)
    requires TakenFrom(log, since, size, result, at)
    ensures |log| - at == |result| <= size
  {
  }
}
