/** The primary tables of contracts/registration/src/lib.rs and what a filter query means on
    them, without any index. */
module Directory {
  import opened Prelude
  import opened SharedTypes
  import opened Canonical
  import opened IndexViews

  datatype Vitals = Vitals(age: u32, position: Text, region: Text, nationality: Text)

  datatype StoredPlayer = StoredPlayer(
    playerId: u64,
    wallet: Address,
    vitals: Vitals,
    ipfsHashes: seq<Text>,
    registeredAt: u64,
    updatedAt: u64)

  datatype PlayerProfile = PlayerProfile(stored: StoredPlayer, level: ProgressLevel)

  /** Player(id), PlayerLevel(id) and PlayerDeactivated(id), and the answers the progress
      contract would give for ids that have no PlayerLevel here. */
  datatype Tables = Tables(
    players: map<u64, StoredPlayer>,
    levels: map<u64, ProgressLevel>,
    deactivated: set<u64>)

  const LEVELS: seq<ProgressLevel> :=
    [Unverified, VerifiedIdentity, PerformanceMilestones, EliteTier]

  lemma LevelsInOrder(level: ProgressLevel)
    ensures LEVELS[level.Rank()] == level
  {
  }

  /** `resolve_level`. */
  function LevelOf(t: Tables, remote: u64 -> ProgressLevel, id: u64): ProgressLevel {
    if id in t.levels then t.levels[id] else remote(id)
  }

  /** What `filter_players` promises to return: registered, not deactivated, of the given
      region and position where these are given, and of at least the given level. */
  predicate Matches(t: Tables, remote: u64 -> ProgressLevel, id: u64,
                    region: Text, position: Text, minLevel: ProgressLevel)
  {
    && id in t.players && id !in t.deactivated
    && (region != [] ==> t.players[id].vitals.region == region)
    && (position != [] ==> t.players[id].vitals.position == position)
    && LevelOf(t, remote, id).Rank() >= minLevel.Rank()
  }

  function MatchSet(t: Tables, remote: u64 -> ProgressLevel,
                    region: Text, position: Text, minLevel: ProgressLevel): set<u64>
  {
    set id | id in t.players && Matches(t, remote, id, region, position, minLevel)
  }

  /** The check both scan loops share; the region path compares no level. */
  predicate Shows(t: Tables, remote: u64 -> ProgressLevel, id: u64,
                  position: Text, minLevel: Option<ProgressLevel>)
  {
    && id !in t.deactivated
    && id in t.players
    && (minLevel.Some? ==> LevelOf(t, remote, id).Rank() >= minLevel.value.Rank())
    && (position != [] ==> t.players[id].vitals.position == position)
  }

  /** The ids of a list that pass the check, in list order. */
  function Shown(t: Tables, remote: u64 -> ProgressLevel, ids: seq<u64>,
                position: Text, minLevel: Option<ProgressLevel>): seq<u64>
  {
    if ids == [] then []
    else
      var n := |ids| - 1;
      Shown(t, remote, ids[..n], position, minLevel)
      + if Shows(t, remote, ids[n], position, minLevel) then [ids[n]] else []
  }

  function Profiles(t: Tables, remote: u64 -> ProgressLevel, ids: seq<u64>): (p: seq<PlayerProfile>)
    requires forall id :: id in ids ==> id in t.players
    ensures |p| == |ids|
  {
    seq(|ids|, i requires 0 <= i < |ids| =>
      PlayerProfile(t.players[ids[i]], LevelOf(t, remote, ids[i])))
  }

  /** The region path up to and including the first `n` levels, every bucket in full. */
  function RegionScan(t: Tables, remote: u64 -> ProgressLevel, byRegion: Index<(ProgressLevel, Text)>,
                      region: Text, position: Text, minLevel: ProgressLevel, n: nat): seq<u64>
    requires n <= |LEVELS|
  {
    if n == 0 then []
    else
      RegionScan(t, remote, byRegion, region, position, minLevel, n - 1)
      + if LEVELS[n - 1].Rank() >= minLevel.Rank()
        then Shown(t, remote, Bucket(byRegion, (LEVELS[n - 1], region)), position, None)
        else []
  }

  /** Everything a query can page through: the region buckets when a region is given, the
      full player list otherwise. */
  function Listing(t: Tables, remote: u64 -> ProgressLevel, playerIndex: seq<u64>,
                   byRegion: Index<(ProgressLevel, Text)>,
                   region: Text, position: Text, minLevel: ProgressLevel): seq<u64>
  {
    if region != [] then RegionScan(t, remote, byRegion, region, position, minLevel, |LEVELS|)
    else Shown(t, remote, playerIndex, position, Some(minLevel))
  }

  // ----- the listing is the match set --------------------------------------------------

  lemma {:induction false} ShownElements(t: Tables, remote: u64 -> ProgressLevel, ids: seq<u64>,
                                        position: Text, minLevel: Option<ProgressLevel>)
    ensures forall id :: id in Shown(t, remote, ids, position, minLevel)
                     <==> id in ids && Shows(t, remote, id, position, minLevel)
    ensures NoDuplicates(ids) ==> NoDuplicates(Shown(t, remote, ids, position, minLevel))
    ensures |Shown(t, remote, ids, position, minLevel)| <= |ids|
  {
    if ids != [] {
      var n := |ids| - 1;
      ShownElements(t, remote, ids[..n], position, minLevel);
      assert ids == ids[..n] + [ids[n]];
    }
  }

  /** The players filed under a level and a region. */
  ghost function FiledIn(players: map<u64, StoredPlayer>, filed: map<u64, ProgressLevel>,
                         level: ProgressLevel, region: Text): set<u64>
  {
    set id | id in players && id in filed && filed[id] == level && players[id].vitals.region == region
  }

  /** The list of every level and region enumerates exactly the players filed there. */
  ghost predicate RegionViews(byRegion: Index<(ProgressLevel, Text)>,
                              players: map<u64, StoredPlayer>, filed: map<u64, ProgressLevel>)
  {
    forall level, region ::
      Lists(Bucket(byRegion, (level, region)), FiledIn(players, filed, level, region))
  }

  /** The active players of a region and, where one is given, a position. */
  predicate InReach(t: Tables, id: u64, region: Text, position: Text) {
    && id in t.players && id !in t.deactivated
    && t.players[id].vitals.region == region
    && (position != [] ==> t.players[id].vitals.position == position)
  }

  /** The players the region path finds: it goes by the list a player is filed in, not by the
      level `resolve_level` would answer. */
  ghost function FiledSet(t: Tables, filed: map<u64, ProgressLevel>,
                          region: Text, position: Text, minLevel: ProgressLevel): set<u64>
  {
    set id | id in filed && InReach(t, id, region, position) && filed[id].Rank() >= minLevel.Rank()
  }

  /** The tables with indexes that mirror them.  `filed` is the list each player is in: that of
      its stored level, or any one for a player stored before levels were. */
  ghost predicate Indexed(t: Tables, filed: map<u64, ProgressLevel>, playerIndex: seq<u64>,
                          byRegion: Index<(ProgressLevel, Text)>)
  {
    && t.players.Keys == filed.Keys
    && (forall id :: id in t.levels ==> id in t.players && t.levels[id] == filed[id])
    && Lists(playerIndex, t.players.Keys)
    && RegionViews(byRegion, t.players, filed)
  }

  /** What the buckets of the first `n` levels hold. */
  ghost predicate ScanHolds(t: Tables, filed: map<u64, ProgressLevel>, ids: seq<u64>,
                            region: Text, position: Text, minLevel: ProgressLevel, n: nat)
  {
    && NoDuplicates(ids)
    && forall id :: id in ids <==>
         id in FiledSet(t, filed, region, position, minLevel) && filed[id].Rank() < n
  }

  lemma {:induction false} RegionScanHolds(
    t: Tables, remote: u64 -> ProgressLevel, byRegion: Index<(ProgressLevel, Text)>,
    filed: map<u64, ProgressLevel>,
    region: Text, position: Text, minLevel: ProgressLevel, n: nat)
    requires n <= |LEVELS|
    requires t.players.Keys == filed.Keys
    requires RegionViews(byRegion, t.players, filed)
    ensures ScanHolds(t, filed, RegionScan(t, remote, byRegion, region, position, minLevel, n),
                      region, position, minLevel, n)
  {
    if n > 0 {
      hide RegionViews, Shown, Shows, Bucket, FiledSet, ScanHolds;
      var level := LEVELS[n - 1];
      assert level.Rank() == n - 1;
      RegionScanHolds(t, remote, byRegion, filed, region, position, minLevel, n - 1);
      BucketShown(t, remote, byRegion, filed, level, region, position);
      BucketReach(t, remote, filed, level, region, position, minLevel);
      ScanJoin(t, filed, RegionScan(t, remote, byRegion, region, position, minLevel, n - 1),
               if level.Rank() >= minLevel.Rank()
               then Shown(t, remote, Bucket(byRegion, (level, region)), position, None) else [],
               region, position, minLevel, n);
    }
  }

  lemma ScanJoin(t: Tables, filed: map<u64, ProgressLevel>, ids: seq<u64>, here: seq<u64>,
                 region: Text, position: Text, minLevel: ProgressLevel, n: nat)
    requires n >= 1 && ScanHolds(t, filed, ids, region, position, minLevel, n - 1)
    requires NoDuplicates(here)
    requires forall id :: id in here <==>
               id in FiledSet(t, filed, region, position, minLevel) && filed[id].Rank() == n - 1
    ensures ScanHolds(t, filed, ids + here, region, position, minLevel, n)
  {
    hide NoDuplicates, FiledSet;
    ConcatNoDuplicates(ids, here);
  }

  lemma BucketReach(t: Tables, remote: u64 -> ProgressLevel, filed: map<u64, ProgressLevel>,
                    level: ProgressLevel, region: Text, position: Text, minLevel: ProgressLevel)
    requires t.players.Keys == filed.Keys
    ensures forall id ::
      && id in t.players && filed[id] == level && t.players[id].vitals.region == region
      && Shows(t, remote, id, position, None) && level.Rank() >= minLevel.Rank()
      <==> id in FiledSet(t, filed, region, position, minLevel) && filed[id].Rank() == level.Rank()
  {
    forall id | id in filed && filed[id].Rank() == level.Rank() ensures filed[id] == level {
      LevelsInOrder(filed[id]);
    }
  }

  /** What a query lists, each player once, whichever path it takes. */
  lemma ListingIsFiledSet(
    t: Tables, remote: u64 -> ProgressLevel, playerIndex: seq<u64>,
    byRegion: Index<(ProgressLevel, Text)>, filed: map<u64, ProgressLevel>,
    region: Text, position: Text, minLevel: ProgressLevel)
    requires Indexed(t, filed, playerIndex, byRegion)
    ensures Lists(Listing(t, remote, playerIndex, byRegion, region, position, minLevel),
                  if region != [] then FiledSet(t, filed, region, position, minLevel)
                  else MatchSet(t, remote, region, position, minLevel))
  {
    hide RegionViews;
    if region != [] {
      RegionScanHolds(t, remote, byRegion, filed, region, position, minLevel, |LEVELS|);
      forall id | id in filed ensures filed[id].Rank() < |LEVELS| {
        LevelsInOrder(filed[id]);
      }
    } else {
      ShownElements(t, remote, playerIndex, position, Some(minLevel));
    }
  }

  /** Every active player in reach of the query has a stored level, or is filed on the same side
      of `minLevel` as its level in the progress contract. */
  ghost predicate FiledSide(t: Tables, remote: u64 -> ProgressLevel, filed: map<u64, ProgressLevel>,
                            region: Text, position: Text, minLevel: ProgressLevel)
    requires t.players.Keys == filed.Keys
  {
    forall id :: InReach(t, id, region, position) && id !in t.levels
                 ==> (filed[id].Rank() >= minLevel.Rank() <==> remote(id).Rank() >= minLevel.Rank())
  }

  /** A query lists exactly the matching players, each once, if and only if it gives no region
      or every player in reach without a stored level is filed on the right side. */
  lemma ListingIsMatchSetIff(
    t: Tables, remote: u64 -> ProgressLevel, playerIndex: seq<u64>,
    byRegion: Index<(ProgressLevel, Text)>, filed: map<u64, ProgressLevel>,
    region: Text, position: Text, minLevel: ProgressLevel)
    requires Indexed(t, filed, playerIndex, byRegion)
    ensures Lists(Listing(t, remote, playerIndex, byRegion, region, position, minLevel),
                  MatchSet(t, remote, region, position, minLevel))
            <==> region == [] || FiledSide(t, remote, filed, region, position, minLevel)
  {
    hide RegionViews, Listing;
    ListingIsFiledSet(t, remote, playerIndex, byRegion, filed, region, position, minLevel);
    var filedSet := FiledSet(t, filed, region, position, minLevel);
    var matches := MatchSet(t, remote, region, position, minLevel);
    if region != [] && filedSet == matches {
      forall id | InReach(t, id, region, position) && id !in t.levels
        ensures filed[id].Rank() >= minLevel.Rank() <==> remote(id).Rank() >= minLevel.Rank()
      {
        assert id in filedSet <==> id in matches;
      }
    }
  }

  /** The ids of the full player list that match, in list order: the plain scan the region
      index stands in for. */
  function PlainScan(t: Tables, remote: u64 -> ProgressLevel, ids: seq<u64>,
                     region: Text, position: Text, minLevel: ProgressLevel): seq<u64>
  {
    if ids == [] then []
    else
      var n := |ids| - 1;
      PlainScan(t, remote, ids[..n], region, position, minLevel)
      + if Matches(t, remote, ids[n], region, position, minLevel) then [ids[n]] else []
  }

  lemma {:induction false} PlainScanElements(
    t: Tables, remote: u64 -> ProgressLevel, ids: seq<u64>,
    region: Text, position: Text, minLevel: ProgressLevel)
    requires NoDuplicates(ids)
    ensures NoDuplicates(PlainScan(t, remote, ids, region, position, minLevel))
    ensures forall id :: id in PlainScan(t, remote, ids, region, position, minLevel)
                     <==> id in ids && Matches(t, remote, id, region, position, minLevel)
  {
    if ids != [] {
      var n := |ids| - 1;
      PlainScanElements(t, remote, ids[..n], region, position, minLevel);
      assert ids == ids[..n] + [ids[n]];
    }
  }

  lemma {:induction false} SameElementsSameMultiset(a: seq<u64>, b: seq<u64>)
    requires NoDuplicates(a) && NoDuplicates(b)
    requires forall id :: id in a <==> id in b
    ensures multiset(a) == multiset(b)
  {
    forall id ensures multiset(a)[id] == multiset(b)[id] {
      OccursOnce(a, id);
      OccursOnce(b, id);
    }
  }

  lemma {:induction false} OccursOnce(s: seq<u64>, id: u64)
    requires NoDuplicates(s)
    ensures multiset(s)[id] == if id in s then 1 else 0
  {
    if s != [] {
      var n := |s| - 1;
      OccursOnce(s[..n], id);
      assert s == s[..n] + [s[n]];
    }
  }

  /** The index path and the plain scan return the same players, as multisets. */
  ghost predicate PathsAgree(
    t: Tables, remote: u64 -> ProgressLevel, playerIndex: seq<u64>,
    byRegion: Index<(ProgressLevel, Text)>,
    region: Text, position: Text, minLevel: ProgressLevel)
  {
    multiset(Listing(t, remote, playerIndex, byRegion, region, position, minLevel))
    == multiset(PlainScan(t, remote, playerIndex, region, position, minLevel))
  }

  lemma PathsAgreeIff(
    t: Tables, remote: u64 -> ProgressLevel, playerIndex: seq<u64>,
    byRegion: Index<(ProgressLevel, Text)>, filed: map<u64, ProgressLevel>,
    region: Text, position: Text, minLevel: ProgressLevel)
    requires Indexed(t, filed, playerIndex, byRegion)
    ensures PathsAgree(t, remote, playerIndex, byRegion, region, position, minLevel)
            <==> region == [] || FiledSide(t, remote, filed, region, position, minLevel)
  {
    hide RegionViews, Listing, FiledSide, PlainScan;
    var listing := Listing(t, remote, playerIndex, byRegion, region, position, minLevel);
    var plain := PlainScan(t, remote, playerIndex, region, position, minLevel);
    ListingIsFiledSet(t, remote, playerIndex, byRegion, filed, region, position, minLevel);
    ListingIsMatchSetIff(t, remote, playerIndex, byRegion, filed, region, position, minLevel);
    PlainScanElements(t, remote, playerIndex, region, position, minLevel);
    if PathsAgree(t, remote, playerIndex, byRegion, region, position, minLevel) {
      forall id ensures id in listing <==> id in plain {
        assert multiset(listing)[id] == multiset(plain)[id];
      }
    } else if Lists(listing, MatchSet(t, remote, region, position, minLevel)) {
      SameElementsSameMultiset(listing, plain);
    }
  }

  /** Every active player without a stored level is filed under its level in the progress
      contract.  A region filter is never empty, so a player stored with an empty region is out
      of reach of the index. */
  ghost predicate FiledRight(t: Tables, remote: u64 -> ProgressLevel, filed: map<u64, ProgressLevel>)
    requires t.players.Keys == filed.Keys
  {
    forall id :: && id in t.players && id !in t.levels && id !in t.deactivated
                 && t.players[id].vitals.region != []
                 ==> remote(id) == filed[id]
  }

  /** The index stands in for the plain scan on every query with a region if and only if every
      active player without a stored level is filed under its level in the progress contract. */
  lemma RegionPathIsPlainScanIff(
    t: Tables, remote: u64 -> ProgressLevel, playerIndex: seq<u64>,
    byRegion: Index<(ProgressLevel, Text)>, filed: map<u64, ProgressLevel>)
    requires Indexed(t, filed, playerIndex, byRegion)
    ensures (forall region, position, minLevel :: region != [] ==>
               PathsAgree(t, remote, playerIndex, byRegion, region, position, minLevel))
            <==> FiledRight(t, remote, filed)
  {
    hide RegionViews, PathsAgree;
    forall region: Text, position: Text, minLevel: ProgressLevel
      ensures PathsAgree(t, remote, playerIndex, byRegion, region, position, minLevel)
              <==> region == [] || FiledSide(t, remote, filed, region, position, minLevel)
    {
      PathsAgreeIff(t, remote, playerIndex, byRegion, filed, region, position, minLevel);
    }
    if !FiledRight(t, remote, filed) {
      var id :| && id in t.players && id !in t.levels && id !in t.deactivated
                && t.players[id].vitals.region != [] && remote(id) != filed[id];
      var higher := if remote(id).Rank() < filed[id].Rank() then filed[id] else remote(id);
      LevelsInOrder(remote(id));
      LevelsInOrder(filed[id]);
      assert !FiledSide(t, remote, filed, t.players[id].vitals.region, [], higher);
    }
  }

  /** A player filed under Unverified without a stored level, whom the progress contract gives
      the top tier: the region path misses it, the full scan finds it. */
  lemma RegionPathMissesPlayer(p: StoredPlayer, remote: u64 -> ProgressLevel)
    requires p.playerId == 1 && p.vitals.region != [] && remote(1) == EliteTier
    ensures var t, filed := Tables(map[1 := p], map[], {}), map[1 := Unverified];
      var index, byRegion := [1], map[(Unverified, p.vitals.region) := [1]];
      && Indexed(t, filed, index, byRegion)
      && Listing(t, remote, index, byRegion, p.vitals.region, [], VerifiedIdentity) == []
      && PlainScan(t, remote, index, p.vitals.region, [], VerifiedIdentity) == [1]
      && Listing(t, remote, index, byRegion, [], [], VerifiedIdentity) == [1]
  {
    var t, filed := Tables(map[1 := p], map[], {}), map[1 := Unverified];
    var index, byRegion := [1], map[(Unverified, p.vitals.region) := [1]];
    forall level, region
      ensures Lists(Bucket(byRegion, (level, region)), FiledIn(t.players, filed, level, region))
    {
    }
    ListingIsFiledSet(t, remote, index, byRegion, filed, p.vitals.region, [], VerifiedIdentity);
    assert FiledSet(t, filed, p.vitals.region, [], VerifiedIdentity) == {};
    ListsLength(Listing(t, remote, index, byRegion, p.vitals.region, [], VerifiedIdentity), {});
    assert index[..0] == [];
    assert PlainScan(t, remote, index[..0], p.vitals.region, [], VerifiedIdentity) == [];
    assert Shown(t, remote, index[..0], [], Some(VerifiedIdentity)) == [];
  }

  // ----- paging ------------------------------------------------------------------------

  /** One page of a list: skip `offset`, take up to `size`. */
  function PageOf<T>(list: seq<T>, offset: nat, size: nat): seq<T> {
    list[Min(offset, |list|)..Min(offset + size, |list|)]
  }

  lemma PageSize<T>(list: seq<T>, offset: nat, size: nat)
    requires offset <= |list|
    ensures |PageOf(list, offset, size)| == if offset + size < |list| then size else |list| - offset
  {
  }

  /** `next_cursor`: the number of entries passed, or 0 when nothing is left. */
  function NextCursor<T>(list: seq<T>, offset: nat, size: nat): nat {
    if offset + size < |list| then offset + size else 0
  }

  /** Following cursors with one limit per call until the cursor comes back as 0: everything
      received, and the cursor to go on with. */
  function Followed<T>(list: seq<T>, offset: nat, limits: seq<u32>): (seq<T>, nat)
    decreases |limits|
  {
    if limits == [] then ([], offset)
    else
      var size := Clamp(limits[0], 1, 50);
      var page, next := PageOf(list, offset, size), NextCursor(list, offset, size);
      if next == 0 then (page, 0)
      else
        var (rest, last) := Followed(list, next, limits[1..]);
        (page + rest, last)
  }

  /** Whatever the limits, at most one call per remaining entry reaches the end, and the
      pages concatenate to the list from the offset on: from 0, to the whole list. */
  lemma {:induction false} FollowingReadsAll<T>(list: seq<T>, offset: nat, limits: seq<u32>)
    requires offset < |list| || offset == 0
    requires |limits| >= 1 && |limits| >= |list| - offset
    ensures Followed(list, offset, limits) == (list[offset..], 0)
    decreases |limits|
  {
    var size := Clamp(limits[0], 1, 50);
    var next := NextCursor(list, offset, size);
    if next == 0 {
      assert PageOf(list, offset, size) == list[offset..];
    } else {
      FollowingReadsAll(list, next, limits[1..]);
      assert PageOf(list, offset, size) + list[next..] == list[offset..];
    }
  }

  /** Paging from 0 over fixed tables ends, for any limits, and returns every matching player
      exactly once if and only if the query's list does. */
  lemma PagingReturnsEachMatchOnceIff(
    t: Tables, remote: u64 -> ProgressLevel, playerIndex: seq<u64>,
    byRegion: Index<(ProgressLevel, Text)>, filed: map<u64, ProgressLevel>,
    region: Text, position: Text, minLevel: ProgressLevel, limits: seq<u32>)
    requires Indexed(t, filed, playerIndex, byRegion)
    requires |limits| >= 1
    requires |limits| >= |Listing(t, remote, playerIndex, byRegion, region, position, minLevel)|
    ensures var (pages, last) := Followed(
              Listing(t, remote, playerIndex, byRegion, region, position, minLevel), 0, limits);
            && last == 0
            && Lists(pages, if region != [] then FiledSet(t, filed, region, position, minLevel)
                            else MatchSet(t, remote, region, position, minLevel))
            && (Lists(pages, MatchSet(t, remote, region, position, minLevel))
                <==> region == [] || FiledSide(t, remote, filed, region, position, minLevel))
  {
    hide Indexed, Listing, FiledSide, FiledSet, MatchSet, Lists;
    var listing := Listing(t, remote, playerIndex, byRegion, region, position, minLevel);
    ListingIsFiledSet(t, remote, playerIndex, byRegion, filed, region, position, minLevel);
    ListingIsMatchSetIff(t, remote, playerIndex, byRegion, filed, region, position, minLevel);
    FollowingReadsAll(listing, 0, limits);
    assert listing[0..] == listing;
  }

  // ----- scanning with an offset -------------------------------------------------------

  /** Where a scan stands once it has passed the shown ids `seen`: the first `offset` of them
      are skipped, the others are the results so far, and the page is not overfull. */
  ghost predicate Scanned(t: Tables, remote: u64 -> ProgressLevel, seen: seq<u64>,
                          offset: nat, size: nat, skipped: nat, results: seq<PlayerProfile>)
  {
    && (forall id :: id in seen ==> id in t.players)
    && |seen| <= offset + size
    && skipped == Min(offset, |seen|)
    && results == Profiles(t, remote, seen[skipped..])
  }

  lemma ScannedNothing(t: Tables, remote: u64 -> ProgressLevel, offset: nat, size: nat)
    ensures Scanned(t, remote, [], offset, size, 0, [])
  {
  }

  lemma ScannedSizes(t: Tables, remote: u64 -> ProgressLevel, seen: seq<u64>, offset: nat,
                     size: nat, skipped: nat, results: seq<PlayerProfile>)
    requires Scanned(t, remote, seen, offset, size, skipped, results)
    ensures skipped <= offset && skipped + |results| == |seen| <= offset + size
  {
  }

  lemma ScannedSkip(t: Tables, remote: u64 -> ProgressLevel, seen: seq<u64>, offset: nat,
                    size: nat, skipped: nat, results: seq<PlayerProfile>, id: u64)
    requires Scanned(t, remote, seen, offset, size, skipped, results)
    requires skipped < offset && id in t.players
    ensures Scanned(t, remote, seen + [id], offset, size, skipped + 1, results)
  {
  }

  lemma ScannedPush(t: Tables, remote: u64 -> ProgressLevel, seen: seq<u64>, offset: nat,
                    size: nat, skipped: nat, results: seq<PlayerProfile>, id: u64)
    requires Scanned(t, remote, seen, offset, size, skipped, results)
    requires skipped == offset && |results| < size && id in t.players
    ensures Scanned(t, remote, seen + [id], offset, size, skipped,
                    results + [PlayerProfile(t.players[id], LevelOf(t, remote, id))])
  {
  }

  /** A scan that ran to the end of the list returned its page, with nothing left. */
  lemma ScannedAll(t: Tables, remote: u64 -> ProgressLevel, list: seq<u64>, offset: nat,
                   size: nat, skipped: nat, results: seq<PlayerProfile>)
    requires Scanned(t, remote, list, offset, size, skipped, results)
    ensures results == Profiles(t, remote, PageOf(list, offset, size))
    ensures NextCursor(list, offset, size) == 0
  {
  }

  /** A scan that stopped at a full page before the end of the list returned its page, and
      the number of entries it passed is the cursor. */
  lemma ScannedPart(t: Tables, remote: u64 -> ProgressLevel, list: seq<u64>, seen: seq<u64>,
                    offset: nat, size: nat, skipped: nat, results: seq<PlayerProfile>)
    requires Scanned(t, remote, seen, offset, size, skipped, results)
    requires seen < list && |seen| == offset + size
    requires forall id :: id in list ==> id in t.players
    ensures results == Profiles(t, remote, PageOf(list, offset, size))
    ensures NextCursor(list, offset, size) == |seen|
  {
  }

  lemma ShownNext(t: Tables, remote: u64 -> ProgressLevel, ids: seq<u64>,
                 position: Text, minLevel: Option<ProgressLevel>, n: nat)
    requires n < |ids|
    ensures Shown(t, remote, ids[..n + 1], position, minLevel)
         == Shown(t, remote, ids[..n], position, minLevel)
            + if Shows(t, remote, ids[n], position, minLevel) then [ids[n]] else []
  {
    assert ids[..n + 1][..n] == ids[..n];
  }

  lemma {:induction false} ShownPrefix(t: Tables, remote: u64 -> ProgressLevel, ids: seq<u64>,
                                      position: Text, minLevel: Option<ProgressLevel>, n: nat)
    requires n <= |ids|
    ensures Shown(t, remote, ids[..n], position, minLevel) <= Shown(t, remote, ids, position, minLevel)
  {
    if n == |ids| {
      assert ids[..n] == ids;
    } else {
      var m := |ids| - 1;
      ShownPrefix(t, remote, ids[..m], position, minLevel, n);
      assert ids[..m][..n] == ids[..n];
    }
  }

  lemma {:induction false} RegionScanPrefix(
    t: Tables, remote: u64 -> ProgressLevel, byRegion: Index<(ProgressLevel, Text)>,
    region: Text, position: Text, minLevel: ProgressLevel, n: nat, m: nat)
    requires n <= m <= |LEVELS|
    ensures RegionScan(t, remote, byRegion, region, position, minLevel, n)
         <= RegionScan(t, remote, byRegion, region, position, minLevel, m)
  {
    if n < m {
      RegionScanPrefix(t, remote, byRegion, region, position, minLevel, n, m - 1);
    }
  }

  lemma BucketShown(t: Tables, remote: u64 -> ProgressLevel, byRegion: Index<(ProgressLevel, Text)>,
                    filed: map<u64, ProgressLevel>, level: ProgressLevel, region: Text, position: Text)
    requires t.players.Keys == filed.Keys
    requires RegionViews(byRegion, t.players, filed)
    ensures var here := Shown(t, remote, Bucket(byRegion, (level, region)), position, None);
      && NoDuplicates(here)
      && forall id :: id in here <==>
           && id in t.players && filed[id] == level && t.players[id].vitals.region == region
           && Shows(t, remote, id, position, None)
  {
    assert Lists(Bucket(byRegion, (level, region)), FiledIn(t.players, filed, level, region));
    ShownElements(t, remote, Bucket(byRegion, (level, region)), position, None);
  }

  /** A listing never holds an id twice nor an unregistered one, so it is no longer than the
      player table. */
  lemma ListingBounded(
    t: Tables, remote: u64 -> ProgressLevel, playerIndex: seq<u64>,
    byRegion: Index<(ProgressLevel, Text)>, filed: map<u64, ProgressLevel>,
    region: Text, position: Text, minLevel: ProgressLevel)
    requires Indexed(t, filed, playerIndex, byRegion)
    ensures var list := Listing(t, remote, playerIndex, byRegion, region, position, minLevel);
      && (forall id :: id in list ==> id in t.players)
      && |list| <= |playerIndex|
  {
    hide RegionViews, Listing;
    var list := Listing(t, remote, playerIndex, byRegion, region, position, minLevel);
    ListingIsFiledSet(t, remote, playerIndex, byRegion, filed, region, position, minLevel);
    var ids := set id | id in list;
    ListsLength(list, ids);
    ListsLength(playerIndex, t.players.Keys);
    SubsetSize(ids, t.players.Keys);
  }

  lemma {:induction false} SubsetSize(a: set<u64>, b: set<u64>)
    requires a <= b
    ensures |a| <= |b|
  {
    if a != {} {
      var x :| x in a;
      SubsetSize(a - {x}, b - {x});
    }
  }
}
