/** The registration contract (contracts/registration/src/lib.rs): one player table and the
    indexes that must mirror it. */
module Registration {
  import opened Prelude
  import opened SharedTypes
  import opened Canonical
  import opened IndexViews
  import opened Directory

  datatype ScoutChainError =
    | NotInitialized
    | PlayerNotFound
    | AlreadyRegistered
    | ContractPaused
    | Unauthorized
    | Overflow
    | InvalidInput
    | PlayerCapReached
    | RegistrationCooldown
    | InvalidPeerContract
    | InvalidCooldown

  const MAX_REGION_LEN: nat := 100
  const MAX_IPFS_HASHES: nat := 10
  const MIN_PLAYER_AGE: nat := 16
  const MAX_PLAYER_AGE: nat := 100
  const MAX_PLAYERS: nat := 10_000
  const DEFAULT_REG_COOLDOWN_SECS: u64 := 86_400
  const MAX_REG_COOLDOWN_SECS: u64 := 604_800

  datatype FilterResult = FilterResult(profiles: seq<PlayerProfile>, nextCursor: u64, hasMore: bool)

  /** The vitals as they are stored, or None for InvalidInput: age bounds and the three
      canonical spellings. */
  function CanonVitals(v: Vitals): Option<Vitals> {
    if v.age < MIN_PLAYER_AGE || v.age > MAX_PLAYER_AGE then None
    else
      match (CanonPosition(v.position), CanonRegion(v.region), CanonNationality(v.nationality))
      case (Some(p), Some(r), Some(n)) => Some(Vitals(v.age, p, r, n))
      case _ => None
  }

  predicate LengthsOk(v: Vitals) {
    && |v.position| <= MAX_STRING_LEN
    && |v.region| <= MAX_REGION_LEN
    && |v.nationality| <= MAX_STRING_LEN
  }

  predicate HashesOk(hashes: seq<Text>) {
    1 <= |hashes| <= MAX_IPFS_HASHES
  }

  // ----- the tables and their indexes as one value --------------------------------------

  datatype Registry = Registry(
    players: map<u64, StoredPlayer>,              // Player(id)
    byWallet: map<Address, u64>,                  // PlayerByWallet(wallet)
    levels: map<u64, ProgressLevel>,              // PlayerLevel(id)
    deactivated: set<u64>,                        // PlayerDeactivated(id)
    playerIndex: seq<u64>,                        // PlayerIndex
    byLevel: Index<ProgressLevel>,                // PlayersByLevel(level)
    byRegion: Index<(ProgressLevel, Text)>,       // PlayersByLevelRegion(level, region)
    liveCount: u64)                               // LivePlayerCount

  const NO_PLAYERS := Registry(map[], map[], map[], {}, [], map[], map[], 0)

  /** The wallet map and the player table are inverse to each other. */
  ghost predicate WalletsMirror(byWallet: map<Address, u64>, players: map<u64, StoredPlayer>) {
    && (forall id :: id in players ==>
          players[id].wallet in byWallet && byWallet[players[id].wallet] == id)
    && (forall w :: w in byWallet ==>
          byWallet[w] in players && players[byWallet[w]].wallet == w)
  }

  /** Every index mirrors the player table.  `filed` is the level list each player sits in: it
      is the stored level for players stored since PlayerLevel exists; a player stored before
      has no PlayerLevel but does sit in some list. */
  ghost predicate Mirrors(s: Registry, filed: map<u64, ProgressLevel>) {
    && filed.Keys == s.players.Keys
    && (forall id :: id in s.levels ==> id in s.players && s.levels[id] == filed[id])
    && (forall id :: id in s.players ==> s.players[id].playerId == id)
    && WalletsMirror(s.byWallet, s.players)
    && Lists(s.playerIndex, s.players.Keys)
    && Views(s.byLevel, filed)
    && RegionViews(s.byRegion, s.players, filed)
    && s.liveCount == |s.playerIndex| <= U32_MAX
    && s.deactivated <= s.players.Keys
  }

  /** The tables after a player is stored under `p.playerId`, free or not. */
  function Filed(s: Registry, p: StoredPlayer, level: ProgressLevel): Registry
    requires s.liveCount < U64_MAX
  {
    Registry(
      s.players[p.playerId := p],
      s.byWallet[p.wallet := p.playerId],
      s.levels[p.playerId := level],
      s.deactivated,
      s.playerIndex + [p.playerId],
      Added(s.byLevel, level, p.playerId),
      Added(s.byRegion, (level, p.vitals.region), p.playerId),
      s.liveCount + 1)
  }

  /** Storing a player keeps every index right if and only if the id was free. */
  lemma FiledMirrorsIffFree(s: Registry, filed: map<u64, ProgressLevel>, p: StoredPlayer,
                            level: ProgressLevel)
    requires Mirrors(s, filed)
    requires p.wallet !in s.byWallet && |s.playerIndex| < U32_MAX
    ensures Mirrors(Filed(s, p, level), filed[p.playerId := level]) <==> p.playerId !in s.players
  {
    if p.playerId !in s.players {
      FiledMirrors(s, filed, p, level);
    } else {
      assert p.playerId in s.playerIndex;
      IndexedTwice(s.playerIndex, p.playerId);
    }
  }

  lemma FiledMirrors(s: Registry, filed: map<u64, ProgressLevel>, p: StoredPlayer, level: ProgressLevel)
    requires Mirrors(s, filed)
    requires p.wallet !in s.byWallet && |s.playerIndex| < U32_MAX && p.playerId !in s.players
    ensures Mirrors(Filed(s, p, level), filed[p.playerId := level])
  {
    hide Views, RegionViews, Lists, WalletsMirror, Added;
    var id := p.playerId;
    ListsAdd(s.playerIndex, s.players.Keys, id);
    assert s.players[id := p].Keys == s.players.Keys + {id};
    assert filed[id := level].Keys == filed.Keys + {id};
    ViewsAdd(s.byLevel, filed, level, id);
    RegionViewsAdd(s.byRegion, s.players, filed, p, level);
    WalletAdd(s.byWallet, s.players, p);
  }

  lemma RegionViewsAdd(byRegion: Index<(ProgressLevel, Text)>, players: map<u64, StoredPlayer>,
                       filed: map<u64, ProgressLevel>, p: StoredPlayer, level: ProgressLevel)
    requires RegionViews(byRegion, players, filed)
    requires p.playerId !in players
    ensures RegionViews(Added(byRegion, (level, p.vitals.region), p.playerId),
                        players[p.playerId := p], filed[p.playerId := level])
  {
    var key, id := (level, p.vitals.region), p.playerId;
    var byRegion' := Added(byRegion, key, id);
    forall l, r
      ensures Lists(Bucket(byRegion', (l, r)), FiledIn(players[id := p], filed[id := level], l, r))
    {
      var before, after := FiledIn(players, filed, l, r), FiledIn(players[id := p], filed[id := level], l, r);
      assert Lists(Bucket(byRegion, (l, r)), before);
      if (l, r) == key {
        ListsAdd(Bucket(byRegion, key), before, id);
        assert after == before + {id};
      } else {
        assert after == before;
      }
    }
  }

  lemma RegionViewsRemove(byRegion: Index<(ProgressLevel, Text)>, players: map<u64, StoredPlayer>,
                          filed: map<u64, ProgressLevel>, id: u64)
    requires RegionViews(byRegion, players, filed)
    requires id in players && id in filed
    ensures RegionViews(Removed(byRegion, (filed[id], players[id].vitals.region), id),
                        players - {id}, filed - {id})
  {
    var key := (filed[id], players[id].vitals.region);
    var byRegion' := Removed(byRegion, key, id);
    assert Lists(Bucket(byRegion, key), FiledIn(players, filed, key.0, key.1));
    assert id in FiledIn(players, filed, key.0, key.1);
    forall l, r
      ensures Lists(Bucket(byRegion', (l, r)), FiledIn(players - {id}, filed - {id}, l, r))
    {
      var before, after := FiledIn(players, filed, l, r), FiledIn(players - {id}, filed - {id}, l, r);
      assert Lists(Bucket(byRegion, (l, r)), before);
      if (l, r) == key {
        ListsRemove(Bucket(byRegion, key), before, id);
        assert after == before - {id};
      } else {
        assert after == before;
      }
    }
  }

  /** Moving a player to the list of another level. */
  lemma RegionRefile(byRegion: Index<(ProgressLevel, Text)>, players: map<u64, StoredPlayer>,
                     filed: map<u64, ProgressLevel>, p: StoredPlayer, to: ProgressLevel)
    requires RegionViews(byRegion, players, filed)
    requires p.playerId in players && p.playerId in filed
    requires p.vitals == players[p.playerId].vitals
    ensures var id, region := p.playerId, p.vitals.region;
      RegionViews(Added(Removed(byRegion, (filed[id], region), id), (to, region), id),
                  players[id := p], filed[id := to])
  {
    hide RegionViews, Added, Removed;
    var id, region := p.playerId, p.vitals.region;
    RegionViewsRemove(byRegion, players, filed, id);
    RegionViewsAdd(Removed(byRegion, (filed[id], region), id), players - {id}, filed - {id}, p, to);
    assert (players - {id})[id := p] == players[id := p];
    assert (filed - {id})[id := to] == filed[id := to];
  }

  lemma WalletAdd(byWallet: map<Address, u64>, players: map<u64, StoredPlayer>, p: StoredPlayer)
    requires WalletsMirror(byWallet, players)
    requires p.playerId !in players && p.wallet !in byWallet
    ensures WalletsMirror(byWallet[p.wallet := p.playerId], players[p.playerId := p])
  {
  }

  lemma IndexedTwice(ids: seq<u64>, id: u64)
    requires id in ids
    ensures !NoDuplicates(ids + [id])
  {
    var i :| 0 <= i < |ids| && ids[i] == id;
    assert (ids + [id])[i] == (ids + [id])[|ids|];
  }

  /** The tables after a player moves from the lists of one level to those of another. */
  function Moved(s: Registry, id: u64, from: ProgressLevel, to: ProgressLevel, now: u64): Registry
    requires id in s.players
  {
    var region := s.players[id].vitals.region;
    s.(players := s.players[id := s.players[id].(updatedAt := now)],
       levels := s.levels[id := to],
       byLevel := Added(Removed(s.byLevel, from, id), to, id),
       byRegion := Added(Removed(s.byRegion, (from, region), id), (to, region), id))
  }

  lemma MovedMirrors(s: Registry, filed: map<u64, ProgressLevel>, id: u64, to: ProgressLevel, now: u64)
    requires Mirrors(s, filed) && id in s.players
    ensures Mirrors(Moved(s, id, filed[id], to, now), filed[id := to])
  {
    hide Views, RegionViews, Lists, WalletsMirror, Added, Removed;
    var s' := Moved(s, id, filed[id], to, now);
    Refile(s.byLevel, filed, id, to);
    RegionRefile(s.byRegion, s.players, filed, s.players[id].(updatedAt := now), to);
    assert s'.players.Keys == s.players.Keys;
    assert filed[id := to].Keys == filed.Keys;
    WalletTouch(s.byWallet, s.players, id, now);
  }

  lemma WalletTouch(byWallet: map<Address, u64>, players: map<u64, StoredPlayer>, id: u64, now: u64)
    requires WalletsMirror(byWallet, players) && id in players
    ensures WalletsMirror(byWallet, players[id := players[id].(updatedAt := now)])
  {
  }

  /** Moving an id from its list to another one. */
  lemma Refile<K(!new)>(index: Index<K>, keyOf: map<u64, K>, id: u64, key: K)
    requires Views(index, keyOf) && id in keyOf
    ensures Views(Added(Removed(index, keyOf[id], id), key, id), keyOf[id := key])
  {
    ViewsRemove(index, keyOf, id);
    ViewsAdd(Removed(index, keyOf[id], id), keyOf - {id}, key, id);
    assert (keyOf - {id})[id := key] == keyOf[id := key];
  }

  /** A sweep over the level lists changes the index only at the list the id is in. */
  lemma SweepStep<K(!new)>(index: Index<K>, keyOf: map<u64, K>, key: K, id: u64)
    requires Views(index, keyOf) && id in keyOf
    ensures key != keyOf[id] ==> Removed(index, key, id) == index
    ensures key != keyOf[id] ==>
              Removed(Removed(index, keyOf[id], id), key, id) == Removed(index, keyOf[id], id)
  {
  }

  /** The tables after a player is erased, looked for in the lists of `level`. */
  function Erased(s: Registry, id: u64, level: ProgressLevel): Registry
    requires id in s.players
  {
    var p := s.players[id];
    Registry(
      s.players - {id},
      s.byWallet - {p.wallet},
      s.levels - {id},
      s.deactivated - {id},
      Without(s.playerIndex, id),
      Removed(s.byLevel, level, id),
      Removed(s.byRegion, (level, p.vitals.region), id),
      SatSub64(s.liveCount, 1))
  }

  /** Erasing a player keeps every index right if and only if it is looked for in the lists it
      is in; and the saturating decrement of the live count never saturates. */
  lemma ErasedMirrorsIffFound(s: Registry, filed: map<u64, ProgressLevel>, id: u64, level: ProgressLevel)
    requires Mirrors(s, filed) && id in s.players
    ensures Mirrors(Erased(s, id, level), filed - {id}) <==> level == filed[id]
    ensures Erased(s, id, level).liveCount == s.liveCount - 1
  {
    if level == filed[id] {
      ErasedMirrors(s, filed, id);
    } else {
      StaleEntry(s.byLevel, filed, level, id);
    }
    assert id in s.playerIndex;
  }

  /** A player stored before levels were, in the list of VerifiedIdentity: erasing it, looked for
      under Unverified, leaves its id behind in that list. */
  lemma LegacyErasureLeavesEntry(p: StoredPlayer)
    requires p.playerId == 1
    ensures var s := Registry(map[1 := p], map[p.wallet := 1], map[], {}, [1],
                              map[VerifiedIdentity := [1]],
                              map[(VerifiedIdentity, p.vitals.region) := [1]], 1);
      && Mirrors(s, map[1 := VerifiedIdentity])
      && Erased(s, 1, Unverified).players == map[]
      && Bucket(Erased(s, 1, Unverified).byLevel, VerifiedIdentity) == [1]
  {
    var filed := map[1 := VerifiedIdentity];
    var s := Registry(map[1 := p], map[p.wallet := 1], map[], {}, [1], map[VerifiedIdentity := [1]],
                      map[(VerifiedIdentity, p.vitals.region) := [1]], 1);
    forall level ensures Lists(Bucket(s.byLevel, level), Under(filed, level)) {
    }
    forall level, region
      ensures Lists(Bucket(s.byRegion, (level, region)), FiledIn(s.players, filed, level, region))
    {
    }
  }

  lemma ErasedMirrors(s: Registry, filed: map<u64, ProgressLevel>, id: u64)
    requires Mirrors(s, filed) && id in s.players
    ensures Mirrors(Erased(s, id, filed[id]), filed - {id})
  {
    hide Views, RegionViews, Lists, WalletsMirror, Removed, Without;
    var index := Without(s.playerIndex, id);
    assert (s.players - {id}).Keys == (filed - {id}).Keys == s.players.Keys - {id};
    ListsRemove(s.playerIndex, s.players.Keys, id);
    ListsLength(s.playerIndex, s.players.Keys);
    ListsLength(index, s.players.Keys - {id});
    ViewsRemove(s.byLevel, filed, id);
    RegionViewsRemove(s.byRegion, s.players, filed, id);
    WalletRemove(s.byWallet, s.players, id);
  }

  lemma WalletRemove(byWallet: map<Address, u64>, players: map<u64, StoredPlayer>, id: u64)
    requires WalletsMirror(byWallet, players) && id in players
    ensures WalletsMirror(byWallet - {players[id].wallet}, players - {id})
  {
  }

  /** Looking under the wrong key leaves the id behind in its list. */
  lemma StaleEntry<K(!new)>(index: Index<K>, keyOf: map<u64, K>, key: K, id: u64)
    requires Views(index, keyOf) && id in keyOf && key != keyOf[id]
    ensures !Views(Removed(index, key, id), keyOf - {id})
  {
    var index', keyOf' := Removed(index, key, id), keyOf - {id};
    assert Lists(Bucket(index, keyOf[id]), Under(keyOf, keyOf[id]));
    assert id in Under(keyOf, keyOf[id]);
    assert id in Bucket(index', keyOf[id]);
    assert id !in Under(keyOf', keyOf[id]);
    assert !Lists(Bucket(index', keyOf[id]), Under(keyOf', keyOf[id]));
  }

  /** The level lists partition the players: every player is in exactly one of them, and
      together they are as long as the live count. */
  lemma LevelListsPartition(s: Registry, filed: map<u64, ProgressLevel>)
    requires Mirrors(s, filed)
    ensures forall id, l :: id in s.players ==> (id in Bucket(s.byLevel, l) <==> l == filed[id])
    ensures |Bucket(s.byLevel, Unverified)| + |Bucket(s.byLevel, VerifiedIdentity)|
          + |Bucket(s.byLevel, PerformanceMilestones)| + |Bucket(s.byLevel, EliteTier)|
         == s.liveCount
  {
    forall id, l | id in s.players ensures id in Bucket(s.byLevel, l) <==> l == filed[id] {
      assert Lists(Bucket(s.byLevel, l), Under(filed, l));
      assert id in Under(filed, l) <==> l == filed[id];
    }
    BucketLength(s.byLevel, filed, Unverified);
    BucketLength(s.byLevel, filed, VerifiedIdentity);
    BucketLength(s.byLevel, filed, PerformanceMilestones);
    BucketLength(s.byLevel, filed, EliteTier);
    ListsLength(s.playerIndex, s.players.Keys);
    UnderPartition(filed);
  }

  lemma BucketLength(byLevel: Index<ProgressLevel>, filed: map<u64, ProgressLevel>, level: ProgressLevel)
    requires Views(byLevel, filed)
    ensures |Bucket(byLevel, level)| == |Under(filed, level)|
  {
    ListsLength(Bucket(byLevel, level), Under(filed, level));
  }

  lemma UnderPartition(filed: map<u64, ProgressLevel>)
    ensures |filed.Keys| == |Under(filed, Unverified)| + |Under(filed, VerifiedIdentity)|
                          + |Under(filed, PerformanceMilestones)| + |Under(filed, EliteTier)|
  {
    var u0, u1 := Under(filed, Unverified), Under(filed, VerifiedIdentity);
    var u2, u3 := Under(filed, PerformanceMilestones), Under(filed, EliteTier);
    forall id | id in filed ensures id in u0 + u1 + u2 + u3 {
      LevelsInOrder(filed[id]);
    }
    assert filed.Keys == u0 + u1 + u2 + u3;
    assert |u0 + u1| == |u0| + |u1|;
    assert |u0 + u1 + u2| == |u0| + |u1| + |u2|;
  }

  lemma LiveCountIsLength(s: Registry, filed: map<u64, ProgressLevel>)
    requires Mirrors(s, filed)
    ensures s.liveCount == |s.playerIndex| <= U32_MAX
    ensures forall id :: id in s.playerIndex <==> id in s.players
  {
  }

  lemma FiledKnown(s: Registry, filed: map<u64, ProgressLevel>, id: u64, region: Text)
    requires Mirrors(s, filed) && id in s.players && s.players[id].vitals.region == region
    ensures id in filed && (id in s.levels ==> s.levels[id] == filed[id])
    ensures id in s.playerIndex
  {
  }

  lemma SweepLevel(s: Registry, filed: map<u64, ProgressLevel>, id: u64, level: ProgressLevel)
    requires Mirrors(s, filed) && id in s.players
    ensures id in filed
    ensures var prev, region := filed[id], s.players[id].vitals.region;
      level != prev ==>
      && Removed(s.byLevel, level, id) == s.byLevel
      && Removed(s.byRegion, (level, region), id) == s.byRegion
      && Removed(Removed(s.byLevel, prev, id), level, id) == Removed(s.byLevel, prev, id)
      && Removed(Removed(s.byRegion, (prev, region), id), (level, region), id)
         == Removed(s.byRegion, (prev, region), id)
  {
    var region := s.players[id].vitals.region;
    SweepStep(s.byLevel, filed, level, id);
    if level != filed[id] {
      assert Lists(Bucket(s.byRegion, (level, region)), FiledIn(s.players, filed, level, region));
      assert id !in FiledIn(s.players, filed, level, region);
    }
  }

  lemma MirroredListing(s: Registry, filed: map<u64, ProgressLevel>, remote: u64 -> ProgressLevel,
                        region: Text, position: Text, minLevel: ProgressLevel)
    requires Mirrors(s, filed)
    ensures var list := Listing(Tables(s.players, s.levels, s.deactivated), remote,
                                s.playerIndex, s.byRegion, region, position, minLevel);
      && (forall id :: id in list ==> id in s.players)
      && |list| <= U32_MAX
  {
    ListingBounded(Tables(s.players, s.levels, s.deactivated), remote, s.playerIndex,
                   s.byRegion, filed, region, position, minLevel);
  }

  /** A player was stored: every vital in its own field in its canonical spelling, and the id at
      the end of the lists of its level, region and of all players.  Nobody else changed. */
  ghost predicate StoredAs(before: Registry, after: Registry, id: u64, wallet: Address, vitals: Vitals,
                           hashes: seq<Text>, registeredAt: u64, updatedAt: u64, level: ProgressLevel)
  {
    && id in after.players
    && after.players == before.players[id := after.players[id]]
    && after.players[id].playerId == id && after.players[id].wallet == wallet
    && after.players[id].ipfsHashes == hashes
    && after.players[id].registeredAt == registeredAt && after.players[id].updatedAt == updatedAt
    && after.players[id].vitals.age == vitals.age
    && CanonPosition(vitals.position) == Some(after.players[id].vitals.position)
    && CanonRegion(vitals.region) == Some(after.players[id].vitals.region)
    && CanonNationality(vitals.nationality) == Some(after.players[id].vitals.nationality)
    && after.byWallet == before.byWallet[wallet := id]
    && after.levels == before.levels[id := level]
    && after.deactivated == before.deactivated
    && after.playerIndex == before.playerIndex + [id]
    && Bucket(after.byLevel, level) == Bucket(before.byLevel, level) + [id]
    && (var region := after.players[id].vitals.region;
        Bucket(after.byRegion, (level, region)) == Bucket(before.byRegion, (level, region)) + [id])
    && after.liveCount == before.liveCount + 1
  }

  lemma FiledIsStored(s: Registry, id: u64, wallet: Address, vitals: Vitals, hashes: seq<Text>,
                      registeredAt: u64, updatedAt: u64, level: ProgressLevel)
    requires CanonVitals(vitals).Some? && s.liveCount < U64_MAX
    ensures StoredAs(s, Filed(s, StoredPlayer(id, wallet, CanonVitals(vitals).value, hashes,
                                              registeredAt, updatedAt), level),
                     id, wallet, vitals, hashes, registeredAt, updatedAt, level)
  {
  }

  /** A player that was stored on a free id is found by every query that gives the region and the
      position of the sign-up in any accepted spelling, or leaves them out, and asks for no more than
      the player's level. */
  lemma StoredIsListed(before: Registry, after: Registry, filed: map<u64, ProgressLevel>,
                       remote: u64 -> ProgressLevel, id: u64, wallet: Address, vitals: Vitals,
                       hashes: seq<Text>, registeredAt: u64, updatedAt: u64, level: ProgressLevel,
                       region: Text, position: Text, minLevel: ProgressLevel)
    requires StoredAs(before, after, id, wallet, vitals, hashes, registeredAt, updatedAt, level)
    requires Mirrors(after, filed) && id !in before.deactivated
    requires region == [] || CanonRegion(region) == CanonRegion(vitals.region)
    requires position == [] || CanonPosition(position) == CanonPosition(vitals.position)
    requires minLevel.Rank() <= level.Rank()
    ensures FilterRegion(region).Some? && FilterPosition(position).Some?
    ensures id in Listing(Tables(after.players, after.levels, after.deactivated), remote,
                          after.playerIndex, after.byRegion,
                          FilterRegion(region).value, FilterPosition(position).value, minLevel)
  {
    hide CanonRegion, CanonPosition, CanonNationality, Listing, Views, RegionViews, Added, Bucket;
    var t := Tables(after.players, after.levels, after.deactivated);
    ListingIsFiledSet(t, remote, after.playerIndex, after.byRegion, filed,
                      FilterRegion(region).value, FilterPosition(position).value, minLevel);
    assert id in filed && filed[id] == level;
  }

  /** What a caller has to give for a player to be stored. */
  lemma VitalsAccepted(v: Vitals)
    ensures CanonVitals(v).Some? <==>
      && 16 <= v.age <= 100 && CanonPosition(v.position).Some?
      && CanonRegion(v.region).Some? && CanonNationality(v.nationality).Some?
  {
  }

  /** The settings no player operation touches. */
  datatype RegistrationSettings = RegistrationSettings(
    initialized: bool,
    paused: bool,
    progressContract: Option<Address>,
    cooldownSecs: Option<u64>)

  class RegistrationContract {
    var initialized: bool
    var paused: bool
    var progressContract: Option<Address> // ProgressContract
    var cooldownSecs: Option<u64>         // RegCooldownSecs(0)
    var playerCounter: u64                // PlayerCounter
    var lastSent: map<Address, u64>       // PlayerRegLastSent(wallet)
    var store: Registry
    ghost var filed: map<u64, ProgressLevel>

    function Primary(): Tables
      reads this
    {
      Tables(store.players, store.levels, store.deactivated)
    }

    ghost predicate Valid()
      reads this
    {
      Mirrors(store, filed)
    }

    /** Every registered player has its PlayerLevel key. */
    ghost predicate Tracked()
      reads this
    {
      store.levels.Keys == store.players.Keys
    }

    function Settings(): RegistrationSettings
      reads this
    {
      RegistrationSettings(initialized, paused, progressContract, cooldownSecs)
    }

    constructor ()
      ensures Valid() && Tracked()
      ensures store == NO_PLAYERS && playerCounter == 0 && lastSent == map[]
      ensures Settings() == RegistrationSettings(true, false, None, None)
    {
      initialized, paused, progressContract, cooldownSecs := true, false, None, None;
      playerCounter, lastSent := 0, map[];
      store := NO_PLAYERS;
      filed := map[];
    }

    // ----- settings --------------------------------------------------------------------

    /** `pause_contract` and `unpause_contract`. */
    method SetPaused(pause: bool) returns (r: Result<(), ScoutChainError>)
      modifies this`paused
      ensures r == if initialized then Ok(()) else Err(NotInitialized)
      ensures paused == if r.Ok? then pause else old(paused)
    {
      if !initialized {
        return Err(NotInitialized);
      }
      if paused != pause {
        paused := pause;
      }
      return Ok(());
    }

    method SetRegCooldown(secs: u64) returns (r: Result<(), ScoutChainError>)
      modifies this`cooldownSecs
      ensures r == if !initialized then Err(NotInitialized)
                   else if secs > 604_800 then Err(InvalidCooldown) else Ok(())
      ensures cooldownSecs == if r.Ok? then Some(secs) else old(cooldownSecs)
    {
      if !initialized {
        return Err(NotInitialized);
      }
      if secs > MAX_REG_COOLDOWN_SECS {
        return Err(InvalidCooldown);
      }
      cooldownSecs := Some(secs);
      return Ok(());
    }

    /** `set_progress_contract`; `peerOk` is the answer of `verify_peer`. */
    method SetProgressContract(peer: Address, peerOk: bool) returns (r: Result<(), ScoutChainError>)
      modifies this`progressContract
      ensures r == if !initialized then Err(NotInitialized)
                   else if !peerOk then Err(InvalidPeerContract) else Ok(())
      ensures progressContract == if r.Ok? then Some(peer) else old(progressContract)
    {
      if !initialized {
        return Err(NotInitialized);
      }
      if !peerOk {
        return Err(InvalidPeerContract);
      }
      progressContract := Some(peer);
      return Ok(());
    }

    // ----- register_player -------------------------------------------------------------

    /** `enforce_reg_cooldown`. */
    function CooldownRefusal(wallet: Address, now: u64): Option<ScoutChainError>
      reads this
    {
      var cooldown := cooldownSecs.GetOr(DEFAULT_REG_COOLDOWN_SECS);
      if cooldown == 0 || wallet !in lastSent then None
      else if lastSent[wallet] + cooldown > U64_MAX then Some(Overflow)
      else if now < lastSent[wallet] + cooldown then Some(RegistrationCooldown)
      else None
    }

    /** The first check that turns a registration down. */
    function RegisterRefusal(wallet: Address, vitals: Vitals, hashes: seq<Text>, now: u64)
      : Option<ScoutChainError>
      reads this
    {
      if paused then Some(ContractPaused)
      else if !initialized then Some(NotInitialized)
      else if CooldownRefusal(wallet, now).Some? then CooldownRefusal(wallet, now)
      else if wallet in store.byWallet then Some(AlreadyRegistered)
      else if |store.playerIndex| >= MAX_PLAYERS then Some(PlayerCapReached)
      else if !LengthsOk(vitals) || CanonVitals(vitals).None? || !HashesOk(hashes) then
        Some(InvalidInput)
      else if playerCounter == U64_MAX then Some(Overflow)
      else None
    }

    /** `register_player`.  The new id is the counter plus one; nothing checks that it is free.
        The indexes keep mirroring the table exactly when it is. */
    method RegisterPlayer(wallet: Address, vitals: Vitals, hashes: seq<Text>, now: u64)
      returns (r: Result<u64, ScoutChainError>)
      requires Valid()
      modifies this
      ensures Settings() == old(Settings())
      ensures r.Err? ==>
        unchanged(this) && Some(r.error) == old(RegisterRefusal(wallet, vitals, hashes, now))
      ensures r.Ok? ==>
        && old(RegisterRefusal(wallet, vitals, hashes, now)) == None
        && r.value == old(playerCounter) + 1 == playerCounter
        && old(store).liveCount < U64_MAX
        && store == Filed(old(store),
             StoredPlayer(r.value, wallet, CanonVitals(vitals).value, hashes, now, now), Unverified)
        && lastSent == old(lastSent)[wallet := now]
        && (Valid() <==> r.value !in old(store).players)
      ensures (if r.Err? then Some(r.error) else None) ==
             var wait := old(cooldownSecs).GetOr(86_400);
             if old(paused) then Some(ContractPaused)
             else if !old(initialized) then Some(NotInitialized)
             else if wait != 0 && wallet in old(lastSent) && old(lastSent)[wallet] + wait > U64_MAX then
               Some(Overflow)
             else if wait != 0 && wallet in old(lastSent) && now < old(lastSent)[wallet] + wait then
               Some(RegistrationCooldown)
             else if wallet in old(store).byWallet then Some(AlreadyRegistered)
             else if |old(store).playerIndex| >= 10_000 then Some(PlayerCapReached)
             else if |vitals.position| > 64 || |vitals.region| > 100 || |vitals.nationality| > 64
                     || vitals.age < 16 || vitals.age > 100 || CanonPosition(vitals.position).None?
                     || CanonRegion(vitals.region).None? || CanonNationality(vitals.nationality).None?
                     || hashes == [] || |hashes| > 10 then Some(InvalidInput)
             else if old(playerCounter) == U64_MAX then Some(Overflow)
             else None
      ensures r.Ok? ==> StoredAs(old(store), store, r.value, wallet, vitals, hashes, now, now, Unverified)
    {
      hide CanonVitals, CanonPosition, CanonRegion, CanonNationality, Added, Bucket, Mirrors, StoredAs;
      VitalsAccepted(vitals);
      if paused {
        return Err(ContractPaused);
      }
      if !initialized {
        return Err(NotInitialized);
      }
      var refusal := CooldownRefusal(wallet, now);
      if refusal.Some? {
        return Err(refusal.value);
      }
      if wallet in store.byWallet {
        return Err(AlreadyRegistered);
      }
      if |store.playerIndex| >= MAX_PLAYERS {
        return Err(PlayerCapReached);
      }
      var canon := CanonVitals(vitals);
      if !LengthsOk(vitals) || canon.None? || !HashesOk(hashes) {
        return Err(InvalidInput);
      }
      if playerCounter == U64_MAX {
        return Err(Overflow);
      }
      LiveCountIsLength(store, filed);
      playerCounter := playerCounter + 1;
      var id := playerCounter;
      var stored := StoredPlayer(id, wallet, canon.value, hashes, now, now);

      store := store.(players := store.players[id := stored]);
      store := store.(byWallet := store.byWallet[wallet := id]);
      store := store.(levels := store.levels[id := Unverified]);
      store := store.(playerIndex := store.playerIndex + [id]);
      store := store.(byRegion := Added(store.byRegion, (Unverified, stored.vitals.region), id));
      store := store.(byLevel := Added(store.byLevel, Unverified, id));
      // Below the player cap, so the checked increment of the live count cannot overflow.
      store := store.(liveCount := store.liveCount + 1);
      lastSent := lastSent[wallet := now];

      FiledMirrorsIffFree(old(store), filed, stored, Unverified);
      FiledIsStored(old(store), id, wallet, vitals, hashes, now, now, Unverified);
      filed := filed[id := Unverified];
      return Ok(id);
    }

    // ----- admin_seed_player -----------------------------------------------------------

    function SeedRefusal(wallet: Address, vitals: Vitals, hashes: seq<Text>, playerId: u64)
      : Option<ScoutChainError>
      reads this
    {
      if !initialized then Some(NotInitialized)
      else if paused then Some(ContractPaused)
      else if playerId in store.players || wallet in store.byWallet then Some(AlreadyRegistered)
      else if CanonVitals(vitals).None? || !HashesOk(hashes) then Some(InvalidInput)
      else None
    }

    /** `admin_seed_player`: a chosen id and level, and no change to the id counter.  None is the
        host refusing to grow the id list past a u32 length. */
    method AdminSeedPlayer(wallet: Address, vitals: Vitals, hashes: seq<Text>, level: ProgressLevel,
                           playerId: u64, registeredAt: u64, updatedAt: u64)
      returns (r: Option<Result<u64, ScoutChainError>>)
      requires Valid()
      modifies this
      ensures Valid()
      ensures Settings() == old(Settings()) && lastSent == old(lastSent)
      ensures playerCounter == old(playerCounter)
      ensures r.None? <==> old(SeedRefusal(wallet, vitals, hashes, playerId)) == None
                           && |old(store).playerIndex| == U32_MAX
      ensures r.None? ==> unchanged(this)
      ensures r.Some? && r.value.Err? ==>
        unchanged(this) && Some(r.value.error) == old(SeedRefusal(wallet, vitals, hashes, playerId))
      ensures r.Some? && r.value.Ok? ==>
        && old(SeedRefusal(wallet, vitals, hashes, playerId)) == None
        && r.value.value == playerId
        && old(store).liveCount < U64_MAX
        && store == Filed(old(store),
             StoredPlayer(playerId, wallet, CanonVitals(vitals).value, hashes, registeredAt, updatedAt),
             level)
      ensures (if r.Some? && r.value.Err? then Some(r.value.error) else None) ==
             if !old(initialized) then Some(NotInitialized)
             else if old(paused) then Some(ContractPaused)
             else if playerId in old(store).players || wallet in old(store).byWallet then Some(AlreadyRegistered)
             else if vitals.age < 16 || vitals.age > 100 || CanonPosition(vitals.position).None?
                     || CanonRegion(vitals.region).None? || CanonNationality(vitals.nationality).None?
                     || hashes == [] || |hashes| > 10 then Some(InvalidInput)
             else None
      ensures r.Some? && r.value.Ok? ==>
        StoredAs(old(store), store, playerId, wallet, vitals, hashes, registeredAt, updatedAt, level)
    {
      hide CanonVitals, CanonPosition, CanonRegion, CanonNationality, Added, Bucket, Mirrors, StoredAs;
      VitalsAccepted(vitals);
      var refusal := SeedRefusal(wallet, vitals, hashes, playerId);
      if refusal.Some? {
        return Some(Err(refusal.value));
      }
      LiveCountIsLength(store, filed);
      if |store.playerIndex| == U32_MAX {
        return None;
      }
      var stored := StoredPlayer(playerId, wallet, CanonVitals(vitals).value, hashes, registeredAt, updatedAt);
      store := store.(players := store.players[playerId := stored]);
      store := store.(byWallet := store.byWallet[wallet := playerId]);
      store := store.(levels := store.levels[playerId := level]);
      var isNewPlayer := playerId !in store.playerIndex;
      if isNewPlayer {
        store := store.(playerIndex := store.playerIndex + [playerId]);
      }
      store := store.(byRegion := Added(store.byRegion, (level, stored.vitals.region), playerId));
      store := store.(byLevel := Added(store.byLevel, level, playerId));
      if isNewPlayer {
        store := store.(liveCount := store.liveCount + 1);
      }
      FiledMirrorsIffFree(old(store), filed, stored, level);
      FiledIsStored(old(store), playerId, wallet, vitals, hashes, registeredAt, updatedAt, level);
      filed := filed[playerId := level];
      return Some(Ok(playerId));
    }

    // ----- set_player_level ------------------------------------------------------------

    /** `set_player_level`.  Only the wired progress contract can authorize the call; None is the
        host turning any other caller down.  A player with no stored level is swept out of all
        four lists. */
    method SetPlayerLevel(caller: Address, playerId: u64, level: ProgressLevel, now: u64)
      returns (r: Option<Result<(), ScoutChainError>>)
      requires Valid()
      modifies this
      ensures Valid()
      ensures Settings() == old(Settings()) && lastSent == old(lastSent)
      ensures playerCounter == old(playerCounter)
      ensures r == if old(progressContract).None? then Some(Err(Unauthorized))
                   else if old(progressContract) != Some(caller) then None
                   else if playerId !in old(store).players then Some(Err(PlayerNotFound))
                   else Some(Ok(()))
      ensures r != Some(Ok(())) ==> unchanged(this)
      ensures r == Some(Ok(())) ==>
        && playerId in old(filed)
        && filed == old(filed)[playerId := level]
        && store == Moved(old(store), playerId, old(filed)[playerId], level, now)
      ensures r == Some(Ok(())) ==>
        && store.players == old(store).players[playerId := old(store).players[playerId].(updatedAt := now)]
        && store.levels == old(store).levels[playerId := level]
        && store.byWallet == old(store).byWallet && store.deactivated == old(store).deactivated
        && store.playerIndex == old(store).playerIndex && store.liveCount == old(store).liveCount
    {
      hide Added, Removed, Mirrors;
      if progressContract.None? {
        return Some(Err(Unauthorized));
      }
      if progressContract != Some(caller) {
        return None;
      }
      if playerId !in store.players {
        return Some(Err(PlayerNotFound));
      }
      var stored := store.players[playerId];
      var region := stored.vitals.region;
      FiledKnown(store, filed, playerId, region);
      ghost var prevFiled := filed[playerId];
      if playerId in store.levels {
        var prev := store.levels[playerId];
        store := store.(byRegion := Removed(store.byRegion, (prev, region), playerId));
        store := store.(byLevel := Removed(store.byLevel, prev, playerId));
      } else {
        for i := 0 to |LEVELS|
          invariant store == if prevFiled.Rank() < i
                             then old(store).(
                               byRegion := Removed(old(store).byRegion, (prevFiled, region), playerId),
                               byLevel := Removed(old(store).byLevel, prevFiled, playerId))
                             else old(store)
          modifies this`store
        {
          SweepLevel(old(store), filed, playerId, LEVELS[i]);
          assert LEVELS[i].Rank() == i;
          LevelsInOrder(prevFiled);
          store := store.(byRegion := Removed(store.byRegion, (LEVELS[i], region), playerId));
          store := store.(byLevel := Removed(store.byLevel, LEVELS[i], playerId));
        }
        LevelsInOrder(prevFiled);
      }
      store := store.(byRegion := Added(store.byRegion, (level, region), playerId));
      store := store.(byLevel := Added(store.byLevel, level, playerId));
      stored := stored.(updatedAt := now);
      store := store.(players := store.players[playerId := stored]);
      store := store.(levels := store.levels[playerId := level]);

      MovedMirrors(old(store), filed, playerId, level, now);
      filed := filed[playerId := level];
      return Some(Ok(()));
    }

    // ----- deregister_player -----------------------------------------------------------

    /** `deregister_player`.  A player with no stored level is looked for under Unverified
        only, so the indexes stay right exactly when the level is stored or is Unverified. */
    method DeregisterPlayer(playerId: u64) returns (r: Result<(), ScoutChainError>)
      requires Valid()
      modifies this
      ensures Settings() == old(Settings()) && lastSent == old(lastSent)
      ensures playerCounter == old(playerCounter)
      ensures r == if !old(initialized) then Err(NotInitialized)
                   else if playerId !in old(store).players then Err(PlayerNotFound)
                   else Ok(())
      ensures r.Err? ==> unchanged(this)
      ensures r.Ok? ==>
        && playerId in old(filed)
        && filed == old(filed) - {playerId}
        && store == Erased(old(store), playerId,
             if playerId in old(store).levels then old(store).levels[playerId] else Unverified)
        && store.liveCount == old(store).liveCount - 1
        && (Valid() <==> playerId in old(store).levels || old(filed)[playerId] == Unverified)
      ensures r.Ok? ==>
        && store.players == old(store).players - {playerId}
        && store.byWallet == old(store).byWallet - {old(store).players[playerId].wallet}
        && store.levels == old(store).levels - {playerId}
        && store.deactivated == old(store).deactivated - {playerId}
    {
      hide Removed, Mirrors, Without;
      if !initialized {
        return Err(NotInitialized);
      }
      if playerId !in store.players {
        return Err(PlayerNotFound);
      }
      var stored := store.players[playerId];
      var level := if playerId in store.levels then store.levels[playerId] else Unverified;
      var region := stored.vitals.region;
      FiledKnown(store, filed, playerId, region);

      store := store.(players := store.players - {playerId});
      store := store.(byWallet := store.byWallet - {stored.wallet});
      store := store.(levels := store.levels - {playerId});
      store := store.(deactivated := store.deactivated - {playerId});
      if playerId in store.playerIndex {
        store := store.(playerIndex := Without(store.playerIndex, playerId));
      }
      store := store.(byRegion := Removed(store.byRegion, (level, region), playerId));
      store := store.(byLevel := Removed(store.byLevel, level, playerId));
      store := store.(liveCount := SatSub64(store.liveCount, 1));

      ErasedMirrorsIffFound(old(store), filed, playerId, level);
      filed := filed - {playerId};
      return Ok(());
    }

    // ----- deactivate_player / reactivate_player ---------------------------------------

    method DeactivatePlayer(playerId: u64) returns (r: Result<(), ScoutChainError>)
      requires Valid()
      modifies this`store
      ensures Valid()
      ensures r == if !initialized then Err(NotInitialized)
                   else if playerId !in store.players then Err(PlayerNotFound)
                   else Ok(())
      ensures store == if r.Err? then old(store)
                       else old(store).(deactivated := old(store).deactivated + {playerId})
    {
      if !initialized {
        return Err(NotInitialized);
      }
      if playerId !in store.players {
        return Err(PlayerNotFound);
      }
      if playerId in store.deactivated {
        return Ok(());
      }
      store := store.(deactivated := store.deactivated + {playerId});
      return Ok(());
    }

    method ReactivatePlayer(playerId: u64) returns (r: Result<(), ScoutChainError>)
      requires Valid()
      modifies this`store
      ensures Valid()
      ensures r == if !initialized then Err(NotInitialized)
                   else if playerId !in store.players then Err(PlayerNotFound)
                   else Ok(())
      ensures store == if r.Err? then old(store)
                       else old(store).(deactivated := old(store).deactivated - {playerId})
    {
      if !initialized {
        return Err(NotInitialized);
      }
      if playerId !in store.players {
        return Err(PlayerNotFound);
      }
      if playerId !in store.deactivated {
        return Ok(());
      }
      store := store.(deactivated := store.deactivated - {playerId});
      return Ok(());
    }

    // ----- filter_players --------------------------------------------------------------

    /** The loop both paths run over an id list: skip deactivated and non-matching players,
        then the first `offset` matches, then fill the page.  A match beyond a full page sets
        the cursor and stops. */
    method ScanList(ids: seq<u64>, position: Text, minLevel: Option<ProgressLevel>,
                    offset: u32, maxResults: u32, remote: u64 -> ProgressLevel,
                    skippedBefore: u32, before: seq<PlayerProfile>,
                    ghost seenBefore: seq<u64>, ghost bound: nat)
      returns (skipped: u32, results: seq<PlayerProfile>, nextCursor: u64, ghost seen: seq<u64>)
      requires 1 <= maxResults
      requires Scanned(Primary(), remote, seenBefore, offset, maxResults, skippedBefore, before)
      requires |seenBefore + Shown(Primary(), remote, ids, position, minLevel)| <= bound <= U32_MAX
      ensures Scanned(Primary(), remote, seen, offset, maxResults, skipped, results)
      ensures nextCursor == 0 ==>
        seen == seenBefore + Shown(Primary(), remote, ids, position, minLevel)
      ensures nextCursor != 0 ==>
        && seen < seenBefore + Shown(Primary(), remote, ids, position, minLevel)
        && nextCursor == |seen| == offset + maxResults
    {
      hide Scanned;
      var t := Primary();
      skipped, results, nextCursor, seen := skippedBefore, before, 0, seenBefore;
      ScannedSizes(t, remote, seen, offset, maxResults, skipped, results);
      for i := 0 to |ids|
        invariant seen == seenBefore + Shown(t, remote, ids[..i], position, minLevel)
        invariant Scanned(t, remote, seen, offset, maxResults, skipped, results)
        invariant nextCursor == 0
      {
        var id := ids[i];
        ScannedSizes(t, remote, seen, offset, maxResults, skipped, results);
        ShownPrefix(t, remote, ids, position, minLevel, i);
        ShownPrefix(t, remote, ids, position, minLevel, i + 1);
        ShownNext(t, remote, ids, position, minLevel, i);
        if !Shows(t, remote, id, position, minLevel) {
          continue;
        }
        if skipped < offset {
          ScannedSkip(t, remote, seen, offset, maxResults, skipped, results, id);
          skipped := skipped + 1;
          seen := seen + [id];
          continue;
        }
        if |results| >= maxResults {
          var passed: u32 := skipped + |results|;
          nextCursor := passed;
          return;
        }
        ScannedPush(t, remote, seen, offset, maxResults, skipped, results, id);
        results := results + [PlayerProfile(t.players[id], LevelOf(t, remote, id))];
        seen := seen + [id];
      }
      assert ids[..|ids|] == ids;
    }

    /** The region path: the bucket of each level in turn, until a page is full. */
    method ScanRegion(region: Text, position: Text, minLevel: ProgressLevel, offset: u32,
                      maxResults: u32, remote: u64 -> ProgressLevel)
      returns (results: seq<PlayerProfile>, nextCursor: u64)
      requires Valid() && region != [] && 1 <= maxResults
      ensures var list := Listing(Primary(), remote, store.playerIndex, store.byRegion, region, position, minLevel);
        && (forall id :: id in list ==> id in store.players)
        && results == Profiles(Primary(), remote, PageOf(list, offset, maxResults))
        && nextCursor == NextCursor(list, offset, maxResults)
    {
      hide Scanned, Mirrors, Shown, PageOf, NextCursor;
      var t := Primary();
      ghost var list := RegionScan(t, remote, store.byRegion, region, position, minLevel, |LEVELS|);
      MirroredListing(store, filed, remote, region, position, minLevel);
      results, nextCursor := [], 0;
      var skipped: u32 := 0;
      ghost var seen: seq<u64> := [];
      ScannedNothing(t, remote, offset, maxResults);
      for n := 0 to |LEVELS|
        invariant seen == RegionScan(t, remote, store.byRegion, region, position, minLevel, n)
        invariant Scanned(t, remote, seen, offset, maxResults, skipped, results)
        invariant nextCursor == 0
      {
        var level := LEVELS[n];
        if level.Rank() < minLevel.Rank() {
          continue;
        }
        RegionScanPrefix(t, remote, store.byRegion, region, position, minLevel, n + 1, |LEVELS|);
        var ids := Bucket(store.byRegion, (level, region));
        skipped, results, nextCursor, seen :=
          ScanList(ids, position, None, offset, maxResults, remote, skipped, results, seen, |list|);
        if nextCursor != 0 {
          ScannedPart(t, remote, list, seen, offset, maxResults, skipped, results);
          return;
        }
      }
      ScannedAll(t, remote, list, offset, maxResults, skipped, results);
    }

    /** The scan of the full player list, when no region is given. */
    method ScanAll(position: Text, minLevel: ProgressLevel, offset: u32,
                   maxResults: u32, remote: u64 -> ProgressLevel)
      returns (results: seq<PlayerProfile>, nextCursor: u64)
      requires Valid() && 1 <= maxResults
      ensures var list := Listing(Primary(), remote, store.playerIndex, store.byRegion, [], position, minLevel);
        && (forall id :: id in list ==> id in store.players)
        && results == Profiles(Primary(), remote, PageOf(list, offset, maxResults))
        && nextCursor == NextCursor(list, offset, maxResults)
    {
      hide Scanned, Mirrors, Shown, PageOf, NextCursor;
      var t := Primary();
      ghost var list := Shown(t, remote, store.playerIndex, position, Some(minLevel));
      MirroredListing(store, filed, remote, [], position, minLevel);
      ScannedNothing(t, remote, offset, maxResults);
      assert [] + list == list;
      var skipped;
      ghost var seen;
      skipped, results, nextCursor, seen :=
        ScanList(store.playerIndex, position, Some(minLevel), offset, maxResults, remote, 0, [], [], |list|);
      if nextCursor != 0 {
        ScannedPart(t, remote, list, seen, offset, maxResults, skipped, results);
      } else {
        ScannedAll(t, remote, list, offset, maxResults, skipped, results);
      }
    }

    /** The list a query pages through, or None when a filter string is malformed. */
    function QueryListing(remote: u64 -> ProgressLevel, region: Text, position: Text,
                          minLevel: ProgressLevel): Option<seq<u64>>
      reads this
    {
      if FilterRegion(region).None? || FilterPosition(position).None? then None
      else Some(Listing(Primary(), remote, store.playerIndex, store.byRegion,
                        FilterRegion(region).value, FilterPosition(position).value, minLevel))
    }

    /** `filter_players`.  `remote` answers for the progress contract (Unverified when it is
        not wired).  The page is the slice of the query's list at `offset`, and the cursor is
        non-zero exactly when entries are left. */
    method FilterPlayers(region: Text, position: Text, minLevel: ProgressLevel,
                         offset: u32, limit: u32, remote: u64 -> ProgressLevel)
      returns (r: Result<FilterResult, ScoutChainError>)
      requires Valid()
      ensures !initialized ==> r == Err(NotInitialized)
      ensures initialized && QueryListing(remote, region, position, minLevel).None? ==>
                r == Err(InvalidInput)
      ensures initialized && QueryListing(remote, region, position, minLevel).Some? ==>
        var list := QueryListing(remote, region, position, minLevel).value;
        var size := Clamp(limit, 1, 50);
        && r.Ok?
        && (forall id :: id in list ==> id in store.players)
        && r.value.profiles == Profiles(Primary(), remote, PageOf(list, offset, size))
        && r.value.nextCursor == NextCursor(list, offset, size)
        && (r.value.hasMore <==> r.value.nextCursor != 0)
        && (1 <= limit <= 50 && offset <= |list| ==>
              |r.value.profiles| == if offset + limit < |list| then limit else |list| - offset)
    {
      hide Mirrors, Shown, PageOf, NextCursor;
      if !initialized {
        return Err(NotInitialized);
      }
      var canonRegion, canonPosition := FilterRegion(region), FilterPosition(position);
      if canonRegion.None? || canonPosition.None? {
        return Err(InvalidInput);
      }
      var page, next;
      if canonRegion.value != [] {
        page, next := ScanRegion(canonRegion.value, canonPosition.value, minLevel, offset,
                                 Clamp(limit, 1, 50), remote);
      } else {
        page, next := ScanAll(canonPosition.value, minLevel, offset, Clamp(limit, 1, 50), remote);
      }
      ghost var list := QueryListing(remote, region, position, minLevel).value;
      if offset <= |list| {
        PageSize(list, offset, Clamp(limit, 1, 50));
      }
      return Ok(FilterResult(page, next, next != 0));
    }
  }
}
