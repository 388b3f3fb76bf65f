/** The progress contract (contracts/progress/src/lib.rs): the entrypoints that write a
    player's level and history.

    An entrypoint that returns an error is rolled back by the host; the bodies below restore
    what they had written. */
module Progress {
  import opened Prelude
  import opened SharedTypes
  import opened MerkleTree
  import opened Frontier
  import opened AuditPath
  import opened History
  import opened Tracks
  import opened PlayerStore
  import opened Erasure
  import R = Registration

  const MAX_HISTORY_PROOF_ENTRIES: nat := 512
  const MAX_PROOF_STEPS: nat := 32

  /** Every player's keys hold the player's track. */
  ghost predicate AllHold(players: map<u64, PlayerStore>, tracks: map<u64, Track>) {
    && players.Keys == tracks.Keys
    && forall id :: id in players ==>
         Holds(players[id], tracks[id].log) && players[id].level == tracks[id].level
  }

  /** And no key is missing: the state of a contract that never held older data. */
  ghost predicate AllHoldFully(players: map<u64, PlayerStore>, tracks: map<u64, Track>) {
    players.Keys == tracks.Keys
    && forall id :: id in players ==> HoldsFully(players[id], tracks[id].log)
  }

  lemma AllHoldUpdate(players: map<u64, PlayerStore>, tracks: map<u64, Track>,
                      id: u64, ps: PlayerStore, t: Track)
    requires AllHold(players, tracks)
    ensures AllHold(players[id := ps], tracks[id := t]) <==> Holds(ps, t.log) && ps.level == t.level
    ensures AllHoldFully(players, tracks) && HoldsFully(ps, t.log) ==>
              AllHoldFully(players[id := ps], tracks[id := t])
  {
    var players', tracks' := players[id := ps], tracks[id := t];
    assert players'[id] == ps && tracks'[id] == t;
  }

  lemma NothingHeld()
    ensures HoldsFully(NO_DATA, NEW_TRACK.log) && NO_DATA.level == NEW_TRACK.level
  {
  }

  function StoreOf(players: map<u64, PlayerStore>, id: u64): PlayerStore {
    if id in players then players[id] else NO_DATA
  }

  function TrackOf(tracks: map<u64, Track>, id: u64): Track {
    if id in tracks then tracks[id] else NEW_TRACK
  }

  lemma HeldTrack(players: map<u64, PlayerStore>, tracks: map<u64, Track>, id: u64)
    requires AllHold(players, tracks)
    ensures Holds(StoreOf(players, id), TrackOf(tracks, id).log)
    ensures StoreOf(players, id).level == TrackOf(tracks, id).level
    ensures Count(StoreOf(players, id)) == |TrackOf(tracks, id).log| <= U32_MAX
    ensures AllHoldFully(players, tracks) ==> HoldsFully(StoreOf(players, id), TrackOf(tracks, id).log)
  {
    NothingHeld();
  }

  /** The three entrypoints that move a player, with what the other contracts answer. */
  datatype MoveCall =
    | AdvanceBy(caller: Address, id: u64, milestoneRef: u32, milestoneCount: u32)
    | AdvanceForScout(scout: Address, id: u64, milestoneRef: u32, milestoneCount: u32)
    | ResetLevel(id: u64, target: ProgressLevel)
  {
    /** The step of the level machine the call asks for. */
    function StepAt(admin: Address, now: u64, ledger: u32): Call {
      match this
      case AdvanceBy(caller, _, milestoneRef, _) => Advance(Stamp(caller, now, milestoneRef, ledger))
      case AdvanceForScout(scout, _, milestoneRef, _) => Advance(Stamp(scout, now, milestoneRef, ledger))
      case ResetLevel(_, target) => Reset(target, Stamp(admin, now, 0, ledger))
    }
  }

  /** The answer of `admin_seed_history` on any keys that hold a history: an error, nothing to
      write for a retry, or the keys with the new entry. */
  function SeedAnswer(id: u64, log: Log, ps: PlayerStore, call: SeedCall)
    : Result<Option<PlayerStore>, ProgressError>
    requires Count(ps) == |log| <= U32_MAX
  {
    if call.index <= |log| then
      match Seeded(id, log, ps.root, call)
      case Err(e) => Err(e)
      case Ok(_) => Ok(None)
    else if SlotRefusal(id, log, call.index, call.entry).Some? then
      Err(SlotRefusal(id, log, call.index, call.entry).value)
    else if call.expected.Some? && SeedWritten(ps, call.entry).root != call.expected then
      Err(MerkleRootMismatch)
    else Ok(Some(SeedWritten(ps, call.entry)))
  }

  /** The registration table after a level was synced: that player's level and list changed,
      and nothing else about any player but the time of the update. */
  ghost predicate LevelSynced(before: R.Registry, after: R.Registry, id: u64, level: ProgressLevel) {
    && id in before.players
    && after.levels == before.levels[id := level]
    && after.players.Keys == before.players.Keys
    && (forall p :: p in before.players ==>
          after.players[p] == before.players[p].(updatedAt := after.players[p].updatedAt))
    && after.playerIndex == before.playerIndex && after.byWallet == before.byWallet
    && after.deactivated == before.deactivated && after.liveCount == before.liveCount
  }

  lemma MovedIsSync(s: R.Registry, id: u64, from: ProgressLevel, to: ProgressLevel, now: u64)
    requires id in s.players
    ensures LevelSynced(s, R.Moved(s, id, from, to, now), id, to)
  {
  }

  lemma LevelApart(ps: PlayerStore, level: Option<ProgressLevel>, log: Log)
    ensures Holds(ps.(level := level), log) <==> Holds(ps, log)
    ensures HoldsFully(ps.(level := level), log) <==> HoldsFully(ps, log)
  {
    var other := ps.(level := level);
    SameEntriesAndPages(ps, other, log);
    assert EntriesHold(ps, log) <==> EntriesHold(other, log);
  }

  lemma HeldEntries(ps: PlayerStore, log: Log)
    requires Holds(ps, log)
    ensures Count(ps) == |log|
    ensures forall i: u32 :: i in ps.entries <==> 1 <= i <= |log|
    ensures forall i: u32 :: 1 <= i <= |log| ==> ps.entries[i] == log[i - 1]
  {
  }

  lemma RootOfAppend(log: Log, e: ProgressEntry)
    ensures CommittedRoot(log + [e]) == Some(LogRoot(log + [e]))
  {
  }

  /** The fields no player operation touches. */
  datatype ProgressSettings = ProgressSettings(
    initialized: bool,
    paused: bool,
    migrationActive: bool,
    migrationSealed: bool,
    admin: Address,
    registration: R.RegistrationContract?,
    verification: Option<Address>,
    scoutAccess: Option<Address>)

  class ProgressContract {
    const address: Address                     // of this contract
    var initialized: bool
    var paused: bool
    var migrationActive: bool
    var migrationSealed: bool
    var admin: Address
    var registration: R.RegistrationContract?  // RegistrationContract, null when not wired
    var verification: Option<Address>          // VerificationContract
    var scoutAccess: Option<Address>           // ScoutAccessContract
    var players: map<u64, PlayerStore>

    /** The history and level of every player the contract has data for. */
    ghost var tracks: map<u64, Track>

    ghost predicate Valid()
      reads this
    {
      AllHold(players, tracks)
    }

    /** Nothing older than the current storage layout is left. */
    ghost predicate Complete()
      reads this
    {
      AllHoldFully(players, tracks)
    }

    function Settings(): ProgressSettings
      reads this
    {
      ProgressSettings(initialized, paused, migrationActive, migrationSealed, admin,
                       registration, verification, scoutAccess)
    }

    constructor (address: Address, admin: Address)
      ensures Valid() && Complete()
      ensures players == map[] && tracks == map[]
      ensures this.address == address
      ensures Settings() == ProgressSettings(true, false, false, false, admin, null, None, None)
    {
      this.address := address;
      initialized, paused, migrationActive, migrationSealed := true, false, false, false;
      this.admin := admin;
      registration, verification, scoutAccess := null, None, None;
      players, tracks := map[], map[];
    }

    /** `get_level` and `get_current_level`. */
    function GetLevel(id: u64): ProgressLevel
      reads this
    {
      StoreOf(players, id).level.GetOr(Unverified)
    }

    // ----- settings --------------------------------------------------------------------

    /** `pause_contract` and `unpause_contract`. */
    method SetPaused(pause: bool) returns (r: Result<(), ProgressError>)
      modifies this`paused
      ensures r == if initialized then Ok(()) else Err(NotInitialized)
      ensures paused == if r.Ok? then pause else old(paused)
    {
      if !initialized {
        return Err(NotInitialized);
      }
      if paused != pause {
        paused := pause;
      }
      return Ok(());
    }

    /** Why wiring is refused; `peerOk` is the answer of `verify_peer`. */
    function WiringRefusal(peerOk: bool): Option<ProgressError>
      reads this
    {
      if !initialized then Some(NotInitialized)
      else if !peerOk then Some(InvalidPeerContract)
      else None
    }

    method SetRegistrationContract(peer: R.RegistrationContract, peerOk: bool)
      returns (refused: Option<ProgressError>)
      modifies this`registration
      ensures refused == WiringRefusal(peerOk)
      ensures registration == if refused.None? then peer else old(registration)
    {
      refused := WiringRefusal(peerOk);
      if refused.None? {
        registration := peer;
      }
    }

    method SetVerificationContract(peer: Address, peerOk: bool) returns (refused: Option<ProgressError>)
      modifies this`verification
      ensures refused == WiringRefusal(peerOk)
      ensures verification == if refused.None? then Some(peer) else old(verification)
    {
      refused := WiringRefusal(peerOk);
      if refused.None? {
        verification := Some(peer);
      }
    }

    method SetScoutAccessContract(peer: Address, peerOk: bool) returns (refused: Option<ProgressError>)
      modifies this`scoutAccess
      ensures refused == WiringRefusal(peerOk)
      ensures scoutAccess == if refused.None? then Some(peer) else old(scoutAccess)
    {
      refused := WiringRefusal(peerOk);
      if refused.None? {
        scoutAccess := Some(peer);
      }
    }

    // ----- the shared write path -------------------------------------------------------

    /** How the answer of the registration contract is passed on. */
    function SyncError(r: Option<Result<(), R.ScoutChainError>>): Option<ProgressError> {
      match r
      case Some(Ok(_)) => None
      case Some(Err(PlayerNotFound)) => Some(PlayerNotRegistered)
      case _ => Some(RegistrationCallFailed)
    }

    /** Why the registration contract would refuse to take over a level. */
    function SyncRefusal(id: u64): Option<ProgressError>
      reads this, registration
    {
      if registration == null || registration.progressContract != Some(address) then
        Some(RegistrationCallFailed)
      else if id !in registration.store.players then Some(PlayerNotRegistered)
      else None
    }

    /** `record_progress_entry` and the write of the level that follows it in both callers. */
    method RecordMove(id: u64, target: ProgressLevel, stamp: Stamp) returns (recorded: bool)
      requires Valid()
      modifies this`players, this`tracks
      ensures Valid()
      ensures recorded <==> |TrackOf(old(tracks), id).log| < U32_MAX
      ensures !recorded ==> players == old(players) && tracks == old(tracks)
      ensures recorded ==>
        && tracks == old(tracks)[id := Moved(id, TrackOf(old(tracks), id), target, stamp)]
        && id in players && players == old(players)[id := players[id]]
        && players[id].root == CommittedRoot(tracks[id].log)
        && players[id].frontier.Some?
        && (old(Complete()) ==> Complete())
    {
      hide AllHold, AllHoldFully, Holds, HoldsFully, CommittedRoot, Recorded, FrontierOf;
      ghost var t := TrackOf(tracks, id);
      HeldTrack(players, tracks, id);
      var ps := StoreOf(players, id);
      if Count(ps) == U32_MAX {
        return false;
      }
      var e := ProgressEntry(id, GetLevel(id), target, stamp.actor, stamp.at, stamp.milestoneRef, stamp.ledger);
      RecordedHolds(ps, t.log, e);
      ps := RecordEntry(ps, e);
      LevelApart(ps, Some(target), t.log + [e]);
      ps := ps.(level := Some(target));
      AllHoldUpdate(players, tracks, id, ps, Moved(id, t, target, stamp));
      players := players[id := ps];
      tracks := tracks[id := Moved(id, t, target, stamp)];
      return true;
    }

    /** What both callers do after their checks: record the move, store the level, pass it on to
        the registration contract.  If that contract refuses, the host rolls everything back. */
    method MoveAndSync(id: u64, target: ProgressLevel, stamp: Stamp, now: u64)
      returns (refused: Option<ProgressError>)
      requires Valid() && registration != null && registration.Valid()
      modifies this`players, this`tracks, registration
      ensures Valid() && registration.Valid()
      ensures refused == if |TrackOf(old(tracks), id).log| == U32_MAX then Some(Overflow)
                         else old(SyncRefusal(id))
      ensures refused.Some? ==>
        players == old(players) && tracks == old(tracks) && unchanged(registration)
      ensures refused.None? ==>
        && tracks == old(tracks)[id := Moved(id, TrackOf(old(tracks), id), target, stamp)]
        && id in players && players == old(players)[id := players[id]]
        && players[id].root == CommittedRoot(tracks[id].log) && players[id].frontier.Some?
        && (old(Complete()) ==> Complete())
        && LevelSynced(old(registration.store), registration.store, id, target)
        && registration.Settings() == old(registration.Settings())
        && registration.playerCounter == old(registration.playerCounter)
    {
      hide AllHold, AllHoldFully, CommittedRoot, LevelSynced, R.Mirrors, R.Moved;
      HeldTrack(players, tracks, id);
      var saved := players;
      ghost var savedTracks := tracks;
      var recorded := RecordMove(id, target, stamp);
      if !recorded {
        return Some(Overflow);
      }
      ghost var before, filed := registration.store, registration.filed;
      var synced := registration.SetPlayerLevel(address, id, target, now);
      if SyncError(synced).Some? {
        players, tracks := saved, savedTracks;
        return SyncError(synced);
      }
      MovedIsSync(before, id, filed[id], target, now);
      return None;
    }

    // ----- advance_level ---------------------------------------------------------------

    /** The first check that turns an advance down before anything is written. */
    function AdvanceRefusal(id: u64, bySecondary: bool, milestoneRef: u32, milestoneCount: u32)
      : Option<ProgressError>
      reads this
    {
      if bySecondary && verification.None? then Some(NotInitialized)
      else if bySecondary && (milestoneRef == 0 || milestoneRef > milestoneCount) then
        Some(InvalidProgressTransition)
      else if registration == null then Some(RegistrationNotConfigured)
      else if GetLevel(id).Next().None? then Some(AlreadyAtMaxLevel)
      else if Count(StoreOf(players, id)) == U32_MAX then Some(Overflow)
      else None
    }

    /** What turns an authenticated advance down, in either contract. */
    function MoveRefusal(id: u64, bySecondary: bool, milestoneRef: u32, milestoneCount: u32)
      : Option<ProgressError>
      reads this, registration
    {
      var first := AdvanceRefusal(id, bySecondary, milestoneRef, milestoneCount);
      if first.Some? then first else SyncRefusal(id)
    }

    /** What turns `advance_level` down. */
    function CallRefusal(caller: Address, id: u64, milestoneRef: u32, milestoneCount: u32)
      : Option<ProgressError>
      reads this, registration
    {
      if paused then Some(ContractPaused)
      else if !initialized || (scoutAccess != Some(caller) && verification.None?) then
        Some(NotInitialized)
      else MoveRefusal(id, scoutAccess == Some(caller), milestoneRef, milestoneCount)
    }

    /** What turns `advance_level_for_scout` down. */
    function ScoutCallRefusal(id: u64, milestoneRef: u32, milestoneCount: u32): Option<ProgressError>
      reads this, registration
    {
      if paused then Some(ContractPaused)
      else if !initialized || scoutAccess.None? then Some(NotInitialized)
      else MoveRefusal(id, true, milestoneRef, milestoneCount)
    }

    /** `advance_level_authorized`.  `milestoneCount` is the answer of the verification
        contract for this player.  One more entry, one tier up, in both contracts, or no
        change in either. */
    method AdvanceLevelAuthorized(updatedBy: Address, bySecondary: bool, id: u64, milestoneRef: u32,
                                  milestoneCount: u32, now: u64, ledger: u32)
      returns (r: Result<ProgressLevel, ProgressError>)
      requires Valid() && (registration != null ==> registration.Valid())
      modifies this`players, this`tracks, registration
      ensures Valid() && (registration != null ==> registration.Valid())
      ensures r.Err? ==>
        && players == old(players) && tracks == old(tracks)
        && (registration != null ==> unchanged(registration))
        && Some(r.error) == old(MoveRefusal(id, bySecondary, milestoneRef, milestoneCount))
      ensures r.Ok? ==>
        var t, stamp := TrackOf(old(tracks), id), Stamp(updatedBy, now, milestoneRef, ledger);
        && old(MoveRefusal(id, bySecondary, milestoneRef, milestoneCount)) == None
        && Target(t, Advance(stamp)) == Some(r.value)
        && tracks == old(tracks)[id := After(id, t, Advance(stamp))]
        && id in players && players == old(players)[id := players[id]]
        && players[id].root == CommittedRoot(tracks[id].log) && players[id].frontier.Some?
        && (old(Complete()) ==> Complete())
        && registration != null
        && LevelSynced(old(registration.store), registration.store, id, r.value)
        && registration.Settings() == old(registration.Settings())
        && registration.playerCounter == old(registration.playerCounter)
    {
      hide AllHold, AllHoldFully, CommittedRoot, LevelSynced, R.Mirrors;
      if bySecondary {
        if verification.None? {
          return Err(NotInitialized);
        }
        if milestoneRef == 0 || milestoneRef > milestoneCount {
          return Err(InvalidProgressTransition);
        }
      }
      if registration == null {
        return Err(RegistrationNotConfigured);
      }
      HeldTrack(players, tracks, id);
      var next := GetLevel(id).Next();
      if next.None? {
        return Err(AlreadyAtMaxLevel);
      }
      var refused := MoveAndSync(id, next.value, Stamp(updatedBy, now, milestoneRef, ledger), now);
      if refused.Some? {
        return Err(refused.value);
      }
      return Ok(next.value);
    }

    /** `advance_level`: only the verification contract or the scout-access contract may call,
        and each authenticates itself; `caller` decides which rules apply. */
    method AdvanceLevel(caller: Address, id: u64, milestoneRef: u32, milestoneCount: u32,
                        now: u64, ledger: u32)
      returns (r: Result<ProgressLevel, ProgressError>)
      requires Valid() && (registration != null ==> registration.Valid())
      modifies this`players, this`tracks, registration
      ensures Valid() && (registration != null ==> registration.Valid())
      ensures r.Err? ==>
        && players == old(players) && tracks == old(tracks)
        && (registration != null ==> unchanged(registration))
        && Some(r.error) == old(CallRefusal(caller, id, milestoneRef, milestoneCount))
      ensures r.Ok? <==> old(CallRefusal(caller, id, milestoneRef, milestoneCount)) == None
      ensures r.Ok? ==>
        var t, stamp := TrackOf(old(tracks), id), Stamp(caller, now, milestoneRef, ledger);
        && Target(t, Advance(stamp)) == Some(r.value)
        && tracks == old(tracks)[id := After(id, t, Advance(stamp))]
        && (scoutAccess == Some(caller) ==> 1 <= milestoneRef <= milestoneCount)
        && (old(Complete()) ==> Complete())
        && registration != null
        && LevelSynced(old(registration.store), registration.store, id, r.value)
        && registration.Settings() == old(registration.Settings())
        && registration.playerCounter == old(registration.playerCounter)
      ensures (if r.Err? then Some(r.error) else None) ==
             if paused then Some(ContractPaused)
             else if !initialized then Some(NotInitialized)
             else if verification.None? then Some(NotInitialized)
             else if scoutAccess == Some(caller) && (milestoneRef == 0 || milestoneRef > milestoneCount) then
               Some(InvalidProgressTransition)
             else if registration == null then Some(RegistrationNotConfigured)
             else if TrackOf(old(tracks), id).level.GetOr(Unverified) == EliteTier then Some(AlreadyAtMaxLevel)
             else if |TrackOf(old(tracks), id).log| == U32_MAX then Some(Overflow)
             else if old(registration.progressContract) != Some(address) then Some(RegistrationCallFailed)
             else if id !in old(registration.store.players) then Some(PlayerNotRegistered)
             else None
      ensures r.Ok? ==> Some(r.value) == TrackOf(old(tracks), id).level.GetOr(Unverified).Next()
      ensures r.Ok? ==>
        tracks == old(tracks)[id := Track(
          TrackOf(old(tracks), id).log
          + [ProgressEntry(id, TrackOf(old(tracks), id).level.GetOr(Unverified), r.value,
                           caller, now, milestoneRef, ledger)],
          Some(r.value))]
    {
      hide AllHold, AllHoldFully, LevelSynced, CommittedRoot, R.Mirrors;
      HeldTrack(players, tracks, id);
      if paused {
        return Err(ContractPaused);
      }
      if !initialized {
        return Err(NotInitialized);
      }
      var bySecondary := scoutAccess == Some(caller);
      if !bySecondary && verification.None? {
        return Err(NotInitialized);
      }
      r := AdvanceLevelAuthorized(caller, bySecondary, id, milestoneRef, milestoneCount, now, ledger);
    }

    /** `advance_level_for_scout`: the scout-access contract calls, the scout is recorded. */
    method AdvanceLevelForScout(scout: Address, id: u64, milestoneRef: u32, milestoneCount: u32,
                                now: u64, ledger: u32)
      returns (r: Result<ProgressLevel, ProgressError>)
      requires Valid() && (registration != null ==> registration.Valid())
      modifies this`players, this`tracks, registration
      ensures Valid() && (registration != null ==> registration.Valid())
      ensures r.Err? ==>
        && players == old(players) && tracks == old(tracks)
        && (registration != null ==> unchanged(registration))
        && Some(r.error) == old(ScoutCallRefusal(id, milestoneRef, milestoneCount))
      ensures r.Ok? <==> old(ScoutCallRefusal(id, milestoneRef, milestoneCount)) == None
      ensures r.Ok? ==>
        var t, stamp := TrackOf(old(tracks), id), Stamp(scout, now, milestoneRef, ledger);
        && Target(t, Advance(stamp)) == Some(r.value)
        && tracks == old(tracks)[id := After(id, t, Advance(stamp))]
        && 1 <= milestoneRef <= milestoneCount
        && (old(Complete()) ==> Complete())
        && registration != null
        && LevelSynced(old(registration.store), registration.store, id, r.value)
        && registration.Settings() == old(registration.Settings())
        && registration.playerCounter == old(registration.playerCounter)
      ensures (if r.Err? then Some(r.error) else None) ==
             if paused then Some(ContractPaused)
             else if !initialized || scoutAccess.None? || verification.None? then Some(NotInitialized)
             else if milestoneRef == 0 || milestoneRef > milestoneCount then Some(InvalidProgressTransition)
             else if registration == null then Some(RegistrationNotConfigured)
             else if TrackOf(old(tracks), id).level.GetOr(Unverified) == EliteTier then Some(AlreadyAtMaxLevel)
             else if |TrackOf(old(tracks), id).log| == U32_MAX then Some(Overflow)
             else if old(registration.progressContract) != Some(address) then Some(RegistrationCallFailed)
             else if id !in old(registration.store.players) then Some(PlayerNotRegistered)
             else None
      ensures r.Ok? ==> Some(r.value) == TrackOf(old(tracks), id).level.GetOr(Unverified).Next()
      ensures r.Ok? ==>
        tracks == old(tracks)[id := Track(
          TrackOf(old(tracks), id).log
          + [ProgressEntry(id, TrackOf(old(tracks), id).level.GetOr(Unverified), r.value,
                           scout, now, milestoneRef, ledger)],
          Some(r.value))]
    {
      hide AllHold, AllHoldFully, LevelSynced, CommittedRoot, R.Mirrors;
      HeldTrack(players, tracks, id);
      if paused {
        return Err(ContractPaused);
      }
      if !initialized || scoutAccess.None? {
        return Err(NotInitialized);
      }
      r := AdvanceLevelAuthorized(scout, true, id, milestoneRef, milestoneCount, now, ledger);
    }

    // ----- reset_player_level ----------------------------------------------------------

    function ResetRefusal(id: u64, target: ProgressLevel): Option<ProgressError>
      reads this
    {
      if paused then Some(ContractPaused)
      else if !initialized then Some(NotInitialized)
      else if registration == null then Some(RegistrationNotConfigured)
      else if GetLevel(id) == target then Some(NoLevelChange)
      else if Count(StoreOf(players, id)) == U32_MAX then Some(Overflow)
      else None
    }

    /** `reset_player_level`: the admin moves a player to any other level; the history records
        it with milestone reference 0. */
    method ResetPlayerLevel(id: u64, target: ProgressLevel, now: u64, ledger: u32)
      returns (r: Result<(), ProgressError>)
      requires Valid() && (registration != null ==> registration.Valid())
      modifies this`players, this`tracks, registration
      ensures Valid() && (registration != null ==> registration.Valid())
      ensures r.Err? ==>
        && players == old(players) && tracks == old(tracks)
        && (registration != null ==> unchanged(registration))
        && Some(r.error) == (
             if old(ResetRefusal(id, target)).Some? then old(ResetRefusal(id, target))
             else old(SyncRefusal(id)))
      ensures r.Ok? ==>
        var t, call := TrackOf(old(tracks), id), Reset(target, Stamp(admin, now, 0, ledger));
        && old(ResetRefusal(id, target)) == None
        && Target(t, call) == Some(target)
        && tracks == old(tracks)[id := After(id, t, call)]
        && id in players && players == old(players)[id := players[id]]
        && players[id].root == CommittedRoot(tracks[id].log) && players[id].frontier.Some?
        && (old(Complete()) ==> Complete())
        && registration != null && old(SyncRefusal(id)) == None
        && LevelSynced(old(registration.store), registration.store, id, target)
        && registration.Settings() == old(registration.Settings())
        && registration.playerCounter == old(registration.playerCounter)
      ensures (if r.Err? then Some(r.error) else None) ==
             if paused then Some(ContractPaused)
             else if !initialized then Some(NotInitialized)
             else if registration == null then Some(RegistrationNotConfigured)
             else if TrackOf(old(tracks), id).level.GetOr(Unverified) == target then Some(NoLevelChange)
             else if |TrackOf(old(tracks), id).log| == U32_MAX then Some(Overflow)
             else if old(registration.progressContract) != Some(address) then Some(RegistrationCallFailed)
             else if id !in old(registration.store.players) then Some(PlayerNotRegistered)
             else None
      ensures r.Ok? ==>
        tracks == old(tracks)[id := Track(
          TrackOf(old(tracks), id).log
          + [ProgressEntry(id, TrackOf(old(tracks), id).level.GetOr(Unverified), target, admin, now, 0, ledger)],
          Some(target))]
    {
      hide AllHold, AllHoldFully, CommittedRoot, LevelSynced, R.Mirrors;
      HeldTrack(players, tracks, id);
      if paused {
        return Err(ContractPaused);
      }
      if !initialized {
        return Err(NotInitialized);
      }
      if registration == null {
        return Err(RegistrationNotConfigured);
      }
      HeldTrack(players, tracks, id);
      if GetLevel(id) == target {
        return Err(NoLevelChange);
      }
      var refused := MoveAndSync(id, target, Stamp(admin, now, 0, ledger), now);
      if refused.Some? {
        return Err(refused.value);
      }
      return Ok(());
    }

    // ----- any move --------------------------------------------------------------------

    function RefusalOf(call: MoveCall): Option<ProgressError>
      reads this, registration
    {
      match call
      case AdvanceBy(caller, id, milestoneRef, milestoneCount) =>
        CallRefusal(caller, id, milestoneRef, milestoneCount)
      case AdvanceForScout(_, id, milestoneRef, milestoneCount) =>
        ScoutCallRefusal(id, milestoneRef, milestoneCount)
      case ResetLevel(id, target) =>
        if ResetRefusal(id, target).Some? then ResetRefusal(id, target) else SyncRefusal(id)
    }

    /** A call of one of the three goes through exactly when nothing turns it down, and then
        makes the step it asks for, in both contracts. */
    method Move(call: MoveCall, now: u64, ledger: u32) returns (ok: bool)
      requires Valid() && (registration != null ==> registration.Valid())
      modifies this`players, this`tracks, registration
      ensures Valid() && (registration != null ==> registration.Valid())
      ensures ok <==> old(RefusalOf(call)) == None
      ensures paused || !initialized ==> !ok
      ensures !ok ==>
        && players == old(players) && tracks == old(tracks)
        && (registration != null ==> unchanged(registration))
      ensures ok ==>
        var t, step := TrackOf(old(tracks), call.id), call.StepAt(admin, now, ledger);
        && Target(t, step).Some?
        && tracks == old(tracks)[call.id := After(call.id, t, step)]
        && (old(Complete()) ==> Complete())
        && registration != null
        && LevelSynced(old(registration.store), registration.store, call.id, Target(t, step).value)
        && registration.Settings() == old(registration.Settings())
        && registration.playerCounter == old(registration.playerCounter)
    {
      hide AllHold, AllHoldFully, CommittedRoot, LevelSynced, R.Mirrors;
      match call
      case AdvanceBy(caller, id, milestoneRef, milestoneCount) =>
        var r := AdvanceLevel(caller, id, milestoneRef, milestoneCount, now, ledger);
        ok := r.Ok?;
      case AdvanceForScout(scout, id, milestoneRef, milestoneCount) =>
        var r := AdvanceLevelForScout(scout, id, milestoneRef, milestoneCount, now, ledger);
        ok := r.Ok?;
      case ResetLevel(id, target) =>
        var r := ResetPlayerLevel(id, target, now, ledger);
        ok := r.Ok?;
    }

    // ----- migration -------------------------------------------------------------------

    method OpenMigrationWindow() returns (r: Result<(), ProgressError>)
      modifies this`migrationActive
      ensures r == if !initialized then Err(NotInitialized)
                   else if migrationSealed then Err(MigrationWindowSealed) else Ok(())
      ensures migrationActive == (r.Ok? || old(migrationActive))
    {
      if !initialized {
        return Err(NotInitialized);
      }
      if migrationSealed {
        return Err(MigrationWindowSealed);
      }
      migrationActive := true;
      return Ok(());
    }

    /** Closing seals the window for good. */
    method CloseMigrationWindow() returns (r: Result<(), ProgressError>)
      modifies this`migrationActive, this`migrationSealed
      ensures r == if !initialized then Err(NotInitialized)
                   else if !old(migrationActive) then Err(MigrationNotActive) else Ok(())
      ensures r.Ok? ==> !migrationActive && migrationSealed
      ensures r.Err? ==> migrationActive == old(migrationActive) && migrationSealed == old(migrationSealed)
    {
      if !initialized {
        return Err(NotInitialized);
      }
      if !migrationActive {
        return Err(MigrationNotActive);
      }
      migrationActive, migrationSealed := false, true;
      return Ok(());
    }

    /** `admin_seed_history`.  The level is not touched.  `SeedAnswer` says what is written; all
        keys hold the new history exactly when the entry goes to a page that is stored or new,
        and then the outcome is that of `Seeded`.  In a contract without older data that is
        always so. */
    method AdminSeedHistory(id: u64, call: SeedCall) returns (r: Result<(), ProgressError>)
      requires Valid()
      modifies this`players, this`tracks
      ensures !initialized ==> r == Err(NotInitialized)
      ensures initialized && !migrationActive ==> r == Err(MigrationNotActive)
      ensures r.Err? ==> players == old(players) && tracks == old(tracks)
      ensures initialized && migrationActive ==>
        var ps, t := StoreOf(old(players), id), TrackOf(old(tracks), id);
        match SeedAnswer(id, t.log, ps, call)
        case Err(e) => r == Err(e)
        case Ok(None) => r.Ok? && players == old(players) && tracks == old(tracks)
        case Ok(Some(written)) =>
          && r.Ok? && players == old(players)[id := written]
          && tracks == old(tracks)[id := Track(t.log + [call.entry], t.level)]
          && (Valid() <==> NextPageReady(ps))
      ensures initialized && migrationActive && (old(Complete()) || old(NextPageReady(StoreOf(players, id)))) ==>
        var t := TrackOf(old(tracks), id);
        var outcome := Seeded(id, t.log, StoreOf(old(players), id).root, call);
        && Valid() && (old(Complete()) ==> Complete())
        && (outcome.Err? ==> r == Err(outcome.error))
        && (outcome.Ok? ==>
            && r.Ok?
            && (outcome.value == t.log ==> players == old(players) && tracks == old(tracks))
            && (outcome.value != t.log ==> tracks == old(tracks)[id := Track(outcome.value, t.level)])
            && (outcome.value != t.log ==> id in players && players == old(players)[id := players[id]]))
      ensures r.Ok? && call.expected.Some? ==> StoreOf(players, id).root == call.expected
      ensures r.Ok? ==>
        call.index in StoreOf(players, id).entries && StoreOf(players, id).entries[call.index] == call.entry
      ensures (&& initialized && migrationActive && call.index in StoreOf(old(players), id).entries
               && StoreOf(old(players), id).entries[call.index] != call.entry)
              ==> r == Err(HistoryAlreadyExists)
    {
      hide AllHold, AllHoldFully, Holds, HoldsFully, NextPageReady, CommittedRoot, LogRoot, SeedWritten;
      if !initialized {
        return Err(NotInitialized);
      }
      if !migrationActive {
        return Err(MigrationNotActive);
      }
      ghost var t := TrackOf(tracks, id);
      HeldTrack(players, tracks, id);
      var ps := StoreOf(players, id);
      HeldEntries(ps, t.log);
      if call.index == 0 {
        return Err(InvalidHistoryIndex);
      }
      if call.index in ps.entries {
        if ps.entries[call.index] != call.entry {
          return Err(HistoryAlreadyExists);
        }
        if call.expected.Some? {
          if ps.root.None? {
            return Err(PlayerNotFound);
          }
          if ps.root != call.expected {
            return Err(MerkleRootMismatch);
          }
        }
        return Ok(());
      }
      // A u32 index that holds no entry is above the counter, so the checked add cannot overflow.
      var expectedNext: u32 := Count(ps) + 1;
      if call.index != expectedNext {
        return Err(InvalidHistoryIndex);
      }
      if call.entry.playerId != id {
        return Err(SeedPlayerMismatch);
      }
      var prevLevel, prevAt, prevLedger := Unverified, 0, 0;
      if Count(ps) != 0 {
        var prev := ps.entries[Count(ps)];
        prevLevel, prevAt, prevLedger := prev.newLevel, prev.updatedAt, prev.ledgerSequence;
      }
      if call.entry.oldLevel != prevLevel {
        return Err(SeedLevelDiscontinuity);
      }
      if call.entry.updatedAt < prevAt || call.entry.ledgerSequence < prevLedger {
        return Err(SeedTimestampRegression);
      }
      SeedHoldsIffPageReady(ps, t.log, call.entry);
      SeedWrittenEntry(ps, call.entry);
      ps := SeedEntry(ps, call.entry);
      if call.expected.Some? && ps.root != call.expected {
        RootOfAppend(t.log, call.entry);
        return Err(MerkleRootMismatch);
      }
      RootOfAppend(t.log, call.entry);
      AllHoldUpdate(players, tracks, id, ps, Track(t.log + [call.entry], t.level));
      players := players[id := ps];
      tracks := tracks[id := Track(t.log + [call.entry], t.level)];
      return Ok(());
    }

    // ----- purge_player_data -----------------------------------------------------------

    /** `purge_player_data` for one page; None is an arithmetic trap.  Whatever happens to the
        player, no other player's keys change. */
    method PurgePlayerData(id: u64, cursor: u32) returns (r: Option<Result<(u32, bool), ProgressError>>)
      modifies this`players
      ensures !initialized ==> r == Some(Err(NotInitialized))
      ensures initialized ==>
        && (r.None? <==> cursor + 51 > U32_MAX || Count(StoreOf(old(players), id)) == U32_MAX)
        && (r.Some? ==> r.value.Ok?)
      ensures r.None? || r.value.Err? ==> players == old(players)
      ensures r.Some? && r.value.Ok? ==>
        && id in players && players == old(players)[id := players[id]]
        && PageRemoved(StoreOf(old(players), id), cursor, players[id], r.value.value.0, r.value.value.1)
    {
      hide PageRemoved;
      if !initialized {
        return Some(Err(NotInitialized));
      }
      var step := PurgePage(StoreOf(players, id), cursor);
      if step.None? {
        return None;
      }
      players := players[id := step.value.0];
      return Some(Ok((step.value.1, step.value.2)));
    }

    /** The loop of an operator: from cursor 0, feed the returned cursor back until nothing more is
        reported.  It gets to the end exactly for histories of at most 4294967250 entries, after
        one call per 50 entries.  Then no key of the player is left but the frontier, and the keys
        hold the empty history again exactly when there was no frontier or no entry.  No key of any
        other player changes, wherever it ends. */
    method PurgePlayer(id: u64) returns (done: bool, calls: nat)
      requires Valid() && initialized
      modifies this`players, this`tracks
      ensures done <==> |TrackOf(old(tracks), id).log| <= PURGEABLE
      ensures forall other :: other != id ==> StoreOf(players, other) == StoreOf(old(players), other)
      ensures done ==>
        var before, log := StoreOf(old(players), id), TrackOf(old(tracks), id).log;
        && StoreOf(players, id) == Leftover(before)
        && players.Keys == old(players).Keys + {id}
        && calls == (if log == [] then 1 else (|log| + 49) / 50)
        && tracks == old(tracks)[id := NEW_TRACK]
        && (Valid() <==> before.frontier.None? || log == [])
    {
      hide AllHold, AllHoldFully, Holds, PageRemoved, PurgedTo;
      ghost var before, log := StoreOf(players, id), TrackOf(tracks, id).log;
      HeldTrack(players, tracks, id);
      NothingPurged(before);
      var cursor: u32 := 0;
      var more := true;
      calls := 0;
      while more
        invariant players == old(players) || players == old(players)[id := StoreOf(players, id)]
        invariant calls > 0 ==> players.Keys == old(players).Keys + {id}
        invariant more ==> PurgedTo(before, StoreOf(players, id), cursor)
                           && StoreOf(players, id).counter == before.counter
        invariant more ==> cursor == 50 * calls && (cursor == 0 || cursor < |log|)
        invariant !more ==> |log| <= PURGEABLE && StoreOf(players, id) == Leftover(before)
        invariant !more ==> calls == (if log == [] then 1 else (|log| + 49) / 50)
        decreases more, |log| - cursor
        modifies this`players
      {
        ghost var current := StoreOf(players, id);
        var step := PurgePlayerData(id, cursor);
        if step.None? {
          return false, calls;
        }
        PurgedFurther(before, current, cursor, players[id], step.value.value.0, step.value.value.1, log);
        cursor, more := step.value.value.0, step.value.value.1;
        calls := calls + 1;
      }
      assert players == old(players)[id := Leftover(before)];
      LeftoverHoldsIff(before, log);
      AllHoldUpdate(old(players), tracks, id, Leftover(before), NEW_TRACK);
      tracks := tracks[id := NEW_TRACK];
      return true, calls;
    }

    // ----- proofs ----------------------------------------------------------------------

    /** `verify_history_proof`: accepted exactly when the proof is the audit path of that very
        entry in the player's committed history. */
    method VerifyHistoryProof(id: u64, entry: ProgressEntry, proof: seq<Step>)
      returns (r: Result<bool, ProgressError>)
      requires Valid()
      ensures StoreOf(players, id).root.None? ==> r == Err(PlayerNotFound)
      ensures StoreOf(players, id).root.Some? ==>
        var log := TrackOf(tracks, id).log;
        r == Ok(entry.playerId == id
                && exists i :: && 0 <= i < |log| && log[i] == entry
                               && proof == PathOf(LeafHashes(log), i, 0, |log|))
    {
      hide AllHold, LogRoot;
      HeldTrack(players, tracks, id);
      ghost var log := TrackOf(tracks, id).log;
      var stored := StoreOf(players, id).root;
      if stored.None? {
        return Err(PlayerNotFound);
      }
      ProofAcceptedIffCommitted(log, id, entry, proof);
      if |proof| > MAX_PROOF_STEPS {
        return Ok(false);
      }
      if entry.playerId != id {
        return Ok(false);
      }
      var computed := ComputeRootFromProof(LeafHash(entry), proof);
      return Ok(computed == stored.value);
    }

    /** The history the readers return: the one held, or the old unbounded vector for a player
        who has nothing newer. */
    ghost function Readable(id: u64): Log
      reads this
    {
      if TrackOf(tracks, id).log != [] then TrackOf(tracks, id).log
      else StoreOf(players, id).legacyVec.GetOr([])
    }

    /** `get_history_proof`: the audit path of the entry at a 1-based index, for histories of
        at most 512 entries. */
    method GetHistoryProof(id: u64, index: u32) returns (r: Result<seq<Step>, ProgressError>)
      requires Valid()
      ensures var log := Readable(id);
        r == if |TrackOf(tracks, id).log| > 512 then Err(HistoryTooLongForProof)
             else if log == [] || index == 0 || index > |log| then Err(PlayerNotFound)
             else if |log| > 512 then Err(HistoryTooLongForProof)
             else Ok(PathOf(LeafHashes(log), index - 1, 0, |log|))
    {
      hide AllHold, ReadAll, PathOf, FrontierOf, CommittedRoot;
      HeldTrack(players, tracks, id);
      var ps := StoreOf(players, id);
      if Count(ps) > MAX_HISTORY_PROOF_ENTRIES {
        return Err(HistoryTooLongForProof);
      }
      assert NoPageTrap(ps);
      var read := ReadHistoryPages(ps);
      var history := read.value;
      ReadAllIsLog(ps, TrackOf(tracks, id).log);
      assert history == Readable(id);
      var n := |history|;
      if n == 0 || index == 0 || index > n {
        return Err(PlayerNotFound);
      }
      if n > MAX_HISTORY_PROOF_ENTRIES {
        return Err(HistoryTooLongForProof);
      }
      var proof := PathRange(LeafHashes(history), index - 1, 0, n, []);
      assert proof == PathOf(LeafHashes(history), index - 1, 0, n);
      return Ok(proof);
    }
  }

  /** What `get_history_proof` promises: a proof it hands out verifies against the current root, if
      and only if the player has one and the entry names the player.  A player with a history in a
      contract without older data always has one. */
  method ProveAndVerify(p: ProgressContract, id: u64, index: u32, entry: ProgressEntry)
    returns (proof: Result<seq<Step>, ProgressError>, verdict: Result<bool, ProgressError>)
    requires p.Valid() && 1 <= index <= |p.Readable(id)| && entry == p.Readable(id)[index - 1]
    ensures proof.Ok? <==> |p.Readable(id)| <= MAX_HISTORY_PROOF_ENTRIES
    ensures proof.Ok? ==>
      verdict == if StoreOf(p.players, id).root.None? then Err(PlayerNotFound)
                 else Ok(entry.playerId == id)
    ensures p.Complete() && TrackOf(p.tracks, id).log != [] ==> StoreOf(p.players, id).root.Some?
  {
    hide AllHold, AllHoldFully, PathOf, Holds;
    HeldTrack(p.players, p.tracks, id);
    RootOnlyOfHistory(StoreOf(p.players, id), TrackOf(p.tracks, id).log);
    proof := p.GetHistoryProof(id, index);
    if proof.Ok? {
      verdict := p.VerifyHistoryProof(id, entry, proof.value);
    } else {
      verdict := Err(proof.error);
    }
  }

  lemma RootOnlyOfHistory(ps: PlayerStore, log: Log)
    requires Holds(ps, log)
    ensures log == [] ==> ps.root.None?
    ensures HoldsFully(ps, log) && log != [] ==> ps.root.Some?
  {
  }

  /** Two players whose proofs are handed out and not accepted: one with single entries alone, one
      with the old vector alone. */
  lemma ProofWithoutRoot(id: u64, log: Log)
    requires 1 <= |log| <= MAX_HISTORY_PROOF_ENTRIES
    ensures AllHold(map[id := LegacyStore(log)], map[id := Track(log, None)])
    ensures AllHold(map[id := NO_DATA.(legacyVec := Some(log))], map[id := NEW_TRACK])
    ensures LegacyStore(log).root.None? && NO_DATA.(legacyVec := Some(log)).root.None?
  {
    LegacyReadTraps(log);
  }
}
