/** The registration and progress contracts deployed together: every progress step also moves
    the player in the registration indexes, so the two must stay in step. */
module TwoContracts {
  import opened Prelude
  import opened SharedTypes
  import opened Canonical
  import opened IndexViews
  import opened Directory
  import opened History
  import opened Tracks
  import opened PlayerStore
  import opened Registration
  import opened Runs
  import P = Progress

  /** Levels agree for every registered player, and ids that were never given out have no
      progress data. */
  ghost predicate LevelsAgree(tracks: map<u64, Track>, store: Registry, counter: u64) {
    && store.levels.Keys == store.players.Keys
    && (forall id :: id in store.players ==> store.levels[id] == Current(P.TrackOf(tracks, id)))
    && (forall id :: id in store.players ==> id <= counter)
    && (forall id :: id in tracks ==> id <= counter)
  }

  ghost predicate ChainsHold(tracks: map<u64, Track>) {
    forall id :: id in tracks ==> LevelChain(id, tracks[id])
  }

  /** The joint state of the two contracts, wired to each other. */
  ghost predicate InStep(p: P.ProgressContract, r: RegistrationContract)
    reads p, r
  {
    && p.registration == r && r.progressContract == Some(p.address)
    && p.Valid() && p.Complete() && r.Valid()
    && LevelsAgree(p.tracks, r.store, r.playerCounter)
    && ChainsHold(p.tracks)
  }

  datatype ContractCall =
    | Register(wallet: Address, vitals: Vitals, hashes: seq<Text>)
    | Deregister(id: u64)
    | Deactivate(id: u64)
    | Reactivate(id: u64)
    | Move(move: P.MoveCall)
    | WireVerification(address: Address, peerOk: bool)
    | WireScoutAccess(address: Address, peerOk: bool)
    | PauseProgress(pause: bool)
    | PauseRegistration(pause: bool)
    | SetCooldown(secs: u64)

  method Deploy(address: Address, admin: Address) returns (p: P.ProgressContract, r: RegistrationContract)
    ensures fresh(p) && fresh(r) && InStep(p, r)
    ensures p.tracks == map[] && p.address == address
    ensures p.Settings() == P.ProgressSettings(true, false, false, false, admin, r, None, None)
    ensures r.store == NO_PLAYERS && r.playerCounter == 0 && r.lastSent == map[]
    ensures r.Settings() == RegistrationSettings(true, false, Some(address), None)
  {
    r := new RegistrationContract();
    p := new P.ProgressContract(address, admin);
    var wired := r.SetProgressContract(address, true);
    var refused := p.SetRegistrationContract(r, true);
  }

  // ----- steps on the tables -----------------------------------------------------------

  lemma FreshIdFree(tracks: map<u64, Track>, store: Registry, counter: u64)
    requires LevelsAgree(tracks, store, counter)
    ensures forall id: u64 :: id > counter ==> id !in store.players && id !in tracks
  {
  }

  lemma SyncedIds(before: Registry, after: Registry, id: u64, level: ProgressLevel)
    requires P.LevelSynced(before, after, id, level)
    ensures id in before.players && after.players.Keys == before.players.Keys
  {
  }

  lemma AgreeTracked(tracks: map<u64, Track>, store: Registry, counter: u64)
    requires LevelsAgree(tracks, store, counter)
    ensures store.levels.Keys == store.players.Keys
  {
  }

  lemma AgreeAfterRegister(tracks: map<u64, Track>, store: Registry, counter: u64, s: StoredPlayer)
    requires LevelsAgree(tracks, store, counter)
    requires s.playerId == counter + 1 <= U64_MAX && store.liveCount < U64_MAX
    ensures LevelsAgree(tracks, Filed(store, s, Unverified), counter + 1)
  {
    FreshIdFree(tracks, store, counter);
  }

  lemma AgreeAfterErase(tracks: map<u64, Track>, store: Registry, counter: u64, id: u64)
    requires LevelsAgree(tracks, store, counter) && id in store.players
    ensures id in store.levels && LevelsAgree(tracks, Registration.Erased(store, id, store.levels[id]), counter)
  {
  }

  lemma AgreeIgnoresFlags(tracks: map<u64, Track>, before: Registry, after: Registry, counter: u64)
    requires after.players == before.players && after.levels == before.levels
    ensures LevelsAgree(tracks, before, counter) <==> LevelsAgree(tracks, after, counter)
  {
  }

  lemma AgreeAfterMove(tracks: map<u64, Track>, store: Registry, counter: u64,
                       tracks': map<u64, Track>, store': Registry, id: u64, call: Tracks.Call)
    requires LevelsAgree(tracks, store, counter) && ChainsHold(tracks)
    requires Target(P.TrackOf(tracks, id), call).Some?
    requires tracks' == tracks[id := After(id, P.TrackOf(tracks, id), call)]
    requires P.LevelSynced(store, store', id, Target(P.TrackOf(tracks, id), call).value)
    ensures LevelsAgree(tracks', store', counter) && ChainsHold(tracks')
  {
    var t := P.TrackOf(tracks, id);
    assert LevelChain(id, NEW_TRACK);
    AfterKeepsLevelChain(id, t, call);
    AgreeAfterChange(tracks, store, counter, store', id, After(id, t, call), Target(t, call).value);
  }

  lemma AgreeAfterChange(tracks: map<u64, Track>, store: Registry, counter: u64,
                         store': Registry, id: u64, t: Track, level: ProgressLevel)
    requires LevelsAgree(tracks, store, counter) && ChainsHold(tracks)
    requires LevelChain(id, t) && t.level == Some(level)
    requires P.LevelSynced(store, store', id, level)
    ensures LevelsAgree(tracks[id := t], store', counter) && ChainsHold(tracks[id := t])
  {
    hide LevelChain;
  }

  // ----- one transaction ---------------------------------------------------------------

  /** Histories, registered ids and id counter. */
  datatype Snapshot = Snapshot(tracks: map<u64, Track>, ids: set<u64>, counter: u64)

  ghost function SnapshotOf(p: P.ProgressContract, r: RegistrationContract): Snapshot
    reads p, r
  {
    Snapshot(p.tracks, r.store.players.Keys, r.playerCounter)
  }

  /** What a transaction that goes through does: a move changes the history of one registered
      player by the step it asks for, in both contracts; registering adds the next id, and
      deregistering removes one. */
  ghost predicate Effect(tx: Transaction<ContractCall>, admin: Address, before: Snapshot, after: Snapshot) {
    match tx.call
    case Register(_, _, _) =>
      && after.counter == before.counter + 1
      && after == before.(ids := before.ids + {after.counter}, counter := after.counter)
    case Deregister(id) => id in before.ids && after == before.(ids := before.ids - {id})
    case Move(move) =>
      var t, step := P.TrackOf(before.tracks, move.id), move.StepAt(admin, tx.now, tx.ledger);
      && move.id in before.ids
      && Target(t, step).Some?
      && after == before.(tracks := before.tracks[move.id := After(move.id, t, step)])
    case _ => after == before
  }

  /** Exactly when a transaction goes through. */
  predicate Accepts(p: P.ProgressContract, r: RegistrationContract, tx: Transaction<ContractCall>)
    reads p, p.registration, r
  {
    match tx.call
    case Register(wallet, vitals, hashes) => r.RegisterRefusal(wallet, vitals, hashes, tx.now) == None
    case Deregister(id) => r.initialized && id in r.store.players
    case Deactivate(id) => r.initialized && id in r.store.players
    case Reactivate(id) => r.initialized && id in r.store.players
    case Move(move) => p.RefusalOf(move) == None
    case WireVerification(_, peerOk) => p.initialized && peerOk
    case WireScoutAccess(_, peerOk) => p.initialized && peerOk
    case PauseProgress(_) => p.initialized
    case PauseRegistration(_) => r.initialized
    case SetCooldown(secs) => r.initialized && secs <= MAX_REG_COOLDOWN_SECS
  }

  /** Any one transaction keeps the contracts in step, whether it succeeds or not. */
  method Execute(p: P.ProgressContract, r: RegistrationContract, tx: Transaction<ContractCall>) returns (ok: bool)
    requires InStep(p, r)
    modifies p, r
    ensures InStep(p, r) && p.admin == old(p.admin)
    ensures ok <==> old(Accepts(p, r, tx))
    ensures tx.call.Move? && old(p.paused) ==> !ok
    ensures tx.call.Register? && old(r.paused) ==> !ok
    ensures if ok then Effect(tx, p.admin, old(SnapshotOf(p, r)), SnapshotOf(p, r))
            else SnapshotOf(p, r) == old(SnapshotOf(p, r))
    ensures tx.call.Move? || tx.call.Register? ==>
              p.Settings() == old(p.Settings()) && r.Settings() == old(r.Settings())
    ensures ok && tx.call.WireVerification? ==>
              p.Settings() == old(p.Settings()).(verification := Some(tx.call.address)) && unchanged(r)
    ensures ok && tx.call.WireScoutAccess? ==>
              p.Settings() == old(p.Settings()).(scoutAccess := Some(tx.call.address)) && unchanged(r)
  {
    hide InStep, Effect;
    match tx.call
    case Move(move) =>
      ok := ExecuteMove(p, r, move, tx);
    case WireVerification(address, peerOk) =>
      ok := ExecuteSetting(p, r, tx);
    case WireScoutAccess(address, peerOk) =>
      ok := ExecuteSetting(p, r, tx);
    case PauseProgress(pause) =>
      ok := ExecuteSetting(p, r, tx);
    case PauseRegistration(pause) =>
      ok := ExecuteSetting(p, r, tx);
    case SetCooldown(secs) =>
      ok := ExecuteSetting(p, r, tx);
    case _ =>
      ok := ExecuteRegistry(p, r, tx);
  }

  method ExecuteSetting(p: P.ProgressContract, r: RegistrationContract, tx: Transaction<ContractCall>)
    returns (ok: bool)
    requires InStep(p, r)
    requires !tx.call.Move? && !tx.call.Register? && !tx.call.Deregister?
    requires !tx.call.Deactivate? && !tx.call.Reactivate?
    modifies p, r
    ensures InStep(p, r) && p.admin == old(p.admin)
    ensures ok <==> old(Accepts(p, r, tx))
    ensures SnapshotOf(p, r) == old(SnapshotOf(p, r)) && Effect(tx, p.admin, SnapshotOf(p, r), SnapshotOf(p, r))
    ensures ok && tx.call.WireVerification? ==>
              p.Settings() == old(p.Settings()).(verification := Some(tx.call.address)) && unchanged(r)
    ensures ok && tx.call.WireScoutAccess? ==>
              p.Settings() == old(p.Settings()).(scoutAccess := Some(tx.call.address)) && unchanged(r)
  {
    hide Mirrors, P.AllHold, P.AllHoldFully, LevelsAgree, ChainsHold;
    match tx.call
    case WireVerification(address, peerOk) =>
      var refused := p.SetVerificationContract(address, peerOk);
      ok := refused.None?;
    case WireScoutAccess(address, peerOk) =>
      var refused := p.SetScoutAccessContract(address, peerOk);
      ok := refused.None?;
    case PauseProgress(pause) =>
      var result := p.SetPaused(pause);
      ok := result.Ok?;
    case PauseRegistration(pause) =>
      var result := r.SetPaused(pause);
      ok := result.Ok?;
    case SetCooldown(secs) =>
      var result := r.SetRegCooldown(secs);
      ok := result.Ok?;
  }

  method ExecuteRegistry(p: P.ProgressContract, r: RegistrationContract, tx: Transaction<ContractCall>)
    returns (ok: bool)
    requires InStep(p, r)
    requires tx.call.Register? || tx.call.Deregister? || tx.call.Deactivate? || tx.call.Reactivate?
    modifies r
    ensures InStep(p, r) && r.Settings() == old(r.Settings())
    ensures ok <==> old(Accepts(p, r, tx))
    ensures if ok then Effect(tx, p.admin, old(SnapshotOf(p, r)), SnapshotOf(p, r))
            else SnapshotOf(p, r) == old(SnapshotOf(p, r))
  {
    hide Mirrors, P.AllHold, P.AllHoldFully, LevelsAgree, ChainsHold;
    hide Added, Removed, Without, CanonVitals, LengthsOk, HashesOk, StoredAs, CanonPosition, CanonRegion,
         CanonNationality;
    ghost var tracks, store, counter := p.tracks, r.store, r.playerCounter;
    match tx.call
    case Register(wallet, vitals, hashes) =>
      FreshIdFree(tracks, store, counter);
      var result := r.RegisterPlayer(wallet, vitals, hashes, tx.now);
      if result.Ok? {
        AgreeAfterRegister(tracks, store, counter, r.store.players[result.value]);
      }
      ok := result.Ok?;
    case Deregister(id) =>
      AgreeTracked(tracks, store, counter);
      var result := r.DeregisterPlayer(id);
      if result.Ok? {
        AgreeAfterErase(tracks, store, counter, id);
      }
      ok := result.Ok?;
    case Deactivate(id) =>
      var result := r.DeactivatePlayer(id);
      AgreeIgnoresFlags(tracks, store, r.store, counter);
      ok := result.Ok?;
    case Reactivate(id) =>
      var result := r.ReactivatePlayer(id);
      AgreeIgnoresFlags(tracks, store, r.store, counter);
      ok := result.Ok?;
  }

  method ExecuteMove(p: P.ProgressContract, r: RegistrationContract, move: P.MoveCall, tx: Transaction<ContractCall>)
    returns (ok: bool)
    requires InStep(p, r) && tx.call == Move(move)
    modifies p, r
    ensures InStep(p, r) && p.Settings() == old(p.Settings()) && r.Settings() == old(r.Settings())
    ensures ok <==> old(Accepts(p, r, tx))
    ensures if ok then Effect(tx, p.admin, old(SnapshotOf(p, r)), SnapshotOf(p, r))
            else SnapshotOf(p, r) == old(SnapshotOf(p, r))
  {
    hide Mirrors, P.AllHold, P.AllHoldFully, LevelsAgree, ChainsHold, P.LevelSynced, LevelChain;
    ghost var tracks, store, counter := p.tracks, r.store, r.playerCounter;
    ghost var step := move.StepAt(p.admin, tx.now, tx.ledger);
    ok := p.Move(move, tx.now, tx.ledger);
    if ok {
      SyncedIds(store, r.store, move.id, Target(P.TrackOf(tracks, move.id), step).value);
      AgreeAfterMove(tracks, store, counter, p.tracks, r.store, move.id, step);
    }
  }

  // ----- whole runs --------------------------------------------------------------------

  ghost function Effects(admin: Address): (Transaction<ContractCall>, Snapshot, Snapshot) -> bool {
    (tx, before, after) => Effect(tx, admin, before, after)
  }

  /** The states between the transactions of a run on a fresh deployment. */
  ghost predicate RunOf(txs: seq<Transaction<ContractCall>>, oks: seq<bool>, admin: Address,
                        states: seq<Snapshot>)
  {
    Trace(txs, oks, states, Effects(admin)) && states[0] == Snapshot(map[], {}, 0)
  }

  /** Every run of transactions on a fresh deployment. */
  method ExecuteAll(address: Address, admin: Address, txs: seq<Transaction<ContractCall>>)
    returns (p: P.ProgressContract, r: RegistrationContract, oks: seq<bool>, ghost states: seq<Snapshot>)
    ensures InStep(p, r)
    ensures |oks| == |txs| && RunOf(txs, oks, admin, states) && states[|txs|] == SnapshotOf(p, r)
  {
    hide InStep, Effect, Accepts;
    p, r := Deploy(address, admin);
    oks, states := [], [SnapshotOf(p, r)];
    assert SnapshotOf(p, r) == Snapshot(map[], {}, 0);
    for i := 0 to |txs|
      invariant fresh(p) && fresh(r) && InStep(p, r) && p.admin == admin
      invariant |oks| == i && |states| == i + 1 && RunOf(txs, oks, admin, states)
      invariant states[i] == SnapshotOf(p, r)
    {
      var ok := Execute(p, r, txs[i]);
      TraceNext(txs, oks, states, Effects(admin), ok, SnapshotOf(p, r));
      oks, states := oks + [ok], states + [SnapshotOf(p, r)];
    }
  }

  /** While an id is not registered, because it was never given out or was deregistered, its
      history and level do not change. */
  lemma {:induction false} UnregisteredKeepsTrack(
    txs: seq<Transaction<ContractCall>>, oks: seq<bool>, admin: Address, states: seq<Snapshot>,
    id: u64, i: nat, j: nat)
    requires RunOf(txs, oks, admin, states) && i <= j <= |oks|
    requires forall k :: i <= k < j ==> id !in states[k].ids
    ensures P.TrackOf(states[j].tracks, id) == P.TrackOf(states[i].tracks, id)
    decreases j - i
  {
    if i < j {
      UnregisteredKeepsTrack(txs, oks, admin, states, id, i, j - 1);
      assert id !in states[j - 1].ids;
    }
  }

  /** An id that was deregistered is never registered again. */
  lemma {:induction false} DeregisteredStaysOut(
    txs: seq<Transaction<ContractCall>>, oks: seq<bool>, admin: Address, states: seq<Snapshot>,
    id: u64, i: nat, j: nat)
    requires RunOf(txs, oks, admin, states) && i <= j <= |oks|
    requires id <= states[i].counter && id !in states[i].ids
    ensures id <= states[j].counter && id !in states[j].ids
    ensures P.TrackOf(states[j].tracks, id) == P.TrackOf(states[i].tracks, id)
    decreases j - i
  {
    if i < j {
      DeregisteredStaysOut(txs, oks, admin, states, id, i, j - 1);
    }
  }

  /** With the verification contract wired and nothing paused, a call of it takes any registered
      player below the top one tier up. */
  method AdvanceOneTier(p: P.ProgressContract, r: RegistrationContract, verifier: Address, id: u64,
                        now: u64, ledger: u32)
    requires InStep(p, r) && p.initialized && !p.paused
    requires p.verification.Some? && p.scoutAccess != Some(verifier)
    requires id in r.store.players && p.GetLevel(id) != EliteTier
    requires |P.TrackOf(p.tracks, id).log| < U32_MAX
    modifies p, r
    ensures InStep(p, r) && p.Settings() == old(p.Settings())
    ensures r.store.players.Keys == old(r.store.players.Keys)
    ensures Some(p.GetLevel(id)) == old(p.GetLevel(id)).Next()
    ensures |P.TrackOf(p.tracks, id).log| == |P.TrackOf(old(p.tracks), id).log| + 1
  {
    hide InStep, Accepts, Effect;
    LevelRead(p, r, id);
    ghost var before, tx := SnapshotOf(p, r), Transaction(Move(P.AdvanceBy(verifier, id, 0, 0)), now, ledger);
    AdvanceOpen(p, r, verifier, id, now, ledger);
    var advanced := Execute(p, r, Transaction(Move(P.AdvanceBy(verifier, id, 0, 0)), now, ledger));
    AdvanceRaises(tx, p.admin, before, SnapshotOf(p, r));
    LevelRead(p, r, id);
  }

  lemma AdvanceOpen(p: P.ProgressContract, r: RegistrationContract, verifier: Address, id: u64,
                    now: u64, ledger: u32)
    requires InStep(p, r) && p.initialized && !p.paused
    requires p.verification.Some? && p.scoutAccess != Some(verifier)
    requires id in r.store.players && p.GetLevel(id) != EliteTier
    requires |P.TrackOf(p.tracks, id).log| < U32_MAX
    ensures Accepts(p, r, Transaction(Move(P.AdvanceBy(verifier, id, 0, 0)), now, ledger))
  {
    hide InStep;
    LevelRead(p, r, id);
    Connected(p, r);
    assert p.SyncRefusal(id) == None;
    assert p.AdvanceRefusal(id, false, 0, 0) == None;
  }

  lemma Connected(p: P.ProgressContract, r: RegistrationContract)
    requires InStep(p, r)
    ensures p.registration == r && r.progressContract == Some(p.address)
  {
  }

  lemma AdvanceRaises(tx: Transaction<ContractCall>, admin: Address, before: Snapshot, after: Snapshot)
    requires Effect(tx, admin, before, after) && tx.call.Move? && tx.call.move.AdvanceBy?
    ensures var id := tx.call.move.id;
      && after.ids == before.ids
      && Some(Current(P.TrackOf(after.tracks, id))) == Current(P.TrackOf(before.tracks, id)).Next()
      && |P.TrackOf(after.tracks, id).log| == |P.TrackOf(before.tracks, id).log| + 1
  {
  }

  /** Runs do reach the top: any player with valid vitals signs up on a fresh deployment and is
      taken up tier by tier, in both contracts, once the verification contract is wired. */
  method SignUpAndClimb(address: Address, admin: Address, verifier: Address, wallet: Address,
                        vitals: Vitals, hashes: seq<Text>, now: u64, ledger: u32)
    returns (p: P.ProgressContract, r: RegistrationContract)
    requires LengthsOk(vitals) && CanonVitals(vitals).Some? && HashesOk(hashes)
    ensures InStep(p, r) && r.store.players.Keys == {1}
    ensures p.GetLevel(1) == EliteTier && 1 in r.store.levels && r.store.levels[1] == EliteTier
    ensures |P.TrackOf(p.tracks, 1).log| == 3
  {
    hide InStep, CanonVitals, LengthsOk, HashesOk, CanonPosition, CanonRegion, CanonNationality;
    p, r := Deploy(address, admin);
    var wired := Execute(p, r, Transaction(WireVerification(verifier, true), now, ledger));
    var registered := Execute(p, r, Transaction(Register(wallet, vitals, hashes), now, ledger));
    assert registered;
    LevelRead(p, r, 1);
    for tier := 0 to 3
      invariant fresh(p) && fresh(r) && InStep(p, r) && r.store.players.Keys == {1}
      invariant p.Settings() == P.ProgressSettings(true, false, false, false, admin, r, Some(verifier), None)
      invariant p.GetLevel(1).Rank() == tier == |P.TrackOf(p.tracks, 1).log|
    {
      AdvanceOneTier(p, r, verifier, 1, now, ledger);
    }
    LevelRead(p, r, 1);
  }

  lemma LevelRead(p: P.ProgressContract, r: RegistrationContract, id: u64)
    requires InStep(p, r)
    ensures p.GetLevel(id) == Current(P.TrackOf(p.tracks, id))
    ensures Count(P.StoreOf(p.players, id)) == |P.TrackOf(p.tracks, id).log|
    ensures id in r.store.players ==> id in r.store.levels && r.store.levels[id] == p.GetLevel(id)
  {
    P.HeldTrack(p.players, p.tracks, id);
  }

  /** A call of the scout-access contract for an existing milestone takes any registered player
      below the top one tier up as well, and the scout is recorded. */
  method AdvanceForScoutOnce(p: P.ProgressContract, r: RegistrationContract, scout: Address, id: u64,
                             milestoneRef: u32, milestoneCount: u32, now: u64, ledger: u32)
    requires InStep(p, r) && p.initialized && !p.paused
    requires p.verification.Some? && p.scoutAccess.Some? && 1 <= milestoneRef <= milestoneCount
    requires id in r.store.players && p.GetLevel(id) != EliteTier
    requires |P.TrackOf(p.tracks, id).log| < U32_MAX
    modifies p, r
    ensures InStep(p, r) && p.Settings() == old(p.Settings())
    ensures r.store.players.Keys == old(r.store.players.Keys)
    ensures Some(p.GetLevel(id)) == old(p.GetLevel(id)).Next()
    ensures P.TrackOf(p.tracks, id).log == P.TrackOf(old(p.tracks), id).log
            + [ProgressEntry(id, old(p.GetLevel(id)), p.GetLevel(id), scout, now, milestoneRef, ledger)]
  {
    hide InStep, Accepts, Effect;
    LevelRead(p, r, id);
    ghost var before := SnapshotOf(p, r);
    var tx := Transaction(Move(P.AdvanceForScout(scout, id, milestoneRef, milestoneCount)), now, ledger);
    ScoutOpen(p, r, tx);
    var advanced := Execute(p, r, tx);
    ScoutRaises(tx, p.admin, before, SnapshotOf(p, r));
    LevelRead(p, r, id);
  }

  /** The admin moves any registered player to any other level. */
  method ResetOnce(p: P.ProgressContract, r: RegistrationContract, id: u64, target: ProgressLevel,
                   now: u64, ledger: u32)
    requires InStep(p, r) && p.initialized && !p.paused
    requires id in r.store.players && p.GetLevel(id) != target
    requires |P.TrackOf(p.tracks, id).log| < U32_MAX
    modifies p, r
    ensures InStep(p, r) && p.Settings() == old(p.Settings())
    ensures r.store.players.Keys == old(r.store.players.Keys)
    ensures p.GetLevel(id) == target && id in r.store.levels && r.store.levels[id] == target
    ensures P.TrackOf(p.tracks, id).log == P.TrackOf(old(p.tracks), id).log
            + [ProgressEntry(id, old(p.GetLevel(id)), target, p.admin, now, 0, ledger)]
  {
    hide InStep, Accepts, Effect;
    LevelRead(p, r, id);
    ghost var before := SnapshotOf(p, r);
    var tx := Transaction(Move(P.ResetLevel(id, target)), now, ledger);
    ResetOpen(p, r, tx);
    var done := Execute(p, r, tx);
    ResetMoves(tx, p.admin, before, SnapshotOf(p, r));
    LevelRead(p, r, id);
  }

  lemma ScoutOpen(p: P.ProgressContract, r: RegistrationContract, tx: Transaction<ContractCall>)
    requires InStep(p, r) && p.initialized && !p.paused
    requires tx.call.Move? && tx.call.move.AdvanceForScout?
    requires p.verification.Some? && p.scoutAccess.Some?
    requires 1 <= tx.call.move.milestoneRef <= tx.call.move.milestoneCount
    requires tx.call.move.id in r.store.players && p.GetLevel(tx.call.move.id) != EliteTier
    requires |P.TrackOf(p.tracks, tx.call.move.id).log| < U32_MAX
    ensures Accepts(p, r, tx)
  {
    hide InStep;
    LevelRead(p, r, tx.call.move.id);
    Connected(p, r);
    assert p.SyncRefusal(tx.call.move.id) == None;
  }

  lemma ScoutRaises(tx: Transaction<ContractCall>, admin: Address, before: Snapshot, after: Snapshot)
    requires Effect(tx, admin, before, after) && tx.call.Move? && tx.call.move.AdvanceForScout?
    ensures var m := tx.call.move;
      var t, t' := P.TrackOf(before.tracks, m.id), P.TrackOf(after.tracks, m.id);
      && after.ids == before.ids
      && Some(Current(t')) == Current(t).Next()
      && t'.log == t.log + [ProgressEntry(m.id, Current(t), Current(t'), m.scout, tx.now, m.milestoneRef, tx.ledger)]
  {
  }

  lemma ResetOpen(p: P.ProgressContract, r: RegistrationContract, tx: Transaction<ContractCall>)
    requires InStep(p, r) && p.initialized && !p.paused
    requires tx.call.Move? && tx.call.move.ResetLevel?
    requires tx.call.move.id in r.store.players && p.GetLevel(tx.call.move.id) != tx.call.move.target
    requires |P.TrackOf(p.tracks, tx.call.move.id).log| < U32_MAX
    ensures Accepts(p, r, tx)
  {
    hide InStep;
    LevelRead(p, r, tx.call.move.id);
    Connected(p, r);
    assert p.SyncRefusal(tx.call.move.id) == None;
  }

  lemma ResetMoves(tx: Transaction<ContractCall>, admin: Address, before: Snapshot, after: Snapshot)
    requires Effect(tx, admin, before, after) && tx.call.Move? && tx.call.move.ResetLevel?
    ensures var m := tx.call.move;
      var t, t' := P.TrackOf(before.tracks, m.id), P.TrackOf(after.tracks, m.id);
      && after.ids == before.ids && Current(t') == m.target
      && t'.log == t.log + [ProgressEntry(m.id, Current(t), m.target, admin, tx.now, 0, tx.ledger)]
  {
  }

  /** A run with a scout advance and a reset: a player signs up, is taken up by the scout-access
      contract and put back by the admin. */
  method ScoutAndReset(address: Address, admin: Address, verifier: Address, access: Address,
                       scout: Address, wallet: Address, vitals: Vitals, hashes: seq<Text>,
                       now: u64, ledger: u32)
    returns (p: P.ProgressContract, r: RegistrationContract)
    requires LengthsOk(vitals) && CanonVitals(vitals).Some? && HashesOk(hashes)
    ensures InStep(p, r) && r.store.players.Keys == {1} && p.GetLevel(1) == Unverified
    ensures P.TrackOf(p.tracks, 1).log
         == [ProgressEntry(1, Unverified, VerifiedIdentity, scout, now, 1, ledger),
             ProgressEntry(1, VerifiedIdentity, Unverified, admin, now, 0, ledger)]
  {
    hide InStep, CanonVitals, LengthsOk, HashesOk, CanonPosition, CanonRegion, CanonNationality;
    p, r := Deploy(address, admin);
    var wired := Execute(p, r, Transaction(WireVerification(verifier, true), now, ledger));
    var wiredAccess := Execute(p, r, Transaction(WireScoutAccess(access, true), now, ledger));
    var registered := Execute(p, r, Transaction(Register(wallet, vitals, hashes), now, ledger));
    assert registered;
    LevelRead(p, r, 1);
    AdvanceForScoutOnce(p, r, scout, 1, 1, 1, now, ledger);
    ResetOnce(p, r, 1, Unverified, now, ledger);
  }

  // ----- what a query returns ----------------------------------------------------------

  /** The players a query should find, by what the progress contract says of their level. */
  ghost function Eligible(p: P.ProgressContract, r: RegistrationContract,
                          region: Text, position: Text, minLevel: ProgressLevel): set<u64>
    reads p, r
  {
    set id | && id in r.store.players
             && id !in r.store.deactivated
             && (region != [] ==> CanonRegion(region) == Some(r.store.players[id].vitals.region))
             && (position != [] ==> CanonPosition(position) == Some(r.store.players[id].vitals.position))
             && p.GetLevel(id).Rank() >= minLevel.Rank()
  }

  lemma FiledIsLevels(s: Registry, filed: map<u64, ProgressLevel>)
    requires Mirrors(s, filed) && s.levels.Keys == s.players.Keys
    ensures filed == s.levels
    ensures Lists(s.playerIndex, s.players.Keys)
    ensures RegionViews(s.byRegion, s.players, s.levels)
  {
  }

  lemma CanonNonEmpty(region: Text, position: Text)
    ensures CanonRegion(region).Some? ==> CanonRegion(region).value != []
    ensures CanonPosition(position).Some? ==> CanonPosition(position).value != []
  {
  }

  lemma LevelResolved(p: P.ProgressContract, r: RegistrationContract, remote: u64 -> ProgressLevel, id: u64)
    requires InStep(p, r) && id in r.store.players
    ensures LevelOf(r.Primary(), remote, id) == p.GetLevel(id)
  {
    P.HeldTrack(p.players, p.tracks, id);
  }

  lemma EligibleIsMatchSet(p: P.ProgressContract, r: RegistrationContract,
                           remote: u64 -> ProgressLevel, region: Text, position: Text,
                           minLevel: ProgressLevel)
    requires InStep(p, r)
    requires FilterRegion(region).Some? && FilterPosition(position).Some?
    ensures MatchSet(r.Primary(), remote, FilterRegion(region).value, FilterPosition(position).value, minLevel)
         == Eligible(p, r, region, position, minLevel)
  {
    hide Mirrors, P.AllHold, P.AllHoldFully, ChainsHold, CanonRegion, CanonPosition;
    CanonNonEmpty(region, position);
    forall id | id in r.store.players
      ensures LevelOf(r.Primary(), remote, id) == p.GetLevel(id)
    {
      LevelResolved(p, r, remote, id);
    }
  }

  /** With the contracts in step, a query lists exactly the registered players that are not
      deactivated, match the region and position, and whose level in the progress contract is
      at least the one asked for; each once. */
  lemma QueryFollowsProgress(p: P.ProgressContract, r: RegistrationContract,
                             remote: u64 -> ProgressLevel, region: Text, position: Text,
                             minLevel: ProgressLevel)
    requires InStep(p, r)
    requires FilterRegion(region).Some? && FilterPosition(position).Some?
    ensures r.QueryListing(remote, region, position, minLevel).Some?
    ensures Lists(r.QueryListing(remote, region, position, minLevel).value,
                  Eligible(p, r, region, position, minLevel))
  {
    FiledIsLevels(r.store, r.filed);
    var cr, cp := FilterRegion(region).value, FilterPosition(position).value;
    ListingIsMatchSetIff(r.Primary(), remote, r.store.playerIndex, r.store.byRegion, r.filed, cr, cp, minLevel);
    EligibleIsMatchSet(p, r, remote, region, position, minLevel);
  }

  lemma OnlyPlayersDeactivated(s: Registry, filed: map<u64, ProgressLevel>)
    requires Mirrors(s, filed)
    ensures s.deactivated <= s.players.Keys
  {
  }

  lemma StoredUnder(before: Registry, after: Registry, id: u64, wallet: Address, vitals: Vitals,
                    hashes: seq<Text>, registeredAt: u64, updatedAt: u64, level: ProgressLevel)
    requires StoredAs(before, after, id, wallet, vitals, hashes, registeredAt, updatedAt, level)
    ensures id in after.players && after.players[id].playerId == id
  {
  }

  /** On the wired pair a sign-up is found at once: any query with the region and position given at
      the sign-up, in any accepted spelling, lists the new id. */
  method RegisterAndFind(p: P.ProgressContract, r: RegistrationContract, wallet: Address, vitals: Vitals,
                         hashes: seq<Text>, now: u64, remote: u64 -> ProgressLevel,
                         region: Text, position: Text)
    returns (result: Result<u64, ScoutChainError>)
    requires InStep(p, r)
    requires region == [] || CanonRegion(region) == CanonRegion(vitals.region)
    requires position == [] || CanonPosition(position) == CanonPosition(vitals.position)
    modifies r
    ensures InStep(p, r)
    ensures result.Ok? ==>
      && r.QueryListing(remote, region, position, Unverified).Some?
      && result.value in r.QueryListing(remote, region, position, Unverified).value
  {
    hide Mirrors, P.AllHold, P.AllHoldFully, LevelsAgree, ChainsHold, StoredAs, Listing,
         FilterRegion, FilterPosition, CanonRegion, CanonPosition, Added, CanonVitals, LengthsOk, HashesOk;
    ghost var tracks, store, counter := p.tracks, r.store, r.playerCounter;
    FreshIdFree(tracks, store, counter);
    result := r.RegisterPlayer(wallet, vitals, hashes, now);
    if result.Ok? {
      StoredUnder(store, r.store, result.value, wallet, vitals, hashes, now, now, Unverified);
      AgreeAfterRegister(tracks, store, counter, r.store.players[result.value]);
      OnlyPlayersDeactivated(store, old(r.filed));
      StoredIsListed(store, r.store, r.filed, remote, result.value, wallet, vitals, hashes, now, now,
                     Unverified, region, position, Unverified);
    }
  }

  /** Everything the pages of a query have shown so far. */
  ghost predicate PagedTo(t: Tables, remote: u64 -> ProgressLevel, list: seq<u64>, upTo: nat,
                          profiles: seq<PlayerProfile>)
  {
    && (forall id :: id in list ==> id in t.players)
    && upTo <= |list|
    && profiles == Profiles(t, remote, list[..upTo])
  }

  lemma PagedNext(t: Tables, remote: u64 -> ProgressLevel, list: seq<u64>, upTo: nat, size: nat,
                  profiles: seq<PlayerProfile>)
    requires PagedTo(t, remote, list, upTo, profiles) && size >= 1
    ensures forall id :: id in PageOf(list, upTo, size) ==> id in t.players
    ensures PagedTo(t, remote, list, Min(upTo + size, |list|),
                    profiles + Profiles(t, remote, PageOf(list, upTo, size)))
  {
    var next := Min(upTo + size, |list|);
    assert list[..next] == list[..upTo] + PageOf(list, upTo, size);
  }

  lemma InStepValid(p: P.ProgressContract, r: RegistrationContract)
    requires InStep(p, r)
    ensures r.Valid()
  {
  }

  lemma QueryBounded(p: P.ProgressContract, r: RegistrationContract, remote: u64 -> ProgressLevel,
                     region: Text, position: Text, minLevel: ProgressLevel)
    requires InStep(p, r)
    requires r.QueryListing(remote, region, position, minLevel).Some?
    ensures var list := r.QueryListing(remote, region, position, minLevel).value;
      && (forall id :: id in list ==> id in r.store.players)
      && |list| <= |r.store.playerIndex| <= U32_MAX
  {
    hide P.AllHold, P.AllHoldFully, LevelsAgree, ChainsHold, RegionViews, Listing;
    ListingBounded(r.Primary(), remote, r.store.playerIndex, r.store.byRegion, r.filed,
                   FilterRegion(region).value, FilterPosition(position).value, minLevel);
  }

  lemma NothingPaged(t: Tables, remote: u64 -> ProgressLevel, list: seq<u64>)
    requires forall id :: id in list ==> id in t.players
    ensures PagedTo(t, remote, list, 0, [])
  {
  }

  function IdsOf(profiles: seq<PlayerProfile>): (ids: seq<u64>)
    ensures |ids| == |profiles|
    ensures forall i :: 0 <= i < |ids| ==> ids[i] == profiles[i].stored.playerId
  {
    seq(|profiles|, i requires 0 <= i < |profiles| => profiles[i].stored.playerId)
  }

  lemma OwnIds(p: P.ProgressContract, r: RegistrationContract)
    requires InStep(p, r)
    ensures forall id :: id in r.store.players ==> r.store.players[id].playerId == id
  {
  }

  lemma AllPaged(p: P.ProgressContract, r: RegistrationContract, remote: u64 -> ProgressLevel,
                 list: seq<u64>, profiles: seq<PlayerProfile>)
    requires InStep(p, r) && PagedTo(r.Primary(), remote, list, |list|, profiles)
    ensures IdsOf(profiles) == list
    ensures forall i :: 0 <= i < |profiles| ==>
              var id := profiles[i].stored.playerId;
              id in r.store.players && profiles[i] == PlayerProfile(r.store.players[id], p.GetLevel(id))
  {
    OwnIds(p, r);
    hide InStep;
    assert list[..|list|] == list;
    forall i | 0 <= i < |list| ensures LevelOf(r.Primary(), remote, list[i]) == p.GetLevel(list[i]) {
      LevelResolved(p, r, remote, list[i]);
    }
  }

  /** One call of a client that collects pages. */
  method NextPage(r: RegistrationContract, remote: u64 -> ProgressLevel, region: Text, position: Text,
                  minLevel: ProgressLevel, cursor: u32, limit: u32, before: seq<PlayerProfile>,
                  ghost list: seq<u64>)
    returns (profiles: seq<PlayerProfile>, next: u32)
    requires r.Valid() && r.initialized
    requires r.QueryListing(remote, region, position, minLevel) == Some(list) && |list| <= U32_MAX
    requires PagedTo(r.Primary(), remote, list, cursor, before)
    ensures next == 0 ==> PagedTo(r.Primary(), remote, list, |list|, profiles)
    ensures next > 0 ==> PagedTo(r.Primary(), remote, list, next, profiles) && cursor < next < |list|
  {
    hide Mirrors, Profiles, PagedTo, PageOf, RegistrationContract.QueryListing;
    var result := r.FilterPlayers(region, position, minLevel, cursor, limit, remote);
    PagedNext(r.Primary(), remote, list, cursor, Clamp(limit, 1, 50), before);
    return before + result.value.profiles, result.value.nextCursor;
  }

  /** The loop of a client: from cursor 0, feed the returned cursor back until it is 0, with any
      limits.  On the wired pair it ends and receives the profile of every eligible player exactly
      once, with the level the progress contract gives the player. */
  method PageThrough(p: P.ProgressContract, r: RegistrationContract, remote: u64 -> ProgressLevel,
                     region: Text, position: Text, minLevel: ProgressLevel, limits: seq<u32>)
    returns (profiles: seq<PlayerProfile>)
    requires InStep(p, r) && r.initialized
    requires FilterRegion(region).Some? && FilterPosition(position).Some?
    requires |limits| >= 1 && |limits| >= |r.store.playerIndex|
    ensures Lists(IdsOf(profiles), Eligible(p, r, region, position, minLevel))
    ensures forall i :: 0 <= i < |profiles| ==>
              var id := profiles[i].stored.playerId;
              id in r.store.players && profiles[i] == PlayerProfile(r.store.players[id], p.GetLevel(id))
  {
    hide InStep, Mirrors, Eligible, PagedTo, Lists, Profiles, FilterRegion, FilterPosition,
         RegistrationContract.QueryListing, P.AllHold, P.AllHoldFully;
    QueryFollowsProgress(p, r, remote, region, position, minLevel);
    QueryBounded(p, r, remote, region, position, minLevel);
    InStepValid(p, r);
    ghost var ids := r.QueryListing(remote, region, position, minLevel).value;
    NothingPaged(r.Primary(), remote, ids);
    profiles := [];
    var cursor: u32 := 0;
    var i, more := 0, true;
    while more
      invariant 0 <= i
      invariant PagedTo(r.Primary(), remote, ids, if more then cursor else |ids|, profiles)
      invariant more ==> i <= cursor && (i == 0 || cursor < |ids|)
      decreases more, |limits| - i
    {
      var next;
      profiles, next := NextPage(r, remote, region, position, minLevel, cursor, limits[i], profiles, ids);
      cursor, more := next, next != 0;
      i := i + 1;
    }
    AllPaged(p, r, remote, ids, profiles);
  }
}
