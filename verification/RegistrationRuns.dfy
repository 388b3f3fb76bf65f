/** Every reachable state of the registration contract, wiring, admin seeding and level changes
    included (contracts/registration/src/lib.rs:318-418, 435-495, 503-634, 659-726, 769-823,
    968-1060). */
module RegistrationRuns {
  import opened Prelude
  import opened SharedTypes
  import opened Canonical
  import opened IndexViews
  import opened Directory
  import opened Registration
  import opened Runs

  datatype RegistrationCall =
    | WireProgress(peer: Address, peerOk: bool)
    | SetPaused(pause: bool)
    | SetCooldown(secs: u64)
    | Register(wallet: Address, vitals: Vitals, hashes: seq<Text>)
    | Seed(wallet: Address, vitals: Vitals, hashes: seq<Text>, level: ProgressLevel, seededId: u64,
           registeredAt: u64, updatedAt: u64)
    | SetLevel(caller: Address, id: u64, level: ProgressLevel)
    | Deregister(id: u64)
    | Deactivate(id: u64)
    | Reactivate(id: u64)

  /** The tables and the id counter. */
  datatype Snapshot = Snapshot(store: Registry, counter: u64)

  /** A state in which the indexes mirror the table and every player has a stored level; the
      ids above the counter are among those the admin seeded. */
  ghost predicate Sound(r: RegistrationContract, seeded: set<u64>)
    reads r
  {
    r.Valid() && r.Tracked()
    && forall id :: id in r.store.players ==> id <= r.playerCounter || id in seeded
  }

  function SeededId(call: RegistrationCall): set<u64> {
    if call.Seed? then {call.seededId} else {}
  }

  /** Exactly when a transaction goes through. */
  predicate Accepts(r: RegistrationContract, tx: Transaction<RegistrationCall>)
    reads r
  {
    match tx.call
    case WireProgress(_, peerOk) => r.initialized && peerOk
    case SetPaused(_) => r.initialized
    case SetCooldown(secs) => r.initialized && secs <= MAX_REG_COOLDOWN_SECS
    case Register(wallet, vitals, hashes) => r.RegisterRefusal(wallet, vitals, hashes, tx.now) == None
    case Seed(wallet, vitals, hashes, _, id, _, _) =>
      r.SeedRefusal(wallet, vitals, hashes, id) == None && |r.store.playerIndex| < U32_MAX
    case SetLevel(caller, id, _) => r.progressContract == Some(caller) && id in r.store.players
    case Deregister(id) => r.initialized && id in r.store.players
    case Deactivate(id) => r.initialized && id in r.store.players
    case Reactivate(id) => r.initialized && id in r.store.players
  }

  /** What a transaction that goes through makes of the tables. */
  ghost predicate Effect(before: Snapshot, after: Snapshot, tx: Transaction<RegistrationCall>) {
    var s := before.store;
    match tx.call
    case Register(wallet, vitals, hashes) =>
      && s.liveCount < U64_MAX && CanonVitals(vitals).Some? && after.counter == before.counter + 1
      && after.store == Filed(s, StoredPlayer(after.counter, wallet, CanonVitals(vitals).value,
                                              hashes, tx.now, tx.now), Unverified)
    case Seed(wallet, vitals, hashes, level, id, registeredAt, updatedAt) =>
      && s.liveCount < U64_MAX && CanonVitals(vitals).Some? && after.counter == before.counter
      && after.store == Filed(s, StoredPlayer(id, wallet, CanonVitals(vitals).value,
                                              hashes, registeredAt, updatedAt), level)
    case SetLevel(_, id, level) =>
      && id in s.players && id in s.levels
      && after == before.(store := Moved(s, id, s.levels[id], level, tx.now))
    case Deregister(id) =>
      && id in s.players && id in s.levels
      && after == before.(store := Erased(s, id, s.levels[id]))
    case Deactivate(id) => after == before.(store := s.(deactivated := s.deactivated + {id}))
    case Reactivate(id) => after == before.(store := s.(deactivated := s.deactivated - {id}))
    case _ => after == before
  }

  function SnapshotOf(r: RegistrationContract): Snapshot
    reads r
  {
    Snapshot(r.store, r.playerCounter)
  }

  lemma RegisterableVitals(r: RegistrationContract, wallet: Address, vitals: Vitals, hashes: seq<Text>, now: u64)
    ensures r.RegisterRefusal(wallet, vitals, hashes, now) == None ==> CanonVitals(vitals).Some?
  {
  }

  lemma IndexFits(s: Registry, filed: map<u64, ProgressLevel>)
    requires Mirrors(s, filed)
    ensures |s.playerIndex| <= U32_MAX
  {
  }

  lemma FiledAsStored(s: Registry, filed: map<u64, ProgressLevel>, id: u64)
    requires Mirrors(s, filed)
    ensures id in s.levels ==> id in filed && filed[id] == s.levels[id]
  {
  }

  /** One transaction: accepted exactly when its guards hold, with its effect, or without any.
      It stops the run only when it registers a player under an id that the admin seeded ahead
      of the counter; otherwise every index is right again. */
  method Execute(r: RegistrationContract, tx: Transaction<RegistrationCall>, ghost seeded: set<u64>)
    returns (ok: bool, collided: bool)
    requires Sound(r, seeded)
    modifies r
    ensures ok <==> old(Accepts(r, tx))
    ensures !ok ==> !collided && SnapshotOf(r) == old(SnapshotOf(r)) && r.Settings() == old(r.Settings())
    ensures ok ==> Effect(old(SnapshotOf(r)), SnapshotOf(r), tx)
    ensures r.Settings() == if !ok then old(r.Settings()) else
      match tx.call
      case WireProgress(peer, _) => old(r.Settings()).(progressContract := Some(peer))
      case SetPaused(pause) => old(r.Settings()).(paused := pause)
      case SetCooldown(secs) => old(r.Settings()).(cooldownSecs := Some(secs))
      case _ => old(r.Settings())
    ensures r.lastSent == if ok && tx.call.Register? then old(r.lastSent)[tx.call.wallet := tx.now]
                          else old(r.lastSent)
    ensures !collided ==> Sound(r, seeded + SeededId(tx.call))
    ensures collided <==> ok && tx.call.Register? && r.playerCounter in old(r.store.players)
    ensures collided ==> r.playerCounter in seeded && !r.Valid()
  {
    hide Mirrors, Added, Removed, Without, CanonVitals, LengthsOk, HashesOk, StoredAs, CanonPosition, CanonRegion,
         CanonNationality;
    var players := r.store.players;
    collided := false;
    match tx.call
    case WireProgress(peer, peerOk) =>
      var result := r.SetProgressContract(peer, peerOk);
      ok := result.Ok?;
    case SetPaused(pause) =>
      var result := r.SetPaused(pause);
      ok := result.Ok?;
    case SetCooldown(secs) =>
      var result := r.SetRegCooldown(secs);
      ok := result.Ok?;
    case Register(wallet, vitals, hashes) =>
      RegisterableVitals(r, wallet, vitals, hashes, tx.now);
      var result := r.RegisterPlayer(wallet, vitals, hashes, tx.now);
      ok := result.Ok?;
      collided := ok && r.playerCounter in players;
    case Seed(wallet, vitals, hashes, level, id, registeredAt, updatedAt) =>
      IndexFits(r.store, r.filed);
      var result := r.AdminSeedPlayer(wallet, vitals, hashes, level, id, registeredAt, updatedAt);
      ok := result.Some? && result.value.Ok?;
    case SetLevel(caller, id, level) =>
      FiledAsStored(r.store, r.filed, id);
      var result := r.SetPlayerLevel(caller, id, level, tx.now);
      ok := result == Some(Ok(()));
    case Deregister(id) =>
      var result := r.DeregisterPlayer(id);
      ok := result.Ok?;
    case Deactivate(id) =>
      var result := r.DeactivatePlayer(id);
      ok := result.Ok?;
    case Reactivate(id) =>
      var result := r.ReactivatePlayer(id);
      ok := result.Ok?;
  }

  function AllSeeded(txs: seq<Transaction<RegistrationCall>>): (ids: set<u64>)
    ensures forall id :: id in ids <==> exists i :: 0 <= i < |txs| && id in SeededId(txs[i].call)
  {
    set i | 0 <= i < |txs| && txs[i].call.Seed? :: txs[i].call.seededId
  }

  ghost function Effects(): (Transaction<RegistrationCall>, Snapshot, Snapshot) -> bool {
    (tx, before, after) => Effect(before, after, tx)
  }

  /** Every run on a fresh contract: as long as no registration is given an id the admin seeded
      ahead of the counter, every index mirrors the player table.  In particular a run without
      admin seeding never breaks an index. */
  method ExecuteAll(txs: seq<Transaction<RegistrationCall>>)
    returns (r: RegistrationContract, done: nat, oks: seq<bool>, ghost states: seq<Snapshot>)
    ensures done <= |txs|
    ensures done == |txs| ==> r.Valid() && r.Tracked()
    ensures done < |txs| ==> txs[done].call.Register? && r.playerCounter in AllSeeded(txs[..done])
    ensures (forall i :: 0 <= i < |txs| ==> !txs[i].call.Seed?) ==> done == |txs|
    ensures Trace(txs, oks, states, Effects()) && |oks| == done
    ensures states[0] == Snapshot(NO_PLAYERS, 0)
    ensures done == |txs| ==> states[done] == SnapshotOf(r)
  {
    hide Mirrors, AllSeeded, Effect, Accepts;
    r := new RegistrationContract();
    done, oks, states := 0, [], [SnapshotOf(r)];
    while done < |txs|
      invariant fresh(r) && done <= |txs|
      invariant Sound(r, AllSeeded(txs[..done]))
      invariant Trace(txs, oks, states, Effects()) && |oks| == done && |states| == done + 1
      invariant states[0] == Snapshot(NO_PLAYERS, 0) && states[done] == SnapshotOf(r)
    {
      var ok, collided := Execute(r, txs[done], AllSeeded(txs[..done]));
      if collided {
        return;
      }
      assert txs[..done + 1] == txs[..done] + [txs[done]];
      SeededNext(txs[..done], txs[done]);
      TraceNext(txs, oks, states, Effects(), ok, SnapshotOf(r));
      oks, states := oks + [ok], states + [SnapshotOf(r)];
      done := done + 1;
    }
  }

  /** Runs do reach level changes: whatever the admin seeds first, once the progress contract is
      wired the seeded player moves to any other list, and no index is left behind. */
  method SeedWireMove(wallet: Address, vitals: Vitals, hashes: seq<Text>, id: u64, now: u64, ledger: u32,
                      progress: Address, from: ProgressLevel, to: ProgressLevel)
    returns (r: RegistrationContract)
    requires CanonVitals(vitals).Some? && HashesOk(hashes)
    ensures r.Valid() && r.Tracked()
    ensures r.store.players.Keys == {id} && r.store.levels == map[id := to]
    ensures Lists(Bucket(r.store.byLevel, to), {id})
    ensures from != to ==> Bucket(r.store.byLevel, from) == []
  {
    hide Mirrors, CanonVitals, HashesOk, Added, Removed;
    r := new RegistrationContract();
    var seeded, _ := Execute(r, Transaction(Seed(wallet, vitals, hashes, from, id, now, now), now, ledger), {});
    assert seeded;
    var wired, _ := Execute(r, Transaction(WireProgress(progress, true), now, ledger), {id});
    assert wired;
    var moved, _ := Execute(r, Transaction(SetLevel(progress, id, to), now, ledger), {id});
    assert moved;
    OnlyPlayer(r.store, r.filed, id, from, to);
  }

  /** And they do reach the collision: the admin seeds id 1 ahead of the counter, and the next
      wallet that signs up is given the same id. */
  method SeedAheadCollides(seededWallet: Address, wallet: Address, vitals: Vitals,
                           hashes: seq<Text>, now: u64, ledger: u32)
    returns (r: RegistrationContract)
    requires LengthsOk(vitals) && CanonVitals(vitals).Some? && HashesOk(hashes) && seededWallet != wallet
    ensures r.store.byWallet == map[seededWallet := 1, wallet := 1]
    ensures r.store.playerIndex == [1, 1] && !r.Valid()
  {
    hide Mirrors, LengthsOk, CanonVitals, HashesOk, Added, Removed;
    r := new RegistrationContract();
    var seeding := Seed(seededWallet, vitals, hashes, Unverified, 1, now, now);
    var seeded, _ := Execute(r, Transaction(seeding, now, ledger), {});
    assert seeded;
    assert r.store.playerIndex == [1];
    var registered, collided := Execute(r, Transaction(Register(wallet, vitals, hashes), now, ledger), {1});
    assert registered;
    assert r.store.playerIndex == [1] + [1];
  }

  lemma OnlyPlayer(s: Registry, filed: map<u64, ProgressLevel>, id: u64, from: ProgressLevel, to: ProgressLevel)
    requires Mirrors(s, filed) && s.levels == map[id := to] && s.players.Keys == {id}
    ensures Lists(Bucket(s.byLevel, to), {id})
    ensures from != to ==> Bucket(s.byLevel, from) == []
  {
    assert Lists(Bucket(s.byLevel, to), Under(filed, to));
    assert Lists(Bucket(s.byLevel, from), Under(filed, from));
    assert Under(filed, to) == {id};
    if from != to {
      assert Under(filed, from) == {};
      ListsLength(Bucket(s.byLevel, from), {});
    }
  }

  lemma SeededNext(txs: seq<Transaction<RegistrationCall>>, tx: Transaction<RegistrationCall>)
    ensures AllSeeded(txs + [tx]) == AllSeeded(txs) + SeededId(tx.call)
  {
    hide AllSeeded;
    var all := txs + [tx];
    assert all[|txs|] == tx;
    forall id
      ensures id in AllSeeded(all) <==> id in AllSeeded(txs) || id in SeededId(tx.call)
    {
      if id in AllSeeded(txs) {
        var i :| 0 <= i < |txs| && id in SeededId(txs[i].call);
        assert all[i] == txs[i];
      }
    }
  }
}
