/** Runs of the progress contract, with wiring, pauses, live moves and migration replays in any
    order (contracts/progress/src/lib.rs:142-225, 306-547, 1029-1064, 1121-1263, 1994-2084). */
module ProgressRuns {
  import opened Prelude
  import opened SharedTypes
  import opened MerkleTree
  import opened History
  import opened Tracks
  import opened PlayerStore
  import opened Progress
  import opened Runs
  import R = Registration

  datatype ProgressCall =
    | Move(move: MoveCall)
    | Seed(id: u64, seed: SeedCall)
    | OpenWindow
    | CloseWindow
    | WireRegistration(peer: nat, peerOk: bool)
    | WireVerification(address: Address, peerOk: bool)
    | WireScoutAccess(address: Address, peerOk: bool)
    | SetPaused(pause: bool)

  // ----- one transaction ---------------------------------------------------------------

  /** What a transaction that goes through does to the histories and levels: a move makes the
      step it asks for, a seed call appends the entry it carries or retries one. */
  ghost predicate Effect(tx: Transaction<ProgressCall>, admin: Address,
                         before: map<u64, Track>, after: map<u64, Track>)
  {
    match tx.call
    case Move(move) =>
      var t, step := TrackOf(before, move.id), move.StepAt(admin, tx.now, tx.ledger);
      && Target(t, step).Some?
      && after == before[move.id := After(move.id, t, step)]
    case Seed(id, seed) =>
      var t := TrackOf(before, id);
      var outcome := Seeded(id, t.log, CommittedRoot(t.log), seed);
      && outcome.Ok?
      && after == if outcome.value == t.log then before else before[id := Track(outcome.value, t.level)]
    case _ => after == before
  }

  /** When a transaction goes through.  A seed call does exactly when the seeding rules take
      it, a move exactly when nothing in either contract turns it down. */
  ghost predicate Accepts(p: ProgressContract, peers: seq<R.RegistrationContract>, tx: Transaction<ProgressCall>)
    reads p, p.registration
  {
    match tx.call
    case Move(move) => p.RefusalOf(move) == None
    case Seed(id, seed) =>
      && p.initialized && p.migrationActive
      && Seeded(id, TrackOf(p.tracks, id).log, CommittedRoot(TrackOf(p.tracks, id).log), seed).Ok?
    case OpenWindow => p.initialized && !p.migrationSealed
    case CloseWindow => p.initialized && p.migrationActive
    case WireRegistration(peer, peerOk) => p.initialized && peerOk && peer < |peers|
    case WireVerification(_, peerOk) => p.initialized && peerOk
    case WireScoutAccess(_, peerOk) => p.initialized && peerOk
    case SetPaused(_) => p.initialized
  }

  /** A contract that holds all histories in full, wired to nothing or to a valid contract. */
  ghost predicate Sound(p: ProgressContract, peers: seq<R.RegistrationContract>)
    reads p, peers
  {
    && p.Valid() && p.Complete()
    && (p.registration == null || p.registration in peers)
    && forall peer :: peer in peers ==> peer.Valid()
  }

  lemma SyncedPlayers(before: R.Registry, after: R.Registry, id: u64)
    ensures forall level :: LevelSynced(before, after, id, level) ==>
              id in before.players && after.players.Keys == before.players.Keys
  {
  }

  lemma RootHeld(players: map<u64, PlayerStore>, tracks: map<u64, Track>, id: u64)
    requires AllHold(players, tracks) && AllHoldFully(players, tracks)
    ensures StoreOf(players, id).root == CommittedRoot(TrackOf(tracks, id).log)
  {
  }

  /** A transaction that moves and seeds nobody. */
  method ExecuteSetting(p: ProgressContract, peers: seq<R.RegistrationContract>, tx: Transaction<ProgressCall>)
    returns (ok: bool)
    requires Sound(p, peers) && !tx.call.Move? && !tx.call.Seed?
    modifies p
    ensures Sound(p, peers) && p.admin == old(p.admin) && p.tracks == old(p.tracks)
    ensures ok <==> old(Accepts(p, peers, tx))
    ensures ok && tx.call.WireRegistration? ==>
      p.Settings() == old(p.Settings()).(registration := peers[tx.call.peer])
    ensures ok && tx.call.WireVerification? ==>
      p.Settings() == old(p.Settings()).(verification := Some(tx.call.address))
    ensures ok && tx.call.WireScoutAccess? ==>
      p.Settings() == old(p.Settings()).(scoutAccess := Some(tx.call.address))
  {
    hide AllHold, AllHoldFully, R.Mirrors;
    match tx.call
    case OpenWindow =>
      var result := p.OpenMigrationWindow();
      ok := result.Ok?;
    case CloseWindow =>
      var result := p.CloseMigrationWindow();
      ok := result.Ok?;
    case WireRegistration(peer, peerOk) =>
      if peer < |peers| {
        var refused := p.SetRegistrationContract(peers[peer], peerOk);
        ok := refused.None?;
      } else {
        ok := false;
      }
    case WireVerification(address, peerOk) =>
      var refused := p.SetVerificationContract(address, peerOk);
      ok := refused.None?;
    case WireScoutAccess(address, peerOk) =>
      var refused := p.SetScoutAccessContract(address, peerOk);
      ok := refused.None?;
    case SetPaused(pause) =>
      var result := p.SetPaused(pause);
      ok := result.Ok?;
  }

  /** Any one transaction leaves the counter, entries, pages, frontier and root of every player
      representing one and the same history. */
  method Execute(p: ProgressContract, peers: seq<R.RegistrationContract>, tx: Transaction<ProgressCall>)
    returns (ok: bool)
    requires Sound(p, peers)
    modifies p, peers
    ensures Sound(p, peers) && p.admin == old(p.admin)
    ensures ok <==> old(Accepts(p, peers, tx))
    ensures if ok then Effect(tx, p.admin, old(p.tracks), p.tracks) else p.tracks == old(p.tracks)
    ensures ok && tx.call.Move? ==>
      && p.Settings() == old(p.Settings())
      && p.registration != null && p.registration.Settings() == old(p.registration.Settings())
      && p.registration.store.players.Keys == old(p.registration.store.players.Keys)
    ensures ok && tx.call.WireRegistration? ==>
      p.Settings() == old(p.Settings()).(registration := peers[tx.call.peer]) && unchanged(peers)
    ensures ok && tx.call.WireVerification? ==>
      p.Settings() == old(p.Settings()).(verification := Some(tx.call.address)) && unchanged(peers)
    ensures ok && tx.call.WireScoutAccess? ==>
      p.Settings() == old(p.Settings()).(scoutAccess := Some(tx.call.address)) && unchanged(peers)
  {
    hide AllHold, AllHoldFully, R.Mirrors, LevelSynced, CommittedRoot, Seeded, Holds, HoldsFully, After, Target;
    match tx.call
    case Move(move) =>
      ok := p.Move(move, tx.now, tx.ledger);
      if ok {
        SyncedPlayers(old(p.registration.store), p.registration.store, move.id);
      }
    case Seed(id, seed) =>
      RootHeld(p.players, p.tracks, id);
      var result := p.AdminSeedHistory(id, seed);
      ok := result.Ok?;
    case _ =>
      ok := ExecuteSetting(p, peers, tx);
  }

  // ----- whole runs --------------------------------------------------------------------

  ghost function Effects(admin: Address)
    : (Transaction<ProgressCall>, map<u64, Track>, map<u64, Track>) -> bool
  {
    (tx, before, after) => Effect(tx, admin, before, after)
  }

  /** The histories and levels between the transactions of a run from an empty contract. */
  ghost predicate RunOf(txs: seq<Transaction<ProgressCall>>, oks: seq<bool>, admin: Address,
                        states: seq<map<u64, Track>>)
  {
    Trace(txs, oks, states, Effects(admin)) && states[0] == map[]
  }

  lemma RunPrefix(txs: seq<Transaction<ProgressCall>>, oks: seq<bool>, admin: Address,
                  states: seq<map<u64, Track>>, n: nat)
    requires RunOf(txs, oks, admin, states) && n <= |oks|
    ensures RunOf(txs[..n], oks[..n], admin, states[..n + 1])
  {
    TracePrefix(txs, oks, states, Effects(admin), n);
  }

  /** Every history of `before` is a prefix of the same player's history in `after`. */
  ghost predicate Extends(before: map<u64, Track>, after: map<u64, Track>) {
    forall id: u64 :: TrackOf(before, id).log <= TrackOf(after, id).log
  }

  lemma EffectExtends(tx: Transaction<ProgressCall>, admin: Address, before: map<u64, Track>, after: map<u64, Track>)
    requires Effect(tx, admin, before, after)
    ensures Extends(before, after)
  {
    hide CommittedRoot, SlotRefusal, LogRoot;
  }

  lemma ExtendsReflexive(tracks: map<u64, Track>)
    ensures Extends(tracks, tracks)
  {
  }

  lemma ExtendsTransitive(a: map<u64, Track>, b: map<u64, Track>, c: map<u64, Track>)
    requires Extends(a, b) && Extends(b, c)
    ensures Extends(a, c)
  {
  }

  /** Every history at any point of a run is a prefix of the same player's history at any later
      point. */
  lemma {:induction false} RunExtendsHistories(txs: seq<Transaction<ProgressCall>>, oks: seq<bool>, admin: Address,
                                               states: seq<map<u64, Track>>, i: nat, j: nat)
    requires RunOf(txs, oks, admin, states) && i <= j <= |oks|
    ensures Extends(states[i], states[j])
    decreases j - i
  {
    hide Effect, Extends;
    ExtendsReflexive(states[i]);
    if i < j {
      RunExtendsHistories(txs, oks, admin, states, i, j - 1);
      if oks[j - 1] {
        EffectExtends(txs[j - 1], admin, states[j - 1], states[j]);
        ExtendsTransitive(states[i], states[j - 1], states[j]);
      }
    }
  }

  /** Every run from an empty contract, wired at any time to any of the given contracts. */
  method ExecuteAll(address: Address, admin: Address, peers: seq<R.RegistrationContract>,
                    txs: seq<Transaction<ProgressCall>>)
    returns (p: ProgressContract, oks: seq<bool>, ghost states: seq<map<u64, Track>>)
    requires forall peer :: peer in peers ==> peer.Valid()
    modifies peers
    ensures Sound(p, peers) && p.admin == admin && fresh(p)
    ensures |oks| == |txs| && RunOf(txs, oks, admin, states) && states[|txs|] == p.tracks
    ensures forall i, j :: 0 <= i <= j <= |txs| ==> Extends(states[i], states[j])
  {
    hide AllHold, AllHoldFully, R.Mirrors, Effect, Extends, Accepts;
    p := new ProgressContract(address, admin);
    oks, states := [], [map[]];
    for n := 0 to |txs|
      invariant fresh(p) && Sound(p, peers) && p.admin == admin
      invariant |oks| == n && |states| == n + 1 && RunOf(txs, oks, admin, states)
      invariant states[n] == p.tracks
    {
      var ok := Execute(p, peers, txs[n]);
      TraceNext(txs, oks, states, Effects(admin), ok, p.tracks);
      oks, states := oks + [ok], states + [p.tracks];
    }
    forall i, j | 0 <= i <= j <= |txs| ensures Extends(states[i], states[j]) {
      RunExtendsHistories(txs, oks, admin, states, i, j);
    }
  }

  // ----- the level machine in runs of the contract -------------------------------------

  /** The accepted moves of one player, in order. */
  function MovesOf(txs: seq<Transaction<ProgressCall>>, oks: seq<bool>, admin: Address, id: u64): seq<Call>
    requires |oks| == |txs|
  {
    if txs == [] then []
    else
      var n := |txs| - 1;
      var tx := txs[n];
      MovesOf(txs[..n], oks[..n], admin, id)
      + if oks[n] && tx.call.Move? && tx.call.move.id == id
        then [tx.call.move.StepAt(admin, tx.now, tx.ledger)] else []
  }

  ghost predicate NeverSeeded(txs: seq<Transaction<ProgressCall>>, id: u64) {
    forall i :: 0 <= i < |txs| && txs[i].call.Seed? ==> txs[i].call.id != id
  }

  /** A player the admin never seeds is, after any run, where the level machine takes it by the
      accepted moves, each of which the machine takes as well. */
  lemma {:induction false} TrackIsRun(txs: seq<Transaction<ProgressCall>>, oks: seq<bool>, admin: Address,
                                      states: seq<map<u64, Track>>, id: u64)
    requires RunOf(txs, oks, admin, states) && |oks| == |txs| && NeverSeeded(txs, id)
    ensures TrackOf(states[|txs|], id) == Run(id, NEW_TRACK, MovesOf(txs, oks, admin, id))
  {
    if txs != [] {
      hide Seeded, After;
      var n := |txs| - 1;
      RunPrefix(txs, oks, admin, states, n);
      TrackIsRun(txs[..n], oks[..n], admin, states[..n + 1], id);
      var before := MovesOf(txs[..n], oks[..n], admin, id);
      var tx := txs[n];
      if oks[n] && tx.call.Move? && tx.call.move.id == id {
        var step := tx.call.move.StepAt(admin, tx.now, tx.ledger);
        assert (before + [step])[..|before|] == before;
      } else {
        assert before + [] == before;
      }
    }
  }

  /** So the stored level is where the history ends, the history chains from Unverified, and the
      accepted advances are the tiers climbed plus the tiers the resets took away. */
  lemma RunLevels(txs: seq<Transaction<ProgressCall>>, oks: seq<bool>, admin: Address,
                  states: seq<map<u64, Track>>, id: u64)
    requires RunOf(txs, oks, admin, states) && |oks| == |txs| && NeverSeeded(txs, id)
    ensures var t, moves := TrackOf(states[|txs|], id), MovesOf(txs, oks, admin, id);
      && LevelChain(id, t)
      && |t.log| == |moves|
      && Advances(id, NEW_TRACK, moves) == Current(t).Rank() + Drops(id, NEW_TRACK, moves)
  {
    hide LevelChain, RunOf;
    TrackIsRun(txs, oks, admin, states, id);
    RunKeepsLevelChain(id, MovesOf(txs, oks, admin, id));
    AdvancesBalance(id, NEW_TRACK, MovesOf(txs, oks, admin, id));
    MovesCounted(txs, oks, admin, states, id);
  }

  lemma {:induction false} MovesCounted(txs: seq<Transaction<ProgressCall>>, oks: seq<bool>, admin: Address,
                                        states: seq<map<u64, Track>>, id: u64)
    requires RunOf(txs, oks, admin, states) && |oks| == |txs| && NeverSeeded(txs, id)
    ensures |TrackOf(states[|txs|], id).log| == |MovesOf(txs, oks, admin, id)|
  {
    if txs != [] {
      hide Seeded;
      var n := |txs| - 1;
      RunPrefix(txs, oks, admin, states, n);
      MovesCounted(txs[..n], oks[..n], admin, states[..n + 1], id);
    }
  }

  /** Neither the clock nor the ledger sequence runs back. */
  ghost predicate TimeRuns(txs: seq<Transaction<ProgressCall>>) {
    forall i, j :: 0 <= i <= j < |txs| ==> txs[i].now <= txs[j].now && txs[i].ledger <= txs[j].ledger
  }

  lemma {:induction false} MovesInTime(txs: seq<Transaction<ProgressCall>>, oks: seq<bool>, admin: Address, id: u64)
    requires |oks| == |txs| && TimeRuns(txs)
    ensures ClockRuns(MovesOf(txs, oks, admin, id))
    ensures forall k :: 0 <= k < |MovesOf(txs, oks, admin, id)| ==>
              var s := MovesOf(txs, oks, admin, id)[k].stamp;
              s.at <= txs[|txs| - 1].now && s.ledger <= txs[|txs| - 1].ledger
  {
    if txs != [] {
      var n := |txs| - 1;
      MovesInTime(txs[..n], oks[..n], admin, id);
    }
  }

  /** After any run in which time does not run back, the history of every player the admin never
      seeds is one a migration can rebuild. */
  lemma RunSeedable(txs: seq<Transaction<ProgressCall>>, oks: seq<bool>, admin: Address,
                    states: seq<map<u64, Track>>, id: u64)
    requires RunOf(txs, oks, admin, states) && |oks| == |txs|
    requires NeverSeeded(txs, id) && TimeRuns(txs)
    ensures Seedable(id, TrackOf(states[|txs|], id).log)
  {
    hide RunOf;
    var moves := MovesOf(txs, oks, admin, id);
    TrackIsRun(txs, oks, admin, states, id);
    RunKeepsLevelChain(id, moves);
    MovesInTime(txs, oks, admin, id);
    RunChronological(id, moves);
  }

  /** Runs do reach advances: on a new contract, once registration and verification are wired, a
      call of the verification contract takes any registered player one tier up. */
  method FirstAdvance(address: Address, admin: Address, peer: R.RegistrationContract, verifier: Address, id: u64,
                      now: u64, ledger: u32)
    returns (p: ProgressContract)
    requires peer.Valid() && peer.progressContract == Some(address) && id in peer.store.players
    modifies peer
    ensures Sound(p, [peer])
    ensures p.tracks == map[id := After(id, NEW_TRACK, Advance(Stamp(verifier, now, 0, ledger)))]
    ensures p.GetLevel(id) == VerifiedIdentity
  {
    hide AllHold, AllHoldFully, R.Mirrors, HoldsFully, Holds;
    p := new ProgressContract(address, admin);
    var registrationWired := Execute(p, [peer], Transaction(WireRegistration(0, true), now, ledger));
    assert registrationWired;
    var verificationWired := Execute(p, [peer], Transaction(WireVerification(verifier, true), now, ledger));
    assert verificationWired;
    HeldTrack(p.players, p.tracks, id);
    var advanced := Execute(p, [peer], Transaction(Move(AdvanceBy(verifier, id, 0, 0)), now, ledger));
    assert advanced;
    HeldTrack(p.players, p.tracks, id);
  }

  // ----- migration from a live contract to a new one -----------------------------------

  /** The keys of one player that hold the history, equal in two stores. */
  ghost predicate SameHistoryKeys(a: PlayerStore, b: PlayerStore) {
    && a.entries == b.entries && a.pages == b.pages && a.counter == b.counter
    && a.frontier == b.frontier && a.root == b.root
  }

  /** Some run of a new contract, in which time does not run back and this player is not seeded,
      ends in these histories. */
  ghost predicate LiveFor(tracks: map<u64, Track>, id: u64) {
    exists txs, oks, admin, states ::
      && RunOf(txs, oks, admin, states) && |oks| == |txs|
      && NeverSeeded(txs, id) && TimeRuns(txs) && states[|txs|] == tracks
  }

  /** The loop of an operator who replays one player's history from a live contract into one that
      has none for that player, with arbitrary retries.  No call is refused, and the new
      contract ends with the very keys of the old one. */
  method Replay(source: ProgressContract, p: ProgressContract, id: u64, calls: seq<SeedCall>)
    returns (refused: bool)
    requires source != p && source.Valid() && source.Complete() && p.Valid() && p.Complete()
    requires LiveFor(source.tracks, id)
    requires p.initialized && p.migrationActive
    requires TrackOf(p.tracks, id).log == [] && TrackOf(source.tracks, id).log != []
    requires Replays(TrackOf(source.tracks, id).log, 0, calls)
    requires ReachAll(0, calls) == |TrackOf(source.tracks, id).log|
    modifies p`players, p`tracks
    ensures p.Valid() && p.Complete()
    ensures !refused
    ensures SameHistoryKeys(StoreOf(p.players, id), StoreOf(source.players, id))
    ensures p.tracks == old(p.tracks)[id := Track(TrackOf(source.tracks, id).log, TrackOf(old(p.tracks), id).level)]
  {
    hide AllHold, AllHoldFully, HoldsFully, Holds, Seeded, Seedable, Replays, ReplaysStep, CommittedRoot, LiveFor;
    ghost var log, level := TrackOf(source.tracks, id).log, TrackOf(p.tracks, id).level;
    ghost var n: nat := 0;
    LiveSeedable(source.tracks, id);
    HeldTrack(source.players, source.tracks, id);
    assert log[..0] == [];
    refused := false;
    for i := 0 to |calls|
      invariant !refused && p.Valid() && p.Complete()
      invariant n <= |log| && Replays(log, n, calls[i..]) && ReachAll(n, calls[i..]) == |log|
      invariant TrackOf(p.tracks, id) == Track(log[..n], level)
      invariant p.tracks == old(p.tracks) || p.tracks == old(p.tracks)[id := Track(log[..n], level)]
    {
      RootHeld(p.players, p.tracks, id);
      ReplaysFirst(log, n, calls[i..]);
      ReplayStep(id, log, n, calls[i]);
      assert calls[i..][1..] == calls[i + 1..];
      var result := p.AdminSeedHistory(id, calls[i]);
      refused := result.Err?;
      n := Reach(n, calls[i]);
    }
    assert log[..|log|] == log;
    HeldTrack(p.players, p.tracks, id);
    FullyHeldKeysAgree(StoreOf(p.players, id), StoreOf(source.players, id), log);
  }

  lemma LiveSeedable(tracks: map<u64, Track>, id: u64)
    requires LiveFor(tracks, id)
    ensures Seedable(id, TrackOf(tracks, id).log)
  {
    var txs, oks, admin, states :|
      && RunOf(txs, oks, admin, states) && |oks| == |txs|
      && NeverSeeded(txs, id) && TimeRuns(txs) && states[|txs|] == tracks;
    RunSeedable(txs, oks, admin, states, id);
  }

  lemma ReplaysFirst(log: Log, n: nat, calls: seq<SeedCall>)
    requires n <= |log| && calls != [] && Replays(log, n, calls)
    ensures ReplaysStep(log, n, calls[0]) && Reach(n, calls[0]) <= |log|
    ensures Replays(log, Reach(n, calls[0]), calls[1..])
    ensures ReachAll(n, calls) == ReachAll(Reach(n, calls[0]), calls[1..])
  {
  }

  /** From the first transaction of the old contract to the last seed call: whatever happens to
      the old contract while time does not run back, reading the history of a player it never
      seeded and replaying it gives the new contract the same keys. */
  method RunAndMigrate(address: Address, admin: Address, peers: seq<R.RegistrationContract>,
                       txs: seq<Transaction<ProgressCall>>, p: ProgressContract, id: u64)
    returns (source: ProgressContract, refused: bool)
    requires forall peer :: peer in peers ==> peer.Valid()
    requires TimeRuns(txs) && NeverSeeded(txs, id)
    requires p.Valid() && p.Complete() && p.initialized && p.migrationActive
    requires TrackOf(p.tracks, id).log == []
    modifies peers, p`players, p`tracks
    ensures source.Valid() && source.Complete() && p.Valid() && p.Complete()
    ensures !refused
    ensures TrackOf(p.tracks, id).log == TrackOf(source.tracks, id).log
    ensures TrackOf(source.tracks, id).log != [] ==>
              SameHistoryKeys(StoreOf(p.players, id), StoreOf(source.players, id))
  {
    hide AllHold, AllHoldFully, R.Mirrors, RunOf, Extends, Replays, LiveFor, SameHistoryKeys, ReadAll,
         PlainReplay, TimeRuns, NeverSeeded, Holds;
    var oks;
    ghost var states;
    source, oks, states := ExecuteAll(address, admin, peers, txs);
    IsLive(txs, oks, admin, states, id);
    HeldTrack(source.players, source.tracks, id);
    var keys := StoreOf(source.players, id);
    ghost var log := TrackOf(source.tracks, id).log;
    FullyRead(keys, log);
    refused := false;
    if Count(keys) > 0 {
      var read := ReadHistoryPages(keys);
      PlainReplayReplays(log, 0);
      refused := Replay(source, p, id, PlainReplay(read.value, 0));
    }
  }

  lemma FullyRead(ps: PlayerStore, log: Log)
    requires HoldsFully(ps, log)
    ensures NoPageTrap(ps) && (log != [] ==> ReadAll(ps) == log)
  {
    ReadAllIsLog(ps, log);
  }

  lemma IsLive(txs: seq<Transaction<ProgressCall>>, oks: seq<bool>, admin: Address,
               states: seq<map<u64, Track>>, id: u64)
    requires RunOf(txs, oks, admin, states) && |oks| == |txs|
    requires NeverSeeded(txs, id) && TimeRuns(txs)
    ensures LiveFor(states[|txs|], id)
  {
  }
}
