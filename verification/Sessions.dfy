/** The login and refresh protocol of src/services/sep10.ts (Stellar Ecosystem Proposal 10).

    Requests run concurrently and interleave at every await, so a request is a task that moves
    through the program points between its database operations.  One database operation is one
    atomic step.  Signature checks are done before a task starts; token hashes are whatever the
    random source gives, new or not.  The clock never runs back; only what is said about when an
    update lands depends on that. */
module Sessions {
  import opened Prelude

  type Hash = nat
  type Account = nat

  const CHALLENGE_TTL_MS: nat := 300_000

  datatype ChallengeRow = ChallengeRow(account: Account, expiresAt: nat, consumedAt: Option<nat>)

  /** `login` is the task that logged in; the database has no such column. */
  datatype TokenRow = TokenRow(account: Account, expiresAt: nat, revokedAt: Option<nat>, login: nat)

  /** What entitles a task to one new refresh token. */
  datatype Grant = ByChallenge(challenge: Hash) | ByToken(token: Hash)

  datatype Task =
    | LoginReady(challenge: Hash, account: Account, now: nat)   // verifyChallengeTx, before the update
    | RefreshStarted(token: Hash)                               // refreshSession, before the look-up
    | RefreshReady(token: Hash, account: Account, now: nat)     // row read, before the update
    | Issuing(account: Account, login: nat, grant: Grant)       // issueSession, before the insert
    | Issued(account: Account, login: nat, grant: Grant, minted: Hash)
    | Lost(account: Account, login: nat, grant: Grant)          // issueSession threw
    | Rejected
  {
    /** The conditional update succeeded for this task. */
    predicate Granted() {
      Issuing? || Issued? || Lost?
    }
  }

  datatype State = State(
    clock: nat,
    challenges: map<Hash, ChallengeRow>,
    tokens: map<Hash, TokenRow>,
    tasks: map<nat, Task>)

  const INIT := State(0, map[], map[], map[])

  datatype Action =
    | Tick(elapsed: nat)
    | BuildChallenge(hash: Hash, account: Account, now: nat)
    | StartLogin(task: nat, hash: Hash, account: Account)
    | ConsumeChallenge(task: nat)
    | StartRefresh(task: nat, token: Hash)
    | LookUpToken(task: nat)
    | RotateToken(task: nat)
    | InsertToken(task: nat, minted: Hash, expiresAt: nat)
    | Abort(task: nat)

  /** The `where` clause of the conditional update of a challenge. */
  predicate Consumable(s: State, t: Task)
    requires t.LoginReady?
  {
    && t.challenge in s.challenges
    && s.challenges[t.challenge].account == t.account
    && s.challenges[t.challenge].consumedAt.None?
    && s.challenges[t.challenge].expiresAt > t.now
  }

  /** The `where` clause of the conditional update of a refresh token. */
  predicate Rotatable(s: State, t: Task)
    requires t.RefreshReady?
  {
    && t.token in s.tokens
    && s.tokens[t.token].revokedAt.None?
    && s.tokens[t.token].expiresAt > t.now
  }

  function WithTask(s: State, id: nat, t: Task): State {
    s.(tasks := s.tasks[id := t])
  }

  /** One atomic step; an action that does not apply changes nothing. */
  function Step(s: State, a: Action): State {
    match a
    case Tick(elapsed) => s.(clock := s.clock + elapsed)
    case BuildChallenge(hash, account, now) =>
      if hash in s.challenges || now > s.clock then s
      else s.(challenges := s.challenges[hash := ChallengeRow(account, now + CHALLENGE_TTL_MS, None)])
    case StartLogin(id, hash, account) =>
      if id in s.tasks then s else WithTask(s, id, LoginReady(hash, account, s.clock))
    case ConsumeChallenge(id) =>
      if id !in s.tasks || !s.tasks[id].LoginReady? then s
      else
        var t := s.tasks[id];
        if !Consumable(s, t) then WithTask(s, id, Rejected)
        else
          var row := s.challenges[t.challenge].(consumedAt := Some(t.now));
          WithTask(s.(challenges := s.challenges[t.challenge := row]), id,
                   Issuing(t.account, id, ByChallenge(t.challenge)))
    case StartRefresh(id, token) =>
      if id in s.tasks then s else WithTask(s, id, RefreshStarted(token))
    case LookUpToken(id) =>
      if id !in s.tasks || !s.tasks[id].RefreshStarted? then s
      else
        var token := s.tasks[id].token;
        if token !in s.tokens then WithTask(s, id, Rejected)
        else WithTask(s, id, RefreshReady(token, s.tokens[token].account, s.clock))
    case RotateToken(id) =>
      if id !in s.tasks || !s.tasks[id].RefreshReady? then s
      else
        var t := s.tasks[id];
        if !Rotatable(s, t) then WithTask(s, id, Rejected)
        else
          var row := s.tokens[t.token];
          WithTask(s.(tokens := s.tokens[t.token := row.(revokedAt := Some(t.now))]), id,
                   Issuing(t.account, row.login, ByToken(t.token)))
    case InsertToken(id, minted, expiresAt) =>
      if id !in s.tasks || !s.tasks[id].Issuing? then s
      else
        var t := s.tasks[id];
        if minted in s.tokens then WithTask(s, id, Lost(t.account, t.login, t.grant))
        else
          WithTask(s.(tokens := s.tokens[minted := TokenRow(t.account, expiresAt, None, t.login)]), id,
                   Issued(t.account, t.login, t.grant, minted))
    case Abort(id) =>
      if id !in s.tasks || !s.tasks[id].Issuing? then s
      else WithTask(s, id, Lost(s.tasks[id].account, s.tasks[id].login, s.tasks[id].grant))
  }

  function Run(actions: seq<Action>): State {
    if actions == [] then INIT
    else Step(Run(actions[..|actions| - 1]), actions[|actions| - 1])
  }

  // ----- the server, step by step ------------------------------------------------------

  /** The two tables and the requests in flight.  Each method is the code between two awaits. */
  class AuthServer {
    var clock: nat
    var challenges: map<Hash, ChallengeRow>
    var tokens: map<Hash, TokenRow>
    var tasks: map<nat, Task>

    function Snapshot(): State
      reads this
    {
      State(clock, challenges, tokens, tasks)
    }

    constructor ()
      ensures Snapshot() == INIT
    {
      clock, challenges, tokens, tasks := 0, map[], map[], map[];
    }

    /** `buildChallengeTx`, the insert; `now` was read before it.  A hash that is there violates
        the primary key. */
    method BuildChallenge(hash: Hash, account: Account, now: nat)
      requires now <= clock
      modifies this`challenges
      ensures Snapshot() == Step(old(Snapshot()), Action.BuildChallenge(hash, account, now))
      ensures challenges == if hash in old(challenges) then old(challenges)
                            else old(challenges)[hash := ChallengeRow(account, now + 300_000, None)]
    {
      if hash !in challenges {
        challenges := challenges[hash := ChallengeRow(account, now + CHALLENGE_TTL_MS, None)];
      }
    }

    /** Conditional UPDATE of `sep10_challenges`; the number of rows it changed. */
    method UpdateChallenges(hash: Hash, account: Account, now: nat) returns (count: nat)
      modifies this`challenges
      ensures count == if Consumable(old(Snapshot()), LoginReady(hash, account, now)) then 1 else 0
      ensures count == 0 ==> challenges == old(challenges)
      ensures count == 1 ==>
        challenges == old(challenges)[hash := old(challenges)[hash].(consumedAt := Some(now))]
    {
      if hash in challenges && challenges[hash].account == account
         && challenges[hash].consumedAt.None? && challenges[hash].expiresAt > now {
        challenges := challenges[hash := challenges[hash].(consumedAt := Some(now))];
        return 1;
      }
      return 0;
    }

    /** Conditional UPDATE of `refresh_tokens`. */
    method UpdateTokens(hash: Hash, now: nat) returns (count: nat)
      modifies this`tokens
      ensures count == if Rotatable(old(Snapshot()), RefreshReady(hash, 0, now)) then 1 else 0
      ensures count == 0 ==> tokens == old(tokens)
      ensures count == 1 ==>
        tokens == old(tokens)[hash := old(tokens)[hash].(revokedAt := Some(now))]
    {
      if hash in tokens && tokens[hash].revokedAt.None? && tokens[hash].expiresAt > now {
        tokens := tokens[hash := tokens[hash].(revokedAt := Some(now))];
        return 1;
      }
      return 0;
    }

    /** `verifyChallengeTx` from the update on. */
    method ConsumeChallenge(id: nat)
      requires id in tasks && tasks[id].LoginReady?
      modifies this
      ensures Snapshot() == Step(old(Snapshot()), Action.ConsumeChallenge(id))
    {
      var t := tasks[id];
      var count := UpdateChallenges(t.challenge, t.account, t.now);
      if count != 1 {
        tasks := tasks[id := Rejected];
      } else {
        tasks := tasks[id := Issuing(t.account, id, ByChallenge(t.challenge))];
      }
    }

    /** `refreshSession`, the look-up. */
    method LookUpToken(id: nat)
      requires id in tasks && tasks[id].RefreshStarted?
      modifies this
      ensures Snapshot() == Step(old(Snapshot()), Action.LookUpToken(id))
    {
      var token := tasks[id].token;
      if token !in tokens {
        tasks := tasks[id := Rejected];
      } else {
        tasks := tasks[id := RefreshReady(token, tokens[token].account, clock)];
      }
    }

    /** `refreshSession` from the update on. */
    method RotateToken(id: nat)
      requires id in tasks && tasks[id].RefreshReady?
      modifies this
      ensures Snapshot() == Step(old(Snapshot()), Action.RotateToken(id))
    {
      var t := tasks[id];
      var count := UpdateTokens(t.token, t.now);
      if count != 1 {
        tasks := tasks[id := Rejected];
      } else {
        tasks := tasks[id := Issuing(t.account, tokens[t.token].login, ByToken(t.token))];
      }
    }

    /** `issueSession`, the insert; a hash that is taken violates the primary key. */
    method InsertToken(id: nat, minted: Hash, expiresAt: nat)
      requires id in tasks && tasks[id].Issuing?
      modifies this
      ensures Snapshot() == Step(old(Snapshot()), Action.InsertToken(id, minted, expiresAt))
      ensures tokens == if minted in old(tokens) then old(tokens)
                        else old(tokens)[minted := TokenRow(old(tasks)[id].account, expiresAt, None,
                                                            old(tasks)[id].login)]
    {
      var t := tasks[id];
      if minted in tokens {
        tasks := tasks[id := Lost(t.account, t.login, t.grant)];
      } else {
        tokens := tokens[minted := TokenRow(t.account, expiresAt, None, t.login)];
        tasks := tasks[id := Issued(t.account, t.login, t.grant, minted)];
      }
    }

    /** Whatever happens next: time passes, a request starts, or one in flight moves on. */
    method Perform(a: Action)
      modifies this
      ensures Snapshot() == Step(old(Snapshot()), a)
    {
      match a
      case Tick(elapsed) => clock := clock + elapsed;
      case BuildChallenge(hash, account, now) =>
        if now <= clock {
          BuildChallenge(hash, account, now);
        }
      case StartLogin(id, hash, account) =>
        if id !in tasks {
          tasks := tasks[id := LoginReady(hash, account, clock)];
        }
      case ConsumeChallenge(id) =>
        if id in tasks && tasks[id].LoginReady? {
          ConsumeChallenge(id);
        }
      case StartRefresh(id, token) =>
        if id !in tasks {
          tasks := tasks[id := RefreshStarted(token)];
        }
      case LookUpToken(id) =>
        if id in tasks && tasks[id].RefreshStarted? {
          LookUpToken(id);
        }
      case RotateToken(id) =>
        if id in tasks && tasks[id].RefreshReady? {
          RotateToken(id);
        }
      case InsertToken(id, minted, expiresAt) =>
        if id in tasks && tasks[id].Issuing? {
          InsertToken(id, minted, expiresAt);
        }
      case Abort(id) =>
        if id in tasks && tasks[id].Issuing? {
          tasks := tasks[id := Lost(tasks[id].account, tasks[id].login, tasks[id].grant)];
        }
    }
  }

  // ----- what holds in every interleaving ----------------------------------------------

  /** No two tasks were granted on the same challenge or the same token. */
  ghost predicate SingleUse(s: State) {
    forall a, b :: && a in s.tasks && b in s.tasks
                   && s.tasks[a].Granted() && s.tasks[b].Granted()
                   && s.tasks[a].grant == s.tasks[b].grant
                   ==> a == b
  }

  /** The row behind a grant is marked, at a time before it expired, and names the account the
      task acts for; a login is its own chain, a refresh stays in the chain of its token. */
  ghost predicate Backed(s: State, id: nat)
    requires id in s.tasks && s.tasks[id].Granted()
  {
    var t := s.tasks[id];
    match t.grant
    case ByChallenge(h) =>
      && h in s.challenges && s.challenges[h].account == t.account && t.login == id
      && s.challenges[h].consumedAt.Some?
      && s.challenges[h].consumedAt.value < s.challenges[h].expiresAt
    case ByToken(h) =>
      && h in s.tokens && s.tokens[h].account == t.account && s.tokens[h].login == t.login
      && s.tokens[h].revokedAt.Some?
      && s.tokens[h].revokedAt.value < s.tokens[h].expiresAt
  }

  /** A login that consumed a challenge for this account. */
  ghost predicate LoggedIn(s: State, login: nat, account: Account) {
    && login in s.tasks && s.tasks[login].Granted()
    && s.tasks[login].grant.ByChallenge? && s.tasks[login].account == account
  }

  ghost predicate Provenance(s: State) {
    && (forall id :: id in s.tasks && s.tasks[id].Granted() ==>
          Backed(s, id) && LoggedIn(s, s.tasks[id].login, s.tasks[id].account))
    && (forall h :: h in s.tokens ==> LoggedIn(s, s.tokens[h].login, s.tokens[h].account))
    && (forall id :: id in s.tasks && s.tasks[id].RefreshReady? ==>
          s.tasks[id].token in s.tokens && s.tokens[s.tasks[id].token].account == s.tasks[id].account)
  }

  /** A token that can still be rotated. */
  predicate Live(s: State, h: Hash) {
    h in s.tokens && s.tokens[h].revokedAt.None?
  }

  predicate Pending(s: State, id: nat) {
    id in s.tasks && s.tasks[id].Issuing?
  }

  /** Each login's chain has at most one unrevoked token, and none while a task is about to
      insert the next one, of which there is at most one too. */
  ghost predicate OneLivePerLogin(s: State) {
    && (forall g, h :: Live(s, g) && Live(s, h) && s.tokens[g].login == s.tokens[h].login ==> g == h)
    && (forall a, b :: Pending(s, a) && Pending(s, b) && s.tasks[a].login == s.tasks[b].login ==> a == b)
    && (forall h, a :: Live(s, h) && Pending(s, a) ==> s.tokens[h].login != s.tasks[a].login)
  }

  /** Every mark on a row was put there by a task that was granted on it. */
  ghost predicate MarksAreGrants(s: State) {
    && (forall h :: h in s.challenges && s.challenges[h].consumedAt.Some? ==> Granter(s, ByChallenge(h)))
    && (forall h :: h in s.tokens && s.tokens[h].revokedAt.Some? ==> Granter(s, ByToken(h)))
  }

  ghost predicate Granter(s: State, g: Grant) {
    exists id :: id in s.tasks && s.tasks[id].Granted() && s.tasks[id].grant == g
  }

  ghost predicate Safe(s: State) {
    SingleUse(s) && Provenance(s) && OneLivePerLogin(s) && MarksAreGrants(s)
  }

  /** A task that was granted stays granted on the same thing, in the same chain, for the same
      account; and marks on rows stay as they are. */
  lemma StepKeepsGrants(s: State, a: Action)
    ensures forall id :: id in s.tasks && s.tasks[id].Granted() ==>
      && id in Step(s, a).tasks && Step(s, a).tasks[id].Granted()
      && Step(s, a).tasks[id].grant == s.tasks[id].grant
      && Step(s, a).tasks[id].login == s.tasks[id].login
      && Step(s, a).tasks[id].account == s.tasks[id].account
    ensures forall h :: h in s.challenges ==>
      && h in Step(s, a).challenges
      && Step(s, a).challenges[h].account == s.challenges[h].account
      && Step(s, a).challenges[h].expiresAt == s.challenges[h].expiresAt
      && (s.challenges[h].consumedAt.Some? ==> Step(s, a).challenges[h] == s.challenges[h])
    ensures forall h :: h in s.tokens ==>
      && h in Step(s, a).tokens
      && Step(s, a).tokens[h].account == s.tokens[h].account
      && Step(s, a).tokens[h].login == s.tokens[h].login
      && Step(s, a).tokens[h].expiresAt == s.tokens[h].expiresAt
      && (s.tokens[h].revokedAt.Some? ==> Step(s, a).tokens[h] == s.tokens[h])
  {
  }

  /** The one task a step grants, if any, and what its grant was before. */
  ghost predicate NewGrant(s: State, a: Action, id: nat) {
    && id in Step(s, a).tasks && Step(s, a).tasks[id].Granted()
    && !(id in s.tasks && s.tasks[id].Granted())
  }

  lemma NewGrantIsUpdate(s: State, a: Action, id: nat)
    requires NewGrant(s, a, id)
    ensures id in s.tasks && Step(s, a).tasks[id].Issuing?
    ensures a == ConsumeChallenge(id) || a == RotateToken(id)
    ensures a.ConsumeChallenge? ==>
      && s.tasks[id].LoginReady? && Consumable(s, s.tasks[id])
      && Step(s, a).tasks[id] == Issuing(s.tasks[id].account, id, ByChallenge(s.tasks[id].challenge))
    ensures a.RotateToken? ==>
      && s.tasks[id].RefreshReady? && Rotatable(s, s.tasks[id])
      && Step(s, a).tasks[id] == Issuing(s.tasks[id].account, s.tokens[s.tasks[id].token].login,
                                         ByToken(s.tasks[id].token))
  {
  }

  lemma StepSingleUse(s: State, a: Action)
    requires SingleUse(s) && Provenance(s)
    ensures SingleUse(Step(s, a))
  {
    var s' := Step(s, a);
    forall x, y | && x in s'.tasks && y in s'.tasks
                  && s'.tasks[x].Granted() && s'.tasks[y].Granted()
                  && s'.tasks[x].grant == s'.tasks[y].grant
      ensures x == y
    {
      StepKeepsGrants(s, a);
      if NewGrant(s, a, x) {
        NewGrantIsUpdate(s, a, x);
        GrantWasOpen(s, a, x, y);
      } else if NewGrant(s, a, y) {
        NewGrantIsUpdate(s, a, y);
        GrantWasOpen(s, a, y, x);
      }
    }
  }

  /** The row a step grants on was not marked, so no other task held a grant on it. */
  lemma GrantWasOpen(s: State, a: Action, id: nat, other: nat)
    requires Provenance(s) && NewGrant(s, a, id)
    ensures NewGrant(s, a, other) ==> other == id
    ensures other in s.tasks && s.tasks[other].Granted() ==>
              s.tasks[other].grant != Step(s, a).tasks[id].grant
  {
    NewGrantIsUpdate(s, a, id);
    if NewGrant(s, a, other) {
      NewGrantIsUpdate(s, a, other);
    }
    if other in s.tasks && s.tasks[other].Granted() {
      assert Backed(s, other);
    }
  }

  lemma StepProvenance(s: State, a: Action)
    requires Provenance(s)
    ensures Provenance(Step(s, a))
  {
    hide Backed, LoggedIn, Step;
    var s' := Step(s, a);
    forall id | id in s'.tasks && s'.tasks[id].Granted()
      ensures Backed(s', id) && LoggedIn(s', s'.tasks[id].login, s'.tasks[id].account)
    {
      if NewGrant(s, a, id) {
        NewGrantHasProvenance(s, a, id);
      } else {
        OldGrantKeepsProvenance(s, a, id);
      }
    }
    forall h | h in s'.tokens ensures LoggedIn(s', s'.tokens[h].login, s'.tokens[h].account) {
      TokenKeepsProvenance(s, a, h);
    }
    forall id | id in s'.tasks && s'.tasks[id].RefreshReady?
      ensures s'.tasks[id].token in s'.tokens
           && s'.tokens[s'.tasks[id].token].account == s'.tasks[id].account
    {
      ReadRowStays(s, a, id);
    }
  }

  lemma NewGrantHasProvenance(s: State, a: Action, id: nat)
    requires Provenance(s) && NewGrant(s, a, id)
    ensures Backed(Step(s, a), id)
    ensures LoggedIn(Step(s, a), Step(s, a).tasks[id].login, Step(s, a).tasks[id].account)
  {
    NewGrantIsUpdate(s, a, id);
    if a.RotateToken? {
      var h := s.tasks[id].token;
      LoginStays(s, a, s.tokens[h].login, s.tokens[h].account);
    }
  }

  lemma LoginStays(s: State, a: Action, login: nat, account: Account)
    requires LoggedIn(s, login, account)
    ensures LoggedIn(Step(s, a), login, account)
  {
    StepKeepsGrants(s, a);
  }

  lemma OldGrantKeepsProvenance(s: State, a: Action, id: nat)
    requires Provenance(s) && id in s.tasks && s.tasks[id].Granted()
    ensures id in Step(s, a).tasks && Step(s, a).tasks[id].Granted()
    ensures Backed(Step(s, a), id)
    ensures LoggedIn(Step(s, a), Step(s, a).tasks[id].login, Step(s, a).tasks[id].account)
  {
    StepKeepsGrants(s, a);
    hide Step;
    assert Backed(s, id);
    LoginStays(s, a, s.tasks[id].login, s.tasks[id].account);
  }

  lemma TokenKeepsProvenance(s: State, a: Action, h: Hash)
    requires Provenance(s) && h in Step(s, a).tokens
    ensures LoggedIn(Step(s, a), Step(s, a).tokens[h].login, Step(s, a).tokens[h].account)
  {
    if h in s.tokens {
      StepKeepsGrants(s, a);
      LoginStays(s, a, s.tokens[h].login, s.tokens[h].account);
    } else {
      LoginStays(s, a, s.tasks[a.task].login, s.tasks[a.task].account);
    }
  }

  lemma ReadRowStays(s: State, a: Action, id: nat)
    requires Provenance(s) && id in Step(s, a).tasks && Step(s, a).tasks[id].RefreshReady?
    ensures var s' := Step(s, a);
      s'.tasks[id].token in s'.tokens && s'.tokens[s'.tasks[id].token].account == s'.tasks[id].account
  {
    if id in s.tasks && s.tasks[id] == Step(s, a).tasks[id] {
      StepKeepsGrants(s, a);
      hide Step;
    } else {
      assert a == LookUpToken(id);
    }
  }

  lemma StepOneLive(s: State, a: Action)
    requires Provenance(s) && OneLivePerLogin(s)
    ensures OneLivePerLogin(Step(s, a))
  {
    match a
    case InsertToken(_, _, _) => InsertKeepsOneLive(s, a);
    case RotateToken(_) => RotateKeepsOneLive(s, a);
    case ConsumeChallenge(_) => ConsumeKeepsOneLive(s, a);
    case _ => OthersKeepOneLive(s, a);
  }

  lemma OthersKeepOneLive(s: State, a: Action)
    requires OneLivePerLogin(s)
    requires !a.InsertToken? && !a.RotateToken? && !a.ConsumeChallenge?
    ensures OneLivePerLogin(Step(s, a))
  {
  }

  /** An insert hands the chain's one place from the task to the new token. */
  lemma InsertKeepsOneLive(s: State, a: Action)
    requires OneLivePerLogin(s) && a.InsertToken?
    ensures OneLivePerLogin(Step(s, a))
  {
  }

  /** A rotation hands it from the token to the task. */
  lemma RotateKeepsOneLive(s: State, a: Action)
    requires OneLivePerLogin(s) && a.RotateToken?
    ensures OneLivePerLogin(Step(s, a))
  {
  }

  /** A login opens a chain in which nothing can be yet. */
  lemma ConsumeKeepsOneLive(s: State, a: Action)
    requires Provenance(s) && OneLivePerLogin(s) && a.ConsumeChallenge?
    ensures OneLivePerLogin(Step(s, a))
  {
  }

  lemma StepMarks(s: State, a: Action)
    requires MarksAreGrants(s)
    ensures MarksAreGrants(Step(s, a))
  {
    var s' := Step(s, a);
    StepKeepsGrants(s, a);
    forall h | h in s'.challenges && s'.challenges[h].consumedAt.Some?
      ensures Granter(s', ByChallenge(h))
    {
      if h in s.challenges && s.challenges[h].consumedAt.Some? {
        GranterStays(s, a, ByChallenge(h));
      } else {
        assert a.ConsumeChallenge?;
        assert s'.tasks[a.task].grant == ByChallenge(h);
      }
    }
    forall h | h in s'.tokens && s'.tokens[h].revokedAt.Some?
      ensures Granter(s', ByToken(h))
    {
      if h in s.tokens && s.tokens[h].revokedAt.Some? {
        GranterStays(s, a, ByToken(h));
      } else {
        assert a.RotateToken?;
        assert s'.tasks[a.task].grant == ByToken(h);
      }
    }
  }

  lemma GranterStays(s: State, a: Action, g: Grant)
    requires Granter(s, g)
    ensures Granter(Step(s, a), g)
  {
    StepKeepsGrants(s, a);
    var id :| id in s.tasks && s.tasks[id].Granted() && s.tasks[id].grant == g;
    assert Step(s, a).tasks[id].grant == g;
  }

  /** In every interleaving of any number of logins and refreshes. */
  lemma {:induction false} RunSafe(actions: seq<Action>)
    ensures Safe(Run(actions))
  {
    if actions != [] {
      RunSafe(actions[..|actions| - 1]);
      var s, a := Run(actions[..|actions| - 1]), actions[|actions| - 1];
      StepSingleUse(s, a);
      StepProvenance(s, a);
      StepOneLive(s, a);
      StepMarks(s, a);
    }
  }

  /** A server that goes through any interleaving is in a safe state after every step of it. */
  method Serve(actions: seq<Action>) returns (server: AuthServer)
    ensures server.Snapshot() == Run(actions)
    ensures Safe(server.Snapshot())
  {
    hide Step, Safe;
    server := new AuthServer();
    RunSafe([]);
    for i := 0 to |actions|
      invariant fresh(server)
      invariant server.Snapshot() == Run(actions[..i])
      invariant Safe(server.Snapshot())
    {
      assert actions[..i + 1][..i] == actions[..i];
      server.Perform(actions[i]);
      RunSafe(actions[..i + 1]);
    }
    assert actions[..|actions|] == actions;
  }

  // ----- the promises ------------------------------------------------------------------

  /** A challenge is used up exactly when one login succeeded on it, exactly one did, for the
      account the challenge was built for, and the time it was stamped with lies before its
      expiry. */
  lemma ChallengeSingleUse(actions: seq<Action>, h: Hash)
    requires h in Run(actions).challenges
    ensures var s := Run(actions);
      && (s.challenges[h].consumedAt.Some? <==> Granter(s, ByChallenge(h)))
      && (s.challenges[h].consumedAt.Some? ==>
            s.challenges[h].consumedAt.value < s.challenges[h].expiresAt)
      && (forall a :: a in s.tasks && s.tasks[a].Granted() && s.tasks[a].grant == ByChallenge(h)
                      ==> s.tasks[a].account == s.challenges[h].account)
      && forall a, b :: && a in s.tasks && s.tasks[a].Granted() && s.tasks[a].grant == ByChallenge(h)
                        && b in s.tasks && s.tasks[b].Granted() && s.tasks[b].grant == ByChallenge(h)
                        ==> a == b
  {
    RunSafe(actions);
    var s := Run(actions);
    forall id | id in s.tasks && s.tasks[id].Granted() && s.tasks[id].grant == ByChallenge(h)
      ensures Backed(s, id)
    {
    }
  }

  /** The same for the rotation of a refresh token; the new session goes to its account. */
  lemma TokenSingleRotation(actions: seq<Action>, h: Hash)
    requires h in Run(actions).tokens
    ensures var s := Run(actions);
      && (s.tokens[h].revokedAt.Some? <==> Granter(s, ByToken(h)))
      && (s.tokens[h].revokedAt.Some? ==> s.tokens[h].revokedAt.value < s.tokens[h].expiresAt)
      && (forall a :: a in s.tasks && s.tasks[a].Granted() && s.tasks[a].grant == ByToken(h)
                      ==> s.tasks[a].account == s.tokens[h].account)
      && forall a, b :: && a in s.tasks && s.tasks[a].Granted() && s.tasks[a].grant == ByToken(h)
                        && b in s.tasks && s.tasks[b].Granted() && s.tasks[b].grant == ByToken(h)
                        ==> a == b
  {
    RunSafe(actions);
    var s := Run(actions);
    forall id | id in s.tasks && s.tasks[id].Granted() && s.tasks[id].grant == ByToken(h)
      ensures Backed(s, id)
    {
    }
  }

  /** At any moment the tokens that descend from one login include at most one that can still
      be rotated, and all of them act for the account that login proved. */
  lemma ChainHasOneLiveToken(actions: seq<Action>, g: Hash, h: Hash)
    requires g in Run(actions).tokens && h in Run(actions).tokens
    requires Run(actions).tokens[g].login == Run(actions).tokens[h].login
    ensures var s := Run(actions);
      && (Live(s, g) && Live(s, h) ==> g == h)
      && s.tokens[g].account == s.tokens[h].account
      && LoggedIn(s, s.tokens[g].login, s.tokens[g].account)
  {
    RunSafe(actions);
    var s := Run(actions);
    assert LoggedIn(s, s.tokens[g].login, s.tokens[g].account);
    assert LoggedIn(s, s.tokens[h].login, s.tokens[h].account);
  }

  // ----- what succeeds -----------------------------------------------------------------

  /** In every run the update of a ready login is granted if and only if its challenge was built for
      the account, was not consumed, and expires after the reading; it marks the row with the
      reading.  Otherwise the request is rejected and no row changes. */
  lemma LoginGrantedIff(actions: seq<Action>, id: nat)
    requires id in Run(actions).tasks && Run(actions).tasks[id].LoginReady?
    ensures var s := Run(actions);
      var t, s' := s.tasks[id], Step(s, ConsumeChallenge(id));
      && s'.tokens == s.tokens
      && if t.challenge in s.challenges && s.challenges[t.challenge].account == t.account
            && s.challenges[t.challenge].consumedAt == None && t.now < s.challenges[t.challenge].expiresAt
         then
           && s'.tasks == s.tasks[id := Issuing(t.account, id, ByChallenge(t.challenge))]
           && s'.challenges == s.challenges[t.challenge := ChallengeRow(
                t.account, s.challenges[t.challenge].expiresAt, Some(t.now))]
         else s'.tasks == s.tasks[id := Rejected] && s'.challenges == s.challenges
  {
  }

  /** The same for a refresh and its token. */
  lemma RefreshGrantedIff(actions: seq<Action>, id: nat)
    requires id in Run(actions).tasks && Run(actions).tasks[id].RefreshReady?
    ensures var s := Run(actions);
      var t, s' := s.tasks[id], Step(s, RotateToken(id));
      && s'.challenges == s.challenges
      && t.token in s.tokens && s.tokens[t.token].account == t.account
      && if s.tokens[t.token].revokedAt == None && t.now < s.tokens[t.token].expiresAt
         then
           && s'.tasks == s.tasks[id := Issuing(t.account, s.tokens[t.token].login, ByToken(t.token))]
           && s'.tokens == s.tokens[t.token := TokenRow(
                t.account, s.tokens[t.token].expiresAt, Some(t.now), s.tokens[t.token].login)]
         else s'.tasks == s.tasks[id := Rejected] && s'.tokens == s.tokens
  {
    RunSafe(actions);
  }

  /** A granted request on a free hash stores a token for its account, in its chain, that is not
      revoked and expires when it was told to. */
  lemma InsertStores(s: State, id: nat, minted: Hash, expiresAt: nat)
    requires id in s.tasks && s.tasks[id].Issuing? && minted !in s.tokens
    ensures var t, s' := s.tasks[id], Step(s, InsertToken(id, minted, expiresAt));
      && s'.tokens == s.tokens[minted := TokenRow(t.account, expiresAt, None, t.login)]
      && s'.tasks == s.tasks[id := Issued(t.account, t.login, t.grant, minted)]
      && s'.challenges == s.challenges && s'.clock == s.clock
  {
  }

  /** A granted request that fails, at a hash that is taken or anywhere else on the way to its
      insert, is lost: it leaves every row as it is, so what granted it stays used. */
  lemma FailureLosesGrant(s: State, id: nat, minted: Hash, expiresAt: nat)
    requires id in s.tasks && s.tasks[id].Issuing?
    ensures var t := s.tasks[id];
      var lost := State(s.clock, s.challenges, s.tokens, s.tasks[id := Lost(t.account, t.login, t.grant)]);
      && Step(s, Abort(id)) == lost
      && (minted in s.tokens ==> Step(s, InsertToken(id, minted, expiresAt)) == lost)
  {
  }

  /** A login at time 0 whose token expires at `expiry`, and a refresh of that token `wait` later. */
  function LoginThenRefresh(account: Account, challenge: Hash, first: Hash, second: Hash,
                            expiry: nat, wait: nat, nextExpiry: nat): seq<Action>
  {
    [BuildChallenge(challenge, account, 0), StartLogin(0, challenge, account), ConsumeChallenge(0),
     InsertToken(0, first, expiry), Tick(wait), StartRefresh(1, first), LookUpToken(1),
     RotateToken(1), InsertToken(1, second, nextExpiry)]
  }

  lemma RunNext(actions: seq<Action>, k: nat)
    requires k < |actions|
    ensures Run(actions[..k + 1]) == Step(Run(actions[..k]), actions[k])
  {
    assert actions[..k + 1][..k] == actions[..k];
  }

  /** Those steps up to the update of the login, one by one. */
  lemma LoginGoesThrough(account: Account, challenge: Hash)
    ensures var s := Step(INIT, BuildChallenge(challenge, account, 0));
      Step(Step(s, StartLogin(0, challenge, account)), ConsumeChallenge(0))
      == State(0, map[challenge := ChallengeRow(account, 300_000, Some(0))], map[],
               map[0 := Issuing(account, 0, ByChallenge(challenge))])
  {
    var s := Step(INIT, BuildChallenge(challenge, account, 0));
    var t := Step(s, StartLogin(0, challenge, account));
    assert t == State(0, map[challenge := ChallengeRow(account, 300_000, None)], map[],
                      map[0 := LoginReady(challenge, account, 0)]);
    assert t.challenges[challenge := ChallengeRow(account, 300_000, Some(0))]
        == map[challenge := ChallengeRow(account, 300_000, Some(0))];
    assert t.tasks[0 := Issuing(account, 0, ByChallenge(challenge))]
        == map[0 := Issuing(account, 0, ByChallenge(challenge))];
  }

  /** A refresh of a live token, from the request to the insert of the next one. */
  lemma RefreshGoesThrough(s: State, id: nat, token: Hash, minted: Hash, expiresAt: nat)
    requires id !in s.tasks && Live(s, token) && minted !in s.tokens
    ensures var row := s.tokens[token];
      var s' := Step(Step(s, StartRefresh(id, token)), LookUpToken(id));
      var s'' := Step(Step(s', RotateToken(id)), InsertToken(id, minted, expiresAt));
      && s''.challenges == s.challenges && id in s''.tasks
      && if s.clock < row.expiresAt then
           && s''.tokens == s.tokens[token := row.(revokedAt := Some(s.clock))]
                                    [minted := TokenRow(row.account, expiresAt, None, row.login)]
           && s''.tasks[id] == Issued(row.account, row.login, ByToken(token), minted)
         else s''.tokens == s.tokens && s''.tasks[id] == Rejected
  {
  }

  lemma InsertThenTick(s: State, id: nat, minted: Hash, expiresAt: nat, wait: nat)
    requires id in s.tasks && s.tasks[id].Issuing? && minted !in s.tokens
    ensures var t, s' := s.tasks[id], Step(Step(s, InsertToken(id, minted, expiresAt)), Tick(wait));
      && s'.tokens == s.tokens[minted := TokenRow(t.account, expiresAt, None, t.login)]
      && s'.tasks == s.tasks[id := Issued(t.account, t.login, t.grant, minted)]
      && s'.challenges == s.challenges && s'.clock == s.clock + wait
  {
  }

  lemma RunSteps(actions: seq<Action>)
    requires |actions| == 9
    ensures Run(actions[..3]) == Step(Step(Step(Run(actions[..0]), actions[0]), actions[1]), actions[2])
    ensures Run(actions[..5]) == Step(Step(Run(actions[..3]), actions[3]), actions[4])
    ensures Run(actions[..9])
         == Step(Step(Step(Step(Run(actions[..5]), actions[5]), actions[6]), actions[7]), actions[8])
  {
    hide Run, Step;
    RunNext(actions, 0);
    RunNext(actions, 1);
    RunNext(actions, 2);
    RunNext(actions, 3);
    RunNext(actions, 4);
    RunNext(actions, 5);
    RunNext(actions, 6);
    RunNext(actions, 7);
    RunNext(actions, 8);
  }

  /** Runs do get through: the login and its insert succeed, and the refresh does exactly while the
      token has not expired; it leaves the old token revoked and the new one live. */
  lemma LoginThenRefreshSucceeds(account: Account, challenge: Hash, first: Hash, second: Hash,
                                 expiry: nat, wait: nat, nextExpiry: nat)
    requires first != second
    ensures var s := Run(LoginThenRefresh(account, challenge, first, second, expiry, wait, nextExpiry));
      var minted := TokenRow(account, expiry, None, 0);
      && s.challenges == map[challenge := ChallengeRow(account, 300_000, Some(0))]
      && 1 in s.tasks
      && if wait < expiry then
           && s.tokens == map[first := minted][first := minted.(revokedAt := Some(wait))]
                          [second := TokenRow(account, nextExpiry, None, 0)]
           && s.tasks[1] == Issued(account, 0, ByToken(first), second)
         else s.tokens == map[first := minted] && s.tasks[1] == Rejected
  {
    var actions := LoginThenRefresh(account, challenge, first, second, expiry, wait, nextExpiry);
    assert actions[..0] == [] && Run([]) == INIT && actions[..9] == actions;
    hide Run;
    LoginGoesThrough(account, challenge);
    RunSteps(actions);
    var granted := Run(actions[..3]);
    assert granted == State(0, map[challenge := ChallengeRow(account, 300_000, Some(0))], map[],
                            map[0 := Issuing(account, 0, ByChallenge(challenge))]);
    InsertStores(granted, 0, first, expiry);
    hide Step;
    InsertThenTick(granted, 0, first, expiry, wait);
    RefreshGoesThrough(Run(actions[..5]), 1, first, second, nextExpiry);
  }

  // ----- when an update takes effect ---------------------------------------------------

  /** The time a row is marked with, if it is there and marked. */
  function Mark(s: State, g: Grant): Option<nat> {
    match g
    case ByChallenge(h) => if h in s.challenges then s.challenges[h].consumedAt else None
    case ByToken(h) => if h in s.tokens then s.tokens[h].revokedAt else None
  }

  function Expiry(s: State, g: Grant): nat {
    match g
    case ByChallenge(h) => if h in s.challenges then s.challenges[h].expiresAt else 0
    case ByToken(h) => if h in s.tokens then s.tokens[h].expiresAt else 0
  }

  /** The step that marks a row. */
  predicate Lands(s: State, a: Action, g: Grant) {
    Mark(s, g).None? && Mark(Step(s, a), g).Some?
  }

  /** It lands when the row has already expired. */
  predicate LandsLate(s: State, a: Action, g: Grant) {
    Lands(s, a, g) && s.clock >= Expiry(s, g)
  }

  /** A task whose next step is a conditional update. */
  predicate Updating(s: State, a: Action) {
    || (a.ConsumeChallenge? && a.task in s.tasks && s.tasks[a.task].LoginReady?)
    || (a.RotateToken? && a.task in s.tasks && s.tasks[a.task].RefreshReady?)
  }

  /** Every clock reading a task carries lies in the past. */
  ghost predicate ReadingsPast(s: State) {
    && (forall id :: id in s.tasks && s.tasks[id].LoginReady? ==> s.tasks[id].now <= s.clock)
    && (forall id :: id in s.tasks && s.tasks[id].RefreshReady? ==> s.tasks[id].now <= s.clock)
  }

  lemma {:induction false} RunReadingsPast(actions: seq<Action>)
    ensures ReadingsPast(Run(actions))
  {
    if actions != [] {
      RunReadingsPast(actions[..|actions| - 1]);
    }
  }

  /** How long the task of an update has waited since it read the clock. */
  function Wait(s: State, a: Action): int {
    if Updating(s, a) then s.clock - s.tasks[a.task].now else 0
  }

  /** Only an update of a ready task marks a row; it stamps the row with the task's reading,
      which lies before the expiry. */
  lemma LandingIsUpdate(s: State, a: Action, g: Grant)
    requires Lands(s, a, g)
    ensures Updating(s, a) && Mark(Step(s, a), g) == Some(s.tasks[a.task].now)
    ensures s.tasks[a.task].now < Expiry(s, g)
  {
  }

  /** In every run an update that succeeds lands at or after the expiry of its row if and only
      if its task has waited at least as long as the row was still valid when it read the
      clock; and it is late by less than it waited. */
  lemma LandsLateIff(actions: seq<Action>, a: Action, g: Grant)
    requires Lands(Run(actions), a, g)
    ensures var s := Run(actions);
      && Updating(s, a) && Wait(s, a) >= 0
      && Mark(Step(s, a), g) == Some(s.tasks[a.task].now)
      && s.tasks[a.task].now < Expiry(s, g)
      && (LandsLate(s, a, g) <==> Wait(s, a) >= Expiry(s, g) - s.tasks[a.task].now)
      && s.clock < Expiry(s, g) + Wait(s, a)
  {
    RunReadingsPast(actions);
    LandingIsUpdate(Run(actions), a, g);
  }

  /** Every mark of a run landed in one of its steps. */
  lemma {:induction false} MarkLanded(actions: seq<Action>, g: Grant) returns (k: nat)
    requires Mark(Run(actions), g).Some?
    ensures k < |actions| && Lands(Run(actions[..k]), actions[k], g)
    ensures Expiry(Run(actions[..k]), g) == Expiry(Run(actions), g)
  {
    var n := |actions| - 1;
    StepKeepsGrants(Run(actions[..n]), actions[n]);
    if Mark(Run(actions[..n]), g).Some? {
      k := MarkLanded(actions[..n], g);
      assert actions[..n][..k] == actions[..k];
    } else {
      k := n;
      RowThere(Run(actions[..n]), actions[n], g);
    }
  }

  lemma RowThere(s: State, a: Action, g: Grant)
    requires Lands(s, a, g)
    ensures Expiry(Step(s, a), g) == Expiry(s, g)
  {
  }

  /** No update of the run waited longer than this. */
  ghost predicate WaitsAtMost(actions: seq<Action>, w: nat) {
    forall k :: 0 <= k < |actions| ==> Wait(Run(actions[..k]), actions[k]) <= w
  }

  /** So every mark of a run landed before its row's expiry plus the longest wait. */
  lemma MarksLandWithinWait(actions: seq<Action>, w: nat, g: Grant) returns (k: nat)
    requires WaitsAtMost(actions, w) && Mark(Run(actions), g).Some?
    ensures k < |actions| && Lands(Run(actions[..k]), actions[k], g)
    ensures Run(actions[..k]).clock < Expiry(Run(actions), g) + w
  {
    k := MarkLanded(actions, g);
    LandsLateIff(actions[..k], actions[k], g);
  }

  ghost predicate NeverLate(actions: seq<Action>) {
    forall k, g :: 0 <= k < |actions| ==> !LandsLate(Run(actions[..k]), actions[k], g)
  }

  /** Waits of at most `w` keep every update of every run before the expiry of its row if and
      only if there is no wait at all. */
  lemma NeverLateIffNoWait(w: nat)
    ensures (forall actions :: WaitsAtMost(actions, w) ==> NeverLate(actions)) <==> w == 0
  {
    if w == 0 {
      forall actions | WaitsAtMost(actions, w) ensures NeverLate(actions) {
        forall k, g | 0 <= k < |actions| ensures !LandsLate(Run(actions[..k]), actions[k], g) {
          if Lands(Run(actions[..k]), actions[k], g) {
            LandsLateIff(actions[..k], actions[k], g);
          }
        }
      }
    } else {
      var actions := LoginAfter(CHALLENGE_TTL_MS - 1, 1);
      UpdateCanLandAfterExpiry(CHALLENGE_TTL_MS - 1, 1);
      assert LandsLate(Run(actions[..4]), actions[4], ByChallenge(7));
      assert !NeverLate(actions);
    }
  }

  /** A challenge built at time 0, a login that reads the clock at `reading` and whose update
      lands `wait` later. */
  function LoginAfter(reading: nat, wait: nat): seq<Action> {
    [BuildChallenge(7, 1, 0), Tick(reading), StartLogin(0, 7, 1), Tick(wait), ConsumeChallenge(0)]
  }

  /** The update goes through whenever the reading was in time, however late it lands. */
  lemma UpdateCanLandAfterExpiry(reading: nat, wait: nat)
    ensures var actions := LoginAfter(reading, wait);
      && (Lands(Run(actions[..4]), actions[4], ByChallenge(7)) <==> reading < CHALLENGE_TTL_MS)
      && (LandsLate(Run(actions[..4]), actions[4], ByChallenge(7))
          <==> reading < CHALLENGE_TTL_MS <= reading + wait)
      && WaitsAtMost(actions, wait)
  {
    var actions := LoginAfter(reading, wait);
    var s1 := Step(INIT, actions[0]);
    var s2 := Step(s1, actions[1]);
    var s3 := Step(s2, actions[2]);
    var s4 := Step(s3, actions[3]);
    RunNext(actions, 0);
    RunNext(actions, 1);
    RunNext(actions, 2);
    RunNext(actions, 3);
    assert actions[..0] == [];
    assert Run(actions[..4]) == s4;
    assert s4.tasks[0] == LoginReady(7, 1, reading) && s4.clock == reading + wait;
  }
}
