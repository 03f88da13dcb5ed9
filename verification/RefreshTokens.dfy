/**
 Rotation of refresh tokens with reuse detection. Every SQL statement or transaction is one atomic
 step; refreshes of any tokens run interleaved with logins, revocations and changes to users.
 */
module RefreshTokens {
  import opened Options
  import opened Sets

  const DURATION := 7 * 24 * 3600

  datatype Token = Token(user: int, hash: string, expires: int, revoked: Option<int>)

  /** byHash is the unique index on token_hash; active says of each user whether the account is. */
  datatype Db = Db(active: map<int, bool>, tokens: map<int, Token>, byHash: map<string, int>, nextId: int, now: int)

  // ---------- statements ----------

  /** CreateRefreshToken: an unknown user or a known hash is an error. */
  function Create(db: Db, user: int, hash: string): Option<Db> {
    if user !in db.active || hash in db.byHash then None
    else Some(db.(tokens := db.tokens[db.nextId := Token(user, hash, db.now + DURATION, None)],
                  byHash := db.byHash[hash := db.nextId], nextId := db.nextId + 1))
  }

  function Dead(t: Token, now: int): Token {
    t.(revoked := Some(now))
  }

  /** RevokeRefreshToken also moves the time of an earlier revocation. */
  function RevokeOne(db: Db, id: int): Db {
    if id in db.tokens then db.(tokens := db.tokens[id := Dead(db.tokens[id], db.now)]) else db
  }

  function RevokeUser(db: Db, user: int): Db {
    db.(tokens := map id | id in db.tokens ::
          if db.tokens[id].user == user && db.tokens[id].revoked.None? then Dead(db.tokens[id], db.now)
          else db.tokens[id])
  }

  datatype Rotation = Rotated(db: Db) | NoRows | Failed

  /** RotateRefreshToken: revoke the old token if it is not revoked, and insert its successor. */
  function Rotate(db: Db, token: int, user: int, hash: string): Rotation {
    if token !in db.tokens || db.tokens[token].revoked.Some? then NoRows
    else
      match Create(RevokeOne(db, token), user, hash)
      case None => Failed
      case Some(next) => Rotated(next)
  }

  predicate Usable(db: Db, hash: string) {
    hash in db.byHash && db.byHash[hash] in db.tokens
    && db.tokens[db.byHash[hash]].revoked.None? && db.tokens[db.byHash[hash]].expires > db.now
  }

  // ---------- a refresh, statement by statement ----------

  datatype Outcome = Issued(id: int) | FamilyRevoked | Rejected | Broken
  datatype PC =
    | LookUp
    | Reuse
    | CheckUser(token: int, user: int)
    | Inactive(user: int)
    | Rotating(token: int, user: int)
    | Family(user: int)
    | Audit(user: int)
    | Done(outcome: Outcome)

  /** Where a refresh goes on when its statement fails: a failing first look-up is taken for an unknown token,
      and a failing look-up of a reused one is answered like a token never issued. */
  function AfterFailure(pc: PC): PC {
    match pc
    case LookUp => Reuse
    case Reuse => Done(Rejected)
    case Done(_) => pc
    case _ => Done(Broken)
  }

  /** The next statement of a refresh that presents the token with this hash. */
  function Advance(db: Db, pc: PC, hash: string, newHash: string): (Db, PC) {
    match pc
    case LookUp =>
      if Usable(db, hash) then (db, CheckUser(db.byHash[hash], db.tokens[db.byHash[hash]].user)) else (db, Reuse)
    case Reuse =>
      if hash in db.byHash && db.byHash[hash] in db.tokens
         && db.tokens[db.byHash[hash]].revoked.Some? && db.tokens[db.byHash[hash]].user > 0
      then (db, Family(db.tokens[db.byHash[hash]].user))
      else (db, Done(Rejected))
    case CheckUser(token, user) =>
      if user !in db.active then (db, Done(Rejected))
      else if db.active[user] then (db, Rotating(token, user))
      else (db, Inactive(user))
    case Inactive(user) => (RevokeUser(db, user), Done(Rejected))
    case Rotating(token, user) =>
      (match Rotate(db, token, user, newHash)
       case Rotated(next) => (next, Done(Issued(db.nextId)))
       case NoRows => (db, Family(user))
       case Failed => (db, Done(Broken)))
    case Family(user) => (RevokeUser(db, user), Audit(user))
    case Audit(_) => (db, Done(FamilyRevoked))
    case Done(_) => (db, pc)
  }

  // ---------- interleaved runs ----------

  datatype Request = Request(hash: string, pc: PC)

  /** parent maps each successor to the token it replaced, chain each token to the login it stems from. */
  datatype State = State(db: Db, requests: map<int, Request>, parent: map<int, int>, chain: map<int, int>)

  datatype Event =
    | AddUser(user: int)
    | UpdateUser(user: int, active: bool, revoke: bool)
    | Login(user: int, hash: string)
    | Present(request: int, hash: string)
    | Proceed(request: int, newHash: string, fails: bool)
    | Revoke(token: int)
    | RevokeAll(user: int)
    | Tick(seconds: nat)

  function LogIn(s: State, user: int, hash: string): State {
    match Create(s.db, user, hash)
    case None => s
    case Some(db) => s.(db := db, chain := s.chain[s.db.nextId := s.db.nextId])
  }

  function ProceedRefresh(s: State, request: int, newHash: string): State
    requires request in s.requests
  {
    var r := s.requests[request];
    var (db, pc) := Advance(s.db, r.pc, r.hash, newHash);
    var t := s.(db := db, requests := s.requests[request := r.(pc := pc)]);
    if r.pc.Rotating? && pc.Done? && pc.outcome.Issued? && r.pc.token in s.chain
    then t.(parent := s.parent[pc.outcome.id := r.pc.token], chain := s.chain[pc.outcome.id := s.chain[r.pc.token]])
    else t
  }

  function FailStatement(s: State, request: int): State
    requires request in s.requests
  {
    var r := s.requests[request];
    s.(requests := s.requests[request := r.(pc := AfterFailure(r.pc))])
  }

  function Step(s: State, e: Event): State {
    match e
    case AddUser(user) =>
      if user in s.db.active || user <= 0 then s else s.(db := s.db.(active := s.db.active[user := true]))
    case UpdateUser(user, active, revoke) =>
      if user !in s.db.active then s
      else
        var db := s.db.(active := s.db.active[user := active]);
        s.(db := if revoke then RevokeUser(db, user) else db)
    case Login(user, hash) => LogIn(s, user, hash)
    case Present(request, hash) =>
      if request in s.requests then s else s.(requests := s.requests[request := Request(hash, LookUp)])
    case Proceed(request, newHash, fails) =>
      if request !in s.requests || s.requests[request].pc.Done? then s
      else if fails then FailStatement(s, request)
      else ProceedRefresh(s, request, newHash)
    case Revoke(token) => s.(db := RevokeOne(s.db, token))
    case RevokeAll(user) => s.(db := RevokeUser(s.db, user))
    case Tick(seconds) => s.(db := s.db.(now := s.db.now + seconds))
  }

  const START := State(Db(map[], map[], map[], 1, 0), map[], map[], map[])

  function Follow(s: State, more: seq<Event>): State {
    if more == [] then s else Step(Follow(s, more[..|more| - 1]), more[|more| - 1])
  }

  // ---------- the invariant ----------

  ghost predicate GoodDb(db: Db) {
    && (forall u :: u in db.active ==> u > 0)
    && (forall id :: id in db.tokens ==> id < db.nextId && db.tokens[id].user in db.active)
    && (forall id :: id in db.tokens ==> db.tokens[id].hash in db.byHash && db.byHash[db.tokens[id].hash] == id)
    && (forall h :: h in db.byHash ==> db.byHash[h] in db.tokens && db.tokens[db.byHash[h]].hash == h)
  }

  /** Tokens of one chain belong to one user, and at most one of them is not revoked. */
  ghost predicate OneLive(db: Db, chain: map<int, int>) {
    && chain.Keys == db.tokens.Keys && (forall t :: t in chain ==> chain[t] < db.nextId)
    && (forall a, b :: a in chain && b in chain && chain[a] == chain[b] && a != b ==>
          db.tokens[a].revoked.Some? || db.tokens[b].revoked.Some?)
  }

  /** A token with a successor is revoked, and no token has two. */
  ghost predicate OneSuccessor(db: Db, parent: map<int, int>) {
    && (forall t :: t in parent ==> t in db.tokens && parent[t] in db.tokens && db.tokens[parent[t]].revoked.Some?)
    && (forall a, b :: a in parent && b in parent && parent[a] == parent[b] ==> a == b)
  }

  predicate Presents(t: Token, hash: string, user: int) {
    t.hash == hash && t.user == user
  }

  ghost predicate KnowsRevoked(db: Db, hash: string, user: int) {
    exists id :: id in db.tokens && Presents(db.tokens[id], hash, user) && db.tokens[id].revoked.Some?
  }

  /** What a refresh knows: the token it looked up, or whose it is, or that it has been revoked; and, at the end, the
      successor of the token presented. */
  ghost predicate GoodRequest(db: Db, parent: map<int, int>, r: Request) {
    match r.pc
    case CheckUser(token, user) =>
      token in db.tokens && db.tokens[token].user == user && db.tokens[token].hash == r.hash
    case Rotating(token, user) => token in db.tokens && db.tokens[token].user == user && db.tokens[token].hash == r.hash
    case Inactive(user) => exists id :: id in db.tokens && Presents(db.tokens[id], r.hash, user)
    case Family(user) => KnowsRevoked(db, r.hash, user)
    case Audit(user) => KnowsRevoked(db, r.hash, user)
    case Done(Issued(id)) => id in parent && parent[id] in db.tokens && db.tokens[parent[id]].hash == r.hash
    case _ => true
  }

  predicate IsIssued(r: Request, id: int) {
    r.pc == Done(Issued(id))
  }

  ghost predicate GoodRequests(s: State) {
    && (forall k :: k in s.requests ==> GoodRequest(s.db, s.parent, s.requests[k]))
    && (forall j, k, id ::
          j in s.requests && k in s.requests && IsIssued(s.requests[j], id) && IsIssued(s.requests[k], id) ==> j == k)
  }

  ghost predicate Good(s: State) {
    GoodDb(s.db) && OneLive(s.db, s.chain) && OneSuccessor(s.db, s.parent) && GoodRequests(s)
  }

  /** Tokens are never removed and never change hands; a revoked one stays revoked. */
  ghost predicate Later(a: Db, b: Db) {
    forall id :: id in a.tokens ==>
      id in b.tokens && b.tokens[id].user == a.tokens[id].user && b.tokens[id].hash == a.tokens[id].hash
      && (a.tokens[id].revoked.Some? ==> b.tokens[id].revoked.Some?)
  }

  ghost predicate OnlyRevoked(a: Db, b: Db) {
    && Later(a, b) && a.tokens.Keys == b.tokens.Keys
    && a.byHash == b.byHash && a.nextId == b.nextId && a.active.Keys <= b.active.Keys
    && (forall u :: u in b.active ==> u > 0)
  }

  lemma LaterKeepsRequest(a: Db, b: Db, p: map<int, int>, q: map<int, int>, r: Request)
    requires Later(a, b) && GoodRequest(a, p, r) && forall t :: t in p ==> t in q && q[t] == p[t]
    ensures GoodRequest(b, q, r)
  {
  }

  lemma LaterKeepsRequests(s: State, db: Db)
    requires Later(s.db, db) && GoodRequests(s)
    ensures GoodRequests(s.(db := db))
  {
    forall k | k in s.requests ensures GoodRequest(db, s.parent, s.requests[k]) {
      LaterKeepsRequest(s.db, db, s.parent, s.parent, s.requests[k]);
    }
  }

  lemma RevokedDb(a: Db, b: Db)
    requires GoodDb(a) && OnlyRevoked(a, b)
    ensures GoodDb(b)
  {
  }

  lemma RevokedTokens(a: Db, b: Db, parent: map<int, int>, chain: map<int, int>)
    requires OneLive(a, chain) && OneSuccessor(a, parent) && OnlyRevoked(a, b)
    ensures OneLive(b, chain) && OneSuccessor(b, parent)
  {
    assert forall t :: t in chain ==> t in a.tokens && (a.tokens[t].revoked.Some? ==> b.tokens[t].revoked.Some?);
  }

  lemma RevokedKeepsGood(s: State, db: Db)
    requires Good(s) && OnlyRevoked(s.db, db)
    ensures Good(s.(db := db))
  {
    LaterKeepsRequests(s, db);
    RevokedDb(s.db, db);
    RevokedTokens(s.db, db, s.parent, s.chain);
  }

  lemma CreateKeepsDb(db: Db, user: int, hash: string)
    requires GoodDb(db) && Create(db, user, hash).Some?
    ensures GoodDb(Create(db, user, hash).value) && Later(db, Create(db, user, hash).value) && db.nextId !in db.tokens
  {
    assert db.nextId !in db.tokens;
  }

  lemma CreateKeepsTokens(db: Db, user: int, hash: string, parent: map<int, int>, chain: map<int, int>, c: int)
    requires OneLive(db, chain) && OneSuccessor(db, parent) && Create(db, user, hash).Some? && db.nextId !in db.tokens
             && c <= db.nextId
    requires forall t :: t in chain && chain[t] == c ==> db.tokens[t].revoked.Some?
    ensures var next := Create(db, user, hash).value;
            OneLive(next, chain[db.nextId := c]) && OneSuccessor(next, parent)
  {
  }

  lemma LoginKeepsGood(s: State, user: int, hash: string)
    requires Good(s)
    ensures Good(LogIn(s, user, hash))
  {
    if Create(s.db, user, hash).Some? {
      CreateKeepsDb(s.db, user, hash);
      CreateKeepsTokens(s.db, user, hash, s.parent, s.chain, s.db.nextId);
      LaterKeepsRequests(s, Create(s.db, user, hash).value);
    }
  }

  /** Changing where one request stands keeps the rest, unless it now claims a token that is another's. */
  lemma MovedKeepsGood(s: State, request: int, r: Request)
    requires Good(s) && GoodRequest(s.db, s.parent, r) && !(r.pc.Done? && r.pc.outcome.Issued?)
    ensures Good(s.(requests := s.requests[request := r]))
  {
  }

  /** Once the old token is revoked its whole chain is, and it had no successor. */
  lemma RevokedBeforeSuccessor(s: State, token: int)
    requires GoodDb(s.db) && OneLive(s.db, s.chain) && OneSuccessor(s.db, s.parent)
    requires token in s.db.tokens && s.db.tokens[token].revoked.None?
    ensures var db := RevokeOne(s.db, token);
            && OnlyRevoked(s.db, db) && token in s.chain
            && (forall t :: t in s.chain && s.chain[t] == s.chain[token] ==> db.tokens[t].revoked.Some?)
            && (forall t :: t in s.parent ==> s.parent[t] != token)
  {
  }

  lemma RotationKeepsTables(s: State, token: int, user: int, newHash: string)
    requires GoodDb(s.db) && OneLive(s.db, s.chain) && OneSuccessor(s.db, s.parent)
    requires Rotate(s.db, token, user, newHash).Rotated?
    ensures var db := Rotate(s.db, token, user, newHash).db;
            && token in s.chain && s.db.nextId !in s.db.tokens && Later(s.db, db) && GoodDb(db)
            && OneLive(db, s.chain[s.db.nextId := s.chain[token]])
            && OneSuccessor(db, s.parent[s.db.nextId := token])
  {
    var revoked := RevokeOne(s.db, token);
    RevokedBeforeSuccessor(s, token);
    RevokedDb(s.db, revoked);
    RevokedTokens(s.db, revoked, s.parent, s.chain);
    CreateKeepsDb(revoked, user, newHash);
    CreateKeepsTokens(revoked, user, newHash, s.parent, s.chain, s.chain[token]);
  }

  lemma RotationKeepsRequests(s: State, request: int, newHash: string)
    requires Good(s) && request in s.requests && s.requests[request].pc.Rotating?
    requires Rotate(s.db, s.requests[request].pc.token, s.requests[request].pc.user, newHash).Rotated?
    ensures GoodRequests(ProceedRefresh(s, request, newHash))
  {
    var r := s.requests[request];
    var t := ProceedRefresh(s, request, newHash);
    RotationKeepsTables(s, r.pc.token, r.pc.user, newHash);
    assert GoodRequest(s.db, s.parent, r);
    assert s.db.nextId !in s.parent;
    forall k | k in s.requests && k != request
      ensures GoodRequest(t.db, t.parent, t.requests[k]) && !IsIssued(s.requests[k], s.db.nextId)
    {
      LaterKeepsRequest(s.db, t.db, s.parent, t.parent, s.requests[k]);
    }
    assert GoodRequest(t.db, t.parent, t.requests[request]);
    assert IsIssued(t.requests[request], s.db.nextId);
  }

  lemma AdvanceKeepsRequest(db: Db, parent: map<int, int>, r: Request, newHash: string)
    requires GoodDb(db) && GoodRequest(db, parent, r) && !r.pc.Done?
    requires r.pc.Rotating? ==> !Rotate(db, r.pc.token, r.pc.user, newHash).Rotated?
    ensures var (next, pc) := Advance(db, r.pc, r.hash, newHash);
            GoodRequest(db, parent, r.(pc := pc)) && !(pc.Done? && pc.outcome.Issued?)
  {
    match r.pc
    case Reuse =>
      if r.hash in db.byHash && db.byHash[r.hash] in db.tokens {
        var id := db.byHash[r.hash];
        assert Presents(db.tokens[id], r.hash, db.tokens[id].user);
        assert db.tokens[id].revoked.Some? ==> KnowsRevoked(db, r.hash, db.tokens[id].user);
      }
    case CheckUser(token, user) => assert Presents(db.tokens[token], r.hash, user);
    case Rotating(token, user) => assert Presents(db.tokens[token], r.hash, user);
    case _ =>
  }

  lemma ProceedKeepsGood(s: State, request: int, newHash: string)
    requires Good(s) && request in s.requests && !s.requests[request].pc.Done?
    ensures Good(ProceedRefresh(s, request, newHash))
  {
    var r := s.requests[request];
    assert GoodRequest(s.db, s.parent, r);
    var (db, pc) := Advance(s.db, r.pc, r.hash, newHash);
    if r.pc.Rotating? && Rotate(s.db, r.pc.token, r.pc.user, newHash).Rotated? {
      RotationKeepsTables(s, r.pc.token, r.pc.user, newHash);
      RotationKeepsRequests(s, request, newHash);
    } else {
      OtherStatements(s, request, newHash);
    }
  }

  lemma OtherStatements(s: State, request: int, newHash: string)
    requires Good(s) && request in s.requests && !s.requests[request].pc.Done?
    requires var pc := s.requests[request].pc; pc.Rotating? ==> !Rotate(s.db, pc.token, pc.user, newHash).Rotated?
    ensures Good(ProceedRefresh(s, request, newHash))
  {
    var r := s.requests[request];
    assert GoodRequest(s.db, s.parent, r);
    var (db, pc) := Advance(s.db, r.pc, r.hash, newHash);
    AdvanceKeepsRequest(s.db, s.parent, r, newHash);
    MovedKeepsGood(s, request, r.(pc := pc));
    if r.pc.Inactive? || r.pc.Family? { RevocationsOnlyRevoke(s.db, r.pc.user, 0); }
    var t := s.(requests := s.requests[request := r.(pc := pc)]);
    RevokedKeepsGood(t, db);
  }

  lemma RevocationsOnlyRevoke(db: Db, user: int, id: int)
    requires GoodDb(db)
    ensures OnlyRevoked(db, RevokeUser(db, user)) && OnlyRevoked(db, RevokeOne(db, id))
  {
  }

  lemma OthersOnlyRevoke(s: State, e: Event)
    requires GoodDb(s.db) && (e.AddUser? || e.UpdateUser? || e.Revoke? || e.RevokeAll? || e.Tick?)
    ensures OnlyRevoked(s.db, Step(s, e).db) && Step(s, e) == s.(db := Step(s, e).db)
  {
    match e
    case UpdateUser(user, active, revoke) =>
      if user in s.db.active {
        var db := s.db.(active := s.db.active[user := active]);
        RevocationsOnlyRevoke(db, user, 0);
      }
    case Revoke(token) => RevocationsOnlyRevoke(s.db, 0, token);
    case RevokeAll(user) => RevocationsOnlyRevoke(s.db, user, 0);
    case AddUser(_) =>
    case Tick(_) =>
  }

  lemma OthersKeepGood(s: State, e: Event)
    requires Good(s) && (e.AddUser? || e.UpdateUser? || e.Revoke? || e.RevokeAll? || e.Tick?)
    ensures Good(Step(s, e))
  {
    OthersOnlyRevoke(s, e);
    RevokedKeepsGood(s, Step(s, e).db);
  }

  lemma StepKeepsGood(s: State, e: Event)
    requires Good(s)
    ensures Good(Step(s, e))
  {
    if e.Login? {
      LoginKeepsGood(s, e.user, e.hash);
    } else if e.Present? {
      if e.request !in s.requests { MovedKeepsGood(s, e.request, Request(e.hash, LookUp)); }
    } else if !e.Proceed? {
      OthersKeepGood(s, e);
    } else if e.request in s.requests && !s.requests[e.request].pc.Done? {
      if e.fails {
        MovedKeepsGood(s, e.request, s.requests[e.request].(pc := AfterFailure(s.requests[e.request].pc)));
      } else {
        ProceedKeepsGood(s, e.request, e.newHash);
      }
    }
  }

  lemma {:induction false} FollowIsGood(s: State, more: seq<Event>)
    requires Good(s)
    ensures Good(Follow(s, more))
  {
    if more != [] {
      FollowIsGood(s, more[..|more| - 1]);
      StepKeepsGood(Follow(s, more[..|more| - 1]), more[|more| - 1]);
    }
  }

  // ---------- what holds in every run ----------

  /** No token has two successors, no login chain has two unrevoked tokens, and of all refreshes that
      present the same token at most one is answered with a successor. */
  lemma EveryRun(events: seq<Event>)
    ensures var s := Follow(START, events);
            && (forall a, b :: a in s.parent && b in s.parent && s.parent[a] == s.parent[b] ==> a == b)
            && s.chain.Keys == s.db.tokens.Keys
            && (forall a, b :: a in s.chain && b in s.chain && SameChain(s, a, b) ==> a == b)
            && (forall j, k ::
                  j in s.requests && k in s.requests && BothSucceed(s.requests[j], s.requests[k]) ==> j == k)
  {
    FollowIsGood(START, events);
    var s := Follow(START, events);
    forall j, k | j in s.requests && k in s.requests && BothSucceed(s.requests[j], s.requests[k])
      ensures j == k
    {
      assert GoodRequest(s.db, s.parent, s.requests[j]) && GoodRequest(s.db, s.parent, s.requests[k]);
      assert IsIssued(s.requests[j], s.requests[j].pc.outcome.id)
             && IsIssued(s.requests[k], s.requests[k].pc.outcome.id);
    }
  }

  /** Unrevoked tokens that stem from the same login. */
  predicate SameChain(s: State, a: int, b: int)
    requires a in s.chain && b in s.chain && s.chain.Keys == s.db.tokens.Keys
  {
    s.chain[a] == s.chain[b] && s.db.tokens[a].revoked.None? && s.db.tokens[b].revoked.None?
  }

  predicate BothSucceed(a: Request, b: Request) {
    a.hash == b.hash && Succeeded(a) && Succeeded(b)
  }

  predicate Succeeded(r: Request) {
    r.pc.Done? && r.pc.outcome.Issued?
  }

  ghost predicate AllRevoked(db: Db, user: int) {
    forall id :: id in db.tokens && db.tokens[id].user == user ==> db.tokens[id].revoked.Some?
  }

  predicate NoLogin(events: seq<Event>, user: int) {
    forall k :: 0 <= k < |events| ==> !(events[k].Login? && events[k].user == user)
  }

  lemma StepStaysRevoked(s: State, e: Event, user: int)
    requires Good(s) && AllRevoked(s.db, user) && !(e.Login? && e.user == user)
    ensures AllRevoked(Step(s, e).db, user)
  {
    if e.Proceed? && e.request in s.requests {
      assert GoodRequest(s.db, s.parent, s.requests[e.request]);
    }
  }

  /** After all tokens of a user are revoked, refreshes still under way included, only a login of that
      user makes an unrevoked one. */
  lemma {:induction false} OnlyLoginRevives(s: State, more: seq<Event>, user: int)
    requires Good(s) && AllRevoked(s.db, user) && NoLogin(more, user)
    ensures AllRevoked(Follow(s, more).db, user)
  {
    if more != [] {
      var fewer := more[..|more| - 1];
      FollowIsGood(s, fewer);
      OnlyLoginRevives(s, fewer, user);
      StepStaysRevoked(Follow(s, fewer), more[|more| - 1], user);
    }
  }

  // ---------- reuse ----------

  predicate IsRevoked(db: Db, hash: string, user: int) {
    hash in db.byHash && db.byHash[hash] in db.tokens
    && db.tokens[db.byHash[hash]].user == user && db.tokens[db.byHash[hash]].revoked.Some?
  }

  /** No session of the user begun by a login before the n-th token goes on. */
  ghost predicate SessionsOver(s: State, user: int, n: int) {
    forall id :: id in s.chain && id in s.db.tokens && s.db.tokens[id].user == user && s.chain[id] < n ==>
      s.db.tokens[id].revoked.Some?
  }

  /** A refresh whose token has been revoked, before it was presented or since. Unless one of its statements has
      failed, it ends with the sessions of the user over. */
  ghost predicate Ends(s: State, request: int, user: int, n: int, replay: bool, failed: bool) {
    && request in s.requests && IsRevoked(s.db, s.requests[request].hash, user) && n <= s.db.nextId
    && match s.requests[request].pc
       case LookUp => !failed
       case Reuse => !failed
       case CheckUser(_, u) => !replay && u == user && !failed
       case Inactive(u) => !replay && u == user && !failed
       case Rotating(_, u) => !replay && u == user && !failed
       case Family(u) => u == user && !failed
       case Audit(u) => u == user && !failed && SessionsOver(s, user, n)
       case Done(outcome) =>
         if failed then outcome == Rejected || outcome == Broken
         else
           && (outcome == FamilyRevoked || outcome == Broken || (outcome == Rejected && !replay))
           && SessionsOver(s, user, n)
  }

  /** A statement of the refresh fails, other than the first look-up, which then counts as one that finds nothing, and
      the audit row. */
  predicate FailsAt(s: State, e: Event, request: int) {
    && e.Proceed? && e.request == request && e.fails
    && request in s.requests && !s.requests[request].pc.Done?
    && !s.requests[request].pc.LookUp? && !s.requests[request].pc.Audit?
  }

  predicate Fails(s: State, more: seq<Event>, request: int) {
    more != []
    && (Fails(s, more[..|more| - 1], request) || FailsAt(Follow(s, more[..|more| - 1]), more[|more| - 1], request))
  }

  ghost predicate KeepsTokens(a: Db, b: Db) {
    Later(a, b) && forall h :: h in a.byHash ==> h in b.byHash && b.byHash[h] == a.byHash[h]
  }

  lemma CreateKeepsTokensOf(db: Db, user: int, hash: string)
    requires GoodDb(db) && Create(db, user, hash).Some?
    ensures KeepsTokens(db, Create(db, user, hash).value)
  {
    assert db.nextId !in db.tokens;
  }

  lemma AdvanceKeepsTokens(db: Db, pc: PC, hash: string, newHash: string)
    requires GoodDb(db)
    ensures KeepsTokens(db, Advance(db, pc, hash, newHash).0)
  {
    match pc
    case Inactive(user) => RevocationsOnlyRevoke(db, user, 0);
    case Family(user) => RevocationsOnlyRevoke(db, user, 0);
    case Rotating(token, user) =>
      if Rotate(db, token, user, newHash).Rotated? {
        RevocationsOnlyRevoke(db, 0, token);
        RevokedDb(db, RevokeOne(db, token));
        CreateKeepsTokensOf(RevokeOne(db, token), user, newHash);
      }
    case _ =>
  }

  lemma StepKeepsTokens(s: State, e: Event)
    requires Good(s)
    ensures KeepsTokens(s.db, Step(s, e).db)
  {
    if e.Login? {
      if Create(s.db, e.user, e.hash).Some? { CreateKeepsTokensOf(s.db, e.user, e.hash); }
    } else if e.Proceed? {
      if e.request in s.requests {
        AdvanceKeepsTokens(s.db, s.requests[e.request].pc, s.requests[e.request].hash, e.newHash);
      }
    } else if !e.Present? {
      OthersOnlyRevoke(s, e);
    }
  }

  lemma StepKeepsOver(s: State, e: Event, user: int, n: int)
    requires Good(s) && n <= s.db.nextId && SessionsOver(s, user, n)
    ensures n <= Step(s, e).db.nextId && SessionsOver(Step(s, e), user, n)
  {
    StepKeepsTokens(s, e);
    if e.Proceed? && e.request in s.requests {
      assert GoodRequest(s.db, s.parent, s.requests[e.request]);
    }
  }

  lemma EverythingIsOver(s: State, request: int, user: int, n: int, pc: PC)
    requires Good(s) && request in s.requests
    ensures var moved := s.requests[request := s.requests[request].(pc := pc)];
            SessionsOver(s.(db := RevokeUser(s.db, user), requests := moved), user, n)
  {
  }

  /** The statement that revokes everything. */
  lemma RevokingStep(s: State, request: int, newHash: string, user: int, n: int, replay: bool, failed: bool)
    requires Good(s) && Ends(s, request, user, n, replay, failed)
    requires s.requests[request].pc.Inactive? || s.requests[request].pc.Family?
    ensures Ends(ProceedRefresh(s, request, newHash), request, user, n, replay, failed)
  {
    StepKeepsTokens(s, Proceed(request, newHash, false));
    assert ProceedRefresh(s, request, newHash) == Step(s, Proceed(request, newHash, false));
    EverythingIsOver(s, request, user, n, if s.requests[request].pc.Family? then Audit(user) else Done(Rejected));
  }

  /** The refresh's own next statement. */
  lemma OwnStep(s: State, request: int, newHash: string, user: int, n: int, replay: bool, failed: bool)
    requires Good(s) && Ends(s, request, user, n, replay, failed) && !s.requests[request].pc.Done?
    ensures Ends(ProceedRefresh(s, request, newHash), request, user, n, replay, failed)
  {
    var r := s.requests[request];
    var e := Proceed(request, newHash, false);
    if r.pc.Inactive? || r.pc.Family? {
      RevokingStep(s, request, newHash, user, n, replay, failed);
    } else {
      StepKeepsTokens(s, e);
      assert GoodRequest(s.db, s.parent, r);
      assert s.db.byHash[r.hash] in s.db.tokens && s.db.tokens[s.db.byHash[r.hash]].user in s.db.active;
      assert ProceedRefresh(s, request, newHash) == Step(s, e);
      match r.pc
      case Audit(u) => StepKeepsOver(s, e, user, n);
      case Rotating(token, u) => assert token == s.db.byHash[r.hash];
      case _ =>
    }
  }

  lemma OthersLeaveIt(s: State, e: Event, request: int)
    requires Good(s) && request in s.requests
    requires !(e.Proceed? && e.request == request && !s.requests[request].pc.Done?)
    ensures request in Step(s, e).requests && Step(s, e).requests[request] == s.requests[request]
    ensures s.db.nextId <= Step(s, e).db.nextId
  {
  }

  lemma StaysRevoked(s: State, e: Event, hash: string, user: int)
    requires Good(s) && IsRevoked(s.db, hash, user)
    ensures IsRevoked(Step(s, e).db, hash, user)
  {
    StepKeepsTokens(s, e);
  }

  lemma OtherStep(s: State, e: Event, request: int, user: int, n: int, replay: bool, failed: bool)
    requires Good(s) && Ends(s, request, user, n, replay, failed)
    requires !(e.Proceed? && e.request == request && !s.requests[request].pc.Done?)
    ensures Ends(Step(s, e), request, user, n, replay, failed)
  {
    var t := Step(s, e);
    StaysRevoked(s, e, s.requests[request].hash, user);
    OthersLeaveIt(s, e, request);
    if SessionsOver(s, user, n) { StepKeepsOver(s, e, user, n); }
  }

  lemma StepEnds(s: State, e: Event, request: int, user: int, n: int, replay: bool, failed: bool)
    requires Good(s) && Ends(s, request, user, n, replay, failed)
    ensures Ends(Step(s, e), request, user, n, replay, failed || FailsAt(s, e, request))
  {
    if !(e.Proceed? && e.request == request) || s.requests[request].pc.Done? {
      OtherStep(s, e, request, user, n, replay, failed);
    } else if e.fails {
      assert Step(s, e) == FailStatement(s, request);
    } else {
      OwnStep(s, request, e.newHash, user, n, replay, failed);
    }
  }

  lemma {:induction false} FollowEnds(s: State, more: seq<Event>, request: int, user: int, n: int, replay: bool)
    requires Good(s) && Ends(s, request, user, n, replay, false)
    ensures Ends(Follow(s, more), request, user, n, replay, Fails(s, more, request))
  {
    if more != [] {
      var fewer := more[..|more| - 1];
      FollowIsGood(s, fewer);
      FollowEnds(s, fewer, request, user, n, replay);
      StepEnds(Follow(s, fewer), more[|more| - 1], request, user, n, replay, Fails(s, fewer, request));
    }
  }

  /** A refresh under way whose token is revoked, by whomever and at whatever point before its own rotation, never gets
      a successor; and once it has completed, all sessions of the user that had begun by now are over, those of other
      refreshes that go on meanwhile included, unless one of its statements failed. */
  lemma LostRefreshEndsSessions(s: State, request: int, more: seq<Event>)
    requires Good(s) && request in s.requests && !s.requests[request].pc.Done? && !s.requests[request].pc.Audit?
    requires var hash := s.requests[request].hash;
             hash in s.db.byHash && s.db.tokens[s.db.byHash[hash]].revoked.Some?
    ensures var user, t := s.db.tokens[s.db.byHash[s.requests[request].hash]].user, Follow(s, more);
            && request in t.requests && !Succeeded(t.requests[request])
            && (t.requests[request].pc.Done? && !Fails(s, more, request) ==> SessionsOver(t, user, s.db.nextId))
  {
    assert GoodRequest(s.db, s.parent, s.requests[request]);
    FollowEnds(s, more, request, s.db.tokens[s.db.byHash[s.requests[request].hash]].user, s.db.nextId, false);
  }

  lemma StepKeepsChain(s: State, e: Event, id: int)
    requires Good(s) && id in s.chain
    ensures id in Step(s, e).chain && Step(s, e).chain[id] == s.chain[id]
  {
    assert id < s.db.nextId;
  }

  lemma {:induction false} FollowKeepsChain(s: State, more: seq<Event>, id: int)
    requires Good(s) && id in s.chain
    ensures id in Follow(s, more).chain && Follow(s, more).chain[id] == s.chain[id]
    ensures id in Follow(s, more).db.tokens && id in s.db.tokens
    ensures Follow(s, more).db.tokens[id].user == s.db.tokens[id].user
  {
    if more != [] {
      var fewer := more[..|more| - 1];
      FollowIsGood(s, fewer);
      FollowKeepsChain(s, fewer, id);
      StepKeepsChain(Follow(s, fewer), more[|more| - 1], id);
      StepKeepsTokens(Follow(s, fewer), more[|more| - 1]);
    }
  }

  lemma IssuedFrom(s: State, request: int, newHash: string)
    requires Good(s) && request in s.requests && s.requests[request].pc.Rotating?
    requires Succeeded(ProceedRefresh(s, request, newHash).requests[request])
    ensures var u, id, hash := ProceedRefresh(s, request, newHash), s.db.nextId, s.requests[request].hash;
            && u.requests[request].pc == Done(Issued(id)) && id in u.chain && u.chain[id] < u.db.nextId
            && hash in s.db.byHash && s.db.byHash[hash] in s.db.tokens && s.db.tokens[s.db.byHash[hash]].revoked.None?
            && IsRevoked(u.db, hash, s.db.tokens[s.db.byHash[hash]].user)
            && id in u.db.tokens && u.db.tokens[id].user == s.db.tokens[s.db.byHash[hash]].user
  {
    var pc := s.requests[request].pc;
    assert GoodRequest(s.db, s.parent, s.requests[request]);
    assert Rotate(s.db, pc.token, pc.user, newHash).Rotated?;
    RotationKeepsTables(s, pc.token, pc.user, newHash);
    StepKeepsTokens(s, Proceed(request, newHash, false));
  }

  lemma OthersAreBefore(s: State, other: int, token: int)
    requires Good(s) && other in s.requests && token in s.db.tokens && s.db.tokens[token].revoked.None?
    requires s.requests[other].hash == s.db.tokens[token].hash
    ensures !s.requests[other].pc.Audit? && !s.requests[other].pc.Family?
  {
    assert GoodRequest(s.db, s.parent, s.requests[other]);
  }

  /** Two refreshes with one token: when the first gets its successor, the second, if still under way, gets none, and
      once it has completed the successor is revoked, unless one of its statements failed. */
  lemma RaceEndsSuccessor(s: State, first: int, newHash: string, second: int, more: seq<Event>)
    requires Good(s) && first in s.requests && s.requests[first].pc.Rotating? && second in s.requests && second != first
    requires s.requests[second].hash == s.requests[first].hash && !s.requests[second].pc.Done?
    requires Succeeded(Step(s, Proceed(first, newHash, false)).requests[first])
    ensures var u := Step(s, Proceed(first, newHash, false));
            var id, t := u.requests[first].pc.outcome.id, Follow(u, more);
            && second in t.requests && !Succeeded(t.requests[second]) && id in t.db.tokens
            && (t.requests[second].pc.Done? && !Fails(u, more, second) ==> t.db.tokens[id].revoked.Some?)
  {
    var e := Proceed(first, newHash, false);
    var u := Step(s, e);
    assert u == ProceedRefresh(s, first, newHash);
    IssuedFrom(s, first, newHash);
    OthersAreBefore(s, second, s.db.byHash[s.requests[first].hash]);
    StepKeepsGood(s, e);
    OthersLeaveIt(s, e, second);
    LostRefreshEndsSessions(u, second, more);
    FollowKeepsChain(u, more, s.db.nextId);
  }

  /** All sessions of the user were begun by logins before the n-th token. */
  ghost predicate BegunBefore(s: State, user: int, n: int) {
    forall id :: id in s.chain && id in s.db.tokens && s.db.tokens[id].user == user ==> s.chain[id] < n
  }

  lemma StepBeginsNone(s: State, e: Event, user: int, n: int)
    requires Good(s) && !(e.Login? && e.user == user) && BegunBefore(s, user, n)
    ensures BegunBefore(Step(s, e), user, n)
  {
    StepKeepsTokens(s, e);
    if e.Proceed? && e.request in s.requests {
      assert GoodRequest(s.db, s.parent, s.requests[e.request]);
    }
  }

  /** As long as the user does not log in, no session begins. */
  lemma {:induction false} FollowBeginsNone(s: State, more: seq<Event>, user: int)
    requires Good(s) && NoLogin(more, user)
    ensures BegunBefore(Follow(s, more), user, s.db.nextId)
  {
    if more != [] {
      var fewer := more[..|more| - 1];
      FollowIsGood(s, fewer);
      FollowBeginsNone(s, fewer, user);
      StepBeginsNone(Follow(s, fewer), more[|more| - 1], user, s.db.nextId);
    }
  }

  /** Whoever presents a revoked token ends the user's sessions: once that refresh has completed, every token of
      the user is revoked until the next login, also those issued to other refreshes after the replay began;
      unless the look-up of the reused token or the revocation failed, and then the refresh does not say so. */
  lemma ReplayEndsSessions(s: State, token: int, request: int, more: seq<Event>)
    requires Good(s) && token in s.db.tokens && s.db.tokens[token].revoked.Some? && request !in s.requests
    requires NoLogin(more, s.db.tokens[token].user)
    ensures var u := Step(s, Present(request, s.db.tokens[token].hash));
            var t := Follow(u, more);
            && request in t.requests && !Succeeded(t.requests[request])
            && (t.requests[request].pc.Done? ==>
                  if Fails(u, more, request) then t.requests[request].pc.outcome in {Rejected, Broken}
                  else
                    && t.requests[request].pc.outcome in {FamilyRevoked, Broken}
                    && AllRevoked(t.db, s.db.tokens[token].user))
  {
    var e := Present(request, s.db.tokens[token].hash);
    var u := Step(s, e);
    StepKeepsGood(s, e);
    FollowEnds(u, more, request, s.db.tokens[token].user, s.db.nextId, true);
    FollowBeginsNone(u, more, s.db.tokens[token].user);
    FollowIsGood(u, more);
  }

  lemma FollowThree(s: State, a: Event, b: Event, c: Event)
    ensures Follow(s, [a, b, c]) == Step(Step(Step(s, a), b), c)
  {
    assert [a, b, c][..2] == [a, b] && [a, b][..1] == [a] && [a][..0] == [];
    assert Follow(s, [a]) == Step(s, a);
    assert Follow(s, [a, b]) == Step(Step(s, a), b);
  }

  /** A replay goes unnoticed when the look-up of the reused token fails: the answer is that to an unknown token,
      and every session of the user goes on. */
  lemma UnnoticedReplay(s: State, token: int, request: int, newHash: string)
    requires Good(s) && token in s.db.tokens && s.db.tokens[token].revoked.Some? && request !in s.requests
    ensures var t := Follow(s, [Present(request, s.db.tokens[token].hash), Proceed(request, newHash, false),
                                Proceed(request, newHash, true)]);
            t.db == s.db && request in t.requests && t.requests[request].pc == Done(Rejected)
  {
    var a, b := Present(request, s.db.tokens[token].hash), Proceed(request, newHash, false);
    var c := Proceed(request, newHash, true);
    FollowThree(s, a, b, c);
    assert Step(Step(s, a), b).requests[request].pc == Reuse;
  }

  // ---------- logging in and out ----------

  /** A login of a known user with a new hash begins one session of its own, for seven days. */
  lemma LoginBegins(s: State, user: int, hash: string)
    requires Good(s) && user in s.db.active && hash !in s.db.byHash
    ensures var t, id := Step(s, Login(user, hash)), s.db.nextId;
            && id !in s.db.tokens && id in t.chain && t.chain[id] == id
            && t.db.tokens == s.db.tokens[id := Token(user, hash, s.db.now + 7 * 24 * 3600, None)]
            && Usable(t.db, hash) && t.db.byHash[hash] == id
  {
    CreateKeepsDb(s.db, user, hash);
  }

  /** Revoking one token ends it, and revoking all, by itself or with a change to the account, ends every session. */
  lemma RevocationEnds(s: State, user: int, token: int, active: bool)
    requires Good(s)
    ensures token in s.db.tokens ==>
              && token in Step(s, Revoke(token)).db.tokens && Step(s, Revoke(token)).db.tokens[token].revoked.Some?
              && Step(s, Revoke(token)).db.tokens - {token} == s.db.tokens - {token}
    ensures AllRevoked(Step(s, RevokeAll(user)).db, user)
    ensures user in s.db.active ==>
              var t := Step(s, UpdateUser(user, active, true));
              AllRevoked(t.db, user) && user in t.db.active && t.db.active[user] == active
  {
  }

  // ---------- one refresh alone ----------

  function Rank(pc: PC): nat {
    match pc
    case LookUp => 5
    case CheckUser(_, _) => 4
    case Rotating(_, _) => 3
    case Reuse => 3
    case Family(_) => 2
    case Audit(_) => 1
    case Inactive(_) => 1
    case Done(_) => 0
  }

  function Complete(db: Db, pc: PC, hash: string, newHash: string): (Db, Outcome)
    decreases Rank(pc)
  {
    if pc.Done? then (db, pc.outcome)
    else var (next, rest) := Advance(db, pc, hash, newHash); Complete(next, rest, hash, newHash)
  }

  /** What a refresh that nothing interferes with answers, and what it leaves of the user's tokens. */
  ghost predicate Answered(db: Db, hash: string, newHash: string, after: Db, outcome: Outcome)
    requires GoodDb(db)
  {
    if hash !in db.byHash then outcome == Rejected && after == db
    else
      var id := db.byHash[hash];
      var t := db.tokens[id];
      if t.revoked.Some? then outcome == FamilyRevoked && AllRevoked(after, t.user)
      else if t.expires <= db.now then outcome == Rejected && after == db
      else if !db.active[t.user] then outcome == Rejected && AllRevoked(after, t.user)
      else
        && outcome == Issued(db.nextId) && db.nextId !in db.tokens
        && after.tokens
             == db.tokens[id := Dead(t, db.now)][db.nextId := Token(t.user, newHash, db.now + 7 * 24 * 3600, None)]
  }

  lemma NextStatement(db: Db, pc: PC, hash: string, newHash: string)
    requires !pc.Done?
    ensures var (next, rest) := Advance(db, pc, hash, newHash);
            Complete(db, pc, hash, newHash)
            == (if rest.Done? then (next, rest.outcome) else Complete(next, rest, hash, newHash))
  {
  }

  lemma RefreshAlone(db: Db, hash: string, newHash: string)
    requires GoodDb(db) && newHash !in db.byHash
    ensures var (after, outcome) := Complete(db, LookUp, hash, newHash); Answered(db, hash, newHash, after, outcome)
  {
    NextStatement(db, LookUp, hash, newHash);
    if Usable(db, hash) {
      var id, user := db.byHash[hash], db.tokens[db.byHash[hash]].user;
      NextStatement(db, CheckUser(id, user), hash, newHash);
      NextStatement(db, Rotating(id, user), hash, newHash);
      NextStatement(db, Inactive(user), hash, newHash);
    } else {
      NextStatement(db, Reuse, hash, newHash);
      if hash in db.byHash {
        var user := db.tokens[db.byHash[hash]].user;
        NextStatement(db, Family(user), hash, newHash);
        NextStatement(RevokeUser(db, user), Audit(user), hash, newHash);
      }
    }
  }

  // ---------- the handler over its store ----------

  /** What other requests may do between two statements of a refresh. */
  ghost predicate Disturbed(a: Db, b: Db) {
    GoodDb(a) ==> GoodDb(b) && KeepsTokens(a, b) && a.now <= b.now
  }

  /** One statement leads from here to there, where others have acted since: it does what Advance says, or fails. */
  ghost predicate Leads(here: (Db, PC), hash: string, newHash: string, there: (Db, PC)) {
    var (db, next) := Advance(here.0, here.1, hash, newHash);
    (Disturbed(db, there.0) && there.1 == next) || (Disturbed(here.0, there.0) && there.1 == AfterFailure(here.1))
  }

  /** The statements of one refresh so far, each with the database and the point it met: what each does
      is what Advance says, or it fails, others act between any two, and the refresh now stands at pc. */
  ghost predicate Reached(start: Db, trace: seq<(Db, PC)>, hash: string, newHash: string, after: Db, pc: PC) {
    && |trace| > 0 && Disturbed(start, trace[0].0) && trace[0].1 == LookUp
    && (forall i :: 0 < i < |trace| ==> Leads(trace[i - 1], hash, newHash, trace[i]))
    && var last := trace[|trace| - 1];
       Advance(last.0, last.1, hash, newHash) == (after, pc) || (after == last.0 && pc == AfterFailure(last.1))
  }

  lemma NextStatementOf(start: Db, trace: seq<(Db, PC)>, hash: string, newHash: string, after: Db, pc: PC, db: Db)
    requires Reached(start, trace, hash, newHash, after, pc) && Disturbed(after, db)
    ensures var (next, rest) := Advance(db, pc, hash, newHash);
            Reached(start, trace + [(db, pc)], hash, newHash, next, rest)
    ensures Reached(start, trace + [(db, pc)], hash, newHash, db, AfterFailure(pc))
  {
  }

  lemma RevokedOneByOne(db: Db, user: int, tokens: map<int, Token>)
    requires tokens.Keys == db.tokens.Keys
    requires forall id :: id in tokens ==>
      tokens[id] ==
      if db.tokens[id].user == user && db.tokens[id].revoked.None? then Dead(db.tokens[id], db.now)
      else db.tokens[id]
    ensures tokens == RevokeUser(db, user).tokens
  {
    var all := RevokeUser(db, user).tokens;
    forall id | id in tokens ensures id in all && tokens[id] == all[id] {
    }
    assert tokens.Keys == all.Keys;
    assert tokens == all;
  }

  class Store {
    var active: map<int, bool>
    var tokens: map<int, Token>
    var byHash: map<string, int>
    var nextId: int
    var now: int

    function Snapshot(): Db
      reads this
    {
      Db(active, tokens, byHash, nextId, now)
    }

    method GetRefreshTokenByHash(hash: string) returns (id: Option<int>)
      ensures id == if Usable(Snapshot(), hash) then Some(byHash[hash]) else None
    {
      if hash in byHash && byHash[hash] in tokens && tokens[byHash[hash]].revoked.None?
         && tokens[byHash[hash]].expires > now
      {
        return Some(byHash[hash]);
      }
      id := None;
    }

    /** Token by token: afterwards the user has no unrevoked token; revoked ones keep their time, others their state. */
    method RevokeUserRefreshTokens(user: int)
      modifies this`tokens
      ensures Snapshot() == RevokeUser(old(Snapshot()), user)
      ensures AllRevoked(Snapshot(), user)
      ensures tokens.Keys == old(tokens).Keys
      ensures forall id :: id in tokens && (old(tokens)[id].user != user || old(tokens)[id].revoked.Some?) ==>
                tokens[id] == old(tokens)[id]
      ensures forall id :: id in tokens ==> tokens[id].(revoked := None) == old(tokens)[id].(revoked := None)
    {
      ghost var before := tokens;
      var rest := tokens.Keys;
      while rest != {}
        invariant rest <= tokens.Keys && tokens.Keys == before.Keys
        invariant forall id :: id in rest ==> tokens[id] == before[id]
        invariant forall id :: id in tokens && id !in rest ==>
          tokens[id] ==
          if before[id].user == user && before[id].revoked.None? then Dead(before[id], now) else before[id]
        decreases |rest|
      {
        HasMember(rest);
        var id :| id in rest;
        if tokens[id].user == user && tokens[id].revoked.None? {
          tokens := tokens[id := Dead(tokens[id], now)];
        }
        rest := rest - {id};
      }
      RevokedOneByOne(old(Snapshot()), user, tokens);
    }

    /** The UPDATE and the INSERT commit together: a refused INSERT rolls the revocation back. */
    method RotateRefreshToken(token: int, user: int, hash: string) returns (r: Rotation)
      modifies this
      ensures r == Rotate(old(Snapshot()), token, user, hash)
      ensures Snapshot() == if r.Rotated? then r.db else old(Snapshot())
    {
      if token !in tokens || tokens[token].revoked.Some? {
        return NoRows;
      }
      if user !in active || hash in byHash {
        return Failed;
      }
      tokens := tokens[token := Dead(tokens[token], now)];
      tokens := tokens[nextId := Token(user, hash, now + DURATION, None)];
      byHash := byHash[hash := nextId];
      nextId := nextId + 1;
      r := Rotated(Snapshot());
    }

    method CreateRefreshToken(user: int, hash: string) returns (ok: bool)
      modifies this
      ensures ok <==> Create(old(Snapshot()), user, hash).Some?
      ensures Snapshot() == if ok then Create(old(Snapshot()), user, hash).value else old(Snapshot())
    {
      if user !in active || hash in byHash {
        return false;
      }
      tokens := tokens[nextId := Token(user, hash, now + DURATION, None)];
      byHash := byHash[hash := nextId];
      nextId := nextId + 1;
      ok := true;
    }

    /** Any number of logins, rotations, revocations and changes to accounts, and any time. */
    method OtherRequests()
      modifies this
      ensures Disturbed(old(Snapshot()), Snapshot())
    {
      var elapsed: nat, n: nat := *, *;
      now := now + elapsed;
      for i := 0 to n
        invariant Disturbed(old(Snapshot()), Snapshot())
      {
        var action: int, user: int, token: int, flag: bool, hash: string := *, *, *, *, *;
        ghost var before := Snapshot();
        RevocationDisturbs(before, user);
        CreationDisturbs(before, user, hash);
        RotationDisturbs(before, token, user, hash);
        if action == 0 {
          RevokeUserRefreshTokens(user);
        } else if action == 1 {
          var created := CreateRefreshToken(user, hash);
        } else if action == 2 {
          var rotation := RotateRefreshToken(token, user, hash);
        } else if user in active {
          active := active[user := flag];
        }
        DisturbanceComposes(old(Snapshot()), before, Snapshot());
      }
    }

    /** Any statement may fail, and then changes nothing. */
    method Refresh(hash: string, newHash: string) returns (outcome: Outcome, ghost trace: seq<(Db, PC)>)
      modifies this
      ensures Reached(old(Snapshot()), trace, hash, newHash, Snapshot(), Done(outcome))
    {
      OtherRequests();
      trace := [(Snapshot(), LookUp)];
      var fails: bool := *;
      var found := GetRefreshTokenByHash(hash);
      if fails || found.None? {
        outcome, trace := HandleRefreshReuse(hash, newHash, old(Snapshot()), trace);
      } else {
        outcome, trace := RotateForUser(found.value, tokens[found.value].user, hash, newHash, old(Snapshot()), trace);
      }
    }

    method RotateForUser(token: int, user: int, hash: string, newHash: string, ghost start: Db,
                         ghost before: seq<(Db, PC)>)
      returns (outcome: Outcome, ghost trace: seq<(Db, PC)>)
      requires Reached(start, before, hash, newHash, Snapshot(), CheckUser(token, user))
      modifies this
      ensures Reached(start, trace, hash, newHash, Snapshot(), Done(outcome))
    {
      var fails: bool;
      fails, trace := AfterOthers(CheckUser(token, user), hash, newHash, start, before);
      if fails {
        outcome := Broken;
      } else if user !in active {
        outcome := Rejected;
      } else if active[user] {
        outcome, trace := RotateActive(token, user, hash, newHash, start, trace);
      } else {
        fails, trace := AfterOthers(Inactive(user), hash, newHash, start, trace);
        if fails {
          outcome := Broken;
          return;
        }
        RevokeUserRefreshTokens(user);
        outcome := Rejected;
      }
    }

    method RotateActive(token: int, user: int, hash: string, newHash: string, ghost start: Db,
                        ghost before: seq<(Db, PC)>)
      returns (outcome: Outcome, ghost trace: seq<(Db, PC)>)
      requires Reached(start, before, hash, newHash, Snapshot(), Rotating(token, user))
      modifies this
      ensures Reached(start, trace, hash, newHash, Snapshot(), Done(outcome))
    {
      var fails: bool;
      fails, trace := AfterOthers(Rotating(token, user), hash, newHash, start, before);
      if fails {
        outcome := Broken;
        return;
      }
      var id := nextId;
      var rotation := RotateRefreshToken(token, user, newHash);
      match rotation {
        case NoRows => outcome, trace := RevokeRefreshFamily(user, hash, newHash, start, trace);
        case Failed => outcome := Broken;
        case Rotated(_) => outcome := Issued(id);
      }
    }

    method HandleRefreshReuse(hash: string, ghost newHash: string, ghost start: Db, ghost before: seq<(Db, PC)>)
      returns (outcome: Outcome, ghost trace: seq<(Db, PC)>)
      requires Reached(start, before, hash, newHash, Snapshot(), Reuse)
      modifies this
      ensures Reached(start, trace, hash, newHash, Snapshot(), Done(outcome))
    {
      var fails: bool;
      fails, trace := AfterOthers(Reuse, hash, newHash, start, before);
      if fails || hash !in byHash || byHash[hash] !in tokens || tokens[byHash[hash]].revoked.None?
         || tokens[byHash[hash]].user <= 0
      {
        outcome := Rejected;
        return;
      }
      outcome, trace := RevokeRefreshFamily(tokens[byHash[hash]].user, hash, newHash, start, trace);
    }

    method RevokeRefreshFamily(user: int, ghost hash: string, ghost newHash: string, ghost start: Db,
                               ghost before: seq<(Db, PC)>)
      returns (outcome: Outcome, ghost trace: seq<(Db, PC)>)
      requires Reached(start, before, hash, newHash, Snapshot(), Family(user))
      modifies this
      ensures Reached(start, trace, hash, newHash, Snapshot(), Done(outcome))
      ensures outcome == FamilyRevoked || outcome == Broken
    {
      var fails: bool;
      fails, trace := AfterOthers(Family(user), hash, newHash, start, before);
      if fails {
        outcome := Broken;
        return;
      }
      RevokeUserRefreshTokens(user);
      fails, trace := AfterOthers(Audit(user), hash, newHash, start, trace);
      outcome := if fails then Broken else FamilyRevoked;
    }

    /** Others act, and the next statement meets what they left, or fails. */
    method AfterOthers(ghost pc: PC, ghost hash: string, ghost newHash: string, ghost start: Db,
                       ghost before: seq<(Db, PC)>)
      returns (fails: bool, ghost trace: seq<(Db, PC)>)
      requires Reached(start, before, hash, newHash, Snapshot(), pc)
      modifies this
      ensures fails ==> Reached(start, trace, hash, newHash, Snapshot(), AfterFailure(pc))
      ensures !fails ==>
                var (next, rest) := Advance(Snapshot(), pc, hash, newHash);
                Reached(start, trace, hash, newHash, next, rest)
    {
      ghost var after := Snapshot();
      OtherRequests();
      fails := *;
      trace := before + [(Snapshot(), pc)];
      NextStatementOf(start, before, hash, newHash, after, pc, Snapshot());
    }
  }

  lemma RevocationDisturbs(db: Db, user: int)
    ensures Disturbed(db, RevokeUser(db, user))
  {
    if GoodDb(db) {
      RevocationsOnlyRevoke(db, user, 0);
      RevokedDb(db, RevokeUser(db, user));
    }
  }

  lemma CreationDisturbs(db: Db, user: int, hash: string)
    ensures Create(db, user, hash).Some? ==> Disturbed(db, Create(db, user, hash).value)
  {
    if GoodDb(db) && Create(db, user, hash).Some? {
      CreateKeepsDb(db, user, hash);
      CreateKeepsTokensOf(db, user, hash);
    }
  }

  lemma RotationDisturbs(db: Db, token: int, user: int, hash: string)
    ensures Rotate(db, token, user, hash).Rotated? ==> Disturbed(db, Rotate(db, token, user, hash).db)
  {
    if GoodDb(db) && Rotate(db, token, user, hash).Rotated? {
      RevocationsOnlyRevoke(db, 0, token);
      RevokedDb(db, RevokeOne(db, token));
      AdvanceKeepsTokens(db, Rotating(token, user), hash, hash);
      CreateKeepsDb(RevokeOne(db, token), user, hash);
    }
  }

  lemma DisturbanceComposes(a: Db, b: Db, c: Db)
    requires Disturbed(a, b) && Disturbed(b, c)
    ensures Disturbed(a, c)
  {
  }
}
