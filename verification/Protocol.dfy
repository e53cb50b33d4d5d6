/**
 The refresh-token protocol as a state machine. Any number of requests, on any number of
 stateless instances, work on one shared store; every event below is one storage command or
 one clock read of one request, so a sequence of events is an interleaving. A request may
 stop after any of its events (`Stop`): a storage error and a request timeout both do that.
 */
module Protocol {
  import opened Options
  import opened Records

  type Rid = nat

  /** What a sweep covers: the index of one user or of one session. */
  datatype Scope = OfUser(userId: Id) | OfSession(sessionId: Id)

  predicate Concerns(scope: Scope, userId: Id, sessionId: Id) {
    match scope
    case OfUser(u) => userId == u
    case OfSession(i) => sessionId == i
  }

  /** Reuse detection and an explicit request sweep alike but answer differently. */
  datatype Reason = Reuse | Requested

  /** A running sweep: the members it was given and those it has not taken up yet. */
  datatype Sweep = Sweep(scope: Scope, reason: Reason, snapshot: set<Token>, left: set<Token>)

  datatype Origin = FromLogin | FromRefresh

  /** Why a request runs UpdateStatus, and what it needs to go on afterwards. */
  datatype Goal =
    | MarkUsed(read: Record, readAt: nat)
    | LogoutToken(owner: Option<Record>)
    | SweepToken(sweep: Sweep)

  /** The next thing a request will do, with its local variables. */
  datatype Pc =
    | LoginInsert(row: Session)
    | Mint(userId: Id, sessionId: Id, origin: Origin)
    | CreateTtl(token: Token, record: Record, origin: Origin)
    | CreateExec(token: Token, record: Record, ttl: int, origin: Origin)
    | TouchStamp(sessionId: Id, renewed: Token)
    | Touch(sessionId: Id, at: int, renewed: Token)
    | RefreshFind(token: Token)
    | RefreshCheck(token: Token, record: Record, readAt: nat)
    | RefreshUser(token: Token, record: Record, readAt: nat)
    | UpdateFind(token: Token, goal: Goal)
    | UpdateTtl(token: Token, record: Record, goal: Goal)
    | UpdateSet(token: Token, record: Record, ttl: int, ttlAt: int, goal: Goal)
    | SweepMembers(scope: Scope, reason: Reason)
    | SweepNext(sweep: Sweep)
    | SweepFind(token: Token, sweep: Sweep)
    | RevokeRows(scope: Scope, reason: Reason, snapshot: set<Token>)
    | LogoutFind(token: Token)
    | OwnerCheck(userId: Id, sessionId: Id)

  datatype Outcome =
    | LoggedIn(token: Token)
    | Refreshed(token: Token)
    | Rejected       // ErrInvalidRefreshToken
    | ReuseDetected  // ErrRefreshTokenReuseDetected
    | Done
    | Failed         // any other error, including a request cut short

  /** History: the identity a token was generated with, and by which request. */
  datatype Birth = Birth(userId: Id, sessionId: Id, createdAt: int, expiresAt: int, minter: Rid)

  /** History: a refresh that marked its token, with the steps of its read and of its write. */
  datatype Mark = Mark(token: Token, readAt: nat, markAt: nat, ttlAt: int)

  datatype State = State(
    now: int,
    steps: nat,
    lifetime: int,
    tokens: map<Token, Entry>,
    userIndex: map<Id, set<Token>>,
    sessionIndex: map<Id, set<Token>>,
    sessions: map<Id, Session>,
    requests: map<Rid, Pc>,
    results: map<Rid, Outcome>,
    births: map<Token, Birth>,   // every token ever generated
    order: map<Token, nat>,      // every token ever stored, with the step that stored it
    marks: map<Rid, Mark>)

  datatype Call =
    | Login(userId: Id, deviceName: string, ipAddress: string)
    | Refresh(token: Token)
    | Logout(token: Token)
    | LogoutAll(userId: Id)
    | RevokeSession(userId: Id, sessionId: Id)

  /** `pick` resolves a request's free choice: a fresh id, the next sweep member, a missing user. */
  datatype Event =
    | Tick(duration: nat)
    | Expire(token: Token)
    | Start(rid: Rid, call: Call)
    | Do(rid: Rid, pick: string)
    | Stop(rid: Rid)

  function Init(now: int, lifetime: int): State {
    State(now, 0, lifetime, map[], map[], map[], map[], map[], map[], map[], map[], map[])
  }

  // ---- control flow of one request ----

  function Goto(s: State, rid: Rid, pc: Pc): State {
    s.(requests := s.requests[rid := pc])
  }

  function Finish(s: State, rid: Rid, outcome: Outcome): State {
    s.(requests := s.requests - {rid}, results := s.results[rid := outcome])
  }

  function Entry0(call: Call, now: int): Pc {
    match call
    case Login(userId, deviceName, ipAddress) =>
      LoginInsert(Session(userId, deviceName, ipAddress, SessionActive, now, now))
    case Refresh(token) => RefreshFind(token)
    case Logout(token) => LogoutFind(token)
    case LogoutAll(userId) => SweepMembers(OfUser(userId), Requested)
    case RevokeSession(userId, sessionId) => OwnerCheck(userId, sessionId)
  }

  // ---- Login, and the creation of a token ----

  function DoLoginInsert(s: State, rid: Rid, row: Session, pick: Id): State {
    if pick in s.sessions then s else
      Goto(s.(sessions := s.sessions[pick := row]), rid, Mint(row.userId, pick, FromLogin))
  }

  function DoMint(s: State, rid: Rid, userId: Id, sessionId: Id, origin: Origin, pick: Token): State {
    if pick in s.births then s else
      var expiresAt := s.now + s.lifetime;
      Goto(s.(births := s.births[pick := Birth(userId, sessionId, s.now, expiresAt, rid)]), rid,
           CreateTtl(pick, Record(userId, sessionId, Active, s.now, expiresAt), origin))
  }

  function DoCreateTtl(s: State, rid: Rid, token: Token, record: Record, origin: Origin): State {
    var ttl := record.expiresAt - s.now;
    if ttl <= 0 then Finish(s, rid, Failed) else Goto(s, rid, CreateExec(token, record, ttl, origin))
  }

  /** MULTI; SET; SADD; SADD; EXEC */
  function StoreNew(s: State, token: Token, record: Record, ttl: int): State {
    s.(tokens := s.tokens[token := Entry(record, s.now + ttl)],
       userIndex := AddMember(s.userIndex, record.userId, token),
       sessionIndex := AddMember(s.sessionIndex, record.sessionId, token),
       order := s.order[token := s.steps])
  }

  function DoCreateExec(s: State, rid: Rid, token: Token, record: Record, ttl: int, origin: Origin): State {
    var stored := StoreNew(s, token, record, ttl);
    match origin
    case FromLogin => Finish(stored, rid, LoggedIn(token))
    case FromRefresh => Goto(stored, rid, TouchStamp(record.sessionId, token))
  }

  function DoTouch(s: State, rid: Rid, sessionId: Id, at: int, renewed: Token): State {
    Finish(s.(sessions := TouchRow(s.sessions, sessionId, at)), rid, Refreshed(renewed))
  }

  // ---- RefreshAccessToken ----

  function DoRefreshFind(s: State, rid: Rid, token: Token): State {
    match Lookup(s.tokens, s.now, token)
    case None => Finish(s, rid, Rejected)
    case Some(record) => Goto(s, rid, RefreshCheck(token, record, s.steps))
  }

  function DoRefreshCheck(s: State, rid: Rid, token: Token, record: Record, readAt: nat): State {
    if record.status == Used then Goto(s, rid, SweepMembers(OfUser(record.userId), Reuse))
    else if record.status != Active || s.now > record.expiresAt then Finish(s, rid, Rejected)
    else Goto(s, rid, RefreshUser(token, record, readAt))
  }

  function DoRefreshUser(s: State, rid: Rid, token: Token, record: Record, readAt: nat, pick: string): State {
    if pick != "" then Finish(s, rid, Rejected)
    else Goto(s, rid, UpdateFind(token, MarkUsed(record, readAt)))
  }

  // ---- UpdateStatus: a read, a clock read and a write ----

  function Target(goal: Goal): TokenStatus {
    if goal.MarkUsed? then Used else Revoked
  }

  function AfterLogout(s: State, rid: Rid, owner: Option<Record>): State {
    match owner
    case None => Finish(s, rid, Done)
    case Some(record) => Goto(s, rid, RevokeRows(OfSession(record.sessionId), Requested, {}))
  }

  /** UpdateStatus answered "not found". */
  function UpdateMissing(s: State, rid: Rid, goal: Goal): State {
    match goal
    case MarkUsed(_, _) => Finish(s, rid, Rejected)
    case LogoutToken(owner) => AfterLogout(s, rid, owner)
    case SweepToken(sweep) => Goto(s, rid, SweepNext(sweep))
  }

  function UpdateDone(s: State, rid: Rid, token: Token, ttlAt: int, goal: Goal): State {
    match goal
    case MarkUsed(read, readAt) =>
      Goto(s.(marks := s.marks[rid := Mark(token, readAt, s.steps, ttlAt)]), rid,
           Mint(read.userId, read.sessionId, FromRefresh))
    case LogoutToken(owner) => AfterLogout(s, rid, owner)
    case SweepToken(sweep) => Goto(s, rid, SweepNext(sweep))
  }

  function DoUpdateFind(s: State, rid: Rid, token: Token, goal: Goal): State {
    match Lookup(s.tokens, s.now, token)
    case None => UpdateMissing(s, rid, goal)
    case Some(record) => Goto(s, rid, UpdateTtl(token, record.(status := Target(goal)), goal))
  }

  function DoUpdateTtl(s: State, rid: Rid, token: Token, record: Record, goal: Goal): State {
    var ttl := record.expiresAt - s.now;
    if ttl <= 0 then UpdateMissing(s, rid, goal)
    else Goto(s, rid, UpdateSet(token, record, ttl, s.now, goal))
  }

  /** SET with a time to live: rewrites the whole record, whatever is there by now. */
  function Overwrite(s: State, token: Token, record: Record, ttl: int): State {
    s.(tokens := s.tokens[token := Entry(record, s.now + ttl)])
  }

  function DoUpdateSet(s: State, rid: Rid, token: Token, record: Record, ttl: int, ttlAt: int, goal: Goal): State {
    UpdateDone(Overwrite(s, token, record, ttl), rid, token, ttlAt, goal)
  }

  // ---- RevokeAllByUser and RevokeAllBySession, then the session rows ----

  function ScopeMembers(s: State, scope: Scope): set<Token> {
    match scope
    case OfUser(userId) => Members(s.userIndex, userId)
    case OfSession(sessionId) => Members(s.sessionIndex, sessionId)
  }

  function DoSweepMembers(s: State, rid: Rid, scope: Scope, reason: Reason): State {
    var snapshot := ScopeMembers(s, scope);
    Goto(s, rid, SweepNext(Sweep(scope, reason, snapshot, snapshot)))
  }

  function DoSweepNext(s: State, rid: Rid, sweep: Sweep, pick: Token): State {
    if sweep.left == {} then Goto(s, rid, RevokeRows(sweep.scope, sweep.reason, sweep.snapshot))
    else if pick !in sweep.left then s
    else Goto(s, rid, SweepFind(pick, sweep.(left := sweep.left - {pick})))
  }

  function DoSweepFind(s: State, rid: Rid, token: Token, sweep: Sweep): State {
    match Lookup(s.tokens, s.now, token)
    case None => Goto(s, rid, SweepNext(sweep))
    case Some(record) =>
      if record.status == Active || record.status == Used
      then Goto(s, rid, UpdateFind(token, SweepToken(sweep)))
      else Goto(s, rid, SweepNext(sweep))
  }

  function RowsAfter(sessions: map<Id, Session>, scope: Scope): map<Id, Session> {
    match scope
    case OfUser(userId) => RevokeRowsOf(sessions, userId)
    case OfSession(sessionId) => RevokeRow(sessions, sessionId)
  }

  function DoRevokeRows(s: State, rid: Rid, scope: Scope, reason: Reason): State {
    Finish(s.(sessions := RowsAfter(s.sessions, scope)), rid, if reason == Reuse then ReuseDetected else Done)
  }

  // ---- Logout and RevokeSession ----

  function DoLogoutFind(s: State, rid: Rid, token: Token): State {
    Goto(s, rid, UpdateFind(token, LogoutToken(Lookup(s.tokens, s.now, token))))
  }

  function DoOwnerCheck(s: State, rid: Rid, userId: Id, sessionId: Id): State {
    if sessionId !in s.sessions then Finish(s, rid, Failed)
    else if s.sessions[sessionId].userId != userId then Finish(s, rid, Rejected)
    else Goto(s, rid, SweepMembers(OfSession(sessionId), Requested))
  }

  // ---- events and runs ----

  /** Every event has a number; the state handed to a step already carries it. */
  function Numbered(s: State): State {
    s.(steps := s.steps + 1)
  }

  function DoStep(s: State, rid: Rid, pc: Pc, pick: string): State {
    match pc
    case LoginInsert(row) => DoLoginInsert(s, rid, row, pick)
    case Mint(userId, sessionId, origin) => DoMint(s, rid, userId, sessionId, origin, pick)
    case CreateTtl(token, record, origin) => DoCreateTtl(s, rid, token, record, origin)
    case CreateExec(token, record, ttl, origin) => DoCreateExec(s, rid, token, record, ttl, origin)
    case TouchStamp(sessionId, renewed) => Goto(s, rid, Touch(sessionId, s.now, renewed))
    case Touch(sessionId, at, renewed) => DoTouch(s, rid, sessionId, at, renewed)
    case RefreshFind(token) => DoRefreshFind(s, rid, token)
    case RefreshCheck(token, record, readAt) => DoRefreshCheck(s, rid, token, record, readAt)
    case RefreshUser(token, record, readAt) => DoRefreshUser(s, rid, token, record, readAt, pick)
    case UpdateFind(token, goal) => DoUpdateFind(s, rid, token, goal)
    case UpdateTtl(token, record, goal) => DoUpdateTtl(s, rid, token, record, goal)
    case UpdateSet(token, record, ttl, ttlAt, goal) => DoUpdateSet(s, rid, token, record, ttl, ttlAt, goal)
    case SweepMembers(scope, reason) => DoSweepMembers(s, rid, scope, reason)
    case SweepNext(sweep) => DoSweepNext(s, rid, sweep, pick)
    case SweepFind(token, sweep) => DoSweepFind(s, rid, token, sweep)
    case RevokeRows(scope, reason, _) => DoRevokeRows(s, rid, scope, reason)
    case LogoutFind(token) => DoLogoutFind(s, rid, token)
    case OwnerCheck(userId, sessionId) => DoOwnerCheck(s, rid, userId, sessionId)
  }

  function Apply(s: State, e: Event): State {
    var next := Numbered(s);
    match e
    case Tick(duration) => next.(now := s.now + duration)
    case Expire(token) =>
      if token in s.tokens && s.tokens[token].deadline <= s.now then next.(tokens := s.tokens - {token}) else next
    case Start(rid, call) =>
      if rid in s.requests || rid in s.results then next else Goto(next, rid, Entry0(call, s.now))
    case Do(rid, pick) =>
      if rid in s.requests then DoStep(next, rid, s.requests[rid], pick) else next
    case Stop(rid) =>
      if rid in s.requests then Finish(next, rid, Failed) else next
  }

  /** The request an event belongs to, if any. */
  function Mover(e: Event): Rid {
    match e
    case Start(rid, _) => rid
    case Do(rid, _) => rid
    case Stop(rid) => rid
    case _ => 0
  }

  function Exec(s: State, events: seq<Event>): State {
    if events == [] then s
    else Apply(Exec(s, events[..|events| - 1]), events[|events| - 1])
  }

  lemma ExecOne(s: State, events: seq<Event>, e: Event)
    ensures Exec(s, events + [e]) == Apply(Exec(s, events), e)
  {
    assert (events + [e])[..|events|] == events;
  }

  lemma {:induction false} ExecConcat(s: State, first: seq<Event>, rest: seq<Event>)
    ensures Exec(s, first + rest) == Exec(Exec(s, first), rest)
    decreases |rest|
  {
    if rest == [] {
      assert first + rest == first;
    } else {
      var n := |rest| - 1;
      ExecConcat(s, first, rest[..n]);
      assert (first + rest)[..|first + rest| - 1] == first + rest[..n];
    }
  }
}
