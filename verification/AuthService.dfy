/**
 AuthService, one request at a time. Every storage call may fail, with or without effect, and time
 passes between any two. Each method makes the one call of the protocol that its name says: the
 store ends as that run of the protocol leaves it, whatever the outcome, a failure included.
 */
module AuthService {
  import opened Options
  import opened Records
  import opened Strings
  import opened Protocol
  import opened ProtocolSteps
  import opened ProtocolInvariants
  import opened ProtocolTheorems
  import opened SerialRuns
  import opened SerialTheorems
  import opened Stores
  import opened Sweeps
  import opened Users
  import opened RefreshTokens
  import opened Sessions
  import opened Tokens

  const UNKNOWN_DEVICE := "unknown device"

  datatype LoginResult = Answered(outcome: Outcome) | InvalidLoginInput | InvalidCredentials

  datatype RegisterResult = Registered(user: User) | InvalidRegisterInput | EmailAlreadyExists | RegisterFailed

  // ---- the steps that make no change to the data ----

  lemma RefreshFindMoves(s: State, rid: Rid, token: Token)
    requires Busy(s, rid, RefreshFind(token))
    ensures
      var s' := Apply(s, Do(rid, ""));
      match Lookup(s.tokens, s.now, token)
      case None => SameData(s, s') && Alone(s', rid) && Ended(s', rid, Rejected)
      case Some(record) => Moved(s, s', rid, RefreshCheck(token, record, s.steps + 1))
  {
    hide Apply, Goto, Finish, Lookup;
    AtRefreshFind(s, rid, token, "");
    FinishEnds(Numbered(s), rid, Rejected);
    if Lookup(s.tokens, s.now, token).Some? {
      GotoMoves(s, rid, RefreshCheck(token, Lookup(s.tokens, s.now, token).value, s.steps + 1));
    }
  }

  lemma RefreshCheckMoves(s: State, rid: Rid, token: Token, record: Record, readAt: nat)
    requires Busy(s, rid, RefreshCheck(token, record, readAt))
    ensures
      var s' := Apply(s, Do(rid, ""));
      if record.status == Used then Moved(s, s', rid, SweepMembers(OfUser(record.userId), Reuse))
      else if record.status != Active || s.now > record.expiresAt
        then SameData(s, s') && Alone(s', rid) && Ended(s', rid, Rejected)
      else Moved(s, s', rid, RefreshUser(token, record, readAt))
  {
    hide Apply, Goto, Finish;
    AtRefreshCheck(s, rid, token, record, readAt, "");
    GotoMoves(s, rid, SweepMembers(OfUser(record.userId), Reuse));
    GotoMoves(s, rid, RefreshUser(token, record, readAt));
    FinishEnds(Numbered(s), rid, Rejected);
  }

  lemma RefreshUserMoves(s: State, rid: Rid, token: Token, record: Record, readAt: nat, pick: string)
    requires Busy(s, rid, RefreshUser(token, record, readAt))
    ensures
      var s' := Apply(s, Do(rid, pick));
      if pick == "" then Moved(s, s', rid, UpdateFind(token, MarkUsed(record, readAt)))
      else SameData(s, s') && Alone(s', rid) && Ended(s', rid, Rejected)
  {
    hide Apply, Goto, Finish;
    AtRefreshUser(s, rid, token, record, readAt, pick);
    GotoMoves(s, rid, UpdateFind(token, MarkUsed(record, readAt)));
    FinishEnds(Numbered(s), rid, Rejected);
  }

  lemma LogoutFindMoves(s: State, rid: Rid, token: Token)
    requires Busy(s, rid, LogoutFind(token))
    ensures
      Moved(s, Apply(s, Do(rid, "")), rid, UpdateFind(token, LogoutToken(Lookup(s.tokens, s.now, token))))
  {
    hide Apply, Goto, Lookup;
    AtLogoutFind(s, rid, token, "");
    GotoMoves(s, rid, UpdateFind(token, LogoutToken(Lookup(s.tokens, s.now, token))));
  }

  // ---- what a refresh leaves ----

  /** The row of the session, if there is one, has a later time of last use. */
  predicate RowTouched(before: map<Id, Session>, after: map<Id, Session>, sessionId: Id, from: int, to: int) {
    if sessionId in before
    then && sessionId in after
         && after == before[sessionId := before[sessionId].(lastUsedAt := after[sessionId].lastUsedAt)]
         && from <= after[sessionId].lastUsedAt <= to
    else after == before
  }

  /** An ACTIVE token created between `from` and `to`, with a whole lifetime. */
  predicate BornBetween(entry: Entry, userId: Id, sessionId: Id, from: int, to: int, lifetime: int) {
    var record := entry.record;
    && record == Record(userId, sessionId, Active, record.createdAt, record.createdAt + lifetime)
    && from <= record.createdAt <= to && record.expiresAt <= entry.deadline
  }

  /** `next` is a new ACTIVE token of the session, stored and indexed, good for a whole lifetime. */
  predicate Renewed(s: State, s': State, next: Token, userId: Id, sessionId: Id) {
    && next !in s.births && next in s'.births && s'.births[next].sessionId == sessionId
    && next in s'.tokens && s'.tokens == s.tokens[next := s'.tokens[next]]
    && BornBetween(s'.tokens[next], userId, sessionId, s.now, s'.now, s.lifetime)
    && s'.userIndex == AddMember(s.userIndex, userId, next)
    && s'.sessionIndex == AddMember(s.sessionIndex, sessionId, next)
  }

  /** The presented token is USED, `next` renews it, and the session was touched. */
  predicate Rotation(s: State, s': State, token: Token, next: Token) {
    && token in s.tokens && token in s'.tokens
    && var record := s.tokens[token].record;
       var used := s.(tokens := s.tokens[token := Entry(record.(status := Used), s'.tokens[token].deadline)]);
       && Renewed(used, s', next, record.userId, record.sessionId)
       && RowTouched(s.sessions, s'.sessions, record.sessionId, s.now, s'.now)
  }

  /** `next` is stored and indexed as `record`, and its session was touched after that. */
  predicate StoredAndTouched(s: State, s': State, next: Token, record: Record) {
    && next in s'.tokens && s'.tokens == s.tokens[next := Entry(record, s'.tokens[next].deadline)]
    && record.expiresAt <= s'.tokens[next].deadline
    && s'.userIndex == AddMember(s.userIndex, record.userId, next)
    && s'.sessionIndex == AddMember(s.sessionIndex, record.sessionId, next)
    && s'.births == s.births && s.now <= s'.now
    && RowTouched(s.sessions, s'.sessions, record.sessionId, s.now, s'.now)
  }

  lemma CreatedThenTouched(s: State, created: State, touched: State, next: Token, record: Record, at: int)
    requires Created(s, created, next, record, record.expiresAt)
    requires RowsBecome(created, touched, TouchRow(created.sessions, record.sessionId, at))
    requires created.now <= at <= touched.now
    ensures StoredAndTouched(s, touched, next, record)
  {
    hide AddMember;
  }

  lemma BornThenStored(s: State, born: State, s': State, next: Token, record: Record, rid: Rid)
    requires Born(s, born, next, record, rid) && record.createdAt == born.now
    requires record == Record(record.userId, record.sessionId, Active, record.createdAt, record.createdAt + s.lifetime)
    requires StoredAndTouched(born, s', next, record)
    ensures Renewed(s, s', next, record.userId, record.sessionId)
    ensures RowTouched(s.sessions, s'.sessions, record.sessionId, s.now, s'.now)
  {
    hide AddMember;
  }

  /** A mark and a renewal make a rotation. */
  lemma MarkedThenRenewed(s: State, marked: State, s': State, token: Token, next: Token)
    requires OnlyTokens(s, marked) && Rewritten(s.tokens, marked.tokens, token, Used) && next != token
    requires Renewed(marked, s', next, s.tokens[token].record.userId, s.tokens[token].record.sessionId)
    requires RowTouched(marked.sessions, s'.sessions, s.tokens[token].record.sessionId, marked.now, s'.now)
    ensures Rotation(s, s', token, next)
  {
    hide AddMember;
  }

  lemma RotationEarlier(s: State, later: State, s': State, token: Token, next: Token)
    requires OnlyTokens(s, later) && later.tokens == s.tokens && Rotation(later, s', token, next)
    ensures Rotation(s, s', token, next)
  {
    hide AddMember;
  }

  /** A token in the store has been generated, and its key outlives it. */
  lemma StoredKnown(store: Store, token: Token)
    requires store.Valid() && token in store.tokens
    ensures token in store.state.births && store.tokens[token].record.expiresAt <= store.tokens[token].deadline
  {
    hide IndexInv, MarksInv, RequestsInv, Run, SerialRun;
    Reached(store.start, store.lifetime, store.trace);
    assert Copy(store.state, token, store.tokens[token].record);
  }

  /**
   Why a refresh is refused: the token is unknown or revoked; or it was used, but its key is gone;
   or it is ACTIVE, but expired or of a user who is gone.
   */
  predicate Refusable(tokens: map<Token, Entry>, token: Token, now: int, users: Table) {
    token in tokens ==>
      var record := tokens[token].record;
      match record.status
      case Revoked => true
      case Used => tokens[token].deadline <= now
      case Active => record.expiresAt <= now || record.userId !in users
  }

  lemma BegunData(s: State, begun: State, token: Token)
    requires Aged(s.(requests := begun.requests), begun) && begun.now == s.now
    ensures SameData(s, begun) && OnlyTokens(s, begun) && Usable(begun, token) == Usable(s, token)
    ensures Presentable(s, Refresh(token))
  {
  }

  /** A refresh succeeds only on an ACTIVE session, if every logout so far was presentable. */
  lemma RefreshedAlive(
      start: int, lifetime: nat, before: seq<Event>, trace: seq<Event>, rid: Rid, token: Token, next: Token)
    requires GuardedRun(Init(start, lifetime), before) && before <= trace
    requires
      var s, s' := Run(start, lifetime, before), Run(start, lifetime, trace);
      rid !in s.results && Ended(s', rid, Refreshed(next)) && Rotation(s, s', token, next)
    ensures
      var s := Run(start, lifetime, before);
      Alive(s, s.tokens[token].record.sessionId)
  {
    hide GuardedRun, SerialRun, AddMember, IndexInv, MarksInv, RequestsInv, RowTouched;
    var s, s' := Run(start, lifetime, before), Run(start, lifetime, trace);
    var after := trace[|before|..];
    assert before + after == trace;
    Reached(start, lifetime, before);
    hide Run;
    assert Copy(s, token, s.tokens[token].record);
    var sessionId := s.tokens[token].record.sessionId;
    assert sessionId in s.sessions;
    if s.sessions[sessionId].status == SessionRevoked {
      RevokedSessionDead(start, lifetime, before, after, sessionId);
      assert false;
    }
  }

  // ---- what a login leaves ----

  datatype RequestMetadata = RequestMetadata(deviceName: string, ipAddress: string)

  function DeviceName(metadata: RequestMetadata): (name: string)
    ensures name != ""
  {
    var name := TrimSpace(metadata.deviceName);
    if name == "" then UNKNOWN_DEVICE else name
  }

  /** A new ACTIVE session row for the user, created and last used at one moment. */
  predicate NewSession(row: Session, userId: Id, metadata: RequestMetadata, from: int, to: int) {
    && row == Session(userId, row.deviceName, TrimSpace(metadata.ipAddress), SessionActive,
                      row.createdAt, row.createdAt)
    && row.deviceName == (if Blank(metadata.deviceName) then "unknown device" else TrimSpace(metadata.deviceName))
    && from <= row.createdAt <= to
  }

  /** The new session `sessionId` has one new ACTIVE token, `token`; nothing else has changed. */
  predicate LoginMade(s: State, s': State, sessionId: Id, token: Token, userId: Id, metadata: RequestMetadata) {
    && sessionId in s'.sessions && s'.sessions == s.sessions[sessionId := s'.sessions[sessionId]]
    && NewSession(s'.sessions[sessionId], userId, metadata, s.now, s'.now)
    && token in s'.tokens && s'.tokens == s.tokens[token := s'.tokens[token]]
    && BornBetween(s'.tokens[token], userId, sessionId, s.now, s'.now, s.lifetime)
    && s'.userIndex == AddMember(s.userIndex, userId, token)
    && s'.sessionIndex == AddMember(s.sessionIndex, sessionId, token)
  }

  lemma LoginMadeBy(
      s: State, seated: State, born: State, s': State, sessionId: Id, row: Session, token: Token, record: Record,
      rid: Rid, metadata: RequestMetadata)
    requires RowsBecome(s, seated, s.sessions[sessionId := row]) && Born(seated, born, token, record, rid)
    requires Created(born, s', token, record, record.expiresAt)
    requires record == Record(row.userId, sessionId, Active, born.now, born.now + s.lifetime)
    requires NewSession(row, row.userId, metadata, s.now, s.now)
    ensures LoginMade(s, s', sessionId, token, row.userId, metadata)
  {
    hide AddMember, DeviceName, TrimSpace;
  }

  lemma DeviceNameIs(metadata: RequestMetadata, device: string)
    requires device == if TrimSpace(metadata.deviceName) == "" then UNKNOWN_DEVICE else TrimSpace(metadata.deviceName)
    ensures device == DeviceName(metadata)
    ensures device == if Blank(metadata.deviceName) then "unknown device" else TrimSpace(metadata.deviceName)
  {
    BlankIff(metadata.deviceName);
  }

  lemma SeatedFrom(s: State, begun: State, seated: State, sessionId: Id, row: Session)
    requires SameRest(s, begun) && begun.tokens == s.tokens && begun.now == s.now
    requires RowsBecome(begun, seated, begun.sessions[sessionId := row])
    ensures RowsBecome(s, seated, s.sessions[sessionId := row])
  {
  }

  lemma LoginStarts(userId: Id, device: string, address: string, now: int)
    ensures Entry0(Call.Login(userId, device, address), now) ==
      LoginInsert(Session(userId, device, address, SessionActive, now, now))
    ensures forall s :: Presentable(s, Call.Login(userId, device, address))
  {
  }

  // ---- what a logout leaves ----

  /** The token is REVOKED, and its session's row with it. */
  predicate LoggedOut(s: State, s': State, token: Token) {
    && Rewritten(s.tokens, s'.tokens, token, Revoked)
    && SessionRowRevoked(s.sessions, s'.sessions, s.tokens[token].record.sessionId)
  }

  lemma SessionNamed(store: Store, token: Token)
    requires store.Valid() && token in store.tokens
    ensures store.tokens[token].record.sessionId in store.sessions && store.tokens[token].record.sessionId != ""
  {
    hide IndexInv, MarksInv, RequestsInv, Run, SerialRun;
    Reached(store.start, store.lifetime, store.trace);
    assert Copy(store.state, token, store.tokens[token].record);
  }

  class AuthService {
    const store: Store
    const users: UserRepository
    const sessions: SessionRepository
    const refreshTokens: RefreshTokenRepository
    const tokenService: TokenService
    const compare: (string, string) -> bool  // bcrypt: does this hash belong to this password?

    ghost predicate Wired()
      reads this, store, users
    {
      && store.Valid() && users.Valid()
      && sessions.store == store && refreshTokens.store == store
      && tokenService.store == store && tokenService.refreshTtl == store.lifetime
      && users.env == store.env
    }

    /** Between two requests. */
    ghost predicate Valid()
      reads this, store, users
    {
      Wired() && store.state.requests == map[]
    }

    constructor (
        store: Store, users: UserRepository, sessions: SessionRepository,
        refreshTokens: RefreshTokenRepository, tokenService: TokenService,
        compare: (string, string) -> bool)
      requires store.Valid() && users.Valid() && store.state.requests == map[]
      requires sessions.store == store && refreshTokens.store == store
      requires tokenService.store == store && tokenService.refreshTtl == store.lifetime && users.env == store.env
      ensures Valid() && this.store == store && this.users == users
    {
      this.store, this.users, this.sessions := store, users, sessions;
      this.refreshTokens, this.tokenService, this.compare := refreshTokens, tokenService, compare;
    }

    // ---- RefreshAccessToken ----

    method FindPresented(token: Token, ghost rid: Rid) returns (reply: Reply<Record>, ghost readAt: nat)
      requires Wired() && Busy(store.state, rid, RefreshFind(token))
      modifies store
      ensures Wired() && store.Continues(rid) && Alone(store.state, rid)
      ensures OnlyTokens(old(store.state), store.state) && store.tokens == old(store.tokens)
      ensures reply.NotFound? ==> KeyDead(store.tokens, store.now, token) && Ended(store.state, rid, Rejected)
      ensures reply.Answer? ==>
        && !KeyDead(store.tokens, store.now, token) && reply.value == store.tokens[token].record
        && Busy(store.state, rid, RefreshCheck(token, reply.value, readAt))
      ensures store.env.sound ==> !reply.Fault?
    {
      hide Apply, Run, SerialRun, GuardedRun, Lookup;
      reply := refreshTokens.FindByToken(token, rid);
      readAt := store.state.steps + 1;
      if !reply.Fault? {
        RefreshFindMoves(store.state, rid, token);
        store.Record(Do(rid, ""));
      }
    }

    /** RevokeAllByUser, then RevokeAllByUserID. */
    method SweepUser(userId: Id, ghost rid: Rid, ghost reason: Reason) returns (ok: bool)
      requires Wired() && Busy(store.state, rid, SweepMembers(OfUser(userId), reason))
      modifies store
      ensures Valid() && store.Continues(rid) && old(store.now) <= store.now
      ensures ok ==>
        && Ended(store.state, rid, if reason == Reuse then ReuseDetected else Done)
        && Swept(old(store.tokens), store.tokens, Members(old(store.userIndex), userId), store.now)
        && store.sessions == RevokeRowsOf(old(store.sessions), userId)
      ensures PartlySwept(old(store.tokens), store.tokens, Members(old(store.userIndex), userId))
      ensures store.sessions == old(store.sessions) || store.sessions == RevokeRowsOf(old(store.sessions), userId)
      ensures store.userIndex == old(store.userIndex) && store.sessionIndex == old(store.sessionIndex)
      ensures store.env.sound ==> ok
    {
      hide Run, SerialRun, GuardedRun, PartlySwept, Swept, RevokeRowsOf, Busy;
      ghost var before, members := store.tokens, Members(store.userIndex, userId);
      ok := refreshTokens.RevokeAllByUser(userId, rid, reason);
      if !ok {
        store.Halt(rid);
        return;
      }
      ghost var at := store.now;
      ok := sessions.RevokeAllByUserID(userId, rid, reason, members);
      SweptLater(before, store.tokens, members, at, store.now);
      if !ok {
        store.Halt(rid);
      }
    }

    /** The token was USED before: all tokens and sessions of its user go. */
    method DetectReuse(token: Token, record: Record, ghost readAt: nat, ghost rid: Rid) returns (outcome: Outcome)
      requires Wired() && Busy(store.state, rid, RefreshCheck(token, record, readAt)) && record.status == Used
      modifies store
      ensures Valid() && store.Continues(rid) && (outcome == ReuseDetected || outcome == Failed)
      ensures outcome == ReuseDetected ==>
        && Ended(store.state, rid, ReuseDetected)
        && Swept(old(store.tokens), store.tokens, Members(old(store.userIndex), record.userId), store.now)
        && store.sessions == RevokeRowsOf(old(store.sessions), record.userId)
        && store.userIndex == old(store.userIndex) && store.sessionIndex == old(store.sessionIndex)
      ensures old(store.now) <= store.now && (store.env.sound ==> outcome == ReuseDetected)
    {
      hide Apply, Run, SerialRun, GuardedRun, Swept, PartlySwept, RevokeRowsOf;
      RefreshCheckMoves(store.state, rid, token, record, readAt);
      store.Record(Do(rid, ""));
      var ok := SweepUser(record.userId, rid, Reuse);
      return if ok then ReuseDetected else Failed;
    }

    /** The token is neither revoked nor past its expiry; an expiry equal to the clock passes. */
    method CheckPresented(token: Token, record: Record, ghost readAt: nat, ghost rid: Rid) returns (ok: bool)
      requires Wired() && Busy(store.state, rid, RefreshCheck(token, record, readAt)) && record.status != Used
      modifies store
      ensures Wired() && store.Continues(rid) && Alone(store.state, rid)
      ensures OnlyTokens(old(store.state), store.state) && store.tokens == old(store.tokens)
      ensures if ok then Busy(store.state, rid, RefreshUser(token, record, readAt))
              else Ended(store.state, rid, Rejected)
      ensures ok <==> record.status == Active && store.now <= record.expiresAt
    {
      hide Apply, Run, SerialRun, GuardedRun;
      store.Pass(rid);
      ok := !(record.status != Active || store.now > record.expiresAt);
      RefreshCheckMoves(store.state, rid, token, record, readAt);
      store.Record(Do(rid, ""));
    }

    /** FindByID, and an access token for the user. */
    method FindOwner(token: Token, record: Record, ghost readAt: nat, ghost rid: Rid) returns (reply: Reply<Id>)
      requires Wired() && Busy(store.state, rid, RefreshUser(token, record, readAt))
      modifies store
      ensures Wired() && store.Continues(rid) && Alone(store.state, rid)
      ensures OnlyTokens(old(store.state), store.state) && store.tokens == old(store.tokens)
      ensures reply.Answer? ==>
        && reply.value == record.userId && record.userId in users.users
        && Busy(store.state, rid, UpdateFind(token, MarkUsed(record, readAt)))
      ensures reply.NotFound? ==> record.userId !in users.users && Ended(store.state, rid, Rejected)
      ensures store.env.sound ==> !reply.Fault?
    {
      hide Apply, Run, SerialRun, GuardedRun, GoalInv;
      var user := users.FindByID(record.userId);
      if user.Fault? {
        return Fault;
      }
      ghost var pick := if user.Answer? then "" else "missing";
      RefreshUserMoves(store.state, rid, token, record, readAt, pick);
      store.Record(Do(rid, pick));
      if user.NotFound? {
        return NotFound;
      }
      var unsigned := store.env.Fails();
      return if unsigned then Fault else Answer(user.value.id);
    }

    method StoreAndTouch(next: Token, record: Record, ghost rid: Rid) returns (ok: bool)
      requires Wired() && Busy(store.state, rid, CreateTtl(next, record, FromRefresh))
      modifies store
      ensures Valid() && store.Continues(rid)
      ensures ok ==>
        Ended(store.state, rid, Refreshed(next)) && StoredAndTouched(old(store.state), store.state, next, record)
      ensures old(store.now) <= store.now && (store.env.sound && !ok ==> record.expiresAt <= store.now)
    {
      hide Run, SerialRun, GuardedRun, AddMember, TouchRow, Created, RowsBecome, StoredAndTouched, Aged, OnlyTokens;
      ghost var s := store.state;
      var created := refreshTokens.Create(next, record, rid, FromRefresh);
      if !created.Answer? {
        store.Halt(rid);
        return false;
      }
      ghost var stored, at := store.state, 0;
      ok, at := sessions.UpdateLastUsedAt(record.sessionId, rid, next);
      if ok {
        CreatedThenTouched(s, stored, store.state, next, record, at);
      } else {
        store.Halt(rid);
      }
    }

    /** From the marked token on: a new token, stored, and the session touched. */
    method Renew(userId: Id, sessionId: Id, random: Token, ghost rid: Rid) returns (ok: bool)
      requires Wired() && Busy(store.state, rid, Mint(userId, sessionId, FromRefresh)) && random !in store.state.births
      modifies store
      ensures Valid() && store.Continues(rid)
      ensures ok ==>
        && Ended(store.state, rid, Refreshed(random))
        && Renewed(old(store.state), store.state, random, userId, sessionId)
        && RowTouched(old(store.sessions), store.sessions, sessionId, old(store.now), store.now)
      ensures old(store.now) <= store.now
      ensures store.env.sound && !ok ==> old(store.now) + store.lifetime <= store.now
    {
      hide Run, SerialRun, GuardedRun, AddMember, Born, StoredAndTouched, Renewed, RowTouched, Aged;
      ghost var s := store.state;
      var generated := tokenService.GenerateRefreshToken(userId, random, rid, sessionId, FromRefresh);
      if !generated.Answer? {
        store.Halt(rid);
        return false;
      }
      ghost var born := store.state;
      var record := generated.value.(sessionId := sessionId);
      ok := StoreAndTouch(random, record, rid);
      if ok {
        BornThenStored(s, born, store.state, random, record, rid);
      }
    }

    /** The mark on the presented token, then the renewal. */
    method Redeem(token: Token, record: Record, ghost readAt: nat, userId: Id, random: Token, ghost rid: Rid)
      returns (outcome: Outcome)
      requires Wired() && Busy(store.state, rid, UpdateFind(token, MarkUsed(record, readAt))) && userId == record.userId
      requires random !in store.state.births && random != token
      requires token in store.tokens && store.tokens[token].record == record
      requires record.expiresAt <= store.tokens[token].deadline
      modifies store
      ensures Valid() && store.Continues(rid)
      ensures outcome == Refreshed(random) || outcome == Rejected || outcome == Failed
      ensures outcome == Refreshed(random) ==>
        && Ended(store.state, rid, outcome) && old(store.now) < record.expiresAt
        && Rotation(old(store.state), store.state, token, random)
      ensures outcome == Rejected ==>
        && Ended(store.state, rid, outcome) && OnlyTokens(old(store.state), store.state)
        && store.tokens == old(store.tokens) && record.expiresAt <= store.now
      ensures old(store.now) <= store.now
      ensures store.env.sound && outcome == Failed ==> old(store.now) + store.lifetime <= store.now
    {
      hide Run, SerialRun, GuardedRun, Renewed, RowTouched, Rotation, Rewritten, Aged;
      ghost var s := store.state;
      var marked := refreshTokens.UpdateStatus(token, Used, rid, MarkUsed(record, readAt));
      if marked.NotFound? {
        return Rejected;
      }
      if marked.Fault? {
        store.Halt(rid);
        return Failed;
      }
      ghost var m := store.state;
      var ok := Renew(userId, record.sessionId, random, rid);
      if !ok {
        return Failed;
      }
      MarkedThenRenewed(s, m, store.state, token, random);
      return Refreshed(random);
    }

    /** The checks on the user, the mark, and the renewal. */
    method Rotate(token: Token, record: Record, ghost readAt: nat, random: Token, ghost rid: Rid)
      returns (outcome: Outcome)
      requires Wired() && Busy(store.state, rid, RefreshUser(token, record, readAt)) && random !in store.state.births
      requires token in store.tokens && store.tokens[token].record == record
      modifies store
      ensures Valid() && store.Continues(rid)
      ensures outcome == Refreshed(random) || outcome == Rejected || outcome == Failed
      ensures outcome == Refreshed(random) ==>
        && Ended(store.state, rid, outcome) && old(store.now) < record.expiresAt && record.userId in users.users
        && Rotation(old(store.state), store.state, token, random)
      ensures outcome == Rejected ==>
        && Ended(store.state, rid, outcome) && OnlyTokens(old(store.state), store.state)
        && store.tokens == old(store.tokens) && (record.userId !in users.users || record.expiresAt <= store.now)
      ensures old(store.now) <= store.now
      ensures store.env.sound && outcome == Failed ==> old(store.now) + store.lifetime <= store.now
    {
      hide Run, SerialRun, GuardedRun, Rotation, Aged, Busy, Alone;
      ghost var s := store.state;
      StoredKnown(store, token);
      var owner := FindOwner(token, record, readAt, rid);
      if owner.Fault? {
        store.Halt(rid);
        return Failed;
      }
      if owner.NotFound? {
        return Rejected;
      }
      ghost var later := store.state;
      outcome := Redeem(token, record, readAt, owner.value, random, rid);
      if outcome == Refreshed(random) {
        RotationEarlier(s, later, store.state, token, random);
      }
    }

    /** The data of the store are as in the state `s`. */
    ghost predicate Untouched(s: State)
      reads store
    {
      && store.tokens == s.tokens && store.userIndex == s.userIndex && store.sessionIndex == s.sessionIndex
      && store.sessions == s.sessions
    }

    /** RefreshAccessToken from the read of the token on. */
    method RefreshFound(token: Token, record: Record, ghost readAt: nat, random: Token, ghost rid: Rid)
      returns (outcome: Outcome)
      requires Wired() && Busy(store.state, rid, RefreshCheck(token, record, readAt)) && random !in store.state.births
      requires token in store.tokens && store.tokens[token].record == record
      modifies store
      ensures Valid() && store.Continues(rid)
      ensures outcome == Refreshed(random) || outcome in {Rejected, ReuseDetected, Failed}
      ensures outcome == Refreshed(random) ==>
        && Ended(store.state, rid, outcome) && record.status == Active && old(store.now) < record.expiresAt
        && record.userId in users.users && Rotation(old(store.state), store.state, token, random)
      ensures outcome == Rejected ==>
        && Ended(store.state, rid, outcome) && Untouched(old(store.state))
        && Refusable(store.tokens, token, store.now, users.users)
      ensures outcome == ReuseDetected ==>
        && Ended(store.state, rid, outcome) && record.status == Used
        && Swept(old(store.tokens), store.tokens, Members(old(store.userIndex), record.userId), store.now)
        && store.sessions == RevokeRowsOf(old(store.sessions), record.userId)
        && store.userIndex == old(store.userIndex) && store.sessionIndex == old(store.sessionIndex)
      ensures old(store.now) <= store.now
      ensures store.env.sound && record.status == Used ==> outcome == ReuseDetected
      ensures store.env.sound && outcome == Failed ==>
        record.status == Active && old(store.now) + store.lifetime <= store.now
    {
      hide Busy, Members, Alone, Run, SerialRun, GuardedRun, Rotation, Swept, RevokeRowsOf;
      if record.status == Used {
        outcome := DetectReuse(token, record, readAt, rid);
        return;
      }
      ghost var s := store.state;
      var ok := CheckPresented(token, record, readAt, rid);
      if !ok {
        return Rejected;
      }
      ghost var later := store.state;
      outcome := Rotate(token, record, readAt, random, rid);
      if outcome == Refreshed(random) {
        RotationEarlier(s, later, store.state, token, random);
      }
    }

    /** RefreshAccessToken for a token that is not empty. */
    method RefreshBegun(token: Token, random: Token, ghost rid: Rid) returns (outcome: Outcome)
      requires Wired() && Busy(store.state, rid, RefreshFind(token)) && random !in store.state.births
      modifies store
      ensures Valid() && store.Continues(rid)
      ensures outcome == Refreshed(random) || outcome in {Rejected, ReuseDetected, Failed}
      ensures outcome == Refreshed(random) ==>
        && Ended(store.state, rid, outcome)
        && Usable(old(store.state), token) && Rotation(old(store.state), store.state, token, random)
        && old(store.tokens)[token].record.userId in users.users
      ensures outcome == Rejected ==>
        && Ended(store.state, rid, outcome) && Untouched(old(store.state))
        && Refusable(store.tokens, token, store.now, users.users)
      ensures outcome == ReuseDetected ==>
        && Ended(store.state, rid, outcome) && token in old(store.tokens)
        && old(store.tokens)[token].record.status == Used
        && var userId := old(store.tokens)[token].record.userId;
        Swept(old(store.tokens), store.tokens, Members(old(store.userIndex), userId), store.now)
        && store.sessions == RevokeRowsOf(old(store.sessions), userId)
        && store.userIndex == old(store.userIndex) && store.sessionIndex == old(store.sessionIndex)
      ensures old(store.now) <= store.now
      ensures KeyDead(old(store.tokens), old(store.now), token) ==>
        outcome in {Rejected, Failed} && Untouched(old(store.state))
      ensures store.env.sound && !KeyDead(old(store.tokens), store.now, token) ==>
        (old(store.tokens)[token].record.status == Used ==> outcome == ReuseDetected)
      ensures store.env.sound && outcome == Failed ==>
        && token in old(store.tokens) && old(store.tokens)[token].record.status == Active
        && old(store.now) + store.lifetime <= store.now
    {
      hide Busy, Members, Alone, Run, SerialRun, GuardedRun, Rotation, Swept, RevokeRowsOf;
      ghost var s := store.state;
      AlwaysLasting(store);
      var found; ghost var readAt;
      found, readAt := FindPresented(token, rid);
      if found.Fault? {
        store.Halt(rid);
        return Failed;
      }
      if found.NotFound? {
        return Rejected;
      }
      ghost var later := store.state;
      outcome := RefreshFound(token, found.value, readAt, random, rid);
      if outcome == Refreshed(random) {
        RotationEarlier(s, later, store.state, token, random);
      }
    }

    /**
     RefreshAccessToken. It succeeds only with a token that was usable when the request came, and
     then rotates it; it never looks at the session, yet only succeeds if the session was ACTIVE,
     provided every logout so far was presentable. A USED token whose key lives makes it revoke
     all of its user's tokens and sessions, unless something fails; a token whose key is gone
     changes nothing. A refusal changes nothing and has a reason; in a sound environment the only
     error is a new token that outlives its lifetime before it is stored.
     */
    method RefreshAccessToken(value: string, random: Token, ghost rid: Rid) returns (outcome: Outcome)
      requires Valid() && rid !in store.state.results && random !in store.state.births
      modifies store
      ensures Valid() && (old(store.Guarded()) ==> store.Guarded())
      ensures TrimSpace(value) == "" ==>
        outcome == Rejected && Untouched(old(store.state)) && store.trace == old(store.trace)
      ensures TrimSpace(value) != "" ==> store.Serves(rid, Refresh(TrimSpace(value)))
      ensures outcome == Refreshed(random) || outcome in {Rejected, ReuseDetected, Failed}
      ensures outcome == Refreshed(random) ==>
        var token := TrimSpace(value);
        && Ended(store.state, rid, outcome)
        && Usable(old(store.state), token) && Rotation(old(store.state), store.state, token, random)
        && old(store.tokens)[token].record.userId in users.users
        && (old(store.Guarded()) ==> Alive(old(store.state), old(store.tokens)[token].record.sessionId))
      ensures outcome == Rejected ==>
        && Untouched(old(store.state))
        && (TrimSpace(value) != "" ==> Refusable(store.tokens, TrimSpace(value), store.now, users.users))
      ensures outcome == ReuseDetected ==>
        var token := TrimSpace(value);
        && Ended(store.state, rid, outcome) && token in old(store.tokens)
        && old(store.tokens)[token].record.status == Used
        && var userId := old(store.tokens)[token].record.userId;
        Swept(old(store.tokens), store.tokens, Members(old(store.userIndex), userId), store.now)
        && UserRowsRevoked(old(store.sessions), store.sessions, userId)
        && store.userIndex == old(store.userIndex) && store.sessionIndex == old(store.sessionIndex)
      ensures old(store.now) <= store.now
      ensures KeyDead(old(store.tokens), old(store.now), TrimSpace(value)) ==>
        outcome in {Rejected, Failed} && Untouched(old(store.state))
      ensures store.env.sound && TrimSpace(value) != "" ==>
        var token := TrimSpace(value);
        && (outcome == Failed ==>
              && token in old(store.tokens) && old(store.tokens)[token].record.status == Active
              && old(store.now) + store.lifetime <= store.now)
        && (!KeyDead(old(store.tokens), store.now, token) && old(store.tokens)[token].record.status == Used ==>
              outcome == ReuseDetected)
    {
      hide Run, SerialRun, GuardedRun, Rotation, Swept, RevokeRowsOf, UserRowsRevoked, Aged, Usable, Refusable, Alive;
      hide Ended, Alone, Busy, Presentable;
      ghost var s, before := store.state, store.trace;
      var token := TrimSpace(value);
      if token == "" {
        return Rejected;
      }
      store.Begin(rid, Refresh(token));
      ghost var begun := store.state;
      BegunData(s, begun, token);
      outcome := RefreshBegun(token, random, rid);
      if outcome == Refreshed(random) {
        RotationEarlier(s, begun, store.state, token, random);
        if old(store.Guarded()) {
          RefreshedAlive(store.start, store.lifetime, before, store.trace, rid, token, random);
        }
      }
      if outcome == ReuseDetected {
        RowsRevoked(s.sessions, s.tokens[token].record.userId);
      }
    }

    // ---- Login ----

    /** From the new session row on: a token for it. */
    method IssueToken(userId: Id, sessionId: Id, random: Token, ghost rid: Rid)
      returns (ok: bool, ghost born: State, ghost record: Record)
      requires Wired() && Busy(store.state, rid, Mint(userId, sessionId, FromLogin)) && random !in store.state.births
      modifies store
      ensures Valid() && store.Continues(rid)
      ensures ok ==>
        && Ended(store.state, rid, LoggedIn(random)) && Born(old(store.state), born, random, record, rid)
        && record == Record(userId, sessionId, Active, born.now, born.now + store.lifetime)
        && Created(born, store.state, random, record, record.expiresAt)
      ensures old(store.now) <= store.now
      ensures store.env.sound && !ok ==> old(store.now) + store.lifetime <= store.now
    {
      hide Alone, Busy, Run, SerialRun, GuardedRun, AddMember, Born, Created, Aged, OnlyTokens;
      BusyAlone(store.state, rid, Mint(userId, sessionId, FromLogin));
      born, record := store.state, Record(userId, sessionId, Active, 0, 0);
      var unsigned := store.env.Fails();
      if unsigned {
        store.Halt(rid);
        return false, born, record;
      }
      var generated := tokenService.GenerateRefreshToken(userId, random, rid, sessionId, FromLogin);
      if !generated.Answer? {
        store.Halt(rid);
        return false, born, record;
      }
      born := store.state;
      record := generated.value.(sessionId := sessionId);
      var issued := generated.value.(sessionId := sessionId);
      var created := refreshTokens.Create(random, issued, rid, FromLogin);
      ok := created.Answer?;
      if !ok {
        store.Halt(rid);
      }
    }

    /** The session row of a login. */
    method InsertSession(userId: Id, device: string, address: string, sessionId: Id, ghost rid: Rid) returns (ok: bool)
      requires Valid() && rid !in store.state.results && sessionId !in store.sessions && sessionId != ""
      modifies store
      ensures Wired() && Alone(store.state, rid) && (old(store.Guarded()) ==> store.Guarded())
      ensures store.Serves(rid, Call.Login(userId, device, address))
      ensures !ok ==> store.state.requests == map[]
      ensures ok ==>
        var row := Session(userId, device, address, SessionActive, old(store.now), old(store.now));
        && Busy(store.state, rid, Mint(userId, sessionId, FromLogin))
        && RowsBecome(old(store.state), store.state, old(store.sessions)[sessionId := row])
      ensures store.env.sound ==> ok
    {
      hide Run, SerialRun, GuardedRun, RowsBecome, Entry0, Presentable, Ended;
      var row := Session(userId, device, address, SessionActive, store.now, store.now);
      LoginStarts(userId, device, address, store.now);
      ghost var s := store.state;
      store.Begin(rid, Call.Login(userId, device, address));
      ghost var begun := store.state;
      ok := sessions.Create(sessionId, row, rid);
      if ok {
        SeatedFrom(s, begun, store.state, sessionId, row);
      } else {
        store.Halt(rid);
      }
    }

    /** The part of Login that changes the store. */
    method OpenSession(userId: Id, metadata: RequestMetadata, sessionId: Id, random: Token, ghost rid: Rid)
      returns (outcome: Outcome)
      requires Valid() && rid !in store.state.results
      requires sessionId !in store.sessions && sessionId != "" && random !in store.state.births
      modifies store
      ensures Valid() && (old(store.Guarded()) ==> store.Guarded())
      ensures store.Serves(rid, Call.Login(userId, DeviceName(metadata), TrimSpace(metadata.ipAddress)))
      ensures outcome == LoggedIn(random) || outcome == Failed
      ensures outcome == LoggedIn(random) ==>
        && Ended(store.state, rid, outcome)
        && LoginMade(old(store.state), store.state, sessionId, random, userId, metadata)
      ensures store.env.sound && outcome == Failed ==> old(store.now) + store.lifetime <= store.now
    {
      hide Run, SerialRun, GuardedRun, AddMember, Born, Created, DeviceName, TrimSpace, Blank, LoginMade, Ended;
      var device := TrimSpace(metadata.deviceName);
      if device == "" {
        device := UNKNOWN_DEVICE;
      }
      DeviceNameIs(metadata, device);
      ghost var s := store.state;
      var ok := InsertSession(userId, device, TrimSpace(metadata.ipAddress), sessionId, rid);
      if !ok {
        return Failed;
      }
      ghost var row := Session(userId, device, TrimSpace(metadata.ipAddress), SessionActive, s.now, s.now);
      ghost var seated, born, record := store.state, store.state, Record("", "", Active, 0, 0);
      assert seated.births == s.births && seated.lifetime == s.lifetime;
      hide RowsBecome;
      ok, born, record := IssueToken(userId, sessionId, random, rid);
      if !ok {
        return Failed;
      }
      LoginMadeBy(s, seated, born, store.state, sessionId, row, random, record, rid, metadata);
      return LoggedIn(random);
    }

    /**
     Login. Blank input and wrong credentials leave the store alone; otherwise the user whose
     email this spells gets a new session with one ACTIVE token. In a sound environment the
     credentials are invalid exactly if no account has this email and password, and the only
     error is a new token that outlives its lifetime before it is stored.
     */
    method Login(
        email: string, password: string, metadata: RequestMetadata, sessionId: Id, random: Token, ghost rid: Rid)
      returns (result: LoginResult, ghost user: Option<User>)
      requires Valid() && rid !in store.state.results
      requires sessionId !in store.sessions && sessionId != "" && random !in store.state.births
      modifies store
      ensures Valid() && (old(store.Guarded()) ==> store.Guarded())
      ensures result == InvalidLoginInput <==> Blank(email) || Blank(password)
      ensures user.None? ==>
        Untouched(old(store.state)) && store.trace == old(store.trace) && result != Answered(LoggedIn(random))
      ensures result == InvalidCredentials ==> user.None?
      ensures result == InvalidCredentials ==> forall id :: id in users.users ==>
        !Spells(email, users.users[id].email) || !compare(users.users[id].hashedPassword, TrimSpace(password))
      ensures store.env.sound && !Blank(email) && !Blank(password) ==>
        && ((forall id :: id in users.users ==>
               !Spells(email, users.users[id].email) || !compare(users.users[id].hashedPassword, TrimSpace(password)))
             ==> result == InvalidCredentials)
        && (result == Answered(Failed) ==> old(store.now) + store.lifetime <= store.now)
      ensures user.Some? ==>
        && user.value.id in users.users && users.users[user.value.id] == user.value
        && Spells(email, user.value.email) && compare(user.value.hashedPassword, TrimSpace(password))
        && store.Serves(rid, Call.Login(user.value.id, DeviceName(metadata), TrimSpace(metadata.ipAddress)))
      ensures result in {Answered(LoggedIn(random)), Answered(Failed), InvalidLoginInput, InvalidCredentials}
      ensures result == Answered(LoggedIn(random)) ==>
        && user.Some? && Ended(store.state, rid, LoggedIn(random))
        && LoginMade(old(store.state), store.state, sessionId, random, user.value.id, metadata)
    {
      hide Run, SerialRun, GuardedRun, LoginMade, DeviceName, TrimSpace, Normalize, Spells, Blank, TableAfter;
      user := None;
      var address, secret := TrimSpace(email), TrimSpace(password);
      BlankIff(email);
      BlankIff(password);
      if address == "" || secret == "" {
        return InvalidLoginInput, None;
      }
      NormalizeIdempotent(email);
      users.SpelledAlike(email, address);
      var found := users.FindByEmail(address);
      if found.Fault? {
        return Answered(Failed), None;
      }
      if found.NotFound? || !compare(found.value.hashedPassword, secret) {
        return InvalidCredentials, None;
      }
      user := Some(found.value);
      var outcome := OpenSession(found.value.id, metadata, sessionId, random, rid);
      result := Answered(outcome);
    }

    // ---- Register ----

    /** Register: one account for each email, however it is spelled. */
    method Register(email: string, password: string, id: Id, hashedPassword: Option<string>)
      returns (result: RegisterResult)
      requires users.Valid()
      modifies users
      ensures users.Valid() && old(users.attempts) <= users.attempts
      ensures result == InvalidRegisterInput <==> Blank(email) || Blank(password)
      ensures result in {InvalidRegisterInput, EmailAlreadyExists} ==> users.users == old(users.users)
      ensures result == EmailAlreadyExists ==>
        id in users.users || exists i :: i in users.users && Spells(email, users.users[i].email)
      ensures result.Registered? ==>
        && hashedPassword.Some? && id !in old(users.users) && users.users == old(users.users)[id := result.user]
        && result.user == User(id, result.user.email, hashedPassword.value, false, store.now, store.now)
        && Spells(email, result.user.email) && NoCapitals(result.user.email) && Trim(result.user.email)
        && (forall i :: i in old(users.users) ==> !Spells(email, old(users.users)[i].email))
      ensures users.env.sound && hashedPassword.Some? ==> result != RegisterFailed
    {
      hide TrimSpace, ToLower, Normalize, Spells, Blank, TableAfter, Inserted;
      var address, secret := TrimSpace(email), TrimSpace(password);
      BlankIff(email);
      BlankIff(password);
      if address == "" || secret == "" {
        return InvalidRegisterInput;
      }
      if hashedPassword.None? {
        return RegisterFailed;
      }
      NormalizeIdempotent(email);
      users.SpelledAlike(email, ToLower(address));
      var user := User(id, ToLower(address), hashedPassword.value, false, store.now, store.now);
      var creation := users.CreateUser(user);
      match creation
      case UserCreated(created) =>
        SpellsIff(email, created.email);
        SpellsIff(user.email, created.email);
        return Registered(created);
      case DuplicateEmail => return EmailAlreadyExists;
      case CreationFailed => return RegisterFailed;
    }

    // ---- LogoutAll and RevokeSession ----

    /** LogoutAll: every unexpired token and every session of the user is revoked; others are not touched. */
    method LogoutAll(userId: string, ghost rid: Rid) returns (outcome: Outcome)
      requires Valid() && rid !in store.state.results
      modifies store
      ensures Valid() && (old(store.Guarded()) ==> store.Guarded()) && (outcome == Done || outcome == Failed)
      ensures old(store.now) <= store.now
      ensures TrimSpace(userId) == "" ==>
        outcome == Done && Untouched(old(store.state)) && store.trace == old(store.trace)
      ensures TrimSpace(userId) != "" ==> store.Serves(rid, Call.LogoutAll(TrimSpace(userId)))
      ensures store.userIndex == old(store.userIndex) && store.sessionIndex == old(store.sessionIndex)
      ensures PartlySwept(old(store.tokens), store.tokens, Members(old(store.userIndex), TrimSpace(userId)))
      ensures store.sessions == old(store.sessions)
        || UserRowsRevoked(old(store.sessions), store.sessions, TrimSpace(userId))
      ensures TrimSpace(userId) != "" && outcome == Done ==>
        && Ended(store.state, rid, Done)
        && Swept(old(store.tokens), store.tokens, Members(old(store.userIndex), TrimSpace(userId)), store.now)
        && UserRowsRevoked(old(store.sessions), store.sessions, TrimSpace(userId))
      ensures store.env.sound ==> outcome == Done
    {
      hide Run, SerialRun, GuardedRun, PartlySwept, Swept, RevokeRowsOf, UserRowsRevoked, TrimSpace;
      var id := TrimSpace(userId);
      RowsRevoked(store.sessions, id);
      PartlySweptSame(store.tokens, Members(store.userIndex, id));
      if id == "" {
        return Done;
      }
      store.Begin(rid, Call.LogoutAll(id));
      var ok := SweepUser(id, rid, Requested);
      return if ok then Done else Failed;
    }

    /** RevokeAllBySession, then UpdateStatus of the session. */
    method SweepSession(sessionId: Id, ghost rid: Rid) returns (ok: bool)
      requires Wired() && Busy(store.state, rid, SweepMembers(OfSession(sessionId), Requested))
      modifies store
      ensures Valid() && store.Continues(rid) && old(store.now) <= store.now
      ensures store.userIndex == old(store.userIndex) && store.sessionIndex == old(store.sessionIndex)
      ensures PartlySwept(old(store.tokens), store.tokens, Members(old(store.sessionIndex), sessionId))
      ensures store.sessions == old(store.sessions) || store.sessions == RevokeRow(old(store.sessions), sessionId)
      ensures ok ==>
        && Ended(store.state, rid, Done)
        && Swept(old(store.tokens), store.tokens, Members(old(store.sessionIndex), sessionId), store.now)
        && store.sessions == RevokeRow(old(store.sessions), sessionId)
      ensures store.env.sound ==> ok
    {
      hide Run, SerialRun, GuardedRun, PartlySwept, RevokeRow;
      ghost var before, members := store.tokens, Members(store.sessionIndex, sessionId);
      ok := refreshTokens.RevokeAllBySession(sessionId, rid);
      if !ok {
        store.Halt(rid);
        return;
      }
      ghost var at := store.now;
      ok := sessions.UpdateStatus(sessionId, rid, members);
      SweptLater(before, store.tokens, members, at, store.now);
      hide Swept;
      if !ok {
        store.Halt(rid);
      }
    }

    /** RevokeSession on trimmed arguments. */
    method RevokeBegun(userId: Id, sessionId: Id, ghost rid: Rid) returns (outcome: Outcome)
      requires Wired() && Busy(store.state, rid, OwnerCheck(userId, sessionId))
      modifies store
      ensures Valid() && store.Continues(rid) && old(store.now) <= store.now && outcome in {Done, Rejected, Failed}
      ensures store.userIndex == old(store.userIndex) && store.sessionIndex == old(store.sessionIndex)
      ensures
        var owned := sessionId in old(store.sessions) && old(store.sessions)[sessionId].userId == userId;
        && (!owned ==> outcome != Done && Untouched(old(store.state)))
        && (outcome == Rejected ==> sessionId in old(store.sessions) && !owned)
      ensures sessionId !in old(store.sessions) ==> outcome == Failed
      ensures PartlySwept(old(store.tokens), store.tokens, Members(old(store.sessionIndex), sessionId))
      ensures outcome == Done ==>
        && Ended(store.state, rid, Done)
        && Swept(old(store.tokens), store.tokens, Members(old(store.sessionIndex), sessionId), store.now)
        && store.sessions == RevokeRow(old(store.sessions), sessionId)
      ensures store.sessions == old(store.sessions) || store.sessions == RevokeRow(old(store.sessions), sessionId)
      ensures store.env.sound && sessionId in old(store.sessions) ==>
        outcome == if old(store.sessions)[sessionId].userId == userId then Done else Rejected
    {
      hide Run, SerialRun, GuardedRun, PartlySwept, Swept, RevokeRow;
      PartlySweptSame(store.tokens, Members(store.sessionIndex, sessionId));
      var found := sessions.FindByID(sessionId, rid, userId);
      if found.Fault? {
        store.Halt(rid);
        return Failed;
      }
      if found.NotFound? {
        return Failed;
      }
      if found.value.userId != userId {
        return Rejected;
      }
      var ok := SweepSession(sessionId, rid);
      return if ok then Done else Failed;
    }

    /**
     RevokeSession: only for the session's owner; then every unexpired token of the session is
     revoked and the session's row with them. Others are not touched. In a sound environment an
     absent session is an error, a stranger is rejected and the owner succeeds.
     */
    method RevokeSession(userId: string, sessionId: string, ghost rid: Rid) returns (outcome: Outcome)
      requires Valid() && rid !in store.state.results
      modifies store
      ensures Valid() && (old(store.Guarded()) ==> store.Guarded())
      ensures store.Serves(rid, Call.RevokeSession(TrimSpace(userId), TrimSpace(sessionId)))
      ensures outcome in {Done, Rejected, Failed} && old(store.now) <= store.now
      ensures
        var id := TrimSpace(sessionId);
        var owned := id in old(store.sessions) && old(store.sessions)[id].userId == TrimSpace(userId);
        && (!owned ==> outcome != Done && Untouched(old(store.state)))
        && (outcome == Rejected ==> id in old(store.sessions) && !owned)
        && (id !in old(store.sessions) ==> outcome == Failed)
      ensures store.userIndex == old(store.userIndex) && store.sessionIndex == old(store.sessionIndex)
      ensures PartlySwept(old(store.tokens), store.tokens, Members(old(store.sessionIndex), TrimSpace(sessionId)))
      ensures outcome == Done ==>
        && Ended(store.state, rid, Done)
        && Swept(old(store.tokens), store.tokens, Members(old(store.sessionIndex), TrimSpace(sessionId)), store.now)
        && SessionRowRevoked(old(store.sessions), store.sessions, TrimSpace(sessionId))
      ensures store.sessions == old(store.sessions)
        || SessionRowRevoked(old(store.sessions), store.sessions, TrimSpace(sessionId))
      ensures store.env.sound && TrimSpace(sessionId) in old(store.sessions) ==>
        outcome == if old(store.sessions)[TrimSpace(sessionId)].userId == TrimSpace(userId) then Done else Rejected
    {
      hide Run, SerialRun, GuardedRun, PartlySwept, Swept, RevokeRow, SessionRowRevoked, TrimSpace;
      RowsRevoked(store.sessions, TrimSpace(sessionId));
      store.Begin(rid, Call.RevokeSession(TrimSpace(userId), TrimSpace(sessionId)));
      outcome := RevokeBegun(TrimSpace(userId), TrimSpace(sessionId), rid);
    }

    // ---- Logout ----

    /** The token is looked up for its session before it is revoked. */
    method FindOwnerOf(token: Token, ghost rid: Rid) returns (reply: Reply<Record>)
      requires Wired() && Busy(store.state, rid, LogoutFind(token))
      modifies store
      ensures Wired() && store.Continues(rid) && Alone(store.state, rid)
      ensures OnlyTokens(old(store.state), store.state) && store.tokens == old(store.tokens)
      ensures reply.NotFound? ==> KeyDead(store.tokens, store.now, token)
      ensures reply.Answer? ==>
        !KeyDead(store.tokens, store.now, token) && reply.value == store.tokens[token].record
      ensures !reply.Fault? ==>
        Busy(store.state, rid, UpdateFind(token, LogoutToken(if reply.Answer? then Some(reply.value) else None)))
      ensures store.env.sound ==> !reply.Fault?
    {
      hide Apply, Run, SerialRun, GuardedRun, Lookup;
      reply := refreshTokens.FindByToken(token, rid);
      if !reply.Fault? {
        LogoutFindMoves(store.state, rid, token);
        store.Record(Do(rid, ""));
      }
    }

    /** RevokeByToken, then UpdateStatus of the session that was found, if one was. */
    method RevokePresented(token: Token, found: Option<Record>, ghost rid: Rid) returns (ok: bool)
      requires Wired() && Busy(store.state, rid, UpdateFind(token, LogoutToken(found)))
      requires found.Some? ==>
        token in store.tokens && store.tokens[token].record == found.value && found.value.sessionId != ""
      modifies store
      ensures Valid() && store.Continues(rid) && old(store.now) <= store.now
      ensures store.userIndex == old(store.userIndex) && store.sessionIndex == old(store.sessionIndex)
      ensures store.tokens == old(store.tokens) || Rewritten(old(store.tokens), store.tokens, token, Revoked)
      ensures store.sessions == old(store.sessions)
        || (found.Some? && store.sessions == RevokeRow(old(store.sessions), found.value.sessionId))
      ensures ok ==>
        && Ended(store.state, rid, Done)
        && store.sessions ==
             (if found.Some? then RevokeRow(old(store.sessions), found.value.sessionId) else old(store.sessions))
        && (Rewritten(old(store.tokens), store.tokens, token, Revoked)
            || (store.tokens == old(store.tokens)
                && (KeyDead(store.tokens, store.now, token) || store.tokens[token].record.expiresAt <= store.now)))
      ensures KeyDead(old(store.tokens), old(store.now), token) ==> store.tokens == old(store.tokens)
      ensures store.env.sound ==> ok
    {
      hide Busy, Alone, Run, SerialRun, GuardedRun, RevokeRow, Rewritten;
      var revoked := refreshTokens.RevokeByToken(token, rid, found);
      if revoked.Fault? {
        store.Halt(rid);
        return false;
      }
      if found.None? || found.value.sessionId == "" {
        return true;
      }
      ok := sessions.UpdateStatus(found.value.sessionId, rid, {});
      if !ok {
        store.Halt(rid);
      }
    }

    /** Logout for a token that is not empty. */
    method LogoutBegun(token: Token, ghost rid: Rid) returns (outcome: Outcome)
      requires Wired() && Busy(store.state, rid, LogoutFind(token)) && Lasting(store.tokens)
      requires token in store.tokens ==> store.tokens[token].record.sessionId != ""
      modifies store
      ensures Valid() && store.Continues(rid) && (outcome == Done || outcome == Failed)
      ensures store.userIndex == old(store.userIndex) && store.sessionIndex == old(store.sessionIndex)
      ensures store.tokens == old(store.tokens) || Rewritten(old(store.tokens), store.tokens, token, Revoked)
      ensures store.sessions == old(store.sessions)
        || (token in old(store.tokens)
            && store.sessions == RevokeRow(old(store.sessions), old(store.tokens)[token].record.sessionId))
      ensures outcome == Done ==>
        && Ended(store.state, rid, Done)
        && (token !in old(store.tokens) ==> Untouched(old(store.state)))
        && (token in old(store.tokens) && store.now < old(store.tokens)[token].record.expiresAt ==>
              LoggedOut(old(store.state), store.state, token))
      ensures KeyDead(old(store.tokens), old(store.now), token) ==> Untouched(old(store.state))
      ensures store.env.sound ==> outcome == Done
    {
      hide Run, SerialRun, GuardedRun, RevokeRow, SessionRowRevoked, Rewritten;
      var found := FindOwnerOf(token, rid);
      if found.Fault? {
        store.Halt(rid);
        return Failed;
      }
      ghost var before := store.tokens;
      if found.Answer? {
        RowsRevoked(store.sessions, found.value.sessionId);
      }
      var ok := RevokePresented(token, if found.Answer? then Some(found.value) else None, rid);
      if Rewritten(before, store.tokens, token, Revoked) {
        RewrittenStored(before, store.tokens, token, Revoked);
      }
      return if ok then Done else Failed;
    }

    /**
     Logout. A token that is unexpired to the end is REVOKED, whatever its status was, and so is
     its session; one whose key is gone changes nothing, whatever the outcome; no other token is
     touched in any case.
     */
    method Logout(value: string, ghost rid: Rid) returns (outcome: Outcome)
      requires Valid() && rid !in store.state.results
      modifies store
      ensures Valid() && (outcome == Done || outcome == Failed)
      ensures old(store.Guarded()) && Presentable(old(store.state), Call.Logout(TrimSpace(value))) ==> store.Guarded()
      ensures TrimSpace(value) == "" ==>
        outcome == Done && Untouched(old(store.state)) && store.trace == old(store.trace)
      ensures TrimSpace(value) != "" ==> store.Serves(rid, Call.Logout(TrimSpace(value)))
      ensures store.userIndex == old(store.userIndex) && store.sessionIndex == old(store.sessionIndex)
      ensures store.tokens == old(store.tokens) || Rewritten(old(store.tokens), store.tokens, TrimSpace(value), Revoked)
      ensures store.sessions == old(store.sessions)
        || (TrimSpace(value) in old(store.tokens) && SessionRowRevoked(
              old(store.sessions), store.sessions, old(store.tokens)[TrimSpace(value)].record.sessionId))
      ensures TrimSpace(value) != "" && outcome == Done ==>
        && Ended(store.state, rid, Done)
        && var token := TrimSpace(value);
        token in old(store.tokens) && store.now < old(store.tokens)[token].record.expiresAt ==>
          LoggedOut(old(store.state), store.state, token)
      ensures KeyDead(old(store.tokens), old(store.now), TrimSpace(value)) ==> Untouched(old(store.state))
      ensures store.env.sound ==> outcome == Done
    {
      hide Run, SerialRun, GuardedRun, RevokeRow, SessionRowRevoked, TrimSpace, Presentable;
      var token := TrimSpace(value);
      if token == "" {
        return Done;
      }
      ghost var before := store.tokens;
      AlwaysLasting(store);
      store.Begin(rid, Call.Logout(token));
      if token in before {
        SessionNamed(store, token);
        RowsRevoked(store.sessions, before[token].record.sessionId);
      }
      outcome := LogoutBegun(token, rid);
    }
  }
}
