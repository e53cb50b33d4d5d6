/**
 Serial runs: requests do not overlap, but each may still stop after any of its steps, and the
 clock may move between any two. What holds here and not under arbitrary overlap rests on the
 order of the writes: tokens are revoked before their session is.
 */
module SerialRuns {
  import opened Records
  import opened Protocol
  import opened ProtocolSteps
  import opened ProtocolInvariants
  import opened OneActiveToken
  import opened QuietScopes

  /** A request starts only when none is in flight. */
  predicate Serial(s: State, e: Event) {
    e.Start? ==> s.requests == map[]
  }

  /** A logout presents a token that is ACTIVE or absent, or its session has no usable token anyway. */
  ghost predicate Presentable(s: State, call: Call) {
    call.Logout? ==>
      var found := Lookup(s.tokens, s.now, call.token);
      found.None? || found.value.status == Active || NoneUsable(s, OfSession(found.value.sessionId))
  }

  ghost predicate SerialRun(s: State, events: seq<Event>) {
    events != [] ==>
      && SerialRun(s, events[..|events| - 1])
      && Serial(Exec(s, events[..|events| - 1]), events[|events| - 1])
  }

  /** A serial run in which every logout is presentable. */
  ghost predicate GuardedRun(s: State, events: seq<Event>) {
    events != [] ==>
      var before := Exec(s, events[..|events| - 1]);
      var e := events[|events| - 1];
      GuardedRun(s, events[..|events| - 1]) && Serial(before, e) && (e.Start? ==> Presentable(before, e.call))
  }

  predicate Alone(s: State, rid: Rid) {
    forall r :: r in s.requests ==> r == rid
  }

  ghost predicate Single(s: State) {
    forall r, q :: r in s.requests && q in s.requests ==> r == q
  }

  predicate Alive(s: State, sessionId: Id) {
    sessionId in s.sessions && s.sessions[sessionId].status == SessionActive
  }

  predicate InScope(birth: Birth, scope: Scope) {
    Concerns(scope, birth.userId, birth.sessionId)
  }

  ghost predicate ScopeSpent(s: State, scope: Scope) {
    forall t :: t in s.order && t in s.births && InScope(s.births[t], scope) ==> Spent(s, t)
  }

  /** While nobody else runs, the snapshot of a sweep stays complete. */
  ghost predicate Covers(s: State, scope: Scope, snapshot: set<Token>) {
    forall t :: t in s.order && t in s.births && InScope(s.births[t], scope) ==> t in snapshot
  }

  /** Every other token of the session is spent. */
  ghost predicate OthersSpent(s: State, token: Token, sessionId: Id) {
    forall u :: u in s.order && u in s.births && s.births[u].sessionId == sessionId && u != token ==> Spent(s, u)
  }

  /** Read ACTIVE, and nobody has written since: ACTIVE still, unless it has expired. */
  predicate StillActive(s: State, token: Token) {
    ActiveIn(s, token) || (token in s.births && s.births[token].expiresAt <= s.now)
  }

  predicate AliveToken(s: State, token: Token) {
    token in s.births && Alive(s, s.births[token].sessionId)
  }

  /** Every mark is older than the read of the refresh in flight. */
  ghost predicate MarkedEarlier(s: State, readAt: nat) {
    forall r :: r in s.marks ==> s.marks[r].markAt < readAt
  }

  ghost predicate SerialGoal(s: State, token: Token, goal: Goal, guarded: bool) {
    match goal
    case MarkUsed(_, readAt) => MarkedEarlier(s, readAt) && StillActive(s, token)
    case LogoutToken(owner) => guarded && owner.Some? ==> OthersSpent(s, token, owner.value.sessionId)
    case SweepToken(sweep) => Covers(s, sweep.scope, sweep.snapshot)
  }

  /** The local facts of the request in flight; those that need presentable logouts are `guarded`. */
  ghost predicate SerialPc(s: State, pc: Pc, guarded: bool) {
    match pc
    case LoginInsert(row) => row.status == SessionActive
    case Mint(_, sessionId, _) => guarded ==> Alive(s, sessionId)
    case CreateTtl(_, record, _) => guarded ==> Alive(s, record.sessionId)
    case CreateExec(_, record, _, _) => guarded ==> Alive(s, record.sessionId)
    case TouchStamp(_, renewed) => guarded ==> AliveToken(s, renewed)
    case Touch(_, _, renewed) => guarded ==> AliveToken(s, renewed)
    case RefreshCheck(token, record, readAt) =>
      record.status == Active ==> MarkedEarlier(s, readAt) && StillActive(s, token)
    case RefreshUser(token, _, readAt) => MarkedEarlier(s, readAt) && StillActive(s, token)
    case UpdateFind(token, goal) => SerialGoal(s, token, goal, guarded)
    case UpdateTtl(token, _, goal) => SerialGoal(s, token, goal, guarded)
    case UpdateSet(token, _, _, _, goal) =>
      if goal.MarkUsed? then MarkedEarlier(s, goal.readAt) && (guarded ==> AliveToken(s, token))
      else SerialGoal(s, token, goal, guarded)
    case SweepNext(sweep) => Covers(s, sweep.scope, sweep.snapshot)
    case SweepFind(_, sweep) => Covers(s, sweep.scope, sweep.snapshot)
    case RevokeRows(scope, _, _) => guarded || scope.OfUser? ==> ScopeSpent(s, scope)
    case LogoutFind(token) =>
      guarded && Lookup(s.tokens, s.now, token).Some? ==>
        ActiveIn(s, token) || ScopeSpent(s, OfSession(s.tokens[token].record.sessionId))
    case _ => true
  }

  /** No token is redeemed twice. */
  ghost predicate MarkedOnce(s: State) {
    forall r, q :: r in s.marks && q in s.marks && s.marks[r].token == s.marks[q].token ==> r == q
  }

  /** A token that is not spent belongs to an ACTIVE session. */
  ghost predicate LiveSessions(s: State) {
    forall t :: t in s.order && t in s.births && !Spent(s, t) ==> Alive(s, s.births[t].sessionId)
  }

  ghost predicate SerialInv(s: State, guarded: bool) {
    && Single(s) && MarkedOnce(s) && (guarded ==> LiveSessions(s))
    && (forall r :: r in s.requests ==> SerialPc(s, s.requests[r], guarded))
  }

  // ---- moving the request ----

  lemma SerialGoto(s: State, m: State, rid: Rid, pc: Pc, guarded: bool)
    requires Alone(s, rid) && m.requests == s.requests
    requires MarkedOnce(m) && (guarded ==> LiveSessions(m)) && SerialPc(m, pc, guarded)
    ensures SerialInv(Goto(m, rid, pc), guarded)
  {
    SamePcSerial(m, Goto(m, rid, pc), pc, guarded);
    SameLive(m, Goto(m, rid, pc));
    hide SerialPc, LiveSessions;
  }

  lemma SamePcSerial(m: State, s': State, pc: Pc, guarded: bool)
    requires s' == m.(requests := s'.requests, results := s'.results) && SerialPc(m, pc, guarded)
    ensures SerialPc(s', pc, guarded)
  {
    assert forall t :: Spent(s', t) == Spent(m, t);
  }

  lemma SameLive(m: State, s': State)
    requires s' == m.(requests := s'.requests, results := s'.results)
    ensures LiveSessions(m) ==> LiveSessions(s')
  {
    assert forall t :: Spent(s', t) == Spent(m, t);
  }

  lemma SerialFinish(s: State, m: State, rid: Rid, outcome: Outcome, guarded: bool)
    requires Alone(s, rid) && m.requests == s.requests
    requires MarkedOnce(m) && (guarded ==> LiveSessions(m))
    ensures SerialInv(Finish(m, rid, outcome), guarded)
  {
    SameLive(m, Finish(m, rid, outcome));
    hide LiveSessions;
  }

  lemma SerialIdle(s: State, guarded: bool)
    requires SerialInv(s, guarded)
    ensures SerialInv(Numbered(s), guarded)
  {
    assert forall t :: Spent(Numbered(s), t) == Spent(s, t);
  }

  // ---- steps of the request in flight ----

  ghost predicate Ready(s: State, rid: Rid, pc: Pc, guarded: bool) {
    && Inv(s) && SerialInv(s, guarded) && rid in s.requests && s.requests[rid] == pc && Alone(s, rid)
  }

  lemma Open(s: State, rid: Rid, pc: Pc, guarded: bool)
    requires Ready(s, rid, pc, guarded)
    ensures StoreInv(s) && IndexInv(s) && MarksInv(s) && SerialInv(s, guarded) && Alone(s, rid)
    ensures MarkedOnce(s) && (guarded ==> LiveSessions(s)) && SerialPc(s, pc, guarded) && PcInv(s, rid, pc)
  {
    hide StoreInv, IndexInv, MarksInv, SerialPc, PcInv, MarkedOnce, LiveSessions, Single;
    assert PcInv(s, rid, s.requests[rid]);
  }

  /** Steps that only move the request leave the shared facts in place. */
  lemma NumberedShared(s: State, guarded: bool)
    requires SerialInv(s, guarded)
    ensures MarkedOnce(Numbered(s)) && (guarded ==> LiveSessions(Numbered(s)))
  {
    hide SerialPc;
    assert forall t :: Spent(Numbered(s), t) == Spent(s, t);
  }

  lemma SerialMove(s: State, rid: Rid, pc: Pc, guarded: bool)
    requires SerialInv(s, guarded) && Alone(s, rid) && SerialPc(Numbered(s), pc, guarded)
    ensures SerialInv(Goto(Numbered(s), rid, pc), guarded)
  {
    hide SerialPc, LiveSessions, MarkedOnce;
    NumberedShared(s, guarded);
    SerialGoto(s, Numbered(s), rid, pc, guarded);
  }

  lemma SerialEnd(s: State, rid: Rid, outcome: Outcome, guarded: bool)
    requires SerialInv(s, guarded) && Alone(s, rid)
    ensures SerialInv(Finish(Numbered(s), rid, outcome), guarded)
  {
    hide SerialPc, LiveSessions, MarkedOnce;
    NumberedShared(s, guarded);
    SerialFinish(s, Numbered(s), rid, outcome, guarded);
  }

  lemma LoginInsertSerial(s: State, rid: Rid, row: Session, pick: Id, guarded: bool)
    requires Ready(s, rid, LoginInsert(row), guarded) && pick !in s.sessions
    ensures SerialInv(DoLoginInsert(Numbered(s), rid, row, pick), guarded)
  {
    var m := Numbered(s).(sessions := s.sessions[pick := row]);
    assert SerialPc(m, Mint(row.userId, pick, FromLogin), guarded) by { assert SerialPc(s, s.requests[rid], guarded); }
    hide IndexInv, MarksInv, RequestsInv, SerialPc;
    assert guarded ==> LiveSessions(m) by { assert forall t :: Spent(m, t) == Spent(s, t); }
    hide LiveSessions, StoreInv;
    SerialGoto(s, m, rid, Mint(row.userId, pick, FromLogin), guarded);
  }

  lemma SameMarks(s: State, m: State)
    requires MarkedOnce(s) && m.marks == s.marks
    ensures MarkedOnce(m)
  {
  }

  lemma BirthLive(s: State, token: Token, birth: Birth)
    requires StoreInv(s) && LiveSessions(s) && token !in s.births
    ensures LiveSessions(Numbered(s).(births := s.births[token := birth]))
  {
    assert forall t :: t in s.births ==> Spent(Numbered(s).(births := s.births[token := birth]), t) == Spent(s, t);
  }

  lemma MintSerial(s: State, rid: Rid, userId: Id, sessionId: Id, origin: Origin, pick: Token, guarded: bool)
    requires Ready(s, rid, Mint(userId, sessionId, origin), guarded) && pick !in s.births
    ensures SerialInv(DoMint(Numbered(s), rid, userId, sessionId, origin, pick), guarded)
  {
    hide Covers, OthersSpent, ScopeSpent, MarkedEarlier, StillActive, Goto;
    var birth := Birth(userId, sessionId, s.now, s.now + s.lifetime, rid);
    var m := Numbered(s).(births := s.births[pick := birth]);
    var pc := CreateTtl(pick, Record(userId, sessionId, Active, s.now, s.now + s.lifetime), origin);
    Open(s, rid, Mint(userId, sessionId, origin), guarded);
    hide Ready, Inv, SerialInv, StoreInv, IndexInv, MarksInv, RequestsInv, PcInv, LiveSessions, MarkedOnce;
    SameMarks(s, m);
    assert SerialPc(m, pc, guarded);
    hide SerialPc, Goto;
    if guarded {
      BirthLive(s, pick, birth);
    }
    SerialGoto(s, m, rid, pc, guarded);
  }

  lemma StoreLive(s: State, token: Token, record: Record, ttl: int)
    requires LiveSessions(s) && AliveToken(s, token)
    ensures LiveSessions(StoreNew(Numbered(s), token, record, ttl))
  {
    hide AddMember, Members;
    var m := StoreNew(Numbered(s), token, record, ttl);
    assert m.order == s.order[token := s.steps + 1];
    assert m.births == s.births && m.sessions == s.sessions && m.now == s.now;
    assert m.tokens == s.tokens[token := Entry(record, s.now + ttl)];
    hide StoreNew;
    forall t | t in m.order && t in m.births && !Spent(m, t) ensures Alive(m, m.births[t].sessionId) {
      if t != token {
        assert !Spent(s, t);
      }
    }
  }

  lemma StoredLive(s: State, rid: Rid, token: Token, record: Record, ttl: int, origin: Origin, guarded: bool)
    requires Ready(s, rid, CreateExec(token, record, ttl, origin), guarded)
    ensures var m := StoreNew(Numbered(s), token, record, ttl);
      && MarkedOnce(m) && (guarded ==> LiveSessions(m)) && (guarded ==> AliveToken(m, token))
  {
    Open(s, rid, s.requests[rid], guarded);
    hide Inv, SerialInv, StoreInv, IndexInv, MarksInv, LiveSessions;
    if guarded {
      StoreLive(s, token, record, ttl);
    }
  }

  lemma CreateExecSerial(s: State, rid: Rid, token: Token, record: Record, ttl: int, origin: Origin, guarded: bool)
    requires Ready(s, rid, CreateExec(token, record, ttl, origin), guarded)
    ensures SerialInv(DoCreateExec(Numbered(s), rid, token, record, ttl, origin), guarded)
  {
    var m := StoreNew(Numbered(s), token, record, ttl);
    StoredLive(s, rid, token, record, ttl, origin, guarded);
    assert SerialPc(m, TouchStamp(record.sessionId, token), guarded);
    hide Inv, SerialPc, LiveSessions, MarkedOnce;
    match origin
    case FromLogin => SerialFinish(s, m, rid, LoggedIn(token), guarded);
    case FromRefresh => SerialGoto(s, m, rid, TouchStamp(record.sessionId, token), guarded);
  }

  /** Row updates after which every session of an unspent token is still ACTIVE. */
  lemma RowsSerial(s: State, rid: Rid, rows: map<Id, Session>, outcome: Outcome, guarded: bool)
    requires SerialInv(s, guarded) && Alone(s, rid)
    requires guarded ==> LiveSessions(Numbered(s).(sessions := rows))
    ensures SerialInv(Finish(Numbered(s).(sessions := rows), rid, outcome), guarded)
  {
    hide LiveSessions, SerialPc;
    SerialFinish(s, Numbered(s).(sessions := rows), rid, outcome, guarded);
  }

  lemma TouchSerial(s: State, rid: Rid, sessionId: Id, at: int, renewed: Token, guarded: bool)
    requires Ready(s, rid, Touch(sessionId, at, renewed), guarded)
    ensures SerialInv(DoTouch(Numbered(s), rid, sessionId, at, renewed), guarded)
  {
    hide Inv, SerialPc;
    var m := Numbered(s).(sessions := TouchRow(s.sessions, sessionId, at));
    assert guarded ==> LiveSessions(m) by { assert forall t :: Spent(m, t) == Spent(s, t); }
    RowsSerial(s, rid, m.sessions, Refreshed(renewed), guarded);
  }

  lemma RevokeRowsSerial(s: State, rid: Rid, scope: Scope, reason: Reason, snapshot: set<Token>, guarded: bool)
    requires Ready(s, rid, RevokeRows(scope, reason, snapshot), guarded)
    ensures SerialInv(DoRevokeRows(Numbered(s), rid, scope, reason), guarded)
  {
    hide Covers, OthersSpent, MarkedEarlier, StillActive, Finish, Goto;
    var m := Numbered(s).(sessions := RowsAfter(s.sessions, scope));
    Open(s, rid, RevokeRows(scope, reason, snapshot), guarded);
    hide Inv, IndexInv, MarksInv, RequestsInv, LiveSessions, StoreInv, SerialInv, PcInv, ScopeSpent, RowsAfter;
    if guarded {
      RowsLive(s, scope);
    }
    hide SerialPc;
    RowsSerial(s, rid, m.sessions, if reason == Reuse then ReuseDetected else Done, guarded);
  }

  /** Only sessions all of whose tokens are spent get revoked. */
  lemma RowsLive(s: State, scope: Scope)
    requires StoreInv(s) && LiveSessions(s) && ScopeSpent(s, scope)
    ensures LiveSessions(Numbered(s).(sessions := RowsAfter(s.sessions, scope)))
  {
    var m := Numbered(s).(sessions := RowsAfter(s.sessions, scope));
    assert forall t :: Spent(m, t) == Spent(s, t);
    forall t | t in m.order && t in m.births && !Spent(m, t) ensures Alive(m, m.births[t].sessionId) {
      assert !InScope(s.births[t], scope);
      assert Owned(s, s.births[t].sessionId, s.births[t].userId);
    }
  }

  // ---- RefreshAccessToken ----

  lemma MarksBefore(s: State)
    requires MarksInv(s)
    ensures MarkedEarlier(s, s.steps + 1)
  {
    forall r | r in s.marks ensures s.marks[r].markAt <= s.steps {
      assert MarkInv(s, r);
    }
  }

  lemma RefreshFindSerial(s: State, rid: Rid, token: Token, guarded: bool)
    requires Ready(s, rid, RefreshFind(token), guarded)
    ensures SerialInv(DoRefreshFind(Numbered(s), rid, token), guarded)
  {
    hide Goto, Finish, Covers, OthersSpent, ScopeSpent, Single;
    Open(s, rid, s.requests[rid], guarded);
    MarksBefore(s);
    hide Ready, Inv, SerialInv, StoreInv, IndexInv, MarksInv, LiveSessions, MarkedOnce, PcInv;
    match Lookup(s.tokens, s.now, token)
    case None =>
      SerialEnd(s, rid, Rejected, guarded);
    case Some(record) =>
      SerialMove(s, rid, RefreshCheck(token, record, s.steps + 1), guarded);
  }

  lemma NumberedPc(s: State, pc: Pc, guarded: bool)
    requires SerialPc(s, pc, guarded)
    ensures SerialPc(Numbered(s), pc, guarded)
  {
    assert forall t :: Spent(Numbered(s), t) == Spent(s, t);
  }

  lemma RefreshCheckSerial(s: State, rid: Rid, token: Token, record: Record, readAt: nat, guarded: bool)
    requires Ready(s, rid, RefreshCheck(token, record, readAt), guarded)
    ensures SerialInv(DoRefreshCheck(Numbered(s), rid, token, record, readAt), guarded)
  {
    assert SerialPc(s, s.requests[rid], guarded);
    NumberedPc(s, s.requests[rid], guarded);
    hide Inv;
    if record.status == Used {
      SerialMove(s, rid, SweepMembers(OfUser(record.userId), Reuse), guarded);
    } else if record.status != Active || s.now > record.expiresAt {
      SerialEnd(s, rid, Rejected, guarded);
    } else {
      SerialMove(s, rid, RefreshUser(token, record, readAt), guarded);
    }
  }

  lemma RefreshUserSerial(s: State, rid: Rid, token: Token, record: Record, readAt: nat, pick: string, guarded: bool)
    requires Ready(s, rid, RefreshUser(token, record, readAt), guarded)
    ensures SerialInv(DoRefreshUser(Numbered(s), rid, token, record, readAt, pick), guarded)
  {
    assert SerialPc(s, s.requests[rid], guarded);
    NumberedPc(s, s.requests[rid], guarded);
    hide Inv;
    if pick != "" {
      SerialEnd(s, rid, Rejected, guarded);
    } else {
      SerialMove(s, rid, UpdateFind(token, MarkUsed(record, readAt)), guarded);
    }
  }

  // ---- UpdateStatus ----

  /** UpdateStatus found nothing to write: its token is spent. */
  lemma MissingSerial(s: State, rid: Rid, pc: Pc, token: Token, goal: Goal, guarded: bool)
    requires Ready(s, rid, pc, guarded) && SerialGoal(s, token, goal, guarded)
    requires token in s.order ==> Spent(s, token)
    ensures SerialInv(UpdateMissing(Numbered(s), rid, goal), guarded)
  {
    Open(s, rid, pc, guarded);
    hide Inv, SerialInv, StoreInv, IndexInv, MarksInv, PcInv;
    AfterSerial(Numbered(s), s, token, goal, guarded);
    match goal
    case MarkUsed(_, _) => SerialEnd(s, rid, Rejected, guarded);
    case LogoutToken(owner) =>
      if owner.Some? {
        SerialMove(s, rid, RevokeRows(OfSession(owner.value.sessionId), Requested, {}), guarded);
      } else {
        SerialEnd(s, rid, Done, guarded);
      }
    case SweepToken(sweep) =>
      SerialMove(s, rid, SweepNext(sweep), guarded);
  }

  /** What UpdateStatus owes its caller once its token is spent. */
  lemma AfterSerial(m: State, s: State, token: Token, goal: Goal, guarded: bool)
    requires SerialGoal(s, token, goal, guarded) && (token in m.order ==> Spent(m, token))
    requires m.order == s.order && m.births == s.births
    requires forall t :: Spent(s, t) ==> Spent(m, t)
    requires StoreInv(s)
    ensures goal.LogoutToken? && goal.owner.Some? ==>
      SerialPc(m, RevokeRows(OfSession(goal.owner.value.sessionId), Requested, {}), guarded)
    ensures goal.SweepToken? ==> SerialPc(m, SweepNext(goal.sweep), guarded)
  {
  }

  lemma UpdateFindSerial(s: State, rid: Rid, token: Token, goal: Goal, guarded: bool)
    requires Ready(s, rid, UpdateFind(token, goal), guarded)
    ensures SerialInv(DoUpdateFind(Numbered(s), rid, token, goal), guarded)
  {
    Open(s, rid, s.requests[rid], guarded);
    NumberedPc(s, s.requests[rid], guarded);
    hide Inv, SerialInv, StoreInv, IndexInv, MarksInv, PcInv;
    match Lookup(s.tokens, s.now, token)
    case None =>
      if token in s.order {
        MissingSpent(s, token);
      }
      MissingSerial(s, rid, s.requests[rid], token, goal, guarded);
    case Some(record) =>
      SerialMove(s, rid, UpdateTtl(token, record.(status := Target(goal)), goal), guarded);
  }

  /** A held token that has not expired is ACTIVE still, so its session is. */
  lemma HeldAlive(s: State, token: Token, record: Record)
    requires StillActive(s, token) && Copy(s, token, record) && s.now < record.expiresAt && LiveSessions(s)
    ensures AliveToken(s, token)
  {
    assert !Spent(s, token);
  }

  lemma UpdateTtlSerial(s: State, rid: Rid, token: Token, record: Record, goal: Goal, guarded: bool)
    requires Ready(s, rid, UpdateTtl(token, record, goal), guarded)
    ensures SerialInv(DoUpdateTtl(Numbered(s), rid, token, record, goal), guarded)
  {
    hide Covers, OthersSpent, ScopeSpent, MarkedEarlier, Goto, Finish;
    var pc := UpdateTtl(token, record, goal);
    Open(s, rid, pc, guarded);
    NumberedPc(s, pc, guarded);
    assert Copy(s, token, record);
    assert s.requests[rid] == pc;
    assert record.expiresAt <= s.now ==> Spent(s, token);
    hide SerialInv, StoreInv, IndexInv, MarksInv, PcInv, LiveSessions, Spent, Inv, MarkedOnce;
    if record.expiresAt - s.now <= 0 {
      MissingSerial(s, rid, s.requests[rid], token, goal, guarded);
    } else {
      if goal.MarkUsed? && guarded {
        HeldAlive(s, token, record);
      }
      SerialMove(s, rid, UpdateSet(token, record, record.expiresAt - s.now, s.now, goal), guarded);
    }
  }

  lemma MarkOnce(s: State, rid: Rid, token: Token, record: Record, ttl: int, ttlAt: int, goal: Goal, guarded: bool)
    requires Ready(s, rid, UpdateSet(token, record, ttl, ttlAt, goal), guarded) && goal.MarkUsed?
    ensures MarkedOnce(s.(marks := s.marks[rid := Mark(token, goal.readAt, s.steps + 1, ttlAt)]))
  {
    Open(s, rid, s.requests[rid], guarded);
    hide Inv, SerialInv, StoreInv, IndexInv, MarksInv, LiveSessions;
  }

  lemma WriteLive(s: State, m: State, token: Token, record: Record, ttl: int)
    requires LiveSessions(s) && record.status != Active
    requires m == Overwrite(Numbered(s), token, record, ttl).(marks := m.marks)
    ensures LiveSessions(m)
  {
    assert forall t :: Spent(s, t) ==> Spent(m, t);
  }

  lemma MarkSerial(s: State, rid: Rid, token: Token, record: Record, ttl: int, ttlAt: int, goal: Goal, guarded: bool)
    requires Ready(s, rid, UpdateSet(token, record, ttl, ttlAt, goal), guarded) && goal.MarkUsed?
    ensures SerialInv(DoUpdateSet(Numbered(s), rid, token, record, ttl, ttlAt, goal), guarded)
  {
    hide Covers, OthersSpent, ScopeSpent, Goto;
    Open(s, rid, s.requests[rid], guarded);
    var w := Overwrite(Numbered(s), token, record, ttl);
    var m := w.(marks := s.marks[rid := Mark(token, goal.readAt, s.steps + 1, ttlAt)]);
    var pc := Mint(goal.read.userId, goal.read.sessionId, FromRefresh);
    MarkOnce(s, rid, token, record, ttl, ttlAt, goal, guarded);
    assert s.requests[rid] == UpdateSet(token, record, ttl, ttlAt, goal);
    assert Copy(s, token, goal.read) && record.status != Active;
    hide Ready, Inv, RequestsInv, SerialInv, StoreInv, IndexInv, MarksInv, LiveSessions, PcInv;
    assert SerialPc(m, pc, guarded);
    hide SerialPc, MarkedOnce, Goto;
    if guarded {
      WriteLive(s, m, token, record, ttl);
    }
    SameMarks(s.(marks := m.marks), m);
    SerialGoto(s, m, rid, pc, guarded);
  }

  lemma UpdateSetSerial(
      s: State, rid: Rid, token: Token, record: Record, ttl: int, ttlAt: int, goal: Goal, guarded: bool)
    requires Ready(s, rid, UpdateSet(token, record, ttl, ttlAt, goal), guarded)
    ensures SerialInv(DoUpdateSet(Numbered(s), rid, token, record, ttl, ttlAt, goal), guarded)
  {
    Open(s, rid, s.requests[rid], guarded);
    if goal.MarkUsed? {
      MarkSerial(s, rid, token, record, ttl, ttlAt, goal, guarded);
    } else {
      var w := Overwrite(Numbered(s), token, record, ttl);
      assert Copy(s, token, record) && record.status != Active;
      hide Ready, SerialInv, StoreInv, IndexInv, MarksInv, LiveSessions, PcInv, SerialGoal;
      if guarded {
        WriteLive(s, w, token, record, ttl);
      }
      RevokeSerial(s, w, rid, token, goal, guarded);
    }
  }

  lemma RevokeSerial(s: State, w: State, rid: Rid, token: Token, goal: Goal, guarded: bool)
    requires StoreInv(s) && SerialGoal(s, token, goal, guarded) && !goal.MarkUsed?
    requires Alone(s, rid) && w.requests == s.requests && MarkedOnce(w) && (guarded ==> LiveSessions(w))
    requires w.order == s.order && w.births == s.births && (token in w.order ==> Spent(w, token))
    requires forall t :: Spent(s, t) ==> Spent(w, t)
    ensures SerialInv(UpdateDone(w, rid, token, 0, goal), guarded)
  {
    AfterSerial(w, s, token, goal, guarded);
    hide StoreInv, SerialGoal, SerialPc, LiveSessions, MarkedOnce;
    match goal
    case LogoutToken(owner) =>
      if owner.Some? {
        SerialGoto(s, w, rid, RevokeRows(OfSession(owner.value.sessionId), Requested, {}), guarded);
      } else {
        SerialFinish(s, w, rid, Done, guarded);
      }
    case SweepToken(sweep) =>
      SerialGoto(s, w, rid, SweepNext(sweep), guarded);
  }

  // ---- sweeps, logout, and the dispatch ----

  lemma SweepMembersSerial(s: State, rid: Rid, scope: Scope, reason: Reason, guarded: bool)
    requires Ready(s, rid, SweepMembers(scope, reason), guarded)
    ensures SerialInv(DoSweepMembers(Numbered(s), rid, scope, reason), guarded)
  {
    var snapshot := ScopeMembers(s, scope);
    hide StoreInv, MarksInv, RequestsInv, LiveSessions, MarkedOnce;
    assert Covers(Numbered(s), scope, snapshot);
    hide IndexInv;
    SerialMove(s, rid, SweepNext(Sweep(scope, reason, snapshot, snapshot)), guarded);
  }

  /** A sweep that is through its complete snapshot has spent the whole scope. */
  lemma ThroughSpent(s: State, sweep: Sweep)
    requires Covers(s, sweep.scope, sweep.snapshot) && SweepInv(s, sweep, {}) && sweep.left == {}
    ensures ScopeSpent(Numbered(s), sweep.scope)
  {
    assert forall t :: Spent(Numbered(s), t) == Spent(s, t);
  }

  lemma SweepNextSerial(s: State, rid: Rid, sweep: Sweep, pick: Token, guarded: bool)
    requires Ready(s, rid, SweepNext(sweep), guarded) && (sweep.left == {} || pick in sweep.left)
    ensures SerialInv(DoSweepNext(Numbered(s), rid, sweep, pick), guarded)
  {
    hide OthersSpent, MarkedEarlier, StillActive, Goto, Covers, ScopeSpent, SweepInv;
    Open(s, rid, SweepNext(sweep), guarded);
    NumberedPc(s, SweepNext(sweep), guarded);
    hide Ready, Inv, RequestsInv, SerialInv, StoreInv, IndexInv, MarksInv, LiveSessions, MarkedOnce;
    if sweep.left == {} {
      ThroughSpent(s, sweep);
      SerialMove(s, rid, RevokeRows(sweep.scope, sweep.reason, sweep.snapshot), guarded);
    } else {
      SerialMove(s, rid, SweepFind(pick, sweep.(left := sweep.left - {pick})), guarded);
    }
  }

  lemma SweepFindSerial(s: State, rid: Rid, token: Token, sweep: Sweep, guarded: bool)
    requires Ready(s, rid, SweepFind(token, sweep), guarded)
    ensures SerialInv(DoSweepFind(Numbered(s), rid, token, sweep), guarded)
  {
    hide Covers, Goto, Spent, Lookup, OthersSpent, StillActive, MarkedEarlier;
    Open(s, rid, SweepFind(token, sweep), guarded);
    NumberedPc(s, SweepFind(token, sweep), guarded);
    hide Ready, Inv, RequestsInv, SerialInv, StoreInv, IndexInv;
    hide MarksInv, LiveSessions, MarkedOnce, PcInv, Covers, Goto;
    match Lookup(s.tokens, s.now, token)
    case None => SerialMove(s, rid, SweepNext(sweep), guarded);
    case Some(record) =>
      if record.status == Active || record.status == Used {
        SerialMove(s, rid, UpdateFind(token, SweepToken(sweep)), guarded);
      } else {
        SerialMove(s, rid, SweepNext(sweep), guarded);
      }
  }

  /** The other tokens of an ACTIVE token's session are not ACTIVE. */
  lemma OnlyTheActiveOne(s: State, token: Token)
    requires StoreInv(s) && AtMostOne(s) && ActiveIn(s, token)
    ensures OthersSpent(s, token, s.tokens[token].record.sessionId)
  {
    var i := s.tokens[token].record.sessionId;
    assert Copy(s, token, s.tokens[token].record);
    assert Occupies(s, TokenSlot(token), i);
    forall u | u in s.order && u in s.births && s.births[u].sessionId == i && u != token ensures Spent(s, u) {
      assert !Occupies(s, TokenSlot(u), i);
    }
  }

  lemma LogoutFindSerial(s: State, rid: Rid, token: Token, guarded: bool)
    requires Ready(s, rid, LogoutFind(token), guarded) && AtMostOne(s)
    ensures SerialInv(DoLogoutFind(Numbered(s), rid, token), guarded)
  {
    Open(s, rid, LogoutFind(token), guarded);
    var goal := LogoutToken(Lookup(s.tokens, s.now, token));
    hide Inv, RequestsInv, SerialInv, IndexInv, MarksInv, LiveSessions, MarkedOnce, PcInv, Occupies;
    if guarded && goal.owner.Some? && ActiveIn(s, token) {
      OnlyTheActiveOne(s, token);
    }
    hide StoreInv, AtMostOne;
    NumberedPc(s, UpdateFind(token, goal), guarded);
    SerialMove(s, rid, UpdateFind(token, goal), guarded);
  }

  lemma OwnerCheckSerial(s: State, rid: Rid, userId: Id, sessionId: Id, guarded: bool)
    requires Ready(s, rid, OwnerCheck(userId, sessionId), guarded)
    ensures SerialInv(DoOwnerCheck(Numbered(s), rid, userId, sessionId), guarded)
  {
    hide Inv, LiveSessions, MarkedOnce;
    if sessionId !in s.sessions {
      SerialEnd(s, rid, Failed, guarded);
    } else if s.sessions[sessionId].userId != userId {
      SerialEnd(s, rid, Rejected, guarded);
    } else {
      SerialMove(s, rid, SweepMembers(OfSession(sessionId), Requested), guarded);
    }
  }

  lemma CreateTtlSerial(s: State, rid: Rid, token: Token, record: Record, origin: Origin, guarded: bool)
    requires Ready(s, rid, CreateTtl(token, record, origin), guarded)
    ensures SerialInv(DoCreateTtl(Numbered(s), rid, token, record, origin), guarded)
  {
    hide Goto, Finish, Covers, OthersSpent, ScopeSpent, MarkedEarlier, StillActive, Single;
    Open(s, rid, CreateTtl(token, record, origin), guarded);
    NumberedPc(s, CreateTtl(token, record, origin), guarded);
    hide Ready, Inv, SerialInv, StoreInv, IndexInv, MarksInv, LiveSessions, MarkedOnce, PcInv;
    if record.expiresAt - s.now <= 0 {
      SerialEnd(s, rid, Failed, guarded);
    } else {
      SerialMove(s, rid, CreateExec(token, record, record.expiresAt - s.now, origin), guarded);
    }
  }

  lemma TouchStampSerial(s: State, rid: Rid, sessionId: Id, renewed: Token, guarded: bool)
    requires Ready(s, rid, TouchStamp(sessionId, renewed), guarded)
    ensures SerialInv(Goto(Numbered(s), rid, Touch(sessionId, s.now, renewed)), guarded)
  {
    Open(s, rid, TouchStamp(sessionId, renewed), guarded);
    NumberedPc(s, TouchStamp(sessionId, renewed), guarded);
    hide Ready, Inv, SerialInv, StoreInv, IndexInv, MarksInv, LiveSessions, MarkedOnce, PcInv, Goto, Finish;
    SerialMove(s, rid, Touch(sessionId, s.now, renewed), guarded);
  }

  lemma CreateStepSerial(s: State, rid: Rid, pc: Pc, pick: string, guarded: bool)
    requires Ready(s, rid, pc, guarded)
    requires pc.LoginInsert? || pc.Mint? || pc.CreateTtl? || pc.CreateExec? || pc.TouchStamp? || pc.Touch?
    ensures SerialInv(DoStep(Numbered(s), rid, pc, pick), guarded)
  {
    hide DoRefreshFind, DoRefreshCheck, DoRefreshUser, DoUpdateFind, DoUpdateTtl, DoUpdateSet;
    hide DoSweepMembers, DoSweepNext, DoSweepFind, DoRevokeRows, DoLogoutFind, DoOwnerCheck;
    Open(s, rid, pc, guarded);
    hide Ready, Inv, SerialInv, StoreInv, IndexInv, MarksInv, LiveSessions, MarkedOnce, PcInv, SerialPc;
    SerialIdle(s, guarded);
    match pc
    case LoginInsert(row) =>
      if pick !in s.sessions { LoginInsertSerial(s, rid, row, pick, guarded); }
    case Mint(userId, sessionId, origin) =>
      if pick !in s.births { MintSerial(s, rid, userId, sessionId, origin, pick, guarded); }
    case CreateTtl(token, record, origin) => CreateTtlSerial(s, rid, token, record, origin, guarded);
    case CreateExec(token, record, ttl, origin) => CreateExecSerial(s, rid, token, record, ttl, origin, guarded);
    case TouchStamp(sessionId, renewed) => TouchStampSerial(s, rid, sessionId, renewed, guarded);
    case Touch(sessionId, at, renewed) => TouchSerial(s, rid, sessionId, at, renewed, guarded);
  }

  lemma RefreshStepSerial(s: State, rid: Rid, pc: Pc, pick: string, guarded: bool)
    requires Ready(s, rid, pc, guarded)
    requires pc.RefreshFind? || pc.RefreshCheck? || pc.RefreshUser? || pc.UpdateFind? || pc.UpdateTtl? || pc.UpdateSet?
    ensures SerialInv(DoStep(Numbered(s), rid, pc, pick), guarded)
  {
    hide Ready, SerialInv;
    match pc
    case RefreshFind(token) => RefreshFindSerial(s, rid, token, guarded);
    case RefreshCheck(token, record, readAt) => RefreshCheckSerial(s, rid, token, record, readAt, guarded);
    case RefreshUser(token, record, readAt) => RefreshUserSerial(s, rid, token, record, readAt, pick, guarded);
    case UpdateFind(token, goal) => UpdateFindSerial(s, rid, token, goal, guarded);
    case UpdateTtl(token, record, goal) => UpdateTtlSerial(s, rid, token, record, goal, guarded);
    case UpdateSet(token, record, ttl, ttlAt, goal) =>
      UpdateSetSerial(s, rid, token, record, ttl, ttlAt, goal, guarded);
  }

  lemma RevokeStepSerial(s: State, rid: Rid, pc: Pc, pick: string, guarded: bool)
    requires Ready(s, rid, pc, guarded) && AtMostOne(s)
    requires pc.SweepMembers? || pc.SweepNext? || pc.SweepFind? || pc.RevokeRows? || pc.LogoutFind? || pc.OwnerCheck?
    ensures SerialInv(DoStep(Numbered(s), rid, pc, pick), guarded)
  {
    Open(s, rid, pc, guarded);
    hide Ready, SerialInv, Inv, StoreInv, IndexInv, MarksInv, LiveSessions, MarkedOnce, PcInv, AtMostOne;
    SerialIdle(s, guarded);
    match pc
    case SweepMembers(scope, reason) => SweepMembersSerial(s, rid, scope, reason, guarded);
    case SweepNext(sweep) =>
      if sweep.left == {} || pick in sweep.left { SweepNextSerial(s, rid, sweep, pick, guarded); }
    case SweepFind(token, sweep) => SweepFindSerial(s, rid, token, sweep, guarded);
    case RevokeRows(scope, reason, snapshot) => RevokeRowsSerial(s, rid, scope, reason, snapshot, guarded);
    case LogoutFind(token) => LogoutFindSerial(s, rid, token, guarded);
    case OwnerCheck(userId, sessionId) => OwnerCheckSerial(s, rid, userId, sessionId, guarded);
  }

  lemma DoSerial(s: State, rid: Rid, pick: string, guarded: bool)
    requires Inv(s) && AtMostOne(s) && SerialInv(s, guarded) && rid in s.requests
    ensures SerialInv(Apply(s, Do(rid, pick)), guarded)
  {
    var pc := s.requests[rid];
    assert Ready(s, rid, pc, guarded);
    hide Ready, SerialInv, Inv, AtMostOne, DoStep;
    if pc.LoginInsert? || pc.Mint? || pc.CreateTtl? || pc.CreateExec? || pc.TouchStamp? || pc.Touch? {
      CreateStepSerial(s, rid, pc, pick, guarded);
    } else if
      || pc.RefreshFind? || pc.RefreshCheck? || pc.RefreshUser?
      || pc.UpdateFind? || pc.UpdateTtl? || pc.UpdateSet?
    {
      RefreshStepSerial(s, rid, pc, pick, guarded);
    } else {
      RevokeStepSerial(s, rid, pc, pick, guarded);
    }
  }

  // ---- events and runs ----

  /** The clock moves, or dead keys are dropped: tokens only get spent. */
  ghost predicate Ages(s: State, s': State) {
    && s' == s.(now := s'.now, steps := s'.steps, tokens := s'.tokens) && s.now <= s'.now && s.steps <= s'.steps
    && (forall t :: t in s'.tokens ==> t in s.tokens && s'.tokens[t] == s.tokens[t])
    && (forall t :: Spent(s, t) ==> Spent(s', t))
    && (forall t :: ActiveIn(s, t) ==> StillActive(s', t))
  }

  lemma EnvironmentAges(s: State, e: Event)
    requires StoreInv(s) && (e.Tick? || e.Expire?)
    ensures Ages(s, Apply(s, e))
  {
    hide Apply;
    AtClock(s, e);
    forall t | ActiveIn(s, t) ensures StillActive(Apply(s, e), t) {
      assert Copy(s, t, s.tokens[t].record);
    }
  }

  lemma EnvironmentLive(s: State, s': State)
    requires Ages(s, s') && LiveSessions(s)
    ensures LiveSessions(s')
  {
  }

  lemma EnvironmentSerial(s: State, e: Event, guarded: bool)
    requires Inv(s) && SerialInv(s, guarded) && (e.Tick? || e.Expire?)
    ensures SerialInv(Apply(s, e), guarded)
  {
    var s' := Apply(s, e);
    hide StoreInv, IndexInv, MarksInv, RequestsInv, SerialPc, LiveSessions;
    EnvironmentAges(s, e);
    if guarded {
      EnvironmentLive(s, s');
    }
    forall r | r in s'.requests ensures SerialPc(s', s'.requests[r], guarded) {
      EnvironmentPc(s, s', s.requests[r], guarded);
    }
  }

  lemma EnvironmentPc(s: State, s': State, pc: Pc, guarded: bool)
    requires SerialPc(s, pc, guarded) && Ages(s, s')
    ensures SerialPc(s', pc, guarded)
  {
  }

  lemma StillSpent(s: State, scope: Scope)
    requires AllSpent(s, scope)
    ensures ScopeSpent(Numbered(s), scope)
  {
    assert forall t :: Spent(Numbered(s), t) == Spent(s, t);
  }

  lemma UnusableSpent(s: State, scope: Scope)
    requires Inv(s) && NoneUsable(s, scope)
    ensures ScopeSpent(Numbered(s), scope)
  {
    hide Inv, NoneUsable, AllSpent, ScopeSpent;
    SpentUnusable(s, scope);
    StillSpent(s, scope);
  }

  lemma LogoutPcSerial(s: State, token: Token)
    requires
      var found := Lookup(s.tokens, s.now, token);
      found.Some? ==> found.value.status == Active || ScopeSpent(Numbered(s), OfSession(found.value.sessionId))
    ensures SerialPc(Numbered(s), LogoutFind(token), true)
  {
    hide ScopeSpent;
  }

  lemma PresentedSerial(s: State, call: Call)
    requires Inv(s) && Presentable(s, call)
    ensures SerialPc(Numbered(s), Entry0(call, s.now), true)
  {
    hide Inv, NoneUsable, ScopeSpent, Lookup;
    if call.Logout? {
      var found := Lookup(s.tokens, s.now, call.token);
      if found.Some? && NoneUsable(s, OfSession(found.value.sessionId)) {
        UnusableSpent(s, OfSession(found.value.sessionId));
      }
      LogoutPcSerial(s, call.token);
      hide SerialPc;
    }
  }

  lemma StartSerial(s: State, rid: Rid, call: Call, guarded: bool)
    requires Inv(s) && SerialInv(s, guarded) && s.requests == map[] && (guarded ==> Presentable(s, call))
    ensures SerialInv(Goto(Numbered(s), rid, Entry0(call, s.now)), guarded)
  {
    hide Inv;
    if guarded {
      PresentedSerial(s, call);
    }
    assert SerialPc(Numbered(s), Entry0(call, s.now), guarded);
    hide LiveSessions, MarkedOnce, Presentable;
    SerialMove(s, rid, Entry0(call, s.now), guarded);
  }

  lemma SerialExclusive(s: State)
    requires Single(s)
    ensures Exclusive(s)
  {
  }

  ghost predicate FullInv(s: State, guarded: bool) {
    Inv(s) && AtMostOne(s) && OnlyNewestActive(s) && SerialInv(s, guarded)
  }

  lemma ApplySerial(s: State, e: Event, guarded: bool)
    requires FullInv(s, guarded) && Serial(s, e) && (guarded && e.Start? ==> Presentable(s, e.call))
    ensures FullInv(Apply(s, e), guarded)
  {
    hide StoreInv, IndexInv, MarksInv, RequestsInv, AtMostOne, OnlyNewestActive, SerialPc, MarkedOnce, LiveSessions;
    ApplyKeeps(s, e);
    SerialExclusive(s);
    ApplyKeepsOne(s, e);
    hide Exclusive, DoStep, Progress;
    SerialIdle(s, guarded);
    match e
    case Tick(_) => EnvironmentSerial(s, e, guarded);
    case Expire(_) => EnvironmentSerial(s, e, guarded);
    case Start(rid, call) =>
      if rid !in s.results {
        StartSerial(s, rid, call, guarded);
      }
    case Do(rid, pick) =>
      if rid in s.requests {
        DoSerial(s, rid, pick, guarded);
      }
    case Stop(rid) =>
      if rid in s.requests {
        SerialEnd(s, rid, Failed, guarded);
      }
  }

  ghost predicate CarefulRun(s: State, events: seq<Event>, guarded: bool) {
    if guarded then GuardedRun(s, events) else SerialRun(s, events)
  }

  lemma InitFull(now: int, lifetime: int, guarded: bool)
    ensures FullInv(Init(now, lifetime), guarded)
  {
  }

  lemma {:induction false} RunSerial(s: State, events: seq<Event>, guarded: bool)
    requires FullInv(s, guarded) && CarefulRun(s, events, guarded)
    ensures FullInv(Exec(s, events), guarded)
  {
    hide FullInv, Apply, Serial, Presentable;
    if events != [] {
      var before := events[..|events| - 1];
      RunSerial(s, before, guarded);
      ApplySerial(Exec(s, before), events[|events| - 1], guarded);
    }
  }
}
