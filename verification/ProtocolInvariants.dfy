/**
 What every interleaving keeps. The shared store satisfies `StoreInv`, `IndexInv` and
 `MarksInv`; the local variables of each request in flight satisfy `PcInv`. `Evolves` says
 how one request may change what the others see, and `OthersUndisturbed` that this is
 harmless: together they are a rely-guarantee proof for any number of requests.
 */
module ProtocolInvariants {
  import opened Options
  import opened Records
  import opened Protocol

  predicate ActiveIn(s: State, token: Token) {
    token in s.tokens && s.tokens[token].record.status == Active
  }

  /** A token a refresh could redeem now: visible in the store, ACTIVE and not yet expired. */
  predicate Usable(s: State, token: Token) {
    var found := Lookup(s.tokens, s.now, token);
    found.Some? && found.value.status == Active && s.now < found.value.expiresAt
  }

  predicate Matches(record: Record, birth: Birth) {
    && record.userId == birth.userId && record.sessionId == birth.sessionId
    && record.createdAt == birth.createdAt && record.expiresAt == birth.expiresAt
  }

  predicate Owned(s: State, sessionId: Id, userId: Id) {
    sessionId in s.sessions && s.sessions[sessionId].userId == userId
  }

  /** `token` has been stored, and `record` agrees with it up to the status. */
  predicate Copy(s: State, token: Token, record: Record) {
    token in s.order && token in s.births && Matches(record, s.births[token])
  }

  /** `token` has been stored and no refresh can redeem it any more. */
  predicate Spent(s: State, token: Token) {
    token in s.order && token in s.births && (!ActiveIn(s, token) || s.births[token].expiresAt <= s.now)
  }

  ghost predicate StoreInv(s: State) {
    && (forall t :: t in s.births ==> Owned(s, s.births[t].sessionId, s.births[t].userId))
    && (forall t :: t in s.tokens ==> Copy(s, t, s.tokens[t].record) && s.births[t].expiresAt <= s.tokens[t].deadline)
    && (forall t :: t in s.order ==>
          t in s.births && s.order[t] <= s.steps && (t in s.tokens || s.births[t].expiresAt <= s.now))
  }

  ghost predicate IndexInv(s: State) {
    && (forall u, t :: t in Members(s.userIndex, u) <==> t in s.order && t in s.births && s.births[t].userId == u)
    && (forall i, t :: t in Members(s.sessionIndex, i) <==> t in s.order && t in s.births && s.births[t].sessionId == i)
  }

  /** A marked token is spent for good; its redeemer wrote before the token expired. */
  predicate MarkInv(s: State, r: Rid)
    requires r in s.marks
  {
    var mark := s.marks[r];
    && (r in s.requests || r in s.results)
    && Spent(s, mark.token) && !ActiveIn(s, mark.token)
    && s.order[mark.token] < mark.markAt
    && mark.readAt < mark.markAt <= s.steps && mark.ttlAt < s.births[mark.token].expiresAt
  }

  /** Two refreshes that marked the same token had both read it before either of them wrote. */
  ghost predicate WindowsOverlap(s: State) {
    forall r, q :: r in s.marks && q in s.marks && r != q && s.marks[r].token == s.marks[q].token ==>
      s.marks[r].readAt < s.marks[q].markAt
  }

  ghost predicate MarksInv(s: State) {
    && (forall r :: r in s.marks ==> MarkInv(s, r))
    && WindowsOverlap(s)
    && (forall r :: r in s.results && s.results[r].Refreshed? ==> Rotated(s, r, s.results[r].token))
  }

  /** `next` was minted by refresh `rid` for the session and user of the token it marked, and stored after that. */
  predicate Rotated(s: State, rid: Rid, next: Token) {
    && next in s.order && next in s.births && s.births[next].minter == rid
    && Redeemed(s, rid, s.births[next].userId, s.births[next].sessionId)
    && s.marks[rid].markAt < s.order[next]
  }

  predicate Redeemed(s: State, rid: Rid, userId: Id, sessionId: Id) {
    && rid in s.marks && s.marks[rid].token in s.births
    && s.births[s.marks[rid].token].userId == userId && s.births[s.marks[rid].token].sessionId == sessionId
  }

  predicate OriginInv(s: State, rid: Rid, userId: Id, sessionId: Id, origin: Origin) {
    Owned(s, sessionId, userId) && (origin == FromRefresh ==> Redeemed(s, rid, userId, sessionId))
  }

  /** A refresh that read `record` ACTIVE at step `readAt` and has not marked it yet. */
  ghost predicate HoldInv(s: State, rid: Rid, token: Token, record: Record, readAt: nat) {
    && Copy(s, token, record) && rid !in s.marks && readAt <= s.steps
    && (record.status == Active ==>
          forall r :: r in s.marks && s.marks[r].token == token ==> readAt < s.marks[r].markAt)
  }

  predicate NewInv(s: State, rid: Rid, token: Token, record: Record, origin: Origin) {
    && token in s.births && token !in s.order && s.births[token].minter == rid
    && Matches(record, s.births[token]) && record.status == Active
    && OriginInv(s, rid, record.userId, record.sessionId, origin)
  }

  /** Every member the sweep has dealt with is spent; `current` is the one in its hands. */
  ghost predicate SweepInv(s: State, sweep: Sweep, current: set<Token>) {
    && sweep.left <= sweep.snapshot && current <= sweep.snapshot
    && (forall t :: t in sweep.snapshot ==> t in s.order)
    && (forall t :: t in sweep.snapshot && t !in sweep.left && t !in current ==> Spent(s, t))
  }

  ghost predicate GoalInv(s: State, rid: Rid, token: Token, goal: Goal) {
    match goal
    case MarkUsed(read, readAt) => read.status == Active && HoldInv(s, rid, token, read, readAt)
    case LogoutToken(owner) => owner.Some? ==> Copy(s, token, owner.value)
    case SweepToken(sweep) => SweepInv(s, sweep, {token})
  }

  ghost predicate PcInv(s: State, rid: Rid, pc: Pc) {
    match pc
    case LoginInsert(_) => true
    case Mint(userId, sessionId, origin) => OriginInv(s, rid, userId, sessionId, origin)
    case CreateTtl(token, record, origin) => NewInv(s, rid, token, record, origin)
    case CreateExec(token, record, ttl, origin) =>
      NewInv(s, rid, token, record, origin) && ttl > 0 && record.expiresAt <= s.now + ttl
    case TouchStamp(_, renewed) => Rotated(s, rid, renewed)
    case Touch(_, _, renewed) => Rotated(s, rid, renewed)
    case RefreshFind(_) => rid !in s.marks
    case RefreshCheck(token, record, readAt) => HoldInv(s, rid, token, record, readAt)
    case RefreshUser(token, record, readAt) =>
      record.status == Active && HoldInv(s, rid, token, record, readAt)
    case UpdateFind(token, goal) => GoalInv(s, rid, token, goal)
    case UpdateTtl(token, record, goal) =>
      Copy(s, token, record) && record.status == Target(goal) && GoalInv(s, rid, token, goal)
    case UpdateSet(token, record, ttl, ttlAt, goal) =>
      && Copy(s, token, record) && record.status == Target(goal) && GoalInv(s, rid, token, goal)
      && ttl > 0 && record.expiresAt <= s.now + ttl && ttlAt < record.expiresAt
    case SweepMembers(_, _) => true
    case SweepNext(sweep) => SweepInv(s, sweep, {})
    case SweepFind(token, sweep) => SweepInv(s, sweep, {token})
    case RevokeRows(_, _, snapshot) => forall t :: t in snapshot ==> Spent(s, t)
    case LogoutFind(_) => true
    case OwnerCheck(_, _) => true
  }

  ghost predicate RequestsInv(s: State) {
    && s.requests.Keys !! s.results.Keys
    && (forall r :: r in s.requests ==> PcInv(s, r, s.requests[r]))
  }

  ghost predicate Inv(s: State) {
    StoreInv(s) && IndexInv(s) && MarksInv(s) && RequestsInv(s)
  }

  // ---- how one event may change what others rely on ----

  ghost predicate Evolves(s: State, s': State, actor: Option<Rid>) {
    && s.now <= s'.now && s.steps < s'.steps
    && (forall t :: t in s.births ==> t in s'.births && s'.births[t] == s.births[t])
    && (forall t :: t in s.order ==> t in s'.order && s'.order[t] == s.order[t])
    && (forall t :: t in s'.order && t !in s.order ==>
          t in s.births && Some(s.births[t].minter) == actor && s'.order[t] == s'.steps)
    && (forall t :: t in s.order && !ActiveIn(s, t) ==> !ActiveIn(s', t))
    && (forall i :: i in s.sessions ==>
          i in s'.sessions && s'.sessions[i].userId == s.sessions[i].userId
          && (s.sessions[i].status == SessionRevoked ==> s'.sessions[i].status == SessionRevoked))
    && (forall r :: r in s.marks ==> r in s'.marks && s'.marks[r] == s.marks[r])
    && (forall r :: r in s'.marks && r !in s.marks ==> Some(r) == actor && s'.marks[r].markAt == s'.steps)
  }

  lemma OthersUndisturbed(s: State, s': State, actor: Option<Rid>, rid: Rid, pc: Pc)
    requires Evolves(s, s', actor) && actor != Some(rid) && PcInv(s, rid, pc)
    ensures PcInv(s', rid, pc)
  {
  }

  // ---- the shared store, effect by effect ----

  lemma IndexFrame(s: State, s': State)
    requires StoreInv(s) && IndexInv(s) && s'.userIndex == s.userIndex && s'.sessionIndex == s.sessionIndex
    requires s'.order == s.order && forall t :: t in s.births ==> t in s'.births && s'.births[t] == s.births[t]
    ensures IndexInv(s')
  {
  }

  lemma MarksFrame(s: State, s': State, actor: Option<Rid>)
    requires MarksInv(s) && Evolves(s, s', actor)
    requires s'.marks == s.marks && s'.results == s.results && s'.requests == s.requests
    ensures MarksInv(s')
  {
  }

  lemma TickStore(s: State, duration: nat)
    requires StoreInv(s)
    ensures StoreInv(Numbered(s).(now := s.now + duration))
  {
  }

  lemma TickEvolves(s: State, duration: nat, actor: Option<Rid>)
    ensures Evolves(s, Numbered(s).(now := s.now + duration), actor)
  {
  }

  lemma ExpireStore(s: State, token: Token)
    requires StoreInv(s) && token in s.tokens && s.tokens[token].deadline <= s.now
    ensures StoreInv(Numbered(s).(tokens := s.tokens - {token}))
  {
  }

  lemma ExpireEvolves(s: State, token: Token)
    ensures Evolves(s, Numbered(s).(tokens := s.tokens - {token}), None)
  {
  }

  /** Rows may be added or revoked; their owners never change. */
  ghost predicate RowsGrow(rows: map<Id, Session>, rows': map<Id, Session>) {
    forall i :: i in rows ==>
      i in rows' && rows'[i].userId == rows[i].userId
      && (rows[i].status == SessionRevoked ==> rows'[i].status == SessionRevoked)
  }

  lemma RowsStore(s: State, rows: map<Id, Session>)
    requires StoreInv(s) && RowsGrow(s.sessions, rows)
    ensures StoreInv(Numbered(s).(sessions := rows))
  {
  }

  lemma RowsEvolves(s: State, rows: map<Id, Session>, actor: Option<Rid>)
    requires RowsGrow(s.sessions, rows)
    ensures Evolves(s, Numbered(s).(sessions := rows), actor)
  {
  }

  lemma BirthStore(s: State, token: Token, birth: Birth)
    requires StoreInv(s) && token !in s.births && Owned(s, birth.sessionId, birth.userId)
    ensures token !in s.order && StoreInv(Numbered(s).(births := s.births[token := birth]))
  {
  }

  lemma BirthEvolves(s: State, token: Token, birth: Birth, actor: Option<Rid>)
    requires token !in s.births
    ensures Evolves(s, Numbered(s).(births := s.births[token := birth]), actor)
  {
  }

  lemma StoreNewStore(s: State, token: Token, record: Record, ttl: int)
    requires StoreInv(s) && token in s.births && Matches(record, s.births[token])
    requires record.expiresAt <= s.now + ttl
    ensures StoreInv(StoreNew(Numbered(s), token, record, ttl))
  {
  }

  lemma StoreNewEvolves(s: State, rid: Rid, token: Token, record: Record, ttl: int)
    requires token in s.births && token !in s.order && s.births[token].minter == rid
    ensures Evolves(s, StoreNew(Numbered(s), token, record, ttl), Some(rid))
  {
  }

  lemma StoreNewIndex(s: State, token: Token, record: Record, ttl: int)
    requires IndexInv(s) && token in s.births && Matches(record, s.births[token])
    ensures IndexInv(StoreNew(Numbered(s), token, record, ttl))
  {
  }

  lemma OverwriteStore(s: State, token: Token, record: Record, ttl: int)
    requires StoreInv(s) && Copy(s, token, record) && record.expiresAt <= s.now + ttl
    ensures StoreInv(Overwrite(Numbered(s), token, record, ttl))
  {
  }

  lemma OverwriteEvolves(s: State, token: Token, record: Record, ttl: int, actor: Option<Rid>)
    requires record.status != Active
    ensures Evolves(s, Overwrite(Numbered(s), token, record, ttl), actor)
  {
  }

  // ---- one step of one request ----

  lemma ThenGoto(s: State, m: State, rid: Rid, pc: Pc)
    requires Inv(s) && rid in s.requests && m.requests == s.requests && m.results == s.results
    requires StoreInv(m) && IndexInv(m) && MarksInv(m) && Evolves(s, m, Some(rid)) && PcInv(m, rid, pc)
    ensures Inv(Goto(m, rid, pc)) && Evolves(s, Goto(m, rid, pc), Some(rid))
  {
    var s' := Goto(m, rid, pc);
    hide StoreInv, IndexInv, PcInv, Evolves, MarksInv;
    SameStore(m, s');
    SameEvolves(s, m, s', Some(rid));
    GotoMarks(m, rid, pc);
    forall r | r in s'.requests ensures r !in s'.results && PcInv(s', r, s'.requests[r]) {
      if r == rid {
        SamePc(m, s', r, pc);
      } else {
        OthersUndisturbed(s, m, Some(rid), r, s.requests[r]);
        SamePc(m, s', r, s.requests[r]);
      }
    }
  }

  lemma ThenFinish(s: State, m: State, rid: Rid, outcome: Outcome)
    requires Inv(s) && rid in s.requests && m.requests == s.requests && m.results == s.results
    requires StoreInv(m) && IndexInv(m) && MarksInv(m) && Evolves(s, m, Some(rid))
    requires outcome.Refreshed? ==> Rotated(m, rid, outcome.token)
    ensures Inv(Finish(m, rid, outcome)) && Evolves(s, Finish(m, rid, outcome), Some(rid))
  {
    var s' := Finish(m, rid, outcome);
    hide StoreInv, IndexInv, PcInv, Evolves, MarksInv;
    SameStore(m, s');
    SameEvolves(s, m, s', Some(rid));
    FinishMarks(m, rid, outcome);
    forall r | r in s'.requests ensures r !in s'.results && PcInv(s', r, s'.requests[r]) {
      OthersUndisturbed(s, m, Some(rid), r, s.requests[r]);
      SamePc(m, s', r, s.requests[r]);
    }
  }

  lemma SamePc(m: State, s': State, rid: Rid, pc: Pc)
    requires PcInv(m, rid, pc) && s' == m.(requests := s'.requests, results := s'.results)
    ensures PcInv(s', rid, pc)
  {
  }

  lemma SameStore(m: State, s': State)
    requires StoreInv(m) && IndexInv(m) && s' == m.(requests := s'.requests, results := s'.results)
    ensures StoreInv(s') && IndexInv(s')
  {
  }

  lemma SameEvolves(s: State, m: State, s': State, actor: Option<Rid>)
    requires Evolves(s, m, actor) && s' == m.(requests := s'.requests, results := s'.results)
    ensures Evolves(s, s', actor)
  {
  }

  lemma GotoMarks(m: State, rid: Rid, pc: Pc)
    requires MarksInv(m)
    ensures MarksInv(Goto(m, rid, pc))
  {
  }

  lemma FinishMarks(m: State, rid: Rid, outcome: Outcome)
    requires MarksInv(m) && (outcome.Refreshed? ==> Rotated(m, rid, outcome.token))
    ensures MarksInv(Finish(m, rid, outcome))
  {
  }

  lemma NumberedSound(s: State, actor: Option<Rid>)
    requires Inv(s)
    ensures var m := Numbered(s); StoreInv(m) && IndexInv(m) && MarksInv(m) && Evolves(s, m, actor)
  {
    hide StoreInv, IndexInv, MarksInv, PcInv, Evolves;
    TickStore(s, 0);
    TickEvolves(s, 0, actor);
    IndexFrame(s, Numbered(s));
    MarksFrame(s, Numbered(s), actor);
  }

  lemma MoveOn(s: State, rid: Rid, pc: Pc)
    requires Inv(s) && rid in s.requests && PcInv(Numbered(s), rid, pc)
    ensures var s' := Goto(Numbered(s), rid, pc); Inv(s') && Evolves(s, s', Some(rid))
  {
    hide StoreInv, IndexInv, MarksInv, PcInv, Evolves;
    NumberedSound(s, Some(rid));
    ThenGoto(s, Numbered(s), rid, pc);
  }

  lemma End(s: State, rid: Rid, outcome: Outcome)
    requires Inv(s) && rid in s.requests && !outcome.Refreshed?
    ensures var s' := Finish(Numbered(s), rid, outcome); Inv(s') && Evolves(s, s', Some(rid))
  {
    hide StoreInv, IndexInv, MarksInv, PcInv, Evolves;
    NumberedSound(s, Some(rid));
    ThenFinish(s, Numbered(s), rid, outcome);
  }

  lemma LoginInsertKeeps(s: State, rid: Rid, row: Session, pick: Id)
    requires Inv(s) && rid in s.requests && pick !in s.sessions
    ensures var s' := DoLoginInsert(Numbered(s), rid, row, pick); Inv(s') && Evolves(s, s', Some(rid))
  {
    hide StoreInv, IndexInv, MarksInv, Evolves;
    var m := Numbered(s).(sessions := s.sessions[pick := row]);
    RowsStore(s, m.sessions);
    RowsEvolves(s, m.sessions, Some(rid));
    IndexFrame(s, m);
    MarksFrame(s, m, Some(rid));
    ThenGoto(s, m, rid, Mint(row.userId, pick, FromLogin));
  }

  lemma MintKeeps(s: State, rid: Rid, userId: Id, sessionId: Id, origin: Origin, pick: Token)
    requires Inv(s) && rid in s.requests && pick !in s.births
    requires PcInv(s, rid, Mint(userId, sessionId, origin))
    ensures var s' := DoMint(Numbered(s), rid, userId, sessionId, origin, pick); Inv(s') && Evolves(s, s', Some(rid))
  {
    var birth := Birth(userId, sessionId, s.now, s.now + s.lifetime, rid);
    var m := Numbered(s).(births := s.births[pick := birth]);
    var record := Record(userId, sessionId, Active, s.now, s.now + s.lifetime);
    hide StoreInv, IndexInv, MarksInv, Evolves;
    BirthStore(s, pick, birth);
    BirthEvolves(s, pick, birth, Some(rid));
    IndexFrame(s, m);
    MarksFrame(s, m, Some(rid));
    ThenGoto(s, m, rid, CreateTtl(pick, record, origin));
  }

  lemma CreateExecKeeps(s: State, rid: Rid, token: Token, record: Record, ttl: int, origin: Origin)
    requires Inv(s) && rid in s.requests && PcInv(s, rid, CreateExec(token, record, ttl, origin))
    ensures var s' := DoCreateExec(Numbered(s), rid, token, record, ttl, origin); Inv(s') && Evolves(s, s', Some(rid))
  {
    hide StoreInv, IndexInv, MarksInv, Evolves;
    var m := StoreNew(Numbered(s), token, record, ttl);
    StoreNewStore(s, token, record, ttl);
    StoreNewEvolves(s, rid, token, record, ttl);
    StoreNewIndex(s, token, record, ttl);
    MarksFrame(s, m, Some(rid));
    match origin
    case FromLogin => ThenFinish(s, m, rid, LoggedIn(token));
    case FromRefresh =>
      MarkedBefore(s, rid);
      ThenGoto(s, m, rid, TouchStamp(record.sessionId, token));
  }

  lemma MarkedBefore(s: State, rid: Rid)
    requires MarksInv(s) && rid in s.marks
    ensures s.marks[rid].markAt <= s.steps
  {
    assert MarkInv(s, rid);
  }

  lemma RowsKeep(s: State, rid: Rid, rows: map<Id, Session>, outcome: Outcome)
    requires Inv(s) && rid in s.requests && RowsGrow(s.sessions, rows)
    requires outcome.Refreshed? ==> Rotated(s, rid, outcome.token)
    ensures var s' := Finish(Numbered(s).(sessions := rows), rid, outcome); Inv(s') && Evolves(s, s', Some(rid))
  {
    hide StoreInv, IndexInv, MarksInv, PcInv, Evolves;
    var m := Numbered(s).(sessions := rows);
    RowsStore(s, rows);
    RowsEvolves(s, rows, Some(rid));
    IndexFrame(s, m);
    MarksFrame(s, m, Some(rid));
    ThenFinish(s, m, rid, outcome);
  }

  // ---- UpdateStatus ----

  /** Where UpdateStatus leaves its caller once the token is known to be spent. */
  lemma UpdateMissingKeeps(s: State, rid: Rid, token: Token, goal: Goal)
    requires Inv(s) && rid in s.requests && GoalInv(s, rid, token, goal)
    requires goal.SweepToken? ==> Spent(s, token)
    ensures var s' := UpdateMissing(Numbered(s), rid, goal); Inv(s') && Evolves(s, s', Some(rid))
  {
    hide StoreInv, IndexInv, MarksInv, Evolves, RequestsInv;
    match goal
    case MarkUsed(_, _) => End(s, rid, Rejected);
    case LogoutToken(owner) =>
      if owner.Some? {
        MoveOn(s, rid, RevokeRows(OfSession(owner.value.sessionId), Requested, {}));
      } else {
        End(s, rid, Done);
      }
    case SweepToken(sweep) =>
      MoveOn(s, rid, SweepNext(sweep));
  }

  ghost predicate NewMark(s: State, m: State, rid: Rid) {
    && rid in m.marks && m.marks - {rid} == s.marks && rid !in s.marks
    && m.marks[rid].readAt <= s.steps && m.marks[rid].markAt == m.steps && s.steps < m.steps
    && forall r :: r in s.marks && s.marks[r].token == m.marks[rid].token ==> m.marks[rid].readAt < s.marks[r].markAt
  }

  lemma OldMarks(s: State, m: State, rid: Rid)
    requires NewMark(s, m, rid)
    ensures forall r :: r in m.marks && r != rid ==> r in s.marks && m.marks[r] == s.marks[r]
    ensures forall r :: r in s.marks ==> r in m.marks && m.marks[r] == s.marks[r]
  {
    forall r | r in m.marks && r != rid ensures r in s.marks && m.marks[r] == s.marks[r] {
      assert r in m.marks - {rid};
    }
    forall r | r in s.marks ensures r in m.marks && m.marks[r] == s.marks[r] {
      assert r in m.marks - {rid};
    }
  }

  lemma MarkOverlap(s: State, m: State, rid: Rid)
    requires MarksInv(s) && NewMark(s, m, rid)
    ensures WindowsOverlap(m)
  {
    OldMarks(s, m, rid);
    hide NewMark, Spent, ActiveIn, Rotated;
    forall r, q | r in m.marks && q in m.marks && r != q && m.marks[r].token == m.marks[q].token
      ensures m.marks[r].readAt < m.marks[q].markAt
    {
      if q == rid {
        assert MarkInv(s, r);
      }
    }
  }

  lemma MarkMarks(s: State, m: State, rid: Rid)
    requires MarksInv(s) && NewMark(s, m, rid) && Evolves(s, m, Some(rid)) && MarkInv(m, rid) && rid !in s.results
    requires m.results == s.results && m.requests == s.requests
    ensures MarksInv(m)
  {
    MarkOverlap(s, m, rid);
    OldMarks(s, m, rid);
    hide NewMark, WindowsOverlap;
    forall r | r in m.marks ensures MarkInv(m, r) {
      if r != rid {
        assert MarkInv(s, r);
      }
    }
    forall r | r in m.results && m.results[r].Refreshed? ensures Rotated(m, r, m.results[r].token) {
      assert Rotated(s, r, s.results[r].token);
    }
  }

  lemma NotAnswered(s: State, rid: Rid)
    requires RequestsInv(s) && rid in s.requests
    ensures rid !in s.results
  {
    hide PcInv;
  }

  lemma MarkUsedKeeps(s: State, rid: Rid, token: Token, record: Record, ttl: int, ttlAt: int, goal: Goal)
    requires Inv(s) && rid in s.requests && goal.MarkUsed?
    requires PcInv(s, rid, UpdateSet(token, record, ttl, ttlAt, goal))
    ensures
      var s' := DoUpdateSet(Numbered(s), rid, token, record, ttl, ttlAt, goal);
      Inv(s') && Evolves(s, s', Some(rid))
  {
    hide StoreInv, IndexInv, MarksInv, RequestsInv;
    var w := Overwrite(Numbered(s), token, record, ttl);
    var m := w.(marks := s.marks[rid := Mark(token, goal.readAt, w.steps, ttlAt)]);
    OverwriteStore(s, token, record, ttl);
    OverwriteEvolves(s, token, record, ttl, Some(rid));
    MarkStore(w, m);
    assert m.marks - {rid} == s.marks;
    MarkEvolves(s, w, m, rid);
    hide Evolves;
    IndexFrame(s, m);
    NotAnswered(s, rid);
    MarkOwned(s, m, token, goal.read);
    MarkMarks(s, m, rid);
    ThenGoto(s, m, rid, Mint(goal.read.userId, goal.read.sessionId, FromRefresh));
  }

  lemma MarkStore(w: State, m: State)
    requires StoreInv(w) && m == w.(marks := m.marks)
    ensures StoreInv(m)
  {
  }

  lemma MarkEvolves(s: State, w: State, m: State, rid: Rid)
    requires Evolves(s, w, Some(rid)) && w.marks == s.marks && rid !in s.marks && m == w.(marks := m.marks)
    requires NewMark(s, m, rid)
    ensures Evolves(s, m, Some(rid))
  {
    OldMarks(s, m, rid);
  }

  /** A stored token was stored at an earlier step, and its session belongs to its user. */
  lemma MarkOwned(s: State, m: State, token: Token, read: Record)
    requires StoreInv(s) && Copy(s, token, read) && m.sessions == s.sessions
    ensures Owned(m, read.sessionId, read.userId) && s.order[token] <= s.steps
  {
  }

  lemma UpdateSetKeeps(s: State, rid: Rid, token: Token, record: Record, ttl: int, ttlAt: int, goal: Goal)
    requires Inv(s) && rid in s.requests && PcInv(s, rid, UpdateSet(token, record, ttl, ttlAt, goal))
    ensures
      var s' := DoUpdateSet(Numbered(s), rid, token, record, ttl, ttlAt, goal);
      Inv(s') && Evolves(s, s', Some(rid))
  {
    hide StoreInv, IndexInv, MarksInv, RequestsInv, Evolves;
    if goal.MarkUsed? {
      MarkUsedKeeps(s, rid, token, record, ttl, ttlAt, goal);
    } else {
      var m := Overwrite(Numbered(s), token, record, ttl);
      OverwriteStore(s, token, record, ttl);
      OverwriteEvolves(s, token, record, ttl, Some(rid));
      IndexFrame(s, m);
      MarksFrame(s, m, Some(rid));
      RevokedKeeps(s, m, rid, token, goal);
    }
  }

  lemma RevokedKeeps(s: State, m: State, rid: Rid, token: Token, goal: Goal)
    requires Inv(s) && rid in s.requests && m.requests == s.requests && m.results == s.results
    requires StoreInv(m) && IndexInv(m) && MarksInv(m) && Evolves(s, m, Some(rid))
    requires !goal.MarkUsed? && GoalInv(s, rid, token, goal) && token in m.order && token in m.births
    requires !ActiveIn(m, token)
    ensures var s' := UpdateDone(m, rid, token, 0, goal); Inv(s') && Evolves(s, s', Some(rid))
  {
    hide StoreInv, IndexInv, MarksInv, RequestsInv;
    match goal
    case LogoutToken(owner) =>
      if owner.Some? {
        ThenGoto(s, m, rid, RevokeRows(OfSession(owner.value.sessionId), Requested, {}));
      } else {
        ThenFinish(s, m, rid, Done);
      }
    case SweepToken(sweep) =>
      ThenGoto(s, m, rid, SweepNext(sweep));
  }

  // ---- every step, every event, every run ----

  lemma FoundCopy(s: State, token: Token)
    requires StoreInv(s) && Lookup(s.tokens, s.now, token).Some?
    ensures Copy(s, token, Lookup(s.tokens, s.now, token).value)
  {
  }

  /** A stored token that GET does not see has passed its expiry. */
  lemma MissingSpent(s: State, token: Token)
    requires StoreInv(s) && token in s.order && Lookup(s.tokens, s.now, token).None?
    ensures Spent(s, token)
  {
  }

  lemma NoMarkWhileActive(s: State, token: Token)
    requires MarksInv(s) && ActiveIn(s, token)
    ensures forall r :: r in s.marks ==> s.marks[r].token != token
  {
    forall r | r in s.marks ensures s.marks[r].token != token {
      assert MarkInv(s, r);
    }
  }

  lemma RefreshFindKeeps(s: State, rid: Rid, token: Token)
    requires Inv(s) && rid in s.requests && PcInv(s, rid, RefreshFind(token))
    ensures var s' := DoRefreshFind(Numbered(s), rid, token); Inv(s') && Evolves(s, s', Some(rid))
  {
    hide StoreInv, IndexInv, MarksInv, RequestsInv, Evolves;
    match Lookup(s.tokens, s.now, token)
    case None => End(s, rid, Rejected);
    case Some(record) =>
      FoundCopy(s, token);
      if record.status == Active {
        NoMarkWhileActive(s, token);
      }
      MoveOn(s, rid, RefreshCheck(token, record, s.steps + 1));
  }

  lemma RefreshCheckKeeps(s: State, rid: Rid, token: Token, record: Record, readAt: nat)
    requires Inv(s) && rid in s.requests && PcInv(s, rid, RefreshCheck(token, record, readAt))
    ensures var s' := DoRefreshCheck(Numbered(s), rid, token, record, readAt); Inv(s') && Evolves(s, s', Some(rid))
  {
    hide StoreInv, IndexInv, MarksInv, RequestsInv, Evolves;
    if record.status == Used {
      MoveOn(s, rid, SweepMembers(OfUser(record.userId), Reuse));
    } else if record.status != Active || s.now > record.expiresAt {
      End(s, rid, Rejected);
    } else {
      MoveOn(s, rid, RefreshUser(token, record, readAt));
    }
  }

  lemma UpdateFindKeeps(s: State, rid: Rid, token: Token, goal: Goal)
    requires Inv(s) && rid in s.requests && PcInv(s, rid, UpdateFind(token, goal))
    ensures var s' := DoUpdateFind(Numbered(s), rid, token, goal); Inv(s') && Evolves(s, s', Some(rid))
  {
    hide StoreInv, IndexInv, MarksInv, RequestsInv, Evolves;
    match Lookup(s.tokens, s.now, token)
    case None =>
      if goal.SweepToken? {
        assert token in s.order;
        MissingSpent(s, token);
      }
      UpdateMissingKeeps(s, rid, token, goal);
    case Some(record) =>
      FoundCopy(s, token);
      MoveOn(s, rid, UpdateTtl(token, record.(status := Target(goal)), goal));
  }

  lemma UpdateTtlKeeps(s: State, rid: Rid, token: Token, record: Record, goal: Goal)
    requires Inv(s) && rid in s.requests && PcInv(s, rid, UpdateTtl(token, record, goal))
    ensures var s' := DoUpdateTtl(Numbered(s), rid, token, record, goal); Inv(s') && Evolves(s, s', Some(rid))
  {
    hide StoreInv, IndexInv, MarksInv, RequestsInv, Evolves;
    if record.expiresAt - s.now <= 0 {
      UpdateMissingKeeps(s, rid, token, goal);
    } else {
      MoveOn(s, rid, UpdateSet(token, record, record.expiresAt - s.now, s.now, goal));
    }
  }

  lemma MembersStored(s: State, scope: Scope)
    requires IndexInv(s)
    ensures forall t :: t in ScopeMembers(s, scope) ==> t in s.order
  {
  }

  lemma SweepMembersKeeps(s: State, rid: Rid, scope: Scope, reason: Reason)
    requires Inv(s) && rid in s.requests
    ensures var s' := DoSweepMembers(Numbered(s), rid, scope, reason); Inv(s') && Evolves(s, s', Some(rid))
  {
    hide StoreInv, IndexInv, MarksInv, RequestsInv, Evolves;
    MembersStored(s, scope);
    var snapshot := ScopeMembers(s, scope);
    MoveOn(s, rid, SweepNext(Sweep(scope, reason, snapshot, snapshot)));
  }

  lemma SweepFindKeeps(s: State, rid: Rid, token: Token, sweep: Sweep)
    requires Inv(s) && rid in s.requests && PcInv(s, rid, SweepFind(token, sweep))
    ensures var s' := DoSweepFind(Numbered(s), rid, token, sweep); Inv(s') && Evolves(s, s', Some(rid))
  {
    hide StoreInv, IndexInv, MarksInv, RequestsInv, Evolves;
    match Lookup(s.tokens, s.now, token)
    case None =>
      assert token in sweep.snapshot;
      MissingSpent(s, token);
      MoveOn(s, rid, SweepNext(sweep));
    case Some(record) =>
      if record.status == Active || record.status == Used {
        MoveOn(s, rid, UpdateFind(token, SweepToken(sweep)));
      } else {
        FoundCopy(s, token);
        MoveOn(s, rid, SweepNext(sweep));
      }
  }

  lemma SweepNextKeeps(s: State, rid: Rid, sweep: Sweep, pick: Token)
    requires Inv(s) && rid in s.requests && PcInv(s, rid, SweepNext(sweep))
    requires sweep.left == {} || pick in sweep.left
    ensures var s' := DoSweepNext(Numbered(s), rid, sweep, pick); Inv(s') && Evolves(s, s', Some(rid))
  {
    hide StoreInv, IndexInv, MarksInv, RequestsInv, Evolves;
    if sweep.left == {} {
      MoveOn(s, rid, RevokeRows(sweep.scope, sweep.reason, sweep.snapshot));
    } else {
      MoveOn(s, rid, SweepFind(pick, sweep.(left := sweep.left - {pick})));
    }
  }

  lemma LogoutFindKeeps(s: State, rid: Rid, token: Token)
    requires Inv(s) && rid in s.requests
    ensures var s' := DoLogoutFind(Numbered(s), rid, token); Inv(s') && Evolves(s, s', Some(rid))
  {
    hide StoreInv, IndexInv, MarksInv, RequestsInv, Evolves;
    if Lookup(s.tokens, s.now, token).Some? {
      FoundCopy(s, token);
    }
    MoveOn(s, rid, UpdateFind(token, LogoutToken(Lookup(s.tokens, s.now, token))));
  }

  lemma OwnerCheckKeeps(s: State, rid: Rid, userId: Id, sessionId: Id)
    requires Inv(s) && rid in s.requests
    ensures var s' := DoOwnerCheck(Numbered(s), rid, userId, sessionId); Inv(s') && Evolves(s, s', Some(rid))
  {
    hide StoreInv, IndexInv, MarksInv, RequestsInv, Evolves;
    if sessionId !in s.sessions {
      End(s, rid, Failed);
    } else if s.sessions[sessionId].userId != userId {
      End(s, rid, Rejected);
    } else {
      MoveOn(s, rid, SweepMembers(OfSession(sessionId), Requested));
    }
  }

  lemma RevokingGrows(rows: map<Id, Session>, scope: Scope)
    ensures RowsGrow(rows, RowsAfter(rows, scope))
  {
  }

  lemma RevokeRowsKeeps(s: State, rid: Rid, scope: Scope, reason: Reason)
    requires Inv(s) && rid in s.requests
    ensures var s' := DoRevokeRows(Numbered(s), rid, scope, reason); Inv(s') && Evolves(s, s', Some(rid))
  {
    hide StoreInv, IndexInv, MarksInv, RequestsInv, Evolves, RowsGrow, RowsAfter;
    RevokingGrows(s.sessions, scope);
    RowsKeep(s, rid, RowsAfter(s.sessions, scope), if reason == Reuse then ReuseDetected else Done);
  }

  lemma CreateStepKeeps(s: State, rid: Rid, pc: Pc, pick: string)
    requires Inv(s) && rid in s.requests && PcInv(s, rid, pc)
    requires pc.LoginInsert? || pc.Mint? || pc.CreateTtl? || pc.CreateExec? || pc.TouchStamp? || pc.Touch?
    ensures var s' := DoStep(Numbered(s), rid, pc, pick); s' == Numbered(s) || (Inv(s') && Evolves(s, s', Some(rid)))
  {
    hide StoreInv, IndexInv, MarksInv, RequestsInv, Evolves;
    match pc
    case LoginInsert(row) =>
      if pick !in s.sessions { LoginInsertKeeps(s, rid, row, pick); }
    case Mint(userId, sessionId, origin) =>
      if pick !in s.births { MintKeeps(s, rid, userId, sessionId, origin, pick); }
    case CreateTtl(token, record, origin) =>
      if record.expiresAt - s.now <= 0 { End(s, rid, Failed); } else {
        MoveOn(s, rid, CreateExec(token, record, record.expiresAt - s.now, origin));
      }
    case CreateExec(token, record, ttl, origin) => CreateExecKeeps(s, rid, token, record, ttl, origin);
    case TouchStamp(sessionId, renewed) => MoveOn(s, rid, Touch(sessionId, s.now, renewed));
    case Touch(sessionId, at, renewed) => RowsKeep(s, rid, TouchRow(s.sessions, sessionId, at), Refreshed(renewed));
  }

  lemma RefreshStepKeeps(s: State, rid: Rid, pc: Pc, pick: string)
    requires Inv(s) && rid in s.requests && PcInv(s, rid, pc)
    requires pc.RefreshFind? || pc.RefreshCheck? || pc.RefreshUser? || pc.UpdateFind? || pc.UpdateTtl? || pc.UpdateSet?
    ensures var s' := DoStep(Numbered(s), rid, pc, pick); Inv(s') && Evolves(s, s', Some(rid))
  {
    hide StoreInv, IndexInv, MarksInv, RequestsInv, Evolves, GoalInv, HoldInv;
    match pc
    case RefreshFind(token) => RefreshFindKeeps(s, rid, token);
    case RefreshCheck(token, record, readAt) => RefreshCheckKeeps(s, rid, token, record, readAt);
    case RefreshUser(token, record, readAt) =>
      if pick != "" { End(s, rid, Rejected); } else { RefreshUserKeeps(s, rid, token, record, readAt); }
    case UpdateFind(token, goal) => UpdateFindKeeps(s, rid, token, goal);
    case UpdateTtl(token, record, goal) => UpdateTtlKeeps(s, rid, token, record, goal);
    case UpdateSet(token, record, ttl, ttlAt, goal) => UpdateSetKeeps(s, rid, token, record, ttl, ttlAt, goal);
  }

  lemma RevokeStepKeeps(s: State, rid: Rid, pc: Pc, pick: string)
    requires Inv(s) && rid in s.requests && PcInv(s, rid, pc)
    requires pc.SweepMembers? || pc.SweepNext? || pc.SweepFind? || pc.RevokeRows? || pc.LogoutFind? || pc.OwnerCheck?
    ensures var s' := DoStep(Numbered(s), rid, pc, pick); s' == Numbered(s) || (Inv(s') && Evolves(s, s', Some(rid)))
  {
    hide StoreInv, IndexInv, MarksInv, RequestsInv, Evolves, SweepInv;
    match pc
    case SweepMembers(scope, reason) => SweepMembersKeeps(s, rid, scope, reason);
    case SweepNext(sweep) =>
      if sweep.left == {} || pick in sweep.left { SweepNextKeeps(s, rid, sweep, pick); }
    case SweepFind(token, sweep) => SweepFindKeeps(s, rid, token, sweep);
    case RevokeRows(scope, reason, _) => RevokeRowsKeeps(s, rid, scope, reason);
    case LogoutFind(token) => LogoutFindKeeps(s, rid, token);
    case OwnerCheck(userId, sessionId) => OwnerCheckKeeps(s, rid, userId, sessionId);
  }

  lemma DoKeeps(s: State, rid: Rid, pick: string)
    requires Inv(s) && rid in s.requests
    ensures var s' := Apply(s, Do(rid, pick)); Inv(s') && Evolves(s, s', Some(rid))
  {
    var pc := s.requests[rid];
    assert PcInv(s, rid, pc);
    hide StoreInv, IndexInv, MarksInv, RequestsInv, Evolves, PcInv, DoStep;
    NumberedKeeps(s, rid);
    if pc.LoginInsert? || pc.Mint? || pc.CreateTtl? || pc.CreateExec? || pc.TouchStamp? || pc.Touch? {
      CreateStepKeeps(s, rid, pc, pick);
    } else if
      || pc.RefreshFind? || pc.RefreshCheck? || pc.RefreshUser?
      || pc.UpdateFind? || pc.UpdateTtl? || pc.UpdateSet?
    {
      RefreshStepKeeps(s, rid, pc, pick);
    } else {
      RevokeStepKeeps(s, rid, pc, pick);
    }
  }

  lemma RefreshUserKeeps(s: State, rid: Rid, token: Token, record: Record, readAt: nat)
    requires Inv(s) && rid in s.requests && PcInv(s, rid, RefreshUser(token, record, readAt))
    ensures var s' := DoRefreshUser(Numbered(s), rid, token, record, readAt, ""); Inv(s') && Evolves(s, s', Some(rid))
  {
    hide StoreInv, IndexInv, MarksInv, RequestsInv, Evolves;
    MoveOn(s, rid, UpdateFind(token, MarkUsed(record, readAt)));
  }

  /** The choice offered is not available: nothing happens. */
  lemma NumberedKeeps(s: State, rid: Rid)
    requires Inv(s) && rid in s.requests
    ensures Inv(Numbered(s)) && Evolves(s, Numbered(s), Some(rid))
  {
    hide StoreInv, IndexInv, MarksInv, PcInv, Evolves;
    NumberedSound(s, Some(rid));
    NumberedSound(s, None);
    EnvironmentKeeps(s, Numbered(s));
  }

  lemma EnvironmentKeeps(s: State, s': State)
    requires Inv(s) && s'.requests == s.requests && s'.results == s.results
    requires StoreInv(s') && IndexInv(s') && MarksInv(s') && Evolves(s, s', None)
    ensures Inv(s')
  {
    hide StoreInv, IndexInv, MarksInv, PcInv, Evolves;
    forall r | r in s'.requests ensures PcInv(s', r, s'.requests[r]) {
      OthersUndisturbed(s, s', None, r, s.requests[r]);
    }
  }

  lemma StartKeeps(s: State, rid: Rid, call: Call)
    requires Inv(s) && rid !in s.requests && rid !in s.results
    ensures Inv(Goto(Numbered(s), rid, Entry0(call, s.now)))
    ensures Evolves(s, Goto(Numbered(s), rid, Entry0(call, s.now)), None)
  {
    var m := Numbered(s);
    var s' := Goto(m, rid, Entry0(call, s.now));
    NumberedSound(s, None);
    UnknownUnmarked(s, rid);
    assert PcInv(s', rid, Entry0(call, s.now)) by { hide StoreInv, IndexInv, MarksInv, RequestsInv, Evolves; }
    hide StoreInv, IndexInv, MarksInv, PcInv, Evolves;
    SameStore(m, s');
    SameEvolves(s, m, s', None);
    GotoMarks(m, rid, Entry0(call, s.now));
    forall r | r in s'.requests ensures r !in s'.results && PcInv(s', r, s'.requests[r]) {
      if r != rid {
        OthersUndisturbed(s, m, None, r, s.requests[r]);
        SamePc(m, s', r, s.requests[r]);
      }
    }
  }

  lemma UnknownUnmarked(s: State, rid: Rid)
    requires MarksInv(s) && rid !in s.requests && rid !in s.results
    ensures rid !in s.marks
  {
    assert forall r :: r in s.marks ==> MarkInv(s, r);
  }

  ghost predicate Progress(s: State, s': State) {
    Inv(s') && exists actor :: Evolves(s, s', actor)
  }

  lemma ApplyKeeps(s: State, e: Event)
    requires Inv(s)
    ensures Progress(s, Apply(s, e))
  {
    hide StoreInv, IndexInv, MarksInv, RequestsInv, PcInv, Evolves, DoStep;
    NumberedSound(s, None);
    EnvironmentKeeps(s, Numbered(s));
    match e
    case Tick(duration) =>
      var s' := Numbered(s).(now := s.now + duration);
      TickStore(s, duration);
      TickEvolves(s, duration, None);
      IndexFrame(s, s');
      MarksFrame(s, s', None);
      EnvironmentKeeps(s, s');
    case Expire(token) =>
      if token in s.tokens && s.tokens[token].deadline <= s.now {
        var s' := Numbered(s).(tokens := s.tokens - {token});
        ExpireStore(s, token);
        ExpireEvolves(s, token);
        IndexFrame(s, s');
        MarksFrame(s, s', None);
        EnvironmentKeeps(s, s');
      }
    case Start(rid, call) =>
      if rid !in s.requests && rid !in s.results {
        StartKeeps(s, rid, call);
      }
    case Do(rid, pick) =>
      if rid in s.requests {
        DoKeeps(s, rid, pick);
      }
    case Stop(rid) =>
      if rid in s.requests {
        End(s, rid, Failed);
      }
  }

  lemma InitInv(now: int, lifetime: int)
    ensures Inv(Init(now, lifetime))
  {
  }

  /** Every run, whatever requests it interleaves and wherever they stop, keeps the invariant. */
  lemma {:induction false} RunKeeps(s: State, events: seq<Event>)
    requires Inv(s)
    ensures Inv(Exec(s, events))
  {
    hide StoreInv, IndexInv, MarksInv, RequestsInv, Apply;
    if events != [] {
      var before := events[..|events| - 1];
      RunKeeps(s, before);
      ApplyKeeps(Exec(s, before), events[|events| - 1]);
    }
  }
}
