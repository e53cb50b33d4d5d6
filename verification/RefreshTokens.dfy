/** RedisRefreshTokenRepository over the shared store. */
module RefreshTokens {
  import opened Options
  import opened Records
  import opened Protocol
  import opened ProtocolSteps
  import opened ProtocolTheorems
  import opened SerialRuns
  import opened Stores
  import opened Sweeps

  /** What a GET may answer when it does not fail. */
  predicate Agrees(reply: Reply<Record>, found: Option<Record>) {
    match reply
    case Answer(record) => found == Some(record)
    case NotFound => found == None
    case Fault => true
  }

  /** SET of one key, which lives at least until `until`. */
  predicate Wrote(before: map<Token, Entry>, after: map<Token, Entry>, token: Token, record: Record, until: int) {
    token in after && after == before[token := Entry(record, after[token].deadline)] && until <= after[token].deadline
  }

  /** Where UpdateStatus leaves its request. */
  predicate Updated(s: State, rid: Rid, goal: Goal, found: bool) {
    match goal
    case MarkUsed(read, _) =>
      if found then Busy(s, rid, Mint(read.userId, read.sessionId, FromRefresh)) else Ended(s, rid, Rejected)
    case LogoutToken(None) => Ended(s, rid, Done)
    case LogoutToken(Some(owner)) => Busy(s, rid, RevokeRows(OfSession(owner.sessionId), Requested, {}))
    case SweepToken(sweep) => Busy(s, rid, SweepNext(sweep))
  }

  lemma MissingUpdated(s: State, rid: Rid, goal: Goal)
    requires Alone(s, rid)
    ensures var s' := UpdateMissing(s, rid, goal); Updated(s', rid, goal, false) && Alone(s', rid) && SameData(s, s')
  {
    hide Goto, Finish, SameData;
    match goal
    case MarkUsed(_, _) => FinishEnds(s, rid, Rejected);
    case LogoutToken(None) => FinishEnds(s, rid, Done);
    case LogoutToken(Some(owner)) => GotoBusy(s, rid, RevokeRows(OfSession(owner.sessionId), Requested, {}));
    case SweepToken(sweep) => GotoBusy(s, rid, SweepNext(sweep));
  }

  lemma DoneUpdated(s: State, rid: Rid, token: Token, ttlAt: int, goal: Goal)
    requires Alone(s, rid)
    ensures
      var s' := UpdateDone(s, rid, token, ttlAt, goal);
      Updated(s', rid, goal, true) && Alone(s', rid) && SameData(s, s')
  {
    hide Goto, Finish;
    match goal
    case MarkUsed(read, readAt) =>
      GotoBusy(s.(marks := s.marks[rid := Mark(token, readAt, s.steps, ttlAt)]), rid,
               Mint(read.userId, read.sessionId, FromRefresh));
    case LogoutToken(None) => FinishEnds(s, rid, Done);
    case LogoutToken(Some(owner)) => GotoBusy(s, rid, RevokeRows(OfSession(owner.sessionId), Requested, {}));
    case SweepToken(sweep) => GotoBusy(s, rid, SweepNext(sweep));
  }

  lemma SweepFindMoves(s: State, rid: Rid, token: Token, sweep: Sweep)
    requires Busy(s, rid, SweepFind(token, sweep))
    ensures
      var found := Lookup(s.tokens, s.now, token);
      Moved(s, Apply(s, Do(rid, "")), rid,
        if found.Some? && found.value.status != Revoked then UpdateFind(token, SweepToken(sweep)) else SweepNext(sweep))
  {
    hide Apply, Goto, Lookup, SameData;
    AtSweepFind(s, rid, token, sweep, "");
    GotoMoves(s, rid, SweepNext(sweep));
    GotoMoves(s, rid, UpdateFind(token, SweepToken(sweep)));
  }

  lemma SweepMembersMoves(s: State, rid: Rid, scope: Scope, reason: Reason)
    requires Busy(s, rid, SweepMembers(scope, reason))
    ensures
      var members := ScopeMembers(s, scope);
      Moved(s, Apply(s, Do(rid, "")), rid, SweepNext(Sweep(scope, reason, members, members)))
  {
    hide Apply, Goto, SameData;
    AtSweepMembers(s, rid, scope, reason, "");
    var members := ScopeMembers(s, scope);
    GotoMoves(s, rid, SweepNext(Sweep(scope, reason, members, members)));
  }

  lemma SweepNextMoves(s: State, rid: Rid, sweep: Sweep, token: Token)
    requires Busy(s, rid, SweepNext(sweep)) && (sweep.left == {} || token in sweep.left)
    ensures Moved(s, Apply(s, Do(rid, token)), rid,
      if sweep.left == {} then RevokeRows(sweep.scope, sweep.reason, sweep.snapshot)
      else SweepFind(token, sweep.(left := sweep.left - {token})))
  {
    hide Apply, Goto, SameData;
    AtSweepNext(s, rid, sweep, token);
    GotoMoves(s, rid, RevokeRows(sweep.scope, sweep.reason, sweep.snapshot));
    GotoMoves(s, rid, SweepFind(token, sweep.(left := sweep.left - {token})));
  }

  lemma UpdateTtlMoves(s: State, rid: Rid, token: Token, record: Record, goal: Goal)
    requires Busy(s, rid, UpdateTtl(token, record, goal))
    ensures
      var s' := Apply(s, Do(rid, ""));
      var ttl := record.expiresAt - s.now;
      if ttl > 0 then Moved(s, s', rid, UpdateSet(token, record, ttl, s.now, goal))
      else SameData(s, s') && Alone(s', rid) && Updated(s', rid, goal, false)
  {
    hide Apply, Goto, UpdateMissing, Updated;
    AtUpdateTtl(s, rid, token, record, goal, "");
    GotoMoves(s, rid, UpdateSet(token, record, record.expiresAt - s.now, s.now, goal));
    MissingUpdated(Numbered(s), rid, goal);
  }

  lemma CreateTtlMoves(s: State, rid: Rid, token: Token, record: Record, origin: Origin)
    requires Busy(s, rid, CreateTtl(token, record, origin))
    ensures
      var s' := Apply(s, Do(rid, ""));
      var ttl := record.expiresAt - s.now;
      if ttl > 0 then Moved(s, s', rid, CreateExec(token, record, ttl, origin))
      else SameData(s, s') && Alone(s', rid) && Ended(s', rid, Failed)
  {
    hide Apply, Goto, Finish;
    AtCreateTtl(s, rid, token, record, origin, "");
    GotoMoves(s, rid, CreateExec(token, record, record.expiresAt - s.now, origin));
    FinishEnds(Numbered(s), rid, Failed);
  }

  /** A new token in the store: its key lives until `until` at least, and both indexes name it. */
  predicate Created(s: State, s': State, token: Token, record: Record, until: int) {
    && token in s'.tokens && s'.tokens == s.tokens[token := Entry(record, s'.tokens[token].deadline)]
    && until <= s'.tokens[token].deadline
    && s'.userIndex == AddMember(s.userIndex, record.userId, token)
    && s'.sessionIndex == AddMember(s.sessionIndex, record.sessionId, token)
    && s'.sessions == s.sessions && s'.births == s.births && s'.lifetime == s.lifetime && s.now <= s'.now
  }

  /** Where Create leaves its request. */
  predicate CreateDone(s: State, rid: Rid, token: Token, record: Record, origin: Origin) {
    if origin == FromLogin then Ended(s, rid, LoggedIn(token)) else Busy(s, rid, TouchStamp(record.sessionId, token))
  }

  lemma CreateExecStores(s: State, rid: Rid, token: Token, record: Record, ttl: int, origin: Origin)
    requires Busy(s, rid, CreateExec(token, record, ttl, origin))
    ensures
      var s' := Apply(s, Do(rid, ""));
      && Created(s, s', token, record, s.now + ttl) && s'.now == s.now && s'.tokens[token].deadline == s.now + ttl
      && Alone(s', rid) && CreateDone(s', rid, token, record, origin)
  {
    hide Apply, Goto, Finish, AddMember;
    AtCreateExec(s, rid, token, record, ttl, origin, "");
    var stored := StoreNew(Numbered(s), token, record, ttl);
    GotoBusy(stored, rid, TouchStamp(record.sessionId, token));
    FinishEnds(stored, rid, LoggedIn(token));
  }

  class RefreshTokenRepository {
    const store: Store

    constructor (store: Store)
      ensures this.store == store
    {
      this.store := store;
    }

    /** Create: the record and both index entries in one transaction, if the token has time left. */
    method Create(token: Token, record: Record, ghost rid: Rid, ghost origin: Origin) returns (reply: Reply<()>)
      requires store.Valid() && Busy(store.state, rid, CreateTtl(token, record, origin))
      modifies store
      ensures store.Valid() && store.Continues(rid) && Alone(store.state, rid) && old(store.now) <= store.now
      ensures reply.Answer? ==> CreateDone(store.state, rid, token, record, origin)
      ensures reply.NotFound? ==> record.expiresAt <= store.now
      ensures
        || Created(old(store.state), store.state, token, record, record.expiresAt)
        || (!reply.Answer? && OnlyTokens(old(store.state), store.state) && store.tokens == old(store.tokens))
      ensures store.env.sound ==> !reply.Fault?
    {
      hide Apply, AddMember, Run, SerialRun, GuardedRun, CreateDone;
      store.Pass(rid);
      var ttl := record.expiresAt - store.now;
      CreateTtlMoves(store.state, rid, token, record, origin);
      store.Record(Do(rid, ""));
      if ttl <= 0 {
        return NotFound;
      }
      reply := StoreToken(token, record, ttl, rid, origin);
    }

    /** MULTI; SET; SADD; SADD; EXEC */
    method StoreToken(token: Token, record: Record, ttl: int, ghost rid: Rid, ghost origin: Origin)
      returns (reply: Reply<()>)
      requires store.Valid() && Busy(store.state, rid, CreateExec(token, record, ttl, origin))
      modifies store
      ensures store.Valid() && store.Continues(rid) && Alone(store.state, rid) && !reply.NotFound?
      ensures reply.Answer? ==> CreateDone(store.state, rid, token, record, origin)
      ensures
        || Created(old(store.state), store.state, token, record, old(store.now) + ttl)
        || (!reply.Answer? && OnlyTokens(old(store.state), store.state) && store.tokens == old(store.tokens))
      ensures store.env.sound ==> !reply.Fault?
    {
      hide Apply, AddMember, Run, SerialRun, GuardedRun, CreateDone;
      store.Pass(rid);
      var lost := store.env.Fails();
      var unanswered := store.env.Fails();
      if lost {
        return Fault;
      }
      store.tokens := store.tokens[token := Entry(record, store.now + ttl)];
      store.userIndex := AddMember(store.userIndex, record.userId, token);
      store.sessionIndex := AddMember(store.sessionIndex, record.sessionId, token);
      CreateExecStores(store.state, rid, token, record, ttl, origin);
      store.Record(Do(rid, ""));
      return if unanswered then Fault else Answer(());
    }

    method FindByToken(token: Token, ghost rid: Rid) returns (reply: Reply<Record>)
      requires store.Valid()
      modifies store
      ensures store.Valid() && store.Continues(rid) && Aged(old(store.state), store.state)
      ensures Agrees(reply, Lookup(store.tokens, store.now, token))
      ensures reply.Answer? ==>
        && token in store.tokens && store.now < store.tokens[token].deadline
        && reply.value == store.tokens[token].record
      ensures reply.NotFound? ==> token !in store.tokens || store.tokens[token].deadline <= store.now
      ensures store.env.sound ==> !reply.Fault?
    {
      store.Pass(rid);
      var failed := store.env.Fails();
      if failed {
        return Fault;
      }
      if token in store.tokens && store.now < store.tokens[token].deadline {
        return Answer(store.tokens[token].record);
      }
      return NotFound;
    }

    /** The read of UpdateStatus. */
    method ReadForUpdate(token: Token, ghost rid: Rid, ghost goal: Goal) returns (reply: Reply<Record>)
      requires store.Valid() && Busy(store.state, rid, UpdateFind(token, goal))
      modifies store
      ensures store.Valid() && store.Continues(rid) && OnlyTokens(old(store.state), store.state)
      ensures store.tokens == old(store.tokens) && Alone(store.state, rid)
      ensures Agrees(reply, Lookup(store.tokens, store.now, token))
      ensures reply.Answer? ==>
        && Busy(store.state, rid, UpdateTtl(token, reply.value.(status := Target(goal)), goal))
        && token in store.tokens && store.now < store.tokens[token].deadline
      ensures reply.NotFound? ==> Updated(store.state, rid, goal, false)
      ensures store.env.sound ==> !reply.Fault?
    {
      hide Apply, Target, Updated, UpdateMissing;
      reply := FindByToken(token, rid);
      ghost var s := store.state;
      if reply.Fault? {
        return;
      }
      AtUpdateFind(s, rid, token, goal, "");
      store.Record(Do(rid, ""));
      if reply.NotFound? {
        MissingUpdated(Numbered(s), rid, goal);
      } else {
        GotoBusy(Numbered(s), rid, UpdateTtl(token, reply.value.(status := Target(goal)), goal));
      }
    }

    /** The clock read of UpdateStatus: the time left, if any is. */
    method TimeLeft(token: Token, record: Record, ghost rid: Rid, ghost goal: Goal) returns (ttl: int)
      requires store.Valid() && Busy(store.state, rid, UpdateTtl(token, record, goal))
      modifies store
      ensures store.Valid() && store.Continues(rid) && OnlyTokens(old(store.state), store.state)
      ensures Alone(store.state, rid)
      ensures store.tokens == old(store.tokens) && ttl == record.expiresAt - store.now
      ensures if ttl <= 0 then Updated(store.state, rid, goal, false)
              else Busy(store.state, rid, UpdateSet(token, record, ttl, store.now, goal))
    {
      hide Apply, Updated, Run, SerialRun, GuardedRun;
      store.Pass(rid);
      ttl := record.expiresAt - store.now;
      UpdateTtlMoves(store.state, rid, token, record, goal);
      store.Record(Do(rid, ""));
    }

    /** The write of UpdateStatus, with the time to live computed at `ttlAt`. */
    method WriteForUpdate(token: Token, record: Record, ttl: int, ghost ttlAt: int, ghost rid: Rid, ghost goal: Goal)
      returns (reply: Reply<()>)
      requires store.Valid() && Busy(store.state, rid, UpdateSet(token, record, ttl, ttlAt, goal))
      modifies store
      ensures store.Valid() && store.Continues(rid) && OnlyTokens(old(store.state), store.state)
      ensures Alone(store.state, rid)
      ensures !reply.NotFound?
      ensures reply.Answer? ==> Updated(store.state, rid, goal, true) && token in store.tokens
      ensures
        || Wrote(old(store.tokens), store.tokens, token, record, old(store.now) + ttl)
        || (reply.Fault? && store.tokens == old(store.tokens))
      ensures store.env.sound ==> !reply.Fault?
    {
      hide Apply, Updated, UpdateDone, Run, SerialRun, GuardedRun;
      store.Pass(rid);
      ghost var s := store.state;
      var lost := store.env.Fails();
      var unanswered := store.env.Fails();
      if lost {
        return Fault;
      }
      store.tokens := store.tokens[token := Entry(record, store.now + ttl)];
      AtUpdateSet(s, rid, token, record, ttl, ttlAt, goal, "");
      store.Record(Do(rid, ""));
      DoneUpdated(Overwrite(Numbered(s), token, record, ttl), rid, token, ttlAt, goal);
      return if unanswered then Fault else Answer(());
    }

    /**
     UpdateStatus: a read, then a write of the whole record under its new status. It answers only
     if the token was not yet expired; "not found" changes nothing, and a key that is gone by then
     is not found; a failed call may have written.
     */
    method UpdateStatus(token: Token, status: TokenStatus, ghost rid: Rid, ghost goal: Goal) returns (reply: Reply<()>)
      requires store.Valid() && Busy(store.state, rid, UpdateFind(token, goal)) && status == Target(goal)
      modifies store
      ensures store.Valid() && store.Continues(rid) && OnlyTokens(old(store.state), store.state)
      ensures Alone(store.state, rid)
      ensures !reply.Fault? ==> Updated(store.state, rid, goal, reply.Answer?)
      ensures reply.Answer? ==>
        && Rewritten(old(store.tokens), store.tokens, token, status)
        && old(store.now) < old(store.tokens)[token].record.expiresAt
      ensures reply.NotFound? ==>
        && store.tokens == old(store.tokens)
        && (Lookup(store.tokens, store.now, token).None? || store.tokens[token].record.expiresAt <= store.now)
      ensures reply.Fault? ==>
        store.tokens == old(store.tokens) || Rewritten(old(store.tokens), store.tokens, token, status)
      ensures KeyDead(old(store.tokens), old(store.now), token) ==>
        !reply.Answer? && store.tokens == old(store.tokens)
      ensures store.env.sound ==> !reply.Fault?
    {
      hide Updated, Busy, Alone, SerialRun, GuardedRun, Run;
      var found := ReadForUpdate(token, rid, goal);
      if found.NotFound? {
        return NotFound;
      }
      if found.Fault? {
        return Fault;
      }
      var record := found.value.(status := status);
      var ttl := TimeLeft(token, record, rid, goal);
      if ttl <= 0 {
        return NotFound;
      }
      reply := WriteForUpdate(token, record, ttl, store.now, rid, goal);
    }

    method RevokeByToken(token: Token, ghost rid: Rid, ghost owner: Option<Record>) returns (reply: Reply<()>)
      requires store.Valid() && Busy(store.state, rid, UpdateFind(token, LogoutToken(owner)))
      modifies store
      ensures store.Valid() && store.Continues(rid) && OnlyTokens(old(store.state), store.state)
      ensures Alone(store.state, rid)
      ensures !reply.Fault? ==> Updated(store.state, rid, LogoutToken(owner), reply.Answer?)
      ensures reply.Answer? ==> Rewritten(old(store.tokens), store.tokens, token, Revoked)
      ensures reply.NotFound? ==>
        && store.tokens == old(store.tokens)
        && (Lookup(store.tokens, store.now, token).None? || store.tokens[token].record.expiresAt <= store.now)
      ensures reply.Fault? ==>
        store.tokens == old(store.tokens) || Rewritten(old(store.tokens), store.tokens, token, Revoked)
      ensures KeyDead(old(store.tokens), old(store.now), token) ==>
        !reply.Answer? && store.tokens == old(store.tokens)
      ensures store.env.sound ==> !reply.Fault?
    {
      reply := UpdateStatus(token, Revoked, rid, LogoutToken(owner));
    }

    /** One turn of a sweep's loop. */
    method RevokeMember(token: Token, ghost rid: Rid, ghost sweep: Sweep) returns (ok: bool)
      requires store.Valid() && Lasting(store.tokens) && Busy(store.state, rid, SweepFind(token, sweep))
      modifies store
      ensures store.Valid() && store.Continues(rid) && OnlyTokens(old(store.state), store.state)
      ensures Alone(store.state, rid)
      ensures store.tokens == old(store.tokens) || Rewritten(old(store.tokens), store.tokens, token, Revoked)
      ensures ok ==> Busy(store.state, rid, SweepNext(sweep))
      ensures ok && token in store.tokens && store.now < store.tokens[token].record.expiresAt ==>
        store.tokens[token].record.status == Revoked
      ensures store.env.sound ==> ok
    {
      hide SerialRun, GuardedRun, Run, Alone, Busy, Rewritten;
      var found := LookAtMember(token, rid, sweep);
      if found.Fault? {
        return false;
      }
      if found.NotFound? || !(found.value.status == Active || found.value.status == Used) {
        return true;
      }
      ghost var before := store.tokens;
      var reply := UpdateStatus(token, Revoked, rid, SweepToken(sweep));
      if reply.Answer? {
        RewrittenStored(before, store.tokens, token, Revoked);
      }
      return !reply.Fault?;
    }

    /** The read of that turn, and the choice it makes. */
    method LookAtMember(token: Token, ghost rid: Rid, ghost sweep: Sweep) returns (reply: Reply<Record>)
      requires store.Valid() && Busy(store.state, rid, SweepFind(token, sweep))
      modifies store
      ensures store.Valid() && store.Continues(rid) && OnlyTokens(old(store.state), store.state)
      ensures Alone(store.state, rid)
      ensures store.tokens == old(store.tokens) && Agrees(reply, Lookup(store.tokens, store.now, token))
      ensures reply.NotFound? ==> Busy(store.state, rid, SweepNext(sweep))
      ensures reply.Answer? ==> Busy(store.state, rid,
        if reply.value.status == Revoked then SweepNext(sweep) else UpdateFind(token, SweepToken(sweep)))
      ensures store.env.sound ==> !reply.Fault?
    {
      hide Apply, Run, SerialRun, GuardedRun, Lookup;
      reply := FindByToken(token, rid);
      if !reply.Fault? {
        SweepFindMoves(store.state, rid, token, sweep);
        store.Record(Do(rid, ""));
      }
    }

    /** SMEMBERS of one index set. */
    method MembersOf(scope: Scope, ghost rid: Rid, ghost reason: Reason) returns (reply: Reply<set<Token>>)
      requires store.Valid() && Busy(store.state, rid, SweepMembers(scope, reason))
      modifies store
      ensures store.Valid() && store.Continues(rid) && OnlyTokens(old(store.state), store.state)
      ensures Alone(store.state, rid)
      ensures store.tokens == old(store.tokens) && !reply.NotFound?
      ensures reply.Answer? ==>
        && reply.value == ScopeMembers(old(store.state), scope)
        && Busy(store.state, rid, SweepNext(Sweep(scope, reason, reply.value, reply.value)))
      ensures store.env.sound ==> !reply.Fault?
    {
      hide Apply, Run, SerialRun, GuardedRun;
      store.Pass(rid);
      var failed := store.env.Fails();
      if failed {
        return Fault;
      }
      var members := match scope
        case OfUser(userId) => Members(store.userIndex, userId)
        case OfSession(sessionId) => Members(store.sessionIndex, sessionId);
      SweepMembersMoves(store.state, rid, scope, reason);
      store.Record(Do(rid, ""));
      return Answer(members);
    }

    /** The control step of the loop: to member `token`, or out of the loop. */
    ghost method TakeNext(rid: Rid, sweep: Sweep, token: Token)
      requires store.Valid() && Busy(store.state, rid, SweepNext(sweep)) && (sweep.left == {} || token in sweep.left)
      modifies store`trace, store`state
      ensures store.Valid() && store.Continues(rid) && OnlyTokens(old(store.state), store.state)
      ensures Busy(store.state, rid,
        if sweep.left == {} then RevokeRows(sweep.scope, sweep.reason, sweep.snapshot)
        else SweepFind(token, sweep.(left := sweep.left - {token})))
    {
      hide Apply, Run, SerialRun, GuardedRun;
      SweepNextMoves(store.state, rid, sweep, token);
      store.Record(Do(rid, token));
    }

    /**
     The loop of RevokeAllByUser and RevokeAllBySession, over the members in any order: a success
     is one scan that revokes every unexpired member, a failure an unfinished one.
     */
    method RevokeAll(scope: Scope, ghost rid: Rid, ghost reason: Reason) returns (ok: bool)
      requires store.Valid() && Busy(store.state, rid, SweepMembers(scope, reason))
      modifies store
      ensures store.Valid() && store.Continues(rid) && OnlyTokens(old(store.state), store.state)
      ensures Alone(store.state, rid)
      ensures PartlySwept(old(store.tokens), store.tokens, ScopeMembers(old(store.state), scope))
      ensures ok ==>
        && Swept(old(store.tokens), store.tokens, ScopeMembers(old(store.state), scope), store.now)
        && Busy(store.state, rid, RevokeRows(scope, reason, ScopeMembers(old(store.state), scope)))
      ensures store.env.sound ==> ok
    {
      hide Apply, SerialRun, GuardedRun, Run, Alone, Busy, Lookup, Rewritten, Swept, PartlySwept, ScopeMembers;
      ghost var before := store.tokens;
      AlwaysLasting(store);
      var reply := MembersOf(scope, rid, reason);
      PartlySweptSame(before, ScopeMembers(old(store.state), scope));
      if reply.Fault? {
        return false;
      }
      var members := reply.value;
      var left := members;
      SweptNone(before, store.now);
      assert members - left == {};
      while left != {}
        invariant left <= members
        invariant store.Valid() && store.Continues(rid) && OnlyTokens(old(store.state), store.state)
        invariant Lasting(store.tokens) && Swept(before, store.tokens, members - left, store.now)
        invariant Busy(store.state, rid, SweepNext(Sweep(scope, reason, members, left)))
      {
        var token :| token in left;
        ghost var mid, at := store.tokens, store.now;
        TakeNext(rid, Sweep(scope, reason, members, left), token);
        ok := RevokeMember(token, rid, Sweep(scope, reason, members, left - {token}));
        if !ok {
          SweptPartly(before, mid, members - left, at, members);
          PartlySweptOneMore(before, mid, store.tokens, members, token);
          return;
        }
        SweptOneMore(before, mid, store.tokens, members - left, token, at, store.now);
        RewrittenLasting(mid, store.tokens, token);
        assert members - left + {token} == members - (left - {token});
        left := left - {token};
      }
      assert members - left == members;
      TakeNext(rid, Sweep(scope, reason, members, left), "");
      SweptPartly(before, store.tokens, members, store.now, members);
      BusyAlone(store.state, rid, RevokeRows(scope, reason, members));
      ok := true;
    }

    method RevokeAllByUser(userId: Id, ghost rid: Rid, ghost reason: Reason) returns (ok: bool)
      requires store.Valid() && Busy(store.state, rid, SweepMembers(OfUser(userId), reason))
      modifies store
      ensures store.Valid() && store.Continues(rid) && OnlyTokens(old(store.state), store.state)
      ensures Alone(store.state, rid)
      ensures PartlySwept(old(store.tokens), store.tokens, Members(old(store.userIndex), userId))
      ensures ok ==>
        && Swept(old(store.tokens), store.tokens, Members(old(store.userIndex), userId), store.now)
        && Busy(store.state, rid, RevokeRows(OfUser(userId), reason, Members(old(store.userIndex), userId)))
      ensures store.env.sound ==> ok
    {
      hide Swept, PartlySwept, Busy, Alone;
      ok := RevokeAll(OfUser(userId), rid, reason);
    }

    method RevokeAllBySession(sessionId: Id, ghost rid: Rid) returns (ok: bool)
      requires store.Valid() && Busy(store.state, rid, SweepMembers(OfSession(sessionId), Requested))
      modifies store
      ensures store.Valid() && store.Continues(rid) && OnlyTokens(old(store.state), store.state)
      ensures Alone(store.state, rid)
      ensures PartlySwept(old(store.tokens), store.tokens, Members(old(store.sessionIndex), sessionId))
      ensures ok ==>
        && Swept(old(store.tokens), store.tokens, Members(old(store.sessionIndex), sessionId), store.now)
        && Busy(store.state, rid,
                RevokeRows(OfSession(sessionId), Requested, Members(old(store.sessionIndex), sessionId)))
      ensures store.env.sound ==> ok
    {
      hide Swept, PartlySwept, Busy, Alone;
      ok := RevokeAll(OfSession(sessionId), rid, Requested);
    }
  }
}
