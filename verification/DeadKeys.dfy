/**
 What a token whose key is gone can still do. A key that has reached its deadline comes back only
 if a request that had read it earlier is about to write it, for UpdateStatus does not look again
 before its SET. If none is, a refresh or a logout with the token never does anything; if one is,
 a refresh that came after the deadline may still report a reuse, and a logout still revoke the
 session. Both directions are proved over every interleaving.
 */
module DeadKeys {
  import opened Options
  import opened Records
  import opened Protocol
  import opened ProtocolSteps
  import opened Bystanders
  import opened ProtocolInvariants
  import opened ProtocolTheorems

  /** About to write the key: any UpdateStatus, or only one that marks the token USED. */
  predicate Writes(pc: Pc, token: Token, anyStatus: bool) {
    pc.UpdateSet? && pc.token == token && (anyStatus || pc.goal.MarkUsed?)
  }

  predicate WritePending(s: State, token: Token, anyStatus: bool) {
    exists r :: r in s.requests && Writes(s.requests[r], token, anyStatus)
  }

  /** Expired for good; and its key is gone, or at least REVOKED if only a mark matters. */
  predicate Gone(s: State, token: Token, anyStatus: bool) {
    && token in s.order && token in s.births && s.births[token].expiresAt <= s.now
    && !WritePending(s, token, anyStatus)
    && (KeyDead(s.tokens, s.now, token) || (!anyStatus && s.tokens[token].record.status == Revoked))
  }

  // ---- what one event does to a key ----

  predicate SameKeys(s: State, m: State) {
    m.tokens == s.tokens && m.requests == s.requests && m.now == s.now
  }

  /** Request `rid` has moved, not to a write, and the keys are as they were. */
  predicate Plain(s: State, s': State, rid: Rid) {
    && s'.tokens == s.tokens && s'.now == s.now
    && forall r :: r in s'.requests ==>
         r in s.requests && (s'.requests[r] == s.requests[r] || (r == rid && !s'.requests[r].UpdateSet?))
  }

  lemma PlainMoves(s: State, rid: Rid)
    requires rid in s.requests
    ensures forall m, pc: Pc :: SameKeys(s, m) && !pc.UpdateSet? ==> Plain(s, Goto(m, rid, pc), rid)
    ensures forall m, outcome :: SameKeys(s, m) ==> Plain(s, Finish(m, rid, outcome), rid)
  {
  }

  lemma PlainCreate(s: State, rid: Rid, pc: Pc, pick: string)
    requires At(s, rid, pc)
    requires pc.LoginInsert? || pc.Mint? || pc.CreateTtl? || pc.TouchStamp? || pc.Touch?
    ensures Plain(s, Apply(s, Do(rid, pick)), rid)
  {
    hide Apply, TouchRow, Goto, Finish, Plain;
    PlainMoves(s, rid);
    PlainSame(s, rid);
    match pc
    case LoginInsert(row) => AtLoginInsert(s, rid, row, pick);
    case Mint(userId, sessionId, origin) => AtMint(s, rid, userId, sessionId, origin, pick);
    case CreateTtl(token, record, origin) => AtCreateTtl(s, rid, token, record, origin, pick);
    case TouchStamp(sessionId, renewed) => AtTouchStamp(s, rid, sessionId, renewed, pick);
    case Touch(sessionId, at, renewed) => AtTouch(s, rid, sessionId, at, renewed, pick);
  }

  lemma PlainSame(s: State, rid: Rid)
    ensures Plain(s, Numbered(s), rid)
  {
  }

  lemma PlainRead(s: State, rid: Rid, pc: Pc, pick: string)
    requires At(s, rid, pc) && (pc.RefreshFind? || pc.RefreshCheck? || pc.RefreshUser? || pc.UpdateFind?)
    ensures Plain(s, Apply(s, Do(rid, pick)), rid)
  {
    hide Apply, Lookup, Target, Goto, Finish, Plain;
    PlainMoves(s, rid);
    match pc
    case RefreshFind(token) => AtRefreshFind(s, rid, token, pick);
    case RefreshCheck(token, record, readAt) => AtRefreshCheck(s, rid, token, record, readAt, pick);
    case RefreshUser(token, record, readAt) => AtRefreshUser(s, rid, token, record, readAt, pick);
    case UpdateFind(token, goal) => AtUpdateFind(s, rid, token, goal, pick);
  }

  lemma PlainRevoke(s: State, rid: Rid, pc: Pc, pick: string)
    requires At(s, rid, pc)
    requires pc.SweepMembers? || pc.SweepNext? || pc.SweepFind? || pc.RevokeRows? || pc.LogoutFind? || pc.OwnerCheck?
    ensures Plain(s, Apply(s, Do(rid, pick)), rid)
  {
    hide Apply, Lookup, RowsAfter, ScopeMembers, Goto, Finish, Plain;
    PlainMoves(s, rid);
    PlainSame(s, rid);
    match pc
    case SweepMembers(scope, reason) => AtSweepMembers(s, rid, scope, reason, pick);
    case SweepNext(sweep) => AtSweepNext(s, rid, sweep, pick);
    case SweepFind(token, sweep) => AtSweepFind(s, rid, token, sweep, pick);
    case RevokeRows(scope, reason, snapshot) => AtRevokeRows(s, rid, scope, reason, snapshot, pick);
    case LogoutFind(token) => AtLogoutFind(s, rid, token, pick);
    case OwnerCheck(userId, sessionId) => AtOwnerCheck(s, rid, userId, sessionId, pick);
  }

  /** The key of `token` is as it was, or gone, and nobody new is about to write it. */
  predicate KeyLeft(s: State, s': State, token: Token) {
    && s.now <= s'.now && (token in s'.tokens ==> token in s.tokens && s'.tokens[token] == s.tokens[token])
    && NoNewWriter(s, s', token)
  }

  predicate NoNewWriter(s: State, s': State, token: Token) {
    forall r :: r in s'.requests && s'.requests[r].UpdateSet? && s'.requests[r].token == token ==>
      r in s.requests && s'.requests[r] == s.requests[r]
  }

  lemma PlainKeyLeft(s: State, s': State, rid: Rid, token: Token)
    requires Plain(s, s', rid)
    ensures KeyLeft(s, s', token)
  {
  }

  /** An expired token gets no new time to live. */
  lemma TtlKeyLeft(s: State, rid: Rid, pc: Pc, pick: string, token: Token)
    requires Inv(s) && At(s, rid, pc) && pc.UpdateTtl?
    requires token in s.births && s.births[token].expiresAt <= s.now
    ensures KeyLeft(s, Apply(s, Do(rid, pick)), token)
  {
    hide Apply, StoreInv, IndexInv, MarksInv, Goto, UpdateMissing;
    assert PcInv(s, rid, pc);
    AtUpdateTtl(s, rid, pc.token, pc.record, pc.goal, pick);
    var ttl := pc.record.expiresAt - s.now;
    if ttl <= 0 {
      MissingPlain(s, rid, pc.goal);
      PlainKeyLeft(s, Apply(s, Do(rid, pick)), rid, token);
    } else {
      assert pc.token != token;
      GotoSet(s, rid, UpdateSet(pc.token, pc.record, ttl, s.now, pc.goal), token);
    }
  }

  lemma MissingPlain(s: State, rid: Rid, goal: Goal)
    requires rid in s.requests
    ensures Plain(s, UpdateMissing(Numbered(s), rid, goal), rid)
  {
    hide Goto, Finish, Plain;
    PlainMoves(s, rid);
  }

  lemma GotoSet(s: State, rid: Rid, pc: Pc, token: Token)
    requires pc.UpdateSet? && pc.token != token
    ensures KeyLeft(s, Goto(Numbered(s), rid, pc), token)
  {
  }

  /** A creation stores a token that was not stored before. */
  lemma ExecKeyLeft(s: State, rid: Rid, pc: Pc, pick: string, token: Token)
    requires Inv(s) && At(s, rid, pc) && pc.CreateExec? && token in s.order
    ensures KeyLeft(s, Apply(s, Do(rid, pick)), token)
  {
    hide Apply, StoreInv, IndexInv, MarksInv, AddMember, Members;
    assert PcInv(s, rid, pc);
    assert pc.token != token;
    hide PcInv, RequestsInv, Inv;
    AtCreateExec(s, rid, pc.token, pc.record, pc.ttl, pc.origin, pick);
  }

  /** The write of another key, or of this one under the status its request wants. */
  lemma SetKey(s: State, rid: Rid, pc: Pc, pick: string, token: Token)
    requires Inv(s) && At(s, rid, pc) && pc.UpdateSet?
    ensures
      var s' := Apply(s, Do(rid, pick));
      && s'.now == s.now && NoNewWriter(s, s', token)
      && (pc.token != token ==> KeyLeft(s, s', token))
      && (pc.token == token ==>
            token in s'.tokens && s'.tokens[token].record == pc.record
            && s'.tokens[token].record.status == Target(pc.goal) && s.now < s'.tokens[token].deadline)
  {
    hide Apply, StoreInv, IndexInv, MarksInv, UpdateDone;
    assert PcInv(s, rid, pc);
    AtUpdateSet(s, rid, pc.token, pc.record, pc.ttl, pc.ttlAt, pc.goal, pick);
    DonePlain(Overwrite(Numbered(s), pc.token, pc.record, pc.ttl), rid, pc.token, pc.ttlAt, pc.goal);
  }

  lemma DonePlain(m: State, rid: Rid, token: Token, ttlAt: int, goal: Goal)
    requires rid in m.requests
    ensures Plain(m, UpdateDone(m, rid, token, ttlAt, goal), rid)
  {
    hide Goto, Finish, Plain;
    PlainMoves(m, rid);
  }

  lemma DoKeyLeft(s: State, rid: Rid, pick: string, token: Token)
    requires Inv(s) && rid in s.requests && token in s.order && token in s.births && s.births[token].expiresAt <= s.now
    requires !(s.requests[rid].UpdateSet? && s.requests[rid].token == token)
    ensures KeyLeft(s, Apply(s, Do(rid, pick)), token)
  {
    hide Inv, Apply, KeyLeft, Plain;
    var pc := s.requests[rid];
    if pc.UpdateTtl? {
      TtlKeyLeft(s, rid, pc, pick, token);
    } else if pc.UpdateSet? {
      SetKey(s, rid, pc, pick, token);
    } else if pc.CreateExec? {
      ExecKeyLeft(s, rid, pc, pick, token);
    } else {
      if pc.LoginInsert? || pc.Mint? || pc.CreateTtl? || pc.TouchStamp? || pc.Touch? {
        PlainCreate(s, rid, pc, pick);
      } else if pc.RefreshFind? || pc.RefreshCheck? || pc.RefreshUser? || pc.UpdateFind? {
        PlainRead(s, rid, pc, pick);
      } else {
        PlainRevoke(s, rid, pc, pick);
      }
      PlainKeyLeft(s, Apply(s, Do(rid, pick)), rid, token);
    }
  }

  lemma EntryReads(call: Call, now: int)
    ensures !Entry0(call, now).UpdateSet?
  {
  }

  lemma OtherKeyLeft(s: State, e: Event, token: Token)
    requires !e.Do? || e.rid !in s.requests
    ensures KeyLeft(s, Apply(s, e), token)
  {
    hide Apply;
    match e
    case Tick(duration) => AtClock(s, e);
    case Expire(t) => AtClock(s, e);
    case Start(rid, call) => StartKeyLeft(s, rid, call, token);
    case Do(rid, pick) => IdleKeyLeft(s, e, token);
    case Stop(rid) => IdleKeyLeft(s, e, token);
  }

  lemma StartIs(s: State, rid: Rid, call: Call)
    ensures
      Apply(s, Start(rid, call)) ==
      if rid in s.requests || rid in s.results then Numbered(s) else Goto(Numbered(s), rid, Entry0(call, s.now))
  {
    hide DoStep, Goto, Finish, Entry0;
  }

  lemma StopIs(s: State, rid: Rid)
    ensures Apply(s, Stop(rid)) == if rid in s.requests then Finish(Numbered(s), rid, Failed) else Numbered(s)
  {
    hide DoStep, Goto, Finish, Entry0;
  }

  lemma AbsentIs(s: State, rid: Rid, pick: string)
    requires rid !in s.requests
    ensures Apply(s, Do(rid, pick)) == Numbered(s)
  {
    hide DoStep, Goto, Finish, Entry0;
  }

  lemma SameKeyLeft(s: State, token: Token)
    ensures KeyLeft(s, Numbered(s), token)
  {
  }

  lemma StartKeyLeft(s: State, rid: Rid, call: Call, token: Token)
    ensures KeyLeft(s, Apply(s, Start(rid, call)), token)
  {
    hide Apply, Entry0;
    EntryReads(call, s.now);
    StartIs(s, rid, call);
    SameKeyLeft(s, token);
  }

  lemma IdleKeyLeft(s: State, e: Event, token: Token)
    requires e.Stop? || (e.Do? && e.rid !in s.requests)
    ensures KeyLeft(s, Apply(s, e), token)
  {
    hide Apply;
    SameKeyLeft(s, token);
    match e
    case Stop(rid) => StopIs(s, rid);
    case Do(rid, pick) => AbsentIs(s, rid, pick);
  }

  lemma GoneIfLeft(s: State, s': State, token: Token, anyStatus: bool)
    requires Gone(s, token, anyStatus) && KeyLeft(s, s', token)
    requires token in s'.order && token in s'.births && s'.births[token] == s.births[token]
    ensures Gone(s', token, anyStatus)
  {
  }

  /** The write of a revocation, when only marks matter. */
  lemma GoneIfRevoked(s: State, rid: Rid, pick: string, token: Token)
    requires Inv(s) && Gone(s, token, false) && rid in s.requests
    requires s.requests[rid].UpdateSet? && s.requests[rid].token == token
    requires
      var s' := Apply(s, Do(rid, pick));
      token in s'.order && token in s'.births && s'.births[token] == s.births[token]
    ensures Gone(Apply(s, Do(rid, pick)), token, false)
  {
    hide Inv, Apply;
    var pc := s.requests[rid];
    assert !Writes(pc, token, false);
    SetKey(s, rid, pc, pick, token);
  }

  lemma GoneKept(s: State, e: Event, token: Token, anyStatus: bool)
    requires Inv(s) && Gone(s, token, anyStatus)
    ensures Gone(Apply(s, e), token, anyStatus)
  {
    hide Inv, Apply, KeyLeft;
    ApplyKeeps(s, e);
    var actor :| Evolves(s, Apply(s, e), actor);
    if e.Do? && e.rid in s.requests {
      var pc := s.requests[e.rid];
      if pc.UpdateSet? && pc.token == token {
        assert !Writes(pc, token, anyStatus);
        GoneIfRevoked(s, e.rid, e.pick, token);
        return;
      }
      DoKeyLeft(s, e.rid, e.pick, token);
    } else {
      OtherKeyLeft(s, e, token);
    }
    GoneIfLeft(s, Apply(s, e), token, anyStatus);
  }

  lemma {:induction false} GoneForGood(s: State, events: seq<Event>, token: Token, anyStatus: bool)
    requires Inv(s) && Gone(s, token, anyStatus)
    ensures Gone(Exec(s, events), token, anyStatus)
  {
    hide Inv, Apply, Gone;
    if events != [] {
      var before := events[..|events| - 1];
      GoneForGood(s, before, token, anyStatus);
      RunKeeps(s, before);
      GoneKept(Exec(s, before), events[|events| - 1], token, anyStatus);
    }
  }

  /** A key that is gone was the key of an expired token. */
  lemma GoneNow(s: State, token: Token, anyStatus: bool)
    requires Inv(s) && token in s.order && KeyDead(s.tokens, s.now, token) && !WritePending(s, token, anyStatus)
    ensures Gone(s, token, anyStatus)
  {
    hide IndexInv, MarksInv, RequestsInv, WritePending;
  }

  // ---- the key itself ----

  ghost predicate DeadForGood(s: State, token: Token) {
    forall more :: KeyDead(Exec(s, more).tokens, Exec(s, more).now, token)
  }

  lemma ExecSteps(s: State, a: Event, b: Event)
    ensures Exec(s, []) == s && Exec(s, [a]) == Apply(s, a) && Exec(s, [a, b]) == Apply(Apply(s, a), b)
  {
    hide Apply;
    assert [a, b][..1] == [a] && [a][..0] == [];
  }

  /**
   In every reachable state: the key of a token that was stored is gone for good exactly if it is
   gone now and no request is about to write it.
   */
  lemma DeadForGoodIff(now: int, lifetime: int, events: seq<Event>, token: Token)
    requires token in Run(now, lifetime, events).order
    ensures
      var s := Run(now, lifetime, events);
      DeadForGood(s, token) <==>
        KeyDead(s.tokens, s.now, token)
        && forall r :: r in s.requests ==> !(s.requests[r].UpdateSet? && s.requests[r].token == token)
  {
    var s := Run(now, lifetime, events);
    Reached(now, lifetime, events);
    hide Run, Inv, Apply, Exec;
    ExecSteps(s, Tick(0), Tick(0));
    if r :| r in s.requests && s.requests[r].UpdateSet? && s.requests[r].token == token {
      ExecSteps(s, Do(r, ""), Tick(0));
      SetKey(s, r, s.requests[r], "", token);
      assert !KeyDead(Exec(s, [Do(r, "")]).tokens, Exec(s, [Do(r, "")]).now, token);
    } else if KeyDead(s.tokens, s.now, token) {
      GoneNow(s, token, true);
      forall more ensures KeyDead(Exec(s, more).tokens, Exec(s, more).now, token) {
        GoneForGood(s, more, token, true);
      }
    }
  }

  // ---- requests that present the token ----

  /**
   A refresh with `token` that has only looked at it, and has found it REVOKED if anything, or a
   logout that has not found it; or one of them that has ended without an effect.
   */
  predicate Idle(s: State, rid: Rid, call: Call, token: Token) {
    if rid in s.requests then IdlePc(s.requests[rid], call, token)
    else rid in s.results && NoEffect(s.results[rid], call)
  }

  predicate IdlePc(pc: Pc, call: Call, token: Token) {
    match pc
    case RefreshFind(t) => call == Refresh(token) && t == token
    case RefreshCheck(t, record, _) => call == Refresh(token) && t == token && record.status == Revoked
    case LogoutFind(t) => call == Logout(token) && t == token
    case UpdateFind(t, goal) => call == Logout(token) && t == token && goal == LogoutToken(None)
    case _ => false
  }

  predicate NoEffect(outcome: Outcome, call: Call) {
    outcome == Failed || outcome == if call.Refresh? then Rejected else Done
  }

  /** Nothing in the store is different, nor in its history. */
  predicate StoreSame(s: State, s': State) {
    && s'.tokens == s.tokens && s'.userIndex == s.userIndex && s'.sessionIndex == s.sessionIndex
    && s'.sessions == s.sessions && s'.births == s.births && s'.order == s.order && s'.marks == s.marks
  }

  lemma MovesSame(s: State, rid: Rid)
    ensures forall m, pc :: StoreSame(s, m) ==> StoreSame(s, Goto(m, rid, pc))
    ensures forall m, outcome :: StoreSame(s, m) ==> StoreSame(s, Finish(m, rid, outcome))
    ensures StoreSame(s, Numbered(s))
  {
  }

  /** What an idle request does next changes nothing, whatever the state of the key. */
  lemma IdleChangesNothing(s: State, rid: Rid, pick: string, call: Call, token: Token)
    requires Idle(s, rid, call, token)
    ensures StoreSame(s, Apply(s, Do(rid, pick)))
  {
    hide Apply, Goto, Finish, Lookup, StoreSame;
    MovesSame(s, rid);
    if rid !in s.requests {
      AbsentIs(s, rid, pick);
    } else {
      match s.requests[rid]
      case RefreshFind(_) => AtRefreshFind(s, rid, token, pick);
      case RefreshCheck(_, record, readAt) => AtRefreshCheck(s, rid, token, record, readAt, pick);
      case LogoutFind(_) => AtLogoutFind(s, rid, token, pick);
      case UpdateFind(_, goal) => AtUpdateFind(s, rid, token, goal, pick);
    }
  }

  lemma IdleMoves(rid: Rid, call: Call, token: Token)
    ensures forall m, pc :: IdlePc(pc, call, token) ==> Idle(Goto(m, rid, pc), rid, call, token)
    ensures forall m, outcome :: NoEffect(outcome, call) ==> Idle(Finish(m, rid, outcome), rid, call, token)
  {
  }

  lemma IdleNumbered(s: State, rid: Rid, call: Call, token: Token)
    requires Idle(s, rid, call, token)
    ensures Idle(Numbered(s), rid, call, token)
  {
  }

  lemma IdleSteps(s: State, rid: Rid, pick: string, call: Call, token: Token)
    requires Idle(s, rid, call, token) && (call == Refresh(token) || call == Logout(token))
    requires Gone(s, token, call.Logout?)
    ensures Idle(Apply(s, Do(rid, pick)), rid, call, token)
  {
    hide Apply, Gone;
    if rid !in s.requests {
      AbsentIs(s, rid, pick);
    } else if call.Refresh? {
      RefreshIdles(s, rid, s.requests[rid], pick, token);
    } else {
      LogoutIdles(s, rid, s.requests[rid], pick, token);
    }
  }

  lemma RefreshIdles(s: State, rid: Rid, pc: Pc, pick: string, token: Token)
    requires At(s, rid, pc) && IdlePc(pc, Refresh(token), token) && Gone(s, token, false)
    ensures Idle(Apply(s, Do(rid, pick)), rid, Refresh(token), token)
  {
    hide Apply, Gone, Lookup, Goto, Finish, Idle;
    IdleMoves(rid, Refresh(token), token);
    GoneLookup(s, token, false);
    match pc
    case RefreshFind(_) => AtRefreshFind(s, rid, token, pick);
    case RefreshCheck(_, record, readAt) => AtRefreshCheck(s, rid, token, record, readAt, pick);
  }

  lemma LogoutIdles(s: State, rid: Rid, pc: Pc, pick: string, token: Token)
    requires At(s, rid, pc) && IdlePc(pc, Logout(token), token) && Gone(s, token, true)
    ensures Idle(Apply(s, Do(rid, pick)), rid, Logout(token), token)
  {
    hide Apply, Gone, Lookup, Goto, Finish, Idle;
    IdleMoves(rid, Logout(token), token);
    GoneLookup(s, token, true);
    match pc
    case LogoutFind(_) => AtLogoutFind(s, rid, token, pick);
    case UpdateFind(_, goal) => AtUpdateFind(s, rid, token, goal, pick);
  }

  lemma GoneLookup(s: State, token: Token, anyStatus: bool)
    requires Gone(s, token, anyStatus)
    ensures
      var found := Lookup(s.tokens, s.now, token);
      found.None? || (!anyStatus && found.value.status == Revoked)
  {
  }

  lemma IdleKept(s: State, e: Event, rid: Rid, call: Call, token: Token)
    requires Idle(s, rid, call, token) && (call == Refresh(token) || call == Logout(token))
    requires Gone(s, token, call.Logout?)
    ensures Idle(Apply(s, e), rid, call, token)
  {
    hide Apply, Gone, Goto, Finish;
    IdleMoves(rid, call, token);
    IdleNumbered(s, rid, call, token);
    if (e.Start? || e.Do? || e.Stop?) && e.rid == rid {
      match e
      case Start(_, again) => StartIs(s, rid, again);
      case Do(_, pick) => IdleSteps(s, rid, pick, call, token);
      case Stop(_) => StopIs(s, rid);
    } else {
      OthersStay(s, e, rid);
    }
  }

  lemma {:induction false} IdleForGood(s: State, events: seq<Event>, rid: Rid, call: Call, token: Token)
    requires Inv(s) && Gone(s, token, call.Logout?) && Idle(s, rid, call, token)
    requires call == Refresh(token) || call == Logout(token)
    ensures Idle(Exec(s, events), rid, call, token)
  {
    hide Inv, Apply, Gone, Idle;
    if events != [] {
      var before := events[..|events| - 1];
      IdleForGood(s, before, rid, call, token);
      GoneForGood(s, before, token, call.Logout?);
      IdleKept(Exec(s, before), events[|events| - 1], rid, call, token);
    }
  }

  /** However the others go on, the request that starts now stays idle. */
  ghost predicate HarmlessFromNow(s: State, rid: Rid, call: Call, token: Token) {
    forall more :: Idle(Exec(Apply(s, Start(rid, call)), more), rid, call, token)
  }

  /** A write that comes after the deadline brings the key back, and the request acts on it. */
  lemma RevivedActs(s: State, rid: Rid, call: Call, token: Token, writer: Rid) returns (more: seq<Event>)
    requires Inv(s) && rid !in s.requests && rid !in s.results && (call == Refresh(token) || call == Logout(token))
    requires writer in s.requests && Writes(s.requests[writer], token, call.Logout?)
    ensures !Idle(Exec(Apply(s, Start(rid, call)), more), rid, call, token)
  {
    hide Inv, Apply, Goto, Exec;
    var pc := s.requests[writer];
    StartIs(s, rid, call);
    ApplyKeeps(s, Start(rid, call));
    OthersStay(s, Start(rid, call), writer);
    var a := Apply(s, Start(rid, call));
    AtStarted(s, rid, call);
    SetKey(a, writer, pc, "", token);
    OthersStay(a, Do(writer, ""), rid);
    var b := Apply(a, Do(writer, ""));
    more := [Do(writer, ""), Do(rid, "")];
    ExecSteps(a, Do(writer, ""), Do(rid, ""));
    if call.Refresh? {
      AtRefreshFind(b, rid, token, "");
    } else {
      AtLogoutFind(b, rid, token, "");
    }
    WentOn(b, rid, call, token);
  }

  lemma AtStarted(s: State, rid: Rid, call: Call)
    requires rid !in s.requests && rid !in s.results
    ensures At(Apply(s, Start(rid, call)), rid, Entry0(call, s.now))
  {
    hide Apply, Entry0;
    StartIs(s, rid, call);
  }

  lemma WentOn(b: State, rid: Rid, call: Call, token: Token)
    requires At(b, rid, if call.Refresh? then RefreshFind(token) else LogoutFind(token))
    requires call == Refresh(token) || call == Logout(token)
    requires var found := Lookup(b.tokens, b.now, token);
      found.Some? && (call.Refresh? ==> found.value.status == Used)
    ensures !Idle(Apply(b, Do(rid, "")), rid, call, token)
  {
    hide Apply, Lookup;
    if call.Refresh? {
      AtRefreshFind(b, rid, token, "");
    } else {
      AtLogoutFind(b, rid, token, "");
    }
  }

  /**
   In every reachable state, for a token whose key is gone: a refresh with it that starts now is
   only ever rejected and a logout with it ends without an effect, whatever else happens, exactly
   if no request is about to mark it USED or, for the logout, to write it at all.
   */
  lemma HarmlessIff(now: int, lifetime: int, events: seq<Event>, rid: Rid, call: Call, token: Token)
    requires call == Refresh(token) || call == Logout(token)
    requires
      var s := Run(now, lifetime, events);
      && token in s.order && KeyDead(s.tokens, s.now, token)
      && rid !in s.requests && rid !in s.results
    ensures
      var s := Run(now, lifetime, events);
      HarmlessFromNow(s, rid, call, token) <==>
        forall r :: r in s.requests ==>
          !(s.requests[r].UpdateSet? && s.requests[r].token == token
            && (call.Logout? || s.requests[r].goal.MarkUsed?))
  {
    var s := Run(now, lifetime, events);
    Reached(now, lifetime, events);
    hide Run, Inv, Apply, Exec, Idle, Gone;
    if r :| r in s.requests && Writes(s.requests[r], token, call.Logout?) {
      var more := RevivedActs(s, rid, call, token, r);
    } else {
      assert !WritePending(s, token, call.Logout?);
      GoneNow(s, token, call.Logout?);
      GoneKept(s, Start(rid, call), token, call.Logout?);
      ApplyKeeps(s, Start(rid, call));
      StartsIdle(s, rid, call, token);
      forall more ensures Idle(Exec(Apply(s, Start(rid, call)), more), rid, call, token) {
        IdleForGood(Apply(s, Start(rid, call)), more, rid, call, token);
      }
    }
  }

  lemma StartsIdle(s: State, rid: Rid, call: Call, token: Token)
    requires rid !in s.requests && rid !in s.results && (call == Refresh(token) || call == Logout(token))
    ensures Idle(Apply(s, Start(rid, call)), rid, call, token)
  {
    hide Apply;
    AtStarted(s, rid, call);
  }
}
