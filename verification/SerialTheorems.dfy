/** What serial runs guarantee, stated on runs from the empty store. */
module SerialTheorems {
  import opened Records
  import opened Protocol
  import opened ProtocolInvariants
  import opened ProtocolTheorems
  import opened OneActiveToken
  import opened SerialRuns
  import opened QuietScopes

  lemma SerialReached(now: int, lifetime: int, events: seq<Event>, guarded: bool)
    requires CarefulRun(Init(now, lifetime), events, guarded)
    ensures FullInv(Run(now, lifetime, events), guarded)
  {
    InitFull(now, lifetime, guarded);
    RunSerial(Init(now, lifetime), events, guarded);
  }

  /**
   Serial runs, stopping after any step: a session has at most one ACTIVE token, every token
   stored before another of the same session is not ACTIVE, and no token is redeemed twice.
   */
  lemma SerialRotation(now: int, lifetime: int, events: seq<Event>, sessionId: Id)
    requires SerialRun(Init(now, lifetime), events)
    ensures var s := Run(now, lifetime, events);
      && |ActiveTokens(s, sessionId)| <= 1
      && (forall t, u :: SameSession(s, t, u) && t != u && s.order[t] <= s.order[u] ==> !ActiveIn(s, t))
      && (forall r, q :: r in s.marks && q in s.marks && r != q ==> s.marks[r].token != s.marks[q].token)
  {
    var s := Run(now, lifetime, events);
    SerialReached(now, lifetime, events, false);
    hide IndexInv, MarksInv, RequestsInv, SerialPc, LiveSessions, Exec, SerialRun;
    forall a, b | a in ActiveTokens(s, sessionId) && b in ActiveTokens(s, sessionId) ensures a == b {
      assert Copy(s, a, s.tokens[a].record) && Copy(s, b, s.tokens[b].record);
      assert Occupies(s, TokenSlot(a), sessionId) && Occupies(s, TokenSlot(b), sessionId);
    }
    SmallSet(ActiveTokens(s, sessionId));
  }

  // ---- revoked sessions ----

  lemma HeldExpired(s: State, token: Token, read: Record, sessionId: Id)
    requires LiveSessions(s) && StillActive(s, token) && Copy(s, token, read) && !Alive(s, sessionId)
    ensures !Promising(s, read, OfSession(sessionId))
  {
    if read.sessionId == sessionId && ActiveIn(s, token) {
      assert Spent(s, token);
    }
  }

  lemma RevokedPcQuiet(s: State, rid: Rid, pc: Pc, sessionId: Id)
    requires LiveSessions(s) && PcInv(s, rid, pc) && SerialPc(s, pc, true)
    requires sessionId in s.sessions && !Alive(s, sessionId)
    ensures QuietPc(s, pc, OfSession(sessionId), true)
  {
    hide LiveSessions, Covers, OthersSpent, ScopeSpent, SweepInv;
    match pc
    case RefreshCheck(token, record, _) =>
      if record.status == Active { HeldExpired(s, token, record, sessionId); }
    case RefreshUser(token, record, _) => HeldExpired(s, token, record, sessionId);
    case UpdateFind(token, goal) =>
      if goal.MarkUsed? { HeldExpired(s, token, goal.read, sessionId); }
    case UpdateTtl(token, _, goal) =>
      if goal.MarkUsed? { HeldExpired(s, token, goal.read, sessionId); }
    case _ =>
  }

  lemma RevokedQuiet(s: State, sessionId: Id)
    requires FullInv(s, true) && sessionId in s.sessions && s.sessions[sessionId].status == SessionRevoked
    ensures Quiet(s, OfSession(sessionId), true)
  {
    hide StoreInv, IndexInv, MarksInv, AtMostOne, OnlyNewestActive, PcInv, SerialPc, QuietPc;
    assert AllSpent(s, OfSession(sessionId)) by {
      forall t | t in s.order && t in s.births && !Outside(s, t, OfSession(sessionId)) ensures Spent(s, t) {
        assert !Alive(s, s.births[t].sessionId);
      }
    }
    hide LiveSessions, AllSpent;
    forall r | r in s.requests ensures QuietPc(s, s.requests[r], OfSession(sessionId), true) {
      RevokedPcQuiet(s, r, s.requests[r], sessionId);
    }
  }

  /**
   A serial run in which every logout presents a token that is ACTIVE or absent, or whose session
   has no usable token anyway, stopping after any step: a REVOKED session has no usable token,
   although refresh never looks at the session.
   Nor does it ever get one again: in any continuation, however it interleaves, no token of the
   session is usable and no refresh renews one.
   */
  lemma RevokedSessionDead(now: int, lifetime: int, before: seq<Event>, after: seq<Event>, sessionId: Id)
    requires GuardedRun(Init(now, lifetime), before)
    requires
      var s := Run(now, lifetime, before);
      sessionId in s.sessions && s.sessions[sessionId].status == SessionRevoked
    ensures
      var s := Run(now, lifetime, before);
      var s' := Run(now, lifetime, before + after);
      && (forall t :: t in Members(s'.sessionIndex, sessionId) ==> !Usable(s', t))
      && (forall r :: r in s'.results && s'.results[r].Refreshed? && r !in s.results ==>
            s'.results[r].token in s'.births && s'.births[s'.results[r].token].sessionId != sessionId)
  {
    var s := Run(now, lifetime, before);
    var s' := Run(now, lifetime, before + after);
    SerialReached(now, lifetime, before, true);
    RevokedQuiet(s, sessionId);
    ExecConcat(Init(now, lifetime), before, after);
    assert Undisturbed(after, OfSession(sessionId));
    RunQuietly(s, after, OfSession(sessionId), true);
    RunKeeps(s, after);
    SpentUnusable(s', OfSession(sessionId));
  }

  // ---- LogoutAll and reuse detection ----

  /**
   Serial runs: from the step that completes a LogoutAll or a reuse detection for a user on, no
   token of the user is usable and no refresh for the user succeeds, in any continuation, however
   it interleaves, in which no login of that user starts.
   */
  lemma SilentUntilLogin(
      now: int, lifetime: int, before: seq<Event>, rid: Rid, after: seq<Event>, userId: Id)
    requires SerialRun(Init(now, lifetime), before)
    requires
      var s := Run(now, lifetime, before);
      rid in s.requests && s.requests[rid].RevokeRows? && s.requests[rid].scope == OfUser(userId)
    requires after != [] && after[0] == Do(rid, "") && Undisturbed(after, OfUser(userId))
    ensures Silent(Run(now, lifetime, before), Run(now, lifetime, before + after), userId)
  {
    var s := Run(now, lifetime, before);
    var m := Apply(s, Do(rid, ""));
    var s' := Run(now, lifetime, before + after);
    hide StoreInv, IndexInv, MarksInv, RequestsInv, AtMostOne, OnlyNewestActive, SerialInv, Quiet, DoStep, Exec;
    SerialReached(now, lifetime, before, false);
    SweptQuiet(s, rid, userId);
    ExecOne(Init(now, lifetime), before, Do(rid, ""));
    assert before + after == (before + [Do(rid, "")]) + after[1..];
    ExecConcat(Init(now, lifetime), before + [Do(rid, "")], after[1..]);
    DoKeeps(s, rid, "");
    assert Undisturbed(after[1..], OfUser(userId));
    RunQuietly(m, after[1..], OfUser(userId), true);
    RunKeeps(m, after[1..]);
    QuietSpent(s', OfUser(userId), true);
    SpentUnusable(s', OfUser(userId));
    RowsResult(s, rid);
  }

  /** At `s'` no token of the user is usable, and since `s` no refresh has renewed one. */
  ghost predicate Silent(s: State, s': State, userId: Id) {
    && (forall t :: t in Members(s'.userIndex, userId) ==> !Usable(s', t))
    && (forall r :: r in s'.results && s'.results[r].Refreshed? && r !in s.results ==>
          s'.results[r].token in s'.births && s'.births[s'.results[r].token].userId != userId)
  }

  lemma RowsResult(s: State, rid: Rid)
    requires rid in s.requests && s.requests[rid].RevokeRows?
    ensures var m := Apply(s, Do(rid, "")); forall r :: r in m.results && m.results[r].Refreshed? ==> r in s.results
  {
  }

  lemma SweptQuiet(s: State, rid: Rid, userId: Id)
    requires FullInv(s, false) && rid in s.requests && s.requests[rid].RevokeRows?
    requires s.requests[rid].scope == OfUser(userId)
    ensures Quiet(Apply(s, Do(rid, "")), OfUser(userId), true)
  {
    var m := Apply(s, Do(rid, ""));
    assert SerialPc(s, s.requests[rid], false);
    assert m.requests == map[];
    hide StoreInv, IndexInv, MarksInv, RequestsInv, AtMostOne, OnlyNewestActive, SerialInv;
    forall t | t in m.order && t in m.births && !Outside(m, t, OfUser(userId)) ensures Spent(m, t) {
      assert Spent(s, t);
    }
  }
}
