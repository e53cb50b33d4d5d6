/**
 A user or a session is quiet when every stored token of theirs is spent and no request in flight
 can still create one that is not. Quiet is kept by every event of every interleaving, except that
 the start of a login of a user ends the quiet of that user. It is `strict` if, besides, no request
 is about to answer with a token of theirs; then no refresh for them succeeds any more.
 */
module QuietScopes {
  import opened Options
  import opened Records
  import opened Protocol
  import opened ProtocolInvariants
  import opened ProtocolTheorems

  predicate Covered(record: Record, scope: Scope) {
    Concerns(scope, record.userId, record.sessionId)
  }

  predicate Outside(s: State, token: Token, scope: Scope) {
    token in s.births && !Concerns(scope, s.births[token].userId, s.births[token].sessionId)
  }

  /** A refresh holds a token of the scope that it read ACTIVE and that has not expired. */
  predicate Promising(s: State, read: Record, scope: Scope) {
    Covered(read, scope) && s.now < read.expiresAt
  }

  /** A request at `pc` may yet store a usable token of the scope. */
  predicate CanCreate(s: State, pc: Pc, scope: Scope) {
    match pc
    case LoginInsert(row) =>
      (match scope case OfUser(userId) => row.userId == userId case OfSession(id) => id !in s.sessions)
    case Mint(userId, sessionId, _) => Concerns(scope, userId, sessionId)
    case CreateTtl(_, record, _) => Promising(s, record, scope)
    case CreateExec(_, record, _, _) => Promising(s, record, scope)
    case RefreshCheck(_, record, _) => record.status == Active && Promising(s, record, scope)
    case RefreshUser(_, record, _) => Promising(s, record, scope)
    case UpdateFind(_, goal) => goal.MarkUsed? && Promising(s, goal.read, scope)
    case UpdateTtl(_, _, goal) => goal.MarkUsed? && Promising(s, goal.read, scope)
    case UpdateSet(_, _, _, _, goal) => goal.MarkUsed? && Covered(goal.read, scope)
    case _ => false
  }

  /** A request at `pc` has a token of the scope to answer with. */
  predicate CanAnswer(s: State, pc: Pc, scope: Scope) {
    match pc
    case CreateExec(_, record, _, _) => Covered(record, scope)
    case TouchStamp(_, renewed) => !Outside(s, renewed, scope)
    case Touch(_, _, renewed) => !Outside(s, renewed, scope)
    case _ => false
  }

  predicate QuietPc(s: State, pc: Pc, scope: Scope, strict: bool) {
    !CanCreate(s, pc, scope) && (strict ==> !CanAnswer(s, pc, scope))
  }

  ghost predicate AllSpent(s: State, scope: Scope) {
    forall t :: t in s.order && t in s.births && !Outside(s, t, scope) ==> Spent(s, t)
  }

  ghost predicate Quiet(s: State, scope: Scope, strict: bool) {
    AllSpent(s, scope) && forall r :: r in s.requests ==> QuietPc(s, s.requests[r], scope, strict)
  }

  lemma QuietPcStable(s: State, s': State, actor: Option<Rid>, pc: Pc, scope: Scope, strict: bool)
    requires Evolves(s, s', actor) && QuietPc(s, pc, scope, strict)
    ensures QuietPc(s', pc, scope, strict)
  {
  }

  /** Nothing new is stored in scope that has not expired. */
  ghost predicate NoneStored(s: State, s': State, scope: Scope) {
    forall t :: t in s'.order && t !in s.order && t in s.births ==>
      Outside(s, t, scope) || s.births[t].expiresAt <= s.now
  }

  lemma SpentStable(s: State, s': State, actor: Option<Rid>, scope: Scope)
    requires StoreInv(s) && AllSpent(s, scope) && Evolves(s, s', actor) && NoneStored(s, s', scope)
    ensures AllSpent(s', scope)
  {
    forall t | t in s'.order && t in s'.births && !Outside(s', t, scope) ensures Spent(s', t) {
      if t in s.order {
        assert Spent(s, t);
      } else {
        assert s.births[t].expiresAt <= s'.now;
      }
    }
  }

  /** A step of `rid` that stores nothing and leaves it at `pc`. */
  ghost predicate LeavesQuiet(s: State, s': State, rid: Rid, scope: Scope, strict: bool) {
    && NoneStored(s, s', scope)
    && s'.requests - {rid} == s.requests - {rid}
    && (rid in s'.requests ==> QuietPc(s', s'.requests[rid], scope, strict))
    && s'.results - {rid} == s.results - {rid}
    && (strict && rid in s'.results && s'.results[rid].Refreshed? && rid !in s.results ==>
          Outside(s, s'.results[rid].token, scope))
  }

  lemma NumberedStores(s: State, scope: Scope)
    ensures NoneStored(s, Numbered(s), scope)
    ensures forall rows :: NoneStored(s, Numbered(s).(sessions := rows), scope)
  {
  }

  lemma QuietGoto(s: State, m: State, rid: Rid, pc: Pc, scope: Scope, strict: bool)
    requires m.requests == s.requests && m.results == s.results && NoneStored(s, m, scope)
    requires QuietPc(m, pc, scope, strict)
    requires rid !in s.results
    ensures LeavesQuiet(s, Goto(m, rid, pc), rid, scope, strict)
  {
  }

  lemma QuietFinish(s: State, m: State, rid: Rid, outcome: Outcome, scope: Scope, strict: bool)
    requires m.requests == s.requests && m.results == s.results && NoneStored(s, m, scope)
    requires strict && outcome.Refreshed? ==> Outside(s, outcome.token, scope)
    ensures LeavesQuiet(s, Finish(m, rid, outcome), rid, scope, strict)
  {
  }

  lemma QuietIdle(s: State, rid: Rid, scope: Scope, strict: bool)
    requires rid in s.requests && rid !in s.results && QuietPc(s, s.requests[rid], scope, strict)
    ensures LeavesQuiet(s, Numbered(s), rid, scope, strict)
  {
  }

  lemma CreateStepQuiets(s: State, rid: Rid, pc: Pc, pick: string, scope: Scope, strict: bool)
    requires rid in s.requests && rid !in s.results && s.requests[rid] == pc && QuietPc(s, pc, scope, strict)
    requires PcInv(s, rid, pc)
    requires pc.LoginInsert? || pc.Mint? || pc.CreateTtl? || pc.CreateExec? || pc.TouchStamp? || pc.Touch?
    ensures LeavesQuiet(s, DoStep(Numbered(s), rid, pc, pick), rid, scope, strict)
  {
    hide LeavesQuiet;
    var n := Numbered(s);
    QuietIdle(s, rid, scope, strict);
    match pc
    case LoginInsert(row) =>
      if pick !in s.sessions {
        QuietGoto(s, n.(sessions := s.sessions[pick := row]), rid, Mint(row.userId, pick, FromLogin), scope, strict);
      }
    case Mint(owner, sessionId, origin) =>
      var birth := Birth(owner, sessionId, s.now, s.now + s.lifetime, rid);
      QuietGoto(s, n.(births := s.births[pick := birth]), rid,
                CreateTtl(pick, Record(owner, sessionId, Active, s.now, s.now + s.lifetime), origin), scope, strict);
    case CreateTtl(token, record, origin) =>
      QuietFinish(s, n, rid, Failed, scope, strict);
      if record.expiresAt - s.now > 0 {
        QuietGoto(s, n, rid, CreateExec(token, record, record.expiresAt - s.now, origin), scope, strict);
      }
    case CreateExec(token, record, ttl, origin) =>
      var m := StoreNew(n, token, record, ttl);
      QuietFinish(s, m, rid, LoggedIn(token), scope, strict);
      QuietGoto(s, m, rid, TouchStamp(record.sessionId, token), scope, strict);
    case TouchStamp(sessionId, renewed) => QuietGoto(s, n, rid, Touch(sessionId, s.now, renewed), scope, strict);
    case Touch(sessionId, at, renewed) =>
      QuietFinish(s, n.(sessions := TouchRow(s.sessions, sessionId, at)), rid, Refreshed(renewed), scope, strict);
  }

  lemma FoundExpired(s: State, token: Token, scope: Scope)
    requires StoreInv(s) && AllSpent(s, scope) && ActiveIn(s, token)
    ensures !Promising(s, s.tokens[token].record, scope)
  {
    assert Copy(s, token, s.tokens[token].record);
  }

  lemma RefreshStepQuiets(s: State, rid: Rid, pc: Pc, pick: string, scope: Scope, strict: bool)
    requires StoreInv(s) && AllSpent(s, scope)
    requires rid in s.requests && rid !in s.results && s.requests[rid] == pc && QuietPc(s, pc, scope, strict)
    requires pc.RefreshFind? || pc.RefreshCheck? || pc.RefreshUser?
    ensures LeavesQuiet(s, DoStep(Numbered(s), rid, pc, pick), rid, scope, strict)
  {
    hide LeavesQuiet, StoreInv, AllSpent;
    var n := Numbered(s);
    QuietFinish(s, n, rid, Rejected, scope, strict);
    match pc
    case RefreshFind(token) =>
      if Lookup(s.tokens, s.now, token).Some? {
        if ActiveIn(s, token) {
          FoundExpired(s, token, scope);
        }
        QuietGoto(s, n, rid, RefreshCheck(token, s.tokens[token].record, n.steps), scope, strict);
      }
    case RefreshCheck(token, record, readAt) =>
      QuietGoto(s, n, rid, SweepMembers(OfUser(record.userId), Reuse), scope, strict);
      if record.status == Active {
        QuietGoto(s, n, rid, RefreshUser(token, record, readAt), scope, strict);
      }
    case RefreshUser(token, record, readAt) =>
      QuietGoto(s, n, rid, UpdateFind(token, MarkUsed(record, readAt)), scope, strict);
  }

  lemma MissingQuiets(s: State, m: State, rid: Rid, goal: Goal, scope: Scope, strict: bool)
    requires rid in s.requests && rid !in s.results && m.requests == s.requests && m.results == s.results
    requires NoneStored(s, m, scope)
    ensures LeavesQuiet(s, UpdateMissing(m, rid, goal), rid, scope, strict)
    ensures !goal.MarkUsed? ==> UpdateDone(m, rid, "", 0, goal) == UpdateMissing(m, rid, goal)
  {
    hide LeavesQuiet;
    match goal
    case MarkUsed(_, _) => QuietFinish(s, m, rid, Rejected, scope, strict);
    case LogoutToken(owner) =>
      QuietFinish(s, m, rid, Done, scope, strict);
      if owner.Some? {
        QuietGoto(s, m, rid, RevokeRows(OfSession(owner.value.sessionId), Requested, {}), scope, strict);
      }
    case SweepToken(sweep) => QuietGoto(s, m, rid, SweepNext(sweep), scope, strict);
  }

  lemma UpdateStepQuiets(s: State, rid: Rid, pc: Pc, pick: string, scope: Scope, strict: bool)
    requires rid in s.requests && rid !in s.results && s.requests[rid] == pc && QuietPc(s, pc, scope, strict)
    requires PcInv(s, rid, pc)
    requires pc.UpdateFind? || pc.UpdateTtl? || pc.UpdateSet?
    ensures LeavesQuiet(s, DoStep(Numbered(s), rid, pc, pick), rid, scope, strict)
  {
    hide LeavesQuiet;
    var n := Numbered(s);
    match pc
    case UpdateFind(token, goal) =>
      hide PcInv;
      MissingQuiets(s, n, rid, goal, scope, strict);
      if Lookup(s.tokens, s.now, token).Some? {
        QuietGoto(s, n, rid, UpdateTtl(token, s.tokens[token].record.(status := Target(goal)), goal), scope, strict);
      }
    case UpdateTtl(token, record, goal) =>
      MissingQuiets(s, n, rid, goal, scope, strict);
      if record.expiresAt > s.now {
        QuietGoto(s, n, rid, UpdateSet(token, record, record.expiresAt - s.now, s.now, goal), scope, strict);
      }
    case UpdateSet(token, record, ttl, ttlAt, goal) =>
      hide PcInv;
      var w := Overwrite(n, token, record, ttl);
      MissingQuiets(s, w, rid, goal, scope, strict);
      if goal.MarkUsed? {
        QuietGoto(s, w.(marks := s.marks[rid := Mark(token, goal.readAt, n.steps, ttlAt)]), rid,
                  Mint(goal.read.userId, goal.read.sessionId, FromRefresh), scope, strict);
      }
  }

  lemma RevokeStepQuiets(s: State, rid: Rid, pc: Pc, pick: string, scope: Scope, strict: bool)
    requires rid in s.requests && rid !in s.results && s.requests[rid] == pc && QuietPc(s, pc, scope, strict)
    requires pc.SweepMembers? || pc.SweepNext? || pc.SweepFind? || pc.RevokeRows? || pc.LogoutFind? || pc.OwnerCheck?
    ensures LeavesQuiet(s, DoStep(Numbered(s), rid, pc, pick), rid, scope, strict)
  {
    hide LeavesQuiet, RowsAfter, ScopeMembers, Goto, Finish, Promising, Outside, NoneStored, Lookup;
    NumberedStores(s, scope);
    var n := Numbered(s);
    match pc
    case SweepMembers(swept, reason) =>
      var snapshot := ScopeMembers(n, swept);
      QuietGoto(s, n, rid, SweepNext(Sweep(swept, reason, snapshot, snapshot)), scope, strict);
    case SweepNext(sweep) =>
      QuietIdle(s, rid, scope, strict);
      QuietGoto(s, n, rid, RevokeRows(sweep.scope, sweep.reason, sweep.snapshot), scope, strict);
      QuietGoto(s, n, rid, SweepFind(pick, sweep.(left := sweep.left - {pick})), scope, strict);
    case SweepFind(token, sweep) =>
      QuietGoto(s, n, rid, SweepNext(sweep), scope, strict);
      QuietGoto(s, n, rid, UpdateFind(token, SweepToken(sweep)), scope, strict);
    case RevokeRows(swept, reason, _) =>
      QuietFinish(s, n.(sessions := RowsAfter(s.sessions, swept)), rid,
                  if reason == Reuse then ReuseDetected else Done, scope, strict);
    case LogoutFind(token) =>
      QuietGoto(s, n, rid, UpdateFind(token, LogoutToken(Lookup(s.tokens, s.now, token))), scope, strict);
    case OwnerCheck(owner, sessionId) =>
      QuietFinish(s, n, rid, Failed, scope, strict);
      QuietFinish(s, n, rid, Rejected, scope, strict);
      QuietGoto(s, n, rid, SweepMembers(OfSession(sessionId), Requested), scope, strict);
  }

  lemma DoQuiets(s: State, rid: Rid, pick: string, scope: Scope, strict: bool)
    requires Inv(s) && Quiet(s, scope, strict) && rid in s.requests
    ensures LeavesQuiet(s, Apply(s, Do(rid, pick)), rid, scope, strict)
  {
    var pc := s.requests[rid];
    assert PcInv(s, rid, pc) && rid !in s.results;
    hide LeavesQuiet, IndexInv, MarksInv, StoreInv, RequestsInv, AllSpent, QuietPc, DoStep, PcInv;
    if pc.LoginInsert? || pc.Mint? || pc.CreateTtl? || pc.CreateExec? || pc.TouchStamp? || pc.Touch? {
      CreateStepQuiets(s, rid, pc, pick, scope, strict);
    } else if pc.RefreshFind? || pc.RefreshCheck? || pc.RefreshUser? {
      RefreshStepQuiets(s, rid, pc, pick, scope, strict);
    } else if pc.UpdateFind? || pc.UpdateTtl? || pc.UpdateSet? {
      UpdateStepQuiets(s, rid, pc, pick, scope, strict);
    } else {
      RevokeStepQuiets(s, rid, pc, pick, scope, strict);
    }
  }

  // ---- events and runs ----

  /** The events that leave scope `scope` quiet: any but the start of a login of its user. */
  predicate Undisturbing(e: Event, scope: Scope) {
    e.Start? && e.call.Login? && scope.OfUser? ==> e.call.userId != scope.userId
  }

  ghost predicate Undisturbed(events: seq<Event>, scope: Scope) {
    forall i :: 0 <= i < |events| ==> Undisturbing(events[i], scope)
  }

  /** Results stay, and in the strict case those that appear between `s` and `s'` hand out no token in scope. */
  ghost predicate NoneRefreshed(s: State, s': State, scope: Scope, strict: bool) {
    && (forall r :: r in s.results ==> r in s'.results && s'.results[r] == s.results[r])
    && (strict ==> forall r :: r in s'.results && s'.results[r].Refreshed? && r !in s.results ==>
          Outside(s', s'.results[r].token, scope))
  }

  lemma MovedQuietly(s: State, s': State, actor: Option<Rid>, rid: Rid, scope: Scope, strict: bool)
    requires StoreInv(s) && Quiet(s, scope, strict) && Evolves(s, s', actor) && LeavesQuiet(s, s', rid, scope, strict)
    requires rid !in s.results
    ensures Quiet(s', scope, strict) && NoneRefreshed(s, s', scope, strict)
  {
    SpentStable(s, s', actor, scope);
    forall r | r in s'.requests ensures QuietPc(s', s'.requests[r], scope, strict) {
      if r != rid {
        assert r in s'.requests - {rid};
        QuietPcStable(s, s', actor, s.requests[r], scope, strict);
      }
    }
    forall r | r in s.results ensures r in s'.results && s'.results[r] == s.results[r] {
      assert r in s.results - {rid};
    }
    forall r | strict && r in s'.results && s'.results[r].Refreshed? && r !in s.results
      ensures Outside(s', s'.results[r].token, scope)
    {
      assert r in s'.results - {rid} <==> r in s.results - {rid};
    }
  }

  /** Events of no request. */
  lemma EnvironmentQuietly(s: State, s': State, scope: Scope, strict: bool)
    requires StoreInv(s) && Quiet(s, scope, strict) && Evolves(s, s', None) && s'.order == s.order
    requires s'.requests == s.requests && s'.results == s.results
    ensures Quiet(s', scope, strict) && NoneRefreshed(s, s', scope, strict)
  {
    SpentStable(s, s', None, scope);
    forall r | r in s'.requests ensures QuietPc(s', s'.requests[r], scope, strict) {
      QuietPcStable(s, s', None, s.requests[r], scope, strict);
    }
  }

  lemma StartQuietly(s: State, rid: Rid, call: Call, scope: Scope, strict: bool)
    requires rid !in s.results && Undisturbing(Start(rid, call), scope)
    requires scope.OfSession? ==> scope.sessionId in s.sessions
    ensures LeavesQuiet(s, Goto(Numbered(s), rid, Entry0(call, s.now)), rid, scope, strict)
  {
  }

  /** A session in scope must exist, or a login could create it. */
  predicate Known(s: State, scope: Scope) {
    scope.OfSession? ==> scope.sessionId in s.sessions
  }

  /** An event that a request takes part in. */
  predicate Moves(s: State, e: Event) {
    match e
    case Start(rid, _) => rid !in s.requests && rid !in s.results
    case Do(rid, _) => rid in s.requests
    case Stop(rid) => rid in s.requests
    case _ => false
  }

  lemma MoverQuietly(s: State, e: Event, scope: Scope, strict: bool)
    requires Inv(s) && Known(s, scope) && Quiet(s, scope, strict) && Undisturbing(e, scope) && Moves(s, e)
    ensures LeavesQuiet(s, Apply(s, e), Mover(e), scope, strict) && Mover(e) !in s.results
  {
    hide StoreInv, IndexInv, MarksInv, PcInv, Quiet, DoStep, LeavesQuiet;
    match e
    case Start(rid, call) => StartQuietly(s, rid, call, scope, strict);
    case Do(rid, pick) => DoQuiets(s, rid, pick, scope, strict);
    case Stop(rid) => StopQuietly(s, rid, scope, strict);
  }

  lemma EnvironmentEvolves(s: State, e: Event)
    requires !Moves(s, e)
    ensures var s' := Apply(s, e);
      Evolves(s, s', None) && s'.order == s.order && s'.requests == s.requests && s'.results == s.results
  {
    hide Evolves;
    TickEvolves(s, 0, None);
    match e
    case Tick(duration) => TickEvolves(s, duration, None);
    case Expire(token) => ExpireEvolves(s, token);
    case _ =>
  }

  lemma KnownStays(s: State, s': State, actor: Option<Rid>, scope: Scope)
    requires Known(s, scope) && Evolves(s, s', actor)
    ensures Known(s', scope)
  {
  }

  lemma ApplyQuietly(s: State, e: Event, scope: Scope, strict: bool)
    requires Inv(s) && Known(s, scope) && Quiet(s, scope, strict) && Undisturbing(e, scope)
    ensures var s' := Apply(s, e); Quiet(s', scope, strict) && Known(s', scope) && NoneRefreshed(s, s', scope, strict)
  {
    hide StoreInv, IndexInv, MarksInv, RequestsInv, Evolves, Quiet;
    hide LeavesQuiet, NoneRefreshed, Known, Apply, Moves, Undisturbing;
    if Moves(s, e) {
      ApplyKeeps(s, e);
      var actor :| Evolves(s, Apply(s, e), actor);
      MoverQuietly(s, e, scope, strict);
      MovedQuietly(s, Apply(s, e), actor, Mover(e), scope, strict);
      KnownStays(s, Apply(s, e), actor, scope);
    } else {
      EnvironmentEvolves(s, e);
      EnvironmentQuietly(s, Apply(s, e), scope, strict);
      KnownStays(s, Apply(s, e), None, scope);
    }
  }

  lemma StopQuietly(s: State, rid: Rid, scope: Scope, strict: bool)
    ensures LeavesQuiet(s, Finish(Numbered(s), rid, Failed), rid, scope, strict)
  {
  }

  /**
   Quiet lasts through any interleaving without a login of the user; if it is strict, no refresh
   in scope succeeds.
   */
  lemma {:induction false} RunQuietly(s: State, events: seq<Event>, scope: Scope, strict: bool)
    requires Inv(s) && Known(s, scope) && Quiet(s, scope, strict) && Undisturbed(events, scope)
    ensures
      var s' := Exec(s, events);
      Quiet(s', scope, strict) && Known(s', scope) && NoneRefreshed(s, s', scope, strict)
  {
    hide Apply, Quiet, Known, Undisturbing;
    if events == [] {
      assert Exec(s, events) == s;
    } else {
      var before := events[..|events| - 1];
      var m := Exec(s, before);
      RunQuietly(s, before, scope, strict);
      RunKeeps(s, before);
      ApplyQuietly(m, events[|events| - 1], scope, strict);
      ApplyKeeps(m, events[|events| - 1]);
      BornOnce(m, Exec(s, events));
    }
  }

  lemma BornOnce(s: State, s': State)
    requires Progress(s, s')
    ensures forall t :: t in s.births ==> t in s'.births && s'.births[t] == s.births[t]
  {
  }

  // ---- in terms of usable tokens ----

  lemma QuietSpent(s: State, scope: Scope, strict: bool)
    requires Quiet(s, scope, strict)
    ensures AllSpent(s, scope)
  {
  }

  ghost predicate NoneUsable(s: State, scope: Scope) {
    forall t :: t in ScopeMembers(s, scope) ==> !Usable(s, t)
  }

  lemma MemberInScope(s: State, scope: Scope, token: Token)
    requires Inv(s)
    ensures token in ScopeMembers(s, scope) <==> token in s.order && token in s.births && !Outside(s, token, scope)
  {
    hide StoreInv, MarksInv, RequestsInv;
  }

  lemma SpentUnusable(s: State, scope: Scope)
    requires Inv(s)
    ensures AllSpent(s, scope) <==> NoneUsable(s, scope)
  {
    hide Inv, Usable, Spent, ScopeMembers, Outside;
    forall t | t in s.order ensures Usable(s, t) <==> !Spent(s, t) {
      UsableUnspent(s, t);
    }
    forall t ensures t in ScopeMembers(s, scope) <==> t in s.order && t in s.births && !Outside(s, t, scope) {
      MemberInScope(s, scope, t);
    }
  }
}
