/**
 One ACTIVE token per session. A session has one "slot": its ACTIVE token, or a token that a
 refresh has read ACTIVE and not marked yet, or a token about to be created. The order of the
 writes (mark the old token, then create the new one) hands the slot on without doubling it,
 as long as no two refreshes hold the same token between their read and their mark.
 */
module OneActiveToken {
  import opened Options
  import opened Records
  import opened Protocol
  import opened ProtocolSteps
  import opened ProtocolInvariants

  /** The token a refresh has read ACTIVE and not marked yet. */
  function HeldToken(pc: Pc): Option<Token> {
    match pc
    case RefreshCheck(token, record, _) => if record.status == Active then Some(token) else None
    case RefreshUser(token, _, _) => Some(token)
    case UpdateFind(token, goal) => if goal.MarkUsed? then Some(token) else None
    case UpdateTtl(token, _, goal) => if goal.MarkUsed? then Some(token) else None
    case UpdateSet(token, _, _, _, goal) => if goal.MarkUsed? then Some(token) else None
    case _ => None
  }

  /** The session for which a login or a refresh is about to create a token. */
  function PendingSession(pc: Pc): Option<Id> {
    match pc
    case Mint(_, sessionId, _) => Some(sessionId)
    case CreateTtl(_, record, _) => Some(record.sessionId)
    case CreateExec(_, record, _, _) => Some(record.sessionId)
    case _ => None
  }

  predicate Holds(s: State, rid: Rid, token: Token) {
    rid in s.requests && HeldToken(s.requests[rid]) == Some(token)
  }

  predicate Pending(s: State, rid: Rid, sessionId: Id) {
    rid in s.requests && PendingSession(s.requests[rid]) == Some(sessionId)
  }

  /** No two refreshes are between their read and their mark of the same token. */
  ghost predicate Exclusive(s: State) {
    forall r, q, t :: Holds(s, r, t) && Holds(s, q, t) ==> r == q
  }

  datatype Slot = TokenSlot(token: Token) | PendingSlot(rid: Rid)

  ghost predicate Occupies(s: State, slot: Slot, sessionId: Id) {
    match slot
    case TokenSlot(t) =>
      && t in s.order && t in s.births && s.births[t].sessionId == sessionId
      && (ActiveIn(s, t) || exists r :: Holds(s, r, t))
    case PendingSlot(r) => Pending(s, r, sessionId)
  }

  ghost predicate AtMostOne(s: State) {
    forall i, a, b :: Occupies(s, a, i) && Occupies(s, b, i) ==> a == b
  }

  predicate SameSession(s: State, t: Token, u: Token) {
    && t in s.order && u in s.order && t in s.births && u in s.births
    && s.births[t].sessionId == s.births[u].sessionId
  }

  /** Only the token created last in its session can be ACTIVE. */
  ghost predicate OnlyNewestActive(s: State) {
    forall t, u :: SameSession(s, t, u) && t != u && s.order[t] <= s.order[u] ==> !ActiveIn(s, t)
  }

  // ---- what a step does to the slots ----

  ghost predicate NoNewSlots(s: State, s': State) {
    forall slot, i :: Occupies(s', slot, i) ==> Occupies(s, slot, i)
  }

  /** The slot of session `i` passes from `old` to `next`. */
  ghost predicate Handover(s: State, s': State, i: Id, prev: Slot, next: Slot) {
    && Occupies(s, prev, i)
    && (forall k :: !Occupies(s', prev, k))
    && (forall slot, k :: Occupies(s', slot, k) && (slot != next || k != i) ==> Occupies(s, slot, k))
  }

  lemma HandoverKeeps(s: State, s': State, i: Id, prev: Slot, next: Slot)
    requires AtMostOne(s) && Handover(s, s', i, prev, next)
    ensures AtMostOne(s')
  {
    assert forall a :: Occupies(s', a, i) ==> a == next by { hide Occupies; }
    hide Occupies;
  }

  /** Conditions on the moving request under which no slot appears. */
  predicate TakesNoSlot(s: State, s': State, rid: Rid) {
    && s'.order == s.order
    && (rid in s'.requests ==>
          && (PendingSession(s'.requests[rid]) != None ==>
                rid in s.requests && PendingSession(s'.requests[rid]) == PendingSession(s.requests[rid]))
          && (HeldToken(s'.requests[rid]) != None ==>
                || (rid in s.requests && HeldToken(s'.requests[rid]) == HeldToken(s.requests[rid]))
                || ActiveIn(s, HeldToken(s'.requests[rid]).value)))
  }

  /** Every other request stays where it was. */
  ghost predicate OthersSame(s: State, s': State, rid: Rid) {
    forall r :: r in s'.requests && r != rid ==> r in s.requests && s'.requests[r] == s.requests[r]
  }

  lemma QuietNoNewSlots(s: State, s': State, actor: Option<Rid>, rid: Rid)
    requires StoreInv(s) && Evolves(s, s', actor) && OthersSame(s, s', rid) && TakesNoSlot(s, s', rid)
    ensures NoNewSlots(s, s')
  {
    forall slot, i | Occupies(s', slot, i) ensures Occupies(s, slot, i) {
      match slot
      case TokenSlot(t) =>
        if !ActiveIn(s', t) {
          var r :| Holds(s', r, t);
          if r != rid {
            assert Holds(s, r, t);
          } else if !ActiveIn(s, t) {
            assert Holds(s, rid, t);
          }
        }
      case PendingSlot(r) =>
    }
  }

  lemma NoNewSlotsKeeps(s: State, s': State)
    requires AtMostOne(s) && NoNewSlots(s, s')
    ensures AtMostOne(s')
  {
    hide Occupies;
  }

  // ---- the three steps that take or hand over a slot ----

  lemma LoginTakesSlot(s: State, rid: Rid, row: Session, pick: Id)
    requires Inv(s) && AtMostOne(s) && rid in s.requests && s.requests[rid].LoginInsert? && pick !in s.sessions
    ensures var s' := DoLoginInsert(Numbered(s), rid, row, pick); AtMostOne(s') && s'.order == s.order
  {
    hide IndexInv, MarksInv;
    var s' := DoLoginInsert(Numbered(s), rid, row, pick);
    forall slot, i | Occupies(s', slot, i) && slot != PendingSlot(rid)
      ensures i != pick && Occupies(s, slot, i)
    {
      match slot
      case TokenSlot(t) =>
        assert Owned(s, s.births[t].sessionId, s.births[t].userId);
        if !ActiveIn(s, t) {
          var r :| Holds(s', r, t);
          assert Holds(s, r, t);
        }
      case PendingSlot(r) =>
        assert PcInv(s, r, s.requests[r]);
    }
    assert forall i :: Occupies(s', PendingSlot(rid), i) ==> i == pick;
    hide Occupies, StoreInv, RequestsInv;
    assert AtMostOne(s');
  }

  lemma MarkPassesSlot(s: State, rid: Rid, token: Token, record: Record, ttl: int, ttlAt: int, goal: Goal)
    requires Inv(s) && AtMostOne(s) && Exclusive(s) && rid in s.requests && goal.MarkUsed?
    requires s.requests[rid] == UpdateSet(token, record, ttl, ttlAt, goal)
    ensures
      var s' := DoUpdateSet(Numbered(s), rid, token, record, ttl, ttlAt, goal);
      AtMostOne(s') && s'.order == s.order
  {
    hide IndexInv, MarksInv;
    var s' := DoUpdateSet(Numbered(s), rid, token, record, ttl, ttlAt, goal);
    var i := s.births[token].sessionId;
    assert PcInv(s, rid, s.requests[rid]);
    hide RequestsInv, PcInv;
    assert Holds(s, rid, token);
    assert Occupies(s, TokenSlot(token), i);
    forall slot, k | Occupies(s', slot, k)
      ensures slot != TokenSlot(token) && (slot != PendingSlot(rid) || k != i ==> Occupies(s, slot, k))
    {
      match slot
      case TokenSlot(t) =>
        if !ActiveIn(s', t) {
          var r :| Holds(s', r, t);
          assert Holds(s, r, t);
        }
      case PendingSlot(r) =>
    }
    HandoverKeeps(s, s', i, TokenSlot(token), PendingSlot(rid));
  }

  lemma CreatePassesSlot(s: State, rid: Rid, token: Token, record: Record, ttl: int, origin: Origin)
    requires Inv(s) && AtMostOne(s) && rid in s.requests && s.requests[rid] == CreateExec(token, record, ttl, origin)
    ensures AtMostOne(DoCreateExec(Numbered(s), rid, token, record, ttl, origin))
  {
    hide IndexInv, MarksInv, StoreInv;
    var s' := DoCreateExec(Numbered(s), rid, token, record, ttl, origin);
    assert PcInv(s, rid, s.requests[rid]);
    hide RequestsInv, PcInv;
    var i := record.sessionId;
    assert Occupies(s, PendingSlot(rid), i);
    forall slot, k | Occupies(s', slot, k)
      ensures slot != PendingSlot(rid) && (slot != TokenSlot(token) || k != i ==> Occupies(s, slot, k))
    {
      match slot
      case TokenSlot(t) =>
        if !ActiveIn(s', t) {
          var r :| Holds(s', r, t);
          assert Holds(s, r, t);
        }
      case PendingSlot(r) =>
    }
    HandoverKeeps(s, s', i, PendingSlot(rid), TokenSlot(token));
  }

  lemma CreateIsNewest(s: State, rid: Rid, token: Token, record: Record, ttl: int, origin: Origin)
    requires Inv(s) && AtMostOne(s) && OnlyNewestActive(s)
    requires rid in s.requests && s.requests[rid] == CreateExec(token, record, ttl, origin)
    ensures OnlyNewestActive(DoCreateExec(Numbered(s), rid, token, record, ttl, origin))
  {
    hide AddMember, Members;
    hide IndexInv, MarksInv;
    var s' := DoCreateExec(Numbered(s), rid, token, record, ttl, origin);
    assert PcInv(s, rid, s.requests[rid]);
    hide RequestsInv, PcInv;
    assert Occupies(s, PendingSlot(rid), record.sessionId);
    forall t, u | SameSession(s', t, u) && t != u && s'.order[t] <= s'.order[u] ensures !ActiveIn(s', t) {
      if u == token {
        assert !Occupies(s, TokenSlot(t), record.sessionId);
      } else {
        assert t != token;
        assert SameSession(s, t, u);
      }
    }
  }

  lemma OtherNewest(s: State, s': State, actor: Option<Rid>)
    requires StoreInv(s) && OnlyNewestActive(s) && Evolves(s, s', actor) && s'.order == s.order
    ensures OnlyNewestActive(s')
  {
    forall t, u | SameSession(s', t, u) && t != u && s'.order[t] <= s'.order[u] ensures !ActiveIn(s', t) {
      assert SameSession(s, t, u);
    }
  }

  // ---- every step, every event, every run ----

  predicate HandsOn(pc: Pc) {
    pc.LoginInsert? || pc.CreateExec? || (pc.UpdateSet? && pc.goal.MarkUsed?)
  }

  ghost predicate Unobtrusive(s: State, s': State, rid: Rid) {
    TakesNoSlot(s, s', rid) && OthersSame(s, s', rid)
  }

  lemma GotoQuiet(s: State, m: State, rid: Rid, pc: Pc)
    requires rid in s.requests && m.requests == s.requests && m.order == s.order
    requires PendingSession(pc) == None || PendingSession(pc) == PendingSession(s.requests[rid])
    requires HeldToken(pc) == None || HeldToken(pc) == HeldToken(s.requests[rid]) || ActiveIn(s, HeldToken(pc).value)
    ensures Unobtrusive(s, Goto(m, rid, pc), rid)
  {
  }

  lemma FinishQuiet(s: State, m: State, rid: Rid, outcome: Outcome)
    requires rid in s.requests && m.requests == s.requests && m.order == s.order
    ensures Unobtrusive(s, Finish(m, rid, outcome), rid)
  {
  }

  lemma IdleQuiet(s: State, rid: Rid)
    ensures Unobtrusive(s, Numbered(s), rid)
  {
  }

  lemma CreateStepQuiet(s: State, rid: Rid, pc: Pc, pick: string)
    requires rid in s.requests && s.requests[rid] == pc
    requires pc.Mint? || pc.CreateTtl? || pc.TouchStamp? || pc.Touch?
    ensures Unobtrusive(s, DoStep(Numbered(s), rid, pc, pick), rid)
  {
    hide Unobtrusive;
    var n := Numbered(s);
    match pc
    case Mint(userId, sessionId, origin) =>
      if pick in s.births { IdleQuiet(s, rid); } else {
        var birth := Birth(userId, sessionId, s.now, s.now + s.lifetime, rid);
        GotoQuiet(s, n.(births := s.births[pick := birth]), rid,
                  CreateTtl(pick, Record(userId, sessionId, Active, s.now, s.now + s.lifetime), origin));
      }
    case CreateTtl(token, record, origin) =>
      FinishQuiet(s, n, rid, Failed);
      GotoQuiet(s, n, rid, CreateExec(token, record, record.expiresAt - s.now, origin));
    case TouchStamp(sessionId, renewed) => GotoQuiet(s, n, rid, Touch(sessionId, s.now, renewed));
    case Touch(sessionId, at, renewed) =>
      FinishQuiet(s, n.(sessions := TouchRow(s.sessions, sessionId, at)), rid, Refreshed(renewed));
  }

  lemma RefreshStepQuiet(s: State, rid: Rid, pc: Pc, pick: string)
    requires rid in s.requests && s.requests[rid] == pc && (pc.RefreshFind? || pc.RefreshCheck? || pc.RefreshUser?)
    ensures Unobtrusive(s, DoStep(Numbered(s), rid, pc, pick), rid)
  {
    hide Unobtrusive;
    var n := Numbered(s);
    FinishQuiet(s, n, rid, Rejected);
    match pc
    case RefreshFind(token) =>
      if Lookup(s.tokens, s.now, token).Some? {
        GotoQuiet(s, n, rid, RefreshCheck(token, s.tokens[token].record, n.steps));
      }
    case RefreshCheck(token, record, readAt) =>
      GotoQuiet(s, n, rid, SweepMembers(OfUser(record.userId), Reuse));
      if record.status == Active {
        GotoQuiet(s, n, rid, RefreshUser(token, record, readAt));
      }
    case RefreshUser(token, record, readAt) =>
      GotoQuiet(s, n, rid, UpdateFind(token, MarkUsed(record, readAt)));
  }

  lemma MissingQuiet(s: State, m: State, rid: Rid, goal: Goal)
    requires rid in s.requests && m.requests == s.requests && m.order == s.order
    ensures Unobtrusive(s, UpdateMissing(m, rid, goal), rid)
    ensures !goal.MarkUsed? ==> UpdateDone(m, rid, "", 0, goal) == UpdateMissing(m, rid, goal)
  {
    hide Unobtrusive;
    match goal
    case MarkUsed(_, _) => FinishQuiet(s, m, rid, Rejected);
    case LogoutToken(owner) =>
      FinishQuiet(s, m, rid, Done);
      if owner.Some? {
        GotoQuiet(s, m, rid, RevokeRows(OfSession(owner.value.sessionId), Requested, {}));
      }
    case SweepToken(sweep) => GotoQuiet(s, m, rid, SweepNext(sweep));
  }

  lemma UpdateStepQuiet(s: State, rid: Rid, pc: Pc, pick: string)
    requires rid in s.requests && s.requests[rid] == pc
    requires pc.UpdateFind? || pc.UpdateTtl? || (pc.UpdateSet? && !pc.goal.MarkUsed?)
    ensures Unobtrusive(s, DoStep(Numbered(s), rid, pc, pick), rid)
  {
    hide Unobtrusive;
    var n := Numbered(s);
    match pc
    case UpdateFind(token, goal) =>
      MissingQuiet(s, n, rid, goal);
      if Lookup(s.tokens, s.now, token).Some? {
        GotoQuiet(s, n, rid, UpdateTtl(token, s.tokens[token].record.(status := Target(goal)), goal));
      }
    case UpdateTtl(token, record, goal) =>
      MissingQuiet(s, n, rid, goal);
      GotoQuiet(s, n, rid, UpdateSet(token, record, record.expiresAt - s.now, s.now, goal));
    case UpdateSet(token, record, ttl, _, goal) =>
      MissingQuiet(s, Overwrite(n, token, record, ttl), rid, goal);
  }

  lemma RevokeStepQuiet(s: State, rid: Rid, pc: Pc, pick: string)
    requires rid in s.requests && s.requests[rid] == pc
    requires pc.SweepMembers? || pc.SweepNext? || pc.SweepFind? || pc.RevokeRows? || pc.LogoutFind? || pc.OwnerCheck?
    ensures Unobtrusive(s, DoStep(Numbered(s), rid, pc, pick), rid)
  {
    hide Unobtrusive, RowsAfter, ScopeMembers;
    var n := Numbered(s);
    match pc
    case SweepMembers(scope, reason) =>
      var snapshot := ScopeMembers(n, scope);
      GotoQuiet(s, n, rid, SweepNext(Sweep(scope, reason, snapshot, snapshot)));
    case SweepNext(sweep) =>
      IdleQuiet(s, rid);
      GotoQuiet(s, n, rid, RevokeRows(sweep.scope, sweep.reason, sweep.snapshot));
      GotoQuiet(s, n, rid, SweepFind(pick, sweep.(left := sweep.left - {pick})));
    case SweepFind(token, sweep) =>
      GotoQuiet(s, n, rid, SweepNext(sweep));
      GotoQuiet(s, n, rid, UpdateFind(token, SweepToken(sweep)));
    case RevokeRows(scope, reason, _) =>
      FinishQuiet(s, n.(sessions := RowsAfter(s.sessions, scope)), rid,
                  if reason == Reuse then ReuseDetected else Done);
    case LogoutFind(token) =>
      GotoQuiet(s, n, rid, UpdateFind(token, LogoutToken(Lookup(s.tokens, s.now, token))));
    case OwnerCheck(userId, sessionId) =>
      FinishQuiet(s, n, rid, Failed);
      FinishQuiet(s, n, rid, Rejected);
      GotoQuiet(s, n, rid, SweepMembers(OfSession(sessionId), Requested));
  }

  lemma StepsQuiet(s: State, rid: Rid, pc: Pc, pick: string)
    requires rid in s.requests && s.requests[rid] == pc && !HandsOn(pc)
    ensures Unobtrusive(s, DoStep(Numbered(s), rid, pc, pick), rid)
  {
    hide DoStep, Unobtrusive;
    if pc.Mint? || pc.CreateTtl? || pc.TouchStamp? || pc.Touch? {
      CreateStepQuiet(s, rid, pc, pick);
    } else if pc.RefreshFind? || pc.RefreshCheck? || pc.RefreshUser? {
      RefreshStepQuiet(s, rid, pc, pick);
    } else if pc.UpdateFind? || pc.UpdateTtl? || pc.UpdateSet? {
      UpdateStepQuiet(s, rid, pc, pick);
    } else {
      RevokeStepQuiet(s, rid, pc, pick);
    }
  }

  lemma StartQuiet(s: State, rid: Rid, call: Call)
    requires rid !in s.requests
    ensures Unobtrusive(s, Goto(Numbered(s), rid, Entry0(call, s.now)), rid)
  {
  }

  lemma ClockQuiet(s: State, e: Event)
    requires e.Tick? || e.Expire?
    ensures Unobtrusive(s, Apply(s, e), 0)
  {
    hide Apply;
    AtClock(s, e);
  }

  lemma EventUnobtrusive(s: State, e: Event)
    requires e.Do? && e.rid in s.requests ==> !HandsOn(s.requests[e.rid])
    ensures Unobtrusive(s, Apply(s, e), Mover(e))
  {
    hide DoStep, Unobtrusive;
    var n := Numbered(s);
    IdleQuiet(s, Mover(e));
    match e
    case Do(rid, pick) =>
      if rid in s.requests {
        StepsQuiet(s, rid, s.requests[rid], pick);
      }
    case Stop(rid) =>
      if rid in s.requests {
        FinishQuiet(s, n, rid, Failed);
      }
    case Start(rid, call) =>
      if rid !in s.requests {
        StartQuiet(s, rid, call);
      }
    case _ => ClockQuiet(s, e);
  }

  lemma EventQuiet(s: State, e: Event)
    requires Inv(s) && AtMostOne(s) && OnlyNewestActive(s)
    requires e.Do? && e.rid in s.requests ==> !HandsOn(s.requests[e.rid])
    ensures AtMostOne(Apply(s, e)) && OnlyNewestActive(Apply(s, e))
  {
    hide Evolves, StoreInv, IndexInv, MarksInv, RequestsInv, NoNewSlots, TakesNoSlot, OthersSame;
    hide Apply, AtMostOne, OnlyNewestActive;
    var s' := Apply(s, e);
    ApplyKeeps(s, e);
    var actor :| Evolves(s, s', actor);
    EventUnobtrusive(s, e);
    QuietOrder(s, s', Mover(e));
    QuietNoNewSlots(s, s', actor, Mover(e));
    NoNewSlotsKeeps(s, s');
    OtherNewest(s, s', actor);
  }

  lemma QuietOrder(s: State, s': State, rid: Rid)
    requires TakesNoSlot(s, s', rid)
    ensures s'.order == s.order
  {
  }

  lemma HandoverStep(s: State, rid: Rid, pick: string)
    requires Inv(s) && AtMostOne(s) && OnlyNewestActive(s) && Exclusive(s) && rid in s.requests
    requires HandsOn(s.requests[rid])
    ensures var s' := Apply(s, Do(rid, pick)); AtMostOne(s') && (s'.order == s.order || OnlyNewestActive(s'))
  {
    hide Inv, AtMostOne, OnlyNewestActive, Exclusive, DoLoginInsert, DoUpdateSet, DoCreateExec;
    match s.requests[rid]
    case LoginInsert(row) =>
      if pick !in s.sessions {
        LoginTakesSlot(s, rid, row, pick);
      } else {
        NumberedSlots(s);
        TakenId(s, rid, row, pick);
      }
    case UpdateSet(token, record, ttl, ttlAt, goal) =>
      MarkPassesSlot(s, rid, token, record, ttl, ttlAt, goal);
    case CreateExec(token, record, ttl, origin) =>
      CreatePassesSlot(s, rid, token, record, ttl, origin);
      CreateIsNewest(s, rid, token, record, ttl, origin);
  }

  lemma TakenId(s: State, rid: Rid, row: Session, pick: Id)
    requires pick in s.sessions
    ensures DoLoginInsert(Numbered(s), rid, row, pick) == Numbered(s)
  {
  }

  lemma NumberedSlots(s: State)
    requires AtMostOne(s)
    ensures AtMostOne(Numbered(s))
  {
    forall slot, i | Occupies(Numbered(s), slot, i) ensures Occupies(s, slot, i) {
      if slot.TokenSlot? && !ActiveIn(s, slot.token) {
        var r :| Holds(Numbered(s), r, slot.token);
        assert Holds(s, r, slot.token);
      }
    }
    hide Occupies;
  }

  lemma ApplyKeepsOne(s: State, e: Event)
    requires Inv(s) && AtMostOne(s) && OnlyNewestActive(s) && Exclusive(s)
    ensures AtMostOne(Apply(s, e)) && OnlyNewestActive(Apply(s, e))
  {
    hide Evolves, StoreInv, IndexInv, MarksInv, RequestsInv, Apply, AtMostOne, OnlyNewestActive, Exclusive;
    if e.Do? && e.rid in s.requests && HandsOn(s.requests[e.rid]) {
      ApplyKeeps(s, e);
      var actor :| Evolves(s, Apply(s, e), actor);
      HandoverStep(s, e.rid, e.pick);
      if Apply(s, e).order == s.order {
        OtherNewest(s, Apply(s, e), actor);
      }
    } else {
      EventQuiet(s, e);
    }
  }

  /** A run during which no two refreshes ever hold the same token. */
  ghost predicate ExclusiveRun(s: State, events: seq<Event>) {
    Exclusive(Exec(s, events)) && (events != [] ==> ExclusiveRun(s, events[..|events| - 1]))
  }

  lemma {:induction false} RunKeepsOne(s: State, events: seq<Event>)
    requires Inv(s) && AtMostOne(s) && OnlyNewestActive(s) && ExclusiveRun(s, events)
    ensures AtMostOne(Exec(s, events)) && OnlyNewestActive(Exec(s, events))
  {
    hide Inv, Apply, AtMostOne, OnlyNewestActive, Exclusive;
    if events != [] {
      var before := events[..|events| - 1];
      RunKeepsOne(s, before);
      RunKeeps(s, before);
      assert Exclusive(Exec(s, before));
      ApplyKeepsOne(Exec(s, before), events[|events| - 1]);
    }
  }

  /** The tokens and refreshes that claim session `sessionId`. */
  ghost function Slots(s: State, sessionId: Id): set<Slot> {
    (set t | t in s.order && Occupies(s, TokenSlot(t), sessionId) :: TokenSlot(t))
    + (set r | r in s.requests && Occupies(s, PendingSlot(r), sessionId) :: PendingSlot(r))
  }

  ghost function ActiveTokens(s: State, sessionId: Id): set<Token> {
    set t | t in s.tokens && s.tokens[t].record.sessionId == sessionId && s.tokens[t].record.status == Active
  }

  lemma SmallSet<T>(slots: set<T>)
    requires forall a, b :: a in slots && b in slots ==> a == b
    ensures |slots| <= 1
  {
    if slots != {} {
      var a :| a in slots;
      assert slots == {a};
    }
  }

  /**
   In every interleaving in which no two refreshes hold the same token between read and mark:
   a session's ACTIVE or held tokens and its pending creations are together at most one, so it
   never has two ACTIVE tokens; and an ACTIVE token is the last one created in its session.
   */
  lemma AtMostOneActiveToken(now: int, lifetime: int, events: seq<Event>, sessionId: Id)
    requires ExclusiveRun(Init(now, lifetime), events)
    ensures var s := Exec(Init(now, lifetime), events);
      && |Slots(s, sessionId)| <= 1
      && |ActiveTokens(s, sessionId)| <= 1
      && forall t, u :: SameSession(s, t, u) && t != u && ActiveIn(s, t) ==> s.order[u] < s.order[t]
  {
    InitInv(now, lifetime);
    RunKeepsOne(Init(now, lifetime), events);
    RunKeeps(Init(now, lifetime), events);
    var s := Exec(Init(now, lifetime), events);
    hide IndexInv, MarksInv, RequestsInv, Exec, ExclusiveRun;
    forall a, b | a in ActiveTokens(s, sessionId) && b in ActiveTokens(s, sessionId) ensures a == b {
      assert Copy(s, a, s.tokens[a].record) && Copy(s, b, s.tokens[b].record);
      assert Occupies(s, TokenSlot(a), sessionId) && Occupies(s, TokenSlot(b), sessionId);
    }
    SmallSet(ActiveTokens(s, sessionId));
    SmallSet(Slots(s, sessionId));
  }
}
