/** No event moves more than one request, and the lifetime of tokens is a constant of every run. */
module Bystanders {
  import opened Records
  import opened Protocol
  import opened ProtocolSteps

  predicate SameQueue(s: State, m: State) {
    m.requests == s.requests && m.results == s.results && m.lifetime == s.lifetime
  }

  /** Only request `rid` may have moved. */
  predicate Aside(s: State, s': State, rid: Rid) {
    && s'.lifetime == s.lifetime
    && (forall r :: r != rid && r in s.requests ==> r in s'.requests && s'.requests[r] == s.requests[r])
    && (forall r :: r != rid && r in s'.requests ==> r in s.requests)
    && (forall r :: r != rid && r in s.results ==> r in s'.results && s'.results[r] == s.results[r])
    && (forall r :: r != rid && r in s'.results ==> r in s.results)
  }

  lemma MovesAside(s: State, rid: Rid)
    ensures forall m, pc :: SameQueue(s, m) ==> Aside(s, Goto(m, rid, pc), rid)
    ensures forall m, outcome :: SameQueue(s, m) ==> Aside(s, Finish(m, rid, outcome), rid)
    ensures forall m :: SameQueue(s, m) ==> Aside(s, m, rid)
  {
  }

  lemma CreateAside(s: State, rid: Rid, pc: Pc, pick: string)
    requires At(s, rid, pc)
    requires pc.LoginInsert? || pc.Mint? || pc.CreateTtl? || pc.CreateExec? || pc.TouchStamp? || pc.Touch?
    ensures Aside(s, Apply(s, Do(rid, pick)), rid)
  {
    hide Apply, Aside, Members, AddMember, TouchRow, Goto, Finish;
    MovesAside(s, rid);
    match pc
    case LoginInsert(row) => AtLoginInsert(s, rid, row, pick);
    case Mint(userId, sessionId, origin) => AtMint(s, rid, userId, sessionId, origin, pick);
    case CreateTtl(token, record, origin) => AtCreateTtl(s, rid, token, record, origin, pick);
    case CreateExec(token, record, ttl, origin) => AtCreateExec(s, rid, token, record, ttl, origin, pick);
    case TouchStamp(sessionId, renewed) => AtTouchStamp(s, rid, sessionId, renewed, pick);
    case Touch(sessionId, at, renewed) => AtTouch(s, rid, sessionId, at, renewed, pick);
  }

  lemma UpdateStepAside(s: State, rid: Rid, pc: Pc, pick: string)
    requires At(s, rid, pc) && (pc.UpdateFind? || pc.UpdateTtl? || pc.UpdateSet?)
    ensures Aside(s, Apply(s, Do(rid, pick)), rid)
  {
    hide Apply, Aside, Lookup, Target, UpdateMissing, UpdateDone, Goto, Finish;
    MovesAside(s, rid);
    var n := Numbered(s);
    match pc
    case UpdateFind(token, goal) =>
      UpdateAside(s, n, rid, token, 0, goal);
      AtUpdateFind(s, rid, token, goal, pick);
    case UpdateTtl(token, record, goal) =>
      UpdateAside(s, n, rid, token, 0, goal);
      AtUpdateTtl(s, rid, token, record, goal, pick);
    case UpdateSet(token, record, ttl, ttlAt, goal) =>
      UpdateAside(s, Overwrite(n, token, record, ttl), rid, token, ttlAt, goal);
      AtUpdateSet(s, rid, token, record, ttl, ttlAt, goal, pick);
  }

  lemma UpdateAside(s: State, m: State, rid: Rid, token: Token, ttlAt: int, goal: Goal)
    requires SameQueue(s, m)
    ensures Aside(s, UpdateMissing(m, rid, goal), rid)
    ensures Aside(s, UpdateDone(m, rid, token, ttlAt, goal), rid)
  {
    hide Goto, Finish, Aside;
    MovesAside(s, rid);
  }

  lemma RestAside(s: State, rid: Rid, pc: Pc, pick: string)
    requires At(s, rid, pc)
    requires !(pc.LoginInsert? || pc.Mint? || pc.CreateTtl? || pc.CreateExec? || pc.TouchStamp? || pc.Touch?)
    requires !(pc.UpdateFind? || pc.UpdateTtl? || pc.UpdateSet?)
    ensures Aside(s, Apply(s, Do(rid, pick)), rid)
  {
    hide Apply, Aside, Lookup, Members, RowsAfter, ScopeMembers, Goto, Finish;
    MovesAside(s, rid);
    match pc
    case RefreshFind(token) => AtRefreshFind(s, rid, token, pick);
    case RefreshCheck(token, record, readAt) => AtRefreshCheck(s, rid, token, record, readAt, pick);
    case RefreshUser(token, record, readAt) => AtRefreshUser(s, rid, token, record, readAt, pick);
    case SweepMembers(scope, reason) => AtSweepMembers(s, rid, scope, reason, pick);
    case SweepNext(sweep) => AtSweepNext(s, rid, sweep, pick);
    case SweepFind(token, sweep) => AtSweepFind(s, rid, token, sweep, pick);
    case RevokeRows(scope, reason, snapshot) => AtRevokeRows(s, rid, scope, reason, snapshot, pick);
    case LogoutFind(token) => AtLogoutFind(s, rid, token, pick);
    case OwnerCheck(userId, sessionId) => AtOwnerCheck(s, rid, userId, sessionId, pick);
  }

  lemma StepAside(s: State, rid: Rid, pc: Pc, pick: string)
    requires At(s, rid, pc)
    ensures Aside(s, Apply(s, Do(rid, pick)), rid)
  {
    hide Apply;
    if pc.LoginInsert? || pc.Mint? || pc.CreateTtl? || pc.CreateExec? || pc.TouchStamp? || pc.Touch? {
      CreateAside(s, rid, pc, pick);
    } else if pc.UpdateFind? || pc.UpdateTtl? || pc.UpdateSet? {
      UpdateStepAside(s, rid, pc, pick);
    } else {
      RestAside(s, rid, pc, pick);
    }
  }

  lemma ClockAside(s: State, e: Event, rid: Rid)
    requires e.Tick? || e.Expire?
    ensures Aside(s, Apply(s, e), rid)
  {
    hide Apply;
    AtClock(s, e);
  }

  lemma EventAside(s: State, e: Event, rid: Rid)
    requires e.Start? || e.Do? || e.Stop? ==> e.rid == rid
    ensures Aside(s, Apply(s, e), rid)
  {
    hide DoStep, Goto, Finish, Aside;
    MovesAside(s, rid);
    match e
    case Do(_, pick) =>
      if rid in s.requests {
        hide Apply;
        StepAside(s, rid, s.requests[rid], pick);
      }
    case Start(_, call) =>
    case Stop(_) =>
    case _ => ClockAside(s, e, rid);
  }

  /** A request is where it was, and has the answer it had, after every event that is not its own. */
  lemma OthersStay(s: State, e: Event, rid: Rid)
    requires e.Start? || e.Do? || e.Stop? ==> e.rid != rid
    ensures
      var s' := Apply(s, e);
      && (rid in s'.requests <==> rid in s.requests) && (rid in s'.results <==> rid in s.results)
      && (rid in s.requests ==> s'.requests[rid] == s.requests[rid])
      && (rid in s.results ==> s'.results[rid] == s.results[rid])
  {
    hide Apply;
    if e.Start? || e.Do? || e.Stop? {
      EventAside(s, e, e.rid);
    } else {
      EventAside(s, e, rid + 1);
    }
  }

  lemma LifetimeKept(s: State, e: Event)
    ensures Apply(s, e).lifetime == s.lifetime
  {
    hide Apply;
    EventAside(s, e, if e.Start? || e.Do? || e.Stop? then e.rid else 0);
  }

  lemma {:induction false} LifetimeConstant(s: State, events: seq<Event>)
    ensures Exec(s, events).lifetime == s.lifetime
  {
    hide Apply;
    if events != [] {
      LifetimeConstant(s, events[..|events| - 1]);
      LifetimeKept(Exec(s, events[..|events| - 1]), events[|events| - 1]);
    }
  }
}
