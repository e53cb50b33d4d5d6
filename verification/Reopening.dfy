/**
 Exactly when a user or a session is out of reach for good. If a request in flight can still
 create a token, the request alone can go on to do so: the other half of what `QuietScopes` keeps.
 */
module Reopening {
  import opened Fresh
  import opened Options
  import opened Records
  import opened Protocol
  import opened ProtocolSteps
  import opened Bystanders
  import opened ProtocolInvariants
  import opened ProtocolTheorems
  import opened OneActiveToken
  import opened QuietScopes

  /** Steps left to the creation of a token. */
  function Rank(pc: Pc): nat {
    match pc
    case RefreshCheck(_, _, _) => 8
    case RefreshUser(_, _, _) => 7
    case UpdateFind(_, _) => 6
    case UpdateTtl(_, _, _) => 5
    case UpdateSet(_, _, _, _, _) => 4
    case LoginInsert(_) => 4
    case Mint(_, _, _) => 3
    case CreateTtl(_, _, _) => 2
    case CreateExec(_, _, _, _) => 1
    case _ => 0
  }

  predicate OnTheWay(s: State, rid: Rid, scope: Scope) {
    rid in s.requests && CanCreate(s, s.requests[rid], scope)
  }

  /** No time has passed, the other requests have not moved, and no token but `held` has changed. */
  ghost predicate Alongside(s: State, s': State, rid: Rid, held: Option<Token>) {
    && s'.now == s.now && s'.lifetime == s.lifetime
    && s'.requests - {rid} == s.requests - {rid}
    && forall u :: u in s.tokens && held != Some(u) ==> u in s'.tokens && s'.tokens[u] == s.tokens[u]
  }

  /** A step of `rid` towards its creation. */
  ghost predicate Closer(s: State, s': State, rid: Rid, scope: Scope)
    requires rid in s.requests
  {
    var pc := s.requests[rid];
    && Alongside(s, s', rid, HeldToken(pc)) && OnTheWay(s', rid, scope)
    && Rank(s'.requests[rid]) < Rank(pc) && HeldToken(s'.requests[rid]) in {None, HeldToken(pc)}
  }

  lemma GotoCloser(s: State, m: State, rid: Rid, pc: Pc, scope: Scope)
    requires rid in s.requests && m.requests == s.requests && Alongside(s, m, rid, HeldToken(s.requests[rid]))
    requires CanCreate(m, pc, scope) && Rank(pc) < Rank(s.requests[rid])
    requires HeldToken(pc) in {None, HeldToken(s.requests[rid])}
    ensures Closer(s, Goto(m, rid, pc), rid, scope)
  {
    hide Rank, HeldToken;
  }

  // ---- one step closer, from each position ----

  lemma LoginCloser(s: State, rid: Rid, row: Session, scope: Scope) returns (pick: string)
    requires At(s, rid, LoginInsert(row)) && OnTheWay(s, rid, scope)
    ensures Closer(s, Apply(s, Do(rid, pick)), rid, scope)
  {
    hide Apply, Goto;
    if scope.OfSession? {
      pick := scope.sessionId;
    } else {
      pick := FreshString(s.sessions.Keys);
    }
    AtLoginInsert(s, rid, row, pick);
    GotoCloser(s, Numbered(s).(sessions := s.sessions[pick := row]), rid, Mint(row.userId, pick, FromLogin), scope);
  }

  lemma MintCloser(s: State, rid: Rid, userId: Id, sessionId: Id, origin: Origin, scope: Scope) returns (pick: string)
    requires At(s, rid, Mint(userId, sessionId, origin)) && OnTheWay(s, rid, scope) && s.lifetime > 0
    ensures Closer(s, Apply(s, Do(rid, pick)), rid, scope)
  {
    hide Apply, Goto;
    pick := FreshString(s.births.Keys);
    AtMint(s, rid, userId, sessionId, origin, pick);
    var birth := Birth(userId, sessionId, s.now, s.now + s.lifetime, rid);
    var record := Record(userId, sessionId, Active, s.now, s.now + s.lifetime);
    GotoCloser(s, Numbered(s).(births := s.births[pick := birth]), rid, CreateTtl(pick, record, origin), scope);
  }

  lemma TtlCloser(s: State, rid: Rid, token: Token, record: Record, origin: Origin, scope: Scope)
    requires At(s, rid, CreateTtl(token, record, origin)) && OnTheWay(s, rid, scope)
    ensures Closer(s, Apply(s, Do(rid, "")), rid, scope)
  {
    hide Apply, Goto;
    AtCreateTtl(s, rid, token, record, origin, "");
    GotoCloser(s, Numbered(s), rid, CreateExec(token, record, record.expiresAt - s.now, origin), scope);
  }

  lemma CheckCloser(s: State, rid: Rid, token: Token, record: Record, readAt: nat, scope: Scope)
    requires At(s, rid, RefreshCheck(token, record, readAt)) && OnTheWay(s, rid, scope)
    ensures Closer(s, Apply(s, Do(rid, "")), rid, scope)
  {
    hide Apply, Goto;
    AtRefreshCheck(s, rid, token, record, readAt, "");
    GotoCloser(s, Numbered(s), rid, RefreshUser(token, record, readAt), scope);
  }

  lemma UserCloser(s: State, rid: Rid, token: Token, record: Record, readAt: nat, scope: Scope)
    requires At(s, rid, RefreshUser(token, record, readAt)) && OnTheWay(s, rid, scope)
    ensures Closer(s, Apply(s, Do(rid, "")), rid, scope)
  {
    hide Apply, Goto;
    AtRefreshUser(s, rid, token, record, readAt, "");
    GotoCloser(s, Numbered(s), rid, UpdateFind(token, MarkUsed(record, readAt)), scope);
  }

  /** An unexpired token that was ever stored is still visible. */
  lemma StillVisible(s: State, token: Token, record: Record)
    requires Inv(s) && Copy(s, token, record) && s.now < record.expiresAt
    ensures Lookup(s.tokens, s.now, token).Some?
  {
    hide IndexInv, MarksInv, RequestsInv;
  }

  lemma FindCloser(s: State, rid: Rid, token: Token, goal: Goal, scope: Scope)
    requires At(s, rid, UpdateFind(token, goal)) && OnTheWay(s, rid, scope) && Inv(s)
    ensures Closer(s, Apply(s, Do(rid, "")), rid, scope)
  {
    hide Apply, Goto, StoreInv, IndexInv, MarksInv, Lookup;
    assert PcInv(s, rid, s.requests[rid]);
    StillVisible(s, token, goal.read);
    AtUpdateFind(s, rid, token, goal, "");
    var record := Lookup(s.tokens, s.now, token).value.(status := Target(goal));
    GotoCloser(s, Numbered(s), rid, UpdateTtl(token, record, goal), scope);
  }

  lemma UpdateTtlCloser(s: State, rid: Rid, token: Token, record: Record, goal: Goal, scope: Scope)
    requires At(s, rid, UpdateTtl(token, record, goal)) && OnTheWay(s, rid, scope) && Inv(s)
    ensures Closer(s, Apply(s, Do(rid, "")), rid, scope)
  {
    hide Apply, Goto, StoreInv, IndexInv, MarksInv;
    assert PcInv(s, rid, s.requests[rid]);
    assert record.expiresAt == goal.read.expiresAt;
    hide RequestsInv, PcInv, Inv;
    AtUpdateTtl(s, rid, token, record, goal, "");
    GotoCloser(s, Numbered(s), rid, UpdateSet(token, record, record.expiresAt - s.now, s.now, goal), scope);
  }

  lemma SetCloser(s: State, rid: Rid, token: Token, record: Record, ttl: int, ttlAt: int, goal: Goal, scope: Scope)
    requires At(s, rid, UpdateSet(token, record, ttl, ttlAt, goal)) && OnTheWay(s, rid, scope)
    ensures Closer(s, Apply(s, Do(rid, "")), rid, scope)
  {
    hide Apply, Goto;
    AtUpdateSet(s, rid, token, record, ttl, ttlAt, goal, "");
    var w := Overwrite(Numbered(s), token, record, ttl);
    var m := w.(marks := w.marks[rid := Mark(token, goal.readAt, w.steps, ttlAt)]);
    GotoCloser(s, m, rid, Mint(goal.read.userId, goal.read.sessionId, FromRefresh), scope);
  }

  lemma CreateCloser(s: State, rid: Rid, pc: Pc, scope: Scope) returns (pick: string)
    requires At(s, rid, pc) && OnTheWay(s, rid, scope) && s.lifetime > 0
    requires pc.LoginInsert? || pc.Mint? || pc.CreateTtl?
    ensures Closer(s, Apply(s, Do(rid, pick)), rid, scope)
  {
    hide Apply, Closer;
    pick := "";
    match pc
    case LoginInsert(row) => pick := LoginCloser(s, rid, row, scope);
    case Mint(userId, sessionId, origin) => pick := MintCloser(s, rid, userId, sessionId, origin, scope);
    case CreateTtl(token, record, origin) => TtlCloser(s, rid, token, record, origin, scope);
  }

  lemma RefreshCloser(s: State, rid: Rid, pc: Pc, scope: Scope)
    requires At(s, rid, pc) && OnTheWay(s, rid, scope) && Inv(s)
    requires !(pc.LoginInsert? || pc.Mint? || pc.CreateTtl? || pc.CreateExec?)
    ensures Closer(s, Apply(s, Do(rid, "")), rid, scope)
  {
    hide Apply, Closer, Inv;
    match pc
    case RefreshCheck(token, record, readAt) => CheckCloser(s, rid, token, record, readAt, scope);
    case RefreshUser(token, record, readAt) => UserCloser(s, rid, token, record, readAt, scope);
    case UpdateFind(token, goal) => FindCloser(s, rid, token, goal, scope);
    case UpdateTtl(token, record, goal) => UpdateTtlCloser(s, rid, token, record, goal, scope);
    case UpdateSet(token, record, ttl, ttlAt, goal) => SetCloser(s, rid, token, record, ttl, ttlAt, goal, scope);
  }

  lemma StepCloser(s: State, rid: Rid, scope: Scope) returns (pick: string)
    requires OnTheWay(s, rid, scope) && !s.requests[rid].CreateExec? && s.lifetime > 0 && Inv(s)
    ensures Closer(s, Apply(s, Do(rid, pick)), rid, scope)
  {
    hide Apply, Closer, Inv;
    var pc := s.requests[rid];
    if pc.LoginInsert? || pc.Mint? || pc.CreateTtl? {
      pick := CreateCloser(s, rid, pc, scope);
    } else {
      pick := "";
      RefreshCloser(s, rid, pc, scope);
    }
  }

  // ---- the creation itself ----

  /** `token` is new, usable, and in the scope. */
  ghost predicate Opened(s: State, s': State, token: Token, scope: Scope) {
    token !in s.tokens && token !in s.order && token in ScopeMembers(s', scope) && Usable(s', token)
  }

  lemma StoredOpens(s: State, token: Token, record: Record, ttl: int, scope: Scope)
    requires Promising(s, record, scope) && record.status == Active && ttl > 0
    ensures
      var m := StoreNew(Numbered(s), token, record, ttl);
      token in ScopeMembers(m, scope) && Usable(m, token)
  {
  }

  lemma Creates(s: State, rid: Rid, token: Token, record: Record, ttl: int, origin: Origin, scope: Scope)
    requires At(s, rid, CreateExec(token, record, ttl, origin)) && OnTheWay(s, rid, scope) && Inv(s)
    ensures
      var s' := Apply(s, Do(rid, ""));
      Opened(s, s', token, scope) && Alongside(s, s', rid, None)
  {
    hide Apply, Goto, Finish, IndexInv, MarksInv, AddMember, ScopeMembers, Usable, Alongside;
    assert PcInv(s, rid, s.requests[rid]);
    assert token !in s.tokens;
    hide RequestsInv, StoreInv, Inv, PcInv;
    AtCreateExec(s, rid, token, record, ttl, origin, "");
    StoredOpens(s, token, record, ttl, scope);
    var stored := StoreNew(Numbered(s), token, record, ttl);
    CreatedAlongside(s, stored, rid, TouchStamp(record.sessionId, token), LoggedIn(token), scope, token);
  }

  lemma CreatedAlongside(s: State, m: State, rid: Rid, pc: Pc, outcome: Outcome, scope: Scope, token: Token)
    requires m.requests == s.requests && m.now == s.now && m.lifetime == s.lifetime
    requires forall u :: u in s.tokens ==> u in m.tokens && m.tokens[u] == s.tokens[u]
    ensures
      var g, f := Goto(m, rid, pc), Finish(m, rid, outcome);
      && Alongside(s, g, rid, None) && ScopeMembers(g, scope) == ScopeMembers(m, scope)
      && Usable(g, token) == Usable(m, token)
      && Alongside(s, f, rid, None) && ScopeMembers(f, scope) == ScopeMembers(m, scope)
      && Usable(f, token) == Usable(m, token)
  {
  }

  // ---- all the way ----

  lemma ExecNone(s: State)
    ensures Exec(s, []) == s
  {
  }

  lemma ExecPrepend(s: State, e: Event, rest: seq<Event>)
    ensures Exec(s, [e] + rest) == Exec(Apply(s, e), rest)
  {
    hide Apply;
    ExecConcat(s, [e], rest);
    assert [e][..0] == [];
  }

  /** Steps of `rid` alone. */
  ghost predicate OnlySteps(events: seq<Event>, rid: Rid) {
    forall i :: 0 <= i < |events| ==> events[i].Do? && events[i].rid == rid
  }

  lemma NothingHeld(pc: Pc)
    requires pc.CreateExec?
    ensures HeldToken(pc) == None
  {
  }

  lemma CloserLater(s: State, m: State, rid: Rid, scope: Scope)
    requires rid in s.requests && Closer(s, m, rid, scope)
    ensures rid in m.requests && Rank(m.requests[rid]) < Rank(s.requests[rid]) && OnTheWay(m, rid, scope)
    ensures m.lifetime == s.lifetime
  {
  }

  lemma OpenedLater(s: State, m: State, s': State, rid: Rid, token: Token, scope: Scope)
    requires rid in s.requests && Closer(s, m, rid, scope) && rid in m.requests
    requires Inv(s) && Evolves(s, m, Some(rid)) && Alongside(m, s', rid, HeldToken(m.requests[rid]))
    requires Opened(m, s', token, scope)
    ensures Opened(s, s', token, scope) && Alongside(s, s', rid, HeldToken(s.requests[rid]))
  {
    hide IndexInv, MarksInv, RequestsInv, HeldToken, Rank;
    forall u | u in s.tokens ensures u in s.order {
      assert Copy(s, u, s.tokens[u].record);
    }
  }

  /** A request that can still create a token in scope can do so by its own steps, in no time. */
  lemma {:induction false} GoesOn(s: State, rid: Rid, scope: Scope) returns (events: seq<Event>, token: Token)
    requires Inv(s) && s.lifetime > 0 && OnTheWay(s, rid, scope)
    ensures OnlySteps(events, rid)
    ensures
      var s' := Exec(s, events);
      Opened(s, s', token, scope) && Alongside(s, s', rid, HeldToken(s.requests[rid])) && Inv(s')
    decreases Rank(s.requests[rid])
  {
    hide Inv, Apply, Opened, Alongside, HeldToken, CanCreate, Exec, Closer;
    var pc := s.requests[rid];
    if pc.CreateExec? {
      token := pc.token;
      Creates(s, rid, token, pc.record, pc.ttl, pc.origin, scope);
      DoKeeps(s, rid, "");
      NothingHeld(pc);
      events := [Do(rid, "")] + [];
      ExecPrepend(s, Do(rid, ""), []);
      ExecNone(Apply(s, Do(rid, "")));
    } else {
      var pick := StepCloser(s, rid, scope);
      var m := Apply(s, Do(rid, pick));
      DoKeeps(s, rid, pick);
      CloserLater(s, m, rid, scope);
      var rest;
      rest, token := GoesOn(m, rid, scope);
      events := [Do(rid, pick)] + rest;
      ExecPrepend(s, Do(rid, pick), rest);
      OpenedLater(s, m, Exec(m, rest), rid, token, scope);
    }
  }

  // ---- exactly when ----

  /** No continuation without a login of the user makes a token of the scope usable. */
  ghost predicate UnusableForGood(s: State, scope: Scope) {
    forall events :: Undisturbed(events, scope) ==> NoneUsable(Exec(s, events), scope)
  }

  ghost predicate NobodyCreates(s: State, scope: Scope) {
    forall r :: r in s.requests ==> !CanCreate(s, s.requests[r], scope)
  }

  /** A session that does not exist yet can be created by anybody's login. */
  lemma UnknownReopens(s: State, scope: Scope)
    requires Inv(s) && s.lifetime > 0 && !Known(s, scope)
    ensures !UnusableForGood(s, scope)
  {
    hide Inv, Apply, Exec;
    var rid := FreshNat(s.requests.Keys + s.results.Keys);
    var e := Start(rid, Login("", "", ""));
    var m := Apply(s, e);
    ApplyKeeps(s, e);
    LifetimeKept(s, e);
    LoginOnTheWay(s, rid, scope);
    var rest, token := GoesOn(m, rid, scope);
    ExecPrepend(s, e, rest);
    assert Undisturbed([e] + rest, scope);
    assert !NoneUsable(Exec(s, [e] + rest), scope);
  }

  lemma LoginOnTheWay(s: State, rid: Rid, scope: Scope)
    requires rid !in s.requests && rid !in s.results && !Known(s, scope)
    ensures OnTheWay(Apply(s, Start(rid, Login("", "", ""))), rid, scope)
  {
    hide DoStep;
  }

  /** A request that can create a token does. */
  lemma CreatorReopens(s: State, rid: Rid, scope: Scope)
    requires Inv(s) && s.lifetime > 0 && OnTheWay(s, rid, scope)
    ensures !UnusableForGood(s, scope)
  {
    hide Inv, Exec, CanCreate;
    var events, token := GoesOn(s, rid, scope);
    assert Undisturbed(events, scope);
    assert !NoneUsable(Exec(s, events), scope);
  }

  lemma QuietForGood(s: State, scope: Scope)
    requires Inv(s) && Known(s, scope) && NoneUsable(s, scope) && NobodyCreates(s, scope)
    ensures UnusableForGood(s, scope)
  {
    hide Inv, Exec, CanCreate, NoneUsable;
    SpentUnusable(s, scope);
    assert Quiet(s, scope, false);
    forall events | Undisturbed(events, scope) ensures NoneUsable(Exec(s, events), scope) {
      RunQuietly(s, events, scope, false);
      RunKeeps(s, events);
      QuietSpent(Exec(s, events), scope, false);
      SpentUnusable(Exec(s, events), scope);
    }
  }

  /**
   Exactly when a user or a session is out of reach for good, in every reachable state: when no
   token of theirs is usable and no request in flight can still create one. That is a login of
   the user before its token is stored, or a refresh that has read a token of theirs ACTIVE and
   unexpired and has not stored the new one, whatever has been revoked since.
   */
  lemma UnusableForGoodIff(now: int, lifetime: int, events: seq<Event>, scope: Scope)
    requires lifetime > 0
    ensures
      var s := Run(now, lifetime, events);
      UnusableForGood(s, scope) <==> Known(s, scope) && NoneUsable(s, scope) && NobodyCreates(s, scope)
  {
    var s := Run(now, lifetime, events);
    Reached(now, lifetime, events);
    LifetimeConstant(Init(now, lifetime), events);
    assert s.lifetime > 0;
    hide Run, Inv, CanCreate, Known, NoneUsable;
    if !Known(s, scope) {
      UnknownReopens(s, scope);
    } else if !NoneUsable(s, scope) {
      ExecNone(s);
      assert Undisturbed([], scope);
    } else if !NobodyCreates(s, scope) {
      var r :| r in s.requests && CanCreate(s, s.requests[r], scope);
      CreatorReopens(s, r, scope);
    } else {
      QuietForGood(s, scope);
    }
  }

  // ---- two refreshes that hold one token ----

  lemma HolderOnTheWay(s: State, rid: Rid, token: Token)
    requires Inv(s) && Holds(s, rid, token)
    requires token in s.births && s.now < s.births[token].expiresAt
    ensures OnTheWay(s, rid, OfSession(s.births[token].sessionId)) && token in s.order
  {
    hide StoreInv, IndexInv, MarksInv;
    assert PcInv(s, rid, s.requests[rid]);
  }

  lemma StaysOnTheWay(s: State, s': State, rid: Rid, other: Rid, held: Option<Token>, scope: Scope)
    requires Alongside(s, s', rid, held) && other != rid && OnTheWay(s, other, scope) && Known(s, scope)
    requires forall i :: i in s.sessions ==> i in s'.sessions
    ensures OnTheWay(s', other, scope) && s'.requests[other] == s.requests[other]
  {
    assert other in s.requests - {rid};
    assert other in s'.requests - {rid} && (s'.requests - {rid})[other] == (s.requests - {rid})[other];
  }

  lemma {:induction false} SessionsStay(s: State, events: seq<Event>)
    requires Inv(s)
    ensures forall i :: i in s.sessions ==> i in Exec(s, events).sessions
    ensures forall t :: t in s.births ==> t in Exec(s, events).births && Exec(s, events).births[t] == s.births[t]
    ensures forall t :: t in s.order ==> t in Exec(s, events).order
  {
    hide Inv, Apply;
    if events != [] {
      var before := events[..|events| - 1];
      SessionsStay(s, before);
      RunKeeps(s, before);
      ApplyKeeps(Exec(s, before), events[|events| - 1]);
      var actor :| Evolves(Exec(s, before), Exec(s, events), actor);
    }
  }

  lemma StoredStays(m: State, s': State, rid: Rid, held: Token, token: Token)
    requires Usable(m, token) && Alongside(m, s', rid, Some(held)) && token != held
    ensures Usable(s', token) && token in m.tokens
  {
  }

  lemma IndexStays(m: State, events: seq<Event>, token: Token, scope: Scope)
    requires Inv(m) && Inv(Exec(m, events)) && token in ScopeMembers(m, scope)
    ensures token in ScopeMembers(Exec(m, events), scope)
  {
    SessionsStay(m, events);
    hide Inv, Exec, ScopeMembers;
    MemberInScope(m, scope, token);
    MemberInScope(Exec(m, events), scope, token);
  }

  lemma BothGoOn(s: State, r: Rid, q: Rid, token: Token, scope: Scope)
    returns (more: seq<Event>, first: Token, second: Token)
    requires Inv(s) && s.lifetime > 0 && r != q && OnTheWay(s, r, scope) && OnTheWay(s, q, scope)
    requires Holds(s, r, token) && Holds(s, q, token) && token in s.order && Known(s, scope)
    ensures forall i :: 0 <= i < |more| ==> more[i].Do? && more[i].rid in {r, q}
    ensures
      var s' := Exec(s, more);
      && first != second && Usable(s', first) && Usable(s', second)
      && first in ScopeMembers(s', scope) && second in ScopeMembers(s', scope)
  {
    hide Inv, Exec, CanCreate, Usable, Known;
    var one;
    one, first := GoesOn(s, r, scope);
    var m := Exec(s, one);
    SessionsStay(s, one);
    StaysOnTheWay(s, m, r, q, Some(token), scope);
    var two;
    two, second := GoesOn(m, q, scope);
    more := one + two;
    ExecConcat(s, one, two);
    StoredStays(m, Exec(m, two), q, token, first);
    IndexStays(m, two, first, scope);
  }

  /**
   In every reachable state: if two refreshes in flight hold one unexpired token, those two can go
   on, by their own steps and in no time, to two usable tokens of its session.
   */
  lemma TwoHoldersDouble(now: int, lifetime: int, events: seq<Event>, r: Rid, q: Rid, token: Token)
    returns (more: seq<Event>, first: Token, second: Token)
    requires lifetime > 0 && r != q
    requires
      var s := Run(now, lifetime, events);
      Holds(s, r, token) && Holds(s, q, token) && token in s.births && s.now < s.births[token].expiresAt
    ensures forall i :: 0 <= i < |more| ==> more[i].Do? && more[i].rid in {r, q}
    ensures
      var s := Run(now, lifetime, events);
      var s' := Exec(s, more);
      && first != second && Usable(s', first) && Usable(s', second)
      && first in Members(s'.sessionIndex, s.births[token].sessionId)
      && second in Members(s'.sessionIndex, s.births[token].sessionId)
  {
    var s := Run(now, lifetime, events);
    Reached(now, lifetime, events);
    LifetimeConstant(Init(now, lifetime), events);
    var scope := OfSession(s.births[token].sessionId);
    HolderOnTheWay(s, r, token);
    HolderOnTheWay(s, q, token);
    more, first, second := BothGoOn(s, r, q, token, scope);
  }
}
