/**
 Requests that run to their end undisturbed: a login, a refresh of a usable token, a logout. They
 show where the scheme stops. Logging out with a token that is no longer the session's ACTIVE one
 revokes the session and leaves its usable token usable; and two refreshes of one token that
 overlap leave two usable tokens.
 */
module CompleteRuns {
  import opened Options
  import opened Records
  import opened Protocol
  import opened ProtocolSteps
  import opened ProtocolInvariants
  import opened ProtocolTheorems
  import opened SerialRuns

  /** A serial run from the empty store that ends in `s`. */
  ghost predicate Ends(now: int, lifetime: int, events: seq<Event>, s: State) {
    SerialRun(Init(now, lifetime), events) && Run(now, lifetime, events) == s
  }

  lemma Next(now: int, lifetime: int, events: seq<Event>, s: State, e: Event)
    requires Ends(now, lifetime, events, s) && Serial(s, e)
    ensures Ends(now, lifetime, events + [e], Apply(s, e))
  {
    hide Apply, Serial;
    assert (events + [e])[..|events|] == events;
  }

  /** Request `rid` has not been seen yet. */
  predicate Unseen(s: State, rid: Rid) {
    rid !in s.requests && rid !in s.results
  }

  /** Where request `rid` gets to, one step for each pick. */
  function Driven(s: State, rid: Rid, picks: seq<string>): State
    decreases |picks|
  {
    if picks == [] then s else Driven(Apply(s, Do(rid, picks[0])), rid, picks[1..])
  }

  function Whole(s: State, rid: Rid, call: Call, picks: seq<string>): State {
    Driven(Apply(s, Start(rid, call)), rid, picks)
  }

  lemma {:induction false} Steps(now: int, lifetime: int, events: seq<Event>, s: State, rid: Rid, picks: seq<string>)
    returns (more: seq<Event>)
    requires Ends(now, lifetime, events, s)
    ensures Ends(now, lifetime, more, Driven(s, rid, picks))
    decreases |picks|
  {
    hide Apply, Ends;
    if picks == [] {
      more := events;
    } else {
      Next(now, lifetime, events, s, Do(rid, picks[0]));
      more := Steps(now, lifetime, events + [Do(rid, picks[0])], Apply(s, Do(rid, picks[0])), rid, picks[1..]);
    }
  }

  /** A whole undisturbed request extends a serial run. */
  lemma WholeRuns(now: int, lifetime: int, events: seq<Event>, s: State, rid: Rid, call: Call, picks: seq<string>)
    returns (more: seq<Event>)
    requires Ends(now, lifetime, events, s) && s.requests == map[]
    ensures Ends(now, lifetime, more, Whole(s, rid, call, picks))
  {
    hide Apply, Ends, Driven;
    Next(now, lifetime, events, s, Start(rid, call));
    more := Steps(now, lifetime, events + [Start(rid, call)], Apply(s, Start(rid, call)), rid, picks);
  }

  lemma {:induction false} DrivenConcat(s: State, rid: Rid, first: seq<string>, rest: seq<string>)
    ensures Driven(s, rid, first + rest) == Driven(Driven(s, rid, first), rid, rest)
    decreases |first|
  {
    hide Apply;
    if first == [] {
      assert first + rest == rest;
    } else {
      assert (first + rest)[1..] == first[1..] + rest;
      DrivenConcat(Apply(s, Do(rid, first[0])), rid, first[1..], rest);
    }
  }

  lemma DrivenThree(s: State, rid: Rid, a: string, b: string, c: string)
    ensures Driven(s, rid, [a, b, c]) == Apply(Apply(Apply(s, Do(rid, a)), Do(rid, b)), Do(rid, c))
  {
    hide Apply;
    assert [a, b, c][1..] == [b, c] && [b, c][1..] == [c] && [c][1..] == [];
    assert Driven(Apply(s, Do(rid, a)), rid, [b, c]) == Driven(Apply(Apply(s, Do(rid, a)), Do(rid, b)), rid, [c]);
  }

  // ---- the stretches of a request that no other request disturbs ----

  /** `s` with request `rid` at `pc`; the other requests stay where they are. */
  function Sole(s: State, rid: Rid, pc: Pc): State {
    s.(requests := s.requests[rid := pc])
  }

  lemma SoleGoto(s: State, rid: Rid, pc: Pc, next: Pc)
    ensures Goto(Sole(s, rid, pc), rid, next) == Sole(s, rid, next)
  {
    assert s.requests[rid := pc][rid := next] == s.requests[rid := next];
  }

  lemma SoleFinish(s: State, rid: Rid, pc: Pc, outcome: Outcome)
    requires rid !in s.requests
    ensures Finish(Sole(s, rid, pc), rid, outcome) == s.(results := s.results[rid := outcome])
  {
    assert s.requests[rid := pc] - {rid} == s.requests;
  }

  function TokenCreated(s: State, rid: Rid, userId: Id, sessionId: Id, token: Token): State {
    var expiresAt := s.now + s.lifetime;
    StoreNew(s.(steps := s.steps + 3, births := s.births[token := Birth(userId, sessionId, s.now, expiresAt, rid)]),
             token, Record(userId, sessionId, Active, s.now, expiresAt), s.lifetime)
  }

  lemma CreationBegins(s: State, rid: Rid, userId: Id, sessionId: Id, origin: Origin, token: Token)
    requires token !in s.births && s.lifetime > 0
    ensures
      var record := Record(userId, sessionId, Active, s.now, s.now + s.lifetime);
      var birth := Birth(userId, sessionId, s.now, s.now + s.lifetime, rid);
      Apply(Apply(Sole(s, rid, Mint(userId, sessionId, origin)), Do(rid, token)), Do(rid, ""))
      == Sole(s.(steps := s.steps + 2, births := s.births[token := birth]), rid,
              CreateExec(token, record, s.lifetime, origin))
  {
    hide Apply, Goto, Finish;
    var record := Record(userId, sessionId, Active, s.now, s.now + s.lifetime);
    var birth := Birth(userId, sessionId, s.now, s.now + s.lifetime, rid);
    AtMint(Sole(s, rid, Mint(userId, sessionId, origin)), rid, userId, sessionId, origin, token);
    var m := Numbered(s).(births := s.births[token := birth]);
    SoleGoto(m, rid, Mint(userId, sessionId, origin), CreateTtl(token, record, origin));
    AtCreateTtl(Sole(m, rid, CreateTtl(token, record, origin)), rid, token, record, origin, "");
    SoleGoto(Numbered(m), rid, CreateTtl(token, record, origin), CreateExec(token, record, s.lifetime, origin));
  }

  lemma CreationEnds(s: State, rid: Rid, token: Token, record: Record, ttl: int, origin: Origin)
    requires rid !in s.requests
    ensures
      var m := StoreNew(Numbered(s), token, record, ttl);
      var s' := Apply(Sole(s, rid, CreateExec(token, record, ttl, origin)), Do(rid, ""));
      && (origin == FromLogin ==> s' == m.(results := s.results[rid := LoggedIn(token)]))
      && (origin == FromRefresh ==> s' == Sole(m, rid, TouchStamp(record.sessionId, token)))
  {
    hide Apply, Goto, Finish, AddMember, Members;
    var pc := CreateExec(token, record, ttl, origin);
    AtCreateExec(Sole(s, rid, pc), rid, token, record, ttl, origin, "");
    var m := StoreNew(Numbered(s), token, record, ttl);
    assert StoreNew(Numbered(Sole(s, rid, pc)), token, record, ttl) == Sole(m, rid, pc);
    SoleGoto(m, rid, pc, TouchStamp(record.sessionId, token));
    SoleFinish(m, rid, pc, LoggedIn(token));
  }

  lemma CreationSteps(s: State, rid: Rid, userId: Id, sessionId: Id, origin: Origin, token: Token)
    requires rid !in s.requests && token !in s.births && s.lifetime > 0
    ensures
      var m := TokenCreated(s, rid, userId, sessionId, token);
      var s' := Driven(Sole(s, rid, Mint(userId, sessionId, origin)), rid, [token, "", ""]);
      && (origin == FromLogin ==> s' == m.(results := s.results[rid := LoggedIn(token)]))
      && (origin == FromRefresh ==> s' == Sole(m, rid, TouchStamp(sessionId, token)))
  {
    hide Apply, AddMember, Members, Driven;
    var record := Record(userId, sessionId, Active, s.now, s.now + s.lifetime);
    var birth := Birth(userId, sessionId, s.now, s.now + s.lifetime, rid);
    DrivenThree(Sole(s, rid, Mint(userId, sessionId, origin)), rid, token, "", "");
    CreationBegins(s, rid, userId, sessionId, origin, token);
    CreationEnds(s.(steps := s.steps + 2, births := s.births[token := birth]), rid, token, record, s.lifetime, origin);
  }

  function StatusSet(s: State, token: Token, status: TokenStatus): State
    requires token in s.tokens
  {
    var record := s.tokens[token].record.(status := status);
    s.(steps := s.steps + 3, tokens := s.tokens[token := Entry(record, record.expiresAt)])
  }

  /** UpdateStatus on a visible token that has not expired. */
  lemma UpdateSteps(s: State, rid: Rid, token: Token, goal: Goal)
    requires Lookup(s.tokens, s.now, token).Some? && s.now < s.tokens[token].record.expiresAt
    ensures
      var record := s.tokens[token].record.(status := Target(goal));
      var pc := UpdateSet(token, record, record.expiresAt - s.now, s.now, goal);
      Driven(Sole(s, rid, UpdateFind(token, goal)), rid, ["", "", ""])
      == UpdateDone(Sole(StatusSet(s, token, Target(goal)), rid, pc), rid, token, s.now, goal)
  {
    hide Apply, Driven, UpdateDone, UpdateMissing, Goto;
    var record := s.tokens[token].record.(status := Target(goal));
    var ttl := record.expiresAt - s.now;
    var s0 := Sole(s, rid, UpdateFind(token, goal));
    DrivenThree(s0, rid, "", "", "");
    AtUpdateFind(s0, rid, token, goal, "");
    SoleGoto(Numbered(s), rid, UpdateFind(token, goal), UpdateTtl(token, record, goal));
    var s1 := Sole(Numbered(s), rid, UpdateTtl(token, record, goal));
    assert Apply(s0, Do(rid, "")) == s1;
    hide DoUpdateFind;
    AtUpdateTtl(s1, rid, token, record, goal, "");
    var pc := UpdateSet(token, record, ttl, s.now, goal);
    SoleGoto(Numbered(Numbered(s)), rid, UpdateTtl(token, record, goal), pc);
    var s2 := Sole(Numbered(Numbered(s)), rid, pc);
    assert Apply(s1, Do(rid, "")) == s2;
    hide DoUpdateTtl;
    AtUpdateSet(s2, rid, token, record, ttl, s.now, goal, "");
  }

  // ---- whole requests ----

  lemma Started(s: State, rid: Rid, call: Call)
    requires Unseen(s, rid)
    ensures Apply(s, Start(rid, call)) == Sole(Numbered(s), rid, Entry0(call, s.now))
  {
    hide DoStep;
  }

  /** A login up to its session row. */
  lemma SeatSteps(s: State, rid: Rid, userId: Id, sessionId: Id)
    requires Unseen(s, rid) && sessionId !in s.sessions
    ensures
      var row := Session(userId, "", "", SessionActive, s.now, s.now);
      Driven(Apply(s, Start(rid, Login(userId, "", ""))), rid, [sessionId]) ==
      Sole(s.(steps := s.steps + 2, sessions := s.sessions[sessionId := row]), rid, Mint(userId, sessionId, FromLogin))
  {
    hide Apply, Driven, Goto;
    var row := Session(userId, "", "", SessionActive, s.now, s.now);
    Started(s, rid, Login(userId, "", ""));
    var n := Numbered(s);
    var s0 := Sole(n, rid, LoginInsert(row));
    DrivenOne(s0, rid, sessionId);
    AtLoginInsert(s0, rid, row, sessionId);
    var inserted := Numbered(n).(sessions := s.sessions[sessionId := row]);
    SoleGoto(inserted, rid, LoginInsert(row), Mint(userId, sessionId, FromLogin));
  }

  /** A login with a correct password. */
  lemma LoginCompletes(s: State, rid: Rid, userId: Id, sessionId: Id, token: Token)
    requires Unseen(s, rid) && s.lifetime > 0 && sessionId !in s.sessions && token !in s.births
    ensures
      var record := Record(userId, sessionId, Active, s.now, s.now + s.lifetime);
      var s' := Whole(s, rid, Login(userId, "", ""), [sessionId] + [token, "", ""]);
      && s'.requests == s.requests && s'.results == s.results[rid := LoggedIn(token)]
      && s'.now == s.now && s'.lifetime == s.lifetime && s'.births.Keys == s.births.Keys + {token}
      && s'.tokens == s.tokens[token := Entry(record, record.expiresAt)] && sessionId in s'.sessions
  {
    hide Apply, AddMember, Members, Driven, Sole;
    var row := Session(userId, "", "", SessionActive, s.now, s.now);
    DrivenConcat(Apply(s, Start(rid, Login(userId, "", ""))), rid, [sessionId], [token, "", ""]);
    SeatSteps(s, rid, userId, sessionId);
    var seated := s.(steps := s.steps + 2, sessions := s.sessions[sessionId := row]);
    CreationSteps(seated, rid, userId, sessionId, FromLogin, token);
  }

  /** A refresh up to its check. */
  lemma ReadSteps(s: State, rid: Rid, token: Token)
    requires Unseen(s, rid) && Lookup(s.tokens, s.now, token).Some?
    ensures
      Whole(s, rid, Refresh(token), [""]) ==
      Sole(s.(steps := s.steps + 2), rid, RefreshCheck(token, s.tokens[token].record, s.steps + 2))
  {
    hide Apply, Driven, Goto;
    var record := s.tokens[token].record;
    var n := Numbered(s);
    Started(s, rid, Refresh(token));
    DrivenOne(Sole(n, rid, RefreshFind(token)), rid, "");
    AtRefreshFind(Sole(n, rid, RefreshFind(token)), rid, token, "");
    SoleGoto(Numbered(n), rid, RefreshFind(token), RefreshCheck(token, record, s.steps + 2));
  }

  /** A refresh that read its token ACTIVE, from its check up to the point where it runs UpdateStatus. */
  lemma CheckSteps(s: State, rid: Rid, token: Token, record: Record, readAt: nat)
    requires record.status == Active && s.now <= record.expiresAt
    ensures
      Driven(Sole(s, rid, RefreshCheck(token, record, readAt)), rid, [""] + [""]) ==
      Sole(s.(steps := s.steps + 2), rid, UpdateFind(token, MarkUsed(record, readAt)))
  {
    hide Apply, Driven, Goto;
    var s1 := Sole(s, rid, RefreshCheck(token, record, readAt));
    DrivenConcat(s1, rid, [""], [""]);
    DrivenOne(s1, rid, "");
    AtRefreshCheck(s1, rid, token, record, readAt, "");
    var m := Numbered(s);
    SoleGoto(m, rid, RefreshCheck(token, record, readAt), RefreshUser(token, record, readAt));
    var s2 := Sole(m, rid, RefreshUser(token, record, readAt));
    assert Apply(s1, Do(rid, "")) == s2;
    hide DoRefreshCheck;
    DrivenOne(s2, rid, "");
    AtRefreshUser(s2, rid, token, record, readAt, "");
    SoleGoto(Numbered(m), rid, RefreshUser(token, record, readAt), UpdateFind(token, MarkUsed(record, readAt)));
  }

  lemma TouchSteps(s: State, rid: Rid, sessionId: Id, next: Token)
    requires rid !in s.requests
    ensures
      var s' := Driven(Sole(s, rid, TouchStamp(sessionId, next)), rid, ["", ""]);
      && s'.requests == s.requests && s'.results == s.results[rid := Refreshed(next)] && s'.now == s.now
      && s'.tokens == s.tokens && s'.sessions.Keys == s.sessions.Keys
      && s'.lifetime == s.lifetime && s'.births == s.births
  {
    hide Apply, Driven, Goto, Finish;
    var s0 := Sole(s, rid, TouchStamp(sessionId, next));
    AtTouchStamp(s0, rid, sessionId, next, "");
    SoleGoto(Numbered(s), rid, TouchStamp(sessionId, next), Touch(sessionId, s.now, next));
    var pc := Touch(sessionId, s.now, next);
    var s1 := Sole(Numbered(s), rid, pc);
    AtTouch(s1, rid, sessionId, s.now, next, "");
    DrivenConcat(s0, rid, [""], [""]);
    assert [""] + [""] == ["", ""];
    DrivenOne(s0, rid, "");
    DrivenOne(s1, rid, "");
    SoleFinish(Numbered(Numbered(s)).(sessions := TouchRow(s.sessions, sessionId, s.now)), rid, pc, Refreshed(next));
  }

  /** The picks of a refresh that has read its token and creates `next`. */
  function RedeemPicks(next: Token): seq<string> {
    ([""] + [""]) + (["", "", ""] + ([next, "", ""] + ["", ""]))
  }

  /** From UpdateStatus on. */
  lemma MarkSteps(s: State, rid: Rid, token: Token, record: Record, readAt: nat, next: Token)
    requires rid !in s.requests && s.lifetime > 0 && next !in s.births
    requires Lookup(s.tokens, s.now, token).Some? && s.now < s.tokens[token].record.expiresAt
    ensures
      var spent := s.tokens[token].record.(status := Used);
      var renewed := Record(record.userId, record.sessionId, Active, s.now, s.now + s.lifetime);
      var s' := Driven(Sole(s, rid, UpdateFind(token, MarkUsed(record, readAt))), rid,
                       ["", "", ""] + ([next, "", ""] + ["", ""]));
      && s'.requests == s.requests && s'.results == s.results[rid := Refreshed(next)] && s'.now == s.now
      && s'.tokens == s.tokens[token := Entry(spent, spent.expiresAt)][next := Entry(renewed, renewed.expiresAt)]
      && s'.sessions.Keys == s.sessions.Keys && s'.lifetime == s.lifetime && s'.births.Keys == s.births.Keys + {next}
  {
    hide Apply, Driven, AddMember, Members, Goto;
    var goal := MarkUsed(record, readAt);
    DrivenConcat(Sole(s, rid, UpdateFind(token, goal)), rid, ["", "", ""], [next, "", ""] + ["", ""]);
    UpdateSteps(s, rid, token, goal);
    var w := StatusSet(s, token, Used);
    var spent := s.tokens[token].record.(status := Used);
    var marked := w.(marks := w.marks[rid := Mark(token, readAt, w.steps, s.now)]);
    var pc := Mint(record.userId, record.sessionId, FromRefresh);
    SoleGoto(marked, rid, UpdateSet(token, spent, spent.expiresAt - s.now, s.now, goal), pc);
    DrivenConcat(Sole(marked, rid, pc), rid, [next, "", ""], ["", ""]);
    CreationSteps(marked, rid, record.userId, record.sessionId, FromRefresh, next);
    TouchSteps(TokenCreated(marked, rid, record.userId, record.sessionId, next), rid, record.sessionId, next);
  }

  /**
   A refresh that has read its token ACTIVE creates `next`, as long as the token is still visible
   and unexpired, whatever its status is by now.
   */
  lemma RedeemCompletes(s: State, rid: Rid, token: Token, record: Record, readAt: nat, next: Token)
    requires rid !in s.requests && s.lifetime > 0 && next !in s.births
    requires record.status == Active && s.now <= record.expiresAt
    requires Lookup(s.tokens, s.now, token).Some? && s.now < s.tokens[token].record.expiresAt
    ensures
      var spent := s.tokens[token].record.(status := Used);
      var renewed := Record(record.userId, record.sessionId, Active, s.now, s.now + s.lifetime);
      var s' := Driven(Sole(s, rid, RefreshCheck(token, record, readAt)), rid, RedeemPicks(next));
      && s'.requests == s.requests && s'.results == s.results[rid := Refreshed(next)] && s'.now == s.now
      && s'.tokens == s.tokens[token := Entry(spent, spent.expiresAt)][next := Entry(renewed, renewed.expiresAt)]
      && s'.sessions.Keys == s.sessions.Keys && s'.lifetime == s.lifetime && s'.births.Keys == s.births.Keys + {next}
  {
    hide Apply, Driven;
    DrivenConcat(Sole(s, rid, RefreshCheck(token, record, readAt)), rid,
                 [""] + [""], ["", "", ""] + ([next, "", ""] + ["", ""]));
    CheckSteps(s, rid, token, record, readAt);
    MarkSteps(s.(steps := s.steps + 2), rid, token, record, readAt, next);
  }

  /** The picks of a whole refresh that creates `next`. */
  function RefreshPicks(next: Token): seq<string> {
    [""] + RedeemPicks(next)
  }

  /** A refresh of a usable token: the old token is USED, the new one ACTIVE in the same session. */
  lemma RefreshCompletes(s: State, rid: Rid, token: Token, next: Token)
    requires Unseen(s, rid) && s.lifetime > 0 && Usable(s, token) && next !in s.births
    ensures
      var spent := s.tokens[token].record.(status := Used);
      var renewed := Record(spent.userId, spent.sessionId, Active, s.now, s.now + s.lifetime);
      var s' := Whole(s, rid, Refresh(token), RefreshPicks(next));
      && s'.requests == s.requests && s'.results == s.results[rid := Refreshed(next)] && s'.now == s.now
      && s'.tokens == s.tokens[token := Entry(spent, spent.expiresAt)][next := Entry(renewed, renewed.expiresAt)]
      && s'.sessions.Keys == s.sessions.Keys && s'.lifetime == s.lifetime && s'.births.Keys == s.births.Keys + {next}
  {
    hide Apply, Driven, RedeemPicks;
    DrivenConcat(Apply(s, Start(rid, Refresh(token))), rid, [""], RedeemPicks(next));
    ReadSteps(s, rid, token);
    RedeemCompletes(s.(steps := s.steps + 2), rid, token, s.tokens[token].record, s.steps + 2, next);
  }

  /** A logout with a visible, unexpired token, up to its session. */
  lemma LogoutSteps(s: State, rid: Rid, token: Token)
    requires Unseen(s, rid) && Lookup(s.tokens, s.now, token).Some? && s.now < s.tokens[token].record.expiresAt
    ensures
      var revoked := s.tokens[token].record.(status := Revoked);
      Whole(s, rid, Logout(token), [""] + ["", "", ""]) ==
      Sole(s.(steps := s.steps + 5, tokens := s.tokens[token := Entry(revoked, revoked.expiresAt)]),
           rid, RevokeRows(OfSession(revoked.sessionId), Requested, {}))
  {
    hide Apply, Driven, Goto;
    var record := s.tokens[token].record;
    var goal := LogoutToken(Some(record));
    var n := Numbered(s);
    var s0 := Sole(n, rid, LogoutFind(token));
    Started(s, rid, Logout(token));
    AtLogoutFind(s0, rid, token, "");
    SoleGoto(Numbered(n), rid, LogoutFind(token), UpdateFind(token, goal));
    DrivenOne(s0, rid, "");
    DrivenConcat(s0, rid, [""], ["", "", ""]);
    hide DoLogoutFind, Entry0;
    UpdateSteps(Numbered(n), rid, token, goal);
    var pc := UpdateSet(token, record.(status := Revoked), record.expiresAt - s.now, s.now, goal);
    SoleGoto(StatusSet(Numbered(n), token, Revoked), rid, pc, RevokeRows(OfSession(record.sessionId), Requested, {}));
  }

  /** The picks of a whole logout. */
  function LogoutPicks(): seq<string> {
    [""] + ["", "", ""] + [""]
  }

  /** A logout: the token is REVOKED, whatever its status was, and then its session. */
  lemma LogoutCompletes(s: State, rid: Rid, token: Token)
    requires Unseen(s, rid) && Lookup(s.tokens, s.now, token).Some? && s.now < s.tokens[token].record.expiresAt
    ensures
      var revoked := s.tokens[token].record.(status := Revoked);
      var s' := Whole(s, rid, Logout(token), LogoutPicks());
      && s'.requests == s.requests && s'.results == s.results[rid := Done] && s'.now == s.now
      && s'.tokens == s.tokens[token := Entry(revoked, revoked.expiresAt)]
      && s'.sessions == RevokeRow(s.sessions, revoked.sessionId)
      && s'.sessionIndex == s.sessionIndex && s'.births == s.births && s'.order == s.order && s'.lifetime == s.lifetime
  {
    hide Apply, Driven, Goto, Finish;
    var record := s.tokens[token].record;
    var revoked := record.(status := Revoked);
    LogoutSteps(s, rid, token);
    DrivenConcat(Apply(s, Start(rid, Logout(token))), rid, [""] + ["", "", ""], [""]);
    var m := s.(steps := s.steps + 5, tokens := s.tokens[token := Entry(revoked, revoked.expiresAt)]);
    var pc := RevokeRows(OfSession(record.sessionId), Requested, {});
    hide Whole;
    AtRevokeRows(Sole(m, rid, pc), rid, OfSession(record.sessionId), Requested, {}, "");
    DrivenOne(Sole(m, rid, pc), rid, "");
    SoleFinish(Numbered(m).(sessions := RevokeRow(s.sessions, record.sessionId)), rid, pc, Done);
  }

  lemma DrivenOne(s: State, rid: Rid, pick: string)
    ensures Driven(s, rid, [pick]) == Apply(s, Do(rid, pick))
  {
    hide Apply;
  }

  // ---- the smallest cases ----

  lemma FirstLogin(lifetime: nat, userId: Id, sessionId: Id, first: Token) returns (events: seq<Event>, s: State)
    requires lifetime > 0
    ensures Ends(0, lifetime, events, s) && s.requests == map[] && s.results.Keys == {1}
    ensures s.now == 0 && s.lifetime == lifetime && sessionId in s.sessions && s.births.Keys == {first}
    ensures s.tokens == map[first := Entry(Record(userId, sessionId, Active, 0, lifetime), lifetime)]
  {
    var s0 := Init(0, lifetime);
    assert Ends(0, lifetime, [], s0);
    hide Ends, Whole, Driven, Apply;
    LoginCompletes(s0, 1, userId, sessionId, first);
    s := Whole(s0, 1, Login(userId, "", ""), [sessionId] + [first, "", ""]);
    events := WholeRuns(0, lifetime, [], s0, 1, Login(userId, "", ""), [sessionId] + [first, "", ""]);
  }

  lemma FirstUsable(m: State, first: Token)
    requires first in m.tokens && m.tokens[first].record.status == Active
    requires m.now < m.tokens[first].record.expiresAt <= m.tokens[first].deadline
    ensures Usable(m, first)
  {
  }

  /** A login and a refresh after it. */
  lemma LoginThenRefresh(lifetime: nat, userId: Id, sessionId: Id, first: Token, second: Token)
    returns (events: seq<Event>, s: State)
    requires lifetime > 0 && first != second
    ensures Ends(0, lifetime, events, s)
    ensures s.requests == map[] && s.results.Keys == {1, 2} && s.now == 0 && s.lifetime == lifetime
    ensures sessionId in s.sessions && s.births.Keys == {first, second}
    ensures
      var spent := Record(userId, sessionId, Used, 0, lifetime);
      s.tokens == map[first := Entry(spent, lifetime), second := Entry(spent.(status := Active), lifetime)]
  {
    hide Ends, Whole, Driven, Apply, RefreshPicks, Usable;
    var before, m := FirstLogin(lifetime, userId, sessionId, first);
    FirstUsable(m, first);
    RefreshCompletes(m, 2, first, second);
    s := Whole(m, 2, Refresh(first), RefreshPicks(second));
    events := WholeRuns(0, lifetime, before, m, 2, Refresh(first), RefreshPicks(second));
  }

  /**
   The smallest serial case, for any lifetime, user and ids: log in, refresh, and log out with the
   first token. The session is REVOKED, its second token is usable, and a refresh with it
   succeeds. So that a REVOKED session has no usable token needs logouts to be presentable.
   */
  lemma StaleLogoutKeepsAccess(lifetime: nat, userId: Id, sessionId: Id, first: Token, second: Token, third: Token)
    returns (events: seq<Event>, s: State)
    requires lifetime > 0 && first != second && first != third && second != third
    ensures Ends(0, lifetime, events, s) && Unseen(s, 4)
    ensures sessionId in s.sessions && s.sessions[sessionId].status == SessionRevoked
    ensures Usable(s, second) && s.tokens[second].record.sessionId == sessionId
    ensures
      var s' := Whole(s, 4, Refresh(second), RefreshPicks(third));
      4 in s'.results && s'.results[4] == Refreshed(third)
  {
    var before, m := LoginThenRefresh(lifetime, userId, sessionId, first, second);
    hide Ends, Whole, Driven, Apply;
    LogoutCompletes(m, 3, first);
    s := Whole(m, 3, Logout(first), LogoutPicks());
    events := WholeRuns(0, lifetime, before, m, 3, Logout(first), LogoutPicks());
    RefreshCompletes(s, 4, second, third);
  }

  // ---- two refreshes of one token at the same time ----

  lemma {:induction false} DrivenRuns(s: State, rid: Rid, picks: seq<string>) returns (events: seq<Event>)
    ensures Exec(s, events) == Driven(s, rid, picks)
    decreases |picks|
  {
    hide Apply;
    if picks == [] {
      events := [];
    } else {
      var rest := DrivenRuns(Apply(s, Do(rid, picks[0])), rid, picks[1..]);
      events := [Do(rid, picks[0])] + rest;
      ExecConcat(s, [Do(rid, picks[0])], rest);
      assert [Do(rid, picks[0])][..0] == [];
    }
  }

  lemma WholeExec(s: State, rid: Rid, call: Call, picks: seq<string>) returns (events: seq<Event>)
    ensures Exec(s, events) == Whole(s, rid, call, picks) && events != [] && events[0] == Start(rid, call)
  {
    hide Apply, Driven;
    var rest := DrivenRuns(Apply(s, Start(rid, call)), rid, picks);
    events := [Start(rid, call)] + rest;
    ExecConcat(s, [Start(rid, call)], rest);
    assert [Start(rid, call)][..0] == [];
  }

  /** One refresh has read the token when another redeems it; then the first goes on. */
  function Overlapping(m: State, first: Token, second: Token, third: Token): State {
    var reading := Whole(m, 2, Refresh(first), [""]);
    var redeemed := Whole(reading, 3, Refresh(first), RefreshPicks(second));
    Driven(redeemed, 2, RedeemPicks(third))
  }

  /** The other refresh, while `rid` has read its token and waits. */
  lemma RedeemedMeanwhile(m: State, first: Token, second: Token) returns (parked: State)
    requires Unseen(m, 2) && Unseen(m, 3) && m.lifetime > 0 && Usable(m, first) && second !in m.births
    requires first != second
    ensures
      Whole(Whole(m, 2, Refresh(first), [""]), 3, Refresh(first), RefreshPicks(second)) ==
      Sole(parked, 2, RefreshCheck(first, m.tokens[first].record, m.steps + 2))
    ensures
      var record := m.tokens[first].record;
      var renewed := Record(record.userId, record.sessionId, Active, m.now, m.now + m.lifetime);
      && parked.now == m.now && parked.lifetime == m.lifetime && parked.requests == m.requests
      && parked.results == m.results[3 := Refreshed(second)] && parked.births.Keys == m.births.Keys + {second}
      && var spent := Entry(record.(status := Used), record.expiresAt);
         parked.tokens == m.tokens[first := spent][second := Entry(renewed, renewed.expiresAt)]
  {
    hide Apply, Driven, RedeemPicks, RefreshPicks, Whole, ActiveIn;
    var pc := RefreshCheck(first, m.tokens[first].record, m.steps + 2);
    ReadSteps(m, 2, first);
    var a := Sole(m.(steps := m.steps + 2), 2, pc);
    RefreshCompletes(a, 3, first, second);
    var b := Whole(a, 3, Refresh(first), RefreshPicks(second));
    parked := b.(requests := m.requests);
    assert b == Sole(parked, 2, pc);
  }

  lemma OverlapRenewsTwice(m: State, first: Token, second: Token, third: Token)
    requires Unseen(m, 2) && Unseen(m, 3) && m.lifetime > 0 && Usable(m, first)
    requires second !in m.births && third !in m.births && second != third && first != second && first != third
    ensures
      var s := Overlapping(m, first, second, third);
      var record := m.tokens[first].record;
      var expiresAt := m.now + m.lifetime;
      var renewed := Entry(Record(record.userId, record.sessionId, Active, m.now, expiresAt), expiresAt);
      && s.now == m.now && s.requests == m.requests
      && s.results == m.results[3 := Refreshed(second)][2 := Refreshed(third)]
      && second in s.tokens && s.tokens[second] == renewed && third in s.tokens && s.tokens[third] == renewed
  {
    hide Apply, Driven, RedeemPicks, RefreshPicks, Whole, ActiveIn;
    var parked := RedeemedMeanwhile(m, first, second);
    RedeemCompletes(parked, 2, first, m.tokens[first].record, m.steps + 2, third);
  }

  lemma OverlapRuns(m: State, first: Token, second: Token, third: Token) returns (events: seq<Event>)
    ensures Exec(m, events) == Overlapping(m, first, second, third)
  {
    hide Apply, Driven, RedeemPicks, RefreshPicks, Whole, Exec;
    var reading := WholeExec(m, 2, Refresh(first), [""]);
    var a := Exec(m, reading);
    var redeeming := WholeExec(a, 3, Refresh(first), RefreshPicks(second));
    var b := Exec(a, redeeming);
    var renewing := DrivenRuns(b, 2, RedeemPicks(third));
    events := reading + redeeming + renewing;
    ExecConcat(m, reading, redeeming);
    ExecConcat(m, reading + redeeming, renewing);
  }

  /**
   The bound on ACTIVE tokens needs its condition: log in, and let two refreshes present the one
   token, the second of them between the first one's read and its mark. Both succeed, and the
   session has two usable tokens.
   */
  lemma OverlapMakesTwo(lifetime: nat, userId: Id, sessionId: Id, first: Token, second: Token, third: Token)
    returns (events: seq<Event>, s: State)
    requires lifetime > 0 && first != second && first != third && second != third
    ensures s == Run(0, lifetime, events) && s.requests == map[]
    ensures 2 in s.results && s.results[2] == Refreshed(third) && 3 in s.results && s.results[3] == Refreshed(second)
    ensures Usable(s, second) && Usable(s, third)
    ensures s.tokens[second].record.sessionId == sessionId == s.tokens[third].record.sessionId
  {
    var before, m := FirstLogin(lifetime, userId, sessionId, first);
    hide Overlapping;
    var more := OverlapRuns(m, first, second, third);
    s := Overlapping(m, first, second, third);
    OverlapRenewsTwice(m, first, second, third);
    events := before + more;
    ExecConcat(Init(0, lifetime), before, more);
  }

  // ---- a logout that a refresh overtakes ----

  /** A refresh has read the token when its session is logged out with it; then the refresh goes on. */
  function Overtaken(m: State, first: Token, second: Token): State {
    var reading := Whole(m, 2, Refresh(first), [""]);
    var loggedOut := Whole(reading, 3, Logout(first), LogoutPicks());
    Driven(loggedOut, 2, RedeemPicks(second))
  }

  lemma LoggedOutMeanwhile(m: State, first: Token) returns (parked: State)
    requires Unseen(m, 2) && Unseen(m, 3) && Usable(m, first)
    ensures
      Whole(Whole(m, 2, Refresh(first), [""]), 3, Logout(first), LogoutPicks()) ==
      Sole(parked, 2, RefreshCheck(first, m.tokens[first].record, m.steps + 2))
    ensures
      var revoked := m.tokens[first].record.(status := Revoked);
      && parked.now == m.now && parked.lifetime == m.lifetime && parked.requests == m.requests
      && parked.results == m.results[3 := Done] && parked.births == m.births
      && parked.tokens == m.tokens[first := Entry(revoked, revoked.expiresAt)]
      && parked.sessions == RevokeRow(m.sessions, revoked.sessionId)
  {
    hide Apply, Driven, LogoutPicks, Whole, ActiveIn, RevokeRow;
    var pc := RefreshCheck(first, m.tokens[first].record, m.steps + 2);
    ReadSteps(m, 2, first);
    var a := Sole(m.(steps := m.steps + 2), 2, pc);
    LogoutCompletes(a, 3, first);
    var b := Whole(a, 3, Logout(first), LogoutPicks());
    parked := b.(requests := m.requests);
    assert b == Sole(parked, 2, pc);
  }

  lemma OvertakenRenews(m: State, first: Token, second: Token)
    requires Unseen(m, 2) && Unseen(m, 3) && m.lifetime > 0 && Usable(m, first) && second !in m.births
    requires first != second
    ensures
      var s := Overtaken(m, first, second);
      && s.requests == m.requests && s.results == m.results[3 := Done][2 := Refreshed(second)]
      && Usable(s, second) && s.tokens[second].record.sessionId == m.tokens[first].record.sessionId
  {
    hide Apply, Driven, RedeemPicks, LogoutPicks, Whole, ActiveIn, RevokeRow;
    var parked := LoggedOutMeanwhile(m, first);
    RedeemCompletes(parked, 2, first, m.tokens[first].record, m.steps + 2, second);
  }

  /** The run: the refresh reads, the logout is `Start` and what follows, the refresh goes on. */
  lemma OvertakenRuns(m: State, first: Token, second: Token)
    returns (reading: seq<Event>, logout: seq<Event>, renewing: seq<Event>)
    ensures
      var read := Exec(m, reading);
      && read == Whole(m, 2, Refresh(first), [""])
      && logout != [] && logout[0] == Start(3, Logout(first))
      && Exec(read, logout) == Whole(read, 3, Logout(first), LogoutPicks())
      && Exec(m, reading + logout + renewing) == Overtaken(m, first, second)
  {
    hide Apply, Driven, RedeemPicks, LogoutPicks, Whole, Exec;
    reading := WholeExec(m, 2, Refresh(first), [""]);
    var a := Exec(m, reading);
    logout := WholeExec(a, 3, Logout(first), LogoutPicks());
    var b := Exec(a, logout);
    renewing := DrivenRuns(b, 2, RedeemPicks(second));
    ExecConcat(m, reading, logout);
    ExecConcat(m, reading + logout, renewing);
  }

  /** The row that the logout has revoked stays so. */
  lemma OvertakenRevoked(m: State, first: Token, logout: seq<Event>, reading: seq<Event>, renewing: seq<Event>)
    requires Inv(m) && Unseen(m, 2) && Unseen(m, 3) && Usable(m, first)
    requires Exec(m, reading + logout) == Whole(Whole(m, 2, Refresh(first), [""]), 3, Logout(first), LogoutPicks())
    ensures
      var sessionId, s := m.tokens[first].record.sessionId, Exec(m, reading + logout + renewing);
      sessionId in s.sessions && s.sessions[sessionId].status == SessionRevoked
  {
    hide Apply, Driven, Whole, LogoutPicks, Inv, Exec;
    var parked := LoggedOutMeanwhile(m, first);
    var b := Exec(m, reading + logout);
    OwnedSession(m, first);
    RunKeeps(m, reading + logout);
    RevokedForGood(b, renewing, m.tokens[first].record.sessionId);
    ExecConcat(m, reading + logout, renewing);
  }

  lemma OwnedSession(m: State, token: Token)
    requires Inv(m) && token in m.tokens
    ensures m.tokens[token].record.sessionId in m.sessions
  {
    hide IndexInv, MarksInv, RequestsInv;
    assert Copy(m, token, m.tokens[token].record);
  }

  lemma ReadPresentable(m: State, first: Token)
    requires Unseen(m, 2) && Usable(m, first)
    ensures Presentable(Whole(m, 2, Refresh(first), [""]), Logout(first))
  {
    hide Apply, Driven, Whole;
    ReadSteps(m, 2, first);
  }

  lemma OvertakenFrom(m: State, first: Token, second: Token)
    returns (reading: seq<Event>, after: seq<Event>, s: State)
    requires Inv(m) && Unseen(m, 2) && Unseen(m, 3) && m.lifetime > 0 && Usable(m, first)
    requires second !in m.births && first != second
    ensures after != [] && after[0] == Start(3, Logout(first)) && Presentable(Exec(m, reading), Logout(first))
    ensures s == Exec(m, reading + after) && s.requests == m.requests
    ensures 2 in s.results && s.results[2] == Refreshed(second) && 3 in s.results && s.results[3] == Done
    ensures
      var sessionId := m.tokens[first].record.sessionId;
      && sessionId in s.sessions && s.sessions[sessionId].status == SessionRevoked
      && Usable(s, second) && s.tokens[second].record.sessionId == sessionId
  {
    hide Overtaken, Apply, Driven, Whole, LogoutPicks, RedeemPicks, Presentable, Inv, Exec, ActiveIn;
    var logout, renewing;
    reading, logout, renewing := OvertakenRuns(m, first, second);
    s := Overtaken(m, first, second);
    OvertakenRenews(m, first, second);
    ReadPresentable(m, first);
    ExecConcat(m, reading, logout);
    OvertakenRevoked(m, first, logout, reading, renewing);
    after := logout + renewing;
    assert reading + logout + renewing == reading + after;
  }

  /**
   The serial condition is needed too: log in, let a refresh read the token, and log out with the
   same, ACTIVE token before the refresh writes its mark. Both succeed; the session is REVOKED and
   has a usable token.
   */
  lemma RefreshOvertakesLogout(lifetime: nat, userId: Id, sessionId: Id, first: Token, second: Token)
    returns (before: seq<Event>, after: seq<Event>, s: State)
    requires lifetime > 0 && first != second
    ensures after != [] && after[0] == Start(3, Logout(first)) && Presentable(Run(0, lifetime, before), Logout(first))
    ensures s == Run(0, lifetime, before + after) && s.requests == map[]
    ensures 2 in s.results && s.results[2] == Refreshed(second) && 3 in s.results && s.results[3] == Done
    ensures sessionId in s.sessions && s.sessions[sessionId].status == SessionRevoked
    ensures Usable(s, second) && s.tokens[second].record.sessionId == sessionId
  {
    hide Apply, Presentable, Inv, Exec, Run, Usable;
    var login, m := AfterFirstLogin(lifetime, userId, sessionId, first);
    var reading;
    reading, after, s := OvertakenFrom(m, first, second);
    before := login + reading;
    Prefixed(lifetime, login, reading, m);
    Prefixed(lifetime, login, reading + after, m);
    assert before + after == login + (reading + after);
  }

  lemma AfterFirstLogin(lifetime: nat, userId: Id, sessionId: Id, first: Token) returns (login: seq<Event>, m: State)
    requires lifetime > 0
    ensures Run(0, lifetime, login) == m && Inv(m) && m.lifetime > 0 && m.requests == map[] && Unseen(m, 2)
    ensures Unseen(m, 3)
    ensures Usable(m, first) && m.tokens[first].record.sessionId == sessionId && m.births.Keys == {first}
  {
    login, m := FirstLogin(lifetime, userId, sessionId, first);
    Reached(0, lifetime, login);
  }

  lemma Prefixed(lifetime: nat, login: seq<Event>, rest: seq<Event>, m: State)
    requires Run(0, lifetime, login) == m
    ensures Run(0, lifetime, login + rest) == Exec(m, rest)
  {
    ExecConcat(Init(0, lifetime), login, rest);
  }
}
