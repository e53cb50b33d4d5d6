/**
 The Timeout middleware: the handler writes to a buffer of its own while the middleware waits for
 it or for the deadline, whichever it notices first, and only then writes to the client.
 */
module TimeoutResponse {

  newtype Byte = x: int | 0 <= x < 256

  type Bytes = seq<Byte>

  type Header = map<string, seq<string>>

  const OK := 200
  const GATEWAY_TIMEOUT := 504

  /** What a handler can do to its ResponseWriter. */
  datatype Op =
    | SetHeader(key: string, value: string)
    | AddHeader(key: string, value: string)
    | DelHeader(key: string)
    | WriteHeader(code: int)
    | Write(data: Bytes)

  function Values(header: Header, key: string): seq<string> {
    if key in header then header[key] else []
  }

  function Added(header: Header, key: string, value: string): Header {
    header[key := Values(header, key) + [value]]
  }

  // ---- what the handler asked for, read off its operations ----

  /** The first status it chose; writing a body chooses 200; 0 if it chose none. */
  function FirstStatus(ops: seq<Op>): int {
    if ops == [] then 0 else
      match ops[0]
      case Write(_) => OK
      case WriteHeader(code) => if code != 0 then code else FirstStatus(ops[1..])
      case _ => FirstStatus(ops[1..])
  }

  /** All it wrote, in order. */
  function Written(ops: seq<Op>): Bytes {
    if ops == [] then [] else (if ops[0].Write? then ops[0].data else []) + Written(ops[1..])
  }

  /** What an operation asks of one header key that had the values `earlier`. */
  function AskedBy(op: Op, key: string, earlier: seq<string>): seq<string> {
    match op
    case SetHeader(k, v) => if k == key then [v] else earlier
    case AddHeader(k, v) => if k == key then earlier + [v] else earlier
    case DelHeader(k) => if k == key then [] else earlier
    case WriteHeader(_) => earlier
    case Write(_) => earlier
  }

  /** The values of one header key: those added since it was last set or deleted. */
  function ValuesAsked(ops: seq<Op>, key: string): seq<string> {
    if ops == [] then [] else AskedBy(ops[|ops| - 1], key, ValuesAsked(ops[..|ops| - 1], key))
  }

  /** The status sent for a handler that has returned. */
  function StatusToSend(ops: seq<Op>): int {
    if FirstStatus(ops) == 0 then OK else FirstStatus(ops)
  }

  // ---- the buffer ----

  datatype Buffer = Buffer(header: Header, body: Bytes, statusCode: int)

  const EMPTY := Buffer(map[], [], 0)

  function Applied(b: Buffer, op: Op): Buffer {
    match op
    case SetHeader(key, value) => b.(header := b.header[key := [value]])
    case AddHeader(key, value) => b.(header := Added(b.header, key, value))
    case DelHeader(key) => b.(header := b.header - {key})
    case WriteHeader(code) => if b.statusCode != 0 then b else b.(statusCode := code)
    case Write(data) => b.(body := b.body + data, statusCode := if b.statusCode == 0 then OK else b.statusCode)
  }

  /** The buffer holds what the operations asked for. */
  ghost predicate Holds(b: Buffer, ops: seq<Op>) {
    b.statusCode == FirstStatus(ops) && b.body == Written(ops)
    && forall key :: Values(b.header, key) == ValuesAsked(ops, key)
  }

  lemma {:induction false} FirstStatusSnoc(ops: seq<Op>, op: Op)
    ensures FirstStatus(ops + [op]) == if FirstStatus(ops) != 0 then FirstStatus(ops) else FirstStatus([op])
  {
    if ops != [] {
      assert (ops + [op])[1..] == ops[1..] + [op];
      FirstStatusSnoc(ops[1..], op);
    }
  }

  lemma {:induction false} WrittenSnoc(ops: seq<Op>, op: Op)
    ensures Written(ops + [op]) == Written(ops) + if op.Write? then op.data else []
  {
    if ops == [] {
      assert (ops + [op])[1..] == [];
    } else {
      assert (ops + [op])[1..] == ops[1..] + [op];
      WrittenSnoc(ops[1..], op);
    }
  }

  lemma StatusApplied(b: Buffer, ops: seq<Op>, op: Op)
    requires b.statusCode == FirstStatus(ops)
    ensures Applied(b, op).statusCode == FirstStatus(ops + [op])
  {
    hide Added;
    FirstStatusSnoc(ops, op);
    OneStatus(op);
  }

  lemma OneStatus(op: Op)
    ensures FirstStatus([op]) ==
      match op
      case Write(_) => OK
      case WriteHeader(code) => code
      case _ => 0
  {
    assert FirstStatus([op][1..]) == 0;
  }

  lemma BodyApplied(b: Buffer, ops: seq<Op>, op: Op)
    requires b.body == Written(ops)
    ensures Applied(b, op).body == Written(ops + [op])
  {
    hide Added;
    WrittenSnoc(ops, op);
  }

  lemma AskedSnoc(ops: seq<Op>, op: Op, key: string)
    ensures ValuesAsked(ops + [op], key) == AskedBy(op, key, ValuesAsked(ops, key))
  {
    hide AskedBy;
    var longer := ops + [op];
    assert longer[..|longer| - 1] == ops && longer[|longer| - 1] == op;
  }

  /** One operation on the values of one header key. */
  lemma ValuesApplied(b: Buffer, op: Op, key: string)
    ensures Values(Applied(b, op).header, key) == AskedBy(op, key, Values(b.header, key))
  {
    match op
    case SetHeader(k, v) => SetValues(b.header, k, [v], key);
    case AddHeader(k, v) => SetValues(b.header, k, Values(b.header, k) + [v], key);
    case DelHeader(_) =>
    case WriteHeader(_) =>
    case Write(_) =>
  }

  lemma SetValues(header: Header, k: string, values: seq<string>, key: string)
    ensures Values(header[k := values], key) == if key == k then values else Values(header, key)
  {
  }

  /** One more operation: the buffer holds what all of them asked for. */
  lemma AppliedHolds(b: Buffer, ops: seq<Op>, op: Op)
    requires Holds(b, ops)
    ensures Holds(Applied(b, op), ops + [op])
  {
    hide Applied, FirstStatus, Written, ValuesAsked, Values, AskedBy;
    StatusApplied(b, ops, op);
    BodyApplied(b, ops, op);
    forall key ensures Values(Applied(b, op).header, key) == ValuesAsked(ops + [op], key) {
      assert Values(b.header, key) == ValuesAsked(ops, key);
      AskedSnoc(ops, op, key);
      ValuesApplied(b, op, key);
    }
  }

  // ---- the same, by the positions of the operations ----

  predicate Chooses(op: Op) {
    op.Write? || (op.WriteHeader? && op.code != 0)
  }

  predicate FirstChoice(ops: seq<Op>, k: int) {
    0 <= k < |ops| && Chooses(ops[k]) && forall j :: 0 <= j < k ==> !Chooses(ops[j])
  }

  /** The first operation to choose a status decides it: a Write chooses 200, as does never choosing. */
  ghost predicate StatusAsked(ops: seq<Op>, status: int) {
    && (forall k :: FirstChoice(ops, k) ==> status == if ops[k].Write? then 200 else ops[k].code)
    && ((forall k :: 0 <= k < |ops| ==> !Chooses(ops[k])) ==> status == 200)
  }

  /** What the operation wrote, or nothing. */
  predicate Piece(op: Op, body: Bytes, from: int, to: int) {
    0 <= from <= to <= |body| && body[from..to] == if op.Write? then op.data else []
  }

  /** `body` is cut into one piece for each operation, in order: what it wrote, or nothing. */
  ghost predicate Cuts(ops: seq<Op>, body: Bytes, cuts: seq<int>) {
    && |cuts| == |ops| + 1 && cuts[0] == 0 && cuts[|ops|] == |body|
    && forall k, next :: 0 <= k && next == k + 1 < |cuts| ==> Piece(ops[k], body, cuts[k], cuts[next])
  }

  ghost predicate BodyAsked(ops: seq<Op>, body: Bytes) {
    exists cuts :: Cuts(ops, body, cuts)
  }

  predicate Resets(op: Op, key: string) {
    (op.SetHeader? || op.DelHeader?) && op.key == key
  }

  predicate Adds(op: Op, key: string) {
    op.AddHeader? && op.key == key
  }

  predicate LastReset(ops: seq<Op>, key: string, k: int) {
    0 <= k < |ops| && Resets(ops[k], key) && forall j :: k < j < |ops| ==> !Resets(ops[j], key)
  }

  /** `at` are the positions from `from` on that add to `key`, in order, and `values` what they add. */
  ghost predicate AddedAt(ops: seq<Op>, key: string, from: int, values: seq<string>, at: seq<int>) {
    && |at| == |values| && 0 <= from
    && (forall j :: 0 <= j < |at| ==> from <= at[j] < |ops| && Adds(ops[at[j]], key) && values[j] == ops[at[j]].value)
    && (forall i, j :: 0 <= i < j < |at| ==> at[i] < at[j])
    && (forall k :: from <= k < |ops| && Adds(ops[k], key) ==> k in at)
  }

  ghost predicate AddedFrom(ops: seq<Op>, key: string, from: int, values: seq<string>) {
    exists at :: AddedAt(ops, key, from, values, at)
  }

  /** The values of a key: the last one set, if it was not deleted since, and all that were added after that. */
  ghost predicate HeaderAsked(ops: seq<Op>, key: string, values: seq<string>) {
    && (forall k :: LastReset(ops, key, k) && ops[k].SetHeader? ==>
          values != [] && values[0] == ops[k].value && AddedFrom(ops, key, k + 1, values[1..]))
    && (forall k :: LastReset(ops, key, k) && ops[k].DelHeader? ==> AddedFrom(ops, key, k + 1, values))
    && ((forall k :: 0 <= k < |ops| ==> !Resets(ops[k], key)) ==> AddedFrom(ops, key, 0, values))
  }

  lemma {:induction false} StatusByPosition(ops: seq<Op>)
    ensures StatusAsked(ops, StatusToSend(ops))
    ensures FirstStatus(ops) == 0 <==> forall k :: 0 <= k < |ops| ==> !Chooses(ops[k])
  {
    if ops != [] {
      var rest := ops[1..];
      StatusByPosition(rest);
      assert forall k :: 0 <= k < |rest| ==> rest[k] == ops[k + 1];
      forall k | FirstChoice(ops, k) ensures StatusToSend(ops) == if ops[k].Write? then 200 else ops[k].code {
        if k > 0 {
          assert FirstChoice(rest, k - 1);
        }
      }
    }
  }

  lemma CutsSnoc(ops: seq<Op>, op: Op, body: Bytes, cuts: seq<int>, piece: Bytes)
    requires Cuts(ops, body, cuts) && piece == if op.Write? then op.data else []
    ensures Cuts(ops + [op], body + piece, cuts + [|body| + |piece|])
  {
    var n := |ops|;
    var ops', body', cuts' := ops + [op], body + piece, cuts + [|body| + |piece|];
    forall k, next | 0 <= k && next == k + 1 < |cuts'| ensures Piece(ops'[k], body', cuts'[k], cuts'[next]) {
      if k < n {
        assert Piece(ops[k], body, cuts[k], cuts[next]);
        PieceLonger(ops[k], body, piece, cuts[k], cuts[next]);
      } else {
        assert body'[|body|..|body| + |piece|] == piece;
      }
    }
  }

  lemma PieceLonger(op: Op, body: Bytes, more: Bytes, from: int, to: int)
    requires Piece(op, body, from, to)
    ensures Piece(op, body + more, from, to)
  {
    assert (body + more)[from..to] == body[from..to];
  }

  lemma {:induction false} BodyByPosition(ops: seq<Op>) returns (cuts: seq<int>)
    ensures Cuts(ops, Written(ops), cuts)
  {
    if ops == [] {
      cuts := [0];
    } else {
      hide Cuts;
      var n := |ops| - 1;
      var before := BodyByPosition(ops[..n]);
      assert ops == ops[..n] + [ops[n]];
      WrittenSnoc(ops[..n], ops[n]);
      var piece := if ops[n].Write? then ops[n].data else [];
      CutsSnoc(ops[..n], ops[n], Written(ops[..n]), before, piece);
      cuts := before + [|Written(ops[..n])| + |piece|];
    }
  }

  lemma AddedOther(ops: seq<Op>, op: Op, key: string, from: int, values: seq<string>, at: seq<int>)
    requires AddedAt(ops, key, from, values, at) && !Adds(op, key)
    ensures AddedAt(ops + [op], key, from, values, at)
  {
    var longer := ops + [op];
    forall j | 0 <= j < |at| ensures longer[at[j]] == ops[at[j]] {
    }
    forall k | from <= k < |longer| && Adds(longer[k], key) ensures k in at {
      assert longer[k] == if k < |ops| then ops[k] else op;
    }
  }

  lemma AddedOne(ops: seq<Op>, op: Op, key: string, from: int, values: seq<string>, at: seq<int>)
    requires AddedAt(ops, key, from, values, at) && Adds(op, key) && from <= |ops|
    ensures AddedAt(ops + [op], key, from, values + [op.value], at + [|ops|])
  {
    var longer, values', at' := ops + [op], values + [op.value], at + [|ops|];
    forall j | 0 <= j < |at'|
      ensures from <= at'[j] < |longer| && Adds(longer[at'[j]], key) && values'[j] == longer[at'[j]].value
    {
      if j < |at| {
        assert at'[j] == at[j] && longer[at[j]] == ops[at[j]];
      }
    }
    forall k | from <= k < |longer| && Adds(longer[k], key) ensures k in at' {
      if k < |ops| {
        assert longer[k] == ops[k];
        assert k in at;
      } else {
        assert at'[|at|] == k;
      }
    }
  }

  lemma AddedSnoc(ops: seq<Op>, op: Op, key: string, from: int, values: seq<string>)
    requires AddedFrom(ops, key, from, values) && 0 <= from <= |ops|
    ensures AddedFrom(ops + [op], key, from, values + if Adds(op, key) then [op.value] else [])
  {
    hide AddedAt;
    var at :| AddedAt(ops, key, from, values, at);
    if Adds(op, key) {
      AddedOne(ops, op, key, from, values, at);
    } else {
      assert values + [] == values;
      AddedOther(ops, op, key, from, values, at);
    }
  }

  lemma NothingAdded(ops: seq<Op>, key: string)
    ensures AddedFrom(ops, key, |ops|, [])
  {
    assert AddedAt(ops, key, |ops|, [], []);
  }

  lemma {:induction false} HeaderByPosition(ops: seq<Op>, key: string)
    ensures HeaderAsked(ops, key, ValuesAsked(ops, key))
  {
    hide HeaderAsked;
    if ops == [] {
      NothingAsked(key);
    } else {
      var n := |ops| - 1;
      HeaderByPosition(ops[..n], key);
      assert ops == ops[..n] + [ops[n]];
      AskedSnoc(ops[..n], ops[n], key);
      if Resets(ops[n], key) {
        ResetByPosition(ops[..n], ops[n], key, ValuesAsked(ops[..n], key));
      } else {
        KeptByPosition(ops[..n], ops[n], key, ValuesAsked(ops[..n], key));
      }
    }
  }

  lemma NothingAsked(key: string)
    ensures HeaderAsked([], key, [])
  {
    NothingAdded([], key);
  }

  lemma ResetByPosition(ops: seq<Op>, op: Op, key: string, values: seq<string>)
    requires Resets(op, key)
    ensures HeaderAsked(ops + [op], key, AskedBy(op, key, values))
  {
    hide AddedFrom;
    var longer := ops + [op];
    NothingAdded(longer, key);
    assert longer[|ops|] == op;
    forall k | LastReset(longer, key, k) ensures k == |ops| {
    }
    if op.SetHeader? {
      assert [op.value][1..] == [];
    }
  }

  lemma LastResetEarlier(ops: seq<Op>, op: Op, key: string, k: int)
    requires LastReset(ops + [op], key, k) && !Resets(op, key)
    ensures LastReset(ops, key, k) && (ops + [op])[k] == ops[k]
  {
    var longer := ops + [op];
    assert longer[|ops|] == op;
    assert forall j :: 0 <= j < |ops| ==> longer[j] == ops[j];
  }

  lemma KeptByPosition(ops: seq<Op>, op: Op, key: string, values: seq<string>)
    requires HeaderAsked(ops, key, values) && !Resets(op, key)
    ensures HeaderAsked(ops + [op], key, AskedBy(op, key, values))
  {
    hide AddedFrom, LastReset;
    var longer := ops + [op];
    var added := if Adds(op, key) then [op.value] else [];
    var later := AskedBy(op, key, values);
    assert later == values + added;
    forall k | LastReset(longer, key, k) ensures 0 <= k < |longer| {
      LastResetIn(longer, key, k);
    }
    forall k | LastReset(longer, key, k) && longer[k].SetHeader?
      ensures later != [] && later[0] == longer[k].value && AddedFrom(longer, key, k + 1, later[1..])
    {
      LastResetEarlier(ops, op, key, k);
      LastResetIn(ops, key, k);
      AddedSnoc(ops, op, key, k + 1, values[1..]);
      assert later[1..] == values[1..] + added;
    }
    forall k | LastReset(longer, key, k) && longer[k].DelHeader? ensures AddedFrom(longer, key, k + 1, later) {
      LastResetEarlier(ops, op, key, k);
      LastResetIn(ops, key, k);
      AddedSnoc(ops, op, key, k + 1, values);
    }
    if forall k :: 0 <= k < |longer| ==> !Resets(longer[k], key) {
      forall k | 0 <= k < |ops| ensures !Resets(ops[k], key) {
        assert longer[k] == ops[k];
      }
      AddedSnoc(ops, op, key, 0, values);
    }
  }

  lemma LastResetIn(ops: seq<Op>, key: string, k: int)
    requires LastReset(ops, key, k)
    ensures 0 <= k < |ops|
  {
  }

  /** `header` keeps the values `base` has for the key, and has those asked for after them. */
  ghost predicate Merges(base: Header, header: Header, key: string, ops: seq<Op>) {
    var kept := if key in base then base[key] else [];
    var sent := if key in header then header[key] else [];
    kept <= sent && HeaderAsked(ops, key, sent[|kept|..])
  }

  /** One response line and header block as the client gets it. */
  datatype Head = Head(status: int, header: Header)

  /** The whole response of a handler that did `ops`: its status, its bytes, its headers. */
  ghost predicate WholeResponse(head: Head, body: Bytes, base: Header, ops: seq<Op>) {
    && StatusAsked(ops, head.status) && BodyAsked(ops, body)
    && forall key :: Merges(base, head.header, key, ops)
  }

  lemma WholeByPosition(head: Head, body: Bytes, base: Header, ops: seq<Op>)
    requires head.status == StatusToSend(ops) && body == Written(ops)
    requires forall key :: Values(head.header, key) == Values(base, key) + ValuesAsked(ops, key)
    ensures WholeResponse(head, body, base, ops)
  {
    hide StatusAsked, Cuts, HeaderAsked, StatusToSend, Written, ValuesAsked;
    StatusByPosition(ops);
    var cuts := BodyByPosition(ops);
    forall key ensures Merges(base, head.header, key, ops) {
      HeaderByPosition(ops, key);
      assert Values(head.header, key) == Values(base, key) + ValuesAsked(ops, key);
      assert (Values(base, key) + ValuesAsked(ops, key))[|Values(base, key)|..] == ValuesAsked(ops, key);
    }
  }

  // ---- the race ----

  /** The client's ResponseWriter: every WriteHeader and every Write it was given. */
  datatype Outer = Outer(header: Header, heads: seq<Head>, bodies: seq<Bytes>)

  /** Where the middleware is. */
  datatype Server =
    | Waiting
    | Copying(left: set<string>)
    | SendingHead
    | SendingBody
    | TimedOut
    | SendingTimeoutHead
    | SendingTimeoutBody
    | Finished(timedOut: bool)

  datatype State = State(
    ops: seq<Op>, buffer: Buffer, returned: bool, expired: bool, server: Server, outer: Outer, timeoutBody: Bytes)

  datatype Event =
    | Handler(op: Op)
    | Return
    | Deadline
    | NoticeDone
    | NoticeDeadline
    | Step(key: string)

  function Init(base: Header, timeoutBody: Bytes): State {
    State([], EMPTY, false, false, Waiting, Outer(base, [], []), timeoutBody)
  }

  function Merged(header: Header, key: string, values: seq<string>): Header {
    if values == [] then header else header[key := Values(header, key) + values]
  }

  function SentHead(outer: Outer, status: int): Outer {
    outer.(heads := outer.heads + [Head(status, outer.header)])
  }

  /** One step of the middleware after its choice; `key` is the header key the copy takes next. */
  function ServerStep(s: State, key: string): State {
    match s.server
    case Copying(left) =>
      if left == {} then s.(server := SendingHead)
      else if key !in left then s
      else s.(outer := s.outer.(header := Merged(s.outer.header, key, Values(s.buffer.header, key))),
              server := Copying(left - {key}))
    case SendingHead =>
      s.(outer := SentHead(s.outer, if s.buffer.statusCode == 0 then OK else s.buffer.statusCode),
         server := SendingBody)
    case SendingBody => s.(outer := s.outer.(bodies := s.outer.bodies + [s.buffer.body]), server := Finished(false))
    case TimedOut =>
      s.(outer := s.outer.(header := TimeoutHeader(s.outer.header)), server := SendingTimeoutHead)
    case SendingTimeoutHead => s.(outer := SentHead(s.outer, GATEWAY_TIMEOUT), server := SendingTimeoutBody)
    case SendingTimeoutBody =>
      s.(outer := s.outer.(bodies := s.outer.bodies + [s.timeoutBody]), server := Finished(true))
    case _ => s
  }

  /** A handler that has not returned goes on writing to its buffer, even after the deadline. */
  function Apply(s: State, e: Event): State {
    match e
    case Handler(op) => if s.returned then s else s.(ops := s.ops + [op], buffer := Applied(s.buffer, op))
    case Return => s.(returned := true)
    case Deadline => s.(expired := true)
    case NoticeDone =>
      if s.server == Waiting && s.returned then s.(server := Copying(s.buffer.header.Keys)) else s
    case NoticeDeadline => if s.server == Waiting && s.expired then s.(server := TimedOut) else s
    case Step(key) => ServerStep(s, key)
  }

  function Exec(s: State, events: seq<Event>): State {
    if events == [] then s else Apply(Exec(s, events[..|events| - 1]), events[|events| - 1])
  }

  /** The header copied so far, while the keys of `left` are still to come. */
  ghost predicate CopiedBut(s: State, base: Header, left: set<string>) {
    forall key :: Values(s.outer.header, key) ==
      Values(base, key) + if key in left then [] else ValuesAsked(s.ops, key)
  }

  ghost predicate HandlerHead(s: State, base: Header) {
    && |s.outer.heads| == 1 && s.outer.heads[0].status == StatusToSend(s.ops)
    && forall key :: Values(s.outer.heads[0].header, key) == Values(base, key) + ValuesAsked(s.ops, key)
  }

  function TimeoutHeader(base: Header): Header {
    base["Content-Type" := ["application/json"]]
  }

  ghost predicate ServerInv(s: State, base: Header) {
    match s.server
    case Waiting => s.outer == Outer(base, [], [])
    case Copying(left) =>
      && s.returned && s.outer.heads == [] && s.outer.bodies == [] && left <= s.buffer.header.Keys
      && CopiedBut(s, base, left)
    case SendingHead => s.returned && s.outer.heads == [] && s.outer.bodies == [] && CopiedBut(s, base, {})
    case SendingBody => s.returned && HandlerHead(s, base) && s.outer.bodies == []
    case TimedOut => s.expired && s.outer == Outer(base, [], [])
    case SendingTimeoutHead => s.expired && s.outer == Outer(TimeoutHeader(base), [], [])
    case SendingTimeoutBody =>
      s.expired && s.outer == Outer(TimeoutHeader(base), [Head(GATEWAY_TIMEOUT, TimeoutHeader(base))], [])
    case Finished(false) => s.returned && HandlerHead(s, base) && s.outer.bodies == [Written(s.ops)]
    case Finished(true) =>
      s.expired && s.outer == Outer(TimeoutHeader(base), [Head(GATEWAY_TIMEOUT, TimeoutHeader(base))], [s.timeoutBody])
  }

  ghost predicate Inv(s: State, base: Header) {
    Holds(s.buffer, s.ops) && ServerInv(s, base)
  }

  lemma CopyKeeps(s: State, base: Header, key: string)
    requires Inv(s, base) && s.server.Copying?
    ensures Inv(ServerStep(s, key), base)
  {
    var s' := ServerStep(s, key);
    var left := s.server.left;
    if key in left {
      assert CopiedBut(s', base, left - {key}) by {
        forall k ensures Values(s'.outer.header, k) ==
          Values(base, k) + if k in left - {key} then [] else ValuesAsked(s.ops, k)
        {
          assert Values(s.buffer.header, k) == ValuesAsked(s.ops, k);
        }
      }
    }
  }

  lemma NoticeKeeps(s: State, base: Header)
    requires Inv(s, base) && s.server.Waiting? && s.returned
    ensures Inv(Apply(s, NoticeDone), base)
  {
    hide Written, FirstStatus, ServerStep, Applied;
    forall key | key !in s.buffer.header ensures ValuesAsked(s.ops, key) == [] {
      assert Values(s.buffer.header, key) == ValuesAsked(s.ops, key);
    }
  }

  /** A handler that has not returned changes its buffer; the server has not begun. */
  lemma HandlerKeeps(s: State, base: Header, op: Op)
    requires Inv(s, base) && !s.returned
    ensures Inv(s.(ops := s.ops + [op], buffer := Applied(s.buffer, op)), base)
  {
    AppliedHolds(s.buffer, s.ops, op);
    hide Holds, Applied, HandlerHead, CopiedBut;
  }

  lemma StepKeeps(s: State, base: Header, key: string)
    requires Inv(s, base)
    ensures Inv(ServerStep(s, key), base) && ServerStep(s, key).timeoutBody == s.timeoutBody
  {
    if s.server.Copying? {
      CopyKeeps(s, base, key);
    } else if s.server.SendingHead? {
      HeadKeeps(s, base, key);
    } else {
      hide HandlerHead, CopiedBut, Written, FirstStatus, ValuesAsked;
    }
  }

  lemma HeadKeeps(s: State, base: Header, key: string)
    requires Inv(s, base) && s.server.SendingHead?
    ensures Inv(ServerStep(s, key), base)
  {
    hide Written, FirstStatus, ValuesAsked, Values;
    var s' := ServerStep(s, key);
    assert s'.outer.heads[0].header == s.outer.header;
    forall k ensures Values(s'.outer.heads[0].header, k) == Values(base, k) + ValuesAsked(s'.ops, k) {
      assert Values(s.outer.header, k) == Values(base, k) + ValuesAsked(s.ops, k);
    }
  }

  lemma ApplyKeeps(s: State, base: Header, e: Event)
    requires Inv(s, base)
    ensures Inv(Apply(s, e), base) && Apply(s, e).timeoutBody == s.timeoutBody
  {
    hide Inv, ServerStep, Applied;
    match e
    case Handler(op) =>
      if !s.returned {
        HandlerKeeps(s, base, op);
      }
    case Return => FlagKeeps(s, s.(returned := true), base);
    case Deadline => FlagKeeps(s, s.(expired := true), base);
    case NoticeDone =>
      if s.server == Waiting && s.returned {
        NoticeKeeps(s, base);
      }
    case NoticeDeadline =>
      if s.server == Waiting && s.expired {
        DeadlineKeeps(s, base);
      }
    case Step(key) => StepKeeps(s, base, key);
  }

  lemma FlagKeeps(s: State, s': State, base: Header)
    requires Inv(s, base) && s' == s.(returned := s'.returned, expired := s'.expired)
    requires (s.returned ==> s'.returned) && (s.expired ==> s'.expired)
    ensures Inv(s', base)
  {
    hide Written, FirstStatus, ValuesAsked, Values;
  }

  lemma DeadlineKeeps(s: State, base: Header)
    requires Inv(s, base) && s.server == Waiting && s.expired
    ensures Inv(s.(server := TimedOut), base)
  {
    hide Holds;
  }

  lemma {:induction false} RunKeeps(base: Header, timeoutBody: Bytes, events: seq<Event>)
    ensures var s := Exec(Init(base, timeoutBody), events); Inv(s, base) && s.timeoutBody == timeoutBody
  {
    hide Apply;
    if events != [] {
      RunKeeps(base, timeoutBody, events[..|events| - 1]);
      hide Inv;
      ApplyKeeps(Exec(Init(base, timeoutBody), events[..|events| - 1]), base, events[|events| - 1]);
    } else {
      assert Holds(EMPTY, []);
    }
  }

  /** The whole response of the handler, which had returned. */
  ghost predicate HandlerResponse(s: State, base: Header, ops: seq<Op>) {
    && s.returned && |s.outer.heads| == 1 && |s.outer.bodies| == 1
    && WholeResponse(s.outer.heads[0], s.outer.bodies[0], base, ops)
    && s.outer.heads[0].status == StatusToSend(ops) && s.outer.bodies[0] == Written(ops)
    && forall key :: Values(s.outer.heads[0].header, key) == Values(base, key) + ValuesAsked(ops, key)
  }

  /** The whole timeout response: nothing of the handler's. */
  predicate TimeoutResponse(s: State, base: Header, timeoutBody: Bytes) {
    && s.expired && s.outer.heads == [Head(504, base["Content-Type" := ["application/json"]])]
    && s.outer.bodies == [timeoutBody]
  }

  /** What the handler does in a run: its operations before its first return. */
  function Performed(events: seq<Event>): seq<Op> {
    if events == [] || events[0].Return? then []
    else (if events[0].Handler? then [events[0].op] else []) + Performed(events[1..])
  }

  predicate Returns(events: seq<Event>) {
    exists i :: 0 <= i < |events| && events[i].Return?
  }

  lemma {:induction false} PerformedSnoc(events: seq<Event>, e: Event)
    ensures Performed(events + [e]) ==
      Performed(events) + if e.Handler? && !Returns(events) then [e.op] else []
    ensures Returns(events + [e]) <==> Returns(events) || e.Return?
  {
    if events == [] {
      assert (events + [e])[0] == e && (events + [e])[1..] == [];
    } else {
      PerformedSnoc(events[1..], e);
      assert (events + [e])[1..] == events[1..] + [e] && (events + [e])[0] == events[0];
      ReturnsFirst(events);
      ReturnsFirst(events + [e]);
    }
  }

  lemma ReturnsFirst(events: seq<Event>)
    requires events != []
    ensures Returns(events) <==> events[0].Return? || Returns(events[1..])
  {
    if Returns(events[1..]) {
      var i :| 0 <= i < |events[1..]| && events[1..][i].Return?;
      assert events[i + 1].Return?;
    }
    if Returns(events) && !events[0].Return? {
      var i :| 0 <= i < |events| && events[i].Return?;
      assert events[1..][i - 1].Return?;
    }
  }

  /** The history of a run is what the handler did in it. */
  lemma {:induction false} HistoryPerformed(base: Header, timeoutBody: Bytes, events: seq<Event>)
    ensures
      var s := Exec(Init(base, timeoutBody), events);
      s.ops == Performed(events) && (s.returned <==> Returns(events))
  {
    if events != [] {
      var n := |events| - 1;
      HistoryPerformed(base, timeoutBody, events[..n]);
      assert events == events[..n] + [events[n]];
      PerformedSnoc(events[..n], events[n]);
      hide Performed, Returns;
      StepHistory(Exec(Init(base, timeoutBody), events[..n]), events[n]);
    }
  }

  lemma StepHistory(s: State, e: Event)
    ensures
      var s' := Apply(s, e);
      && s'.ops == s.ops + (if e.Handler? && !s.returned then [e.op] else [])
      && (s'.returned <==> s.returned || e.Return?)
  {
    hide Applied;
    assert s.ops + [] == s.ops;
  }

  /**
   Every interleaving of the handler's operations, its return and the deadline: the client never
   gets more than one status and one body; a finished response is either the handler's or the
   timeout error, whole; and it stays as it is whatever a late handler still writes.
   */
  lemma OneWholeResponse(base: Header, timeoutBody: Bytes, events: seq<Event>, more: seq<Event>)
    ensures
      var s := Exec(Init(base, timeoutBody), events);
      var s' := Exec(Init(base, timeoutBody), events + more);
      && |s.outer.heads| <= 1 && |s.outer.bodies| <= |s.outer.heads|
      && (s.server.Finished? ==>
            && (if s.server.timedOut then TimeoutResponse(s, base, timeoutBody)
                else HandlerResponse(s, base, Performed(events)))
            && s'.outer == s.outer && s'.server == s.server)
  {
    hide HeaderAsked, StatusAsked, BodyAsked, Merges, Performed, Returns;
    RunKeeps(base, timeoutBody, events);
    FinishedStays(base, timeoutBody, events, more);
    HistoryPerformed(base, timeoutBody, events);
    var s := Exec(Init(base, timeoutBody), events);
    if s.server == Finished(false) {
      WholeByPosition(s.outer.heads[0], s.outer.bodies[0], base, s.ops);
    }
  }

  lemma {:induction false} FinishedStays(base: Header, timeoutBody: Bytes, events: seq<Event>, more: seq<Event>)
    ensures
      var s := Exec(Init(base, timeoutBody), events);
      var s' := Exec(Init(base, timeoutBody), events + more);
      s.server.Finished? ==> s'.outer == s.outer && s'.server == s.server
    decreases |more|
  {
    if more == [] {
      assert events + more == events;
    } else {
      var n := |more| - 1;
      FinishedStays(base, timeoutBody, events, more[..n]);
      assert (events + more)[..|events + more| - 1] == events + more[..n];
    }
  }

  // ---- the middleware gets there ----

  lemma ExecMore(s: State, events: seq<Event>, e: Event)
    ensures Exec(s, events + [e]) == Apply(Exec(s, events), e)
  {
    assert (events + [e])[..|events|] == events;
  }

  lemma {:induction false} ExecConcat(s: State, first: seq<Event>, rest: seq<Event>)
    ensures Exec(s, first + rest) == Exec(Exec(s, first), rest)
    decreases |rest|
  {
    hide Apply;
    if rest == [] {
      assert first + rest == first;
    } else {
      var n := |rest| - 1;
      ExecConcat(s, first, rest[..n]);
      assert (first + rest)[..|first + rest| - 1] == first + rest[..n];
    }
  }

  /** The copy takes the keys in any order, and then sends the rest. */
  lemma {:induction false} CopyFinishes(s: State, left: set<string>) returns (events: seq<Event>)
    requires s.server == Copying(left)
    ensures Exec(s, events).server == Finished(false)
    decreases |left|
  {
    if left == {} {
      events := [Step("")] + [Step("")] + [Step("")];
      ExecMore(s, [Step("")] + [Step("")], Step(""));
      ExecMore(s, [Step("")], Step(""));
      ExecMore(s, [], Step(""));
      assert [] + [Step("")] == [Step("")] && Exec(s, []) == s;
    } else {
      var key :| key in left;
      var rest := CopyFinishes(Apply(s, Step(key)), left - {key});
      events := [Step(key)] + rest;
      ExecConcat(s, [Step(key)], rest);
      ExecMore(s, [], Step(key));
      assert [] + [Step(key)] == [Step(key)] && Exec(s, []) == s;
    }
  }

  /** A handler that has returned can be answered with its response, and a deadline with the timeout. */
  lemma CanFinish(s: State) returns (events: seq<Event>)
    requires s.server == Waiting && (s.returned || s.expired)
    ensures Exec(s, events).server == Finished(!s.returned)
  {
    assert Exec(s, []) == s;
    if s.returned {
      var rest := CopyFinishes(Apply(s, NoticeDone), s.buffer.header.Keys);
      events := [NoticeDone] + rest;
      ExecConcat(s, [NoticeDone], rest);
      ExecMore(s, [], NoticeDone);
      assert [] + [NoticeDone] == [NoticeDone];
    } else {
      events := [NoticeDeadline] + [Step("")] + [Step("")] + [Step("")];
      ExecMore(s, [NoticeDeadline] + [Step("")] + [Step("")], Step(""));
      ExecMore(s, [NoticeDeadline] + [Step("")], Step(""));
      ExecMore(s, [NoticeDeadline], Step(""));
      ExecMore(s, [], NoticeDeadline);
      assert [] + [NoticeDeadline] == [NoticeDeadline];
    }
  }

  // ---- the writers ----

  /** http.Header: a map from key to values, shared by reference. */
  class HeaderMap {
    var values: Header

    constructor (initial: Header)
      ensures values == initial
    {
      values := initial;
    }

    method Set(key: string, value: string)
      modifies this
      ensures values == old(values)[key := [value]]
    {
      values := values[key := [value]];
    }

    method Add(key: string, value: string)
      modifies this
      ensures values == Added(old(values), key, value)
    {
      assert [] + [value] == [value];
      values := values[key := if key in values then values[key] + [value] else [value]];
    }
  }

  /** timeoutResponseWriter. The history `ops` says which operations it has been given. */
  class TimeoutResponseWriter {
    var header: Header
    var body: Bytes
    var statusCode: int
    ghost var ops: seq<Op>

    ghost function Contents(): Buffer
      reads this
    {
      Buffer(header, body, statusCode)
    }

    ghost predicate Valid()
      reads this
    {
      Holds(Contents(), ops)
    }

    constructor ()
      ensures Valid() && ops == [] && Contents() == EMPTY
    {
      header, body, statusCode, ops := map[], [], 0, [];
    }

    /** Header().Set */
    method SetHeader(key: string, value: string)
      requires Valid()
      modifies this
      ensures Valid() && ops == old(ops) + [Op.SetHeader(key, value)]
      ensures header == old(header)[key := [value]] && body == old(body) && statusCode == old(statusCode)
    {
      hide Holds;
      AppliedHolds(Contents(), ops, Op.SetHeader(key, value));
      ops := ops + [Op.SetHeader(key, value)];
      header := header[key := [value]];
    }

    /** Header().Add */
    method AddHeader(key: string, value: string)
      requires Valid()
      modifies this
      ensures Valid() && ops == old(ops) + [Op.AddHeader(key, value)]
      ensures header == old(header)[key := (if key in old(header) then old(header)[key] else []) + [value]]
      ensures body == old(body) && statusCode == old(statusCode)
    {
      hide Holds;
      AppliedHolds(Contents(), ops, Op.AddHeader(key, value));
      ops := ops + [Op.AddHeader(key, value)];
      header := header[key := (if key in header then header[key] else []) + [value]];
    }

    /** Header().Del */
    method DelHeader(key: string)
      requires Valid()
      modifies this
      ensures Valid() && ops == old(ops) + [Op.DelHeader(key)]
      ensures header == old(header) - {key} && body == old(body) && statusCode == old(statusCode)
    {
      hide Holds;
      AppliedHolds(Contents(), ops, Op.DelHeader(key));
      ops := ops + [Op.DelHeader(key)];
      header := header - {key};
    }

    method WriteHeader(code: int)
      requires Valid()
      modifies this
      ensures Valid() && ops == old(ops) + [Op.WriteHeader(code)]
      ensures Contents() == Applied(old(Contents()), Op.WriteHeader(code))
    {
      hide Holds;
      AppliedHolds(Contents(), ops, Op.WriteHeader(code));
      ops := ops + [Op.WriteHeader(code)];
      if statusCode != 0 {
        return;
      }
      statusCode := code;
    }

    method Write(data: Bytes) returns (n: nat)
      requires Valid()
      modifies this
      ensures Valid() && ops == old(ops) + [Op.Write(data)] && n == |data|
      ensures Contents() == Applied(old(Contents()), Op.Write(data))
    {
      hide Holds;
      AppliedHolds(Contents(), ops, Op.Write(data));
      ops := ops + [Op.Write(data)];
      if statusCode == 0 {
        statusCode := OK;
      }
      body := body + data;
      n := |data|;
    }
  }

  /** The client's writer: the first WriteHeader decides the status. */
  class ClientWriter {
    const header: HeaderMap
    var heads: seq<Head>
    var bodies: seq<Bytes>

    constructor (header: HeaderMap)
      ensures this.header == header && heads == [] && bodies == []
    {
      this.header := header;
      heads, bodies := [], [];
    }

    method WriteHeader(code: int)
      modifies this
      ensures heads == old(heads) + [Head(code, header.values)] && bodies == old(bodies)
    {
      heads := heads + [Head(code, header.values)];
    }

    method Write(data: Bytes)
      modifies this
      ensures bodies == old(bodies) + [data] && heads == old(heads)
    {
      bodies := bodies + [data];
    }
  }

  lemma MergedMore(header: Header, key: string, values: seq<string>, value: string)
    ensures Merged(header, key, values + [value]) == Added(Merged(header, key, values), key, value)
  {
    assert Values(header, key) + (values + [value]) == (Values(header, key) + values) + [value];
    if values == [] {
      assert [] + [value] == [value];
      assert Values(header, key) + [] == Values(header, key);
    }
  }

  /** The inner loop of copyHeader. */
  method AddAll(dst: HeaderMap, key: string, values: seq<string>)
    modifies dst
    ensures dst.values == Merged(old(dst.values), key, values)
  {
    var i := 0;
    while i < |values|
      invariant 0 <= i <= |values|
      invariant dst.values == Merged(old(dst.values), key, values[..i])
    {
      dst.Add(key, values[i]);
      MergedMore(old(dst.values), key, values[..i], values[i]);
      assert values[..i + 1] == values[..i] + [values[i]];
      i := i + 1;
    }
    assert values[..|values|] == values;
  }

  lemma MergedValues(header: Header, key: string, values: seq<string>, k: string)
    ensures Values(Merged(header, key, values), k) == Values(header, k) + if k == key then values else []
  {
  }

  /** copyHeader: every value of every key of `src` is added, whatever the order of the keys. */
  method CopyHeader(dst: HeaderMap, src: Header)
    modifies dst
    ensures forall key :: Values(dst.values, key) == Values(old(dst.values), key) + Values(src, key)
  {
    ghost var base := dst.values;
    var keys := src.Keys;
    while keys != {}
      invariant keys <= src.Keys
      invariant forall k :: Values(dst.values, k) == Values(base, k) + if k in keys then [] else Values(src, k)
    {
      var key :| key in keys;
      ghost var before := dst.values;
      AddAll(dst, key, src[key]);
      forall k ensures Values(dst.values, k) == Values(base, k) + if k in keys - {key} then [] else Values(src, k) {
        MergedValues(before, key, src[key], k);
        assert Values(before, k) == Values(base, k) + if k in keys then [] else Values(src, k);
      }
      keys := keys - {key};
    }
  }

  /** The branch of Timeout that the returned handler takes: the buffered response, whole. */
  method SendBuffered(w: ClientWriter, buffered: TimeoutResponseWriter)
    requires buffered.Valid() && w.heads == [] && w.bodies == []
    modifies w, w.header, buffered`statusCode
    ensures |w.heads| == 1 && w.heads[0].status == StatusToSend(buffered.ops)
    ensures w.bodies == [Written(buffered.ops)]
    ensures WholeResponse(w.heads[0], w.bodies[0], old(w.header.values), buffered.ops)
    ensures forall key ::
      Values(w.heads[0].header, key) == Values(old(w.header.values), key) + ValuesAsked(buffered.ops, key)
  {
    CopyHeader(w.header, buffered.header);
    if buffered.statusCode == 0 {
      buffered.statusCode := OK;
    }
    w.WriteHeader(buffered.statusCode);
    w.Write(buffered.body);
    WholeByPosition(w.heads[0], w.bodies[0], old(w.header.values), buffered.ops);
  }

  /** The branch the deadline takes: writeError with the encoded error. */
  method SendTimeout(w: ClientWriter, timeoutBody: Bytes)
    requires w.heads == [] && w.bodies == []
    modifies w, w.header
    ensures w.heads == [Head(504, old(w.header.values)["Content-Type" := ["application/json"]])]
    ensures w.bodies == [timeoutBody]
  {
    w.header.Set("Content-Type", "application/json");
    w.WriteHeader(GATEWAY_TIMEOUT);
    w.Write(timeoutBody);
  }

  /**
   The select of Timeout: at least one of its cases is ready, and of two ready ones either may be
   taken. The client gets one status and one body, both the handler's or both the timeout's.
   */
  method Select(w: ClientWriter, buffered: TimeoutResponseWriter, done: bool, expired: bool, timeoutBody: Bytes)
    requires done || expired
    requires buffered.Valid() && w.heads == [] && w.bodies == []
    modifies w, w.header, buffered`statusCode
    ensures |w.heads| == 1 && |w.bodies| == 1
    ensures
      var fromHandler :=
        && WholeResponse(w.heads[0], w.bodies[0], old(w.header.values), buffered.ops)
        && w.heads[0].status == StatusToSend(buffered.ops) && w.bodies[0] == Written(buffered.ops)
        && forall key ::
             Values(w.heads[0].header, key) == Values(old(w.header.values), key) + ValuesAsked(buffered.ops, key);
      var fromDeadline :=
        && w.heads[0] == Head(504, old(w.header.values)["Content-Type" := ["application/json"]])
        && w.bodies[0] == timeoutBody;
      (done && fromHandler) || (expired && fromDeadline)
  {
    var takeDone: bool := *;
    if done && (takeDone || !expired) {
      SendBuffered(w, buffered);
    } else {
      SendTimeout(w, timeoutBody);
    }
  }
}
