/** Mixing a partial scope with full synchronization: runs in which a device skips feed cells, and in
    which leaving the scope and resetting the cursor does not repair that. */
module ScopeGap {
  import opened Names
  import opened Cells
  import opened Payload
  import opened Server
  import opened ServerFacts
  import opened Replica
  import opened Client
  import opened ClientFacts
  import opened Conservation
  import opened System
  import opened SystemProofs
  import opened MergeLaws
  import opened Closure
  import opened Pagination
  import opened Settling
  import opened BareAcknowledge
  import opened Repair

  // --- The request of a new device -------------------------------------

  /** A new device that has asked for one scope. */
  function Subscribed(d: string, scope: string): Client {
    Fresh(d).(scopes := map[scope := Scope(1, true)])
  }

  /** What it sends: it knows no members and has nothing pending. */
  ghost function FirstRequest(d: string, scope: string, row: string, t: Schema): PartialRequest {
    PartialRequest(scope, 1, Interest([IdEquals(row)], 1), [], DeltaOf(Fresh(d), t))
  }

  lemma FirstRequested(d: string, scope: string, row: string, t: Schema)
    requires ValidIdentifier(d) && d != SERVER_DEVICE && ValidIdentifier(scope) && ValidIdentifier(row)
    ensures PartialRequestOf(Fresh(d), scope, Interest([IdEquals(row)], 1), t) ==
      Ok(Requested(Subscribed(d, scope), FirstRequest(d, scope, row, t)))
    ensures FirstRequest(d, scope, row, t).sync.changes == [] && ValidRequest(DeltaOf(Fresh(d), t), d, t)
  {
    FreshSound(d, t);
    assert DirtyCells(Fresh(d)) == map[];
    EmptyDelta(Fresh(d), t);
    assert ScopeRows(Fresh(d), scope) == {};
    assert ValidInterest(Interest([IdEquals(row)], 1), t);
    assert ValidPartialRequest(FirstRequest(d, scope, row, t), d, t);
  }

  // --- Serving it ------------------------------------------------------

  lemma NoMembers(cells: map<Key, Cell>, row: string, env: Env)
    requires forall k :: k in cells ==> k.row != row
    ensures MembersOf(cells, Interest([IdEquals(row)], 1)) == {}
    ensures ScopeFits(cells, Interest([IdEquals(row)], 1), env)
  {
    var i := Interest([IdEquals(row)], 1);
    assert i.predicates[0] == IdEquals(row);
    forall r | r in RowIds(cells) ensures !Matches(i, r, cells) {
      assert !HoldsPredicate(i.predicates[0], r, cells);
    }
    assert RowsCells(cells, {}) == map[];
    assert RowIds(map[]) == {};
  }

  /** A merge without writes keeps the server's cells and answers with its first page. */
  lemma WritelessMerge(s: State, p: SyncPayload, env: Env, m: Merged)
    requires Valid(s) && p.changes == [] && p.cursor == 0 && Merge(s, p, p.source, ALLOW_ALL, env) == Ok(m)
    ensures m.state.cells == s.cells && m.state.cellSeq == s.cellSeq && m.state.seqNo == s.seqNo
    ensures m.response.cursor == PageFrom(s.cells, s.seqNo, s.cellSeq, 0, env).next
    ensures m.response.lamport == m.state.lamport == Max(s.lamport, p.lamport) + 1
  {
    var b, w := MergeParts(s, p, p.source, ALLOW_ALL, env);
    assert Writes(p.changes) == [];
    assert b == Start(s);
  }

  /** The answer carries nothing, and its cursor lies beyond a cell of the server. */
  ghost predicate EmptyBeyond(q: PartialRequest, m: PartialMerged, s: State) {
    && CellsOf(m.response.sync.changes) == map[] && m.response.members == [] && m.response.evicted == []
    && m.response.sync.lamport == m.state.lamport == Max(s.lamport, q.sync.lamport) + 1
    && m.state.cells == s.cells && m.state.seqNo == s.seqNo
    && exists k :: k in m.state.cells && k in m.state.cellSeq && m.state.cellSeq[k] <= m.response.sync.cursor
  }

  lemma ReachableValid(s: System, env: Env)
    requires WellFormed(env.schema) && Reachable(s, env)
    ensures Valid(s.server)
  {
    ReachableOk(s, env);
  }

  lemma FirstServed(s: System, q: PartialRequest, row: string, env: Env) returns (m: PartialMerged)
    requires WellFormed(env.schema) && Reachable(s, env) && Scoped(q) in s.requests
    requires q.sync.changes == [] && q.sync.cursor == 0 && q.interest == Interest([IdEquals(row)], 1) && q.known == []
    requires forall k :: k in s.server.cells ==> k.row != row
    requires s.server.cells != map[] && s.server.seqNo <= I64_MAX
    requires q.sync.lamport <= s.server.lamport < I64_MAX
    ensures MergePartial(s.server, q, q.sync.source, env) == Ok(m) && EmptyBeyond(q, m, s.server)
  {
    ReachableValid(s, env);
    ServeScopedCloses(s, q, env);
    var n := Merge(s.server, q.sync, q.sync.source, ALLOW_ALL, env).value;
    WritelessMerge(s.server, q.sync, env, n);
    NoMembers(s.server.cells, row, env);
    m := MergePartial(s.server, q, q.sync.source, env).value;
    FirstAnswer(s.server, q, n, m, row, env);
  }

  lemma FirstAnswer(s: State, q: PartialRequest, n: Merged, m: PartialMerged, row: string, env: Env)
    requires Valid(s) && s.cells != map[] && s.seqNo <= I64_MAX && q.known == []
    requires n.state.cells == s.cells && n.state.cellSeq == s.cellSeq && n.state.seqNo == s.seqNo
    requires n.response.cursor == PageFrom(s.cells, s.seqNo, s.cellSeq, 0, env).next
    requires n.response.lamport == n.state.lamport == Max(s.lamport, q.sync.lamport) + 1
    requires ConcludePartial(n, q, env) == Ok(m) && MembersOf(s.cells, q.interest) == {}
    ensures EmptyBeyond(q, m, s)
  {
    PartialAnswer(n, q, env);
    var k := PageReaches(s, env);
    assert RowsCells(s.cells, {}) == map[];
    assert m.response == Snapshot(n, q);
  }

  // --- Completing it ---------------------------------------------------

  lemma NothingAcknowledged(c: Client, sent: map<Key, Cell>, rs: seq<Rejection>)
    requires c.log == map[] && c.evictions == {}
    ensures var b := Cleanup(Acknowledge(c, sent, rs));
      && b.log == map[] && b.evictions == {} && b.members == c.members && b.scopes == c.scopes
      && b.device == c.device && b.clock == c.clock && b.cursor == c.cursor
  {
    var b := Cleanup(Acknowledge(c, sent, rs));
    assert b.log == map[] && b.evictions == {};
  }

  lemma NothingAbsorbed(c: Client, p: SyncPayload, r: SyncPayload, a: Client, t: Schema)
    requires CompleteSync(c, p, r, t) == Ok(a) && c.log == map[] && c.evictions == {} && CellsOf(r.changes) == map[]
    ensures a.log == map[] && a.evictions == {} && a.members == c.members && a.scopes == c.scopes && a.device == c.device
    ensures a.clock == Max(c.clock, r.lamport) + 1 && (!r.cursorReset ==> a.cursor == Max(c.cursor, r.cursor))
  {
    CompleteShape(c, p, r, t);
    NothingAcknowledged(c, CellsOf(p.changes), r.rejections);
    var b := Cleanup(Acknowledge(c, CellsOf(p.changes), r.rejections));
    assert Absorbed(b, map[], RowSet(r.changes), t).log == map[];
  }

  lemma NothingRescoped(a: Client, scope: string)
    requires a.log == map[] && a.members == {} && a.evictions == {}
    ensures var n := Cleanup(Rescope(a, scope, {}, {}));
      n == a.(rows := n.rows, app := n.app)
  {
    var b, n := Rescope(a, scope, {}, {}), Cleanup(Rescope(a, scope, {}, {}));
    assert b.members == {} && b.evictions == {};
    assert n.log == map[] && n.evictions == {};
  }

  lemma PartialSteps(c: Client, q: PartialRequest, r: PartialResponse, t: Schema)
    requires CompletePartial(c, q, r, t).Ok?
    ensures CompleteSync(c, q.sync, r.sync, t).Ok?
    ensures CompletePartial(c, q, r, t).value ==
      Cleanup(Rescope(CompleteSync(c, q.sync, r.sync, t).value, q.scope, Elements(r.members), Elements(r.evicted)))
  {
  }

  /** The device holds nothing, yet its cursor is the answer's. */
  lemma FirstCompleted(d: string, scope: string, q: PartialRequest, r: PartialResponse, n: Client, t: Schema)
    requires CompletePartial(Subscribed(d, scope), q, r, t) == Ok(n) && q.scope == scope
    requires CellsOf(r.sync.changes) == map[] && r.members == [] && r.evicted == []
    ensures n.log == map[] && (!r.sync.cursorReset && 0 <= r.sync.cursor ==> n.cursor == r.sync.cursor)
    ensures n.scopes == map[scope := Scope(1, true)] && n.members == {} && n.evictions == {} && n.device == d
    ensures n.clock == r.sync.lamport + 1
  {
    PartialSteps(Subscribed(d, scope), q, r, t);
    var a := CompleteSync(Subscribed(d, scope), q.sync, r.sync, t).value;
    NothingAbsorbed(Subscribed(d, scope), q.sync, r.sync, a, t);
    NothingRescoped(a, scope);
    assert Elements(r.members) == {} && Elements(r.evicted) == {};
  }

  // --- A scoped round skips feed cells ---------------------------------

  /** A new device may join here and use the scope that selects `row`, which the server does not store. */
  ghost predicate Room(s: System, d: string, scope: string, row: string) {
    && ValidIdentifier(d) && d != SERVER_DEVICE && d !in s.devices && ValidIdentifier(scope) && ValidIdentifier(row)
    && s.server.cells != map[] && (forall k :: k in s.server.cells ==> k.row != row)
    && s.server.seqNo <= I64_MAX && s.server.lamport + 2 < I64_MAX
  }

  lemma JoinIs(s: System, d: string, env: Env)
    requires ValidIdentifier(d) && d != SERVER_DEVICE && d !in s.devices
    ensures Step(s, Join(d), env) == SetDevice(s, d, Fresh(d))
  {
  }

  lemma SubscribeIs(s: System, d: string, scope: string, row: string, env: Env)
    requires ValidIdentifier(d) && d != SERVER_DEVICE && ValidIdentifier(scope) && ValidIdentifier(row)
    requires d in s.devices && s.devices[d] == Fresh(d)
    ensures Step(s, SendScoped(d, scope, Interest([IdEquals(row)], 1)), env) ==
      SetDevice(s, d, Subscribed(d, scope)).(requests := s.requests + {Scoped(FirstRequest(d, scope, row, env.schema))})
  {
    FirstRequested(d, scope, row, env.schema);
  }

  /** The device joins and asks for the scope. */
  lemma SubscribedState(s: System, d: string, scope: string, row: string, env: Env) returns (t: System)
    requires Reachable(s, env) && Room(s, d, scope, row)
    ensures Reachable(t, env) && t.server == s.server && d in t.devices && t.devices[d] == Subscribed(d, scope)
    ensures Scoped(FirstRequest(d, scope, row, env.schema)) in t.requests
  {
    t := SetDevice(s, d, Fresh(d));
    JoinIs(s, d, env);
    ReachableNext(s, Join(d), env);
    var a := SendScoped(d, scope, Interest([IdEquals(row)], 1));
    SubscribeIs(t, d, scope, row, env);
    ReachableNext(t, a, env);
    t := Step(t, a, env);
  }

  lemma ScopedAnsweredIs(s: State, q: PartialRequest, sec: Security, env: Env, m: PartialMerged)
    requires MergePartial(s, q, q.sync.source, env) == Ok(m)
    ensures Answered(s, Scoped(q), sec, env) == Ok(Served(m.state, ScopedExchange(q, m.response)))
  {
  }

  /** The server answers it. */
  lemma AnsweredState(t: System, q: PartialRequest, row: string, env: Env) returns (u: System, m: PartialMerged)
    requires WellFormed(env.schema) && Reachable(t, env) && Scoped(q) in t.requests
    requires q.sync.changes == [] && q.sync.cursor == 0 && q.interest == Interest([IdEquals(row)], 1) && q.known == []
    requires forall k :: k in t.server.cells ==> k.row != row
    requires t.server.cells != map[] && t.server.seqNo <= I64_MAX && q.sync.lamport <= t.server.lamport < I64_MAX
    ensures Reachable(u, env) && u.devices == t.devices && u.server == m.state && ScopedExchange(q, m.response) in u.exchanges
    ensures EmptyBeyond(q, m, t.server)
  {
    m := FirstServed(t, q, row, env);
    var v := Served(m.state, ScopedExchange(q, m.response));
    ScopedAnsweredIs(t.server, q, ALLOW_ALL, env, m);
    StepIs(t, Scoped(q), ALLOW_ALL, env, v);
    ReachableNext(t, Serve(Scoped(q), ALLOW_ALL), env);
    u := t.(server := v.state, exchanges := t.exchanges + {v.exchange});
  }

  /** The device completes the answer. */
  lemma CompletedState(u: System, d: string, scope: string, q: PartialRequest, r: PartialResponse, env: Env) returns (v: System)
    requires WellFormed(env.schema) && Reachable(u, env) && ScopedExchange(q, r) in u.exchanges && q.sync.source == d
    requires d in u.devices && u.devices[d] == Subscribed(d, scope) && q.scope == scope && q.version == 1
    requires CellsOf(r.sync.changes) == map[] && r.members == [] && r.evicted == [] && r.sync.lamport < I64_MAX
    ensures Reachable(v, env) && v.server == u.server && d in v.devices && Emptied(v.devices[d], scope, r)
  {
    var e := ScopedExchange(q, r);
    DeliverScopedCloses(u, e, env);
    NeverReset(u, e, env);
    var n := CompletePartial(u.devices[d], q, r, env.schema).value;
    AnswerNumbered(u, e, env);
    FirstCompleted(d, scope, q, r, n, env.schema);
    DeliverIs(u, e, n, env);
    DeliverIsStep(u, e, env);
    ReachableNext(u, Deliver(e), env);
    v := SetDevice(u, d, n);
  }

  /** A subscribed device that stores nothing and stands at the answer's cursor. */
  ghost predicate Emptied(n: Client, scope: string, r: PartialResponse) {
    && n.log == map[] && n.cursor == r.sync.cursor && n.clock == r.sync.lamport + 1
    && n.scopes == map[scope := Scope(1, true)] && n.members == {} && n.evictions == {}
  }

  lemma AnswerNumbered(u: System, e: Exchange, env: Env)
    requires WellFormed(env.schema) && Reachable(u, env) && e in u.exchanges
    ensures 0 <= AnswerIn(e).cursor
  {
    ReachableOk(u, env);
    assert ExchangeOk(e, u.devices[SentIn(e).source], u.server, u.history, env.schema);
  }

  /** From any reachable state in which the server stores a cell: a new device whose first round asks for a
      scope that selects nothing stands beyond cells it does not hold, and full syncs will not send them. */
  lemma ScopedRoundSkips(s: System, d: string, scope: string, row: string, env: Env) returns (u: System)
    requires WellFormed(env.schema) && Reachable(s, env) && Room(s, d, scope, row)
    ensures Reachable(u, env) && d in u.devices && !CoversCursor(u, d)
    ensures Skipped(u, d, scope) && u.devices[d].clock == u.server.lamport + 1 == s.server.lamport + 2
  {
    var t := SubscribedState(s, d, scope, row, env);
    var q := FirstRequest(d, scope, row, env.schema);
    FirstRequested(d, scope, row, env.schema);
    var v, m := AnsweredState(t, q, row, env);
    u := CompletedState(v, d, scope, q, m.response, env);
    BeyondUncovered(u, d, q, m, s.server);
  }

  /** The device stores nothing although its cursor is beyond a cell; its one scope is empty. */
  ghost predicate Skipped(u: System, d: string, scope: string) {
    && d in u.devices && u.devices[d].log == map[]
    && u.devices[d].scopes == map[scope := Scope(1, true)] && u.devices[d].members == {} && u.devices[d].evictions == {}
    && exists k :: k in u.server.cells && k in u.server.cellSeq && u.server.cellSeq[k] <= u.devices[d].cursor
  }

  lemma BeyondUncovered(u: System, d: string, q: PartialRequest, m: PartialMerged, s: State)
    requires d in u.devices && u.server == m.state && EmptyBeyond(q, m, s)
    requires u.devices[d].log == map[] && u.devices[d].cursor == m.response.sync.cursor
    ensures !CoversCursor(u, d)
    ensures exists k :: k in u.server.cells && k in u.server.cellSeq && u.server.cellSeq[k] <= u.devices[d].cursor
  {
    var k :| k in m.state.cells && k in m.state.cellSeq && m.state.cellSeq[k] <= m.response.sync.cursor;
    assert !CoversAt(u.devices[d], u.server, u.devices[d].cursor, k);
  }

  // --- A reset that does not repair ------------------------------------

  lemma EmptyDeltaAt(u: System, d: string, env: Env)
    requires WellFormed(env.schema) && Reachable(u, env) && d in u.devices && u.devices[d].log == map[]
    ensures u.devices[d].device == d && LocalDelta(u.devices[d], env.schema) == Ok(DeltaOf(u.devices[d], env.schema))
  {
    ReachableOk(u, env);
    assert DeviceOk(u.devices[d], u.server, u.history, env.schema);
    assert DirtyCells(u.devices[d]) == map[];
    EmptyDelta(u.devices[d], env.schema);
  }

  lemma Unsubscribes(u: System, d: string, scope: string, env: Env) returns (v: System)
    requires Reachable(u, env) && Skipped(u, d, scope) && ValidIdentifier(scope)
    ensures Reachable(v, env) && v.server == u.server && v.requests == u.requests && d in v.devices
    ensures LeftScopes(v.devices[d]) && v.devices[d].log == map[] && v.devices[d].clock == u.devices[d].clock
  {
    var c := u.devices[d];
    RemoveOutcome(c, scope);
    assert ScopeRows(c, scope) == {};
    var b := Rescope(c, scope, {}, {}).(scopes := c.scopes[scope := Scope(2, false)]);
    assert b.members == {} && b.evictions == {};
    CleanupKeepsLog(b);
    v := Step(u, Unsubscribe(d, scope), env);
    ReachableNext(u, Unsubscribe(d, scope), env);
    assert v == SetDevice(u, d, Cleanup(b));
    assert Cleanup(b).members == {} && Cleanup(b).evictions == {};
  }

  /** Such a device may leave its scope and reset its cursor, and still end beyond cells it does not hold: a full
      request sent before it left, at the cursor it had then, is answered after the reset. */
  lemma LateAnswerUndoesReset(u: System, d: string, scope: string, env: Env) returns (v: System, after: seq<Action>)
    requires WellFormed(env.schema) && Reachable(u, env) && Skipped(u, d, scope) && ValidIdentifier(scope)
    requires u.devices[d].clock == u.server.lamport + 1 < I64_MAX - 1
    ensures Reachable(v, env) && d in v.devices && LeftScopes(v.devices[d]) && NoScopedSend(after, d)
    ensures !CoversCursor(Run(Step(v, Rewind(d), env), after, env), d)
  {
    EmptyDeltaAt(u, d, env);
    var p := DeltaOf(u.devices[d], env.schema);
    var t := SentState(u, d, env);
    v := Unsubscribes(t, d, scope, env);
    var k :| k in u.server.cells && k in u.server.cellSeq && u.server.cellSeq[k] <= u.devices[d].cursor;
    assert !CoversAt(v.devices[d], v.server, p.cursor, k);
    after := StaleRequestLifts(v, d, p, env);
  }

  // --- One run from the start ------------------------------------------

  ghost predicate OnlyDevice(s: System, d: string) {
    forall x :: x in s.devices ==> x == d
  }

  /** A run after which the server stores a row. */
  lemma StoredState(d: string, row: string, env: Env) returns (s: System)
    requires WellFormed(env.schema) && |env.schema.types| <= MAX_PAYLOAD_CELLS
    requires ValidIdentifier(d) && d != SERVER_DEVICE && ValidIdentifier(row)
    ensures Reachable(s, env) && OnlyDevice(s, d) && s.server.cells != map[]
    ensures forall k :: k in s.server.cells ==> k.row == row
    ensures s.server.lamport == 2 && s.server.seqNo <= MAX_PAYLOAD_CELLS
  {
    var t, p := SentFirst(d, row, env);
    s := FirstState(t, p, Key(row, LIVENESS), env);
  }

  lemma SentFirst(d: string, row: string, env: Env) returns (t: System, p: SyncPayload)
    requires WellFormed(env.schema) && |env.schema.types| <= MAX_PAYLOAD_CELLS
    requires ValidIdentifier(d) && d != SERVER_DEVICE && ValidIdentifier(row)
    ensures Reachable(t, env) && t.server == EMPTY && OnlyDevice(t, d) && Full(p) in t.requests && p.lamport == 1
    ensures CarriesRow(p, row)
  {
    var i := InsertedState(d, row, env);
    t, p := DeltaSentBy(i, d, env);
    InsertedSent(i, d, row, env);
  }

  /** The request carries cells of one row, its liveness among them. */
  ghost predicate CarriesRow(p: SyncPayload, row: string) {
    && Key(row, LIVENESS) in CellsOf(p.changes) && |CellsOf(p.changes)| <= MAX_PAYLOAD_CELLS
    && forall k :: k in CellsOf(p.changes) ==> k.row == row
  }

  lemma DeltaSentBy(s: System, d: string, env: Env) returns (t: System, p: SyncPayload)
    requires Reachable(s, env) && d in s.devices && LocalDelta(s.devices[d], env.schema).Ok?
    ensures Reachable(t, env) && t.server == s.server && t.devices == s.devices && Full(p) in t.requests
    ensures p == DeltaOf(s.devices[d], env.schema) && p.lamport == s.devices[d].clock
  {
    t := SentState(s, d, env);
    p := DeltaOf(s.devices[d], env.schema);
    FirstClock(s.devices[d], env.schema);
  }

  lemma FirstClock(c: Client, t: Schema)
    ensures DeltaOf(c, t).lamport == c.clock
  {
  }

  lemma FirstState(t: System, p: SyncPayload, k: Key, env: Env) returns (s: System)
    requires WellFormed(env.schema) && Reachable(t, env) && Full(p) in t.requests && t.server == EMPTY
    requires k in CellsOf(p.changes) && p.lamport <= MAX_CLOCK_ADVANCE
    ensures Reachable(s, env) && s.devices == t.devices && k in s.server.cells
    ensures forall j :: j in s.server.cells ==> j in CellsOf(p.changes)
    ensures s.server.lamport == p.lamport + 1 && s.server.seqNo <= |CellsOf(p.changes)|
  {
    var m;
    s, m := AllowedState(t, p, env);
    FirstStored(p, k, m, env);
    FirstNumbers(p, m, env);
  }

  /** What the first device sends: the cells of its row. */
  lemma InsertedSent(i: System, d: string, row: string, env: Env)
    requires WellFormed(env.schema) && |env.schema.types| <= MAX_PAYLOAD_CELLS
    requires Reachable(i, env) && d in i.devices && i.devices[d] == Inserted(d, row, env.schema)
    ensures CarriesRow(DeltaOf(i.devices[d], env.schema), row)
  {
    DeviceNamed(i, d, env);
    InsertedDelta(d, row, env.schema);
    forall k | k in DirtyCells(i.devices[d]) ensures k.row == row {
      InsertedKey(d, row, env.schema, k);
    }
  }

  /** A new device's first row is merged by an empty server. */
  lemma FirstMerges(d: string, row: string, env: Env)
    requires WellFormed(env.schema) && |env.schema.types| <= MAX_PAYLOAD_CELLS
    requires ValidIdentifier(d) && d != SERVER_DEVICE && ValidIdentifier(row)
    ensures var p := DeltaOf(Inserted(d, row, env.schema), env.schema);
      && LocalDelta(Inserted(d, row, env.schema), env.schema) == Ok(p) && CarriesRow(p, row)
      && CellsOf(p.changes) == DirtyCells(Inserted(d, row, env.schema))
      && Merge(EMPTY, p, d, ALLOW_ALL, env).Ok?
  {
    var i := InsertedState(d, row, env);
    InsertedSent(i, d, row, env);
    DeviceNamed(i, d, env);
    var t, p := DeltaSentBy(i, d, env);
    FirstMerged(t, p, env);
  }

  lemma FirstMerged(t: System, p: SyncPayload, env: Env)
    requires WellFormed(env.schema) && Reachable(t, env) && Full(p) in t.requests && t.server == EMPTY
    requires p.lamport <= MAX_CLOCK_ADVANCE
    ensures Merge(EMPTY, p, p.source, ALLOW_ALL, env).Ok?
  {
    var u, m := AllowedState(t, p, env);
  }

  lemma AllowedState(t: System, p: SyncPayload, env: Env) returns (u: System, m: Merged)
    requires WellFormed(env.schema) && Reachable(t, env) && Full(p) in t.requests
    requires ClockAdvanceOk(t.server.lamport, p.lamport) && Max(t.server.lamport, p.lamport) + 1 <= U64_MAX
    ensures Merge(t.server, p, p.source, ALLOW_ALL, env) == Ok(m) && Reachable(u, env)
    ensures u == t.(server := m.state, exchanges := t.exchanges + {FullExchange(p, m.response)})
  {
    assert Decides(ALLOW_ALL);
    ServeCloses(t, p, ALLOW_ALL, env);
    m := Merge(t.server, p, p.source, ALLOW_ALL, env).value;
    ServedIs(t, p, ALLOW_ALL, env, m);
    ReachableNext(t, Serve(Full(p), ALLOW_ALL), env);
    u := t.(server := m.state, exchanges := t.exchanges + {FullExchange(p, m.response)});
  }

  /** An empty server stores what the first request carries. */
  lemma FirstStored(p: SyncPayload, k: Key, m: Merged, env: Env)
    requires Merge(EMPTY, p, p.source, ALLOW_ALL, env) == Ok(m) && k in CellsOf(p.changes)
    ensures k in m.state.cells && forall j :: j in m.state.cells ==> j in CellsOf(p.changes)
  {
    MergeIsFilteredJoin(EMPTY, p, p.source, ALLOW_ALL, env, k);
    assert Admits(ALLOW_ALL, p.source, k, CellsOf(p.changes)[k], None);
    forall j | j in m.state.cells ensures j in CellsOf(p.changes) {
      MergeOrigin(EMPTY, p, p.source, ALLOW_ALL, env, j);
    }
  }

  lemma FirstNumbers(p: SyncPayload, m: Merged, env: Env)
    requires Merge(EMPTY, p, p.source, ALLOW_ALL, env) == Ok(m)
    ensures m.state.lamport == p.lamport + 1 && m.state.seqNo <= |CellsOf(p.changes)|
  {
    var b, w := MergeParts(EMPTY, p, p.source, ALLOW_ALL, env);
    SubsetSize(AppliedKeys(EMPTY.cells, RulingOf(ALLOW_ALL, p.source), w), w.Keys);
  }

  /** For every contract whose rows fit a payload there is a run in which a device leaves its scope, resets
      its cursor, sends no scoped request any more, and stands beyond server cells it does not hold. */
  lemma SomeResetDoesNotRepair(d: string, e: string, scope: string, row: string, other: string, env: Env)
    returns (v: System, after: seq<Action>)
    requires WellFormed(env.schema) && |env.schema.types| <= MAX_PAYLOAD_CELLS
    requires ValidIdentifier(d) && ValidIdentifier(e) && d != e && d != SERVER_DEVICE && e != SERVER_DEVICE
    requires ValidIdentifier(scope) && ValidIdentifier(row) && ValidIdentifier(other) && row != other
    ensures Reachable(v, env) && e in v.devices && LeftScopes(v.devices[e]) && NoScopedSend(after, e)
    ensures !CoversCursor(Run(Step(v, Rewind(e), env), after, env), e)
  {
    var s := StoredState(d, row, env);
    var u := ScopedRoundSkips(s, e, scope, other, env);
    v, after := LateAnswerUndoesReset(u, e, scope, env);
  }
}
