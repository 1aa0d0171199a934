/** Acknowledging a delta without looking at the response's rejections: exactly when
    that loses no write, and a run in which it loses one. */
module BareAcknowledge {
  import opened Names
  import opened Cells
  import opened Payload
  import opened Server
  import opened ServerFacts
  import opened Client
  import opened ClientFacts
  import opened Conservation
  import opened System
  import opened SystemProofs
  import opened MergeLaws
  import opened Closure

  /** The transaction: everything sent becomes clean where it is still stored, then cleanup. */
  ghost function BareAcknowledged(c: Client, sent: SyncPayload): Client {
    Cleanup(Acknowledge(c, CellsOf(sent.changes), []))
  }

  /** The response lists the still stored, dirty cell at `k` as rejected: what a device can look up before it acknowledges. */
  ghost predicate ListedAt(c: Client, sent: SyncPayload, rs: seq<Rejection>, k: Key) {
    && k in CellsOf(sent.changes) && k in c.log && c.log[k].dirty
    && c.log[k].cell.version == CellsOf(sent.changes)[k].version
    && RejectedVersion(rs, k, c.log[k].cell.version)
  }

  /** Every listed cell reached the server all the same, as when a repeated request met another policy. */
  ghost predicate ListedAreHeld(c: Client, sent: SyncPayload, rs: seq<Rejection>, cells: map<Key, Cell>) {
    forall k :: ListedAt(c, sent, rs, k) ==> Holds(cells, k, c.log[k].cell.version)
  }

  lemma ListedHeldIsSentHeld(c: Client, sent: SyncPayload, rs: seq<Rejection>, cells: map<Key, Cell>)
    requires Delivered(CellsOf(sent.changes), rs, cells)
    ensures SentIsHeld(c, CellsOf(sent.changes), cells) <==> ListedAreHeld(c, sent, rs, cells)
  {
    if SentIsHeld(c, CellsOf(sent.changes), cells) {
      forall k | ListedAt(c, sent, rs, k) ensures Holds(cells, k, c.log[k].cell.version) {
      }
    }
  }

  /** A dirty cell that became clean without being held is lost, evicted or not. */
  lemma LostWhenNotHeld(c: Client, sent: map<Key, Cell>, s: State, h: History, t: Schema, k: Key)
    requires Sound(c, t) && Conserved(c, s.cells, h)
    requires k in sent && k in c.log && c.log[k].dirty && c.log[k].cell.version == sent[k].version
    requires !Holds(s.cells, k, sent[k].version)
    ensures !Conserved(Cleanup(Acknowledge(c, sent, [])), s.cells, h)
  {
    var d := Cleanup(Acknowledge(c, sent, []));
    var x := Stamp(k, sent[k].version);
    assert EntryKnown(c, s.cells, h, k) && SoundEntry(c, t, k);
    assert k in d.log ==> !d.log[k].dirty;
    assert !WriteKept(d, s.cells, h, x);
  }

  lemma BareConservesExactly(c: Client, sent: SyncPayload, rs: seq<Rejection>, s: State, h: History, t: Schema)
    requires Sound(c, t) && Conserved(c, s.cells, h) && Delivered(CellsOf(sent.changes), rs, s.cells)
    ensures Conserved(BareAcknowledged(c, sent), s.cells, h) <==> ListedAreHeld(c, sent, rs, s.cells)
  {
    var m := CellsOf(sent.changes);
    ListedHeldIsSentHeld(c, sent, rs, s.cells);
    if SentIsHeld(c, m, s.cells) {
      BareAcknowledgeConserves(c, m, s.cells, h);
      CleanupConserved(Acknowledge(c, m, []), s.cells, h);
    } else {
      var k :| k in m && k in c.log && c.log[k].dirty && c.log[k].cell.version == m[k].version && !Holds(s.cells, k, m[k].version);
      LostWhenNotHeld(c, m, s, h, t, k);
    }
  }

  /** In every run, acknowledging the request of an answered exchange without its rejections keeps
      every write of the device accounted for if and only if the server holds each still stored cell
      that the response lists as rejected. */
  lemma ConservesExactly(s: System, e: Exchange, env: Env)
    requires WellFormed(env.schema) && Reachable(s, env) && e in s.exchanges && e.FullExchange?
    ensures e.sent.source in s.devices
    ensures var c := s.devices[e.sent.source];
      Conserved(BareAcknowledged(c, e.sent), s.server.cells, s.history) <==>
        ListedAreHeld(c, e.sent, e.response.rejections, s.server.cells)
  {
    ReachableOk(s, env);
    var c := s.devices[e.sent.source];
    assert ExchangeOk(e, c, s.server, s.history, env.schema) && DeviceOk(c, s.server, s.history, env.schema);
    BareConservesExactly(c, e.sent, e.response.rejections, s.server, s.history, env.schema);
  }

  /** A device that finds none of its stored cells listed may acknowledge bare. */
  lemma SafeWhenNothingListed(s: System, e: Exchange, env: Env)
    requires WellFormed(env.schema) && Reachable(s, env) && e in s.exchanges && e.FullExchange? && e.sent.source in s.devices
    requires forall k :: !ListedAt(s.devices[e.sent.source], e.sent, e.response.rejections, k)
    ensures Conserved(BareAcknowledged(s.devices[e.sent.source], e.sent), s.server.cells, s.history)
  {
    ConservesExactly(s, e, env);
  }

  // --- A run that loses a write ----------------------------------------

  const DENY_ALL: Security :=
    Security((d, k, c, o) => Deny(AuthorizationDenied, "denied"), (d, k, c, o) => Allow)

  lemma DenyAllDecides()
    ensures Decides(DENY_ALL)
  {
    PlainIdentifier("denied");
  }

  /** A merge that denies everything stores nothing and lists everything. */
  lemma DeniedMerge(s: State, p: SyncPayload, env: Env, k: Key)
    requires Valid(s) && Merge(s, p, p.source, DENY_ALL, env).Ok? && k in CellsOf(p.changes)
    ensures var m := Merge(s, p, p.source, DENY_ALL, env).value;
      && Lookup(m.state.cells, k) == Lookup(s.cells, k)
      && RejectedVersion(m.response.rejections, k, CellsOf(p.changes)[k].version)
  {
    assert !Admits(DENY_ALL, p.source, k, CellsOf(p.changes)[k], Lookup(s.cells, k));
    MergeIsFilteredJoin(s, p, p.source, DENY_ALL, env, k);
    RejectedExactlyDenied(s, p, p.source, DENY_ALL, env, k);
  }

  lemma ReachableNext(s: System, a: Action, env: Env)
    requires Reachable(s, env)
    ensures Reachable(Step(s, a, env), env)
  {
    var actions :| s == Run(INITIAL, actions, env);
    assert (actions + [a])[..|actions|] == actions;
    assert Step(s, a, env) == Run(INITIAL, actions + [a], env);
  }

  /** Sending puts the delta into the pool and changes nothing else. */
  lemma SentState(s: System, d: string, env: Env) returns (t: System)
    requires Reachable(s, env) && d in s.devices && LocalDelta(s.devices[d], env.schema).Ok?
    ensures Reachable(t, env) && t == s.(requests := s.requests + {Full(DeltaOf(s.devices[d], env.schema))})
  {
    t := Step(s, Send(d), env);
    ReachableNext(s, Send(d), env);
  }

  /** Serving a request under the denying policy. */
  lemma DeniedState(s: System, p: SyncPayload, env: Env) returns (u: System, m: Merged)
    requires WellFormed(env.schema) && Reachable(s, env) && Full(p) in s.requests
    requires ClockAdvanceOk(s.server.lamport, p.lamport) && Max(s.server.lamport, p.lamport) + 1 <= U64_MAX
    ensures Merge(s.server, p, p.source, DENY_ALL, env) == Ok(m)
    ensures Reachable(u, env)
    ensures u == s.(server := m.state, exchanges := s.exchanges + {FullExchange(p, m.response)})
  {
    DenyAllDecides();
    ServeCloses(s, p, DENY_ALL, env);
    m := Merge(s.server, p, p.source, DENY_ALL, env).value;
    ServedIs(s, p, DENY_ALL, env, m);
    ReachableNext(s, Serve(Full(p), DENY_ALL), env);
    u := s.(server := m.state, exchanges := s.exchanges + {FullExchange(p, m.response)});
  }

  lemma ServedIs(s: System, p: SyncPayload, sec: Security, env: Env, m: Merged)
    requires Full(p) in s.requests && Merge(s.server, p, p.source, sec, env) == Ok(m)
    ensures Step(s, Serve(Full(p), sec), env) == s.(server := m.state, exchanges := s.exchanges + {FullExchange(p, m.response)})
  {
    AnsweredIs(s.server, p, sec, env, m);
    StepIs(s, Full(p), sec, env, Served(m.state, FullExchange(p, m.response)));
  }

  lemma AnsweredIs(server: State, p: SyncPayload, sec: Security, env: Env, m: Merged)
    requires Merge(server, p, p.source, sec, env) == Ok(m)
    ensures Answered(server, Full(p), sec, env) == Ok(Served(m.state, FullExchange(p, m.response)))
  {
  }

  lemma StepIs(s: System, r: Request, sec: Security, env: Env, v: Served)
    requires r in s.requests && Answered(s.server, r, sec, env) == Ok(v)
    ensures Step(s, Serve(r, sec), env) == s.(server := v.state, exchanges := s.exchanges + {v.exchange})
  {
    ServeIsStep(s, r, sec, env);
    ServeStepIs(s, r, sec, env, v);
  }

  lemma ServeIsStep(s: System, r: Request, sec: Security, env: Env)
    ensures Step(s, Serve(r, sec), env) == StepServe(s, r, sec, env)
  {
  }

  lemma ServeStepIs(s: System, r: Request, sec: Security, env: Env, v: Served)
    requires r in s.requests && Answered(s.server, r, sec, env) == Ok(v)
    ensures StepServe(s, r, sec, env) == s.(server := v.state, exchanges := s.exchanges + {v.exchange})
  {
  }

  /** From any reachable state in which a device has a cell the server does not hold, sending,
      denying and acknowledging bare loses that write. */
  lemma DenialLoses(s: System, d: string, k: Key, env: Env) returns (u: System, e: Exchange)
    requires WellFormed(env.schema) && Reachable(s, env) && d in s.devices
    requires k in DirtyCells(s.devices[d]) && !Holds(s.server.cells, k, DirtyCells(s.devices[d])[k].version)
    requires LocalDelta(s.devices[d], env.schema).Ok?
    requires ClockAdvanceOk(s.server.lamport, s.devices[d].clock) && Max(s.server.lamport, s.devices[d].clock) + 1 <= U64_MAX
    ensures Reachable(u, env) && e in u.exchanges && e.FullExchange? && e.sent.source in u.devices
    ensures !Conserved(BareAcknowledged(u.devices[e.sent.source], e.sent), u.server.cells, u.history)
  {
    var p := DeltaOf(s.devices[d], env.schema);
    DeviceNamed(s, d, env);
    var t := SentState(s, d, env);
    var m;
    u, m := DeniedState(t, p, env);
    e := FullExchange(p, m.response);
    DeniedMerge(s.server, p, env, k);
    ConservesExactly(u, e, env);
    assert ListedAt(u.devices[d], p, e.response.rejections, k);
  }

  lemma DeviceNamed(s: System, d: string, env: Env)
    requires WellFormed(env.schema) && Reachable(s, env) && d in s.devices
    ensures s.devices[d].device == d && Valid(s.server)
    ensures CellsOf(DeltaOf(s.devices[d], env.schema).changes) == DirtyCells(s.devices[d])
  {
    ReachableOk(s, env);
    assert DeviceOk(s.devices[d], s.server, s.history, env.schema);
    DeltaValid(s.devices[d], env.schema);
  }

  /** Such a run exists for every contract whose rows fit a payload: a device joins, inserts a row,
      sends it, is denied, and acknowledges bare. */
  lemma SomeRunLosesAWrite(d: string, row: string, env: Env) returns (u: System, e: Exchange)
    requires WellFormed(env.schema) && |env.schema.types| <= MAX_PAYLOAD_CELLS
    requires ValidIdentifier(d) && d != SERVER_DEVICE && ValidIdentifier(row)
    ensures Reachable(u, env) && e in u.exchanges && e.FullExchange? && e.sent.source in u.devices
    ensures !Conserved(BareAcknowledged(u.devices[e.sent.source], e.sent), u.server.cells, u.history)
  {
    var s := InsertedState(d, row, env);
    u, e := DenialLoses(s, d, Key(row, LIVENESS), env);
  }

  lemma InsertedState(d: string, row: string, env: Env) returns (s: System)
    requires WellFormed(env.schema) && |env.schema.types| <= MAX_PAYLOAD_CELLS
    requires ValidIdentifier(d) && d != SERVER_DEVICE && ValidIdentifier(row)
    ensures Reachable(s, env) && d in s.devices && s.server == EMPTY && s.devices[d].clock == 1
    ensures Key(row, LIVENESS) in DirtyCells(s.devices[d]) && LocalDelta(s.devices[d], env.schema).Ok?
    ensures s.devices == map[d := Inserted(d, row, env.schema)]
  {
    assert INITIAL == Run(INITIAL, [], env);
    var j := INITIAL.(devices := map[d := Fresh(d)]);
    ReachableNext(INITIAL, Join(d), env);
    assert Step(INITIAL, Join(d), env) == j;
    s := Step(j, Local(d, Insert(row, map[])), env);
    ReachableNext(j, Local(d, Insert(row, map[])), env);
    InsertIs(j, d, row, env);
    InsertedDelta(d, row, env.schema);
    DeltaCloses(s, d, env);
  }

  lemma InsertIs(j: System, d: string, row: string, env: Env)
    requires ValidIdentifier(row) && j == INITIAL.(devices := map[d := Fresh(d)])
    ensures var s := Step(j, Local(d, Insert(row, map[])), env);
      s.server == EMPTY && s.devices == map[d := Inserted(d, row, env.schema)]
  {
    assert Fresh(d).rows + {row} == {row};
    assert Apply(Fresh(d), Insert(row, map[]), env.schema) == Ok(Inserted(d, row, env.schema));
  }

  /** A new device after inserting one row of defaults. */
  ghost function Inserted(d: string, row: string, t: Schema): Client {
    Capture(Fresh(d).(rows := {row}), RowValues(row, map[], t))
  }

  lemma InsertedKey(d: string, row: string, t: Schema, k: Key)
    ensures k in DirtyCells(Inserted(d, row, t)) <==> k.row == row && k.column in t.types
  {
    RowValuesFacts(row, map[], t, k);
  }

  lemma InsertedDelta(d: string, row: string, t: Schema)
    requires WellFormed(t) && |t.types| <= MAX_PAYLOAD_CELLS
    ensures var m := DirtyCells(Inserted(d, row, t));
      Key(row, LIVENESS) in m && |RowIds(m)| <= MAX_PAYLOAD_ROWS && |m| <= MAX_PAYLOAD_CELLS
  {
    var m := DirtyCells(Inserted(d, row, t));
    forall k ensures k in m <==> k.row == row && k.column in t.types {
      InsertedKey(d, row, t, k);
    }
    SubsetSize(RowIds(m), {row});
    RowGrid(row, t.types.Keys);
    SubsetSize(m.Keys, Grid({row}, t.types.Keys));
  }

  lemma {:induction false} RowGrid(row: string, columns: set<string>)
    ensures |Grid({row}, columns)| == |columns|
    decreases columns
  {
    if columns == {} {
      assert Grid({row}, columns) == {};
    } else {
      var c :| c in columns;
      RowGrid(row, columns - {c});
      assert Grid({row}, columns) == Grid({row}, columns - {c}) + {Key(row, c)};
    }
  }
}
