/** Protocol closure: what honest devices and the server say to each other is
    accepted, except for the stated size and clock limits. */
module Closure {
  import opened Names
  import opened Cells
  import opened Payload
  import opened Server
  import opened ServerFacts
  import opened Replica
  import opened Client
  import opened Conservation
  import opened System
  import opened SystemProofs

  /** In every run a device can build its delta exactly when its dirty cells fit the payload limits. */
  lemma DeltaCloses(s: System, d: string, env: Env)
    requires WellFormed(env.schema) && Reachable(s, env) && d in s.devices
    ensures LocalDelta(s.devices[d], env.schema).Ok? <==>
      && |RowIds(DirtyCells(s.devices[d]))| <= MAX_PAYLOAD_ROWS
      && |DirtyCells(s.devices[d])| <= MAX_PAYLOAD_CELLS
  {
    ReachableOk(s, env);
    assert DeviceOk(s.devices[d], s.server, s.history, env.schema);
    DeltaValid(s.devices[d], env.schema);
  }

  // --- Serving ---------------------------------------------------------

  lemma JudgedWithoutFault(sec: Security, d: string, w: Write, current: Option<Cell>)
    requires Decides(sec)
    requires ValidIdentifier(w.key.row) && ValidIdentifier(w.key.column)
    requires ValidIdentifier(w.cell.version.device) && w.cell.version.clock <= I64_MAX
    requires current.Some? && current.value.version == w.cell.version ==> current.value.value == w.cell.value
    ensures !Judge(sec, d, w, current).Fault?
  {
    assert Decided(sec.authorize(d, w.key, w.cell, current));
    assert Decided(sec.validate(d, w.key, w.cell, current));
    if current.Some? { VersionTotal(current.value.version, w.cell.version); }
  }

  lemma HonestWritesPass(s: State, p: SyncPayload, c: Client, sec: Security, env: Env, h: History)
    requires ServerOk(s, h, env.schema) && SentOk(p, c, s, h, env.schema) && WellFormed(env.schema) && Decides(sec)
    ensures NoFault(s.cells, RulingOf(sec, c.device), Writes(p.changes))
  {
    var ws, who := Writes(p.changes), RulingOf(sec, c.device);
    WritesDistinct(p.changes);
    AsMapMembers(ws);
    ValidRowsCells(env.schema, p.changes);
    forall i | 0 <= i < |ws| ensures !JudgeIn(s.cells, who, ws[i]).Fault? {
      var w := ws[i];
      assert w in ws;
      assert w.key in AsMap(ws) && AsMap(ws)[w.key] == w.cell;
      HonestWritePasses(s, w, c.device, sec, env, h);
    }
  }

  lemma HonestWritePasses(s: State, w: Write, d: string, sec: Security, env: Env, h: History)
    requires AllRecorded(h, s.cells) && Recorded(h, w.key, w.cell) && WellFormed(env.schema) && Decides(sec)
    requires ValidIdentifier(w.key.row) && ValidCell(env.schema, w.key, w.cell)
    ensures !JudgeIn(s.cells, RulingOf(sec, d), w).Fault?
  {
    if w.key in s.cells { assert Recorded(h, w.key, s.cells[w.key]); }
    JudgedWithoutFault(sec, d, w, Lookup(s.cells, w.key));
  }

  lemma HonestMerges(s: System, r: Request, sec: Security, env: Env)
    requires WellFormed(env.schema) && Inv(s, env.schema) && r in s.requests && Decides(sec)
    ensures var p := PayloadOf(r);
      Merge(s.server, p, p.source, sec, env).Ok? <==>
        ClockAdvanceOk(s.server.lamport, p.lamport) && Max(s.server.lamport, p.lamport) + 1 <= U64_MAX
  {
    var p := PayloadOf(r);
    assert RequestOk(r, s.devices[p.source], s.server, s.history, env.schema);
    var c := s.devices[p.source];
    HonestWritesPass(s.server, p, c, sec, env, s.history);
    WritesDistinct(p.changes);
    AbsorbAllJoins(Start(s.server), RulingOf(sec, c.device), Writes(p.changes));
    MaxObservedIsSource(p);
    MergeSucceeds(s.server, p, p.source, sec, env);
  }

  /** In every run, whatever the policy decides, an honest request is merged exactly when
      its clock is within the per-request advance and the server clock has not run out.
      In particular no two cells of a run ever clash at one version. */
  lemma ServeCloses(s: System, p: SyncPayload, sec: Security, env: Env)
    requires WellFormed(env.schema) && Reachable(s, env) && Full(p) in s.requests && Decides(sec)
    ensures Merge(s.server, p, p.source, sec, env).Ok? <==>
      && ClockAdvanceOk(s.server.lamport, p.lamport)
      && Max(s.server.lamport, p.lamport) + 1 <= U64_MAX
  {
    ReachableOk(s, env);
    HonestMerges(s, Full(p), sec, env);
  }

  /** In every run a scoped request is served exactly when its clock is within the per-request advance,
      the answer's clock is storable, and the scope as it stands after the merge fits one answer. */
  lemma ServeScopedCloses(s: System, q: PartialRequest, env: Env)
    requires WellFormed(env.schema) && Reachable(s, env) && Scoped(q) in s.requests
    ensures var p := q.sync;
      MergePartial(s.server, q, p.source, env).Ok? <==>
        && ClockAdvanceOk(s.server.lamport, p.lamport)
        && Max(s.server.lamport, p.lamport) < I64_MAX
        && Merge(s.server, p, p.source, ALLOW_ALL, env).Ok?
        && ScopeFits(Merge(s.server, p, p.source, ALLOW_ALL, env).value.state.cells, q.interest, env)
    ensures ClockAdvanceOk(s.server.lamport, q.sync.lamport) && Max(s.server.lamport, q.sync.lamport) < I64_MAX ==>
      Merge(s.server, q.sync, q.sync.source, ALLOW_ALL, env).Ok?
  {
    ReachableOk(s, env);
    assert RequestOk(Scoped(q), s.devices[q.sync.source], s.server, s.history, env.schema);
    assert Decides(ALLOW_ALL);
    HonestMerges(s, Scoped(q), ALLOW_ALL, env);
    var merged := Merge(s.server, q.sync, q.sync.source, ALLOW_ALL, env);
    if merged.Ok? { ScopedConcludes(s.server, q, merged.value, env); }
  }

  /** The merge under a scoped request: its clock, its cells, and when its answer is valid. */
  lemma MergedForScope(s: State, q: PartialRequest, m: Merged, env: Env)
    requires Valid(s) && ValidCells(env.schema, s.cells)
    requires Merge(s, q.sync, q.sync.source, ALLOW_ALL, env) == Ok(m)
    ensures m.response.lamport == Max(s.lamport, q.sync.lamport) + 1
    ensures ValidCells(env.schema, m.state.cells) && ClocksBelow(m.state.cells, m.response.lamport)
    ensures ValidResponse(m.response, env.schema) <==> Max(s.lamport, q.sync.lamport) < I64_MAX
  {
    ServerIdentifier();
    MergeStored(s, q.sync, q.sync.source, ALLOW_ALL, env);
    MergeGrows(s, q.sync, q.sync.source, ALLOW_ALL, env);
    MergeResponse(s, q.sync, q.sync.source, ALLOW_ALL, env);
    MergeResponseValid(s, q.sync, q.sync.source, ALLOW_ALL, env);
  }

  lemma ScopedConcludes(s: State, q: PartialRequest, m: Merged, env: Env)
    requires Valid(s) && ValidCells(env.schema, s.cells) && ValidPartialRequest(q, q.sync.source, env.schema)
    requires Merge(s, q.sync, q.sync.source, ALLOW_ALL, env) == Ok(m)
    ensures MergePartial(s, q, q.sync.source, env).Ok? <==>
      Max(s.lamport, q.sync.lamport) < I64_MAX && ScopeFits(m.state.cells, q.interest, env)
  {
    MergedForScope(s, q, m, env);
    PartialIs(s, q, m, env);
    ConcludesExactly(m, q, env);
  }

  lemma PartialIs(s: State, q: PartialRequest, m: Merged, env: Env)
    requires ValidPartialRequest(q, q.sync.source, env.schema) && Merge(s, q.sync, q.sync.source, ALLOW_ALL, env) == Ok(m)
    ensures MergePartial(s, q, q.sync.source, env) == ConcludePartial(m, q, env)
  {
  }

  lemma ConcludesExactly(m: Merged, q: PartialRequest, env: Env)
    requires ValidPartialRequest(q, q.sync.source, env.schema) && ValidCells(env.schema, m.state.cells)
    requires ClocksBelow(m.state.cells, m.response.lamport)
    requires ValidResponse(m.response, env.schema) <==> m.response.lamport <= I64_MAX
    ensures ConcludePartial(m, q, env).Ok? <==> m.response.lamport <= I64_MAX && ScopeFits(m.state.cells, q.interest, env)
  {
    if m.response.lamport <= I64_MAX {
      PartialSucceeds(m, q, q.sync.source, env);
    } else {
      Unconcluded(m, q, env);
    }
  }

  lemma Unconcluded(m: Merged, q: PartialRequest, env: Env)
    requires m.response.lamport > I64_MAX
    ensures ConcludePartial(m, q, env).Err?
  {
  }

  /** In every run the server never tells a device to reset its cursor. */
  lemma NeverReset(s: System, e: Exchange, env: Env)
    requires WellFormed(env.schema) && Reachable(s, env) && e in s.exchanges
    ensures !AnswerIn(e).cursorReset
  {
    ReachableOk(s, env);
    assert ExchangeOk(e, s.devices[SentIn(e).source], s.server, s.history, env.schema);
  }

  // --- Delivering ------------------------------------------------------

  lemma NoClash(c: Client, b: Client, m: map<Key, Cell>, cells: map<Key, Cell>, h: History, k: Key)
    requires Conserved(c, cells, h) && AllRecorded(h, m) && k in m
    requires k in b.log ==> k in c.log && b.log[k].cell == c.log[k].cell
    ensures !Conflicts(b.log, k, m[k])
  {
    assert EntryKnown(c, cells, h, k);
    assert Recorded(h, k, m[k]);
  }

  /** Acknowledgement and cleanup change no stored cell. */
  lemma AcknowledgeKeepsCells(c: Client, sent: map<Key, Cell>, rs: seq<Rejection>, k: Key)
    ensures var b := Cleanup(Acknowledge(c, sent, rs));
      b.clock == c.clock && (k in b.log ==> k in c.log && b.log[k].cell == c.log[k].cell)
  {
  }

  lemma RoundSucceeds(c: Client, p: SyncPayload, r: SyncPayload, s: State, h: History, t: Schema)
    requires Conserved(c, s.cells, h) && SentOk(p, c, s, h, t) && AnswerOk(p, r, c.device, s, h, t)
    ensures CompleteSync(c, p, r, t).Ok? <==> Max(c.clock, r.lamport) < I64_MAX
  {
    var b := Cleanup(Acknowledge(c, CellsOf(p.changes), r.rejections));
    if ValidResponse(r, t) {
      MaxObservedIsSource(r);
      NoClashes(c, CellsOf(p.changes), r, s, h, t);
      assert AcknowledgeResponse(c, p, r, t) == Ok(b);
      ApplySucceeds(b, r, t);
    }
  }

  lemma NoClashes(c: Client, sent: map<Key, Cell>, r: SyncPayload, s: State, h: History, t: Schema)
    requires Conserved(c, s.cells, h) && AllRecorded(h, CellsOf(r.changes))
    ensures var b := Cleanup(Acknowledge(c, sent, r.rejections));
      forall k :: k in CellsOf(r.changes) ==> !Conflicts(b.log, k, CellsOf(r.changes)[k])
  {
    var b := Cleanup(Acknowledge(c, sent, r.rejections));
    var m := CellsOf(r.changes);
    forall k | k in m ensures !Conflicts(b.log, k, m[k]) {
      AcknowledgeKeepsCells(c, sent, r.rejections, k);
      NoClash(c, b, m, s.cells, h, k);
    }
  }

  lemma ApplySucceeds(b: Client, r: SyncPayload, t: Schema)
    requires ValidResponse(r, t) && MaxObserved(r) == r.lamport
    requires forall k :: k in CellsOf(r.changes) ==> !Conflicts(b.log, k, CellsOf(r.changes)[k])
    ensures ApplyRemote(b, r, t).Ok? <==> Max(b.clock, r.lamport) < I64_MAX
  {
  }

  /** In every run a full exchange can be completed exactly when the device clock can still advance past it. */
  lemma DeliverCloses(s: System, e: Exchange, env: Env)
    requires WellFormed(env.schema) && Reachable(s, env) && e in s.exchanges && e.FullExchange?
    ensures e.sent.source in s.devices
    ensures var c := s.devices[e.sent.source];
      CompleteSync(c, e.sent, e.response, env.schema).Ok? <==> Max(c.clock, e.response.lamport) < I64_MAX
  {
    ReachableOk(s, env);
    var c := s.devices[e.sent.source];
    assert ExchangeOk(e, c, s.server, s.history, env.schema) && DeviceOk(c, s.server, s.history, env.schema);
    RoundSucceeds(c, e.sent, e.response, s.server, s.history, env.schema);
  }

  /** In every run a scoped exchange can be completed exactly when its scope is still active
      at the requested revision and the device clock can still advance past it. */
  lemma DeliverScopedCloses(s: System, e: Exchange, env: Env)
    requires WellFormed(env.schema) && Reachable(s, env) && e in s.exchanges && e.ScopedExchange?
    ensures e.request.sync.source in s.devices
    ensures var c := s.devices[e.request.sync.source];
      CompletePartial(c, e.request, e.answer, env.schema).Ok? <==>
        && e.request.scope in c.scopes && c.scopes[e.request.scope] == Scope(e.request.version, true)
        && Max(c.clock, e.answer.sync.lamport) < I64_MAX
  {
    ReachableOk(s, env);
    var c := s.devices[e.request.sync.source];
    assert ExchangeOk(e, c, s.server, s.history, env.schema) && DeviceOk(c, s.server, s.history, env.schema);
    RoundSucceeds(c, e.request.sync, e.answer.sync, s.server, s.history, env.schema);
    ScopedSucceeds(c, e.request, e.answer, env.schema);
  }

  lemma ScopedSucceeds(c: Client, q: PartialRequest, r: PartialResponse, t: Schema)
    requires ValidPartialRequest(q, c.device, t) && ScopedAnswerOk(q, r, t)
    ensures CompletePartial(c, q, r, t).Ok? <==>
      q.scope in c.scopes && c.scopes[q.scope] == Scope(q.version, true) && CompleteSync(c, q.sync, r.sync, t).Ok?
  {
  }
}
