/** Every action keeps the system invariant, so it holds in every run. */
module SystemProofs {
  import opened Names
  import opened Cells
  import opened Payload
  import opened Server
  import opened ServerFacts
  import opened Replica
  import opened Client
  import opened ClientFacts
  import opened Conservation
  import opened System

  // --- Device transactions --------------------------------------------

  lemma LocalKeeps(c: Client, op: LocalOp, s: State, h: History, t: Schema)
    requires DeviceOk(c, s, h, t) && WellFormed(t) && Apply(c, op, t).Ok?
    ensures var d := Apply(c, op, t).value;
      && DeviceOk(d, s, Record(h, c, d), t) && Moves(c, d)
      && Extends(h, Record(h, c, d))
      && forall x :: x in Record(h, c, d) && x !in h ==> x.version.device == c.device
  {
    var d := Apply(c, op, t).value;
    ApplySound(c, op, t);
    ApplySteps(c, op, t);
    LocalKept(c, d, s, h, t);
  }

  lemma LocalKept(c: Client, d: Client, s: State, h: History, t: Schema)
    requires DeviceOk(c, s, h, t) && Sound(d, t) && LocalStep(c, d)
    ensures DeviceOk(d, s, Record(h, c, d), t) && Moves(c, d)
    ensures Extends(h, Record(h, c, d))
    ensures forall x :: x in Record(h, c, d) && x !in h ==> x.version.device == c.device
  {
    LocalConserved(c, d, s.cells, h);
    LocalGrows(c, d, t);
    RecordFresh(h, c, d, s.cells);
    if c.scopes == map[] { CoversLog(c, d, s, c.cursor); }
  }

  /** The dirty delta of a sound device is a valid request whenever it fits the limits. */
  lemma DeltaValid(c: Client, t: Schema)
    requires Sound(c, t)
    ensures CellsOf(DeltaOf(c, t).changes) == DirtyCells(c)
    ensures ValidRequest(DeltaOf(c, t), c.device, t) <==>
      |RowIds(DirtyCells(c))| <= MAX_PAYLOAD_ROWS && |DirtyCells(c)| <= MAX_PAYLOAD_CELLS
  {
    DirtySound(c, t);
    GroupRowsRoundTrip(DirtyCells(c));
    GroupedRequestValid(DeltaOf(c, t), c.device, t, DirtyCells(c));
  }

  lemma DirtySound(c: Client, t: Schema)
    requires Sound(c, t)
    ensures ValidCells(t, DirtyCells(c)) && AuthoredBy(DirtyCells(c), c.device) && ClocksWithin(DirtyCells(c), c.clock)
  {
    var m := DirtyCells(c);
    forall k | k in m
      ensures ValidIdentifier(k.row) && ValidCell(t, k, m[k]) && m[k].version.device == c.device && m[k].version.clock <= c.clock
    {
      assert SoundEntry(c, t, k);
    }
  }

  lemma DeltaSent(c: Client, d: Client, s: State, h: History, t: Schema)
    requires DeviceOk(c, s, h, t) && ValidRequest(DeltaOf(c, t), c.device, t)
    requires d == c.(scopes := d.scopes) && (d.scopes == map[] ==> c.scopes == map[])
    ensures SentOk(DeltaOf(c, t), d, s, h, t)
  {
    DeltaValid(c, t);
    forall k | k in DirtyCells(c) ensures Recorded(h, k, DirtyCells(c)[k]) {
      assert EntryKnown(c, s.cells, h, k);
    }
    if d.scopes == map[] { CoversLog(c, d, s, c.cursor) by { LogSame(c, d); } }
  }

  lemma LogSame(c: Client, d: Client)
    requires d.log == c.log
    ensures LogGrows(c, d)
  {
  }

  /** Acknowledging and applying an exchange keeps a device in order with the server. */
  lemma CompleteKeeps(c: Client, p: SyncPayload, r: SyncPayload, s: State, h: History, t: Schema)
    requires DeviceOk(c, s, h, t) && SentOk(p, c, s, h, t) && AnswerOk(p, r, c.device, s, h, t)
    requires CompleteSync(c, p, r, t).Ok?
    ensures var d := CompleteSync(c, p, r, t).value;
      && Sound(d, t) && Conserved(d, s.cells, h) && d.cursor <= Issued(s, d.device)
      && d.device == c.device && d.scopes == c.scopes && c.clock <= d.clock
  {
    var a := Acknowledge(c, CellsOf(p.changes), r.rejections);
    var b := Cleanup(a);
    CompleteSyncSound(c, p, r, t);
    AcknowledgeConserved(c, CellsOf(p.changes), r.rejections, s.cells, h);
    CleanupConserved(a, s.cells, h);
    ApplyRemoteShape(b, r, t);
    ApplyConserved(b, r, s, h, t);
  }

  lemma ApplyConserved(b: Client, r: SyncPayload, s: State, h: History, t: Schema)
    requires Conserved(b, s.cells, h) && AllRecorded(h, CellsOf(r.changes)) && Below(CellsOf(r.changes), s.cells)
    ensures Conserved(Advance(Absorbed(b, CellsOf(r.changes), RowSet(r.changes), t), Max(b.clock, r.lamport) + 1, r), s.cells, h)
  {
    var m, ids := CellsOf(r.changes), RowSet(r.changes);
    AbsorbedConserved(b, m, ids, t, s.cells, h);
    ConservedSame(Absorbed(b, m, ids, t), Advance(Absorbed(b, m, ids, t), Max(b.clock, r.lamport) + 1, r), s.cells, h);
  }

  /** For a device without pending evictions the round also extends what it covers. */
  lemma CompleteCovers(c: Client, p: SyncPayload, r: SyncPayload, s: State, t: Schema)
    requires CompleteSync(c, p, r, t).Ok? && !r.cursorReset && c.evictions == {}
    requires Covers(c, s, p.cursor) && Covers(c, s, c.cursor)
    requires PageHolds(s, p.cursor, r.cursor, CellsOf(r.changes))
    ensures var d := CompleteSync(c, p, r, t).value; LogGrows(c, d) && Covers(d, s, d.cursor)
  {
    var b := Cleanup(Acknowledge(c, CellsOf(p.changes), r.rejections));
    UnmarkedGrows(c, CellsOf(p.changes), r.rejections);
    CoversLog(c, b, s, p.cursor);
    CoversLog(c, b, s, c.cursor);
    CleanedCovers(c, p, r, s, t);
    LogGrowsTransitive(c, b, CompleteSync(c, p, r, t).value);
  }

  /** What the device covers after acknowledgement and cleanup, the page extends. */
  lemma CleanedCovers(c: Client, p: SyncPayload, r: SyncPayload, s: State, t: Schema)
    requires CompleteSync(c, p, r, t).Ok? && !r.cursorReset
    requires var b := Cleanup(Acknowledge(c, CellsOf(p.changes), r.rejections)); Covers(b, s, p.cursor) && Covers(b, s, c.cursor)
    requires PageHolds(s, p.cursor, r.cursor, CellsOf(r.changes))
    ensures var b := Cleanup(Acknowledge(c, CellsOf(p.changes), r.rejections)); var d := CompleteSync(c, p, r, t).value;
      LogGrows(b, d) && Covers(d, s, d.cursor)
  {
    var b := Cleanup(Acknowledge(c, CellsOf(p.changes), r.rejections));
    ApplyRemoteShape(b, r, t);
    ApplyCovers(b, r, s, p.cursor, t);
  }

  lemma UnmarkedGrows(c: Client, sent: map<Key, Cell>, rs: seq<Rejection>)
    requires c.evictions == {}
    ensures LogGrows(c, Cleanup(Acknowledge(c, sent, rs)))
  {
    CleanupKeepsLog(Acknowledge(c, sent, rs));
  }

  lemma AcknowledgeGrows(c: Client, sent: map<Key, Cell>, rs: seq<Rejection>, t: Schema)
    requires Sound(c, t) && c.scopes == map[]
    ensures LogGrows(c, Cleanup(Acknowledge(c, sent, rs)))
  {
    ScopeFree(c, t);
    UnmarkedGrows(c, sent, rs);
  }

  lemma ScopeFree(c: Client, t: Schema)
    requires Sound(c, t) && c.scopes == map[]
    ensures c.members == {} && c.evictions == {}
  {
    assert SoundScopes(c);
  }

  lemma ApplyCovers(b: Client, r: SyncPayload, s: State, from: int, t: Schema)
    requires Covers(b, s, from) && Covers(b, s, b.cursor) && PageHolds(s, from, r.cursor, CellsOf(r.changes)) && !r.cursorReset
    ensures var d := Advance(Absorbed(b, CellsOf(r.changes), RowSet(r.changes), t), Max(b.clock, r.lamport) + 1, r);
      LogGrows(b, d) && Covers(d, s, d.cursor)
  {
    var m, ids := CellsOf(r.changes), RowSet(r.changes);
    var e := Absorbed(b, m, ids, t);
    var d := Advance(e, Max(b.clock, r.lamport) + 1, r);
    AbsorbedGrows(b, m, ids, t);
    CoversPage(b, m, ids, t, s, from, r.cursor);
    CoversLog(b, e, s, b.cursor);
    LogSame(e, d);
    CoversLog(e, d, s, d.cursor);
  }

  lemma FullKeeps(c: Client, e: Exchange, s: State, h: History, t: Schema)
    requires DeviceOk(c, s, h, t) && ExchangeOk(e, c, s, h, t) && e.FullExchange? && CompleteSync(c, e.sent, e.response, t).Ok?
    ensures var d := CompleteSync(c, e.sent, e.response, t).value; DeviceOk(d, s, h, t) && Moves(c, d)
  {
    CompleteKeeps(c, e.sent, e.response, s, h, t);
    if c.scopes == map[] {
      ScopeFree(c, t);
      CompleteCovers(c, e.sent, e.response, s, t);
    }
  }

  lemma ScopedKeeps(c: Client, e: Exchange, s: State, h: History, t: Schema)
    requires DeviceOk(c, s, h, t) && ExchangeOk(e, c, s, h, t) && e.ScopedExchange?
    requires CompletePartial(c, e.request, e.answer, t).Ok?
    ensures var d := CompletePartial(c, e.request, e.answer, t).value; DeviceOk(d, s, h, t) && Moves(c, d)
  {
    CompletePartialSound(c, e.request, e.answer, t);
    CompleteKeeps(c, e.request.sync, e.answer.sync, s, h, t);
    var a := CompleteSync(c, e.request.sync, e.answer.sync, t).value;
    var b := Rescope(a, e.request.scope, Elements(e.answer.members), Elements(e.answer.evicted));
    ConservedSame(a, b, s.cells, h);
    CleanupConserved(b, s.cells, h);
    assert e.request.scope in Cleanup(b).scopes;
  }

  lemma UnsubscribeKeeps(c: Client, scope: string, s: State, h: History, t: Schema)
    requires DeviceOk(c, s, h, t) && RemoveScope(c, scope).Ok?
    ensures var d := RemoveScope(c, scope).value; DeviceOk(d, s, h, t) && Moves(c, d)
  {
    RemoveScopeSound(c, scope, t);
    var scopes := c.scopes[scope := Scope(ScopeVersion(c, scope) + 1, false)];
    var b := Rescope(c, scope, {}, ScopeRows(c, scope)).(scopes := scopes);
    assert RemoveScope(c, scope).value == Cleanup(b);
    assert scope in b.scopes;
    RescopedKeeps(c, b, s, h, t);
  }

  /** A membership change and the cleanup after it keep what concerns the server. */
  lemma RescopedKeeps(c: Client, b: Client, s: State, h: History, t: Schema)
    requires DeviceOk(c, s, h, t) && Sound(Cleanup(b), t) && b.scopes != map[]
    requires b == c.(members := b.members, evictions := b.evictions, scopes := b.scopes)
    requires forall x :: x in c.scopes ==> x in b.scopes && c.scopes[x].version <= b.scopes[x].version
    ensures DeviceOk(Cleanup(b), s, h, t) && Moves(c, Cleanup(b))
  {
    ConservedSame(c, b, s.cells, h);
    CleanupConserved(b, s.cells, h);
  }

  lemma RequestKeeps(c: Client, scope: string, interest: Interest, s: State, h: History, t: Schema)
    requires DeviceOk(c, s, h, t) && PartialRequestOf(c, scope, interest, t).Ok?
    ensures var r := PartialRequestOf(c, scope, interest, t).value;
      DeviceOk(r.client, s, h, t) && Moves(c, r.client) && RequestOk(Scoped(r.request), r.client, s, h, t)
      && r.request.sync.source == c.device
  {
    var r := PartialRequestOf(c, scope, interest, t).value;
    RequestSound(c, scope, interest, t);
    ConservedSame(c, r.client, s.cells, h);
    assert scope in r.client.scopes;
    DeltaSent(c, r.client, s, h, t);
  }

  lemma RewindKeeps(c: Client, s: State, h: History, t: Schema)
    requires DeviceOk(c, s, h, t) && Valid(s)
    ensures DeviceOk(ResetCursor(c), s, h, t) && Moves(c, ResetCursor(c))
  {
    var d := ResetCursor(c);
    ResetSound(c, t);
    ConservedSame(c, d, s.cells, h);
    IssuedBound(s, c.device);
    LogSame(c, d);
    forall k ensures CoversAt(d, s, 0, k) {
    }
  }

  // --- Server transactions --------------------------------------------

  /** A merge of an honest request answers in order. */
  lemma MergeKeeps(s: State, p: SyncPayload, c: Client, sec: Security, env: Env, h: History)
    requires ServerOk(s, h, env.schema) && SentOk(p, c, s, h, env.schema) && ValidIdentifier(SERVER_DEVICE)
    requires Merge(s, p, c.device, sec, env).Ok?
    ensures var Merged(u, r) := Merge(s, p, c.device, sec, env).value;
      ServerOk(u, h, env.schema) && Grows(s, u) && AnswerOk(p, r, c.device, u, h, env.schema)
  {
    var Merged(u, r) := Merge(s, p, c.device, sec, env).value;
    MergeGrows(s, p, c.device, sec, env);
    MergeStored(s, p, c.device, sec, env);
    MergeResponse(s, p, c.device, sec, env);
    MergeResponseValid(s, p, c.device, sec, env);
    MergeHistory(s, p, c.device, sec, env, h);
    MergeDelivers(s, p, c.device, sec, env);
    IssuedBound(s, c.device);
    MergeNoReset(s, p, c.device, sec, env);
    AnswerFromServer(p, r, c.device, u, h, env.schema);
  }

  lemma AnswerFromServer(p: SyncPayload, r: SyncPayload, d: string, u: State, h: History, t: Schema)
    requires AllRecorded(h, u.cells)
    requires forall k :: k in CellsOf(r.changes) ==> k in u.cells && CellsOf(r.changes)[k] == u.cells[k]
    ensures AllRecorded(h, CellsOf(r.changes)) && Below(CellsOf(r.changes), u.cells)
  {
  }

  lemma MergeHistory(s: State, p: SyncPayload, d: string, sec: Security, env: Env, h: History)
    requires Valid(s) && Merge(s, p, d, sec, env).Ok?
    requires AllRecorded(h, s.cells) && AllRecorded(h, CellsOf(p.changes))
    ensures AllRecorded(h, Merge(s, p, d, sec, env).value.state.cells)
  {
    var u := Merge(s, p, d, sec, env).value.state;
    forall k | k in u.cells ensures Recorded(h, k, u.cells[k]) {
      MergeOrigin(s, p, d, sec, env, k);
    }
  }

  lemma MergeDelivers(s: State, p: SyncPayload, d: string, sec: Security, env: Env)
    requires Valid(s) && Merge(s, p, d, sec, env).Ok?
    ensures var Merged(u, r) := Merge(s, p, d, sec, env).value; Delivered(CellsOf(p.changes), r.rejections, u.cells)
  {
    var sent := CellsOf(p.changes);
    var Merged(u, r) := Merge(s, p, d, sec, env).value;
    forall k | k in sent ensures Holds(u.cells, k, sent[k].version) || RejectedVersion(r.rejections, k, sent[k].version) {
      MergeAccepts(s, p, d, sec, env, k);
    }
  }

  lemma MergePageHolds(s: State, p: SyncPayload, d: string, sec: Security, env: Env)
    requires Valid(s) && Merge(s, p, d, sec, env).Ok? && 0 <= p.cursor <= Issued(s, d)
    ensures var Merged(u, r) := Merge(s, p, d, sec, env).value; PageHolds(u, p.cursor, r.cursor, CellsOf(r.changes))
  {
    var Merged(u, r) := Merge(s, p, d, sec, env).value;
    MergeResponse(s, p, d, sec, env);
    forall k | k in u.cells && k in u.cellSeq && p.cursor < u.cellSeq[k] <= r.cursor
      ensures Holds(CellsOf(r.changes), k, u.cells[k].version)
    {
      MergeCovers(s, p, d, sec, env, k);
    }
  }

  /** Serving any honest request keeps the server in order and answers in order. */
  lemma ServeKeeps(s: State, r: Request, c: Client, sec: Security, env: Env, h: History)
    requires ServerOk(s, h, env.schema) && RequestOk(r, c, s, h, env.schema)
    requires PayloadOf(r).source == c.device && Answered(s, r, sec, env).Ok?
    ensures var v := Answered(s, r, sec, env).value;
      && ServerOk(v.state, h, env.schema) && Grows(s, v.state)
      && SentIn(v.exchange) == PayloadOf(r)
      && ExchangeOk(v.exchange, c, v.state, h, env.schema)
  {
    ServerIdentifier();
    match r
    case Full(p) => ServeFull(s, p, c, sec, env, h);
    case Scoped(q) => ServeScoped(s, q, c, env, h);
  }

  lemma ServeFull(s: State, p: SyncPayload, c: Client, sec: Security, env: Env, h: History)
    requires ServerOk(s, h, env.schema) && SentOk(p, c, s, h, env.schema) && ValidIdentifier(SERVER_DEVICE)
    requires Merge(s, p, c.device, sec, env).Ok?
    ensures var m := Merge(s, p, c.device, sec, env).value;
      && ServerOk(m.state, h, env.schema) && Grows(s, m.state)
      && ExchangeOk(FullExchange(p, m.response), c, m.state, h, env.schema)
  {
    var m := Merge(s, p, c.device, sec, env).value;
    MergeKeeps(s, p, c, sec, env, h);
    MergePageHolds(s, p, c.device, sec, env);
    SentServer(p, c, s, m.state, h, env.schema);
  }

  lemma ServeScoped(s: State, q: PartialRequest, c: Client, env: Env, h: History)
    requires ServerOk(s, h, env.schema) && SentOk(q.sync, c, s, h, env.schema) && ScopedOk(q, c, env.schema)
    requires ValidIdentifier(SERVER_DEVICE) && MergePartial(s, q, c.device, env).Ok?
    ensures var m := MergePartial(s, q, c.device, env).value;
      && ServerOk(m.state, h, env.schema) && Grows(s, m.state)
      && ExchangeOk(ScopedExchange(q, m.response), c, m.state, h, env.schema)
  {
    var p, m := Merge(s, q.sync, c.device, ALLOW_ALL, env).value, MergePartial(s, q, c.device, env).value;
    MergeKeeps(s, q.sync, c, ALLOW_ALL, env, h);
    PartialAnswer(p, q, env);
    SentServer(q.sync, c, s, m.state, h, env.schema);
  }

  // --- Steps -----------------------------------------------------------

  lemma JoinKeeps(s: System, d: string, t: Schema)
    requires Inv(s, t) && ValidIdentifier(d) && d != SERVER_DEVICE && d !in s.devices
    ensures Inv(SetDevice(s, d, Fresh(d)), t)
  {
    var u := SetDevice(s, d, Fresh(d));
    FreshOk(s, d, t);
    forall x | x in u.devices ensures u.devices[x].device == x && DeviceOk(u.devices[x], u.server, u.history, t) {
      if x != d { assert DeviceOk(s.devices[x], s.server, s.history, t); }
    }
  }

  lemma FreshOk(s: System, d: string, t: Schema)
    requires Inv(s, t) && ValidIdentifier(d) && d != SERVER_DEVICE && d !in s.devices
    ensures DeviceOk(Fresh(d), s.server, s.history, t)
  {
    var c := Fresh(d);
    FreshSound(d, t);
    IssuedBound(s.server, d);
    forall k ensures EntryKnown(c, s.server.cells, s.history, k) && CoversAt(c, s.server, 0, k) {
    }
    forall x ensures WriteKept(c, s.server.cells, s.history, x) {
    }
  }

  lemma RequestAdded(s: System, r: Request, t: Schema)
    requires Inv(s, t) && PayloadOf(r).source in s.devices
    requires RequestOk(r, s.devices[PayloadOf(r).source], s.server, s.history, t)
    ensures Inv(s.(requests := s.requests + {r}), t)
  {
    var u := s.(requests := s.requests + {r});
    assert DevicesOk(u, t) && ExchangesOk(u, t) && RequestsOk(u, t);
  }

  lemma ExtendsReflexive(h: History)
    ensures Extends(h, h)
  {
  }

  lemma LocalStepKeeps(s: System, d: string, op: LocalOp, env: Env)
    requires Inv(s, env.schema) && WellFormed(env.schema)
    ensures Inv(StepLocal(s, d, op, env), env.schema)
  {
    if d in s.devices && Apply(s.devices[d], op, env.schema).Ok? {
      LocalKeeps(s.devices[d], op, s.server, s.history, env.schema);
      var c := Apply(s.devices[d], op, env.schema).value;
      DeviceStep(s, d, c, Record(s.history, s.devices[d], c), env.schema);
    }
  }

  lemma SendStepKeeps(s: System, d: string, env: Env)
    requires Inv(s, env.schema)
    ensures Inv(StepSend(s, d, env), env.schema)
  {
    if d in s.devices && LocalDelta(s.devices[d], env.schema).Ok? {
      DeltaSent(s.devices[d], s.devices[d], s.server, s.history, env.schema);
      RequestAdded(s, Full(DeltaOf(s.devices[d], env.schema)), env.schema);
    }
  }

  lemma SendScopedStepKeeps(s: System, d: string, scope: string, interest: Interest, env: Env)
    requires Inv(s, env.schema)
    ensures Inv(StepSendScoped(s, d, scope, interest, env), env.schema)
  {
    if d in s.devices && PartialRequestOf(s.devices[d], scope, interest, env.schema).Ok? {
      var r := PartialRequestOf(s.devices[d], scope, interest, env.schema).value;
      RequestKeeps(s.devices[d], scope, interest, s.server, s.history, env.schema);
      ExtendsReflexive(s.history);
      DeviceStep(s, d, r.client, s.history, env.schema);
      RequestAdded(SetDevice(s, d, r.client), Scoped(r.request), env.schema);
    }
  }

  lemma UnsubscribeStepKeeps(s: System, d: string, scope: string, env: Env)
    requires Inv(s, env.schema)
    ensures Inv(StepUnsubscribe(s, d, scope), env.schema)
  {
    if d in s.devices && RemoveScope(s.devices[d], scope).Ok? {
      UnsubscribeKeeps(s.devices[d], scope, s.server, s.history, env.schema);
      ExtendsReflexive(s.history);
      DeviceStep(s, d, RemoveScope(s.devices[d], scope).value, s.history, env.schema);
    }
  }

  lemma ServeStepKeeps(s: System, r: Request, sec: Security, env: Env)
    requires Inv(s, env.schema)
    ensures Inv(StepServe(s, r, sec, env), env.schema)
  {
    if r in s.requests && Answered(s.server, r, sec, env).Ok? {
      var c := s.devices[PayloadOf(r).source];
      ServeKeeps(s.server, r, c, sec, env, s.history);
      var v := Answered(s.server, r, sec, env).value;
      ServerStep(s, v.state, v.exchange, env.schema);
    }
  }

  lemma DeliverStepKeeps(s: System, e: Exchange, env: Env)
    requires Inv(s, env.schema)
    ensures Inv(StepDeliver(s, e, env), env.schema)
  {
    var d := SentIn(e).source;
    if e in s.exchanges && d in s.devices && Complete(s.devices[d], e, env.schema).Ok? {
      var c := Complete(s.devices[d], e, env.schema).value;
      if e.FullExchange? {
        FullKeeps(s.devices[d], e, s.server, s.history, env.schema);
      } else {
        ScopedKeeps(s.devices[d], e, s.server, s.history, env.schema);
      }
      ExtendsReflexive(s.history);
      DeviceStep(s, d, c, s.history, env.schema);
    }
  }

  lemma StepKeeps(s: System, a: Action, env: Env)
    requires Inv(s, env.schema) && WellFormed(env.schema)
    ensures Inv(Step(s, a, env), env.schema)
  {
    match a
    case Join(d) =>
      if ValidIdentifier(d) && d != SERVER_DEVICE && d !in s.devices { JoinKeeps(s, d, env.schema); }
    case Local(d, op) => LocalStepKeeps(s, d, op, env);
    case Send(d) => SendStepKeeps(s, d, env);
    case SendScoped(d, scope, interest) => SendScopedStepKeeps(s, d, scope, interest, env);
    case Unsubscribe(d, scope) => UnsubscribeStepKeeps(s, d, scope, env);
    case Rewind(d) =>
      if d in s.devices {
        RewindKeeps(s.devices[d], s.server, s.history, env.schema);
        ExtendsReflexive(s.history);
        DeviceStep(s, d, ResetCursor(s.devices[d]), s.history, env.schema);
      }
    case Serve(r, sec) => ServeStepKeeps(s, r, sec, env);
    case Deliver(e) => DeliverStepKeeps(s, e, env);
  }

  lemma InitialOk(t: Schema)
    ensures Inv(INITIAL, t)
  {
  }

  /** The invariant holds at every state of every run. */
  lemma {:induction false} RunsKeep(actions: seq<Action>, env: Env)
    requires WellFormed(env.schema)
    ensures Inv(Run(INITIAL, actions, env), env.schema)
    decreases |actions|
  {
    if actions == [] {
      InitialOk(env.schema);
    } else {
      var n := |actions| - 1;
      RunsKeep(actions[..n], env);
      StepKeeps(Run(INITIAL, actions[..n], env), actions[n], env);
    }
  }

  lemma ReachableOk(s: System, env: Env)
    requires WellFormed(env.schema) && Reachable(s, env)
    ensures Inv(s, env.schema)
  {
    var actions :| s == Run(INITIAL, actions, env);
    RunsKeep(actions, env);
  }
}
