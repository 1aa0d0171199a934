/** The protocol's promises, over every run. */
module Theorems {
  import opened Names
  import opened Cells
  import opened Payload
  import opened Server
  import opened ServerFacts
  import opened Client
  import opened ClientFacts
  import opened Conservation
  import opened System
  import opened SystemProofs
  import opened Runs

  // --- Version uniqueness ---------------------------------------------

  /** The cell is stored or in transit somewhere. */
  ghost predicate Appears(s: System, k: Key, cell: Cell) {
    || (k in s.server.cells && s.server.cells[k] == cell)
    || (exists d :: d in s.devices && k in s.devices[d].log && s.devices[d].log[k].cell == cell)
    || (exists r :: r in s.requests && k in CellsOf(PayloadOf(r).changes) && CellsOf(PayloadOf(r).changes)[k] == cell)
    || (exists e :: e in s.exchanges && k in CellsOf(AnswerIn(e).changes) && CellsOf(AnswerIn(e).changes)[k] == cell)
  }

  lemma AppearsRecorded(s: System, k: Key, cell: Cell, t: Schema)
    requires Inv(s, t) && Appears(s, k, cell)
    ensures Recorded(s.history, k, cell)
  {
    if d :| d in s.devices && k in s.devices[d].log && s.devices[d].log[k].cell == cell {
      assert EntryKnown(s.devices[d], s.server.cells, s.history, k);
    } else if r :| r in s.requests && k in CellsOf(PayloadOf(r).changes) && CellsOf(PayloadOf(r).changes)[k] == cell {
      assert RequestOk(r, s.devices[PayloadOf(r).source], s.server, s.history, t);
    } else if e :| e in s.exchanges && k in CellsOf(AnswerIn(e).changes) && CellsOf(AnswerIn(e).changes)[k] == cell {
      assert ExchangeOk(e, s.devices[SentIn(e).source], s.server, s.history, t);
    }
  }

  /** In every run one version of a cell identifies one value, wherever it appears. */
  lemma VersionsIdentifyValues(s: System, env: Env, k: Key, a: Cell, b: Cell)
    requires WellFormed(env.schema) && Reachable(s, env)
    requires Appears(s, k, a) && Appears(s, k, b) && a.version == b.version
    ensures a == b
  {
    ReachableOk(s, env);
    AppearsRecorded(s, k, a, env.schema);
    AppearsRecorded(s, k, b, env.schema);
  }

  // --- No local write is lost -----------------------------------------

  /** Operation `op` turned device `c` into `n` and stored a new entry at `k`. */
  ghost predicate Wrote(c: Client, op: LocalOp, t: Schema, n: Client, k: Key) {
    && Apply(c, op, t) == Ok(n)
    && k in n.log && (k !in c.log || n.log[k] != c.log[k])
  }

  lemma WriteVersion(c: Client, op: LocalOp, t: Schema, n: Client, k: Key)
    requires Wrote(c, op, t, n, k)
    ensures n.log[k].cell.version == Version(c.clock + 1, c.device) && n.clock == c.clock + 1
  {
    ApplySteps(c, op, t);
    assert KeptOrWritten(c, n, k);
  }

  lemma RecordHas(h: History, c: Client, n: Client, k: Key)
    requires k in n.log && (k !in c.log || n.log[k] != c.log[k])
    ensures Stamp(k, n.log[k].cell.version) in Record(h, c, n)
  {
  }

  lemma RecordedKept(s: System, x: Stamp, t: Schema)
    requires Inv(s, t) && x in s.history
    ensures x.version.device in s.devices && Kept(s.devices[x.version.device], s.server.cells, x)
  {
    var c := s.devices[x.version.device];
    assert DeviceOk(c, s.server, s.history, t);
    assert WriteKept(c, s.server.cells, s.history, x);
  }

  lemma WrittenStamp(s: System, d: string, op: LocalOp, n: Client, k: Key, env: Env)
    requires d in s.devices && Wrote(s.devices[d], op, env.schema, n, k)
    ensures Stamp(k, n.log[k].cell.version) in StepLocal(s, d, op, env).history
  {
    RecordHas(s.history, s.devices[d], n, k);
  }

  lemma StampKept(s: System, x: Stamp, after: seq<Action>, env: Env)
    requires WellFormed(env.schema) && Inv(s, env.schema) && x in s.history
    ensures var u := Run(s, after, env);
      x.version.device in u.devices && Kept(u.devices[x.version.device], u.server.cells, x)
  {
    RunLater(s, after, env);
    RecordedKept(Run(s, after, env), x, env.schema);
  }

  /** A write made at any point of any run is, at every later state, still dirty on
      its device at that version or newer, or held by the server at that version or newer. */
  lemma NoLocalWriteIsLost(s: System, d: string, op: LocalOp, n: Client, k: Key, after: seq<Action>, env: Env)
    requires WellFormed(env.schema) && Reachable(s, env)
    requires d in s.devices && Wrote(s.devices[d], op, env.schema, n, k)
    ensures var u := Run(StepLocal(s, d, op, env), after, env);
      d in u.devices && Kept(u.devices[d], u.server.cells, Stamp(k, n.log[k].cell.version))
  {
    ReachableOk(s, env);
    LocalStepKeeps(s, d, op, env);
    WrittenStamp(s, d, op, n, k, env);
    StampKept(StepLocal(s, d, op, env), Stamp(k, n.log[k].cell.version), after, env);
    WriteVersion(s.devices[d], op, env.schema, n, k);
  }

  // --- Feed coverage and convergence ----------------------------------

  /** At every state of every run a device that uses no scopes holds, at the
      server's version or newer, every server cell positioned up to its cursor. */
  lemma FeedCoverage(s: System, env: Env, d: string)
    requires WellFormed(env.schema) && Reachable(s, env)
    requires d in s.devices && s.devices[d].scopes == map[]
    ensures Covers(s.devices[d], s.server, s.devices[d].cursor)
  {
    ReachableOk(s, env);
    assert DeviceOk(s.devices[d], s.server, s.history, env.schema);
  }

  /** What a caught-up device stores at `k`: the server's cell, or its own pending write that is not older. */
  ghost predicate CaughtUpAt(c: Client, cells: map<Key, Cell>, k: Key) {
    if k in c.log && c.log[k].dirty then
      k in cells ==> AtMost(cells[k].version, c.log[k].cell.version)
    else
      Lookup(Held(c), k) == Lookup(cells, k)
  }

  lemma CaughtUp(c: Client, s: State, h: History, t: Schema, k: Key)
    requires DeviceOk(c, s, h, t) && AllRecorded(h, s.cells) && Valid(s)
    requires Covers(c, s, c.cursor) && s.seqNo <= c.cursor
    ensures CaughtUpAt(c, s.cells, k)
  {
    assert EntryKnown(c, s.cells, h, k);
    assert CoversAt(c, s, c.cursor, k);
    if k in c.log && !c.log[k].dirty {
      VersionTotal(c.log[k].cell.version, s.cells[k].version);
      assert Recorded(h, k, s.cells[k]);
    }
  }

  /** A device of any run that has followed the feed to its end stores exactly
      the server's cells, save for its own pending writes. */
  lemma CaughtUpDevices(s: System, env: Env, d: string, k: Key)
    requires WellFormed(env.schema) && Reachable(s, env)
    requires d in s.devices && s.devices[d].scopes == map[] && s.server.seqNo <= s.devices[d].cursor
    ensures CaughtUpAt(s.devices[d], s.server.cells, k)
  {
    ReachableOk(s, env);
    CaughtUp(s.devices[d], s.server, s.history, env.schema, k);
  }

  lemma CleanEquals(c: Client, s: State, h: History, t: Schema)
    requires DeviceOk(c, s, h, t) && AllRecorded(h, s.cells) && Valid(s)
    requires Covers(c, s, c.cursor) && s.seqNo <= c.cursor && DirtyCells(c) == map[]
    ensures Held(c) == s.cells
  {
    forall k ensures Lookup(Held(c), k) == Lookup(s.cells, k) {
      CaughtUp(c, s, h, t, k);
      assert k in c.log && c.log[k].dirty ==> k in DirtyCells(c);
    }
    LookupEqual(Held(c), s.cells);
  }

  /** A clean device without scopes at the end of the feed. */
  ghost predicate Settled(s: System, d: string) {
    && d in s.devices && s.devices[d].scopes == map[]
    && DirtyCells(s.devices[d]) == map[] && s.devices[d].cursor == s.server.seqNo
  }

  /** Strong convergence: in every run, each clean device at the end of the feed stores
      exactly the server's cells, and any two such devices show the same table. */
  lemma StrongConvergence(s: System, env: Env, d: string, e: string)
    requires WellFormed(env.schema) && Reachable(s, env) && Settled(s, d) && Settled(s, e)
    ensures Held(s.devices[d]) == s.server.cells == Held(s.devices[e])
    ensures s.devices[d].rows == s.devices[e].rows && s.devices[d].app == s.devices[e].app
  {
    ReachableOk(s, env);
    assert DeviceOk(s.devices[d], s.server, s.history, env.schema);
    assert DeviceOk(s.devices[e], s.server, s.history, env.schema);
    CleanEquals(s.devices[d], s.server, s.history, env.schema);
    CleanEquals(s.devices[e], s.server, s.history, env.schema);
    SameCellsSameTable(s.devices[d], s.devices[e], env.schema);
  }

  /** The application table is a function of the stored cells. */
  lemma SameCellsSameTable(c: Client, d: Client, t: Schema)
    requires Sound(c, t) && Sound(d, t) && Held(c) == Held(d)
    ensures c.rows == d.rows && c.app == d.app
  {
    RowsFromCells(c, d, t);
    RowsFromCells(d, c, t);
    forall k ensures (k in c.app <==> k in d.app) && (k in c.app ==> c.app[k] == d.app[k]) {
      assert Materialised(c, t, k) && Materialised(d, t, k);
      assert (k in c.log <==> k in Held(c)) && (k in d.log <==> k in Held(d));
    }
  }

  lemma RowsFromCells(c: Client, d: Client, t: Schema)
    requires Sound(c, t) && Sound(d, t) && Held(c) == Held(d)
    ensures c.rows <= d.rows
  {
    forall r | r in c.rows ensures r in d.rows {
      assert RowLogged(c.log, r);
      var k :| k in c.log && k.row == r;
      assert k in Held(c);
      assert k in d.log && SoundEntry(d, t, k);
    }
  }

  // --- One quiet round converges --------------------------------------

  /** Every write the device has pending was sent in `p` at its present version. */
  ghost predicate AllSent(c: Client, p: SyncPayload) {
    forall k :: k in c.log && c.log[k].dirty ==>
      k in CellsOf(p.changes) && CellsOf(p.changes)[k].version == c.log[k].cell.version
  }

  /** In any run, whatever else the device sent or received meanwhile: when all it has pending was in a request
      whose answer reaches the end of the feed and rejects nothing, it ends clean and equal to the server. */
  lemma QuietRoundConverges(s: System, e: Exchange, c: Client, env: Env)
    requires WellFormed(env.schema) && Reachable(s, env) && e in s.exchanges && e.FullExchange?
    requires e.sent.source in s.devices && s.devices[e.sent.source].scopes == map[]
    requires AllSent(s.devices[e.sent.source], e.sent)
    requires e.response.cursor == s.server.seqNo && e.response.rejections == []
    requires CompleteSync(s.devices[e.sent.source], e.sent, e.response, env.schema) == Ok(c)
    ensures Held(c) == s.server.cells && DirtyCells(c) == map[] && c.cursor == s.server.seqNo
  {
    ReachableOk(s, env);
    QuietRound(s, e, c, env.schema);
  }

  lemma QuietRound(s: System, e: Exchange, c: Client, t: Schema)
    requires Inv(s, t) && e in s.exchanges && e.FullExchange?
    requires e.sent.source in s.devices && s.devices[e.sent.source].scopes == map[]
    requires AllSent(s.devices[e.sent.source], e.sent)
    requires e.response.cursor == s.server.seqNo && e.response.rejections == []
    requires CompleteSync(s.devices[e.sent.source], e.sent, e.response, t) == Ok(c)
    ensures Held(c) == s.server.cells && DirtyCells(c) == map[] && c.cursor == s.server.seqNo
  {
    var c0 := s.devices[e.sent.source];
    assert ExchangeOk(e, c0, s.server, s.history, t) && DeviceOk(c0, s.server, s.history, t);
    WithinServer(c0, e, s.server, s.history, t);
    RoundSettles(c0, e.sent, e.response, c, s.server.seqNo, t);
    FullKeeps(c0, e, s.server, s.history, t);
    CleanEquals(c, s.server, s.history, t);
  }

  lemma WithinServer(c0: Client, e: Exchange, s: State, h: History, t: Schema)
    requires Valid(s) && DeviceOk(c0, s, h, t) && ExchangeOk(e, c0, s, h, t) && e.FullExchange?
    ensures c0.cursor <= s.seqNo && !e.response.cursorReset
  {
    IssuedBound(s, c0.device);
  }

  lemma RoundSettles(c0: Client, p: SyncPayload, r: SyncPayload, c: Client, n: nat, t: Schema)
    requires AllSent(c0, p) && c0.cursor <= n == r.cursor && r.rejections == [] && !r.cursorReset
    requires CompleteSync(c0, p, r, t) == Ok(c)
    ensures DirtyCells(c) == map[] && c.cursor == n && c.scopes == c0.scopes
  {
    RoundClean(c0, p, r, t);
    RoundAdvance(c0, p, r, t);
  }

  lemma RoundAdvance(c: Client, p: SyncPayload, r: SyncPayload, t: Schema)
    requires CompleteSync(c, p, r, t).Ok? && !r.cursorReset
    ensures var d := CompleteSync(c, p, r, t).value; d.cursor == Max(c.cursor, r.cursor) && d.scopes == c.scopes
  {
    CompleteShape(c, p, r, t);
  }

  lemma LastCursor(s: State, p: SyncPayload, d: string, sec: Security, env: Env)
    requires Valid(s) && Merge(s, p, d, sec, env).Ok? && !Merge(s, p, d, sec, env).value.response.hasMore
    ensures var Merged(u, r) := Merge(s, p, d, sec, env).value; r.cursor == Cap(u.seqNo)
  {
    var b, m := MergeParts(s, p, d, sec, env);
  }

  /** A device's request was served with nothing rejected and no further page announced. Whatever happens
      until it completes that answer, if no other write reached the server and the device has nothing
      pending that was not sent, it ends clean and equal to the server. */
  lemma LastAnswerConverges(s: System, p: SyncPayload, sec: Security, m: Merged, mid: seq<Action>, u: System, c: Client, env: Env)
    requires WellFormed(env.schema) && Reachable(s, env) && Full(p) in s.requests
    requires Merge(s.server, p, p.source, sec, env) == Ok(m) && !m.response.hasMore && m.response.rejections == []
    requires u == Run(StepServe(s, Full(p), sec, env), mid, env) && u.server.seqNo == m.state.seqNo <= I64_MAX
    requires p.source in u.devices && u.devices[p.source].scopes == map[] && AllSent(u.devices[p.source], p)
    requires CompleteSync(u.devices[p.source], p, m.response, env.schema) == Ok(c)
    ensures Held(c) == u.server.cells && DirtyCells(c) == map[] && c.cursor == u.server.seqNo
  {
    ReachableOk(s, env);
    LastCursor(s.server, p, p.source, sec, env);
    ServeStepKeeps(s, Full(p), sec, env);
    ServedExchange(s, p, sec, env, m);
    RunLater(StepServe(s, Full(p), sec, env), mid, env);
    QuietRound(u, FullExchange(p, m.response), c, env.schema);
  }

  lemma ServedExchange(s: System, p: SyncPayload, sec: Security, env: Env, m: Merged)
    requires Full(p) in s.requests && Merge(s.server, p, p.source, sec, env) == Ok(m)
    ensures FullExchange(p, m.response) in StepServe(s, Full(p), sec, env).exchanges
  {
    assert Answered(s.server, Full(p), sec, env) == Ok(Served(m.state, FullExchange(p, m.response)));
  }

  /** When nothing is rejected, everything sent is acknowledged. */
  lemma RoundClean(c: Client, p: SyncPayload, r: SyncPayload, t: Schema)
    requires AllSent(c, p) && CompleteSync(c, p, r, t).Ok? && r.rejections == []
    ensures DirtyCells(CompleteSync(c, p, r, t).value) == map[]
  {
    CompleteShape(c, p, r, t);
    AcknowledgedClean(c, p, r.rejections);
    AbsorbedClean(Cleanup(Acknowledge(c, CellsOf(p.changes), r.rejections)), CellsOf(r.changes), RowSet(r.changes), t);
  }

  lemma AcknowledgedClean(c: Client, p: SyncPayload, rs: seq<Rejection>)
    requires AllSent(c, p) && rs == []
    ensures AllClean(Cleanup(Acknowledge(c, CellsOf(p.changes), rs)))
  {
    var a := Acknowledge(c, CellsOf(p.changes), rs);
    assert AllClean(a);
  }

  ghost predicate AllClean(c: Client) {
    forall k :: k in c.log ==> !c.log[k].dirty
  }

  lemma AbsorbedClean(c: Client, m: map<Key, Cell>, ids: set<string>, t: Schema)
    requires AllClean(c)
    ensures AllClean(Absorbed(c, m, ids, t))
  {
  }
}
