/** What each client transaction keeps: the log and the application table agree,
    dirty cells are self-authored, clocks stay below the device clock, scope
    members are stored, and no stored row is both a member and marked. */
module ClientFacts {
  import opened Names
  import opened Cells
  import opened Payload
  import opened Server
  import opened Replica
  import opened Client

  lemma LogKeysKept(log: map<Key, Entry>, next: map<Key, Entry>, row: string)
    requires RowLogged(log, row) && forall k :: k in log && k.row == row ==> k in next
    ensures RowLogged(next, row)
  {
    var k :| k in log && k.row == row;
    assert k in next && k.row == row;
  }

  lemma FreshSound(device: string, t: Schema)
    requires ValidIdentifier(device) && device != SERVER_DEVICE
    ensures Sound(Fresh(device), t)
  {
  }

  // --- Local writes ----------------------------------------------------

  /** Capturing a row's columns keeps the client sound. */
  lemma CaptureSound(c: Client, vs: map<Key, Value>, t: Schema)
    requires Sound(c, t) && c.clock < I64_MAX
    requires forall k :: k in vs ==> k in c.app && ValidColumn(t, k.column, vs[k])
    ensures Sound(Capture(c, vs), t)
  {
    var d := Capture(c, vs);
    forall k ensures SoundEntry(d, t, k) && Materialised(d, t, k) {
      assert SoundEntry(c, t, k) && Materialised(c, t, k);
    }
    assert SoundScopes(c);
    forall r | r in d.rows ensures RowLogged(d.log, r) { LogKeysKept(c.log, d.log, r); }
  }

  ghost function RowValues(row: string, values: map<string, Value>, t: Schema): map<Key, Value> {
    map k | k in Grid({row}, t.types.Keys) :: RowValue(t, values, k.column)
  }

  lemma RowValuesFacts(row: string, values: map<string, Value>, t: Schema, k: Key)
    requires ValidValues(t, values)
    ensures k in RowValues(row, values, t) <==> k.row == row && k.column in t.types
    ensures k in RowValues(row, values, t) ==> ValidColumn(t, k.column, RowValues(row, values, t)[k])
  {
    assert k in Grid({row}, t.types.Keys) <==> k.row == row && k.column in t.types;
  }

  lemma InsertSound(c: Client, row: string, values: map<string, Value>, t: Schema)
    requires Sound(c, t) && WellFormed(t) && Apply(c, Insert(row, values), t).Ok?
    ensures Sound(Apply(c, Insert(row, values), t).value, t)
  {
    CaptureRowSound(c, row, RowValues(row, values, t), t) by {
      forall k ensures
        && (k in RowValues(row, values, t) <==> k.row == row && k.column in t.types)
        && (k in RowValues(row, values, t) ==> ValidColumn(t, k.column, RowValues(row, values, t)[k]))
      {
        RowValuesFacts(row, values, t, k);
      }
    }
  }

  /** Capturing all columns of a new row keeps the client sound. */
  lemma CaptureRowSound(c: Client, row: string, vs: map<Key, Value>, t: Schema)
    requires Sound(c, t) && ValidIdentifier(row) && row !in c.rows && c.clock < I64_MAX
    requires LIVENESS in t.types
    requires forall k :: k in vs <==> k.row == row && k.column in t.types
    requires forall k :: k in vs ==> ValidColumn(t, k.column, vs[k])
    ensures Sound(Capture(c.(rows := c.rows + {row}), vs), t)
  {
    var d := Capture(c.(rows := c.rows + {row}), vs);
    assert SoundScopes(c);
    forall k ensures SoundEntry(d, t, k) && Materialised(d, t, k) {
      assert SoundEntry(c, t, k) && Materialised(c, t, k);
    }
    assert SoundScopes(d);
    forall r | r in d.rows ensures RowLogged(d.log, r) {
      if r == row { assert Key(row, LIVENESS) in d.log; } else { LogKeysKept(c.log, d.log, r); }
    }
  }

  lemma AssignSound(c: Client, key: Key, value: Value, t: Schema)
    requires Sound(c, t) && key.row in c.rows && ValidColumn(t, key.column, value) && Assign(c, key, value).Ok?
    ensures Sound(Assign(c, key, value).value, t)
  {
    assert key in c.app;
    if c.app[key] != value { CaptureSound(c, map[key := value], t); }
  }

  /** Every local operation keeps the client sound. */
  lemma ApplySound(c: Client, op: LocalOp, t: Schema)
    requires Sound(c, t) && WellFormed(t) && Apply(c, op, t).Ok?
    ensures Sound(Apply(c, op, t).value, t)
  {
    match op
    case Insert(row, values) => InsertSound(c, row, values, t);
    case Set(row, column, value) => AssignSound(c, Key(row, column), value, t);
    case Overwrite(row, column, value) => AssignSound(c, Key(row, column), value, t);
    case Delete(row) => AssignSound(c, Key(row, LIVENESS), Boolean(true), t);
    case Restore(row) => AssignSound(c, Key(row, LIVENESS), Boolean(false), t);
  }

  /** An entry of `d` is the one of `c`, or a new dirty write at the ticked clock. */
  ghost predicate KeptOrWritten(c: Client, d: Client, k: Key) {
    k in d.log ==>
      || (k in c.log && d.log[k] == c.log[k])
      || (d.clock == c.clock + 1 && d.log[k].dirty && d.log[k].cell.version == Version(c.clock + 1, c.device))
  }

  /** What a local operation may change. */
  ghost predicate LocalStep(c: Client, d: Client) {
    && d == c.(clock := d.clock, rows := d.rows, app := d.app, log := d.log)
    && c.clock <= d.clock <= c.clock + 1
    && (forall k :: k in c.log ==> k in d.log)
    && (forall k :: KeptOrWritten(c, d, k))
  }

  lemma ApplySteps(c: Client, op: LocalOp, t: Schema)
    requires Apply(c, op, t).Ok?
    ensures LocalStep(c, Apply(c, op, t).value)
  {
  }

  /** The trigger overwrites unconditionally, yet always with what last-writer-wins
      would accept: the new version is newer than any stored one. */
  lemma CaptureWins(c: Client, op: LocalOp, t: Schema, k: Key)
    requires Sound(c, t) && Apply(c, op, t).Ok? && k in Apply(c, op, t).value.log
    requires k !in c.log || Apply(c, op, t).value.log[k] != c.log[k]
    ensures Wins(c.log, k, Apply(c, op, t).value.log[k].cell)
    ensures Apply(c, op, t).value.log[k].dirty
  {
    ApplySteps(c, op, t);
    assert SoundEntry(c, t, k);
    assert KeptOrWritten(c, Apply(c, op, t).value, k);
  }

  // --- Acknowledgement and cleanup ------------------------------------

  lemma AcknowledgeSound(c: Client, sent: map<Key, Cell>, rs: seq<Rejection>, t: Schema)
    requires Sound(c, t)
    ensures Sound(Acknowledge(c, sent, rs), t)
  {
    var d := Acknowledge(c, sent, rs);
    assert SoundScopes(c);
    forall k ensures SoundEntry(d, t, k) && Materialised(d, t, k) {
      assert SoundEntry(c, t, k) && Materialised(c, t, k);
    }
    forall r | r in d.rows ensures RowLogged(d.log, r) { LogKeysKept(c.log, d.log, r); }
  }

  /** `Sound` but for rows that are both held by a scope and marked, as between
      a membership change and the cleanup that ends the same transaction. */
  ghost predicate AlmostSound(c: Client, t: Schema) {
    && Sound(c.(evictions := {}), t)
    && (forall e :: e in c.evictions ==> e.scope in c.scopes)
  }

  lemma SoundAlmost(c: Client, t: Schema)
    requires Sound(c, t)
    ensures AlmostSound(c, t)
  {
    var d := c.(evictions := {});
    assert SoundScopes(c);
    forall k ensures SoundEntry(d, t, k) && Materialised(d, t, k) {
      assert SoundEntry(c, t, k) && Materialised(c, t, k);
    }
  }

  lemma CleanupSound(c: Client, t: Schema)
    requires AlmostSound(c, t)
    ensures Sound(Cleanup(c), t)
  {
    var b, d := c.(evictions := {}), Cleanup(c);
    assert SoundScopes(b);
    forall k ensures SoundEntry(d, t, k) && Materialised(d, t, k) {
      assert SoundEntry(b, t, k) && Materialised(b, t, k);
    }
    forall r | r in d.rows ensures RowLogged(d.log, r) { LogKeysKept(c.log, d.log, r); }
    forall m | m in d.members ensures m.row in d.rows && m.scope in d.scopes {
      assert HeldByScope(c, m.row);
    }
    forall m, e | m in d.members && e in d.evictions ensures m.row != e.row {
      assert HeldByScope(c, m.row);
    }
  }

  // --- Remote cells ----------------------------------------------------

  lemma {:induction false} RowSetCovers(changes: seq<RowChange>, k: Key)
    requires DistinctRows(changes) && k in CellsOf(changes)
    ensures k.row in RowSet(changes)
  {
    var i := CellsOfOrigin(changes, k);
    RowSetMembers(changes, k.row);
  }

  lemma RowSetValid(changes: seq<RowChange>, t: Schema, r: string)
    requires DistinctRows(changes) && ValidRows(t, changes) && r in RowSet(changes)
    ensures ValidIdentifier(r) && exists k :: k in CellsOf(changes) && k.row == r
  {
    RowSetMembers(changes, r);
    var i :| 0 <= i < |changes| && changes[i].row == r;
    assert ValidRow(t, changes[i]);
    var c :| c in changes[i].columns;
    CellsOfEntry(changes, i, Write(Key(r, c), changes[i].columns[c]));
    assert Key(r, c).row == r;
  }

  ghost predicate RemoteOk(c: Client, m: map<Key, Cell>, ids: set<string>, t: Schema) {
    && (forall k :: k in m ==> k.row in ids && ValidCell(t, k, m[k]))
    && (forall r :: r in ids ==> ValidIdentifier(r) && exists k :: k in m && k.row == r)
  }

  lemma AbsorbedSound(c: Client, m: map<Key, Cell>, ids: set<string>, clock: nat, t: Schema)
    requires Sound(c, t) && RemoteOk(c, m, ids, t)
    requires c.clock <= clock <= I64_MAX && ClocksWithin(m, clock)
    ensures Sound(Absorbed(c, m, ids, t).(clock := clock), t)
  {
    var d := Absorbed(c, m, ids, t).(clock := clock);
    assert SoundScopes(c);
    forall r | r in d.rows ensures ValidIdentifier(r) && RowLogged(d.log, r) {
      AbsorbedRow(c, m, ids, t, r);
    }
    forall k ensures SoundEntry(d, t, k) && Materialised(d, t, k) {
      AbsorbedEntry(c, m, ids, clock, t, k);
    }
    forall k ensures k in d.app <==> k.row in d.rows && k.column in t.types {
      assert k in c.app <==> k.row in c.rows && k.column in t.types;
      assert k in Grid(ids, t.types.Keys) <==> k.row in ids && k.column in t.types;
    }
  }

  lemma AbsorbedRow(c: Client, m: map<Key, Cell>, ids: set<string>, t: Schema, r: string)
    requires Sound(c, t) && RemoteOk(c, m, ids, t) && (r in c.rows || r in ids)
    ensures ValidIdentifier(r) && RowLogged(Absorbed(c, m, ids, t).log, r)
  {
    var d := Absorbed(c, m, ids, t);
    if r in ids {
      var k :| k in m && k.row == r;
      assert k in d.log;
    } else {
      LogKeysKept(c.log, d.log, r);
    }
  }

  lemma AbsorbedEntry(c: Client, m: map<Key, Cell>, ids: set<string>, clock: nat, t: Schema, k: Key)
    requires Sound(c, t) && RemoteOk(c, m, ids, t) && c.clock <= clock && ClocksWithin(m, clock)
    ensures SoundEntry(Absorbed(c, m, ids, t).(clock := clock), t, k)
    ensures Materialised(Absorbed(c, m, ids, t).(clock := clock), t, k)
  {
    assert SoundEntry(c, t, k) && Materialised(c, t, k);
    assert k in c.app <==> k.row in c.rows && k.column in t.types;
  }

  lemma PayloadRemoteOk(c: Client, p: SyncPayload, t: Schema)
    requires ValidPayload(p, t)
    ensures RemoteOk(c, CellsOf(p.changes), RowSet(p.changes), t)
  {
    ValidRowsCells(t, p.changes);
    forall k | k in CellsOf(p.changes) ensures k.row in RowSet(p.changes) {
      RowSetCovers(p.changes, k);
    }
    forall r | r in RowSet(p.changes) ensures ValidIdentifier(r) && exists k :: k in CellsOf(p.changes) && k.row == r {
      RowSetValid(p.changes, t, r);
    }
  }

  /** The shape of a successful remote application. */
  lemma ApplyRemoteShape(c: Client, p: SyncPayload, t: Schema)
    requires ApplyRemote(c, p, t).Ok?
    ensures ValidResponse(p, t)
    ensures Max(c.clock, p.lamport) + 1 <= I64_MAX
    ensures ApplyRemote(c, p, t).value ==
      Advance(Absorbed(c, CellsOf(p.changes), RowSet(p.changes), t), Max(c.clock, p.lamport) + 1, p)
  {
    MaxObservedIsSource(p);
  }

  lemma AdvanceSound(c: Client, clock: nat, p: SyncPayload, t: Schema)
    requires Sound(c.(clock := clock), t) && 0 <= p.cursor && OptionalIdentifier(p.token) && OptionalIdentifier(p.epoch)
    ensures Sound(Advance(c, clock, p), t)
  {
    var b, d := c.(clock := clock), Advance(c, clock, p);
    assert SoundScopes(b);
    forall k ensures SoundEntry(d, t, k) && Materialised(d, t, k) {
      assert SoundEntry(b, t, k) && Materialised(b, t, k);
    }
  }

  lemma ResetSound(c: Client, t: Schema)
    requires Sound(c, t)
    ensures Sound(ResetCursor(c), t)
  {
    var d := ResetCursor(c);
    assert SoundScopes(c);
    forall k ensures SoundEntry(d, t, k) && Materialised(d, t, k) {
      assert SoundEntry(c, t, k) && Materialised(c, t, k);
    }
  }

  lemma ApplyRemoteSound(c: Client, p: SyncPayload, t: Schema)
    requires Sound(c, t) && ApplyRemote(c, p, t).Ok?
    ensures Sound(ApplyRemote(c, p, t).value, t)
  {
    ApplyRemoteShape(c, p, t);
    ResponseSound(c, p, Max(c.clock, p.lamport) + 1, ApplyRemote(c, p, t).value, t);
  }

  /** Absorbing and advancing past a valid response. */
  lemma ResponseSound(c: Client, p: SyncPayload, clock: nat, d: Client, t: Schema)
    requires Sound(c, t) && ValidResponse(p, t) && clock == Max(c.clock, p.lamport) + 1 <= I64_MAX
    requires d == Advance(Absorbed(c, CellsOf(p.changes), RowSet(p.changes), t), clock, p)
    ensures Sound(d, t)
  {
    PayloadRemoteOk(c, p, t);
    AbsorbedSound(c, CellsOf(p.changes), RowSet(p.changes), clock, t);
    AdvanceSound(Absorbed(c, CellsOf(p.changes), RowSet(p.changes), t), clock, p, t);
  }

  /** A successful round: exact acknowledgement, cleanup, then the remote cells. */
  lemma CompleteShape(c: Client, sent: SyncPayload, resp: SyncPayload, t: Schema)
    requires CompleteSync(c, sent, resp, t).Ok?
    ensures ValidRequest(sent, c.device, t) && ValidResponse(resp, t)
    ensures var b := Cleanup(Acknowledge(c, CellsOf(sent.changes), resp.rejections));
      && Max(b.clock, resp.lamport) + 1 <= I64_MAX
      && CompleteSync(c, sent, resp, t).value ==
           Advance(Absorbed(b, CellsOf(resp.changes), RowSet(resp.changes), t), Max(b.clock, resp.lamport) + 1, resp)
  {
    ApplyRemoteShape(Cleanup(Acknowledge(c, CellsOf(sent.changes), resp.rejections)), resp, t);
  }

  /** A full synchronization round keeps the client sound. */
  lemma CompleteSyncSound(c: Client, sent: SyncPayload, resp: SyncPayload, t: Schema)
    requires Sound(c, t) && CompleteSync(c, sent, resp, t).Ok?
    ensures Sound(CompleteSync(c, sent, resp, t).value, t)
  {
    var a := Acknowledge(c, CellsOf(sent.changes), resp.rejections);
    AcknowledgeSound(c, CellsOf(sent.changes), resp.rejections, t);
    SoundAlmost(a, t);
    CleanupSound(a, t);
    ApplyRemoteSound(Cleanup(a), resp, t);
  }

  // --- Scopes ----------------------------------------------------------

  lemma RescopeAlmost(c: Client, scope: string, rows: set<string>, lost: set<string>, scopes: map<string, Scope>, t: Schema)
    requires Sound(c, t) && rows <= c.rows && scope in scopes && c.scopes.Keys <= scopes.Keys
    requires forall s :: s in scopes ==> ValidScopeVersion(scopes[s].version)
    ensures AlmostSound(Rescope(c, scope, rows, lost).(scopes := scopes), t)
  {
    var d := Rescope(c, scope, rows, lost).(scopes := scopes);
    var b := d.(evictions := {});
    assert SoundScopes(c);
    forall k ensures SoundEntry(b, t, k) && Materialised(b, t, k) {
      assert SoundEntry(c, t, k) && Materialised(c, t, k);
    }
  }

  lemma ChangedRowsAreRowSet(changes: seq<RowChange>)
    ensures Elements(ChangedRows(changes)) == RowSet(changes)
  {
    forall x ensures x in ChangedRows(changes) <==> x in RowSet(changes) {
      RowSetMembers(changes, x);
      if x in ChangedRows(changes) {
        var i :| 0 <= i < |changes| && ChangedRows(changes)[i] == x;
        assert changes[i].row == x;
      }
      if i :| 0 <= i < |changes| && changes[i].row == x {
        assert ChangedRows(changes)[i] == x;
      }
    }
  }

  /** After the snapshot is applied, every announced member is stored. */
  lemma SnapshotRowsStored(c: Client, sent: PartialRequest, resp: PartialResponse, t: Schema)
    requires CompletePartial(c, sent, resp, t).Ok?
    ensures CompleteSync(c, sent.sync, resp.sync, t).Ok?
    ensures Elements(resp.members) <= CompleteSync(c, sent.sync, resp.sync, t).value.rows
  {
    var a := AcknowledgeResponse(c, sent.sync, resp.sync, t).value;
    ApplyRemoteShape(a, resp.sync, t);
    ChangedRowsAreRowSet(resp.sync.changes);
  }

  lemma CompletePartialSound(c: Client, sent: PartialRequest, resp: PartialResponse, t: Schema)
    requires Sound(c, t) && CompletePartial(c, sent, resp, t).Ok?
    ensures Sound(CompletePartial(c, sent, resp, t).value, t)
  {
    CompleteSyncSound(c, sent.sync, resp.sync, t);
    SnapshotRowsStored(c, sent, resp, t);
    var a := CompleteSync(c, sent.sync, resp.sync, t).value;
    CompleteSyncScopes(c, sent.sync, resp.sync, t);
    assert SoundScopes(a);
    RescopeAlmost(a, sent.scope, Elements(resp.members), Elements(resp.evicted), a.scopes, t);
    CleanupSound(Rescope(a, sent.scope, Elements(resp.members), Elements(resp.evicted)), t);
  }

  lemma CompleteSyncScopes(c: Client, sent: SyncPayload, resp: SyncPayload, t: Schema)
    requires CompleteSync(c, sent, resp, t).Ok?
    ensures var d := CompleteSync(c, sent, resp, t).value;
      d.scopes == c.scopes && d.members == c.members && d.device == c.device
  {
    CompleteShape(c, sent, resp, t);
  }

  lemma RemoveOutcome(c: Client, scope: string)
    requires ValidIdentifier(scope) && ScopeVersion(c, scope) + 1 <= I64_MAX
    ensures RemoveScope(c, scope) == Ok(Cleanup(Rescope(c, scope, {}, ScopeRows(c, scope)).(
      scopes := c.scopes[scope := Scope(ScopeVersion(c, scope) + 1, false)])))
  {
  }

  lemma RemoveScopeSound(c: Client, scope: string, t: Schema)
    requires Sound(c, t) && RemoveScope(c, scope).Ok?
    ensures Sound(RemoveScope(c, scope).value, t)
  {
    var scopes := c.scopes[scope := Scope(ScopeVersion(c, scope) + 1, false)];
    var b := Rescope(c, scope, {}, ScopeRows(c, scope)).(scopes := scopes);
    ScopesValid(c, scope, scopes, t);
    RescopeAlmost(c, scope, {}, ScopeRows(c, scope), scopes, t);
    CleanupSound(b, t);
    RemoveOutcome(c, scope);
  }

  lemma ScopesValid(c: Client, scope: string, scopes: map<string, Scope>, t: Schema)
    requires Sound(c, t) && ScopeVersion(c, scope) + 1 <= I64_MAX
    requires scopes == c.scopes[scope := Scope(ScopeVersion(c, scope) + 1, false)]
    ensures forall s :: s in scopes ==> ValidScopeVersion(scopes[s].version)
  {
    assert SoundScopes(c);
  }

  lemma RequestSound(c: Client, scope: string, interest: Interest, t: Schema)
    requires Sound(c, t) && PartialRequestOf(c, scope, interest, t).Ok?
    ensures Sound(PartialRequestOf(c, scope, interest, t).value.client, t)
  {
    var d := PartialRequestOf(c, scope, interest, t).value.client;
    assert SoundScopes(c);
    forall k ensures SoundEntry(d, t, k) && Materialised(d, t, k) {
      assert SoundEntry(c, t, k) && Materialised(c, t, k);
    }
  }
}
