/** The SQLite client as src/client.rs runs it: tables updated in place inside
    transactions, each of which commits as a whole or rolls back. */
module ClientClass {
  import opened Names
  import opened Cells
  import opened Payload
  import opened Server
  import opened ServerFacts
  import opened Replica
  import opened Client
  import opened ClientFacts
  import opened Loops

  /** A transaction commits the specified tables, or fails and leaves them as they were. */
  ghost predicate Ran(before: Client, r: Result<Client>, after: Client, ok: bool) {
    match r
    case Ok(c) => ok && after == c
    case Err => !ok && after == before
  }

  // --- Acknowledgement -------------------------------------------------

  lemma AcknowledgeStep(c: Client, m: map<Key, Cell>, rs: seq<Rejection>, w: Write)
    requires w.key !in m
    ensures var (d, k) := (Acknowledge(c, m, rs), w.key);
      Acknowledge(c, m[k := w.cell], rs) ==
        if k in d.log && d.log[k].cell.version == w.cell.version && !RejectedVersion(rs, k, w.cell.version)
        then d.(log := d.log[k := d.log[k].(dirty := false)]) else d
  {
  }

  lemma AcknowledgeNone(c: Client, rs: seq<Rejection>)
    ensures Acknowledge(c, map[], rs) == c
  {
  }

  lemma PrefixFresh(ws: seq<Write>, i: nat)
    requires DistinctKeys(ws) && i < |ws|
    ensures DistinctKeys(ws[..i]) && ws[i].key !in AsMap(ws[..i])
    ensures AsMap(ws[..i + 1]) == AsMap(ws[..i])[ws[i].key := ws[i].cell]
  {
    assert ws[..i + 1][..i] == ws[..i];
    LastKeyFresh(ws[..i + 1]);
  }

  // --- Cleanup ---------------------------------------------------------

  ghost predicate Gone(c: Client, done: set<string>, row: string) {
    row in done && Evictable(c, row)
  }

  ghost predicate MarkerStays(c: Client, done: set<string>, m: Member) {
    m.row in done ==> !HeldByScope(c, m.row) && HasDirty(c, m.row)
  }

  /** The cleanup loop after it has visited the rows `done`. */
  ghost function CleanedUp(c: Client, done: set<string>): Client {
    c.(rows := (set r | r in c.rows && !Gone(c, done, r)),
       app := (map k | k in c.app && !Gone(c, done, k.row) :: c.app[k]),
       log := (map k | k in c.log && !Gone(c, done, k.row) :: c.log[k]),
       evictions := (set m | m in c.evictions && MarkerStays(c, done, m)))
  }

  /** One visit: drop the markers of a held row, keep a row with unsent writes, evict the rest. */
  ghost function Visit(d: Client, row: string): Client {
    if HeldByScope(d, row) then d.(evictions := set m | m in d.evictions && m.row != row)
    else if HasDirty(d, row) then d
    else
      d.(rows := d.rows - {row},
         app := (map k | k in d.app && k.row != row :: d.app[k]),
         log := (map k | k in d.log && k.row != row :: d.log[k]),
         evictions := set m | m in d.evictions && m.row != row)
  }

  lemma VisitHeld(c: Client, done: set<string>, row: string)
    requires row !in done
    ensures HeldByScope(CleanedUp(c, done), row) <==> HeldByScope(c, row)
    ensures HasDirty(CleanedUp(c, done), row) <==> HasDirty(c, row)
  {
    var d := CleanedUp(c, done);
    if HasDirty(c, row) {
      var k :| k in c.log && k.row == row && c.log[k].dirty;
      assert k in d.log;
    }
  }

  lemma VisitStep(c: Client, done: set<string>, row: string)
    requires row !in done && Marked(c, row)
    ensures CleanedUp(c, done + {row}) == Visit(CleanedUp(c, done), row)
  {
    VisitHeld(c, done, row);
    var d, e := CleanedUp(c, done), CleanedUp(c, done + {row});
    forall r ensures Gone(c, done + {row}, r) <==> Gone(c, done, r) || (r == row && Evictable(c, row)) {
    }
    assert e.rows == Visit(d, row).rows;
    assert e.app == Visit(d, row).app;
    assert e.log == Visit(d, row).log;
    assert e.evictions == Visit(d, row).evictions;
  }

  lemma CleanupStarts(c: Client)
    ensures CleanedUp(c, {}) == c
  {
  }

  lemma CleanupEnds(c: Client, done: set<string>)
    requires forall m :: m in c.evictions ==> m.row in done
    ensures CleanedUp(c, done) == Cleanup(c)
  {
    forall r ensures Gone(c, done, r) <==> Evictable(c, r) {
    }
  }

  // --- Remote apply ----------------------------------------------------

  function RowMap(r: RowChange): map<Key, Cell> {
    map c | c in r.columns :: Key(r.row, c) := r.columns[c]
  }

  function Defaults(row: string, t: Schema): map<Key, Value> {
    map k | k in Grid({row}, t.types.Keys) :: if k.column in t.types then DefaultValue(t.types[k.column]) else Null
  }

  /** Inserting one row, unless present, with every column at its default. */
  ghost function InsertRow(e: Client, row: string, t: Schema): Client {
    if row in e.rows then e else e.(rows := e.rows + {row}, app := e.app + Defaults(row, t))
  }

  ghost function UpsertCell(e: Client, k: Key, cell: Cell): Client {
    if Wins(e.log, k, cell) then e.(app := e.app[k := cell.value], log := e.log[k := Entry(cell, false)]) else e
  }

  ghost predicate FullRows(c: Client, t: Schema) {
    forall k :: k in c.app <==> k.row in c.rows && k.column in t.types
  }

  /** The table after one more row, key by key. */
  lemma RowStepAt(c: Client, m: map<Key, Cell>, ids: set<string>, row: string, t: Schema, j: Key)
    requires FullRows(c, t) && row !in ids && forall k :: k in m ==> k.row in ids
    ensures var (d, e) := (Absorbed(c, m, ids, t), Absorbed(c, m, ids + {row}, t));
      var u := if row in d.rows then d.app else d.app + Defaults(row, t);
      (j in e.app <==> j in u) && (j in e.app ==> e.app[j] == u[j])
  {
    assert j in Grid(ids + {row}, t.types.Keys) <==> j in Grid(ids, t.types.Keys) || j in Grid({row}, t.types.Keys);
    assert j in c.app <==> j.row in c.rows && j.column in t.types;
  }

  lemma RowStep(c: Client, m: map<Key, Cell>, ids: set<string>, row: string, t: Schema)
    requires FullRows(c, t) && row !in ids && forall k :: k in m ==> k.row in ids
    ensures Absorbed(c, m, ids + {row}, t) == InsertRow(Absorbed(c, m, ids, t), row, t)
  {
    var d, e := Absorbed(c, m, ids, t), Absorbed(c, m, ids + {row}, t);
    var u := if row in d.rows then d.app else d.app + Defaults(row, t);
    forall j ensures (j in e.app <==> j in u) && (j in e.app ==> e.app[j] == u[j]) {
      RowStepAt(c, m, ids, row, t, j);
    }
    MapsAgree(e.app, u);
    assert e.rows == InsertRow(d, row, t).rows;
    assert e.log == d.log;
  }

  /** Absorbing one more cell changes the log and the table at that key only. */
  lemma CellElsewhere(c: Client, m: map<Key, Cell>, ids: set<string>, k: Key, cell: Cell, t: Schema, j: Key)
    requires j != k
    ensures var (d, e) := (Absorbed(c, m, ids, t), Absorbed(c, m[k := cell], ids, t));
      && (j in e.log <==> j in d.log) && (j in e.log ==> e.log[j] == d.log[j])
      && (j in e.app <==> j in d.app) && (j in e.app ==> e.app[j] == d.app[j])
  {
  }

  lemma CellHere(c: Client, m: map<Key, Cell>, ids: set<string>, k: Key, cell: Cell, t: Schema)
    requires k !in m && k in Grid(ids, t.types.Keys)
    ensures var (d, e) := (Absorbed(c, m, ids, t), Absorbed(c, m[k := cell], ids, t));
      && (Wins(d.log, k, cell) <==> Wins(c.log, k, cell))
      && (Conflicts(d.log, k, cell) <==> Conflicts(c.log, k, cell))
      && k in e.log && e.log[k] == (if Wins(d.log, k, cell) then Entry(cell, false) else d.log[k])
      && k in e.app && k in d.app && e.app[k] == (if Wins(d.log, k, cell) then cell.value else d.app[k])
  {
  }

  lemma MapsAgree<V>(a: map<Key, V>, b: map<Key, V>)
    requires forall j :: (j in a <==> j in b) && (j in a ==> a[j] == b[j])
    ensures a == b
  {
  }

  lemma CellStep(c: Client, m: map<Key, Cell>, ids: set<string>, k: Key, cell: Cell, t: Schema)
    requires k !in m && k.row in ids && k.column in t.types
    ensures Absorbed(c, m[k := cell], ids, t) == UpsertCell(Absorbed(c, m, ids, t), k, cell)
    ensures Conflicts(Absorbed(c, m, ids, t).log, k, cell) <==> Conflicts(c.log, k, cell)
  {
    var d, e := Absorbed(c, m, ids, t), Absorbed(c, m[k := cell], ids, t);
    var u := UpsertCell(d, k, cell);
    CellHere(c, m, ids, k, cell, t);
    forall j ensures (j in e.log <==> j in u.log) && (j in e.log ==> e.log[j] == u.log[j])
    {
      if j != k { CellElsewhere(c, m, ids, k, cell, t, j); }
    }
    forall j ensures (j in e.app <==> j in u.app) && (j in e.app ==> e.app[j] == u.app[j])
    {
      if j != k { CellElsewhere(c, m, ids, k, cell, t, j); }
    }
    MapsAgree(e.log, u.log);
    MapsAgree(e.app, u.app);
    assert e == c.(rows := e.rows, app := e.app, log := e.log);
  }

  lemma AbsorbNothing(c: Client, t: Schema)
    ensures Absorbed(c, map[], {}, t) == c
  {
    assert Grid({}, t.types.Keys) == {};
  }

  // --- Membership ------------------------------------------------------

  lemma ElementsStep(s: seq<string>, i: nat)
    requires i < |s|
    ensures Elements(s[..i + 1]) == Elements(s[..i]) + {s[i]}
  {
  }

  lemma RescopeStep(a: Client, scope: string, rows: set<string>, row: string)
    ensures var b := Rescope(a, scope, rows, {});
      Rescope(a, scope, rows + {row}, {}) ==
        b.(members := b.members + {Member(scope, row)}, evictions := b.evictions - {Member(scope, row)})
  {
  }

  lemma MarkStep(a: Client, scope: string, rows: set<string>, lost: set<string>, row: string)
    ensures var b := Rescope(a, scope, rows, lost);
      Rescope(a, scope, rows, lost + {row}) == b.(evictions := b.evictions + {Member(scope, row)})
  {
  }

  // --- The object ------------------------------------------------------

  class SqliteClient {
    const device: string
    const schema: Schema
    var clock: nat
    var rows: set<string>
    var app: map<Key, Value>
    var log: map<Key, Entry>
    var cursor: int
    var token: Option<string>
    var epoch: Option<string>
    var scopes: map<string, Scope>
    var members: set<Member>
    var evictions: set<Member>

    function View(): Client
      reads this
    {
      Client(device, clock, rows, app, log, cursor, token, epoch, scopes, members, evictions)
    }

    constructor (device: string, schema: Schema)
      ensures View() == Fresh(device) && this.schema == schema
    {
      this.device, this.schema := device, schema;
      clock, rows, app, log, cursor, token, epoch := 0, {}, map[], map[], 0, None, None;
      scopes, members, evictions := map[], {}, {};
    }

    method Rollback(c: Client)
      requires c.device == device
      modifies this
      ensures View() == c
    {
      clock, rows, app, log, cursor, token, epoch := c.clock, c.rows, c.app, c.log, c.cursor, c.token, c.epoch;
      scopes, members, evictions := c.scopes, c.members, c.evictions;
    }

    // --- Triggers ------------------------------------------------------

    /** One captured column: the value in the table, and its log entry at the current clock. */
    method LogColumn(key: Key, value: Value)
      modifies this
      ensures View() == Logged(old(View()), key, value)
    {
      app := app[key := value];
      log := log[key := Entry(Cell(value, Version(clock, device)), true)];
    }

    /** The update trigger. */
    method AssignColumn(key: Key, value: Value) returns (ok: bool)
      modifies this
      ensures Ran(old(View()), Assign(old(View()), key, value), View(), ok)
    {
      if key in app && app[key] == value { return true; }
      if clock >= I64_MAX { return false; }
      AssignOutcome(View(), key, value);
      clock := clock + 1;
      LogColumn(key, value);
      return true;
    }

    method CaptureColumns(row: string, values: map<string, Value>, names: seq<string>, ghost c: Client)
      requires View() == Capture(c, map[]) && forall x :: x in names ==> x in schema.types
      modifies this
      ensures View() == Capture(c, ColumnValues(row, values, schema, names))
    {
      for i := 0 to |names|
        invariant View() == Capture(c, ColumnValues(row, values, schema, names[..i]))
      {
        var value := if names[i] in values then values[names[i]] else DefaultValue(schema.types[names[i]]);
        assert names[..i + 1][..i] == names[..i];
        CaptureStep(c, ColumnValues(row, values, schema, names[..i]), Key(row, names[i]), value);
        LogColumn(Key(row, names[i]), value);
      }
      assert names[..|names|] == names;
    }

    /** The insert trigger logs every synchronized column at one new clock value. */
    method InsertColumns(row: string, values: map<string, Value>)
      modifies this
      ensures View() == Capture(old(View()).(rows := old(View()).rows + {row}), RowValues(row, values, schema))
    {
      ghost var c := View().(rows := rows + {row});
      CaptureNone(c, map[]);
      rows := rows + {row};
      clock := clock + 1;
      var names := SortKeys(schema.types.Keys);
      ColumnValuesAll(row, values, schema, names);
      CaptureColumns(row, values, names, c);
    }

    method Insert(row: string, values: map<string, Value>) returns (ok: bool)
      modifies this
      ensures Ran(old(View()), Apply(old(View()), LocalOp.Insert(row, values), schema), View(), ok)
    {
      if !ValidIdentifier(row) { return false; }
      if exists col :: col in values && (col == LIVENESS || !ValidColumn(schema, col, values[col])) { return false; }
      if row in rows || clock >= I64_MAX { return false; }
      InsertColumns(row, values);
      return true;
    }

    /** The liveness a row shows. */
    method Liveness(row: string) returns (live: bool, tombstone: bool)
      ensures live <==> IsLive(View(), row)
      ensures tombstone <==> IsTombstone(View(), row)
    {
      var shown := row in rows && Key(row, LIVENESS) in app;
      return shown && app[Key(row, LIVENESS)] == Boolean(false), shown && app[Key(row, LIVENESS)] == Boolean(true);
    }

    method SetColumn(row: string, column: string, value: Value) returns (ok: bool)
      modifies this
      ensures Ran(old(View()), Apply(old(View()), Set(row, column, value), schema), View(), ok)
    {
      var live, _ := Liveness(row);
      if !ValidIdentifier(row) || column == LIVENESS || !ValidColumn(schema, column, value) || !live { return false; }
      ok := AssignColumn(Key(row, column), value);
    }

    method OverwriteColumn(row: string, column: string, value: Value) returns (ok: bool)
      modifies this
      ensures Ran(old(View()), Apply(old(View()), Overwrite(row, column, value), schema), View(), ok)
    {
      if !ValidIdentifier(row) || column == LIVENESS || !ValidColumn(schema, column, value) || row !in rows { return false; }
      ok := AssignColumn(Key(row, column), value);
    }

    method DeleteRow(row: string) returns (ok: bool)
      modifies this
      ensures Ran(old(View()), Apply(old(View()), Delete(row), schema), View(), ok)
    {
      var live, _ := Liveness(row);
      if !ValidIdentifier(row) || !live { return false; }
      ok := AssignColumn(Key(row, LIVENESS), Boolean(true));
    }

    method RestoreRow(row: string) returns (ok: bool)
      modifies this
      ensures Ran(old(View()), Apply(old(View()), Restore(row), schema), View(), ok)
    {
      var _, tombstone := Liveness(row);
      if !ValidIdentifier(row) || !tombstone { return false; }
      ok := AssignColumn(Key(row, LIVENESS), Boolean(false));
    }

    // --- Synchronization ----------------------------------------------

    method BuildDelta() returns (p: SyncPayload)
      ensures p == DeltaOf(View(), schema)
    {
      var dirty := map k | k in log && log[k].dirty :: log[k].cell;
      assert dirty == DirtyCells(View());
      var changes := GroupIntoRows(dirty);
      p := SyncPayload(PROTOCOL, schema.fingerprint, device, clock, changes, cursor, false, false, token, epoch, []);
    }

    method GetLocalDelta() returns (res: Result<SyncPayload>)
      ensures res == LocalDelta(View(), schema)
    {
      var p := BuildDelta();
      var ok := CheckRequest(p, device, schema);
      return if ok then Ok(p) else Err;
    }

    /** Marks each sent, unrejected cell clean if it is still stored at the sent version. */
    method MarkClean(ws: seq<Write>, rs: seq<Rejection>)
      requires DistinctKeys(ws)
      modifies this
      ensures View() == Acknowledge(old(View()), AsMap(ws), rs)
    {
      ghost var c := View();
      var rejected := set r | r in rs :: (r.key, r.cell.version);
      AcknowledgeNone(c, rs);
      for i := 0 to |ws|
        invariant View() == Acknowledge(c, AsMap(ws[..i]), rs)
      {
        var w := ws[i];
        PrefixFresh(ws, i);
        AcknowledgeStep(c, AsMap(ws[..i]), rs, w);
        assert (w.key, w.cell.version) in rejected <==> RejectedVersion(rs, w.key, w.cell.version);
        if (w.key, w.cell.version) !in rejected && w.key in log && log[w.key].cell.version == w.cell.version {
          log := log[w.key := log[w.key].(dirty := false)];
        }
      }
      assert ws[..|ws|] == ws;
    }

    /** Carries out, keeps or cancels each pending eviction. */
    method CleanupPendingEvictions()
      modifies this
      ensures View() == Cleanup(old(View()))
    {
      ghost var c := View();
      var pending := set m | m in evictions :: m.row;
      ghost var all, done := pending, {};
      CleanupStarts(c);
      while pending != {}
        invariant pending !! done && pending + done == all
        invariant View() == CleanedUp(c, done)
        decreases pending
      {
        var row :| row in pending;
        VisitStep(c, done, row);
        VisitRow(row);
        pending, done := pending - {row}, done + {row};
      }
      CleanupEnds(c, done);
    }

    method VisitRow(row: string)
      modifies this
      ensures View() == Visit(old(View()), row)
    {
      if exists m :: m in members && m.row == row {
        evictions := set m | m in evictions && m.row != row;
      } else if !(exists k :: k in log && k.row == row && log[k].dirty) {
        rows := rows - {row};
        app := map k | k in app && k.row != row :: app[k];
        log := map k | k in log && k.row != row :: log[k];
        evictions := set m | m in evictions && m.row != row;
      }
    }

    method AcknowledgeLocalDelta(sent: SyncPayload, resp: SyncPayload) returns (ok: bool)
      modifies this
      ensures Ran(old(View()), AcknowledgeResponse(old(View()), sent, resp, schema), View(), ok)
    {
      ok := CheckResponse(resp, schema);
      if !ok { return; }
      ok := CheckRequest(sent, device, schema);
      if !ok { return; }
      var ws := Flatten(sent.changes);
      WritesDistinct(sent.changes);
      MarkClean(ws, resp.rejections);
      CleanupPendingEvictions();
    }

    method EnsureRow(row: string)
      modifies this
      ensures View() == InsertRow(old(View()), row, schema)
    {
      if row !in rows {
        rows := rows + {row};
        app := app + Defaults(row, schema);
      }
    }

    /** The same version with another value is an error; otherwise the newer version stays. */
    method ApplyCell(k: Key, cell: Cell) returns (ok: bool)
      modifies this
      ensures ok <==> !Conflicts(old(log), k, cell)
      ensures ok ==> View() == UpsertCell(old(View()), k, cell)
    {
      if k in log && log[k].cell.version == cell.version && log[k].cell.value != cell.value { return false; }
      if k !in log || Older(log[k].cell.version, cell.version) {
        app := app[k := cell.value];
        log := log[k := Entry(cell, false)];
      }
      return true;
    }

    /** The cells of a remote row in column order, until one conflicts. */
    method ApplyCells(r: RowChange, names: seq<string>, ghost c: Client, ghost m: map<Key, Cell>, ghost ids: set<string>)
      returns (ok: bool)
      requires View() == Absorbed(c, m, ids, schema) && r.row in ids && (forall k :: k in m ==> k.row != r.row)
      requires StrictlySorted(names) && (forall x :: x in names ==> x in r.columns && x in schema.types)
      modifies this
      ensures ok <==> NoConflicts(c, RowPart(r, names))
      ensures ok ==> View() == Absorbed(c, m + RowPart(r, names), ids, schema)
    {
      assert m + map[] == m;
      for i := 0 to |names|
        invariant View() == Absorbed(c, m + RowPart(r, names[..i]), ids, schema)
        invariant NoConflicts(c, RowPart(r, names[..i]))
      {
        PartStep(m, r, names, i);
        CellStep(c, m + RowPart(r, names[..i]), ids, Key(r.row, names[i]), r.columns[names[i]], schema);
        var fine := ApplyCell(Key(r.row, names[i]), r.columns[names[i]]);
        if !fine {
          PartMembers(r, names, Key(r.row, names[i]));
          return false;
        }
        ConflictStep(c, RowPart(r, names[..i]), Key(r.row, names[i]), r.columns[names[i]]);
      }
      assert names[..|names|] == names;
      return true;
    }

    /** One row of a remote payload: the row itself, then its cells. */
    method ApplyRow(r: RowChange, ghost c: Client, ghost m: map<Key, Cell>, ghost ids: set<string>) returns (ok: bool)
      requires View() == Absorbed(c, m, ids, schema) && FullRows(c, schema)
      requires r.row !in ids && RowsKnown(m, ids) && r.columns.Keys <= schema.types.Keys
      modifies this
      ensures ok <==> NoConflicts(c, RowMap(r))
      ensures ok ==> View() == Absorbed(c, m + RowMap(r), ids + {r.row}, schema)
    {
      RowStep(c, m, ids, r.row, schema);
      EnsureRow(r.row);
      var names := SortKeys(r.columns.Keys);
      PartWhole(r, names);
      ok := ApplyCells(r, names, c, m, ids + {r.row});
    }

    /** The rows of a remote payload inside a transaction; a failure leaves the tables half written. */
    method ApplyRows(changes: seq<RowChange>) returns (ok: bool)
      requires FullRows(View(), schema) && DistinctRows(changes) && ValidRows(schema, changes)
      modifies this
      ensures ok <==> NoConflicts(old(View()), CellsOf(changes))
      ensures ok ==> View() == Absorbed(old(View()), CellsOf(changes), RowSet(changes), schema)
    {
      ghost var c := View();
      AbsorbNothing(c, schema);
      ghost var m, ids := map[], {};
      assert changes[..0] == [];
      for i := 0 to |changes|
        invariant m == CellsOf(changes[..i]) && ids == RowSet(changes[..i])
        invariant View() == Absorbed(c, m, ids, schema)
        invariant NoConflicts(c, m)
      {
        RowsStep(changes, i, schema);
        var fine := ApplyRow(changes[i], c, m, ids);
        if !fine {
          RowConflict(c, changes, i);
          return false;
        }
        BothFine(c, m, RowMap(changes[i]));
        m, ids := m + RowMap(changes[i]), ids + {changes[i].row};
      }
      assert changes[..|changes|] == changes;
      return true;
    }

    /** The device clock, cursor, token and epoch after a response. */
    method AdvanceTo(next: nat, p: SyncPayload)
      modifies this
      ensures View() == Advance(old(View()), next, p)
    {
      clock := next;
      cursor := if p.cursorReset then p.cursor else Max(cursor, p.cursor);
      token := p.token;
      epoch := p.epoch;
    }

    method ApplyInside(p: SyncPayload) returns (ok: bool)
      requires FullRows(View(), schema)
      modifies this
      ensures ok <==> Applicable(old(View()), p, schema)
      ensures ok ==> View() == AppliedTo(old(View()), p, schema)
    {
      ok := CheckResponse(p, schema);
      if !ok { return; }
      var current := clock;
      ok := ApplyRows(p.changes);
      if !ok { return; }
      var ws := Flatten(p.changes);
      var observed := ObservedClock(ws, p.lamport);
      if Max(current, observed) + 1 > I64_MAX { return false; }
      AdvanceTo(Max(current, observed) + 1, p);
    }

    method ApplyRemotePayload(p: SyncPayload) returns (ok: bool)
      requires Sound(View(), schema)
      modifies this
      ensures Ran(old(View()), ApplyRemote(old(View()), p, schema), View(), ok)
      ensures Sound(View(), schema)
    {
      var saved := View();
      ok := ApplyInside(p);
      if ok { ApplyRemoteSound(saved, p, schema); } else { Rollback(saved); }
    }

    /** Acknowledgement and apply in one transaction. */
    method CompleteSyncRound(sent: SyncPayload, resp: SyncPayload) returns (ok: bool)
      requires Sound(View(), schema)
      modifies this
      ensures Ran(old(View()), CompleteSync(old(View()), sent, resp, schema), View(), ok)
      ensures Sound(View(), schema)
    {
      var saved := View();
      ok := AcknowledgeLocalDelta(sent, resp);
      if !ok { return; }
      AcknowledgedSound(saved, sent, resp, schema);
      ok := ApplyInside(resp);
      if ok { CompleteSyncSound(saved, sent, resp, schema); } else { Rollback(saved); }
    }

    method ResetSyncCursor()
      requires Sound(View(), schema)
      modifies this
      ensures View() == ResetCursor(old(View())) && Sound(View(), schema)
    {
      ResetSound(View(), schema);
      cursor, token, epoch := 0, None, None;
    }

    method Perform(op: LocalOp) returns (ok: bool)
      modifies this
      ensures Ran(old(View()), Apply(old(View()), op, schema), View(), ok)
    {
      match op
      case Insert(row, values) => ok := Insert(row, values);
      case Set(row, column, value) => ok := SetColumn(row, column, value);
      case Overwrite(row, column, value) => ok := OverwriteColumn(row, column, value);
      case Delete(row) => ok := DeleteRow(row);
      case Restore(row) => ok := RestoreRow(row);
    }

    /** Writes of other callers while a page is under way. */
    method PerformAll(ops: seq<LocalOp>)
      requires Sound(View(), schema) && WellFormed(schema)
      modifies this
      ensures View() == Written(old(View()), ops, schema) && Sound(View(), schema)
    {
      ghost var c := View();
      for i := 0 to |ops|
        invariant Sound(View(), schema)
        invariant View() == Written(c, ops[..i], schema)
      {
        assert ops[..i + 1][..i] == ops[..i];
        ghost var before := View();
        var ok := Perform(ops[i]);
        if ok { ApplySound(before, ops[i], schema); }
      }
      assert ops[..|ops|] == ops;
    }

    /** One page of a catch-up; `more` asks for the next. */
    method SyncOnePage(page: nat, transport: Transport, meanwhile: Meanwhile) returns (more: bool, res: Result<SyncPayload>)
      requires Sound(View(), schema) && WellFormed(schema)
      modifies this
      ensures Sound(View(), schema)
      ensures SyncPage(old(View()), page, transport, meanwhile, schema) ==
        if more then Continue(View()) else Stop(CaughtUp(View(), res))
    {
      var outbound := GetLocalDelta();
      if outbound.Err? { return false, Err; }
      PerformAll(meanwhile(page));
      var response := transport(page);
      if response.Err? { return false, Err; }
      var ok := CompleteSyncRound(outbound.value, response.value);
      if !ok { return false, Err; }
      return response.value.hasMore, response;
    }

    /** Syncs page by page until the server reports no more, or the page budget is spent. */
    method SyncUntilCaughtUp(transport: Transport, meanwhile: Meanwhile) returns (res: Result<SyncPayload>)
      requires Sound(View(), schema) && WellFormed(schema)
      modifies this
      ensures Sound(View(), schema)
      ensures CaughtUp(View(), res) == CatchUp(old(View()), 0, Paging(transport, meanwhile, schema))
    {
      ghost var c, pager := View(), Paging(transport, meanwhile, schema);
      for page := 0 to MAX_SYNC_PAGES
        invariant Sound(View(), schema)
        invariant CatchUp(View(), page, pager) == CatchUp(c, 0, pager)
      {
        var more, response := SyncOnePage(page, transport, meanwhile);
        if !more { return response; }
      }
      return Err;
    }

    // --- Scopes --------------------------------------------------------

    method ScopeMembers(scope: string) returns (ids: seq<string>)
      ensures ids == SortedSeq(ScopeRows(View(), scope))
    {
      var mine := set m | m in members && m.scope == scope :: m.row;
      ids := SortKeys(mine);
    }

    /** A request advances the scope's revision in the same transaction. */
    method GetPartialReplicaRequest(scope: string, interest: Interest) returns (res: Result<PartialRequest>)
      modifies this
      ensures match PartialRequestOf(old(View()), scope, interest, schema)
              case Ok(q) => View() == q.client && res == Ok(q.request)
              case Err => View() == old(View()) && res == Err
    {
      var version := ScopeVersion(View(), scope) + 1;
      if version > I64_MAX { return Err; }
      var known := ScopeMembers(scope);
      var delta := BuildDelta();
      var request := PartialRequest(scope, version, interest, known, delta);
      var ok := CheckPartialRequest(request, device, schema);
      if !ok { return Err; }
      scopes := scopes[scope := Scope(version, true)];
      return Ok(request);
    }

    /** Membership rows are replaced one by one, then lost rows are marked. */
    method ReplaceMembers(scope: string, ids: seq<string>, lost: seq<string>)
      modifies this
      ensures View() == Rescope(old(View()), scope, Elements(ids), Elements(lost))
    {
      ghost var a := View();
      EnterMembers(scope, ids);
      MarkLost(scope, lost, a, Elements(ids));
    }

    method EnterMembers(scope: string, ids: seq<string>)
      modifies this
      ensures View() == Rescope(old(View()), scope, Elements(ids), {})
    {
      ghost var a := View();
      RescopeStart(a, scope);
      members := set m | m in members && m.scope != scope;
      for i := 0 to |ids|
        invariant View() == Rescope(a, scope, Elements(ids[..i]), {})
      {
        ElementsStep(ids, i);
        RescopeStep(a, scope, Elements(ids[..i]), ids[i]);
        members := members + {Member(scope, ids[i])};
        evictions := evictions - {Member(scope, ids[i])};
      }
      assert ids[..|ids|] == ids;
    }

    method MarkLost(scope: string, lost: seq<string>, ghost a: Client, ghost rows: set<string>)
      requires View() == Rescope(a, scope, rows, {})
      modifies this
      ensures View() == Rescope(a, scope, rows, Elements(lost))
    {
      for i := 0 to |lost|
        invariant View() == Rescope(a, scope, rows, Elements(lost[..i]))
      {
        ElementsStep(lost, i);
        MarkStep(a, scope, rows, Elements(lost[..i]), lost[i]);
        evictions := evictions + {Member(scope, lost[i])};
      }
      assert lost[..|lost|] == lost;
    }

    method RevisionMatches(sent: PartialRequest, resp: PartialResponse) returns (ok: bool)
      ensures ok <==>
        && ValidPartialRequest(sent, device, schema) && ValidPartialResponse(resp, schema)
        && sent.scope == resp.scope && sent.version == resp.version
        && sent.scope in scopes && scopes[sent.scope] == Scope(sent.version, true)
        && Dropped(sent.known, resp.members) == resp.evicted
    {
      ok := CheckPartialRequest(sent, device, schema);
      if !ok { return; }
      ok := CheckPartialResponse(resp, schema);
      if !ok { return; }
      if sent.scope != resp.scope || sent.version != resp.version { return false; }
      if sent.scope !in scopes || scopes[sent.scope] != Scope(sent.version, true) { return false; }
      var expected := DropKnown(sent.known, resp.members);
      ok := expected == resp.evicted;
    }

    method ApplyPartialReplicaResponse(sent: PartialRequest, resp: PartialResponse) returns (ok: bool)
      requires Sound(View(), schema)
      modifies this
      ensures Ran(old(View()), CompletePartial(old(View()), sent, resp, schema), View(), ok)
      ensures Sound(View(), schema)
    {
      ghost var before := View();
      ok := RevisionMatches(sent, resp);
      if !ok { return; }
      ok := CompleteSyncRound(sent.sync, resp.sync);
      if !ok { return; }
      ReplaceMembers(sent.scope, resp.members, resp.evicted);
      CleanupPendingEvictions();
      CompletePartialSound(before, sent, resp, schema);
    }

    method Deactivate(scope: string, version: nat)
      modifies this
      ensures View() == old(View()).(scopes := old(View()).scopes[scope := Scope(version, false)])
    {
      scopes := scopes[scope := Scope(version, false)];
    }

    method RemovePartialReplicaScope(scope: string) returns (ok: bool)
      requires Sound(View(), schema)
      modifies this
      ensures Ran(old(View()), RemoveScope(old(View()), scope), View(), ok)
      ensures Sound(View(), schema)
    {
      ghost var before := View();
      var version := ScopeVersion(View(), scope) + 1;
      if !ValidIdentifier(scope) || version > I64_MAX { return false; }
      var mine := ScopeMembers(scope);
      var nobody: seq<string> := [];
      assert Elements(nobody) == {} && Elements(mine) == ScopeRows(before, scope);
      ReplaceMembers(scope, nobody, mine);
      Deactivate(scope, version);
      CleanupPendingEvictions();
      RemoveOutcome(before, scope);
      RemoveScopeSound(before, scope, schema);
      return true;
    }
  }

  lemma AcknowledgedSound(c: Client, sent: SyncPayload, resp: SyncPayload, t: Schema)
    requires Sound(c, t) && AcknowledgeResponse(c, sent, resp, t).Ok?
    ensures Sound(AcknowledgeResponse(c, sent, resp, t).value, t)
  {
    var a := Acknowledge(c, CellsOf(sent.changes), resp.rejections);
    AcknowledgeSound(c, CellsOf(sent.changes), resp.rejections, t);
    SoundAlmost(a, t);
    CleanupSound(a, t);
  }

  lemma RescopeStart(a: Client, scope: string)
    ensures Rescope(a, scope, {}, {}) == a.(members := set m | m in a.members && m.scope != scope)
  {
  }

  lemma CellsStep(changes: seq<RowChange>, i: nat)
    requires DistinctRows(changes) && i < |changes|
    ensures CellsOf(changes[..i + 1]) == CellsOf(changes[..i]) + RowMap(changes[i])
  {
    var pre, all := changes[..i], changes[..i + 1];
    assert all[..i] == pre;
    forall k ensures (k in CellsOf(all) <==> k in CellsOf(pre) + RowMap(changes[i]))
      && (k in CellsOf(all) ==> CellsOf(all)[k] == (CellsOf(pre) + RowMap(changes[i]))[k])
    {
      CellsStepAt(changes, i, k);
    }
    MapsAgree(CellsOf(all), CellsOf(pre) + RowMap(changes[i]));
  }

  lemma CellsStepAt(changes: seq<RowChange>, i: nat, k: Key)
    requires DistinctRows(changes) && i < |changes|
    ensures var (x, y) := (CellsOf(changes[..i + 1]), CellsOf(changes[..i]) + RowMap(changes[i]));
      (k in x <==> k in y) && (k in x ==> x[k] == y[k])
  {
    if k in CellsOf(changes[..i + 1]) { CellsBack(changes, i, k); }
    if k in RowMap(changes[i]) {
      CellsOfEntry(changes[..i + 1], i, Write(k, RowMap(changes[i])[k]));
    } else if k in CellsOf(changes[..i]) {
      CellsForward(changes[..i], changes[..i + 1], k);
    }
  }

  lemma CellsForward(pre: seq<RowChange>, all: seq<RowChange>, k: Key)
    requires DistinctRows(all) && DistinctRows(pre) && pre <= all && k in CellsOf(pre)
    ensures k in CellsOf(all) && CellsOf(all)[k] == CellsOf(pre)[k]
  {
    var j := CellsOfOrigin(pre, k);
    CellsOfEntry(all, j, Write(k, CellsOf(pre)[k]));
  }

  lemma CellsBack(changes: seq<RowChange>, i: nat, k: Key)
    requires DistinctRows(changes) && i < |changes| && k in CellsOf(changes[..i + 1])
    ensures k in CellsOf(changes[..i]) || k in RowMap(changes[i])
  {
    var cell := CellsOf(changes[..i + 1])[k];
    var j := CellsOfOrigin(changes[..i + 1], k);
    if j < i { CellsOfEntry(changes[..i], j, Write(k, cell)); }
  }

  ghost predicate RowsKnown(m: map<Key, Cell>, ids: set<string>) {
    forall k :: k in m ==> k.row in ids
  }

  /** The next row is new, and its columns belong to the contract. */
  lemma RowsStep(changes: seq<RowChange>, i: nat, t: Schema)
    requires DistinctRows(changes) && ValidRows(t, changes) && i < |changes|
    ensures CellsOf(changes[..i + 1]) == CellsOf(changes[..i]) + RowMap(changes[i])
    ensures RowSet(changes[..i + 1]) == RowSet(changes[..i]) + {changes[i].row}
    ensures changes[i].row !in RowSet(changes[..i])
    ensures RowsKnown(CellsOf(changes[..i]), RowSet(changes[..i]))
    ensures changes[i].columns.Keys <= t.types.Keys
  {
    CellsStep(changes, i);
    RowSetStep(changes, i);
    CellsKnown(changes[..i]);
    RowColumns(changes[i], t);
  }

  lemma RowColumns(r: RowChange, t: Schema)
    requires ValidRow(t, r)
    ensures r.columns.Keys <= t.types.Keys
  {
  }

  lemma RowSetStep(changes: seq<RowChange>, i: nat)
    requires DistinctRows(changes) && i < |changes|
    ensures RowSet(changes[..i + 1]) == RowSet(changes[..i]) + {changes[i].row}
    ensures changes[i].row !in RowSet(changes[..i])
  {
    assert changes[..i + 1][..i] == changes[..i];
    RowSetMembers(changes[..i], changes[i].row);
  }

  lemma CellsKnown(changes: seq<RowChange>)
    requires DistinctRows(changes)
    ensures RowsKnown(CellsOf(changes), RowSet(changes))
  {
    forall k | k in CellsOf(changes) ensures k.row in RowSet(changes) {
      RowSetCovers(changes, k);
    }
  }

  /** A conflict in one row is a conflict of the payload. */
  lemma RowConflict(c: Client, changes: seq<RowChange>, i: nat)
    requires DistinctRows(changes) && i < |changes| && !NoConflicts(c, RowMap(changes[i]))
    ensures !NoConflicts(c, CellsOf(changes))
  {
    var k :| k in RowMap(changes[i]) && Conflicts(c.log, k, RowMap(changes[i])[k]);
    CellsOfEntry(changes, i, Write(k, RowMap(changes[i])[k]));
  }

  lemma ConflictStep(c: Client, m: map<Key, Cell>, k: Key, cell: Cell)
    requires NoConflicts(c, m) && !Conflicts(c.log, k, cell)
    ensures NoConflicts(c, m[k := cell])
  {
  }

  lemma BothFine(c: Client, m: map<Key, Cell>, n: map<Key, Cell>)
    requires NoConflicts(c, m) && NoConflicts(c, n)
    ensures NoConflicts(c, m + n)
  {
  }

  ghost function ColumnValues(row: string, values: map<string, Value>, t: Schema, names: seq<string>): map<Key, Value>
    requires forall x :: x in names ==> x in t.types
  {
    if names == [] then map[]
    else
      var name := names[|names| - 1];
      ColumnValues(row, values, t, names[..|names| - 1])[Key(row, name) := RowValue(t, values, name)]
  }

  lemma {:induction false} ColumnValuesAt(row: string, values: map<string, Value>, t: Schema, names: seq<string>, k: Key)
    requires forall x :: x in names ==> x in t.types
    ensures var vs := ColumnValues(row, values, t, names);
      && (k in vs <==> k.row == row && k.column in names)
      && (k in vs ==> vs[k] == RowValue(t, values, k.column))
  {
    if names != [] {
      var n := |names| - 1;
      ColumnValuesAt(row, values, t, names[..n], k);
      assert names == names[..n] + [names[n]];
    }
  }

  lemma ColumnValuesAll(row: string, values: map<string, Value>, t: Schema, names: seq<string>)
    requires forall x :: x in names <==> x in t.types
    ensures ColumnValues(row, values, t, names) == RowValues(row, values, t)
  {
    var vs, all := ColumnValues(row, values, t, names), RowValues(row, values, t);
    forall k ensures (k in vs <==> k in all) && (k in vs ==> vs[k] == all[k]) {
      ColumnValuesAt(row, values, t, names, k);
    }
    MapsAgree(vs, all);
  }

  /** The table and log after one column of the current clock value is captured. */
  ghost function Logged(d: Client, key: Key, value: Value): Client {
    d.(app := d.app[key := value], log := d.log[key := Entry(Cell(value, Version(d.clock, d.device)), true)])
  }

  lemma PlusNone<V>(a: map<Key, V>, b: map<Key, V>)
    requires b == map[]
    ensures a + b == a
  {
  }

  /** A clock tick that captures nothing yet. */
  lemma CaptureNone(c: Client, vs: map<Key, Value>)
    requires vs == map[]
    ensures Capture(c, vs) == c.(clock := c.clock + 1)
  {
    PlusNone(c.app, vs);
    PlusNone(c.log, Stamped(vs, Version(c.clock + 1, c.device)));
  }

  lemma AssignOutcome(c: Client, key: Key, value: Value)
    requires !(key in c.app && c.app[key] == value) && c.clock < I64_MAX
    ensures Assign(c, key, value) == Ok(Logged(c.(clock := c.clock + 1), key, value))
  {
    CaptureNone(c, map[]);
    CaptureStep(c, map[], key, value);
  }

  lemma StampStep(vs: map<Key, Value>, v: Version, k: Key, value: Value)
    ensures Stamped(vs[k := value], v) == Stamped(vs, v)[k := Entry(Cell(value, v), true)]
  {
  }

  lemma PlusStep<V>(a: map<Key, V>, b: map<Key, V>, k: Key, v: V)
    ensures a + b[k := v] == (a + b)[k := v]
  {
  }

  lemma CaptureIs(c: Client, vs: map<Key, Value>, es: map<Key, Entry>)
    requires es == Stamped(vs, Version(c.clock + 1, c.device))
    ensures Capture(c, vs) == c.(clock := c.clock + 1, app := c.app + vs, log := c.log + es)
  {
  }

  lemma CaptureStep(c: Client, vs: map<Key, Value>, k: Key, v: Value)
    ensures Capture(c, vs[k := v]) == Logged(Capture(c, vs), k, v)
  {
    var version := Version(c.clock + 1, c.device);
    var es, e := Stamped(vs, version), Entry(Cell(v, version), true);
    StampStep(vs, version, k, v);
    CaptureIs(c, vs, es);
    CaptureIs(c, vs[k := v], es[k := e]);
    PlusLogged(c, vs, es, k, v);
  }

  lemma PlusLogged(c: Client, vs: map<Key, Value>, es: map<Key, Entry>, k: Key, v: Value)
    ensures var e := Entry(Cell(v, Version(c.clock + 1, c.device)), true);
      c.(clock := c.clock + 1, app := c.app + vs[k := v], log := c.log + es[k := e]) ==
        Logged(c.(clock := c.clock + 1, app := c.app + vs, log := c.log + es), k, v)
  {
    PlusStep(c.app, vs, k, v);
    PlusStep(c.log, es, k, Entry(Cell(v, Version(c.clock + 1, c.device)), true));
  }

  ghost function RowPart(r: RowChange, names: seq<string>): map<Key, Cell>
    requires forall x :: x in names ==> x in r.columns
  {
    if names == [] then map[]
    else
      var name := names[|names| - 1];
      RowPart(r, names[..|names| - 1])[Key(r.row, name) := r.columns[name]]
  }

  lemma {:induction false} PartMembers(r: RowChange, names: seq<string>, k: Key)
    requires forall x :: x in names ==> x in r.columns
    ensures k in RowPart(r, names) <==> k.row == r.row && k.column in names
    ensures k in RowPart(r, names) ==> RowPart(r, names)[k] == r.columns[k.column]
  {
    if names != [] {
      var n := |names| - 1;
      PartMembers(r, names[..n], k);
      assert names == names[..n] + [names[n]];
    }
  }

  lemma PartStep(m: map<Key, Cell>, r: RowChange, names: seq<string>, i: nat)
    requires i < |names| && StrictlySorted(names) && (forall x :: x in names ==> x in r.columns)
    requires forall k :: k in m ==> k.row != r.row
    ensures var (n, k) := (m + RowPart(r, names[..i]), Key(r.row, names[i]));
      k !in n && m + RowPart(r, names[..i + 1]) == n[k := r.columns[names[i]]]
    ensures RowPart(r, names[..i + 1]) == RowPart(r, names[..i])[Key(r.row, names[i]) := r.columns[names[i]]]
  {
    NameNew(names, i);
    PartMembers(r, names[..i], Key(r.row, names[i]));
    assert names[..i + 1][..i] == names[..i];
    PlusStep(m, RowPart(r, names[..i]), Key(r.row, names[i]), r.columns[names[i]]);
  }

  lemma NameNew(names: seq<string>, i: nat)
    requires i < |names| && StrictlySorted(names)
    ensures names[i] !in names[..i]
  {
    if names[i] in names[..i] {
      var j :| 0 <= j < i && names[j] == names[i];
      NoDuplicates(names, i, j);
      assert false;
    }
  }

  lemma PartWhole(r: RowChange, names: seq<string>)
    requires forall x :: x in names <==> x in r.columns
    ensures RowPart(r, names) == RowMap(r)
  {
    forall k ensures (k in RowPart(r, names) <==> k in RowMap(r)) && (k in RowMap(r) ==> RowPart(r, names)[k] == RowMap(r)[k]) {
      PartMembers(r, names, k);
    }
    MapsAgree(RowPart(r, names), RowMap(r));
  }
}
