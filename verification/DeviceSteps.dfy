/** What each operation of a device needs and does, in plain terms of its tables. */
module DeviceSteps {
  import opened Names
  import opened Cells
  import opened Payload
  import opened Server
  import opened Client
  import opened ClientFacts
  import opened LocalWrites
  import opened Lww
  import opened Acceptance

  const LAST_CLOCK: nat := 0x7fff_ffff_ffff_ffff

  // --- Local writes ----------------------------------------------------

  /** The value of an application column. */
  predicate Shows(c: Client, row: string, column: string, v: Value) {
    Key(row, column) in c.app && c.app[Key(row, column)] == v
  }

  /** The update trigger has nothing to do, or the clock can still advance. */
  predicate CanSet(c: Client, row: string, column: string, v: Value) {
    Shows(c, row, column, v) || c.clock < LAST_CLOCK
  }

  /** An application column of the table, and a value that belongs there. */
  ghost predicate Settable(t: Schema, column: string, v: Value) {
    column != "deleted" && column in t.types && Belongs(v, t.types[column])
  }

  /** An insert succeeds exactly for a new, valid row identifier, given values that belong to application
      columns, and a clock that can advance. */
  lemma InsertExactly(c: Client, row: string, values: map<string, Value>, t: Schema)
    ensures Apply(c, Insert(row, values), t).Ok? <==>
      && Printable(row, 255) && row !in c.rows && c.clock < LAST_CLOCK
      && forall column :: column in values ==> Settable(t, column, values[column])
  {
    PrintableIs(row);
    forall column | column in values
      ensures column != LIVENESS && ValidColumn(t, column, values[column]) <==> Settable(t, column, values[column])
    {
      ValuesExactly(t, column, values[column]);
    }
  }

  /** Setting a column succeeds exactly on a stored row that shows it is not deleted. */
  lemma SetExactly(c: Client, row: string, column: string, v: Value, t: Schema)
    ensures Apply(c, Set(row, column, v), t).Ok? <==>
      && Printable(row, 255) && Settable(t, column, v)
      && row in c.rows && Shows(c, row, "deleted", Boolean(false)) && CanSet(c, row, column, v)
  {
    PrintableIs(row);
    ValuesExactly(t, column, v);
  }

  /** Overwriting one succeeds exactly on a stored row, deleted or not. */
  lemma OverwriteExactly(c: Client, row: string, column: string, v: Value, t: Schema)
    ensures Apply(c, Overwrite(row, column, v), t).Ok? <==>
      Printable(row, 255) && Settable(t, column, v) && row in c.rows && CanSet(c, row, column, v)
  {
    PrintableIs(row);
    ValuesExactly(t, column, v);
  }

  /** Deleting succeeds exactly on a stored row that shows it is not deleted, restoring on one that shows it is. */
  lemma DeleteRestoreExactly(c: Client, row: string, t: Schema)
    ensures Apply(c, Delete(row), t).Ok? <==>
      Printable(row, 255) && row in c.rows && Shows(c, row, "deleted", Boolean(false)) && c.clock < LAST_CLOCK
    ensures Apply(c, Restore(row), t).Ok? <==>
      Printable(row, 255) && row in c.rows && Shows(c, row, "deleted", Boolean(true)) && c.clock < LAST_CLOCK
  {
    PrintableIs(row);
  }

  /** The column shows the value, logged dirty under the next clock value and this device's name. */
  ghost predicate Wrote(c: Client, d: Client, row: string, column: string, v: Value) {
    var k := Key(row, column);
    && Shows(d, row, column, v) && d.clock == c.clock + 1
    && k in d.log && d.log[k].dirty && d.log[k].cell.value == v
    && d.log[k].cell.version.clock == c.clock + 1 && d.log[k].cell.version.device == c.device
  }

  /** The zero of a type. */
  ghost predicate Blank(v: Value, ty: ColumnType) {
    match ty
    case TextColumn => v.Text? && |v.s| == 0
    case IntegerColumn => v.Integer? && v.i == 0
    case RealColumn => v.Real? && v.r == 0.0
    case BooleanColumn => v.Boolean? && !v.b
  }

  /** An insert writes every synchronized column of its row, given or blank. */
  lemma InsertWrites(c: Client, row: string, values: map<string, Value>, t: Schema, column: string)
    requires Apply(c, Insert(row, values), t).Ok? && column in t.types
    ensures var d := Apply(c, Insert(row, values), t).value;
      && row in d.rows
      && (column in values ==> Wrote(c, d, row, column, values[column]))
      && (column !in values ==> exists v :: Blank(v, t.types[column]) && Wrote(c, d, row, column, v))
  {
    var d := Apply(c, Insert(row, values), t).value;
    WritesReadBack(c, Insert(row, values), t, Key(row, column));
    RowValuesFacts(row, values, t, Key(row, column));
    if column !in values {
      assert Blank(DefaultValue(t.types[column]), t.types[column]) && Wrote(c, d, row, column, DefaultValue(t.types[column]));
    }
  }

  /** The other operations write their one column, unless it shows the value already; then nothing changes. */
  lemma UpdatesWrite(c: Client, row: string, column: string, v: Value, t: Schema)
    ensures forall op :: op in [Set(row, column, v), Overwrite(row, column, v)] && Apply(c, op, t).Ok? ==>
      var d := Apply(c, op, t).value; if Shows(c, row, column, v) then d == c else Wrote(c, d, row, column, v)
    ensures Apply(c, Delete(row), t).Ok? ==> Wrote(c, Apply(c, Delete(row), t).value, row, "deleted", Boolean(true))
    ensures Apply(c, Restore(row), t).Ok? ==> Wrote(c, Apply(c, Restore(row), t).value, row, "deleted", Boolean(false))
  {
    AssignWrites(c, row, column, v);
    AssignWrites(c, row, "deleted", Boolean(true));
    AssignWrites(c, row, "deleted", Boolean(false));
  }

  lemma AssignWrites(c: Client, row: string, column: string, v: Value)
    ensures Assign(c, Key(row, column), v).Ok? ==>
      var d := Assign(c, Key(row, column), v).value; if Shows(c, row, column, v) then d == c else Wrote(c, d, row, column, v)
  {
  }

  /** Every operation leaves all other columns, and everything that is not the table, its log and the clock, as it was. */
  lemma OnlyTargetsChange(c: Client, op: LocalOp, t: Schema, row: string, column: string)
    requires Apply(c, op, t).Ok?
    requires match op
      case Insert(r, _) => row != r
      case Set(r, x, _) => row != r || column != x
      case Overwrite(r, x, _) => row != r || column != x
      case Delete(r) => row != r || column != "deleted"
      case Restore(r) => row != r || column != "deleted"
    ensures var d := Apply(c, op, t).value; var k := Key(row, column);
      && (k in d.app <==> k in c.app) && (k in c.app ==> d.app[k] == c.app[k])
      && (k in d.log <==> k in c.log) && (k in c.log ==> d.log[k] == c.log[k])
      && d.(clock := c.clock, rows := c.rows, app := c.app, log := c.log) == c
  {
    WritesReadBack(c, op, t, Key(row, column));
    ApplySteps(c, op, t);
  }

  // --- Acknowledgement and eviction ------------------------------------

  /** The entry was sent at this version, and no record of the response rejects it. */
  ghost predicate Confirmed(e: Entry, k: Key, sent: SyncPayload, resp: SyncPayload) {
    && (exists x :: Sends(sent, k, x) && x.version == e.cell.version)
    && forall r :: r in resp.rejections ==> r.key != k || r.cell.version != e.cell.version
  }

  ghost predicate DirtyAfter(c: Client, k: Key, sent: SyncPayload, resp: SyncPayload) {
    k in c.log && c.log[k].dirty && !Confirmed(c.log[k], k, sent, resp)
  }

  ghost predicate RowDirty(c: Client, row: string, sent: SyncPayload, resp: SyncPayload) {
    exists k: Key :: k.row == row && DirtyAfter(c, k, sent, resp)
  }

  ghost predicate HeldSomewhere(c: Client, row: string) {
    exists m :: m in c.members && m.row == row
  }

  /** The row is marked for eviction, no scope holds it, and nothing of it is left to send. */
  ghost predicate Goes(c: Client, row: string, sent: SyncPayload, resp: SyncPayload) {
    (exists m :: m in c.evictions && m.row == row) && !HeldSomewhere(c, row) && !RowDirty(c, row, sent, resp)
  }

  lemma AcknowledgesIs(c: Client, k: Key, sent: SyncPayload, resp: SyncPayload)
    requires DistinctRows(sent.changes) && k in c.log
    ensures Acknowledges(CellsOf(sent.changes), resp.rejections, k, c.log[k]) <==> Confirmed(c.log[k], k, sent, resp)
  {
    var m := CellsOf(sent.changes);
    if k in m { SendsIs(sent, k, m[k]); }
    if x :| Sends(sent, k, x) && x.version == c.log[k].cell.version { SendsIs(sent, k, x); }
  }

  lemma RowDirtyIs(c: Client, row: string, sent: SyncPayload, resp: SyncPayload)
    requires DistinctRows(sent.changes)
    ensures HasDirty(Acknowledge(c, CellsOf(sent.changes), resp.rejections), row) <==> RowDirty(c, row, sent, resp)
  {
    var a := Acknowledge(c, CellsOf(sent.changes), resp.rejections);
    forall k | k in c.log ensures a.log[k].dirty <==> DirtyAfter(c, k, sent, resp) {
      AcknowledgesIs(c, k, sent, resp);
    }
    if RowDirty(c, row, sent, resp) {
      var k: Key :| k.row == row && DirtyAfter(c, k, sent, resp);
      assert k in a.log && a.log[k].dirty;
    }
  }

  /** Acknowledging with a response needs both payloads valid; it makes exactly the confirmed entries clean, removes exactly
      the marked rows that no scope holds and that have nothing left to send, with their columns and log, keeps the markers
      of rows that still have, and touches nothing else. */
  lemma AcknowledgementExactly(c: Client, sent: SyncPayload, resp: SyncPayload, t: Schema)
    ensures AcknowledgeResponse(c, sent, resp, t).Ok? <==> ValidResponse(resp, t) && ValidRequest(sent, c.device, t)
    ensures AcknowledgeResponse(c, sent, resp, t).Ok? ==> AcknowledgedAs(c, sent, resp, AcknowledgeResponse(c, sent, resp, t).value)
  {
    if ValidResponse(resp, t) && ValidRequest(sent, c.device, t) {
      AcknowledgedCleaned(c, sent, resp, AcknowledgeResponse(c, sent, resp, t).value);
    }
  }

  ghost predicate AcknowledgedAs(c: Client, sent: SyncPayload, resp: SyncPayload, d: Client) {
    && LogAfter(c, sent, resp, d) && TableAfter(c, sent, resp, d) && MarkersAfter(c, sent, resp, d)
    && d.(log := c.log, app := c.app, rows := c.rows, evictions := c.evictions) == c
  }

  ghost predicate LogAfter(c: Client, sent: SyncPayload, resp: SyncPayload, d: Client) {
    && (forall k :: k in d.log <==> k in c.log && !Goes(c, k.row, sent, resp))
    && (forall k :: k in d.log ==> d.log[k].cell == c.log[k].cell && (d.log[k].dirty <==> DirtyAfter(c, k, sent, resp)))
  }

  ghost predicate TableAfter(c: Client, sent: SyncPayload, resp: SyncPayload, d: Client) {
    && (forall k :: k in d.app <==> k in c.app && !Goes(c, k.row, sent, resp))
    && (forall k :: k in d.app ==> d.app[k] == c.app[k])
    && (forall row :: row in d.rows <==> row in c.rows && !Goes(c, row, sent, resp))
  }

  ghost predicate MarkersAfter(c: Client, sent: SyncPayload, resp: SyncPayload, d: Client) {
    forall m :: m in d.evictions <==> m in c.evictions && !HeldSomewhere(c, m.row) && RowDirty(c, m.row, sent, resp)
  }

  lemma GoesIs(c: Client, row: string, sent: SyncPayload, resp: SyncPayload)
    requires DistinctRows(sent.changes)
    ensures Evictable(Acknowledge(c, CellsOf(sent.changes), resp.rejections), row) <==> Goes(c, row, sent, resp)
  {
    RowDirtyIs(c, row, sent, resp);
  }

  lemma LogIs(c: Client, sent: SyncPayload, resp: SyncPayload, a: Client, d: Client)
    requires DistinctRows(sent.changes) && a == Acknowledge(c, CellsOf(sent.changes), resp.rejections) && d == Cleanup(a)
    ensures LogAfter(c, sent, resp, d)
  {
    forall k ensures k in d.log <==> k in c.log && !Goes(c, k.row, sent, resp) {
      GoesIs(c, k.row, sent, resp);
    }
    forall k | k in d.log ensures d.log[k].cell == c.log[k].cell && (d.log[k].dirty <==> DirtyAfter(c, k, sent, resp)) {
      AcknowledgesIs(c, k, sent, resp);
    }
  }

  lemma TableIs(c: Client, sent: SyncPayload, resp: SyncPayload, a: Client, d: Client)
    requires DistinctRows(sent.changes) && a == Acknowledge(c, CellsOf(sent.changes), resp.rejections) && d == Cleanup(a)
    ensures TableAfter(c, sent, resp, d)
  {
    forall k ensures k in d.app <==> k in c.app && !Goes(c, k.row, sent, resp) {
      GoesIs(c, k.row, sent, resp);
    }
    forall row ensures row in d.rows <==> row in c.rows && !Goes(c, row, sent, resp) {
      GoesIs(c, row, sent, resp);
    }
  }

  lemma MarkersIs(c: Client, sent: SyncPayload, resp: SyncPayload, a: Client, d: Client)
    requires DistinctRows(sent.changes) && a == Acknowledge(c, CellsOf(sent.changes), resp.rejections) && d == Cleanup(a)
    ensures MarkersAfter(c, sent, resp, d)
  {
    forall m ensures m in d.evictions <==> m in c.evictions && !HeldSomewhere(c, m.row) && RowDirty(c, m.row, sent, resp) {
      RowDirtyIs(c, m.row, sent, resp);
    }
  }

  lemma AcknowledgedCleaned(c: Client, sent: SyncPayload, resp: SyncPayload, d: Client)
    requires DistinctRows(sent.changes) && d == Cleanup(Acknowledge(c, CellsOf(sent.changes), resp.rejections))
    ensures AcknowledgedAs(c, sent, resp, d)
  {
    var a := Acknowledge(c, CellsOf(sent.changes), resp.rejections);
    LogIs(c, sent, resp, a, d);
    TableIs(c, sent, resp, a, d);
    MarkersIs(c, sent, resp, a, d);
  }

  // --- Remote apply ----------------------------------------------------

  /** No cell of the response has the version of a stored one and another value. */
  ghost predicate Agrees(c: Client, r: SyncPayload) {
    forall k, x :: Sends(r, k, x) && k in c.log && c.log[k].cell.version == x.version ==> c.log[k].cell.value == x.value
  }

  /** The row is among those of the response. */
  ghost predicate Answered(r: SyncPayload, row: string) {
    exists i :: 0 <= i < |r.changes| && r.changes[i].row == row
  }

  /** The clock goes one above both, the cursor to the response's or the larger of the two, token and epoch to the
      response's, and each row of the response is stored. */
  ghost predicate AppliedAs(c: Client, r: SyncPayload, d: Client) {
    && d.clock == (if c.clock > r.lamport then c.clock else r.lamport) + 1
    && d.cursor == (if !r.cursorReset && c.cursor > r.cursor then c.cursor else r.cursor)
    && d.token == r.token && d.epoch == r.epoch
    && (forall row :: row in d.rows <==> row in c.rows || Answered(r, row))
    && d.device == c.device && d.scopes == c.scopes && d.members == c.members && d.evictions == c.evictions
  }

  /** Applying a response needs it valid, in agreement with the log, and a clock that can advance past it. */
  lemma ApplyExactly(c: Client, r: SyncPayload, t: Schema)
    ensures ApplyRemote(c, r, t).Ok? <==> ValidResponse(r, t) && Agrees(c, r) && c.clock < LAST_CLOCK && r.lamport < LAST_CLOCK
    ensures ApplyRemote(c, r, t).Ok? ==> AppliedAs(c, r, ApplyRemote(c, r, t).value)
  {
    ApplyAccepts(c, r, t);
    if ApplyRemote(c, r, t).Ok? {
      ApplyRemoteShape(c, r, t);
      AppliedIs(c, r, Max(c.clock, r.lamport) + 1, ApplyRemote(c, r, t).value, t);
    }
  }

  lemma ApplyAccepts(c: Client, r: SyncPayload, t: Schema)
    ensures ApplyRemote(c, r, t).Ok? <==> ValidResponse(r, t) && Agrees(c, r) && c.clock < LAST_CLOCK && r.lamport < LAST_CLOCK
  {
    ApplicableIs(c, r, t);
    if ValidResponse(r, t) { AgreesIs(c, r); }
  }

  lemma ApplicableIs(c: Client, r: SyncPayload, t: Schema)
    ensures ApplyRemote(c, r, t).Ok? <==>
      ValidResponse(r, t) && NoConflicts(c, CellsOf(r.changes)) && c.clock < LAST_CLOCK && r.lamport < LAST_CLOCK
  {
    AppliesWhen(c, r, t);
    if ValidResponse(r, t) {
      ObservedIs(r, t);
      RoomIs(c.clock, MaxObserved(r));
    }
  }

  lemma AppliesWhen(c: Client, r: SyncPayload, t: Schema)
    ensures ApplyRemote(c, r, t).Ok? <==>
      ValidResponse(r, t) && NoConflicts(c, CellsOf(r.changes)) && Max(c.clock, MaxObserved(r)) + 1 <= I64_MAX
  {
  }

  lemma RoomIs(a: nat, b: nat)
    ensures Max(a, b) + 1 <= I64_MAX <==> a < LAST_CLOCK && b < LAST_CLOCK
  {
  }

  lemma ObservedIs(r: SyncPayload, t: Schema)
    requires ValidResponse(r, t)
    ensures MaxObserved(r) == r.lamport
  {
    MaxObservedIsSource(r);
  }

  lemma AppliedIs(c: Client, r: SyncPayload, clock: nat, d: Client, t: Schema)
    requires clock == Max(c.clock, r.lamport) + 1 && d == Advance(Absorbed(c, CellsOf(r.changes), RowSet(r.changes), t), clock, r)
    ensures AppliedAs(c, r, d)
  {
    forall row ensures row in RowSet(r.changes) <==> Answered(r, row) {
      RowSetMembers(r.changes, row);
    }
  }

  lemma AgreesIs(c: Client, r: SyncPayload)
    requires DistinctRows(r.changes)
    ensures NoConflicts(c, CellsOf(r.changes)) <==> Agrees(c, r)
  {
    var m := CellsOf(r.changes);
    if NoConflicts(c, m) {
      forall k, x | Sends(r, k, x) && k in c.log && c.log[k].cell.version == x.version ensures c.log[k].cell.value == x.value {
        SendsIs(r, k, x);
        assert !Conflicts(c.log, k, m[k]);
      }
    }
    if Agrees(c, r) {
      forall k | k in m ensures !Conflicts(c.log, k, m[k]) {
        SendsIs(r, k, m[k]);
      }
    }
  }

  /** A row new to the device shows the zero of its type in every column the response does not carry. */
  lemma NewRowsBlank(c: Client, r: SyncPayload, t: Schema, i: nat, column: string)
    requires ApplyRemote(c, r, t).Ok? && i < |r.changes| && Key(r.changes[i].row, column) !in c.app
    requires column in t.types && column !in r.changes[i].columns
    ensures var d := ApplyRemote(c, r, t).value; var k := Key(r.changes[i].row, column);
      k in d.app && Blank(d.app[k], t.types[column])
  {
    ApplyRemoteShape(c, r, t);
    RowSetMembers(r.changes, r.changes[i].row);
    NotCarried(r, i, column);
    BlankAbsorbed(c, CellsOf(r.changes), RowSet(r.changes), t, Key(r.changes[i].row, column));
  }

  lemma NotCarried(r: SyncPayload, i: nat, column: string)
    requires DistinctRows(r.changes) && i < |r.changes| && column !in r.changes[i].columns
    ensures Key(r.changes[i].row, column) !in CellsOf(r.changes)
  {
    if Key(r.changes[i].row, column) in CellsOf(r.changes) {
      var j := CellsOfOrigin(r.changes, Key(r.changes[i].row, column));
    }
  }

  lemma BlankAbsorbed(c: Client, m: map<Key, Cell>, ids: set<string>, t: Schema, k: Key)
    requires k !in m && k !in c.app && k.row in ids && k.column in t.types
    ensures var d := Absorbed(c, m, ids, t); k in d.app && Blank(d.app[k], t.types[k.column])
  {
    assert k in Grid(ids, t.types.Keys);
  }

  // --- Requests and resets ---------------------------------------------

  /** The delta carries exactly the dirty cells, rows in order, under the device's clock, cursor, token and epoch. */
  lemma DeltaExactly(c: Client, t: Schema)
    ensures LocalDelta(c, t).Ok? <==> ValidRequest(DeltaOf(c, t), c.device, t)
    ensures LocalDelta(c, t).Ok? ==>
      var p := LocalDelta(c, t).value;
      && p == DeltaOf(c, t) && p.protocol == 4 && p.fingerprint == t.fingerprint
      && p.source == c.device && p.lamport == c.clock && p.cursor == c.cursor && p.token == c.token && p.epoch == c.epoch
      && (forall k, x :: Sends(p, k, x) <==> k in c.log && c.log[k].dirty && c.log[k].cell == x)
      && (forall i, j :: 0 <= i < j < |p.changes| ==> Precedes(p.changes[i].row, p.changes[j].row))
  {
    var p, m := DeltaOf(c, t), DirtyCells(c);
    GroupRowsRoundTrip(m);
    forall k, x ensures Sends(p, k, x) <==> k in c.log && c.log[k].dirty && c.log[k].cell == x {
      SendsIs(p, k, x);
    }
    GroupedShape(m);
    forall i, j | 0 <= i < j < |p.changes| ensures Precedes(p.changes[i].row, p.changes[j].row) {
      assert ChangedRows(p.changes)[i] == p.changes[i].row && ChangedRows(p.changes)[j] == p.changes[j].row;
      BeforeParts(p.changes[i].row, p.changes[j].row);
    }
  }

  /** A reset puts the cursor at zero without token and epoch, and nothing else. */
  lemma ResetExactly(c: Client)
    ensures var d := ResetCursor(c);
      d.cursor == 0 && d.token.None? && d.epoch.None? && d.(cursor := c.cursor, token := c.token, epoch := c.epoch) == c
  {
  }

  // --- The catch-up loop -----------------------------------------------

  /** The device after `n` pages that each announced more. */
  ghost function AfterPages(c: Client, n: nat, pager: Pager): Option<Client> {
    if n == 0 then Some(c)
    else
      match AfterPages(c, n - 1, pager)
      case None => None
      case Some(d) => if pager(d, n - 1).Continue? then Some(pager(d, n - 1).client) else None
  }

  lemma {:induction false} LoopAt(c: Client, n: nat, pager: Pager)
    requires n <= 100 && AfterPages(c, n, pager).Some?
    ensures CatchUp(c, 0, pager) == CatchUp(AfterPages(c, n, pager).value, n, pager)
  {
    if n > 0 { LoopAt(c, n - 1, pager); }
  }

  /** The loop stops at the first page that does not announce more; when none of 100 pages is that one, it fails. */
  lemma LoopExactly(c: Client, pager: Pager)
    ensures forall n, d :: 0 <= n < 100 && AfterPages(c, n, pager) == Some(d) && pager(d, n).Stop? ==>
      CatchUp(c, 0, pager) == pager(d, n).end
    ensures forall d :: AfterPages(c, 100, pager) == Some(d) ==> CatchUp(c, 0, pager) == CaughtUp(d, Err)
  {
    forall n, d | 0 <= n < 100 && AfterPages(c, n, pager) == Some(d) && pager(d, n).Stop?
      ensures CatchUp(c, 0, pager) == pager(d, n).end
    {
      LoopAt(c, n, pager);
    }
    if AfterPages(c, 100, pager).Some? { LoopAt(c, 100, pager); }
  }

  /** A page fails without a delta, without an answer, or when the answer cannot be completed over what was written meanwhile;
      otherwise it leaves the completed device, and the loop goes on exactly when the answer announces more. */
  lemma PageExactly(c: Client, page: nat, transport: Transport, meanwhile: Meanwhile, t: Schema)
    ensures var outcome := Paging(transport, meanwhile, t)(c, page);
      && (LocalDelta(c, t).Err? ==> outcome == Stop(CaughtUp(c, Err)))
      && (LocalDelta(c, t).Ok? ==>
            var d := Written(c, meanwhile(page), t);
            && (transport(page).Err? ==> outcome == Stop(CaughtUp(d, Err)))
            && (transport(page).Ok? ==>
                  var (p, r) := (LocalDelta(c, t).value, transport(page).value);
                  && (CompleteSync(d, p, r, t).Err? ==> outcome == Stop(CaughtUp(d, Err)))
                  && (CompleteSync(d, p, r, t).Ok? && r.hasMore ==> outcome == Continue(CompleteSync(d, p, r, t).value))
                  && (CompleteSync(d, p, r, t).Ok? && !r.hasMore ==> outcome == Stop(CaughtUp(CompleteSync(d, p, r, t).value, Ok(r))))))
  {
  }
}
