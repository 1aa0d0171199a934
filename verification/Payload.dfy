/** The wire format: row changes, payloads, and the protocol checks on them. */
module Payload {
  import opened Names
  import opened Cells

  const MIN_PROTOCOL: nat := 3
  const PROTOCOL: nat := 4
  const MAX_PAYLOAD_ROWS: nat := 10_000
  const MAX_PAYLOAD_CELLS: nat := 20_000
  const MAX_REASON_BYTES: nat := 2_048

  datatype RowChange = RowChange(row: string, columns: map<string, Cell>)

  datatype RejectionKind = AuthorizationDenied | ValidationFailed

  datatype Rejection = Rejection(key: Key, kind: RejectionKind, reason: string, cell: Cell)

  datatype SyncPayload = SyncPayload(
    protocol: nat,
    fingerprint: nat,
    source: string,
    lamport: nat,
    changes: seq<RowChange>,
    cursor: int,
    hasMore: bool,
    cursorReset: bool,
    token: Option<string>,
    epoch: Option<string>,
    rejections: seq<Rejection>)

  // --- Flattening ------------------------------------------------------

  /** The cells of one row in iteration order. */
  ghost function RowWrites(r: RowChange): (ws: seq<Write>)
    ensures |ws| == |r.columns|
    ensures forall i :: 0 <= i < |ws| ==> Carries(r, ws[i])
  {
    var names := SortedSeq(r.columns.Keys);
    seq(|names|, i requires 0 <= i < |names| => Write(Key(r.row, names[i]), r.columns[names[i]]))
  }

  predicate Carries(r: RowChange, w: Write) {
    r.row == w.key.row && w.key.column in r.columns && r.columns[w.key.column] == w.cell
  }

  lemma RowWritesDistinct(r: RowChange)
    ensures DistinctKeys(RowWrites(r))
  {
    var names := SortedSeq(r.columns.Keys);
    forall i, j | 0 <= i < j < |names| ensures names[i] != names[j] {
      BeforeTotal(names[i], names[j]);
    }
  }

  lemma RowWritePresent(r: RowChange, w: Write)
    requires Carries(r, w)
    ensures w in RowWrites(r)
  {
    var names := SortedSeq(r.columns.Keys);
    assert w.key.column in names;
    var i :| 0 <= i < |names| && names[i] == w.key.column;
    assert RowWrites(r)[i] == w;
  }

  /** Every cell of a payload, row by row, in the order the merge visits them. */
  ghost function Writes(changes: seq<RowChange>): seq<Write> {
    if changes == [] then []
    else Writes(changes[..|changes| - 1]) + RowWrites(changes[|changes| - 1])
  }

  ghost predicate DistinctKeys(ws: seq<Write>) {
    forall i, j :: 0 <= i < j < |ws| ==> ws[i].key != ws[j].key
  }

  ghost predicate DistinctRows(changes: seq<RowChange>) {
    forall i, j :: 0 <= i < j < |changes| ==> changes[i].row != changes[j].row
  }

  ghost function AsMap(ws: seq<Write>): map<Key, Cell> {
    if ws == [] then map[]
    else AsMap(ws[..|ws| - 1])[ws[|ws| - 1].key := ws[|ws| - 1].cell]
  }

  /** The payload as a map from keys to cells. */
  ghost function CellsOf(changes: seq<RowChange>): map<Key, Cell> {
    AsMap(Writes(changes))
  }

  lemma {:induction false} AsMapMembers(ws: seq<Write>)
    requires DistinctKeys(ws)
    ensures forall w :: w in ws ==> w.key in AsMap(ws) && AsMap(ws)[w.key] == w.cell
    ensures forall k :: k in AsMap(ws) ==> Write(k, AsMap(ws)[k]) in ws
    ensures |AsMap(ws)| == |ws|
  {
    if ws != [] {
      var n := |ws| - 1;
      AsMapMembers(ws[..n]);
      assert ws == ws[..n] + [ws[n]];
      assert ws[n].key !in AsMap(ws[..n]);
    }
  }

  lemma {:induction false} WriteOrigin(changes: seq<RowChange>, w: Write) returns (i: nat)
    requires w in Writes(changes)
    ensures i < |changes| && Carries(changes[i], w)
  {
    var n := |changes| - 1;
    if w in RowWrites(changes[n]) {
      i := n;
    } else {
      i := WriteOrigin(changes[..n], w);
    }
  }

  lemma {:induction false} WritePresent(changes: seq<RowChange>, i: nat, w: Write)
    requires i < |changes| && Carries(changes[i], w)
    ensures w in Writes(changes)
  {
    var n := |changes| - 1;
    var a, b := Writes(changes[..n]), RowWrites(changes[n]);
    assert Writes(changes) == a + b;
    if i < n {
      assert changes[..n][i] == changes[i];
      WritePresent(changes[..n], i, w);
      assert w in a;
    } else {
      RowWritePresent(changes[n], w);
      assert w in b;
    }
  }

  lemma {:induction false} WritesDistinct(changes: seq<RowChange>)
    requires DistinctRows(changes)
    ensures DistinctKeys(Writes(changes))
  {
    if changes != [] {
      var n := |changes| - 1;
      WritesDistinct(changes[..n]);
      RowWritesDistinct(changes[n]);
      var a, b := Writes(changes[..n]), RowWrites(changes[n]);
      forall i, j | 0 <= i < |a| && 0 <= j < |b| ensures a[i].key != b[j].key {
        var m := WriteOrigin(changes[..n], a[i]);
      }
    }
  }

  /** A cell carried by a row of a payload with distinct rows is the one its key maps to. */
  lemma CellsOfEntry(changes: seq<RowChange>, i: nat, w: Write)
    requires DistinctRows(changes) && i < |changes| && Carries(changes[i], w)
    ensures w.key in CellsOf(changes) && CellsOf(changes)[w.key] == w.cell
  {
    WritesDistinct(changes);
    AsMapMembers(Writes(changes));
    WritePresent(changes, i, w);
  }

  lemma CellsOfOrigin(changes: seq<RowChange>, k: Key) returns (i: nat)
    requires DistinctRows(changes) && k in CellsOf(changes)
    ensures i < |changes| && Carries(changes[i], Write(k, CellsOf(changes)[k]))
  {
    WritesDistinct(changes);
    AsMapMembers(Writes(changes));
    i := WriteOrigin(changes, Write(k, CellsOf(changes)[k]));
  }

  // --- Grouping --------------------------------------------------------

  function RowIds(m: map<Key, Cell>): set<string> {
    set k | k in m :: k.row
  }

  function RowOf(m: map<Key, Cell>, id: string): RowChange {
    RowChange(id, map k | k in m && k.row == id :: k.column := m[k])
  }

  /** Cells grouped into rows by an ordered map: rows sorted by identifier. */
  ghost function GroupRows(m: map<Key, Cell>): (changes: seq<RowChange>)
    ensures |changes| == |RowIds(m)|
  {
    var ids := SortedSeq(RowIds(m));
    seq(|ids|, i requires 0 <= i < |ids| => RowOf(m, ids[i]))
  }

  ghost function ChangedRows(changes: seq<RowChange>): seq<string> {
    seq(|changes|, i requires 0 <= i < |changes| => changes[i].row)
  }

  lemma GroupedRow(m: map<Key, Cell>, k: Key) returns (i: nat)
    requires k in m
    ensures i < |GroupRows(m)| && Carries(GroupRows(m)[i], Write(k, m[k]))
  {
    var ids := SortedSeq(RowIds(m));
    assert k.row in ids;
    i :| 0 <= i < |ids| && ids[i] == k.row;
  }

  /** One group: its row is the sorted identifier, and it has at least one column. */
  lemma GroupShape(m: map<Key, Cell>, i: nat)
    requires i < |GroupRows(m)|
    ensures |SortedSeq(RowIds(m))| == |GroupRows(m)|
    ensures GroupRows(m)[i].row == SortedSeq(RowIds(m))[i] && GroupRows(m)[i].columns != map[]
  {
    var ids := SortedSeq(RowIds(m));
    assert ids[i] in RowIds(m);
    var k :| k in m && k.row == ids[i];
    assert k.column in GroupRows(m)[i].columns;
  }

  lemma GroupedShape(m: map<Key, Cell>)
    ensures DistinctRows(GroupRows(m))
    ensures forall i :: 0 <= i < |GroupRows(m)| ==> GroupRows(m)[i].columns != map[]
    ensures ChangedRows(GroupRows(m)) == SortedSeq(RowIds(m))
  {
    var ids := SortedSeq(RowIds(m));
    var changes := GroupRows(m);
    forall i | 0 <= i < |changes| ensures changes[i].columns != map[] && changes[i].row == ids[i] {
      GroupShape(m, i);
    }
    forall i, j | 0 <= i < j < |changes| ensures changes[i].row != changes[j].row {
      BeforeTotal(ids[i], ids[j]);
    }
  }

  lemma GroupRowsRoundTrip(m: map<Key, Cell>)
    ensures DistinctRows(GroupRows(m))
    ensures CellsOf(GroupRows(m)) == m
    ensures |Writes(GroupRows(m))| == |m|
  {
    var changes := GroupRows(m);
    GroupedShape(m);
    forall k | k in m ensures k in CellsOf(changes) && CellsOf(changes)[k] == m[k] {
      var i := GroupedRow(m, k);
      CellsOfEntry(changes, i, Write(k, m[k]));
    }
    forall k | k in CellsOf(changes) ensures k in m {
      var i := CellsOfOrigin(changes, k);
    }
    assert CellsOf(changes) == m;
    WritesDistinct(changes);
    AsMapMembers(Writes(changes));
  }

  // --- Validation ------------------------------------------------------

  predicate ValidReason(reason: string) {
    reason != [] && Utf8Length(reason) <= MAX_REASON_BYTES && forall i :: 0 <= i < |reason| ==> !IsControl(reason[i])
  }

  predicate ValidRejection(t: Schema, r: Rejection) {
    ValidIdentifier(r.key.row) && ValidCell(t, r.key, r.cell) && ValidReason(r.reason)
  }

  predicate OptionalIdentifier(o: Option<string>) {
    o.None? || ValidIdentifier(o.value)
  }

  predicate ValidHeader(p: SyncPayload, t: Schema) {
    && MIN_PROTOCOL <= p.protocol <= PROTOCOL
    && p.fingerprint == t.fingerprint
    && ValidIdentifier(p.source)
    && p.lamport <= I64_MAX
    && 0 <= p.cursor
    && OptionalIdentifier(p.token) && OptionalIdentifier(p.epoch)
    && |p.changes| <= MAX_PAYLOAD_ROWS
    && |p.rejections| <= MAX_PAYLOAD_CELLS
  }

  predicate ValidRow(t: Schema, r: RowChange) {
    && ValidIdentifier(r.row) && r.columns != map[]
    && forall c :: c in r.columns ==> ValidCell(t, Key(r.row, c), r.columns[c])
  }

  /** What `SyncPayload::validate` accepts. */
  ghost predicate ValidPayload(p: SyncPayload, t: Schema) {
    && ValidHeader(p, t)
    && DistinctRows(p.changes)
    && ValidRows(t, p.changes)
    && |Writes(p.changes)| <= MAX_PAYLOAD_CELLS
    && (forall r :: r in p.rejections ==> ValidRejection(t, r))
  }

  ghost predicate AuthoredBy(m: map<Key, Cell>, device: string) {
    forall k :: k in m ==> m[k].version.device == device
  }

  /** What the server accepts from an authenticated device. */
  ghost predicate ValidRequest(p: SyncPayload, device: string, t: Schema) {
    && ValidPayload(p, t)
    && ValidIdentifier(device) && device != SERVER_DEVICE && p.source == device
    && !p.hasMore && !p.cursorReset && p.rejections == []
    && AuthoredBy(CellsOf(p.changes), device)
    && ClocksWithin(CellsOf(p.changes), p.lamport)
  }

  /** What a client accepts as a server response. */
  ghost predicate ValidResponse(p: SyncPayload, t: Schema) {
    && ValidPayload(p, t)
    && p.source == SERVER_DEVICE
    && ClocksWithin(CellsOf(p.changes), p.lamport)
    && forall r :: r in p.rejections ==> r.cell.version.clock <= p.lamport
  }

  ghost predicate ValidCells(t: Schema, m: map<Key, Cell>) {
    forall k :: k in m ==> ValidIdentifier(k.row) && ValidCell(t, k, m[k])
  }

  ghost predicate ValidRows(t: Schema, changes: seq<RowChange>) {
    forall i :: 0 <= i < |changes| ==> ValidRow(t, changes[i])
  }

  lemma ValidRowsCells(t: Schema, changes: seq<RowChange>)
    requires DistinctRows(changes) && ValidRows(t, changes)
    ensures ValidCells(t, CellsOf(changes))
  {
    var m := CellsOf(changes);
    forall k | k in m ensures ValidIdentifier(k.row) && ValidCell(t, k, m[k]) {
      var i := CellsOfOrigin(changes, k);
      assert ValidRow(t, changes[i]);
    }
  }

  lemma ValidCellsRow(t: Schema, changes: seq<RowChange>, i: nat)
    requires DistinctRows(changes) && ValidCells(t, CellsOf(changes))
    requires i < |changes| && changes[i].columns != map[]
    ensures ValidRow(t, changes[i])
  {
    var r := changes[i];
    forall c | c in r.columns ensures ValidIdentifier(r.row) && ValidCell(t, Key(r.row, c), r.columns[c]) {
      CellsOfEntry(changes, i, Write(Key(r.row, c), r.columns[c]));
    }
    var c :| c in r.columns;
  }

  /** Validity of a grouped payload is validity of its cells. */
  lemma GroupedValid(p: SyncPayload, t: Schema, m: map<Key, Cell>)
    requires p.changes == GroupRows(m)
    ensures ValidPayload(p, t) <==>
      && ValidHeader(p, t) && |m| <= MAX_PAYLOAD_CELLS
      && ValidCells(t, m)
      && (forall r :: r in p.rejections ==> ValidRejection(t, r))
  {
    GroupRowsRoundTrip(m);
    GroupedShape(m);
    if ValidRows(t, p.changes) { ValidRowsCells(t, p.changes); }
    if ValidCells(t, m) {
      forall i | 0 <= i < |p.changes| ensures ValidRow(t, p.changes[i]) {
        ValidCellsRow(t, p.changes, i);
      }
    }
  }

  /** A grouped request of valid, self-authored cells is valid exactly within the size limits. */
  lemma GroupedRequestValid(p: SyncPayload, device: string, t: Schema, m: map<Key, Cell>)
    requires p.changes == GroupRows(m)
    requires ValidCells(t, m) && AuthoredBy(m, device) && ClocksWithin(m, p.lamport)
    requires p.protocol == PROTOCOL && p.fingerprint == t.fingerprint && p.lamport <= I64_MAX && 0 <= p.cursor
    requires p.source == device && ValidIdentifier(device) && device != SERVER_DEVICE
    requires OptionalIdentifier(p.token) && OptionalIdentifier(p.epoch)
    requires !p.hasMore && !p.cursorReset && p.rejections == []
    ensures ValidRequest(p, device, t) <==> |RowIds(m)| <= MAX_PAYLOAD_ROWS && |m| <= MAX_PAYLOAD_CELLS
  {
    assert ValidHeader(p, t) <==> |RowIds(m)| <= MAX_PAYLOAD_ROWS;
    GroupRowsRoundTrip(m);
    GroupedValid(p, t, m);
  }

  function RowSet(changes: seq<RowChange>): set<string> {
    if changes == [] then {} else RowSet(changes[..|changes| - 1]) + {changes[|changes| - 1].row}
  }

  lemma {:induction false} RowSetMembers(changes: seq<RowChange>, x: string)
    ensures x in RowSet(changes) <==> exists i :: 0 <= i < |changes| && changes[i].row == x
  {
    if changes != [] {
      var n := |changes| - 1;
      RowSetMembers(changes[..n], x);
      if x in RowSet(changes[..n]) {
        var i :| 0 <= i < n && changes[..n][i].row == x;
        assert changes[i].row == x;
      }
      if i :| 0 <= i < |changes| && changes[i].row == x {
        if i < n { assert changes[..n][i].row == x; }
      }
    }
  }

  lemma DistinctRowsExtend(changes: seq<RowChange>, n: nat)
    requires n < |changes| && DistinctRows(changes[..n])
    ensures DistinctRows(changes[..n + 1]) <==> changes[n].row !in RowSet(changes[..n])
  {
    var pre, ext := changes[..n], changes[..n + 1];
    assert ext == pre + [changes[n]];
    RowSetMembers(pre, changes[n].row);
    if i :| 0 <= i < n && pre[i].row == changes[n].row {
      assert ext[i].row == ext[n].row;
    }
  }

  lemma ValidRowsExtend(t: Schema, changes: seq<RowChange>, n: nat)
    requires n < |changes| && ValidRows(t, changes[..n])
    ensures ValidRows(t, changes[..n + 1]) <==> ValidRow(t, changes[n])
  {
    var pre, ext := changes[..n], changes[..n + 1];
    assert ext == pre + [changes[n]];
    assert ext[n] == changes[n];
    forall i | 0 <= i < n ensures ValidRow(t, ext[i]) {
      assert ext[i] == pre[i];
    }
  }

  lemma PrefixDistinct(changes: seq<RowChange>, n: nat)
    requires n <= |changes| && DistinctRows(changes)
    ensures DistinctRows(changes[..n])
  {
  }

  /** Validation (src/crdt.rs:137-224): one pass with a set of seen rows
      and a running cell counter that stops at the limit. */
  method Validate(p: SyncPayload, t: Schema) returns (ok: bool)
    ensures ok <==> ValidPayload(p, t)
  {
    if !ValidHeader(p, t) { return false; }
    ok := ValidateRows(p.changes, t);
    if ok { ok := ValidateRejections(p.rejections, t); }
  }

  /** What the row loop checks of the rows it has seen. */
  ghost predicate RowsFit(changes: seq<RowChange>, t: Schema) {
    DistinctRows(changes) && ValidRows(t, changes) && |Writes(changes)| <= MAX_PAYLOAD_CELLS
  }

  lemma RowsFitPrefix(changes: seq<RowChange>, n: nat, t: Schema)
    requires n <= |changes| && RowsFit(changes, t)
    ensures RowsFit(changes[..n], t)
  {
    PrefixDistinct(changes, n);
    WritesGrow(changes, n);
  }

  lemma RowsFitStep(changes: seq<RowChange>, i: nat, t: Schema)
    requires i < |changes| && RowsFit(changes[..i], t)
    ensures RowsFit(changes[..i + 1], t) <==>
      && changes[i].row !in RowSet(changes[..i])
      && |Writes(changes[..i])| + |changes[i].columns| <= MAX_PAYLOAD_CELLS && ValidRow(t, changes[i])
    ensures |Writes(changes[..i + 1])| == |Writes(changes[..i])| + |changes[i].columns|
    ensures RowSet(changes[..i + 1]) == RowSet(changes[..i]) + {changes[i].row}
  {
    RowAdded(changes, i);
    DistinctRowsExtend(changes, i);
    ValidRowsExtend(t, changes, i);
  }

  lemma RowAdded(changes: seq<RowChange>, i: nat)
    requires i < |changes|
    ensures |Writes(changes[..i + 1])| == |Writes(changes[..i])| + |changes[i].columns|
    ensures RowSet(changes[..i + 1]) == RowSet(changes[..i]) + {changes[i].row}
  {
    assert changes[..i + 1][..i] == changes[..i];
  }

  method ValidateRows(changes: seq<RowChange>, t: Schema) returns (ok: bool)
    ensures ok <==> RowsFit(changes, t)
  {
    var rows: set<string> := {};
    var count := 0;
    for i := 0 to |changes|
      invariant rows == RowSet(changes[..i])
      invariant RowsFit(changes[..i], t)
      invariant count == |Writes(changes[..i])|
    {
      RowsFitStep(changes, i, t);
      if RowsFit(changes, t) { RowsFitPrefix(changes, i + 1, t); }
      if changes[i].row in rows { return false; }
      ok, count := ValidateRow(changes[i], t, count);
      if !ok { return false; }
      rows := rows + {changes[i].row};
    }
    assert changes[..|changes|] == changes;
    return true;
  }

  method ValidateRejections(rs: seq<Rejection>, t: Schema) returns (ok: bool)
    ensures ok <==> forall r :: r in rs ==> ValidRejection(t, r)
  {
    for i := 0 to |rs|
      invariant forall j :: 0 <= j < i ==> ValidRejection(t, rs[j])
    {
      if !ValidRejection(t, rs[i]) { return false; }
    }
    return true;
  }

  method ValidateRow(r: RowChange, t: Schema, count: nat) returns (ok: bool, count': nat)
    requires count <= MAX_PAYLOAD_CELLS
    ensures ok <==> count + |r.columns| <= MAX_PAYLOAD_CELLS && ValidRow(t, r)
    ensures ok ==> count' == count + |r.columns|
  {
    count' := count;
    if !ValidIdentifier(r.row) || r.columns == map[] { return false, count'; }
    var pending := r.columns.Keys;
    while pending != {}
      invariant pending <= r.columns.Keys
      invariant count' + |pending| == count + |r.columns|
      invariant count' <= MAX_PAYLOAD_CELLS
      invariant forall c :: c in r.columns && c !in pending ==> ValidCell(t, Key(r.row, c), r.columns[c])
      decreases pending
    {
      var c :| c in pending;
      count' := count' + 1;
      if count' > MAX_PAYLOAD_CELLS { return false, count'; }
      if !ValidCell(t, Key(r.row, c), r.columns[c]) { return false, count'; }
      pending := pending - {c};
    }
    return true, count';
  }

  lemma {:induction false} WritesGrow(changes: seq<RowChange>, n: nat)
    requires n <= |changes|
    ensures |Writes(changes[..n])| <= |Writes(changes)|
    decreases |changes| - n
  {
    if n < |changes| {
      WritesGrow(changes, n + 1);
      assert changes[..n + 1][..n] == changes[..n];
    } else {
      assert changes[..n] == changes;
    }
  }

  // --- Clocks ----------------------------------------------------------

  ghost function MaxClock(ws: seq<Write>, base: nat): nat {
    if ws == [] then base
    else
      var rest := MaxClock(ws[..|ws| - 1], base);
      var c := ws[|ws| - 1].cell.version.clock;
      if c > rest then c else rest
  }

  /** The largest clock a payload mentions. */
  ghost function MaxObserved(p: SyncPayload): nat {
    MaxClock(Writes(p.changes), p.lamport)
  }

  lemma {:induction false} MaxClockBound(ws: seq<Write>, base: nat)
    requires forall w :: w in ws ==> w.cell.version.clock <= base
    ensures MaxClock(ws, base) == base
  {
    if ws != [] {
      assert ws[|ws| - 1] in ws;
      MaxClockBound(ws[..|ws| - 1], base);
    }
  }

  ghost predicate ClocksWithin(m: map<Key, Cell>, bound: nat) {
    forall k :: k in m ==> m[k].version.clock <= bound
  }

  /** A payload whose cells do not exceed its source clock observes exactly that clock. */
  lemma MaxObservedIsSource(p: SyncPayload)
    requires DistinctRows(p.changes) && ClocksWithin(CellsOf(p.changes), p.lamport)
    ensures MaxObserved(p) == p.lamport
  {
    var ws := Writes(p.changes);
    WritesDistinct(p.changes);
    AsMapMembers(ws);
    forall w | w in ws ensures w.cell.version.clock <= p.lamport {
      assert AsMap(ws)[w.key] == w.cell;
    }
    MaxClockBound(ws, p.lamport);
  }
}
