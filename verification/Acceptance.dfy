/** What the protocol's checks accept, in plain terms: bytes, characters, literal limits. */
module Acceptance {
  import opened Names
  import opened Cells
  import opened Payload
  import opened Replica
  import opened Lww

  // --- Texts -----------------------------------------------------------

  ghost function From(s: string, code: int): set<nat> {
    set i | 0 <= i < |s| && code <= (s[i] as int)
  }

  /** The length of a text in UTF-8: one byte a character, and one more from each of three code points on. */
  ghost function ByteCount(s: string): nat {
    |s| + |From(s, 0x80)| + |From(s, 0x800)| + |From(s, 0x1_0000)|
  }

  lemma FromTail(s: string, code: int)
    requires s != []
    ensures |From(s, code)| == |From(s[1..], code)| + (if code <= (s[0] as int) then 1 else 0)
  {
    var tail := From(s[1..], code);
    var moved := set i | i in tail :: i + 1;
    Shifted(tail, moved);
    forall i ensures i in From(s, code) <==> i in moved || (i == 0 && code <= (s[0] as int)) {
      if i in From(s, code) && i > 0 { assert i - 1 in tail; }
    }
    assert From(s, code) == moved + (if code <= (s[0] as int) then {0} else {});
  }

  lemma {:induction false} Shifted(a: set<nat>, b: set<nat>)
    requires b == set i | i in a :: i + 1
    ensures |b| == |a|
    decreases a
  {
    if a != {} {
      var x :| x in a;
      var rest := set i | i in a - {x} :: i + 1;
      Shifted(a - {x}, rest);
      assert x + 1 in b && x + 1 !in rest;
      forall y ensures y in b <==> y in rest || y == x + 1 {
        if y in b && y != x + 1 { assert y - 1 in a - {x}; }
      }
      assert b == rest + {x + 1};
    }
  }

  lemma {:induction false} Utf8Exactly(s: string)
    ensures Utf8Length(s) == ByteCount(s)
  {
    if s == [] {
      assert From(s, 0x80) == {} && From(s, 0x800) == {} && From(s, 0x1_0000) == {};
    } else {
      Utf8Exactly(s[1..]);
      FromTail(s, 0x80);
      FromTail(s, 0x800);
      FromTail(s, 0x1_0000);
    }
  }

  /** Between 1 and `limit` bytes, none of the characters U+0000 to U+001F and U+007F to U+009F. */
  ghost predicate Printable(s: string, limit: nat) {
    && 1 <= |s| && ByteCount(s) <= limit
    && forall i :: 0 <= i < |s| ==> (32 <= (s[i] as int) <= 126 || 160 <= (s[i] as int))
  }

  lemma PrintableIs(s: string)
    ensures ValidIdentifier(s) <==> Printable(s, 255)
    ensures ValidReason(s) <==> Printable(s, 2_048)
  {
    Utf8Exactly(s);
  }

  /** The identifiers accepted anywhere in the protocol, and the reasons a policy may give. */
  lemma IdentifiersExactly(s: string)
    ensures ValidIdentifier(s) <==> Printable(s, 255)
    ensures OptionalIdentifier(Some(s)) <==> Printable(s, 255)
    ensures ValidReason(s) <==> Printable(s, 2_048)
  {
    PrintableIs(s);
  }

  // --- Cells -----------------------------------------------------------

  /** The value belongs into a column of this type. */
  ghost predicate Belongs(v: Value, ty: ColumnType) {
    || (v.Text? && ty.TextColumn? && ByteCount(v.s) <= 1_048_576)
    || (v.Integer? && ty.IntegerColumn?)
    || (v.Real? && ty.RealColumn?)
    || (v.Boolean? && ty.BooleanColumn?)
  }

  lemma ValuesExactly(t: Schema, column: string, v: Value)
    ensures ValidColumn(t, column, v) <==> column in t.types && Belongs(v, t.types[column])
  {
    if v.Text? { Utf8Exactly(v.s); }
  }

  /** A cell the contract admits: a value of its column's type, a named author, a clock of 63 bits. */
  ghost predicate Admissible(t: Schema, column: string, c: Cell) {
    && column in t.types && Belongs(c.value, t.types[column])
    && Printable(c.version.device, 255) && c.version.clock < 0x8000_0000_0000_0000
  }

  lemma AdmissibleIs(t: Schema, row: string, column: string, c: Cell)
    ensures ValidCell(t, Key(row, column), c) <==> Admissible(t, column, c)
  {
    ValuesExactly(t, column, c.value);
    PrintableIs(c.version.device);
  }

  // --- Payloads --------------------------------------------------------

  /** The number of cells in all rows. */
  function CellCount(changes: seq<RowChange>): nat {
    if changes == [] then 0 else |changes[0].columns| + CellCount(changes[1..])
  }

  lemma {:induction false} CountAppend(changes: seq<RowChange>, r: RowChange)
    ensures CellCount(changes + [r]) == CellCount(changes) + |r.columns|
  {
    if changes != [] {
      assert (changes + [r])[1..] == changes[1..] + [r];
      CountAppend(changes[1..], r);
    }
  }

  lemma {:induction false} CountIs(changes: seq<RowChange>)
    ensures |Writes(changes)| == CellCount(changes)
  {
    if changes != [] {
      var n := |changes| - 1;
      CountIs(changes[..n]);
      CountAppend(changes[..n], changes[n]);
      assert changes == changes[..n] + [changes[n]];
      LastWrites(changes);
    }
  }

  lemma LastWrites(changes: seq<RowChange>)
    requires changes != []
    ensures |Writes(changes)| == |Writes(changes[..|changes| - 1])| + |changes[|changes| - 1].columns|
  {
  }

  ghost predicate RowsAdmissible(t: Schema, changes: seq<RowChange>) {
    && (forall i, j :: 0 <= i < j < |changes| ==> changes[i].row != changes[j].row)
    && (forall i :: 0 <= i < |changes| ==> Printable(changes[i].row, 255) && |changes[i].columns| >= 1)
    && (forall i, c :: 0 <= i < |changes| && c in changes[i].columns ==> Admissible(t, c, changes[i].columns[c]))
  }

  lemma RowsAdmissibleIs(t: Schema, changes: seq<RowChange>)
    ensures DistinctRows(changes) && ValidRows(t, changes) <==> RowsAdmissible(t, changes)
  {
    forall i | 0 <= i < |changes|
      ensures ValidRow(t, changes[i]) <==>
        && Printable(changes[i].row, 255) && |changes[i].columns| >= 1
        && forall c :: c in changes[i].columns ==> Admissible(t, c, changes[i].columns[c])
    {
      PrintableIs(changes[i].row);
      forall c | c in changes[i].columns
        ensures ValidCell(t, Key(changes[i].row, c), changes[i].columns[c]) <==> Admissible(t, c, changes[i].columns[c])
      {
        AdmissibleIs(t, changes[i].row, c, changes[i].columns[c]);
      }
    }
  }

  ghost predicate NamedOrNone(o: Option<string>) {
    o.Some? ==> Printable(o.value, 255)
  }

  /** Protocol 3 or 4 under this contract, 63-bit clocks and cursors, at most 10,000 rows and 20,000 cells. */
  ghost predicate WellHeaded(p: SyncPayload, t: Schema) {
    && (p.protocol == 3 || p.protocol == 4) && p.fingerprint == t.fingerprint
    && Printable(p.source, 255) && p.lamport < 0x8000_0000_0000_0000 && p.cursor >= 0
    && NamedOrNone(p.token) && NamedOrNone(p.epoch)
    && |p.changes| <= 10_000 && |p.rejections| <= 20_000
  }

  lemma WellHeadedIs(p: SyncPayload, t: Schema)
    ensures ValidHeader(p, t) <==> WellHeaded(p, t)
  {
    PrintableIs(p.source);
    if p.token.Some? { PrintableIs(p.token.value); }
    if p.epoch.Some? { PrintableIs(p.epoch.value); }
  }

  ghost predicate RecordsAdmissible(t: Schema, rs: seq<Rejection>) {
    forall r :: r in rs ==> Printable(r.key.row, 255) && Admissible(t, r.key.column, r.cell) && Printable(r.reason, 2_048)
  }

  lemma RecordsAdmissibleIs(t: Schema, rs: seq<Rejection>)
    ensures (forall r :: r in rs ==> ValidRejection(t, r)) <==> RecordsAdmissible(t, rs)
  {
    forall r | r in rs
      ensures ValidRejection(t, r) <==> Printable(r.key.row, 255) && Admissible(t, r.key.column, r.cell) && Printable(r.reason, 2_048)
    {
      PrintableIs(r.key.row);
      PrintableIs(r.reason);
      AdmissibleIs(t, r.key.row, r.key.column, r.cell);
    }
  }

  /** A payload with at most 20,000 cells, all rows and records admissible. */
  ghost predicate Acceptable(p: SyncPayload, t: Schema) {
    WellHeaded(p, t) && RowsAdmissible(t, p.changes) && CellCount(p.changes) <= 20_000 && RecordsAdmissible(t, p.rejections)
  }

  lemma AcceptableIs(p: SyncPayload, t: Schema)
    ensures ValidPayload(p, t) <==> Acceptable(p, t)
  {
    WellHeadedIs(p, t);
    RowsAdmissibleIs(t, p.changes);
    CountIs(p.changes);
    RecordsAdmissibleIs(t, p.rejections);
  }

  /** Every cell in the payload satisfies the condition that only its author and clock decide. */
  ghost predicate CellsAre(p: SyncPayload, good: Version -> bool) {
    forall i, c :: 0 <= i < |p.changes| && c in p.changes[i].columns ==> good(p.changes[i].columns[c].version)
  }

  lemma CellsAreIs(p: SyncPayload, good: Version -> bool)
    requires DistinctRows(p.changes)
    ensures CellsAre(p, good) <==> forall k :: k in CellsOf(p.changes) ==> good(CellsOf(p.changes)[k].version)
  {
    if CellsAre(p, good) {
      forall k | k in CellsOf(p.changes) ensures good(CellsOf(p.changes)[k].version) {
        var i := CellsOfOrigin(p.changes, k);
      }
    }
    if forall k :: k in CellsOf(p.changes) ==> good(CellsOf(p.changes)[k].version) {
      forall i, c | 0 <= i < |p.changes| && c in p.changes[i].columns ensures good(p.changes[i].columns[c].version) {
        CellsOfEntry(p.changes, i, Write(Key(p.changes[i].row, c), p.changes[i].columns[c]));
      }
    }
  }

  function UpTo(clock: nat): Version -> bool {
    (v: Version) => v.clock <= clock
  }

  function OwnUpTo(device: string, clock: nat): Version -> bool {
    (v: Version) => v.device == device && v.clock <= clock
  }

  /** The server accepts exactly acceptable payloads that the authenticated device sends in its own name, without
      response flags or records, with cells it wrote itself and none newer than its clock. */
  lemma RequestsExactly(p: SyncPayload, device: string, t: Schema)
    ensures ValidRequest(p, device, t) <==>
      && Acceptable(p, t) && Printable(device, 255) && device != "loomabase-server" && p.source == device
      && p.hasMore == false && p.cursorReset == false && |p.rejections| == 0
      && CellsAre(p, OwnUpTo(device, p.lamport))
  {
    AcceptableIs(p, t);
    PrintableIs(device);
    if DistinctRows(p.changes) { CellsAreIs(p, OwnUpTo(device, p.lamport)); }
  }

  ghost predicate RecordsUpTo(rs: seq<Rejection>, clock: nat) {
    forall r :: r in rs ==> r.cell.version.clock <= clock
  }

  /** A client accepts exactly acceptable payloads from the server whose cells and records are none newer than its clock. */
  lemma ResponsesExactly(p: SyncPayload, t: Schema)
    ensures ValidResponse(p, t) <==>
      && Acceptable(p, t) && p.source == "loomabase-server"
      && CellsAre(p, UpTo(p.lamport))
      && RecordsUpTo(p.rejections, p.lamport)
  {
    AcceptableIs(p, t);
    if DistinctRows(p.changes) { CellsAreIs(p, UpTo(p.lamport)); }
  }

  // --- Scopes ----------------------------------------------------------

  /** At most 100,000 identifiers, each smaller than every later one. */
  ghost predicate Listed(ids: seq<string>) {
    && |ids| <= 100_000
    && (forall i :: 0 <= i < |ids| ==> Printable(ids[i], 255))
    && forall i, j :: 0 <= i < j < |ids| ==> Precedes(ids[i], ids[j])
  }

  lemma ListedIs(ids: seq<string>)
    ensures ValidMemberIds(ids) <==> Listed(ids)
  {
    forall i | 0 <= i < |ids| ensures ValidIdentifier(ids[i]) <==> Printable(ids[i], 255) {
      PrintableIs(ids[i]);
    }
    forall i, j | 0 <= i < j < |ids| ensures Before(ids[i], ids[j]) <==> Precedes(ids[i], ids[j]) {
      BeforeParts(ids[i], ids[j]);
    }
  }

  /** One to 10,000 rows, at most 32 predicates, non-empty identifiers and prefixes of at most 255 bytes, column values that belong. */
  ghost predicate Interesting(i: Interest, t: Schema) {
    && 1 <= i.limit <= 10_000 && |i.predicates| <= 32
    && forall j :: 0 <= j < |i.predicates| ==>
         var p := i.predicates[j];
         && (p.IdEquals? ==> 1 <= |p.id| && ByteCount(p.id) <= 255)
         && (p.IdPrefix? ==> 1 <= |p.prefix| && ByteCount(p.prefix) <= 255)
         && (p.ColumnEquals? ==> p.column in t.types && Belongs(p.value, t.types[p.column]))
  }

  lemma InterestingIs(i: Interest, t: Schema)
    ensures ValidInterest(i, t) <==> Interesting(i, t)
  {
    forall j | 0 <= j < |i.predicates|
      ensures var p := i.predicates[j]; ValidPredicate(p, t) <==>
         && (p.IdEquals? ==> 1 <= |p.id| && ByteCount(p.id) <= 255)
         && (p.IdPrefix? ==> 1 <= |p.prefix| && ByteCount(p.prefix) <= 255)
         && (p.ColumnEquals? ==> p.column in t.types && Belongs(p.value, t.types[p.column]))
    {
      match i.predicates[j]
      case IdEquals(s) => Utf8Exactly(s);
      case IdPrefix(s) => Utf8Exactly(s);
      case ColumnEquals(column, value) => ValuesExactly(t, column, value);
    }
  }

  /** A scoped request is accepted exactly with a named scope, a positive 63-bit revision, an acceptable
      interest, sorted known members and an acceptable delta. */
  lemma ScopedRequestsExactly(q: PartialRequest, device: string, t: Schema)
    ensures ValidPartialRequest(q, device, t) <==>
      && Printable(q.scope, 255) && 1 <= q.version < 0x8000_0000_0000_0000
      && Interesting(q.interest, t) && Listed(q.known) && ValidRequest(q.sync, device, t)
  {
    PrintableIs(q.scope);
    InterestingIs(q.interest, t);
    ListedIs(q.known);
  }

  ghost predicate Apart(a: seq<string>, b: seq<string>) {
    forall i, j :: 0 <= i < |a| && 0 <= j < |b| ==> a[i] != b[j]
  }

  lemma ApartIs(a: seq<string>, b: seq<string>)
    ensures (forall x :: x in a ==> x !in b) <==> Apart(a, b)
  {
    if forall x :: x in a ==> x !in b {
      forall i, j | 0 <= i < |a| && 0 <= j < |b| ensures a[i] != b[j] {
        assert a[i] in a && b[j] in b;
      }
    }
  }

  ghost predicate RowsNamed(changes: seq<RowChange>, ids: seq<string>) {
    |changes| == |ids| && forall i :: 0 <= i < |ids| ==> changes[i].row == ids[i]
  }

  /** A snapshot is accepted exactly when its two lists are sorted and disjoint and its rows are the members in order. */
  lemma SnapshotsExactly(r: PartialResponse, t: Schema)
    ensures ValidPartialResponse(r, t) <==>
      && Printable(r.scope, 255) && 1 <= r.version < 0x8000_0000_0000_0000
      && ValidResponse(r.sync, t) && Listed(r.members) && Listed(r.evicted)
      && Apart(r.members, r.evicted)
      && RowsNamed(r.sync.changes, r.members)
  {
    PrintableIs(r.scope);
    ListedIs(r.members);
    ListedIs(r.evicted);
    ApartIs(r.members, r.evicted);
    RowsAre(r.sync.changes, r.members);
  }

  lemma RowsAre(changes: seq<RowChange>, ids: seq<string>)
    ensures ChangedRows(changes) == ids <==> RowsNamed(changes, ids)
  {
    if RowsNamed(changes, ids) {
      assert ChangedRows(changes) == ids;
    }
    if ChangedRows(changes) == ids {
      forall i | 0 <= i < |ids| ensures changes[i].row == ids[i] {
        assert ChangedRows(changes)[i] == changes[i].row;
      }
    }
  }
}
