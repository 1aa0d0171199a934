/** Which rows a scope selects, and what its snapshot carries, in plain terms. */
module Membership {
  import opened Names
  import opened Cells
  import opened Payload
  import opened Server
  import opened Replica
  import opened Pagination
  import opened Closure
  import opened Lww

  // --- Selection -------------------------------------------------------

  /** The identifier is this one, or begins with this prefix, character by character, or the
      column's stored cell has exactly this value. */
  ghost predicate Selects(p: ReplicaPredicate, row: string, cells: map<Key, Cell>) {
    match p
    case IdEquals(id) => |row| == |id| && forall i :: 0 <= i < |id| ==> row[i] == id[i]
    case IdPrefix(prefix) => |row| >= |prefix| && forall i :: 0 <= i < |prefix| ==> row[i] == prefix[i]
    case ColumnEquals(column, value) => exists c :: Key(row, column) in cells && cells[Key(row, column)] == c && c.value == value
  }

  /** Some cell of the row is stored. */
  ghost predicate IsStored(row: string, cells: map<Key, Cell>) {
    exists column :: Key(row, column) in cells
  }

  /** A stored row, not marked deleted, that every predicate selects. */
  ghost predicate InScope(row: string, cells: map<Key, Cell>, interest: Interest) {
    && IsStored(row, cells)
    && (Key(row, "deleted") !in cells || cells[Key(row, "deleted")].value != Boolean(true))
    && forall j :: 0 <= j < |interest.predicates| ==> Selects(interest.predicates[j], row, cells)
  }

  lemma SelectsIs(p: ReplicaPredicate, row: string, cells: map<Key, Cell>)
    ensures HoldsPredicate(p, row, cells) <==> Selects(p, row, cells)
  {
    match p
    case IdEquals(id) =>
    case IdPrefix(prefix) => PrefixIs(prefix, row);
    case ColumnEquals(column, value) =>
  }

  lemma PrefixIs(prefix: string, row: string)
    ensures prefix <= row <==> |row| >= |prefix| && forall i :: 0 <= i < |prefix| ==> row[i] == prefix[i]
  {
    if |row| >= |prefix| && forall i :: 0 <= i < |prefix| ==> row[i] == prefix[i] {
      assert row[..|prefix|] == prefix;
    }
  }

  lemma InScopeIs(row: string, cells: map<Key, Cell>, interest: Interest)
    ensures row in MembersOf(cells, interest) <==> InScope(row, cells, interest)
  {
    forall j | 0 <= j < |interest.predicates|
      ensures HoldsPredicate(interest.predicates[j], row, cells) <==> Selects(interest.predicates[j], row, cells)
    {
      SelectsIs(interest.predicates[j], row, cells);
    }
    if IsStored(row, cells) {
      var column :| Key(row, column) in cells;
      assert Key(row, column).row in RowIds(cells);
    }
    if row in RowIds(cells) {
      var k :| k in cells && k.row == row;
      assert Key(row, k.column) in cells;
    }
  }

  // --- The answer ------------------------------------------------------

  /** The members of an answered scope are exactly the rows in scope after the merge. */
  lemma MembersExactly(s: State, q: PartialRequest, device: string, env: Env, row: string)
    requires MergePartial(s, q, device, env).Ok?
    ensures var PartialMerged(t, r) := MergePartial(s, q, device, env).value;
      row in r.members <==> InScope(row, t.cells, q.interest)
  {
    var m := Merge(s, q.sync, device, ALLOW_ALL, env).value;
    PartialAnswer(m, q, env);
    InScopeIs(row, m.state.cells, q.interest);
  }

  /** The snapshot lists its members in order, carries exactly their stored cells, and evicts exactly
      the known rows that are none of them; the rest is the answer of the merge. */
  lemma SnapshotExactly(s: State, q: PartialRequest, device: string, env: Env)
    requires MergePartial(s, q, device, env).Ok? && Merge(s, q.sync, device, ALLOW_ALL, env).Ok?
    ensures var PartialMerged(t, r) := MergePartial(s, q, device, env).value;
      var m := Merge(s, q.sync, device, ALLOW_ALL, env).value;
      && t == m.state && r.scope == q.scope && r.version == q.version && !r.sync.hasMore
      && (forall i, j :: 0 <= i < j < |r.members| ==> Precedes(r.members[i], r.members[j]))
      && (forall x :: x in r.evicted <==> x in q.known && x !in r.members)
      && (forall k, c :: Sends(r.sync, k, c) <==> k.row in r.members && k in t.cells && t.cells[k] == c)
      && r.sync.(changes := m.response.changes, hasMore := m.response.hasMore) == m.response
  {
    var m := Merge(s, q.sync, device, ALLOW_ALL, env).value;
    var r := MergePartial(s, q, device, env).value.response;
    PartialAnswer(m, q, env);
    DroppedMembers(q.known, r.members);
    MembersInOrder(r.members);
    GroupRowsRoundTrip(RowsCells(m.state.cells, MembersOf(m.state.cells, q.interest)));
    forall k, c ensures Sends(r.sync, k, c) <==> k.row in r.members && k in m.state.cells && m.state.cells[k] == c {
      SendsIs(r.sync, k, c);
    }
  }

  lemma MembersInOrder(ids: seq<string>)
    requires StrictlySorted(ids)
    ensures forall i, j :: 0 <= i < j < |ids| ==> Precedes(ids[i], ids[j])
  {
    forall i, j | 0 <= i < j < |ids| ensures Precedes(ids[i], ids[j]) {
      BeforeParts(ids[i], ids[j]);
    }
  }

  // --- The limits ------------------------------------------------------

  /** `ks` lists each stored cell of the rows once. */
  ghost predicate Lists(ks: seq<Key>, cells: map<Key, Cell>, rows: set<string>) {
    && (forall k :: k in ks <==> k in cells && k.row in rows)
    && forall i, j :: 0 <= i < j < |ks| ==> ks[i] != ks[j]
  }

  /** The rows in scope are no more than the limit, their cells no more than 20,000 and 4 MiB, however they are listed. */
  ghost predicate Fits(cells: map<Key, Cell>, interest: Interest, size: (Key, Cell) -> nat) {
    exists rows, ks :: ExactlyInScope(rows, cells, interest) && Lists(ks, cells, rows)
                       && WithinLimits(rows, ks, cells, interest.limit, size)
  }

  ghost predicate ExactlyInScope(rows: set<string>, cells: map<Key, Cell>, interest: Interest) {
    forall x :: x in rows <==> InScope(x, cells, interest)
  }

  ghost predicate WithinLimits(rows: set<string>, ks: seq<Key>, cells: map<Key, Cell>, limit: nat, size: (Key, Cell) -> nat)
    requires forall k :: k in ks ==> k in cells
  {
    |rows| <= limit && |ks| <= 20_000 && Bytes(ks, cells, size) <= 4_194_304
  }

  function KeysOf(ws: seq<Write>): seq<Key> {
    seq(|ws|, i requires 0 <= i < |ws| => ws[i].key)
  }

  lemma {:induction false} TotalIsBytes(ws: seq<Write>, cells: map<Key, Cell>, size: (Key, Cell) -> nat)
    requires forall i :: 0 <= i < |ws| ==> ws[i].key in cells && cells[ws[i].key] == ws[i].cell
    ensures (forall k :: k in KeysOf(ws) ==> k in cells) && TotalSize(ws, size) == Bytes(KeysOf(ws), cells, size)
  {
    if ws != [] {
      var n := |ws| - 1;
      TotalIsBytes(ws[..n], cells, size);
      assert KeysOf(ws)[..n] == KeysOf(ws[..n]);
    }
  }

  lemma {:induction false} BytesWithout(ks: seq<Key>, i: nat, cells: map<Key, Cell>, size: (Key, Cell) -> nat)
    requires i < |ks| && forall k :: k in ks ==> k in cells
    ensures forall k :: k in ks[..i] + ks[i + 1..] ==> k in cells
    ensures Bytes(ks, cells, size) == Bytes(ks[..i] + ks[i + 1..], cells, size) + size(ks[i], cells[ks[i]])
    decreases |ks|
  {
    var n := |ks| - 1;
    var rest := ks[..i] + ks[i + 1..];
    assert forall k :: k in rest ==> k in ks;
    if i < n {
      BytesWithout(ks[..n], i, cells, size);
      assert rest[..n - 1] == ks[..n][..i] + ks[..n][i + 1..];
      assert rest[n - 1] == ks[n];
    } else {
      assert rest == ks[..n];
    }
  }

  /** The bytes of a set of cells do not depend on how they are listed. */
  lemma {:induction false} SameBytes(a: seq<Key>, b: seq<Key>, cells: map<Key, Cell>, size: (Key, Cell) -> nat)
    requires forall k :: k in a ==> k in cells
    requires forall k :: k in a <==> k in b
    requires forall i, j :: 0 <= i < j < |a| ==> a[i] != a[j]
    requires forall i, j :: 0 <= i < j < |b| ==> b[i] != b[j]
    ensures |a| == |b| && Bytes(a, cells, size) == Bytes(b, cells, size)
    decreases |a|
  {
    if a == [] {
      if b != [] { HeadIn(b); }
    } else {
      var n := |a| - 1;
      assert a[n] in b;
      var i :| 0 <= i < |b| && b[i] == a[n];
      var rest := b[..i] + b[i + 1..];
      BytesWithout(b, i, cells, size);
      SameRest(a, b, i, rest);
      SameBytes(a[..n], rest, cells, size);
    }
  }

  lemma SameRest(a: seq<Key>, b: seq<Key>, i: nat, rest: seq<Key>)
    requires a != [] && i < |b| && b[i] == a[|a| - 1] && rest == b[..i] + b[i + 1..]
    requires forall k :: k in a <==> k in b
    requires forall x, y :: 0 <= x < y < |a| ==> a[x] != a[y]
    requires forall x, y :: 0 <= x < y < |b| ==> b[x] != b[y]
    ensures forall k :: k in a[..|a| - 1] <==> k in rest
    ensures forall x, y :: 0 <= x < y < |rest| ==> rest[x] != rest[y]
  {
    var n := |a| - 1;
    forall k ensures k in a[..n] <==> k in rest {
      WithoutOne(a, n, k);
      WithoutOne(b, i, k);
      assert a[..n] + a[n + 1..] == a[..n];
    }
  }

  lemma WithoutOne(ks: seq<Key>, i: nat, k: Key)
    requires i < |ks| && forall x, y :: 0 <= x < y < |ks| ==> ks[x] != ks[y]
    ensures k in ks[..i] + ks[i + 1..] <==> k in ks && k != ks[i]
  {
    if k in ks && k != ks[i] {
      var j :| 0 <= j < |ks| && ks[j] == k;
      if j < i { assert ks[..i][j] == k; } else { assert ks[i + 1..][j - i - 1] == k; }
    }
  }

  lemma KeysListed(ws: seq<Write>, m: map<Key, Cell>)
    requires DistinctKeys(ws) && AsMap(ws) == m
    ensures |KeysOf(ws)| == |m| && (forall k :: k in KeysOf(ws) <==> k in m)
    ensures forall i, j :: 0 <= i < j < |ws| ==> KeysOf(ws)[i] != KeysOf(ws)[j]
    ensures forall i :: 0 <= i < |ws| ==> ws[i].key in m && m[ws[i].key] == ws[i].cell
  {
    AsMapMembers(ws);
    var ks := KeysOf(ws);
    forall i | 0 <= i < |ws| ensures ws[i].key in m && m[ws[i].key] == ws[i].cell {
      assert ws[i] in ws;
    }
    forall k | k in m ensures k in ks {
      var i :| 0 <= i < |ws| && ws[i] == Write(k, m[k]);
      assert ks[i] == k;
    }
  }

  /** The cells of a snapshot, listed as the loop adds up their sizes. */
  lemma SnapshotLists(cells: map<Key, Cell>, rows: set<string>, size: (Key, Cell) -> nat) returns (ks: seq<Key>)
    ensures Lists(ks, cells, rows) && |ks| == |RowsCells(cells, rows)|
    ensures Bytes(ks, cells, size) == TotalSize(Writes(GroupRows(RowsCells(cells, rows))), size)
  {
    var m := RowsCells(cells, rows);
    GroupRowsRoundTrip(m);
    WritesDistinct(GroupRows(m));
    ks := CellsListed(Writes(GroupRows(m)), m, cells, rows, size);
  }

  lemma CellsListed(ws: seq<Write>, m: map<Key, Cell>, cells: map<Key, Cell>, rows: set<string>, size: (Key, Cell) -> nat) returns (ks: seq<Key>)
    requires DistinctKeys(ws) && AsMap(ws) == m && m == RowsCells(cells, rows)
    ensures Lists(ks, cells, rows) && |ks| == |m| && Bytes(ks, cells, size) == TotalSize(ws, size)
  {
    KeysListed(ws, m);
    TotalIsBytes(ws, cells, size);
    ks := KeysOf(ws);
  }

  lemma FitsWithin(cells: map<Key, Cell>, interest: Interest, members: set<string>, ks: seq<Key>, size: (Key, Cell) -> nat)
    requires ExactlyInScope(members, cells, interest) && Lists(ks, cells, members)
    ensures Fits(cells, interest, size) <==> WithinLimits(members, ks, cells, interest.limit, size)
  {
    if Fits(cells, interest, size) {
      var rows, js :| ExactlyInScope(rows, cells, interest) && Lists(js, cells, rows)
                      && WithinLimits(rows, js, cells, interest.limit, size);
      SameRows(rows, members, cells, interest);
      SameBytes(ks, js, cells, size);
    }
  }

  lemma SameRows(a: set<string>, b: set<string>, cells: map<Key, Cell>, interest: Interest)
    requires ExactlyInScope(a, cells, interest) && ExactlyInScope(b, cells, interest)
    ensures a == b
  {
    forall x ensures x in a <==> x in b {
      assert x in a <==> InScope(x, cells, interest);
    }
  }

  lemma FitsIs(cells: map<Key, Cell>, interest: Interest, env: Env)
    ensures ScopeFits(cells, interest, env) <==> Fits(cells, interest, env.size)
  {
    var members := MembersOf(cells, interest);
    forall x ensures x in members <==> InScope(x, cells, interest) {
      InScopeIs(x, cells, interest);
    }
    var ks := SnapshotLists(cells, members, env.size);
    FitsWithin(cells, interest, members, ks, env.size);
  }

  /** A scoped request is answered exactly when it is valid, its delta merges while both clocks are below
      the last storable one, and the scope as it stands after that merge fits one answer. */
  lemma ScopedAnswersExactly(s: State, q: PartialRequest, device: string, env: Env)
    requires Valid(s) && ValidCells(env.schema, s.cells) && q.sync.source == device
    ensures MergePartial(s, q, device, env).Ok? <==>
      && ValidPartialRequest(q, device, env.schema) && Merge(s, q.sync, device, ALLOW_ALL, env).Ok?
      && s.lamport < 0x7fff_ffff_ffff_ffff && q.sync.lamport < 0x7fff_ffff_ffff_ffff
      && Fits(Merge(s, q.sync, device, ALLOW_ALL, env).value.state.cells, q.interest, env.size)
  {
    if ValidPartialRequest(q, device, env.schema) && Merge(s, q.sync, device, ALLOW_ALL, env).Ok? {
      ServedExactly(s, q, env, Merge(s, q.sync, device, ALLOW_ALL, env).value);
    } else {
      Unserved(s, q, device, env);
    }
  }

  lemma ServedExactly(s: State, q: PartialRequest, env: Env, m: Merged)
    requires Valid(s) && ValidCells(env.schema, s.cells) && ValidPartialRequest(q, q.sync.source, env.schema)
    requires Merge(s, q.sync, q.sync.source, ALLOW_ALL, env) == Ok(m)
    ensures MergePartial(s, q, q.sync.source, env).Ok? <==>
      && s.lamport < 0x7fff_ffff_ffff_ffff && q.sync.lamport < 0x7fff_ffff_ffff_ffff
      && Fits(m.state.cells, q.interest, env.size)
  {
    ScopedConcludes(s, q, m, env);
    FitsIs(m.state.cells, q.interest, env);
  }

  lemma Unserved(s: State, q: PartialRequest, device: string, env: Env)
    requires !ValidPartialRequest(q, device, env.schema) || Merge(s, q.sync, device, ALLOW_ALL, env).Err?
    ensures MergePartial(s, q, device, env).Err?
  {
  }
}
