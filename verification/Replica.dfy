/** Partial replicas: interests, membership, and the authoritative snapshot. */
module Replica {
  import opened Names
  import opened Cells
  import opened Payload
  import opened Server

  const MAX_KNOWN_MEMBERS: nat := 100_000
  const MAX_PREDICATES: nat := 32

  datatype ReplicaPredicate =
    | IdEquals(id: string)
    | IdPrefix(prefix: string)
    | ColumnEquals(column: string, value: Value)

  datatype Interest = Interest(predicates: seq<ReplicaPredicate>, limit: nat)

  datatype PartialRequest = PartialRequest(
    scope: string, version: nat, interest: Interest, known: seq<string>, sync: SyncPayload)

  datatype PartialResponse = PartialResponse(
    scope: string, version: nat, members: seq<string>, evicted: seq<string>, sync: SyncPayload)

  // --- Validation ------------------------------------------------------

  predicate ValidPredicate(p: ReplicaPredicate, t: Schema) {
    match p
    case IdEquals(s) => s != [] && Utf8Length(s) <= 255
    case IdPrefix(s) => s != [] && Utf8Length(s) <= 255
    case ColumnEquals(column, value) => ValidColumn(t, column, value)
  }

  predicate ValidInterest(i: Interest, t: Schema) {
    && 1 <= i.limit <= MAX_PAYLOAD_ROWS
    && |i.predicates| <= MAX_PREDICATES
    && forall j :: 0 <= j < |i.predicates| ==> ValidPredicate(i.predicates[j], t)
  }

  ghost predicate ValidMemberIds(ids: seq<string>) {
    && |ids| <= MAX_KNOWN_MEMBERS
    && (forall j :: 0 <= j < |ids| ==> ValidIdentifier(ids[j]))
    && StrictlySorted(ids)
  }

  lemma AdjacentSorted(ids: seq<string>, x: string)
    requires StrictlySorted(ids) && (ids == [] || Before(ids[|ids| - 1], x))
    ensures StrictlySorted(ids + [x])
  {
    forall i | 0 <= i < |ids| ensures Before(ids[i], x) {
      if i < |ids| - 1 { BeforeTransitive(ids[i], ids[|ids| - 1], x); }
    }
  }

  /** One pass that remembers the previous identifier checks the whole order. */
  method CheckMemberIds(ids: seq<string>) returns (ok: bool)
    ensures ok <==> ValidMemberIds(ids)
  {
    if |ids| > MAX_KNOWN_MEMBERS { return false; }
    var previous: Option<string> := None;
    for i := 0 to |ids|
      invariant previous == if i == 0 then None else Some(ids[i - 1])
      invariant forall j :: 0 <= j < i ==> ValidIdentifier(ids[j])
      invariant StrictlySorted(ids[..i])
    {
      if !ValidIdentifier(ids[i]) { return false; }
      if previous.Some? && !Before(previous.value, ids[i]) { return false; }
      AdjacentSorted(ids[..i], ids[i]);
      assert ids[..i] + [ids[i]] == ids[..i + 1];
      previous := Some(ids[i]);
    }
    assert ids[..|ids|] == ids;
    return true;
  }

  predicate ValidScopeVersion(v: nat) {
    1 <= v <= I64_MAX
  }

  ghost predicate ValidPartialRequest(r: PartialRequest, device: string, t: Schema) {
    && ValidIdentifier(r.scope) && ValidScopeVersion(r.version)
    && ValidInterest(r.interest, t)
    && ValidRequest(r.sync, device, t)
    && ValidMemberIds(r.known)
  }

  ghost predicate ValidPartialResponse(r: PartialResponse, t: Schema) {
    && ValidIdentifier(r.scope) && ValidScopeVersion(r.version)
    && ValidResponse(r.sync, t)
    && ValidMemberIds(r.members) && ValidMemberIds(r.evicted)
    && (forall x :: x in r.members ==> x !in r.evicted)
    && ChangedRows(r.sync.changes) == r.members
  }

  // --- Membership ------------------------------------------------------

  predicate HoldsPredicate(p: ReplicaPredicate, row: string, cells: map<Key, Cell>) {
    match p
    case IdEquals(id) => row == id
    case IdPrefix(prefix) => prefix <= row
    case ColumnEquals(column, value) => Key(row, column) in cells && cells[Key(row, column)].value == value
  }

  predicate Matches(i: Interest, row: string, cells: map<Key, Cell>) {
    forall j :: 0 <= j < |i.predicates| ==> HoldsPredicate(i.predicates[j], row, cells)
  }

  predicate Tombstoned(row: string, cells: map<Key, Cell>) {
    Key(row, LIVENESS) in cells && cells[Key(row, LIVENESS)].value == Boolean(true)
  }

  /** The live rows of the server that satisfy the interest. */
  ghost function MembersOf(cells: map<Key, Cell>, i: Interest): set<string> {
    set r | r in RowIds(cells) && !Tombstoned(r, cells) && Matches(i, r, cells)
  }

  ghost function RowsCells(cells: map<Key, Cell>, rows: set<string>): map<Key, Cell> {
    map k | k in cells && k.row in rows :: cells[k]
  }

  /** Known identifiers the scope no longer contains, in their known order. */
  function Dropped(known: seq<string>, members: seq<string>): seq<string> {
    if known == [] then []
    else
      var rest := Dropped(known[..|known| - 1], members);
      if known[|known| - 1] in members then rest else rest + [known[|known| - 1]]
  }

  ghost function TotalSize(ws: seq<Write>, size: (Key, Cell) -> nat): nat {
    if ws == [] then 0 else TotalSize(ws[..|ws| - 1], size) + size(ws[|ws| - 1].key, ws[|ws| - 1].cell)
  }

  datatype PartialMerged = PartialMerged(state: State, response: PartialResponse)

  ghost function Snapshot(m: Merged, req: PartialRequest): PartialResponse {
    var rows := MembersOf(m.state.cells, req.interest);
    PartialResponse(req.scope, req.version, SortedSeq(rows), Dropped(req.known, SortedSeq(rows)),
                    m.response.(changes := GroupRows(RowsCells(m.state.cells, rows)), hasMore := false))
  }

  ghost function ConcludePartial(m: Merged, req: PartialRequest, env: Env): Result<PartialMerged> {
    var rows := MembersOf(m.state.cells, req.interest);
    if || |rows| > req.interest.limit
       || TotalSize(Writes(GroupRows(RowsCells(m.state.cells, rows))), env.size) > MAX_RESPONSE_BYTES
       || !ValidPartialResponse(Snapshot(m, req), env.schema)
    then Err
    else Ok(PartialMerged(m.state, Snapshot(m, req)))
  }

  /** The partial merge admits every valid cell, then answers with the scope snapshot. */
  ghost function MergePartial(s: State, req: PartialRequest, device: string, env: Env): Result<PartialMerged> {
    if !ValidPartialRequest(req, device, env.schema) then Err
    else
      match Merge(s, req.sync, device, ALLOW_ALL, env)
      case Err => Err
      case Ok(m) => ConcludePartial(m, req, env)
  }

  // --- Facts -----------------------------------------------------------

  lemma {:induction false} DroppedMembers(known: seq<string>, members: seq<string>)
    requires StrictlySorted(known)
    ensures forall x :: x in Dropped(known, members) <==> x in known && x !in members
    ensures StrictlySorted(Dropped(known, members))
    ensures |Dropped(known, members)| <= |known|
  {
    if known != [] {
      var n := |known| - 1;
      var rest := Dropped(known[..n], members);
      DroppedMembers(known[..n], members);
      assert known == known[..n] + [known[n]];
      if known[n] !in members {
        forall i | 0 <= i < |rest| ensures Before(rest[i], known[n]) {
          assert rest[i] in known[..n];
        }
      }
    }
  }

  lemma MembersRows(cells: map<Key, Cell>, i: Interest)
    ensures var rows := MembersOf(cells, i); RowIds(RowsCells(cells, rows)) == rows
  {
    var rows := MembersOf(cells, i);
    forall r | r in rows ensures r in RowIds(RowsCells(cells, rows)) {
      var k :| k in cells && k.row == r;
      assert k in RowsCells(cells, rows);
    }
  }

  /** A response that concludes a partial merge passes the client's checks, its
      members are the live matching rows, and it carries exactly their cells. */
  lemma PartialAnswer(m: Merged, req: PartialRequest, env: Env)
    requires ConcludePartial(m, req, env).Ok? && StrictlySorted(req.known)
    ensures var PartialMerged(t, r) := ConcludePartial(m, req, env).value;
      && t == m.state && ValidPartialResponse(r, env.schema)
      && r.scope == req.scope && r.version == req.version
      && (forall x :: x in r.members <==> x in MembersOf(t.cells, req.interest))
      && CellsOf(r.sync.changes) == RowsCells(t.cells, MembersOf(t.cells, req.interest))
      && r.evicted == Dropped(req.known, r.members)
      && r.sync.lamport == m.response.lamport && r.sync.cursor == m.response.cursor
      && r.sync.cursorReset == m.response.cursorReset && r.sync.rejections == m.response.rejections
  {
    var rows := MembersOf(m.state.cells, req.interest);
    GroupRowsRoundTrip(RowsCells(m.state.cells, rows));
  }

  /** The scope's live matching rows and their cells fit the limits of one answer. */
  ghost predicate ScopeFits(cells: map<Key, Cell>, interest: Interest, env: Env) {
    var rows := MembersOf(cells, interest);
    && |rows| <= interest.limit
    && TotalSize(Writes(GroupRows(RowsCells(cells, rows))), env.size) <= MAX_RESPONSE_BYTES
    && |RowsCells(cells, rows)| <= MAX_PAYLOAD_CELLS
  }

  /** Apart from its two size limits and the payload's cell limit, the partial
      answer always passes validation when the underlying response does. */
  lemma PartialSucceeds(m: Merged, req: PartialRequest, device: string, env: Env)
    requires ValidPartialRequest(req, device, env.schema)
    requires ValidResponse(m.response, env.schema) && ValidCells(env.schema, m.state.cells)
    requires ClocksBelow(m.state.cells, m.response.lamport)
    ensures ConcludePartial(m, req, env).Ok? <==> ScopeFits(m.state.cells, req.interest, env)
  {
    var rows := MembersOf(m.state.cells, req.interest);
    if |rows| <= req.interest.limit {
      SnapshotValid(m, req, device, env.schema);
    }
  }

  lemma SnapshotValid(m: Merged, req: PartialRequest, device: string, t: Schema)
    requires ValidPartialRequest(req, device, t)
    requires ValidResponse(m.response, t) && ValidCells(t, m.state.cells)
    requires ClocksBelow(m.state.cells, m.response.lamport)
    requires |MembersOf(m.state.cells, req.interest)| <= MAX_PAYLOAD_ROWS
    ensures ValidPartialResponse(Snapshot(m, req), t) <==>
      |RowsCells(m.state.cells, MembersOf(m.state.cells, req.interest))| <= MAX_PAYLOAD_CELLS
  {
    var cells := RowsCells(m.state.cells, MembersOf(m.state.cells, req.interest));
    MembersRows(m.state.cells, req.interest);
    assert ValidCells(t, cells) && ClocksBelow(cells, m.response.lamport);
    SnapshotSync(m.response, t, cells);
    SnapshotIds(m, req, t);
    assert Snapshot(m, req).sync == m.response.(changes := GroupRows(cells), hasMore := false);
  }

  lemma SnapshotSync(r: SyncPayload, t: Schema, cells: map<Key, Cell>)
    requires ValidResponse(r, t) && ValidCells(t, cells) && ClocksBelow(cells, r.lamport)
    requires |RowIds(cells)| <= MAX_PAYLOAD_ROWS
    ensures var r' := r.(changes := GroupRows(cells), hasMore := false);
      ValidResponse(r', t) <==> |cells| <= MAX_PAYLOAD_CELLS
  {
    var r' := r.(changes := GroupRows(cells), hasMore := false);
    assert ClocksWithin(cells, r.lamport);
    assert ValidHeader(r', t);
    GroupRowsRoundTrip(cells);
    GroupedValid(r', t, cells);
  }

  lemma SnapshotIds(m: Merged, req: PartialRequest, t: Schema)
    requires ValidCells(t, m.state.cells) && ValidMemberIds(req.known)
    ensures var r := Snapshot(m, req);
      && ValidMemberIds(r.evicted)
      && (|MembersOf(m.state.cells, req.interest)| <= MAX_KNOWN_MEMBERS ==> ValidMemberIds(r.members))
      && (forall x :: x in r.members ==> x !in r.evicted)
      && ChangedRows(r.sync.changes) == r.members
  {
    var rows := MembersOf(m.state.cells, req.interest);
    var r := Snapshot(m, req);
    MembersRows(m.state.cells, req.interest);
    GroupedShape(RowsCells(m.state.cells, rows));
    MemberIdsValid(t, m.state.cells, req.interest);
    EvictedIdsValid(req.known, r.members);
  }

  lemma MemberIdsValid(t: Schema, cells: map<Key, Cell>, interest: Interest)
    requires ValidCells(t, cells)
    ensures |MembersOf(cells, interest)| <= MAX_KNOWN_MEMBERS ==> ValidMemberIds(SortedSeq(MembersOf(cells, interest)))
  {
    var ids := SortedSeq(MembersOf(cells, interest));
    forall j | 0 <= j < |ids| ensures ValidIdentifier(ids[j]) {
      assert ids[j] in MembersOf(cells, interest);
      var k :| k in cells && k.row == ids[j];
    }
  }

  lemma EvictedIdsValid(known: seq<string>, members: seq<string>)
    requires ValidMemberIds(known)
    ensures ValidMemberIds(Dropped(known, members))
    ensures forall x :: x in members ==> x !in Dropped(known, members)
  {
    var evicted := Dropped(known, members);
    DroppedMembers(known, members);
    forall j | 0 <= j < |evicted| ensures ValidIdentifier(evicted[j]) {
      assert evicted[j] in known;
    }
  }
}
