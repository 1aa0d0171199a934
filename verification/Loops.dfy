/** The loops shared by server and client: payload validation, each deciding exactly the
    predicate that the protocol states, flattening, and grouping into rows. */
module Loops {
  import opened Names
  import opened Cells
  import opened Payload
  import opened Server
  import opened ServerFacts
  import opened Replica

  // --- Full payloads ---------------------------------------------------

  ghost predicate OwnWrites(ws: seq<Write>, device: string, bound: nat) {
    forall i :: 0 <= i < |ws| ==> ws[i].cell.version.device == device && ws[i].cell.version.clock <= bound
  }

  lemma OwnWritesCells(changes: seq<RowChange>, device: string, bound: nat)
    requires DistinctRows(changes)
    ensures OwnWrites(Writes(changes), device, bound) <==>
      AuthoredBy(CellsOf(changes), device) && ClocksWithin(CellsOf(changes), bound)
  {
    var ws := Writes(changes);
    WritesDistinct(changes);
    AsMapMembers(ws);
    if OwnWrites(ws, device, bound) {
      forall k | k in AsMap(ws) ensures AsMap(ws)[k].version.device == device && AsMap(ws)[k].version.clock <= bound {
        var i :| 0 <= i < |ws| && ws[i] == Write(k, AsMap(ws)[k]);
      }
    }
    if AuthoredBy(AsMap(ws), device) && ClocksWithin(AsMap(ws), bound) {
      forall i | 0 <= i < |ws| ensures ws[i].cell.version.device == device && ws[i].cell.version.clock <= bound {
        assert ws[i] in ws;
      }
    }
  }

  /** The cells of a request in the order its nested row and column loops visit them. */
  method Flatten(changes: seq<RowChange>) returns (ws: seq<Write>)
    ensures ws == Writes(changes)
  {
    ws := [];
    for i := 0 to |changes|
      invariant ws == Writes(changes[..i])
    {
      var r := changes[i];
      var names := SortKeys(r.columns.Keys);
      var row := seq(|names|, j requires 0 <= j < |names| => Write(Key(r.row, names[j]), r.columns[names[j]]));
      assert row == RowWrites(r);
      assert changes[..i + 1][..i] == changes[..i];
      ws := ws + row;
    }
    assert changes[..|changes|] == changes;
  }

  method CheckRequest(p: SyncPayload, device: string, t: Schema) returns (ok: bool)
    ensures ok <==> ValidRequest(p, device, t)
  {
    ok := Validate(p, t);
    if !ok { return; }
    OwnWritesCells(p.changes, device, p.lamport);
    if !ValidIdentifier(device) || device == SERVER_DEVICE || p.source != device { return false; }
    if p.hasMore || p.cursorReset || p.rejections != [] { return false; }
    var ws := Flatten(p.changes);
    ok := CheckOwn(ws, device, p.lamport);
  }

  method CheckOwn(ws: seq<Write>, device: string, bound: nat) returns (ok: bool)
    ensures ok <==> OwnWrites(ws, device, bound)
  {
    for i := 0 to |ws|
      invariant OwnWrites(ws[..i], device, bound)
    {
      if ws[i].cell.version.device != device || ws[i].cell.version.clock > bound { return false; }
    }
    assert ws[..|ws|] == ws;
    return true;
  }

  method CheckResponse(p: SyncPayload, t: Schema) returns (ok: bool)
    ensures ok <==> ValidResponse(p, t)
  {
    ok := Validate(p, t);
    if !ok { return; }
    if p.source != SERVER_DEVICE { return false; }
    WithinCells(p.changes, p.lamport);
    ok := CheckRejections(p.rejections, p.lamport);
    if !ok { return; }
    var ws := Flatten(p.changes);
    ok := CheckWithin(ws, p.lamport);
  }

  method CheckRejections(rs: seq<Rejection>, bound: nat) returns (ok: bool)
    ensures ok <==> forall r :: r in rs ==> r.cell.version.clock <= bound
  {
    for i := 0 to |rs|
      invariant forall j :: 0 <= j < i ==> rs[j].cell.version.clock <= bound
    {
      if rs[i].cell.version.clock > bound { return false; }
    }
    return true;
  }

  ghost predicate Within(ws: seq<Write>, bound: nat) {
    forall i :: 0 <= i < |ws| ==> ws[i].cell.version.clock <= bound
  }

  lemma WithinCells(changes: seq<RowChange>, bound: nat)
    requires DistinctRows(changes)
    ensures Within(Writes(changes), bound) <==> ClocksWithin(CellsOf(changes), bound)
  {
    var ws := Writes(changes);
    WritesDistinct(changes);
    AsMapMembers(ws);
    if Within(ws, bound) {
      forall k | k in AsMap(ws) ensures AsMap(ws)[k].version.clock <= bound {
        var i :| 0 <= i < |ws| && ws[i] == Write(k, AsMap(ws)[k]);
      }
    }
    if ClocksWithin(AsMap(ws), bound) {
      forall i | 0 <= i < |ws| ensures ws[i].cell.version.clock <= bound {
        assert ws[i] in ws;
      }
    }
  }

  method CheckWithin(ws: seq<Write>, bound: nat) returns (ok: bool)
    ensures ok <==> Within(ws, bound)
  {
    for i := 0 to |ws|
      invariant Within(ws[..i], bound)
    {
      if ws[i].cell.version.clock > bound { return false; }
    }
    assert ws[..|ws|] == ws;
    return true;
  }

  /** The highest clock a payload mentions. */
  method ObservedClock(ws: seq<Write>, lamport: nat) returns (m: nat)
    ensures m == MaxClock(ws, lamport)
  {
    m := lamport;
    for i := 0 to |ws|
      invariant m == MaxClock(ws[..i], lamport)
    {
      assert ws[..i + 1][..i] == ws[..i];
      if ws[i].cell.version.clock > m { m := ws[i].cell.version.clock; }
    }
    assert ws[..|ws|] == ws;
  }

  /** Cells gathered row by row in an ordered map. */
  method GroupIntoRows(m: map<Key, Cell>) returns (changes: seq<RowChange>)
    ensures changes == GroupRows(m)
  {
    var ids := SortKeys(RowIds(m));
    changes := [];
    for i := 0 to |ids|
      invariant changes == seq(i, j requires 0 <= j < i => RowOf(m, ids[j]))
    {
      changes := changes + [RowOf(m, ids[i])];
    }
  }

  // --- Partial payloads ------------------------------------------------

  method CheckPartialRequest(r: PartialRequest, device: string, t: Schema) returns (ok: bool)
    ensures ok <==> ValidPartialRequest(r, device, t)
  {
    if !ValidIdentifier(r.scope) || !ValidScopeVersion(r.version) || !ValidInterest(r.interest, t) { return false; }
    ok := CheckRequest(r.sync, device, t);
    if ok { ok := CheckMemberIds(r.known); }
  }

  method CheckPartialResponse(r: PartialResponse, t: Schema) returns (ok: bool)
    ensures ok <==> ValidPartialResponse(r, t)
  {
    if !ValidIdentifier(r.scope) || !ValidScopeVersion(r.version) { return false; }
    ok := CheckResponse(r.sync, t);
    if !ok { return; }
    ok := CheckMemberIds(r.members);
    if !ok { return; }
    ok := CheckMemberIds(r.evicted);
    if !ok { return; }
    ok := CheckSnapshotRows(r.sync.changes, r.members, r.evicted);
  }

  /** No member is evicted, and the snapshot's rows are exactly the members in order. */
  method CheckSnapshotRows(changes: seq<RowChange>, members: seq<string>, evicted: seq<string>) returns (ok: bool)
    ensures ok <==> (forall x :: x in members ==> x !in evicted) && ChangedRows(changes) == members
  {
    for i := 0 to |members|
      invariant forall j :: 0 <= j < i ==> members[j] !in evicted
    {
      if members[i] in evicted { return false; }
    }
    if |changes| != |members| {
      assert |ChangedRows(changes)| == |changes|;
      return false;
    }
    for i := 0 to |members|
      invariant forall j :: 0 <= j < i ==> changes[j].row == members[j]
    {
      if changes[i].row != members[i] {
        assert ChangedRows(changes)[i] == changes[i].row;
        return false;
      }
    }
    return true;
  }

  /** The rows a device knows that are members no more. */
  method DropKnown(known: seq<string>, members: seq<string>) returns (evicted: seq<string>)
    ensures evicted == Dropped(known, members)
  {
    evicted := [];
    for i := 0 to |known|
      invariant evicted == Dropped(known[..i], members)
    {
      assert known[..i + 1][..i] == known[..i];
      if known[i] !in members { evicted := evicted + [known[i]]; }
    }
    assert known[..|known|] == known;
  }

  // --- Change feed -----------------------------------------------------

  /** Keys sorted by feed position. */
  method OrderBySeq(all: set<Key>, cellSeq: map<Key, nat>) returns (feed: seq<Key>)
    requires all <= cellSeq.Keys && Injective(cellSeq)
    ensures feed == BySeq(all, cellSeq)
  {
    var rest := all;
    feed := [];
    while rest != {}
      invariant rest <= all
      invariant forall k :: k in feed <==> k in all && k !in rest
      invariant SortedBy(feed, cellSeq)
      invariant Distinct(feed)
      invariant forall j, k :: j in feed && k in rest ==> cellSeq[j] <= cellSeq[k]
      decreases rest
    {
      EarliestExists(rest, cellSeq);
      var m :| m in rest && forall j :: j in rest ==> cellSeq[m] <= cellSeq[j];
      rest := rest - {m};
      feed := feed + [m];
    }
    FeedUnique(feed, BySeq(all, cellSeq), cellSeq);
  }
}
