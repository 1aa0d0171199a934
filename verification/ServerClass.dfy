/** The reference server as src/crdt.rs runs it: a mutable object whose merge
    works on a copy statement by statement and installs it only on success. */
module ServerClass {
  import opened Names
  import opened Cells
  import opened Payload
  import opened Server
  import opened ServerFacts
  import opened Replica
  import opened Loops

  // --- Merge loop ------------------------------------------------------

  lemma {:induction false} AbsorbFails(a: Acc, who: Ruling, ws: seq<Write>, n: nat)
    requires n <= |ws| && AbsorbAll(a, who, ws[..n]).Err?
    ensures AbsorbAll(a, who, ws).Err?
    decreases |ws|
  {
    if n < |ws| {
      var m := |ws| - 1;
      assert ws[..m][..n] == ws[..n];
      AbsorbFails(a, who, ws[..m], n);
    } else {
      assert ws[..n] == ws;
    }
  }

  /** The merge loop: each cell is judged against the working copy and applied to it. */
  method AbsorbLoop(a: Acc, who: Ruling, ws: seq<Write>) returns (res: Result<Acc>)
    ensures res == AbsorbAll(a, who, ws)
  {
    var acc := a;
    for i := 0 to |ws|
      invariant AbsorbAll(a, who, ws[..i]) == Ok(acc)
    {
      assert ws[..i + 1][..i] == ws[..i];
      var step := Absorb(acc, who, ws[i]);
      if step.Err? {
        AbsorbFails(a, who, ws, i + 1);
        return Err;
      }
      acc := step.value;
    }
    assert ws[..|ws|] == ws;
    return Ok(acc);
  }

  // --- Page ------------------------------------------------------------

  /** Feed candidates collected and sorted by position. */
  method Candidates(cells: map<Key, Cell>, seqNo: nat, cellSeq: map<Key, nat>, cursor: int) returns (feed: seq<Key>)
    requires Indexed(cells, seqNo, cellSeq)
    ensures feed == BySeq(Pending(cells, cellSeq, cursor), cellSeq)
  {
    var all := set k | k in cells && Cap(cellSeq[k]) > cursor;
    assert all == Pending(cells, cellSeq, cursor);
    feed := OrderBySeq(all, cellSeq);
  }

  /** The page loop: take candidates until the cell or byte budget is spent. */
  method TakePage(feed: seq<Key>, cells: map<Key, Cell>, size: (Key, Cell) -> nat) returns (included: nat)
    requires forall k :: k in feed ==> k in cells
    ensures included == PageEnd(feed, cells, size, 0, 0)
  {
    included := 0;
    var bytes: nat := 0;
    while included < |feed|
      invariant included <= |feed|
      invariant PageEnd(feed, cells, size, included, bytes) == PageEnd(feed, cells, size, 0, 0)
    {
      var cost := size(feed[included], cells[feed[included]]);
      if included >= MAX_RESPONSE_CELLS || (included > 0 && bytes + cost > MAX_RESPONSE_BYTES) { break; }
      bytes := bytes + cost;
      included := included + 1;
    }
  }

  method BuildPage(cells: map<Key, Cell>, seqNo: nat, cellSeq: map<Key, nat>, cursor: int, env: Env) returns (page: Page)
    requires Indexed(cells, seqNo, cellSeq)
    ensures page == PageFrom(cells, seqNo, cellSeq, cursor, env)
  {
    var feed := Candidates(cells, seqNo, cellSeq, cursor);
    var n := TakePage(feed, cells, env.size);
    var next: int := if n == |feed| then Cap(seqNo) else if n == 0 then cursor else Cap(cellSeq[feed[n - 1]]);
    page := Page(feed[..n], next, n < |feed|);
  }

  method BuildReply(s: State, b: Acc, lamport: nat, p: SyncPayload, device: string, env: Env) returns (m: Merged)
    requires Indexed(b.cells, b.seqNo, b.cellSeq)
    ensures m == Reply(s, b, lamport, p, device, env)
  {
    var top := Issued(s, device);
    var page := BuildPage(b.cells, b.seqNo, b.cellSeq, EffectiveCursor(b.seqNo, top, p.cursor), env);
    var rows := Restrict(b.cells, page.keys);
    var changes := GroupIntoRows(rows);
    var issued := s.issued[device := if device in s.issued then Max(s.issued[device], page.next) else page.next];
    var reset := p.cursor != 0 && !CursorValid(b.seqNo, top, p.cursor);
    m := Merged(State(lamport, b.cells, b.seqNo, b.cellSeq, issued),
                SyncPayload(p.protocol, env.schema.fingerprint, SERVER_DEVICE, lamport, changes,
                            page.next, page.more, reset, None, None, b.rejections));
  }

  /** The fallible merge on a working copy of the state. */
  method MergeCopy(s: State, p: SyncPayload, device: string, sec: Security, env: Env) returns (res: Result<Merged>)
    requires Valid(s)
    ensures res == Merge(s, p, device, sec, env)
  {
    var ok := CheckRequest(p, device, env.schema);
    if !ok { return Err; }
    var ws := Flatten(p.changes);
    var observed := ObservedClock(ws, p.lamport);
    if !ClockAdvanceOk(s.lamport, observed) { return Err; }
    var absorbed := AbsorbLoop(Start(s), RulingOf(sec, device), ws);
    if absorbed.Ok? {
      ghost var b := AbsorbFacts(s, RulingOf(sec, device), p.changes);
    }
    res := Finish(s, absorbed, observed, p, device, env);
  }

  method Finish(s: State, r: Result<Acc>, observed: nat, p: SyncPayload, device: string, env: Env) returns (res: Result<Merged>)
    requires r.Ok? ==> Indexed(r.value.cells, r.value.seqNo, r.value.cellSeq)
    ensures res == Conclude(s, r, observed, p, device, env)
  {
    if r.Err? { return Err; }
    var lamport := Max(s.lamport, observed) + 1;
    if lamport > U64_MAX { return Err; }
    var m := BuildReply(s, r.value, lamport, p, device, env);
    return Ok(m);
  }

  // --- Partial replicas ------------------------------------------------

  predicate InScope(cells: map<Key, Cell>, interest: Interest, row: string) {
    !Tombstoned(row, cells) && Matches(interest, row, cells)
  }

  /** Live rows that match the interest, in row order. */
  method ScopeMembers(cells: map<Key, Cell>, interest: Interest) returns (members: seq<string>)
    ensures members == SortedSeq(MembersOf(cells, interest))
  {
    var ids := SortKeys(RowIds(cells));
    members := KeepInScope(ids, cells, interest);
    SortedUnique(members, SortedSeq(MembersOf(cells, interest)));
  }

  method KeepInScope(ids: seq<string>, cells: map<Key, Cell>, interest: Interest) returns (members: seq<string>)
    requires StrictlySorted(ids)
    ensures StrictlySorted(members)
    ensures forall x :: x in members <==> x in ids && InScope(cells, interest, x)
  {
    members := [];
    for i := 0 to |ids|
      invariant StrictlySorted(members)
      invariant forall x :: x in members <==> x in ids[..i] && InScope(cells, interest, x)
    {
      if InScope(cells, interest, ids[i]) {
        AllBefore(members, ids, i);
        members := members + [ids[i]];
      }
      assert ids[..i + 1] == ids[..i] + [ids[i]];
    }
    assert ids[..|ids|] == ids;
  }

  lemma AllBefore(members: seq<string>, ids: seq<string>, i: nat)
    requires i < |ids| && StrictlySorted(ids) && forall x :: x in members ==> x in ids[..i]
    ensures forall j :: 0 <= j < |members| ==> Before(members[j], ids[i])
  {
    forall j | 0 <= j < |members| ensures Before(members[j], ids[i]) {
      assert members[j] in ids[..i];
    }
  }

  lemma {:induction false} SizeGrows(ws: seq<Write>, size: (Key, Cell) -> nat, n: nat)
    requires n <= |ws|
    ensures TotalSize(ws[..n], size) <= TotalSize(ws, size)
    decreases |ws|
  {
    if n < |ws| {
      assert ws[..|ws| - 1][..n] == ws[..n];
      SizeGrows(ws[..|ws| - 1], size, n);
    } else {
      assert ws[..n] == ws;
    }
  }

  /** The snapshot loop gives up as soon as the byte budget is exceeded. */
  method SnapshotFits(ws: seq<Write>, size: (Key, Cell) -> nat) returns (ok: bool)
    ensures ok <==> TotalSize(ws, size) <= MAX_RESPONSE_BYTES
  {
    var bytes: nat := 0;
    for i := 0 to |ws|
      invariant bytes == TotalSize(ws[..i], size) <= MAX_RESPONSE_BYTES
    {
      assert ws[..i + 1][..i] == ws[..i];
      bytes := bytes + size(ws[i].key, ws[i].cell);
      if bytes > MAX_RESPONSE_BYTES {
        SizeGrows(ws, size, i + 1);
        return false;
      }
    }
    assert ws[..|ws|] == ws;
    return true;
  }

  method BuildSnapshot(m: Merged, req: PartialRequest, members: seq<string>, changes: seq<RowChange>) returns (r: PartialResponse)
    requires members == SortedSeq(MembersOf(m.state.cells, req.interest))
    requires changes == GroupRows(RowsCells(m.state.cells, MembersOf(m.state.cells, req.interest)))
    ensures r == Snapshot(m, req)
  {
    var evicted := DropKnown(req.known, members);
    r := PartialResponse(req.scope, req.version, members, evicted, m.response.(changes := changes, hasMore := false));
  }

  method FinishPartial(m: Merged, req: PartialRequest, env: Env) returns (res: Result<PartialMerged>)
    ensures res == ConcludePartial(m, req, env)
  {
    var members := ScopeMembers(m.state.cells, req.interest);
    if |members| > req.interest.limit { return Err; }
    var changes := SnapshotRows(m.state.cells, req.interest, members);
    var ws := Flatten(changes);
    var fits := SnapshotFits(ws, env.size);
    if !fits { return Err; }
    var r := BuildSnapshot(m, req, members, changes);
    var ok := CheckPartialResponse(r, env.schema);
    if !ok { return Err; }
    return Ok(PartialMerged(m.state, r));
  }

  method SnapshotRows(cells: map<Key, Cell>, interest: Interest, members: seq<string>) returns (changes: seq<RowChange>)
    requires members == SortedSeq(MembersOf(cells, interest))
    ensures changes == GroupRows(RowsCells(cells, MembersOf(cells, interest)))
  {
    var kept := map k | k in cells && k.row in members :: cells[k];
    assert kept == RowsCells(cells, MembersOf(cells, interest));
    changes := GroupIntoRows(kept);
  }

  method PartialCopy(s: State, req: PartialRequest, device: string, env: Env) returns (res: Result<PartialMerged>)
    requires Valid(s)
    ensures res == MergePartial(s, req, device, env)
  {
    var ok := CheckPartialRequest(req, device, env.schema);
    if !ok { return Err; }
    var merged := MergeCopy(s, req.sync, device, ALLOW_ALL, env);
    if merged.Err? { return Err; }
    res := FinishPartial(merged.value, req, env);
  }

  // --- The object ------------------------------------------------------

  /** A merge installs the merged state and answers, or fails and changes nothing. */
  ghost predicate Installed(before: State, m: Result<Merged>, after: State, res: Result<SyncPayload>) {
    match m
    case Ok(x) => after == x.state && res == Ok(x.response)
    case Err => after == before && res == Err
  }

  ghost predicate InstalledPartial(before: State, m: Result<PartialMerged>, after: State, res: Result<PartialResponse>) {
    match m
    case Ok(x) => after == x.state && res == Ok(x.response)
    case Err => after == before && res == Err
  }

  class CrdtState {
    var lamport: nat
    var cells: map<Key, Cell>
    var seqNo: nat
    var cellSeq: map<Key, nat>
    var issued: map<string, int>
    const env: Env

    ghost function View(): State
      reads this
    {
      State(lamport, cells, seqNo, cellSeq, issued)
    }

    constructor (env: Env)
      ensures View() == EMPTY && Valid(View()) && this.env == env
    {
      this.env := env;
      lamport, cells, seqNo, cellSeq, issued := 0, map[], 0, map[], map[];
    }

    method Install(s: State)
      modifies this
      ensures View() == s
    {
      lamport, cells, seqNo, cellSeq, issued := s.lamport, s.cells, s.seqNo, s.cellSeq, s.issued;
    }

    method MergeWithSecurity(p: SyncPayload, device: string, sec: Security) returns (res: Result<SyncPayload>)
      requires Valid(View())
      modifies this
      ensures Valid(View())
      ensures Installed(old(View()), Merge(old(View()), p, device, sec, env), View(), res)
    {
      var merged := MergeCopy(State(lamport, cells, seqNo, cellSeq, issued), p, device, sec, env);
      if merged.Err? { return Err; }
      MergeGrows(View(), p, device, sec, env);
      Install(merged.value.state);
      return Ok(merged.value.response);
    }

    method MergePartialReplica(req: PartialRequest, device: string) returns (res: Result<PartialResponse>)
      requires Valid(View())
      modifies this
      ensures Valid(View())
      ensures InstalledPartial(old(View()), MergePartial(old(View()), req, device, env), View(), res)
    {
      var merged := PartialCopy(State(lamport, cells, seqNo, cellSeq, issued), req, device, env);
      if merged.Err? { return Err; }
      PartialValid(View(), req, device, env);
      Install(merged.value.state);
      return Ok(merged.value.response);
    }
  }

  lemma PartialValid(s: State, req: PartialRequest, device: string, env: Env)
    requires Valid(s) && MergePartial(s, req, device, env).Ok?
    ensures Valid(MergePartial(s, req, device, env).value.state)
  {
    MergeGrows(s, req.sync, device, ALLOW_ALL, env);
  }
}
