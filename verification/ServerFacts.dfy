/** What one successful merge does to the reference server and what it answers. */
module ServerFacts {
  import opened Names
  import opened Cells
  import opened Payload
  import opened Server

  // --- Growth ----------------------------------------------------------

  /** Cell `k` of `t` was written after `s`, or is exactly the cell of `s`. */
  ghost predicate NewerOrSame(s: State, t: State, k: Key) {
    k in t.cells && k in t.cellSeq &&
    (t.cellSeq[k] > s.seqNo
     || (k in s.cells && k in s.cellSeq && t.cells[k] == s.cells[k] && t.cellSeq[k] == s.cellSeq[k]))
  }

  /** `t` is a later state of the server `s`. */
  ghost predicate Grows(s: State, t: State) {
    && Below(s.cells, t.cells)
    && s.lamport <= t.lamport
    && s.seqNo <= t.seqNo
    && (forall k :: k in t.cells ==> NewerOrSame(s, t, k))
    && (forall d :: Issued(s, d) <= Issued(t, d))
  }

  lemma GrowsReflexive(s: State)
    requires Valid(s)
    ensures Grows(s, s)
  {
  }

  lemma GrowsTransitive(s: State, t: State, u: State)
    requires Valid(s) && Valid(t) && Valid(u) && Grows(s, t) && Grows(t, u)
    ensures Grows(s, u)
  {
    BelowTransitive(s.cells, t.cells, u.cells);
    forall k | k in u.cells ensures NewerOrSame(s, u, k) {
      assert NewerOrSame(t, u, k);
      if k in t.cells { assert NewerOrSame(s, t, k); }
    }
    forall d ensures Issued(s, d) <= Issued(u, d) {
      assert Issued(s, d) <= Issued(t, d) <= Issued(u, d);
    }
  }

  // --- Policy rulings --------------------------------------------------

  ghost predicate SoundRuling(who: Ruling) {
    && RecordsWrites(who)
    && (forall w, c :: who(w, c).Rejected? ==> ValidReason(who(w, c).rejection.reason))
    && (forall w, c :: who(w, c).Applied? ==> c.None? || Older(c.value.version, w.cell.version))
    && (forall w, c :: who(w, c).Superseded? || who(w, c).Idempotent? ==> c.Some? && AtMost(w.cell.version, c.value.version))
  }

  lemma RulingSound(sec: Security, device: string)
    ensures SoundRuling(RulingOf(sec, device))
  {
    var who := RulingOf(sec, device);
    forall w, c {:trigger who(w, c)} ensures who(w, c) == Judge(sec, device, w, c) {
    }
    forall w, c {:trigger who(w, c)}
      ensures who(w, c).Applied? ==> c.None? || Older(c.value.version, w.cell.version)
      ensures who(w, c).Superseded? || who(w, c).Idempotent? ==> c.Some? && AtMost(w.cell.version, c.value.version)
    {
      if c.Some? { VersionTotal(c.value.version, w.cell.version); }
    }
  }

  // --- The merged state ------------------------------------------------

  lemma AbsorbFacts(s: State, who: Ruling, changes: seq<RowChange>) returns (b: Acc)
    requires Valid(s) && DistinctRows(changes) && AbsorbAll(Start(s), who, Writes(changes)).Ok?
    ensures AbsorbAll(Start(s), who, Writes(changes)) == Ok(b)
    ensures Joined(Start(s), who, CellsOf(changes), b)
    ensures Indexed(b.cells, b.seqNo, b.cellSeq)
    ensures b.seqNo == s.seqNo + |AppliedKeys(s.cells, who, CellsOf(changes))|
  {
    WritesDistinct(changes);
    b := AbsorbAll(Start(s), who, Writes(changes)).value;
    AbsorbAllJoins(Start(s), who, Writes(changes));
    AbsorbAllIndexed(Start(s), who, Writes(changes));
  }

  lemma MergeUnfolds(s: State, p: SyncPayload, device: string, sec: Security, env: Env, b: Acc)
    requires Merge(s, p, device, sec, env).Ok?
    requires AbsorbAll(Start(s), RulingOf(sec, device), Writes(p.changes)) == Ok(b)
    ensures Merge(s, p, device, sec, env).value == Reply(s, b, Max(s.lamport, MaxObserved(p)) + 1, p, device, env)
  {
  }

  lemma MergeSucceeds(s: State, p: SyncPayload, d: string, sec: Security, env: Env)
    requires ValidRequest(p, d, env.schema) && MaxObserved(p) == p.lamport
    requires AbsorbAll(Start(s), RulingOf(sec, d), Writes(p.changes)).Ok?
    ensures Merge(s, p, d, sec, env).Ok? <==>
      ClockAdvanceOk(s.lamport, p.lamport) && Max(s.lamport, p.lamport) + 1 <= U64_MAX
  {
  }

  /** The state of a successful merge, with the loop's result named. */
  lemma MergeParts(s: State, p: SyncPayload, device: string, sec: Security, env: Env) returns (b: Acc, m: map<Key, Cell>)
    requires Valid(s) && Merge(s, p, device, sec, env).Ok?
    ensures ValidRequest(p, device, env.schema)
    ensures m == CellsOf(p.changes)
    ensures AbsorbAll(Start(s), RulingOf(sec, device), Writes(p.changes)) == Ok(b)
    ensures Joined(Start(s), RulingOf(sec, device), m, b)
    ensures Indexed(b.cells, b.seqNo, b.cellSeq)
    ensures b.seqNo == s.seqNo + |AppliedKeys(s.cells, RulingOf(sec, device), m)|
    ensures Merge(s, p, device, sec, env).value == Reply(s, b, Max(s.lamport, p.lamport) + 1, p, device, env)
  {
    m := CellsOf(p.changes);
    MergeAdmitted(s, p, device, sec, env);
    b := AbsorbFacts(s, RulingOf(sec, device), p.changes);
    MaxObservedIsSource(p);
    MergeUnfolds(s, p, device, sec, env, b);
  }

  lemma MergeAdmitted(s: State, p: SyncPayload, device: string, sec: Security, env: Env)
    requires Merge(s, p, device, sec, env).Ok?
    ensures ValidRequest(p, device, env.schema) && DistinctRows(p.changes)
    ensures AbsorbAll(Start(s), RulingOf(sec, device), Writes(p.changes)).Ok?
  {
  }

  lemma JoinGrows(s: State, who: Ruling, m: map<Key, Cell>, b: Acc)
    requires Joined(Start(s), who, m, b) && SoundRuling(who)
    ensures Below(s.cells, b.cells)
  {
    forall k | k in s.cells ensures Holds(b.cells, k, s.cells[k].version) {
      assert JoinedAt(Start(s), who, m, b, k);
    }
  }

  /** Each cell after a merge is the old one or the incoming one. */
  lemma MergeOrigin(s: State, p: SyncPayload, device: string, sec: Security, env: Env, k: Key)
    requires Valid(s) && Merge(s, p, device, sec, env).Ok?
    requires k in Merge(s, p, device, sec, env).value.state.cells
    ensures var c := Merge(s, p, device, sec, env).value.state.cells[k];
      (k in s.cells && c == s.cells[k]) || (k in CellsOf(p.changes) && c == CellsOf(p.changes)[k])
  {
    var b, m := MergeParts(s, p, device, sec, env);
    assert JoinedAt(Start(s), RulingOf(sec, device), m, b, k);
  }

  lemma PageCursor(cells: map<Key, Cell>, seqNo: nat, cellSeq: map<Key, nat>, cursor: int, env: Env)
    requires Indexed(cells, seqNo, cellSeq) && 0 <= cursor
    ensures var page := PageFrom(cells, seqNo, cellSeq, cursor, env);
      && 0 <= page.next <= Cap(seqNo)
      && |page.keys| <= MAX_RESPONSE_CELLS
      && (cursor <= Cap(seqNo) ==> cursor <= page.next)
      && forall k :: k in page.keys ==> k in cells
  {
    var feed := BySeq(Pending(cells, cellSeq, cursor), cellSeq);
    var n := PageEnd(feed, cells, env.size, 0, 0);
    if 0 < n { assert feed[n - 1] in feed; }
  }

  /** Installing a join under a clock above all cells is a step of a growing server. */
  lemma JoinedGrows(s: State, who: Ruling, m: map<Key, Cell>, b: Acc, lamport: nat, issued: map<string, int>)
    requires Valid(s) && Joined(Start(s), who, m, b) && Indexed(b.cells, b.seqNo, b.cellSeq)
    requires s.seqNo <= b.seqNo && s.lamport <= lamport && ClocksBelow(m, lamport) && Below(s.cells, b.cells)
    requires forall d :: d in issued ==> 0 <= issued[d] <= Cap(b.seqNo)
    requires forall d :: d in s.issued ==> d in issued && s.issued[d] <= issued[d]
    ensures var t := State(lamport, b.cells, b.seqNo, b.cellSeq, issued); Valid(t) && Grows(s, t)
  {
    var t := State(lamport, b.cells, b.seqNo, b.cellSeq, issued);
    forall k | k in t.cells ensures NewerOrSame(s, t, k) && t.cells[k].version.clock < t.lamport {
      assert JoinedAt(Start(s), who, m, b, k);
    }
    forall d ensures Issued(s, d) <= Issued(t, d) {
    }
  }

  lemma MergeGrows(s: State, p: SyncPayload, device: string, sec: Security, env: Env)
    requires Valid(s) && Merge(s, p, device, sec, env).Ok?
    ensures var t := Merge(s, p, device, sec, env).value.state;
      && Valid(t) && Grows(s, t)
      && t.lamport == Max(s.lamport, p.lamport) + 1
  {
    var b, m := MergeParts(s, p, device, sec, env);
    RulingSound(sec, device);
    JoinGrows(s, RulingOf(sec, device), m, b);
    ReplyGrows(s, RulingOf(sec, device), m, b, p, device, env);
  }

  lemma ReplyGrows(s: State, who: Ruling, m: map<Key, Cell>, b: Acc, p: SyncPayload, device: string, env: Env)
    requires Valid(s) && Joined(Start(s), who, m, b) && Indexed(b.cells, b.seqNo, b.cellSeq)
    requires s.seqNo <= b.seqNo && ClocksWithin(m, p.lamport) && Below(s.cells, b.cells) && 0 <= p.cursor
    ensures var t := Reply(s, b, Max(s.lamport, p.lamport) + 1, p, device, env).state; Valid(t) && Grows(s, t)
  {
    var t := Reply(s, b, Max(s.lamport, p.lamport) + 1, p, device, env).state;
    var cursor := EffectiveCursor(b.seqNo, Issued(s, device), p.cursor);
    PageCursor(b.cells, b.seqNo, b.cellSeq, cursor, env);
    IssuedGrows(s, b.seqNo, device, PageFrom(b.cells, b.seqNo, b.cellSeq, cursor, env).next, t.issued);
    JoinedGrows(s, who, m, b, t.lamport, t.issued);
  }

  lemma IssuedGrows(s: State, seqNo: nat, device: string, next: int, issued: map<string, int>)
    requires Valid(s) && s.seqNo <= seqNo && 0 <= next <= Cap(seqNo)
    requires issued == s.issued[device := if device in s.issued then Max(s.issued[device], next) else next]
    ensures forall d :: d in issued ==> 0 <= issued[d] <= Cap(seqNo)
    ensures forall d :: d in s.issued ==> d in issued && s.issued[d] <= issued[d]
  {
  }

  ghost predicate RejectedVersion(rs: seq<Rejection>, k: Key, v: Version) {
    exists r :: r in rs && r.key == k && r.cell.version == v
  }

  /** Every cell a request carries is afterwards held by the server or reported as rejected. */
  lemma MergeAccepts(s: State, p: SyncPayload, device: string, sec: Security, env: Env, k: Key)
    requires Valid(s) && Merge(s, p, device, sec, env).Ok? && k in CellsOf(p.changes)
    ensures var r := Merge(s, p, device, sec, env).value; var v := CellsOf(p.changes)[k].version;
      Holds(r.state.cells, k, v) || RejectedVersion(r.response.rejections, k, v)
  {
    var b, m := MergeParts(s, p, device, sec, env);
    var who, ws := RulingOf(sec, device), Writes(p.changes);
    RulingSound(sec, device);
    WritesDistinct(p.changes);
    AsMapMembers(ws);
    AbsorbAllJoins(Start(s), who, ws);
    AbsorbAllRejections(Start(s), who, ws);
    assert JoinedAt(Start(s), who, m, b, k);
    var w := Write(k, m[k]);
    assert w in ws;
    assert !JudgeIn(s.cells, who, w).Fault?;
    assert JudgeIn(s.cells, who, w) == who(w, Lookup(s.cells, k));
  }

  // --- The response ----------------------------------------------------

  /** A page starting at `cursor` carries every cell positioned in `(cursor, next]`. */
  lemma PageCovers(cells: map<Key, Cell>, seqNo: nat, cellSeq: map<Key, nat>, cursor: int, env: Env, k: Key)
    requires Indexed(cells, seqNo, cellSeq) && k in cells
    requires cursor < cellSeq[k] <= PageFrom(cells, seqNo, cellSeq, cursor, env).next
    ensures k in PageFrom(cells, seqNo, cellSeq, cursor, env).keys
  {
    var feed := BySeq(Pending(cells, cellSeq, cursor), cellSeq);
    FeedCovers(cells, seqNo, cellSeq, cursor, feed, PageEnd(feed, cells, env.size, 0, 0), k);
  }

  /** The first `n` cells of the feed include every cell positioned up to where they end. */
  lemma FeedCovers(cells: map<Key, Cell>, seqNo: nat, cellSeq: map<Key, nat>, cursor: int, feed: seq<Key>, n: nat, k: Key)
    requires Injective(cellSeq) && k in cells && k in cellSeq && feed == BySeq(Pending(cells, cellSeq, cursor), cellSeq)
    requires n <= |feed| && (n < |feed| ==> 0 < n)
    requires cursor < cellSeq[k] <= if n == |feed| then Cap(seqNo) else Cap(cellSeq[feed[n - 1]])
    ensures k in feed[..n]
  {
    assert k in Pending(cells, cellSeq, cursor);
    assert k in feed;
    if n < |feed| {
      FeedPrefix(feed, cellSeq, n, k);
    } else {
      assert feed[..n] == feed;
    }
  }

  /** The response carries server cells unchanged, and all of those it claims to cover. */
  lemma MergeResponse(s: State, p: SyncPayload, device: string, sec: Security, env: Env)
    requires Valid(s) && Merge(s, p, device, sec, env).Ok?
    ensures var Merged(t, r) := Merge(s, p, device, sec, env).value;
      && DistinctRows(r.changes)
      && |CellsOf(r.changes)| <= MAX_RESPONSE_CELLS
      && (forall k :: k in CellsOf(r.changes) ==> k in t.cells && CellsOf(r.changes)[k] == t.cells[k])
      && r.lamport == t.lamport
      && 0 <= r.cursor <= Issued(t, device)
  {
    var b, m := MergeParts(s, p, device, sec, env);
    var e := EffectiveCursor(b.seqNo, Issued(s, device), p.cursor);
    PageCursor(b.cells, b.seqNo, b.cellSeq, e, env);
    var page := PageFrom(b.cells, b.seqNo, b.cellSeq, e, env);
    GroupRowsRoundTrip(Restrict(b.cells, page.keys));
    RestrictSize(b.cells, page.keys);
  }

  lemma {:induction false} RestrictSize(cells: map<Key, Cell>, ks: seq<Key>)
    ensures |Restrict(cells, ks)| <= |ks|
  {
    var d := Restrict(cells, ks).Keys;
    ElementsSize(ks);
    assert d <= Elements(ks);
    SubsetSize(d, Elements(ks));
  }

  lemma {:induction false} ElementsSize<T>(ks: seq<T>)
    ensures |Elements(ks)| <= |ks|
  {
    if ks == [] {
      assert Elements(ks) == {};
    } else {
      var n := |ks| - 1;
      ElementsSize(ks[..n]);
      assert Elements(ks) == Elements(ks[..n]) + {ks[n]};
    }
  }

  ghost predicate Injective(cellSeq: map<Key, nat>) {
    forall j, k :: j in cellSeq && k in cellSeq && cellSeq[j] == cellSeq[k] ==> j == k
  }

  /** Along a feed a key lies after position `n - 1` exactly when its number is larger. */
  lemma FeedCut(f: seq<Key>, cellSeq: map<Key, nat>, n: nat, k: Key)
    requires SortedBy(f, cellSeq) && Distinct(f) && Injective(cellSeq) && 0 < n <= |f| && k in f
    ensures f[n - 1] in cellSeq && k in cellSeq
    ensures k in f[n..] <==> cellSeq[k] > cellSeq[f[n - 1]]
  {
    var j :| 0 <= j < |f| && f[j] == k;
    assert f[n - 1] in f;
    if n <= j {
      assert f[n..][j - n] == k;
      assert cellSeq[f[n - 1]] <= cellSeq[f[j]];
    }
  }

  /** The first `n` rows of a feed are those numbered up to its `n`-th. */
  lemma FeedPrefix(feed: seq<Key>, pos: map<Key, nat>, n: nat, k: Key)
    requires SortedBy(feed, pos) && Distinct(feed) && Injective(pos) && 0 < n <= |feed| && k in feed
    requires pos[k] <= pos[feed[n - 1]]
    ensures k in feed[..n]
  {
    FeedCut(feed, pos, n, k);
    assert feed == feed[..n] + feed[n..];
  }

  /** A feed is determined by its elements. */
  lemma {:induction false} FeedUnique(a: seq<Key>, b: seq<Key>, cellSeq: map<Key, nat>)
    requires SortedBy(a, cellSeq) && SortedBy(b, cellSeq) && Distinct(a) && Distinct(b) && Injective(cellSeq)
    requires forall k :: k in a <==> k in b
    ensures a == b
  {
    if a == [] {
      if b != [] {
        HeadIn(b);
        assert false;
      }
    } else {
      HeadIn(a);
      assert b != [];
      HeadIn(b);
      assert cellSeq[a[0]] == cellSeq[b[0]];
      forall k ensures k in a[1..] <==> k in b[1..] {
        TailMember(a, k);
        TailMember(b, k);
      }
      FeedUnique(a[1..], b[1..], cellSeq);
      assert a == [a[0]] + a[1..] && b == [b[0]] + b[1..];
    }
  }

  lemma TailMember(a: seq<Key>, k: Key)
    requires Distinct(a) && a != []
    ensures k in a[1..] <==> k in a && k != a[0]
  {
    if k in a && k != a[0] {
      var i :| 0 <= i < |a| && a[i] == k;
      assert a[1..][i - 1] == k;
    }
  }

  lemma MergeCovers(s: State, p: SyncPayload, device: string, sec: Security, env: Env, k: Key)
    requires Valid(s) && Merge(s, p, device, sec, env).Ok?
    requires CursorValid(s.seqNo, Issued(s, device), p.cursor)
    requires var Merged(t, r) := Merge(s, p, device, sec, env).value;
      k in t.cells && k in t.cellSeq && p.cursor < t.cellSeq[k] <= r.cursor
    ensures k in CellsOf(Merge(s, p, device, sec, env).value.response.changes)
    ensures !Merge(s, p, device, sec, env).value.response.cursorReset
  {
    var b, m := MergeParts(s, p, device, sec, env);
    PageCovers(b.cells, b.seqNo, b.cellSeq, p.cursor, env, k);
    var page := PageFrom(b.cells, b.seqNo, b.cellSeq, p.cursor, env);
    GroupRowsRoundTrip(Restrict(b.cells, page.keys));
  }

  /** A cursor the server once issued to the device is never reset. */
  lemma MergeNoReset(s: State, p: SyncPayload, device: string, sec: Security, env: Env)
    requires Valid(s) && Merge(s, p, device, sec, env).Ok?
    requires CursorValid(s.seqNo, Issued(s, device), p.cursor)
    ensures !Merge(s, p, device, sec, env).value.response.cursorReset
  {
    var b, m := MergeParts(s, p, device, sec, env);
  }

  lemma MergeStored(s: State, p: SyncPayload, device: string, sec: Security, env: Env)
    requires Valid(s) && Merge(s, p, device, sec, env).Ok? && ValidCells(env.schema, s.cells)
    ensures ValidCells(env.schema, Merge(s, p, device, sec, env).value.state.cells)
  {
    ValidRowsCells(env.schema, p.changes);
    forall k | k in Merge(s, p, device, sec, env).value.state.cells
      ensures ValidIdentifier(k.row) && ValidCell(env.schema, k, Merge(s, p, device, sec, env).value.state.cells[k])
    {
      MergeOrigin(s, p, device, sec, env, k);
    }
  }

  lemma MergeRejections(s: State, p: SyncPayload, device: string, sec: Security, env: Env)
    requires Valid(s) && Merge(s, p, device, sec, env).Ok?
    ensures var rs := Merge(s, p, device, sec, env).value.response.rejections;
      && |rs| <= MAX_PAYLOAD_CELLS
      && forall r :: r in rs ==>
           && ValidRejection(env.schema, r) && r.cell.version.clock <= p.lamport
           && r.key in CellsOf(p.changes) && CellsOf(p.changes)[r.key] == r.cell
  {
    var b, m := MergeParts(s, p, device, sec, env);
    var who, ws := RulingOf(sec, device), Writes(p.changes);
    RulingSound(sec, device);
    WritesDistinct(p.changes);
    AsMapMembers(ws);
    AbsorbAllRejections(Start(s), who, ws);
    ValidRowsCells(env.schema, p.changes);
    forall r | r in b.rejections
      ensures ValidRejection(env.schema, r) && r.cell.version.clock <= p.lamport
      ensures r.key in m && m[r.key] == r.cell
    {
      var w := Write(r.key, r.cell);
      assert w in ws;
      assert JudgeIn(s.cells, who, w) == who(w, Lookup(s.cells, r.key));
    }
  }

  /** The response of a merge that succeeds passes the client's checks exactly when both clocks
      it saw leave room for one more storable tick; the merge itself only needs 64 bits. */
  lemma MergeResponseValid(s: State, p: SyncPayload, device: string, sec: Security, env: Env)
    requires Valid(s) && Merge(s, p, device, sec, env).Ok? && ValidCells(env.schema, s.cells)
    requires ValidIdentifier(SERVER_DEVICE)
    ensures ValidResponse(Merge(s, p, device, sec, env).value.response, env.schema) <==> Max(s.lamport, p.lamport) < I64_MAX
  {
    var Merged(t, r) := Merge(s, p, device, sec, env).value;
    MergeStored(s, p, device, sec, env);
    MergeGrows(s, p, device, sec, env);
    MergeRejections(s, p, device, sec, env);
    var b, m := MergeParts(s, p, device, sec, env);
    var e := EffectiveCursor(b.seqNo, Issued(s, device), p.cursor);
    PageCursor(b.cells, b.seqNo, b.cellSeq, e, env);
    GroupedResponseValid(r, env.schema, t.cells, PageFrom(b.cells, b.seqNo, b.cellSeq, e, env).keys);
  }

  /** A request without changes is always absorbed. */
  function EmptyRequest(device: string, t: Schema): SyncPayload {
    SyncPayload(PROTOCOL, t.fingerprint, device, 0, [], 0, false, false, None, None, [])
  }

  /** A merge may succeed with an answer that no client accepts: at the last storable clock
      value even an empty request is merged, and its answer is refused. */
  lemma AnswerRefusedAtLastClock(device: string, env: Env)
    requires ValidIdentifier(device) && device != SERVER_DEVICE
    ensures var s := State(I64_MAX, map[], 0, map[], map[]);
      var r := Merge(s, EmptyRequest(device, env.schema), device, ALLOW_ALL, env);
      Valid(s) && r.Ok? && !ValidResponse(r.value.response, env.schema)
  {
    var s, p := State(I64_MAX, map[], 0, map[], map[]), EmptyRequest(device, env.schema);
    EmptyRequestValid(device, env.schema);
    assert Writes(p.changes) == [];
    MergeSucceeds(s, p, device, ALLOW_ALL, env);
    ServerIdentifier();
    MergeResponseValid(s, p, device, ALLOW_ALL, env);
  }

  lemma EmptyRequestValid(device: string, t: Schema)
    requires ValidIdentifier(device) && device != SERVER_DEVICE
    ensures ValidRequest(EmptyRequest(device, t), device, t) && MaxObserved(EmptyRequest(device, t)) == 0
  {
    var p := EmptyRequest(device, t);
    assert RowIds(map[]) == {};
    assert p.changes == GroupRows(map[]);
    GroupedRequestValid(p, device, t, map[]);
    MaxObservedIsSource(p);
  }

  lemma GroupedResponseValid(r: SyncPayload, t: Schema, cells: map<Key, Cell>, ks: seq<Key>)
    requires r.changes == GroupRows(Restrict(cells, ks)) && |ks| <= MAX_RESPONSE_CELLS
    requires ValidCells(t, cells) && ClocksBelow(cells, r.lamport)
    requires MIN_PROTOCOL <= r.protocol <= PROTOCOL && r.fingerprint == t.fingerprint
    requires r.source == SERVER_DEVICE && ValidIdentifier(SERVER_DEVICE)
    requires 0 <= r.cursor && OptionalIdentifier(r.token) && OptionalIdentifier(r.epoch)
    requires |r.rejections| <= MAX_PAYLOAD_CELLS
    requires forall x :: x in r.rejections ==> ValidRejection(t, x) && x.cell.version.clock <= r.lamport
    ensures ValidResponse(r, t) <==> r.lamport <= I64_MAX
  {
    var m := Restrict(cells, ks);
    RestrictSize(cells, ks);
    RowIdsSize(m);
    assert ValidHeader(r, t) <==> r.lamport <= I64_MAX;
    RestrictValid(t, cells, ks, r.lamport);
    GroupRowsRoundTrip(m);
    GroupedValid(r, t, m);
  }

  lemma RestrictValid(t: Schema, cells: map<Key, Cell>, ks: seq<Key>, bound: nat)
    requires ValidCells(t, cells) && ClocksBelow(cells, bound)
    ensures ValidCells(t, Restrict(cells, ks)) && ClocksWithin(Restrict(cells, ks), bound)
  {
  }

  lemma {:induction false} RowIdsSize(m: map<Key, Cell>)
    ensures |RowIds(m)| <= |m|
    decreases |m|
  {
    if m == map[] {
      assert RowIds(m) == {};
    } else {
      var k :| k in m;
      var rest := m - {k};
      assert rest.Keys == m.Keys - {k};
      assert |rest| == |m| - 1;
      RowIdsSize(rest);
      assert RowIds(m) == RowIds(rest) + {k.row};
    }
  }
}
