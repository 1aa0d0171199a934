/** Laws of sequences of merges: what delivery order, repetition and policy can change. */
module MergeLaws {
  import opened Names
  import opened Cells
  import opened Payload
  import opened Server
  import opened ServerFacts

  // --- One policy-checked merge is a filtered join ---------------------

  /** Both hooks allow the cell, given the current one. */
  predicate Admits(sec: Security, device: string, k: Key, incoming: Cell, current: Option<Cell>) {
    sec.authorize(device, k, incoming, current).Allow? && sec.validate(device, k, incoming, current).Allow?
  }

  /** The newer of the current and the incoming cell. */
  function Newest(current: Option<Cell>, incoming: Cell): Cell {
    if current.None? || Older(current.value.version, incoming.version) then incoming else current.value
  }

  ghost function FilteredJoin(cells: map<Key, Cell>, m: map<Key, Cell>, sec: Security, device: string, k: Key): Option<Cell> {
    if k in m && Admits(sec, device, k, m[k], Lookup(cells, k)) then Some(Newest(Lookup(cells, k), m[k]))
    else Lookup(cells, k)
  }

  lemma JudgedJoin(sec: Security, device: string, w: Write, current: Option<Cell>)
    requires !Judge(sec, device, w, current).Fault?
    ensures var v := Judge(sec, device, w, current);
      && (v.Applied? <==> Admits(sec, device, w.key, w.cell, current) && (current.None? || Older(current.value.version, w.cell.version)))
      && (v.Rejected? <==> !Admits(sec, device, w.key, w.cell, current))
      && (v.Superseded? ==> current.Some? && Older(w.cell.version, current.value.version))
      && (v.Idempotent? ==> current == Some(w.cell))
  {
    if current.Some? { VersionTotal(current.value.version, w.cell.version); }
  }

  lemma PayloadJudged(s: State, p: SyncPayload, device: string, sec: Security, env: Env, k: Key)
    requires Valid(s) && Merge(s, p, device, sec, env).Ok? && k in CellsOf(p.changes)
    ensures !Judge(sec, device, Write(k, CellsOf(p.changes)[k]), Lookup(s.cells, k)).Fault?
  {
    var ws := Writes(p.changes);
    var b, m := MergeParts(s, p, device, sec, env);
    WritesDistinct(p.changes);
    AsMapMembers(ws);
    AbsorbAllJoins(Start(s), RulingOf(sec, device), ws);
    assert Write(k, m[k]) in ws;
    assert !JudgeIn(s.cells, RulingOf(sec, device), Write(k, m[k])).Fault?;
  }

  /** For any hooks, a successful merge stores, at every key, the last-writer-wins join of
      the old cell with the incoming one when both hooks admit it, and the old cell otherwise. */
  lemma MergeIsFilteredJoin(s: State, p: SyncPayload, device: string, sec: Security, env: Env, k: Key)
    requires Valid(s) && Merge(s, p, device, sec, env).Ok?
    ensures Lookup(Merge(s, p, device, sec, env).value.state.cells, k) ==
      FilteredJoin(s.cells, CellsOf(p.changes), sec, device, k)
  {
    var b, m := MergeParts(s, p, device, sec, env);
    assert JoinedAt(Start(s), RulingOf(sec, device), m, b, k);
    if k in m {
      PayloadJudged(s, p, device, sec, env, k);
      JudgedJoin(sec, device, Write(k, m[k]), Lookup(s.cells, k));
    }
  }

  /** The cells that change are exactly the admitted ones newer than what was stored,
      and the feed counter grows by their number. */
  lemma MergeCountsApplied(s: State, p: SyncPayload, device: string, sec: Security, env: Env)
    requires Valid(s) && Merge(s, p, device, sec, env).Ok?
    ensures var m := CellsOf(p.changes);
      var applied := set k | k in m && Admits(sec, device, k, m[k], Lookup(s.cells, k)) && Newest(Lookup(s.cells, k), m[k]) == m[k]
                              && Lookup(s.cells, k) != Some(m[k]);
      Merge(s, p, device, sec, env).value.state.seqNo == s.seqNo + |applied|
  {
    var b, m := MergeParts(s, p, device, sec, env);
    var applied := set k | k in m && Admits(sec, device, k, m[k], Lookup(s.cells, k)) && Newest(Lookup(s.cells, k), m[k]) == m[k]
                            && Lookup(s.cells, k) != Some(m[k]);
    forall k ensures k in applied <==> k in AppliedKeys(s.cells, RulingOf(sec, device), m) {
      if k in m {
        PayloadJudged(s, p, device, sec, env, k);
        JudgedJoin(sec, device, Write(k, m[k]), Lookup(s.cells, k));
        if Lookup(s.cells, k).Some? { VersionTotal(s.cells[k].version, m[k].version); }
      }
    }
    assert applied == AppliedKeys(s.cells, RulingOf(sec, device), m);
  }

  /** A cell comes back as rejected exactly when a hook denied it. */
  lemma RejectedExactlyDenied(s: State, p: SyncPayload, device: string, sec: Security, env: Env, k: Key)
    requires Valid(s) && Merge(s, p, device, sec, env).Ok? && k in CellsOf(p.changes)
    ensures var c := CellsOf(p.changes)[k];
      RejectedVersion(Merge(s, p, device, sec, env).value.response.rejections, k, c.version) <==>
        !Admits(sec, device, k, c, Lookup(s.cells, k))
  {
    var b, m := MergeParts(s, p, device, sec, env);
    var who, ws, w := RulingOf(sec, device), Writes(p.changes), Write(k, m[k]);
    PayloadJudged(s, p, device, sec, env, k);
    JudgedJoin(sec, device, w, Lookup(s.cells, k));
    RulingSound(sec, device);
    WritesDistinct(p.changes);
    AsMapMembers(ws);
    AbsorbAllRejections(Start(s), who, ws);
    assert w in ws;
    RejectionFound(Start(s), who, ws, b.rejections, w);
  }

  /** The first hook that denies the cell, and what it says: the authorizer is asked before the validator. */
  function Denial(sec: Security, device: string, k: Key, incoming: Cell, current: Option<Cell>): Option<(RejectionKind, string)> {
    match sec.authorize(device, k, incoming, current)
    case Deny(kind, reason) => Some((kind, reason))
    case Fail => None
    case Allow =>
      match sec.validate(device, k, incoming, current)
      case Deny(kind, reason) => Some((kind, reason))
      case _ => None
  }

  /** The rejection records are exactly the denied cells, each with the kind and reason of the first denial. */
  lemma RejectionsAreDenials(s: State, p: SyncPayload, device: string, sec: Security, env: Env, r: Rejection)
    requires Valid(s) && Merge(s, p, device, sec, env).Ok?
    ensures r in Merge(s, p, device, sec, env).value.response.rejections <==>
      var m := CellsOf(p.changes);
      r.key in m && m[r.key] == r.cell && Denial(sec, device, r.key, r.cell, Lookup(s.cells, r.key)) == Some((r.kind, r.reason))
  {
    var b, m := MergeParts(s, p, device, sec, env);
    var who, ws := RulingOf(sec, device), Writes(p.changes);
    RulingSound(sec, device);
    WritesDistinct(p.changes);
    AsMapMembers(ws);
    AbsorbAllRejections(Start(s), who, ws);
    if r.key in m && m[r.key] == r.cell { PayloadJudged(s, p, device, sec, env, r.key); }
    RecordFound(s.cells, sec, device, ws, b.rejections, r);
  }

  lemma RecordFound(cells: map<Key, Cell>, sec: Security, device: string, ws: seq<Write>, rs: seq<Rejection>, r: Rejection)
    requires DistinctKeys(ws) && RejectionsMatch(Acc(cells, 0, map[], []), RulingOf(sec, device), ws, rs)
    requires Write(r.key, r.cell) in ws ==> !Judge(sec, device, Write(r.key, r.cell), Lookup(cells, r.key)).Fault?
    ensures r in rs <==>
      Write(r.key, r.cell) in ws && Denial(sec, device, r.key, r.cell, Lookup(cells, r.key)) == Some((r.kind, r.reason))
  {
    var who, w := RulingOf(sec, device), Write(r.key, r.cell);
    assert JudgeIn(cells, who, w) == Judge(sec, device, w, Lookup(cells, r.key));
    if w in ws {
      var i :| 0 <= i < |ws| && ws[i] == w;
      DeniedRecord(sec, device, w, Lookup(cells, r.key), r);
    }
  }

  lemma DeniedRecord(sec: Security, device: string, w: Write, current: Option<Cell>, r: Rejection)
    requires !Judge(sec, device, w, current).Fault? && r.key == w.key && r.cell == w.cell
    ensures Judge(sec, device, w, current) == Rejected(r) <==> Denial(sec, device, w.key, w.cell, current) == Some((r.kind, r.reason))
  {
  }

  lemma RejectionFound(a: Acc, who: Ruling, ws: seq<Write>, rs: seq<Rejection>, w: Write)
    requires RecordsWrites(who) && DistinctKeys(ws) && RejectionsMatch(a, who, ws, rs) && w in ws
    ensures RejectedVersion(rs, w.key, w.cell.version) <==> JudgeIn(a.cells, who, w).Rejected?
  {
    var i :| 0 <= i < |ws| && ws[i] == w;
    if JudgeIn(a.cells, who, w).Rejected? {
      assert JudgeIn(a.cells, who, ws[i]).rejection in rs;
    }
    if r :| r in rs && r.key == w.key && r.cell.version == w.cell.version {
      assert Write(r.key, r.cell) in ws;
      var j :| 0 <= j < |ws| && ws[j] == Write(r.key, r.cell);
      assert i == j;
    }
  }

  lemma NoFaultSame(cells: map<Key, Cell>, who: Ruling, xs: seq<Write>, ys: seq<Write>)
    requires DistinctKeys(xs) && DistinctKeys(ys) && AsMap(xs) == AsMap(ys) && NoFault(cells, who, xs)
    ensures NoFault(cells, who, ys)
  {
    AsMapMembers(xs);
    AsMapMembers(ys);
    forall i | 0 <= i < |ys| ensures !JudgeIn(cells, who, ys[i]).Fault? {
      assert ys[i] in ys;
      assert Write(ys[i].key, AsMap(xs)[ys[i].key]) in xs;
    }
  }

  /** The visiting order of a request's cells is irrelevant to whether it is accepted and to what is stored. */
  lemma VisitOrderIrrelevant(a: Acc, who: Ruling, xs: seq<Write>, ys: seq<Write>)
    requires DistinctKeys(xs) && DistinctKeys(ys) && AsMap(xs) == AsMap(ys)
    ensures AbsorbAll(a, who, xs).Ok? <==> AbsorbAll(a, who, ys).Ok?
    ensures AbsorbAll(a, who, xs).Ok? ==>
      AbsorbAll(a, who, xs).value.cells == AbsorbAll(a, who, ys).value.cells &&
      AbsorbAll(a, who, xs).value.seqNo == AbsorbAll(a, who, ys).value.seqNo
  {
    AbsorbAllJoins(a, who, xs);
    AbsorbAllJoins(a, who, ys);
    if NoFault(a.cells, who, xs) { NoFaultSame(a.cells, who, xs, ys); }
    if NoFault(a.cells, who, ys) { NoFaultSame(a.cells, who, ys, xs); }
    if AbsorbAll(a, who, xs).Ok? {
      var b, c := AbsorbAll(a, who, xs).value, AbsorbAll(a, who, ys).value;
      JoinsAgree(a, who, AsMap(xs), b, c);
    }
  }

  lemma JoinsAgree(a: Acc, who: Ruling, m: map<Key, Cell>, b: Acc, c: Acc)
    requires Joined(a, who, m, b) && Joined(a, who, m, c)
    ensures b.cells == c.cells
  {
    forall k ensures Lookup(b.cells, k) == Lookup(c.cells, k) {
      assert JoinedAt(a, who, m, b, k) && JoinedAt(a, who, m, c, k);
    }
    LookupEqual(b.cells, c.cells);
  }

  // --- Sequences of merges --------------------------------------------

  datatype Delivery = Delivery(payload: SyncPayload, sec: Security)

  /** Merge each payload in turn, each under its own policy; every merge must succeed. */
  ghost function MergeAll(s: State, ds: seq<Delivery>, env: Env): Result<State>
    decreases |ds|
  {
    if ds == [] then Ok(s)
    else
      match MergeAll(s, ds[..|ds| - 1], env)
      case Err => Err
      case Ok(t) =>
        var d := ds[|ds| - 1];
        match Merge(t, d.payload, d.payload.source, d.sec, env)
        case Err => Err
        case Ok(m) => Ok(m.state)
  }

  /** No merge of the sequence rejects a cell. */
  ghost predicate NoRejections(s: State, ds: seq<Delivery>, env: Env)
    decreases |ds|
  {
    ds == [] ||
    (var n := |ds| - 1;
     && NoRejections(s, ds[..n], env)
     && var r := MergeAll(s, ds[..n], env);
        r.Ok? && var m := Merge(r.value, ds[n].payload, ds[n].payload.source, ds[n].sec, env);
        m.Ok? && m.value.response.rejections == [])
  }

  /** The stored cell at `k` is `c` itself or strictly newer. */
  ghost predicate Dominates(cells: map<Key, Cell>, k: Key, c: Cell) {
    k in cells && (cells[k] == c || Older(c.version, cells[k].version))
  }

  /** A merge never goes back: dominated cells stay dominated. */
  lemma DominatesKept(s: State, p: SyncPayload, device: string, sec: Security, env: Env, k: Key, c: Cell)
    requires Valid(s) && Merge(s, p, device, sec, env).Ok? && Dominates(s.cells, k, c)
    ensures Dominates(Merge(s, p, device, sec, env).value.state.cells, k, c)
  {
    MergeIsFilteredJoin(s, p, device, sec, env, k);
    if k in CellsOf(p.changes) {
      var n := CellsOf(p.changes)[k].version;
      if Older(c.version, s.cells[k].version) && Older(s.cells[k].version, n) {
        VersionTransitive(c.version, s.cells[k].version, n);
      }
    }
  }

  /** A cell that was merged and not rejected is dominated afterwards. */
  lemma MergedDominated(s: State, p: SyncPayload, device: string, sec: Security, env: Env, k: Key)
    requires Valid(s) && Merge(s, p, device, sec, env).Ok? && k in CellsOf(p.changes)
    requires Merge(s, p, device, sec, env).value.response.rejections == []
    ensures Dominates(Merge(s, p, device, sec, env).value.state.cells, k, CellsOf(p.changes)[k])
  {
    var c := CellsOf(p.changes)[k];
    MergeIsFilteredJoin(s, p, device, sec, env, k);
    RejectedExactlyDenied(s, p, device, sec, env, k);
    PayloadJudged(s, p, device, sec, env, k);
    JudgedJoin(sec, device, Write(k, c), Lookup(s.cells, k));
  }

  ghost function Payloads(ds: seq<Delivery>): set<SyncPayload> {
    set d | d in ds :: d.payload
  }

  ghost predicate HasCell(p: SyncPayload, k: Key, c: Cell) {
    k in CellsOf(p.changes) && CellsOf(p.changes)[k] == c
  }

  ghost predicate Delivers(ps: set<SyncPayload>, k: Key, c: Cell) {
    exists p :: p in ps && HasCell(p, k, c)
  }

  lemma PayloadsExtend(ds: seq<Delivery>)
    requires ds != []
    ensures Payloads(ds) == Payloads(ds[..|ds| - 1]) + {ds[|ds| - 1].payload}
  {
    var n := |ds| - 1;
    assert ds == ds[..n] + [ds[n]];
  }

  lemma {:induction false} MergeAllValid(s: State, ds: seq<Delivery>, env: Env)
    requires Valid(s) && MergeAll(s, ds, env).Ok?
    ensures Valid(MergeAll(s, ds, env).value)
    decreases |ds|
  {
    if ds != [] {
      var n := |ds| - 1;
      MergeAllValid(s, ds[..n], env);
      MergeGrows(MergeAll(s, ds[..n], env).value, ds[n].payload, ds[n].payload.source, ds[n].sec, env);
    }
  }

  /** The last merge of a successful sequence. */
  lemma LastMerge(s: State, ds: seq<Delivery>, env: Env) returns (t: State)
    requires Valid(s) && ds != [] && MergeAll(s, ds, env).Ok?
    ensures MergeAll(s, ds[..|ds| - 1], env) == Ok(t) && Valid(t)
    ensures var d := ds[|ds| - 1];
      && Merge(t, d.payload, d.payload.source, d.sec, env).Ok?
      && MergeAll(s, ds, env).value == Merge(t, d.payload, d.payload.source, d.sec, env).value.state
  {
    t := MergeAll(s, ds[..|ds| - 1], env).value;
    MergeAllValid(s, ds[..|ds| - 1], env);
  }

  /** After an unrejected sequence every delivered or initial cell is dominated. */
  lemma {:induction false} SequenceDominates(s: State, ds: seq<Delivery>, env: Env, k: Key, c: Cell)
    requires Valid(s) && MergeAll(s, ds, env).Ok? && NoRejections(s, ds, env)
    requires Delivers(Payloads(ds), k, c) || (k in s.cells && s.cells[k] == c)
    ensures Dominates(MergeAll(s, ds, env).value.cells, k, c)
    decreases |ds|
  {
    if ds != [] {
      var n := |ds| - 1;
      PayloadsExtend(ds);
      MergeAllValid(s, ds[..n], env);
      if HasCell(ds[n].payload, k, c) {
        MergedDominated(MergeAll(s, ds[..n], env).value, ds[n].payload, ds[n].payload.source, ds[n].sec, env, k);
      } else {
        SequenceDominates(s, ds[..n], env, k, c);
        DominatesKept(MergeAll(s, ds[..n], env).value, ds[n].payload, ds[n].payload.source, ds[n].sec, env, k, c);
      }
    }
  }

  /** Every cell after a sequence was there initially or was delivered by it. */
  lemma {:induction false} SequenceOrigin(s: State, ds: seq<Delivery>, env: Env, k: Key)
    requires Valid(s) && MergeAll(s, ds, env).Ok? && k in MergeAll(s, ds, env).value.cells
    ensures var c := MergeAll(s, ds, env).value.cells[k];
      Delivers(Payloads(ds), k, c) || (k in s.cells && s.cells[k] == c)
    decreases |ds|
  {
    if ds != [] {
      var n := |ds| - 1;
      var c := MergeAll(s, ds, env).value.cells[k];
      PayloadsExtend(ds);
      MergeAllValid(s, ds[..n], env);
      MergeOrigin(MergeAll(s, ds[..n], env).value, ds[n].payload, ds[n].payload.source, ds[n].sec, env, k);
      if HasCell(ds[n].payload, k, c) {
        assert ds[n].payload in Payloads(ds);
      } else {
        SequenceOrigin(s, ds[..n], env, k);
      }
    }
  }

  lemma SequenceBelow(s: State, xs: seq<Delivery>, ys: seq<Delivery>, env: Env, k: Key)
    requires Valid(s) && Payloads(xs) == Payloads(ys)
    requires MergeAll(s, xs, env).Ok? && MergeAll(s, ys, env).Ok? && NoRejections(s, ys, env)
    requires k in MergeAll(s, xs, env).value.cells
    ensures Dominates(MergeAll(s, ys, env).value.cells, k, MergeAll(s, xs, env).value.cells[k])
  {
    SequenceOrigin(s, xs, env, k);
    SequenceDominates(s, ys, env, k, MergeAll(s, xs, env).value.cells[k]);
  }

  ghost predicate AllDominated(a: map<Key, Cell>, b: map<Key, Cell>) {
    forall k :: k in a ==> Dominates(b, k, a[k])
  }

  lemma MutuallyDominated(a: map<Key, Cell>, b: map<Key, Cell>)
    requires AllDominated(a, b) && AllDominated(b, a)
    ensures a == b
  {
    forall k | k in a ensures k in b && a[k] == b[k] {
      assert Dominates(b, k, a[k]) && Dominates(a, k, b[k]);
      VersionTotal(a[k].version, b[k].version);
    }
    assert forall k :: k in b ==> Dominates(a, k, b[k]);
  }

  lemma SequenceAllBelow(s: State, xs: seq<Delivery>, ys: seq<Delivery>, env: Env)
    requires Valid(s) && Payloads(xs) == Payloads(ys)
    requires MergeAll(s, xs, env).Ok? && MergeAll(s, ys, env).Ok? && NoRejections(s, ys, env)
    ensures AllDominated(MergeAll(s, xs, env).value.cells, MergeAll(s, ys, env).value.cells)
  {
    forall k | k in MergeAll(s, xs, env).value.cells
      ensures Dominates(MergeAll(s, ys, env).value.cells, k, MergeAll(s, xs, env).value.cells[k])
    {
      SequenceBelow(s, xs, ys, env, k);
    }
  }

  /** Order and duplication independence: from one state, any two fully successful sequences
      that deliver the same payloads, in any order and multiplicity, store the same cells.
      Nothing is assumed about versions: two values under one version make a merge fail. */
  lemma DeliveryOrderIrrelevant(s: State, xs: seq<Delivery>, ys: seq<Delivery>, env: Env)
    requires Valid(s) && Payloads(xs) == Payloads(ys)
    requires MergeAll(s, xs, env).Ok? && MergeAll(s, ys, env).Ok?
    requires NoRejections(s, xs, env) && NoRejections(s, ys, env)
    ensures MergeAll(s, xs, env).value.cells == MergeAll(s, ys, env).value.cells
  {
    SequenceAllBelow(s, xs, ys, env);
    SequenceAllBelow(s, ys, xs, env);
    MutuallyDominated(MergeAll(s, xs, env).value.cells, MergeAll(s, ys, env).value.cells);
  }

  // --- Replay ----------------------------------------------------------

  /** What is dominated in `a` is dominated in `b`. */
  ghost predicate KeepsDominated(a: map<Key, Cell>, b: map<Key, Cell>) {
    forall k, c :: Dominates(a, k, c) ==> Dominates(b, k, c)
  }

  lemma MergeKeepsDominated(a: map<Key, Cell>, s: State, d: Delivery, env: Env)
    requires KeepsDominated(a, s.cells) && Valid(s) && Merge(s, d.payload, d.payload.source, d.sec, env).Ok?
    ensures KeepsDominated(a, Merge(s, d.payload, d.payload.source, d.sec, env).value.state.cells)
  {
    forall k, c | Dominates(a, k, c)
      ensures Dominates(Merge(s, d.payload, d.payload.source, d.sec, env).value.state.cells, k, c)
    {
      DominatesKept(s, d.payload, d.payload.source, d.sec, env, k, c);
    }
  }

  lemma {:induction false} SequenceKeepsDominated(s: State, ds: seq<Delivery>, env: Env)
    requires Valid(s) && MergeAll(s, ds, env).Ok?
    ensures KeepsDominated(s.cells, MergeAll(s, ds, env).value.cells)
    decreases |ds|
  {
    if ds != [] {
      var t := LastMerge(s, ds, env);
      SequenceKeepsDominated(s, ds[..|ds| - 1], env);
      MergeKeepsDominated(s.cells, t, ds[|ds| - 1], env);
    }
  }

  /** The merge of `p` stores the cell at `k`: the policy admits it and it is newer. */
  ghost predicate Stores(t: State, p: SyncPayload, sec: Security, k: Key) {
    k in CellsOf(p.changes) && Admits(sec, p.source, k, CellsOf(p.changes)[k], Lookup(t.cells, k)) &&
    (k in t.cells ==> Older(t.cells[k].version, CellsOf(p.changes)[k].version))
  }

  ghost predicate Idle(t: State, u: State) {
    u.cells == t.cells && u.seqNo == t.seqNo && u.cellSeq == t.cellSeq
  }

  /** A merge changes cells and feed exactly when it stores some cell. */
  lemma IdleExactly(t: State, p: SyncPayload, sec: Security, env: Env)
    requires Valid(t) && Merge(t, p, p.source, sec, env).Ok?
    ensures Idle(t, Merge(t, p, p.source, sec, env).value.state) <==> forall k :: !Stores(t, p, sec, k)
  {
    var b, m := MergeParts(t, p, p.source, sec, env);
    var who := RulingOf(sec, p.source);
    forall k ensures Stores(t, p, sec, k) <==> AppliesTo(t.cells, who, m, k) {
      if k in m {
        PayloadJudged(t, p, p.source, sec, env, k);
        JudgedJoin(sec, p.source, Write(k, m[k]), Lookup(t.cells, k));
      }
    }
    NothingApplied(Start(t), who, m, b);
  }

  lemma NothingApplied(a: Acc, who: Ruling, m: map<Key, Cell>, b: Acc)
    requires Joined(a, who, m, b) && Indexed(a.cells, a.seqNo, a.cellSeq)
    requires b.seqNo == a.seqNo + |AppliedKeys(a.cells, who, m)|
    ensures b.cells == a.cells && b.seqNo == a.seqNo && b.cellSeq == a.cellSeq <==> forall k :: !AppliesTo(a.cells, who, m, k)
  {
    if forall k :: !AppliesTo(a.cells, who, m, k) {
      assert AppliedKeys(a.cells, who, m) == {};
      forall k ensures Lookup(b.cells, k) == Lookup(a.cells, k) && Lookup(b.cellSeq, k) == Lookup(a.cellSeq, k) {
        assert JoinedAt(a, who, m, b, k);
      }
      LookupEqual(b.cells, a.cells);
      LookupEqual(b.cellSeq, a.cellSeq);
    } else {
      var k :| AppliesTo(a.cells, who, m, k);
      assert k in AppliedKeys(a.cells, who, m);
    }
  }

  /** `d` was merged on `t`, giving `u`, and `later` deliveries followed, ending in `v`. */
  ghost predicate MergedThen(t: State, d: Delivery, u: State, later: seq<Delivery>, v: State, env: Env) {
    && Valid(t) && Merge(t, d.payload, d.payload.source, d.sec, env).Ok?
    && u == Merge(t, d.payload, d.payload.source, d.sec, env).value.state
    && MergeAll(u, later, env) == Ok(v)
  }

  /** The policy denied the delivery's cell at `k` on `t`. */
  ghost predicate Denied(t: State, d: Delivery, k: Key) {
    k in CellsOf(d.payload.changes) &&
    !Admits(d.sec, d.payload.source, k, CellsOf(d.payload.changes)[k], Lookup(t.cells, k))
  }

  lemma MergedThenValid(t: State, d: Delivery, u: State, later: seq<Delivery>, v: State, env: Env)
    requires MergedThen(t, d, u, later, v, env)
    ensures Valid(v) && KeepsDominated(u.cells, v.cells)
  {
    MergeGrows(t, d.payload, d.payload.source, d.sec, env);
    MergeAllValid(u, later, env);
    SequenceKeepsDominated(u, later, env);
  }

  lemma AdmittedDominated(t: State, d: Delivery, env: Env, k: Key)
    requires Valid(t) && Merge(t, d.payload, d.payload.source, d.sec, env).Ok?
    requires k in CellsOf(d.payload.changes) && !Denied(t, d, k)
    ensures Dominates(Merge(t, d.payload, d.payload.source, d.sec, env).value.state.cells, k, CellsOf(d.payload.changes)[k])
  {
    var c := CellsOf(d.payload.changes)[k];
    MergeIsFilteredJoin(t, d.payload, d.payload.source, d.sec, env, k);
    PayloadJudged(t, d.payload, d.payload.source, d.sec, env, k);
    JudgedJoin(d.sec, d.payload.source, Write(k, c), Lookup(t.cells, k));
  }

  /** Replaying a payload at any later time and under any policy: cells and feed stay as they are if
      and only if the policy lets no cell through that was denied before and is newer than what is stored. */
  lemma ReplayIdleExactly(t: State, d: Delivery, u: State, later: seq<Delivery>, v: State, sec: Security, env: Env)
    requires MergedThen(t, d, u, later, v, env) && Merge(v, d.payload, d.payload.source, sec, env).Ok?
    ensures Idle(v, Merge(v, d.payload, d.payload.source, sec, env).value.state) <==>
      forall k :: Denied(t, d, k) ==> !Stores(v, d.payload, sec, k)
  {
    MergedThenValid(t, d, u, later, v, env);
    IdleExactly(v, d.payload, sec, env);
    forall k | k in CellsOf(d.payload.changes) && !Denied(t, d, k) ensures !Stores(v, d.payload, sec, k) {
      AdmittedDominated(t, d, env, k);
      assert Dominates(u.cells, k, CellsOf(d.payload.changes)[k]);
      VersionTotal(CellsOf(d.payload.changes)[k].version, v.cells[k].version);
    }
  }

  /** A payload whose own merge rejected nothing can be replayed for ever, under any policy, without effect. */
  lemma ReplayChangesNothing(t: State, d: Delivery, u: State, later: seq<Delivery>, v: State, sec: Security, env: Env)
    requires MergedThen(t, d, u, later, v, env) && Merge(v, d.payload, d.payload.source, sec, env).Ok?
    requires Merge(t, d.payload, d.payload.source, d.sec, env).value.response.rejections == []
    ensures Idle(v, Merge(v, d.payload, d.payload.source, sec, env).value.state)
  {
    forall k | k in CellsOf(d.payload.changes) ensures !Denied(t, d, k) {
      RejectedExactlyDenied(t, d.payload, d.payload.source, d.sec, env, k);
    }
    ReplayIdleExactly(t, d, u, later, v, sec, env);
  }

  /** So can any payload under hooks that do not look at the stored cell. */
  lemma BlindReplayChangesNothing(t: State, d: Delivery, u: State, later: seq<Delivery>, v: State, env: Env)
    requires MergedThen(t, d, u, later, v, env) && Merge(v, d.payload, d.payload.source, d.sec, env).Ok?
    requires forall k, c, x :: Admits(d.sec, d.payload.source, k, c, x) == Admits(d.sec, d.payload.source, k, c, None)
    ensures Idle(v, Merge(v, d.payload, d.payload.source, d.sec, env).value.state)
  {
    ReplayIdleExactly(t, d, u, later, v, d.sec, env);
  }

  // --- Clock growth ----------------------------------------------------

  /** `n` successful merges advance the clock by at least `n` and at most `n` times one
      more than the per-request allowance, and stay above every stored cell. */
  lemma {:induction false} ClockGrowth(ds: seq<Delivery>, env: Env)
    requires MergeAll(EMPTY, ds, env).Ok?
    ensures var t := MergeAll(EMPTY, ds, env).value;
      && |ds| <= t.lamport <= |ds| * (MAX_CLOCK_ADVANCE + 1)
      && ClocksBelow(t.cells, t.lamport)
    decreases |ds|
  {
    MergeAllValid(EMPTY, ds, env);
    if ds != [] {
      var n := |ds| - 1;
      ClockGrowth(ds[..n], env);
      var t, d := MergeAll(EMPTY, ds[..n], env).value, ds[n];
      MergeAllValid(EMPTY, ds[..n], env);
      MergeGrows(t, d.payload, d.payload.source, d.sec, env);
      var b, m := MergeParts(t, d.payload, d.payload.source, d.sec, env);
      MaxObservedIsSource(d.payload);
    }
  }

  /** So the clock stays storable for more than nine million million merges. */
  lemma NoEarlyOverflow(ds: seq<Delivery>, env: Env)
    requires MergeAll(EMPTY, ds, env).Ok? && |ds| <= 9_223_362_813_491
    ensures MergeAll(EMPTY, ds, env).value.lamport <= I64_MAX
  {
    ClockGrowth(ds, env);
  }
}
