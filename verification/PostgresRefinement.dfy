/** The PostgreSQL merge against the reference merge. The two adapters measure a
    cell's bytes differently, so a page that meets the byte budget may end elsewhere. */
module PostgresRefinement {
  import opened Cells
  import opened Payload
  import opened Server
  import opened ServerFacts
  import opened Pagination
  import opened Postgres

  // --- The row loop ----------------------------------------------------

  /** Two numberings order the same keys alike. */
  ghost predicate SameOrder(a: map<Key, nat>, b: map<Key, nat>) {
    && a.Keys == b.Keys
    && forall j, k :: j in a && k in a ==> (a[j] <= a[k] <==> b[j] <= b[k])
  }

  ghost predicate Alike(a: Acc, b: Acc) {
    && a.cells == b.cells && a.rejections == b.rejections
    && SameOrder(a.cellSeq, b.cellSeq)
    && (forall k :: k in a.cellSeq ==> a.cellSeq[k] <= a.seqNo && b.cellSeq[k] <= b.seqNo)
  }

  /** Both numberings put an updated key last. */
  lemma OrderStep(a: map<Key, nat>, b: map<Key, nat>, m: nat, n: nat, k: Key)
    requires SameOrder(a, b) && forall j :: j in a ==> a[j] < m && b[j] < n
    ensures SameOrder(a[k := m], b[k := n])
  {
  }

  lemma AlikeStep(a: Acc, b: Acc, who: Ruling, w: Write, next: Draw)
    requires Alike(a, b) && Increasing(next)
    ensures AbsorbRow(a, who, w, next).Ok? <==> Absorb(b, who, w).Ok?
    ensures Absorb(b, who, w).Ok? ==> Alike(AbsorbRow(a, who, w, next).value, Absorb(b, who, w).value)
  {
    if JudgeIn(a.cells, who, w).Applied? {
      OrderStep(a.cellSeq, b.cellSeq, next(a.seqNo), b.seqNo + 1, w.key);
    }
  }

  /** Numbering apart, the adapter's loop and the reference's loop succeed together
      and leave the same cells, the same rejections and the same feed order. */
  lemma {:induction false} RowsRefineReference(a: Acc, b: Acc, who: Ruling, ws: seq<Write>, next: Draw)
    requires Alike(a, b) && Increasing(next)
    ensures AbsorbRows(a, who, ws, next).Ok? <==> AbsorbAll(b, who, ws).Ok?
    ensures AbsorbAll(b, who, ws).Ok? ==> Alike(AbsorbRows(a, who, ws, next).value, AbsorbAll(b, who, ws).value)
  {
    if ws != [] {
      var n := |ws| - 1;
      RowsRefineReference(a, b, who, ws[..n], next);
      if AbsorbAll(b, who, ws[..n]).Ok? {
        AlikeStep(AbsorbRows(a, who, ws[..n], next).value, AbsorbAll(b, who, ws[..n]).value, who, ws[n], next);
      }
    }
  }

  /** Feeds over numberings of the same order are the same sequence of keys. */
  lemma SameFeed(ks: set<Key>, a: map<Key, nat>, b: map<Key, nat>)
    requires SameOrder(a, b) && ks <= a.Keys && Injective(a)
    ensures BySeq(ks, a) == BySeq(ks, b)
  {
    var f := BySeq(ks, b);
    forall i, j | 0 <= i < j < |f| ensures a[f[i]] <= a[f[j]] {
      assert b[f[i]] <= b[f[j]];
    }
    FeedUnique(BySeq(ks, a), f, a);
  }

  // --- First pages -----------------------------------------------------

  /** How many cells of the whole feed the first page takes under one measure of bytes. */
  ghost function Cut(s: State, size: (Key, Cell) -> nat): (n: nat)
    ensures n <= |FeedAfter(s, 0)|
  {
    PageEnd(FeedAfter(s, 0), s.cells, size, 0, 0)
  }

  /** Above zero everything is pending. */
  lemma AllPending(cells: map<Key, Cell>, seqNo: nat, cellSeq: map<Key, nat>)
    requires Indexed(cells, seqNo, cellSeq)
    ensures Unseen(cells, cellSeq, 0) == cells.Keys && Pending(cells, cellSeq, 0) == cells.Keys
  {
  }

  /** The adapter's page from zero is the first part of the reference's feed, cut by its own measure. */
  lemma FirstPageCut(a: Acc, t: State, size: (Key, Cell) -> nat)
    requires Indexed(a.cells, a.seqNo, a.cellSeq) && Indexed(t.cells, t.seqNo, t.cellSeq)
    requires a.cells == t.cells && SameOrder(a.cellSeq, t.cellSeq)
    ensures var page := PageOf(a.cells, a.cellSeq, size, 0);
      page.keys == FeedAfter(t, 0)[..Cut(t, size)] && (page.more <==> Cut(t, size) < |FeedAfter(t, 0)|)
  {
    AllPending(a.cells, a.seqNo, a.cellSeq);
    AllPending(t.cells, t.seqNo, t.cellSeq);
    SameFeed(a.cells.Keys, a.cellSeq, t.cellSeq);
    FetchOneMore(FeedAfter(t, 0), Fetched(a.cells, a.cellSeq, 0), a.cells, size, 0, 0);
  }

  /** Parts of a feed of different length carry different cells. */
  lemma PartsDiffer(s: State, m: nat, n: nat)
    requires m < n <= |FeedAfter(s, 0)|
    ensures Restrict(s.cells, FeedAfter(s, 0)[..m]) != Restrict(s.cells, FeedAfter(s, 0)[..n])
  {
    var f := FeedAfter(s, 0);
    assert f[m] in f[..n] && f[m] in f;
    assert f[m] !in f[..m];
    assert f[m] in Restrict(s.cells, f[..n]);
  }

  /** While all cells of a full page fit the byte budget, only the cell budget cuts. */
  lemma {:induction false} CutFits(feed: seq<Key>, cells: map<Key, Cell>, size: (Key, Cell) -> nat, i: nat, bytes: nat)
    requires i <= |feed| && i <= MAX_RESPONSE_CELLS && forall k :: k in feed ==> k in cells
    requires bytes == Bytes(feed[..i], cells, size)
    requires forall n :: i <= n <= |feed| && n <= MAX_RESPONSE_CELLS ==> Bytes(feed[..n], cells, size) <= MAX_RESPONSE_BYTES
    ensures PageEnd(feed, cells, size, i, bytes) == if |feed| <= MAX_RESPONSE_CELLS then |feed| else MAX_RESPONSE_CELLS
    decreases |feed| - i
  {
    if i < |feed| && i < MAX_RESPONSE_CELLS {
      assert feed[..i + 1][..i] == feed[..i];
      assert Bytes(feed[..i + 1], cells, size) == bytes + size(feed[i], cells[feed[i]]);
      CutFits(feed, cells, size, i + 1, bytes + size(feed[i], cells[feed[i]]));
    }
  }

  lemma {:induction false} BytesGrow(feed: seq<Key>, cells: map<Key, Cell>, size: (Key, Cell) -> nat, n: nat)
    requires n <= |feed| && forall k :: k in feed ==> k in cells
    ensures Bytes(feed[..n], cells, size) <= Bytes(feed, cells, size)
    decreases |feed|
  {
    if n < |feed| {
      assert feed[..|feed| - 1][..n] == feed[..n];
      BytesGrow(feed[..|feed| - 1], cells, size, n);
    } else {
      assert feed[..n] == feed;
    }
  }

  /** The first 1,000 cells of the feed, or all of them. */
  ghost function FullPage(s: State): (ks: seq<Key>)
    ensures forall k :: k in ks ==> k in s.cells
  {
    Prefix(FeedAfter(s, 0), MAX_RESPONSE_CELLS)
  }

  /** When a full page fits the byte budget under both measures, both pages are that full page. */
  lemma FittingCutsAgree(s: State, a: (Key, Cell) -> nat, b: (Key, Cell) -> nat)
    requires Bytes(FullPage(s), s.cells, a) <= MAX_RESPONSE_BYTES && Bytes(FullPage(s), s.cells, b) <= MAX_RESPONSE_BYTES
    ensures Cut(s, a) == Cut(s, b) == |FullPage(s)|
  {
    FittingCut(s, a);
    FittingCut(s, b);
  }

  lemma FittingCut(s: State, size: (Key, Cell) -> nat)
    requires Bytes(FullPage(s), s.cells, size) <= MAX_RESPONSE_BYTES
    ensures Cut(s, size) == |FullPage(s)|
  {
    var f := FeedAfter(s, 0);
    forall n | 0 <= n <= |f| && n <= MAX_RESPONSE_CELLS ensures Bytes(f[..n], s.cells, size) <= MAX_RESPONSE_BYTES {
      assert FullPage(s)[..n] == f[..n];
      BytesGrow(FullPage(s), s.cells, size, n);
    }
    CutFits(f, s.cells, size, 0, 0);
  }

  /** Two cells whose bytes are measured as 2,097,152 each fill one page; measured as
      2,097,200 each they need two. */
  lemma MeasuresMatter(s: State, a: (Key, Cell) -> nat, b: (Key, Cell) -> nat)
    requires |FeedAfter(s, 0)| == 2
    requires forall k, c :: a(k, c) == 2_097_152 && b(k, c) == 2_097_200
    ensures Cut(s, a) == 2 && Cut(s, b) == 1
  {
    var f := FeedAfter(s, 0);
    assert f[0] in f && f[1] in f;
    assert PageEnd(f, s.cells, a, 2, 2 * 2_097_152) == 2;
    assert PageEnd(f, s.cells, a, 1, 2_097_152) == 2;
    assert PageEnd(f, s.cells, b, 1, 2_097_200) == 1;
  }

  // --- Refinement of the whole merge ----------------------------------

  /** The tenant stores what the reference server stores, numbered in the same order. */
  ghost predicate Represents(s: Tenant, r: State) {
    && Sane(s) && Valid(r)
    && s.core.cells == r.cells && s.core.lamport == r.lamport && SameOrder(s.core.cellSeq, r.cellSeq)
  }

  /** The two answers agree on clock and rejections; from cursor zero each carries the
      first part of the same feed, and they are equal exactly when both measures cut it
      at the same place. */
  ghost predicate AnswersAlike(p: SyncPayload, a: SyncPayload, b: SyncPayload, t: State, pg: Env, ref: Env) {
    && a.lamport == b.lamport && a.rejections == b.rejections
    && (p.cursor == 0 ==>
          && !a.cursorReset && !b.cursorReset
          && CellsOf(a.changes) == Restrict(t.cells, FeedAfter(t, 0)[..Cut(t, pg.size)])
          && CellsOf(b.changes) == Restrict(t.cells, FeedAfter(t, 0)[..Cut(t, ref.size)])
          && (a.changes == b.changes && a.hasMore == b.hasMore <==> Cut(t, pg.size) == Cut(t, ref.size)))
  }

  lemma RowsAlike(s: Tenant, r: State, who: Ruling, ws: seq<Write>, next: Draw)
    requires Represents(s, r) && Increasing(next)
    ensures AbsorbRows(Start(s.core), who, ws, next).Ok? <==> AbsorbAll(Start(r), who, ws).Ok?
    ensures AbsorbAll(Start(r), who, ws).Ok? ==>
      Alike(AbsorbRows(Start(s.core), who, ws, next).value, AbsorbAll(Start(r), who, ws).value)
  {
    RowsRefineReference(Start(s.core), Start(r), who, ws, next);
  }

  lemma RepliesAlike(s: Tenant, r: State, a: Acc, b: Acc, lamport: nat, p: SyncPayload, device: string,
                     epoch: string, uuid: string, pg: Env, ref: Env)
    requires Alike(a, b) && Indexed(a.cells, a.seqNo, a.cellSeq) && Indexed(b.cells, b.seqNo, b.cellSeq)
    ensures var m := Reply(r, b, lamport, p, device, ref);
      AnswersAlike(p, AnswerTo(s, a, lamport, p, device, epoch, uuid, pg).response, m.response, m.state, pg, ref)
  {
    var m := Reply(r, b, lamport, p, device, ref);
    if p.cursor == 0 {
      FirstPageCut(a, m.state, pg.size);
      PagesCompared(m.state, Cut(m.state, pg.size), Cut(m.state, ref.size));
    }
  }

  /** Two first parts of the feed are the same payload exactly when they are equally long. */
  lemma PagesCompared(t: State, m: nat, n: nat)
    requires m <= |FeedAfter(t, 0)| && n <= |FeedAfter(t, 0)|
    ensures var (x, y) := (Restrict(t.cells, FeedAfter(t, 0)[..m]), Restrict(t.cells, FeedAfter(t, 0)[..n]));
      && CellsOf(GroupRows(x)) == x && CellsOf(GroupRows(y)) == y
      && (GroupRows(x) == GroupRows(y) <==> m == n)
  {
    GroupRowsRoundTrip(Restrict(t.cells, FeedAfter(t, 0)[..m]));
    GroupRowsRoundTrip(Restrict(t.cells, FeedAfter(t, 0)[..n]));
    if m < n { PartsDiffer(t, m, n); }
    if n < m { PartsDiffer(t, n, m); }
  }

  predicate Storable(lamport: nat, observed: nat) {
    Max(lamport, observed) + 1 <= I64_MAX && ClockAdvanceOk(lamport, observed)
  }

  lemma ReferenceAccepts(r: State, p: SyncPayload, device: string, sec: Security, env: Env)
    requires Max(r.lamport, MaxObserved(p)) + 1 <= I64_MAX
    ensures Merge(r, p, device, sec, env).Ok? <==>
      ValidRequest(p, device, env.schema) && Storable(r.lamport, MaxObserved(p)) &&
      AbsorbAll(Start(r), RulingOf(sec, device), Writes(p.changes)).Ok?
  {
  }

  lemma TenantAccepts(s: Tenant, p: SyncPayload, device: string, sec: Security, next: Draw, epoch: string, uuid: string, env: Env)
    ensures MergeTenant(s, p, device, sec, next, epoch, uuid, env).Ok? <==>
      ValidRequest(p, device, env.schema) && Storable(s.core.lamport, MaxObserved(p)) &&
      AbsorbRows(Start(s.core), RulingOf(sec, device), Writes(p.changes), next).Ok?
  {
  }

  /** The adapter's merge refines the reference's, each with its own measure of bytes: while
      the new clock is storable they accept the same requests and store the same. */
  lemma TenantRefinesReference(s: Tenant, r: State, p: SyncPayload, device: string, sec: Security,
                               next: Draw, epoch: string, uuid: string, pg: Env, ref: Env)
    requires Represents(s, r) && Increasing(next) && Max(r.lamport, MaxObserved(p)) + 1 <= I64_MAX
    requires pg.schema == ref.schema
    ensures MergeTenant(s, p, device, sec, next, epoch, uuid, pg).Ok? <==> Merge(r, p, device, sec, ref).Ok?
    ensures Merge(r, p, device, sec, ref).Ok? ==>
      var (a, b) := (MergeTenant(s, p, device, sec, next, epoch, uuid, pg).value, Merge(r, p, device, sec, ref).value);
      Represents(a.tenant, b.state) && AnswersAlike(p, a.response, b.response, b.state, pg, ref)
  {
    RowsAlike(s, r, RulingOf(sec, device), Writes(p.changes), next);
    ReferenceAccepts(r, p, device, sec, ref);
    TenantAccepts(s, p, device, sec, next, epoch, uuid, pg);
    if Merge(r, p, device, sec, ref).Ok? {
      MergedAlike(s, r, p, device, sec, next, epoch, uuid, pg, ref);
    }
  }

  lemma MergedAlike(s: Tenant, r: State, p: SyncPayload, device: string, sec: Security,
                    next: Draw, epoch: string, uuid: string, pg: Env, ref: Env)
    requires Represents(s, r) && Increasing(next) && pg.schema == ref.schema
    requires Merge(r, p, device, sec, ref).Ok? && MergeTenant(s, p, device, sec, next, epoch, uuid, pg).Ok?
    ensures var (a, b) := (MergeTenant(s, p, device, sec, next, epoch, uuid, pg).value, Merge(r, p, device, sec, ref).value);
      Represents(a.tenant, b.state) && AnswersAlike(p, a.response, b.response, b.state, pg, ref)
  {
    TenantGrows(s, p, device, sec, next, epoch, uuid, pg);
    MergeGrows(r, p, device, sec, ref);
    var a, m := TenantParts(s, p, device, sec, next, epoch, uuid, pg);
    var b, n := MergeParts(r, p, device, sec, ref);
    RowsAlike(s, r, RulingOf(sec, device), Writes(p.changes), next);
    RepliesAlike(s, r, a, b, Max(r.lamport, p.lamport) + 1, p, device, epoch, uuid, pg, ref);
  }
}
