/** What one PostgreSQL merge accepts, answers and leases, in plain terms. */
module TenantAnswers {
  import opened Names
  import opened Cells
  import opened Payload
  import opened Server
  import opened ServerFacts
  import opened Postgres
  import opened PostgresRefinement
  import opened Lww
  import opened Answers

  // --- What it accepts -------------------------------------------------

  lemma RowsPass(s: Tenant, p: SyncPayload, device: string, sec: Security, next: Draw, t: Schema)
    requires Sane(s) && Increasing(next) && ValidRequest(p, device, t) && WellFormed(t)
    ensures AbsorbRows(Start(s.core), RulingOf(sec, device), Writes(p.changes), next).Ok? <==> AllPass(sec, device, p, s.core.cells)
  {
    WritesDistinct(p.changes);
    RowsRefineReference(Start(s.core), Start(s.core), RulingOf(sec, device), Writes(p.changes), next);
    AbsorbAllJoins(Start(s.core), RulingOf(sec, device), Writes(p.changes));
    AllPassIs(sec, device, p, s.core.cells, t);
  }

  /** The adapter merges exactly an acceptable request, at most a million clock values ahead of the tenant, whose new
      clock fits 63 bits and none of whose cells fails. */
  lemma TenantMergesExactly(s: Tenant, p: SyncPayload, device: string, sec: Security, next: Draw, epoch: string, uuid: string, env: Env)
    requires Sane(s) && Increasing(next) && WellFormed(env.schema)
    ensures MergeTenant(s, p, device, sec, next, epoch, uuid, env).Ok? <==>
      && ValidRequest(p, device, env.schema) && p.lamport <= s.core.lamport + 1_000_000
      && s.core.lamport < 0x7fff_ffff_ffff_ffff && p.lamport < 0x7fff_ffff_ffff_ffff
      && AllPass(sec, device, p, s.core.cells)
  {
    TenantAccepts(s, p, device, sec, next, epoch, uuid, env);
    if ValidRequest(p, device, env.schema) {
      MaxObservedIsSource(p);
      RowsPass(s, p, device, sec, next, env.schema);
    }
  }

  // --- Pages -----------------------------------------------------------

  /** A number is its own cursor. */
  function Same(n: nat): int {
    n
  }

  /** The highest number of the table, zero if it is empty. */
  ghost predicate Tops(order: map<Key, nat>, n: int) {
    && 0 <= n && (forall k :: k in order ==> order[k] <= n)
    && (n == 0 || exists k :: k in order && order[k] == n)
  }

  lemma UnseenFeed(s: State, from: int, feed: seq<Key>)
    requires Indexed(s.cells, s.seqNo, s.cellSeq) && feed == BySeq(Unseen(s.cells, s.cellSeq, from), s.cellSeq)
    ensures FeedOf(feed, s.cells, s.cellSeq, Same, from)
  {
    forall i, j | 0 <= i < j < |feed| ensures s.cellSeq[feed[i]] < s.cellSeq[feed[j]] {
      assert feed[i] in feed && feed[j] in feed && feed[i] != feed[j];
    }
  }

  lemma StreamedCut(s: State, size: (Key, Cell) -> nat, from: int, feed: seq<Key>, n: nat)
    requires Indexed(s.cells, s.seqNo, s.cellSeq) && feed == BySeq(Unseen(s.cells, s.cellSeq, from), s.cellSeq)
    requires n == PageEnd(feed, s.cells, size, 0, 0)
    ensures n <= |feed| && (n < |feed| ==> 0 < n)
    ensures var page := PageOf(s.cells, s.cellSeq, size, from);
      && page.keys == feed[..n] && page.more == (n < |feed|)
      && page.next == if n == |feed| then Highest(s.cellSeq) else s.cellSeq[feed[n - 1]]
  {
    var rows := Fetched(s.cells, s.cellSeq, from);
    FetchOneMore(feed, rows, s.cells, size, 0, 0);
    if n < |feed| { assert rows[..n][n - 1] == feed[..n][n - 1]; }
  }

  lemma StreamedPage(s: State, size: (Key, Cell) -> nat, from: int, r: SyncPayload)
    requires Indexed(s.cells, s.seqNo, s.cellSeq)
    requires var page := PageOf(s.cells, s.cellSeq, size, from);
      r.changes == GroupRows(Restrict(s.cells, page.keys)) && r.cursor == page.next && r.hasMore == page.more
    ensures PageFor(r, s.cells, s.cellSeq, Same, from, Highest(s.cellSeq), size)
  {
    var feed := BySeq(Unseen(s.cells, s.cellSeq, from), s.cellSeq);
    var n := PageEnd(feed, s.cells, size, 0, 0);
    UnseenFeed(s, from, feed);
    StreamedCut(s, size, from, feed, n);
    CutLongest(feed, s.cells, size, n);
    GroupedCarries(r, s.cells, feed[..n]);
    assert PageIs(r, s.cells, s.cellSeq, Same, from, Highest(s.cellSeq), size, feed, n);
  }

  // --- Leases ----------------------------------------------------------

  /** The cursor is covered: it is zero, or the device holds a lease up to it, it is within the table's numbers, and from
      protocol 4 on the request names the lease's token and the one epoch of lease, request and server. */
  ghost predicate Accepted(s: Tenant, p: SyncPayload, device: string, top: int, epoch: string) {
    p.cursor == 0 ||
    (device in s.leases && p.cursor <= top && p.cursor <= s.leases[device].top &&
     (p.protocol >= 4 ==>
        p.token == Some(s.leases[device].token) && p.epoch == Some(s.leases[device].epoch) && s.leases[device].epoch == epoch))
  }

  /** The lease covers the answer's cursor and all it covered before, under the epoch the server read; a lease of
      that epoch keeps its token, any other takes the new one. */
  ghost predicate LeasedAs(s: Tenant, device: string, cursor: int, epoch: string, uuid: string, l: Lease) {
    && l.epoch == epoch
    && l.token == (if device in s.leases && s.leases[device].epoch == epoch then s.leases[device].token else uuid)
    && l.top == (if device in s.leases && s.leases[device].top > cursor then s.leases[device].top else cursor)
  }

  /** Told to reset exactly when the cursor is not covered; the page from zero then, and otherwise the page after
      the cursor, ending at the highest number when nothing remains. */
  ghost predicate AnsweredAs(s: Tenant, p: SyncPayload, device: string, epoch: string, core: State, r: SyncPayload, top: int, size: (Key, Cell) -> nat) {
    && Tops(core.cellSeq, top)
    && (r.cursorReset <==> !Accepted(s, p, device, top, epoch))
    && PageFor(r, core.cells, core.cellSeq, Same, if r.cursorReset then 0 else p.cursor, top, size)
  }

  /** Every successful merge answers like that. */
  lemma TenantAnswersExactly(s: Tenant, p: SyncPayload, device: string, sec: Security, next: Draw, epoch: string, uuid: string, env: Env)
    requires Sane(s) && Increasing(next) && MergeTenant(s, p, device, sec, next, epoch, uuid, env).Ok?
    ensures var Answered(t, r) := MergeTenant(s, p, device, sec, next, epoch, uuid, env).value;
      exists top :: AnsweredAs(s, p, device, epoch, t.core, r, top, env.size)
  {
    var b, m := TenantParts(s, p, device, sec, next, epoch, uuid, env);
    var a := MergeTenant(s, p, device, sec, next, epoch, uuid, env).value;
    AnswerIs(s, b, Max(s.core.lamport, p.lamport) + 1, p, device, epoch, uuid, env, a);
  }

  lemma AnswerIs(s: Tenant, b: Acc, lamport: nat, p: SyncPayload, device: string, epoch: string, uuid: string, env: Env, a: Answered)
    requires Indexed(b.cells, b.seqNo, b.cellSeq) && a == AnswerTo(s, b, lamport, p, device, epoch, uuid, env)
    ensures AnsweredAs(s, p, device, epoch, a.tenant.core, a.response, Highest(b.cellSeq), env.size)
  {
    AdmittedIs(s, p, device, Highest(b.cellSeq), epoch);
    StreamedPage(a.tenant.core, env.size, if a.response.cursorReset then 0 else p.cursor, a.response);
  }

  lemma AdmittedIs(s: Tenant, p: SyncPayload, device: string, top: nat, epoch: string)
    ensures Admitted(LeaseOf(s, device), top, p, epoch) <==> Accepted(s, p, device, top, epoch)
  {
  }

  /** The rest of the answer, the clock the tenant keeps, and the lease. */
  lemma TenantRepliesExactly(s: Tenant, p: SyncPayload, device: string, sec: Security, next: Draw, epoch: string, uuid: string, env: Env)
    requires Sane(s) && Increasing(next) && MergeTenant(s, p, device, sec, next, epoch, uuid, env).Ok?
    ensures var Answered(t, r) := MergeTenant(s, p, device, sec, next, epoch, uuid, env).value;
      && r.protocol == p.protocol && r.fingerprint == env.schema.fingerprint && r.source == "loomabase-server"
      && r.lamport == t.core.lamport == (if s.core.lamport > p.lamport then s.core.lamport else p.lamport) + 1
      && t.epoch == s.epoch && t.leases.Keys == s.leases.Keys + {device}
      && LeasedAs(s, device, r.cursor, epoch, uuid, t.leases[device])
      && r.epoch == Some(epoch) && r.token == Some(t.leases[device].token)
      && forall d :: d in s.leases && d != device ==> t.leases[d] == s.leases[d]
  {
    var b, m := TenantParts(s, p, device, sec, next, epoch, uuid, env);
  }

  /** The rejection records are those of the reference server over the same cells. */
  lemma TenantRecordsExactly(s: Tenant, p: SyncPayload, device: string, sec: Security, next: Draw, epoch: string, uuid: string, env: Env, r: Rejection)
    requires Sane(s) && Increasing(next) && MergeTenant(s, p, device, sec, next, epoch, uuid, env).Ok?
    ensures r in MergeTenant(s, p, device, sec, next, epoch, uuid, env).value.response.rejections <==>
      && Sends(p, r.key, r.cell)
      && var stored := Lookup(s.core.cells, r.key);
         || sec.authorize(device, r.key, r.cell, stored) == Deny(r.kind, r.reason)
         || (sec.authorize(device, r.key, r.cell, stored) == Allow && sec.validate(device, r.key, r.cell, stored) == Deny(r.kind, r.reason))
  {
    var b, m := TenantParts(s, p, device, sec, next, epoch, uuid, env);
    RowsMatch(s.core, sec, device, p.changes, next, b);
    SentWritten(p, r.key, r.cell);
    RecordIs(Start(s.core), sec, device, Writes(p.changes), b.rejections, r);
  }

  lemma RowsMatch(core: State, sec: Security, device: string, changes: seq<RowChange>, next: Draw, b: Acc)
    requires Valid(core) && Increasing(next) && DistinctRows(changes)
    requires AbsorbRows(Start(core), RulingOf(sec, device), Writes(changes), next) == Ok(b)
    ensures NoFault(core.cells, RulingOf(sec, device), Writes(changes))
    ensures RejectionsMatch(Start(core), RulingOf(sec, device), Writes(changes), b.rejections)
  {
    RulingSound(sec, device);
    WritesDistinct(changes);
    RowsRefineReference(Start(core), Start(core), RulingOf(sec, device), Writes(changes), next);
    AbsorbAllJoins(Start(core), RulingOf(sec, device), Writes(changes));
    AbsorbAllRejections(Start(core), RulingOf(sec, device), Writes(changes));
  }

  lemma RecordIs(a: Acc, sec: Security, device: string, ws: seq<Write>, rs: seq<Rejection>, r: Rejection)
    requires RejectionsMatch(a, RulingOf(sec, device), ws, rs) && NoFault(a.cells, RulingOf(sec, device), ws)
    ensures r in rs <==>
      && Write(r.key, r.cell) in ws
      && var stored := Lookup(a.cells, r.key);
         || sec.authorize(device, r.key, r.cell, stored) == Deny(r.kind, r.reason)
         || (sec.authorize(device, r.key, r.cell, stored) == Allow && sec.validate(device, r.key, r.cell, stored) == Deny(r.kind, r.reason))
  {
    var w, who := Write(r.key, r.cell), RulingOf(sec, device);
    if w in ws {
      var i :| 0 <= i < |ws| && ws[i] == w;
      assert JudgeIn(a.cells, who, ws[i]) == Judge(sec, device, w, Lookup(a.cells, r.key));
    }
  }
}
