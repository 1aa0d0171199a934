/** A run in which restoring an older backup loses an acknowledged write. */
module LostByRestore {
  import opened Names
  import opened Cells
  import opened Payload
  import opened Server
  import opened ServerFacts
  import opened Client
  import opened Conservation
  import opened Closure
  import opened Postgres
  import opened PostgresRefinement
  import opened PostgresEpoch
  import opened PostgresWrites
  import opened PostgresRestore
  import BareAcknowledge
  import ScopeGap

  ghost function FirstClient(d: string, row: string, t: Schema): Client {
    BareAcknowledge.Inserted(d, row, t)
  }

  ghost function FirstDelta(d: string, row: string, t: Schema): SyncPayload {
    DeltaOf(FirstClient(d, row, t), t)
  }

  const SUCCESSOR: Draw := (n: nat) => n + 1

  function EmptyTenant(epoch: string): Tenant {
    Tenant(EMPTY, map[], epoch)
  }

  // --- The server's part -----------------------------------------------

  lemma FirstAccepted(p: SyncPayload, d: string, epoch: string, uuid: string, env: Env)
    requires Merge(EMPTY, p, d, ALLOW_ALL, env).Ok? && p.lamport + 1 <= I64_MAX
    ensures MergeTenant(EmptyTenant(epoch), p, d, ALLOW_ALL, SUCCESSOR, epoch, uuid, env).Ok?
  {
    assert Increasing(SUCCESSOR);
    RowsRefineReference(Start(EMPTY), Start(EMPTY), RulingOf(ALLOW_ALL, d), Writes(p.changes), SUCCESSOR);
    MaxObservedIsSource(p);
    TenantAccepts(EmptyTenant(epoch), p, d, ALLOW_ALL, SUCCESSOR, epoch, uuid, env);
  }

  lemma FirstCells(p: SyncPayload, d: string, epoch: string, uuid: string, env: Env, a: Answered, k: Key)
    requires MergeTenant(EmptyTenant(epoch), p, d, ALLOW_ALL, SUCCESSOR, epoch, uuid, env) == Ok(a)
    requires k in CellsOf(a.response.changes)
    ensures k in CellsOf(p.changes) && CellsOf(a.response.changes)[k] == CellsOf(p.changes)[k]
  {
    assert Increasing(SUCCESSOR);
    TenantPage(EmptyTenant(epoch), p, d, ALLOW_ALL, SUCCESSOR, epoch, uuid, env, k);
    TenantOrigin(EmptyTenant(epoch), p, d, ALLOW_ALL, SUCCESSOR, epoch, uuid, env, k);
  }

  lemma FirstReply(s: Tenant, p: SyncPayload, d: string, next: Draw, epoch: string, uuid: string, env: Env, a: Answered)
    requires s.core == EMPTY && Increasing(next) && MergeTenant(s, p, d, ALLOW_ALL, next, epoch, uuid, env) == Ok(a)
    requires p.lamport + 1 <= I64_MAX && ValidIdentifier(epoch) && ValidIdentifier(uuid) && LeaseOf(s, d).None?
    ensures a.response.rejections == [] && a.response.lamport == p.lamport + 1 && ValidResponse(a.response, env.schema)
  {
    var b, m := TenantParts(s, p, d, ALLOW_ALL, next, epoch, uuid, env);
    NothingRejected(p.changes, d, next, b);
    FirstAnswerValid(s, p, d, b, epoch, uuid, env, a);
  }

  /** The empty table takes everything, rejects nothing, and answers with cells of the request. */
  lemma FirstRows(p: SyncPayload, d: string, epoch: string, uuid: string, env: Env) returns (a: Answered)
    requires Merge(EMPTY, p, d, ALLOW_ALL, env).Ok? && p.lamport + 1 <= I64_MAX && ValidIdentifier(epoch) && ValidIdentifier(uuid)
    ensures MergeTenant(EmptyTenant(epoch), p, d, ALLOW_ALL, SUCCESSOR, epoch, uuid, env) == Ok(a)
    ensures a.response.rejections == [] && a.response.lamport == p.lamport + 1 && ValidResponse(a.response, env.schema)
    ensures forall k :: k in CellsOf(a.response.changes) ==>
      k in CellsOf(p.changes) && CellsOf(a.response.changes)[k] == CellsOf(p.changes)[k]
  {
    FirstAccepted(p, d, epoch, uuid, env);
    a := MergeTenant(EmptyTenant(epoch), p, d, ALLOW_ALL, SUCCESSOR, epoch, uuid, env).value;
    assert Increasing(SUCCESSOR);
    FirstReply(EmptyTenant(epoch), p, d, SUCCESSOR, epoch, uuid, env, a);
    forall k | k in CellsOf(a.response.changes)
      ensures k in CellsOf(p.changes) && CellsOf(a.response.changes)[k] == CellsOf(p.changes)[k]
    {
      FirstCells(p, d, epoch, uuid, env, a, k);
    }
  }

  lemma NothingRejected(changes: seq<RowChange>, d: string, next: Draw, b: Acc)
    requires DistinctRows(changes) && Increasing(next)
    requires AbsorbRows(Start(EMPTY), RulingOf(ALLOW_ALL, d), Writes(changes), next) == Ok(b)
    ensures b.rejections == []
  {
    RulingSound(ALLOW_ALL, d);
    RowsRecords(EMPTY, RulingOf(ALLOW_ALL, d), changes, next, b);
    if b.rejections != [] {
      var r := b.rejections[0];
      assert r in b.rejections;
      NeverRejected(Write(r.key, r.cell), d, Lookup(EMPTY.cells, r.key));
      assert false;
    }
  }

  lemma NeverRejected(w: Write, d: string, x: Option<Cell>)
    ensures !RulingOf(ALLOW_ALL, d)(w, x).Rejected?
  {
  }

  lemma FirstAnswerValid(s: Tenant, p: SyncPayload, d: string, b: Acc, epoch: string, uuid: string, env: Env, a: Answered)
    requires ValidRequest(p, d, env.schema) && p.lamport + 1 <= I64_MAX && b.rejections == []
    requires ValidIdentifier(epoch) && ValidIdentifier(uuid) && LeaseOf(s, d).None?
    requires Joined(Start(EMPTY), RulingOf(ALLOW_ALL, d), CellsOf(p.changes), b) && Indexed(b.cells, b.seqNo, b.cellSeq)
    requires a == AnswerTo(s, b, p.lamport + 1, p, d, epoch, uuid, env)
    ensures ValidResponse(a.response, env.schema)
  {
    ServerIdentifier();
    ValidRowsCells(env.schema, p.changes);
    forall k | k in b.cells ensures k in CellsOf(p.changes) && b.cells[k] == CellsOf(p.changes)[k] {
      assert JoinedAt(Start(EMPTY), RulingOf(ALLOW_ALL, d), CellsOf(p.changes), b, k);
    }
    var from := if Admitted(LeaseOf(s, d), Highest(b.cellSeq), p, epoch) then p.cursor else 0;
    PageBounds(b.cells, b.cellSeq, env.size, from);
    GroupedResponseValid(a.response, env.schema, b.cells, PageOf(b.cells, b.cellSeq, env.size, from).keys);
  }

  // --- The device's part -----------------------------------------------

  /** Cells that come back as they were sent contradict nothing. */
  lemma OwnCellsAgree(c: Client, sent: map<Key, Cell>, got: map<Key, Cell>, b: Client)
    requires sent == DirtyCells(c) && (forall k :: k in got ==> k in sent && got[k] == sent[k])
    requires forall k :: k in b.log ==> k in c.log && b.log[k].cell == c.log[k].cell
    ensures forall k :: k in got ==> !Conflicts(b.log, k, got[k])
  {
  }

  lemma FirstCompletes(c: Client, p: SyncPayload, r: SyncPayload, t: Schema)
    requires ValidRequest(p, c.device, t) && ValidResponse(r, t) && c.clock == p.lamport < r.lamport < I64_MAX
    requires CellsOf(p.changes) == DirtyCells(c)
    requires forall k :: k in CellsOf(r.changes) ==> k in CellsOf(p.changes) && CellsOf(r.changes)[k] == CellsOf(p.changes)[k]
    ensures CompleteSync(c, p, r, t).Ok?
  {
    var b := Cleanup(Acknowledge(c, CellsOf(p.changes), r.rejections));
    MaxObservedIsSource(r);
    forall k ensures k in b.log ==> k in c.log && b.log[k].cell == c.log[k].cell {
      AcknowledgeKeepsCells(c, CellsOf(p.changes), r.rejections, k);
    }
    OwnCellsAgree(c, CellsOf(p.changes), CellsOf(r.changes), b);
    AcknowledgeKeepsCells(c, CellsOf(p.changes), r.rejections, Key("", ""));
    ApplySucceeds(b, r, t);
  }

  // --- The run ---------------------------------------------------------

  lemma FleetNext(f: Fleet, a: Action, env: Env)
    requires Reachable(f, env)
    ensures Reachable(Step(f, a, env), env)
  {
    var epoch, actions :| f == Run(Launch(epoch), actions, env);
    assert (actions + [a])[..|actions|] == actions;
    assert Step(f, a, env) == Run(Launch(epoch), actions + [a], env);
  }

  /** A backup of the empty table is kept, and the device has written its first row. */
  lemma EditedFleet(d: string, row: string, epoch: string, env: Env) returns (f: Fleet)
    requires ValidIdentifier(d) && d != SERVER_DEVICE && ValidIdentifier(row)
    ensures Reachable(f, env)
    ensures f == Fleet(Site(EmptyTenant(epoch), {epoch}, {epoch}, {}), {EmptyTenant(epoch)},
                       map[d := Node(FirstClient(d, row, env.schema), None)], {}, {})
  {
    assert Launch(epoch) == Run(Launch(epoch), [], env);
    f := Launch(epoch).(backups := {EmptyTenant(epoch)});
    FleetNext(Launch(epoch), Backup, env);
    assert Step(Launch(epoch), Backup, env) == f;
    FleetNext(f, Enroll(d), env);
    f := f.(nodes := map[d := Node(Fresh(d), None)]);
    FleetNext(f, Edit(d, LocalOp.Insert(row, map[])), env);
    FirstEdit(f, d, row, env);
    f := f.(nodes := map[d := Node(FirstClient(d, row, env.schema), None)]);
  }

  lemma FirstEdit(f: Fleet, d: string, row: string, env: Env)
    requires ValidIdentifier(row) && f.nodes == map[d := Node(Fresh(d), None)]
    ensures Step(f, Edit(d, LocalOp.Insert(row, map[])), env) == f.(nodes := map[d := Node(FirstClient(d, row, env.schema), None)])
  {
    assert Fresh(d).rows + {row} == {row};
    assert Apply(Fresh(d), LocalOp.Insert(row, map[]), env.schema) == Ok(FirstClient(d, row, env.schema));
  }

  /** The run's one write: the liveness of its first row. */
  function FirstStamp(d: string, row: string): Stamp {
    Stamp(Key(row, LIVENESS), Version(1, d))
  }

  lemma FirstWrite(d: string, row: string, t: Schema)
    requires WellFormed(t)
    ensures var c, x := FirstClient(d, row, t), FirstStamp(d, row);
      && c.device == d && c.clock == 1 && DirtyAt(c, x.key, x.version)
      && x.key in DirtyCells(c) && DirtyCells(c)[x.key].version == x.version && c.log[x.key].cell.version == x.version
  {
    BareAcknowledge.InsertedKey(d, row, t, Key(row, LIVENESS));
  }

  ghost predicate Usable(d: string, row: string, epoch: string, uuid: string, newEpoch: string) {
    && ValidIdentifier(d) && d != SERVER_DEVICE && ValidIdentifier(row)
    && ValidIdentifier(epoch) && ValidIdentifier(uuid) && newEpoch != epoch
  }

  /** What the device sent, what the server made of it, and that the device can complete it. */
  ghost predicate FirstExchange(d: string, row: string, epoch: string, uuid: string, a: Answered, env: Env) {
    var (c, p, x) := (FirstClient(d, row, env.schema), FirstDelta(d, row, env.schema), FirstStamp(d, row));
    && LocalDelta(c, env.schema) == Ok(p) && p.source == d
    && MergeTenant(EmptyTenant(epoch), p, d, ALLOW_ALL, SUCCESSOR, epoch, uuid, env) == Ok(a)
    && a.response.rejections == [] && Holds(a.tenant.core.cells, x.key, x.version)
    && x.key in CellsOf(p.changes) && CellsOf(p.changes)[x.key].version == x.version
    && CompleteSync(c, p, a.response, env.schema).Ok?
  }

  lemma FirstExchanged(d: string, row: string, epoch: string, uuid: string, newEpoch: string, env: Env) returns (a: Answered)
    requires WellFormed(env.schema) && |env.schema.types| <= MAX_PAYLOAD_CELLS && Usable(d, row, epoch, uuid, newEpoch)
    ensures FirstExchange(d, row, epoch, uuid, a, env)
  {
    var c, p, x := FirstClient(d, row, env.schema), FirstDelta(d, row, env.schema), FirstStamp(d, row);
    FirstWrite(d, row, env.schema);
    ScopeGap.FirstMerges(d, row, env);
    a := FirstRows(p, d, epoch, uuid, env);
    FirstCompletes(c, p, a.response, env.schema);
    TenantDelivers(EmptyTenant(epoch), p, d, ALLOW_ALL, SUCCESSOR, epoch, uuid, env, x.key);
  }

  /** The device waits for an answer that was given; the empty table's backup is at hand. */
  ghost predicate AnsweredAt(f: Fleet, d: string, c: Client, epoch: string, t: Tenant, p: SyncPayload, r: SyncPayload) {
    && d in f.nodes && f.nodes[d] == Node(c, Some(p)) && Answer(p, r) in f.answers
    && f.site.server == t && f.site.epochs == {epoch} && EmptyTenant(epoch) in f.backups
  }

  lemma AskNext(f: Fleet, d: string, g: Fleet, env: Env)
    requires Reachable(f, env) && StepAsk(f, d, env) == g
    ensures Reachable(g, env)
  {
    FleetNext(f, Ask(d), env);
    assert Step(f, Ask(d), env) == StepAsk(f, d, env);
  }

  lemma AskedIs(f: Fleet, d: string, c: Client, p: SyncPayload, env: Env)
    requires d in f.nodes && f.nodes[d] == Node(c, None) && LocalDelta(c, env.schema) == Ok(p)
    ensures StepAsk(f, d, env) == SetNode(f, d, Node(c, Some(p))).(requests := f.requests + {p})
  {
  }

  lemma ServeNext(f: Fleet, p: SyncPayload, epoch: string, uuid: string, g: Fleet, env: Env)
    requires Reachable(f, env) && StepServe(f, p, ALLOW_ALL, SUCCESSOR, epoch, uuid, env) == g
    ensures Reachable(g, env)
  {
    var a := PostgresEpoch.Action.Serve(p, ALLOW_ALL, SUCCESSOR, epoch, uuid);
    FleetNext(f, a, env);
    assert Step(f, a, env) == StepServe(f, p, ALLOW_ALL, SUCCESSOR, epoch, uuid, env);
  }

  lemma ServedIs(f: Fleet, p: SyncPayload, epoch: string, uuid: string, a: Answered, env: Env)
    requires p in f.requests && epoch in f.site.lineage && uuid !in f.site.tokens
    requires MergeTenant(f.site.server, p, p.source, ALLOW_ALL, SUCCESSOR, epoch, uuid, env) == Ok(a)
    ensures StepServe(f, p, ALLOW_ALL, SUCCESSOR, epoch, uuid, env) ==
      f.(site := Served(f.site, a.tenant, uuid), answers := f.answers + {Answer(p, a.response)})
  {
    assert Increasing(SUCCESSOR);
  }

  lemma ReceiveNext(f: Fleet, a: Answer, g: Fleet, env: Env)
    requires Reachable(f, env) && StepReceive(f, a, env) == g
    ensures Reachable(g, env)
  {
    FleetNext(f, Receive(a), env);
    assert Step(f, Receive(a), env) == StepReceive(f, a, env);
  }

  /** The device waits for the answer to a request of the pool; the table and its backup are empty. */
  ghost predicate AskedAt(f: Fleet, d: string, c: Client, epoch: string, p: SyncPayload) {
    && d in f.nodes && f.nodes[d] == Node(c, Some(p)) && p in f.requests
    && f.site == Site(EmptyTenant(epoch), {epoch}, {epoch}, {}) && EmptyTenant(epoch) in f.backups
  }

  /** The device asked. */
  lemma AskedFleet(d: string, row: string, epoch: string, p: SyncPayload, env: Env) returns (f: Fleet)
    requires ValidIdentifier(d) && d != SERVER_DEVICE && ValidIdentifier(row)
    requires LocalDelta(FirstClient(d, row, env.schema), env.schema) == Ok(p)
    ensures Reachable(f, env) && AskedAt(f, d, FirstClient(d, row, env.schema), epoch, p)
  {
    var e := EditedFleet(d, row, epoch, env);
    AskedIs(e, d, FirstClient(d, row, env.schema), p, env);
    f := SetNode(e, d, Node(FirstClient(d, row, env.schema), Some(p))).(requests := e.requests + {p});
    AskNext(e, d, f, env);
  }

  /** The device was answered. */
  lemma ServedFleet(d: string, row: string, epoch: string, uuid: string, p: SyncPayload, a: Answered, env: Env) returns (f: Fleet)
    requires ValidIdentifier(d) && d != SERVER_DEVICE && ValidIdentifier(row) && p.source == d
    requires LocalDelta(FirstClient(d, row, env.schema), env.schema) == Ok(p)
    requires MergeTenant(EmptyTenant(epoch), p, d, ALLOW_ALL, SUCCESSOR, epoch, uuid, env) == Ok(a)
    ensures Reachable(f, env)
    ensures AnsweredAt(f, d, FirstClient(d, row, env.schema), epoch, a.tenant, p, a.response)
  {
    var g := AskedFleet(d, row, epoch, p, env);
    ServedIs(g, p, epoch, uuid, a, env);
    f := g.(site := Served(g.site, a.tenant, uuid), answers := g.answers + {Answer(p, a.response)});
    ServeNext(g, p, epoch, uuid, f, env);
  }

  /** The device completed the answer. */
  lemma ReceivedFleet(g: Fleet, a: Answer, n: Client, env: Env)
    requires Reachable(g, env) && a in g.answers && a.sent.source in g.nodes && g.nodes[a.sent.source].waiting == Some(a.sent)
    requires CompleteSync(g.nodes[a.sent.source].client, a.sent, a.response, env.schema) == Ok(n)
    ensures Reachable(SetNode(g, a.sent.source, Node(n, None)), env)
  {
    ReceiveIs(g, a, n, env);
    ReceiveNext(g, a, SetNode(g, a.sent.source, Node(n, None)), env);
  }

  /** The device's write is clean, and the server's row stands. */
  lemma FirstSettled(g: Fleet, d: string, row: string, epoch: string, uuid: string, a: Answered, env: Env) returns (f: Fleet)
    requires WellFormed(env.schema) && Reachable(g, env) && FirstExchange(d, row, epoch, uuid, a, env)
    requires AnsweredAt(g, d, FirstClient(d, row, env.schema), epoch, a.tenant, FirstDelta(d, row, env.schema), a.response)
    ensures Reachable(f, env) && f.backups == g.backups && f.site == g.site && d in f.nodes
    ensures !DirtyAt(f.nodes[d].client, FirstStamp(d, row).key, FirstStamp(d, row).version)
  {
    var c, p := FirstClient(d, row, env.schema), FirstDelta(d, row, env.schema);
    FirstWrite(d, row, env.schema);
    var n := CompleteSync(c, p, a.response, env.schema).value;
    CleanAfter(c, Answer(p, a.response), FirstStamp(d, row).key, n, env.schema);
    ReceivedFleet(g, Answer(p, a.response), n, env);
    f := SetNode(g, d, Node(n, None));
  }

  /** The write is acknowledged and held. */
  lemma AcknowledgedFleet(d: string, row: string, epoch: string, uuid: string, newEpoch: string, env: Env) returns (f: Fleet)
    requires WellFormed(env.schema) && |env.schema.types| <= MAX_PAYLOAD_CELLS && Usable(d, row, epoch, uuid, newEpoch)
    ensures Reachable(f, env) && Restorable(f, EmptyTenant(epoch), newEpoch) && d in f.nodes
    ensures Acknowledged(f, d, FirstStamp(d, row))
  {
    var a := FirstExchanged(d, row, epoch, uuid, newEpoch, env);
    var g := ServedFleet(d, row, epoch, uuid, FirstDelta(d, row, env.schema), a, env);
    f := FirstSettled(g, d, row, epoch, uuid, a, env);
  }

  /** No longer dirty on its device, held by the server. */
  ghost predicate Acknowledged(f: Fleet, d: string, x: Stamp) {
    && d in f.nodes && !DirtyAt(f.nodes[d].client, x.key, x.version)
    && Holds(f.site.server.core.cells, x.key, x.version)
  }

  /** For every contract whose rows fit a payload there is a run in which an acknowledged write, held by the
      server, is neither there nor pending on its device once an older backup is restored. */
  lemma SomeRestoreLosesAWrite(d: string, row: string, epoch: string, uuid: string, newEpoch: string, env: Env) returns (f: Fleet)
    requires WellFormed(env.schema) && |env.schema.types| <= MAX_PAYLOAD_CELLS && Usable(d, row, epoch, uuid, newEpoch)
    ensures Reachable(f, env) && Restorable(f, EmptyTenant(epoch), newEpoch) && Acknowledged(f, d, FirstStamp(d, row))
    ensures var g := Step(f, Action.Restore(EmptyTenant(epoch), newEpoch), env);
      d in g.nodes && !Kept(g.nodes[d].client, g.site.server.core.cells, FirstStamp(d, row))
  {
    f := AcknowledgedFleet(d, row, epoch, uuid, newEpoch, env);
    RestoreKeepsExactly(f, EmptyTenant(epoch), newEpoch, FirstStamp(d, row), env);
  }
}
