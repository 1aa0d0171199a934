/** Conservation of writes for the PostgreSQL server: through lost and repeated messages, lease expiry
    and epoch rotation, as long as no backup is restored. */
module PostgresWrites {
  import opened Names
  import opened Cells
  import opened Payload
  import opened Server
  import opened ServerFacts
  import opened Client
  import opened ClientFacts
  import opened Conservation
  import opened SystemProofs
  import opened Theorems
  import opened Postgres
  import opened PostgresRefinement
  import opened PostgresEpoch

  // --- One merge -------------------------------------------------------

  /** Each cell after a merge is the old one or the incoming one. */
  lemma TenantOrigin(s: Tenant, p: SyncPayload, device: string, sec: Security, next: Draw, epoch: string, uuid: string, env: Env, k: Key)
    requires Sane(s) && Increasing(next) && MergeTenant(s, p, device, sec, next, epoch, uuid, env).Ok?
    requires k in MergeTenant(s, p, device, sec, next, epoch, uuid, env).value.tenant.core.cells
    ensures var c := MergeTenant(s, p, device, sec, next, epoch, uuid, env).value.tenant.core.cells[k];
      (k in s.core.cells && c == s.core.cells[k]) || (k in CellsOf(p.changes) && c == CellsOf(p.changes)[k])
  {
    var b, m := TenantParts(s, p, device, sec, next, epoch, uuid, env);
    assert JoinedAt(Start(s.core), RulingOf(sec, device), m, b, k);
  }

  /** The row loop judges and records like the reference loop. */
  lemma RowsRecords(s: State, who: Ruling, changes: seq<RowChange>, next: Draw, b: Acc)
    requires Valid(s) && Increasing(next) && DistinctRows(changes) && RecordsWrites(who)
    requires AbsorbRows(Start(s), who, Writes(changes), next) == Ok(b)
    ensures NoFault(s.cells, who, Writes(changes)) && RejectionsMatch(Start(s), who, Writes(changes), b.rejections)
  {
    WritesDistinct(changes);
    RowsRefineReference(Start(s), Start(s), who, Writes(changes), next);
    AbsorbAllJoins(Start(s), who, Writes(changes));
    AbsorbAllRejections(Start(s), who, Writes(changes));
  }

  /** Every sent cell is held afterwards or listed as rejected. */
  lemma TenantDelivers(s: Tenant, p: SyncPayload, device: string, sec: Security, next: Draw, epoch: string, uuid: string, env: Env, k: Key)
    requires Sane(s) && Increasing(next) && MergeTenant(s, p, device, sec, next, epoch, uuid, env).Ok? && k in CellsOf(p.changes)
    ensures var Answered(t, r) := MergeTenant(s, p, device, sec, next, epoch, uuid, env).value; var v := CellsOf(p.changes)[k].version;
      Holds(t.core.cells, k, v) || RejectedVersion(r.rejections, k, v)
  {
    var b, m := TenantParts(s, p, device, sec, next, epoch, uuid, env);
    RulingSound(sec, device);
    RowsRecords(s.core, RulingOf(sec, device), p.changes, next, b);
    JudgedDelivered(s.core, RulingOf(sec, device), p.changes, m, b, k);
  }

  lemma JudgedDelivered(s: State, who: Ruling, changes: seq<RowChange>, m: map<Key, Cell>, b: Acc, k: Key)
    requires SoundRuling(who) && DistinctRows(changes) && m == CellsOf(changes) && k in m
    requires Joined(Start(s), who, m, b) && NoFault(s.cells, who, Writes(changes))
    requires RejectionsMatch(Start(s), who, Writes(changes), b.rejections)
    ensures Holds(b.cells, k, m[k].version) || RejectedVersion(b.rejections, k, m[k].version)
  {
    WritesDistinct(changes);
    AsMapMembers(Writes(changes));
    var w := Write(k, m[k]);
    assert w in Writes(changes);
    assert JoinedAt(Start(s), who, m, b, k);
    assert JudgeIn(s.cells, who, w) == who(w, Lookup(s.cells, k));
  }

  // --- The journal of a run --------------------------------------------

  ghost function Noted(f: Fleet, a: Action, h: History, env: Env): History {
    if a.Edit? && a.device in f.nodes && Apply(f.nodes[a.device].client, a.op, env.schema).Ok? then
      Record(h, f.nodes[a.device].client, Apply(f.nodes[a.device].client, a.op, env.schema).value)
    else h
  }

  /** Every local write of the run. */
  ghost function Journal(epoch: string, actions: seq<Action>, env: Env): History
    decreases |actions|
  {
    if actions == [] then map[]
    else
      var n := |actions| - 1;
      Noted(Run(Launch(epoch), actions[..n], env), actions[n], Journal(epoch, actions[..n], env), env)
  }

  predicate NoRestore(actions: seq<Action>) {
    forall i :: 0 <= i < |actions| ==> !actions[i].Restore?
  }

  // --- Invariant -------------------------------------------------------

  ghost predicate AnswerKept(a: Answer, cells: map<Key, Cell>, h: History) {
    && AllRecorded(h, CellsOf(a.response.changes)) && Below(CellsOf(a.response.changes), cells)
    && Delivered(CellsOf(a.sent.changes), a.response.rejections, cells)
  }

  ghost predicate NodesKept(f: Fleet, h: History) {
    forall d :: d in f.nodes ==> Conserved(f.nodes[d].client, f.site.server.core.cells, h)
  }

  ghost predicate MessagesKept(f: Fleet, h: History) {
    && (forall p :: p in f.requests ==> AllRecorded(h, CellsOf(p.changes)))
    && (forall a :: a in f.answers ==> AnswerKept(a, f.site.server.core.cells, h))
  }

  ghost predicate AuthorsKnown(f: Fleet, h: History) {
    forall x :: x in h ==> x.version.device in f.nodes
  }

  ghost predicate WritesOk(f: Fleet, h: History) {
    AllRecorded(h, f.site.server.core.cells) && NodesKept(f, h) && MessagesKept(f, h) && AuthorsKnown(f, h)
  }

  // --- Steps -----------------------------------------------------------

  /** The server's cells grow, recorded; everything else stands. */
  lemma ServerKeeps(f: Fleet, s: Site, h: History)
    requires WritesOk(f, h) && Below(f.site.server.core.cells, s.server.core.cells) && AllRecorded(h, s.server.core.cells)
    ensures WritesOk(f.(site := s), h)
  {
    var g := f.(site := s);
    forall d | d in g.nodes ensures Conserved(g.nodes[d].client, s.server.core.cells, h) {
      ConservedServer(g.nodes[d].client, f.site.server.core.cells, s.server.core.cells, h);
    }
    forall a | a in g.answers ensures AnswerKept(a, s.server.core.cells, h) {
      AnswerGrows(a, f.site.server.core.cells, s.server.core.cells, h);
    }
  }

  lemma AnswerGrows(a: Answer, s: map<Key, Cell>, t: map<Key, Cell>, h: History)
    requires AnswerKept(a, s, h) && Below(s, t)
    ensures AnswerKept(a, t, h)
  {
    BelowTransitive(CellsOf(a.response.changes), s, t);
    var sent := CellsOf(a.sent.changes);
    forall k | k in sent ensures Holds(t, k, sent[k].version) || RejectedVersion(a.response.rejections, k, sent[k].version) {
      if Holds(s, k, sent[k].version) { HoldsBelow(s, t, k, sent[k].version); }
    }
  }

  lemma SameCellsKeep(f: Fleet, s: Site, h: History)
    requires WritesOk(f, h) && s.server.core.cells == f.site.server.core.cells
    ensures WritesOk(f.(site := s), h)
  {
    BelowReflexive(s.server.core.cells);
    ServerKeeps(f, s, h);
  }

  lemma BelowReflexive(m: map<Key, Cell>)
    ensures Below(m, m)
  {
  }

  /** One device and its own writes change. */
  lemma NodeChanges(f: Fleet, d: string, n: Node, h: History, g: History)
    requires WritesOk(f, h) && d in f.nodes && n.client.device == d && Extends(h, g)
    requires forall e :: e in f.nodes ==> f.nodes[e].client.device == e
    requires forall x :: x in g && x !in h ==> x.version.device == d
    requires Conserved(n.client, f.site.server.core.cells, g)
    ensures WritesOk(SetNode(f, d, n), g)
  {
    var u := SetNode(f, d, n);
    forall e | e in u.nodes ensures Conserved(u.nodes[e].client, u.site.server.core.cells, g) {
      if e != d { ConservedHistory(f.nodes[e].client, f.site.server.core.cells, h, g); }
    }
    HistoryGrows(f, h, g);
  }

  lemma HistoryGrows(f: Fleet, h: History, g: History)
    requires AllRecorded(h, f.site.server.core.cells) && MessagesKept(f, h) && Extends(h, g)
    ensures AllRecorded(g, f.site.server.core.cells) && MessagesKept(f, g)
  {
  }

  lemma EditWrites(f: Fleet, d: string, op: LocalOp, h: History, env: Env)
    requires WritesOk(f, h) && Inv(f, env.schema) && WellFormed(env.schema)
    ensures WritesOk(StepEdit(f, d, op, env), Noted(f, Edit(d, op), h, env))
  {
    if d in f.nodes && Apply(f.nodes[d].client, op, env.schema).Ok? {
      var c := f.nodes[d].client;
      var e := Apply(c, op, env.schema).value;
      EditedConserved(c, op, e, f.site.server.core.cells, h, env.schema);
      NodeChanges(f, d, f.nodes[d].(client := e), h, Record(h, c, e));
      EditIs(f, d, op, h, env, e);
    } else {
      EditSkips(f, d, op, h, env);
    }
  }

  lemma EditIs(f: Fleet, d: string, op: LocalOp, h: History, env: Env, e: Client)
    requires d in f.nodes && Apply(f.nodes[d].client, op, env.schema) == Ok(e)
    ensures StepEdit(f, d, op, env) == SetNode(f, d, f.nodes[d].(client := e))
    ensures Noted(f, Edit(d, op), h, env) == Record(h, f.nodes[d].client, e)
  {
  }

  lemma EditSkips(f: Fleet, d: string, op: LocalOp, h: History, env: Env)
    requires d in f.nodes ==> Apply(f.nodes[d].client, op, env.schema).Err?
    ensures StepEdit(f, d, op, env) == f && Noted(f, Edit(d, op), h, env) == h
  {
  }

  lemma EditedConserved(c: Client, op: LocalOp, e: Client, cells: map<Key, Cell>, h: History, t: Schema)
    requires Apply(c, op, t) == Ok(e) && Sound(c, t) && WellFormed(t) && Conserved(c, cells, h)
    ensures e.device == c.device && Extends(h, Record(h, c, e)) && Conserved(e, cells, Record(h, c, e))
    ensures forall x :: x in Record(h, c, e) && x !in h ==> x.version.device == c.device
  {
    ApplySteps(c, op, t);
    LocalConserved(c, e, cells, h);
    RecordFresh(h, c, e, cells);
  }

  lemma AskWrites(f: Fleet, d: string, h: History, env: Env)
    requires WritesOk(f, h) && Inv(f, env.schema)
    ensures WritesOk(StepAsk(f, d, env), h)
  {
    if d in f.nodes && f.nodes[d].waiting.None? && LocalDelta(f.nodes[d].client, env.schema).Ok? {
      var c, p := f.nodes[d].client, DeltaOf(f.nodes[d].client, env.schema);
      DeltaRecorded(c, f.site.server.core.cells, h, env.schema);
      var g := f.(requests := f.requests + {p});
      assert WritesOk(g, h);
      ExtendsReflexive(h);
      NodeChanges(g, d, f.nodes[d].(waiting := Some(p)), h, h);
      assert StepAsk(f, d, env) == SetNode(g, d, f.nodes[d].(waiting := Some(p)));
    }
  }

  lemma DeltaRecorded(c: Client, cells: map<Key, Cell>, h: History, t: Schema)
    requires Sound(c, t) && Conserved(c, cells, h)
    ensures AllRecorded(h, CellsOf(DeltaOf(c, t).changes))
  {
    DeltaValid(c, t);
    forall k | k in DirtyCells(c) ensures Recorded(h, k, DirtyCells(c)[k]) {
      assert EntryKnown(c, cells, h, k);
    }
  }

  lemma CompletedConserved(c: Client, p: SyncPayload, r: SyncPayload, s: State, h: History, t: Schema)
    requires Conserved(c, s.cells, h) && CompleteSync(c, p, r, t).Ok?
    requires AllRecorded(h, CellsOf(r.changes)) && Below(CellsOf(r.changes), s.cells)
    requires Delivered(CellsOf(p.changes), r.rejections, s.cells)
    ensures Conserved(CompleteSync(c, p, r, t).value, s.cells, h)
  {
    var b := Cleanup(Acknowledge(c, CellsOf(p.changes), r.rejections));
    AcknowledgedConserved(c, CellsOf(p.changes), r.rejections, s.cells, h);
    ApplyConserved(b, r, s, h, t);
    CompletedIs(c, p, r, b, t);
  }

  lemma CompletedIs(c: Client, p: SyncPayload, r: SyncPayload, b: Client, t: Schema)
    requires CompleteSync(c, p, r, t).Ok? && b == Cleanup(Acknowledge(c, CellsOf(p.changes), r.rejections))
    ensures CompleteSync(c, p, r, t).value ==
      Advance(Absorbed(b, CellsOf(r.changes), RowSet(r.changes), t), Max(b.clock, r.lamport) + 1, r)
  {
    CompleteShape(c, p, r, t);
  }

  lemma AcknowledgedConserved(c: Client, sent: map<Key, Cell>, rs: seq<Rejection>, cells: map<Key, Cell>, h: History)
    requires Conserved(c, cells, h) && Delivered(sent, rs, cells)
    ensures Conserved(Cleanup(Acknowledge(c, sent, rs)), cells, h)
  {
    AcknowledgeConserved(c, sent, rs, cells, h);
    CleanupConserved(Acknowledge(c, sent, rs), cells, h);
  }

  lemma ReceiveWrites(f: Fleet, a: Answer, h: History, env: Env)
    requires WritesOk(f, h) && Inv(f, env.schema)
    ensures WritesOk(StepReceive(f, a, env), h)
  {
    var d := a.sent.source;
    if a in f.answers && d in f.nodes && f.nodes[d].waiting == Some(a.sent)
       && CompleteSync(f.nodes[d].client, a.sent, a.response, env.schema).Ok? {
      var c := CompleteSync(f.nodes[d].client, a.sent, a.response, env.schema).value;
      CompletedConserved(f.nodes[d].client, a.sent, a.response, f.site.server.core, h, env.schema);
      CompletedGrows(f.nodes[d].client, a.sent, a.response, env.schema);
      ExtendsReflexive(h);
      NodeChanges(f, d, Node(c, None), h, h);
      assert StepReceive(f, a, env) == SetNode(f, d, Node(c, None));
    }
  }

  lemma MergeRecorded(s: Tenant, p: SyncPayload, sec: Security, next: Draw, epoch: string, uuid: string, env: Env, h: History)
    requires Sane(s) && Increasing(next) && MergeTenant(s, p, p.source, sec, next, epoch, uuid, env).Ok?
    requires AllRecorded(h, s.core.cells) && AllRecorded(h, CellsOf(p.changes))
    ensures AllRecorded(h, MergeTenant(s, p, p.source, sec, next, epoch, uuid, env).value.tenant.core.cells)
  {
    var cells := MergeTenant(s, p, p.source, sec, next, epoch, uuid, env).value.tenant.core.cells;
    forall k | k in cells ensures Recorded(h, k, cells[k]) {
      TenantOrigin(s, p, p.source, sec, next, epoch, uuid, env, k);
    }
  }

  lemma MergeAnswerKept(s: Tenant, p: SyncPayload, sec: Security, next: Draw, epoch: string, uuid: string, env: Env, h: History)
    requires Sane(s) && Increasing(next) && MergeTenant(s, p, p.source, sec, next, epoch, uuid, env).Ok?
    requires AllRecorded(h, s.core.cells) && AllRecorded(h, CellsOf(p.changes))
    ensures var a := MergeTenant(s, p, p.source, sec, next, epoch, uuid, env).value;
      AnswerKept(Answer(p, a.response), a.tenant.core.cells, h)
  {
    MergeRecorded(s, p, sec, next, epoch, uuid, env, h);
    var Answered(t, r) := MergeTenant(s, p, p.source, sec, next, epoch, uuid, env).value;
    var got, sent := CellsOf(r.changes), CellsOf(p.changes);
    forall k | k in got ensures Recorded(h, k, got[k]) && Holds(t.core.cells, k, got[k].version) {
      TenantPage(s, p, p.source, sec, next, epoch, uuid, env, k);
    }
    forall k | k in sent ensures Holds(t.core.cells, k, sent[k].version) || RejectedVersion(r.rejections, k, sent[k].version) {
      TenantDelivers(s, p, p.source, sec, next, epoch, uuid, env, k);
    }
  }

  lemma ServeWrites(f: Fleet, p: SyncPayload, sec: Security, next: Draw, epoch: string, uuid: string, h: History, env: Env)
    requires WritesOk(f, h) && Inv(f, env.schema)
    ensures WritesOk(StepServe(f, p, sec, next, epoch, uuid, env), h)
  {
    if p in f.requests && Increasing(next) && epoch in f.site.lineage && uuid !in f.site.tokens
       && MergeTenant(f.site.server, p, p.source, sec, next, epoch, uuid, env).Ok? {
      var a := MergeTenant(f.site.server, p, p.source, sec, next, epoch, uuid, env).value;
      var s := Served(f.site, a.tenant, uuid);
      TenantGrows(f.site.server, p, p.source, sec, next, epoch, uuid, env);
      MergeRecorded(f.site.server, p, sec, next, epoch, uuid, env, h);
      MergeAnswerKept(f.site.server, p, sec, next, epoch, uuid, env, h);
      ServerKeeps(f, s, h);
      AnswerKeeps(f.(site := s), Answer(p, a.response), h);
      assert StepServe(f, p, sec, next, epoch, uuid, env) == f.(site := s).(answers := f.answers + {Answer(p, a.response)});
    } else {
      assert StepServe(f, p, sec, next, epoch, uuid, env) == f;
    }
  }

  lemma AnswerKeeps(f: Fleet, a: Answer, h: History)
    requires WritesOk(f, h) && AnswerKept(a, f.site.server.core.cells, h)
    ensures WritesOk(f.(answers := f.answers + {a}), h)
  {
  }

  lemma EnrollWrites(f: Fleet, d: string, h: History)
    requires WritesOk(f, h) && d !in f.nodes
    ensures WritesOk(SetNode(f, d, Node(Fresh(d), None)), h)
  {
    var c := Fresh(d);
    forall k ensures EntryKnown(c, f.site.server.core.cells, h, k) {
    }
    forall x ensures WriteKept(c, f.site.server.core.cells, h, x) {
    }
  }

  lemma SameClientWrites(f: Fleet, d: string, n: Node, h: History, t: Schema)
    requires WritesOk(f, h) && Inv(f, t) && d in f.nodes
    requires n.client.device == d && n.client.log == f.nodes[d].client.log && n.client.clock == f.nodes[d].client.clock
    ensures WritesOk(SetNode(f, d, n), h)
  {
    ConservedSame(f.nodes[d].client, n.client, f.site.server.core.cells, h);
    ExtendsReflexive(h);
    NodeChanges(f, d, n, h, h);
  }

  lemma NodeStepWrites(f: Fleet, a: Action, h: History, env: Env)
    requires WritesOk(f, h) && Inv(f, env.schema) && (a.Enroll? || a.GiveUp? || a.Rewind?)
    ensures WritesOk(Step(f, a, env), h)
  {
    match a
    case Enroll(d) => if ValidIdentifier(d) && d != SERVER_DEVICE && d !in f.nodes { EnrollWrites(f, d, h); }
    case GiveUp(d) => if d in f.nodes { SameClientWrites(f, d, f.nodes[d].(waiting := None), h, env.schema); }
    case Rewind(d) =>
      if d in f.nodes { SameClientWrites(f, d, f.nodes[d].(client := ResetCursor(f.nodes[d].client)), h, env.schema); }
  }

  lemma SiteStepWrites(f: Fleet, a: Action, h: History, env: Env)
    requires WritesOk(f, h) && (a.Expire? || a.Rotate? || a.Backup?)
    ensures WritesOk(Step(f, a, env), h)
  {
    match a
    case Expire(inactive) => SameCellsKeep(f, f.site.(server := ExpireLeases(f.site.server, inactive)), h);
    case Rotate(newEpoch) => SameCellsKeep(f, Rotated(f.site, newEpoch), h);
    case Backup =>
  }

  lemma StepWrites(f: Fleet, a: Action, h: History, env: Env)
    requires WritesOk(f, h) && Inv(f, env.schema) && WellFormed(env.schema) && !a.Restore?
    ensures WritesOk(Step(f, a, env), Noted(f, a, h, env))
  {
    match a
    case Edit(d, op) =>
      EditWrites(f, d, op, h, env);
      EditStep(f, d, op, env);
    case _ =>
      OtherStepWrites(f, a, h, env);
      OthersNoteNothing(f, a, h, env);
  }

  lemma OthersNoteNothing(f: Fleet, a: Action, h: History, env: Env)
    requires !a.Edit?
    ensures Noted(f, a, h, env) == h
  {
  }

  lemma EditStep(f: Fleet, d: string, op: LocalOp, env: Env)
    ensures Step(f, Edit(d, op), env) == StepEdit(f, d, op, env)
  {
  }

  lemma OtherStepWrites(f: Fleet, a: Action, h: History, env: Env)
    requires WritesOk(f, h) && Inv(f, env.schema) && !a.Restore? && !a.Edit?
    ensures WritesOk(Step(f, a, env), h)
  {
    match a
    case Ask(d) => AskWrites(f, d, h, env);
    case Serve(p, sec, next, epoch, uuid) => ServeWrites(f, p, sec, next, epoch, uuid, h, env);
    case Receive(answer) => ReceiveWrites(f, answer, h, env);
    case Enroll(_) => NodeStepWrites(f, a, h, env);
    case GiveUp(_) => NodeStepWrites(f, a, h, env);
    case Rewind(_) => NodeStepWrites(f, a, h, env);
    case _ => SiteStepWrites(f, a, h, env);
  }

  lemma {:induction false} RunWrites(epoch: string, actions: seq<Action>, env: Env)
    requires WellFormed(env.schema) && NoRestore(actions)
    ensures WritesOk(Run(Launch(epoch), actions, env), Journal(epoch, actions, env))
    decreases |actions|
  {
    if actions != [] {
      var n := |actions| - 1;
      RunWrites(epoch, actions[..n], env);
      PostgresEpoch.RunsKeep(epoch, actions[..n], env);
      StepWrites(Run(Launch(epoch), actions[..n], env), actions[n], Journal(epoch, actions[..n], env), env);
    }
  }

  // --- Result ----------------------------------------------------------

  lemma JournalGrows(epoch: string, actions: seq<Action>, a: Action, env: Env)
    requires WellFormed(env.schema) && NoRestore(actions)
    ensures Extends(Journal(epoch, actions, env), Journal(epoch, actions + [a], env))
  {
    var f, h := Run(Launch(epoch), actions, env), Journal(epoch, actions, env);
    assert (actions + [a])[..|actions|] == actions;
    RunWrites(epoch, actions, env);
    PostgresEpoch.RunsKeep(epoch, actions, env);
    NotedExtends(f, a, h, env);
  }

  lemma NotedExtends(f: Fleet, a: Action, h: History, env: Env)
    requires WritesOk(f, h) && Inv(f, env.schema) && WellFormed(env.schema)
    ensures Extends(h, Noted(f, a, h, env))
  {
    if a.Edit? && a.device in f.nodes && Apply(f.nodes[a.device].client, a.op, env.schema).Ok? {
      var c := f.nodes[a.device].client;
      ApplySteps(c, a.op, env.schema);
      RecordFresh(h, c, Apply(c, a.op, env.schema).value, f.site.server.core.cells);
    }
  }

  lemma {:induction false} StaysInJournal(epoch: string, actions: seq<Action>, after: seq<Action>, x: Stamp, env: Env)
    requires WellFormed(env.schema) && NoRestore(actions + after) && x in Journal(epoch, actions, env)
    ensures x in Journal(epoch, actions + after, env)
    decreases |after|
  {
    if after == [] {
      assert actions + after == actions;
    } else {
      var n := |after| - 1;
      assert actions + after == (actions + after[..n]) + [after[n]];
      assert NoRestore(actions + after[..n]) by {
        forall i | 0 <= i < |actions + after[..n]| ensures !(actions + after[..n])[i].Restore? {
          assert (actions + after)[i] == (actions + after[..n])[i];
        }
      }
      StaysInJournal(epoch, actions, after[..n], x, env);
      JournalGrows(epoch, actions + after[..n], after[n], env);
    }
  }

  /** In every run without a restore, a write made at any point is, at every later state, still dirty on its
      device at that version or newer, or held by the server at that version or newer. */
  lemma NoWriteIsLostWithoutRestore(epoch: string, before: seq<Action>, d: string, op: LocalOp, n: Client, k: Key,
                                    after: seq<Action>, env: Env)
    requires WellFormed(env.schema) && NoRestore(before + [Edit(d, op)] + after)
    requires d in Run(Launch(epoch), before, env).nodes
    requires Wrote(Run(Launch(epoch), before, env).nodes[d].client, op, env.schema, n, k)
    ensures var f := Run(Launch(epoch), before + [Edit(d, op)] + after, env); var x := Stamp(k, n.log[k].cell.version);
      x.version.device in f.nodes && Kept(f.nodes[x.version.device].client, f.site.server.core.cells, x)
  {
    var x, edited := Stamp(k, n.log[k].cell.version), before + [Edit(d, op)];
    assert edited[..|before|] == before;
    RecordHas(Journal(epoch, before, env), Run(Launch(epoch), before, env).nodes[d].client, n, k);
    assert x in Journal(epoch, edited, env);
    StaysInJournal(epoch, edited, after, x, env);
    JournalKept(epoch, edited + after, x, env);
  }

  lemma JournalKept(epoch: string, actions: seq<Action>, x: Stamp, env: Env)
    requires WellFormed(env.schema) && NoRestore(actions) && x in Journal(epoch, actions, env)
    ensures var f := Run(Launch(epoch), actions, env);
      x.version.device in f.nodes && Kept(f.nodes[x.version.device].client, f.site.server.core.cells, x)
  {
    RunWrites(epoch, actions, env);
    PostgresEpoch.RunsKeep(epoch, actions, env);
    var f, h := Run(Launch(epoch), actions, env), Journal(epoch, actions, env);
    var c := f.nodes[x.version.device].client;
    assert Conserved(c, f.site.server.core.cells, h) && c.device == x.version.device;
    assert WriteKept(c, f.site.server.core.cells, h, x);
  }

  // --- Convergence -----------------------------------------------------

  /** Nothing pending, a credential of the present history, and a cursor at the table's highest number. */
  ghost predicate CaughtUpNode(f: Fleet, d: string) {
    && d in f.nodes && DirtyCells(f.nodes[d].client) == map[]
    && InLineage(Stored(f.nodes[d].client), f.site)
    && Highest(f.site.server.core.cellSeq) <= f.nodes[d].client.cursor
  }

  /** A clean device that covers every cell, and whose cells the server holds, stores the server's cells. */
  lemma CleanCoveredEquals(c: Client, s: State, h: History)
    requires Conserved(c, s.cells, h) && AllRecorded(h, s.cells) && Valid(s)
    requires Covers(c, s, c.cursor) && Highest(s.cellSeq) <= c.cursor && DirtyCells(c) == map[]
    ensures Held(c) == s.cells
  {
    forall k ensures Lookup(Held(c), k) == Lookup(s.cells, k) {
      assert EntryKnown(c, s.cells, h, k) && CoversAt(c, s, c.cursor, k);
      assert k in c.log && c.log[k].dirty ==> k in DirtyCells(c);
      if k in c.log { VersionTotal(c.log[k].cell.version, s.cells[k].version); }
      if k in s.cells { assert Recorded(h, k, s.cells[k]); }
    }
    LookupEqual(Held(c), s.cells);
  }

  /** In every run without a restore, each caught-up device stores exactly the server's cells,
      and any two of them show the same table. */
  lemma CaughtUpNodesConverge(epoch: string, actions: seq<Action>, d: string, e: string, env: Env)
    requires WellFormed(env.schema) && NoRestore(actions)
    requires CaughtUpNode(Run(Launch(epoch), actions, env), d) && CaughtUpNode(Run(Launch(epoch), actions, env), e)
    ensures var f := Run(Launch(epoch), actions, env);
      && Held(f.nodes[d].client) == f.site.server.core.cells == Held(f.nodes[e].client)
      && f.nodes[d].client.rows == f.nodes[e].client.rows && f.nodes[d].client.app == f.nodes[e].client.app
  {
    var f := Run(Launch(epoch), actions, env);
    CaughtUpNodeEquals(epoch, actions, d, env);
    CaughtUpNodeEquals(epoch, actions, e, env);
    SameCellsSameTable(f.nodes[d].client, f.nodes[e].client, env.schema);
  }

  lemma CaughtUpNodeEquals(epoch: string, actions: seq<Action>, d: string, env: Env)
    requires WellFormed(env.schema) && NoRestore(actions) && CaughtUpNode(Run(Launch(epoch), actions, env), d)
    ensures var f := Run(Launch(epoch), actions, env);
      Sound(f.nodes[d].client, env.schema) && Held(f.nodes[d].client) == f.site.server.core.cells
  {
    var f := Run(Launch(epoch), actions, env);
    RunWrites(epoch, actions, env);
    PostgresEpoch.RunsKeep(epoch, actions, env);
    assert NodeOk(f.nodes[d], f.site, env.schema);
    CleanCoveredEquals(f.nodes[d].client, f.site.server.core, Journal(epoch, actions, env));
  }
}
