/** What a restored backup takes away: which writes survive it, through any traffic after it, and a run that loses one. */
module PostgresRestore {
  import opened Names
  import opened Cells
  import opened Payload
  import opened Server
  import opened ServerFacts
  import opened Client
  import opened ClientFacts
  import opened Conservation
  import opened SystemProofs
  import opened Postgres
  import opened PostgresEpoch
  import opened PostgresWrites

  // --- Surviving -------------------------------------------------------

  /** What the answer tells a device about `x.key`, at `x.version` or newer, the server still holds. */
  ghost predicate AnswerHolds(a: Answer, cells: map<Key, Cell>, x: Stamp) {
    var (sent, got, k) := (CellsOf(a.sent.changes), CellsOf(a.response.changes), x.key);
    && (k in sent && AtMost(x.version, sent[k].version) ==>
          Holds(cells, k, sent[k].version) || RejectedVersion(a.response.rejections, k, sent[k].version))
    && (k in got && AtMost(x.version, got[k].version) ==> Holds(cells, k, got[k].version))
  }

  /** No answer under way to the device relies on what the server no longer holds. */
  ghost predicate AnswersHold(f: Fleet, cells: map<Key, Cell>, x: Stamp) {
    forall a :: a in f.answers && a.sent.source == x.version.device ==> AnswerHolds(a, cells, x)
  }

  /** The write is on its device, dirty, or on the server, and no answer under way endangers it. */
  ghost predicate Survives(f: Fleet, x: Stamp) {
    && x.version.device in f.nodes
    && Kept(f.nodes[x.version.device].client, f.site.server.core.cells, x)
    && AnswersHold(f, f.site.server.core.cells, x)
  }

  // --- Every step but a restore keeps it -------------------------------

  lemma AnswerHoldsMore(a: Answer, s: map<Key, Cell>, t: map<Key, Cell>, x: Stamp)
    requires AnswerHolds(a, s, x) && Below(s, t)
    ensures AnswerHolds(a, t, x)
  {
    var (sent, got, k) := (CellsOf(a.sent.changes), CellsOf(a.response.changes), x.key);
    if k in sent && Holds(s, k, sent[k].version) { HoldsBelow(s, t, k, sent[k].version); }
    if k in got && Holds(s, k, got[k].version) { HoldsBelow(s, t, k, got[k].version); }
  }

  /** The server's cells grow; nodes and answers stand. */
  lemma ServerSurvives(f: Fleet, g: Fleet, x: Stamp)
    requires Survives(f, x) && g.nodes == f.nodes && g.answers == f.answers
    requires Below(f.site.server.core.cells, g.site.server.core.cells)
    ensures Survives(g, x)
  {
    var s, t := f.site.server.core.cells, g.site.server.core.cells;
    if Holds(s, x.key, x.version) { HoldsBelow(s, t, x.key, x.version); }
    forall a | a in g.answers && a.sent.source == x.version.device ensures AnswerHolds(a, t, x) {
      AnswerHoldsMore(a, s, t, x);
    }
  }

  /** The device of the write changes and keeps it. */
  lemma NodeSurvives(f: Fleet, g: Fleet, d: string, n: Node, x: Stamp)
    requires Survives(f, x) && g.nodes == f.nodes[d := n] && g.answers == f.answers
    requires g.site.server.core.cells == f.site.server.core.cells
    requires d == x.version.device ==> Kept(n.client, f.site.server.core.cells, x)
    ensures Survives(g, x)
  {
  }

  lemma EditKept(c: Client, op: LocalOp, t: Schema, cells: map<Key, Cell>, x: Stamp)
    requires Sound(c, t) && Apply(c, op, t).Ok? && Kept(c, cells, x)
    ensures Kept(Apply(c, op, t).value, cells, x)
  {
    var e := Apply(c, op, t).value;
    ApplySteps(c, op, t);
    LocalGrows(c, e, t);
    if DirtyAt(c, x.key, x.version) {
      assert KeptOrWritten(c, e, x.key);
      VersionTransitive(x.version, c.log[x.key].cell.version, e.log[x.key].cell.version);
    }
  }

  lemma EditSurvives(f: Fleet, d: string, op: LocalOp, env: Env, x: Stamp)
    requires Inv(f, env.schema) && Survives(f, x)
    ensures Survives(StepEdit(f, d, op, env), x)
  {
    if d in f.nodes && Apply(f.nodes[d].client, op, env.schema).Ok? {
      var n := f.nodes[d].(client := Apply(f.nodes[d].client, op, env.schema).value);
      if d == x.version.device { EditKept(f.nodes[d].client, op, env.schema, f.site.server.core.cells, x); }
      EditIs(f, d, op, map[], env, n.client);
      NodeSurvives(f, SetNode(f, d, n), d, n, x);
    } else {
      EditSkips(f, d, op, map[], env);
    }
  }

  lemma AskSurvives(f: Fleet, d: string, env: Env, x: Stamp)
    requires Survives(f, x)
    ensures Survives(StepAsk(f, d, env), x)
  {
    if d in f.nodes && f.nodes[d].waiting.None? && LocalDelta(f.nodes[d].client, env.schema).Ok? {
      var n := f.nodes[d].(waiting := Some(DeltaOf(f.nodes[d].client, env.schema)));
      NodeSurvives(f, StepAsk(f, d, env), d, n, x);
    }
  }

  /** What acknowledgement leaves of a dirty write: still dirty, or held by the server. */
  lemma AcknowledgedKept(c: Client, a: Answer, cells: map<Key, Cell>, x: Stamp)
    requires DirtyAt(c, x.key, x.version) && AnswerHolds(a, cells, x) && c.evictions == {}
    ensures Kept(Cleanup(Acknowledge(c, CellsOf(a.sent.changes), a.response.rejections)), cells, x)
  {
    var sent := CellsOf(a.sent.changes);
    CleanupKeepsLog(Acknowledge(c, sent, a.response.rejections));
    if Acknowledges(sent, a.response.rejections, x.key, c.log[x.key]) {
      HoldsTransitive(cells, x.key, sent[x.key].version, x.version);
    }
  }

  /** What the page leaves of a dirty write: still dirty, or overtaken by a cell the server holds. */
  lemma AbsorbedKept(b: Client, a: Answer, ids: set<string>, t: Schema, cells: map<Key, Cell>, x: Stamp)
    requires Kept(b, cells, x) && AnswerHolds(a, cells, x)
    ensures Kept(Absorbed(b, CellsOf(a.response.changes), ids, t), cells, x)
  {
    var got := CellsOf(a.response.changes);
    if DirtyAt(b, x.key, x.version) && x.key in got && Wins(b.log, x.key, got[x.key]) {
      VersionTransitive(x.version, b.log[x.key].cell.version, got[x.key].version);
      HoldsTransitive(cells, x.key, got[x.key].version, x.version);
    }
  }

  lemma CompletedKept(c: Client, a: Answer, t: Schema, cells: map<Key, Cell>, x: Stamp)
    requires CompleteSync(c, a.sent, a.response, t).Ok? && c.evictions == {}
    requires Kept(c, cells, x) && AnswerHolds(a, cells, x)
    ensures Kept(CompleteSync(c, a.sent, a.response, t).value, cells, x)
  {
    var b := Cleanup(Acknowledge(c, CellsOf(a.sent.changes), a.response.rejections));
    CompletedIs(c, a.sent, a.response, b, t);
    if !Holds(cells, x.key, x.version) {
      AcknowledgedKept(c, a, cells, x);
      AbsorbedKept(b, a, RowSet(a.response.changes), t, cells, x);
    }
  }

  lemma ReceiveSurvives(f: Fleet, a: Answer, env: Env, x: Stamp)
    requires Inv(f, env.schema) && Survives(f, x)
    ensures Survives(StepReceive(f, a, env), x)
  {
    var d := a.sent.source;
    if a in f.answers && d in f.nodes && f.nodes[d].waiting == Some(a.sent)
       && CompleteSync(f.nodes[d].client, a.sent, a.response, env.schema).Ok? {
      var c := f.nodes[d].client;
      var n := Node(CompleteSync(c, a.sent, a.response, env.schema).value, None);
      ScopeFree(c, env.schema);
      if d == x.version.device { CompletedKept(c, a, env.schema, f.site.server.core.cells, x); }
      NodeSurvives(f, SetNode(f, d, n), d, n, x);
      assert StepReceive(f, a, env) == SetNode(f, d, n);
    } else {
      assert StepReceive(f, a, env) == f;
    }
  }

  lemma MergeAnswerHolds(s: Tenant, p: SyncPayload, sec: Security, next: Draw, epoch: string, uuid: string, env: Env, x: Stamp)
    requires Sane(s) && Increasing(next) && MergeTenant(s, p, p.source, sec, next, epoch, uuid, env).Ok?
    ensures var a := MergeTenant(s, p, p.source, sec, next, epoch, uuid, env).value;
      AnswerHolds(Answer(p, a.response), a.tenant.core.cells, x)
  {
    TenantPage(s, p, p.source, sec, next, epoch, uuid, env, x.key);
    if x.key in CellsOf(p.changes) { TenantDelivers(s, p, p.source, sec, next, epoch, uuid, env, x.key); }
  }

  lemma AnswerSurvives(f: Fleet, a: Answer, x: Stamp)
    requires Survives(f, x) && AnswerHolds(a, f.site.server.core.cells, x)
    ensures Survives(f.(answers := f.answers + {a}), x)
  {
  }

  lemma ServeSurvives(f: Fleet, p: SyncPayload, sec: Security, next: Draw, epoch: string, uuid: string, env: Env, x: Stamp)
    requires Inv(f, env.schema) && Survives(f, x)
    ensures Survives(StepServe(f, p, sec, next, epoch, uuid, env), x)
  {
    if p in f.requests && Increasing(next) && epoch in f.site.lineage && uuid !in f.site.tokens
       && MergeTenant(f.site.server, p, p.source, sec, next, epoch, uuid, env).Ok? {
      var a := MergeTenant(f.site.server, p, p.source, sec, next, epoch, uuid, env).value;
      var g := f.(site := Served(f.site, a.tenant, uuid));
      TenantGrows(f.site.server, p, p.source, sec, next, epoch, uuid, env);
      MergeAnswerHolds(f.site.server, p, sec, next, epoch, uuid, env, x);
      ServerSurvives(f, g, x);
      AnswerSurvives(g, Answer(p, a.response), x);
      assert StepServe(f, p, sec, next, epoch, uuid, env) == g.(answers := f.answers + {Answer(p, a.response)});
    } else {
      assert StepServe(f, p, sec, next, epoch, uuid, env) == f;
    }
  }

  lemma StepSurvives(f: Fleet, a: Action, env: Env, x: Stamp)
    requires Inv(f, env.schema) && Survives(f, x) && !a.Restore?
    ensures Survives(Step(f, a, env), x)
  {
    match a
    case Edit(d, op) =>
      EditSurvives(f, d, op, env, x);
      EditStep(f, d, op, env);
    case Ask(d) =>
      AskSurvives(f, d, env, x);
      AskStep(f, d, env);
    case Serve(p, sec, next, epoch, uuid) =>
      ServeSurvives(f, p, sec, next, epoch, uuid, env, x);
      ServeStep(f, p, sec, next, epoch, uuid, env);
    case Receive(answer) =>
      ReceiveSurvives(f, answer, env, x);
      ReceiveStep(f, answer, env);
    case _ => if a.Enroll? || a.GiveUp? || a.Rewind? { DeviceSurvives(f, a, env, x); } else { SiteSurvives(f, a, env, x); }
  }

  lemma AskStep(f: Fleet, d: string, env: Env)
    ensures Step(f, Ask(d), env) == StepAsk(f, d, env)
  {
  }

  lemma ServeStep(f: Fleet, p: SyncPayload, sec: Security, next: Draw, epoch: string, uuid: string, env: Env)
    ensures Step(f, Serve(p, sec, next, epoch, uuid), env) == StepServe(f, p, sec, next, epoch, uuid, env)
  {
  }

  lemma ReceiveStep(f: Fleet, a: Answer, env: Env)
    ensures Step(f, Receive(a), env) == StepReceive(f, a, env)
  {
  }

  lemma DeviceSurvives(f: Fleet, a: Action, env: Env, x: Stamp)
    requires Survives(f, x) && (a.Enroll? || a.GiveUp? || a.Rewind?)
    ensures Survives(Step(f, a, env), x)
  {
    match a
    case Enroll(d) =>
      if d !in f.nodes && ValidIdentifier(d) && d != SERVER_DEVICE {
        NodeSurvives(f, Step(f, a, env), d, Node(Fresh(d), None), x);
      }
    case GiveUp(d) =>
      if d in f.nodes { NodeSurvives(f, Step(f, a, env), d, f.nodes[d].(waiting := None), x); }
    case Rewind(d) =>
      if d in f.nodes { NodeSurvives(f, Step(f, a, env), d, f.nodes[d].(client := ResetCursor(f.nodes[d].client)), x); }
  }

  lemma SiteSurvives(f: Fleet, a: Action, env: Env, x: Stamp)
    requires Survives(f, x) && (a.Expire? || a.Rotate? || a.Backup?)
    ensures Survives(Step(f, a, env), x)
  {
    BelowReflexive(f.site.server.core.cells);
    ServerSurvives(f, Step(f, a, env), x);
  }

  lemma {:induction false} RunSurvives(f: Fleet, actions: seq<Action>, env: Env, x: Stamp)
    requires WellFormed(env.schema) && Inv(f, env.schema) && Survives(f, x) && NoRestore(actions)
    ensures Inv(Run(f, actions, env), env.schema) && Survives(Run(f, actions, env), x)
    decreases |actions|
  {
    if actions != [] {
      var n := |actions| - 1;
      RunSurvives(f, actions[..n], env, x);
      PostgresEpoch.StepKeeps(Run(f, actions[..n], env), actions[n], env);
      StepSurvives(Run(f, actions[..n], env), actions[n], env, x);
    }
  }

  // --- A restore -------------------------------------------------------

  ghost predicate Restorable(f: Fleet, copy: Tenant, newEpoch: string) {
    copy in f.backups && newEpoch !in f.site.epochs
  }

  /** At a restore a write stays accounted for if and only if it is still dirty on its device,
      or superseded there while dirty, or the backup holds it at that version or newer. */
  lemma RestoreKeepsExactly(f: Fleet, copy: Tenant, newEpoch: string, x: Stamp, env: Env)
    requires Restorable(f, copy, newEpoch) && x.version.device in f.nodes
    ensures var g := Step(f, Action.Restore(copy, newEpoch), env);
      Kept(g.nodes[x.version.device].client, g.site.server.core.cells, x) <==>
        DirtyAt(f.nodes[x.version.device].client, x.key, x.version) || Holds(copy.core.cells, x.key, x.version)
  {
  }

  lemma RestoreIs(f: Fleet, copy: Tenant, newEpoch: string, env: Env)
    requires Restorable(f, copy, newEpoch)
    ensures Step(f, Action.Restore(copy, newEpoch), env) == f.(site := Restored(f.site, copy, newEpoch))
  {
  }

  lemma RestoredSurvives(f: Fleet, copy: Tenant, newEpoch: string, x: Stamp)
    requires x.version.device in f.nodes && AnswersHold(f, copy.core.cells, x)
    requires DirtyAt(f.nodes[x.version.device].client, x.key, x.version) || Holds(copy.core.cells, x.key, x.version)
    ensures Survives(f.(site := Restored(f.site, copy, newEpoch)), x)
  {
  }

  lemma RestoredInOrder(f: Fleet, copy: Tenant, newEpoch: string, env: Env)
    requires WellFormed(env.schema) && Reachable(f, env) && Restorable(f, copy, newEpoch)
    ensures Inv(f.(site := Restored(f.site, copy, newEpoch)), env.schema)
  {
    PostgresEpoch.ReachableOk(f, env);
    RestoreKeeps(f, copy, newEpoch, env.schema);
  }

  /** From any state of any run, earlier restores included: a write that is dirty on its device or held by the restored
      backup stays accounted for at every later state up to the next restore, if no answer under way to that device
      relies on a version of that cell that the backup lacks. */
  lemma WriteSurvivesRestore(f: Fleet, copy: Tenant, newEpoch: string, after: seq<Action>, x: Stamp, env: Env)
    requires WellFormed(env.schema) && Reachable(f, env) && Restorable(f, copy, newEpoch) && NoRestore(after)
    requires x.version.device in f.nodes && AnswersHold(f, copy.core.cells, x)
    requires DirtyAt(f.nodes[x.version.device].client, x.key, x.version) || Holds(copy.core.cells, x.key, x.version)
    ensures var g := Run(Step(f, Action.Restore(copy, newEpoch), env), after, env);
      x.version.device in g.nodes && Kept(g.nodes[x.version.device].client, g.site.server.core.cells, x)
  {
    RestoreIs(f, copy, newEpoch, env);
    RestoredInOrder(f, copy, newEpoch, env);
    RestoredSurvives(f, copy, newEpoch, x);
    RunSurvives(f.(site := Restored(f.site, copy, newEpoch)), after, env, x);
  }

  lemma CleanAfter(c: Client, a: Answer, k: Key, n: Client, t: Schema)
    requires CompleteSync(c, a.sent, a.response, t) == Ok(n) && k in CellsOf(a.sent.changes) && k in c.log
    requires c.log[k].cell.version == CellsOf(a.sent.changes)[k].version
    requires !RejectedVersion(a.response.rejections, k, CellsOf(a.sent.changes)[k].version)
    ensures k in n.log ==> !n.log[k].dirty
  {
    var b := Cleanup(Acknowledge(c, CellsOf(a.sent.changes), a.response.rejections));
    CompletedIs(c, a.sent, a.response, b, t);
    assert Acknowledges(CellsOf(a.sent.changes), a.response.rejections, k, c.log[k]);
  }

  lemma ReceiveIs(f: Fleet, a: Answer, n: Client, env: Env)
    requires a in f.answers && a.sent.source in f.nodes && f.nodes[a.sent.source].waiting == Some(a.sent)
    requires CompleteSync(f.nodes[a.sent.source].client, a.sent, a.response, env.schema) == Ok(n)
    ensures StepReceive(f, a, env) == SetNode(f, a.sent.source, Node(n, None))
  {
  }

  /** The answer acknowledges the device's cell at `k`, which the server does not hold. */
  ghost predicate AcknowledgesLost(c: Client, a: Answer, cells: map<Key, Cell>, k: Key) {
    && k in CellsOf(a.sent.changes) && k in c.log && c.log[k].cell.version == CellsOf(a.sent.changes)[k].version
    && !RejectedVersion(a.response.rejections, k, c.log[k].cell.version)
    && !Holds(cells, k, c.log[k].cell.version)
  }

  /** Why answers under way matter: a device that completes one given before the restore makes clean
      a write that the restored server lacks, and it is lost. */
  lemma LateAnswerLoses(f: Fleet, a: Answer, n: Client, k: Key, env: Env)
    requires a in f.answers && a.sent.source in f.nodes && f.nodes[a.sent.source].waiting == Some(a.sent)
    requires CompleteSync(f.nodes[a.sent.source].client, a.sent, a.response, env.schema) == Ok(n)
    requires AcknowledgesLost(f.nodes[a.sent.source].client, a, f.site.server.core.cells, k)
    ensures StepReceive(f, a, env) == SetNode(f, a.sent.source, Node(n, None))
    ensures !Kept(n, f.site.server.core.cells, Stamp(k, f.nodes[a.sent.source].client.log[k].cell.version))
  {
    ReceiveIs(f, a, n, env);
    AcknowledgedLost(f.nodes[a.sent.source].client, a, n, f.site.server.core.cells, k, env.schema);
  }

  lemma AcknowledgedLost(c: Client, a: Answer, n: Client, cells: map<Key, Cell>, k: Key, t: Schema)
    requires CompleteSync(c, a.sent, a.response, t) == Ok(n) && AcknowledgesLost(c, a, cells, k)
    ensures !Kept(n, cells, Stamp(k, c.log[k].cell.version))
  {
    CleanAfter(c, a, k, n, t);
  }
}
