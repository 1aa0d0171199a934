/** Order in time: Lamport clocks across the server, and scope revisions. */
module Ordering {
  import opened Cells
  import opened Payload
  import opened Server
  import opened ServerFacts
  import opened Replica
  import opened Client
  import opened ClientFacts
  import opened System
  import opened SystemProofs
  import opened Runs
  import opened Theorems

  // --- Lamport condition ----------------------------------------------

  lemma AnswerClock(s: State, r: Request, sec: Security, env: Env)
    requires Valid(s) && Answered(s, r, sec, env).Ok?
    ensures var v := Answered(s, r, sec, env).value;
      AnswerIn(v.exchange).lamport == v.state.lamport > s.lamport
  {
    match r
    case Full(p) =>
      MergeGrows(s, p, p.source, sec, env);
      MergeResponse(s, p, p.source, sec, env);
    case Scoped(q) =>
      MergeGrows(s, q.sync, q.sync.source, ALLOW_ALL, env);
      MergeResponse(s, q.sync, q.sync.source, ALLOW_ALL, env);
  }

  lemma DeliveredClock(c: Client, e: Exchange, t: Schema)
    requires Complete(c, e, t).Ok?
    ensures Complete(c, e, t).value.clock > AnswerIn(e).lamport
  {
    match e
    case FullExchange(p, r) => SyncedClock(c, p, r, t);
    case ScopedExchange(q, r) =>
      SyncedClock(c, q.sync, r.sync, t);
      PartialClock(c, q, r, t);
  }

  lemma SyncedClock(c: Client, p: SyncPayload, r: SyncPayload, t: Schema)
    requires CompleteSync(c, p, r, t).Ok?
    ensures CompleteSync(c, p, r, t).value.clock > r.lamport
  {
    CompleteShape(c, p, r, t);
  }

  lemma PartialClock(c: Client, q: PartialRequest, r: PartialResponse, t: Schema)
    requires CompletePartial(c, q, r, t).Ok?
    ensures CompleteSync(c, q.sync, r.sync, t).Ok?
    ensures CompletePartial(c, q, r, t).value.clock == CompleteSync(c, q.sync, r.sync, t).value.clock
  {
  }

  /** The server held `v` at `k` when it produced the answer of `e`. Whatever happens in between,
      a device that has received that answer writes, anywhere, only strictly newer versions than `v`,
      whether or not the answer carried that cell. */
  lemma WritesAfterAnswerAreNewer(
    s: System, k: Key, r: Request, sec: Security, mid: seq<Action>,
    after: seq<Action>, op: LocalOp, n: Client, j: Key, env: Env)
    requires WellFormed(env.schema) && Reachable(s, env)
    requires k in s.server.cells && r in s.requests && Answered(s.server, r, sec, env).Ok?
    requires var e := Answered(s.server, r, sec, env).value.exchange; var d := SentIn(e).source;
      var u := Run(StepServe(s, r, sec, env), mid, env);
      && d in u.devices && Complete(u.devices[d], e, env.schema).Ok?
      && var w := Run(StepDeliver(u, e, env), after, env);
         d in w.devices && Wrote(w.devices[d], op, env.schema, n, j)
    ensures s.server.cells[k].version.clock < n.log[j].cell.version.clock
    ensures Older(s.server.cells[k].version, n.log[j].cell.version)
  {
    ReachableOk(s, env);
    var e := Answered(s.server, r, sec, env).value.exchange;
    var d := SentIn(e).source;
    AnswerClock(s.server, r, sec, env);
    ServeStepKeeps(s, r, sec, env);
    var u := Run(StepServe(s, r, sec, env), mid, env);
    RunLater(StepServe(s, r, sec, env), mid, env);
    assert e in u.exchanges;
    ClockAfterDelivery(u, e, after, env);
    WriteVersion(Run(StepDeliver(u, e, env), after, env).devices[d], op, env.schema, n, j);
  }

  lemma ClockAfterDelivery(u: System, e: Exchange, after: seq<Action>, env: Env)
    requires WellFormed(env.schema) && Inv(u, env.schema) && e in u.exchanges
    requires SentIn(e).source in u.devices && Complete(u.devices[SentIn(e).source], e, env.schema).Ok?
    ensures var w := Run(StepDeliver(u, e, env), after, env);
      SentIn(e).source in w.devices && w.devices[SentIn(e).source].clock > AnswerIn(e).lamport
  {
    var d := SentIn(e).source;
    DeliveredClock(u.devices[d], e, env.schema);
    DeliverStepKeeps(u, e, env);
    var v := StepDeliver(u, e, env);
    RunLater(v, after, env);
    assert Moves(v.devices[d], Run(v, after, env).devices[d]);
  }

  // --- Scope revisions -------------------------------------------------

  /** A scoped answer is applied only at the scope's current, active revision. */
  lemma AppliedRevision(c: Client, q: PartialRequest, r: PartialResponse, t: Schema)
    requires CompletePartial(c, q, r, t).Ok?
    ensures q.scope in c.scopes && c.scopes[q.scope] == Scope(q.version, true)
  {
  }

  /** In every run the revisions applied to one scope of one device never decrease. */
  lemma AppliedRevisionsMonotone(s: System, d: string, q1: PartialRequest, r1: PartialResponse,
                                 between: seq<Action>, q2: PartialRequest, r2: PartialResponse, env: Env)
    requires WellFormed(env.schema) && Reachable(s, env) && d in s.devices && q1.scope == q2.scope
    requires CompletePartial(s.devices[d], q1, r1, env.schema).Ok?
    requires d in Run(s, between, env).devices && CompletePartial(Run(s, between, env).devices[d], q2, r2, env.schema).Ok?
    ensures q1.version <= q2.version
  {
    ReachableOk(s, env);
    RunLater(s, between, env);
    AppliedRevision(s.devices[d], q1, r1, env.schema);
    AppliedRevision(Run(s, between, env).devices[d], q2, r2, env.schema);
    assert Moves(s.devices[d], Run(s, between, env).devices[d]);
  }

  lemma RemovedRevision(c: Client, scope: string)
    requires RemoveScope(c, scope).Ok?
    ensures var n := RemoveScope(c, scope).value;
      scope in n.scopes && n.scopes[scope].version == ScopeVersion(c, scope) + 1
  {
  }

  /** In every run no answer to a request made before a removal is ever applied after it. */
  lemma NoAnswerOutlivesRemoval(s: System, d: string, q: PartialRequest, r: PartialResponse, after: seq<Action>, env: Env)
    requires WellFormed(env.schema) && Reachable(s, env)
    requires Scoped(q) in s.requests && q.sync.source == d && d in s.devices && RemoveScope(s.devices[d], q.scope).Ok?
    ensures var u := Run(StepUnsubscribe(s, d, q.scope), after, env);
      d in u.devices && CompletePartial(u.devices[d], q, r, env.schema).Err?
  {
    ReachableOk(s, env);
    assert RequestOk(Scoped(q), s.devices[d], s.server, s.history, env.schema);
    var v := StepUnsubscribe(s, d, q.scope);
    UnsubscribeStepKeeps(s, d, q.scope, env);
    RemovedRevision(s.devices[d], q.scope);
    RunLater(v, after, env);
    var u := Run(v, after, env);
    assert Moves(v.devices[d], u.devices[d]);
    if CompletePartial(u.devices[d], q, r, env.schema).Ok? {
      AppliedRevision(u.devices[d], q, r, env.schema);
    }
  }

  /** At every state of every run each scope member is a stored row, and no row is
      both a member of some scope and marked for eviction. */
  lemma ScopesStayConsistent(s: System, d: string, env: Env)
    requires WellFormed(env.schema) && Reachable(s, env) && d in s.devices
    ensures forall m :: m in s.devices[d].members ==> m.row in s.devices[d].rows
    ensures forall m, e :: m in s.devices[d].members && e in s.devices[d].evictions ==> m.row != e.row
  {
    ReachableOk(s, env);
    assert DeviceOk(s.devices[d], s.server, s.history, env.schema);
    assert SoundScopes(s.devices[d]);
  }

  /** At every state of every run the application table shows exactly the logged cells, and defaults elsewhere. */
  lemma TableShowsLog(s: System, d: string, k: Key, env: Env)
    requires WellFormed(env.schema) && Reachable(s, env) && d in s.devices && k in s.devices[d].app
    ensures var c := s.devices[d];
      && k.column in env.schema.types
      && c.app[k] == (if k in c.log then c.log[k].cell.value else DefaultValue(env.schema.types[k.column]))
      && (k in c.log ==> c.log[k].cell.version.clock <= c.clock)
  {
    ReachableOk(s, env);
    assert DeviceOk(s.devices[d], s.server, s.history, env.schema);
    assert Materialised(s.devices[d], env.schema, k) && SoundEntry(s.devices[d], env.schema, k);
  }
}
