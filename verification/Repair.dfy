/** Leaving scopes and resetting the cursor: exactly when a device then covers the feed again for good. */
module Repair {
  import opened Names
  import opened Cells
  import opened Payload
  import opened Server
  import opened ServerFacts
  import opened Replica
  import opened Client
  import opened ClientFacts
  import opened Conservation
  import opened System
  import opened SystemProofs
  import opened Runs
  import opened Theorems
  import opened Closure
  import opened BareAcknowledge
  import opened Settling

  /** No scope is active, and neither members nor pending evictions are left. */
  ghost predicate LeftScopes(c: Client) {
    && c.members == {} && c.evictions == {}
    && forall x :: x in c.scopes ==> !c.scopes[x].active
  }

  /** Every full request the device ever sent started at a cursor it covers now. */
  ghost predicate SentCovered(s: System, d: string) {
    d in s.devices && forall p :: Full(p) in s.requests && p.source == d ==> Covers(s.devices[d], s.server, p.cursor)
  }

  /** The device sends no scoped request. */
  predicate NoScopedSend(actions: seq<Action>, d: string) {
    forall i :: 0 <= i < |actions| ==> !(actions[i].SendScoped? && actions[i].device == d)
  }

  ghost predicate CoversCursor(s: System, d: string) {
    d in s.devices && Covers(s.devices[d], s.server, s.devices[d].cursor)
  }

  ghost predicate Repaired(s: System, d: string) {
    CoversCursor(s, d) && LeftScopes(s.devices[d]) && SentCovered(s, d)
  }

  // --- Every exchange answers a request of the pool --------------------

  ghost predicate Asked(s: System) {
    forall e :: e in s.exchanges && e.FullExchange? ==> Full(e.sent) in s.requests
  }

  lemma StepAsked(s: System, a: Action, env: Env)
    requires Asked(s)
    ensures Asked(Step(s, a, env))
  {
    match a
    case Serve(r, sec) =>
      if r in s.requests && Answered(s.server, r, sec, env).Ok? {
        ServeStepIs(s, r, sec, env, Answered(s.server, r, sec, env).value);
        AnsweredSent(s.server, r, sec, env);
      }
    case Local(d, op) => PoolsStay(s, StepLocal(s, d, op, env));
    case Send(d) => PoolsStay(s, StepSend(s, d, env));
    case SendScoped(d, scope, interest) => PoolsStay(s, StepSendScoped(s, d, scope, interest, env));
    case Unsubscribe(d, scope) => PoolsStay(s, StepUnsubscribe(s, d, scope));
    case Deliver(e) => PoolsStay(s, StepDeliver(s, e, env));
    case Join(_) =>
    case Rewind(_) =>
  }

  lemma PoolsStay(s: System, u: System)
    requires Asked(s) && u.exchanges == s.exchanges && s.requests <= u.requests
    ensures Asked(u)
  {
  }

  lemma AnsweredSent(s: State, r: Request, sec: Security, env: Env)
    requires Answered(s, r, sec, env).Ok?
    ensures var e := Answered(s, r, sec, env).value.exchange; e.FullExchange? ==> r == Full(e.sent)
  {
  }

  lemma {:induction false} RunAsked(s: System, actions: seq<Action>, env: Env)
    requires Asked(s)
    ensures Asked(Run(s, actions, env))
    decreases |actions|
  {
    if actions != [] {
      RunAsked(s, actions[..|actions| - 1], env);
      StepAsked(Run(s, actions[..|actions| - 1], env), actions[|actions| - 1], env);
    }
  }

  lemma ReachableAsked(s: System, env: Env)
    requires Reachable(s, env)
    ensures Asked(s)
  {
    var actions :| s == Run(INITIAL, actions, env);
    RunAsked(INITIAL, actions, env);
  }

  // --- A repaired device stays repaired --------------------------------

  /** The device keeps what it holds and stays out of scopes, whatever its new cursor is. */
  ghost predicate Stays(c: Client, n: Client) {
    n.device == c.device && LeftScopes(n) && LogGrows(c, n)
  }

  /** The device changes, the server and the pool of requests do not. */
  lemma DeviceRepaired(s: System, u: System, d: string, n: Client)
    requires Repaired(s, d) && u.devices == s.devices[d := n] && u.server == s.server && u.requests == s.requests
    requires Stays(s.devices[d], n) && Covers(n, s.server, n.cursor)
    ensures Repaired(u, d)
  {
    forall p | Full(p) in u.requests && p.source == d ensures Covers(u.devices[d], u.server, p.cursor) {
      CoversLog(s.devices[d], n, s.server, p.cursor);
    }
  }

  /** Another device, the history or the pool of exchanges changes, or somebody else's request is added. */
  lemma OthersRepaired(s: System, u: System, d: string)
    requires Repaired(s, d) && d in u.devices && u.devices[d] == s.devices[d] && u.server == s.server
    requires forall r :: r in u.requests ==> r in s.requests || r.Scoped? || PayloadOf(r).source != d
    ensures Repaired(u, d)
  {
    forall p | Full(p) in u.requests && p.source == d ensures Full(p) in s.requests {
      assert PayloadOf(Full(p)).source == d;
    }
  }

  lemma ServerRepaired(s: System, u: System, d: string, t: Schema)
    requires Inv(s, t) && Repaired(s, d) && Grows(s.server, u.server)
    requires u.devices == s.devices && u.requests == s.requests
    ensures Repaired(u, d)
  {
    var c := s.devices[d];
    assert DeviceOk(c, s.server, s.history, t);
    IssuedBound(s.server, d);
    CoversServer(c, s.server, u.server, c.cursor);
    forall p | Full(p) in u.requests && p.source == d ensures Covers(c, u.server, p.cursor) {
      assert RequestOk(Full(p), s.devices[PayloadOf(Full(p)).source], s.server, s.history, t);
      CoversServer(c, s.server, u.server, p.cursor);
    }
  }

  lemma LocalStays(c: Client, op: LocalOp, n: Client, s: State, t: Schema)
    requires Sound(c, t) && Apply(c, op, t) == Ok(n) && LeftScopes(c) && Covers(c, s, c.cursor)
    ensures Stays(c, n) && Covers(n, s, n.cursor)
  {
    ApplySteps(c, op, t);
    LocalGrows(c, n, t);
    CoversLog(c, n, s, c.cursor);
  }

  lemma LocalIs(s: System, d: string, op: LocalOp, n: Client, env: Env)
    requires d in s.devices && Apply(s.devices[d], op, env.schema) == Ok(n)
    ensures StepLocal(s, d, op, env) == SetDevice(s, d, n).(history := Record(s.history, s.devices[d], n))
  {
  }

  lemma LocalSkips(s: System, d: string, op: LocalOp, env: Env)
    requires d in s.devices ==> Apply(s.devices[d], op, env.schema).Err?
    ensures StepLocal(s, d, op, env) == s
  {
  }

  /** The device itself, or another one, is replaced. */
  lemma OwnDeviceRepaired(s: System, d: string, n: Client, g: History)
    requires Repaired(s, d) && Stays(s.devices[d], n) && Covers(n, s.server, n.cursor)
    ensures Repaired(SetDevice(s, d, n).(history := g), d)
  {
    DeviceRepaired(s, SetDevice(s, d, n).(history := g), d, n);
  }

  lemma OtherDeviceRepaired(s: System, d: string, x: string, n: Client, g: History)
    requires Repaired(s, d) && x != d
    ensures Repaired(SetDevice(s, x, n).(history := g), d)
  {
    OthersRepaired(s, SetDevice(s, x, n).(history := g), d);
  }

  lemma DeviceSound(s: System, d: string, t: Schema)
    requires Inv(s, t) && d in s.devices
    ensures Sound(s.devices[d], t)
  {
    assert DeviceOk(s.devices[d], s.server, s.history, t);
  }

  lemma LocalRepaired(s: System, d: string, x: string, op: LocalOp, env: Env)
    requires Inv(s, env.schema) && Repaired(s, d)
    ensures Repaired(StepLocal(s, x, op, env), d)
  {
    if x in s.devices && Apply(s.devices[x], op, env.schema).Ok? {
      var n := Apply(s.devices[x], op, env.schema).value;
      LocalIs(s, x, op, n, env);
      if x == d {
        DeviceSound(s, d, env.schema);
        LocalStays(s.devices[d], op, n, s.server, env.schema);
        OwnDeviceRepaired(s, d, n, Record(s.history, s.devices[d], n));
      } else {
        OtherDeviceRepaired(s, d, x, n, Record(s.history, s.devices[x], n));
      }
    } else {
      LocalSkips(s, x, op, env);
    }
  }

  lemma SendRepaired(s: System, d: string, x: string, env: Env)
    requires Inv(s, env.schema) && Repaired(s, d)
    ensures Repaired(StepSend(s, x, env), d)
  {
    if x in s.devices && LocalDelta(s.devices[x], env.schema).Ok? {
      var p := DeltaOf(s.devices[x], env.schema);
      var u := s.(requests := s.requests + {Full(p)});
      assert s.devices[x].device == x;
      forall q | Full(q) in u.requests && q.source == d ensures Covers(u.devices[d], u.server, q.cursor) {
        assert Full(q) in s.requests || q == p;
      }
    }
  }

  lemma SendScopedRepaired(s: System, d: string, x: string, scope: string, interest: Interest, env: Env)
    requires Repaired(s, d) && x != d
    ensures Repaired(StepSendScoped(s, x, scope, interest, env), d)
  {
    OthersRepaired(s, StepSendScoped(s, x, scope, interest, env), d);
  }

  lemma Unsubscribed(c: Client, scope: string)
    requires LeftScopes(c) && RemoveScope(c, scope).Ok?
    ensures var n := RemoveScope(c, scope).value; LeftScopes(n) && n.log == c.log && n.cursor == c.cursor && n.device == c.device
  {
    assert ScopeRows(c, scope) == {};
    var b := Rescope(c, scope, {}, {}).(scopes := c.scopes[scope := Scope(ScopeVersion(c, scope) + 1, false)]);
    assert b.members == {} && b.evictions == {};
    CleanupKeepsLog(b);
    assert RemoveScope(c, scope).value == Cleanup(b);
    assert Cleanup(b).members == {} && Cleanup(b).evictions == {};
  }

  lemma UnsubscribeRepaired(s: System, d: string, x: string, scope: string)
    requires Repaired(s, d)
    ensures Repaired(StepUnsubscribe(s, x, scope), d)
  {
    if x == d && RemoveScope(s.devices[d], scope).Ok? {
      var n := RemoveScope(s.devices[d], scope).value;
      Unsubscribed(s.devices[d], scope);
      LogSame(s.devices[d], n);
      CoversLog(s.devices[d], n, s.server, n.cursor);
      DeviceRepaired(s, StepUnsubscribe(s, x, scope), d, n);
    } else {
      OthersRepaired(s, StepUnsubscribe(s, x, scope), d);
    }
  }

  lemma RewindRepaired(s: System, d: string, x: string, t: Schema)
    requires Inv(s, t) && Repaired(s, d) && x in s.devices
    ensures Repaired(SetDevice(s, x, ResetCursor(s.devices[x])), d)
  {
    if x == d {
      LogSame(s.devices[d], ResetCursor(s.devices[d]));
      CoversZero(ResetCursor(s.devices[d]), s.server);
      DeviceRepaired(s, SetDevice(s, x, ResetCursor(s.devices[x])), d, ResetCursor(s.devices[d]));
    } else {
      OthersRepaired(s, SetDevice(s, x, ResetCursor(s.devices[x])), d);
    }
  }

  lemma CoversZero(c: Client, s: State)
    requires Valid(s)
    ensures Covers(c, s, 0)
  {
    forall k ensures CoversAt(c, s, 0, k) {
    }
  }

  /** A full answer of the pool extends what a repaired device covers; a scoped one no longer applies. */
  lemma CompletedStays(s: System, e: Exchange, n: Client, t: Schema)
    requires Inv(s, t) && Asked(s) && e in s.exchanges && Repaired(s, SentIn(e).source)
    requires Complete(s.devices[SentIn(e).source], e, t) == Ok(n)
    ensures Stays(s.devices[SentIn(e).source], n) && Covers(n, s.server, n.cursor)
  {
    var c := s.devices[SentIn(e).source];
    assert ExchangeOk(e, c, s.server, s.history, t);
    match e
    case FullExchange(p, r) =>
      assert Full(p) in s.requests;
      CompleteCovers(c, p, r, s.server, t);
      CompletedLeft(c, p, r, t);
    case ScopedExchange(q, r) =>
      assert q.scope !in c.scopes || !c.scopes[q.scope].active;
      ScopedFails(c, q, r, t);
  }

  lemma ScopedFails(c: Client, q: PartialRequest, r: PartialResponse, t: Schema)
    requires q.scope !in c.scopes || !c.scopes[q.scope].active
    ensures CompletePartial(c, q, r, t).Err?
  {
  }

  lemma CompletedLeft(c: Client, p: SyncPayload, r: SyncPayload, t: Schema)
    requires LeftScopes(c) && CompleteSync(c, p, r, t).Ok?
    ensures LeftScopes(CompleteSync(c, p, r, t).value) && CompleteSync(c, p, r, t).value.device == c.device
  {
    CompleteShape(c, p, r, t);
    assert Cleanup(Acknowledge(c, CellsOf(p.changes), r.rejections)).evictions == {};
  }

  lemma DeliverRepaired(s: System, d: string, e: Exchange, env: Env)
    requires Inv(s, env.schema) && Asked(s) && Repaired(s, d)
    ensures Repaired(StepDeliver(s, e, env), d)
  {
    var x := SentIn(e).source;
    if e in s.exchanges && x in s.devices && Complete(s.devices[x], e, env.schema).Ok? {
      var n := Complete(s.devices[x], e, env.schema).value;
      DeliverIs(s, e, n, env);
      DeliveredRepaired(s, d, e, n, env.schema);
    }
  }

  lemma DeliveredRepaired(s: System, d: string, e: Exchange, n: Client, t: Schema)
    requires Inv(s, t) && Asked(s) && Repaired(s, d) && e in s.exchanges && SentIn(e).source in s.devices
    requires Complete(s.devices[SentIn(e).source], e, t) == Ok(n)
    ensures Repaired(SetDevice(s, SentIn(e).source, n), d)
  {
    if SentIn(e).source == d {
      CompletedStays(s, e, n, t);
      OwnDeviceRepaired(s, d, n, s.history);
    } else {
      OtherDeviceRepaired(s, d, SentIn(e).source, n, s.history);
    }
  }

  lemma DeliverIs(s: System, e: Exchange, n: Client, env: Env)
    requires e in s.exchanges && SentIn(e).source in s.devices && Complete(s.devices[SentIn(e).source], e, env.schema) == Ok(n)
    ensures StepDeliver(s, e, env) == SetDevice(s, SentIn(e).source, n)
  {
  }

  lemma ServeRepaired(s: System, d: string, r: Request, sec: Security, env: Env)
    requires Inv(s, env.schema) && Repaired(s, d)
    ensures Repaired(StepServe(s, r, sec, env), d)
  {
    if r in s.requests && Answered(s.server, r, sec, env).Ok? {
      ServeKeeps(s.server, r, s.devices[PayloadOf(r).source], sec, env, s.history);
      ServeStepIs(s, r, sec, env, Answered(s.server, r, sec, env).value);
      ServeIsStep(s, r, sec, env);
      ServerRepaired(s, StepServe(s, r, sec, env), d, env.schema);
    }
  }

  lemma JoinRepaired(s: System, d: string, x: string, env: Env)
    requires Repaired(s, d)
    ensures Repaired(Step(s, Join(x), env), d)
  {
    OthersRepaired(s, Step(s, Join(x), env), d);
  }

  lemma LocalIsStep(s: System, d: string, op: LocalOp, env: Env)
    ensures Step(s, Local(d, op), env) == StepLocal(s, d, op, env)
  {
  }

  lemma SendIsStep(s: System, d: string, env: Env)
    ensures Step(s, Send(d), env) == StepSend(s, d, env)
  {
  }

  lemma ScopeStepRepaired(s: System, d: string, a: Action, env: Env)
    requires Inv(s, env.schema) && Repaired(s, d) && (a.SendScoped? || a.Unsubscribe? || a.Rewind?)
    requires !(a.SendScoped? && a.device == d)
    ensures Repaired(Step(s, a, env), d)
  {
    match a
    case SendScoped(x, scope, interest) => SendScopedRepaired(s, d, x, scope, interest, env);
    case Unsubscribe(x, scope) => UnsubscribeRepaired(s, d, x, scope);
    case Rewind(x) => if x in s.devices { RewindRepaired(s, d, x, env.schema); }
  }

  lemma StepRepaired(s: System, d: string, a: Action, env: Env)
    requires Inv(s, env.schema) && WellFormed(env.schema) && Asked(s) && Repaired(s, d)
    requires !(a.SendScoped? && a.device == d)
    ensures Repaired(Step(s, a, env), d)
  {
    match a
    case Join(x) => JoinRepaired(s, d, x, env);
    case Local(x, op) =>
      LocalRepaired(s, d, x, op, env);
      LocalIsStep(s, x, op, env);
    case Send(x) =>
      SendRepaired(s, d, x, env);
      SendIsStep(s, x, env);
    case Serve(r, sec) =>
      ServeRepaired(s, d, r, sec, env);
      ServeIsStep(s, r, sec, env);
    case Deliver(e) =>
      DeliverRepaired(s, d, e, env);
      DeliverIsStep(s, e, env);
    case _ => ScopeStepRepaired(s, d, a, env);
  }

  lemma {:induction false} RunRepaired(s: System, d: string, actions: seq<Action>, env: Env)
    requires Inv(s, env.schema) && WellFormed(env.schema) && Asked(s) && Repaired(s, d) && NoScopedSend(actions, d)
    ensures Repaired(Run(s, actions, env), d)
    decreases |actions|
  {
    if actions != [] {
      var n := |actions| - 1;
      RunRepaired(s, d, actions[..n], env);
      RunLater(s, actions[..n], env);
      RunAsked(s, actions[..n], env);
      StepRepaired(Run(s, actions[..n], env), d, actions[n], env);
    }
  }

  // --- A request from before the reset undoes it -----------------------

  /** An answer carries only cells positioned after the request's cursor. */
  lemma AnswerAbove(s: State, p: SyncPayload, d: string, sec: Security, env: Env, k: Key)
    requires Valid(s) && Merge(s, p, d, sec, env).Ok? && 0 <= p.cursor <= Issued(s, d)
    requires k in CellsOf(Merge(s, p, d, sec, env).value.response.changes)
    ensures var t := Merge(s, p, d, sec, env).value.state; k in t.cellSeq && t.cellSeq[k] > p.cursor
  {
    var b, m := MergeParts(s, p, d, sec, env);
    IssuedCapped(s, d);
    PageAbove(b.cells, b.seqNo, b.cellSeq, p.cursor, env, k);
  }

  lemma PageAbove(cells: map<Key, Cell>, seqNo: nat, cellSeq: map<Key, nat>, cursor: int, env: Env, k: Key)
    requires k in CellsOf(GroupRows(Restrict(cells, PageFrom(cells, seqNo, cellSeq, cursor, env).keys)))
    ensures k in cellSeq && cellSeq[k] > cursor
  {
    var page := PageFrom(cells, seqNo, cellSeq, cursor, env);
    GroupRowsRoundTrip(Restrict(cells, page.keys));
    assert k in page.keys;
    assert k in Pending(cells, cellSeq, cursor);
  }

  /** A merge that denies everything leaves cells and feed as they were. */
  lemma DeniedSame(s: State, p: SyncPayload, env: Env)
    requires Valid(s) && Merge(s, p, p.source, DENY_ALL, env).Ok?
    ensures var t := Merge(s, p, p.source, DENY_ALL, env).value.state; t.cells == s.cells && t.cellSeq == s.cellSeq
  {
    var b, m := MergeParts(s, p, p.source, DENY_ALL, env);
    forall k ensures Lookup(b.cells, k) == Lookup(s.cells, k) && Lookup(b.cellSeq, k) == Lookup(s.cellSeq, k) {
      assert JoinedAt(Start(s), RulingOf(DENY_ALL, p.source), m, b, k);
      if k in m { NeverApplied(Write(k, m[k]), p.source, Lookup(s.cells, k)); }
    }
    LookupEqual(b.cells, s.cells);
    LookupEqual(b.cellSeq, s.cellSeq);
  }

  lemma NeverApplied(w: Write, d: string, x: Option<Cell>)
    ensures !RulingOf(DENY_ALL, d)(w, x).Applied?
  {
  }

  /** A page that skips an uncovered cell and ends beyond it leaves it uncovered. */
  lemma StillUncovered(c: Client, p: SyncPayload, r: SyncPayload, s: State, t: Schema, k: Key)
    requires CompleteSync(c, p, r, t).Ok? && c.evictions == {} && !r.cursorReset
    requires !CoversAt(c, s, p.cursor, k) && p.cursor <= r.cursor && k !in CellsOf(r.changes)
    ensures var n := CompleteSync(c, p, r, t).value; !Covers(n, s, n.cursor)
  {
    CompleteShape(c, p, r, t);
    CleanupKeepsLog(Acknowledge(c, CellsOf(p.changes), r.rejections));
    assert !CoversAt(CompleteSync(c, p, r, t).value, s, CompleteSync(c, p, r, t).value.cursor, k);
  }

  /** A denied merge answers with a page beyond the request's cursor, and changes nothing. */
  lemma DeniedAnswer(s: State, p: SyncPayload, env: Env, m: Merged, k: Key)
    requires Valid(s) && Merge(s, p, p.source, DENY_ALL, env) == Ok(m) && 0 <= p.cursor <= Issued(s, p.source)
    requires k in s.cellSeq && s.cellSeq[k] <= p.cursor
    ensures m.state.cells == s.cells && m.state.cellSeq == s.cellSeq
    ensures forall c :: CoversAt(c, m.state, p.cursor, k) == CoversAt(c, s, p.cursor, k)
    ensures p.cursor <= m.response.cursor && k !in CellsOf(m.response.changes)
  {
    DeniedSame(s, p, env);
    AnsweredPage(s, p, p.source, DENY_ALL, env);
    if k in CellsOf(m.response.changes) { AnswerAbove(s, p, p.source, DENY_ALL, env, k); }
  }

  lemma SentBounds(s: System, p: SyncPayload, t: Schema)
    requires Inv(s, t) && Full(p) in s.requests
    ensures p.source in s.devices && s.devices[p.source].device == p.source && Valid(s.server)
    ensures p.lamport <= s.devices[p.source].clock && 0 <= p.cursor <= Issued(s.server, p.source)
  {
    assert RequestOk(Full(p), s.devices[PayloadOf(Full(p)).source], s.server, s.history, t);
  }

  lemma ReachableBounds(s: System, p: SyncPayload, env: Env)
    requires WellFormed(env.schema) && Reachable(s, env) && Full(p) in s.requests
    ensures p.source in s.devices && s.devices[p.source].device == p.source && Valid(s.server)
    ensures p.lamport <= s.devices[p.source].clock && 0 <= p.cursor <= Issued(s.server, p.source)
  {
    ReachableOk(s, env);
    SentBounds(s, p, env.schema);
  }

  /** The device can complete an exchange of the pool while its clock has room. */
  lemma PoolCompletes(u: System, e: Exchange, env: Env) returns (n: Client)
    requires WellFormed(env.schema) && Reachable(u, env) && e in u.exchanges && e.FullExchange? && e.sent.source in u.devices
    requires Max(u.devices[e.sent.source].clock, e.response.lamport) < I64_MAX
    ensures CompleteSync(u.devices[e.sent.source], e.sent, e.response, env.schema) == Ok(n) && !e.response.cursorReset
  {
    DeliverCloses(u, e, env);
    NeverReset(u, e, env);
    n := CompleteSync(u.devices[e.sent.source], e.sent, e.response, env.schema).value;
  }

  lemma DeniedClock(s: State, p: SyncPayload, env: Env, m: Merged)
    requires Valid(s) && Merge(s, p, p.source, DENY_ALL, env) == Ok(m)
    ensures m.response.lamport == Max(s.lamport, p.lamport) + 1
  {
    MergeResponse(s, p, p.source, DENY_ALL, env);
    MergeGrows(s, p, p.source, DENY_ALL, env);
  }

  /** A cell the device does not cover, and that the denied answer to its request skips. */
  lemma StaleAnswer(c: Client, s: State, p: SyncPayload, m: Merged, env: Env) returns (k: Key)
    requires Valid(s) && 0 <= p.cursor <= Issued(s, p.source) && !Covers(c, s, p.cursor)
    requires Merge(s, p, p.source, DENY_ALL, env) == Ok(m)
    ensures !CoversAt(c, m.state, p.cursor, k)
    ensures p.cursor <= m.response.cursor && k !in CellsOf(m.response.changes)
  {
    k :| !CoversAt(c, s, p.cursor, k);
    DeniedAnswer(s, p, env, m, k);
  }

  /** Completing an answer of the pool that skips an uncovered cell. */
  lemma StaleCompletes(u: System, p: SyncPayload, r: SyncPayload, k: Key, env: Env) returns (n: Client)
    requires WellFormed(env.schema) && Reachable(u, env) && FullExchange(p, r) in u.exchanges && p.source in u.devices
    requires u.devices[p.source].evictions == {} && !CoversAt(u.devices[p.source], u.server, p.cursor, k)
    requires p.cursor <= r.cursor && k !in CellsOf(r.changes) && Max(u.devices[p.source].clock, r.lamport) < I64_MAX
    ensures CompleteSync(u.devices[p.source], p, r, env.schema) == Ok(n) && !Covers(n, u.server, n.cursor)
  {
    n := PoolCompletes(u, FullExchange(p, r), env);
    StillUncovered(u.devices[p.source], p, r, u.server, env.schema, k);
  }

  lemma RunTwo(s: System, a: Action, b: Action, env: Env)
    ensures Run(s, [a, b], env) == Step(Step(s, a, env), b, env)
  {
    assert [a, b][..1] == [a] && [a][..0] == [];
    assert Run(s, [a], env) == Step(s, a, env);
  }

  lemma DeliverIsStep(s: System, e: Exchange, env: Env)
    ensures Step(s, Deliver(e), env) == StepDeliver(s, e, env)
  {
  }

  lemma DeliveryUncovers(u: System, e: Exchange, n: Client, env: Env)
    requires e in u.exchanges && e.FullExchange? && e.sent.source in u.devices
    requires Complete(u.devices[e.sent.source], e, env.schema) == Ok(n) && !Covers(n, u.server, n.cursor)
    ensures !CoversCursor(Step(u, Deliver(e), env), e.sent.source)
  {
    DeliverIs(u, e, n, env);
    DeliverIsStep(u, e, env);
    UncoveredDevice(u, e.sent.source, n);
  }

  lemma UncoveredDevice(u: System, d: string, n: Client)
    requires !Covers(n, u.server, n.cursor)
    ensures !CoversCursor(SetDevice(u, d, n), d)
  {
  }

  /** Completing the denied answer to a request that started at an uncovered cursor. */
  lemma StaleDelivered(c: Client, s: State, p: SyncPayload, m: Merged, u: System, env: Env)
    requires WellFormed(env.schema) && Valid(s) && 0 <= p.cursor <= Issued(s, p.source) && !Covers(c, s, p.cursor)
    requires Merge(s, p, p.source, DENY_ALL, env) == Ok(m) && Reachable(u, env) && FullExchange(p, m.response) in u.exchanges
    requires p.source in u.devices && u.devices[p.source] == c && u.server == m.state && c.evictions == {}
    requires Max(c.clock, Max(s.lamport, p.lamport) + 1) < I64_MAX
    ensures !CoversCursor(Step(u, Deliver(FullExchange(p, m.response)), env), p.source)
  {
    var k := StaleAnswer(c, s, p, m, env);
    DeniedClock(s, p, env, m);
    var n := StaleCompletes(u, p, m.response, k, env);
    DeliveryUncovers(u, FullExchange(p, m.response), n, env);
  }

  /** The state after serving a request under the denying policy. */
  lemma DeniedStep(t: System, p: SyncPayload, env: Env) returns (u: System, m: Merged)
    requires WellFormed(env.schema) && Reachable(t, env) && Full(p) in t.requests
    requires ClockAdvanceOk(t.server.lamport, p.lamport) && Max(t.server.lamport, p.lamport) + 1 <= U64_MAX
    ensures Merge(t.server, p, p.source, DENY_ALL, env) == Ok(m)
    ensures u == Step(t, Serve(Full(p), DENY_ALL), env) && Reachable(u, env)
    ensures u.devices == t.devices && u.server == m.state && FullExchange(p, m.response) in u.exchanges
  {
    u, m := DeniedState(t, p, env);
    ServedIs(t, p, DENY_ALL, env, m);
  }

  /** Served and completed, a request that started at an uncovered cursor leaves its device uncovering. */
  lemma StaleLifts(t: System, p: SyncPayload, env: Env) returns (after: seq<Action>)
    requires WellFormed(env.schema) && Reachable(t, env) && Full(p) in t.requests && p.source in t.devices
    requires t.devices[p.source].evictions == {} && !Covers(t.devices[p.source], t.server, p.cursor)
    requires ClockAdvanceOk(t.server.lamport, p.lamport) && Max(t.devices[p.source].clock, t.server.lamport) + 1 < I64_MAX
    ensures NoScopedSend(after, p.source) && !CoversCursor(Run(t, after, env), p.source)
  {
    var r := StaleSteps(t, p, env);
    after := [Serve(Full(p), DENY_ALL), Deliver(FullExchange(p, r))];
    RunTwo(t, Serve(Full(p), DENY_ALL), Deliver(FullExchange(p, r)), env);
  }

  lemma StaleSteps(t: System, p: SyncPayload, env: Env) returns (r: SyncPayload)
    requires WellFormed(env.schema) && Reachable(t, env) && Full(p) in t.requests && p.source in t.devices
    requires t.devices[p.source].evictions == {} && !Covers(t.devices[p.source], t.server, p.cursor)
    requires ClockAdvanceOk(t.server.lamport, p.lamport) && Max(t.devices[p.source].clock, t.server.lamport) + 1 < I64_MAX
    ensures !CoversCursor(Step(Step(t, Serve(Full(p), DENY_ALL), env), Deliver(FullExchange(p, r)), env), p.source)
  {
    ReachableBounds(t, p, env);
    var u, m := DeniedStep(t, p, env);
    StaleDelivered(t.devices[p.source], t.server, p, m, u, env);
    r := m.response;
  }

  /** Serving a request from before the reset and completing its answer lifts the cursor
      back over cells that the device does not hold. */
  lemma StaleRequestLifts(s: System, d: string, p: SyncPayload, env: Env) returns (after: seq<Action>)
    requires WellFormed(env.schema) && Reachable(s, env) && d in s.devices && LeftScopes(s.devices[d])
    requires Full(p) in s.requests && p.source == d && !Covers(s.devices[d], s.server, p.cursor)
    requires ClockAdvanceOk(s.server.lamport, p.lamport) && Max(s.devices[d].clock, s.server.lamport) + 1 < I64_MAX
    ensures NoScopedSend(after, d) && !CoversCursor(Run(Step(s, Rewind(d), env), after, env), d)
  {
    ReachableNext(s, Rewind(d), env);
    Uncovered(s.devices[d], s.server, p.cursor);
    RewindIs(s, d, env);
    after := StaleLifts(SetDevice(s, d, ResetCursor(s.devices[d])), p, env);
  }

  lemma RewindIs(s: System, d: string, env: Env)
    requires d in s.devices
    ensures Step(s, Rewind(d), env) == SetDevice(s, d, ResetCursor(s.devices[d]))
  {
  }

  lemma Uncovered(c: Client, s: State, n: int)
    requires !Covers(c, s, n)
    ensures !Covers(ResetCursor(c), s, n)
  {
    var k :| !CoversAt(c, s, n, k);
    assert !CoversAt(ResetCursor(c), s, n, k);
  }

  // --- Exactly ---------------------------------------------------------

  /** The device covers the feed up to its cursor after every continuation of the reset without scoped requests of its own. */
  ghost predicate StaysRepaired(s: System, d: string, env: Env) {
    forall after :: NoScopedSend(after, d) ==> CoversCursor(Run(Step(s, Rewind(d), env), after, env), d)
  }

  lemma ResetStarts(s: System, d: string, t: Schema)
    requires Inv(s, t) && d in s.devices && LeftScopes(s.devices[d]) && SentCovered(s, d)
    ensures Repaired(SetDevice(s, d, ResetCursor(s.devices[d])), d)
  {
    var n := ResetCursor(s.devices[d]);
    CoversZero(n, s.server);
    LogSame(s.devices[d], n);
    forall p | Full(p) in s.requests && p.source == d ensures Covers(n, s.server, p.cursor) {
      CoversLog(s.devices[d], n, s.server, p.cursor);
    }
  }

  lemma ReachableRepaired(u: System, d: string, after: seq<Action>, env: Env)
    requires WellFormed(env.schema) && Reachable(u, env) && Repaired(u, d) && NoScopedSend(after, d)
    ensures Repaired(Run(u, after, env), d)
  {
    ReachableOk(u, env);
    ReachableAsked(u, env);
    RunRepaired(u, d, after, env);
  }

  lemma ResetKeepsRepaired(s: System, d: string, after: seq<Action>, env: Env)
    requires WellFormed(env.schema) && Reachable(s, env) && d in s.devices && LeftScopes(s.devices[d]) && SentCovered(s, d)
    requires NoScopedSend(after, d)
    ensures Repaired(Run(Step(s, Rewind(d), env), after, env), d)
  {
    var u := SetDevice(s, d, ResetCursor(s.devices[d]));
    ReachableOk(s, env);
    ResetStarts(s, d, env.schema);
    RewindIs(s, d, env);
    ReachableNext(s, Rewind(d), env);
    ReachableRepaired(u, d, after, env);
  }

  /** From any reachable state: a device that left its scopes and resets its cursor covers the feed up to its cursor
      at every later state, until it uses a scope again, if and only if each full request it ever sent, each of which
      may still be answered, started at a cursor it covers. */
  lemma ResetRepairsExactly(s: System, d: string, env: Env)
    requires WellFormed(env.schema) && Reachable(s, env) && d in s.devices && LeftScopes(s.devices[d])
    requires Max(s.devices[d].clock, s.server.lamport) + 1 < I64_MAX
    requires forall p :: Full(p) in s.requests && p.source == d ==> ClockAdvanceOk(s.server.lamport, p.lamport)
    ensures StaysRepaired(s, d, env) <==> SentCovered(s, d)
  {
    if SentCovered(s, d) {
      forall after | NoScopedSend(after, d) ensures CoversCursor(Run(Step(s, Rewind(d), env), after, env), d) {
        ResetKeepsRepaired(s, d, after, env);
      }
    }
    if StaysRepaired(s, d, env) {
      forall p | Full(p) in s.requests && p.source == d ensures Covers(s.devices[d], s.server, p.cursor) {
        if !Covers(s.devices[d], s.server, p.cursor) {
          var after := StaleRequestLifts(s, d, p, env);
          assert false;
        }
      }
    }
  }

  /** A repaired device that is clean at the end of the feed stores exactly the server's cells. */
  lemma RepairedConverges(s: System, d: string, after: seq<Action>, env: Env)
    requires WellFormed(env.schema) && Reachable(s, env) && d in s.devices && LeftScopes(s.devices[d]) && SentCovered(s, d)
    requires NoScopedSend(after, d)
    ensures var u := Run(Step(s, Rewind(d), env), after, env);
      d in u.devices && (DirtyCells(u.devices[d]) == map[] && u.server.seqNo <= u.devices[d].cursor ==>
        Held(u.devices[d]) == u.server.cells)
  {
    var t := Step(s, Rewind(d), env);
    var u := Run(t, after, env);
    ResetKeepsRepaired(s, d, after, env);
    ReachableNext(s, Rewind(d), env);
    ReachableOk(t, env);
    RunLater(t, after, env);
    assert DeviceOk(u.devices[d], u.server, u.history, env.schema);
    if DirtyCells(u.devices[d]) == map[] && u.server.seqNo <= u.devices[d].cursor {
      CleanEquals(u.devices[d], u.server, u.history, env.schema);
    }
  }
}
