/** A partial-replica round makes the scope agree with the query it stands for. */
module PartialAgreement {
  import opened Names
  import opened Cells
  import opened Payload
  import opened Server
  import opened Replica
  import opened Client
  import opened ClientFacts
  import opened Conservation
  import opened System
  import opened SystemProofs
  import opened Runs

  /** Request `q` of the pool of `s` was served, giving `m`; whatever happened in `mid`, its answer
      was then completed on the device's state in `u`, giving `c`. */
  ghost predicate Completed(s: System, q: PartialRequest, sec: Security, m: PartialMerged, mid: seq<Action>,
                            u: System, c: Client, env: Env) {
    && Reachable(s, env) && Scoped(q) in s.requests
    && MergePartial(s.server, q, q.sync.source, env) == Ok(m)
    && u == Run(StepServe(s, Scoped(q), sec, env), mid, env)
    && q.sync.source in u.devices
    && CompletePartial(u.devices[q.sync.source], q, m.response, env.schema) == Ok(c)
  }

  lemma ScopedServed(s: System, q: PartialRequest, sec: Security, m: PartialMerged, env: Env)
    requires Scoped(q) in s.requests && MergePartial(s.server, q, q.sync.source, env) == Ok(m)
    ensures ScopedExchange(q, m.response) in StepServe(s, Scoped(q), sec, env).exchanges
    ensures StepServe(s, Scoped(q), sec, env).server == m.state
  {
    assert Answered(s.server, Scoped(q), sec, env) == Ok(Served(m.state, ScopedExchange(q, m.response)));
  }

  /** Everything is in order when the answer is completed. */
  lemma CompletedInOrder(s: System, q: PartialRequest, sec: Security, m: PartialMerged, mid: seq<Action>,
                         u: System, c: Client, env: Env)
    requires WellFormed(env.schema) && Completed(s, q, sec, m, mid, u, c, env)
    ensures Inv(u, env.schema) && DeviceOk(c, u.server, u.history, env.schema)
    ensures ExchangeOk(ScopedExchange(q, m.response), u.devices[q.sync.source], u.server, u.history, env.schema)
  {
    ReachableOk(s, env);
    ServeStepKeeps(s, Scoped(q), sec, env);
    ScopedServed(s, q, sec, m, env);
    RunLater(StepServe(s, Scoped(q), sec, env), mid, env);
    ExchangeInOrder(u, q, m.response, env.schema);
    ScopedKeeps(u.devices[q.sync.source], ScopedExchange(q, m.response), u.server, u.history, env.schema);
  }

  lemma ExchangeInOrder(u: System, q: PartialRequest, r: PartialResponse, t: Schema)
    requires Inv(u, t) && ScopedExchange(q, r) in u.exchanges
    ensures q.sync.source in u.devices
    ensures ExchangeOk(ScopedExchange(q, r), u.devices[q.sync.source], u.server, u.history, t)
    ensures DeviceOk(u.devices[q.sync.source], u.server, u.history, t)
  {
    assert SentIn(ScopedExchange(q, r)).source in u.devices;
  }

  /** An answer names the live matching rows, carries exactly their cells, and
      evicts the known rows that are none of them. */
  ghost predicate AnswersQuery(known: set<string>, cells: map<Key, Cell>, interest: Interest, r: PartialResponse) {
    var rows := MembersOf(cells, interest);
    && Elements(r.members) == rows
    && CellsOf(r.sync.changes) == RowsCells(cells, rows)
    && Elements(r.evicted) == known - rows
  }

  lemma AnswerMerged(s: State, req: PartialRequest, device: string, env: Env, m: PartialMerged)
    requires MergePartial(s, req, device, env) == Ok(m) && StrictlySorted(req.known)
    ensures AnswersQuery(Elements(req.known), m.state.cells, req.interest, m.response)
  {
    var n := Merge(s, req.sync, device, ALLOW_ALL, env);
    assert n.Ok?;
    SnapshotAnswers(n.value, req);
  }

  lemma SnapshotAnswers(n: Merged, req: PartialRequest)
    requires StrictlySorted(req.known)
    ensures AnswersQuery(Elements(req.known), n.state.cells, req.interest, Snapshot(n, req))
  {
    var rows := MembersOf(n.state.cells, req.interest);
    GroupRowsRoundTrip(RowsCells(n.state.cells, rows));
    DroppedRows(req.known, rows);
  }

  lemma DroppedRows(known: seq<string>, rows: set<string>)
    requires StrictlySorted(known)
    ensures Elements(SortedSeq(rows)) == rows
    ensures Elements(Dropped(known, SortedSeq(rows))) == Elements(known) - rows
  {
    DroppedMembers(known, SortedSeq(rows));
  }

  lemma RescopedRows(a: Client, scope: string, rows: set<string>, lost: set<string>)
    ensures ScopeRows(Rescope(a, scope, rows, lost), scope) == rows
  {
    var b := Rescope(a, scope, rows, lost);
    forall x | x in rows ensures x in ScopeRows(b, scope) {
      assert Member(scope, x) in b.members;
    }
  }

  /** After completion the scope's rows are the answered members. */
  lemma CompletedScope(c1: Client, q: PartialRequest, r: PartialResponse, c: Client, t: Schema)
    requires CompletePartial(c1, q, r, t) == Ok(c)
    ensures ScopeRows(c, q.scope) == Elements(r.members)
  {
    var a := CompleteSync(c1, q.sync, r.sync, t).value;
    var b := Rescope(a, q.scope, Elements(r.members), Elements(r.evicted));
    assert c == Cleanup(b);
    RescopedRows(a, q.scope, Elements(r.members), Elements(r.evicted));
    CleanupScopes(b, q.scope);
  }

  lemma CleanupScopes(b: Client, scope: string)
    ensures ScopeRows(Cleanup(b), scope) == ScopeRows(b, scope)
  {
  }

  /** Rescoping and cleaning up keep the log of every row that stays in a scope. */
  lemma HeldRowsKept(a: Client, scope: string, rows: set<string>, lost: set<string>, k: Key)
    requires k.row in rows
    ensures var c := Cleanup(Rescope(a, scope, rows, lost));
      (k in c.log <==> k in a.log) && (k in c.log ==> c.log[k] == a.log[k])
  {
    var b := Rescope(a, scope, rows, lost);
    assert Member(scope, k.row) in b.members;
    assert HeldByScope(b, k.row);
  }

  lemma MemberCellHeld(c1: Client, q: PartialRequest, r: PartialResponse, c: Client, t: Schema, k: Key)
    requires CompletePartial(c1, q, r, t) == Ok(c) && k in CellsOf(r.sync.changes) && k.row in r.members
    ensures k in c.log && AtMost(CellsOf(r.sync.changes)[k].version, c.log[k].cell.version)
  {
    var a := CompleteSync(c1, q.sync, r.sync, t).value;
    var b := Cleanup(Acknowledge(c1, CellsOf(q.sync.changes), r.sync.rejections));
    CompleteShape(c1, q.sync, r.sync, t);
    AbsorbedHolds(b, CellsOf(r.sync.changes), RowSet(r.sync.changes), t, k);
    HeldRowsKept(a, q.scope, Elements(r.members), Elements(r.evicted), k);
  }

  /** The answer as the server's state at service, whenever it is completed. */
  lemma CompletedAnswer(s: System, q: PartialRequest, sec: Security, m: PartialMerged, mid: seq<Action>,
                        u: System, c: Client, env: Env)
    requires WellFormed(env.schema) && Completed(s, q, sec, m, mid, u, c, env)
    ensures AnswersQuery(Elements(q.known), m.state.cells, q.interest, m.response)
  {
    assert StrictlySorted(q.known);
    AnswerMerged(s.server, q, q.sync.source, env, m);
  }

  /** However late an answer is completed, the scope's members are exactly the live rows that
      matched the interest when the server answered. */
  lemma MembersMatchQuery(s: System, q: PartialRequest, sec: Security, m: PartialMerged, mid: seq<Action>,
                          u: System, c: Client, env: Env)
    requires WellFormed(env.schema) && Completed(s, q, sec, m, mid, u, c, env)
    ensures ScopeRows(c, q.scope) == MembersOf(m.state.cells, q.interest)
  {
    CompletedAnswer(s, q, sec, m, mid, u, c, env);
    CompletedScope(u.devices[q.sync.source], q, m.response, c, env.schema);
  }

  /** The clean cell lies between what the server answered and what it holds now; it is
      the server's own where the server has not changed it since. */
  ghost predicate CellBetween(c: Client, answered: map<Key, Cell>, now: map<Key, Cell>, k: Key) {
    && (k in answered ==> k in c.log && AtMost(answered[k].version, c.log[k].cell.version))
    && (k in c.log ==> Holds(now, k, c.log[k].cell.version))
    && (Lookup(now, k) == Lookup(answered, k) ==> Lookup(Held(c), k) == Lookup(now, k))
  }

  lemma CleanCellBetween(c: Client, s: State, answered: map<Key, Cell>, h: History, t: Schema, k: Key)
    requires DeviceOk(c, s, h, t) && AllRecorded(h, s.cells) && !HasDirty(c, k.row)
    requires k in answered ==> k in c.log && AtMost(answered[k].version, c.log[k].cell.version)
    ensures CellBetween(c, answered, s.cells, k)
  {
    assert EntryKnown(c, s.cells, h, k);
    if k in c.log {
      assert !c.log[k].dirty;
      VersionTotal(c.log[k].cell.version, s.cells[k].version);
      assert Recorded(h, k, s.cells[k]);
    }
  }

  /** In every run, each cell of a member row without pending writes is at least the answered one and at
      most the server's present one; where the server still holds what it answered, the two are equal. */
  lemma MembersHoldServerCells(s: System, q: PartialRequest, sec: Security, m: PartialMerged, mid: seq<Action>,
                               u: System, c: Client, env: Env, k: Key)
    requires WellFormed(env.schema) && Completed(s, q, sec, m, mid, u, c, env)
    requires k.row in ScopeRows(c, q.scope) && !HasDirty(c, k.row)
    ensures CellBetween(c, m.state.cells, u.server.cells, k)
  {
    MembersMatchQuery(s, q, sec, m, mid, u, c, env);
    CompletedAnswer(s, q, sec, m, mid, u, c, env);
    CompletedInOrder(s, q, sec, m, mid, u, c, env);
    if k in m.state.cells {
      MemberCellHeld(u.devices[q.sync.source], q, m.response, c, env.schema, k);
    }
    CleanCellBetween(c, u.server, m.state.cells, u.history, env.schema, k);
  }

  /** However late the answer is completed: a row the device knew and the scope lost is gone once no
      scope holds it and no write of it is pending, and stays while another scope holds it. */
  lemma LostRowsEvicted(s: System, q: PartialRequest, sec: Security, m: PartialMerged, mid: seq<Action>,
                        u: System, c: Client, env: Env, row: string)
    requires WellFormed(env.schema) && Completed(s, q, sec, m, mid, u, c, env)
    requires row in q.known && row !in MembersOf(m.state.cells, q.interest)
    ensures HeldByScope(c, row) ==> row in c.rows
    ensures !HeldByScope(c, row) && !HasDirty(c, row) ==>
      row !in c.rows && !Marked(c, row) && forall k :: k in c.log ==> k.row != row
  {
    LostListed(s, q, sec, m, mid, u, c, env, row);
    CompletedSound(s, q, sec, m, mid, u, c, env);
    LostRowGone(u.devices[q.sync.source], q, m.response, c, env.schema, row);
    AbsentRow(c, env.schema, row);
  }

  lemma LostListed(s: System, q: PartialRequest, sec: Security, m: PartialMerged, mid: seq<Action>,
                   u: System, c: Client, env: Env, row: string)
    requires WellFormed(env.schema) && Completed(s, q, sec, m, mid, u, c, env)
    requires row in q.known && row !in MembersOf(m.state.cells, q.interest)
    ensures row in m.response.evicted
  {
    CompletedAnswer(s, q, sec, m, mid, u, c, env);
    assert row in Elements(m.response.evicted);
  }

  lemma CompletedSound(s: System, q: PartialRequest, sec: Security, m: PartialMerged, mid: seq<Action>,
                       u: System, c: Client, env: Env)
    requires WellFormed(env.schema) && Completed(s, q, sec, m, mid, u, c, env)
    ensures Sound(c, env.schema)
  {
    CompletedInOrder(s, q, sec, m, mid, u, c, env);
  }

  lemma AbsentRow(c: Client, t: Schema, row: string)
    requires Sound(c, t)
    ensures HeldByScope(c, row) ==> row in c.rows
    ensures row !in c.rows ==> forall k :: k in c.log ==> k.row != row
  {
    forall k | k in c.log && row !in c.rows ensures k.row != row {
      assert SoundEntry(c, t, k);
    }
  }

  lemma LostRowGone(c1: Client, q: PartialRequest, r: PartialResponse, c: Client, t: Schema, row: string)
    requires CompletePartial(c1, q, r, t) == Ok(c) && row in r.evicted
    ensures !HeldByScope(c, row) && !HasDirty(c, row) ==> row !in c.rows && !Marked(c, row)
  {
    var a := CompleteSync(c1, q.sync, r.sync, t).value;
    var b := Rescope(a, q.scope, Elements(r.members), Elements(r.evicted));
    assert Member(q.scope, row) in b.evictions;
    assert Marked(b, row);
    CleanupDecides(b, row);
  }

  lemma CleanupDecides(b: Client, row: string)
    requires Marked(b, row)
    ensures var c := Cleanup(b);
      !HeldByScope(c, row) && !HasDirty(c, row) ==> row !in c.rows && !Marked(c, row)
  {
    CleanupHolds(b, row);
    CleanupDirty(b, row);
  }

  lemma CleanupHolds(b: Client, row: string)
    ensures HeldByScope(b, row) ==> HeldByScope(Cleanup(b), row)
  {
  }

  lemma CleanupDirty(b: Client, row: string)
    ensures HasDirty(b, row) ==> HasDirty(Cleanup(b), row)
  {
    if HasDirty(b, row) {
      var k :| k in b.log && k.row == row && b.log[k].dirty;
      assert k in Cleanup(b).log;
    }
  }

  /** `e` is the entry `log` had, at most made clean, or a clean copy of an answered cell. */
  ghost predicate Inherited(log: map<Key, Entry>, answered: map<Key, Cell>, k: Key, e: Entry) {
    || (k in log && e.cell == log[k].cell && (e.dirty ==> log[k].dirty))
    || (k in answered && e == Entry(answered[k], false))
  }

  lemma SyncInherits(b: Client, m: map<Key, Cell>, ids: set<string>, t: Schema, k: Key)
    requires k in Absorbed(b, m, ids, t).log
    ensures Inherited(b.log, m, k, Absorbed(b, m, ids, t).log[k])
  {
  }

  lemma AcknowledgeInherits(c: Client, sent: map<Key, Cell>, rs: seq<Rejection>, k: Key)
    requires k in Cleanup(Acknowledge(c, sent, rs)).log
    ensures k in c.log && Inherited(c.log, map[], k, Cleanup(Acknowledge(c, sent, rs)).log[k])
  {
  }

  lemma EvictionInherits(a: Client, scope: string, rows: set<string>, lost: set<string>, k: Key)
    requires k in Cleanup(Rescope(a, scope, rows, lost)).log
    ensures k in a.log && Cleanup(Rescope(a, scope, rows, lost)).log[k] == a.log[k]
  {
  }

  /** Eviction writes nothing: every stored cell after the round, a tombstone
      included, is one the device had or one of the answer. */
  lemma EvictionWritesNothing(c1: Client, q: PartialRequest, r: PartialResponse, c: Client, t: Schema, k: Key)
    requires CompletePartial(c1, q, r, t) == Ok(c) && k in c.log
    ensures Inherited(c1.log, CellsOf(r.sync.changes), k, c.log[k])
  {
    var sent := CellsOf(q.sync.changes);
    var a := CompleteSync(c1, q.sync, r.sync, t).value;
    EvictionInherits(a, q.scope, Elements(r.members), Elements(r.evicted), k);
    CompleteShape(c1, q.sync, r.sync, t);
    var b := Cleanup(Acknowledge(c1, sent, r.sync.rejections));
    SyncInherits(b, CellsOf(r.sync.changes), RowSet(r.sync.changes), t, k);
    if k in b.log {
      AcknowledgeInherits(c1, sent, r.sync.rejections, k);
    }
  }
}
