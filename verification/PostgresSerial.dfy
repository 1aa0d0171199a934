/** Interleaved PostgreSQL merges are serializable: the committed rows of any interleaving are those of the
    same merges run one after the other in commit order, each as the single step of module Postgres. */
module PostgresSerial {
  import opened Names
  import opened Cells
  import opened Payload
  import opened Server
  import opened Postgres
  import opened PostgresLock
  import PostgresRefinement

  // --- Statements with their policies, and what each transaction did ---

  /** One cell of a request met its row under a policy; `number` is what it drew, or zero when it was not stored. */
  datatype Attempt = Attempt(slot: Slot, cell: Cell, sec: Security, device: string, number: nat)

  /** The database, what each open transaction attempted so far, and what the committed ones had attempted, in commit order. */
  datatype Traced = Traced(db: Database, running: map<nat, seq<Attempt>>, done: seq<seq<Attempt>>)

  const START: Traced := Traced(NEW, map[], [])

  datatype Move =
    | Judged(tx: nat, slot: Slot, cell: Cell, sec: Security, device: string)
    | Other(statement: Statement)

  function VerdictOn(rows: map<Slot, Row>, slot: Slot, cell: Cell, sec: Security, device: string): Verdict {
    RulingOf(sec, device)(Write(slot.key, cell), CellAt(rows, slot))
  }

  /** The policy and the versions decide on the row the transaction sees; a fault fails the statement. */
  function MoveJudged(t: Traced, tx: nat, slot: Slot, cell: Cell, sec: Security, device: string): Traced {
    if tx !in t.db.open || tx !in t.running || slot.tenant !in t.db.open[tx].locks then t
    else
      match VerdictOn(Visible(t.db, t.db.open[tx]), slot, cell, sec, device)
      case Fault => t
      case Applied =>
        t.(db := StepUpsert(t.db, tx, slot, cell),
           running := t.running[tx := t.running[tx] + [Attempt(slot, cell, sec, device, t.db.last + 1)]])
      case _ => t.(running := t.running[tx := t.running[tx] + [Attempt(slot, cell, sec, device, 0)]])
  }

  function MoveBegin(t: Traced, tx: nat): Traced {
    if tx in t.db.open then t else t.(db := StepBegin(t.db, tx), running := t.running[tx := []])
  }

  function MoveCommit(t: Traced, tx: nat): Traced {
    if tx !in t.db.open || tx !in t.running then t
    else Traced(StepCommit(t.db, tx), t.running - {tx}, t.done + [t.running[tx]])
  }

  function MoveAbort(t: Traced, tx: nat): Traced {
    t.(db := StepAbort(t.db, tx), running := t.running - {tx})
  }

  /** Cells are written by judged statements only. */
  function MoveOther(t: Traced, a: Statement): Traced {
    match a
    case Begin(tx) => MoveBegin(t, tx)
    case LockTenant(tx, tenant) => t.(db := StepLock(t.db, tx, tenant))
    case Upsert(_, _, _) => t
    case SkipNumber => t.(db := StepSkip(t.db))
    case IssueCursor(tx, tenant, table, cursor) => t.(db := StepIssue(t.db, tx, tenant, table, cursor))
    case Commit(tx) => MoveCommit(t, tx)
    case Abort(tx) => MoveAbort(t, tx)
  }

  function Moved(t: Traced, m: Move): Traced {
    match m
    case Judged(tx, slot, cell, sec, device) => MoveJudged(t, tx, slot, cell, sec, device)
    case Other(a) => MoveOther(t, a)
  }

  function Trace(moves: seq<Move>): Traced {
    if moves == [] then START else Moved(Trace(moves[..|moves| - 1]), moves[|moves| - 1])
  }

  // --- Running a transaction alone -------------------------------------

  /** The rows a transaction writes when it runs alone over `rows`. */
  function Effects(rows: map<Slot, Row>, script: seq<Attempt>): map<Slot, Row> {
    if script == [] then map[]
    else
      var n := |script| - 1;
      var (w, a) := (Effects(rows, script[..n]), script[n]);
      if VerdictOn(rows + w, a.slot, a.cell, a.sec, a.device).Applied? then w[a.slot := Row(a.cell, a.number)] else w
  }

  /** The rows after these transactions ran one after the other. */
  function Serial(scripts: seq<seq<Attempt>>): map<Slot, Row> {
    if scripts == [] then map[]
    else
      var rows := Serial(scripts[..|scripts| - 1]);
      rows + Effects(rows, scripts[|scripts| - 1])
  }

  // --- Invariant -------------------------------------------------------

  ghost predicate OnTenants(script: seq<Attempt>, tenants: set<string>) {
    forall i :: 0 <= i < |script| ==> script[i].slot.tenant in tenants
  }

  /** Numbers drawn rise along the script, up to `last`. */
  ghost predicate Rising(script: seq<Attempt>, last: nat) {
    && (forall i :: 0 <= i < |script| ==> script[i].number <= last)
    && (forall i, j :: 0 <= i < j < |script| && 0 < script[i].number && 0 < script[j].number ==>
          script[i].number < script[j].number)
  }

  /** Numbers drawn lie above those of the tenant's rows. */
  ghost predicate Above(rows: map<Slot, Row>, script: seq<Attempt>) {
    forall i, s :: 0 <= i < |script| && 0 < script[i].number && s in rows && s.tenant == script[i].slot.tenant ==>
      rows[s].seqNo < script[i].number
  }

  /** Run alone, each attempt met the verdict it met: no fault, and stored exactly when a number was drawn. */
  ghost predicate Faithful(rows: map<Slot, Row>, script: seq<Attempt>) {
    forall i :: 0 <= i < |script| ==> FaithfulAt(rows, script, i)
  }

  ghost predicate FaithfulAt(rows: map<Slot, Row>, script: seq<Attempt>, i: nat)
    requires i < |script|
  {
    var a := script[i];
    var v := VerdictOn(rows + Effects(rows, script[..i]), a.slot, a.cell, a.sec, a.device);
    !v.Fault? && (v.Applied? <==> 0 < a.number)
  }

  ghost predicate ScriptOk(rows: map<Slot, Row>, script: seq<Attempt>, tenants: set<string>, last: nat) {
    OnTenants(script, tenants) && Rising(script, last) && Above(rows, script) && Faithful(rows, script)
  }

  /** The transaction has written what it would have written alone. */
  ghost predicate RunningOk(d: Database, x: Tx, script: seq<Attempt>) {
    x.writes == Effects(d.committed, script) && ScriptOk(d.committed, script, x.locks, d.last)
  }

  ghost predicate AllRunningOk(t: Traced) {
    forall x :: x in t.db.open ==> x in t.running && RunningOk(t.db, t.db.open[x], t.running[x])
  }

  /** What a committed transaction did, run alone after those before it. */
  ghost predicate DoneAt(t: Traced, i: nat)
    requires i < |t.done|
  {
    var rows, script := Serial(t.done[..i]), t.done[i];
    Rising(script, t.db.last) && Above(rows, script) && Faithful(rows, script)
  }

  ghost predicate AllDone(t: Traced) {
    forall i :: 0 <= i < |t.done| ==> DoneAt(t, i)
  }

  ghost predicate TracedOk(t: Traced) {
    && t.running.Keys == t.db.open.Keys
    && AllRunningOk(t) && t.db.committed == Serial(t.done) && AllDone(t)
  }

  // --- Framing ---------------------------------------------------------

  /** The rows agree on these tenants. */
  ghost predicate AgreeOn(a: map<Slot, Row>, b: map<Slot, Row>, tenants: set<string>) {
    forall s: Slot :: s.tenant in tenants ==> (s in a <==> s in b) && (s in a ==> a[s] == b[s])
  }

  lemma {:induction false} EffectsFrame(a: map<Slot, Row>, b: map<Slot, Row>, script: seq<Attempt>, tenants: set<string>)
    requires AgreeOn(a, b, tenants) && OnTenants(script, tenants)
    ensures Effects(a, script) == Effects(b, script)
  {
    if script != [] {
      var n := |script| - 1;
      EffectsFrame(a, b, script[..n], tenants);
      var w, s := Effects(a, script[..n]), script[n].slot;
      assert CellAt(a + w, s) == CellAt(b + w, s);
    }
  }

  lemma {:induction false} EffectsOn(rows: map<Slot, Row>, script: seq<Attempt>, tenants: set<string>)
    requires OnTenants(script, tenants)
    ensures forall s :: s in Effects(rows, script) ==> s.tenant in tenants
  {
    if script != [] { EffectsOn(rows, script[..|script| - 1], tenants); }
  }

  lemma FaithfulFrame(a: map<Slot, Row>, b: map<Slot, Row>, script: seq<Attempt>, tenants: set<string>)
    requires AgreeOn(a, b, tenants) && OnTenants(script, tenants) && Faithful(a, script)
    ensures Faithful(b, script)
  {
    forall i | 0 <= i < |script| ensures FaithfulAt(b, script, i) {
      assert FaithfulAt(a, script, i);
      EffectsFrame(a, b, script[..i], tenants);
      var w, s := Effects(a, script[..i]), script[i].slot;
      assert CellAt(a + w, s) == CellAt(b + w, s);
    }
  }

  lemma AboveFrame(a: map<Slot, Row>, b: map<Slot, Row>, script: seq<Attempt>, tenants: set<string>)
    requires AgreeOn(a, b, tenants) && OnTenants(script, tenants) && Above(a, script)
    ensures Above(b, script)
  {
  }

  /** A transaction of other tenants does not notice the change. */
  lemma RunningFrame(d: Database, e: Database, x: Tx, script: seq<Attempt>)
    requires RunningOk(d, x, script) && AgreeOn(d.committed, e.committed, x.locks) && d.last <= e.last
    ensures RunningOk(e, x, script)
  {
    EffectsFrame(d.committed, e.committed, script, x.locks);
    FaithfulFrame(d.committed, e.committed, script, x.locks);
    AboveFrame(d.committed, e.committed, script, x.locks);
  }

  lemma SameAgrees(rows: map<Slot, Row>, tenants: set<string>)
    ensures AgreeOn(rows, rows, tenants)
  {
  }

  // --- Every move keeps it ---------------------------------------------

  /** Nothing committed changes, and only transaction `tx` may change among the open ones. */
  lemma OpenMoves(t: Traced, u: Traced, tx: nat)
    requires TracedOk(t) && Quiet(t.db, u.db) && u.done == t.done
    requires u.running.Keys == u.db.open.Keys
    requires forall y :: y in u.db.open && y != tx ==>
      y in t.db.open && u.db.open[y] == t.db.open[y] && u.running[y] == t.running[y]
    requires tx in u.db.open ==> RunningOk(u.db, u.db.open[tx], u.running[tx])
    ensures TracedOk(u)
  {
    forall y | y in u.db.open ensures RunningOk(u.db, u.db.open[y], u.running[y]) {
      if y != tx {
        SameAgrees(t.db.committed, t.db.open[y].locks);
        RunningFrame(t.db, u.db, t.db.open[y], t.running[y]);
      }
    }
    forall i | 0 <= i < |u.done| ensures DoneAt(u, i) {
      assert DoneAt(t, i);
    }
  }

  /** One more attempt, judged over what the transaction sees. */
  lemma AttemptKeeps(rows: map<Slot, Row>, script: seq<Attempt>, a: Attempt, tenants: set<string>, last: nat, now: nat)
    requires ScriptOk(rows, script, tenants, last) && a.slot.tenant in tenants && Numbered(rows, last)
    requires var v := VerdictOn(rows + Effects(rows, script), a.slot, a.cell, a.sec, a.device);
      !v.Fault? && (v.Applied? <==> 0 < a.number)
    requires last <= now && (a.number == 0 || last < a.number <= now)
    ensures ScriptOk(rows, script + [a], tenants, now)
  {
    var longer := script + [a];
    forall i | 0 <= i < |longer| ensures FaithfulAt(rows, longer, i) {
      if i < |script| {
        assert longer[..i] == script[..i];
        assert FaithfulAt(rows, script, i);
      } else {
        assert longer[..i] == script;
      }
    }
  }

  lemma EffectsOneMore(rows: map<Slot, Row>, script: seq<Attempt>, a: Attempt)
    ensures Effects(rows, script + [a]) ==
      if VerdictOn(rows + Effects(rows, script), a.slot, a.cell, a.sec, a.device).Applied?
      then Effects(rows, script)[a.slot := Row(a.cell, a.number)] else Effects(rows, script)
  {
    assert (script + [a])[..|script|] == script;
  }

  lemma AppliedTakes(d: Database, x: Tx, slot: Slot, cell: Cell, sec: Security, device: string)
    requires slot.tenant in x.locks && VerdictOn(Visible(d, x), slot, cell, sec, device).Applied?
    ensures Takes(d, x, slot, cell)
  {
  }

  lemma JudgedRunning(d: Database, x: Tx, script: seq<Attempt>, a: Attempt, e: Database, y: Tx)
    requires RunningOk(d, x, script) && Numbered(d.committed, d.last) && a.slot.tenant in x.locks
    requires var v := VerdictOn(Visible(d, x), a.slot, a.cell, a.sec, a.device);
      && !v.Fault? && a.number == (if v.Applied? then d.last + 1 else 0)
      && y == (if v.Applied? then x.(writes := x.writes[a.slot := Row(a.cell, a.number)]) else x)
      && e.last == (if v.Applied? then d.last + 1 else d.last)
    requires e.committed == d.committed
    ensures RunningOk(e, y, script + [a])
  {
    EffectsOneMore(d.committed, script, a);
    AttemptKeeps(d.committed, script, a, x.locks, d.last, e.last);
  }

  /** Transaction `tx` went one statement on. */
  lemma AttemptMoves(t: Traced, tx: nat, e: Database, script: seq<Attempt>)
    requires TracedOk(t) && tx in t.db.open && Quiet(t.db, e) && e.open.Keys == t.db.open.Keys
    requires forall y :: y in e.open && y != tx ==> e.open[y] == t.db.open[y]
    requires RunningOk(e, e.open[tx], script)
    ensures TracedOk(t.(db := e, running := t.running[tx := script]))
  {
    OpenMoves(t, t.(db := e, running := t.running[tx := script]), tx);
  }

  lemma UpsertIs(d: Database, tx: nat, slot: Slot, cell: Cell, e: Database)
    requires tx in d.open && Takes(d, d.open[tx], slot, cell) && e == StepUpsert(d, tx, slot, cell)
    ensures Quiet(d, e) && e.open == d.open[tx := d.open[tx].(writes := d.open[tx].writes[slot := Row(cell, d.last + 1)])]
    ensures e.last == d.last + 1 && e.open.Keys == d.open.Keys
  {
  }

  /** The transaction's cell is stored. */
  lemma StoredKeeps(t: Traced, tx: nat, a: Attempt, e: Database)
    requires TracedOk(t) && Numbered(t.db.committed, t.db.last)
    requires tx in t.db.open && a.slot.tenant in t.db.open[tx].locks && a.number == t.db.last + 1
    requires VerdictOn(Visible(t.db, t.db.open[tx]), a.slot, a.cell, a.sec, a.device).Applied?
    requires e == StepUpsert(t.db, tx, a.slot, a.cell)
    ensures TracedOk(t.(db := e, running := t.running[tx := t.running[tx] + [a]]))
  {
    AppliedTakes(t.db, t.db.open[tx], a.slot, a.cell, a.sec, a.device);
    UpsertIs(t.db, tx, a.slot, a.cell, e);
    JudgedRunning(t.db, t.db.open[tx], t.running[tx], a, e, e.open[tx]);
    AttemptMoves(t, tx, e, t.running[tx] + [a]);
  }

  /** The transaction's cell is not stored. */
  lemma PassedKeeps(t: Traced, tx: nat, a: Attempt)
    requires TracedOk(t) && Numbered(t.db.committed, t.db.last)
    requires tx in t.db.open && a.slot.tenant in t.db.open[tx].locks && a.number == 0
    requires var v := VerdictOn(Visible(t.db, t.db.open[tx]), a.slot, a.cell, a.sec, a.device); !v.Fault? && !v.Applied?
    ensures TracedOk(t.(running := t.running[tx := t.running[tx] + [a]]))
  {
    JudgedRunning(t.db, t.db.open[tx], t.running[tx], a, t.db, t.db.open[tx]);
    AttemptMoves(t, tx, t.db, t.running[tx] + [a]);
  }

  lemma JudgedKeeps(t: Traced, tx: nat, slot: Slot, cell: Cell, sec: Security, device: string)
    requires TracedOk(t) && Numbered(t.db.committed, t.db.last)
    ensures TracedOk(MoveJudged(t, tx, slot, cell, sec, device))
  {
    if tx in t.db.open && slot.tenant in t.db.open[tx].locks {
      var v := VerdictOn(Visible(t.db, t.db.open[tx]), slot, cell, sec, device);
      JudgedIs(t, tx, slot, cell, sec, device, v);
      if v.Applied? {
        StoredKeeps(t, tx, Attempt(slot, cell, sec, device, t.db.last + 1), StepUpsert(t.db, tx, slot, cell));
      } else if !v.Fault? {
        PassedKeeps(t, tx, Attempt(slot, cell, sec, device, 0));
      }
    }
  }

  lemma JudgedIs(t: Traced, tx: nat, slot: Slot, cell: Cell, sec: Security, device: string, v: Verdict)
    requires tx in t.db.open && tx in t.running && slot.tenant in t.db.open[tx].locks
    requires v == VerdictOn(Visible(t.db, t.db.open[tx]), slot, cell, sec, device)
    ensures MoveJudged(t, tx, slot, cell, sec, device) ==
      if v.Fault? then t
      else if v.Applied? then
        t.(db := StepUpsert(t.db, tx, slot, cell),
           running := t.running[tx := t.running[tx] + [Attempt(slot, cell, sec, device, t.db.last + 1)]])
      else t.(running := t.running[tx := t.running[tx] + [Attempt(slot, cell, sec, device, 0)]])
  {
  }

  lemma BeginMoves(t: Traced, tx: nat)
    requires TracedOk(t)
    ensures TracedOk(MoveBegin(t, tx))
  {
    if tx !in t.db.open {
      OpenMoves(t, MoveBegin(t, tx), tx);
    }
  }

  lemma AbortMoves(t: Traced, tx: nat)
    requires TracedOk(t)
    ensures TracedOk(MoveAbort(t, tx))
  {
    OpenMoves(t, MoveAbort(t, tx), tx);
  }

  lemma SkipMoves(t: Traced)
    requires TracedOk(t)
    ensures TracedOk(t.(db := StepSkip(t.db)))
  {
    var u := t.(db := StepSkip(t.db));
    if 0 in t.db.open {
      SameAgrees(t.db.committed, t.db.open[0].locks);
      RunningFrame(t.db, u.db, t.db.open[0], t.running[0]);
    }
    OpenMoves(t, u, 0);
  }

  /** More locks or issued cursors leave what a transaction wrote as it was. */
  lemma SameWritesMove(t: Traced, tx: nat, e: Database)
    requires TracedOk(t) && tx in t.db.open && Quiet(t.db, e)
    requires e.open.Keys == t.db.open.Keys && (forall y :: y in e.open && y != tx ==> e.open[y] == t.db.open[y])
    requires e.open[tx].writes == t.db.open[tx].writes && t.db.open[tx].locks <= e.open[tx].locks
    ensures TracedOk(t.(db := e))
  {
    assert RunningOk(t.db, t.db.open[tx], t.running[tx]);
    OpenMoves(t, t.(db := e), tx);
  }

  lemma LockMoves(t: Traced, tx: nat, tenant: string)
    requires TracedOk(t)
    ensures TracedOk(t.(db := StepLock(t.db, tx, tenant)))
  {
    if tx in t.db.open && !LockedElsewhere(t.db, tx, tenant) { SameWritesMove(t, tx, StepLock(t.db, tx, tenant)); }
  }

  lemma IssueMoves(t: Traced, tx: nat, tenant: string, table: string, cursor: nat)
    requires TracedOk(t)
    ensures TracedOk(t.(db := StepIssue(t.db, tx, tenant, table, cursor)))
  {
    if tx in t.db.open && tenant in t.db.open[tx].locks && CursorOf(Visible(t.db, t.db.open[tx]), tenant, table, cursor) {
      SameWritesMove(t, tx, StepIssue(t.db, tx, tenant, table, cursor));
    }
  }

  lemma CommitMoves(t: Traced, tx: nat)
    requires TracedOk(t) && Exclusive(t.db)
    ensures TracedOk(MoveCommit(t, tx))
  {
    if tx in t.db.open {
      OthersRun(t, tx);
      assert RunningOk(t.db, t.db.open[tx], t.running[tx]);
      CommittedSerial(t, t.running[tx]);
      MovedByCommit(t, tx, MoveCommit(t, tx));
    }
  }

  lemma MovedByCommit(t: Traced, tx: nat, u: Traced)
    requires tx in t.db.open && AllRunningOk(u) && t.running.Keys == t.db.open.Keys
    requires u == Traced(StepCommit(t.db, tx), t.running - {tx}, t.done + [t.running[tx]])
    requires t.db.open[tx].writes == Effects(t.db.committed, t.running[tx])
    requires Serial(u.done) == t.db.committed + Effects(t.db.committed, t.running[tx])
    requires AllDone(t.(done := u.done))
    ensures TracedOk(u)
  {
    forall i | 0 <= i < |u.done| ensures DoneAt(u, i) {
      assert DoneAt(t.(done := u.done), i);
    }
  }

  /** The other open transactions do not notice a commit. */
  lemma OthersRun(t: Traced, tx: nat)
    requires TracedOk(t) && Exclusive(t.db) && tx in t.db.open
    ensures AllRunningOk(MoveCommit(t, tx))
  {
    var d, x, u := t.db, t.db.open[tx], MoveCommit(t, tx);
    assert RunningOk(d, x, t.running[tx]);
    forall y | y in u.db.open ensures y in u.running && RunningOk(u.db, u.db.open[y], u.running[y]) {
      assert d.open[y].locks !! x.locks;
      CommitFrame(d, x, t.running[tx], d.open[y].locks);
      RunningFrame(d, u.db, d.open[y], t.running[y]);
    }
  }

  /** A commit writes rows of its own tenants only. */
  lemma CommitFrame(d: Database, x: Tx, script: seq<Attempt>, tenants: set<string>)
    requires RunningOk(d, x, script) && x.locks !! tenants
    ensures AgreeOn(d.committed, d.committed + x.writes, tenants)
  {
    EffectsOn(d.committed, script, x.locks);
  }

  lemma CommittedSerial(t: Traced, script: seq<Attempt>)
    requires t.db.committed == Serial(t.done) && AllDone(t)
    requires Rising(script, t.db.last) && Above(t.db.committed, script) && Faithful(t.db.committed, script)
    ensures Serial(t.done + [script]) == t.db.committed + Effects(t.db.committed, script)
    ensures AllDone(t.(done := t.done + [script]))
  {
    var u := t.(done := t.done + [script]);
    assert (t.done + [script])[..|t.done|] == t.done;
    forall i | 0 <= i < |u.done| ensures DoneAt(u, i) {
      if i < |t.done| {
        assert u.done[..i] == t.done[..i];
        assert DoneAt(t, i);
      }
    }
  }

  lemma MoveKeeps(t: Traced, m: Move)
    requires TracedOk(t) && Numbered(t.db.committed, t.db.last) && Exclusive(t.db)
    ensures TracedOk(Moved(t, m))
  {
    match m
    case Judged(tx, slot, cell, sec, device) => JudgedKeeps(t, tx, slot, cell, sec, device);
    case Other(Begin(tx)) => BeginMoves(t, tx);
    case Other(LockTenant(tx, tenant)) => LockMoves(t, tx, tenant);
    case Other(Upsert(_, _, _)) =>
    case Other(SkipNumber) => SkipMoves(t);
    case Other(IssueCursor(tx, tenant, table, cursor)) => IssueMoves(t, tx, tenant, table, cursor);
    case Other(Commit(tx)) => CommitMoves(t, tx);
    case Other(Abort(tx)) => AbortMoves(t, tx);
  }

  /** Each move is a statement of the database, or leaves it alone. */
  lemma MoveIsStatement(t: Traced, m: Move)
    requires t.running.Keys == t.db.open.Keys
    ensures Moved(t, m).db == t.db || exists a :: Moved(t, m).db == Step(t.db, a)
  {
    match m
    case Judged(tx, slot, cell, sec, device) =>
      assert Step(t.db, Upsert(tx, slot, cell)) == StepUpsert(t.db, tx, slot, cell);
    case Other(a) =>
      assert Moved(t, m).db == t.db || Moved(t, m).db == Step(t.db, a);
  }

  lemma MoveInOrder(t: Traced, m: Move)
    requires t.running.Keys == t.db.open.Keys && PostgresLock.Inv(t.db)
    ensures PostgresLock.Inv(Moved(t, m).db)
  {
    MoveIsStatement(t, m);
    if Moved(t, m).db != t.db {
      var a :| Moved(t, m).db == Step(t.db, a);
      StepKeeps(t.db, a);
    }
  }

  lemma {:induction false} TraceKeeps(moves: seq<Move>)
    ensures TracedOk(Trace(moves)) && PostgresLock.Inv(Trace(moves).db)
  {
    if moves != [] {
      TraceKeeps(moves[..|moves| - 1]);
      MoveKeeps(Trace(moves[..|moves| - 1]), moves[|moves| - 1]);
      MoveInOrder(Trace(moves[..|moves| - 1]), moves[|moves| - 1]);
    }
  }

  /** In every interleaving the committed rows are those of the committed transactions run alone, one after the
      other, in commit order; aborted and open ones leave no trace. */
  lemma CommittedIsSerial(moves: seq<Move>)
    ensures Trace(moves).db.committed == Serial(Trace(moves).done)
  {
    TraceKeeps(moves);
  }

  // --- A transaction run alone is one merge ----------------------------

  ghost function CellsIn(rows: map<Slot, Row>, tenant: string, table: string): map<Key, Cell> {
    map s | s in rows && s.tenant == tenant && s.table == table :: s.key := rows[s].cell
  }

  ghost function NumbersIn(rows: map<Slot, Row>, tenant: string, table: string): map<Key, nat> {
    map s | s in rows && s.tenant == tenant && s.table == table :: s.key := rows[s].seqNo
  }

  lemma InTable(rows: map<Slot, Row>, tenant: string, table: string, k: Key)
    ensures Lookup(CellsIn(rows, tenant, table), k) == CellAt(rows, Slot(tenant, table, k))
    ensures k in NumbersIn(rows, tenant, table) <==> Slot(tenant, table, k) in rows
    ensures k in NumbersIn(rows, tenant, table) ==> NumbersIn(rows, tenant, table)[k] == rows[Slot(tenant, table, k)].seqNo
  {
    if Slot(tenant, table, k) in rows { assert Slot(tenant, table, k).key in CellsIn(rows, tenant, table); }
  }

  lemma TableUpdate(rows: map<Slot, Row>, tenant: string, table: string, k: Key, row: Row)
    ensures var u := rows[Slot(tenant, table, k) := row];
      CellsIn(u, tenant, table) == CellsIn(rows, tenant, table)[k := row.cell]
      && NumbersIn(u, tenant, table) == NumbersIn(rows, tenant, table)[k := row.seqNo]
  {
    var u := rows[Slot(tenant, table, k) := row];
    forall j ensures Lookup(CellsIn(u, tenant, table), j) == Lookup(CellsIn(rows, tenant, table)[k := row.cell], j)
      && Lookup(NumbersIn(u, tenant, table), j) == Lookup(NumbersIn(rows, tenant, table)[k := row.seqNo], j)
    {
      InTable(u, tenant, table, j);
      InTable(rows, tenant, table, j);
    }
    LookupEqual(CellsIn(u, tenant, table), CellsIn(rows, tenant, table)[k := row.cell]);
    LookupEqual(NumbersIn(u, tenant, table), NumbersIn(rows, tenant, table)[k := row.seqNo]);
  }

  /** The script judges exactly these cells of one table, in order, under one policy. */
  ghost predicate Performs(script: seq<Attempt>, tenant: string, table: string, ws: seq<Write>, sec: Security, device: string) {
    && |script| == |ws|
    && forall i :: 0 <= i < |ws| ==>
         && script[i].slot == Slot(tenant, table, ws[i].key) && script[i].cell == ws[i].cell
         && script[i].sec == sec && script[i].device == device
  }

  /** The last number drawn, or the one before the first. */
  function LastNumber(start: nat, script: seq<Attempt>): nat {
    if script == [] then start
    else
      var n := script[|script| - 1].number;
      if 0 < n then n else LastNumber(start, script[..|script| - 1])
  }

  /** `next` yields each number the script drew after the one before it. */
  ghost predicate Drawn(next: Draw, start: nat, script: seq<Attempt>) {
    forall i :: 0 <= i < |script| && 0 < script[i].number ==> next(LastNumber(start, script[..i])) == script[i].number
  }

  ghost function TableAcc(rows: map<Slot, Row>, tenant: string, table: string, last: nat, rs: seq<Rejection>): Acc {
    Acc(CellsIn(rows, tenant, table), last, NumbersIn(rows, tenant, table), rs)
  }

  lemma PrefixPerforms(script: seq<Attempt>, tenant: string, table: string, ws: seq<Write>, sec: Security, device: string,
                       rows: map<Slot, Row>, start: nat, next: Draw)
    requires script != [] && Performs(script, tenant, table, ws, sec, device) && Faithful(rows, script) && Drawn(next, start, script)
    ensures var n := |script| - 1;
      Performs(script[..n], tenant, table, ws[..n], sec, device) && Faithful(rows, script[..n]) && Drawn(next, start, script[..n])
  {
    var n := |script| - 1;
    forall i | 0 <= i < n ensures FaithfulAt(rows, script[..n], i) {
      assert FaithfulAt(rows, script, i);
      assert script[..n][..i] == script[..i];
    }
    forall i | 0 <= i < n && 0 < script[i].number ensures next(LastNumber(start, script[..n][..i])) == script[i].number {
      assert script[..n][..i] == script[..i];
    }
  }

  lemma JudgedInTable(u: map<Slot, Row>, who: Ruling, tenant: string, table: string, x: Write)
    ensures JudgeIn(CellsIn(u, tenant, table), who, x) == who(x, CellAt(u, Slot(tenant, table, x.key)))
  {
    InTable(u, tenant, table, x.key);
  }

  lemma AttemptStored(u: map<Slot, Row>, who: Ruling, tenant: string, table: string, x: Write, last: nat, rs: seq<Rejection>, next: Draw)
    requires who(x, CellAt(u, Slot(tenant, table, x.key))).Applied?
    ensures AbsorbRow(TableAcc(u, tenant, table, last, rs), who, x, next) ==
      Ok(TableAcc(u[Slot(tenant, table, x.key) := Row(x.cell, next(last))], tenant, table, next(last), rs))
  {
    JudgedInTable(u, who, tenant, table, x);
    TableUpdate(u, tenant, table, x.key, Row(x.cell, next(last)));
  }

  lemma AttemptPassed(u: map<Slot, Row>, who: Ruling, tenant: string, table: string, x: Write, last: nat, before: seq<Rejection>, next: Draw)
    returns (rs: seq<Rejection>)
    requires var v := who(x, CellAt(u, Slot(tenant, table, x.key))); !v.Applied? && !v.Fault?
    ensures AbsorbRow(TableAcc(u, tenant, table, last, before), who, x, next) == Ok(TableAcc(u, tenant, table, last, rs))
  {
    JudgedInTable(u, who, tenant, table, x);
    var v := who(x, CellAt(u, Slot(tenant, table, x.key)));
    rs := if v.Rejected? then before + [v.rejection] else before;
  }

  /** One more attempt is one more row of the loop. */
  lemma LastAttempt(u: map<Slot, Row>, after: map<Slot, Row>, a: Attempt, who: Ruling, tenant: string, table: string, x: Write,
                    last: nat, before: seq<Rejection>, next: Draw) returns (rs: seq<Rejection>)
    requires a.slot == Slot(tenant, table, x.key) && a.cell == x.cell
    requires var v := who(x, CellAt(u, a.slot)); !v.Fault? && (v.Applied? <==> 0 < a.number)
    requires 0 < a.number ==> next(last) == a.number
    requires after == if 0 < a.number then u[a.slot := Row(a.cell, a.number)] else u
    ensures AbsorbRow(TableAcc(u, tenant, table, last, before), who, x, next) ==
      Ok(TableAcc(after, tenant, table, if 0 < a.number then a.number else last, rs))
  {
    if 0 < a.number {
      AttemptStored(u, who, tenant, table, x, last, before, next);
      rs := before;
    } else {
      rs := AttemptPassed(u, who, tenant, table, x, last, before, next);
    }
  }

  /** What the last attempt of a script met, and what it left. */
  lemma AttemptFacts(rows: map<Slot, Row>, script: seq<Attempt>, start: nat)
    requires script != [] && FaithfulAt(rows, script, |script| - 1)
    ensures var n := |script| - 1; var a := script[n];
      var v := VerdictOn(rows + Effects(rows, script[..n]), a.slot, a.cell, a.sec, a.device); !v.Fault? && (v.Applied? <==> 0 < a.number)
    ensures var n := |script| - 1; var a := script[n]; var u := rows + Effects(rows, script[..n]);
      && rows + Effects(rows, script) == (if 0 < a.number then u[a.slot := Row(a.cell, a.number)] else u)
      && LastNumber(start, script) == (if 0 < a.number then a.number else LastNumber(start, script[..n]))
  {
    var n := |script| - 1;
    var a, w := script[n], Effects(rows, script[..n]);
    assert (rows + w)[a.slot := Row(a.cell, a.number)] == rows + w[a.slot := Row(a.cell, a.number)];
  }

  lemma VerdictIs(u: map<Slot, Row>, a: Attempt, x: Write)
    requires a.slot.key == x.key && a.cell == x.cell
    ensures VerdictOn(u, a.slot, a.cell, a.sec, a.device) == RulingOf(a.sec, a.device)(x, CellAt(u, a.slot))
  {
  }

  /** Run alone, the script is the row loop of one merge, numbers included. */
  lemma {:induction false} ScriptIsRows(rows: map<Slot, Row>, script: seq<Attempt>, tenant: string, table: string, ws: seq<Write>,
                                        sec: Security, device: string, start: nat, next: Draw) returns (rs: seq<Rejection>)
    requires Performs(script, tenant, table, ws, sec, device) && Faithful(rows, script) && Drawn(next, start, script)
    ensures AbsorbRows(TableAcc(rows, tenant, table, start, []), RulingOf(sec, device), ws, next) ==
      Ok(TableAcc(rows + Effects(rows, script), tenant, table, LastNumber(start, script), rs))
    decreases |script|
  {
    if script == [] {
      assert rows + map[] == rows;
      rs := [];
    } else {
      var n := |script| - 1;
      PrefixPerforms(script, tenant, table, ws, sec, device, rows, start, next);
      var before := ScriptIsRows(rows, script[..n], tenant, table, ws[..n], sec, device, start, next);
      assert FaithfulAt(rows, script, n);
      AttemptFacts(rows, script, start);
      var u, last := rows + Effects(rows, script[..n]), LastNumber(start, script[..n]);
      VerdictIs(u, script[n], ws[n]);
      RowsUnfold(TableAcc(rows, tenant, table, start, []), RulingOf(sec, device), ws, next, TableAcc(u, tenant, table, last, before));
      rs := LastAttempt(u, rows + Effects(rows, script), script[n], RulingOf(sec, device), tenant, table, ws[n], last, before, next);
    }
  }

  lemma RowsUnfold(a: Acc, who: Ruling, ws: seq<Write>, next: Draw, b: Acc)
    requires ws != [] && AbsorbRows(a, who, ws[..|ws| - 1], next) == Ok(b)
    ensures AbsorbRows(a, who, ws, next) == AbsorbRow(b, who, ws[|ws| - 1], next)
  {
  }

  // --- The numbers it draws --------------------------------------------

  /** The first number of the script above `n`, or the next one. */
  function FirstAbove(script: seq<Attempt>, n: nat): (r: nat)
    ensures r > n
  {
    if script == [] then n + 1
    else if script[0].number > n then script[0].number
    else FirstAbove(script[1..], n)
  }

  ghost function DrawOf(script: seq<Attempt>): Draw {
    (n: nat) => FirstAbove(script, n)
  }

  lemma {:induction false} FirstAboveIs(script: seq<Attempt>, n: nat, i: nat)
    requires i < |script| && script[i].number > n && forall j :: 0 <= j < i ==> script[j].number <= n
    ensures FirstAbove(script, n) == script[i].number
    decreases |script|
  {
    if i > 0 { FirstAboveIs(script[1..], n, i - 1); }
  }

  lemma {:induction false} LastNumberIs(script: seq<Attempt>, start: nat, last: nat)
    requires Rising(script, last) && forall i :: 0 <= i < |script| && 0 < script[i].number ==> start < script[i].number
    ensures start <= LastNumber(start, script)
    ensures forall i :: 0 <= i < |script| ==> script[i].number <= LastNumber(start, script)
    ensures LastNumber(start, script) == start || exists i :: 0 <= i < |script| && 0 < script[i].number && LastNumber(start, script) == script[i].number
    decreases |script|
  {
    if script != [] {
      var n := |script| - 1;
      if script[n].number == 0 {
        LastNumberIs(script[..n], start, last);
      }
    }
  }

  lemma DrawOfDraws(script: seq<Attempt>, start: nat, last: nat)
    requires Rising(script, last) && forall i :: 0 <= i < |script| && 0 < script[i].number ==> start < script[i].number
    ensures Increasing(DrawOf(script)) && Drawn(DrawOf(script), start, script)
  {
    forall i | 0 <= i < |script| && 0 < script[i].number
      ensures DrawOf(script)(LastNumber(start, script[..i])) == script[i].number
    {
      LastNumberIs(script[..i], start, last);
      FirstAboveIs(script, LastNumber(start, script[..i]), i);
    }
  }

  // --- Result ----------------------------------------------------------

  /** The tenant's table holds these rows. */
  ghost predicate Shows(s: Tenant, rows: map<Slot, Row>, tenant: string, table: string) {
    && s.core.cells == CellsIn(rows, tenant, table) && s.core.cellSeq == NumbersIn(rows, tenant, table)
    && s.core.seqNo == Highest(s.core.cellSeq)
  }

  /** The numbers a committed transaction drew lie above its table's highest. */
  lemma AboveHighest(rows: map<Slot, Row>, script: seq<Attempt>, tenant: string, table: string, i: nat)
    requires Above(rows, script) && i < |script| && 0 < script[i].number && script[i].slot.tenant == tenant
    ensures Highest(NumbersIn(rows, tenant, table)) < script[i].number
  {
    var pos := NumbersIn(rows, tenant, table);
    if Highest(pos) != 0 {
      var k :| k in pos && pos[k] == Highest(pos);
      InTable(rows, tenant, table, k);
    }
  }

  /** In every interleaving, a committed transaction that judged the cells of a request, in order, under one policy
      turned its table, as the transactions committed before it left it, into what the single merge of that request
      makes of it, with the numbers it drew. */
  lemma MergesSerialize(moves: seq<Move>, i: nat, tenant: string, table: string, p: SyncPayload, device: string, sec: Security,
                        s: Tenant, epoch: string, uuid: string, env: Env) returns (next: Draw, a: Answered)
    requires i < |Trace(moves).done| && Performs(Trace(moves).done[i], tenant, table, Writes(p.changes), sec, device)
    requires Shows(s, Serial(Trace(moves).done[..i]), tenant, table)
    requires ValidRequest(p, device, env.schema) && PostgresRefinement.Storable(s.core.lamport, MaxObserved(p))
    ensures Increasing(next) && MergeTenant(s, p, device, sec, next, epoch, uuid, env) == Ok(a)
    ensures a.tenant.core.cells == CellsIn(Serial(Trace(moves).done[..i + 1]), tenant, table)
    ensures a.tenant.core.cellSeq == NumbersIn(Serial(Trace(moves).done[..i + 1]), tenant, table)
  {
    var t := Trace(moves);
    TracedDone(moves, i);
    SerialNext(t.done, i);
    next, a := ScriptMerges(Serial(t.done[..i]), t.done[i], tenant, table, p, device, sec, s, t.db.last, epoch, uuid, env);
  }

  lemma TracedDone(moves: seq<Move>, i: nat)
    requires i < |Trace(moves).done|
    ensures DoneAt(Trace(moves), i)
  {
    TraceKeeps(moves);
  }

  lemma SerialNext(scripts: seq<seq<Attempt>>, i: nat)
    requires i < |scripts|
    ensures Serial(scripts[..i + 1]) == Serial(scripts[..i]) + Effects(Serial(scripts[..i]), scripts[i])
  {
    assert scripts[..i + 1][..i] == scripts[..i];
  }

  lemma ScriptMerges(rows: map<Slot, Row>, script: seq<Attempt>, tenant: string, table: string, p: SyncPayload, device: string,
                     sec: Security, s: Tenant, last: nat, epoch: string, uuid: string, env: Env) returns (next: Draw, a: Answered)
    requires Rising(script, last) && Above(rows, script) && Faithful(rows, script)
    requires Performs(script, tenant, table, Writes(p.changes), sec, device) && Shows(s, rows, tenant, table)
    requires ValidRequest(p, device, env.schema) && PostgresRefinement.Storable(s.core.lamport, MaxObserved(p))
    ensures Increasing(next) && MergeTenant(s, p, device, sec, next, epoch, uuid, env) == Ok(a)
    ensures a.tenant.core.cells == CellsIn(rows + Effects(rows, script), tenant, table)
    ensures a.tenant.core.cellSeq == NumbersIn(rows + Effects(rows, script), tenant, table)
  {
    next := DrawOf(script);
    forall i | 0 <= i < |script| && 0 < script[i].number ensures s.core.seqNo < script[i].number {
      AboveHighest(rows, script, tenant, table, i);
    }
    DrawOfDraws(script, s.core.seqNo, last);
    var rs := ScriptIsRows(rows, script, tenant, table, Writes(p.changes), sec, device, s.core.seqNo, next);
    a := RowsMerge(s, p, device, sec, next, epoch, uuid, env,
                   TableAcc(rows + Effects(rows, script), tenant, table, LastNumber(s.core.seqNo, script), rs));
  }

  lemma RowsMerge(s: Tenant, p: SyncPayload, device: string, sec: Security, next: Draw, epoch: string, uuid: string, env: Env, b: Acc)
    returns (a: Answered)
    requires ValidRequest(p, device, env.schema) && PostgresRefinement.Storable(s.core.lamport, MaxObserved(p))
    requires AbsorbRows(Start(s.core), RulingOf(sec, device), Writes(p.changes), next) == Ok(b)
    ensures MergeTenant(s, p, device, sec, next, epoch, uuid, env) == Ok(a)
    ensures a.tenant.core.cells == b.cells && a.tenant.core.cellSeq == b.cellSeq
  {
    PostgresRefinement.TenantAccepts(s, p, device, sec, next, epoch, uuid, env);
    TenantUnfolds(s, p, device, sec, next, epoch, uuid, env, b);
    a := MergeTenant(s, p, device, sec, next, epoch, uuid, env).value;
  }

  /** Transactions that judged no cell of a table leave it as it was. */
  lemma {:induction false} OtherTablesStand(rows: map<Slot, Row>, script: seq<Attempt>, tenant: string, table: string)
    requires forall i :: 0 <= i < |script| ==> script[i].slot.tenant != tenant || script[i].slot.table != table
    ensures CellsIn(rows + Effects(rows, script), tenant, table) == CellsIn(rows, tenant, table)
    ensures NumbersIn(rows + Effects(rows, script), tenant, table) == NumbersIn(rows, tenant, table)
    decreases |script|
  {
    if script == [] {
      assert rows + map[] == rows;
    } else {
      var n := |script| - 1;
      OtherTablesStand(rows, script[..n], tenant, table);
      var w := rows + Effects(rows, script[..n]);
      var u := rows + Effects(rows, script);
      assert forall k :: Slot(tenant, table, k) in w <==> Slot(tenant, table, k) in u;
      assert forall k :: Slot(tenant, table, k) in w ==> w[Slot(tenant, table, k)] == u[Slot(tenant, table, k)];
      forall k ensures Lookup(CellsIn(u, tenant, table), k) == Lookup(CellsIn(w, tenant, table), k)
        && Lookup(NumbersIn(u, tenant, table), k) == Lookup(NumbersIn(w, tenant, table), k)
      {
        InTable(u, tenant, table, k);
        InTable(w, tenant, table, k);
      }
      LookupEqual(CellsIn(u, tenant, table), CellsIn(w, tenant, table));
      LookupEqual(NumbersIn(u, tenant, table), NumbersIn(w, tenant, table));
    }
  }
}
