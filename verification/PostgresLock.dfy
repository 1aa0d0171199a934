/** Concurrent PostgreSQL merges: transactions interleave statement by statement
    over one global sequence that no abort rolls back. A merge first locks its
    tenant's clock row and only then draws sequence numbers for that tenant. */
module PostgresLock {
  import opened Names
  import opened Cells
  import opened Server

  datatype Slot = Slot(tenant: string, table: string, key: Key)
  datatype Row = Row(cell: Cell, seqNo: nat)

  /** A cursor handed out for one table of one tenant, and the rows visible when it was computed. */
  datatype Issue = Issue(tenant: string, table: string, cursor: nat, seen: map<Slot, Row>)

  /** An open transaction: the tenant rows it locked, its uncommitted rows, its unsent answers. */
  datatype Tx = Tx(locks: set<string>, writes: map<Slot, Row>, issues: set<Issue>)

  datatype Database = Database(
    last: nat,
    committed: map<Slot, Row>,
    open: map<nat, Tx>,
    issued: set<Issue>,
    log: seq<map<Slot, Row>>)

  const NEW: Database := Database(0, map[], map[], {}, [])

  datatype Statement =
    | Begin(tx: nat)
    | LockTenant(tx: nat, tenant: string)
    | Upsert(tx: nat, slot: Slot, cell: Cell)
    | SkipNumber
    | IssueCursor(tx: nat, tenant: string, table: string, cursor: nat)
    | Commit(tx: nat)
    | Abort(tx: nat)

  /** READ COMMITTED: a statement sees what is committed and its own writes. */
  function Visible(d: Database, x: Tx): map<Slot, Row> {
    d.committed + x.writes
  }

  predicate LockedElsewhere(d: Database, tx: nat, tenant: string) {
    exists y :: y in d.open && y != tx && tenant in d.open[y].locks
  }

  /** A page's cursor is the position of a visible row of the table, or zero while it has none. */
  predicate CursorOf(rows: map<Slot, Row>, tenant: string, table: string, cursor: nat) {
    || (exists s :: s in rows && s.tenant == tenant && s.table == table && rows[s].seqNo == cursor)
    || (cursor == 0 && forall s :: s in rows ==> s.tenant != tenant || s.table != table)
  }

  function CellAt(rows: map<Slot, Row>, s: Slot): Option<Cell> {
    if s in rows then Some(rows[s].cell) else None
  }

  function SetTx(d: Database, tx: nat, x: Tx): Database {
    d.(open := d.open[tx := x])
  }

  /** The locked tenant's row is missing or holds an older version. */
  predicate Takes(d: Database, x: Tx, slot: Slot, cell: Cell) {
    slot.tenant in x.locks && Compare(CellAt(Visible(d, x), slot), cell).Applied?
  }

  function Store(d: Database, tx: nat, slot: Slot, row: Row): Database
    requires tx in d.open
  {
    SetTx(d, tx, d.open[tx].(writes := d.open[tx].writes[slot := row])).(last := row.seqNo)
  }

  /** The winning write takes the next number; a losing one leaves no trace. */
  function StepUpsert(d: Database, tx: nat, slot: Slot, cell: Cell): Database {
    if tx in d.open && Takes(d, d.open[tx], slot, cell) then Store(d, tx, slot, Row(cell, d.last + 1)) else d
  }

  function StepBegin(d: Database, tx: nat): Database {
    if tx in d.open then d else SetTx(d, tx, Tx({}, map[], {}))
  }

  function StepLock(d: Database, tx: nat, tenant: string): Database {
    if tx !in d.open || LockedElsewhere(d, tx, tenant) then d
    else SetTx(d, tx, d.open[tx].(locks := d.open[tx].locks + {tenant}))
  }

  function StepIssue(d: Database, tx: nat, tenant: string, table: string, cursor: nat): Database {
    if tx !in d.open || tenant !in d.open[tx].locks
       || !CursorOf(Visible(d, d.open[tx]), tenant, table, cursor)
    then d
    else
      var x := d.open[tx];
      SetTx(d, tx, x.(issues := x.issues + {Issue(tenant, table, cursor, Visible(d, x))}))
  }

  function StepCommit(d: Database, tx: nat): Database {
    if tx !in d.open then d
    else
      var x := d.open[tx];
      Database(d.last, d.committed + x.writes, d.open - {tx}, d.issued + x.issues, d.log + [x.writes])
  }

  function StepSkip(d: Database): Database {
    d.(last := d.last + 1)
  }

  function StepAbort(d: Database, tx: nat): Database {
    d.(open := d.open - {tx})
  }

  /** One statement of some transaction; a blocked or invalid one does not happen.
      Numbers are also drawn by statements that fail and by other uses of the sequence. */
  function Step(d: Database, a: Statement): Database {
    match a
    case Begin(tx) => StepBegin(d, tx)
    case LockTenant(tx, tenant) => StepLock(d, tx, tenant)
    case Upsert(tx, slot, cell) => StepUpsert(d, tx, slot, cell)
    case SkipNumber => StepSkip(d)
    case IssueCursor(tx, tenant, table, cursor) => StepIssue(d, tx, tenant, table, cursor)
    case Commit(tx) => StepCommit(d, tx)
    case Abort(tx) => StepAbort(d, tx)
  }

  function Run(d: Database, statements: seq<Statement>): Database {
    if statements == [] then d
    else Step(Run(d, statements[..|statements| - 1]), statements[|statements| - 1])
  }

  // --- Invariant -------------------------------------------------------

  ghost predicate Numbered(rows: map<Slot, Row>, last: nat) {
    forall s :: s in rows ==> rows[s].seqNo <= last
  }

  /** Rows of `later` come after those of `earlier` within each tenant. */
  ghost predicate After(earlier: map<Slot, Row>, later: map<Slot, Row>) {
    forall s, u :: s in earlier && u in later && s.tenant == u.tenant ==> earlier[s].seqNo < later[u].seqNo
  }

  /** A pending row replaces only an older version. */
  ghost predicate Newer(earlier: map<Slot, Row>, later: map<Slot, Row>) {
    forall s :: s in earlier && s in later ==> Older(earlier[s].cell.version, later[s].cell.version)
  }

  ghost predicate WritesLocked(x: Tx) {
    forall s :: s in x.writes ==> s.tenant in x.locks
  }

  /** Every row of the issue's table positioned up to its cursor is one it has seen. */
  ghost predicate Final(i: Issue, rows: map<Slot, Row>) {
    forall s :: s in rows && s.tenant == i.tenant && s.table == i.table && rows[s].seqNo <= i.cursor ==>
      s in i.seen && i.seen[s] == rows[s]
  }

  ghost predicate Beyond(i: Issue, rows: map<Slot, Row>) {
    forall s :: s in rows && s.tenant == i.tenant ==> rows[s].seqNo > i.cursor
  }

  ghost predicate TxOk(d: Database, x: Tx) {
    && WritesLocked(x)
    && Numbered(x.writes, d.last) && After(d.committed, x.writes) && Newer(d.committed, x.writes)
    && (forall i :: i in x.issues ==> i.tenant in x.locks && i.cursor <= d.last && Final(i, Visible(d, x)))
    && (forall i :: i in d.issued ==> Beyond(i, x.writes))
    && LogBefore(d.log, x.writes)
  }

  ghost predicate TxsOk(d: Database) {
    forall x :: x in d.open ==> TxOk(d, d.open[x])
  }

  ghost predicate IssuesOk(d: Database) {
    forall i :: i in d.issued ==> i.cursor <= d.last && Final(i, d.committed)
  }

  ghost predicate Exclusive(d: Database) {
    forall x, y :: x in d.open && y in d.open && x != y ==> d.open[x].locks !! d.open[y].locks
  }

  ghost predicate LogOrdered(log: seq<map<Slot, Row>>) {
    forall i, j :: 0 <= i < j < |log| ==> After(log[i], log[j])
  }

  ghost predicate LogNumbered(log: seq<map<Slot, Row>>, last: nat) {
    forall i :: 0 <= i < |log| ==> Numbered(log[i], last)
  }

  /** Each logged commit precedes these rows. */
  ghost predicate LogBefore(log: seq<map<Slot, Row>>, writes: map<Slot, Row>) {
    forall i :: 0 <= i < |log| ==> After(log[i], writes)
  }

  ghost predicate Inv(d: Database) {
    && Numbered(d.committed, d.last)
    && TxsOk(d) && IssuesOk(d) && Exclusive(d) && LogOrdered(d.log) && LogNumbered(d.log, d.last)
  }

  // --- Every statement keeps it ---------------------------------------

  /** Nothing committed or issued changes, and the sequence does not go back. */
  ghost predicate Quiet(d: Database, e: Database) {
    && e.committed == d.committed && e.issued == d.issued && e.log == d.log && d.last <= e.last
  }

  lemma TxFrame(d: Database, e: Database, x: Tx)
    requires TxOk(d, x) && Quiet(d, e)
    ensures TxOk(e, x)
  {
    forall i | i in x.issues ensures i.tenant in x.locks && i.cursor <= e.last && Final(i, Visible(e, x)) {
      assert Final(i, Visible(d, x));
    }
  }

  /** A quiet step that changes only transaction `tx` keeps the invariant if that transaction stays in order. */
  lemma QuietKeeps(d: Database, e: Database, tx: nat)
    requires Inv(d) && Quiet(d, e)
    requires forall y :: y in e.open && y != tx ==> y in d.open && e.open[y] == d.open[y]
    requires tx in e.open ==> TxOk(e, e.open[tx]) && !Overlaps(d, tx, e.open[tx].locks)
    ensures Inv(e)
  {
    forall y | y in e.open ensures TxOk(e, e.open[y]) {
      if y != tx { TxFrame(d, e, d.open[y]); }
    }
    QuietCommitted(d, e);
    forall x, y | x in e.open && y in e.open && x != y ensures e.open[x].locks !! e.open[y].locks {
      if x != tx && y != tx { assert d.open[x].locks !! d.open[y].locks; }
    }
  }

  lemma QuietCommitted(d: Database, e: Database)
    requires IssuesOk(d) && Quiet(d, e) && Numbered(d.committed, d.last) && LogNumbered(d.log, d.last)
    ensures IssuesOk(e) && Numbered(e.committed, e.last) && LogNumbered(e.log, e.last)
  {
    forall i | 0 <= i < |e.log| ensures Numbered(e.log[i], e.last) {
      assert Numbered(d.log[i], d.last);
    }
  }

  ghost predicate Overlaps(d: Database, tx: nat, locks: set<string>) {
    exists y :: y in d.open && y != tx && !(d.open[y].locks !! locks)
  }

  lemma UpsertKeeps(d: Database, tx: nat, slot: Slot, cell: Cell)
    requires Inv(d)
    ensures Inv(StepUpsert(d, tx, slot, cell))
  {
    if tx in d.open && Takes(d, d.open[tx], slot, cell) {
      TakenNewer(d, tx, slot, cell);
      StoreKeeps(d, tx, slot, Row(cell, d.last + 1));
      assert StepUpsert(d, tx, slot, cell) == Store(d, tx, slot, Row(cell, d.last + 1));
    } else {
      assert StepUpsert(d, tx, slot, cell) == d;
    }
  }

  lemma TakenNewer(d: Database, tx: nat, slot: Slot, cell: Cell)
    requires TxsOk(d) && tx in d.open && Takes(d, d.open[tx], slot, cell)
    ensures slot.tenant in d.open[tx].locks && Newer(d.committed, d.open[tx].writes[slot := Row(cell, d.last + 1)])
  {
    UpsertNewer(d, d.open[tx], slot, cell);
  }

  lemma StoreKeeps(d: Database, tx: nat, slot: Slot, row: Row)
    requires Inv(d) && tx in d.open && slot.tenant in d.open[tx].locks && row.seqNo == d.last + 1
    requires Newer(d.committed, d.open[tx].writes[slot := row])
    ensures Inv(Store(d, tx, slot, row))
  {
    var x, e := d.open[tx], Store(d, tx, slot, row);
    assert TxOk(d, x);
    WriteTx(d, e, x, e.open[tx], slot, row);
    QuietKeeps(d, e, tx);
  }

  lemma WriteLog(d: Database, rows: map<Slot, Row>, slot: Slot, row: Row)
    requires LogBefore(d.log, rows) && LogNumbered(d.log, d.last) && row.seqNo > d.last
    ensures LogBefore(d.log, rows[slot := row])
  {
    forall i | 0 <= i < |d.log| ensures After(d.log[i], rows[slot := row]) {
      assert After(d.log[i], rows) && Numbered(d.log[i], d.last);
    }
  }

  lemma WriteTx(d: Database, e: Database, x: Tx, y: Tx, slot: Slot, row: Row)
    requires TxOk(d, x) && Quiet(d, e) && e.last == d.last + 1 && slot.tenant in x.locks
    requires row.seqNo == d.last + 1 && y == x.(writes := x.writes[slot := row])
    requires Numbered(d.committed, d.last) && IssuesOk(d) && Newer(d.committed, y.writes)
    requires LogNumbered(d.log, d.last)
    ensures TxOk(e, y)
  {
    forall i | i in y.issues ensures i.tenant in y.locks && i.cursor <= e.last && Final(i, Visible(e, y)) {
      FinalExtends(i, Visible(d, x), slot, row);
      assert Visible(e, y) == Visible(d, x)[slot := row];
    }
    WriteBeyond(d, x.writes, slot, row);
    WriteLog(d, x.writes, slot, row);
  }

  lemma WriteBeyond(d: Database, rows: map<Slot, Row>, slot: Slot, row: Row)
    requires IssuesOk(d) && row.seqNo > d.last && forall i :: i in d.issued ==> Beyond(i, rows)
    ensures forall i :: i in d.issued ==> Beyond(i, rows[slot := row])
  {
    forall i | i in d.issued ensures Beyond(i, rows[slot := row]) {
      assert Beyond(i, rows);
    }
  }

  lemma FinalExtends(i: Issue, rows: map<Slot, Row>, slot: Slot, row: Row)
    requires Final(i, rows) && row.seqNo > i.cursor
    ensures Final(i, rows[slot := row])
  {
  }

  lemma UpsertNewer(d: Database, x: Tx, slot: Slot, cell: Cell)
    requires Newer(d.committed, x.writes) && Takes(d, x, slot, cell)
    ensures Newer(d.committed, x.writes[slot := Row(cell, d.last + 1)])
  {
    if slot in Visible(d, x) {
      VersionTotal(Visible(d, x)[slot].cell.version, cell.version);
      if slot in d.committed && slot in x.writes {
        VersionTransitive(d.committed[slot].cell.version, x.writes[slot].cell.version, cell.version);
      }
    }
  }

  lemma CommitKeeps(d: Database, tx: nat)
    requires Inv(d)
    ensures Inv(StepCommit(d, tx))
  {
    if tx in d.open {
      var x, e := d.open[tx], StepCommit(d, tx);
      assert TxOk(d, x);
      forall y | y in e.open ensures TxOk(e, e.open[y]) {
        assert TxOk(d, d.open[y]) && x.locks !! d.open[y].locks;
        CommitBeside(d, x, d.open[y], e);
      }
      CommitIssues(d, x, e);
      CommitLog(d, x);
    }
  }

  /** A commit leaves the transactions of other tenants as they were. */
  lemma CommitBeside(d: Database, x: Tx, y: Tx, e: Database)
    requires TxOk(d, x) && TxOk(d, y) && x.locks !! y.locks && e.last == d.last
    requires e.committed == d.committed + x.writes && e.issued == d.issued + x.issues && e.log == d.log + [x.writes]
    ensures TxOk(e, y)
  {
    forall i | i in y.issues ensures Final(i, Visible(e, y)) {
      assert Final(i, Visible(d, y));
    }
    forall i | i in e.issued ensures Beyond(i, y.writes) {
    }
    forall i | 0 <= i < |e.log| ensures After(e.log[i], y.writes) {
    }
  }

  lemma CommitIssues(d: Database, x: Tx, e: Database)
    requires TxOk(d, x) && IssuesOk(d) && Numbered(d.committed, d.last)
    requires e.last == d.last && e.committed == d.committed + x.writes && e.issued == d.issued + x.issues
    ensures IssuesOk(e) && Numbered(e.committed, e.last)
  {
    forall i | i in e.issued ensures i.cursor <= e.last && Final(i, e.committed) {
      if i in d.issued { assert Final(i, d.committed) && Beyond(i, x.writes); }
    }
  }

  lemma CommitLog(d: Database, x: Tx)
    requires LogOrdered(d.log) && LogNumbered(d.log, d.last) && TxOk(d, x)
    ensures LogOrdered(d.log + [x.writes]) && LogNumbered(d.log + [x.writes], d.last)
  {
  }

  lemma IssueKeeps(d: Database, tx: nat, tenant: string, table: string, cursor: nat)
    requires Inv(d)
    ensures Inv(StepIssue(d, tx, tenant, table, cursor))
  {
    if tx in d.open && tenant in d.open[tx].locks && CursorOf(Visible(d, d.open[tx]), tenant, table, cursor) {
      assert TxOk(d, d.open[tx]);
      IssueTx(d, StepIssue(d, tx, tenant, table, cursor), d.open[tx], Issue(tenant, table, cursor, Visible(d, d.open[tx])));
      QuietKeeps(d, StepIssue(d, tx, tenant, table, cursor), tx);
    }
  }

  lemma IssueTx(d: Database, e: Database, x: Tx, i: Issue)
    requires TxOk(d, x) && Quiet(d, e) && i.tenant in x.locks && Numbered(d.committed, d.last)
    requires CursorOf(Visible(d, x), i.tenant, i.table, i.cursor) && i.seen == Visible(d, x)
    ensures TxOk(e, x.(issues := x.issues + {i}))
  {
    TxFrame(d, e, x);
    var y := x.(issues := x.issues + {i});
    forall j | j in y.issues ensures j.tenant in y.locks && j.cursor <= e.last && Final(j, Visible(e, y)) {
      assert Visible(e, y) == Visible(d, x);
      if j != i { assert Final(j, Visible(d, x)); }
    }
  }

  lemma LockKeeps(d: Database, tx: nat, tenant: string)
    requires Inv(d)
    ensures Inv(StepLock(d, tx, tenant))
  {
    if tx in d.open && !LockedElsewhere(d, tx, tenant) {
      TxFrame(d, StepLock(d, tx, tenant), d.open[tx]);
      QuietKeeps(d, StepLock(d, tx, tenant), tx);
    }
  }

  lemma StepKeeps(d: Database, a: Statement)
    requires Inv(d)
    ensures Inv(Step(d, a))
  {
    match a
    case Begin(tx) => BeginKeeps(d, tx);
    case LockTenant(tx, tenant) => LockKeeps(d, tx, tenant);
    case Upsert(tx, slot, cell) => UpsertKeeps(d, tx, slot, cell);
    case SkipNumber => SkipKeeps(d);
    case IssueCursor(tx, tenant, table, cursor) => IssueKeeps(d, tx, tenant, table, cursor);
    case Commit(tx) => CommitKeeps(d, tx);
    case Abort(tx) => AbortKeeps(d, tx);
  }

  lemma BeginKeeps(d: Database, tx: nat)
    requires Inv(d)
    ensures Inv(StepBegin(d, tx))
  {
    if tx !in d.open { QuietKeeps(d, StepBegin(d, tx), tx); }
  }

  lemma AbortKeeps(d: Database, tx: nat)
    requires Inv(d)
    ensures Inv(StepAbort(d, tx))
  {
    QuietKeeps(d, StepAbort(d, tx), tx);
  }

  lemma SkipKeeps(d: Database)
    requires Inv(d)
    ensures Inv(StepSkip(d))
  {
    var e := StepSkip(d);
    forall y | y in e.open ensures TxOk(e, e.open[y]) {
      TxFrame(d, e, d.open[y]);
    }
    QuietCommitted(d, e);
  }

  lemma {:induction false} RunKeeps(statements: seq<Statement>)
    ensures Inv(Run(NEW, statements))
  {
    if statements != [] {
      RunKeeps(statements[..|statements| - 1]);
      StepKeeps(Run(NEW, statements[..|statements| - 1]), statements[|statements| - 1]);
    }
  }

  // --- Results ---------------------------------------------------------

  /** Merges of one tenant commit in sequence order, whatever other transactions
      interleave or abort. */
  lemma CommitsInOrder(statements: seq<Statement>, i: nat, j: nat, a: Slot, b: Slot)
    requires i < j < |Run(NEW, statements).log|
    requires a in Run(NEW, statements).log[i] && b in Run(NEW, statements).log[j] && a.tenant == b.tenant
    ensures var d := Run(NEW, statements); d.log[i][a].seqNo < d.log[j][b].seqNo
  {
    RunKeeps(statements);
    var d := Run(NEW, statements);
    assert After(d.log[i], d.log[j]);
  }

  /** What a statement may do to committed rows, given the cursors already issued. */
  ghost predicate KeepsPast(d: Database, e: Database) {
    && d.issued <= e.issued
    && (forall i, s :: i in d.issued && s in e.committed && s.tenant == i.tenant && e.committed[s].seqNo <= i.cursor ==>
          s in d.committed && d.committed[s] == e.committed[s])
    && (forall s :: s in d.committed ==>
          s in e.committed && AtMost(d.committed[s].cell.version, e.committed[s].cell.version))
  }

  lemma StepKeepsPast(d: Database, a: Statement)
    requires Inv(d)
    ensures KeepsPast(d, Step(d, a))
  {
    if a.Commit? && a.tx in d.open {
      assert TxOk(d, d.open[a.tx]);
      CommitKeepsPast(d, d.open[a.tx], Step(d, a));
    } else {
      OthersQuiet(d, a);
      QuietKeepsPast(d, Step(d, a));
    }
  }

  /** Only a commit makes anything visible. */
  lemma OthersQuiet(d: Database, a: Statement)
    requires a.Commit? ==> a.tx !in d.open
    ensures Quiet(d, Step(d, a))
  {
  }

  lemma QuietKeepsPast(d: Database, e: Database)
    requires Quiet(d, e)
    ensures KeepsPast(d, e)
  {
  }

  lemma CommitKeepsPast(d: Database, x: Tx, e: Database)
    requires TxOk(d, x) && e.committed == d.committed + x.writes && d.issued <= e.issued
    ensures KeepsPast(d, e)
  {
    forall i, s | i in d.issued && s in e.committed && s.tenant == i.tenant && e.committed[s].seqNo <= i.cursor
      ensures s in d.committed && d.committed[s] == e.committed[s]
    {
      assert Beyond(i, x.writes);
    }
  }

  lemma KeepsPastTransitive(d: Database, e: Database, f: Database)
    requires KeepsPast(d, e) && KeepsPast(e, f)
    ensures KeepsPast(d, f)
  {
    forall s | s in d.committed ensures s in f.committed && AtMost(d.committed[s].cell.version, f.committed[s].cell.version) {
      VersionTransitive(d.committed[s].cell.version, e.committed[s].cell.version, f.committed[s].cell.version);
    }
  }

  /** Once a cursor is issued, no row of its tenant numbered up to it becomes
      visible later, and no committed version is ever replaced by an older one. */
  lemma {:induction false} IssuedCursorIsFinal(before: seq<Statement>, statements: seq<Statement>)
    ensures KeepsPast(Run(NEW, before), Run(Run(NEW, before), statements))
  {
    var d := Run(NEW, before);
    if statements != [] {
      var n := |statements| - 1;
      IssuedCursorIsFinal(before, statements[..n]);
      RunAfter(before, statements[..n]);
      RunKeeps(before + statements[..n]);
      var e := Run(d, statements[..n]);
      StepKeepsPast(e, statements[n]);
      KeepsPastTransitive(d, e, Step(e, statements[n]));
    }
  }

  lemma {:induction false} RunAfter(before: seq<Statement>, statements: seq<Statement>)
    ensures Run(NEW, before + statements) == Run(Run(NEW, before), statements)
  {
    if statements == [] {
      assert before + statements == before;
    } else {
      var n := |statements| - 1;
      RunAfter(before, statements[..n]);
      assert (before + statements)[..|before| + n] == before + statements[..n];
    }
  }

  /** A device that stored the rows visible when its cursor was computed holds
      every committed row up to that cursor, in every later state. */
  lemma CursorSawEverything(statements: seq<Statement>, i: Issue)
    requires i in Run(NEW, statements).issued
    ensures Final(i, Run(NEW, statements).committed)
  {
    RunKeeps(statements);
  }

  /** The order holds per tenant only: two tenants may commit against sequence order. */
  lemma TenantsCommitOutOfOrder(a: Slot, b: Slot, cell: Cell)
    requires a.tenant != b.tenant
    ensures exists statements :: Run(NEW, statements).log == [map[b := Row(cell, 2)], map[a := Row(cell, 1)]]
  {
    var begun := [] + [Begin(0)] + [Begin(1)];
    var locked := begun + [LockTenant(0, a.tenant)] + [LockTenant(1, b.tenant)];
    var written := locked + [Upsert(0, a, cell)] + [Upsert(1, b, cell)];
    RunTwo([], Begin(0), Begin(1));
    RunTwo(begun, LockTenant(0, a.tenant), LockTenant(1, b.tenant));
    TwoLocks(a.tenant, b.tenant);
    RunTwo(locked, Upsert(0, a, cell), Upsert(1, b, cell));
    RunTwo(written, Commit(1), Commit(0));
    TwoWrites(Run(NEW, locked), a, b, cell);
  }

  lemma TwoLocks(a: string, b: string)
    requires a != b
    ensures Step(Step(Step(Step(NEW, Begin(0)), Begin(1)), LockTenant(0, a)), LockTenant(1, b)) ==
      SetTx(SetTx(NEW, 0, Tx({a}, map[], {})), 1, Tx({b}, map[], {}))
  {
    var d := SetTx(SetTx(NEW, 0, Tx({}, map[], {})), 1, Tx({}, map[], {}));
    assert Step(Step(NEW, Begin(0)), Begin(1)) == d;
    var e := SetTx(d, 0, Tx({a}, map[], {}));
    assert {} + {a} == {a} && {} + {b} == {b};
    assert Step(d, LockTenant(0, a)) == e;
    assert Step(e, LockTenant(1, b)) == SetTx(e, 1, Tx({b}, map[], {}));
    assert SetTx(e, 1, Tx({b}, map[], {})).open == SetTx(SetTx(NEW, 0, Tx({a}, map[], {})), 1, Tx({b}, map[], {})).open;
  }

  lemma TwoWrites(d: Database, a: Slot, b: Slot, cell: Cell)
    requires a.tenant != b.tenant
    requires d == SetTx(SetTx(NEW, 0, Tx({a.tenant}, map[], {})), 1, Tx({b.tenant}, map[], {}))
    ensures var e := Step(Step(Step(Step(d, Upsert(0, a, cell)), Upsert(1, b, cell)), Commit(1)), Commit(0));
      e.log == [map[b := Row(cell, 2)], map[a := Row(cell, 1)]]
  {
    var e1 := SetTx(d, 0, Tx({a.tenant}, map[a := Row(cell, 1)], {})).(last := 1);
    var e2 := SetTx(e1, 1, Tx({b.tenant}, map[b := Row(cell, 2)], {})).(last := 2);
    assert Step(d, Upsert(0, a, cell)) == e1;
    assert Step(e1, Upsert(1, b, cell)) == e2;
  }

  lemma RunTwo(ss: seq<Statement>, a: Statement, b: Statement)
    ensures Run(NEW, ss + [a] + [b]) == Step(Step(Run(NEW, ss), a), b)
  {
    assert (ss + [a])[..|ss|] == ss;
    assert (ss + [a] + [b])[..|ss| + 1] == ss + [a];
  }
}
