/** What each statement of the interleaved transactions does to the database, in plain terms. */
module LockSteps {
  import opened Cells
  import opened PostgresLock
  import opened Lww

  /** What a statement of the transaction sees: its own row where it wrote one, the committed row elsewhere. */
  ghost predicate Sees(d: Database, tx: nat, slot: Slot, row: Row)
    requires tx in d.open
  {
    if slot in d.open[tx].writes then d.open[tx].writes[slot] == row else slot in d.committed && d.committed[slot] == row
  }

  ghost predicate SeesNothing(d: Database, tx: nat, slot: Slot)
    requires tx in d.open
  {
    slot !in d.open[tx].writes && slot !in d.committed
  }

  /** Only this transaction changed, and only in what the three parameters say. */
  ghost predicate OnlyTx(d: Database, e: Database, tx: nat, locks: set<string>, writes: map<Slot, Row>, issues: set<Issue>) {
    && tx in e.open && e.open[tx].locks == locks && e.open[tx].writes == writes && e.open[tx].issues == issues
    && e.open.Keys == d.open.Keys + {tx} && (forall y :: y in d.open && y != tx ==> e.open[y] == d.open[y])
    && e.committed == d.committed && e.issued == d.issued && e.log == d.log
  }

  /** A transaction begins with nothing; a lock is taken exactly when no other open transaction holds it. */
  lemma BeginLockExactly(d: Database, tx: nat, tenant: string)
    ensures tx !in d.open ==> OnlyTx(d, Step(d, Begin(tx)), tx, {}, map[], {}) && Step(d, Begin(tx)).last == d.last
    ensures tx in d.open && (forall y :: y in d.open && y != tx ==> tenant !in d.open[y].locks) ==>
      var x := d.open[tx]; var e := Step(d, LockTenant(tx, tenant));
      OnlyTx(d, e, tx, x.locks + {tenant}, x.writes, x.issues) && e.last == d.last
    ensures (exists y :: y in d.open && y != tx && tenant in d.open[y].locks) ==> Step(d, LockTenant(tx, tenant)) == d
  {
  }

  /** Under its tenant's lock a cell is written exactly when no cell is seen or it beats the seen one; it takes the next number. */
  lemma UpsertExactly(d: Database, tx: nat, slot: Slot, cell: Cell)
    requires tx in d.open
    ensures var x := d.open[tx]; var e := Step(d, Upsert(tx, slot, cell));
      if slot.tenant in x.locks && (SeesNothing(d, tx, slot) || exists row :: Sees(d, tx, slot, row) && Beats(cell.version, row.cell.version))
      then OnlyTx(d, e, tx, x.locks, x.writes[slot := Row(cell, d.last + 1)], x.issues) && e.last == d.last + 1
      else e == d
  {
    if slot in Visible(d, d.open[tx]) {
      var row := Visible(d, d.open[tx])[slot];
      assert Sees(d, tx, slot, row);
      LwwDecides(row.cell.version, cell.version);
    }
  }

  ghost predicate SawExactly(d: Database, tx: nat, seen: map<Slot, Row>)
    requires tx in d.open
  {
    forall slot, row :: Sees(d, tx, slot, row) <==> slot in seen && seen[slot] == row
  }

  lemma CursorSeen(d: Database, tx: nat, tenant: string, table: string, cursor: nat, seen: map<Slot, Row>)
    requires tx in d.open && seen == Visible(d, d.open[tx])
    requires || (exists slot: Slot, row: Row :: slot.tenant == tenant && slot.table == table && Sees(d, tx, slot, row) && row.seqNo == cursor)
             || (cursor == 0 && forall slot: Slot :: slot.tenant == tenant && slot.table == table ==> SeesNothing(d, tx, slot))
    ensures CursorOf(seen, tenant, table, cursor)
  {
    if slot: Slot, row: Row :| slot.tenant == tenant && slot.table == table && Sees(d, tx, slot, row) && row.seqNo == cursor {
      assert slot in seen && seen[slot] == row;
    } else {
      forall slot | slot in seen ensures slot.tenant != tenant || slot.table != table {
        assert !SeesNothing(d, tx, slot);
      }
    }
  }

  /** Under its tenant's lock a transaction may issue the position of a row it sees in the table, or zero when it sees
      none; what it saw is kept with the cursor. */
  lemma IssueExactly(d: Database, tx: nat, tenant: string, table: string, cursor: nat)
    requires tx in d.open && tenant in d.open[tx].locks
    requires || (exists slot: Slot, row: Row :: slot.tenant == tenant && slot.table == table && Sees(d, tx, slot, row) && row.seqNo == cursor)
             || (cursor == 0 && forall slot: Slot :: slot.tenant == tenant && slot.table == table ==> SeesNothing(d, tx, slot))
    ensures var x := d.open[tx]; var e := Step(d, IssueCursor(tx, tenant, table, cursor));
      exists seen :: SawExactly(d, tx, seen)
        && OnlyTx(d, e, tx, x.locks, x.writes, x.issues + {Issue(tenant, table, cursor, seen)}) && e.last == d.last
  {
    var x, seen, e := d.open[tx], Visible(d, d.open[tx]), Step(d, IssueCursor(tx, tenant, table, cursor));
    assert SawExactly(d, tx, seen);
    CursorSeen(d, tx, tenant, table, cursor, seen);
    assert OnlyTx(d, e, tx, x.locks, x.writes, x.issues + {Issue(tenant, table, cursor, seen)});
  }

  /** A commit publishes the transaction's rows over the committed ones, and its issues, and logs its rows; an abort
      forgets them. No number is given back. */
  lemma EndExactly(d: Database, tx: nat)
    requires tx in d.open
    ensures var x := d.open[tx]; var e := Step(d, Commit(tx));
      && e.committed == d.committed + x.writes && e.issued == d.issued + x.issues && e.log == d.log + [x.writes]
      && e.last == d.last && e.open == map y | y in d.open && y != tx :: d.open[y]
    ensures var e := Step(d, Abort(tx));
      && e.committed == d.committed && e.issued == d.issued && e.log == d.log && e.last == d.last
      && e.open == map y | y in d.open && y != tx :: d.open[y]
    ensures Step(d, SkipNumber) == d.(last := d.last + 1)
  {
  }
}
