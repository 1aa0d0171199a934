/** Last writer wins, in plain terms: the larger clock, then the device identifier that is larger
    at the first character where the two differ, a proper extension being larger. */
module Lww {
  import opened Names
  import opened Cells
  import opened Payload
  import opened Server
  import opened ServerFacts
  import opened Client
  import opened ClientFacts
  import opened MergeLaws
  import opened Postgres

  // --- The order of versions -------------------------------------------

  /** The texts agree before position `n`, where `a` has ended or has the smaller character. */
  ghost predicate PartsAt(a: string, b: string, n: nat) {
    && n <= |a| && n < |b|
    && (forall i :: 0 <= i < n ==> a[i] == b[i])
    && (n == |a| || (a[n] as int) < (b[n] as int))
  }

  /** The smaller text: it ends where the other goes on, or has the smaller character where they first differ. */
  ghost predicate Precedes(a: string, b: string) {
    exists n: nat :: PartsAt(a, b, n)
  }

  lemma {:induction false} BeforeParts(a: string, b: string)
    ensures Before(a, b) <==> Precedes(a, b)
  {
    if a == [] || b == [] {
      if b != [] { assert PartsAt(a, b, 0); }
    } else if a[0] != b[0] {
      if Before(a, b) { assert PartsAt(a, b, 0); }
    } else {
      BeforeParts(a[1..], b[1..]);
      if n: nat :| PartsAt(a[1..], b[1..], n) { TailParts(a, b, n); }
      if n: nat :| PartsAt(a, b, n) {
        assert n > 0;
        assert PartsAt(a[1..], b[1..], n - 1);
      }
    }
  }

  lemma TailParts(a: string, b: string, n: nat)
    requires a != [] && b != [] && a[0] == b[0] && PartsAt(a[1..], b[1..], n)
    ensures PartsAt(a, b, n + 1)
  {
    forall i | 0 <= i < n + 1 ensures a[i] == b[i] {
      if i > 0 { assert a[1..][i - 1] == b[1..][i - 1]; }
    }
  }

  /** A larger clock, or the same clock and a device identifier that is larger where they part. */
  ghost predicate Beats(incoming: Version, current: Version) {
    current.clock < incoming.clock ||
    (current.clock == incoming.clock && Precedes(current.device, incoming.device))
  }

  lemma OlderParts(current: Version, incoming: Version)
    ensures Older(current, incoming) <==> Beats(incoming, current)
  {
    BeforeParts(current.device, incoming.device);
  }

  /** The decision: accept what beats the current version, keep what is beaten, and call only the same version equal. */
  lemma LwwDecides(current: Version, incoming: Version)
    ensures DecideLww(current, incoming) == AcceptIncoming <==> Beats(incoming, current)
    ensures DecideLww(current, incoming) == KeepCurrent <==> Beats(current, incoming)
    ensures DecideLww(current, incoming) == Equal <==> current.clock == incoming.clock && current.device == incoming.device
  {
    OlderParts(current, incoming);
    OlderParts(incoming, current);
    VersionTotal(current, incoming);
  }

  /** At one clock, a greater character at the first difference wins, whatever follows it. */
  lemma GreaterLetterWins(clock: nat, same: string, x: char, y: char, rest: string, more: string)
    requires (x as int) < (y as int)
    ensures DecideLww(Version(clock, same + [x] + rest), Version(clock, same + [y] + more)) == AcceptIncoming
    ensures DecideLww(Version(clock, same + [y] + more), Version(clock, same + [x] + rest)) == KeepCurrent
  {
    var a, b := Version(clock, same + [x] + rest), Version(clock, same + [y] + more);
    assert PartsAt(a.device, b.device, |same|);
    LwwDecides(a, b);
    LwwDecides(b, a);
  }

  /** At one clock, a proper extension of a device identifier wins over it. */
  lemma ExtensionWins(clock: nat, device: string, more: string)
    requires more != []
    ensures DecideLww(Version(clock, device), Version(clock, device + more)) == AcceptIncoming
    ensures DecideLww(Version(clock, device + more), Version(clock, device)) == KeepCurrent
  {
    var a, b := Version(clock, device), Version(clock, device + more);
    assert PartsAt(a.device, b.device, |device|);
    LwwDecides(a, b);
    LwwDecides(b, a);
  }

  // --- What a merge stores ---------------------------------------------

  /** The request carries cell `c` at `k`: some row of that identifier has it under that column. */
  ghost predicate Sends(p: SyncPayload, k: Key, c: Cell) {
    exists i :: 0 <= i < |p.changes| && p.changes[i].row == k.row
                && k.column in p.changes[i].columns && p.changes[i].columns[k.column] == c
  }

  lemma SendsIs(p: SyncPayload, k: Key, c: Cell)
    requires DistinctRows(p.changes)
    ensures Sends(p, k, c) <==> k in CellsOf(p.changes) && CellsOf(p.changes)[k] == c
  {
    if i :| 0 <= i < |p.changes| && p.changes[i].row == k.row && k.column in p.changes[i].columns && p.changes[i].columns[k.column] == c {
      CellsOfEntry(p.changes, i, Write(k, c));
    }
    if k in CellsOf(p.changes) {
      var i := CellsOfOrigin(p.changes, k);
    }
  }

  /** Both hooks allow the cell over what is stored. */
  predicate Permitted(sec: Security, device: string, k: Key, c: Cell, stored: Option<Cell>) {
    sec.authorize(device, k, c, stored) == Allow && sec.validate(device, k, c, stored) == Allow
  }

  /** What is stored at `k` once cell `c` was sent over `cells`. */
  ghost predicate StoredAfter(cells: map<Key, Cell>, after: map<Key, Cell>, k: Key, c: Cell, permitted: bool) {
    if permitted && (k in cells ==> Beats(c.version, cells[k].version)) then k in after && after[k] == c
    else (k in after <==> k in cells) && (k in cells ==> after[k] == cells[k])
  }

  /** After a merge each sent cell is stored if both hooks permit it and it beats what was stored; otherwise
      what was there stays, as it does at every key the request does not carry. */
  lemma MergeStores(s: State, p: SyncPayload, device: string, sec: Security, env: Env, k: Key, c: Cell)
    requires Valid(s) && Merge(s, p, device, sec, env).Ok?
    ensures var t := Merge(s, p, device, sec, env).value.state;
      && (Sends(p, k, c) ==> StoredAfter(s.cells, t.cells, k, c, Permitted(sec, device, k, c, Lookup(s.cells, k))))
      && ((forall x :: !Sends(p, k, x)) ==> StoredAfter(s.cells, t.cells, k, c, false))
  {
    MergeAdmitted(s, p, device, sec, env);
    SendsIs(p, k, c);
    if k in CellsOf(p.changes) { SendsIs(p, k, CellsOf(p.changes)[k]); }
    MergeJudged(s, p, device, sec, env, k, c);
  }

  lemma MergeJudged(s: State, p: SyncPayload, device: string, sec: Security, env: Env, k: Key, c: Cell)
    requires Valid(s) && Merge(s, p, device, sec, env).Ok?
    ensures var t := Merge(s, p, device, sec, env).value.state; var m := CellsOf(p.changes);
      && (k in m && m[k] == c ==> StoredAfter(s.cells, t.cells, k, c, Permitted(sec, device, k, c, Lookup(s.cells, k))))
      && (k !in m ==> StoredAfter(s.cells, t.cells, k, c, false))
  {
    MergeIsFilteredJoin(s, p, device, sec, env, k);
    FilteredStored(s.cells, Merge(s, p, device, sec, env).value.state.cells, CellsOf(p.changes), sec, device, k, c);
  }

  lemma FilteredStored(cells: map<Key, Cell>, after: map<Key, Cell>, m: map<Key, Cell>, sec: Security, device: string, k: Key, c: Cell)
    requires Lookup(after, k) == FilteredJoin(cells, m, sec, device, k)
    ensures k in m && m[k] == c ==> StoredAfter(cells, after, k, c, Permitted(sec, device, k, c, Lookup(cells, k)))
    ensures k !in m ==> StoredAfter(cells, after, k, c, false)
  {
    if k in cells { OlderParts(cells[k].version, c.version); }
  }

  /** The adapter's merge stores by the same rule. */
  lemma TenantStores(s: Tenant, p: SyncPayload, device: string, sec: Security, next: Draw, epoch: string, uuid: string, env: Env,
                     k: Key, c: Cell)
    requires Sane(s) && Increasing(next) && MergeTenant(s, p, device, sec, next, epoch, uuid, env).Ok?
    ensures var t := MergeTenant(s, p, device, sec, next, epoch, uuid, env).value.tenant.core;
      && (Sends(p, k, c) ==> StoredAfter(s.core.cells, t.cells, k, c, Permitted(sec, device, k, c, Lookup(s.core.cells, k))))
      && ((forall x :: !Sends(p, k, x)) ==> StoredAfter(s.core.cells, t.cells, k, c, false))
  {
    TenantAdmitted(s, p, device, sec, next, epoch, uuid, env);
    SendsIs(p, k, c);
    if k in CellsOf(p.changes) { SendsIs(p, k, CellsOf(p.changes)[k]); }
    if k in s.core.cells { OlderParts(s.core.cells[k].version, c.version); }
    TenantJudged(s, p, device, sec, next, epoch, uuid, env, k, c);
  }

  lemma TenantJudged(s: Tenant, p: SyncPayload, device: string, sec: Security, next: Draw, epoch: string, uuid: string, env: Env,
                     k: Key, c: Cell)
    requires Sane(s) && Increasing(next) && MergeTenant(s, p, device, sec, next, epoch, uuid, env).Ok?
    ensures var t := MergeTenant(s, p, device, sec, next, epoch, uuid, env).value.tenant.core; var m := CellsOf(p.changes);
      && (k in m && m[k] == c ==>
            var wins := Permitted(sec, device, k, c, Lookup(s.core.cells, k)) && (k in s.core.cells ==> Older(s.core.cells[k].version, c.version));
            Lookup(t.cells, k) == (if wins then Some(c) else Lookup(s.core.cells, k)))
      && (k !in m ==> Lookup(t.cells, k) == Lookup(s.core.cells, k))
  {
    var b, m := TenantParts(s, p, device, sec, next, epoch, uuid, env);
    assert JoinedAt(Start(s.core), RulingOf(sec, device), m, b, k);
    if k in m && m[k] == c { JudgedApplied(sec, device, Write(k, c), Lookup(s.core.cells, k)); }
  }

  lemma JudgedApplied(sec: Security, device: string, w: Write, stored: Option<Cell>)
    ensures RulingOf(sec, device)(w, stored).Applied? <==>
      Permitted(sec, device, w.key, w.cell, stored) && (stored.Some? ==> Older(stored.value.version, w.cell.version))
  {
    if stored.Some? { VersionTotal(stored.value.version, w.cell.version); }
  }

  // --- What a device stores --------------------------------------------

  /** After a response is applied each answered cell is stored, clean, and shown if it beats what was stored; otherwise
      the stored entry stays, dirty or not, as it does at every key the response does not carry. */
  lemma ApplyStores(c: Client, r: SyncPayload, t: Schema, k: Key, x: Cell)
    requires ApplyRemote(c, r, t).Ok?
    ensures var d := ApplyRemote(c, r, t).value;
      && (Sends(r, k, x) ==>
            if k in c.log ==> Beats(x.version, c.log[k].cell.version) then
              k in d.log && d.log[k] == Entry(x, false) && k in d.app && d.app[k] == x.value
            else d.log[k] == c.log[k] && (k in c.app ==> k in d.app && d.app[k] == c.app[k]))
      && ((forall y :: !Sends(r, k, y)) ==>
            && (k in d.log <==> k in c.log) && (k in c.log ==> d.log[k] == c.log[k])
            && (k in c.app ==> k in d.app && d.app[k] == c.app[k]))
  {
    ApplyRemoteShape(c, r, t);
    SendsIs(r, k, x);
    if k in CellsOf(r.changes) {
      SendsIs(r, k, CellsOf(r.changes)[k]);
      AnsweredShown(c, r, t, k);
    }
    if k in c.log { OlderParts(c.log[k].cell.version, x.version); }
  }

  /** An answered cell has a place in the table. */
  lemma AnsweredShown(c: Client, r: SyncPayload, t: Schema, k: Key)
    requires ValidResponse(r, t) && k in CellsOf(r.changes)
    ensures k in Absorbed(c, CellsOf(r.changes), RowSet(r.changes), t).app
  {
    PayloadRemoteOk(c, r, t);
    assert k.row in RowSet(r.changes) && k.column in t.types;
    assert k in Grid(RowSet(r.changes), t.types.Keys);
  }
}
