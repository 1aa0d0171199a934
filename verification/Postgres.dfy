/** One PostgreSQL merge of a tenant's table, run alone under the tenant lock:
    numbered rows with gaps, streamed pages, and leased cursors tied to an epoch. */
module Postgres {
  import opened Names
  import opened Cells
  import opened Payload
  import opened Server
  import opened ServerFacts

  // --- Numbered writes -------------------------------------------------

  /** What `nextval` yields after a given number; other tenants take the numbers between. */
  type Draw = nat -> nat

  ghost predicate Increasing(next: Draw) {
    forall n :: next(n) > n
  }

  function AbsorbRow(a: Acc, who: Ruling, w: Write, next: Draw): Result<Acc> {
    match JudgeIn(a.cells, who, w)
    case Fault => Err
    case Rejected(r) => Ok(a.(rejections := a.rejections + [r]))
    case Applied =>
      Ok(Acc(a.cells[w.key := w.cell], next(a.seqNo), a.cellSeq[w.key := next(a.seqNo)], a.rejections))
    case Superseded => Ok(a)
    case Idempotent => Ok(a)
  }

  function AbsorbRows(a: Acc, who: Ruling, ws: seq<Write>, next: Draw): Result<Acc> {
    if ws == [] then Ok(a)
    else
      match AbsorbRows(a, who, ws[..|ws| - 1], next)
      case Err => Err
      case Ok(b) => AbsorbRow(b, who, ws[|ws| - 1], next)
  }

  lemma RowStep(a: Acc, who: Ruling, m: map<Key, Cell>, b: Acc, w: Write, next: Draw)
    requires Joined(a, who, m, b) && a.seqNo <= b.seqNo && w.key !in m && Increasing(next)
    requires AbsorbRow(b, who, w, next).Ok?
    ensures Joined(a, who, m[w.key := w.cell], AbsorbRow(b, who, w, next).value)
  {
    var c, m' := AbsorbRow(b, who, w, next).value, m[w.key := w.cell];
    assert JoinedAt(a, who, m, b, w.key);
    forall k ensures JoinedAt(a, who, m', c, k) {
      assert JoinedAt(a, who, m, b, k);
    }
  }

  /** With gaps in the numbering the loop still computes the join, and numbers stay distinct. */
  lemma {:induction false} AbsorbRowsJoin(a: Acc, who: Ruling, ws: seq<Write>, next: Draw)
    requires DistinctKeys(ws) && Increasing(next) && Indexed(a.cells, a.seqNo, a.cellSeq)
    requires AbsorbRows(a, who, ws, next).Ok?
    ensures var b := AbsorbRows(a, who, ws, next).value;
      Joined(a, who, AsMap(ws), b) && Indexed(b.cells, b.seqNo, b.cellSeq) && a.seqNo <= b.seqNo
  {
    if ws != [] {
      var n := |ws| - 1;
      AbsorbRowsJoin(a, who, ws[..n], next);
      LastKeyFresh(ws);
      RowStep(a, who, AsMap(ws[..n]), AbsorbRows(a, who, ws[..n], next).value, ws[n], next);
    }
  }

  // --- Pages -----------------------------------------------------------

  ghost predicate IsHighest(pos: map<Key, nat>, n: nat) {
    && (forall k :: k in pos ==> pos[k] <= n)
    && (n == 0 || exists k :: k in pos && pos[k] == n)
  }

  lemma HighestOfBoth(pos: map<Key, nat>, k: Key, n: nat)
    requires k in pos && IsHighest(pos - {k}, n)
    ensures IsHighest(pos, if pos[k] >= n then pos[k] else n)
  {
    var others := pos - {k};
    forall j | j in pos && j != k ensures pos[j] <= n {
      assert j in others && others[j] == pos[j];
    }
    if n != 0 {
      var j :| j in others && others[j] == n;
      assert pos[j] == n;
    }
  }

  /** The highest number of the table, or zero while it is empty. */
  ghost function Highest(pos: map<Key, nat>): (n: nat)
    ensures IsHighest(pos, n)
  {
    if pos == map[] then 0
    else
      var k :| k in pos;
      var others := pos - {k};
      HighestOfBoth(pos, k, Highest(others));
      if pos[k] >= Highest(others) then pos[k] else Highest(others)
  }

  lemma HighestIs(pos: map<Key, nat>, n: nat)
    requires IsHighest(pos, n)
    ensures n == Highest(pos)
  {
  }

  ghost function Unseen(cells: map<Key, Cell>, pos: map<Key, nat>, from: int): set<Key> {
    set k | k in cells && k in pos && pos[k] > from
  }

  /** The first `n` elements, or all of them. */
  function Prefix(s: seq<Key>, n: nat): (r: seq<Key>)
    ensures forall k :: k in r ==> k in s
  {
    if |s| > n then s[..n] else s
  }

  /** The rows fetched for one page: one more than a page may hold. */
  ghost function Fetched(cells: map<Key, Cell>, pos: map<Key, nat>, from: int): (rows: seq<Key>)
    ensures forall k :: k in rows ==> k in cells && k in pos && pos[k] > from
  {
    Prefix(BySeq(Unseen(cells, pos, from), pos), MAX_RESPONSE_CELLS + 1)
  }

  /** The page streamed from the fetched rows. */
  ghost function Streamed(rows: seq<Key>, cells: map<Key, Cell>, pos: map<Key, nat>, size: (Key, Cell) -> nat, from: int): Page
    requires forall k :: k in rows ==> k in cells && k in pos
  {
    var n := PageEnd(rows, cells, size, 0, 0);
    Page(rows[..n], if n == |rows| then Highest(pos) else if n == 0 then from else pos[rows[n - 1]], n < |rows|)
  }

  ghost function PageOf(cells: map<Key, Cell>, pos: map<Key, nat>, size: (Key, Cell) -> nat, from: int): Page {
    Streamed(Fetched(cells, pos, from), cells, pos, size, from)
  }

  /** Fetching one row more than a page may hold cuts the page at the same place. */
  lemma {:induction false} FetchOneMore(feed: seq<Key>, rows: seq<Key>, cells: map<Key, Cell>, size: (Key, Cell) -> nat, i: nat, bytes: nat)
    requires forall k :: k in feed ==> k in cells
    requires rows == Prefix(feed, MAX_RESPONSE_CELLS + 1)
    requires i <= |rows| && i <= MAX_RESPONSE_CELLS
    ensures (forall k :: k in rows ==> k in cells) && PageEnd(rows, cells, size, i, bytes) == PageEnd(feed, cells, size, i, bytes)
    ensures var n := PageEnd(feed, cells, size, i, bytes); n <= |rows| && (n < |rows| <==> n < |feed|) && rows[..n] == feed[..n]
    decreases |rows| - i
  {
    assert forall k :: k in rows ==> k in feed;
    if i < |rows| && i < MAX_RESPONSE_CELLS {
      assert rows[i] == feed[i];
      FetchOneMore(feed, rows, cells, size, i + 1, bytes + size(feed[i], cells[feed[i]]));
    }
  }

  /** The streamed page carries every row numbered in `(from, next]`. */
  lemma PageComplete(cells: map<Key, Cell>, pos: map<Key, nat>, size: (Key, Cell) -> nat, from: int, k: Key)
    requires cells.Keys == pos.Keys && Injective(pos) && k in pos
    requires from < pos[k] <= PageOf(cells, pos, size, from).next
    ensures k in PageOf(cells, pos, size, from).keys
  {
    var feed := BySeq(Unseen(cells, pos, from), pos);
    FetchOneMore(feed, Fetched(cells, pos, from), cells, size, 0, 0);
    var n := PageEnd(feed, cells, size, 0, 0);
    assert k in feed;
    if n < |feed| { FeedPrefix(feed, pos, n, k); }
  }

  lemma PageBounds(cells: map<Key, Cell>, pos: map<Key, nat>, size: (Key, Cell) -> nat, from: int)
    requires cells.Keys == pos.Keys
    ensures var page := PageOf(cells, pos, size, from);
      && page.next <= Highest(pos) && (0 <= from ==> 0 <= page.next)
      && (from <= Highest(pos) ==> from <= page.next)
      && |page.keys| <= MAX_RESPONSE_CELLS
      && (page.more ==> page.next > from)
  {
    var rows := Fetched(cells, pos, from);
    var n := PageEnd(rows, cells, size, 0, 0);
    if 0 < n { assert rows[n - 1] in rows; }
  }

  // --- Leases ----------------------------------------------------------

  datatype Lease = Lease(top: int, token: string, epoch: string)

  /** The tenant's table (cells, numbers, clock; it keeps no reference-style issued
      cursors), its cursor leases, and the server's data epoch. */
  datatype Tenant = Tenant(core: State, leases: map<string, Lease>, epoch: string)

  ghost predicate Sane(s: Tenant) {
    Valid(s.core) && s.core.issued == map[]
  }

  function LeaseOf(s: Tenant, device: string): Option<Lease> {
    if device in s.leases then Some(s.leases[device]) else None
  }

  /** A non-zero cursor needs an unexpired lease that covers it; from protocol 4
      on also the lease's token and the epoch of both lease and server. */
  predicate Admitted(lease: Option<Lease>, top: nat, p: SyncPayload, epoch: string) {
    p.cursor == 0 ||
    (lease.Some? && p.cursor <= top && p.cursor <= lease.value.top &&
     (p.protocol < 4 ||
      (p.token == Some(lease.value.token) && p.epoch == Some(lease.value.epoch) && lease.value.epoch == epoch)))
  }

  /** The upserted lease: the cursor bound never falls, and the token survives within an epoch. */
  function Renewed(lease: Option<Lease>, next: int, epoch: string, uuid: string): Lease {
    match lease
    case None => Lease(next, uuid, epoch)
    case Some(l) => Lease(Max(l.top, next), if l.epoch == epoch then l.token else uuid, epoch)
  }

  datatype Answered = Answered(tenant: Tenant, response: SyncPayload)

  ghost function AnswerTo(s: Tenant, b: Acc, lamport: nat, p: SyncPayload, device: string,
                          epoch: string, uuid: string, env: Env): Answered {
    var ok := Admitted(LeaseOf(s, device), Highest(b.cellSeq), p, epoch);
    var page := PageOf(b.cells, b.cellSeq, env.size, if ok then p.cursor else 0);
    var lease := Renewed(LeaseOf(s, device), page.next, epoch, uuid);
    Answered(
      Tenant(State(lamport, b.cells, b.seqNo, b.cellSeq, map[]), s.leases[device := lease], s.epoch),
      SyncPayload(p.protocol, env.schema.fingerprint, SERVER_DEVICE, lamport,
                  GroupRows(Restrict(b.cells, page.keys)), page.next, page.more,
                  p.cursor != 0 && !ok, Some(lease.token), Some(epoch), b.rejections))
  }

  ghost function Answer(s: Tenant, r: Result<Acc>, observed: nat, p: SyncPayload, device: string,
                        epoch: string, uuid: string, env: Env): Result<Answered> {
    if r.Err? || Max(s.core.lamport, observed) + 1 > I64_MAX then Err
    else Ok(AnswerTo(s, r.value, Max(s.core.lamport, observed) + 1, p, device, epoch, uuid, env))
  }

  /** The merge transaction. `epoch` is the server epoch it read, `uuid` what a new lease takes as token. */
  ghost function MergeTenant(s: Tenant, p: SyncPayload, device: string, sec: Security,
                             next: Draw, epoch: string, uuid: string, env: Env): Result<Answered> {
    if !ValidRequest(p, device, env.schema) || !ClockAdvanceOk(s.core.lamport, MaxObserved(p)) then Err
    else
      Answer(s, AbsorbRows(Start(s.core), RulingOf(sec, device), Writes(p.changes), next),
             MaxObserved(p), p, device, epoch, uuid, env)
  }

  /** Expiry removes the leases of inactive devices. */
  function ExpireLeases(s: Tenant, inactive: set<string>): Tenant {
    s.(leases := s.leases - inactive)
  }

  /** Rotation installs a new epoch and removes every lease. */
  function RotateEpoch(s: Tenant, epoch: string): Tenant {
    s.(epoch := epoch, leases := map[])
  }

  // --- Facts -----------------------------------------------------------

  lemma RowsFacts(s: State, who: Ruling, changes: seq<RowChange>, next: Draw) returns (b: Acc)
    requires Valid(s) && Increasing(next) && DistinctRows(changes) && AbsorbRows(Start(s), who, Writes(changes), next).Ok?
    ensures AbsorbRows(Start(s), who, Writes(changes), next) == Ok(b)
    ensures Joined(Start(s), who, CellsOf(changes), b)
    ensures Indexed(b.cells, b.seqNo, b.cellSeq) && s.seqNo <= b.seqNo
  {
    WritesDistinct(changes);
    b := AbsorbRows(Start(s), who, Writes(changes), next).value;
    AbsorbRowsJoin(Start(s), who, Writes(changes), next);
  }

  lemma TenantUnfolds(s: Tenant, p: SyncPayload, device: string, sec: Security, next: Draw, epoch: string, uuid: string, env: Env, b: Acc)
    requires MergeTenant(s, p, device, sec, next, epoch, uuid, env).Ok?
    requires AbsorbRows(Start(s.core), RulingOf(sec, device), Writes(p.changes), next) == Ok(b)
    ensures MergeTenant(s, p, device, sec, next, epoch, uuid, env).value ==
      AnswerTo(s, b, Max(s.core.lamport, MaxObserved(p)) + 1, p, device, epoch, uuid, env)
  {
  }

  lemma TenantAdmitted(s: Tenant, p: SyncPayload, device: string, sec: Security, next: Draw, epoch: string, uuid: string, env: Env)
    requires MergeTenant(s, p, device, sec, next, epoch, uuid, env).Ok?
    ensures ValidRequest(p, device, env.schema) && DistinctRows(p.changes)
    ensures AbsorbRows(Start(s.core), RulingOf(sec, device), Writes(p.changes), next).Ok?
  {
  }

  lemma TenantParts(s: Tenant, p: SyncPayload, device: string, sec: Security, next: Draw, epoch: string, uuid: string, env: Env)
    returns (b: Acc, m: map<Key, Cell>)
    requires Sane(s) && Increasing(next) && MergeTenant(s, p, device, sec, next, epoch, uuid, env).Ok?
    ensures ValidRequest(p, device, env.schema) && m == CellsOf(p.changes)
    ensures AbsorbRows(Start(s.core), RulingOf(sec, device), Writes(p.changes), next) == Ok(b)
    ensures Joined(Start(s.core), RulingOf(sec, device), m, b)
    ensures Indexed(b.cells, b.seqNo, b.cellSeq) && s.core.seqNo <= b.seqNo
    ensures MergeTenant(s, p, device, sec, next, epoch, uuid, env).value ==
      AnswerTo(s, b, Max(s.core.lamport, p.lamport) + 1, p, device, epoch, uuid, env)
  {
    m := CellsOf(p.changes);
    TenantAdmitted(s, p, device, sec, next, epoch, uuid, env);
    b := RowsFacts(s.core, RulingOf(sec, device), p.changes, next);
    MaxObservedIsSource(p);
    TenantUnfolds(s, p, device, sec, next, epoch, uuid, env, b);
  }

  /** A merge only adds newer cells, each numbered after everything before. */
  lemma TenantGrows(s: Tenant, p: SyncPayload, device: string, sec: Security, next: Draw, epoch: string, uuid: string, env: Env)
    requires Sane(s) && Increasing(next) && MergeTenant(s, p, device, sec, next, epoch, uuid, env).Ok?
    ensures var t := MergeTenant(s, p, device, sec, next, epoch, uuid, env).value.tenant;
      Sane(t) && Grows(s.core, t.core)
  {
    var b, m := TenantParts(s, p, device, sec, next, epoch, uuid, env);
    RulingSound(sec, device);
    JoinGrows(s.core, RulingOf(sec, device), m, b);
    JoinedGrows(s.core, RulingOf(sec, device), m, b, Max(s.core.lamport, p.lamport) + 1, map[]);
  }

  /** Where the page of this answer starts. */
  function PageStart(p: SyncPayload, r: SyncPayload): int {
    if r.cursorReset then 0 else p.cursor
  }

  /** The answered cells are the server's, and include every one numbered between
      the page's start and its cursor. */
  lemma TenantPage(s: Tenant, p: SyncPayload, device: string, sec: Security, next: Draw, epoch: string, uuid: string, env: Env, k: Key)
    requires Sane(s) && Increasing(next) && MergeTenant(s, p, device, sec, next, epoch, uuid, env).Ok?
    ensures var Answered(t, r) := MergeTenant(s, p, device, sec, next, epoch, uuid, env).value;
      DistinctRows(r.changes) && PageCarries(t.core, PageStart(p, r), r, k)
  {
    var b, m := TenantParts(s, p, device, sec, next, epoch, uuid, env);
    var a := AnswerTo(s, b, Max(s.core.lamport, p.lamport) + 1, p, device, epoch, uuid, env);
    StreamedCarries(a.tenant.core, env.size, PageStart(p, a.response), a.response, k);
  }

  ghost predicate PageCarries(core: State, from: int, r: SyncPayload, k: Key) {
    && (k in CellsOf(r.changes) ==> k in core.cells && CellsOf(r.changes)[k] == core.cells[k])
    && (k in core.cells && k in core.cellSeq && from < core.cellSeq[k] <= r.cursor ==> k in CellsOf(r.changes))
  }

  lemma StreamedCarries(core: State, size: (Key, Cell) -> nat, from: int, r: SyncPayload, k: Key)
    requires Indexed(core.cells, core.seqNo, core.cellSeq)
    requires r.changes == GroupRows(Restrict(core.cells, PageOf(core.cells, core.cellSeq, size, from).keys))
    requires r.cursor == PageOf(core.cells, core.cellSeq, size, from).next
    ensures DistinctRows(r.changes) && PageCarries(core, from, r, k)
  {
    GroupRowsRoundTrip(Restrict(core.cells, PageOf(core.cells, core.cellSeq, size, from).keys));
    if k in core.cells && from < core.cellSeq[k] <= r.cursor {
      PageComplete(core.cells, core.cellSeq, size, from, k);
    }
  }

  /** The cursor check, the epoch stamp and the lease kept for this device. */
  lemma TenantLease(s: Tenant, p: SyncPayload, device: string, sec: Security, next: Draw, epoch: string, uuid: string, env: Env)
    requires Sane(s) && Increasing(next) && MergeTenant(s, p, device, sec, next, epoch, uuid, env).Ok?
    ensures var Answered(t, r) := MergeTenant(s, p, device, sec, next, epoch, uuid, env).value;
      && (r.cursorReset <==> !Admitted(LeaseOf(s, device), Highest(t.core.cellSeq), p, epoch))
      && t.epoch == s.epoch && r.epoch == Some(epoch)
      && t.leases == s.leases[device := Renewed(LeaseOf(s, device), r.cursor, epoch, uuid)]
      && r.token == Some(t.leases[device].token)
      && 0 <= r.cursor <= Highest(t.core.cellSeq) <= t.core.seqNo
  {
    var b, m := TenantParts(s, p, device, sec, next, epoch, uuid, env);
    var Answered(t, r) := MergeTenant(s, p, device, sec, next, epoch, uuid, env).value;
    PageBounds(b.cells, b.cellSeq, env.size, PageStart(p, r));
  }

  /** Whatever it sends next, a non-zero cursor of this device is refused. */
  ghost predicate Refuses(s: Tenant, device: string) {
    forall p: SyncPayload, sec: Security, next: Draw, epoch: string, uuid: string, env: Env ::
      p.cursor != 0 && Increasing(next) && MergeTenant(s, p, device, sec, next, epoch, uuid, env).Ok? ==>
        MergeTenant(s, p, device, sec, next, epoch, uuid, env).value.response.cursorReset
  }

  lemma UnleasedRefused(s: Tenant, device: string)
    requires Sane(s) && device !in s.leases
    ensures Refuses(s, device)
  {
    forall p: SyncPayload, sec: Security, next: Draw, epoch: string, uuid: string, env: Env |
      p.cursor != 0 && Increasing(next) && MergeTenant(s, p, device, sec, next, epoch, uuid, env).Ok?
      ensures MergeTenant(s, p, device, sec, next, epoch, uuid, env).value.response.cursorReset
    {
      TenantLease(s, p, device, sec, next, epoch, uuid, env);
    }
  }
}
