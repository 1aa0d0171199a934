/** The SQLite client: its tables as maps, each transaction as one function. */
module Client {
  import opened Names
  import opened Cells
  import opened Payload
  import opened Server
  import opened ServerFacts
  import opened Replica

  datatype Entry = Entry(cell: Cell, dirty: bool)
  datatype Scope = Scope(version: nat, active: bool)
  datatype Member = Member(scope: string, row: string)

  datatype Client = Client(
    device: string,
    clock: nat,
    rows: set<string>,
    app: map<Key, Value>,
    log: map<Key, Entry>,
    cursor: int,
    token: Option<string>,
    epoch: Option<string>,
    scopes: map<string, Scope>,
    members: set<Member>,
    evictions: set<Member>)

  function Fresh(device: string): Client {
    Client(device, 0, {}, map[], map[], 0, None, None, map[], {}, {})
  }

  /** The stored cells, dirty or not. */
  ghost function Held(c: Client): map<Key, Cell> {
    map k | k in c.log :: c.log[k].cell
  }

  ghost function DirtyCells(c: Client): map<Key, Cell> {
    map k | k in c.log && c.log[k].dirty :: c.log[k].cell
  }

  function Grid(rows: set<string>, columns: set<string>): set<Key> {
    set r, c | r in rows && c in columns :: Key(r, c)
  }

  // --- Local writes ----------------------------------------------------

  datatype LocalOp =
    | Insert(row: string, values: map<string, Value>)
    | Set(row: string, column: string, value: Value)
    | Overwrite(row: string, column: string, value: Value)
    | Delete(row: string)
    | Restore(row: string)

  ghost predicate IsLive(c: Client, row: string) {
    row in c.rows && Key(row, LIVENESS) in c.app && c.app[Key(row, LIVENESS)] == Boolean(false)
  }

  ghost predicate IsTombstone(c: Client, row: string) {
    row in c.rows && Key(row, LIVENESS) in c.app && c.app[Key(row, LIVENESS)] == Boolean(true)
  }

  ghost predicate ValidValues(t: Schema, values: map<string, Value>) {
    forall col :: col in values ==> col != LIVENESS && ValidColumn(t, col, values[col])
  }

  ghost function RowValue(t: Schema, values: map<string, Value>, column: string): Value
    requires column in t.types
  {
    if column in values then values[column] else DefaultValue(t.types[column])
  }

  ghost function Stamped(vs: map<Key, Value>, v: Version): map<Key, Entry> {
    map k | k in vs :: Entry(Cell(vs[k], v), true)
  }

  /** The capture triggers: one clock tick, every given column logged dirty at that clock. */
  ghost function Capture(c: Client, vs: map<Key, Value>): Client {
    c.(clock := c.clock + 1,
       app := c.app + vs,
       log := c.log + Stamped(vs, Version(c.clock + 1, c.device)))
  }

  /** The update trigger fires only when the value changes, and aborts on clock overflow. */
  ghost function Assign(c: Client, key: Key, value: Value): Result<Client> {
    if key in c.app && c.app[key] == value then Ok(c)
    else if c.clock >= I64_MAX then Err
    else Ok(Capture(c, map[key := value]))
  }

  ghost function Apply(c: Client, op: LocalOp, t: Schema): Result<Client> {
    match op
    case Insert(row, values) =>
      if !ValidIdentifier(row) || !ValidValues(t, values) || row in c.rows || c.clock >= I64_MAX then Err
      else
        var vs := map k | k in Grid({row}, t.types.Keys) :: RowValue(t, values, k.column);
        Ok(Capture(c.(rows := c.rows + {row}), vs))
    case Set(row, column, value) =>
      if !ValidIdentifier(row) || column == LIVENESS || !ValidColumn(t, column, value) || !IsLive(c, row) then Err
      else Assign(c, Key(row, column), value)
    case Overwrite(row, column, value) =>
      if !ValidIdentifier(row) || column == LIVENESS || !ValidColumn(t, column, value) || row !in c.rows then Err
      else Assign(c, Key(row, column), value)
    case Delete(row) =>
      if !ValidIdentifier(row) || !IsLive(c, row) then Err
      else Assign(c, Key(row, LIVENESS), Boolean(true))
    case Restore(row) =>
      if !ValidIdentifier(row) || !IsTombstone(c, row) then Err
      else Assign(c, Key(row, LIVENESS), Boolean(false))
  }

  // --- Full synchronization -------------------------------------------

  ghost function DeltaOf(c: Client, t: Schema): SyncPayload {
    SyncPayload(PROTOCOL, t.fingerprint, c.device, c.clock, GroupRows(DirtyCells(c)),
                c.cursor, false, false, c.token, c.epoch, [])
  }

  ghost function LocalDelta(c: Client, t: Schema): Result<SyncPayload> {
    if ValidRequest(DeltaOf(c, t), c.device, t) then Ok(DeltaOf(c, t)) else Err
  }

  /** Acknowledgement is exact: only a cell still stored at the sent, unrejected version becomes clean. */
  ghost predicate Acknowledges(sent: map<Key, Cell>, rs: seq<Rejection>, k: Key, e: Entry) {
    k in sent && sent[k].version == e.cell.version && !RejectedVersion(rs, k, e.cell.version)
  }

  ghost function Acknowledge(c: Client, sent: map<Key, Cell>, rs: seq<Rejection>): Client {
    c.(log := map k | k in c.log ::
         if Acknowledges(sent, rs, k, c.log[k]) then c.log[k].(dirty := false) else c.log[k])
  }

  ghost predicate HeldByScope(c: Client, row: string) {
    exists m :: m in c.members && m.row == row
  }

  ghost predicate HasDirty(c: Client, row: string) {
    exists k :: k in c.log && k.row == row && c.log[k].dirty
  }

  ghost predicate Marked(c: Client, row: string) {
    exists m :: m in c.evictions && m.row == row
  }

  /** Rows whose pending eviction can be carried out now. */
  ghost predicate Evictable(c: Client, row: string) {
    Marked(c, row) && !HeldByScope(c, row) && !HasDirty(c, row)
  }

  /** Pending evictions: drop markers of rows some scope holds, remove unreferenced
      clean rows with their log, keep the markers of rows with unsent writes. */
  ghost function Cleanup(c: Client): Client {
    c.(rows := (set r | r in c.rows && !Evictable(c, r)),
       app := (map k | k in c.app && !Evictable(c, k.row) :: c.app[k]),
       log := (map k | k in c.log && !Evictable(c, k.row) :: c.log[k]),
       evictions := (set m | m in c.evictions && !HeldByScope(c, m.row) && HasDirty(c, m.row)))
  }

  ghost function AcknowledgeResponse(c: Client, sent: SyncPayload, resp: SyncPayload, t: Schema): Result<Client> {
    if !ValidResponse(resp, t) || !ValidRequest(sent, c.device, t) then Err
    else Ok(Cleanup(Acknowledge(c, CellsOf(sent.changes), resp.rejections)))
  }

  ghost predicate Wins(log: map<Key, Entry>, k: Key, incoming: Cell) {
    k !in log || Older(log[k].cell.version, incoming.version)
  }

  ghost predicate Conflicts(log: map<Key, Entry>, k: Key, incoming: Cell) {
    k in log && log[k].cell.version == incoming.version && log[k].cell.value != incoming.value
  }

  /** The stored log and table after remote cells `m` on rows `ids`. */
  ghost function Absorbed(c: Client, m: map<Key, Cell>, ids: set<string>, t: Schema): Client {
    c.(rows := c.rows + ids,
       app := map k | k in c.app.Keys + Grid(ids, t.types.Keys) ::
         if k in m && Wins(c.log, k, m[k]) then m[k].value
         else if k in c.app then c.app[k]
         else if k.column in t.types then DefaultValue(t.types[k.column]) else Null,
       log := map k | k in c.log.Keys + m.Keys ::
         if k in m && Wins(c.log, k, m[k]) then Entry(m[k], false) else if k in c.log then c.log[k] else Entry(m[k], false))
  }

  /** No stored cell has the version of an incoming one with another value. */
  ghost predicate NoConflicts(c: Client, m: map<Key, Cell>) {
    forall k :: k in m ==> !Conflicts(c.log, k, m[k])
  }

  /** A response is applied when it is valid, contradicts no stored version, and the clock can advance. */
  ghost predicate Applicable(c: Client, p: SyncPayload, t: Schema) {
    ValidResponse(p, t) && NoConflicts(c, CellsOf(p.changes)) && Max(c.clock, MaxObserved(p)) + 1 <= I64_MAX
  }

  ghost function AppliedTo(c: Client, p: SyncPayload, t: Schema): Client {
    Advance(Absorbed(c, CellsOf(p.changes), RowSet(p.changes), t), Max(c.clock, MaxObserved(p)) + 1, p)
  }

  ghost function ApplyRemote(c: Client, p: SyncPayload, t: Schema): Result<Client> {
    if Applicable(c, p, t) then Ok(AppliedTo(c, p, t)) else Err
  }

  /** The device clock and the feed cursor after a response. */
  function Advance(c: Client, clock: nat, p: SyncPayload): Client {
    c.(clock := clock,
       cursor := if p.cursorReset then p.cursor else Max(c.cursor, p.cursor),
       token := p.token,
       epoch := p.epoch)
  }

  ghost function CompleteSync(c: Client, sent: SyncPayload, resp: SyncPayload, t: Schema): Result<Client> {
    match AcknowledgeResponse(c, sent, resp, t)
    case Err => Err
    case Ok(a) => ApplyRemote(a, resp, t)
  }

  function ResetCursor(c: Client): Client {
    c.(cursor := 0, token := None, epoch := None)
  }

  // --- Catching up -----------------------------------------------------

  const MAX_SYNC_PAGES: nat := 100

  /** Local operations in turn; one that fails changes nothing. */
  ghost function Written(c: Client, ops: seq<LocalOp>, t: Schema): Client {
    if ops == [] then c
    else
      var d := Written(c, ops[..|ops| - 1], t);
      match Apply(d, ops[|ops| - 1], t)
      case Err => d
      case Ok(e) => e
  }

  /** What the transport returns for each page of one catch-up, and what other callers write while it is under way. */
  type Transport = nat -> Result<SyncPayload>
  type Meanwhile = nat -> seq<LocalOp>

  datatype CaughtUp = CaughtUp(client: Client, result: Result<SyncPayload>)
  datatype PageOutcome = Stop(end: CaughtUp) | Continue(client: Client)

  /** One page: delta, transport, completion. */
  ghost function SyncPage(c: Client, page: nat, transport: Transport, meanwhile: Meanwhile, t: Schema): PageOutcome {
    match LocalDelta(c, t)
    case Err => Stop(CaughtUp(c, Err))
    case Ok(p) =>
      var d := Written(c, meanwhile(page), t);
      match transport(page)
      case Err => Stop(CaughtUp(d, Err))
      case Ok(r) =>
        match CompleteSync(d, p, r, t)
        case Err => Stop(CaughtUp(d, Err))
        case Ok(e) => if r.hasMore then Continue(e) else Stop(CaughtUp(e, Ok(r)))
  }

  type Pager = (Client, nat) -> PageOutcome

  ghost function Paging(transport: Transport, meanwhile: Meanwhile, t: Schema): Pager {
    (c: Client, page: nat) => SyncPage(c, page, transport, meanwhile, t)
  }

  /** Pages one after the other, from `page` on; running out of pages is an error. */
  ghost function CatchUp(c: Client, page: nat, pager: Pager): CaughtUp
    decreases MAX_SYNC_PAGES - page
  {
    if page >= MAX_SYNC_PAGES then CaughtUp(c, Err)
    else
      match pager(c, page)
      case Stop(end) => end
      case Continue(d) => CatchUp(d, page + 1, pager)
  }

  // --- Partial replicas ------------------------------------------------

  ghost function ScopeRows(c: Client, scope: string): set<string> {
    set m | m in c.members && m.scope == scope :: m.row
  }

  function ScopeVersion(c: Client, scope: string): nat {
    if scope in c.scopes then c.scopes[scope].version else 0
  }

  datatype Requested = Requested(client: Client, request: PartialRequest)

  ghost function PartialRequestOf(c: Client, scope: string, interest: Interest, t: Schema): Result<Requested> {
    var version := ScopeVersion(c, scope) + 1;
    var request := PartialRequest(scope, version, interest, SortedSeq(ScopeRows(c, scope)), DeltaOf(c, t));
    if version > I64_MAX || !ValidPartialRequest(request, c.device, t) then Err
    else Ok(Requested(c.(scopes := c.scopes[scope := Scope(version, true)]), request))
  }

  /** Membership of one scope replaced; rows it lost are marked for eviction. */
  ghost function Rescope(c: Client, scope: string, rows: set<string>, lost: set<string>): Client {
    c.(members := (set m | m in c.members && m.scope != scope) + (set r | r in rows :: Member(scope, r)),
       evictions := (set m | m in c.evictions && !(m.scope == scope && m.row in rows)) + (set r | r in lost :: Member(scope, r)))
  }

  ghost function CompletePartial(c: Client, sent: PartialRequest, resp: PartialResponse, t: Schema): Result<Client> {
    if || !ValidPartialRequest(sent, c.device, t) || !ValidPartialResponse(resp, t)
       || sent.scope != resp.scope || sent.version != resp.version
       || sent.scope !in c.scopes || c.scopes[sent.scope] != Scope(sent.version, true)
       || Dropped(sent.known, resp.members) != resp.evicted
    then Err
    else
      match CompleteSync(c, sent.sync, resp.sync, t)
      case Err => Err
      case Ok(a) => Ok(Cleanup(Rescope(a, sent.scope, Elements(resp.members), Elements(resp.evicted))))
  }

  ghost function RemoveScope(c: Client, scope: string): Result<Client> {
    var version := ScopeVersion(c, scope) + 1;
    if !ValidIdentifier(scope) || version > I64_MAX then Err
    else
      Ok(Cleanup(Rescope(c, scope, {}, ScopeRows(c, scope)).(scopes := c.scopes[scope := Scope(version, false)])))
  }

  // --- Client invariant ------------------------------------------------

  ghost predicate SoundEntry(c: Client, t: Schema, k: Key) {
    k in c.log ==>
      && k.row in c.rows
      && ValidCell(t, k, c.log[k].cell)
      && c.log[k].cell.version.clock <= c.clock
      && (c.log[k].dirty ==> c.log[k].cell.version.device == c.device)
  }

  /** The value an application column must show: its logged cell, else its default. */
  ghost predicate Materialised(c: Client, t: Schema, k: Key) {
    k in c.app ==>
      k.column in t.types &&
      c.app[k] == if k in c.log then c.log[k].cell.value else DefaultValue(t.types[k.column])
  }

  ghost predicate SoundScopes(c: Client) {
    && (forall m :: m in c.members ==> m.row in c.rows && m.scope in c.scopes)
    && (forall m, e :: m in c.members && e in c.evictions ==> m.row != e.row)
    && (forall e :: e in c.evictions ==> e.scope in c.scopes)
    && (forall s :: s in c.scopes ==> ValidScopeVersion(c.scopes[s].version))
  }

  ghost predicate RowLogged(log: map<Key, Entry>, row: string) {
    exists k :: k in log && k.row == row
  }

  ghost predicate Sound(c: Client, t: Schema) {
    && ValidIdentifier(c.device) && c.device != SERVER_DEVICE
    && c.clock <= I64_MAX
    && 0 <= c.cursor && OptionalIdentifier(c.token) && OptionalIdentifier(c.epoch)
    && (forall r :: r in c.rows ==> ValidIdentifier(r) && RowLogged(c.log, r))
    && (forall k :: SoundEntry(c, t, k))
    && (forall k :: k in c.app <==> k.row in c.rows && k.column in t.types)
    && (forall k :: Materialised(c, t, k))
    && SoundScopes(c)
  }
}
