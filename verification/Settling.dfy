/** Catching up: a device that syncs page after page, while nobody else writes to the server, ends
    equal to the server within as many pages as the feed after its cursor has. */
module Settling {
  import opened Names
  import opened Cells
  import opened Payload
  import opened Server
  import opened ServerFacts
  import opened Client
  import opened ClientFacts
  import opened Conservation
  import opened System
  import opened SystemProofs
  import opened Theorems
  import opened Closure
  import opened Pagination

  // --- One round -------------------------------------------------------

  datatype Pair = Pair(client: Client, server: State)
  datatype Round = Round(after: Pair, response: SyncPayload)

  /** Delta, merge and completion. */
  ghost function RoundOf(x: Pair, sec: Security, env: Env): Result<Round> {
    match LocalDelta(x.client, env.schema)
    case Err => Err
    case Ok(p) =>
      match Merge(x.server, p, x.client.device, sec, env)
      case Err => Err
      case Ok(m) =>
        match CompleteSync(x.client, p, m.response, env.schema)
        case Err => Err
        case Ok(d) => Ok(Round(Pair(d, m.state), m.response))
  }

  /** The device holds the feed up to its cursor, and no pending eviction will take that back;
      at cursor zero both are immaterial. */
  ghost predicate Follows(c: Client, s: State) {
    c.cursor == 0 || (Covers(c, s, c.cursor) && c.evictions == {})
  }

  ghost predicate InOrder(x: Pair, h: History, t: Schema) {
    ServerOk(x.server, h, t) && DeviceOk(x.client, x.server, h, t) && Follows(x.client, x.server)
  }

  /** Clean and in order. */
  ghost predicate Ready(x: Pair, h: History, t: Schema) {
    InOrder(x, h, t) && DirtyCells(x.client) == map[] && x.server.seqNo <= I64_MAX
  }

  /** The round stands at its page's cursor. */
  ghost predicate AtPage(x: Pair, y: Round, env: Env) {
    Valid(y.after.server) &&
    var page := PageAt(y.after.server, x.client.cursor, env);
    && y.after.client.cursor == page.next && y.response.hasMore == page.more
    && y.after.client.clock == y.after.server.lamport + 1 == Max(x.client.clock, x.server.lamport) + 2
  }

  lemma IssuedCapped(s: State, d: string)
    requires Valid(s)
    ensures Issued(s, d) <= Cap(s.seqNo)
  {
  }

  /** A request at an issued cursor is answered with the page there of the merged server. */
  lemma AnsweredPage(s: State, p: SyncPayload, d: string, sec: Security, env: Env)
    requires Valid(s) && Merge(s, p, d, sec, env).Ok? && 0 <= p.cursor <= Issued(s, d)
    ensures var Merged(t, r) := Merge(s, p, d, sec, env).value;
      && Valid(t) && t.lamport == r.lamport == Max(s.lamport, p.lamport) + 1
      && r.cursor == PageAt(t, p.cursor, env).next && r.hasMore == PageAt(t, p.cursor, env).more && p.cursor <= r.cursor
  {
    var b, m := MergeParts(s, p, d, sec, env);
    MergeGrows(s, p, d, sec, env);
    IssuedCapped(s, d);
    PageCursor(b.cells, b.seqNo, b.cellSeq, p.cursor, env);
  }

  /** A round whose merge rejects nothing leaves the device clean and at the page's cursor. */
  lemma UnrejectedRound(x: Pair, m: Merged, h: History, sec: Security, env: Env) returns (y: Round)
    requires InOrder(x, h, env.schema) && LocalDelta(x.client, env.schema).Ok?
    requires Merge(x.server, DeltaOf(x.client, env.schema), x.client.device, sec, env) == Ok(m)
    requires m.response.rejections == [] && m.state.seqNo <= I64_MAX
    requires Max(x.client.clock, x.server.lamport) + 2 <= I64_MAX
    ensures RoundOf(x, sec, env) == Ok(y) && y == Round(Pair(y.after.client, m.state), m.response)
    ensures Ready(y.after, h, env.schema) && AtPage(x, y, env)
  {
    var p := DeltaOf(x.client, env.schema);
    ServedInOrder(x, m, h, sec, env);
    AnsweredPage(x.server, p, x.client.device, sec, env);
    DeltaAllSent(x.client, env.schema);
    var d := DeliveredRound(x, p, m, h, env);
    y := Round(Pair(d, m.state), m.response);
    RoundIs(x, m, d, sec, env);
  }

  lemma DeliveredRound(x: Pair, p: SyncPayload, m: Merged, h: History, env: Env) returns (d: Client)
    requires InOrder(Pair(x.client, m.state), h, env.schema) && p.cursor == x.client.cursor
    requires ExchangeOk(FullExchange(p, m.response), x.client, m.state, h, env.schema) && AllSent(x.client, p)
    requires m.response.rejections == [] && Max(x.client.clock, x.server.lamport) + 2 <= I64_MAX
    requires m.state.lamport == m.response.lamport == Max(x.server.lamport, x.client.clock) + 1
    requires m.response.cursor == PageAt(m.state, x.client.cursor, env).next && x.client.cursor <= m.response.cursor
    requires m.response.hasMore == PageAt(m.state, x.client.cursor, env).more
    ensures CompleteSync(x.client, p, m.response, env.schema) == Ok(d)
    ensures InOrder(Pair(d, m.state), h, env.schema) && DirtyCells(d) == map[]
    ensures AtPage(x, Round(Pair(d, m.state), m.response), env)
  {
    d := Completion(x.client, p, m.response, m.state, h, env.schema);
  }

  lemma RoundIs(x: Pair, m: Merged, d: Client, sec: Security, env: Env)
    requires LocalDelta(x.client, env.schema).Ok?
    requires Merge(x.server, DeltaOf(x.client, env.schema), x.client.device, sec, env) == Ok(m)
    requires CompleteSync(x.client, DeltaOf(x.client, env.schema), m.response, env.schema) == Ok(d)
    ensures RoundOf(x, sec, env) == Ok(Round(Pair(d, m.state), m.response))
  {
  }

  lemma ServedInOrder(x: Pair, m: Merged, h: History, sec: Security, env: Env)
    requires InOrder(x, h, env.schema) && LocalDelta(x.client, env.schema).Ok?
    requires Merge(x.server, DeltaOf(x.client, env.schema), x.client.device, sec, env) == Ok(m)
    ensures InOrder(Pair(x.client, m.state), h, env.schema)
    ensures ExchangeOk(FullExchange(DeltaOf(x.client, env.schema), m.response), x.client, m.state, h, env.schema)
    ensures x.client.cursor <= Issued(x.server, x.client.device)
  {
    var c, p := x.client, DeltaOf(x.client, env.schema);
    ServerIdentifier();
    DeltaSent(c, c, x.server, h, env.schema);
    ServeFull(x.server, p, c, sec, env, h);
    DeviceServer(c, x.server, m.state, h, env.schema);
    FollowsServer(c, x.server, m.state);
  }

  lemma FollowsServer(c: Client, s: State, t: State)
    requires Follows(c, s) && Valid(s) && Grows(s, t) && c.cursor <= Issued(s, c.device)
    ensures Follows(c, t)
  {
    IssuedBound(s, c.device);
    if c.cursor != 0 { CoversServer(c, s, t, c.cursor); }
  }

  lemma DeltaAllSent(c: Client, t: Schema)
    requires Sound(c, t)
    ensures AllSent(c, DeltaOf(c, t))
  {
    DeltaValid(c, t);
  }

  lemma Completion(c: Client, p: SyncPayload, r: SyncPayload, s: State, h: History, t: Schema) returns (d: Client)
    requires AllSent(c, p) && r.rejections == [] && p.cursor == c.cursor <= r.cursor
    requires InOrder(Pair(c, s), h, t) && ExchangeOk(FullExchange(p, r), c, s, h, t)
    requires c.clock < r.lamport < I64_MAX
    ensures CompleteSync(c, p, r, t) == Ok(d)
    ensures InOrder(Pair(d, s), h, t) && DirtyCells(d) == map[]
    ensures d.cursor == r.cursor && d.clock == r.lamport + 1
  {
    RoundSucceeds(c, p, r, s, h, t);
    d := CompleteSync(c, p, r, t).value;
    CompletedInOrder(c, p, r, s, h, t, d);
    CompletedCounters(c, p, r, t, d);
  }

  lemma CompletedInOrder(c: Client, p: SyncPayload, r: SyncPayload, s: State, h: History, t: Schema, d: Client)
    requires AllSent(c, p) && r.rejections == [] && p.cursor == c.cursor && CompleteSync(c, p, r, t) == Ok(d)
    requires InOrder(Pair(c, s), h, t) && ExchangeOk(FullExchange(p, r), c, s, h, t)
    ensures InOrder(Pair(d, s), h, t)
  {
    FullKeeps(c, FullExchange(p, r), s, h, t);
    RoundFollows(c, p, r, s, t);
  }

  lemma CompletedCounters(c: Client, p: SyncPayload, r: SyncPayload, t: Schema, d: Client)
    requires AllSent(c, p) && r.rejections == [] && !r.cursorReset && CompleteSync(c, p, r, t) == Ok(d)
    ensures DirtyCells(d) == map[] && d.cursor == Max(c.cursor, r.cursor) && d.clock == Max(c.clock, r.lamport) + 1
  {
    RoundClean(c, p, r, t);
    RoundAdvance(c, p, r, t);
    CompleteShape(c, p, r, t);
  }

  /** Completing an unrejecting answer to all it had pending keeps a device on the feed, and leaves no eviction pending. */
  lemma RoundFollows(c: Client, p: SyncPayload, r: SyncPayload, s: State, t: Schema)
    requires CompleteSync(c, p, r, t).Ok? && !r.cursorReset && AllSent(c, p) && r.rejections == []
    requires Follows(c, s) && p.cursor == c.cursor && Valid(s) && PageHolds(s, p.cursor, r.cursor, CellsOf(r.changes))
    ensures Follows(CompleteSync(c, p, r, t).value, s)
  {
    var b := Cleanup(Acknowledge(c, CellsOf(p.changes), r.rejections));
    CompleteShape(c, p, r, t);
    NothingMarked(c, p, r.rejections);
    if c.cursor == 0 {
      forall k ensures CoversAt(b, s, 0, k) {
      }
      CleanedCovers(c, p, r, s, t);
    } else {
      CompleteCovers(c, p, r, s, t);
    }
  }

  /** Once everything is clean a cleanup leaves no marker. */
  lemma NothingMarked(c: Client, p: SyncPayload, rs: seq<Rejection>)
    requires AllSent(c, p) && rs == []
    ensures Cleanup(Acknowledge(c, CellsOf(p.changes), rs)).evictions == {}
  {
    var a := Acknowledge(c, CellsOf(p.changes), rs);
    assert AllClean(a);
    forall r ensures !HasDirty(a, r) {
    }
  }

  // --- Further rounds --------------------------------------------------

  lemma EmptyDelta(c: Client, t: Schema)
    requires Sound(c, t) && DirtyCells(c) == map[]
    ensures DeltaOf(c, t).changes == [] && LocalDelta(c, t) == Ok(DeltaOf(c, t))
    ensures MaxObserved(DeltaOf(c, t)) == c.clock
  {
    assert RowIds(map[]) == {};
    DeltaValid(c, t);
    MaxObservedIsSource(DeltaOf(c, t));
  }

  /** A merge with nothing to write keeps cells and feed, and rejects nothing. */
  lemma EmptyMerge(x: Pair, h: History, sec: Security, env: Env) returns (m: Merged)
    requires Ready(x, h, env.schema)
    requires ClockAdvanceOk(x.server.lamport, x.client.clock) && Max(x.client.clock, x.server.lamport) < I64_MAX
    ensures LocalDelta(x.client, env.schema).Ok?
    ensures Merge(x.server, DeltaOf(x.client, env.schema), x.client.device, sec, env) == Ok(m)
    ensures m.response.rejections == []
    ensures m.state.cells == x.server.cells && m.state.seqNo == x.server.seqNo && m.state.cellSeq == x.server.cellSeq
  {
    var p := DeltaOf(x.client, env.schema);
    EmptyDelta(x.client, env.schema);
    assert Writes(p.changes) == [];
    MergeSucceeds(x.server, p, x.client.device, sec, env);
    var b, cells := MergeParts(x.server, p, x.client.device, sec, env);
    assert b == Start(x.server);
    m := Merge(x.server, p, x.client.device, sec, env).value;
  }

  /** Pages depend on cells and positions only. */
  lemma {:induction false} SamePages(s: State, t: State, cursor: int, env: Env)
    requires Valid(s) && Valid(t) && t.cells == s.cells && t.seqNo == s.seqNo && t.cellSeq == s.cellSeq
    ensures Pages(s, cursor, env) == Pages(t, cursor, env)
    decreases I64_MAX as int - cursor
  {
    assert PageAt(s, cursor, env) == PageAt(t, cursor, env);
    if PageAt(s, cursor, env).more {
      PageAdvances(s, cursor, env);
      PageCapped(s, cursor, env);
      SamePages(s, t, PageAt(s, cursor, env).next, env);
    }
  }

  lemma PagesUnfold(s: State, cursor: int, env: Env)
    requires Valid(s)
    ensures var page := PageAt(s, cursor, env);
      |Pages(s, cursor, env)| == if page.more then 1 + |Pages(s, page.next, env)| else 1
  {
    if PageAt(s, cursor, env).more {
      PageAdvances(s, cursor, env);
      PageCapped(s, cursor, env);
    }
  }

  // --- The loop --------------------------------------------------------

  type Rounds = Pair -> Result<Round>

  ghost function RoundsOf(sec: Security, env: Env): Rounds {
    (x: Pair) => RoundOf(x, sec, env)
  }

  /** The state after `n` rounds. */
  ghost function Nth(rounds: Rounds, x: Pair, n: nat): Result<Pair> {
    if n == 0 then Ok(x)
    else
      match Nth(rounds, x, n - 1)
      case Err => Err
      case Ok(y) =>
        match rounds(y)
        case Err => Err
        case Ok(r) => Ok(r.after)
  }

  /** A transport to a server that only this device writes to: what it answers in round `n`. */
  ghost function Quiet(rounds: Rounds, x: Pair): Transport {
    (n: nat) =>
      match Nth(rounds, x, n)
      case Err => Err
      case Ok(y) =>
        match rounds(y)
        case Err => Err
        case Ok(r) => Ok(r.response)
  }

  const NOTHING: Meanwhile := (n: nat) => []

  /** The catch-up of a device that nobody disturbs. */
  ghost function Undisturbed(x: Pair, sec: Security, env: Env): Pager {
    Paging(Quiet(RoundsOf(sec, env), x), NOTHING, env.schema)
  }

  /** Caught up: no error, nothing pending, and exactly the server's cells. */
  ghost predicate Settled(r: CaughtUp, cells: map<Key, Cell>) {
    r.result.Ok? && !r.result.value.hasMore && Held(r.client) == cells && DirtyCells(r.client) == map[]
  }

  /** A round as the loop sees it. */
  ghost function Seen(r: Round): PageOutcome {
    if r.response.hasMore then Continue(r.after.client) else Stop(CaughtUp(r.after.client, Ok(r.response)))
  }

  ghost predicate LinkedAt(pager: Pager, rounds: Rounds, x: Pair, page: nat) {
    Nth(rounds, x, page).Ok? && rounds(Nth(rounds, x, page).value).Ok? ==>
      pager(Nth(rounds, x, page).value.client, page) == Seen(rounds(Nth(rounds, x, page).value).value)
  }

  /** The loop sees exactly the rounds. */
  lemma UndisturbedLinked(x: Pair, page: nat, sec: Security, env: Env)
    ensures LinkedAt(Undisturbed(x, sec, env), RoundsOf(sec, env), x, page)
  {
    var y := Nth(RoundsOf(sec, env), x, page);
    if y.Ok? && RoundOf(y.value, sec, env).Ok? {
      var r := RoundOf(y.value, sec, env).value;
      assert Quiet(RoundsOf(sec, env), x)(page) == Ok(r.response);
      PageSeen(y.value, r, page, Quiet(RoundsOf(sec, env), x), sec, env);
    }
  }

  lemma PageSeen(y: Pair, r: Round, page: nat, transport: Transport, sec: Security, env: Env)
    requires RoundOf(y, sec, env) == Ok(r) && transport(page) == Ok(r.response)
    ensures SyncPage(y.client, page, transport, NOTHING, env.schema) == Seen(r)
  {
    assert NOTHING(page) == [];
    assert Written(y.client, NOTHING(page), env.schema) == y.client;
  }

  /** The device may settle within `n` further pages. */
  ghost predicate Within(x: Pair, n: nat, h: History, env: Env) {
    && Ready(x, h, env.schema) && ClockAdvanceOk(x.server.lamport, x.client.clock)
    && Max(x.client.clock, x.server.lamport) + 2 * n <= I64_MAX
    && |Pages(x.server, x.client.cursor, env)| <= n
  }

  /** The last page leaves the device with the server's cells. */
  lemma LastRound(x: Pair, y: Round, h: History, env: Env)
    requires Ready(y.after, h, env.schema) && AtPage(x, y, env) && !y.response.hasMore
    ensures Settled(CaughtUp(y.after.client, Ok(y.response)), y.after.server.cells)
  {
    CleanEquals(y.after.client, y.after.server, h, env.schema);
  }

  /** After a page that announced more, one page less is left. */
  lemma NextRound(x: Pair, y: Round, n: nat, h: History, env: Env)
    requires Ready(y.after, h, env.schema) && AtPage(x, y, env) && y.response.hasMore
    requires Max(x.client.clock, x.server.lamport) + 2 * n <= I64_MAX && 1 <= n
    requires |Pages(y.after.server, x.client.cursor, env)| <= n
    ensures Within(y.after, n - 1, h, env)
  {
    PagesUnfold(y.after.server, x.client.cursor, env);
  }

  /** What one round leads to: settled at the last page, else within reach with one page less. */
  ghost predicate Leads(r: Round, cells: map<Key, Cell>, n: nat, h: History, env: Env) {
    && r.after.server.cells == cells && 1 <= n
    && (if r.response.hasMore then Within(r.after, n - 1, h, env) else Done(r, cells, h, env.schema))
  }

  ghost predicate Done(r: Round, cells: map<Key, Cell>, h: History, t: Schema) {
    Settled(CaughtUp(r.after.client, Ok(r.response)), cells) && Ready(r.after, h, t)
  }

  ghost predicate WorksAt(rounds: Rounds, y: Pair, n: nat, h: History, env: Env) {
    Within(y, n, h, env) ==> rounds(y).Ok? && Leads(rounds(y).value, y.server.cells, n, h, env)
  }

  /** One round of a device that may settle. */
  lemma WithinRound(x: Pair, n: nat, h: History, sec: Security, env: Env)
    requires Within(x, n, h, env)
    ensures WorksAt(RoundsOf(sec, env), x, n, h, env)
  {
    PagesUnfold(x.server, x.client.cursor, env);
    var m := EmptyMerge(x, h, sec, env);
    var y := UnrejectedRound(x, m, h, sec, env);
    SamePages(x.server, y.after.server, x.client.cursor, env);
    RoundLeads(x, y, n, h, env);
  }

  lemma RoundLeads(x: Pair, y: Round, n: nat, h: History, env: Env)
    requires Ready(y.after, h, env.schema) && AtPage(x, y, env) && 1 <= n
    requires Max(x.client.clock, x.server.lamport) + 2 * n <= I64_MAX
    requires |Pages(y.after.server, x.client.cursor, env)| <= n
    ensures Leads(y, y.after.server.cells, n, h, env)
  {
    if y.response.hasMore { NextRound(x, y, n, h, env); } else { LastRound(x, y, h, env); }
  }

  lemma {:induction false} LoopSettles(pager: Pager, rounds: Rounds, x: Pair, page: nat, y: Pair, n: nat, h: History, env: Env)
    requires forall i :: LinkedAt(pager, rounds, x, i)
    requires forall z, i :: WorksAt(rounds, z, i, h, env)
    requires Nth(rounds, x, page) == Ok(y) && Within(y, n, h, env) && page + n <= MAX_SYNC_PAGES
    ensures Settled(CatchUp(y.client, page, pager), y.server.cells)
    decreases n, 1
  {
    var r := NextPage(pager, rounds, x, page, y, n, h, env);
    RestOfLoop(pager, rounds, x, page, y.client, r, n, h, env);
  }

  /** What follows a page. */
  lemma {:induction false} RestOfLoop(pager: Pager, rounds: Rounds, x: Pair, page: nat, c: Client, r: Round, n: nat, h: History, env: Env)
    requires forall i :: LinkedAt(pager, rounds, x, i)
    requires forall z, i :: WorksAt(rounds, z, i, h, env)
    requires pager(c, page) == Seen(r) && Nth(rounds, x, page + 1) == Ok(r.after)
    requires Leads(r, r.after.server.cells, n, h, env) && page + n <= MAX_SYNC_PAGES
    ensures Settled(CatchUp(c, page, pager), r.after.server.cells)
    decreases n, 0
  {
    LoopUnfolds(pager, c, page, r);
    if r.response.hasMore { LoopSettles(pager, rounds, x, page + 1, r.after, n - 1, h, env); }
  }

  /** The loop goes on from a page that announced more, and returns any other. */
  lemma LoopUnfolds(pager: Pager, c: Client, page: nat, r: Round)
    requires page < MAX_SYNC_PAGES && pager(c, page) == Seen(r)
    ensures CatchUp(c, page, pager) ==
      if r.response.hasMore then CatchUp(r.after.client, page + 1, pager) else CaughtUp(r.after.client, Ok(r.response))
  {
  }

  lemma NextPage(pager: Pager, rounds: Rounds, x: Pair, page: nat, y: Pair, n: nat, h: History, env: Env) returns (r: Round)
    requires LinkedAt(pager, rounds, x, page) && WorksAt(rounds, y, n, h, env)
    requires Nth(rounds, x, page) == Ok(y) && Within(y, n, h, env)
    ensures rounds(y) == Ok(r) && pager(y.client, page) == Seen(r) && Nth(rounds, x, page + 1) == Ok(r.after)
    ensures Leads(r, y.server.cells, n, h, env)
  {
    r := rounds(y).value;
  }

  lemma FirstSettles(pager: Pager, rounds: Rounds, x: Pair, r: Round, n: nat, h: History, env: Env)
    requires forall i :: LinkedAt(pager, rounds, x, i)
    requires forall z, i :: WorksAt(rounds, z, i, h, env)
    requires rounds(x) == Ok(r) && Leads(r, r.after.server.cells, n, h, env) && n <= MAX_SYNC_PAGES
    ensures Settled(CatchUp(x.client, 0, pager), r.after.server.cells)
  {
    assert LinkedAt(pager, rounds, x, 0);
    RestOfLoop(pager, rounds, x, 0, x.client, r, n, h, env);
  }

  /** From any state of any run: a device that follows the feed and catches up while nobody else writes to
      the server sends what it has pending and ends with exactly the server's cells, nothing pending, within the
      page budget, provided nothing of its delta is rejected, the feed after its cursor has no more pages
      than the budget, and the clocks leave room. */
  lemma CatchUpSettles(s: System, d: string, m: Merged, sec: Security, env: Env)
    requires WellFormed(env.schema) && Reachable(s, env) && d in s.devices && Follows(s.devices[d], s.server)
    requires LocalDelta(s.devices[d], env.schema).Ok?
    requires Merge(s.server, DeltaOf(s.devices[d], env.schema), d, sec, env) == Ok(m) && m.response.rejections == []
    requires m.state.seqNo <= I64_MAX && Valid(m.state) && |Pages(m.state, s.devices[d].cursor, env)| <= MAX_SYNC_PAGES
    requires Max(s.devices[d].clock, s.server.lamport) + 2 * MAX_SYNC_PAGES <= I64_MAX
    ensures Settled(CatchUp(s.devices[d], 0, Undisturbed(Pair(s.devices[d], s.server), sec, env)), m.state.cells)
  {
    ReachableOk(s, env);
    assert DeviceOk(s.devices[d], s.server, s.history, env.schema);
    OrderlySettles(Pair(s.devices[d], s.server), m, s.history, sec, env, Undisturbed(Pair(s.devices[d], s.server), sec, env), RoundsOf(sec, env));
  }

  /** In every run a device that never used a scope follows the feed. */
  lemma ScopeFreeFollows(s: System, d: string, env: Env)
    requires WellFormed(env.schema) && Reachable(s, env) && d in s.devices && s.devices[d].scopes == map[]
    ensures Follows(s.devices[d], s.server)
  {
    ReachableOk(s, env);
    assert DeviceOk(s.devices[d], s.server, s.history, env.schema);
    ScopeFree(s.devices[d], env.schema);
  }

  /** Resetting the cursor starts a full, bounded repair: whatever scopes, members and pending evictions the
      device has, and whatever it skipped, catching up from there leaves it with exactly the server's cells. */
  lemma ResetRepairs(s: System, d: string, m: Merged, sec: Security, env: Env)
    requires WellFormed(env.schema) && Reachable(s, env) && d in s.devices
    requires LocalDelta(ResetCursor(s.devices[d]), env.schema).Ok?
    requires Merge(s.server, DeltaOf(ResetCursor(s.devices[d]), env.schema), d, sec, env) == Ok(m) && m.response.rejections == []
    requires m.state.seqNo <= I64_MAX && Valid(m.state) && |Pages(m.state, 0, env)| <= MAX_SYNC_PAGES
    requires Max(s.devices[d].clock, s.server.lamport) + 2 * MAX_SYNC_PAGES <= I64_MAX
    ensures var c := ResetCursor(s.devices[d]);
      Settled(CatchUp(c, 0, Undisturbed(Pair(c, s.server), sec, env)), m.state.cells)
  {
    var x := Pair(ResetCursor(s.devices[d]), s.server);
    ReachableOk(s, env);
    RewindKeeps(s.devices[d], s.server, s.history, env.schema);
    assert s.devices[d].device == d;
    OrderlySettles(x, m, s.history, sec, env, Undisturbed(x, sec, env), RoundsOf(sec, env));
  }

  lemma OrderlySettles(x: Pair, m: Merged, h: History, sec: Security, env: Env, pager: Pager, rounds: Rounds)
    requires InOrder(x, h, env.schema) && LocalDelta(x.client, env.schema).Ok?
    requires Merge(x.server, DeltaOf(x.client, env.schema), x.client.device, sec, env) == Ok(m)
    requires m.response.rejections == [] && m.state.seqNo <= I64_MAX
    requires Valid(m.state) && |Pages(m.state, x.client.cursor, env)| <= MAX_SYNC_PAGES
    requires Max(x.client.clock, x.server.lamport) + 2 * MAX_SYNC_PAGES <= I64_MAX
    requires pager == Undisturbed(x, sec, env) && rounds == RoundsOf(sec, env)
    ensures Settled(CatchUp(x.client, 0, pager), m.state.cells)
  {
    var r := UnrejectedRound(x, m, h, sec, env);
    RoundLeads(x, r, MAX_SYNC_PAGES, h, env);
    RoundsWork(x, h, sec, env, pager, rounds);
    FirstSettles(pager, rounds, x, r, MAX_SYNC_PAGES, h, env);
  }

  lemma RoundsWork(x: Pair, h: History, sec: Security, env: Env, pager: Pager, rounds: Rounds)
    requires pager == Undisturbed(x, sec, env) && rounds == RoundsOf(sec, env)
    ensures forall i :: LinkedAt(pager, rounds, x, i)
    ensures forall z, i :: WorksAt(rounds, z, i, h, env)
  {
    forall i ensures LinkedAt(pager, rounds, x, i) {
      UndisturbedLinked(x, i, sec, env);
    }
    forall z, i ensures WorksAt(rounds, z, i, h, env) {
      if Within(z, i, h, env) { WithinRound(z, i, h, sec, env); }
    }
  }
}
