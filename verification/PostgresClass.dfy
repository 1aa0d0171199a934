/** One tenant's table in PostgreSQL, changed statement by statement inside a
    transaction that commits as a whole or rolls back. */
module PostgresClass {
  import opened Names
  import opened Cells
  import opened Payload
  import opened Server
  import opened ServerFacts
  import opened Postgres
  import opened Loops

  lemma {:induction false} RowsFail(a: Acc, who: Ruling, ws: seq<Write>, next: Draw, n: nat)
    requires n <= |ws| && AbsorbRows(a, who, ws[..n], next).Err?
    ensures AbsorbRows(a, who, ws, next).Err?
    decreases |ws|
  {
    if n < |ws| {
      var m := |ws| - 1;
      assert ws[..m][..n] == ws[..n];
      RowsFail(a, who, ws[..m], next, n);
    } else {
      assert ws[..n] == ws;
    }
  }

  /** The highest number in the table. */
  method HighestNumber(pos: map<Key, nat>) returns (top: nat)
    ensures top == Highest(pos)
  {
    top := 0;
    var rest := pos.Keys;
    while rest != {}
      invariant rest <= pos.Keys
      invariant forall k :: k in pos && k !in rest ==> pos[k] <= top
      invariant top == 0 || exists k :: k in pos && pos[k] == top
      decreases rest
    {
      var k :| k in rest;
      if pos[k] > top { top := pos[k]; }
      rest := rest - {k};
    }
    HighestIs(pos, top);
  }

  /** The rows numbered after `from`, ordered, with the query's limit. */
  method FetchRows(cells: map<Key, Cell>, pos: map<Key, nat>, from: int) returns (rows: seq<Key>)
    requires Injective(pos)
    ensures rows == Fetched(cells, pos, from)
  {
    var all := set k | k in cells && k in pos && pos[k] > from;
    assert all == Unseen(cells, pos, from);
    var feed := OrderBySeq(all, pos);
    rows := Prefix(feed, MAX_RESPONSE_CELLS + 1);
  }

  /** The streaming page loop: it stops before the row that exceeds a budget, and a
      page that ends by itself moves the cursor to the table's highest number. */
  method StreamPage(rows: seq<Key>, cells: map<Key, Cell>, pos: map<Key, nat>, size: (Key, Cell) -> nat, from: int)
    returns (page: Page)
    requires forall k :: k in rows ==> k in cells && k in pos
    ensures page == Streamed(rows, cells, pos, size, from)
  {
    var included, bytes: nat, next, more := 0, 0, from, false;
    while included < |rows|
      invariant included <= |rows| && !more
      invariant next == if included == 0 then from else pos[rows[included - 1]]
      invariant PageEnd(rows, cells, size, included, bytes) == PageEnd(rows, cells, size, 0, 0)
    {
      var cost := size(rows[included], cells[rows[included]]);
      if included >= MAX_RESPONSE_CELLS || (included > 0 && bytes + cost > MAX_RESPONSE_BYTES) {
        more := true;
        break;
      }
      bytes := bytes + cost;
      included := included + 1;
      next := pos[rows[included - 1]];
    }
    if !more { next := HighestNumber(pos); }
    page := Page(rows[..included], next, more);
  }

  /** A merge commits what is specified, or fails and leaves the table as it was. */
  ghost predicate Committed(before: Tenant, m: Result<Answered>, after: Tenant, res: Result<SyncPayload>) {
    match m
    case Ok(x) => after == x.tenant && res == Ok(x.response)
    case Err => after == before && res == Err
  }

  /** What a transaction reports before it commits or rolls back. */
  ghost predicate Wrote(m: Result<Answered>, after: Tenant, res: Result<SyncPayload>) {
    match m
    case Ok(x) => after == x.tenant && res == Ok(x.response)
    case Err => res == Err
  }

  lemma AnswerUnfolds(s: Tenant, b: Acc, lamport: nat, p: SyncPayload, device: string,
                      epoch: string, uuid: string, env: Env, page: Page, ok: bool)
    requires ok <==> Admitted(LeaseOf(s, device), Highest(b.cellSeq), p, epoch)
    requires page == PageOf(b.cells, b.cellSeq, env.size, if ok then p.cursor else 0)
    ensures var lease := Renewed(LeaseOf(s, device), page.next, epoch, uuid);
      AnswerTo(s, b, lamport, p, device, epoch, uuid, env) ==
        Answered(
          Tenant(State(lamport, b.cells, b.seqNo, b.cellSeq, map[]), s.leases[device := lease], s.epoch),
          SyncPayload(p.protocol, env.schema.fingerprint, SERVER_DEVICE, lamport,
                      GroupRows(Restrict(b.cells, page.keys)), page.next, page.more,
                      p.cursor != 0 && !ok, Some(lease.token), Some(epoch), b.rejections))
  {
  }

  class TenantStore {
    const env: Env
    var lamport: nat
    var cells: map<Key, Cell>
    var last: nat
    var numbers: map<Key, nat>
    var leases: map<string, Lease>
    var epoch: string

    function View(): Tenant
      reads this
    {
      Tenant(State(lamport, cells, last, numbers, map[]), leases, epoch)
    }

    constructor (env: Env, epoch: string)
      ensures View() == Tenant(EMPTY, map[], epoch) && Sane(View()) && this.env == env
    {
      this.env, this.epoch := env, epoch;
      lamport, cells, last, numbers, leases := 0, map[], 0, map[], map[];
    }

    method Rollback(s: Tenant)
      requires s.core.issued == map[]
      modifies this
      ensures View() == s
    {
      lamport, cells, last, numbers := s.core.lamport, s.core.cells, s.core.seqNo, s.core.cellSeq;
      leases, epoch := s.leases, s.epoch;
    }

    /** The row and column loops: each cell is judged against the row stored now. */
    method ApplyWrites(ws: seq<Write>, who: Ruling, next: Draw) returns (ok: bool, rejections: seq<Rejection>)
      modifies this
      ensures leases == old(leases) && epoch == old(epoch) && lamport == old(lamport)
      ensures ok <==> AbsorbRows(Start(old(View()).core), who, ws, next).Ok?
      ensures ok ==> AbsorbRows(Start(old(View()).core), who, ws, next) == Ok(Acc(cells, last, numbers, rejections))
    {
      ghost var a := Start(View().core);
      rejections := [];
      for i := 0 to |ws|
        invariant leases == old(leases) && epoch == old(epoch) && lamport == old(lamport)
        invariant AbsorbRows(a, who, ws[..i], next) == Ok(Acc(cells, last, numbers, rejections))
      {
        assert ws[..i + 1][..i] == ws[..i];
        var w := ws[i];
        match who(w, Lookup(cells, w.key)) {
          case Fault =>
            RowsFail(a, who, ws, next, i + 1);
            return false, [];
          case Rejected(r) => rejections := rejections + [r];
          case Applied =>
            last := next(last);
            cells, numbers := cells[w.key := w.cell], numbers[w.key := last];
          case Superseded =>
          case Idempotent =>
        }
      }
      assert ws[..|ws|] == ws;
      ok := true;
    }

    /** Cursor check, page and lease of the answer to a merged request. */
    method AnswerRequest(p: SyncPayload, device: string, readEpoch: string, uuid: string, rejections: seq<Rejection>,
                         ghost s: Tenant, ghost b: Acc)
      returns (r: SyncPayload)
      requires Indexed(cells, last, numbers) && b == Acc(cells, last, numbers, rejections)
      requires s.leases == leases && s.epoch == epoch
      modifies this`leases
      ensures Answered(View(), r) == AnswerTo(s, b, lamport, p, device, readEpoch, uuid, env)
    {
      var lease := LeaseOf(View(), device);
      var top := HighestNumber(numbers);
      var ok := Admitted(lease, top, p, readEpoch);
      var rows := FetchRows(cells, numbers, if ok then p.cursor else 0);
      var page := StreamPage(rows, cells, numbers, env.size, if ok then p.cursor else 0);
      AnswerUnfolds(s, b, lamport, p, device, readEpoch, uuid, env, page, ok);
      var renewed := Renewed(lease, page.next, readEpoch, uuid);
      leases := leases[device := renewed];
      var changes := GroupIntoRows(Restrict(cells, page.keys));
      r := SyncPayload(p.protocol, env.schema.fingerprint, SERVER_DEVICE, lamport, changes, page.next, page.more,
                       p.cursor != 0 && !ok, Some(renewed.token), Some(readEpoch), rejections);
    }

    /** Writes, clock and answer; a failure leaves the table half written. */
    method WriteAndAnswer(ws: seq<Write>, who: Ruling, next: Draw, observed: nat, p: SyncPayload, device: string,
                          readEpoch: string, uuid: string)
      returns (res: Result<SyncPayload>)
      requires Sane(View()) && Increasing(next) && DistinctKeys(ws)
      modifies this
      ensures Wrote(Answer(old(View()), AbsorbRows(Start(old(View()).core), who, ws, next), observed,
                           p, device, readEpoch, uuid, env), View(), res)
    {
      ghost var before := View();
      ghost var rows := AbsorbRows(Start(before.core), who, ws, next);
      var ok, rejections := ApplyWrites(ws, who, next);
      if !ok || Max(lamport, observed) + 1 > I64_MAX { return Err; }
      AbsorbRowsJoin(Start(before.core), who, ws, next);
      res := StampAndAnswer(observed, p, device, readEpoch, uuid, rejections, before, rows.value);
    }

    method StampAndAnswer(observed: nat, p: SyncPayload, device: string, readEpoch: string, uuid: string,
                          rejections: seq<Rejection>, ghost before: Tenant, ghost b: Acc)
      returns (res: Result<SyncPayload>)
      requires Indexed(cells, last, numbers) && Max(lamport, observed) + 1 <= I64_MAX
      requires b == Acc(cells, last, numbers, rejections)
      requires before.leases == leases && before.epoch == epoch && before.core.lamport == lamport
      modifies this
      ensures Wrote(Answer(before, Ok(b), observed, p, device, readEpoch, uuid, env), View(), res)
    {
      lamport := Max(lamport, observed) + 1;
      var r := AnswerRequest(p, device, readEpoch, uuid, rejections, before, b);
      return Ok(r);
    }

    method MergeInside(p: SyncPayload, device: string, sec: Security, next: Draw, readEpoch: string, uuid: string)
      returns (res: Result<SyncPayload>)
      requires Sane(View()) && Increasing(next)
      modifies this
      ensures Wrote(MergeTenant(old(View()), p, device, sec, next, readEpoch, uuid, env), View(), res)
    {
      var ok := CheckRequest(p, device, env.schema);
      if !ok { return Err; }
      var ws := Flatten(p.changes);
      var observed := ObservedClock(ws, p.lamport);
      if !ClockAdvanceOk(lamport, observed) { return Err; }
      WritesDistinct(p.changes);
      res := WriteAndAnswer(ws, RulingOf(sec, device), next, observed, p, device, readEpoch, uuid);
    }

    method MergeStates(p: SyncPayload, device: string, sec: Security, next: Draw, readEpoch: string, uuid: string)
      returns (res: Result<SyncPayload>)
      requires Sane(View()) && Increasing(next)
      modifies this
      ensures Sane(View())
      ensures Committed(old(View()), MergeTenant(old(View()), p, device, sec, next, readEpoch, uuid, env), View(), res)
    {
      var saved := View();
      res := MergeInside(p, device, sec, next, readEpoch, uuid);
      if res.Ok? {
        TenantGrows(saved, p, device, sec, next, readEpoch, uuid, env);
      } else {
        Rollback(saved);
      }
    }

    /** Expired devices are told to reset at their next non-zero cursor; the other leases stand. */
    method ExpireCursorLeases(inactive: set<string>)
      requires Sane(View())
      modifies this`leases
      ensures View() == ExpireLeases(old(View()), inactive) && Sane(View())
      ensures forall d :: d in inactive ==> Refuses(View(), d)
      ensures forall d :: d !in inactive ==> (d in leases <==> d in old(leases)) && (d in leases ==> leases[d] == old(leases)[d])
      ensures forall d :: d in inactive ==> d !in leases
    {
      leases := leases - inactive;
      forall d | d in inactive ensures Refuses(View(), d) {
        UnleasedRefused(View(), d);
      }
    }

    /** After a rotation every device is told to reset at its next non-zero cursor. */
    method RotateServerEpoch(drawn: string)
      requires Sane(View())
      modifies this`leases, this`epoch
      ensures View() == RotateEpoch(old(View()), drawn) && Sane(View())
      ensures forall d :: Refuses(View(), d)
      ensures epoch == drawn && leases == map[]
    {
      epoch, leases := drawn, map[];
      forall d ensures Refuses(View(), d) {
        UnleasedRefused(View(), d);
      }
    }
  }
}
