/** The catch-up loop as part of a run, and a whole fleet that catches up in turn. */
module FleetSettling {
  import opened Names
  import opened Cells
  import opened Server
  import opened Client
  import opened Conservation
  import opened System
  import opened SystemProofs
  import opened Runs
  import opened Theorems
  import opened Pagination
  import opened Settling
  import opened BareAcknowledge
  import opened Repair

  // --- One page --------------------------------------------------------

  /** The system after device `d` sent its delta, had it served and completed the answer. */
  ghost function After(s: System, d: string, y: Round, t: Schema): System
    requires d in s.devices
  {
    var p := DeltaOf(s.devices[d], t);
    SetDevice(s, d, y.after.client).(server := y.after.server, requests := s.requests + {Full(p)},
                                     exchanges := s.exchanges + {FullExchange(p, y.response)})
  }

  lemma RoundParts(x: Pair, sec: Security, env: Env, y: Round) returns (m: Merged)
    requires RoundOf(x, sec, env) == Ok(y)
    ensures LocalDelta(x.client, env.schema) == Ok(DeltaOf(x.client, env.schema))
    ensures Merge(x.server, DeltaOf(x.client, env.schema), x.client.device, sec, env) == Ok(m)
    ensures CompleteSync(x.client, DeltaOf(x.client, env.schema), m.response, env.schema) == Ok(y.after.client)
    ensures y.after.server == m.state && y.response == m.response
  {
    m := Merge(x.server, DeltaOf(x.client, env.schema), x.client.device, sec, env).value;
  }

  lemma SendIs(s: System, d: string, env: Env)
    requires d in s.devices && LocalDelta(s.devices[d], env.schema) == Ok(DeltaOf(s.devices[d], env.schema))
    ensures Step(s, Send(d), env) == s.(requests := s.requests + {Full(DeltaOf(s.devices[d], env.schema))})
  {
  }

  /** A page is three actions of a run. */
  lemma RoundRuns(s: System, d: string, y: Round, sec: Security, env: Env)
    requires d in s.devices && s.devices[d].device == d && RoundOf(Pair(s.devices[d], s.server), sec, env) == Ok(y)
    ensures var p := DeltaOf(s.devices[d], env.schema);
      Step(Step(Step(s, Send(d), env), Serve(Full(p), sec), env), Deliver(FullExchange(p, y.response)), env) ==
        After(s, d, y, env.schema)
  {
    var p := DeltaOf(s.devices[d], env.schema);
    var m := RoundParts(Pair(s.devices[d], s.server), sec, env, y);
    SendIs(s, d, env);
    var t := s.(requests := s.requests + {Full(p)});
    ServedIs(t, p, sec, env, m);
    var u := t.(server := m.state, exchanges := t.exchanges + {FullExchange(p, m.response)});
    DeliverIs(u, FullExchange(p, m.response), y.after.client, env);
    DeliverIsStep(u, FullExchange(p, m.response), env);
  }

  ghost predicate SameElsewhere(s: System, d: string, u: System) {
    u.devices.Keys == s.devices.Keys && forall x :: x in s.devices && x != d ==> u.devices[x] == s.devices[x]
  }

  /** Only device `d` changed, and the run moved forward. */
  ghost predicate TurnOf(s: System, d: string, u: System, env: Env) {
    Reachable(u, env) && Later(s, u) && SameElsewhere(s, d, u)
  }

  lemma StepTurns(s: System, a: Action, env: Env)
    requires WellFormed(env.schema) && Reachable(s, env)
    ensures Reachable(Step(s, a, env), env) && Later(s, Step(s, a, env))
  {
    ReachableOk(s, env);
    ReachableNext(s, a, env);
    StepLater(s, a, env);
  }

  lemma LaterOn(s: System, t: System, u: System, env: Env)
    requires WellFormed(env.schema) && Reachable(s, env) && Reachable(t, env) && Reachable(u, env) && Later(s, t) && Later(t, u)
    ensures Later(s, u)
  {
    ReachableOk(s, env);
    ReachableOk(t, env);
    ReachableOk(u, env);
    LaterTransitive(s, t, u, env.schema);
  }

  lemma ThreeSteps(s: System, a: Action, b: Action, c: Action, env: Env)
    requires WellFormed(env.schema) && Reachable(s, env)
    ensures var u := Step(Step(Step(s, a, env), b, env), c, env); Reachable(u, env) && Later(s, u)
  {
    var t1 := Step(s, a, env);
    var t2 := Step(t1, b, env);
    StepTurns(s, a, env);
    StepTurns(t1, b, env);
    StepTurns(t2, c, env);
    LaterOn(s, t1, t2, env);
    LaterOn(s, t2, Step(t2, c, env), env);
  }

  lemma OthersStay(s: System, d: string, y: Round, t: Schema)
    requires d in s.devices
    ensures SameElsewhere(s, d, After(s, d, y, t))
  {
  }

  lemma RoundTurns(s: System, d: string, y: Round, sec: Security, env: Env)
    requires WellFormed(env.schema) && Reachable(s, env) && d in s.devices && s.devices[d].device == d
    requires RoundOf(Pair(s.devices[d], s.server), sec, env) == Ok(y)
    ensures TurnOf(s, d, After(s, d, y, env.schema), env)
  {
    var p := DeltaOf(s.devices[d], env.schema);
    RoundRuns(s, d, y, sec, env);
    OthersStay(s, d, y, env.schema);
    ThreeSteps(s, Send(d), Serve(Full(p), sec), Deliver(FullExchange(p, y.response)), env);
  }

  // --- The loop --------------------------------------------------------

  /** Page after page, until one announces no more. */
  ghost function CatchUpSystem(s: System, d: string, page: nat, rounds: Rounds, t: Schema): System
    decreases MAX_SYNC_PAGES - page
  {
    if d !in s.devices || page >= MAX_SYNC_PAGES then s
    else
      match rounds(Pair(s.devices[d], s.server))
      case Err => s
      case Ok(y) =>
        if y.response.hasMore then CatchUpSystem(After(s, d, y, t), d, page + 1, rounds, t) else After(s, d, y, t)
  }

  lemma TurnsOn(s: System, d: string, t: System, u: System, env: Env)
    requires WellFormed(env.schema) && Reachable(s, env) && TurnOf(s, d, t, env) && TurnOf(t, d, u, env)
    ensures TurnOf(s, d, u, env)
  {
    LaterOn(s, t, u, env);
  }

  lemma TurnStays(s: System, d: string, env: Env)
    requires WellFormed(env.schema) && Reachable(s, env)
    ensures TurnOf(s, d, s, env)
  {
    ReachableOk(s, env);
    LaterReflexive(s, env.schema);
  }

  lemma NamedDevice(s: System, d: string, env: Env)
    requires WellFormed(env.schema) && Reachable(s, env) && d in s.devices
    ensures s.devices[d].device == d && Sound(s.devices[d], env.schema) && Valid(s.server)
    ensures s.devices[d].cursor <= Issued(s.server, d)
  {
    ReachableOk(s, env);
    assert DeviceOk(s.devices[d], s.server, s.history, env.schema);
  }

  lemma SystemUnfolds(s: System, d: string, page: nat, rounds: Rounds, y: Round, t: Schema)
    requires d in s.devices && page < MAX_SYNC_PAGES && rounds(Pair(s.devices[d], s.server)) == Ok(y)
    ensures CatchUpSystem(s, d, page, rounds, t) ==
      if y.response.hasMore then CatchUpSystem(After(s, d, y, t), d, page + 1, rounds, t) else After(s, d, y, t)
  {
  }

  lemma SystemStops(s: System, d: string, page: nat, rounds: Rounds, t: Schema)
    requires d in s.devices && (page >= MAX_SYNC_PAGES || rounds(Pair(s.devices[d], s.server)).Err?)
    ensures CatchUpSystem(s, d, page, rounds, t) == s
  {
  }

  /** Rounds of a device are turns of the system. */
  ghost predicate TurnsAt(rounds: Rounds, s: System, d: string, env: Env) {
    Reachable(s, env) && d in s.devices && rounds(Pair(s.devices[d], s.server)).Ok? ==>
      TurnOf(s, d, After(s, d, rounds(Pair(s.devices[d], s.server)).value, env.schema), env)
  }

  lemma RoundsTurn(s: System, d: string, sec: Security, env: Env)
    requires WellFormed(env.schema)
    ensures TurnsAt(RoundsOf(sec, env), s, d, env)
  {
    if Reachable(s, env) && d in s.devices && RoundOf(Pair(s.devices[d], s.server), sec, env).Ok? {
      NamedDevice(s, d, env);
      RoundTurns(s, d, RoundOf(Pair(s.devices[d], s.server), sec, env).value, sec, env);
    }
  }

  /** The loop is part of a run that changes no other device. */
  lemma {:induction false} LoopTurns(s: System, d: string, page: nat, rounds: Rounds, env: Env)
    requires WellFormed(env.schema) && Reachable(s, env) && d in s.devices
    requires forall x :: TurnsAt(rounds, x, d, env)
    ensures TurnOf(s, d, CatchUpSystem(s, d, page, rounds, env.schema), env)
    decreases MAX_SYNC_PAGES - page, 1
  {
    var r := rounds(Pair(s.devices[d], s.server));
    if page >= MAX_SYNC_PAGES || r.Err? {
      SystemStops(s, d, page, rounds, env.schema);
      TurnStays(s, d, env);
    } else {
      assert TurnsAt(rounds, s, d, env);
      RestTurns(s, d, page, rounds, r.value, env);
    }
  }

  /** What follows a page. */
  lemma {:induction false} RestTurns(s: System, d: string, page: nat, rounds: Rounds, y: Round, env: Env)
    requires WellFormed(env.schema) && Reachable(s, env) && d in s.devices && page < MAX_SYNC_PAGES
    requires forall x :: TurnsAt(rounds, x, d, env)
    requires rounds(Pair(s.devices[d], s.server)) == Ok(y) && TurnOf(s, d, After(s, d, y, env.schema), env)
    ensures TurnOf(s, d, CatchUpSystem(s, d, page, rounds, env.schema), env)
    decreases MAX_SYNC_PAGES - page, 0
  {
    var u := After(s, d, y, env.schema);
    SystemUnfolds(s, d, page, rounds, y, env.schema);
    if y.response.hasMore {
      LoopTurns(u, d, page + 1, rounds, env);
      TurnsOn(s, d, u, CatchUpSystem(u, d, page + 1, rounds, env.schema), env);
    }
  }

  // --- What the loop leaves --------------------------------------------

  /** Device `d` is in order with the server, has nothing pending and stores exactly `cells`, which the server stores. */
  ghost predicate EndsAt(u: System, d: string, cells: map<Key, Cell>, h: History, t: Schema) {
    && d in u.devices && u.server.cells == cells && Held(u.devices[d]) == cells
    && Ready(Pair(u.devices[d], u.server), h, t)
  }

  /** The device of the run is what the client's loop computes. */
  ghost predicate Agrees(u: System, d: string, c: Client) {
    d in u.devices && u.devices[d] == c
  }

  lemma LastPage(s: System, d: string, y: Round, cells: map<Key, Cell>, h: History, t: Schema)
    requires d in s.devices && y.after.server.cells == cells && Done(y, cells, h, t)
    ensures EndsAt(After(s, d, y, t), d, cells, h, t) && Agrees(After(s, d, y, t), d, y.after.client)
  {
    assert Pair(y.after.client, y.after.server) == y.after;
  }

  lemma AfterPair(s: System, d: string, y: Round, t: Schema)
    requires d in s.devices
    ensures var u := After(s, d, y, t); d in u.devices && Pair(u.devices[d], u.server) == y.after
  {
  }

  lemma {:induction false} SystemSettles(pager: Pager, rounds: Rounds, x: Pair, page: nat, s: System, d: string, n: nat, h: History, env: Env)
    requires forall i :: LinkedAt(pager, rounds, x, i)
    requires forall z, i :: WorksAt(rounds, z, i, h, env)
    requires d in s.devices && Nth(rounds, x, page) == Ok(Pair(s.devices[d], s.server))
    requires Within(Pair(s.devices[d], s.server), n, h, env) && page + n <= MAX_SYNC_PAGES
    ensures var u := CatchUpSystem(s, d, page, rounds, env.schema);
      EndsAt(u, d, s.server.cells, h, env.schema) && Agrees(u, d, CatchUp(s.devices[d], page, pager).client)
    decreases n, 1
  {
    var r := NextPage(pager, rounds, x, page, Pair(s.devices[d], s.server), n, h, env);
    RestSettles(pager, rounds, x, page, s, d, r, n, h, env);
  }

  /** What follows a page. */
  lemma {:induction false} RestSettles(pager: Pager, rounds: Rounds, x: Pair, page: nat, s: System, d: string, r: Round, n: nat, h: History, env: Env)
    requires forall i :: LinkedAt(pager, rounds, x, i)
    requires forall z, i :: WorksAt(rounds, z, i, h, env)
    requires d in s.devices && rounds(Pair(s.devices[d], s.server)) == Ok(r) && pager(s.devices[d], page) == Seen(r)
    requires Nth(rounds, x, page + 1) == Ok(r.after) && Leads(r, r.after.server.cells, n, h, env) && page + n <= MAX_SYNC_PAGES
    ensures var u := CatchUpSystem(s, d, page, rounds, env.schema);
      EndsAt(u, d, r.after.server.cells, h, env.schema) && Agrees(u, d, CatchUp(s.devices[d], page, pager).client)
    decreases n, 0
  {
    SystemUnfolds(s, d, page, rounds, r, env.schema);
    LoopUnfolds(pager, s.devices[d], page, r);
    if r.response.hasMore {
      AfterPair(s, d, r, env.schema);
      SystemSettles(pager, rounds, x, page + 1, After(s, d, r, env.schema), d, n - 1, h, env);
    } else {
      LastPage(s, d, r, r.after.server.cells, h, env.schema);
    }
  }

  // --- One turn --------------------------------------------------------

  /** The server merges what the device has pending and rejects nothing, the feed after its cursor
      fits the page budget, and the clocks leave room. */
  ghost predicate TurnGoes(s: System, d: string, sec: Security, env: Env) {
    && d in s.devices && LocalDelta(s.devices[d], env.schema).Ok?
    && Max(s.devices[d].clock, s.server.lamport) + 2 * MAX_SYNC_PAGES <= I64_MAX
    && MergesWell(Merge(s.server, DeltaOf(s.devices[d], env.schema), d, sec, env), s.devices[d].cursor, env)
  }

  ghost predicate MergesWell(r: Result<Merged>, cursor: int, env: Env) {
    && r.Ok? && r.value.response.rejections == []
    && Valid(r.value.state) && r.value.state.seqNo <= I64_MAX && |Pages(r.value.state, cursor, env)| <= MAX_SYNC_PAGES
  }

  ghost function Turn(s: System, d: string, sec: Security, env: Env): System {
    CatchUpSystem(s, d, 0, RoundsOf(sec, env), env.schema)
  }

  lemma FirstPageLeads(x: Pair, m: Merged, h: History, sec: Security, env: Env) returns (r: Round)
    requires InOrder(x, h, env.schema) && LocalDelta(x.client, env.schema).Ok?
    requires Merge(x.server, DeltaOf(x.client, env.schema), x.client.device, sec, env) == Ok(m)
    requires m.response.rejections == [] && m.state.seqNo <= I64_MAX
    requires Valid(m.state) && |Pages(m.state, x.client.cursor, env)| <= MAX_SYNC_PAGES
    requires Max(x.client.clock, x.server.lamport) + 2 * MAX_SYNC_PAGES <= I64_MAX
    ensures RoundOf(x, sec, env) == Ok(r) && r.after.server.cells == m.state.cells
    ensures Leads(r, m.state.cells, MAX_SYNC_PAGES, h, env)
  {
    r := UnrejectedRound(x, m, h, sec, env);
    RoundLeads(x, r, MAX_SYNC_PAGES, h, env);
  }

  /** The loop inside a run: it ends as the client's own loop does. */
  lemma TurnEnds(s: System, d: string, m: Merged, sec: Security, env: Env)
    requires WellFormed(env.schema) && Reachable(s, env) && TurnGoes(s, d, sec, env) && Follows(s.devices[d], s.server)
    requires Merge(s.server, DeltaOf(s.devices[d], env.schema), d, sec, env) == Ok(m)
    ensures EndsAt(Turn(s, d, sec, env), d, m.state.cells, s.history, env.schema)
    ensures Agrees(Turn(s, d, sec, env), d, CatchUp(s.devices[d], 0, Undisturbed(Pair(s.devices[d], s.server), sec, env)).client)
  {
    var x := Pair(s.devices[d], s.server);
    OrderedPair(s, d, env);
    var r := FirstPageLeads(x, m, s.history, sec, env);
    TurnRuns(s, d, r, sec, env, Undisturbed(x, sec, env), RoundsOf(sec, env));
  }

  lemma OrderedPair(s: System, d: string, env: Env)
    requires WellFormed(env.schema) && Reachable(s, env) && d in s.devices && Follows(s.devices[d], s.server)
    ensures InOrder(Pair(s.devices[d], s.server), s.history, env.schema) && s.devices[d].device == d
  {
    ReachableOk(s, env);
    assert DeviceOk(s.devices[d], s.server, s.history, env.schema);
  }

  lemma TurnRuns(s: System, d: string, r: Round, sec: Security, env: Env, pager: Pager, rounds: Rounds)
    requires d in s.devices && pager == Undisturbed(Pair(s.devices[d], s.server), sec, env) && rounds == RoundsOf(sec, env)
    requires rounds(Pair(s.devices[d], s.server)) == Ok(r) && Leads(r, r.after.server.cells, MAX_SYNC_PAGES, s.history, env)
    ensures var u := CatchUpSystem(s, d, 0, rounds, env.schema);
      EndsAt(u, d, r.after.server.cells, s.history, env.schema) && Agrees(u, d, CatchUp(s.devices[d], 0, pager).client)
  {
    var x := Pair(s.devices[d], s.server);
    RoundsWork(x, s.history, sec, env, pager, rounds);
    assert LinkedAt(pager, rounds, x, 0);
    assert Nth(rounds, x, 0) == Ok(x);
    RestSettles(pager, rounds, x, 0, s, d, r, MAX_SYNC_PAGES, s.history, env);
  }

  // --- A fleet in turn -------------------------------------------------

  ghost predicate AllFollow(s: System) {
    forall x :: x in s.devices ==> Follows(s.devices[x], s.server)
  }

  lemma TurnFollows(s: System, d: string, u: System, env: Env)
    requires WellFormed(env.schema) && Reachable(s, env) && AllFollow(s) && TurnOf(s, d, u, env)
    requires d in u.devices && Follows(u.devices[d], u.server)
    ensures AllFollow(u)
  {
    forall x | x in u.devices ensures Follows(u.devices[x], u.server) {
      if x != d {
        NamedDevice(s, x, env);
        FollowsServer(s.devices[x], s.server, u.server);
      }
    }
  }

  /** What a turn leaves: the device clean and equal to the server, whose cells change only by what was pending. */
  ghost predicate TurnLeaves(s: System, d: string, u: System, env: Env) {
    && TurnOf(s, d, u, env) && AllFollow(u)
    && d in s.devices && d in u.devices && Held(u.devices[d]) == u.server.cells && DirtyCells(u.devices[d]) == map[]
    && (DirtyCells(s.devices[d]) == map[] ==> u.server.cells == s.server.cells)
  }

  lemma CleanMerge(s: System, d: string, m: Merged, sec: Security, env: Env)
    requires WellFormed(env.schema) && Reachable(s, env) && d in s.devices && DirtyCells(s.devices[d]) == map[]
    requires Merge(s.server, DeltaOf(s.devices[d], env.schema), d, sec, env) == Ok(m)
    ensures m.state.cells == s.server.cells
  {
    NamedDevice(s, d, env);
    EmptyDelta(s.devices[d], env.schema);
    IssuedCapped(s.server, d);
    EmptyRequestGetsPage(s.server, DeltaOf(s.devices[d], env.schema), d, sec, env);
  }

  lemma TurnSettles(s: System, d: string, sec: Security, env: Env)
    requires WellFormed(env.schema) && Reachable(s, env) && AllFollow(s) && TurnGoes(s, d, sec, env)
    ensures TurnLeaves(s, d, Turn(s, d, sec, env), env)
  {
    var m := Merge(s.server, DeltaOf(s.devices[d], env.schema), d, sec, env).value;
    var u := Turn(s, d, sec, env);
    TurnEnds(s, d, m, sec, env);
    forall x ensures TurnsAt(RoundsOf(sec, env), x, d, env) {
      RoundsTurn(x, d, sec, env);
    }
    LoopTurns(s, d, 0, RoundsOf(sec, env), env);
    TurnFollows(s, d, u, env);
    if DirtyCells(s.devices[d]) == map[] { CleanMerge(s, d, m, sec, env); }
  }

  // --- Turns, whatever they do -----------------------------------------

  type Turns = (System, string) -> System
  type Condition = (System, string) -> bool

  /** The devices take their turns one after the other. */
  ghost function InTurn(s: System, ds: seq<string>, turn: Turns): System {
    if ds == [] then s else turn(InTurn(s, ds[..|ds| - 1], turn), ds[|ds| - 1])
  }

  ghost predicate TurnsGo(s: System, ds: seq<string>, turn: Turns, go: Condition) {
    forall i :: 0 <= i < |ds| ==> go(InTurn(s, ds[..i], turn), ds[i])
  }

  lemma {:induction false} InTurnAppend(s: System, a: seq<string>, b: seq<string>, turn: Turns)
    ensures InTurn(s, a + b, turn) == InTurn(InTurn(s, a, turn), b, turn)
    decreases |b|
  {
    if b == [] {
      assert a + b == a;
    } else {
      var n := |b| - 1;
      InTurnAppend(s, a, b[..n], turn);
      assert (a + b)[..|a + b| - 1] == a + b[..n];
    }
  }

  lemma TurnsGoFirst(s: System, a: seq<string>, b: seq<string>, turn: Turns, go: Condition)
    requires TurnsGo(s, a + b, turn, go)
    ensures TurnsGo(s, a, turn, go)
  {
    forall i | 0 <= i < |a| ensures go(InTurn(s, a[..i], turn), a[i]) {
      assert (a + b)[..i] == a[..i] && (a + b)[i] == a[i];
    }
  }

  lemma TurnsGoRest(s: System, a: seq<string>, b: seq<string>, turn: Turns, go: Condition)
    requires TurnsGo(s, a + b, turn, go)
    ensures TurnsGo(InTurn(s, a, turn), b, turn, go)
  {
    forall i | 0 <= i < |b| ensures go(InTurn(InTurn(s, a, turn), b[..i], turn), b[i]) {
      assert (a + b)[..|a| + i] == a + b[..i] && (a + b)[|a| + i] == b[i];
      InTurnAppend(s, a, b[..i], turn);
    }
  }

  lemma TurnsGoBefore(s: System, ds: seq<string>, turn: Turns, go: Condition)
    requires ds != [] && TurnsGo(s, ds, turn, go)
    ensures TurnsGo(s, ds[..|ds| - 1], turn, go) && go(InTurn(s, ds[..|ds| - 1], turn), ds[|ds| - 1])
  {
    var n := |ds| - 1;
    assert ds[..n] + [ds[n]] == ds;
    TurnsGoFirst(s, ds[..n], [ds[n]], turn, go);
  }

  lemma LastElement(ds: seq<string>)
    requires ds != []
    ensures Elements(ds) == Elements(ds[..|ds| - 1]) + {ds[|ds| - 1]}
  {
    assert ds == ds[..|ds| - 1] + [ds[|ds| - 1]];
  }

  // --- Two passes ------------------------------------------------------

  /** Where the condition holds, a turn does what a catch-up does. */
  ghost predicate Works(turn: Turns, go: Condition, s: System, d: string, env: Env) {
    Reachable(s, env) && AllFollow(s) && go(s, d) ==> TurnLeaves(s, d, turn(s, d), env)
  }

  ghost predicate AllClean(s: System, ds: set<string>) {
    forall x :: x in ds ==> x in s.devices && DirtyCells(s.devices[x]) == map[]
  }

  ghost predicate AllEqual(s: System, ds: set<string>) {
    forall x :: x in ds ==> x in s.devices && Held(s.devices[x]) == s.server.cells
  }

  /** The same devices, all following the feed, those of `ds` with nothing pending. */
  ghost predicate Flushed(s: System, u: System, ds: set<string>, env: Env) {
    Reachable(u, env) && AllFollow(u) && u.devices.Keys == s.devices.Keys && AllClean(u, ds)
  }

  lemma CleanOn(t: System, ds: set<string>, d: string, u: System)
    requires AllClean(t, ds) && SameElsewhere(t, d, u) && d in u.devices && DirtyCells(u.devices[d]) == map[]
    ensures AllClean(u, ds + {d})
  {
  }

  lemma EqualOn(t: System, ds: set<string>, d: string, u: System)
    requires AllEqual(t, ds) && SameElsewhere(t, d, u) && d in u.devices && Held(u.devices[d]) == u.server.cells
    requires u.server.cells == t.server.cells
    ensures AllEqual(u, ds + {d})
  {
  }

  /** After their turns the devices have nothing pending. */
  lemma {:induction false} FirstPass(s: System, ds: seq<string>, turn: Turns, go: Condition, env: Env)
    requires forall t, d :: Works(turn, go, t, d, env)
    requires Reachable(s, env) && AllFollow(s) && TurnsGo(s, ds, turn, go)
    ensures Flushed(s, InTurn(s, ds, turn), Elements(ds), env)
  {
    if ds != [] {
      var n := |ds| - 1;
      TurnsGoBefore(s, ds, turn, go);
      FirstPass(s, ds[..n], turn, go, env);
      assert Works(turn, go, InTurn(s, ds[..n], turn), ds[n], env);
      CleanOn(InTurn(s, ds[..n], turn), Elements(ds[..n]), ds[n], InTurn(s, ds, turn));
      LastElement(ds);
    }
  }

  /** Nobody has anything pending, the server's cells are those of `s`, and the devices of `ds` store them. */
  ghost predicate Equalled(s: System, u: System, ds: set<string>, env: Env) {
    Flushed(s, u, s.devices.Keys, env) && u.server.cells == s.server.cells && AllEqual(u, ds)
  }

  lemma EqualledOn(s: System, t: System, ds: set<string>, d: string, u: System, env: Env)
    requires Equalled(s, t, ds, env) && TurnLeaves(t, d, u, env)
    ensures Equalled(s, u, ds + {d}, env)
  {
    CleanOn(t, s.devices.Keys, d, u);
    EqualOn(t, ds, d, u);
  }

  /** When nobody has anything pending, each device ends its turn with the server's cells, and they stay the same. */
  lemma {:induction false} SecondPass(s: System, ds: seq<string>, turn: Turns, go: Condition, env: Env)
    requires forall t, d :: Works(turn, go, t, d, env)
    requires Reachable(s, env) && AllFollow(s) && TurnsGo(s, ds, turn, go) && AllClean(s, s.devices.Keys)
    ensures Equalled(s, InTurn(s, ds, turn), Elements(ds), env)
  {
    if ds != [] {
      var n := |ds| - 1;
      TurnsGoBefore(s, ds, turn, go);
      SecondPass(s, ds[..n], turn, go, env);
      assert Works(turn, go, InTurn(s, ds[..n], turn), ds[n], env);
      EqualledOn(s, InTurn(s, ds[..n], turn), Elements(ds[..n]), ds[n], InTurn(s, ds, turn), env);
      LastElement(ds);
    }
  }

  lemma TwoPasses(s: System, ds: seq<string>, turn: Turns, go: Condition, env: Env)
    requires forall t, d :: Works(turn, go, t, d, env)
    requires Reachable(s, env) && AllFollow(s) && Elements(ds) == s.devices.Keys && TurnsGo(s, ds + ds, turn, go)
    ensures Equalled(InTurn(s, ds, turn), InTurn(s, ds + ds, turn), s.devices.Keys, env)
    ensures InTurn(s, ds, turn).devices.Keys == s.devices.Keys
  {
    TurnsGoFirst(s, ds, ds, turn, go);
    TurnsGoRest(s, ds, ds, turn, go);
    FirstPass(s, ds, turn, go, env);
    SecondPass(InTurn(s, ds, turn), ds, turn, go, env);
    InTurnAppend(s, ds, ds, turn);
  }

  // --- The fleet converges ---------------------------------------------

  ghost function CatchingUp(sec: Security, env: Env): Turns {
    (s: System, d: string) => Turn(s, d, sec, env)
  }

  ghost function Going(sec: Security, env: Env): Condition {
    (s: System, d: string) => TurnGoes(s, d, sec, env)
  }

  lemma CatchingUpWorks(s: System, d: string, sec: Security, env: Env)
    requires WellFormed(env.schema)
    ensures Works(CatchingUp(sec, env), Going(sec, env), s, d, env)
  {
    if Reachable(s, env) && AllFollow(s) && TurnGoes(s, d, sec, env) { TurnSettles(s, d, sec, env); }
  }

  /** From any reachable state whose devices follow the feed: when every device catches up in turn, twice, with
      nothing rejected and no write in between, all end clean, with the server's cells, and show the same table. */
  lemma FleetConverges(s: System, ds: seq<string>, sec: Security, env: Env)
    requires WellFormed(env.schema) && Reachable(s, env) && AllFollow(s) && Elements(ds) == s.devices.Keys
    requires TurnsGo(s, ds + ds, CatchingUp(sec, env), Going(sec, env))
    ensures var u := InTurn(s, ds + ds, CatchingUp(sec, env));
      && Reachable(u, env) && u.devices.Keys == s.devices.Keys
      && (forall x :: x in u.devices ==> Held(u.devices[x]) == u.server.cells && DirtyCells(u.devices[x]) == map[])
      && (forall x, y :: x in u.devices && y in u.devices ==>
            u.devices[x].rows == u.devices[y].rows && u.devices[x].app == u.devices[y].app)
  {
    var u := InTurn(s, ds + ds, CatchingUp(sec, env));
    forall t, d ensures Works(CatchingUp(sec, env), Going(sec, env), t, d, env) {
      CatchingUpWorks(t, d, sec, env);
    }
    TwoPasses(s, ds, CatchingUp(sec, env), Going(sec, env), env);
    EqualTables(u, env);
  }

  lemma EqualTables(u: System, env: Env)
    requires WellFormed(env.schema) && Reachable(u, env) && AllEqual(u, u.devices.Keys)
    ensures forall x, y :: x in u.devices && y in u.devices ==>
      u.devices[x].rows == u.devices[y].rows && u.devices[x].app == u.devices[y].app
  {
    forall x, y | x in u.devices && y in u.devices
      ensures u.devices[x].rows == u.devices[y].rows && u.devices[x].app == u.devices[y].app
    {
      NamedDevice(u, x, env);
      NamedDevice(u, y, env);
      SameCellsSameTable(u.devices[x], u.devices[y], env.schema);
    }
  }
}
