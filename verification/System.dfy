/** The distributed system: one server, any number of devices, and pools of
    requests and answered exchanges from which anything may be served or
    delivered late, repeatedly, in any order, or never. */
module System {
  import opened Names
  import opened Cells
  import opened Payload
  import opened Server
  import opened ServerFacts
  import opened Replica
  import opened Client
  import opened Conservation

  datatype Request = Full(sync: SyncPayload) | Scoped(scoped: PartialRequest)

  datatype Exchange =
    | FullExchange(sent: SyncPayload, response: SyncPayload)
    | ScopedExchange(request: PartialRequest, answer: PartialResponse)

  function PayloadOf(r: Request): SyncPayload {
    match r case Full(p) => p case Scoped(q) => q.sync
  }

  function SentIn(e: Exchange): SyncPayload {
    match e case FullExchange(p, _) => p case ScopedExchange(q, _) => q.sync
  }

  function AnswerIn(e: Exchange): SyncPayload {
    match e case FullExchange(_, r) => r case ScopedExchange(_, r) => r.sync
  }

  datatype System = System(
    server: State,
    devices: map<string, Client>,
    requests: set<Request>,
    exchanges: set<Exchange>,
    history: History)

  const INITIAL: System := System(EMPTY, map[], {}, {}, map[])

  datatype Action =
    | Join(device: string)
    | Local(device: string, op: LocalOp)
    | Send(device: string)
    | SendScoped(device: string, scope: string, interest: Interest)
    | Unsubscribe(device: string, scope: string)
    | Rewind(device: string)
    | Serve(request: Request, security: Security)
    | Deliver(exchange: Exchange)

  // --- Steps -----------------------------------------------------------

  ghost function SetDevice(s: System, d: string, c: Client): System {
    s.(devices := s.devices[d := c])
  }

  ghost function StepLocal(s: System, d: string, op: LocalOp, env: Env): System {
    if d !in s.devices then s
    else
      match Apply(s.devices[d], op, env.schema)
      case Err => s
      case Ok(c) => SetDevice(s, d, c).(history := Record(s.history, s.devices[d], c))
  }

  ghost function StepSend(s: System, d: string, env: Env): System {
    if d !in s.devices then s
    else
      match LocalDelta(s.devices[d], env.schema)
      case Err => s
      case Ok(p) => s.(requests := s.requests + {Full(p)})
  }

  ghost function StepSendScoped(s: System, d: string, scope: string, interest: Interest, env: Env): System {
    if d !in s.devices then s
    else
      match PartialRequestOf(s.devices[d], scope, interest, env.schema)
      case Err => s
      case Ok(r) => SetDevice(s, d, r.client).(requests := s.requests + {Scoped(r.request)})
  }

  ghost function StepUnsubscribe(s: System, d: string, scope: string): System {
    if d !in s.devices then s
    else
      match RemoveScope(s.devices[d], scope)
      case Err => s
      case Ok(c) => SetDevice(s, d, c)
  }

  datatype Served = Served(state: State, exchange: Exchange)

  ghost function Answered(server: State, r: Request, sec: Security, env: Env): Result<Served> {
    match r
    case Full(p) =>
      (match Merge(server, p, p.source, sec, env)
       case Err => Err
       case Ok(m) => Ok(Served(m.state, FullExchange(p, m.response))))
    case Scoped(q) =>
      (match MergePartial(server, q, q.sync.source, env)
       case Err => Err
       case Ok(m) => Ok(Served(m.state, ScopedExchange(q, m.response))))
  }

  ghost function StepServe(s: System, r: Request, sec: Security, env: Env): System {
    if r !in s.requests then s
    else
      match Answered(s.server, r, sec, env)
      case Err => s
      case Ok(v) => s.(server := v.state, exchanges := s.exchanges + {v.exchange})
  }

  ghost function Complete(c: Client, e: Exchange, t: Schema): Result<Client> {
    match e
    case FullExchange(p, r) => CompleteSync(c, p, r, t)
    case ScopedExchange(q, r) => CompletePartial(c, q, r, t)
  }

  ghost function StepDeliver(s: System, e: Exchange, env: Env): System {
    var d := SentIn(e).source;
    if e !in s.exchanges || d !in s.devices then s
    else
      match Complete(s.devices[d], e, env.schema)
      case Err => s
      case Ok(c) => SetDevice(s, d, c)
  }

  /** One action. A failed transaction changes nothing. */
  ghost function Step(s: System, a: Action, env: Env): System {
    match a
    case Join(d) =>
      if ValidIdentifier(d) && d != SERVER_DEVICE && d !in s.devices then SetDevice(s, d, Fresh(d)) else s
    case Local(d, op) => StepLocal(s, d, op, env)
    case Send(d) => StepSend(s, d, env)
    case SendScoped(d, scope, interest) => StepSendScoped(s, d, scope, interest, env)
    case Unsubscribe(d, scope) => StepUnsubscribe(s, d, scope)
    case Rewind(d) => if d in s.devices then SetDevice(s, d, ResetCursor(s.devices[d])) else s
    case Serve(r, sec) => StepServe(s, r, sec, env)
    case Deliver(e) => StepDeliver(s, e, env)
  }

  ghost function Run(s: System, actions: seq<Action>, env: Env): System
    decreases |actions|
  {
    if actions == [] then s
    else Step(Run(s, actions[..|actions| - 1], env), actions[|actions| - 1], env)
  }

  /** Some run from the initial state ends in `s`. */
  ghost predicate Reachable(s: System, env: Env) {
    exists actions :: s == Run(INITIAL, actions, env)
  }

  // --- Invariant -------------------------------------------------------

  ghost predicate DeviceOk(c: Client, s: State, h: History, t: Schema) {
    && Sound(c, t)
    && Conserved(c, s.cells, h)
    && c.cursor <= Issued(s, c.device)
    && (c.scopes == map[] ==> Covers(c, s, c.cursor))
  }

  ghost predicate SentOk(p: SyncPayload, c: Client, s: State, h: History, t: Schema) {
    && ValidRequest(p, c.device, t)
    && AllRecorded(h, CellsOf(p.changes))
    && p.lamport <= c.clock
    && p.cursor <= Issued(s, c.device)
    && (c.scopes == map[] ==> Covers(c, s, p.cursor))
  }

  ghost predicate ScopedOk(q: PartialRequest, c: Client, t: Schema) {
    && q.scope in c.scopes && q.version <= c.scopes[q.scope].version
    && ValidPartialRequest(q, c.device, t)
  }

  ghost predicate RequestOk(r: Request, c: Client, s: State, h: History, t: Schema) {
    SentOk(PayloadOf(r), c, s, h, t) && (r.Scoped? ==> ScopedOk(r.scoped, c, t))
  }

  ghost predicate AnswerOk(p: SyncPayload, r: SyncPayload, device: string, s: State, h: History, t: Schema) {
    && AllRecorded(h, CellsOf(r.changes))
    && Below(CellsOf(r.changes), s.cells)
    && Delivered(CellsOf(p.changes), r.rejections, s.cells)
    && r.lamport <= s.lamport
    && 0 <= r.cursor <= Issued(s, device)
    && !r.cursorReset
    && (r.lamport <= I64_MAX ==> ValidResponse(r, t))
  }

  ghost predicate ExchangeOk(e: Exchange, c: Client, s: State, h: History, t: Schema) {
    && SentOk(SentIn(e), c, s, h, t)
    && AnswerOk(SentIn(e), AnswerIn(e), c.device, s, h, t)
    && match e
       case FullExchange(p, r) => PageHolds(s, p.cursor, r.cursor, CellsOf(r.changes))
       case ScopedExchange(q, r) => ScopedOk(q, c, t) && ScopedAnswerOk(q, r, t)
  }

  ghost predicate ScopedAnswerOk(q: PartialRequest, r: PartialResponse, t: Schema) {
    && r.scope == q.scope && r.version == q.version
    && ValidPartialResponse(r, t)
    && r.evicted == Dropped(q.known, r.members)
  }

  ghost predicate ServerOk(s: State, h: History, t: Schema) {
    Valid(s) && ValidCells(t, s.cells) && AllRecorded(h, s.cells)
  }

  ghost predicate DevicesOk(s: System, t: Schema) {
    forall d :: d in s.devices ==> s.devices[d].device == d && DeviceOk(s.devices[d], s.server, s.history, t)
  }

  ghost predicate RequestsOk(s: System, t: Schema) {
    forall r :: r in s.requests ==>
      PayloadOf(r).source in s.devices && RequestOk(r, s.devices[PayloadOf(r).source], s.server, s.history, t)
  }

  ghost predicate ExchangesOk(s: System, t: Schema) {
    forall e :: e in s.exchanges ==>
      SentIn(e).source in s.devices && ExchangeOk(e, s.devices[SentIn(e).source], s.server, s.history, t)
  }

  ghost predicate AuthorsKnown(s: System) {
    forall x :: x in s.history ==> x.version.device in s.devices
  }

  ghost predicate Inv(s: System, t: Schema) {
    && ServerOk(s.server, s.history, t)
    && DevicesOk(s, t) && RequestsOk(s, t) && ExchangesOk(s, t)
    && AuthorsKnown(s)
  }

  // --- Frames: what a change elsewhere leaves intact -------------------

  lemma IssuedBound(s: State, d: string)
    requires Valid(s)
    ensures 0 <= Issued(s, d) <= s.seqNo
  {
  }

  lemma SentServer(p: SyncPayload, c: Client, s: State, u: State, h: History, t: Schema)
    requires SentOk(p, c, s, h, t) && Valid(s) && Grows(s, u)
    ensures SentOk(p, c, u, h, t)
  {
    IssuedBound(s, c.device);
    assert Issued(s, c.device) <= Issued(u, c.device);
    if c.scopes == map[] { CoversServer(c, s, u, p.cursor); }
  }

  lemma DeviceServer(c: Client, s: State, u: State, h: History, t: Schema)
    requires DeviceOk(c, s, h, t) && Valid(s) && Grows(s, u)
    ensures DeviceOk(c, u, h, t)
  {
    IssuedBound(s, c.device);
    ConservedServer(c, s.cells, u.cells, h);
    assert Issued(s, c.device) <= Issued(u, c.device);
    if c.scopes == map[] { CoversServer(c, s, u, c.cursor); }
  }

  lemma AnswerServer(p: SyncPayload, r: SyncPayload, d: string, s: State, u: State, h: History, t: Schema)
    requires AnswerOk(p, r, d, s, h, t) && Valid(s) && Grows(s, u)
    ensures AnswerOk(p, r, d, u, h, t)
  {
    BelowTransitive(CellsOf(r.changes), s.cells, u.cells);
    var sent := CellsOf(p.changes);
    forall k | k in sent ensures Holds(u.cells, k, sent[k].version) || RejectedVersion(r.rejections, k, sent[k].version) {
      if Holds(s.cells, k, sent[k].version) { HoldsBelow(s.cells, u.cells, k, sent[k].version); }
    }
    assert Issued(s, d) <= Issued(u, d);
  }

  lemma ExchangeServer(e: Exchange, c: Client, s: State, u: State, h: History, t: Schema)
    requires ExchangeOk(e, c, s, h, t) && Valid(s) && Grows(s, u)
    ensures ExchangeOk(e, c, u, h, t)
  {
    SentServer(SentIn(e), c, s, u, h, t);
    AnswerServer(SentIn(e), AnswerIn(e), c.device, s, u, h, t);
    if e.FullExchange? {
      IssuedBound(s, c.device);
      PageHoldsServer(s, u, e.sent.cursor, e.response.cursor, CellsOf(e.response.changes));
    }
  }

  lemma RecordedExtends(h: History, g: History, m: map<Key, Cell>)
    requires AllRecorded(h, m) && Extends(h, g)
    ensures AllRecorded(g, m)
  {
  }

  /** How a device may change with respect to messages already under way. */
  ghost predicate Moves(c: Client, d: Client) {
    && d.device == c.device && c.clock <= d.clock
    && (forall x :: x in c.scopes ==> x in d.scopes && c.scopes[x].version <= d.scopes[x].version)
    && (d.scopes == map[] ==> LogGrows(c, d))
  }

  lemma SentMoves(p: SyncPayload, c: Client, d: Client, s: State, h: History, g: History, t: Schema)
    requires SentOk(p, c, s, h, t) && Moves(c, d) && Extends(h, g)
    ensures SentOk(p, d, s, g, t)
  {
    RecordedExtends(h, g, CellsOf(p.changes));
    if d.scopes == map[] {
      assert forall x :: x !in c.scopes;
      assert c.scopes == map[];
      CoversLog(c, d, s, p.cursor);
    }
  }

  lemma RequestMoves(r: Request, c: Client, d: Client, s: State, h: History, g: History, t: Schema)
    requires RequestOk(r, c, s, h, t) && Moves(c, d) && Extends(h, g)
    ensures RequestOk(r, d, s, g, t)
  {
    SentMoves(PayloadOf(r), c, d, s, h, g, t);
  }

  lemma ExchangeMoves(e: Exchange, c: Client, d: Client, s: State, h: History, g: History, t: Schema)
    requires ExchangeOk(e, c, s, h, t) && Moves(c, d) && Extends(h, g)
    ensures ExchangeOk(e, d, s, g, t)
  {
    SentMoves(SentIn(e), c, d, s, h, g, t);
    RecordedExtends(h, g, CellsOf(AnswerIn(e).changes));
  }

  lemma DeviceHistory(c: Client, s: State, h: History, g: History, t: Schema)
    requires DeviceOk(c, s, h, t) && Extends(h, g)
    requires forall x :: x in g && x.version.device == c.device ==> x in h
    ensures DeviceOk(c, s, g, t)
  {
    ConservedHistory(c, s.cells, h, g);
  }

  /** Replacing one device, and extending the history by its own writes only, keeps the invariant. */
  lemma DeviceStep(s: System, d: string, c: Client, g: History, t: Schema)
    requires Inv(s, t) && d in s.devices && Moves(s.devices[d], c) && c.device == d
    requires Extends(s.history, g) && (forall x :: x in g && x !in s.history ==> x.version.device == d)
    requires DeviceOk(c, s.server, g, t)
    ensures Inv(SetDevice(s, d, c).(history := g), t)
  {
    var u := SetDevice(s, d, c).(history := g);
    RecordedExtends(s.history, g, s.server.cells);
    forall x | x in u.devices ensures u.devices[x].device == x && DeviceOk(u.devices[x], u.server, g, t) {
      if x != d { DeviceHistory(s.devices[x], s.server, s.history, g, t); }
    }
    RequestsStep(s, d, c, g, t);
    ExchangesStep(s, d, c, g, t);
  }

  lemma MovesReflexive(c: Client)
    ensures Moves(c, c)
  {
  }

  lemma RequestsStep(s: System, d: string, c: Client, g: History, t: Schema)
    requires RequestsOk(s, t) && d in s.devices && Moves(s.devices[d], c) && Extends(s.history, g)
    ensures RequestsOk(SetDevice(s, d, c).(history := g), t)
  {
    var u := SetDevice(s, d, c).(history := g);
    forall r | r in u.requests
      ensures PayloadOf(r).source in u.devices && RequestOk(r, u.devices[PayloadOf(r).source], u.server, g, t)
    {
      var x := PayloadOf(r).source;
      MovesReflexive(s.devices[x]);
      RequestMoves(r, s.devices[x], u.devices[x], s.server, s.history, g, t);
    }
  }

  lemma ExchangesStep(s: System, d: string, c: Client, g: History, t: Schema)
    requires ExchangesOk(s, t) && d in s.devices && Moves(s.devices[d], c) && Extends(s.history, g)
    ensures ExchangesOk(SetDevice(s, d, c).(history := g), t)
  {
    var u := SetDevice(s, d, c).(history := g);
    forall e | e in u.exchanges
      ensures SentIn(e).source in u.devices && ExchangeOk(e, u.devices[SentIn(e).source], u.server, g, t)
    {
      var x := SentIn(e).source;
      MovesReflexive(s.devices[x]);
      ExchangeMoves(e, s.devices[x], u.devices[x], s.server, s.history, g, t);
    }
  }

  lemma DevicesServer(s: System, u: State, t: Schema)
    requires Inv(s, t) && Grows(s.server, u)
    ensures DevicesOk(s.(server := u), t)
  {
    forall d | d in s.devices ensures s.devices[d].device == d && DeviceOk(s.devices[d], u, s.history, t) {
      DeviceServer(s.devices[d], s.server, u, s.history, t);
    }
  }

  lemma RequestsServer(s: System, u: State, t: Schema)
    requires Inv(s, t) && Grows(s.server, u)
    ensures RequestsOk(s.(server := u), t)
  {
    forall r | r in s.requests
      ensures PayloadOf(r).source in s.devices && RequestOk(r, s.devices[PayloadOf(r).source], u, s.history, t)
    {
      SentServer(PayloadOf(r), s.devices[PayloadOf(r).source], s.server, u, s.history, t);
    }
  }

  lemma ExchangesServer(s: System, u: State, t: Schema)
    requires Inv(s, t) && Grows(s.server, u)
    ensures ExchangesOk(s.(server := u), t)
  {
    forall e | e in s.exchanges
      ensures SentIn(e).source in s.devices && ExchangeOk(e, s.devices[SentIn(e).source], u, s.history, t)
    {
      ExchangeServer(e, s.devices[SentIn(e).source], s.server, u, s.history, t);
    }
  }

  /** A server step with a new exchange keeps the invariant. */
  lemma ServerStep(s: System, u: State, e: Exchange, t: Schema)
    requires Inv(s, t) && ServerOk(u, s.history, t) && Grows(s.server, u)
    requires SentIn(e).source in s.devices && ExchangeOk(e, s.devices[SentIn(e).source], u, s.history, t)
    ensures Inv(s.(server := u, exchanges := s.exchanges + {e}), t)
  {
    DevicesServer(s, u, t);
    RequestsServer(s, u, t);
    ExchangesServer(s, u, t);
    ExchangeAdded(s.(server := u), e, t);
  }

  lemma ExchangeAdded(s: System, e: Exchange, t: Schema)
    requires Inv(s, t) && SentIn(e).source in s.devices && ExchangeOk(e, s.devices[SentIn(e).source], s.server, s.history, t)
    ensures Inv(s.(exchanges := s.exchanges + {e}), t)
  {
    var v := s.(exchanges := s.exchanges + {e});
    SamePopulation(s, v, t);
    PoolGrows(s, v, e, t);
  }

  ghost predicate ExchangePlaced(s: System, e: Exchange, t: Schema) {
    SentIn(e).source in s.devices && ExchangeOk(e, s.devices[SentIn(e).source], s.server, s.history, t)
  }

  lemma PoolGrows(s: System, v: System, e: Exchange, t: Schema)
    requires ExchangesOk(s, t) && v == s.(exchanges := v.exchanges) && v.exchanges == s.exchanges + {e}
    requires ExchangePlaced(s, e, t)
    ensures ExchangesOk(v, t)
  {
    forall x | x in v.exchanges ensures ExchangePlaced(v, x, t) {
      if x != e { PlacedOf(s, x, t); }
      SamePlaced(s, v, x, t);
    }
    AllPlaced(v, t);
  }

  lemma PlacedOf(s: System, x: Exchange, t: Schema)
    requires ExchangesOk(s, t) && x in s.exchanges
    ensures ExchangePlaced(s, x, t)
  {
  }

  lemma SamePlaced(s: System, v: System, x: Exchange, t: Schema)
    requires ExchangePlaced(s, x, t) && v == s.(exchanges := v.exchanges)
    ensures ExchangePlaced(v, x, t)
  {
  }

  lemma AllPlaced(s: System, t: Schema)
    requires forall x :: x in s.exchanges ==> ExchangePlaced(s, x, t)
    ensures ExchangesOk(s, t)
  {
  }

  lemma SamePopulation(s: System, v: System, t: Schema)
    requires DevicesOk(s, t) && RequestsOk(s, t) && v == s.(exchanges := v.exchanges)
    ensures DevicesOk(v, t) && RequestsOk(v, t)
  {
  }
}
