/** Leases and epochs over whole runs: devices with at most one outstanding
    synchronization, lost and duplicated messages, lease expiry, epoch rotation,
    and restoring an older backup followed by rotation. */
module PostgresEpoch {
  import opened Names
  import opened Cells
  import opened Payload
  import opened Server
  import opened ServerFacts
  import opened Client
  import opened ClientFacts
  import opened Conservation
  import opened SystemProofs
  import opened Postgres

  /** The database: `lineage` are the epochs read since its data last diverged,
      `epochs` and `tokens` every identifier ever drawn. */
  datatype Site = Site(server: Tenant, lineage: set<string>, epochs: set<string>, tokens: set<string>)

  datatype Answer = Answer(sent: SyncPayload, response: SyncPayload)

  datatype Node = Node(client: Client, waiting: Option<SyncPayload>)

  datatype Fleet = Fleet(
    site: Site,
    backups: set<Tenant>,
    nodes: map<string, Node>,
    requests: set<SyncPayload>,
    answers: set<Answer>)

  function Launch(epoch: string): Fleet {
    Fleet(Site(Tenant(EMPTY, map[], epoch), {epoch}, {epoch}, {}), {}, map[], {}, {})
  }

  datatype Action =
    | Enroll(device: string)
    | Edit(device: string, op: LocalOp)
    | Ask(device: string)
    | GiveUp(device: string)
    | Rewind(device: string)
    | Serve(sent: SyncPayload, security: Security, next: Draw, epoch: string, uuid: string)
    | Receive(answer: Answer)
    | Expire(inactive: set<string>)
    | Rotate(newEpoch: string)
    | Backup
    | Restore(copy: Tenant, newEpoch: string)

  // --- Steps -----------------------------------------------------------

  function SetNode(f: Fleet, d: string, n: Node): Fleet {
    f.(nodes := f.nodes[d := n])
  }

  ghost function StepEdit(f: Fleet, d: string, op: LocalOp, env: Env): Fleet {
    if d !in f.nodes then f
    else
      match Apply(f.nodes[d].client, op, env.schema)
      case Err => f
      case Ok(c) => SetNode(f, d, f.nodes[d].(client := c))
  }

  /** A sync starts only when none is outstanding. */
  ghost function StepAsk(f: Fleet, d: string, env: Env): Fleet {
    if d !in f.nodes || f.nodes[d].waiting.Some? then f
    else
      match LocalDelta(f.nodes[d].client, env.schema)
      case Err => f
      case Ok(p) => SetNode(f, d, f.nodes[d].(waiting := Some(p))).(requests := f.requests + {p})
  }

  function Served(s: Site, t: Tenant, uuid: string): Site {
    s.(server := t, tokens := s.tokens + {uuid})
  }

  /** Any request ever sent may reach the server, now or again. The transaction reads
      some epoch of the present history, and draws a token never drawn before. */
  ghost function StepServe(f: Fleet, p: SyncPayload, sec: Security, next: Draw, epoch: string, uuid: string, env: Env): Fleet {
    if p !in f.requests || !Increasing(next) || epoch !in f.site.lineage || uuid in f.site.tokens then f
    else
      match MergeTenant(f.site.server, p, p.source, sec, next, epoch, uuid, env)
      case Err => f
      case Ok(a) => f.(site := Served(f.site, a.tenant, uuid), answers := f.answers + {Answer(p, a.response)})
  }

  /** A device completes only the sync it is waiting for. */
  ghost function StepReceive(f: Fleet, a: Answer, env: Env): Fleet {
    var d := a.sent.source;
    if a !in f.answers || d !in f.nodes || f.nodes[d].waiting != Some(a.sent) then f
    else
      match CompleteSync(f.nodes[d].client, a.sent, a.response, env.schema)
      case Err => f
      case Ok(c) => SetNode(f, d, Node(c, None))
  }

  function Rotated(s: Site, newEpoch: string): Site {
    Site(RotateEpoch(s.server, newEpoch), s.lineage + {newEpoch}, s.epochs + {newEpoch}, s.tokens)
  }

  /** A backup replaces the data; rotation follows before anything is served. */
  function Restored(s: Site, copy: Tenant, newEpoch: string): Site {
    Site(RotateEpoch(copy, newEpoch), {newEpoch}, s.epochs + {newEpoch}, s.tokens)
  }

  ghost function Step(f: Fleet, a: Action, env: Env): Fleet {
    match a
    case Enroll(d) =>
      if ValidIdentifier(d) && d != SERVER_DEVICE && d !in f.nodes then SetNode(f, d, Node(Fresh(d), None)) else f
    case Edit(d, op) => StepEdit(f, d, op, env)
    case Ask(d) => StepAsk(f, d, env)
    case GiveUp(d) => if d in f.nodes then SetNode(f, d, f.nodes[d].(waiting := None)) else f
    case Rewind(d) => if d in f.nodes then SetNode(f, d, f.nodes[d].(client := ResetCursor(f.nodes[d].client))) else f
    case Serve(p, sec, next, epoch, uuid) => StepServe(f, p, sec, next, epoch, uuid, env)
    case Receive(answer) => StepReceive(f, answer, env)
    case Expire(inactive) => f.(site := f.site.(server := ExpireLeases(f.site.server, inactive)))
    case Rotate(newEpoch) => if newEpoch in f.site.epochs then f else f.(site := Rotated(f.site, newEpoch))
    case Backup => f.(backups := f.backups + {f.site.server})
    case Restore(copy, newEpoch) =>
      if copy !in f.backups || newEpoch in f.site.epochs then f else f.(site := Restored(f.site, copy, newEpoch))
  }

  ghost function Run(f: Fleet, actions: seq<Action>, env: Env): Fleet
    decreases |actions|
  {
    if actions == [] then f
    else Step(Run(f, actions[..|actions| - 1], env), actions[|actions| - 1], env)
  }

  ghost predicate Reachable(f: Fleet, env: Env) {
    exists epoch, actions :: f == Run(Launch(epoch), actions, env)
  }

  // --- Invariant -------------------------------------------------------

  /** What a device presents to the server. */
  datatype Credential = Credential(token: Option<string>, epoch: Option<string>, cursor: int)

  function Presented(p: SyncPayload): Credential {
    Credential(p.token, p.epoch, p.cursor)
  }

  function Stored(c: Client): Credential {
    Credential(c.token, c.epoch, c.cursor)
  }

  ghost predicate KnownNames(x: Credential, s: Site) {
    (x.epoch.Some? ==> x.epoch.value in s.epochs) && (x.token.Some? ==> x.token.value in s.tokens)
  }

  ghost predicate InLineage(x: Credential, s: Site) {
    x.epoch.Some? && x.epoch.value in s.lineage
  }

  /** A credential of the present history covers its cursor. */
  ghost predicate Covered(c: Client, x: Credential, s: Site) {
    InLineage(x, s) ==> x.cursor <= s.server.core.seqNo && Covers(c, s.server.core, x.cursor)
  }

  function HoldsLease(d: string, x: Credential, s: Site): bool {
    d in s.server.leases && x.token == Some(s.server.leases[d].token) && x.epoch == Some(s.server.leases[d].epoch)
  }

  /** The lease whose token and epoch a credential names also covers its cursor. */
  ghost predicate Vouched(d: string, x: Credential, s: Site) {
    HoldsLease(d, x, s) && InLineage(x, s) ==>
      x.cursor <= s.server.leases[d].top && x.cursor <= Highest(s.server.core.cellSeq)
  }

  ghost predicate CredentialOk(c: Client, x: Credential, s: Site) {
    KnownNames(x, s) && Covered(c, x, s) && Vouched(c.device, x, s)
  }

  ghost predicate NodeOk(n: Node, s: Site, t: Schema) {
    && Sound(n.client, t) && n.client.scopes == map[]
    && CredentialOk(n.client, Stored(n.client), s)
    && (n.waiting.Some? ==>
          n.client.cursor == 0 || Stored(n.client) == Presented(n.waiting.value))
  }

  ghost predicate RequestOk(p: SyncPayload, c: Client, s: Site) {
    4 <= p.protocol && 0 <= p.cursor && CredentialOk(c, Presented(p), s)
  }

  ghost predicate PageOk(p: SyncPayload, r: SyncPayload, s: Site) {
    InLineage(Presented(r), s) ==>
      && r.cursor <= s.server.core.seqNo
      && PageHolds(s.server.core, PageStart(p, r), r.cursor, CellsOf(r.changes))
      && (!r.cursorReset && p.cursor != 0 ==> p.token == r.token && p.epoch == r.epoch)
  }

  ghost predicate AnswerOk(a: Answer, d: string, s: Site) {
    && KnownNames(Presented(a.response), s)
    && 0 <= a.response.cursor
    && PageOk(a.sent, a.response, s)
    && Vouched(d, Presented(a.response), s)
  }

  ghost predicate SiteOk(s: Site) {
    && Sane(s.server) && s.lineage <= s.epochs
    && (forall d :: d in s.server.leases ==> s.server.leases[d].token in s.tokens)
  }

  ghost predicate NodesOk(f: Fleet, t: Schema) {
    forall d :: d in f.nodes ==> f.nodes[d].client.device == d && NodeOk(f.nodes[d], f.site, t)
  }

  ghost predicate RequestsOk(f: Fleet) {
    forall p :: p in f.requests ==> p.source in f.nodes && RequestOk(p, f.nodes[p.source].client, f.site)
  }

  ghost predicate AnswersOk(f: Fleet) {
    forall a :: a in f.answers ==> a.sent in f.requests && AnswerOk(a, a.sent.source, f.site)
  }

  ghost predicate WaitingSent(f: Fleet) {
    forall d :: d in f.nodes && f.nodes[d].waiting.Some? ==> f.nodes[d].waiting.value in f.requests
  }

  ghost predicate Inv(f: Fleet, t: Schema) {
    && SiteOk(f.site) && (forall b :: b in f.backups ==> Sane(b))
    && NodesOk(f, t) && RequestsOk(f) && AnswersOk(f) && WaitingSent(f)
  }

  // --- Frames ----------------------------------------------------------

  /** The new site serves no old epoch outside the old history, keeps growing the data
      of that history, and renews leases under their token or under a new one. */
  ghost predicate Evolves(s: Site, t: Site) {
    && s.epochs <= t.epochs && s.tokens <= t.tokens
    && (forall e :: e in t.lineage && e in s.epochs ==> e in s.lineage && Grows(s.server.core, t.server.core))
    && (forall d :: d in t.server.leases && t.server.leases[d].token in s.tokens ==> LeaseKept(s.server, t.server, d))
  }

  ghost predicate LeaseKept(s: Tenant, t: Tenant, d: string) {
    && d in t.leases && d in s.leases
    && t.leases[d].token == s.leases[d].token && t.leases[d].epoch == s.leases[d].epoch
    && s.leases[d].top <= t.leases[d].top
  }

  lemma HighestGrows(s: State, t: State)
    requires Valid(s) && Valid(t) && Grows(s, t)
    ensures Highest(s.cellSeq) <= Highest(t.cellSeq)
  {
    if Highest(s.cellSeq) != 0 {
      var k :| k in s.cellSeq && s.cellSeq[k] == Highest(s.cellSeq);
      assert k in s.cells;
      assert Holds(t.cells, k, s.cells[k].version);
      assert NewerOrSame(s, t, k);
    }
  }

  lemma VouchedEvolves(d: string, x: Credential, s: Site, t: Site)
    requires KnownNames(x, s) && Vouched(d, x, s) && Evolves(s, t) && Sane(s.server) && Sane(t.server)
    ensures Vouched(d, x, t)
  {
    if HoldsLease(d, x, t) && InLineage(x, t) {
      assert LeaseKept(s.server, t.server, d);
      HighestGrows(s.server.core, t.server.core);
    }
  }

  lemma CredentialEvolves(c: Client, x: Credential, s: Site, t: Site)
    requires CredentialOk(c, x, s) && Evolves(s, t) && Sane(s.server) && Sane(t.server)
    ensures CredentialOk(c, x, t)
  {
    VouchedEvolves(c.device, x, s, t);
    if InLineage(x, t) { CoversServer(c, s.server.core, t.server.core, x.cursor); }
  }

  lemma AnswerEvolves(a: Answer, d: string, s: Site, t: Site)
    requires AnswerOk(a, d, s) && Evolves(s, t) && Sane(s.server) && Sane(t.server)
    ensures AnswerOk(a, d, t)
  {
    VouchedEvolves(d, Presented(a.response), s, t);
    if InLineage(Presented(a.response), t) {
      PageHoldsServer(s.server.core, t.server.core, PageStart(a.sent, a.response), a.response.cursor, CellsOf(a.response.changes));
    }
  }

  /** A change at the site alone keeps the invariant when the site evolves. */
  lemma SiteKeeps(f: Fleet, s: Site, t: Schema)
    requires Inv(f, t) && Evolves(f.site, s) && SiteOk(s)
    ensures Inv(f.(site := s), t)
  {
    var g := f.(site := s);
    forall d | d in g.nodes ensures NodeOk(g.nodes[d], s, t) {
      CredentialEvolves(g.nodes[d].client, Stored(g.nodes[d].client), f.site, s);
    }
    forall p | p in g.requests ensures RequestOk(p, g.nodes[p.source].client, s) {
      CredentialEvolves(g.nodes[p.source].client, Presented(p), f.site, s);
    }
    forall a | a in g.answers ensures AnswerOk(a, a.sent.source, s) {
      AnswerEvolves(a, a.sent.source, f.site, s);
    }
  }

  lemma CredentialLog(c: Client, d: Client, x: Credential, s: Site)
    requires CredentialOk(c, x, s) && LogGrows(c, d) && d.device == c.device
    ensures CredentialOk(d, x, s)
  {
    if InLineage(x, s) { CoversLog(c, d, s.server.core, x.cursor); }
  }

  /** A change of one device alone keeps the invariant when its log only grows. */
  lemma NodeKeeps(f: Fleet, d: string, n: Node, t: Schema)
    requires Inv(f, t) && d in f.nodes && NodeOk(n, f.site, t)
    requires n.client.device == d && LogGrows(f.nodes[d].client, n.client)
    requires n.waiting.Some? ==> n.waiting.value in f.requests
    ensures Inv(SetNode(f, d, n), t)
  {
    NodeRequests(f, d, n);
  }

  lemma NodeRequests(f: Fleet, d: string, n: Node)
    requires RequestsOk(f) && d in f.nodes && f.nodes[d].client.device == d
    requires n.client.device == d && LogGrows(f.nodes[d].client, n.client)
    ensures RequestsOk(SetNode(f, d, n))
  {
    var g := SetNode(f, d, n);
    forall p | p in g.requests ensures RequestOk(p, g.nodes[p.source].client, g.site) {
      if p.source == d { CredentialLog(f.nodes[d].client, n.client, Presented(p), f.site); }
    }
  }

  // --- Device steps ----------------------------------------------------

  lemma SameLog(c: Client, d: Client)
    requires d.log == c.log
    ensures LogGrows(c, d)
  {
  }

  lemma EnrollKeeps(f: Fleet, d: string, t: Schema)
    requires Inv(f, t) && ValidIdentifier(d) && d != SERVER_DEVICE && d !in f.nodes
    ensures Inv(SetNode(f, d, Node(Fresh(d), None)), t)
  {
    FreshNode(d, f.site, t);
    var g := SetNode(f, d, Node(Fresh(d), None));
    assert NodesOk(g, t) && RequestsOk(g) && AnswersOk(g) && WaitingSent(g);
  }

  lemma FreshNode(d: string, s: Site, t: Schema)
    requires ValidIdentifier(d) && d != SERVER_DEVICE
    ensures NodeOk(Node(Fresh(d), None), s, t)
  {
    FreshSound(d, t);
  }

  lemma EditKeeps(f: Fleet, d: string, op: LocalOp, env: Env)
    requires Inv(f, env.schema) && WellFormed(env.schema)
    ensures Inv(StepEdit(f, d, op, env), env.schema)
  {
    if d in f.nodes && Apply(f.nodes[d].client, op, env.schema).Ok? {
      var c := f.nodes[d].client;
      var e := Apply(c, op, env.schema).value;
      ApplySound(c, op, env.schema);
      ApplySteps(c, op, env.schema);
      LocalGrows(c, e, env.schema);
      CredentialLog(c, e, Stored(c), f.site);
      NodeKeeps(f, d, f.nodes[d].(client := e), env.schema);
      assert StepEdit(f, d, op, env) == SetNode(f, d, f.nodes[d].(client := e));
    }
  }

  lemma AskKeeps(f: Fleet, d: string, env: Env)
    requires Inv(f, env.schema)
    ensures Inv(StepAsk(f, d, env), env.schema)
  {
    if d in f.nodes && f.nodes[d].waiting.None? && LocalDelta(f.nodes[d].client, env.schema).Ok? {
      var c := f.nodes[d].client;
      var p := DeltaOf(c, env.schema);
      assert Presented(p) == Stored(c) && p.source == d;
      var g := f.(requests := f.requests + {p});
      assert Inv(g, env.schema);
      SameLog(c, c);
      NodeKeeps(g, d, f.nodes[d].(waiting := Some(p)), env.schema);
      assert StepAsk(f, d, env) == SetNode(g, d, f.nodes[d].(waiting := Some(p)));
    }
  }

  lemma RewindKeeps(f: Fleet, d: string, t: Schema)
    requires Inv(f, t) && d in f.nodes
    ensures Inv(SetNode(f, d, f.nodes[d].(client := ResetCursor(f.nodes[d].client))), t)
  {
    var c := f.nodes[d].client;
    ResetSound(c, t);
    SameLog(c, ResetCursor(c));
    NodeKeeps(f, d, f.nodes[d].(client := ResetCursor(c)), t);
  }

  lemma GiveUpKeeps(f: Fleet, d: string, t: Schema)
    requires Inv(f, t) && d in f.nodes
    ensures Inv(SetNode(f, d, f.nodes[d].(waiting := None)), t)
  {
    SameLog(f.nodes[d].client, f.nodes[d].client);
    NodeKeeps(f, d, f.nodes[d].(waiting := None), t);
  }

  // --- Completing a sync ----------------------------------------------

  lemma ZeroCovered(c: Client, s: State)
    requires Valid(s)
    ensures Covers(c, s, 0)
  {
    forall k ensures CoversAt(c, s, 0, k) {
    }
  }

  /** Completing an answer whose page starts within what the device covers. */
  lemma CompletedCovers(c: Client, p: SyncPayload, r: SyncPayload, s: State, t: Schema)
    requires Sound(c, t) && c.scopes == map[] && CompleteSync(c, p, r, t).Ok?
    requires Covers(c, s, PageStart(p, r)) && PageHolds(s, PageStart(p, r), r.cursor, CellsOf(r.changes))
    requires r.cursorReset || Covers(c, s, c.cursor)
    ensures var d := CompleteSync(c, p, r, t).value; Covers(d, s, d.cursor)
  {
    var b := Cleanup(Acknowledge(c, CellsOf(p.changes), r.rejections));
    var m, ids := CellsOf(r.changes), RowSet(r.changes);
    AcknowledgeGrows(c, CellsOf(p.changes), r.rejections, t);
    CompleteShape(c, p, r, t);
    CoversLog(c, b, s, PageStart(p, r));
    CoversPage(b, m, ids, t, s, PageStart(p, r), r.cursor);
    var e := Absorbed(b, m, ids, t);
    if !r.cursorReset {
      CoversLog(c, b, s, c.cursor);
      AbsorbedGrows(b, m, ids, t);
      CoversLog(b, e, s, c.cursor);
    }
    SameLog(e, CompleteSync(c, p, r, t).value);
    CoversLog(e, CompleteSync(c, p, r, t).value, s, CompleteSync(c, p, r, t).value.cursor);
  }

  lemma CompletedGrows(c: Client, p: SyncPayload, r: SyncPayload, t: Schema)
    requires Sound(c, t) && c.scopes == map[] && CompleteSync(c, p, r, t).Ok?
    ensures var d := CompleteSync(c, p, r, t).value;
      && LogGrows(c, d) && Sound(d, t) && d.scopes == map[] && d.device == c.device
      && Stored(d) == Next(c, r)
  {
    var b := Cleanup(Acknowledge(c, CellsOf(p.changes), r.rejections));
    CompleteSyncSound(c, p, r, t);
    AcknowledgeGrows(c, CellsOf(p.changes), r.rejections, t);
    CompleteShape(c, p, r, t);
    AbsorbedGrows(b, CellsOf(r.changes), RowSet(r.changes), t);
    SameLog(Absorbed(b, CellsOf(r.changes), RowSet(r.changes), t), CompleteSync(c, p, r, t).value);
    LogGrowsTransitive(c, b, CompleteSync(c, p, r, t).value);
  }

  /** What the device stores once the answer is applied. */
  function Next(c: Client, r: SyncPayload): Credential {
    Credential(r.token, r.epoch, if r.cursorReset then r.cursor else Max(c.cursor, r.cursor))
  }

  lemma NextVouched(c: Client, a: Answer, s: Site)
    requires c.cursor == 0 || Stored(c) == Presented(a.sent)
    requires Vouched(c.device, Presented(a.sent), s) && AnswerOk(a, c.device, s)
    ensures KnownNames(Next(c, a.response), s) && Vouched(c.device, Next(c, a.response), s)
  {
    var x, p, r := Next(c, a.response), a.sent, a.response;
    if InLineage(x, s) && x.cursor != r.cursor {
      assert c.cursor == p.cursor != 0;
      assert p.token == r.token && p.epoch == r.epoch;
    }
  }

  /** The device covers where the page starts and, unless it is reset, where it stands. */
  lemma StartCovered(c: Client, a: Answer, s: Site)
    requires SiteOk(s) && (c.cursor == 0 || Stored(c) == Presented(a.sent))
    requires Covered(c, Presented(a.sent), s) && PageOk(a.sent, a.response, s)
    requires InLineage(Presented(a.response), s)
    ensures Covers(c, s.server.core, PageStart(a.sent, a.response))
    ensures a.response.cursorReset || Covers(c, s.server.core, c.cursor)
    ensures Next(c, a.response).cursor <= s.server.core.seqNo
  {
    ZeroCovered(c, s.server.core);
  }

  /** The credential stored after a completed sync is in order. */
  lemma ReceivedOk(n: Node, a: Answer, s: Site, t: Schema)
    requires NodeOk(n, s, t) && n.waiting == Some(a.sent) && SiteOk(s)
    requires RequestOk(a.sent, n.client, s) && AnswerOk(a, n.client.device, s)
    requires CompleteSync(n.client, a.sent, a.response, t).Ok?
    ensures NodeOk(Node(CompleteSync(n.client, a.sent, a.response, t).value, None), s, t)
  {
    var d := CompleteSync(n.client, a.sent, a.response, t).value;
    CompletedGrows(n.client, a.sent, a.response, t);
    NextVouched(n.client, a, s);
    if InLineage(Presented(a.response), s) {
      StartCovered(n.client, a, s);
      CompletedCovers(n.client, a.sent, a.response, s.server.core, t);
    }
    assert Covered(d, Stored(d), s);
  }

  lemma ReceiveKeeps(f: Fleet, a: Answer, env: Env)
    requires Inv(f, env.schema)
    ensures Inv(StepReceive(f, a, env), env.schema)
  {
    var d := a.sent.source;
    if a in f.answers && d in f.nodes && f.nodes[d].waiting == Some(a.sent)
       && CompleteSync(f.nodes[d].client, a.sent, a.response, env.schema).Ok? {
      var c := CompleteSync(f.nodes[d].client, a.sent, a.response, env.schema).value;
      ReceivedOk(f.nodes[d], a, f.site, env.schema);
      CompletedGrows(f.nodes[d].client, a.sent, a.response, env.schema);
      NodeKeeps(f, d, Node(c, None), env.schema);
      assert StepReceive(f, a, env) == SetNode(f, d, Node(c, None));
    }
  }

  // --- Server steps ----------------------------------------------------

  /** A renewed lease keeps its token and bound, or carries the newly drawn token. */
  lemma RenewedKept(s: Site, t: Tenant, device: string, cursor: int, epoch: string, uuid: string)
    requires SiteOk(s) && uuid !in s.tokens
    requires t.leases == s.server.leases[device := Renewed(LeaseOf(s.server, device), cursor, epoch, uuid)]
    ensures forall d :: d in t.leases ==> t.leases[d].token in s.tokens + {uuid}
    ensures forall d :: d in t.leases && t.leases[d].token in s.tokens ==> LeaseKept(s.server, t, d)
  {
  }

  lemma MergeEvolves(s: Site, p: SyncPayload, sec: Security, next: Draw, epoch: string, uuid: string, env: Env)
    requires SiteOk(s) && Increasing(next) && epoch in s.lineage && uuid !in s.tokens
    requires MergeTenant(s.server, p, p.source, sec, next, epoch, uuid, env).Ok?
    ensures var t := Served(s, MergeTenant(s.server, p, p.source, sec, next, epoch, uuid, env).value.tenant, uuid);
      SiteOk(t) && Evolves(s, t)
  {
    TenantGrows(s.server, p, p.source, sec, next, epoch, uuid, env);
    TenantLease(s.server, p, p.source, sec, next, epoch, uuid, env);
    var Answered(t, r) := MergeTenant(s.server, p, p.source, sec, next, epoch, uuid, env).value;
    RenewedKept(s, t, p.source, r.cursor, epoch, uuid);
    ServedEvolves(s, t, uuid);
  }

  lemma ServedEvolves(s: Site, t: Tenant, uuid: string)
    requires SiteOk(s) && Sane(t) && Grows(s.server.core, t.core)
    requires forall d :: d in t.leases ==> t.leases[d].token in s.tokens + {uuid}
    requires forall d :: d in t.leases && t.leases[d].token in s.tokens ==> LeaseKept(s.server, t, d)
    ensures SiteOk(Served(s, t, uuid)) && Evolves(s, Served(s, t, uuid))
  {
  }

  lemma MergePage(s: Tenant, p: SyncPayload, sec: Security, next: Draw, epoch: string, uuid: string, env: Env)
    requires Sane(s) && Increasing(next) && MergeTenant(s, p, p.source, sec, next, epoch, uuid, env).Ok?
    ensures var Answered(t, r) := MergeTenant(s, p, p.source, sec, next, epoch, uuid, env).value;
      PageHolds(t.core, PageStart(p, r), r.cursor, CellsOf(r.changes))
  {
    var Answered(t, r) := MergeTenant(s, p, p.source, sec, next, epoch, uuid, env).value;
    forall k | k in t.core.cells && k in t.core.cellSeq && PageStart(p, r) < t.core.cellSeq[k] <= r.cursor
      ensures Holds(CellsOf(r.changes), k, t.core.cells[k].version)
    {
      TenantPage(s, p, p.source, sec, next, epoch, uuid, env, k);
    }
  }

  lemma MergeAnswers(s: Site, p: SyncPayload, c: Client, sec: Security, next: Draw, epoch: string, uuid: string, env: Env)
    requires SiteOk(s) && Increasing(next) && epoch in s.lineage && uuid !in s.tokens
    requires RequestOk(p, c, s) && c.device == p.source
    requires MergeTenant(s.server, p, p.source, sec, next, epoch, uuid, env).Ok?
    ensures var a := MergeTenant(s.server, p, p.source, sec, next, epoch, uuid, env).value;
      AnswerOk(Answer(p, a.response), p.source, Served(s, a.tenant, uuid))
  {
    TenantLease(s.server, p, p.source, sec, next, epoch, uuid, env);
    MergePage(s.server, p, sec, next, epoch, uuid, env);
    var a := MergeTenant(s.server, p, p.source, sec, next, epoch, uuid, env).value;
    FreshAnswer(s, p, a.tenant, a.response, epoch, uuid);
  }

  lemma FreshAnswer(s: Site, p: SyncPayload, t: Tenant, r: SyncPayload, epoch: string, uuid: string)
    requires SiteOk(s) && 4 <= p.protocol && epoch in s.lineage
    requires r.cursorReset <==> !Admitted(LeaseOf(s.server, p.source), Highest(t.core.cellSeq), p, epoch)
    requires t.leases == s.server.leases[p.source := Renewed(LeaseOf(s.server, p.source), r.cursor, epoch, uuid)]
    requires r.epoch == Some(epoch) && r.token == Some(t.leases[p.source].token)
    requires 0 <= r.cursor <= Highest(t.core.cellSeq) <= t.core.seqNo
    requires PageHolds(t.core, PageStart(p, r), r.cursor, CellsOf(r.changes))
    ensures AnswerOk(Answer(p, r), p.source, Served(s, t, uuid))
  {
  }

  lemma ServeKeeps(f: Fleet, p: SyncPayload, sec: Security, next: Draw, epoch: string, uuid: string, env: Env)
    requires Inv(f, env.schema)
    ensures Inv(StepServe(f, p, sec, next, epoch, uuid, env), env.schema)
  {
    if p in f.requests && Increasing(next) && epoch in f.site.lineage && uuid !in f.site.tokens
       && MergeTenant(f.site.server, p, p.source, sec, next, epoch, uuid, env).Ok? {
      var a := MergeTenant(f.site.server, p, p.source, sec, next, epoch, uuid, env).value;
      var s := Served(f.site, a.tenant, uuid);
      MergeEvolves(f.site, p, sec, next, epoch, uuid, env);
      MergeAnswers(f.site, p, f.nodes[p.source].client, sec, next, epoch, uuid, env);
      SiteKeeps(f, s, env.schema);
      AnswerAdded(f.(site := s), Answer(p, a.response), env.schema);
      assert StepServe(f, p, sec, next, epoch, uuid, env) == f.(site := s).(answers := f.answers + {Answer(p, a.response)});
    }
  }

  lemma AnswerAdded(f: Fleet, a: Answer, t: Schema)
    requires Inv(f, t) && a.sent in f.requests && AnswerOk(a, a.sent.source, f.site)
    ensures Inv(f.(answers := f.answers + {a}), t)
  {
  }

  lemma ExpireKeeps(f: Fleet, inactive: set<string>, t: Schema)
    requires Inv(f, t)
    ensures Inv(f.(site := f.site.(server := ExpireLeases(f.site.server, inactive))), t)
  {
    GrowsReflexive(f.site.server.core);
    SiteKeeps(f, f.site.(server := ExpireLeases(f.site.server, inactive)), t);
  }

  lemma RotateKeeps(f: Fleet, newEpoch: string, t: Schema)
    requires Inv(f, t) && newEpoch !in f.site.epochs
    ensures Inv(f.(site := Rotated(f.site, newEpoch)), t)
  {
    GrowsReflexive(f.site.server.core);
    SiteKeeps(f, Rotated(f.site, newEpoch), t);
  }

  lemma RestoreKeeps(f: Fleet, copy: Tenant, newEpoch: string, t: Schema)
    requires Inv(f, t) && copy in f.backups && newEpoch !in f.site.epochs
    ensures Inv(f.(site := Restored(f.site, copy, newEpoch)), t)
  {
    SiteKeeps(f, Restored(f.site, copy, newEpoch), t);
  }

  lemma StepKeeps(f: Fleet, a: Action, env: Env)
    requires Inv(f, env.schema) && WellFormed(env.schema)
    ensures Inv(Step(f, a, env), env.schema)
  {
    match a
    case Enroll(d) =>
      if ValidIdentifier(d) && d != SERVER_DEVICE && d !in f.nodes { EnrollKeeps(f, d, env.schema); }
    case Edit(d, op) => EditKeeps(f, d, op, env);
    case Ask(d) => AskKeeps(f, d, env);
    case GiveUp(d) => if d in f.nodes { GiveUpKeeps(f, d, env.schema); }
    case Rewind(d) => if d in f.nodes { RewindKeeps(f, d, env.schema); }
    case Serve(p, sec, next, epoch, uuid) => ServeKeeps(f, p, sec, next, epoch, uuid, env);
    case Receive(answer) => ReceiveKeeps(f, answer, env);
    case Expire(inactive) => ExpireKeeps(f, inactive, env.schema);
    case Rotate(newEpoch) => if newEpoch !in f.site.epochs { RotateKeeps(f, newEpoch, env.schema); }
    case Backup => BackupKeeps(f, env.schema);
    case Restore(copy, newEpoch) =>
      if copy in f.backups && newEpoch !in f.site.epochs { RestoreKeeps(f, copy, newEpoch, env.schema); }
  }

  lemma BackupKeeps(f: Fleet, t: Schema)
    requires Inv(f, t)
    ensures Inv(f.(backups := f.backups + {f.site.server}), t)
  {
  }

  lemma {:induction false} RunsKeep(epoch: string, actions: seq<Action>, env: Env)
    requires WellFormed(env.schema)
    ensures Inv(Run(Launch(epoch), actions, env), env.schema)
    decreases |actions|
  {
    if actions != [] {
      var n := |actions| - 1;
      RunsKeep(epoch, actions[..n], env);
      StepKeeps(Run(Launch(epoch), actions[..n], env), actions[n], env);
    }
  }

  lemma ReachableOk(f: Fleet, env: Env)
    requires WellFormed(env.schema) && Reachable(f, env)
    ensures Inv(f, env.schema)
  {
    var epoch, actions :| f == Run(Launch(epoch), actions, env);
    RunsKeep(epoch, actions, env);
  }

  // --- Results ---------------------------------------------------------

  /** In every run, a device whose stored epoch belongs to the present history holds
      every server cell numbered up to its cursor. */
  lemma StoredCursorIsCovered(f: Fleet, d: string, env: Env)
    requires WellFormed(env.schema) && Reachable(f, env) && d in f.nodes
    requires InLineage(Stored(f.nodes[d].client), f.site)
    ensures Covers(f.nodes[d].client, f.site.server.core, f.nodes[d].client.cursor)
  {
    ReachableOk(f, env);
  }

  /** Serving any request of any run: a non-zero cursor that is accepted is covered by
      the device, up to date or not; a refused one restarts the page from zero. */
  lemma CursorCoveredOrRestarted(f: Fleet, p: SyncPayload, sec: Security, next: Draw, epoch: string, uuid: string, env: Env)
    requires WellFormed(env.schema) && Reachable(f, env) && p in f.requests
    requires Increasing(next) && epoch in f.site.lineage && uuid !in f.site.tokens
    requires MergeTenant(f.site.server, p, p.source, sec, next, epoch, uuid, env).Ok?
    ensures var Answered(t, r) := MergeTenant(f.site.server, p, p.source, sec, next, epoch, uuid, env).value;
      && p.source in f.nodes
      && (!r.cursorReset ==> Covers(f.nodes[p.source].client, t.core, p.cursor))
      && (r.cursorReset ==> PageHolds(t.core, 0, r.cursor, CellsOf(r.changes)))
  {
    ReachableOk(f, env);
    var c := f.nodes[p.source].client;
    var a := MergeTenant(f.site.server, p, p.source, sec, next, epoch, uuid, env).value;
    MergeAnswers(f.site, p, c, sec, next, epoch, uuid, env);
    TenantLease(f.site.server, p, p.source, sec, next, epoch, uuid, env);
    TenantGrows(f.site.server, p, p.source, sec, next, epoch, uuid, env);
    if p.cursor == 0 {
      ZeroCovered(c, a.tenant.core);
    } else if !a.response.cursorReset {
      CoversServer(c, f.site.server.core, a.tenant.core, p.cursor);
    }
  }

  /** A device's cursor is refused exactly when its lease expired, was replaced, or belongs
      to another epoch than the server's: the numeric bounds never refuse it. */
  lemma AcceptedExactlyWhenLeased(f: Fleet, p: SyncPayload, sec: Security, next: Draw, epoch: string, uuid: string, env: Env)
    requires WellFormed(env.schema) && Reachable(f, env) && p in f.requests && p.cursor != 0
    requires Increasing(next) && epoch in f.site.lineage && uuid !in f.site.tokens
    requires MergeTenant(f.site.server, p, p.source, sec, next, epoch, uuid, env).Ok?
    ensures var r := MergeTenant(f.site.server, p, p.source, sec, next, epoch, uuid, env).value.response;
      !r.cursorReset <==> HoldsLease(p.source, Presented(p), f.site) && p.epoch == Some(epoch)
  {
    ReachableOk(f, env);
    TenantLease(f.site.server, p, p.source, sec, next, epoch, uuid, env);
    TenantGrows(f.site.server, p, p.source, sec, next, epoch, uuid, env);
    var a := MergeTenant(f.site.server, p, p.source, sec, next, epoch, uuid, env).value;
    assert CredentialOk(f.nodes[p.source].client, Presented(p), f.site);
    HighestGrows(f.site.server.core, a.tenant.core);
  }

  // --- Leases last -----------------------------------------------------

  /** Nothing that revokes the lease of `d`: no expiry of it, no rotation, no restore;
      transactions read the epoch `e`. */
  predicate Calm(a: Action, d: string, e: string) {
    match a
    case Expire(inactive) => d !in inactive
    case Rotate(_) => false
    case Restore(_, _) => false
    case Serve(_, _, _, epoch, _) => epoch == e
    case _ => true
  }

  /** The device's lease is in force under this credential in the server's current epoch. */
  ghost predicate InForce(f: Fleet, d: string, x: Credential, e: string) {
    f.site.server.epoch == e && HoldsLease(d, x, f.site) && x.epoch == Some(e)
  }

  lemma ServingKeepsLease(f: Fleet, d: string, x: Credential, p: SyncPayload, sec: Security, next: Draw,
                          epoch: string, uuid: string, env: Env)
    requires SiteOk(f.site) && InForce(f, d, x, epoch)
    ensures InForce(StepServe(f, p, sec, next, epoch, uuid, env), d, x, epoch)
  {
    if p in f.requests && Increasing(next) && epoch in f.site.lineage && uuid !in f.site.tokens
       && MergeTenant(f.site.server, p, p.source, sec, next, epoch, uuid, env).Ok? {
      TenantLease(f.site.server, p, p.source, sec, next, epoch, uuid, env);
      var a := MergeTenant(f.site.server, p, p.source, sec, next, epoch, uuid, env).value;
      RenewalKeeps(f.site.server, a.tenant, p.source, a.response.cursor, epoch, uuid, d);
      assert StepServe(f, p, sec, next, epoch, uuid, env).site.server == a.tenant;
    } else {
      assert StepServe(f, p, sec, next, epoch, uuid, env) == f;
    }
  }

  /** Renewing a lease within its epoch keeps its token, and touches no other lease. */
  lemma RenewalKeeps(s: Tenant, t: Tenant, device: string, cursor: int, epoch: string, uuid: string, d: string)
    requires t.leases == s.leases[device := Renewed(LeaseOf(s, device), cursor, epoch, uuid)]
    requires d in s.leases && s.leases[d].epoch == epoch
    ensures LeaseKept(s, t, d)
  {
  }

  lemma CalmStepKeepsLease(f: Fleet, a: Action, d: string, x: Credential, e: string, env: Env)
    requires SiteOk(f.site) && InForce(f, d, x, e) && Calm(a, d, e)
    ensures InForce(Step(f, a, env), d, x, e)
  {
    match a
    case Serve(p, sec, next, epoch, uuid) => ServingKeepsLease(f, d, x, p, sec, next, epoch, uuid, env);
    case _ =>
  }

  /** A device's credential stays accepted through any further traffic, stale duplicates
      included, until its lease expires, the epoch rotates or a backup is restored. */
  lemma {:induction false} LeaseLasts(epoch: string, before: seq<Action>, after: seq<Action>, d: string, x: Credential, e: string, env: Env)
    requires WellFormed(env.schema)
    requires InForce(Run(Launch(epoch), before, env), d, x, e)
    requires forall i :: 0 <= i < |after| ==> Calm(after[i], d, e)
    ensures InForce(Run(Launch(epoch), before + after, env), d, x, e)
    decreases |after|
  {
    if after == [] {
      assert before + after == before;
    } else {
      var n := |after| - 1;
      LeaseLasts(epoch, before, after[..n], d, x, e, env);
      assert before + after == (before + after[..n]) + [after[n]];
      OneMore(epoch, before + after[..n], after[n], d, x, e, env);
    }
  }

  lemma OneMore(epoch: string, actions: seq<Action>, a: Action, d: string, x: Credential, e: string, env: Env)
    requires WellFormed(env.schema) && InForce(Run(Launch(epoch), actions, env), d, x, e) && Calm(a, d, e)
    ensures InForce(Run(Launch(epoch), actions + [a], env), d, x, e)
  {
    RunsKeep(epoch, actions, env);
    CalmStepKeepsLease(Run(Launch(epoch), actions, env), a, d, x, e, env);
    assert (actions + [a])[..|actions|] == actions;
  }

  // --- Revocation is final ---------------------------------------------

  /** The action takes the lease of `d` away: expiry, rotation, or a restored backup. */
  predicate Revokes(f: Fleet, a: Action, d: string) {
    match a
    case Expire(inactive) => d in inactive
    case Rotate(newEpoch) => newEpoch !in f.site.epochs
    case Restore(copy, newEpoch) => copy in f.backups && newEpoch !in f.site.epochs
    case _ => false
  }

  /** No lease of `d` bears one of these tokens. */
  ghost predicate Without(s: Site, d: string, tokens: set<string>) {
    tokens <= s.tokens && (d in s.server.leases ==> s.server.leases[d].token !in tokens)
  }

  lemma EvolvesReflexive(s: Site)
    requires SiteOk(s)
    ensures Evolves(s, s)
  {
    GrowsReflexive(s.server.core);
  }

  lemma StepEvolves(f: Fleet, a: Action, env: Env)
    requires Inv(f, env.schema)
    ensures Evolves(f.site, Step(f, a, env).site)
  {
    EvolvesReflexive(f.site);
    match a
    case Serve(p, sec, next, epoch, uuid) => ServeEvolves(f, p, sec, next, epoch, uuid, env);
    case Edit(d, op) => assert StepEdit(f, d, op, env).site == f.site;
    case Ask(d) => assert StepAsk(f, d, env).site == f.site;
    case Receive(answer) => assert StepReceive(f, answer, env).site == f.site;
    case Expire(_) => SiteStepEvolves(f, a, env);
    case Rotate(_) => SiteStepEvolves(f, a, env);
    case Restore(_, _) => SiteStepEvolves(f, a, env);
    case _ => OtherStepsKeepSite(f, a, env);
  }

  lemma SiteStepEvolves(f: Fleet, a: Action, env: Env)
    requires SiteOk(f.site) && (a.Expire? || a.Rotate? || a.Restore?)
    ensures Evolves(f.site, Step(f, a, env).site)
  {
    GrowsReflexive(f.site.server.core);
  }

  lemma OtherStepsKeepSite(f: Fleet, a: Action, env: Env)
    requires a.Enroll? || a.GiveUp? || a.Rewind? || a.Backup?
    ensures Step(f, a, env).site == f.site
  {
  }

  lemma ServeEvolves(f: Fleet, p: SyncPayload, sec: Security, next: Draw, epoch: string, uuid: string, env: Env)
    requires Inv(f, env.schema)
    ensures Evolves(f.site, StepServe(f, p, sec, next, epoch, uuid, env).site)
  {
    EvolvesReflexive(f.site);
    if p in f.requests && Increasing(next) && epoch in f.site.lineage && uuid !in f.site.tokens
       && MergeTenant(f.site.server, p, p.source, sec, next, epoch, uuid, env).Ok? {
      MergeEvolves(f.site, p, sec, next, epoch, uuid, env);
      var a := MergeTenant(f.site.server, p, p.source, sec, next, epoch, uuid, env).value;
      assert StepServe(f, p, sec, next, epoch, uuid, env).site == Served(f.site, a.tenant, uuid);
    } else {
      assert StepServe(f, p, sec, next, epoch, uuid, env) == f;
    }
  }

  lemma WithoutEvolves(s: Site, t: Site, d: string, tokens: set<string>)
    requires Without(s, d, tokens) && Evolves(s, t)
    ensures Without(t, d, tokens)
  {
    if d in t.server.leases && t.server.leases[d].token in s.tokens {
      assert LeaseKept(s.server, t.server, d);
    }
  }

  lemma RevokedWithout(f: Fleet, a: Action, d: string, env: Env)
    requires Inv(f, env.schema) && Revokes(f, a, d)
    ensures Without(Step(f, a, env).site, d, f.site.tokens)
  {
  }

  /** The tokens known when a lease is revoked never name a lease of that device again, in any run. */
  lemma {:induction false} TokensStayRevoked(epoch: string, before: seq<Action>, a: Action, after: seq<Action>, d: string, env: Env)
    requires WellFormed(env.schema) && Revokes(Run(Launch(epoch), before, env), a, d)
    ensures var f := Run(Launch(epoch), before, env);
      Without(Run(Launch(epoch), before + [a] + after, env).site, d, f.site.tokens)
    decreases |after|
  {
    var f := Run(Launch(epoch), before, env);
    if after == [] {
      RunsKeep(epoch, before, env);
      RevokedWithout(f, a, d, env);
      assert before + [a] + after == before + [a];
      assert (before + [a])[..|before|] == before;
    } else {
      var n := |after| - 1;
      TokensStayRevoked(epoch, before, a, after[..n], d, env);
      assert before + [a] + after == (before + [a] + after[..n]) + [after[n]];
      OneMoreWithout(epoch, before + [a] + after[..n], after[n], d, f.site.tokens, env);
    }
  }

  lemma OneMoreWithout(epoch: string, actions: seq<Action>, a: Action, d: string, tokens: set<string>, env: Env)
    requires WellFormed(env.schema) && Without(Run(Launch(epoch), actions, env).site, d, tokens)
    ensures Without(Run(Launch(epoch), actions + [a], env).site, d, tokens)
  {
    RunsKeep(epoch, actions, env);
    StepEvolves(Run(Launch(epoch), actions, env), a, env);
    assert (actions + [a])[..|actions|] == actions;
    WithoutEvolves(Run(Launch(epoch), actions, env).site, Run(Launch(epoch), actions + [a], env).site, d, tokens);
  }

  /** Expiry, rotation and restore are final: every request under a credential the device had before, served at
      any later time, is told to reset and gets the feed from zero. */
  lemma RevokedRequestsRestart(epoch: string, before: seq<Action>, a: Action, after: seq<Action>, f: Fleet, g: Fleet,
                               p: SyncPayload, sec: Security, next: Draw, read: string, uuid: string, env: Env)
    requires WellFormed(env.schema)
    requires f == Run(Launch(epoch), before, env) && Revokes(f, a, p.source) && KnownNames(Presented(p), f.site)
    requires g == Run(Launch(epoch), before + [a] + after, env) && p in g.requests && p.cursor != 0
    requires Increasing(next) && read in g.site.lineage && uuid !in g.site.tokens
    requires MergeTenant(g.site.server, p, p.source, sec, next, read, uuid, env).Ok?
    ensures var Answered(t, r) := MergeTenant(g.site.server, p, p.source, sec, next, read, uuid, env).value;
      r.cursorReset && PageHolds(t.core, 0, r.cursor, CellsOf(r.changes))
  {
    RevokedUnleased(epoch, before, a, after, f, g, p.source, Presented(p), env);
    RefusedRestarts(g, p, sec, next, read, uuid, env);
  }

  lemma RevokedUnleased(epoch: string, before: seq<Action>, a: Action, after: seq<Action>, f: Fleet, g: Fleet,
                        d: string, x: Credential, env: Env)
    requires WellFormed(env.schema)
    requires f == Run(Launch(epoch), before, env) && Revokes(f, a, d) && KnownNames(x, f.site)
    requires g == Run(Launch(epoch), before + [a] + after, env)
    ensures Reachable(g, env) && !HoldsLease(d, x, g.site)
  {
    TokensStayRevoked(epoch, before, a, after, d, env);
  }

  lemma RefusedRestarts(g: Fleet, p: SyncPayload, sec: Security, next: Draw, read: string, uuid: string, env: Env)
    requires WellFormed(env.schema) && Reachable(g, env) && p in g.requests && p.cursor != 0
    requires Increasing(next) && read in g.site.lineage && uuid !in g.site.tokens
    requires MergeTenant(g.site.server, p, p.source, sec, next, read, uuid, env).Ok?
    requires !HoldsLease(p.source, Presented(p), g.site)
    ensures var Answered(t, r) := MergeTenant(g.site.server, p, p.source, sec, next, read, uuid, env).value;
      r.cursorReset && PageHolds(t.core, 0, r.cursor, CellsOf(r.changes))
  {
    AcceptedExactlyWhenLeased(g, p, sec, next, read, uuid, env);
    CursorCoveredOrRestarted(g, p, sec, next, read, uuid, env);
  }
}
