/** Exactly which policies make delivery order irrelevant, rejections included. */
module PolicyOrder {
  import opened Names
  import opened Cells
  import opened Payload
  import opened Server
  import opened ServerFacts
  import opened MergeLaws

  // --- Deliveries ------------------------------------------------------

  ghost predicate Carries(d: Delivery, k: Key) {
    k in CellsOf(d.payload.changes)
  }

  ghost function CellAt(d: Delivery, k: Key): Cell
    requires Carries(d, k)
  {
    CellsOf(d.payload.changes)[k]
  }

  /** The delivery's policy admits its cell when `current` is stored. */
  ghost predicate Allows(d: Delivery, k: Key, current: Option<Cell>)
    requires Carries(d, k)
  {
    Admits(d.sec, d.payload.source, k, CellAt(d, k), current)
  }

  predicate Newer(base: Option<Cell>, c: Cell) {
    base.None? || Older(base.value.version, c.version)
  }

  /** Delivered first, the cell would be stored. */
  ghost predicate Good(base: map<Key, Cell>, d: Delivery, k: Key) {
    Carries(d, k) && Newer(Lookup(base, k), CellAt(d, k)) && Allows(d, k, Lookup(base, k))
  }

  /** Having `e`'s good cell stored does not change the fate of a newer cell of `d`, and of two
      good cells under one version at least one is let through against the other. */
  ghost predicate SteadyPair(base: map<Key, Cell>, e: Delivery, d: Delivery, k: Key) {
    Good(base, e, k) && Carries(d, k) && CellAt(e, k) != CellAt(d, k) ==>
      var (o, c) := (CellAt(e, k), CellAt(d, k));
      && (Older(o.version, c.version) ==> (Allows(d, k, Some(o)) <==> Allows(d, k, Lookup(base, k))))
      && (o.version == c.version && Good(base, d, k) ==> Allows(d, k, Some(o)) || Allows(e, k, Some(c)))
  }

  ghost predicate Steady(base: map<Key, Cell>, ds: set<Delivery>) {
    forall e, d, k :: e in ds && d in ds ==> SteadyPair(base, e, d, k)
  }

  ghost function Deliveries(ds: seq<Delivery>): set<Delivery> {
    set d | d in ds
  }

  // --- What a sequence keeps at one key --------------------------------

  /** What is stored is what was there, or a good delivered cell. */
  ghost predicate Originates(base: map<Key, Cell>, ds: set<Delivery>, k: Key, x: Option<Cell>) {
    x == Lookup(base, k) || exists e :: e in ds && Good(base, e, k) && x == Some(CellAt(e, k))
  }

  /** A good cell is stored, or overtaken, or shut out by a cell under its own version. */
  ghost predicate Settled(base: map<Key, Cell>, d: Delivery, k: Key, x: Option<Cell>) {
    Good(base, d, k) ==>
      && x.Some?
      && var c := CellAt(d, k);
         x.value == c || Older(c.version, x.value.version) || (x.value.version == c.version && !Allows(d, k, x))
  }

  ghost predicate AllSettled(base: map<Key, Cell>, ds: set<Delivery>, k: Key, x: Option<Cell>) {
    forall d :: d in ds ==> Settled(base, d, k, x)
  }

  /** The stored cell after `d` met stored cell `x`. */
  ghost function Met(d: Delivery, k: Key, x: Option<Cell>): Option<Cell> {
    if Carries(d, k) && Allows(d, k, x) then Some(Newest(x, CellAt(d, k))) else x
  }

  /** Two admitted values under one version make the merge fail. */
  ghost predicate NoClash(d: Delivery, k: Key, x: Option<Cell>) {
    Carries(d, k) && Allows(d, k, x) && x.Some? && x.value.version == CellAt(d, k).version ==> x.value == CellAt(d, k)
  }

  lemma MetOrigin(base: map<Key, Cell>, ds: set<Delivery>, all: set<Delivery>, d: Delivery, k: Key, x: Option<Cell>)
    requires Steady(base, all) && ds <= all && d in all
    requires Originates(base, ds, k, x)
    ensures Originates(base, ds + {d}, k, Met(d, k, x))
  {
    if x != Lookup(base, k) {
      var e :| e in ds && Good(base, e, k) && x == Some(CellAt(e, k));
      assert SteadyPair(base, e, d, k);
      if Carries(d, k) && Newer(Lookup(base, k), CellAt(e, k)) && Older(CellAt(e, k).version, CellAt(d, k).version) && Lookup(base, k).Some? {
        VersionTransitive(Lookup(base, k).value.version, CellAt(e, k).version, CellAt(d, k).version);
      }
    }
  }

  lemma MetSettlesNew(base: map<Key, Cell>, ds: set<Delivery>, all: set<Delivery>, d: Delivery, k: Key, x: Option<Cell>)
    requires Steady(base, all) && ds <= all && d in all
    requires Originates(base, ds, k, x) && NoClash(d, k, x)
    ensures Settled(base, d, k, Met(d, k, x))
  {
    if Good(base, d, k) && x != Lookup(base, k) {
      var e :| e in ds && Good(base, e, k) && x == Some(CellAt(e, k));
      assert SteadyPair(base, e, d, k);
      VersionTotal(CellAt(e, k).version, CellAt(d, k).version);
    }
  }

  lemma MetKeepsSettled(base: map<Key, Cell>, d: Delivery, e: Delivery, k: Key, x: Option<Cell>)
    requires Settled(base, e, k, x)
    ensures Settled(base, e, k, Met(d, k, x))
  {
    if Good(base, e, k) && Met(d, k, x) != x {
      VersionTransitive(CellAt(e, k).version, x.value.version, CellAt(d, k).version);
    }
  }

  // --- What a sequence keeps -------------------------------------------

  lemma MergeMeets(t: State, d: Delivery, env: Env, k: Key)
    requires Valid(t) && Merge(t, d.payload, d.payload.source, d.sec, env).Ok?
    ensures Lookup(Merge(t, d.payload, d.payload.source, d.sec, env).value.state.cells, k) == Met(d, k, Lookup(t.cells, k))
    ensures NoClash(d, k, Lookup(t.cells, k))
  {
    MergeIsFilteredJoin(t, d.payload, d.payload.source, d.sec, env, k);
    if Carries(d, k) {
      PayloadJudged(t, d.payload, d.payload.source, d.sec, env, k);
      JudgedJoin(d.sec, d.payload.source, Write(k, CellAt(d, k)), Lookup(t.cells, k));
    }
  }

  lemma {:induction false} SequenceSettles(s: State, ds: seq<Delivery>, all: set<Delivery>, env: Env, k: Key)
    requires Valid(s) && Steady(s.cells, all) && Deliveries(ds) <= all && MergeAll(s, ds, env).Ok?
    ensures var x := Lookup(MergeAll(s, ds, env).value.cells, k);
      Originates(s.cells, Deliveries(ds), k, x) && AllSettled(s.cells, Deliveries(ds), k, x)
    decreases |ds|
  {
    if ds != [] {
      var n := |ds| - 1;
      DeliveriesExtend(ds);
      SequenceSettles(s, ds[..n], all, env, k);
      var t := LastMerge(s, ds, env);
      MergeMeets(t, ds[n], env, k);
      MetStep(s.cells, Deliveries(ds[..n]), all, ds[n], k, Lookup(t.cells, k));
    }
  }

  lemma DeliveriesExtend(ds: seq<Delivery>)
    requires ds != []
    ensures Deliveries(ds) == Deliveries(ds[..|ds| - 1]) + {ds[|ds| - 1]}
  {
    var n := |ds| - 1;
    assert ds == ds[..n] + [ds[n]];
  }

  lemma MetStep(base: map<Key, Cell>, ds: set<Delivery>, all: set<Delivery>, d: Delivery, k: Key, x: Option<Cell>)
    requires Steady(base, all) && ds <= all && d in all
    requires Originates(base, ds, k, x) && AllSettled(base, ds, k, x) && NoClash(d, k, x)
    ensures Originates(base, ds + {d}, k, Met(d, k, x)) && AllSettled(base, ds + {d}, k, Met(d, k, x))
  {
    MetOrigin(base, ds, all, d, k, x);
    MetSettlesNew(base, ds, all, d, k, x);
    forall e | e in ds + {d} ensures Settled(base, e, k, Met(d, k, x)) {
      if e in ds { MetKeepsSettled(base, d, e, k, x); }
    }
  }

  /** What originates from and settles the same deliveries is the same. */
  lemma SettledSame(base: map<Key, Cell>, ds: set<Delivery>, k: Key, x: Option<Cell>, y: Option<Cell>)
    requires Steady(base, ds)
    requires Originates(base, ds, k, x) && AllSettled(base, ds, k, x)
    requires Originates(base, ds, k, y) && AllSettled(base, ds, k, y)
    ensures x == y
  {
    if x != Lookup(base, k) && y != Lookup(base, k) {
      var d :| d in ds && Good(base, d, k) && x == Some(CellAt(d, k));
      var e :| e in ds && Good(base, e, k) && y == Some(CellAt(e, k));
      assert Settled(base, d, k, y) && Settled(base, e, k, x);
      assert SteadyPair(base, d, e, k);
      VersionTotal(x.value.version, y.value.version);
    } else if x == Lookup(base, k) {
      BaseSame(base, ds, k, x, y);
    } else {
      BaseSame(base, ds, k, y, x);
    }
  }

  lemma BaseSame(base: map<Key, Cell>, ds: set<Delivery>, k: Key, x: Option<Cell>, y: Option<Cell>)
    requires x == Lookup(base, k) && AllSettled(base, ds, k, x)
    requires Originates(base, ds, k, y)
    ensures y == x
  {
    if y != x {
      var e :| e in ds && Good(base, e, k) && y == Some(CellAt(e, k));
      assert Settled(base, e, k, x);
      VersionTotal(x.value.version, CellAt(e, k).version);
    }
  }

  /** Any two successful sequences of the same deliveries, in any order and multiplicity,
      store the same cells when those deliveries are steady: rejections do no harm. */
  lemma SteadyDeliveriesCommute(s: State, xs: seq<Delivery>, ys: seq<Delivery>, env: Env)
    requires Valid(s) && Deliveries(xs) == Deliveries(ys) && Steady(s.cells, Deliveries(xs))
    requires MergeAll(s, xs, env).Ok? && MergeAll(s, ys, env).Ok?
    ensures MergeAll(s, xs, env).value.cells == MergeAll(s, ys, env).value.cells
  {
    var a, b := MergeAll(s, xs, env).value.cells, MergeAll(s, ys, env).value.cells;
    forall k ensures Lookup(a, k) == Lookup(b, k) {
      SequenceSettles(s, xs, Deliveries(xs), env, k);
      SequenceSettles(s, ys, Deliveries(xs), env, k);
      SettledSame(s.cells, Deliveries(xs), k, Lookup(a, k), Lookup(b, k));
    }
    LookupEqual(a, b);
  }

  // --- One policy ------------------------------------------------------

  /** A cell that some device may send. */
  ghost predicate Sendable(t: Schema, k: Key, c: Cell) {
    ValidIdentifier(k.row) && ValidCell(t, k, c) && c.version.device != SERVER_DEVICE
  }

  predicate Lets(sec: Security, k: Key, c: Cell, current: Option<Cell>) {
    Admits(sec, c.version.device, k, c, current)
  }

  ghost predicate Storable(sec: Security, base: map<Key, Cell>, t: Schema, k: Key, c: Cell) {
    Sendable(t, k, c) && Newer(Lookup(base, k), c) && Lets(sec, k, c, Lookup(base, k))
  }

  /** The policy's verdict on a newer cell is the same over every cell it lets through as over
      what was there; of two cells under one version it lets at least one through against the other. */
  ghost predicate SteadyAt(sec: Security, base: map<Key, Cell>, t: Schema, k: Key, o: Cell, c: Cell) {
    Storable(sec, base, t, k, o) && Sendable(t, k, c) && o != c ==>
      && (Older(o.version, c.version) ==> (Lets(sec, k, c, Some(o)) <==> Lets(sec, k, c, Lookup(base, k))))
      && (o.version == c.version && Lets(sec, k, c, Lookup(base, k)) ==> Lets(sec, k, c, Some(o)) || Lets(sec, k, o, Some(c)))
  }

  ghost predicate SteadyPolicy(sec: Security, base: map<Key, Cell>, t: Schema) {
    forall k, o, c :: SteadyAt(sec, base, t, k, o, c)
  }

  ghost predicate Under(sec: Security, ds: seq<Delivery>) {
    forall i :: 0 <= i < |ds| ==> ds[i].sec == sec
  }

  /** If two sequences have the same deliveries and both succeed, they store the same cells. */
  ghost predicate Agree(s: State, xs: seq<Delivery>, ys: seq<Delivery>, env: Env) {
    Deliveries(xs) == Deliveries(ys) && MergeAll(s, xs, env).Ok? && MergeAll(s, ys, env).Ok? ==>
      MergeAll(s, xs, env).value.cells == MergeAll(s, ys, env).value.cells
  }

  /** On a server that stores these cells, at any later clock, delivery order is irrelevant under the policy. */
  ghost predicate OrderFree(sec: Security, s: State, env: Env) {
    forall lamport: nat, xs, ys :: s.lamport <= lamport && Under(sec, xs) && Under(sec, ys) ==>
      Agree(s.(lamport := lamport), xs, ys, env)
  }

  lemma DeliveredSendable(s: State, ds: seq<Delivery>, i: nat, env: Env, k: Key)
    requires Valid(s) && MergeAll(s, ds, env).Ok? && i < |ds| && Carries(ds[i], k)
    ensures Sendable(env.schema, k, CellAt(ds[i], k)) && CellAt(ds[i], k).version.device == ds[i].payload.source
    decreases |ds|
  {
    var n := |ds| - 1;
    var t := LastMerge(s, ds, env);
    if i == n {
      var b, m := MergeParts(t, ds[n].payload, ds[n].payload.source, ds[n].sec, env);
      ValidRowsCells(env.schema, ds[n].payload.changes);
    } else {
      DeliveredSendable(s, ds[..n], i, env, k);
    }
  }

  lemma PolicySteadyPair(s: State, sec: Security, ds: seq<Delivery>, env: Env, i: nat, j: nat, k: Key)
    requires Valid(s) && MergeAll(s, ds, env).Ok? && Under(sec, ds) && SteadyPolicy(sec, s.cells, env.schema)
    requires i < |ds| && j < |ds|
    ensures SteadyPair(s.cells, ds[i], ds[j], k)
  {
    if Carries(ds[i], k) && Carries(ds[j], k) {
      DeliveredSendable(s, ds, i, env, k);
      DeliveredSendable(s, ds, j, env, k);
      SteadyCells(sec, s.cells, env.schema, ds[i], ds[j], k);
    }
  }

  lemma SteadyCells(sec: Security, base: map<Key, Cell>, t: Schema, e: Delivery, d: Delivery, k: Key)
    requires Carries(e, k) && Carries(d, k) && e.sec == sec && d.sec == sec
    requires Sendable(t, k, CellAt(e, k)) && CellAt(e, k).version.device == e.payload.source
    requires Sendable(t, k, CellAt(d, k)) && CellAt(d, k).version.device == d.payload.source
    requires SteadyPolicy(sec, base, t)
    ensures SteadyPair(base, e, d, k)
  {
    assert SteadyAt(sec, base, t, k, CellAt(e, k), CellAt(d, k));
  }

  lemma SteadyAgrees(sec: Security, s: State, xs: seq<Delivery>, ys: seq<Delivery>, env: Env)
    requires Valid(s) && SteadyPolicy(sec, s.cells, env.schema) && Under(sec, xs)
    ensures Agree(s, xs, ys, env)
  {
    if Deliveries(xs) == Deliveries(ys) && MergeAll(s, xs, env).Ok? && MergeAll(s, ys, env).Ok? {
      forall e, d, k | e in Deliveries(xs) && d in Deliveries(xs) ensures SteadyPair(s.cells, e, d, k) {
        var i :| 0 <= i < |xs| && xs[i] == e;
        var j :| 0 <= j < |xs| && xs[j] == d;
        PolicySteadyPair(s, sec, xs, env, i, j, k);
      }
      SteadyDeliveriesCommute(s, xs, ys, env);
    }
  }

  // --- Two deliveries that tell -----------------------------------------

  /** A request that carries one cell. */
  ghost function Single(k: Key, c: Cell, sec: Security, t: Schema): Delivery {
    Delivery(SyncPayload(PROTOCOL, t.fingerprint, c.version.device, c.version.clock, GroupRows(map[k := c]),
                         0, false, false, None, None, []), sec)
  }

  /** What matters of such a request. */
  ghost predicate Brings(d: Delivery, k: Key, c: Cell, sec: Security, t: Schema) {
    && d.sec == sec && d.payload.source == c.version.device && d.payload.lamport == c.version.clock
    && ValidRequest(d.payload, d.payload.source, t) && MaxObserved(d.payload) == d.payload.lamport
    && CellsOf(d.payload.changes) == map[k := c]
  }

  lemma SingleBrings(k: Key, c: Cell, sec: Security, t: Schema)
    requires Sendable(t, k, c)
    ensures Brings(Single(k, c, sec, t), k, c, sec, t)
  {
    var m, p := map[k := c], Single(k, c, sec, t).payload;
    SingleRow(k, c);
    GroupRowsRoundTrip(m);
    SingleCells(k, c, t);
    GroupedRequestValid(p, p.source, t, m);
    MaxObservedIsSource(p);
  }

  lemma SingleRow(k: Key, c: Cell)
    ensures |RowIds(map[k := c])| == 1 && |map[k := c]| == 1
  {
    assert RowIds(map[k := c]) == {k.row};
  }

  lemma SingleCells(k: Key, c: Cell, t: Schema)
    requires Sendable(t, k, c)
    ensures ValidCells(t, map[k := c]) && AuthoredBy(map[k := c], c.version.device) && ClocksWithin(map[k := c], c.version.clock)
  {
  }

  lemma JudgedFine(sec: Security, k: Key, c: Cell, current: Option<Cell>, t: Schema)
    requires Decides(sec) && WellFormed(t) && Sendable(t, k, c)
    requires current.Some? && current.value.version == c.version && current.value != c ==> !Lets(sec, k, c, current)
    ensures !Judge(sec, c.version.device, Write(k, c), current).Fault?
  {
    assert Decided(sec.authorize(c.version.device, k, c, current));
    assert Decided(sec.validate(c.version.device, k, c, current));
    if current.Some? { VersionTotal(current.value.version, c.version); }
  }

  /** The policy would let a second value through under the stored version. */
  predicate Clashes(sec: Security, k: Key, stored: Option<Cell>, c: Cell) {
    stored.Some? && stored.value.version == c.version && stored.value != c && Lets(sec, k, c, stored)
  }

  /** The stored cell after the policy and the versions have decided on `c`. */
  function Then(sec: Security, k: Key, x: Option<Cell>, c: Cell): Option<Cell> {
    if Lets(sec, k, c, x) then Some(Newest(x, c)) else x
  }

  /** The clock rules let a request made at the cell's clock through. */
  predicate Accepts(s: State, c: Cell) {
    ClockAdvanceOk(s.lamport, c.version.clock) && Max(s.lamport, c.version.clock) < U64_MAX
  }

  /** They do so for two such requests, in either order. */
  predicate AcceptsBoth(s: State, o: Cell, c: Cell) {
    Accepts(s, o) && Accepts(s, c) && Max(s.lamport, Max(o.version.clock, c.version.clock)) + 1 < U64_MAX
  }

  lemma BroughtAbsorbs(s: State, d: Delivery, k: Key, c: Cell, sec: Security, env: Env)
    requires Decides(sec) && WellFormed(env.schema) && Sendable(env.schema, k, c) && Brings(d, k, c, sec, env.schema)
    requires !Clashes(sec, k, Lookup(s.cells, k), c)
    ensures AbsorbAll(Start(s), RulingOf(sec, d.payload.source), Writes(d.payload.changes)).Ok?
  {
    var ws, who := Writes(d.payload.changes), RulingOf(sec, d.payload.source);
    WritesDistinct(d.payload.changes);
    OnlyWrite(ws, k, c);
    JudgedFine(sec, k, c, Lookup(s.cells, k), env.schema);
    assert JudgeIn(s.cells, who, Write(k, c)) == Judge(sec, d.payload.source, Write(k, c), Lookup(s.cells, k));
    AbsorbAllJoins(Start(s), who, ws);
  }

  lemma OnlyWrite(ws: seq<Write>, k: Key, c: Cell)
    requires DistinctKeys(ws) && AsMap(ws) == map[k := c]
    ensures forall i :: 0 <= i < |ws| ==> ws[i] == Write(k, c)
  {
    AsMapMembers(ws);
    forall i | 0 <= i < |ws| ensures ws[i] == Write(k, c) {
      assert ws[i] in ws;
    }
  }

  /** Merging one cell succeeds and leaves what the policy and the versions say. */
  lemma BroughtMerges(s: State, d: Delivery, k: Key, c: Cell, sec: Security, env: Env) returns (t: State)
    requires Valid(s) && Decides(sec) && WellFormed(env.schema) && Sendable(env.schema, k, c)
    requires Brings(d, k, c, sec, env.schema) && !Clashes(sec, k, Lookup(s.cells, k), c)
    requires Accepts(s, c)
    ensures Merge(s, d.payload, d.payload.source, d.sec, env).Ok?
    ensures t == Merge(s, d.payload, d.payload.source, d.sec, env).value.state
    ensures Valid(t) && t.lamport == Max(s.lamport, c.version.clock) + 1 && Lookup(t.cells, k) == Then(sec, k, Lookup(s.cells, k), c)
  {
    BroughtAbsorbs(s, d, k, c, sec, env);
    BroughtClock(s, d, k, c, sec, env);
    MergeGrows(s, d.payload, d.payload.source, sec, env);
    MergeIsFilteredJoin(s, d.payload, d.payload.source, sec, env, k);
    t := Merge(s, d.payload, d.payload.source, d.sec, env).value.state;
  }

  lemma BroughtClock(s: State, d: Delivery, k: Key, c: Cell, sec: Security, env: Env)
    requires Brings(d, k, c, sec, env.schema) && Sendable(env.schema, k, c) && Accepts(s, c)
    requires AbsorbAll(Start(s), RulingOf(sec, d.payload.source), Writes(d.payload.changes)).Ok?
    ensures Merge(s, d.payload, d.payload.source, d.sec, env).Ok?
  {
    MergeSucceeds(s, d.payload, d.payload.source, sec, env);
  }

  lemma MergeTwo(s: State, d: Delivery, e: Delivery, t: State, u: State, env: Env)
    requires Merge(s, d.payload, d.payload.source, d.sec, env).Ok? && t == Merge(s, d.payload, d.payload.source, d.sec, env).value.state
    requires Merge(t, e.payload, e.payload.source, e.sec, env).Ok? && u == Merge(t, e.payload, e.payload.source, e.sec, env).value.state
    ensures MergeAll(s, [d, e], env) == Ok(u)
  {
    assert [d][..0] == [] && MergeAll(s, [d], env) == Ok(t);
    assert [d, e][..1] == [d];
  }

  lemma SecondAccepted(s: State, o: Cell, c: Cell, t: State)
    requires AcceptsBoth(s, o, c) && t.lamport == Max(s.lamport, o.version.clock) + 1
    ensures Accepts(t, c)
  {
  }

  lemma PairMerges(s: State, x: Delivery, y: Delivery, k: Key, o: Cell, c: Cell, sec: Security, env: Env) returns (u: State)
    requires Valid(s) && Decides(sec) && WellFormed(env.schema) && AcceptsBoth(s, o, c)
    requires Sendable(env.schema, k, o) && Sendable(env.schema, k, c)
    requires Brings(x, k, o, sec, env.schema) && Brings(y, k, c, sec, env.schema)
    requires !Clashes(sec, k, Lookup(s.cells, k), o)
    requires !Clashes(sec, k, Then(sec, k, Lookup(s.cells, k), o), c)
    ensures MergeAll(s, [x, y], env) == Ok(u)
    ensures Lookup(u.cells, k) == Then(sec, k, Then(sec, k, Lookup(s.cells, k), o), c)
  {
    var t := BroughtMerges(s, x, k, o, sec, env);
    SecondAccepted(s, o, c, t);
    u := BroughtMerges(t, y, k, c, sec, env);
    MergeTwo(s, x, y, t, u, env);
  }

  /** Where the policy is not steady, the two orders leave different cells, and neither clashes. */
  lemma UnsteadyOrders(base: Option<Cell>, cells: map<Key, Cell>, t: Schema, k: Key, o: Cell, c: Cell, sec: Security)
    requires base == Lookup(cells, k) && !SteadyAt(sec, cells, t, k, o, c)
    ensures !Clashes(sec, k, base, o) && !Clashes(sec, k, Then(sec, k, base, o), c)
    ensures !Clashes(sec, k, base, c) && !Clashes(sec, k, Then(sec, k, base, c), o)
    ensures Then(sec, k, Then(sec, k, base, o), c) != Then(sec, k, Then(sec, k, base, c), o)
  {
    VersionTotal(o.version, c.version);
    if base.Some? {
      if Older(o.version, c.version) { VersionTransitive(base.value.version, o.version, c.version); }
      VersionTotal(base.value.version, o.version);
      VersionTotal(base.value.version, c.version);
    }
  }

  lemma PairSwapped(x: Delivery, y: Delivery, sec: Security)
    requires x.sec == sec && y.sec == sec
    ensures Deliveries([x, y]) == Deliveries([y, x]) && Under(sec, [x, y]) && Under(sec, [y, x])
  {
    assert Deliveries([x, y]) == {x, y} == Deliveries([y, x]);
  }

  /** Where the policy is not steady, two deliveries in two orders store different cells. */
  lemma UnsteadyDiffers(s: State, x: Delivery, y: Delivery, k: Key, o: Cell, c: Cell, sec: Security, env: Env)
    requires Valid(s) && Decides(sec) && WellFormed(env.schema) && AcceptsBoth(s, o, c)
    requires !SteadyAt(sec, s.cells, env.schema, k, o, c)
    requires x == Single(k, o, sec, env.schema) && y == Single(k, c, sec, env.schema)
    ensures !Agree(s, [x, y], [y, x], env)
  {
    PairSwapped(x, y, sec);
    SingleBrings(k, o, sec, env.schema);
    SingleBrings(k, c, sec, env.schema);
    UnsteadyOrders(Lookup(s.cells, k), s.cells, env.schema, k, o, c, sec);
    var u := PairMerges(s, x, y, k, o, c, sec, env);
    var v := PairMerges(s, y, x, k, c, o, sec, env);
  }

  /** For any policy whose hooks decide every cell, and any stored cells: delivery order is
      irrelevant if and only if the policy is steady. */
  lemma OrderFreeExactlyWhenSteady(s: State, sec: Security, env: Env)
    requires Valid(s) && Decides(sec) && WellFormed(env.schema) && s.lamport + 1 < U64_MAX
    ensures OrderFree(sec, s, env) <==> SteadyPolicy(sec, s.cells, env.schema)
  {
    if SteadyPolicy(sec, s.cells, env.schema) {
      forall lamport: nat, xs, ys | s.lamport <= lamport && Under(sec, xs) && Under(sec, ys)
        ensures Agree(s.(lamport := lamport), xs, ys, env)
      {
        SteadyAgrees(sec, s.(lamport := lamport), xs, ys, env);
      }
    }
    if OrderFree(sec, s, env) {
      forall k, o, c ensures SteadyAt(sec, s.cells, env.schema, k, o, c) {
        if !SteadyAt(sec, s.cells, env.schema, k, o, c) { UnsteadyRefutes(s, k, o, c, sec, env); }
      }
    }
  }

  lemma UnsteadyRefutes(s: State, k: Key, o: Cell, c: Cell, sec: Security, env: Env)
    requires Valid(s) && Decides(sec) && WellFormed(env.schema) && s.lamport + 1 < U64_MAX
    requires !SteadyAt(sec, s.cells, env.schema, k, o, c)
    ensures !OrderFree(sec, s, env)
  {
    var lamport: nat := Max(s.lamport, Max(o.version.clock, c.version.clock));
    var t := s.(lamport := lamport);
    var x, y := Single(k, o, sec, env.schema), Single(k, c, sec, env.schema);
    LaterValid(s, t);
    UnsteadyDiffers(t, x, y, k, o, c, sec, env);
    PairSwapped(x, y, sec);
    Refuted(s, t, [x, y], [y, x], sec, env);
  }

  lemma LaterValid(s: State, t: State)
    requires Valid(s) && t == s.(lamport := t.lamport) && s.lamport <= t.lamport
    ensures Valid(t)
  {
  }

  lemma Refuted(s: State, t: State, xs: seq<Delivery>, ys: seq<Delivery>, sec: Security, env: Env)
    requires t == s.(lamport := t.lamport) && s.lamport <= t.lamport
    requires Under(sec, xs) && Under(sec, ys) && !Agree(t, xs, ys, env)
    ensures !OrderFree(sec, s, env)
  {
  }

  /** Hooks that do not look at the stored cell are steady. */
  lemma BlindHooksSteady(sec: Security, base: map<Key, Cell>, t: Schema)
    requires forall k, c, x :: Lets(sec, k, c, x) == Lets(sec, k, c, None)
    ensures SteadyPolicy(sec, base, t)
  {
  }

  /** A policy that lets only the first writer of a cell through. */
  const FIRST_WRITER: Security :=
    Security((d, k, c, o) => Allow, (d, k, c, o: Option<Cell>) => if o.None? then Allow else Deny(ValidationFailed, "taken"))

  lemma FirstWriterLets(k: Key, c: Cell, x: Option<Cell>)
    ensures Decides(FIRST_WRITER)
    ensures Lets(FIRST_WRITER, k, c, x) <==> x.None?
  {
    PlainIdentifier("taken");
  }

  lemma FirstWriterUnsteady(k: Key, o: Cell, c: Cell, t: Schema)
    requires Sendable(t, k, o) && Sendable(t, k, c) && Older(o.version, c.version)
    ensures Decides(FIRST_WRITER) && !SteadyAt(FIRST_WRITER, map[], t, k, o, c)
  {
    FirstWriterLets(k, o, None);
    FirstWriterLets(k, c, None);
    FirstWriterLets(k, c, Some(o));
    VersionTotal(o.version, c.version);
  }

  /** Rejections can make order matter: under the first-writer policy two requests of one cell
      each, delivered to a new server in two orders, both succeed and leave different cells. */
  lemma RejectionsMakeOrderMatter(x: Delivery, y: Delivery, k: Key, o: Cell, c: Cell, env: Env)
    requires WellFormed(env.schema) && Sendable(env.schema, k, o) && Sendable(env.schema, k, c)
    requires Older(o.version, c.version) && c.version.clock <= MAX_CLOCK_ADVANCE
    requires x == Single(k, o, FIRST_WRITER, env.schema) && y == Single(k, c, FIRST_WRITER, env.schema)
    ensures !Agree(EMPTY, [x, y], [y, x], env)
  {
    FirstWriterUnsteady(k, o, c, env.schema);
    UnsteadyDiffers(EMPTY, x, y, k, o, c, FIRST_WRITER, env);
  }
}
