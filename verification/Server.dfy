/** The reference server: policy, last-writer-wins merge, change feed, cursors. */
module Server {
  import opened Names
  import opened Cells
  import opened Payload

  const MAX_RESPONSE_CELLS: nat := 1_000
  const MAX_RESPONSE_BYTES: nat := 4 * 1_048_576
  const MAX_CLOCK_ADVANCE: nat := 1_000_000

  // --- Policy ----------------------------------------------------------

  /** A hook allows, denies with a reason, or fails the whole request. */
  datatype Decision = Allow | Deny(kind: RejectionKind, reason: string) | Fail

  type Policy = (string, Key, Cell, Option<Cell>) -> Decision

  datatype Security = Security(authorize: Policy, validate: Policy)

  const ALLOW_ALL: Security := Security((d, k, c, o) => Allow, (d, k, c, o) => Allow)

  ghost predicate Decided(v: Decision) {
    v.Allow? || (v.Deny? && ValidReason(v.reason))
  }

  /** Hooks that never fail a request and deny only with presentable reasons. */
  ghost predicate Decides(sec: Security) {
    && (forall d, k, c, o :: Decided(sec.authorize(d, k, c, o)))
    && (forall d, k, c, o :: Decided(sec.validate(d, k, c, o)))
  }

  datatype Verdict = Rejected(rejection: Rejection) | Applied | Superseded | Idempotent | Fault

  function Lookup<V>(m: map<Key, V>, k: Key): Option<V> {
    if k in m then Some(m[k]) else None
  }

  lemma LookupEqual<V>(a: map<Key, V>, b: map<Key, V>)
    requires forall k :: Lookup(a, k) == Lookup(b, k)
    ensures a == b
  {
    forall k ensures (k in a <==> k in b) && (k in a ==> a[k] == b[k]) {
      assert Lookup(a, k) == Lookup(b, k);
    }
  }

  function Reject(w: Write, kind: RejectionKind, reason: string): Verdict {
    if && ValidIdentifier(w.key.row) && ValidIdentifier(w.key.column)
       && ValidIdentifier(w.cell.version.device) && w.cell.version.clock <= I64_MAX && ValidReason(reason)
    then Rejected(Rejection(w.key, kind, reason, w.cell))
    else Fault
  }

  function Compare(current: Option<Cell>, incoming: Cell): Verdict {
    match current
    case None => Applied
    case Some(c) =>
      match DecideLww(c.version, incoming.version)
      case AcceptIncoming => Applied
      case KeepCurrent => Superseded
      case Equal => if c.value == incoming.value then Idempotent else Fault
  }

  function Judge(sec: Security, device: string, w: Write, current: Option<Cell>): Verdict {
    match sec.authorize(device, w.key, w.cell, current)
    case Fail => Fault
    case Deny(kind, reason) => Reject(w, kind, reason)
    case Allow =>
      match sec.validate(device, w.key, w.cell, current)
      case Fail => Fault
      case Deny(kind, reason) => Reject(w, kind, reason)
      case Allow => Compare(current, w.cell)
  }

  // --- Merge of one request -------------------------------------------

  datatype Acc = Acc(cells: map<Key, Cell>, seqNo: nat, cellSeq: map<Key, nat>, rejections: seq<Rejection>)

  /** How each incoming cell is judged against the current one. */
  type Ruling = (Write, Option<Cell>) -> Verdict

  function RulingOf(sec: Security, device: string): Ruling {
    (w, current) => Judge(sec, device, w, current)
  }

  /** Every rejection record names the write it rejects. */
  ghost predicate RecordsWrites(who: Ruling) {
    forall w, c :: who(w, c).Rejected? ==> who(w, c).rejection.key == w.key && who(w, c).rejection.cell == w.cell
  }

  function JudgeIn(cells: map<Key, Cell>, who: Ruling, w: Write): Verdict {
    who(w, Lookup(cells, w.key))
  }

  function Absorb(a: Acc, who: Ruling, w: Write): Result<Acc> {
    match JudgeIn(a.cells, who, w)
    case Fault => Err
    case Rejected(r) => Ok(a.(rejections := a.rejections + [r]))
    case Applied =>
      Ok(Acc(a.cells[w.key := w.cell], a.seqNo + 1, a.cellSeq[w.key := a.seqNo + 1], a.rejections))
    case Superseded => Ok(a)
    case Idempotent => Ok(a)
  }

  function AbsorbAll(a: Acc, who: Ruling, ws: seq<Write>): Result<Acc> {
    if ws == [] then Ok(a)
    else
      match AbsorbAll(a, who, ws[..|ws| - 1])
      case Err => Err
      case Ok(b) => Absorb(b, who, ws[|ws| - 1])
  }

  /** Cells and feed positions match: every cell has its own position in `1..seqNo`. */
  ghost predicate Indexed(cells: map<Key, Cell>, seqNo: nat, cellSeq: map<Key, nat>) {
    && cells.Keys == cellSeq.Keys
    && (forall k :: k in cellSeq ==> 1 <= cellSeq[k] <= seqNo)
    && (forall j, k :: j in cellSeq && k in cellSeq && cellSeq[j] == cellSeq[k] ==> j == k)
  }

  ghost predicate AppliesTo(cells: map<Key, Cell>, who: Ruling, m: map<Key, Cell>, k: Key) {
    k in m && JudgeIn(cells, who, Write(k, m[k])).Applied?
  }

  /** At key `k`, `b` is the join of `a` with the admitted part of `m`. */
  ghost predicate JoinedAt(a: Acc, who: Ruling, m: map<Key, Cell>, b: Acc, k: Key) {
    if AppliesTo(a.cells, who, m, k) then
      k in b.cells && b.cells[k] == m[k] && k in b.cellSeq && a.seqNo < b.cellSeq[k] <= b.seqNo
    else
      Lookup(b.cells, k) == Lookup(a.cells, k) && Lookup(b.cellSeq, k) == Lookup(a.cellSeq, k)
  }

  ghost predicate Joined(a: Acc, who: Ruling, m: map<Key, Cell>, b: Acc) {
    forall k :: JoinedAt(a, who, m, b, k)
  }

  ghost function AppliedKeys(cells: map<Key, Cell>, who: Ruling, m: map<Key, Cell>): set<Key> {
    set k | k in m && AppliesTo(cells, who, m, k)
  }

  ghost predicate NoFault(cells: map<Key, Cell>, who: Ruling, ws: seq<Write>) {
    forall i :: 0 <= i < |ws| ==> !JudgeIn(cells, who, ws[i]).Fault?
  }

  /** A rejection record exists exactly for the rejected cells. */
  ghost predicate RejectionsMatch(a: Acc, who: Ruling, ws: seq<Write>, rs: seq<Rejection>) {
    && |rs| <= |ws|
    && (forall i :: 0 <= i < |ws| && JudgeIn(a.cells, who, ws[i]).Rejected? ==>
          JudgeIn(a.cells, who, ws[i]).rejection in rs)
    && (forall r :: r in rs ==> Write(r.key, r.cell) in ws && JudgeIn(a.cells, who, Write(r.key, r.cell)) == Rejected(r))
  }

  lemma AbsorbIndexed(a: Acc, who: Ruling, w: Write)
    requires Indexed(a.cells, a.seqNo, a.cellSeq) && Absorb(a, who, w).Ok?
    ensures var b := Absorb(a, who, w).value; Indexed(b.cells, b.seqNo, b.cellSeq)
  {
  }

  lemma {:induction false} AbsorbAllIndexed(a: Acc, who: Ruling, ws: seq<Write>)
    requires Indexed(a.cells, a.seqNo, a.cellSeq) && AbsorbAll(a, who, ws).Ok?
    ensures var b := AbsorbAll(a, who, ws).value; Indexed(b.cells, b.seqNo, b.cellSeq)
  {
    if ws != [] {
      var n := |ws| - 1;
      AbsorbAllIndexed(a, who, ws[..n]);
      AbsorbIndexed(AbsorbAll(a, who, ws[..n]).value, who, ws[n]);
    }
  }

  /** One more write with a fresh key extends the join by that key. */
  lemma JoinStep(a: Acc, who: Ruling, m: map<Key, Cell>, b: Acc, w: Write)
    requires Joined(a, who, m, b) && a.seqNo <= b.seqNo && w.key !in m
    ensures JudgeIn(b.cells, who, w) == JudgeIn(a.cells, who, w)
    ensures Absorb(b, who, w).Ok? ==> Joined(a, who, m[w.key := w.cell], Absorb(b, who, w).value)
    ensures AppliedKeys(a.cells, who, m[w.key := w.cell]) ==
      AppliedKeys(a.cells, who, m) + (if JudgeIn(a.cells, who, w).Applied? then {w.key} else {})
  {
    assert JoinedAt(a, who, m, b, w.key);
    if Absorb(b, who, w).Ok? {
      var c, m' := Absorb(b, who, w).value, m[w.key := w.cell];
      forall k ensures JoinedAt(a, who, m', c, k) {
        assert JoinedAt(a, who, m, b, k);
      }
    }
  }

  lemma RejectionStep(a: Acc, who: Ruling, ws: seq<Write>, rs: seq<Rejection>, w: Write)
    requires RecordsWrites(who) && RejectionsMatch(a, who, ws, rs)
    ensures var v := JudgeIn(a.cells, who, w);
      RejectionsMatch(a, who, ws + [w], if v.Rejected? then rs + [v.rejection] else rs)
  {
    var v := JudgeIn(a.cells, who, w);
    if v.Rejected? { assert Write(v.rejection.key, v.rejection.cell) == w; }
  }

  /** The merge loop computes the last-writer-wins join of the old cells with
      the admitted incoming cells, and fails exactly when some cell is at fault. */
  lemma {:induction false} AbsorbAllJoins(a: Acc, who: Ruling, ws: seq<Write>)
    requires DistinctKeys(ws)
    ensures AbsorbAll(a, who, ws).Ok? <==> NoFault(a.cells, who, ws)
    ensures AbsorbAll(a, who, ws).Ok? ==>
      var b := AbsorbAll(a, who, ws).value;
      && Joined(a, who, AsMap(ws), b)
      && b.seqNo == a.seqNo + |AppliedKeys(a.cells, who, AsMap(ws))|
  {
    if ws == [] {
      assert NoFault(a.cells, who, ws);
      assert AppliedKeys(a.cells, who, AsMap(ws)) == {};
    } else {
      var n := |ws| - 1;
      var pre := ws[..n];
      AbsorbAllJoins(a, who, pre);
      NoFaultExtend(a.cells, who, ws);
      LastKeyFresh(ws);
      if AbsorbAll(a, who, pre).Ok? {
        JoinStep(a, who, AsMap(pre), AbsorbAll(a, who, pre).value, ws[n]);
      }
    }
  }

  lemma LastKeyFresh(ws: seq<Write>)
    requires ws != [] && DistinctKeys(ws)
    ensures ws[|ws| - 1].key !in AsMap(ws[..|ws| - 1])
  {
    AsMapMembers(ws[..|ws| - 1]);
  }

  lemma NoFaultExtend(cells: map<Key, Cell>, who: Ruling, ws: seq<Write>)
    requires ws != []
    ensures var n := |ws| - 1;
      NoFault(cells, who, ws) <==> NoFault(cells, who, ws[..n]) && !JudgeIn(cells, who, ws[n]).Fault?
  {
  }

  /** Rejection records accumulate exactly for the rejected cells. */
  lemma {:induction false} AbsorbAllRejections(a: Acc, who: Ruling, ws: seq<Write>)
    requires RecordsWrites(who) && DistinctKeys(ws) && a.rejections == [] && AbsorbAll(a, who, ws).Ok?
    ensures RejectionsMatch(a, who, ws, AbsorbAll(a, who, ws).value.rejections)
  {
    if ws != [] {
      var n := |ws| - 1;
      var pre := ws[..n];
      AbsorbAllRejections(a, who, pre);
      AbsorbAllJoins(a, who, pre);
      LastKeyFresh(ws);
      var b := AbsorbAll(a, who, pre).value;
      JoinStep(a, who, AsMap(pre), b, ws[n]);
      RejectionStep(a, who, pre, b.rejections, ws[n]);
      assert ws == pre + [ws[n]];
    }
  }

  // --- Change feed -----------------------------------------------------

  /** Conversion of a position to the signed cursor domain saturates. */
  function Cap(n: nat): nat {
    if n <= I64_MAX then n else I64_MAX
  }

  ghost function Pending(cells: map<Key, Cell>, cellSeq: map<Key, nat>, cursor: int): set<Key> {
    set k | k in cells && k in cellSeq && Cap(cellSeq[k]) > cursor
  }

  ghost predicate SortedBy(ks: seq<Key>, cellSeq: map<Key, nat>) {
    && (forall k :: k in ks ==> k in cellSeq)
    && forall i, j :: 0 <= i < j < |ks| ==> cellSeq[ks[i]] <= cellSeq[ks[j]]
  }

  ghost predicate Distinct(ks: seq<Key>) {
    forall i, j :: 0 <= i < j < |ks| ==> ks[i] != ks[j]
  }

  lemma {:induction false} EarliestExists(ks: set<Key>, cellSeq: map<Key, nat>)
    requires ks != {} && ks <= cellSeq.Keys
    ensures exists k :: k in ks && forall j :: j in ks ==> cellSeq[k] <= cellSeq[j]
  {
    var y :| y in ks;
    var rest := ks - {y};
    if rest == {} {
      assert forall j :: j in ks ==> j == y || j in rest;
    } else {
      EarliestExists(rest, cellSeq);
      var m :| m in rest && forall j :: j in rest ==> cellSeq[m] <= cellSeq[j];
      var best := if cellSeq[y] <= cellSeq[m] then y else m;
      assert best in ks && forall j :: j in ks ==> cellSeq[best] <= cellSeq[j];
    }
  }

  /** The given keys ordered by feed position. */
  ghost function BySeq(ks: set<Key>, cellSeq: map<Key, nat>): (r: seq<Key>)
    requires ks <= cellSeq.Keys
    ensures |r| == |ks|
    ensures forall k :: k in r <==> k in ks
    ensures SortedBy(r, cellSeq) && Distinct(r)
  {
    if ks == {} then []
    else
      EarliestExists(ks, cellSeq);
      var m :| m in ks && forall j :: j in ks ==> cellSeq[m] <= cellSeq[j];
      assert |ks - {m}| == |ks| - 1;
      [m] + BySeq(ks - {m}, cellSeq)
  }

  datatype Env = Env(schema: Schema, size: (Key, Cell) -> nat)

  /** Number of leading feed entries that fit one page, having taken `i` of them for `bytes`. */
  function PageEnd(feed: seq<Key>, cells: map<Key, Cell>, size: (Key, Cell) -> nat, i: nat, bytes: nat): (n: nat)
    requires i <= |feed| && forall k :: k in feed ==> k in cells
    ensures i <= n <= |feed|
    ensures i <= MAX_RESPONSE_CELLS ==> n <= MAX_RESPONSE_CELLS
    ensures i == 0 < |feed| ==> 1 <= n
    decreases |feed| - i
  {
    if i == |feed| || i >= MAX_RESPONSE_CELLS then i
    else
      var cost := size(feed[i], cells[feed[i]]);
      if i > 0 && bytes + cost > MAX_RESPONSE_BYTES then i
      else PageEnd(feed, cells, size, i + 1, bytes + cost)
  }

  datatype Page = Page(keys: seq<Key>, next: int, more: bool)

  ghost function PageFrom(cells: map<Key, Cell>, seqNo: nat, cellSeq: map<Key, nat>, cursor: int, env: Env): Page {
    var feed := BySeq(Pending(cells, cellSeq, cursor), cellSeq);
    var n := PageEnd(feed, cells, env.size, 0, 0);
    Page(feed[..n],
         if n == |feed| then Cap(seqNo) else if n == 0 then cursor else Cap(cellSeq[feed[n - 1]]),
         n < |feed|)
  }

  function Restrict(cells: map<Key, Cell>, ks: seq<Key>): map<Key, Cell> {
    map k | k in cells && k in ks :: cells[k]
  }

  // --- Server state ----------------------------------------------------

  datatype State = State(
    lamport: nat,
    cells: map<Key, Cell>,
    seqNo: nat,
    cellSeq: map<Key, nat>,
    issued: map<string, int>)

  const EMPTY: State := State(0, map[], 0, map[], map[])

  ghost predicate ClocksBelow(m: map<Key, Cell>, bound: nat) {
    forall k :: k in m ==> m[k].version.clock < bound
  }

  ghost predicate Valid(s: State) {
    && Indexed(s.cells, s.seqNo, s.cellSeq)
    && ClocksBelow(s.cells, s.lamport)
    && forall d :: d in s.issued ==> 0 <= s.issued[d] <= Cap(s.seqNo)
  }

  function Issued(s: State, device: string): int {
    if device in s.issued then s.issued[device] else 0
  }

  function Max(a: int, b: int): int {
    if a >= b then a else b
  }

  predicate CursorValid(seqNo: nat, issued: int, cursor: int) {
    cursor == 0 || (cursor <= Cap(seqNo) && cursor <= issued)
  }

  function EffectiveCursor(seqNo: nat, issued: int, cursor: int): int {
    if CursorValid(seqNo, issued, cursor) then cursor else 0
  }

  function Start(s: State): Acc {
    Acc(s.cells, s.seqNo, s.cellSeq, [])
  }

  datatype Merged = Merged(state: State, response: SyncPayload)

  /** The answer to a request whose cells have been absorbed into `b`. */
  ghost function Reply(s: State, b: Acc, lamport: nat, p: SyncPayload, device: string, env: Env): Merged {
    var page := PageFrom(b.cells, b.seqNo, b.cellSeq,
                         EffectiveCursor(b.seqNo, Issued(s, device), p.cursor), env);
    Merged(
      State(lamport, b.cells, b.seqNo, b.cellSeq,
            s.issued[device := if device in s.issued then Max(s.issued[device], page.next) else page.next]),
      SyncPayload(p.protocol, env.schema.fingerprint, SERVER_DEVICE, lamport,
                  GroupRows(Restrict(b.cells, page.keys)), page.next, page.more,
                  p.cursor != 0 && !CursorValid(b.seqNo, Issued(s, device), p.cursor),
                  None, None, b.rejections))
  }

  predicate ClockAdvanceOk(current: nat, observed: nat) {
    observed <= current || observed - current <= MAX_CLOCK_ADVANCE
  }

  /** What remains after the merge loop: tick the clock and answer, or fail. */
  ghost function Conclude(s: State, r: Result<Acc>, observed: nat, p: SyncPayload, device: string, env: Env): Result<Merged> {
    if r.Err? || Max(s.lamport, observed) + 1 > U64_MAX then Err
    else Ok(Reply(s, r.value, Max(s.lamport, observed) + 1, p, device, env))
  }

  ghost function Merge(s: State, p: SyncPayload, device: string, sec: Security, env: Env): Result<Merged> {
    if !ValidRequest(p, device, env.schema) || !ClockAdvanceOk(s.lamport, MaxObserved(p)) then Err
    else Conclude(s, AbsorbAll(Start(s), RulingOf(sec, device), Writes(p.changes)), MaxObserved(p), p, device, env)
  }
}
