/** What a merge accepts and answers, in plain terms: the reference server and the PostgreSQL adapter. */
module Answers {
  import opened Names
  import opened Cells
  import opened Payload
  import opened Server
  import opened ServerFacts
  import opened MergeLaws
  import opened Pagination
  import opened Lww
  import opened Acceptance

  // --- Pages -----------------------------------------------------------

  /** All cells positioned after `start`, in order of position. */
  ghost predicate FeedOf(feed: seq<Key>, cells: map<Key, Cell>, order: map<Key, nat>, at: nat -> int, start: int) {
    && (forall k :: k in feed <==> k in cells && k in order && at(order[k]) > start)
    && (forall i, j :: 0 <= i < j < |feed| ==> order[feed[i]] < order[feed[j]])
  }

  /** The longest leading part of at most 1,000 cells and 4 MiB, or one cell if that alone is larger. */
  ghost predicate Longest(feed: seq<Key>, n: nat, cells: map<Key, Cell>, size: (Key, Cell) -> nat)
    requires forall k :: k in feed ==> k in cells
  {
    && n <= |feed| && n <= 1_000 && (feed != [] ==> 1 <= n)
    && (2 <= n ==> Bytes(feed[..n], cells, size) <= 4_194_304)
    && (n < |feed| && n < 1_000 ==> Bytes(feed[..n + 1], cells, size) > 4_194_304)
  }

  /** The payload carries exactly these cells as they are stored, its rows in order of identifiers. */
  ghost predicate CarriesExactly(r: SyncPayload, cells: map<Key, Cell>, ks: seq<Key>) {
    && (forall k, c :: Sends(r, k, c) <==> k in ks && k in cells && cells[k] == c)
    && (forall i, j :: 0 <= i < j < |r.changes| ==> Precedes(r.changes[i].row, r.changes[j].row))
  }

  /** The response is the page that starts after `start`; `whole` is its cursor when nothing remains. */
  ghost predicate PageFor(r: SyncPayload, cells: map<Key, Cell>, order: map<Key, nat>, at: nat -> int, start: int, whole: int,
                          size: (Key, Cell) -> nat) {
    exists feed, n :: PageIs(r, cells, order, at, start, whole, size, feed, n)
  }

  ghost predicate PageIs(r: SyncPayload, cells: map<Key, Cell>, order: map<Key, nat>, at: nat -> int, start: int, whole: int,
                         size: (Key, Cell) -> nat, feed: seq<Key>, n: nat) {
    && FeedOf(feed, cells, order, at, start) && Longest(feed, n, cells, size)
    && CarriesExactly(r, cells, feed[..n])
    && r.hasMore == (n < |feed|)
    && r.cursor == if n == |feed| then whole else at(order[feed[n - 1]])
  }

  lemma {:induction false} PageEndLongest(feed: seq<Key>, cells: map<Key, Cell>, size: (Key, Cell) -> nat, i: nat, bytes: nat)
    requires i <= |feed| && i <= 1_000 && forall k :: k in feed ==> k in cells
    requires bytes == Bytes(feed[..i], cells, size) && (2 <= i ==> bytes <= 4_194_304)
    ensures var n := PageEnd(feed, cells, size, i, bytes);
      && i <= n <= 1_000 && (i == 0 < |feed| ==> 1 <= n)
      && (2 <= n ==> Bytes(feed[..n], cells, size) <= 4_194_304)
      && (n < |feed| && n < 1_000 ==> Bytes(feed[..n + 1], cells, size) > 4_194_304)
    decreases |feed| - i
  {
    if i < |feed| && i < 1_000 {
      assert feed[..i + 1][..i] == feed[..i];
      var cost := size(feed[i], cells[feed[i]]);
      assert Bytes(feed[..i + 1], cells, size) == bytes + cost;
      if i == 0 || bytes + cost <= 4_194_304 { PageEndLongest(feed, cells, size, i + 1, bytes + cost); }
    }
  }

  /** Cells grouped into rows are carried exactly, in order. */
  lemma GroupedCarries(r: SyncPayload, cells: map<Key, Cell>, ks: seq<Key>)
    requires r.changes == GroupRows(Restrict(cells, ks))
    ensures CarriesExactly(r, cells, ks)
  {
    var m := Restrict(cells, ks);
    GroupRowsRoundTrip(m);
    GroupedShape(m);
    forall k, c ensures Sends(r, k, c) <==> k in ks && k in cells && cells[k] == c {
      SendsIs(r, k, c);
    }
    forall i, j | 0 <= i < j < |r.changes| ensures Precedes(r.changes[i].row, r.changes[j].row) {
      assert ChangedRows(r.changes)[i] == r.changes[i].row && ChangedRows(r.changes)[j] == r.changes[j].row;
      BeforeParts(r.changes[i].row, r.changes[j].row);
    }
  }

  // --- The reference server's answer -----------------------------------

  /** A position as a cursor: at most 2^63 - 1. */
  function Clipped(n: nat): int {
    if n < 0x8000_0000_0000_0000 then n else 0x7fff_ffff_ffff_ffff
  }

  function LargestIssued(s: State, device: string): int {
    if device in s.issued then s.issued[device] else 0
  }

  lemma FeedIs(s: State, start: int, feed: seq<Key>)
    requires Indexed(s.cells, s.seqNo, s.cellSeq) && feed == BySeq(Pending(s.cells, s.cellSeq, start), s.cellSeq)
    ensures FeedOf(feed, s.cells, s.cellSeq, Clipped, start)
  {
    forall i, j | 0 <= i < j < |feed| ensures s.cellSeq[feed[i]] < s.cellSeq[feed[j]] {
      assert feed[i] in feed && feed[j] in feed && feed[i] != feed[j];
    }
  }

  /** The first `n` cells of a feed, cut where a page ends, are the page. */
  lemma CutIsPage(s: State, start: int, r: SyncPayload, size: (Key, Cell) -> nat, feed: seq<Key>, n: nat)
    requires FeedOf(feed, s.cells, s.cellSeq, Clipped, start) && Longest(feed, n, s.cells, size)
    requires r.changes == GroupRows(Restrict(s.cells, feed[..n])) && r.hasMore == (n < |feed|)
    requires r.cursor == if n == |feed| then Clipped(s.seqNo) else Clipped(s.cellSeq[feed[n - 1]])
    ensures PageFor(r, s.cells, s.cellSeq, Clipped, start, Clipped(s.seqNo), size)
  {
    GroupedCarries(r, s.cells, feed[..n]);
    assert PageIs(r, s.cells, s.cellSeq, Clipped, start, Clipped(s.seqNo), size, feed, n);
  }

  lemma CutOfPage(s: State, start: int, env: Env, feed: seq<Key>, n: nat)
    requires Indexed(s.cells, s.seqNo, s.cellSeq)
    requires feed == BySeq(Pending(s.cells, s.cellSeq, start), s.cellSeq) && n == PageEnd(feed, s.cells, env.size, 0, 0)
    ensures n <= |feed| && (n < |feed| ==> 0 < n)
    ensures var page := PageFrom(s.cells, s.seqNo, s.cellSeq, start, env);
      && page.keys == feed[..n] && page.more == (n < |feed|)
      && page.next == if n == |feed| then Cap(s.seqNo) else Cap(s.cellSeq[feed[n - 1]])
  {
  }

  lemma CutLongest(feed: seq<Key>, cells: map<Key, Cell>, size: (Key, Cell) -> nat, n: nat)
    requires (forall k :: k in feed ==> k in cells) && n == PageEnd(feed, cells, size, 0, 0)
    ensures Longest(feed, n, cells, size)
  {
    PageEndLongest(feed, cells, size, 0, 0);
  }

  lemma PageOfReply(s: State, start: int, r: SyncPayload, env: Env)
    requires Indexed(s.cells, s.seqNo, s.cellSeq)
    requires var page := PageFrom(s.cells, s.seqNo, s.cellSeq, start, env);
      r.changes == GroupRows(Restrict(s.cells, page.keys)) && r.cursor == page.next && r.hasMore == page.more
    ensures PageFor(r, s.cells, s.cellSeq, Clipped, start, Clipped(s.seqNo), env.size)
  {
    var feed := BySeq(Pending(s.cells, s.cellSeq, start), s.cellSeq);
    var n := PageEnd(feed, s.cells, env.size, 0, 0);
    FeedIs(s, start, feed);
    CutOfPage(s, start, env, feed, n);
    CutLongest(feed, s.cells, env.size, n);
    CutIsPage(s, start, r, env.size, feed, n);
  }

  /** For every successful merge: the device is told to reset exactly when its non-zero cursor lies beyond the
      sequence after the merge, as a cursor, or beyond the largest cursor issued to it; the answer is then the first
      page from zero, and otherwise the page after the request's cursor. */
  lemma AnswerExactly(s: State, p: SyncPayload, device: string, sec: Security, env: Env)
    requires Valid(s) && Merge(s, p, device, sec, env).Ok?
    ensures var Merged(t, r) := Merge(s, p, device, sec, env).value;
      && (r.cursorReset <==> p.cursor != 0 && (p.cursor > Clipped(t.seqNo) || p.cursor > LargestIssued(s, device)))
      && PageFor(r, t.cells, t.cellSeq, Clipped, if r.cursorReset then 0 else p.cursor, Clipped(t.seqNo), env.size)
  {
    var Merged(t, r) := Merge(s, p, device, sec, env).value;
    var b, m := MergeParts(s, p, device, sec, env);
    PageOfReply(t, if r.cursorReset then 0 else p.cursor, r, env);
  }

  /** The rest of the answer, and the clock and cursor the server keeps. */
  lemma ReplyExactly(s: State, p: SyncPayload, device: string, sec: Security, env: Env)
    requires Valid(s) && Merge(s, p, device, sec, env).Ok?
    ensures var Merged(t, r) := Merge(s, p, device, sec, env).value;
      && r.protocol == p.protocol && r.fingerprint == env.schema.fingerprint && r.source == "loomabase-server"
      && r.token == None && r.epoch == None
      && r.lamport == t.lamport == (if s.lamport > p.lamport then s.lamport else p.lamport) + 1
      && t.issued.Keys == s.issued.Keys + {device}
      && t.issued[device] == (if r.cursor > LargestIssued(s, device) then r.cursor else LargestIssued(s, device))
      && forall d :: d in s.issued && d != device ==> t.issued[d] == s.issued[d]
  {
    var b, m := MergeParts(s, p, device, sec, env);
    var e := EffectiveCursor(b.seqNo, Issued(s, device), p.cursor);
    PageCursor(b.cells, b.seqNo, b.cellSeq, e, env);
  }

  /** The rejection records are exactly the sent cells that a hook denied, the validator being asked
      only about what the authorizer allowed, each with that hook's kind and reason. */
  lemma RecordsExactly(s: State, p: SyncPayload, device: string, sec: Security, env: Env, r: Rejection)
    requires Valid(s) && Merge(s, p, device, sec, env).Ok?
    ensures r in Merge(s, p, device, sec, env).value.response.rejections <==>
      && Sends(p, r.key, r.cell)
      && var stored := Lookup(s.cells, r.key);
         || sec.authorize(device, r.key, r.cell, stored) == Deny(r.kind, r.reason)
         || (sec.authorize(device, r.key, r.cell, stored) == Allow && sec.validate(device, r.key, r.cell, stored) == Deny(r.kind, r.reason))
  {
    MergeAdmitted(s, p, device, sec, env);
    SendsIs(p, r.key, r.cell);
    RejectionsAreDenials(s, p, device, sec, env, r);
  }

  // --- What it accepts -------------------------------------------------

  /** What a hook said lets the merge go on: allowed, or denied for a presentable reason. */
  ghost predicate Presentable(d: Decision) {
    d == Allow || (d.Deny? && Printable(d.reason, 2_048))
  }

  /** The cell does not fail the merge: the hooks that are asked answer presentably, and an allowed
      cell under the stored version has the stored value. */
  ghost predicate Passes(sec: Security, device: string, k: Key, c: Cell, stored: Option<Cell>) {
    var first := sec.authorize(device, k, c, stored);
    && Presentable(first)
    && (first == Allow ==>
          var second := sec.validate(device, k, c, stored);
          && Presentable(second)
          && (second == Allow && stored.Some? && stored.value.version == c.version ==> stored.value.value == c.value))
  }

  lemma PassesIs(sec: Security, device: string, k: Key, c: Cell, stored: Option<Cell>, t: Schema)
    requires ValidIdentifier(k.row) && ValidCell(t, k, c) && WellFormed(t)
    ensures !Judge(sec, device, Write(k, c), stored).Fault? <==> Passes(sec, device, k, c, stored)
  {
    var first, second := sec.authorize(device, k, c, stored), sec.validate(device, k, c, stored);
    if first.Deny? { PrintableIs(first.reason); }
    if second.Deny? { PrintableIs(second.reason); }
    if stored.Some? { LwwDecides(stored.value.version, c.version); VersionTotal(stored.value.version, c.version); }
  }

  ghost predicate AllPass(sec: Security, device: string, p: SyncPayload, cells: map<Key, Cell>) {
    forall k, c :: Sends(p, k, c) ==> Passes(sec, device, k, c, Lookup(cells, k))
  }

  lemma SentWritten(p: SyncPayload, k: Key, c: Cell)
    requires DistinctRows(p.changes)
    ensures Sends(p, k, c) <==> Write(k, c) in Writes(p.changes)
  {
    WritesDistinct(p.changes);
    AsMapMembers(Writes(p.changes));
    SendsIs(p, k, c);
  }

  lemma SentPasses(sec: Security, device: string, p: SyncPayload, cells: map<Key, Cell>, t: Schema, w: Write)
    requires ValidRequest(p, device, t) && WellFormed(t) && w in Writes(p.changes)
    ensures Sends(p, w.key, w.cell)
    ensures !JudgeIn(cells, RulingOf(sec, device), w).Fault? <==> Passes(sec, device, w.key, w.cell, Lookup(cells, w.key))
  {
    SentWritten(p, w.key, w.cell);
    SendsIs(p, w.key, w.cell);
    ValidRowsCells(t, p.changes);
    PassesIs(sec, device, w.key, w.cell, Lookup(cells, w.key), t);
  }

  lemma AllPassIs(sec: Security, device: string, p: SyncPayload, cells: map<Key, Cell>, t: Schema)
    requires ValidRequest(p, device, t) && WellFormed(t)
    ensures NoFault(cells, RulingOf(sec, device), Writes(p.changes)) <==> AllPass(sec, device, p, cells)
  {
    var ws, who := Writes(p.changes), RulingOf(sec, device);
    if AllPass(sec, device, p, cells) {
      forall i | 0 <= i < |ws| ensures !JudgeIn(cells, who, ws[i]).Fault? {
        SentPasses(sec, device, p, cells, t, ws[i]);
      }
    }
    if NoFault(cells, who, ws) {
      forall k, c | Sends(p, k, c) ensures Passes(sec, device, k, c, Lookup(cells, k)) {
        SentWritten(p, k, c);
        SentPasses(sec, device, p, cells, t, Write(k, c));
      }
    }
  }

  /** A merge succeeds exactly for an acceptable request, at most a million clock values ahead of the server, whose
      new clock fits 64 bits and none of whose cells fails. */
  lemma MergesExactly(s: State, p: SyncPayload, device: string, sec: Security, env: Env)
    requires WellFormed(env.schema)
    ensures Merge(s, p, device, sec, env).Ok? <==>
      && ValidRequest(p, device, env.schema) && p.lamport <= s.lamport + 1_000_000
      && s.lamport < 0xffff_ffff_ffff_ffff && p.lamport < 0xffff_ffff_ffff_ffff
      && AllPass(sec, device, p, s.cells)
  {
    if ValidRequest(p, device, env.schema) {
      MaxObservedIsSource(p);
      WritesDistinct(p.changes);
      AbsorbAllJoins(Start(s), RulingOf(sec, device), Writes(p.changes));
      AllPassIs(sec, device, p, s.cells, env.schema);
    }
  }

  // --- In which order cells are numbered -------------------------------

  /** A cell stored last is numbered after every cell before. */
  lemma LastNumbered(a: Acc, who: Ruling, w: Write, k: Key)
    requires Indexed(a.cells, a.seqNo, a.cellSeq) && JudgeIn(a.cells, who, w).Applied? && k in a.cellSeq && k != w.key
    ensures var b := Absorb(a, who, w).value; b.cellSeq[k] < b.cellSeq[w.key]
  {
  }

  lemma NumbersKept(a: Acc, who: Ruling, w: Write, k: Key)
    requires Absorb(a, who, w).Ok? && k != w.key && k in a.cellSeq
    ensures var b := Absorb(a, who, w).value; k in b.cellSeq && b.cellSeq[k] == a.cellSeq[k]
  {
  }

  /** What the loop did before its last write, and that this write is judged as over the old cells. */
  lemma BeforeLast(a: Acc, who: Ruling, ws: seq<Write>) returns (c: Acc)
    requires ws != [] && DistinctKeys(ws) && AbsorbAll(a, who, ws).Ok? && Indexed(a.cells, a.seqNo, a.cellSeq)
    ensures AbsorbAll(a, who, ws[..|ws| - 1]) == Ok(c) && Absorb(c, who, ws[|ws| - 1]) == AbsorbAll(a, who, ws)
    ensures Indexed(c.cells, c.seqNo, c.cellSeq) && Joined(a, who, AsMap(ws[..|ws| - 1]), c)
    ensures JudgeIn(c.cells, who, ws[|ws| - 1]) == JudgeIn(a.cells, who, ws[|ws| - 1])
  {
    var n := |ws| - 1;
    c := AbsorbAll(a, who, ws[..n]).value;
    AbsorbAllIndexed(a, who, ws[..n]);
    AbsorbAllJoins(a, who, ws[..n]);
    LastKeyFresh(ws);
    JoinStep(a, who, AsMap(ws[..n]), c, ws[n]);
  }

  lemma AppliedNumbered(a: Acc, who: Ruling, ws: seq<Write>, c: Acc, i: nat)
    requires DistinctKeys(ws) && i < |ws| && Joined(a, who, AsMap(ws), c) && JudgeIn(a.cells, who, ws[i]).Applied?
    ensures ws[i].key in c.cellSeq
  {
    AsMapMembers(ws);
    assert ws[i] in ws;
    assert JoinedAt(a, who, AsMap(ws), c, ws[i].key);
  }

  /** Of two cells stored by one merge, the one visited first gets the smaller number. */
  lemma {:induction false} NumberedInOrder(a: Acc, who: Ruling, ws: seq<Write>, i: nat, j: nat)
    requires DistinctKeys(ws) && AbsorbAll(a, who, ws).Ok? && Indexed(a.cells, a.seqNo, a.cellSeq)
    requires i < j < |ws| && JudgeIn(a.cells, who, ws[i]).Applied? && JudgeIn(a.cells, who, ws[j]).Applied?
    ensures var b := AbsorbAll(a, who, ws).value;
      ws[i].key in b.cellSeq && ws[j].key in b.cellSeq && b.cellSeq[ws[i].key] < b.cellSeq[ws[j].key]
    decreases |ws|
  {
    var n := |ws| - 1;
    var c := BeforeLast(a, who, ws);
    AppliedNumbered(a, who, ws[..n], c, i);
    if j < n {
      NumberedInOrder(a, who, ws[..n], i, j);
      NumbersKept(c, who, ws[n], ws[i].key);
      NumbersKept(c, who, ws[n], ws[j].key);
    } else {
      LastNumbered(c, who, ws[n], ws[i].key);
    }
  }

  // --- The order of the cells of a request -----------------------------

  /** The place of a column among the cells of its row. */
  lemma RowPlace(r: RowChange, c: string) returns (y: nat)
    requires c in r.columns
    ensures y < |RowWrites(r)| == |SortedSeq(r.columns.Keys)| && SortedSeq(r.columns.Keys)[y] == c
    ensures RowWrites(r)[y] == Write(Key(r.row, c), r.columns[c])
  {
    var names := SortedSeq(r.columns.Keys);
    assert c in names;
    y :| 0 <= y < |names| && names[y] == c;
  }

  lemma {:induction false} WritesPrefix(changes: seq<RowChange>, n: nat) returns (rest: seq<Write>)
    requires n <= |changes|
    ensures Writes(changes) == Writes(changes[..n]) + rest
    decreases |changes| - n
  {
    if n == |changes| {
      assert changes[..n] == changes;
      rest := [];
    } else {
      var after := WritesPrefix(changes, n + 1);
      OneMoreRow(changes, n);
      Associates(Writes(changes[..n]), RowWrites(changes[n]), after);
      rest := RowWrites(changes[n]) + after;
    }
  }

  lemma OneMoreRow(changes: seq<RowChange>, n: nat)
    requires n < |changes|
    ensures Writes(changes[..n + 1]) == Writes(changes[..n]) + RowWrites(changes[n])
  {
    assert changes[..n + 1][..n] == changes[..n];
  }

  lemma Associates(a: seq<Write>, b: seq<Write>, c: seq<Write>)
    ensures (a + b) + c == a + (b + c)
  {
  }

  /** The row comes earlier in the payload, or the column earlier in the same row. */
  ghost predicate Earlier(i: nat, c: string, j: nat, e: string) {
    i < j || (i == j && Precedes(c, e))
  }

  /** The first of two writes comes earlier in the sequence. */
  ghost predicate ComesFirst(ws: seq<Write>, a: Write, b: Write) {
    exists x, y :: 0 <= x < y < |ws| && ws[x] == a && ws[y] == b
  }

  lemma FirstOfParts(a: seq<Write>, b: seq<Write>, rest: seq<Write>, u: Write, v: Write)
    requires u in a && v in b
    ensures ComesFirst(a + b + rest, u, v)
  {
    var ws := a + b + rest;
    var x :| 0 <= x < |a| && a[x] == u;
    var y :| 0 <= y < |b| && b[y] == v;
    assert ws[x] == u && ws[|a| + y] == v;
  }

  lemma FirstWithin(a: seq<Write>, b: seq<Write>, rest: seq<Write>, x: nat, y: nat)
    requires x < y < |b|
    ensures ComesFirst(a + b + rest, b[x], b[y])
  {
    var ws := a + b + rest;
    assert ws[|a| + x] == b[x] && ws[|a| + y] == b[y];
  }

  lemma RowsInOrder(changes: seq<RowChange>, i: nat, c: string, j: nat, e: string)
    requires i < j < |changes| && c in changes[i].columns && e in changes[j].columns
    ensures ComesFirst(Writes(changes), CellOf(changes[i], c), CellOf(changes[j], e))
  {
    OneMoreRow(changes, j);
    var rest := WritesPrefix(changes, j + 1);
    assert changes[..j][i] == changes[i];
    WritePresent(changes[..j], i, CellOf(changes[i], c));
    RowWritePresent(changes[j], CellOf(changes[j], e));
    FirstOfParts(Writes(changes[..j]), RowWrites(changes[j]), rest, CellOf(changes[i], c), CellOf(changes[j], e));
  }

  function CellOf(r: RowChange, c: string): Write
    requires c in r.columns
  {
    Write(Key(r.row, c), r.columns[c])
  }

  lemma CellsInOrder(changes: seq<RowChange>, i: nat, c: string, e: string)
    requires i < |changes| && c in changes[i].columns && e in changes[i].columns && Precedes(c, e)
    ensures ComesFirst(Writes(changes), CellOf(changes[i], c), CellOf(changes[i], e))
  {
    OneMoreRow(changes, i);
    var rest := WritesPrefix(changes, i + 1);
    var u := RowPlace(changes[i], c);
    var v := RowPlace(changes[i], e);
    ColumnsInOrder(SortedSeq(changes[i].columns.Keys), u, v);
    FirstWithin(Writes(changes[..i]), RowWrites(changes[i]), rest, u, v);
  }

  lemma VisitedEarlier(changes: seq<RowChange>, i: nat, c: string, j: nat, e: string)
    requires i < |changes| && j < |changes| && c in changes[i].columns && e in changes[j].columns && Earlier(i, c, j, e)
    ensures ComesFirst(Writes(changes), CellOf(changes[i], c), CellOf(changes[j], e))
  {
    if i < j { RowsInOrder(changes, i, c, j, e); } else { CellsInOrder(changes, i, c, e); }
  }

  lemma ColumnsInOrder(names: seq<string>, x: nat, y: nat)
    requires StrictlySorted(names) && x < |names| && y < |names| && Precedes(names[x], names[y])
    ensures x < y
  {
    BeforeParts(names[x], names[y]);
    BeforeTotal(names[x], names[y]);
  }

  /** The merge stored this cell over what was there. */
  ghost predicate Stored(s: State, sec: Security, device: string, k: Key, c: Cell) {
    Permitted(sec, device, k, c, Lookup(s.cells, k)) && (k in s.cells ==> Beats(c.version, s.cells[k].version))
  }

  lemma StoredIs(s: State, sec: Security, device: string, k: Key, c: Cell)
    ensures JudgeIn(s.cells, RulingOf(sec, device), Write(k, c)).Applied? <==> Stored(s, sec, device, k, c)
  {
    JudgedApplied(sec, device, Write(k, c), Lookup(s.cells, k));
    if k in s.cells { OlderParts(s.cells[k].version, c.version); }
  }

  /** The cells a merge stores are numbered after everything before, in the order of rows in the payload and of columns
      within a row; all other cells keep their numbers. */
  lemma NumbersExactly(s: State, p: SyncPayload, device: string, sec: Security, env: Env, i: nat, c: string, j: nat, e: string)
    requires Valid(s) && Merge(s, p, device, sec, env).Ok?
    requires i < |p.changes| && j < |p.changes| && c in p.changes[i].columns && e in p.changes[j].columns
    ensures var t := Merge(s, p, device, sec, env).value.state; var (k, l) := (Key(p.changes[i].row, c), Key(p.changes[j].row, e));
      && (Stored(s, sec, device, k, p.changes[i].columns[c]) ==> k in t.cellSeq && s.seqNo < t.cellSeq[k] <= t.seqNo)
      && (Stored(s, sec, device, k, p.changes[i].columns[c]) && Stored(s, sec, device, l, p.changes[j].columns[e]) && Earlier(i, c, j, e) ==>
            k in t.cellSeq && l in t.cellSeq && t.cellSeq[k] < t.cellSeq[l])
      && (!Stored(s, sec, device, k, p.changes[i].columns[c]) ==> Lookup(t.cellSeq, k) == Lookup(s.cellSeq, k))
  {
    var b, m := MergeParts(s, p, device, sec, env);
    var who := RulingOf(sec, device);
    var k, l := Key(p.changes[i].row, c), Key(p.changes[j].row, e);
    MergeAdmitted(s, p, device, sec, env);
    WritesDistinct(p.changes);
    CellsOfEntry(p.changes, i, Write(k, p.changes[i].columns[c]));
    StoredIs(s, sec, device, k, p.changes[i].columns[c]);
    StoredIs(s, sec, device, l, p.changes[j].columns[e]);
    assert JoinedAt(Start(s), who, m, b, k);
    if Stored(s, sec, device, k, p.changes[i].columns[c]) && Stored(s, sec, device, l, p.changes[j].columns[e]) && Earlier(i, c, j, e) {
      VisitedEarlier(p.changes, i, c, j, e);
      var x, y :| 0 <= x < y < |Writes(p.changes)| && Writes(p.changes)[x] == CellOf(p.changes[i], c)
                  && Writes(p.changes)[y] == CellOf(p.changes[j], e);
      NumberedInOrder(Start(s), who, Writes(p.changes), x, y);
    }
  }
}
