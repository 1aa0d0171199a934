/** One device against the server: where every write it ever made is now, which
    versions its log may hold, and which part of the feed it covers. */
module Conservation {
  import opened Cells
  import opened Payload
  import opened Server
  import opened ServerFacts
  import opened Client
  import opened ClientFacts

  /** Every local write of a run, by key and version. */
  datatype Stamp = Stamp(key: Key, version: Version)
  type History = map<Stamp, Value>

  ghost predicate Recorded(h: History, k: Key, cell: Cell) {
    Stamp(k, cell.version) in h && h[Stamp(k, cell.version)] == cell.value
  }

  ghost predicate AllRecorded(h: History, m: map<Key, Cell>) {
    forall k :: k in m ==> Recorded(h, k, m[k])
  }

  ghost predicate Extends(h: History, g: History) {
    forall x :: x in h ==> x in g && g[x] == h[x]
  }

  ghost predicate DirtyAt(c: Client, k: Key, v: Version) {
    k in c.log && c.log[k].dirty && AtMost(v, c.log[k].cell.version)
  }

  /** The write is still waiting on its device at this version or a newer one,
      or the server holds this version or a newer one. */
  ghost predicate Kept(c: Client, cells: map<Key, Cell>, x: Stamp) {
    DirtyAt(c, x.key, x.version) || Holds(cells, x.key, x.version)
  }

  ghost predicate EntryKnown(c: Client, cells: map<Key, Cell>, h: History, k: Key) {
    k in c.log ==>
      && Recorded(h, k, c.log[k].cell)
      && (c.log[k].dirty || Holds(cells, k, c.log[k].cell.version))
  }

  ghost predicate WriteKept(c: Client, cells: map<Key, Cell>, h: History, x: Stamp) {
    x in h && x.version.device == c.device ==> x.version.clock <= c.clock && Kept(c, cells, x)
  }

  ghost predicate Conserved(c: Client, cells: map<Key, Cell>, h: History) {
    && (forall k :: EntryKnown(c, cells, h, k))
    && (forall x :: WriteKept(c, cells, h, x))
  }

  // --- Conservation is kept by every transaction -----------------------

  lemma ConservedServer(c: Client, s: map<Key, Cell>, t: map<Key, Cell>, h: History)
    requires Conserved(c, s, h) && Below(s, t)
    ensures Conserved(c, t, h)
  {
    forall k ensures EntryKnown(c, t, h, k) {
      assert EntryKnown(c, s, h, k);
      if k in c.log && !c.log[k].dirty { HoldsBelow(s, t, k, c.log[k].cell.version); }
    }
    forall x ensures WriteKept(c, t, h, x) {
      assert WriteKept(c, s, h, x);
      if Holds(s, x.key, x.version) { HoldsBelow(s, t, x.key, x.version); }
    }
  }

  lemma ConservedHistory(c: Client, s: map<Key, Cell>, h: History, g: History)
    requires Conserved(c, s, h) && Extends(h, g)
    requires forall x :: x in g && x.version.device == c.device ==> x in h
    ensures Conserved(c, s, g)
  {
    forall k ensures EntryKnown(c, s, g, k) { assert EntryKnown(c, s, h, k); }
    forall x ensures WriteKept(c, s, g, x) { assert WriteKept(c, s, h, x); }
  }

  lemma ConservedSame(c: Client, d: Client, s: map<Key, Cell>, h: History)
    requires Conserved(c, s, h) && d.device == c.device && d.log == c.log && c.clock <= d.clock
    ensures Conserved(d, s, h)
  {
    forall k ensures EntryKnown(d, s, h, k) { assert EntryKnown(c, s, h, k); }
    forall x ensures WriteKept(d, s, h, x) { assert WriteKept(c, s, h, x); }
  }

  /** Every sent cell reached the server or came back rejected. */
  ghost predicate Delivered(sent: map<Key, Cell>, rs: seq<Rejection>, cells: map<Key, Cell>) {
    forall k :: k in sent ==> Holds(cells, k, sent[k].version) || RejectedVersion(rs, k, sent[k].version)
  }

  lemma AcknowledgeConserved(c: Client, sent: map<Key, Cell>, rs: seq<Rejection>, s: map<Key, Cell>, h: History)
    requires Conserved(c, s, h) && Delivered(sent, rs, s)
    ensures Conserved(Acknowledge(c, sent, rs), s, h)
  {
    var d := Acknowledge(c, sent, rs);
    forall k ensures EntryKnown(d, s, h, k) { assert EntryKnown(c, s, h, k); }
    forall x ensures WriteKept(d, s, h, x) {
      assert WriteKept(c, s, h, x);
      if DirtyAt(c, x.key, x.version) && Acknowledges(sent, rs, x.key, c.log[x.key]) {
        HoldsTransitive(s, x.key, c.log[x.key].cell.version, x.version);
      }
    }
  }

  /** Every cell that this acknowledgement makes clean is held by the server. */
  ghost predicate SentIsHeld(c: Client, sent: map<Key, Cell>, s: map<Key, Cell>) {
    forall k :: k in sent && k in c.log && c.log[k].dirty && c.log[k].cell.version == sent[k].version ==>
      Holds(s, k, sent[k].version)
  }

  lemma BareAcknowledgeConserves(c: Client, sent: map<Key, Cell>, s: map<Key, Cell>, h: History)
    requires Conserved(c, s, h)
    ensures Conserved(Acknowledge(c, sent, []), s, h) <==> SentIsHeld(c, sent, s)
  {
    var d := Acknowledge(c, sent, []);
    if SentIsHeld(c, sent, s) {
      forall k ensures EntryKnown(d, s, h, k) { assert EntryKnown(c, s, h, k); }
      forall x ensures WriteKept(d, s, h, x) {
        assert WriteKept(c, s, h, x);
        if DirtyAt(c, x.key, x.version) && Acknowledges(sent, [], x.key, c.log[x.key]) {
          HoldsTransitive(s, x.key, c.log[x.key].cell.version, x.version);
        }
      }
    }
    if Conserved(d, s, h) {
      forall k | k in sent && k in c.log && c.log[k].dirty && c.log[k].cell.version == sent[k].version
        ensures Holds(s, k, sent[k].version)
      {
        assert EntryKnown(d, s, h, k);
      }
    }
  }

  lemma CleanupConserved(c: Client, s: map<Key, Cell>, h: History)
    requires Conserved(c, s, h)
    ensures Conserved(Cleanup(c), s, h)
  {
    var d := Cleanup(c);
    forall k ensures EntryKnown(d, s, h, k) { assert EntryKnown(c, s, h, k); }
    forall x ensures WriteKept(d, s, h, x) {
      assert WriteKept(c, s, h, x);
      if DirtyAt(c, x.key, x.version) { assert HasDirty(c, x.key.row); }
    }
  }

  lemma AbsorbedConserved(c: Client, m: map<Key, Cell>, ids: set<string>, t: Schema, s: map<Key, Cell>, h: History)
    requires Conserved(c, s, h) && AllRecorded(h, m) && Below(m, s)
    ensures Conserved(Absorbed(c, m, ids, t), s, h)
  {
    var d := Absorbed(c, m, ids, t);
    forall k ensures EntryKnown(d, s, h, k) { assert EntryKnown(c, s, h, k); }
    forall x ensures WriteKept(d, s, h, x) {
      assert WriteKept(c, s, h, x);
      if DirtyAt(c, x.key, x.version) && x.key in m && Wins(c.log, x.key, m[x.key]) {
        VersionTransitive(x.version, c.log[x.key].cell.version, m[x.key].version);
        HoldsTransitive(s, x.key, m[x.key].version, x.version);
      }
    }
  }

  /** The history after a local operation turned `c` into `d`. */
  ghost function Record(h: History, c: Client, d: Client): History {
    h + map k | k in d.log && (k !in c.log || d.log[k] != c.log[k])
             :: Stamp(k, d.log[k].cell.version) := d.log[k].cell.value
  }

  /** New writes have new stamps: the history only grows. */
  lemma RecordFresh(h: History, c: Client, d: Client, s: map<Key, Cell>)
    requires Conserved(c, s, h) && LocalStep(c, d)
    ensures Extends(h, Record(h, c, d))
    ensures forall x :: x in Record(h, c, d) && x !in h ==>
      && x.version == Version(c.clock + 1, c.device) && d.clock == c.clock + 1
      && x.key in d.log && d.log[x.key].dirty && d.log[x.key].cell.version == x.version
  {
    var g := Record(h, c, d);
    forall x | x in h ensures x in g && g[x] == h[x] {
      assert WriteKept(c, s, h, x);
      assert KeptOrWritten(c, d, x.key);
    }
    forall x | x in g && x !in h
      ensures x.version == Version(c.clock + 1, c.device) && d.clock == c.clock + 1
      ensures x.key in d.log && d.log[x.key].dirty && d.log[x.key].cell.version == x.version
    {
      assert KeptOrWritten(c, d, x.key);
    }
  }

  lemma LocalConserved(c: Client, d: Client, s: map<Key, Cell>, h: History)
    requires Conserved(c, s, h) && LocalStep(c, d)
    ensures Conserved(d, s, Record(h, c, d))
  {
    var g := Record(h, c, d);
    RecordFresh(h, c, d, s);
    forall k ensures EntryKnown(d, s, g, k) {
      assert EntryKnown(c, s, h, k);
      assert KeptOrWritten(c, d, k);
    }
    forall x ensures WriteKept(d, s, g, x) {
      if x in h {
        assert WriteKept(c, s, h, x);
        assert KeptOrWritten(c, d, x.key);
      }
    }
  }

  // --- Coverage of the feed -------------------------------------------

  ghost predicate CoversAt(c: Client, s: State, n: int, k: Key) {
    k in s.cells && k in s.cellSeq && s.cellSeq[k] <= n ==>
      k in c.log && AtMost(s.cells[k].version, c.log[k].cell.version)
  }

  /** The device holds every server cell positioned up to `n`, or something newer. */
  ghost predicate Covers(c: Client, s: State, n: int) {
    forall k :: CoversAt(c, s, n, k)
  }

  ghost predicate LogGrows(c: Client, d: Client) {
    forall k :: k in c.log ==> k in d.log && AtMost(c.log[k].cell.version, d.log[k].cell.version)
  }

  lemma LogGrowsTransitive(c: Client, d: Client, e: Client)
    requires LogGrows(c, d) && LogGrows(d, e)
    ensures LogGrows(c, e)
  {
    forall k | k in c.log ensures k in e.log && AtMost(c.log[k].cell.version, e.log[k].cell.version) {
      VersionTransitive(c.log[k].cell.version, d.log[k].cell.version, e.log[k].cell.version);
    }
  }

  lemma CoversLog(c: Client, d: Client, s: State, n: int)
    requires Covers(c, s, n) && LogGrows(c, d)
    ensures Covers(d, s, n)
  {
    forall k ensures CoversAt(d, s, n, k) {
      assert CoversAt(c, s, n, k);
      if k in s.cells && k in s.cellSeq && s.cellSeq[k] <= n {
        VersionTransitive(s.cells[k].version, c.log[k].cell.version, d.log[k].cell.version);
      }
    }
  }

  /** Later server writes are positioned after everything already covered. */
  lemma CoversServer(c: Client, s: State, t: State, n: int)
    requires Covers(c, s, n) && Grows(s, t) && n <= s.seqNo
    ensures Covers(c, t, n)
  {
    forall k ensures CoversAt(c, t, n, k) {
      if k in t.cells { assert NewerOrSame(s, t, k); }
      assert CoversAt(c, s, n, k);
    }
  }

  /** Every cell positioned in `(from, to]` is in the page at the server's version. */
  ghost predicate PageHolds(s: State, from: int, to: int, m: map<Key, Cell>) {
    forall k :: k in s.cells && k in s.cellSeq && from < s.cellSeq[k] <= to ==> Holds(m, k, s.cells[k].version)
  }

  lemma PageHoldsServer(s: State, t: State, from: int, to: int, m: map<Key, Cell>)
    requires PageHolds(s, from, to, m) && Grows(s, t) && to <= s.seqNo
    ensures PageHolds(t, from, to, m)
  {
    forall k | k in t.cells && k in t.cellSeq && from < t.cellSeq[k] <= to ensures Holds(m, k, t.cells[k].version) {
      assert NewerOrSame(s, t, k);
    }
  }

  /** Applying a page extends coverage to the page's cursor. */
  lemma CoversPage(c: Client, m: map<Key, Cell>, ids: set<string>, t: Schema, s: State, from: int, to: int)
    requires Covers(c, s, from) && PageHolds(s, from, to, m)
    ensures Covers(Absorbed(c, m, ids, t), s, to)
  {
    var d := Absorbed(c, m, ids, t);
    AbsorbedGrows(c, m, ids, t);
    forall k ensures CoversAt(d, s, to, k) {
      if k in s.cells && k in s.cellSeq && s.cellSeq[k] <= to {
        if s.cellSeq[k] <= from {
          assert CoversAt(c, s, from, k);
          VersionTransitive(s.cells[k].version, c.log[k].cell.version, d.log[k].cell.version);
        } else {
          assert Holds(m, k, s.cells[k].version);
          AbsorbedHolds(c, m, ids, t, k);
          VersionTransitive(s.cells[k].version, m[k].version, d.log[k].cell.version);
        }
      }
    }
  }

  lemma AbsorbedHolds(c: Client, m: map<Key, Cell>, ids: set<string>, t: Schema, k: Key)
    requires k in m
    ensures var d := Absorbed(c, m, ids, t); k in d.log && AtMost(m[k].version, d.log[k].cell.version)
  {
    if k in c.log { VersionTotal(c.log[k].cell.version, m[k].version); }
  }

  lemma AbsorbedGrows(c: Client, m: map<Key, Cell>, ids: set<string>, t: Schema)
    ensures LogGrows(c, Absorbed(c, m, ids, t))
  {
  }

  lemma LocalGrows(c: Client, d: Client, t: Schema)
    requires Sound(c, t) && LocalStep(c, d)
    ensures LogGrows(c, d)
  {
    forall k | k in c.log ensures k in d.log && AtMost(c.log[k].cell.version, d.log[k].cell.version) {
      assert SoundEntry(c, t, k);
      assert KeptOrWritten(c, d, k);
    }
  }

  /** Without pending evictions a cleanup removes nothing. */
  lemma CleanupKeepsLog(c: Client)
    requires c.evictions == {}
    ensures Cleanup(c).log == c.log
  {
    assert forall r :: !Evictable(c, r);
  }
}
