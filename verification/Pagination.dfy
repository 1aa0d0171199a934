/** Bounded pages refine the unpaged change feed. */
module Pagination {
  import opened Cells
  import opened Payload
  import opened Server
  import opened ServerFacts

  /** The whole feed after a cursor, in one piece. */
  ghost function FeedAfter(s: State, cursor: int): seq<Key> {
    BySeq(Pending(s.cells, s.cellSeq, cursor), s.cellSeq)
  }

  ghost function PageAt(s: State, cursor: int, env: Env): Page {
    PageFrom(s.cells, s.seqNo, s.cellSeq, cursor, env)
  }

  lemma PageIsPrefix(s: State, cursor: int, env: Env) returns (n: nat)
    requires Valid(s)
    ensures n <= |FeedAfter(s, cursor)| && PageAt(s, cursor, env).keys == FeedAfter(s, cursor)[..n]
    ensures n == PageEnd(FeedAfter(s, cursor), s.cells, env.size, 0, 0)
    ensures PageAt(s, cursor, env).more <==> n < |FeedAfter(s, cursor)|
    ensures PageAt(s, cursor, env).more ==> 0 < n && PageAt(s, cursor, env).next == Cap(s.cellSeq[FeedAfter(s, cursor)[n - 1]])
  {
    n := PageEnd(FeedAfter(s, cursor), s.cells, env.size, 0, 0);
  }

  /** A page that announces more strictly advances the cursor. */
  lemma PageAdvances(s: State, cursor: int, env: Env)
    requires Valid(s) && PageAt(s, cursor, env).more
    ensures cursor < PageAt(s, cursor, env).next
    ensures PageAt(s, cursor, env).keys != []
  {
    var n := PageIsPrefix(s, cursor, env);
    assert FeedAfter(s, cursor)[n - 1] in FeedAfter(s, cursor);
  }

  lemma RestAfterPage(s: State, cursor: int, n: nat, k: Key)
    requires Valid(s) && s.seqNo <= I64_MAX && 0 < n <= |FeedAfter(s, cursor)|
    ensures var f := FeedAfter(s, cursor);
      k in f[n..] <==> k in Pending(s.cells, s.cellSeq, Cap(s.cellSeq[f[n - 1]]))
  {
    var f := FeedAfter(s, cursor);
    assert f[n - 1] in f;
    if k in f { FeedCut(f, s.cellSeq, n, k); }
  }

  lemma SuffixFeed(f: seq<Key>, cellSeq: map<Key, nat>, n: nat)
    requires n <= |f| && SortedBy(f, cellSeq) && Distinct(f)
    ensures SortedBy(f[n..], cellSeq) && Distinct(f[n..])
  {
    forall k | k in f[n..] ensures k in cellSeq {
      assert k in f;
    }
  }

  lemma FeedSplit(s: State, cursor: int, n: nat)
    requires Valid(s) && s.seqNo <= I64_MAX && 0 < n <= |FeedAfter(s, cursor)|
    ensures var f := FeedAfter(s, cursor); f[n..] == FeedAfter(s, Cap(s.cellSeq[f[n - 1]]))
  {
    var f := FeedAfter(s, cursor);
    assert f[n - 1] in f;
    var g := FeedAfter(s, Cap(s.cellSeq[f[n - 1]]));
    forall k ensures k in f[n..] <==> k in g {
      RestAfterPage(s, cursor, n, k);
    }
    SuffixFeed(f, s.cellSeq, n);
    FeedUnique(f[n..], g, s.cellSeq);
  }

  /** Following the cursor of a page leaves exactly the rest of the feed. */
  lemma NextPageContinues(s: State, cursor: int, env: Env)
    requires Valid(s) && s.seqNo <= I64_MAX && PageAt(s, cursor, env).more
    ensures FeedAfter(s, cursor) == PageAt(s, cursor, env).keys + FeedAfter(s, PageAt(s, cursor, env).next)
  {
    var n := PageIsPrefix(s, cursor, env);
    FeedSplit(s, cursor, n);
    CutJoins(FeedAfter(s, cursor), n, PageAt(s, cursor, env).keys, FeedAfter(s, PageAt(s, cursor, env).next));
  }

  lemma CutJoins(f: seq<Key>, n: nat, x: seq<Key>, y: seq<Key>)
    requires n <= |f| && x == f[..n] && y == f[n..]
    ensures f == x + y
  {
  }

  /** All pages from a cursor on, while the server stands still. */
  ghost function Pages(s: State, cursor: int, env: Env): seq<seq<Key>>
    requires Valid(s)
    decreases I64_MAX as int - cursor
  {
    var page := PageAt(s, cursor, env);
    if !page.more then [page.keys]
    else
      PageAdvances(s, cursor, env);
      PageCapped(s, cursor, env);
      [page.keys] + Pages(s, page.next, env)
  }

  lemma PageCapped(s: State, cursor: int, env: Env)
    requires Valid(s) && PageAt(s, cursor, env).more
    ensures PageAt(s, cursor, env).next <= I64_MAX
  {
    var n := PageIsPrefix(s, cursor, env);
  }

  ghost function Concat<T>(parts: seq<seq<T>>): seq<T> {
    if parts == [] then [] else parts[0] + Concat(parts[1..])
  }

  lemma ConcatOne<T>(head: seq<T>, rest: seq<seq<T>>)
    ensures Concat([head] + rest) == head + Concat(rest)
  {
    assert ([head] + rest)[1..] == rest;
  }

  /** Following cursors yields exactly the cells after the start, each once, in feed order,
      within as many pages as there are pending cells. */
  lemma {:induction false} PagesRefineFeed(s: State, cursor: int, env: Env)
    requires Valid(s) && s.seqNo <= I64_MAX
    ensures Concat(Pages(s, cursor, env)) == FeedAfter(s, cursor)
    ensures |Pages(s, cursor, env)| <= 1 || |Pages(s, cursor, env)| <= |FeedAfter(s, cursor)|
    decreases I64_MAX as int - cursor
  {
    if !PageAt(s, cursor, env).more {
      LastPage(s, cursor, env);
    } else {
      PageAdvances(s, cursor, env);
      PageCapped(s, cursor, env);
      PagesRefineFeed(s, PageAt(s, cursor, env).next, env);
      NextPageContinues(s, cursor, env);
      ConcatOne(PageAt(s, cursor, env).keys, Pages(s, PageAt(s, cursor, env).next, env));
    }
  }

  lemma LastPage(s: State, cursor: int, env: Env)
    requires Valid(s) && !PageAt(s, cursor, env).more
    ensures Pages(s, cursor, env) == [FeedAfter(s, cursor)] && Concat(Pages(s, cursor, env)) == FeedAfter(s, cursor)
  {
    var n := PageIsPrefix(s, cursor, env);
    WholeFeed(FeedAfter(s, cursor), n, PageAt(s, cursor, env).keys);
    ConcatSingle(FeedAfter(s, cursor));
  }

  lemma WholeFeed(f: seq<Key>, n: nat, x: seq<Key>)
    requires n == |f| && x == f[..n]
    ensures x == f
  {
  }

  lemma ConcatSingle<T>(x: seq<T>)
    ensures Concat([x]) == x
  {
    ConcatOne(x, []);
    assert [x] + [] == [x];
  }

  /** The feed lists exactly the cells positioned after the cursor. */
  lemma FeedComplete(s: State, cursor: int, k: Key)
    requires Valid(s) && s.seqNo <= I64_MAX
    ensures k in FeedAfter(s, cursor) <==> k in s.cells && s.cellSeq[k] > cursor
  {
  }

  ghost function Bytes(ks: seq<Key>, cells: map<Key, Cell>, size: (Key, Cell) -> nat): nat
    requires forall k :: k in ks ==> k in cells
  {
    if ks == [] then 0
    else
      assert ks[|ks| - 1] in ks;
      Bytes(ks[..|ks| - 1], cells, size) + size(ks[|ks| - 1], cells[ks[|ks| - 1]])
  }

  lemma {:induction false} PageEndBudget(feed: seq<Key>, cells: map<Key, Cell>, size: (Key, Cell) -> nat, i: nat, bytes: nat)
    requires i <= |feed| && (forall k :: k in feed ==> k in cells) && bytes == Bytes(feed[..i], cells, size)
    requires i <= 1 || bytes <= MAX_RESPONSE_BYTES
    ensures var n := PageEnd(feed, cells, size, i, bytes);
      n <= 1 || Bytes(feed[..n], cells, size) <= MAX_RESPONSE_BYTES
    decreases |feed| - i
  {
    if i < |feed| && i < MAX_RESPONSE_CELLS {
      var cost := size(feed[i], cells[feed[i]]);
      if !(i > 0 && bytes + cost > MAX_RESPONSE_BYTES) {
        assert feed[..i + 1][..i] == feed[..i];
        PageEndBudget(feed, cells, size, i + 1, bytes + cost);
      }
    }
  }

  /** Every page stays within the cell budget, and within the byte budget unless it is a single cell. */
  lemma PageWithinBudget(s: State, cursor: int, env: Env)
    requires Valid(s)
    ensures var page := PageAt(s, cursor, env);
      && |page.keys| <= MAX_RESPONSE_CELLS
      && (forall k :: k in page.keys ==> k in s.cells)
      && (|page.keys| <= 1 || Bytes(page.keys, s.cells, env.size) <= MAX_RESPONSE_BYTES)
  {
    var n := PageIsPrefix(s, cursor, env);
    PageEndBudget(FeedAfter(s, cursor), s.cells, env.size, 0, 0);
  }

  /** A page of a server that stores something reaches one of its cells. */
  lemma PageReaches(s: State, env: Env) returns (k: Key)
    requires Valid(s) && s.cells != map[] && s.seqNo <= I64_MAX
    ensures k in s.cells && s.cellSeq[k] <= PageFrom(s.cells, s.seqNo, s.cellSeq, 0, env).next
  {
    var feed := BySeq(Pending(s.cells, s.cellSeq, 0), s.cellSeq);
    FeedStarted(s, feed);
    k := Reached(s, feed, PageEnd(feed, s.cells, env.size, 0, 0), PageFrom(s.cells, s.seqNo, s.cellSeq, 0, env).next);
  }

  lemma Reached(s: State, feed: seq<Key>, n: nat, next: int) returns (k: Key)
    requires Valid(s) && s.seqNo <= I64_MAX && 0 < n <= |feed|
    requires forall k :: k in feed ==> k in s.cells && k in s.cellSeq
    requires next == if n == |feed| then Cap(s.seqNo) else Cap(s.cellSeq[feed[n - 1]])
    ensures k in s.cells && s.cellSeq[k] <= next
  {
    k := feed[n - 1];
    assert k in feed;
  }

  lemma FeedStarted(s: State, feed: seq<Key>)
    requires Valid(s) && s.cells != map[] && feed == BySeq(Pending(s.cells, s.cellSeq, 0), s.cellSeq)
    ensures feed != [] && forall k :: k in feed ==> k in s.cells && k in s.cellSeq
  {
    var k :| k in s.cells;
    assert k in Pending(s.cells, s.cellSeq, 0);
    assert k in feed;
  }

  /** A request without changes is answered with the page at its cursor and stores nothing,
      so a device that keeps asking walks the pages above. */
  lemma EmptyRequestGetsPage(s: State, p: SyncPayload, device: string, sec: Security, env: Env)
    requires Valid(s) && p.changes == [] && Merge(s, p, device, sec, env).Ok?
    requires CursorValid(s.seqNo, Issued(s, device), p.cursor)
    ensures var Merged(t, r) := Merge(s, p, device, sec, env).value; var page := PageAt(s, p.cursor, env);
      && t.cells == s.cells && t.seqNo == s.seqNo && t.cellSeq == s.cellSeq
      && CellsOf(r.changes) == Restrict(s.cells, page.keys)
      && r.cursor == page.next && r.hasMore == page.more
      && CursorValid(t.seqNo, Issued(t, device), r.cursor)
  {
    var b, m := MergeParts(s, p, device, sec, env);
    assert Writes(p.changes) == [];
    assert b == Start(s);
    GroupRowsRoundTrip(Restrict(s.cells, PageAt(s, p.cursor, env).keys));
    PageCursor(s.cells, s.seqNo, s.cellSeq, p.cursor, env);
  }
}
