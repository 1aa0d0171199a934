/** What each operation on a device's scopes needs and does, in plain terms of its tables. */
module ScopeSteps {
  import opened Names
  import opened Cells
  import opened Payload
  import opened Replica
  import opened Client
  import opened ClientFacts
  import opened Lww
  import opened Acceptance
  import opened DeviceSteps

  // --- Revisions -------------------------------------------------------

  /** The revision after the scope's last one, 1 for a scope never used. */
  function NextRevision(c: Client, scope: string): nat {
    if scope in c.scopes then c.scopes[scope].version + 1 else 1
  }

  ghost predicate HoldsRow(c: Client, scope: string, row: string) {
    exists m :: m in c.members && m.scope == scope && m.row == row
  }

  lemma HoldsRowIs(c: Client, scope: string, row: string)
    ensures row in ScopeRows(c, scope) <==> HoldsRow(c, scope, row)
  {
  }

  /** Only this scope's revision changed, to this one. */
  ghost predicate Revised(c: Client, d: Client, scope: string, version: nat, active: bool) {
    && scope in d.scopes && d.scopes[scope].version == version && d.scopes[scope].active == active
    && forall s :: s != scope ==> (s in d.scopes <==> s in c.scopes) && (s in c.scopes ==> d.scopes[s] == c.scopes[s])
  }

  // --- Requesting ------------------------------------------------------

  /** The members listed once each, in order. */
  ghost predicate ListsMembers(ids: seq<string>, c: Client, scope: string) {
    && (forall row :: row in ids <==> HoldsRow(c, scope, row))
    && forall i, j :: 0 <= i < j < |ids| ==> Precedes(ids[i], ids[j])
  }

  /** A scoped request needs a named scope with a revision left, an acceptable interest, an acceptable delta and presentable
      members; it takes the next revision, which becomes the active one, and carries the members and the delta. */
  lemma RequestExactly(c: Client, scope: string, interest: Interest, t: Schema)
    ensures PartialRequestOf(c, scope, interest, t).Ok? ==>
      var Requested(d, q) := PartialRequestOf(c, scope, interest, t).value;
      && q.scope == scope && q.version == NextRevision(c, scope) && q.interest == interest && q.sync == DeltaOf(c, t)
      && ListsMembers(q.known, c, scope)
      && Revised(c, d, scope, NextRevision(c, scope), true) && d.(scopes := c.scopes) == c
    ensures PartialRequestOf(c, scope, interest, t).Ok? <==>
      && Printable(scope, 255) && NextRevision(c, scope) < 0x8000_0000_0000_0000 && Interesting(interest, t)
      && LocalDelta(c, t).Ok? && Listed(SortedSeq(ScopeRows(c, scope)))
  {
    var known := SortedSeq(ScopeRows(c, scope));
    forall row ensures row in known <==> HoldsRow(c, scope, row) {
      HoldsRowIs(c, scope, row);
    }
    forall i, j | 0 <= i < j < |known| ensures Precedes(known[i], known[j]) {
      BeforeParts(known[i], known[j]);
    }
    ScopedRequestsExactly(PartialRequest(scope, NextRevision(c, scope), interest, known, DeltaOf(c, t)), c.device, t);
  }

  // --- Eviction after a change of membership ---------------------------

  ghost predicate RowHasDirty(c: Client, row: string) {
    exists k :: k in c.log && k.row == row && c.log[k].dirty
  }

  /** Exactly the marked rows that no scope holds and that have nothing to send are gone, with columns, log and markers;
      markers stay only on rows that no scope holds and that have. */
  ghost predicate Swept(b: Client, d: Client) {
    && (forall row :: row in d.rows <==> row in b.rows && !Leaves(b, row))
    && (forall k :: (k in d.log <==> k in b.log && !Leaves(b, k.row)) && (k in d.log ==> d.log[k] == b.log[k]))
    && (forall k :: (k in d.app <==> k in b.app && !Leaves(b, k.row)) && (k in d.app ==> d.app[k] == b.app[k]))
    && (forall m :: m in d.evictions <==> m in b.evictions && !HeldSomewhere(b, m.row) && RowHasDirty(b, m.row))
    && d.(rows := b.rows, log := b.log, app := b.app, evictions := b.evictions) == b
  }

  ghost predicate Leaves(b: Client, row: string) {
    (exists m :: m in b.evictions && m.row == row) && !HeldSomewhere(b, row) && !RowHasDirty(b, row)
  }

  lemma SweptIs(b: Client)
    ensures Swept(b, Cleanup(b))
  {
    forall row ensures Evictable(b, row) <==> Leaves(b, row) {
    }
    forall row ensures HasDirty(b, row) <==> RowHasDirty(b, row) {
    }
  }

  /** The scope's members are these rows, the rows it lost are marked, its members are not; other scopes are as they were. */
  ghost predicate Reassigned(c: Client, b: Client, scope: string, rows: set<string>, lost: set<string>) {
    && (forall m :: m in b.members <==> if m.scope == scope then m.row in rows else m in c.members)
    && (forall m :: m in b.evictions <==>
          if m.scope == scope then m.row in lost || (m in c.evictions && m.row !in rows) else m in c.evictions)
    && b.(members := c.members, evictions := c.evictions, scopes := c.scopes) == c
  }

  lemma ReassignedIs(c: Client, scope: string, rows: set<string>, lost: set<string>, scopes: map<string, Scope>)
    ensures Reassigned(c, Rescope(c, scope, rows, lost).(scopes := scopes), scope, rows, lost)
  {
    var b := Rescope(c, scope, rows, lost).(scopes := scopes);
    forall m ensures m in b.members <==> if m.scope == scope then m.row in rows else m in c.members {
      if m.scope == scope && m.row in rows { assert m == Member(scope, m.row); }
    }
    forall m ensures m in b.evictions <==>
      if m.scope == scope then m.row in lost || (m in c.evictions && m.row !in rows) else m in c.evictions
    {
      if m.scope == scope && m.row in lost { assert m == Member(scope, m.row); }
    }
  }

  // --- Removing --------------------------------------------------------

  /** Removing a scope needs its name valid and a revision left; the next revision becomes the last, inactive one, its
      members become markers, and what nothing else holds is swept. */
  lemma RemovalExactly(c: Client, scope: string)
    ensures RemoveScope(c, scope).Ok? <==> Printable(scope, 255) && NextRevision(c, scope) < 0x8000_0000_0000_0000
    ensures RemoveScope(c, scope).Ok? ==> Removed(c, RemoveScope(c, scope).value, scope)
  {
    PrintableIs(scope);
    if RemoveScope(c, scope).Ok? {
      RemoveOutcome(c, scope);
      RemovedIs(c, scope, c.scopes[scope := Scope(NextRevision(c, scope), false)], ScopeRows(c, scope));
    }
  }

  lemma RemovedIs(c: Client, scope: string, scopes: map<string, Scope>, lost: set<string>)
    requires scopes == c.scopes[scope := Scope(NextRevision(c, scope), false)] && lost == ScopeRows(c, scope)
    ensures Removed(c, Cleanup(Rescope(c, scope, {}, lost).(scopes := scopes)), scope)
  {
    var b := Rescope(c, scope, {}, lost).(scopes := scopes);
    assert WereMembers(lost, c, scope);
    ReassignedIs(c, scope, {}, lost, scopes);
    SweptIs(b);
    assert Revised(c, Cleanup(b), scope, NextRevision(c, scope), false);
  }

  ghost predicate Removed(c: Client, d: Client, scope: string) {
    exists b, lost :: WereMembers(lost, c, scope) && Reassigned(c, b, scope, {}, lost) && Swept(b, d)
                      && Revised(c, d, scope, NextRevision(c, scope), false)
  }

  ghost predicate WereMembers(rows: set<string>, c: Client, scope: string) {
    forall row :: row in rows <==> HoldsRow(c, scope, row)
  }

  // --- Applying a snapshot ---------------------------------------------

  /** The scope stands at exactly this revision, active. */
  predicate StandsAt(c: Client, scope: string, version: nat) {
    scope in c.scopes && c.scopes[scope].version == version && c.scopes[scope].active
  }

  /** A snapshot is applied exactly when request and response are acceptable and of one scope and revision, the scope
      still stands there, the evicted rows are the known ones that are no members, and the round itself completes;
      then the scope's members are the snapshot's and what the scope lost is swept. */
  lemma SnapshotApplies(c: Client, q: PartialRequest, r: PartialResponse, t: Schema)
    ensures CompletePartial(c, q, r, t).Ok? <==>
      && ValidPartialRequest(q, c.device, t) && ValidPartialResponse(r, t)
      && r.scope == q.scope && r.version == q.version && StandsAt(c, q.scope, q.version)
      && (forall row :: row in r.evicted <==> row in q.known && row !in r.members)
      && CompleteSync(c, q.sync, r.sync, t).Ok?
    ensures CompletePartial(c, q, r, t).Ok? ==>
      exists b :: Reassigned(CompleteSync(c, q.sync, r.sync, t).value, b, q.scope, Elements(r.members), Elements(r.evicted))
                  && b.scopes == c.scopes && Swept(b, CompletePartial(c, q, r, t).value)
  {
    SnapshotAccepted(c, q, r, t);
    if CompletePartial(c, q, r, t).Ok? { SnapshotLeaves(c, q, r, t); }
  }

  lemma SnapshotAccepted(c: Client, q: PartialRequest, r: PartialResponse, t: Schema)
    ensures CompletePartial(c, q, r, t).Ok? <==>
      && ValidPartialRequest(q, c.device, t) && ValidPartialResponse(r, t)
      && r.scope == q.scope && r.version == q.version && StandsAt(c, q.scope, q.version)
      && (forall row :: row in r.evicted <==> row in q.known && row !in r.members)
      && CompleteSync(c, q.sync, r.sync, t).Ok?
  {
    SnapshotChecked(c, q, r, t);
    if ValidPartialRequest(q, c.device, t) && ValidPartialResponse(r, t) { EvictedIs(q.known, r.members, r.evicted); }
  }

  lemma SnapshotChecked(c: Client, q: PartialRequest, r: PartialResponse, t: Schema)
    ensures CompletePartial(c, q, r, t).Ok? <==>
      && ValidPartialRequest(q, c.device, t) && ValidPartialResponse(r, t)
      && r.scope == q.scope && r.version == q.version && StandsAt(c, q.scope, q.version)
      && Dropped(q.known, r.members) == r.evicted && CompleteSync(c, q.sync, r.sync, t).Ok?
  {
  }

  lemma SnapshotLeaves(c: Client, q: PartialRequest, r: PartialResponse, t: Schema)
    requires CompletePartial(c, q, r, t).Ok?
    ensures CompleteSync(c, q.sync, r.sync, t).Ok?
    ensures exists b :: Reassigned(CompleteSync(c, q.sync, r.sync, t).value, b, q.scope, Elements(r.members), Elements(r.evicted))
                        && b.scopes == c.scopes && Swept(b, CompletePartial(c, q, r, t).value)
  {
    var a := CompleteSync(c, q.sync, r.sync, t).value;
    CompleteSyncScopes(c, q.sync, r.sync, t);
    ReassignedIs(a, q.scope, Elements(r.members), Elements(r.evicted), a.scopes);
    SweptIs(Rescope(a, q.scope, Elements(r.members), Elements(r.evicted)));
  }

  lemma EvictedIs(known: seq<string>, members: seq<string>, evicted: seq<string>)
    requires StrictlySorted(known) && StrictlySorted(evicted)
    ensures Dropped(known, members) == evicted <==> forall row :: row in evicted <==> row in known && row !in members
  {
    DroppedMembers(known, members);
    if forall row :: row in evicted <==> row in known && row !in members { SortedUnique(Dropped(known, members), evicted); }
  }

  /** A completed round is the acknowledgement followed by the remote apply, both or none. */
  lemma RoundExactly(c: Client, p: SyncPayload, r: SyncPayload, t: Schema, d: Client)
    ensures CompleteSync(c, p, r, t) == Result<Client>.Ok(d) <==>
      exists a :: AcknowledgeResponse(c, p, r, t) == Result<Client>.Ok(a) && ApplyRemote(a, r, t) == Result<Client>.Ok(d)
  {
  }
}
