/** What a local operation does as its caller sees it: written values read back,
    everything else stays, and a restored row is the row that was deleted. */
module LocalWrites {
  import opened Names
  import opened Cells
  import opened Server
  import opened Client
  import opened ClientFacts

  /** The columns an operation writes. */
  ghost predicate Targets(op: LocalOp, t: Schema, k: Key) {
    match op
    case Insert(row, _) => k.row == row && k.column in t.types
    case Set(row, column, _) => k == Key(row, column)
    case Overwrite(row, column, _) => k == Key(row, column)
    case Delete(row) => k == Key(row, LIVENESS)
    case Restore(row) => k == Key(row, LIVENESS)
  }

  /** The value its caller asked for there. */
  ghost function Asked(op: LocalOp, t: Schema, k: Key): Value
    requires Targets(op, t, k)
  {
    match op
    case Insert(_, values) => if k.column in values then values[k.column] else DefaultValue(t.types[k.column])
    case Set(_, _, value) => value
    case Overwrite(_, _, value) => value
    case Delete(_) => Boolean(true)
    case Restore(_) => Boolean(false)
  }

  /** The written value reads back; if it changed it is logged dirty at the next clock value. */
  ghost predicate WrittenAt(c: Client, d: Client, k: Key, v: Value) {
    && k in d.app && d.app[k] == v
    && (Lookup(c.app, k) != Some(v) ==>
          d.clock == c.clock + 1 && Lookup(d.log, k) == Some(Entry(Cell(v, Version(c.clock + 1, c.device)), true)))
  }

  ghost predicate UntouchedAt(c: Client, d: Client, k: Key) {
    Lookup(d.app, k) == Lookup(c.app, k) && Lookup(d.log, k) == Lookup(c.log, k)
  }

  lemma CaptureAt(c: Client, vs: map<Key, Value>, k: Key)
    ensures k in vs ==> WrittenAt(c, Capture(c, vs), k, vs[k])
    ensures k !in vs ==> UntouchedAt(c, Capture(c, vs), k)
  {
  }

  lemma AssignAt(c: Client, key: Key, value: Value, k: Key)
    requires Assign(c, key, value).Ok?
    ensures k == key ==> WrittenAt(c, Assign(c, key, value).value, k, value)
    ensures k != key ==> UntouchedAt(c, Assign(c, key, value).value, k)
  {
    CaptureAt(c, map[key := value], k);
  }

  /** After a successful operation every target shows the asked value, and nothing else changed. */
  lemma WritesReadBack(c: Client, op: LocalOp, t: Schema, k: Key)
    requires Apply(c, op, t).Ok?
    ensures var d := Apply(c, op, t).value;
      && (Targets(op, t, k) ==> WrittenAt(c, d, k, Asked(op, t, k)))
      && (!Targets(op, t, k) ==> UntouchedAt(c, d, k))
      && d.rows == c.rows + (if op.Insert? then {op.row} else {})
  {
    match op
    case Insert(row, values) =>
      RowValuesFacts(row, values, t, k);
      CaptureAt(c.(rows := c.rows + {row}), RowValues(row, values, t), k);
    case Set(row, column, value) => AssignAt(c, Key(row, column), value, k);
    case Overwrite(row, column, value) => AssignAt(c, Key(row, column), value, k);
    case Delete(row) => AssignAt(c, Key(row, LIVENESS), Boolean(true), k);
    case Restore(row) => AssignAt(c, Key(row, LIVENESS), Boolean(false), k);
  }

  /** Writing the value a column already shows leaves the device as it was. */
  lemma RewriteIsSilent(c: Client, op: LocalOp, t: Schema, k: Key)
    requires Apply(c, op, t).Ok? && (op.Set? || op.Overwrite?) && Targets(op, t, k) && Lookup(c.app, k) == Some(Asked(op, t, k))
    ensures Apply(c, op, t).value == c
  {
    assert Assign(c, k, Asked(op, t, k)) == Ok(c);
  }

  /** Deleting a live row and restoring it gives back the same table under a liveness
      version newer than the deletion's. */
  lemma DeleteRestoreRoundTrip(c: Client, row: string, t: Schema)
    requires ValidIdentifier(row) && IsLive(c, row) && c.clock + 2 <= I64_MAX
    ensures Apply(c, Delete(row), t).Ok? && IsTombstone(Apply(c, Delete(row), t).value, row)
    ensures var d := Apply(c, Delete(row), t).value;
      Apply(d, Restore(row), t).Ok? &&
      var e := Apply(d, Restore(row), t).value;
      && e.rows == c.rows && e.app == c.app && IsLive(e, row)
      && Older(d.log[Key(row, LIVENESS)].cell.version, e.log[Key(row, LIVENESS)].cell.version)
  {
    var live := Key(row, LIVENESS);
    var d := Capture(c, map[live := Boolean(true)]);
    assert Apply(c, Delete(row), t) == Ok(d);
    var e := Capture(d, map[live := Boolean(false)]);
    assert Apply(d, Restore(row), t) == Ok(e);
    forall k ensures Lookup(e.app, k) == Lookup(c.app, k) {
      CaptureAt(c, map[live := Boolean(true)], k);
      CaptureAt(d, map[live := Boolean(false)], k);
    }
    LookupEqual(e.app, c.app);
  }
}
