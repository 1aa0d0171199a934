/** Cell registers, their versions, and the column contract they obey. */
module Cells {
  import opened Names

  const I64_MAX: nat := 9_223_372_036_854_775_807
  const U64_MAX: nat := 18_446_744_073_709_551_615
  const MAX_TEXT_BYTES: nat := 1_048_576
  const SERVER_DEVICE: string := "loomabase-server"
  const LIVENESS: string := "deleted"

  datatype Value =
    | Null
    | Integer(i: int)
    | Real(r: real)
    | NonFinite
    | Text(s: string)
    | Boolean(b: bool)
    | Blob(bytes: seq<nat>)

  datatype Version = Version(clock: nat, device: string)
  datatype Cell = Cell(value: Value, version: Version)
  datatype Key = Key(row: string, column: string)
  datatype Write = Write(key: Key, cell: Cell)

  // --- Version order ---------------------------------------------------

  predicate Older(a: Version, b: Version) {
    a.clock < b.clock || (a.clock == b.clock && Before(a.device, b.device))
  }

  predicate AtMost(a: Version, b: Version) {
    a == b || Older(a, b)
  }

  datatype MergeDecision = AcceptIncoming | KeepCurrent | Equal

  /** The last-writer-wins decision is the trichotomy of the version order. */
  function DecideLww(current: Version, incoming: Version): (d: MergeDecision)
    ensures d.AcceptIncoming? <==> !AtMost(incoming, current)
    ensures d.KeepCurrent? <==> AtMost(incoming, current) && incoming != current
    ensures d.Equal? <==> AtMost(incoming, current) && AtMost(current, incoming)
  {
    VersionTotal(current, incoming);
    if Older(current, incoming) then AcceptIncoming
    else if Older(incoming, current) then KeepCurrent
    else Equal
  }

  lemma VersionTotal(a: Version, b: Version)
    ensures Older(a, b) <==> !AtMost(b, a)
    ensures AtMost(a, b) || AtMost(b, a)
    ensures AtMost(a, b) && AtMost(b, a) ==> a == b
  {
    BeforeTotal(a.device, b.device);
  }

  lemma VersionTransitive(a: Version, b: Version, c: Version)
    requires AtMost(a, b) && AtMost(b, c)
    ensures AtMost(a, c)
    ensures Older(a, b) || Older(b, c) ==> Older(a, c)
  {
    if a.clock == b.clock == c.clock && a != b && b != c {
      BeforeTransitive(a.device, b.device, c.device);
    }
  }

  /** `m` holds key `k` at version `v` or a newer one. */
  ghost predicate Holds(m: map<Key, Cell>, k: Key, v: Version) {
    k in m && AtMost(v, m[k].version)
  }

  lemma HoldsTransitive(m: map<Key, Cell>, k: Key, v: Version, w: Version)
    requires Holds(m, k, v) && AtMost(w, v)
    ensures Holds(m, k, w)
  {
    VersionTransitive(w, v, m[k].version);
  }

  /** Pointwise version order between two cell maps. */
  ghost predicate Below(a: map<Key, Cell>, b: map<Key, Cell>) {
    forall k :: k in a ==> Holds(b, k, a[k].version)
  }

  lemma BelowTransitive(a: map<Key, Cell>, b: map<Key, Cell>, c: map<Key, Cell>)
    requires Below(a, b) && Below(b, c)
    ensures Below(a, c)
  {
    forall k | k in a ensures Holds(c, k, a[k].version) {
      HoldsTransitive(c, k, b[k].version, a[k].version);
    }
  }

  lemma HoldsBelow(a: map<Key, Cell>, b: map<Key, Cell>, k: Key, v: Version)
    requires Holds(a, k, v) && Below(a, b)
    ensures Holds(b, k, v)
  {
    HoldsTransitive(b, k, a[k].version, v);
  }

  // --- Contract --------------------------------------------------------

  datatype ColumnType = TextColumn | IntegerColumn | RealColumn | BooleanColumn

  /** The synchronized columns of one table, the liveness register included. */
  datatype Schema = Schema(fingerprint: nat, types: map<string, ColumnType>)

  ghost predicate WellFormed(t: Schema) {
    && LIVENESS in t.types && t.types[LIVENESS] == BooleanColumn
    && forall c :: c in t.types ==> ValidIdentifier(c)
  }

  function Utf8Length(s: string): nat {
    if s == [] then 0
    else
      (var c := s[0] as int;
       if c < 0x80 then 1 else if c < 0x800 then 2 else if c < 0x1_0000 then 3 else 4)
      + Utf8Length(s[1..])
  }

  predicate IsControl(c: char) {
    (c as int) < 0x20 || 0x7F <= (c as int) < 0xA0
  }

  predicate ValidIdentifier(s: string) {
    s != [] && Utf8Length(s) <= 255 && forall i :: 0 <= i < |s| ==> !IsControl(s[i])
  }

  lemma {:induction false} Utf8Bound(s: string)
    ensures Utf8Length(s) <= 4 * |s|
  {
    if s != [] { Utf8Bound(s[1..]); }
  }

  predicate Plain(s: string) {
    forall i :: 0 <= i < |s| ==> '-' <= s[i] <= 'z'
  }

  lemma PlainIdentifier(s: string)
    requires 1 <= |s| <= 63 && Plain(s)
    ensures ValidIdentifier(s)
  {
    Utf8Bound(s);
  }

  lemma ServerIdentifier()
    ensures ValidIdentifier(SERVER_DEVICE)
  {
    PlainIdentifier(SERVER_DEVICE);
  }

  predicate ValidColumn(t: Schema, column: string, value: Value) {
    column in t.types &&
    match (t.types[column], value)
    case (TextColumn, Text(s)) => Utf8Length(s) <= MAX_TEXT_BYTES
    case (IntegerColumn, Integer(_)) => true
    case (BooleanColumn, Boolean(_)) => true
    case (RealColumn, Real(_)) => true
    case _ => false
  }

  function DefaultValue(ty: ColumnType): Value {
    match ty
    case TextColumn => Text("")
    case IntegerColumn => Integer(0)
    case RealColumn => Real(0.0)
    case BooleanColumn => Boolean(false)
  }

  predicate ValidCell(t: Schema, key: Key, cell: Cell) {
    && ValidColumn(t, key.column, cell.value)
    && ValidIdentifier(cell.version.device)
    && cell.version.clock <= I64_MAX
  }
}
