/** Table contracts: validation, descriptors, and the FNV-1a fingerprints over them. */
module Contract {
  import opened Names
  import opened Cells

  const MAX_SQL_LENGTH: nat := 63
  const PRIMARY_KEY: string := "id"
  const RESERVED_TABLES: set<string> :=
    {"client_state", "loomabase_cursor", "loomabase_cursor_lease", "loomabase_server_state", "loomabase_state"}

  datatype ColumnDef = ColumnDef(name: string, ty: ColumnType)
  datatype TableDef = TableDef(name: string, columns: seq<ColumnDef>)

  // --- Validation ------------------------------------------------------

  predicate IsSqlStart(c: char) {
    c == '_' || 'a' <= c <= 'z'
  }

  predicate IsSqlChar(c: char) {
    IsSqlStart(c) || '0' <= c <= '9'
  }

  predicate ValidSqlIdentifier(s: string) {
    && 1 <= |s| <= MAX_SQL_LENGTH && IsSqlStart(s[0])
    && forall i :: 0 <= i < |s| ==> IsSqlChar(s[i])
  }

  predicate ValidColumnDef(c: ColumnDef) {
    ValidSqlIdentifier(c.name) && c.name != PRIMARY_KEY && c.name != LIVENESS
  }

  ghost predicate DistinctNames(cs: seq<ColumnDef>) {
    forall i, j :: 0 <= i < j < |cs| ==> cs[i].name != cs[j].name
  }

  ghost predicate ValidTable(t: TableDef) {
    && ValidSqlIdentifier(t.name) && t.name !in RESERVED_TABLES
    && t.columns != []
    && (forall i :: 0 <= i < |t.columns| ==> ValidColumnDef(t.columns[i]))
    && DistinctNames(t.columns)
  }

  method NewTable(name: string, columns: seq<ColumnDef>) returns (r: Result<TableDef>)
    ensures r == if ValidTable(TableDef(name, columns)) then Ok(TableDef(name, columns)) else Err
  {
    if !ValidSqlIdentifier(name) || name in RESERVED_TABLES || columns == [] { return Err; }
    var seen: set<string> := {};
    for i := 0 to |columns|
      invariant seen == set j | 0 <= j < i :: columns[j].name
      invariant forall j :: 0 <= j < i ==> ValidColumnDef(columns[j])
      invariant DistinctNames(columns[..i])
    {
      if !ValidColumnDef(columns[i]) || columns[i].name in seen { return Err; }
      seen := seen + {columns[i].name};
    }
    assert columns[..|columns|] == columns;
    return Ok(TableDef(name, columns));
  }

  function Synchronized(t: TableDef): seq<ColumnDef> {
    t.columns + [ColumnDef(LIVENESS, BooleanColumn)]
  }

  function TypesOf(cs: seq<ColumnDef>): map<string, ColumnType> {
    if cs == [] then map[] else TypesOf(cs[..|cs| - 1])[cs[|cs| - 1].name := cs[|cs| - 1].ty]
  }

  /** The schema a valid table gives the replication protocol. */
  function SchemaOf(t: TableDef): Schema {
    Schema(Fingerprint(t), TypesOf(Synchronized(t)))
  }

  lemma {:induction false} TypesAt(cs: seq<ColumnDef>, c: string)
    ensures c in TypesOf(cs) <==> exists i :: 0 <= i < |cs| && cs[i].name == c
  {
    if cs != [] {
      var n := |cs| - 1;
      TypesAt(cs[..n], c);
      if c in TypesOf(cs[..n]) {
        var i :| 0 <= i < n && cs[..n][i].name == c;
        assert cs[i].name == c;
      }
      if j :| 0 <= j < |cs| && cs[j].name == c && j < n {
        assert cs[..n][j].name == c;
      }
    }
  }

  lemma SqlIdentifiersValid(s: string)
    requires ValidSqlIdentifier(s)
    ensures ValidIdentifier(s)
  {
    PlainIdentifier(s);
  }

  /** Every valid table meets the protocol's schema conditions. */
  lemma SchemaWellFormed(t: TableDef)
    requires ValidTable(t)
    ensures WellFormed(SchemaOf(t))
  {
    var cs := Synchronized(t);
    forall c | c in SchemaOf(t).types ensures ValidIdentifier(c) {
      TypesAt(cs, c);
      var i :| 0 <= i < |cs| && cs[i].name == c;
      if c == LIVENESS { PlainIdentifier(LIVENESS); } else { SqlIdentifiersValid(c); }
    }
  }

  // --- Descriptors -----------------------------------------------------

  const PREFIX: string := "loomabase-contract-v1"

  function Tag(ty: ColumnType): string {
    match ty
    case TextColumn => "text"
    case IntegerColumn => "integer"
    case RealColumn => "real"
    case BooleanColumn => "boolean"
  }

  function ColumnsText(cs: seq<ColumnDef>): string {
    if cs == [] then "" else [';'] + (cs[0].name + ([':'] + (Tag(cs[0].ty) + ColumnsText(cs[1..]))))
  }

  function Descriptor(t: TableDef): string {
    PREFIX + ([';'] + (t.name + ColumnsText(Synchronized(t))))
  }

  predicate Without(s: string, c: char) {
    forall i :: 0 <= i < |s| ==> s[i] != c
  }

  predicate EmptyOrStarts(s: string, c: char) {
    s == [] || s[0] == c
  }

  lemma PrefixUnique(p: string, x: string, y: string)
    requires p + x == p + y
    ensures x == y
  {
    assert x == (p + x)[|p|..] && y == (p + y)[|p|..];
  }

  /** A text is cut in only one way before the first separator. */
  lemma CutUnique(x: string, y: string, u: string, v: string, c: char)
    requires Without(x, c) && Without(u, c) && EmptyOrStarts(y, c) && EmptyOrStarts(v, c)
    requires x + y == u + v
    ensures x == u && y == v
  {
    CutLength(x, y, u, v, c);
    CutLength(u, v, x, y, c);
    assert x == (x + y)[..|x|] && u == (u + v)[..|u|];
    PrefixUnique(x, y, v);
  }

  lemma CutLength(x: string, y: string, u: string, v: string, c: char)
    requires Without(u, c) && EmptyOrStarts(y, c) && x + y == u + v
    ensures |u| <= |x|
  {
    if |x| < |u| { NextIs(x, y, u, v); }
  }

  lemma NextIs(x: string, y: string, u: string, v: string)
    requires x + y == u + v && |x| < |u|
    ensures y != [] && y[0] == u[|x|]
  {
    assert |x + y| == |u + v|;
    assert (x + y)[|x|] == y[0] && (u + v)[|x|] == u[|x|];
  }

  lemma TagUnique(a: ColumnType, b: ColumnType)
    ensures Without(Tag(a), ';')
    ensures Tag(a) == Tag(b) ==> a == b
  {
    assert Tag(a)[0] == if a.TextColumn? then 't' else if a.IntegerColumn? then 'i' else if a.RealColumn? then 'r' else 'b';
    assert Tag(b)[0] == if b.TextColumn? then 't' else if b.IntegerColumn? then 'i' else if b.RealColumn? then 'r' else 'b';
  }

  ghost predicate PlainNames(cs: seq<ColumnDef>) {
    forall i :: 0 <= i < |cs| ==> Without(cs[i].name, ':')
  }

  lemma FieldUnique(a: ColumnDef, x: string, b: ColumnDef, y: string)
    requires Without(a.name, ':') && Without(b.name, ':') && EmptyOrStarts(x, ';') && EmptyOrStarts(y, ';')
    requires [';'] + (a.name + ([':'] + (Tag(a.ty) + x))) == [';'] + (b.name + ([':'] + (Tag(b.ty) + y)))
    ensures a == b && x == y
  {
    var ta, tb := [':'] + (Tag(a.ty) + x), [':'] + (Tag(b.ty) + y);
    PrefixUnique([';'], a.name + ta, b.name + tb);
    CutUnique(a.name, ta, b.name, tb, ':');
    PrefixUnique([':'], Tag(a.ty) + x, Tag(b.ty) + y);
    TagUnique(a.ty, b.ty);
    TagUnique(b.ty, a.ty);
    CutUnique(Tag(a.ty), x, Tag(b.ty), y, ';');
  }

  lemma {:induction false} ColumnsTextUnique(a: seq<ColumnDef>, b: seq<ColumnDef>)
    requires PlainNames(a) && PlainNames(b) && ColumnsText(a) == ColumnsText(b)
    ensures a == b
  {
    if a != [] && b != [] {
      FieldUnique(a[0], ColumnsText(a[1..]), b[0], ColumnsText(b[1..]));
      ColumnsTextUnique(a[1..], b[1..]);
      assert a == [a[0]] + a[1..] && b == [b[0]] + b[1..];
    }
  }

  lemma SqlNamesPlain(t: TableDef)
    requires ValidTable(t)
    ensures Without(t.name, ';') && PlainNames(Synchronized(t))
  {
  }

  /** Descriptors are uniquely decodable: equal texts come from the same name and
      the same ordered, typed columns. */
  lemma DescriptorUnique(a: TableDef, b: TableDef)
    requires ValidTable(a) && ValidTable(b) && Descriptor(a) == Descriptor(b)
    ensures a == b
  {
    var ca, cb := Synchronized(a), Synchronized(b);
    SqlNamesPlain(a);
    SqlNamesPlain(b);
    PrefixUnique(PREFIX, [';'] + (a.name + ColumnsText(ca)), [';'] + (b.name + ColumnsText(cb)));
    PrefixUnique([';'], a.name + ColumnsText(ca), b.name + ColumnsText(cb));
    CutUnique(a.name, ColumnsText(ca), b.name, ColumnsText(cb), ';');
    ColumnsTextUnique(ca, cb);
    assert a.columns == ca[..|ca| - 1] && b.columns == cb[..|cb| - 1];
  }

  // --- FNV-1a ----------------------------------------------------------

  const WORD: nat := 0x1_0000_0000_0000_0000
  const FNV_OFFSET: nat := 0xcbf2_9ce4_8422_2325
  const FNV_PRIME: nat := 0x0000_0100_0000_01b3
  const FNV_INVERSE: nat := 0xce96_5057_aff6_957b

  function Pow2(n: nat): nat {
    if n == 0 then 1 else 2 * Pow2(n - 1)
  }

  /** Exclusive or of the low `width` bits. */
  function Xor(x: nat, y: nat, width: nat): nat {
    if width == 0 then 0 else (if x % 2 == y % 2 then 0 else 1) + 2 * Xor(x / 2, y / 2, width - 1)
  }

  lemma {:induction false} XorBound(x: nat, y: nat, width: nat)
    ensures Xor(x, y, width) < Pow2(width)
  {
    if width != 0 { XorBound(x / 2, y / 2, width - 1); }
  }

  lemma {:induction false} XorInvolution(x: nat, y: nat, width: nat)
    requires x < Pow2(width)
    ensures Xor(Xor(x, y, width), y, width) == x
  {
    if width != 0 {
      var rest := Xor(x / 2, y / 2, width - 1);
      assert Xor(x, y, width) / 2 == rest;
      XorInvolution(x / 2, y / 2, width - 1);
    }
  }

  /** Exclusive or with different words gives different words. */
  lemma {:induction false} XorCancels(h: nat, x: nat, y: nat, width: nat)
    requires x < Pow2(width) && y < Pow2(width) && Xor(h, x, width) == Xor(h, y, width)
    ensures x == y
  {
    if width != 0 {
      assert Xor(h, x, width) / 2 == Xor(h / 2, x / 2, width - 1);
      assert Xor(h, y, width) / 2 == Xor(h / 2, y / 2, width - 1);
      XorCancels(h / 2, x / 2, y / 2, width - 1);
    }
  }

  lemma WordIs()
    ensures Pow2(64) == WORD
  {
    assert Pow2(8) == 0x100;
    PowerSum(8, 8);
    PowerSum(16, 16);
    PowerSum(32, 32);
  }

  lemma {:induction false} PowerSum(a: nat, b: nat)
    ensures Pow2(a + b) == Pow2(a) * Pow2(b)
  {
    if a != 0 { PowerSum(a - 1, b); }
  }

  function HashStep(h: nat, byte: nat): nat {
    Xor(h, byte, 64) * FNV_PRIME % WORD
  }

  function HashFrom(h: nat, bytes: seq<nat>): nat {
    if bytes == [] then h else HashStep(HashFrom(h, bytes[..|bytes| - 1]), bytes[|bytes| - 1])
  }

  function Unstep(h: nat, byte: nat): nat {
    Xor(h * FNV_INVERSE % WORD, byte, 64)
  }

  /** Multiplying by a unit of the ring of words is undone by its inverse. */
  lemma MultiplyUndone(x: nat, a: nat, b: nat)
    requires x < WORD && a * b % WORD == 1
    ensures x * a % WORD * b % WORD == x
  {
    var q, k := x * a / WORD, a * b / WORD;
    assert x * a % WORD == x * a - q * WORD;
    assert a * b == k * WORD + 1;
    var r := x * a % WORD;
    assert r * b == x * (a * b) - q * WORD * b;
    assert x * (a * b) == x * k * WORD + x;
    assert r * b == (x * k - q * b) * WORD + x;
    RemainderIs(r * b, x * k - q * b, x);
  }

  lemma RemainderIs(n: int, q: int, r: nat)
    requires n == q * WORD + r && r < WORD
    ensures n % WORD == r
  {
  }

  /** For each byte the hash step is a bijection of the 64-bit state, with this inverse. */
  lemma StepBijective(h: nat, byte: nat)
    requires h < WORD
    ensures HashStep(h, byte) < WORD && Unstep(h, byte) < WORD
    ensures Unstep(HashStep(h, byte), byte) == h
    ensures HashStep(Unstep(h, byte), byte) == h
  {
    WordIs();
    XorBound(h, byte, 64);
    XorBound(h * FNV_INVERSE % WORD, byte, 64);
    MultiplyUndone(Xor(h, byte, 64), FNV_PRIME, FNV_INVERSE);
    XorInvolution(h, byte, 64);
    XorInvolution(h * FNV_INVERSE % WORD, byte, 64);
    MultiplyUndone(h, FNV_INVERSE, FNV_PRIME);
  }

  method Fnv1a(bytes: seq<nat>) returns (hash: nat)
    ensures hash == HashFrom(FNV_OFFSET, bytes)
  {
    hash := FNV_OFFSET;
    for i := 0 to |bytes|
      invariant hash == HashFrom(FNV_OFFSET, bytes[..i])
    {
      assert bytes[..i + 1][..i] == bytes[..i];
      hash := Xor(hash, bytes[i], 64);
      hash := hash * FNV_PRIME % WORD;
    }
    assert bytes[..|bytes|] == bytes;
  }

  lemma {:induction false} HashBound(h: nat, bytes: seq<nat>)
    requires h < WORD
    ensures HashFrom(h, bytes) < WORD
  {
  }

  /** Different states stay different whatever bytes follow. */
  lemma {:induction false} StatesStayApart(g: nat, h: nat, bytes: seq<nat>)
    requires g < WORD && h < WORD && g != h
    ensures HashFrom(g, bytes) != HashFrom(h, bytes)
  {
    if bytes != [] {
      var n := |bytes| - 1;
      StatesStayApart(g, h, bytes[..n]);
      HashBound(g, bytes[..n]);
      HashBound(h, bytes[..n]);
      StepBijective(HashFrom(g, bytes[..n]), bytes[n]);
      StepBijective(HashFrom(h, bytes[..n]), bytes[n]);
    }
  }

  lemma {:induction false} HashAppend(h: nat, a: seq<nat>, b: seq<nat>)
    ensures HashFrom(h, a + b) == HashFrom(HashFrom(h, a), b)
  {
    if b == [] {
      assert a + b == a;
    } else {
      var n := |b| - 1;
      assert (a + b)[..|a| + n] == a + b[..n];
      HashAppend(h, a, b[..n]);
    }
  }

  /** One state meeting two different words reaches two different states. */
  lemma BytesApart(h: nat, x: nat, y: nat)
    requires x < 256 && y < 256 && x != y
    ensures HashStep(h, x) != HashStep(h, y) && HashStep(h, x) < WORD && HashStep(h, y) < WORD
  {
    WordIs();
    XorBound(h, x, 64);
    XorBound(h, y, 64);
    MultiplyUndone(Xor(h, x, 64), FNV_PRIME, FNV_INVERSE);
    MultiplyUndone(Xor(h, y, 64), FNV_PRIME, FNV_INVERSE);
    if HashStep(h, x) == HashStep(h, y) {
      XorCancels(h, x, y, 64);
      assert false;
    }
  }

  /** Texts that differ in exactly one byte never share a hash. */
  lemma OneByteApart(before: seq<nat>, x: nat, y: nat, after: seq<nat>)
    requires x < 256 && y < 256 && x != y
    ensures HashFrom(FNV_OFFSET, before + [x] + after) != HashFrom(FNV_OFFSET, before + [y] + after)
  {
    HashByte(before, x, after);
    HashByte(before, y, after);
    BytesApart(HashFrom(FNV_OFFSET, before), x, y);
    StatesStayApart(HashStep(HashFrom(FNV_OFFSET, before), x), HashStep(HashFrom(FNV_OFFSET, before), y), after);
  }

  lemma HashByte(before: seq<nat>, x: nat, after: seq<nat>)
    ensures HashFrom(FNV_OFFSET, before + [x] + after) == HashFrom(HashStep(HashFrom(FNV_OFFSET, before), x), after)
  {
    HashAppend(FNV_OFFSET, before + [x], after);
    assert (before + [x])[..|before|] == before;
  }

  // --- Fingerprints ----------------------------------------------------

  /** The bytes of an ASCII text. */
  function Bytes(s: string): seq<nat> {
    seq(|s|, i requires 0 <= i < |s| => s[i] as nat)
  }

  function Fingerprint(t: TableDef): nat {
    HashFrom(FNV_OFFSET, Bytes(Descriptor(t)))
  }

  predicate Ascii(s: string) {
    forall i :: 0 <= i < |s| ==> (s[i] as int) < 128
  }

  /** The texts have one length and differ at place `i` only. */
  ghost predicate DifferAt(x: string, y: string, i: nat) {
    && |x| == |y| && i < |x| && x[i] != y[i]
    && forall j :: 0 <= j < |x| && j != i ==> x[j] == y[j]
  }

  lemma TextsApart(x: string, y: string, i: nat)
    requires Ascii(x) && Ascii(y) && DifferAt(x, y, i)
    ensures HashFrom(FNV_OFFSET, Bytes(x)) != HashFrom(FNV_OFFSET, Bytes(y))
  {
    var before, after := Bytes(x)[..i], Bytes(x)[i + 1..];
    assert Bytes(x) == before + [x[i] as nat] + after;
    assert Bytes(y) == before + [y[i] as nat] + after;
    OneByteApart(before, x[i] as nat, y[i] as nat, after);
  }

  /** Tables whose descriptors differ at exactly one letter have different fingerprints. */
  lemma OneLetterDetected(a: TableDef, b: TableDef, i: nat)
    requires ValidTable(a) && ValidTable(b) && DifferAt(Descriptor(a), Descriptor(b), i)
    ensures Fingerprint(a) != Fingerprint(b)
  {
    DescriptorAscii(a);
    DescriptorAscii(b);
    TextsApart(Descriptor(a), Descriptor(b), i);
  }

  lemma {:induction false} ColumnsAscii(cs: seq<ColumnDef>)
    requires forall i :: 0 <= i < |cs| ==> Ascii(cs[i].name)
    ensures Ascii(ColumnsText(cs))
  {
    if cs != [] {
      ColumnsAscii(cs[1..]);
      TagAscii(cs[0].ty);
    }
  }

  lemma TagAscii(ty: ColumnType)
    ensures Ascii(Tag(ty))
  {
  }

  lemma DescriptorAscii(t: TableDef)
    requires ValidTable(t)
    ensures Ascii(Descriptor(t))
  {
    ColumnsAscii(Synchronized(t));
    assert Ascii(PREFIX);
  }

  // --- Contracts of several tables ------------------------------------

  datatype Entry = Entry(name: string, fingerprint: nat)

  ghost predicate ValidContract(ts: seq<TableDef>) {
    && ts != []
    && (forall i :: 0 <= i < |ts| ==> ValidTable(ts[i]))
    && forall i, j :: 0 <= i < j < |ts| ==> ts[i].name != ts[j].name
  }

  predicate EntryBefore(a: Entry, b: Entry) {
    Before(a.name, b.name) || (a.name == b.name && a.fingerprint <= b.fingerprint)
  }

  lemma EntryOrder(a: Entry, b: Entry, c: Entry)
    ensures EntryBefore(a, b) || EntryBefore(b, a)
    ensures EntryBefore(a, b) && EntryBefore(b, a) ==> a == b
    ensures EntryBefore(a, b) && EntryBefore(b, c) ==> EntryBefore(a, c)
  {
    BeforeTotal(a.name, b.name);
    if Before(a.name, b.name) && Before(b.name, c.name) { BeforeTransitive(a.name, b.name, c.name); }
  }

  ghost predicate Ordered(es: seq<Entry>) {
    forall i, j :: 0 <= i < j < |es| ==> EntryBefore(es[i], es[j])
  }

  /** Insertion into an ordered sequence. */
  function Insert(e: Entry, es: seq<Entry>): (r: seq<Entry>)
    ensures multiset(r) == multiset(es) + multiset{e}
  {
    if es == [] then [e]
    else if EntryBefore(e, es[0]) then [e] + es
    else
      assert es == [es[0]] + es[1..];
      [es[0]] + Insert(e, es[1..])
  }

  lemma {:induction false} InsertOrdered(e: Entry, es: seq<Entry>)
    requires Ordered(es)
    ensures Ordered(Insert(e, es))
  {
    if es != [] {
      EntryOrder(e, es[0], es[0]);
      if EntryBefore(e, es[0]) {
        forall i | 0 <= i < |es| ensures EntryBefore(e, es[i]) { EntryOrder(e, es[0], es[i]); }
      } else {
        var rest := Insert(e, es[1..]);
        InsertOrdered(e, es[1..]);
        forall i | 0 <= i < |rest| ensures EntryBefore(es[0], rest[i]) {
          assert rest[i] in multiset(rest);
          assert rest[i] == e || rest[i] in es[1..];
        }
      }
    }
  }

  function Sorted(es: seq<Entry>): (r: seq<Entry>)
    ensures multiset(r) == multiset(es)
  {
    if es == [] then []
    else
      assert es == es[..|es| - 1] + [es[|es| - 1]];
      Insert(es[|es| - 1], Sorted(es[..|es| - 1]))
  }

  lemma {:induction false} SortedOrdered(es: seq<Entry>)
    ensures Ordered(Sorted(es))
  {
    if es != [] {
      SortedOrdered(es[..|es| - 1]);
      InsertOrdered(es[|es| - 1], Sorted(es[..|es| - 1]));
    }
  }

  lemma SameHead(a: seq<Entry>, b: seq<Entry>)
    requires Ordered(a) && Ordered(b) && multiset(a) == multiset(b) && a != [] && b != []
    ensures a[0] == b[0]
  {
    assert a[0] in multiset(b) && b[0] in multiset(a);
    var i :| 0 <= i < |a| && a[i] == b[0];
    var j :| 0 <= j < |b| && b[j] == a[0];
    EntryOrder(a[0], b[0], b[0]);
  }

  lemma TailCounts(a: seq<Entry>)
    requires a != []
    ensures multiset(a[1..]) == multiset(a) - multiset{a[0]}
  {
    assert a == [a[0]] + a[1..];
  }

  /** An ordered sequence is determined by its elements, counted. */
  lemma {:induction false} OrderedUnique(a: seq<Entry>, b: seq<Entry>)
    requires Ordered(a) && Ordered(b) && multiset(a) == multiset(b)
    ensures a == b
  {
    assert |a| == |multiset(a)| == |multiset(b)| == |b|;
    if a != [] {
      SameHead(a, b);
      TailCounts(a);
      TailCounts(b);
      OrderedUnique(a[1..], b[1..]);
      assert a == [a[0]] + a[1..] && b == [b[0]] + b[1..];
    }
  }

  function EntriesOf(ts: seq<TableDef>): seq<Entry> {
    seq(|ts|, i requires 0 <= i < |ts| => Entry(ts[i].name, Fingerprint(ts[i])))
  }

  function HexDigit(n: nat): char
    requires n < 16
  {
    if n < 10 then ('0' as int + n) as char else ('a' as int + n - 10) as char
  }

  /** Fixed-width hexadecimal. */
  function Hex(n: nat, width: nat): (s: string)
    ensures |s| == width
  {
    if width == 0 then "" else Hex(n / 16, width - 1) + [HexDigit(n % 16)]
  }

  function EntriesText(es: seq<Entry>): string {
    if es == [] then ""
    else [';'] + (es[0].name + (['='] + (Hex(es[0].fingerprint, 16) + EntriesText(es[1..]))))
  }

  function ContractText(ts: seq<TableDef>): string {
    PREFIX + EntriesText(Sorted(EntriesOf(ts)))
  }

  function ContractFingerprint(ts: seq<TableDef>): nat {
    HashFrom(FNV_OFFSET, Bytes(ContractText(ts)))
  }

  /** The contract fingerprint does not depend on the order in which tables are declared. */
  lemma ContractOrderIrrelevant(a: seq<TableDef>, b: seq<TableDef>)
    requires multiset(a) == multiset(b)
    ensures ContractFingerprint(a) == ContractFingerprint(b)
  {
    EntriesPermute(a, b);
    SortedOrdered(EntriesOf(a));
    SortedOrdered(EntriesOf(b));
    OrderedUnique(Sorted(EntriesOf(a)), Sorted(EntriesOf(b)));
  }

  function RemoveAt(ts: seq<TableDef>, i: nat): (r: seq<TableDef>)
    requires i < |ts|
    ensures |r| == |ts| - 1
  {
    ts[..i] + ts[i + 1..]
  }

  lemma IndexOf(ts: seq<TableDef>, t: TableDef) returns (i: nat)
    requires t in multiset(ts)
    ensures i < |ts| && ts[i] == t
  {
    assert t in ts;
    i :| i < |ts| && ts[i] == t;
  }

  lemma {:induction false} EntriesPermute(a: seq<TableDef>, b: seq<TableDef>)
    requires multiset(a) == multiset(b)
    ensures multiset(EntriesOf(a)) == multiset(EntriesOf(b))
    decreases |a|
  {
    assert |a| == |multiset(a)| == |multiset(b)| == |b|;
    if a != [] {
      var i := IndexOf(b, a[0]);
      TakeOut(a, 0);
      TakeOut(b, i);
      EntriesPermute(RemoveAt(a, 0), RemoveAt(b, i));
    }
  }

  /** Taking out one table takes out its entry. */
  lemma TakeOut(ts: seq<TableDef>, i: nat)
    requires i < |ts|
    ensures multiset(RemoveAt(ts, i)) == multiset(ts) - multiset{ts[i]} && ts[i] in multiset(ts)
    ensures multiset(EntriesOf(ts)) == multiset(EntriesOf(RemoveAt(ts, i))) + multiset{Entry(ts[i].name, Fingerprint(ts[i]))}
  {
    var x, y, e := ts[..i], ts[i + 1..], Entry(ts[i].name, Fingerprint(ts[i]));
    assert ts == x + [ts[i]] + y;
    EntriesAppend(x, [ts[i]]);
    EntriesAppend(x + [ts[i]], y);
    EntriesAppend(x, y);
    assert EntriesOf([ts[i]]) == [e];
  }

  lemma EntriesAppend(a: seq<TableDef>, b: seq<TableDef>)
    ensures EntriesOf(a + b) == EntriesOf(a) + EntriesOf(b)
  {
  }

  // --- Contract descriptors are decodable too -------------------------

  lemma {:induction false} HexUnique(m: nat, n: nat, width: nat)
    requires m < Pow2(4 * width) && n < Pow2(4 * width) && Hex(m, width) == Hex(n, width)
    ensures m == n
  {
    if width != 0 {
      HexParts(m, width);
      HexParts(n, width);
      HexUnique(m / 16, n / 16, width - 1);
    }
  }

  lemma HexParts(n: nat, width: nat)
    requires 0 < width && n < Pow2(4 * width)
    ensures Hex(n, width)[..width - 1] == Hex(n / 16, width - 1) && Hex(n, width)[width - 1] == HexDigit(n % 16)
    ensures n / 16 < Pow2(4 * (width - 1))
  {
    var w := 4 * (width - 1);
    assert Pow2(w + 2) == 4 * Pow2(w);
    assert Pow2(w + 4) == 4 * Pow2(w + 2);
    assert 4 * width == w + 4;
  }

  ghost predicate DecodableEntries(es: seq<Entry>) {
    forall i :: 0 <= i < |es| ==> Without(es[i].name, '=') && es[i].fingerprint < WORD
  }

  lemma {:induction false} EntriesTextUnique(a: seq<Entry>, b: seq<Entry>)
    requires DecodableEntries(a) && DecodableEntries(b) && EntriesText(a) == EntriesText(b)
    ensures a == b
  {
    if a != [] && b != [] {
      var ta := ['='] + (Hex(a[0].fingerprint, 16) + EntriesText(a[1..]));
      var tb := ['='] + (Hex(b[0].fingerprint, 16) + EntriesText(b[1..]));
      PrefixUnique([';'], a[0].name + ta, b[0].name + tb);
      CutUnique(a[0].name, ta, b[0].name, tb, '=');
      PrefixUnique(['='], Hex(a[0].fingerprint, 16) + EntriesText(a[1..]), Hex(b[0].fingerprint, 16) + EntriesText(b[1..]));
      HexTextUnique(a[0].fingerprint, EntriesText(a[1..]), b[0].fingerprint, EntriesText(b[1..]));
      EntriesTextUnique(a[1..], b[1..]);
      assert a == [a[0]] + a[1..] && b == [b[0]] + b[1..];
    }
  }

  lemma HexTextUnique(m: nat, x: string, n: nat, y: string)
    requires m < WORD && n < WORD && Hex(m, 16) + x == Hex(n, 16) + y
    ensures m == n && x == y
  {
    var p, q := Hex(m, 16), Hex(n, 16);
    assert p == (p + x)[..16] && q == (q + y)[..16];
    PrefixUnique(p, x, y);
    WordIs();
    HexUnique(m, n, 16);
  }

  /** Two contracts have the same descriptor only if they declare the same table names
      with the same table fingerprints. */
  lemma ContractTextUnique(a: seq<TableDef>, b: seq<TableDef>)
    requires ValidContract(a) && ValidContract(b) && ContractText(a) == ContractText(b)
    ensures multiset(EntriesOf(a)) == multiset(EntriesOf(b))
  {
    ContractEntries(a);
    ContractEntries(b);
    PrefixUnique(PREFIX, EntriesText(Sorted(EntriesOf(a))), EntriesText(Sorted(EntriesOf(b))));
    EntriesTextUnique(Sorted(EntriesOf(a)), Sorted(EntriesOf(b)));
  }

  lemma ContractEntries(ts: seq<TableDef>)
    requires ValidContract(ts)
    ensures DecodableEntries(Sorted(EntriesOf(ts)))
  {
    var es := Sorted(EntriesOf(ts));
    forall i | 0 <= i < |es| ensures Without(es[i].name, '=') && es[i].fingerprint < WORD {
      SortedMember(EntriesOf(ts), es[i]);
      var j :| 0 <= j < |ts| && es[i] == EntriesOf(ts)[j];
      TableEntry(ts[j]);
    }
  }

  lemma SortedMember(es: seq<Entry>, e: Entry)
    requires e in Sorted(es)
    ensures exists j :: 0 <= j < |es| && e == es[j]
  {
    assert e in multiset(Sorted(es));
  }

  lemma TableEntry(t: TableDef)
    requires ValidTable(t)
    ensures Without(t.name, '=') && Fingerprint(t) < WORD
  {
    HashBound(FNV_OFFSET, Bytes(Descriptor(t)));
  }

  // --- The loops -------------------------------------------------------

  lemma {:induction false} ColumnsTextAppend(cs: seq<ColumnDef>, c: ColumnDef)
    ensures ColumnsText(cs + [c]) == ColumnsText(cs) + ColumnsText([c])
  {
    if cs != [] {
      assert (cs + [c])[1..] == cs[1..] + [c];
      ColumnsTextAppend(cs[1..], c);
    }
  }

  /** The descriptor is written column by column, then hashed. */
  method TableFingerprint(t: TableDef) returns (n: nat)
    ensures n == Fingerprint(t)
  {
    var cs := Synchronized(t);
    var text := "";
    for i := 0 to |cs|
      invariant text == ColumnsText(cs[..i])
    {
      ColumnsTextAppend(cs[..i], cs[i]);
      assert cs[..i + 1] == cs[..i] + [cs[i]];
      text := text + ColumnsText([cs[i]]);
    }
    assert cs[..|cs|] == cs;
    n := Fnv1a(Bytes(PREFIX + ([';'] + (t.name + text))));
  }

  lemma {:induction false} EntriesTextAppend(es: seq<Entry>, e: Entry)
    ensures EntriesText(es + [e]) == EntriesText(es) + EntriesText([e])
  {
    if es != [] {
      assert (es + [e])[1..] == es[1..] + [e];
      EntriesTextAppend(es[1..], e);
    }
  }

  method FingerprintContract(ts: seq<TableDef>) returns (n: nat)
    ensures n == ContractFingerprint(ts)
  {
    var es: seq<Entry> := [];
    for i := 0 to |ts|
      invariant es == EntriesOf(ts[..i])
    {
      var f := TableFingerprint(ts[i]);
      es := es + [Entry(ts[i].name, f)];
    }
    assert ts[..|ts|] == ts;
    es := Sorted(es);
    var text := "";
    for i := 0 to |es|
      invariant text == EntriesText(es[..i])
    {
      EntriesTextAppend(es[..i], es[i]);
      assert es[..i + 1] == es[..i] + [es[i]];
      text := text + EntriesText([es[i]]);
    }
    assert es[..|es|] == es;
    n := Fnv1a(Bytes(PREFIX + text));
  }
}
