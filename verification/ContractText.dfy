/** Table contracts in plain terms: which definitions are valid, the exact descriptor texts, and the hash by its bits. */
module ContractText {
  import opened Cells
  import opened Contract
  import opened Lww

  // --- Valid definitions -----------------------------------------------

  /** One to 63 letters a to z, digits and underscores, not starting with a digit. */
  ghost predicate SqlName(s: string) {
    && 1 <= |s| <= 63 && !('0' <= s[0] <= '9')
    && forall i :: 0 <= i < |s| ==> 'a' <= s[i] <= 'z' || '0' <= s[i] <= '9' || s[i] == '_'
  }

  lemma SqlNameIs(s: string)
    ensures ValidSqlIdentifier(s) <==> SqlName(s)
  {
    if s != [] { assert IsSqlStart(s[0]) <==> 'a' <= s[0] <= 'z' || s[0] == '_'; }
  }

  /** A definition is valid exactly when its name and its columns' names are SQL names other than the reserved ones, no two
      columns share a name, and there is at least one. */
  lemma TablesExactly(t: TableDef)
    ensures ValidTable(t) <==>
      && SqlName(t.name) && t.name != "client_state" && t.name != "loomabase_cursor" && t.name != "loomabase_cursor_lease"
      && t.name != "loomabase_server_state" && t.name != "loomabase_state"
      && |t.columns| >= 1
      && (forall i :: 0 <= i < |t.columns| ==>
            SqlName(t.columns[i].name) && t.columns[i].name != "id" && t.columns[i].name != "deleted")
      && forall i, j :: 0 <= i < |t.columns| && 0 <= j < |t.columns| && t.columns[i].name == t.columns[j].name ==> i == j
  {
    SqlNameIs(t.name);
    forall i | 0 <= i < |t.columns| ensures ValidSqlIdentifier(t.columns[i].name) <==> SqlName(t.columns[i].name) {
      SqlNameIs(t.columns[i].name);
    }
  }

  /** The schema types each column as it is declared, the liveness register as boolean, and nothing else. */
  lemma TypesExactly(t: TableDef, column: string, ty: ColumnType)
    requires ValidTable(t)
    ensures column in SchemaOf(t).types && SchemaOf(t).types[column] == ty <==>
      || (column == "deleted" && ty == BooleanColumn)
      || exists i :: 0 <= i < |t.columns| && t.columns[i].name == column && t.columns[i].ty == ty
  {
    var cs := Synchronized(t);
    assert cs[..|t.columns|] == t.columns;
    TypedAt(t.columns, column, ty);
  }

  lemma {:induction false} TypedAt(cs: seq<ColumnDef>, column: string, ty: ColumnType)
    requires DistinctNames(cs)
    ensures column in TypesOf(cs) && TypesOf(cs)[column] == ty <==>
      exists i :: 0 <= i < |cs| && cs[i].name == column && cs[i].ty == ty
  {
    if cs != [] {
      var n := |cs| - 1;
      TypedAt(cs[..n], column, ty);
      if i :| 0 <= i < |cs| && cs[i].name == column && cs[i].ty == ty && i < n {
        assert cs[..n][i].name == column && cs[..n][i].ty == ty;
      }
      if i :| 0 <= i < n && cs[..n][i].name == column && cs[..n][i].ty == ty {
        assert cs[i].name == column && cs[i].ty == ty;
      }
    }
  }

  // --- Descriptors -----------------------------------------------------

  /** The tag of each type. */
  predicate TagIs(ty: ColumnType, tag: string) {
    match ty
    case TextColumn => tag == "text"
    case IntegerColumn => tag == "integer"
    case RealColumn => tag == "real"
    case BooleanColumn => tag == "boolean"
  }

  lemma OneColumn(name: string, ty: ColumnType) returns (tag: string)
    ensures TagIs(ty, tag) && ColumnsText([ColumnDef(name, ty)]) == [';'] + name + [':'] + tag
  {
    var c := ColumnDef(name, ty);
    tag := Tag(ty);
    assert [c][1..] == [];
    assert ColumnsText([c]) == [';'] + (name + ([':'] + (tag + ColumnsText([]))));
    assert tag + ColumnsText([]) == tag;
  }

  lemma LivenessText()
    ensures ColumnsText([ColumnDef(LIVENESS, BooleanColumn)]) == ";deleted:boolean"
  {
    var tag := OneColumn(LIVENESS, BooleanColumn);
    assert [';'] + LIVENESS == ";deleted";
    assert ";deleted" + [':'] == ";deleted:";
    assert ";deleted:" + "boolean" == ";deleted:boolean";
  }

  /** What the descriptor says before the liveness register. */
  ghost function Opening(name: string, columns: seq<ColumnDef>): string {
    PREFIX + [';'] + name + ColumnsText(columns)
  }

  lemma DescriptorParts(name: string, columns: seq<ColumnDef>)
    ensures Descriptor(TableDef(name, columns)) == Opening(name, columns) + ColumnsText([ColumnDef(LIVENESS, BooleanColumn)])
  {
    var end := ColumnsText([ColumnDef(LIVENESS, BooleanColumn)]);
    ColumnsTextAppend(columns, ColumnDef(LIVENESS, BooleanColumn));
    Regrouped(PREFIX, [';'], name, ColumnsText(columns), end);
  }

  lemma Regrouped(a: string, b: string, c: string, d: string, e: string)
    ensures a + (b + (c + (d + e))) == a + b + c + d + e
  {
  }

  lemma OpeningGrows(name: string, columns: seq<ColumnDef>, c: ColumnDef)
    ensures Opening(name, columns + [c]) == Opening(name, columns) + ColumnsText([c])
  {
    ColumnsTextAppend(columns, c);
    Regrouped(PREFIX, [';'], name, ColumnsText(columns), ColumnsText([c]));
  }

  /** Without application columns the descriptor names the table and the liveness register. */
  lemma EmptyDescriptor(name: string)
    ensures Opening(name, []) == "loomabase-contract-v1;" + name
    ensures Descriptor(TableDef(name, [])) == "loomabase-contract-v1;" + name + ";deleted:boolean"
  {
    DescriptorParts(name, []);
    LivenessText();
    assert PREFIX + [';'] == "loomabase-contract-v1;";
    assert PREFIX + [';'] + name + "" == PREFIX + [';'] + name;
  }

  /** Declaring one more column inserts its name and the tag of its type before the liveness register. */
  lemma DescriptorGrows(name: string, columns: seq<ColumnDef>, column: string, ty: ColumnType) returns (before: string, tag: string)
    ensures TagIs(ty, tag) && before == Opening(name, columns)
    ensures Descriptor(TableDef(name, columns)) == before + ";deleted:boolean"
    ensures Descriptor(TableDef(name, columns + [ColumnDef(column, ty)])) == before + ([';'] + column + [':'] + tag) + ";deleted:boolean"
  {
    before := Opening(name, columns);
    tag := OneColumn(column, ty);
    DescriptorParts(name, columns);
    DescriptorParts(name, columns + [ColumnDef(column, ty)]);
    OpeningGrows(name, columns, ColumnDef(column, ty));
    LivenessText();
  }

  /** The table that ships with the library. */
  const TODOS: TableDef := TableDef("todos", [ColumnDef("title", TextColumn), ColumnDef("completed", BooleanColumn)])

  lemma TodosOpening()
    ensures Opening("todos", TODOS.columns) == "loomabase-contract-v1;todos" + ";title:text" + ";completed:boolean"
  {
    var title, completed := ColumnDef("title", TextColumn), ColumnDef("completed", BooleanColumn);
    EmptyDescriptor("todos");
    OpeningGrows("todos", [], title);
    OpeningGrows("todos", [title], completed);
    assert [] + [title] == [title] && [title] + [completed] == TODOS.columns;
    TitleText();
    CompletedText();
    assert "loomabase-contract-v1;" + "todos" == "loomabase-contract-v1;todos";
  }

  lemma TitleText()
    ensures ColumnsText([ColumnDef("title", TextColumn)]) == ";title:text"
  {
    var tag := OneColumn("title", TextColumn);
    assert [';'] + "title" == ";title";
    assert ";title" + [':'] == ";title:";
    assert ";title:" + "text" == ";title:text";
  }

  lemma CompletedText()
    ensures ColumnsText([ColumnDef("completed", BooleanColumn)]) == ";completed:boolean"
  {
    var tag := OneColumn("completed", BooleanColumn);
    assert [';'] + "completed" == ";completed";
    assert ";completed" + [':'] == ";completed:";
    assert ";completed:" + "boolean" == ";completed:boolean";
  }

  lemma TodosDescriptor()
    ensures Descriptor(TODOS) == "loomabase-contract-v1;todos;title:text;completed:boolean;deleted:boolean"
  {
    TodosOpening();
    DescriptorParts("todos", TODOS.columns);
    LivenessText();
    WholeText();
  }

  lemma WholeText()
    ensures "loomabase-contract-v1;todos" + ";title:text" + ";completed:boolean" + ";deleted:boolean" ==
      "loomabase-contract-v1;todos;title:text;completed:boolean;deleted:boolean"
  {
    assert "loomabase-contract-v1;todos" + ";title:text" == "loomabase-contract-v1;todos;title:text";
    assert "loomabase-contract-v1;todos;title:text" + ";completed:boolean" == "loomabase-contract-v1;todos;title:text;completed:boolean";
  }

  // --- The hash --------------------------------------------------------

  /** Bit `i` of a number. */
  predicate Bit(x: nat, i: nat) {
    if i == 0 then x % 2 == 1 else Bit(x / 2, i - 1)
  }

  /** Exclusive or, bit by bit. */
  lemma {:induction false} XorBits(x: nat, y: nat, width: nat, i: nat)
    requires i < width
    ensures Bit(Xor(x, y, width), i) <==> Bit(x, i) != Bit(y, i)
  {
    var rest := Xor(x / 2, y / 2, width - 1);
    assert Xor(x, y, width) / 2 == rest && Xor(x, y, width) % 2 == (if x % 2 == y % 2 then 0 else 1);
    if i > 0 { XorBits(x / 2, y / 2, width - 1, i - 1); }
  }

  /** The hash of nothing is the offset; each byte is combined by exclusive or of 64 bits, then multiplied by the prime
      in 64 bits. */
  lemma HashExactly(bytes: seq<nat>, byte: nat)
    ensures HashFrom(FNV_OFFSET, []) == 0xcbf2_9ce4_8422_2325
    ensures HashFrom(FNV_OFFSET, bytes + [byte]) ==
      Xor(HashFrom(FNV_OFFSET, bytes), byte, 64) * 0x100_0000_01b3 % 0x1_0000_0000_0000_0000
  {
    assert (bytes + [byte])[..|bytes|] == bytes;
  }

  lemma XorUnfolds(x: nat, y: nat, width: nat)
    requires width > 0
    ensures Xor(x, y, width) == (if x % 2 == y % 2 then 0 else 1) + 2 * Xor(x / 2, y / 2, width - 1)
  {
  }

  /** Exclusive or with fewer bits changes the low bits only. */
  lemma {:induction false} SplitXor(q: nat, b: nat, y: nat, low: nat, high: nat, p: nat)
    requires p == Pow2(low) && b < p && y < p
    ensures Xor(q * p + b, y, low + high) == Xor(q, 0, high) * p + Xor(b, y, low)
    decreases low
  {
    if low == 0 {
      assert q * p + b == q && y == 0;
    } else {
      var half := Pow2(low - 1);
      Doubled(q, half, p);
      Doubled(Xor(q, 0, high), half, p);
      assert (q * p + b) / 2 == q * half + b / 2 && (q * p + b) % 2 == b % 2;
      SplitXor(q, b / 2, y / 2, low - 1, high, half);
      XorUnfolds(q * p + b, y, low + high);
      XorUnfolds(b, y, low);
    }
  }

  lemma Doubled(q: nat, half: nat, p: nat)
    requires p == 2 * half
    ensures q * p == 2 * (q * half)
  {
  }

  lemma Quotient(q: nat, p: nat, r: nat)
    requires r < p
    ensures (q * p + r) / p == q && (q * p + r) % p == r
  {
    var n := q * p + r;
    OneDivision(q, r, n / p, n % p, p);
  }

  lemma OneDivision(q: nat, r: nat, d: nat, m: nat, p: nat)
    requires r < p && m < p && q * p + r == d * p + m
    ensures q == d && r == m
  {
    if q > d { Exceeds(q, d, p); } else if d > q { Exceeds(d, q, p); }
  }

  lemma Exceeds(q: nat, d: nat, p: nat)
    requires q > d
    ensures q * p >= d * p + p
  {
    var e := q - d - 1;
    assert q * p == (d + 1 + e) * p;
    assert (d + 1 + e) * p == d * p + p + e * p;
    assert e * p >= 0;
  }

  lemma {:induction false} XorZero(x: nat, width: nat)
    requires x < Pow2(width)
    ensures Xor(x, 0, width) == x
  {
    if width > 0 { XorZero(x / 2, width - 1); }
  }

  lemma ByteXor(q: nat, b: nat, y: nat)
    requires q < Pow2(56) && b < 256 && y < 256
    ensures Xor(q * 256 + b, y, 64) == q * 256 + Xor(b, y, 8)
  {
    assert Pow2(8) == 256;
    SplitXor(q, b, y, 8, 56, 256);
    XorZero(q, 56);
  }

  lemma FirstXor()
    ensures Xor(0xcbf2_9ce4_8422_2325, 97, 64) == 0xcbf2_9ce4_8422_2344
  {
    var q: nat, b: nat, y: nat := 0xcb_f29c_e484_2223, 0x25, 97;
    WordIs();
    PowerSum(8, 56);
    assert Pow2(8) == 256;
    ByteXor(q, b, y);
    SmallXor(b, y, 4);
  }

  /** Two bits at a time. */
  lemma XorPair(x: nat, y: nat, width: nat)
    ensures Xor(x, y, width + 2) ==
      (if x % 2 == y % 2 then 0 else 1) + 2 * (if x / 2 % 2 == y / 2 % 2 then 0 else 1) + 4 * Xor(x / 4, y / 4, width)
  {
    XorUnfolds(x, y, width + 2);
    XorUnfolds(x / 2, y / 2, width + 1);
    assert x / 2 / 2 == x / 4 && y / 2 / 2 == y / 4;
  }

  lemma UpperXor(x: nat, y: nat, width: nat)
    requires x == 0x2 && y == 0x6 && width == 0
    ensures Xor(x, y, width + 2 + 2) == 0x4
  {
    XorPair(x, y, width + 2);
    XorPair(x / 4, y / 4, width);
  }

  lemma SmallXor(x: nat, y: nat, width: nat)
    requires x == 0x25 && y == 97 && width == 4
    ensures Xor(x, y, width + 2 + 2) == 0x44
  {
    XorPair(x, y, width + 2);
    XorPair(x / 4, y / 4, width);
    UpperXor(x / 4 / 4, y / 4 / 4, 0);
  }

  lemma FirstProduct()
    ensures 0xcbf2_9ce4_8422_2344 * 0x100_0000_01b3 % 0x1_0000_0000_0000_0000 == 0xaf63_dc4c_8601_ec8c
  {
  }

  /** Known answers: the hash of the empty text, and of the letter a. */
  lemma KnownAnswers(bytes: seq<nat>)
    ensures |bytes| == 0 ==> HashFrom(FNV_OFFSET, bytes) == 0xcbf2_9ce4_8422_2325
    ensures |bytes| == 1 && bytes[0] == 97 ==> HashFrom(FNV_OFFSET, bytes) == 0xaf63_dc4c_8601_ec8c
  {
    if |bytes| == 1 && bytes[0] == 97 {
      FirstXor();
      FirstProduct();
      OneByte(FNV_OFFSET, bytes);
    }
  }

  lemma OneByte(h: nat, bytes: seq<nat>)
    requires |bytes| == 1
    ensures HashFrom(h, bytes) == Xor(h, bytes[0], 64) * FNV_PRIME % WORD
  {
  }

  // --- Several tables --------------------------------------------------

  const DIGITS: string := "0123456789abcdef"

  /** Sixteen to the power. */
  function Power16(n: nat): nat {
    if n == 0 then 1 else 16 * Power16(n - 1)
  }

  /** Fixed-width hexadecimal, most significant digit first, in lower case. */
  lemma {:induction false} HexExactly(n: nat, width: nat, i: nat)
    requires i < width
    ensures Power16(width - 1 - i) > 0 && Hex(n, width)[i] == DIGITS[n / Power16(width - 1 - i) % 16]
    decreases width
  {
    if i == width - 1 {
      assert n / 1 == n;
    } else {
      HexExactly(n / 16, width - 1, i);
      Sixteenths(n, Power16(width - 2 - i));
    }
  }

  lemma Sixteenths(n: nat, p: nat)
    requires p >= 1
    ensures n / 16 / p == n / (16 * p)
  {
    var q, r := n / (16 * p), n % (16 * p);
    assert n == 16 * (q * p) + r;
    assert n / 16 == q * p + r / 16;
    Quotient(q, p, r / 16);
  }

  /** The contract's text lists its tables in order of names, each with its fingerprint in 16 hexadecimal digits. */
  lemma ContractTextExactly(ts: seq<TableDef>) returns (es: seq<Entry>)
    requires ValidContract(ts)
    ensures |es| == |ts| && forall e :: e in es <==> exists i :: 0 <= i < |ts| && e.name == ts[i].name && e.fingerprint == Fingerprint(ts[i])
    ensures forall i, j :: 0 <= i < j < |es| ==> es[i].name == es[j].name || Precedes(es[i].name, es[j].name)
    ensures ContractText(ts) == "loomabase-contract-v1" + EntriesText(es)
  {
    es := Sorted(EntriesOf(ts));
    SortedOrdered(EntriesOf(ts));
    forall i, j | 0 <= i < j < |es| ensures es[i].name == es[j].name || Precedes(es[i].name, es[j].name) {
      assert EntryBefore(es[i], es[j]);
      BeforeParts(es[i].name, es[j].name);
    }
    EntriesExactly(ts, es);
  }

  lemma EntriesExactly(ts: seq<TableDef>, es: seq<Entry>)
    requires multiset(es) == multiset(EntriesOf(ts))
    ensures |es| == |ts| && forall e :: e in es <==> exists i :: 0 <= i < |ts| && e.name == ts[i].name && e.fingerprint == Fingerprint(ts[i])
  {
    assert |es| == |multiset(es)| && |ts| == |multiset(EntriesOf(ts))|;
    forall e ensures e in es <==> exists i :: 0 <= i < |ts| && e.name == ts[i].name && e.fingerprint == Fingerprint(ts[i]) {
      assert e in es <==> e in multiset(es);
      assert e in EntriesOf(ts) <==> e in multiset(EntriesOf(ts));
      if i :| 0 <= i < |ts| && e.name == ts[i].name && e.fingerprint == Fingerprint(ts[i]) { assert EntriesOf(ts)[i] == e; }
    }
  }

  /** Both fingerprints hash the characters of their texts, one byte each. */
  lemma FingerprintsExactly(t: TableDef, ts: seq<TableDef>, bytes: seq<nat>)
    ensures |bytes| == |Descriptor(t)| && (forall i :: 0 <= i < |bytes| ==> bytes[i] == Descriptor(t)[i] as int) ==>
      Fingerprint(t) == HashFrom(0xcbf2_9ce4_8422_2325, bytes)
    ensures |bytes| == |ContractText(ts)| && (forall i :: 0 <= i < |bytes| ==> bytes[i] == ContractText(ts)[i] as int) ==>
      ContractFingerprint(ts) == HashFrom(0xcbf2_9ce4_8422_2325, bytes)
  {
    SameCodes(Descriptor(t), bytes);
    SameCodes(ContractText(ts), bytes);
  }

  lemma SameCodes(s: string, bytes: seq<nat>)
    ensures |bytes| == |s| && (forall i :: 0 <= i < |bytes| ==> bytes[i] == s[i] as int) ==> Bytes(s) == bytes
  {
    if |bytes| == |s| && forall i :: 0 <= i < |bytes| ==> bytes[i] == s[i] as int {
      forall i | 0 <= i < |s| ensures Bytes(s)[i] == bytes[i] {
      }
    }
  }

  lemma EntriesTextExactly(es: seq<Entry>, e: Entry)
    ensures EntriesText([]) == ""
    ensures EntriesText(es + [e]) == EntriesText(es) + ";" + e.name + "=" + Hex(e.fingerprint, 16)
  {
    EntriesTextAppend(es, e);
    assert [e][1..] == [];
    assert EntriesText([e]) == [';'] + (e.name + (['='] + (Hex(e.fingerprint, 16) + "")));
    assert EntriesText([e]) == ";" + e.name + "=" + Hex(e.fingerprint, 16);
  }
}
