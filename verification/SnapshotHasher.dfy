/** What the snapshot hasher feeds to SHA-256: a paged scan of each table, and the digests of all tables. */
module SnapshotHasher {
  import opened Common
  import opened Encoding

  type Bytes = seq<Byte>

  datatype Row = Row(key: Bytes, value: Bytes, version: Uint64)

  /** A table is its rows in primary-key order. */
  predicate Sorted(t: seq<Row>) {
    forall i, j :: 0 <= i < j < |t| ==> Less(t[i].key, t[j].key)
  }

  // ---------------------------------------------------------------------
  // Paging.

  /** WHERE key > last ORDER BY key. */
  function After(t: seq<Row>, last: Bytes): seq<Row> {
    if t == [] then [] else (if Less(last, t[0].key) then [t[0]] else []) + After(t[1..], last)
  }

  function Page(t: seq<Row>, last: Bytes, limit: nat): seq<Row> {
    var rows := After(t, last);
    if |rows| <= limit then rows else rows[..limit]
  }

  lemma {:induction false} LessIsStrict(a: Bytes, b: Bytes)
    ensures !Less(a, a) && (Less(a, b) ==> !Less(b, a))
  {
    if a != [] && b != [] { LessIsStrict(a[1..], b[1..]); }
    if a != [] { LessIsStrict(a[1..], a[1..]); }
  }

  lemma {:induction false} AfterNone(t: seq<Row>, last: Bytes)
    requires forall i :: 0 <= i < |t| ==> Less(last, t[i].key)
    ensures After(t, last) == t
  {
    if t != [] { AfterNone(t[1..], last); }
  }

  /** What comes after the key of a row is the rows behind it. */
  lemma {:induction false} AfterRow(t: seq<Row>, i: nat)
    requires Sorted(t) && i < |t|
    ensures After(t, t[i].key) == t[i + 1..]
  {
    LessIsStrict(t[0].key, t[i].key);
    if i == 0 {
      AfterNone(t[1..], t[0].key);
    } else {
      AfterRow(t[1..], i - 1);
    }
  }

  /** The first bound skips a row only when its key is empty, which sorts first. */
  lemma AfterStart(t: seq<Row>)
    requires Sorted(t)
    ensures After(t, []) == if t != [] && t[0].key == [] then t[1..] else t
    ensures After(t, []) == t <==> forall r :: r in t ==> r.key != []
  {
    forall i | 0 < i < |t| ensures t[i].key != [] { assert Less(t[0].key, t[i].key); }
    if t != [] && t[0].key == [] { AfterNone(t[1..], []); assert t[0] in t; } else { AfterNone(t, []); }
  }

  // ---------------------------------------------------------------------
  // The bytes.

  const WIDTH: nat := 8

  function LengthPrefixed(b: Bytes): Bytes {
    BigEndian(|b|, WIDTH) + b
  }

  function VersionBytes(r: Row, versioned: bool): Bytes {
    if versioned then BigEndian(r.version, WIDTH) else []
  }

  function EncodeRow(r: Row, versioned: bool): Bytes {
    LengthPrefixed(r.key) + (LengthPrefixed(r.value) + VersionBytes(r, versioned))
  }

  function Join(parts: seq<Bytes>): Bytes {
    if parts == [] then [] else parts[0] + Join(parts[1..])
  }

  function RowParts(t: seq<Row>, versioned: bool): seq<Bytes> {
    seq(|t|, i requires 0 <= i < |t| => EncodeRow(t[i], versioned))
  }

  function EncodeRows(t: seq<Row>, versioned: bool): Bytes {
    Join(RowParts(t, versioned))
  }

  lemma Assoc(a: Bytes, b: Bytes, c: Bytes)
    ensures (a + b) + c == a + (b + c)
  {
  }

  lemma {:induction false} JoinConcat(a: seq<Bytes>, b: seq<Bytes>)
    ensures Join(a + b) == Join(a) + Join(b)
  {
    if a == [] {
      assert a + b == b;
    } else {
      JoinConcat(a[1..], b);
      assert (a + b)[1..] == a[1..] + b;
      Assoc(a[0], Join(a[1..]), Join(b));
    }
  }

  lemma EncodeConcat(a: seq<Row>, b: seq<Row>, versioned: bool)
    ensures EncodeRows(a + b, versioned) == EncodeRows(a, versioned) + EncodeRows(b, versioned)
  {
    assert RowParts(a + b, versioned) == RowParts(a, versioned) + RowParts(b, versioned);
    JoinConcat(RowParts(a, versioned), RowParts(b, versioned));
  }

  lemma EncodeOne(r: Row, versioned: bool)
    ensures EncodeRows([r], versioned) == EncodeRow(r, versioned)
  {
    assert RowParts([r], versioned) == [EncodeRow(r, versioned)];
    assert Join([EncodeRow(r, versioned)]) == EncodeRow(r, versioned) + [];
  }

  lemma EncodeCons(t: seq<Row>, versioned: bool)
    requires t != []
    ensures EncodeRows(t, versioned) == EncodeRow(t[0], versioned) + EncodeRows(t[1..], versioned)
  {
    assert RowParts(t, versioned)[1..] == RowParts(t[1..], versioned);
  }

  predicate Fits(t: seq<Row>) {
    forall r :: r in t ==> |r.key| < TWO_TO_THE_64 && |r.value| < TWO_TO_THE_64
  }

  lemma SplitAt(a: Bytes, b: Bytes, x: Bytes, y: Bytes)
    requires |a| == |b| && a + x == b + y
    ensures a == b && x == y
  {
    assert a == (a + x)[..|a|] && x == (a + x)[|a|..];
  }

  lemma NumberSplit(m: Uint64, n: Uint64, x: Bytes, y: Bytes)
    requires BigEndian(m, WIDTH) + x == BigEndian(n, WIDTH) + y
    ensures m == n && x == y
  {
    SplitAt(BigEndian(m, WIDTH), BigEndian(n, WIDTH), x, y);
    EightBytes();
    ValueOfBigEndian(m, WIDTH);
    ValueOfBigEndian(n, WIDTH);
  }

  lemma PrefixedSplit(a: Bytes, b: Bytes, x: Bytes, y: Bytes)
    requires |a| < TWO_TO_THE_64 && |b| < TWO_TO_THE_64 && LengthPrefixed(a) + x == LengthPrefixed(b) + y
    ensures a == b && x == y
  {
    Assoc(BigEndian(|a|, WIDTH), a, x);
    Assoc(BigEndian(|b|, WIDTH), b, y);
    NumberSplit(|a|, |b|, a + x, b + y);
    SplitAt(a, b, x, y);
  }

  lemma RowSplit(r: Row, q: Row, versioned: bool, x: Bytes, y: Bytes)
    requires Fits([r]) && Fits([q]) && EncodeRow(r, versioned) + x == EncodeRow(q, versioned) + y
    ensures r.key == q.key && r.value == q.value && (versioned ==> r.version == q.version) && x == y
  {
    assert r in [r] && q in [q];
    var kr, vr, tr := LengthPrefixed(r.key), LengthPrefixed(r.value), VersionBytes(r, versioned);
    var kq, vq, tq := LengthPrefixed(q.key), LengthPrefixed(q.value), VersionBytes(q, versioned);
    Assoc(kr, vr + tr, x);
    Assoc(kq, vq + tq, y);
    PrefixedSplit(r.key, q.key, vr + tr + x, vq + tq + y);
    Assoc(vr, tr, x);
    Assoc(vq, tq, y);
    PrefixedSplit(r.value, q.value, tr + x, tq + y);
    if versioned { NumberSplit(r.version, q.version, x, y); } else { assert tr + x == x && tq + y == y; }
  }

  predicate SameRows(a: seq<Row>, b: seq<Row>, versioned: bool) {
    |a| == |b| && forall i :: 0 <= i < |a| ==>
      a[i].key == b[i].key && a[i].value == b[i].value && (versioned ==> a[i] == b[i])
  }

  lemma EmptyStream(t: seq<Row>, versioned: bool)
    ensures EncodeRows(t, versioned) == [] <==> t == []
  {
    if t != [] {
      EncodeCons(t, versioned);
      assert |EncodeRow(t[0], versioned)| > 0;
    }
  }

  /** Equal streams mean equal tables. */
  lemma {:induction false} EncodeInjective(a: seq<Row>, b: seq<Row>, versioned: bool)
    requires Fits(a) && Fits(b) && EncodeRows(a, versioned) == EncodeRows(b, versioned)
    ensures SameRows(a, b, versioned)
  {
    if a == [] || b == [] {
      EmptyStream(a, versioned);
      EmptyStream(b, versioned);
    } else {
      assert a[0] in a && b[0] in b;
      EncodeCons(a, versioned);
      EncodeCons(b, versioned);
      RowSplit(a[0], b[0], versioned, EncodeRows(a[1..], versioned), EncodeRows(b[1..], versioned));
      EncodeInjective(a[1..], b[1..], versioned);
    }
  }

  // ---------------------------------------------------------------------
  // The scan.

  lemma EncodeSnoc(t: seq<Row>, i: nat, versioned: bool)
    requires i < |t|
    ensures EncodeRows(t[..i + 1], versioned) == EncodeRows(t[..i], versioned) + EncodeRow(t[i], versioned)
  {
    EncodeConcat(t[..i], [t[i]], versioned);
    EncodeOne(t[i], versioned);
    assert t[..i + 1] == t[..i] + [t[i]];
  }

  lemma Appended(s: Bytes, r: Row, versioned: bool)
    ensures s + LengthPrefixed(r.key) + LengthPrefixed(r.value) + VersionBytes(r, versioned) ==
            s + EncodeRow(r, versioned)
  {
    Assoc(s + LengthPrefixed(r.key), LengthPrefixed(r.value), VersionBytes(r, versioned));
    Assoc(s, LengthPrefixed(r.key), LengthPrefixed(r.value) + VersionBytes(r, versioned));
  }

  method WriteRows(stream: Bytes, page: seq<Row>, versioned: bool) returns (longer: Bytes)
    ensures longer == stream + EncodeRows(page, versioned)
  {
    longer := stream;
    for i := 0 to |page|
      invariant longer == stream + EncodeRows(page[..i], versioned)
    {
      EncodeSnoc(page, i, versioned);
      Appended(longer, page[i], versioned);
      Assoc(stream, EncodeRows(page[..i], versioned), EncodeRow(page[i], versioned));
      longer := longer + LengthPrefixed(page[i].key) + LengthPrefixed(page[i].value);
      if versioned { longer := longer + BigEndian(page[i].version, WIDTH); }
    }
    assert page[..|page|] == page;
  }

  /** Whatever the page size, the scan ends and what is hashed is every row with a non-empty key, once, in
      key order. */
  method HashTable(t: seq<Row>, versioned: bool, batchSize: nat) returns (stream: Bytes)
    requires Sorted(t) && batchSize > 0
    ensures stream == EncodeRows(After(t, []), versioned)
    ensures (forall r :: r in t ==> r.key != []) ==> stream == EncodeRows(t, versioned)
  {
    AfterStart(t);
    stream := [];
    var lastKey: Bytes := [];
    ghost var from := |t| - |After(t, [])|;
    ghost var i := from;
    assert t[from..] == After(t, []);
    while true
      invariant from <= i <= |t| && After(t, lastKey) == t[i..]
      invariant stream == EncodeRows(t[from..i], versioned)
      decreases |t| - i
    {
      var page := FetchPage(t, lastKey, i, batchSize);
      StreamGrows(t, from, i, page, versioned);
      stream := WriteRows(stream, page, versioned);
      i := i + |page|;
      assert stream == EncodeRows(t[from..i], versioned);
      if |page| < batchSize { break; }
      lastKey := page[|page| - 1].key;
    }
    assert t[from..i] == t[from..];
  }

  lemma StreamGrows(t: seq<Row>, a: nat, b: nat, page: seq<Row>, versioned: bool)
    requires a <= b <= b + |page| <= |t| && page == t[b..b + |page|]
    ensures EncodeRows(t[a..b + |page|], versioned) == EncodeRows(t[a..b], versioned) + EncodeRows(page, versioned)
  {
    assert t[a..b + |page|] == t[a..b] + page;
    EncodeConcat(t[a..b], page, versioned);
  }

  /** A page is the next stretch of the table; a short one is the last, behind a full one the scan goes on. */
  method FetchPage(t: seq<Row>, last: Bytes, ghost i: nat, limit: nat) returns (page: seq<Row>)
    requires Sorted(t) && i <= |t| && After(t, last) == t[i..] && limit > 0
    ensures |page| <= limit && i + |page| <= |t| && page == t[i..i + |page|]
    ensures |page| < limit ==> i + |page| == |t|
    ensures |page| == limit ==> After(t, page[|page| - 1].key) == t[i + |page|..]
  {
    page := Page(t, last, limit);
    TakeOf(t, i, page, limit);
    if |page| == limit {
      AfterRow(t, i + |page| - 1);
      assert page[|page| - 1] == t[i + |page| - 1];
    }
  }

  lemma TakeOf(t: seq<Row>, i: nat, page: seq<Row>, limit: nat)
    requires i <= |t| && page == if |t[i..]| <= limit then t[i..] else t[i..][..limit]
    ensures |page| <= limit && i + |page| <= |t| && page == t[i..i + |page|]
    ensures |page| < limit ==> i + |page| == |t|
  {
  }

  // ---------------------------------------------------------------------
  // All tables.

  datatype Table = Table(name: Bytes, rows: seq<Row>, versioned: bool)

  predicate TableOk(t: Table) {
    Sorted(t.rows) && Fits(t.rows) && |t.name| < TWO_TO_THE_64 && forall r :: r in t.rows ==> r.key != []
  }

  function TableStream(t: Table): Bytes {
    EncodeRows(t.rows, t.versioned)
  }

  function Digests(tables: seq<Table>, hash: Bytes -> Bytes): seq<Row> {
    seq(|tables|, i requires 0 <= i < |tables| => Row(tables[i].name, hash(TableStream(tables[i])), 0))
  }

  /** The tables are hashed by workers in any order; the digests are combined in the order of the tables. */
  method HashSnapshotDatabase(tables: seq<Table>, hash: Bytes -> Bytes, batchSize: nat) returns (digest: Bytes)
    requires batchSize > 0 && forall t :: t in tables ==> TableOk(t)
    ensures digest == hash(EncodeRows(Digests(tables, hash), false))
  {
    var hashes := HashTables(tables, hash, batchSize);
    var combined: Bytes := [];
    ghost var rows := Digests(tables, hash);
    for i := 0 to |tables|
      invariant combined == EncodeRows(rows[..i], false)
    {
      EncodeSnoc(rows, i, false);
      Appended(combined, rows[i], false);
      combined := combined + LengthPrefixed(tables[i].name) + LengthPrefixed(hashes[i]);
    }
    assert rows[..|tables|] == rows;
    digest := hash(combined);
  }

  method HashTables(tables: seq<Table>, hash: Bytes -> Bytes, batchSize: nat) returns (hashes: map<nat, Bytes>)
    requires batchSize > 0 && forall t :: t in tables ==> TableOk(t)
    ensures forall i: nat :: i < |tables| ==> i in hashes && hashes[i] == hash(TableStream(tables[i]))
  {
    hashes := map[];
    var todo := Below(|tables|);
    while todo != {}
      invariant forall i :: i in todo ==> i < |tables|
      invariant forall i: nat :: i < |tables| && i !in todo ==> i in hashes && hashes[i] == hash(TableStream(tables[i]))
      decreases todo
    {
      var i :| i in todo;
      todo := todo - {i};
      assert TableOk(tables[i]);
      var stream := HashTable(tables[i].rows, tables[i].versioned, batchSize);
      hashes := hashes[i := hash(stream)];
    }
  }

  predicate NoCollision(hash: Bytes -> Bytes, x: Bytes, y: Bytes) {
    hash(x) == hash(y) ==> x == y
  }

  /** Two databases with the same digest hold the same tables, unless the hash collides on what was fed
      to it. */
  lemma EqualDigests(a: seq<Table>, b: seq<Table>, hash: Bytes -> Bytes)
    requires forall t :: t in a || t in b ==> TableOk(t) && |hash(TableStream(t))| < TWO_TO_THE_64
    requires forall s, t :: s in a && t in b ==> NoCollision(hash, TableStream(s), TableStream(t))
    requires forall s, t :: s in a && t in b && s.name == t.name ==> s.versioned == t.versioned
    requires NoCollision(hash, EncodeRows(Digests(a, hash), false), EncodeRows(Digests(b, hash), false))
    requires hash(EncodeRows(Digests(a, hash), false)) == hash(EncodeRows(Digests(b, hash), false))
    ensures |a| == |b|
    ensures forall i :: 0 <= i < |a| ==> a[i].name == b[i].name && SameRows(a[i].rows, b[i].rows, a[i].versioned)
  {
    var da, db := Digests(a, hash), Digests(b, hash);
    assert forall i :: 0 <= i < |a| ==> a[i] in a;
    assert forall i :: 0 <= i < |b| ==> b[i] in b;
    EncodeInjective(da, db, false);
    forall i | 0 <= i < |a| ensures a[i].name == b[i].name && SameRows(a[i].rows, b[i].rows, a[i].versioned) {
      assert da[i].key == db[i].key && da[i].value == db[i].value;
      assert NoCollision(hash, TableStream(a[i]), TableStream(b[i]));
      EncodeInjective(a[i].rows, b[i].rows, a[i].versioned);
    }
  }
}
