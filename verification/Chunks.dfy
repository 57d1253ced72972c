/** A file cut into indexed chunk messages plus one info message, and the reassembly query that
    puts the file together again from the rows that arrived. */
module Chunks {
  import opened Text
  import opened Message

  /** What a chunk gives up to headers: a message of capacity `c` carries `c - OVERHEAD` file bytes. */
  const OVERHEAD := 172

  /** The index field of a chunk has eight digits. */
  const MAX_CHUNKS := 1_0000_0000

  /** `ceil(a / k)` over decimals. */
  function CeilDiv(a: nat, k: int): int
    requires k != 0
  {
    if k > 0 then (a + k - 1) / k else 0 - a / (0 - k)
  }

  /** `lo_get(file, i * k, k)`. */
  function Piece(file: Bytes, k: nat, i: nat): Bytes {
    Substr(file, i * k + 1, k)
  }

  function ChunkSubheader(idx: int, parent: Bytes, length: int): Bytes {
    LPad(IntText(idx), 8) + parent + LPad(IntText(length), 10)
  }

  function ChunkMessage(h: Md5, uuid: Bytes, idx: int, parent: Bytes, piece: Bytes,
                        source: Bytes, dest: Bytes, priority: Bytes, now: Bytes, capacity: int): Bytes {
    CreateMessage(h, uuid, TYPE_CHUNK, ChunkSubheader(idx, parent, |piece|), piece,
                  BTrim(source), BTrim(dest), priority, now, capacity)
  }

  function InfoSubheader(parent: Bytes, size: int, count: int): Bytes {
    parent + LPad(IntText(size), 12) + LPad(IntText(count), 10)
  }

  function InfoMessage(h: Md5, uuid: Bytes, parent: Bytes, size: int, count: int,
                       source: Bytes, dest: Bytes, priority: Bytes, now: Bytes, capacity: int): Bytes {
    CreateMessage(h, uuid, TYPE_INFO, InfoSubheader(parent, size, count), [],
                  BTrim(source), BTrim(dest), priority, now, capacity)
  }

  /** A file small enough for one message travels whole, without a length field. */
  function SingleMessage(h: Md5, uuid: Bytes, file: Bytes,
                         source: Bytes, dest: Bytes, priority: Bytes, now: Bytes, capacity: int): Bytes {
    CreateMessage(h, uuid, TYPE_SINGLE, [], file, BTrim(source), BTrim(dest), priority, now, capacity)
  }

  function ParentField(m: Bytes): Bytes { Substr(m, 123, 36) }
  function IndexField(m: Bytes): Option<int> { ParseInt(Substr(m, 115, 8)) }
  function LengthField(m: Bytes): Option<int> { ParseInt(Substr(m, 159, 10)) }
  function InfoParentField(m: Bytes): Bytes { Substr(m, 115, 36) }
  function SizeField(m: Bytes): Option<int> { ParseInt(Substr(m, 151, 12)) }
  function CountField(m: Bytes): Option<int> { ParseInt(Substr(m, 163, 10)) }

  lemma TypeDigit(digit: nat)
    requires 1 <= digit <= 5
    ensures ParseInt(LPad([ZERO + digit], 5)) == Some(digit)
  {
    FieldRoundTrip(digit, 5);
    assert IntText(digit) == [ZERO + digit];
    Pow10Monotone(1, 5);
    assert Pow10(1) == 10 * Pow10(0);
  }

  lemma ChunkRoundTrip(h: Md5, uuid: Uuid, idx: nat, parent: Uuid, piece: Bytes,
                       source: Bytes, dest: Bytes, priority: Bytes, now: Stamp, capacity: int)
    requires |piece| <= capacity - OVERHEAD && capacity <= MAX_INTEGER
    ensures var m := ChunkMessage(h, uuid, idx, parent, piece, source, dest, priority, now, capacity);
            && |m| == capacity && HashOk(h, m) && IdField(m) == uuid
            && TypeField(m) == LPad(TYPE_CHUNK, 5) && ParseInt(TypeField(m)) == Some(2)
            && Carries(m, BTrim(source), BTrim(dest), priority, now)
            && ParentField(m) == parent
            && Substr(m, 115, 8) == LPad(IntText(idx), 8)
            && (idx < MAX_CHUNKS ==> IndexField(m) == Some(idx))
            && LengthField(m) == Some(|piece|) && Substr(m, 169, |piece|) == piece
  {
    hide ParseInt, Substr, CreateMessage, LPad, HashOk, IdField, TypeField, BTrim, IntText, ChunkSubheader;
    var m := ChunkMessage(h, uuid, idx, parent, piece, source, dest, priority, now, capacity);
    var sub := ChunkSubheader(idx, parent, |piece|);
    SubheaderParts(idx, parent, |piece|);
    Layout(h, uuid, TYPE_CHUNK, sub, piece, BTrim(source), BTrim(dest), priority, now, capacity);
    SubField(m, sub, 0, 8);
    SubField(m, sub, 8, 36);
    SubField(m, sub, 44, 10);
    FieldWidths();
    if idx < MAX_CHUNKS { FieldRoundTrip(idx, 8); }
    FieldRoundTrip(|piece|, 10);
    TypeDigit(2);
  }

  lemma SubheaderParts(idx: int, parent: Uuid, length: int)
    ensures var s := ChunkSubheader(idx, parent, length);
            && |s| == 54 && s[0..8] == LPad(IntText(idx), 8) && s[8..44] == parent
            && s[44..54] == LPad(IntText(length), 10)
  {
    hide LPad, IntText;
    ThreeParts(LPad(IntText(idx), 8), parent, LPad(IntText(length), 10));
  }

  lemma InfoRoundTrip(h: Md5, uuid: Uuid, parent: Uuid, size: int, count: int,
                      source: Bytes, dest: Bytes, priority: Bytes, now: Stamp, capacity: int)
    requires capacity >= OVERHEAD && IsInteger(size) && IsInteger(count)
    ensures var m := InfoMessage(h, uuid, parent, size, count, source, dest, priority, now, capacity);
            && |m| == capacity && HashOk(h, m) && IdField(m) == uuid
            && TypeField(m) == LPad(TYPE_INFO, 5) && ParseInt(TypeField(m)) == Some(3)
            && Carries(m, BTrim(source), BTrim(dest), priority, now)
            && InfoParentField(m) == parent && SizeField(m) == Some(size) && CountField(m) == Some(count)
  {
    hide ParseInt, Substr, CreateMessage, LPad, HashOk, IdField, TypeField, BTrim, IntText, InfoSubheader;
    var m := InfoMessage(h, uuid, parent, size, count, source, dest, priority, now, capacity);
    var sub := InfoSubheader(parent, size, count);
    InfoParts(parent, size, count);
    Layout(h, uuid, TYPE_INFO, sub, [], BTrim(source), BTrim(dest), priority, now, capacity);
    SubField(m, sub, 0, 36);
    SubField(m, sub, 36, 12);
    SubField(m, sub, 48, 10);
    FieldWidths();
    FieldRoundTrip(size, 12);
    FieldRoundTrip(count, 10);
    TypeDigit(3);
  }

  lemma InfoParts(parent: Uuid, size: int, count: int)
    ensures var s := InfoSubheader(parent, size, count);
            && |s| == 58 && s[0..36] == parent && s[36..48] == LPad(IntText(size), 12)
            && s[48..58] == LPad(IntText(count), 10)
  {
    hide LPad, IntText;
    ThreeParts(parent, LPad(IntText(size), 12), LPad(IntText(count), 10));
  }

  lemma SingleRoundTrip(h: Md5, uuid: Uuid, file: Bytes,
                        source: Bytes, dest: Bytes, priority: Bytes, now: Stamp, capacity: int)
    requires |file| <= capacity - OVERHEAD
    ensures var m := SingleMessage(h, uuid, file, source, dest, priority, now, capacity);
            && |m| == capacity && HashOk(h, m) && IdField(m) == uuid
            && TypeField(m) == LPad(TYPE_SINGLE, 5) && Substr(m, 115, |file|) == file
            && Carries(m, BTrim(source), BTrim(dest), priority, now)
  {
    Layout(h, uuid, TYPE_SINGLE, [], file, BTrim(source), BTrim(dest), priority, now, capacity);
  }

  // ---- what one file becomes -------------------------------------------------------------

  ghost predicate IsChunk(h: Md5, file: Bytes, parent: Bytes, capacity: int, i: nat, m: Bytes)
  {
    capacity > OVERHEAD &&
    exists uuid: Uuid, source: Bytes, dest: Bytes, priority: Bytes, now: Stamp
      {:trigger ChunkMessage(h, uuid, i, parent, Piece(file, capacity - OVERHEAD, i), source, dest, priority, now,
        capacity)} ::
      m == ChunkMessage(h, uuid, i, parent, Piece(file, capacity - OVERHEAD, i), source, dest, priority, now, capacity)
  }

  ghost predicate IsInfo(h: Md5, file: Bytes, parent: Bytes, capacity: int, m: Bytes)
  {
    capacity > OVERHEAD &&
    exists uuid: Uuid, source: Bytes, dest: Bytes, priority: Bytes, now: Stamp
      {:trigger InfoMessage(h, uuid, parent, |file|, CeilDiv(|file|, capacity - OVERHEAD), source, dest, priority,
        now, capacity)} ::
      m == InfoMessage(h, uuid, parent, |file|, CeilDiv(|file|, capacity - OVERHEAD), source, dest, priority, now,
        capacity)
  }

  ghost predicate IsSingle(h: Md5, file: Bytes, capacity: int, m: Bytes) {
    exists uuid: Uuid, source: Bytes, dest: Bytes, priority: Bytes, now: Stamp
      {:trigger SingleMessage(h, uuid, file, source, dest, priority, now, capacity)} ::
      m == SingleMessage(h, uuid, file, source, dest, priority, now, capacity)
  }

  /** `chunks` and `info` are the messages made for `file` at `capacity`, whatever their uuids, names and time. */
  ghost predicate IsTransfer(h: Md5, file: Bytes, parent: Bytes, capacity: int, chunks: seq<Bytes>, info: Bytes)
  {
    && capacity > OVERHEAD
    && |chunks| == CeilDiv(|file|, capacity - OVERHEAD)
    && (forall i :: 0 <= i < |chunks| ==> IsChunk(h, file, parent, capacity, i, chunks[i]))
    && IsInfo(h, file, parent, capacity, info)
  }

  // ---- the reassembly query --------------------------------------------------------------

  predicate IsChunkOf(m: Bytes, id: Bytes) {
    ParseInt(TypeField(m)) == Some(2) && ParentField(m) == id
  }

  function RowsOfFile(rows: seq<Bytes>, id: Bytes): seq<Bytes> {
    if rows == [] then []
    else (if IsChunkOf(rows[0], id) then [rows[0]] else []) + RowsOfFile(rows[1..], id)
  }

  /** The guard: an info row whose count equals the number of chunk rows of its file. */
  predicate Ready(rows: seq<Bytes>, info: Bytes) {
    ParseInt(TypeField(info)) == Some(3) && CountField(info) == Some(|RowsOfFile(rows, InfoParentField(info))|)
  }

  /** `GROUP BY jobdata`. */
  function Distinct(rows: seq<Bytes>): seq<Bytes> {
    if rows == [] then []
    else if rows[0] in rows[1..] then Distinct(rows[1..]) else [rows[0]] + Distinct(rows[1..])
  }

  /** What the query reads from one chunk row: its index and its recorded length of data. */
  datatype Part = Part(idx: int, data: Bytes)

  /** None is a failing cast, or a negative length. */
  function PartOf(m: Bytes): Option<Part> {
    var idx, length := IndexField(m), LengthField(m);
    if idx.None? || length.None? || length.value < 0 then None
    else Some(Part(idx.value, Substr(m, 169, length.value)))
  }

  function PartsOf(rows: seq<Bytes>): Option<seq<Part>> {
    if rows == [] then Some([])
    else
      var first, rest := PartOf(rows[0]), PartsOf(rows[1..]);
      if first.None? || rest.None? then None else Some([first.value] + rest.value)
  }

  function InsertByIndex(p: Part, parts: seq<Part>): seq<Part> {
    if parts == [] || p.idx <= parts[0].idx then [p] + parts
    else [parts[0]] + InsertByIndex(p, parts[1..])
  }

  /** `ORDER BY` the index field. */
  function SortByIndex(parts: seq<Part>): seq<Part> {
    if parts == [] then [] else InsertByIndex(parts[0], SortByIndex(parts[1..]))
  }

  /** The cursor loop: each fetched piece is put at the end of the new file. */
  function Join(parts: seq<Part>): Bytes {
    if parts == [] then [] else Join(parts[..|parts| - 1]) + parts[|parts| - 1].data
  }

  /** The file the query builds from the rows of message `id`; None is a failing cast. */
  function Assemble(rows: seq<Bytes>, id: Bytes): Option<Bytes> {
    var parts := PartsOf(Distinct(RowsOfFile(rows, id)));
    if parts.None? then None else Some(Join(SortByIndex(parts.value)))
  }

  // ---- facts about the query's steps -----------------------------------------------------

  predicate NoDuplicates<T(==)>(rows: seq<T>) {
    forall i, j :: 0 <= i < j < |rows| ==> rows[i] != rows[j]
  }

  lemma {:induction false} DistinctKeeps(rows: seq<Bytes>)
    ensures NoDuplicates(Distinct(rows))
    ensures forall m :: m in Distinct(rows) <==> m in rows
    ensures NoDuplicates(rows) ==> Distinct(rows) == rows
  {
    if rows != [] {
      assert rows == [rows[0]] + rows[1..];
      DistinctKeeps(rows[1..]);
      if NoDuplicates(rows) {
        assert NoDuplicates(rows[1..]);
        assert forall j :: 0 <= j < |rows[1..]| ==> rows[1..][j] == rows[j + 1];
      }
    }
  }

  lemma {:induction false} DistinctShorter(rows: seq<Bytes>)
    ensures |Distinct(rows)| <= |rows|
    ensures |Distinct(rows)| == |rows| ==> NoDuplicates(rows)
  {
    if rows != [] {
      DistinctShorter(rows[1..]);
      if |Distinct(rows)| == |rows| {
        assert rows[0] !in rows[1..];
        forall i, j | 0 <= i < j < |rows| ensures rows[i] != rows[j] {
          assert rows[j] == rows[1..][j - 1];
          if i > 0 { assert rows[i] == rows[1..][i - 1]; }
        }
      }
    }
  }

  lemma {:induction false} RowsOfFileCount(rows: seq<Bytes>, id: Bytes, m: Bytes)
    ensures multiset(RowsOfFile(rows, id))[m] == if IsChunkOf(m, id) then multiset(rows)[m] else 0
  {
    if rows != [] {
      assert rows == [rows[0]] + rows[1..];
      RowsOfFileCount(rows[1..], id, m);
    }
  }

  lemma RowsOfFileMembers(rows: seq<Bytes>, id: Bytes)
    ensures forall m :: m in RowsOfFile(rows, id) <==> m in rows && IsChunkOf(m, id)
  {
    forall m ensures m in RowsOfFile(rows, id) <==> m in rows && IsChunkOf(m, id) {
      RowsOfFileCount(rows, id, m);
      assert m in RowsOfFile(rows, id) <==> m in multiset(RowsOfFile(rows, id));
      assert m in rows <==> m in multiset(rows);
    }
  }

  predicate Sorted(parts: seq<Part>) {
    forall i, j :: 0 <= i < j < |parts| ==> parts[i].idx <= parts[j].idx
  }

  lemma {:induction false} InsertMembers(p: Part, parts: seq<Part>)
    ensures multiset(InsertByIndex(p, parts)) == multiset{p} + multiset(parts)
  {
    if parts == [] || p.idx <= parts[0].idx {
      assert InsertByIndex(p, parts) == [p] + parts;
    } else {
      InsertMembers(p, parts[1..]);
      assert parts == [parts[0]] + parts[1..];
      assert multiset(parts) == multiset{parts[0]} + multiset(parts[1..]);
      assert InsertByIndex(p, parts) == [parts[0]] + InsertByIndex(p, parts[1..]);
    }
  }

  lemma {:induction false} InsertSorted(p: Part, parts: seq<Part>)
    requires Sorted(parts)
    ensures Sorted(InsertByIndex(p, parts))
  {
    if !(parts == [] || p.idx <= parts[0].idx) {
      var rest := InsertByIndex(p, parts[1..]);
      InsertSorted(p, parts[1..]);
      InsertMembers(p, parts[1..]);
      forall i | 0 <= i < |rest| ensures parts[0].idx <= rest[i].idx {
        assert rest[i] in multiset(rest);
        assert rest[i] == p || rest[i] in parts[1..];
      }
    }
  }

  lemma {:induction false} SortIsSorted(parts: seq<Part>)
    ensures Sorted(SortByIndex(parts))
    ensures multiset(SortByIndex(parts)) == multiset(parts)
  {
    if parts != [] {
      SortIsSorted(parts[1..]);
      InsertSorted(parts[0], SortByIndex(parts[1..]));
      InsertMembers(parts[0], SortByIndex(parts[1..]));
      assert parts == [parts[0]] + parts[1..];
    }
  }

  lemma OccursTwice<T>(b: seq<T>, i: nat, j: nat)
    requires i < j < |b| && b[i] == b[j]
    ensures multiset(b)[b[i]] >= 2
  {
    var l, r := b[..j], b[j..];
    assert b == l + r;
    assert l[i] == b[i] && r[0] == b[i];
    assert b[i] in multiset(l) && b[i] in multiset(r);
  }

  lemma {:induction false} OnceInDistinct<T>(a: seq<T>, x: T)
    requires NoDuplicates(a)
    ensures multiset(a)[x] <= 1
  {
    if a != [] {
      assert a == [a[0]] + a[1..];
      assert forall j :: 0 <= j < |a[1..]| ==> a[1..][j] == a[j + 1];
      OnceInDistinct(a[1..], x);
      if a[0] == x { assert x !in multiset(a[1..]); }
    }
  }

  // ---- the chunks of one transfer --------------------------------------------------------

  lemma PieceCount(size: nat, k: nat)
    requires size >= 1 && k >= 1
    ensures var n := CeilDiv(size, k); 1 <= n <= size && (n - 1) * k < size <= n * k
  {
    var n := CeilDiv(size, k);
    assert n == (size + k - 1) / k;
    assert n * k <= size + k - 1 < (n + 1) * k;
    assert (n - 1) * k == n * k - k;
    assert (n + 1) * k == n * k + k;
    if n > size { MulMono(size, n - 1, k); }
    if n < 1 { MulMono(n, 0, k); }
  }

  lemma MulMono(a: int, b: int, k: nat)
    requires a <= b
    ensures a * k <= b * k
  {
  }

  /** Every piece but the last is full. */
  lemma PieceLength(file: Bytes, k: nat, i: nat)
    requires |file| >= 1 && k >= 1 && i < CeilDiv(|file|, k)
    ensures |Piece(file, k, i)| == (if i == CeilDiv(|file|, k) - 1 then |file| - (CeilDiv(|file|, k) - 1) * k else k)
    ensures 1 <= |Piece(file, k, i)| <= k
  {
    var n := CeilDiv(|file|, k);
    PieceCount(|file|, k);
    MulMono(i, n - 1, k);
    if i < n - 1 {
      MulMono(i + 1, n - 1, k);
      assert (i + 1) * k == i * k + k;
    } else {
      assert n * k == (n - 1) * k + k;
    }
  }

  /** The type and the size of a chunk, whatever its index. */
  lemma ChunkShape(h: Md5, file: Bytes, parent: Uuid, capacity: int, i: nat, m: Bytes)
    requires OVERHEAD < capacity <= MAX_INTEGER && |file| >= 1
    requires i < CeilDiv(|file|, capacity - OVERHEAD)
    requires IsChunk(h, file, parent, capacity, i, m)
    ensures |m| == capacity && TypeField(m) == LPad(TYPE_CHUNK, 5)
  {
    hide ParseInt, Substr, CreateMessage, LPad, ChunkMessage;
    var piece := Piece(file, capacity - OVERHEAD, i);
    PieceLength(file, capacity - OVERHEAD, i);
    var uuid: Uuid, source: Bytes, dest: Bytes, priority: Bytes, now: Stamp :|
      m == ChunkMessage(h, uuid, i, parent, piece, source, dest, priority, now, capacity);
    ChunkRoundTrip(h, uuid, i, parent, piece, source, dest, priority, now, capacity);
  }

  lemma ChunkFields(h: Md5, file: Bytes, parent: Uuid, capacity: int, i: nat, m: Bytes)
    requires OVERHEAD < capacity <= MAX_INTEGER && |file| >= 1
    requires i < CeilDiv(|file|, capacity - OVERHEAD) <= MAX_CHUNKS
    requires IsChunk(h, file, parent, capacity, i, m)
    ensures |m| == capacity && HashOk(h, m) && IsChunkOf(m, parent)
    ensures PartOf(m) == Some(Part(i, Piece(file, capacity - OVERHEAD, i)))
  {
    hide ParseInt, Substr, CreateMessage, LPad, ChunkMessage;
    var piece := Piece(file, capacity - OVERHEAD, i);
    PieceLength(file, capacity - OVERHEAD, i);
    var uuid: Uuid, source: Bytes, dest: Bytes, priority: Bytes, now: Stamp :|
      m == ChunkMessage(h, uuid, i, parent, piece, source, dest, priority, now, capacity);
    ChunkRoundTrip(h, uuid, i, parent, piece, source, dest, priority, now, capacity);
  }

  lemma InfoFields(h: Md5, file: Bytes, parent: Uuid, capacity: int, m: Bytes)
    requires capacity > OVERHEAD && 1 <= |file| <= MAX_INTEGER
    requires IsInfo(h, file, parent, capacity, m)
    ensures |m| == capacity && HashOk(h, m) && ParseInt(TypeField(m)) == Some(3) && TypeField(m) == LPad(TYPE_INFO, 5)
    ensures InfoParentField(m) == parent && SizeField(m) == Some(|file|)
    ensures CountField(m) == Some(CeilDiv(|file|, capacity - OVERHEAD))
  {
    hide ParseInt, Substr, CreateMessage, LPad, InfoMessage;
    var n := CeilDiv(|file|, capacity - OVERHEAD);
    PieceCount(|file|, capacity - OVERHEAD);
    var uuid: Uuid, source: Bytes, dest: Bytes, priority: Bytes, now: Stamp :|
      m == InfoMessage(h, uuid, parent, |file|, n, source, dest, priority, now, capacity);
    InfoRoundTrip(h, uuid, parent, |file|, n, source, dest, priority, now, capacity);
  }

  // ---- strictly ordered selections of the pieces -----------------------------------------

  /** `t` lists some of the `n` pieces, in strictly increasing order of index. */
  ghost predicate Selection(file: Bytes, k: nat, n: nat, t: seq<Part>) {
    && (forall j :: 0 <= j < |t| ==> 0 <= t[j].idx < n && t[j].data == Piece(file, k, t[j].idx))
    && (forall i, j :: 0 <= i < j < |t| ==> t[i].idx < t[j].idx)
  }

  ghost predicate Has(t: seq<Part>, i: int) {
    exists j :: 0 <= j < |t| && t[j].idx == i
  }

  lemma {:induction false} SelectionLower(file: Bytes, k: nat, n: nat, t: seq<Part>, j: nat)
    requires Selection(file, k, n, t) && j < |t|
    ensures j <= t[j].idx
  {
    if j > 0 { SelectionLower(file, k, n, t, j - 1); }
  }

  lemma {:induction false} SelectionUpper(file: Bytes, k: nat, n: nat, t: seq<Part>, j: nat)
    requires Selection(file, k, n, t) && j < |t|
    ensures t[j].idx <= n - |t| + j
    decreases |t| - j
  {
    if j < |t| - 1 { SelectionUpper(file, k, n, t, j + 1); }
  }

  /** The piece with index `i` can only stand at position `i` when no piece before it is missing. */
  lemma {:induction false} PrefixOccurs(file: Bytes, k: nat, n: nat, t: seq<Part>, m: nat)
    requires Selection(file, k, n, t) && m <= n
    requires forall i :: 0 <= i < m ==> Has(t, i)
    ensures m <= |t| && forall j :: 0 <= j < m ==> t[j].idx == j
  {
    if m > 0 {
      PrefixOccurs(file, k, n, t, m - 1);
      assert Has(t, m - 1);
      var p :| 0 <= p < |t| && t[p].idx == m - 1;
      SelectionLower(file, k, n, t, p);
      assert p == m - 1;
    }
  }

  /** A selection has `n` parts exactly when no piece is missing, and then part `j` is piece `j`. */
  lemma SelectionComplete(file: Bytes, k: nat, n: nat, t: seq<Part>)
    requires Selection(file, k, n, t)
    ensures |t| <= n
    ensures |t| == n <==> forall i :: 0 <= i < n ==> Has(t, i)
    ensures |t| == n ==> forall j :: 0 <= j < n ==> t[j] == Part(j, Piece(file, k, j))
  {
    if |t| > 0 {
      SelectionLower(file, k, n, t, |t| - 1);
    }
    if |t| == n {
      forall j | 0 <= j < n ensures t[j].idx == j && Has(t, j) {
        SelectionLower(file, k, n, t, j);
        SelectionUpper(file, k, n, t, j);
      }
    }
    if forall i :: 0 <= i < n ==> Has(t, i) { PrefixOccurs(file, k, n, t, n); }
  }

  lemma PieceExtends(file: Bytes, k: nat, i: nat)
    requires i * k <= |file|
    ensures file[..i * k] + Piece(file, k, i) == if (i + 1) * k <= |file| then file[..(i + 1) * k] else file
  {
    var at := i * k;
    assert (i + 1) * k == at + k;
    assert file == file[..at] + file[at..];
    if at + k <= |file| { assert file[..at + k] == file[..at] + file[at..at + k]; }
  }

  lemma {:induction false} JoinAll(file: Bytes, k: nat, t: seq<Part>, m: nat)
    requires |file| >= 1 && k >= 1 && m <= |t| == CeilDiv(|file|, k)
    requires forall j :: 0 <= j < |t| ==> t[j] == Part(j, Piece(file, k, j))
    ensures m < |t| ==> m * k <= |file| && Join(t[..m]) == file[..m * k]
    ensures m == |t| ==> Join(t[..m]) == file
  {
    hide Piece, CeilDiv;
    PieceCount(|file|, k);
    if m > 0 {
      JoinAll(file, k, t, m - 1);
      PieceExtends(file, k, m - 1);
      assert t[..m][..m - 1] == t[..m - 1];
      if m < |t| { MulMono(m, |t| - 1, k); }
    }
  }

  /** Each part of a selection adds a full piece, except that the file's last piece may be shorter. */
  lemma {:induction false} JoinLength(file: Bytes, k: nat, n: nat, t: seq<Part>)
    requires |file| >= 1 && k >= 1 && n == CeilDiv(|file|, k) && Selection(file, k, n, t)
    ensures |Join(t)| == |t| * k - (if t != [] && t[|t| - 1].idx == n - 1 then n * k - |file| else 0)
  {
    hide Piece, CeilDiv;
    if t != [] {
      var front, last := t[..|t| - 1], t[|t| - 1];
      assert Selection(file, k, n, front);
      JoinLength(file, k, n, front);
      PieceLength(file, k, last.idx);
      assert |Join(t)| == |Join(front)| + |last.data|;
      assert front != [] ==> front[|front| - 1].idx < n - 1;
      Distribute(|front|, k);
      Distribute(n - 1, k);
    }
  }

  lemma Distribute(a: int, k: int)
    ensures (a + 1) * k == a * k + k
  {
  }

  /** The parts of a selection join to the file exactly when none is missing. */
  lemma JoinExact(file: Bytes, k: nat, n: nat, t: seq<Part>)
    requires |file| >= 1 && k >= 1 && n == CeilDiv(|file|, k) && Selection(file, k, n, t)
    ensures Join(t) == file <==> forall i :: 0 <= i < n ==> Has(t, i)
  {
    hide Piece, CeilDiv, Join, Has;
    SelectionComplete(file, k, n, t);
    if |t| == n {
      JoinAll(file, k, t, n);
      assert t[..n] == t;
    } else {
      JoinLength(file, k, n, t);
      PieceCount(|file|, k);
      MulMono(|t|, n - 1, k);
      assert n * k == (n - 1) * k + k;
    }
  }

  // ---- main results ----------------------------------------------------------------------

  /** Facts the main results assume: a capacity above the overhead, a file the SQL length functions can
      measure, and no more chunks than an eight-digit index can number. */
  predicate InRange(file: Bytes, capacity: int) {
    && OVERHEAD < capacity <= MAX_INTEGER
    && 1 <= |file| <= MAX_INTEGER
    && CeilDiv(|file|, capacity - OVERHEAD) <= MAX_CHUNKS
  }

  /** Chunk `i` is read back as part `i`. */
  lemma TransferParts(h: Md5, file: Bytes, parent: Uuid, capacity: int, chunks: seq<Bytes>, info: Bytes)
    requires InRange(file, capacity) && IsTransfer(h, file, parent, capacity, chunks, info)
    ensures forall i :: 0 <= i < |chunks| ==>
              && |chunks[i]| == capacity && HashOk(h, chunks[i]) && IsChunkOf(chunks[i], parent)
              && PartOf(chunks[i]) == Some(Part(i, Piece(file, capacity - OVERHEAD, i)))
    ensures |info| == capacity && HashOk(h, info) && !IsChunkOf(info, parent)
    ensures ParseInt(TypeField(info)) == Some(3) && InfoParentField(info) == parent
        && CountField(info) == Some(|chunks|)
  {
    hide ParseInt, Substr, CreateMessage, LPad, IsChunk, PartOf, HashOk;
    forall i | 0 <= i < |chunks|
      ensures |chunks[i]| == capacity && HashOk(h, chunks[i]) && IsChunkOf(chunks[i], parent)
      ensures PartOf(chunks[i]) == Some(Part(i, Piece(file, capacity - OVERHEAD, i)))
    {
      ChunkFields(h, file, parent, capacity, i, chunks[i]);
    }
    InfoFields(h, file, parent, capacity, info);
  }

  /** Rows that are all read as parts of one file, with different indexes for different rows. */
  lemma {:induction false} PartsOfRows(file: Bytes, k: nat, chunks: seq<Bytes>, rows: seq<Bytes>)
    requires forall i :: 0 <= i < |chunks| ==> PartOf(chunks[i]) == Some(Part(i, Piece(file, k, i)))
    requires forall m :: m in rows ==> m in chunks
    ensures PartsOf(rows).Some?
    ensures var parts := PartsOf(rows).value;
            |parts| == |rows| && forall j :: 0 <= j < |rows| ==>
              0 <= parts[j].idx < |chunks| && rows[j] == chunks[parts[j].idx] && PartOf(rows[j]) == Some(parts[j])
  {
    hide PartOf, Piece;
    if rows != [] {
      assert rows[0] in chunks;
      PartsOfRows(file, k, chunks, rows[1..]);
      var parts := PartsOf(rows).value;
      assert forall j :: 1 <= j < |rows| ==> rows[j] == rows[1..][j - 1];
    }
  }

  /** What the query sorts is a selection of the file's pieces: those whose chunks are among the rows. */
  lemma SortedSelection(file: Bytes, k: nat, chunks: seq<Bytes>, rows: seq<Bytes>)
    requires forall i :: 0 <= i < |chunks| ==> PartOf(chunks[i]) == Some(Part(i, Piece(file, k, i)))
    requires forall m :: m in rows ==> m in chunks
    requires NoDuplicates(rows)
    ensures PartsOf(rows).Some?
    ensures var t := SortByIndex(PartsOf(rows).value);
            && Selection(file, k, |chunks|, t) && |t| == |rows|
            && forall i :: 0 <= i < |chunks| ==> (Has(t, i) <==> chunks[i] in rows)
  {
    hide PartOf, Piece, SortByIndex, PartsOf;
    PartsOfRows(file, k, chunks, rows);
    var parts := PartsOf(rows).value;
    var t := SortByIndex(parts);
    SortIsSorted(parts);
    SortedDistinct(parts, t);
    forall j | 0 <= j < |t|
      ensures 0 <= t[j].idx < |chunks| && t[j].data == Piece(file, k, t[j].idx)
    {
      assert t[j] in parts;
    }
    forall i | 0 <= i < |chunks| ensures Has(t, i) <==> chunks[i] in rows {
      if chunks[i] in rows {
        var j :| 0 <= j < |rows| && rows[j] == chunks[i];
        assert PartOf(rows[j]) == Some(parts[j]);
        assert parts[j] in t;
      }
      if Has(t, i) {
        var j :| 0 <= j < |t| && t[j].idx == i;
        assert t[j] in parts;
      }
    }
  }

  /** Sorting parts with pairwise different indexes gives a strictly increasing list of the same parts. */
  lemma SortedDistinct(parts: seq<Part>, t: seq<Part>)
    requires forall i, j :: 0 <= i < j < |parts| ==> parts[i].idx != parts[j].idx
    requires Sorted(t) && multiset(t) == multiset(parts)
    ensures |t| == |parts|
    ensures forall p :: p in t <==> p in parts
    ensures forall i, j :: 0 <= i < j < |t| ==> t[i].idx < t[j].idx
  {
    assert |t| == |multiset(t)| == |multiset(parts)| == |parts|;
    assert forall p :: p in t <==> p in multiset(t);
    assert forall p :: p in parts <==> p in multiset(parts);
    forall i, j | 0 <= i < j < |t| ensures t[i].idx < t[j].idx {
      if t[i].idx == t[j].idx {
        assert t[i] in parts && t[j] in parts;
        OccursTwice(t, i, j);
        OnceInDistinct(parts, t[i]);
      }
    }
  }

  /** Reassembly is exact: whatever rows arrived, repeated or not, in any order and among any other
      traffic, the query returns the original file if and only if every chunk is among them. */
  lemma AssembleExact(h: Md5, file: Bytes, parent: Uuid, capacity: int,
                      chunks: seq<Bytes>, info: Bytes, rows: seq<Bytes>)
    requires InRange(file, capacity) && IsTransfer(h, file, parent, capacity, chunks, info)
    requires forall m :: m in rows && IsChunkOf(m, parent) ==> m in chunks
    ensures Assemble(rows, parent) == Some(file) <==> forall i :: 0 <= i < |chunks| ==> chunks[i] in rows
  {
    hide IsChunkOf, PartOf, Piece, IsTransfer, HashOk, ParseInt, Substr, RowsOfFile, Distinct;
    var k := capacity - OVERHEAD;
    TransferParts(h, file, parent, capacity, chunks, info);
    TransferCount(h, file, parent, capacity, chunks, info);
    var found := Distinct(RowsOfFile(rows, parent));
    RowsOfFileMembers(rows, parent);
    DistinctKeeps(RowsOfFile(rows, parent));
    SortedSelection(file, k, chunks, found);
    JoinExact(file, k, |chunks|, SortByIndex(PartsOf(found).value));
  }

  lemma TransferCount(h: Md5, file: Bytes, parent: Bytes, capacity: int, chunks: seq<Bytes>, info: Bytes)
    requires capacity > OVERHEAD && IsTransfer(h, file, parent, capacity, chunks, info)
    ensures |chunks| == CeilDiv(|file|, capacity - OVERHEAD)
  {
  }

  /** The guard is sound and complete when no chunk arrives twice: it holds if and only if the set is complete. */
  lemma GuardExact(h: Md5, file: Bytes, parent: Uuid, capacity: int,
                   chunks: seq<Bytes>, info: Bytes, rows: seq<Bytes>)
    requires InRange(file, capacity) && IsTransfer(h, file, parent, capacity, chunks, info)
    requires forall m :: m in rows && IsChunkOf(m, parent) ==> m in chunks
    requires NoDuplicates(RowsOfFile(rows, parent))
    ensures Ready(rows, info) <==> forall i :: 0 <= i < |chunks| ==> chunks[i] in rows
  {
    hide IsChunkOf, PartOf, Piece, IsTransfer, HashOk, ParseInt, Substr, RowsOfFile, Distinct, InfoParentField,
      TypeField;
    var k := capacity - OVERHEAD;
    TransferParts(h, file, parent, capacity, chunks, info);
    var found := RowsOfFile(rows, parent);
    RowsOfFileMembers(rows, parent);
    SortedSelection(file, k, chunks, found);
    SelectionComplete(file, k, |chunks|, SortByIndex(PartsOf(found).value));
  }

  /** Of the messages of a transfer only the info message ever satisfies the guard, and exactly when as many rows of
      its file are there as the transfer has chunks. */
  lemma ReadyExact(h: Md5, file: Bytes, parent: Uuid, capacity: int,
                   chunks: seq<Bytes>, info: Bytes, rows: seq<Bytes>, m: Bytes)
    requires InRange(file, capacity) && IsTransfer(h, file, parent, capacity, chunks, info)
    requires m in chunks || m == info
    ensures Ready(rows, m) <==> m == info && |RowsOfFile(rows, parent)| == |chunks|
  {
    hide PartOf, Piece, IsTransfer, HashOk, ParseInt, Substr, RowsOfFile, InfoParentField, TypeField;
    TransferParts(h, file, parent, capacity, chunks, info);
  }

  /** Nor does a message that is a file by itself. */
  lemma SingleNeverReady(h: Md5, file: Bytes, capacity: int, rows: seq<Bytes>, m: Bytes)
    requires |file| <= capacity - OVERHEAD && IsSingle(h, file, capacity, m)
    ensures !Ready(rows, m)
  {
    hide ParseInt, Substr, CreateMessage, LPad, SingleMessage, RowsOfFile;
    var uuid: Uuid, source: Bytes, dest: Bytes, priority: Bytes, now: Stamp :|
      m == SingleMessage(h, uuid, file, source, dest, priority, now, capacity);
    SingleRoundTrip(h, uuid, file, source, dest, priority, now, capacity);
    TypeDigit(1);
  }

  /** The guard's promise, that a ready file is whole, holds if and only if no chunk has arrived twice: among
      all deliveries that satisfy the guard these are exactly the ones the query reassembles. */
  lemma ReadyIsWhole(h: Md5, file: Bytes, parent: Uuid, capacity: int,
                     chunks: seq<Bytes>, info: Bytes, rows: seq<Bytes>)
    requires InRange(file, capacity) && IsTransfer(h, file, parent, capacity, chunks, info)
    requires forall m :: m in rows && IsChunkOf(m, parent) ==> m in chunks
    requires Ready(rows, info)
    ensures Assemble(rows, parent) == Some(file) <==> NoDuplicates(RowsOfFile(rows, parent))
  {
    hide IsChunkOf, PartOf, Piece, IsTransfer, HashOk, ParseInt, Substr, RowsOfFile, Distinct, InfoParentField,
      TypeField, Assemble;
    var k := capacity - OVERHEAD;
    TransferParts(h, file, parent, capacity, chunks, info);
    var found := RowsOfFile(rows, parent);
    assert |found| == |chunks|;
    AssembleExact(h, file, parent, capacity, chunks, info, rows);
    RowsOfFileMembers(rows, parent);
    DistinctKeeps(found);
    DistinctShorter(found);
    SortedSelection(file, k, chunks, Distinct(found));
    SelectionComplete(file, k, |chunks|, SortByIndex(PartsOf(Distinct(found)).value));
  }

  /** The file round trip: deliver every message of a transfer once, in any order, mixed with any rows
      that are not chunks of this file; each passes the hash check and has the agreed size, the guard
      holds, and the query returns exactly the original bytes. */
  lemma FileRoundTrip(h: Md5, file: Bytes, parent: Uuid, capacity: int,
                      chunks: seq<Bytes>, info: Bytes, others: seq<Bytes>, rows: seq<Bytes>)
    requires InRange(file, capacity) && IsTransfer(h, file, parent, capacity, chunks, info)
    requires forall o :: o in others ==> !IsChunkOf(o, parent)
    requires multiset(rows) == multiset(chunks) + multiset{info} + multiset(others)
    ensures forall m :: m in chunks || m == info ==> |m| == capacity && HashOk(h, m)
    ensures Ready(rows, info)
    ensures Assemble(rows, parent) == Some(file)
  {
    hide IsChunkOf, PartOf, Piece, IsTransfer, HashOk, ParseInt, Substr, RowsOfFile, Distinct, InfoParentField,
      TypeField, Assemble, Ready;
    TransferParts(h, file, parent, capacity, chunks, info);
    assert forall m :: m in rows <==> m in multiset(rows);
    assert forall m :: m in chunks <==> m in multiset(chunks);
    assert forall m :: m in others <==> m in multiset(others);
    DeliveredOnce(parent, chunks, info, others, rows);
    GuardExact(h, file, parent, capacity, chunks, info, rows);
    AssembleExact(h, file, parent, capacity, chunks, info, rows);
  }

  lemma DeliveredOnce(parent: Uuid, chunks: seq<Bytes>, info: Bytes, others: seq<Bytes>, rows: seq<Bytes>)
    requires NoDuplicates(chunks)
    requires !IsChunkOf(info, parent)
    requires forall o :: o in others ==> !IsChunkOf(o, parent)
    requires multiset(rows) == multiset(chunks) + multiset{info} + multiset(others)
    ensures NoDuplicates(RowsOfFile(rows, parent))
  {
    hide IsChunkOf, PartOf, Piece, RowsOfFile;
    var found := RowsOfFile(rows, parent);
    forall i, j | 0 <= i < j < |found| ensures found[i] != found[j] {
      if found[i] == found[j] {
        OccursTwice(found, i, j);
        RowsOfFileCount(rows, parent, found[i]);
        OnceInDistinct(chunks, found[i]);
      }
    }
  }

  /** The guard alone is not enough: it counts rows, and the query collapses equal ones. Deliver the
      first chunk of any transfer as often as there are chunks and the guard holds, but the result is
      not the file. */
  lemma RepeatedChunkDefeatsGuard(h: Md5, file: Bytes, parent: Uuid, capacity: int, chunks: seq<Bytes>, info: Bytes)
    requires InRange(file, capacity) && IsTransfer(h, file, parent, capacity, chunks, info)
    requires |chunks| >= 2
    ensures var rows := seq(|chunks|, _ => chunks[0]);
            Ready(rows, info) && Assemble(rows, parent) != Some(file)
  {
    hide IsChunkOf, PartOf, Piece, IsTransfer, HashOk, ParseInt, Substr, RowsOfFile, Assemble, InfoParentField,
      TypeField;
    var rows := seq(|chunks|, _ => chunks[0]);
    TransferParts(h, file, parent, capacity, chunks, info);
    AllRowsOfFile(rows, parent);
    AssembleExact(h, file, parent, capacity, chunks, info, rows);
    assert PartOf(chunks[0]) != PartOf(chunks[1]);
    assert chunks[1] !in rows;
  }

  lemma {:induction false} AllRowsOfFile(rows: seq<Bytes>, id: Bytes)
    requires forall m :: m in rows ==> IsChunkOf(m, id)
    ensures RowsOfFile(rows, id) == rows
  {
    if rows != [] {
      assert rows == [rows[0]] + rows[1..];
      AllRowsOfFile(rows[1..], id);
    }
  }
}
