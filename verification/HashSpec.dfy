/** The hash table as a value: what `hput`, `hget` and `hdel` do to its chains and its pool of nodes,
    and when that agrees with a map from keys to first-in-first-out queues. */
module HashSpec {

  /** A signed char. */
  type schar = c: int | -128 <= c <= 127

  /** What a C string can hold. */
  type Key = k: seq<schar> | forall i :: 0 <= i < |k| ==> k[i] != 0

  /** The room for a key in a node. */
  const KEY_SIZE := 20

  /** A node's key field; its last byte is never written, so it stays 0. */
  type Buffer = b: seq<schar> | |b| == KEY_SIZE && b[KEY_SIZE - 1] == 0 witness seq(KEY_SIZE, _ => 0)

  const BLANK: Buffer := seq(KEY_SIZE, _ => 0)

  /** The string that starts at the beginning of `b`. */
  function CStr(b: seq<schar>): Key {
    if b == [] || b[0] == 0 then [] else [b[0]] + CStr(b[1..])
  }

  /** `strncpy(b, key, strlen(key))`: no terminator is written, the rest of `b` stays. */
  function Overlay(b: Buffer, key: Key): Buffer
    requires |key| < KEY_SIZE
  {
    key + b[|key|..]
  }

  const WORD := 0x1_0000_0000
  const HASH_SEED := 1009

  /** The hash before any wrap-around. */
  function Poly(key: Key): int {
    if key == [] then HASH_SEED else Poly(key[..|key| - 1]) * 33 + key[|key| - 1]
  }

  function Bucket(key: Key, size: nat): (b: nat)
    requires size > 0
    ensures b < size
  {
    Poly(key) % WORD % size
  }

  datatype Entry = Entry(buf: Buffer, value: int)

  datatype Table = Table(buckets: seq<seq<Entry>>, pool: seq<Buffer>)

  /** The position of the first entry whose string is `key`, or the length of the chain. */
  function Find(chain: seq<Entry>, key: Key): (i: nat)
    ensures i <= |chain|
    ensures i < |chain| ==> CStr(chain[i].buf) == key
    ensures forall j :: 0 <= j < i ==> CStr(chain[j].buf) != key
  {
    if chain == [] || CStr(chain[0].buf) == key then 0 else 1 + Find(chain[1..], key)
  }

  function Put(t: Table, key: Key, value: int): (Table, int)
    requires t.buckets != [] && |key| < KEY_SIZE
  {
    if t.pool == [] then (t, -1)
    else
      var h := Bucket(key, |t.buckets|);
      (Table(t.buckets[h := t.buckets[h] + [Entry(Overlay(t.pool[0], key), value)]], t.pool[1..]), 0)
  }

  function Get(t: Table, key: Key): int
    requires t.buckets != []
  {
    var chain := t.buckets[Bucket(key, |t.buckets|)];
    var i := Find(chain, key);
    if i == |chain| then -2 else chain[i].value
  }

  function Del(t: Table, key: Key): (Table, int)
    requires t.buckets != []
  {
    var h := Bucket(key, |t.buckets|);
    var chain := t.buckets[h];
    var i := Find(chain, key);
    if i == |chain| then (t, -2)
    else (Table(t.buckets[h := chain[..i] + chain[i + 1..]], [chain[i].buf] + t.pool), 0)
  }

  /** The number of live entries. */
  function Live(buckets: seq<seq<Entry>>): nat {
    if buckets == [] then 0 else |buckets[0]| + Live(buckets[1..])
  }

  lemma {:induction false} LiveUpdate(buckets: seq<seq<Entry>>, h: nat, chain: seq<Entry>)
    requires h < |buckets|
    ensures Live(buckets[h := chain]) == Live(buckets) - |buckets[h]| + |chain|
  {
    if h > 0 {
      LiveUpdate(buckets[1..], h - 1, chain);
      assert buckets[h := chain][1..] == buckets[1..][h - 1 := chain];
    }
  }

  lemma {:induction false} LiveEmpty(n: nat)
    ensures Live(seq(n, _ => [])) == 0
  {
    if n > 0 {
      LiveEmpty(n - 1);
      assert seq(n, _ => [])[1..] == seq<seq<Entry>>(n - 1, _ => []);
    }
  }

  // ---- the queue of one key ----------------------------------------------------------------

  function Values(chain: seq<Entry>, key: Key): seq<int> {
    if chain == [] then []
    else (if CStr(chain[0].buf) == key then [chain[0].value] else []) + Values(chain[1..], key)
  }

  function Queue(t: Table, key: Key): seq<int>
    requires t.buckets != []
  {
    Values(t.buckets[Bucket(key, |t.buckets|)], key)
  }

  lemma {:induction false} ValuesConcat(a: seq<Entry>, b: seq<Entry>, key: Key)
    ensures Values(a + b, key) == Values(a, key) + Values(b, key)
  {
    hide CStr;
    if a == [] {
      assert a + b == b;
    } else {
      assert (a + b)[1..] == a[1..] + b;
      ValuesConcat(a[1..], b, key);
      var first := if CStr(a[0].buf) == key then [a[0].value] else [];
      assert Values(a + b, key) == first + Values((a + b)[1..], key);
    }
  }

  lemma {:induction false} ValuesNone(a: seq<Entry>, key: Key)
    requires forall j :: 0 <= j < |a| ==> CStr(a[j].buf) != key
    ensures Values(a, key) == []
  {
    if a != [] { ValuesNone(a[1..], key); }
  }

  predicate SplitAt(chain: seq<Entry>, i: nat, key: Key)
    requires i < |chain|
  {
    && Values(chain, key) == [chain[i].value] + Values(chain[i + 1..], key)
    && Values(chain[..i] + chain[i + 1..], key) == Values(chain[i + 1..], key)
  }

  lemma SplitParts(a: seq<Entry>, b: seq<Entry>, key: Key)
    requires (forall j :: 0 <= j < |a| ==> CStr(a[j].buf) != key) && b != [] && CStr(b[0].buf) == key
    ensures Values(a + b, key) == [b[0].value] + Values(b[1..], key) && Values(a + b[1..], key) == Values(b[1..], key)
  {
    hide CStr;
    ValuesNone(a, key);
    ValuesConcat(a, b, key);
    ValuesConcat(a, b[1..], key);
  }

  /** A chain splits around the first entry for `key`. */
  lemma ValuesAtFirst(chain: seq<Entry>, key: Key)
    ensures Find(chain, key) == |chain| ==> Values(chain, key) == []
    ensures Find(chain, key) < |chain| ==> SplitAt(chain, Find(chain, key), key)
  {
    hide CStr, Values, Find;
    var i := Find(chain, key);
    if i == |chain| {
      ValuesNone(chain, key);
    } else {
      var a, b := chain[..i], chain[i..];
      assert chain == a + b;
      assert b[1..] == chain[i + 1..];
      SplitParts(a, b, key);
    }
  }

  lemma ValuesWithout(chain: seq<Entry>, i: nat, key: Key)
    requires i < |chain| && CStr(chain[i].buf) != key
    ensures Values(chain[..i] + chain[i + 1..], key) == Values(chain, key)
  {
    hide CStr;
    assert chain == chain[..i] + ([chain[i]] + chain[i + 1..]);
    ValuesConcat(chain[..i], [chain[i]] + chain[i + 1..], key);
    ValuesConcat(chain[..i], chain[i + 1..], key);
    assert ([chain[i]] + chain[i + 1..])[1..] == chain[i + 1..];
  }

  lemma {:induction false} CStrAppend(key: Key, rest: seq<schar>)
    ensures CStr(key + rest) == key + CStr(rest)
  {
    if key == [] {
      assert key + rest == rest;
    } else {
      assert (key + rest)[1..] == key[1..] + rest;
      CStrAppend(key[1..], rest);
      assert key == [key[0]] + key[1..];
    }
  }

  /** A recycled node holds the new key exactly when the byte after it is already 0. */
  lemma OverlayExact(b: Buffer, key: Key)
    requires |key| < KEY_SIZE
    ensures CStr(Overlay(b, key)) == key <==> b[|key|] == 0
  {
    CStrAppend(key, b[|key|..]);
  }

  // ---- each operation against the queues ---------------------------------------------------

  /** `hput` is an append to the queue of its key, and touches no other queue, if and only if the next
      pool node has a 0 where the key will end. */
  lemma PutExact(t: Table, key: Key, value: int)
    requires t.buckets != [] && |key| < KEY_SIZE && t.pool != []
    ensures var u := Put(t, key, value).0;
            (forall k: Key :: Queue(u, k) == Queue(t, k) + if k == key then [value] else [])
            <==> t.pool[0][|key|] == 0
  {
    var u := Put(t, key, value).0;
    var stored := CStr(Overlay(t.pool[0], key));
    OverlayExact(t.pool[0], key);
    forall k: Key
      ensures Queue(u, k) == Queue(t, k) +
        if k == stored && Bucket(k, |t.buckets|) == Bucket(key, |t.buckets|) then [value] else []
    {
      if Bucket(k, |t.buckets|) == Bucket(key, |t.buckets|) {
        var chain := t.buckets[Bucket(key, |t.buckets|)];
        var e := Entry(Overlay(t.pool[0], key), value);
        ValuesConcat(chain, [e], k);
        assert Values([e], k) == if stored == k then [value] else [];
      }
    }
    if t.pool[0][|key|] != 0 {
      assert Queue(u, key) == Queue(t, key);
      assert Queue(t, key) != Queue(t, key) + [value];
    }
  }

  /** `hget` returns the first value of the queue, or -2 when it is empty. */
  lemma GetExact(t: Table, key: Key)
    requires t.buckets != []
    ensures Get(t, key) == if Queue(t, key) == [] then -2 else Queue(t, key)[0]
  {
    ValuesAtFirst(t.buckets[Bucket(key, |t.buckets|)], key);
  }

  /** `hdel` removes the first value of the queue and touches no other queue. */
  lemma DelExact(t: Table, key: Key)
    requires t.buckets != []
    ensures var (u, status) := Del(t, key);
            && status == (if Queue(t, key) == [] then -2 else 0)
            && |u.buckets| == |t.buckets|
            && |u.pool| == |t.pool| + (if status == 0 then 1 else 0)
            && forall k: Key :: Queue(u, k) == if k == key && status == 0 then Queue(t, k)[1..] else Queue(t, k)
  {
    var u := Del(t, key).0;
    var h := Bucket(key, |t.buckets|);
    var chain := t.buckets[h];
    var i := Find(chain, key);
    ValuesAtFirst(chain, key);
    if i < |chain| {
      forall k: Key ensures Queue(u, k) == if k == key then Queue(t, k)[1..] else Queue(t, k) {
        if k != key && Bucket(k, |t.buckets|) == h { ValuesWithout(chain, i, k); }
      }
    }
  }

  /** The stale tail: after the key "ab" has been deleted, the node that takes "c" holds "cb", and a
      lookup of "c" finds nothing. */
  lemma StaleTail()
    ensures var ab: Key, c: Key := [97, 98], [99];
            var t := Table([[]], [BLANK]);
            Get(Put(Del(Put(t, ab, 1).0, ab).0, c, 2).0, c) == -2
  {
    var ab: Key, c: Key := [97, 98], [99];
    var t := Table([[]], [BLANK]);
    assert Bucket(ab, 1) == 0 && Bucket(c, 1) == 0;
    var t1 := Put(t, ab, 1).0;
    var e := Entry(Overlay(BLANK, ab), 1);
    assert BLANK[2] == 0;
    OverlayExact(BLANK, ab);
    assert CStr(e.buf) == ab;
    assert t.buckets[0] + [e] == [e];
    assert t1.buckets == [[e]] && Find([e], ab) == 0;
    var t2 := Del(t1, ab).0;
    assert t1.pool == [] && [e][..0] + [e][1..] == [];
    assert t2 == Table([[]], [e.buf]);
    var f := Entry(Overlay(e.buf, c), 2);
    OverlayExact(e.buf, c);
    assert e.buf[1] == 98;
    assert t2.buckets[0] + [f] == [f];
    assert Put(t2, c, 2).0.buckets == [[f]];
    assert CStr(f.buf) != c;
    assert Find([f], c) == 1;
  }

  // ---- runs --------------------------------------------------------------------------------

  datatype Op = PutOp(key: Key, value: int) | GetOp(key: Key) | DelOp(key: Key)

  predicate OpOk(op: Op) {
    op.PutOp? ==> |op.key| < KEY_SIZE
  }

  function Apply(t: Table, op: Op): (Table, int)
    requires t.buckets != [] && OpOk(op)
  {
    match op
    case PutOp(key, value) => Put(t, key, value)
    case GetOp(key) => (t, Get(t, key))
    case DelOp(key) => Del(t, key)
  }

  /** The intended object: a queue for every key, and a number of free nodes. */
  datatype Fifo = Fifo(queues: map<Key, seq<int>>, free: nat)

  function QueueOf(f: Fifo, key: Key): seq<int> {
    if key in f.queues then f.queues[key] else []
  }

  function ApplyFifo(f: Fifo, op: Op): (Fifo, int) {
    var q := QueueOf(f, op.key);
    match op
    case PutOp(key, value) => if f.free == 0 then (f, -1) else (Fifo(f.queues[key := q + [value]], f.free - 1), 0)
    case GetOp(key) => (f, if q == [] then -2 else q[0])
    case DelOp(key) => if q == [] then (f, -2) else (Fifo(f.queues[key := q[1..]], f.free + 1), 0)
  }

  /** No put of the sequence meets a stale byte. */
  predicate Clean(t: Table, ops: seq<Op>)
    requires t.buckets != [] && forall i :: 0 <= i < |ops| ==> OpOk(ops[i])
    decreases |ops|
  {
    if ops == [] then true
    else
      var op := ops[0];
      assert OpOk(op);
      (op.PutOp? && t.pool != [] ==> t.pool[0][|op.key|] == 0) && Clean(Apply(t, op).0, ops[1..])
  }

  function Results(t: Table, ops: seq<Op>): seq<int>
    requires t.buckets != [] && forall i :: 0 <= i < |ops| ==> OpOk(ops[i])
    decreases |ops|
  {
    if ops == [] then [] else [Apply(t, ops[0]).1] + Results(Apply(t, ops[0]).0, ops[1..])
  }

  function FifoResults(f: Fifo, ops: seq<Op>): seq<int>
    decreases |ops|
  {
    if ops == [] then [] else [ApplyFifo(f, ops[0]).1] + FifoResults(ApplyFifo(f, ops[0]).0, ops[1..])
  }

  ghost predicate Refines(t: Table, f: Fifo) {
    t.buckets != [] && |t.pool| == f.free && forall k: Key :: Queue(t, k) == QueueOf(f, k)
  }

  lemma StepRefines(t: Table, f: Fifo, op: Op)
    requires Refines(t, f) && OpOk(op)
    requires op.PutOp? && t.pool != [] ==> t.pool[0][|op.key|] == 0
    ensures Refines(Apply(t, op).0, ApplyFifo(f, op).0)
    ensures Apply(t, op).1 == ApplyFifo(f, op).1
  {
    match op
    case PutOp(key, value) => if t.pool != [] { PutExact(t, key, value); }
    case GetOp(key) => GetExact(t, key);
    case DelOp(key) => DelExact(t, key);
  }

  /** Over every sequence of operations without a stale put, the chains and the pool answer exactly like
      a map from keys to queues with a limited number of entries. */
  lemma {:induction false} RunRefines(t: Table, f: Fifo, ops: seq<Op>)
    requires Refines(t, f) && (forall i :: 0 <= i < |ops| ==> OpOk(ops[i])) && Clean(t, ops)
    ensures Results(t, ops) == FifoResults(f, ops)
    decreases |ops|
  {
    if ops != [] {
      StepRefines(t, f, ops[0]);
      RunRefines(Apply(t, ops[0]).0, ApplyFifo(f, ops[0]).0, ops[1..]);
    }
  }

  /** A table as `hcreate_table` leaves it. */
  function Fresh(size: nat): Table {
    Table(seq(size, _ => []), seq(size, _ => BLANK))
  }

  lemma FreshRefines(size: nat)
    requires size > 0
    ensures Refines(Fresh(size), Fifo(map[], size))
  {
  }

  /** Every buffer is 0 from position `n` on. */
  predicate ZeroFrom(t: Table, n: nat)
    requires n < KEY_SIZE
  {
    && (forall i :: 0 <= i < |t.pool| ==> TailZero(t.pool[i], n))
    && (forall b, i :: 0 <= b < |t.buckets| && 0 <= i < |t.buckets[b]| ==> TailZero(t.buckets[b][i].buf, n))
  }

  predicate TailZero(b: Buffer, n: nat)
    requires n < KEY_SIZE
  {
    forall i :: n <= i < KEY_SIZE ==> b[i] == 0
  }

  lemma ZeroFromStep(t: Table, n: nat, op: Op)
    requires n < KEY_SIZE && t.buckets != [] && ZeroFrom(t, n) && (op.PutOp? ==> |op.key| == n)
    ensures ZeroFrom(Apply(t, op).0, n) && Apply(t, op).0.buckets != []
  {
  }

  /** When all keys have one length, no put is ever stale, whatever is deleted in between. */
  lemma {:induction false} SameLengthClean(t: Table, n: nat, ops: seq<Op>)
    requires n < KEY_SIZE && t.buckets != [] && ZeroFrom(t, n)
    requires forall i :: 0 <= i < |ops| ==> ops[i].PutOp? ==> |ops[i].key| == n
    ensures Clean(t, ops)
    decreases |ops|
  {
    if ops != [] {
      ZeroFromStep(t, n, ops[0]);
      SameLengthClean(Apply(t, ops[0]).0, n, ops[1..]);
    }
  }

  /** No node of the pool has been used. */
  predicate PoolBlank(t: Table) {
    forall i :: 0 <= i < |t.pool| ==> TailZero(t.pool[i], 0)
  }

  lemma FreshIsBlank(size: nat)
    ensures PoolBlank(Fresh(size))
  {
  }

  /** When nothing is deleted, as in the receiver, no put is ever stale. */
  lemma {:induction false} NoDeleteClean(t: Table, ops: seq<Op>)
    requires t.buckets != [] && PoolBlank(t)
    requires forall i :: 0 <= i < |ops| ==> OpOk(ops[i]) && !ops[i].DelOp?
    ensures Clean(t, ops)
    decreases |ops|
  {
    if ops != [] { NoDeleteClean(Apply(t, ops[0]).0, ops[1..]); }
  }

  /** Without deletes a new table answers exactly like queues with room for `size` entries. */
  lemma NoDeleteRefines(size: nat, ops: seq<Op>)
    requires size > 0 && forall i :: 0 <= i < |ops| ==> OpOk(ops[i]) && !ops[i].DelOp?
    ensures Results(Fresh(size), ops) == FifoResults(Fifo(map[], size), ops)
  {
    hide Results, FifoResults, Clean, Refines;
    FreshRefines(size);
    FreshIsBlank(size);
    NoDeleteClean(Fresh(size), ops);
    RunRefines(Fresh(size), Fifo(map[], size), ops);
  }

  /** So does one whose keys all have one length, whatever is deleted. */
  lemma SameLengthRefines(size: nat, n: nat, ops: seq<Op>)
    requires size > 0 && n < KEY_SIZE && forall i :: 0 <= i < |ops| && ops[i].PutOp? ==> |ops[i].key| == n
    ensures Results(Fresh(size), ops) == FifoResults(Fifo(map[], size), ops)
  {
    hide Results, FifoResults, Clean, Refines;
    FreshRefines(size);
    assert ZeroFrom(Fresh(size), n);
    SameLengthClean(Fresh(size), n, ops);
    RunRefines(Fresh(size), Fifo(map[], size), ops);
  }
}
