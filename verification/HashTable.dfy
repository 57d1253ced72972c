/** The hash table in memory: an array of chain heads, nodes linked through `next`, and a free list. */
module HashTables {
  import opened HashSpec

  const HALF_WORD := 0x8000_0000

  /** What a 32-bit signed `int` keeps of `x`. */
  function Signed(x: int): (r: int)
    ensures -HALF_WORD <= r < HALF_WORD && r % WORD == x % WORD
  {
    if x % WORD < HALF_WORD then x % WORD else x % WORD - WORD
  }

  /** One round of the hash agrees with the exact polynomial modulo the word size. */
  lemma RoundCongruent(h: int, p: int, c: int)
    requires h % WORD == p % WORD
    ensures Signed(Signed(Signed(h * 32) + h) + c) % WORD == (p * 33 + c) % WORD
  {
    hide Signed;
    var a := Signed(h * 32);
    var b := Signed(a + h);
    var q := h / WORD - p / WORD;
    SignedShift(h * 32);
    SignedShift(a + h);
    SignedShift(b + c);
    var k := 33 * q - (h * 32 - a) / WORD - (a + h - b) / WORD - (b + c - Signed(b + c)) / WORD;
    var x, y := Signed(b + c), p * 33 + c;
    assert x == y + WORD * k;
    Congruent(x, y, k);
  }

  lemma Congruent(x: int, y: int, k: int)
    requires x == y + WORD * k
    ensures x % WORD == y % WORD
  {
    assert x == WORD * (x / WORD) + x % WORD && y == WORD * (y / WORD) + y % WORD;
  }

  lemma SignedShift(x: int)
    ensures x == Signed(x) + WORD * ((x - Signed(x)) / WORD)
  {
  }

  class Node {
    var key: Buffer
    var value: int
    var next: Node?

    constructor ()
      ensures key == BLANK && value == 0 && next == null
    {
      key, value, next := BLANK, 0, null;
    }
  }

  /** Following `next` from `head` visits exactly `s` and then reaches `end`. */
  ghost predicate Linked(head: Node?, s: seq<Node>, end: Node?)
    reads s`next
  {
    && head == (if s == [] then end else s[0])
    && forall i :: 0 <= i < |s| ==> s[i].next == if i + 1 < |s| then s[i + 1] else end
  }

  lemma NextOf(head: Node?, s: seq<Node>, end: Node?, i: nat)
    requires Linked(head, s, end) && i < |s|
    ensures s[i].next == if i + 1 < |s| then s[i + 1] else end
  {
  }

  lemma TailLinked(head: Node?, s: seq<Node>, end: Node?)
    requires Linked(head, s, end) && s != []
    ensures s[0] == head && Linked(s[0].next, s[1..], end)
  {
    NextOf(head, s, end, 0);
    forall i | 0 <= i < |s[1..]| ensures s[1..][i].next == if i + 1 < |s[1..]| then s[1..][i + 1] else end {
      NextOf(head, s, end, i + 1);
    }
  }

  lemma Prepended(node: Node, s: seq<Node>, end: Node?)
    requires Linked(node.next, s, end)
    ensures Linked(node, [node] + s, end)
  {
    var t := [node] + s;
    forall i | 0 <= i < |t| ensures t[i].next == if i + 1 < |t| then t[i + 1] else end {
      if i > 0 { NextOf(node.next, s, end, i - 1); }
    }
    assert Linked(node, t, end);
  }

  lemma Appended(head: Node?, s: seq<Node>, node: Node)
    requires Linked(head, s, node) && node.next == null && Once(s) && node !in s
    ensures Linked(head, s + [node], null) && Once(s + [node])
  {
    forall i | 0 <= i < |s| ensures s[i].next == (s + [node])[i + 1] {
      NextOf(head, s, node, i);
    }
  }

  ghost predicate Holds(s: seq<Node>, entries: seq<Entry>)
    reads s`key, s`value
  {
    |s| == |entries| && forall i :: 0 <= i < |s| ==> entries[i] == Entry(s[i].key, s[i].value)
  }

  lemma HoldsMore(s: seq<Node>, entries: seq<Entry>, node: Node, entry: Entry)
    requires Holds(s, entries) && entry == Entry(node.key, node.value)
    ensures Holds(s + [node], entries + [entry])
  {
  }

  lemma HoldsWithout(s: seq<Node>, entries: seq<Entry>, i: nat)
    requires Holds(s, entries) && i < |s|
    ensures Holds(Without(s, i), entries[..i] + entries[i + 1..]) && entries[i].buf == s[i].key
  {
  }

  ghost predicate Spare(s: seq<Node>, bufs: seq<Buffer>)
    reads s`key
  {
    |s| == |bufs| && forall i :: 0 <= i < |s| ==> bufs[i] == s[i].key
  }

  lemma SpareMore(s: seq<Node>, bufs: seq<Buffer>, node: Node)
    requires Spare(s, bufs)
    ensures Spare([node] + s, [node.key] + bufs)
  {
  }

  /** No node occurs twice in one list. */
  ghost predicate Once(s: seq<Node>) {
    forall i, j :: 0 <= i < j < |s| ==> s[i] != s[j]
  }

  ghost predicate Disjoint(s: seq<Node>, t: seq<Node>) {
    forall n :: n in s ==> n !in t
  }

  /** The free list and all chains are acyclic and pairwise disjoint. */
  ghost predicate Apart(chains: seq<seq<Node>>, pool: seq<Node>) {
    && Once(pool)
    && (forall b :: 0 <= b < |chains| ==> Once(chains[b]) && Disjoint(chains[b], pool))
    && forall a, b :: 0 <= a < b < |chains| ==> Disjoint(chains[a], chains[b])
  }

  /** Every allocated node is in the free list or in a chain, and nothing else is. */
  ghost predicate Covers(chains: seq<seq<Node>>, pool: seq<Node>, nodes: set<Node>) {
    && (forall n :: n in pool ==> n in nodes)
    && (forall b :: 0 <= b < |chains| ==> forall n :: n in chains[b] ==> n in nodes)
    && forall n :: n in nodes ==> n in pool || exists b :: 0 <= b < |chains| && n in chains[b]
  }

  /** The list `s` without its element at `i`. */
  function Without(s: seq<Node>, i: nat): (r: seq<Node>)
    requires i < |s|
    ensures |r| == |s| - 1 && forall k :: 0 <= k < |r| ==> r[k] == if k < i then s[k] else s[k + 1]
  {
    s[..i] + s[i + 1..]
  }

  lemma OnceWithout(s: seq<Node>, i: nat)
    requires Once(s) && i < |s|
    ensures Once(Without(s, i)) && forall n :: n in Without(s, i) <==> n in s && n != s[i]
  {
    var r := Without(s, i);
    forall n | n in s && n != s[i] ensures n in r {
      var j :| 0 <= j < |s| && s[j] == n;
      assert n == if j < i then r[j] else r[j - 1];
    }
  }

  /** Chain `h`, the first spare node, and everything else have no node in common. */
  lemma Elsewhere(chains: seq<seq<Node>>, pool: seq<Node>, h: nat)
    requires Apart(chains, pool) && h < |chains|
    ensures Once(chains[h]) && forall n :: n in chains[h] ==> n !in pool
    ensures forall b :: 0 <= b < |chains| && b != h ==> forall n :: n in chains[b] ==> n !in pool && n !in chains[h]
    ensures pool != [] ==> forall n :: n in pool[1..] ==> n != pool[0] && n !in chains[h]
  {
    forall b, n | 0 <= b < |chains| && b != h && n in chains[b] ensures n !in pool && n !in chains[h] {
      assert Disjoint(chains[b], pool);
      assert b < h ==> Disjoint(chains[b], chains[h]);
      assert h < b ==> Disjoint(chains[h], chains[b]);
    }
    assert Disjoint(chains[h], pool);
  }

  lemma TakeKeeps(chains: seq<seq<Node>>, pool: seq<Node>, nodes: set<Node>, h: nat)
    requires Apart(chains, pool) && Covers(chains, pool, nodes) && h < |chains| && pool != []
    ensures Apart(chains[h := chains[h] + [pool[0]]], pool[1..])
    ensures Covers(chains[h := chains[h] + [pool[0]]], pool[1..], nodes)
    ensures pool[0] in nodes && forall n :: n in chains[h] ==> n in nodes
  {
    var after := chains[h := chains[h] + [pool[0]]];
    OnceWithout(pool, 0);
    assert Without(pool, 0) == pool[1..];
    assert forall n :: n in after[h] <==> n in chains[h] || n == pool[0];
    assert pool[0] in pool;
    forall b | 0 <= b < |after| ensures Once(after[b]) && Disjoint(after[b], pool[1..]) {
      assert Once(chains[b]) && Disjoint(chains[b], pool);
    }
    forall a, b | 0 <= a < b < |after| ensures Disjoint(after[a], after[b]) {
      assert Disjoint(chains[a], chains[b]) && Disjoint(chains[a], pool) && Disjoint(chains[b], pool);
    }
    forall n | n in nodes ensures n in pool[1..] || exists b :: 0 <= b < |after| && n in after[b] {
      if n in pool {
        assert n in pool[1..] || n in after[h];
      } else {
        var b :| 0 <= b < |chains| && n in chains[b];
        assert n in after[b];
      }
    }
  }

  lemma GiveKeeps(chains: seq<seq<Node>>, pool: seq<Node>, nodes: set<Node>, h: nat, i: nat)
    requires Apart(chains, pool) && Covers(chains, pool, nodes) && h < |chains| && i < |chains[h]|
    ensures Apart(chains[h := Without(chains[h], i)], [chains[h][i]] + pool)
    ensures Covers(chains[h := Without(chains[h], i)], [chains[h][i]] + pool, nodes)
    ensures forall n :: n in chains[h] ==> n in nodes
  {
    var rest := Without(chains[h], i);
    var after := chains[h := rest];
    OnceWithout(chains[h], i);
    var node, spare := chains[h][i], [chains[h][i]] + pool;
    assert node in chains[h] && forall n :: n in spare <==> n == node || n in pool;
    forall b | 0 <= b < |after| ensures Once(after[b]) && Disjoint(after[b], spare) {
      assert Once(chains[b]) && Disjoint(chains[b], pool);
      assert b < h ==> Disjoint(chains[b], chains[h]);
      assert h < b ==> Disjoint(chains[h], chains[b]);
    }
    forall a, b | 0 <= a < b < |after| ensures Disjoint(after[a], after[b]) {
      assert Disjoint(chains[a], chains[b]);
    }
    assert Disjoint(chains[h], pool);
    forall n | n in nodes ensures n in [chains[h][i]] + pool || exists b :: 0 <= b < |after| && n in after[b] {
      if n !in pool {
        var b :| 0 <= b < |chains| && n in chains[b];
        assert n == chains[h][i] || n in after[b];
      }
    }
  }

  class HashTable {
    var table: array<Node?>
    var nodepool: Node?
    var availableNodeCount: nat
    var tableSize: nat

    // the nodes of each chain and of the free list, in order, every node ever allocated, and the table as a value
    ghost var chains: seq<seq<Node>>
    ghost var pool: seq<Node>
    ghost var nodes: set<Node>
    ghost var model: Table

    ghost predicate Valid()
      reads this, table, nodes
    {
      && 0 < tableSize == table.Length == |chains| == |model.buckets| == |nodes|
      && Apart(chains, pool) && Covers(chains, pool, nodes)
      && availableNodeCount == |pool| == |model.pool|
      && availableNodeCount + Live(model.buckets) == tableSize
      && Linked(nodepool, pool, null) && Spare(pool, model.pool)
      && forall b :: 0 <= b < tableSize ==> Linked(table[b], chains[b], null) && Holds(chains[b], model.buckets[b])
    }

    /** A list of blank nodes under construction, with its last node. */
    static ghost predicate Blanks(head: Node?, list: seq<Node>, temp: Node?)
      reads list
    {
      && Linked(head, list, null) && Once(list)
      && temp == (if list == [] then null else list[|list| - 1])
      && forall i :: 0 <= i < |list| ==> list[i].key == BLANK
    }

    /** The nodes of `hcreate_table`: allocated one by one and linked in that order. */
    static method AllocatePool(size: nat) returns (head: Node?, ghost list: seq<Node>, ghost all: set<Node>)
      ensures |list| == |all| == size && fresh(all) && forall n :: n in list <==> n in all
      ensures exists temp :: Blanks(head, list, temp)
    {
      var temp: Node? := null;
      head, list, all := null, [], {};
      for i := 0 to size
        invariant |list| == |all| == i && fresh(all) && forall n :: n in list <==> n in all
        invariant Blanks(head, list, temp)
      {
        var newnode := new Node();
        if temp == null {
          head, temp := newnode, newnode;
        } else {
          assert temp in all;
          temp.next := newnode;
          temp := temp.next;
        }
        Appended(head, list, newnode);
        list, all := list + [newnode], all + {newnode};
      }
    }

    /** `hcreate_table` */
    constructor (size: nat)
      requires 0 < size
      ensures Valid() && fresh(table) && fresh(nodes)
      ensures tableSize == size && model == Fresh(size)
    {
      tableSize, availableNodeCount := size, size;
      table := new Node?[size](_ => null);
      var head, list, all := AllocatePool(size);
      nodepool, pool, nodes := head, list, all;
      chains, model := seq(size, _ => []), Fresh(size);
      LiveEmpty(size);
    }

    /** `hget_hash`: 32-bit arithmetic that may wrap at every step still gives a bucket of the table. */
    method GetHash(key: Key) returns (hash: nat)
      requires 0 < tableSize
      ensures hash == Bucket(key, tableSize)
    {
      var h := HASH_SEED;
      for i := 0 to |key|
        invariant h % WORD == Poly(key[..i]) % WORD
      {
        assert key[..i + 1][..i] == key[..i];
        RoundCongruent(h, Poly(key[..i]), key[i]);
        h := Signed(Signed(Signed(h * 32) + h) + key[i]);
      }
      assert key[..|key|] == key;
      hash := h % WORD % tableSize;
    }

    /** The walk of `hget` and `hdel`: the first node of the chain whose string is `key`, and the one before it. */
    method Locate(hash: nat, key: Key) returns (prev: Node?, cur: Node?, ghost i: nat)
      requires Valid() && hash < tableSize
      ensures i == Find(model.buckets[hash], key)
      ensures |chains[hash]| == |model.buckets[hash]| && cur == if i < |chains[hash]| then chains[hash][i] else null
      ensures prev == if i == 0 then null else chains[hash][i - 1]
    {
      prev, cur, i := null, table[hash], 0;
      ghost var chain, entries := chains[hash], model.buckets[hash];
      assert Linked(table[hash], chain, null) && Holds(chain, entries);
      while cur != null && CStr(cur.key) != key
        invariant i <= |chain| && cur == if i < |chain| then chain[i] else null
        invariant prev == if i == 0 then null else chain[i - 1]
        invariant forall j :: 0 <= j < i ==> CStr(entries[j].buf) != key
        decreases |chain| - i
      {
        NextOf(table[hash], chain, null, i);
        prev, cur, i := cur, cur.next, i + 1;
      }
      assert i == Find(entries, key);
    }

    /** `hget` */
    method Get(key: Key) returns (value: int)
      requires Valid()
      ensures value == HashSpec.Get(model, key)
    {
      var hash := GetHash(key);
      var prev, cur, i := Locate(hash, key);
      assert Holds(chains[hash], model.buckets[hash]);
      return if cur == null then -2 else cur.value;
    }

    /** Every chain but that of `h` holds its entries. */
    ghost predicate Rest(h: nat)
      reads `table, `tableSize, `chains, `pool, `nodes, `model, table, nodes
    {
      && h < tableSize == table.Length == |chains| == |model.buckets| == |nodes|
      && Covers(chains, pool, nodes)
      && forall b :: 0 <= b < tableSize && b != h ==>
           Linked(table[b], chains[b], null) && Holds(chains[b], model.buckets[b])
    }

    /** Chain `h` and the free list have become these, the other chains are as recorded. */
    ghost predicate Changed(h: nat, chain: seq<Node>, bucket: seq<Entry>, list: seq<Node>, bufs: seq<Buffer>)
      reads `table, `tableSize, `nodepool, `chains, `pool, `nodes, `model, table, nodes, chain, list
    {
      && Rest(h) && Linked(table[h], chain, null) && Holds(chain, bucket)
      && Linked(nodepool, list, null) && Spare(list, bufs)
    }

    /** Records what chain `h` and the free list have become. */
    ghost method Record(h: nat, chain: seq<Node>, bucket: seq<Entry>, list: seq<Node>, bufs: seq<Buffer>)
      requires Changed(h, chain, bucket, list, bufs)
      requires Apart(chains[h := chain], list) && Covers(chains[h := chain], list, nodes)
      requires availableNodeCount == |list| == |bufs|
      requires availableNodeCount + Live(model.buckets[h := bucket]) == tableSize
      modifies `chains, `pool, `model
      ensures Valid() && model == Table(old(model.buckets)[h := bucket], bufs)
    {
      hide Apart, Covers, Linked, Spare, Holds;
      chains, pool, model := chains[h := chain], list, Table(model.buckets[h := bucket], bufs);
    }

    /** The walk of `hput` to the end of a chain, where it stores `node`. */
    method LinkEnd(hash: nat, node: Node, ghost chain: seq<Node>)
      requires hash < table.Length && Linked(table[hash], chain, null) && Once(chain)
      modifies table, chain`next
      ensures Linked(table[hash], chain, node)
      ensures forall b :: 0 <= b < table.Length && b != hash ==> table[b] == old(table[b])
    {
      var prev: Node?, cur := null, table[hash];
      ghost var i := 0;
      while cur != null
        invariant 0 <= i <= |chain| && cur == if i < |chain| then chain[i] else null
        invariant prev == if i == 0 then null else chain[i - 1]
        modifies {}
        decreases |chain| - i
      {
        NextOf(table[hash], chain, null, i);
        prev, cur, i := cur, cur.next, i + 1;
      }
      if prev == null {
        table[hash] := node;
      } else {
        prev.next := node;
      }
    }

    /** The first node of the free list `list` moves to the end of `chain`, with its new contents. */
    method Move(hash: nat, key: Key, value: int, ghost chain: seq<Node>, ghost list: seq<Node>)
      requires hash < table.Length && Linked(table[hash], chain, null) && Once(chain)
      requires Linked(nodepool, list, null) && list != [] && |key| < KEY_SIZE
      requires list[0] !in chain && forall n :: n in list[1..] ==> n != list[0] && n !in chain
      modifies `nodepool, table, chain`next, nodepool
      ensures Linked(table[hash], chain + [list[0]], null) && Linked(nodepool, list[1..], null)
      ensures list[0].key == Overlay(old(list[0].key), key) && list[0].value == value
      ensures forall b :: 0 <= b < table.Length && b != hash ==> table[b] == old(table[b])
    {
      TailLinked(nodepool, list, null);
      var node := nodepool;
      ghost var rest := list[1..];
      LinkEnd(hash, node, chain);
      assert forall n :: n in rest ==> n.next == old(n.next);
      Refill(node, key, value);
      Appended(table[hash], chain, node);
    }

    /** `hput` from the walk to the end of the chain on. */
    method Attach(hash: nat, key: Key, value: int)
      requires Valid() && hash < tableSize && |key| < KEY_SIZE && pool != []
      modifies `nodepool, table, chains[hash]`next, nodepool
      ensures Changed(hash, chains[hash] + [pool[0]], model.buckets[hash] + [Entry(Overlay(model.pool[0], key), value)],
                      pool[1..], model.pool[1..])
    {
      hide Apart, Covers, Once, Holds;
      Elsewhere(chains, pool, hash);
      ghost var node := pool[0];
      Move(hash, key, value, chains[hash], pool);
      assert forall n :: n in pool[1..] ==> n.key == old(n.key);
      forall b | 0 <= b < tableSize ensures Holds(chains[b], model.buckets[b]) {
        assert forall n :: n in chains[b] ==> n != node;
      }
      forall b | 0 <= b < tableSize && b != hash ensures Linked(table[b], chains[b], null) {
        assert forall n :: n in chains[b] ==> n.next == old(n.next);
      }
      HoldsMore(chains[hash], model.buckets[hash], node, Entry(node.key, value));
    }

    /** The first spare node leaves the pool with its new contents. */
    method Refill(node: Node, key: Key, value: int)
      requires node == nodepool && |key| < KEY_SIZE
      modifies `nodepool, node
      ensures nodepool == old(node.next) && node.next == null
      ensures node.key == Overlay(old(node.key), key) && node.value == value
    {
      nodepool := node.next;
      node.key := Overlay(node.key, key);
      node.value := value;
      node.next := null;
    }

    /** `hput` */
    method Put(key: Key, value: int) returns (status: int)
      requires Valid() && |key| < KEY_SIZE
      modifies this, table, nodes
      ensures Valid() && nodes == old(nodes) && table == old(table) && tableSize == old(tableSize)
      ensures (model, status) == HashSpec.Put(old(model), key, value)
    {
      hide Apart, Covers, Linked, Spare, Holds, Changed;
      if availableNodeCount < 1 { return -1; }
      var hash := GetHash(key);
      TakeKeeps(chains, pool, nodes, hash);
      TailLinked(nodepool, pool, null);
      Attach(hash, key, value);
      availableNodeCount := availableNodeCount - 1;
      ghost var bucket := model.buckets[hash] + [Entry(Overlay(model.pool[0], key), value)];
      LiveUpdate(model.buckets, hash, bucket);
      Record(hash, chains[hash] + [pool[0]], bucket, pool[1..], model.pool[1..]);
      status := 0;
    }

    /** The assignment that takes `cur` out of its chain. */
    method Unlink(hash: nat, prev: Node?, cur: Node, ghost i: nat, ghost chain: seq<Node>)
      requires hash < table.Length && Linked(table[hash], chain, null) && Once(chain) && i < |chain|
      requires cur == chain[i] && prev == if i == 0 then null else chain[i - 1]
      modifies table, chain`next
      ensures Linked(table[hash], Without(chain, i), null) && cur.next == old(cur.next)
      ensures forall b :: 0 <= b < table.Length && b != hash ==> table[b] == old(table[b])
    {
      NextOf(table[hash], chain, null, i);
      ghost var rest := Without(chain, i);
      ghost var after := cur.next;
      forall k | 0 <= k < |rest| && k != i - 1
        ensures rest[k] != prev && rest[k].next == if k + 1 < |rest| then rest[k + 1] else null
      {
        NextOf(table[hash], chain, null, if k < i then k else k + 1);
      }
      if prev == null {
        table[hash] := cur.next;
        assert table[hash] == if rest == [] then null else rest[0];
      } else {
        assert rest[i - 1] == prev && after == if i < |rest| then rest[i] else null;
        prev.next := cur.next;
        assert rest[0] == chain[0] == table[hash];
      }
      forall k | 0 <= k < |rest| ensures rest[k].next == if k + 1 < |rest| then rest[k + 1] else null {
        assert k != i - 1 ==> rest[k].next == old(rest[k].next);
      }
      assert Linked(table[hash], rest, null);
    }

    /** `hdel` from the unlinking on: the node goes to the head of the free list. */
    method Detach(hash: nat, prev: Node?, cur: Node, ghost i: nat)
      requires Valid() && hash < tableSize && i < |chains[hash]| && cur == chains[hash][i]
      requires prev == if i == 0 then null else chains[hash][i - 1]
      modifies `nodepool, table, chains[hash]`next
      ensures var entries := model.buckets[hash];
              Changed(hash, Without(chains[hash], i), entries[..i] + entries[i + 1..],
                      [chains[hash][i]] + pool, [entries[i].buf] + model.pool)
    {
      hide Apart, Covers, Once, Holds, Spare;
      Elsewhere(chains, pool, hash);
      ghost var chain := chains[hash];
      HoldsWithout(chain, model.buckets[hash], i);
      SpareMore(pool, model.pool, cur);
      OnceWithout(chain, i);
      assert cur in chain;
      Unlink(hash, prev, cur, i, chain);
      assert forall n :: n in pool ==> n.next == old(n.next);
      assert Linked(nodepool, pool, null);
      cur.next := nodepool;
      nodepool := cur;
      Prepended(cur, pool, null);
      forall b | 0 <= b < tableSize && b != hash ensures Linked(table[b], chains[b], null) {
        assert forall n :: n in chains[b] ==> n.next == old(n.next);
      }
    }

    /** `hdel` */
    method Del(key: Key) returns (status: int)
      requires Valid()
      modifies this, table, nodes
      ensures Valid() && nodes == old(nodes) && table == old(table) && tableSize == old(tableSize)
      ensures (model, status) == HashSpec.Del(old(model), key)
    {
      hide Apart, Covers, Linked, Spare, Holds, Changed;
      var hash := GetHash(key);
      var prev, cur, i := Locate(hash, key);
      if cur == null { return -2; }
      GiveKeeps(chains, pool, nodes, hash, i);
      Detach(hash, prev, cur, i);
      availableNodeCount := availableNodeCount + 1;
      ghost var chain, entries := chains[hash], model.buckets[hash];
      LiveUpdate(model.buckets, hash, entries[..i] + entries[i + 1..]);
      Record(hash, Without(chain, i), entries[..i] + entries[i + 1..],
             [chain[i]] + pool, [entries[i].buf] + model.pool);
      status := 0;
    }
  }
}
