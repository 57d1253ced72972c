/** The receive loop that cuts a byte stream into messages of one agreed size. */
module Framing {
  import opened Text
  import opened Message
  import opened Chunks

  /** The two integers that precede the data in the buffer; clearing `size` bytes of the buffer
      clears them and `size - BUFFER_HEAD` bytes of data. */
  const BUFFER_HEAD := 8

  /** The consecutive blocks of `n` bytes; a shorter tail is dropped. */
  function Blocks(s: Bytes, n: nat): seq<Bytes>
    requires n > 0
  {
    if |s| < n then [] else [s[..n]] + Blocks(s[n..], n)
  }

  function Flatten(ms: seq<Bytes>): Bytes {
    if ms == [] then [] else ms[0] + Flatten(ms[1..])
  }

  /** What one `read` returns when `available` bytes are waiting and `max` are asked for. `wish` is how
      many the kernel is willing to hand over this time; zero or less stands for an error. */
  function ReadCount(available: nat, max: nat, wish: int): (got: int)
    ensures got > 0 ==> got <= available && got <= max && got <= wish
    ensures got > 0 <==> available > 0 && max > 0 && wish > 0
  {
    if wish <= 0 then -1 else if wish <= available && wish <= max then wish
    else if available <= max then available else max
  }

  lemma {:induction false} BlocksExtend(a: Bytes, b: Bytes, n: nat, m: nat)
    requires n > 0 && |a| == m * n && |b| <= n
    ensures Blocks(a + b, n) == Blocks(a, n) + (if |b| == n then [b] else [])
    decreases m
  {
    if m == 0 {
      assert a + b == b;
      if |b| == n { assert b[..n] == b && b[n..] == []; }
    } else {
      Distribute(m - 1, n);
      Product(m - 1, n);
      BlocksExtend(a[n..], b, n, m - 1);
      assert (a + b)[n..] == a[n..] + b && (a + b)[..n] == a[..n];
    }
  }

  lemma Product(m: nat, n: nat)
    ensures m * n >= 0
  {
  }

  /** `emitted` are the `blocks` messages in the first `n` bytes of the stream, with nothing left over. */
  predicate Emitted(stream: Bytes, n: nat, size: nat, blocks: nat, emitted: seq<Bytes>) {
    if size == 0 then n == 0 && emitted == []
    else n <= |stream| && n == blocks * size && emitted == Blocks(stream[..n], size)
  }

  lemma OneMoreBlock(stream: Bytes, n: nat, size: nat, blocks: nat, emitted: seq<Bytes>)
    requires size > 0 && Emitted(stream, n, size, blocks, emitted) && n + size <= |stream|
    ensures Emitted(stream, n + size, size, blocks + 1, emitted + [stream[n..n + size]])
  {
    BlocksExtend(stream[..n], stream[n..n + size], size, blocks);
    assert stream[..n + size] == stream[..n] + stream[n..n + size];
    Distribute(blocks, size);
  }

  lemma TailDropped(stream: Bytes, n: nat, size: nat, blocks: nat, emitted: seq<Bytes>, consumed: nat)
    requires size > 0 && Emitted(stream, n, size, blocks, emitted) && n <= consumed < n + size && consumed <= |stream|
    ensures emitted == Blocks(stream[..consumed], size)
  {
    BlocksExtend(stream[..n], stream[n..consumed], size, blocks);
    assert stream[..consumed] == stream[..n] + stream[n..consumed];
  }

  /** `read` puts its bytes behind the `total` bytes already there. */
  method ReadInto(data: array<byte>, total: nat, bytes: Bytes)
    requires total + |bytes| <= data.Length
    modifies data
    ensures data[..total + |bytes|] == old(data[..total]) + bytes
  {
    forall j | 0 <= j < |bytes| {
      data[total + j] := bytes[j];
    }
  }

  /** One readable event: read until the kernel has nothing more, passing on each full message.
      The messages are the consecutive blocks of the bytes read, whatever the sizes of the reads. */
  method ReceiveEvent(stream: Bytes, size: nat, wishes: nat -> int)
    returns (emitted: seq<Bytes>, consumed: nat)
    requires size <= MESSAGE_SIZE
    ensures consumed <= |stream|
    ensures size > 0 ==> emitted == Blocks(stream[..consumed], size)
    ensures size > 0 && (forall i :: wishes(i) > 0) ==> consumed == |stream|
    ensures size == 0 ==> emitted == [] && consumed == 0
  {
    hide Emitted, Blocks;
    var data := new byte[MESSAGE_SIZE](_ => 0);
    var total, calls := 0, 0;
    emitted, consumed := [], 0;
    ghost var blocks: nat := 0;
    assert Emitted(stream, 0, size, 0, []) by { NothingEmitted(stream, size); }
    while true
      invariant 0 <= total <= size && (size > 0 ==> total < size)
      invariant total <= consumed <= |stream| && (size == 0 ==> consumed == 0)
      invariant data.Length == MESSAGE_SIZE && fresh(data)
      invariant data[..total] == stream[consumed - total..consumed]
      invariant Emitted(stream, consumed - total, size, blocks, emitted)
      decreases |stream| - consumed
    {
      var got := ReadCount(|stream| - consumed, size - total, wishes(calls));
      calls := calls + 1;
      if got <= 0 {
        break;
      }
      ghost var before := consumed - total;
      ReadInto(data, total, stream[consumed..consumed + got]);
      assert stream[before..consumed + got] == stream[before..consumed] + stream[consumed..consumed + got];
      total, consumed := total + got, consumed + got;
      assert data[..total] == stream[before..consumed];
      if total == size {
        OneMoreBlock(stream, before, size, blocks, emitted);
        emitted := emitted + [data[..size]];
        blocks := blocks + 1;
        total := 0;
        forall j | 0 <= j < size - BUFFER_HEAD {
          data[j] := 0;
        }
      }
    }
    if size > 0 {
      TailDropped(stream, consumed - total, size, blocks, emitted, consumed);
    } else {
      NothingEmittedEmpty(stream, consumed - total, blocks, emitted);
    }
  }

  lemma NothingEmitted(stream: Bytes, size: nat)
    ensures Emitted(stream, 0, size, 0, [])
  {
  }

  lemma NothingEmittedEmpty(stream: Bytes, n: nat, blocks: nat, emitted: seq<Bytes>)
    requires Emitted(stream, n, 0, blocks, emitted)
    ensures n == 0 && emitted == []
  {
  }

  /** Nothing is lost or reordered inside an event except a tail shorter than one message. */
  lemma {:induction false} FlattenBlocks(s: Bytes, n: nat)
    requires n > 0
    ensures Flatten(Blocks(s, n)) <= s
    ensures |s| - |Flatten(Blocks(s, n))| == |s| % n
  {
    if |s| >= n {
      FlattenBlocks(s[n..], n);
      var rest := Blocks(s[n..], n);
      assert ([s[..n]] + rest)[1..] == rest;
      assert s == s[..n] + s[n..];
      assert (|s| - n) % n == |s| % n by { ModStep(|s|, n); }
    } else {
      assert |s| % n == |s| by { ModSmall(|s|, n); }
    }
  }

  lemma ModStep(a: nat, n: nat)
    requires n > 0 && a >= n
    ensures (a - n) % n == a % n
  {
    var q, r := (a - n) / n, (a - n) % n;
    assert a == (q + 1) * n + r;
    ModUnique(a, n, q + 1, r);
  }

  lemma ModUnique(a: nat, n: nat, q: int, r: int)
    requires n > 0 && 0 <= r < n && a == q * n + r
    ensures a % n == r
  {
    var d := a / n - q;
    assert a == (a / n) * n + a % n;
    assert d * n == r - a % n;
    if d >= 1 { MulMono(1, d, n); }
    if d <= -1 { MulMono(d, -1, n); }
  }

  lemma ModSmall(a: nat, n: nat)
    requires a < n
    ensures a % n == a
  {
  }

  /** Messages of the agreed size, sent back to back, come out as the same messages. */
  lemma {:induction false} BlocksOfMessages(ms: seq<Bytes>, n: nat)
    requires n > 0 && forall m :: m in ms ==> |m| == n
    ensures Blocks(Flatten(ms), n) == ms
  {
    if ms != [] {
      assert ms[0] in ms;
      BlocksOfMessages(ms[1..], n);
      var s := Flatten(ms);
      assert s[..n] == ms[0] && s[n..] == Flatten(ms[1..]);
      assert ms == [ms[0]] + ms[1..];
    } else {
      assert Flatten(ms) == [];
    }
  }

  /** The messages of several events: the byte counter starts again from zero at every event. */
  function EventBlocks(events: seq<Bytes>, n: nat): seq<Bytes>
    requires n > 0
  {
    if events == [] then [] else Blocks(events[0], n) + EventBlocks(events[1..], n)
  }

  lemma {:induction false} FlattenAppend(a: seq<Bytes>, b: seq<Bytes>)
    ensures Flatten(a + b) == Flatten(a) + Flatten(b)
  {
    if a == [] {
      assert a + b == b;
    } else {
      assert (a + b)[1..] == a[1..] + b;
      FlattenAppend(a[1..], b);
    }
  }

  /** Because partial messages are not carried over, a stream spread over several events arrives
      unharmed if and only if every event ends on a message boundary. */
  lemma {:induction false} EventsLossless(events: seq<Bytes>, n: nat)
    requires n > 0
    ensures |Flatten(EventBlocks(events, n))| <= |Flatten(events)|
    ensures Flatten(EventBlocks(events, n)) == Flatten(events) <==> forall e :: e in events ==> |e| % n == 0
  {
    if events != [] {
      var e, rest := events[0], events[1..];
      EventsLossless(rest, n);
      FlattenBlocks(e, n);
      FlattenAppend(Blocks(e, n), EventBlocks(rest, n));
      var kept, later := Flatten(Blocks(e, n)), Flatten(EventBlocks(rest, n));
      if |e| % n == 0 {
        assert kept == e;
        assert (kept + later)[|kept|..] == later && (e + Flatten(rest))[|e|..] == Flatten(rest);
        assert forall x :: x in events ==> x == e || x in rest;
        assert forall x :: x in rest ==> x in events;
      } else {
        assert e in events;
      }
    }
  }

  /** From the stream to the file: the messages of a transfer, sent in any order among other messages of
      the same size and read in fragments of any size, reassemble to the original file. */
  lemma StreamToFile(h: Md5, file: Bytes, parent: Uuid, capacity: int,
                     chunks: seq<Bytes>, info: Bytes, others: seq<Bytes>, wire: seq<Bytes>)
    requires InRange(file, capacity) && IsTransfer(h, file, parent, capacity, chunks, info)
    requires forall o :: o in others ==> |o| == capacity && !IsChunkOf(o, parent)
    requires multiset(wire) == multiset(chunks) + multiset{info} + multiset(others)
    ensures Assemble(Blocks(Flatten(wire), capacity), parent) == Some(file)
    ensures Ready(Blocks(Flatten(wire), capacity), info)
  {
    hide IsTransfer, IsChunkOf, Assemble, Ready, HashOk;
    FileRoundTrip(h, file, parent, capacity, chunks, info, others, wire);
    forall m | m in wire ensures |m| == capacity {
      assert m in multiset(wire);
      assert m in multiset(chunks) || m == info || m in multiset(others);
    }
    BlocksOfMessages(wire, capacity);
  }
}
