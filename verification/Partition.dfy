/** A shared block: a bitmap of 80 bits in 10 bytes, then 80 slots of equal size. */
module Partition {
  import opened Channels

  const BMAP_SIZE := 10

  // ---- one byte of the bitmap --------------------------------------------------------------

  /** `(x >> j) & 1` */
  function Bit(x: bv8, j: nat): int
    requires j < 8
  {
    if (x >> j) & 1 == 1 then 1 else 0
  }

  lemma FlipBit(x: bv8, j: nat, k: nat)
    requires j < 8 && k < 8
    ensures Bit(x ^ (1 << j), k) == if j == k then 1 - Bit(x, k) else Bit(x, k)
  {
    XorBit(x, 1 << j, k);
    OneBit(j, k);
  }

  lemma OneBit(j: nat, k: nat)
    requires j < 8 && k < 8
    ensures Bit(1 << j, k) == if j == k then 1 else 0
  {
    match j
    case 0 => BitOf(1, k);
    case 1 => BitOf(2, k);
    case 2 => BitOf(4, k);
    case 3 => BitOf(8, k);
    case 4 => BitOf(16, k);
    case 5 => BitOf(32, k);
    case 6 => BitOf(64, k);
    case 7 => BitOf(128, k);
  }

  /** A bit by a mask instead of a shift. */
  function Masked(x: bv8, k: nat): int
    requires k < 8
  {
    if x & [1, 2, 4, 8, 16, 32, 64, 128][k] == 0 then 0 else 1
  }

  lemma BitOf(x: bv8, k: nat)
    requires k < 8
    ensures Bit(x, k) == Masked(x, k)
  {
    match k
    case 0 =>
    case 1 =>
    case 2 =>
    case 3 =>
    case 4 =>
    case 5 =>
    case 6 =>
    case 7 =>
  }

  lemma XorBit(x: bv8, m: bv8, k: nat)
    requires k < 8
    ensures Bit(x ^ m, k) == if Bit(m, k) == 1 then 1 - Bit(x, k) else Bit(x, k)
  {
    BitOf(x, k);
    BitOf(m, k);
    BitOf(x ^ m, k);
    match k
    case 0 =>
    case 1 =>
    case 2 =>
    case 3 =>
    case 4 =>
    case 5 =>
    case 6 =>
    case 7 =>
  }

  /** The slots whose bit is set in a bitmap. */
  function HeldIn(bmap: seq<bv8>): set<nat>
    requires |bmap| == BMAP_SIZE
  {
    set i: nat | i < TOTAL_PARTITIONS && Bit(bmap[i / 8], i % 8) == 1
  }

  /** The bitmap with bit `idx` flipped. */
  function Flipped(bmap: seq<bv8>, idx: nat): seq<bv8>
    requires |bmap| == BMAP_SIZE && idx < TOTAL_PARTITIONS
  {
    bmap[idx / 8 := bmap[idx / 8] ^ (1 << (idx % 8))]
  }

  function Toggled(held: set<nat>, idx: nat): set<nat> {
    if idx in held then held - {idx} else held + {idx}
  }

  lemma FlippedExact(bmap: seq<bv8>, idx: nat)
    requires |bmap| == BMAP_SIZE && idx < TOTAL_PARTITIONS
    ensures HeldIn(Flipped(bmap, idx)) == Toggled(HeldIn(bmap), idx)
  {
    hide Bit;
    var after := Flipped(bmap, idx);
    forall i: nat | i < TOTAL_PARTITIONS
      ensures Bit(after[i / 8], i % 8) == if i == idx then 1 - Bit(bmap[i / 8], i % 8) else Bit(bmap[i / 8], i % 8)
    {
      if i / 8 == idx / 8 { FlipBit(bmap[i / 8], idx % 8, i % 8); }
    }
    BitRange(bmap[idx / 8], idx % 8);
  }

  lemma BitRange(x: bv8, j: nat)
    requires j < 8
    ensures Bit(x, j) == 0 || Bit(x, j) == 1
  {
  }

  // ---- the slots ---------------------------------------------------------------------------

  lemma Scaled(a: nat, b: nat, size: nat)
    requires a <= b
    ensures a * size <= b * size && (a + 1) * size == a * size + size
  {
  }

  /** Slot `i` of the bytes behind the bitmap. */
  function SlotOf(area: seq<bv8>, size: nat, i: nat): (s: seq<bv8>)
    requires |area| == TOTAL_PARTITIONS * size && i < TOTAL_PARTITIONS
    ensures |s| == size
  {
    Scaled(i, TOTAL_PARTITIONS - 1, size);
    area[i * size..i * size + size]
  }

  /** Two areas that agree outside slot `i` agree on all other slots. */
  lemma OtherSlot(a: seq<bv8>, b: seq<bv8>, size: nat, i: nat, j: nat)
    requires |a| == |b| == TOTAL_PARTITIONS * size && i < TOTAL_PARTITIONS && j < TOTAL_PARTITIONS && i != j
    requires forall k :: 0 <= k < |a| && !(i * size <= k < i * size + size) ==> a[k] == b[k]
    ensures SlotOf(a, size, j) == SlotOf(b, size, j)
  {
    Scaled(j, TOTAL_PARTITIONS - 1, size);
    if j < i { Scaled(j + 1, i, size); } else { Scaled(i + 1, j, size); }
    Scaled(i, i, size);
  }

  /** A message in its slot: `memset` to 0, then `memcpy`. */
  function Padded(msg: seq<bv8>, size: nat): seq<bv8>
    requires |msg| <= size
  {
    msg + seq(size - |msg|, _ => 0)
  }

  /** The slots whose bits lie in bytes `from` to `to` of the bitmap. */
  function BytesRange(from: nat, to: nat): set<nat> {
    set i: nat | i < TOTAL_PARTITIONS && InBytes(i, from, to)
  }

  predicate InBytes(i: nat, from: nat, to: nat) {
    from <= i / 8 < to
  }

  lemma AllOnes(j: nat)
    requires j < 8
    ensures Bit(0xFF, j) == 1 && Bit(0, j) == 0
  {
    BitOf(0xFF, j);
    BitOf(0, j);
  }

  lemma FilledExact(a: seq<bv8>, b: seq<bv8>, from: nat, to: nat, value: bv8)
    requires |a| == |b| == BMAP_SIZE && from <= to <= BMAP_SIZE && (value == 0 || value == 0xFF)
    requires forall k :: 0 <= k < BMAP_SIZE ==> b[k] == if from <= k < to then value else a[k]
    ensures HeldIn(b) == if value == 0 then HeldIn(a) - BytesRange(from, to) else HeldIn(a) + BytesRange(from, to)
  {
    hide Bit;
    forall i: nat | i < TOTAL_PARTITIONS
      ensures Bit(b[i / 8], i % 8) ==
                if i in BytesRange(from, to) then (if value == 0 then 0 else 1) else Bit(a[i / 8], i % 8)
    {
      AllOnes(i % 8);
    }
  }

  class Block {
    const slotSize: nat
    const mem: array<bv8>

    ghost predicate Valid() {
      mem.Length == BMAP_SIZE + TOTAL_PARTITIONS * slotSize
    }

    /** The slots whose bit is set. */
    ghost function Held(): set<nat>
      requires Valid()
      reads mem
    {
      HeldIn(mem[..BMAP_SIZE])
    }

    ghost function Slot(i: nat): (s: seq<bv8>)
      requires Valid() && i < TOTAL_PARTITIONS
      reads mem
      ensures |s| == slotSize
    {
      SlotOf(mem[BMAP_SIZE..], slotSize, i)
    }

    /** The block as a bounded map: every full slot with its bytes. */
    ghost function Contents(): (m: Slots<seq<bv8>>)
      requires Valid()
      reads mem
      ensures m.Keys == Held()
    {
      map i: nat | i in Held() :: Slot(i)
    }

    /** `get_subblock` */
    method GetSubblock(state: int, typ: int) returns (r: int)
      requires Valid()
      ensures IsFirst(Held(), state, typ, r)
    {
      var bmap := mem[..BMAP_SIZE];
      var begin, end := 0, BMAP_SIZE;
      if typ == 1 {
        end := BMAP_SIZE / 2;
      } else if typ == 2 {
        begin := BMAP_SIZE / 2;
      }
      for i := begin to end
        invariant forall k: nat :: begin * 8 <= k < i * 8 ==> StateOf(Held(), k) != state
      {
        for j := 0 to 8
          invariant forall k: nat :: begin * 8 <= k < i * 8 + j ==> StateOf(Held(), k) != state
        {
          assert (i * 8 + j) / 8 == i && (i * 8 + j) % 8 == j;
          if state == Bit(bmap[i], j) { return i * 8 + j; }
        }
      }
      return -1;
    }

    /** `toggle_bit`: the bitmap is copied out, changed and copied back. */
    method ToggleBit(idx: nat)
      requires Valid() && idx < TOTAL_PARTITIONS
      modifies mem
      ensures Held() == Toggled(old(Held()), idx)
      ensures mem[BMAP_SIZE..] == old(mem[BMAP_SIZE..])
    {
      var bmap := mem[..BMAP_SIZE];
      FlippedExact(bmap, idx);
      bmap := bmap[idx / 8 := bmap[idx / 8] ^ (1 << (idx % 8))];
      forall k | 0 <= k < BMAP_SIZE { mem[k] := bmap[k]; }
      assert mem[..BMAP_SIZE] == bmap;
    }

    /** `memset` on the bitmap. */
    method FillBytes(from: nat, to: nat, value: bv8)
      requires Valid() && from <= to <= BMAP_SIZE && (value == 0 || value == 0xFF)
      modifies mem
      ensures Held() == if value == 0 then old(Held()) - BytesRange(from, to) else old(Held()) + BytesRange(from, to)
      ensures mem[BMAP_SIZE..] == old(mem[BMAP_SIZE..])
    {
      forall k | from <= k < to { mem[k] := value; }
      FilledExact(old(mem[..BMAP_SIZE]), mem[..BMAP_SIZE], from, to, value);
    }

    /** `set_all_bits`: only types 1, 2 and 3 do anything. */
    method SetAllBits(typ: int)
      requires Valid()
      modifies mem
      ensures forall i: nat :: i in Held() <==> i in old(Held()) || (1 <= typ <= 3 && InRegion(typ, i))
      ensures mem[BMAP_SIZE..] == old(mem[BMAP_SIZE..])
    {
      if typ == 1 {
        FillBytes(0, 5, 0xFF);
      } else if typ == 2 {
        FillBytes(5, 10, 0xFF);
      } else if typ == 3 {
        FillBytes(0, 10, 0xFF);
      }
    }

    /** `unset_all_bits`: only types 1, 2 and 3 do anything. */
    method UnsetAllBits(typ: int)
      requires Valid()
      modifies mem
      ensures forall i: nat :: i in Held() <==> i in old(Held()) && !(1 <= typ <= 3 && InRegion(typ, i))
      ensures mem[BMAP_SIZE..] == old(mem[BMAP_SIZE..])
    {
      if typ == 1 {
        FillBytes(0, 5, 0);
      } else if typ == 2 {
        FillBytes(5, 10, 0);
      } else if typ == 3 {
        FillBytes(0, 10, 0);
      }
    }

    /** `memset` and `memcpy` on one slot. */
    method WriteSlot(i: nat, msg: seq<bv8>)
      requires Valid() && i < TOTAL_PARTITIONS && |msg| <= slotSize
      modifies mem
      ensures Held() == old(Held()) && Slot(i) == Padded(msg, slotSize)
      ensures forall j: nat :: j < TOTAL_PARTITIONS && j != i ==> Slot(j) == old(Slot(j))
    {
      Scaled(i, TOTAL_PARTITIONS - 1, slotSize);
      Scaled(i, i, slotSize);
      var at := i * slotSize;
      ghost var was := mem[BMAP_SIZE..];
      WriteBytes(BMAP_SIZE + at, msg);
      assert mem[..BMAP_SIZE] == old(mem[..BMAP_SIZE]);
      ghost var area := mem[BMAP_SIZE..];
      assert area[at..at + slotSize] == Padded(msg, slotSize);
      assert forall k :: 0 <= k < |area| && !(at <= k < at + slotSize) ==> area[k] == was[k];
      forall j: nat | j < TOTAL_PARTITIONS && j != i ensures Slot(j) == old(Slot(j)) {
        OtherSlot(area, was, slotSize, i, j);
      }
    }

    method WriteBytes(at: nat, msg: seq<bv8>)
      requires at + slotSize <= mem.Length && |msg| <= slotSize
      modifies mem
      ensures mem[at..at + slotSize] == Padded(msg, slotSize)
      ensures forall k :: 0 <= k < mem.Length && !(at <= k < at + slotSize) ==> mem[k] == old(mem[k])
    {
      forall k | 0 <= k < slotSize { mem[at + k] := 0; }
      forall k | 0 <= k < |msg| { mem[at + k] := msg[k]; }
    }

    ghost predicate OthersAre(was: seq<seq<bv8>>, r: int)
      requires Valid()
      reads mem
    {
      |was| == TOTAL_PARTITIONS && forall j: nat :: j < TOTAL_PARTITIONS && j != r ==> Slot(j) == was[j]
    }

    /** All slots, full or not. */
    ghost function Slots(): (all: seq<seq<bv8>>)
      requires Valid()
      reads mem
      ensures OthersAre(all, -1)
    {
      seq(TOTAL_PARTITIONS, (j: nat) requires Valid() && j < TOTAL_PARTITIONS reads mem => Slot(j))
    }

    /** Fills a free slot and sets its bit. */
    method Publish(r: nat, msg: seq<bv8>)
      requires Valid() && r < TOTAL_PARTITIONS && r !in Held() && |msg| <= slotSize
      modifies mem
      ensures Contents() == old(Contents())[r := Padded(msg, slotSize)] && OthersAre(old(Slots()), r)
    {
      hide HeldIn, SlotOf, Padded;
      ghost var was := Slots();
      WriteSlot(r, msg);
      ToggleBit(r);
      forall j: nat | j < TOTAL_PARTITIONS && j != r ensures Slot(j) == was[j] { }
    }

    /** The producers `send_to_processor` and `send_message_to_processor`, with their number of attempts.
        The lock is held throughout, so a retry sees the same bitmap: the outcome does not depend on `tries`. */
    method Send(typ: int, msg: seq<bv8>, tries: int) returns (r: int)
      requires Valid() && |msg| <= slotSize
      modifies mem
      ensures -1 <= r < TOTAL_PARTITIONS && OthersAre(old(Slots()), r)
      ensures var m := Padded(msg, slotSize);
              Step(old(Contents()), if r == -1 then Dropped(typ, m) else Stored(typ, r, m), Contents())
    {
      hide HeldIn, SlotOf, Padded;
      var attempts, again := tries, true;
      r := -1;
      while again
        invariant again ==> r == -1
        invariant -1 <= r < TOTAL_PARTITIONS && (!again ==> IsFirst(old(Contents()).Keys, 0, typ, r))
        invariant Contents() == if r == -1 then old(Contents()) else old(Contents())[r := Padded(msg, slotSize)]
        invariant OthersAre(old(Slots()), r)
        decreases if again then 1 + (if attempts > 0 then attempts else 0) else 0
      {
        r := GetSubblock(0, typ);
        if r >= 0 {
          Publish(r, msg);
        }
        attempts := attempts - 1;
        again := attempts > 0 && r == -1;
      }
    }

    /** The producers that fetch from the database into the slot and publish it only if the fetch succeeded. */
    method Offer(typ: int, bytes: seq<bv8>, fetched: bool) returns (r: int, published: bool)
      requires Valid() && |bytes| <= slotSize
      modifies mem
      ensures IsFirst(old(Held()), 0, typ, r) && published == (r != -1 && fetched)
      ensures Contents() == if published then old(Contents())[r := Padded(bytes, slotSize)] else old(Contents())
    {
      hide HeldIn, SlotOf, Padded;
      r := GetSubblock(0, typ);
      published := r >= 0 && fetched;
      if published {
        Publish(r, bytes);
      } else if r >= 0 {
        WriteSlot(r, bytes);
      }
    }

    /** `memcpy` out of a slot. */
    method CopyOut(r: nat) returns (msg: seq<bv8>)
      requires Valid() && r < TOTAL_PARTITIONS
      ensures msg == Slot(r)
    {
      Scaled(r, TOTAL_PARTITIONS - 1, slotSize);
      msg := mem[BMAP_SIZE + r * slotSize..BMAP_SIZE + r * slotSize + slotSize];
    }

    /** Clears the bit of a full slot; all bytes of all slots stay. */
    method Clear(r: nat)
      requires Valid() && r < TOTAL_PARTITIONS && r in Held()
      modifies mem
      ensures Contents() == old(Contents()) - {r} && OthersAre(old(Slots()), -1)
    {
      hide HeldIn, SlotOf;
      ghost var was := Slots();
      ToggleBit(r);
      forall j: nat | j < TOTAL_PARTITIONS ensures Slot(j) == was[j] { }
    }

    /** The consumers: the first full slot of the region is copied out and its bit cleared. */
    method Take(typ: int) returns (r: int, msg: seq<bv8>)
      requires Valid()
      modifies mem
      ensures -1 <= r < TOTAL_PARTITIONS && OthersAre(old(Slots()), -1)
      ensures Step(old(Contents()), if r == -1 then Idle(typ) else Drained(typ, r, msg), Contents())
    {
      hide HeldIn, SlotOf;
      r := GetSubblock(1, typ);
      msg := [];
      if r >= 0 {
        msg := CopyOut(r);
        Clear(r);
      }
    }

    /** The processors' consumers: the message is stored in the database with up to three attempts, and its
        slot is cleared in any case. `stores(k)` tells whether attempt `k` succeeds. */
    method Consume(typ: int, stores: nat -> bool) returns (r: int, msg: seq<bv8>, attempted: nat, stored: bool)
      requires Valid()
      modifies mem
      ensures -1 <= r < TOTAL_PARTITIONS && OthersAre(old(Slots()), -1)
      ensures Step(old(Contents()), if r == -1 then Idle(typ) else Drained(typ, r, msg), Contents())
      ensures attempted == if r == -1 then 0 else Tries(stores)
      ensures stored == (r != -1 && (stores(0) || stores(1) || stores(2)))
    {
      hide HeldIn, SlotOf;
      r := GetSubblock(1, typ);
      msg, attempted, stored := [], 0, false;
      if r >= 0 {
        var attempts, again := 3, true;
        while again
          invariant attempts == 3 - attempted && (again ==> attempts > 0 && !stored)
          invariant stored == (attempted > 0 && stores(attempted - 1))
          invariant (attempted > 1 ==> !stores(0)) && (attempted > 2 ==> !stores(1)) && attempted <= 3
          invariant !again ==> 0 < attempted && (stored || attempted == 3) && msg == Slot(r)
          modifies {}
          decreases again, attempts
        {
          msg := CopyOut(r);
          stored := stores(attempted);
          attempted := attempted + 1;
          attempts := attempts - 1;
          again := attempts > 0 && !stored;
        }
        Clear(r);
      }
    }
  }

  /** The number of store attempts: up to the first success, and never more than three. */
  function Tries(stores: nat -> bool): (n: nat)
    ensures 1 <= n <= 3
  {
    if stores(0) then 1 else if stores(1) then 2 else 3
  }

  /** Start-up of a processor. The data block is cleared in its first half only. */
  method StartUp(comms: Block, datas: Block)
    requires comms.Valid() && datas.Valid() && comms.mem != datas.mem
    modifies comms.mem, datas.mem
    ensures comms.Contents() == map[]
    ensures datas.Contents() == map[] <==> forall i :: i in old(datas.Held()) ==> i < 40
  {
    comms.UnsetAllBits(2);
    comms.UnsetAllBits(3);
    datas.UnsetAllBits(1);
    assert comms.Contents().Keys == {};
    assert datas.Contents() == map[] <==> datas.Contents().Keys == {};
    assert forall i :: i in old(datas.Held()) && i >= 40 ==> i in datas.Held();
  }
}
