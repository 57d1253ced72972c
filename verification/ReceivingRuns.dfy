/** Whole runs of the receiving side. */
module ReceivingRuns {
  import opened Text
  import opened Tables
  import opened Channels
  import opened HashSpec
  import opened Receiving
  import opened ReceivingInv

  ghost predicate IsRun(run: seq<Side>, acts: seq<Act>) {
    && |run| == |acts| + 1 && Receiving.Init(run[0])
    && forall i :: 0 <= i < |acts| ==> Next(run[i], acts[i], run[i + 1])
  }

  lemma {:induction false} RunInv(run: seq<Side>, acts: seq<Act>, n: nat)
    requires IsRun(run, acts) && n < |run|
    ensures Inv(run[n])
  {
    hide Inv, Next;
    if n == 0 {
      InitInv(run[0]);
    } else {
      RunInv(run, acts, n - 1);
      assert Next(run[n - 1], acts[n - 1], run[n]);
      StepInv(run[n - 1], acts[n - 1], run[n]);
    }
  }

  // ---- conservation ------------------------------------------------------------------------

  function CommsOf(run: seq<Side>): (r: seq<Slots<RMsg>>)
    ensures |r| == |run| && forall i :: 0 <= i < |r| ==> r[i] == run[i].comms
  {
    seq(|run|, (i: nat) requires i < |run| => run[i].comms)
  }

  function DatasOf(run: seq<Side>): (r: seq<Slots<NewMsg>>)
    ensures |r| == |run| && forall i :: 0 <= i < |r| ==> r[i] == run[i].datas
  {
    seq(|run|, (i: nat) requires i < |run| => run[i].datas)
  }

  function CommsEvents(run: seq<Side>, acts: seq<Act>): (r: seq<Channels.Event<RMsg>>)
    requires |run| == |acts| + 1
    ensures |r| == |acts| && forall i :: 0 <= i < |r| ==> r[i] == CommsEvent(run[i], acts[i])
  {
    seq(|acts|, (i: nat) requires i < |acts| => CommsEvent(run[i], acts[i]))
  }

  function DatasEvents(run: seq<Side>, acts: seq<Act>): (r: seq<Channels.Event<NewMsg>>)
    requires |run| == |acts| + 1
    ensures |r| == |acts| && forall i :: 0 <= i < |r| ==> r[i] == DatasEvent(run[i], acts[i])
  {
    seq(|acts|, (i: nat) requires i < |acts| => DatasEvent(run[i], acts[i]))
  }

  lemma ChannelRuns(run: seq<Side>, acts: seq<Act>)
    requires IsRun(run, acts)
    ensures Run(CommsOf(run), CommsEvents(run, acts)) && Run(DatasOf(run), DatasEvents(run, acts))
  {
    hide Next, Found, Step, CommsEvent, DatasEvent;
    forall i | 0 <= i < |acts|
      ensures Step(run[i].comms, CommsEvent(run[i], acts[i]), run[i + 1].comms)
      ensures Step(run[i].datas, DatasEvent(run[i], acts[i]), run[i + 1].datas)
    {
      RunInv(run, acts, i);
      assert Next(run[i], acts[i], run[i + 1]);
      ChannelSteps(run[i], acts[i], run[i + 1]);
    }
  }

  /** At any moment of any run, what was put into each block is what was taken out and what is still there. */
  lemma NothingLost(run: seq<Side>, acts: seq<Act>, n: nat)
    requires IsRun(run, acts) && n <= |acts|
    ensures StoredIn(CommsEvents(run, acts), n) ==
              DrainedIn(CommsEvents(run, acts), n) + Load(run[n].comms, TOTAL_PARTITIONS)
    ensures StoredIn(DatasEvents(run, acts), n) ==
              DrainedIn(DatasEvents(run, acts), n) + Load(run[n].datas, TOTAL_PARTITIONS)
  {
    hide Next, Run, Receiving.Init;
    ChannelRuns(run, acts);
    Conservation(CommsOf(run), CommsEvents(run, acts), n);
    Conservation(DatasOf(run), DatasEvents(run, acts), n);
  }

  lemma EventOwner(a: Side, act: Act, b: Side)
    requires Inv(a) && Next(a, act, b) && (CommsEvent(a, act).Stored? || CommsEvent(a, act).Drained?)
    ensures var e := CommsEvent(a, act);
            && (ProcessorStep(a, act, b) <==> (if e.Stored? then e.msg.SizeOf? else e.msg.ConnEvent?))
            && (ReceiverStep(a, act, b) <==> (if e.Stored? then e.msg.ConnEvent? else e.msg.SizeOf?))
  {
    hide Inv, ProcessorStep, ReceiverStep;
    Directions(a, act, b);
    if ProcessorStep(a, act, b) { OneProgram(a, act, b); }
  }

  lemma OneProgram(a: Side, act: Act, b: Side)
    requires ProcessorStep(a, act, b)
    ensures !ReceiverStep(a, act, b)
  {
    hide IsFirst, IpKey, Printable, Upsert, HashSpec.Put, HashSpec.Get;
  }

  /** In any run, every message a program takes out of the comms block was last put into its slot by the other
      program, and the slot has not been touched since. */
  lemma DrainedFromOther(run: seq<Side>, acts: seq<Act>, j: nat) returns (i: nat)
    requires IsRun(run, acts) && j < |acts| && CommsEvent(run[j], acts[j]).Drained?
    ensures var e := CommsEvent(run[j], acts[j]);
            i < j && LastStore(CommsEvents(run, acts), i, j, e.slot, e.msg)
    ensures ProcessorStep(run[j], acts[j], run[j + 1]) <==> ReceiverStep(run[i], acts[i], run[i + 1])
    ensures ReceiverStep(run[j], acts[j], run[j + 1]) <==> ProcessorStep(run[i], acts[i], run[i + 1])
  {
    hide Next, Receiving.Init, Inv, Run, ProcessorStep, ReceiverStep, CommsEvent;
    ChannelRuns(run, acts);
    var e := CommsEvent(run[j], acts[j]);
    DrainedIsStored(CommsOf(run), CommsEvents(run, acts), j);
    i :| 0 <= i < j && LastStore(CommsEvents(run, acts), i, j, e.slot, e.msg);
    RunInv(run, acts, i);
    RunInv(run, acts, j);
    assert Next(run[i], acts[i], run[i + 1]) && Next(run[j], acts[j], run[j + 1]);
    EventOwner(run[i], acts[i], run[i + 1]);
    EventOwner(run[j], acts[j], run[j + 1]);
  }

  // ---- stored rows -------------------------------------------------------------------------

  /** The message whose slot the processor is about to clear. */
  function Handled(st: Side): multiset<NewMsg> {
    if st.p.REraseData? && st.p.slot in st.datas then multiset{st.datas[st.p.slot]} else multiset{}
  }

  function Taken(a: Side, act: Act): multiset<NewMsg> {
    if DatasEvent(a, act).Drained? then multiset{DatasEvent(a, act).msg} else multiset{}
  }

  /** A row is only inserted for a message in a slot, and that slot is cleared next. */
  ghost predicate RowsFollow(a: Side, act: Act, b: Side) {
    multiset(b.rows) + Handled(a) <= multiset(a.rows) + Handled(b) + Taken(a, act)
  }

  lemma RowsByMsg(a: Side, act: Act, b: Side)
    requires MsgStep(a, act, b)
    ensures RowsFollow(a, act, b)
  {
    hide IsFirst, Upsert;
  }

  lemma RowsByData(a: Side, act: Act, b: Side)
    requires Found(a) && DataStep(a, act, b)
    ensures RowsFollow(a, act, b)
  {
    hide IsFirst;
    if act.StoreData? { assert multiset(b.rows) == multiset(a.rows) + multiset{a.datas[a.p.slot]}; }
  }

  lemma RowsBySize(a: Side, act: Act, b: Side)
    requires SizeStep(a, act, b)
    ensures RowsFollow(a, act, b)
  {
    hide IsFirst, IpKey, Printable;
  }

  lemma ReceiverLeavesRows(a: Side, act: Act, b: Side)
    requires ReceiverStep(a, act, b)
    ensures b.rows == a.rows && b.p == a.p && Taken(a, act) == multiset{}
    ensures forall i :: i in a.datas ==> i in b.datas && b.datas[i] == a.datas[i]
  {
    hide HashSpec.Put, HashSpec.Get;
    if act.TryData? && act.i >= 0 { FreeSlot(a.datas.Keys, 3, act.i); }
    hide IsFirst;
  }

  lemma FreeSlot(held: set<nat>, typ: int, r: int)
    requires IsFirst(held, 0, typ, r) && r >= 0
    ensures r !in held
  {
  }

  lemma RowsStep(a: Side, act: Act, b: Side)
    requires Found(a) && Next(a, act, b)
    ensures RowsFollow(a, act, b)
  {
    hide MsgStep, DataStep, SizeStep, ReceiverStep, Found, RowsFollow;
    if MsgStep(a, act, b) { RowsByMsg(a, act, b); }
    else if DataStep(a, act, b) { RowsByData(a, act, b); }
    else if SizeStep(a, act, b) { RowsBySize(a, act, b); }
    else { RowsByOthers(a, act, b); }
  }

  lemma RowsByOthers(a: Side, act: Act, b: Side)
    requires ReceiverStep(a, act, b) || AroundStep(a, act, b)
    ensures RowsFollow(a, act, b)
  {
    hide ReceiverStep;
    if ReceiverStep(a, act, b) { ReceiverLeavesRows(a, act, b); }
  }

  lemma {:induction false} RowsTaken(run: seq<Side>, acts: seq<Act>, n: nat)
    requires IsRun(run, acts) && n <= |acts|
    ensures multiset(run[n].rows) <= DrainedIn(DatasEvents(run, acts), n) + Handled(run[n])
  {
    hide Next, Handled, DatasEvent, Locks, Found, Directed, Covered;
    if n > 0 {
      RowsTaken(run, acts, n - 1);
      RunInv(run, acts, n - 1);
      assert Next(run[n - 1], acts[n - 1], run[n]);
      RowsStep(run[n - 1], acts[n - 1], run[n]);
      Chain(multiset(run[n].rows), multiset(run[n - 1].rows), DrainedIn(DatasEvents(run, acts), n - 1),
            Handled(run[n]), Handled(run[n - 1]), Taken(run[n - 1], acts[n - 1]));
    }
  }

  lemma Chain<M>(rows1: multiset<M>, rows0: multiset<M>, drained: multiset<M>, h1: multiset<M>, h0: multiset<M>,
      taken: multiset<M>)
    requires rows0 <= drained + h0 && rows1 + h0 <= rows0 + h1 + taken
    ensures rows1 <= drained + taken + h1
  {
    forall m ensures rows1[m] <= (drained + taken + h1)[m] {
      assert (rows1 + h0)[m] <= (rows0 + h1 + taken)[m];
      assert rows0[m] <= (drained + h0)[m];
    }
  }

  /** Nothing is stored twice: the rows of any run are among the messages the receiver put into the data
      block, each at most as often as it was put there. */
  lemma RowsAreReceived(run: seq<Side>, acts: seq<Act>, n: nat)
    requires IsRun(run, acts) && n <= |acts|
    ensures multiset(run[n].rows) <= StoredIn(DatasEvents(run, acts), n)
  {
    hide Next, DatasEvent, Receiving.Init, Load, StoredIn, DrainedIn;
    RowsTaken(run, acts, n);
    NothingLost(run, acts, n);
    if run[n].p.REraseData? && run[n].p.slot in run[n].datas {
      LoadTake(run[n].datas, run[n].p.slot, TOTAL_PARTITIONS);
    }
    assert Handled(run[n]) <= Load(run[n].datas, TOTAL_PARTITIONS);
  }

  // ---- sizes -------------------------------------------------------------------------------

  /** Nobody tells the receiver a size other than `capacity` for address `ip`. */
  predicate NoticesAgree(notices: multiset<Notice>, ip: int, capacity: int) {
    forall n :: n in notices && n.ip == ip ==> n.capacity == capacity
  }

  predicate SizeOk(m: RMsg, ip: int, capacity: int) {
    m.SizeOf? ==> |m.key| <= 16 && (m.key == IpKey(ip) ==> m.capacity == capacity)
  }

  ghost predicate TableOk(t: HashSpec.Table, ip: int, capacity: int) {
    && t.buckets != []
    && PoolBlank(t)
    && (forall v :: v in Queue(t, IpKey(ip)) ==> v == capacity)
  }

  /** All that is on its way to the receiver's table, or in it, agrees on the size. */
  ghost predicate Agree(st: Side, ip: int, capacity: int) {
    && NoticesAgree(st.notices, ip, capacity)
    && (forall i :: i in st.comms ==> SizeOk(st.comms[i], ip, capacity))
    && (st.p.RPublish? ==> SizeOk(st.p.msg, ip, capacity))
    && (st.v.VUnlockTake? && st.v.taken.Some? ==> SizeOk(st.v.taken.value, ip, capacity))
    && (st.v.VPut? ==> SizeOk(st.v.size, ip, capacity))
    && TableOk(st.sizes, ip, capacity)
  }

  lemma {:induction false} AsKeyInjective(a: Bytes, b: Bytes)
    requires (forall i :: 0 <= i < |a| ==> 0 < a[i] < 128) && (forall i :: 0 <= i < |b| ==> 0 < b[i] < 128)
    requires AsKey(a) == AsKey(b)
    ensures a == b
  {
    if a != [] && b != [] {
      assert AsKey(a)[1..] == AsKey(a[1..]) && AsKey(b)[1..] == AsKey(b[1..]);
      assert a[0] == AsKey(a)[0] && b[0] == AsKey(b)[0];
      AsKeyInjective(a[1..], b[1..]);
      assert a == [a[0]] + a[1..] && b == [b[0]] + b[1..];
    }
  }

  lemma {:induction false} AsKeyLength(a: Bytes)
    ensures |AsKey(a)| <= |a|
  {
    if a != [] { AsKeyLength(a[1..]); }
  }

  lemma IntTextChars(n: int)
    ensures IntText(n) != [] && forall i :: 0 <= i < |IntText(n)| ==> 0 < IntText(n)[i] < 128
    ensures n >= 0 ==> AllDigits(IntText(n)) && DigitsValue(IntText(n)) == n
    ensures n < 0 ==> IntText(n)[0] == MINUS && AllDigits(IntText(n)[1..]) && DigitsValue(IntText(n)[1..]) == -n
  {
    DecimalValue(if n < 0 then -n else n);
  }

  /** Different addresses have different keys. */
  lemma IpKeyInjective(a: int, b: int)
    requires IpKey(a) == IpKey(b)
    ensures a == b
  {
    IntTextChars(a);
    IntTextChars(b);
    AsKeyInjective(IntText(a), IntText(b));
  }

  lemma PutAgrees(t: HashSpec.Table, key: Key, value: int, ip: int, capacity: int)
    requires TableOk(t, ip, capacity) && |key| < KEY_SIZE && (key == IpKey(ip) ==> value == capacity)
    ensures TableOk(HashSpec.Put(t, key, value).0, ip, capacity)
  {
    hide Queue;
    if t.pool != [] { PutExact(t, key, value); }
  }

  lemma AgreeByMsg(a: Side, act: Act, b: Side, ip: int, capacity: int)
    requires Agree(a, ip, capacity) && (MsgStep(a, act, b) || DataStep(a, act, b))
    ensures Agree(b, ip, capacity)
  {
    hide IsFirst, IpKey, TableOk, Upsert, SizeOk, NoticesAgree;
  }

  lemma AgreeBySize(a: Side, act: Act, b: Side, ip: int, capacity: int)
    requires Agree(a, ip, capacity) && SizeStep(a, act, b)
    ensures Agree(b, ip, capacity)
  {
    hide IsFirst, IpKey, TableOk;
    if act.FetchSize? {
      AsKeyLengthOfIp(act.n.ip);
      if IpKey(act.n.ip) == IpKey(ip) { IpKeyInjective(act.n.ip, ip); }
    }
  }

  lemma AsKeyLengthOfIp(ip: int)
    requires Printable(ip)
    ensures |IpKey(ip)| <= 16
  {
    AsKeyLength(IntText(ip));
  }

  lemma AgreeByTake(a: Side, act: Act, b: Side, ip: int, capacity: int)
    requires Agree(a, ip, capacity) && TakeStep(a, act, b)
    ensures Agree(b, ip, capacity)
  {
    hide IsFirst, IpKey, TableOk, HashSpec.Put;
    if act.PutSize? { PutAgrees(a.sizes, a.v.size.key, a.v.size.capacity, ip, capacity); }
  }

  lemma AgreeByGive(a: Side, act: Act, b: Side, ip: int, capacity: int)
    requires Agree(a, ip, capacity) && Directed(a) && (GiveStep(a, act, b) || EventStep(a, act, b))
    ensures Agree(b, ip, capacity)
  {
    hide IsFirst, IpKey, TableOk, HashSpec.Get, NoticesAgree;
  }

  lemma AgreeStep(a: Side, act: Act, b: Side, ip: int, capacity: int)
    requires Agree(a, ip, capacity) && Next(a, act, b) && NoticesAgree(b.notices, ip, capacity) && Directed(a)
    ensures Agree(b, ip, capacity)
  {
    hide MsgStep, DataStep, SizeStep, TakeStep, GiveStep, EventStep, TableOk, SizeOk, NoticesAgree;
    if MsgStep(a, act, b) || DataStep(a, act, b) { AgreeByMsg(a, act, b, ip, capacity); }
    else if SizeStep(a, act, b) { AgreeBySize(a, act, b, ip, capacity); }
    else if TakeStep(a, act, b) { AgreeByTake(a, act, b, ip, capacity); }
    else if GiveStep(a, act, b) || EventStep(a, act, b) { AgreeByGive(a, act, b, ip, capacity); }
  }

  lemma AgreeAtFirst(st: Side, ip: int, capacity: int)
    requires Receiving.Init(st)
    ensures Agree(st, ip, capacity)
  {
    var size: nat :| size > 0 && st.sizes == Fresh(size);
    FreshIsBlank(size);
    assert Queue(Fresh(size), IpKey(ip)) == [];
  }

  lemma {:induction false} AgreeAlways(run: seq<Side>, acts: seq<Act>, n: nat, ip: int, capacity: int)
    requires IsRun(run, acts) && n < |run|
    requires forall i :: 0 <= i <= n ==> NoticesAgree(run[i].notices, ip, capacity)
    ensures Agree(run[n], ip, capacity)
  {
    hide Agree, Next, NoticesAgree, Receiving.Init, Locks, Found, Directed, Covered;
    if n == 0 {
      AgreeAtFirst(run[0], ip, capacity);
    } else {
      AgreeAlways(run, acts, n - 1, ip, capacity);
      RunInv(run, acts, n - 1);
      assert Next(run[n - 1], acts[n - 1], run[n]);
      AgreeStep(run[n - 1], acts[n - 1], run[n], ip, capacity);
    }
  }

  /** A lookup finds what was put for address `ip` if and only if `ip` is the own address as a signed number. */
  lemma LookupExact(own: int, ip: int)
    ensures LookupKey(own) == IpKey(ip) <==> AsInt32(own) == ip
  {
    hide IpKey;
    if LookupKey(own) == IpKey(ip) { IpKeyInjective(AsInt32(own), ip); }
  }

  /** If all notices that name the receiver's own address name one capacity, then in any run every message
      taken has exactly that length, however often the size is told and whatever collides with it. */
  lemma SizeAgreement(run: seq<Side>, acts: seq<Act>, n: nat, capacity: int)
    requires IsRun(run, acts) && n < |acts| && acts[n].Receive?
    requires forall i :: 0 <= i <= n ==> NoticesAgree(run[i].notices, AsInt32(run[n].own), capacity)
    ensures |acts[n].data| == capacity
  {
    hide IsFirst, NoticesAgree, Receiving.Init, HashSpec.Get, Queue;
    var key := LookupKey(run[n].own);
    AgreeAlways(run, acts, n, AsInt32(run[n].own), capacity);
    assert Next(run[n], acts[n], run[n + 1]);
    assert GiveStep(run[n], acts[n], run[n + 1]);
    GetExact(run[n].sizes, key);
    var q := Queue(run[n].sizes, key);
    assert q != [] ==> q[0] in q;
  }

  /** All notices tell one capacity for one address. */
  predicate NoticesFor(notices: multiset<Notice>, ip: int, capacity: int) {
    forall n :: n in notices ==> n == Notice(ip, capacity)
  }

  /** Sizes are found exactly for a peer whose address is the receiver's own: if the receiver is only told the
      capacity of one address, it takes a message only if that is its own address, and then of that length.
      For any other peer no message is ever taken. */
  lemma TakesExactly(run: seq<Side>, acts: seq<Act>, n: nat, ip: int, capacity: int)
    requires IsRun(run, acts) && n < |acts| && acts[n].Receive?
    requires forall i :: 0 <= i <= n ==> NoticesFor(run[i].notices, ip, capacity)
    ensures AsInt32(run[n].own) == ip && |acts[n].data| == capacity
  {
    var own := AsInt32(run[n].own);
    if own != ip {
      assert forall i :: 0 <= i <= n ==> NoticesAgree(run[i].notices, own, 0);
      assert forall i :: 0 <= i <= n ==> NoticesAgree(run[i].notices, own, 1);
      SizeAgreement(run, acts, n, 0);
      SizeAgreement(run, acts, n, 1);
    } else {
      assert forall i :: 0 <= i <= n ==> NoticesAgree(run[i].notices, ip, capacity);
      SizeAgreement(run, acts, n, capacity);
    }
  }

  lemma OwnStep(a: Side, act: Act, b: Side)
    requires Next(a, act, b)
    ensures b.own == a.own
  {
    hide ProcessorStep, ReceiverStep;
    if ProcessorStep(a, act, b) { OwnByProcessor(a, act, b); }
    else if ReceiverStep(a, act, b) { OwnByReceiver(a, act, b); }
  }

  lemma OwnByProcessor(a: Side, act: Act, b: Side)
    requires ProcessorStep(a, act, b)
    ensures b.own == a.own && b.sizes == a.sizes
  {
    hide MsgStep, DataStep, SizeStep;
    if MsgStep(a, act, b) { OwnByMsg(a, act, b); }
    else if DataStep(a, act, b) { OwnByData(a, act, b); }
    else { OwnBySize(a, act, b); }
  }

  lemma OwnByMsg(a: Side, act: Act, b: Side)
    requires MsgStep(a, act, b)
    ensures b.own == a.own && b.sizes == a.sizes
  {
    hide IsFirst, Upsert;
  }

  lemma OwnByData(a: Side, act: Act, b: Side)
    requires DataStep(a, act, b)
    ensures b.own == a.own && b.sizes == a.sizes
  {
    hide IsFirst;
  }

  lemma OwnBySize(a: Side, act: Act, b: Side)
    requires SizeStep(a, act, b)
    ensures b.own == a.own && b.sizes == a.sizes
  {
    hide IsFirst, IpKey, Printable;
  }

  lemma OwnByReceiver(a: Side, act: Act, b: Side)
    requires ReceiverStep(a, act, b)
    ensures b.own == a.own && (b.sizes != a.sizes ==> SizePut(a, act, b))
  {
    hide TakeStep, GiveStep, EventStep, SizePut;
    if TakeStep(a, act, b) { OwnByTake(a, act, b); }
    else if GiveStep(a, act, b) { OwnByGive(a, act, b); }
    else { OwnByEvent(a, act, b); }
  }

  /** A size is put into the table. */
  predicate SizePut(a: Side, act: Act, b: Side) {
    && act.PutSize? && a.v.VPut? && a.v.size.SizeOf? && a.sizes.buckets != [] && |a.v.size.key| < KEY_SIZE
    && b.sizes == HashSpec.Put(a.sizes, a.v.size.key, a.v.size.capacity).0
  }

  lemma OwnByTake(a: Side, act: Act, b: Side)
    requires TakeStep(a, act, b)
    ensures b.own == a.own && (b.sizes != a.sizes ==> SizePut(a, act, b))
  {
    hide IsFirst, HashSpec.Put;
  }

  lemma OwnByGive(a: Side, act: Act, b: Side)
    requires GiveStep(a, act, b)
    ensures b.own == a.own && b.sizes == a.sizes
  {
    hide IsFirst, HashSpec.Get;
  }

  lemma OwnByEvent(a: Side, act: Act, b: Side)
    requires EventStep(a, act, b)
    ensures b.own == a.own && b.sizes == a.sizes
  {
    hide IsFirst;
  }

  lemma {:induction false} OwnAlways(run: seq<Side>, acts: seq<Act>, n: nat)
    requires IsRun(run, acts) && n < |run|
    ensures run[n].own == run[0].own
  {
    hide Next, Receiving.Init;
    if n > 0 {
      OwnAlways(run, acts, n - 1);
      assert Next(run[n - 1], acts[n - 1], run[n]);
      OwnStep(run[n - 1], acts[n - 1], run[n]);
    }
  }

  /** The step puts a size for `key`, and there is room for it. */
  predicate Tells(a: Side, act: Act, key: Key) {
    act.PutSize? && a.v.VPut? && a.v.size.SizeOf? && a.v.size.key == key && a.sizes.pool != []
  }

  predicate Knows(t: HashSpec.Table, key: Key) {
    t.buckets != [] && Queue(t, key) != []
  }

  lemma PutKnows(t: HashSpec.Table, key: Key, value: int, k: Key)
    requires t.buckets != [] && |key| < KEY_SIZE && PoolBlank(t)
    ensures Knows(t, k) ==> Knows(HashSpec.Put(t, key, value).0, k)
    ensures t.pool != [] ==> Knows(HashSpec.Put(t, key, value).0, key)
  {
    hide Queue;
    if t.pool != [] {
      PutExact(t, key, value);
      assert Queue(HashSpec.Put(t, key, value).0, key) == Queue(t, key) + [value];
    }
  }

  lemma KnowsStep(a: Side, act: Act, b: Side, key: Key)
    requires Next(a, act, b) && a.sizes.buckets != [] && PoolBlank(a.sizes)
    ensures Knows(a.sizes, key) || Tells(a, act, key) ==> Knows(b.sizes, key)
  {
    hide MsgStep, DataStep, SizeStep, ReceiverStep, Knows, PoolBlank;
    if ReceiverStep(a, act, b) {
      OwnByReceiver(a, act, b);
      if act.PutSize? { PutStepKnows(a, act, b, key); }
    } else if ProcessorStep(a, act, b) {
      OwnByProcessor(a, act, b);
      NotTelling(a, act, b);
    }
  }

  lemma NotTelling(a: Side, act: Act, b: Side)
    requires ProcessorStep(a, act, b)
    ensures !act.PutSize?
  {
    hide IsFirst, IpKey, Printable, Upsert;
  }

  lemma PutStepKnows(a: Side, act: Act, b: Side, key: Key)
    requires ReceiverStep(a, act, b) && act.PutSize? && PoolBlank(a.sizes)
    ensures Knows(a.sizes, key) || Tells(a, act, key) ==> Knows(b.sizes, key)
  {
    hide Knows, PoolBlank, HashSpec.Put;
    PutKnows(a.sizes, a.v.size.key, a.v.size.capacity, key);
  }

  /** Once a size has been told for its own address, the receiver takes messages of that length ever after. */
  lemma {:induction false} TakesOnceTold(run: seq<Side>, acts: seq<Act>, i: nat, n: nat, ip: int, capacity: int)
    requires IsRun(run, acts) && i < n < |run| && Tells(run[i], acts[i], IpKey(ip)) && AsInt32(run[n].own) == ip
    requires forall j :: 0 <= j <= n ==> NoticesFor(run[j].notices, ip, capacity)
    ensures run[n].sizes.buckets != [] && HashSpec.Get(run[n].sizes, LookupKey(run[n].own)) == capacity
  {
    hide Next, Receiving.Init, IpKey, HashSpec.Get, Tells;
    assert forall j :: 0 <= j <= n ==> NoticesAgree(run[j].notices, ip, capacity);
    KnownAfter(run, acts, i, n, ip, capacity);
    AgreeAlways(run, acts, n, ip, capacity);
    GetExact(run[n].sizes, IpKey(ip));
    var q := Queue(run[n].sizes, IpKey(ip));
    assert q[0] in q;
  }

  lemma {:induction false} KnownAfter(run: seq<Side>, acts: seq<Act>, i: nat, n: nat, ip: int, capacity: int)
    requires IsRun(run, acts) && i < n < |run| && Tells(run[i], acts[i], IpKey(ip))
    requires forall j :: 0 <= j <= n ==> NoticesAgree(run[j].notices, ip, capacity)
    ensures Knows(run[n].sizes, IpKey(ip))
  {
    hide Next, Receiving.Init, IpKey, Tells, Knows, NoticesAgree, PoolBlank, Queue;
    if i < n - 1 { KnownAfter(run, acts, i, n - 1, ip, capacity); }
    AgreeAlways(run, acts, n - 1, ip, capacity);
    assert Next(run[n - 1], acts[n - 1], run[n]);
    KnowsStep(run[n - 1], acts[n - 1], run[n], IpKey(ip));
  }
}
