/** What every step of the receiving side keeps, and what follows for its waits and its channels. */
module ReceivingInv {
  import opened Text
  import opened Tables
  import opened Channels
  import opened HashSpec
  import opened Receiving

  // ---- locks, and what they protect --------------------------------------------------------

  predicate ProcessorHoldsComms(p: ProcessorPc) {
    p.RStoreMsg? || p.REraseMsg? || p.RUnlockMsg? || p.RFetch? || p.RPublish? || p.RUnlockSend?
  }

  predicate ProcessorHoldsDatas(p: ProcessorPc) {
    p.RStoreData? || p.REraseData? || p.RUnlockData?
  }

  predicate ReceiverHoldsComms(v: ReceiverPc) {
    v.VUnlockTake? || v.VTryMsg? || v.VPostMsg? || v.VUnlockMsg?
  }

  predicate ReceiverHoldsDatas(v: ReceiverPc) {
    v.VTryData? || v.VPostData? || v.VUnlockData?
  }

  predicate Locks(st: Side) {
    && (st.commLock == Processor <==> ProcessorHoldsComms(st.p))
    && (st.commLock == Receiver <==> ReceiverHoldsComms(st.v))
    && (st.dataLock == Processor <==> ProcessorHoldsDatas(st.p))
    && (st.dataLock == Receiver <==> ReceiverHoldsDatas(st.v))
  }

  /** What was found under a lock still holds; a receiver that tries again has seen a full block. */
  ghost predicate Found(st: Side) {
    && (match st.p
        case RStoreMsg(slot, left) => slot in st.comms && IsFirst(st.comms.Keys, 1, 2, slot)
        case REraseMsg(slot) => slot in st.comms && IsFirst(st.comms.Keys, 1, 2, slot)
        case RStoreData(found, slot, left) => slot in st.datas && IsFirst(st.datas.Keys, 1, 3, slot)
        case REraseData(found, slot) => slot in st.datas && IsFirst(st.datas.Keys, 1, 3, slot)
        case RFetch(slot) => IsFirst(st.comms.Keys, 0, 1, slot)
        case RPublish(slot, msg) => IsFirst(st.comms.Keys, 0, 1, slot) && msg.SizeOf?
        case _ => true)
    && (st.v.VTryData? && st.v.left < ATTEMPTS ==> IsFirst(st.datas.Keys, 0, 3, -1))
    && (st.v.VTryMsg? && st.v.left < ATTEMPTS ==> IsFirst(st.comms.Keys, 0, 2, -1))
  }

  predicate Directed(st: Side) {
    && (forall i :: i in st.comms ==> (i < 40 <==> st.comms[i].SizeOf?))
    && (st.v.VUnlockTake? && st.v.taken.Some? ==> st.v.taken.value.SizeOf?)
    && (st.v.VPut? ==> st.v.size.SizeOf?)
    && (st.v.VGiveMsg? || st.v.VTryMsg? ==> st.v.event.ConnEvent?)
  }

  ghost predicate Steady(st: Side) {
    Locks(st) && Found(st) && Directed(st)
  }

  lemma SteadyByMsg(a: Side, act: Act, b: Side)
    requires Steady(a) && MsgStep(a, act, b)
    ensures Steady(b)
  {
  }

  lemma SteadyByData(a: Side, act: Act, b: Side)
    requires Steady(a) && DataStep(a, act, b)
    ensures Steady(b)
  {
  }

  lemma SteadyBySize(a: Side, act: Act, b: Side)
    requires Steady(a) && SizeStep(a, act, b)
    ensures Steady(b)
  {
    hide IpKey, Printable;
  }

  lemma SteadyByTake(a: Side, act: Act, b: Side)
    requires Steady(a) && TakeStep(a, act, b)
    ensures Steady(b)
  {
    hide HashSpec.Put, TakeStep, Locks, Found, Directed;
    LocksByTake(a, act, b);
    FoundByTake(a, act, b);
    DirectedByTake(a, act, b);
  }

  lemma LocksByTake(a: Side, act: Act, b: Side)
    requires Locks(a) && TakeStep(a, act, b)
    ensures Locks(b)
  {
    hide HashSpec.Put, IsFirst;
  }

  lemma FoundByTake(a: Side, act: Act, b: Side)
    requires Locks(a) && Found(a) && TakeStep(a, act, b)
    ensures Found(b)
  {
    hide HashSpec.Put, IsFirst;
  }

  lemma DirectedByTake(a: Side, act: Act, b: Side)
    requires Directed(a) && TakeStep(a, act, b)
    ensures Directed(b)
  {
    hide HashSpec.Put;
  }

  lemma SteadyByGive(a: Side, act: Act, b: Side)
    requires Steady(a) && GiveStep(a, act, b)
    ensures Steady(b)
  {
    hide HashSpec.Get, GiveStep, Locks, Found, Directed;
    LocksByGive(a, act, b);
    FoundByGive(a, act, b);
    DirectedByGive(a, act, b);
  }

  lemma LocksByGive(a: Side, act: Act, b: Side)
    requires Locks(a) && GiveStep(a, act, b)
    ensures Locks(b)
  {
    hide HashSpec.Get, IsFirst;
  }

  lemma FoundByGive(a: Side, act: Act, b: Side)
    requires Locks(a) && Found(a) && GiveStep(a, act, b)
    ensures Found(b)
  {
    if act.TryData? && act.i < 0 { NoneFound(a.datas.Keys, 0, 3, act.i); }
    hide HashSpec.Get, IsFirst;
  }

  lemma DirectedByGive(a: Side, act: Act, b: Side)
    requires Directed(a) && GiveStep(a, act, b)
    ensures Directed(b)
  {
    hide HashSpec.Get;
  }

  lemma SteadyByEvent(a: Side, act: Act, b: Side)
    requires Steady(a) && EventStep(a, act, b)
    ensures Steady(b)
  {
  }

  lemma SteadyKept(a: Side, act: Act, b: Side)
    requires Steady(a) && Next(a, act, b)
    ensures Steady(b)
  {
    hide MsgStep, DataStep, SizeStep, TakeStep, GiveStep, EventStep, Locks, Found, Directed;
    if MsgStep(a, act, b) { SteadyByMsg(a, act, b); }
    else if DataStep(a, act, b) { SteadyByData(a, act, b); }
    else if SizeStep(a, act, b) { SteadyBySize(a, act, b); }
    else if TakeStep(a, act, b) { SteadyByTake(a, act, b); }
    else if GiveStep(a, act, b) { SteadyByGive(a, act, b); }
    else if EventStep(a, act, b) { SteadyByEvent(a, act, b); }
    else { SteadyAround(a, act, b); }
  }

  lemma SteadyAround(a: Side, act: Act, b: Side)
    requires Steady(a) && AroundStep(a, act, b)
    ensures Steady(b)
  {
    hide IsFirst;
  }

  // ---- wake-ups ----------------------------------------------------------------------------

  function Posting(v: ReceiverPc): nat {
    if v.VPostData? || v.VPostMsg? then 1 else 0
  }

  /** A round that has consumed a post and has not yet cleared a slot for it. */
  function Credit(p: ProcessorPc): nat {
    match p
    case RRead => 1
    case RStoreMsg(slot, left) => 1
    case REraseMsg(slot) => 1
    case RUnlockMsg(found) => if found then 0 else 1
    case RData(found) => if found then 0 else 1
    case RStoreData(found, slot, left) => if found then 0 else 1
    case REraseData(found, slot) => if found then 0 else 1
    case _ => 0
  }

  /** The round has found no connection event. */
  predicate Missed(p: ProcessorPc) {
    (p.RUnlockMsg? || p.RData?) && !p.found
  }

  /** The full slots that wait for the processor are covered by the semaphore, by a post about to happen,
      and by the round it is in. */
  predicate Covered(st: Side) {
    && Ups(st.comms) + Held(st.datas) <= st.sigr + Posting(st.v) + Credit(st.p)
    && (Missed(st.p) ==> Ups(st.comms) <= st.sigr + Posting(st.v))
  }

  lemma CoveredByMsg(a: Side, act: Act, b: Side)
    requires Covered(a) && Found(a) && MsgStep(a, act, b)
    ensures Covered(b)
  {
    hide IsFirst, Ups, Held, Posting, Upsert;
    if act.FindMsg? && act.i == -1 { NoneAbove(a.comms); }
    if act.EraseMsg? {
      FirstInRegion(a.comms.Keys, 1, 2, a.p.slot);
      TakeCounts(a.comms, a.p.slot);
    }
  }

  lemma CoveredByData(a: Side, act: Act, b: Side)
    requires Covered(a) && Found(a) && DataStep(a, act, b)
    ensures Covered(b)
  {
    hide IsFirst, Ups, Held, Posting;
    if act.FindData? && act.i == -1 { NoneHeld(a.datas); }
    if act.EraseData? { HeldCounts(a.datas, a.p.slot, a.datas[a.p.slot]); }
  }

  lemma CoveredBySize(a: Side, act: Act, b: Side)
    requires Covered(a) && Found(a) && SizeStep(a, act, b)
    ensures Covered(b)
  {
    hide Ups, Held, Posting, IpKey, Printable;
    if act.PublishSize? { PutCounts(a.comms, a.p.slot, a.p.msg); }
  }

  lemma CoveredByTake(a: Side, act: Act, b: Side)
    requires Covered(a) && TakeStep(a, act, b)
    ensures Covered(b)
  {
    hide Ups, Held, Credit, Missed, HashSpec.Put;
    if act.TakeSize? && act.i != -1 { TakeCounts(a.comms, act.i); }
  }

  lemma CoveredByGive(a: Side, act: Act, b: Side)
    requires Covered(a) && GiveStep(a, act, b)
    ensures Covered(b)
  {
    hide Ups, Held, Credit, Missed, HashSpec.Get;
    if act.TryData? && act.i >= 0 { HeldCounts(a.datas, act.i, a.v.msg); }
  }

  lemma CoveredByEvent(a: Side, act: Act, b: Side)
    requires Covered(a) && EventStep(a, act, b)
    ensures Covered(b)
  {
    hide Ups, Held, Credit, Missed;
    if act.TryMsg? && act.i >= 0 { PutCounts(a.comms, act.i, a.v.event); }
  }

  lemma CoveredKept(a: Side, act: Act, b: Side)
    requires Found(a) && Covered(a) && Next(a, act, b)
    ensures Covered(b)
  {
    hide MsgStep, DataStep, SizeStep, TakeStep, GiveStep, EventStep, Found, Ups, Held;
    if MsgStep(a, act, b) { CoveredByMsg(a, act, b); }
    else if DataStep(a, act, b) { CoveredByData(a, act, b); }
    else if SizeStep(a, act, b) { CoveredBySize(a, act, b); }
    else if TakeStep(a, act, b) { CoveredByTake(a, act, b); }
    else if GiveStep(a, act, b) { CoveredByGive(a, act, b); }
    else if EventStep(a, act, b) { CoveredByEvent(a, act, b); }
  }

  // ---- the invariant -----------------------------------------------------------------------

  ghost predicate Inv(st: Side) {
    Steady(st) && Covered(st)
  }

  lemma InitInv(st: Side)
    requires Init(st)
    ensures Inv(st)
  {
    assert Ups(st.comms) == 0;
  }

  /** Every step of the receiver, of the processor or around them keeps the invariant. */
  lemma StepInv(a: Side, act: Act, b: Side)
    requires Inv(a) && Next(a, act, b)
    ensures Inv(b)
  {
    hide Locks, Found, Directed, Covered, Next;
    SteadyKept(a, act, b);
    CoveredKept(a, act, b);
  }

  /** No lost wake-up: when the processor waits, its semaphore covers every full slot meant for it, but for
      one whose post is the receiver's very next step; so if it sleeps, nothing is left for it. */
  lemma NoLostWakeUp(st: Side)
    requires Inv(st) && st.p.RIdle?
    ensures Ups(st.comms) + Held(st.datas) <= st.sigr + Posting(st.v)
    ensures st.sigr == 0 && Posting(st.v) == 0 ==>
              st.datas == map[] && forall i :: i in st.comms ==> st.comms[i].SizeOf?
  {
    hide Locks, Found;
    assert Held(st.datas) == 0 ==> st.datas.Keys == {};
    assert Ups(st.comms) == 0 ==> Above(st.comms.Keys) == {};
    assert forall i :: i in st.comms.Keys && i >= 40 ==> i in Above(st.comms.Keys);
  }

  /** A retry cannot succeed: the lock is held while the receiver sleeps between attempts, so a message that
      does not fit at the first attempt is dropped. */
  lemma RetryIsFutile(a: Side, act: Act, b: Side)
    requires Inv(a) && Next(a, act, b)
    ensures act.TryData? && act.i >= 0 ==> a.v.left >= ATTEMPTS
    ensures act.TryMsg? && act.i >= 0 ==> a.v.left >= ATTEMPTS
  {
    hide Locks, Directed, Covered, IpKey, Printable, Upsert, HashSpec.Put, HashSpec.Get, IsFirst;
    if act.TryData? && act.i >= 0 && a.v.left < ATTEMPTS { FirstOnce(a.datas.Keys, 3, act.i); }
    if act.TryMsg? && act.i >= 0 && a.v.left < ATTEMPTS { FirstOnce(a.comms.Keys, 2, act.i); }
  }

  lemma FirstOnce(held: set<nat>, typ: int, r: int)
    requires IsFirst(held, 0, typ, r) && r >= 0
    ensures !IsFirst(held, 0, typ, -1)
  {
  }

  // ---- the two blocks as channels ----------------------------------------------------------

  function CommsEvent(a: Side, act: Act): Channels.Event<RMsg> {
    match act
    case EraseMsg => if a.p.REraseMsg? && a.p.slot in a.comms then Drained(2, a.p.slot, a.comms[a.p.slot]) else Quiet
    case PublishSize => if a.p.RPublish? then Stored(1, a.p.slot, a.p.msg) else Quiet
    case TakeSize(i) => if i in a.comms then Drained(1, i, a.comms[i]) else Idle(1)
    case TryMsg(i) =>
      if a.v.VTryMsg? then (if i >= 0 then Stored(2, i, a.v.event) else Dropped(2, a.v.event)) else Quiet
    case _ => Quiet
  }

  function DatasEvent(a: Side, act: Act): Channels.Event<NewMsg> {
    match act
    case EraseData => if a.p.REraseData? && a.p.slot in a.datas then Drained(3, a.p.slot, a.datas[a.p.slot]) else Quiet
    case TryData(i) => if a.v.VTryData? then (if i >= 0 then Stored(3, i, a.v.msg) else Dropped(3, a.v.msg)) else Quiet
    case _ => Quiet
  }

  ghost predicate Channelled(a: Side, act: Act, b: Side) {
    Step(a.comms, CommsEvent(a, act), b.comms) && Step(a.datas, DatasEvent(a, act), b.datas)
  }

  lemma ChannelByProcessor(a: Side, act: Act, b: Side)
    requires Found(a) && ProcessorStep(a, act, b)
    ensures Channelled(a, act, b)
  {
    hide Channelled, MsgStep, DataStep, SizeStep;
    if MsgStep(a, act, b) { ChannelByMsg(a, act, b); }
    else if DataStep(a, act, b) { ChannelByData(a, act, b); }
    else { ChannelBySize(a, act, b); }
  }

  lemma ChannelByMsg(a: Side, act: Act, b: Side)
    requires Found(a) && MsgStep(a, act, b)
    ensures Channelled(a, act, b)
  {
    hide IsFirst, Upsert;
  }

  lemma ChannelByData(a: Side, act: Act, b: Side)
    requires Found(a) && DataStep(a, act, b)
    ensures Channelled(a, act, b)
  {
    hide IsFirst;
  }

  lemma ChannelBySize(a: Side, act: Act, b: Side)
    requires Found(a) && SizeStep(a, act, b)
    ensures Channelled(a, act, b)
  {
    hide IsFirst, IpKey, Printable;
  }

  lemma ChannelByTake(a: Side, act: Act, b: Side)
    requires TakeStep(a, act, b)
    ensures Channelled(a, act, b)
  {
    if act.TakeSize? { FullOrNone(a.comms.Keys, 1, act.i); }
    hide IsFirst, HashSpec.Put;
  }

  lemma ChannelByGive(a: Side, act: Act, b: Side)
    requires GiveStep(a, act, b)
    ensures Channelled(a, act, b)
  {
    hide HashSpec.Get;
  }

  lemma ChannelByEvent(a: Side, act: Act, b: Side)
    requires EventStep(a, act, b)
    ensures Channelled(a, act, b)
  {
  }

  /** Every step is one first-fit step of each channel. */
  lemma ChannelSteps(a: Side, act: Act, b: Side)
    requires Found(a) && Next(a, act, b)
    ensures Channelled(a, act, b)
  {
    hide ProcessorStep, TakeStep, GiveStep, EventStep, Found;
    if ProcessorStep(a, act, b) { ChannelByProcessor(a, act, b); }
    else if TakeStep(a, act, b) { ChannelByTake(a, act, b); }
    else if GiveStep(a, act, b) { ChannelByGive(a, act, b); }
    else if EventStep(a, act, b) { ChannelByEvent(a, act, b); }
  }

  /** The processor stores sizes and drains connection events, the receiver the other way round. */
  lemma Directions(a: Side, act: Act, b: Side)
    requires Inv(a) && Next(a, act, b)
    ensures var e := CommsEvent(a, act);
            && (e.Stored? ==> (e.msg.SizeOf? <==> ProcessorStep(a, act, b)))
            && (e.Drained? ==> (e.msg.ConnEvent? <==> ProcessorStep(a, act, b)))
  {
    hide Locks, Covered, HashSpec.Put, HashSpec.Get, IpKey, Printable, Upsert;
  }
}
