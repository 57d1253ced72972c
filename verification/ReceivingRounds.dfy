/** What the rounds of receiver and processor_r do not skip. */
module ReceivingRounds {
  import opened Text
  import opened Tables
  import opened Channels
  import opened HashSpec
  import opened Receiving
  import opened ReceivingInv
  import opened ReceivingRuns

  // ---- the processor -----------------------------------------------------------------------

  /** The processor releases a lock only after it has found nothing, a statement has failed, or the slot has been
      cleared or filled. */
  predicate EndsPart(act: Act, b: Side) {
    match b.p
    case RUnlockMsg(found) => if found then act == EraseMsg else act == FindMsg(-1)
    case RUnlockData => act == FindData(-1) || act == EraseData
    case RUnlockSend => act == FindRoom(-1) || act == FetchFails || act == PublishSize
    case _ => true
  }

  /** A round has all its parts, in this order: connections, messages, sizes. */
  predicate NextPart(p: ProcessorPc, q: ProcessorPc) {
    && (p.RIdle? ==> q.RRead?)
    && (p.RUnlockMsg? ==> q.RData?)
    && (p.RUnlockData? ==> q.RSend?)
    && (p.RUnlockSend? ==> q.RIdle?)
    && (q.RIdle? ==> p.RUnlockSend?)
  }

  lemma RoundEnds(a: Side, act: Act, b: Side)
    requires ProcessorStep(a, act, b)
    ensures EndsPart(act, b) && NextPart(a.p, b.p)
  {
    hide MsgStep, DataStep, SizeStep, EndsPart, NextPart;
    if MsgStep(a, act, b) { MsgEnds(a, act, b); }
    else if DataStep(a, act, b) { DataEnds(a, act, b); }
    else { SizeEnds(a, act, b); }
  }

  lemma MsgEnds(a: Side, act: Act, b: Side)
    requires MsgStep(a, act, b)
    ensures EndsPart(act, b) && NextPart(a.p, b.p)
  {
    hide IsFirst, Upsert;
  }

  lemma DataEnds(a: Side, act: Act, b: Side)
    requires DataStep(a, act, b)
    ensures EndsPart(act, b) && NextPart(a.p, b.p)
  {
    hide IsFirst;
  }

  lemma SizeEnds(a: Side, act: Act, b: Side)
    requires SizeStep(a, act, b)
    ensures EndsPart(act, b) && NextPart(a.p, b.p)
  {
    hide IsFirst, IpKey, Printable;
  }

  // ---- a size on its way -------------------------------------------------------------------

  /** A fetched notice is published next, as the key of its address with its capacity. */
  lemma FetchedIsPublished(a: Side, act: Act, b: Side)
    requires ProcessorStep(a, act, b) && act.FetchSize?
    ensures b.p.RPublish? && b.p.msg == SizeOf(IpKey(act.n.ip), act.n.capacity) && act.n in a.notices
    ensures b.notices == a.notices - multiset{act.n}
  {
    hide IsFirst, Printable, IpKey;
  }

  /** Then its slot holds it. */
  lemma PublishedIsThere(a: Side, act: Act, b: Side)
    requires ProcessorStep(a, act, b) && a.p.RPublish?
    ensures act.PublishSize? && a.p.slot in b.comms && b.comms[a.p.slot] == a.p.msg
  {
    hide IsFirst, IpKey, Printable, Upsert;
  }

  /** What the receiver takes it puts into its table before it serves anyone. */
  lemma TakenIsPut(a: Side, act: Act, b: Side)
    requires ReceiverStep(a, act, b)
    ensures act.TakeSize? && act.i in a.comms ==> b.v == VUnlockTake(Some(a.comms[act.i])) && act.i !in b.comms
    ensures a.v.VUnlockTake? && a.v.taken.Some? ==> b.v == VPut(a.v.taken.value)
    ensures a.v.VPut? ==>
              act.PutSize? && a.v.size.SizeOf? && a.sizes.buckets != [] && |a.v.size.key| < KEY_SIZE
              && b.sizes == HashSpec.Put(a.sizes, a.v.size.key, a.v.size.capacity).0
  {
    hide TakeStep, GiveStep, EventStep, HashSpec.Put;
    if TakeStep(a, act, b) { PutByTake(a, act, b); }
    else if GiveStep(a, act, b) { GiveElsewhere(a, act, b); }
    else { EventElsewhere(a, act, b); }
  }

  lemma PutByTake(a: Side, act: Act, b: Side)
    requires TakeStep(a, act, b)
    ensures act.TakeSize? && act.i in a.comms ==> b.v == VUnlockTake(Some(a.comms[act.i])) && act.i !in b.comms
    ensures a.v.VUnlockTake? && a.v.taken.Some? ==> b.v == VPut(a.v.taken.value)
    ensures a.v.VPut? ==>
              act.PutSize? && a.v.size.SizeOf? && a.sizes.buckets != [] && |a.v.size.key| < KEY_SIZE
              && b.sizes == HashSpec.Put(a.sizes, a.v.size.key, a.v.size.capacity).0
  {
    hide IsFirst, HashSpec.Put;
  }

  lemma GiveElsewhere(a: Side, act: Act, b: Side)
    requires GiveStep(a, act, b)
    ensures !act.TakeSize? && !a.v.VUnlockTake? && !a.v.VPut?
  {
    hide IsFirst, HashSpec.Get;
  }

  lemma EventElsewhere(a: Side, act: Act, b: Side)
    requires EventStep(a, act, b)
    ensures !act.TakeSize? && !a.v.VUnlockTake? && !a.v.VPut?
  {
    hide IsFirst;
  }

  // ---- what the receiver gives -------------------------------------------------------------

  /** An attempt that finds no room. */
  predicate Missed(act: Act) {
    (act.TryData? || act.TryMsg?) && act.i < 0
  }

  /** How many attempts of the receiver have found no room from step `i` to step `j`. */
  function Misses(acts: seq<Act>, i: nat, j: nat): nat
    requires i <= j <= |acts|
  {
    if i == j then 0
    else Misses(acts, i, j - 1) + if Missed(acts[j - 1]) then 1 else 0
  }

  /** The receiver tries to give its message or its event. */
  predicate Giving(v: ReceiverPc) {
    v.VTryData? || v.VTryMsg?
  }

  function LeftOf(v: ReceiverPc): int {
    if Giving(v) then v.left else 0
  }

  lemma GiveAttempt(a: Side, act: Act, b: Side)
    requires Next(a, act, b) && Giving(b.v)
    ensures if Giving(a.v)
            then LeftOf(b.v) == LeftOf(a.v) - (if Missed(act) then 1 else 0) && (Missed(act) ==> LeftOf(b.v) >= 1)
            else (act.LockData? || act.LockMsg?) && LeftOf(b.v) == 3
  {
    hide ProcessorStep, TakeStep, GiveStep, EventStep, AroundStep;
    if ProcessorStep(a, act, b) { ProcessorGivesNothing(a, act, b); }
    else if TakeStep(a, act, b) { TakeGivesNothing(a, act, b); }
    else if GiveStep(a, act, b) { AttemptByGive(a, act, b); }
    else if EventStep(a, act, b) { AttemptByEvent(a, act, b); }
    else { AroundGivesNothing(a, act, b); }
  }

  lemma ProcessorGivesNothing(a: Side, act: Act, b: Side)
    requires ProcessorStep(a, act, b)
    ensures b.v == a.v && !Missed(act)
  {
    hide MsgStep, DataStep, SizeStep;
    if MsgStep(a, act, b) { MsgGivesNothing(a, act, b); }
    else if DataStep(a, act, b) { DataGivesNothing(a, act, b); }
    else { SizeGivesNothing(a, act, b); }
  }

  lemma AroundGivesNothing(a: Side, act: Act, b: Side)
    requires AroundStep(a, act, b)
    ensures b.v == a.v && !Missed(act)
  {
  }

  lemma MsgGivesNothing(a: Side, act: Act, b: Side)
    requires MsgStep(a, act, b)
    ensures b.v == a.v && !Missed(act)
  {
    hide IsFirst, Upsert;
  }

  lemma DataGivesNothing(a: Side, act: Act, b: Side)
    requires DataStep(a, act, b)
    ensures b.v == a.v && !Missed(act)
  {
    hide IsFirst;
  }

  lemma SizeGivesNothing(a: Side, act: Act, b: Side)
    requires SizeStep(a, act, b)
    ensures b.v == a.v && !Missed(act)
  {
    hide IsFirst, IpKey, Printable;
  }

  lemma TakeGivesNothing(a: Side, act: Act, b: Side)
    requires TakeStep(a, act, b)
    ensures !Giving(b.v) && !b.v.VUnlockData? && !b.v.VUnlockMsg?
  {
    hide IsFirst, HashSpec.Put;
  }

  lemma AttemptByGive(a: Side, act: Act, b: Side)
    requires GiveStep(a, act, b)
    ensures !b.v.VTryMsg? && !b.v.VUnlockMsg?
    ensures b.v.VTryData? ==>
              if Giving(a.v) then a.v.VTryData? && Missed(act) && a.v.left > 1 && b.v.left == a.v.left - 1
              else act == LockData && b.v.left == 3
    ensures b.v.VUnlockData? ==> act == PostData || (act.TryData? && act.i < 0 && a.v.VTryData? && a.v.left <= 1)
  {
    hide IsFirst, HashSpec.Get;
  }

  lemma AttemptByEvent(a: Side, act: Act, b: Side)
    requires EventStep(a, act, b)
    ensures !b.v.VTryData? && !b.v.VUnlockData?
    ensures b.v.VTryMsg? ==>
              if Giving(a.v) then a.v.VTryMsg? && Missed(act) && a.v.left > 1 && b.v.left == a.v.left - 1
              else act == LockMsg && b.v.left == 3
    ensures b.v.VUnlockMsg? ==> act == PostMsg || (act.TryMsg? && act.i < 0 && a.v.VTryMsg? && a.v.left <= 1)
  {
    hide IsFirst;
  }

  /** While the receiver tries, it has missed as often since it took the lock as it has attempts less. */
  lemma {:induction false} TriedSince(run: seq<Side>, acts: seq<Act>, n: nat) returns (f: nat)
    requires IsRun(run, acts) && n < |run| && Giving(run[n].v)
    ensures f < n && (acts[f].LockData? || acts[f].LockMsg?)
    ensures Misses(acts, f, n) == 3 - run[n].v.left && run[n].v.left >= 1
  {
    hide Next, Receiving.Init;
    if n == 0 {
      IdleAtFirst(run[0]);
    } else {
      assert Next(run[n - 1], acts[n - 1], run[n]);
      GiveAttempt(run[n - 1], acts[n - 1], run[n]);
      if Giving(run[n - 1].v) {
        f := TriedSince(run, acts, n - 1);
      } else {
        f := n - 1;
        assert Misses(acts, f, f) == 0;
      }
    }
  }

  lemma IdleAtFirst(st: Side)
    requires Receiving.Init(st)
    ensures st.v.VIdle?
  {
  }

  /** The receiver releases a lock only after the message is in a slot and announced, or after three attempts have
      found none free. */
  lemma GivenOrDropped(run: seq<Side>, acts: seq<Act>, n: nat) returns (f: nat)
    requires IsRun(run, acts) && n < |acts| && ReceiverStep(run[n], acts[n], run[n + 1])
    requires run[n + 1].v.VUnlockData? || run[n + 1].v.VUnlockMsg?
    ensures acts[n].PostData? || acts[n].PostMsg? || (f < n && Missed(acts[n]) && Misses(acts, f, n + 1) == 3)
  {
    hide Next, Receiving.Init, TakeStep, GiveStep, EventStep;
    f := 0;
    if TakeStep(run[n], acts[n], run[n + 1]) { TakeGivesNothing(run[n], acts[n], run[n + 1]); }
    else if GiveStep(run[n], acts[n], run[n + 1]) { AttemptByGive(run[n], acts[n], run[n + 1]); }
    else { AttemptByEvent(run[n], acts[n], run[n + 1]); }
    if !acts[n].PostData? && !acts[n].PostMsg? { f := TriedSince(run, acts, n); }
  }
}
