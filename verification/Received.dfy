/** What becomes of what the receiver hands over: rows of messages, and rows of connections. */
module Received {
  import opened Text
  import opened Tables
  import opened Channels
  import opened HashSpec
  import opened Receiving
  import opened ReceivingInv
  import opened ReceivingRuns

  // ---- every message taken out is a row, or was given up -----------------------------------

  /** The message of a last failed attempt. */
  function GivenUp(a: Side, act: Act): multiset<NewMsg> {
    if act.DataFails? && a.p.RStoreData? && a.p.left <= 1 && a.p.slot in a.datas
    then multiset{a.datas[a.p.slot]} else multiset{}
  }

  /** The message of a successful attempt. */
  function Kept(a: Side, act: Act): seq<NewMsg> {
    if act.StoreData? && a.p.RStoreData? && a.p.slot in a.datas then [a.datas[a.p.slot]] else []
  }

  /** All messages given up in the first `n` steps. */
  function GivenUpIn(run: seq<Side>, acts: seq<Act>, n: nat): multiset<NewMsg>
    requires n < |run| == |acts| + 1
  {
    if n == 0 then multiset{} else GivenUpIn(run, acts, n - 1) + GivenUp(run[n - 1], acts[n - 1])
  }

  /** A step adds the message of a successful attempt to the rows, and nothing else; the slot in hand is the one
      of the last attempt, until it is cleared. */
  ghost predicate Accounted(a: Side, act: Act, b: Side) {
    && b.rows == a.rows + Kept(a, act)
    && Handled(b) + Taken(a, act) == Handled(a) + multiset(Kept(a, act)) + GivenUp(a, act)
  }

  lemma AccountedByMsg(a: Side, act: Act, b: Side)
    requires MsgStep(a, act, b)
    ensures Accounted(a, act, b)
  {
    hide IsFirst, Upsert;
  }

  lemma AccountedByData(a: Side, act: Act, b: Side)
    requires Found(a) && DataStep(a, act, b)
    ensures Accounted(a, act, b)
  {
    hide IsFirst;
  }

  lemma AccountedBySize(a: Side, act: Act, b: Side)
    requires SizeStep(a, act, b)
    ensures Accounted(a, act, b)
  {
    hide IsFirst, IpKey, Printable;
  }

  lemma AccountedByReceiver(a: Side, act: Act, b: Side)
    requires Found(a) && ReceiverStep(a, act, b)
    ensures Accounted(a, act, b)
  {
    hide ReceiverStep, IsFirst;
    ReceiverLeavesRows(a, act, b);
    ReceiverTriesNothing(a, act, b);
  }

  lemma ReceiverTriesNothing(a: Side, act: Act, b: Side)
    requires ReceiverStep(a, act, b)
    ensures !act.StoreData? && !act.DataFails?
  {
    hide IsFirst, HashSpec.Put, HashSpec.Get;
  }

  lemma AccountedStep(a: Side, act: Act, b: Side)
    requires Found(a) && Next(a, act, b)
    ensures Accounted(a, act, b)
  {
    hide MsgStep, DataStep, SizeStep, ReceiverStep, Found, Accounted;
    if MsgStep(a, act, b) { AccountedByMsg(a, act, b); }
    else if DataStep(a, act, b) { AccountedByData(a, act, b); }
    else if SizeStep(a, act, b) { AccountedBySize(a, act, b); }
    else if ReceiverStep(a, act, b) { AccountedByReceiver(a, act, b); }
    else { AccountedAround(a, act, b); }
  }

  lemma AccountedAround(a: Side, act: Act, b: Side)
    requires AroundStep(a, act, b)
    ensures Accounted(a, act, b)
  {
  }

  /** Conservation: at any moment of any run, the messages taken out of the data block, and the one in hand, are
      exactly the rows and those given up. */
  lemma {:induction false} TakenAreRows(run: seq<Side>, acts: seq<Act>, n: nat)
    requires IsRun(run, acts) && n <= |acts|
    ensures DrainedIn(DatasEvents(run, acts), n) + Handled(run[n]) == multiset(run[n].rows) + GivenUpIn(run, acts, n)
  {
    hide Next, Handled, DatasEvent, Locks, Found, Directed, Covered, GivenUp, Kept;
    if n == 0 {
      NothingHandled(run[0]);
    } else {
      TakenAreRows(run, acts, n - 1);
      RunInv(run, acts, n - 1);
      assert Next(run[n - 1], acts[n - 1], run[n]);
      AccountedStep(run[n - 1], acts[n - 1], run[n]);
      var kept := Kept(run[n - 1], acts[n - 1]);
      assert multiset(run[n].rows) == multiset(run[n - 1].rows) + multiset(kept);
      BothSides(DrainedIn(DatasEvents(run, acts), n - 1), Handled(run[n - 1]), multiset(run[n - 1].rows),
                GivenUpIn(run, acts, n - 1), Taken(run[n - 1], acts[n - 1]), Handled(run[n]), multiset(kept),
                GivenUp(run[n - 1], acts[n - 1]));
    }
  }

  lemma NothingHandled(st: Side)
    requires Receiving.Init(st)
    ensures Handled(st) == multiset{}
  {
  }

  lemma BothSides<M>(drained: multiset<M>, h0: multiset<M>, rows: multiset<M>, lost: multiset<M>,
                     taken: multiset<M>, h1: multiset<M>, kept: multiset<M>, given: multiset<M>)
    requires drained + h0 == rows + lost && h1 + taken == h0 + kept + given
    ensures (drained + taken) + h1 == (rows + kept) + (lost + given)
  {
    forall m ensures ((drained + taken) + h1)[m] == ((rows + kept) + (lost + given))[m] {
      assert (drained + h0)[m] == (rows + lost)[m] && (h1 + taken)[m] == (h0 + kept + given)[m];
    }
  }

  /** How many attempts have failed from step `i` to step `j`. */
  function Fails(acts: seq<Act>, i: nat, j: nat): nat
    requires i <= j <= |acts|
  {
    if i == j then 0 else Fails(acts, i, j - 1) + if acts[j - 1].DataFails? then 1 else 0
  }

  /** While the processor tries, it has failed as often since it found the message as it has attempts less. */
  lemma {:induction false} TriedSince(run: seq<Side>, acts: seq<Act>, n: nat) returns (f: nat)
    requires IsRun(run, acts) && n < |run| && run[n].p.RStoreData?
    ensures f < n && acts[f] == FindData(run[n].p.slot)
    ensures Fails(acts, f, n) == 3 - run[n].p.left && run[n].p.left >= 1
  {
    hide Next, Receiving.Init;
    if n == 0 {
      NotStoringAtFirst(run[0]);
    } else {
      assert Next(run[n - 1], acts[n - 1], run[n]);
      Attempt(run[n - 1], acts[n - 1], run[n]);
      if run[n - 1].p.RStoreData? {
        f := TriedSince(run, acts, n - 1);
      } else {
        f := n - 1;
        assert Fails(acts, f, f) == 0;
      }
    }
  }

  lemma NotStoringAtFirst(st: Side)
    requires Receiving.Init(st)
    ensures !st.p.RStoreData? && !st.p.RStoreMsg? && !st.p.REraseMsg?
  {
  }

  lemma Attempt(a: Side, act: Act, b: Side)
    requires Next(a, act, b) && b.p.RStoreData?
    ensures if a.p.RStoreData?
            then a.p.slot == b.p.slot
              && (if act.DataFails? then a.p.left > 1 && b.p.left == a.p.left - 1 else b.p.left == a.p.left)
            else act == FindData(b.p.slot) && b.p.left == 3
  {
    hide MsgStep, SizeStep, DataStep, ReceiverStep;
    if MsgStep(a, act, b) { MsgElsewhere(a, act, b); }
    else if DataStep(a, act, b) { AttemptByData(a, act, b); }
    else if SizeStep(a, act, b) { SizeElsewhere(a, act, b); }
    else if ReceiverStep(a, act, b) { ReceiverLeavesRows(a, act, b); ReceiverTriesNothing(a, act, b); }
  }

  lemma MsgElsewhere(a: Side, act: Act, b: Side)
    requires MsgStep(a, act, b)
    ensures !b.p.RStoreData?
  {
    hide IsFirst, Upsert;
  }

  lemma SizeElsewhere(a: Side, act: Act, b: Side)
    requires SizeStep(a, act, b)
    ensures !b.p.RStoreData?
  {
    hide IsFirst, IpKey, Printable;
  }

  lemma AttemptByData(a: Side, act: Act, b: Side)
    requires DataStep(a, act, b) && b.p.RStoreData?
    ensures if a.p.RStoreData?
            then a.p.slot == b.p.slot && act.DataFails? && a.p.left > 1 && b.p.left == a.p.left - 1
            else act == FindData(b.p.slot) && b.p.left == 3
  {
    hide IsFirst;
  }

  /** A message is given up only after three attempts, the last of which is this one. */
  lemma GivenUpAfterThree(run: seq<Side>, acts: seq<Act>, n: nat) returns (f: nat)
    requires IsRun(run, acts) && n < |acts| && GivenUp(run[n], acts[n]) != multiset{}
    ensures f < n && acts[f] == FindData(run[n].p.slot) && Fails(acts, f, n + 1) == 3
  {
    hide Next, Receiving.Init;
    f := TriedSince(run, acts, n);
  }

  // ---- what is handed over -----------------------------------------------------------------

  /** The receiver's hands hold what it last read from the socket, or the last change of a connection. */
  lemma {:induction false} InHandIsReceived(run: seq<Side>, acts: seq<Act>, n: nat) returns (j: nat)
    requires IsRun(run, acts) && n < |run| && (run[n].v.VGiveData? || run[n].v.VTryData?)
    ensures j < n && acts[j] == Receive(run[n].v.msg.fd, run[n].v.msg.data)
    ensures forall i :: j < i < n ==> !acts[i].Receive?
  {
    hide Next, Receiving.Init;
    if n == 0 {
      IdleAtFirst(run[0]);
    } else {
      assert Next(run[n - 1], acts[n - 1], run[n]);
      DataInHand(run[n - 1], acts[n - 1], run[n]);
      if acts[n - 1].Receive? { j := n - 1; } else { j := InHandIsReceived(run, acts, n - 1); }
    }
  }

  lemma IdleAtFirst(st: Side)
    requires Receiving.Init(st)
    ensures st.v.VIdle?
  {
  }

  lemma DataInHand(a: Side, act: Act, b: Side)
    requires Next(a, act, b) && (b.v.VGiveData? || b.v.VTryData?)
    ensures if act.Receive? then b.v.msg == NewMsg(act.fd, act.data)
            else (a.v.VGiveData? || a.v.VTryData?) && a.v.msg == b.v.msg
  {
    hide ProcessorStep, TakeStep, EventStep, GiveStep;
    if ProcessorStep(a, act, b) { ProcessorLeavesHands(a, act, b); }
    else if TakeStep(a, act, b) { TakeElsewhere(a, act, b); }
    else if GiveStep(a, act, b) { DataByGive(a, act, b); }
    else if EventStep(a, act, b) { EventElsewhere(a, act, b); }
  }

  lemma ProcessorLeavesHands(a: Side, act: Act, b: Side)
    requires ProcessorStep(a, act, b)
    ensures b.v == a.v && !act.Receive? && !act.Event?
  {
    hide MsgStep, DataStep, SizeStep;
    if MsgStep(a, act, b) { MsgLeavesHands(a, act, b); }
    else if DataStep(a, act, b) { DataLeavesHands(a, act, b); }
    else { SizeLeavesHands(a, act, b); }
  }

  lemma MsgLeavesHands(a: Side, act: Act, b: Side)
    requires MsgStep(a, act, b)
    ensures b.v == a.v && !act.Receive? && !act.Event?
  {
    hide IsFirst, Upsert;
  }

  lemma DataLeavesHands(a: Side, act: Act, b: Side)
    requires DataStep(a, act, b)
    ensures b.v == a.v && !act.Receive? && !act.Event?
  {
    hide IsFirst;
  }

  lemma SizeLeavesHands(a: Side, act: Act, b: Side)
    requires SizeStep(a, act, b)
    ensures b.v == a.v && !act.Receive? && !act.Event?
  {
    hide IsFirst, IpKey, Printable;
  }

  lemma TakeElsewhere(a: Side, act: Act, b: Side)
    requires TakeStep(a, act, b)
    ensures !b.v.VGiveData? && !b.v.VTryData? && !b.v.VGiveMsg? && !b.v.VTryMsg?
  {
    hide IsFirst, HashSpec.Put;
  }

  lemma DataByGive(a: Side, act: Act, b: Side)
    requires GiveStep(a, act, b)
    ensures !b.v.VGiveMsg? && !b.v.VTryMsg?
    ensures b.v.VGiveData? || b.v.VTryData? ==>
              if act.Receive? then b.v.msg == NewMsg(act.fd, act.data)
              else (a.v.VGiveData? || a.v.VTryData?) && a.v.msg == b.v.msg
  {
    hide IsFirst, HashSpec.Get;
  }

  lemma EventElsewhere(a: Side, act: Act, b: Side)
    requires EventStep(a, act, b)
    ensures !b.v.VGiveData? && !b.v.VTryData?
    ensures b.v.VGiveMsg? || b.v.VTryMsg? ==>
              if act.Event? then b.v.event == ConnEvent(act.fd, act.ip, act.status)
              else (a.v.VGiveMsg? || a.v.VTryMsg?) && a.v.event == b.v.event
  {
    hide IsFirst;
  }

  /** What is put into the data block is what was last read from a socket: the descriptor and all the bytes. */
  lemma GivenIsReceived(run: seq<Side>, acts: seq<Act>, n: nat) returns (j: nat)
    requires IsRun(run, acts) && n < |acts| && DatasEvent(run[n], acts[n]).Stored?
    ensures var m := DatasEvent(run[n], acts[n]).msg;
            j < n && acts[j] == Receive(m.fd, m.data) && forall i :: j < i < n ==> !acts[i].Receive?
  {
    hide Next, Receiving.Init;
    j := InHandIsReceived(run, acts, n);
  }

  lemma {:induction false} EventInHand(run: seq<Side>, acts: seq<Act>, n: nat) returns (j: nat)
    requires IsRun(run, acts) && n < |run| && (run[n].v.VGiveMsg? || run[n].v.VTryMsg?)
    ensures run[n].v.event.ConnEvent?
    ensures j < n && acts[j] == Event(run[n].v.event.fd, run[n].v.event.ip, run[n].v.event.status)
  {
    hide Next, Receiving.Init;
    if n == 0 {
      IdleAtFirst(run[0]);
    } else {
      assert Next(run[n - 1], acts[n - 1], run[n]);
      EventHeld(run[n - 1], acts[n - 1], run[n]);
      if acts[n - 1].Event? { j := n - 1; } else { j := EventInHand(run, acts, n - 1); }
    }
  }

  lemma EventHeld(a: Side, act: Act, b: Side)
    requires Next(a, act, b) && (b.v.VGiveMsg? || b.v.VTryMsg?)
    ensures if act.Event? then b.v.event == ConnEvent(act.fd, act.ip, act.status)
            else (a.v.VGiveMsg? || a.v.VTryMsg?) && a.v.event == b.v.event
  {
    hide ProcessorStep, TakeStep, EventStep, GiveStep;
    if ProcessorStep(a, act, b) { ProcessorLeavesHands(a, act, b); }
    else if TakeStep(a, act, b) { TakeElsewhere(a, act, b); }
    else if GiveStep(a, act, b) { DataByGive(a, act, b); }
    else if EventStep(a, act, b) { EventElsewhere(a, act, b); }
  }

  // ---- rows of connections -----------------------------------------------------------------

  /** The step stores this change of the connection with descriptor `fd`. */
  predicate Stores(st: Side, act: Act, fd: int, ip: int, status: int) {
    act.StoreMsg? && st.p.RStoreMsg? && st.p.slot in st.comms && st.comms[st.p.slot] == ConnEvent(fd, ip, status)
  }

  /** A known descriptor keeps its address and takes the new status; an unknown one gets both; no other row
      changes, and no other step changes any. */
  lemma ConnStored(a: Side, act: Act, b: Side, fd: int)
    requires Next(a, act, b)
    ensures forall ip, status :: Stores(a, act, fd, ip, status) ==>
              fd in b.conns && b.conns[fd].status == status && b.conns[fd].ip == if fd in a.conns then a.conns[fd].ip
                else ip
    ensures (forall ip, status :: !Stores(a, act, fd, ip, status)) ==>
              (fd in b.conns <==> fd in a.conns) && (fd in a.conns ==> b.conns[fd] == a.conns[fd])
  {
    hide MsgStep, DataStep, SizeStep, ReceiverStep;
    if MsgStep(a, act, b) { ConnByMsg(a, act, b, fd); }
    else { ConnByOthers(a, act, b); }
  }

  lemma ConnByMsg(a: Side, act: Act, b: Side, fd: int)
    requires MsgStep(a, act, b)
    ensures forall ip, status :: Stores(a, act, fd, ip, status) ==>
              fd in b.conns && b.conns[fd].status == status && b.conns[fd].ip == if fd in a.conns then a.conns[fd].ip
                else ip
    ensures (forall ip, status :: !Stores(a, act, fd, ip, status)) ==>
              (fd in b.conns <==> fd in a.conns) && (fd in a.conns ==> b.conns[fd] == a.conns[fd])
  {
    hide IsFirst;
    if act.StoreMsg? && a.p.RStoreMsg? && a.p.slot in a.comms && a.comms[a.p.slot].ConnEvent? {
      var m := a.comms[a.p.slot];
      assert Stores(a, act, m.fd, m.ip, m.status);
    }
  }

  lemma ConnByOthers(a: Side, act: Act, b: Side)
    requires DataStep(a, act, b) || SizeStep(a, act, b) || ReceiverStep(a, act, b) || AroundStep(a, act, b)
    ensures b.conns == a.conns && !act.StoreMsg?
  {
    hide DataStep, SizeStep, ReceiverStep;
    if DataStep(a, act, b) { ConnByData(a, act, b); }
    else if SizeStep(a, act, b) { ConnBySize(a, act, b); }
    else if ReceiverStep(a, act, b) { ConnByReceiver(a, act, b); }
  }

  lemma ConnByData(a: Side, act: Act, b: Side)
    requires DataStep(a, act, b)
    ensures b.conns == a.conns && !act.StoreMsg?
  {
    hide IsFirst;
  }

  lemma ConnBySize(a: Side, act: Act, b: Side)
    requires SizeStep(a, act, b)
    ensures b.conns == a.conns && !act.StoreMsg?
  {
    hide IsFirst, IpKey, Printable;
  }

  lemma ConnByReceiver(a: Side, act: Act, b: Side)
    requires ReceiverStep(a, act, b)
    ensures b.conns == a.conns && !act.StoreMsg?
  {
    hide IsFirst, HashSpec.Put, HashSpec.Get;
  }

  /** In any run each connection has the address of the first change stored for its descriptor, and the status of
      the last. */
  lemma {:induction false} ConnsFromEvents(run: seq<Side>, acts: seq<Act>, n: nat, fd: int) returns (i: nat, j: nat)
    requires IsRun(run, acts) && n < |run| && fd in run[n].conns
    ensures i <= j < n
    ensures exists status :: Stores(run[i], acts[i], fd, run[n].conns[fd].ip, status)
    ensures exists ip :: Stores(run[j], acts[j], fd, ip, run[n].conns[fd].status)
    ensures forall k, ip, status :: j < k < n ==> !Stores(run[k], acts[k], fd, ip, status)
    ensures fd !in run[i].conns
  {
    hide Next, Stores;
    if n > 0 {
      var a, act := run[n - 1], acts[n - 1];
      assert Next(a, act, run[n]);
      ConnStored(a, act, run[n], fd);
      if ip, status :| Stores(a, act, fd, ip, status) {
        j := n - 1;
        if fd in a.conns {
          i, j := ConnsFromEvents(run, acts, n - 1, fd);
          j := n - 1;
        } else {
          i := n - 1;
        }
      } else {
        i, j := ConnsFromEvents(run, acts, n - 1, fd);
      }
    }
  }

  // ---- attempts with changes of connections ------------------------------------------------

  function MsgFailures(acts: seq<Act>, i: nat, j: nat): nat
    requires i <= j <= |acts|
  {
    if i == j then 0 else MsgFailures(acts, i, j - 1) + if acts[j - 1].MsgFails? then 1 else 0
  }

  lemma MsgAttempt(a: Side, act: Act, b: Side)
    requires Next(a, act, b) && (b.p.RStoreMsg? || b.p.REraseMsg?)
    ensures || b.p == a.p
            || (a.p.RRead? && b.p.RStoreMsg? && act == FindMsg(b.p.slot) && b.p.left == 3)
            || (a.p.RStoreMsg? && a.p.slot == b.p.slot && act.MsgFails?
                && if b.p.RStoreMsg? then a.p.left > 1 && b.p.left == a.p.left - 1 else a.p.left <= 1)
            || (a.p.RStoreMsg? && a.p.slot == b.p.slot && act.StoreMsg? && b.p.REraseMsg?)
    ensures b.p == a.p ==> !act.MsgFails?
  {
    hide MsgStep, DataStep, SizeStep, ReceiverStep;
    if MsgStep(a, act, b) { MsgAttemptBy(a, act, b); }
    else if DataStep(a, act, b) { DataHasNoMsg(a, act, b); }
    else if SizeStep(a, act, b) { SizeHasNoMsg(a, act, b); }
    else if ReceiverStep(a, act, b) { ReceiverHasNoMsg(a, act, b); }
  }

  lemma MsgAttemptBy(a: Side, act: Act, b: Side)
    requires MsgStep(a, act, b) && (b.p.RStoreMsg? || b.p.REraseMsg?)
    ensures || (a.p.RRead? && b.p.RStoreMsg? && act == FindMsg(b.p.slot) && b.p.left == 3)
            || (a.p.RStoreMsg? && a.p.slot == b.p.slot && act.MsgFails?
                && if b.p.RStoreMsg? then a.p.left > 1 && b.p.left == a.p.left - 1 else a.p.left <= 1)
            || (a.p.RStoreMsg? && a.p.slot == b.p.slot && act.StoreMsg? && b.p.REraseMsg?)
    ensures b.p != a.p
  {
    hide IsFirst, Upsert;
  }

  lemma DataHasNoMsg(a: Side, act: Act, b: Side)
    requires DataStep(a, act, b)
    ensures !b.p.RStoreMsg? && !b.p.REraseMsg?
  {
    hide IsFirst;
  }

  lemma SizeHasNoMsg(a: Side, act: Act, b: Side)
    requires SizeStep(a, act, b)
    ensures !b.p.RStoreMsg? && !b.p.REraseMsg?
  {
    hide IsFirst, IpKey, Printable;
  }

  lemma ReceiverHasNoMsg(a: Side, act: Act, b: Side)
    requires ReceiverStep(a, act, b)
    ensures b.p == a.p && !act.MsgFails?
  {
    hide IsFirst, HashSpec.Put, HashSpec.Get;
  }

  /** While the processor tries, it has failed as often since it found the change as it has attempts less; when it
      clears the slot, the change has been stored at step `k`, or the third attempt has failed there. */
  lemma {:induction false} MsgTriedSince(run: seq<Side>, acts: seq<Act>, n: nat) returns (f: nat, k: nat)
    requires IsRun(run, acts) && n < |run| && (run[n].p.RStoreMsg? || run[n].p.REraseMsg?)
    ensures f < n && acts[f] == FindMsg(run[n].p.slot)
    ensures run[n].p.RStoreMsg? ==> MsgFailures(acts, f, n) == 3 - run[n].p.left && run[n].p.left >= 1
    ensures run[n].p.REraseMsg? ==>
              f < k < n && run[k].p.RStoreMsg? && run[k].p.slot == run[n].p.slot
              && (acts[k].StoreMsg? || (acts[k].MsgFails? && MsgFailures(acts, f, k + 1) == 3))
  {
    hide Next, Receiving.Init;
    if n == 0 {
      NotStoringAtFirst(run[0]);
    } else {
      assert Next(run[n - 1], acts[n - 1], run[n]);
      MsgAttempt(run[n - 1], acts[n - 1], run[n]);
      if run[n - 1].p.RStoreMsg? || run[n - 1].p.REraseMsg? {
        f, k := MsgTriedSince(run, acts, n - 1);
        if run[n].p.REraseMsg? && run[n - 1].p.RStoreMsg? { k := n - 1; }
      } else {
        f, k := n - 1, n - 1;
        assert MsgFailures(acts, f, f) == 0;
      }
    }
  }
}
