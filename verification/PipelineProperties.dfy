/** What the invariant of the sending side means, and how its two blocks behave as channels. */
module PipelineProperties {
  import opened Text
  import opened Tables
  import opened Channels
  import opened Pipeline
  import opened PipelineInv

  // ---- one state ---------------------------------------------------------------------------

  /** Slot `j` holds the status of job `id`, and it is not yet in the database. */
  predicate StatusOf(st: Pipe, j: nat, id: Id) {
    j in st.comms && st.comms[j].MsgStatus? && st.comms[j].uuid == id && st.p != PErase(j, true)
  }

  predicate DataOf(st: Pipe, i: nat, id: Id) {
    i in st.datas && st.datas[i].uuid == id
  }

  /** The sender is sending job `id`. */
  predicate InHands(st: Pipe, id: Id) {
    st.s.SSend? && st.s.dmsg.uuid == id
  }

  /** A job is in at most one data slot, or in the sender's hands, or in one status slot; and while it is in
      one of them, its row is in S-4W. */
  lemma OneHandOver(st: Pipe, id: Id)
    requires Inv(st)
    ensures forall i, j :: DataOf(st, i, id) && DataOf(st, j, id) ==> i == j
    ensures forall i, j :: StatusOf(st, i, id) && StatusOf(st, j, id) ==> i == j
    ensures forall i, j :: !(DataOf(st, i, id) && StatusOf(st, j, id))
    ensures InHands(st, id) ==> forall i :: !DataOf(st, i, id) && !StatusOf(st, i, id)
    ensures (exists i :: DataOf(st, i, id) || StatusOf(st, i, id)) || InHands(st, id) ==> InS4W(st.t, id)
  {
    hide Locks, Found, Directed, Numbered, Covered;
    forall i | DataOf(st, i, id) ensures TokenAt(st, DataSlot(i)) == Some(JobTok(id)) { }
    forall j | StatusOf(st, j, id) ensures TokenAt(st, CommSlot(j)) == Some(JobTok(id)) { }
    if InHands(st, id) { assert TokenAt(st, AtSender) == Some(JobTok(id)); }
  }

  predicate InS4W(t: Tables, id: Id) {
    id in t.jobs && t.jobs[id].state == S4W
  }

  /** No lost wake-up. When the sender waits, its semaphore covers all full slots of both blocks meant for
      it, but for one whose post is the processor's very next step; likewise for the processor. */
  lemma NoLostWakeUp(st: Pipe)
    requires Inv(st)
    ensures st.s.SIdle? ==> Downs(st.comms) + Held(st.datas) <= st.sigs + Posting(st.p)
    ensures st.p.PIdle? ==> Ups(st.comms) <= st.sigps + if st.s.SPost? then 1 else 0
  {
    hide Locks, Found, Directed, Numbered, Tokens, Downs, Ups, Held;
  }

  /** Both programs wait, and neither semaphore lets them go on. */
  predicate Asleep(st: Pipe) {
    st.p.PIdle? && st.s.SIdle? && st.sigps == 0 && st.sigs == 0
  }

  /** When both programs sleep, nothing is left in any slot. */
  lemma AsleepMeansEmpty(st: Pipe)
    requires Inv(st) && Asleep(st)
    ensures st.comms == map[] && st.datas == map[]
  {
    hide Locks, Found, Directed, Numbered, Tokens;
    assert Below(st.comms.Keys) == {} && Above(st.comms.Keys) == {};
    assert forall i :: i in st.comms.Keys ==> i in Below(st.comms.Keys) || i in Above(st.comms.Keys);
    assert st.comms.Keys == {} && st.datas.Keys == {};
  }

  ghost predicate CanMove(st: Pipe) {
    exists act, next :: ProcessorStep(st, act, next) || SenderStep(st, act, next)
  }

  /** The processor waits for the semaphore, or for a lock. */
  predicate ProcessorWaits(st: Pipe) {
    || (st.p.PIdle? && st.sigps == 0)
    || ((st.p.PRead? || st.p.PSearch?) && st.commLock != Free)
    || (st.p.PGive? && st.dataLock != Free)
  }

  predicate SenderWaits(st: Pipe) {
    || (st.s.SIdle? && st.sigs == 0)
    || ((st.s.STake? || st.s.SReport?) && st.commLock != Free)
    || (st.s.STakeData? && st.dataLock != Free)
  }

  /** An act the processor can do next, when it does not wait; a statement may always fail. */
  lemma ProcessorMoves(st: Pipe) returns (act: Act, next: Pipe)
    requires Found(st) && !ProcessorWaits(st)
    ensures ProcessorStep(st, act, next)
  {
    hide ReadStep, RequestStep, GiveStep;
    if Reading(st.p) { act, next := ReadMoves(st); }
    else if Requesting(st.p) { act, next := RequestMoves(st); }
    else { act, next := GiveMoves(st); }
  }

  predicate Reading(p: ProcessorPc) {
    p.PIdle? || p.PRead? || p.PStore? || p.PDelete? || p.PErase? || p.PUnlockRead?
  }

  predicate Requesting(p: ProcessorPc) {
    p.PSearch? || p.PSelect? || p.PMark? || p.PPublish? || p.PPostComm? || p.PUnlockSend?
  }

  lemma ReadMoves(st: Pipe) returns (act: Act, next: Pipe)
    requires Found(st) && !ProcessorWaits(st) && Reading(st.p)
    ensures ReadStep(st, act, next)
  {
    match st.p
    case PIdle => act, next := Wake, st.(p := PRead, sigps := st.sigps - 1);
    case PRead =>
      var i := FirstExists(st.comms.Keys, 1, 2);
      act, next := FindStatus(i), st.(commLock := Processor, p := if i == -1 then PUnlockRead else PStore(i, ATTEMPTS));
    case PStore(slot, left) =>
      act, next := StoreFails, st.(p := if left > 1 then PStore(slot, left - 1) else PErase(slot, false));
    case PDelete(slot, left) =>
      act, next := StoreFails, st.(p := if left > 1 then PStore(slot, left - 1) else PErase(slot, false));
    case PErase(slot, done) => act, next := Erase, st.(comms := st.comms - {slot}, p := PUnlockRead);
    case PUnlockRead => act, next := UnlockRead, st.(commLock := Free, p := PSearch);
  }

  lemma RequestMoves(st: Pipe) returns (act: Act, next: Pipe)
    requires Found(st) && !ProcessorWaits(st) && Requesting(st.p)
    ensures RequestStep(st, act, next)
  {
    match st.p
    case PSearch =>
      var i := FirstExists(st.comms.Keys, 0, 1);
      act, next := FindRoom(i), st.(commLock := Processor, p := if i == -1 then PUnlockSend else PSelect(i));
    case PSelect(slot) => act, next := RequestFails, st.(p := PUnlockSend);
    case PMark(slot, key) => act, next := RequestFails, st.(p := PUnlockSend);
    case PPublish(slot, msg) => act, next := PublishRequest, st.(comms := st.comms[slot := msg], p := PPostComm);
    case PPostComm => act, next := PostRequest, st.(sigs := st.sigs + 1, p := PUnlockSend);
    case PUnlockSend => act, next := UnlockSend, st.(commLock := Free, p := PGive);
  }

  lemma GiveMoves(st: Pipe) returns (act: Act, next: Pipe)
    requires Found(st) && !ProcessorWaits(st) && !Reading(st.p) && !Requesting(st.p)
    ensures GiveStep(st, act, next)
  {
    match st.p
    case PGive =>
      var i := FirstExists(st.datas.Keys, 0, 3);
      act, next := FindDataRoom(i), st.(dataLock := Processor, p := if i == -1 then PUnlockGive else PFetch(i));
    case PFetch(slot) => act, next := FetchFails, st.(p := PUnlockGive);
    case PPublishData(slot, dmsg) =>
      act, next := PublishJob, st.(datas := st.datas[slot := dmsg], p := PPostData);
    case PPostData => act, next := PostJob, st.(sigs := st.sigs + 1, p := PUnlockGive);
    case PUnlockGive => act, next := UnlockGive, st.(dataLock := Free, p := PIdle);
  }

  lemma SenderMoves(st: Pipe) returns (act: Act, next: Pipe)
    requires !SenderWaits(st) && (st.s.SAct? ==> Down(st.s.msg))
    ensures SenderStep(st, act, next)
  {
    hide TakeStep, ReportStep, SendStep;
    if Taking(st.s) { act, next := TakeMoves(st); }
    else if Reporting(st.s) { act, next := ReportMoves(st); }
    else { act, next := SendMoves(st); }
  }

  predicate Taking(s: SenderPc) {
    s.SIdle? || s.STake? || s.SUnlockMsg? || s.SAct?
  }

  predicate Reporting(s: SenderPc) {
    s.SReport? || s.SPost? || s.SUnlockReport?
  }

  lemma TakeMoves(st: Pipe) returns (act: Act, next: Pipe)
    requires !SenderWaits(st) && (st.s.SAct? ==> Down(st.s.msg)) && Taking(st.s)
    ensures TakeStep(st, act, next)
  {
    match st.s
    case SIdle => act, next := SenderWake, st.(s := STake, sigs := st.sigs - 1);
    case STake =>
      var i := FirstExists(st.comms.Keys, 1, 1);
      act := TakeRequest(i);
      next := if i in st.comms then st.(commLock := Sender, s := SUnlockMsg(Some(st.comms[i])), comms := st.comms - {i})
              else st.(commLock := Sender, s := SUnlockMsg(None));
    case SUnlockMsg(taken) =>
      act := UnlockTaken;
      next := st.(commLock := Free,
                  s := if taken.None? then STakeData(false)
                       else if Down(taken.value) then SAct(taken.value) else STakeData(true));
    case SAct(msg) =>
      act := if msg.OpenConn? then DoOpen(-1) else DoClose;
      next := st.(s := SReport(ConnStatus(-1, msg.ip, msg.comm)));
  }

  lemma ReportMoves(st: Pipe) returns (act: Act, next: Pipe)
    requires !SenderWaits(st) && Reporting(st.s)
    ensures ReportStep(st, act, next)
  {
    match st.s
    case SReport(status) =>
      var i := FirstExists(st.comms.Keys, 0, 2);
      act := PutStatus(i);
      next := if i >= 0 then st.(commLock := Sender, s := SPost(status), comms := st.comms[i := status])
              else st.(commLock := Sender, s := SUnlockReport(status));
    case SPost(after) => act, next := PostStatus, st.(sigps := st.sigps + 1, s := SUnlockReport(after));
    case SUnlockReport(after) =>
      act, next := UnlockPut, st.(commLock := Free, s := if after.MsgStatus? then SIdle else STakeData(true));
  }

  lemma SendMoves(st: Pipe) returns (act: Act, next: Pipe)
    requires !SenderWaits(st) && !Taking(st.s) && !Reporting(st.s)
    ensures SendStep(st, act, next)
  {
    match st.s
    case STakeData(found) =>
      var i := FirstExists(st.datas.Keys, 1, 3);
      act := TakeJob(i);
      next := if i in st.datas
              then st.(dataLock := Sender, s := SUnlockData(found, Some(st.datas[i])), datas := st.datas - {i})
              else st.(dataLock := Sender, s := SUnlockData(found, None));
    case SUnlockData(found, data) =>
      act, next := UnlockJob, st.(dataLock := Free, s := if data.Some? then SSend(data.value) else SIdle);
    case SSend(dmsg) => act, next := DoSend(true), st.(s := SReport(MsgStatus(true, dmsg.uuid)));
  }

  /** The two programs never block each other: unless both sleep, one of them can take a step. */
  lemma NeverStuck(st: Pipe)
    requires Inv(st) && !Asleep(st)
    ensures CanMove(st)
  {
    hide Numbered, Tokens, Covered, ProcessorStep, SenderStep;
    if !ProcessorWaits(st) {
      var act, next := ProcessorMoves(st);
    } else {
      var act, next := SenderMoves(st);
    }
  }

  // ---- one step ----------------------------------------------------------------------------

  /** All that a step can do to the tables. */
  predicate TablesEffect(a: Pipe, act: Act, b: Pipe) {
    match act
    case StoreStatus =>
      && a.p.PStore? && a.p.slot in a.comms && a.comms[a.p.slot].MsgStatus?
      && b.t == SetJobState(a.t, a.comms[a.p.slot].uuid, if a.comms[a.p.slot].ok then C else D)
    case StoreConn =>
      && a.p.PStore? && a.p.slot in a.comms && a.comms[a.p.slot].ConnStatus?
      && b.t == UpdateConn(a.t, a.comms[a.p.slot].ip, a.comms[a.p.slot].fd)
    case DeleteRequest =>
      a.p.PDelete? && a.p.slot in a.comms && a.comms[a.p.slot].ConnStatus?
        && b.t == DeleteComm(a.t, a.comms[a.p.slot].comm)
    case MarkRequest => a.p.PMark? && a.p.key in a.t.comms && b.t == MarkComm(a.t, a.p.key)
    case FetchJob(id, e) =>
      && Sendable(a.t, id, e) && b.t == SetJobState(a.t, id, S4W)
      && b.p.PPublishData? && b.p.dmsg == DataMsg(a.t.conns[e.ip].sfd, id, a.t.jobs[id].data)
    case Environment => Undisturbed(a.t, b.t)
    case _ => b.t == a.t
  }

  lemma TablesChange(a: Pipe, act: Act, b: Pipe)
    requires Next(a, act, b)
    ensures TablesEffect(a, act, b)
  {
    hide ReadStep, RequestStep, GiveStep, SenderStep, TablesEffect, Undisturbed;
    if ReadStep(a, act, b) { ReadTables(a, act, b); }
    else if RequestStep(a, act, b) { RequestTables(a, act, b); }
    else if GiveStep(a, act, b) { GiveTables(a, act, b); }
    else if SenderStep(a, act, b) { SenderTables(a, act, b); }
    else { AroundTables(a, act, b); }
  }

  lemma ReadTables(a: Pipe, act: Act, b: Pipe)
    requires ReadStep(a, act, b)
    ensures TablesEffect(a, act, b)
  {
    hide IsFirst, SetJobState, UpdateConn, DeleteComm;
  }

  lemma RequestTables(a: Pipe, act: Act, b: Pipe)
    requires RequestStep(a, act, b)
    ensures TablesEffect(a, act, b)
  {
    hide IsFirst, MarkComm, RequestOf;
  }

  lemma GiveTables(a: Pipe, act: Act, b: Pipe)
    requires GiveStep(a, act, b)
    ensures TablesEffect(a, act, b)
  {
    hide IsFirst, SetJobState;
  }

  lemma SenderTables(a: Pipe, act: Act, b: Pipe)
    requires SenderStep(a, act, b)
    ensures TablesEffect(a, act, b)
  {
    hide IsFirst;
  }

  lemma AroundTables(a: Pipe, act: Act, b: Pipe)
    requires AroundStep(a, act, b)
    ensures TablesEffect(a, act, b)
  {
    hide Undisturbed;
  }

  /** A job leaves S-4W only when its own status is stored, and then as that status says. */
  lemma OwnStatus(a: Pipe, act: Act, b: Pipe, id: Id)
    requires Next(a, act, b) && InS4W(a.t, id) && !InS4W(b.t, id)
    ensures act.StoreStatus? && a.p.PStore? && StatusOf(a, a.p.slot, id)
    ensures b.t == SetJobState(a.t, id, if a.comms[a.p.slot].ok then C else D)
  {
    hide Next;
    TablesChange(a, act, b);
  }

  /** A stored status always finds its job in S-4W, although the statement does not ask. */
  lemma StatusFindsJob(a: Pipe, b: Pipe)
    requires Inv(a) && ReadStep(a, StoreStatus, b)
    ensures InS4W(a.t, a.comms[a.p.slot].uuid) && StatusOf(a, a.p.slot, a.comms[a.p.slot].uuid)
  {
    hide Locks, Found, Directed, Numbered, Covered;
    assert TokenAt(a, CommSlot(a.p.slot)) == Some(JobTok(a.comms[a.p.slot].uuid));
  }

  /** A job enters S-4W only with its fetch, from S-4, and the fetched message carries its data. */
  lemma FetchedFromS4(a: Pipe, act: Act, b: Pipe, id: Id)
    requires Next(a, act, b) && !InS4W(a.t, id) && InS4W(b.t, id)
    ensures act.FetchJob? && act.id == id && id in a.t.jobs && a.t.jobs[id].state == S4
    ensures b.p.PPublishData? && b.p.dmsg.uuid == id && b.p.dmsg.data == a.t.jobs[id].data
  {
    hide Next, ParseInt;
    TablesChange(a, act, b);
  }

  /** After a committed fetch the only thing the processor can do is to publish the slot, and no slot of the
      data block is filled in any other way. */
  lemma CommitThenPublish(b: Pipe, act: Act, c: Pipe)
    requires Next(b, act, c)
    ensures b.p.PPublishData? && !ProcessorStep(b, act, c) ==> c.p == b.p
    ensures b.p.PPublishData? && ProcessorStep(b, act, c) ==>
              act.PublishJob? && c.datas == b.datas[b.p.slot := b.p.dmsg]
    ensures (exists i :: i in c.datas && i !in b.datas) ==> b.p.PPublishData? && act.PublishJob?
  {
    hide ProcessorStep, SenderStep, Undisturbed;
    if ProcessorStep(b, act, c) { ProcessorDatas(b, act, c); }
    else if SenderStep(b, act, c) { SenderDatas(b, act, c); }
  }

  lemma ProcessorDatas(a: Pipe, act: Act, b: Pipe)
    requires ProcessorStep(a, act, b)
    ensures a.p.PPublishData? ==>
              act.PublishJob? && a.p.slot < TOTAL_PARTITIONS && b.datas == a.datas[a.p.slot := a.p.dmsg]
    ensures b.datas != a.datas ==> a.p.PPublishData? && act.PublishJob?
  {
    hide ReadStep, RequestStep, GiveStep;
    if ReadStep(a, act, b) { ReadDatas(a, act, b); }
    else if RequestStep(a, act, b) { RequestDatas(a, act, b); }
    else { GiveDatas(a, act, b); }
  }

  lemma ReadDatas(a: Pipe, act: Act, b: Pipe)
    requires ReadStep(a, act, b)
    ensures b.datas == a.datas && !a.p.PPublishData?
  {
    hide IsFirst, SetJobState, UpdateConn, DeleteComm;
  }

  lemma RequestDatas(a: Pipe, act: Act, b: Pipe)
    requires RequestStep(a, act, b)
    ensures b.datas == a.datas && !a.p.PPublishData?
  {
    hide IsFirst, MarkComm, RequestOf;
  }

  lemma GiveDatas(a: Pipe, act: Act, b: Pipe)
    requires GiveStep(a, act, b)
    ensures a.p.PPublishData? ==>
              act.PublishJob? && a.p.slot < TOTAL_PARTITIONS && b.datas == a.datas[a.p.slot := a.p.dmsg]
    ensures b.datas != a.datas ==> a.p.PPublishData? && act.PublishJob?
  {
    hide IsFirst, SetJobState, Selected;
  }

  lemma SenderDatas(a: Pipe, act: Act, b: Pipe)
    requires SenderStep(a, act, b)
    ensures b.p == a.p && forall i :: i in b.datas ==> i in a.datas && b.datas[i] == a.datas[i]
  {
    hide IsFirst;
  }

  /** The processor is taking in the sender's answer to request `c`. */
  predicate Answers(a: Pipe, c: int) {
    a.p.PDelete? && a.p.slot in a.comms && a.comms[a.p.slot].ConnStatus? && a.comms[a.p.slot].comm == c
  }

  /** A request goes away only when the sender's answer to it has been taken in, and only requests nobody
      has seen are handed to the sender. */
  lemma RequestKept(a: Pipe, act: Act, b: Pipe, key: CommKey)
    requires Found(a) && Next(a, act, b) && key in a.t.comms
    ensures key !in b.t.comms ==> act.DeleteRequest? && Answers(a, a.t.comms[key].id)
    ensures key in b.t.comms ==> b.t.comms[key].id == a.t.comms[key].id
    ensures key in b.t.comms && b.t.comms[key] != a.t.comms[key] ==>
              act.MarkRequest? && a.p.PMark? && a.p.key == key && !a.t.comms[key].waiting
  {
    hide Next, IsFirst, ParseInt, JobsUndisturbed;
    TablesChange(a, act, b);
  }

  // ---- the two blocks as channels ----------------------------------------------------------

  function CommsEvent(a: Pipe, act: Act): Event<CommMsg> {
    match act
    case Erase => if a.p.PErase? && a.p.slot in a.comms then Drained(2, a.p.slot, a.comms[a.p.slot]) else Quiet
    case PublishRequest => if a.p.PPublish? then Stored(1, a.p.slot, a.p.msg) else Quiet
    case TakeRequest(i) => if i in a.comms then Drained(1, i, a.comms[i]) else Idle(1)
    case PutStatus(i) =>
      if a.s.SReport? then (if i >= 0 then Stored(2, i, a.s.status) else Dropped(2, a.s.status)) else Quiet
    case _ => Quiet
  }

  function DatasEvent(a: Pipe, act: Act): Event<DataMsg> {
    match act
    case PublishJob => if a.p.PPublishData? then Stored(3, a.p.slot, a.p.dmsg) else Quiet
    case TakeJob(i) => if i in a.datas then Drained(3, i, a.datas[i]) else Idle(3)
    case _ => Quiet
  }

  /** Every step is one step of each channel: what the processor or the sender does in a slot, it does to the
      first slot that fits at that moment, although it found the slot some steps earlier. */
  lemma ChannelSteps(a: Pipe, act: Act, b: Pipe)
    requires Found(a) && Next(a, act, b)
    ensures Step(a.comms, CommsEvent(a, act), b.comms) && Step(a.datas, DatasEvent(a, act), b.datas)
  {
    hide ReadStep, RequestStep, GiveStep, SenderStep, CommsEvent, DatasEvent, Found, Undisturbed, Step;
    if ReadStep(a, act, b) { ChannelRead(a, act, b); }
    else if RequestStep(a, act, b) { ChannelRequest(a, act, b); }
    else if GiveStep(a, act, b) { ChannelGive(a, act, b); }
    else if SenderStep(a, act, b) { ChannelSender(a, act, b); }
    else { ChannelAround(a, act, b); }
  }

  lemma ChannelRead(a: Pipe, act: Act, b: Pipe)
    requires Found(a) && ReadStep(a, act, b)
    ensures Step(a.comms, CommsEvent(a, act), b.comms) && Step(a.datas, DatasEvent(a, act), b.datas)
  {
    hide IsFirst, SetJobState, UpdateConn, DeleteComm;
  }

  lemma ChannelRequest(a: Pipe, act: Act, b: Pipe)
    requires Found(a) && RequestStep(a, act, b)
    ensures Step(a.comms, CommsEvent(a, act), b.comms) && Step(a.datas, DatasEvent(a, act), b.datas)
  {
    hide IsFirst, MarkComm, RequestOf;
  }

  lemma ChannelGive(a: Pipe, act: Act, b: Pipe)
    requires Found(a) && GiveStep(a, act, b)
    ensures Step(a.comms, CommsEvent(a, act), b.comms) && Step(a.datas, DatasEvent(a, act), b.datas)
  {
    hide IsFirst, SetJobState, Selected;
  }

  lemma ChannelSender(a: Pipe, act: Act, b: Pipe)
    requires SenderStep(a, act, b)
    ensures Step(a.comms, CommsEvent(a, act), b.comms) && Step(a.datas, DatasEvent(a, act), b.datas)
  {
    if act.TakeRequest? { FullOrNone(a.comms.Keys, 1, act.i); }
    if act.TakeJob? { FullOrNone(a.datas.Keys, 3, act.i); }
    hide IsFirst, Down;
  }

  lemma ChannelAround(a: Pipe, act: Act, b: Pipe)
    requires AroundStep(a, act, b)
    ensures Step(a.comms, CommsEvent(a, act), b.comms) && Step(a.datas, DatasEvent(a, act), b.datas)
  {
    hide Undisturbed;
  }

  /** No program drains a message it deposited itself: the processor stores requests and drains statuses, the
      sender stores statuses and drains requests. */
  lemma Directions(a: Pipe, act: Act, b: Pipe)
    requires Inv(a) && Next(a, act, b)
    ensures var e := CommsEvent(a, act);
            && (e.Stored? ==> (if ProcessorStep(a, act, b) then Down(e.msg) else !Down(e.msg)))
            && (e.Drained? ==> (if ProcessorStep(a, act, b) then !Down(e.msg) else Down(e.msg)))
  {
    hide Locks, Numbered, Tokens, Covered;
    if act.Erase? { assert a.p.slot >= 40; }
  }
}
