/** What every step of the sending side keeps. */
module PipelineInv {
  import opened Text
  import opened Tables
  import opened Channels
  import opened Pipeline

  // ---- locks, and what a held lock protects ------------------------------------------------

  predicate ProcessorHoldsComms(p: ProcessorPc) {
    || p.PStore? || p.PDelete? || p.PErase? || p.PUnlockRead?
    || p.PSelect? || p.PMark? || p.PPublish? || p.PPostComm? || p.PUnlockSend?
  }

  predicate ProcessorHoldsDatas(p: ProcessorPc) {
    p.PFetch? || p.PPublishData? || p.PPostData? || p.PUnlockGive?
  }

  predicate SenderHoldsComms(s: SenderPc) {
    s.SUnlockMsg? || s.SPost? || s.SUnlockReport?
  }

  predicate SenderHoldsDatas(s: SenderPc) {
    s.SUnlockData?
  }

  /** Each lock is held by exactly the process that is inside its critical section. */
  predicate Locks(st: Pipe) {
    && (st.commLock == Processor <==> ProcessorHoldsComms(st.p))
    && (st.commLock == Sender <==> SenderHoldsComms(st.s))
    && (st.dataLock == Processor <==> ProcessorHoldsDatas(st.p))
    && (st.dataLock == Sender <==> SenderHoldsDatas(st.s))
  }

  lemma LocksKept(a: Pipe, act: Act, b: Pipe)
    requires Locks(a) && Next(a, act, b)
    ensures Locks(b)
  {
    hide ReadStep, RequestStep, GiveStep, SenderStep, AroundStep, Locks;
    if ReadStep(a, act, b) { LocksKeptByRead(a, act, b); }
    else if RequestStep(a, act, b) { LocksKeptByRequest(a, act, b); }
    else if GiveStep(a, act, b) { LocksKeptByGive(a, act, b); }
    else { LocksKeptByOthers(a, act, b); }
  }

  lemma LocksKeptByRead(a: Pipe, act: Act, b: Pipe)
    requires Locks(a) && ReadStep(a, act, b)
    ensures Locks(b)
  {
    hide IsFirst, Selected, UpdateConn, DeleteComm, MarkComm, SetJobState, RequestOf;
  }

  lemma LocksKeptByRequest(a: Pipe, act: Act, b: Pipe)
    requires Locks(a) && RequestStep(a, act, b)
    ensures Locks(b)
  {
    hide IsFirst, Selected, UpdateConn, DeleteComm, MarkComm, SetJobState, RequestOf;
  }

  lemma LocksKeptByGive(a: Pipe, act: Act, b: Pipe)
    requires Locks(a) && GiveStep(a, act, b)
    ensures Locks(b)
  {
    hide IsFirst, Selected, UpdateConn, DeleteComm, MarkComm, SetJobState, RequestOf;
  }

  lemma LocksKeptByOthers(a: Pipe, act: Act, b: Pipe)
    requires Locks(a) && (SenderStep(a, act, b) || AroundStep(a, act, b))
    ensures Locks(b)
  {
    hide TakeStep, ReportStep, SendStep, Locks, Undisturbed;
    if TakeStep(a, act, b) { LocksKeptByTake(a, act, b); }
    else if ReportStep(a, act, b) { LocksKeptByReport(a, act, b); }
    else if SendStep(a, act, b) { LocksKeptBySend(a, act, b); }
    else { LocksKeptAround(a, act, b); }
  }

  lemma LocksKeptByTake(a: Pipe, act: Act, b: Pipe)
    requires Locks(a) && TakeStep(a, act, b)
    ensures Locks(b)
  {
    hide IsFirst;
  }

  lemma LocksKeptByReport(a: Pipe, act: Act, b: Pipe)
    requires Locks(a) && ReportStep(a, act, b)
    ensures Locks(b)
  {
    hide IsFirst;
  }

  lemma LocksKeptBySend(a: Pipe, act: Act, b: Pipe)
    requires Locks(a) && SendStep(a, act, b)
    ensures Locks(b)
  {
    hide IsFirst;
  }

  lemma LocksKeptAround(a: Pipe, act: Act, b: Pipe)
    requires Locks(a) && AroundStep(a, act, b)
    ensures Locks(b)
  {
    hide Undisturbed;
  }

  /** What the processor found under a lock still holds while it keeps the lock. */
  ghost predicate Found(st: Pipe) {
    match st.p
    case PStore(slot, left) => slot in st.comms && IsFirst(st.comms.Keys, 1, 2, slot)
    case PDelete(slot, left) => slot in st.comms && IsFirst(st.comms.Keys, 1, 2, slot) && st.comms[slot].ConnStatus?
    case PErase(slot, done) => slot in st.comms && IsFirst(st.comms.Keys, 1, 2, slot)
    case PSelect(slot) => IsFirst(st.comms.Keys, 0, 1, slot)
    case PMark(slot, key) => IsFirst(st.comms.Keys, 0, 1, slot) && key in st.t.comms && !st.t.comms[key].waiting
    case PPublish(slot, msg) => IsFirst(st.comms.Keys, 0, 1, slot) && Down(msg)
    case PFetch(slot) => IsFirst(st.datas.Keys, 0, 3, slot)
    case PPublishData(slot, dmsg) => IsFirst(st.datas.Keys, 0, 3, slot)
    case _ => true
  }

  /** The halves of the comms block carry one direction each, and each program handles its own kind. */
  predicate Directed(st: Pipe) {
    && (forall i :: i in st.comms ==> (i < 40 <==> Down(st.comms[i])))
    && (st.s.SUnlockMsg? && st.s.taken.Some? ==> Down(st.s.taken.value))
    && (st.s.SAct? ==> Down(st.s.msg))
    && (st.s.SReport? ==> !Down(st.s.status))
    && (st.s.SPost? ==> !Down(st.s.after))
    && (st.s.SUnlockReport? ==> !Down(st.s.after))
  }

  lemma FoundKept(a: Pipe, act: Act, b: Pipe)
    requires Locks(a) && Found(a) && Next(a, act, b)
    ensures Found(b)
  {
    hide ReadStep, RequestStep, GiveStep, SenderStep, AroundStep, Locks, Found;
    if ReadStep(a, act, b) { FoundKeptByRead(a, act, b); }
    else if RequestStep(a, act, b) { FoundKeptByRequest(a, act, b); }
    else if GiveStep(a, act, b) { FoundKeptByGive(a, act, b); }
    else { FoundKeptByOthers(a, act, b); }
  }

  lemma FoundKeptByRead(a: Pipe, act: Act, b: Pipe)
    requires Found(a) && ReadStep(a, act, b)
    ensures Found(b)
  {
    hide Selected, UpdateConn, DeleteComm, SetJobState;
  }

  lemma FoundKeptByRequest(a: Pipe, act: Act, b: Pipe)
    requires Found(a) && RequestStep(a, act, b)
    ensures Found(b)
  {
    hide Selected, UpdateConn, DeleteComm, SetJobState;
  }

  lemma FoundKeptByGive(a: Pipe, act: Act, b: Pipe)
    requires Found(a) && GiveStep(a, act, b)
    ensures Found(b)
  {
    hide Selected, UpdateConn, DeleteComm, SetJobState;
  }

  lemma FoundKeptByOthers(a: Pipe, act: Act, b: Pipe)
    requires Locks(a) && Found(a) && (SenderStep(a, act, b) || AroundStep(a, act, b))
    ensures Found(b)
  {
    hide JobsUndisturbed, IsFirst;
  }

  lemma DirectedKept(a: Pipe, act: Act, b: Pipe)
    requires Found(a) && Directed(a) && Next(a, act, b)
    ensures Directed(b)
  {
    hide ReadStep, RequestStep, GiveStep, SenderStep, AroundStep, Directed, Found;
    if ReadStep(a, act, b) { DirectedKeptByRead(a, act, b); }
    else if RequestStep(a, act, b) { DirectedKeptByRequest(a, act, b); }
    else if GiveStep(a, act, b) { DirectedKeptByGive(a, act, b); }
    else { DirectedKeptByOthers(a, act, b); }
  }

  lemma DirectedKeptByRead(a: Pipe, act: Act, b: Pipe)
    requires Found(a) && Directed(a) && ReadStep(a, act, b)
    ensures Directed(b)
  {
    hide Selected, UpdateConn, DeleteComm, MarkComm, SetJobState;
  }

  lemma DirectedKeptByRequest(a: Pipe, act: Act, b: Pipe)
    requires Found(a) && Directed(a) && RequestStep(a, act, b)
    ensures Directed(b)
  {
    hide Selected, UpdateConn, DeleteComm, MarkComm, SetJobState;
  }

  lemma DirectedKeptByGive(a: Pipe, act: Act, b: Pipe)
    requires Found(a) && Directed(a) && GiveStep(a, act, b)
    ensures Directed(b)
  {
    hide Selected, UpdateConn, DeleteComm, MarkComm, SetJobState;
  }

  lemma DirectedKeptByOthers(a: Pipe, act: Act, b: Pipe)
    requires Directed(a) && (SenderStep(a, act, b) || AroundStep(a, act, b))
    ensures Directed(b)
  {
    hide Undisturbed;
  }

  // ---- tokens ------------------------------------------------------------------------------

  /** A hand-over in progress: of a job, or of a request for the sender. */
  datatype Token = JobTok(id: Id) | CommTok(comm: int)

  /** Where a hand-over can be. */
  datatype Place = DataSlot(i: nat) | CommSlot(i: nat) | AtProcessor | AtSender

  function TokenOf(m: CommMsg): Token {
    if m.MsgStatus? then JobTok(m.uuid) else CommTok(m.comm)
  }

  /** A status whose effect is in the database no longer counts, although its slot is not yet cleared. */
  function TokenAt(st: Pipe, a: Place): Option<Token> {
    match a
    case DataSlot(i) => if i in st.datas then Some(JobTok(st.datas[i].uuid)) else None
    case CommSlot(i) => if i in st.comms && st.p != PErase(i, true) then Some(TokenOf(st.comms[i])) else None
    case AtProcessor => ProcessorToken(st.p)
    case AtSender => SenderToken(st.s)
  }

  function ProcessorToken(p: ProcessorPc): Option<Token> {
    if p.PPublishData? then Some(JobTok(p.dmsg.uuid))
    else if p.PPublish? then Some(TokenOf(p.msg))
    else None
  }

  function SenderToken(s: SenderPc): Option<Token> {
    match s
    case SUnlockMsg(Some(m)) => Some(TokenOf(m))
    case SAct(m) => Some(TokenOf(m))
    case SReport(m) => Some(TokenOf(m))
    case SUnlockData(found, Some(d)) => Some(JobTok(d.uuid))
    case SSend(d) => Some(JobTok(d.uuid))
    case _ => None
  }

  /** The database agrees that the hand-over is in progress. */
  ghost predicate Live(t: Tables, k: Token) {
    match k
    case JobTok(id) => id in t.jobs && t.jobs[id].state == S4W
    case CommTok(c) => exists key :: key in t.comms && t.comms[key].id == c && t.comms[key].waiting
  }

  /** Every hand-over is in one place, and only while the database says so. */
  ghost predicate Tokens(st: Pipe) {
    && (forall a, b :: TokenAt(st, a).Some? && TokenAt(st, a) == TokenAt(st, b) ==> a == b)
    && (forall a :: TokenAt(st, a).Some? ==> Live(st.t, TokenAt(st, a).value))
  }

  /** Requests are numbered differently, below the next number; a connection is up when it has a descriptor. */
  predicate Numbered(t: Tables) {
    && (forall k :: k in t.comms ==> t.comms[k].id < t.nextComm)
    && (forall k, l :: k in t.comms && l in t.comms && t.comms[k].id == t.comms[l].id ==> k == l)
    && (forall ip :: ip in t.conns ==> t.conns[ip].status == StatusFor(t.conns[ip].sfd))
  }

  /** Tokens only disappear, or one moves from `from` to `to`. */
  lemma Moves(a: Pipe, b: Pipe, from: Place, to: Place)
    requires Tokens(a)
    requires forall x :: x != to && TokenAt(b, x).Some? ==> x != from && TokenAt(b, x) == TokenAt(a, x)
    requires TokenAt(b, to).Some? ==> TokenAt(b, to) == TokenAt(a, from)
    requires forall x :: TokenAt(b, x).Some? && Live(a.t, TokenAt(b, x).value) ==> Live(b.t, TokenAt(b, x).value)
    ensures Tokens(b)
  {
    hide TokenAt, Live;
  }

  /** A new hand-over begins at `to`. */
  lemma Begins(a: Pipe, b: Pipe, to: Place, k: Token)
    requires Tokens(a) && !Live(a.t, k) && Live(b.t, k)
    requires TokenAt(b, to) == Some(k)
    requires forall x :: x != to && TokenAt(b, x).Some? ==> TokenAt(b, x) == TokenAt(a, x)
    requires forall l :: Live(a.t, l) ==> Live(b.t, l)
    ensures Tokens(b)
  {
    hide TokenAt, Live;
  }

  lemma TokensKeptByRead(a: Pipe, act: Act, b: Pipe)
    requires Tokens(a) && Found(a) && ReadStep(a, act, b)
    ensures Tokens(b)
  {
    if act.StoreStatus? || act.DeleteRequest? {
      TokenEnds(a, act, b);
    } else {
      TokensStay(a, act, b);
    }
  }

  lemma TokenEnds(a: Pipe, act: Act, b: Pipe)
    requires Tokens(a) && ReadStep(a, act, b) && (act.StoreStatus? || act.DeleteRequest?)
    ensures Tokens(b)
  {
    hide Tokens, Live;
    var at := CommSlot(a.p.slot);
    assert TokenAt(a, at) == Some(TokenOf(a.comms[a.p.slot])) && TokenAt(b, at) == None;
    assert forall x :: x != at ==> TokenAt(b, x) == TokenAt(a, x);
    forall x | TokenAt(b, x).Some? && Live(a.t, TokenAt(b, x).value) ensures Live(b.t, TokenAt(b, x).value) {
      OtherPlace(a, at, x);
      StillLive(a, act, b, TokenAt(b, x).value);
    }
    Moves(a, b, at, at);
  }

  lemma OtherPlace(a: Pipe, at: Place, x: Place)
    requires Tokens(a) && x != at && TokenAt(a, at).Some? && TokenAt(a, x).Some?
    ensures TokenAt(a, x) != TokenAt(a, at)
  {
    hide TokenAt, Live;
  }

  lemma TokensStay(a: Pipe, act: Act, b: Pipe)
    requires Tokens(a) && Found(a) && ReadStep(a, act, b) && !act.StoreStatus? && !act.DeleteRequest?
    ensures Tokens(b)
  {
    hide IsFirst, Tokens;
    var at := CommSlot(if a.p.PErase? then a.p.slot else 0);
    assert forall k :: Live(a.t, k) ==> Live(b.t, k);
    Moves(a, b, at, at);
  }

  /** The other hand-overs are not affected when one ends. */
  lemma StillLive(a: Pipe, act: Act, b: Pipe, k: Token)
    requires ReadStep(a, act, b) && (act.StoreStatus? || act.DeleteRequest?)
    requires Live(a.t, k) && a.p.slot in a.comms && k != TokenOf(a.comms[a.p.slot])
    ensures Live(b.t, k)
  {
    if k.CommTok? {
      var key :| key in a.t.comms && a.t.comms[key].id == k.comm && a.t.comms[key].waiting;
      assert key in b.t.comms && b.t.comms[key] == a.t.comms[key];
    }
  }

  lemma TokensKeptByRequest(a: Pipe, act: Act, b: Pipe)
    requires Tokens(a) && Found(a) && Numbered(a.t) && RequestStep(a, act, b)
    ensures Tokens(b)
  {
    if act.MarkRequest? {
      forall k | Live(a.t, k) ensures Live(b.t, k) { MarkLive(a.t, a.p.key, k); }
      assert b.t.comms[a.p.key].waiting;
      Begins(a, b, AtProcessor, CommTok(a.t.comms[a.p.key].id));
    } else {
      Moves(a, b, AtProcessor, if act.PublishRequest? then CommSlot(a.p.slot) else AtProcessor);
    }
  }

  lemma MarkLive(t: Tables, key: CommKey, k: Token)
    requires key in t.comms && Live(t, k)
    ensures Live(MarkComm(t, key), k)
  {
    if k.CommTok? {
      var l :| l in t.comms && t.comms[l].id == k.comm && t.comms[l].waiting;
      assert l in MarkComm(t, key).comms;
    }
  }

  lemma TokensKeptByGive(a: Pipe, act: Act, b: Pipe)
    requires Tokens(a) && Found(a) && GiveStep(a, act, b)
    ensures Tokens(b)
  {
    hide IsFirst, Tokens;
    if act.FetchJob? {
      TokenBegins(a, act, b);
    } else {
      hide Live;
      Moves(a, b, AtProcessor, if act.PublishJob? then DataSlot(a.p.slot) else AtProcessor);
    }
  }

  lemma TokenBegins(a: Pipe, act: Act, b: Pipe)
    requires Tokens(a) && GiveStep(a, act, b) && act.FetchJob?
    ensures Tokens(b)
  {
    hide Tokens;
    Begins(a, b, AtProcessor, JobTok(act.id));
  }

  lemma TokensKeptByTake(a: Pipe, act: Act, b: Pipe)
    requires Locks(a) && Tokens(a) && TakeStep(a, act, b)
    ensures Tokens(b)
  {
    hide Live;
    Moves(a, b, if act.TakeRequest? && act.i >= 0 then CommSlot(act.i) else AtSender, AtSender);
  }

  lemma TokensKeptByReport(a: Pipe, act: Act, b: Pipe)
    requires Locks(a) && Tokens(a) && ReportStep(a, act, b)
    ensures Tokens(b)
  {
    hide Live;
    Moves(a, b, AtSender, if act.PutStatus? && act.i >= 0 then CommSlot(act.i) else AtSender);
  }

  lemma TokensKeptBySend(a: Pipe, act: Act, b: Pipe)
    requires Tokens(a) && SendStep(a, act, b)
    ensures Tokens(b)
  {
    hide Live;
    Moves(a, b, if act.TakeJob? && act.i >= 0 then DataSlot(act.i) else AtSender, AtSender);
  }

  lemma TokensKeptAround(a: Pipe, act: Act, b: Pipe)
    requires Tokens(a) && AroundStep(a, act, b)
    ensures Tokens(b)
  {
    forall k | Live(a.t, k) ensures Live(b.t, k) {
      if k.CommTok? {
        var key :| key in a.t.comms && a.t.comms[key].id == k.comm && a.t.comms[key].waiting;
        assert key in b.t.comms;
      }
    }
    Moves(a, b, AtSender, AtSender);
  }

  lemma TokensKept(a: Pipe, act: Act, b: Pipe)
    requires Locks(a) && Found(a) && Tokens(a) && Numbered(a.t) && Next(a, act, b)
    ensures Tokens(b)
  {
    hide ReadStep, RequestStep, GiveStep, TakeStep, ReportStep, SendStep, AroundStep, Locks, Found, Tokens, Numbered;
    if ReadStep(a, act, b) { TokensKeptByRead(a, act, b); }
    else if RequestStep(a, act, b) { TokensKeptByRequest(a, act, b); }
    else if GiveStep(a, act, b) { TokensKeptByGive(a, act, b); }
    else if TakeStep(a, act, b) { TokensKeptByTake(a, act, b); }
    else if ReportStep(a, act, b) { TokensKeptByReport(a, act, b); }
    else if SendStep(a, act, b) { TokensKeptBySend(a, act, b); }
    else { TokensKeptAround(a, act, b); }
  }

  lemma NumberedKept(a: Pipe, act: Act, b: Pipe)
    requires Numbered(a.t) && Next(a, act, b)
    ensures Numbered(b.t)
  {
    hide Numbered, ProcessorStep, SenderStep, AroundStep;
    if SenderStep(a, act, b) { SenderLeavesTables(a, act, b); }
    else if ProcessorStep(a, act, b) { NumberedKeptByProcessor(a, act, b); }
    else { NumberedKeptAround(a, act, b); }
  }

  lemma NumberedKeptByProcessor(a: Pipe, act: Act, b: Pipe)
    requires Numbered(a.t) && ProcessorStep(a, act, b)
    ensures Numbered(b.t)
  {
    hide IsFirst, Selected, RequestOf, Numbered, UpdateConn, DeleteComm, MarkComm, SetJobState;
    if act.StoreConn? { ConnNumbered(a.t, a.comms[a.p.slot].ip, a.comms[a.p.slot].fd); }
    else if act.DeleteRequest? { DeleteNumbered(a.t, a.comms[a.p.slot].comm); }
    else if act.MarkRequest? { MarkNumbered(a.t, a.p.key); }
    else if act.StoreStatus? { JobNumbered(a.t, a.comms[a.p.slot].uuid, if a.comms[a.p.slot].ok then C else D); }
    else if act.FetchJob? { JobNumbered(a.t, act.id, S4W); }
  }

  lemma ConnNumbered(t: Tables, ip: int, fd: int)
    requires Numbered(t)
    ensures Numbered(UpdateConn(t, ip, fd))
  {
  }

  lemma DeleteNumbered(t: Tables, c: int)
    requires Numbered(t)
    ensures Numbered(DeleteComm(t, c))
  {
  }

  lemma MarkNumbered(t: Tables, key: CommKey)
    requires Numbered(t) && key in t.comms
    ensures Numbered(MarkComm(t, key))
  {
    assert forall l :: l in t.comms ==> MarkComm(t, key).comms[l].id == t.comms[l].id;
  }

  lemma JobNumbered(t: Tables, id: Id, s: State)
    requires Numbered(t)
    ensures Numbered(SetJobState(t, id, s))
  {
  }

  lemma NumberedKeptAround(a: Pipe, act: Act, b: Pipe)
    requires Numbered(a.t) && AroundStep(a, act, b)
    ensures Numbered(b.t)
  {
    hide JobsUndisturbed;
  }

  lemma SenderLeavesTables(a: Pipe, act: Act, b: Pipe)
    requires SenderStep(a, act, b)
    ensures b.t == a.t
  {
    hide IsFirst;
  }

  // ---- wake-ups ----------------------------------------------------------------------------

  /** A bit is set and its post comes next. */
  function Posting(p: ProcessorPc): nat {
    if p.PPostComm? || p.PPostData? then 1 else 0
  }

  /** A round that has consumed a post and has not yet taken anything for it. */
  function SenderCredit(s: SenderPc): nat {
    if s.STake? || (s.SUnlockMsg? && s.taken.None?) || (s.STakeData? && !s.found) then 1 else 0
  }

  function ProcessorCredit(p: ProcessorPc): nat {
    if p.PRead? || p.PStore? || p.PDelete? || p.PErase? then 1 else 0
  }

  /** The round has found no request. */
  predicate Missed(s: SenderPc) {
    (s.SUnlockMsg? && s.taken.None?) || (s.STakeData? && !s.found)
  }

  /** The full slots that wait for a process are covered by its semaphore, by a post that is about to
      happen, and by the round it is in. A round that found no request leaves those that came since covered. */
  predicate Covered(st: Pipe) {
    && Downs(st.comms) + Held(st.datas) <= st.sigs + Posting(st.p) + SenderCredit(st.s)
    && (Missed(st.s) ==> Downs(st.comms) <= st.sigs + Posting(st.p))
    && Ups(st.comms) <= st.sigps + (if st.s.SPost? then 1 else 0) + ProcessorCredit(st.p)
  }

  lemma CoveredByRead(a: Pipe, act: Act, b: Pipe)
    requires Covered(a) && Found(a) && ReadStep(a, act, b)
    ensures Covered(b)
  {
    hide UpdateConn, DeleteComm, SetJobState, IsFirst, Downs, Ups, Held, Missed, SenderCredit;
    if act.FindStatus? && act.i == -1 { NoneAbove(a.comms); }
    if act.Erase? {
      FirstInRegion(a.comms.Keys, 1, 2, a.p.slot);
      TakeCounts(a.comms, a.p.slot);
    }
  }

  lemma CoveredByRequest(a: Pipe, act: Act, b: Pipe)
    requires Covered(a) && Found(a) && RequestStep(a, act, b)
    ensures Covered(b)
  {
    hide MarkComm, RequestOf, Downs, Ups, Held, Missed, SenderCredit;
    if act.PublishRequest? { PutCounts(a.comms, a.p.slot, a.p.msg); }
  }

  lemma CoveredByGive(a: Pipe, act: Act, b: Pipe)
    requires Covered(a) && Found(a) && GiveStep(a, act, b)
    ensures Covered(b)
  {
    hide SetJobState, Selected, Downs, Ups, Held, Missed, SenderCredit;
    if act.PublishJob? { HeldCounts(a.datas, a.p.slot, a.p.dmsg); }
  }

  lemma CoveredByTake(a: Pipe, act: Act, b: Pipe)
    requires Covered(a) && TakeStep(a, act, b)
    ensures Covered(b)
  {
    hide Downs, Ups, Held, ProcessorCredit;
    if act.TakeRequest? {
      if act.i == -1 { NoneBelow(a.comms); } else { TakeCounts(a.comms, act.i); }
    }
  }

  lemma CoveredByReport(a: Pipe, act: Act, b: Pipe)
    requires Covered(a) && ReportStep(a, act, b)
    ensures Covered(b)
  {
    hide Downs, Ups, Held, ProcessorCredit;
    if act.PutStatus? && act.i >= 0 { PutCounts(a.comms, act.i, a.s.status); }
  }

  lemma CoveredBySend(a: Pipe, act: Act, b: Pipe)
    requires Covered(a) && SendStep(a, act, b)
    ensures Covered(b)
  {
    hide Downs, Ups, Held, ProcessorCredit;
    if act.TakeJob? {
      if act.i == -1 { NoneHeld(a.datas); } else { HeldCounts(a.datas, act.i, a.datas[act.i]); }
    }
  }

  lemma CoveredKept(a: Pipe, act: Act, b: Pipe)
    requires Found(a) && Covered(a) && Next(a, act, b)
    ensures Covered(b)
  {
    hide ReadStep, RequestStep, GiveStep, TakeStep, ReportStep, SendStep, Found, Undisturbed, Downs, Ups, Held;
    if ReadStep(a, act, b) { CoveredByRead(a, act, b); }
    else if RequestStep(a, act, b) { CoveredByRequest(a, act, b); }
    else if GiveStep(a, act, b) { CoveredByGive(a, act, b); }
    else if TakeStep(a, act, b) { CoveredByTake(a, act, b); }
    else if ReportStep(a, act, b) { CoveredByReport(a, act, b); }
    else if SendStep(a, act, b) { CoveredBySend(a, act, b); }
  }

  // ---- the invariant -----------------------------------------------------------------------

  ghost predicate Inv(st: Pipe) {
    Locks(st) && Found(st) && Directed(st) && Numbered(st.t) && Tokens(st) && Covered(st)
  }

  lemma InitInv(st: Pipe)
    requires Init(st)
    ensures Inv(st)
  {
    assert Downs(st.comms) == 0 && Ups(st.comms) == 0;
  }

  /** Every step of either program, every notification and every use of the tables keeps the invariant. */
  lemma StepInv(a: Pipe, act: Act, b: Pipe)
    requires Inv(a) && Next(a, act, b)
    ensures Inv(b)
  {
    hide Locks, Found, Directed, Numbered, Tokens, Covered, Next;
    LocksKept(a, act, b);
    FoundKept(a, act, b);
    DirectedKept(a, act, b);
    NumberedKept(a, act, b);
    TokensKept(a, act, b);
    CoveredKept(a, act, b);
  }
}
