/** What the sender reports about connections, and what the database holds of it. */
module Reports {
  import opened Text
  import opened Tables
  import opened Channels
  import opened Pipeline
  import opened PipelineInv
  import opened PipelineProperties
  import opened PipelineRuns

  // ---- one report --------------------------------------------------------------------------

  /** The step stores the report that the connection to `ip` has descriptor `fd`, or none if it is negative. */
  predicate Reports(st: Pipe, act: Act, ip: int, fd: int) {
    && act.StoreConn? && st.p.PStore? && st.p.slot in st.comms && st.comms[st.p.slot].ConnStatus?
    && st.comms[st.p.slot].ip == ip && st.comms[st.p.slot].fd == fd
  }

  /** A connection with descriptor `fd`: it is up exactly if there is one. */
  function ConnOf(fd: int): Conn {
    Conn(fd, if fd >= 0 then 2 else 1)
  }

  /** A stored report sets the row of its address, whatever it was, and no other step changes any row; new rows
      start without a connection. */
  lemma ConnStep(a: Pipe, act: Act, b: Pipe, ip: int)
    requires Next(a, act, b)
    ensures ip in a.t.conns ==> ip in b.t.conns
    ensures forall fd :: Reports(a, act, ip, fd) && ip in a.t.conns ==> b.t.conns[ip] == ConnOf(fd)
    ensures ip in a.t.conns && (forall fd :: !Reports(a, act, ip, fd)) ==> b.t.conns[ip] == a.t.conns[ip]
    ensures ip in b.t.conns && ip !in a.t.conns ==> b.t.conns[ip] == Conn(-1, 1)
  {
    hide Next, JobsUndisturbed, CommsGrow, Sendable;
    TablesChange(a, act, b);
    if act.StoreConn? {
      assert Reports(a, act, a.comms[a.p.slot].ip, a.comms[a.p.slot].fd);
    }
  }

  // ---- whole runs --------------------------------------------------------------------------

  /** The descriptor of the last report stored for a row of that address. */
  function LastReport(run: seq<Pipe>, acts: seq<Act>, n: nat, ip: int): Option<int>
    requires n < |run| == |acts| + 1
  {
    if n == 0 then None
    else if ip in run[n - 1].t.conns && IsReport(run[n - 1], acts[n - 1], ip)
    then Some(run[n - 1].comms[run[n - 1].p.slot].fd)
    else LastReport(run, acts, n - 1, ip)
  }

  predicate IsReport(st: Pipe, act: Act, ip: int) {
    && act.StoreConn? && st.p.PStore? && st.p.slot in st.comms && st.comms[st.p.slot].ConnStatus?
    && st.comms[st.p.slot].ip == ip
  }

  /** In any run each connection is as the last report for it says, and down before the first. */
  lemma {:induction false} ConnsAreReports(run: seq<Pipe>, acts: seq<Act>, n: nat, ip: int)
    requires IsRun(run, acts) && n < |run| && ip in run[n].t.conns
    ensures run[n].t.conns[ip] == match LastReport(run, acts, n, ip)
                                  case None => Conn(-1, 1)
                                  case Some(fd) => ConnOf(fd)
  {
    hide Next;
    if n == 0 {
    } else {
      assert Next(run[n - 1], acts[n - 1], run[n]);
      ConnStep(run[n - 1], acts[n - 1], run[n], ip);
      if ip in run[n - 1].t.conns {
        ConnsAreReports(run, acts, n - 1, ip);
        if IsReport(run[n - 1], acts[n - 1], ip) {
          assert Reports(run[n - 1], acts[n - 1], ip, run[n - 1].comms[run[n - 1].p.slot].fd);
        }
      } else {
        NoRowNoReport(run, acts, n - 1, ip);
      }
    }
  }

  /** Rows are never removed, so before there is one nothing can have been reported for it. */
  lemma {:induction false} NoRowNoReport(run: seq<Pipe>, acts: seq<Act>, n: nat, ip: int)
    requires IsRun(run, acts) && n < |run| && ip !in run[n].t.conns
    ensures LastReport(run, acts, n, ip) == None
  {
    hide Next, Init;
    if n > 0 {
      assert Next(run[n - 1], acts[n - 1], run[n]);
      ConnStep(run[n - 1], acts[n - 1], run[n], ip);
      NoRowNoReport(run, acts, n - 1, ip);
    }
  }

  /** Where the last report was stored. */
  lemma {:induction false} LastReportIs(run: seq<Pipe>, acts: seq<Act>, n: nat, ip: int, fd: int) returns (k: nat)
    requires n < |run| == |acts| + 1 && LastReport(run, acts, n, ip) == Some(fd)
    ensures k < n && Reports(run[k], acts[k], ip, fd) && ip in run[k].t.conns
    ensures forall j :: k < j < n && ip in run[j].t.conns ==> !IsReport(run[j], acts[j], ip)
  {
    if ip in run[n - 1].t.conns && IsReport(run[n - 1], acts[n - 1], ip) {
      k := n - 1;
    } else {
      k := LastReportIs(run, acts, n - 1, ip, fd);
    }
  }

  /** A job is handed over with the descriptor that was last reported for the address of its destination, and
      none has been reported for it since. */
  lemma FetchUsesReport(run: seq<Pipe>, acts: seq<Act>, n: nat) returns (k: nat)
    requires IsRun(run, acts) && n < |acts| && acts[n].FetchJob?
    ensures run[n + 1].p.PPublishData?
    ensures var e, d := acts[n].e, run[n + 1].p.dmsg;
            && d.uuid == acts[n].id && d.uuid in run[n].t.jobs && d.data == run[n].t.jobs[d.uuid].data
            && e in run[n].t.sysinfo && e.name == run[n].t.jobs[d.uuid].dest
            && k < n && d.fd >= 0 && Reports(run[k], acts[k], e.ip, d.fd)
            && forall j :: k < j < n && e.ip in run[j].t.conns ==> !IsReport(run[j], acts[j], e.ip)
  {
    hide Next, Init;
    var e := acts[n].e;
    assert Next(run[n], acts[n], run[n + 1]);
    TablesChange(run[n], acts[n], run[n + 1]);
    ConnsAreReports(run, acts, n, e.ip);
    k := LastReportIs(run, acts, n, e.ip, run[n + 1].p.dmsg.fd);
  }

  // ---- where reports and requests come from ------------------------------------------------

  /** The message is in a slot or in the hands of one of the programs. */
  ghost predicate HasMsg(st: Pipe, m: CommMsg) {
    || (exists i :: i in st.comms && st.comms[i] == m)
    || (st.p.PPublish? && st.p.msg == m)
    || (match st.s
        case SUnlockMsg(taken) => taken == Some(m)
        case SAct(msg) => msg == m
        case SReport(status) => status == m
        case _ => false)
  }

  /** The database hands over the request `key`: its address as a 32-bit number, its port or descriptor, its number. */
  predicate HandsOver(st: Pipe, act: Act, m: CommMsg) {
    && act.MarkRequest? && st.p.PMark? && st.p.key in st.t.comms && !st.t.comms[st.p.key].waiting
    && var key, row := st.p.key, st.t.comms[st.p.key];
       m == if row.closing then CloseConn(AsInt32(key.ip), key.arg, row.id)
         else OpenConn(AsInt32(key.ip), key.arg, row.id)
  }

  /** The sender carries out a request, and reports the new descriptor, or -1 for a closed connection. */
  predicate CarriesOut(st: Pipe, act: Act, m: CommMsg) {
    && m.ConnStatus? && st.s.SAct?
    && ((act == DoOpen(m.fd) && st.s.msg.OpenConn? && st.s.msg.ip == m.ip && st.s.msg.comm == m.comm)
        || (act == DoClose && m.fd == -1 && st.s.msg.CloseConn? && st.s.msg.ip == m.ip && st.s.msg.comm == m.comm))
  }

  /** A message between the programs is only ever made in one of these ways. */
  lemma MsgStep(a: Pipe, act: Act, b: Pipe, m: CommMsg)
    requires Found(a) && Next(a, act, b) && HasMsg(b, m) && !m.MsgStatus?
    ensures HasMsg(a, m) || HandsOver(a, act, m) || CarriesOut(a, act, m)
  {
    hide ReadStep, RequestStep, GiveStep, TakeStep, ReportStep, SendStep, Found, HasMsg, HandsOver, CarriesOut;
    if ReadStep(a, act, b) { MsgByRead(a, act, b, m); }
    else if RequestStep(a, act, b) { MsgByRequest(a, act, b, m); }
    else if GiveStep(a, act, b) { MsgByGive(a, act, b, m); }
    else if TakeStep(a, act, b) { MsgByTake(a, act, b, m); }
    else if ReportStep(a, act, b) { MsgByReport(a, act, b, m); }
    else if SendStep(a, act, b) { MsgBySend(a, act, b, m); }
    else { MsgAround(a, act, b, m); }
  }

  lemma MsgByRead(a: Pipe, act: Act, b: Pipe, m: CommMsg)
    requires ReadStep(a, act, b) && HasMsg(b, m)
    ensures HasMsg(a, m)
  {
    hide IsFirst, SetJobState, UpdateConn, DeleteComm;
  }

  lemma MsgByRequest(a: Pipe, act: Act, b: Pipe, m: CommMsg)
    requires Found(a) && RequestStep(a, act, b) && HasMsg(b, m)
    ensures HasMsg(a, m) || HandsOver(a, act, m)
  {
    hide IsFirst;
  }

  lemma MsgByGive(a: Pipe, act: Act, b: Pipe, m: CommMsg)
    requires GiveStep(a, act, b) && HasMsg(b, m)
    ensures HasMsg(a, m)
  {
    hide IsFirst, Selected, SetJobState;
  }

  lemma MsgByTake(a: Pipe, act: Act, b: Pipe, m: CommMsg)
    requires TakeStep(a, act, b) && HasMsg(b, m)
    ensures HasMsg(a, m) || CarriesOut(a, act, m)
  {
    hide IsFirst;
  }

  lemma MsgByReport(a: Pipe, act: Act, b: Pipe, m: CommMsg)
    requires ReportStep(a, act, b) && HasMsg(b, m)
    ensures HasMsg(a, m)
  {
    hide IsFirst;
  }

  lemma MsgBySend(a: Pipe, act: Act, b: Pipe, m: CommMsg)
    requires SendStep(a, act, b) && HasMsg(b, m) && !m.MsgStatus?
    ensures HasMsg(a, m)
  {
    hide IsFirst;
  }

  lemma MsgAround(a: Pipe, act: Act, b: Pipe, m: CommMsg)
    requires AroundStep(a, act, b) && HasMsg(b, m)
    ensures HasMsg(a, m)
  {
    hide Undisturbed;
  }

  lemma {:induction false} MsgOrigin(run: seq<Pipe>, acts: seq<Act>, n: nat, m: CommMsg) returns (j: nat)
    requires IsRun(run, acts) && n < |run| && !m.MsgStatus? && HasMsg(run[n], m)
    ensures j < n && (HandsOver(run[j], acts[j], m) || CarriesOut(run[j], acts[j], m))
  {
    hide Next, HasMsg, HandsOver, CarriesOut, Locks, Found, Directed, Numbered, Tokens, Covered;
    if n == 0 {
      NoMsgYet(run[0], m);
    } else {
      RunInv(run, acts, n - 1);
      assert Next(run[n - 1], acts[n - 1], run[n]);
      MsgStep(run[n - 1], acts[n - 1], run[n], m);
      if HasMsg(run[n - 1], m) { j := MsgOrigin(run, acts, n - 1, m); } else { j := n - 1; }
    }
  }

  lemma NoMsgYet(st: Pipe, m: CommMsg)
    requires Init(st)
    ensures !HasMsg(st, m)
  {
  }

  /** Every report that is stored tells what became of a request: the sender carried it out at step `j`, after the
      database had handed exactly that request over at step `k`. */
  lemma ReportOrigin(run: seq<Pipe>, acts: seq<Act>, n: nat, ip: int, fd: int) returns (k: nat, j: nat)
    requires IsRun(run, acts) && n < |acts| && Reports(run[n], acts[n], ip, fd)
    ensures k < j < n && CarriesOut(run[j], acts[j], run[n].comms[run[n].p.slot])
    ensures run[j].s.SAct? && HandsOver(run[k], acts[k], run[j].s.msg)
  {
    hide Next, Init, HandsOver, CarriesOut;
    var m := run[n].comms[run[n].p.slot];
    assert HasMsg(run[n], m);
    j := MsgOrigin(run, acts, n, m);
    NoStatusHandedOver(run[j], acts[j], m);
    ActsOnRequest(run[j], acts[j], m);
    k := MsgOrigin(run, acts, j, run[j].s.msg);
    NotCarriedOut(run[k], acts[k], run[j].s.msg);
  }

  lemma NoStatusHandedOver(st: Pipe, act: Act, m: CommMsg)
    requires m.ConnStatus?
    ensures !HandsOver(st, act, m)
  {
  }

  lemma ActsOnRequest(st: Pipe, act: Act, m: CommMsg)
    requires CarriesOut(st, act, m)
    ensures st.s.SAct? && Down(st.s.msg) && HasMsg(st, st.s.msg)
  {
  }

  lemma NotCarriedOut(st: Pipe, act: Act, m: CommMsg)
    requires Down(m)
    ensures !CarriesOut(st, act, m)
  {
  }

  // ---- a request and its answer ------------------------------------------------------------

  /** While the processor is about to delete a request, the report in its hands has been stored. */
  lemma {:induction false} StoredFirst(run: seq<Pipe>, acts: seq<Act>, n: nat) returns (k: nat)
    requires IsRun(run, acts) && n < |run| && run[n].p.PDelete?
    ensures run[n].p.slot in run[n].comms && run[n].comms[run[n].p.slot].ConnStatus?
    ensures var m := run[n].comms[run[n].p.slot];
            && k < n && Reports(run[k], acts[k], m.ip, m.fd) && run[k].comms[run[k].p.slot] == m
            && forall i :: k < i < n ==> !acts[i].StoreConn?
  {
    hide Next, Locks, Directed, Numbered, Tokens, Covered, IsFirst, Init;
    RunInv(run, acts, n);
    if n == 0 {
      NotAtFirst(run[0]);
    } else {
      RunInv(run, acts, n - 1);
      assert Next(run[n - 1], acts[n - 1], run[n]);
      BeforeDelete(run[n - 1], acts[n - 1], run[n]);
      if run[n - 1].p.PDelete? { k := StoredFirst(run, acts, n - 1); } else { k := n - 1; }
    }
  }

  lemma NotAtFirst(st: Pipe)
    requires Init(st)
    ensures !st.p.PDelete?
  {
  }

  lemma BeforeDelete(a: Pipe, act: Act, b: Pipe)
    requires Inv(a) && Inv(b) && Next(a, act, b) && b.p.PDelete?
    ensures b.p.slot in b.comms && b.comms[b.p.slot].ConnStatus?
    ensures var m := b.comms[b.p.slot];
            || (Reports(a, act, m.ip, m.fd) && a.comms[a.p.slot] == m)
            || (a.p.PDelete? && a.p.slot == b.p.slot && a.p.slot in a.comms && a.comms[a.p.slot] == m
              && !act.StoreConn?)
  {
    hide Directed, Numbered, Tokens, Covered, IsFirst, Next;
    if ProcessorStep(a, act, b) { ProcessorToDelete(a, act, b); } else { OthersLeaveSlot(a, act, b); }
  }

  lemma ProcessorToDelete(a: Pipe, act: Act, b: Pipe)
    requires ProcessorStep(a, act, b) && b.p.PDelete?
    ensures act.StoreConn? && a.p.PStore? && b.p.slot == a.p.slot && b.comms == a.comms
    ensures a.p.slot in a.comms && a.comms[a.p.slot].ConnStatus?
  {
    hide ReadStep, RequestStep, GiveStep;
    if ReadStep(a, act, b) { ReadToDelete(a, act, b); }
    else if RequestStep(a, act, b) { RequestElsewhere(a, act, b); }
    else { GiveElsewhere(a, act, b); }
  }

  lemma ReadToDelete(a: Pipe, act: Act, b: Pipe)
    requires ReadStep(a, act, b) && b.p.PDelete?
    ensures act.StoreConn? && a.p.PStore? && b.p.slot == a.p.slot && b.comms == a.comms
    ensures a.p.slot in a.comms && a.comms[a.p.slot].ConnStatus?
  {
    hide IsFirst, SetJobState, UpdateConn, DeleteComm;
  }

  lemma RequestElsewhere(a: Pipe, act: Act, b: Pipe)
    requires RequestStep(a, act, b)
    ensures !b.p.PDelete?
  {
    hide IsFirst, MarkComm, RequestOf;
  }

  lemma GiveElsewhere(a: Pipe, act: Act, b: Pipe)
    requires GiveStep(a, act, b)
    ensures !b.p.PDelete?
  {
    hide IsFirst, SetJobState, Selected;
  }

  /** The sender cannot touch the slot while the processor holds the lock. */
  lemma OthersLeaveSlot(a: Pipe, act: Act, b: Pipe)
    requires Locks(a) && Found(a) && Next(a, act, b) && !ProcessorStep(a, act, b) && b.p.PDelete?
    ensures a.p == b.p && a.p.slot in a.comms && a.p.slot in b.comms && b.comms[a.p.slot] == a.comms[a.p.slot]
    ensures a.comms[a.p.slot].ConnStatus? && !act.StoreConn?
  {
    hide TakeStep, ReportStep, SendStep, AroundStep, ProcessorStep, Locks, Found;
    if TakeStep(a, act, b) { TakeLeavesSlot(a, act, b); }
    else if ReportStep(a, act, b) { ReportNeedsLock(a, act, b); }
    else if SendStep(a, act, b) { SendLeavesSlot(a, act, b); }
    else { AroundLeavesSlot(a, act, b); }
    FoundAtDelete(a);
  }

  lemma FoundAtDelete(st: Pipe)
    requires Found(st) && st.p.PDelete?
    ensures st.p.slot in st.comms && st.comms[st.p.slot].ConnStatus?
  {
    hide IsFirst;
  }

  lemma TakeLeavesSlot(a: Pipe, act: Act, b: Pipe)
    requires Locks(a) && TakeStep(a, act, b) && b.p.PDelete?
    ensures a.p == b.p && (a.p.slot in a.comms ==> a.p.slot in b.comms && b.comms[a.p.slot] == a.comms[a.p.slot])
    ensures !act.StoreConn?
  {
    hide IsFirst;
  }

  /** The sender never reports while the processor holds the lock. */
  lemma ReportNeedsLock(a: Pipe, act: Act, b: Pipe)
    requires Locks(a) && ReportStep(a, act, b)
    ensures b.p == a.p && !b.p.PDelete?
  {
    hide IsFirst;
  }

  lemma SendLeavesSlot(a: Pipe, act: Act, b: Pipe)
    requires SendStep(a, act, b)
    ensures a.p == b.p && b.comms == a.comms && !act.StoreConn?
  {
    hide IsFirst;
  }

  lemma AroundLeavesSlot(a: Pipe, act: Act, b: Pipe)
    requires AroundStep(a, act, b)
    ensures a.p == b.p && b.comms == a.comms && !act.StoreConn?
  {
    hide Undisturbed;
  }

  /** A request goes away only after the report about it has been stored: whatever connection it was about, its row
      is as reported, unless it had none. */
  lemma RequestAnswered(run: seq<Pipe>, acts: seq<Act>, n: nat, key: CommKey) returns (k: nat, m: CommMsg)
    requires IsRun(run, acts) && n < |acts| && key in run[n].t.comms && key !in run[n + 1].t.comms
    ensures m.ConnStatus? && m.comm == run[n].t.comms[key].id
    ensures k < n && Reports(run[k], acts[k], m.ip, m.fd)
    ensures m.ip in run[k].t.conns ==> m.ip in run[n].t.conns && run[n].t.conns[m.ip] == ConnOf(m.fd)
  {
    hide Next, Init, Locks, Directed, Numbered, Tokens, Covered;
    RunInv(run, acts, n);
    assert Next(run[n], acts[n], run[n + 1]);
    RequestKept(run[n], acts[n], run[n + 1], key);
    k := StoredFirst(run, acts, n);
    m := run[n].comms[run[n].p.slot];
    if m.ip in run[k].t.conns {
      assert Next(run[k], acts[k], run[k + 1]);
      ConnStep(run[k], acts[k], run[k + 1], m.ip);
      StaysReported(run, acts, k + 1, n, m.ip);
    }
  }

  lemma {:induction false} StaysReported(run: seq<Pipe>, acts: seq<Act>, i: nat, j: nat, ip: int)
    requires IsRun(run, acts) && i <= j < |run| && ip in run[i].t.conns
    requires forall x :: i <= x < j ==> !acts[x].StoreConn?
    ensures ip in run[j].t.conns && run[j].t.conns[ip] == run[i].t.conns[ip]
  {
    hide Next, Init;
    if i < j {
      StaysReported(run, acts, i, j - 1, ip);
      assert Next(run[j - 1], acts[j - 1], run[j]);
      ConnStep(run[j - 1], acts[j - 1], run[j], ip);
    }
  }

  /** Job `o` is ready, and system `d` of its destination is connected. */
  predicate CanGo(t: Tables, o: Id, d: Endpoint) {
    && o in t.jobs && t.jobs[o].state == S4 && d in t.sysinfo && d.name == t.jobs[o].dest
    && d.ip in t.conns && t.conns[d.ip].status == 2
  }

  /** The fetched job is ready and its connection is up, and so is no job of a higher priority. */
  lemma FetchMostUrgent(a: Pipe, act: Act, b: Pipe)
    requires Next(a, act, b) && act.FetchJob?
    ensures act.id in a.t.jobs && a.t.jobs[act.id].state == S4 && ParseInt(a.t.jobs[act.id].priority).Some?
    ensures act.e.ip in a.t.conns && a.t.conns[act.e.ip].status == 2
    ensures forall o, d :: CanGo(a.t, o, d) ==>
              var p := ParseInt(a.t.jobs[o].priority);
              p.Some? && p.value <= ParseInt(a.t.jobs[act.id].priority).value
  {
    hide IsFirst, ParseInt, Undisturbed;
  }

  // ---- attempts ----------------------------------------------------------------------------

  /** How many attempts have failed from step `i` to step `j`. */
  function Fails(acts: seq<Act>, i: nat, j: nat): nat
    requires i <= j <= |acts|
  {
    if i == j then 0 else Fails(acts, i, j - 1) + if acts[j - 1].StoreFails? then 1 else 0
  }

  predicate Trying(p: ProcessorPc) {
    p.PStore? || p.PDelete?
  }

  lemma Attempt(a: Pipe, act: Act, b: Pipe)
    requires Next(a, act, b) && Trying(b.p)
    ensures if Trying(a.p)
            then a.p.slot == b.p.slot
                 && (if act.StoreFails? then a.p.left > 1 && b.p.left == a.p.left - 1 else b.p.left == a.p.left)
            else act == FindStatus(b.p.slot) && b.p.left == 3
  {
    hide ReadStep, RequestStep, GiveStep, SenderStep, AroundStep;
    if ReadStep(a, act, b) { AttemptByRead(a, act, b); }
    else if RequestStep(a, act, b) { RequestElsewhere(a, act, b); RequestTriesNothing(a, act, b); }
    else if GiveStep(a, act, b) { GiveElsewhere(a, act, b); GiveTriesNothing(a, act, b); }
    else { OthersTryNothing(a, act, b); }
  }

  lemma AttemptByRead(a: Pipe, act: Act, b: Pipe)
    requires ReadStep(a, act, b) && Trying(b.p)
    ensures if Trying(a.p)
            then a.p.slot == b.p.slot
                 && (if act.StoreFails? then a.p.left > 1 && b.p.left == a.p.left - 1 else b.p.left == a.p.left)
            else act == FindStatus(b.p.slot) && b.p.left == 3
  {
    hide IsFirst, SetJobState, UpdateConn, DeleteComm;
  }

  lemma RequestTriesNothing(a: Pipe, act: Act, b: Pipe)
    requires RequestStep(a, act, b)
    ensures !Trying(b.p) && !b.p.PErase?
  {
    hide IsFirst, MarkComm, RequestOf;
  }

  lemma GiveTriesNothing(a: Pipe, act: Act, b: Pipe)
    requires GiveStep(a, act, b)
    ensures !Trying(b.p) && !b.p.PErase?
  {
    hide IsFirst, SetJobState, Selected;
  }

  lemma OthersTryNothing(a: Pipe, act: Act, b: Pipe)
    requires SenderStep(a, act, b) || AroundStep(a, act, b)
    ensures b.p == a.p && !act.StoreFails?
  {
    hide TakeStep, ReportStep, SendStep, Undisturbed;
    if TakeStep(a, act, b) { TakeTriesNothing(a, act, b); }
    else if ReportStep(a, act, b) { ReportTriesNothing(a, act, b); }
    else if SendStep(a, act, b) { SendTriesNothing(a, act, b); }
  }

  lemma TakeTriesNothing(a: Pipe, act: Act, b: Pipe)
    requires TakeStep(a, act, b)
    ensures b.p == a.p && !act.StoreFails?
  {
    hide IsFirst;
  }

  lemma ReportTriesNothing(a: Pipe, act: Act, b: Pipe)
    requires ReportStep(a, act, b)
    ensures b.p == a.p && !act.StoreFails?
  {
    hide IsFirst;
  }

  lemma SendTriesNothing(a: Pipe, act: Act, b: Pipe)
    requires SendStep(a, act, b)
    ensures b.p == a.p && !act.StoreFails?
  {
    hide IsFirst;
  }

  /** While the processor tries, it has failed as often since it found the status as it has attempts less. */
  lemma {:induction false} TriedSince(run: seq<Pipe>, acts: seq<Act>, n: nat) returns (f: nat)
    requires IsRun(run, acts) && n < |run| && Trying(run[n].p)
    ensures f < n && acts[f] == FindStatus(run[n].p.slot)
    ensures Fails(acts, f, n) == 3 - run[n].p.left && run[n].p.left >= 1
  {
    hide Next, Init;
    if n == 0 {
      IdleAtFirst(run[0]);
    } else {
      assert Next(run[n - 1], acts[n - 1], run[n]);
      Attempt(run[n - 1], acts[n - 1], run[n]);
      if Trying(run[n - 1].p) {
        f := TriedSince(run, acts, n - 1);
      } else {
        f := n - 1;
        assert Fails(acts, f, f) == 0;
      }
    }
  }

  lemma IdleAtFirst(st: Pipe)
    requires Init(st)
    ensures st.p.PIdle?
  {
  }

  /** How the processor comes to clear a slot: its status has been stored, and for a connection its request deleted,
      or this was the last attempt. */
  lemma EraseStep(a: Pipe, act: Act, b: Pipe)
    requires Next(a, act, b) && b.p.PErase?
    ensures || b.p == a.p
            || (Trying(a.p) && a.p.slot == b.p.slot
                && if b.p.done then act.StoreStatus? || act.DeleteRequest? else act.StoreFails? && a.p.left <= 1)
  {
    hide ReadStep, RequestStep, GiveStep, SenderStep, AroundStep;
    if ReadStep(a, act, b) { EraseByRead(a, act, b); }
    else if RequestStep(a, act, b) { RequestTriesNothing(a, act, b); }
    else if GiveStep(a, act, b) { GiveTriesNothing(a, act, b); }
    else { OthersTryNothing(a, act, b); }
  }

  lemma EraseByRead(a: Pipe, act: Act, b: Pipe)
    requires ReadStep(a, act, b) && b.p.PErase?
    ensures Trying(a.p) && a.p.slot == b.p.slot
    ensures if b.p.done then act.StoreStatus? || act.DeleteRequest? else act.StoreFails? && a.p.left <= 1
  {
    hide IsFirst, SetJobState, UpdateConn, DeleteComm;
  }

  /** A status leaves its slot only after all of it has been stored, or after three failed attempts since it was
      found at step `f`; `k` is the last of them. */
  lemma {:induction false} ClearedIsHandled(run: seq<Pipe>, acts: seq<Act>, n: nat) returns (f: nat, k: nat)
    requires IsRun(run, acts) && n < |run| && run[n].p.PErase?
    ensures f < k < n && acts[f] == FindStatus(run[n].p.slot) && Trying(run[k].p) && run[k].p.slot == run[n].p.slot
    ensures if run[n].p.done then acts[k].StoreStatus? || acts[k].DeleteRequest? else Fails(acts, f, k + 1) == 3
  {
    hide Next, Init;
    if n == 0 {
      IdleAtFirst(run[0]);
    } else {
      assert Next(run[n - 1], acts[n - 1], run[n]);
      EraseStep(run[n - 1], acts[n - 1], run[n]);
      if run[n - 1].p.PErase? {
        f, k := ClearedIsHandled(run, acts, n - 1);
      } else {
        k := n - 1;
        f := TriedSince(run, acts, k);
      }
    }
  }

  /** A deletion removes exactly the request that the report in hand answers. */
  lemma AnswerDeletes(a: Pipe, act: Act, b: Pipe, key: CommKey)
    requires Next(a, act, b) && act.DeleteRequest?
    ensures a.p.PDelete? && a.p.slot in a.comms && a.comms[a.p.slot].ConnStatus?
    ensures key in b.t.comms <==> key in a.t.comms && a.t.comms[key].id != a.comms[a.p.slot].comm
    ensures key in b.t.comms ==> b.t.comms[key] == a.t.comms[key]
  {
    hide Next, JobsUndisturbed, CommsGrow, Sendable;
    TablesChange(a, act, b);
  }
}
