/** The sending side of a node: the database, the processor, the sender, two shared blocks, two locks and
    two semaphores, as one state machine over the steps of the two programs. */
module Pipeline {
  import opened Text
  import opened Tables
  import opened Channels

  // ---- what travels in the slots -----------------------------------------------------------

  /** Requests go down to the sender in the first half of the comms block, statuses come up in the second. */
  datatype CommMsg =
    | OpenConn(ip: int, port: int, comm: int)
    | CloseConn(ip: int, fd: int, comm: int)
    | ConnStatus(fd: int, ip: int, comm: int)
    | MsgStatus(ok: bool, uuid: Id)

  predicate Down(m: CommMsg) {
    m.OpenConn? || m.CloseConn?
  }

  datatype DataMsg = DataMsg(fd: int, uuid: Id, data: Bytes)

  // ---- the state ---------------------------------------------------------------------------

  const ATTEMPTS := 3

  /** Where the processor is. `done` tells whether the message in `slot` has been stored. */
  datatype ProcessorPc =
    | PIdle
    | PRead
    | PStore(slot: nat, left: int)
    | PDelete(slot: nat, left: int)
    | PErase(slot: nat, done: bool)
    | PUnlockRead
    | PSearch
    | PSelect(slot: nat)
    | PMark(slot: nat, key: CommKey)
    | PPublish(slot: nat, msg: CommMsg)
    | PPostComm
    | PUnlockSend
    | PGive
    | PFetch(slot: nat)
    | PPublishData(slot: nat, dmsg: DataMsg)
    | PPostData
    | PUnlockGive

  /** Where the sender is. `found` tells whether this round has found a request. */
  datatype SenderPc =
    | SIdle
    | STake
    | SUnlockMsg(taken: Option<CommMsg>)
    | SAct(msg: CommMsg)
    | SReport(status: CommMsg)
    | SPost(after: CommMsg)
    | SUnlockReport(after: CommMsg)
    | STakeData(found: bool)
    | SUnlockData(found: bool, data: Option<DataMsg>)
    | SSend(dmsg: DataMsg)

  datatype Holder = Free | Processor | Sender

  datatype Pipe = Pipe(
    t: Tables,
    comms: Slots<CommMsg>,
    datas: Slots<DataMsg>,
    commLock: Holder,
    dataLock: Holder,
    sigs: nat,
    sigps: nat,
    p: ProcessorPc,
    s: SenderPc)

  predicate Init(st: Pipe) {
    && st.comms == map[] && st.datas == map[] && st.commLock == Free && st.dataLock == Free
    && st.sigs <= 1 && st.sigps <= 1 && st.p == PIdle && st.s == SIdle
    && st.t.conns == map[] && st.t.comms == map[]
    && (forall id :: id in st.t.jobs ==> st.t.jobs[id].state != S4W)
  }

  // ---- the database statements -------------------------------------------------------------

  function StatusFor(fd: int): int {
    if fd >= 0 then 2 else 1
  }

  /** `s_update_conns` */
  function UpdateConn(t: Tables, ip: int, fd: int): Tables {
    if ip in t.conns then t.(conns := t.conns[ip := Conn(fd, StatusFor(fd))]) else t
  }

  /** `s_delete_comms` */
  function DeleteComm(t: Tables, comm: int): Tables {
    t.(comms := map k | k in t.comms && t.comms[k].id != comm :: t.comms[k])
  }

  /** `s_update_comms` */
  function MarkComm(t: Tables, key: CommKey): Tables
    requires key in t.comms
  {
    t.(comms := t.comms[key := t.comms[key].(waiting := true)])
  }

  /** `s_update_job_status1` and `s_update_job_status2`: neither looks at the state the row is in. */
  function SetJobState(t: Tables, id: Id, s: State): Tables {
    if id in t.jobs then t.(jobs := t.jobs[id := t.jobs[id].(state := s)]) else t
  }

  /** The message carries the address as a signed 32-bit number. */
  function RequestOf(key: CommKey, row: Comm): CommMsg {
    var ip := AsInt32(key.ip);
    if row.closing then CloseConn(ip, key.arg, row.id) else OpenConn(ip, key.arg, row.id)
  }

  /** A job the query of `s_get_info` joins with a live connection. */
  predicate Sendable(t: Tables, id: Id, e: Endpoint) {
    && id in t.jobs && t.jobs[id].state == S4 && e in t.sysinfo && e.name == t.jobs[id].dest
    && e.ip in t.conns && t.conns[e.ip].status == 2
  }

  /** The job is one the query may return: its priority is a number, and none that can be sent has a higher one. */
  predicate Selected(t: Tables, id: Id, e: Endpoint) {
    && Sendable(t, id, e) && ParseInt(t.jobs[id].priority).Some?
    && forall o, d :: o in t.jobs && d in t.sysinfo && Sendable(t, o, d) ==>
         ParseInt(t.jobs[o].priority).Some? && ParseInt(t.jobs[o].priority).value <= ParseInt(t.jobs[id].priority).value
  }

  // ---- what the rest of the node may do to the tables --------------------------------------

  /** Everything but the processor leaves the rows in S-4W, the requests and the connections alone, brings
      no job to S-4W and none back to S-4, and only adds requests that are numbered afresh. */
  predicate Undisturbed(t: Tables, u: Tables) {
    && JobsUndisturbed(t.jobs, u.jobs)
    && CommsGrow(t, u)
    && (forall ip :: ip in t.conns ==> ip in u.conns && u.conns[ip] == t.conns[ip])
    && (forall ip :: ip in u.conns && ip !in t.conns ==> u.conns[ip] == Conn(-1, 1))
  }

  predicate JobsUndisturbed(a: Jobs, b: Jobs) {
    && (forall id :: id in a ==> id in b && JobUndisturbed(a[id], b[id]))
    && (forall id :: id in b && id !in a ==> b[id].state != S4W)
  }

  predicate JobUndisturbed(j: Job, k: Job) {
    k.data == j.data && (k.state == S4W <==> j.state == S4W) && (k.state == S4 ==> j.state == S4)
  }

  predicate CommsGrow(t: Tables, u: Tables) {
    && t.nextComm <= u.nextComm
    && (forall k :: k in t.comms ==> k in u.comms && u.comms[k] == t.comms[k])
    && (forall k :: k in u.comms && k !in t.comms ==> !u.comms[k].waiting && t.nextComm <= u.comms[k].id < u.nextComm)
    && (forall k, l ::
          k in u.comms && l in u.comms && k !in t.comms && l !in t.comms && u.comms[k].id == u.comms[l].id ==> k == l)
  }

  // ---- the steps ---------------------------------------------------------------------------

  /** One step of the processor, of the sender, or around them. */
  datatype Act =
    | Wake
    | FindStatus(i: int)
    | StoreStatus
    | StoreConn
    | DeleteRequest
    | StoreFails
    | Erase
    | UnlockRead
    | FindRoom(i: int)
    | SelectRequest(key: CommKey)
    | MarkRequest
    | RequestFails
    | PublishRequest
    | PostRequest
    | UnlockSend
    | FindDataRoom(i: int)
    | FetchJob(id: Id, e: Endpoint)
    | FetchFails
    | PublishJob
    | PostJob
    | UnlockGive
    | SenderWake
    | TakeRequest(i: int)
    | UnlockTaken
    | DoOpen(fd: int)
    | DoClose
    | PutStatus(i: int)
    | PostStatus
    | UnlockPut
    | TakeJob(i: int)
    | UnlockJob
    | DoSend(sent: bool)
    | Notify
    | Environment

  /** `run_process`, `read_msg_from_sender`, `store_comms_into_database`. */
  ghost predicate ReadStep(a: Pipe, act: Act, b: Pipe) {
    match act
    case Wake => a.p.PIdle? && a.sigps > 0 && b == a.(p := PRead, sigps := a.sigps - 1)
    case FindStatus(i) =>
      && a.p.PRead? && a.commLock == Free && IsFirst(a.comms.Keys, 1, 2, i)
      && b == a.(commLock := Processor, p := if i == -1 then PUnlockRead else PStore(i, ATTEMPTS))
    case StoreStatus =>
      && a.p.PStore? && a.p.slot in a.comms && a.comms[a.p.slot].MsgStatus?
      && b == a.(t := SetJobState(a.t, a.comms[a.p.slot].uuid, if a.comms[a.p.slot].ok then C else D),
                 p := PErase(a.p.slot, true))
    case StoreConn =>
      && a.p.PStore? && a.p.slot in a.comms && a.comms[a.p.slot].ConnStatus?
      && b == a.(t := UpdateConn(a.t, a.comms[a.p.slot].ip, a.comms[a.p.slot].fd), p := PDelete(a.p.slot, a.p.left))
    case DeleteRequest =>
      && a.p.PDelete? && a.p.slot in a.comms && a.comms[a.p.slot].ConnStatus?
      && b == a.(t := DeleteComm(a.t, a.comms[a.p.slot].comm), p := PErase(a.p.slot, true))
    case StoreFails =>
      && (a.p.PStore? || a.p.PDelete?)
      && b == a.(p := if a.p.left > 1 then PStore(a.p.slot, a.p.left - 1) else PErase(a.p.slot, false))
    case Erase => a.p.PErase? && b == a.(comms := a.comms - {a.p.slot}, p := PUnlockRead)
    case UnlockRead => a.p.PUnlockRead? && b == a.(commLock := Free, p := PSearch)
    case _ => false
  }

  /** `send_msg_to_sender`, `retrive_comms_from_database`. */
  ghost predicate RequestStep(a: Pipe, act: Act, b: Pipe) {
    match act
    case FindRoom(i) =>
      && a.p.PSearch? && a.commLock == Free && IsFirst(a.comms.Keys, 0, 1, i)
      && b == a.(commLock := Processor, p := if i == -1 then PUnlockSend else PSelect(i))
    case SelectRequest(key) =>
      a.p.PSelect? && key in a.t.comms && !a.t.comms[key].waiting && b == a.(p := PMark(a.p.slot, key))
    case MarkRequest =>
      && a.p.PMark? && a.p.key in a.t.comms
      && b == a.(t := MarkComm(a.t, a.p.key), p := PPublish(a.p.slot, RequestOf(a.p.key, a.t.comms[a.p.key])))
    case RequestFails => (a.p.PSelect? || a.p.PMark?) && b == a.(p := PUnlockSend)
    case PublishRequest =>
      && a.p.PPublish? && a.p.slot < TOTAL_PARTITIONS
      && b == a.(comms := a.comms[a.p.slot := a.p.msg], p := PPostComm)
    case PostRequest => a.p.PPostComm? && b == a.(sigs := a.sigs + 1, p := PUnlockSend)
    case UnlockSend => a.p.PUnlockSend? && b == a.(commLock := Free, p := PGive)
    case _ => false
  }

  /** `give_data_to_sender`, `retrive_data_from_database`; the transaction commits in one step or fails. */
  ghost predicate GiveStep(a: Pipe, act: Act, b: Pipe) {
    match act
    case FindDataRoom(i) =>
      && a.p.PGive? && a.dataLock == Free && IsFirst(a.datas.Keys, 0, 3, i)
      && b == a.(dataLock := Processor, p := if i == -1 then PUnlockGive else PFetch(i))
    case FetchJob(id, e) =>
      && a.p.PFetch? && Selected(a.t, id, e)
      && b == a.(t := SetJobState(a.t, id, S4W),
                 p := PPublishData(a.p.slot, DataMsg(a.t.conns[e.ip].sfd, id, a.t.jobs[id].data)))
    case FetchFails => a.p.PFetch? && b == a.(p := PUnlockGive)
    case PublishJob =>
      && a.p.PPublishData? && a.p.slot < TOTAL_PARTITIONS
      && b == a.(datas := a.datas[a.p.slot := a.p.dmsg], p := PPostData)
    case PostJob => a.p.PPostData? && b == a.(sigs := a.sigs + 1, p := PUnlockGive)
    case UnlockGive => a.p.PUnlockGive? && b == a.(dataLock := Free, p := PIdle)
    case _ => false
  }

  /** The first half of a round of `run_sender`. */
  ghost predicate TakeStep(a: Pipe, act: Act, b: Pipe) {
    match act
    case SenderWake => a.s.SIdle? && a.sigs > 0 && b == a.(s := STake, sigs := a.sigs - 1)
    case TakeRequest(i) =>
      && a.s.STake? && a.commLock == Free && IsFirst(a.comms.Keys, 1, 1, i)
      && b == if i in a.comms then a.(commLock := Sender, s := SUnlockMsg(Some(a.comms[i])), comms := a.comms - {i})
              else a.(commLock := Sender, s := SUnlockMsg(None))
    case UnlockTaken =>
      && a.s.SUnlockMsg?
      && b == a.(commLock := Free,
                 s := if a.s.taken.None? then STakeData(false)
                      else if Down(a.s.taken.value) then SAct(a.s.taken.value) else STakeData(true))
    case DoOpen(fd) =>
      a.s.SAct? && a.s.msg.OpenConn? && b == a.(s := SReport(ConnStatus(fd, a.s.msg.ip, a.s.msg.comm)))
    case DoClose =>
      a.s.SAct? && a.s.msg.CloseConn? && b == a.(s := SReport(ConnStatus(-1, a.s.msg.ip, a.s.msg.comm)))
    case _ => false
  }

  /** `send_message_to_processor`; a full half drops the status at once. */
  ghost predicate ReportStep(a: Pipe, act: Act, b: Pipe) {
    match act
    case PutStatus(i) =>
      && a.s.SReport? && a.commLock == Free && IsFirst(a.comms.Keys, 0, 2, i)
      && b == if i >= 0 then a.(commLock := Sender, s := SPost(a.s.status), comms := a.comms[i := a.s.status])
              else a.(commLock := Sender, s := SUnlockReport(a.s.status))
    case PostStatus => a.s.SPost? && b == a.(sigps := a.sigps + 1, s := SUnlockReport(a.s.after))
    case UnlockPut =>
      a.s.SUnlockReport? && b == a.(commLock := Free, s := if a.s.after.MsgStatus? then SIdle else STakeData(true))
    case _ => false
  }

  /** The second half of a round of `run_sender`. */
  ghost predicate SendStep(a: Pipe, act: Act, b: Pipe) {
    match act
    case TakeJob(i) =>
      && a.s.STakeData? && a.dataLock == Free && IsFirst(a.datas.Keys, 1, 3, i)
      && b == if i in a.datas
              then a.(dataLock := Sender, s := SUnlockData(a.s.found, Some(a.datas[i])), datas := a.datas - {i})
              else a.(dataLock := Sender, s := SUnlockData(a.s.found, None))
    case UnlockJob =>
      a.s.SUnlockData? && b == a.(dataLock := Free, s := if a.s.data.Some? then SSend(a.s.data.value) else SIdle)
    case DoSend(sent) => a.s.SSend? && b == a.(s := SReport(MsgStatus(sent, a.s.dmsg.uuid)))
    case _ => false
  }

  ghost predicate ProcessorStep(a: Pipe, act: Act, b: Pipe) {
    ReadStep(a, act, b) || RequestStep(a, act, b) || GiveStep(a, act, b)
  }

  ghost predicate SenderStep(a: Pipe, act: Act, b: Pipe) {
    TakeStep(a, act, b) || ReportStep(a, act, b) || SendStep(a, act, b)
  }

  /** A notification only posts the processor's semaphore; the rest of the node only uses the tables. */
  predicate AroundStep(a: Pipe, act: Act, b: Pipe) {
    || (act.Notify? && b == a.(sigps := a.sigps + 1))
    || (act.Environment? && Undisturbed(a.t, b.t) && b == a.(t := b.t))
  }

  ghost predicate Next(a: Pipe, act: Act, b: Pipe) {
    ProcessorStep(a, act, b) || SenderStep(a, act, b) || AroundStep(a, act, b)
  }
}
