/** The receiving side of a node: the receiver with its table of message sizes, the processor that stores
    what arrives, two shared blocks, two locks and one semaphore, as one state machine. */
module Receiving {
  import opened Text
  import opened Tables
  import opened Channels
  import opened HashSpec

  /** Sizes go down to the receiver in the first half of the comms block, connection events come up in the
      second. The data block carries received messages. */
  datatype RMsg =
    | SizeOf(key: Key, capacity: int)
    | ConnEvent(fd: int, ip: int, status: int)

  datatype NewMsg = NewMsg(fd: int, data: Bytes)

  /** A row of receiving_conns. */
  datatype RConn = RConn(ip: int, status: int)

  const ATTEMPTS := 3

  /** Where the processor is. `found` tells whether this round has taken a connection event. */
  datatype ProcessorPc =
    | RIdle
    | RRead
    | RStoreMsg(slot: nat, left: int)
    | REraseMsg(slot: nat)
    | RUnlockMsg(found: bool)
    | RData(found: bool)
    | RStoreData(found: bool, slot: nat, left: int)
    | REraseData(found: bool, slot: nat)
    | RUnlockData
    | RSend
    | RFetch(slot: nat)
    | RPublish(slot: nat, msg: RMsg)
    | RUnlockSend

  /** Where the receiver is. In the two `Try` states it holds the lock and sleeps between attempts. */
  datatype ReceiverPc =
    | VIdle
    | VUnlockTake(taken: Option<RMsg>)
    | VPut(size: RMsg)
    | VServe
    | VGiveData(msg: NewMsg)
    | VTryData(msg: NewMsg, left: int)
    | VPostData
    | VUnlockData
    | VGiveMsg(event: RMsg)
    | VTryMsg(event: RMsg, left: int)
    | VPostMsg
    | VUnlockMsg

  datatype Holder = Free | Processor | Receiver

  /** `own` is the address the receiver is bound to, as an unsigned number; `rows` are the received messages
      stored so far, `notices` the table receivers_comms. */
  datatype Side = Side(
    own: int,
    notices: multiset<Notice>,
    rows: seq<NewMsg>,
    conns: map<int, RConn>,
    comms: Slots<RMsg>,
    datas: Slots<NewMsg>,
    commLock: Holder,
    dataLock: Holder,
    sigr: nat,
    sizes: HashSpec.Table,
    p: ProcessorPc,
    v: ReceiverPc)

  ghost predicate Init(st: Side) {
    && st.notices == multiset{} && st.rows == [] && st.conns == map[]
    && st.comms == map[] && st.datas == map[] && st.commLock == Free && st.dataLock == Free
    && st.sigr <= 1 && st.p == RIdle && st.v == VIdle
    && (exists size: nat :: size > 0 && st.sizes == Fresh(size))
  }

  /** The text of an address as a C string. */
  function IpKey(ip: int): Key {
    AsKey(IntText(ip))
  }

  /** The key under which sizes are looked up: the receiver's own address, printed as a signed number. */
  function LookupKey(own: int): Key {
    IpKey(AsInt32(own))
  }

  /** Bytes as chars, up to the first that a C string cannot hold. */
  function AsKey(s: Bytes): Key {
    if s == [] || !(0 < s[0] < 128) then [] else [s[0]] + AsKey(s[1..])
  }

  /** The address fits the field it is copied to. */
  predicate Printable(ip: int) {
    |IntText(ip)| <= 16
  }

  // ---- steps -------------------------------------------------------------------------------

  datatype Act =
    | Wake
    | FindMsg(i: int)
    | StoreMsg
    | MsgFails
    | EraseMsg
    | UnlockMsg
    | FindData(i: int)
    | StoreData
    | DataFails
    | EraseData
    | UnlockData
    | FindRoom(i: int)
    | FetchSize(n: Notice)
    | FetchFails
    | PublishSize
    | UnlockSend
    | TakeSize(i: int)
    | UnlockTaken
    | PutSize
    | Receive(fd: int, data: Bytes)
    | LockData
    | TryData(i: int)
    | PostData
    | UnlockGiven
    | Event(fd: int, ip: int, status: int)
    | LockMsg
    | TryMsg(i: int)
    | PostMsg
    | UnlockEvent
    | NextRound
    | Notify
    | Environment

  /** `get_message_from_receiver` */
  ghost predicate MsgStep(a: Side, act: Act, b: Side) {
    match act
    case Wake => a.p.RIdle? && a.sigr > 0 && b == a.(p := RRead, sigr := a.sigr - 1)
    case FindMsg(i) =>
      && a.p.RRead? && a.commLock == Free && IsFirst(a.comms.Keys, 1, 2, i)
      && b == a.(commLock := Processor, p := if i == -1 then RUnlockMsg(false) else RStoreMsg(i, ATTEMPTS))
    case StoreMsg =>
      && a.p.RStoreMsg? && a.p.slot in a.comms && a.comms[a.p.slot].ConnEvent?
      && b == a.(conns := Upsert(a.conns, a.comms[a.p.slot].fd, a.comms[a.p.slot].ip, a.comms[a.p.slot].status),
                 p := REraseMsg(a.p.slot))
    case MsgFails =>
      && a.p.RStoreMsg?
      && b == a.(p := if a.p.left > 1 then RStoreMsg(a.p.slot, a.p.left - 1) else REraseMsg(a.p.slot))
    case EraseMsg => a.p.REraseMsg? && b == a.(comms := a.comms - {a.p.slot}, p := RUnlockMsg(true))
    case UnlockMsg => a.p.RUnlockMsg? && b == a.(commLock := Free, p := RData(a.p.found))
    case _ => false
  }

  /** `r_insert_conns`: on a known descriptor only the status is updated. */
  function Upsert(conns: map<int, RConn>, fd: int, ip: int, status: int): map<int, RConn> {
    conns[fd := RConn(if fd in conns then conns[fd].ip else ip, status)]
  }

  /** `get_data_from_receiver` */
  ghost predicate DataStep(a: Side, act: Act, b: Side) {
    match act
    case FindData(i) =>
      && a.p.RData? && a.dataLock == Free && IsFirst(a.datas.Keys, 1, 3, i)
      && b == a.(dataLock := Processor, p := if i == -1 then RUnlockData else RStoreData(a.p.found, i, ATTEMPTS))
    case StoreData =>
      && a.p.RStoreData? && a.p.slot in a.datas
      && b == a.(rows := a.rows + [a.datas[a.p.slot]], p := REraseData(a.p.found, a.p.slot))
    case DataFails =>
      && a.p.RStoreData?
      && b == a.(p := if a.p.left > 1 then RStoreData(a.p.found, a.p.slot, a.p.left - 1)
                      else REraseData(a.p.found, a.p.slot))
    case EraseData => a.p.REraseData? && b == a.(datas := a.datas - {a.p.slot}, p := RUnlockData)
    case UnlockData => a.p.RUnlockData? && b == a.(dataLock := Free, p := RSend)
    case _ => false
  }

  /** `send_msg_to_receiver`; no post follows, the receiver looks by itself. */
  ghost predicate SizeStep(a: Side, act: Act, b: Side) {
    match act
    case FindRoom(i) =>
      && a.p.RSend? && a.commLock == Free && IsFirst(a.comms.Keys, 0, 1, i)
      && b == a.(commLock := Processor, p := if i == -1 then RUnlockSend else RFetch(i))
    case FetchSize(n) =>
      && a.p.RFetch? && n in a.notices && Printable(n.ip)
      && b == a.(notices := a.notices - multiset{n}, p := RPublish(a.p.slot, SizeOf(IpKey(n.ip), n.capacity)))
    case FetchFails => a.p.RFetch? && b == a.(p := RUnlockSend)
    case PublishSize =>
      && a.p.RPublish? && a.p.slot < TOTAL_PARTITIONS
      && b == a.(comms := a.comms[a.p.slot := a.p.msg], p := RUnlockSend)
    case UnlockSend => a.p.RUnlockSend? && b == a.(commLock := Free, p := RIdle)
    case _ => false
  }

  /** The receiver's round up to the events: at most one size is taken and put into the table. */
  ghost predicate TakeStep(a: Side, act: Act, b: Side) {
    match act
    case TakeSize(i) =>
      && a.v.VIdle? && a.commLock == Free && IsFirst(a.comms.Keys, 1, 1, i)
      && b == if i in a.comms then a.(commLock := Receiver, v := VUnlockTake(Some(a.comms[i])), comms := a.comms - {i})
              else a.(commLock := Receiver, v := VUnlockTake(None))
    case UnlockTaken =>
      && a.v.VUnlockTake?
      && b == a.(commLock := Free, v := if a.v.taken.Some? then VPut(a.v.taken.value) else VServe)
    case PutSize =>
      && a.v.VPut? && a.v.size.SizeOf? && a.sizes.buckets != [] && |a.v.size.key| < KEY_SIZE
      && b == a.(sizes := HashSpec.Put(a.sizes, a.v.size.key, a.v.size.capacity).0, v := VServe)
    case NextRound => a.v.VServe? && b == a.(v := VIdle)
    case _ => false
  }

  /** `send_to_processor`: a message of the size that the table gives for the receiver's own address. */
  ghost predicate GiveStep(a: Side, act: Act, b: Side) {
    match act
    case Receive(fd, data) =>
      && a.v.VServe? && a.sizes.buckets != [] && HashSpec.Get(a.sizes, LookupKey(a.own)) == |data|
      && b == a.(v := VGiveData(NewMsg(fd, data)))
    case LockData =>
      && a.v.VGiveData? && a.dataLock == Free
      && b == a.(dataLock := Receiver, v := VTryData(a.v.msg, ATTEMPTS))
    case TryData(i) =>
      && a.v.VTryData? && IsFirst(a.datas.Keys, 0, 3, i)
      && b == if i >= 0 then a.(datas := a.datas[i := a.v.msg], v := VPostData)
              else a.(v := if a.v.left > 1 then VTryData(a.v.msg, a.v.left - 1) else VUnlockData)
    case PostData => a.v.VPostData? && b == a.(sigr := a.sigr + 1, v := VUnlockData)
    case UnlockGiven => a.v.VUnlockData? && b == a.(dataLock := Free, v := VServe)
    case _ => false
  }

  /** `send_message_to_processor` */
  ghost predicate EventStep(a: Side, act: Act, b: Side) {
    match act
    case Event(fd, ip, status) => a.v.VServe? && b == a.(v := VGiveMsg(ConnEvent(fd, ip, status)))
    case LockMsg =>
      && a.v.VGiveMsg? && a.commLock == Free
      && b == a.(commLock := Receiver, v := VTryMsg(a.v.event, ATTEMPTS))
    case TryMsg(i) =>
      && a.v.VTryMsg? && IsFirst(a.comms.Keys, 0, 2, i)
      && b == if i >= 0 then a.(comms := a.comms[i := a.v.event], v := VPostMsg)
              else a.(v := if a.v.left > 1 then VTryMsg(a.v.event, a.v.left - 1) else VUnlockMsg)
    case PostMsg => a.v.VPostMsg? && b == a.(sigr := a.sigr + 1, v := VUnlockMsg)
    case UnlockEvent => a.v.VUnlockMsg? && b == a.(commLock := Free, v := VServe)
    case _ => false
  }

  /** The database only adds notices; each of its notifications posts the semaphore. */
  predicate AroundStep(a: Side, act: Act, b: Side) {
    || (act.Notify? && b == a.(sigr := a.sigr + 1))
    || (act.Environment? && a.notices <= b.notices && b == a.(notices := b.notices))
  }

  ghost predicate ProcessorStep(a: Side, act: Act, b: Side) {
    MsgStep(a, act, b) || DataStep(a, act, b) || SizeStep(a, act, b)
  }

  ghost predicate ReceiverStep(a: Side, act: Act, b: Side) {
    TakeStep(a, act, b) || GiveStep(a, act, b) || EventStep(a, act, b)
  }

  ghost predicate Next(a: Side, act: Act, b: Side) {
    ProcessorStep(a, act, b) || ReceiverStep(a, act, b) || AroundStep(a, act, b)
  }
}
