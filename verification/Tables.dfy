/** The tables of one node: jobs, what is known of other nodes, files, connections and requests. */
module Tables {
  import opened Text
  import opened Message

  type Id = Uuid

  datatype State = N0 | N1 | N2 | N3 | N4 | S | S1 | S2 | S2W | S3 | S3W | S4 | S4W | S5 | C | D

  /** The number as a signed 32-bit integer, as `atoi` and `%d` leave it. */
  function AsInt32(n: int): (r: int)
    ensures -0x8000_0000 <= r < 0x8000_0000
    ensures -0x8000_0000 <= n < 0x8000_0000 ==> r == n
  {
    (n + 0x8000_0000) % 0x1_0000_0000 - 0x8000_0000
  }

  datatype Job = Job(data: Bytes, state: State, kind: Bytes, source: Bytes, parent: Id, dest: Bytes, priority: Bytes)

  type Jobs = map<Id, Job>

  /** The primary key of sysinfo. */
  datatype Endpoint = Endpoint(name: Bytes, ip: int)

  datatype Peer = Peer(dataport: int, commsport: int, capacity: int)

  type Sysinfo = map<Endpoint, Peer>

  datatype Self = Self(name: Bytes, ip: int, dataport: int, capacity: int)

  /** A row of sending_conns: status 2 is connected, 1 is not. */
  datatype Conn = Conn(sfd: int, status: int)

  /** A row of senders_comms: `mtype` is '1' to open or '2' to close, with a 'W' once handed over. */
  datatype Comm = Comm(id: int, closing: bool, waiting: bool)

  /** The primary key of senders_comms: an address with a port to open or a descriptor to close. */
  datatype CommKey = CommKey(ip: int, arg: int)

  /** A row of receivers_comms: the message size to expect from an address. */
  datatype Notice = Notice(ip: int, capacity: int)

  datatype Tables = Tables(
    self: Self,
    jobs: Jobs,
    sysinfo: Sysinfo,
    files: map<Bytes, Bytes>,
    conns: map<int, Conn>,
    comms: map<CommKey, Comm>,
    nextComm: int,
    notices: multiset<Notice>)

  function Children(jobs: Jobs, p: Id): set<Id> {
    set id | id in jobs && jobs[id].parent == p
  }

  function DoneChildren(jobs: Jobs, p: Id): set<Id> {
    set id | id in jobs && jobs[id].parent == p && jobs[id].state == C
  }

  predicate NameKnown(sysinfo: Sysinfo, name: Bytes) {
    exists e :: e in sysinfo && e.name == name
  }

  /** The element of a one-element set. */
  function Only<T>(s: set<T>): (x: T)
    requires |s| == 1
    ensures s == {x}
  {
    OnlyOne(s);
    var x :| x in s;
    x
  }

  lemma OnlyOne<T>(s: set<T>)
    requires |s| == 1
    ensures exists x :: x in s
    ensures forall x, y :: x in s && y in s ==> x == y
  {
    var x :| x in s;
    assert |s - {x}| == 0;
    assert forall y :: y in s ==> y == x || y in s - {x};
  }
}
