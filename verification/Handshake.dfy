/** Two nodes agree on a capacity: every pass on either side keeps what they know of each other honest. */
module Handshake {
  import opened Text
  import opened Message
  import opened Chunks
  import opened Tables
  import opened RunJobs
  import opened StateGraph

  // ---- what the nodes may know and say -----------------------------------------------------

  /** A node's own row: a five-character name, any address, a port that fits an INTEGER, and a capacity with
      room for the headers that fits the message buffers. */
  predicate SelfOk(s: Self) {
    |s.name| == 5 && IsAddress(s.ip) && IsInteger(s.dataport) && OVERHEAD < s.capacity <= MESSAGE_SIZE
  }

  function Agreed(a: Self, b: Self): int {
    Smaller(a.capacity, b.capacity)
  }

  function EndpointOf(s: Self): Endpoint {
    Endpoint(s.name, s.ip)
  }

  /** `m` is a message `from` may send to `to`: it carries its own hash and is addressed to `to`; a request tells
      the sender's capacity, a reply the smaller one, both the sender's port and address; any other message is
      exactly as long as the agreed capacity, and has its addressee's name trimmed. */
  predicate Honest(h: Md5, from: Self, to: Self, m: Bytes) {
    && HashOk(h, m)
    && (if TypeField(m) == LPad(TYPE_REQUEST, 5) then Tells(from, from.capacity, m) && DestField(m) == to.name
        else if TypeField(m) == LPad(TYPE_REPLY, 5) then Tells(from, Agreed(from, to), m) && DestField(m) == to.name
        else |m| == Agreed(from, to) && DestField(m) == Trimmed(to.name))
  }

  /** A name without the blanks behind it, as the splitting statements write it. */
  function Trimmed(name: Bytes): Bytes {
    LPad(BTrim(name), 5)
  }

  predicate Tells(from: Self, capacity: int, m: Bytes) {
    && SourceField(m) == from.name
    && CapacityField(m) == Some(capacity) && PortField(m) == Some(from.dataport)
    && IpField(m) == RequestIp(from.ip) && ReplyIpField(m) == Some(from.ip)
  }

  /** A chunk message names the job its row is a child of. */
  predicate NamesParent(j: Job) {
    ParseInt(TypeField(j.data)) == Some(2) ==> ParentField(j.data) == j.parent
  }

  predicate Outgoing(h: Md5, me: Self, peer: Self, j: Job) {
    Honest(h, me, peer, j.data) && NamesParent(j)
  }

  /** Rows that wait to be sent are honest; received rows that pass the hash check are the peer's. */
  predicate RowHonest(h: Md5, me: Self, peer: Self, j: Job) {
    match j.state
    case S4 => Outgoing(h, me, peer, j)
    case S4W => Outgoing(h, me, peer, j)
    case S5 => Outgoing(h, me, peer, j)
    case N1 => HashOk(h, j.data) ==> Honest(h, peer, me, j.data)
    case N2 => Honest(h, peer, me, j.data)
    case N3 => Honest(h, peer, me, j.data)
    case N4 => Honest(h, peer, me, j.data) && j.kind == TypeField(j.data)
    case S2 => false
    case S3 => false
    case _ => true
  }

  predicate RowsHonest(h: Md5, me: Self, peer: Self, jobs: Jobs) {
    forall id :: id in jobs ==> RowHonest(h, me, peer, jobs[id])
  }

  /** The only system a node knows is its peer, with nothing agreed yet or with exactly the agreement. */
  predicate SysOk(sysinfo: Sysinfo, me: Self, peer: Self) {
    forall e :: e in sysinfo ==> e == EndpointOf(peer) && PeerOk(sysinfo[e], me, peer)
  }

  predicate PeerOk(p: Peer, me: Self, peer: Self) {
    || (p.capacity == 0 && p.dataport == 0)
    || (p.capacity == Agreed(me, peer) && p.dataport == peer.dataport)
  }

  /** The receiver is only ever told the agreed capacity, under the peer's address. */
  predicate NoticesOk(notices: multiset<Notice>, me: Self, peer: Self) {
    forall n :: n in notices ==> n == Notice(peer.ip, Agreed(me, peer))
  }

  ghost predicate NodeOk(h: Md5, t: Tables, peer: Self) {
    && SelfOk(t.self) && SelfOk(peer)
    && RowsHonest(h, t.self, peer, t.jobs)
    && SysOk(t.sysinfo, t.self, peer)
    && NoticesOk(t.notices, t.self, peer)
  }

  // ---- existing rows -----------------------------------------------------------------------

  lemma TriageHonest(h: Md5, roots: set<Bytes>, j: Job, me: Self, peer: Self)
    requires RowHonest(h, me, peer, j)
    ensures RowHonest(h, me, peer, TriageRow(h, roots, j))
  {
    hide Honest, HashOk, DestField, TypeField, ParseInt, ParentField;
  }

  /** Statements that only move a row between states that say nothing about its data. */
  predicate Harmless(j: Job, k: Job) {
    || k == j
    || (k == j.(state := k.state)
        && (k.state == C || k.state == S1 || k.state == S2W || k.state == S3W || k.state == D))
  }

  lemma HarmlessHonest(h: Md5, me: Self, peer: Self, a: Jobs, b: Jobs)
    requires RowsHonest(h, me, peer, a) && a.Keys == b.Keys
    requires forall id :: id in a ==> Harmless(a[id], b[id])
    ensures RowsHonest(h, me, peer, b)
  {
    hide Honest, Outgoing, HashOk, TypeField, DestField;
  }

  lemma CheckHonest(h: Md5, t: Tables, env: Env, u: Tables, peer: Self)
    requires env.h == h && RowsHonest(h, t.self, peer, t.jobs) && Check(t, env) == Some(u)
    ensures u == t.(jobs := u.jobs) && RowsHonest(h, t.self, peer, u.jobs)
  {
    hide RowHonest, Triage, CompleteLarge, CompleteSmall, CountsReadable;
    var a := Triage(h, t.jobs);
    TriagedHonest(h, t.jobs, t.self, peer);
    var b := CompleteLarge(a);
    CompletionHonest(h, a, b, t.self, peer);
    CompletionHonest(h, b, u.jobs, t.self, peer);
  }

  lemma TriagedHonest(h: Md5, jobs: Jobs, me: Self, peer: Self)
    requires RowsHonest(h, me, peer, jobs)
    ensures RowsHonest(h, me, peer, Triage(h, jobs))
  {
    hide RowHonest, TriageRow;
    var roots := Roots(jobs);
    forall id | id in jobs ensures RowHonest(h, me, peer, Triage(h, jobs)[id]) {
      TriageHonest(h, roots, jobs[id], me, peer);
    }
  }

  lemma CompletionHonest(h: Md5, a: Jobs, b: Jobs, me: Self, peer: Self)
    requires RowsHonest(h, me, peer, a) && (b == CompleteLarge(a) || b == CompleteSmall(a))
    ensures RowsHonest(h, me, peer, b)
  {
    hide RowsHonest, Evolves;
    CompletionEvolves(a, b);
    HarmlessHonest(h, me, peer, a, b);
  }

  // ---- consensus messages ------------------------------------------------------------------

  lemma RequestHonest(h: Md5, me: Self, peer: Self, j: Job, e: Endpoint, uuid: Uuid, now: Stamp)
    requires SelfOk(me) && e.name == peer.name && |peer.name| == 5
    ensures Outgoing(h, me, peer, RequestRow(h, me, j, e, uuid, now))
  {
    hide HashOk, TypeField, DestField, SourceField, CapacityField, PortField, IpField, ReplyIpField,
      ConsensusMessage, ParseInt,
      ParentField;
    ConsensusRoundTrip(h, uuid, TYPE_REQUEST, me.capacity, me.dataport, me.ip, me.name, e.name, now);
    TypeDigit(4);
  }

  lemma ReplyHonest(h: Md5, me: Self, peer: Self, j: Job, uuid: Uuid, now: Stamp)
    requires SelfOk(me) && SelfOk(peer) && Honest(h, peer, me, j.data) && TypeField(j.data) == LPad(TYPE_REQUEST, 5)
    ensures CapacityField(j.data).Some? && Outgoing(h, me, peer, ReplyRow(h, me, j, uuid, now))
  {
    hide HashOk, TypeField, DestField, SourceField, CapacityField, PortField, IpField, ReplyIpField,
      ConsensusMessage, LPad,
      ParseInt, ParentField;
    TypeDigit(5);
    ConsensusRoundTrip(h, uuid, TYPE_REPLY, Agreed(me, peer), me.dataport, me.ip, me.name, SourceField(j.data), now);
    Padded5(me.name);
    TypesDifferent();
  }

  lemma Padded5(name: Bytes)
    requires |name| == 5
    ensures LPad(name, 5) == name
  {
  }

  /** Inserting honest rows. */
  lemma InsertHonest(h: Md5, me: Self, peer: Self, jobs: Jobs, rows: map<Slot, Job>, ids: Slot -> Id, r: Jobs)
    requires RowsHonest(h, me, peer, jobs) && InsertRows(jobs, rows, ids) == Some(r)
    requires forall s :: s in rows ==> RowHonest(h, me, peer, rows[s])
    ensures RowsHonest(h, me, peer, r)
  {
    hide RowHonest, Drawable;
    forall id | id in r ensures RowHonest(h, me, peer, r[id]) {
      if id !in jobs {
        var s :| s in rows && ids(s) == id;
      }
    }
  }

  lemma AskHonest(h: Md5, t: Tables, env: Env, u: Tables, peer: Self)
    requires env.h == h && SelfOk(t.self) && SelfOk(peer) && SysOk(t.sysinfo, t.self, peer)
    requires RowsHonest(h, t.self, peer, t.jobs) && Ask(t, env) == Some(u)
    ensures u == t.(jobs := u.jobs) && RowsHonest(h, t.self, peer, u.jobs)
  {
    hide RowsHonest, RowHonest, RequestRows, InsertRows, Admitted;
    var rows := RequestRows(t, env);
    var jobs := InsertRows(t.jobs, rows, env.ids).value;
    forall s | s in rows ensures RowHonest(h, t.self, peer, rows[s]) {
      RequestRowOk(h, t, env, peer, s);
    }
    InsertHonest(h, t.self, peer, t.jobs, rows, env.ids, jobs);
    AdmittedHonest(h, t.self, peer, t.sysinfo, jobs);
  }

  lemma RequestRowOk(h: Md5, t: Tables, env: Env, peer: Self, s: Slot)
    requires env.h == h && SelfOk(t.self) && SelfOk(peer) && SysOk(t.sysinfo, t.self, peer) && s in RequestRows(t, env)
    ensures RowHonest(h, t.self, peer, RequestRows(t, env)[s])
  {
    hide Honest, Outgoing, RequestRow;
    RequestHonest(h, t.self, peer, t.jobs[s.job], s.peer, env.ids(s), env.now);
    RequestState(h, t.self, t.jobs[s.job], s.peer, env.ids(s), env.now);
  }

  lemma AdmittedHonest(h: Md5, me: Self, peer: Self, sysinfo: Sysinfo, jobs: Jobs)
    requires RowsHonest(h, me, peer, jobs)
    ensures RowsHonest(h, me, peer, Admitted(sysinfo, jobs))
  {
    hide RowsHonest, NameKnown;
    HarmlessHonest(h, me, peer, jobs, Admitted(sysinfo, jobs));
  }

  lemma RequestState(h: Md5, me: Self, j: Job, e: Endpoint, uuid: Uuid, now: Stamp)
    ensures RequestRow(h, me, j, e, uuid, now).state == S5
  {
    hide ConsensusMessage;
  }

  lemma ReplyState(h: Md5, me: Self, j: Job, uuid: Uuid, now: Stamp)
    requires CapacityField(j.data).Some?
    ensures ReplyRow(h, me, j, uuid, now).state == S5
  {
    hide ConsensusMessage, CapacityField;
  }

  lemma ReplyRowOk(h: Md5, t: Tables, env: Env, peer: Self, id: Id)
    requires env.h == h && SelfOk(t.self) && SelfOk(peer) && RowsHonest(h, t.self, peer, t.jobs)
    requires id in Pending(t.jobs, TYPE_REQUEST) && CapacityField(t.jobs[id].data).Some?
    ensures RowHonest(h, t.self, peer, ReplyRow(h, t.self, t.jobs[id], env.ids(Reply(id)), env.now))
  {
    hide Honest, Outgoing, ReplyRow, CapacityField, RowsHonest;
    PendingHonest(h, t, peer, id, TYPE_REQUEST);
    ReplyHonest(h, t.self, peer, t.jobs[id], env.ids(Reply(id)), env.now);
    ReplyState(h, t.self, t.jobs[id], env.ids(Reply(id)), env.now);
  }

  lemma AnswerHonest(h: Md5, t: Tables, env: Env, u: Tables, peer: Self)
    requires env.h == h && SelfOk(t.self) && SelfOk(peer) && RowsHonest(h, t.self, peer, t.jobs)
    requires Answer(t, env) == Some(u)
    ensures u == t.(jobs := u.jobs) && RowsHonest(h, t.self, peer, u.jobs)
  {
    hide RowsHonest, RowHonest, ReplyRow, InsertRows, CapacityField, Pending, Closed;
    var rows := ReplyRows(t, env);
    var jobs := InsertRows(t.jobs, rows, env.ids).value;
    forall s | s in rows ensures RowHonest(h, t.self, peer, rows[s]) {
      ReplyRowOk(h, t, env, peer, s.job);
    }
    InsertHonest(h, t.self, peer, t.jobs, rows, env.ids, jobs);
    ClosedHonest(h, t.self, peer, jobs, TYPE_REQUEST);
  }

  lemma ClosedHonest(h: Md5, me: Self, peer: Self, jobs: Jobs, kind: Bytes)
    requires RowsHonest(h, me, peer, jobs)
    ensures RowsHonest(h, me, peer, Closed(jobs, kind))
  {
    hide LPad, RowsHonest;
    HarmlessHonest(h, me, peer, jobs, Closed(jobs, kind));
  }

  /** An accepted request writes exactly the agreement. */
  lemma AcceptRequestOk(h: Md5, t: Tables, u: Tables, peer: Self)
    requires NodeOk(h, t, peer) && AcceptRequest(t) == Some(u)
    ensures u == t.(sysinfo := u.sysinfo, notices := u.notices) && NodeOk(h, u, peer)
  {
    hide HashOk, RowsHonest, CapacityField, PortField, IpField, ReplyIpField, SourceField, TypeField, DestField, LPad;
    AcceptRequestKeeps(t, u);
    var rs := Pending(t.jobs, TYPE_REQUEST);
    if rs != {} {
      var id := Only(rs);
      PendingHonest(h, t, peer, id, TYPE_REQUEST);
      Padded5(peer.name);
    }
  }

  lemma PendingHonest(h: Md5, t: Tables, peer: Self, id: Id, kind: Bytes)
    requires RowsHonest(h, t.self, peer, t.jobs) && id in Pending(t.jobs, kind)
    ensures Honest(h, peer, t.self, t.jobs[id].data) && TypeField(t.jobs[id].data) == LPad(kind, 5)
  {
    hide Honest, TypeField, DestField, LPad;
  }

  /** An accepted reply writes exactly the agreement, although it fills in every unresolved row. */
  lemma AcceptReplyOk(h: Md5, t: Tables, u: Tables, peer: Self)
    requires NodeOk(h, t, peer) && AcceptReply(t) == Some(u)
    ensures u == t.(sysinfo := u.sysinfo, notices := u.notices) && NodeOk(h, u, peer)
  {
    hide HashOk, RowsHonest, CapacityField, PortField, IpField, ReplyIpField, SourceField, TypeField, DestField, LPad;
    AcceptReplyKeeps(t, u);
    var rs := KnownReplies(t);
    if rs != {} && |rs| == 1 {
      var id := Only(rs);
      PendingHonest(h, t, peer, id, TYPE_REPLY);
      TypesDifferent();
    }
  }

  // ---- when the statements succeed, and what they record -----------------------------------

  /** Exactly the agreement. */
  predicate Recorded(sysinfo: Sysinfo, e: Endpoint, me: Self, peer: Self) {
    e in sysinfo && sysinfo[e].capacity == Agreed(me, peer) && sysinfo[e].dataport == peer.dataport
  }

  /** At most one request is pending, and its sender's address is an INTEGER. */
  predicate RequestsFit(jobs: Jobs, peer: Self) {
    var rs := Pending(jobs, TYPE_REQUEST);
    |rs| <= 1 && (rs != {} ==> IsInteger(peer.ip))
  }

  /** The upsert succeeds if and only if at most one request is pending, from an address that fits an INTEGER;
      if one is, the agreement is recorded. */
  lemma AcceptRequestExact(h: Md5, t: Tables, peer: Self)
    requires NodeOk(h, t, peer)
    ensures AcceptRequest(t).Some? <==> RequestsFit(t.jobs, peer)
    ensures AcceptRequest(t).Some? && Pending(t.jobs, TYPE_REQUEST) != {} ==>
              && Recorded(AcceptRequest(t).value.sysinfo, EndpointOf(peer), t.self, peer)
              && AcceptRequest(t).value.notices == t.notices + multiset{Notice(peer.ip, Agreed(t.self, peer))}
  {
    hide HashOk, RowsHonest, CapacityField, PortField, IpField, ReplyIpField, SourceField, TypeField, DestField, LPad,
      NoticesOk, Pending;
    var rs := Pending(t.jobs, TYPE_REQUEST);
    if |rs| == 1 {
      AgreedNotZero(t.self, peer);
      PendingHonest(h, t, peer, Only(rs), TYPE_REQUEST);
      Padded5(peer.name);
    } else if |rs| == 0 {
      assert rs == {};
    }
  }

  lemma AgreedNotZero(me: Self, peer: Self)
    requires SelfOk(me) && SelfOk(peer)
    ensures Agreed(me, peer) != 0
  {
  }

  /** The update by replies succeeds if and only if it has at most one known reply or nothing to fill in; if
      there is a reply, every known system ends with the agreement. */
  lemma AcceptReplyExact(h: Md5, t: Tables, peer: Self)
    requires NodeOk(h, t, peer)
    ensures AcceptReply(t).Some? <==> |KnownReplies(t)| <= 1 || Unresolved(t.sysinfo) == {}
    ensures AcceptReply(t).Some? && KnownReplies(t) != {} ==>
              forall e :: e in t.sysinfo ==> Recorded(AcceptReply(t).value.sysinfo, e, t.self, peer)
  {
    hide HashOk, RowsHonest, CapacityField, PortField, IpField, ReplyIpField, SourceField, TypeField, DestField,
      LPad, NoticesOk;
    var rs := KnownReplies(t);
    forall id | id in Pending(t.jobs, TYPE_REPLY) ensures ReadableReply(t.jobs[id].data) {
      PendingHonest(h, t, peer, id, TYPE_REPLY);
      TypesDifferent();
    }
    forall e | e in t.sysinfo ensures e in Unresolved(t.sysinfo) || Recorded(t.sysinfo, e, t.self, peer) { }
    if |rs| == 1 {
      PendingHonest(h, t, peer, Only(rs), TYPE_REPLY);
      TypesDifferent();
    } else if |rs| == 0 {
      assert rs == {};
    }
  }

  lemma ConsensusHonest(h: Md5, t: Tables, env: Env, u: Tables, peer: Self)
    requires env.h == h && NodeOk(h, t, peer) && Consensus(t, env) == Some(u)
    ensures u == t.(jobs := u.jobs, sysinfo := u.sysinfo, notices := u.notices) && NodeOk(h, u, peer)
  {
    hide Consensus, Ask, AcceptRequest, Answer, AcceptReply, Closed, RowsHonest, SysOk, NoticesOk;
    var t1, t2, t3, t4 := ConsensusStages(t, env, u);
    AskHonest(h, t, env, t1, peer);
    AcceptRequestOk(h, t1, t2, peer);
    AnswerHonest(h, t2, env, t3, peer);
    AcceptReplyOk(h, t3, t4, peer);
    ClosedHonest(h, t.self, peer, t4.jobs, TYPE_REPLY);
  }

  // ---- when the consensus statements succeed -----------------------------------------------

  lemma AskKeepsPending(t: Tables, env: Env, u: Tables, kind: Bytes)
    requires Ask(t, env) == Some(u)
    ensures Pending(u.jobs, kind) == Pending(t.jobs, kind)
    ensures forall id :: id in Pending(t.jobs, kind) ==> u.jobs[id] == t.jobs[id]
  {
    hide LPad, Evolves, Ask;
    AskEvolves(t, env, u);
    forall id ensures id in Pending(u.jobs, kind) <==> id in Pending(t.jobs, kind) {
      if id in t.jobs { assert AdmittedRow(t.jobs[id], u.jobs[id]); }
    }
  }

  lemma AskAdds(t: Tables, env: Env, u: Tables)
    requires Ask(t, env) == Some(u)
    ensures u.jobs.Keys == t.jobs.Keys + set s | s in RequestRows(t, env) :: env.ids(s)
  {
    hide NameKnown, RequestRows, Drawable;
    var jobs := InsertRows(t.jobs, RequestRows(t, env), env.ids).value;
    assert u.jobs.Keys == jobs.Keys;
  }

  lemma AnswerKeepsReplies(t: Tables, env: Env, u: Tables)
    requires Answer(t, env) == Some(u)
    ensures Pending(u.jobs, TYPE_REPLY) == Pending(t.jobs, TYPE_REPLY)
    ensures forall id :: id in Pending(t.jobs, TYPE_REPLY) ==> u.jobs[id] == t.jobs[id]
  {
    hide LPad, Evolves, Answer, AnsweredRow;
    AnswerEvolves(t, env, u);
    TypesDifferent();
    forall id ensures id in Pending(u.jobs, TYPE_REPLY) <==> id in Pending(t.jobs, TYPE_REPLY) {
      if id in t.jobs { ReplyStays(t.jobs[id], u.jobs[id]); }
    }
    forall id | id in Pending(t.jobs, TYPE_REPLY) ensures u.jobs[id] == t.jobs[id] {
      ReplyStays(t.jobs[id], u.jobs[id]);
    }
  }

  lemma ReplyStays(j: Job, k: Job)
    requires AnsweredRow(j, k)
    ensures j.state == N4 && j.kind == LPad(TYPE_REPLY, 5) <==> k.state == N4 && k.kind == LPad(TYPE_REPLY, 5)
    ensures j.state == N4 && j.kind == LPad(TYPE_REPLY, 5) ==> k == j
  {
    hide LPad;
    TypesDifferent();
  }

  lemma SameReplies(t: Tables, u: Tables)
    requires Pending(u.jobs, TYPE_REPLY) == Pending(t.jobs, TYPE_REPLY) && u.sysinfo == t.sysinfo
    requires forall id :: id in Pending(t.jobs, TYPE_REPLY) ==> u.jobs[id] == t.jobs[id]
    ensures KnownReplies(u) == KnownReplies(t)
  {
    hide LPad, IpField, ReplyIpField, SourceField;
    assert forall id :: id in KnownReplies(u) <==> id in KnownReplies(t);
  }

  /** The rows the consensus statements insert. */
  function ConsensusSlots(t: Tables, env: Env): set<Slot> {
    RequestRows(t, env).Keys + set id | id in Pending(t.jobs, TYPE_REQUEST) :: Reply(id)
  }

  /** Replies are drawn for exactly the pending requests. */
  lemma ReplySlots(h: Md5, t: Tables, env: Env, peer: Self)
    requires NodeOk(h, t, peer)
    ensures ReplyRows(t, env).Keys == set id | id in Pending(t.jobs, TYPE_REQUEST) :: Reply(id)
  {
    hide HashOk, RowsHonest, CapacityField, PortField, IpField, ReplyIpField, SourceField, TypeField, DestField,
      LPad, Pending,
      ReplyRow;
    forall id | id in Pending(t.jobs, TYPE_REQUEST) ensures Reply(id) in ReplyRows(t, env) {
      PendingHonest(h, t, peer, id, TYPE_REQUEST);
      PendingIn(t.jobs, id);
    }
  }

  lemma PendingIn(jobs: Jobs, id: Id)
    requires id in Pending(jobs, TYPE_REQUEST)
    ensures id in jobs
  {
    hide LPad;
  }

  /** Two insertions one after the other can be drawn exactly when both together can. */
  lemma DrawnInTwo(jobs: Jobs, later: Jobs, a: set<Slot>, b: set<Slot>, ids: Slot -> Id)
    requires a !! b && later.Keys == jobs.Keys + set s | s in a :: ids(s)
    ensures Drawable(jobs, a + b, ids) <==> Drawable(jobs, a, ids) && Drawable(later, b, ids)
  {
    if Drawable(jobs, a + b, ids) {
      forall s | s in b ensures ids(s) !in later {
        assert s in a + b;
        forall r | r in a ensures ids(r) != ids(s) { assert r in a + b; }
      }
    }
  }

  lemma AllResolved(t: Tables, peer: Self)
    requires SysOk(t.sysinfo, t.self, peer) && Recorded(t.sysinfo, EndpointOf(peer), t.self, peer)
    requires Agreed(t.self, peer) != 0
    ensures Unresolved(t.sysinfo) == {}
  {
  }

  /** When the reply statement succeeds, in terms of the tables before all consensus statements. */
  predicate RepliesFit(t: Tables) {
    || Pending(t.jobs, TYPE_REQUEST) != {}
    || |KnownReplies(t)| <= 1
    || Unresolved(t.sysinfo) == {}
  }

  /** The statements after the requests have been written. */
  lemma AnsweredExact(h: Md5, t: Tables, env: Env, t1: Tables, peer: Self)
    requires env.h == h && NodeOk(h, t, peer) && Ask(t, env) == Some(t1)
    requires RequestsFit(t.jobs, peer)
    ensures AcceptRequest(t1).Some?
    ensures Answer(AcceptRequest(t1).value, env).Some? <==>
              Drawable(t1.jobs, set id | id in Pending(t.jobs, TYPE_REQUEST) :: Reply(id), env.ids)
    ensures Answer(AcceptRequest(t1).value, env).Some? ==>
              (AcceptReply(Answer(AcceptRequest(t1).value, env).value).Some? <==> RepliesFit(t))
  {
    hide RowsHonest, SysOk, NoticesOk, Ask, AcceptRequest, AcceptReply, Pending, KnownReplies, Unresolved, Drawable,
      ReplyRows, Closed, Evolves;
    AskHonest(h, t, env, t1, peer);
    AskKeepsPending(t, env, t1, TYPE_REQUEST);
    AskKeepsPending(t, env, t1, TYPE_REPLY);
    AcceptRequestExact(h, t1, peer);
    var t2 := AcceptRequest(t1).value;
    AcceptRequestOk(h, t1, t2, peer);
    ReplySlots(h, t2, env, peer);
    if Answer(t2, env).Some? {
      AfterAnswer(h, t, env, t1, t2, Answer(t2, env).value, peer);
    }
  }

  lemma AfterAnswer(h: Md5, t: Tables, env: Env, t1: Tables, t2: Tables, t3: Tables, peer: Self)
    requires env.h == h && NodeOk(h, t2, peer) && t1 == t.(jobs := t1.jobs)
    requires AcceptRequest(t1) == Some(t2) && Answer(t2, env) == Some(t3)
    requires Pending(t1.jobs, TYPE_REQUEST) == Pending(t.jobs, TYPE_REQUEST)
    requires Pending(t1.jobs, TYPE_REPLY) == Pending(t.jobs, TYPE_REPLY)
    requires forall id :: id in Pending(t.jobs, TYPE_REPLY) ==> t1.jobs[id] == t.jobs[id]
    requires Pending(t1.jobs, TYPE_REQUEST) != {} ==> Recorded(t2.sysinfo, EndpointOf(peer), t2.self, peer)
    ensures AcceptReply(t3).Some? <==> RepliesFit(t)
  {
    hide RowsHonest, NoticesOk, SysOk, Answer, AcceptReply, Pending, KnownReplies, Unresolved, Evolves,
      CapacityField, PortField;
    AcceptRequestKeeps(t1, t2);
    AnswerHonest(h, t2, env, t3, peer);
    AnswerKeepsReplies(t2, env, t3);
    AcceptReplyExact(h, t3, peer);
    if Pending(t.jobs, TYPE_REQUEST) == {} {
      SameReplies(t, t3);
    } else {
      AllResolved(t3, peer);
    }
  }

  /** The consensus statements succeed if and only if their uuids can be drawn, at most one request is
      pending, whose sender's address fits an INTEGER, and, when none is, at most one known reply or no system
      left to resolve. */
  lemma ConsensusExact(h: Md5, t: Tables, env: Env, peer: Self)
    requires env.h == h && NodeOk(h, t, peer)
    ensures Consensus(t, env).Some? <==>
              && Drawable(t.jobs, ConsensusSlots(t, env), env.ids)
              && RequestsFit(t.jobs, peer)
              && RepliesFit(t)
  {
    hide RowsHonest, SysOk, NoticesOk, AcceptRequest, Answer, AcceptReply, Pending, Drawable, Closed, Evolves,
      RequestRows, RepliesFit, Admitted;
    var replies := set id | id in Pending(t.jobs, TYPE_REQUEST) :: Reply(id);
    RequestSlots(t, env);
    if Ask(t, env).Some? {
      var t1 := Ask(t, env).value;
      AskHonest(h, t, env, t1, peer);
      AskKeepsPending(t, env, t1, TYPE_REQUEST);
      AskAdds(t, env, t1);
      AcceptRequestExact(h, t1, peer);
      DrawnInTwo(t.jobs, t1.jobs, RequestRows(t, env).Keys, replies, env.ids);
      if RequestsFit(t.jobs, peer) { AnsweredExact(h, t, env, t1, peer); }
    } else {
      DrawnFirst(t.jobs, RequestRows(t, env).Keys, replies, env.ids);
    }
  }

  lemma RequestSlots(t: Tables, env: Env)
    ensures RequestRows(t, env).Keys !! set id | id in Pending(t.jobs, TYPE_REQUEST) :: Reply(id)
  {
    hide RequestRow, Pending;
  }

  lemma DrawnFirst(jobs: Jobs, a: set<Slot>, b: set<Slot>, ids: Slot -> Id)
    ensures Drawable(jobs, a + b, ids) ==> Drawable(jobs, a, ids)
  {
  }

  // ---- files -------------------------------------------------------------------------------

  /** While files are split, the classified rows fit what they were classified by. */
  predicate SplitRowOk(h: Md5, t: Tables, peer: Self, j: Job) {
    if j.state == S2 then TooLarge(t, j)
    else if j.state == S3 then Fits(t, j)
    else RowHonest(h, t.self, peer, j)
  }

  predicate Splitting(h: Md5, t: Tables, peer: Self) {
    forall id :: id in t.jobs ==> SplitRowOk(h, t, peer, t.jobs[id])
  }

  lemma ClassifiedSplitting(h: Md5, t: Tables, peer: Self)
    requires RowsHonest(h, t.self, peer, t.jobs)
    ensures Splitting(h, Classify(t), peer)
  {
    hide RowHonest, SplitRowOk, WholeRow, SplitRow;
    forall id | id in t.jobs ensures SplitRowOk(h, Classify(t), peer, Classify(t).jobs[id]) {
      ClassifiedRowOk(h, t, Classify(t), peer, t.jobs[id]);
    }
  }

  lemma ClassifiedRowOk(h: Md5, t: Tables, u: Tables, peer: Self, j: Job)
    requires RowHonest(h, t.self, peer, j) && u.self == t.self && u.files == t.files && u.sysinfo == t.sysinfo
    ensures SplitRowOk(h, u, peer, WholeRow(t, SplitRow(t, j)))
  {
    hide Honest, Outgoing, HashOk, TypeField, DestField, TooLarge, Fits;
    SameFiles(t, u, j);
    SameFiles(t, u, WholeRow(t, SplitRow(t, j)));
  }

  /** Whether a file is too large depends on the files and the known systems only. */
  lemma SameFiles(t: Tables, u: Tables, j: Job)
    requires u.files == t.files && u.sysinfo == t.sysinfo
    ensures forall k: Job :: k == j.(state := k.state) ==>
              (TooLarge(u, k) <==> TooLarge(t, j)) && (Fits(u, k) <==> Fits(t, j))
  {
  }

  /** A job that was classified is joined with the peer, at the agreed capacity. */
  lemma AtAgreed(t: Tables, peer: Self, id: Id, e: Endpoint, s: State)
    requires SysOk(t.sysinfo, t.self, peer) && Joined(t, id, e, s) && (TooLarge(t, t.jobs[id]) || Fits(t, t.jobs[id]))
    ensures t.sysinfo[e].capacity == Agreed(t.self, peer) && t.jobs[id].dest == peer.name
    ensures Fits(t, t.jobs[id]) ==> |t.files[t.jobs[id].data]| <= Agreed(t.self, peer) - OVERHEAD
  {
    var d :| d in t.sysinfo && d.name == t.jobs[id].dest && t.sysinfo[d].capacity != 0;
    assert d == EndpointOf(peer) && e == EndpointOf(peer);
  }

  lemma SingleHonest(h: Md5, me: Self, peer: Self, uuid: Uuid, file: Bytes, j: Job, now: Stamp)
    requires |file| <= Agreed(me, peer) - OVERHEAD && j.dest == peer.name
    ensures Honest(h, me, peer, SingleMessage(h, uuid, file, j.source, j.dest, j.priority, now, Agreed(me, peer)))
    ensures TypeField(SingleMessage(h, uuid, file, j.source, j.dest, j.priority, now, Agreed(me, peer))) ==
        LPad(TYPE_SINGLE, 5)
  {
    hide SingleMessage, HashOk, TypeField, DestField, Tells, LPad, Substr;
    SingleRoundTrip(h, uuid, file, j.source, j.dest, j.priority, now, Agreed(me, peer));
    TypesDifferent();
  }

  lemma ChunkHonest(h: Md5, me: Self, peer: Self, uuid: Uuid, idx: nat, id: Uuid, file: Bytes, j: Job, now: Stamp)
    requires SelfOk(me) && SelfOk(peer) && j.dest == peer.name
    ensures var m := ChunkMessage(h, uuid, idx, id, Piece(file, Agreed(me, peer) - OVERHEAD, idx),
                                  j.source, j.dest, j.priority, now, Agreed(me, peer));
            Honest(h, me, peer, m) && ParentField(m) == id
  {
    hide ChunkMessage, HashOk, TypeField, DestField, Tells, LPad, Substr, Piece, ParseInt;
    PieceFits(file, Agreed(me, peer) - OVERHEAD, idx);
    ChunkRoundTrip(h, uuid, idx, id, Piece(file, Agreed(me, peer) - OVERHEAD, idx), j.source, j.dest, j.priority,
      now, Agreed(me, peer));
    TypesDifferent();
  }

  lemma PieceFits(file: Bytes, k: nat, i: nat)
    ensures |Piece(file, k, i)| <= k
  {
  }

  /** The info message is as long as the agreed capacity whatever numbers it carries. */
  lemma InfoHonest(h: Md5, me: Self, peer: Self, uuid: Uuid, id: Uuid, size: int, count: int, j: Job, now: Stamp)
    requires SelfOk(me) && SelfOk(peer) && j.dest == peer.name
    ensures var m := InfoMessage(h, uuid, id, size, count, j.source, j.dest, j.priority, now, Agreed(me, peer));
            Honest(h, me, peer, m) && TypeField(m) == LPad(TYPE_INFO, 5)
  {
    hide CreateMessage, HashOk, TypeField, DestField, Tells, LPad, Substr, BTrim;
    Layout(h, uuid, TYPE_INFO, InfoSubheader(id, size, count), [], BTrim(j.source), BTrim(j.dest), j.priority, now,
      Agreed(me, peer));
    TypesDifferent();
  }

  /** Inserting honest rows in S-4 while files are split. */
  lemma InsertSplitting(h: Md5, t: Tables, peer: Self, rows: map<Slot, Job>, ids: Slot -> Id, r: Jobs)
    requires Splitting(h, t, peer) && InsertRows(t.jobs, rows, ids) == Some(r)
    requires forall s :: s in rows ==> rows[s].state == S4 && Outgoing(h, t.self, peer, rows[s])
    ensures Splitting(h, t.(jobs := r), peer)
  {
    hide Honest, Outgoing, Drawable, HashOk, TypeField, DestField, TooLarge, Fits;
    forall id | id in r ensures SplitRowOk(h, t.(jobs := r), peer, r[id]) {
      if id in t.jobs {
        SameFiles(t, t.(jobs := r), r[id]);
        assert SplitRowOk(h, t, peer, t.jobs[id]);
      } else {
        var s :| s in rows && ids(s) == id;
      }
    }
  }

  lemma WriteSinglesOk(h: Md5, t: Tables, env: Env, u: Tables, peer: Self)
    requires env.h == h && SysOk(t.sysinfo, t.self, peer) && Splitting(h, t, peer) && WriteSingles(t, env) == Some(u)
    ensures u == t.(jobs := u.jobs) && Splitting(h, u, peer)
  {
    hide Honest, SingleMessage, InsertRows, RowHonest, SysOk, TooLarge, Fits, TypeField, DestField, ParentField,
      LPad, ParseInt;
    var rows := SingleRows(t, env);
    forall s | s in rows ensures rows[s].state == S4 && Outgoing(h, t.self, peer, rows[s]) {
      assert SplitRowOk(h, t, peer, t.jobs[s.job]);
      AtAgreed(t, peer, s.job, s.peer, S3);
      SingleHonest(h, t.self, peer, env.ids(s), t.files[t.jobs[s.job].data], t.jobs[s.job], env.now);
      TypeDigit(1);
    }
    InsertSplitting(h, t, peer, rows, env.ids, u.jobs);
  }

  lemma ChunkRowOk(h: Md5, t: Tables, env: Env, peer: Self, id: Id, e: Endpoint, idx: nat)
    requires env.h == h && SelfOk(t.self) && SelfOk(peer) && SysOk(t.sysinfo, t.self, peer) && Splitting(h, t, peer)
    requires Joined(t, id, e, S2) && t.sysinfo[e].capacity != OVERHEAD && idx < ChunkTotal(t, id, e)
    ensures ChunkRow(t, env, id, e, idx).state == S4 && Outgoing(h, t.self, peer, ChunkRow(t, env, id, e, idx))
  {
    hide Honest, TypeField, DestField, ParentField, ParseInt, ChunkMessage, RowHonest, SysOk, TooLarge, Fits, Piece;
    assert SplitRowOk(h, t, peer, t.jobs[id]);
    AtAgreed(t, peer, id, e, S2);
    ChunkHonest(h, t.self, peer, env.ids(Chunk(id, e, idx)), idx, id, t.files[t.jobs[id].data], t.jobs[id], env.now);
  }

  lemma WriteChunksOk(h: Md5, t: Tables, env: Env, u: Tables, peer: Self)
    requires env.h == h && SelfOk(t.self) && SelfOk(peer) && SysOk(t.sysinfo, t.self, peer) && Splitting(h, t, peer)
    requires WriteChunks(t, env) == Some(u)
    ensures u == t.(jobs := u.jobs) && Splitting(h, u, peer)
  {
    hide Honest, Outgoing, ChunkRow, InsertRows, Splitting, SysOk, ChunkTotal;
    var rows := ChunkRows(t, env);
    forall s | s in rows ensures rows[s].state == S4 && Outgoing(h, t.self, peer, rows[s]) {
      ChunkRowOk(h, t, env, peer, s.job, s.peer, s.idx);
    }
    InsertSplitting(h, t, peer, rows, env.ids, u.jobs);
  }

  lemma InfoRowOk(h: Md5, t: Tables, env: Env, peer: Self, id: Id, e: Endpoint)
    requires env.h == h && SelfOk(t.self) && SelfOk(peer) && SysOk(t.sysinfo, t.self, peer) && Splitting(h, t, peer)
    requires Joined(t, id, e, S2) && t.sysinfo[e].capacity != OVERHEAD
    ensures InfoRow(t, env, id, e).state == S4 && Outgoing(h, t.self, peer, InfoRow(t, env, id, e))
  {
    hide Honest, TypeField, ParentField, ParseInt, InfoMessage, RowHonest, SysOk, TooLarge, Fits, ChunkTotal, LPad;
    assert SplitRowOk(h, t, peer, t.jobs[id]);
    AtAgreed(t, peer, id, e, S2);
    InfoHonest(h, t.self, peer, env.ids(Info(id, e)), id, |t.files[t.jobs[id].data]|, ChunkTotal(t, id, e), t.jobs[id],
      env.now);
    TypeDigit(3);
  }

  lemma WriteInfosOk(h: Md5, t: Tables, env: Env, u: Tables, peer: Self)
    requires env.h == h && SelfOk(t.self) && SelfOk(peer) && SysOk(t.sysinfo, t.self, peer) && Splitting(h, t, peer)
    requires WriteInfos(t, env) == Some(u)
    ensures u == t.(jobs := u.jobs) && Splitting(h, u, peer)
  {
    hide Honest, Outgoing, InfoRow, InsertRows, Splitting, SysOk, ChunkTotal;
    var rows := InfoRows(t, env);
    forall s | s in rows ensures rows[s].state == S4 && Outgoing(h, t.self, peer, rows[s]) {
      InfoRowOk(h, t, env, peer, s.job, s.peer);
    }
    InsertSplitting(h, t, peer, rows, env.ids, u.jobs);
  }

  lemma WaitingHonest(h: Md5, t: Tables, peer: Self)
    requires Splitting(h, t, peer)
    ensures RowsHonest(h, t.self, peer, Waiting(t.sysinfo, t.jobs))
  {
    hide Honest, Outgoing, HashOk, TypeField, DestField;
    forall id | id in t.jobs ensures RowHonest(h, t.self, peer, Waiting(t.sysinfo, t.jobs)[id]) {
      assert SplitRowOk(h, t, peer, t.jobs[id]);
    }
  }

  lemma SplitHonest(h: Md5, t: Tables, env: Env, u: Tables, peer: Self)
    requires env.h == h && NodeOk(h, t, peer) && Split(t, env) == Some(u)
    ensures u == t.(jobs := u.jobs) && NodeOk(h, u, peer)
  {
    hide Split, WriteSingles, WriteChunks, WriteInfos, Classified, Waiting, Splitting, RowsHonest, SysOk, NoticesOk;
    var t2, t3, t4 := SplitStages(t, env, u);
    ClassifiedSplitting(h, t, peer);
    WriteSinglesOk(h, Classify(t), env, t2, peer);
    WriteChunksOk(h, t2, env, t3, peer);
    WriteInfosOk(h, t3, env, t4, peer);
    WaitingHonest(h, t4, peer);
  }

  /** A pass that succeeds keeps the node honest. */
  lemma PassHonest(h: Md5, t: Tables, env: Env, u: Tables, peer: Self)
    requires env.h == h && NodeOk(h, t, peer) && Pass(t, env) == Some(u)
    ensures u.self == t.self && NodeOk(h, u, peer)
  {
    hide Pass, Check, Consensus, Split, Connect, RowsHonest, SysOk, NoticesOk;
    var t1, t2, t3 := PassStages(t, env, u);
    CheckHonest(h, t, env, t1, peer);
    ConsensusHonest(h, t1, env, t2, peer);
    SplitHonest(h, t2, env, t3, peer);
    ConnectKeeps(t3, env, u);
  }
}
