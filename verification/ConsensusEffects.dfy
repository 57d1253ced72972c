/** What the consensus statements leave behind: requests and replies addressed to the right system, the
    agreement, and the notice that tells the receiver. */
module ConsensusEffects {
  import opened Text
  import opened Message
  import opened Chunks
  import opened Tables
  import opened RunJobs
  import opened StateGraph
  import opened Handshake
  import opened HandshakeRuns
  import opened Blocking

  // ---- requests and replies ----------------------------------------------------------------

  /** A consensus message from `me` to the system named `dest`, ready for the sender of such messages: row and
      message name both nodes, and the message tells `capacity` and the sender's port and address. */
  predicate IsConsensusRow(h: Md5, me: Self, id: Id, j: Job, kind: Bytes, dest: Bytes, capacity: int, now: Stamp) {
    && j.state == S5 && j.kind == kind && j.source == me.name && j.dest == dest && j.priority == [ZERO + 5]
    && |j.data| == 147 && HashOk(h, j.data) && IdField(j.data) == id && TypeField(j.data) == LPad(kind, 5)
    && Carries(j.data, me.name, dest, [ZERO + 5], now)
    && CapacityField(j.data) == Some(capacity) && PortField(j.data) == Some(me.dataport)
    && IpField(j.data) == RequestIp(me.ip) && ReplyIpField(j.data) == Some(me.ip)
  }

  /** A waiting order for a system that is known but has not answered. */
  predicate NeedsAsking(t: Tables, p: Id, e: Endpoint) {
    p in t.jobs && t.jobs[p].state == S && e in t.sysinfo && t.jobs[p].dest == e.name && t.sysinfo[e].dataport == 0
  }

  /** The row with uuid `id` asks `e` on behalf of order `p`. */
  predicate Asks(env: Env, t: Tables, id: Id, j: Job, p: Id, e: Endpoint) {
    && NeedsAsking(t, p, e) && id == env.ids(Request(p, e)) && j.parent == t.jobs[p].parent
    && IsConsensusRow(env.h, t.self, id, j, TYPE_REQUEST, e.name, t.self.capacity, env.now)
  }

  lemma RequestIs(t: Tables, env: Env, p: Id, e: Endpoint)
    requires SelfOk(t.self) && NeedsAsking(t, p, e)
    ensures Request(p, e) in RequestRows(t, env)
    ensures Asks(env, t, env.ids(Request(p, e)), RequestRows(t, env)[Request(p, e)], p, e)
  {
    hide ConsensusMessage, Carries, HashOk, IdField, TypeField, CapacityField, PortField, IpField, ReplyIpField, LPad;
    ConsensusRoundTrip(env.h, env.ids(Request(p, e)), TYPE_REQUEST, t.self.capacity, t.self.dataport, t.self.ip,
                       t.self.name, e.name, env.now);
  }

  /** The statement adds one request for each waiting order and each such system, and nothing else. */
  lemma AskAddsRequests(t: Tables, env: Env, u: Tables)
    requires SelfOk(t.self) && Ask(t, env) == Some(u)
    ensures forall p, e :: NeedsAsking(t, p, e) ==>
              var id := env.ids(Request(p, e)); id !in t.jobs && id in u.jobs && Asks(env, t, id, u.jobs[id], p, e)
    ensures forall id :: id in u.jobs && id !in t.jobs ==> exists p, e :: Asks(env, t, id, u.jobs[id], p, e)
  {
    hide Asks, NeedsAsking, RequestRows, InsertRows, Admitted;
    var rows := RequestRows(t, env);
    AskInserts(t, env, u);
    forall p, e | NeedsAsking(t, p, e)
      ensures var id := env.ids(Request(p, e)); id !in t.jobs && id in u.jobs && Asks(env, t, id, u.jobs[id], p, e)
    {
      RequestIs(t, env, p, e);
    }
    forall id | id in u.jobs && id !in t.jobs ensures exists p, e :: Asks(env, t, id, u.jobs[id], p, e) {
      var s :| s in rows && env.ids(s) == id;
      RequestSlot(t, env, s);
      RequestIs(t, env, s.job, s.peer);
      assert Asks(env, t, id, u.jobs[id], s.job, s.peer);
    }
  }

  lemma RequestSlot(t: Tables, env: Env, s: Slot)
    requires s in RequestRows(t, env)
    ensures s.Request? && NeedsAsking(t, s.job, s.peer) && s == Request(s.job, s.peer)
  {
    hide RequestRow;
  }

  lemma AskInserts(t: Tables, env: Env, u: Tables)
    requires Ask(t, env) == Some(u)
    ensures forall s :: s in RequestRows(t, env) ==>
              env.ids(s) !in t.jobs && env.ids(s) in u.jobs && u.jobs[env.ids(s)] == RequestRows(t, env)[s]
    ensures forall id :: id in u.jobs && id !in t.jobs ==> exists s :: s in RequestRows(t, env) && env.ids(s) == id
  {
    hide NameKnown, RequestRows, Drawable;
    RequestRowsShape(t, env);
  }

  /** The row with uuid `id` answers request `r` of `peer`, with the smaller of the two capacities. */
  predicate Answers(env: Env, t: Tables, id: Id, j: Job, r: Id, peer: Self) {
    && r in t.jobs && id == env.ids(Reply(r)) && j.parent == t.jobs[r].parent
    && IsConsensusRow(env.h, t.self, id, j, TYPE_REPLY, peer.name, Agreed(t.self, peer), env.now)
  }

  lemma ReplyIs(h: Md5, t: Tables, env: Env, r: Id, peer: Self)
    requires env.h == h && NodeOk(h, t, peer) && r in Pending(t.jobs, TYPE_REQUEST)
    ensures Reply(r) in ReplyRows(t, env)
    ensures Answers(env, t, env.ids(Reply(r)), ReplyRows(t, env)[Reply(r)], r, peer)
  {
    hide ConsensusMessage, Carries, HashOk, IdField, TypeField, SourceField, CapacityField, PortField, IpField,
      ReplyIpField, LPad, RowsHonest, SysOk, NoticesOk, Pending;
    PendingHonest(h, t, peer, r, TYPE_REQUEST);
    PendingIn(t.jobs, r);
    ConsensusRoundTrip(h, env.ids(Reply(r)), TYPE_REPLY, Agreed(t.self, peer), t.self.dataport, t.self.ip,
                       t.self.name, peer.name, env.now);
  }

  /** The statement adds one reply for each pending request, and nothing else. */
  lemma AnswerAddsReplies(h: Md5, t: Tables, env: Env, u: Tables, peer: Self)
    requires env.h == h && NodeOk(h, t, peer) && Answer(t, env) == Some(u)
    ensures forall r :: r in Pending(t.jobs, TYPE_REQUEST) ==>
              var id := env.ids(Reply(r)); id !in t.jobs && id in u.jobs && Answers(env, t, id, u.jobs[id], r, peer)
    ensures forall id :: id in u.jobs && id !in t.jobs ==>
              exists r :: r in Pending(t.jobs, TYPE_REQUEST) && Answers(env, t, id, u.jobs[id], r, peer)
  {
    hide NodeOk, IsConsensusRow, ReplyRow, Drawable, Pending, CapacityField, LPad, Answers;
    var rows := ReplyRows(t, env);
    forall r | r in Pending(t.jobs, TYPE_REQUEST)
      ensures var id := env.ids(Reply(r)); id !in t.jobs && id in u.jobs && Answers(env, t, id, u.jobs[id], r, peer)
    {
      ReplyIs(h, t, env, r, peer);
      AnswerIsS5(env, t, env.ids(Reply(r)), rows[Reply(r)], r, peer);
    }
    forall id | id in u.jobs && id !in t.jobs
      ensures exists r :: r in Pending(t.jobs, TYPE_REQUEST) && Answers(env, t, id, u.jobs[id], r, peer)
    {
      var s :| s in rows && env.ids(s) == id;
      ReplyIs(h, t, env, s.job, peer);
      AnswerIsS5(env, t, id, rows[s], s.job, peer);
      assert Answers(env, t, id, u.jobs[id], s.job, peer);
    }
  }

  lemma AnswerIsS5(env: Env, t: Tables, id: Id, j: Job, r: Id, peer: Self)
    requires Answers(env, t, id, j, r, peer)
    ensures j.state == S5
  {
    hide Carries, HashOk, IdField, TypeField, CapacityField, PortField, IpField, ReplyIpField, LPad;
  }

  // ---- the agreement and its notice --------------------------------------------------------

  /** What sysinfo and the notices become when the agreement with `peer` is recorded: exactly one row is
      written, and exactly one notice is added. */
  predicate Agrees(t: Tables, u: Tables, peer: Self) {
    var e := EndpointOf(peer);
    && e in u.sysinfo
    && u.sysinfo == t.sysinfo[e := Peer(peer.dataport, if e in t.sysinfo then t.sysinfo[e].commsport else 7000,
                                        Agreed(t.self, peer))]
    && u.notices == t.notices + multiset{Notice(peer.ip, Agreed(t.self, peer))}
  }

  /** A request is recorded, and the receiver told, exactly once; without one nothing changes. */
  lemma RequestAgrees(h: Md5, t: Tables, u: Tables, peer: Self)
    requires NodeOk(h, t, peer) && AcceptRequest(t) == Some(u)
    ensures if Pending(t.jobs, TYPE_REQUEST) == {} then u == t else Agrees(t, u, peer)
  {
    hide HashOk, RowsHonest, CapacityField, PortField, IpField, ReplyIpField, SourceField, TypeField, LPad, NoticesOk,
      Pending;
    var rs := Pending(t.jobs, TYPE_REQUEST);
    if rs != {} {
      var id := Only(rs);
      PendingHonest(h, t, peer, id, TYPE_REQUEST);
      Padded5(peer.name);
      AgreedNotZero(t.self, peer);
    }
  }

  /** The peer is known, and neither its capacity nor its port is. */
  predicate Open(sysinfo: Sysinfo, peer: Self) {
    var e := EndpointOf(peer);
    e in sysinfo && sysinfo[e].capacity == 0 && sysinfo[e].dataport == 0
  }

  /** So is a reply for a system that is open; for any other it changes nothing. */
  lemma ReplyAgrees(h: Md5, t: Tables, u: Tables, peer: Self)
    requires NodeOk(h, t, peer) && AcceptReply(t) == Some(u)
    ensures if Pending(t.jobs, TYPE_REPLY) == {} || !Open(t.sysinfo, peer) then u == t else Agrees(t, u, peer)
  {
    hide HashOk, RowsHonest, CapacityField, PortField, IpField, ReplyIpField, SourceField, TypeField, LPad, NoticesOk,
      Pending, ReadableReply;
    OpenIs(t, peer);
    KnownAmong(t);
    if Open(t.sysinfo, peer) {
      forall id | id in Pending(t.jobs, TYPE_REPLY) ensures id in KnownReplies(t) { ReplyKnown(h, t, peer, id); }
      if Pending(t.jobs, TYPE_REPLY) != {} {
        var id := Only(KnownReplies(t));
        PendingHonest(h, t, peer, id, TYPE_REPLY);
        TypesDifferent();
        AgreedNotZero(t.self, peer);
        OneNotice(t, peer);
        OneFilled(t, u, peer);
      }
    }
  }

  lemma OpenIs(t: Tables, peer: Self)
    requires SysOk(t.sysinfo, t.self, peer)
    ensures Unresolved(t.sysinfo) == if Open(t.sysinfo, peer) then {EndpointOf(peer)} else {}
  {
  }

  lemma OneNotice(t: Tables, peer: Self)
    requires Unresolved(t.sysinfo) == {EndpointOf(peer)}
    ensures forall c: int ::
              multiset(set e | e in Unresolved(t.sysinfo) :: Notice(e.ip, c)) == multiset{Notice(peer.ip, c)}
  {
    forall c: int
      ensures multiset(set e | e in Unresolved(t.sysinfo) :: Notice(e.ip, c)) == multiset{Notice(peer.ip, c)}
    {
      assert (set e | e in Unresolved(t.sysinfo) :: Notice(e.ip, c)) == {Notice(peer.ip, c)};
    }
  }

  lemma OneFilled(t: Tables, u: Tables, peer: Self)
    requires EndpointOf(peer) in t.sysinfo && u.sysinfo.Keys == t.sysinfo.Keys
    requires forall e :: e in t.sysinfo ==> e == EndpointOf(peer)
    requires u.sysinfo[EndpointOf(peer)].capacity == Agreed(t.self, peer)
    requires u.sysinfo[EndpointOf(peer)].dataport == peer.dataport
    requires u.sysinfo[EndpointOf(peer)].commsport == t.sysinfo[EndpointOf(peer)].commsport
    ensures u.sysinfo == t.sysinfo[EndpointOf(peer) := Peer(peer.dataport, t.sysinfo[EndpointOf(peer)].commsport,
                                                            Agreed(t.self, peer))]
  {
  }

  // ---- the pass ----------------------------------------------------------------------------

  /** Whether the pass records the agreement. */
  predicate WillAgree(h: Md5, t: Tables, peer: Self) {
    || ArrivedRows(h, t.jobs, TYPE_REQUEST) != {}
    || (ArrivedRows(h, t.jobs, TYPE_REPLY) != {} && Open(t.sysinfo, peer))
  }

  /** A successful pass records the agreement, and adds its notice, exactly once if a request or a usable reply has
      arrived, and leaves sysinfo and the notices alone if not. */
  lemma PassAgrees(h: Md5, t: Tables, env: Env, u: Tables, peer: Self)
    requires env.h == h && NodeOk(h, t, peer) && Pass(t, env) == Some(u)
    ensures if WillAgree(h, t, peer) then Agrees(t, u, peer) else u.sysinfo == t.sysinfo && u.notices == t.notices
  {
    hide Pass, Check, Consensus, Split, Connect, NodeOk, ArrivedRows, Pending, Evolves, SplittingRows, Agrees, Open;
    var t1, t2, t3 := PassStages(t, env, u);
    CheckedOk(h, t, env, t1, peer);
    CheckedPending(t, env, t1, TYPE_REQUEST);
    CheckedPending(t, env, t1, TYPE_REPLY);
    ConsensusAgrees(h, t1, env, t2, peer);
    SplitEvolves(t2, env, t3);
    ConnectKeeps(t3, env, u);
    SameAgrees(t, t1, t2, u, peer);
  }

  lemma SameAgrees(t: Tables, t1: Tables, t2: Tables, u: Tables, peer: Self)
    requires t1.sysinfo == t.sysinfo && t1.notices == t.notices && t1.self == t.self
    requires u.sysinfo == t2.sysinfo && u.notices == t2.notices
    ensures Agrees(t1, t2, peer) ==> Agrees(t, u, peer)
  {
  }

  lemma ConsensusAgrees(h: Md5, t: Tables, env: Env, u: Tables, peer: Self)
    requires env.h == h && NodeOk(h, t, peer) && Consensus(t, env) == Some(u)
    ensures if Pending(t.jobs, TYPE_REQUEST) != {} || (Pending(t.jobs, TYPE_REPLY) != {} && Open(t.sysinfo, peer))
            then Agrees(t, u, peer) else u.sysinfo == t.sysinfo && u.notices == t.notices
  {
    hide Consensus, Ask, AcceptRequest, Answer, AcceptReply, Closed, RowsHonest, SysOk, NoticesOk, Pending, Agrees,
      Open,
      Evolves;
    var t1, t2, t3, t4 := ConsensusStages(t, env, u);
    AskHonest(h, t, env, t1, peer);
    AskKeepsPending(t, env, t1, TYPE_REQUEST);
    AskKeepsPending(t, env, t1, TYPE_REPLY);
    AcceptRequestOk(h, t1, t2, peer);
    RequestAgrees(h, t1, t2, peer);
    AnswerHonest(h, t2, env, t3, peer);
    AnswerKeepsReplies(t2, env, t3);
    ReplyAgrees(h, t3, t4, peer);
    if Pending(t.jobs, TYPE_REQUEST) != {} {
      AgreedNotOpen(t1, t2, peer);
      SameAgrees(t, t1, t2, u, peer);
    } else {
      SameAgrees(t, t3, t4, u, peer);
    }
  }

  lemma AgreedNotOpen(t: Tables, u: Tables, peer: Self)
    requires Agrees(t, u, peer) && SelfOk(t.self) && SelfOk(peer)
    ensures !Open(u.sysinfo, peer)
  {
    AgreedNotZero(t.self, peer);
  }

  /** No address is in sysinfo twice. */
  predicate OneEach(sysinfo: Sysinfo) {
    forall d, e :: d in sysinfo && e in sysinfo && d.ip == e.ip ==> d == e
  }

  /** Whatever the pass, a request sets the row of the system that made it, and no other, so that no address comes
      twice, and adds exactly one notice of what that row now says, unless that is 0. */
  lemma RequestTells(t: Tables, u: Tables, id: Id) returns (e: Endpoint)
    requires AcceptRequest(t) == Some(u) && id in Pending(t.jobs, TYPE_REQUEST)
    ensures e in u.sysinfo && u.sysinfo == t.sysinfo[e := u.sysinfo[e]]
    ensures e.name == LPad(SourceField(t.jobs[id].data), 5) && IpField(t.jobs[id].data) == Some(e.ip)
    ensures u.notices == t.notices + if u.sysinfo[e].capacity != 0 then multiset{Notice(e.ip, u.sysinfo[e].capacity)}
                                     else multiset{}
    ensures OneEach(t.sysinfo) ==> OneEach(u.sysinfo)
  {
    hide CapacityField, PortField, IpField, SourceField, LPad;
    assert Only(Pending(t.jobs, TYPE_REQUEST)) == id;
    e := Endpoint(LPad(SourceField(t.jobs[id].data), 5), IpField(t.jobs[id].data).value);
  }

  /** Whatever the pass, each row that a reply fills in adds exactly one notice, and nothing else adds any. */
  lemma ReplyTells(t: Tables, u: Tables, n: Notice)
    requires AcceptReply(t) == Some(u)
    ensures u.notices[n] == t.notices[n] + if FilledIn(t, u, n) then 1 else 0
  {
    hide CapacityField, PortField, SourceField, ReplyIpField, LPad, Pending, KnownReplies, ReadableReply;
    if KnownReplies(t) != {} && Unresolved(t.sysinfo) != {} {
      ReplyReads(t, Only(KnownReplies(t)));
      var c := CapacityField(t.jobs[Only(KnownReplies(t))].data).value;
      var told := set e | e in Unresolved(t.sysinfo) :: Notice(e.ip, c);
      assert n in told && c != 0 <==> FilledIn(t, u, n);
    }
  }

  lemma ReplyReads(t: Tables, id: Id)
    requires id in KnownReplies(t)
    requires !exists i :: i in Pending(t.jobs, TYPE_REPLY) && !ReadableReply(t.jobs[i].data)
    ensures id in t.jobs && CapacityField(t.jobs[id].data).Some?
  {
    hide CapacityField, PortField, SourceField, ReplyIpField, LPad;
  }

  /** Some system of that address, of which nothing was known, now has that capacity. */
  predicate FilledIn(t: Tables, u: Tables, n: Notice) {
    && n.capacity != 0
    && (exists e :: e in t.sysinfo && t.sysinfo[e].capacity == 0 && t.sysinfo[e].dataport == 0
          && e in u.sysinfo && u.sysinfo[e].capacity == n.capacity && e.ip == n.ip)
  }

  // ---- the rows a pass writes --------------------------------------------------------------

  /** The systems a row for `name` is joined with when it is sent. */
  function JoinedWith(sysinfo: Sysinfo, name: Bytes): set<Endpoint> {
    set e | e in sysinfo && e.name == name
  }

  /** A request for each waiting order and unanswered system. */
  ghost predicate AllAsked(env: Env, t: Tables, jobs: Jobs) {
    forall p, e :: NeedsAsking(t, p, e) ==>
      var id := env.ids(Request(p, e)); id !in t.jobs && id in jobs && Asks(env, t, id, jobs[id], p, e)
  }

  /** A reply for each of the requests `rs`. */
  ghost predicate AllAnswered(env: Env, t: Tables, jobs: Jobs, rs: set<Id>, peer: Self) {
    forall r :: r in rs ==>
      var id := env.ids(Reply(r)); id !in t.jobs && id in jobs && Answers(env, t, id, jobs[id], r, peer)
  }

  ghost predicate IsWritten(env: Env, t: Tables, id: Id, j: Job, rs: set<Id>, peer: Self) {
    (exists p, e :: Asks(env, t, id, j, p, e)) || (exists r :: r in rs && Answers(env, t, id, j, r, peer))
  }

  /** The new rows in S-5 are these and no others. */
  ghost predicate WritesAre(env: Env, t: Tables, jobs: Jobs, rs: set<Id>, peer: Self) {
    && AllAsked(env, t, jobs) && AllAnswered(env, t, jobs, rs, peer)
    && (forall id :: id in jobs && id !in t.jobs && jobs[id].state == S5 ==> IsWritten(env, t, id, jobs[id], rs, peer))
  }

  /** The checked tables ask and answer like those before. */
  lemma CheckedNeeds(h: Md5, t: Tables, env: Env, u: Tables)
    requires Check(t, env) == Some(u)
    ensures u.jobs.Keys == t.jobs.Keys && u.self == t.self
    ensures forall p, e :: NeedsAsking(u, p, e) <==> NeedsAsking(t, p, e)
    ensures forall id :: id in t.jobs ==> u.jobs[id].parent == t.jobs[id].parent
  {
    hide Check, Evolves, Moved, Unchecked;
    CheckEvolves(t, env, u);
    forall id | id in t.jobs
      ensures u.jobs[id].parent == t.jobs[id].parent
      ensures u.jobs[id].state == S || t.jobs[id].state == S ==> u.jobs[id] == t.jobs[id]
    {
      CheckedSame(t.jobs, u.jobs, id);
    }
  }

  lemma CheckedSame(a: Jobs, b: Jobs, id: Id)
    requires CompletedRows(a, b) && Evolves(a, b) && id in a
    ensures id in b && b[id].parent == a[id].parent
    ensures b[id].state == S || a[id].state == S ==> b[id] == a[id]
  {
    hide Reaches;
    assert CompletedRow(a[id], b[id]) && Moved(a[id], b[id]);
  }

  lemma AsksSame(env: Env, t: Tables, u: Tables, id: Id, j: Job, p: Id, e: Endpoint)
    requires u.self == t.self && (NeedsAsking(u, p, e) <==> NeedsAsking(t, p, e))
    requires p in t.jobs ==> p in u.jobs && u.jobs[p].parent == t.jobs[p].parent
    ensures Asks(env, u, id, j, p, e) ==> Asks(env, t, id, j, p, e)
  {
    hide NeedsAsking, IsConsensusRow;
    InNeeds(t, p, e);
  }

  lemma InNeeds(t: Tables, p: Id, e: Endpoint)
    ensures NeedsAsking(t, p, e) ==> p in t.jobs
  {
  }

  lemma AnswersSame(env: Env, t: Tables, u: Tables, id: Id, j: Job, r: Id, peer: Self)
    requires u.self == t.self && r in t.jobs && r in u.jobs && u.jobs[r].parent == t.jobs[r].parent
    ensures Answers(env, u, id, j, r, peer) ==> Answers(env, t, id, j, r, peer)
  {
    hide IsConsensusRow;
  }

  /** The consensus statements write exactly these rows. */
  lemma ConsensusWrites(h: Md5, t: Tables, env: Env, u: Tables, peer: Self)
    requires env.h == h && NodeOk(h, t, peer) && Consensus(t, env) == Some(u)
    ensures WritesAre(env, t, u.jobs, Pending(t.jobs, TYPE_REQUEST), peer)
  {
    hide Consensus, Ask, AcceptRequest, Answer, AcceptReply, Closed, RowsHonest, SysOk, NoticesOk, Pending, Asks,
      Answers,
      Evolves, NeedsAsking, AnsweredRow, AllAsked, AllAnswered, IsWritten;
    var t1, t2, t3, t4 := ConsensusStages(t, env, u);
    var rs := Pending(t.jobs, TYPE_REQUEST);
    AskHonest(h, t, env, t1, peer);
    AskEvolves(t, env, t1);
    AskKeepsPending(t, env, t1, TYPE_REQUEST);
    AcceptRequestOk(h, t1, t2, peer);
    AnswerEvolves(t2, env, t3);
    AcceptReplyKeeps(t3, t4);
    ReadyStays(t1.jobs, t3.jobs, u.jobs);
    RequestsWritten(t, env, t1, u.jobs);
    RepliesWritten(h, t, env, t2, t3, u.jobs, peer);
    forall id | id in u.jobs && id !in t.jobs && u.jobs[id].state == S5
      ensures IsWritten(env, t, id, u.jobs[id], rs, peer)
    {
      if id in t1.jobs {
        RequestWritten(t, env, t1, u.jobs, id, rs, peer);
      } else {
        ReplyWritten(h, t, env, t2, t3, u.jobs, id, peer);
      }
    }
  }

  lemma RequestsWritten(t: Tables, env: Env, t1: Tables, jobs: Jobs)
    requires SelfOk(t.self) && Ask(t, env) == Some(t1)
    requires forall id :: id in t1.jobs && t1.jobs[id].state == S5 ==> id in jobs && jobs[id] == t1.jobs[id]
    ensures AllAsked(env, t, jobs)
  {
    hide Ask, Asks, NeedsAsking, SelfOk;
    AskAddsRequests(t, env, t1);
    forall p, e | NeedsAsking(t, p, e)
      ensures var id := env.ids(Request(p, e)); id !in t.jobs && id in jobs && Asks(env, t, id, jobs[id], p, e)
    {
      AskedState(env, t, env.ids(Request(p, e)), t1.jobs[env.ids(Request(p, e))], p, e);
    }
  }

  lemma RequestWritten(t: Tables, env: Env, t1: Tables, jobs: Jobs, id: Id, rs: set<Id>, peer: Self)
    requires SelfOk(t.self) && Ask(t, env) == Some(t1) && id in t1.jobs && id !in t.jobs
    requires forall i :: i in t1.jobs && t1.jobs[i].state == S5 ==> i in jobs && jobs[i] == t1.jobs[i]
    ensures id in jobs && IsWritten(env, t, id, jobs[id], rs, peer)
  {
    hide Ask, Asks, Answers, NeedsAsking, SelfOk;
    AskAddsRequests(t, env, t1);
    var p, e :| Asks(env, t, id, t1.jobs[id], p, e);
    AskedState(env, t, id, t1.jobs[id], p, e);
    assert Asks(env, t, id, jobs[id], p, e);
  }

  /** The tables before the replies have the rows of those before the requests. */
  predicate SameRows(t: Tables, t2: Tables) {
    t2.self == t.self && forall id :: id in t.jobs ==> id in t2.jobs && t2.jobs[id].parent == t.jobs[id].parent
  }

  lemma RepliesWritten(h: Md5, t: Tables, env: Env, t2: Tables, t3: Tables, jobs: Jobs, peer: Self)
    requires env.h == h && NodeOk(h, t2, peer) && Answer(t2, env) == Some(t3) && SameRows(t, t2)
    requires Pending(t2.jobs, TYPE_REQUEST) == Pending(t.jobs, TYPE_REQUEST)
    requires forall i :: i in t3.jobs && t3.jobs[i].state == S5 ==> i in jobs && jobs[i] == t3.jobs[i]
    ensures AllAnswered(env, t, jobs, Pending(t.jobs, TYPE_REQUEST), peer)
  {
    hide Answer, Answers, NodeOk, Pending;
    AnswerAddsReplies(h, t2, env, t3, peer);
    forall r | r in Pending(t.jobs, TYPE_REQUEST)
      ensures var id := env.ids(Reply(r)); id !in t.jobs && id in jobs && Answers(env, t, id, jobs[id], r, peer)
    {
      var id := env.ids(Reply(r));
      PendingIn(t.jobs, r);
      AnswerIsS5(env, t2, id, t3.jobs[id], r, peer);
      AnswersSame(env, t, t2, id, t3.jobs[id], r, peer);
    }
  }

  lemma ReplyWritten(h: Md5, t: Tables, env: Env, t2: Tables, t3: Tables, jobs: Jobs, id: Id, peer: Self)
    requires env.h == h && NodeOk(h, t2, peer) && Answer(t2, env) == Some(t3) && SameRows(t, t2)
    requires Pending(t2.jobs, TYPE_REQUEST) == Pending(t.jobs, TYPE_REQUEST)
    requires forall i :: i in t3.jobs && t3.jobs[i].state == S5 ==> i in jobs && jobs[i] == t3.jobs[i]
    requires id in t3.jobs && id !in t2.jobs
    ensures id in jobs && IsWritten(env, t, id, jobs[id], Pending(t.jobs, TYPE_REQUEST), peer)
  {
    hide Answer, Answers, Asks, NodeOk, Pending;
    AnswerAddsReplies(h, t2, env, t3, peer);
    var r :| r in Pending(t2.jobs, TYPE_REQUEST) && Answers(env, t2, id, t3.jobs[id], r, peer);
    PendingIn(t.jobs, r);
    AnswerIsS5(env, t2, id, t3.jobs[id], r, peer);
    AnswersSame(env, t, t2, id, t3.jobs[id], r, peer);
    assert Answers(env, t, id, jobs[id], r, peer);
  }

  lemma AskedState(env: Env, t: Tables, id: Id, j: Job, p: Id, e: Endpoint)
    requires Asks(env, t, id, j, p, e)
    ensures j.state == S5
  {
    hide Carries, HashOk, IdField, TypeField, CapacityField, PortField, IpField, ReplyIpField, LPad, NeedsAsking;
  }

  /** Later statements leave rows in S-5 alone. */
  lemma ReadyStays(a: Jobs, b: Jobs, c: Jobs)
    requires forall id :: id in a ==> id in b && AnsweredRow(a[id], b[id])
    requires c == Closed(b, TYPE_REPLY)
    ensures c.Keys == b.Keys
    ensures forall id :: id in a && a[id].state == S5 ==> c[id] == a[id]
    ensures forall id :: id in b && b[id].state == S5 ==> c[id] == b[id]
  {
    hide LPad;
  }

  lemma PassWrites(h: Md5, t: Tables, env: Env, u: Tables, peer: Self)
    requires env.h == h && NodeOk(h, t, peer) && Pass(t, env) == Some(u)
    ensures WritesAre(env, t, u.jobs, ArrivedRows(h, t.jobs, TYPE_REQUEST), peer)
  {
    hide Pass, Check, Consensus, Split, Connect, NodeOk, ArrivedRows, Pending, Evolves, Asks, Answers, NeedsAsking,
      SplittingRow, WritesAre;
    var t1, t2, t3 := PassStages(t, env, u);
    CheckedOk(h, t, env, t1, peer);
    CheckedPending(t, env, t1, TYPE_REQUEST);
    CheckedNeeds(h, t, env, t1);
    ConsensusWrites(h, t1, env, t2, peer);
    SplitEvolves(t2, env, t3);
    ConnectKeeps(t3, env, u);
    ArrivedIn(h, t.jobs);
    forall id | id in t2.jobs
      ensures id in u.jobs && (t2.jobs[id].state == S5 <==> u.jobs[id].state == S5)
      ensures t2.jobs[id].state == S5 ==> u.jobs[id] == t2.jobs[id]
    {
      SplitsReady(t2.sysinfo, t2.jobs[id], t3.jobs[id]);
    }
    CarryWrites(env, t, t1, t2.jobs, u.jobs, ArrivedRows(h, t.jobs, TYPE_REQUEST), peer);
  }

  lemma SplitsReady(sysinfo: Sysinfo, j: Job, k: Job)
    requires SplittingRow(sysinfo, j, k)
    ensures (j.state == S5 <==> k.state == S5) && (j.state == S5 ==> k == j)
  {
    hide NameKnown;
  }

  lemma ArrivedIn(h: Md5, jobs: Jobs)
    ensures forall r :: r in ArrivedRows(h, jobs, TYPE_REQUEST) ==> r in jobs
  {
    hide IsArrived;
  }

  /** The rows written between the stages of a pass are written by the pass. */
  lemma CarryWrites(env: Env, t: Tables, t1: Tables, a: Jobs, b: Jobs, rs: set<Id>, peer: Self)
    requires WritesAre(env, t1, a, rs, peer)
    requires t1.jobs.Keys == t.jobs.Keys && t1.self == t.self
    requires forall p, e :: NeedsAsking(t1, p, e) <==> NeedsAsking(t, p, e)
    requires forall id :: id in t.jobs ==> t1.jobs[id].parent == t.jobs[id].parent
    requires forall r :: r in rs ==> r in t.jobs
    requires forall id :: id in a && a[id].state == S5 ==> id in b && b[id] == a[id]
    requires forall id :: id in b && id !in a ==> b[id].state == S4
    requires forall id :: id in a && id in b && b[id].state == S5 ==> a[id].state == S5
    ensures WritesAre(env, t, b, rs, peer)
  {
    hide Asks, Answers, NeedsAsking;
    forall p, e | NeedsAsking(t, p, e)
      ensures var id := env.ids(Request(p, e)); id !in t.jobs && id in b && Asks(env, t, id, b[id], p, e)
    {
      var id := env.ids(Request(p, e));
      AskedState(env, t1, id, a[id], p, e);
      AsksSame(env, t, t1, id, a[id], p, e);
    }
    forall r | r in rs
      ensures var id := env.ids(Reply(r)); id !in t.jobs && id in b && Answers(env, t, id, b[id], r, peer)
    {
      var id := env.ids(Reply(r));
      AnswerIsS5(env, t1, id, a[id], r, peer);
      AnswersSame(env, t, t1, id, a[id], r, peer);
    }
    forall id | id in b && id !in t.jobs && b[id].state == S5 ensures IsWritten(env, t, id, b[id], rs, peer) {
      assert IsWritten(env, t1, id, a[id], rs, peer);
      if p, e :| Asks(env, t1, id, a[id], p, e) {
        AsksSame(env, t, t1, id, a[id], p, e);
      } else {
        var r :| r in rs && Answers(env, t1, id, a[id], r, peer);
        AnswersSame(env, t, t1, id, a[id], r, peer);
        assert Answers(env, t, id, b[id], r, peer);
      }
    }
  }

  /** Every new row in S-5 goes to the peer: it names the peer, and sysinfo joins it with exactly the peer. */
  lemma WritesReachPeer(h: Md5, t: Tables, env: Env, u: Tables, peer: Self, id: Id)
    requires env.h == h && NodeOk(h, t, peer) && Pass(t, env) == Some(u)
    requires id in u.jobs && id !in t.jobs && u.jobs[id].state == S5
    ensures u.jobs[id].dest == peer.name && DestField(u.jobs[id].data) == peer.name
    ensures JoinedWith(u.sysinfo, u.jobs[id].dest) == {EndpointOf(peer)}
  {
    hide Pass, NodeOk, ArrivedRows, Asks, Answers, Agrees, Open;
    PassWrites(h, t, env, u, peer);
    PassAgrees(h, t, env, u, peer);
    var rs := ArrivedRows(h, t.jobs, TYPE_REQUEST);
    assert IsWritten(env, t, id, u.jobs[id], rs, peer);
    PassHonest(h, t, env, u, peer);
    if p, e :| Asks(env, t, id, u.jobs[id], p, e) {
      AskReaches(h, t, env, u, id, u.jobs[id], p, e, peer);
    } else {
      var r :| r in rs && Answers(env, t, id, u.jobs[id], r, peer);
      AnswerReaches(h, t, env, u, id, u.jobs[id], r, peer);
    }
  }

  lemma AskReaches(h: Md5, t: Tables, env: Env, u: Tables, id: Id, j: Job, p: Id, e: Endpoint, peer: Self)
    requires NodeOk(h, t, peer) && NodeOk(h, u, peer) && Asks(env, t, id, j, p, e)
    requires Agrees(t, u, peer) || u.sysinfo == t.sysinfo
    ensures j.dest == peer.name && DestField(j.data) == peer.name && JoinedWith(u.sysinfo, j.dest) == {EndpointOf(peer)}
  {
    hide RowsHonest, NoticesOk, HashOk, IdField, TypeField, CapacityField, PortField, IpField, ReplyIpField, LPad,
      SourceField, DestField, PriorityField, StampField;
    Padded5(peer.name);
  }

  lemma AnswerReaches(h: Md5, t: Tables, env: Env, u: Tables, id: Id, j: Job, r: Id, peer: Self)
    requires NodeOk(h, t, peer) && NodeOk(h, u, peer) && Answers(env, t, id, j, r, peer) && Agrees(t, u, peer)
    ensures j.dest == peer.name && DestField(j.data) == peer.name && JoinedWith(u.sysinfo, j.dest) == {EndpointOf(peer)}
  {
    hide RowsHonest, NoticesOk, HashOk, IdField, TypeField, CapacityField, PortField, IpField, ReplyIpField, LPad,
      SourceField, DestField, PriorityField, StampField;
    Padded5(peer.name);
  }
}
