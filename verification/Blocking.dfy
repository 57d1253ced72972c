/** When a pass succeeds, and the rows that make every pass of a node fail for good. */
module Blocking {
  import opened Text
  import opened Message
  import opened Chunks
  import opened Tables
  import opened RunJobs
  import opened StateGraph
  import opened JobRuns
  import opened Handshake
  import opened HandshakeRuns
  import JobProperties

  // ---- what a pass will look at ------------------------------------------------------------

  /** The consensus messages of one type that the next pass will look at. */
  function ArrivedRows(h: Md5, jobs: Jobs, kind: Bytes): set<Id> {
    set id | id in jobs && IsArrived(h, jobs, id, kind)
  }

  lemma TriagedIsArrived(h: Md5, jobs: Jobs, id: Id, kind: Bytes)
    requires id in jobs
    ensures id in Triage(h, jobs)
    ensures var k := Triage(h, jobs)[id];
            k.state == N4 && k.kind == LPad(kind, 5) <==> IsArrived(h, jobs, id, kind)
    ensures Triage(h, jobs)[id].data == jobs[id].data && Triage(h, jobs)[id].parent == jobs[id].parent
    ensures Triage(h, jobs)[id].state == C <==> jobs[id].state == C
  {
    hide HashOk, LPad, TypeField, DestField, Roots;
  }

  lemma CheckedPending(t: Tables, env: Env, u: Tables, kind: Bytes)
    requires Check(t, env) == Some(u)
    ensures u == t.(jobs := u.jobs) && Pending(u.jobs, kind) == ArrivedRows(env.h, t.jobs, kind)
    ensures forall id :: id in Pending(u.jobs, kind) ==> u.jobs[id].data == t.jobs[id].data
  {
    hide Triage, LPad, CountsReadable, CompleteLarge, CompleteSmall, ParentsCompleted, IsArrived, Evolves;
    var triaged := Triage(env.h, t.jobs);
    var large := CompleteLarge(triaged);
    TriageEvolves(env.h, t.jobs);
    CompletionEvolves(triaged, large);
    CompletionEvolves(large, u.jobs);
    CompletedPending(triaged, large, kind);
    CompletedPending(large, u.jobs, kind);
    forall id | id in t.jobs
      ensures id in triaged && triaged[id].data == t.jobs[id].data
      ensures id in Pending(triaged, kind) <==> id in ArrivedRows(env.h, t.jobs, kind)
    {
      TriagedIsArrived(env.h, t.jobs, id, kind);
    }
  }

  lemma CompletedPending(a: Jobs, b: Jobs, kind: Bytes)
    requires ParentsCompleted(a, b)
    ensures Pending(b, kind) == Pending(a, kind)
    ensures forall id :: id in Pending(b, kind) ==> b[id].data == a[id].data
  {
    hide LPad;
  }

  /** The first statements change nothing that the completion query casts or joins. */
  lemma TriagedCounts(h: Md5, jobs: Jobs)
    ensures CountsReadable(Triage(h, jobs)) <==> CountsReadable(jobs)
  {
    hide Triage, CountField, TypeField, LPad, Evolves;
    TriageEvolves(h, jobs);
    forall id | id in jobs
      ensures id in Triage(h, jobs) && (Triage(h, jobs)[id].state == C <==> jobs[id].state == C)
      ensures Triage(h, jobs)[id].data == jobs[id].data && Triage(h, jobs)[id].parent == jobs[id].parent
    {
      TriagedIsArrived(h, jobs, id, TYPE_REQUEST);
    }
    SameCounts(jobs, Triage(h, jobs));
  }

  lemma SameCounts(a: Jobs, b: Jobs)
    requires a.Keys == b.Keys
    requires forall id :: id in a ==>
               b[id].data == a[id].data && b[id].parent == a[id].parent && (b[id].state == C <==> a[id].state == C)
    ensures CountsReadable(b) <==> CountsReadable(a)
  {
    hide CountField, TypeField, LPad;
    forall p: Id ensures DoneChildren(b, p) == DoneChildren(a, p) { }
    hide DoneChildren;
    assert forall id :: id in a ==> (IsInfoRow(b[id]) <==> IsInfoRow(a[id]));
  }

  /** The replies the pass can use are those that have arrived, if the peer is known at all. */
  lemma RepliesArrived(h: Md5, t: Tables, env: Env, u: Tables, peer: Self)
    requires env.h == h && NodeOk(h, t, peer) && Check(t, env) == Some(u)
    ensures RepliesFit(u) <==>
              || ArrivedRows(h, t.jobs, TYPE_REQUEST) != {}
              || |ArrivedRows(h, t.jobs, TYPE_REPLY)| <= 1
              || Unresolved(t.sysinfo) == {}
  {
    hide RowsHonest, NoticesOk, Pending, IsArrived, Check, KnownReplies;
    CheckedPending(t, env, u, TYPE_REQUEST);
    CheckedPending(t, env, u, TYPE_REPLY);
    CheckHonest(h, t, env, u, peer);
    if EndpointOf(peer) in t.sysinfo {
      forall id | id in Pending(u.jobs, TYPE_REPLY) ensures id in KnownReplies(u) {
        ReplyKnown(h, u, peer, id);
      }
      KnownAmong(u);
      assert KnownReplies(u) == Pending(u.jobs, TYPE_REPLY);
    }
  }

  lemma KnownAmong(t: Tables)
    ensures KnownReplies(t) <= Pending(t.jobs, TYPE_REPLY)
  {
    hide ReplyIpField, SourceField, Pending;
  }

  // ---- when the splitting statements succeed -----------------------------------------------

  /** The rows the splitting statements insert, once the files are classified. */
  function SplitSlots(t: Tables, env: Env): set<Slot>
    requires Divisible(t)
  {
    SingleRows(t, env).Keys + ChunkRows(t, env).Keys + InfoRows(t, env).Keys
  }

  /** More rows that are ready to be sent leave nothing more to split. */
  predicate OnlyMoreReady(t: Tables, u: Tables) {
    && u == t.(jobs := u.jobs)
    && (forall id :: id in t.jobs ==> id in u.jobs && u.jobs[id] == t.jobs[id])
    && (forall id :: id in u.jobs && id !in t.jobs ==> u.jobs[id].state == S4)
  }

  lemma SameJoins(t: Tables, u: Tables)
    requires OnlyMoreReady(t, u)
    ensures forall id, e :: Joined(u, id, e, S2) <==> Joined(t, id, e, S2)
    ensures Divisible(u) <==> Divisible(t)
  {
  }

  lemma SameTotals(t: Tables, u: Tables)
    requires OnlyMoreReady(t, u) && Divisible(t)
    ensures forall id, e :: Joined(u, id, e, S2) <==> Joined(t, id, e, S2)
    ensures Divisible(u)
    ensures forall id, e :: Joined(t, id, e, S2) ==> ChunkTotal(u, id, e) == ChunkTotal(t, id, e)
  {
    hide CeilDiv;
    SameJoins(t, u);
  }

  lemma SameSplitKeys(t: Tables, u: Tables, env: Env)
    requires OnlyMoreReady(t, u) && Divisible(t)
    ensures Divisible(u) && ChunkRows(u, env).Keys == ChunkRows(t, env).Keys
        && InfoRows(u, env).Keys == InfoRows(t, env).Keys
  {
    hide ChunkRow, InfoRow, ChunkTotal, Divisible;
    SameTotals(t, u);
    assert forall id, e :: Joined(t, id, e, S2) ==> id in t.jobs && id in u.jobs && e in t.sysinfo;
    hide Joined;
    assert ChunkRows(u, env).Keys == ChunkRows(t, env).Keys;
  }

  lemma KeysInserted(jobs: Jobs, rows: map<Slot, Job>, ids: Slot -> Id)
    ensures InsertRows(jobs, rows, ids).Some? <==> Drawable(jobs, rows.Keys, ids)
    ensures InsertRows(jobs, rows, ids).Some? ==>
              InsertRows(jobs, rows, ids).value.Keys == jobs.Keys + set s | s in rows.Keys :: ids(s)
  {
    hide Drawable;
  }

  lemma WrittenSingles(t: Tables, env: Env)
    ensures WriteSingles(t, env).Some? <==> Drawable(t.jobs, SingleRows(t, env).Keys, env.ids)
    ensures WriteSingles(t, env).Some? ==>
              WriteSingles(t, env).value.jobs.Keys == t.jobs.Keys + set s | s in SingleRows(t, env).Keys :: env.ids(s)
  {
    hide InsertRows, SingleRows, Drawable;
    KeysInserted(t.jobs, SingleRows(t, env), env.ids);
  }

  lemma WrittenChunks(t: Tables, env: Env)
    requires Divisible(t)
    ensures WriteChunks(t, env).Some? <==> Drawable(t.jobs, ChunkRows(t, env).Keys, env.ids)
    ensures WriteChunks(t, env).Some? ==>
              WriteChunks(t, env).value.jobs.Keys == t.jobs.Keys + set s | s in ChunkRows(t, env).Keys :: env.ids(s)
  {
    hide InsertRows, ChunkRows, Drawable, Divisible;
    KeysInserted(t.jobs, ChunkRows(t, env), env.ids);
  }

  lemma WrittenInfos(t: Tables, env: Env)
    requires Divisible(t)
    ensures WriteInfos(t, env).Some? <==> Drawable(t.jobs, InfoRows(t, env).Keys, env.ids)
  {
    hide InsertRows, InfoRows, Drawable, Divisible;
    KeysInserted(t.jobs, InfoRows(t, env), env.ids);
  }

  lemma KindsApart(t: Tables, env: Env)
    requires Divisible(t)
    ensures SingleRows(t, env).Keys !! ChunkRows(t, env).Keys
    ensures SingleRows(t, env).Keys + ChunkRows(t, env).Keys !! InfoRows(t, env).Keys
  {
    hide SingleRow, ChunkRow, InfoRow, ChunkTotal, Divisible;
  }

  lemma InfosExact(singles: Tables, env: Env, chunks: Tables)
    requires Divisible(singles) && WriteChunks(singles, env) == Some(chunks)
    ensures WriteInfos(chunks, env).Some? <==> Drawable(chunks.jobs, InfoRows(singles, env).Keys, env.ids)
  {
    hide WriteChunks, WriteInfos, ChunkRows, InfoRows, Drawable, Divisible, Evolves;
    WriteEvolves(singles, env, chunks);
    SameSplitKeys(singles, chunks, env);
    WrittenInfos(chunks, env);
  }

  /** Three insertions one after the other can be drawn exactly when all together can. */
  lemma ThreeDraws(jobs: Jobs, second: Jobs, third: Jobs, a: set<Slot>, b: set<Slot>, c: set<Slot>, ids: Slot -> Id)
    requires a !! b && a + b !! c && Drawable(jobs, a, ids) && Drawable(second, b, ids)
    requires second.Keys == jobs.Keys + set s | s in a :: ids(s)
    requires third.Keys == second.Keys + set s | s in b :: ids(s)
    ensures Drawable(third, c, ids) <==> Drawable(jobs, a + b + c, ids)
  {
    hide Drawable;
    assert third.Keys == jobs.Keys + set s | s in a + b :: ids(s);
    DrawnInTwo(jobs, second, a, b, ids);
    DrawnInTwo(jobs, third, a + b, c, ids);
  }

  /** The chunks and the info rows, once the singles are written. */
  lemma RestExact(t: Tables, env: Env, singles: Tables)
    requires Divisible(t) && WriteSingles(t, env) == Some(singles)
    ensures Divisible(singles)
    ensures WriteChunks(singles, env).Some? && WriteInfos(WriteChunks(singles, env).value, env).Some? <==>
              Drawable(t.jobs, SplitSlots(t, env), env.ids)
  {
    hide WriteSingles, WriteChunks, WriteInfos, SingleRows, ChunkRows, InfoRows, Drawable, Divisible, Evolves;
    WrittenSingles(t, env);
    WriteEvolves(t, env, singles);
    SameSplitKeys(t, singles, env);
    KindsApart(t, env);
    var a, b, c := SingleRows(t, env).Keys, ChunkRows(t, env).Keys, InfoRows(t, env).Keys;
    DrawnInTwo(t.jobs, singles.jobs, a, b, env.ids);
    WrittenChunks(singles, env);
    if WriteChunks(singles, env).Some? {
      InfosExact(singles, env, WriteChunks(singles, env).value);
      ThreeDraws(t.jobs, singles.jobs, WriteChunks(singles, env).value.jobs, a, b, c, env.ids);
    } else {
      DrawnFirst(t.jobs, a + b, c, env.ids);
    }
  }

  /** The splitting statements succeed if and only if no capacity makes them divide by zero and their uuids can
      be drawn. */
  lemma SplitExact(t: Tables, env: Env)
    ensures Split(t, env).Some? <==>
              Divisible(Classify(t)) && Drawable(t.jobs, SplitSlots(Classify(t), env), env.ids)
  {
    hide WriteSingles, WriteChunks, WriteInfos, SingleRows, ChunkRows, InfoRows, Drawable, Divisible, Waiting,
      Classified,
      Evolves, SplitSlots;
    var c := Classify(t);
    ClassifiedEvolves(t);
    if Divisible(c) {
      SameDrawable(t.jobs, c.jobs, SplitSlots(c, env), env.ids);
      WrittenSingles(c, env);
      if WriteSingles(c, env).Some? {
        RestExact(c, env, WriteSingles(c, env).value);
      } else {
        SinglesFirst(c, env);
      }
    } else if WriteSingles(c, env).Some? {
      DivisionFails(c, env, WriteSingles(c, env).value);
    }
  }

  lemma DivisionFails(t: Tables, env: Env, singles: Tables)
    requires !Divisible(t) && WriteSingles(t, env) == Some(singles)
    ensures WriteChunks(singles, env) == None
  {
    hide WriteSingles, Divisible, Evolves;
    WriteEvolves(t, env, singles);
    SameJoins(t, singles);
  }

  lemma SameDrawable(a: Jobs, b: Jobs, slots: set<Slot>, ids: Slot -> Id)
    requires a.Keys == b.Keys
    ensures Drawable(a, slots, ids) <==> Drawable(b, slots, ids)
  {
  }

  lemma SinglesFirst(t: Tables, env: Env)
    requires Divisible(t)
    ensures Drawable(t.jobs, SplitSlots(t, env), env.ids) ==> Drawable(t.jobs, SingleRows(t, env).Keys, env.ids)
  {
    hide Drawable, SingleRows, ChunkRows, InfoRows, Divisible;
    var a, b, c := SingleRows(t, env).Keys, ChunkRows(t, env).Keys, InfoRows(t, env).Keys;
    assert a + b + c == a + (b + c);
    DrawnFirst(t.jobs, a, b + c, env.ids);
  }

  // ---- when a pass succeeds ----------------------------------------------------------------

  /** The requests for connections a pass leaves. */
  function NewComms(t: Tables, env: Env): map<CommKey, Comm> {
    var t1 := t.(conns := WithConns(t));
    WithComms(WithComms(t1.comms, OpenKeys(t1), false, env), CloseKeys(t1), true, env)
  }

  /** What is drawn after the consensus: the uuids of the split rows, and the serial numbers. */
  predicate LaterDraws(t: Tables, env: Env) {
    && (Divisible(Classify(t)) ==> Drawable(t.jobs, SplitSlots(Classify(t), env), env.ids))
    && (Split(t, env).Some? ==> var u := Split(t, env).value; SerialFits(u, NewComms(u, env), env))
  }

  /** All uuids and serial numbers the pass draws are ones the database can draw: new, and different. */
  predicate DrawsFit(t: Tables, env: Env) {
    var checked := t.(jobs := CompleteSmall(CompleteLarge(Triage(env.h, t.jobs))));
    && Drawable(checked.jobs, ConsensusSlots(checked, env), env.ids)
    && (Consensus(checked, env).Some? ==> LaterDraws(Consensus(checked, env).value, env))
  }

  /** No request, or one from an address that fits an INTEGER. */
  predicate RequestsHandled(h: Md5, jobs: Jobs, peer: Self) {
    var rs := ArrivedRows(h, jobs, TYPE_REQUEST);
    |rs| <= 1 && (rs != {} ==> IsInteger(peer.ip))
  }

  /** A request, which settles everything, or at most one reply, or nothing left to fill in. */
  predicate RepliesHandled(h: Md5, t: Tables) {
    || ArrivedRows(h, t.jobs, TYPE_REQUEST) != {}
    || |ArrivedRows(h, t.jobs, TYPE_REPLY)| <= 1
    || Unresolved(t.sysinfo) == {}
  }

  lemma HonestDivides(h: Md5, t: Tables, peer: Self)
    requires NodeOk(h, t, peer)
    ensures Divisible(Classify(t))
  {
    hide RowsHonest, NoticesOk, Classified;
  }

  lemma LaterExact(h: Md5, t: Tables, env: Env, peer: Self)
    requires NodeOk(h, t, peer)
    ensures Split(t, env).Some? && Connect(Split(t, env).value, env).Some? <==> LaterDraws(t, env)
  {
    hide NodeOk, Split, Classify, SplitSlots, Divisible, Drawable, WithConns, OpenKeys, CloseKeys, WithComms,
      SerialFits;
    HonestDivides(h, t, peer);
    SplitExact(t, env);
  }

  /** The counts it reads are numbers, at most one request has arrived, from an address that fits an INTEGER, the
      replies can be used, and its draws are ones the database can make. */
  predicate CanPass(h: Md5, t: Tables, env: Env, peer: Self) {
    && CountsReadable(t.jobs)
    && RequestsHandled(h, t.jobs, peer)
    && RepliesHandled(h, t)
    && DrawsFit(t, env)
  }

  /** When a pass succeeds, in terms of the tables before it. */
  lemma PassExact(h: Md5, t: Tables, env: Env, peer: Self)
    requires env.h == h && NodeOk(h, t, peer)
    ensures Pass(t, env).Some? <==> CanPass(h, t, env, peer)
  {
    hide NodeOk, CountsReadable, Triage, Consensus, Split, Connect, LaterDraws, Drawable, ConsensusSlots,
      ArrivedRows, Pending,
      Unresolved, CompleteLarge, CompleteSmall, RepliesFit;
    TriagedCounts(h, t.jobs);
    if CountsReadable(t.jobs) {
      var checked := Check(t, env).value;
      CheckedOk(h, t, env, checked, peer);
      CheckedPending(t, env, checked, TYPE_REQUEST);
      RepliesArrived(h, t, env, checked, peer);
      ConsensusExact(h, checked, env, peer);
      if Consensus(checked, env).Some? {
        var agreed := Consensus(checked, env).value;
        ConsensusHonest(h, checked, env, agreed, peer);
        LaterExact(h, agreed, env, peer);
      }
    }
  }

  lemma CheckedOk(h: Md5, t: Tables, env: Env, u: Tables, peer: Self)
    requires env.h == h && NodeOk(h, t, peer) && Check(t, env) == Some(u)
    ensures NodeOk(h, u, peer)
  {
    hide Check, RowsHonest, SysOk, NoticesOk, SelfOk;
    CheckHonest(h, t, env, u, peer);
  }

  /** So it is in every state of every run of two nodes, on either side. */
  lemma NetPassExact(h: Md5, roots: RootPair, run: seq<Net>, steps: seq<NetStep>, n: nat, env: Env)
    requires IsNetRun(h, roots, run, steps) && n < |run| && env.h == h
    ensures Pass(run[n].left, env).Some? <==> CanPass(h, run[n].left, env, run[n].right.self)
    ensures Pass(run[n].right, env).Some? <==> CanPass(h, run[n].right, env, run[n].left.self)
  {
    hide IsNetRun, NodeOk, AllHonest, Pass, CanPass;
    NetRunOk(h, roots, run, steps, n);
    PassExact(h, run[n].left, env, run[n].right.self);
    PassExact(h, run[n].right, env, run[n].left.self);
  }

  // ---- rows that stop every pass -----------------------------------------------------------

  /** What stops every pass: two requests, whose scalar subquery sees two rows; a request with a number that
      is no INTEGER; or a row that reads as an info message with a count that is none, however damaged it
      is, beside a completed row of the same parent. */
  datatype Cause =
    | TwoRequests(a: Id, b: Id)
    | UnreadableRequest(a: Id)
    | UnreadableCount(a: Id, done: Id)

  predicate Blocked(h: Md5, jobs: Jobs, cause: Cause) {
    match cause
    case TwoRequests(a, b) => a != b && IsRequest(h, jobs, a) && IsRequest(h, jobs, b)
    case UnreadableRequest(a) => IsRequest(h, jobs, a) && !Readable(jobs[a].data)
    case UnreadableCount(a, done) =>
      && a in jobs && done in jobs && jobs[done].parent == jobs[a].parent && jobs[done].state == C
      && IsInfoRow(jobs[a]) && !Countable(jobs[a].data)
  }

  /** The count field is a number that one can be added to. */
  predicate Countable(m: Bytes) {
    CountField(m).Some? && CountField(m).value < MAX_INTEGER
  }

  /** No pass succeeds, whatever it draws. */
  lemma BlockedFails(t: Tables, env: Env, cause: Cause)
    requires Blocked(env.h, t.jobs, cause)
    ensures Pass(t, env) == None
  {
    hide Check, Consensus, Split, Connect, IsArrived, IsInfoRow, CountField, Readable;
    if !Pass(t, env).None? {
      var t1, t2, t3 := PassStages(t, env, Pass(t, env).value);
      match cause
      case TwoRequests(a, b) => RequestsFail(t, env, t1, a, b);
      case UnreadableRequest(a) => RequestsFail(t, env, t1, a, a);
      case UnreadableCount(a, done) => CountFails(t, env, a, done);
    }
  }

  lemma CountFails(t: Tables, env: Env, a: Id, done: Id)
    requires Blocked(env.h, t.jobs, UnreadableCount(a, done))
    ensures Check(t, env) == None
  {
    hide Triage, CountField, IsInfoRow;
    TriagedCounts(env.h, t.jobs);
    assert done in DoneChildren(t.jobs, t.jobs[a].parent);
  }

  /** The request statement fails on two requests and on one it cannot read. */
  lemma RequestsFail(t: Tables, env: Env, checked: Tables, a: Id, b: Id)
    requires Check(t, env) == Some(checked) && IsRequest(env.h, t.jobs, a) && IsRequest(env.h, t.jobs, b)
    requires a == b ==> !Readable(t.jobs[a].data)
    ensures Consensus(checked, env) == None
  {
    hide Check, Consensus, Pending, IsArrived, Readable, Ask, AcceptRequest, Answer, AcceptReply, Closed;
    CheckedPending(t, env, checked, TYPE_REQUEST);
    if !Consensus(checked, env).None? {
      var asked, accepted, answered, resolved := ConsensusStages(checked, env, Consensus(checked, env).value);
      AskKeepsPending(checked, env, asked, TYPE_REQUEST);
      RequestIn(env.h, t.jobs, a);
      RequestIn(env.h, t.jobs, b);
      AcceptFails(asked, a, b);
    }
  }

  lemma RequestIn(h: Md5, jobs: Jobs, id: Id)
    requires IsRequest(h, jobs, id)
    ensures id in jobs && id in ArrivedRows(h, jobs, TYPE_REQUEST)
  {
    hide HashOk, LPad, DestField, Roots;
  }

  lemma AcceptFails(t: Tables, a: Id, b: Id)
    requires a in Pending(t.jobs, TYPE_REQUEST) && b in Pending(t.jobs, TYPE_REQUEST)
    requires a == b ==> !Readable(t.jobs[a].data)
    ensures AcceptRequest(t) == None
  {
    hide Pending, Readable, CapacityField, PortField, IpField, SourceField, LPad;
    var rs := Pending(t.jobs, TYPE_REQUEST);
    if a != b { OnlyOneOf(rs, a, b); }
    if |rs| == 1 { assert Only(rs) == a; }
  }

  lemma OnlyOneOf<T>(s: set<T>, i: T, j: T)
    requires i in s && j in s && i != j
    ensures |s| != 1
  {
    if |s| == 1 { OnlyOne(s); }
  }

  /** For an honest node there is no other way to fail: when the draws fit, a pass fails if and only if one of
      the causes is there, or, before any request, two replies with something left to fill in. */
  lemma FailsExactly(h: Md5, t: Tables, env: Env, peer: Self)
    requires env.h == h && NodeOk(h, t, peer) && DrawsFit(t, env)
    ensures Pass(t, env) == None <==> (exists cause :: Blocked(h, t.jobs, cause)) || !RepliesHandled(h, t)
  {
    hide NodeOk, Pass, CountsReadable, DrawsFit, Blocked, RepliesHandled, RequestsHandled;
    PassExact(h, t, env, peer);
    if !CountsReadable(t.jobs) { var cause := UnreadableCause(h, t.jobs); }
    if !RequestsHandled(h, t.jobs, peer) { var cause := RequestCause(h, t, peer); }
    if cause :| Blocked(h, t.jobs, cause) { BlockedFails(t, env, cause); }
  }

  lemma UnreadableCause(h: Md5, jobs: Jobs) returns (cause: Cause)
    requires !CountsReadable(jobs)
    ensures Blocked(h, jobs, cause)
  {
    hide CountField, IsInfoRow;
    var i :| i in jobs && IsInfoRow(jobs[i]) && DoneChildren(jobs, jobs[i].parent) != {} && !Countable(jobs[i].data);
    var done :| done in DoneChildren(jobs, jobs[i].parent);
    cause := UnreadableCount(i, done);
  }

  lemma RequestCause(h: Md5, t: Tables, peer: Self) returns (cause: Cause)
    requires NodeOk(h, t, peer) && !RequestsHandled(h, t.jobs, peer)
    ensures Blocked(h, t.jobs, cause)
  {
    hide NodeOk, IsArrived, Readable;
    var rs := ArrivedRows(h, t.jobs, TYPE_REQUEST);
    assert rs != {};
    var a :| a in rs;
    if rs == {a} {
      HonestRequest(h, t, peer, a);
      cause := UnreadableRequest(a);
    } else {
      var b :| b in rs && b != a;
      cause := TwoRequests(a, b);
    }
  }

  /** A request from an address that is no INTEGER cannot be read. */
  lemma HonestRequest(h: Md5, t: Tables, peer: Self, id: Id)
    requires NodeOk(h, t, peer) && IsRequest(h, t.jobs, id)
    ensures Readable(t.jobs[id].data) <==> IsInteger(peer.ip)
  {
    hide HashOk, CapacityField, PortField, IpField, ReplyIpField, SourceField, TypeField, DestField, LPad, Roots,
      SysOk, NoticesOk;
    assert RowHonest(h, t.self, peer, t.jobs[id]);
  }

  // ---- for good ----------------------------------------------------------------------------

  /** Every row stays, and keeps what makes it a root. */
  predicate KeepsRoots(a: Jobs, b: Jobs) {
    forall k :: k in a ==> k in b && b[k].parent == a[k].parent && b[k].dest == a[k].dest
  }

  lemma RootsGrow(a: Jobs, b: Jobs)
    requires KeepsRoots(a, b)
    ensures Roots(a) <= Roots(b)
  {
    forall d | d in Roots(a) ensures d in Roots(b) {
      var k :| k in a && a[k].parent == k && a[k].dest == d;
      assert b[k].parent == k;
    }
  }

  /** No step but a pass removes a request. */
  lemma RequestRemains(h: Md5, root: Id, t: Tables, step: JobStep, u: Tables, id: Id)
    requires IsRequest(h, t.jobs, id) && JobRuns.Next(h, root, t, step, u) && !step.RunPass?
    ensures IsRequest(h, u.jobs, id)
  {
    hide HashOk, LPad, TypeField, DestField, Roots, KeepsRoots, JobRuns.Next;
    StepKeepsRoots(h, root, t, step, u);
    RootsGrow(t.jobs, u.jobs);
    RequestRowStays(h, root, t, step, u, id);
  }

  lemma StepKeepsRoots(h: Md5, root: Id, t: Tables, step: JobStep, u: Tables)
    requires JobRuns.Next(h, root, t, step, u) && !step.RunPass?
    ensures KeepsRoots(t.jobs, u.jobs)
  {
    hide Arrival, Order;
  }

  /** The states of received messages that no pass has dealt with. */
  predicate IsIncoming(s: State) {
    s == N1 || s == N2 || s == N3 || s == N4
  }

  lemma RequestRowStays(h: Md5, root: Id, t: Tables, step: JobStep, u: Tables, id: Id)
    requires JobRuns.Next(h, root, t, step, u) && !step.RunPass?
    requires id in t.jobs && IsIncoming(t.jobs[id].state)
    ensures id in u.jobs && u.jobs[id].state == t.jobs[id].state && u.jobs[id].kind == t.jobs[id].kind
    ensures u.jobs[id].data == t.jobs[id].data
  {
    hide Arrival, Order;
  }

  /** No step but a pass changes what the completion query reads. */
  lemma CountRemains(h: Md5, root: Id, t: Tables, step: JobStep, u: Tables, id: Id)
    requires JobRuns.Next(h, root, t, step, u) && !step.RunPass? && id in t.jobs
    ensures id in u.jobs && u.jobs[id].data == t.jobs[id].data && u.jobs[id].parent == t.jobs[id].parent
    ensures t.jobs[id].state == C ==> u.jobs[id].state == C
  {
    hide Arrival, Order;
  }

  lemma BlockRemains(h: Md5, root: Id, t: Tables, step: JobStep, u: Tables, cause: Cause)
    requires Blocked(h, t.jobs, cause) && JobRuns.Next(h, root, t, step, u) && !step.RunPass?
    ensures Blocked(h, u.jobs, cause)
  {
    hide JobRuns.Next, IsArrived, Readable, TypeField, CountField;
    match cause
    case TwoRequests(a, b) =>
      RequestRemains(h, root, t, step, u, a);
      RequestRemains(h, root, t, step, u, b);
    case UnreadableRequest(a) =>
      RequestIn(h, t.jobs, a);
      RequestRemains(h, root, t, step, u, a);
      CountRemains(h, root, t, step, u, a);
    case UnreadableCount(a, done) =>
      CountRemains(h, root, t, step, u, a);
      CountRemains(h, root, t, step, u, done);
  }

  /** So from the moment a node holds two requests, one it cannot read, or a damaged count, nothing removes
      them and no pass of any run succeeds any more. */
  lemma {:induction false} BlockedForGood(h: Md5, root: Id, run: seq<Tables>, steps: seq<JobStep>, i: nat, j: nat,
                                          cause: Cause)
    requires JobProperties.IsRun(h, root, run, steps) && i <= j < |run| && Blocked(h, run[i].jobs, cause)
    ensures Blocked(h, run[j].jobs, cause)
    ensures j < |steps| ==> !steps[j].RunPass?
  {
    hide Blocked, Config, Pass;
    if i < j {
      BlockedForGood(h, root, run, steps, i, j - 1, cause);
      assert JobProperties.StepAt(h, root, run, steps, j - 1);
      BlockRemains(h, root, run[j - 1], steps[j - 1], run[j], cause);
    }
    if j < |steps| && steps[j].RunPass? {
      assert JobProperties.StepAt(h, root, run, steps, j);
      BlockedFails(run[j], steps[j].env, cause);
    }
  }
}
