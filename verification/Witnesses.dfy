/** Runs that end in the situations the code does not get out of: two orders to a peer that has not answered
    yet become two requests, and a chunk that could not be sent leaves its job waiting. */
module Witnesses {
  import opened Text
  import opened Message
  import opened Chunks
  import opened Tables
  import opened RunJobs
  import opened StateGraph
  import opened JobRuns
  import opened Handshake
  import opened HandshakeRuns
  import opened Blocking
  import JobProperties

  // ---- fresh nodes -------------------------------------------------------------------------

  function RootRow(self: Self, root: Id): Job {
    Job([], N0, [ZERO], self.name, root, self.name, [ZERO + 5])
  }

  /** A fresh node that knows its peer with the numbers `p`. */
  function FreshNode(self: Self, root: Id, peer: Self, p: Peer): Tables {
    Tables(self, map[root := RootRow(self, root)], map[EndpointOf(peer) := p], map[], map[], map[], 1, multiset{})
  }

  // ---- passes with little to do ------------------------------------------------------------

  /** No statement but the admission of jobs looks at a row in this state. */
  predicate Quiet(s: State) {
    s == N0 || s == S || s == S1 || s == S4 || s == S5
  }

  predicate AllQuiet(jobs: Jobs) {
    forall id :: id in jobs ==> Quiet(jobs[id].state)
  }

  lemma NoneDone(jobs: Jobs, p: Id)
    requires AllQuiet(jobs)
    ensures DoneChildren(jobs, p) == {}
  {
  }

  lemma QuietCheck(t: Tables, env: Env)
    requires AllQuiet(t.jobs)
    ensures Check(t, env) == Some(t)
  {
    hide DoneChildren, HashOk, DestField, TypeField, CountField, Roots, LPad, IsInfoRow, Copies;
    forall p: Id ensures DoneChildren(t.jobs, p) == {} { NoneDone(t.jobs, p); }
    assert Triage(env.h, t.jobs) == t.jobs;
    assert CompleteLarge(t.jobs) == t.jobs && CompleteSmall(t.jobs) == t.jobs;
  }

  lemma NothingInserted(jobs: Jobs, rows: map<Slot, Job>, ids: Slot -> Id)
    requires rows == map[]
    ensures InsertRows(jobs, rows, ids) == Some(jobs)
  {
    assert InsertRows(jobs, rows, ids).value == jobs;
  }

  lemma NothingClosed(jobs: Jobs, kind: Bytes)
    requires Pending(jobs, kind) == {}
    ensures Closed(jobs, kind) == jobs
  {
    hide LPad;
    assert forall id :: id in jobs ==> id !in Pending(jobs, kind);
  }

  lemma NothingPending(jobs: Jobs, kind: Bytes)
    requires AllQuiet(jobs)
    ensures Pending(jobs, kind) == {}
  {
    hide LPad;
  }

  /** With no consensus message among the rows, the consensus statements only ask. */
  lemma QuietConsensus(t: Tables, env: Env, asked: Tables)
    requires AllQuiet(t.jobs) && Ask(t, env) == Some(asked)
    ensures Consensus(t, env) == Some(asked)
  {
    hide Ask, Closed, Pending, InsertRows, ReplyRow;
    NothingPending(t.jobs, TYPE_REQUEST);
    NothingPending(t.jobs, TYPE_REPLY);
    AskKeepsPending(t, env, asked, TYPE_REQUEST);
    AskKeepsPending(t, env, asked, TYPE_REPLY);
    assert KnownReplies(asked) == {};
    NothingInserted(asked.jobs, ReplyRows(asked, env), env.ids);
    NothingClosed(asked.jobs, TYPE_REQUEST);
    NothingClosed(asked.jobs, TYPE_REPLY);
  }

  /** Without files nothing is split. */
  lemma QuietSplit(t: Tables, env: Env)
    requires AllQuiet(t.jobs) && t.files == map[]
    requires forall e :: e in t.sysinfo ==> t.sysinfo[e].capacity != OVERHEAD
    ensures Split(t, env) == Some(t)
  {
    hide InsertRows, SingleRows, ChunkRows, InfoRows, Divisible, Classified, Waiting;
    QuietMarks(t);
    QuietWaits(t);
    AllDivisible(t);
    QuietRows(t, env);
    NothingInserted(t.jobs, SingleRows(t, env), env.ids);
    NothingInserted(t.jobs, ChunkRows(t, env), env.ids);
    NothingInserted(t.jobs, InfoRows(t, env), env.ids);
  }

  lemma QuietMark(t: Tables, j: Job)
    requires Quiet(j.state) && t.files == map[]
    ensures WholeRow(t, SplitRow(t, j)) == j
  {
  }

  lemma QuietMarks(t: Tables)
    requires AllQuiet(t.jobs) && t.files == map[]
    ensures Classified(t) == t.jobs
  {
    hide WholeRow, SplitRow;
    forall id | id in t.jobs ensures WholeRow(t, SplitRow(t, t.jobs[id])) == t.jobs[id] { QuietMark(t, t.jobs[id]); }
    assert Classified(t) == t.jobs;
  }

  lemma QuietWaits(t: Tables)
    requires AllQuiet(t.jobs)
    ensures Waiting(t.sysinfo, t.jobs) == t.jobs
  {
    hide NameKnown;
  }

  lemma NoJoins(t: Tables)
    requires AllQuiet(t.jobs)
    ensures forall id, e :: !Joined(t, id, e, S2) && !Joined(t, id, e, S3)
  {
  }

  lemma AllDivisible(t: Tables)
    requires forall e :: e in t.sysinfo ==> t.sysinfo[e].capacity != OVERHEAD
    ensures Divisible(t)
  {
    hide Joined;
  }

  lemma QuietRows(t: Tables, env: Env)
    requires AllQuiet(t.jobs) && Divisible(t)
    ensures SingleRows(t, env) == map[] && ChunkRows(t, env) == map[] && InfoRows(t, env) == map[]
  {
    hide SingleRow, ChunkRow, InfoRow, Joined, ChunkTotal, Quiet;
    NoJoins(t);
  }

  /** At most one new request, numbered 1. */
  lemma OneSerial(t: Tables, keys: set<CommKey>, key: CommKey, env: Env)
    requires keys <= {key} && t.comms == map[] && t.nextComm == 1 && env.serial(key) == 1 && env.nextSerial == 2
    ensures SerialFits(t, WithComms(WithComms(t.comms, keys, false, env), {}, true, env), env)
  {
  }

  lemma QuietConnect(t: Tables, env: Env)
    requires AllQuiet(t.jobs) && (forall id :: id in t.jobs ==> t.jobs[id].state != S4)
    requires t.conns == map[] && t.comms == map[]
    requires t.nextComm == 1 && env.serial(CommKey(0, 0)) == 1 && env.nextSerial == 2
    ensures Connect(t, env).Some? && Connect(t, env).value.jobs == t.jobs && Connect(t, env).value.self == t.self
    ensures Connect(t, env).value.sysinfo == t.sysinfo
  {
    hide SerialFits, WithComms;
    assert WithConns(t) == map[];
    assert OpenKeys(t.(conns := WithConns(t))) == {};
    assert CloseKeys(t.(conns := WithConns(t))) == {};
    OneSerial(t, {}, CommKey(0, 0), env);
  }

  // ---- two orders --------------------------------------------------------------------------

  const UNKNOWN := Peer(0, 7000, 0)

  /** The uuids of the run: the root's, the two orders', and those of the two requests for them. */
  datatype Names = Names(root: Id, a: Id, b: Id, x: Id, y: Id) {
    predicate Distinct() {
      && root != a && root != b && root != x && root != y
      && a != b && a != x && a != y && b != x && b != y && x != y
    }

    function All(): set<Id> {
      {root, a, b, x, y}
    }

    function Draw(s: Slot): Id {
      if s.Request? && s.job == a then x else y
    }

    function Draws(h: Md5, now: Stamp): Env {
      Env(h, now, Draw, _ => 1, 2)
    }
  }

  function OrderFor(root: Id, left: Self, right: Self): Job {
    Order(root, [], left.name, right.name)
  }

  /** A node with two orders for its unresolved peer. */
  function Ordered(left: Self, right: Self, n: Names): Tables {
    var t := FreshNode(left, n.root, right, UNKNOWN);
    var order := OrderFor(n.root, left, right);
    t.(jobs := map[n.root := RootRow(left, n.root), n.a := order, n.b := order])
  }

  lemma OrderIs(root: Id, left: Self, right: Self)
    requires |right.name| == 5
    ensures OrderFor(root, left, right).dest == right.name && OrderFor(root, left, right).state == S
  {
  }

  lemma TwoRows(left: Self, right: Self, n: Names, env: Env)
    requires n.Distinct() && |right.name| == 5
    ensures RequestRows(Ordered(left, right, n), env).Keys ==
        {Request(n.a, EndpointOf(right)), Request(n.b, EndpointOf(right))}
  {
    hide RequestRow, OrderFor;
    OrderIs(n.root, left, right);
  }

  function RequestFor(h: Md5, left: Self, right: Self, root: Id, uuid: Uuid, now: Stamp): Job {
    RequestRow(h, left, OrderFor(root, left, right), EndpointOf(right), uuid, now)
  }

  lemma TwoInserted(jobs: Jobs, rows: map<Slot, Job>, ids: Slot -> Id, r: Slot, s: Slot)
    requires rows.Keys == {r, s} && ids(r) != ids(s) && ids(r) !in jobs && ids(s) !in jobs
    ensures InsertRows(jobs, rows, ids) == Some(jobs[ids(r) := rows[r]][ids(s) := rows[s]])
  {
    hide InsertRows;
    assert Drawable(jobs, rows.Keys, ids);
    var got, want := InsertRows(jobs, rows, ids).value, jobs[ids(r) := rows[r]][ids(s) := rows[s]];
    assert r in rows && s in rows;
    assert got.Keys == want.Keys;
    assert forall id :: id in jobs ==> got[id] == want[id];
    assert got == want;
  }

  /** The jobs with the two requests. */
  function Asking(h: Md5, left: Self, right: Self, n: Names, now: Stamp, jobs: Jobs): Jobs {
    jobs[n.x := RequestFor(h, left, right, n.root, n.x, now)][n.y := RequestFor(h, left, right, n.root, n.y, now)]
  }

  lemma RequestsDrawn(h: Md5, left: Self, right: Self, n: Names, now: Stamp)
    requires n.Distinct() && |right.name| == 5
    ensures var t, env := Ordered(left, right, n), n.Draws(h, now);
            InsertRows(t.jobs, RequestRows(t, env), env.ids) ==
            Some(Asking(h, left, right, n, now, t.jobs))
  {
    hide RequestRow, OrderFor, InsertRows;
    var t, env, e := Ordered(left, right, n), n.Draws(h, now), EndpointOf(right);
    TwoRows(left, right, n, env);
    TwoInserted(t.jobs, RequestRows(t, env), env.ids, Request(n.a, e), Request(n.b, e));
  }

  lemma AdmittedQuiet(sysinfo: Sysinfo, jobs: Jobs, id: Id)
    requires AllQuiet(jobs) && id in jobs && jobs[id].state == S5
    ensures AllQuiet(Admitted(sysinfo, jobs)) && Admitted(sysinfo, jobs)[id] == jobs[id]
    ensures (forall i :: i in jobs ==> jobs[i].state != S4) ==>
              forall i :: i in jobs ==> Admitted(sysinfo, jobs)[i].state != S4
  {
    hide NameKnown;
  }

  /** The pass asks once for each order. */
  lemma TwoAsked(h: Md5, left: Self, right: Self, n: Names, now: Stamp) returns (asked: Tables)
    requires n.Distinct() && |right.name| == 5
    ensures Ask(Ordered(left, right, n), n.Draws(h, now)) == Some(asked)
    ensures asked == Ordered(left, right, n).(jobs := asked.jobs)
    ensures n.x in asked.jobs && asked.jobs[n.x] == RequestFor(h, left, right, n.root, n.x, now)
    ensures n.y in asked.jobs && asked.jobs[n.y] == RequestFor(h, left, right, n.root, n.y, now)
    ensures AllQuiet(asked.jobs) && forall id :: id in asked.jobs ==> asked.jobs[id].state != S4
    ensures asked.jobs.Keys == n.All()
  {
    hide RequestRow, OrderFor, NameKnown, InsertRows, RequestRows, AllQuiet;
    var t, env := Ordered(left, right, n), n.Draws(h, now);
    RequestsDrawn(h, left, right, n, now);
    var jobs := InsertRows(t.jobs, RequestRows(t, env), env.ids).value;
    DrawnQuiet(h, left, right, n, now, jobs);
    AdmittedQuiet(t.sysinfo, jobs, n.x);
    AdmittedQuiet(t.sysinfo, jobs, n.y);
    asked := t.(jobs := Admitted(t.sysinfo, jobs));
  }

  lemma DrawnQuiet(h: Md5, left: Self, right: Self, n: Names, now: Stamp, jobs: Jobs)
    requires n.Distinct() && |right.name| == 5
    requires jobs == Asking(h, left, right, n, now, Ordered(left, right, n).jobs)
    ensures AllQuiet(jobs) && (forall id :: id in jobs ==> jobs[id].state != S4)
    ensures jobs[n.x].state == S5 && jobs[n.y].state == S5
  {
    hide RequestRow, OrderFor;
    OrderIs(n.root, left, right);
    RequestState(h, left, OrderFor(n.root, left, right), EndpointOf(right), n.x, now);
    RequestState(h, left, OrderFor(n.root, left, right), EndpointOf(right), n.y, now);
  }

  /** The whole pass. */
  lemma TwoRequestsPass(h: Md5, left: Self, right: Self, n: Names, now: Stamp) returns (u: Tables)
    requires n.Distinct() && |right.name| == 5
    ensures Pass(Ordered(left, right, n), n.Draws(h, now)) == Some(u) && u.self == left && u.jobs.Keys == n.All()
    ensures NameKnown(u.sysinfo, right.name)
    ensures n.x in u.jobs && u.jobs[n.x] == RequestFor(h, left, right, n.root, n.x, now)
    ensures n.y in u.jobs && u.jobs[n.y] == RequestFor(h, left, right, n.root, n.y, now)
  {
    hide Check, Ask, Consensus, Split, Connect, RequestFor, AllQuiet;
    var t, env := Ordered(left, right, n), n.Draws(h, now);
    assert AllQuiet(t.jobs) by { OrderIs(n.root, left, right); OrderedQuiet(left, right, n); }
    QuietCheck(t, env);
    var asked := TwoAsked(h, left, right, n, now);
    QuietConsensus(t, env, asked);
    QuietSplit(asked, env);
    QuietConnect(asked, env);
    u := Connect(asked, env).value;
    assert EndpointOf(right) in u.sysinfo;
  }

  lemma OrderedQuiet(left: Self, right: Self, n: Names)
    requires |right.name| == 5
    ensures AllQuiet(Ordered(left, right, n).jobs)
  {
    hide OrderFor;
    OrderIs(n.root, left, right);
  }

  // ---- the run to the peer -----------------------------------------------------------------

  lemma RequestArrives(h: Md5, left: Self, right: Self, root: Id, uuid: Uuid, now: Stamp, own: Id, jobs: Jobs,
      id: Id, source: Bytes)
    requires SelfOk(left) && SelfOk(right)
    requires own in jobs && jobs[own] == RootRow(right, own)
    requires id in jobs && jobs[id] == Arrival(own, RequestFor(h, left, right, root, uuid, now).data, source)
    ensures IsRequest(h, jobs, id)
  {
    hide HashOk, TypeField, SourceField, DestField, CapacityField, PortField, IpField, ReplyIpField, ConsensusMessage;
    ConsensusRoundTrip(h, uuid, TYPE_REQUEST, left.capacity, left.dataport, left.ip, left.name, right.name, now);
    Padded5(right.name);
    assert right.name in Roots(jobs);
  }

  lemma Extend(h: Md5, roots: RootPair, run: seq<Net>, steps: seq<NetStep>, step: NetStep, b: Net)
    requires IsNetRun(h, roots, run, steps) && NetNext(h, roots, run[|steps|], step, b)
    ensures IsNetRun(h, roots, run + [b], steps + [step])
  {
    hide NetNext, NetInit;
    var r, s := run + [b], steps + [step];
    forall i | 0 <= i < |s| ensures NetNext(h, roots, r[i], s[i], r[i + 1]) {
      if i < |steps| { assert NetNext(h, roots, run[i], steps[i], run[i + 1]); }
    }
  }

  /** The left node before and after the orders. */
  lemma LeftOrders(h: Md5, left: Self, right: Self, n: Names, now: Stamp, peer: Id)
      returns (run: seq<Net>, steps: seq<NetStep>)
    requires n.Distinct() && SelfOk(left) && SelfOk(right)
    ensures IsNetRun(h, RootPair(n.root, peer), run, steps) && |steps| == 3 && |run| == 4
    ensures run[0].right == FreshNode(right, peer, left, UNKNOWN)
    ensures run[0].left == FreshNode(left, n.root, right, UNKNOWN)
    ensures run[3] == run[0].(left := run[3].left) && run[3].left.self == left
    ensures run[3].left.jobs.Keys == n.All() && NameKnown(run[3].left.sysinfo, right.name)
    ensures run[0].fromLeft == {} && run[0].fromRight == {}
    ensures n.x in run[3].left.jobs && run[3].left.jobs[n.x] == RequestFor(h, left, right, n.root, n.x, now)
    ensures n.y in run[3].left.jobs && run[3].left.jobs[n.y] == RequestFor(h, left, right, n.root, n.y, now)
  {
    hide IsNetRun, NetNext, NetInit, Pass, RequestFor, Order;
    var roots := RootPair(n.root, peer);
    var net := Net(FreshNode(left, n.root, right, UNKNOWN), FreshNode(right, peer, left, UNKNOWN), {}, {});
    StartsFresh(h, roots, net, left, right);
    var u := TwoRequestsPass(h, left, right, n, now);
    OrdersAreSteps(h, left, right, n);
    run, steps := ExtendLeft(h, roots, [net], [], Submit(n.a, [], left.name, right.name), WithFirst(left, right, n));
    run, steps := ExtendLeft(h, roots, run, steps, Submit(n.b, [], left.name, right.name), Ordered(left, right, n));
    assert JobRuns.Next(h, n.root, Ordered(left, right, n), RunPass(n.Draws(h, now)), u);
    run, steps := ExtendLeft(h, roots, run, steps, RunPass(n.Draws(h, now)), u);
  }

  /** The run goes on with a step of the left node's own. */
  lemma ExtendLeft(h: Md5, roots: RootPair, run: seq<Net>, steps: seq<NetStep>, step: JobStep, u: Tables)
    returns (r: seq<Net>, s: seq<NetStep>)
    requires IsNetRun(h, roots, run, steps) && |run| == |steps| + 1
    requires JobRuns.Next(h, roots.left, run[|steps|].left, step, u) && !step.Elsewhere?
    requires step.Arrive? ==> !HashOk(h, step.data)
    ensures IsNetRun(h, roots, r, s) && |s| == |steps| + 1 && |r| == |s| + 1
    ensures r[|s|] == run[|steps|].(left := u) && r[0] == run[0]
  {
    hide JobRuns.Next, NetInit, NetNext, IsNetRun;
    var b := run[|steps|].(left := u);
    LocalLeft(h, roots, run[|steps|], step, u);
    Extend(h, roots, run, steps, Left(Local(step)), b);
    r, s := run + [b], steps + [Left(Local(step))];
  }

  function WithFirst(left: Self, right: Self, n: Names): Tables {
    var t := FreshNode(left, n.root, right, UNKNOWN);
    t.(jobs := t.jobs[n.a := OrderFor(n.root, left, right)])
  }

  lemma OrdersAreSteps(h: Md5, left: Self, right: Self, n: Names)
    requires n.Distinct()
    ensures JobRuns.Next(h, n.root, FreshNode(left, n.root, right, UNKNOWN), Submit(n.a, [], left.name, right.name),
        WithFirst(left, right, n))
    ensures JobRuns.Next(h, n.root, WithFirst(left, right, n), Submit(n.b, [], left.name, right.name),
        Ordered(left, right, n))
  {
    hide Order;
    assert Ordered(left, right, n).jobs == WithFirst(left, right, n).jobs[n.b := OrderFor(n.root, left, right)];
  }

  lemma LocalLeft(h: Md5, roots: RootPair, net: Net, step: JobStep, u: Tables)
    requires JobRuns.Next(h, roots.left, net.left, step, u) && !step.Elsewhere?
    requires step.Arrive? ==> !HashOk(h, step.data)
    ensures NetNext(h, roots, net, Left(Local(step)), net.(left := u))
  {
    hide JobRuns.Next, HashOk;
  }

  lemma StartsFresh(h: Md5, roots: RootPair, net: Net, left: Self, right: Self)
    requires SelfOk(left) && SelfOk(right)
    requires net == Net(FreshNode(left, roots.left, right, UNKNOWN), FreshNode(right, roots.right, left, UNKNOWN),
        {}, {})
    ensures IsNetRun(h, roots, [net], [])
  {
    hide SelfOk;
  }

  /** The run goes on with a message of the left node that arrives on the right. */
  lemma Deliver(h: Md5, roots: RootPair, run: seq<Net>, steps: seq<NetStep>, id: Id, arriving: Id)
    returns (r: seq<Net>, s: seq<NetStep>)
    requires IsNetRun(h, roots, run, steps) && |run| == |steps| + 1
    requires id in run[|steps|].left.jobs && run[|steps|].left.jobs[id].state == S5
        && arriving !in run[|steps|].right.jobs
    requires NameKnown(run[|steps|].left.sysinfo, run[|steps|].left.jobs[id].dest)
    ensures IsNetRun(h, roots, r, s) && |s| == |steps| + 2 && |r| == |s| + 1 && r[0] == run[0]
    ensures r[|s|].left == run[|steps|].left
    ensures var left := run[|steps|].left;
            r[|s|].right.jobs ==
            run[|steps|].right.jobs[arriving := Arrival(roots.right, left.jobs[id].data, left.self.name)]
  {
    hide NetInit, NetNext, IsNetRun, Arrival;
    var net := run[|steps|];
    var m := net.left.jobs[id].data;
    var sent := net.(fromLeft := net.fromLeft + {m});
    var here := net.right.(jobs := net.right.jobs[arriving := Arrival(roots.right, m, net.left.self.name)]);
    TransmitIsStep(h, roots, net, id);
    Extend(h, roots, run, steps, Left(Transmit(id)), sent);
    r, s := run + [sent], steps + [Left(Transmit(id))];
    ArriveIsStep(h, roots, sent, arriving, m);
    Extend(h, roots, r, s, Right(Local(Arrive(arriving, m, net.left.self.name))), sent.(right := here));
    r, s := r + [sent.(right := here)], s + [Right(Local(Arrive(arriving, m, net.left.self.name)))];
  }

  lemma TransmitIsStep(h: Md5, roots: RootPair, net: Net, id: Id)
    requires id in net.left.jobs && net.left.jobs[id].state == S5 && NameKnown(net.left.sysinfo, net.left.jobs[id].dest)
    ensures NetNext(h, roots, net, Left(Transmit(id)), net.(fromLeft := net.fromLeft + {net.left.jobs[id].data}))
  {
  }

  /** The right node with one more row. */
  function Here(net: Net, id: Id, j: Job): Net {
    net.(right := net.right.(jobs := net.right.jobs[id := j]))
  }

  lemma ArriveIsStep(h: Md5, roots: RootPair, net: Net, id: Id, m: Bytes)
    requires id !in net.right.jobs && m in net.fromLeft
    ensures NetNext(h, roots, net, Right(Local(Arrive(id, m, net.left.self.name))),
                    Here(net, id, Arrival(roots.right, m, net.left.self.name)))
  {
    hide Arrival, HashOk;
  }

  /** Any two nodes that know each other but have not agreed can get there in seven steps: two orders for the
      peer, one pass, and both requests on their way. From then on no pass of the peer succeeds, whatever it
      draws. */
  lemma TwoOrdersBlock(h: Md5, left: Self, right: Self, n: Names, now: Stamp, peer: Id, i: Id, j: Id)
    returns (run: seq<Net>, steps: seq<NetStep>)
    requires n.Distinct() && SelfOk(left) && SelfOk(right) && peer != i && peer != j && i != j
    ensures IsNetRun(h, RootPair(n.root, peer), run, steps) && |steps| == 7 && |run| == 8
    ensures run[0] == Net(FreshNode(left, n.root, right, UNKNOWN), FreshNode(right, peer, left, UNKNOWN), {}, {})
    ensures IsRequest(h, run[7].right.jobs, i) && IsRequest(h, run[7].right.jobs, j)
    ensures Blocked(h, run[7].right.jobs, TwoRequests(i, j))
    ensures forall env: Env :: env.h == h ==> Pass(run[7].right, env) == None
  {
    hide IsNetRun, RequestFor, Pass, IsRequest, Arrival, RootRow;
    var roots := RootPair(n.root, peer);
    run, steps := LeftOrders(h, left, right, n, now, peer);
    RequestWaits(h, left, right, n.root, n.x, now);
    RequestWaits(h, left, right, n.root, n.y, now);
    run, steps := Deliver(h, roots, run, steps, n.x, i);
    run, steps := Deliver(h, roots, run, steps, n.y, j);
    var jobs := run[7].right.jobs;
    RequestArrives(h, left, right, n.root, n.x, now, peer, jobs, i, left.name);
    RequestArrives(h, left, right, n.root, n.y, now, peer, jobs, j, left.name);
    forall env: Env | env.h == h ensures Pass(run[7].right, env) == None {
      BlockedFails(run[7].right, env, TwoRequests(i, j));
    }
  }

  lemma RequestWaits(h: Md5, left: Self, right: Self, root: Id, uuid: Uuid, now: Stamp)
    ensures RequestFor(h, left, right, root, uuid, now).state == S5
    ensures RequestFor(h, left, right, root, uuid, now).parent == root
    ensures RequestFor(h, left, right, root, uuid, now).dest == right.name
  {
    hide ConsensusMessage, LPad;
  }

  /** One request is enough when it comes from an address from 2^31 on: five steps, with one request on its way,
      lead to a peer on which no pass succeeds. */
  lemma HighAddressBlocks(h: Md5, left: Self, right: Self, n: Names, now: Stamp, peer: Id, i: Id)
    returns (run: seq<Net>, steps: seq<NetStep>)
    requires n.Distinct() && SelfOk(left) && SelfOk(right) && peer != i && !IsInteger(left.ip)
    ensures IsNetRun(h, RootPair(n.root, peer), run, steps) && |steps| == 5 && |run| == 6
    ensures run[0] == Net(FreshNode(left, n.root, right, UNKNOWN), FreshNode(right, peer, left, UNKNOWN), {}, {})
    ensures Blocked(h, run[5].right.jobs, UnreadableRequest(i))
    ensures forall env: Env :: env.h == h ==> Pass(run[5].right, env) == None
  {
    hide IsNetRun, RequestFor, Pass, IsRequest, Arrival, RootRow, Readable, IsInteger, NodeOk, SelfOk;
    var roots := RootPair(n.root, peer);
    run, steps := LeftOrders(h, left, right, n, now, peer);
    RequestWaits(h, left, right, n.root, n.x, now);
    run, steps := Deliver(h, roots, run, steps, n.x, i);
    RequestArrives(h, left, right, n.root, n.x, now, peer, run[5].right.jobs, i, left.name);
    HonestRight(h, roots, run, steps);
    HonestRequest(h, run[5].right, left, i);
    forall env: Env | env.h == h ensures Pass(run[5].right, env) == None {
      BlockedFails(run[5].right, env, UnreadableRequest(i));
    }
  }

  lemma HonestRight(h: Md5, roots: RootPair, run: seq<Net>, steps: seq<NetStep>)
    requires IsNetRun(h, roots, run, steps) && |run| == |steps| + 1
    ensures NodeOk(h, run[|steps|].right, run[0].left.self)
  {
    hide IsNetRun, NodeOk, AllHonest;
    NetRunOk(h, roots, run, steps, |steps|);
  }

  // ---- a damaged message -------------------------------------------------------------------

  /** A message that fails its hash check, reads as an info message, and has a count that is no number. */
  predicate Damaged(h: Md5, m: Bytes) {
    !HashOk(h, m) && TypeField(m) == LPad(TYPE_INFO, 5) && !Countable(m)
  }

  lemma DamagedExists(h: Md5) returns (m: Bytes)
    ensures Damaged(h, m)
  {
    var rest := Spaces(36) + LPad(TYPE_INFO, 5);
    var first: Bytes := if h(rest) == Spaces(32) then seq(32, _ => ZERO) else Spaces(32);
    assert first != h(rest) by { assert Spaces(32)[0] == SPACE; }
    m := first + rest;
    assert m[..32] == first && m[32..] == rest;
    assert m[68..73] == LPad(TYPE_INFO, 5);
  }

  /** One damaged message is enough once a job below the same root is completed: two orders, one pass, a request
      that was sent, and the arrival. From then on no pass of that node succeeds. */
  lemma DamagedMessageBlocks(h: Md5, left: Self, right: Self, n: Names, now: Stamp, peer: Id, i: Id, m: Bytes)
    returns (run: seq<Net>, steps: seq<NetStep>)
    requires n.Distinct() && SelfOk(left) && SelfOk(right) && Damaged(h, m)
    requires i !in n.All()
    ensures IsNetRun(h, RootPair(n.root, peer), run, steps) && |steps| == 5 && |run| == 6
    ensures run[0] == Net(FreshNode(left, n.root, right, UNKNOWN), FreshNode(right, peer, left, UNKNOWN), {}, {})
    ensures Blocked(h, run[5].left.jobs, UnreadableCount(i, n.x))
    ensures forall env: Env :: env.h == h ==> Pass(run[5].left, env) == None
  {
    hide IsNetRun, RequestFor, Pass, Arrival, HashOk, TypeField, Countable;
    var roots := RootPair(n.root, peer);
    run, steps := LeftOrders(h, left, right, n, now, peer);
    RequestWaits(h, left, right, n.root, n.x, now);
    var u := run[3].left;
    var sent := Restate(u, n.x, C);
    run, steps := ExtendLeft(h, roots, run, steps, Sent(n.x, true), sent);
    var got := sent.(jobs := sent.jobs[i := Arrival(n.root, m, right.name)]);
    run, steps := ExtendLeft(h, roots, run, steps, Arrive(i, m, right.name), got);
    ArrivalIs(n.root, m, right.name);
    forall env: Env | env.h == h ensures Pass(run[5].left, env) == None {
      BlockedFails(run[5].left, env, UnreadableCount(i, n.x));
    }
  }

  lemma ArrivalIs(root: Id, m: Bytes, source: Bytes)
    ensures Arrival(root, m, source).data == m && Arrival(root, m, source).parent == root
  {
  }

  // ---- a chunk that could not be sent ------------------------------------------------------

  /** A file that makes two chunks on its way from `self` to `peer`, and the uuids of the run: the root's, the
      order's, the two chunks' and the info row's. */
  datatype Shipment = Shipment(self: Self, peer: Self, port: int, capacity: int, name: Bytes, file: Bytes,
                               root: Id, p: Id, x: Id, y: Id, z: Id) {
    predicate Valid() {
      && |peer.name| == 5 && port != 0
      && OVERHEAD < capacity <= MAX_INTEGER
      && capacity - OVERHEAD < |file| <= 2 * (capacity - OVERHEAD) && |file| <= MAX_FILE
      && root != p && root != x && root != y && root != z
      && p != x && p != y && p != z && x != y && x != z && y != z
    }

    function Draw(s: Slot): Id {
      if s.Chunk? && s.idx == 0 then x else if s.Chunk? then y else z
    }

    function Draws(h: Md5, now: Stamp): Env {
      Env(h, now, Draw, _ => 1, 2)
    }

    function To(): Endpoint {
      EndpointOf(peer)
    }

    function Start(): Tables {
      FreshNode(self, root, peer, Peer(port, 7000, capacity))
    }

    function Imported(): Tables {
      Start().(files := map[name := file])
    }

    /** The node with the order in state `s`. */
    function With(s: State): Tables {
      Imported().(jobs := map[root := RootRow(self, root), p := Order(root, name, self.name, peer.name).(state := s)])
    }
  }

  lemma ShipmentDest(v: Shipment, s: State)
    requires v.Valid()
    ensures v.With(s).jobs[v.p].dest == v.peer.name
  {
  }

  lemma ShipmentAsked(h: Md5, v: Shipment, now: Stamp)
    requires v.Valid()
    ensures Ask(v.With(S), v.Draws(h, now)) == Some(v.With(S1))
  {
    hide InsertRows, RequestRow, Admitted, Order;
    var t, env := v.With(S), v.Draws(h, now);
    assert RequestRows(t, env) == map[];
    NothingInserted(t.jobs, RequestRows(t, env), env.ids);
    ShipmentAdmitted(v);
  }

  lemma ShipmentAdmitted(v: Shipment)
    requires v.Valid()
    ensures Admitted(v.With(S).sysinfo, v.With(S).jobs) == v.With(S1).jobs
  {
    hide Order;
    ShipmentDest(v, S);
    OrderState(v);
    assert NameKnown(v.With(S).sysinfo, v.peer.name) by { assert v.To() in v.With(S).sysinfo; }
  }

  lemma ShipmentClassified(v: Shipment)
    requires v.Valid()
    ensures Classify(v.With(S1)) == v.With(S2)
  {
    hide LPad;
    var t := v.With(S1);
    ShipmentDest(v, S1);
    assert v.To() in t.sysinfo && TooLarge(t, t.jobs[v.p]);
    assert Classified(t) == v.With(S2).jobs;
  }

  lemma TwoPieces(v: Shipment)
    requires v.Valid()
    ensures CeilDiv(|v.file|, v.capacity - OVERHEAD) == 2
  {
    var k := v.capacity - OVERHEAD;
    var n := |v.file| + k - 1;
    assert 2 * k <= n < 3 * k;
    DivIs(n, k, 2);
  }

  lemma DivIs(n: int, k: int, q: int)
    requires k > 0 && q * k <= n < (q + 1) * k
    ensures n / k == q
  {
    var r := n / k;
    assert n == r * k + n % k;
    if r < q { MulMono(r + 1, q, k); }
    if r > q { MulMono(q + 1, r, k); }
  }

  lemma ShipmentRows(h: Md5, v: Shipment, now: Stamp)
    requires v.Valid()
    ensures var t, env := v.With(S2), v.Draws(h, now);
            && SingleRows(t, env) == map[] && Divisible(t)
            && ChunkRows(t, env).Keys == {Chunk(v.p, v.To(), 0), Chunk(v.p, v.To(), 1)}
            && forall s :: s in ChunkRows(t, env) ==>
                 ChunkRows(t, env)[s].state == S4 && ChunkRows(t, env)[s].parent == v.p
  {
    hide SingleRow, ChunkRow, Joined, Order, ChunkTotal;
    var t, env := v.With(S2), v.Draws(h, now);
    ShipmentJoins(v, t);
    assert ChunkRows(t, env).Keys == {Chunk(v.p, v.To(), 0), Chunk(v.p, v.To(), 1)};
    ChunkStates(t, env);
  }

  /** The order is the one row to split, and is cut in two. */
  lemma ShipmentJoins(v: Shipment, t: Tables)
    requires v.Valid() && t == v.With(S2)
    ensures Joined(t, v.p, v.To(), S2) && ChunkTotal(t, v.p, v.To()) == 2
    ensures forall id, e :: Joined(t, id, e, S2) ==> id == v.p && e == v.To()
    ensures forall id, e :: !Joined(t, id, e, S3)
    ensures t.sysinfo[v.To()].capacity != OVERHEAD
  {
    hide LPad;
    ShipmentDest(v, S2);
    TwoPieces(v);
  }

  lemma ChunkStates(t: Tables, env: Env)
    requires Divisible(t)
    ensures forall s :: s in ChunkRows(t, env) ==>
              s.Chunk? && ChunkRows(t, env)[s].state == S4 && ChunkRows(t, env)[s].parent == s.job
  {
    hide ChunkMessage, Piece, ChunkTotal, Divisible;
  }

  /** The rows that the splitting statements insert. */
  lemma ShipmentWritten(h: Md5, v: Shipment, now: Stamp) returns (chunks: Tables)
    requires v.Valid()
    ensures WriteSingles(v.With(S2), v.Draws(h, now)) == Some(v.With(S2))
    ensures WriteChunks(v.With(S2), v.Draws(h, now)) == Some(chunks)
    ensures chunks == v.With(S2).(jobs := chunks.jobs) && chunks.jobs.Keys == {v.root, v.p, v.x, v.y}
    ensures chunks.jobs[v.root] == v.With(S2).jobs[v.root] && chunks.jobs[v.p] == v.With(S2).jobs[v.p]
    ensures chunks.jobs[v.x].state == S4 && chunks.jobs[v.x].parent == v.p && chunks.jobs[v.y].state == S4
  {
    hide InsertRows, SingleRows, ChunkRows, Order, Divisible;
    var t, env := v.With(S2), v.Draws(h, now);
    ShipmentRows(h, v, now);
    NothingInserted(t.jobs, SingleRows(t, env), env.ids);
    var rows := ChunkRows(t, env);
    assert Chunk(v.p, v.To(), 0) in rows && Chunk(v.p, v.To(), 1) in rows;
    TwoInserted(t.jobs, rows, env.ids, Chunk(v.p, v.To(), 0), Chunk(v.p, v.To(), 1));
    chunks := t.(jobs := t.jobs[v.x := rows[Chunk(v.p, v.To(), 0)]][v.y := rows[Chunk(v.p, v.To(), 1)]]);
  }

  lemma OneInserted(jobs: Jobs, rows: map<Slot, Job>, ids: Slot -> Id, s: Slot)
    requires rows.Keys == {s} && ids(s) !in jobs
    ensures InsertRows(jobs, rows, ids) == Some(jobs[ids(s) := rows[s]])
  {
    hide InsertRows;
    assert Drawable(jobs, rows.Keys, ids);
    var got, want := InsertRows(jobs, rows, ids).value, jobs[ids(s) := rows[s]];
    assert s in rows;
    assert got.Keys == want.Keys;
    assert got == want;
  }

  lemma ShipmentInfo(h: Md5, v: Shipment, now: Stamp, chunks: Tables) returns (infos: Tables)
    requires v.Valid()
    requires chunks == v.With(S2).(jobs := chunks.jobs) && chunks.jobs.Keys == {v.root, v.p, v.x, v.y}
    requires chunks.jobs[v.root] == v.With(S2).jobs[v.root] && chunks.jobs[v.p] == v.With(S2).jobs[v.p]
    requires chunks.jobs[v.x].state == S4 && chunks.jobs[v.y].state == S4
    ensures WriteInfos(chunks, v.Draws(h, now)) == Some(infos)
    ensures exists j: Job :: j.state == S4 && infos == chunks.(jobs := chunks.jobs[v.z := j])
  {
    hide InsertRows, InfoRow, LPad;
    var env, s := v.Draws(h, now), Info(v.p, v.To());
    ShipmentDest(v, S2);
    assert Joined(chunks, v.p, v.To(), S2);
    assert forall id, e :: Joined(chunks, id, e, S2) ==> id == v.p && e == v.To();
    assert Divisible(chunks);
    var rows := InfoRows(chunks, env);
    assert rows.Keys == {s};
    OneInserted(chunks.jobs, rows, env.ids, s);
    infos := chunks.(jobs := chunks.jobs[v.z := rows[s]]);
    InfoState(chunks, env, v.p, v.To());
    assert s in rows && rows[s].state == S4;
  }

  lemma InfoState(t: Tables, env: Env, id: Id, e: Endpoint)
    requires Joined(t, id, e, S2) && t.sysinfo[e].capacity != OVERHEAD
    ensures InfoRow(t, env, id, e).state == S4
  {
    hide InfoMessage, ChunkTotal;
  }

  /** What the splitting statements leave: the order waits for its children, one of which is `x`. */
  predicate SplitInTwo(v: Shipment, t: Tables) {
    && t == v.Imported().(jobs := t.jobs) && t.jobs.Keys == {v.root, v.p, v.x, v.y, v.z}
    && t.jobs[v.root] == RootRow(v.self, v.root) && t.jobs[v.p] == v.With(S2W).jobs[v.p]
    && t.jobs[v.x].state == S4 && t.jobs[v.x].parent == v.p && t.jobs[v.y].state == S4 && t.jobs[v.z].state == S4
  }

  lemma ShipmentSplit(h: Md5, v: Shipment, now: Stamp) returns (written: Tables)
    requires v.Valid()
    ensures Split(v.With(S1), v.Draws(h, now)) == Some(written) && SplitInTwo(v, written)
  {
    hide WriteSingles, WriteChunks, WriteInfos, Waiting, Order;
    var env := v.Draws(h, now);
    ShipmentClassified(v);
    var chunks := ShipmentWritten(h, v, now);
    var infos := ShipmentInfo(h, v, now, chunks);
    written := infos.(jobs := Waiting(infos.sysinfo, infos.jobs));
    ShipmentWaits(v, infos);
  }

  lemma ShipmentWaits(v: Shipment, infos: Tables)
    requires v.Valid()
    requires infos == v.Imported().(jobs := infos.jobs) && infos.jobs.Keys == {v.root, v.p, v.x, v.y, v.z}
    requires infos.jobs[v.root] == RootRow(v.self, v.root) && infos.jobs[v.p] == v.With(S2).jobs[v.p]
    requires infos.jobs[v.x].state == S4 && infos.jobs[v.x].parent == v.p
    requires infos.jobs[v.y].state == S4 && infos.jobs[v.z].state == S4
    ensures SplitInTwo(v, infos.(jobs := Waiting(infos.sysinfo, infos.jobs)))
  {
    hide LPad;
    ShipmentDest(v, S2);
    assert NameKnown(infos.sysinfo, v.peer.name) by { assert v.To() in infos.sysinfo; }
  }

  lemma ShipmentConnect(h: Md5, v: Shipment, now: Stamp, written: Tables) returns (u: Tables)
    requires v.Valid() && SplitInTwo(v, written)
    ensures Connect(written, v.Draws(h, now)) == Some(u) && u.jobs == written.jobs && u.sysinfo == written.sysinfo
  {
    hide SplitInTwo, OpenKeys, CloseKeys, WithConns, WithComms, SerialFits;
    var env := v.Draws(h, now);
    assert written == v.Imported().(jobs := written.jobs) by { UnfoldSplit(v, written); }
    var t1 := written.(conns := WithConns(written));
    OneKey(v, written, t1);
    OneSerial(written, OpenKeys(t1), CommKey(v.peer.ip, v.port), env);
    u := t1.(comms := WithComms(WithComms(t1.comms, OpenKeys(t1), false, env), CloseKeys(t1), true, env),
             nextComm := env.nextSerial);
  }

  lemma OneKey(v: Shipment, t: Tables, t1: Tables)
    requires t == v.Imported().(jobs := t.jobs) && t1 == t.(conns := WithConns(t))
    ensures OpenKeys(t1) <= {CommKey(v.peer.ip, v.port)} && CloseKeys(t1) == {}
  {
    assert forall ip :: ip in t1.conns ==> t1.conns[ip].status == 1;
  }

  lemma UnfoldSplit(v: Shipment, written: Tables)
    requires SplitInTwo(v, written)
    ensures written == v.Imported().(jobs := written.jobs)
  {
    hide Order;
  }

  /** The whole pass: the order waits in S-2W, its chunk `x` is ready to be fetched. */
  lemma ShipmentPass(h: Md5, v: Shipment, now: Stamp) returns (u: Tables)
    requires v.Valid()
    ensures Pass(v.With(S), v.Draws(h, now)) == Some(u) && u.sysinfo == v.Start().sysinfo
    ensures v.p in u.jobs && u.jobs[v.p].state == S2W
    ensures v.x in u.jobs && u.jobs[v.x].state == S4 && u.jobs[v.x].parent == v.p
  {
    hide Check, Ask, Consensus, Split, Connect, Order;
    var t, env := v.With(S), v.Draws(h, now);
    assert AllQuiet(t.jobs);
    QuietCheck(t, env);
    ShipmentAsked(h, v, now);
    QuietConsensus(t, env, v.With(S1));
    var written := ShipmentSplit(h, v, now);
    u := ShipmentConnect(h, v, now, written);
  }

  // ---- the run to a dead child -------------------------------------------------------------

  lemma ExtendJobs(h: Md5, root: Id, run: seq<Tables>, steps: seq<JobStep>, step: JobStep, u: Tables)
    returns (r: seq<Tables>, s: seq<JobStep>)
    requires JobProperties.IsRun(h, root, run, steps) && |run| == |steps| + 1
    requires JobRuns.Next(h, root, run[|steps|], step, u) && Config(u.sysinfo)
    ensures JobProperties.IsRun(h, root, r, s) && |s| == |steps| + 1 && |r| == |s| + 1
    ensures r[|s|] == u && r[0] == run[0] && s[|steps|] == step
  {
    hide JobRuns.Next, Config, JobProperties.Init;
    r, s := run + [u], steps + [step];
    forall i | 0 <= i < |s| ensures JobProperties.StepAt(h, root, r, s, i) {
      if i < |steps| { assert JobProperties.StepAt(h, root, run, steps, i); }
    }
  }

  lemma ShipmentStarts(h: Md5, v: Shipment)
    requires v.Valid()
    ensures JobProperties.IsRun(h, v.root, [v.Start()], []) && Config(v.Start().sysinfo)
    ensures JobRuns.Next(h, v.root, v.Start(), ImportFile(v.name, v.file), v.Imported())
    ensures JobRuns.Next(h, v.root, v.Imported(), Submit(v.p, v.name, v.self.name, v.peer.name), v.With(S))
  {
    hide Order;
    OrderState(v);
    assert v.With(S).jobs == v.Imported().jobs[v.p := Order(v.root, v.name, v.self.name, v.peer.name)];
  }

  lemma OrderState(v: Shipment)
    ensures Order(v.root, v.name, v.self.name, v.peer.name).state == S
  {
  }

  /** Any file that makes two chunks can get there in five steps: import, order, one pass, the hand-over of the
      first chunk, and its status from a sender that failed. From then on the job waits in every run that
      goes on from here. */
  lemma FailedChunkBlocks(h: Md5, v: Shipment, now: Stamp) returns (run: seq<Tables>, steps: seq<JobStep>)
    requires v.Valid()
    ensures JobProperties.IsRun(h, v.root, run, steps) && |steps| == 5 && |run| == 6 && run[0] == v.Start()
    ensures steps[4] == Report(v.x, false)
    ensures v.p in run[5].jobs && run[5].jobs[v.p].state == S2W
    ensures v.x in Children(run[5].jobs, v.p) && run[5].jobs[v.x].state == D
    ensures forall more: seq<Tables>, mores: seq<JobStep>, j: nat ::
      JobProperties.IsRun(h, v.root, run + more, steps + mores) && 5 <= j < |run + more| ==>
        v.p in (run + more)[j].jobs && (run + more)[j].jobs[v.p].state == S2W
  {
    hide JobRuns.Next, JobProperties.IsRun, Config, Pass;
    run, steps := ChunkFails(h, v, now);
    forall more: seq<Tables>, mores: seq<JobStep>, j: nat |
      JobProperties.IsRun(h, v.root, run + more, steps + mores) && 5 <= j < |run + more|
      ensures v.p in (run + more)[j].jobs && (run + more)[j].jobs[v.p].state == S2W
    {
      JobProperties.DeadChildBlocks(h, v.root, run + more, steps + mores, 5, j, v.p, v.x);
    }
  }

  lemma ChunkFails(h: Md5, v: Shipment, now: Stamp) returns (run: seq<Tables>, steps: seq<JobStep>)
    requires v.Valid()
    ensures JobProperties.IsRun(h, v.root, run, steps) && |steps| == 5 && |run| == 6 && run[0] == v.Start()
    ensures steps[4] == Report(v.x, false)
    ensures v.p in run[5].jobs && run[5].jobs[v.p].state == S2W
    ensures v.x in Children(run[5].jobs, v.p) && run[5].jobs[v.x].state == D
  {
    hide JobProperties.IsRun, Config, Pass, Order;
    var u := ShipmentPass(h, v, now);
    var handed := Restate(u, v.x, S4W);
    var dead := Restate(handed, v.x, D);
    ShipmentStarts(h, v);
    assert JobRuns.Next(h, v.root, v.With(S), RunPass(v.Draws(h, now)), u);
    assert JobRuns.Next(h, v.root, u, HandOff(v.x), handed);
    assert JobRuns.Next(h, v.root, handed, Report(v.x, false), dead);
    hide JobRuns.Next;
    run, steps := ExtendJobs(h, v.root, [v.Start()], [], ImportFile(v.name, v.file), v.Imported());
    run, steps := ExtendJobs(h, v.root, run, steps, Submit(v.p, v.name, v.self.name, v.peer.name), v.With(S));
    run, steps := ExtendJobs(h, v.root, run, steps, RunPass(v.Draws(h, now)), u);
    run, steps := ExtendJobs(h, v.root, run, steps, HandOff(v.x), handed);
    run, steps := ExtendJobs(h, v.root, run, steps, Report(v.x, false), dead);
  }
}
