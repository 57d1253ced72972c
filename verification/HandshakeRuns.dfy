/** Two nodes and the network between them: messages may be lost, repeated, reordered or corrupted, and
    both sides may start the handshake at once. */
module HandshakeRuns {
  import opened Text
  import opened Message
  import opened Chunks
  import opened Tables
  import opened RunJobs
  import opened StateGraph
  import opened JobRuns
  import opened Handshake
  import JobProperties

  /** Both nodes' tables, and everything each of them has ever sent. */
  datatype Net = Net(left: Tables, right: Tables, fromLeft: set<Bytes>, fromRight: set<Bytes>)

  datatype SideStep = Local(step: JobStep) | Transmit(id: Id)

  datatype NetStep = Left(step: SideStep) | Right(step: SideStep)

  /** The root jobs of the two nodes; each database draws its own. */
  datatype RootPair = RootPair(left: Id, right: Id)

  /** One step of one side. What arrives was sent by the other side at some time, or fails the hash check. A
      consensus message is sent to a system that its row is joined with. */
  ghost predicate SideNext(h: Md5, root: Id, t: Tables, heard: set<Bytes>, said: set<Bytes>, step: SideStep,
      u: Tables, saying: set<Bytes>) {
    match step
    case Local(js) =>
      && JobRuns.Next(h, root, t, js, u) && saying == said
      && (js.Arrive? ==> js.data in heard || !HashOk(h, js.data))
      && (js.Elsewhere? ==> u.notices <= t.notices)
    case Transmit(id) =>
      && id in t.jobs && ((t.jobs[id].state == S5 && NameKnown(t.sysinfo, t.jobs[id].dest)) || t.jobs[id].state == S4W)
      && u == t && saying == said + {t.jobs[id].data}
  }

  ghost predicate NetNext(h: Md5, roots: RootPair, a: Net, step: NetStep, b: Net) {
    match step
    case Left(s) =>
      && SideNext(h, roots.left, a.left, a.fromRight, a.fromLeft, s, b.left, b.fromLeft)
      && b.right == a.right && b.fromRight == a.fromRight
    case Right(s) =>
      && SideNext(h, roots.right, a.right, a.fromLeft, a.fromRight, s, b.right, b.fromRight)
      && b.left == a.left && b.fromLeft == a.fromLeft
  }

  // ---- the invariant -----------------------------------------------------------------------

  predicate AllHonest(h: Md5, from: Self, to: Self, said: set<Bytes>) {
    forall m :: m in said ==> Honest(h, from, to, m)
  }

  ghost predicate NetOk(h: Md5, net: Net) {
    && NodeOk(h, net.left, net.right.self) && NodeOk(h, net.right, net.left.self)
    && AllHonest(h, net.left.self, net.right.self, net.fromLeft)
    && AllHonest(h, net.right.self, net.left.self, net.fromRight)
  }

  lemma LocalOk(h: Md5, root: Id, t: Tables, js: JobStep, u: Tables, peer: Self)
    requires NodeOk(h, t, peer) && JobRuns.Next(h, root, t, js, u) && !js.RunPass?
    requires js.Arrive? ==> Honest(h, peer, t.self, js.data) || !HashOk(h, js.data)
    requires js.Elsewhere? ==> u.notices <= t.notices
    ensures u.self == t.self && NodeOk(h, u, peer)
  {
    hide SelfOk, SysOk, RowsHonest;
    LocalRows(h, root, t, js, u, t.self, peer);
    LocalRest(h, root, t, js, u);
  }

  lemma LocalRows(h: Md5, root: Id, t: Tables, js: JobStep, u: Tables, me: Self, peer: Self)
    requires RowsHonest(h, me, peer, t.jobs) && JobRuns.Next(h, root, t, js, u) && !js.RunPass?
    requires js.Arrive? ==> Honest(h, peer, me, js.data) || !HashOk(h, js.data)
    ensures RowsHonest(h, me, peer, u.jobs)
  {
    hide RowsHonest, JobRuns.Next;
    if js.Arrive? || js.Submit? { RowAdded(h, root, t, js, u, me, peer); }
    else { RowsMoved(h, root, t, js, u, me, peer); }
  }

  lemma RowAdded(h: Md5, root: Id, t: Tables, js: JobStep, u: Tables, me: Self, peer: Self)
    requires RowsHonest(h, me, peer, t.jobs) && JobRuns.Next(h, root, t, js, u) && (js.Arrive? || js.Submit?)
    requires js.Arrive? ==> Honest(h, peer, me, js.data) || !HashOk(h, js.data)
    ensures RowsHonest(h, me, peer, u.jobs)
  {
    NewRowHonest(h, root, js, me, peer);
    hide RowHonest, Arrival, Order, Honest, HashOk;
  }

  lemma RowsMoved(h: Md5, root: Id, t: Tables, js: JobStep, u: Tables, me: Self, peer: Self)
    requires RowsHonest(h, me, peer, t.jobs) && JobRuns.Next(h, root, t, js, u)
    requires !js.RunPass? && !js.Arrive? && !js.Submit?
    ensures RowsHonest(h, me, peer, u.jobs)
  {
    hide Honest, HashOk, LPad;
  }

  lemma NewRowHonest(h: Md5, root: Id, js: JobStep, me: Self, peer: Self)
    requires js.Arrive? ==> Honest(h, peer, me, js.data) || !HashOk(h, js.data)
    ensures js.Arrive? ==> RowHonest(h, me, peer, Arrival(root, js.data, js.source))
    ensures js.Submit? ==> RowHonest(h, me, peer, Order(root, js.name, js.source, js.dest))
  {
    hide Honest, HashOk, Outgoing, LPad;
  }

  lemma LocalRest(h: Md5, root: Id, t: Tables, js: JobStep, u: Tables)
    requires JobRuns.Next(h, root, t, js, u) && !js.RunPass?
    ensures u.self == t.self && u.sysinfo == t.sysinfo && (!js.Elsewhere? ==> u.notices == t.notices)
  {
    hide Arrival, Order;
  }

  lemma SideOk(h: Md5, root: Id, t: Tables, heard: set<Bytes>, said: set<Bytes>, step: SideStep, u: Tables,
      saying: set<Bytes>, peer: Self)
    requires NodeOk(h, t, peer) && AllHonest(h, peer, t.self, heard) && AllHonest(h, t.self, peer, said)
    requires SideNext(h, root, t, heard, said, step, u, saying)
    ensures u.self == t.self && NodeOk(h, u, peer) && AllHonest(h, t.self, peer, saying)
  {
    hide Pass, JobRuns.Next, Honest, HashOk, SysOk, SelfOk, NoticesOk;
    match step
    case Local(js) =>
      if js.RunPass? { PassStep(h, root, t, js, u, peer); } else { LocalOk(h, root, t, js, u, peer); }
    case Transmit(id) =>
      assert RowHonest(h, t.self, peer, t.jobs[id]);
  }

  lemma PassStep(h: Md5, root: Id, t: Tables, js: JobStep, u: Tables, peer: Self)
    requires NodeOk(h, t, peer) && JobRuns.Next(h, root, t, js, u) && js.RunPass?
    ensures u.self == t.self && NodeOk(h, u, peer)
  {
    hide Pass, NodeOk;
    PassHonest(h, t, js.env, u, peer);
  }

  /** Every step of either node, and every behaviour of the network, keeps the agreement sound. */
  lemma NetStepOk(h: Md5, roots: RootPair, a: Net, step: NetStep, b: Net)
    requires NetOk(h, a) && NetNext(h, roots, a, step, b)
    ensures NetOk(h, b) && b.left.self == a.left.self && b.right.self == a.right.self
  {
    hide NodeOk, AllHonest, SideNext;
    match step
    case Left(s) => SideOk(h, roots.left, a.left, a.fromRight, a.fromLeft, s, b.left, b.fromLeft, a.right.self);
    case Right(s) => SideOk(h, roots.right, a.right, a.fromLeft, a.fromRight, s, b.right, b.fromRight, a.left.self);
  }

  // ---- what it means -----------------------------------------------------------------------

  /** Both sides record the same capacity as soon as both have recorded one. */
  lemma SameCapacity(h: Md5, net: Net, d: Endpoint, e: Endpoint)
    requires NetOk(h, net) && d in net.left.sysinfo && e in net.right.sysinfo
    requires net.left.sysinfo[d].capacity != 0 && net.right.sysinfo[e].capacity != 0
    ensures net.left.sysinfo[d].capacity == net.right.sysinfo[e].capacity == Agreed(net.left.self, net.right.self)
    ensures net.left.sysinfo[d].dataport == net.right.self.dataport
    ensures net.right.sysinfo[e].dataport == net.left.self.dataport
  {
    hide RowsHonest, NoticesOk, AllHonest;
  }

  /** Nothing that is known is forgotten, and what has been agreed stays so. */
  predicate SysStays(a: Sysinfo, b: Sysinfo) {
    forall e :: e in a ==>
      e in b && (a[e].capacity != 0 ==> b[e].capacity == a[e].capacity && b[e].dataport == a[e].dataport)
  }

  lemma AcceptRequestStays(h: Md5, t: Tables, u: Tables, peer: Self)
    requires NodeOk(h, t, peer) && NodeOk(h, u, peer) && AcceptRequest(t) == Some(u) && u.self == t.self
    ensures SysStays(t.sysinfo, u.sysinfo)
  {
    hide HashOk, RowsHonest, CapacityField, PortField, IpField, ReplyIpField, SourceField, TypeField, LPad, NoticesOk;
    var rs := Pending(t.jobs, TYPE_REQUEST);
    if rs != {} {
      PendingHonest(h, t, peer, Only(rs), TYPE_REQUEST);
      Padded5(peer.name);
    }
  }

  lemma AcceptReplyStays(t: Tables, u: Tables)
    requires AcceptReply(t) == Some(u)
    ensures SysStays(t.sysinfo, u.sysinfo)
  {
    hide KnownReplies, ReadableReply, CapacityField, PortField, Pending;
  }

  lemma ConsensusStays(h: Md5, t: Tables, env: Env, u: Tables, peer: Self)
    requires env.h == h && NodeOk(h, t, peer) && Consensus(t, env) == Some(u)
    ensures SysStays(t.sysinfo, u.sysinfo)
  {
    hide Consensus, Ask, AcceptRequest, Answer, AcceptReply, Closed, RowsHonest, SysOk, NoticesOk, SelfOk;
    var t1, t2, t3, t4 := ConsensusStages(t, env, u);
    AskHonest(h, t, env, t1, peer);
    AcceptRequestOk(h, t1, t2, peer);
    AcceptRequestStays(h, t1, t2, peer);
    AnswerHonest(h, t2, env, t3, peer);
    AcceptReplyStays(t3, t4);
  }

  lemma PassStays(h: Md5, t: Tables, env: Env, u: Tables, peer: Self)
    requires env.h == h && NodeOk(h, t, peer) && Pass(t, env) == Some(u)
    ensures SysStays(t.sysinfo, u.sysinfo)
  {
    hide Pass, Check, Consensus, Split, Connect, RowsHonest, SysOk, NoticesOk, Evolves, CompletedRows, SplittingRows;
    var t1, t2, t3 := PassStages(t, env, u);
    CheckHonest(h, t, env, t1, peer);
    ConsensusStays(h, t1, env, t2, peer);
    SplitEvolves(t2, env, t3);
    ConnectKeeps(t3, env, u);
  }

  /** Once a node has recorded an agreement, no step of either node changes it. */
  lemma AgreementStable(h: Md5, roots: RootPair, a: Net, step: NetStep, b: Net)
    requires NetOk(h, a) && NetNext(h, roots, a, step, b)
    ensures SysStays(a.left.sysinfo, b.left.sysinfo) && SysStays(a.right.sysinfo, b.right.sysinfo)
  {
    hide NodeOk, AllHonest, SideNext;
    match step
    case Left(s) => SideStays(h, roots.left, a.left, a.fromRight, a.fromLeft, s, b.left, b.fromLeft, a.right.self);
    case Right(s) => SideStays(h, roots.right, a.right, a.fromLeft, a.fromRight, s, b.right, b.fromRight, a.left.self);
  }

  lemma SideStays(h: Md5, root: Id, t: Tables, heard: set<Bytes>, said: set<Bytes>, step: SideStep, u: Tables,
      saying: set<Bytes>, peer: Self)
    requires NodeOk(h, t, peer) && SideNext(h, root, t, heard, said, step, u, saying)
    ensures SysStays(t.sysinfo, u.sysinfo)
  {
    hide Pass, NodeOk, HashOk, LPad;
    if step.Local? && step.step.RunPass? { PassStays(h, t, step.step.env, u, peer); }
  }

  /** The agreement is all that the properties of job runs ask of sysinfo. */
  lemma ConfigFollows(h: Md5, t: Tables, peer: Self)
    requires NodeOk(h, t, peer)
    ensures Config(t.sysinfo)
  {
    hide RowsHonest, NoticesOk;
  }

  /** Every data message on the wire is exactly as long as every size its receiver is ever told for the
      sender's address. */
  lemma SizesMatch(h: Md5, net: Net, m: Bytes, n: Notice)
    requires NetOk(h, net) && m in net.fromLeft && n in net.right.notices
    requires TypeField(m) != LPad(TYPE_REQUEST, 5) && TypeField(m) != LPad(TYPE_REPLY, 5)
    ensures n.ip == net.left.self.ip && n.capacity == |m|
  {
    hide RowsHonest, SysOk, HashOk, TypeField, LPad;
  }

  // ---- runs --------------------------------------------------------------------------------

  /** Two fresh nodes that know at most each other, with nothing agreed. */
  ghost predicate NetInit(roots: RootPair, net: Net) {
    && FreshSide(roots.left, net.left, net.right.self) && FreshSide(roots.right, net.right, net.left.self)
    && net.fromLeft == {} && net.fromRight == {}
  }

  predicate FreshSide(root: Id, t: Tables, peer: Self) {
    && JobProperties.Init(root, t) && SelfOk(t.self) && t.notices == multiset{}
    && forall e :: e in t.sysinfo ==> e == EndpointOf(peer) && t.sysinfo[e].capacity == 0 && t.sysinfo[e].dataport == 0
  }

  lemma NetInitOk(h: Md5, roots: RootPair, net: Net)
    requires NetInit(roots, net)
    ensures NetOk(h, net)
  {
    hide Honest, HashOk, SelfOk;
  }

  ghost predicate IsNetRun(h: Md5, roots: RootPair, run: seq<Net>, steps: seq<NetStep>) {
    && |run| == |steps| + 1 && NetInit(roots, run[0])
    && forall i :: 0 <= i < |steps| ==> NetNext(h, roots, run[i], steps[i], run[i + 1])
  }

  /** In every state of every run each side has recorded nothing, or exactly the agreement. */
  lemma {:induction false} NetRunOk(h: Md5, roots: RootPair, run: seq<Net>, steps: seq<NetStep>, n: nat)
    requires IsNetRun(h, roots, run, steps) && n < |run|
    ensures NetOk(h, run[n]) && run[n].left.self == run[0].left.self && run[n].right.self == run[0].right.self
  {
    hide NetNext, NetOk, NetInit;
    if n == 0 {
      NetInitOk(h, roots, run[0]);
    } else {
      NetRunOk(h, roots, run, steps, n - 1);
      assert NetNext(h, roots, run[n - 1], steps[n - 1], run[n]);
      NetStepOk(h, roots, run[n - 1], steps[n - 1], run[n]);
    }
  }

  /** Once recorded, an agreement stays for the rest of the run. */
  lemma {:induction false} AgreedForGood(h: Md5, roots: RootPair, run: seq<Net>, steps: seq<NetStep>, i: nat, j: nat)
    requires IsNetRun(h, roots, run, steps) && i <= j < |run|
    ensures SysStays(run[i].left.sysinfo, run[j].left.sysinfo) && SysStays(run[i].right.sysinfo, run[j].right.sysinfo)
  {
    hide NetNext, NetOk, NetInit;
    if i < j {
      AgreedForGood(h, roots, run, steps, i, j - 1);
      NetRunOk(h, roots, run, steps, j - 1);
      assert NetNext(h, roots, run[j - 1], steps[j - 1], run[j]);
      AgreementStable(h, roots, run[j - 1], steps[j - 1], run[j]);
    }
  }

  /** What a step of the network is for the left node. */
  function LeftStep(step: NetStep): JobStep {
    if step.Left? && step.step.Local? then step.step.step else Elsewhere
  }

  function LeftTables(run: seq<Net>): (r: seq<Tables>)
    ensures |r| == |run| && forall i :: 0 <= i < |r| ==> r[i] == run[i].left
  {
    seq(|run|, (i: nat) requires i < |run| => run[i].left)
  }

  function LeftSteps(steps: seq<NetStep>): (r: seq<JobStep>)
    ensures |r| == |steps| && forall i :: 0 <= i < |r| ==> r[i] == LeftStep(steps[i])
  {
    seq(|steps|, (i: nat) requires i < |steps| => LeftStep(steps[i]))
  }

  lemma LeftStepIsStep(h: Md5, roots: RootPair, a: Net, step: NetStep, b: Net)
    requires NetNext(h, roots, a, step, b)
    ensures JobRuns.Next(h, roots.left, a.left, LeftStep(step), b.left)
  {
    hide Pass, HashOk, LPad;
  }

  /** The left node's tables are a run of the job table. */
  lemma LeftIsJobRun(h: Md5, roots: RootPair, run: seq<Net>, steps: seq<NetStep>)
    requires IsNetRun(h, roots, run, steps)
    ensures JobProperties.IsRun(h, roots.left, LeftTables(run), LeftSteps(steps))
  {
    hide NetNext, JobRuns.Next, Config, NodeOk, AllHonest;
    forall i | 0 <= i < |steps| ensures JobProperties.StepAt(h, roots.left, LeftTables(run), LeftSteps(steps), i) {
      assert NetNext(h, roots, run[i], steps[i], run[i + 1]);
      LeftStepIsStep(h, roots, run[i], steps[i], run[i + 1]);
      NetRunOk(h, roots, run, steps, i + 1);
      ConfigFollows(h, run[i + 1].left, run[i + 1].right.self);
    }
  }

  // ---- the other side ----------------------------------------------------------------------

  /** The same network, seen from the other side. */
  function Mirror(net: Net): Net {
    Net(net.right, net.left, net.fromRight, net.fromLeft)
  }

  function MirrorRoots(roots: RootPair): RootPair {
    RootPair(roots.right, roots.left)
  }

  function MirrorStep(step: NetStep): NetStep {
    match step
    case Left(s) => Right(s)
    case Right(s) => Left(s)
  }

  function MirrorRun(run: seq<Net>): (r: seq<Net>)
    ensures |r| == |run| && forall i :: 0 <= i < |r| ==> r[i] == Mirror(run[i])
  {
    seq(|run|, (i: nat) requires i < |run| => Mirror(run[i]))
  }

  function MirrorSteps(steps: seq<NetStep>): (r: seq<NetStep>)
    ensures |r| == |steps| && forall i :: 0 <= i < |r| ==> r[i] == MirrorStep(steps[i])
  {
    seq(|steps|, (i: nat) requires i < |steps| => MirrorStep(steps[i]))
  }

  /** The two sides differ in name only: what is proved of the left node of all runs holds of the right one. */
  lemma MirroredRun(h: Md5, roots: RootPair, run: seq<Net>, steps: seq<NetStep>)
    requires IsNetRun(h, roots, run, steps)
    ensures IsNetRun(h, MirrorRoots(roots), MirrorRun(run), MirrorSteps(steps))
  {
    hide SideNext, FreshSide;
    forall i | 0 <= i < |steps|
      ensures NetNext(h, MirrorRoots(roots), Mirror(run[i]), MirrorStep(steps[i]), Mirror(run[i + 1]))
    {
      assert NetNext(h, roots, run[i], steps[i], run[i + 1]);
    }
  }

  function RightTables(run: seq<Net>): (r: seq<Tables>)
    ensures |r| == |run| && forall i :: 0 <= i < |r| ==> r[i] == run[i].right
  {
    seq(|run|, (i: nat) requires i < |run| => run[i].right)
  }

  function RightSteps(steps: seq<NetStep>): (r: seq<JobStep>)
    ensures |r| == |steps| && forall i :: 0 <= i < |r| ==> r[i] == LeftStep(MirrorStep(steps[i]))
  {
    seq(|steps|, (i: nat) requires i < |steps| => LeftStep(MirrorStep(steps[i])))
  }

  /** In a network of two nodes the order of sysinfo need not be assumed: the tables of each node are a run of
      the job table, with all its properties. */
  lemma EachIsJobRun(h: Md5, roots: RootPair, run: seq<Net>, steps: seq<NetStep>)
    requires IsNetRun(h, roots, run, steps)
    ensures JobProperties.IsRun(h, roots.left, LeftTables(run), LeftSteps(steps))
    ensures JobProperties.IsRun(h, roots.right, RightTables(run), RightSteps(steps))
  {
    hide IsNetRun, JobProperties.IsRun;
    LeftIsJobRun(h, roots, run, steps);
    MirroredRun(h, roots, run, steps);
    LeftIsJobRun(h, MirrorRoots(roots), MirrorRun(run), MirrorSteps(steps));
    assert LeftTables(MirrorRun(run)) == RightTables(run);
    assert LeftSteps(MirrorSteps(steps)) == RightSteps(steps);
  }

  // ---- what the next pass will look at -----------------------------------------------------

  /** The row is a consensus message of this kind, which the next pass will look at. */
  predicate IsArrived(h: Md5, jobs: Jobs, id: Id, kind: Bytes) {
    id in jobs && match jobs[id].state
    case N1 => HashOk(h, jobs[id].data) && DestField(jobs[id].data) in Roots(jobs) && IsOfType(jobs[id].data, kind)
    case N2 => DestField(jobs[id].data) in Roots(jobs) && IsOfType(jobs[id].data, kind)
    case N3 => IsOfType(jobs[id].data, kind)
    case N4 => jobs[id].kind == LPad(kind, 5)
    case _ => false
  }

  predicate IsOfType(m: Bytes, kind: Bytes) {
    TypeField(m) == LPad(kind, 5)
  }

  predicate IsRequest(h: Md5, jobs: Jobs, id: Id) {
    IsArrived(h, jobs, id, TYPE_REQUEST)
  }

  lemma ArrivedTriaged(h: Md5, jobs: Jobs, id: Id, kind: Bytes)
    requires IsArrived(h, jobs, id, kind)
    ensures id in Triage(h, jobs) && Triage(h, jobs)[id].state == N4 && Triage(h, jobs)[id].kind == LPad(kind, 5)
    ensures Triage(h, jobs)[id].data == jobs[id].data
  {
    hide HashOk, LPad, TypeField, DestField, Roots;
  }

  lemma ArrivedChecked(t: Tables, env: Env, u: Tables, id: Id, kind: Bytes)
    requires IsArrived(env.h, t.jobs, id, kind) && Check(t, env) == Some(u)
    ensures id in u.jobs && u.jobs[id].state == N4 && u.jobs[id].kind == LPad(kind, 5)
    ensures id in Pending(u.jobs, kind)
  {
    hide Triage, LPad, CountsReadable, Complete, IsArrived;
    ArrivedTriaged(env.h, t.jobs, id, kind);
  }

  // ---- a pass that records -----------------------------------------------------------------

  /** A pass that succeeds with a request among its rows records the agreement. */
  lemma PassRecordsRequest(h: Md5, t: Tables, env: Env, u: Tables, peer: Self, id: Id)
    requires env.h == h && NodeOk(h, t, peer) && Pass(t, env) == Some(u) && IsArrived(h, t.jobs, id, TYPE_REQUEST)
    ensures Recorded(u.sysinfo, EndpointOf(peer), t.self, peer)
  {
    hide Pass, Check, Consensus, Split, Connect, Ask, AcceptRequest, Answer, AcceptReply, Closed, RowsHonest, SysOk,
      NoticesOk, Pending, IsArrived, Evolves, SplittingRows, SelfOk;
    var t1, t2, t3 := PassStages(t, env, u);
    CheckHonest(h, t, env, t1, peer);
    ArrivedChecked(t, env, t1, id, TYPE_REQUEST);
    var asked, accepted, answered, resolved := ConsensusStages(t1, env, t2);
    AskHonest(h, t1, env, asked, peer);
    AskKeepsPending(t1, env, asked, TYPE_REQUEST);
    AcceptRequestExact(h, asked, peer);
    AcceptRequestOk(h, asked, accepted, peer);
    AnswerHonest(h, accepted, env, answered, peer);
    AcceptReplyStays(answered, resolved);
    AgreedIsSet(t.self, peer, t);
    SplitEvolves(t2, env, t3);
    ConnectKeeps(t3, env, u);
  }

  lemma AgreedIsSet(me: Self, peer: Self, t: Tables)
    requires SelfOk(me) && SelfOk(peer)
    ensures Agreed(me, peer) != 0
  {
  }

  /** A pass that succeeds with a reply among its rows records the agreement for a peer it knows. */
  lemma PassRecordsReply(h: Md5, t: Tables, env: Env, u: Tables, peer: Self, id: Id)
    requires env.h == h && NodeOk(h, t, peer) && Pass(t, env) == Some(u) && IsArrived(h, t.jobs, id, TYPE_REPLY)
    requires EndpointOf(peer) in t.sysinfo
    ensures Recorded(u.sysinfo, EndpointOf(peer), t.self, peer)
  {
    hide Pass, Check, Consensus, Split, Connect, Ask, AcceptRequest, Answer, AcceptReply, Closed, RowsHonest, SysOk,
      NoticesOk, Pending, KnownReplies, IsArrived, Evolves, SplittingRows, SelfOk;
    var t1, t2, t3 := PassStages(t, env, u);
    CheckHonest(h, t, env, t1, peer);
    ArrivedChecked(t, env, t1, id, TYPE_REPLY);
    var asked, accepted, answered, resolved := ConsensusStages(t1, env, t2);
    AskHonest(h, t1, env, asked, peer);
    AskKeepsPending(t1, env, asked, TYPE_REPLY);
    AcceptRequestOk(h, asked, accepted, peer);
    AcceptRequestStays(h, asked, accepted, peer);
    AnswerHonest(h, accepted, env, answered, peer);
    AnswerKeepsReplies(accepted, env, answered);
    ReplyKnown(h, answered, peer, id);
    AcceptReplyExact(h, answered, peer);
    SplitEvolves(t2, env, t3);
    ConnectKeeps(t3, env, u);
  }

  lemma ReplyKnown(h: Md5, t: Tables, peer: Self, id: Id)
    requires NodeOk(h, t, peer) && id in Pending(t.jobs, TYPE_REPLY) && EndpointOf(peer) in t.sysinfo
    ensures id in KnownReplies(t)
  {
    hide HashOk, RowsHonest, SysOk, NoticesOk, CapacityField, PortField, IpField, ReplyIpField, SourceField,
      TypeField, LPad;
    PendingHonest(h, t, peer, id, TYPE_REPLY);
    TypesDifferent();
  }
}
