/** The left node's two sending programs in the network: what the sender sends is what the network carries. */
module NodeInNet {
  import opened Text
  import opened Message
  import opened Chunks
  import opened Tables
  import opened RunJobs
  import opened StateGraph
  import opened Handshake
  import opened HandshakeRuns
  import JobRuns
  import JobProperties
  import N = NodeRuns
  import P = Pipeline
  import PI = PipelineInv
  import PP = PipelineProperties
  import PR = PipelineRuns

  /** The network, with the left node's tables in the hands of its processor and sender. */
  datatype Link = Link(net: Net, pipe: P.Pipe)

  /** An event of the left node, a consensus message sent on its own connection, or a step of the right node. */
  datatype LinkStep = Node(e: N.Event) | Mail(id: Id) | Peer(step: SideStep)

  /** The data of a successful send. */
  predicate Sends(a: P.Pipe, e: N.Event) {
    e == N.Program(P.DoSend(true)) && a.s.SSend?
  }

  ghost predicate LinkNext(h: Md5, roots: RootPair, a: Link, step: LinkStep, b: Link) {
    match step
    case Node(e) =>
      && N.NodeNext(h, roots.left, a.pipe, e, b.pipe)
      && (e.Job? && e.step.Arrive? ==> e.step.data in a.net.fromRight || !HashOk(h, e.step.data))
      && b.net == a.net.(left := b.pipe.t,
                         fromLeft := a.net.fromLeft + if Sends(a.pipe, e) then {a.pipe.s.dmsg.data} else {})
    case Mail(id) =>
      && id in a.net.left.jobs && a.net.left.jobs[id].state == S5 && b.pipe == a.pipe
      && NameKnown(a.net.left.sysinfo, a.net.left.jobs[id].dest)
      && b.net == a.net.(fromLeft := a.net.fromLeft + {a.net.left.jobs[id].data})
    case Peer(s) => NetNext(h, roots, a.net, Right(s), b.net) && b.pipe == a.pipe
  }

  ghost predicate LinkInit(roots: RootPair, link: Link) {
    NetInit(roots, link.net) && P.Init(link.pipe) && link.pipe.t == link.net.left
  }

  ghost predicate IsLinkRun(h: Md5, roots: RootPair, run: seq<Link>, steps: seq<LinkStep>) {
    && |run| == |steps| + 1 && LinkInit(roots, run[0])
    && forall i :: 0 <= i < |steps| ==> LinkNext(h, roots, run[i], steps[i], run[i + 1])
  }

  // ---- as a run of the two programs --------------------------------------------------------

  function EventOf(step: LinkStep): N.Event {
    if step.Node? then step.e else N.Receiver
  }

  function Pipes(run: seq<Link>): (r: seq<P.Pipe>)
    ensures |r| == |run| && forall i :: 0 <= i < |r| ==> r[i] == run[i].pipe
  {
    seq(|run|, (i: nat) requires i < |run| => run[i].pipe)
  }

  function Events(steps: seq<LinkStep>): (r: seq<N.Event>)
    ensures |r| == |steps| && forall i :: 0 <= i < |r| ==> r[i] == EventOf(steps[i])
  {
    seq(|steps|, (i: nat) requires i < |steps| => EventOf(steps[i]))
  }

  lemma LinkIsEvent(h: Md5, roots: RootPair, a: Link, step: LinkStep, b: Link)
    requires LinkNext(h, roots, a, step, b)
    ensures N.NodeNext(h, roots.left, a.pipe, EventOf(step), b.pipe)
  {
    hide P.Next, JobRuns.Next, NetNext, HashOk;
  }

  lemma LinkIsPipeRun(h: Md5, roots: RootPair, run: seq<Link>, steps: seq<LinkStep>)
    requires IsLinkRun(h, roots, run, steps)
    ensures PR.IsRun(Pipes(run), N.Acts(Events(steps)))
  {
    hide LinkNext, N.NodeNext, P.Next, P.Init, NetInit;
    forall i | 0 <= i < |steps| ensures P.Next(run[i].pipe, N.ActOf(EventOf(steps[i])), run[i + 1].pipe) {
      assert LinkNext(h, roots, run[i], steps[i], run[i + 1]);
      LinkIsEvent(h, roots, run[i], steps[i], run[i + 1]);
      N.EventIsAct(h, roots.left, run[i].pipe, EventOf(steps[i]), run[i + 1].pipe);
    }
  }

  lemma {:induction false} StaysCoupled(h: Md5, roots: RootPair, run: seq<Link>, steps: seq<LinkStep>, n: nat)
    requires IsLinkRun(h, roots, run, steps) && n < |run|
    ensures run[n].pipe.t == run[n].net.left
  {
    hide N.NodeNext, NetInit, P.Init, SideNext;
    if n > 0 {
      StaysCoupled(h, roots, run, steps, n - 1);
      assert LinkNext(h, roots, run[n - 1], steps[n - 1], run[n]);
    }
  }

  // ---- as a run of the network -------------------------------------------------------------

  function NetStepOf(a: Link, step: LinkStep): NetStep {
    match step
    case Node(e) => Left(if Sends(a.pipe, e) then Transmit(a.pipe.s.dmsg.uuid) else Local(N.StepOf(a.pipe, e)))
    case Mail(id) => Left(Transmit(id))
    case Peer(s) => Right(s)
  }

  function Nets(run: seq<Link>): (r: seq<Net>)
    ensures |r| == |run| && forall i :: 0 <= i < |r| ==> r[i] == run[i].net
  {
    seq(|run|, (i: nat) requires i < |run| => run[i].net)
  }

  function NetSteps(run: seq<Link>, steps: seq<LinkStep>): (r: seq<NetStep>)
    requires |run| == |steps| + 1
    ensures |r| == |steps| && forall i :: 0 <= i < |r| ==> r[i] == NetStepOf(run[i], steps[i])
  {
    seq(|steps|, (i: nat) requires i < |steps| => NetStepOf(run[i], steps[i]))
  }

  /** The row in the sender's hands is in S-4W and holds what is sent. */
  predicate HoldsRow(st: P.Pipe) {
    st.s.SSend? ==> PP.InS4W(st.t, st.s.dmsg.uuid) && st.t.jobs[st.s.dmsg.uuid].data == st.s.dmsg.data
  }

  lemma SentIsRow(run: seq<P.Pipe>, acts: seq<P.Act>, n: nat)
    requires PR.IsRun(run, acts) && n < |run|
    ensures HoldsRow(run[n])
  {
    hide P.Next, P.Init, PI.Inv;
    if run[n].s.SSend? {
      var d := run[n].s.dmsg;
      PR.RunInv(run, acts, n);
      InHand(run[n]);
      var k := PR.DataOrigin(run, acts, n, d);
      PR.RowStays(run, acts, k, n, d.uuid);
    }
  }

  lemma InHand(st: P.Pipe)
    requires PI.Inv(st) && st.s.SSend?
    ensures PP.InS4W(st.t, st.s.dmsg.uuid)
    ensures PR.HasData(st, st.s.dmsg)
  {
    hide PI.Locks, PI.Found, PI.Directed, PI.Numbered, PI.Covered;
    assert PI.TokenAt(st, PI.AtSender) == Some(PI.JobTok(st.s.dmsg.uuid));
  }

  /** A send of the sender's is the transmission of a row, and every other event is a job step. */
  lemma LinkIsNetStep(h: Md5, roots: RootPair, a: Link, step: LinkStep, b: Link)
    requires LinkNext(h, roots, a, step, b) && a.pipe.t == a.net.left && PI.Inv(a.pipe) && HoldsRow(a.pipe)
    ensures NetNext(h, roots, a.net, NetStepOf(a, step), b.net)
  {
    hide PI.Inv, P.Next, JobRuns.Next, HashOk;
    match step
    case Node(e) =>
      if Sends(a.pipe, e) {
        SendLeavesTables(h, roots.left, a.pipe, b.pipe);
      } else {
        N.EventIsJobStep(h, roots.left, a.pipe, e, b.pipe);
        QuietNotices(h, roots.left, a.pipe, e, b.pipe);
      }
    case Mail(id) =>
    case Peer(s) =>
  }

  lemma SendLeavesTables(h: Md5, root: Id, a: P.Pipe, b: P.Pipe)
    requires N.NodeNext(h, root, a, N.Program(P.DoSend(true)), b)
    ensures b.t == a.t
  {
    hide P.Next;
    PP.TablesChange(a, P.DoSend(true), b);
  }

  /** The programs add no notices, and their steps bring no rows. */
  lemma QuietNotices(h: Md5, root: Id, a: P.Pipe, e: N.Event, b: P.Pipe)
    requires N.NodeNext(h, root, a, e, b)
    ensures N.StepOf(a, e).Elsewhere? ==> b.t.notices <= a.t.notices
    ensures N.StepOf(a, e).Arrive? ==> e.Job?
  {
    hide P.Next, JobRuns.Next, ParseInt;
    if e.Program? { PP.TablesChange(a, e.act, b); }
  }

  /** A run of both together is a run of the network, whose data messages are exactly those the sender sends, and a
      run of the left node, whose sysinfo is in order without being assumed to be. */
  lemma LinkIsBoth(h: Md5, roots: RootPair, run: seq<Link>, steps: seq<LinkStep>)
    requires IsLinkRun(h, roots, run, steps)
    ensures IsNetRun(h, roots, Nets(run), NetSteps(run, steps))
    ensures N.IsNodeRun(h, roots.left, Pipes(run), Events(steps))
  {
    hide LinkNext, N.NodeNext, P.Next, P.Init, PI.Inv, NetNext, HoldsRow, JobRuns.Config, JobProperties.Init;
    LinkIsPipeRun(h, roots, run, steps);
    forall i | 0 <= i < |steps| ensures NetNext(h, roots, run[i].net, NetStepOf(run[i], steps[i]), run[i + 1].net) {
      assert LinkNext(h, roots, run[i], steps[i], run[i + 1]);
      PR.RunInv(Pipes(run), N.Acts(Events(steps)), i);
      SentIsRow(Pipes(run), N.Acts(Events(steps)), i);
      StaysCoupled(h, roots, run, steps, i);
      LinkIsNetStep(h, roots, run[i], steps[i], run[i + 1]);
    }
    assert IsNetRun(h, roots, Nets(run), NetSteps(run, steps));
    forall i | 0 <= i < |steps| ensures N.NodeStep(h, roots.left, Pipes(run), Events(steps), i) {
      assert LinkNext(h, roots, run[i], steps[i], run[i + 1]);
      LinkIsEvent(h, roots, run[i], steps[i], run[i + 1]);
      OrderedSysinfo(h, roots, run, steps, i + 1);
    }
    StartsAsNode(roots, run[0]);
  }

  lemma OrderedSysinfo(h: Md5, roots: RootPair, run: seq<Link>, steps: seq<LinkStep>, n: nat)
    requires IsLinkRun(h, roots, run, steps) && n < |run|
    requires IsNetRun(h, roots, Nets(run), NetSteps(run, steps))
    ensures JobRuns.Config(run[n].pipe.t.sysinfo)
  {
    hide IsNetRun, LinkNext, LinkInit, JobRuns.Config, NodeOk, AllHonest;
    NetRunOk(h, roots, Nets(run), NetSteps(run, steps), n);
    ConfigFollows(h, run[n].net.left, run[n].net.right.self);
    StaysCoupled(h, roots, run, steps, n);
  }

  lemma StartsAsNode(roots: RootPair, link: Link)
    requires LinkInit(roots, link)
    ensures N.NodeInit(roots.left, link.pipe)
  {
    hide P.Init, JobProperties.Init, SelfOk;
  }

  // ---- what completion means for the peer --------------------------------------------------

  lemma {:induction false} SaidStays(h: Md5, roots: RootPair, run: seq<Link>, steps: seq<LinkStep>, i: nat, j: nat)
    requires IsLinkRun(h, roots, run, steps) && i <= j < |run|
    ensures run[i].net.fromLeft <= run[j].net.fromLeft
  {
    hide N.NodeNext, NetInit, P.Init, SideNext;
    if i < j {
      SaidStays(h, roots, run, steps, i, j - 1);
      assert LinkNext(h, roots, run[j - 1], steps[j - 1], run[j]);
    }
  }

  /** If a step of any run completes a file job, all its children have been given to the network before, each
      with exactly the data of its row, and those rows carry exactly the file. */
  lemma CompletedFileWasSaid(h: Md5, roots: RootPair, run: seq<Link>, steps: seq<LinkStep>, n: nat, p: Id)
    requires IsLinkRun(h, roots, run, steps) && n < |steps|
    requires p in run[n].net.left.jobs && p != roots.left
    requires run[n].net.left.jobs[p].state == S2W || run[n].net.left.jobs[p].state == S3W
    requires p in run[n + 1].net.left.jobs && run[n + 1].net.left.jobs[p].state == C
    ensures forall c :: c in Children(run[n].net.left.jobs, p) ==>
              c in run[n].net.left.jobs && run[n].net.left.jobs[c].data in run[n].net.fromLeft
    ensures run[n].net.left.jobs[p].state == S2W ==> JobRuns.FullSet(h, run[n].net.left, p)
    ensures run[n].net.left.jobs[p].state == S3W ==> JobRuns.SingleSet(h, run[n].net.left, p)
  {
    hide IsLinkRun, NetNext, NetInit, N.IsNodeRun, JobRuns.FullSet, JobRuns.SingleSet, JobProperties.IsRun;
    LinkIsBoth(h, roots, run, steps);
    StaysCoupled(h, roots, run, steps, n);
    StaysCoupled(h, roots, run, steps, n + 1);
    forall c | c in Children(run[n].net.left.jobs, p)
      ensures run[n].net.left.jobs[c].data in run[n].net.fromLeft
    {
      var k, j := N.CompletedFileWasSent(h, roots.left, Pipes(run), Events(steps), n, p, c);
      SentIsSaid(h, roots, run, steps, j);
      SaidStays(h, roots, run, steps, j + 1, n);
    }
    LeftIsJobRun(h, roots, Nets(run), NetSteps(run, steps));
    SetsInRun(h, roots.left, LeftTables(Nets(run)), LeftSteps(NetSteps(run, steps)), n, p);
  }

  lemma SetsInRun(h: Md5, root: Id, run: seq<Tables>, steps: seq<JobRuns.JobStep>, n: nat, p: Id)
    requires JobProperties.IsRun(h, root, run, steps) && n < |run| && p in run[n].jobs && p != root
    ensures run[n].jobs[p].state == S2W ==> JobRuns.FullSet(h, run[n], p)
    ensures run[n].jobs[p].state == S3W ==> JobRuns.SingleSet(h, run[n], p)
  {
    hide JobProperties.IsRun, JobRuns.FullSet, JobRuns.SingleSet, JobRuns.RowOk;
    JobProperties.RunInv(h, root, run, steps, n);
    assert JobRuns.ParentOk(h, run[n], p);
  }

  lemma SentIsSaid(h: Md5, roots: RootPair, run: seq<Link>, steps: seq<LinkStep>, j: nat)
    requires IsLinkRun(h, roots, run, steps) && j < |steps|
    requires N.ActOf(EventOf(steps[j])) == P.DoSend(true) && run[j].pipe.s.SSend?
    ensures run[j].pipe.s.dmsg.data in run[j + 1].net.fromLeft
  {
    hide N.NodeNext, NetInit, P.Init, SideNext, HashOk;
    assert LinkNext(h, roots, run[j], steps[j], run[j + 1]);
  }
}
