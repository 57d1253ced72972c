/** Two nodes with the right node's receiving side in between: what its receiver is told is what its tables
    hold, what its processor stores becomes a row, and what it takes off the wire was said or is damaged. */
module TwoNodes {
  import opened Text
  import opened Message
  import opened Chunks
  import opened Tables
  import opened RunJobs
  import opened StateGraph
  import opened JobRuns
  import opened Handshake
  import opened HandshakeRuns
  import Channels
  import Transfers
  import ConsensusEffects
  import HashSpec
  import RS = Receiving
  import RR = ReceivingRuns

  /** The network of two nodes, and the right node's receiver and processor. */
  datatype Joint = Joint(net: Net, side: RS.Side)

  /** A step of the network, or of the right node's receiving side; a stored message gets a uuid and a source. */
  datatype JointStep = OfNet(step: NetStep) | OfSide(act: RS.Act, id: Id, source: Bytes)

  /** The right node's tables, as its receiving side sees them. */
  predicate Coupled(j: Joint) {
    j.side.notices == j.net.right.notices && j.side.own == j.net.right.self.ip
  }

  /** The step of the network that a step of the receiving side is. */
  function NetStepOf(a: Joint, step: JointStep): NetStep {
    match step
    case OfNet(s) => s
    case OfSide(act, id, source) =>
      if act.StoreData? && a.side.p.RStoreData? && a.side.p.slot in a.side.datas
      then Right(Local(Arrive(id, a.side.datas[a.side.p.slot].data, source)))
      else Right(Local(Elsewhere))
  }

  /** The step of the receiving side that a step of the network is. */
  function ActOf(step: JointStep): RS.Act {
    if step.OfSide? then step.act else RS.Environment
  }

  /** Only the receiving side consumes notices. */
  predicate KeepsNotices(step: NetStep, a: Net, b: Net) {
    step == Right(Local(Elsewhere)) ==> b.right.notices == a.right.notices
  }

  /** What the receiver takes was said by the left node, or fails the hash check. */
  predicate Genuine(h: Md5, said: set<Bytes>, m: Bytes) {
    m in said || !HashOk(h, m)
  }

  ghost predicate JointNext(h: Md5, roots: RootPair, a: Joint, step: JointStep, b: Joint) {
    match step
    case OfNet(s) =>
      && NetNext(h, roots, a.net, s, b.net) && KeepsNotices(s, a.net, b.net)
      && b.side == a.side.(notices := b.net.right.notices)
    case OfSide(act, id, source) =>
      && !act.Environment? && RS.Next(a.side, act, b.side)
      && (act.Receive? ==> Genuine(h, a.net.fromLeft, act.data))
      && (if act.StoreData? then
            && id !in a.net.right.jobs && a.side.p.RStoreData? && a.side.p.slot in a.side.datas
            && b.net == a.net.(right := a.net.right.(jobs :=
                 a.net.right.jobs[id := Arrival(roots.right, a.side.datas[a.side.p.slot].data, source)]))
          else b.net == a.net.(right := a.net.right.(notices := b.side.notices)))
  }

  // ---- the invariant -----------------------------------------------------------------------

  /** Every message between the wire and the table is genuine. */
  predicate AllGenuine(h: Md5, said: set<Bytes>, side: RS.Side) {
    && (forall i :: i in side.datas ==> Genuine(h, said, side.datas[i].data))
    && (side.v.VGiveData? || side.v.VTryData? ==> Genuine(h, said, side.v.msg.data))
  }

  ghost predicate JointOk(h: Md5, j: Joint) {
    Coupled(j) && NetOk(h, j.net) && AllGenuine(h, j.net.fromLeft, j.side)
  }

  lemma GenuineByProcessor(h: Md5, said: set<Bytes>, a: RS.Side, act: RS.Act, b: RS.Side)
    requires AllGenuine(h, said, a) && RS.ProcessorStep(a, act, b)
    ensures AllGenuine(h, said, b)
  {
    hide AllGenuine, RS.MsgStep, RS.DataStep, RS.SizeStep;
    if RS.MsgStep(a, act, b) { GenuineByMsg(h, said, a, act, b); }
    else if RS.DataStep(a, act, b) { GenuineByData(h, said, a, act, b); }
    else { GenuineBySize(h, said, a, act, b); }
  }

  lemma GenuineByMsg(h: Md5, said: set<Bytes>, a: RS.Side, act: RS.Act, b: RS.Side)
    requires AllGenuine(h, said, a) && RS.MsgStep(a, act, b)
    ensures AllGenuine(h, said, b)
  {
    hide Genuine, Channels.IsFirst, RS.Upsert;
  }

  lemma GenuineByData(h: Md5, said: set<Bytes>, a: RS.Side, act: RS.Act, b: RS.Side)
    requires AllGenuine(h, said, a) && RS.DataStep(a, act, b)
    ensures AllGenuine(h, said, b)
  {
    hide Genuine, Channels.IsFirst;
  }

  lemma GenuineBySize(h: Md5, said: set<Bytes>, a: RS.Side, act: RS.Act, b: RS.Side)
    requires AllGenuine(h, said, a) && RS.SizeStep(a, act, b)
    ensures AllGenuine(h, said, b)
  {
    hide Genuine, Channels.IsFirst, RS.IpKey, RS.Printable;
  }

  lemma GenuineByReceiver(h: Md5, said: set<Bytes>, a: RS.Side, act: RS.Act, b: RS.Side)
    requires AllGenuine(h, said, a) && RS.ReceiverStep(a, act, b)
    requires act.Receive? ==> Genuine(h, said, act.data)
    ensures AllGenuine(h, said, b)
  {
    hide AllGenuine, Genuine, RS.TakeStep, RS.GiveStep, RS.EventStep;
    if RS.TakeStep(a, act, b) { GenuineByTake(h, said, a, act, b); }
    else if RS.GiveStep(a, act, b) { GenuineByGive(h, said, a, act, b); }
    else { GenuineByEvent(h, said, a, act, b); }
  }

  lemma GenuineByTake(h: Md5, said: set<Bytes>, a: RS.Side, act: RS.Act, b: RS.Side)
    requires AllGenuine(h, said, a) && RS.TakeStep(a, act, b)
    ensures AllGenuine(h, said, b)
  {
    hide Genuine, Channels.IsFirst, HashSpec.Put;
  }

  lemma GenuineByGive(h: Md5, said: set<Bytes>, a: RS.Side, act: RS.Act, b: RS.Side)
    requires AllGenuine(h, said, a) && RS.GiveStep(a, act, b)
    requires act.Receive? ==> Genuine(h, said, act.data)
    ensures AllGenuine(h, said, b)
  {
    hide Genuine, Channels.IsFirst, HashSpec.Get;
  }

  lemma GenuineByEvent(h: Md5, said: set<Bytes>, a: RS.Side, act: RS.Act, b: RS.Side)
    requires AllGenuine(h, said, a) && RS.EventStep(a, act, b)
    ensures AllGenuine(h, said, b)
  {
    hide Genuine, Channels.IsFirst;
  }

  lemma GenuineStep(h: Md5, said: set<Bytes>, a: RS.Side, act: RS.Act, b: RS.Side)
    requires AllGenuine(h, said, a) && RS.Next(a, act, b) && (act.Receive? ==> Genuine(h, said, act.data))
    ensures AllGenuine(h, said, b)
  {
    hide Genuine, RS.ProcessorStep, RS.ReceiverStep;
    if RS.ProcessorStep(a, act, b) { GenuineByProcessor(h, said, a, act, b); }
    else if RS.ReceiverStep(a, act, b) { GenuineByReceiver(h, said, a, act, b); }
  }

  lemma MoreSaid(h: Md5, said: set<Bytes>, more: set<Bytes>, side: RS.Side)
    requires AllGenuine(h, said, side) && said <= more
    ensures AllGenuine(h, more, side)
  {
    hide HashOk;
  }

  // ---- notices only grow except by the receiving side --------------------------------------

  lemma PassNotices(t: Tables, env: Env, u: Tables)
    requires Pass(t, env) == Some(u)
    ensures t.notices <= u.notices
  {
    hide Pass, Check, Consensus, Split, Connect, Ask, AcceptRequest, Answer, AcceptReply, Closed, Evolves,
      CompletedRows, SplittingRows;
    var t1, t2, t3 := PassStages(t, env, u);
    CheckEvolves(t, env, t1);
    var asked, accepted, answered, resolved := ConsensusStages(t1, env, t2);
    AskEvolves(t1, env, asked);
    RequestNotices(asked, accepted);
    AnswerEvolves(accepted, env, answered);
    ReplyNotices(answered, resolved);
    SplitEvolves(t2, env, t3);
    ConnectKeeps(t3, env, u);
  }

  lemma RequestNotices(t: Tables, u: Tables)
    requires AcceptRequest(t) == Some(u)
    ensures t.notices <= u.notices
  {
    hide Readable, CapacityField, PortField, IpField, SourceField, LPad, Pending;
  }

  lemma ReplyNotices(t: Tables, u: Tables)
    requires AcceptReply(t) == Some(u)
    ensures t.notices <= u.notices
  {
    hide ReadableReply, CapacityField, PortField, SourceField, LPad, Pending, KnownReplies;
  }

  lemma NetNotices(h: Md5, roots: RootPair, a: Net, step: NetStep, b: Net)
    requires NetNext(h, roots, a, step, b) && KeepsNotices(step, a, b)
    ensures a.right.notices <= b.right.notices && a.fromLeft <= b.fromLeft
  {
    hide Pass, HashOk, JobRuns.Next;
    match step
    case Left(s) =>
    case Right(s) => if s.Local? { RightNotices(h, roots.right, a.right, s.step, b.right); }
  }

  lemma RightNotices(h: Md5, root: Id, t: Tables, js: JobStep, u: Tables)
    requires JobRuns.Next(h, root, t, js, u) && (js.Elsewhere? ==> u.notices == t.notices)
    ensures t.notices <= u.notices
  {
    hide Pass, LPad;
    if js.RunPass? { PassNotices(t, js.env, u); }
  }

  // ---- each step is a step of both ---------------------------------------------------------

  lemma SideNotices(a: RS.Side, act: RS.Act, b: RS.Side)
    requires RS.Next(a, act, b) && !act.Environment?
    ensures b.notices <= a.notices
  {
    hide RS.MsgStep, RS.DataStep, RS.SizeStep, RS.ReceiverStep;
    if RS.MsgStep(a, act, b) || RS.DataStep(a, act, b) { NoticesByStore(a, act, b); }
    else if RS.SizeStep(a, act, b) { NoticesBySize(a, act, b); }
    else if RS.ReceiverStep(a, act, b) { NoticesByReceiver(a, act, b); }
  }

  lemma NoticesByStore(a: RS.Side, act: RS.Act, b: RS.Side)
    requires RS.MsgStep(a, act, b) || RS.DataStep(a, act, b)
    ensures b.notices == a.notices
  {
    hide Channels.IsFirst, RS.Upsert;
  }

  lemma NoticesBySize(a: RS.Side, act: RS.Act, b: RS.Side)
    requires RS.SizeStep(a, act, b)
    ensures b.notices <= a.notices
  {
    hide Channels.IsFirst, RS.IpKey, RS.Printable;
  }

  lemma NoticesByReceiver(a: RS.Side, act: RS.Act, b: RS.Side)
    requires RS.ReceiverStep(a, act, b)
    ensures b.notices == a.notices
  {
    hide Channels.IsFirst, HashSpec.Put, HashSpec.Get;
  }

  lemma StepIsBoth(h: Md5, roots: RootPair, a: Joint, step: JointStep, b: Joint)
    requires JointOk(h, a) && JointNext(h, roots, a, step, b)
    ensures NetNext(h, roots, a.net, NetStepOf(a, step), b.net)
    ensures RS.Next(a.side, ActOf(step), b.side)
  {
    hide NetOk, HashOk, RS.ProcessorStep, RS.ReceiverStep, Pass, LPad;
    match step
    case OfNet(s) =>
      NetNotices(h, roots, a.net, s, b.net);
    case OfSide(act, id, source) =>
      if !act.StoreData? { SideNotices(a.side, act, b.side); }
  }

  lemma StoreKeepsNotices(a: RS.Side, b: RS.Side)
    requires RS.Next(a, RS.StoreData, b)
    ensures b.notices == a.notices
  {
    hide Channels.IsFirst, RS.IpKey, RS.Printable, RS.Upsert, HashSpec.Put, HashSpec.Get;
  }

  lemma JointStepOk(h: Md5, roots: RootPair, a: Joint, step: JointStep, b: Joint)
    requires JointOk(h, a) && JointNext(h, roots, a, step, b)
    ensures JointOk(h, b)
    ensures NetNext(h, roots, a.net, NetStepOf(a, step), b.net)
    ensures RS.Next(a.side, ActOf(step), b.side)
  {
    hide NetOk, NetNext, AllGenuine, RS.Next, Genuine;
    StepIsBoth(h, roots, a, step, b);
    NetStepOk(h, roots, a.net, NetStepOf(a, step), b.net);
    match step
    case OfNet(s) =>
      NetNotices(h, roots, a.net, s, b.net);
      SameDatas(h, a.net.fromLeft, a.side, b.side);
      MoreSaid(h, a.net.fromLeft, b.net.fromLeft, b.side);
    case OfSide(act, id, source) =>
      GenuineStep(h, a.net.fromLeft, a.side, act, b.side);
      RR.OwnStep(a.side, act, b.side);
      if act.StoreData? { StoreKeepsNotices(a.side, b.side); }
  }

  lemma SameDatas(h: Md5, said: set<Bytes>, a: RS.Side, b: RS.Side)
    requires AllGenuine(h, said, a) && b == a.(notices := b.notices)
    ensures AllGenuine(h, said, b)
  {
    hide Genuine;
  }

  // ---- runs --------------------------------------------------------------------------------

  ghost predicate JointInit(roots: RootPair, j: Joint) {
    NetInit(roots, j.net) && RS.Init(j.side) && Coupled(j)
  }

  ghost predicate IsJointRun(h: Md5, roots: RootPair, run: seq<Joint>, steps: seq<JointStep>) {
    && |run| == |steps| + 1 && JointInit(roots, run[0])
    && forall i :: 0 <= i < |steps| ==> JointNext(h, roots, run[i], steps[i], run[i + 1])
  }

  lemma {:induction false} JointRunOk(h: Md5, roots: RootPair, run: seq<Joint>, steps: seq<JointStep>, n: nat)
    requires IsJointRun(h, roots, run, steps) && n < |run|
    ensures JointOk(h, run[n])
  {
    hide JointNext, JointOk;
    if n == 0 {
      JointInitOk(h, roots, run[0]);
    } else {
      JointRunOk(h, roots, run, steps, n - 1);
      assert JointNext(h, roots, run[n - 1], steps[n - 1], run[n]);
      JointStepOk(h, roots, run[n - 1], steps[n - 1], run[n]);
    }
  }

  lemma JointInitOk(h: Md5, roots: RootPair, j: Joint)
    requires JointInit(roots, j)
    ensures JointOk(h, j)
  {
    hide NetInit, NetOk, Genuine;
    NetInitOk(h, roots, j.net);
  }

  function Nets(run: seq<Joint>): (r: seq<Net>)
    ensures |r| == |run| && forall i :: 0 <= i < |r| ==> r[i] == run[i].net
  {
    seq(|run|, (i: nat) requires i < |run| => run[i].net)
  }

  function Sides(run: seq<Joint>): (r: seq<RS.Side>)
    ensures |r| == |run| && forall i :: 0 <= i < |r| ==> r[i] == run[i].side
  {
    seq(|run|, (i: nat) requires i < |run| => run[i].side)
  }

  function NetSteps(run: seq<Joint>, steps: seq<JointStep>): (r: seq<NetStep>)
    requires |run| == |steps| + 1
    ensures |r| == |steps| && forall i :: 0 <= i < |r| ==> r[i] == NetStepOf(run[i], steps[i])
  {
    seq(|steps|, (i: nat) requires i < |steps| => NetStepOf(run[i], steps[i]))
  }

  function Acts(steps: seq<JointStep>): (r: seq<RS.Act>)
    ensures |r| == |steps| && forall i :: 0 <= i < |r| ==> r[i] == ActOf(steps[i])
  {
    seq(|steps|, (i: nat) requires i < |steps| => ActOf(steps[i]))
  }

  /** A run of both together is a run of the two nodes and a run of the receiving side: what is proved of either
      holds with the other in between. */
  lemma JointIsBoth(h: Md5, roots: RootPair, run: seq<Joint>, steps: seq<JointStep>)
    requires IsJointRun(h, roots, run, steps)
    ensures IsNetRun(h, roots, Nets(run), NetSteps(run, steps))
    ensures RR.IsRun(Sides(run), Acts(steps))
  {
    hide JointNext, JointOk, NetNext, RS.Next;
    forall i | 0 <= i < |steps|
      ensures NetNext(h, roots, run[i].net, NetStepOf(run[i], steps[i]), run[i + 1].net)
      ensures RS.Next(run[i].side, ActOf(steps[i]), run[i + 1].side)
    {
      JointRunOk(h, roots, run, steps, i);
      assert JointNext(h, roots, run[i], steps[i], run[i + 1]);
      JointStepOk(h, roots, run[i], steps[i], run[i + 1]);
    }
  }

  // ---- sizes -------------------------------------------------------------------------------

  lemma ToldTheAgreement(h: Md5, roots: RootPair, run: seq<Joint>, steps: seq<JointStep>, n: nat)
    requires IsJointRun(h, roots, run, steps) && n < |run|
    ensures RR.NoticesFor(run[n].side.notices, run[0].net.left.self.ip,
        Agreed(run[0].net.left.self, run[0].net.right.self))
    ensures run[n].side.own == run[0].net.right.self.ip
    ensures IsAddress(run[0].net.left.self.ip) && IsAddress(run[0].net.right.self.ip)
  {
    hide IsJointRun, RowsHonest, SysOk, AllHonest, AllGenuine;
    JointRunOk(h, roots, run, steps, n);
    JointIsBoth(h, roots, run, steps);
    SelvesStay(h, roots, run, steps, n);
  }

  lemma SelvesStay(h: Md5, roots: RootPair, run: seq<Joint>, steps: seq<JointStep>, n: nat)
    requires IsJointRun(h, roots, run, steps) && n < |run|
    ensures run[n].net.left.self == run[0].net.left.self && run[n].net.right.self == run[0].net.right.self
  {
    hide JointNext, JointInit, IsNetRun;
    JointIsBoth(h, roots, run, steps);
    NetRunOk(h, roots, Nets(run), NetSteps(run, steps), n);
  }

  /** The sizes of the two nodes match exactly when they share an address below 2^31. In every run, whatever the
      right node's receiver takes as one message has the agreed length, which fits its buffer, and it takes
      something only if the left node's address is its own and fits an INTEGER. */
  lemma SizesMatchExactly(h: Md5, roots: RootPair, run: seq<Joint>, steps: seq<JointStep>, n: nat)
    requires IsJointRun(h, roots, run, steps) && n < |steps| && ActOf(steps[n]).Receive?
    ensures var left, right := run[0].net.left.self, run[0].net.right.self;
            && left.ip == right.ip && IsInteger(left.ip)
            && |ActOf(steps[n]).data| == Agreed(left, right) <= MESSAGE_SIZE
  {
    hide JointNext, JointInit, RR.IsRun, IsNetRun;
    var left, right := run[0].net.left.self, run[0].net.right.self;
    JointIsBoth(h, roots, run, steps);
    forall i | 0 <= i <= n ensures RR.NoticesFor(Sides(run)[i].notices, left.ip, Agreed(left, right)) {
      ToldTheAgreement(h, roots, run, steps, i);
    }
    ToldTheAgreement(h, roots, run, steps, n);
    RR.TakesExactly(Sides(run), Acts(steps), n, left.ip, Agreed(left, right));
    AgreedFits(h, roots, run, steps);
  }

  lemma AgreedFits(h: Md5, roots: RootPair, run: seq<Joint>, steps: seq<JointStep>)
    requires IsJointRun(h, roots, run, steps)
    ensures Agreed(run[0].net.left.self, run[0].net.right.self) <= MESSAGE_SIZE
  {
    hide JointNext, RowsHonest, SysOk, NoticesOk, AllHonest, AllGenuine;
    JointRunOk(h, roots, run, steps, 0);
  }

  /** When the two nodes share such an address, from the moment the size has been put into its table the receiver
      takes messages of exactly the agreed length. */
  lemma SharedAddressTakes(h: Md5, roots: RootPair, run: seq<Joint>, steps: seq<JointStep>, i: nat, n: nat)
    requires IsJointRun(h, roots, run, steps) && i < n < |run|
    requires run[0].net.left.self.ip == run[0].net.right.self.ip && IsInteger(run[0].net.left.self.ip)
    requires RR.Tells(run[i].side, ActOf(steps[i]), RS.IpKey(run[0].net.left.self.ip))
    ensures run[n].side.sizes.buckets != []
    ensures HashSpec.Get(run[n].side.sizes, RS.LookupKey(run[n].side.own)) ==
        Agreed(run[0].net.left.self, run[0].net.right.self)
  {
    hide JointNext, JointInit, RR.IsRun, IsNetRun, RR.Tells, HashSpec.Get, RS.LookupKey;
    var left, right := run[0].net.left.self, run[0].net.right.self;
    JointIsBoth(h, roots, run, steps);
    forall j | 0 <= j <= n ensures RR.NoticesFor(Sides(run)[j].notices, left.ip, Agreed(left, right)) {
      ToldTheAgreement(h, roots, run, steps, j);
    }
    ToldTheAgreement(h, roots, run, steps, n);
    RR.TakesOnceTold(Sides(run), Acts(steps), i, n, left.ip, Agreed(left, right));
  }

  /** So the receiver cuts the stream exactly where the left node's data messages end. */
  lemma TakesWholeMessages(h: Md5, roots: RootPair, run: seq<Joint>, steps: seq<JointStep>, n: nat, m: Bytes)
    requires IsJointRun(h, roots, run, steps) && n < |steps| && ActOf(steps[n]).Receive?
    requires m in run[n].net.fromLeft && TypeField(m) != LPad(TYPE_REQUEST, 5) && TypeField(m) != LPad(TYPE_REPLY, 5)
    ensures |ActOf(steps[n]).data| == |m|
  {
    hide JointNext, JointInit, RowsHonest, SysOk, NoticesOk, SelfOk, AllGenuine, HashOk, TypeField, LPad;
    SizesMatchExactly(h, roots, run, steps, n);
    SelvesStay(h, roots, run, steps, n);
    JointRunOk(h, roots, run, steps, n);
    assert Honest(h, run[n].net.left.self, run[n].net.right.self, m);
  }

  /** With the receiving side in between, the transfer is exact too: what its processor has stored and the right
      node has identified reassembles to the left node's file if and only if all its chunks are there. */
  lemma StoredFileExact(h: Md5, roots: RootPair, run: seq<Joint>, steps: seq<JointStep>, n: nat,
                        p: Id, info: Id, chunks: seq<Id>, capacity: int, rows: seq<Bytes>)
    requires IsJointRun(h, roots, run, steps) && n < |run|
    requires FullSetOf(h, run[n].net.left, p, info, chunks, capacity)
    requires |FileOf(run[n].net.left, p)| <= MAX_FILE && |chunks| <= MAX_CHUNKS
    requires forall m :: m in rows ==> Transfers.Arrived(run[n].net, m)
    ensures var t := run[n].net.left;
            Assemble(rows, p) == Some(FileOf(t, p)) <==>
            forall i :: 0 <= i < |chunks| ==> DataOf(t.jobs, chunks[i]) in rows
  {
    hide JointNext, JointInit, IsNetRun, FileOf, Assemble, FullSetOf, Transfers.Arrived;
    JointIsBoth(h, roots, run, steps);
    Transfers.TransferExact(h, roots, Nets(run), NetSteps(run, steps), n, p, info, chunks, capacity, rows);
  }

  // ---- what is agreed is told --------------------------------------------------------------

  /** The notice is in the table, or the receiving side has fetched it. */
  predicate Told(run: seq<Joint>, steps: seq<JointStep>, n: nat, notice: Notice)
    requires n < |run| == |steps| + 1
  {
    || notice in run[n].side.notices
    || exists k :: 0 <= k < n && steps[k].OfSide? && steps[k].act == RS.FetchSize(notice)
  }

  /** The receiving side takes exactly the notice it fetches. */
  lemma SideTakes(a: RS.Side, act: RS.Act, b: RS.Side)
    requires RS.Next(a, act, b) && !act.Environment?
    ensures b.notices == a.notices - if act.FetchSize? then multiset{act.n} else multiset{}
  {
    hide RS.MsgStep, RS.DataStep, RS.SizeStep, RS.ReceiverStep;
    if RS.MsgStep(a, act, b) || RS.DataStep(a, act, b) { NoticesByStore(a, act, b); StoreIsNoFetch(a, act, b); }
    else if RS.SizeStep(a, act, b) { SizeTakes(a, act, b); }
    else if RS.ReceiverStep(a, act, b) { NoticesByReceiver(a, act, b); ReceiverIsNoFetch(a, act, b); }
  }

  lemma StoreIsNoFetch(a: RS.Side, act: RS.Act, b: RS.Side)
    requires RS.MsgStep(a, act, b) || RS.DataStep(a, act, b)
    ensures !act.FetchSize?
  {
    hide Channels.IsFirst, RS.Upsert;
  }

  lemma ReceiverIsNoFetch(a: RS.Side, act: RS.Act, b: RS.Side)
    requires RS.ReceiverStep(a, act, b)
    ensures !act.FetchSize?
  {
    hide Channels.IsFirst, HashSpec.Put, HashSpec.Get;
  }

  lemma SizeTakes(a: RS.Side, act: RS.Act, b: RS.Side)
    requires RS.SizeStep(a, act, b)
    ensures b.notices == a.notices - if act.FetchSize? then multiset{act.n} else multiset{}
  {
    hide Channels.IsFirst, RS.IpKey, RS.Printable;
  }

  /** A step of the right node that writes a capacity adds its notice. */
  lemma WrittenIsTold(h: Md5, root: Id, t: Tables, js: JobStep, u: Tables, peer: Self, e: Endpoint)
    requires NodeOk(h, t, peer) && NodeOk(h, u, peer) && JobRuns.Next(h, root, t, js, u)
    requires js.Elsewhere? ==> u.notices == t.notices
    requires e in u.sysinfo && u.sysinfo[e].capacity != 0
    ensures || Notice(e.ip, u.sysinfo[e].capacity) in u.notices
            || (e in t.sysinfo && u.sysinfo[e].capacity == t.sysinfo[e].capacity)
  {
    hide Pass, NodeOk, ConsensusEffects.WillAgree, LPad;
    if js.RunPass? {
      ConsensusEffects.PassAgrees(h, t, js.env, u, peer);
      OnlyThePeer(h, u, peer, e);
    }
  }

  lemma OnlyThePeer(h: Md5, t: Tables, peer: Self, e: Endpoint)
    requires NodeOk(h, t, peer) && e in t.sysinfo
    ensures e == EndpointOf(peer)
  {
    hide RowsHonest, NoticesOk;
  }

  /** Whenever the right node holds an agreement, in any state of any run, the notice of it is on its way to the
      receiver, or has been fetched for it. */
  lemma {:induction false} AgreementIsTold(h: Md5, roots: RootPair, run: seq<Joint>, steps: seq<JointStep>, n: nat,
                                           e: Endpoint)
    requires IsJointRun(h, roots, run, steps) && n < |run|
    requires e in run[n].net.right.sysinfo && run[n].net.right.sysinfo[e].capacity != 0
    ensures Told(run, steps, n, Notice(e.ip, run[n].net.right.sysinfo[e].capacity))
  {
    hide JointNext, JointOk, JointInit, NodeOk;
    if n == 0 {
      FreshKnowsNothing(roots, run[0], e);
    } else {
      var a, b, notice := run[n - 1], run[n], Notice(e.ip, run[n].net.right.sysinfo[e].capacity);
      JointRunOk(h, roots, run, steps, n - 1);
      JointRunOk(h, roots, run, steps, n);
      assert JointNext(h, roots, a, steps[n - 1], b);
      SelvesStay(h, roots, run, steps, n);
      SelvesStay(h, roots, run, steps, n - 1);
      StepTells(h, roots, a, steps[n - 1], b, e);
      if e in a.net.right.sysinfo && a.net.right.sysinfo[e].capacity == notice.capacity {
        AgreementIsTold(h, roots, run, steps, n - 1, e);
        StaysTold(run, steps, n, notice);
      }
    }
  }

  lemma FreshKnowsNothing(roots: RootPair, j: Joint, e: Endpoint)
    requires JointInit(roots, j) && e in j.net.right.sysinfo
    ensures j.net.right.sysinfo[e].capacity == 0
  {
    hide SelfOk;
  }

  lemma StaysTold(run: seq<Joint>, steps: seq<JointStep>, n: nat, notice: Notice)
    requires 0 < n < |run| == |steps| + 1 && Told(run, steps, n - 1, notice)
    requires notice in run[n - 1].side.notices ==>
               notice in run[n].side.notices || (steps[n - 1].OfSide? && steps[n - 1].act == RS.FetchSize(notice))
    ensures Told(run, steps, n, notice)
  {
  }

  /** What one step does to what has been agreed, and to the notices of it. */
  lemma StepTells(h: Md5, roots: RootPair, a: Joint, step: JointStep, b: Joint, e: Endpoint)
    requires JointOk(h, a) && JointOk(h, b) && JointNext(h, roots, a, step, b)
    requires b.net.left.self == a.net.left.self
    requires e in b.net.right.sysinfo && b.net.right.sysinfo[e].capacity != 0
    ensures || Notice(e.ip, b.net.right.sysinfo[e].capacity) in b.side.notices
            || (e in a.net.right.sysinfo && b.net.right.sysinfo[e].capacity == a.net.right.sysinfo[e].capacity)
    ensures forall n :: n in a.side.notices ==>
              n in b.side.notices || (step.OfSide? && step.act == RS.FetchSize(n))
  {
    hide NodeOk, AllHonest, AllGenuine, NetNext, RS.Next, Genuine;
    match step
    case OfNet(s) =>
      NetNotices(h, roots, a.net, s, b.net);
      NetTells(h, roots, a.net, s, b.net, e);
    case OfSide(act, id, source) =>
      SideTakes(a.side, act, b.side);
      if act.StoreData? { StoreKeepsNotices(a.side, b.side); }
  }

  lemma NetTells(h: Md5, roots: RootPair, a: Net, step: NetStep, b: Net, e: Endpoint)
    requires NetOk(h, a) && NetOk(h, b) && NetNext(h, roots, a, step, b) && KeepsNotices(step, a, b)
    requires b.left.self == a.left.self && e in b.right.sysinfo && b.right.sysinfo[e].capacity != 0
    ensures || Notice(e.ip, b.right.sysinfo[e].capacity) in b.right.notices
            || (e in a.right.sysinfo && b.right.sysinfo[e].capacity == a.right.sysinfo[e].capacity)
  {
    hide NodeOk, AllHonest, JobRuns.Next, HashOk;
    if step.Right? && step.step.Local? {
      WrittenIsTold(h, roots.right, a.right, step.step.step, b.right, a.left.self, e);
    }
  }
}
