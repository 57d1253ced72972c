/** A file between two nodes: nothing that arrives as a chunk of a job is anything but a child of that job. */
module Transfers {
  import opened Text
  import opened Message
  import opened Chunks
  import opened Tables
  import opened RunJobs
  import opened StateGraph
  import opened JobRuns
  import opened Handshake
  import opened HandshakeRuns
  import JobProperties

  /** A received row that passes the hash check holds something that was said. */
  predicate RowHeard(h: Md5, heard: set<Bytes>, j: Job) {
    match j.state
    case N1 => HashOk(h, j.data) ==> j.data in heard
    case N2 => j.data in heard
    case N3 => j.data in heard
    case N4 => j.data in heard
    case _ => true
  }

  predicate RowsHeard(h: Md5, heard: set<Bytes>, jobs: Jobs) {
    forall id :: id in jobs ==> RowHeard(h, heard, jobs[id])
  }

  /** A chunk message that was said is the row of a child of the job it names. */
  predicate Owned(jobs: Jobs, m: Bytes) {
    ParseInt(TypeField(m)) == Some(2) ==> exists c :: c in jobs && jobs[c].data == m && jobs[c].parent == ParentField(m)
  }

  predicate AllOwned(jobs: Jobs, said: set<Bytes>) {
    forall m :: m in said ==> Owned(jobs, m)
  }

  // ---- what arrives was said ---------------------------------------------------------------

  predicate Received(s: State) {
    s == N1 || s == N2 || s == N3 || s == N4
  }

  /** Rows of received messages only disappear. */
  predicate Receding(a: Jobs, b: Jobs) {
    forall id :: id in b && Received(b[id].state) ==> id in a && b[id] == a[id]
  }

  lemma RecedingHeard(h: Md5, heard: set<Bytes>, a: Jobs, b: Jobs)
    requires RowsHeard(h, heard, a) && Receding(a, b)
    ensures RowsHeard(h, heard, b)
  {
    hide HashOk;
  }

  lemma TriageHeard(h: Md5, roots: set<Bytes>, j: Job, heard: set<Bytes>)
    requires RowHeard(h, heard, j)
    ensures RowHeard(h, heard, TriageRow(h, roots, j))
  {
    hide HashOk, DestField, TypeField;
  }

  lemma CheckHeard(t: Tables, env: Env, u: Tables, heard: set<Bytes>)
    requires RowsHeard(env.h, heard, t.jobs) && Check(t, env) == Some(u)
    ensures RowsHeard(env.h, heard, u.jobs)
  {
    hide RowHeard, TriageRow, CountsReadable, CompleteLarge, CompleteSmall, Evolves;
    var roots, a := Roots(t.jobs), Triage(env.h, t.jobs);
    forall id | id in a ensures RowHeard(env.h, heard, a[id]) { TriageHeard(env.h, roots, t.jobs[id], heard); }
    var b := CompleteLarge(a);
    CompletionEvolves(a, b);
    CompletionEvolves(b, u.jobs);
    RecedingHeard(env.h, heard, a, b);
    RecedingHeard(env.h, heard, b, u.jobs);
  }

  lemma ConsensusRecedes(a: Jobs, b: Jobs)
    requires ConsensusRows(a, b)
    ensures Receding(a, b)
  {
    hide IsConsensus;
  }

  lemma SplittingRecedes(sysinfo: Sysinfo, a: Jobs, b: Jobs)
    requires SplittingRows(sysinfo, a, b)
    ensures Receding(a, b)
  {
    hide NameKnown;
  }

  lemma PassHeard(t: Tables, env: Env, u: Tables, heard: set<Bytes>)
    requires RowsHeard(env.h, heard, t.jobs) && Pass(t, env) == Some(u)
    ensures RowsHeard(env.h, heard, u.jobs)
  {
    hide Pass, Check, Consensus, Split, Connect, RowsHeard, Evolves, ConsensusRows, SplittingRows, Receding;
    var t1, t2, t3 := PassStages(t, env, u);
    CheckHeard(t, env, t1, heard);
    ConsensusEvolves(t1, env, t2);
    ConsensusRecedes(t1.jobs, t2.jobs);
    RecedingHeard(env.h, heard, t1.jobs, t2.jobs);
    SplitEvolves(t2, env, t3);
    SplittingRecedes(t2.sysinfo, t2.jobs, t3.jobs);
    RecedingHeard(env.h, heard, t2.jobs, t3.jobs);
    ConnectKeeps(t3, env, u);
  }

  lemma LocalHeard(h: Md5, root: Id, t: Tables, js: JobStep, u: Tables, heard: set<Bytes>)
    requires RowsHeard(h, heard, t.jobs) && JobRuns.Next(h, root, t, js, u)
    requires js.Arrive? ==> js.data in heard || !HashOk(h, js.data)
    ensures RowsHeard(h, heard, u.jobs)
  {
    hide Pass, HashOk, LPad;
    if js.RunPass? { PassHeard(t, js.env, u, heard); }
  }

  // ---- what is said is a child -------------------------------------------------------------

  /** Rows stay, with their contents and parents. */
  predicate Kept(a: Jobs, b: Jobs) {
    forall id :: id in a ==> id in b && b[id].data == a[id].data && b[id].parent == a[id].parent
  }

  lemma StepKeeps(h: Md5, root: Id, t: Tables, js: JobStep, u: Tables)
    requires JobRuns.Next(h, root, t, js, u)
    ensures Kept(t.jobs, u.jobs)
  {
    hide Pass, LPad;
    if js.RunPass? { PassKeeps(t, js.env, u); }
  }

  lemma PassKeeps(t: Tables, env: Env, u: Tables)
    requires Pass(t, env) == Some(u)
    ensures Kept(t.jobs, u.jobs)
  {
    hide Pass, PassedRows, Reaches;
    PassDrains(t, env, u);
    forall id | id in t.jobs
      ensures id in u.jobs && u.jobs[id].data == t.jobs[id].data && u.jobs[id].parent == t.jobs[id].parent
    {
      assert Moved(t.jobs[id], u.jobs[id]);
    }
  }

  lemma OwnedStays(a: Jobs, b: Jobs, said: set<Bytes>)
    requires AllOwned(a, said) && Kept(a, b)
    ensures AllOwned(b, said)
  {
    hide ParseInt, TypeField, ParentField;
    forall m | m in said ensures Owned(b, m) {
      assert Owned(a, m);
      if ParseInt(TypeField(m)) == Some(2) {
        var c :| c in a && a[c].data == m && a[c].parent == ParentField(m);
        assert c in b;
      }
    }
  }

  /** What the left node sends is owned. */
  lemma SayOwned(h: Md5, root: Id, t: Tables, heard: set<Bytes>, said: set<Bytes>, step: SideStep, u: Tables,
      saying: set<Bytes>, peer: Self)
    requires NodeOk(h, t, peer) && AllOwned(t.jobs, said)
    requires SideNext(h, root, t, heard, said, step, u, saying)
    ensures AllOwned(u.jobs, saying)
  {
    hide JobRuns.Next, HashOk, Honest, SysOk, NoticesOk, SelfOk, ParseInt, TypeField, ParentField;
    match step
    case Local(js) =>
      StepKeeps(h, root, t, js, u);
      OwnedStays(t.jobs, u.jobs, said);
    case Transmit(id) =>
      assert RowHonest(h, t.self, peer, t.jobs[id]);
  }

  // ---- the network -------------------------------------------------------------------------

  /** From the left node to the right one. */
  predicate TransferOk(h: Md5, net: Net) {
    AllOwned(net.left.jobs, net.fromLeft) && RowsHeard(h, net.fromLeft, net.right.jobs)
  }

  lemma MoreHeard(h: Md5, heard: set<Bytes>, more: set<Bytes>, jobs: Jobs)
    requires RowsHeard(h, heard, jobs) && heard <= more
    ensures RowsHeard(h, more, jobs)
  {
    hide HashOk;
  }

  lemma TransferStep(h: Md5, roots: RootPair, a: Net, step: NetStep, b: Net)
    requires NetOk(h, a) && TransferOk(h, a) && NetNext(h, roots, a, step, b)
    ensures TransferOk(h, b)
  {
    hide NodeOk, AllHonest, AllOwned, RowsHeard, JobRuns.Next, HashOk;
    match step
    case Left(s) =>
      SayOwned(h, roots.left, a.left, a.fromRight, a.fromLeft, s, b.left, b.fromLeft, a.right.self);
      MoreHeard(h, a.fromLeft, b.fromLeft, a.right.jobs);
    case Right(s) =>
      if s.Local? { LocalHeard(h, roots.right, a.right, s.step, b.right, a.fromLeft); }
  }

  lemma {:induction false} TransferRun(h: Md5, roots: RootPair, run: seq<Net>, steps: seq<NetStep>, n: nat)
    requires IsNetRun(h, roots, run, steps) && n < |run|
    ensures TransferOk(h, run[n])
  {
    hide NetNext, NetOk, TransferOk;
    if n == 0 {
      TransferAtFirst(h, roots, run[0]);
    } else {
      TransferRun(h, roots, run, steps, n - 1);
      NetRunOk(h, roots, run, steps, n - 1);
      assert NetNext(h, roots, run[n - 1], steps[n - 1], run[n]);
      TransferStep(h, roots, run[n - 1], steps[n - 1], run[n]);
    }
  }

  lemma TransferAtFirst(h: Md5, roots: RootPair, net: Net)
    requires NetInit(roots, net)
    ensures TransferOk(h, net)
  {
    hide HashOk, SelfOk;
  }

  // ---- the file ----------------------------------------------------------------------------

  /** Row `m` of the right node is an identified received message. */
  ghost predicate Arrived(net: Net, m: Bytes) {
    exists id :: id in net.right.jobs && net.right.jobs[id].state == N4 && net.right.jobs[id].data == m
  }

  /** What the right node identifies as a chunk of job `p` is a child of `p` on the left node. */
  lemma ChunkIsChild(h: Md5, net: Net, p: Id, m: Bytes)
    requires TransferOk(h, net) && Arrived(net, m) && IsChunkOf(m, p)
    ensures exists c :: c in Children(net.left.jobs, p) && net.left.jobs[c].data == m
  {
    hide HashOk, ParseInt, TypeField, ParentField;
    var id :| id in net.right.jobs && net.right.jobs[id].state == N4 && net.right.jobs[id].data == m;
    assert RowHeard(h, net.fromLeft, net.right.jobs[id]);
    assert Owned(net.left.jobs, m);
    var c :| c in net.left.jobs && net.left.jobs[c].data == m && net.left.jobs[c].parent == ParentField(m);
    assert c in Children(net.left.jobs, p);
  }

  lemma DataIndex(jobs: Jobs, ids: seq<Id>, c: Id)
    requires c in ids && c in jobs
    ensures jobs[c].data in JobProperties.Datas(jobs, ids)
  {
    var i :| 0 <= i < |ids| && ids[i] == c;
    assert JobProperties.Datas(jobs, ids)[i] == jobs[c].data;
  }

  /** The transfer is exact. In every state of every run of two nodes, with any loss, repetition, reordering and
      corruption, the identified messages of the right node reassemble to the file of the left node's job if
      and only if all the job's chunks are among them: nothing else can pass for a chunk of it. */
  lemma TransferExact(h: Md5, roots: RootPair, run: seq<Net>, steps: seq<NetStep>, n: nat,
                      p: Id, info: Id, chunks: seq<Id>, capacity: int, rows: seq<Bytes>)
    requires IsNetRun(h, roots, run, steps) && n < |run|
    requires FullSetOf(h, run[n].left, p, info, chunks, capacity)
    requires |FileOf(run[n].left, p)| <= MAX_FILE && |chunks| <= MAX_CHUNKS
    requires forall m :: m in rows ==> Arrived(run[n], m)
    ensures var t := run[n].left;
            Assemble(rows, p) == Some(FileOf(t, p)) <==>
            forall i :: 0 <= i < |chunks| ==> DataOf(t.jobs, chunks[i]) in rows
  {
    hide IsNetRun, IsChunk, IsInfo, FileOf, Assemble, IsChunkOf, Children, TransferOk, Arrived;
    var t := run[n].left;
    var datas, head := JobProperties.Datas(t.jobs, chunks), DataOf(t.jobs, info);
    assert IsTransfer(h, FileOf(t, p), p, capacity, datas, head);
    TransferRun(h, roots, run, steps, n);
    TransferParts(h, FileOf(t, p), p, capacity, datas, head);
    forall m | m in rows && IsChunkOf(m, p) ensures m in datas {
      ArrivedIsChunk(h, run[n], p, info, chunks, capacity, m);
    }
    AssembleExact(h, FileOf(t, p), p, capacity, datas, head, rows);
  }

  lemma ArrivedIsChunk(h: Md5, net: Net, p: Id, info: Id, chunks: seq<Id>, capacity: int, m: Bytes)
    requires TransferOk(h, net) && Arrived(net, m) && IsChunkOf(m, p)
        && FullSetOf(h, net.left, p, info, chunks, capacity)
    requires !IsChunkOf(DataOf(net.left.jobs, info), p)
    ensures m in JobProperties.Datas(net.left.jobs, chunks)
  {
    hide IsChunk, IsInfo, FileOf, IsChunkOf, Children, TransferOk, Arrived;
    ChunkIsChild(h, net, p, m);
    var c :| c in Children(net.left.jobs, p) && net.left.jobs[c].data == m;
    assert c != info;
    DataIndex(net.left.jobs, chunks, c);
  }
}
