/** The whole sending node: real passes of `run_jobs` and everything else that changes the tables,
    interleaved with every step of the processor and the sender. */
module NodeRuns {
  import opened Text
  import opened Message
  import opened Tables
  import opened RunJobs
  import opened StateGraph
  import JobRuns
  import JobProperties
  import P = Pipeline
  import PI = PipelineInv
  import PP = PipelineProperties
  import PR = PipelineRuns

  /** A step of the two programs, a job step, or the node's own receiver taking notices, if any. */
  datatype Event = Program(act: P.Act) | Job(step: JobRuns.JobStep) | Receiver

  /** The job steps that are not steps of the processor. */
  predicate AroundProcessor(step: JobRuns.JobStep) {
    !step.HandOff? && !step.Report? && !step.Elsewhere?
  }

  ghost predicate NodeNext(h: Md5, root: Id, a: P.Pipe, e: Event, b: P.Pipe) {
    match e
    case Program(act) => !act.Environment? && P.Next(a, act, b)
    case Job(step) => AroundProcessor(step) && JobRuns.Next(h, root, a.t, step, b.t) && b == a.(t := b.t)
    case Receiver => b == a.(t := a.t.(notices := b.t.notices)) && b.t.notices <= a.t.notices
  }

  // ---- passes do not disturb the processor -------------------------------------------------

  lemma PassJobs(t: Tables, env: Env, u: Tables)
    requires Pass(t, env) == Some(u)
    ensures P.JobsUndisturbed(t.jobs, u.jobs)
  {
    hide Pass, Moved, IsConsensus, NameKnown, Unchecked;
    PassDrains(t, env, u);
    forall id | id in t.jobs ensures id in u.jobs && P.JobUndisturbed(t.jobs[id], u.jobs[id]) {
      RowUndisturbed(u.sysinfo, t.jobs[id], u.jobs[id]);
    }
  }

  lemma RowUndisturbed(sysinfo: Sysinfo, j: Job, k: Job)
    requires Moved(j, k) && PassedRow(sysinfo, j, k)
    ensures P.JobUndisturbed(j, k)
  {
    hide Reaches, IsConsensus, NameKnown;
  }

  /** A pass leaves existing requests and connections alone, and numbers new requests afresh. */
  lemma PassRequests(t: Tables, env: Env, u: Tables)
    requires Pass(t, env) == Some(u)
    ensures P.CommsGrow(t, u)
    ensures forall ip :: ip in t.conns ==> ip in u.conns && u.conns[ip] == t.conns[ip]
    ensures forall ip :: ip in u.conns && ip !in t.conns ==> u.conns[ip] == Conn(-1, 1)
  {
    hide Pass, Check, Consensus, Split, Connect, P.CommsGrow, Evolves, CompletedRow, ConsensusRow, SplittingRow;
    var t1, t2, t3 := PassStages(t, env, u);
    CheckEvolves(t, env, t1);
    ConsensusEvolves(t1, env, t2);
    SplitEvolves(t2, env, t3);
    ConnectRequests(t3, env, u);
    SameRequests(t, t3, u);
  }

  lemma SameRequests(t: Tables, t3: Tables, u: Tables)
    requires t3.comms == t.comms && t3.nextComm == t.nextComm && P.CommsGrow(t3, u)
    ensures P.CommsGrow(t, u)
  {
  }

  lemma ConnectRequests(t: Tables, env: Env, u: Tables)
    requires Connect(t, env) == Some(u)
    ensures P.CommsGrow(t, u)
    ensures forall ip :: ip in t.conns ==> ip in u.conns && u.conns[ip] == t.conns[ip]
    ensures forall ip :: ip in u.conns && ip !in t.conns ==> u.conns[ip] == Conn(-1, 1)
  {
    hide OpenKeys, CloseKeys;
  }

  lemma JobStepQuiet(h: Md5, root: Id, t: Tables, step: JobRuns.JobStep, u: Tables)
    requires AroundProcessor(step) && JobRuns.Next(h, root, t, step, u)
    ensures P.Undisturbed(t, u)
  {
    hide Pass, LPad, P.JobsUndisturbed, P.CommsGrow;
    if step.RunPass? {
      PassJobs(t, step.env, u);
      PassRequests(t, step.env, u);
    } else {
      OtherStepQuiet(h, root, t, step, u);
    }
  }

  lemma OtherStepQuiet(h: Md5, root: Id, t: Tables, step: JobRuns.JobStep, u: Tables)
    requires AroundProcessor(step) && !step.RunPass? && JobRuns.Next(h, root, t, step, u)
    ensures P.Undisturbed(t, u)
  {
    hide JobRuns.Next, P.JobsUndisturbed, P.CommsGrow, AroundProcessor;
    OtherJobsQuiet(h, root, t, step, u);
    OtherCommsQuiet(h, root, t, step, u);
  }

  lemma OtherJobsQuiet(h: Md5, root: Id, t: Tables, step: JobRuns.JobStep, u: Tables)
    requires AroundProcessor(step) && !step.RunPass? && JobRuns.Next(h, root, t, step, u)
    ensures P.JobsUndisturbed(t.jobs, u.jobs)
  {
    hide LPad;
  }

  lemma OtherCommsQuiet(h: Md5, root: Id, t: Tables, step: JobRuns.JobStep, u: Tables)
    requires AroundProcessor(step) && !step.RunPass? && JobRuns.Next(h, root, t, step, u)
    ensures u.conns == t.conns && P.CommsGrow(t, u)
  {
    hide LPad;
  }

  /** The act the event is, for the two programs. */
  function ActOf(e: Event): P.Act {
    if e.Program? then e.act else P.Environment
  }

  lemma NoticesQuiet(t: Tables, u: Tables)
    requires u == t.(notices := u.notices)
    ensures P.Undisturbed(t, u)
  {
  }

  lemma EventIsAct(h: Md5, root: Id, a: P.Pipe, e: Event, b: P.Pipe)
    requires NodeNext(h, root, a, e, b)
    ensures P.Next(a, ActOf(e), b)
  {
    hide P.ProcessorStep, P.SenderStep, P.Undisturbed, JobRuns.Next;
    if e.Job? { JobStepQuiet(h, root, a.t, e.step, b.t); }
    if e.Receiver? { NoticesQuiet(a.t, b.t); }
  }

  // ---- the programs' steps are job steps ---------------------------------------------------

  /** What an event is for the job table. */
  function StepOf(a: P.Pipe, e: Event): JobRuns.JobStep {
    match e
    case Job(step) => step
    case Receiver => JobRuns.Elsewhere
    case Program(FetchJob(id, d)) => JobRuns.HandOff(id)
    case Program(StoreStatus) =>
      if a.p.PStore? && a.p.slot in a.comms && a.comms[a.p.slot].MsgStatus?
      then JobRuns.Report(a.comms[a.p.slot].uuid, a.comms[a.p.slot].ok) else JobRuns.Elsewhere
    case Program(act) => JobRuns.Elsewhere
  }

  /** Every event of the node is one of the job steps under which the properties of runs are proved: in
      particular the status statements, which do not look at the state, only ever report on jobs in S-4W. */
  lemma EventIsJobStep(h: Md5, root: Id, a: P.Pipe, e: Event, b: P.Pipe)
    requires PI.Inv(a) && NodeNext(h, root, a, e, b)
    ensures JobRuns.Next(h, root, a.t, StepOf(a, e), b.t)
  {
    hide P.Next, PI.Inv, Pass, LPad, ParseInt;
    if e.Program? {
      PP.TablesChange(a, e.act, b);
      if e.act.StoreStatus? { StoredIsInS4W(a, b); }
    }
  }

  lemma StoredIsInS4W(a: P.Pipe, b: P.Pipe)
    requires PI.Inv(a) && P.Next(a, P.StoreStatus, b)
    ensures a.p.PStore? && a.p.slot in a.comms && a.comms[a.p.slot].MsgStatus?
    ensures PP.InS4W(a.t, a.comms[a.p.slot].uuid)
  {
    hide PI.Inv, P.SetJobState, PI.Locks;
    assert P.ReadStep(a, P.StoreStatus, b);
    PP.StatusFindsJob(a, b);
  }

  // ---- runs --------------------------------------------------------------------------------

  predicate NodeInit(root: Id, st: P.Pipe) {
    P.Init(st) && JobProperties.Init(root, st.t)
  }

  ghost predicate NodeStep(h: Md5, root: Id, run: seq<P.Pipe>, events: seq<Event>, i: nat)
    requires i < |events| < |run|
  {
    NodeNext(h, root, run[i], events[i], run[i + 1]) && JobRuns.Config(run[i + 1].t.sysinfo)
  }

  /** A run of the node from a fresh start, during which sysinfo stays in order. */
  ghost predicate IsNodeRun(h: Md5, root: Id, run: seq<P.Pipe>, events: seq<Event>) {
    && |run| == |events| + 1 && NodeInit(root, run[0])
    && forall i :: 0 <= i < |events| ==> NodeStep(h, root, run, events, i)
  }

  function Acts(events: seq<Event>): (r: seq<P.Act>)
    ensures |r| == |events| && forall i :: 0 <= i < |r| ==> r[i] == ActOf(events[i])
  {
    seq(|events|, (i: nat) requires i < |events| => ActOf(events[i]))
  }

  function TablesOf(run: seq<P.Pipe>): (r: seq<Tables>)
    ensures |r| == |run| && forall i :: 0 <= i < |r| ==> r[i] == run[i].t
  {
    seq(|run|, (i: nat) requires i < |run| => run[i].t)
  }

  function Steps(run: seq<P.Pipe>, events: seq<Event>): (r: seq<JobRuns.JobStep>)
    requires |run| == |events| + 1
    ensures |r| == |events| && forall i :: 0 <= i < |r| ==> r[i] == StepOf(run[i], events[i])
  {
    seq(|events|, (i: nat) requires i < |events| => StepOf(run[i], events[i]))
  }

  /** A run of the node is a run of the two programs, so at-most-once hand-over, wake-ups and conservation
      hold with real passes in between; and its tables are a run of the job table, so the children's
      history and the exactness of completion hold with the real hand-over in between. */
  lemma NodeRunIsBoth(h: Md5, root: Id, run: seq<P.Pipe>, events: seq<Event>)
    requires IsNodeRun(h, root, run, events)
    ensures PR.IsRun(run, Acts(events))
    ensures JobProperties.IsRun(h, root, TablesOf(run), Steps(run, events))
  {
    hide NodeNext, P.Next, JobRuns.Next, JobRuns.Config, PI.Inv;
    forall i | 0 <= i < |events| ensures P.Next(run[i], Acts(events)[i], run[i + 1]) {
      assert NodeStep(h, root, run, events, i);
      EventIsAct(h, root, run[i], events[i], run[i + 1]);
    }
    assert PR.IsRun(run, Acts(events));
    forall i | 0 <= i < |events|
      ensures JobProperties.StepAt(h, root, TablesOf(run), Steps(run, events), i)
    {
      PR.RunInv(run, Acts(events), i);
      assert NodeStep(h, root, run, events, i);
      EventIsJobStep(h, root, run[i], events[i], run[i + 1]);
    }
  }

  // ---- a completed file was sent -----------------------------------------------------------

  /** A row that carries a piece of a job is completed only by its own report. */
  lemma CarrierStep(h: Md5, root: Id, t: Tables, step: JobRuns.JobStep, u: Tables, c: Id)
    requires JobRuns.Inv(h, root, t) && JobRuns.Next(h, root, t, step, u)
    requires c in u.jobs && u.jobs[c].state == C && u.jobs[c].parent != root
    ensures c in t.jobs && t.jobs[c].parent == u.jobs[c].parent && (t.jobs[c].state == C || t.jobs[c].state == S4W)
  {
    hide Pass, LPad, JobRuns.ParentOk, JobRuns.RowOk, JobRuns.Carrier;
    if step.RunPass? {
      CarrierPass(h, root, t, step.env, u, c);
    } else if c in t.jobs {
      RowsOk(h, root, t, c);
    }
  }

  lemma RowsOk(h: Md5, root: Id, t: Tables, c: Id)
    requires JobRuns.Inv(h, root, t) && c in t.jobs
    ensures t.jobs[c].parent != root ==> JobRuns.Carrier(t.jobs[c].state)
    ensures t.jobs[c].state != S5 || t.jobs[c].parent == root
  {
    hide JobRuns.Inv, JobRuns.RowOk;
    InvRow(h, root, t, c);
    RowStates(root, t.jobs, c);
  }

  lemma InvRow(h: Md5, root: Id, t: Tables, c: Id)
    requires JobRuns.Inv(h, root, t) && c in t.jobs
    ensures JobRuns.RowOk(root, t.jobs, c)
  {
    hide JobRuns.ParentOk, JobRuns.RowOk;
  }

  lemma RowStates(root: Id, jobs: Jobs, c: Id)
    requires c in jobs && JobRuns.RowOk(root, jobs, c)
    ensures jobs[c].parent != root ==> JobRuns.Carrier(jobs[c].state)
    ensures jobs[c].state != S5 || jobs[c].parent == root
  {
  }

  lemma CarrierPass(h: Md5, root: Id, t: Tables, env: Env, u: Tables, c: Id)
    requires JobRuns.Inv(h, root, t) && Pass(t, env) == Some(u)
    requires c in u.jobs && u.jobs[c].state == C && u.jobs[c].parent != root
    ensures c in t.jobs && t.jobs[c].parent == u.jobs[c].parent && t.jobs[c].state == C
  {
    hide Pass, JobRuns.Inv, Evolves, IsConsensus, NameKnown;
    PassDrains(t, env, u);
    if c in t.jobs {
      CarrierParent(h, root, t, env, u, c);
      RowsOk(h, root, t, c);
    }
  }

  lemma CarrierParent(h: Md5, root: Id, t: Tables, env: Env, u: Tables, c: Id)
    requires Pass(t, env) == Some(u) && c in t.jobs
    ensures c in u.jobs && u.jobs[c].parent == t.jobs[c].parent
  {
    hide Pass, PassedRow, Reaches;
    PassDrains(t, env, u);
    assert Moved(t.jobs[c], u.jobs[c]);
  }

  /** The step at which a completed piece was completed. */
  lemma {:induction false} WhenCompleted(h: Md5, root: Id, run: seq<Tables>, steps: seq<JobRuns.JobStep>, n: nat,
      c: Id) returns (i: nat)
    requires JobProperties.IsRun(h, root, run, steps) && n < |run|
    requires c in run[n].jobs && run[n].jobs[c].state == C && run[n].jobs[c].parent != root
    ensures i < n && PP.InS4W(run[i], c) && c in run[i + 1].jobs && run[i + 1].jobs[c].state == C
  {
    hide JobRuns.Next, JobRuns.Config, JobRuns.Inv;
    if n > 0 {
      JobProperties.RunInv(h, root, run, steps, n - 1);
      assert JobProperties.StepAt(h, root, run, steps, n - 1);
      CarrierStep(h, root, run[n - 1], steps[n - 1], run[n], c);
      if run[n - 1].jobs[c].state == C {
        i := WhenCompleted(h, root, run, steps, n - 1, c);
      } else {
        i := n - 1;
      }
    }
  }

  /** Only a pass completes a job that waits for its children. */
  lemma OnlyPassCompletes(h: Md5, root: Id, t: Tables, step: JobRuns.JobStep, u: Tables, p: Id)
    requires JobRuns.Next(h, root, t, step, u) && p in t.jobs && p in u.jobs && u.jobs[p].state == C
    requires t.jobs[p].state == S2W || t.jobs[p].state == S3W
    ensures step.RunPass? && step.env.h == h && Pass(t, step.env) == Some(u)
  {
    hide Pass, LPad;
  }

  /** End to end: if a step of any run of the node completes a file job, then before that step the sender
      has successfully sent every one of its children, with exactly the data their rows hold; and those
      rows carry exactly the file. */
  lemma CompletedFileWasSent(h: Md5, root: Id, run: seq<P.Pipe>, events: seq<Event>, n: nat, p: Id, c: Id)
      returns (k: nat, j: nat)
    requires IsNodeRun(h, root, run, events) && n < |events|
    requires p in run[n].t.jobs && p != root && (run[n].t.jobs[p].state == S2W || run[n].t.jobs[p].state == S3W)
    requires p in run[n + 1].t.jobs && run[n + 1].t.jobs[p].state == C
    requires c in Children(run[n].t.jobs, p)
    ensures k < j < n && ActOf(events[j]) == P.DoSend(true) && run[j].s.SSend?
    ensures run[j].s.dmsg.uuid == c && run[j].s.dmsg.data == run[n].t.jobs[c].data
    ensures JobRuns.FullSet(h, run[n].t, p) || JobRuns.SingleSet(h, run[n].t, p)
  {
    hide NodeNext, P.Next, JobRuns.Next, JobRuns.Config, JobRuns.FullSet, JobRuns.SingleSet, P.Init,
      JobProperties.Init, Pass, PI.Inv;
    var acts, tables, steps := Acts(events), TablesOf(run), Steps(run, events);
    NodeRunIsBoth(h, root, run, events);
    JobProperties.RunInv(h, root, tables, steps, n);
    assert JobProperties.StepAt(h, root, tables, steps, n);
    OnlyPassCompletes(h, root, tables[n], steps[n], tables[n + 1], p);
    ChildDone(h, root, tables[n], steps[n].env, tables[n + 1], p, c);
    var i := WhenCompleted(h, root, tables, steps, n, c);
    k, j := PR.CompletedMeansSent(run, acts, i, c);
    PR.RowStays(run, acts, k, n, c);
  }

  lemma ChildDone(h: Md5, root: Id, t: Tables, env: Env, u: Tables, p: Id, c: Id)
    requires JobRuns.Inv(h, root, t) && env.h == h && Pass(t, env) == Some(u)
    requires p in t.jobs && p != root && (t.jobs[p].state == S2W || t.jobs[p].state == S3W)
    requires p in u.jobs && u.jobs[p].state == C && c in Children(t.jobs, p)
    ensures c in t.jobs && t.jobs[c].state == C && t.jobs[c].parent != root
    ensures JobRuns.FullSet(h, t, p) || JobRuns.SingleSet(h, t, p)
  {
    hide Pass, JobRuns.FullSet, JobRuns.SingleSet, JobRuns.RowOk;
    JobProperties.CompletionExact(h, root, t, env, u, p);
    assert JobRuns.ParentOk(h, t, p);
  }
}
