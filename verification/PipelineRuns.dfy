/** Whole runs of the sending side. */
module PipelineRuns {
  import opened Text
  import opened Tables
  import opened Channels
  import opened Pipeline
  import opened PipelineInv
  import opened PipelineProperties

  ghost predicate IsRun(run: seq<Pipe>, acts: seq<Act>) {
    && |run| == |acts| + 1 && Init(run[0])
    && forall i :: 0 <= i < |acts| ==> Next(run[i], acts[i], run[i + 1])
  }

  lemma {:induction false} RunInv(run: seq<Pipe>, acts: seq<Act>, n: nat)
    requires IsRun(run, acts) && n < |run|
    ensures Inv(run[n])
  {
    hide Inv, Next;
    if n == 0 {
      InitInv(run[0]);
    } else {
      RunInv(run, acts, n - 1);
      assert Next(run[n - 1], acts[n - 1], run[n]);
      StepInv(run[n - 1], acts[n - 1], run[n]);
    }
  }

  // ---- conservation ------------------------------------------------------------------------

  function CommsOf(run: seq<Pipe>): (r: seq<Slots<CommMsg>>)
    ensures |r| == |run| && forall i :: 0 <= i < |r| ==> r[i] == run[i].comms
  {
    seq(|run|, (i: nat) requires i < |run| => run[i].comms)
  }

  function DatasOf(run: seq<Pipe>): (r: seq<Slots<DataMsg>>)
    ensures |r| == |run| && forall i :: 0 <= i < |r| ==> r[i] == run[i].datas
  {
    seq(|run|, (i: nat) requires i < |run| => run[i].datas)
  }

  function CommsEvents(run: seq<Pipe>, acts: seq<Act>): (r: seq<Event<CommMsg>>)
    requires |run| == |acts| + 1
    ensures |r| == |acts| && forall i :: 0 <= i < |r| ==> r[i] == CommsEvent(run[i], acts[i])
  {
    seq(|acts|, (i: nat) requires i < |acts| => CommsEvent(run[i], acts[i]))
  }

  function DatasEvents(run: seq<Pipe>, acts: seq<Act>): (r: seq<Event<DataMsg>>)
    requires |run| == |acts| + 1
    ensures |r| == |acts| && forall i :: 0 <= i < |r| ==> r[i] == DatasEvent(run[i], acts[i])
  {
    seq(|acts|, (i: nat) requires i < |acts| => DatasEvent(run[i], acts[i]))
  }

  /** Both blocks behave as channels over any run of the two programs. */
  lemma ChannelRuns(run: seq<Pipe>, acts: seq<Act>)
    requires IsRun(run, acts)
    ensures Run(CommsOf(run), CommsEvents(run, acts)) && Run(DatasOf(run), DatasEvents(run, acts))
  {
    hide Next, Found, Step, CommsEvent, DatasEvent;
    forall i | 0 <= i < |acts|
      ensures Step(run[i].comms, CommsEvent(run[i], acts[i]), run[i + 1].comms)
      ensures Step(run[i].datas, DatasEvent(run[i], acts[i]), run[i + 1].datas)
    {
      RunInv(run, acts, i);
      assert Next(run[i], acts[i], run[i + 1]);
      ChannelSteps(run[i], acts[i], run[i + 1]);
    }
  }

  /** Nothing is lost or made up between the two programs: at any moment of any run, the messages put into
      each block are those taken out and those still there; what a full half drops was never put in. */
  lemma NothingLost(run: seq<Pipe>, acts: seq<Act>, n: nat)
    requires IsRun(run, acts) && n <= |acts|
    ensures StoredIn(CommsEvents(run, acts), n) ==
              DrainedIn(CommsEvents(run, acts), n) + Load(run[n].comms, TOTAL_PARTITIONS)
    ensures StoredIn(DatasEvents(run, acts), n) ==
              DrainedIn(DatasEvents(run, acts), n) + Load(run[n].datas, TOTAL_PARTITIONS)
  {
    hide Next, Run, Init;
    ChannelRuns(run, acts);
    Conservation(CommsOf(run), CommsEvents(run, acts), n);
    Conservation(DatasOf(run), DatasEvents(run, acts), n);
  }

  /** The step is one of the program that the event's message goes to, or comes from. */
  lemma EventOwner(a: Pipe, act: Act, b: Pipe)
    requires Inv(a) && Next(a, act, b) && (CommsEvent(a, act).Stored? || CommsEvent(a, act).Drained?)
    ensures var e := CommsEvent(a, act);
            && (ProcessorStep(a, act, b) <==> (if e.Stored? then Down(e.msg) else !Down(e.msg)))
            && (SenderStep(a, act, b) <==> (if e.Stored? then !Down(e.msg) else Down(e.msg)))
  {
    hide Inv, ProcessorStep, SenderStep, Undisturbed, Down;
    Directions(a, act, b);
    if ProcessorStep(a, act, b) { OneProgram(a, act, b); }
  }

  lemma OneProgram(a: Pipe, act: Act, b: Pipe)
    requires ProcessorStep(a, act, b)
    ensures !SenderStep(a, act, b)
  {
    hide IsFirst, SetJobState, UpdateConn, DeleteComm, MarkComm, RequestOf, Selected;
  }

  /** In any run, every message a program takes out of the comms block was last put into its slot by the other
      program, and the slot has not been touched since. */
  lemma DrainedFromOther(run: seq<Pipe>, acts: seq<Act>, j: nat) returns (i: nat)
    requires IsRun(run, acts) && j < |acts| && CommsEvent(run[j], acts[j]).Drained?
    ensures var e := CommsEvent(run[j], acts[j]);
            i < j && LastStore(CommsEvents(run, acts), i, j, e.slot, e.msg)
    ensures ProcessorStep(run[j], acts[j], run[j + 1]) <==> SenderStep(run[i], acts[i], run[i + 1])
    ensures SenderStep(run[j], acts[j], run[j + 1]) <==> ProcessorStep(run[i], acts[i], run[i + 1])
  {
    hide Next, Init, Inv, Run, ProcessorStep, SenderStep, CommsEvent, Down;
    ChannelRuns(run, acts);
    var e := CommsEvent(run[j], acts[j]);
    DrainedIsStored(CommsOf(run), CommsEvents(run, acts), j);
    i :| 0 <= i < j && LastStore(CommsEvents(run, acts), i, j, e.slot, e.msg);
    RunInv(run, acts, i);
    RunInv(run, acts, j);
    assert Next(run[i], acts[i], run[i + 1]) && Next(run[j], acts[j], run[j + 1]);
    EventOwner(run[i], acts[i], run[i + 1]);
    EventOwner(run[j], acts[j], run[j + 1]);
  }

  // ---- at most once ------------------------------------------------------------------------

  /** The job exists and has left S-4. */
  predicate Gone(t: Tables, id: Id) {
    id in t.jobs && t.jobs[id].state != S4
  }

  lemma GoneStep(a: Pipe, act: Act, b: Pipe, id: Id)
    requires Next(a, act, b) && Gone(a.t, id)
    ensures Gone(b.t, id)
  {
    hide Next;
    TablesChange(a, act, b);
  }

  lemma {:induction false} GoneForGood(run: seq<Pipe>, acts: seq<Act>, i: nat, j: nat, id: Id)
    requires IsRun(run, acts) && i <= j < |run| && Gone(run[i].t, id)
    ensures Gone(run[j].t, id)
  {
    hide Next, Gone;
    if i < j {
      GoneForGood(run, acts, i, j - 1, id);
      assert Next(run[j - 1], acts[j - 1], run[j]);
      GoneStep(run[j - 1], acts[j - 1], run[j], id);
    }
  }

  /** In any run a job is handed to the sender at most once. */
  lemma FetchedOnce(run: seq<Pipe>, acts: seq<Act>, i: nat, j: nat)
    requires IsRun(run, acts) && i < j < |acts| && acts[i].FetchJob? && acts[j].FetchJob?
    ensures acts[i].id != acts[j].id
  {
    hide Next;
    assert Next(run[i], acts[i], run[i + 1]) && Next(run[j], acts[j], run[j + 1]);
    TablesChange(run[i], acts[i], run[i + 1]);
    TablesChange(run[j], acts[j], run[j + 1]);
    GoneForGood(run, acts, i + 1, j, acts[i].id);
  }

  /** Request `c` has been handed to the sender, and is waiting for the answer or deleted. */
  predicate Spent(t: Tables, c: int) {
    c < t.nextComm && forall k :: k in t.comms && t.comms[k].id == c ==> t.comms[k].waiting
  }

  lemma SpentStep(a: Pipe, act: Act, b: Pipe, c: int)
    requires Next(a, act, b) && Spent(a.t, c)
    ensures Spent(b.t, c)
  {
    hide Next, JobsUndisturbed;
    TablesChange(a, act, b);
  }

  lemma {:induction false} SpentForGood(run: seq<Pipe>, acts: seq<Act>, i: nat, j: nat, c: int)
    requires IsRun(run, acts) && i <= j < |run| && Spent(run[i].t, c)
    ensures Spent(run[j].t, c)
  {
    hide Next, Spent;
    if i < j {
      SpentForGood(run, acts, i, j - 1, c);
      assert Next(run[j - 1], acts[j - 1], run[j]);
      SpentStep(run[j - 1], acts[j - 1], run[j], c);
    }
  }

  /** The number of the request that is marked at step `i`. */
  predicate Marks(st: Pipe, act: Act, c: int) {
    act.MarkRequest? && st.p.PMark? && st.p.key in st.t.comms && st.t.comms[st.p.key].id == c
  }

  /** In any run a request is handed to the sender at most once. */
  lemma MarkedOnce(run: seq<Pipe>, acts: seq<Act>, i: nat, j: nat, c: int)
    requires IsRun(run, acts) && i < j < |acts| && Marks(run[i], acts[i], c)
    ensures !Marks(run[j], acts[j], c)
  {
    hide Next, Init, Locks, Directed, Tokens, Covered, IsFirst;
    RunInv(run, acts, i);
    assert Next(run[i], acts[i], run[i + 1]);
    TablesChange(run[i], acts[i], run[i + 1]);
    SpentForGood(run, acts, i + 1, j, c);
    RunInv(run, acts, j);
  }

  // ---- a completed job was sent ------------------------------------------------------------

  ghost predicate HasStatus(st: Pipe, m: CommMsg) {
    (exists i :: i in st.comms && st.comms[i] == m) || st.s == SReport(m)
  }

  ghost predicate HasData(st: Pipe, d: DataMsg) {
    || (exists i :: i in st.datas && st.datas[i] == d)
    || (st.p.PPublishData? && st.p.dmsg == d)
    || (st.s.SUnlockData? && st.s.data == Some(d))
    || st.s == SSend(d)
  }

  /** Where the sender's report comes from. */
  lemma ReportStepOrigin(a: Pipe, act: Act, b: Pipe, m: CommMsg)
    requires Next(a, act, b) && m.MsgStatus? && b.s == SReport(m)
    ensures a.s == b.s || (act == DoSend(m.ok) && a.s.SSend? && a.s.dmsg.uuid == m.uuid)
  {
    hide ProcessorStep, SenderStep, Undisturbed;
    if ProcessorStep(a, act, b) { ProcessorLeavesSender(a, act, b); }
    else if SenderStep(a, act, b) { SenderReports(a, act, b, m); }
  }

  lemma ProcessorLeavesSender(a: Pipe, act: Act, b: Pipe)
    requires ProcessorStep(a, act, b)
    ensures b.s == a.s
    ensures b.p.PPublishData? ==> act.FetchJob?
  {
    hide ReadStep, RequestStep, GiveStep;
    if ReadStep(a, act, b) { ReadLeavesSender(a, act, b); }
    else if RequestStep(a, act, b) { RequestLeavesSender(a, act, b); }
    else { GiveLeavesSender(a, act, b); }
  }

  lemma ReadLeavesSender(a: Pipe, act: Act, b: Pipe)
    requires ReadStep(a, act, b)
    ensures b.s == a.s && !b.p.PPublishData?
  {
    hide IsFirst, SetJobState, UpdateConn, DeleteComm;
  }

  lemma RequestLeavesSender(a: Pipe, act: Act, b: Pipe)
    requires RequestStep(a, act, b)
    ensures b.s == a.s && !b.p.PPublishData?
  {
    hide IsFirst, MarkComm, RequestOf;
  }

  lemma GiveLeavesSender(a: Pipe, act: Act, b: Pipe)
    requires GiveStep(a, act, b)
    ensures b.s == a.s && (b.p.PPublishData? ==> act.FetchJob?)
  {
    hide IsFirst, SetJobState, Selected;
  }

  /** The message is what the row of its job holds. */
  predicate FetchedFrom(st: Pipe, d: DataMsg) {
    d.uuid in st.t.jobs && st.t.jobs[d.uuid].state == S4 && d.data == st.t.jobs[d.uuid].data
  }

  lemma SenderReports(a: Pipe, act: Act, b: Pipe, m: CommMsg)
    requires SenderStep(a, act, b) && m.MsgStatus? && b.s == SReport(m)
    ensures act == DoSend(m.ok) && a.s.SSend? && a.s.dmsg.uuid == m.uuid
  {
    hide IsFirst;
  }

  lemma SenderGets(a: Pipe, act: Act, b: Pipe, d: DataMsg)
    requires SenderStep(a, act, b) && ((b.s.SUnlockData? && b.s.data == Some(d)) || b.s == SSend(d))
    ensures HasData(a, d)
  {
    hide IsFirst;
  }

  /** A status is only ever made by the sender, from the outcome of sending that job. */
  lemma StatusStep(a: Pipe, act: Act, b: Pipe, m: CommMsg)
    requires Inv(a) && Next(a, act, b) && m.MsgStatus? && HasStatus(b, m)
    ensures HasStatus(a, m) || (act == DoSend(m.ok) && a.s.SSend? && a.s.dmsg.uuid == m.uuid)
  {
    hide Locks, Directed, Numbered, Tokens, Covered, IsFirst, Next;
    ChannelSteps(a, act, b);
    if b.s == SReport(m) { ReportStepOrigin(a, act, b, m); }
  }

  /** Data for the sender is only ever made by a fetch. */
  lemma DataStep(a: Pipe, act: Act, b: Pipe, d: DataMsg)
    requires Found(a) && Next(a, act, b) && HasData(b, d)
    ensures HasData(a, d) || (act.FetchJob? && act.id == d.uuid && FetchedFrom(a, d))
  {
    hide ProcessorStep, SenderStep, IsFirst, Undisturbed, Found;
    ChannelSteps(a, act, b);
    if i :| i in b.datas && b.datas[i] == d {
      assert HasData(a, d);
    } else if ProcessorStep(a, act, b) {
      ProcessorLeavesSender(a, act, b);
      TablesChange(a, act, b);
    } else if SenderStep(a, act, b) {
      SenderDatas(a, act, b);
      if (b.s.SUnlockData? && b.s.data == Some(d)) || b.s == SSend(d) { SenderGets(a, act, b, d); }
    }
  }

  lemma {:induction false} StatusOrigin(run: seq<Pipe>, acts: seq<Act>, n: nat, m: CommMsg) returns (j: nat)
    requires IsRun(run, acts) && n < |run| && m.MsgStatus? && HasStatus(run[n], m)
    ensures j < n && acts[j] == DoSend(m.ok) && run[j].s.SSend? && run[j].s.dmsg.uuid == m.uuid
  {
    hide Next, HasStatus, Inv;
    if n == 0 {
      NothingYet(run[0]);
    } else {
      RunInv(run, acts, n - 1);
      assert Next(run[n - 1], acts[n - 1], run[n]);
      StatusStep(run[n - 1], acts[n - 1], run[n], m);
      if HasStatus(run[n - 1], m) { j := StatusOrigin(run, acts, n - 1, m); } else { j := n - 1; }
    }
  }

  lemma NothingYet(st: Pipe)
    requires Init(st)
    ensures forall m :: !HasStatus(st, m)
    ensures forall d :: !HasData(st, d)
  {
  }

  lemma {:induction false} DataOrigin(run: seq<Pipe>, acts: seq<Act>, n: nat, d: DataMsg) returns (k: nat)
    requires IsRun(run, acts) && n < |run| && HasData(run[n], d)
    ensures k < n && acts[k].FetchJob? && acts[k].id == d.uuid && FetchedFrom(run[k], d)
  {
    hide Next, HasData, Locks, Found, Directed, Numbered, Tokens, Covered, FetchedFrom;
    if n == 0 {
      NothingYet(run[0]);
    } else {
      RunInv(run, acts, n - 1);
      assert Next(run[n - 1], acts[n - 1], run[n]);
      DataStep(run[n - 1], acts[n - 1], run[n], d);
      if HasData(run[n - 1], d) { k := DataOrigin(run, acts, n - 1, d); } else { k := n - 1; }
    }
  }

  /** A job that leaves S-4W at step `i` of a run was fetched from S-4 at an earlier step `k`, and the sender
      has since, at step `j`, tried to send exactly the data of its row; C says that it succeeded, D that not. */
  lemma CompletedMeansSent(run: seq<Pipe>, acts: seq<Act>, i: nat, id: Id) returns (k: nat, j: nat)
    requires IsRun(run, acts) && i < |acts| && InS4W(run[i].t, id) && !InS4W(run[i + 1].t, id)
    ensures k < j < i && acts[k].FetchJob? && acts[k].id == id
    ensures acts[j].DoSend? && run[j].s.SSend? && FetchedFrom(run[k], run[j].s.dmsg) && run[j].s.dmsg.uuid == id
    ensures id in run[i + 1].t.jobs && run[i + 1].t.jobs[id].state == if acts[j].sent then C else D
  {
    hide Next, Inv, Init, FetchedFrom;
    assert Next(run[i], acts[i], run[i + 1]);
    OwnStatus(run[i], acts[i], run[i + 1], id);
    var m := run[i].comms[run[i].p.slot];
    j := StatusOrigin(run, acts, i, m);
    k := DataOrigin(run, acts, j, run[j].s.dmsg);
  }

  /** Rows are never removed, and their contents never change. */
  predicate SameRow(t: Tables, u: Tables, id: Id) {
    id in t.jobs ==> id in u.jobs && u.jobs[id].data == t.jobs[id].data
  }

  lemma RowStep(a: Pipe, act: Act, b: Pipe, id: Id)
    requires Next(a, act, b)
    ensures SameRow(a.t, b.t, id)
  {
    hide Next;
    TablesChange(a, act, b);
  }

  lemma {:induction false} RowStays(run: seq<Pipe>, acts: seq<Act>, i: nat, j: nat, id: Id)
    requires IsRun(run, acts) && i <= j < |run|
    ensures SameRow(run[i].t, run[j].t, id)
  {
    hide Next;
    if i < j {
      RowStays(run, acts, i, j - 1, id);
      assert Next(run[j - 1], acts[j - 1], run[j]);
      RowStep(run[j - 1], acts[j - 1], run[j], id);
    }
  }
}
