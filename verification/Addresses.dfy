/** Which addresses the sending side can reach: the two programs pass them on as signed 32-bit numbers. */
module Addresses {
  import opened Text
  import opened Tables
  import opened Channels
  import opened Pipeline
  import opened PipelineProperties
  import PipelineRuns

  predicate IsInt32(n: int) {
    -0x8000_0000 <= n < 0x8000_0000
  }

  predicate SignedMsg(m: CommMsg) {
    !m.MsgStatus? ==> IsInt32(m.ip)
  }

  /** Only addresses that are signed 32-bit numbers are connected. */
  predicate SignedConns(t: Tables) {
    forall ip :: ip in t.conns && t.conns[ip].status == 2 ==> IsInt32(ip)
  }

  predicate SignedPcs(st: Pipe) {
    && (st.p.PPublish? ==> SignedMsg(st.p.msg))
    && (match st.s
        case SUnlockMsg(Some(m)) => SignedMsg(m)
        case SAct(m) => SignedMsg(m)
        case SReport(m) => SignedMsg(m)
        case _ => true)
  }

  predicate Signed(st: Pipe) {
    && (forall i :: i in st.comms ==> SignedMsg(st.comms[i]))
    && SignedPcs(st) && SignedConns(st.t)
  }

  lemma SignedStep(a: Pipe, act: Act, b: Pipe)
    requires Signed(a) && Next(a, act, b)
    ensures Signed(b)
  {
    hide ReadStep, RequestStep, GiveStep, TakeStep, ReportStep, SendStep, Signed;
    if ReadStep(a, act, b) { SignedByRead(a, act, b); }
    else if RequestStep(a, act, b) { SignedByRequest(a, act, b); }
    else if GiveStep(a, act, b) { SignedByGive(a, act, b); }
    else if TakeStep(a, act, b) { SignedByTake(a, act, b); }
    else if ReportStep(a, act, b) { SignedByReport(a, act, b); }
    else if SendStep(a, act, b) { SignedBySend(a, act, b); }
    else { SignedAround(a, act, b); }
  }

  lemma SignedByRead(a: Pipe, act: Act, b: Pipe)
    requires Signed(a) && ReadStep(a, act, b)
    ensures Signed(b)
  {
    hide IsFirst;
  }

  lemma SignedByRequest(a: Pipe, act: Act, b: Pipe)
    requires Signed(a) && RequestStep(a, act, b)
    ensures Signed(b)
  {
    hide IsFirst;
  }

  lemma SignedByGive(a: Pipe, act: Act, b: Pipe)
    requires Signed(a) && GiveStep(a, act, b)
    ensures Signed(b)
  {
    hide IsFirst, Selected;
  }

  lemma SignedByTake(a: Pipe, act: Act, b: Pipe)
    requires Signed(a) && TakeStep(a, act, b)
    ensures Signed(b)
  {
    hide IsFirst;
  }

  lemma SignedByReport(a: Pipe, act: Act, b: Pipe)
    requires Signed(a) && ReportStep(a, act, b)
    ensures Signed(b)
  {
    hide IsFirst;
  }

  lemma SignedBySend(a: Pipe, act: Act, b: Pipe)
    requires Signed(a) && SendStep(a, act, b)
    ensures Signed(b)
  {
    hide IsFirst;
  }

  lemma SignedAround(a: Pipe, act: Act, b: Pipe)
    requires Signed(a) && AroundStep(a, act, b)
    ensures Signed(b)
  {
    hide JobsUndisturbed, CommsGrow;
  }

  lemma {:induction false} SignedAlways(run: seq<Pipe>, acts: seq<Act>, n: nat)
    requires PipelineRuns.IsRun(run, acts) && n < |run|
    ensures Signed(run[n])
  {
    hide Next, Signed;
    if n == 0 {
      SignedAtFirst(run[0]);
    } else {
      SignedAlways(run, acts, n - 1);
      assert Next(run[n - 1], acts[n - 1], run[n]);
      SignedStep(run[n - 1], acts[n - 1], run[n]);
    }
  }

  lemma SignedAtFirst(st: Pipe)
    requires Init(st)
    ensures Signed(st)
  {
  }

  /** In any run a job is fetched only for an address that is a signed 32-bit number: the status of any other
      connection comes back under a negative number, so that it never counts as connected. */
  lemma FetchedBelow(run: seq<Pipe>, acts: seq<Act>, n: nat)
    requires PipelineRuns.IsRun(run, acts) && n < |acts| && acts[n].FetchJob?
    ensures acts[n].e in run[n].t.sysinfo && IsInt32(acts[n].e.ip)
    ensures acts[n].id in run[n].t.jobs && acts[n].e.name == run[n].t.jobs[acts[n].id].dest
  {
    hide ReadStep, RequestStep, SenderStep, AroundStep, Init;
    SignedAlways(run, acts, n);
    assert Next(run[n], acts[n], run[n + 1]);
    FetchIsGive(run[n], acts[n], run[n + 1]);
  }

  lemma FetchIsGive(a: Pipe, act: Act, b: Pipe)
    requires Next(a, act, b) && act.FetchJob?
    ensures GiveStep(a, act, b)
  {
    hide GiveStep, IsFirst, Undisturbed;
  }

  /** All systems that go by the job's destination have addresses from 2^31 on. */
  predicate OutOfReach(t: Tables, id: Id) {
    id in t.jobs && forall e :: e in t.sysinfo && e.name == t.jobs[id].dest ==> !IsInt32(e.ip)
  }

  /** So while that is the case a job is never handed to the sender, however often a pass is run. */
  lemma {:induction false} NeverHandedOver(run: seq<Pipe>, acts: seq<Act>, i: nat, j: nat, id: Id)
    requires PipelineRuns.IsRun(run, acts) && i <= j < |run| && !InS4W(run[i].t, id)
    requires forall k :: i <= k < j ==> OutOfReach(run[k].t, id)
    ensures !InS4W(run[j].t, id)
  {
    hide Next, Init;
    if i < j {
      NeverHandedOver(run, acts, i, j - 1, id);
      assert Next(run[j - 1], acts[j - 1], run[j]);
      if InS4W(run[j].t, id) {
        FetchedFromS4(run[j - 1], acts[j - 1], run[j], id);
        FetchedBelow(run, acts, j - 1);
      }
    }
  }
}
