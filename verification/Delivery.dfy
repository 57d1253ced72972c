/** What the network delivers is dealt with: a message that was sent reaches the identified rows of its addressee. */
module Delivery {
  import opened Text
  import opened Message
  import opened Chunks
  import opened Tables
  import opened RunJobs
  import opened StateGraph
  import opened JobRuns
  import opened Handshake
  import opened HandshakeRuns
  import opened PassTable
  import JobProperties

  /** Trimming leaves a padded name as it is if and only if it does not end in a blank, or is nothing else. */
  lemma TrimmedExact(name: Bytes)
    requires |name| == 5
    ensures Trimmed(name) == name <==> name[4] != SPACE || name == Spaces(5)
  {
    TrimExact(name);
  }

  /** A message between two nodes as it arrives. */
  predicate IsGenuine(h: Md5, jobs: Jobs, id: Id) {
    id in jobs && jobs[id].state == N1 && HashOk(h, jobs[id].data)
  }

  /** The first pass that succeeds takes every undamaged message for this node, whatever its kind: a consensus
      message is done with, any other is identified; a data message is for this node if and only if its name
      survives trimming. */
  lemma DeliveredIsIdentified(h: Md5, roots: RootPair, run: seq<Net>, steps: seq<NetStep>, n: nat, id: Id)
    requires IsNetRun(h, roots, run, steps) && n < |steps|
    requires steps[n].Right? && steps[n].step.Local? && steps[n].step.step.RunPass?
    requires IsGenuine(h, run[n].right.jobs, id)
    ensures id in run[n + 1].right.jobs
    ensures var j, k := run[n].right.jobs[id], run[n + 1].right.jobs[id];
            && (IsConsensus(TypeField(j.data)) ==> k == j.(state := C, kind := TypeField(j.data)))
            && (!IsConsensus(TypeField(j.data)) ==>
                  (k == j.(state := N4, kind := TypeField(j.data)) <==>
                   Trimmed(run[n].right.self.name) == run[n].right.self.name))
  {
    hide IsNetRun, NodeOk, AllHonest, PassedAs, Pass, Config, HashOk, TypeField, IsConsensus, Trimmed;
    PassOfRight(h, roots, run, steps, n);
    var t, u, env := run[n].right, run[n + 1].right, steps[n].step.step.env;
    NetRunOk(h, roots, run, steps, n);
    NetRunOk(h, roots, run, steps, n + 1);
    ConfigFollows(h, u, run[n + 1].left.self);
    PassRowExact(t, env, u, id);
    EachIsJobRun(h, roots, run, steps);
    LocalMeansSelf(h, roots.right, RightTables(run), RightSteps(steps), n);
    ArrivedFor(h, t, run[n].left.self, id);
    Dealt(h, t, u, t.jobs[id], u.jobs[id]);
  }

  lemma PassOfRight(h: Md5, roots: RootPair, run: seq<Net>, steps: seq<NetStep>, n: nat)
    requires IsNetRun(h, roots, run, steps) && n < |steps|
    requires steps[n].Right? && steps[n].step.Local? && steps[n].step.step.RunPass?
    ensures |run| == |steps| + 1
    ensures steps[n].step.step.env.h == h && Pass(run[n].right, steps[n].step.step.env) == Some(run[n + 1].right)
  {
    hide Pass, NetInit;
    assert NetNext(h, roots, run[n], steps[n], run[n + 1]);
  }

  lemma ArrivedFor(h: Md5, t: Tables, peer: Self, id: Id)
    requires NodeOk(h, t, peer) && IsGenuine(h, t.jobs, id)
    ensures var m := t.jobs[id].data;
            DestField(m) == if IsConsensus(TypeField(m)) then t.self.name else Trimmed(t.self.name)
  {
    hide HashOk, TypeField, DestField, Tells, LPad, SysOk, NoticesOk, SelfOk, Trimmed;
    assert RowHonest(h, t.self, peer, t.jobs[id]);
  }

  /** The table, read for a row that is addressed to this node. */
  lemma Dealt(h: Md5, t: Tables, u: Tables, j: Job, k: Job)
    requires j.state == N1 && HashOk(h, j.data) && PassedAs(h, t, u, j, k) && Roots(t.jobs) == {t.self.name}
    requires DestField(j.data) == if IsConsensus(TypeField(j.data)) then t.self.name else Trimmed(t.self.name)
    ensures IsConsensus(TypeField(j.data)) ==> k == j.(state := C, kind := TypeField(j.data))
    ensures !IsConsensus(TypeField(j.data)) ==>
              (k == j.(state := N4, kind := TypeField(j.data)) <==> Trimmed(t.self.name) == t.self.name)
  {
    hide HashOk, TypeField, DestField, IsConsensus, Trimmed, Roots;
  }
}
