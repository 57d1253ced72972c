/** What one pass does to each row, as one table instead of a sequence of statements. */
module PassTable {
  import opened Text
  import opened Message
  import opened Chunks
  import opened Tables
  import opened RunJobs
  import opened StateGraph
  import opened JobRuns
  import JobProperties

  // ---- the table ---------------------------------------------------------------------------

  /** A job in S-1 is split as its file's length demands: above `capacity - 172` bytes it waits for chunks, up to
      that for a single message; without the file or a capacity it stays. */
  predicate SplitAs(files: map<Bytes, Bytes>, sysinfo: Sysinfo, j: Job, k: Job) {
    && (forall e :: e in sysinfo && e.name == j.dest && sysinfo[e].capacity != 0 && j.data in files ==>
          k == j.(state := if |files[j.data]| > sysinfo[e].capacity - 172 then S2W else S3W))
    && ((j.data in files ==> forall e :: e in sysinfo && e.name == j.dest ==> sysinfo[e].capacity == 0) ==> k == j)
  }

  /** A message for this node is identified, and done with if it is a consensus message. */
  predicate IdentifiedAs(j: Job, k: Job) {
    k == j.(state := if IsConsensus(TypeField(j.data)) then C else N4, kind := TypeField(j.data))
  }

  /** What a pass makes of row `j`: a damaged message is dead, one for this node is identified, one for another
      node is a job for that node, an order waits until its destination is known, and the rest stays, but for
      parents whose children are complete. */
  predicate PassedAs(h: Md5, t: Tables, u: Tables, j: Job, k: Job) {
    match j.state
    case N1 => if HashOk(h, j.data) then CheckedAs(t, u, j, k) else k == j.(state := D)
    case N2 => CheckedAs(t, u, j, k)
    case N3 => IdentifiedAs(j, k)
    case N4 => k == if IsConsensus(j.kind) then j.(state := C) else j
    case S => if NameKnown(t.sysinfo, j.dest) then SplitAs(t.files, u.sysinfo, j.(state := S1), k) else k == j
    case S1 => SplitAs(t.files, u.sysinfo, j, k)
    case S2 => true
    case S3 => true
    case S2W => k == j || k == j.(state := C)
    case S3W => k == j || k == j.(state := C)
    case _ => k == j
  }

  predicate CheckedAs(t: Tables, u: Tables, j: Job, k: Job) {
    if DestField(j.data) in Roots(t.jobs) then IdentifiedAs(j, k)
    else SplitAs(t.files, u.sysinfo, j.(state := S1, dest := DestField(j.data)), k)
  }

  // ---- the statements, one after the other -------------------------------------------------

  /** What the first five statements leave of a row. */
  predicate TriagedAs(h: Md5, roots: set<Bytes>, j: Job, k: Job) {
    match j.state
    case N1 => if HashOk(h, j.data) then LocalAs(roots, j, k) else k == j.(state := D)
    case N2 => LocalAs(roots, j, k)
    case N3 => k == j.(state := N4, kind := TypeField(j.data))
    case _ => k == j
  }

  predicate LocalAs(roots: set<Bytes>, j: Job, k: Job) {
    if DestField(j.data) in roots then k == j.(state := N4, kind := TypeField(j.data))
    else k == j.(state := S1, dest := DestField(j.data))
  }

  lemma TriageExact(h: Md5, roots: set<Bytes>, j: Job)
    ensures TriagedAs(h, roots, j, TriageRow(h, roots, j))
  {
    hide HashOk, DestField, TypeField;
  }

  lemma CheckExact(t: Tables, env: Env, u: Tables, id: Id)
    requires Check(t, env) == Some(u) && id in t.jobs
    ensures id in u.jobs && u == t.(jobs := u.jobs)
    ensures t.jobs[id].state != S2W && t.jobs[id].state != S3W ==>
              TriagedAs(env.h, Roots(t.jobs), t.jobs[id], u.jobs[id])
    ensures t.jobs[id].state == S2W || t.jobs[id].state == S3W ==>
              u.jobs[id] == t.jobs[id] || u.jobs[id] == t.jobs[id].(state := C)
  {
    hide Triage, CompleteLarge, CompleteSmall, CountsReadable, Evolves, ParentsCompleted, TriagedAs, CompletedRow;
    var triaged := Triage(env.h, t.jobs);
    var large := CompleteLarge(triaged);
    TriageEvolves(env.h, t.jobs);
    TriageRowIs(env.h, t.jobs, id);
    TriageExact(env.h, Roots(t.jobs), t.jobs[id]);
    CompletionEvolves(triaged, large);
    CompletionEvolves(large, u.jobs);
    CompletedOnly(triaged, large, u.jobs, id);
    if t.jobs[id].state != S2W && t.jobs[id].state != S3W { NotWaiting(env.h, Roots(t.jobs), t.jobs[id], triaged[id]); }
  }

  lemma TriageRowIs(h: Md5, jobs: Jobs, id: Id)
    requires id in jobs
    ensures id in Triage(h, jobs) && Triage(h, jobs)[id] == TriageRow(h, Roots(jobs), jobs[id])
  {
    hide TriageRow;
  }

  lemma CompletedOnly(a: Jobs, b: Jobs, c: Jobs, id: Id)
    requires ParentsCompleted(a, b) && ParentsCompleted(b, c) && id in a
    ensures id in c
    ensures a[id].state != S2W && a[id].state != S3W ==> c[id] == a[id]
    ensures c[id] == a[id] || c[id] == a[id].(state := C)
  {
  }

  lemma NotWaiting(h: Md5, roots: set<Bytes>, j: Job, k: Job)
    requires TriagedAs(h, roots, j, k) && j.state != S2W && j.state != S3W
    ensures k.state != S2W && k.state != S3W
  {
    hide HashOk, DestField, TypeField;
  }

  lemma AskExact(t: Tables, env: Env, u: Tables, id: Id)
    requires Ask(t, env) == Some(u) && id in t.jobs
    ensures id in u.jobs
    ensures u.jobs[id] == if t.jobs[id].state == S && NameKnown(t.sysinfo, t.jobs[id].dest)
                          then t.jobs[id].(state := S1) else t.jobs[id]
  {
    hide NameKnown, RequestRows, Drawable;
  }

  lemma ConsensusRowExact(t: Tables, env: Env, u: Tables, id: Id)
    requires Consensus(t, env) == Some(u) && id in t.jobs
    ensures id in u.jobs && ConsensusRow(t.jobs[id], u.jobs[id])
    ensures t.jobs[id].state == S ==>
              u.jobs[id] == if NameKnown(t.sysinfo, t.jobs[id].dest) then t.jobs[id].(state := S1) else t.jobs[id]
  {
    hide Consensus, Ask, AcceptRequest, Answer, AcceptReply, NameKnown, Evolves, Closed, LPad, ConsensusRow;
    ConsensusEvolves(t, env, u);
    var asked, accepted, answered, resolved := ConsensusStages(t, env, u);
    AskExact(t, env, asked, id);
    AcceptRequestKeeps(asked, accepted);
    AnswerEvolves(accepted, env, answered);
    AcceptReplyKeeps(answered, resolved);
    if t.jobs[id].state == S {
      AnsweredOther(accepted.jobs[id], answered.jobs[id]);
      ClosedOthers(resolved.jobs, TYPE_REPLY, id);
    }
  }

  lemma AnsweredOther(j: Job, k: Job)
    requires AnsweredRow(j, k) && j.state != N4
    ensures k == j
  {
    hide LPad;
  }

  lemma ClosedOthers(jobs: Jobs, kind: Bytes, id: Id)
    requires id in jobs && jobs[id].state != N4
    ensures id in Closed(jobs, kind) && Closed(jobs, kind)[id] == jobs[id]
  {
    hide LPad;
  }

  /** The row after classification: marked by the length of its file. */
  lemma MarkedAs(t: Tables, j: Job)
    requires Config(t.sysinfo) && j.state == S1
    ensures var k := WholeRow(t, SplitRow(t, j));
            && (forall e :: e in t.sysinfo && e.name == j.dest && t.sysinfo[e].capacity != 0 && j.data in t.files ==>
                  k == j.(state := if |t.files[j.data]| > t.sysinfo[e].capacity - 172 then S2 else S3))
            && ((j.data in t.files ==> forall e :: e in t.sysinfo && e.name == j.dest ==> t.sysinfo[e].capacity == 0)
                ==> k == j)
  {
  }

  lemma WaitsAs(sysinfo: Sysinfo, jobs: Jobs, id: Id)
    requires id in jobs
    ensures id in Waiting(sysinfo, jobs)
    ensures Waiting(sysinfo, jobs)[id] ==
      if jobs[id].state == S2 && NameKnown(sysinfo, jobs[id].dest) then jobs[id].(state := S2W)
      else if jobs[id].state == S3 && NameKnown(sysinfo, jobs[id].dest) then jobs[id].(state := S3W)
      else jobs[id]
  {
    hide NameKnown;
  }

  lemma SplitRowExact(t: Tables, env: Env, u: Tables, id: Id)
    requires Split(t, env) == Some(u) && Config(t.sysinfo) && id in t.jobs && t.jobs[id].state == S1
    ensures id in u.jobs && SplitAs(t.files, t.sysinfo, t.jobs[id], u.jobs[id])
  {
    hide Split, WriteSingles, WriteChunks, WriteInfos, Waiting, Classified, Evolves, Config, WholeRow, SplitRow;
    var t2, t3, t4 := SplitStages(t, env, u);
    var t1 := Classify(t);
    WriteEvolves(t1, env, t2);
    WriteEvolves(t2, env, t3);
    WriteEvolves(t3, env, t4);
    ClassifiedEvolves(t);
    ClassifiedIs(t, id);
    assert t1.jobs == Classified(t);
    WaitsAs(t.sysinfo, t4.jobs, id);
    MarkedAs(t, t.jobs[id]);
    MarkedWaits(t, t.jobs[id], t1.jobs[id], u.jobs[id]);
  }

  lemma ClassifiedIs(t: Tables, id: Id)
    requires id in t.jobs
    ensures id in Classified(t) && Classified(t)[id] == WholeRow(t, SplitRow(t, t.jobs[id]))
  {
    hide WholeRow, SplitRow;
  }

  lemma MarkedWaits(t: Tables, j: Job, m: Job, k: Job)
    requires j.state == S1
    requires forall e :: e in t.sysinfo && e.name == j.dest && t.sysinfo[e].capacity != 0 && j.data in t.files ==>
               m == j.(state := if |t.files[j.data]| > t.sysinfo[e].capacity - 172 then S2 else S3)
    requires (j.data in t.files ==> forall e :: e in t.sysinfo && e.name == j.dest ==> t.sysinfo[e].capacity == 0)
             ==> m == j
    requires k == if m.state == S2 && NameKnown(t.sysinfo, m.dest) then m.(state := S2W)
                  else if m.state == S3 && NameKnown(t.sysinfo, m.dest) then m.(state := S3W)
                  else m
    ensures SplitAs(t.files, t.sysinfo, j, k)
  {
  }

  // ---- the pass ----------------------------------------------------------------------------

  /** Every row goes through a successful pass as the table says. */
  lemma PassRowExact(t: Tables, env: Env, u: Tables, id: Id)
    requires Pass(t, env) == Some(u) && Config(u.sysinfo) && id in t.jobs
    ensures id in u.jobs && PassedAs(env.h, t, u, t.jobs[id], u.jobs[id])
  {
    hide Pass, Check, Consensus, Split, Connect, Config, SplitAs, TriagedAs, ConsensusRow, Evolves, SplittingRow,
      CompletedRow, PassedAs;
    var t1, t2, t3 := PassStages(t, env, u);
    CheckExact(t, env, t1, id);
    ConsensusEvolves(t1, env, t2);
    ConsensusRowExact(t1, env, t2, id);
    SplitEvolves(t2, env, t3);
    ConnectKeeps(t3, env, u);
    if t2.jobs[id].state == S1 { SplitRowExact(t2, env, t3, id); }
    assert SplittingRow(t2.sysinfo, t2.jobs[id], t3.jobs[id]);
    Together(env.h, t, u, t.jobs[id], t1.jobs[id], t2.jobs[id], t3.jobs[id]);
  }

  lemma Together(h: Md5, t: Tables, u: Tables, j: Job, k: Job, l: Job, m: Job)
    requires j.state != S2W && j.state != S3W ==> TriagedAs(h, Roots(t.jobs), j, k)
    requires j.state == S2W || j.state == S3W ==> k == j || k == j.(state := C)
    requires ConsensusRow(k, l)
    requires k.state == S ==> l == if NameKnown(t.sysinfo, k.dest) then k.(state := S1) else k
    requires SplittingRow(u.sysinfo, l, m)
    requires l.state == S1 ==> SplitAs(t.files, u.sysinfo, l, m)
    ensures PassedAs(h, t, u, j, m)
  {
    hide SplitAs, HashOk, DestField, TypeField, Roots, IsConsensus, NameKnown;
  }

  // ---- what is local -----------------------------------------------------------------------

  /** Only the root is its own parent, so what is local is what goes by the root's destination. */
  lemma OneRoot(h: Md5, root: Id, t: Tables)
    requires Inv(h, root, t)
    ensures Roots(t.jobs) == {t.jobs[root].dest}
  {
    hide ParentOk, Carrier;
    forall id | id in t.jobs && t.jobs[id].parent == id ensures id == root { assert RowOk(root, t.jobs, id); }
    assert t.jobs[root].dest in Roots(t.jobs);
  }

  lemma RootStep(h: Md5, root: Id, t: Tables, step: JobStep, u: Tables)
    requires Inv(h, root, t) && Next(h, root, t, step, u)
    ensures root in u.jobs && u.jobs[root].dest == t.jobs[root].dest && u.self == t.self
  {
    hide Pass, ParentOk, RowOk, PassedRow, Moved, LPad;
    if step.RunPass? { RootPass(root, t, step.env, u); }
  }

  lemma RootPass(root: Id, t: Tables, env: Env, u: Tables)
    requires Pass(t, env) == Some(u) && root in t.jobs && t.jobs[root].state == N0
    ensures root in u.jobs && u.jobs[root] == t.jobs[root] && u.self == t.self
  {
    hide Pass, Moved, IsConsensus, NameKnown;
    PassDrains(t, env, u);
    assert PassedRow(u.sysinfo, t.jobs[root], u.jobs[root]);
  }

  /** In every state of every run a received message is for this node if and only if it names it. */
  lemma {:induction false} LocalMeansSelf(h: Md5, root: Id, run: seq<Tables>, steps: seq<JobStep>, n: nat)
    requires JobProperties.IsRun(h, root, run, steps) && n < |run|
    ensures Roots(run[n].jobs) == {run[n].self.name} && run[n].self == run[0].self
    ensures root in run[n].jobs && run[n].jobs[root].dest == run[n].self.name
  {
    hide Inv, Next, Config, Roots;
    JobProperties.RunInv(h, root, run, steps, n);
    OneRoot(h, root, run[n]);
    if n > 0 {
      LocalMeansSelf(h, root, run, steps, n - 1);
      JobProperties.RunInv(h, root, run, steps, n - 1);
      assert JobProperties.StepAt(h, root, run, steps, n - 1);
      RootStep(h, root, run[n - 1], steps[n - 1], run[n]);
    }
  }
}
