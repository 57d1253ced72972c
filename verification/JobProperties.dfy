/** Main properties of a node's job table: every file job gets its children exactly once, a parent is
    completed exactly when its children are, and the children of a large job carry its file. */
module JobProperties {
  import opened Text
  import opened Message
  import opened Chunks
  import opened Tables
  import opened RunJobs
  import opened StateGraph
  import opened JobRuns

  // ---- every step keeps the invariant ------------------------------------------------------

  lemma CalmGrown(h: Md5, root: Id, t: Tables, u: Tables)
    requires Inv(h, root, t) && Preserves(t, u) && CalmRows(root, t.jobs, u.jobs)
    requires forall n :: n in u.files ==> |u.files[n]| <= MAX_FILE
    ensures Inv(h, root, u)
    ensures forall p :: p in t.jobs && p != root ==> Grown(h, t, u, p)
  {
    hide Inv, Preserves, LargeCut, SmallCut, Children;
    CalmStep(h, root, t, u);
    forall p | p in t.jobs && p != root ensures Grown(h, t, u, p) {
      assert CalmRow(t.jobs[p], u.jobs[p]);
    }
  }

  lemma StillCalm(root: Id, jobs: Jobs, id: Id, k: Job)
    requires id in jobs && RowOk(root, jobs, id) && k.state == jobs[id].state
    ensures CalmRow(jobs[id], k)
  {
  }

  lemma RestateCalm(h: Md5, root: Id, t: Tables, id: Id, s: State)
    requires Inv(h, root, t) && id in t.jobs && CalmRow(t.jobs[id], t.jobs[id].(state := s))
    ensures Preserves(t, Restate(t, id, s)) && CalmRows(root, t.jobs, Restate(t, id, s).jobs)
  {
    hide ParentOk, CalmRow, RowOk;
    var u := Restate(t, id, s);
    forall i | i in t.jobs ensures CalmRow(t.jobs[i], u.jobs[i]) {
      if i != id { StillCalm(root, t.jobs, i, u.jobs[i]); }
    }
  }

  lemma SameStatesCalm(h: Md5, root: Id, t: Tables, u: Tables)
    requires Inv(h, root, t) && u.jobs.Keys == t.jobs.Keys
    requires forall i :: i in t.jobs ==> u.jobs[i].state == t.jobs[i].state
    ensures CalmRows(root, t.jobs, u.jobs)
  {
    hide ParentOk, CalmRow, RowOk;
    forall i | i in t.jobs ensures CalmRow(t.jobs[i], u.jobs[i]) { StillCalm(root, t.jobs, i, u.jobs[i]); }
  }

  lemma InsertCalm(h: Md5, root: Id, t: Tables, u: Tables, id: Id, j: Job)
    requires Inv(h, root, t) && id !in t.jobs && NewRow(root, j) && u == t.(jobs := t.jobs[id := j])
    ensures Preserves(t, u) && CalmRows(root, t.jobs, u.jobs)
  {
    hide ParentOk, CalmRow, RowOk, NewRow;
    forall i | i in t.jobs ensures CalmRow(t.jobs[i], u.jobs[i]) { StillCalm(root, t.jobs, i, u.jobs[i]); }
  }

  lemma StepInv(h: Md5, root: Id, t: Tables, step: JobStep, u: Tables)
    requires Inv(h, root, t) && Next(h, root, t, step, u) && Config(u.sysinfo)
    ensures Inv(h, root, u)
    ensures forall p :: p in t.jobs && p != root ==> Grown(h, t, u, p)
    ensures !step.RunPass? ==> forall p :: p in t.jobs && p != root ==> Children(u.jobs, p) == Children(t.jobs, p)
  {
    hide Pass, Config, Grown, CalmRow, Children, LPad;
    if step.RunPass? {
      PassInv(h, root, t, step.env, u);
    } else {
      assert FilesFit(u) by { StepFiles(h, root, t, step, u); }
      StepCalm(h, root, t, step, u);
      CalmStep(h, root, t, u);
      CalmGrown(h, root, t, u);
    }
  }

  predicate FilesFit(t: Tables) {
    forall n :: n in t.files ==> |t.files[n]| <= MAX_FILE
  }

  lemma StepFiles(h: Md5, root: Id, t: Tables, step: JobStep, u: Tables)
    requires FilesFit(t) && Next(h, root, t, step, u) && !step.RunPass?
    ensures FilesFit(u)
  {
    hide LPad;
  }

  lemma StepCalm(h: Md5, root: Id, t: Tables, step: JobStep, u: Tables)
    requires Inv(h, root, t) && Next(h, root, t, step, u) && !step.RunPass?
    ensures Preserves(t, u) && CalmRows(root, t.jobs, u.jobs)
  {
    hide Inv, CalmRows, Preserves, Restate, LPad;
    match step
    case HandOff(id) => RestateCalm(h, root, t, id, S4W);
    case Report(id, ok) => RestateCalm(h, root, t, id, if ok then C else D);
    case Sent(id, ok) => RestateCalm(h, root, t, id, if ok then C else D);
    case Arrive(id, data, source) => InsertCalm(h, root, t, u, id, Arrival(root, data, source));
    case Submit(id, name, source, dest) => InsertCalm(h, root, t, u, id, Order(root, name, source, dest));
    case ImportFile(name, file) => SameRowsCalm(h, root, t, step, u);
    case SetPriority(id, priority) => SameRowsCalm(h, root, t, step, u);
    case Elsewhere => SameRowsCalm(h, root, t, step, u);
  }

  /** Steps that change no row's state, contents or parent. */
  lemma SameRowsCalm(h: Md5, root: Id, t: Tables, step: JobStep, u: Tables)
    requires Inv(h, root, t) && Next(h, root, t, step, u)
    requires step.ImportFile? || step.SetPriority? || step.Elsewhere?
    ensures Preserves(t, u) && CalmRows(root, t.jobs, u.jobs)
  {
    hide Inv, CalmRows;
    SameStatesCalm(h, root, t, u);
  }

  // ---- completion of parents ---------------------------------------------------------------

  /** In a full set the info row is the only one of its kind, and its count is the number of chunks. */
  lemma FullSetInfo(h: Md5, t: Tables, p: Id, info: Id, chunks: seq<Id>, capacity: int)
    requires FullSetOf(h, t, p, info, chunks, capacity) && |FileOf(t, p)| <= MAX_FILE
    ensures IsInfoRow(t.jobs[info]) && CountField(t.jobs[info].data) == Some(|chunks|)
    ensures forall c :: c in chunks ==> c in t.jobs && !IsInfoRow(t.jobs[c])
  {
    hide IsChunk, IsInfo, CountField, TypeField, Children, LPad;
    InfoFields(h, FileOf(t, p), p, capacity, t.jobs[info].data);
    forall c | c in chunks ensures c in t.jobs && !IsInfoRow(t.jobs[c]) {
      var i :| 0 <= i < |chunks| && chunks[i] == c;
      ChunkShape(h, FileOf(t, p), p, capacity, i, t.jobs[c].data);
      TypesDifferent();
    }
  }

  lemma FullSetCopies(h: Md5, t: Tables, p: Id, info: Id, chunks: seq<Id>, capacity: int)
    requires FullSetOf(h, t, p, info, chunks, capacity) && |FileOf(t, p)| <= MAX_FILE
    ensures Copies(t.jobs, info) == {info}
    ensures t.jobs[info].parent == p
  {
    hide IsChunk, IsInfo, FileOf;
    FullSetInfo(h, t, p, info, chunks, capacity);
    assert info in Children(t.jobs, p);
    forall c | c in Copies(t.jobs, info) ensures c == info {
      assert c in Children(t.jobs, p);
    }
  }

  lemma {:induction false} SizeOfSet(s: seq<Id>)
    requires NoDuplicates(s)
    ensures |(set c | c in s)| == |s|
  {
    if s != [] {
      var front, last := s[..|s| - 1], s[|s| - 1];
      SizeOfSet(front);
      assert s == front + [last];
      assert (set c | c in s) == (set c | c in front) + {last};
    }
  }

  lemma SubsetOfSize(a: set<Id>, b: set<Id>)
    requires a <= b && |a| == |b|
    ensures a == b
  {
    assert |b - a| == |b| - |a|;
  }

  lemma DoneAreChildren(jobs: Jobs, p: Id)
    ensures DoneChildren(jobs, p) <= Children(jobs, p)
  {
  }

  /** The completion query compares exactly: it selects a parent with a full set if and only if all the
      children are completed. */
  lemma CompleteIff(h: Md5, t: Tables, p: Id)
    requires FullSet(h, t, p) && |FileOf(t, p)| <= MAX_FILE
    ensures Complete(t.jobs, p) <==> DoneChildren(t.jobs, p) == Children(t.jobs, p)
  {
    hide IsChunk, IsInfo, FileOf, HoldsChunks, CountField, IsInfoRow, Copies, Children, DoneChildren, PiecesOf;
    var info, chunks, capacity :| FullSetOf(h, t, p, info, chunks, capacity);
    var children, done := Children(t.jobs, p), DoneChildren(t.jobs, p);
    FullSetInfo(h, t, p, info, chunks, capacity);
    FullSetCopies(h, t, p, info, chunks, capacity);
    SizeOfSet(chunks);
    assert |children| == |chunks| + 1;
    DoneAreChildren(t.jobs, p);
    if Complete(t.jobs, p) {
      var i :| i in t.jobs && t.jobs[i].parent == p && IsInfoRow(t.jobs[i]) && done != {}
        && CountField(t.jobs[i].data).Some?
        && CountField(t.jobs[i].data).value + 1 == |Copies(t.jobs, i)| * |done|;
      InChildren(t.jobs, p, i);
      assert i == info;
      SubsetOfSize(done, children);
    }
  }

  lemma InChildren(jobs: Jobs, p: Id, i: Id)
    requires i in jobs && jobs[i].parent == p
    ensures i in Children(jobs, p)
  {
  }

  /** Every child of `p` is in one of the states of rows that carry a piece of it. */
  predicate ChildrenCarry(jobs: Jobs, p: Id) {
    forall c :: c in jobs && jobs[c].parent == p ==> Carrier(jobs[c].state)
  }

  lemma ChildrenAreCarriers(root: Id, t: Tables, p: Id)
    requires p != root && forall id :: id in t.jobs ==> RowOk(root, t.jobs, id)
    ensures ChildrenCarry(t.jobs, p)
  {
    forall c | c in t.jobs && t.jobs[c].parent == p ensures Carrier(t.jobs[c].state) {
      assert RowOk(root, t.jobs, c);
    }
  }

  /** Rows that carry pieces are not touched, so the children of `p` stay as they are. */
  lemma SameKin(a: Jobs, b: Jobs, p: Id)
    requires a.Keys == b.Keys && ChildrenCarry(a, p)
    requires forall id :: id in a ==> b[id].parent == a[id].parent
    requires forall id :: id in a && Carrier(a[id].state) ==> b[id] == a[id]
    ensures Children(b, p) == Children(a, p) && DoneChildren(b, p) == DoneChildren(a, p) && ChildrenCarry(b, p)
  {
  }

  lemma TriageKin(t: Tables, h: Md5, p: Id)
    requires ChildrenCarry(t.jobs, p)
    ensures var b := Triage(h, t.jobs);
            && Children(b, p) == Children(t.jobs, p) && DoneChildren(b, p) == DoneChildren(t.jobs, p)
            && ChildrenCarry(b, p)
  {
    hide Triage, Evolves, CompletedRow, Children, DoneChildren, ChildrenCarry;
    TriageEvolves(h, t.jobs);
    EvolvesPreserves(t, t.(jobs := Triage(h, t.jobs)));
    SameKin(t.jobs, Triage(h, t.jobs), p);
  }

  lemma LargeKin(a: Jobs, p: Id)
    requires ChildrenCarry(a, p)
    ensures DoneChildren(CompleteLarge(a), p) == DoneChildren(a, p)
  {
    hide Children, DoneChildren, ChildrenCarry, Complete;
    SameKin(a, CompleteLarge(a), p);
  }

  /** The rows below a parent are not touched by the checking statements. */
  lemma TriageSet(h: Md5, root: Id, t: Tables, p: Id)
    requires Inv(h, root, t) && p in t.jobs && p != root
    ensures FullSet(h, t, p) ==> FullSet(h, t.(jobs := Triage(h, t.jobs)), p)
  {
    hide ParentOk, FullSet, SingleSet, Triage, Evolves, CompletedRow, RowOk, ChildrenCarry, Children;
    TriageEvolves(h, t.jobs);
    EvolvesPreserves(t, t.(jobs := Triage(h, t.jobs)));
    ChildrenAreCarriers(root, t, p);
    TriageKin(t, h, p);
    SetsKept(h, t, t.(jobs := Triage(h, t.jobs)), p);
  }

  /** Later statements of the pass leave a waiting or completed parent alone. */
  lemma AfterCheck(t: Tables, env: Env, u: Tables, p: Id) returns (checked: Tables)
    requires Pass(t, env) == Some(u) && p in t.jobs && (t.jobs[p].state == S2W || t.jobs[p].state == S3W)
    ensures Check(t, env) == Some(checked) && p in checked.jobs && p in u.jobs && u.jobs[p] == checked.jobs[p]
  {
    hide Pass, Check, Consensus, Split, Connect, Evolves, CompletedRow, ConsensusRow, SplittingRow;
    var t2, t3;
    checked, t2, t3 := PassStages(t, env, u);
    CheckEvolves(t, env, checked);
    ConsensusEvolves(checked, env, t2);
    SplitEvolves(t2, env, t3);
    ConnectKeeps(t3, env, u);
    assert CompletedRow(t.jobs[p], checked.jobs[p]) && ConsensusRow(checked.jobs[p], t2.jobs[p]);
    assert SplittingRow(t2.sysinfo, t2.jobs[p], t3.jobs[p]);
    ParentRow(t2.sysinfo, t.jobs[p], checked.jobs[p], t2.jobs[p], t3.jobs[p]);
  }

  lemma ParentRow(sysinfo: Sysinfo, j: Job, k: Job, l: Job, m: Job)
    requires CompletedRow(j, k) && ConsensusRow(k, l) && SplittingRow(sysinfo, l, m)
    requires j.state == S2W || j.state == S3W
    ensures m == k
  {
    hide IsConsensus, NameKnown;
  }

  lemma CheckLarge(t: Tables, env: Env, u: Tables, p: Id)
    requires Check(t, env) == Some(u) && p in t.jobs && t.jobs[p].state == S2W
    requires Triage(env.h, t.jobs).Keys == t.jobs.Keys && Triage(env.h, t.jobs)[p] == t.jobs[p]
    ensures p in u.jobs && u.jobs[p].state == if Complete(Triage(env.h, t.jobs), p) then C else S2W
  {
    hide Triage, Complete, CountsReadable, DoneChildren;
  }

  lemma CheckSmall(t: Tables, env: Env, u: Tables, p: Id)
    requires Check(t, env) == Some(u) && p in t.jobs && t.jobs[p].state == S3W
    requires Triage(env.h, t.jobs).Keys == t.jobs.Keys && Triage(env.h, t.jobs)[p] == t.jobs[p]
    ensures p in u.jobs
    ensures u.jobs[p].state == if DoneChildren(CompleteLarge(Triage(env.h, t.jobs)), p) != {} then C else S3W
  {
    hide Triage, Complete, CountsReadable, DoneChildren;
  }

  /** Parent completion is exact: a pass completes a job that waits for its children if and only if all
      its children are completed when the pass begins. */
  lemma CompletionExact(h: Md5, root: Id, t: Tables, env: Env, u: Tables, p: Id)
    requires Inv(h, root, t) && env.h == h && Pass(t, env) == Some(u)
    requires p in t.jobs && (t.jobs[p].state == S2W || t.jobs[p].state == S3W)
    ensures Children(t.jobs, p) != {}
    ensures p in u.jobs && (u.jobs[p].state == C || u.jobs[p].state == t.jobs[p].state)
    ensures u.jobs[p].state == C <==> forall c :: c in Children(t.jobs, p) ==> t.jobs[c].state == C
  {
    hide Pass, Check, Triage, Complete, FullSet, SingleSet, FileOf, Evolves, CompletedRow, RowOk, Children,
      DoneChildren, ChildrenCarry, CompleteLarge;
    var checked := AfterCheck(t, env, u, p);
    var triaged := t.(jobs := Triage(h, t.jobs));
    TriageEvolves(h, t.jobs);
    ChildrenAreCarriers(root, t, p);
    TriageKin(t, h, p);
    DoneIsAll(t.jobs, p);
    assert ParentOk(h, t, p);
    if t.jobs[p].state == S2W {
      TriageSet(h, root, t, p);
      FileFits(h, root, t, triaged, p);
      CompleteIff(h, triaged, p);
      CheckLarge(t, env, checked, p);
      FullSetNonempty(h, t, p);
    } else {
      CheckSmall(t, env, checked, p);
      LargeKin(triaged.jobs, p);
      SingleDone(h, t, p);
    }
  }

  lemma FileFits(h: Md5, root: Id, t: Tables, u: Tables, p: Id)
    requires Inv(h, root, t) && u.files == t.files
    ensures |FileOf(u, p)| <= MAX_FILE
  {
    hide ParentOk, RowOk;
  }

  lemma DoneIsAll(jobs: Jobs, p: Id)
    ensures DoneChildren(jobs, p) == Children(jobs, p) <==> forall c :: c in Children(jobs, p) ==> jobs[c].state == C
  {
    assert forall c :: c in DoneChildren(jobs, p) <==> c in Children(jobs, p) && jobs[c].state == C;
  }

  lemma FullSetNonempty(h: Md5, t: Tables, p: Id)
    requires FullSet(h, t, p)
    ensures Children(t.jobs, p) != {}
  {
    hide IsChunk, IsInfo, HoldsChunks, Children;
    var info, chunks, capacity :| FullSetOf(h, t, p, info, chunks, capacity);
    assert info in Children(t.jobs, p);
  }

  /** The one child of a small job decides alone. */
  lemma SingleDone(h: Md5, t: Tables, p: Id)
    requires SingleSet(h, t, p)
    ensures Children(t.jobs, p) != {}
    ensures DoneChildren(t.jobs, p) != {} <==> DoneChildren(t.jobs, p) == Children(t.jobs, p)
  {
    hide IsSingle, FileOf;
    var c, capacity :| SingleSetOf(h, t, p, c, capacity);
    assert c in Children(t.jobs, p);
    DoneAreChildren(t.jobs, p);
  }

  // ---- whole runs --------------------------------------------------------------------------

  /** A fresh node: only the root job, whose destination is the node itself, and no files. */
  predicate Init(root: Id, t: Tables) {
    && t.jobs.Keys == {root} && t.jobs[root].parent == root && t.jobs[root].state == N0
    && t.jobs[root].dest == t.self.name
    && t.files == map[]
  }

  ghost predicate StepAt(h: Md5, root: Id, run: seq<Tables>, steps: seq<JobStep>, i: nat)
    requires i < |steps| < |run|
  {
    Next(h, root, run[i], steps[i], run[i + 1]) && Config(run[i + 1].sysinfo)
  }

  /** A run from a fresh node, during which sysinfo stays in order. */
  ghost predicate IsRun(h: Md5, root: Id, run: seq<Tables>, steps: seq<JobStep>) {
    && |run| == |steps| + 1 && Init(root, run[0])
    && forall i :: 0 <= i < |steps| ==> StepAt(h, root, run, steps, i)
  }

  lemma InitInv(h: Md5, root: Id, t: Tables)
    requires Init(root, t)
    ensures Inv(h, root, t)
  {
    assert RowOk(root, t.jobs, root);
  }

  lemma {:induction false} RunInv(h: Md5, root: Id, run: seq<Tables>, steps: seq<JobStep>, i: nat)
    requires IsRun(h, root, run, steps) && i < |run|
    ensures Inv(h, root, run[i])
  {
    hide Inv, Next, Config;
    if i == 0 {
      InitInv(h, root, run[0]);
    } else {
      RunInv(h, root, run, steps, i - 1);
      assert StepAt(h, root, run, steps, i - 1);
      StepInv(h, root, run[i - 1], steps[i - 1], run[i]);
    }
  }

  lemma RunStep(h: Md5, root: Id, run: seq<Tables>, steps: seq<JobStep>, i: nat, p: Id)
    requires IsRun(h, root, run, steps) && i < |steps| && p in run[i].jobs && p != root
    ensures Grown(h, run[i], run[i + 1], p)
    ensures Children(run[i + 1].jobs, p) != Children(run[i].jobs, p) ==> steps[i].RunPass?
  {
    hide Inv, Next, Config, Grown, Children;
    RunInv(h, root, run, steps, i);
    assert StepAt(h, root, run, steps, i);
    StepInv(h, root, run[i], steps[i], run[i + 1]);
  }

  /** Once a job is split, or is past splitting, its children are fixed. */
  lemma {:induction false} ChildrenFixed(h: Md5, root: Id, run: seq<Tables>, steps: seq<JobStep>, i: nat, j: nat, p: Id)
    requires IsRun(h, root, run, steps) && i <= j < |run|
    requires p in run[i].jobs && p != root && !Unsplit(run[i].jobs[p].state)
    ensures p in run[j].jobs && !Unsplit(run[j].jobs[p].state) && Children(run[j].jobs, p) == Children(run[i].jobs, p)
  {
    hide IsRun, Unsplit, Children, LargeCut, SmallCut;
    if i < j {
      ChildrenFixed(h, root, run, steps, i, j - 1, p);
      RunLength(h, root, run, steps);
      RunStep(h, root, run, steps, j - 1, p);
    }
  }

  lemma RunLength(h: Md5, root: Id, run: seq<Tables>, steps: seq<JobStep>)
    requires IsRun(h, root, run, steps)
    ensures |run| == |steps| + 1
  {
    hide Next, Config;
  }

  /** Children come once. If the children of a job change at step `i` of any run, then that step is a pass,
      the job had no children and was not split before, it now waits for exactly the set of children that
      carries its file, cut at the capacity sysinfo has for its destination, and that set never changes again. */
  lemma ChildrenOnce(h: Md5, root: Id, run: seq<Tables>, steps: seq<JobStep>, i: nat, j: nat, p: Id)
    requires IsRun(h, root, run, steps) && i < |steps| && i < j < |run|
    requires p in run[i].jobs && p != root
    requires Children(run[i + 1].jobs, p) != Children(run[i].jobs, p)
    ensures steps[i].RunPass? && Children(run[i].jobs, p) == {} && Unsplit(run[i].jobs[p].state)
    ensures p in run[i + 1].jobs && p in run[j].jobs
    ensures || (run[i + 1].jobs[p].state == S2W && LargeCut(h, run[i + 1], p))
            || (run[i + 1].jobs[p].state == S3W && SmallCut(h, run[i + 1], p))
    ensures Children(run[j].jobs, p) == Children(run[i + 1].jobs, p)
  {
    hide IsRun, Children, LargeCut, SmallCut;
    RunLength(h, root, run, steps);
    RunStep(h, root, run, steps, i, p);
    ChildrenFixed(h, root, run, steps, i + 1, j, p);
  }

  // ---- a child that failed -----------------------------------------------------------------

  predicate AwaitsChildren(s: State) {
    s == S2W || s == S3W
  }

  /** A dead row stays dead, and a parent with a dead child is not completed by the step. */
  lemma DeadStep(h: Md5, root: Id, t: Tables, step: JobStep, u: Tables, p: Id, c: Id)
    requires Inv(h, root, t) && Next(h, root, t, step, u) && Config(u.sysinfo)
    requires p in t.jobs && p != root && AwaitsChildren(t.jobs[p].state)
    requires c in Children(t.jobs, p) && t.jobs[c].state == D
    ensures p in u.jobs && u.jobs[p].state == t.jobs[p].state && c in Children(u.jobs, p) && u.jobs[c].state == D
  {
    hide Inv, Pass, Config, FullSet, SingleSet, Evolves, PassedRow;
    StepInv(h, root, t, step, u);
    assert Grown(h, t, u, p);
    if step.RunPass? {
      CompletionExact(h, root, t, step.env, u, p);
      PassDrains(t, step.env, u);
      DeadRow(u.sysinfo, t.jobs[c], u.jobs[c]);
    }
  }

  lemma DeadRow(sysinfo: Sysinfo, j: Job, k: Job)
    requires PassedRow(sysinfo, j, k) && j.state == D
    ensures k == j
  {
    hide IsConsensus, NameKnown;
  }

  /** The code does not pass a failed chunk on to its parent: from the moment one child is dead, the
      parent waits in S-2W or S-3W for the rest of any run. */
  lemma {:induction false} DeadChildBlocks(h: Md5, root: Id, run: seq<Tables>, steps: seq<JobStep>, i: nat, j: nat,
      p: Id, c: Id)
    requires IsRun(h, root, run, steps) && i <= j < |run|
    requires p in run[i].jobs && p != root && AwaitsChildren(run[i].jobs[p].state)
    requires c in Children(run[i].jobs, p) && run[i].jobs[c].state == D
    ensures p in run[j].jobs && run[j].jobs[p].state == run[i].jobs[p].state
    ensures c in Children(run[j].jobs, p) && run[j].jobs[c].state == D
  {
    hide Inv, Next, Config;
    if i < j {
      DeadChildBlocks(h, root, run, steps, i, j - 1, p, c);
      RunInv(h, root, run, steps, j - 1);
      assert StepAt(h, root, run, steps, j - 1);
      DeadStep(h, root, run[j - 1], steps[j - 1], run[j], p, c);
    }
  }

  // ---- from the job table to the other node ------------------------------------------------

  /** The contents of the rows with ids `ids`. */
  function Datas(jobs: Jobs, ids: seq<Id>): (r: seq<Bytes>)
    ensures |r| == |ids| && forall i :: 0 <= i < |ids| ==> r[i] == DataOf(jobs, ids[i])
  {
    if ids == [] then [] else [DataOf(jobs, ids[0])] + Datas(jobs, ids[1..])
  }

  /** The children of a job that waits in S-2W, delivered in any order among any other messages,
      reassemble to the file the job names. */
  lemma ChildrenCarryFile(h: Md5, t: Tables, p: Id, info: Id, chunks: seq<Id>, capacity: int, others: seq<Bytes>,
      rows: seq<Bytes>)
    requires FullSetOf(h, t, p, info, chunks, capacity) && |FileOf(t, p)| <= MAX_FILE && |chunks| <= MAX_CHUNKS
    requires forall o :: o in others ==> !IsChunkOf(o, p)
    requires multiset(rows) == multiset(Datas(t.jobs, chunks)) + multiset{DataOf(t.jobs, info)} + multiset(others)
    ensures Ready(rows, DataOf(t.jobs, info)) && Assemble(rows, p) == Some(FileOf(t, p))
  {
    hide IsChunk, IsInfo, FileOf, Ready, Assemble, IsChunkOf, Children, Datas;
    assert IsTransfer(h, FileOf(t, p), p, capacity, Datas(t.jobs, chunks), DataOf(t.jobs, info));
    FileRoundTrip(h, FileOf(t, p), p, capacity, Datas(t.jobs, chunks), DataOf(t.jobs, info), others, rows);
  }
}
