/** Whom messages are for: every message made for a job carries the names and the priority of that job. */
module Addressing {
  import opened Text
  import opened Message
  import opened Chunks
  import opened Tables
  import opened RunJobs
  import opened StateGraph
  import opened JobRuns
  import JobProperties

  // ---- one pass ----------------------------------------------------------------------------

  /** Row `c` with uuid `id` carries a piece of job `p`: it has the names and the priority of the job, and
      so has its message, which also tells the row's uuid and type and the time. */
  predicate IsPieceOf(h: Md5, id: Id, c: Job, p: Job, now: Stamp) {
    && c.state == S4 && c.source == p.source && c.dest == p.dest && c.priority == p.priority
    && (c.kind == TYPE_SINGLE || c.kind == TYPE_CHUNK || c.kind == TYPE_INFO)
    && HashOk(h, c.data) && IdField(c.data) == id && TypeField(c.data) == LPad(c.kind, 5)
    && Carries(c.data, BTrim(p.source), BTrim(p.dest), p.priority, now)
  }

  lemma SingleIsPiece(t: Tables, env: Env, id: Id, e: Endpoint)
    requires Joined(t, id, e, S3)
    ensures IsPieceOf(env.h, env.ids(Single(id, e)), SingleRow(t, env, id, e), t.jobs[id], env.now)
  {
    hide CreateMessage, Carries, HashOk, IdField, TypeField, BTrim, LPad;
    var j := t.jobs[id];
    Layout(env.h, env.ids(Single(id, e)), TYPE_SINGLE, [], t.files[j.data],
           BTrim(j.source), BTrim(j.dest), j.priority, env.now, t.sysinfo[e].capacity);
  }

  lemma ChunkIsPiece(t: Tables, env: Env, id: Id, e: Endpoint, idx: nat)
    requires Joined(t, id, e, S2) && t.sysinfo[e].capacity != OVERHEAD && idx < ChunkTotal(t, id, e)
    ensures IsPieceOf(env.h, env.ids(Chunk(id, e, idx)), ChunkRow(t, env, id, e, idx), t.jobs[id], env.now)
  {
    hide CreateMessage, Carries, HashOk, IdField, TypeField, BTrim, LPad, Piece, ChunkSubheader;
    var j, capacity := t.jobs[id], t.sysinfo[e].capacity;
    ChunksNeedRoom(|t.files[j.data]|, capacity - OVERHEAD);
    var piece := Piece(t.files[j.data], capacity - OVERHEAD, idx);
    Layout(env.h, env.ids(Chunk(id, e, idx)), TYPE_CHUNK, ChunkSubheader(idx, id, |piece|), piece,
           BTrim(j.source), BTrim(j.dest), j.priority, env.now, capacity);
  }

  lemma InfoIsPiece(t: Tables, env: Env, id: Id, e: Endpoint)
    requires Joined(t, id, e, S2) && t.sysinfo[e].capacity != OVERHEAD
    ensures IsPieceOf(env.h, env.ids(Info(id, e)), InfoRow(t, env, id, e), t.jobs[id], env.now)
  {
    hide CreateMessage, Carries, HashOk, IdField, TypeField, BTrim, LPad, InfoSubheader, ChunkTotal;
    var j, capacity := t.jobs[id], t.sysinfo[e].capacity;
    Layout(env.h, env.ids(Info(id, e)), TYPE_INFO, InfoSubheader(id, |t.files[j.data]|, ChunkTotal(t, id, e)), [],
           BTrim(j.source), BTrim(j.dest), j.priority, env.now, capacity);
  }

  /** The new rows of `b` are pieces of rows of `a`. */
  predicate NewPieces(h: Md5, a: Jobs, b: Jobs, now: Stamp) {
    forall id :: id in b && id !in a ==>
      b[id].parent in a && IsPieceOf(h, id, b[id], a[b[id].parent], now)
  }

  lemma SinglesArePieces(t: Tables, env: Env, u: Tables)
    requires WriteSingles(t, env) == Some(u)
    ensures NewPieces(env.h, t.jobs, u.jobs, env.now)
  {
    hide SingleMessage, IsPieceOf, Drawable;
    var rows := SingleRows(t, env);
    forall id | id in u.jobs && id !in t.jobs
      ensures u.jobs[id].parent in t.jobs && IsPieceOf(env.h, id, u.jobs[id], t.jobs[u.jobs[id].parent], env.now)
    {
      var s :| s in rows && env.ids(s) == id;
      assert rows[s] == SingleRow(t, env, s.job, s.peer) && u.jobs[id] == rows[s];
      SingleIsPiece(t, env, s.job, s.peer);
    }
  }

  lemma ChunksArePieces(t: Tables, env: Env, u: Tables)
    requires WriteChunks(t, env) == Some(u)
    ensures NewPieces(env.h, t.jobs, u.jobs, env.now)
  {
    hide ChunkMessage, IsPieceOf, Drawable, Piece, ChunkTotal;
    var rows := ChunkRows(t, env);
    forall id | id in u.jobs && id !in t.jobs
      ensures u.jobs[id].parent in t.jobs && IsPieceOf(env.h, id, u.jobs[id], t.jobs[u.jobs[id].parent], env.now)
    {
      var s :| s in rows && env.ids(s) == id;
      assert rows[s] == ChunkRow(t, env, s.job, s.peer, s.idx) && u.jobs[id] == rows[s];
      ChunkIsPiece(t, env, s.job, s.peer, s.idx);
    }
  }

  lemma InfosArePieces(t: Tables, env: Env, u: Tables)
    requires WriteInfos(t, env) == Some(u)
    ensures NewPieces(env.h, t.jobs, u.jobs, env.now)
  {
    hide InfoMessage, IsPieceOf, Drawable, ChunkTotal;
    var rows := InfoRows(t, env);
    forall id | id in u.jobs && id !in t.jobs
      ensures u.jobs[id].parent in t.jobs && IsPieceOf(env.h, id, u.jobs[id], t.jobs[u.jobs[id].parent], env.now)
    {
      var s :| s in rows && env.ids(s) == id;
      assert rows[s] == InfoRow(t, env, s.job, s.peer) && u.jobs[id] == rows[s];
      InfoIsPiece(t, env, s.job, s.peer);
    }
  }

  /** Rows keep what their pieces are named after. */
  predicate SameNames(a: Jobs, b: Jobs) {
    forall id :: id in a ==> id in b && SameName(a[id], b[id])
  }

  predicate SameName(j: Job, k: Job) {
    k.source == j.source && k.dest == j.dest && k.priority == j.priority
  }

  /** Pieces of a row are never split themselves. */
  lemma PiecesLater(h: Md5, a: Jobs, b: Jobs, c: Jobs, now: Stamp)
    requires NewPieces(h, a, b, now) && NewPieces(h, b, c, now)
    requires forall id :: id in b ==> id in c && c[id] == b[id]
    requires forall id :: id in a ==> id in b && b[id] == a[id]
    requires forall id :: id in c && id !in b ==> c[id].parent in a
    ensures NewPieces(h, a, c, now)
  {
    hide IsPieceOf;
  }

  lemma ChunkParents(t: Tables, env: Env, u: Tables)
    requires WriteChunks(t, env) == Some(u) || WriteInfos(t, env) == Some(u)
    ensures forall id :: id in u.jobs && id !in t.jobs ==>
              u.jobs[id].parent in t.jobs && t.jobs[u.jobs[id].parent].state == S2
  {
    hide ChunkMessage, InfoMessage, Drawable, Piece, ChunkTotal;
  }

  /** Every row that a successful split adds is a piece of the job it is a child of. */
  lemma SplitPieces(t: Tables, env: Env, u: Tables)
    requires Split(t, env) == Some(u)
    ensures NewPieces(env.h, t.jobs, u.jobs, env.now)
  {
    hide Split, WriteSingles, WriteChunks, WriteInfos, Waiting, Classified, IsPieceOf, NewPieces, Evolves, SameNames;
    var t2, t3, t4 := SplitStages(t, env, u);
    var t1 := Classify(t);
    WriteEvolves(t1, env, t2);
    WriteEvolves(t2, env, t3);
    WriteEvolves(t3, env, t4);
    SinglesArePieces(t1, env, t2);
    ChunksArePieces(t2, env, t3);
    InfosArePieces(t3, env, t4);
    ChunkParents(t2, env, t3);
    ChunkParents(t3, env, t4);
    PiecesLater(env.h, t1.jobs, t2.jobs, t3.jobs, env.now);
    PiecesLater(env.h, t1.jobs, t3.jobs, t4.jobs, env.now);
    ClassifiedEvolves(t);
    WaitingKeepsPieces(env.h, t, t1.jobs, t4.jobs, env.now);
  }

  lemma WaitingKeepsPieces(h: Md5, t: Tables, a: Jobs, b: Jobs, now: Stamp)
    requires NewPieces(h, a, b, now) && a == Classified(t)
    requires forall id :: id in a ==> id in b
    ensures NewPieces(h, t.jobs, Waiting(t.sysinfo, b), now)
  {
    hide NameKnown, Classified, IsPieceOf, SameName;
    ClassifiedNames(t);
    forall id | id in Waiting(t.sysinfo, b) && id !in t.jobs
      ensures b[id].parent in t.jobs && IsPieceOf(h, id, Waiting(t.sysinfo, b)[id], t.jobs[b[id].parent], now)
    {
      PieceOfSame(h, id, b[id], a[b[id].parent], t.jobs[b[id].parent], now);
      WaitingOthers(t.sysinfo, b, id);
    }
  }

  lemma ClassifiedNames(t: Tables)
    ensures Classified(t).Keys == t.jobs.Keys && SameNames(t.jobs, Classified(t))
  {
    hide Classified, Evolves, NameKnown;
    ClassifiedEvolves(t);
  }

  lemma PieceOfSame(h: Md5, id: Id, c: Job, p: Job, q: Job, now: Stamp)
    requires IsPieceOf(h, id, c, p, now) && SameName(q, p)
    ensures IsPieceOf(h, id, c, q, now) && c.state == S4
  {
    hide Carries, HashOk, IdField, TypeField, BTrim, LPad;
  }

  /** Every row in S-4 that a successful pass adds is a piece of its parent: its message has the parent's
      source, destination and priority, padded, and so has the row itself. */
  lemma PassPieces(t: Tables, env: Env, u: Tables)
    requires Pass(t, env) == Some(u)
    ensures forall id :: id in u.jobs && id !in t.jobs && u.jobs[id].state == S4 ==>
              u.jobs[id].parent in u.jobs && IsPieceOf(env.h, id, u.jobs[id], u.jobs[u.jobs[id].parent], env.now)
  {
    hide Pass, Check, Consensus, Split, Connect, IsPieceOf, Evolves, SplittingRow, ConsensusRow, CompletedRow, SameName;
    var t1, t2, t3 := PassStages(t, env, u);
    CheckEvolves(t, env, t1);
    ConsensusEvolves(t1, env, t2);
    SplitPieces(t2, env, t3);
    SplitEvolves(t2, env, t3);
    ConnectKeeps(t3, env, u);
    forall id | id in u.jobs && id !in t.jobs && u.jobs[id].state == S4
      ensures u.jobs[id].parent in u.jobs && IsPieceOf(env.h, id, u.jobs[id], u.jobs[u.jobs[id].parent], env.now)
    {
      if id in t2.jobs {
        ConsensusRowStays(t2.sysinfo, t2.jobs[id], t3.jobs[id]);
      } else {
        var p := u.jobs[id].parent;
        SplittingName(t2.sysinfo, t2.jobs[p], t3.jobs[p]);
        PieceOfSame(env.h, id, u.jobs[id], t2.jobs[p], u.jobs[p], env.now);
      }
    }
  }

  lemma SplittingName(sysinfo: Sysinfo, j: Job, k: Job)
    requires SplittingRow(sysinfo, j, k)
    ensures SameName(k, j)
  {
    hide NameKnown;
  }

  // ---- whole runs --------------------------------------------------------------------------

  /** The row and its message are addressed like the job. */
  predicate AddressedLike(c: Job, p: Job) {
    && c.source == p.source && c.dest == p.dest
    && SourceField(c.data) == LPad(BTrim(p.source), 5) && DestField(c.data) == LPad(BTrim(p.dest), 5)
  }

  predicate Addressed(root: Id, jobs: Jobs) {
    forall id :: id in jobs && jobs[id].parent != root ==>
      jobs[id].parent in jobs && AddressedLike(jobs[id], jobs[jobs[id].parent])
  }

  lemma PieceAddressed(h: Md5, id: Id, c: Job, p: Job, now: Stamp)
    requires IsPieceOf(h, id, c, p, now)
    ensures AddressedLike(c, p)
  {
    hide HashOk, IdField, TypeField, SourceField, DestField, PriorityField, StampField, BTrim, LPad;
  }

  lemma LikeSame(c: Job, p: Job, d: Job, q: Job)
    requires AddressedLike(c, p)
    requires d.data == c.data && d.source == c.source && d.dest == c.dest && q.source == p.source && q.dest == p.dest
    ensures AddressedLike(d, q)
  {
    hide SourceField, DestField, BTrim, LPad;
  }

  /** A pass changes neither the names of a row that is a child nor those of a row that has children. */
  lemma PassKin(h: Md5, root: Id, t: Tables, env: Env, u: Tables, id: Id)
    requires Inv(h, root, t) && Pass(t, env) == Some(u) && id in t.jobs && t.jobs[id].parent != root
    ensures t.jobs[id].parent in t.jobs && id in u.jobs && u.jobs[id].parent == t.jobs[id].parent
    ensures u.jobs[id].data == t.jobs[id].data && SameAddress(t.jobs[id], u.jobs[id])
    ensures u.jobs[id].parent in u.jobs && SameAddress(t.jobs[t.jobs[id].parent], u.jobs[u.jobs[id].parent])
  {
    hide Pass, PassedRow, Moved, Inv;
    PassDrains(t, env, u);
    KinStates(h, root, t, id);
    MovedAddress(t.jobs[id], u.jobs[id]);
    MovedAddress(t.jobs[t.jobs[id].parent], u.jobs[t.jobs[id].parent]);
  }

  lemma MovedAddress(j: Job, k: Job)
    requires Moved(j, k) && j.state != N1 && j.state != N2
    ensures k.data == j.data && k.parent == j.parent && SameAddress(j, k)
  {
    hide Reaches;
  }

  lemma KinStates(h: Md5, root: Id, t: Tables, id: Id)
    requires Inv(h, root, t) && id in t.jobs && t.jobs[id].parent != root
    ensures t.jobs[id].state != N1 && t.jobs[id].state != N2
    ensures t.jobs[id].parent in t.jobs
    ensures t.jobs[t.jobs[id].parent].state != N1 && t.jobs[t.jobs[id].parent].state != N2
  {
    hide FullSet, SingleSet, RowOk;
    var p := t.jobs[id].parent;
    ChildRow(root, t.jobs, id);
    assert id in Children(t.jobs, p);
    assert ParentOk(h, t, p);
  }

  lemma ChildRow(root: Id, jobs: Jobs, id: Id)
    requires id in jobs && RowOk(root, jobs, id) && jobs[id].parent != root
    ensures jobs[id].parent in jobs && Carrier(jobs[id].state)
  {
  }

  predicate SameAddress(j: Job, k: Job) {
    k.source == j.source && k.dest == j.dest
  }

  lemma NewParents(h: Md5, root: Id, t: Tables, env: Env, u: Tables, id: Id)
    requires Inv(h, root, t) && Pass(t, env) == Some(u) && id in u.jobs && id !in t.jobs && u.jobs[id].state == S5
    requires env.h == h && Inv(h, root, u)
    ensures u.jobs[id].parent == root
  {
    hide Pass, ParentOk, RowOk;
    assert RowOk(root, u.jobs, id);
    if u.jobs[id].parent != root { ChildRow(root, u.jobs, id); }
  }

  lemma PassAddressed(h: Md5, root: Id, t: Tables, env: Env, u: Tables)
    requires Inv(h, root, t) && Inv(h, root, u) && env.h == h && Pass(t, env) == Some(u) && Addressed(root, t.jobs)
    ensures Addressed(root, u.jobs)
  {
    hide Inv, Pass, AddressedLike, IsPieceOf, PassedRow, Evolves;
    PassPieces(t, env, u);
    PassDrains(t, env, u);
    forall id | id in u.jobs && u.jobs[id].parent != root
      ensures u.jobs[id].parent in u.jobs && AddressedLike(u.jobs[id], u.jobs[u.jobs[id].parent])
    {
      if id in t.jobs {
        PassParent(t, env, u, id);
        PassKin(h, root, t, env, u, id);
        LikeSame(t.jobs[id], t.jobs[t.jobs[id].parent], u.jobs[id], u.jobs[u.jobs[id].parent]);
      } else if u.jobs[id].state == S5 {
        NewParents(h, root, t, env, u, id);
      } else {
        PieceAddressed(h, id, u.jobs[id], u.jobs[u.jobs[id].parent], env.now);
      }
    }
  }

  lemma PassParent(t: Tables, env: Env, u: Tables, id: Id)
    requires Pass(t, env) == Some(u) && id in t.jobs
    ensures id in u.jobs && u.jobs[id].parent == t.jobs[id].parent
  {
    hide Pass, PassedRow, Reaches;
    PassDrains(t, env, u);
    assert Moved(t.jobs[id], u.jobs[id]);
  }

  lemma OtherAddressed(h: Md5, root: Id, t: Tables, step: JobStep, u: Tables)
    requires Next(h, root, t, step, u) && !step.RunPass? && Addressed(root, t.jobs)
    requires forall id :: id in t.jobs ==> t.jobs[id].parent in t.jobs
    ensures Addressed(root, u.jobs)
  {
    hide Next, AddressedLike, SameAddress;
    OtherKeeps(h, root, t, step, u);
    forall id | id in u.jobs && u.jobs[id].parent != root
      ensures u.jobs[id].parent in u.jobs && AddressedLike(u.jobs[id], u.jobs[u.jobs[id].parent])
    {
      var p := t.jobs[id].parent;
      KeptAddress(t.jobs[id], u.jobs[id]);
      KeptAddress(t.jobs[p], u.jobs[p]);
      LikeSame(t.jobs[id], t.jobs[p], u.jobs[id], u.jobs[p]);
    }
  }

  lemma KeptAddress(j: Job, k: Job)
    requires SameAddress(j, k)
    ensures k.source == j.source && k.dest == j.dest
  {
  }

  /** No other step changes what a row says or whose it is. */
  lemma OtherKeeps(h: Md5, root: Id, t: Tables, step: JobStep, u: Tables)
    requires Next(h, root, t, step, u) && !step.RunPass?
    ensures forall id :: id in t.jobs ==>
              && id in u.jobs && u.jobs[id].data == t.jobs[id].data && u.jobs[id].parent == t.jobs[id].parent
              && SameAddress(t.jobs[id], u.jobs[id])
    ensures forall id :: id in u.jobs && id !in t.jobs ==> u.jobs[id].parent == root
  {
    hide Next, SameAddress;
    NewBelowRoot(h, root, t, step, u);
    forall id | id in t.jobs
      ensures && id in u.jobs && u.jobs[id].data == t.jobs[id].data && u.jobs[id].parent == t.jobs[id].parent
              && SameAddress(t.jobs[id], u.jobs[id])
    {
      RowKept(h, root, t, step, u, id);
    }
  }

  lemma RowKept(h: Md5, root: Id, t: Tables, step: JobStep, u: Tables, id: Id)
    requires Next(h, root, t, step, u) && !step.RunPass? && id in t.jobs
    ensures id in u.jobs && u.jobs[id].data == t.jobs[id].data && u.jobs[id].parent == t.jobs[id].parent
    ensures SameAddress(t.jobs[id], u.jobs[id])
  {
    hide Arrival, Order;
  }

  lemma NewBelowRoot(h: Md5, root: Id, t: Tables, step: JobStep, u: Tables)
    requires Next(h, root, t, step, u) && !step.RunPass?
    ensures forall id :: id in u.jobs && id !in t.jobs ==> u.jobs[id].parent == root
  {
    hide LPad;
  }

  lemma {:induction false} AlwaysAddressed(h: Md5, root: Id, run: seq<Tables>, steps: seq<JobStep>, n: nat)
    requires JobProperties.IsRun(h, root, run, steps) && n < |run|
    ensures Addressed(root, run[n].jobs)
  {
    hide Inv, Next, Config, Addressed;
    if n == 0 {
      StartAddressed(root, run[0]);
    } else {
      AlwaysAddressed(h, root, run, steps, n - 1);
      JobProperties.RunInv(h, root, run, steps, n - 1);
      JobProperties.RunInv(h, root, run, steps, n);
      assert JobProperties.StepAt(h, root, run, steps, n - 1);
      StepAddressed(h, root, run[n - 1], steps[n - 1], run[n]);
    }
  }

  lemma StartAddressed(root: Id, t: Tables)
    requires JobProperties.Init(root, t)
    ensures Addressed(root, t.jobs)
  {
  }

  lemma StepAddressed(h: Md5, root: Id, t: Tables, step: JobStep, u: Tables)
    requires Inv(h, root, t) && Inv(h, root, u) && Next(h, root, t, step, u) && Addressed(root, t.jobs)
    ensures Addressed(root, u.jobs)
  {
    hide Inv, Addressed, Pass;
    if step.RunPass? {
      hide Next;
      PassStep(h, root, t, step, u);
      PassAddressed(h, root, t, step.env, u);
    } else {
      hide Next;
      ParentsThere(h, root, t);
      OtherAddressed(h, root, t, step, u);
    }
  }

  lemma PassStep(h: Md5, root: Id, t: Tables, step: JobStep, u: Tables)
    requires Next(h, root, t, step, u) && step.RunPass?
    ensures step.env.h == h && Pass(t, step.env) == Some(u)
  {
    hide Pass;
  }

  lemma ParentsThere(h: Md5, root: Id, t: Tables)
    requires Inv(h, root, t)
    ensures forall id :: id in t.jobs ==> t.jobs[id].parent in t.jobs
  {
    hide ParentOk, Carrier;
    forall id | id in t.jobs ensures t.jobs[id].parent in t.jobs { assert RowOk(root, t.jobs, id); }
  }

  /** In every state of every run each child goes by the names of its job, and so does its message. */
  lemma ChildAddressed(h: Md5, root: Id, run: seq<Tables>, steps: seq<JobStep>, n: nat, p: Id, c: Id)
    requires JobProperties.IsRun(h, root, run, steps) && n < |run| && p != root && c in Children(run[n].jobs, p)
    ensures p in run[n].jobs
    ensures run[n].jobs[c].source == run[n].jobs[p].source && run[n].jobs[c].dest == run[n].jobs[p].dest
    ensures SourceField(run[n].jobs[c].data) == LPad(BTrim(run[n].jobs[p].source), 5)
    ensures DestField(run[n].jobs[c].data) == LPad(BTrim(run[n].jobs[p].dest), 5)
  {
    hide JobProperties.IsRun;
    AlwaysAddressed(h, root, run, steps, n);
  }

  /** An order stays what it is. */
  predicate IsOrder(root: Id, jobs: Jobs, id: Id, name: Bytes, source: Bytes, dest: Bytes) {
    && id in jobs && jobs[id].data == name && jobs[id].source == source && jobs[id].dest == LPad(dest, 5)
    && jobs[id].parent == root && jobs[id].state != N1 && jobs[id].state != N2
  }

  lemma OrderStays(h: Md5, root: Id, t: Tables, step: JobStep, u: Tables,
                   id: Id, name: Bytes, source: Bytes, dest: Bytes)
    requires Next(h, root, t, step, u) && IsOrder(root, t.jobs, id, name, source, dest)
    ensures IsOrder(root, u.jobs, id, name, source, dest)
  {
    hide Pass, LPad, PassedRow, Moved;
    if step.RunPass? {
      PassDrains(t, step.env, u);
      MovedAddress(t.jobs[id], u.jobs[id]);
      NotUnchecked(t, step.env, u, id);
    }
  }

  lemma NotUnchecked(t: Tables, env: Env, u: Tables, id: Id)
    requires Pass(t, env) == Some(u) && id in t.jobs
    ensures id in u.jobs && u.jobs[id].state != N1 && u.jobs[id].state != N2
  {
    hide Pass, Moved, IsConsensus, NameKnown;
    PassDrains(t, env, u);
    assert PassedRow(u.sysinfo, t.jobs[id], u.jobs[id]);
  }

  lemma {:induction false} OrderKept(h: Md5, root: Id, run: seq<Tables>, steps: seq<JobStep>, i: nat, j: nat,
                                     id: Id, name: Bytes, source: Bytes, dest: Bytes)
    requires JobProperties.IsRun(h, root, run, steps) && i < j < |run| && steps[i] == Submit(id, name, source, dest)
    ensures IsOrder(root, run[j].jobs, id, name, source, dest)
  {
    hide IsOrder, Next, Config, JobProperties.Init;
    assert JobProperties.StepAt(h, root, run, steps, j - 1);
    if i < j - 1 {
      OrderKept(h, root, run, steps, i, j - 1, id, name, source, dest);
      OrderStays(h, root, run[j - 1], steps[j - 1], run[j], id, name, source, dest);
    } else {
      OrderMade(h, root, run[i], run[j], id, name, source, dest);
    }
  }

  lemma OrderMade(h: Md5, root: Id, t: Tables, u: Tables, id: Id, name: Bytes, source: Bytes, dest: Bytes)
    requires Next(h, root, t, Submit(id, name, source, dest), u)
    ensures IsOrder(root, u.jobs, id, name, source, dest)
  {
    hide LPad;
  }

  /** From the order to its messages: whatever a user orders for `dest`, every message ever made for it says so,
      as long as the name does not end in a blank, which is trimmed off. */
  lemma OrderedForDest(h: Md5, root: Id, run: seq<Tables>, steps: seq<JobStep>, i: nat, j: nat,
                       id: Id, name: Bytes, source: Bytes, dest: Bytes, c: Id)
    requires JobProperties.IsRun(h, root, run, steps) && i < j < |run| && steps[i] == Submit(id, name, source, dest)
    requires id != root && c in Children(run[j].jobs, id)
    ensures id in run[j].jobs && run[j].jobs[id].data == name
    ensures DestField(run[j].jobs[c].data) == LPad(BTrim(LPad(dest, 5)), 5)
    ensures LPad(dest, 5)[4] != SPACE ==> DestField(run[j].jobs[c].data) == LPad(dest, 5)
    ensures SourceField(run[j].jobs[c].data) == LPad(BTrim(source), 5)
  {
    hide JobProperties.IsRun, LPad, BTrim, DestField, SourceField;
    OrderKept(h, root, run, steps, i, j, id, name, source, dest);
    ChildAddressed(h, root, run, steps, j, id, c);
    if LPad(dest, 5)[4] != SPACE { LPadBTrim(LPad(dest, 5)); }
  }

  // ---- what users and other programs do to rows ----------------------------------------------

  /** A received message becomes a new row that nobody has looked at, below the root. */
  lemma ArrivalMade(h: Md5, root: Id, t: Tables, u: Tables, id: Id, data: Bytes, source: Bytes)
    requires Next(h, root, t, Arrive(id, data, source), u)
    ensures id !in t.jobs && id in u.jobs && u.jobs.Keys == t.jobs.Keys + {id}
    ensures var j := u.jobs[id]; j.data == data && j.source == source && j.parent == root && j.state == N1
    ensures forall i :: i in t.jobs ==> u.jobs[i] == t.jobs[i]
  {
  }

  /** A new priority holds for the job and for all its messages, and for no other row. */
  lemma PrioritySet(h: Md5, root: Id, t: Tables, u: Tables, id: Id, priority: Bytes, c: Id)
    requires Next(h, root, t, SetPriority(id, priority), u) && c in t.jobs
    ensures c in u.jobs
    ensures c == id || c in Children(t.jobs, id) ==> u.jobs[c] == t.jobs[c].(priority := priority)
    ensures c != id && c !in Children(t.jobs, id) ==> u.jobs[c] == t.jobs[c]
  {
  }

  /** A consensus message leaves S-5 only when its own sending ends: completed if it was sent, dead if not. */
  lemma SentEnds(h: Md5, root: Id, t: Tables, step: JobStep, u: Tables, id: Id)
    requires Next(h, root, t, step, u) && id in t.jobs && t.jobs[id].state == S5
    ensures id in u.jobs
    ensures u.jobs[id].state != S5 ==>
              step.Sent? && step.id == id && u.jobs[id] == t.jobs[id].(state := if step.ok then C else D)
    ensures step.Sent? && step.id == id ==> u.jobs[id].state != S5
  {
    hide Pass, LPad, PassedRow;
    if step.RunPass? {
      PassDrains(t, step.env, u);
      ReadyInPass(u.sysinfo, t.jobs[id], u.jobs[id]);
    }
  }

  lemma ReadyInPass(sysinfo: Sysinfo, j: Job, k: Job)
    requires PassedRow(sysinfo, j, k) && j.state == S5
    ensures k == j
  {
    hide IsConsensus, NameKnown;
  }
}
