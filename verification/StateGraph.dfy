/** The documented graph of job states, and what one pass does to every row with respect to it. */
module StateGraph {
  import opened Text
  import opened Message
  import opened Chunks
  import opened Tables
  import opened RunJobs

  /** The edges a pass may follow. */
  predicate Edge(a: State, b: State) {
    || (a == N1 && (b == N2 || b == D))
    || (a == N2 && (b == N3 || b == S1))
    || (a == N3 && b == N4)
    || (a == N4 && b == C)
    || (a == S && b == S1)
    || (a == S1 && (b == S2 || b == S3))
    || (a == S2 && b == S2W)
    || (a == S3 && b == S3W)
    || (a == S2W && b == C)
    || (a == S3W && b == C)
  }

  predicate IsPath(p: seq<State>) {
    p != [] && forall i :: 0 <= i < |p| - 1 ==> Edge(p[i], p[i + 1])
  }

  ghost predicate Reaches(a: State, b: State) {
    exists p :: IsPath(p) && p[0] == a && p[|p| - 1] == b
  }

  lemma ReachesStep(a: State, b: State)
    requires a == b || Edge(a, b)
    ensures Reaches(a, b)
  {
    var p := if a == b then [a] else [a, b];
    assert IsPath(p) && p[0] == a && p[|p| - 1] == b;
  }

  lemma ReachesTrans(a: State, b: State, c: State)
    requires Reaches(a, b) && Reaches(b, c)
    ensures Reaches(a, c)
  {
    var p :| IsPath(p) && p[0] == a && p[|p| - 1] == b;
    var q :| IsPath(q) && q[0] == b && q[|q| - 1] == c;
    var r := p + q[1..];
    assert IsPath(r) && r[0] == a && r[|r| - 1] == c;
  }

  /** The row has moved along the graph, and only its state, kind and destination may differ. */
  ghost predicate Moved(j: Job, k: Job) {
    && Reaches(j.state, k.state)
    && j.data == k.data && j.source == k.source && j.parent == k.parent && j.priority == k.priority
    && (j.dest == k.dest || j.state == N1 || j.state == N2)
    && (j.kind == k.kind || j.state == N1 || j.state == N2 || j.state == N3)
  }

  /** No row is lost, and every row has only moved along the graph. */
  ghost predicate Evolves(a: Jobs, b: Jobs) {
    forall id :: id in a ==> id in b && Moved(a[id], b[id])
  }

  lemma EvolvesTrans(a: Jobs, b: Jobs, c: Jobs)
    requires Evolves(a, b) && Evolves(b, c)
    ensures Evolves(a, c)
  {
    hide Moved;
    forall id | id in a ensures id in c && Moved(a[id], c[id]) {
      assert id in b;
      MovedTrans(a[id], b[id], c[id]);
    }
  }

  lemma MovedTrans(j: Job, k: Job, l: Job)
    requires Moved(j, k) && Moved(k, l)
    ensures Moved(j, l)
  {
    hide Reaches;
    ReachesTrans(j.state, k.state, l.state);
    NoWayBack(j.state, k.state);
  }

  /** Nothing leads back into the states of unchecked rows. */
  lemma NoWayBack(a: State, b: State)
    requires Reaches(a, b)
    ensures b == N1 ==> a == N1
    ensures b == N2 ==> a == N1 || a == N2
    ensures b == N3 ==> a == N1 || a == N2 || a == N3
  {
    var p :| IsPath(p) && p[0] == a && p[|p| - 1] == b;
    var n := |p|;
    if n > 1 { assert Edge(p[n - 2], p[n - 2 + 1]); }
    if n > 2 { assert Edge(p[n - 3], p[n - 3 + 1]); }
    if n > 3 { assert Edge(p[n - 4], p[n - 4 + 1]); }
  }

  lemma MovedStep(j: Job, k: Job)
    requires k == j.(state := k.state)
    requires j.state == k.state || Edge(j.state, k.state)
    ensures Moved(j, k)
  {
    ReachesStep(j.state, k.state);
  }

  /** A received row that has not been looked at. */
  predicate Unchecked(s: State) {
    s == N1 || s == N2 || s == N3
  }

  lemma TriageMoves(h: Md5, roots: set<Bytes>, j: Job)
    ensures var k := TriageRow(h, roots, j);
            && Moved(j, k)
            && (if Unchecked(j.state) then k.state == N4 || k.state == S1 || k.state == D else k == j)
  {
    hide HashOk, DestField, TypeField, Reaches;
    var a := Rejected(h, Verified(h, j));
    var b := Foreign(roots, Local(roots, a));
    var c := Identified(b);
    ReachesStep(j.state, a.state);
    ReachesStep(a.state, b.state);
    ReachesStep(b.state, c.state);
    ReachesTrans(j.state, a.state, b.state);
    ReachesTrans(j.state, b.state, c.state);
  }

  lemma InsertEvolves(jobs: Jobs, rows: map<Slot, Job>, ids: Slot -> Id, r: Jobs)
    requires InsertRows(jobs, rows, ids) == Some(r)
    ensures Evolves(jobs, r)
  {
    hide Moved;
    forall id | id in jobs ensures id in r && Moved(jobs[id], r[id]) { MovedStep(jobs[id], r[id]); }
  }

  /** Each row changes at most its state, along one edge. */
  lemma StatementEvolves(a: Jobs, b: Jobs)
    requires a.Keys == b.Keys
    requires forall id :: id in a ==>
               b[id] == a[id].(state := b[id].state) && (a[id].state == b[id].state || Edge(a[id].state, b[id].state))
    ensures Evolves(a, b)
  {
    hide Moved;
    forall id | id in a ensures id in b && Moved(a[id], b[id]) { MovedStep(a[id], b[id]); }
  }

  // ---- the parts of a pass -----------------------------------------------------------------

  /** What the checking and completing statements do to a row. */
  predicate CompletedRow(j: Job, k: Job) {
    if Unchecked(j.state) then k.state == N4 || k.state == S1 || k.state == D
    else if j.state == S2W || j.state == S3W then k == j || k == j.(state := C)
    else k == j
  }

  predicate CompletedRows(a: Jobs, b: Jobs) {
    a.Keys == b.Keys && forall id :: id in a ==> CompletedRow(a[id], b[id])
  }

  /** Only parents that wait for their children change, and only to completed. */
  predicate ParentsCompleted(a: Jobs, b: Jobs) {
    a.Keys == b.Keys && forall id :: id in a ==> ParentCompleted(a[id], b[id])
  }

  predicate ParentCompleted(j: Job, k: Job) {
    k == j || ((j.state == S2W || j.state == S3W) && k == j.(state := C))
  }

  lemma CompletionEvolves(a: Jobs, b: Jobs)
    requires b == CompleteLarge(a) || b == CompleteSmall(a)
    ensures Evolves(a, b) && ParentsCompleted(a, b)
  {
    hide Complete, DoneChildren, Evolves;
    StatementEvolves(a, b);
  }

  lemma TriageEvolves(h: Md5, a: Jobs)
    ensures Triage(h, a).Keys == a.Keys && Evolves(a, Triage(h, a))
    ensures forall id :: id in a ==> CompletedRow(a[id], Triage(h, a)[id]) && !Unchecked(Triage(h, a)[id].state)
    ensures forall id :: id in a && !Unchecked(a[id].state) ==> Triage(h, a)[id] == a[id]
  {
    hide TriageRow, Moved;
    var roots := Roots(a);
    forall id | id in a
      ensures Moved(a[id], Triage(h, a)[id])
      ensures CompletedRow(a[id], Triage(h, a)[id]) && !Unchecked(Triage(h, a)[id].state)
      ensures !Unchecked(a[id].state) ==> Triage(h, a)[id] == a[id]
    {
      TriageMoves(h, roots, a[id]);
    }
  }

  lemma CheckEvolves(t: Tables, env: Env, u: Tables)
    requires Check(t, env) == Some(u)
    ensures u == t.(jobs := u.jobs) && Evolves(t.jobs, u.jobs) && CompletedRows(t.jobs, u.jobs)
  {
    hide Triage, CompleteLarge, CompleteSmall, CountsReadable, Evolves, ParentsCompleted, CompletedRow;
    var triaged := Triage(env.h, t.jobs);
    var large := CompleteLarge(triaged);
    TriageEvolves(env.h, t.jobs);
    CompletionEvolves(triaged, large);
    CompletionEvolves(large, u.jobs);
    EvolvesTrans(t.jobs, triaged, large);
    EvolvesTrans(t.jobs, large, u.jobs);
    CompletedTwice(t.jobs, triaged, large, u.jobs);
  }

  lemma CompletedTwice(a: Jobs, b: Jobs, c: Jobs, d: Jobs)
    requires CompletedRows(a, b) && ParentsCompleted(b, c) && ParentsCompleted(c, d)
    requires forall id :: id in b ==> !Unchecked(b[id].state)
    ensures CompletedRows(a, d)
  {
    hide CompletedRow, ParentCompleted, Unchecked;
    forall id | id in a ensures CompletedRow(a[id], d[id]) { CompletedRowTwice(a[id], b[id], c[id], d[id]); }
  }

  lemma CompletedRowTwice(j: Job, k: Job, l: Job, m: Job)
    requires CompletedRow(j, k) && ParentCompleted(k, l) && ParentCompleted(l, m) && !Unchecked(k.state)
    ensures CompletedRow(j, m)
  {
  }

  predicate IsConsensus(kind: Bytes) {
    kind == LPad(TYPE_REQUEST, 5) || kind == LPad(TYPE_REPLY, 5)
  }

  /** What the consensus statements do to a row. */
  predicate ConsensusRow(j: Job, k: Job) {
    if j.state == S then k == j || k == j.(state := S1)
    else if j.state == N4 then k == if IsConsensus(j.kind) then j.(state := C) else j
    else k == j
  }

  predicate ConsensusRows(a: Jobs, b: Jobs) {
    && (forall id :: id in a ==> id in b && ConsensusRow(a[id], b[id]))
    && SameParents(a, b)
  }

  /** The consensus messages a pass writes wait in S-5, next to the rows they answer. */
  predicate ConsensusOnly(jobs: Jobs, rows: map<Slot, Job>) {
    forall s :: s in rows ==>
      rows[s].state == S5 && s.job in jobs && rows[s].parent == jobs[s.job].parent
      && (jobs[s.job].state == S || jobs[s.job].state == N4)
  }

  lemma RequestRowsShape(t: Tables, env: Env)
    ensures ConsensusOnly(t.jobs, RequestRows(t, env))
  {
    hide ConsensusMessage;
  }

  lemma ReplyRowsShape(t: Tables, env: Env)
    ensures ConsensusOnly(t.jobs, ReplyRows(t, env))
  {
    hide ConsensusMessage, CapacityField, SourceField, LPad;
  }

  /** New rows have the parents of the rows they are about. */
  predicate SameParents(a: Jobs, b: Jobs) {
    forall id :: id in b && id !in a ==>
      b[id].state == S5 && exists i :: i in a && b[id].parent == a[i].parent && (a[i].state == S || a[i].state == N4)
  }

  lemma InsertConsensus(jobs: Jobs, rows: map<Slot, Job>, ids: Slot -> Id, r: Jobs)
    requires InsertRows(jobs, rows, ids) == Some(r) && ConsensusOnly(jobs, rows)
    ensures Evolves(jobs, r) && SameParents(jobs, r)
  {
    hide Evolves, Drawable;
    InsertEvolves(jobs, rows, ids, r);
  }

  /** Statements that leave S-5 rows alone leave the new rows alone. */
  lemma SameAfter(a: Jobs, b: Jobs, c: Jobs)
    requires SameParents(a, b) && b.Keys == c.Keys
    requires forall id :: id in b && b[id].state == S5 ==> c[id] == b[id]
    ensures SameParents(a, c)
  {
  }

  lemma AskEvolves(t: Tables, env: Env, u: Tables)
    requires Ask(t, env) == Some(u)
    ensures u == t.(jobs := u.jobs) && Evolves(t.jobs, u.jobs) && SameParents(t.jobs, u.jobs)
    ensures forall id :: id in t.jobs ==> id in u.jobs && AdmittedRow(t.jobs[id], u.jobs[id])
  {
    hide NameKnown, Evolves, RequestRows, InsertRows, SameParents;
    var rows := RequestRows(t, env);
    var jobs := InsertRows(t.jobs, rows, env.ids).value;
    RequestRowsShape(t, env);
    InsertConsensus(t.jobs, rows, env.ids, jobs);
    SameAfter(t.jobs, jobs, u.jobs);
    StatementEvolves(jobs, u.jobs);
    EvolvesTrans(t.jobs, jobs, u.jobs);
  }

  predicate AdmittedRow(j: Job, k: Job) {
    k == j || (j.state == S && k == j.(state := S1))
  }

  lemma ClosedEvolves(a: Jobs, kind: Bytes)
    ensures Evolves(a, Closed(a, kind)) && Closed(a, kind).Keys == a.Keys
  {
    hide LPad, Evolves;
    StatementEvolves(a, Closed(a, kind));
  }

  predicate AnsweredRow(j: Job, k: Job) {
    k == if j.state == N4 && j.kind == LPad(TYPE_REQUEST, 5) then j.(state := C) else j
  }

  lemma AnswerEvolves(t: Tables, env: Env, u: Tables)
    requires Answer(t, env) == Some(u)
    ensures u == t.(jobs := u.jobs) && Evolves(t.jobs, u.jobs) && SameParents(t.jobs, u.jobs)
    ensures forall id :: id in t.jobs ==> id in u.jobs && AnsweredRow(t.jobs[id], u.jobs[id])
  {
    hide LPad, Evolves, ReplyRows, InsertRows, SameParents;
    var rows := ReplyRows(t, env);
    var jobs := InsertRows(t.jobs, rows, env.ids).value;
    ReplyRowsShape(t, env);
    InsertConsensus(t.jobs, rows, env.ids, jobs);
    SameAfter(t.jobs, jobs, u.jobs);
    ClosedEvolves(jobs, TYPE_REQUEST);
    EvolvesTrans(t.jobs, jobs, u.jobs);
  }

  lemma AcceptRequestKeeps(t: Tables, u: Tables)
    requires AcceptRequest(t) == Some(u)
    ensures u == t.(sysinfo := u.sysinfo, notices := u.notices)
  {
    hide Readable, CapacityField, PortField, IpField, SourceField, LPad;
  }

  lemma AcceptReplyKeeps(t: Tables, u: Tables)
    requires AcceptReply(t) == Some(u)
    ensures u == t.(sysinfo := u.sysinfo, notices := u.notices)
  {
    hide ReadableReply, CapacityField, PortField, SourceField, LPad, KnownReplies;
  }

  lemma ConsensusEvolves(t: Tables, env: Env, u: Tables)
    requires Consensus(t, env) == Some(u)
    ensures u == t.(jobs := u.jobs, sysinfo := u.sysinfo, notices := u.notices)
    ensures Evolves(t.jobs, u.jobs) && ConsensusRows(t.jobs, u.jobs)
  {
    hide Ask, Answer, AcceptRequest, AcceptReply, Consensus, LPad, Evolves, SameParents;
    var t1, t2, t3, t4 := ConsensusStages(t, env, u);
    AskEvolves(t, env, t1);
    AcceptRequestKeeps(t1, t2);
    AnswerEvolves(t2, env, t3);
    AcceptReplyKeeps(t3, t4);
    ClosedEvolves(t4.jobs, TYPE_REPLY);
    EvolvesTrans(t.jobs, t1.jobs, t3.jobs);
    EvolvesTrans(t.jobs, t3.jobs, u.jobs);
    SameParentsTrans(t.jobs, t1.jobs, t3.jobs);
    ClosedSame(t.jobs, t3.jobs);
  }

  lemma SameParentsTrans(a: Jobs, b: Jobs, c: Jobs)
    requires SameParents(a, b) && SameParents(b, c)
    requires forall id :: id in a ==> id in b && AdmittedRow(a[id], b[id])
    requires forall id :: id in b ==> id in c && AnsweredRow(b[id], c[id])
    requires Evolves(a, b)
    ensures SameParents(a, c)
  {
    hide LPad, Reaches;
  }

  lemma ClosedSame(a: Jobs, b: Jobs)
    requires SameParents(a, b)
    ensures SameParents(a, Closed(b, TYPE_REPLY))
  {
    hide LPad, SameParents;
    SameAfter(a, b, Closed(b, TYPE_REPLY));
  }

  /** What the splitting statements do to a row. */
  predicate SplittingRow(sysinfo: Sysinfo, j: Job, k: Job) {
    if j.state == S1 then k == j || (NameKnown(sysinfo, j.dest) && (k == j.(state := S2W) || k == j.(state := S3W)))
    else if j.state == S2 && NameKnown(sysinfo, j.dest) then k == j.(state := S2W)
    else if j.state == S3 && NameKnown(sysinfo, j.dest) then k == j.(state := S3W)
    else k == j
  }

  predicate SplittingRows(sysinfo: Sysinfo, a: Jobs, b: Jobs) {
    && (forall id :: id in a ==> id in b && SplittingRow(sysinfo, a[id], b[id]))
    && (forall id :: id in b && id !in a ==> b[id].state == S4)
  }

  lemma WriteEvolves(t: Tables, env: Env, u: Tables)
    requires WriteSingles(t, env) == Some(u) || WriteChunks(t, env) == Some(u) || WriteInfos(t, env) == Some(u)
    ensures u == t.(jobs := u.jobs) && Evolves(t.jobs, u.jobs)
    ensures forall id :: id in t.jobs ==> id in u.jobs && u.jobs[id] == t.jobs[id]
    ensures forall id :: id in u.jobs && id !in t.jobs ==> u.jobs[id].state == S4
  {
    hide Evolves, Drawable, SingleMessage, ChunkMessage, InfoMessage, Piece, ChunkTotal, Joined, Divisible;
    if WriteSingles(t, env) == Some(u) {
      InsertEvolves(t.jobs, SingleRows(t, env), env.ids, u.jobs);
    } else if WriteChunks(t, env) == Some(u) {
      InsertEvolves(t.jobs, ChunkRows(t, env), env.ids, u.jobs);
    } else {
      InsertEvolves(t.jobs, InfoRows(t, env), env.ids, u.jobs);
    }
  }

  /** A row is only classified when its destination is known. */
  predicate ClassifiedRow(sysinfo: Sysinfo, j: Job, k: Job) {
    k == j || (j.state == S1 && NameKnown(sysinfo, j.dest) && (k == j.(state := S2) || k == j.(state := S3)))
  }

  lemma ClassifiedEvolves(t: Tables)
    ensures Classified(t).Keys == t.jobs.Keys && Evolves(t.jobs, Classified(t))
    ensures forall id :: id in t.jobs ==>
              ClassifiedRow(t.sysinfo, t.jobs[id], Classified(t)[id])
  {
    hide Evolves, WholeRow, SplitRow;
    forall id | id in t.jobs
      ensures ClassifiedRow(t.sysinfo, t.jobs[id], WholeRow(t, SplitRow(t, t.jobs[id])))
    {
      ClassifiedRowKnown(t, t.jobs[id]);
    }
    StatementEvolves(t.jobs, Classified(t));
  }

  lemma ClassifiedRowKnown(t: Tables, j: Job)
    ensures ClassifiedRow(t.sysinfo, j, WholeRow(t, SplitRow(t, j)))
  {
    if TooLarge(t, j) {
      var e :| e in t.sysinfo && e.name == j.dest;
    } else if Fits(t, j) {
      var e :| e in t.sysinfo && e.name == j.dest;
    }
  }

  lemma WaitingEvolves(sysinfo: Sysinfo, a: Jobs)
    ensures Evolves(a, Waiting(sysinfo, a)) && Waiting(sysinfo, a).Keys == a.Keys
  {
    hide Evolves, NameKnown;
    StatementEvolves(a, Waiting(sysinfo, a));
  }

  lemma WaitingRow(sysinfo: Sysinfo, a: Jobs, id: Id, j: Job)
    requires id in a && ClassifiedRow(sysinfo, j, a[id])
    ensures SplittingRow(sysinfo, j, Waiting(sysinfo, a)[id])
  {
    hide NameKnown;
  }

  lemma WaitingOthers(sysinfo: Sysinfo, a: Jobs, id: Id)
    requires id in a && a[id].state == S4
    ensures Waiting(sysinfo, a)[id] == a[id]
  {
    hide NameKnown;
  }

  lemma SplitEvolves(t: Tables, env: Env, u: Tables)
    requires Split(t, env) == Some(u)
    ensures u == t.(jobs := u.jobs)
    ensures Evolves(t.jobs, u.jobs) && SplittingRows(t.sysinfo, t.jobs, u.jobs)
  {
    hide Split, Classified, WriteSingles, WriteChunks, WriteInfos, Evolves, NameKnown, ClassifiedRow, SplittingRow,
      Waiting;
    var t2, t3, t4 := SplitStages(t, env, u);
    var t1 := Classify(t);
    ClassifiedEvolves(t);
    WriteEvolves(t1, env, t2);
    WriteEvolves(t2, env, t3);
    WriteEvolves(t3, env, t4);
    WaitingEvolves(t.sysinfo, t4.jobs);
    EvolvesTrans(t.jobs, t1.jobs, t2.jobs);
    EvolvesTrans(t.jobs, t2.jobs, t3.jobs);
    EvolvesTrans(t.jobs, t3.jobs, t4.jobs);
    EvolvesTrans(t.jobs, t4.jobs, u.jobs);
    forall id | id in t4.jobs ensures id in t.jobs ==> SplittingRow(t.sysinfo, t.jobs[id], u.jobs[id]) {
      if id in t.jobs { WaitingRow(t.sysinfo, t4.jobs, id, t.jobs[id]); }
    }
    forall id | id in u.jobs && id !in t.jobs ensures u.jobs[id].state == S4 {
      WaitingOthers(t.sysinfo, t4.jobs, id);
    }
  }

  lemma ConnectKeeps(t: Tables, env: Env, u: Tables)
    requires Connect(t, env) == Some(u)
    ensures u == t.(conns := u.conns, comms := u.comms, nextComm := u.nextComm)
  {
    hide WithConns, WithComms, SerialFits, OpenKeys, CloseKeys;
  }

  // ---- the whole pass ----------------------------------------------------------------------

  /** What a whole pass does to a row. */
  predicate PassedRow(sysinfo: Sysinfo, j: Job, k: Job) {
    && !Unchecked(k.state)
    && (k.state == N4 ==> !IsConsensus(k.kind))
    && (k.state == S2 || k.state == S3 <==> (j.state == S2 || j.state == S3) && !NameKnown(sysinfo, j.dest))
    && (j.state == N0 || j.state == S4 || j.state == S4W || j.state == S5 || j.state == C || j.state == D ==> k == j)
    && (k.state == S4 || k.state == S4W || k.state == S5 ==> k == j)
  }

  predicate PassedRows(sysinfo: Sysinfo, a: Jobs, b: Jobs) {
    && (forall id :: id in a ==> id in b && PassedRow(sysinfo, a[id], b[id]))
    && (forall id :: id in b && id !in a ==> b[id].state == S4 || b[id].state == S5)
  }

  lemma RowChain(sysinfo: Sysinfo, j: Job, k: Job, l: Job, m: Job)
    requires CompletedRow(j, k) && ConsensusRow(k, l) && SplittingRow(sysinfo, l, m)
    ensures PassedRow(sysinfo, j, m)
  {
    hide IsConsensus, NameKnown;
  }

  /** A pass drains the transient states. From any table, after a pass that succeeds no row is in N-1,
      N-2 or N-3 and no consensus message is in N-4; a row is in S-2 or S-3 if and only if it was
      there before the pass and its destination is not in sysinfo; new rows are in S-4 or S-5; and every
      row that was there has kept its contents and moved along a path of the state graph. */
  lemma PassDrains(t: Tables, env: Env, u: Tables)
    requires Pass(t, env) == Some(u)
    ensures Evolves(t.jobs, u.jobs) && PassedRows(u.sysinfo, t.jobs, u.jobs)
    ensures u.files == t.files && u.self == t.self
  {
    hide Pass, Check, Consensus, Split, Connect, Evolves, CompletedRow, ConsensusRow, SplittingRow, PassedRow;
    var t1, t2, t3 := PassStages(t, env, u);
    CheckEvolves(t, env, t1);
    ConsensusEvolves(t1, env, t2);
    SplitEvolves(t2, env, t3);
    ConnectKeeps(t3, env, u);
    EvolvesTrans(t.jobs, t1.jobs, t2.jobs);
    EvolvesTrans(t.jobs, t2.jobs, t3.jobs);
    forall id | id in t.jobs ensures id in u.jobs && PassedRow(u.sysinfo, t.jobs[id], u.jobs[id]) {
      RowChain(u.sysinfo, t.jobs[id], t1.jobs[id], t2.jobs[id], t3.jobs[id]);
    }
    forall id | id in u.jobs && id !in t.jobs ensures u.jobs[id].state == S4 || u.jobs[id].state == S5 {
      if id in t2.jobs { ConsensusRowStays(u.sysinfo, t2.jobs[id], t3.jobs[id]); }
    }
  }

  lemma ConsensusRowStays(sysinfo: Sysinfo, j: Job, k: Job)
    requires j.state == S5 && SplittingRow(sysinfo, j, k)
    ensures k == j
  {
  }
}
