/** The tables as mutable state, and `run_jobs` as the sequence of its statements in source order, inside one
    transaction. Statement by statement it does what the pass is specified to do row by row. */
module Databases {
  import opened Text
  import opened Message
  import opened Chunks
  import opened Tables
  import opened RunJobs

  lemma SameRoots(a: Jobs, b: Jobs)
    requires a.Keys == b.Keys && forall id :: id in a ==> b[id].parent == a[id].parent && b[id].dest == a[id].dest
    ensures Roots(b) == Roots(a)
  {
  }

  /** The first five statements, each over the whole table, are one function of each row. */
  lemma TriageInOrder(h: Md5, jobs: Jobs, a: Jobs, b: Jobs, c: Jobs, d: Jobs, e: Jobs)
    requires a == map id | id in jobs :: Verified(h, jobs[id])
    requires b == map id | id in a :: Rejected(h, a[id])
    requires c == map id | id in b :: Local(Roots(b), b[id])
    requires d == map id | id in c :: Foreign(Roots(c), c[id])
    requires e == map id | id in d :: Identified(d[id])
    ensures e == Triage(h, jobs)
  {
    hide HashOk, DestField, TypeField, Roots;
    SameRoots(jobs, a);
    SameRoots(a, b);
    SameRoots(b, c);
  }

  // ---- the completion query ----------------------------------------------------------------

  /** A group of the completion query: the parent and the contents of an info row. */
  datatype Group = Group(parent: Id, data: Bytes)

  function GroupOf(j: Job): Group {
    Group(j.parent, j.data)
  }

  /** The info rows among `seen` that fall into group `g`. */
  function Members(jobs: Jobs, seen: set<Id>, g: Group): set<Id> {
    set i | i in seen && i in jobs && IsInfoRow(jobs[i]) && GroupOf(jobs[i]) == g
  }

  /** How many joined rows group `g` has when the info rows `seen` have been joined with all rows. */
  function Joins(jobs: Jobs, seen: set<Id>, g: Group): nat {
    |Members(jobs, seen, g)| * |DoneChildren(jobs, g.parent)|
  }

  lemma OneMore(jobs: Jobs, seen: set<Id>, i: Id, g: Group)
    requires i in jobs && i !in seen
    ensures Joins(jobs, seen + {i}, g) ==
      Joins(jobs, seen, g) + if IsInfoRow(jobs[i]) && GroupOf(jobs[i]) == g then |DoneChildren(jobs, g.parent)| else 0
  {
    hide IsInfoRow, DoneChildren;
    if IsInfoRow(jobs[i]) && GroupOf(jobs[i]) == g {
      assert Members(jobs, seen + {i}, g) == Members(jobs, seen, g) + {i};
    } else {
      assert Members(jobs, seen + {i}, g) == Members(jobs, seen, g);
    }
  }

  function CountIn(counts: map<Group, nat>, g: Group): nat {
    if g in counts then counts[g] else 0
  }

  /** `r` counts `n` more rows of group `g` than `counts`. */
  ghost predicate Adds(counts: map<Group, nat>, r: map<Group, nat>, g: Group, n: nat) {
    forall k :: CountIn(r, k) == CountIn(counts, k) + if k == g then n else 0
  }

  /** A group exists only when it has a row. */
  predicate NoEmptyGroup(counts: map<Group, nat>) {
    forall g :: g in counts ==> counts[g] > 0
  }

  function DoneAmong(jobs: Jobs, seen: set<Id>, p: Id): set<Id> {
    set c | c in seen && c in jobs && jobs[c].parent == p && jobs[c].state == C
  }

  lemma OneMoreDone(jobs: Jobs, seen: set<Id>, c: Id, p: Id)
    requires c in jobs && c !in seen
    ensures |DoneAmong(jobs, seen + {c}, p)| ==
      |DoneAmong(jobs, seen, p)| + if jobs[c].parent == p && jobs[c].state == C then 1 else 0
  {
    if jobs[c].parent == p && jobs[c].state == C {
      assert DoneAmong(jobs, seen + {c}, p) == DoneAmong(jobs, seen, p) + {c};
    } else {
      assert DoneAmong(jobs, seen + {c}, p) == DoneAmong(jobs, seen, p);
    }
  }

  /** Joins one info row with every completed row of the same parent: each joined row counts once. */
  method JoinRow(jobs: Jobs, i: Id, counts: map<Group, nat>) returns (r: map<Group, nat>)
    requires i in jobs && NoEmptyGroup(counts)
    ensures Adds(counts, r, GroupOf(jobs[i]), |DoneChildren(jobs, jobs[i].parent)|) && NoEmptyGroup(r)
  {
    hide DoneAmong;
    r := counts;
    var g, rest := GroupOf(jobs[i]), jobs.Keys;
    ghost var seen: set<Id> := {};
    assert DoneAmong(jobs, {}, g.parent) == {} by { NoneAmong(jobs, g.parent); }
    while rest != {}
      invariant rest !! seen && rest + seen == jobs.Keys
      invariant Adds(counts, r, g, |DoneAmong(jobs, seen, g.parent)|) && NoEmptyGroup(r)
    {
      var c :| c in rest;
      OneMoreDone(jobs, seen, c, g.parent);
      rest, seen := rest - {c}, seen + {c};
      if jobs[c].parent == jobs[i].parent && jobs[c].state == C {
        r := r[g := CountIn(r, g) + 1];
      }
    }
    AllAmong(jobs, g.parent);
  }

  lemma NoneAmong(jobs: Jobs, p: Id)
    ensures DoneAmong(jobs, {}, p) == {}
  {
  }

  lemma AllAmong(jobs: Jobs, p: Id)
    ensures DoneAmong(jobs, jobs.Keys, p) == DoneChildren(jobs, p)
  {
  }

  /** The join and its groups, row by row. */
  method CountJoin(jobs: Jobs) returns (counts: map<Group, nat>)
    ensures AreCounts(jobs, counts)
  {
    hide DoneChildren, IsInfoRow;
    counts := map[];
    var rest := jobs.Keys;
    assert forall g :: Members(jobs, {}, g) == {};
    while rest != {}
      invariant rest <= jobs.Keys
      invariant forall g :: CountIn(counts, g) == Joins(jobs, jobs.Keys - rest, g)
      invariant NoEmptyGroup(counts)
    {
      var i :| i in rest;
      ghost var seen := jobs.Keys - rest;
      forall g: Group ensures Joins(jobs, seen + {i}, g) ==
          Joins(jobs, seen, g) +
          if IsInfoRow(jobs[i]) && GroupOf(jobs[i]) == g then |DoneChildren(jobs, g.parent)| else 0
      {
        OneMore(jobs, seen, i, g);
      }
      rest := rest - {i};
      assert jobs.Keys - rest == seen + {i};
      if IsInfoRow(jobs[i]) { counts := JoinRow(jobs, i, counts); }
    }
    assert jobs.Keys - rest == jobs.Keys;
  }

  /** The groups with their numbers of joined rows. */
  ghost predicate AreCounts(jobs: Jobs, counts: map<Group, nat>) {
    && NoEmptyGroup(counts)
    && forall g :: CountIn(counts, g) == |Members(jobs, jobs.Keys, g)| * |DoneChildren(jobs, g.parent)|
  }

  /** The query's result: the parents of the groups whose count field, plus one, is the number of joined rows.
      A count field that is no number, or too large for the sum, makes it fail. */
  method Having(counts: map<Group, nat>) returns (parents: Option<set<Id>>)
    ensures parents.Some? <==> forall g :: g in counts ==> Castable(g.data)
    ensures parents.Some? ==> forall p :: p in parents.value <==> Selected(counts, p)
  {
    hide CountField;
    var rest, found := counts.Keys, {};
    while rest != {}
      invariant rest <= counts.Keys
      invariant forall g :: g in counts && g !in rest ==> Castable(g.data)
      invariant forall p :: p in found <==>
        exists g :: g in counts && g !in rest && g.parent == p && CountField(g.data).Some?
          && CountField(g.data).value + 1 == counts[g]
    {
      var g :| g in rest;
      if !Castable(g.data) { return None; }
      if CountField(g.data).value + 1 == counts[g] { found := found + {g.parent}; }
      rest := rest - {g};
    }
    parents := Some(found);
  }

  predicate Castable(data: Bytes) {
    CountField(data).Some? && CountField(data).value < MAX_INTEGER
  }

  /** The groups with a row are those of info rows with a completed row below the same parent. */
  lemma GroupsExist(jobs: Jobs, g: Group)
    ensures |Members(jobs, jobs.Keys, g)| * |DoneChildren(jobs, g.parent)| > 0 <==>
      DoneChildren(jobs, g.parent) != {} && exists i :: i in jobs && IsInfoRow(jobs[i]) && GroupOf(jobs[i]) == g
  {
    hide DoneChildren, IsInfoRow;
    var m, d := Members(jobs, jobs.Keys, g), DoneChildren(jobs, g.parent);
    Positive(|m|, |d|);
    assert |d| > 0 <==> d != {};
    if m != {} {
      var i :| i in m;
      assert i in jobs && IsInfoRow(jobs[i]) && GroupOf(jobs[i]) == g;
    }
    if i :| i in jobs && IsInfoRow(jobs[i]) && GroupOf(jobs[i]) == g {
      assert i in m;
    }
  }

  lemma Positive(a: nat, b: nat)
    ensures a * b > 0 <==> a > 0 && b > 0
  {
  }

  lemma MembersAreCopies(jobs: Jobs, i: Id)
    requires i in jobs && IsInfoRow(jobs[i])
    ensures Members(jobs, jobs.Keys, GroupOf(jobs[i])) == Copies(jobs, i)
  {
    hide LPad, TypeField;
  }

  lemma GroupIn(jobs: Jobs, counts: map<Group, nat>, g: Group)
    requires AreCounts(jobs, counts)
    ensures g in counts <==>
      DoneChildren(jobs, g.parent) != {} && exists i :: i in jobs && IsInfoRow(jobs[i]) && GroupOf(jobs[i]) == g
  {
    hide DoneChildren, IsInfoRow, Members;
    GroupsExist(jobs, g);
    assert CountIn(counts, g) == |Members(jobs, jobs.Keys, g)| * |DoneChildren(jobs, g.parent)|;
  }

  lemma SelectionFails(jobs: Jobs, counts: map<Group, nat>)
    requires AreCounts(jobs, counts)
    ensures CountsReadable(jobs) <==> forall g :: g in counts ==> Castable(g.data)
  {
    hide DoneChildren, IsInfoRow, AreCounts, CountField;
    forall i | i in jobs && IsInfoRow(jobs[i])
      ensures GroupOf(jobs[i]) in counts <==> DoneChildren(jobs, jobs[i].parent) != {}
    {
      GroupIn(jobs, counts, GroupOf(jobs[i]));
    }
    forall g | g in counts
      ensures DoneChildren(jobs, g.parent) != {} && exists i :: i in jobs && IsInfoRow(jobs[i]) && GroupOf(jobs[i]) == g
    {
      GroupIn(jobs, counts, g);
    }
  }

  /** The HAVING clause holds of some group of `p`. */
  ghost predicate Selected(counts: map<Group, nat>, p: Id) {
    exists g :: g in counts && g.parent == p && CountField(g.data).Some? && CountField(g.data).value + 1 == counts[g]
  }

  lemma SelectionIs(jobs: Jobs, counts: map<Group, nat>, p: Id)
    requires AreCounts(jobs, counts)
    ensures Selected(counts, p) <==> Complete(jobs, p)
  {
    hide DoneChildren, IsInfoRow, CountField, Members, Copies;
    if Selected(counts, p) {
      var g :| g in counts && g.parent == p && CountField(g.data).Some? && CountField(g.data).value + 1 == counts[g];
      GroupIn(jobs, counts, g);
      var i :| i in jobs && IsInfoRow(jobs[i]) && GroupOf(jobs[i]) == g;
      MembersAreCopies(jobs, i);
      assert CountIn(counts, g) == |Copies(jobs, i)| * |DoneChildren(jobs, p)|;
    }
    if Complete(jobs, p) {
      var i :| i in jobs && jobs[i].parent == p && IsInfoRow(jobs[i]) && DoneChildren(jobs, p) != {}
        && CountField(jobs[i].data).Some?
        && CountField(jobs[i].data).value + 1 == |Copies(jobs, i)| * |DoneChildren(jobs, p)|;
      GroupIn(jobs, counts, GroupOf(jobs[i]));
      MembersAreCopies(jobs, i);
      assert CountIn(counts, GroupOf(jobs[i])) == |Copies(jobs, i)| * |DoneChildren(jobs, p)|;
    }
  }

  /** Executed row by row, the completion query selects exactly the parents the pass completes, and fails
      exactly when a count cannot be read. */
  method SelectComplete(jobs: Jobs) returns (parents: Option<set<Id>>)
    ensures parents.Some? <==> CountsReadable(jobs)
    ensures parents.Some? ==> forall p :: p in parents.value <==> Complete(jobs, p)
  {
    hide CountsReadable, Complete, Members, DoneChildren, CountField;
    var counts := CountJoin(jobs);
    parents := Having(counts);
    SelectionFails(jobs, counts);
    forall p: Id ensures Selected(counts, p) <==> Complete(jobs, p) { SelectionIs(jobs, counts, p); }
  }

  lemma SmallParents(jobs: Jobs, parents: set<Id>)
    requires parents == set id | id in jobs && jobs[id].state == C :: jobs[id].parent
    ensures forall p :: p in parents <==> DoneChildren(jobs, p) != {}
  {
    forall p ensures p in parents <==> DoneChildren(jobs, p) != {} {
      if p in parents {
        var c :| c in jobs && jobs[c].state == C && jobs[c].parent == p;
        assert c in DoneChildren(jobs, p);
      }
      if DoneChildren(jobs, p) != {} {
        var c :| c in DoneChildren(jobs, p);
      }
    }
  }

  class Database {
    var self: Self
    var jobs: Jobs
    var sysinfo: Sysinfo
    var files: map<Bytes, Bytes>
    var conns: map<int, Conn>
    var comms: map<CommKey, Comm>
    var nextComm: int
    var notices: multiset<Notice>

    function View(): Tables
      reads this
    {
      Tables(self, jobs, sysinfo, files, conns, comms, nextComm, notices)
    }

    constructor (t: Tables)
      ensures View() == t
    {
      self, jobs, sysinfo, files := t.self, t.jobs, t.sysinfo, t.files;
      conns, comms, nextComm, notices := t.conns, t.comms, t.nextComm, t.notices;
    }

    // ---- checking what arrived -------------------------------------------------------------

    method VerifyHashes(h: Md5)
      modifies `jobs
      ensures jobs == map id | id in old(jobs) :: Verified(h, old(jobs)[id])
    {
      jobs := map id | id in jobs :: Verified(h, jobs[id]);
    }

    method RejectHashes(h: Md5)
      modifies `jobs
      ensures jobs == map id | id in old(jobs) :: Rejected(h, old(jobs)[id])
    {
      jobs := map id | id in jobs :: Rejected(h, jobs[id]);
    }

    method KeepLocal()
      modifies `jobs
      ensures jobs == map id | id in old(jobs) :: Local(Roots(old(jobs)), old(jobs)[id])
    {
      var roots := Roots(jobs);
      jobs := map id | id in jobs :: Local(roots, jobs[id]);
    }

    method ForwardForeign()
      modifies `jobs
      ensures jobs == map id | id in old(jobs) :: Foreign(Roots(old(jobs)), old(jobs)[id])
    {
      var roots := Roots(jobs);
      jobs := map id | id in jobs :: Foreign(roots, jobs[id]);
    }

    method IdentifyTypes()
      modifies `jobs
      ensures jobs == map id | id in old(jobs) :: Identified(old(jobs)[id])
    {
      jobs := map id | id in jobs :: Identified(jobs[id]);
    }

    /** The statements up to the completion of parents; a count that cannot be read fails. */
    method CheckArrivals(env: Env) returns (ok: bool)
      modifies `jobs
      ensures Check(old(View()), env) == if ok then Some(View()) else None
    {
      hide Verified, Rejected, Local, Foreign, Identified, Roots, Triage, CountsReadable, CompleteLarge, CompleteSmall;
      ghost var was := jobs;
      VerifyHashes(env.h);
      ghost var a := jobs;
      RejectHashes(env.h);
      ghost var b := jobs;
      KeepLocal();
      ghost var c := jobs;
      ForwardForeign();
      ghost var d := jobs;
      IdentifyTypes();
      TriageInOrder(env.h, was, a, b, c, d, jobs);
      ok := CompleteLargeJobs();
      if ok { CompleteSmallJobs(); }
    }

    /** The parents that the completion query selects are complete. */
    method CompleteLargeJobs() returns (ok: bool)
      modifies `jobs
      ensures ok <==> CountsReadable(old(jobs))
      ensures ok ==> jobs == CompleteLarge(old(jobs))
    {
      hide CountsReadable, Complete;
      var parents := SelectComplete(jobs);
      ok := parents.Some?;
      if ok {
        jobs := map id | id in jobs ::
          if jobs[id].state == S2W && id in parents.value then jobs[id].(state := C) else jobs[id];
      }
    }

    /** The parents of any completed row are complete. */
    method CompleteSmallJobs()
      modifies `jobs
      ensures jobs == CompleteSmall(old(jobs))
    {
      var parents := set id | id in jobs && jobs[id].state == C :: jobs[id].parent;
      SmallParents(jobs, parents);
      hide DoneChildren;
      jobs := map id | id in jobs ::
        if jobs[id].state == S3W && id in parents then jobs[id].(state := C) else jobs[id];
    }

    // ---- consensus -------------------------------------------------------------------------

    /** Inserts `rows` under the drawn uuids, unless one of them is taken. */
    method Insert(rows: map<Slot, Job>, ids: Slot -> Id) returns (ok: bool)
      modifies `jobs
      ensures InsertRows(old(jobs), rows, ids) == if ok then Some(jobs) else None
      ensures !ok ==> jobs == old(jobs)
    {
      var r := InsertRows(jobs, rows, ids);
      ok := r.Some?;
      if ok { jobs := r.value; }
    }

    /** Requests to unresolved peers, then the admission of jobs for known peers. */
    method AskPeers(env: Env) returns (ok: bool)
      modifies `jobs
      ensures Ask(old(View()), env) == if ok then Some(View()) else None
    {
      hide RequestRows, InsertRows, Admitted;
      ok := Insert(RequestRows(View(), env), env.ids);
      if ok { jobs := Admitted(sysinfo, jobs); }
    }

    /** The upsert of the requesting peer, with the trigger that tells the receiver. */
    method TakeRequest() returns (ok: bool)
      modifies `sysinfo, `notices
      ensures AcceptRequest(old(View())) == if ok then Some(View()) else None
    {
      hide Readable, CapacityField, PortField, IpField, SourceField, LPad;
      var rs := Pending(jobs, TYPE_REQUEST);
      if rs == {} { return true; }
      if |rs| != 1 { return false; }
      var m := jobs[Only(rs)].data;
      if !Readable(m) { return false; }
      UnfoldReadable(m);
      var agreed := Smaller(CapacityField(m).value, self.capacity);
      var e := Endpoint(LPad(SourceField(m), 5), IpField(m).value);
      if e !in sysinfo && exists o :: o in sysinfo && o.ip == e.ip { return false; }
      var commsport := if e in sysinfo then sysinfo[e].commsport else 7000;
      sysinfo := sysinfo[e := Peer(PortField(m).value, commsport, agreed)];
      assert notices + multiset{} == notices;
      if agreed != 0 { notices := notices + multiset{Notice(e.ip, agreed)}; }
      ok := true;
    }

    /** The replies to pending requests, which are then complete. */
    method SendReplies(env: Env) returns (ok: bool)
      modifies `jobs
      ensures Answer(old(View()), env) == if ok then Some(View()) else None
    {
      hide ReplyRows, InsertRows, Closed;
      ok := Insert(ReplyRows(View(), env), env.ids);
      if ok { jobs := Closed(jobs, TYPE_REQUEST); }
    }

    /** The update by a reply: every unresolved row takes its numbers, and the trigger tells the receiver. */
    method TakeReply() returns (ok: bool)
      modifies `sysinfo, `notices
      ensures AcceptReply(old(View())) == if ok then Some(View()) else None
    {
      hide ReadableReply, CapacityField, PortField, SourceField, LPad, KnownReplies;
      var rs, unresolved := KnownReplies(View()), Unresolved(sysinfo);
      if exists id :: id in Pending(jobs, TYPE_REPLY) && !ReadableReply(jobs[id].data) { return false; }
      if rs == {} || unresolved == {} { return true; }
      if |rs| != 1 { return false; }
      KnownArePending(View(), Only(rs));
      var m := jobs[Only(rs)].data;
      UnfoldReadableReply(m);
      var capacity, port := CapacityField(m).value, PortField(m).value;
      assert notices + multiset{} == notices;
      sysinfo := map e | e in sysinfo ::
        if e in unresolved then sysinfo[e].(capacity := capacity, dataport := port) else sysinfo[e];
      if capacity != 0 { notices := notices + multiset(set e | e in unresolved :: Notice(e.ip, capacity)); }
      ok := true;
    }

    /** Requests, replies and what they change. */
    method AgreeOnCapacities(env: Env) returns (ok: bool)
      modifies `jobs, `sysinfo, `notices
      ensures Consensus(old(View()), env) == if ok then Some(View()) else None
    {
      hide Ask, AcceptRequest, Answer, AcceptReply, Closed;
      ok := AskPeers(env);
      if !ok { return; }
      ok := TakeRequest();
      if !ok { return; }
      ok := SendReplies(env);
      if !ok { return; }
      ok := TakeReply();
      if !ok { return; }
      jobs := Closed(jobs, TYPE_REPLY);
    }

    // ---- files -----------------------------------------------------------------------------

    method MarkLarge()
      modifies `jobs
      ensures jobs == map id | id in old(jobs) :: SplitRow(old(View()), old(jobs)[id])
    {
      var t := View();
      jobs := map id | id in jobs :: SplitRow(t, jobs[id]);
    }

    method MarkSmall()
      modifies `jobs
      ensures jobs == map id | id in old(jobs) :: WholeRow(old(View()), old(jobs)[id])
    {
      var t := View();
      jobs := map id | id in jobs :: WholeRow(t, jobs[id]);
    }

    /** Classification, the three kinds of messages, and the wait for them. */
    method SplitFiles(env: Env) returns (ok: bool)
      modifies `jobs
      ensures Split(old(View()), env) == if ok then Some(View()) else None
    {
      hide SplitRow, WholeRow, Classified, WriteSingles, WriteChunks, WriteInfos, Waiting;
      ghost var t := View();
      MarkLarge();
      ghost var a := jobs;
      MarkSmall();
      ClassifiedInOrder(t, a, jobs);
      ok := InsertSingles(env);
      if ok { ok := InsertChunks(env); }
      if ok { ok := InsertInfos(env); }
      if ok { jobs := Waiting(sysinfo, jobs); }
    }

    method InsertSingles(env: Env) returns (ok: bool)
      modifies `jobs
      ensures WriteSingles(old(View()), env) == if ok then Some(View()) else None
    {
      hide InsertRows, SingleRows;
      ok := Insert(SingleRows(View(), env), env.ids);
    }

    /** A capacity equal to the overhead divides by zero. */
    method InsertChunks(env: Env) returns (ok: bool)
      modifies `jobs
      ensures WriteChunks(old(View()), env) == if ok then Some(View()) else None
    {
      hide InsertRows, ChunkRows, Divisible;
      if !Divisible(View()) { return false; }
      ok := Insert(ChunkRows(View(), env), env.ids);
    }

    method InsertInfos(env: Env) returns (ok: bool)
      modifies `jobs
      ensures WriteInfos(old(View()), env) == if ok then Some(View()) else None
    {
      hide InsertRows, InfoRows, Divisible;
      if !Divisible(View()) { return false; }
      ok := Insert(InfoRows(View(), env), env.ids);
    }

    // ---- connections -----------------------------------------------------------------------

    /** New connections, requests to open and requests to close. */
    method AskForConnections(env: Env) returns (ok: bool)
      modifies `conns, `comms, `nextComm
      ensures Connect(old(View()), env) == if ok then Some(View()) else None
    {
      hide WithConns, OpenKeys, CloseKeys, WithComms, SerialFits;
      var t := View();
      conns := WithConns(t);
      comms := WithComms(comms, OpenKeys(View()), false, env);
      var t1 := t.(conns := conns);
      comms := WithComms(comms, CloseKeys(t1), true, env);
      ok := SerialFits(t, comms, env);
      nextComm := env.nextSerial;
    }

    // ---- the transaction -------------------------------------------------------------------

    /** `run_jobs`: either every statement succeeds, and the tables are what the pass specifies, or nothing
        has changed. */
    method Pass(env: Env) returns (ok: bool)
      modifies this
      ensures RunJobs.Pass(old(View()), env) == if ok then Some(View()) else None
      ensures !ok ==> View() == old(View())
    {
      hide Check, Consensus, Split, Connect;
      var before := View();
      ok := CheckArrivals(env);
      if ok { ok := AgreeOnCapacities(env); }
      if ok { ok := SplitFiles(env); }
      if ok { ok := AskForConnections(env); }
      if !ok { Restore(before); }
    }

    method Restore(t: Tables)
      modifies this
      ensures View() == t
    {
      self, jobs, sysinfo, files := t.self, t.jobs, t.sysinfo, t.files;
      conns, comms, nextComm, notices := t.conns, t.comms, t.nextComm, t.notices;
    }
  }

  lemma KnownArePending(t: Tables, id: Id)
    requires id in KnownReplies(t)
    ensures id in Pending(t.jobs, TYPE_REPLY)
  {
    hide Pending;
  }

  /** Marking large files first and small ones afterwards is one function of each row. */
  lemma ClassifiedInOrder(t: Tables, a: Jobs, b: Jobs)
    requires a == map id | id in t.jobs :: SplitRow(t, t.jobs[id])
    requires b == map id | id in a :: WholeRow(t.(jobs := a), a[id])
    ensures b == Classified(t)
  {
    hide TooLarge;
    forall id | id in t.jobs ensures Fits(t.(jobs := a), a[id]) <==> Fits(t, a[id]) { }
  }

  lemma UnfoldReadable(m: Bytes)
    requires Readable(m)
    ensures CapacityField(m).Some? && PortField(m).Some? && IpField(m).Some?
  {
    hide CapacityField, PortField, IpField;
  }

  lemma UnfoldReadableReply(m: Bytes)
    requires ReadableReply(m)
    ensures CapacityField(m).Some? && PortField(m).Some?
  {
    hide CapacityField, PortField, ReplyIpField;
  }
}
