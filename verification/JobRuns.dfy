/** Runs of one node's job table: passes, interleaved with everything else that touches a job. */
module JobRuns {
  import opened Text
  import opened Message
  import opened Chunks
  import opened Tables
  import opened RunJobs
  import opened StateGraph

  /** The largest bytea value. */
  const MAX_FILE := 0x4000_0000

  // ---- steps -------------------------------------------------------------------------------

  /** One row changes its state. */
  function Restate(t: Tables, id: Id, s: State): Tables
    requires id in t.jobs
  {
    t.(jobs := t.jobs[id := t.jobs[id].(state := s)])
  }

  /** A row received from another node. */
  function Arrival(root: Id, data: Bytes, source: Bytes): Job {
    Job(data, N1, [ZERO], source, root, [ZERO], [ZERO + 5])
  }

  /** A user's order to send a file. */
  function Order(root: Id, name: Bytes, source: Bytes, dest: Bytes): Job {
    Job(name, S, LPad([ZERO + 6], 5), source, root, LPad(dest, 5), [ZERO + 5])
  }

  datatype JobStep =
    | RunPass(env: Env)
    | HandOff(id: Id)
    | Report(id: Id, ok: bool)
    | Sent(id: Id, ok: bool)
    | Arrive(id: Id, data: Bytes, source: Bytes)
    | Submit(id: Id, name: Bytes, source: Bytes, dest: Bytes)
    | ImportFile(name: Bytes, file: Bytes)
    | SetPriority(id: Id, priority: Bytes)
    | Elsewhere

  /** The tables before and after one step. `Elsewhere` is any change to the other tables. */
  ghost predicate Next(h: Md5, root: Id, t: Tables, step: JobStep, u: Tables) {
    match step
    case RunPass(env) => env.h == h && Pass(t, env) == Some(u)
    case HandOff(id) => id in t.jobs && t.jobs[id].state == S4 && u == Restate(t, id, S4W)
    case Report(id, ok) => id in t.jobs && t.jobs[id].state == S4W && u == Restate(t, id, if ok then C else D)
    case Sent(id, ok) => id in t.jobs && t.jobs[id].state == S5 && u == Restate(t, id, if ok then C else D)
    case Arrive(id, data, source) => id !in t.jobs && u == t.(jobs := t.jobs[id := Arrival(root, data, source)])
    case Submit(id, name, source, dest) =>
      id !in t.jobs && u == t.(jobs := t.jobs[id := Order(root, name, source, dest)])
    case ImportFile(name, file) => name !in t.files && |file| <= MAX_FILE && u == t.(files := t.files[name := file])
    case SetPriority(id, priority) =>
      u == t.(jobs := map i | i in t.jobs ::
        if i == id || t.jobs[i].parent == id then t.jobs[i].(priority := priority) else t.jobs[i])
    case Elsewhere => u == t.(conns := u.conns, comms := u.comms, nextComm := u.nextComm, notices := u.notices)
  }

  // ---- the invariant -----------------------------------------------------------------------

  /** One row per system name, and no capacity that cannot hold the headers. */
  predicate Config(sysinfo: Sysinfo) {
    && (forall d, e :: d in sysinfo && e in sysinfo && d.name == e.name ==> d == e)
    && (forall e :: e in sysinfo ==> sysinfo[e].capacity == 0 || OVERHEAD < sysinfo[e].capacity <= MAX_INTEGER)
  }

  /** The file a job names, and the capacity agreed with a peer. */
  function FileOf(t: Tables, p: Id): Bytes {
    if p in t.jobs && t.jobs[p].data in t.files then t.files[t.jobs[p].data] else []
  }

  function CapacityOf(t: Tables, e: Endpoint): int {
    if e in t.sysinfo then t.sysinfo[e].capacity else 0
  }

  function DataOf(jobs: Jobs, id: Id): Bytes {
    if id in jobs then jobs[id].data else []
  }

  function PiecesOf(size: nat, capacity: int): nat {
    if capacity > OVERHEAD then CeilDiv(size, capacity - OVERHEAD) else 0
  }

  /** The rows with ids `ids` hold the chunks of `file`. */
  ghost predicate HoldsChunks(h: Md5, file: Bytes, p: Id, capacity: int, jobs: Jobs, ids: seq<Id>) {
    forall i :: 0 <= i < |ids| ==> ids[i] in jobs && IsChunk(h, file, p, capacity, i, jobs[ids[i]].data)
  }

  /** The children of `p` are the info row and the chunk rows that carry exactly the file `p` names. */
  ghost predicate FullSetOf(h: Md5, t: Tables, p: Id, info: Id, chunks: seq<Id>, capacity: int) {
    && p in t.jobs && t.jobs[p].data in t.files
    && OVERHEAD < capacity <= MAX_INTEGER && 1 <= |FileOf(t, p)|
    && info in t.jobs && info !in chunks && NoDuplicates(chunks)
    && Children(t.jobs, p) == (set c | c in chunks) + {info}
    && |chunks| == PiecesOf(|FileOf(t, p)|, capacity)
    && HoldsChunks(h, FileOf(t, p), p, capacity, t.jobs, chunks)
    && IsInfo(h, FileOf(t, p), p, capacity, DataOf(t.jobs, info))
  }

  ghost predicate FullSet(h: Md5, t: Tables, p: Id) {
    exists info, chunks, capacity :: FullSetOf(h, t, p, info, chunks, capacity)
  }

  /** The one child of `p` carries the whole file. */
  ghost predicate SingleSetOf(h: Md5, t: Tables, p: Id, c: Id, capacity: int) {
    && p in t.jobs && t.jobs[p].data in t.files && |FileOf(t, p)| <= capacity - OVERHEAD
    && c in t.jobs && Children(t.jobs, p) == {c}
    && IsSingle(h, FileOf(t, p), capacity, DataOf(t.jobs, c))
  }

  ghost predicate SingleSet(h: Md5, t: Tables, p: Id) {
    exists c, capacity :: SingleSetOf(h, t, p, c, capacity)
  }

  /** The set was cut at the capacity that sysinfo has for the job's destination. */
  ghost predicate LargeCut(h: Md5, t: Tables, p: Id) {
    exists e, info, chunks :: CutFor(t, p, e) && FullSetOf(h, t, p, info, chunks, CapacityOf(t, e))
  }

  ghost predicate SmallCut(h: Md5, t: Tables, p: Id) {
    exists e, c :: CutFor(t, p, e) && SingleSetOf(h, t, p, c, CapacityOf(t, e))
  }

  predicate CutFor(t: Tables, p: Id, e: Endpoint) {
    p in t.jobs && e in t.sysinfo && e.name == t.jobs[p].dest
  }

  lemma CutsAreSets(h: Md5, t: Tables, p: Id)
    ensures LargeCut(h, t, p) ==> FullSet(h, t, p)
    ensures SmallCut(h, t, p) ==> SingleSet(h, t, p)
  {
    hide FullSetOf, SingleSetOf, CutFor;
  }

  /** The children a row has, by its state. */
  ghost predicate ParentOk(h: Md5, t: Tables, p: Id) {
    p in t.jobs && match t.jobs[p].state
    case S2W => FullSet(h, t, p)
    case S3W => SingleSet(h, t, p)
    case C => Children(t.jobs, p) == {} || FullSet(h, t, p) || SingleSet(h, t, p)
    case _ => Children(t.jobs, p) == {}
  }

  /** The states of rows that came from outside. */
  predicate Outside(s: State) {
    s == N1 || s == N2 || s == N3 || s == N4 || s == S
  }

  /** The states of rows that carry a piece of a job. */
  predicate Carrier(s: State) {
    s == S4 || s == S4W || s == C || s == D
  }

  /** The states before a file job is split. */
  predicate Unsplit(s: State) {
    Outside(s) || s == S1
  }

  ghost predicate Inv(h: Md5, root: Id, t: Tables) {
    && root in t.jobs && t.jobs[root].parent == root && t.jobs[root].state == N0
    && (forall n :: n in t.files ==> |t.files[n]| <= MAX_FILE)
    && (forall id :: id in t.jobs ==> RowOk(root, t.jobs, id))
    && (forall p :: p in t.jobs && p != root ==> ParentOk(h, t, p))
  }

  predicate RowOk(root: Id, jobs: Jobs, id: Id)
    requires id in jobs
  {
    var j := jobs[id];
    && j.parent in jobs
    && (j.parent == id ==> id == root)
    && (j.parent != root ==> Carrier(j.state))
    && j.state != S2 && j.state != S3
  }

  // ---- keeping the children ----------------------------------------------------------------

  /** The rows of `t` are still there, with the same contents and parents; files are only added. */
  predicate Preserves(t: Tables, u: Tables) {
    && (forall id :: id in t.jobs ==>
          id in u.jobs && u.jobs[id].data == t.jobs[id].data && u.jobs[id].parent == t.jobs[id].parent)
    && (forall n :: n in t.files ==> n in u.files && u.files[n] == t.files[n])
  }

  lemma SetsKept(h: Md5, t: Tables, u: Tables, p: Id)
    requires Preserves(t, u) && Children(u.jobs, p) == Children(t.jobs, p)
    ensures FullSet(h, t, p) ==> FullSet(h, u, p)
    ensures SingleSet(h, t, p) ==> SingleSet(h, u, p)
  {
    hide IsChunk, IsInfo, IsSingle, Children;
    if FullSet(h, t, p) {
      var info, chunks, capacity :| FullSetOf(h, t, p, info, chunks, capacity);
      assert FullSetOf(h, u, p, info, chunks, capacity);
    }
    if SingleSet(h, t, p) {
      var c, capacity :| SingleSetOf(h, t, p, c, capacity);
      assert SingleSetOf(h, u, p, c, capacity);
    }
  }

  lemma CutsKept(h: Md5, t: Tables, u: Tables, p: Id)
    requires Preserves(t, u) && Children(u.jobs, p) == Children(t.jobs, p) && u.sysinfo == t.sysinfo
    requires p in t.jobs && p in u.jobs && u.jobs[p].dest == t.jobs[p].dest
    ensures LargeCut(h, t, p) ==> LargeCut(h, u, p)
    ensures SmallCut(h, t, p) ==> SmallCut(h, u, p)
  {
    hide IsChunk, IsInfo, IsSingle, Children;
    if LargeCut(h, t, p) {
      var e, info, chunks :| CutFor(t, p, e) && FullSetOf(h, t, p, info, chunks, CapacityOf(t, e));
      assert CutFor(u, p, e) && FullSetOf(h, u, p, info, chunks, CapacityOf(u, e));
    }
    if SmallCut(h, t, p) {
      var e, c :| CutFor(t, p, e) && SingleSetOf(h, t, p, c, CapacityOf(t, e));
      assert CutFor(u, p, e) && SingleSetOf(h, u, p, c, CapacityOf(u, e));
    }
  }

  /** How the state of a row may change while its children stay the same. */
  predicate Calm(a: State, b: State) {
    || b == a
    || (b == C && (a == S2W || a == S3W || a == N4 || a == S4W || a == S5))
    || (b != S2W && b != S3W && b != C && a != S2W && a != S3W && a != C)
  }

  lemma ParentKept(h: Md5, t: Tables, u: Tables, p: Id)
    requires Preserves(t, u) && p in t.jobs && Children(u.jobs, p) == Children(t.jobs, p)
    requires ParentOk(h, t, p) && Calm(t.jobs[p].state, u.jobs[p].state)
    ensures ParentOk(h, u, p)
  {
    hide FullSet, SingleSet, Children;
    SetsKept(h, t, u, p);
  }

  /** No row changes so that it needs other children, and new rows belong to the root. */
  predicate CalmRows(root: Id, a: Jobs, b: Jobs) {
    && (forall id :: id in a ==> id in b && CalmRow(a[id], b[id]))
    && (forall id :: id in b && id !in a ==> NewRow(root, b[id]))
  }

  predicate CalmRow(j: Job, k: Job) {
    && Calm(j.state, k.state) && k.state != S2 && k.state != S3
    && (Outside(k.state) ==> Outside(j.state))
    && (k.state == S1 ==> Unsplit(j.state))
    && (Carrier(j.state) ==> Carrier(k.state))
    && (j.state == N0 ==> k.state == N0)
  }

  predicate NewRow(root: Id, j: Job) {
    j.parent == root && (j.state == N1 || j.state == S || j.state == S5)
  }

  /** Steps under which no row but the root gets children. */
  lemma CalmStep(h: Md5, root: Id, t: Tables, u: Tables)
    requires Inv(h, root, t) && Preserves(t, u) && CalmRows(root, t.jobs, u.jobs)
    requires forall n :: n in u.files ==> |u.files[n]| <= MAX_FILE
    ensures Inv(h, root, u)
    ensures forall p :: p in t.jobs && p != root ==> p in u.jobs && Children(u.jobs, p) == Children(t.jobs, p)
  {
    hide RowOk, CalmRows, NewRow, ParentOk, Preserves, Children;
    RowsStayOk(root, t, u);
    CalmParents(root, t, u);
    AllThere(t, u);
    forall p | p in u.jobs && p != root
      ensures (p in t.jobs ==> Children(u.jobs, p) == Children(t.jobs, p)) && ParentOk(h, u, p)
    {
      if p in t.jobs {
        OldParent(h, root, t, u, p);
      } else {
        NewParent(h, root, t, u, p);
      }
    }
    RootStays(root, t, u);
  }

  lemma AllThere(t: Tables, u: Tables)
    requires Preserves(t, u)
    ensures forall id :: id in t.jobs ==> id in u.jobs
  {
  }

  lemma RootStays(root: Id, t: Tables, u: Tables)
    requires root in t.jobs && t.jobs[root].parent == root && t.jobs[root].state == N0
    requires Preserves(t, u) && CalmRows(root, t.jobs, u.jobs)
    ensures root in u.jobs && u.jobs[root].parent == root && u.jobs[root].state == N0
  {
    assert CalmRow(t.jobs[root], u.jobs[root]);
  }

  lemma RowsStayOk(root: Id, t: Tables, u: Tables)
    requires root in t.jobs && Preserves(t, u) && CalmRows(root, t.jobs, u.jobs)
    requires forall id :: id in t.jobs ==> RowOk(root, t.jobs, id)
    ensures forall id :: id in u.jobs ==> RowOk(root, u.jobs, id)
  {
    hide CalmRow, NewRow, RowOk, Preserves;
    forall id | id in u.jobs ensures RowOk(root, u.jobs, id) {
      if id in t.jobs {
        ParentStays(root, t, u, id);
        CalmRowOk(root, t.jobs, u.jobs, id);
      } else {
        PreservedParent(t, u, root);
        CalmNewRowOk(root, u.jobs, id);
      }
    }
  }

  lemma ParentStays(root: Id, t: Tables, u: Tables, id: Id)
    requires Preserves(t, u) && id in t.jobs && RowOk(root, t.jobs, id)
    ensures id in u.jobs && u.jobs[id].parent == t.jobs[id].parent && t.jobs[id].parent in u.jobs
  {
    hide Carrier, Outside;
  }

  lemma CalmRowOk(root: Id, a: Jobs, b: Jobs, id: Id)
    requires id in a && id in b && RowOk(root, a, id) && CalmRow(a[id], b[id])
    requires b[id].parent == a[id].parent && a[id].parent in b
    ensures RowOk(root, b, id)
  {
    hide Carrier, Outside, Calm;
  }

  lemma CalmNewRowOk(root: Id, b: Jobs, id: Id)
    requires id in b && id != root && root in b && NewRow(root, b[id])
    ensures RowOk(root, b, id)
  {
  }

  lemma OldParent(h: Md5, root: Id, t: Tables, u: Tables, p: Id)
    requires Preserves(t, u) && CalmRows(root, t.jobs, u.jobs)
    requires p in t.jobs && p != root && ParentOk(h, t, p)
    ensures Children(u.jobs, p) == Children(t.jobs, p) && ParentOk(h, u, p)
  {
    hide Outside, ParentOk;
    assert CalmRow(t.jobs[p], u.jobs[p]);
    ParentKept(h, t, u, p);
  }

  lemma ChildlessOk(h: Md5, t: Tables, p: Id)
    requires p in t.jobs && Children(t.jobs, p) == {} && t.jobs[p].state != S2W && t.jobs[p].state != S3W
    ensures ParentOk(h, t, p)
  {
    hide FullSet, SingleSet, Children;
  }

  /** A new row, whose uuid nobody used before, has no children. */
  lemma NewParent(h: Md5, root: Id, t: Tables, u: Tables, p: Id)
    requires root in t.jobs && Preserves(t, u)
    requires forall id :: id in t.jobs ==> t.jobs[id].parent in t.jobs
    requires forall id :: id in u.jobs && id !in t.jobs ==> u.jobs[id].parent == root
    requires p in u.jobs && p !in t.jobs && u.jobs[p].state != S2W && u.jobs[p].state != S3W
    ensures ParentOk(h, u, p)
  {
    hide ParentOk;
    forall id | id in u.jobs ensures u.jobs[id].parent != p {
      if id in t.jobs { assert u.jobs[id].parent == t.jobs[id].parent; }
    }
    ChildlessOk(h, u, p);
  }

  lemma CalmParents(root: Id, t: Tables, u: Tables)
    requires CalmRows(root, t.jobs, u.jobs)
    requires forall id :: id in t.jobs ==> RowOk(root, t.jobs, id)
    ensures forall id :: id in t.jobs ==> t.jobs[id].parent in t.jobs
    ensures forall id :: id in u.jobs && id !in t.jobs ==>
              u.jobs[id].parent == root && u.jobs[id].state != S2W && u.jobs[id].state != S3W
  {
    hide CalmRow, Outside;
    forall id | id in t.jobs ensures t.jobs[id].parent in t.jobs { assert RowOk(root, t.jobs, id); }
  }

  // ---- what the splitting statements insert ------------------------------------------------

  lemma InsertedChildren(jobs: Jobs, rows: map<Slot, Job>, ids: Slot -> Id, r: Jobs, p: Id)
    requires InsertRows(jobs, rows, ids) == Some(r)
    ensures Children(r, p) == Children(jobs, p) + (set s | s in rows && rows[s].parent == p :: ids(s))
  {
    hide Drawable;
  }

  /** One of the inserted rows, `s`, is a child of `p`. */
  lemma OneChild(jobs: Jobs, rows: map<Slot, Job>, ids: Slot -> Id, r: Jobs, p: Id, s: Slot)
    requires InsertRows(jobs, rows, ids) == Some(r) && s in rows
    requires forall z :: z in rows ==> (rows[z].parent == p <==> z == s)
    ensures Children(r, p) == Children(jobs, p) + {ids(s)}
    ensures ids(s) in r && ids(s) !in jobs && r[ids(s)] == rows[s]
  {
    hide Children, Drawable;
    InsertedChildren(jobs, rows, ids, r, p);
    assert (set z | z in rows && rows[z].parent == p :: ids(z)) == {ids(s)};
  }

  lemma NoChild(jobs: Jobs, rows: map<Slot, Job>, ids: Slot -> Id, r: Jobs, p: Id)
    requires InsertRows(jobs, rows, ids) == Some(r)
    requires forall z :: z in rows ==> rows[z].parent != p
    ensures Children(r, p) == Children(jobs, p)
  {
    hide Children, Drawable;
    InsertedChildren(jobs, rows, ids, r, p);
    assert (set z | z in rows && rows[z].parent == p :: ids(z)) == {};
  }

  /** A job in `s` whose destination has one row in sysinfo is joined with that row only. */
  lemma JoinedOnce(t: Tables, p: Id, d: Endpoint, e: Endpoint, s: State)
    requires Config(t.sysinfo) && Joined(t, p, d, s) && Joined(t, p, e, s)
    ensures d == e
  {
  }

  lemma SinglesOthers(t: Tables, env: Env, u: Tables, p: Id)
    requires WriteSingles(t, env) == Some(u)
    requires p in t.jobs ==> t.jobs[p].state != S3
    ensures Children(u.jobs, p) == Children(t.jobs, p)
  {
    hide SingleMessage, InsertRows, Children;
    NoChild(t.jobs, SingleRows(t, env), env.ids, u.jobs, p);
  }

  /** Among `rows`, exactly the row for `s` is a child of `p`. */
  predicate OnlyRowOf(rows: map<Slot, Job>, p: Id, s: Slot) {
    s in rows && forall z :: z in rows ==> (rows[z].parent == p <==> z == s)
  }

  lemma SingleRowsOf(t: Tables, env: Env, rows: map<Slot, Job>, p: Id, e: Endpoint)
    requires rows == SingleRows(t, env)
    requires Config(t.sysinfo) && Joined(t, p, e, S3)
    ensures OnlyRowOf(rows, p, Single(p, e)) && IsSingle(env.h, FileOf(t, p), CapacityOf(t, e), rows[Single(p, e)].data)
  {
    hide SingleMessage, Config;
    assert Single(p, e) in rows && rows[Single(p, e)] == SingleRow(t, env, p, e);
    forall z | z in rows ensures rows[z].parent == p <==> z == Single(p, e) {
      if z.job == p { JoinedOnce(t, p, z.peer, e, S3); }
    }
  }

  lemma SinglesWritten(t: Tables, env: Env, u: Tables, p: Id, e: Endpoint)
    requires WriteSingles(t, env) == Some(u)
    requires Config(t.sysinfo) && Joined(t, p, e, S3)
    ensures var c := env.ids(Single(p, e));
            && Children(u.jobs, p) == Children(t.jobs, p) + {c} && c in u.jobs
            && IsSingle(env.h, FileOf(t, p), CapacityOf(t, e), DataOf(u.jobs, c))
  {
    hide SingleRows, Children, InsertRows, Config, IsSingle, FileOf, CapacityOf;
    SingleRowsOf(t, env, SingleRows(t, env), p, e);
    OneChild(t.jobs, SingleRows(t, env), env.ids, u.jobs, p, Single(p, e));
  }

  lemma ChunksOthers(t: Tables, env: Env, u: Tables, p: Id)
    requires WriteChunks(t, env) == Some(u)
    requires p in t.jobs ==> t.jobs[p].state != S2
    ensures Children(u.jobs, p) == Children(t.jobs, p)
  {
    hide ChunkMessage, InsertRows, Children, Divisible, Piece, ChunkTotal;
    NoChild(t.jobs, ChunkRows(t, env), env.ids, u.jobs, p);
  }

  /** The uuids drawn for the chunks of one job, in order of index. */
  function ChunkIds(env: Env, p: Id, e: Endpoint, n: nat): (r: seq<Id>)
    ensures |r| == n && forall i :: 0 <= i < n ==> r[i] == env.ids(Chunk(p, e, i))
  {
    if n == 0 then [] else ChunkIds(env, p, e, n - 1) + [env.ids(Chunk(p, e, n - 1))]
  }

  predicate ChunksOf(rows: map<Slot, Job>, p: Id, e: Endpoint, n: nat) {
    && (forall i :: 0 <= i < n ==> Chunk(p, e, i) in rows && rows[Chunk(p, e, i)].parent == p)
    && (forall z :: z in rows && rows[z].parent == p ==> z.Chunk? && z == Chunk(p, e, z.idx) && z.idx < n)
  }

  lemma ChunkIdsDistinct(rows: map<Slot, Job>, jobs: Jobs, env: Env, p: Id, e: Endpoint, n: nat)
    requires Drawable(jobs, rows.Keys, env.ids) && ChunksOf(rows, p, e, n)
    ensures NoDuplicates(ChunkIds(env, p, e, n))
  {
    var ids := ChunkIds(env, p, e, n);
    forall i, j | 0 <= i < j < |ids| ensures ids[i] != ids[j] {
      assert Chunk(p, e, i) in rows.Keys && Chunk(p, e, j) in rows.Keys;
    }
  }

  lemma ChunkChildren(jobs: Jobs, rows: map<Slot, Job>, env: Env, r: Jobs, p: Id, e: Endpoint, n: nat)
    requires InsertRows(jobs, rows, env.ids) == Some(r) && ChunksOf(rows, p, e, n)
    ensures Children(r, p) == Children(jobs, p) + (set c | c in ChunkIds(env, p, e, n))
  {
    hide Children, Drawable, ChunksOf, InsertRows;
    InsertedChildren(jobs, rows, env.ids, r, p);
    ChunkIdSet(rows, env, p, e, n);
  }

  /** The uuids drawn for the rows below `p`. */
  lemma ChunkIdSet(rows: map<Slot, Job>, env: Env, p: Id, e: Endpoint, n: nat)
    requires ChunksOf(rows, p, e, n)
    ensures (set z | z in rows && rows[z].parent == p :: env.ids(z)) == (set c | c in ChunkIds(env, p, e, n))
  {
    var ids := ChunkIds(env, p, e, n);
    var inserted := set z | z in rows && rows[z].parent == p :: env.ids(z);
    forall c | c in inserted ensures c in ids {
      var z :| z in rows && rows[z].parent == p && env.ids(z) == c;
      assert c == ids[z.idx];
    }
    forall c | c in ids ensures c in inserted {
      var i :| 0 <= i < |ids| && ids[i] == c;
      assert Chunk(p, e, i) in rows;
    }
  }

  lemma ChunkRowsOf(t: Tables, env: Env, rows: map<Slot, Job>, p: Id, e: Endpoint)
    requires Divisible(t) && rows == ChunkRows(t, env)
    requires Config(t.sysinfo) && Joined(t, p, e, S2) && CapacityOf(t, e) > OVERHEAD
    ensures ChunksOf(rows, p, e, PiecesOf(|FileOf(t, p)|, CapacityOf(t, e)))
  {
    hide ChunkRow, Config;
    var n := PiecesOf(|FileOf(t, p)|, CapacityOf(t, e));
    forall i | 0 <= i < n ensures Chunk(p, e, i) in rows && rows[Chunk(p, e, i)].parent == p {
      ChunkRowHolds(t, env, p, e, i);
      assert Chunk(p, e, i) in rows && rows[Chunk(p, e, i)] == ChunkRow(t, env, p, e, i);
    }
    forall z | z in rows && rows[z].parent == p ensures z.Chunk? && z == Chunk(p, e, z.idx) && z.idx < n {
      ChunkRowHolds(t, env, z.job, z.peer, z.idx);
      JoinedOnce(t, p, z.peer, e, S2);
    }
  }

  lemma ChunkRowHolds(t: Tables, env: Env, p: Id, e: Endpoint, i: nat)
    requires Divisible(t) && Joined(t, p, e, S2) && i < ChunkTotal(t, p, e)
    ensures ChunkRow(t, env, p, e, i).parent == p
    ensures CapacityOf(t, e) > OVERHEAD ==>
              IsChunk(env.h, FileOf(t, p), p, CapacityOf(t, e), i, ChunkRow(t, env, p, e, i).data)
  {
    hide ChunkMessage, Piece;
  }

  lemma ChunksWritten(t: Tables, env: Env, u: Tables, p: Id, e: Endpoint, ids: seq<Id>)
    requires WriteChunks(t, env) == Some(u)
    requires Config(t.sysinfo) && Joined(t, p, e, S2) && CapacityOf(t, e) > OVERHEAD
    requires ids == ChunkIds(env, p, e, PiecesOf(|FileOf(t, p)|, CapacityOf(t, e)))
    ensures NoDuplicates(ids) && Children(u.jobs, p) == Children(t.jobs, p) + (set c | c in ids)
    ensures HoldsChunks(env.h, FileOf(t, p), p, CapacityOf(t, e), u.jobs, ids)
  {
    hide ChunkRows, Children, Config, Drawable, ChunksOf, NoDuplicates, HoldsChunks, FileOf, CapacityOf, PiecesOf,
      InsertRows;
    var rows := ChunkRows(t, env);
    var n := PiecesOf(|FileOf(t, p)|, CapacityOf(t, e));
    ChunkRowsOf(t, env, rows, p, e);
    DrawnRows(t.jobs, rows, env, u.jobs);
    ChunkIdsDistinct(rows, t.jobs, env, p, e, n);
    ChunkChildren(t.jobs, rows, env, u.jobs, p, e, n);
    ChunksHeld(t, env, rows, u.jobs, p, e, ids);
  }

  lemma DrawnRows(jobs: Jobs, rows: map<Slot, Job>, env: Env, r: Jobs)
    requires InsertRows(jobs, rows, env.ids) == Some(r)
    ensures Drawable(jobs, rows.Keys, env.ids)
  {
    hide Drawable;
  }

  lemma ChunksHeld(t: Tables, env: Env, rows: map<Slot, Job>, jobs: Jobs, p: Id, e: Endpoint, ids: seq<Id>)
    requires Divisible(t) && rows == ChunkRows(t, env) && InsertRows(t.jobs, rows, env.ids) == Some(jobs)
    requires Joined(t, p, e, S2) && CapacityOf(t, e) > OVERHEAD
    requires ids == ChunkIds(env, p, e, PiecesOf(|FileOf(t, p)|, CapacityOf(t, e)))
    ensures HoldsChunks(env.h, FileOf(t, p), p, CapacityOf(t, e), jobs, ids)
  {
    hide ChunkRow, IsChunk, Drawable, Divisible, PiecesOf;
    forall i | 0 <= i < |ids|
      ensures ids[i] in jobs && IsChunk(env.h, FileOf(t, p), p, CapacityOf(t, e), i, jobs[ids[i]].data)
    {
      PieceIsRow(t, p, e, i);
      assert Chunk(p, e, i) in rows && rows[Chunk(p, e, i)] == ChunkRow(t, env, p, e, i);
      ChunkRowHolds(t, env, p, e, i);
    }
  }

  lemma PieceIsRow(t: Tables, p: Id, e: Endpoint, i: nat)
    requires Joined(t, p, e, S2) && CapacityOf(t, e) > OVERHEAD
    ensures i < PiecesOf(|FileOf(t, p)|, CapacityOf(t, e)) <==> i < ChunkTotal(t, p, e)
  {
  }

  lemma InfosOthers(t: Tables, env: Env, u: Tables, p: Id)
    requires WriteInfos(t, env) == Some(u)
    requires p in t.jobs ==> t.jobs[p].state != S2
    ensures Children(u.jobs, p) == Children(t.jobs, p)
  {
    hide InfoMessage, InsertRows, Children, Divisible, ChunkTotal;
    NoChild(t.jobs, InfoRows(t, env), env.ids, u.jobs, p);
  }

  lemma InfoRowsOf(t: Tables, env: Env, rows: map<Slot, Job>, p: Id, e: Endpoint)
    requires Divisible(t) && rows == InfoRows(t, env)
    requires Config(t.sysinfo) && Joined(t, p, e, S2) && CapacityOf(t, e) > OVERHEAD
    ensures OnlyRowOf(rows, p, Info(p, e)) && IsInfo(env.h, FileOf(t, p), p, CapacityOf(t, e), rows[Info(p, e)].data)
  {
    hide InfoMessage, Config;
    assert Info(p, e) in rows && rows[Info(p, e)] == InfoRow(t, env, p, e);
    InfoRowHolds(t, env, p, e);
    forall z | z in rows ensures rows[z].parent == p <==> z == Info(p, e) {
      if z.job == p { JoinedOnce(t, p, z.peer, e, S2); }
    }
  }

  lemma InfoRowHolds(t: Tables, env: Env, p: Id, e: Endpoint)
    requires Joined(t, p, e, S2) && CapacityOf(t, e) > OVERHEAD
    ensures IsInfo(env.h, FileOf(t, p), p, CapacityOf(t, e), InfoRow(t, env, p, e).data)
  {
    hide InfoMessage;
    var j, capacity := t.jobs[p], t.sysinfo[e].capacity;
    assert InfoRow(t, env, p, e).data == InfoMessage(env.h, env.ids(Info(p, e)), p, |FileOf(t, p)|,
      CeilDiv(|FileOf(t, p)|, capacity - OVERHEAD), j.source, j.dest, j.priority, env.now, capacity);
  }

  lemma InfosWritten(t: Tables, env: Env, u: Tables, p: Id, e: Endpoint)
    requires WriteInfos(t, env) == Some(u)
    requires Config(t.sysinfo) && Joined(t, p, e, S2) && CapacityOf(t, e) > OVERHEAD
    ensures var c := env.ids(Info(p, e));
            && Children(u.jobs, p) == Children(t.jobs, p) + {c} && c !in t.jobs && c in u.jobs
            && IsInfo(env.h, FileOf(t, p), p, CapacityOf(t, e), DataOf(u.jobs, c))
  {
    hide InfoRows, Children, InsertRows, Config, IsInfo, ChunkTotal, FileOf, CapacityOf;
    InfoRowsOf(t, env, InfoRows(t, env), p, e);
    OneChild(t.jobs, InfoRows(t, env), env.ids, u.jobs, p, Info(p, e));
  }

  // ---- the splitting statements keep the invariant -----------------------------------------

  /** The later table has the rows of the earlier one, unchanged. */
  predicate Adds(t: Tables, u: Tables) {
    && u == t.(jobs := u.jobs)
    && forall id :: id in t.jobs ==> id in u.jobs && u.jobs[id] == t.jobs[id]
  }

  lemma WriteAdds(t: Tables, env: Env, u: Tables)
    requires WriteSingles(t, env) == Some(u) || WriteChunks(t, env) == Some(u) || WriteInfos(t, env) == Some(u)
    ensures Adds(t, u)
  {
    hide WriteSingles, WriteChunks, WriteInfos;
    WriteEvolves(t, env, u);
  }

  lemma SameChildren(a: Jobs, b: Jobs, p: Id)
    requires a.Keys == b.Keys && forall id :: id in a ==> a[id].parent == b[id].parent
    ensures Children(a, p) == Children(b, p)
  {
  }

  lemma LargeWritten(t1: Tables, env: Env, t2: Tables, t3: Tables, t4: Tables, p: Id, e: Endpoint)
    requires WriteSingles(t1, env) == Some(t2) && WriteChunks(t2, env) == Some(t3) && WriteInfos(t3, env) == Some(t4)
    requires Config(t1.sysinfo) && Joined(t1, p, e, S2) && CapacityOf(t1, e) > OVERHEAD
    requires Children(t1.jobs, p) == {} && |FileOf(t1, p)| >= 1
    ensures LargeCut(env.h, t4, p)
  {
    hide WriteSingles, WriteChunks, WriteInfos, IsChunk, IsInfo, Children;
    WriteAdds(t1, env, t2);
    WriteAdds(t2, env, t3);
    WriteAdds(t3, env, t4);
    var capacity := CapacityOf(t1, e);
    var ids := ChunkIds(env, p, e, PiecesOf(|FileOf(t1, p)|, capacity));
    SinglesOthers(t1, env, t2, p);
    ChunksWritten(t2, env, t3, p, e, ids);
    InfosWritten(t3, env, t4, p, e);
    assert CutFor(t4, p, e) && FullSetOf(env.h, t4, p, env.ids(Info(p, e)), ids, CapacityOf(t4, e));
  }

  lemma SmallWritten(t1: Tables, env: Env, t2: Tables, t3: Tables, t4: Tables, p: Id, e: Endpoint)
    requires WriteSingles(t1, env) == Some(t2) && WriteChunks(t2, env) == Some(t3) && WriteInfos(t3, env) == Some(t4)
    requires Config(t1.sysinfo) && Joined(t1, p, e, S3) && |FileOf(t1, p)| <= CapacityOf(t1, e) - OVERHEAD
    requires Children(t1.jobs, p) == {}
    ensures SmallCut(env.h, t4, p)
  {
    hide WriteSingles, WriteChunks, WriteInfos, IsSingle, Children;
    WriteAdds(t1, env, t2);
    WriteAdds(t2, env, t3);
    WriteAdds(t3, env, t4);
    SinglesWritten(t1, env, t2, p, e);
    ChunksOthers(t2, env, t3, p);
    InfosOthers(t3, env, t4, p);
    assert CutFor(t4, p, e) && SingleSetOf(env.h, t4, p, env.ids(Single(p, e)), CapacityOf(t4, e));
  }

  lemma OthersWritten(t1: Tables, env: Env, t2: Tables, t3: Tables, t4: Tables, p: Id)
    requires WriteSingles(t1, env) == Some(t2) && WriteChunks(t2, env) == Some(t3) && WriteInfos(t3, env) == Some(t4)
    requires p in t1.jobs && t1.jobs[p].state != S2 && t1.jobs[p].state != S3
    ensures Children(t4.jobs, p) == Children(t1.jobs, p)
  {
    hide WriteSingles, WriteChunks, WriteInfos, Children;
    WriteAdds(t1, env, t2);
    WriteAdds(t2, env, t3);
    SinglesOthers(t1, env, t2, p);
    ChunksOthers(t2, env, t3, p);
    InfosOthers(t3, env, t4, p);
  }

  /** A job that is classified has its file, and one row in sysinfo to be joined with. */
  lemma ClassifiedJoin(t: Tables, p: Id) returns (e: Endpoint)
    requires Config(t.sysinfo) && p in t.jobs && t.jobs[p].state == S1 && Classified(t)[p].state != S1
    ensures Joined(Classify(t), p, e, Classified(t)[p].state)
    ensures Classified(t)[p].state == S2 ==> CapacityOf(t, e) > OVERHEAD && |FileOf(t, p)| >= 1
    ensures Classified(t)[p].state == S3 ==> |FileOf(t, p)| <= CapacityOf(t, e) - OVERHEAD
    ensures Classified(t)[p].state == S2 || Classified(t)[p].state == S3
  {
    var j := t.jobs[p];
    if TooLarge(t, j) {
      e :| e in t.sysinfo && e.name == j.dest
        && |t.files[j.data]| > t.sysinfo[e].capacity - OVERHEAD && t.sysinfo[e].capacity != 0;
    } else {
      e :| e in t.sysinfo && e.name == j.dest
        && |t.files[j.data]| <= t.sysinfo[e].capacity - OVERHEAD && t.sysinfo[e].capacity != 0;
    }
  }

  /** What a step may do to the children of one row: nothing, or give it its whole set at once. */
  ghost predicate Grown(h: Md5, t: Tables, u: Tables, p: Id) {
    && p in t.jobs && p in u.jobs
    && (Children(u.jobs, p) != Children(t.jobs, p) ==>
          && Children(t.jobs, p) == {} && Unsplit(t.jobs[p].state)
          && ((u.jobs[p].state == S2W && LargeCut(h, u, p)) || (u.jobs[p].state == S3W && SmallCut(h, u, p))))
    && (!Unsplit(t.jobs[p].state) ==> Children(u.jobs, p) == Children(t.jobs, p) && !Unsplit(u.jobs[p].state))
  }

  lemma WaitingKeeps(h: Md5, t: Tables, u: Tables, p: Id)
    requires u == t.(jobs := Waiting(t.sysinfo, t.jobs)) && p in t.jobs
    ensures Children(u.jobs, p) == Children(t.jobs, p)
    ensures LargeCut(h, t, p) ==> LargeCut(h, u, p)
    ensures SmallCut(h, t, p) ==> SmallCut(h, u, p)
    ensures p in u.jobs && u.jobs[p].state ==
      if t.jobs[p].state == S2 && NameKnown(t.sysinfo, t.jobs[p].dest) then S2W
      else if t.jobs[p].state == S3 && NameKnown(t.sysinfo, t.jobs[p].dest) then S3W
      else t.jobs[p].state
  {
    hide LargeCut, SmallCut, NameKnown;
    SameChildren(t.jobs, u.jobs, p);
    CutsKept(h, t, u, p);
  }

  lemma ParentFromSet(h: Md5, t: Tables, u: Tables, p: Id)
    requires p in t.jobs && p in u.jobs && Unsplit(t.jobs[p].state) && Children(t.jobs, p) == {}
    requires (u.jobs[p].state == S2W && LargeCut(h, u, p)) || (u.jobs[p].state == S3W && SmallCut(h, u, p))
    ensures ParentOk(h, u, p) && Grown(h, t, u, p)
  {
    hide FullSet, SingleSet, LargeCut, SmallCut, Children;
    CutsAreSets(h, u, p);
  }

  lemma SplitLarge(t: Tables, env: Env, t2: Tables, t3: Tables, t4: Tables, u: Tables, p: Id)
    requires WriteSingles(Classify(t), env) == Some(t2)
    requires WriteChunks(t2, env) == Some(t3) && WriteInfos(t3, env) == Some(t4)
    requires u == t4.(jobs := Waiting(t4.sysinfo, t4.jobs)) && Config(t.sysinfo)
    requires p in t.jobs && t.jobs[p].state == S1 && Children(t.jobs, p) == {} && Classified(t)[p].state == S2
    ensures ParentOk(env.h, u, p) && Grown(env.h, t, u, p)
  {
    hide WriteSingles, WriteChunks, WriteInfos, Children, LargeCut, SmallCut, Waiting, Joined, Config, NameKnown,
      Classified, ParentOk, Grown;
    var t1 := Classify(t);
    WriteAdds(t1, env, t2);
    WriteAdds(t2, env, t3);
    WriteAdds(t3, env, t4);
    ClassifiedEvolves(t);
    SameChildren(t.jobs, t1.jobs, p);
    var e := ClassifiedJoin(t, p);
    LargeWritten(t1, env, t2, t3, t4, p, e);
    WaitingKeeps(env.h, t4, u, p);
    ParentFromSet(env.h, t, u, p);
  }

  lemma SplitSmall(t: Tables, env: Env, t2: Tables, t3: Tables, t4: Tables, u: Tables, p: Id)
    requires WriteSingles(Classify(t), env) == Some(t2)
    requires WriteChunks(t2, env) == Some(t3) && WriteInfos(t3, env) == Some(t4)
    requires u == t4.(jobs := Waiting(t4.sysinfo, t4.jobs)) && Config(t.sysinfo)
    requires p in t.jobs && t.jobs[p].state == S1 && Children(t.jobs, p) == {} && Classified(t)[p].state == S3
    ensures ParentOk(env.h, u, p) && Grown(env.h, t, u, p)
  {
    hide WriteSingles, WriteChunks, WriteInfos, Children, LargeCut, SmallCut, Waiting, Joined, Config, NameKnown,
      Classified, ParentOk, Grown;
    var t1 := Classify(t);
    WriteAdds(t1, env, t2);
    WriteAdds(t2, env, t3);
    WriteAdds(t3, env, t4);
    ClassifiedEvolves(t);
    SameChildren(t.jobs, t1.jobs, p);
    var e := ClassifiedJoin(t, p);
    SmallWritten(t1, env, t2, t3, t4, p, e);
    WaitingKeeps(env.h, t4, u, p);
    ParentFromSet(env.h, t, u, p);
  }

  lemma SplitOther(t: Tables, env: Env, t2: Tables, t3: Tables, t4: Tables, u: Tables, p: Id)
    requires WriteSingles(Classify(t), env) == Some(t2)
    requires WriteChunks(t2, env) == Some(t3) && WriteInfos(t3, env) == Some(t4)
    requires u == t4.(jobs := Waiting(t4.sysinfo, t4.jobs)) && Preserves(t, u)
    requires p in t.jobs && ParentOk(env.h, t, p)
    requires t.jobs[p].state != S2 && t.jobs[p].state != S3 && Classified(t)[p] == t.jobs[p]
    ensures ParentOk(env.h, u, p) && Children(u.jobs, p) == Children(t.jobs, p) && u.jobs[p].state == t.jobs[p].state
  {
    hide WriteSingles, WriteChunks, WriteInfos, Children, LargeCut, SmallCut, Waiting, NameKnown, Classified,
      ParentOk, Preserves;
    var t1 := Classify(t);
    WriteAdds(t1, env, t2);
    WriteAdds(t2, env, t3);
    WriteAdds(t3, env, t4);
    ClassifiedEvolves(t);
    SameChildren(t.jobs, t1.jobs, p);
    OthersWritten(t1, env, t2, t3, t4, p);
    WaitingKeeps(env.h, t4, u, p);
    ParentKept(env.h, t, u, p);
  }

  /** The row `p` as it goes through the splitting statements. */
  lemma SplitParent(t: Tables, env: Env, u: Tables, p: Id)
    requires Split(t, env) == Some(u) && Config(t.sysinfo)
    requires p in t.jobs && ParentOk(env.h, t, p) && t.jobs[p].state != S2 && t.jobs[p].state != S3
    ensures ParentOk(env.h, u, p) && Grown(env.h, t, u, p)
  {
    hide WriteSingles, WriteChunks, WriteInfos, Split, Children, FullSet, SingleSet, Waiting, Config, NameKnown,
      Classified, Preserves;
    var t2, t3, t4 := SplitStages(t, env, u);
    SplitPreserves(t, env, u);
    ClassifiedEvolves(t);
    assert ClassifiedRow(t.sysinfo, t.jobs[p], Classified(t)[p]);
    if Classified(t)[p] == t.jobs[p] {
      SplitOther(t, env, t2, t3, t4, u, p);
    } else if Classified(t)[p].state == S2 {
      SplitLarge(t, env, t2, t3, t4, u, p);
    } else {
      SplitSmall(t, env, t2, t3, t4, u, p);
    }
  }

  lemma EvolvesPreserves(t: Tables, u: Tables)
    requires Evolves(t.jobs, u.jobs) && u.files == t.files
    ensures Preserves(t, u)
  {
    hide Reaches;
    forall id | id in t.jobs
      ensures id in u.jobs && u.jobs[id].data == t.jobs[id].data && u.jobs[id].parent == t.jobs[id].parent
    {
      assert Moved(t.jobs[id], u.jobs[id]);
    }
  }

  lemma SplitPreserves(t: Tables, env: Env, u: Tables)
    requires Split(t, env) == Some(u)
    ensures Preserves(t, u)
  {
    hide Split, Evolves;
    SplitEvolves(t, env, u);
    EvolvesPreserves(t, u);
  }

  /** New rows of the splitting statements are children of rows that are being split. */
  predicate NewRowsBelow(a: Jobs, b: Jobs) {
    forall id :: id in b && id !in a ==> BelowSplit(a, b[id])
  }

  predicate BelowSplit(a: Jobs, j: Job) {
    j.state == S4 && j.parent in a && (a[j.parent].state == S2 || a[j.parent].state == S3)
  }

  lemma InsertBelow(jobs: Jobs, rows: map<Slot, Job>, ids: Slot -> Id, r: Jobs)
    requires InsertRows(jobs, rows, ids) == Some(r)
    requires forall s :: s in rows ==> BelowSplit(jobs, rows[s])
    ensures NewRowsBelow(jobs, r)
  {
    hide Drawable, BelowSplit;
  }

  lemma WriteBelow(t: Tables, env: Env, u: Tables)
    requires WriteSingles(t, env) == Some(u) || WriteChunks(t, env) == Some(u) || WriteInfos(t, env) == Some(u)
    ensures NewRowsBelow(t.jobs, u.jobs)
  {
    hide NewRowsBelow, InsertRows, SingleMessage, ChunkMessage, InfoMessage, Piece, ChunkTotal;
    if WriteSingles(t, env) == Some(u) {
      InsertBelow(t.jobs, SingleRows(t, env), env.ids, u.jobs);
    } else if WriteChunks(t, env) == Some(u) {
      InsertBelow(t.jobs, ChunkRows(t, env), env.ids, u.jobs);
    } else {
      InsertBelow(t.jobs, InfoRows(t, env), env.ids, u.jobs);
    }
  }

  lemma BelowTrans(t: Tables, u: Tables, v: Tables)
    requires Adds(t, u) && Adds(u, v) && NewRowsBelow(t.jobs, u.jobs) && NewRowsBelow(u.jobs, v.jobs)
    ensures NewRowsBelow(t.jobs, v.jobs)
  {
  }

  lemma SplitBelow(t: Tables, env: Env, u: Tables)
    requires Split(t, env) == Some(u)
    ensures forall id :: id in u.jobs && id !in t.jobs ==> u.jobs[id].parent in t.jobs && u.jobs[id].state == S4
  {
    hide WriteSingles, WriteChunks, WriteInfos, Split, NewRowsBelow, Classified, Adds;
    var t2, t3, t4 := SplitStages(t, env, u);
    var t1 := Classify(t);
    ClassifiedEvolves(t);
    WriteAdds(t1, env, t2);
    WriteAdds(t2, env, t3);
    WriteAdds(t3, env, t4);
    WriteBelow(t1, env, t2);
    WriteBelow(t2, env, t3);
    WriteBelow(t3, env, t4);
    BelowTrans(t1, t2, t3);
    AddsTrans(t1, t2, t3);
    BelowTrans(t1, t3, t4);
    BelowWaiting(t1, t4, u);
  }

  lemma AddsTrans(t: Tables, u: Tables, v: Tables)
    requires Adds(t, u) && Adds(u, v)
    ensures Adds(t, v)
  {
  }

  lemma BelowWaiting(t: Tables, v: Tables, u: Tables)
    requires NewRowsBelow(t.jobs, v.jobs) && u.jobs == Waiting(v.sysinfo, v.jobs)
    ensures forall id :: id in u.jobs && id !in t.jobs ==> u.jobs[id].parent in t.jobs && u.jobs[id].state == S4
  {
    hide NameKnown;
  }

  // ---- a pass keeps the invariant ----------------------------------------------------------

  lemma CheckInv(h: Md5, root: Id, t: Tables, env: Env, u: Tables)
    requires Inv(h, root, t) && Check(t, env) == Some(u)
    ensures Inv(h, root, u) && u.sysinfo == t.sysinfo
    ensures forall p :: p in t.jobs ==> p in u.jobs && CompletedRow(t.jobs[p], u.jobs[p])
    ensures forall p :: p in t.jobs && p != root ==> Children(u.jobs, p) == Children(t.jobs, p)
  {
    hide Check, Evolves, CompletedRow, RowOk, ParentOk, Children, Preserves;
    CheckEvolves(t, env, u);
    EvolvesPreserves(t, u);
    forall id | id in t.jobs ensures CalmRow(t.jobs[id], u.jobs[id]) { CompletedIsCalm(root, t.jobs, id, u.jobs[id]); }
    CalmStep(h, root, t, u);
  }

  lemma CompletedIsCalm(root: Id, jobs: Jobs, id: Id, k: Job)
    requires id in jobs && RowOk(root, jobs, id) && CompletedRow(jobs[id], k)
    ensures CalmRow(jobs[id], k)
  {
  }

  lemma ConsensusIsCalm(root: Id, jobs: Jobs, id: Id, k: Job)
    requires id in jobs && RowOk(root, jobs, id) && ConsensusRow(jobs[id], k)
    ensures CalmRow(jobs[id], k)
  {
    hide IsConsensus;
  }

  lemma ConsensusInv(h: Md5, root: Id, t: Tables, env: Env, u: Tables)
    requires Inv(h, root, t) && Consensus(t, env) == Some(u)
    ensures Inv(h, root, u)
    ensures forall p :: p in t.jobs ==> p in u.jobs && ConsensusRow(t.jobs[p], u.jobs[p])
    ensures forall p :: p in t.jobs && p != root ==> Children(u.jobs, p) == Children(t.jobs, p)
  {
    hide Consensus, Evolves, ConsensusRow, RowOk, ParentOk, Children, Preserves, CalmRow;
    ConsensusEvolves(t, env, u);
    EvolvesPreserves(t, u);
    forall id | id in t.jobs ensures CalmRow(t.jobs[id], u.jobs[id]) { ConsensusIsCalm(root, t.jobs, id, u.jobs[id]); }
    forall id | id in u.jobs && id !in t.jobs ensures NewRow(root, u.jobs[id]) {
      var i :| i in t.jobs && u.jobs[id].parent == t.jobs[i].parent && (t.jobs[i].state == S || t.jobs[i].state == N4);
      OutsideParent(root, t.jobs, i);
    }
    CalmStep(h, root, t, u);
  }

  lemma OutsideParent(root: Id, jobs: Jobs, id: Id)
    requires id in jobs && RowOk(root, jobs, id) && Outside(jobs[id].state)
    ensures jobs[id].parent == root
  {
  }

  lemma SplitInv(h: Md5, root: Id, t: Tables, env: Env, u: Tables)
    requires Inv(h, root, t) && env.h == h && Split(t, env) == Some(u) && Config(t.sysinfo)
    ensures Inv(h, root, u)
    ensures forall p :: p in t.jobs && p != root ==> Grown(h, t, u, p)
  {
    hide Split, Evolves, SplittingRow, RowOk, ParentOk, Children, Config, Preserves, Grown;
    SplitEvolves(t, env, u);
    SplitPreserves(t, env, u);
    SplitBelow(t, env, u);
    SplitRowsOk(root, t, u);
    forall p | p in u.jobs && p != root
      ensures ParentOk(h, u, p) && (p in t.jobs ==> Grown(h, t, u, p))
    {
      if p in t.jobs {
        NotSplitting(root, t.jobs, p);
        SplitParent(t, env, u, p);
      } else {
        SplitChildless(root, t, u, p);
        ChildlessOk(h, u, p);
      }
    }
    RootNotSplit(t.sysinfo, t.jobs[root], u.jobs[root]);
    assert u.jobs[root].parent == root by { PreservedParent(t, u, root); }
  }

  lemma PreservedParent(t: Tables, u: Tables, id: Id)
    requires Preserves(t, u) && id in t.jobs
    ensures id in u.jobs && u.jobs[id].parent == t.jobs[id].parent
  {
  }

  lemma NotSplitting(root: Id, jobs: Jobs, id: Id)
    requires id in jobs && RowOk(root, jobs, id)
    ensures jobs[id].state != S2 && jobs[id].state != S3 && jobs[id].parent in jobs
  {
  }

  lemma RootNotSplit(sysinfo: Sysinfo, j: Job, k: Job)
    requires j.state == N0 && SplittingRow(sysinfo, j, k)
    ensures k == j
  {
  }

  lemma SplitChildless(root: Id, t: Tables, u: Tables, p: Id)
    requires Preserves(t, u) && p in u.jobs && p !in t.jobs
    requires forall id :: id in t.jobs ==> RowOk(root, t.jobs, id)
    requires forall id :: id in u.jobs && id !in t.jobs ==> u.jobs[id].parent in t.jobs
    ensures Children(u.jobs, p) == {}
  {
    hide RowOk;
    forall id | id in u.jobs ensures u.jobs[id].parent != p {
      if id in t.jobs {
        NotSplitting(root, t.jobs, id);
        PreservedParent(t, u, id);
      }
    }
  }

  lemma SplitRowsOk(root: Id, t: Tables, u: Tables)
    requires Preserves(t, u) && SplittingRows(t.sysinfo, t.jobs, u.jobs)
    requires forall id :: id in t.jobs ==> RowOk(root, t.jobs, id)
    requires forall id :: id in u.jobs && id !in t.jobs ==> u.jobs[id].parent in t.jobs && u.jobs[id].state == S4
    ensures forall id :: id in u.jobs ==> RowOk(root, u.jobs, id)
  {
    hide SplittingRow, RowOk;
    forall id | id in u.jobs ensures RowOk(root, u.jobs, id) {
      if id in t.jobs {
        NotSplitting(root, t.jobs, id);
        PreservedParent(t, u, id);
        SplitRowOk(root, t.sysinfo, t.jobs, u.jobs, id);
      } else {
        NewRowOk(root, t.jobs, u.jobs, id);
      }
    }
  }

  lemma SplitRowOk(root: Id, sysinfo: Sysinfo, a: Jobs, b: Jobs, id: Id)
    requires id in a && id in b && RowOk(root, a, id) && SplittingRow(sysinfo, a[id], b[id])
    requires b[id].parent == a[id].parent && a[id].parent in b
    ensures RowOk(root, b, id)
  {
    hide NameKnown;
  }

  lemma NewRowOk(root: Id, a: Jobs, b: Jobs, id: Id)
    requires id in b && id !in a && b[id].parent in a && b[id].parent in b && b[id].state == S4
    ensures RowOk(root, b, id)
  {
  }

  /** A pass keeps the invariant, provided sysinfo is in order when the files are split; and it gives a
      row either no children or all its children. */
  lemma PassInv(h: Md5, root: Id, t: Tables, env: Env, u: Tables)
    requires Inv(h, root, t) && env.h == h && Pass(t, env) == Some(u) && Config(u.sysinfo)
    ensures Inv(h, root, u)
    ensures forall p :: p in t.jobs && p != root ==> Grown(h, t, u, p)
  {
    hide Pass, Inv, Check, Consensus, Split, Connect, Config, Grown, CompletedRow, ConsensusRow, Children;
    var t1, t2, t3 := PassStages(t, env, u);
    CheckInv(h, root, t, env, t1);
    ConsensusInv(h, root, t1, env, t2);
    SplitEvolves(t2, env, t3);
    ConnectKeeps(t3, env, u);
    SplitInv(h, root, t2, env, t3);
    ConnectInv(h, root, t3, u);
    forall p | p in t.jobs && p != root ensures Grown(h, t, u, p) {
      GrownChain(h, t, t1, t2, t3, p);
      GrownSame(h, t, t3, u, p);
    }
  }

  lemma ConnectInv(h: Md5, root: Id, t: Tables, u: Tables)
    requires Inv(h, root, t) && u.jobs == t.jobs && u.files == t.files
    ensures Inv(h, root, u)
  {
    hide RowOk, ParentOk;
    forall p | p in t.jobs && p != root ensures ParentOk(h, u, p) { ParentKept(h, t, u, p); }
  }

  lemma GrownChain(h: Md5, t: Tables, t1: Tables, t2: Tables, t3: Tables, p: Id)
    requires p in t.jobs && p in t1.jobs && p in t2.jobs
    requires CompletedRow(t.jobs[p], t1.jobs[p]) && ConsensusRow(t1.jobs[p], t2.jobs[p])
    requires Children(t1.jobs, p) == Children(t.jobs, p) && Children(t2.jobs, p) == Children(t.jobs, p)
    requires Grown(h, t2, t3, p)
    ensures Grown(h, t, t3, p)
  {
    hide LargeCut, SmallCut, Children, IsConsensus;
  }

  lemma GrownSame(h: Md5, t: Tables, t3: Tables, u: Tables, p: Id)
    requires u.jobs == t3.jobs && u.files == t3.files && u.sysinfo == t3.sysinfo && Grown(h, t, t3, p)
    ensures Grown(h, t, u, p)
  {
    hide LargeCut, SmallCut, Children;
    CutsKept(h, t3, u, p);
  }
}
