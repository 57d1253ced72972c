/** One pass of `run_jobs`: its UPDATE and INSERT statements in source order, as one transaction. */
module RunJobs {
  import opened Text
  import opened Message
  import opened Chunks
  import opened Tables

  /** What a pass draws from outside: the hash function, the transaction's time, a random uuid for each
      row it may insert, and serial numbers for new requests. */
  datatype Env = Env(h: Md5, now: Stamp, ids: Slot -> Id, serial: CommKey -> int, nextSerial: int)

  /** The rows a pass may insert, named by the rows they are joined from. */
  datatype Slot =
    | Request(job: Id, peer: Endpoint)
    | Reply(job: Id)
    | Single(job: Id, peer: Endpoint)
    | Chunk(job: Id, peer: Endpoint, idx: nat)
    | Info(job: Id, peer: Endpoint)

  // ---- statements that look at one row -----------------------------------------------------

  function Verified(h: Md5, j: Job): Job {
    if j.state == N1 && HashOk(h, j.data) then j.(state := N2) else j
  }

  function Rejected(h: Md5, j: Job): Job {
    if j.state == N1 && !HashOk(h, j.data) then j.(state := D) else j
  }

  function Local(roots: set<Bytes>, j: Job): Job {
    if j.state == N2 && DestField(j.data) in roots then j.(state := N3) else j
  }

  function Foreign(roots: set<Bytes>, j: Job): Job {
    if j.state == N2 && DestField(j.data) !in roots then j.(state := S1, dest := DestField(j.data)) else j
  }

  function Identified(j: Job): Job {
    if j.state == N3 then j.(state := N4, kind := TypeField(j.data)) else j
  }

  /** The destinations of the rows that are their own parents. */
  function Roots(jobs: Jobs): set<Bytes> {
    set id | id in jobs && jobs[id].parent == id :: jobs[id].dest
  }

  function TriageRow(h: Md5, roots: set<Bytes>, j: Job): Job {
    Identified(Foreign(roots, Local(roots, Rejected(h, Verified(h, j)))))
  }

  /** The first five statements; each looks only at the row itself and at the roots. */
  function Triage(h: Md5, jobs: Jobs): Jobs {
    var roots := Roots(jobs);
    map id | id in jobs :: TriageRow(h, roots, jobs[id])
  }

  // ---- completion of parents ---------------------------------------------------------------

  predicate IsInfoRow(j: Job) {
    TypeField(j.data) == LPad(TYPE_INFO, 5)
  }

  /** The rows the query groups together with info row `i`. */
  function Copies(jobs: Jobs, i: Id): set<Id>
    requires i in jobs
  {
    set id | id in jobs && jobs[id].parent == jobs[i].parent && jobs[id].data == jobs[i].data
  }

  /** No cast of a count field that the query evaluates fails. */
  predicate CountsReadable(jobs: Jobs) {
    forall i :: i in jobs && IsInfoRow(jobs[i]) && DoneChildren(jobs, jobs[i].parent) != {} ==>
      CountField(jobs[i].data).Some? && CountField(jobs[i].data).value < MAX_INTEGER
  }

  /** Some info row's count plus one equals the number of joined rows. */
  predicate Complete(jobs: Jobs, p: Id) {
    exists i :: i in jobs && jobs[i].parent == p && IsInfoRow(jobs[i]) && DoneChildren(jobs, p) != {}
      && CountField(jobs[i].data).Some?
      && CountField(jobs[i].data).value + 1 == |Copies(jobs, i)| * |DoneChildren(jobs, p)|
  }

  function CompleteLarge(jobs: Jobs): Jobs {
    map id | id in jobs :: if jobs[id].state == S2W && Complete(jobs, id) then jobs[id].(state := C) else jobs[id]
  }

  function CompleteSmall(jobs: Jobs): Jobs {
    map id | id in jobs ::
      if jobs[id].state == S3W && DoneChildren(jobs, id) != {} then jobs[id].(state := C) else jobs[id]
  }

  // ---- inserting rows ----------------------------------------------------------------------

  /** The drawn uuids are new and pairwise different, as the primary key demands. */
  predicate Drawable(jobs: Jobs, slots: set<Slot>, ids: Slot -> Id) {
    && (forall s :: s in slots ==> ids(s) !in jobs)
    && (forall a, b :: a in slots && b in slots && ids(a) == ids(b) ==> a == b)
  }

  function InsertRows(jobs: Jobs, rows: map<Slot, Job>, ids: Slot -> Id): (r: Option<Jobs>)
    ensures r.Some? <==> Drawable(jobs, rows.Keys, ids)
    ensures r.Some? ==>
      && (forall id :: id in jobs ==> id in r.value && r.value[id] == jobs[id])
      && (forall s :: s in rows ==> ids(s) in r.value && ids(s) !in jobs && r.value[ids(s)] == rows[s])
      && (forall id :: id in r.value ==> id in jobs || exists s :: s in rows && ids(s) == id)
  {
    if Drawable(jobs, rows.Keys, ids) then
      assert forall a, b :: a in rows && b in rows && ids(a) == ids(b) ==> a == b;
      Some(jobs + map s | s in rows :: ids(s) := rows[s])
    else None
  }

  // ---- consensus ---------------------------------------------------------------------------

  function RequestRow(h: Md5, self: Self, j: Job, e: Endpoint, uuid: Bytes, now: Bytes): Job {
    Job(ConsensusMessage(h, uuid, TYPE_REQUEST, self.capacity, self.dataport, self.ip, self.name, e.name, now),
        S5, TYPE_REQUEST, self.name, j.parent, e.name, [ZERO + 5])
  }

  function RequestRows(t: Tables, env: Env): map<Slot, Job> {
    map id, e | id in t.jobs && e in t.sysinfo && t.jobs[id].dest == e.name
             && t.sysinfo[e].dataport == 0 && t.jobs[id].state == S ::
      Request(id, e) := RequestRow(env.h, t.self, t.jobs[id], e, env.ids(Request(id, e)), env.now)
  }

  function Admitted(sysinfo: Sysinfo, jobs: Jobs): Jobs {
    map id | id in jobs ::
      if NameKnown(sysinfo, jobs[id].dest) && jobs[id].state == S then jobs[id].(state := S1) else jobs[id]
  }

  /** The identified consensus messages of one type. */
  function Pending(jobs: Jobs, kind: Bytes): set<Id> {
    set id | id in jobs && jobs[id].state == N4 && jobs[id].kind == LPad(kind, 5)
  }

  predicate Readable(m: Bytes) {
    CapacityField(m).Some? && PortField(m).Some? && IpField(m).Some?
  }

  predicate ReadableReply(m: Bytes) {
    CapacityField(m).Some? && PortField(m).Some? && ReplyIpField(m).Some?
  }

  function Smaller(a: int, b: int): (r: int)
    ensures r <= a && r <= b && (r == a || r == b)
  {
    if a > b then b else a
  }

  /** The upsert into sysinfo and its trigger. The scalar subquery fails on a second pending request,
      and a new row may not repeat an address. */
  function AcceptRequest(t: Tables): Option<Tables> {
    var rs := Pending(t.jobs, TYPE_REQUEST);
    if rs == {} then Some(t)
    else if |rs| != 1 then None
    else
      var m := t.jobs[Only(rs)].data;
      if !Readable(m) then None
      else
        var agreed := Smaller(CapacityField(m).value, t.self.capacity);
        var e := Endpoint(LPad(SourceField(m), 5), IpField(m).value);
        if e !in t.sysinfo && exists o :: o in t.sysinfo && o.ip == e.ip then None
        else
          var peer := Peer(PortField(m).value, if e in t.sysinfo then t.sysinfo[e].commsport else 7000, agreed);
          Some(t.(sysinfo := t.sysinfo[e := peer],
                  notices := t.notices + if agreed != 0 then multiset{Notice(e.ip, agreed)} else multiset{}))
  }

  function ReplyRow(h: Md5, self: Self, j: Job, uuid: Bytes, now: Bytes): Job
    requires CapacityField(j.data).Some?
  {
    Job(ConsensusMessage(h, uuid, TYPE_REPLY, Smaller(CapacityField(j.data).value, self.capacity), self.dataport,
                         self.ip, self.name, SourceField(j.data), now),
        S5, TYPE_REPLY, self.name, j.parent, SourceField(j.data), [ZERO + 5])
  }

  function ReplyRows(t: Tables, env: Env): map<Slot, Job> {
    map id | id in Pending(t.jobs, TYPE_REQUEST) && CapacityField(t.jobs[id].data).Some? ::
      Reply(id) := ReplyRow(env.h, t.self, t.jobs[id], env.ids(Reply(id)), env.now)
  }

  /** Handled consensus messages of one type are complete. */
  function Closed(jobs: Jobs, kind: Bytes): Jobs {
    map id | id in jobs ::
      if jobs[id].state == N4 && jobs[id].kind == LPad(kind, 5) then jobs[id].(state := C) else jobs[id]
  }

  /** The rows of sysinfo that no reply has filled in yet. */
  function Unresolved(sysinfo: Sysinfo): set<Endpoint> {
    set e | e in sysinfo && sysinfo[e].capacity == 0 && sysinfo[e].dataport == 0
  }

  /** The replies whose sender is in sysinfo. */
  function KnownReplies(t: Tables): set<Id> {
    set id | id in Pending(t.jobs, TYPE_REPLY) && ReplyIpField(t.jobs[id].data).Some?
           && Endpoint(SourceField(t.jobs[id].data), ReplyIpField(t.jobs[id].data).value) in t.sysinfo
  }

  /** The update of sysinfo by a reply, and its trigger: every unresolved row takes the reply's numbers. */
  function AcceptReply(t: Tables): Option<Tables> {
    var rs, open := KnownReplies(t), Unresolved(t.sysinfo);
    if exists id :: id in Pending(t.jobs, TYPE_REPLY) && !ReadableReply(t.jobs[id].data) then None
    else if rs == {} || open == {} then Some(t)
    else if |rs| != 1 then None
    else
      var m := t.jobs[Only(rs)].data;
      var capacity, port := CapacityField(m).value, PortField(m).value;
      Some(t.(sysinfo := map e | e in t.sysinfo ::
                if e in open then t.sysinfo[e].(capacity := capacity, dataport := port) else t.sysinfo[e],
              notices := t.notices +
                if capacity != 0 then multiset(set e | e in open :: Notice(e.ip, capacity)) else multiset{}))
  }

  // ---- splitting files ---------------------------------------------------------------------

  predicate TooLarge(t: Tables, j: Job) {
    && j.data in t.files
    && (exists e :: e in t.sysinfo && e.name == j.dest
          && |t.files[j.data]| > t.sysinfo[e].capacity - OVERHEAD && t.sysinfo[e].capacity != 0)
  }

  predicate Fits(t: Tables, j: Job) {
    && j.data in t.files
    && (exists e :: e in t.sysinfo && e.name == j.dest
          && |t.files[j.data]| <= t.sysinfo[e].capacity - OVERHEAD && t.sysinfo[e].capacity != 0)
  }

  function SplitRow(t: Tables, j: Job): Job {
    if j.state == S1 && TooLarge(t, j) then j.(state := S2) else j
  }

  function WholeRow(t: Tables, j: Job): Job {
    if j.state == S1 && Fits(t, j) then j.(state := S3) else j
  }

  function Classified(t: Tables): Jobs {
    map id | id in t.jobs :: WholeRow(t, SplitRow(t, t.jobs[id]))
  }

  /** Job `id`, in state `s`, is joined with its file and with endpoint `e`. */
  predicate Joined(t: Tables, id: Id, e: Endpoint, s: State) {
    id in t.jobs && t.jobs[id].state == s && t.jobs[id].data in t.files && e in t.sysinfo && e.name == t.jobs[id].dest
  }

  function SingleRow(t: Tables, env: Env, id: Id, e: Endpoint): Job
    requires Joined(t, id, e, S3)
  {
    var j := t.jobs[id];
    Job(SingleMessage(env.h, env.ids(Single(id, e)), t.files[j.data], j.source, j.dest, j.priority, env.now,
                      t.sysinfo[e].capacity),
        S4, TYPE_SINGLE, j.source, id, j.dest, j.priority)
  }

  function SingleRows(t: Tables, env: Env): map<Slot, Job> {
    map id, e | id in t.jobs && e in t.sysinfo && Joined(t, id, e, S3) :: Single(id, e) := SingleRow(t, env, id, e)
  }

  /** No division by zero in the number of chunks. */
  predicate Divisible(t: Tables) {
    forall id, e :: id in t.jobs && e in t.sysinfo && Joined(t, id, e, S2) ==> t.sysinfo[e].capacity != OVERHEAD
  }

  function ChunkTotal(t: Tables, id: Id, e: Endpoint): int
    requires Joined(t, id, e, S2) && t.sysinfo[e].capacity != OVERHEAD
  {
    CeilDiv(|t.files[t.jobs[id].data]|, t.sysinfo[e].capacity - OVERHEAD)
  }

  lemma ChunksNeedRoom(size: nat, k: int)
    requires k != 0
    ensures CeilDiv(size, k) > 0 ==> k > 0
  {
  }

  function ChunkRow(t: Tables, env: Env, id: Id, e: Endpoint, idx: nat): Job
    requires Joined(t, id, e, S2) && t.sysinfo[e].capacity != OVERHEAD && idx < ChunkTotal(t, id, e)
  {
    var j, capacity := t.jobs[id], t.sysinfo[e].capacity;
    ChunksNeedRoom(|t.files[j.data]|, capacity - OVERHEAD);
    Job(ChunkMessage(env.h, env.ids(Chunk(id, e, idx)), idx, id, Piece(t.files[j.data], capacity - OVERHEAD, idx),
                     j.source, j.dest, j.priority, env.now, capacity),
        S4, TYPE_CHUNK, j.source, id, j.dest, j.priority)
  }

  function ChunkRows(t: Tables, env: Env): map<Slot, Job>
    requires Divisible(t)
  {
    map id, e, idx: nat | id in t.jobs && e in t.sysinfo && Joined(t, id, e, S2) && 0 <= idx < ChunkTotal(t, id, e) ::
      Chunk(id, e, idx) := ChunkRow(t, env, id, e, idx)
  }

  function InfoRow(t: Tables, env: Env, id: Id, e: Endpoint): Job
    requires Joined(t, id, e, S2) && t.sysinfo[e].capacity != OVERHEAD
  {
    var j := t.jobs[id];
    Job(InfoMessage(env.h, env.ids(Info(id, e)), id, |t.files[j.data]|, ChunkTotal(t, id, e),
                    j.source, j.dest, j.priority, env.now, t.sysinfo[e].capacity),
        S4, TYPE_INFO, j.source, id, j.dest, j.priority)
  }

  function InfoRows(t: Tables, env: Env): map<Slot, Job>
    requires Divisible(t)
  {
    map id, e | id in t.jobs && e in t.sysinfo && Joined(t, id, e, S2) :: Info(id, e) := InfoRow(t, env, id, e)
  }

  function Waiting(sysinfo: Sysinfo, jobs: Jobs): Jobs {
    map id | id in jobs ::
      var j := jobs[id];
      if j.state == S2 && NameKnown(sysinfo, j.dest) then j.(state := S2W)
      else if j.state == S3 && NameKnown(sysinfo, j.dest) then j.(state := S3W)
      else j
  }

  // ---- connections -------------------------------------------------------------------------

  function WithConns(t: Tables): map<int, Conn> {
    var wanted :=
      set id, e | id in t.jobs && e in t.sysinfo && e.name == t.jobs[id].dest && t.jobs[id].state == S4 :: e.ip;
    map ip | ip in t.conns.Keys + wanted :: if ip in t.conns then t.conns[ip] else Conn(-1, 1)
  }

  function OpenKeys(t: Tables): set<CommKey> {
    set id, e | id in t.jobs && e in t.sysinfo && e.name == t.jobs[id].dest && t.jobs[id].state == S4
              && e.ip in t.conns && t.conns[e.ip].status == 1 :: CommKey(e.ip, t.sysinfo[e].dataport)
  }

  /** Nothing unfinished is left for the node behind `e`. */
  predicate Idle(t: Tables, e: Endpoint) {
    forall id :: id in t.jobs ==> t.jobs[id].dest != e.name || t.jobs[id].state == C
  }

  function CloseKeys(t: Tables): set<CommKey> {
    set e | e in t.sysinfo && e.ip in t.conns && t.conns[e.ip].status == 2 && Idle(t, e) ::
      CommKey(e.ip, t.conns[e.ip].sfd)
  }

  /** `INSERT ... ON CONFLICT DO NOTHING` of one kind of request. */
  function WithComms(comms: map<CommKey, Comm>, keys: set<CommKey>, closing: bool, env: Env): map<CommKey, Comm> {
    map k | k in comms.Keys + keys :: if k in comms then comms[k] else Comm(env.serial(k), closing, false)
  }

  /** A sequence never hands out a number twice. */
  predicate SerialFits(t: Tables, comms: map<CommKey, Comm>, env: Env) {
    && t.nextComm <= env.nextSerial
    && (forall k :: k in comms && k !in t.comms ==> t.nextComm <= comms[k].id < env.nextSerial)
    && (forall a, b ::
          a in comms && b in comms && a !in t.comms && b !in t.comms && comms[a].id == comms[b].id ==> a == b)
  }

  // ---- the pass ----------------------------------------------------------------------------

  /** Check what arrived, and complete parents. */
  function Check(t: Tables, env: Env): Option<Tables> {
    var jobs := Triage(env.h, t.jobs);
    if CountsReadable(jobs) then Some(t.(jobs := CompleteSmall(CompleteLarge(jobs)))) else None
  }

  /** Ask unresolved peers for consensus, and admit the jobs for peers that are known at all. */
  function Ask(t: Tables, env: Env): Option<Tables> {
    var jobs :- InsertRows(t.jobs, RequestRows(t, env), env.ids);
    Some(t.(jobs := Admitted(t.sysinfo, jobs)))
  }

  /** Answer the pending request. */
  function Answer(t: Tables, env: Env): Option<Tables> {
    var jobs :- InsertRows(t.jobs, ReplyRows(t, env), env.ids);
    Some(t.(jobs := Closed(jobs, TYPE_REQUEST)))
  }

  function Classify(t: Tables): Tables {
    t.(jobs := Classified(t))
  }

  function WriteSingles(t: Tables, env: Env): Option<Tables> {
    var jobs :- InsertRows(t.jobs, SingleRows(t, env), env.ids);
    Some(t.(jobs := jobs))
  }

  function WriteChunks(t: Tables, env: Env): Option<Tables> {
    if !Divisible(t) then None
    else
      var jobs :- InsertRows(t.jobs, ChunkRows(t, env), env.ids);
      Some(t.(jobs := jobs))
  }

  function WriteInfos(t: Tables, env: Env): Option<Tables> {
    if !Divisible(t) then None
    else
      var jobs :- InsertRows(t.jobs, InfoRows(t, env), env.ids);
      Some(t.(jobs := jobs))
  }

  function Connect(t: Tables, env: Env): Option<Tables> {
    var t1 := t.(conns := WithConns(t));
    var openings := WithComms(t1.comms, OpenKeys(t1), false, env);
    var comms := WithComms(openings, CloseKeys(t1), true, env);
    if SerialFits(t, comms, env) then Some(t1.(comms := comms, nextComm := env.nextSerial)) else None
  }

  function Consensus(t: Tables, env: Env): Option<Tables> {
    var asked :- Ask(t, env);
    var accepted :- AcceptRequest(asked);
    var answered :- Answer(accepted, env);
    var resolved :- AcceptReply(answered);
    Some(resolved.(jobs := Closed(resolved.jobs, TYPE_REPLY)))
  }

  function Split(t: Tables, env: Env): Option<Tables> {
    var singles :- WriteSingles(Classify(t), env);
    var chunks :- WriteChunks(singles, env);
    var infos :- WriteInfos(chunks, env);
    Some(infos.(jobs := Waiting(infos.sysinfo, infos.jobs)))
  }

  /** A whole pass. None means that some statement fails, so that the transaction changes nothing,
      or that the draws are not ones the database can make. */
  function Pass(t: Tables, env: Env): Option<Tables> {
    var checked :- Check(t, env);
    var agreed :- Consensus(checked, env);
    var written :- Split(agreed, env);
    Connect(written, env)
  }

  lemma PassStages(t: Tables, env: Env, u: Tables) returns (checked: Tables, agreed: Tables, written: Tables)
    requires Pass(t, env) == Some(u)
    ensures Check(t, env) == Some(checked) && Consensus(checked, env) == Some(agreed)
    ensures Split(agreed, env) == Some(written) && Connect(written, env) == Some(u)
  {
    hide Check, Consensus, Split, Connect;
    checked := Check(t, env).value;
    agreed := Consensus(checked, env).value;
    written := Split(agreed, env).value;
  }

  lemma ConsensusStages(t: Tables, env: Env, u: Tables)
    returns (asked: Tables, accepted: Tables, answered: Tables, resolved: Tables)
    requires Consensus(t, env) == Some(u)
    ensures Ask(t, env) == Some(asked) && AcceptRequest(asked) == Some(accepted)
    ensures Answer(accepted, env) == Some(answered) && AcceptReply(answered) == Some(resolved)
    ensures u == resolved.(jobs := Closed(resolved.jobs, TYPE_REPLY))
  {
    hide Ask, AcceptRequest, Answer, AcceptReply, Closed;
    asked := Ask(t, env).value;
    accepted := AcceptRequest(asked).value;
    answered := Answer(accepted, env).value;
    resolved := AcceptReply(answered).value;
  }

  lemma SplitStages(t: Tables, env: Env, u: Tables) returns (singles: Tables, chunks: Tables, infos: Tables)
    requires Split(t, env) == Some(u)
    ensures WriteSingles(Classify(t), env) == Some(singles) && WriteChunks(singles, env) == Some(chunks)
    ensures WriteInfos(chunks, env) == Some(infos)
    ensures u == infos.(jobs := Waiting(infos.sysinfo, infos.jobs))
  {
    hide WriteSingles, WriteChunks, WriteInfos, Classify, Waiting;
    singles := WriteSingles(Classify(t), env).value;
    chunks := WriteChunks(singles, env).value;
    infos := WriteInfos(chunks, env).value;
  }
}
