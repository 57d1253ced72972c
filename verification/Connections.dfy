/** Which connections a pass asks for, to be opened and to be closed. */
module Connections {
  import opened Text
  import opened Tables
  import opened RunJobs
  import opened StateGraph

  // ---- what should be asked for ------------------------------------------------------------

  /** Some job that is ready to be sent goes to the system `e`. */
  predicate HasReady(t: Tables, e: Endpoint) {
    e in t.sysinfo && exists id :: id in t.jobs && t.jobs[id].state == S4 && t.jobs[id].dest == e.name
  }

  /** Some job for the system `e` is not complete, in whatever state. */
  predicate HasUnfinished(t: Tables, e: Endpoint) {
    exists id :: id in t.jobs && t.jobs[id].dest == e.name && t.jobs[id].state != C
  }

  /** A system with that address and port has a job that is ready, and is not connected. */
  predicate NeedsOpening(t: Tables, k: CommKey) {
    && k.ip in t.conns && t.conns[k.ip].status == 1
    && exists e :: e in t.sysinfo && HasReady(t, e) && e.ip == k.ip && t.sysinfo[e].dataport == k.arg
  }

  /** The address is connected with that descriptor, and some system there has nothing unfinished. */
  predicate NeedsClosing(t: Tables, k: CommKey) {
    && k.ip in t.conns && t.conns[k.ip].status == 2 && t.conns[k.ip].sfd == k.arg
    && exists e :: e in t.sysinfo && e.ip == k.ip && !HasUnfinished(t, e)
  }

  /** The connections: what was there stays, and every system with a job that is ready has one, not connected
      if it is new; there are no others. */
  ghost predicate ConnsAre(before: map<int, Conn>, u: Tables) {
    && (forall ip :: ip in before ==> ip in u.conns && u.conns[ip] == before[ip])
    && (forall e :: HasReady(u, e) ==> e.ip in u.conns)
    && (forall ip :: ip in u.conns && ip !in before ==>
          u.conns[ip] == Conn(-1, 1) && exists e :: HasReady(u, e) && e.ip == ip)
  }

  /** The requests: what was there stays; a new one is there if and only if its connection needs it, says which
      of the two it is, and has not been handed over. */
  ghost predicate CommsAre(before: map<CommKey, Comm>, u: Tables) {
    && (forall k :: k in before ==> k in u.comms && u.comms[k] == before[k])
    && (forall k :: k in u.comms && k !in before ==> !u.comms[k].waiting)
    && (forall k :: k !in before ==> (k in u.comms && !u.comms[k].closing <==> NeedsOpening(u, k)))
    && (forall k :: k !in before ==> (k in u.comms && u.comms[k].closing <==> NeedsClosing(u, k)))
  }

  // ---- what is asked for -------------------------------------------------------------------

  lemma WantedIs(t: Tables, e: Endpoint)
    ensures HasReady(t, e) ==> e.ip in WithConns(t)
  {
  }

  lemma NewConns(t: Tables, ip: int)
    requires ip in WithConns(t) && ip !in t.conns
    ensures WithConns(t)[ip] == Conn(-1, 1) && exists e :: HasReady(t, e) && e.ip == ip
  {
    var id, e :| id in t.jobs && e in t.sysinfo && e.name == t.jobs[id].dest && t.jobs[id].state == S4 && e.ip == ip;
    assert HasReady(t, e);
  }

  lemma ConnsExact(t: Tables, u: Tables)
    requires u.conns == WithConns(t) && u.jobs == t.jobs && u.sysinfo == t.sysinfo
    ensures ConnsAre(t.conns, u)
  {
    hide WithConns;
    OldConns(t);
    forall e | HasReady(u, e) ensures e.ip in u.conns { assert HasReady(t, e); WantedIs(t, e); }
    forall ip | ip in u.conns && ip !in t.conns
      ensures u.conns[ip] == Conn(-1, 1) && exists e :: HasReady(u, e) && e.ip == ip
    {
      NewConns(t, ip);
      var e :| HasReady(t, e) && e.ip == ip;
      assert HasReady(u, e);
    }
  }

  lemma OldConns(t: Tables)
    ensures forall ip :: ip in t.conns ==> ip in WithConns(t) && WithConns(t)[ip] == t.conns[ip]
  {
  }

  lemma ReadyJob(t: Tables, e: Endpoint) returns (id: Id)
    requires HasReady(t, e)
    ensures id in t.jobs && t.jobs[id].state == S4 && t.jobs[id].dest == e.name
  {
    id :| id in t.jobs && t.jobs[id].state == S4 && t.jobs[id].dest == e.name;
  }

  lemma OpenExact(t: Tables, k: CommKey)
    ensures k in OpenKeys(t) <==> NeedsOpening(t, k)
  {
    if k in OpenKeys(t) {
      var id, e :| id in t.jobs && e in t.sysinfo && e.name == t.jobs[id].dest && t.jobs[id].state == S4
        && e.ip in t.conns && t.conns[e.ip].status == 1 && CommKey(e.ip, t.sysinfo[e].dataport) == k;
      assert HasReady(t, e);
    }
    if NeedsOpening(t, k) {
      var e :| HasReady(t, e) && e.ip == k.ip && t.sysinfo[e].dataport == k.arg;
      var id := ReadyJob(t, e);
      assert CommKey(e.ip, t.sysinfo[e].dataport) == k;
    }
  }

  lemma CloseExact(t: Tables, k: CommKey)
    ensures k in CloseKeys(t) <==> NeedsClosing(t, k)
  {
    if k in CloseKeys(t) {
      var e :| e in t.sysinfo && e.ip in t.conns && t.conns[e.ip].status == 2 && Idle(t, e)
        && CommKey(e.ip, t.conns[e.ip].sfd) == k;
      assert !HasUnfinished(t, e);
    }
    if NeedsClosing(t, k) {
      var e :| e in t.sysinfo && e.ip == k.ip && !HasUnfinished(t, e);
      assert Idle(t, e);
      assert CommKey(e.ip, t.conns[e.ip].sfd) == k;
    }
  }

  lemma CommsExact(before: map<CommKey, Comm>, t: Tables, u: Tables, env: Env)
    requires u.comms == WithComms(WithComms(before, OpenKeys(t), false, env), CloseKeys(t), true, env)
    requires u.jobs == t.jobs && u.sysinfo == t.sysinfo && u.conns == t.conns
    ensures CommsAre(before, u)
  {
    hide OpenKeys, CloseKeys, NeedsOpening, NeedsClosing;
    forall k ensures k in OpenKeys(t) <==> NeedsOpening(u, k) { OpenExact(t, k); SameNeeds(t, u, k); }
    forall k ensures k in CloseKeys(t) <==> NeedsClosing(u, k) { CloseExact(t, k); SameNeeds(t, u, k); }
    forall k ensures !(NeedsOpening(u, k) && NeedsClosing(u, k)) { NotBoth(u, k); }
  }

  lemma SameNeeds(t: Tables, u: Tables, k: CommKey)
    requires u.jobs == t.jobs && u.sysinfo == t.sysinfo && u.conns == t.conns
    ensures NeedsOpening(u, k) <==> NeedsOpening(t, k)
    ensures NeedsClosing(u, k) <==> NeedsClosing(t, k)
  {
    forall e ensures HasReady(u, e) <==> HasReady(t, e) { }
    forall e ensures HasUnfinished(u, e) <==> HasUnfinished(t, e) { }
    hide HasReady, HasUnfinished;
  }

  lemma NotBoth(t: Tables, k: CommKey)
    ensures !(NeedsOpening(t, k) && NeedsClosing(t, k))
  {
    hide HasReady, HasUnfinished;
  }

  lemma ConnectExact(t: Tables, env: Env, u: Tables)
    requires Connect(t, env) == Some(u)
    ensures ConnsAre(t.conns, u) && CommsAre(t.comms, u)
  {
    hide WithConns, OpenKeys, CloseKeys, WithComms, SerialFits, ConnsAre, CommsAre;
    ConnsExact(t, u);
    CommsExact(t.comms, t.(conns := WithConns(t)), u, env);
  }

  /** After any successful pass, exactly the connections are there, and exactly the requests, that the jobs, the
      known systems and the state of the connections call for. */
  lemma PassConnects(t: Tables, env: Env, u: Tables)
    requires Pass(t, env) == Some(u)
    ensures ConnsAre(t.conns, u) && CommsAre(t.comms, u)
  {
    hide Pass, Check, Consensus, Split, Connect, ConnsAre, CommsAre, Evolves, CompletedRow, ConsensusRow, SplittingRow;
    var t1, t2, t3 := PassStages(t, env, u);
    CheckEvolves(t, env, t1);
    ConsensusEvolves(t1, env, t2);
    SplitEvolves(t2, env, t3);
    ConnectExact(t3, env, u);
  }
}
