/** A slot channel as a value: a map from the full slots to their messages, filled and drained first fit. */
module Channels {

  const TOTAL_PARTITIONS := 80

  /** Type 1 is the first half of the slots, type 2 the second half, anything else all of them. */
  predicate InRegion(typ: int, i: int) {
    (if typ == 2 then 40 else 0) <= i < if typ == 1 then 40 else TOTAL_PARTITIONS
  }

  /** The value of bit `i` when the full slots are `held`. */
  function StateOf(held: set<nat>, i: nat): int {
    if i in held then 1 else 0
  }

  /** `r` is the least slot of the region in state `state`, or -1 when there is none. */
  ghost predicate IsFirst(held: set<nat>, state: int, typ: int, r: int) {
    if r == -1 then forall i: nat :: InRegion(typ, i) ==> StateOf(held, i) != state
    else && InRegion(typ, r) && StateOf(held, r) == state
         && forall i: nat :: InRegion(typ, i) && i < r ==> StateOf(held, i) != state
  }

  /** A failed search for a full slot means that the region is empty. */
  lemma NoneFull(held: set<nat>, typ: int)
    requires IsFirst(held, 1, typ, -1)
    ensures forall i :: i in held ==> !InRegion(typ, i)
  {
    forall i | i in held ensures !InRegion(typ, i) {
      assert StateOf(held, i) == 1;
    }
  }

  lemma FirstInRegion(held: set<nat>, state: int, typ: int, r: int)
    requires IsFirst(held, state, typ, r) && r != -1
    ensures InRegion(typ, r)
  {
  }

  lemma FullOrNone(held: set<nat>, typ: int, r: int)
    requires IsFirst(held, 1, typ, r)
    ensures r == -1 || (r >= 0 && r in held)
  {
  }

  lemma NoneFound(held: set<nat>, state: int, typ: int, r: int)
    requires IsFirst(held, state, typ, r) && r < 0
    ensures r == -1
  {
  }

  /** Every search has a result. */
  lemma FirstExists(held: set<nat>, state: int, typ: int) returns (r: int)
    ensures IsFirst(held, state, typ, r)
  {
    r := 0;
    while r < TOTAL_PARTITIONS
      invariant 0 <= r <= TOTAL_PARTITIONS
      invariant forall i: nat :: InRegion(typ, i) && i < r ==> StateOf(held, i) != state
    {
      if InRegion(typ, r) && StateOf(held, r) == state { return; }
      r := r + 1;
    }
    r := -1;
  }

  type Slots<M> = m: map<nat, M> | forall i :: i in m ==> i < TOTAL_PARTITIONS witness map[]

  // ---- how many slots are full -------------------------------------------------------------

  function Below(held: set<nat>): set<nat> {
    set i | i in held && i < 40
  }

  function Above(held: set<nat>): set<nat> {
    set i | i in held && i >= 40
  }

  /** The numbers of full slots: in the first half, in the second, and in all. */
  function Downs<M>(m: Slots<M>): nat {
    |Below(m.Keys)|
  }

  function Ups<M>(m: Slots<M>): nat {
    |Above(m.Keys)|
  }

  function Held<M>(m: Slots<M>): nat {
    |m.Keys|
  }

  lemma PutCounts<M>(m: Slots<M>, i: nat, msg: M)
    requires i !in m && i < TOTAL_PARTITIONS
    ensures Downs(m[i := msg]) == Downs(m) + (if i < 40 then 1 else 0)
    ensures Ups(m[i := msg]) == Ups(m) + (if i < 40 then 0 else 1)
  {
    hide Below, Above;
    assert m[i := msg].Keys == m.Keys + {i};
    SetCounts(m.Keys, i);
  }

  lemma SetCounts(held: set<nat>, i: nat)
    requires i !in held
    ensures |Below(held + {i})| == |Below(held)| + (if i < 40 then 1 else 0)
    ensures |Above(held + {i})| == |Above(held)| + (if i < 40 then 0 else 1)
  {
    assert Below(held + {i}) == if i < 40 then Below(held) + {i} else Below(held);
    assert Above(held + {i}) == if i < 40 then Above(held) else Above(held) + {i};
  }

  lemma TakeCounts<M>(m: Slots<M>, i: nat)
    requires i in m
    ensures Downs(m - {i}) == Downs(m) - (if i < 40 then 1 else 0)
    ensures Ups(m - {i}) == Ups(m) - (if i < 40 then 0 else 1)
  {
    hide Downs, Ups;
    PutCounts(m - {i}, i, m[i]);
    assert (m - {i})[i := m[i]] == m;
  }

  lemma HeldCounts<M>(m: Slots<M>, i: nat, msg: M)
    requires i < TOTAL_PARTITIONS
    ensures i !in m ==> Held(m[i := msg]) == Held(m) + 1
    ensures i in m ==> Held(m - {i}) == Held(m) - 1
  {
    assert i !in m ==> m[i := msg].Keys == m.Keys + {i};
    assert i in m ==> (m - {i}).Keys == m.Keys - {i};
  }

  lemma NoneAbove<M>(m: Slots<M>)
    requires IsFirst(m.Keys, 1, 2, -1)
    ensures Ups(m) == 0
  {
    NoneFull(m.Keys, 2);
    assert Above(m.Keys) == {};
  }

  lemma NoneBelow<M>(m: Slots<M>)
    requires IsFirst(m.Keys, 1, 1, -1)
    ensures Downs(m) == 0
  {
    NoneFull(m.Keys, 1);
    assert Below(m.Keys) == {};
  }

  lemma NoneHeld<M>(m: Slots<M>)
    requires IsFirst(m.Keys, 1, 3, -1)
    ensures Held(m) == 0
  {
    NoneFull(m.Keys, 3);
    assert m.Keys == {};
  }

  // ---- what is inside ----------------------------------------------------------------------

  /** The messages in the slots below `n`. */
  function Load<M>(m: map<nat, M>, n: nat): multiset<M> {
    if n == 0 then multiset{}
    else Load(m, n - 1) + if n - 1 in m then multiset{m[n - 1]} else multiset{}
  }

  lemma {:induction false} LoadSame<M>(a: map<nat, M>, b: map<nat, M>, n: nat)
    requires forall i :: 0 <= i < n ==> (i in a <==> i in b) && (i in a ==> a[i] == b[i])
    ensures Load(a, n) == Load(b, n)
  {
    if n > 0 { LoadSame(a, b, n - 1); }
  }

  lemma Balance<M>(stored: multiset<M>, drained: multiset<M>, a: multiset<M>, b: multiset<M>, plus: multiset<M>,
      minus: multiset<M>)
    requires stored == drained + a && a + plus == b + minus
    ensures stored + plus == drained + minus + b
  {
    assert stored + plus == drained + (a + plus);
  }

  lemma {:induction false} LoadPut<M>(m: map<nat, M>, slot: nat, msg: M, n: nat)
    requires slot !in m
    ensures Load(m[slot := msg], n) == Load(m, n) + if slot < n then multiset{msg} else multiset{}
  {
    if n > 0 {
      LoadPut(m, slot, msg, n - 1);
      var last := if n - 1 in m then multiset{m[n - 1]} else multiset{};
      if n - 1 == slot {
        assert last == multiset{};
      } else {
        Balance(Load(m[slot := msg], n - 1), Load(m, n - 1), if slot < n - 1 then multiset{msg} else multiset{},
                if slot < n then multiset{msg} else multiset{}, last, last);
      }
    }
  }

  lemma LoadTake<M>(m: map<nat, M>, slot: nat, n: nat)
    requires slot in m && slot < n
    ensures Load(m, n) == Load(m - {slot}, n) + multiset{m[slot]}
  {
    LoadPut(m - {slot}, slot, m[slot], n);
    assert (m - {slot})[slot := m[slot]] == m;
  }

  // ---- runs of one channel -----------------------------------------------------------------

  datatype Event<M> =
    | Stored(typ: int, slot: nat, msg: M)
    | Dropped(typ: int, msg: M)
    | Drained(typ: int, slot: nat, msg: M)
    | Idle(typ: int)
    | Quiet

  /** One producer or consumer call on a channel: search, then at most one slot changes hands. `Quiet` is
      anything that happens elsewhere. */
  ghost predicate Step<M(!new)>(a: Slots<M>, e: Event<M>, b: Slots<M>) {
    match e
    case Stored(typ, slot, msg) => IsFirst(a.Keys, 0, typ, slot) && b == a[slot := msg]
    case Dropped(typ, msg) => IsFirst(a.Keys, 0, typ, -1) && b == a
    case Drained(typ, slot, msg) => IsFirst(a.Keys, 1, typ, slot) && slot in a && a[slot] == msg && b == a - {slot}
    case Idle(typ) => IsFirst(a.Keys, 1, typ, -1) && b == a
    case Quiet => b == a
  }

  ghost predicate Run<M(!new)>(states: seq<Slots<M>>, events: seq<Event<M>>) {
    && |states| == |events| + 1 && states[0] == map[]
    && forall i :: 0 <= i < |events| ==> Step(states[i], events[i], states[i + 1])
  }

  predicate Touches<M>(e: Event<M>, slot: nat) {
    (e.Stored? || e.Drained?) && e.slot == slot
  }

  /** Event `i` is the last one before `n` that touched `slot`, and it stored `msg` there. */
  predicate LastStore<M(==)>(events: seq<Event<M>>, i: nat, n: nat, slot: nat, msg: M)
    requires i < n <= |events|
  {
    && events[i].Stored? && events[i].slot == slot && events[i].msg == msg
    && forall j :: i < j < n ==> !Touches(events[j], slot)
  }

  /** Every full slot holds what was last stored in it, and nothing has touched it since. */
  lemma {:induction false} HeldSinceStore<M(!new)>(states: seq<Slots<M>>, events: seq<Event<M>>, n: nat, slot: nat)
      returns (i: nat)
    requires Run(states, events) && n <= |events| && slot in states[n]
    ensures i < n && LastStore(events, i, n, slot, states[n][slot])
  {
    var e := events[n - 1];
    assert Step(states[n - 1], e, states[n]);
    if e.Stored? && e.slot == slot {
      i := n - 1;
    } else {
      i := HeldSinceStore(states, events, n - 1, slot);
    }
  }

  /** An empty slot has been drained since it was last filled, or never was. */
  lemma {:induction false} FreeSinceDrain<M(!new)>(states: seq<Slots<M>>, events: seq<Event<M>>, n: nat, i: nat,
      slot: nat)
    requires Run(states, events) && i < n <= |events| && slot !in states[n]
    requires events[i].Stored? && events[i].slot == slot
    ensures exists k :: i < k < n && events[k].Drained? && events[k].slot == slot
    decreases n
  {
    var e := events[n - 1];
    assert Step(states[n - 1], e, states[n]);
    if !(e.Drained? && e.slot == slot) {
      FreeSinceDrain(states, events, n - 1, i, slot);
    } else if n - 1 == i {
      assert false;
    }
  }

  /** First fit never hands out a slot that is still held: between two grants of one slot it is drained. */
  lemma NeverGrantedTwice<M(!new)>(states: seq<Slots<M>>, events: seq<Event<M>>, i: nat, j: nat)
    requires Run(states, events) && i < j < |events|
    requires events[i].Stored? && events[j].Stored? && events[i].slot == events[j].slot
    ensures exists k :: i < k < j && events[k].Drained? && events[k].slot == events[i].slot
  {
    assert Step(states[j], events[j], states[j + 1]);
    FreeSinceDrain(states, events, j, i, events[i].slot);
  }

  /** Every drained message is the one that was stored in its slot, and it is drained once. */
  lemma DrainedIsStored<M(!new)>(states: seq<Slots<M>>, events: seq<Event<M>>, j: nat)
    requires Run(states, events) && j < |events| && events[j].Drained?
    ensures exists i :: 0 <= i < j && LastStore(events, i, j, events[j].slot, events[j].msg)
  {
    assert Step(states[j], events[j], states[j + 1]);
    var i := HeldSinceStore(states, events, j, events[j].slot);
  }

  /** The messages stored, and those drained, by the first `n` events. */
  function StoredIn<M>(events: seq<Event<M>>, n: nat): multiset<M>
    requires n <= |events|
  {
    if n == 0 then multiset{}
    else StoredIn(events, n - 1) + if events[n - 1].Stored? then multiset{events[n - 1].msg} else multiset{}
  }

  function DrainedIn<M>(events: seq<Event<M>>, n: nat): multiset<M>
    requires n <= |events|
  {
    if n == 0 then multiset{}
    else DrainedIn(events, n - 1) + if events[n - 1].Drained? then multiset{events[n - 1].msg} else multiset{}
  }

  lemma StepLoad<M(!new)>(a: Slots<M>, e: Event<M>, b: Slots<M>)
    requires Step(a, e, b)
    ensures Load(a, TOTAL_PARTITIONS) + (if e.Stored? then multiset{e.msg} else multiset{})
         == Load(b, TOTAL_PARTITIONS) + (if e.Drained? then multiset{e.msg} else multiset{})
  {
    hide Load;
    if e.Stored? { LoadPut(a, e.slot, e.msg, TOTAL_PARTITIONS); }
    if e.Drained? { LoadTake(a, e.slot, TOTAL_PARTITIONS); }
  }

  /** Nothing is lost or made up inside a channel: what was stored is what was drained and what is there. */
  lemma {:induction false} Conservation<M(!new)>(states: seq<Slots<M>>, events: seq<Event<M>>, n: nat)
    requires Run(states, events) && n <= |events|
    ensures StoredIn(events, n) == DrainedIn(events, n) + Load(states[n], TOTAL_PARTITIONS)
  {
    hide Load, Step;
    if n == 0 {
      LoadEmpty<M>(TOTAL_PARTITIONS);
    } else {
      Conservation(states, events, n - 1);
      var e := events[n - 1];
      StepLoad(states[n - 1], e, states[n]);
      Balance(StoredIn(events, n - 1), DrainedIn(events, n - 1),
              Load(states[n - 1], TOTAL_PARTITIONS), Load(states[n], TOTAL_PARTITIONS),
              if e.Stored? then multiset{e.msg} else multiset{}, if e.Drained? then multiset{e.msg} else multiset{});
    }
  }

  lemma {:induction false} LoadEmpty<M>(n: nat)
    ensures Load<M>(map[], n) == multiset{}
  {
    if n > 0 { LoadEmpty<M>(n - 1); }
  }
}
