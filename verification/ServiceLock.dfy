/** The per-service lock: a table of reference-counted mutexes, created on first use and
    dropped when nobody holds or waits for them. */
module ServiceLock {
  import opened Wrappers
  import opened Kube

  // ------------------------------------------------------------------------------------
  // The lock table as an object

  /** What a table entry amounts to: how many threads use it, and whether its mutex is locked. */
  datatype Slot = Slot(counter: int, locked: bool)

  type Table = map<ServiceKey, Slot>

  function SlotAt(t: Table, key: ServiceKey): Slot {
    if key in t then t[key] else Slot(0, false)
  }

  /** The part of Lock that runs under the table mutex. */
  function Enter(t: Table, key: ServiceKey): Table {
    t[key := Slot(SlotAt(t, key).counter + 1, SlotAt(t, key).locked)]
  }

  /** Taking the entry's own mutex, once it is free. */
  function Take(t: Table, key: ServiceKey): Table {
    t[key := Slot(SlotAt(t, key).counter, true)]
  }

  /** Unlock. */
  function Leave(t: Table, key: ServiceKey): Table {
    if SlotAt(t, key).counter - 1 <= 0 then t - {key}
    else t[key := Slot(SlotAt(t, key).counter - 1, false)]
  }

  /** What some other thread does to the table: the first part of Lock, the taking of a mutex, or
      Unlock. */
  datatype Op = Entering(key: ServiceKey) | Taking(key: ServiceKey) | Leaves(key: ServiceKey)

  function Apply(t: Table, op: Op): Table {
    match op
    case Entering(key) => Enter(t, key)
    case Taking(key) => Take(t, key)
    case Leaves(key) => Leave(t, key)
  }

  function ApplyAll(t: Table, ops: seq<Op>): Table {
    if ops == [] then t else Apply(ApplyAll(t, ops[..|ops| - 1]), ops[|ops| - 1])
  }

  /** Threads take a mutex and leave only where they are counted. */
  predicate Proper(t: Table, ops: seq<Op>)
    decreases |ops|
  {
    ops == [] ||
    (Proper(t, ops[..|ops| - 1])
     && (!ops[|ops| - 1].Entering? ==> SlotAt(ApplyAll(t, ops[..|ops| - 1]), ops[|ops| - 1].key).counter >= 1))
  }

  /** One more user of an entry makes no difference to what the others do with the table. */
  lemma {:induction false} EnterCommutes(t: Table, key: ServiceKey, ops: seq<Op>)
    requires Proper(t, ops)
    ensures ApplyAll(Enter(t, key), ops) == Enter(ApplyAll(t, ops), key)
  {
    if ops != [] {
      var earlier, op := ops[..|ops| - 1], ops[|ops| - 1];
      EnterCommutes(t, key, earlier);
      EnterCommutesOnce(ApplyAll(t, earlier), key, op);
    }
  }

  lemma EnterCommutesOnce(t: Table, key: ServiceKey, op: Op)
    requires !op.Entering? ==> SlotAt(t, op.key).counter >= 1
    ensures Apply(Enter(t, key), op) == Enter(Apply(t, op), key)
  {
  }

  /** The entry of a thread in its critical section. */
  function Held(t: Table, key: ServiceKey): Table {
    t[key := Slot(SlotAt(t, key).counter + 1, true)]
  }

  /** While the mutex is held, the others can only enter under its key. */
  lemma {:induction false} HeldCommutes(t: Table, key: ServiceKey, ops: seq<Op>)
    requires Proper(t, ops) && (forall i :: 0 <= i < |ops| && ops[i].key == key ==> ops[i].Entering?) && !SlotAt(t, key).locked
    ensures ApplyAll(Held(t, key), ops) == Held(ApplyAll(t, ops), key) && !SlotAt(ApplyAll(t, ops), key).locked
  {
    if ops != [] {
      var earlier, op := ops[..|ops| - 1], ops[|ops| - 1];
      HeldCommutes(t, key, earlier);
      assert forall i :: 0 <= i < |earlier| ==> earlier[i] == ops[i];
      HeldCommutesOnce(ApplyAll(t, earlier), key, op);
    }
  }

  lemma HeldCommutesOnce(t: Table, key: ServiceKey, op: Op)
    requires op.key == key ==> op.Entering?
    requires !op.Entering? ==> SlotAt(t, op.key).counter >= 1
    ensures Apply(Held(t, key), op) == Held(Apply(t, op), key)
    ensures SlotAt(Apply(t, op), key).locked == SlotAt(t, key).locked
  {
    if op.key == key {
      assert Enter(Held(t, key), key) == Held(Enter(t, key), key);
    } else {
      match op
      case Entering(k) =>
      case Taking(k) =>
      case Leaves(k) => assert key in t ==> key in Leave(t, k);
    }
  }

  lemma LeaveHeld(t: Table, key: ServiceKey)
    requires Counted(t) && !SlotAt(t, key).locked
    ensures Leave(Held(t, key), key) == t
  {
    if key in t {
      assert t[key := t[key]] == t;
    } else {
      assert Held(t, key) - {key} == t;
    }
  }

  predicate Counted(t: Table) {
    forall key :: key in t ==> t[key].counter >= 1
  }

  lemma {:induction false} StaysCounted(t: Table, ops: seq<Op>)
    requires Counted(t) && Proper(t, ops)
    ensures Counted(ApplyAll(t, ops))
  {
    if ops != [] {
      StaysCounted(t, ops[..|ops| - 1]);
    }
  }

  lemma {:induction false} ApplyBoth(t: Table, a: seq<Op>, b: seq<Op>)
    ensures ApplyAll(t, a + b) == ApplyAll(ApplyAll(t, a), b)
  {
    if b == [] {
      assert a + b == a;
    } else {
      ApplyBoth(t, a, b[..|b| - 1]);
      assert (a + b)[..|a + b| - 1] == a + b[..|b| - 1];
    }
  }

  /** Unlock undoes Lock, whatever the others do while the thread waits for the mutex and while it holds
      it: the table is as if the thread had never been there. */
  lemma {:induction false} LeaveUndoesEnter(t: Table, key: ServiceKey, waiting: seq<Op>, holding: seq<Op>)
    requires Counted(t) && Proper(t, waiting) && Proper(ApplyAll(t, waiting), holding)
    requires !SlotAt(ApplyAll(t, waiting), key).locked
    requires forall i :: 0 <= i < |holding| && holding[i].key == key ==> holding[i].Entering?
    ensures Leave(ApplyAll(Take(ApplyAll(Enter(t, key), waiting), key), holding), key) == ApplyAll(t, waiting + holding)
  {
    var free := ApplyAll(t, waiting);
    EnterCommutes(t, key, waiting);
    TakeEntered(free, key);
    HeldCommutes(free, key, holding);
    StaysCounted(t, waiting);
    StaysCounted(free, holding);
    ApplyBoth(t, waiting, holding);
    LeaveHeld(ApplyAll(free, holding), key);
  }

  lemma TakeEntered(t: Table, key: ServiceKey)
    ensures Take(Enter(t, key), key) == Held(t, key)
  {
  }

  class RefCounter {
    var counter: int
    var locked: bool

    constructor ()
      ensures counter == 0 && !locked
    {
      counter, locked := 0, false;
    }
  }

  class ServiceLock {
    var inUse: map<ServiceKey, RefCounter>

    ghost predicate Valid()
      reads this
    {
      forall k, k' :: k in inUse && k' in inUse && k != k' ==> inUse[k] != inUse[k']
    }

    ghost function View(): Table
      reads this, inUse.Values
    {
      map k | k in inUse :: Slot(inUse[k].counter, inUse[k].locked)
    }

    constructor ()
      ensures Valid() && View() == map[]
    {
      inUse := map[];
    }

    method GetLocker(key: ServiceKey) returns (m: RefCounter)
      requires Valid()
      modifies this
      ensures Valid() && key in inUse && inUse[key] == m
      ensures key in old(inUse) ==> inUse == old(inUse)
      ensures key !in old(inUse) ==> fresh(m) && inUse == old(inUse)[key := m] && m.counter == 0 && !m.locked
    {
      if key !in inUse {
        m := new RefCounter();
        inUse := inUse[key := m];
      } else {
        m := inUse[key];
      }
    }

    /** Lock up to the point where the thread waits on the mutex it was given. */
    method Register(key: ServiceKey) returns (m: RefCounter)
      requires Valid()
      modifies this, inUse.Values
      ensures Valid() && key in inUse && inUse[key] == m
      ensures View() == Enter(old(View()), key)
    {
      m := GetLocker(key);
      m.counter := m.counter + 1;
    }

    /** Unlock: releases the mutex found in the table, and drops the entry when it was the last user. */
    method Unlock(key: ServiceKey)
      requires Valid() && key in inUse && inUse[key].locked
      modifies this, inUse.Values
      ensures Valid()
      ensures View() == Leave(old(View()), key)
    {
      var m := GetLocker(key);
      m.locked := false;
      m.counter := m.counter - 1;
      if m.counter <= 0 {
        inUse := inUse - {key};
      }
    }
  }

  // ------------------------------------------------------------------------------------
  // Any number of threads, one statement at a time

  type Tid = int
  type Ref = nat

  /** Where a thread stands. From `Counting` on it remembers the mutex it was given; Unlock looks
      the mutex up again, and `found` is what it sees. */
  datatype Pc =
    | Idle
    | WantTable(key: ServiceKey)
    | Looking(key: ServiceKey)
    | Counting(key: ServiceKey, ref: Ref)
    | Leaving(key: ServiceKey, ref: Ref)
    | WantRef(key: ServiceKey, ref: Ref)
    | Holding(key: ServiceKey, ref: Ref)
    | WantTableAgain(key: ServiceKey, ref: Ref)
    | Finding(key: ServiceKey, ref: Ref)
    | Releasing(key: ServiceKey, ref: Ref, found: Ref)
    | Decrementing(key: ServiceKey, ref: Ref, found: Ref)
    | Deleting(key: ServiceKey, ref: Ref, found: Ref)
    | Exiting(key: ServiceKey)

  datatype State = State(mu: Option<Tid>, inUse: map<ServiceKey, Ref>, counter: map<Ref, int>,
                         owner: map<Ref, Option<Tid>>, pcs: map<Tid, Pc>)

  predicate InTable(pc: Pc) {
    pc.Looking? || pc.Counting? || pc.Leaving? || pc.Finding? || pc.Releasing? || pc.Decrementing? || pc.Deleting? || pc.Exiting?
  }

  predicate HasRef(pc: Pc) {
    !pc.Idle? && !pc.WantTable? && !pc.Looking? && !pc.Exiting?
  }

  /** The thread is counted in its entry: it waits on the mutex, holds it, or is giving it up. */
  predicate Registered(pc: Pc, key: ServiceKey) {
    && HasRef(pc) && pc.key == key && !pc.Counting? && !pc.Deleting?
  }

  /** The thread is in the critical section, or still on its way to unlocking. */
  predicate Owns(pc: Pc) {
    pc.Holding? || pc.WantTableAgain? || pc.Finding? || pc.Releasing?
  }

  function Users(s: State, key: ServiceKey): set<Tid> {
    set t | t in s.pcs && Registered(s.pcs[t], key)
  }

  ghost predicate Init(s: State) {
    && s.mu.None? && s.inUse == map[] && s.counter == map[] && s.owner == map[]
    && forall t :: t in s.pcs ==> s.pcs[t].Idle?
  }

  /** getLocker: the entry in the table, or a new one with an unused mutex. */
  ghost predicate GetsLocker(s: State, s': State, key: ServiceKey, ref: Ref, pcs': map<Tid, Pc>) {
    if key in s.inUse then ref == s.inUse[key] && s' == s.(pcs := pcs')
    else
      && ref !in s.counter && ref !in s.owner
      && s' == s.(inUse := s.inUse[key := ref], counter := s.counter[ref := 0], owner := s.owner[ref := None], pcs := pcs')
  }

  /** One statement of thread `t`. */
  ghost predicate Step(s: State, s': State, t: Tid) {
    t in s.pcs &&
    match s.pcs[t]
    case Idle => exists key :: s' == s.(pcs := s.pcs[t := WantTable(key)])
    case WantTable(key) => s.mu.None? && s' == s.(mu := Some(t), pcs := s.pcs[t := Looking(key)])
    case Looking(key) => exists ref :: GetsLocker(s, s', key, ref, s.pcs[t := Counting(key, ref)])
    case Counting(key, ref) =>
      ref in s.counter && s' == s.(counter := s.counter[ref := s.counter[ref] + 1], pcs := s.pcs[t := Leaving(key, ref)])
    case Leaving(key, ref) => s' == s.(mu := None, pcs := s.pcs[t := WantRef(key, ref)])
    case WantRef(key, ref) =>
      ref in s.owner && s.owner[ref].None? && s' == s.(owner := s.owner[ref := Some(t)], pcs := s.pcs[t := Holding(key, ref)])
    case Holding(key, ref) => s' == s.(pcs := s.pcs[t := WantTableAgain(key, ref)])
    case WantTableAgain(key, ref) => s.mu.None? && s' == s.(mu := Some(t), pcs := s.pcs[t := Finding(key, ref)])
    case Finding(key, ref) => exists found :: GetsLocker(s, s', key, found, s.pcs[t := Releasing(key, ref, found)])
    case Releasing(key, ref, found) =>
      found in s.owner && s.owner[found].Some? && s' == s.(owner := s.owner[found := None], pcs := s.pcs[t := Decrementing(key, ref, found)])
    case Decrementing(key, ref, found) =>
      found in s.counter && s' == s.(counter := s.counter[found := s.counter[found] - 1], pcs := s.pcs[t := Deleting(key, ref, found)])
    case Deleting(key, ref, found) =>
      found in s.counter &&
      s' == s.(inUse := if s.counter[found] <= 0 then s.inUse - {key} else s.inUse, pcs := s.pcs[t := Exiting(key)])
    case Exiting(key) => s' == s.(mu := None, pcs := s.pcs[t := Idle])
  }

  /** The table mutex is held by exactly the thread inside a table section. */
  predicate TableHeld(s: State) {
    && (forall t :: t in s.pcs ==> (InTable(s.pcs[t]) <==> s.mu == Some(t)))
    && (s.mu.Some? ==> s.mu.value in s.pcs)
  }

  /** Entries are separate objects. */
  predicate EntriesSeparate(s: State) {
    && (forall k :: k in s.inUse ==> s.inUse[k] in s.counter && s.inUse[k] in s.owner)
    && (forall k, k' :: k in s.inUse && k' in s.inUse && s.inUse[k] == s.inUse[k'] ==> k == k')
  }

  /** A thread's mutex is the one in the table, also when Unlock looks it up again. */
  predicate RefsCurrent(s: State) {
    && (forall t :: t in s.pcs && HasRef(s.pcs[t]) ==> s.pcs[t].key in s.inUse && s.inUse[s.pcs[t].key] == s.pcs[t].ref)
    && (forall t :: t in s.pcs && (s.pcs[t].Releasing? || s.pcs[t].Decrementing? || s.pcs[t].Deleting?) ==> s.pcs[t].found == s.pcs[t].ref)
  }

  predicate CountsExact(s: State) {
    forall k :: k in s.inUse ==> s.inUse[k] in s.counter && s.counter[s.inUse[k]] == |Users(s, k)|
  }

  /** An entry without users is about to get one, or about to go. */
  predicate NoStaleEntry(s: State) {
    forall k :: k in s.inUse ==>
      s.inUse[k] in s.counter &&
      (s.counter[s.inUse[k]] >= 1 ||
       (s.mu.Some? && s.mu.value in s.pcs && var pc := s.pcs[s.mu.value]; (pc.Counting? || pc.Deleting?) && pc.key == k))
  }

  /** Mutexes are owned by the threads in or around their critical section. */
  predicate OwnersExact(s: State) {
    && (forall t :: t in s.pcs && Owns(s.pcs[t]) ==> s.pcs[t].ref in s.owner && s.owner[s.pcs[t].ref] == Some(t))
    && (forall k :: k in s.inUse ==>
          && s.inUse[k] in s.owner
          && (s.owner[s.inUse[k]].Some? ==>
                var t := s.owner[s.inUse[k]].value;
                t in s.pcs && Owns(s.pcs[t]) && s.pcs[t].key == k))
  }

  predicate Inv(s: State) {
    TableHeld(s) && EntriesSeparate(s) && RefsCurrent(s) && CountsExact(s) && NoStaleEntry(s) && OwnersExact(s)
  }

  lemma UsersAfter(s: State, s': State, t: Tid, pc: Pc, key: ServiceKey)
    requires t in s.pcs && s'.pcs == s.pcs[t := pc]
    ensures Users(s', key) == (if Registered(pc, key) then Users(s, key) + {t} else Users(s, key) - {t})
    ensures (t in Users(s, key)) == Registered(s.pcs[t], key)
    ensures |Users(s', key)| == |Users(s, key)| + (if Registered(pc, key) then 1 else 0) - (if Registered(s.pcs[t], key) then 1 else 0)
  {
    var before := Users(s, key);
    if Registered(pc, key) {
      assert Users(s', key) == before + {t};
    } else {
      assert Users(s', key) == before - {t};
    }
  }

  lemma InitInv(s: State)
    requires Init(s)
    ensures Inv(s)
  {
  }

  /** The statements of Lock; the others are those of Unlock. */
  predicate Locking(pc: Pc) {
    pc.Idle? || pc.WantTable? || pc.Looking? || pc.Counting? || pc.Leaving? || pc.WantRef?
  }

  lemma LockTableHeld(s: State, s': State, t: Tid)
    requires TableHeld(s) && Step(s, s', t) && Locking(s.pcs[t])
    ensures TableHeld(s')
  {
  }

  lemma UnlockTableHeld(s: State, s': State, t: Tid)
    requires TableHeld(s) && Step(s, s', t) && !Locking(s.pcs[t])
    ensures TableHeld(s')
  {
  }

  lemma StepTableHeld(s: State, s': State, t: Tid)
    requires TableHeld(s) && Step(s, s', t)
    ensures TableHeld(s')
  {
    if Locking(s.pcs[t]) {
      LockTableHeld(s, s', t);
    } else {
      UnlockTableHeld(s, s', t);
    }
  }

  lemma LockEntriesSeparate(s: State, s': State, t: Tid)
    requires EntriesSeparate(s) && Step(s, s', t) && Locking(s.pcs[t])
    ensures EntriesSeparate(s')
  {
  }

  lemma UnlockEntriesSeparate(s: State, s': State, t: Tid)
    requires EntriesSeparate(s) && Step(s, s', t) && !Locking(s.pcs[t])
    ensures EntriesSeparate(s')
  {
  }

  lemma StepEntriesSeparate(s: State, s': State, t: Tid)
    requires EntriesSeparate(s) && Step(s, s', t)
    ensures EntriesSeparate(s')
  {
    if Locking(s.pcs[t]) {
      LockEntriesSeparate(s, s', t);
    } else {
      UnlockEntriesSeparate(s, s', t);
    }
  }

  /** The last user of an entry is gone when its counter is 0, so nobody still refers to it. */
  lemma DeletedUnused(s: State, t: Tid, u: Tid)
    requires TableHeld(s) && RefsCurrent(s) && CountsExact(s)
    requires t in s.pcs && s.pcs[t].Deleting? && s.counter[s.pcs[t].ref] <= 0
    requires u in s.pcs && u != t && HasRef(s.pcs[u])
    ensures s.pcs[u].key != s.pcs[t].key
  {
    var key := s.pcs[t].key;
    assert s.counter[s.pcs[t].ref] == |Users(s, key)|;
    assert Users(s, key) == {};
    assert !InTable(s.pcs[u]);
    assert s.pcs[u].key == key ==> u in Users(s, key);
  }

  lemma LockRefsCurrent(s: State, s': State, t: Tid)
    requires TableHeld(s) && RefsCurrent(s) && CountsExact(s) && Step(s, s', t) && Locking(s.pcs[t])
    ensures RefsCurrent(s')
  {
  }

  lemma UnlockRefsCurrent(s: State, s': State, t: Tid)
    requires TableHeld(s) && RefsCurrent(s) && CountsExact(s) && Step(s, s', t) && !Locking(s.pcs[t])
    ensures RefsCurrent(s')
  {
    if s.pcs[t].Deleting? {
      forall u | u in s.pcs && u != t && HasRef(s.pcs[u]) && s.counter[s.pcs[t].ref] <= 0
        ensures s.pcs[u].key != s.pcs[t].key
      {
        DeletedUnused(s, t, u);
      }
    }
  }

  lemma StepRefsCurrent(s: State, s': State, t: Tid)
    requires TableHeld(s) && RefsCurrent(s) && CountsExact(s) && Step(s, s', t)
    ensures RefsCurrent(s')
  {
    if Locking(s.pcs[t]) {
      LockRefsCurrent(s, s', t);
    } else {
      UnlockRefsCurrent(s, s', t);
    }
  }

  /** No thread is counted in an entry that does not exist. */
  lemma NoUsersYet(s: State, key: ServiceKey)
    requires RefsCurrent(s) && key !in s.inUse
    ensures Users(s, key) == {}
  {
    assert forall t :: t !in Users(s, key);
  }

  lemma CountedCountsExact(s: State, s': State, t: Tid)
    requires EntriesSeparate(s) && RefsCurrent(s) && CountsExact(s) && Step(s, s', t) && s.pcs[t].Counting?
    ensures CountsExact(s')
  {
    forall k | k in s'.inUse ensures s'.counter[s'.inUse[k]] == |Users(s', k)| {
      UsersAfter(s, s', t, s'.pcs[t], k);
      assert k != s.pcs[t].key ==> s.inUse[k] != s.pcs[t].ref;
    }
  }

  lemma DecrementedCountsExact(s: State, s': State, t: Tid)
    requires EntriesSeparate(s) && RefsCurrent(s) && CountsExact(s) && Step(s, s', t) && s.pcs[t].Decrementing?
    ensures CountsExact(s')
  {
    forall k | k in s'.inUse ensures s'.counter[s'.inUse[k]] == |Users(s', k)| {
      UsersAfter(s, s', t, s'.pcs[t], k);
      assert k != s.pcs[t].key ==> s.inUse[k] != s.pcs[t].ref;
    }
  }

  lemma CountingCountsExact(s: State, s': State, t: Tid)
    requires EntriesSeparate(s) && RefsCurrent(s) && CountsExact(s) && Step(s, s', t)
    requires s.pcs[t].Counting? || s.pcs[t].Decrementing?
    ensures CountsExact(s')
  {
    if s.pcs[t].Counting? {
      CountedCountsExact(s, s', t);
    } else {
      DecrementedCountsExact(s, s', t);
    }
  }

  lemma LookingCountsExact(s: State, s': State, t: Tid)
    requires EntriesSeparate(s) && RefsCurrent(s) && CountsExact(s) && Step(s, s', t)
    requires s.pcs[t].Looking?
    ensures CountsExact(s')
  {
    var key := s.pcs[t].key;
    var ref :| GetsLocker(s, s', key, ref, s.pcs[t := Counting(key, ref)]);
    forall k | k in s'.inUse ensures s'.counter[s'.inUse[k]] == |Users(s', k)| {
      UsersAfter(s, s', t, s'.pcs[t], k);
      if k !in s.inUse {
        NoUsersYet(s, k);
      } else {
        assert s'.counter[s.inUse[k]] == s.counter[s.inUse[k]];
      }
    }
  }

  lemma OtherCountsExact(s: State, s': State, t: Tid)
    requires RefsCurrent(s) && CountsExact(s) && Step(s, s', t)
    requires !s.pcs[t].Counting? && !s.pcs[t].Decrementing? && !s.pcs[t].Looking?
    ensures CountsExact(s')
  {
    var pc, pc' := s.pcs[t], s'.pcs[t];
    assert s'.counter == s.counter && s'.pcs == s.pcs[t := pc'];
    assert forall k :: k in s'.inUse ==> k in s.inUse && s'.inUse[k] == s.inUse[k];
    assert forall k :: Registered(pc', k) == Registered(pc, k);
    forall k | k in s'.inUse ensures s'.counter[s'.inUse[k]] == |Users(s', k)| {
      UsersAfter(s, s', t, pc', k);
    }
  }

  lemma StepCountsExact(s: State, s': State, t: Tid)
    requires EntriesSeparate(s) && RefsCurrent(s) && CountsExact(s) && Step(s, s', t)
    ensures CountsExact(s')
  {
    var pc := s.pcs[t];
    if pc.Counting? || pc.Decrementing? {
      CountingCountsExact(s, s', t);
    } else if pc.Looking? {
      LookingCountsExact(s, s', t);
    } else {
      OtherCountsExact(s, s', t);
    }
  }

  lemma LockNoStaleEntry(s: State, s': State, t: Tid)
    requires TableHeld(s) && EntriesSeparate(s) && RefsCurrent(s) && CountsExact(s) && NoStaleEntry(s) && Step(s, s', t) && Locking(s.pcs[t])
    ensures NoStaleEntry(s')
  {
    var pc := s.pcs[t];
    if pc.Counting? {
      assert s.counter[pc.ref] == |Users(s, pc.key)|;
    }
  }

  lemma UnlockNoStaleEntry(s: State, s': State, t: Tid)
    requires TableHeld(s) && EntriesSeparate(s) && RefsCurrent(s) && CountsExact(s) && NoStaleEntry(s) && Step(s, s', t) && !Locking(s.pcs[t])
    ensures NoStaleEntry(s')
  {
    if s.pcs[t].Deleting? {
      assert s.mu == Some(t);
    }
  }

  lemma StepNoStaleEntry(s: State, s': State, t: Tid)
    requires TableHeld(s) && EntriesSeparate(s) && RefsCurrent(s) && CountsExact(s) && NoStaleEntry(s) && Step(s, s', t)
    ensures NoStaleEntry(s')
  {
    if Locking(s.pcs[t]) {
      LockNoStaleEntry(s, s', t);
    } else {
      UnlockNoStaleEntry(s, s', t);
    }
  }

  predicate OwnersHold(s: State) {
    forall t :: t in s.pcs && Owns(s.pcs[t]) ==> s.pcs[t].ref in s.owner && s.owner[s.pcs[t].ref] == Some(t)
  }

  lemma StepOwnersHold(s: State, s': State, t: Tid)
    requires EntriesSeparate(s) && RefsCurrent(s) && OwnersExact(s) && Step(s, s', t)
    ensures OwnersHold(s')
  {
    forall u | u in s'.pcs && Owns(s'.pcs[u])
      ensures s'.pcs[u].ref in s'.owner && s'.owner[s'.pcs[u].ref] == Some(u)
    {
      if u != t {
        assert s'.pcs[u] == s.pcs[u];
        assert s.owner[s.pcs[u].ref] == Some(u);
      }
    }
  }

  lemma LookingOwnersExact(s: State, s': State, t: Tid)
    requires TableHeld(s) && EntriesSeparate(s) && RefsCurrent(s) && CountsExact(s) && OwnersExact(s) && Step(s, s', t) && s.pcs[t].Looking?
    ensures OwnersExact(s')
  {
    StepOwnersHold(s, s', t);
    forall k | k in s'.inUse
      ensures s'.inUse[k] in s'.owner
      ensures s'.owner[s'.inUse[k]].Some? ==>
                var u := s'.owner[s'.inUse[k]].value; u in s'.pcs && Owns(s'.pcs[u]) && s'.pcs[u].key == k
    {
      if k in s.inUse {
        assert s'.inUse[k] == s.inUse[k];
      }
    }
  }

  lemma WaitingOwnersExact(s: State, s': State, t: Tid)
    requires TableHeld(s) && EntriesSeparate(s) && RefsCurrent(s) && CountsExact(s) && OwnersExact(s) && Step(s, s', t) && Locking(s.pcs[t]) && !s.pcs[t].Looking?
    ensures OwnersExact(s')
  {
    StepOwnersHold(s, s', t);
    forall k | k in s'.inUse
      ensures s'.inUse[k] in s'.owner
      ensures s'.owner[s'.inUse[k]].Some? ==>
                var u := s'.owner[s'.inUse[k]].value; u in s'.pcs && Owns(s'.pcs[u]) && s'.pcs[u].key == k
    {
      if k in s.inUse {
        assert s'.inUse[k] == s.inUse[k];
      }
    }
  }

  lemma LockOwnersExact(s: State, s': State, t: Tid)
    requires TableHeld(s) && EntriesSeparate(s) && RefsCurrent(s) && CountsExact(s) && OwnersExact(s) && Step(s, s', t) && Locking(s.pcs[t])
    ensures OwnersExact(s')
  {
    if s.pcs[t].Looking? {
      LookingOwnersExact(s, s', t);
    } else {
      WaitingOwnersExact(s, s', t);
    }
  }

  lemma UnlockOwnersExact(s: State, s': State, t: Tid)
    requires TableHeld(s) && EntriesSeparate(s) && RefsCurrent(s) && CountsExact(s) && OwnersExact(s) && Step(s, s', t) && !Locking(s.pcs[t])
    ensures OwnersExact(s')
  {
    StepOwnersHold(s, s', t);
    forall k | k in s'.inUse
      ensures s'.inUse[k] in s'.owner
      ensures s'.owner[s'.inUse[k]].Some? ==>
                var u := s'.owner[s'.inUse[k]].value; u in s'.pcs && Owns(s'.pcs[u]) && s'.pcs[u].key == k
    {
      if k in s.inUse {
        assert s'.inUse[k] == s.inUse[k];
      }
    }
  }

  lemma StepOwnersExact(s: State, s': State, t: Tid)
    requires TableHeld(s) && EntriesSeparate(s) && RefsCurrent(s) && CountsExact(s) && OwnersExact(s) && Step(s, s', t)
    ensures OwnersExact(s')
  {
    if Locking(s.pcs[t]) {
      LockOwnersExact(s, s', t);
    } else {
      UnlockOwnersExact(s, s', t);
    }
  }

  lemma StepInv(s: State, s': State, t: Tid)
    requires Inv(s) && Step(s, s', t)
    ensures Inv(s')
  {
    StepTableHeld(s, s', t);
    StepEntriesSeparate(s, s', t);
    StepRefsCurrent(s, s', t);
    StepCountsExact(s, s', t);
    StepNoStaleEntry(s, s', t);
    StepOwnersExact(s, s', t);
  }

  // ------------------------------------------------------------------------------------
  // Every run

  ghost predicate Next(s: State, s': State) {
    exists t :: Step(s, s', t)
  }

  ghost predicate IsRun(states: seq<State>) {
    && |states| > 0 && Init(states[0])
    && forall i :: 0 < i < |states| ==> Next(states[i - 1], states[i])
  }

  lemma {:induction false} RunInv(states: seq<State>, i: nat)
    requires IsRun(states) && i < |states|
    ensures Inv(states[i])
  {
    if i == 0 {
      InitInv(states[0]);
    } else {
      RunInv(states, i - 1);
      var t :| Step(states[i - 1], states[i], t);
      StepInv(states[i - 1], states[i], t);
    }
  }

  /** At most one thread owns a service's lock. */
  lemma MutualExclusion(s: State, t: Tid, u: Tid)
    requires RefsCurrent(s) && OwnersExact(s)
    requires t in s.pcs && u in s.pcs && Owns(s.pcs[t]) && Owns(s.pcs[u]) && s.pcs[t].key == s.pcs[u].key
    ensures t == u
  {
    assert s.pcs[t].ref == s.pcs[u].ref;
  }

  lemma IdleIsOutside(s: State, t: Tid)
    requires TableHeld(s) && t in s.pcs && s.pcs[t].Idle?
    ensures s.mu != Some(t)
  {
  }

  lemma IdleMutexFree(s: State)
    requires TableHeld(s) && forall t :: t in s.pcs ==> s.pcs[t].Idle?
    ensures s.mu.None?
  {
    if s.mu.Some? {
      IdleIsOutside(s, s.mu.value);
      assert false;
    }
  }

  /** When every thread is idle the table is empty and its mutex free. */
  lemma IdleIsEmpty(s: State)
    requires TableHeld(s) && CountsExact(s) && NoStaleEntry(s)
    requires forall t :: t in s.pcs ==> s.pcs[t].Idle?
    ensures s.inUse == map[] && s.mu.None?
  {
    IdleMutexFree(s);
    assert forall k :: k in s.inUse ==> |Users(s, k)| >= 1;
    assert forall k :: Users(s, k) == {} by {
      assert forall k, t :: t !in Users(s, k);
    }
    assert s.inUse.Keys == {};
  }

  /** In every reachable state: at most one thread owns a service's lock, an entry's counter is the
      number of threads counted in it, all of them use the mutex in the table, and when every thread
      is idle nothing is left. */
  lemma LockSafety(states: seq<State>, i: nat)
    requires IsRun(states) && i < |states|
    ensures var s := states[i];
            && (forall t, u :: t in s.pcs && u in s.pcs && Owns(s.pcs[t]) && Owns(s.pcs[u]) && s.pcs[t].key == s.pcs[u].key ==> t == u)
            && (forall k :: k in s.inUse ==> s.inUse[k] in s.counter && s.counter[s.inUse[k]] == |Users(s, k)|)
            && (forall t :: t in s.pcs && HasRef(s.pcs[t]) ==> s.pcs[t].key in s.inUse && s.inUse[s.pcs[t].key] == s.pcs[t].ref)
            && ((forall t :: t in s.pcs ==> s.pcs[t].Idle?) ==> s.inUse == map[] && s.mu.None?)
  {
    RunInv(states, i);
    var s := states[i];
    forall t, u | t in s.pcs && u in s.pcs && Owns(s.pcs[t]) && Owns(s.pcs[u]) && s.pcs[t].key == s.pcs[u].key
      ensures t == u
    {
      MutualExclusion(s, t, u);
    }
    if forall t :: t in s.pcs ==> s.pcs[t].Idle? {
      IdleIsEmpty(s);
    }
  }

  /** No thread can be stuck for ever with everybody else: while some thread is inside Lock, Unlock
      or its critical section, some such thread has an enabled step. */
  lemma LockProgress(states: seq<State>, i: nat, t: Tid)
    requires IsRun(states) && i < |states|
    requires t in states[i].pcs && !states[i].pcs[t].Idle?
    ensures exists u, s' :: u in states[i].pcs && !states[i].pcs[u].Idle? && Step(states[i], s', u)
  {
    RunInv(states, i);
    var s := states[i];
    if s.mu.Some? {
      TableStepEnabled(s, s.mu.value);
    } else if s.pcs[t].WantRef? && s.owner[s.pcs[t].ref].Some? {
      FreeStepEnabled(s, s.owner[s.pcs[t].ref].value);
    } else {
      FreeStepEnabled(s, t);
    }
  }

  /** Under the table mutex nothing blocks; in particular the mutex that Unlock finds is locked by
      the caller, so unlocking it cannot panic. */
  lemma TableStepEnabled(s: State, t: Tid)
    requires Inv(s) && s.mu == Some(t)
    ensures t in s.pcs && exists s' :: Step(s, s', t)
  {
    match s.pcs[t]
    case Looking(key) => LockerExists(s, t, key);
    case Counting(key, ref) =>
      assert Step(s, s.(counter := s.counter[ref := s.counter[ref] + 1], pcs := s.pcs[t := Leaving(key, ref)]), t);
    case Leaving(key, ref) => assert Step(s, s.(mu := None, pcs := s.pcs[t := WantRef(key, ref)]), t);
    case Finding(key, ref) =>
      var pcs' := s.pcs[t := Releasing(key, ref, ref)];
      assert GetsLocker(s, s.(pcs := pcs'), key, ref, pcs');
      assert Step(s, s.(pcs := pcs'), t);
    case Releasing(key, ref, found) =>
      assert Step(s, s.(owner := s.owner[found := None], pcs := s.pcs[t := Decrementing(key, ref, found)]), t);
    case Decrementing(key, ref, found) =>
      assert Step(s, s.(counter := s.counter[found := s.counter[found] - 1], pcs := s.pcs[t := Deleting(key, ref, found)]), t);
    case Deleting(key, ref, found) =>
      assert Step(s, s.(inUse := if s.counter[found] <= 0 then s.inUse - {key} else s.inUse, pcs := s.pcs[t := Exiting(key)]), t);
    case Exiting(key) => assert Step(s, s.(mu := None, pcs := s.pcs[t := Idle]), t);
  }

  lemma {:induction false} UnusedRef(used: set<Ref>) returns (ref: Ref)
    ensures forall r :: r in used ==> r < ref
  {
    if used == {} {
      ref := 0;
    } else {
      var r :| r in used;
      var above := UnusedRef(used - {r});
      ref := if r < above then above else r + 1;
      assert forall x :: x in used ==> x == r || x in used - {r};
    }
  }

  lemma LockerExists(s: State, t: Tid, key: ServiceKey)
    requires t in s.pcs && s.pcs[t] == Looking(key)
    ensures exists s' :: Step(s, s', t)
  {
    var ref: Ref;
    var s': State;
    if key in s.inUse {
      ref := s.inUse[key];
      s' := s.(pcs := s.pcs[t := Counting(key, ref)]);
    } else {
      ref := UnusedRef(s.counter.Keys + s.owner.Keys);
      s' := s.(inUse := s.inUse[key := ref], counter := s.counter[ref := 0], owner := s.owner[ref := None], pcs := s.pcs[t := Counting(key, ref)]);
    }
    assert GetsLocker(s, s', key, ref, s.pcs[t := Counting(key, ref)]);
    assert Step(s, s', t);
  }

  lemma FreeStepEnabled(s: State, t: Tid)
    requires Inv(s) && s.mu.None? && t in s.pcs && !s.pcs[t].Idle?
    requires s.pcs[t].WantRef? ==> s.owner[s.pcs[t].ref].None?
    ensures exists s' :: Step(s, s', t)
  {
    match s.pcs[t]
    case WantTable(key) => assert Step(s, s.(mu := Some(t), pcs := s.pcs[t := Looking(key)]), t);
    case WantRef(key, ref) => assert Step(s, s.(owner := s.owner[ref := Some(t)], pcs := s.pcs[t := Holding(key, ref)]), t);
    case Holding(key, ref) => assert Step(s, s.(pcs := s.pcs[t := WantTableAgain(key, ref)]), t);
    case WantTableAgain(key, ref) => assert Step(s, s.(mu := Some(t), pcs := s.pcs[t := Finding(key, ref)]), t);
  }

  // ------------------------------------------------------------------------------------
  // Refinement: the table behaves as one plain mutex per service

  /** Which thread holds which service, forgetting the table. */
  function Holders(s: State): map<ServiceKey, Tid> {
    map k | k in s.inUse && s.inUse[k] in s.owner && s.owner[s.inUse[k]].Some? :: s.owner[s.inUse[k]].value
  }

  /** Every statement is an acquire of a free service, a release by its holder, or invisible. */
  ghost predicate MutexStep(h: map<ServiceKey, Tid>, h': map<ServiceKey, Tid>, t: Tid) {
    || h' == h
    || (exists k :: k !in h && h' == h[k := t])
    || (exists k :: k in h && h[k] == t && h' == h - {k})
  }

  lemma RefinesMutexes(s: State, s': State, t: Tid)
    requires Inv(s) && Step(s, s', t)
    ensures MutexStep(Holders(s), Holders(s'), t)
    ensures s.pcs[t].WantRef? ==> s.pcs[t].key !in Holders(s) && Holders(s') == Holders(s)[s.pcs[t].key := t]
  {
    var pc := s.pcs[t];
    if pc.WantRef? {
      AcquireHolders(s, s', t);
    } else if pc.Releasing? {
      ReleaseHolders(s, s', t);
    } else if pc.Deleting? {
      DeleteHolders(s, s', t);
    } else {
      SameHolders(s, s', t);
    }
  }

  lemma AcquireHolders(s: State, s': State, t: Tid)
    requires EntriesSeparate(s) && RefsCurrent(s) && Step(s, s', t) && s.pcs[t].WantRef?
    ensures s.pcs[t].key !in Holders(s) && Holders(s') == Holders(s)[s.pcs[t].key := t]
  {
  }

  lemma ReleaseHolders(s: State, s': State, t: Tid)
    requires EntriesSeparate(s) && RefsCurrent(s) && OwnersExact(s) && Step(s, s', t) && s.pcs[t].Releasing?
    ensures var key := s.pcs[t].key; key in Holders(s) && Holders(s)[key] == t && Holders(s') == Holders(s) - {key}
  {
    var key, ref := s.pcs[t].key, s.pcs[t].found;
    assert s'.inUse == s.inUse && s'.owner == s.owner[ref := None] && s.inUse[key] == ref;
    forall k | k in s.inUse && k != key ensures s.inUse[k] != ref {
    }
    assert Holders(s').Keys == Holders(s).Keys - {key};
  }

  lemma DeleteHolders(s: State, s': State, t: Tid)
    requires RefsCurrent(s) && CountsExact(s) && OwnersExact(s) && Step(s, s', t) && s.pcs[t].Deleting?
    ensures Holders(s') == Holders(s)
  {
    var pc := s.pcs[t];
    assert s.counter[pc.ref] == |Users(s, pc.key)|;
    assert pc.key in Holders(s) ==> Holders(s)[pc.key] in Users(s, pc.key);
    assert s.counter[pc.ref] <= 0 ==> Users(s, pc.key) == {};
  }

  lemma SameHolders(s: State, s': State, t: Tid)
    requires EntriesSeparate(s) && Step(s, s', t)
    requires !s.pcs[t].WantRef? && !s.pcs[t].Releasing? && !s.pcs[t].Deleting?
    ensures Holders(s') == Holders(s)
  {
    var pc := s.pcs[t];
    if pc.Looking? {
      var ref :| GetsLocker(s, s', pc.key, ref, s.pcs[t := Counting(pc.key, ref)]);
      NewEntryHolders(s, s', pc.key, ref, s.pcs[t := Counting(pc.key, ref)]);
    } else if pc.Finding? {
      var found :| GetsLocker(s, s', pc.key, found, s.pcs[t := Releasing(pc.key, pc.ref, found)]);
      NewEntryHolders(s, s', pc.key, found, s.pcs[t := Releasing(pc.key, pc.ref, found)]);
    } else {
      assert s'.inUse == s.inUse && s'.owner == s.owner;
    }
  }

  lemma FreshRef(s: State, ref: Ref)
    requires EntriesSeparate(s) && ref !in s.counter
    ensures forall k :: k in s.inUse ==> s.inUse[k] != ref
  {
  }

  lemma NewEntryHolders(s: State, s': State, key: ServiceKey, ref: Ref, pcs': map<Tid, Pc>)
    requires EntriesSeparate(s) && GetsLocker(s, s', key, ref, pcs')
    ensures Holders(s') == Holders(s)
  {
    if key in s.inUse {
      assert s'.inUse == s.inUse && s'.owner == s.owner;
    } else {
      FreshRef(s, ref);
      assert s'.inUse == s.inUse[key := ref] && s'.owner == s.owner[ref := None];
      assert Holders(s').Keys == Holders(s).Keys;
    }
  }

  lemma NewSlot(inUse: map<ServiceKey, Ref>, counter: map<Ref, int>, owner: map<Ref, Option<Tid>>, key: ServiceKey, ref: Ref)
    requires key !in inUse && forall k :: k in inUse ==> inUse[k] != ref
    ensures TableParts(inUse[key := ref], counter[ref := 0], owner[ref := None]) ==
            TableParts(inUse, counter, owner)[key := Slot(0, false)]
  {
    var inUse', counter', owner' := inUse[key := ref], counter[ref := 0], owner[ref := None];
    var before, after := TableParts(inUse, counter, owner), TableParts(inUse', counter', owner');
    forall k | k != key
      ensures k in after <==> k in before
      ensures k in before ==> after[k] == before[k]
    {
      if k in inUse {
        var r := inUse[k];
        assert inUse'[k] == r && r != ref;
        assert r in counter' <==> r in counter;
        assert r in owner' <==> r in owner;
        assert r in counter ==> counter'[r] == counter[r];
        assert r in owner ==> owner'[r] == owner[r];
      }
    }
    assert inUse'[key] == ref && counter'[ref] == 0 && owner'[ref] == None;
    assert key in after && after[key] == Slot(0, false);
    assert after == before[key := Slot(0, false)];
  }

  lemma NewEntryTable(s: State, s': State, key: ServiceKey, ref: Ref, pcs': map<Tid, Pc>)
    requires EntriesSeparate(s) && GetsLocker(s, s', key, ref, pcs')
    ensures TableOf(s') == TableOf(s)[key := SlotAt(TableOf(s), key)]
  {
    if key in s.inUse {
      assert s'.inUse == s.inUse && s'.owner == s.owner && s'.counter == s.counter;
      assert key in TableOf(s);
    } else {
      FreshRef(s, ref);
      assert s'.inUse == s.inUse[key := ref] && s'.owner == s.owner[ref := None] && s'.counter == s.counter[ref := 0];
      NewSlot(s.inUse, s.counter, s.owner, key, ref);
    }
  }

  /** A waiting thread can take its mutex exactly when no thread holds its service. */
  lemma BlockedExactlyWhenHeld(s: State, t: Tid)
    requires Inv(s) && t in s.pcs && s.pcs[t].WantRef?
    ensures (exists s' :: Step(s, s', t)) <==> s.pcs[t].key !in Holders(s)
  {
    var pc := s.pcs[t];
    if pc.key !in Holders(s) {
      assert Step(s, s.(owner := s.owner[pc.ref := Some(t)], pcs := s.pcs[t := Holding(pc.key, pc.ref)]), t);
    }
  }

  /** The table the object's methods work on, as the threads see it. */
  function TableOf(s: State): Table {
    TableParts(s.inUse, s.counter, s.owner)
  }

  function TableParts(inUse: map<ServiceKey, Ref>, counter: map<Ref, int>, owner: map<Ref, Option<Tid>>): Table {
    map k | k in inUse && inUse[k] in counter && inUse[k] in owner :: Slot(counter[inUse[k]], owner[inUse[k]].Some?)
  }

  lemma LookingTable(s: State, s': State, t: Tid)
    requires EntriesSeparate(s) && t in s.pcs && s.pcs[t].Looking? && Step(s, s', t)
    ensures var key := s.pcs[t].key; TableOf(s') == TableOf(s)[key := SlotAt(TableOf(s), key)]
  {
    var key := s.pcs[t].key;
    var ref :| GetsLocker(s, s', key, ref, s.pcs[t := Counting(key, ref)]);
    NewEntryTable(s, s', key, ref, s.pcs[t := Counting(key, ref)]);
  }

  lemma CountingTable(s: State, s': State, t: Tid)
    requires EntriesSeparate(s) && RefsCurrent(s) && t in s.pcs && s.pcs[t].Counting? && Step(s, s', t)
    ensures TableOf(s') == Enter(TableOf(s), s.pcs[t].key)
  {
    var key, ref := s.pcs[t].key, s.pcs[t].ref;
    var before, after := TableOf(s), TableOf(s');
    assert forall k :: k in s.inUse && k != key ==> s.inUse[k] != ref;
    assert after.Keys == before.Keys && key in before;
    forall k | k in after ensures after[k] == Enter(before, key)[k] {}
  }

  lemma EnterAfterLooking(t: Table, key: ServiceKey)
    ensures Enter(t[key := SlotAt(t, key)], key) == Enter(t, key)
  {
  }

  /** While one thread holds the table mutex, all that another can do to the table is to take the free
      mutex of an entry in which it is counted. */
  lemma OthersOnlyTake(s: State, s': State, t: Tid, u: Tid)
    requires Inv(s) && s.mu == Some(t) && u != t && Step(s, s', u)
    ensures t in s.pcs && t in s'.pcs && s'.mu == Some(t) && s'.pcs[t] == s.pcs[t]
    ensures var pc := s.pcs[u];
            if pc.WantRef? then SlotAt(TableOf(s), pc.key).counter >= 1 && TableOf(s') == Take(TableOf(s), pc.key)
            else TableOf(s') == TableOf(s)
    ensures var pc := s.pcs[u];
            pc.WantRef? && Registered(s.pcs[t], pc.key) ==> SlotAt(TableOf(s), pc.key).counter >= 2
  {
    assert t in s.pcs && !InTable(s.pcs[u]);
    if s.pcs[u].WantRef? {
      TakingTable(s, s', u);
      if Registered(s.pcs[t], s.pcs[u].key) {
        TwoUsers(s, t, u, s.pcs[u].key);
      }
    }
  }

  lemma TwoUsers(s: State, t: Tid, u: Tid, key: ServiceKey)
    requires Inv(s) && t in s.pcs && u in s.pcs && t != u && Registered(s.pcs[t], key) && Registered(s.pcs[u], key)
    ensures SlotAt(TableOf(s), key).counter >= 2
  {
    assert {t, u} <= Users(s, key);
    Subset({t, u}, Users(s, key));
  }

  lemma {:induction false} Subset<T>(a: set<T>, b: set<T>)
    requires a <= b
    ensures |a| <= |b|
  {
    if x :| x in a {
      Subset(a - {x}, b - {x});
    }
  }

  lemma TakingTable(s: State, s': State, u: Tid)
    requires Inv(s) && u in s.pcs && s.pcs[u].WantRef? && Step(s, s', u)
    ensures var key := s.pcs[u].key;
            SlotAt(TableOf(s), key).counter >= 1 && !SlotAt(TableOf(s), key).locked && TableOf(s') == Take(TableOf(s), key)
  {
    var key, ref := s.pcs[u].key, s.pcs[u].ref;
    assert u in Users(s, key);
    assert |Users(s, key)| > 0;
    var before, after := TableOf(s), TableOf(s');
    assert after.Keys == before.Keys && key in before;
    forall k | k in after ensures after[k] == Take(before, key)[k] {
      assert k != key ==> s.inUse[k] != ref;
    }
  }

  /** A stretch of steps of other threads, while `t` holds the table mutex. */
  ghost predicate Others(states: seq<State>, actors: seq<Tid>, t: Tid) {
    && |states| == |actors| + 1 && Inv(states[0]) && t in states[0].pcs && states[0].mu == Some(t)
    && forall i :: 0 <= i < |actors| ==> actors[i] != t && Step(states[i], states[i + 1], actors[i])
  }

  predicate OnlyTaking(ops: seq<Op>) {
    forall i :: 0 <= i < |ops| ==> ops[i].Taking?
  }

  /** The table without the thread's own count. */
  function Decremented(t: Table, key: ServiceKey): Table {
    t[key := Slot(SlotAt(t, key).counter - 1, SlotAt(t, key).locked)]
  }

  /** The table went from `before` to `after` by mutexes being taken, all of entries in which the taker
      is counted beside the thread itself. */
  ghost predicate Takes(before: Table, ops: seq<Op>, after: Table, pc: Pc) {
    && OnlyTaking(ops) && Proper(before, ops) && after == ApplyAll(before, ops)
    && forall key :: Registered(pc, key) ==> Proper(Decremented(before, key), ops)
  }

  lemma OthersPrefix(states: seq<State>, actors: seq<Tid>, t: Tid)
    requires Others(states, actors, t) && actors != []
    ensures var n := |actors| - 1;
            && Others(states[..n + 1], actors[..n], t) && states[..n + 1][0] == states[0] && states[..n + 1][n] == states[n]
            && actors[n] != t && Step(states[n], states[n + 1], actors[n])
  {
    var n := |actors| - 1;
    forall i | 0 <= i < n ensures Step(states[..n + 1][i], states[..n + 1][i + 1], actors[..n][i]) {
      assert states[..n + 1][i] == states[i] && states[..n + 1][i + 1] == states[i + 1] && actors[..n][i] == actors[i];
    }
  }

  /** What the others do meanwhile. */
  lemma {:induction false} OthersTake(states: seq<State>, actors: seq<Tid>, t: Tid) returns (ops: seq<Op>)
    requires Others(states, actors, t)
    ensures var (first, last) := (states[0], states[|actors|]);
            && Inv(last) && t in last.pcs && last.mu == Some(t) && last.pcs[t] == first.pcs[t]
            && Takes(TableOf(first), ops, TableOf(last), first.pcs[t])
    decreases |actors|
  {
    if actors == [] {
      return [];
    }
    var n := |actors| - 1;
    OthersPrefix(states, actors, t);
    var earlier := OthersTake(states[..n + 1], actors[..n], t);
    ops := OneMoreTake(states[n], states[n + 1], t, actors[n], TableOf(states[0]), earlier);
    StepInv(states[n], states[n + 1], actors[n]);
  }

  lemma OneMoreTake(s: State, s': State, t: Tid, u: Tid, before: Table, ops: seq<Op>) returns (ops': seq<Op>)
    requires Inv(s) && t in s.pcs && s.mu == Some(t) && u != t && Step(s, s', u) && Takes(before, ops, TableOf(s), s.pcs[t])
    ensures t in s'.pcs && s'.mu == Some(t) && s'.pcs[t] == s.pcs[t] && Takes(before, ops', TableOf(s'), s.pcs[t])
  {
    OthersOnlyTake(s, s', t, u);
    if s.pcs[u].WantRef? {
      TakesOn(before, ops, TableOf(s), s.pcs[t], s.pcs[u].key);
      ops' := ops + [Taking(s.pcs[u].key)];
    } else {
      ops' := ops;
    }
  }

  lemma TakesOn(before: Table, ops: seq<Op>, after: Table, pc: Pc, key: ServiceKey)
    requires Takes(before, ops, after, pc) && SlotAt(after, key).counter >= 1
    requires Registered(pc, key) ==> SlotAt(after, key).counter >= 2
    ensures Takes(before, ops + [Taking(key)], Take(after, key), pc)
  {
    var op := Taking(key);
    ProperOn(before, ops, op);
    forall k | Registered(pc, k) ensures Proper(Decremented(before, k), ops + [op]) {
      DecrementedCommutes(before, k, ops);
      ProperOn(Decremented(before, k), ops, op);
    }
  }

  lemma {:induction false} ProperOn(t: Table, ops: seq<Op>, op: Op)
    requires Proper(t, ops) && (!op.Entering? ==> SlotAt(ApplyAll(t, ops), op.key).counter >= 1)
    ensures Proper(t, ops + [op]) && ApplyAll(t, ops + [op]) == Apply(ApplyAll(t, ops), op)
  {
    assert (ops + [op])[..|ops|] == ops;
  }

  lemma {:induction false} DecrementedCommutes(t: Table, key: ServiceKey, ops: seq<Op>)
    requires OnlyTaking(ops)
    ensures ApplyAll(Decremented(t, key), ops) == Decremented(ApplyAll(t, ops), key)
  {
    if ops != [] {
      var earlier, op := ops[..|ops| - 1], ops[|ops| - 1];
      DecrementedCommutes(t, key, earlier);
      DecrementedTake(ApplyAll(t, earlier), key, op.key);
    }
  }

  lemma DecrementedTake(t: Table, key: ServiceKey, taken: ServiceKey)
    ensures Take(Decremented(t, key), taken) == Decremented(Take(t, taken), key)
  {
  }

  /** The statements of Lock under the table mutex add up to `Enter`, beside the mutexes that other
      threads take meanwhile. */
  lemma RegisterIsEnter(s: State, states: seq<State>, actors: seq<Tid>, s': State, t: Tid)
    requires Inv(s) && t in s.pcs && s.pcs[t].Looking?
    requires Others(states, actors, t) && Step(s, states[0], t) && Step(states[|actors|], s', t)
    ensures exists ops :: OnlyTaking(ops) && TableOf(s') == ApplyAll(Enter(TableOf(s), s.pcs[t].key), ops)
  {
    var key := s.pcs[t].key;
    var ops := OthersTake(states, actors, t);
    LookingTable(s, states[0], t);
    LookingPlace(s, states[0], t);
    CountingTable(states[|actors|], s', t);
    RegisteredTable(TableOf(s), TableOf(states[0]), TableOf(states[|actors|]), key, ops);
  }

  lemma LookingPlace(s: State, s': State, t: Tid)
    requires t in s.pcs && s.pcs[t].Looking? && Step(s, s', t)
    ensures t in s'.pcs && s'.pcs[t].Counting? && s'.pcs[t].key == s.pcs[t].key
  {
  }

  lemma {:induction false} RegisteredTable(t0: Table, t1: Table, t2: Table, key: ServiceKey, ops: seq<Op>)
    requires t1 == t0[key := SlotAt(t0, key)] && Proper(t1, ops) && t2 == ApplyAll(t1, ops)
    ensures Enter(t2, key) == ApplyAll(Enter(t0, key), ops)
  {
    EnterCommutes(t1, key, ops);
    EnterAfterLooking(t0, key);
  }

  lemma ReleasingTable(s: State, s': State, t: Tid)
    requires EntriesSeparate(s) && RefsCurrent(s) && t in s.pcs && s.pcs[t].Releasing? && Step(s, s', t)
    ensures var key := s.pcs[t].key; key in TableOf(s) && TableOf(s') == TableOf(s)[key := TableOf(s)[key].(locked := false)]
  {
  }

  lemma DecrementingTable(s: State, s': State, t: Tid)
    requires EntriesSeparate(s) && RefsCurrent(s) && t in s.pcs && s.pcs[t].Decrementing? && Step(s, s', t)
    ensures var key := s.pcs[t].key;
            key in TableOf(s) && TableOf(s') == TableOf(s)[key := TableOf(s)[key].(counter := TableOf(s)[key].counter - 1)]
  {
  }

  lemma DeletingTable(s: State, s': State, t: Tid)
    requires EntriesSeparate(s) && RefsCurrent(s) && t in s.pcs && s.pcs[t].Deleting? && Step(s, s', t)
    ensures var key := s.pcs[t].key;
            key in TableOf(s) && TableOf(s') == if TableOf(s)[key].counter <= 0 then TableOf(s) - {key} else TableOf(s)
  {
  }

  /** The last statement of Unlock: an entry that nobody uses any more goes. */
  function Cleaned(t: Table, key: ServiceKey): Table {
    if SlotAt(t, key).counter <= 0 then t - {key} else t
  }

  /** Only a thread that is counted takes a mutex, so an unused entry stays unused. */
  lemma {:induction false} CleanedCommutes(t: Table, key: ServiceKey, ops: seq<Op>)
    requires OnlyTaking(ops) && Proper(t, ops) && key in t
    ensures key in ApplyAll(t, ops) && SlotAt(ApplyAll(t, ops), key).counter == SlotAt(t, key).counter
    ensures Cleaned(ApplyAll(t, ops), key) == ApplyAll(Cleaned(t, key), ops)
  {
    if ops != [] {
      var earlier, op := ops[..|ops| - 1], ops[|ops| - 1];
      CleanedCommutes(t, key, earlier);
      var now := ApplyAll(t, earlier);
      assert Cleaned(Take(now, op.key), key) == Take(Cleaned(now, key), op.key);
    }
  }

  lemma {:induction false} ProperBoth(t: Table, a: seq<Op>, b: seq<Op>)
    requires Proper(t, a) && Proper(ApplyAll(t, a), b)
    ensures Proper(t, a + b)
    decreases |b|
  {
    if b == [] {
      assert a + b == a;
    } else {
      var earlier := b[..|b| - 1];
      ProperBoth(t, a, earlier);
      ApplyBoth(t, a, earlier);
      ProperOn(t, a + earlier, b[|b| - 1]);
      assert a + b == a + earlier + [b[|b| - 1]];
    }
  }

  function Freed(t: Table, key: ServiceKey): Table {
    t[key := Slot(SlotAt(t, key).counter, false)]
  }

  lemma ThreeStatements(t: Table, key: ServiceKey)
    requires key in t
    ensures Cleaned(Decremented(Freed(t, key), key), key) == Leave(t, key)
  {
  }

  /** The three statements of Unlock on the table, with what the others take in between. */
  lemma {:induction false} LeaveAmong(t: Table, key: ServiceKey, first: seq<Op>, second: seq<Op>)
    requires key in t && OnlyTaking(first) && OnlyTaking(second)
    requires Proper(Decremented(Freed(t, key), key), first)
    requires Proper(Decremented(ApplyAll(Freed(t, key), first), key), second)
    ensures Cleaned(ApplyAll(Decremented(ApplyAll(Freed(t, key), first), key), second), key) == ApplyAll(Leave(t, key), first + second)
  {
    var left := Decremented(Freed(t, key), key);
    DecrementedCommutes(Freed(t, key), key, first);
    ProperBoth(left, first, second);
    ApplyBoth(left, first, second);
    ApplyBoth(Leave(t, key), first, second);
    TakingBoth(first, second);
    CleanedCommutes(left, key, first + second);
    ThreeStatements(t, key);
  }

  lemma TakingBoth(a: seq<Op>, b: seq<Op>)
    requires OnlyTaking(a) && OnlyTaking(b)
    ensures OnlyTaking(a + b)
  {
  }

  /** The tables between the statements of Unlock. */
  lemma UnlockedTable(t0: Table, t1: Table, t2: Table, t3: Table, key: ServiceKey, first: seq<Op>, second: seq<Op>, pc: Pc, pc': Pc)
    requires key in t0 && Takes(Freed(t0, key), first, t1, pc) && Registered(pc, key)
    requires t2 == Decremented(t1, key) && Takes(t2, second, t3, pc')
    ensures exists ops :: OnlyTaking(ops) && Cleaned(t3, key) == ApplyAll(Leave(t0, key), ops)
  {
    LeaveAmong(t0, key, first, second);
    TakingBoth(first, second);
  }

  /** The statements of Unlock under the table mutex add up to `Leave`, beside the mutexes that other
      threads take meanwhile, the released one among them. */
  lemma UnlockIsLeave(s: State, states: seq<State>, actors: seq<Tid>, states': seq<State>, actors': seq<Tid>, s': State, t: Tid)
    requires Inv(s) && t in s.pcs && s.pcs[t].Releasing? && Others(states, actors, t) && Others(states', actors', t)
    requires Step(s, states[0], t) && Step(states[|actors|], states'[0], t) && Step(states'[|actors'|], s', t)
    ensures exists ops :: OnlyTaking(ops) && TableOf(s') == ApplyAll(Leave(TableOf(s), s.pcs[t].key), ops)
  {
    var first := OthersTake(states, actors, t);
    var second := OthersTake(states', actors', t);
    ReleasingStep(s, states[0], t);
    DecrementingStep(states[|actors|], states'[0], t);
    DeletingTable(states'[|actors'|], s', t);
    UnlockedTable(TableOf(s), TableOf(states[|actors|]), TableOf(states'[0]), TableOf(states'[|actors'|]), s.pcs[t].key,
                  first, second, states[0].pcs[t], states'[0].pcs[t]);
  }

  lemma ReleasingStep(s: State, s': State, t: Tid)
    requires EntriesSeparate(s) && RefsCurrent(s) && t in s.pcs && s.pcs[t].Releasing? && Step(s, s', t)
    ensures var key := s.pcs[t].key;
            && key in TableOf(s) && TableOf(s') == Freed(TableOf(s), key)
            && t in s'.pcs && s'.pcs[t].Decrementing? && s'.pcs[t].key == key && Registered(s'.pcs[t], key)
  {
    ReleasingTable(s, s', t);
    ReleasingPlace(s, s', t);
    var key := s.pcs[t].key;
    assert TableOf(s)[key].(locked := false) == Slot(SlotAt(TableOf(s), key).counter, false);
  }

  lemma DecrementingStep(s: State, s': State, t: Tid)
    requires EntriesSeparate(s) && RefsCurrent(s) && t in s.pcs && s.pcs[t].Decrementing? && Step(s, s', t)
    ensures var key := s.pcs[t].key;
            TableOf(s') == Decremented(TableOf(s), key) && t in s'.pcs && s'.pcs[t].Deleting? && s'.pcs[t].key == key
  {
    DecrementingTable(s, s', t);
    DecrementingPlace(s, s', t);
  }

  lemma ReleasingPlace(s: State, s': State, t: Tid)
    requires t in s.pcs && s.pcs[t].Releasing? && Step(s, s', t)
    ensures t in s'.pcs && s'.pcs[t].Decrementing? && s'.pcs[t].key == s.pcs[t].key
  {
  }

  lemma DecrementingPlace(s: State, s': State, t: Tid)
    requires t in s.pcs && s.pcs[t].Decrementing? && Step(s, s', t)
    ensures t in s'.pcs && s'.pcs[t].Deleting? && s'.pcs[t].key == s.pcs[t].key
  {
  }
}
