/** Deadlock freedom of the whole controller: every call takes its locks in one rank order. */
module LockOrder {
  import opened Wrappers
  import opened Kube

  /** The five kinds of lock: one mutex per service, the service lock's table, the queue, and the
      two read-write locks of the node registry. */
  datatype Lock = ServiceMutex(key: ServiceKey) | TableMutex | QueueMutex | NodesLock | ServiceNodesLock

  datatype Mode = Read | Write

  datatype Op = Take(what: Lock, mode: Mode) | Drop(what: Lock)

  function Rank(l: Lock): nat {
    match l
    case ServiceMutex(_) => 0
    case TableMutex => 1
    case QueueMutex => 2
    case NodesLock => 3
    case ServiceNodesLock => 4
  }

  // ------------------------------------------------------------------------------------
  // What each call does to the locks, in program order

  function LockService(key: ServiceKey): seq<Op> {
    [Take(TableMutex, Write), Drop(TableMutex), Take(ServiceMutex(key), Write)]
  }

  /** Unlock releases the service's mutex while it holds the table. */
  function UnlockService(key: ServiceKey): seq<Op> {
    [Take(TableMutex, Write), Drop(ServiceMutex(key)), Drop(TableMutex)]
  }

  const UPDATE_NODES: seq<Op> := [Take(NodesLock, Write), Drop(NodesLock)]
  const NODES_FOR_SERVICE: seq<Op> := [Take(NodesLock, Read), Drop(NodesLock)]
  const NODES_CONTAINING_SERVICE: seq<Op> :=
    [Take(NodesLock, Read), Take(ServiceNodesLock, Read), Drop(ServiceNodesLock), Drop(NodesLock)]

  /** push asks the registry only when the service is not queued yet. */
  function PushOps(queued: bool): seq<Op> {
    [Take(QueueMutex, Write)] + (if queued then [] else NODES_FOR_SERVICE) + [Drop(QueueMutex)]
  }

  function Repeat(ops: seq<Op>, n: nat): seq<Op> {
    if n == 0 then [] else ops + Repeat(ops, n - 1)
  }

  /** pop asks the registry once for every queued service. */
  function PopOps(entries: nat): seq<Op> {
    [Take(QueueMutex, Write)] + Repeat(NODES_CONTAINING_SERVICE, entries) + [Drop(QueueMutex)]
  }

  /** How far an Ensure call gets: it can fail before, between and after its registry calls. */
  datatype Reach = NoPorts | NodesRejected | NoHosts | CloudFailed | Pushed(queued: bool)

  function EnsureBody(reach: Reach): seq<Op> {
    match reach
    case NoPorts => []
    case NodesRejected => UPDATE_NODES
    case NoHosts => UPDATE_NODES + NODES_FOR_SERVICE
    case CloudFailed => UPDATE_NODES + NODES_FOR_SERVICE
    case Pushed(queued) => UPDATE_NODES + NODES_FOR_SERVICE + PushOps(queued)
  }

  /** One call into the controller, or one turn of a worker's loop. */
  datatype Call =
    | EnsureCall(key: ServiceKey, reach: Reach)
    | UpdateCall(accepted: bool, queued: bool)
    | DeleteCall(key: ServiceKey)
    | GetCall(key: ServiceKey)
    | EndpointsEvent
    | WorkerIdle(entries: nat)
    | WorkerTurn(entries: nat, key: ServiceKey, failed: bool, queued: bool)

  function Locked(key: ServiceKey, body: seq<Op>): seq<Op> {
    LockService(key) + body + UnlockService(key)
  }

  function Program(call: Call): seq<Op> {
    match call
    case EnsureCall(key, reach) => Locked(key, EnsureBody(reach))
    case UpdateCall(accepted, queued) => UPDATE_NODES + (if accepted then PushOps(queued) else [])
    case DeleteCall(key) => Locked(key, [])
    case GetCall(key) => Locked(key, [])
    case EndpointsEvent => [Take(ServiceNodesLock, Write), Drop(ServiceNodesLock)]
    case WorkerIdle(entries) => PopOps(entries)
    case WorkerTurn(entries, key, failed, queued) =>
      PopOps(entries) + Locked(key, NODES_FOR_SERVICE) + (if failed then PushOps(queued) else [])
  }

  // ------------------------------------------------------------------------------------
  // The discipline

  /** From holding `held`, the remaining operations only take locks of higher rank than everything
      held, only drop what is held, and end with nothing held. */
  predicate Ordered(held: set<Lock>, ops: seq<Op>)
    decreases |ops|
  {
    if ops == [] then held == {}
    else
      match ops[0]
      case Take(l, _) => (forall h :: h in held ==> Rank(h) < Rank(l)) && Ordered(held + {l}, ops[1..])
      case Drop(l) => l in held && Ordered(held - {l}, ops[1..])
  }

  /** A stretch of operations that gives back everything it takes, all of rank `low` or more. */
  predicate Block(held: set<Lock>, ops: seq<Op>, low: nat)
    decreases |ops|
  {
    if ops == [] then held == {}
    else
      match ops[0]
      case Take(l, _) =>
        low <= Rank(l) && (forall h :: h in held ==> Rank(h) < Rank(l)) && Block(held + {l}, ops[1..], low)
      case Drop(l) => l in held && Block(held - {l}, ops[1..], low)
  }

  /** A block may run in front of anything, with only lower-ranked locks held around it. */
  lemma {:induction false} BlockFirst(outer: set<Lock>, held: set<Lock>, ops: seq<Op>, rest: seq<Op>, low: nat)
    requires Block(held, ops, low) && Ordered(outer, rest)
    requires forall h :: h in outer ==> Rank(h) < low
    requires forall h :: h in held ==> low <= Rank(h)
    ensures Ordered(outer + held, ops + rest)
    decreases |ops|
  {
    if ops == [] {
      assert outer + held == outer && ops + rest == rest;
    } else {
      assert (ops + rest)[0] == ops[0] && (ops + rest)[1..] == ops[1..] + rest;
      match ops[0]
      case Take(l, _) =>
        BlockFirst(outer, held + {l}, ops[1..], rest, low);
        assert outer + held + {l} == outer + (held + {l});
      case Drop(l) =>
        BlockFirst(outer, held - {l}, ops[1..], rest, low);
        assert outer + held - {l} == outer + (held - {l});
    }
  }

  lemma {:induction false} BlockAppend(held: set<Lock>, a: seq<Op>, b: seq<Op>, low: nat)
    requires Block(held, a, low) && Block({}, b, low)
    ensures Block(held, a + b, low)
    decreases |a|
  {
    if a == [] {
      assert a + b == b;
    } else {
      assert (a + b)[0] == a[0] && (a + b)[1..] == a[1..] + b;
      match a[0]
      case Take(l, _) => BlockAppend(held + {l}, a[1..], b, low);
      case Drop(l) => BlockAppend(held - {l}, a[1..], b, low);
    }
  }

  lemma {:induction false} TwoStepBlock(l: Lock, mode: Mode, low: nat)
    requires low <= Rank(l)
    ensures Block({}, [Take(l, mode), Drop(l)], low)
  {
    var ops := [Take(l, mode), Drop(l)];
    assert ops[1..] == [Drop(l)] && [Drop(l)][1..] == [];
    assert {l} - {l} == {} && {} + {l} == {l};
  }

  lemma {:induction false} NestedBlock(low: nat)
    requires low <= 3
    ensures Block({}, NODES_CONTAINING_SERVICE, low)
  {
    var a, b := NodesLock, ServiceNodesLock;
    var ops := NODES_CONTAINING_SERVICE;
    assert ops[1..][1..][1..][1..] == [];
    assert {} + {a} == {a} && {a} + {b} - {b} == {a} && {a} - {a} == {};
    assert Block({}, [], low);
    assert Block({a}, ops[1..][1..][1..], low);
    assert Block({a} + {b}, ops[1..][1..], low);
    assert Block({a}, ops[1..], low);
  }

  lemma {:induction false} RepeatBlock(n: nat)
    ensures Block({}, Repeat(NODES_CONTAINING_SERVICE, n), 3)
  {
    if n > 0 {
      RepeatBlock(n - 1);
      NestedBlock(3);
      BlockAppend({}, NODES_CONTAINING_SERVICE, Repeat(NODES_CONTAINING_SERVICE, n - 1), 3);
    }
  }

  /** Wrapping a higher-ranked block in a lock of its own. */
  lemma {:induction false} WrapBlock(l: Lock, held: set<Lock>, body: seq<Op>, low: nat)
    requires Block(held, body, Rank(l) + 1) && low <= Rank(l)
    requires forall h :: h in held ==> Rank(l) < Rank(h)
    ensures Block({l} + held, body + [Drop(l)], low)
    decreases |body|
  {
    if body == [] {
      assert body + [Drop(l)] == [Drop(l)] && [Drop(l)][1..] == [];
      assert {l} + held == {l} && {l} - {l} == {};
    } else {
      assert (body + [Drop(l)])[0] == body[0] && (body + [Drop(l)])[1..] == body[1..] + [Drop(l)];
      match body[0]
      case Take(m, _) =>
        WrapBlock(l, held + {m}, body[1..], low);
        assert {l} + held + {m} == {l} + (held + {m});
      case Drop(m) =>
        assert m in held && m != l;
        WrapBlock(l, held - {m}, body[1..], low);
        assert {l} + held - {m} == {l} + (held - {m});
    }
  }

  lemma {:induction false} QueueBlock(body: seq<Op>)
    requires Block({}, body, 3)
    ensures Block({}, [Take(QueueMutex, Write)] + body + [Drop(QueueMutex)], 2)
  {
    var ops := [Take(QueueMutex, Write)] + body + [Drop(QueueMutex)];
    assert ops[1..] == body + [Drop(QueueMutex)];
    assert {QueueMutex} + {} == {QueueMutex} && {} + {QueueMutex} == {QueueMutex};
    WrapBlock(QueueMutex, {}, body, 2);
  }

  lemma PushBlock(queued: bool)
    ensures Block({}, PushOps(queued), 2)
  {
    TwoStepBlock(NodesLock, Read, 3);
    QueueBlock(if queued then [] else NODES_FOR_SERVICE);
  }

  lemma PopBlock(entries: nat)
    ensures Block({}, PopOps(entries), 2)
  {
    RepeatBlock(entries);
    QueueBlock(Repeat(NODES_CONTAINING_SERVICE, entries));
  }

  lemma {:induction false} UnlockOrdered(key: ServiceKey, rest: seq<Op>)
    requires Ordered({}, rest)
    ensures Ordered({ServiceMutex(key)}, UnlockService(key) + rest)
  {
    var m := ServiceMutex(key);
    var ops := UnlockService(key) + rest;
    var tail := [Drop(m), Drop(TableMutex)] + rest;
    var last := [Drop(TableMutex)] + rest;
    assert last[1..] == rest && {TableMutex} - {TableMutex} == {};
    assert Ordered({TableMutex}, last);
    assert tail[1..] == last && {m} + {TableMutex} - {m} == {TableMutex};
    assert Ordered({m} + {TableMutex}, tail);
    assert ops[0] == Take(TableMutex, Write) && ops[1..] == tail;
  }

  lemma {:induction false} LockFirst(key: ServiceKey, rest: seq<Op>)
    requires Ordered({ServiceMutex(key)}, rest)
    ensures Ordered({}, LockService(key) + rest)
  {
    var m := ServiceMutex(key);
    var ops := LockService(key) + rest;
    var third := [Take(m, Write)] + rest;
    var second := [Drop(TableMutex)] + third;
    assert third[1..] == rest && {} + {m} == {m};
    assert Ordered({}, third);
    assert second[1..] == third && {TableMutex} - {TableMutex} == {};
    assert Ordered({TableMutex}, second);
    assert ops[1..] == second && {} + {TableMutex} == {TableMutex};
  }

  /** A service's critical section around any block is well ordered, in front of any well-ordered rest. */
  lemma {:induction false} LockedOrdered(key: ServiceKey, body: seq<Op>, rest: seq<Op>)
    requires Block({}, body, 1) && Ordered({}, rest)
    ensures Ordered({}, Locked(key, body) + rest)
  {
    var m := ServiceMutex(key);
    UnlockOrdered(key, rest);
    BlockFirst({m}, {}, body, UnlockService(key) + rest, 1);
    assert {m} + {} == {m};
    LockFirst(key, body + (UnlockService(key) + rest));
    assert Locked(key, body) + rest == LockService(key) + (body + (UnlockService(key) + rest));
  }

  lemma EnsureBlock(reach: Reach)
    ensures Block({}, EnsureBody(reach), 1)
  {
    TwoStepBlock(NodesLock, Write, 1);
    TwoStepBlock(NodesLock, Read, 1);
    BlockAppend({}, UPDATE_NODES, NODES_FOR_SERVICE, 1);
    if reach.Pushed? {
      PushBlock(reach.queued);
      BlockWeaken({}, PushOps(reach.queued), 2, 1);
      BlockAppend({}, UPDATE_NODES + NODES_FOR_SERVICE, PushOps(reach.queued), 1);
    }
  }

  lemma {:induction false} BlockWeaken(held: set<Lock>, ops: seq<Op>, low: nat, lower: nat)
    requires Block(held, ops, low) && lower <= low
    ensures Block(held, ops, lower)
    decreases |ops|
  {
    if ops != [] {
      match ops[0]
      case Take(l, _) => BlockWeaken(held + {l}, ops[1..], low, lower);
      case Drop(l) => BlockWeaken(held - {l}, ops[1..], low, lower);
    }
  }

  lemma {:induction false} BlockOrdered(ops: seq<Op>, rest: seq<Op>)
    requires Block({}, ops, 1) && Ordered({}, rest)
    ensures Ordered({}, ops + rest)
  {
    BlockFirst({}, {}, ops, rest, 1);
    var none: set<Lock> := {};
    assert none + none == none;
  }

  lemma UpdateOrdered(accepted: bool, queued: bool)
    ensures Ordered({}, Program(UpdateCall(accepted, queued)))
  {
    PushBlock(queued);
    BlockWeaken({}, PushOps(queued), 2, 1);
    TwoStepBlock(NodesLock, Write, 1);
    var push := if accepted then PushOps(queued) else [];
    BlockOrdered(push, []);
    assert push + [] == push;
    BlockOrdered(UPDATE_NODES, push);
  }

  lemma {:induction false} PopOrdered(entries: nat, rest: seq<Op>)
    requires Ordered({}, rest)
    ensures Ordered({}, PopOps(entries) + rest)
  {
    PopBlock(entries);
    BlockWeaken({}, PopOps(entries), 2, 1);
    BlockOrdered(PopOps(entries), rest);
  }

  lemma WorkerTurnOrdered(entries: nat, key: ServiceKey, failed: bool, queued: bool)
    ensures Ordered({}, Program(WorkerTurn(entries, key, failed, queued)))
  {
    PushBlock(queued);
    BlockWeaken({}, PushOps(queued), 2, 1);
    var push := if failed then PushOps(queued) else [];
    BlockOrdered(push, []);
    assert push + [] == push;
    TwoStepBlock(NodesLock, Read, 1);
    LockedOrdered(key, NODES_FOR_SERVICE, push);
    PopOrdered(entries, Locked(key, NODES_FOR_SERVICE) + push);
    assert PopOps(entries) + Locked(key, NODES_FOR_SERVICE) + push == PopOps(entries) + (Locked(key, NODES_FOR_SERVICE) + push);
  }

  lemma {:induction false} LockedAlone(key: ServiceKey, body: seq<Op>)
    requires Block({}, body, 1)
    ensures Ordered({}, Locked(key, body))
  {
    LockedOrdered(key, body, []);
    assert Locked(key, body) + [] == Locked(key, body);
  }

  lemma {:induction false} BlockAlone(ops: seq<Op>)
    requires Block({}, ops, 1)
    ensures Ordered({}, ops)
  {
    BlockOrdered(ops, []);
    assert ops + [] == ops;
  }

  /** Every call of the controller follows the discipline, whichever way it ends. */
  lemma ProgramsOrdered(call: Call)
    ensures Ordered({}, Program(call))
  {
    match call
    case EnsureCall(key, reach) =>
      EnsureBlock(reach);
      LockedAlone(key, EnsureBody(reach));
    case UpdateCall(accepted, queued) =>
      UpdateOrdered(accepted, queued);
    case DeleteCall(key) =>
      LockedAlone(key, []);
    case GetCall(key) =>
      LockedAlone(key, []);
    case EndpointsEvent =>
      TwoStepBlock(ServiceNodesLock, Write, 1);
      BlockAlone([Take(ServiceNodesLock, Write), Drop(ServiceNodesLock)]);
    case WorkerIdle(entries) =>
      PopOrdered(entries, []);
      assert PopOps(entries) + [] == PopOps(entries);
    case WorkerTurn(entries, key, failed, queued) =>
      WorkerTurnOrdered(entries, key, failed, queued);
  }

  // ------------------------------------------------------------------------------------
  // Any number of threads

  type Tid = int

  /** What a thread holds, what it still has to do, and whether it is a writer that has announced
      itself: Go's read-write lock then lets no further reader in. */
  datatype Thread = Thread(held: map<Lock, Mode>, todo: seq<Op>, announced: bool)

  type State = map<Tid, Thread>

  predicate WritesTo(s: State, t: Tid, l: Lock) {
    t in s && l in s[t].held && s[t].held[l] == Write
  }

  predicate Announces(s: State, t: Tid, l: Lock) {
    t in s && s[t].announced && s[t].todo != [] && s[t].todo[0] == Take(l, Write)
  }

  predicate InTheWay(s: State, t: Tid, l: Lock) {
    WritesTo(s, t, l) || Announces(s, t, l)
  }

  /** Can thread `t` make its next move? */
  ghost predicate Enabled(s: State, t: Tid) {
    t in s && s[t].todo != [] &&
    match s[t].todo[0]
    case Drop(_) => true
    case Take(l, Read) => forall u :: u in s && u != t ==> !InTheWay(s, u, l)
    case Take(l, Write) =>
      if s[t].announced then forall u :: u in s && u != t ==> l !in s[u].held
      else forall u :: u in s && u != t ==> !InTheWay(s, u, l)
  }

  function Moved(th: Thread): Thread
    requires th.todo != []
  {
    match th.todo[0]
    case Drop(l) => th.(held := th.held - {l}, todo := th.todo[1..])
    case Take(l, Read) => th.(held := th.held[l := Read], todo := th.todo[1..])
    case Take(l, Write) =>
      if th.announced then th.(held := th.held[l := Write], todo := th.todo[1..], announced := false)
      else th.(announced := true)
  }

  /** One move of one thread; an idle thread may start any call. */
  ghost predicate Step(s: State, s': State, t: Tid) {
    t in s &&
    if s[t].todo == [] then exists call :: s' == s[t := s[t].(todo := Program(call))]
    else Enabled(s, t) && s' == s[t := Moved(s[t])]
  }

  ghost predicate Inv(s: State) {
    forall t :: t in s ==> Ordered(s[t].held.Keys, s[t].todo) && (s[t].announced ==> s[t].todo != [] && s[t].todo[0].Take? && s[t].todo[0].mode == Write)
  }

  ghost predicate Init(s: State) {
    forall t :: t in s ==> s[t] == Thread(map[], [], false)
  }

  lemma StepInv(s: State, s': State, t: Tid)
    requires Inv(s) && Step(s, s', t)
    ensures Inv(s')
  {
    var th := s[t];
    if th.todo == [] {
      var call :| s' == s[t := th.(todo := Program(call))];
      ProgramsOrdered(call);
      assert th.held.Keys == {};
    } else {
      var th' := Moved(th);
      match th.todo[0]
      case Drop(l) => assert th'.held.Keys == th.held.Keys - {l};
      case Take(l, Read) => assert th'.held.Keys == th.held.Keys + {l};
      case Take(l, Write) => assert th.announced ==> th'.held.Keys == th.held.Keys + {l};
    }
  }

  /** The lock a thread is waiting for. */
  predicate Waits(s: State, t: Tid) {
    t in s && s[t].todo != [] && s[t].todo[0].Take?
  }

  function WantedRank(s: State, t: Tid): nat
    requires Waits(s, t)
  {
    Rank(s[t].todo[0].what)
  }

  lemma AnyMember<T>(among: set<T>) returns (t: T)
    requires among != {}
    ensures t in among
  {
    t :| t in among;
  }

  /** Some waiting thread wants a lock of the highest rank anybody waits for. */
  lemma {:induction false} HighestWaiter(s: State, among: set<Tid>) returns (top: Tid)
    requires among != {}
    requires forall t :: t in among ==> Waits(s, t)
    ensures top in among && forall t :: t in among ==> WantedRank(s, t) <= WantedRank(s, top)
  {
    var t := AnyMember(among);
    if among == {t} {
      top := t;
    } else {
      var other := HighestWaiter(s, among - {t});
      top := if WantedRank(s, t) > WantedRank(s, other) then t else other;
      assert forall u :: u in among ==> u == t || u in among - {t};
    }
  }

  /** A thread that holds a lock still has something to do, and if that is taking a lock, it is one
      of higher rank. */
  lemma HolderMovesOn(s: State, t: Tid, l: Lock)
    requires Inv(s) && t in s && l in s[t].held
    ensures s[t].todo != []
    ensures s[t].todo[0].Take? ==> Rank(l) < Rank(s[t].todo[0].what)
  {
    assert Ordered(s[t].held.Keys, s[t].todo);
  }

  /** If a blocked thread waits for a lock of the highest rank, then some other thread can move. */
  lemma BlockedByMover(s: State, top: Tid)
    requires Inv(s) && Waits(s, top) && !Enabled(s, top)
    requires forall t :: t in s && Waits(s, t) ==> WantedRank(s, t) <= WantedRank(s, top)
    ensures exists u :: Enabled(s, u)
  {
    var l := s[top].todo[0].what;
    if forall u :: u in s && u != top ==> l !in s[u].held {
      assert !(forall u :: u in s && u != top ==> !InTheWay(s, u, l));
      var w :| w in s && w != top && InTheWay(s, w, l);
      assert l in s[top].held ==> Rank(l) < Rank(l) by {
        if l in s[top].held { HolderMovesOn(s, top, l); }
      }
      assert Enabled(s, w);
    } else {
      var u :| u in s && u != top && l in s[u].held;
      HolderMovesOn(s, u, l);
      assert !Waits(s, u);
      assert Enabled(s, u);
    }
  }

  lemma Progress(s: State, t: Tid)
    requires Inv(s) && t in s && s[t].todo != []
    ensures exists u :: u in s && s[u].todo != [] && Enabled(s, u)
  {
    if !Enabled(s, t) {
      var waiting := set u | u in s && Waits(s, u);
      assert t in waiting;
      var top := HighestWaiter(s, waiting);
      if !Enabled(s, top) {
        BlockedByMover(s, top);
      }
    }
  }

  ghost predicate Next(s: State, s': State) {
    exists t :: Step(s, s', t)
  }

  ghost predicate IsRun(states: seq<State>) {
    && |states| > 0 && Init(states[0])
    && forall i :: 0 < i < |states| ==> Next(states[i - 1], states[i])
  }

  lemma {:induction false} RunInv(states: seq<State>, i: nat)
    requires IsRun(states) && i < |states|
    ensures Inv(states[i])
  {
    if i > 0 {
      RunInv(states, i - 1);
      var t :| Step(states[i - 1], states[i], t);
      StepInv(states[i - 1], states[i], t);
    }
  }

  /** In every reachable state, for any number of threads running any mix of calls: if some thread
      is in the middle of a call, then some thread in the middle of a call can move. */
  lemma NoDeadlock(states: seq<State>, i: nat, t: Tid)
    requires IsRun(states) && i < |states|
    requires t in states[i] && states[i][t].todo != []
    ensures exists u, s' :: u in states[i] && states[i][u].todo != [] && Step(states[i], s', u)
  {
    RunInv(states, i);
    Progress(states[i], t);
    var s := states[i];
    var u :| u in s && s[u].todo != [] && Enabled(s, u);
    assert Step(s, s[u := Moved(s[u])], u);
  }
}
