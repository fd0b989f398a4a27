/** The coalescing priority queue of services whose load balancer needs its hosts updated. */
module ServiceQueue {
  import opened Wrappers
  import opened Kube
  import opened Sorting
  import Reg = NodeRegistry

  /** A queued update. `lb` is the balancer an Ensure call has at hand, by the ID of its rule;
      times are readings of one clock. */
  datatype Entry = Entry(service: Service, lb: Option<string>, updatePool: bool, start: int, backoffUntil: int)

  datatype Ranked = Ranked(entry: Entry, topRevision: nat)

  type QueueMap = map<ServiceKey, Entry>

  predicate Ready(e: Entry, now: int) {
    e.backoffUntil <= now
  }

  // ------------------------------------------------------------------------------------
  // Priority

  /** sortableQueueEntries.Less with the clock standing at `now`. */
  predicate Before(now: int, a: Ranked, b: Ranked) {
    if (!Ready(a.entry, now) || !Ready(b.entry, now)) && a.entry.backoffUntil != b.entry.backoffUntil then
      a.entry.backoffUntil < b.entry.backoffUntil
    else if a.topRevision == b.topRevision then
      a.entry.start < b.entry.start
    else
      a.topRevision > b.topRevision
  }

  /** How long an entry still has to wait. */
  function Wait(now: int, a: Ranked): nat {
    if Ready(a.entry, now) then 0 else a.entry.backoffUntil - now
  }

  /** The order in plain words: least waiting first, then newest node, then longest queued. */
  predicate LexBefore(now: int, a: Ranked, b: Ranked) {
    || Wait(now, a) < Wait(now, b)
    || (Wait(now, a) == Wait(now, b) && a.topRevision > b.topRevision)
    || (Wait(now, a) == Wait(now, b) && a.topRevision == b.topRevision && a.entry.start < b.entry.start)
  }

  lemma BeforeIsLex(now: int, a: Ranked, b: Ranked)
    ensures Before(now, a, b) <==> LexBefore(now, a, b)
  {
  }

  function BeforeAt(now: int): (Ranked, Ranked) -> bool {
    (a, b) => Before(now, a, b)
  }

  /** At a fixed instant the comparison is what sorting needs. */
  lemma BeforeStrictWeak(now: int)
    ensures StrictWeak(BeforeAt(now))
  {
    forall a, b, c | Before(now, a, b) && Before(now, b, c) ensures Before(now, a, c) {
      BeforeIsLex(now, a, b); BeforeIsLex(now, b, c); BeforeIsLex(now, a, c);
    }
    forall a, b, c | Before(now, a, c) ensures Before(now, a, b) || Before(now, b, c) {
      BeforeIsLex(now, a, b); BeforeIsLex(now, b, c); BeforeIsLex(now, a, c);
    }
  }

  predicate NewerFirst(a: Ranked, b: Ranked) {
    a.topRevision > b.topRevision || (a.topRevision == b.topRevision && a.entry.start < b.entry.start)
  }

  /** With the clock running a comparison changes its answer exactly when the later of two different
      backoffs ends between the readings and the backoffs are ordered against the revisions and
      starts. */
  lemma ClockMattersExactly(a: Ranked, b: Ranked, t: int, u: int)
    requires t <= u
    ensures var (x, y) := (a.entry.backoffUntil, b.entry.backoffUntil);
            Before(t, a, b) != Before(u, a, b) <==>
            x != y && t < (if x < y then y else x) <= u && (x < y) != NewerFirst(a, b)
  {
  }

  /** Two readings contradict each other, each entry coming before the other once, exactly when the
      second entry's backoff, the later one, ends between them and the second is the newer one. */
  lemma ClockContradictsExactly(a: Ranked, b: Ranked, t: int, u: int)
    requires t <= u
    ensures Before(t, a, b) && Before(u, b, a) <==>
            a.entry.backoffUntil < b.entry.backoffUntil && t < b.entry.backoffUntil <= u && NewerFirst(b, a)
  {
  }

  /** Such a pair at any instant. */
  lemma ClockMustStandStill(e: Entry, f: Entry, now: int)
    requires e.backoffUntil == now && f.backoffUntil == now + 1
    ensures Before(now, Ranked(e, 0), Ranked(f, 1)) && Before(now + 1, Ranked(f, 1), Ranked(e, 0))
  {
  }

  // ------------------------------------------------------------------------------------
  // push and pop on values

  /** A push for a queued service only replaces the service and forgets the balancer at hand. */
  function Pushed(q: QueueMap, e: Entry): QueueMap {
    var key := e.service.key;
    if key in q then q[key := q[key].(service := e.service, lb := None)] else q[key := e]
  }

  predicate KeysMatch(q: QueueMap) {
    forall k :: k in q ==> q[k].service.key == k
  }

  ghost function RankedAt(q: QueueMap, tops: map<ServiceKey, nat>, key: ServiceKey): Ranked
    requires key in q && key in tops
  {
    Ranked(q[key], tops[key])
  }

  /** Some sort of the queue at `now` can put `key` first. */
  ghost predicate CanBeFirst(q: QueueMap, tops: map<ServiceKey, nat>, now: int, key: ServiceKey)
    requires q.Keys <= tops.Keys
  {
    key in q && forall k :: k in q ==> !Before(now, RankedAt(q, tops, k), RankedAt(q, tops, key))
  }

  /** What being first means at a fixed instant: if anything is ready, the first entry is, and
      among the ready entries none has a newer node, nor an equally new one and an earlier start. */
  lemma FirstIsBest(q: QueueMap, tops: map<ServiceKey, nat>, now: int, key: ServiceKey)
    requires q.Keys <= tops.Keys && CanBeFirst(q, tops, now, key)
    ensures Ready(q[key], now) <==> exists k :: k in q && Ready(q[k], now)
    ensures Ready(q[key], now) ==> forall k :: k in q && Ready(q[k], now) ==>
              tops[k] < tops[key] || (tops[k] == tops[key] && q[key].start <= q[k].start)
  {
    if k :| k in q && Ready(q[k], now) {
      assert !Before(now, RankedAt(q, tops, k), RankedAt(q, tops, key));
    }
    if Ready(q[key], now) {
      forall k | k in q && Ready(q[k], now)
        ensures tops[k] < tops[key] || (tops[k] == tops[key] && q[key].start <= q[k].start)
      {
        assert !Before(now, RankedAt(q, tops, k), RankedAt(q, tops, key));
      }
    }
  }

  /** The clock may move on between sorting and checking the head: the head is ready at the check
      exactly when any entry at all is. */
  lemma HeadReadyLater(q: QueueMap, tops: map<ServiceKey, nat>, sorted: int, checked: int, key: ServiceKey)
    requires q.Keys <= tops.Keys && CanBeFirst(q, tops, sorted, key) && sorted <= checked
    ensures Ready(q[key], checked) <==> exists k :: k in q && Ready(q[k], checked)
  {
    if k :| k in q && Ready(q[k], checked) {
      assert !Before(sorted, RankedAt(q, tops, k), RankedAt(q, tops, key));
    }
  }

  // ------------------------------------------------------------------------------------
  // The queue object

  class UpdateQueue {
    var queue: QueueMap
    const registry: Reg.Registry

    constructor (registry: Reg.Registry)
      ensures queue == map[] && this.registry == registry
    {
      this.registry := registry;
      queue := map[];
    }

    ghost predicate Valid()
      reads this
    {
      KeysMatch(queue)
    }

    ghost predicate HasNodes(service: Service)
      reads registry
    {
      Reg.MatchingNames(registry.config, registry.nodes, service) != {}
    }

    ghost function Tops(): map<ServiceKey, nat>
      reads this, registry
    {
      map k | k in queue :: Reg.TopRevision(registry.nodes, if k in registry.svcNodes then registry.svcNodes[k] else {})
    }

    /** Only a service that is not queued yet needs nodes. */
    method Push(entry: Entry) returns (ok: bool)
      requires Valid()
      modifies this`queue
      ensures Valid()
      ensures ok <==> entry.service.key in old(queue) || HasNodes(entry.service)
      ensures queue == if ok then Pushed(old(queue), entry) else old(queue)
    {
      var key := entry.service.key;
      if key in queue {
        var existing := queue[key];
        existing := existing.(service := entry.service, lb := None);
        queue := queue[key := existing];
        return true;
      }
      var nodes := registry.NodesForService(entry.service);
      if nodes.Err? {
        return false;
      }
      queue := queue[key := entry];
      return true;
    }

    /** The clock is read twice, for the end of the backoff and for the new start. */
    method PushWithBackoff(entry: Entry, backoff: nat, now: int, later: int) returns (ok: bool)
      requires Valid() && now <= later
      modifies this`queue
      ensures Valid()
      ensures ok <==> entry.service.key in old(queue) || HasNodes(entry.service)
      ensures queue == if ok then Pushed(old(queue), Delayed(entry, backoff, now, later)) else old(queue)
    {
      var delayed := entry.(backoffUntil := now + backoff);
      delayed := delayed.(start := later);
      delayed := delayed.(lb := None);
      ok := Push(delayed);
    }

    /** Succeeds exactly when the backoff of some entry has passed by the check, and then removes
        and returns an entry that was first at the time of sorting. */
    method Pop(sorted: int, checked: int) returns (entry: Option<Entry>)
      requires Valid() && sorted <= checked
      modifies this`queue
      ensures Valid()
      ensures entry.Some? <==> exists k :: k in old(queue) && Ready(old(queue)[k], checked)
      ensures entry.None? ==> queue == old(queue)
      ensures entry.Some? ==>
                var key := entry.value.service.key;
                && CanBeFirst(old(queue), old(Tops()), sorted, key)
                && entry.value == old(queue)[key] && Ready(entry.value, checked)
                && queue == old(queue) - {key}
    {
      ghost var tops := Tops();
      var entries: seq<Ranked> := [];
      var todo := queue.Keys;
      while todo != {}
        invariant todo <= queue.Keys && queue == old(queue) && tops == old(Tops())
        invariant forall k :: k in queue && k !in todo ==> Ranked(queue[k], tops[k]) in entries
        invariant forall r :: r in entries ==> r.entry.service.key in queue && r == RankedAt(queue, tops, r.entry.service.key)
        decreases |todo|
      {
        var key :| key in todo;
        todo := todo - {key};
        var top := registry.TopRevisionOf(key);
        entries := entries + [Ranked(queue[key], top)];
      }
      if |entries| == 0 {
        return None;
      }
      BeforeStrictWeak(sorted);
      var ordered := Sort(entries, BeforeAt(sorted));
      var head := ordered[0];
      assert head in ordered;
      PermutationMember(ordered, entries, head);
      ghost var first := head.entry.service.key;
      forall k | k in queue ensures !Before(sorted, RankedAt(queue, tops, k), RankedAt(queue, tops, first)) {
        SortedHead(ordered, entries, BeforeAt(sorted), Ranked(queue[k], tops[k]));
      }
      HeadReadyLater(queue, tops, sorted, checked, first);
      if !Ready(head.entry, checked) {
        return None;
      }
      queue := queue - {head.entry.service.key};
      return Some(head.entry);
    }
  }

  function Delayed(entry: Entry, backoff: nat, now: int, later: int): Entry {
    Entry(entry.service, None, entry.updatePool, later, now + backoff)
  }

  // ------------------------------------------------------------------------------------
  // Histories of one queue

  /** A push, with whether the registry had nodes for the service, or a pop. */
  datatype Event = PushEvent(entry: Entry, hasNodes: bool) | PopEvent(key: ServiceKey)

  function After(q: QueueMap, e: Event): QueueMap {
    match e
    case PushEvent(entry, hasNodes) => if entry.service.key in q || hasNodes then Pushed(q, entry) else q
    case PopEvent(key) => q - {key}
  }

  function Replay(events: seq<Event>): QueueMap {
    if events == [] then map[] else After(Replay(events[..|events| - 1]), events[|events| - 1])
  }

  /** The pushes of a service that were accepted since it was last popped. */
  function Round(events: seq<Event>, key: ServiceKey): seq<Entry> {
    if events == [] then []
    else
      var earlier := Round(events[..|events| - 1], key);
      match events[|events| - 1]
      case PopEvent(k) => if k == key then [] else earlier
      case PushEvent(entry, hasNodes) =>
        if entry.service.key == key && (earlier != [] || hasNodes) then earlier + [entry] else earlier
  }

  /** The queue is explained by its history: a service is queued when its current round is not
      empty, with the service object of the round's last push, and with the pool flag, start and
      backoff of its first; the balancer at hand survives only an unmerged push. */
  lemma {:induction false} EntryExplained(events: seq<Event>, key: ServiceKey)
    ensures var r, q := Round(events, key), Replay(events);
            && (key in q <==> r != [])
            && (key in q ==> q[key] == Entry(r[|r| - 1].service, if |r| == 1 then r[0].lb else None,
                                             r[0].updatePool, r[0].start, r[0].backoffUntil))
    ensures KeysMatch(Replay(events))
  {
    if events != [] {
      EntryExplained(events[..|events| - 1], key);
    }
  }

  /** A pool update asked for by some push of the round is lost exactly when the round's first push
      did not ask for one. */
  lemma {:induction false} PoolRequestLostExactly(events: seq<Event>, key: ServiceKey, i: nat)
    requires key in Replay(events)
    requires i < |Round(events, key)| && Round(events, key)[i].updatePool
    ensures !Replay(events)[key].updatePool <==> i > 0 && !Round(events, key)[0].updatePool
  {
    EntryExplained(events, key);
  }

  function Inserts(events: seq<Event>): nat {
    if events == [] then 0
    else
      var q, e := Replay(events[..|events| - 1]), events[|events| - 1];
      Inserts(events[..|events| - 1]) + (if e.PushEvent? && e.entry.service.key !in q && e.hasNodes then 1 else 0)
  }

  function Pops(events: seq<Event>): nat {
    if events == [] then 0
    else
      var q, e := Replay(events[..|events| - 1]), events[|events| - 1];
      Pops(events[..|events| - 1]) + (if e.PopEvent? && e.key in q then 1 else 0)
  }

  /** Nothing appears or vanishes: the queue holds what was inserted and not popped. */
  lemma {:induction false} InsertsMinusPops(events: seq<Event>)
    ensures |Replay(events)| == Inserts(events) - Pops(events)
  {
    if events != [] {
      var before, e := Replay(events[..|events| - 1]), events[|events| - 1];
      InsertsMinusPops(events[..|events| - 1]);
      match e
      case PopEvent(key) =>
        assert (before - {key}).Keys == before.Keys - {key};
      case PushEvent(entry, hasNodes) =>
        assert Pushed(before, entry).Keys == before.Keys + {entry.service.key};
    }
  }

  // ------------------------------------------------------------------------------------
  // The queue with its workers

  type Worker = int

  datatype World = World(queue: QueueMap, working: map<Worker, Entry>)

  datatype Action =
    | ApiPush(entry: Entry, hasNodes: bool)
    | Take(worker: Worker, key: ServiceKey)
    | Succeed(worker: Worker)
    | Fail(worker: Worker, backoff: nat, now: int, later: int, hasNodes: bool)

  ghost predicate Can(w: World, a: Action) {
    match a
    case ApiPush(_, _) => true
    case Take(worker, key) => worker !in w.working && key in w.queue
    case Succeed(worker) => worker in w.working
    case Fail(worker, _, now, later, _) => worker in w.working && now <= later
  }

  function Do(w: World, a: Action): World {
    match a
    case ApiPush(entry, hasNodes) => w.(queue := After(w.queue, PushEvent(entry, hasNodes)))
    case Take(worker, key) =>
      if key in w.queue then World(w.queue - {key}, w.working[worker := w.queue[key]]) else w
    case Succeed(worker) => w.(working := w.working - {worker})
    case Fail(worker, backoff, now, later, hasNodes) =>
      if worker !in w.working then w
      else World(After(w.queue, PushEvent(Delayed(w.working[worker], backoff, now, later), hasNodes)), w.working - {worker})
  }

  /** The service is waiting in the queue or in some worker's hands. */
  ghost predicate Pending(w: World, key: ServiceKey) {
    key in w.queue || exists worker :: worker in w.working && w.working[worker].service.key == key
  }

  /** The two ways a service may leave: its update succeeded, or it failed and the requeue was
      refused because no node serves it any more. */
  ghost predicate Settles(w: World, a: Action, key: ServiceKey) {
    match a
    case Succeed(worker) => worker in w.working && w.working[worker].service.key == key
    case Fail(worker, _, _, _, hasNodes) =>
      worker in w.working && w.working[worker].service.key == key && !hasNodes && key !in w.queue
    case _ => false
  }

  ghost predicate WorldOk(w: World) {
    KeysMatch(w.queue)
  }

  lemma StepKeepsPending(w: World, a: Action, key: ServiceKey)
    requires WorldOk(w) && Can(w, a) && Pending(w, key)
    ensures WorldOk(Do(w, a))
    ensures Pending(Do(w, a), key) || Settles(w, a, key)
  {
    var w' := Do(w, a);
    if key !in w.queue {
      var worker :| worker in w.working && w.working[worker].service.key == key;
      assert worker in w'.working ==> w'.working[worker] == w.working[worker] || a.Take?;
    } else if a.Take? && a.key == key {
      assert a.worker in w'.working && w'.working[a.worker].service.key == key;
    }
  }

  function Run(actions: seq<Action>): World {
    if actions == [] then World(map[], map[]) else Do(Run(actions[..|actions| - 1]), actions[|actions| - 1])
  }

  ghost predicate Valid(actions: seq<Action>) {
    forall i :: 0 <= i < |actions| ==> Can(Run(actions[..i]), actions[i])
  }

  lemma RunNext(actions: seq<Action>, i: nat)
    requires i < |actions|
    ensures Run(actions[..i + 1]) == Do(Run(actions[..i]), actions[i])
  {
    assert actions[..i + 1][..i] == actions[..i];
  }

  lemma {:induction false} RunOk(actions: seq<Action>, i: nat)
    requires i <= |actions|
    ensures WorldOk(Run(actions[..i]))
  {
    if i > 0 {
      RunOk(actions, i - 1);
      RunNext(actions, i - 1);
      var w := Run(actions[..i - 1]);
      match actions[i - 1]
      case ApiPush(_, _) =>
      case Take(_, _) =>
      case Succeed(_) =>
      case Fail(_, _, _, _, _) =>
    }
  }

  /** No accepted update is forgotten: from the moment a service is pending it stays pending until
      an update of it succeeds or its requeue is refused. */
  lemma {:induction false} NothingForgotten(actions: seq<Action>, from: nat, until: nat, key: ServiceKey)
    requires Valid(actions) && from <= until <= |actions|
    requires Pending(Run(actions[..from]), key)
    ensures Pending(Run(actions[..until]), key)
            || exists i :: from <= i < until && Settles(Run(actions[..i]), actions[i], key)
    decreases until
  {
    if from < until {
      var last := until - 1;
      NothingForgotten(actions, from, last, key);
      if Pending(Run(actions[..last]), key) {
        RunOk(actions, last);
        RunNext(actions, last);
        StepKeepsPending(Run(actions[..last]), actions[last], key);
      }
    }
  }

  // ------------------------------------------------------------------------------------
  // What becomes of a failed item

  /** The worker takes the service at `j`, and its update fails at `i` and not before. */
  ghost predicate FailsAfterTake(actions: seq<Action>, j: nat, i: nat) {
    && Valid(actions) && j < i < |actions|
    && actions[j].Take? && actions[i].Fail? && actions[i].worker == actions[j].worker
    && forall k :: j < k < i ==> !Returns(actions[k], actions[j].worker)
  }

  predicate Returns(a: Action, worker: Worker) {
    (a.Succeed? || a.Fail?) && a.worker == worker
  }

  /** What the worker took. */
  function TakenAt(actions: seq<Action>, j: nat): Entry
    requires j < |actions| && actions[j].Take? && actions[j].key in Run(actions[..j]).queue
  {
    Run(actions[..j]).queue[actions[j].key]
  }

  /** Until it returns, a worker holds exactly the entry it took. */
  lemma {:induction false} InHand(actions: seq<Action>, j: nat, i: nat)
    requires Valid(actions) && j < i <= |actions| && actions[j].Take?
    requires forall k :: j < k < i ==> !Returns(actions[k], actions[j].worker)
    ensures actions[j].key in Run(actions[..j]).queue && TakenAt(actions, j).service.key == actions[j].key
    ensures var w := Run(actions[..i]); actions[j].worker in w.working && w.working[actions[j].worker] == TakenAt(actions, j)
    decreases i
  {
    RunOk(actions, j);
    RunNext(actions, i - 1);
    assert Can(Run(actions[..i - 1]), actions[i - 1]);
    if j < i - 1 {
      InHand(actions, j, i - 1);
      StaysInHand(Run(actions[..i - 1]), actions[i - 1], actions[j].worker);
    } else {
      TakenInHand(Run(actions[..j]), actions[j]);
    }
  }

  lemma TakenInHand(w: World, a: Action)
    requires Can(w, a) && a.Take? && WorldOk(w)
    ensures a.key in w.queue && w.queue[a.key].service.key == a.key
    ensures a.worker in Do(w, a).working && Do(w, a).working[a.worker] == w.queue[a.key]
  {
  }

  lemma StaysInHand(w: World, a: Action, worker: Worker)
    requires Can(w, a) && worker in w.working && !Returns(a, worker)
    ensures worker in Do(w, a).working && Do(w, a).working[worker] == w.working[worker]
  {
  }

  /** The service object that the action puts into the queue under the key, if it does. */
  function Puts(w: World, a: Action, key: ServiceKey): Option<Service> {
    match a
    case ApiPush(entry, hasNodes) =>
      if entry.service.key == key && (hasNodes || key in w.queue) then Some(entry.service) else None
    case Fail(worker, _, _, _, hasNodes) =>
      if worker in w.working && w.working[worker].service.key == key && (hasNodes || key in w.queue)
      then Some(w.working[worker].service) else None
    case _ => None
  }

  /** At `p` the service object was put into the queue, and since then the key was neither put nor
      taken. */
  ghost predicate LastPut(actions: seq<Action>, p: nat, i: nat, key: ServiceKey, service: Service) {
    && p < i <= |actions|
    && Puts(Run(actions[..p]), actions[p], key) == Some(service)
    && forall q :: p < q < i ==> Puts(Run(actions[..q]), actions[q], key).None? && !(actions[q].Take? && actions[q].key == key)
  }

  ghost predicate PutSince(actions: seq<Action>, j: nat, i: nat, key: ServiceKey) {
    exists p, s :: j < p && LastPut(actions, p, i, key, s)
  }

  /** A queued service is the one that was put last; it was put after the key was last taken. */
  ghost predicate QueueExplained(actions: seq<Action>, j: nat, i: nat, key: ServiceKey)
    requires i <= |actions|
  {
    var q := Run(actions[..i]).queue;
    && (key in q <==> PutSince(actions, j, i, key))
    && (forall p, s :: j < p && LastPut(actions, p, i, key, s) ==> key in q && q[key].service == s)
  }

  lemma {:induction false} QueuedWasPut(actions: seq<Action>, j: nat, i: nat, key: ServiceKey)
    requires Valid(actions) && j < i <= |actions| && actions[j].Take? && actions[j].key == key
    ensures QueueExplained(actions, j, i, key)
    decreases i
  {
    var last := i - 1;
    if j < last {
      QueuedWasPut(actions, j, last, key);
      if Puts(Run(actions[..last]), actions[last], key).Some? {
        PutExplains(actions, j, last, key);
      } else {
        StillExplained(actions, j, last, key);
      }
    } else {
      TakenIsExplained(actions, j, key);
    }
  }

  lemma TakenIsExplained(actions: seq<Action>, j: nat, key: ServiceKey)
    requires Valid(actions) && j < |actions| && actions[j].Take? && actions[j].key == key
    ensures QueueExplained(actions, j, j + 1, key)
  {
    RunNext(actions, j);
    assert !PutSince(actions, j, j + 1, key);
  }

  lemma PutExplains(actions: seq<Action>, j: nat, i: nat, key: ServiceKey)
    requires Valid(actions) && j < i < |actions|
    requires Puts(Run(actions[..i]), actions[i], key).Some?
    ensures QueueExplained(actions, j, i + 1, key)
  {
    RunOk(actions, i);
    RunNext(actions, i);
    var put := Puts(Run(actions[..i]), actions[i], key);
    PutIsQueued(Run(actions[..i]), actions[i], key);
    assert LastPut(actions, i, i + 1, key, put.value);
    var n := i + 1;
    assert forall p, s :: LastPut(actions, p, n, key, s) ==> p == i && s == put.value;
  }

  lemma StillLast(actions: seq<Action>, p: nat, i: nat, key: ServiceKey, s: Service)
    requires i < |actions| && Puts(Run(actions[..i]), actions[i], key).None?
    ensures LastPut(actions, p, i + 1, key, s) <==> LastPut(actions, p, i, key, s) && !(actions[i].Take? && actions[i].key == key)
  {
  }

  lemma StillExplained(actions: seq<Action>, j: nat, i: nat, key: ServiceKey)
    requires Valid(actions) && j < i < |actions| && QueueExplained(actions, j, i, key)
    requires Puts(Run(actions[..i]), actions[i], key).None?
    ensures QueueExplained(actions, j, i + 1, key)
  {
    RunOk(actions, i);
    RunNext(actions, i);
    assert Can(Run(actions[..i]), actions[i]);
    NotPutStays(Run(actions[..i]), actions[i], key);
    var taken := actions[i].Take? && actions[i].key == key;
    var n := i + 1;
    forall p, s ensures LastPut(actions, p, n, key, s) <==> LastPut(actions, p, i, key, s) && !taken {
      StillLast(actions, p, i, key, s);
    }
    assert PutSince(actions, j, n, key) <==> PutSince(actions, j, i, key) && !taken;
  }

  lemma PutIsQueued(w: World, a: Action, key: ServiceKey)
    requires WorldOk(w) && Puts(w, a, key).Some?
    ensures key in Do(w, a).queue && Do(w, a).queue[key].service == Puts(w, a, key).value
  {
  }

  lemma NotPutStays(w: World, a: Action, key: ServiceKey)
    requires WorldOk(w) && Puts(w, a, key).None? && Can(w, a)
    ensures key in Do(w, a).queue <==> key in w.queue && !(a.Take? && a.key == key)
    ensures key in Do(w, a).queue ==> Do(w, a).queue[key] == w.queue[key]
  {
  }

  /** In every run of any number of workers: a service object put into the queue while a worker had
      the service, the last one before that worker's update failed, is replaced by the worker's
      older one exactly when it differs from the one the worker took. Otherwise the retry keeps it. */
  lemma RetryOverwritesExactly(actions: seq<Action>, j: nat, i: nat, p: nat, newest: Service)
    requires FailsAfterTake(actions, j, i) && j < p && LastPut(actions, p, i, actions[j].key, newest)
    ensures var key, after := actions[j].key, Run(actions[..i + 1]).queue;
            && key in Run(actions[..j]).queue && key in after
            && (after[key].service != newest <==> TakenAt(actions, j).service != newest)
  {
    InHand(actions, j, i);
    QueuedWasPut(actions, j, i, actions[j].key);
    RunNext(actions, i);
  }

  /** In every run, a failed item goes back as it was taken: merged into an entry put meanwhile, which
      keeps its own pool flag, start and backoff; else inserted with the item's pool flag, the new
      backoff and start and no balancer; else, without nodes, it is gone. */
  lemma FailedItem(actions: seq<Action>, j: nat, i: nat)
    requires FailsAfterTake(actions, j, i)
    ensures actions[j].key in Run(actions[..j]).queue
    ensures var (key, a, item) := (actions[j].key, actions[i], TakenAt(actions, j));
            var (q, q') := (Run(actions[..i]).queue, Run(actions[..i + 1]).queue);
            if PutSince(actions, j, i, key)
            then key in q && q' == q[key := Entry(item.service, None, q[key].updatePool, q[key].start, q[key].backoffUntil)]
            else if a.hasNodes then q' == q[key := Entry(item.service, None, item.updatePool, a.later, a.now + a.backoff)]
            else q' == q && key !in q
  {
    InHand(actions, j, i);
    QueuedWasPut(actions, j, i, actions[j].key);
    RunNext(actions, i);
  }

  /** The shortest such run: a newer object is pushed while a worker has the older one, whose update
      then fails. */
  function RetryRun(older: Entry, newer: Entry, now: int): seq<Action> {
    [ApiPush(older, true), Take(0, older.service.key), ApiPush(newer, true), Fail(0, 0, now, now, true)]
  }

  lemma RetryLosesNewest(older: Entry, newer: Entry, now: int)
    requires older.service.key == newer.service.key && older.service != newer.service
    ensures var (actions, key) := (RetryRun(older, newer, now), older.service.key);
            && FailsAfterTake(actions, 1, 3) && LastPut(actions, 2, 3, key, newer.service)
            && Run(actions).working == map[] && Run(actions).queue.Keys == {key} && Run(actions).queue[key].service == older.service
  {
    var actions, key := RetryRun(older, newer, now), older.service.key;
    assert actions[..0] == [];
    RunNext(actions, 0);
    RunNext(actions, 1);
    RunNext(actions, 2);
    RunNext(actions, 3);
    assert actions[..4] == actions;
    assert Run(actions[..1]).queue == map[key := older];
    assert Run(actions[..2]) == World(map[], map[0 := older]);
    assert Run(actions[..3]) == World(map[key := newer], map[0 := older]);
  }
}
