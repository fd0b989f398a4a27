/** Bringing the hosts of a balancer's rule in line with the nodes that serve it. */
module HostSync {
  import opened Wrappers
  import opened Kube
  import opened Tags
  import opened NodeRegistry
  import opened Paging
  import Sorting
  import Ports
  import Pools

  // ------------------------------------------------------------------------------------
  // Set difference

  function SetOf(s: seq<string>): set<string> {
    set x | x in s
  }

  /** symmetricDifference: the wanted hosts not there yet, in no particular order, and what is left
      of the instances when each wanted host has been struck out once. */
  method SymmetricDifference(hostIds: seq<string>, instances: seq<string>) returns (assign: seq<string>, remove: seq<string>)
    ensures SetOf(assign) == SetOf(hostIds) - SetOf(instances) && Sorting.Distinct(assign)
    ensures multiset(remove) == multiset(instances) - multiset(SetOf(hostIds))
  {
    var wanted: set<string> := {};
    for i := 0 to |hostIds|
      invariant wanted == SetOf(hostIds[..i])
    {
      assert hostIds[..i + 1] == hostIds[..i] + [hostIds[i]];
      wanted := wanted + {hostIds[i]};
    }
    assert hostIds[..|hostIds|] == hostIds;
    var left;
    left, remove := StrikeOut(wanted, instances);
    assign := Listed(left);
  }

  /** The loop over the instances: each wanted host is struck out at its first occurrence. */
  method StrikeOut(wanted: set<string>, instances: seq<string>) returns (left: set<string>, remove: seq<string>)
    ensures left == wanted - SetOf(instances)
    ensures multiset(remove) == multiset(instances) - multiset(wanted)
  {
    left, remove := wanted, [];
    for i := 0 to |instances|
      invariant left == wanted - SetOf(instances[..i])
      invariant multiset(remove) == multiset(instances[..i]) - multiset(wanted)
    {
      assert instances[..i + 1] == instances[..i] + [instances[i]];
      AppendIsUnion(instances[..i], [instances[i]]);
      assert instances[i] in SetOf(instances[..i]) <==> instances[i] in multiset(instances[..i]);
      if instances[i] in left {
        left := left - {instances[i]};
      } else {
        remove := remove + [instances[i]];
      }
    }
    assert instances[..|instances|] == instances;
  }

  /** Ranging over a map's keys. */
  method Listed(s: set<string>) returns (list: seq<string>)
    ensures SetOf(list) == s && Sorting.Distinct(list)
  {
    list := [];
    var todo := s;
    while todo != {}
      invariant todo <= s && SetOf(list) == s - todo && Sorting.Distinct(list)
      decreases |todo|
    {
      var x :| x in todo;
      todo := todo - {x};
      assert x !in SetOf(list);
      AppendIsUnion(list, [x]);
      list := list + [x];
    }
  }

  /** A wanted host is removed exactly when the server lists it more than once. */
  lemma WantedIsRemovedExactly(hostIds: seq<string>, instances: seq<string>, remove: seq<string>, x: string)
    requires multiset(remove) == multiset(instances) - multiset(SetOf(hostIds))
    ensures x in hostIds ==> (x in remove <==> multiset(instances)[x] > 1)
    ensures x !in hostIds ==> (x in remove <==> x in instances)
  {
    assert x in remove <==> multiset(remove)[x] > 0;
    assert x in instances <==> multiset(instances)[x] > 0;
    assert x in hostIds <==> x in SetOf(hostIds);
  }

  /** No wanted host is removed exactly when no wanted host is listed twice. */
  lemma DifferenceExactExactly(hostIds: seq<string>, instances: seq<string>, remove: seq<string>)
    requires multiset(remove) == multiset(instances) - multiset(SetOf(hostIds))
    ensures SetOf(remove) == SetOf(instances) - SetOf(hostIds) <==> forall x :: x in hostIds ==> multiset(instances)[x] <= 1
  {
    forall x ensures x in hostIds ==> (x in remove <==> multiset(instances)[x] > 1)
      ensures x !in hostIds ==> (x in remove <==> x in instances)
    {
      WantedIsRemovedExactly(hostIds, instances, remove, x);
    }
    if SetOf(remove) == SetOf(instances) - SetOf(hostIds) {
      forall x | x in hostIds ensures multiset(instances)[x] <= 1 {
        assert x in SetOf(hostIds) && x !in SetOf(remove);
      }
    } else {
      var x :| (x in SetOf(remove)) != (x in SetOf(instances) - SetOf(hostIds));
    }
  }

  // ------------------------------------------------------------------------------------
  // The server

  datatype Fault = NoFault | Refused | Unconfirmed

  datatype Write = Assigned(rule: string, ids: seq<string>) | Removed(rule: string, ids: seq<string>) | Networked(rule: string, network: string)

  datatype NetworkAnswer = Mapped | AlreadyMapped | NotMapped

  function Itself(): string -> string {
    (x: string) => x
  }

  function Without(hosts: seq<string>, ids: seq<string>): seq<string> {
    if hosts == [] then []
    else
      var rest := Without(hosts[..|hosts| - 1], ids);
      if hosts[|hosts| - 1] in ids then rest else rest + [hosts[|hosts| - 1]]
  }

  lemma {:induction false} WithoutIsDifference(hosts: seq<string>, ids: seq<string>)
    ensures SetOf(Without(hosts, ids)) == SetOf(hosts) - SetOf(ids)
  {
    if hosts != [] {
      var rest, last := hosts[..|hosts| - 1], hosts[|hosts| - 1];
      WithoutIsDifference(rest, ids);
      assert hosts == rest + [last];
      AppendIsUnion(rest, [last]);
      AppendIsUnion(Without(rest, ids), [last]);
    }
  }

  /** The hosts and networks of every rule. Assigning appends, even what is there already; removing
      drops every occurrence. `faults` says what happens to the coming requests. */
  class HostApi {
    var hosts: map<string, seq<string>>
    var networks: map<string, set<string>>
    var faults: seq<Fault>
    ghost var writes: seq<Write>

    constructor (hosts: map<string, seq<string>>, faults: seq<Fault>)
      ensures this.hosts == hosts && this.faults == faults && writes == []
    {
      this.hosts, this.faults, networks, writes := hosts, faults, map[], [];
    }

    function Of(rule: string): seq<string>
      reads this
    {
      if rule in hosts then hosts[rule] else []
    }

    function NetworksOf(rule: string): set<string>
      reads this
    {
      if rule in networks then networks[rule] else {}
    }

    ghost predicate Sound()
      reads this
    {
      forall i :: 0 <= i < |faults| ==> faults[i].NoFault?
    }

    method NextFault() returns (fault: Fault)
      modifies this`faults
      ensures old(Sound()) ==> fault.NoFault? && Sound()
    {
      if faults == [] {
        return NoFault;
      }
      fault := faults[0];
      faults := faults[1..];
    }

    /** The hosts of a rule, page by page; each page can fail. */
    method ListInstances(rule: string) returns (vms: Option<seq<string>>)
      modifies this`faults
      ensures old(Sound()) ==> vms.Some? && Sound()
      ensures vms.Some? ==> Sorting.Distinct(vms.value) && SetOf(vms.value) == SetOf(Of(rule))
    {
      var (list, pending) := (Of(rule), faults);
      var fetch := (page: nat) =>
        if page == 0 || (page <= |pending| && !pending[page - 1].NoFault?) then PageError else PageOf(list, PAGE_SIZE, page);
      assert Serves(fetch, PAGE_SIZE, list);
      var requests;
      vms, requests := ListAllPages(PAGE_SIZE, fetch, Itself(), |list|);
      faults := if requests <= |faults| then faults[requests..] else [];
      if vms.Some? {
        forall i, j | 0 <= i < j < |vms.value| ensures vms.value[i] != vms.value[j] {
          assert Itself()(vms.value[i]) != Itself()(vms.value[j]);
        }
        IdsAreMembers(vms.value);
        IdsAreMembers(list);
      }
    }

    method Assign(rule: string, ids: seq<string>) returns (ok: bool)
      modifies this`hosts, this`faults, this`writes
      ensures writes == old(writes) + [Assigned(rule, ids)]
      ensures old(Sound()) ==> ok && Sound()
      ensures ok ==> hosts == old(hosts)[rule := old(Of(rule)) + ids]
      ensures !ok ==> hosts == old(hosts) || hosts == old(hosts)[rule := old(Of(rule)) + ids]
    {
      writes := writes + [Assigned(rule, ids)];
      var fault := NextFault();
      if !fault.Refused? {
        hosts := hosts[rule := Of(rule) + ids];
      }
      ok := fault.NoFault?;
    }

    method Remove(rule: string, ids: seq<string>) returns (ok: bool)
      modifies this`hosts, this`faults, this`writes
      ensures writes == old(writes) + [Removed(rule, ids)]
      ensures old(Sound()) ==> ok && Sound()
      ensures ok ==> hosts == old(hosts)[rule := Without(old(Of(rule)), ids)]
      ensures !ok ==> hosts == old(hosts) || hosts == old(hosts)[rule := Without(old(Of(rule)), ids)]
    {
      writes := writes + [Removed(rule, ids)];
      var fault := NextFault();
      if !fault.Refused? {
        hosts := hosts[rule := Without(Of(rule), ids)];
      }
      ok := fault.NoFault?;
    }

    method AssignNetwork(rule: string, network: string) returns (answer: NetworkAnswer)
      modifies this`networks, this`faults, this`writes
      ensures writes == old(writes) + [Networked(rule, network)]
      ensures old(Sound()) ==> !answer.NotMapped? && Sound()
      ensures networks == old(networks) || networks == old(networks)[rule := old(NetworksOf(rule)) + {network}]
      ensures !answer.NotMapped? ==> network in NetworksOf(rule)
    {
      writes := writes + [Networked(rule, network)];
      var fault := NextFault();
      if fault.Refused? {
        return NotMapped;
      }
      if network in NetworksOf(rule) {
        return if fault.NoFault? then AlreadyMapped else NotMapped;
      }
      networks := networks[rule := NetworksOf(rule) + {network}];
      answer := if fault.NoFault? then Mapped else NotMapped;
    }
  }

  lemma IdsAreMembers(s: seq<string>)
    ensures Ids(s, Itself()) == SetOf(s)
  {
  }

  // ------------------------------------------------------------------------------------
  // syncNodes

  /** Neither lost nor gained beyond what was asked: hosts wanted and present stay, and whatever is
      there was there before or is wanted. */
  predicate Between(before: set<string>, after: set<string>, wanted: set<string>) {
    before * wanted <= after <= before + wanted
  }

  function NetworkWrites(rule: string, networkIds: seq<string>): (r: seq<Write>)
    ensures |r| == |networkIds|
  {
    seq(|networkIds|, i requires 0 <= i < |networkIds| => Networked(rule, networkIds[i]))
  }

  /** The writes of a synchronisation, in order: networks before new hosts, new hosts before old ones go. */
  function SyncPlan(rule: string, assign: seq<string>, remove: seq<string>, networkIds: seq<string>, enabled: bool): seq<Write> {
    AddPlan(rule, assign, networkIds, enabled) + (if remove == [] then [] else [Removed(rule, remove)])
  }

  function AddPlan(rule: string, assign: seq<string>, networkIds: seq<string>, enabled: bool): seq<Write> {
    if assign == [] then [] else (if enabled then NetworkWrites(rule, networkIds) else []) + [Assigned(rule, assign)]
  }

  /** The plan has been carried out, or after a failure some first part of it. */
  ghost predicate Followed(before: seq<Write>, after: seq<Write>, plan: seq<Write>, ok: bool) {
    if ok then after == before + plan else exists k: nat :: k <= |plan| && after == before + plan[..k]
  }

  lemma FollowedFirst(before: seq<Write>, after: seq<Write>, first: seq<Write>, second: seq<Write>)
    requires Followed(before, after, first, false)
    ensures Followed(before, after, first + second, false)
  {
    var k: nat :| k <= |first| && after == before + first[..k];
    assert (first + second)[..k] == first[..k];
  }

  lemma FollowedOn(before: seq<Write>, middle: seq<Write>, after: seq<Write>, first: seq<Write>, second: seq<Write>, ok: bool)
    requires Followed(before, middle, first, true) && Followed(middle, after, second, ok)
    ensures Followed(before, after, first + second, ok)
  {
    if ok {
      assert before + first + second == before + (first + second);
    } else {
      var k: nat :| k <= |second| && after == middle + second[..k];
      var n := |first| + k;
      assert (first + second)[..n] == first + second[..k];
      assert before + first + second[..k] == before + (first + second[..k]);
    }
  }

  lemma OneWrite(before: seq<Write>, w: Write, ok: bool)
    ensures Followed(before, before + [w], [w], ok)
  {
    assert [w][..1] == [w];
  }

  lemma NoWrite(before: seq<Write>, plan: seq<Write>)
    ensures Followed(before, before, plan, false)
  {
    assert before + plan[..0] == before;
  }

  /** What may be mapped to the rule, and is after success. */
  predicate Mapping(before: set<string>, after: set<string>, networkIds: seq<string>, ok: bool) {
    before <= after <= before + SetOf(networkIds) && (ok ==> after == before + SetOf(networkIds))
  }

  lemma MappedUpTo(networkIds: seq<string>, i: nat)
    requires i < |networkIds|
    ensures SetOf(networkIds[..i + 1]) == SetOf(networkIds[..i]) + {networkIds[i]} <= SetOf(networkIds)
  {
    assert networkIds[..i + 1] == networkIds[..i] + [networkIds[i]];
    AppendIsUnion(networkIds[..i], [networkIds[i]]);
    assert networkIds == networkIds[..i + 1] + networkIds[i + 1..];
    AppendIsUnion(networkIds[..i + 1], networkIds[i + 1..]);
  }

  lemma NetworkWritesUpTo(before: seq<Write>, rule: string, networkIds: seq<string>, i: nat)
    requires i < |networkIds|
    ensures Followed(before, before + NetworkWrites(rule, networkIds)[..i] + [Networked(rule, networkIds[i])], NetworkWrites(rule, networkIds), false)
  {
    var plan, n := NetworkWrites(rule, networkIds), i + 1;
    assert plan[..n] == plan[..i] + [Networked(rule, networkIds[i])];
    assert before + plan[..i] + [Networked(rule, networkIds[i])] == before + plan[..n];
  }

  method AssignNetworks(api: HostApi, rule: string, networkIds: seq<string>, enabled: bool) returns (ok: bool)
    modifies api`networks, api`faults, api`writes
    ensures old(api.Sound()) ==> ok && api.Sound()
    ensures !enabled ==> ok && api.networks == old(api.networks)
    ensures Followed(old(api.writes), api.writes, if enabled then NetworkWrites(rule, networkIds) else [], ok)
    ensures enabled ==> Mapping(old(api.NetworksOf(rule)), api.NetworksOf(rule), networkIds, ok)
    ensures forall other :: other != rule ==> api.NetworksOf(other) == old(api.NetworksOf(other))
  {
    if !enabled {
      return true;
    }
    ghost var plan := NetworkWrites(rule, networkIds);
    for i := 0 to |networkIds|
      invariant old(api.Sound()) ==> api.Sound()
      invariant api.writes == old(api.writes) + plan[..i]
      invariant api.NetworksOf(rule) == old(api.NetworksOf(rule)) + SetOf(networkIds[..i])
      invariant forall other :: other != rule ==> api.NetworksOf(other) == old(api.NetworksOf(other))
    {
      MappedUpTo(networkIds, i);
      NetworkWritesUpTo(old(api.writes), rule, networkIds, i);
      assert plan[..i + 1] == plan[..i] + [Networked(rule, networkIds[i])];
      var answer := api.AssignNetwork(rule, networkIds[i]);
      if answer.NotMapped? {
        return false;
      }
    }
    assert networkIds[..|networkIds|] == networkIds && plan[..|plan|] == plan;
    ok := true;
  }

  /** The listing and the difference: paging leaves no host listed twice, so the difference is exact. */
  method PlanSync(api: HostApi, rule: string, hostIds: seq<string>) returns (planned: bool, assign: seq<string>, remove: seq<string>)
    modifies api`faults
    ensures planned ==> SetOf(assign) == SetOf(hostIds) - SetOf(api.Of(rule)) && SetOf(remove) == SetOf(api.Of(rule)) - SetOf(hostIds)
    ensures old(api.Sound()) ==> planned && api.Sound()
  {
    var vms := api.ListInstances(rule);
    if vms.None? {
      return false, [], [];
    }
    planned := true;
    assign, remove := SymmetricDifference(hostIds, vms.value);
    forall x | x in hostIds ensures multiset(vms.value)[x] <= 1 { Sorting.DistinctCount(vms.value, x); }
    DifferenceExactExactly(hostIds, vms.value, remove);
  }

  method AddHosts(api: HostApi, rule: string, assign: seq<string>, networkIds: seq<string>, assignNetworks: bool) returns (ok: bool)
    modifies api
    ensures ok ==> SetOf(api.Of(rule)) == old(SetOf(api.Of(rule))) + SetOf(assign)
    ensures old(SetOf(api.Of(rule))) <= SetOf(api.Of(rule)) <= old(SetOf(api.Of(rule))) + SetOf(assign)
    ensures forall other :: other != rule ==> api.Of(other) == old(api.Of(other)) && api.NetworksOf(other) == old(api.NetworksOf(other))
    ensures Followed(old(api.writes), api.writes, AddPlan(rule, assign, networkIds, assignNetworks), ok)
    ensures assign == [] ==> ok && api.hosts == old(api.hosts)
    ensures assign == [] || !assignNetworks ==> api.networks == old(api.networks)
    ensures ok && assign != [] && assignNetworks ==> api.NetworksOf(rule) == old(api.NetworksOf(rule)) + SetOf(networkIds)
    ensures api.NetworksOf(rule) <= old(api.NetworksOf(rule)) + SetOf(networkIds)
    ensures old(api.Sound()) ==> ok && api.Sound()
  {
    if |assign| == 0 {
      return true;
    }
    ghost var first := if assignNetworks then NetworkWrites(rule, networkIds) else [];
    ok := AssignNetworks(api, rule, networkIds, assignNetworks);
    if !ok {
      FollowedFirst(old(api.writes), api.writes, first, [Assigned(rule, assign)]);
      return false;
    }
    AppendIsUnion(api.Of(rule), assign);
    ghost var middle := api.writes;
    ok := api.Assign(rule, assign);
    OneWrite(middle, Assigned(rule, assign), ok);
    FollowedOn(old(api.writes), middle, api.writes, first, [Assigned(rule, assign)], ok);
  }

  method DropHosts(api: HostApi, rule: string, remove: seq<string>) returns (ok: bool)
    modifies api`hosts, api`faults, api`writes
    ensures ok ==> SetOf(api.Of(rule)) == old(SetOf(api.Of(rule))) - SetOf(remove)
    ensures old(SetOf(api.Of(rule))) - SetOf(remove) <= SetOf(api.Of(rule)) <= old(SetOf(api.Of(rule)))
    ensures forall other :: other != rule ==> api.Of(other) == old(api.Of(other))
    ensures remove == [] ==> ok && api.hosts == old(api.hosts)
    ensures Followed(old(api.writes), api.writes, if remove == [] then [] else [Removed(rule, remove)], ok)
    ensures old(api.Sound()) ==> ok && api.Sound()
  {
    if |remove| == 0 {
      return true;
    }
    WithoutIsDifference(api.Of(rule), remove);
    OneWrite(api.writes, Removed(rule, remove), true);
    OneWrite(api.writes, Removed(rule, remove), false);
    ok := api.Remove(rule, remove);
  }

  lemma EmptySet(s: seq<string>)
    ensures SetOf(s) == {} <==> s == []
  {
    if s != [] {
      assert s[0] in SetOf(s);
    }
  }

  method CarryOut(api: HostApi, rule: string, assign: seq<string>, remove: seq<string>, networkIds: seq<string>, assignNetworks: bool)
    returns (ok: bool)
    modifies api
    ensures ok ==> SetOf(api.Of(rule)) == old(SetOf(api.Of(rule))) + SetOf(assign) - SetOf(remove)
    ensures old(SetOf(api.Of(rule))) - SetOf(remove) <= SetOf(api.Of(rule)) <= old(SetOf(api.Of(rule))) + SetOf(assign)
    ensures forall other :: other != rule ==> api.Of(other) == old(api.Of(other)) && api.NetworksOf(other) == old(api.NetworksOf(other))
    ensures Followed(old(api.writes), api.writes, SyncPlan(rule, assign, remove, networkIds, assignNetworks), ok)
    ensures assign == [] && remove == [] ==> ok && api.hosts == old(api.hosts)
    ensures assign == [] || !assignNetworks ==> api.networks == old(api.networks)
    ensures ok && assign != [] && assignNetworks ==> api.NetworksOf(rule) == old(api.NetworksOf(rule)) + SetOf(networkIds)
    ensures api.NetworksOf(rule) <= old(api.NetworksOf(rule)) + SetOf(networkIds)
    ensures old(api.Sound()) ==> ok && api.Sound()
  {
    ghost var first, second := AddPlan(rule, assign, networkIds, assignNetworks), if remove == [] then [] else [Removed(rule, remove)];
    ok := AddHosts(api, rule, assign, networkIds, assignNetworks);
    ghost var middle := api.writes;
    if ok {
      ok := DropHosts(api, rule, remove);
      FollowedOn(old(api.writes), middle, api.writes, first, second, ok);
    } else {
      FollowedFirst(old(api.writes), middle, first, second);
    }
  }

  /** What the listing leads to: the hosts that are missing, and those that are not wanted. */
  ghost predicate Planned(plan: seq<Write>, rule: string, before: set<string>, hostIds: seq<string>, networkIds: seq<string>, enabled: bool) {
    exists assign, remove ::
      && SetOf(assign) == SetOf(hostIds) - before && SetOf(remove) == before - SetOf(hostIds)
      && plan == SyncPlan(rule, assign, remove, networkIds, enabled)
  }

  /** syncNodes: afterwards the rule's hosts are exactly the wanted ones, and its networks those of the
      wanted hosts besides, if any host was missing; a rule that has its hosts already is only read.
      The writes come in the order of the plan. A failure on the way loses no wanted host. */
  method SyncNodes(api: HostApi, rule: string, hostIds: seq<string>, networkIds: seq<string>, assignNetworks: bool)
    returns (ok: bool, ghost plan: seq<Write>)
    modifies api
    ensures ok ==> SetOf(api.Of(rule)) == SetOf(hostIds)
    ensures Between(old(SetOf(api.Of(rule))), SetOf(api.Of(rule)), SetOf(hostIds))
    ensures forall other :: other != rule ==> api.Of(other) == old(api.Of(other)) && api.NetworksOf(other) == old(api.NetworksOf(other))
    ensures Followed(old(api.writes), api.writes, plan, ok)
    ensures plan == [] || Planned(plan, rule, old(SetOf(api.Of(rule))), hostIds, networkIds, assignNetworks)
    ensures ok ==> Planned(plan, rule, old(SetOf(api.Of(rule))), hostIds, networkIds, assignNetworks)
    ensures old(SetOf(api.Of(rule))) == SetOf(hostIds) ==> api.writes == old(api.writes) && api.hosts == old(api.hosts)
    ensures ok && assignNetworks && !(SetOf(hostIds) <= old(SetOf(api.Of(rule)))) ==>
              api.NetworksOf(rule) == old(api.NetworksOf(rule)) + SetOf(networkIds)
    ensures api.NetworksOf(rule) <= old(api.NetworksOf(rule)) + SetOf(networkIds)
    ensures !assignNetworks || SetOf(hostIds) <= old(SetOf(api.Of(rule))) ==> api.networks == old(api.networks)
    ensures old(api.Sound()) ==> ok && api.Sound()
  {
    plan := [];
    NoWrite(api.writes, []);
    var planned, assign, remove := PlanSync(api, rule, hostIds);
    if !planned {
      return false, plan;
    }
    EmptySet(assign);
    EmptySet(remove);
    plan := SyncPlan(rule, assign, remove, networkIds, assignNetworks);
    ok := CarryOut(api, rule, assign, remove, networkIds, assignNetworks);
  }

  lemma AppendIsUnion(s: seq<string>, t: seq<string>)
    ensures SetOf(s + t) == SetOf(s) + SetOf(t)
  {
  }
}
