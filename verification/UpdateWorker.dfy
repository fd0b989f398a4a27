/** What a queue worker does with one entry: hosts first, then health checks. */
module UpdateWorker {
  import opened Wrappers
  import opened Kube
  import opened Tags
  import opened NodeRegistry
  import Cloud
  import Reconciler
  import Fixpoint = ReconcilerFixpoint
  import LoadBalancer
  import HostSync
  import Pools
  import Ports

  /** What getLoadBalancer returns when the entry has no balancer at hand. */
  datatype RuleLookup = LookupError | NoRule | FoundRule(rule: Cloud.Rule)

  lemma EnumeratedIds(config: Config, nodes: NodeMap, service: Service, infos: seq<NodeInfo>, ids: seq<string>)
    requires Enumerates(infos, nodes, MatchingNames(config, nodes, service))
    requires ids == seq(|infos|, i requires 0 <= i < |infos| => infos[i].vmId)
    ensures HostSync.SetOf(ids) == VmIds(config, nodes, service)
  {
    var names := MatchingNames(config, nodes, service);
    var order: seq<string> :|
      && |order| == |infos|
      && (forall i :: 0 <= i < |order| ==> order[i] in nodes && infos[i] == nodes[order[i]])
      && (forall i, j :: 0 <= i < j < |order| ==> order[i] != order[j])
      && (forall k :: k in names <==> k in order);
    forall x | x in HostSync.SetOf(ids) ensures x in VmIds(config, nodes, service) {
      var i :| 0 <= i < |ids| && ids[i] == x;
      assert order[i] in order;
    }
    forall x | x in VmIds(config, nodes, service) ensures x in HostSync.SetOf(ids) {
      var k :| k in names && nodes[k].vmId == x;
      var i :| 0 <= i < |order| && order[i] == k;
      assert ids[i] == x;
    }
  }

  lemma EnumeratedNetworks(config: Config, nodes: NodeMap, service: Service, infos: seq<NodeInfo>)
    requires Enumerates(infos, nodes, MatchingNames(config, nodes, service))
    ensures NetworkSet(infos) == NetworkIds(config, nodes, service)
  {
    var names := MatchingNames(config, nodes, service);
    var order: seq<string> :|
      && |order| == |infos|
      && (forall i :: 0 <= i < |order| ==> order[i] in nodes && infos[i] == nodes[order[i]])
      && (forall i, j :: 0 <= i < j < |order| ==> order[i] != order[j])
      && (forall k :: k in names <==> k in order);
    forall x | x in NetworkSet(infos) ensures x in NetworkIds(config, nodes, service) {
      var i :| 0 <= i < |infos| && infos[i].networkId == x;
      assert order[i] in order;
    }
    forall x | x in NetworkIds(config, nodes, service) ensures x in NetworkSet(infos) {
      var k :| k in names && nodes[k].networkId == x;
      var i :| 0 <= i < |order| && order[i] == k;
      assert infos[i].networkId == x;
    }
  }

  class Worker {
    const registry: Registry
    const hostApi: HostSync.HostApi
    const poolApi: Pools.PoolApi

    constructor (registry: Registry, hostApi: HostSync.HostApi, poolApi: Pools.PoolApi)
      ensures this.registry == registry && this.hostApi == hostApi && this.poolApi == poolApi
    {
      this.registry, this.hostApi, this.poolApi := registry, hostApi, poolApi;
    }

    twostate predicate Untouched()
      reads hostApi, poolApi
    {
      && hostApi.writes == old(hostApi.writes) && hostApi.hosts == old(hostApi.hosts) && hostApi.networks == old(hostApi.networks)
      && poolApi.sent == old(poolApi.sent) && poolApi.pools == old(poolApi.pools)
    }

    /** The hosts the registry wants for the service. */
    function WantedHosts(service: Service): set<string>
      reads registry
    {
      VmIds(registry.config, registry.nodes, service)
    }

    function WantedNetworks(service: Service): set<string>
      reads registry
    {
      NetworkIds(registry.config, registry.nodes, service)
    }

    /** The hosts and networks of the nodes that serve the service. */
    method Wanted(service: Service) returns (ids: Option<(seq<string>, seq<string>)>)
      ensures ids.None? <==> WantedHosts(service) == {}
      ensures ids.Some? ==> WantedIds(service, ids.value)
    {
      var nodes := registry.NodesForService(service);
      NoHostsNoNodes(registry.config, registry.nodes, service);
      if nodes.Err? {
        return None;
      }
      var hostIds, networkIds, projectId := IdsForNodes(nodes.value);
      EnumeratedIds(registry.config, registry.nodes, service, nodes.value, hostIds);
      EnumeratedNetworks(registry.config, registry.nodes, service, nodes.value);
      assert forall x :: x in HostSync.SetOf(networkIds) <==> x in networkIds;
      ids := Some((hostIds, networkIds));
    }

    /** The rule to work on: the one at hand, or else the one that was found, if it is the service's own;
        `ok` without one means that there is nothing to do. */
    method FindTarget(service: Service, lb: Option<Cloud.Rule>, found: RuleLookup) returns (target: Option<Cloud.Rule>, ok: bool)
      ensures lb.Some? ==> ok && target == lb
      ensures lb.None? ==>
                match found
                case LookupError => !ok && target.None?
                case NoRule => ok && target.None?
                case FoundRule(r) =>
                  ok && target == if OwnLb(r.tags, service.key, service.ingress, LoadBalancerName(registry.config, service)) then Some(r) else None
    {
      if lb.Some? {
        return lb, true;
      }
      if !found.FoundRule? {
        return None, found.NoRule?;
      }
      LbOwnershipExactly(found.rule.tags, service.key, service.ingress, LoadBalancerName(registry.config, service));
      var managed := IsLbManaged(found.rule.tags, service.key, service.ingress, LoadBalancerName(registry.config, service));
      return if managed then Some(found.rule) else None, true;
    }

    /** What syncing a rule's hosts comes to: with success they are the wanted ones; hosts that are right
        get no request but the listing; a failure loses no wanted host; and no other rule changes. */
    twostate predicate HostsSynced(rule: string, hosts: set<string>, networks: set<string>, ok: bool)
      reads registry, hostApi
    {
      var before, after := old(HostSync.SetOf(hostApi.Of(rule))), HostSync.SetOf(hostApi.Of(rule));
      && (forall other :: other != rule ==>
            hostApi.Of(other) == old(hostApi.Of(other)) && hostApi.NetworksOf(other) == old(hostApi.NetworksOf(other)))
      && (ok ==> after == hosts)
      && HostSync.Between(before, after, hosts)
      && (before == hosts ==> hostApi.writes == old(hostApi.writes))
      && NetworksMapped(rule, hosts, networks, ok)
    }

    /** The networks mapped to a rule: those of the wanted hosts besides, if that is configured and a host
        was missing, and otherwise no others. */
    twostate predicate NetworksMapped(rule: string, hosts: set<string>, networks: set<string>, ok: bool)
      reads registry, hostApi
    {
      var before, after := old(hostApi.NetworksOf(rule)), hostApi.NetworksOf(rule);
      && after <= before + networks
      && (if registry.config.assignNetworks && !(hosts <= old(HostSync.SetOf(hostApi.Of(rule)))) then ok ==> after == before + networks
          else after == before)
    }

    /** What working on a rule comes to: its hosts are synced, and then its pools have been passed over
        if that was asked; no pool is touched before the hosts are right; and without faults there is
        success. */
    twostate predicate WorkedOn(rule: Cloud.Rule, service: Service, hosts: set<string>, networks: set<string>, updatePool: bool,
                                resolve: Ports.Resolver, ok: bool, new used: Result<Ports.LbPorts>)
      reads registry, hostApi, poolApi
    {
      && HostsSynced(rule.id, hosts, networks, ok)
      && Pools.OnlyPoolsOf(rule.id, old(poolApi.pools), poolApi.pools)
      && (!updatePool || HostSync.SetOf(hostApi.Of(rule.id)) != hosts ==>
            poolApi.sent == old(poolApi.sent) && poolApi.pools == old(poolApi.pools))
      && (!updatePool && old(hostApi.Sound()) ==> ok)
      && (updatePool && ok ==> PoolsPassed(rule, service, resolve, used))
      && (Faultless(rule, service, resolve) ==> ok)
    }

    twostate predicate PoolsPassed(rule: Cloud.Rule, service: Service, resolve: Ports.Resolver, new used: Result<Ports.LbPorts>)
      reads poolApi
    {
      && Ports.IsLbPortsOf(service.ports, UsesTargetPort(service), resolve, used)
      && poolApi.Of(rule.id) == SettledPools(service, rule, used, old(poolApi.Of(rule.id)))
    }

    /** No request will fail, and a pass over the pools has what it needs. */
    twostate predicate Faultless(rule: Cloud.Rule, service: Service, resolve: Ports.Resolver)
      reads hostApi, poolApi
    {
      old(hostApi.Sound()) && old(poolApi.Sound()) && old(WillPass(rule, service, resolve))
    }

    /** There are no pools to pass over, or there are some and the ports are fine. */
    ghost predicate WillPass(rule: Cloud.Rule, service: Service, resolve: Ports.Resolver)
      reads poolApi
    {
      || Pools.SkipsPools(service.meta, rule.ports.protocol)
      || (Ports.Acceptable(service.ports, UsesTargetPort(service), resolve) && poolApi.Of(rule.id) != [])
    }

    /** What an entry without a balancer at hand comes to, from what the searches found. */
    twostate predicate Handled(service: Service, found: RuleLookup, updatePool: bool, resolve: Ports.Resolver,
                               ok: bool, new used: Result<Ports.LbPorts>)
      reads registry, hostApi, poolApi
    {
      match found
      case LookupError => !ok && Untouched()
      case NoRule => ok && Untouched()
      case FoundRule(r) =>
        if OwnLb(r.tags, service.key, service.ingress, LoadBalancerName(registry.config, service))
        then WorkedOn(r, service, WantedHosts(service), WantedNetworks(service), updatePool, resolve, ok, used)
        else ok && Untouched()
    }

    method SyncHosts(rule: Cloud.Rule, hostIds: seq<string>, networkIds: seq<string>) returns (ok: bool)
      modifies hostApi
      ensures HostsSynced(rule.id, HostSync.SetOf(hostIds), HostSync.SetOf(networkIds), ok)
      ensures old(hostApi.Sound()) ==> ok
    {
      ghost var plan;
      ok, plan := HostSync.SyncNodes(hostApi, rule.id, hostIds, networkIds, registry.config.assignNetworks);
    }

    method PassPools(rule: Cloud.Rule, service: Service, resolve: Ports.Resolver) returns (ok: bool, ghost used: Result<Ports.LbPorts>)
      modifies poolApi
      ensures Pools.OnlyPoolsOf(rule.id, old(poolApi.pools), poolApi.pools)
      ensures ok ==> PoolsPassed(rule, service, resolve, used)
      ensures old(poolApi.Sound()) && old(WillPass(rule, service, resolve)) ==> ok
    {
      ghost var run, reached;
      ok, used, run, reached := Pools.UpdateLoadBalancerPool(poolApi, rule.id, rule.ports.protocol, service, resolve);
      Ports.LbPortsExactly(service.ports, UsesTargetPort(service), resolve, used);
      assert used.Ok? ==> used.value.ports[..|used.value.ports|] == used.value.ports;
    }

    /** syncNodes and then updateLoadBalancerPool on one rule. */
    method WorkOn(rule: Cloud.Rule, service: Service, hostIds: seq<string>, networkIds: seq<string>, updatePool: bool, resolve: Ports.Resolver)
      returns (ok: bool, ghost used: Result<Ports.LbPorts>)
      modifies hostApi, poolApi
      ensures WorkedOn(rule, service, HostSync.SetOf(hostIds), HostSync.SetOf(networkIds), updatePool, resolve, ok, used)
    {
      used := Err;
      ok := SyncHosts(rule, hostIds, networkIds);
      if ok && updatePool {
        ok, used := PassPools(rule, service, resolve);
      }
    }

    /** processQueueEntry. Without nodes it fails. An entry with a balancer at hand works on that one; one
        without works on the rule that was found, if it is the service's own, and otherwise does nothing. */
    method ProcessEntry(service: Service, lb: Option<Cloud.Rule>, found: RuleLookup, updatePool: bool, resolve: Ports.Resolver)
      returns (ok: bool, ghost used: Result<Ports.LbPorts>)
      modifies hostApi, poolApi
      ensures WantedHosts(service) == {} ==> !ok && Untouched()
      ensures WantedHosts(service) != {} && lb.Some? ==>
                WorkedOn(lb.value, service, WantedHosts(service), WantedNetworks(service), updatePool, resolve, ok, used)
      ensures WantedHosts(service) != {} && lb.None? ==> Handled(service, found, updatePool, resolve, ok, used)
    {
      used := Err;
      var ids := Wanted(service);
      if ids.None? {
        return false, used;
      }
      ok, used := ProcessWith(service, ids.value, lb, found, updatePool, resolve);
    }

    predicate WantedIds(service: Service, ids: (seq<string>, seq<string>))
      reads registry
    {
      HostSync.SetOf(ids.0) == WantedHosts(service) && HostSync.SetOf(ids.1) == WantedNetworks(service)
    }

    /** From the hosts known to the end. */
    method ProcessWith(service: Service, ids: (seq<string>, seq<string>), lb: Option<Cloud.Rule>, found: RuleLookup, updatePool: bool,
                       resolve: Ports.Resolver) returns (ok: bool, ghost used: Result<Ports.LbPorts>)
      requires WantedIds(service, ids)
      modifies hostApi, poolApi
      ensures lb.Some? ==> WorkedOn(lb.value, service, WantedHosts(service), WantedNetworks(service), updatePool, resolve, ok, used)
      ensures lb.None? ==> Handled(service, found, updatePool, resolve, ok, used)
    {
      used := Err;
      var target;
      target, ok := FindTarget(service, lb, found);
      if target.Some? {
        ok, used := WorkOn(target.value, service, ids.0, ids.1, updatePool, resolve);
      }
    }

    method LookUp(balancer: LoadBalancer.LoadBalancer) returns (found: RuleLookup)
      requires balancer.rule.None? && balancer.client.Stands(balancer.View(Reconciler.ListByName))
      modifies balancer, balancer.client
      ensures balancer.client.healthy ==>
                && balancer.client.cloud == old(balancer.client.cloud)
                && LoadBalancer.FindsBalancer(balancer.client.cloud, balancer.ctx, PickOf(found))
    {
      var looked := balancer.GetLoadBalancer();
      found := if !looked then LookupError else if balancer.rule.None? then NoRule else FoundRule(balancer.rule.value);
    }

    method LookUpAndProcess(service: Service, ids: (seq<string>, seq<string>), balancer: LoadBalancer.LoadBalancer, updatePool: bool,
                            resolve: Ports.Resolver) returns (ok: bool, ghost found: RuleLookup, ghost used: Result<Ports.LbPorts>)
      requires WantedIds(service, ids) && balancer.rule.None? && balancer.client.Stands(balancer.View(Reconciler.ListByName))
      modifies hostApi, poolApi, balancer, balancer.client
      ensures balancer.client.healthy ==>
                && balancer.client.cloud == old(balancer.client.cloud)
                && LoadBalancer.FindsBalancer(balancer.client.cloud, balancer.ctx, PickOf(found))
      ensures Handled(service, found, updatePool, resolve, ok, used)
    {
      var lookup := LookUp(balancer);
      found := lookup;
      ok, used := ProcessWith(service, ids, None, lookup, updatePool, resolve);
    }

    /** An entry without a balancer at hand: getLoadBalancer's own two searches, and then the same. When
        neither search fails, `found` is the service's balancer, or nothing where there is none. */
    method ProcessQueued(service: Service, balancer: LoadBalancer.LoadBalancer, updatePool: bool, resolve: Ports.Resolver)
      returns (ok: bool, ghost found: RuleLookup, ghost used: Result<Ports.LbPorts>)
      requires balancer.ctx.service == service.key && balancer.ctx.ingress == service.ingress
      requires balancer.ctx.lbName == LoadBalancerName(registry.config, service)
      requires balancer.rule.None? && balancer.client.Stands(balancer.View(Reconciler.ListByName))
      modifies hostApi, poolApi, balancer, balancer.client
      ensures WantedHosts(service) == {} ==> !ok && Untouched() && balancer.client.cloud == old(balancer.client.cloud)
      ensures WantedHosts(service) != {} && balancer.client.healthy ==>
                && balancer.client.cloud == old(balancer.client.cloud)
                && LoadBalancer.FindsBalancer(balancer.client.cloud, balancer.ctx, PickOf(found))
      ensures WantedHosts(service) != {} ==> Handled(service, found, updatePool, resolve, ok, used)
    {
      found, used := LookupError, Err;
      var ids := Wanted(service);
      if ids.None? {
        return false, found, used;
      }
      ok, found, used := LookUpAndProcess(service, ids.value, balancer, updatePool, resolve);
    }
  }

  /** The same answer as the balancer's search gives it. */
  function PickOf(found: RuleLookup): Cloud.Pick<Cloud.Rule> {
    match found
    case LookupError => Cloud.Many
    case NoRule => Cloud.Nobody
    case FoundRule(r) => Cloud.One(r)
  }

  /** The rule's pools after a complete health check pass. */
  function SettledPools(service: Service, rule: Cloud.Rule, used: Result<Ports.LbPorts>, pools: seq<Pools.Pool>): seq<Pools.Pool> {
    if Pools.SkipsPools(service.meta, rule.ports.protocol) || used.Err? then pools
    else Pools.ServerAfter(pools, Pools.Updates(used.value.ports, used.value.protocol, service.meta, pools))
  }

  /** Where pools are unique per port pair and ID, that is every pool settled. */
  lemma SettledPoolsAreSettled(service: Service, rule: Cloud.Rule, used: Result<Ports.LbPorts>, pools: seq<Pools.Pool>)
    requires Pools.DistinctPools(pools) && !Pools.SkipsPools(service.meta, rule.ports.protocol) && used.Ok?
    ensures SettledPools(service, rule, used, pools) == Pools.SettleAll(used.value.ports, used.value.protocol, service.meta, pools)
  {
    Pools.PassSettlesBoth(used.value.ports, used.value.protocol, service.meta, pools);
  }

  lemma NoHostsNoNodes(config: Config, nodes: NodeMap, service: Service)
    ensures VmIds(config, nodes, service) == {} <==> MatchingNames(config, nodes, service) == {}
  {
    if k :| k in MatchingNames(config, nodes, service) {
      assert nodes[k].vmId in VmIds(config, nodes, service);
    }
  }
}
