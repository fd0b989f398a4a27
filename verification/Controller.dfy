/** The entry points of the cloud provider up to their first request to CloudStack. */
module Controller {
  import opened Wrappers
  import opened Kube
  import Strings
  import Sorting
  import NodeRegistry
  import Ports
  import Queue = ServiceQueue
  import Reconciler

  /** What a call takes from its service, the configuration and the registry. */
  function ContextFor(config: Config, service: Service, ports: Result<Ports.LbPorts>, networkIds: seq<string>): Reconciler.Ctx {
    Reconciler.Ctx(service.key, LoadBalancerName(config, service), AlgorithmFor(service.affinity), ports, service.loadBalancerIp,
                   service.ingress, RemovalEnabled(config, service), if |networkIds| > 0 then networkIds[0] else "")
  }

  /** The environment of the service has a CloudStack client. */
  predicate HasClient(config: Config, service: Service) {
    EnvironmentFor(config, service.meta) in config.environments
  }

  class Controller {
    const registry: NodeRegistry.Registry
    const queue: Queue.UpdateQueue

    constructor (registry: NodeRegistry.Registry, queue: Queue.UpdateQueue)
      requires queue.registry == registry
      ensures this.registry == registry && this.queue == queue
    {
      this.registry, this.queue := registry, queue;
    }

    function Serving(service: Service): set<string>
      reads registry
    {
      NodeRegistry.MatchingNames(registry.config, registry.nodes, service)
    }

    /** EnsureLoadBalancer before its first request: a service without ports changes nothing, any
        later refusal leaves the registry updated. The main network is the first in sorted order
        among those of the service's nodes. */
    method PrepareEnsure(service: Service, nodes: seq<Node>, answers: seq<NodeRegistry.VmAnswer>, resolve: Ports.Resolver)
      returns (ctx: Option<Reconciler.Ctx>)
      requires |nodes| == |answers|
      modifies registry`nodes, registry`revision
      ensures registry.Abstract() ==
              if service.ports == [] then old(registry.Abstract())
              else NodeRegistry.Update(registry.config, old(registry.Abstract()), nodes, answers).0
      ensures ctx.Some? <==>
                && service.ports != [] && HasClient(registry.config, service)
                && NodeRegistry.Update(registry.config, old(registry.Abstract()), nodes, answers).1 && Serving(service) != {}
      ensures ctx.Some? ==>
                var x := ctx.value;
                && x.service == service.key && x.lbName == LoadBalancerName(registry.config, service)
                && x.algorithm == AlgorithmFor(service.affinity) && x.specIp == service.loadBalancerIp && x.ingress == service.ingress
                && x.removable == RemovalEnabled(registry.config, service)
                && Ports.IsLbPortsOf(service.ports, UsesTargetPort(service), resolve, x.ports)
                && IsLeastNetwork(registry.nodes, Serving(service), x.network)
    {
      if |service.ports| == 0 {
        return None;
      }
      var updated := registry.UpdateNodes(nodes, answers);
      if !updated {
        return None;
      }
      var infos := registry.NodesForService(service);
      if infos.Err? || !HasClient(registry.config, service) {
        return None;
      }
      var hostIds, networkIds, projectId := NodeRegistry.IdsForNodes(infos.value);
      LeastNetwork(registry.nodes, Serving(service), infos.value, networkIds);
      var sorted, ports := Ports.ServiceToLbPorts(service.ports, UsesTargetPort(service), resolve);
      ctx := Some(ContextFor(registry.config, service, ports, networkIds));
    }

    /** UpdateLoadBalancer: a failure to update the registry queues nothing. */
    method UpdateLoadBalancer(service: Service, nodes: seq<Node>, answers: seq<NodeRegistry.VmAnswer>, now: int) returns (ok: bool)
      requires |nodes| == |answers| && queue.Valid() && queue.registry == registry
      modifies registry`nodes, registry`revision, queue`queue
      ensures queue.Valid()
      ensures registry.Abstract() == NodeRegistry.Update(registry.config, old(registry.Abstract()), nodes, answers).0
      ensures ok <==>
                && NodeRegistry.Update(registry.config, old(registry.Abstract()), nodes, answers).1
                && (service.key in old(queue.queue) || Serving(service) != {})
      ensures queue.queue == if ok then Queue.Pushed(old(queue.queue), Queue.Entry(service, None, false, now, 0)) else old(queue.queue)
    {
      ok := registry.UpdateNodes(nodes, answers);
      if ok {
        ok := queue.Push(Queue.Entry(service, None, false, now, 0));
      }
    }
  }

  /** The network of one of the nodes, and none of the nodes has a smaller one. */
  ghost predicate IsLeastNetwork(nodes: NodeRegistry.NodeMap, names: set<string>, network: string) {
    && (exists k :: k in names && k in nodes && nodes[k].networkId == network)
    && forall k :: k in names && k in nodes ==> !Strings.Less(nodes[k].networkId, network)
  }

  lemma LeastNetwork(nodes: NodeRegistry.NodeMap, names: set<string>, infos: seq<NodeRegistry.NodeInfo>, networkIds: seq<string>)
    requires NodeRegistry.Enumerates(infos, nodes, names) && names != {}
    requires Sorting.Sorted(networkIds, Strings.Less) && forall x :: x in networkIds <==> x in NodeRegistry.NetworkSet(infos)
    ensures |networkIds| > 0 && IsLeastNetwork(nodes, names, networkIds[0])
  {
    var order: seq<string> :|
      && |order| == |infos|
      && (forall i :: 0 <= i < |order| ==> order[i] in nodes && infos[i] == nodes[order[i]])
      && (forall i, j :: 0 <= i < j < |order| ==> order[i] != order[j])
      && (forall k :: k in names <==> k in order);
    forall k | k in names
      ensures k in nodes && nodes[k].networkId in networkIds && |networkIds| > 0 && !Strings.Less(nodes[k].networkId, networkIds[0])
    {
      var i :| 0 <= i < |order| && order[i] == k;
      assert infos[i].networkId in NodeRegistry.NetworkSet(infos);
      var j :| 0 <= j < |networkIds| && networkIds[j] == nodes[k].networkId;
      Strings.LessIrreflexive(networkIds[j]);
    }
    var some :| some in names;
    assert networkIds[0] in networkIds;
    var i :| 0 <= i < |infos| && infos[i].networkId == networkIds[0];
    assert order[i] in order;
  }

  // ------------------------------------------------------------------------------------
  // Balancer names

  /** The service chooses no balancer name of its own. */
  predicate DefaultName(service: Service) {
    && ValueOrEmpty(GetLabelOrAnnotation(service.meta, LB_NAME_LABEL)) == ""
    && ValueOrEmpty(GetLabelOrAnnotation(service.meta, LB_NAME_SUFFIX)) == ""
  }

  /** Default names do not tell namespaces apart: in one environment two services get one balancer
      name exactly when they have the same name. */
  lemma DefaultNamesClashExactly(config: Config, a: Service, b: Service)
    requires DefaultName(a) && DefaultName(b) && EnvironmentFor(config, a.meta) == EnvironmentFor(config, b.meta)
    ensures LoadBalancerName(config, a) == LoadBalancerName(config, b) <==> a.key.name == b.key.name
  {
    var environment := EnvironmentFor(config, a.meta);
    var suffix := "." + (if environment in config.environments then config.environments[environment].lbDomain else "");
    assert LoadBalancerName(config, a) == a.key.name + suffix;
    assert LoadBalancerName(config, b) == b.key.name + suffix;
    var n, m := a.key.name + suffix, b.key.name + suffix;
    assert a.key.name == n[..|n| - |suffix|] && b.key.name == m[..|m| - |suffix|];
  }
}
