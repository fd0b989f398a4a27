/** The revisioned registry of Kubernetes nodes mapped to CloudStack instances. */
module NodeRegistry {
  import opened Wrappers
  import opened Sorting
  import opened Kube
  import Ports
  import Strings

  datatype NodeInfo = NodeInfo(name: string, vmId: string, networkId: string, hostName: string,
                               projectId: string, environmentId: string, filterValue: string, revision: nat)

  /** What the VM lookup by host name and project returns for one node, and its network cards. */
  datatype VmAnswer = VmError | VmNotFound | Vm(id: string, nics: seq<string>)

  type NodeMap = map<string, NodeInfo>

  datatype State = State(nodes: NodeMap, revision: nat)

  const EMPTY := State(map[], 0)

  // ------------------------------------------------------------------------------------
  // One node

  /** updateLabels: on a missing project the environment, filter and (emptied) project are
      already overwritten, the host name is not. */
  function UpdateLabels(config: Config, info: NodeInfo, node: Node): (r: (NodeInfo, bool))
    ensures r.0.name == info.name && r.0.revision == info.revision
    ensures r.0.vmId == info.vmId && r.0.networkId == info.networkId
  {
    var environment := EnvironmentFor(config, node.meta);
    var filter := if config.nodeFilterLabel != "" then ValueOrEmpty(GetLabelOrAnnotation(node.meta, config.nodeFilterLabel))
                  else info.filterValue;
    var labelled := info.(environmentId := environment, filterValue := filter);
    match ProjectFor(config, node.meta, environment)
    case Err => (labelled.(projectId := ""), false)
    case Ok(project) =>
      var named := GetLabelOrAnnotation(node.meta, config.nodeNameLabel);
      (labelled.(projectId := project, hostName := if named.Some? then named.value else node.name), true)
  }

  function ExternalNic(config: Config, nics: seq<string>): string
    requires |nics| > 0
  {
    if 0 <= config.externalIpIndex < |nics| then nics[config.externalIpIndex] else nics[0]
  }

  /** newNodeInfo: nothing, without an error, for a node that CloudStack does not know. */
  function NewNodeInfo(config: Config, node: Node, answer: VmAnswer): (r: Result<Option<NodeInfo>>)
    ensures r.Ok? && r.value.Some? ==> r.value.value.name == node.name
    ensures r.Ok? ==> (r.value.Some? <==> answer.Vm?)
  {
    var (info, ok) := UpdateLabels(config, NodeInfo(node.name, "", "", "", "", "", "", 0), node);
    if !ok || info.environmentId !in config.environments then Err
    else
      match answer
      case VmError => Err
      case VmNotFound => Ok(None)
      case Vm(id, nics) =>
        if |nics| == 0 then Err
        else Ok(Some(info.(vmId := id, networkId := ExternalNic(config, nics))))
  }

  // ------------------------------------------------------------------------------------
  // One call of updateNodes, as a function

  function VisitNode(config: Config, nodes: NodeMap, revision: nat, node: Node, answer: VmAnswer): (NodeMap, bool) {
    if node.name in nodes then
      var (info, ok) := UpdateLabels(config, nodes[node.name], node);
      (nodes[node.name := info], ok)
    else
      match NewNodeInfo(config, node, answer)
      case Err => (nodes, false)
      case Ok(None) => (nodes, true)
      case Ok(Some(info)) => (nodes[node.name := info.(revision := revision)], true)
  }

  /** Visits the nodes in order and stops at the first error, keeping what was changed before it. */
  function Visit(config: Config, nodes: NodeMap, revision: nat, list: seq<Node>, answers: seq<VmAnswer>): (NodeMap, bool)
    requires |list| == |answers|
  {
    if list == [] then (nodes, true)
    else
      var k := |list| - 1;
      var (before, ok) := Visit(config, nodes, revision, list[..k], answers[..k]);
      if !ok then (before, false) else VisitNode(config, before, revision, list[k], answers[k])
  }

  function Names(list: seq<Node>): set<string> {
    set i | 0 <= i < |list| :: list[i].name
  }

  function Update(config: Config, s: State, list: seq<Node>, answers: seq<VmAnswer>): (State, bool)
    requires |list| == |answers|
  {
    if list == [] then (s, false)
    else
      var revision := s.revision + 1;
      var (nodes, ok) := Visit(config, s.nodes, revision, list, answers);
      if !ok then (State(nodes, revision), false)
      else
        var kept := map k | k in nodes && k in Names(list) :: nodes[k];
        (State(kept, revision), |kept| > 0)
  }

  // ------------------------------------------------------------------------------------
  // History

  ghost predicate Consistent(s: State) {
    forall k :: k in s.nodes ==> s.nodes[k].name == k && 1 <= s.nodes[k].revision <= s.revision
  }

  /** The part of an entry that must not change while the node stays. */
  function Identity(info: NodeInfo): (string, string, nat) {
    (info.vmId, info.networkId, info.revision)
  }

  /** How one call may change the map: present nodes keep their identity, new ones carry the
      call's revision, nothing disappears while visiting. */
  ghost predicate Evolves(before: NodeMap, after: NodeMap, revision: nat) {
    && (forall k :: k in before ==> k in after && Identity(after[k]) == Identity(before[k]))
    && (forall k :: k in after && k !in before ==> after[k].revision == revision)
    && (forall k :: k in after ==> after[k].name == (if k in before then before[k].name else k))
  }

  lemma {:induction false} VisitEvolves(config: Config, nodes: NodeMap, revision: nat, list: seq<Node>, answers: seq<VmAnswer>)
    requires |list| == |answers|
    ensures Evolves(nodes, Visit(config, nodes, revision, list, answers).0, revision)
  {
    if list != [] {
      var k := |list| - 1;
      VisitEvolves(config, nodes, revision, list[..k], answers[..k]);
    }
  }

  lemma {:induction false} VisitDomain(config: Config, nodes: NodeMap, revision: nat, list: seq<Node>, answers: seq<VmAnswer>)
    requires |list| == |answers| && Visit(config, nodes, revision, list, answers).1
    ensures Visit(config, nodes, revision, list, answers).0.Keys == nodes.Keys + Found(list, answers)
  {
    if list != [] {
      var k := |list| - 1;
      VisitDomain(config, nodes, revision, list[..k], answers[..k]);
      FoundStep(list, answers);
    }
  }

  /** The listed nodes that CloudStack knows. */
  function Found(list: seq<Node>, answers: seq<VmAnswer>): set<string>
    requires |list| == |answers|
  {
    set i | 0 <= i < |list| && answers[i].Vm? :: list[i].name
  }

  lemma FoundStep(list: seq<Node>, answers: seq<VmAnswer>)
    requires |list| == |answers| > 0
    ensures var k := |list| - 1;
            Found(list, answers) == Found(list[..k], answers[..k]) + (if answers[k].Vm? then {list[k].name} else {})
  {
    var k := |list| - 1;
    forall x | x in Found(list[..k], answers[..k]) ensures x in Found(list, answers) {
      var i :| 0 <= i < k && answers[..k][i].Vm? && list[..k][i].name == x;
      assert answers[i].Vm? && list[i].name == x;
    }
    forall x | x in Found(list, answers)
      ensures x in Found(list[..k], answers[..k]) || (answers[k].Vm? && x == list[k].name)
    {
      var i :| 0 <= i < |list| && answers[i].Vm? && list[i].name == x;
      if i < k { assert answers[..k][i].Vm? && list[..k][i].name == x; }
    }
  }

  /** Every call, failing or not, keeps the registry consistent; the revision grows by one unless
      no node was given. */
  lemma UpdateKeepsConsistent(config: Config, s: State, list: seq<Node>, answers: seq<VmAnswer>)
    requires |list| == |answers| && Consistent(s)
    ensures var s' := Update(config, s, list, answers).0;
            && Consistent(s')
            && s'.revision == s.revision + (if list == [] then 0 else 1)
            && (forall k :: k in s.nodes && k in s'.nodes ==> Identity(s'.nodes[k]) == Identity(s.nodes[k]))
            && (forall k :: k in s'.nodes && k !in s.nodes ==> s'.nodes[k].revision == s'.revision)
  {
    if list != [] {
      VisitEvolves(config, s.nodes, s.revision + 1, list, answers);
    }
  }

  /** Success: exactly the given nodes that were present or found, and at least one. */
  lemma UpdateSuccess(config: Config, s: State, list: seq<Node>, answers: seq<VmAnswer>)
    requires |list| == |answers| && Update(config, s, list, answers).1
    ensures var s' := Update(config, s, list, answers).0;
            s'.nodes.Keys == Names(list) * (s.nodes.Keys + Found(list, answers)) && s'.nodes.Keys != {}
  {
    VisitDomain(config, s.nodes, s.revision + 1, list, answers);
  }

  /** Failure: either nothing survives the filter, or a label or lookup error stopped the visit
      halfway, and then no node has been dropped. */
  lemma UpdateFailure(config: Config, s: State, list: seq<Node>, answers: seq<VmAnswer>)
    requires |list| == |answers| && !Update(config, s, list, answers).1
    ensures var s' := Update(config, s, list, answers).0;
            s'.nodes == map[] || s.nodes.Keys <= s'.nodes.Keys <= s.nodes.Keys + Names(list)
  {
    if list != [] {
      VisitEvolves(config, s.nodes, s.revision + 1, list, answers);
      VisitWithin(config, s.nodes, s.revision + 1, list, answers);
    }
  }

  lemma {:induction false} VisitWithin(config: Config, nodes: NodeMap, revision: nat, list: seq<Node>, answers: seq<VmAnswer>)
    requires |list| == |answers|
    ensures Visit(config, nodes, revision, list, answers).0.Keys <= nodes.Keys + Names(list)
  {
    if list != [] {
      var k := |list| - 1;
      VisitWithin(config, nodes, revision, list[..k], answers[..k]);
      assert Names(list[..k]) <= Names(list) by {
        forall i | 0 <= i < k ensures list[..k][i].name in Names(list) { assert list[i].name in Names(list); }
      }
      assert list[k].name in Names(list);
    }
  }

  // ------------------------------------------------------------------------------------
  // When a failed call changes nothing

  /** The call accepts the first `n - 1` nodes and rejects the next, so it visits `n`. */
  ghost predicate StopsAfter(config: Config, nodes: NodeMap, revision: nat, list: seq<Node>, answers: seq<VmAnswer>, n: nat)
    requires |list| == |answers|
  {
    && 0 < n <= |list|
    && Visit(config, nodes, revision, list[..n - 1], answers[..n - 1]).1
    && !Visit(config, nodes, revision, list[..n], answers[..n]).1
  }

  /** What the listed nodes with the entry's name make of its labels, one after the other. */
  function Relabelled(config: Config, info: NodeInfo, name: string, list: seq<Node>): NodeInfo {
    if list == [] then info
    else
      var before := Relabelled(config, info, name, list[..|list| - 1]);
      if list[|list| - 1].name == name then UpdateLabels(config, before, list[|list| - 1]).0 else before
  }

  /** Some listed node with the name has acceptable labels, and a VM with a network card. */
  ghost predicate Entered(config: Config, list: seq<Node>, answers: seq<VmAnswer>, name: string)
    requires |list| == |answers|
  {
    exists i :: 0 <= i < |list| && list[i].name == name && Enters(config, list[i], answers[i])
  }

  predicate Enters(config: Config, node: Node, answer: VmAnswer) {
    var r := NewNodeInfo(config, node, answer);
    r.Ok? && r.value.Some?
  }

  /** No listed node changes the registry: an absent one is not entered, and a present one ends with
      the entry it had. */
  ghost predicate LeavesAlone(config: Config, nodes: NodeMap, list: seq<Node>, answers: seq<VmAnswer>)
    requires |list| == |answers|
  {
    && (forall k :: k in nodes ==> Relabelled(config, nodes[k], k, list) == nodes[k])
    && (forall i :: 0 <= i < |list| && list[i].name !in nodes ==> !Enters(config, list[i], answers[i]))
  }

  lemma EnteredStep(config: Config, list: seq<Node>, answers: seq<VmAnswer>, name: string)
    requires |list| == |answers| > 0
    ensures var k := |list| - 1;
            Entered(config, list, answers, name) <==>
            Entered(config, list[..k], answers[..k], name) || (list[k].name == name && Enters(config, list[k], answers[k]))
  {
    var k := |list| - 1;
    if Entered(config, list[..k], answers[..k], name) {
      var i :| 0 <= i < k && list[..k][i].name == name && Enters(config, list[..k][i], answers[..k][i]);
      assert list[i].name == name && Enters(config, list[i], answers[i]);
    }
    if Entered(config, list, answers, name) {
      var i :| 0 <= i < |list| && list[i].name == name && Enters(config, list[i], answers[i]);
      if i < k { assert list[..k][i].name == name && Enters(config, list[..k][i], answers[..k][i]); }
    }
  }

  /** The map after visiting nodes of which at most the last is rejected: present entries are
      relabelled, and an absent name is there exactly when some listed node entered it. */
  ghost predicate Explains(config: Config, nodes: NodeMap, list: seq<Node>, answers: seq<VmAnswer>, after: NodeMap)
    requires |list| == |answers|
  {
    && (forall k :: k in nodes ==> k in after && after[k] == Relabelled(config, nodes[k], k, list))
    && (forall k :: k !in nodes ==> (k in after <==> Entered(config, list, answers, k)))
  }

  lemma {:induction false} VisitExplained(config: Config, nodes: NodeMap, revision: nat, list: seq<Node>, answers: seq<VmAnswer>)
    requires |list| == |answers|
    requires list != [] ==> Visit(config, nodes, revision, list[..|list| - 1], answers[..|list| - 1]).1
    ensures Explains(config, nodes, list, answers, Visit(config, nodes, revision, list, answers).0)
  {
    if list != [] {
      var k := |list| - 1;
      VisitExplained(config, nodes, revision, list[..k], answers[..k]);
      var before := Visit(config, nodes, revision, list[..k], answers[..k]).0;
      OneMoreExplained(config, nodes, before, revision, list, answers);
    }
  }

  lemma OneMoreExplained(config: Config, nodes: NodeMap, before: NodeMap, revision: nat, list: seq<Node>, answers: seq<VmAnswer>)
    requires |list| == |answers| > 0
    requires Explains(config, nodes, list[..|list| - 1], answers[..|list| - 1], before)
    ensures Explains(config, nodes, list, answers, VisitNode(config, before, revision, list[|list| - 1], answers[|list| - 1]).0)
  {
    var k := |list| - 1;
    VisitedEntry(config, before, revision, list[k], answers[k]);
    var after := VisitNode(config, before, revision, list[k], answers[k]).0;
    forall name | name !in nodes ensures name in after <==> Entered(config, list, answers, name) {
      EnteredStep(config, list, answers, name);
    }
    forall name | name in nodes ensures name in after && after[name] == Relabelled(config, nodes[name], name, list) {
    }
  }

  lemma VisitedEntry(config: Config, nodes: NodeMap, revision: nat, node: Node, answer: VmAnswer)
    ensures var after := VisitNode(config, nodes, revision, node, answer).0;
            && (forall k :: k != node.name ==> (k in after <==> k in nodes) && (k in nodes ==> after[k] == nodes[k]))
            && (node.name in nodes ==> node.name in after && after[node.name] == UpdateLabels(config, nodes[node.name], node).0)
            && (node.name !in nodes ==> (node.name in after <==> Enters(config, node, answer)))
  {
  }

  lemma {:induction false} FirstFailure(ok: nat -> bool, m: nat, n: nat) returns (k: nat)
    requires m < n && ok(m) && !ok(n)
    ensures m < k <= n && ok(k - 1) && !ok(k)
    decreases n - m
  {
    if ok(m + 1) {
      k := FirstFailure(ok, m + 1, n);
    } else {
      k := m + 1;
    }
  }

  lemma {:induction false} EmptyVisit(config: Config, nodes: NodeMap, revision: nat, list: seq<Node>, answers: seq<VmAnswer>)
    requires |list| == |answers|
    ensures Visit(config, nodes, revision, list[..0], answers[..0]).1
  {
  }

  /** Visiting either accepts every node, or stops at the first it rejects. */
  lemma VisitStopsSomewhere(config: Config, nodes: NodeMap, revision: nat, list: seq<Node>, answers: seq<VmAnswer>) returns (n: nat)
    requires |list| == |answers| && !Visit(config, nodes, revision, list, answers).1
    ensures StopsAfter(config, nodes, revision, list, answers, n)
  {
    var ok := (m: nat) => m <= |list| && Visit(config, nodes, revision, list[..m], answers[..m]).1;
    assert list[..|list|] == list && answers[..|list|] == answers;
    EmptyVisit(config, nodes, revision, list, answers);
    n := FirstFailure(ok, 0, |list|);
  }

  /** A call that rejects a node leaves the nodes as they were exactly when the ones it visited leave
      the registry alone. */
  lemma FailureLeavesNodesExactly(config: Config, s: State, list: seq<Node>, answers: seq<VmAnswer>, n: nat)
    requires |list| == |answers| && StopsAfter(config, s.nodes, s.revision + 1, list, answers, n)
    ensures var (s', ok) := Update(config, s, list, answers);
            !ok && (s'.nodes == s.nodes <==> LeavesAlone(config, s.nodes, list[..n], answers[..n]))
  {
    StoppedUnchanged(config, s.nodes, s.revision + 1, list, answers, n);
    UpdateOfRejected(config, s, list, answers);
  }

  lemma {:induction false} UpdateOfRejected(config: Config, s: State, list: seq<Node>, answers: seq<VmAnswer>)
    requires |list| == |answers| > 0 && !Visit(config, s.nodes, s.revision + 1, list, answers).1
    ensures Update(config, s, list, answers) == (State(Visit(config, s.nodes, s.revision + 1, list, answers).0, s.revision + 1), false)
  {
  }

  /** The ways to fail: without any node nothing changes at all; with every node accepted but none to
      keep the registry is emptied; and otherwise some node is rejected. The revision grows in all
      but the first. */
  lemma {:induction false} FailureKinds(config: Config, s: State, list: seq<Node>, answers: seq<VmAnswer>)
    requires |list| == |answers| && !Update(config, s, list, answers).1
    ensures Update(config, s, list, answers).0 == s <==> list == []
    ensures list != [] ==>
              if Visit(config, s.nodes, s.revision + 1, list, answers).1 then Update(config, s, list, answers).0.nodes == map[]
              else exists n: nat {:trigger list[..n]} :: StopsAfter(config, s.nodes, s.revision + 1, list, answers, n)
  {
    if !Visit(config, s.nodes, s.revision + 1, list, answers).1 {
      var n := VisitStopsSomewhere(config, s.nodes, s.revision + 1, list, answers);
      assert list[..n] == list[..n];
    }
  }

  lemma {:induction false} StoppedUnchanged(config: Config, nodes: NodeMap, revision: nat, list: seq<Node>, answers: seq<VmAnswer>, n: nat)
    requires |list| == |answers| && StopsAfter(config, nodes, revision, list, answers, n)
    ensures !Visit(config, nodes, revision, list, answers).1
    ensures Visit(config, nodes, revision, list, answers).0 == nodes <==> LeavesAlone(config, nodes, list[..n], answers[..n])
  {
    VisitStops(config, nodes, revision, list, answers, n);
    assert list[..n][..n - 1] == list[..n - 1] && answers[..n][..n - 1] == answers[..n - 1];
    VisitExplained(config, nodes, revision, list[..n], answers[..n]);
    ExplainedUnchanged(config, nodes, list[..n], answers[..n], Visit(config, nodes, revision, list, answers).0);
  }

  lemma ExplainedUnchanged(config: Config, nodes: NodeMap, list: seq<Node>, answers: seq<VmAnswer>, after: NodeMap)
    requires |list| == |answers| && Explains(config, nodes, list, answers, after)
    ensures after == nodes <==> LeavesAlone(config, nodes, list, answers)
  {
    if after == nodes {
      forall i | 0 <= i < |list| && list[i].name !in nodes ensures !Enters(config, list[i], answers[i]) {
        assert !Entered(config, list, answers, list[i].name);
      }
    }
    if LeavesAlone(config, nodes, list, answers) {
      assert forall k :: k in after ==> k in nodes;
    }
  }

  /** The shortest failed call that changes the registry: the first node enters, and the lookup of
      the second fails. */
  lemma FailureCanChangeNodes(config: Config, s: State, first: Node, second: Node, vmId: string, network: string)
    requires first.name != second.name && first.name !in s.nodes && second.name !in s.nodes
    requires Enters(config, first, Vm(vmId, [network]))
    ensures var (s', ok) := Update(config, s, [first, second], [Vm(vmId, [network]), VmError]);
            !ok && s'.nodes.Keys == s.nodes.Keys + {first.name} && s'.nodes != s.nodes
  {
    var list, answers := [first, second], [Vm(vmId, [network]), VmError];
    var revision := s.revision + 1;
    assert list[..1] == [first] && answers[..1] == [Vm(vmId, [network])];
    assert [first][..0] == [] && [Vm(vmId, [network])][..0] == [];
    assert Visit(config, s.nodes, revision, [], []) == (s.nodes, true);
    var (one, ok) := Visit(config, s.nodes, revision, list[..1], answers[..1]);
    assert (one, ok) == VisitNode(config, s.nodes, revision, first, Vm(vmId, [network]));
    assert Visit(config, s.nodes, revision, list, answers) == VisitNode(config, one, revision, second, VmError);
  }

  /** One call with its arguments. */
  datatype Call = Call(list: seq<Node>, answers: seq<VmAnswer>)

  /** States of a run: from the empty registry, each state follows from some call. */
  ghost predicate IsRun(config: Config, states: seq<State>, calls: seq<Call>) {
    && |states| == |calls| + 1 && states[0] == EMPTY
    && forall i :: 0 <= i < |calls| ==>
         |calls[i].list| == |calls[i].answers| && states[i + 1] == Update(config, states[i], calls[i].list, calls[i].answers).0
  }

  lemma {:induction false} RunConsistent(config: Config, states: seq<State>, calls: seq<Call>, i: nat)
    requires IsRun(config, states, calls) && i < |states|
    ensures Consistent(states[i])
    ensures i > 0 ==> states[i - 1].revision <= states[i].revision
  {
    if i > 0 {
      RunConsistent(config, states, calls, i - 1);
      UpdateKeepsConsistent(config, states[i - 1], calls[i - 1].list, calls[i - 1].answers);
    }
  }

  /** In every run, errors included, a node that stays present keeps its VM, its network and the
      revision of the call that inserted it. */
  lemma {:induction false} RunKeepsIdentity(config: Config, states: seq<State>, calls: seq<Call>, first: nat, last: nat, name: string)
    requires IsRun(config, states, calls) && 0 < first <= last < |states|
    requires name !in states[first - 1].nodes
    requires forall k :: first <= k <= last ==> name in states[k].nodes
    ensures Identity(states[last].nodes[name]) == Identity(states[first].nodes[name])
    ensures states[last].nodes[name].revision == states[first].revision
    decreases last
  {
    RunConsistent(config, states, calls, last - 1);
    UpdateKeepsConsistent(config, states[last - 1], calls[last - 1].list, calls[last - 1].answers);
    if first < last {
      RunKeepsIdentity(config, states, calls, first, last - 1, name);
    }
  }

  // ------------------------------------------------------------------------------------
  // Selection

  /** Does the node serve the service: same environment, and same filter value and project when
      the service has them. */
  predicate Matches(config: Config, info: NodeInfo, service: Service) {
    var filter := if config.serviceFilterLabel != "" then ValueOrEmpty(GetLabelOrAnnotation(service.meta, config.serviceFilterLabel)) else "";
    var environment := EnvironmentFor(config, service.meta);
    var project := ProjectFor(config, service.meta, environment);
    && info.environmentId == environment
    && (filter != "" ==> info.filterValue == filter)
    && (project.Ok? && project.value != "" ==> info.projectId == project.value)
  }

  function MatchingNames(config: Config, nodes: NodeMap, service: Service): set<string> {
    set k | k in nodes && Matches(config, nodes[k], service)
  }

  /** `infos` lists the values of `nodes` at `names`, each once, in any order. */
  ghost predicate Enumerates(infos: seq<NodeInfo>, nodes: NodeMap, names: set<string>) {
    exists order: seq<string> ::
      && |order| == |infos|
      && (forall i :: 0 <= i < |order| ==> order[i] in nodes && infos[i] == nodes[order[i]])
      && (forall i, j :: 0 <= i < j < |order| ==> order[i] != order[j])
      && (forall k :: k in names <==> k in order)
  }

  function VmIds(config: Config, nodes: NodeMap, service: Service): set<string> {
    set k | k in MatchingNames(config, nodes, service) :: nodes[k].vmId
  }

  function NetworkIds(config: Config, nodes: NodeMap, service: Service): set<string> {
    set k | k in MatchingNames(config, nodes, service) :: nodes[k].networkId
  }

  ghost function TopRevision(nodes: NodeMap, names: set<string>): nat {
    MaxRevision(set k | k in names && k in nodes :: nodes[k].revision)
  }

  ghost function MaxRevision(s: set<nat>): (m: nat)
    ensures forall x :: x in s ==> x <= m
    ensures if s == {} then m == 0 else m in s
  {
    if s == {} then 0
    else
      var x :| x in s;
      var rest := MaxRevision(s - {x});
      assert forall y :: y in s ==> y == x || y in s - {x};
      if x > rest || s == {x} then x else rest
  }

  // ------------------------------------------------------------------------------------
  // What an entry ends with, and which nodes serve a service, from the labels

  /** No later node in the list has the same name. */
  ghost predicate LastOf(list: seq<Node>, k: nat) {
    k < |list| && forall j :: k < j < |list| ==> list[j].name != list[k].name
  }

  /** The entry agrees with the node's labels. Without a filter label in the configuration the filter
      value is the one from before. */
  ghost predicate Labelled(config: Config, info: NodeInfo, node: Node, before: string) {
    && info.environmentId == EnvironmentFor(config, node.meta)
    && ProjectFor(config, node.meta, info.environmentId) == Ok(info.projectId)
    && (forall name :: Says(node.meta, config.nodeNameLabel, name) ==> info.hostName == name)
    && (Silent(node.meta, config.nodeNameLabel) ==> info.hostName == node.name)
    && (config.nodeFilterLabel == "" ==> info.filterValue == before)
    && (config.nodeFilterLabel != "" ==>
          && (forall value :: Says(node.meta, config.nodeFilterLabel, value) ==> info.filterValue == value)
          && (Silent(node.meta, config.nodeFilterLabel) ==> info.filterValue == ""))
  }

  function FilterBefore(nodes: NodeMap, name: string): string {
    if name in nodes then nodes[name].filterValue else ""
  }

  lemma UpdatedIsLabelled(config: Config, info: NodeInfo, node: Node)
    ensures var (r, ok) := UpdateLabels(config, info, node); ok ==> Labelled(config, r, node, info.filterValue)
  {
    LookupExactly(node.meta, config.nodeNameLabel);
    LookupExactly(node.meta, config.nodeFilterLabel);
  }

  lemma VisitedIsLabelled(config: Config, nodes: NodeMap, revision: nat, node: Node, answer: VmAnswer)
    ensures var (after, ok) := VisitNode(config, nodes, revision, node, answer);
            ok && node.name in after ==> Labelled(config, after[node.name], node, FilterBefore(nodes, node.name))
  {
    if node.name in nodes {
      UpdatedIsLabelled(config, nodes[node.name], node);
    } else {
      UpdatedIsLabelled(config, NodeInfo(node.name, "", "", "", "", "", "", 0), node);
    }
  }

  /** Without a filter label no visit changes a filter value. */
  lemma {:induction false} FilterKept(config: Config, nodes: NodeMap, revision: nat, list: seq<Node>, answers: seq<VmAnswer>, name: string)
    requires |list| == |answers| && config.nodeFilterLabel == ""
    ensures FilterBefore(Visit(config, nodes, revision, list, answers).0, name) == FilterBefore(nodes, name)
  {
    if list != [] {
      FilterKept(config, nodes, revision, list[..|list| - 1], answers[..|list| - 1], name);
    }
  }

  /** After an accepted visit every entry has the labels of the last listed node with its name. */
  lemma {:induction false} EntriesLabelled(config: Config, nodes: NodeMap, revision: nat, list: seq<Node>, answers: seq<VmAnswer>, k: nat)
    requires |list| == |answers| && Visit(config, nodes, revision, list, answers).1 && LastOf(list, k)
    requires list[k].name in Visit(config, nodes, revision, list, answers).0
    ensures Labelled(config, Visit(config, nodes, revision, list, answers).0[list[k].name], list[k], FilterBefore(nodes, list[k].name))
  {
    var n := |list| - 1;
    var before := Visit(config, nodes, revision, list[..n], answers[..n]).0;
    if k == n {
      VisitedIsLabelled(config, before, revision, list[n], answers[n]);
      if config.nodeFilterLabel == "" {
        FilterKept(config, nodes, revision, list[..n], answers[..n], list[n].name);
      }
    } else {
      VisitedEntry(config, before, revision, list[n], answers[n]);
      EntriesLabelled(config, nodes, revision, list[..n], answers[..n], k);
    }
  }

  /** After a successful call every node has the labels of the last listed object with its name. */
  lemma UpdateLabelsExactly(config: Config, s: State, list: seq<Node>, answers: seq<VmAnswer>, k: nat)
    requires |list| == |answers| && Update(config, s, list, answers).1 && LastOf(list, k)
    requires list[k].name in Update(config, s, list, answers).0.nodes
    ensures Labelled(config, Update(config, s, list, answers).0.nodes[list[k].name], list[k], FilterBefore(s.nodes, list[k].name))
  {
    EntriesLabelled(config, s.nodes, s.revision + 1, list, answers, k);
  }

  /** The first listed node with the name that the lookup found. */
  ghost predicate FirstFound(list: seq<Node>, answers: seq<VmAnswer>, name: string, k: nat)
    requires |list| == |answers|
  {
    k < |list| && list[k].name == name && answers[k].Vm? && forall j :: 0 <= j < k && list[j].name == name ==> !answers[j].Vm?
  }

  /** A new entry has the VM that was found for it, and the network of the card that the configuration
      names, or else of the first card. */
  ghost predicate OnCard(config: Config, info: NodeInfo, answer: VmAnswer) {
    && answer.Vm? && |answer.nics| > 0 && info.vmId == answer.id
    && (0 <= config.externalIpIndex < |answer.nics| ==> info.networkId == answer.nics[config.externalIpIndex])
    && (!(0 <= config.externalIpIndex < |answer.nics|) ==> info.networkId == answer.nics[0])
  }

  lemma {:induction false} NewEntriesOnCard(config: Config, nodes: NodeMap, revision: nat, list: seq<Node>, answers: seq<VmAnswer>, name: string, k: nat)
    requires |list| == |answers| && Visit(config, nodes, revision, list, answers).1 && name !in nodes && FirstFound(list, answers, name, k)
    ensures name in Visit(config, nodes, revision, list, answers).0
    ensures OnCard(config, Visit(config, nodes, revision, list, answers).0[name], answers[k])
  {
    var n := |list| - 1;
    var before := Visit(config, nodes, revision, list[..n], answers[..n]).0;
    if k < n {
      NewEntriesOnCard(config, nodes, revision, list[..n], answers[..n], name, k);
    } else {
      NotFoundYet(config, nodes, revision, list[..n], answers[..n], name);
    }
  }

  lemma {:induction false} NotFoundYet(config: Config, nodes: NodeMap, revision: nat, list: seq<Node>, answers: seq<VmAnswer>, name: string)
    requires |list| == |answers| && Visit(config, nodes, revision, list, answers).1 && name !in nodes
    requires forall j :: 0 <= j < |list| && list[j].name == name ==> !answers[j].Vm?
    ensures name !in Visit(config, nodes, revision, list, answers).0
  {
    VisitDomain(config, nodes, revision, list, answers);
  }

  /** After a successful call a node that was not there before has the VM of its first successful
      lookup, and the network of that VM's external card. */
  lemma UpdateCardsExactly(config: Config, s: State, list: seq<Node>, answers: seq<VmAnswer>, name: string, k: nat)
    requires |list| == |answers| && Update(config, s, list, answers).1 && name !in s.nodes && FirstFound(list, answers, name, k)
    ensures var nodes := Update(config, s, list, answers).0.nodes;
            name in nodes && nodes[name].name == name && OnCard(config, nodes[name], answers[k])
  {
    NewEntriesOnCard(config, s.nodes, s.revision + 1, list, answers, name, k);
    VisitEvolves(config, s.nodes, s.revision + 1, list, answers);
    assert list[k].name in Names(list);
  }

  /** A node serves a service exactly when its labels say so: it is in the same environment; if the
      service names a filter value, the node has that one; and if the service's project is known and not
      empty, it is the node's project. */
  lemma SelectionExactly(config: Config, s: State, list: seq<Node>, answers: seq<VmAnswer>, k: nat, service: Service)
    requires |list| == |answers| && Update(config, s, list, answers).1 && LastOf(list, k)
    requires list[k].name in Update(config, s, list, answers).0.nodes && config.nodeFilterLabel != ""
    ensures list[k].name in MatchingNames(config, Update(config, s, list, answers).0.nodes, service) <==>
            var (node, environment) := (list[k], EnvironmentFor(config, list[k].meta));
            && environment == EnvironmentFor(config, service.meta)
            && (forall wanted :: wanted != "" && Says(service.meta, config.serviceFilterLabel, wanted) ==> Says(node.meta, config.nodeFilterLabel, wanted))
            && (forall project :: project != "" && ProjectFor(config, service.meta, environment) == Ok(project) ==>
                  ProjectFor(config, node.meta, environment) == Ok(project))
  {
    UpdateLabelsExactly(config, s, list, answers, k);
    LookupExactly(service.meta, config.serviceFilterLabel);
    LookupExactly(list[k].meta, config.nodeFilterLabel);
  }

  /** The same where the configuration has no filter label for nodes: then the filter value is the one
      the entry had, and none for a new one. */
  lemma SelectionWithoutFilter(config: Config, s: State, list: seq<Node>, answers: seq<VmAnswer>, k: nat, service: Service)
    requires |list| == |answers| && Update(config, s, list, answers).1 && LastOf(list, k)
    requires list[k].name in Update(config, s, list, answers).0.nodes && config.nodeFilterLabel == ""
    ensures list[k].name in MatchingNames(config, Update(config, s, list, answers).0.nodes, service) <==>
            var (node, environment) := (list[k], EnvironmentFor(config, list[k].meta));
            && environment == EnvironmentFor(config, service.meta)
            && (forall wanted :: wanted != "" && Says(service.meta, config.serviceFilterLabel, wanted) ==> FilterBefore(s.nodes, node.name) == wanted)
            && (forall project :: project != "" && ProjectFor(config, service.meta, environment) == Ok(project) ==>
                  ProjectFor(config, node.meta, environment) == Ok(project))
  {
    UpdateLabelsExactly(config, s, list, answers, k);
    LookupExactly(service.meta, config.serviceFilterLabel);
  }

  /** What a node must have: a project; and, while it is not registered, an environment with a
      CloudStack client and a lookup that either finds nothing or a VM with a network card. */
  ghost predicate Acceptable(config: Config, node: Node, known: bool, answer: VmAnswer) {
    var environment := EnvironmentFor(config, node.meta);
    && (exists project :: ProjectFor(config, node.meta, environment) == Ok(project))
    && (known || (environment in config.environments && (answer.VmNotFound? || (answer.Vm? && answer.nics != []))))
  }

  /** The node is registered by the time the call gets to number `i`. */
  ghost predicate KnownAt(nodes: NodeMap, list: seq<Node>, answers: seq<VmAnswer>, i: nat)
    requires |list| == |answers| && i < |list|
  {
    list[i].name in nodes || exists j :: 0 <= j < i && list[j].name == list[i].name && answers[j].Vm?
  }

  ghost predicate AcceptableAt(config: Config, nodes: NodeMap, list: seq<Node>, answers: seq<VmAnswer>, i: nat)
    requires |list| == |answers| && i < |list|
  {
    Acceptable(config, list[i], KnownAt(nodes, list, answers, i), answers[i])
  }

  ghost predicate AllAcceptable(config: Config, nodes: NodeMap, list: seq<Node>, answers: seq<VmAnswer>)
    requires |list| == |answers|
  {
    forall i :: 0 <= i < |list| ==> AcceptableAt(config, nodes, list, answers, i)
  }

  lemma KnownInPrefix(nodes: NodeMap, list: seq<Node>, answers: seq<VmAnswer>, n: nat, i: nat)
    requires |list| == |answers| && i < n <= |list|
    ensures KnownAt(nodes, list[..n], answers[..n], i) == KnownAt(nodes, list, answers, i)
  {
    var earlier, earlierAnswers := list[..n], answers[..n];
    if KnownAt(nodes, list, answers, i) && list[i].name !in nodes {
      var j :| 0 <= j < i && list[j].name == list[i].name && answers[j].Vm?;
      assert earlier[j].name == earlier[i].name && earlierAnswers[j].Vm?;
    }
    if KnownAt(nodes, earlier, earlierAnswers, i) && earlier[i].name !in nodes {
      var j :| 0 <= j < i && earlier[j].name == earlier[i].name && earlierAnswers[j].Vm?;
      assert list[j].name == list[i].name && answers[j].Vm?;
    }
  }

  lemma AcceptableInPrefix(config: Config, nodes: NodeMap, list: seq<Node>, answers: seq<VmAnswer>, n: nat, i: nat)
    requires |list| == |answers| && i < n <= |list|
    ensures AcceptableAt(config, nodes, list[..n], answers[..n], i) == AcceptableAt(config, nodes, list, answers, i)
  {
    KnownInPrefix(nodes, list, answers, n, i);
  }

  lemma AcceptableStep(config: Config, nodes: NodeMap, list: seq<Node>, answers: seq<VmAnswer>)
    requires |list| == |answers| > 0
    ensures var n := |list| - 1;
            AllAcceptable(config, nodes, list, answers) <==>
            AllAcceptable(config, nodes, list[..n], answers[..n]) && AcceptableAt(config, nodes, list, answers, n)
  {
    var n := |list| - 1;
    var earlier, earlierAnswers := list[..n], answers[..n];
    forall i | 0 <= i < n
      ensures AcceptableAt(config, nodes, earlier, earlierAnswers, i) == AcceptableAt(config, nodes, list, answers, i)
    {
      AcceptableInPrefix(config, nodes, list, answers, n, i);
    }
  }

  lemma {:induction false} VisitAcceptsExactly(config: Config, nodes: NodeMap, revision: nat, list: seq<Node>, answers: seq<VmAnswer>)
    requires |list| == |answers|
    ensures Visit(config, nodes, revision, list, answers).1 <==> AllAcceptable(config, nodes, list, answers)
  {
    if list != [] {
      var n := |list| - 1;
      var (before, ok) := Visit(config, nodes, revision, list[..n], answers[..n]);
      VisitAcceptsExactly(config, nodes, revision, list[..n], answers[..n]);
      AcceptableStep(config, nodes, list, answers);
      if ok {
        KnownExactly(config, nodes, revision, list, answers);
        AcceptedExactly(config, before, revision, list[n], answers[n]);
      }
    }
  }

  lemma KnownExactly(config: Config, nodes: NodeMap, revision: nat, list: seq<Node>, answers: seq<VmAnswer>)
    requires |list| == |answers| > 0 && Visit(config, nodes, revision, list[..|list| - 1], answers[..|list| - 1]).1
    ensures var n := |list| - 1;
            list[n].name in Visit(config, nodes, revision, list[..n], answers[..n]).0 <==> KnownAt(nodes, list, answers, n)
  {
    var n := |list| - 1;
    VisitDomain(config, nodes, revision, list[..n], answers[..n]);
    assert list[n].name in Found(list[..n], answers[..n]) <==> exists j :: 0 <= j < n && list[j].name == list[n].name && answers[j].Vm? by {
      if j :| 0 <= j < n && list[j].name == list[n].name && answers[j].Vm? {
        assert list[..n][j].name == list[n].name && answers[..n][j].Vm?;
      }
    }
  }

  lemma AcceptedExactly(config: Config, nodes: NodeMap, revision: nat, node: Node, answer: VmAnswer)
    ensures VisitNode(config, nodes, revision, node, answer).1 <==> Acceptable(config, node, node.name in nodes, answer)
  {
    var project := ProjectFor(config, node.meta, EnvironmentFor(config, node.meta));
    if project.Ok? {
      assert project == Ok(project.value);
    }
  }

  /** A call succeeds exactly when every node it is given is acceptable when its turn comes, and one of
      them was registered before or is found. */
  lemma UpdateSucceedsExactly(config: Config, s: State, list: seq<Node>, answers: seq<VmAnswer>)
    requires |list| == |answers|
    ensures Update(config, s, list, answers).1 <==>
            && AllAcceptable(config, s.nodes, list, answers)
            && exists i :: 0 <= i < |list| && (list[i].name in s.nodes || answers[i].Vm?)
  {
    VisitAcceptsExactly(config, s.nodes, s.revision + 1, list, answers);
    if AllAcceptable(config, s.nodes, list, answers) {
      KeptExactly(config, s, list, answers);
    } else {
      RejectedFails(config, s, list, answers);
    }
  }

  lemma {:induction false} RejectedFails(config: Config, s: State, list: seq<Node>, answers: seq<VmAnswer>)
    requires |list| == |answers| && !Visit(config, s.nodes, s.revision + 1, list, answers).1
    ensures !Update(config, s, list, answers).1
  {
  }

  lemma {:induction false} KeptExactly(config: Config, s: State, list: seq<Node>, answers: seq<VmAnswer>)
    requires |list| == |answers| && Visit(config, s.nodes, s.revision + 1, list, answers).1
    ensures Update(config, s, list, answers).1 <==> exists i :: 0 <= i < |list| && (list[i].name in s.nodes || answers[i].Vm?)
  {
    VisitDomain(config, s.nodes, s.revision + 1, list, answers);
    if Update(config, s, list, answers).1 {
      UpdateSuccess(config, s, list, answers);
      var k :| k in Update(config, s, list, answers).0.nodes.Keys;
      KeptFrom(s.nodes, list, answers, k);
    }
    if i :| 0 <= i < |list| && (list[i].name in s.nodes || answers[i].Vm?) {
      KeepsSome(config, s, list, answers, list[i].name);
    }
  }

  lemma {:induction false} KeepsSome(config: Config, s: State, list: seq<Node>, answers: seq<VmAnswer>, name: string)
    requires |list| == |answers| && Visit(config, s.nodes, s.revision + 1, list, answers).1
    requires name in Names(list) && name in Visit(config, s.nodes, s.revision + 1, list, answers).0
    ensures Update(config, s, list, answers).1
  {
    var nodes := Visit(config, s.nodes, s.revision + 1, list, answers).0;
    var kept := map k | k in nodes && k in Names(list) :: nodes[k];
    assert name in kept.Keys;
    assert |kept| > 0;
  }

  lemma KeptFrom(nodes: NodeMap, list: seq<Node>, answers: seq<VmAnswer>, name: string)
    requires |list| == |answers| && name in Names(list) && name in nodes.Keys + Found(list, answers)
    ensures exists i :: 0 <= i < |list| && (list[i].name in nodes || answers[i].Vm?)
  {
    if name in nodes {
      var i :| 0 <= i < |list| && list[i].name == name;
    } else {
      var i :| 0 <= i < |list| && answers[i].Vm? && list[i].name == name;
    }
  }

  // ------------------------------------------------------------------------------------
  // The registry object

  class Registry {
    const config: Config
    var nodes: NodeMap
    var svcNodes: map<ServiceKey, set<string>>
    var revision: nat

    constructor (config: Config)
      ensures this.config == config && Abstract() == EMPTY && svcNodes == map[]
    {
      this.config := config;
      nodes, svcNodes, revision := map[], map[], 0;
    }

    function Abstract(): State
      reads this
    {
      State(nodes, revision)
    }

    method VisitOne(n: Node, answer: VmAnswer) returns (ok: bool)
      modifies this`nodes
      ensures (nodes, ok) == VisitNode(config, old(nodes), revision, n, answer)
    {
      if n.name in nodes {
        var (info, updated) := UpdateLabels(config, nodes[n.name], n);
        nodes := nodes[n.name := info];
        return updated;
      }
      var created := NewNodeInfo(config, n, answer);
      if created.Err? {
        return false;
      }
      if created.value.Some? {
        nodes := nodes[n.name := created.value.value.(revision := revision)];
      }
      return true;
    }

    /** The loop of updateNodes; `answers[i]` is what the VM lookup returns if node `i` has to be
        looked up. */
    method VisitAll(list: seq<Node>, answers: seq<VmAnswer>) returns (ok: bool, visited: set<string>)
      requires |list| == |answers|
      modifies this`nodes
      ensures (nodes, ok) == Visit(config, old(nodes), revision, list, answers)
      ensures ok ==> visited == Names(list)
    {
      visited := {};
      for i := 0 to |list|
        invariant Visit(config, old(nodes), revision, list[..i], answers[..i]) == (nodes, true)
        invariant visited == Names(list[..i])
      {
        assert list[..i + 1][..i] == list[..i] && answers[..i + 1][..i] == answers[..i];
        NamesStep(list, i);
        visited := visited + {list[i].name};
        var visitedOk := VisitOne(list[i], answers[i]);
        if !visitedOk {
          VisitStops(config, old(nodes), revision, list, answers, i + 1);
          return false, visited;
        }
      }
      assert list[..|list|] == list && answers[..|list|] == answers;
      ok := true;
    }

    method UpdateNodes(list: seq<Node>, answers: seq<VmAnswer>) returns (ok: bool)
      requires |list| == |answers|
      modifies this`nodes, this`revision
      ensures (Abstract(), ok) == Update(config, old(Abstract()), list, answers)
    {
      if |list| == 0 {
        return false;
      }
      revision := revision + 1;
      var visited;
      ok, visited := VisitAll(list, answers);
      if !ok {
        return false;
      }
      nodes := map k | k in nodes && k in visited :: nodes[k];
      ok := |nodes| > 0;
    }

    /** The nodes for a service, in the map's unspecified order; an error when there is none. */
    method NodesForService(service: Service) returns (infos: Result<seq<NodeInfo>>)
      ensures infos.Err? <==> MatchingNames(config, nodes, service) == {}
      ensures infos.Ok? ==> Enumerates(infos.value, nodes, MatchingNames(config, nodes, service))
    {
      var found: seq<NodeInfo> := [];
      ghost var order: seq<string> := [];
      var todo := nodes.Keys;
      while todo != {}
        invariant todo <= nodes.Keys
        invariant |order| == |found|
        invariant forall i :: 0 <= i < |order| ==> order[i] in nodes.Keys - todo && found[i] == nodes[order[i]]
        invariant forall i, j :: 0 <= i < j < |order| ==> order[i] != order[j]
        invariant forall k :: k in order <==> k in nodes.Keys - todo && Matches(config, nodes[k], service)
        decreases |todo|
      {
        var name :| name in todo;
        todo := todo - {name};
        if Matches(config, nodes[name], service) {
          found := found + [nodes[name]];
          order := order + [name];
        }
      }
      assert forall k :: k in MatchingNames(config, nodes, service) <==> k in order;
      if |found| == 0 {
        return Err;
      }
      assert order[0] in order;
      return Ok(found);
    }

    /** The newest revision among the known nodes that run the service's endpoints; 0 for none. */
    method TopRevisionOf(key: ServiceKey) returns (top: nat)
      ensures top == TopRevision(nodes, if key in svcNodes then svcNodes[key] else {})
    {
      var names := if key in svcNodes then svcNodes[key] else {};
      ghost var revisions := set k | k in names && k in nodes :: nodes[k].revision;
      var todo := names;
      top := 0;
      while todo != {}
        invariant todo <= names
        invariant forall k :: k in names - todo && k in nodes ==> nodes[k].revision <= top
        invariant top == 0 || top in revisions
        decreases |todo|
      {
        var name :| name in todo;
        todo := todo - {name};
        if name in nodes && nodes[name].revision > top {
          top := nodes[name].revision;
        }
      }
      assert forall x :: x in revisions ==> x <= top;
      assert TopRevision(nodes, names) == MaxRevision(revisions);
    }

    /** Records which nodes run the service: every address that names a node. */
    method UpdateEndpointsNodes(key: ServiceKey, subsets: seq<seq<Option<string>>>)
      modifies this`svcNodes
      ensures svcNodes == old(svcNodes)[key := EndpointNodes(subsets)]
    {
      var nodeSet: set<string> := {};
      for i := 0 to |subsets|
        invariant nodeSet == EndpointNodes(subsets[..i]) && svcNodes == old(svcNodes)
      {
        EndpointStep(subsets, i);
        for j := 0 to |subsets[i]|
          invariant nodeSet == EndpointNodes(subsets[..i]) + AddressNodes(subsets[i][..j])
          invariant svcNodes == old(svcNodes)
        {
          AddressStep(subsets[i], j);
          if subsets[i][j].Some? {
            nodeSet := nodeSet + {subsets[i][j].value};
          }
        }
        assert subsets[i][..|subsets[i]|] == subsets[i];
      }
      assert subsets[..|subsets|] == subsets;
      svcNodes := svcNodes[key := nodeSet];
    }

    method DeleteEndpointsNodes(key: ServiceKey)
      modifies this`svcNodes
      ensures svcNodes == old(svcNodes) - {key}
    {
      svcNodes := svcNodes - {key};
    }
  }

  lemma NamesStep(list: seq<Node>, i: nat)
    requires i < |list|
    ensures Names(list[..i + 1]) == Names(list[..i]) + {list[i].name}
  {
    assert list[..i + 1][i] == list[i];
    forall x | x in Names(list[..i]) ensures x in Names(list[..i + 1]) {
      var k :| 0 <= k < i && list[..i][k].name == x;
      assert list[..i + 1][k].name == x;
    }
    forall x | x in Names(list[..i + 1]) ensures x in Names(list[..i]) + {list[i].name} {
      var k :| 0 <= k < i + 1 && list[..i + 1][k].name == x;
      if k < i { assert list[..i][k].name == x; }
    }
  }

  lemma {:induction false} VisitStops(config: Config, nodes: NodeMap, revision: nat, list: seq<Node>, answers: seq<VmAnswer>, k: nat)
    requires |list| == |answers| && k <= |list|
    requires !Visit(config, nodes, revision, list[..k], answers[..k]).1
    ensures Visit(config, nodes, revision, list, answers) == Visit(config, nodes, revision, list[..k], answers[..k])
    decreases |list| - k
  {
    if k < |list| {
      assert list[..k + 1][..k] == list[..k] && answers[..k + 1][..k] == answers[..k];
      VisitStops(config, nodes, revision, list, answers, k + 1);
    } else {
      assert list[..k] == list && answers[..k] == answers;
    }
  }

  function AddressNodes(addresses: seq<Option<string>>): set<string> {
    set j | 0 <= j < |addresses| && addresses[j].Some? :: addresses[j].value
  }

  function EndpointNodes(subsets: seq<seq<Option<string>>>): set<string> {
    set i, j | 0 <= i < |subsets| && 0 <= j < |subsets[i]| && subsets[i][j].Some? :: subsets[i][j].value
  }

  lemma AddressStep(addresses: seq<Option<string>>, j: nat)
    requires j < |addresses|
    ensures AddressNodes(addresses[..j + 1]) ==
            AddressNodes(addresses[..j]) + (if addresses[j].Some? then {addresses[j].value} else {})
  {
    var before, after := addresses[..j], addresses[..j + 1];
    assert after == before + [addresses[j]];
    forall x | x in AddressNodes(after) ensures x in AddressNodes(before) || addresses[j] == Some(x) {
      var k :| 0 <= k < |after| && after[k] == Some(x);
      if k < j { assert before[k] == Some(x); }
    }
    forall x | x in AddressNodes(before) ensures x in AddressNodes(after) {
      var k :| 0 <= k < |before| && before[k] == Some(x);
      assert after[k] == Some(x);
    }
    assert after[j] == addresses[j];
  }

  lemma EndpointStep(subsets: seq<seq<Option<string>>>, i: nat)
    requires i < |subsets|
    ensures EndpointNodes(subsets[..i + 1]) == EndpointNodes(subsets[..i]) + AddressNodes(subsets[i])
  {
    var before, after := subsets[..i], subsets[..i + 1];
    assert after == before + [subsets[i]];
    forall x | x in EndpointNodes(after) ensures x in EndpointNodes(before) + AddressNodes(subsets[i]) {
      var k, j :| 0 <= k < |after| && 0 <= j < |after[k]| && after[k][j] == Some(x);
      if k < i { assert before[k][j] == Some(x); } else { assert subsets[i][j] == Some(x); }
    }
    forall x | x in EndpointNodes(before) ensures x in EndpointNodes(after) {
      var k, j :| 0 <= k < |before| && 0 <= j < |before[k]| && before[k][j] == Some(x);
      assert after[k][j] == Some(x);
    }
    forall x | x in AddressNodes(subsets[i]) ensures x in EndpointNodes(after) {
      var j :| 0 <= j < |subsets[i]| && subsets[i][j] == Some(x);
      assert after[i][j] == Some(x);
    }
  }

  // ------------------------------------------------------------------------------------
  // idsForNodes

  function NetworkSet(infos: seq<NodeInfo>): set<string> {
    set i | 0 <= i < |infos| :: infos[i].networkId
  }

  /** The hosts in order, the networks once each and sorted, and the project of the last node. */
  method IdsForNodes(infos: seq<NodeInfo>) returns (hostIds: seq<string>, networkIds: seq<string>, projectId: string)
    ensures hostIds == seq(|infos|, i requires 0 <= i < |infos| => infos[i].vmId)
    ensures Sorted(networkIds, Strings.Less) && (forall x :: x in networkIds <==> x in NetworkSet(infos))
    ensures Distinct(networkIds)
    ensures projectId == if infos == [] then "" else infos[|infos| - 1].projectId
  {
    hostIds, projectId := [], "";
    var networks: set<string> := {};
    for i := 0 to |infos|
      invariant |hostIds| == i && forall k :: 0 <= k < i ==> hostIds[k] == infos[k].vmId
      invariant networks == set k | 0 <= k < i :: infos[k].networkId
      invariant projectId == if i == 0 then "" else infos[i - 1].projectId
    {
      hostIds := hostIds + [infos[i].vmId];
      networks := networks + {infos[i].networkId};
      projectId := infos[i].projectId;
    }
    networkIds := Ports.SortedList(networks);
  }
}
