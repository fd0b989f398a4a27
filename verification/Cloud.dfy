/** CloudStack as the load balancer controller sees it: rules, public addresses and their tags,
    one atomic request at a time, each of which may fail with or without taking effect.

    Names of rules are not unique here, and a repeated tag key may be refused or stored twice:
    nothing the controller must ensure itself is left to the server. */
module Cloud {
  import opened Wrappers
  import opened Kube
  import opened Tags
  import Ports
  import Strings

  datatype Rule = Rule(id: string, name: string, algorithm: string, publicIp: string, publicIpId: string,
                       networkId: string, ports: Ports.RulePorts, tags: seq<Tag>)

  datatype PublicIp = PublicIp(id: string, address: string, networkId: string, tags: seq<Tag>)

  /** `usedRules` and `usedIps` are all the IDs ever given out: the server does not reuse them. */
  datatype State = State(rules: map<string, Rule>, ips: map<string, PublicIp>, usedRules: set<string>, usedIps: set<string>)

  ghost predicate WellFormed(c: State) {
    && (forall id :: id in c.rules ==> c.rules[id].id == id && id in c.usedRules)
    && (forall id :: id in c.ips ==> c.ips[id].id == id && id in c.usedIps)
  }

  datatype Resource = OnRule(id: string) | OnIp(id: string)

  datatype Request =
    | ListRulesByKeyword(keyword: string)
    | ListRulesByTag(service: string)
    | ListIpsByTag(service: string)
    | ListIpsByAddress(address: string)
    | ListIpsById(id: string)
    | GetNetwork(network: string)
    | AssociateIp(network: string)
    | DisassociateIp(id: string)
    | CreateTag(resource: Resource, tag: Tag)
    | CreateRule(name: string, algorithm: string, ports: Ports.RulePorts, publicIpId: string, networkId: string)
    | UpdateRule(id: string, algorithm: string)
    | DeleteRule(id: string)
    | PushUpdate

  /** `AlreadyExists` is an error whose text says so; `Failed` is every other error. */
  datatype Response =
    | Failed
    | AlreadyExists
    | Done
    | Rules(rules: seq<Rule>)
    | Ips(ips: seq<PublicIp>)
    | NewIp(ip: PublicIp)
    | NewRule(rule: Rule)

  predicate IsRead(req: Request) {
    || req.ListRulesByKeyword? || req.ListRulesByTag? || req.ListIpsByTag? || req.ListIpsByAddress? || req.ListIpsById?
    || req.GetNetwork? || req.PushUpdate?
  }

  // ------------------------------------------------------------------------------------
  // Listings

  /** What a rule listing must include; it may include more. */
  predicate AsksForRule(req: Request, r: Rule) {
    match req
    case ListRulesByKeyword(keyword) => Strings.Contains(r.name, keyword)
    case ListRulesByTag(service) => Tag(SERVICE_TAG, service) in r.tags
    case _ => false
  }

  predicate AsksForIp(req: Request, ip: PublicIp) {
    match req
    case ListIpsByTag(service) => Tag(SERVICE_TAG, service) in ip.tags
    case ListIpsByAddress(address) => ip.address == address
    case ListIpsById(id) => ip.id == id
    case _ => false
  }

  ghost predicate ListsRules(c: State, req: Request, xs: seq<Rule>) {
    && (forall i :: 0 <= i < |xs| ==> xs[i].id in c.rules && c.rules[xs[i].id] == xs[i])
    && (forall i, j :: 0 <= i < j < |xs| ==> xs[i].id != xs[j].id)
    && (forall id :: id in c.rules && AsksForRule(req, c.rules[id]) ==> c.rules[id] in xs)
  }

  ghost predicate ListsIps(c: State, req: Request, xs: seq<PublicIp>) {
    && (forall i :: 0 <= i < |xs| ==> xs[i].id in c.ips && c.ips[xs[i].id] == xs[i])
    && (forall i, j :: 0 <= i < j < |xs| ==> xs[i].id != xs[j].id)
    && (forall id :: id in c.ips && AsksForIp(req, c.ips[id]) ==> c.ips[id] in xs)
    && (!req.ListIpsByTag? ==> forall i :: 0 <= i < |xs| ==> AsksForIp(req, xs[i]))
  }

  /** The elements of a listing that pass the client's own filter, in order. */
  function Select<T>(xs: seq<T>, keep: T -> bool): seq<T> {
    if xs == [] then []
    else
      var earlier := Select(xs[..|xs| - 1], keep);
      if keep(xs[|xs| - 1]) then earlier + [xs[|xs| - 1]] else earlier
  }

  datatype Pick<+T> = Nobody | One(value: T) | Many

  function PickOnly<T>(xs: seq<T>): Pick<T> {
    if |xs| == 0 then Nobody else if |xs| == 1 then One(xs[0]) else Many
  }

  /** Counts the elements that pass and remembers the last one. */
  method PickUnique<T>(xs: seq<T>, keep: T -> bool) returns (pick: Pick<T>)
    ensures pick == PickOnly(Select(xs, keep))
  {
    var count := 0;
    pick := Nobody;
    for i := 0 to |xs|
      invariant count == |Select(xs[..i], keep)|
      invariant count == 0 ==> pick == Nobody
      invariant count > 0 ==> pick == One(Select(xs[..i], keep)[count - 1])
    {
      assert xs[..i + 1][..i] == xs[..i];
      if keep(xs[i]) {
        pick := One(xs[i]);
        count := count + 1;
      }
    }
    assert xs[..|xs|] == xs;
    if count > 1 {
      pick := Many;
    }
  }

  lemma {:induction false} SelectMember<T>(xs: seq<T>, keep: T -> bool, x: T)
    ensures x in Select(xs, keep) <==> x in xs && keep(x)
  {
    if xs != [] {
      SelectMember(xs[..|xs| - 1], keep, x);
      assert xs == xs[..|xs| - 1] + [xs[|xs| - 1]];
    }
  }

  /** With distinct elements, two different ones that pass make a selection of more than one. */
  lemma {:induction false} PickedIsOnly<T>(xs: seq<T>, keep: T -> bool, x: T)
    requires x in xs && keep(x)
    ensures PickOnly(Select(xs, keep)) != Nobody
    ensures PickOnly(Select(xs, keep)).One? ==> PickOnly(Select(xs, keep)).value == x
  {
    SelectMember(xs, keep, x);
  }

  lemma {:induction false} PickedIsKept<T>(xs: seq<T>, keep: T -> bool)
    requires PickOnly(Select(xs, keep)).One?
    ensures var x := PickOnly(Select(xs, keep)).value; x in xs && keep(x)
  {
    SelectMember(xs, keep, PickOnly(Select(xs, keep)).value);
  }

  lemma {:induction false} NobodyKept<T>(xs: seq<T>, keep: T -> bool)
    requires PickOnly(Select(xs, keep)).Nobody?
    ensures forall x :: x in xs ==> !keep(x)
  {
    forall x | x in xs ensures !keep(x) { SelectMember(xs, keep, x); }
  }

  // ------------------------------------------------------------------------------------
  // Effects

  function AddTag(c: State, resource: Resource, tag: Tag): State {
    match resource
    case OnRule(id) => if id in c.rules then c.(rules := c.rules[id := c.rules[id].(tags := c.rules[id].tags + [tag])]) else c
    case OnIp(id) => if id in c.ips then c.(ips := c.ips[id := c.ips[id].(tags := c.ips[id].tags + [tag])]) else c
  }

  function TagsOf(c: State, resource: Resource): Option<seq<Tag>> {
    match resource
    case OnRule(id) => if id in c.rules then Some(c.rules[id].tags) else None
    case OnIp(id) => if id in c.ips then Some(c.ips[id].tags) else None
  }

  function AddRule(c: State, r: Rule): State {
    c.(rules := c.rules[r.id := r], usedRules := c.usedRules + {r.id})
  }

  function AddIp(c: State, ip: PublicIp): State {
    c.(ips := c.ips[ip.id := ip], usedIps := c.usedIps + {ip.id})
  }

  /** A rule the server may make for a CreateRule request. */
  predicate MakesRule(c: State, req: Request, r: Rule)
    requires req.CreateRule?
  {
    && r.id !in c.usedRules && req.publicIpId in c.ips
    && r == Rule(r.id, req.name, req.algorithm, c.ips[req.publicIpId].address, req.publicIpId, req.networkId, req.ports, [])
  }

  predicate MakesIp(c: State, ip: PublicIp) {
    ip.id !in c.usedIps && ip.id != "" && ip.address != "" && ip.tags == []
  }

  /** The effect of a write that succeeds, with its response. */
  ghost predicate Succeeds(c: State, req: Request, resp: Response, c': State) {
    match req
    case AssociateIp(_) => resp.NewIp? && MakesIp(c, resp.ip) && c' == AddIp(c, resp.ip)
    case DisassociateIp(id) => resp.Done? && id in c.ips && c' == c.(ips := c.ips - {id})
    case CreateTag(resource, tag) => resp.Done? && TagsOf(c, resource).Some? && c' == AddTag(c, resource, tag)
    case CreateRule(_, _, _, _, _) => resp.NewRule? && MakesRule(c, req, resp.rule) && c' == AddRule(c, resp.rule)
    case UpdateRule(id, algorithm) =>
      resp.Done? && id in c.rules && c' == c.(rules := c.rules[id := c.rules[id].(algorithm := algorithm)])
    case DeleteRule(id) => resp.Done? && c' == c.(rules := c.rules - {id})
    case _ => false
  }

  /** Every answer that is not an error. */
  ghost predicate Healthy(c: State, req: Request, resp: Response, c': State) {
    match req
    case ListRulesByKeyword(_) => c' == c && resp.Rules? && ListsRules(c, req, resp.rules)
    case ListRulesByTag(_) => c' == c && resp.Rules? && ListsRules(c, req, resp.rules)
    case ListIpsByTag(_) => c' == c && resp.Ips? && ListsIps(c, req, resp.ips)
    case ListIpsByAddress(_) => c' == c && resp.Ips? && ListsIps(c, req, resp.ips)
    case ListIpsById(_) => c' == c && resp.Ips? && ListsIps(c, req, resp.ips)
    case GetNetwork(_) => c' == c && resp.Done?
    case PushUpdate => c' == c && resp.Done?
    case CreateTag(resource, tag) =>
      || Succeeds(c, req, resp, c')
      || (resp.AlreadyExists? && c' == c && TagsOf(c, resource).Some? && HasKey(TagsOf(c, resource).value, tag.key))
    case _ => Succeeds(c, req, resp, c')
  }

  /** Any answer at all: a failed write may have taken effect. */
  ghost predicate Serve(c: State, req: Request, resp: Response, c': State) {
    || Healthy(c, req, resp, c')
    || (resp.Failed? && (c' == c || exists ok :: Succeeds(c, req, ok, c')))
  }

  lemma CanFail(c: State, req: Request)
    ensures Serve(c, req, Failed, c)
  {
  }

  lemma ServeKeepsWellFormed(c: State, req: Request, resp: Response, c': State)
    requires WellFormed(c) && Serve(c, req, resp, c')
    ensures WellFormed(c') && c.usedRules <= c'.usedRules && c.usedIps <= c'.usedIps
  {
  }
}
