/** How error-free calls end, in every case, and the exact cloud they leave. */
module ReconcilerOutcome {
  import opened Wrappers
  import opened Kube
  import opened Tags
  import opened Cloud
  import opened Reconciler
  import opened ReconcilerFixpoint
  import opened ReconcilerDeletion
  import opened ReconcilerAddresses
  import Ports
  import Strings

  // ------------------------------------------------------------------------------------
  // Ends of runs

  /** The cloud with other tags on the rule. */
  function Retagged(c: State, id: string, tags: seq<Tag>): State
    requires id in c.rules
  {
    c.(rules := c.rules[id := c.rules[id].(tags := tags)])
  }

  /** Some of the service's own tags have been added to the rule, and nothing else has changed. */
  ghost predicate TagsAdded(c: State, id: string, service: ServiceKey, end: State) {
    && id in c.rules
    && exists added: seq<Tag> ::
         && (forall i :: 0 <= i < |added| ==> added[i] in OwnTags(service))
         && end == Retagged(c, id, c.rules[id].tags + added)
  }

  function OwnTags(service: ServiceKey): set<Tag> {
    {Tag(CLOUD_PROVIDER_TAG, PROVIDER), Tag(SERVICE_TAG, service.name), Tag(NAMESPACE_TAG, service.namespace)}
  }

  lemma OwnTagIsOwn(service: ServiceKey, i: nat)
    requires i < |TAG_ORDER|
    ensures OwnTag(service, i) in OwnTags(service)
  {
    TagKeys(service);
  }

  lemma NothingAdded(c: State, id: string, service: ServiceKey)
    requires id in c.rules
    ensures TagsAdded(c, id, service, c)
  {
    var none: seq<Tag> := [];
    assert c.rules[id].tags + none == c.rules[id].tags;
    assert c.rules[id := c.rules[id]] == c.rules;
  }

  lemma RetaggedTwice(c: State, id: string, tags: seq<Tag>, tags': seq<Tag>)
    requires id in c.rules
    ensures Retagged(Retagged(c, id, tags), id, tags') == Retagged(c, id, tags')
  {
  }

  lemma OneMoreTag(c: State, id: string, service: ServiceKey, i: nat, end: State)
    requires id in c.rules && i < |TAG_ORDER| && TagsAdded(AddTag(c, OnRule(id), OwnTag(service, i)), id, service, end)
    ensures TagsAdded(c, id, service, end)
  {
    var (tag, c') := (OwnTag(service, i), AddTag(c, OnRule(id), OwnTag(service, i)));
    var added: seq<Tag> :|
      && (forall i :: 0 <= i < |added| ==> added[i] in OwnTags(service))
      && end == Retagged(c', id, c'.rules[id].tags + added);
    OwnTagIsOwn(service, i);
    assert c.rules[id].tags + [tag] + added == c.rules[id].tags + ([tag] + added);
    RetaggedTwice(c, id, c.rules[id].tags + [tag], c.rules[id].tags + ([tag] + added));
  }

  lemma {:induction false} PushEnds(l: Local, c: State, xs: seq<Exchange>)
    requires l.Busy? && l.pc == Push && HealthyRun(l, c, xs) && EndLocal(l, xs).Finished?
    ensures EndLocal(l, xs) == Finished(Status(l.ip.address, l.ctx.lbName)) && EndCloud(c, xs) == c
  {
    LastAnswer(l, c, xs);
  }

  lemma RuleTagHealthy(l: Local, x: Exchange, c: State)
    requires l.Busy? && l.pc.TagRule? && l.rule.Some? && l.rule.value.id in c.rules && l.pc.i < |TAG_ORDER|
    requires Healthy(c, Issue(l), x.resp, x.cloud)
    ensures Resume(l, x.resp) == if l.pc.i + 1 < |TAG_ORDER| then l.(pc := TagRule(l.pc.i + 1)) else l.(pc := Push)
    ensures x.cloud == c || x.cloud == AddTag(c, OnRule(l.rule.value.id), OwnTag(l.ctx.service, l.pc.i))
  {
    TagRuleTaken(l, x.resp);
  }

  lemma {:induction false} TagEnds(l: Local, c: State, xs: seq<Exchange>)
    requires l.Busy? && l.pc.TagRule? && l.rule.Some? && l.rule.value.id in c.rules && l.pc.i < |TAG_ORDER|
    requires HealthyRun(l, c, xs) && EndLocal(l, xs).Finished?
    ensures EndLocal(l, xs) == Finished(Status(l.ip.address, l.ctx.lbName))
    ensures TagsAdded(c, l.rule.value.id, l.ctx.service, EndCloud(c, xs))
    decreases |xs|
  {
    RunGoesOn(l, c, xs);
    RuleTagHealthy(l, xs[0], c);
    var (id, service, l', c', rest) := (l.rule.value.id, l.ctx.service, Resume(l, xs[0].resp), xs[0].cloud, xs[1..]);
    if l.pc.i + 1 < |TAG_ORDER| {
      TagEnds(l', c', rest);
    } else {
      PushEnds(l', c', rest);
      NothingAdded(c', id, service);
    }
    if c' != c {
      OneMoreTag(c, id, service, l.pc.i, EndCloud(c', rest));
    }
  }

  /** The tags of a fresh rule or address, in the order of the requests. */
  function AllTags(service: ServiceKey): seq<Tag> {
    [Tag(CLOUD_PROVIDER_TAG, PROVIDER), Tag(NAMESPACE_TAG, service.namespace), Tag(SERVICE_TAG, service.name)]
  }

  lemma {:induction false} FirstIsAll(service: ServiceKey)
    ensures FirstTags(service, |TAG_ORDER|) == AllTags(service)
  {
    TagKeys(service);
    assert FirstTags(service, 1) == [OwnTag(service, 0)];
    assert FirstTags(service, 2) == [OwnTag(service, 0), OwnTag(service, 1)];
  }

  lemma FreshTagStep(l: Local, x: Exchange, c: State)
    requires l.Busy? && l.pc.TagRule? && l.rule.Some? && l.rule.value.id in c.rules && l.pc.i < |TAG_ORDER|
    requires c.rules[l.rule.value.id].tags == FirstTags(l.ctx.service, l.pc.i) && Healthy(c, Issue(l), x.resp, x.cloud)
    ensures x.cloud == Retagged(c, l.rule.value.id, FirstTags(l.ctx.service, l.pc.i + 1))
  {
    FirstTagsLack(l.ctx.service, l.pc.i);
    OwnTagKey(l.ctx.service, l.pc.i);
  }

  lemma {:induction false} FreshTagEnds(l: Local, c: State, xs: seq<Exchange>)
    requires l.Busy? && l.pc.TagRule? && l.rule.Some? && l.rule.value.id in c.rules && l.pc.i < |TAG_ORDER|
    requires c.rules[l.rule.value.id].tags == FirstTags(l.ctx.service, l.pc.i)
    requires HealthyRun(l, c, xs) && EndLocal(l, xs).Finished?
    ensures EndLocal(l, xs) == Finished(Status(l.ip.address, l.ctx.lbName))
    ensures EndCloud(c, xs) == Retagged(c, l.rule.value.id, AllTags(l.ctx.service))
    decreases |xs|
  {
    RunGoesOn(l, c, xs);
    RuleTagHealthy(l, xs[0], c);
    FreshTagStep(l, xs[0], c);
    var (id, l', c', rest) := (l.rule.value.id, Resume(l, xs[0].resp), xs[0].cloud, xs[1..]);
    if l.pc.i + 1 < |TAG_ORDER| {
      FreshTagEnds(l', c', rest);
    } else {
      PushEnds(l', c', rest);
      FirstIsAll(l.ctx.service);
    }
  }

  /** A new rule for the service on the address, with the requested ports and algorithm and exactly
      the service's own tags; nothing else has changed. */
  ghost predicate Made(c: State, ctx: Ctx, ip: string, network: string, end: State) {
    && ip in c.ips && ctx.algorithm.Some? && ctx.ports.Ok?
    && exists id: string ::
         && id !in c.usedRules
         && end == AddRule(c, Rule(id, ctx.lbName, ctx.algorithm.value, c.ips[ip].address, ip, network,
                                   Ports.CreatedPorts(ctx.ports.value), AllTags(ctx.service)))
  }

  lemma CreateHealthy(l: Local, x: Exchange, c: State)
    requires l.Busy? && l.pc == Create && l.ctx.algorithm.Some? && l.ctx.ports.Ok? && Healthy(c, Issue(l), x.resp, x.cloud)
    ensures x.resp.NewRule? && Resume(l, x.resp) == l.(rule := Some(x.resp.rule), pc := TagRule(0))
    ensures x.cloud == AddRule(c, x.resp.rule) && x.resp.rule.id !in c.usedRules && l.ip.id in c.ips
    ensures x.resp.rule == Rule(x.resp.rule.id, l.ctx.lbName, l.ctx.algorithm.value, c.ips[l.ip.id].address, l.ip.id, l.network,
                                Ports.CreatedPorts(l.ctx.ports.value), [])
  {
  }

  lemma {:induction false} CreateEnds(l: Local, c: State, xs: seq<Exchange>)
    requires l.Busy? && l.pc == Create && l.ctx.algorithm.Some? && l.ctx.ports.Ok?
    requires HealthyRun(l, c, xs) && EndLocal(l, xs).Finished?
    ensures EndLocal(l, xs) == Finished(Status(l.ip.address, l.ctx.lbName))
    ensures Made(c, l.ctx, l.ip.id, l.network, EndCloud(c, xs))
  {
    RunGoesOn(l, c, xs);
    CreateHealthy(l, xs[0], c);
    var r, c', rest := xs[0].resp.rule, xs[0].cloud, xs[1..];
    FreshTagEnds(Resume(l, xs[0].resp), c', rest);
    assert EndCloud(c', rest) == AddRule(c, r.(tags := AllTags(l.ctx.service)));
  }

  // ------------------------------------------------------------------------------------
  // From checkLoadBalancerRule on

  /** The rule as it is but for the algorithm. */
  function Balanced(c: State, id: string, algorithm: string): State
    requires id in c.rules
  {
    c.(rules := c.rules[id := c.rules[id].(algorithm := algorithm)])
  }

  /** The rule is kept: it has the requested algorithm, what was missing of its tags has been added, and
      nothing else has changed. */
  ghost predicate Kept(c: State, id: string, ctx: Ctx, end: State)
  {
    && id in c.rules && ctx.algorithm.Some?
    && TagsAdded(Balanced(c, id, ctx.algorithm.value), id, ctx.service, end)
    && (!HasMissingKeys(c.rules[id].tags) ==> end == Balanced(c, id, ctx.algorithm.value))
  }

  lemma {:induction false} RuleUpdatedEnds(l: Local, c: State, xs: seq<Exchange>)
    requires l.Busy? && l.rule.Some? && l.rule.value.id in c.rules && l.ctx.algorithm.Some?
    requires c.rules[l.rule.value.id].algorithm == l.ctx.algorithm.value
    requires HealthyRun(RuleUpdated(l), c, xs) && EndLocal(RuleUpdated(l), xs).Finished?
    ensures EndLocal(RuleUpdated(l), xs) == Finished(Status(l.ip.address, l.ctx.lbName))
    ensures TagsAdded(c, l.rule.value.id, l.ctx.service, EndCloud(c, xs))
    ensures !HasMissingKeys(l.rule.value.tags) ==> EndCloud(c, xs) == c
  {
    if HasMissingKeys(l.rule.value.tags) {
      TagEnds(l.(pc := TagRule(0)), c, xs);
    } else {
      PushEnds(l.(pc := Push), c, xs);
      NothingAdded(c, l.rule.value.id, l.ctx.service);
    }
  }

  lemma UpdateHealthy(l: Local, x: Exchange, c: State)
    requires l.Busy? && l.pc == Update && l.rule.Some? && l.ctx.algorithm.Some? && Healthy(c, Issue(l), x.resp, x.cloud)
    ensures l.rule.value.id in c.rules && x.cloud == Balanced(c, l.rule.value.id, l.ctx.algorithm.value)
    ensures Resume(l, x.resp) == RuleUpdated(l)
  {
  }

  /** The rule at hand has the right ports and name. */
  lemma {:induction false} GoodRuleEnds(l: Local, c: State, xs: seq<Exchange>)
    requires l.Busy? && l.ctx.ports.Ok? && l.ctx.algorithm.Some? && l.rule.Some?
    requires l.rule.value.id in c.rules && c.rules[l.rule.value.id] == l.rule.value
    requires Ports.SamePorts(l.ctx.ports.value, l.rule.value.ports) && l.rule.value.name == l.ctx.lbName
    requires HealthyRun(CheckRule(l), c, xs) && EndLocal(CheckRule(l), xs).Finished?
    ensures EndLocal(CheckRule(l), xs) == Finished(Status(l.ip.address, l.ctx.lbName))
    ensures Kept(c, l.rule.value.id, l.ctx, EndCloud(c, xs))
  {
    var id, algorithm := l.rule.value.id, l.ctx.algorithm.value;
    if l.rule.value.algorithm == algorithm {
      RuleUpdatedEnds(l, c, xs);
      assert c.rules[id].(algorithm := algorithm) == c.rules[id] && c.rules[id := c.rules[id]] == c.rules;
      assert Balanced(c, id, algorithm) == c;
    } else {
      var l' := l.(pc := Update);
      RunGoesOn(l', c, xs);
      UpdateHealthy(l', xs[0], c);
      RuleUpdatedEnds(l', xs[0].cloud, xs[1..]);
    }
  }

  lemma DropHealthy(l: Local, x: Exchange, c: State)
    requires l.Busy? && l.pc == DropRuleForPorts && l.rule.Some? && Healthy(c, Issue(l), x.resp, x.cloud)
    ensures x.cloud == c.(rules := c.rules - {l.rule.value.id}) && Resume(l, x.resp) == l.(rule := None, pc := Create)
  {
  }

  /** The rule at hand has other ports, or another name. */
  lemma {:induction false} BadRuleEnds(l: Local, c: State, xs: seq<Exchange>)
    requires l.Busy? && l.ctx.ports.Ok? && l.ctx.algorithm.Some? && l.rule.Some?
    requires !(Ports.SamePorts(l.ctx.ports.value, l.rule.value.ports) && l.rule.value.name == l.ctx.lbName)
    requires HealthyRun(CheckRule(l), c, xs) && EndLocal(CheckRule(l), xs).Finished?
    ensures EndLocal(CheckRule(l), xs) == Finished(Status(l.ip.address, l.ctx.lbName))
    ensures Made(c.(rules := c.rules - {l.rule.value.id}), l.ctx, l.ip.id, l.network, EndCloud(c, xs))
  {
    var l' := l.(pc := DropRuleForPorts);
    assert CheckRule(l) == l';
    RunGoesOn(l', c, xs);
    DropHealthy(l', xs[0], c);
    CreateEnds(l'.(rule := None, pc := Create), xs[0].cloud, xs[1..]);
  }

  /** No rule at hand. */
  lemma {:induction false} NoRuleEnds(l: Local, c: State, xs: seq<Exchange>)
    requires l.Busy? && l.ctx.algorithm.Some? && l.rule.None?
    requires HealthyRun(CheckRule(l), c, xs) && EndLocal(CheckRule(l), xs).Finished?
    ensures if l.ctx.ports.Err? then EndLocal(CheckRule(l), xs) == Finished(Error) && EndCloud(c, xs) == c
            else && EndLocal(CheckRule(l), xs) == Finished(Status(l.ip.address, l.ctx.lbName))
                 && Made(c, l.ctx, l.ip.id, l.network, EndCloud(c, xs))
  {
    if l.ctx.ports.Ok? {
      CreateEnds(l.(pc := Create), c, xs);
    }
  }

  // ------------------------------------------------------------------------------------
  // Ensure with a balancer

  predicate Fit(ctx: Ctx, r: Rule) {
    ctx.algorithm.Some? && ShouldManageLb(r.tags, ctx.service, ctx.ingress, ctx.lbName)
  }

  predicate SameAddress(ctx: Ctx, r: Rule) {
    ctx.specIp == "" || r.publicIp == ctx.specIp
  }

  predicate SameRule(ctx: Ctx, r: Rule) {
    ctx.ports.Ok? && Ports.SamePorts(ctx.ports.value, r.ports) && r.name == ctx.lbName
  }

  lemma FoundBalancer(ctx: Ctx, r: Rule)
    requires r.publicIpId != "" && r.publicIp != ""
    ensures var (found, known) := (Found(Start(Ensure, ctx), Some(r)),
                                   Busy(Ensure, ctx, ListByName, Some(r), IpRef(r.publicIpId, r.publicIp, r.networkId), NO_IP, r.networkId));
            found == if !Fit(ctx, r) then Finished(Error) else if SameAddress(ctx, r) then CheckRule(known) else known.(pc := FindNewIp)
  {
  }

  /** The addresses without this one, if it carries the service's tags. */
  function Released(ips: map<string, PublicIp>, id: string, service: ServiceKey): map<string, PublicIp> {
    if id in ips && ShouldManageIp(ips[id].tags, service) then ips - {id} else ips
  }

  /** The cloud after the old address has been dealt with: it is gone if it carries the service's tags. */
  function Freed(c: State, ip: string, service: ServiceKey): State {
    c.(ips := Released(c.ips, ip, service))
  }

  /** How a call without a rule ends on an address: bad ports are an error, and otherwise there is a new
      rule on it. */
  ghost predicate Placed(c: State, ctx: Ctx, ip: string, address: string, network: string, end: State, outcome: Outcome) {
    if ctx.ports.Err? then outcome == Error && end == c
    else outcome == Status(address, ctx.lbName) && Made(c, ctx, ip, network, end)
  }

  /** The call has refused to do anything. */
  predicate Refused(c: State, end: State, outcome: Outcome) {
    outcome == Error && end == c
  }

  /** How an error-free Ensure for a service with this rule ends, in every case. It is refused for an
      unsupported affinity or a rule that is not the service's. On the right address it is refused for
      bad ports; a rule with the right ports and name is kept, and any other gives way to a new one on
      the same address and network. For another address, which must be there, and only once, the old
      rule goes before the old address and the ports are looked at. */
  ghost predicate EndsWithRule(ctx: Ctx, c: State, id: string, end: State, outcome: Outcome)
    requires id in c.rules
  {
    var r, dropped := c.rules[id], c.(rules := c.rules - {id});
    if ctx.algorithm.None? || !OwnLb(r.tags, ctx.service, ctx.ingress, ctx.lbName) then Refused(c, end, outcome)
    else if ctx.specIp == "" || r.publicIp == ctx.specIp then
      if ctx.ports.Err? then Refused(c, end, outcome)
      else
        && outcome == Status(r.publicIp, ctx.lbName)
        && (if Ports.SamePorts(ctx.ports.value, r.ports) && r.name == ctx.lbName then Kept(c, id, ctx, end)
            else Made(dropped, ctx, r.publicIpId, r.networkId, end))
    else
      && ((forall ip :: !OnlyAt(c, ctx.specIp, ip)) ==> Refused(c, end, outcome))
      && (forall ip :: OnlyAt(c, ctx.specIp, ip) ==>
            if r.publicIpId !in c.ips then outcome == Error && end == dropped
            else Placed(Freed(dropped, r.publicIpId, ctx.service), ctx, ip, ctx.specIp, r.networkId, end, outcome))
  }

  lemma {:induction false} EnsureOnSameAddress(ctx: Ctx, c: State, id: string, xs: seq<Exchange>)
    requires Sound(c) && IsBalancer(c, ctx, id) && SameAddress(ctx, c.rules[id])
    requires HealthyRun(Start(Ensure, ctx), c, xs) && EndLocal(Start(Ensure, ctx), xs).Finished?
    ensures EndsWithRule(ctx, c, id, EndCloud(c, xs), EndLocal(Start(Ensure, ctx), xs).outcome)
  {
    var r := c.rules[id];
    LbOwnershipExactly(r.tags, ctx.service, ctx.ingress, ctx.lbName);
    BalancerFound(Ensure, ctx, c, id, xs);
    var found := Found(Start(Ensure, ctx), Some(r));
    var n: nat :| Continues(Start(Ensure, ctx), c, xs, found, n);
    FoundBalancer(ctx, r);
    var known := Busy(Ensure, ctx, ListByName, Some(r), IpRef(r.publicIpId, r.publicIp, r.networkId), NO_IP, r.networkId);
    if !Fit(ctx, r) || ctx.ports.Err? {
      assert found == Finished(Error) && xs[n..] == [];
    } else if SameRule(ctx, r) {
      GoodRuleEnds(known, c, xs[n..]);
    } else {
      BadRuleEnds(known, c, xs[n..]);
    }
  }

  // ------------------------------------------------------------------------------------
  // Replacing an address

  lemma FetchAnswered(l: Local, x: Exchange, c: State)
    requires l.Busy? && l.pc == FetchOldIp && Healthy(c, Issue(l), x.resp, x.cloud)
    ensures x.cloud == c
    ensures l.oldIp.id !in c.ips ==> Resume(l, x.resp) == Finished(Error)
    ensures l.oldIp.id in c.ips && c.ips[l.oldIp.id].id == l.oldIp.id ==>
              Resume(l, x.resp) == if ShouldManageIp(c.ips[l.oldIp.id].tags, l.ctx.service) then l.(pc := ReleaseOldIp) else CheckRule(l)
  {
    var ips := x.resp.ips;
    forall i | 0 <= i < |ips| ensures ips[i].id == l.oldIp.id { assert AsksForIp(ListIpsById(l.oldIp.id), ips[i]); }
    IdsCount(ips);
    if l.oldIp.id in c.ips && c.ips[l.oldIp.id].id == l.oldIp.id {
      assert AsksForIp(ListIpsById(l.oldIp.id), c.ips[l.oldIp.id]);
      assert c.ips[l.oldIp.id] in ips;
      assert IdsOf(ips) == {l.oldIp.id};
    }
  }

  lemma ReleaseHealthy(l: Local, x: Exchange, c: State)
    requires l.Busy? && l.pc == ReleaseOldIp && Healthy(c, Issue(l), x.resp, x.cloud)
    ensures l.oldIp.id in c.ips && x.cloud == c.(ips := c.ips - {l.oldIp.id}) && Resume(l, x.resp) == CheckRule(l)
  {
  }

  lemma CheckSame(l: Local, pc: Pc)
    requires l.Busy?
    ensures CheckRule(l.(pc := pc)) == CheckRule(l)
  {
  }

  /** From reading the old address back on. */
  lemma {:induction false} OldAddressEnds(l: Local, c: State, xs: seq<Exchange>)
    requires WellFormed(c) && l.Busy? && l.pc == FetchOldIp && l.rule.None? && l.ctx.algorithm.Some?
    requires HealthyRun(l, c, xs) && EndLocal(l, xs).Finished?
    ensures if l.oldIp.id !in c.ips then EndLocal(l, xs) == Finished(Error) && EndCloud(c, xs) == c
            else Placed(Freed(c, l.oldIp.id, l.ctx.service), l.ctx, l.ip.id, l.ip.address, l.network, EndCloud(c, xs), EndLocal(l, xs).outcome)
  {
    RunGoesOn(l, c, xs);
    FetchAnswered(l, xs[0], c);
    var l', rest := Resume(l, xs[0].resp), xs[1..];
    if l.oldIp.id in c.ips {
      if ShouldManageIp(c.ips[l.oldIp.id].tags, l.ctx.service) {
        RunGoesOn(l', c, rest);
        ReleaseHealthy(l', rest[0], c);
        CheckSame(l, ReleaseOldIp);
        NoRuleEnds(l, rest[0].cloud, rest[1..]);
      } else {
        NoRuleEnds(l, c, rest);
      }
    }
  }

  lemma DropForIpHealthy(l: Local, x: Exchange, c: State)
    requires l.Busy? && l.pc == DropRuleForIp && l.rule.Some? && Healthy(c, Issue(l), x.resp, x.cloud)
    ensures x.cloud == c.(rules := c.rules - {l.rule.value.id}) && Resume(l, x.resp) == IpSwapped(l.(rule := None))
  {
  }

  /** The requested address in place of the balancer's: it must be there, and only once. */
  lemma NewAddressTaken(l: Local, c: State, xs: seq<Exchange>)
    requires WellFormed(c) && l.Busy? && l.pc == FindNewIp && HealthyRun(l, c, xs) && EndLocal(l, xs).Finished?
    requires exists ip :: OnlyAt(c, l.ctx.specIp, ip)
    ensures forall ip :: OnlyAt(c, l.ctx.specIp, ip) ==>
              var swapped := l.(oldIp := l.ip, ip := RefOf(c.ips[ip]));
              var l' := if l.rule.Some? then swapped.(pc := DropRuleForIp) else IpSwapped(swapped);
              HealthyRun(l', c, xs[1..]) && EndLocal(l', xs[1..]) == EndLocal(l, xs) && EndCloud(c, xs[1..]) == EndCloud(c, xs)
  {
    RunGoesOn(l, c, xs);
    AddressAnswer(c, l.ctx.specIp, xs[0].resp, xs[0].cloud);
    NewIpAnswered(l, xs[0].resp);
  }

  lemma {:induction false} NewAddressMissing(l: Local, c: State, xs: seq<Exchange>)
    requires WellFormed(c) && l.Busy? && l.pc == FindNewIp && HealthyRun(l, c, xs) && EndLocal(l, xs).Finished?
    requires forall ip :: !OnlyAt(c, l.ctx.specIp, ip)
    ensures EndLocal(l, xs) == Finished(Error) && EndCloud(c, xs) == c
  {
    RunGoesOn(l, c, xs);
    AddressAnswer(c, l.ctx.specIp, xs[0].resp, xs[0].cloud);
    NewIpAnswered(l, xs[0].resp);
  }

  lemma {:induction false} EnsureOnOtherAddress(ctx: Ctx, c: State, id: string, xs: seq<Exchange>)
    requires Sound(c) && IsBalancer(c, ctx, id) && ctx.specIp != "" && c.rules[id].publicIp != ctx.specIp
    requires HealthyRun(Start(Ensure, ctx), c, xs) && EndLocal(Start(Ensure, ctx), xs).Finished?
    ensures EndsWithRule(ctx, c, id, EndCloud(c, xs), EndLocal(Start(Ensure, ctx), xs).outcome)
  {
    var r := c.rules[id];
    LbOwnershipExactly(r.tags, ctx.service, ctx.ingress, ctx.lbName);
    BalancerFound(Ensure, ctx, c, id, xs);
    var found := Found(Start(Ensure, ctx), Some(r));
    var n: nat :| Continues(Start(Ensure, ctx), c, xs, found, n);
    FoundBalancer(ctx, r);
    if !Fit(ctx, r) {
      assert found == Finished(Error) && xs[n..] == [];
    } else if forall ip :: !OnlyAt(c, ctx.specIp, ip) {
      NewAddressMissing(found, c, xs[n..]);
    } else {
      NewAddressTaken(found, c, xs[n..]);
      forall ip | OnlyAt(c, ctx.specIp, ip)
        ensures if r.publicIpId !in c.ips then EndLocal(found, xs[n..]).outcome == Error && EndCloud(c, xs) == c.(rules := c.rules - {id})
                else Placed(Freed(c.(rules := c.rules - {id}), r.publicIpId, ctx.service), ctx, ip, ctx.specIp, r.networkId,
                            EndCloud(c, xs), EndLocal(found, xs[n..]).outcome)
      {
        var l := found.(oldIp := found.ip, ip := RefOf(c.ips[ip]), pc := DropRuleForIp);
        SwapEnds(l, c, xs[n..][1..]);
      }
    }
  }

  /** Without API errors, a successful Ensure for a service that asks for another address than its
      balancer has, found by name or by tags, drops the old rule and releases the old address exactly
      when that carries the service's tags; every other address stays as it is. */
  lemma {:induction false} SwapReleasesExactly(ctx: Ctx, c: State, id: string, xs: seq<Exchange>)
    requires Sound(c) && IsBalancer(c, ctx, id) && ctx.specIp != "" && c.rules[id].publicIp != ctx.specIp
    requires HealthyRun(Start(Ensure, ctx), c, xs) && IsStatus(EndLocal(Start(Ensure, ctx), xs))
    ensures EndCloud(c, xs).ips == Released(c.ips, c.rules[id].publicIpId, ctx.service)
    ensures id !in EndCloud(c, xs).rules
  {
    EnsureOnOtherAddress(ctx, c, id, xs);
    var ip :| OnlyAt(c, ctx.specIp, ip);
    var freed := Freed(c.(rules := c.rules - {id}), c.rules[id].publicIpId, ctx.service);
    MadeRules(freed, ctx, ip, c.rules[id].networkId, EndCloud(c, xs), id);
  }

  /** The rule an Ensure call has found is still there at the end exactly when its ports, its name and
      its address are the requested ones. */
  lemma {:induction false} RuleKeptExactly(ctx: Ctx, c: State, id: string, xs: seq<Exchange>)
    requires Sound(c) && IsBalancer(c, ctx, id)
    requires HealthyRun(Start(Ensure, ctx), c, xs) && IsStatus(EndLocal(Start(Ensure, ctx), xs))
    ensures id in EndCloud(c, xs).rules <==> SameAddress(ctx, c.rules[id]) && SameRule(ctx, c.rules[id])
  {
    if SameAddress(ctx, c.rules[id]) {
      EnsureOnSameAddress(ctx, c, id, xs);
      if !SameRule(ctx, c.rules[id]) {
        MadeRules(c.(rules := c.rules - {id}), ctx, c.rules[id].publicIpId, c.rules[id].networkId, EndCloud(c, xs), id);
      }
    } else {
      SwapReleasesExactly(ctx, c, id, xs);
    }
  }

  lemma MadeRules(c: State, ctx: Ctx, ip: string, network: string, end: State, gone: string)
    requires Made(c, ctx, ip, network, end) && gone in c.usedRules && gone !in c.rules
    ensures gone !in end.rules && end.ips == c.ips
  {
  }

  /** From dropping the rule for the new address on. */
  lemma {:induction false} SwapEnds(l: Local, c: State, xs: seq<Exchange>)
    requires WellFormed(c) && l.Busy? && l.pc == DropRuleForIp && l.rule.Some? && l.oldIp.Valid() && l.ctx.algorithm.Some?
    requires HealthyRun(l, c, xs) && EndLocal(l, xs).Finished?
    ensures var dropped := c.(rules := c.rules - {l.rule.value.id});
            if l.oldIp.id !in c.ips then EndLocal(l, xs) == Finished(Error) && EndCloud(c, xs) == dropped
            else Placed(Freed(dropped, l.oldIp.id, l.ctx.service), l.ctx, l.ip.id, l.ip.address, l.network, EndCloud(c, xs), EndLocal(l, xs).outcome)
  {
    RunGoesOn(l, c, xs);
    DropForIpHealthy(l, xs[0], c);
    OldAddressEnds(l.(rule := None, pc := FetchOldIp), xs[0].cloud, xs[1..]);
  }

  // ------------------------------------------------------------------------------------
  // Ensure without a rule

  /** The cloud with other tags on the address. */
  function IpRetagged(c: State, ip: string, tags: seq<Tag>): State
    requires ip in c.ips
  {
    c.(ips := c.ips[ip := c.ips[ip].(tags := tags)])
  }

  predicate OnlyOwn(tags: seq<Tag>, service: ServiceKey) {
    forall i :: 0 <= i < |tags| ==> tags[i] in OwnTags(service)
  }

  /** How an error-free Ensure on a tagged address ends: it places the rule there, or on the requested
      address, and then the tagged one goes if it carries the service's tags. */
  ghost predicate EndsOnTagged(ctx: Ctx, c: State, ip: string, end: State, outcome: Outcome)
    requires ip in c.ips
  {
    var tagged := c.ips[ip];
    if ctx.specIp == "" || tagged.address == ctx.specIp then Placed(c, ctx, ip, tagged.address, tagged.networkId, end, outcome)
    else
      && ((forall other :: !OnlyAt(c, ctx.specIp, other)) ==> Refused(c, end, outcome))
      && (forall other :: OnlyAt(c, ctx.specIp, other) ==>
            Placed(Freed(c, ip, ctx.service), ctx, other, ctx.specIp, tagged.networkId, end, outcome))
  }

  /** On the address in the service's status: it gets those of the service's tags whose keys it lacks. */
  ghost predicate EndsOnAdopted(ctx: Ctx, c: State, ip: string, end: State, outcome: Outcome)
    requires ip in c.ips
  {
    var adopted := c.ips[ip];
    exists added: seq<Tag> ::
      && OnlyOwn(added, ctx.service) && !HasMissingKeys(adopted.tags + added)
      && Placed(IpRetagged(c, ip, adopted.tags + added), ctx, ip, adopted.address, adopted.networkId, end, outcome)
  }

  /** On a new address, which gets exactly the service's tags. */
  ghost predicate EndsOnNew(ctx: Ctx, c: State, end: State, outcome: Outcome) {
    exists ip: PublicIp ::
      MakesIp(c, ip) && Placed(AddIp(c, ip.(tags := AllTags(ctx.service))), ctx, ip.id, ip.address, ip.networkId, end, outcome)
  }

  predicate StatusAddress(ctx: Ctx) {
    |ctx.ingress| > 0 && ctx.ingress[0].ip != ""
  }

  /** Without a tagged address: the requested one, or the one in the status if it exists, or a new one. */
  ghost predicate EndsUntagged(ctx: Ctx, c: State, end: State, outcome: Outcome) {
    if ctx.specIp != "" then
      && ((forall ip :: !OnlyAt(c, ctx.specIp, ip)) ==> Refused(c, end, outcome))
      && (forall ip :: OnlyAt(c, ctx.specIp, ip) ==> Placed(c, ctx, ip, ctx.specIp, c.ips[ip].networkId, end, outcome))
    else if StatusAddress(ctx) && exists ip :: ip in c.ips && c.ips[ip].address == ctx.ingress[0].ip then
      && ((forall ip :: !OnlyAt(c, ctx.ingress[0].ip, ip)) ==> Refused(c, end, outcome))
      && (forall ip :: OnlyAt(c, ctx.ingress[0].ip, ip) ==> EndsOnAdopted(ctx, c, ip, end, outcome))
    else EndsOnNew(ctx, c, end, outcome)
  }

  ghost predicate EndsWithoutRule(ctx: Ctx, c: State, end: State, outcome: Outcome) {
    if ctx.algorithm.None? then Refused(c, end, outcome)
    else
      && (forall ip :: OnlyTaggedIp(c, ctx.service, ip) ==> EndsOnTagged(ctx, c, ip, end, outcome))
      && (TwoTaggedIps(c, ctx.service) ==> Refused(c, end, outcome))
      && (NoIpTagged(c, ctx.service) ==> EndsUntagged(ctx, c, end, outcome))
  }

  lemma IpTagHealthy(l: Local, x: Exchange, c: State)
    requires l.Busy? && l.pc.TagIp? && l.pc.i < |TAG_ORDER| && Healthy(c, Issue(l), x.resp, x.cloud)
    ensures l.ip.id in c.ips
    ensures Resume(l, x.resp) == if l.pc.i + 1 < |TAG_ORDER| then l.(pc := TagIp(l.pc.i + 1)) else GotIp(l, l.ip)
    ensures || x.cloud == AddTag(c, OnIp(l.ip.id), OwnTag(l.ctx.service, l.pc.i))
            || (x.cloud == c && HasKey(c.ips[l.ip.id].tags, OwnTag(l.ctx.service, l.pc.i).key))
  {
  }

  /** The call with its address in hand and no rule. */
  predicate Adopting(l: Local) {
    l.Busy? && l.pc.TagIp? && l.pc.i < |TAG_ORDER| && l.rule.None? && l.ctx.specIp == "" && l.ctx.algorithm.Some?
  }

  lemma {:induction false} TaggedIpEnds(l: Local, c: State, xs: seq<Exchange>)
    requires Adopting(l) && HealthyRun(GotIp(l, l.ip), c, xs) && EndLocal(GotIp(l, l.ip), xs).Finished?
    ensures Placed(c, l.ctx, l.ip.id, l.ip.address, l.ip.network, EndCloud(c, xs), EndLocal(GotIp(l, l.ip), xs).outcome)
  {
    var l' := l.(network := l.ip.network);
    assert GotIp(l, l.ip) == CheckRule(l');
    NoRuleEnds(l', c, xs);
  }

  lemma {:induction false} FreshIpEnds(l: Local, c: State, xs: seq<Exchange>)
    requires Adopting(l) && l.ip.id in c.ips && c.ips[l.ip.id].tags == FirstTags(l.ctx.service, l.pc.i)
    requires HealthyRun(l, c, xs) && EndLocal(l, xs).Finished?
    ensures Placed(IpRetagged(c, l.ip.id, AllTags(l.ctx.service)), l.ctx, l.ip.id, l.ip.address, l.ip.network,
                   EndCloud(c, xs), EndLocal(l, xs).outcome)
    decreases |xs|
  {
    RunGoesOn(l, c, xs);
    IpTagHealthy(l, xs[0], c);
    FirstTagsLack(l.ctx.service, l.pc.i);
    OwnTagKey(l.ctx.service, l.pc.i);
    var (id, l', c', rest) := (l.ip.id, Resume(l, xs[0].resp), xs[0].cloud, xs[1..]);
    assert c' == IpRetagged(c, id, FirstTags(l.ctx.service, l.pc.i + 1));
    if l.pc.i + 1 < |TAG_ORDER| {
      FreshIpEnds(l', c', rest);
      assert IpRetagged(c', id, AllTags(l.ctx.service)) == IpRetagged(c, id, AllTags(l.ctx.service));
    } else {
      FirstIsAll(l.ctx.service);
      TaggedIpEnds(l, c', rest);
    }
  }

  ghost predicate AdoptedEnds(l: Local, c: State, added: seq<Tag>, end: State, outcome: Outcome)
    requires l.Busy? && l.ip.id in c.ips
  {
    && OnlyOwn(added, l.ctx.service) && !HasMissingKeys(c.ips[l.ip.id].tags + added)
    && Placed(IpRetagged(c, l.ip.id, c.ips[l.ip.id].tags + added), l.ctx, l.ip.id, l.ip.address, l.ip.network, end, outcome)
  }

  lemma AllKeysThere(tags: seq<Tag>)
    requires forall k :: 0 <= k < |TAG_ORDER| ==> HasKey(tags, TAG_ORDER[k])
    ensures !HasMissingKeys(tags)
  {
    assert TAG_ORDER[0] == CLOUD_PROVIDER_TAG && TAG_ORDER[1] == NAMESPACE_TAG && TAG_ORDER[2] == SERVICE_TAG;
  }

  /** One confirmed or repeated tagging request. */
  lemma AdoptionStep(l: Local, c: State, x: Exchange) returns (before: seq<Tag>)
    requires Adopting(l) && l.ip.id in c.ips && forall k :: 0 <= k < l.pc.i ==> HasKey(c.ips[l.ip.id].tags, TAG_ORDER[k])
    requires Healthy(c, Issue(l), x.resp, x.cloud)
    ensures OnlyOwn(before, l.ctx.service) && x.cloud == IpRetagged(c, l.ip.id, c.ips[l.ip.id].tags + before)
    ensures forall k :: 0 <= k <= l.pc.i ==> HasKey(c.ips[l.ip.id].tags + before, TAG_ORDER[k])
  {
    IpTagHealthy(l, x, c);
    OwnTagKey(l.ctx.service, l.pc.i);
    OwnTagIsOwn(l.ctx.service, l.pc.i);
    KeyAdded(c.ips[l.ip.id].tags, l.ctx.service, l.pc.i);
    Unchanged(c, l.ip.id);
    before := if x.cloud == AddTag(c, OnIp(l.ip.id), OwnTag(l.ctx.service, l.pc.i)) then [OwnTag(l.ctx.service, l.pc.i)] else [];
  }

  lemma AdoptedMore(l: Local, c: State, before: seq<Tag>, after: seq<Tag>, end: State, outcome: Outcome)
    requires l.Busy? && l.ip.id in c.ips && OnlyOwn(before, l.ctx.service)
    requires AdoptedEnds(l, IpRetagged(c, l.ip.id, c.ips[l.ip.id].tags + before), after, end, outcome)
    ensures AdoptedEnds(l, c, before + after, end, outcome)
  {
    var id, c' := l.ip.id, IpRetagged(c, l.ip.id, c.ips[l.ip.id].tags + before);
    assert c.ips[id].tags + (before + after) == c'.ips[id].tags + after;
    assert IpRetagged(c', id, c'.ips[id].tags + after) == IpRetagged(c, id, c.ips[id].tags + (before + after));
  }

  lemma {:induction false} AdoptedNow(l: Local, c: State, xs: seq<Exchange>)
    requires Adopting(l) && l.ip.id in c.ips && !HasMissingKeys(c.ips[l.ip.id].tags)
    requires HealthyRun(GotIp(l, l.ip), c, xs) && EndLocal(GotIp(l, l.ip), xs).Finished?
    ensures AdoptedEnds(l, c, [], EndCloud(c, xs), EndLocal(GotIp(l, l.ip), xs).outcome)
  {
    TaggedIpEnds(l, c, xs);
    Unchanged(c, l.ip.id);
  }

  lemma {:induction false} AdoptionEnds(l: Local, c: State, xs: seq<Exchange>) returns (added: seq<Tag>)
    requires Adopting(l) && l.ip.id in c.ips && forall k :: 0 <= k < l.pc.i ==> HasKey(c.ips[l.ip.id].tags, TAG_ORDER[k])
    requires HealthyRun(l, c, xs) && EndLocal(l, xs).Finished?
    ensures AdoptedEnds(l, c, added, EndCloud(c, xs), EndLocal(l, xs).outcome)
    decreases |xs|
  {
    RunGoesOn(l, c, xs);
    IpTagHealthy(l, xs[0], c);
    var before := AdoptionStep(l, c, xs[0]);
    var after: seq<Tag> := [];
    if l.pc.i + 1 < |TAG_ORDER| {
      after := AdoptionEnds(l.(pc := TagIp(l.pc.i + 1)), xs[0].cloud, xs[1..]);
    } else {
      AllKeysThere(xs[0].cloud.ips[l.ip.id].tags);
      AdoptedNow(l, xs[0].cloud, xs[1..]);
    }
    AdoptedMore(l, c, before, after, EndCloud(c, xs), EndLocal(l, xs).outcome);
    added := before + after;
  }

  lemma Unchanged(c: State, ip: string)
    requires ip in c.ips
    ensures c.ips[ip].tags + [] == c.ips[ip].tags && IpRetagged(c, ip, c.ips[ip].tags) == c
  {
    assert c.ips[ip := c.ips[ip]] == c.ips;
  }

  /** An address in hand, and no rule. */
  lemma {:induction false} GotTaggedEnds(l: Local, c: State, ip: string, xs: seq<Exchange>)
    requires Sound(c) && l.Busy? && l.rule.None? && l.ctx.algorithm.Some? && ip in c.ips
    requires HealthyRun(GotIp(l, RefOf(c.ips[ip])), c, xs) && EndLocal(GotIp(l, RefOf(c.ips[ip])), xs).Finished?
    ensures EndsOnTagged(l.ctx, c, ip, EndCloud(c, xs), EndLocal(GotIp(l, RefOf(c.ips[ip])), xs).outcome)
  {
    var known := l.(ip := RefOf(c.ips[ip]), network := c.ips[ip].networkId);
    if l.ctx.specIp == "" || c.ips[ip].address == l.ctx.specIp {
      assert GotIp(l, RefOf(c.ips[ip])) == CheckRule(known);
      NoRuleEnds(known, c, xs);
    } else {
      OtherAddressEnds(known.(pc := FindNewIp), c, ip, xs);
    }
  }

  lemma {:induction false} OtherAddressEnds(l: Local, c: State, ip: string, xs: seq<Exchange>)
    requires Sound(c) && l.Busy? && l.pc == FindNewIp && l.rule.None? && l.ctx.algorithm.Some?
    requires ip in c.ips && l.ip == RefOf(c.ips[ip]) && l.network == c.ips[ip].networkId
    requires l.ctx.specIp != "" && c.ips[ip].address != l.ctx.specIp
    requires HealthyRun(l, c, xs) && EndLocal(l, xs).Finished?
    ensures EndsOnTagged(l.ctx, c, ip, EndCloud(c, xs), EndLocal(l, xs).outcome)
  {
    if forall other :: !OnlyAt(c, l.ctx.specIp, other) {
      NewAddressMissing(l, c, xs);
    } else {
      NewAddressTaken(l, c, xs);
      forall other | OnlyAt(c, l.ctx.specIp, other)
        ensures Placed(Freed(c, ip, l.ctx.service), l.ctx, other, l.ctx.specIp, l.network, EndCloud(c, xs), EndLocal(l, xs).outcome)
      {
        var swapped := l.(oldIp := l.ip, ip := RefOf(c.ips[other]));
        assert IpSwapped(swapped) == swapped.(pc := FetchOldIp);
        OldAddressEnds(swapped.(pc := FetchOldIp), c, xs[1..]);
      }
    }
  }

  /** The call between its searches for an address. */
  predicate Searching(l: Local) {
    l.Busy? && l.rule.None? && l.ctx.algorithm.Some?
  }

  lemma {:induction false} SpecIpEnds(l: Local, c: State, xs: seq<Exchange>)
    requires Sound(c) && Searching(l) && l.pc == FindSpecIp && l.ctx.specIp != ""
    requires HealthyRun(l, c, xs) && EndLocal(l, xs).Finished?
    ensures EndsUntagged(l.ctx, c, EndCloud(c, xs), EndLocal(l, xs).outcome)
  {
    RunGoesOn(l, c, xs);
    AddressAnswer(c, l.ctx.specIp, xs[0].resp, xs[0].cloud);
    var ips := xs[0].resp.ips;
    if |ips| == 1 {
      GotTaggedEnds(l, c, ips[0].id, xs[1..]);
    }
  }

  lemma {:induction false} FreshTags(service: ServiceKey)
    ensures FirstTags(service, 0) == []
  {
  }

  lemma AssociateHealthy(l: Local, x: Exchange, c: State)
    requires l.Busy? && l.pc == Associate && Healthy(c, Issue(l), x.resp, x.cloud)
    ensures x.resp.NewIp? && MakesIp(c, x.resp.ip) && x.cloud == AddIp(c, x.resp.ip)
    ensures Resume(l, x.resp) == l.(ip := RefOf(x.resp.ip), pc := TagIp(0))
  {
  }

  lemma {:induction false} NewIpEnds(l: Local, c: State, xs: seq<Exchange>)
    requires Searching(l) && l.pc == FindNetwork && l.ctx.specIp == "" && HealthyRun(l, c, xs) && EndLocal(l, xs).Finished?
    ensures EndsOnNew(l.ctx, c, EndCloud(c, xs), EndLocal(l, xs).outcome)
  {
    RunGoesOn(l, c, xs);
    var l', rest := l.(pc := Associate), xs[1..];
    RunGoesOn(l', c, rest);
    AssociateHealthy(l', rest[0], c);
    var ip, c' := rest[0].resp.ip, rest[0].cloud;
    FreshTags(l.ctx.service);
    FreshIpEnds(l'.(ip := RefOf(ip), pc := TagIp(0)), c', rest[1..]);
    assert IpRetagged(c', ip.id, AllTags(l.ctx.service)) == AddIp(c, ip.(tags := AllTags(l.ctx.service)));
  }

  lemma {:induction false} StatusIpAnswer(l: Local, c: State, xs: seq<Exchange>)
    requires WellFormed(c) && Searching(l) && l.pc == FindIngressIp && StatusAddress(l.ctx)
    requires HealthyRun(l, c, xs) && EndLocal(l, xs).Finished?
    ensures xs != [] && xs[0].cloud == c && xs[0].resp.Ips?
    ensures var (ips, address) := (xs[0].resp.ips, l.ctx.ingress[0].ip);
            && (|ips| == 1 ==> OnlyAt(c, address, ips[0].id) && c.ips[ips[0].id] == ips[0])
            && (|ips| > 1 ==> forall ip :: !OnlyAt(c, address, ip))
            && (|ips| == 0 <==> forall ip :: ip in c.ips ==> c.ips[ip].address != address)
            && Resume(l, xs[0].resp) == if |ips| == 0 then l.(pc := FindNetwork)
                                        else if |ips| == 1 then l.(ip := RefOf(ips[0]), pc := TagIp(0))
                                        else Finished(Error)
  {
    AddressAnswer(c, l.ctx.ingress[0].ip, xs[0].resp, xs[0].cloud);
  }

  lemma {:induction false} StatusIpEnds(l: Local, c: State, xs: seq<Exchange>)
    requires WellFormed(c) && Searching(l) && l.pc == FindIngressIp && l.ctx.specIp == "" && StatusAddress(l.ctx)
    requires HealthyRun(l, c, xs) && EndLocal(l, xs).Finished?
    ensures EndsUntagged(l.ctx, c, EndCloud(c, xs), EndLocal(l, xs).outcome)
  {
    RunGoesOn(l, c, xs);
    StatusIpAnswer(l, c, xs);
    var ips := xs[0].resp.ips;
    if |ips| == 0 {
      NewIpEnds(l.(pc := FindNetwork), c, xs[1..]);
    } else if |ips| == 1 {
      var l' := l.(ip := RefOf(ips[0]), pc := TagIp(0));
      var added := AdoptionEnds(l', c, xs[1..]);
      AdoptedIsEnd(l', c, added, EndCloud(c, xs), EndLocal(l, xs).outcome);
    }
  }

  lemma AdoptedIsEnd(l: Local, c: State, added: seq<Tag>, end: State, outcome: Outcome)
    requires l.Busy? && l.ip.id in c.ips && l.ip == RefOf(c.ips[l.ip.id]) && AdoptedEnds(l, c, added, end, outcome)
    ensures EndsOnAdopted(l.ctx, c, l.ip.id, end, outcome)
  {
  }

  lemma {:induction false} UntaggedEnds(l: Local, c: State, xs: seq<Exchange>)
    requires Sound(c) && Searching(l) && HealthyRun(NoTaggedIp(l), c, xs) && EndLocal(NoTaggedIp(l), xs).Finished?
    ensures EndsUntagged(l.ctx, c, EndCloud(c, xs), EndLocal(NoTaggedIp(l), xs).outcome)
  {
    if l.ctx.specIp != "" {
      SpecIpEnds(NoTaggedIp(l), c, xs);
    } else if StatusAddress(l.ctx) {
      StatusIpEnds(NoTaggedIp(l), c, xs);
    } else {
      NewIpEnds(NoTaggedIp(l), c, xs);
    }
  }

  lemma {:induction false} TagSearchEnds(l: Local, c: State, xs: seq<Exchange>)
    requires Sound(c) && Searching(l) && l.pc == FindIpByTag && HealthyRun(l, c, xs) && EndLocal(l, xs).Finished?
    ensures EndsWithoutRule(l.ctx, c, EndCloud(c, xs), EndLocal(l, xs).outcome)
  {
    RunGoesOn(l, c, xs);
    TagSearchAnswer(c, l.ctx.service, xs[0].resp, xs[0].cloud);
    var pick, end, outcome := TaggedIpPick(xs[0].resp.ips, l.ctx.service), EndCloud(c, xs), EndLocal(l, xs).outcome;
    forall ip | OnlyTaggedIp(c, l.ctx.service, ip) ensures EndsOnTagged(l.ctx, c, ip, end, outcome) {
      GotTaggedEnds(l, c, ip, xs[1..]);
    }
    if NoIpTagged(c, l.ctx.service) {
      UntaggedEnds(l, c, xs[1..]);
    }
  }

  /** An error-free Ensure for a service without a rule, in every case. */
  lemma {:induction false} EnsureWithoutRule(ctx: Ctx, c: State, xs: seq<Exchange>)
    requires Sound(c) && NoRule(c, ctx) && HealthyRun(Start(Ensure, ctx), c, xs) && EndLocal(Start(Ensure, ctx), xs).Finished?
    ensures EndsWithoutRule(ctx, c, EndCloud(c, xs), EndLocal(Start(Ensure, ctx), xs).outcome)
  {
    NoRuleFound(Ensure, ctx, c, xs);
    var l := Found(Start(Ensure, ctx), None);
    if ctx.algorithm.Some? {
      assert l == Busy(Ensure, ctx, FindIpByTag, None, NO_IP, NO_IP, ctx.network);
      TagSearchEnds(l, c, xs[2..]);
    } else {
      assert l == Finished(Error) && xs[2..] == [];
    }
  }

  /** The same for a service without a rule that has a tagged address: it is released exactly when it
      carries the service's tags. */
  lemma {:induction false} SwapOfAddressExactly(ctx: Ctx, c: State, ip: string, xs: seq<Exchange>)
    requires Sound(c) && NoRule(c, ctx) && OnlyTaggedIp(c, ctx.service, ip) && ctx.specIp != "" && c.ips[ip].address != ctx.specIp
    requires HealthyRun(Start(Ensure, ctx), c, xs) && IsStatus(EndLocal(Start(Ensure, ctx), xs))
    ensures EndCloud(c, xs).ips == Released(c.ips, ip, ctx.service)
  {
    EnsureWithoutRule(ctx, c, xs);
    assert EndsOnTagged(ctx, c, ip, EndCloud(c, xs), EndLocal(Start(Ensure, ctx), xs).outcome);
    var other :| OnlyAt(c, ctx.specIp, other);
  }

  // ------------------------------------------------------------------------------------
  // Ambiguous rules

  /** Two rules have the balancer's name; or none has, and two are the service's by their tags. */
  ghost predicate Ambiguous(c: State, ctx: Ctx) {
    || (exists a, b :: a in c.rules && b in c.rules && a != b && c.rules[a].name == c.rules[b].name == ctx.lbName)
    || ((forall id :: id in c.rules ==> c.rules[id].name != ctx.lbName)
        && exists a, b :: a in c.rules && b in c.rules && a != b && FoundByTags(c.rules[a], ctx) && FoundByTags(c.rules[b], ctx))
  }

  predicate FoundByTags(r: Rule, ctx: Ctx) {
    Tag(SERVICE_TAG, ctx.service.name) in r.tags && MatchesAll(r.tags, TagsFor(ctx.service))
  }

  lemma TwoKept(c: State, req: Request, resp: Response, c': State, keep: Rule -> bool, a: string, b: string)
    requires WellFormed(c) && Healthy(c, req, resp, c') && (req.ListRulesByKeyword? || req.ListRulesByTag?)
    requires a in c.rules && b in c.rules && a != b && keep(c.rules[a]) && keep(c.rules[b])
    requires AsksForRule(req, c.rules[a]) && AsksForRule(req, c.rules[b])
    ensures c' == c && PickOnly(Select(resp.rules, keep)) == Many
  {
    PickedIsOnly(resp.rules, keep, c.rules[a]);
    PickedIsOnly(resp.rules, keep, c.rules[b]);
  }

  lemma {:induction false} TwoNamedRefused(kind: Kind, ctx: Ctx, c: State, a: string, b: string, xs: seq<Exchange>)
    requires WellFormed(c) && a in c.rules && b in c.rules && a != b && c.rules[a].name == c.rules[b].name == ctx.lbName
    requires HealthyRun(Start(kind, ctx), c, xs) && EndLocal(Start(kind, ctx), xs).Finished?
    ensures Refused(c, EndCloud(c, xs), EndLocal(Start(kind, ctx), xs).outcome)
  {
    RunGoesOn(Start(kind, ctx), c, xs);
    Strings.ContainsItself(ctx.lbName);
    TwoKept(c, ListRulesByKeyword(ctx.lbName), xs[0].resp, xs[0].cloud, HasName(ctx.lbName), a, b);
    assert xs[1..] == [];
  }

  lemma {:induction false} TwoTaggedRefused(l: Local, c: State, a: string, b: string, xs: seq<Exchange>)
    requires WellFormed(c) && l.Busy? && l.pc == ListByTag && HealthyRun(l, c, xs) && EndLocal(l, xs).Finished?
    requires a in c.rules && b in c.rules && a != b && FoundByTags(c.rules[a], l.ctx) && FoundByTags(c.rules[b], l.ctx)
    ensures Refused(c, EndCloud(c, xs), EndLocal(l, xs).outcome)
  {
    RunGoesOn(l, c, xs);
    TwoKept(c, ListRulesByTag(l.ctx.service.name), xs[0].resp, xs[0].cloud, RuleTagged(l.ctx.service), a, b);
    assert xs[1..] == [];
  }

  lemma {:induction false} NoneNamed(kind: Kind, ctx: Ctx, c: State, xs: seq<Exchange>)
    requires forall id :: id in c.rules ==> c.rules[id].name != ctx.lbName
    requires HealthyRun(Start(kind, ctx), c, xs) && EndLocal(Start(kind, ctx), xs).Finished?
    ensures Continues(Start(kind, ctx), c, xs, Busy(kind, ctx, ListByTag, None, NO_IP, NO_IP, ctx.network), 1)
  {
    NobodyNamed(c, ctx.lbName, xs[0].resp, xs[0].cloud);
    ContinuesOne(Start(kind, ctx), c, xs);
  }

  /** An error-free call that cannot tell which rule is the service's ends in an error and changes nothing. */
  lemma {:induction false} AmbiguousRefused(kind: Kind, ctx: Ctx, c: State, xs: seq<Exchange>)
    requires WellFormed(c) && Ambiguous(c, ctx)
    requires HealthyRun(Start(kind, ctx), c, xs) && EndLocal(Start(kind, ctx), xs).Finished?
    ensures Refused(c, EndCloud(c, xs), EndLocal(Start(kind, ctx), xs).outcome)
  {
    if a, b :| a in c.rules && b in c.rules && a != b && c.rules[a].name == c.rules[b].name == ctx.lbName {
      TwoNamedRefused(kind, ctx, c, a, b, xs);
    } else {
      NoneNamed(kind, ctx, c, xs);
      var a, b :| a in c.rules && b in c.rules && a != b && FoundByTags(c.rules[a], ctx) && FoundByTags(c.rules[b], ctx);
      TwoTaggedRefused(Busy(kind, ctx, ListByTag, None, NO_IP, NO_IP, ctx.network), c, a, b, xs[1..]);
    }
  }

  // ------------------------------------------------------------------------------------
  // The calls

  /** How an error-free Ensure ends. */
  ghost predicate EnsureEnds(ctx: Ctx, c: State, end: State, outcome: Outcome) {
    && (forall id :: IsBalancer(c, ctx, id) ==> EndsWithRule(ctx, c, id, end, outcome))
    && (NoRule(c, ctx) ==> EndsWithoutRule(ctx, c, end, outcome))
    && (Ambiguous(c, ctx) ==> Refused(c, end, outcome))
  }

  lemma {:induction false} EnsureOutcome(ctx: Ctx, c: State, xs: seq<Exchange>)
    requires Sound(c) && HealthyRun(Start(Ensure, ctx), c, xs) && EndLocal(Start(Ensure, ctx), xs).Finished?
    ensures EnsureEnds(ctx, c, EndCloud(c, xs), EndLocal(Start(Ensure, ctx), xs).outcome)
  {
    forall id | IsBalancer(c, ctx, id) ensures EndsWithRule(ctx, c, id, EndCloud(c, xs), EndLocal(Start(Ensure, ctx), xs).outcome) {
      if SameAddress(ctx, c.rules[id]) {
        EnsureOnSameAddress(ctx, c, id, xs);
      } else {
        EnsureOnOtherAddress(ctx, c, id, xs);
      }
    }
    if NoRule(c, ctx) {
      EnsureWithoutRule(ctx, c, xs);
    }
    if Ambiguous(c, ctx) {
      AmbiguousRefused(Ensure, ctx, c, xs);
    }
  }

  ghost predicate DeleteEnds(ctx: Ctx, c: State, end: State, outcome: Outcome) {
    && (forall id :: IsBalancer(c, ctx, id) ==> DeletesRule(ctx, c, id, end, outcome))
    && (NoRule(c, ctx) ==> outcome == Deleted && end == c)
    && (Ambiguous(c, ctx) ==> Refused(c, end, outcome))
  }

  lemma {:induction false} DeleteOutcome(ctx: Ctx, c: State, xs: seq<Exchange>)
    requires Sound(c) && HealthyRun(Start(Delete, ctx), c, xs) && EndLocal(Start(Delete, ctx), xs).Finished?
    ensures DeleteEnds(ctx, c, EndCloud(c, xs), EndLocal(Start(Delete, ctx), xs).outcome)
  {
    forall id | IsBalancer(c, ctx, id) ensures DeletesRule(ctx, c, id, EndCloud(c, xs), EndLocal(Start(Delete, ctx), xs).outcome) {
      DeleteExactly(ctx, c, id, xs);
    }
    if NoRule(c, ctx) {
      DeleteOfNothing(ctx, c, xs);
    }
    if Ambiguous(c, ctx) {
      AmbiguousRefused(Delete, ctx, c, xs);
    }
  }

  // ------------------------------------------------------------------------------------
  // Errors and requests, in any trace

  lemma FailureTaken(l: Local)
    requires l.Busy?
    ensures Resume(l, Failed) == if l.pc.TagIp? then l.(pc := RollBackIp) else Finished(Error)
  {
  }

  /** Whatever the server answers: after a failed request a call ends in an error, at once or, if it was
      tagging an address, after asking for its release. */
  lemma {:induction false} FailureIsReported(kind: Kind, ctx: Ctx, events: seq<Event>, k: nat)
    requires IsTrace(kind, ctx, events) && k < |events| && events[k].resp.Failed?
    ensures var end := After(Start(kind, ctx), events).value;
            || end == Finished(Error)
            || (k == |events| - 1 && events[k].req.CreateTag? && events[k].req.resource.OnIp? && end.Busy?)
  {
    var places := TracePath(kind, ctx, events);
    FailureTaken(places[k]);
    if k + 1 < |events| {
      assert places[k + 1].Busy?;
      RollbackIsLast(places[k + 1], events[k + 1].resp);
      assert places[k + 2] == Finished(Error);
    }
  }

  lemma PushedLast(l: Local, e: Event)
    requires l.Busy? && l.pc == Push && Issue(l) == e.req && IsStatus(Resume(l, e.resp))
    ensures e == Event(PushUpdate, Done)
  {
  }

  lemma {:induction false} TraceContext(kind: Kind, ctx: Ctx, events: seq<Event>)
    requires IsTrace(kind, ctx, events) && After(Start(kind, ctx), events).value.Busy?
    ensures After(Start(kind, ctx), events).value.ctx == ctx
  {
    TraceJustified(kind, ctx, events);
  }

  /** A call returns a status only right after the update was queued, and it names the balancer. */
  lemma {:induction false} StatusIsPushed(kind: Kind, ctx: Ctx, events: seq<Event>)
    requires IsTrace(kind, ctx, events) && IsStatus(After(Start(kind, ctx), events).value)
    ensures events != [] && events[|events| - 1] == Event(PushUpdate, Done)
    ensures After(Start(kind, ctx), events).value.outcome.hostname == ctx.lbName
  {
    assert events != [];
    var earlier, e := events[..|events| - 1], events[|events| - 1];
    var l := After(Start(kind, ctx), earlier).value;
    TraceContext(kind, ctx, earlier);
    StatusComesFromPush(l, e.resp);
    PushedLast(l, e);
  }

  /** A rule that the server lists without an address: Ensure looks for one, and Delete has no address
      to release. */
  lemma {:induction false} RuleWithoutAddress(kind: Kind, ctx: Ctx, events: seq<Event>, r: Rule)
    requires IsTrace(kind, ctx, events) && |events| == 2
    requires events[0].resp.Rules? && NamedPick(events[0].resp.rules, ctx.lbName) == One(r)
    ensures kind == Ensure && (r.publicIpId == "" || r.publicIp == "") ==> events[1].req == ListIpsByTag(ctx.service.name)
    ensures kind == Delete && r.publicIpId == "" && events[1].resp.Done? ==>
              events[1].req == DeleteRule(r.id) && After(Start(kind, ctx), events).value == Finished(Deleted)
  {
    var first := events[..1];
    assert first[..0] == [] && After(Start(kind, ctx), []) == Some(Start(kind, ctx));
    var l := After(Start(kind, ctx), first).value;
    assert l == Found(Start(kind, ctx), Some(r));
    if kind == Delete {
      assert l == Busy(Delete, ctx, DropRule, Some(r), IpRef(r.publicIpId, r.publicIp, r.networkId), NO_IP, r.networkId);
    }
  }

  /** The network a call may ask for: its first node's, or that of a listed rule without an address. */
  ghost predicate NetworkOf(ctx: Ctx, events: seq<Event>, network: string) {
    || network == ctx.network
    || exists i, r :: 0 <= i < |events| && events[i].resp.Rules? && r in events[i].resp.rules && r.networkId == network
                      && !IpRef(r.publicIpId, r.publicIp, r.networkId).Valid()
  }

  predicate WithoutIp(pc: Pc) {
    pc in {ListByName, ListByTag, FindIpByTag, FindSpecIp, FindIngressIp, FindNetwork, Associate}
  }

  ghost predicate NetworkKnown(l: Local, ctx: Ctx, events: seq<Event>) {
    l.Busy? && WithoutIp(l.pc) ==>
      && l.ctx == ctx && NetworkOf(ctx, events, l.network)
      && (l.pc == ListByName || l.pc == ListByTag ==> l.ip == NO_IP && l.network == ctx.network)
      && (l.pc == Associate ==> |events| > 0 && events[|events| - 1] == Event(GetNetwork(l.network), Done))
  }

  lemma NetworkOfLater(ctx: Ctx, events: seq<Event>, e: Event, network: string)
    requires NetworkOf(ctx, events, network)
    ensures NetworkOf(ctx, events + [e], network)
  {
    if network != ctx.network {
      var i, r :| 0 <= i < |events| && events[i].resp.Rules? && r in events[i].resp.rules && r.networkId == network
                  && !IpRef(r.publicIpId, r.publicIp, r.networkId).Valid();
      assert (events + [e])[i] == events[i];
    }
  }

  lemma FoundNetwork(l: Local, pick: Option<Rule>, ctx: Ctx, events: seq<Event>, e: Event)
    requires l.Busy? && l.ctx == ctx && l.ip == NO_IP && l.network == ctx.network
    requires pick.Some? ==> e.resp.Rules? && pick.value in e.resp.rules
    ensures NetworkKnown(Found(l, pick), ctx, events + [e])
  {
    assert (events + [e])[|events|] == e;
  }

  lemma LookupNetwork(l: Local, ctx: Ctx, events: seq<Event>, resp: Response)
    requires l.Busy? && NetworkKnown(l, ctx, events) && (l.pc == ListByName || l.pc == ListByTag)
    ensures NetworkKnown(Resume(l, resp), ctx, events + [Event(Issue(l), resp)])
  {
    if resp.Rules? {
      var e := Event(Issue(l), resp);
      var pick := if l.pc == ListByName then NamedPick(resp.rules, l.ctx.lbName) else TaggedPick(resp.rules, l.ctx.service);
      if pick.One? {
        PickedIsKept(resp.rules, if l.pc == ListByName then HasName(l.ctx.lbName) else RuleTagged(l.ctx.service));
        FoundNetwork(l, Some(pick.value), ctx, events, e);
      } else if pick.Nobody? && l.pc == ListByTag {
        FoundNetwork(l, None, ctx, events, e);
      }
    }
  }

  lemma GotIpHasOne(l: Local, ip: IpRef)
    requires l.Busy?
    ensures GotIp(l, ip).Busy? ==> !WithoutIp(GotIp(l, ip).pc)
  {
  }

  lemma TagSearchKeepsNetwork(l: Local, resp: Response)
    requires l.Busy? && l.pc == FindIpByTag
    ensures var l' := Resume(l, resp);
            l'.Busy? && WithoutIp(l'.pc) ==>
              l'.ctx == l.ctx && l'.network == l.network && l'.pc in {FindSpecIp, FindIngressIp, FindNetwork}
  {
    if resp.Ips? && TaggedIpPick(resp.ips, l.ctx.service).One? {
      GotIpHasOne(l, RefOf(TaggedIpPick(resp.ips, l.ctx.service).value));
    }
  }

  lemma SpecSearchEndsSearch(l: Local, resp: Response)
    requires l.Busy? && l.pc == FindSpecIp
    ensures Resume(l, resp).Busy? ==> !WithoutIp(Resume(l, resp).pc)
  {
    if resp.Ips? && |resp.ips| == 1 {
      GotIpHasOne(l, RefOf(resp.ips[0]));
    }
  }

  lemma AcquiringKeepsNetwork(l: Local, resp: Response)
    requires l.Busy? && l.pc in {FindIngressIp, FindNetwork, Associate}
    ensures var l' := Resume(l, resp);
            l'.Busy? && WithoutIp(l'.pc) ==>
              && l'.ctx == l.ctx && l'.network == l.network && l'.pc in {FindNetwork, Associate}
              && (l'.pc == Associate ==> Issue(l) == GetNetwork(l.network) && resp == Done)
  {
  }

  lemma SearchNetwork(l: Local, ctx: Ctx, events: seq<Event>, resp: Response)
    requires l.Busy? && NetworkKnown(l, ctx, events) && WithoutIp(l.pc) && l.pc != ListByName && l.pc != ListByTag
    ensures NetworkKnown(Resume(l, resp), ctx, events + [Event(Issue(l), resp)])
  {
    NetworkOfLater(ctx, events, Event(Issue(l), resp), l.network);
    if l.pc == FindIpByTag {
      TagSearchKeepsNetwork(l, resp);
    } else if l.pc == FindSpecIp {
      SpecSearchEndsSearch(l, resp);
    } else {
      AcquiringKeepsNetwork(l, resp);
    }
  }

  lemma LaterNetwork(l: Local, resp: Response)
    requires l.Busy? && !WithoutIp(l.pc)
    ensures Resume(l, resp).Busy? ==> !WithoutIp(Resume(l, resp).pc)
  {
  }

  lemma NetworkStep(l: Local, ctx: Ctx, events: seq<Event>, resp: Response)
    requires l.Busy? && NetworkKnown(l, ctx, events)
    ensures NetworkKnown(Resume(l, resp), ctx, events + [Event(Issue(l), resp)])
  {
    if !WithoutIp(l.pc) {
      LaterNetwork(l, resp);
    } else if l.pc == ListByName || l.pc == ListByTag {
      LookupNetwork(l, ctx, events, resp);
    } else {
      SearchNetwork(l, ctx, events, resp);
    }
  }

  lemma {:induction false} TraceNetwork(kind: Kind, ctx: Ctx, events: seq<Event>)
    requires IsTrace(kind, ctx, events)
    ensures NetworkKnown(After(Start(kind, ctx), events).value, ctx, events)
  {
    if events != [] {
      var earlier, e := events[..|events| - 1], events[|events| - 1];
      TraceNetwork(kind, ctx, earlier);
      var l := After(Start(kind, ctx), earlier).value;
      assert earlier + [Event(Issue(l), e.resp)] == events;
      NetworkStep(l, ctx, earlier, e.resp);
    }
  }

  lemma NetworkIssued(l: Local)
    requires l.Busy?
    ensures Issue(l).GetNetwork? ==> l.pc == FindNetwork && Issue(l).network == l.network
    ensures Issue(l).AssociateIp? ==> l.pc == Associate && Issue(l).network == l.network
  {
  }

  /** A call asks for an address only on its first node's network, or on that of its rule, which then has
      no address, and only right after that network was found. */
  lemma NetworkAskedFor(kind: Kind, ctx: Ctx, events: seq<Event>, k: nat)
    requires IsTrace(kind, ctx, events) && k < |events|
    ensures events[k].req.GetNetwork? ==> NetworkOf(ctx, events[..k], events[k].req.network)
    ensures events[k].req.AssociateIp? ==>
              && NetworkOf(ctx, events[..k], events[k].req.network)
              && k > 0 && events[k - 1] == Event(GetNetwork(events[k].req.network), Done)
  {
    PrefixIsTrace(kind, ctx, events, k);
    TraceNetwork(kind, ctx, events[..k]);
    NetworkIssued(After(Start(kind, ctx), events[..k]).value);
  }
}
