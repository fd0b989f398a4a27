/** Convergence of EnsureLoadBalancer: what a run without API errors leaves behind, that a second
    run then changes nothing, and where a failed run leaves a state that later runs refuse. */
module ReconcilerFixpoint {
  import opened Wrappers
  import opened Kube
  import opened Tags
  import opened Cloud
  import opened Reconciler
  import opened ReconcilerWorld
  import Ports
  import Strings

  // ------------------------------------------------------------------------------------
  // Runs of one call without API errors

  datatype Exchange = Exchange(resp: Response, cloud: State)

  ghost predicate HealthyRun(l: Local, c: State, xs: seq<Exchange>)
    decreases |xs|
  {
    xs == [] ||
    (l.Busy? && Healthy(c, Issue(l), xs[0].resp, xs[0].cloud) && HealthyRun(Resume(l, xs[0].resp), xs[0].cloud, xs[1..]))
  }

  function EndLocal(l: Local, xs: seq<Exchange>): Local
    decreases |xs|
  {
    if xs == [] || l.Finished? then l else EndLocal(Resume(l, xs[0].resp), xs[1..])
  }

  function EndCloud(c: State, xs: seq<Exchange>): State {
    if xs == [] then c else xs[|xs| - 1].cloud
  }

  /** Some request of the run could change the cloud. */
  predicate Mutates(l: Local, xs: seq<Exchange>)
    decreases |xs|
  {
    xs != [] && l.Busy? && (!IsRead(Issue(l)) || Mutates(Resume(l, xs[0].resp), xs[1..]))
  }

  // ------------------------------------------------------------------------------------
  // The goal

  /** The cloud holds exactly one rule with the balancer's name, and it is what the service asks for. */
  ghost predicate Settled(c: State, ctx: Ctx, id: string) {
    && id in c.rules && c.rules[id].id == id && c.rules[id].name == ctx.lbName
    && (forall other :: other in c.rules && c.rules[other].name == ctx.lbName ==> other == id)
    && Suits(c.rules[id], ctx)
    && ShouldManageLb(c.rules[id].tags, ctx.service, ctx.ingress, ctx.lbName)
    && !HasMissingKeys(c.rules[id].tags)
  }

  /** Ports, algorithm and address of a rule are the requested ones. */
  predicate Suits(r: Rule, ctx: Ctx) {
    && ctx.ports.Ok? && Ports.SamePorts(ctx.ports.value, r.ports)
    && ctx.algorithm == Some(r.algorithm)
    && r.publicIpId != "" && r.publicIp != ""
    && (ctx.specIp != "" ==> r.publicIp == ctx.specIp)
  }

  /** What is asked of the cloud at the start: addresses are complete, and a rule's address is a
      real one that agrees with the list of addresses. */
  ghost predicate Sound(c: State) {
    && WellFormed(c)
    && (forall id :: id in c.ips ==> id != "" && c.ips[id].address != "")
    && (forall id :: id in c.rules ==>
          var r := c.rules[id];
          && r.publicIpId != "" && r.publicIp != "" && r.publicIpId in c.usedIps
          && (r.publicIpId in c.ips ==> c.ips[r.publicIpId].address == r.publicIp))
  }

  lemma HealthyKeepsSound(c: State, req: Request, resp: Response, c': State)
    requires Sound(c) && Healthy(c, req, resp, c')
    ensures Sound(c')
  {
    ServeKeepsWellFormed(c, req, resp, c');
    if req.CreateTag? {
      TagKeepsSound(c, req.resource, req.tag);
    }
  }

  lemma TagKeepsSound(c: State, resource: Resource, tag: Tag)
    requires Sound(c)
    ensures Sound(AddTag(c, resource, tag))
  {
  }

  // ------------------------------------------------------------------------------------
  // What an error-free Ensure call keeps

  /** The tags let the call manage the rule once every key is there: none says otherwise. */
  predicate Manageable(tags: seq<Tag>, ctx: Ctx) {
    && GetTag(tags, IGNORE_TAG).None?
    && (StatusNames(ctx.ingress, ctx.lbName) ||
        forall k :: k in TagsFor(ctx.service) ==> GetTag(tags, k) == None || GetTag(tags, k) == Some(TagsFor(ctx.service)[k]))
  }

  lemma ManagedIsManageable(tags: seq<Tag>, ctx: Ctx)
    requires ShouldManageLb(tags, ctx.service, ctx.ingress, ctx.lbName)
    ensures Manageable(tags, ctx)
  {
    TagKeys(ctx.service);
  }

  lemma OwnTagKey(service: ServiceKey, i: nat)
    requires i < |TAG_ORDER|
    ensures OwnTag(service, i).key == TAG_ORDER[i] && OwnTag(service, i).key in TagsFor(service)
    ensures OwnTag(service, i).value == TagsFor(service)[TAG_ORDER[i]]
    ensures OwnTag(service, i).key != IGNORE_TAG
  {
    TagKeys(service);
  }

  lemma OwnTagKeepsManageable(tags: seq<Tag>, ctx: Ctx, i: nat)
    requires Manageable(tags, ctx) && i < |TAG_ORDER|
    ensures Manageable(tags + [OwnTag(ctx.service, i)], ctx)
  {
    OwnTagKey(ctx.service, i);
    forall k { GetTagAppend(tags, OwnTag(ctx.service, i), k); }
  }

  lemma CompleteIsManaged(tags: seq<Tag>, ctx: Ctx)
    requires Manageable(tags, ctx) && !HasMissingKeys(tags)
    ensures ShouldManageLb(tags, ctx.service, ctx.ingress, ctx.lbName)
  {
    TagKeys(ctx.service);
    forall k | k in TagsFor(ctx.service) ensures GetTag(tags, k).Some? {
      GetTagFinds(tags, k);
      assert TAG_ORDER[0] == CLOUD_PROVIDER_TAG && TAG_ORDER[1] == NAMESPACE_TAG && TAG_ORDER[2] == SERVICE_TAG;
    }
  }

  /** The remembered address agrees with the cloud's list. */
  predicate AddressKnown(l: Local, c: State)
    requires l.Busy?
  {
    l.ip.id in c.ips ==> c.ips[l.ip.id].address == l.ip.address
  }

  predicate AddressChosen(l: Local)
    requires l.Busy?
  {
    l.ctx.specIp != "" ==> l.ip.address == l.ctx.specIp
  }

  predicate AfterChoice(pc: Pc) {
    pc in {DropRuleForIp, FetchOldIp, ReleaseOldIp, DropRuleForPorts, Update, Create, Push} || pc.TagRule?
  }

  /** The rule at hand is the cloud's, unchanged, and it is this call's to manage. */
  ghost predicate ListedRule(l: Local, c: State)
    requires l.Busy? && l.rule.Some?
  {
    var r := l.rule.value;
    && r.id in c.rules && c.rules[r.id] == r
    && ShouldManageLb(r.tags, l.ctx.service, l.ctx.ingress, l.ctx.lbName)
    && (l.pc in {Update} ==> r.name == l.ctx.lbName && l.ctx.ports.Ok? && Ports.SamePorts(l.ctx.ports.value, r.ports) && l.ip.address == r.publicIp)
  }

  /** The rule is right but for tags: it has at least the first `i` keys. */
  ghost predicate TaggingRule(l: Local, c: State, i: nat)
    requires l.Busy? && l.rule.Some?
  {
    var id := l.rule.value.id;
    && id in c.rules && c.rules[id].id == id && c.rules[id].name == l.ctx.lbName
    && Suits(c.rules[id], l.ctx) && l.ip.address == c.rules[id].publicIp
    && Manageable(c.rules[id].tags, l.ctx)
    && forall k :: 0 <= k < i && k < |TAG_ORDER| ==> HasKey(c.rules[id].tags, TAG_ORDER[k])
  }

  /** What has been checked about the request by the time the call is here. */
  predicate Checked(l: Local)
    requires l.Busy?
  {
    && (AfterChoice(l.pc) ==> AddressChosen(l))
    && (l.pc != ListByName && l.pc != ListByTag ==> l.ctx.algorithm.Some?)
    && (l.pc in {DropRuleForPorts, Update, Create, Push} || l.pc.TagRule? ==> l.ctx.ports.Ok?)
  }

  ghost predicate RuleOnCourse(l: Local, c: State)
    requires l.Busy?
  {
    match l.pc
    case FindNewIp => l.rule.Some? ==> ListedRule(l, c)
    case DropRuleForIp => l.rule.Some? ==> ListedRule(l, c)
    case DropRuleForPorts => l.rule.Some? ==> ListedRule(l, c)
    case Update => l.rule.Some? && ListedRule(l, c)
    case TagRule(i) => i < |TAG_ORDER| && l.rule.Some? && TaggingRule(l, c, i)
    case Push => l.rule.Some? && TaggingRule(l, c, |TAG_ORDER|)
    case _ => l.rule.None?
  }

  ghost predicate OnCourse(l: Local, c: State) {
    l.Busy? ==>
      l.kind == Ensure && LocalOk(l) && Sound(c) && KnowsName(l, c) && AddressKnown(l, c) && Checked(l) && RuleOnCourse(l, c)
  }

  lemma StartOnCourse(ctx: Ctx, c: State)
    requires Sound(c)
    ensures OnCourse(Start(Ensure, ctx), c)
  {
  }

  /** checkLoadBalancerRule starts from a right address and either no rule or the listed one. */
  lemma CheckRuleOnCourse(l: Local, c: State)
    requires l.Busy? && l.kind == Ensure && Sound(c) && AddressKnown(l, c) && AddressChosen(l) && l.ctx.algorithm.Some?
    requires l.pc != ListByName && KnowsName(l, c)
    requires l.rule.Some? ==>
               && l.rule.value.id in c.rules && c.rules[l.rule.value.id] == l.rule.value
               && ShouldManageLb(l.rule.value.tags, l.ctx.service, l.ctx.ingress, l.ctx.lbName)
               && l.ip.address == l.rule.value.publicIp
    ensures OnCourse(CheckRule(l), c)
  {
    if l.rule.Some? && RuleMatches(l) && Some(l.rule.value.algorithm) == l.ctx.algorithm {
      ManagedIsManageable(l.rule.value.tags, l.ctx);
      RuleUpdatedOnCourse(l, c);
    }
  }

  predicate RuleMatches(l: Local)
    requires l.Busy? && l.rule.Some?
  {
    l.ctx.ports.Ok? && Ports.SamePorts(l.ctx.ports.value, l.rule.value.ports) && l.ctx.lbName == l.rule.value.name
  }

  lemma RuleUpdatedOnCourse(l: Local, c: State)
    requires l.Busy? && l.kind == Ensure && Sound(c) && AddressKnown(l, c) && AddressChosen(l) && l.ctx.algorithm.Some?
    requires l.pc != ListByName && KnowsName(l, c) && l.rule.Some?
    requires var r := l.rule.value;
             && r.id in c.rules && c.rules[r.id].tags == r.tags && Manageable(r.tags, l.ctx)
    requires TaggingRule(l, c, 0)
    ensures OnCourse(RuleUpdated(l), c)
  {
  }

  lemma HaveIpOnCourse(l: Local, c: State)
    requires l.Busy? && l.kind == Ensure && Sound(c) && AddressKnown(l, c) && l.ctx.algorithm.Some?
    requires l.pc != ListByName && KnowsName(l, c)
    requires l.rule.Some? ==>
               && l.rule.value.id in c.rules && c.rules[l.rule.value.id] == l.rule.value
               && ShouldManageLb(l.rule.value.tags, l.ctx.service, l.ctx.ingress, l.ctx.lbName)
               && l.ip.address == l.rule.value.publicIp
    ensures OnCourse(HaveIp(l), c)
  {
    if l.ctx.specIp == "" || l.ip.address == l.ctx.specIp {
      CheckRuleOnCourse(l, c);
    }
  }

  lemma FoundOnCourse(l: Local, rule: Option<Rule>, c: State)
    requires l.Busy? && l.kind == Ensure && l.rule.None? && Sound(c) && AddressKnown(l, c)
    requires rule.Some? ==> rule.value.id in c.rules && c.rules[rule.value.id] == rule.value
    requires forall id :: id in c.rules && c.rules[id].name == l.ctx.lbName ==> rule.Some? && rule.value.id == id
    ensures OnCourse(Found(l, rule), c)
  {
    var managed := rule.None? || ShouldManageLb(rule.value.tags, l.ctx.service, l.ctx.ingress, l.ctx.lbName);
    if l.ctx.algorithm.Some? && managed && rule.Some? {
      var r := rule.value;
      HaveIpOnCourse(l.(pc := FindIpByTag, rule := rule, ip := IpRef(r.publicIpId, r.publicIp, r.networkId), network := r.networkId), c);
      SamePcHaveIp(l.(rule := rule, ip := IpRef(r.publicIpId, r.publicIp, r.networkId), network := r.networkId), FindIpByTag);
    } else if l.ctx.algorithm.Some? && rule.None? && l.ip.Valid() {
      HaveIpOnCourse(l.(pc := FindIpByTag), c);
      SamePcHaveIp(l, FindIpByTag);
    }
  }

  /** Code between requests does not look at where the call stood before. */
  lemma SamePcHaveIp(l: Local, pc: Pc)
    requires l.Busy?
    ensures HaveIp(l.(pc := pc)) == HaveIp(l) && CheckRule(l.(pc := pc)) == CheckRule(l)
  {
  }

  /** The code between two requests does not look at where the call stood. */
  lemma PlaceForgotten(l: Local, pc: Pc, rule: Option<Rule>)
    requires l.Busy?
    ensures Found(l, rule) == Found(l.(pc := pc), rule)
  {
  }

  lemma LookupOnCourse(l: Local, resp: Response, c: State, c': State)
    requires l.Busy? && OnCourse(l, c) && Healthy(c, Issue(l), resp, c')
    requires l.pc == ListByName || l.pc == ListByTag
    ensures OnCourse(Resume(l, resp), c')
  {
    OwnStepKnows(l, resp, c, c');
    ResumeOk(l, resp);
    var pick := if l.pc == ListByName then NamedPick(resp.rules, l.ctx.lbName) else TaggedPick(resp.rules, l.ctx.service);
    if pick.One? {
      if l.pc == ListByName {
        PickedIsKept(resp.rules, HasName(l.ctx.lbName));
      } else {
        PickedIsKept(resp.rules, RuleTagged(l.ctx.service));
      }
      if Found(l, Some(pick.value)).Busy? {
        FoundOk(l, Some(pick.value));
        FoundOnCourse(l, Some(pick.value), c);
      }
    } else if pick.Nobody? && l.pc == ListByTag {
      FoundOnCourse(l, None, c);
    }
  }

  /** The searches for an existing address, when there is no rule. */
  lemma SearchOnCourse(l: Local, resp: Response, c: State, c': State)
    requires l.Busy? && OnCourse(l, c) && Healthy(c, Issue(l), resp, c')
    requires l.pc == FindIpByTag || l.pc == FindSpecIp
    ensures OnCourse(Resume(l, resp), c')
  {
    OwnStepKnows(l, resp, c, c');
    if l.pc == FindIpByTag {
      var pick := TaggedIpPick(resp.ips, l.ctx.service);
      if pick.One? {
        PickedIsKept(resp.ips, IpTagged(l.ctx.service));
        FetchedOnCourse(l, pick.value, c);
      }
    } else if |resp.ips| == 1 {
      FetchedOnCourse(l, resp.ips[0], c);
    }
  }

  lemma FetchedOnCourse(l: Local, ip: PublicIp, c: State)
    requires l.Busy? && OnCourse(l, c) && (l.pc == FindIpByTag || l.pc == FindSpecIp)
    requires ip.id in c.ips && c.ips[ip.id] == ip
    ensures OnCourse(GotIp(l, RefOf(ip)), c)
  {
    NoRuleHaveIp(l.(ip := RefOf(ip), network := RefOf(ip).network), c);
  }

  /** Making an address ready, when there is none yet. */
  lemma AcquireOnCourse(l: Local, resp: Response, c: State, c': State)
    requires l.Busy? && OnCourse(l, c) && Healthy(c, Issue(l), resp, c')
    requires l.pc in {FindIngressIp, FindNetwork, Associate}
    ensures OnCourse(Resume(l, resp), c')
  {
    HealthyKeepsSound(c, Issue(l), resp, c');
    OwnStepKnows(l, resp, c, c');
  }

  lemma TagIpOnCourse(l: Local, resp: Response, c: State, c': State)
    requires l.Busy? && OnCourse(l, c) && Healthy(c, Issue(l), resp, c') && l.pc.TagIp?
    ensures OnCourse(Resume(l, resp), c')
  {
    HealthyKeepsSound(c, Issue(l), resp, c');
    OwnStepKnows(l, resp, c, c');
    NoRuleHaveIp(l.(network := l.ip.network), c');
  }

  lemma NoRuleHaveIp(l: Local, c: State)
    requires l.Busy? && l.kind == Ensure && l.rule.None? && Sound(c) && AddressKnown(l, c) && l.ctx.algorithm.Some?
    requires forall id :: id in c.rules ==> c.rules[id].name != l.ctx.lbName
    ensures OnCourse(HaveIp(l), c)
  {
    HaveIpOnCourse(l.(pc := FindIpByTag), c);
    SamePcHaveIp(l, FindIpByTag);
  }

  lemma NoRuleCheck(l: Local, c: State)
    requires l.Busy? && l.kind == Ensure && l.rule.None? && Sound(c) && AddressKnown(l, c) && AddressChosen(l) && l.ctx.algorithm.Some?
    requires forall id :: id in c.rules ==> c.rules[id].name != l.ctx.lbName
    ensures OnCourse(CheckRule(l), c)
  {
    CheckRuleOnCourse(l.(pc := FindIpByTag), c);
    SamePcHaveIp(l, FindIpByTag);
  }

  /** Swapping the address: the new one is looked up, the old rule and address go. */
  lemma NewIpAnswered(l: Local, resp: Response)
    requires l.Busy? && l.pc == FindNewIp && resp.Ips?
    ensures Resume(l, resp) ==
            if |resp.ips| != 1 then Finished(Error)
            else var swapped := l.(oldIp := l.ip, ip := RefOf(resp.ips[0]));
                 if l.rule.Some? then swapped.(pc := DropRuleForIp) else IpSwapped(swapped)
  {
  }

  lemma NewIpOnCourse(l: Local, resp: Response, c: State, c': State)
    requires l.Busy? && OnCourse(l, c) && Healthy(c, Issue(l), resp, c') && l.pc == FindNewIp
    ensures OnCourse(Resume(l, resp), c')
  {
    NewIpAnswered(l, resp);
    if |resp.ips| == 1 {
      var swapped := l.(oldIp := l.ip, ip := RefOf(resp.ips[0]));
      if l.rule.None? {
        NoRuleCheck(swapped, c');
      } else {
        assert OnCourse(swapped.(pc := DropRuleForIp), c');
      }
    }
  }

  lemma DropForIpOnCourse(l: Local, resp: Response, c: State, c': State)
    requires l.Busy? && OnCourse(l, c) && Healthy(c, Issue(l), resp, c') && l.pc == DropRuleForIp
    ensures OnCourse(Resume(l, resp), c')
  {
    HealthyKeepsSound(c, Issue(l), resp, c');
    OwnStepKnows(l, resp, c, c');
    NoRuleCheck(l.(rule := None), c');
  }

  lemma OldIpOnCourse(l: Local, resp: Response, c: State, c': State)
    requires l.Busy? && OnCourse(l, c) && Healthy(c, Issue(l), resp, c') && (l.pc == FetchOldIp || l.pc == ReleaseOldIp)
    ensures OnCourse(Resume(l, resp), c')
  {
    HealthyKeepsSound(c, Issue(l), resp, c');
    OwnStepKnows(l, resp, c, c');
    NoRuleCheck(l, c');
  }

  /** Making the rule right: update it, or drop it and create a new one. */
  lemma UpdateOnCourse(l: Local, resp: Response, c: State, c': State)
    requires l.Busy? && OnCourse(l, c) && Healthy(c, Issue(l), resp, c') && l.pc == Update
    ensures OnCourse(Resume(l, resp), c')
  {
    HealthyKeepsSound(c, Issue(l), resp, c');
    OwnStepKnows(l, resp, c, c');
    ManagedIsManageable(l.rule.value.tags, l.ctx);
    RuleUpdatedOnCourse(l, c');
  }

  lemma DropOnCourse(l: Local, resp: Response, c: State, c': State)
    requires l.Busy? && OnCourse(l, c) && Healthy(c, Issue(l), resp, c') && l.pc == DropRuleForPorts
    ensures OnCourse(Resume(l, resp), c')
  {
    HealthyKeepsSound(c, Issue(l), resp, c');
    OwnStepKnows(l, resp, c, c');
  }

  lemma CreateOnCourse(l: Local, resp: Response, c: State, c': State)
    requires l.Busy? && OnCourse(l, c) && Healthy(c, Issue(l), resp, c') && l.pc == Create
    ensures OnCourse(Resume(l, resp), c')
  {
    HealthyKeepsSound(c, Issue(l), resp, c');
    OwnStepKnows(l, resp, c, c');
    Ports.OwnPortsCompareEqual(l.ctx.ports.value);
    assert Manageable([], l.ctx);
    assert c'.rules[resp.rule.id] == resp.rule;
  }

  /** Where a tagging answer takes the call. */
  lemma TagRuleTaken(l: Local, resp: Response)
    requires l.Busy? && l.pc.TagRule? && l.pc.i < |TAG_ORDER|
    ensures resp.Done? || resp.AlreadyExists? ==>
              Resume(l, resp) == if l.pc.i + 1 < |TAG_ORDER| then l.(pc := TagRule(l.pc.i + 1)) else l.(pc := Push)
    ensures !resp.Done? && !resp.AlreadyExists? ==> Resume(l, resp) == Finished(Error)
  {
  }

  /** Tagging the rule. */
  lemma TagOnCourse(l: Local, resp: Response, c: State, c': State)
    requires l.Busy? && OnCourse(l, c) && Healthy(c, Issue(l), resp, c') && l.pc.TagRule?
    ensures OnCourse(Resume(l, resp), c')
  {
    HealthyKeepsSound(c, Issue(l), resp, c');
    OwnStepKnows(l, resp, c, c');
    TaggedRule(l, resp, c, c');
    TagRuleTaken(l, resp);
  }

  lemma TaggedRule(l: Local, resp: Response, c: State, c': State)
    requires l.Busy? && l.pc.TagRule? && l.rule.Some? && l.pc.i < |TAG_ORDER| && TaggingRule(l, c, l.pc.i)
    requires Healthy(c, Issue(l), resp, c')
    ensures TaggingRule(l, c', l.pc.i + 1) && c'.ips == c.ips
  {
    var (id, tag) := (l.rule.value.id, OwnTag(l.ctx.service, l.pc.i));
    OwnTagKey(l.ctx.service, l.pc.i);
    assert Issue(l) == CreateTag(OnRule(id), tag);
    if resp.Done? {
      assert c' == AddTag(c, OnRule(id), tag);
      TagAdded(l, c);
    }
  }

  lemma TagAdded(l: Local, c: State)
    requires l.Busy? && l.pc.TagRule? && l.rule.Some? && l.pc.i < |TAG_ORDER| && TaggingRule(l, c, l.pc.i)
    ensures TaggingRule(l, AddTag(c, OnRule(l.rule.value.id), OwnTag(l.ctx.service, l.pc.i)), l.pc.i + 1)
  {
    var (r, tag) := (c.rules[l.rule.value.id], OwnTag(l.ctx.service, l.pc.i));
    OwnTagKeepsManageable(r.tags, l.ctx, l.pc.i);
    KeyAdded(r.tags, l.ctx.service, l.pc.i);
    assert Suits(r.(tags := r.tags + [tag]), l.ctx);
  }

  lemma KeyAdded(tags: seq<Tag>, service: ServiceKey, i: nat)
    requires i < |TAG_ORDER| && forall k :: 0 <= k < i ==> HasKey(tags, TAG_ORDER[k])
    ensures forall k :: 0 <= k <= i ==> HasKey(tags + [OwnTag(service, i)], TAG_ORDER[k])
  {
    var tagged := tags + [OwnTag(service, i)];
    forall k | 0 <= k <= i ensures HasKey(tagged, TAG_ORDER[k]) {
      if k == i {
        assert tagged[|tags|].key == TAG_ORDER[k];
      } else {
        var j :| 0 <= j < |tags| && tags[j].key == TAG_ORDER[k];
        assert tagged[j].key == TAG_ORDER[k];
      }
    }
  }

  predicate ForIp(pc: Pc) {
    pc in {FindIpByTag, FindSpecIp, FindIngressIp, FindNetwork, Associate, FindNewIp, DropRuleForIp, FetchOldIp, ReleaseOldIp} || pc.TagIp?
  }

  lemma IpOnCourse(l: Local, resp: Response, c: State, c': State)
    requires l.Busy? && OnCourse(l, c) && Healthy(c, Issue(l), resp, c') && ForIp(l.pc)
    ensures OnCourse(Resume(l, resp), c')
  {
    if l.pc == FindIpByTag || l.pc == FindSpecIp {
      SearchOnCourse(l, resp, c, c');
    } else if l.pc in {FindIngressIp, FindNetwork, Associate} {
      AcquireOnCourse(l, resp, c, c');
    } else if l.pc.TagIp? {
      TagIpOnCourse(l, resp, c, c');
    } else if l.pc == FindNewIp {
      NewIpOnCourse(l, resp, c, c');
    } else if l.pc == DropRuleForIp {
      DropForIpOnCourse(l, resp, c, c');
    } else {
      OldIpOnCourse(l, resp, c, c');
    }
  }

  lemma PushOnCourse(l: Local, resp: Response, c: State, c': State)
    requires l.Busy? && OnCourse(l, c) && Healthy(c, Issue(l), resp, c') && l.pc == Push
    ensures OnCourse(Resume(l, resp), c')
  {
  }

  lemma RuleStepOnCourse(l: Local, resp: Response, c: State, c': State)
    requires l.Busy? && OnCourse(l, c) && Healthy(c, Issue(l), resp, c') && !ForIp(l.pc)
    ensures OnCourse(Resume(l, resp), c')
  {
    if l.pc == ListByName || l.pc == ListByTag {
      LookupOnCourse(l, resp, c, c');
    } else if l.pc == DropRuleForPorts {
      DropOnCourse(l, resp, c, c');
    } else if l.pc == Update {
      UpdateOnCourse(l, resp, c, c');
    } else if l.pc == Create {
      CreateOnCourse(l, resp, c, c');
    } else if l.pc.TagRule? {
      TagOnCourse(l, resp, c, c');
    } else if l.pc == Push {
      PushOnCourse(l, resp, c, c');
    }
  }

  lemma StepOnCourse(l: Local, resp: Response, c: State, c': State)
    requires l.Busy? && OnCourse(l, c) && Healthy(c, Issue(l), resp, c')
    ensures OnCourse(Resume(l, resp), c')
  {
    if ForIp(l.pc) {
      IpOnCourse(l, resp, c, c');
    } else {
      RuleStepOnCourse(l, resp, c, c');
    }
  }

  /** A call finishes with a status only by pushing. */
  lemma StatusComesFromPush(l: Local, resp: Response)
    requires l.Busy? && Resume(l, resp).Finished? && Resume(l, resp).outcome.Status?
    ensures l.pc == Push && Resume(l, resp).outcome == Status(l.ip.address, l.ctx.lbName)
  {
    if l.pc == ListByName || l.pc == ListByTag {
      LookupNoStatus(l, resp);
    } else if l.pc != Push {
      LaterNoStatus(l, resp);
    }
  }

  lemma LaterNoStatus(l: Local, resp: Response)
    requires l.Busy? && l.pc != ListByName && l.pc != ListByTag && l.pc != Push
    ensures !IsStatus(Resume(l, resp))
  {
    if ForIp(l.pc) {
      forall r, a, b, n { NoStatusYet(l.(rule := r, oldIp := a, ip := b, network := n)); }
    } else {
      NoStatusYet(l);
    }
  }

  predicate IsStatus(l: Local) {
    l.Finished? && l.outcome.Status?
  }

  lemma NoStatusYet(l: Local)
    requires l.Busy?
    ensures !IsStatus(CheckRule(l)) && !IsStatus(HaveIp(l)) && !IsStatus(IpSwapped(l)) && !IsStatus(RuleUpdated(l))
  {
  }

  lemma FoundNoStatus(l: Local, rule: Option<Rule>)
    requires l.Busy?
    ensures !IsStatus(Found(l, rule))
  {
    NoStatusYet(l);
    if rule.Some? {
      NoStatusYet(l.(rule := rule, ip := IpRef(rule.value.publicIpId, rule.value.publicIp, rule.value.networkId),
                     network := rule.value.networkId));
    }
  }

  lemma LookupNoStatus(l: Local, resp: Response)
    requires l.Busy? && (l.pc == ListByName || l.pc == ListByTag)
    ensures !IsStatus(Resume(l, resp))
  {
    FoundNoStatus(l, None);
    if resp.Rules? {
      var named, tagged := NamedPick(resp.rules, l.ctx.lbName), TaggedPick(resp.rules, l.ctx.service);
      if named.One? { FoundNoStatus(l, Some(named.value)); }
      if tagged.One? { FoundNoStatus(l, Some(tagged.value)); }
    }
  }

  lemma LastStepSettles(l: Local, resp: Response, c: State, c': State)
    requires l.Busy? && OnCourse(l, c) && Healthy(c, Issue(l), resp, c') && IsStatus(Resume(l, resp))
    ensures l.rule.Some? && Settled(c', l.ctx, l.rule.value.id)
    ensures Resume(l, resp).outcome == Status(c'.rules[l.rule.value.id].publicIp, l.ctx.lbName)
  {
    StatusComesFromPush(l, resp);
    var tags := c.rules[l.rule.value.id].tags;
    assert !HasMissingKeys(tags);
    CompleteIsManaged(tags, l.ctx);
  }

  /** The cloud is settled for the request, and the status reports its address. */
  ghost predicate Converged(end: Local, ctx: Ctx, c: State) {
    exists id :: Settled(c, ctx, id) && end == Finished(Status(c.rules[id].publicIp, ctx.lbName))
  }

  lemma {:induction false} RunConverges(l: Local, c: State, xs: seq<Exchange>)
    requires l.Busy? && OnCourse(l, c) && HealthyRun(l, c, xs)
    requires IsStatus(EndLocal(l, xs))
    ensures Converged(EndLocal(l, xs), l.ctx, EndCloud(c, xs))
    decreases |xs|
  {
    var l', c' := Resume(l, xs[0].resp), xs[0].cloud;
    var rest := xs[1..];
    assert EndLocal(l, xs) == EndLocal(l', rest) && HealthyRun(l', c', rest);
    assert EndCloud(c', rest) == EndCloud(c, xs);
    if l'.Finished? {
      LastStepSettles(l, xs[0].resp, c, c');
    } else {
      ResumeKeepsCtx(l, xs[0].resp, c, c');
      RunConverges(l', c', rest);
    }
  }

  lemma ResumeKeepsCtx(l: Local, resp: Response, c: State, c': State)
    requires l.Busy? && OnCourse(l, c) && Healthy(c, Issue(l), resp, c')
    ensures OnCourse(Resume(l, resp), c') && (Resume(l, resp).Busy? ==> Resume(l, resp).ctx == l.ctx)
  {
    StepOnCourse(l, resp, c, c');
    ResumeOk(l, resp);
  }

  /** A successful Ensure without API errors leaves exactly one rule with the balancer's name, with
      the requested ports, protocol, algorithm, tag keys and address, and reports its address. */
  lemma {:induction false} EnsureConverges(ctx: Ctx, c: State, xs: seq<Exchange>)
    requires Sound(c) && HealthyRun(Start(Ensure, ctx), c, xs) && IsStatus(EndLocal(Start(Ensure, ctx), xs))
    ensures Converged(EndLocal(Start(Ensure, ctx), xs), ctx, EndCloud(c, xs))
  {
    StartOnCourse(ctx, c);
    RunConverges(Start(Ensure, ctx), c, xs);
  }

  // ------------------------------------------------------------------------------------
  // The second run

  /** The same service again, possibly with the status the first run returned. */
  predicate SameRequest(ctx: Ctx, again: Ctx, ip: string) {
    again == ctx || again == ctx.(ingress := [Ingress(ip, ctx.lbName)])
  }

  lemma SettledForStatus(c: State, ctx: Ctx, again: Ctx, id: string, ip: string)
    requires Settled(c, ctx, id) && SameRequest(ctx, again, ip)
    ensures Settled(c, again, id)
  {
  }

  ghost predicate OnlyNamed(c: State, name: string, id: string) {
    && id in c.rules && c.rules[id].id == id && c.rules[id].name == name
    && forall other :: other in c.rules && c.rules[other].name == name ==> other == id
  }

  /** An answered search by name picks the only rule with the name. */
  lemma NamedAnswer(c: State, name: string, id: string, resp: Response, c': State)
    requires OnlyNamed(c, name, id) && Healthy(c, ListRulesByKeyword(name), resp, c')
    ensures c' == c && NamedPick(resp.rules, name) == One(c.rules[id])
  {
    Strings.ContainsItself(name);
    assert AsksForRule(ListRulesByKeyword(name), c.rules[id]);
    PickedIsOnly(resp.rules, HasName(name), c.rules[id]);
    OnlyOnePicked(c, resp.rules, name, id);
  }

  /** No rule has the name, and only this one matches the service's tags. */
  ghost predicate OnlyTagged(c: State, name: string, service: ServiceKey, id: string) {
    && (forall other :: other in c.rules ==> c.rules[other].name != name)
    && id in c.rules && c.rules[id].id == id
    && Tag(SERVICE_TAG, service.name) in c.rules[id].tags && MatchesAll(c.rules[id].tags, TagsFor(service))
    && forall other :: other in c.rules && MatchesAll(c.rules[other].tags, TagsFor(service)) ==> other == id
  }

  /** The rule that the searches find: by its name, or else by its tags. */
  ghost predicate IsBalancer(c: State, ctx: Ctx, id: string) {
    OnlyNamed(c, ctx.lbName, id) || OnlyTagged(c, ctx.lbName, ctx.service, id)
  }

  /** No rule has the balancer's name or matches the service's tags. */
  ghost predicate NoRule(c: State, ctx: Ctx) {
    forall id :: id in c.rules ==> c.rules[id].name != ctx.lbName && !MatchesAll(c.rules[id].tags, TagsFor(ctx.service))
  }

  lemma NobodyNamed(c: State, name: string, resp: Response, c': State)
    requires (forall id :: id in c.rules ==> c.rules[id].name != name) && Healthy(c, ListRulesByKeyword(name), resp, c')
    ensures c' == c && NamedPick(resp.rules, name) == Nobody
  {
    NoneSelected(resp.rules, HasName(name));
  }

  /** An answered search by tags picks the only rule that matches. */
  lemma TaggedAnswer(c: State, name: string, service: ServiceKey, id: string, resp: Response, c': State)
    requires OnlyTagged(c, name, service, id) && Healthy(c, ListRulesByTag(service.name), resp, c')
    ensures c' == c && TaggedPick(resp.rules, service) == One(c.rules[id])
  {
    assert AsksForRule(ListRulesByTag(service.name), c.rules[id]);
    PickedIsOnly(resp.rules, RuleTagged(service), c.rules[id]);
    SelectOnce(resp.rules, RuleTagged(service), id);
  }

  /** The part of a run after its first `n` answers, of which none changed the cloud. */
  ghost predicate Continues(l: Local, c: State, xs: seq<Exchange>, l': Local, n: nat) {
    && n <= |xs| && HealthyRun(l', c, xs[n..])
    && EndLocal(l', xs[n..]) == EndLocal(l, xs) && EndCloud(c, xs[n..]) == EndCloud(c, xs)
  }

  lemma {:induction false} ContinuesOne(l: Local, c: State, xs: seq<Exchange>)
    requires l.Busy? && HealthyRun(l, c, xs) && xs != [] && xs[0].cloud == c
    ensures Continues(l, c, xs, Resume(l, xs[0].resp), 1)
  {
  }

  lemma ContinuesOn(l: Local, c: State, xs: seq<Exchange>, l': Local, l'': Local, n: nat, m: nat)
    requires Continues(l, c, xs, l', n) && Continues(l', c, xs[n..], l'', m)
    ensures Continues(l, c, xs, l'', n + m)
  {
    assert xs[n..][m..] == xs[n + m..];
  }

  /** A finished error-free call has found its balancer by one search or by two. */
  lemma {:induction false} BalancerFound(kind: Kind, ctx: Ctx, c: State, id: string, xs: seq<Exchange>)
    requires IsBalancer(c, ctx, id) && HealthyRun(Start(kind, ctx), c, xs) && EndLocal(Start(kind, ctx), xs).Finished?
    ensures exists n: nat :: Continues(Start(kind, ctx), c, xs, Found(Start(kind, ctx), Some(c.rules[id])), n)
  {
    var l := Start(kind, ctx);
    if OnlyNamed(c, ctx.lbName, id) {
      NamedAnswer(c, ctx.lbName, id, xs[0].resp, xs[0].cloud);
      ContinuesOne(l, c, xs);
    } else {
      NobodyNamed(c, ctx.lbName, xs[0].resp, xs[0].cloud);
      ContinuesOne(l, c, xs);
      var l', rest := l.(pc := ListByTag), xs[1..];
      TaggedAnswer(c, ctx.lbName, ctx.service, id, rest[0].resp, rest[0].cloud);
      ContinuesOne(l', c, rest);
      PlaceForgotten(l', ListByName, Some(c.rules[id]));
      ContinuesOn(l, c, xs, l', Found(l, Some(c.rules[id])), 1, 1);
    }
  }

  lemma SettledFirstAnswer(c: State, ctx: Ctx, id: string, resp: Response, c': State)
    requires Settled(c, ctx, id) && Healthy(c, Issue(Start(Ensure, ctx)), resp, c')
    ensures var l := Resume(Start(Ensure, ctx), resp);
            c' == c && l.Busy? && l.pc == Push && l.ip.address == c.rules[id].publicIp && l.ctx == ctx
  {
    var r := c.rules[id];
    NamedAnswer(c, ctx.lbName, id, resp, c');
    var known := Start(Ensure, ctx).(rule := Some(r), ip := IpRef(r.publicIpId, r.publicIp, r.networkId), network := r.networkId);
    assert CheckRule(known) == RuleUpdated(known) == known.(pc := Push);
  }

  /** A listing has each rule once, so a unique name is picked alone. */
  lemma {:induction false} OnlyOnePicked(c: State, rules: seq<Rule>, name: string, id: string)
    requires OnlyNamed(c, name, id)
    requires forall i :: 0 <= i < |rules| ==> rules[i].id in c.rules && c.rules[rules[i].id] == rules[i]
    requires forall i, j :: 0 <= i < j < |rules| ==> rules[i].id != rules[j].id
    ensures |Select(rules, HasName(name))| <= 1
  {
    SelectOnce(rules, HasName(name), id);
  }

  lemma {:induction false} NoneSelected<T>(xs: seq<T>, keep: T -> bool)
    requires forall i :: 0 <= i < |xs| ==> !keep(xs[i])
    ensures Select(xs, keep) == []
  {
    if xs != [] {
      NoneSelected(xs[..|xs| - 1], keep);
    }
  }

  lemma {:induction false} SelectOnce(rules: seq<Rule>, keep: Rule -> bool, id: string)
    requires forall i, j :: 0 <= i < j < |rules| ==> rules[i].id != rules[j].id
    requires forall i :: 0 <= i < |rules| && keep(rules[i]) ==> rules[i].id == id
    ensures |Select(rules, keep)| <= 1
    ensures (forall i :: 0 <= i < |rules| ==> rules[i].id != id) ==> Select(rules, keep) == []
  {
    if rules != [] {
      SelectOnce(rules[..|rules| - 1], keep, id);
    }
  }

  /** On a settled cloud an Ensure call makes no mutating request: it searches by name, pushes the
      update and returns the same status, and the cloud stays as it is. */
  lemma {:induction false} EnsureIsFixpoint(c: State, ctx: Ctx, again: Ctx, id: string, xs: seq<Exchange>)
    requires Settled(c, ctx, id) && SameRequest(ctx, again, c.rules[id].publicIp)
    requires HealthyRun(Start(Ensure, again), c, xs)
    ensures !Mutates(Start(Ensure, again), xs) && EndCloud(c, xs) == c && |xs| <= 2
    ensures EndLocal(Start(Ensure, again), xs).Finished? <==> |xs| == 2
    ensures |xs| == 2 ==> EndLocal(Start(Ensure, again), xs) == Finished(Status(c.rules[id].publicIp, ctx.lbName))
  {
    SettledForStatus(c, ctx, again, id, c.rules[id].publicIp);
    if xs != [] {
      SettledFirstAnswer(c, again, id, xs[0].resp, xs[0].cloud);
      ReadFirst(Start(Ensure, again), c, xs);
      LastAnswer(Resume(Start(Ensure, again), xs[0].resp), c, xs[1..]);
    }
  }

  /** A run whose first request only reads. */
  lemma {:induction false} ReadFirst(l: Local, c: State, xs: seq<Exchange>)
    requires l.Busy? && xs != [] && HealthyRun(l, c, xs) && IsRead(Issue(l)) && xs[0].cloud == c
    ensures var (l', rest) := (Resume(l, xs[0].resp), xs[1..]);
            && HealthyRun(l', c, rest) && EndLocal(l, xs) == EndLocal(l', rest) && EndCloud(c, xs) == EndCloud(c, rest)
            && Mutates(l, xs) == Mutates(l', rest)
  {
  }

  /** A call that only has to push makes one more request. */
  lemma {:induction false} LastAnswer(l: Local, c: State, xs: seq<Exchange>)
    requires l.Busy? && l.pc == Push && HealthyRun(l, c, xs)
    ensures !Mutates(l, xs) && EndCloud(c, xs) == c && |xs| <= 1
    ensures EndLocal(l, xs) == if |xs| == 0 then l else Finished(Status(l.ip.address, l.ctx.lbName))
  {
    if xs != [] {
      var l', rest := Resume(l, xs[0].resp), xs[1..];
      assert HealthyRun(l', xs[0].cloud, rest) && l'.Finished?;
      assert rest == [] && EndLocal(l, xs) == EndLocal(l', rest);
    }
  }

  /** Ensure, then Ensure again with the same request or with the status the first run returned: the
      second run changes nothing and returns the same status. */
  lemma {:induction false} EnsureTwice(ctx: Ctx, again: Ctx, c: State, xs: seq<Exchange>, ys: seq<Exchange>)
    requires var first := EndLocal(Start(Ensure, ctx), xs);
             Sound(c) && HealthyRun(Start(Ensure, ctx), c, xs) && IsStatus(first) && SameRequest(ctx, again, first.outcome.ip)
    requires HealthyRun(Start(Ensure, again), EndCloud(c, xs), ys)
    ensures !Mutates(Start(Ensure, again), ys) && EndCloud(EndCloud(c, xs), ys) == EndCloud(c, xs)
    ensures EndLocal(Start(Ensure, again), ys).Finished? ==> EndLocal(Start(Ensure, again), ys) == EndLocal(Start(Ensure, ctx), xs)
  {
    EnsureConverges(ctx, c, xs);
    var end := EndCloud(c, xs);
    var id :| Settled(end, ctx, id) && EndLocal(Start(Ensure, ctx), xs) == Finished(Status(end.rules[id].publicIp, ctx.lbName));
    EnsureIsFixpoint(end, ctx, again, id, ys);
  }

  // ------------------------------------------------------------------------------------
  // Where retrying does not help

  /** The tags a fresh rule has after its first `i` tagging requests. */
  function FirstTags(service: ServiceKey, i: nat): seq<Tag> {
    if i == 0 then [] else FirstTags(service, i - 1) + [OwnTag(service, i - 1)]
  }

  lemma {:induction false} FirstTagsLookup(service: ServiceKey, i: nat, key: string)
    requires i <= |TAG_ORDER|
    ensures GetTag(FirstTags(service, i), key) ==
            if exists k :: 0 <= k < i && TAG_ORDER[k] == key then Some(Lookup(TagsFor(service), key)) else None
  {
    if i > 0 {
      FirstTagsLookup(service, i - 1, key);
      GetTagAppend(FirstTags(service, i - 1), OwnTag(service, i - 1), key);
    }
  }

  lemma {:induction false} FirstTagsLack(service: ServiceKey, j: nat)
    requires j < |TAG_ORDER|
    ensures !HasKey(FirstTags(service, j), TAG_ORDER[j])
  {
    TagKeys(service);
    FirstTagsLookup(service, j, TAG_ORDER[j]);
    GetTagFinds(FirstTags(service, j), TAG_ORDER[j]);
    assert TAG_ORDER[0] == CLOUD_PROVIDER_TAG && TAG_ORDER[1] == NAMESPACE_TAG && TAG_ORDER[2] == SERVICE_TAG;
  }

  /** A rule with only some of its tags fails the ownership test unless the service's status
      already names the balancer. */
  lemma {:induction false} PartlyTaggedUnmanaged(ctx: Ctx, i: nat)
    requires i < |TAG_ORDER|
    ensures ShouldManageLb(FirstTags(ctx.service, i), ctx.service, ctx.ingress, ctx.lbName) <==> StatusNames(ctx.ingress, ctx.lbName)
  {
    TagKeys(ctx.service);
    FirstTagsLookup(ctx.service, i, SERVICE_TAG);
    FirstTagsLookup(ctx.service, i, IGNORE_TAG);
    assert TAG_ORDER[0] == CLOUD_PROVIDER_TAG && TAG_ORDER[1] == NAMESPACE_TAG && TAG_ORDER[2] == SERVICE_TAG;
    assert TagMissing(FirstTags(ctx.service, i), ctx.service, SERVICE_TAG);
  }

  /** If tagging a rule the call has just created fails, the rule stays behind: the next Ensure for
      the same service is refused, and the next Delete leaves the rule alone without an error,
      exactly when the service's status does not name the balancer yet, as for a new service. */
  lemma {:induction false} TagFailureStrandsRule(ctx: Ctx, c: State, id: string, i: nat, resp: Response, c': State)
    requires i < |TAG_ORDER| && OnlyNamed(c, ctx.lbName, id) && c.rules[id].tags == FirstTags(ctx.service, i)
    requires ctx.algorithm.Some? && ctx.ports.Ok? && ctx.removable
    requires Healthy(c, ListRulesByKeyword(ctx.lbName), resp, c')
    ensures Resume(Start(Ensure, ctx), resp) == Finished(Error) <==> !StatusNames(ctx.ingress, ctx.lbName)
    ensures Resume(Start(Delete, ctx), resp) == Finished(Deleted) <==> !StatusNames(ctx.ingress, ctx.lbName)
    ensures c' == c
  {
    NamedAnswer(c, ctx.lbName, id, resp, c');
    PartlyTaggedUnmanaged(ctx, i);
  }
}
