/** The load balancer object and its methods, which update it in place between requests. Every
    method makes exactly the requests of the program in module Reconciler. */
module LoadBalancer {
  import opened Wrappers
  import opened Kube
  import opened Tags
  import opened Cloud
  import opened Reconciler
  import opened ReconcilerFixpoint
  import opened ReconcilerOutcome
  import opened Client
  import Ports
  import Strings
  import Sorting

  /** Looking up one address: an error, nothing, or the address. */
  datatype Lookup = LookupFailed | NotFound | FoundIp(ip: PublicIp)

  function ReadOne(resp: Response): Lookup {
    if !resp.Ips? || |resp.ips| > 1 then LookupFailed
    else if |resp.ips| == 0 then NotFound
    else FoundIp(resp.ips[0])
  }

  datatype CheckResult = CheckResult(needsTags: bool, needsUpdate: bool, present: bool)

  /** The addresses whose tags match the service's, in order. */
  method TaggedIps(ips: seq<PublicIp>, service: ServiceKey) returns (validIps: seq<PublicIp>)
    ensures validIps == Select(ips, IpTagged(service))
  {
    validIps := [];
    for i := 0 to |ips|
      invariant validIps == Select(ips[..i], IpTagged(service))
    {
      assert ips[..i + 1][..i] == ips[..i];
      var all := MatchAllTags(ips[i].tags, TagsFor(service));
      if all {
        validIps := validIps + [ips[i]];
      }
    }
    assert ips[..|ips|] == ips;
  }

  /** Where a call stands when the first `i` tags of the resource are set. */
  ghost function TagPlace(resource: Resource, base: Local, i: nat): Local
    requires base.Busy?
  {
    if i < |TAG_ORDER| then base.(pc := if resource.OnRule? then TagRule(i) else TagIp(i))
    else if resource.OnRule? then base.(pc := Push)
    else GotIp(base, base.ip)
  }

  ghost function TagFailure(resource: Resource, base: Local): Local
    requires base.Busy?
  {
    if resource.OnRule? then Finished(Error) else base.(pc := RollBackIp)
  }

  lemma TagIssue(resource: Resource, base: Local, i: nat)
    requires base.Busy? && i < |TAG_ORDER| && (resource == OnRule(RuleId(base)) || resource == OnIp(base.ip.id))
    ensures TagPlace(resource, base, i).Busy?
    ensures Issue(TagPlace(resource, base, i)) == CreateTag(resource, OwnTag(base.ctx.service, i))
  {
  }

  lemma TagAnswer(resource: Resource, base: Local, i: nat, resp: Response)
    requires base.Busy? && i < |TAG_ORDER| && TagPlace(resource, base, i).Busy?
    ensures Resume(TagPlace(resource, base, i), resp) ==
            if resp.Done? || resp.AlreadyExists? then TagPlace(resource, base, i + 1) else TagFailure(resource, base)
  {
    AddressPlaceForgotten(base, TagIp(i), base.ip);
  }

  /** The rule a search must come up with: the only one with the name, or none. */
  ghost predicate FindsByName(c: State, ctx: Ctx, pick: Pick<Rule>) {
    && (forall id :: OnlyNamed(c, ctx.lbName, id) ==> pick == One(c.rules[id]))
    && ((forall id :: id in c.rules ==> c.rules[id].name != ctx.lbName) ==> pick == Nobody)
  }

  ghost predicate FindsByTags(c: State, ctx: Ctx, pick: Pick<Rule>) {
    && (forall id :: OnlyTagged(c, ctx.lbName, ctx.service, id) ==> pick == One(c.rules[id]))
    && ((forall id :: id in c.rules ==> !MatchesAll(c.rules[id].tags, TagsFor(ctx.service))) ==> pick == Nobody)
  }

  /** What both searches together come up with: the balancer's rule, or nothing where there is none. */
  ghost predicate FindsBalancer(c: State, ctx: Ctx, pick: Pick<Rule>) {
    && (forall id :: IsBalancer(c, ctx, id) ==> pick == One(c.rules[id]))
    && (NoRule(c, ctx) ==> pick == Nobody)
  }

  function PickOf(ok: bool, rule: Option<Rule>): Pick<Rule> {
    if !ok then Many else if rule.Some? then One(rule.value) else Nobody
  }

  /** The search by tags only counts where no rule has the name. */
  lemma SearchesCombine(c: State, ctx: Ctx, named: Pick<Rule>, tagged: Pick<Rule>)
    requires FindsByName(c, ctx, named) && (named.Nobody? ==> FindsByTags(c, ctx, tagged))
    ensures FindsBalancer(c, ctx, if named.Nobody? then tagged else named)
  {
    forall id | IsBalancer(c, ctx, id) ensures (if named.Nobody? then tagged else named) == One(c.rules[id]) {
      if OnlyNamed(c, ctx.lbName, id) {
        assert named == One(c.rules[id]);
      } else {
        assert named == Nobody;
      }
    }
  }

  lemma NameSearchFinds(c: State, ctx: Ctx, resp: Response, c': State)
    requires Healthy(c, ListRulesByKeyword(ctx.lbName), resp, c')
    ensures c' == c && resp.Rules? && FindsByName(c, ctx, NamedPick(resp.rules, ctx.lbName))
  {
    forall id | OnlyNamed(c, ctx.lbName, id) ensures NamedPick(resp.rules, ctx.lbName) == One(c.rules[id]) {
      NamedAnswer(c, ctx.lbName, id, resp, c');
    }
    if forall id :: id in c.rules ==> c.rules[id].name != ctx.lbName {
      NobodyNamed(c, ctx.lbName, resp, c');
    }
  }

  lemma TagSearchFinds(c: State, ctx: Ctx, resp: Response, c': State)
    requires Healthy(c, ListRulesByTag(ctx.service.name), resp, c')
    ensures c' == c && resp.Rules? && FindsByTags(c, ctx, TaggedPick(resp.rules, ctx.service))
  {
    forall id | OnlyTagged(c, ctx.lbName, ctx.service, id) ensures TaggedPick(resp.rules, ctx.service) == One(c.rules[id]) {
      TaggedAnswer(c, ctx.lbName, ctx.service, id, resp, c');
    }
    if forall id :: id in c.rules ==> !MatchesAll(c.rules[id].tags, TagsFor(ctx.service)) {
      NoneSelected(resp.rules, RuleTagged(ctx.service));
    }
  }

  /** What follows the release of the replaced address, or of the last one. */
  ghost function AfterRelease(l: Local, last: bool): Local
    requires l.Busy?
  {
    if last then Finished(Deleted) else CheckRule(l)
  }

  lemma ReleaseAnswers(l: Local, last: bool)
    requires l.Busy?
    ensures var at := l.(pc := if last then ReleaseLastIp else ReleaseOldIp);
            && Issue(at) == DisassociateIp(if last then l.ip.id else l.oldIp.id)
            && forall resp :: Resume(at, resp) == if resp.Done? then AfterRelease(l, last) else Finished(Error)
  {
    CheckPlaceForgotten(l, ReleaseOldIp);
  }

  lemma DropAnswers(l: Local)
    requires l.Busy? && l.rule.Some? && l.pc == DropRule
    ensures Issue(l) == DeleteRule(l.rule.value.id)
    ensures forall resp :: Resume(l, resp) ==
              if !resp.Done? then Finished(Error)
              else if l.ip.id != "" then l.(rule := None, pc := FetchLastIp)
              else Finished(Deleted)
  {
  }

  lemma CreateAnswers(l: Local)
    requires l.Busy? && l.pc == Create && l.ctx.algorithm.Some? && l.ctx.ports.Ok?
    ensures Issue(l) == CreateRule(l.ctx.lbName, l.ctx.algorithm.value, Ports.CreatedPorts(l.ctx.ports.value), l.ip.id, l.network)
    ensures forall resp :: Resume(l, resp) ==
              if resp.NewRule? then l.(rule := Some(resp.rule), pc := TagRule(0)) else Finished(Error)
  {
  }

  lemma ReadAnswers(l: Local, last: bool)
    requires l.Busy?
    ensures var at := l.(pc := if last then FetchLastIp else FetchOldIp);
            && Issue(at) == ListIpsById(if last then l.ip.id else l.oldIp.id)
            && forall resp :: Resume(at, resp) == AfterRead(l, last, ReadOne(resp))
  {
    CheckPlaceForgotten(l, FetchOldIp);
  }

  ghost function AfterRead(l: Local, last: bool, found: Lookup): Local
    requires l.Busy?
  {
    if !found.FoundIp? then Finished(Error)
    else if ShouldManageIp(found.ip.tags, l.ctx.service) then l.(pc := if last then ReleaseLastIp else ReleaseOldIp)
    else AfterRelease(l, last)
  }

  lemma PushAnswers(l: Local)
    requires l.Busy? && l.pc == Push
    ensures Issue(l) == PushUpdate
    ensures forall resp :: Resume(l, resp) == Finished(if resp.Done? then Status(l.ip.address, l.ctx.lbName) else Error)
  {
  }

  class LoadBalancer {
    const client: Client
    const ctx: Ctx
    ghost const kind: Kind
    var ip: IpRef
    var rule: Option<Rule>
    var mainNetworkId: string
    /** The address being replaced, for as long as the program remembers it. */
    ghost var oldIp: IpRef

    constructor (client: Client, ctx: Ctx)
      requires client.Stands(Start(client.kind, ctx)) && client.ctx == ctx
      ensures this.client == client && this.ctx == ctx && kind == client.kind
      ensures View(ListByName) == Start(kind, ctx)
    {
      this.client, this.ctx, kind := client, ctx, client.kind;
      ip, rule, mainNetworkId, oldIp := NO_IP, None, ctx.network, NO_IP;
    }

    /** The object as a call in progress at `pc`. */
    ghost function View(pc: Pc): (l: Local)
      reads this
      ensures l.Busy?
    {
      Busy(kind, ctx, pc, rule, ip, oldIp, mainNetworkId)
    }

    /** Between two requests the program's place does not matter: this one stands for all. */
    ghost function Here(): (l: Local)
      reads this
      ensures l.Busy?
    {
      View(Push)
    }

    // ------------------------------------------------------------------------------------
    // Finding the rule

    method GetRuleByName() returns (pick: Pick<Rule>)
      requires client.Stands(View(ListByName)) && rule.None?
      modifies client
      ensures pick.Nobody? ==> client.Stands(View(ListByTag))
      ensures pick.One? ==> client.Stands(Found(Here(), Some(pick.value)))
      ensures pick.Many? ==> client.Stands(Finished(Error))
      ensures client.healthy ==> old(client.healthy) && client.cloud == old(client.cloud) && FindsByName(client.cloud, ctx, pick)
    {
      var resp := client.Call(ListRulesByKeyword(ctx.lbName));
      if client.healthy {
        NameSearchFinds(old(client.cloud), ctx, resp, client.cloud);
      }
      if !resp.Rules? {
        return Many;
      }
      pick := PickUnique(resp.rules, HasName(ctx.lbName));
      if pick.One? {
        PlaceForgotten(View(ListByName), Push, Some(pick.value));
      }
    }

    method GetRuleByTags() returns (pick: Pick<Rule>)
      requires client.Stands(View(ListByTag)) && rule.None?
      modifies client
      ensures pick.Nobody? ==> client.Stands(Found(Here(), None))
      ensures pick.One? ==> client.Stands(Found(Here(), Some(pick.value)))
      ensures pick.Many? ==> client.Stands(Finished(Error))
      ensures client.healthy ==> old(client.healthy) && client.cloud == old(client.cloud) && FindsByTags(client.cloud, ctx, pick)
    {
      var resp := client.Call(ListRulesByTag(ctx.service.name));
      if client.healthy {
        TagSearchFinds(old(client.cloud), ctx, resp, client.cloud);
      }
      if !resp.Rules? {
        return Many;
      }
      pick := PickUnique(resp.rules, RuleTagged(ctx.service));
      PlaceForgotten(View(ListByTag), Push, None);
      if pick.One? {
        PlaceForgotten(View(ListByTag), Push, Some(pick.value));
      }
    }

    /** getLoadBalancerRule: by name first, then by tags. */
    method GetLoadBalancerRule() returns (pick: Pick<Rule>)
      requires client.Stands(View(ListByName)) && rule.None?
      modifies client
      ensures pick.Nobody? ==> client.Stands(Found(Here(), None))
      ensures pick.One? ==> client.Stands(Found(Here(), Some(pick.value)))
      ensures pick.Many? ==> client.Stands(Finished(Error))
      ensures client.healthy ==> client.cloud == old(client.cloud) && FindsBalancer(client.cloud, ctx, pick)
    {
      var named := GetRuleByName();
      pick := named;
      if named.Nobody? {
        pick := GetRuleByTags();
      }
      if client.healthy {
        SearchesCombine(client.cloud, ctx, named, pick);
      }
    }

    /** getLoadBalancer: a rule found brings its address and network. */
    method GetLoadBalancer() returns (ok: bool)
      requires client.Stands(View(ListByName)) && rule.None?
      modifies this, client
      ensures oldIp == old(oldIp)
      ensures !ok ==> client.Stands(Finished(Error))
      ensures ok ==> client.Stands(Found(old(Here()), rule))
      ensures ok && rule.None? ==> Here() == old(Here())
      ensures ok && rule.Some? ==>
                var r := rule.value;
                ip == IpRef(r.publicIpId, r.publicIp, r.networkId) && mainNetworkId == r.networkId
      ensures client.healthy ==> client.cloud == old(client.cloud) && FindsBalancer(client.cloud, ctx, PickOf(ok, rule))
    {
      var pick := GetLoadBalancerRule();
      if pick.Many? {
        return false;
      }
      ok := true;
      if pick.One? {
        rule := Some(pick.value);
        ip := IpRef(pick.value.publicIpId, pick.value.publicIp, pick.value.networkId);
        mainNetworkId := pick.value.networkId;
      }
    }

    // ------------------------------------------------------------------------------------
    // Finding the address

    method TryIpByTags() returns (pick: Pick<PublicIp>)
      requires client.Stands(View(FindIpByTag))
      modifies client
      ensures pick.Nobody? ==> client.Stands(NoTaggedIp(Here()))
      ensures pick.One? ==> client.Stands(GotIp(Here(), RefOf(pick.value)))
      ensures pick.Many? ==> client.Stands(Finished(Error))
    {
      var resp := client.Ask(ListIpsByTag(ctx.service.name));
      if !resp.Ips? {
        return Many;
      }
      var validIps := TaggedIps(resp.ips, ctx.service);
      pick := PickOnly(validIps);
      if pick.One? {
        AddressPlaceForgotten(View(FindIpByTag), Push, RefOf(pick.value));
      }
    }

    method GetIpByAddress(address: string) returns (found: Lookup, ghost resp: Response)
      requires client.Waits(ListIpsByAddress(address))
      modifies client
      ensures client.Stands(Resume(old(client.at), resp)) && found == ReadOne(resp)
    {
      var answer := client.Ask(ListIpsByAddress(address));
      resp, found := answer, ReadOne(answer);
    }

    method GetIpById(id: string) returns (found: Lookup, ghost resp: Response)
      requires client.Waits(ListIpsById(id))
      modifies client
      ensures client.Stands(Resume(old(client.at), resp)) && found == ReadOne(resp)
    {
      var answer := client.Ask(ListIpsById(id));
      resp, found := answer, ReadOne(answer);
    }

    method AssociateIp() returns (r: Option<IpRef>)
      requires client.Stands(View(FindNetwork))
      modifies client
      ensures r.None? ==> client.Stands(Finished(Error))
      ensures r.Some? ==> client.Stands(Busy(kind, ctx, TagIp(0), rule, r.value, oldIp, mainNetworkId))
    {
      var network := client.Ask(GetNetwork(mainNetworkId));
      if !network.Done? {
        return None;
      }
      var resp := client.Ask(Cloud.AssociateIp(mainNetworkId));
      if !resp.NewIp? {
        return None;
      }
      r := Some(RefOf(resp.ip));
    }

    method SetTag(resource: Resource, tag: Tag, ghost base: Local, ghost i: nat) returns (ok: bool)
      requires base.Busy? && i < |TAG_ORDER| && tag == OwnTag(base.ctx.service, i)
      requires resource == OnRule(RuleId(base)) || resource == OnIp(base.ip.id)
      requires client.Stands(TagPlace(resource, base, i))
      modifies client
      ensures client.Stands(if ok then TagPlace(resource, base, i + 1) else TagFailure(resource, base))
    {
      TagIssue(resource, base, i);
      var resp := client.Ask(CreateTag(resource, tag));
      ok := resp.Done? || resp.AlreadyExists?;
      TagAnswer(resource, base, i, resp);
    }

    /** setResourceTags: one request per tag in the sorted order of the keys; a tag that exists
        already is not an error. `base` is the call without its place. */
    method SetResourceTags(resource: Resource, ghost base: Local) returns (ok: bool)
      requires base.Busy? && base.ctx == ctx
      requires resource == OnRule(RuleId(base)) || resource == OnIp(base.ip.id)
      requires client.Stands(TagPlace(resource, base, 0))
      modifies client
      ensures client.Stands(if ok then TagPlace(resource, base, |TAG_ORDER|) else TagFailure(resource, base))
    {
      var tags := TagsFor(ctx.service);
      var ordered := Ports.SortedList(tags.Keys);
      TagKeysOrdered(ordered, ctx.service);
      var i := 0;
      while i < |ordered|
        invariant 0 <= i <= |TAG_ORDER|
        invariant client.Stands(TagPlace(resource, base, i))
      {
        OwnTagKey(ctx.service, i);
        ok := SetTag(resource, Tag(ordered[i], tags[ordered[i]]), base, i);
        if !ok {
          return false;
        }
        i := i + 1;
      }
      ok := true;
    }

    /** getLoadBalancerIP: by tags, then the requested address, then the address in the status, then
        a new one; the last two are tagged, and given back when that fails. */
    method GetLoadBalancerIp() returns (r: Option<IpRef>)
      requires client.Stands(View(FindIpByTag))
      modifies client
      ensures r.None? ==> client.Stands(Finished(Error))
      ensures r.Some? ==> client.Stands(GotIp(Here(), r.value))
    {
      var pick := TryIpByTags();
      if pick.One? {
        return Some(RefOf(pick.value));
      }
      if pick.Many? {
        return None;
      }
      if ctx.specIp != "" {
        r := GetSpecIp();
        return;
      }
      var found := None;
      if |ctx.ingress| > 0 && ctx.ingress[0].ip != "" {
        var lookup;
        ghost var resp;
        lookup, resp := GetIpByAddress(ctx.ingress[0].ip);
        if lookup.LookupFailed? {
          return None;
        }
        if lookup.FoundIp? {
          found := Some(RefOf(lookup.ip));
        }
      }
      if found.None? {
        found := AssociateIp();
        if found.None? {
          return None;
        }
      }
      r := TagOrRelease(found.value);
    }

    method GetSpecIp() returns (r: Option<IpRef>)
      requires client.Stands(View(FindSpecIp))
      modifies client
      ensures r.None? ==> client.Stands(Finished(Error))
      ensures r.Some? ==> client.Stands(GotIp(Here(), r.value))
    {
      var lookup, resp := GetIpByAddress(ctx.specIp);
      if lookup.FoundIp? {
        AddressPlaceForgotten(View(FindSpecIp), Push, RefOf(lookup.ip));
        return Some(RefOf(lookup.ip));
      }
      return None;
    }

    method TagOrRelease(found: IpRef) returns (r: Option<IpRef>)
      requires client.Stands(Tagging(found))
      modifies client
      ensures r.None? ==> client.Stands(Finished(Error))
      ensures r.Some? ==> r == Some(found) && client.Stands(GotIp(Here(), found))
    {
      AddressPlaceForgotten(Tagging(found), Push, found);
      var tagged := SetResourceTags(OnIp(found.id), Tagging(found));
      if !tagged {
        GiveBack(found);
        return None;
      }
      return Some(found);
    }

    method GiveBack(found: IpRef)
      requires client.Stands(TagFailure(OnIp(found.id), Tagging(found)))
      modifies client
      ensures client.Stands(Finished(Error))
    {
      var resp := client.Ask(DisassociateIp(found.id));
    }

    /** The call about to tag an address. */
    ghost function Tagging(found: IpRef): (l: Local)
      reads this
      ensures l.Busy?
    {
      Busy(kind, ctx, TagIp(0), rule, found, oldIp, mainNetworkId)
    }

    method LoadLoadBalancerIp() returns (ok: bool)
      requires client.Stands(if ip.Valid() then HaveIp(Here()) else View(FindIpByTag))
      modifies this, client
      ensures rule == old(rule) && oldIp == old(oldIp)
      ensures client.Stands(if ok then HaveIp(Here()) else Finished(Error))
    {
      if ip.Valid() {
        return true;
      }
      var found := GetLoadBalancerIp();
      if found.None? {
        return false;
      }
      ip := found.value;
      mainNetworkId := found.value.network;
      ok := true;
    }

    // ------------------------------------------------------------------------------------
    // Replacing the address

    /** deleteLoadBalancerRule forgets the rule only when the server confirms. */
    method DeleteLoadBalancerRule() returns (ok: bool, ghost resp: Response)
      requires rule.Some? && client.Waits(DeleteRule(rule.value.id))
      modifies this`rule, client
      ensures client.Stands(Resume(old(client.at), resp)) && ok == resp.Done?
      ensures rule == if ok then None else old(rule)
    {
      var answer := client.Ask(DeleteRule(rule.value.id));
      resp, ok := answer, answer.Done?;
      if ok {
        rule := None;
      }
    }

    method Release(which: IpRef, ghost last: bool) returns (ok: bool)
      requires which == if last then ip else oldIp
      requires client.Stands(View(if last then ReleaseLastIp else ReleaseOldIp))
      modifies client
      ensures client.Stands(if ok then AfterRelease(Here(), last) else Finished(Error))
    {
      ReleaseAnswers(Here(), last);
      var resp := client.Ask(DisassociateIp(which.id));
      ok := resp.Done?;
    }

    method ReadTags(which: IpRef, ghost last: bool) returns (tags: Option<seq<Tag>>)
      requires which == if last then ip else oldIp
      requires client.Stands(View(if last then FetchLastIp else FetchOldIp))
      modifies client
      ensures tags.None? ==> client.Stands(Finished(Error))
      ensures tags.Some? ==>
                client.Stands(if !ShouldManageIp(tags.value, ctx.service) then AfterRelease(Here(), last)
                              else View(if last then ReleaseLastIp else ReleaseOldIp))
    {
      ReadAnswers(Here(), last);
      var lookup, resp := GetIpById(which.id);
      tags := if lookup.FoundIp? then Some(lookup.ip.tags) else None;
    }

    /** releaseIPIfManaged, in either place: an address goes only if its tags, read back, are all
        the service's. */
    method ReleaseIpIfManaged(which: IpRef, ghost last: bool) returns (ok: bool)
      requires which == if last then ip else oldIp
      requires client.Stands(View(if last then FetchLastIp else FetchOldIp))
      modifies client
      ensures client.Stands(if ok then AfterRelease(Here(), last) else Finished(Error))
    {
      var tags := ReadTags(which, last);
      if tags.None? {
        return false;
      }
      var managed := IsIpManaged(tags.value, ctx.service);
      if managed {
        ok := Release(which, last);
        return;
      }
      return true;
    }

    /** The first half of updateLoadBalancerIP: the balancer takes the requested address. */
    method TakeRequestedIp() returns (ok: bool)
      requires client.Stands(View(FindNewIp))
      modifies this`ip, this`oldIp, client
      ensures !ok ==> client.Stands(Finished(Error))
      ensures ok ==> oldIp == old(ip)
      ensures ok ==> client.Stands(if rule.Some? then View(DropRuleForIp) else IpSwapped(Here()))
    {
      var lookup, resp := GetIpByAddress(ctx.specIp);
      if !lookup.FoundIp? {
        return false;
      }
      oldIp := ip;
      ip := RefOf(lookup.ip);
      SwapPlaceForgotten(View(FindNewIp), Push);
      ok := true;
    }

    method DropRuleForNewIp() returns (ok: bool)
      requires rule.Some? && client.Stands(View(DropRuleForIp))
      modifies this`rule, client
      ensures ok ==> rule.None?
      ensures client.Stands(if ok then IpSwapped(Here()) else Finished(Error))
    {
      SwapPlaceForgotten(View(DropRuleForIp).(rule := None), Push);
      ghost var gone;
      ok, gone := DeleteLoadBalancerRule();
    }

    method UpdateLoadBalancerIp() returns (ok: bool)
      requires client.Stands(View(FindNewIp))
      modifies this, client
      ensures mainNetworkId == old(mainNetworkId)
      ensures client.Stands(if ok then CheckRule(Here()) else Finished(Error))
    {
      var replaced := ip;
      ok := TakeRequestedIp();
      if !ok {
        return false;
      }
      if rule.Some? {
        ok := DropRuleForNewIp();
        if !ok {
          return false;
        }
      }
      if !replaced.Valid() {
        return true;
      }
      ok := ReleaseIpIfManaged(replaced, false);
    }

    // ------------------------------------------------------------------------------------
    // Making the rule right

    /** checkLoadBalancerRule: keeps a rule with the right ports and name, which needs an update exactly
        when its algorithm is another one; drops any other. */
    method CheckLoadBalancerRule() returns (r: Option<CheckResult>)
      requires ctx.algorithm.Some? && client.Stands(CheckRule(Here()))
      modifies this`rule, client
      ensures r.None? ==> client.Stands(Finished(Error))
      ensures r.Some? ==>
                (r.value.present <==> old(rule).Some? && ctx.ports.Ok? && SameRule(ctx, old(rule).value))
      ensures r.Some? && r.value.present ==> rule == old(rule) && (r.value.needsUpdate <==> rule.value.algorithm != ctx.algorithm.value)
      ensures r.Some? && r.value.present ==>
                && rule.Some? && ctx.ports.Ok? && r.value.needsTags == HasMissingKeys(rule.value.tags)
                && client.Stands(if r.value.needsUpdate then View(Update) else RuleUpdated(Here()))
      ensures r.Some? && !r.value.present ==>
                && rule.None? && !r.value.needsUpdate && !r.value.needsTags
                && client.Stands(if ctx.ports.Err? then Finished(Error) else View(Create))
    {
      if rule.None? {
        return Some(CheckResult(false, false, false));
      }
      if ctx.ports.Err? {
        return None;
      }
      var current := rule.value;
      var portsEqual, sortedPorts := Ports.ComparePorts(ctx.ports.value, current.ports);
      if portsEqual && ctx.lbName == current.name {
        var needsTags := HasMissingTags(current.tags);
        return Some(CheckResult(needsTags, current.algorithm != ctx.algorithm.value, true));
      }
      var dropped := DropRuleForPorts();
      r := if dropped then Some(CheckResult(false, false, false)) else None;
    }

    method DropRuleForPorts() returns (ok: bool)
      requires rule.Some? && client.Stands(View(Pc.DropRuleForPorts))
      modifies this`rule, client
      ensures ok ==> rule.None?
      ensures client.Stands(if ok then View(Create) else Finished(Error))
    {
      ghost var gone;
      ok, gone := DeleteLoadBalancerRule();
    }

    method UpdateLoadBalancerRule() returns (ok: bool)
      requires ctx.algorithm.Some? && rule.Some? && client.Stands(View(Update))
      modifies client
      ensures client.Stands(if ok then RuleUpdated(Here()) else Finished(Error))
    {
      var resp := client.Ask(UpdateRule(rule.value.id, ctx.algorithm.value));
      ok := resp.Done?;
    }

    method AssignTagsToRule() returns (ok: bool)
      requires rule.Some? && client.Stands(View(TagRule(0)))
      modifies client
      ensures client.Stands(if ok then Here() else Finished(Error))
    {
      ok := SetResourceTags(OnRule(rule.value.id), View(TagRule(0)));
    }

    method CreateLoadBalancerRule() returns (ok: bool)
      requires ctx.algorithm.Some? && rule.None? && client.Stands(if ctx.ports.Err? then Finished(Error) else View(Create))
      modifies this`rule, client
      ensures ok ==> rule.Some?
      ensures client.Stands(if ok then View(TagRule(0)) else Finished(Error))
    {
      if ctx.ports.Err? {
        return false;
      }
      CreateAnswers(View(Create));
      var resp := client.Ask(CreateRule(ctx.lbName, ctx.algorithm.value, Ports.CreatedPorts(ctx.ports.value), ip.id, mainNetworkId));
      if !resp.NewRule? {
        return false;
      }
      rule := Some(resp.rule);
      ok := true;
    }

    method PushToQueue() returns (ok: bool)
      requires client.Stands(Here())
      modifies client
      ensures client.Stands(Finished(if ok then Status(ip.address, ctx.lbName) else Error))
    {
      PushAnswers(Here());
      var resp := client.Ask(PushUpdate);
      ok := resp.Done?;
    }

    // ------------------------------------------------------------------------------------
    // The calls

    /** From the rule found to the address in place. */
    method PrepareIp() returns (ok: bool)
      requires client.Stands(if ip.Valid() then HaveIp(Here()) else View(FindIpByTag))
      modifies this, client
      ensures client.Stands(if ok then CheckRule(Here()) else Finished(Error))
    {
      ok := LoadLoadBalancerIp();
      if !ok {
        return false;
      }
      if ctx.specIp != "" && ip.address != ctx.specIp {
        ok := UpdateLoadBalancerIp();
      }
    }

    /** From the address in place to the rule updated or created, tagged and queued. */
    method ApplyRule() returns (ok: bool)
      requires ctx.algorithm.Some? && client.Stands(CheckRule(Here()))
      modifies this, client
      ensures ip == old(ip)
      ensures client.Stands(Finished(if ok then Status(ip.address, ctx.lbName) else Error))
    {
      var result := CheckLoadBalancerRule();
      if result.None? {
        return false;
      }
      ok := true;
      if result.value.needsUpdate {
        ok := UpdateLoadBalancerRule();
        if !ok {
          return false;
        }
      }
      if result.value.needsTags {
        ok := AssignTagsToRule();
        if !ok {
          return false;
        }
      }
      if !result.value.present {
        ok := CreateLoadBalancerRule();
        if !ok {
          return false;
        }
        ok := AssignTagsToRule();
        if !ok {
          return false;
        }
      }
      ok := PushToQueue();
    }

    /** EnsureLoadBalancer from its first request on. Whatever the server answers, what it destroys
        is guarded; and if nothing failed, it ends as it must, and a status means that the cloud is
        what the service asks for. */
    method EnsureLoadBalancer() returns (outcome: Outcome)
      requires kind == client.kind == Ensure && ctx == client.ctx
      requires View(ListByName) == Start(Ensure, ctx) && client.Stands(Start(Ensure, ctx))
      modifies this, client
      ensures client.Stands(Finished(outcome)) && Guarded(Ensure, ctx, client.log)
      ensures client.healthy && Sound(client.origin) ==> EnsureEnds(ctx, client.origin, client.cloud, outcome)
      ensures client.healthy && outcome.Status? && Sound(client.origin) ==> Converged(Finished(outcome), ctx, client.cloud)
    {
      outcome := EnsureSteps();
      GuardedFromTrace(Ensure, ctx, client.log);
      if client.healthy && Sound(client.origin) {
        EnsureOutcome(ctx, client.origin, client.history);
        if outcome.Status? {
          EnsureConverges(ctx, client.origin, client.history);
        }
      }
    }

    method EnsureSteps() returns (outcome: Outcome)
      requires kind == Ensure && View(ListByName) == Start(Ensure, ctx) && client.Stands(Start(Ensure, ctx))
      modifies this, client
      ensures client.Stands(Finished(outcome))
    {
      var ok := GetLoadBalancer();
      if !ok || ctx.algorithm.None? {
        return Error;
      }
      if rule.Some? {
        var managed := IsLbManaged(rule.value.tags, ctx.service, ctx.ingress, ctx.lbName);
        if !managed {
          return Error;
        }
      }
      ok := PrepareIp();
      if !ok {
        return Error;
      }
      ok := ApplyRule();
      outcome := if ok then Status(ip.address, ctx.lbName) else Error;
    }

    /** EnsureLoadBalancerDeleted, likewise. */
    method EnsureLoadBalancerDeleted() returns (outcome: Outcome)
      requires kind == client.kind == Delete && ctx == client.ctx
      requires View(ListByName) == Start(Delete, ctx) && client.Stands(Start(Delete, ctx))
      modifies this, client
      ensures client.Stands(Finished(outcome)) && Guarded(Delete, ctx, client.log)
      ensures client.healthy && Sound(client.origin) ==> DeleteEnds(ctx, client.origin, client.cloud, outcome)
    {
      outcome := DeleteSteps();
      GuardedFromTrace(Delete, ctx, client.log);
      if client.healthy && Sound(client.origin) {
        DeleteOutcome(ctx, client.origin, client.history);
      }
    }

    method DeleteSteps() returns (outcome: Outcome)
      requires kind == Delete && View(ListByName) == Start(Delete, ctx) && client.Stands(Start(Delete, ctx))
      modifies this, client
      ensures client.Stands(Finished(outcome))
    {
      var ok := GetLoadBalancer();
      if !ok {
        return Error;
      }
      if rule.None? || !ctx.removable {
        return Deleted;
      }
      var managed := IsLbManaged(rule.value.tags, ctx.service, ctx.ingress, ctx.lbName);
      if !managed {
        return Deleted;
      }
      ok := DropLastRule();
      if !ok {
        return Error;
      }
      if ip.id != "" {
        ok := ReleaseIpIfManaged(ip, true);
        if !ok {
          return Error;
        }
      }
      outcome := Deleted;
    }

    method DropLastRule() returns (ok: bool)
      requires rule.Some? && client.Stands(View(DropRule))
      modifies this`rule, client
      ensures client.Stands(if !ok then Finished(Error) else if ip.id != "" then View(FetchLastIp) else Finished(Deleted))
    {
      DropAnswers(View(DropRule));
      ghost var gone;
      ok, gone := DeleteLoadBalancerRule();
    }
  }

  /** Every deletion and every release in the log is justified by what the call saw before. */
  ghost predicate Guarded(kind: Kind, ctx: Ctx, log: seq<Event>) {
    forall k :: 0 <= k < |log| ==>
      && (log[k].req.DeleteRule? ==> SeenManaged(ctx, log[..k], log[k].req.id))
      && (log[k].req.DisassociateIp? ==>
            || (JustReadManaged(ctx, log[..k]) && log[k - 1].req == ListIpsById(log[k].req.id))
            || JustFailedToTag(log[..k], log[k].req.id))
  }

  lemma GuardedFromTrace(kind: Kind, ctx: Ctx, log: seq<Event>)
    requires IsTrace(kind, ctx, log)
    ensures Guarded(kind, ctx, log)
  {
    forall k | 0 <= k < |log| {
      GuardedDestruction(kind, ctx, log, k);
    }
  }

  lemma ProviderFirst()
    ensures Strings.Less(CLOUD_PROVIDER_TAG, NAMESPACE_TAG) && !Strings.Less(NAMESPACE_TAG, CLOUD_PROVIDER_TAG)
    ensures Strings.Less(CLOUD_PROVIDER_TAG, SERVICE_TAG) && !Strings.Less(SERVICE_TAG, CLOUD_PROVIDER_TAG)
  {
    var a, b, c := CLOUD_PROVIDER_TAG, NAMESPACE_TAG, SERVICE_TAG;
    assert a[0] == 'c' && b[0] == 'k' && c[0] == 'k';
    Strings.LessAtDifference(a, b, 0);
    Strings.LessAtDifference(a, c, 0);
  }

  lemma NamespaceBeforeService()
    ensures Strings.Less(NAMESPACE_TAG, SERVICE_TAG) && !Strings.Less(SERVICE_TAG, NAMESPACE_TAG)
  {
    var a, b := NAMESPACE_TAG, SERVICE_TAG;
    assert a[11] == 'n' && b[11] == 's';
    assert a[..11] == b[..11];
    forall i | 0 <= i < 11 ensures a[i] == b[i] { assert a[..11][i] == b[..11][i]; }
    Strings.LessAtDifference(a, b, 11);
  }

  lemma {:induction false} ThreeSorted(a: string, b: string, c: string, list: seq<string>)
    requires list == [a, b, c]
    requires Strings.Less(a, b) && Strings.Less(b, c) && Strings.Less(a, c)
    requires !Strings.Less(b, a) && !Strings.Less(c, b) && !Strings.Less(c, a)
    ensures Sorting.Sorted(list, Strings.Less) && Sorting.Distinct(list)
  {
  }

  lemma TagOrderSorted()
    ensures Sorting.Sorted(TAG_ORDER, Strings.Less) && Sorting.Distinct(TAG_ORDER)
  {
    ProviderFirst();
    NamespaceBeforeService();
    ThreeSorted(CLOUD_PROVIDER_TAG, NAMESPACE_TAG, SERVICE_TAG, TAG_ORDER);
  }

  lemma TagKeysOrdered(ordered: seq<string>, service: ServiceKey)
    requires Sorting.Sorted(ordered, Strings.Less) && Sorting.Distinct(ordered)
    requires forall x :: x in ordered <==> x in TagsFor(service).Keys
    ensures ordered == TAG_ORDER
  {
    TagOrderSorted();
    TagKeys(service);
    assert TAG_ORDER[0] == CLOUD_PROVIDER_TAG && TAG_ORDER[1] == NAMESPACE_TAG && TAG_ORDER[2] == SERVICE_TAG;
    Ports.SortedListUnique(ordered, TAG_ORDER);
  }

  lemma CheckPlaceForgotten(l: Local, pc: Pc)
    requires l.Busy?
    ensures CheckRule(l) == CheckRule(l.(pc := pc))
  {
  }

  lemma SwapPlaceForgotten(l: Local, pc: Pc)
    requires l.Busy?
    ensures IpSwapped(l) == IpSwapped(l.(pc := pc))
  {
    CheckPlaceForgotten(l, pc);
  }

  lemma AddressPlaceForgotten(l: Local, pc: Pc, ip: IpRef)
    requires l.Busy?
    ensures GotIp(l, ip) == GotIp(l.(pc := pc), ip)
  {
  }
}
