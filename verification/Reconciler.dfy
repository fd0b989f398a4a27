/** EnsureLoadBalancer and EnsureLoadBalancerDeleted as request-and-response programs: `Issue` is
    the request a call makes where it stands, `Resume` is where the response takes it. */
module Reconciler {
  import opened Wrappers
  import opened Kube
  import opened Tags
  import opened Cloud
  import Ports

  datatype Kind = Ensure | Delete

  /** What a call has computed from the service and the registry before its first request. */
  datatype Ctx = Ctx(service: ServiceKey, lbName: string, algorithm: Option<string>, ports: Result<Ports.LbPorts>,
                     specIp: string, ingress: seq<Ingress>, removable: bool, network: string)

  /** A public address as the balancer remembers it. */
  datatype IpRef = IpRef(id: string, address: string, network: string) {
    predicate Valid() { id != "" && address != "" }
  }

  const NO_IP := IpRef("", "", "")

  datatype Outcome = Error | Status(ip: string, hostname: string) | Deleted

  datatype Pc =
    | ListByName | ListByTag
    | FindIpByTag | FindSpecIp | FindIngressIp | FindNetwork | Associate | TagIp(i: nat) | RollBackIp
    | FindNewIp | DropRuleForIp | FetchOldIp | ReleaseOldIp
    | DropRuleForPorts | Update | Create | TagRule(i: nat) | Push
    | DropRule | FetchLastIp | ReleaseLastIp

  /** A call in progress: the balancer's mutable fields and where it waits for a response. */
  datatype Local =
    | Busy(kind: Kind, ctx: Ctx, pc: Pc, rule: Option<Rule>, ip: IpRef, oldIp: IpRef, network: string)
    | Finished(outcome: Outcome)

  function Start(kind: Kind, ctx: Ctx): Local {
    Busy(kind, ctx, ListByName, None, NO_IP, NO_IP, ctx.network)
  }

  function RuleId(l: Local): string
    requires l.Busy?
  {
    if l.rule.Some? then l.rule.value.id else ""
  }

  function OwnTag(service: ServiceKey, i: nat): Tag {
    if i < |TAG_ORDER| then Tag(TAG_ORDER[i], Lookup(TagsFor(service), TAG_ORDER[i])) else Tag("", "")
  }

  function Issue(l: Local): Request
    requires l.Busy?
  {
    match l.pc
    case ListByName => ListRulesByKeyword(l.ctx.lbName)
    case ListByTag => ListRulesByTag(l.ctx.service.name)
    case FindIpByTag => ListIpsByTag(l.ctx.service.name)
    case FindSpecIp => ListIpsByAddress(l.ctx.specIp)
    case FindIngressIp => ListIpsByAddress(if |l.ctx.ingress| > 0 then l.ctx.ingress[0].ip else "")
    case FindNetwork => GetNetwork(l.network)
    case Associate => AssociateIp(l.network)
    case TagIp(i) => CreateTag(OnIp(l.ip.id), OwnTag(l.ctx.service, i))
    case RollBackIp => DisassociateIp(l.ip.id)
    case FindNewIp => ListIpsByAddress(l.ctx.specIp)
    case DropRuleForIp => DeleteRule(RuleId(l))
    case FetchOldIp => ListIpsById(l.oldIp.id)
    case ReleaseOldIp => DisassociateIp(l.oldIp.id)
    case DropRuleForPorts => DeleteRule(RuleId(l))
    case Update => UpdateRule(RuleId(l), if l.ctx.algorithm.Some? then l.ctx.algorithm.value else "")
    case Create => CreateRule(l.ctx.lbName, if l.ctx.algorithm.Some? then l.ctx.algorithm.value else "",
                              if l.ctx.ports.Ok? then Ports.CreatedPorts(l.ctx.ports.value) else Ports.RulePorts("", "", "", Ports.Nil),
                              l.ip.id, l.network)
    case TagRule(i) => CreateTag(OnRule(RuleId(l)), OwnTag(l.ctx.service, i))
    case Push => PushUpdate
    case DropRule => DeleteRule(RuleId(l))
    case FetchLastIp => ListIpsById(l.ip.id)
    case ReleaseLastIp => DisassociateIp(l.ip.id)
  }

  function RefOf(ip: PublicIp): IpRef {
    IpRef(ip.id, ip.address, ip.networkId)
  }

  function HasName(lbName: string): Rule -> bool {
    (r: Rule) => r.name == lbName
  }

  function RuleTagged(service: ServiceKey): Rule -> bool {
    (r: Rule) => MatchesAll(r.tags, TagsFor(service))
  }

  function IpTagged(service: ServiceKey): PublicIp -> bool {
    (ip: PublicIp) => MatchesAll(ip.tags, TagsFor(service))
  }

  function NamedPick(rules: seq<Rule>, lbName: string): Pick<Rule> {
    PickOnly(Select(rules, HasName(lbName)))
  }

  function TaggedPick(rules: seq<Rule>, service: ServiceKey): Pick<Rule> {
    PickOnly(Select(rules, RuleTagged(service)))
  }

  function TaggedIpPick(ips: seq<PublicIp>, service: ServiceKey): Pick<PublicIp> {
    PickOnly(Select(ips, IpTagged(service)))
  }

  // ------------------------------------------------------------------------------------
  // Stretches of code between two requests

  /** getLoadBalancer has found `rule`, or nothing: what Ensure and Delete check next. */
  function Found(l: Local, rule: Option<Rule>): Local
    requires l.Busy?
  {
    var known := if rule.None? then l
                 else l.(rule := rule,
                         ip := IpRef(rule.value.publicIpId, rule.value.publicIp, rule.value.networkId),
                         network := rule.value.networkId);
    var managed := rule.None? || ShouldManageLb(rule.value.tags, l.ctx.service, l.ctx.ingress, l.ctx.lbName);
    match l.kind
    case Ensure =>
      if l.ctx.algorithm.None? || !managed then Finished(Error)
      else if known.ip.Valid() then HaveIp(known)
      else known.(pc := FindIpByTag)
    case Delete =>
      if rule.None? || !l.ctx.removable || !managed then Finished(Deleted)
      else known.(pc := DropRule)
  }

  /** loadLoadBalancerIP has fetched an address. */
  function GotIp(l: Local, ip: IpRef): Local
    requires l.Busy?
  {
    HaveIp(l.(ip := ip, network := ip.network))
  }

  function HaveIp(l: Local): Local
    requires l.Busy?
  {
    if l.ctx.specIp != "" && l.ip.address != l.ctx.specIp then l.(pc := FindNewIp) else CheckRule(l)
  }

  /** The tag search for an address came back empty: the other sources, in the code's order. */
  function NoTaggedIp(l: Local): Local
    requires l.Busy?
  {
    if l.ctx.specIp != "" then l.(pc := FindSpecIp)
    else if |l.ctx.ingress| > 0 && l.ctx.ingress[0].ip != "" then l.(pc := FindIngressIp)
    else l.(pc := FindNetwork)
  }

  /** The wanted address has replaced the old one and the old rule is gone. */
  function IpSwapped(l: Local): Local
    requires l.Busy?
  {
    if l.oldIp.Valid() then l.(pc := FetchOldIp) else CheckRule(l)
  }

  /** checkLoadBalancerRule and the branch on its result. */
  function CheckRule(l: Local): Local
    requires l.Busy?
  {
    if l.ctx.ports.Err? then Finished(Error)
    else if l.rule.None? then l.(pc := Create)
    else if Ports.SamePorts(l.ctx.ports.value, l.rule.value.ports) && l.ctx.lbName == l.rule.value.name then
      if Some(l.rule.value.algorithm) != l.ctx.algorithm then l.(pc := Update) else RuleUpdated(l)
    else l.(pc := DropRuleForPorts)
  }

  function RuleUpdated(l: Local): Local
    requires l.Busy?
  {
    if l.rule.Some? && HasMissingKeys(l.rule.value.tags) then l.(pc := TagRule(0)) else l.(pc := Push)
  }

  function Resume(l: Local, resp: Response): Local
    requires l.Busy?
  {
    match l.pc
    case ListByName =>
      if !resp.Rules? then Finished(Error)
      else
        (match NamedPick(resp.rules, l.ctx.lbName)
         case Nobody => l.(pc := ListByTag)
         case One(r) => Found(l, Some(r))
         case Many => Finished(Error))
    case ListByTag =>
      if !resp.Rules? then Finished(Error)
      else
        (match TaggedPick(resp.rules, l.ctx.service)
         case Nobody => Found(l, None)
         case One(r) => Found(l, Some(r))
         case Many => Finished(Error))
    case FindIpByTag =>
      if !resp.Ips? then Finished(Error)
      else
        (match TaggedIpPick(resp.ips, l.ctx.service)
         case Nobody => NoTaggedIp(l)
         case One(ip) => GotIp(l, RefOf(ip))
         case Many => Finished(Error))
    case FindSpecIp =>
      if resp.Ips? && |resp.ips| == 1 then GotIp(l, RefOf(resp.ips[0])) else Finished(Error)
    case FindIngressIp =>
      if resp.Ips? && |resp.ips| == 0 then l.(pc := FindNetwork)
      else if resp.Ips? && |resp.ips| == 1 then l.(ip := RefOf(resp.ips[0]), pc := TagIp(0))
      else Finished(Error)
    case FindNetwork => if resp.Done? then l.(pc := Associate) else Finished(Error)
    case Associate => if resp.NewIp? then l.(ip := RefOf(resp.ip), pc := TagIp(0)) else Finished(Error)
    case TagIp(i) =>
      if !resp.Done? && !resp.AlreadyExists? then l.(pc := RollBackIp)
      else if i + 1 < |TAG_ORDER| then l.(pc := TagIp(i + 1))
      else GotIp(l, l.ip)
    case RollBackIp => Finished(Error)
    case FindNewIp =>
      if resp.Ips? && |resp.ips| == 1 then
        var swapped := l.(oldIp := l.ip, ip := RefOf(resp.ips[0]));
        if l.rule.Some? then swapped.(pc := DropRuleForIp) else IpSwapped(swapped)
      else Finished(Error)
    case DropRuleForIp => if resp.Done? then IpSwapped(l.(rule := None)) else Finished(Error)
    case FetchOldIp =>
      if resp.Ips? && |resp.ips| == 1 then
        if ShouldManageIp(resp.ips[0].tags, l.ctx.service) then l.(pc := ReleaseOldIp) else CheckRule(l)
      else Finished(Error)
    case ReleaseOldIp => if resp.Done? then CheckRule(l) else Finished(Error)
    case DropRuleForPorts => if resp.Done? then l.(rule := None, pc := Create) else Finished(Error)
    case Update => if resp.Done? then RuleUpdated(l) else Finished(Error)
    case Create => if resp.NewRule? then l.(rule := Some(resp.rule), pc := TagRule(0)) else Finished(Error)
    case TagRule(i) =>
      if !resp.Done? && !resp.AlreadyExists? then Finished(Error)
      else if i + 1 < |TAG_ORDER| then l.(pc := TagRule(i + 1))
      else l.(pc := Push)
    case Push => if resp.Done? then Finished(Status(l.ip.address, l.ctx.lbName)) else Finished(Error)
    case DropRule =>
      if !resp.Done? then Finished(Error)
      else if l.ip.id != "" then l.(rule := None, pc := FetchLastIp)
      else Finished(Deleted)
    case FetchLastIp =>
      if resp.Ips? && |resp.ips| == 1 then
        if ShouldManageIp(resp.ips[0].tags, l.ctx.service) then l.(pc := ReleaseLastIp) else Finished(Deleted)
      else Finished(Error)
    case ReleaseLastIp => if resp.Done? then Finished(Deleted) else Finished(Error)
  }

  // ------------------------------------------------------------------------------------
  // Traces of one call

  /** One request with its response. */
  datatype Event = Event(req: Request, resp: Response)

  /** Where the call stands after the events, if they are events it can produce. */
  function After(l: Local, events: seq<Event>): Option<Local> {
    if events == [] then Some(l)
    else
      var before := After(l, events[..|events| - 1]);
      var e := events[|events| - 1];
      if before.None? || before.value.Finished? || Issue(before.value) != e.req then None
      else Some(Resume(before.value, e.resp))
  }

  predicate IsTrace(kind: Kind, ctx: Ctx, events: seq<Event>) {
    After(Start(kind, ctx), events).Some?
  }

  // ------------------------------------------------------------------------------------
  // Guarded destruction: a property of every trace, whatever the server answers

  /** Some earlier listing showed the rule, and it passed the ownership test. */
  ghost predicate SeenManaged(ctx: Ctx, events: seq<Event>, ruleId: string) {
    exists i, r :: 0 <= i < |events| && events[i].resp.Rules? && r in events[i].resp.rules
                   && r.id == ruleId && ShouldManageLb(r.tags, ctx.service, ctx.ingress, ctx.lbName)
  }

  /** The last response was the address itself, carrying all the service's tags. */
  ghost predicate JustReadManaged(ctx: Ctx, events: seq<Event>) {
    && |events| > 0
    && var last := events[|events| - 1];
       last.req.ListIpsById? && last.resp.Ips? && |last.resp.ips| == 1
       && ShouldManageIp(last.resp.ips[0].tags, ctx.service)
  }

  /** The last response was a failure to tag the address. */
  ghost predicate JustFailedToTag(events: seq<Event>, ipId: string) {
    && |events| > 0
    && var last := events[|events| - 1];
       last.req.CreateTag? && last.req.resource == OnIp(ipId) && !last.resp.Done? && !last.resp.AlreadyExists?
  }

  /** The rule a call has at hand comes from a listing, until it has made one itself. */
  predicate UsesListedRule(l: Local) {
    l.Busy? && l.rule.Some? && !l.pc.TagRule? && l.pc != Push
  }

  predicate Drops(pc: Pc) {
    pc.DropRuleForIp? || pc.DropRuleForPorts? || pc.DropRule?
  }

  predicate Releases(pc: Pc) {
    pc.ReleaseOldIp? || pc.ReleaseLastIp?
  }

  /** What the call knows where it stands, from what it has seen. */
  ghost predicate Justified(l: Local, ctx: Ctx, events: seq<Event>) {
    l.Busy? ==>
      && l.ctx == ctx
      && (Drops(l.pc) ==> l.rule.Some?)
      && (UsesListedRule(l) ==> SeenManaged(ctx, events, l.rule.value.id))
      && (Releases(l.pc) ==> JustReadManaged(ctx, events) && events[|events| - 1].req == ListIpsById(Issue(l).id))
      && (l.pc == RollBackIp ==> JustFailedToTag(events, l.ip.id))
  }

  lemma SeenLater(ctx: Ctx, events: seq<Event>, e: Event, ruleId: string)
    requires SeenManaged(ctx, events, ruleId)
    ensures SeenManaged(ctx, events + [e], ruleId)
  {
    var i, r :| 0 <= i < |events| && events[i].resp.Rules? && r in events[i].resp.rules
                && r.id == ruleId && ShouldManageLb(r.tags, ctx.service, ctx.ingress, ctx.lbName);
    assert (events + [e])[i] == events[i];
  }

  lemma SeenNow(ctx: Ctx, events: seq<Event>, e: Event, r: Rule)
    requires e.resp.Rules? && r in e.resp.rules && ShouldManageLb(r.tags, ctx.service, ctx.ingress, ctx.lbName)
    ensures SeenManaged(ctx, events + [e], r.id)
  {
    assert (events + [e])[|events|] == e;
  }

  /** A stretch of code without requests that ends in nothing to justify but the rule at hand. */
  predicate Plain(l: Local, l': Local) {
    l.Busy? && (l'.Busy? ==>
      && l'.ctx == l.ctx && l'.kind == l.kind && l'.rule == l.rule && !l'.pc.ListByName? && !l'.pc.ListByTag?
      && (Drops(l'.pc) ==> l'.rule.Some?) && !Releases(l'.pc) && l'.pc != RollBackIp)
  }

  lemma CheckRulePlain(l: Local)
    requires l.Busy?
    ensures Plain(l, CheckRule(l))
  {
  }

  lemma HaveIpPlain(l: Local)
    requires l.Busy?
    ensures Plain(l, HaveIp(l))
  {
    CheckRulePlain(l);
  }

  /** getLoadBalancer hands on a rule only after the ownership test. */
  lemma FoundPlain(l: Local, rule: Option<Rule>)
    requires l.Busy? && l.rule.None?
    ensures Found(l, rule).Busy? ==> Plain(l.(rule := rule), Found(l, rule))
    ensures Found(l, rule).Busy? && rule.Some? ==> ShouldManageLb(rule.value.tags, l.ctx.service, l.ctx.ingress, l.ctx.lbName)
  {
    if rule.Some? {
      HaveIpPlain(l.(rule := rule, ip := IpRef(rule.value.publicIpId, rule.value.publicIp, rule.value.networkId),
                     network := rule.value.networkId));
    } else {
      HaveIpPlain(l);
    }
  }

  lemma PlainJustified(l: Local, l': Local, ctx: Ctx, events: seq<Event>)
    requires Plain(l, l') && l.ctx == ctx
    requires l.rule.Some? ==> SeenManaged(ctx, events, l.rule.value.id)
    ensures Justified(l', ctx, events)
  {
  }

  lemma FoundJustified(l: Local, pick: Option<Rule>, ctx: Ctx, events: seq<Event>, e: Event)
    requires l.Busy? && l.rule.None? && l.ctx == ctx
    requires pick.Some? ==> e.resp.Rules? && pick.value in e.resp.rules
    ensures Justified(Found(l, pick), ctx, events + [e])
  {
    FoundPlain(l, pick);
    if Found(l, pick).Busy? {
      if pick.Some? {
        SeenNow(ctx, events, e, pick.value);
      }
      PlainJustified(l.(rule := pick), Found(l, pick), ctx, events + [e]);
    }
  }

  lemma LookupJustified(l: Local, ctx: Ctx, events: seq<Event>, resp: Response)
    requires l.Busy? && l.rule.None? && l.ctx == ctx
    requires l.pc == ListByName || l.pc == ListByTag
    ensures Justified(Resume(l, resp), ctx, events + [Event(Issue(l), resp)])
  {
    if resp.Rules? {
      var e := Event(Issue(l), resp);
      if l.pc == ListByName {
        var pick := NamedPick(resp.rules, l.ctx.lbName);
        if pick.One? {
          PickedIsKept(resp.rules, HasName(l.ctx.lbName));
          FoundJustified(l, Some(pick.value), ctx, events, e);
        }
      } else {
        var pick := TaggedPick(resp.rules, l.ctx.service);
        if pick.One? {
          PickedIsKept(resp.rules, RuleTagged(l.ctx.service));
          FoundJustified(l, Some(pick.value), ctx, events, e);
        } else if pick.Nobody? {
          FoundJustified(l, None, ctx, events, e);
        }
      }
    }
  }

  /** The requests on the way to an address. */
  lemma AddressJustified(l: Local, ctx: Ctx, events: seq<Event>, resp: Response)
    requires l.Busy? && l.ctx == ctx
    requires l.pc in {FindIpByTag, FindSpecIp, FindIngressIp, FindNetwork, Associate, RollBackIp} || l.pc.TagIp?
    requires l.rule.Some? ==> SeenManaged(ctx, events + [Event(Issue(l), resp)], l.rule.value.id)
    ensures Justified(Resume(l, resp), ctx, events + [Event(Issue(l), resp)])
  {
    var l' := Resume(l, resp);
    if l'.Busy? && l'.pc == RollBackIp {
      RollBackJustified(l, resp);
    } else {
      AddressPlain(l, resp);
      PlainJustified(l, l', ctx, events + [Event(Issue(l), resp)]);
    }
  }

  lemma RollBackJustified(l: Local, resp: Response)
    requires l.Busy? && Resume(l, resp).Busy? && Resume(l, resp).pc == RollBackIp
    requires l.pc in {FindIpByTag, FindSpecIp, FindIngressIp, FindNetwork, Associate, RollBackIp} || l.pc.TagIp?
    ensures Resume(l, resp) == l.(pc := RollBackIp) && Issue(l).CreateTag? && Issue(l).resource == OnIp(l.ip.id)
    ensures !resp.Done? && !resp.AlreadyExists?
  {
    forall ip: IpRef ensures Plain(l, GotIp(l, ip)) { HaveIpPlain(l.(ip := ip, network := ip.network)); }
  }

  lemma AddressPlain(l: Local, resp: Response)
    requires l.Busy? && !(Resume(l, resp).Busy? && Resume(l, resp).pc == RollBackIp)
    requires l.pc in {FindIpByTag, FindSpecIp, FindIngressIp, FindNetwork, Associate, RollBackIp} || l.pc.TagIp?
    ensures Plain(l, Resume(l, resp))
  {
    forall ip: IpRef ensures Plain(l, GotIp(l, ip)) { HaveIpPlain(l.(ip := ip, network := ip.network)); }
  }

  /** The requests from an address on. */
  lemma RuleJustified(l: Local, ctx: Ctx, events: seq<Event>, resp: Response)
    requires l.Busy? && l.ctx == ctx
    requires l.pc in {FindNewIp, DropRuleForIp, FetchOldIp, ReleaseOldIp, DropRuleForPorts, Update, Create}
    requires l.rule.Some? ==> SeenManaged(ctx, events + [Event(Issue(l), resp)], l.rule.value.id)
    ensures Justified(Resume(l, resp), ctx, events + [Event(Issue(l), resp)])
  {
    CheckRulePlain(l);
    if l.pc == FindNewIp && resp.Ips? && |resp.ips| == 1 {
      CheckRulePlain(l.(oldIp := l.ip, ip := RefOf(resp.ips[0])));
    }
    if l.pc == DropRuleForIp {
      CheckRulePlain(l.(rule := None));
    }
  }

  lemma ResumeJustified(l: Local, ctx: Ctx, events: seq<Event>, resp: Response)
    requires l.Busy? && Justified(l, ctx, events)
    requires l.pc == ListByName || l.pc == ListByTag ==> l.rule.None?
    ensures Justified(Resume(l, resp), ctx, events + [Event(Issue(l), resp)])
  {
    if UsesListedRule(l) {
      SeenLater(ctx, events, Event(Issue(l), resp), l.rule.value.id);
    }
    match l.pc
    case ListByName => LookupJustified(l, ctx, events, resp);
    case ListByTag => LookupJustified(l, ctx, events, resp);
    case FindIpByTag => AddressJustified(l, ctx, events, resp);
    case FindSpecIp => AddressJustified(l, ctx, events, resp);
    case FindIngressIp => AddressJustified(l, ctx, events, resp);
    case FindNetwork => AddressJustified(l, ctx, events, resp);
    case Associate => AddressJustified(l, ctx, events, resp);
    case TagIp(_) => AddressJustified(l, ctx, events, resp);
    case RollBackIp => AddressJustified(l, ctx, events, resp);
    case FindNewIp => RuleJustified(l, ctx, events, resp);
    case DropRuleForIp => RuleJustified(l, ctx, events, resp);
    case FetchOldIp => RuleJustified(l, ctx, events, resp);
    case ReleaseOldIp => RuleJustified(l, ctx, events, resp);
    case DropRuleForPorts => RuleJustified(l, ctx, events, resp);
    case Update => RuleJustified(l, ctx, events, resp);
    case Create => RuleJustified(l, ctx, events, resp);
    case TagRule(_) =>
    case Push =>
    case DropRule =>
    case FetchLastIp =>
    case ReleaseLastIp =>
  }

  /** The two kinds of call, and the lookups that come first. */
  predicate InStep(l: Local, kind: Kind) {
    l.Busy? ==> l.kind == kind && (l.pc == ListByName || l.pc == ListByTag ==> l.rule.None?)
  }

  lemma LookupInStep(l: Local, kind: Kind, resp: Response)
    requires l.Busy? && InStep(l, kind) && (l.pc == ListByName || l.pc == ListByTag)
    ensures InStep(Resume(l, resp), kind)
  {
    FoundPlain(l, None);
    if resp.Rules? {
      var named, tagged := NamedPick(resp.rules, l.ctx.lbName), TaggedPick(resp.rules, l.ctx.service);
      if named.One? { FoundPlain(l, Some(named.value)); }
      if tagged.One? { FoundPlain(l, Some(tagged.value)); }
    }
  }

  lemma LaterInStep(l: Local, kind: Kind, resp: Response)
    requires l.Busy? && InStep(l, kind) && l.pc != ListByName && l.pc != ListByTag
    ensures InStep(Resume(l, resp), kind)
  {
    CheckRulePlain(l);
    forall ip: IpRef ensures Plain(l, GotIp(l, ip)) { HaveIpPlain(l.(ip := ip, network := ip.network)); }
    forall r, a, b { CheckRulePlain(l.(rule := r, oldIp := a, ip := b)); }
  }

  lemma ResumeInStep(l: Local, kind: Kind, resp: Response)
    requires l.Busy? && InStep(l, kind)
    ensures InStep(Resume(l, resp), kind)
  {
    if l.pc == ListByName || l.pc == ListByTag {
      LookupInStep(l, kind, resp);
    } else {
      LaterInStep(l, kind, resp);
    }
  }

  lemma {:induction false} TraceJustified(kind: Kind, ctx: Ctx, events: seq<Event>)
    requires IsTrace(kind, ctx, events)
    ensures Justified(After(Start(kind, ctx), events).value, ctx, events)
    ensures InStep(After(Start(kind, ctx), events).value, kind)
  {
    if events != [] {
      var earlier, e := events[..|events| - 1], events[|events| - 1];
      TraceJustified(kind, ctx, earlier);
      var l := After(Start(kind, ctx), earlier).value;
      ResumeJustified(l, ctx, earlier, e.resp);
      ResumeInStep(l, kind, e.resp);
      assert earlier + [Event(Issue(l), e.resp)] == events;
    }
  }

  lemma {:induction false} PrefixIsTrace(kind: Kind, ctx: Ctx, events: seq<Event>, k: nat)
    requires IsTrace(kind, ctx, events) && k <= |events|
    ensures IsTrace(kind, ctx, events[..k])
    ensures k < |events| ==> After(Start(kind, ctx), events[..k]).value.Busy? && Issue(After(Start(kind, ctx), events[..k]).value) == events[k].req
    decreases |events|
  {
    if k == |events| {
      assert events[..k] == events;
    } else {
      var earlier := events[..|events| - 1];
      assert IsTrace(kind, ctx, earlier);
      if k < |events| - 1 {
        PrefixIsTrace(kind, ctx, earlier, k);
        assert earlier[..k] == events[..k] && earlier[k] == events[k];
      }
    }
  }

  /** In every trace of Ensure and Delete, whatever the server answers: a rule is deleted only if an
      earlier listing of the same call showed it and it passed the ownership test; an address is
      released only right after it was read back carrying all the service's tags, or right after
      tagging it failed. */
  lemma GuardedDestruction(kind: Kind, ctx: Ctx, events: seq<Event>, k: nat)
    requires IsTrace(kind, ctx, events) && k < |events|
    ensures events[k].req.DeleteRule? ==> SeenManaged(ctx, events[..k], events[k].req.id)
    ensures events[k].req.DisassociateIp? ==>
              || (JustReadManaged(ctx, events[..k]) && events[k - 1].req == ListIpsById(events[k].req.id))
              || JustFailedToTag(events[..k], events[k].req.id)
  {
    PrefixIsTrace(kind, ctx, events, k);
    TraceJustified(kind, ctx, events[..k]);
  }
}
