/** Calls end: a bound on the requests of every call, and success for a service that is new to a
    healthy cloud. */
module ReconcilerProgress {
  import opened Wrappers
  import opened Kube
  import opened Tags
  import opened Cloud
  import opened Reconciler
  import opened ReconcilerFixpoint
  import opened ReconcilerDeletion

  // ------------------------------------------------------------------------------------
  // A bound on the requests

  /** The most requests a call can still make from here on. */
  function Remaining(pc: Pc): (n: nat)
    ensures n >= 1
  {
    match pc
    case ListByName => 15
    case ListByTag => 14
    case FindIpByTag => 13
    case FindIngressIp => 12
    case FindNetwork => 11
    case Associate => 10
    case TagIp(i) => if i < |TAG_ORDER| then 9 - i else 7
    case RollBackIp => 1
    case FindSpecIp => 11
    case FindNewIp => 10
    case DropRuleForIp => 9
    case FetchOldIp => 8
    case ReleaseOldIp => 7
    case DropRuleForPorts => 6
    case Update => 5
    case Create => 5
    case TagRule(i) => if i < |TAG_ORDER| then 4 - i else 2
    case Push => 1
    case DropRule => 3
    case FetchLastIp => 2
    case ReleaseLastIp => 1
  }

  function Budget(l: Local): nat {
    if l.Busy? then Remaining(l.pc) else 0
  }

  /** Addresses are tagged only for services that request none. */
  predicate OnPath(l: Local) {
    l.Busy? && (l.pc in {FindIngressIp, FindNetwork, Associate} || l.pc.TagIp?) ==> l.ctx.specIp == ""
  }

  lemma CheckRuleBudget(l: Local)
    requires l.Busy?
    ensures Budget(CheckRule(l)) <= 6 && OnPath(CheckRule(l))
  {
  }

  lemma HaveIpBudget(l: Local)
    requires l.Busy?
    ensures Budget(HaveIp(l)) <= (if l.ctx.specIp == "" then 6 else 10) && OnPath(HaveIp(l))
  {
    CheckRuleBudget(l);
  }

  lemma FoundBudget(l: Local, rule: Option<Rule>)
    requires l.Busy?
    ensures Budget(Found(l, rule)) <= 13 && OnPath(Found(l, rule))
  {
    HaveIpBudget(l);
    if rule.Some? {
      HaveIpBudget(l.(rule := rule, ip := IpRef(rule.value.publicIpId, rule.value.publicIp, rule.value.networkId),
                      network := rule.value.networkId));
    }
  }

  lemma LookupBudget(l: Local, resp: Response)
    requires l.Busy? && (l.pc == ListByName || l.pc == ListByTag)
    ensures Budget(Resume(l, resp)) < Budget(l) && OnPath(Resume(l, resp))
  {
    FoundBudget(l, None);
    if resp.Rules? {
      var named, tagged := NamedPick(resp.rules, l.ctx.lbName), TaggedPick(resp.rules, l.ctx.service);
      if named.One? { FoundBudget(l, Some(named.value)); }
      if tagged.One? { FoundBudget(l, Some(tagged.value)); }
    }
  }

  lemma AddressBudget(l: Local, resp: Response)
    requires l.Busy? && OnPath(l)
    requires l.pc in {FindIpByTag, FindSpecIp, FindIngressIp, FindNetwork, Associate, RollBackIp} || l.pc.TagIp?
    ensures Budget(Resume(l, resp)) < Budget(l) && OnPath(Resume(l, resp))
  {
    forall ip: IpRef
      ensures Budget(GotIp(l, ip)) <= (if l.ctx.specIp == "" then 6 else 10) && OnPath(GotIp(l, ip))
    {
      HaveIpBudget(l.(ip := ip, network := ip.network));
    }
  }

  lemma RuleBudget(l: Local, resp: Response)
    requires l.Busy? && l.pc != ListByName && l.pc != ListByTag
    requires !(l.pc in {FindIpByTag, FindSpecIp, FindIngressIp, FindNetwork, Associate, RollBackIp}) && !l.pc.TagIp?
    ensures Budget(Resume(l, resp)) < Budget(l) && OnPath(Resume(l, resp))
  {
    forall r, a, b ensures Budget(CheckRule(l.(rule := r, oldIp := a, ip := b))) <= 6 && OnPath(CheckRule(l.(rule := r, oldIp := a, ip := b))) {
      CheckRuleBudget(l.(rule := r, oldIp := a, ip := b));
    }
    CheckRuleBudget(l);
  }

  lemma EveryAnswerCounts(l: Local, resp: Response)
    requires l.Busy? && OnPath(l)
    ensures Budget(Resume(l, resp)) < Budget(l) && OnPath(Resume(l, resp))
  {
    if l.pc == ListByName || l.pc == ListByTag {
      LookupBudget(l, resp);
    } else if l.pc in {FindIpByTag, FindSpecIp, FindIngressIp, FindNetwork, Associate, RollBackIp} || l.pc.TagIp? {
      AddressBudget(l, resp);
    } else {
      RuleBudget(l, resp);
    }
  }

  lemma {:induction false} TraceBudget(kind: Kind, ctx: Ctx, events: seq<Event>)
    requires IsTrace(kind, ctx, events)
    ensures var l := After(Start(kind, ctx), events).value; OnPath(l) && |events| + Budget(l) <= 15 && (Budget(l) == 0 ==> l.Finished?)
  {
    if events != [] {
      var earlier, e := events[..|events| - 1], events[|events| - 1];
      TraceBudget(kind, ctx, earlier);
      EveryAnswerCounts(After(Start(kind, ctx), earlier).value, e.resp);
    }
  }

  /** Whatever the server answers, a call makes at most 15 requests; after 15 it has finished. */
  lemma {:induction false} CallsEnd(kind: Kind, ctx: Ctx, events: seq<Event>)
    requires IsTrace(kind, ctx, events)
    ensures |events| <= 15
    ensures |events| == 15 ==> After(Start(kind, ctx), events).value.Finished?
  {
    TraceBudget(kind, ctx, events);
  }

  // ------------------------------------------------------------------------------------
  // A new service on a healthy cloud

  /** Nothing in the cloud has the service's balancer name or matches its tags. */
  ghost predicate Unknown(c: State, ctx: Ctx) {
    && NoRule(c, ctx)
    && (forall id :: id in c.ips ==> !MatchesAll(c.ips[id].tags, TagsFor(ctx.service)))
  }

  /** A service that names no address, with ports and affinity that CloudStack supports. */
  predicate Ordinary(ctx: Ctx) {
    ctx.algorithm.Some? && ctx.ports.Ok? && ctx.specIp == "" && (ctx.ingress == [] || ctx.ingress[0].ip == "")
  }

  ghost predicate NewCourse(l: Local, c: State) {
    if l.Finished? then l.outcome.Status?
    else
      && l.kind == Ensure && Ordinary(l.ctx)
      && match l.pc
         case ListByName => l.rule.None? && l.ip == NO_IP && Unknown(c, l.ctx)
         case ListByTag => l.rule.None? && l.ip == NO_IP && Unknown(c, l.ctx)
         case FindIpByTag => l.rule.None? && Unknown(c, l.ctx)
         case FindNetwork => l.rule.None?
         case Associate => l.rule.None?
         case TagIp(i) => l.rule.None? && l.ip.id in c.ips
         case Create => l.rule.None? && l.ip.id in c.ips
         case TagRule(i) => l.rule.Some? && l.rule.value.id in c.rules
         case Push => true
         case _ => false
  }

  lemma NewLookup(l: Local, resp: Response, c: State, c': State)
    requires l.Busy? && NewCourse(l, c) && Healthy(c, Issue(l), resp, c')
    requires l.pc in {ListByName, ListByTag, FindIpByTag}
    ensures NewCourse(Resume(l, resp), c')
  {
    if l.pc == ListByName {
      NoneSelected(resp.rules, HasName(l.ctx.lbName));
    } else if l.pc == ListByTag {
      NoneSelected(resp.rules, RuleTagged(l.ctx.service));
    } else {
      NoneSelected(resp.ips, IpTagged(l.ctx.service));
    }
  }

  lemma NewAddress(l: Local, resp: Response, c: State, c': State)
    requires l.Busy? && NewCourse(l, c) && Healthy(c, Issue(l), resp, c')
    requires l.pc == FindNetwork || l.pc == Associate || l.pc.TagIp?
    ensures NewCourse(Resume(l, resp), c')
  {
  }

  lemma NewRuleCourse(l: Local, resp: Response, c: State, c': State)
    requires l.Busy? && NewCourse(l, c) && Healthy(c, Issue(l), resp, c')
    requires l.pc == Create || l.pc.TagRule? || l.pc == Push
    ensures NewCourse(Resume(l, resp), c')
  {
  }

  lemma NewStep(l: Local, resp: Response, c: State, c': State)
    requires l.Busy? && NewCourse(l, c) && Healthy(c, Issue(l), resp, c')
    ensures NewCourse(Resume(l, resp), c')
  {
    if l.pc in {ListByName, ListByTag, FindIpByTag} {
      NewLookup(l, resp, c, c');
    } else if l.pc == FindNetwork || l.pc == Associate || l.pc.TagIp? {
      NewAddress(l, resp, c, c');
    } else {
      NewRuleCourse(l, resp, c, c');
    }
  }

  lemma {:induction false} NewRun(l: Local, c: State, xs: seq<Exchange>)
    requires NewCourse(l, c) && HealthyRun(l, c, xs)
    ensures NewCourse(EndLocal(l, xs), EndCloud(c, xs))
    decreases |xs|
  {
    if xs != [] {
      var l', c', rest := Resume(l, xs[0].resp), xs[0].cloud, xs[1..];
      NewStep(l, xs[0].resp, c, c');
      NewRun(l', c', rest);
      assert EndCloud(c, xs) == EndCloud(c', rest);
    }
  }

  /** An Ensure call for a plain service that the cloud does not know yet cannot end in an error
      unless a request fails: when it ends, the cloud is settled for the service. */
  lemma {:induction false} NewServiceSucceeds(ctx: Ctx, c: State, xs: seq<Exchange>)
    requires Sound(c) && Ordinary(ctx) && Unknown(c, ctx)
    requires HealthyRun(Start(Ensure, ctx), c, xs) && EndLocal(Start(Ensure, ctx), xs).Finished?
    ensures Converged(EndLocal(Start(Ensure, ctx), xs), ctx, EndCloud(c, xs))
  {
    NewRun(Start(Ensure, ctx), c, xs);
    EnsureConverges(ctx, c, xs);
  }
}
