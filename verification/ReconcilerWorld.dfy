/** Any number of Ensure and Delete calls over one cloud, interleaved request by request, with any
    request allowed to fail at any point. The per-service lock keeps two calls for one service
    apart; nothing else does. */
module ReconcilerWorld {
  import opened Wrappers
  import opened Kube
  import opened Tags
  import opened Cloud
  import opened Reconciler
  import Ports
  import Strings

  type Tid = int

  datatype World = World(cloud: State, active: map<Tid, Local>)

  /** A call takes its service's lock and starts, or gets the response to its request. A call that
      finishes gives up the lock and is gone. */
  datatype Move = Begin(t: Tid, kind: Kind, ctx: Ctx) | Answer(t: Tid, resp: Response, cloud: State)

  /** Distinct services run side by side, and they have distinct balancer names. */
  ghost predicate Apart(a: Ctx, b: Ctx) {
    a.service != b.service && a.lbName != b.lbName
  }

  ghost predicate Can(w: World, m: Move) {
    match m
    case Begin(t, kind, ctx) =>
      t !in w.active && forall u :: u in w.active ==> w.active[u].Busy? && Apart(ctx, w.active[u].ctx)
    case Answer(t, resp, cloud) =>
      t in w.active && w.active[t].Busy? && Serve(w.cloud, Issue(w.active[t]), resp, cloud)
  }

  function Do(w: World, m: Move): World {
    match m
    case Begin(t, kind, ctx) => w.(active := w.active[t := Start(kind, ctx)])
    case Answer(t, resp, cloud) =>
      if t !in w.active || w.active[t].Finished? then w
      else
        var l := Resume(w.active[t], resp);
        World(cloud, if l.Finished? then w.active - {t} else w.active[t := l])
  }

  function Run(cloud: State, moves: seq<Move>): World {
    if moves == [] then World(cloud, map[]) else Do(Run(cloud, moves[..|moves| - 1]), moves[|moves| - 1])
  }

  ghost predicate IsRun(cloud: State, moves: seq<Move>)
    decreases |moves|
  {
    moves == [] || (IsRun(cloud, moves[..|moves| - 1]) && Can(Run(cloud, moves[..|moves| - 1]), moves[|moves| - 1]))
  }

  // ------------------------------------------------------------------------------------
  // What every call keeps about itself

  predicate LocalOk(l: Local) {
    && l.Busy?
    && (l.pc == Create ==> l.rule.None?)
    && (Drops(l.pc) ==> l.rule.Some?)
    && (l.pc == ListByName || l.pc == ListByTag ==> l.rule.None?)
  }

  lemma CheckRuleOk(l: Local)
    requires l.Busy?
    ensures CheckRule(l).Busy? ==> LocalOk(CheckRule(l)) && CheckRule(l).ctx == l.ctx && CheckRule(l).rule == l.rule
  {
  }

  lemma HaveIpOk(l: Local)
    requires l.Busy?
    ensures HaveIp(l).Busy? ==> LocalOk(HaveIp(l)) && HaveIp(l).ctx == l.ctx && HaveIp(l).rule == l.rule
  {
    CheckRuleOk(l);
  }

  lemma FoundOk(l: Local, rule: Option<Rule>)
    requires l.Busy? && l.rule.None?
    ensures Found(l, rule).Busy? ==> LocalOk(Found(l, rule)) && Found(l, rule).ctx == l.ctx && Found(l, rule).rule == rule
  {
    if rule.Some? {
      HaveIpOk(l.(rule := rule, ip := IpRef(rule.value.publicIpId, rule.value.publicIp, rule.value.networkId),
                  network := rule.value.networkId));
    } else {
      HaveIpOk(l);
    }
  }

  /** The rule a call has after a response: the one picked from a listing, none after a deletion,
      the new one after a creation, and otherwise the one it had. */
  function RuleAfter(l: Local, resp: Response): Option<Rule>
    requires l.Busy?
  {
    match l.pc
    case ListByName =>
      if resp.Rules? && NamedPick(resp.rules, l.ctx.lbName).One? then Some(NamedPick(resp.rules, l.ctx.lbName).value) else None
    case ListByTag =>
      if resp.Rules? && TaggedPick(resp.rules, l.ctx.service).One? then Some(TaggedPick(resp.rules, l.ctx.service).value) else None
    case DropRuleForIp => None
    case DropRuleForPorts => None
    case DropRule => None
    case Create => if resp.NewRule? then Some(resp.rule) else None
    case _ => l.rule
  }

  lemma LookupOk(l: Local, resp: Response)
    requires LocalOk(l) && (l.pc == ListByName || l.pc == ListByTag)
    ensures var l' := Resume(l, resp); l'.Busy? ==> LocalOk(l') && l'.ctx == l.ctx && l'.rule == RuleAfter(l, resp)
    ensures var l' := Resume(l, resp); l'.Busy? && l.pc == ListByName ==> resp.Rules? && !NamedPick(resp.rules, l.ctx.lbName).Many?
  {
    FoundOk(l, None);
    if resp.Rules? {
      var named, tagged := NamedPick(resp.rules, l.ctx.lbName), TaggedPick(resp.rules, l.ctx.service);
      if named.One? { FoundOk(l, Some(named.value)); }
      if tagged.One? { FoundOk(l, Some(tagged.value)); }
    }
  }

  lemma LaterOk(l: Local, resp: Response)
    requires LocalOk(l) && l.pc != ListByName && l.pc != ListByTag
    ensures var l' := Resume(l, resp); l'.Busy? ==> LocalOk(l') && l'.ctx == l.ctx && l'.rule == RuleAfter(l, resp)
    ensures var l' := Resume(l, resp); l'.Busy? && Drops(l.pc) ==> resp.Done?
    ensures var l' := Resume(l, resp); l'.Busy? && l.pc == Create ==> resp.NewRule?
  {
    CheckRuleOk(l);
    forall ip: IpRef ensures GotIp(l, ip).Busy? ==> LocalOk(GotIp(l, ip)) && GotIp(l, ip).ctx == l.ctx && GotIp(l, ip).rule == l.rule {
      HaveIpOk(l.(ip := ip, network := ip.network));
    }
    forall r, a, b { CheckRuleOk(l.(rule := r, oldIp := a, ip := b)); }
  }

  lemma ResumeOk(l: Local, resp: Response)
    requires LocalOk(l)
    ensures var l' := Resume(l, resp); l'.Busy? ==> LocalOk(l') && l'.ctx == l.ctx && l'.rule == RuleAfter(l, resp)
  {
    if l.pc == ListByName || l.pc == ListByTag {
      LookupOk(l, resp);
    } else {
      LaterOk(l, resp);
    }
  }

  /** Calls in progress are for different services, under different names. */
  ghost predicate Separate(w: World) {
    && (forall t :: t in w.active ==> LocalOk(w.active[t]))
    && (forall t, u :: t in w.active && u in w.active && t != u ==> Apart(w.active[t].ctx, w.active[u].ctx))
  }

  lemma StepSeparate(w: World, m: Move)
    requires Separate(w) && Can(w, m)
    ensures Separate(Do(w, m))
  {
    match m
    case Begin(_, _, _) =>
    case Answer(t, resp, _) => ResumeOk(w.active[t], resp);
  }

  // ------------------------------------------------------------------------------------
  // No two rules with one balancer name

  ghost predicate AtMostOneNamed(c: State, name: string) {
    forall id, id' :: id in c.rules && id' in c.rules && c.rules[id].name == name && c.rules[id'].name == name ==> id == id'
  }

  /** The only rule with the call's balancer name is the one it has at hand; if it has none, there
      is none. Holds from the answer to the search by name on. */
  ghost predicate KnowsName(l: Local, c: State)
    requires l.Busy?
  {
    l.pc != ListByName ==>
      forall id :: id in c.rules && c.rules[id].name == l.ctx.lbName ==> l.rule.Some? && l.rule.value.id == id
  }

  ghost predicate NameInv(w: World, name: string) {
    && Separate(w) && WellFormed(w.cloud) && AtMostOneNamed(w.cloud, name)
    && forall t :: t in w.active && w.active[t].ctx.lbName == name ==> KnowsName(w.active[t], w.cloud)
  }

  /** No request renames a rule, and only a creation adds one. */
  lemma NamesAfter(c: State, req: Request, resp: Response, c': State, id: string)
    requires WellFormed(c) && Serve(c, req, resp, c') && id in c'.rules
    ensures id in c.rules ==> c'.rules[id].name == c.rules[id].name
    ensures id !in c.rules ==> req.CreateRule? && c'.rules[id].name == req.name
  {
  }

  lemma CreatedOnce(c: State, req: Request, resp: Response, c': State, id: string, id': string)
    requires WellFormed(c) && Serve(c, req, resp, c') && req.CreateRule?
    requires id in c'.rules && id !in c.rules && id' in c'.rules && id' !in c.rules
    ensures id == id'
    ensures resp.NewRule? ==> resp.rule.id == id
  {
  }

  /** The search by name sees every rule with the name. */
  lemma SearchByName(l: Local, resp: Response, c: State, c': State)
    requires LocalOk(l) && l.pc == ListByName && WellFormed(c) && Serve(c, Issue(l), resp, c')
    ensures Resume(l, resp).Busy? ==> KnowsName(Resume(l, resp), c')
  {
    LookupOk(l, resp);
    if Resume(l, resp).Busy? {
      var keep := HasName(l.ctx.lbName);
      forall id | id in c.rules && c.rules[id].name == l.ctx.lbName
        ensures RuleAfter(l, resp).Some? && RuleAfter(l, resp).value.id == id
      {
        Strings.ContainsItself(l.ctx.lbName);
        assert AsksForRule(Issue(l), c.rules[id]);
        PickedIsOnly(resp.rules, keep, c.rules[id]);
      }
    }
  }

  /** A call keeps what it knows across its own requests. */
  lemma OwnStepKnows(l: Local, resp: Response, c: State, c': State)
    requires LocalOk(l) && WellFormed(c) && KnowsName(l, c) && Serve(c, Issue(l), resp, c')
    ensures Resume(l, resp).Busy? ==> KnowsName(Resume(l, resp), c')
  {
    var l' := Resume(l, resp);
    if l.pc == ListByName {
      SearchByName(l, resp, c, c');
    } else if l'.Busy? {
      ResumeOk(l, resp);
      if l.pc != ListByTag { LaterOk(l, resp); }
      forall id | id in c'.rules && c'.rules[id].name == l.ctx.lbName
        ensures l'.rule.Some? && l'.rule.value.id == id
      {
        NamesAfter(c, Issue(l), resp, c', id);
        if id !in c.rules {
          CreatedOnce(c, Issue(l), resp, c', id, id);
        }
      }
    }
  }

  /** Nobody else's request creates a rule with this name. */
  lemma OtherStepKnows(l: Local, req: Request, resp: Response, c: State, c': State)
    requires LocalOk(l) && WellFormed(c) && KnowsName(l, c) && Serve(c, req, resp, c')
    requires req.CreateRule? ==> req.name != l.ctx.lbName
    ensures KnowsName(l, c')
  {
    forall id | id in c'.rules && c'.rules[id].name == l.ctx.lbName
      ensures id in c.rules && c.rules[id].name == l.ctx.lbName
    {
      NamesAfter(c, req, resp, c', id);
    }
  }

  /** A call creates its rule only when there is none with the name. */
  lemma CreationKeepsOne(l: Local, resp: Response, c: State, c': State, name: string)
    requires LocalOk(l) && WellFormed(c) && Serve(c, Issue(l), resp, c') && AtMostOneNamed(c, name)
    requires l.ctx.lbName == name ==> KnowsName(l, c)
    ensures AtMostOneNamed(c', name)
  {
    var req := Issue(l);
    forall id, id' | id in c'.rules && id' in c'.rules && c'.rules[id].name == name && c'.rules[id'].name == name
      ensures id == id'
    {
      NamesAfter(c, req, resp, c', id);
      NamesAfter(c, req, resp, c', id');
      if id !in c.rules && id' !in c.rules {
        CreatedOnce(c, req, resp, c', id, id');
      }
    }
  }

  lemma StepNameInv(w: World, m: Move, name: string)
    requires NameInv(w, name) && Can(w, m)
    ensures NameInv(Do(w, m), name)
  {
    StepSeparate(w, m);
    match m
    case Begin(_, _, _) =>
    case Answer(t, resp, cloud) =>
      var l := w.active[t];
      ServeKeepsWellFormed(w.cloud, Issue(l), resp, cloud);
      CreationKeepsOne(l, resp, w.cloud, cloud, name);
      forall u | u in Do(w, m).active && Do(w, m).active[u].ctx.lbName == name
        ensures KnowsName(Do(w, m).active[u], cloud)
      {
        StepKnows(w, m, u, name);
      }
  }

  lemma StepKnows(w: World, m: Move, u: Tid, name: string)
    requires NameInv(w, name) && Can(w, m) && m.Answer? && u in Do(w, m).active && Do(w, m).active[u].Busy?
    requires Do(w, m).active[u].ctx.lbName == name
    ensures KnowsName(Do(w, m).active[u], m.cloud)
  {
    var l := w.active[m.t];
    if u == m.t {
      ResumeOk(l, m.resp);
      OwnStepKnows(l, m.resp, w.cloud, m.cloud);
    } else {
      OtherStepKnows(w.active[u], Issue(l), m.resp, w.cloud, m.cloud);
    }
  }

  lemma {:induction false} RunNameInv(cloud: State, moves: seq<Move>, name: string)
    requires WellFormed(cloud) && AtMostOneNamed(cloud, name) && IsRun(cloud, moves)
    ensures NameInv(Run(cloud, moves), name)
    decreases |moves|
  {
    if moves != [] {
      RunNameInv(cloud, moves[..|moves| - 1], name);
      StepNameInv(Run(cloud, moves[..|moves| - 1]), moves[|moves| - 1], name);
    }
  }

  /** In every interleaving of Ensure and Delete calls, whatever fails on the way, the cloud never
      holds two rules with one balancer name. The server is not asked to refuse a second one. */
  lemma {:induction false} NeverTwoRules(cloud: State, moves: seq<Move>, name: string)
    requires WellFormed(cloud) && AtMostOneNamed(cloud, name) && IsRun(cloud, moves)
    ensures AtMostOneNamed(Run(cloud, moves).cloud, name)
  {
    RunNameInv(cloud, moves, name);
  }

  // ------------------------------------------------------------------------------------
  // At most one address per service

  /** The address carries the full tag set of the service. */
  predicate Full(c: State, id: string, service: ServiceKey) {
    id in c.ips && Carries(c.ips[id].tags, TagsFor(service))
  }

  ghost predicate AtMostOneFull(c: State, service: ServiceKey) {
    forall id, id' :: Full(c, id, service) && Full(c, id', service) ==> id == id'
  }

  /** The call has found no address with its tags, and has not started tagging one. */
  predicate Searching(pc: Pc) {
    pc == FindIngressIp || pc == FindNetwork || pc == Associate
  }

  /** Taking over the address named in the service's status, for tagging. */
  predicate Adopts(l: Local, resp: Response) {
    l.Busy? && l.pc == FindIngressIp && resp.Ips? && |resp.ips| == 1
  }

  /** The call is tagging the address. */
  predicate TagsIt(l: Local, ip: string) {
    l.Busy? && l.pc.TagIp? && l.ip.id == ip
  }

  predicate Differs(key: string, owner: ServiceKey, service: ServiceKey) {
    (key == SERVICE_TAG && owner.name != service.name) || (key == NAMESPACE_TAG && owner.namespace != service.namespace)
  }

  /** The service's tag under the key. */
  function NameTag(key: string, service: ServiceKey): Tag {
    Tag(key, if key == SERVICE_TAG then service.name else service.namespace)
  }

  /** The address lacks the service's tag under the key, and nobody who is tagging it will add that. */
  ghost predicate Harmless(w: World, ip: string, tags: seq<Tag>, service: ServiceKey, key: string) {
    && (key == SERVICE_TAG || key == NAMESPACE_TAG) && NameTag(key, service) !in tags
    && forall u :: u in w.active && TagsIt(w.active[u], ip) ==> Differs(key, w.active[u].ctx.service, service)
  }

  /** A takeover is clean for a service when it cannot make the address the service's by accident: the
      address goes on lacking one of the service's two name tags, or it is the service's own call and
      nobody else is tagging the address. */
  ghost predicate CleanMove(w: World, m: Move, service: ServiceKey) {
    m.Answer? && m.t in w.active && Adopts(w.active[m.t], m.resp) ==>
      var (ip, owner) := (m.resp.ips[0], w.active[m.t].ctx.service);
      if owner == service then forall u :: u in w.active && u != m.t ==> !TagsIt(w.active[u], ip.id)
      else exists key :: Differs(key, owner, service) && Harmless(w, ip.id, ip.tags, service, key)
  }

  ghost predicate IsCleanRun(cloud: State, moves: seq<Move>, service: ServiceKey)
    decreases |moves|
  {
    moves == [] || (IsCleanRun(cloud, moves[..|moves| - 1], service)
                    && Can(Run(cloud, moves[..|moves| - 1]), moves[|moves| - 1])
                    && CleanMove(Run(cloud, moves[..|moves| - 1]), moves[|moves| - 1], service))
  }

  /** What holds of an address while a call is tagging it. */
  ghost predicate TagsSafely(w: World, t: Tid, service: ServiceKey)
    requires t in w.active && w.active[t].Busy?
  {
    var l := w.active[t];
    l.pc.TagIp? ==>
      && l.ip.id in w.cloud.usedIps
      && (l.ip.id in w.cloud.ips ==>
            if l.ctx.service == service then forall u :: u in w.active && u != t ==> !TagsIt(w.active[u], l.ip.id)
            else exists key :: Harmless(w, l.ip.id, w.cloud.ips[l.ip.id].tags, service, key))
  }

  /** What a call knows about the addresses that carry its tags. */
  ghost predicate KnowsAddress(l: Local, c: State)
    requires l.Busy?
  {
    && (Searching(l.pc) ==> forall id :: !Full(c, id, l.ctx.service))
    && (l.pc.TagIp? ==> forall id :: Full(c, id, l.ctx.service) ==> id == l.ip.id)
  }

  ghost predicate AddressInv(w: World, service: ServiceKey) {
    && Separate(w) && WellFormed(w.cloud) && AtMostOneFull(w.cloud, service)
    && (forall t :: t in w.active ==> TagsSafely(w, t, service))
    && (forall t :: t in w.active && w.active[t].ctx.service == service ==> KnowsAddress(w.active[t], w.cloud))
  }

  lemma NothingIsNotFull(service: ServiceKey)
    ensures !Carries([], TagsFor(service))
  {
    assert SERVICE_TAG in TagsFor(service);
  }

  /** A call that differs under the key does not add the service's tag under it. */
  lemma OwnTagDiffers(owner: ServiceKey, i: nat, service: ServiceKey, key: string)
    requires Differs(key, owner, service)
    ensures OwnTag(owner, i) != NameTag(key, service)
  {
    TagKeys(owner);
  }

  lemma LackingIsNotFull(tags: seq<Tag>, service: ServiceKey, key: string)
    requires (key == SERVICE_TAG || key == NAMESPACE_TAG) && NameTag(key, service) !in tags
    ensures !Carries(tags, TagsFor(service))
  {
    TagKeys(service);
    assert key in TagsFor(service) && TagsFor(service)[key] == NameTag(key, service).value;
  }

  /** Only tagging adds tags to an address, and only to the one it names. */
  lemma AddressAfter(c: State, req: Request, resp: Response, c': State, id: string)
    requires WellFormed(c) && Serve(c, req, resp, c') && id in c'.ips
    ensures id !in c.ips ==> req.AssociateIp? && c'.ips[id].tags == [] && id !in c.usedIps
    ensures id in c.ips && !(req.CreateTag? && req.resource == OnIp(id)) ==> c'.ips[id] == c.ips[id]
    ensures id in c.ips && req.CreateTag? && req.resource == OnIp(id) ==>
              c'.ips[id].tags == c.ips[id].tags || c'.ips[id].tags == c.ips[id].tags + [req.tag]
  {
  }

  /** Where a step makes an address full for `service`, it is that service's own tagging step. */
  lemma NewlyFull(w: World, t: Tid, resp: Response, c': State, service: ServiceKey, id: string)
    requires Separate(w) && WellFormed(w.cloud) && t in w.active && TagsSafely(w, t, service)
    requires Serve(w.cloud, Issue(w.active[t]), resp, c')
    requires Full(c', id, service) && !Full(w.cloud, id, service)
    ensures TagsIt(w.active[t], id) && w.active[t].ctx.service == service
  {
    var l, c := w.active[t], w.cloud;
    AddressAfter(c, Issue(l), resp, c', id);
    NothingIsNotFull(service);
    assert l.pc.TagIp? && l.ip.id == id;
    if l.ctx.service != service {
      var key :| Harmless(w, id, c.ips[id].tags, service, key);
      OwnTagDiffers(l.ctx.service, l.pc.i, service, key);
      LackingIsNotFull(c'.ips[id].tags, service, key);
    }
  }

  /** The tag search sees every address with the full tag set. */
  lemma SearchByTag(l: Local, resp: Response, c: State, c': State)
    requires LocalOk(l) && l.pc == FindIpByTag && Serve(c, Issue(l), resp, c')
    requires resp.Ips? && TaggedIpPick(resp.ips, l.ctx.service).Nobody?
    ensures forall id :: !Full(c', id, l.ctx.service)
  {
    TagKeys(l.ctx.service);
    var keep := IpTagged(l.ctx.service);
    forall id | Full(c, id, l.ctx.service)
      ensures c.ips[id] in resp.ips && keep(c.ips[id])
    {
      assert Tag(SERVICE_TAG, l.ctx.service.name) in c.ips[id].tags;
      assert AsksForIp(Issue(l), c.ips[id]);
      InclusionMatches(c.ips[id].tags, TagsFor(l.ctx.service));
    }
    NobodyKept(resp.ips, keep);
  }

  predicate EntersSearch(l: Local) {
    l.Busy? && (Searching(l.pc) || l.pc.TagIp?)
  }

  lemma NotSearching(l: Local)
    requires l.Busy?
    ensures !EntersSearch(CheckRule(l)) && !EntersSearch(HaveIp(l))
  {
  }

  lemma FoundNotSearching(l: Local, rule: Option<Rule>)
    requires l.Busy?
    ensures !EntersSearch(Found(l, rule))
  {
    NotSearching(l);
    if rule.Some? {
      NotSearching(l.(rule := rule, ip := IpRef(rule.value.publicIpId, rule.value.publicIp, rule.value.networkId),
                      network := rule.value.networkId));
    }
  }

  lemma LookupPath(l: Local, resp: Response)
    requires l.Busy? && (l.pc == ListByName || l.pc == ListByTag)
    ensures !EntersSearch(Resume(l, resp))
  {
    FoundNotSearching(l, None);
    if resp.Rules? {
      var named, tagged := NamedPick(resp.rules, l.ctx.lbName), TaggedPick(resp.rules, l.ctx.service);
      if named.One? { FoundNotSearching(l, Some(named.value)); }
      if tagged.One? { FoundNotSearching(l, Some(tagged.value)); }
    }
  }

  lemma LaterPath(l: Local, resp: Response)
    requires l.Busy? && !EntersSearch(l) && l.pc != ListByName && l.pc != ListByTag && l.pc != FindIpByTag
    ensures !EntersSearch(Resume(l, resp))
  {
    forall r, a, b, n ensures !EntersSearch(CheckRule(l.(rule := r, oldIp := a, ip := b, network := n))) {
      NotSearching(l.(rule := r, oldIp := a, ip := b, network := n));
    }
    NotSearching(l);
    if l.pc == FindSpecIp && resp.Ips? && |resp.ips| == 1 {
      var ip := RefOf(resp.ips[0]);
      NotSearching(l.(ip := ip, network := ip.network));
    }
  }

  /** How a call gets into the search, and from the search to tagging. */
  lemma SearchPath(l: Local, resp: Response)
    requires LocalOk(l)
    ensures var l' := Resume(l, resp);
            l'.Busy? && Searching(l'.pc) ==>
              (l.pc == FindIpByTag && resp.Ips? && TaggedIpPick(resp.ips, l.ctx.service).Nobody?) || Searching(l.pc)
    ensures var l' := Resume(l, resp);
            l'.Busy? && l'.pc.TagIp? ==>
              || (l.pc.TagIp? && l'.ip == l.ip)
              || (Adopts(l, resp) && l'.ip == RefOf(resp.ips[0]))
              || (l.pc == Associate && resp.NewIp? && l'.ip == RefOf(resp.ip))
  {
    if l.pc == ListByName || l.pc == ListByTag {
      LookupPath(l, resp);
    } else if l.pc == FindIpByTag || l.pc.TagIp? {
      forall ip: IpRef ensures !EntersSearch(GotIp(l, ip)) {
        NotSearching(l.(ip := ip, network := ip.network));
      }
    } else if !Searching(l.pc) {
      LaterPath(l, resp);
    }
  }

  /** The acting call, after its step. */
  lemma OwnKnowsAddress(w: World, t: Tid, resp: Response, c': State)
    requires Separate(w) && WellFormed(w.cloud) && t in w.active && TagsSafely(w, t, w.active[t].ctx.service)
    requires Serve(w.cloud, Issue(w.active[t]), resp, c') && KnowsAddress(w.active[t], w.cloud)
    requires Resume(w.active[t], resp).Busy?
    ensures KnowsAddress(Resume(w.active[t], resp), c')
  {
    var (l, c) := (w.active[t], w.cloud);
    var l' := Resume(l, resp);
    ResumeOk(l, resp);
    SearchPath(l, resp);
    if Searching(l'.pc) && l.pc == FindIpByTag {
      SearchByTag(l, resp, c, c');
    } else {
      forall id | Full(c', id, l.ctx.service) && !Full(c, id, l.ctx.service)
        ensures l.pc.TagIp? && id == l.ip.id
      {
        NewlyFull(w, t, resp, c', l.ctx.service, id);
      }
    }
  }

  /** Another call's step seen from a call for the service. */
  lemma OtherKnowsAddress(w: World, t: Tid, resp: Response, c': State, u: Tid)
    requires Separate(w) && WellFormed(w.cloud) && t in w.active && u in w.active && t != u
    requires TagsSafely(w, t, w.active[u].ctx.service) && KnowsAddress(w.active[u], w.cloud)
    requires Serve(w.cloud, Issue(w.active[t]), resp, c')
    ensures KnowsAddress(w.active[u], c')
  {
    var service := w.active[u].ctx.service;
    forall id | Full(c', id, service) && !Full(w.cloud, id, service) ensures false {
      NewlyFull(w, t, resp, c', service, id);
    }
  }

  lemma StepKeepsOneFull(w: World, m: Move, service: ServiceKey)
    requires AddressInv(w, service) && Can(w, m) && m.Answer?
    ensures AtMostOneFull(m.cloud, service)
  {
    forall id, id' | Full(m.cloud, id, service) && Full(m.cloud, id', service)
      ensures id == id'
    {
      if !Full(w.cloud, id, service) { NewlyFull(w, m.t, m.resp, m.cloud, service, id); }
      if !Full(w.cloud, id', service) { NewlyFull(w, m.t, m.resp, m.cloud, service, id'); }
    }
  }

  // ------------------------------------------------------------------------------------
  // Tagging stays safe

  /** How the acting call comes to be tagging an address after its step. */
  lemma StartsTagging(w: World, m: Move, ip: string)
    requires Separate(w) && WellFormed(w.cloud) && Can(w, m) && m.Answer?
    requires m.t in Do(w, m).active && TagsIt(Do(w, m).active[m.t], ip)
    ensures || TagsIt(w.active[m.t], ip)
            || (Adopts(w.active[m.t], m.resp) && m.resp.ips[0].id == ip && m.cloud == w.cloud && ip in w.cloud.ips
                && w.cloud.ips[ip] == m.resp.ips[0])
            || (ip !in w.cloud.usedIps && ip in m.cloud.ips && m.cloud.ips[ip].tags == [])
    ensures ip in w.cloud.usedIps || ip in m.cloud.usedIps
  {
    SearchPath(w.active[m.t], m.resp);
    ServeKeepsWellFormed(w.cloud, Issue(w.active[m.t]), m.resp, m.cloud);
  }

  /** The tags of an address after a step, while it is somebody's to tag. */
  lemma TagsAfter(w: World, m: Move, ip: string)
    requires Separate(w) && WellFormed(w.cloud) && Can(w, m) && m.Answer? && ip in w.cloud.usedIps && ip in m.cloud.ips
    ensures ip in w.cloud.ips
    ensures var l := w.active[m.t];
            || m.cloud.ips[ip].tags == w.cloud.ips[ip].tags
            || (TagsIt(l, ip) && m.cloud.ips[ip].tags == w.cloud.ips[ip].tags + [OwnTag(l.ctx.service, l.pc.i)])
  {
    AddressAfter(w.cloud, Issue(w.active[m.t]), m.resp, m.cloud, ip);
  }

  /** An address stays harmless, whoever has the next answer, unless that call starts to tag it and
      would add what is lacking. */
  lemma HarmlessStays(w: World, m: Move, ip: string, service: ServiceKey, key: string)
    requires Separate(w) && WellFormed(w.cloud) && Can(w, m) && m.Answer? && ip in w.cloud.usedIps && ip in m.cloud.ips
    requires ip in w.cloud.ips && Harmless(w, ip, w.cloud.ips[ip].tags, service, key)
    requires m.t in Do(w, m).active && TagsIt(Do(w, m).active[m.t], ip) ==> Differs(key, w.active[m.t].ctx.service, service)
    ensures Harmless(Do(w, m), ip, m.cloud.ips[ip].tags, service, key)
  {
    var l := w.active[m.t];
    ResumeOk(l, m.resp);
    TagsAfter(w, m, ip);
    if TagsIt(l, ip) {
      OwnTagDiffers(l.ctx.service, l.pc.i, service, key);
    }
  }

  /** A clean takeover makes its address safe for everybody who tags it. */
  lemma AdoptedSafely(w: World, m: Move, u: Tid, service: ServiceKey)
    requires AddressInv(w, service) && Can(w, m) && CleanMove(w, m, service) && m.Answer?
    requires Adopts(w.active[m.t], m.resp) && m.t in Do(w, m).active
    requires u in Do(w, m).active && TagsIt(Do(w, m).active[u], m.resp.ips[0].id)
    ensures TagsSafely(Do(w, m), u, service)
  {
    var (w', ip, owner) := (Do(w, m), m.resp.ips[0], w.active[m.t].ctx.service);
    ResumeOk(w.active[m.t], m.resp);
    StepSeparate(w, m);
    assert m.cloud == w.cloud && w.cloud.ips[ip.id] == ip;
    if owner != service {
      var key :| Differs(key, owner, service) && Harmless(w, ip.id, ip.tags, service, key);
      HarmlessStays(w, m, ip.id, service, key);
      assert w'.active[u].ctx.service != service;
    }
  }

  /** A new address is safe: nobody else knows it, and two services differ in one name or the other. */
  lemma NewSafely(w: World, m: Move, service: ServiceKey)
    requires AddressInv(w, service) && Can(w, m) && m.Answer? && m.t in Do(w, m).active
    requires Do(w, m).active[m.t].pc.TagIp? && Do(w, m).active[m.t].ip.id !in w.cloud.usedIps
    requires var ip := Do(w, m).active[m.t].ip.id; ip in m.cloud.ips && m.cloud.ips[ip].tags == []
    ensures TagsSafely(Do(w, m), m.t, service)
  {
    var w' := Do(w, m);
    var ip, owner := w'.active[m.t].ip.id, w'.active[m.t].ctx.service;
    ServeKeepsWellFormed(w.cloud, Issue(w.active[m.t]), m.resp, m.cloud);
    forall u | u in w'.active && u != m.t ensures !TagsIt(w'.active[u], ip) {
      assert TagsSafely(w, u, service);
    }
    if owner != service {
      var key := if owner.name != service.name then SERVICE_TAG else NAMESPACE_TAG;
      TagKeys(service);
      assert Harmless(w', ip, m.cloud.ips[ip].tags, service, key);
    }
  }

  /** A call that was tagging an address already, or goes on tagging its own. */
  lemma StaysSafely(w: World, m: Move, u: Tid, service: ServiceKey)
    requires AddressInv(w, service) && Can(w, m) && m.Answer?
    requires u in w.active && u in Do(w, m).active && w.active[u].pc.TagIp?
    requires TagsIt(Do(w, m).active[u], w.active[u].ip.id)
    requires m.t in Do(w, m).active && TagsIt(Do(w, m).active[m.t], w.active[u].ip.id) ==> TagsIt(w.active[m.t], w.active[u].ip.id)
    ensures TagsSafely(Do(w, m), u, service)
  {
    var (w', ip) := (Do(w, m), w.active[u].ip.id);
    assert TagsSafely(w, u, service);
    ResumeOk(w.active[m.t], m.resp);
    ServeKeepsWellFormed(w.cloud, Issue(w.active[m.t]), m.resp, m.cloud);
    if ip in m.cloud.ips {
      TagsAfter(w, m, ip);
      if w'.active[u].ctx.service != service {
        var key :| Harmless(w, ip, w.cloud.ips[ip].tags, service, key);
        HarmlessStays(w, m, ip, service, key);
      }
    }
  }

  lemma StepTagsSafely(w: World, m: Move, u: Tid, service: ServiceKey)
    requires AddressInv(w, service) && Can(w, m) && CleanMove(w, m, service) && m.Answer?
    requires Separate(Do(w, m)) && u in Do(w, m).active
    ensures TagsSafely(Do(w, m), u, service)
  {
    var w' := Do(w, m);
    if w'.active[u].pc.TagIp? {
      var ip := w'.active[u].ip.id;
      if u == m.t || (m.t in w'.active && TagsIt(w'.active[m.t], ip)) {
        StartsTagging(w, m, ip);
      }
      if u != m.t {
        assert TagsSafely(w, u, service);
      }
      if m.t in w'.active && TagsIt(w'.active[m.t], ip) && !TagsIt(w.active[m.t], ip) {
        if Adopts(w.active[m.t], m.resp) && m.resp.ips[0].id == ip {
          AdoptedSafely(w, m, u, service);
        } else {
          assert u == m.t;
          NewSafely(w, m, service);
        }
      } else {
        StaysSafely(w, m, u, service);
      }
    }
  }

  lemma StepAddressInv(w: World, m: Move, service: ServiceKey)
    requires AddressInv(w, service) && Can(w, m) && CleanMove(w, m, service)
    ensures AddressInv(Do(w, m), service)
  {
    StepSeparate(w, m);
    match m
    case Begin(t, _, _) => BeginAddressInv(w, m, service);
    case Answer(t, resp, cloud) =>
      var l, w' := w.active[t], Do(w, m);
      ServeKeepsWellFormed(w.cloud, Issue(l), resp, cloud);
      StepKeepsOneFull(w, m, service);
      forall u | u in w'.active
        ensures TagsSafely(w', u, service)
        ensures w'.active[u].ctx.service == service ==> KnowsAddress(w'.active[u], cloud)
      {
        StepTagsSafely(w, m, u, service);
        if w'.active[u].ctx.service == service {
          if u == t {
            ResumeOk(l, resp);
            OwnKnowsAddress(w, t, resp, cloud);
          } else {
            OtherKnowsAddress(w, t, resp, cloud, u);
          }
        }
      }
  }

  lemma BeginAddressInv(w: World, m: Move, service: ServiceKey)
    requires AddressInv(w, service) && Can(w, m) && m.Begin? && Separate(Do(w, m))
    ensures AddressInv(Do(w, m), service)
  {
    var w' := Do(w, m);
    forall u | u in w'.active ensures TagsSafely(w', u, service) {
      if u != m.t && w.active[u].pc.TagIp? {
        assert TagsSafely(w, u, service);
        var ip := w.active[u].ip.id;
        if ip in w.cloud.ips && w.active[u].ctx.service != service {
          var key :| Harmless(w, ip, w.cloud.ips[ip].tags, service, key);
          assert Harmless(w', ip, w.cloud.ips[ip].tags, service, key);
        }
      }
    }
  }

  lemma {:induction false} RunAddressInv(cloud: State, moves: seq<Move>, service: ServiceKey)
    requires WellFormed(cloud) && AtMostOneFull(cloud, service) && IsCleanRun(cloud, moves, service)
    ensures AddressInv(Run(cloud, moves), service)
    decreases |moves|
  {
    if moves != [] {
      RunAddressInv(cloud, moves[..|moves| - 1], service);
      StepAddressInv(Run(cloud, moves[..|moves| - 1]), moves[|moves| - 1], service);
    }
  }

  /** In every interleaving, under arbitrary failures and failed rollbacks, at most one address
      carries the full tag set of a service, as long as every takeover of an address from some
      service's status is clean for this one. Runs without such takeovers are all covered. */
  lemma {:induction false} NeverTwoAddresses(cloud: State, moves: seq<Move>, service: ServiceKey)
    requires WellFormed(cloud) && AtMostOneFull(cloud, service) && IsCleanRun(cloud, moves, service)
    ensures AtMostOneFull(Run(cloud, moves).cloud, service)
  {
    RunAddressInv(cloud, moves, service);
  }
}
