/** What failing calls leave behind, and what the next call makes of it. */
module ReconcilerRetries {
  import opened Wrappers
  import opened Kube
  import opened Tags
  import opened Cloud
  import opened Reconciler
  import opened ReconcilerWorld
  import opened ReconcilerFixpoint
  import opened ReconcilerDeletion
  import opened ReconcilerProgress
  import opened ReconcilerAddresses
  import Ports

  /** A run of one call in which anything may fail, with or without effect. */
  ghost predicate ServedRun(l: Local, c: State, xs: seq<Exchange>)
    decreases |xs|
  {
    xs == [] ||
    (l.Busy? && Serve(c, Issue(l), xs[0].resp, xs[0].cloud) && ServedRun(Resume(l, xs[0].resp), xs[0].cloud, xs[1..]))
  }

  lemma ServeKeepsSound(c: State, req: Request, resp: Response, c': State)
    requires Sound(c) && Serve(c, req, resp, c')
    ensures Sound(c')
  {
    if !Healthy(c, req, resp, c') && c' != c {
      var made :| Succeeds(c, req, made, c');
      assert Healthy(c, req, made, c');
      HealthyKeepsSound(c, req, made, c');
    } else if c' != c {
      HealthyKeepsSound(c, req, resp, c');
    }
  }

  // ------------------------------------------------------------------------------------
  // A rule whose tagging fails

  /** The only rule with the name has the first `j` of its tags. */
  ghost predicate TaggedSoFar(c: State, ctx: Ctx, id: string, j: nat) {
    OnlyNamed(c, ctx.lbName, id) && j <= |TAG_ORDER| && c.rules[id].tags == FirstTags(ctx.service, j)
  }

  /** A creation that succeeds, or fails and takes effect, leaves one untagged rule with the name. */
  lemma Created(l: Local, resp: Response, c: State, c': State)
    requires l.Busy? && l.pc == Create && l.rule.None? && WellFormed(c) && KnowsName(l, c)
    requires Serve(c, Issue(l), resp, c') && c' != c
    ensures exists id :: id !in c.rules && id in c'.rules && TaggedSoFar(c', l.ctx, id, 0)
    ensures resp.NewRule? ==> resp.rule.id !in c.rules && TaggedSoFar(c', l.ctx, resp.rule.id, 0) && c'.rules[resp.rule.id] == resp.rule
  {
    var req := Issue(l);
    assert req.CreateRule? && req.name == l.ctx.lbName;
    if resp.Failed? && !Succeeds(c, req, resp, c') {
      var made :| Succeeds(c, req, made, c');
      AddedRule(c, l.ctx, made.rule);
    } else {
      AddedRule(c, l.ctx, resp.rule);
    }
  }

  lemma AddedRule(c: State, ctx: Ctx, r: Rule)
    requires WellFormed(c) && r.id !in c.usedRules && r.name == ctx.lbName && r.tags == []
    requires forall id :: id in c.rules ==> c.rules[id].name != ctx.lbName
    ensures r.id !in c.rules && TaggedSoFar(AddRule(c, r), ctx, r.id, 0)
  {
    assert FirstTags(ctx.service, 0) == [];
  }

  lemma StoredTag(c: State, ctx: Ctx, id: string, i: nat)
    requires TaggedSoFar(c, ctx, id, i) && i < |TAG_ORDER|
    ensures var c' := AddTag(c, OnRule(id), OwnTag(ctx.service, i));
            c' != c && TaggedSoFar(c', ctx, id, i + 1)
  {
    var c' := AddTag(c, OnRule(id), OwnTag(ctx.service, i));
    assert c'.rules[id].tags == FirstTags(ctx.service, i + 1);
    assert |c'.rules[id].tags| == |c.rules[id].tags| + 1;
  }

  /** What a tagging request may be answered when the resource has no such tag yet. */
  lemma TagServed(c: State, resource: Resource, tag: Tag, resp: Response, c': State)
    requires Serve(c, CreateTag(resource, tag), resp, c') && TagsOf(c, resource).Some? && !HasKey(TagsOf(c, resource).value, tag.key)
    ensures (resp.Done? && c' == AddTag(c, resource, tag)) || (resp.Failed? && (c' == c || c' == AddTag(c, resource, tag)))
  {
  }

  lemma TagRuleIssue(l: Local)
    requires l.Busy? && l.pc.TagRule? && l.rule.Some?
    ensures Issue(l) == CreateTag(OnRule(l.rule.value.id), OwnTag(l.ctx.service, l.pc.i))
  {
  }

  /** A tagging request on such a rule adds the next tag or changes nothing. */
  lemma TaggedOnce(l: Local, resp: Response, c: State, c': State)
    requires l.Busy? && l.pc.TagRule? && l.rule.Some? && l.pc.i < |TAG_ORDER| && TaggedSoFar(c, l.ctx, l.rule.value.id, l.pc.i)
    requires Serve(c, Issue(l), resp, c')
    ensures TaggedSoFar(c', l.ctx, l.rule.value.id, if c' == c then l.pc.i else l.pc.i + 1)
    ensures resp.Done? ==> c' != c
    ensures !resp.AlreadyExists? && (!resp.Done? ==> resp.Failed?)
  {
    var id, i := l.rule.value.id, l.pc.i;
    FirstTagsLack(l.ctx.service, i);
    OwnTagKey(l.ctx.service, i);
    TagRuleIssue(l);
    TagServed(c, OnRule(id), OwnTag(l.ctx.service, i), resp, c');
    StoredTag(c, l.ctx, id, i);
  }

  /** `i` tagging answers without an error, and then a failure. */
  ghost predicate TagsThenFails(xs: seq<Exchange>, i: nat) {
    |xs| == i + 1 && (forall k :: 0 <= k < i ==> !xs[k].resp.Failed?) && xs[i].resp.Failed?
  }

  /** The number of tags on the rule when its tagging has failed: those confirmed, and the last one if
      its request took effect all the same. */
  function TagsLeft(c: State, xs: seq<Exchange>, i: nat): nat
    requires |xs| == i + 1
  {
    if xs[i].cloud == (if i == 0 then c else xs[i - 1].cloud) then i else i + 1
  }

  lemma {:induction false} FailedTagging(l: Local, c: State, xs: seq<Exchange>, i: nat)
    requires l.Busy? && l.pc.TagRule? && l.rule.Some? && l.pc.i + i < |TAG_ORDER| && TaggedSoFar(c, l.ctx, l.rule.value.id, l.pc.i)
    requires ServedRun(l, c, xs) && TagsThenFails(xs, i)
    ensures EndLocal(l, xs) == Finished(Error)
    ensures TaggedSoFar(EndCloud(c, xs), l.ctx, l.rule.value.id, l.pc.i + TagsLeft(c, xs, i))
    decreases i
  {
    if i > 0 {
      ConfirmedAndOn(l, c, xs, i);
      FailedTagging(l.(pc := TagRule(l.pc.i + 1)), xs[0].cloud, xs[1..], i - 1);
      assert l.pc.i + 1 + TagsLeft(xs[0].cloud, xs[1..], i - 1) == l.pc.i + TagsLeft(c, xs, i);
    } else {
      FailedAtOnce(l, c, xs);
    }
  }

  lemma {:induction false} FailedAtOnce(l: Local, c: State, xs: seq<Exchange>)
    requires l.Busy? && l.pc.TagRule? && l.rule.Some? && l.pc.i < |TAG_ORDER| && TaggedSoFar(c, l.ctx, l.rule.value.id, l.pc.i)
    requires ServedRun(l, c, xs) && TagsThenFails(xs, 0)
    ensures EndLocal(l, xs) == Finished(Error)
    ensures TaggedSoFar(EndCloud(c, xs), l.ctx, l.rule.value.id, l.pc.i + TagsLeft(c, xs, 0))
  {
    TaggedAndOn(l, c, xs[0]);
    OneTagOn(l, c, xs, Finished(Error));
    OnlyAnswer(xs);
  }

  /** After the first of several tagging answers. */
  lemma {:induction false} ConfirmedAndOn(l: Local, c: State, xs: seq<Exchange>, i: nat)
    requires l.Busy? && l.pc.TagRule? && l.rule.Some? && l.pc.i + i < |TAG_ORDER| && TaggedSoFar(c, l.ctx, l.rule.value.id, l.pc.i)
    requires ServedRun(l, c, xs) && TagsThenFails(xs, i) && i > 0
    ensures var (l', c', rest) := (l.(pc := TagRule(l.pc.i + 1)), xs[0].cloud, xs[1..]);
            && TaggedSoFar(c', l.ctx, l.rule.value.id, l.pc.i + 1) && ServedRun(l', c', rest) && TagsThenFails(rest, i - 1)
            && EndLocal(l, xs) == EndLocal(l', rest) && EndCloud(c, xs) == EndCloud(c', rest)
            && TagsLeft(c, xs, i) == TagsLeft(c', rest, i - 1) + 1
  {
    TaggedAndOn(l, c, xs[0]);
    OneTagOn(l, c, xs, l.(pc := TagRule(l.pc.i + 1)));
    OneAnswerLess(c, xs, i);
  }

  lemma {:induction false} OneTagOn(l: Local, c: State, xs: seq<Exchange>, l': Local)
    requires l.Busy? && xs != [] && ServedRun(l, c, xs) && Resume(l, xs[0].resp) == l'
    ensures ServedRun(l', xs[0].cloud, xs[1..]) && EndLocal(l, xs) == EndLocal(l', xs[1..]) && EndCloud(c, xs) == EndCloud(xs[0].cloud, xs[1..])
  {
  }

  lemma TaggedAndOn(l: Local, c: State, x: Exchange)
    requires l.Busy? && l.pc.TagRule? && l.rule.Some? && l.pc.i < |TAG_ORDER| && TaggedSoFar(c, l.ctx, l.rule.value.id, l.pc.i)
    requires Serve(c, Issue(l), x.resp, x.cloud)
    ensures !x.resp.Failed? && l.pc.i + 1 < |TAG_ORDER| ==>
              Resume(l, x.resp) == l.(pc := TagRule(l.pc.i + 1)) && TaggedSoFar(x.cloud, l.ctx, l.rule.value.id, l.pc.i + 1)
    ensures x.resp.Failed? ==>
              Resume(l, x.resp) == Finished(Error) && TaggedSoFar(x.cloud, l.ctx, l.rule.value.id, if x.cloud == c then l.pc.i else l.pc.i + 1)
  {
    TaggedOnce(l, x.resp, c, x.cloud);
    TagRuleTaken(l, x.resp);
  }

  lemma OnlyAnswer(xs: seq<Exchange>)
    requires |xs| == 1
    ensures xs[1..] == [] && EndLocal(Finished(Error), xs[1..]) == Finished(Error) && forall c :: EndCloud(c, xs) == xs[0].cloud
  {
  }

  lemma OneAnswerLess(c: State, xs: seq<Exchange>, i: nat)
    requires TagsThenFails(xs, i) && i > 0
    ensures TagsThenFails(xs[1..], i - 1) && TagsLeft(c, xs, i) == TagsLeft(xs[0].cloud, xs[1..], i - 1) + 1
  {
    var rest := xs[1..];
    forall k | 0 <= k < i - 1 ensures !rest[k].resp.Failed? { assert rest[k] == xs[k + 1]; }
    assert rest[i - 1] == xs[i] && (i > 1 ==> rest[i - 2] == xs[i - 1]);
  }

  lemma {:induction false} FullyTaggedIsManaged(service: ServiceKey, ingress: seq<Ingress>, lbName: string)
    ensures ShouldManageLb(FirstTags(service, |TAG_ORDER|), service, ingress, lbName)
    ensures ShouldManageIp(FirstTags(service, |TAG_ORDER|), service)
    ensures !HasMissingKeys(FirstTags(service, |TAG_ORDER|))
  {
    var tags := FirstTags(service, |TAG_ORDER|);
    TagKeys(service);
    assert TAG_ORDER[0] == CLOUD_PROVIDER_TAG && TAG_ORDER[1] == NAMESPACE_TAG && TAG_ORDER[2] == SERVICE_TAG;
    FirstTagsLookup(service, |TAG_ORDER|, CLOUD_PROVIDER_TAG);
    FirstTagsLookup(service, |TAG_ORDER|, NAMESPACE_TAG);
    FirstTagsLookup(service, |TAG_ORDER|, SERVICE_TAG);
    FirstTagsLookup(service, |TAG_ORDER|, IGNORE_TAG);
    GetTagFinds(tags, CLOUD_PROVIDER_TAG);
    GetTagFinds(tags, NAMESPACE_TAG);
    GetTagFinds(tags, SERVICE_TAG);
  }

  // ------------------------------------------------------------------------------------
  // From the start of the call to its creation

  /** What has been checked about the request when a call gets to its creation. */
  predicate Fit(l: Local) {
    l.Busy? ==>
      && (l.kind == Ensure && l.pc != ListByName && l.pc != ListByTag ==> l.ctx.algorithm.Some?)
      && (l.pc in {DropRuleForPorts, Create} ==> l.ctx.ports.Ok?)
  }

  lemma HaveIpFit(l: Local)
    requires l.Busy? && (l.kind == Ensure ==> l.ctx.algorithm.Some?)
    ensures Fit(CheckRule(l)) && Fit(HaveIp(l))
  {
  }

  lemma FoundFit(l: Local, rule: Option<Rule>)
    requires l.Busy?
    ensures Fit(Found(l, rule))
  {
    if l.ctx.algorithm.Some? {
      HaveIpFit(l);
      if rule.Some? {
        HaveIpFit(l.(rule := rule, ip := IpRef(rule.value.publicIpId, rule.value.publicIp, rule.value.networkId),
                     network := rule.value.networkId));
      }
    }
  }

  lemma LookupFit(l: Local, resp: Response)
    requires l.Busy? && (l.pc == ListByName || l.pc == ListByTag)
    ensures Fit(Resume(l, resp))
  {
    FoundFit(l, None);
    if resp.Rules? {
      var named, tagged := NamedPick(resp.rules, l.ctx.lbName), TaggedPick(resp.rules, l.ctx.service);
      if named.One? { FoundFit(l, Some(named.value)); }
      if tagged.One? { FoundFit(l, Some(tagged.value)); }
    }
  }

  lemma LaterFit(l: Local, resp: Response)
    requires l.Busy? && Fit(l) && l.pc != ListByName && l.pc != ListByTag
    ensures Fit(Resume(l, resp))
  {
    if ForIp(l.pc) {
      ForIpFit(l, resp);
    } else {
      HaveIpFit(l);
    }
  }

  lemma ForIpFit(l: Local, resp: Response)
    requires l.Busy? && Fit(l) && ForIp(l.pc)
    ensures Fit(Resume(l, resp))
  {
    forall r, a, b, n ensures Fit(CheckRule(l.(rule := r, oldIp := a, ip := b, network := n))) {
      HaveIpFit(l.(rule := r, oldIp := a, ip := b, network := n));
    }
    forall ip: IpRef ensures Fit(GotIp(l, ip)) { HaveIpFit(l.(ip := ip, network := ip.network)); }
  }

  /** A call that stands before its creation. */
  ghost predicate BeforeCreation(l: Local, ctx: Ctx, c: State) {
    && l.Busy? && l.pc == Create && l.kind == Ensure && l.ctx == ctx && l.rule.None? && WellFormed(c) && KnowsName(l, c)
    && ctx.algorithm.Some? && ctx.ports.Ok?
  }

  /** Every run of Ensure gets to its creation like this. */
  lemma {:induction false} ReachesCreation(l: Local, c: State, xs: seq<Exchange>)
    requires LocalOk(l) && Fit(l) && WellFormed(c) && KnowsName(l, c) && l.kind == Ensure && ServedRun(l, c, xs)
    requires EndLocal(l, xs).Busy? && EndLocal(l, xs).pc == Create
    ensures BeforeCreation(EndLocal(l, xs), l.ctx, EndCloud(c, xs))
    decreases |xs|
  {
    if xs != [] {
      var l', c', rest := Resume(l, xs[0].resp), xs[0].cloud, xs[1..];
      assert EndLocal(l, xs) == EndLocal(l', rest);
      StepsToCreation(l, xs[0].resp, c, c');
      ReachesCreation(l', c', rest);
      assert EndCloud(c, xs) == EndCloud(c', rest);
    }
  }

  lemma StepsToCreation(l: Local, resp: Response, c: State, c': State)
    requires LocalOk(l) && Fit(l) && WellFormed(c) && KnowsName(l, c) && l.kind == Ensure && Serve(c, Issue(l), resp, c')
    ensures WellFormed(c')
    ensures var l' := Resume(l, resp);
            l'.Busy? ==> LocalOk(l') && Fit(l') && KnowsName(l', c') && l'.kind == Ensure && l'.ctx == l.ctx
  {
    ResumeOk(l, resp);
    ResumeInStep(l, Ensure, resp);
    OwnStepKnows(l, resp, c, c');
    ServeKeepsWellFormed(c, Issue(l), resp, c');
    if l.pc == ListByName || l.pc == ListByTag { LookupFit(l, resp); } else { LaterFit(l, resp); }
  }

  lemma {:induction false} ServedPrefix(l: Local, c: State, xs: seq<Exchange>, n: nat)
    requires ServedRun(l, c, xs) && n < |xs|
    ensures ServedRun(l, c, xs[..n]) && EndLocal(l, xs[..n]).Busy?
    decreases n
  {
    if n > 0 {
      ServedPrefix(Resume(l, xs[0].resp), xs[0].cloud, xs[1..], n - 1);
      assert xs[..n][1..] == xs[1..][..n - 1] && xs[..n][0] == xs[0];
    }
  }

  lemma {:induction false} ServedSuffix(l: Local, c: State, xs: seq<Exchange>, n: nat)
    requires ServedRun(l, c, xs) && n <= |xs|
    ensures ServedRun(EndLocal(l, xs[..n]), EndCloud(c, xs[..n]), xs[n..])
    decreases n
  {
    if n > 0 {
      var l', c', rest := Resume(l, xs[0].resp), xs[0].cloud, xs[1..];
      ServedSuffix(l', c', rest, n - 1);
      assert xs[..n][1..] == rest[..n - 1] && xs[..n][0] == xs[0] && rest[n - 1..] == xs[n..];
      assert EndLocal(l, xs[..n]) == EndLocal(l', rest[..n - 1]);
      assert EndCloud(c, xs[..n]) == EndCloud(c', rest[..n - 1]);
    } else {
      assert xs[0..] == xs;
    }
  }

  lemma CloudSplits(c: State, xs: seq<Exchange>, n: nat)
    requires n < |xs|
    ensures EndCloud(c, xs) == EndCloud(EndCloud(c, xs[..n]), xs[n..])
  {
  }

  lemma {:induction false} EndSplits(l: Local, xs: seq<Exchange>, n: nat)
    requires n <= |xs|
    ensures EndLocal(l, xs) == EndLocal(EndLocal(l, xs[..n]), xs[n..])
    decreases n
  {
    if n > 0 && l.Busy? {
      EndSplits(Resume(l, xs[0].resp), xs[1..], n - 1);
      assert xs[..n][1..] == xs[1..][..n - 1] && xs[1..][n - 1..] == xs[n..];
    } else {
      assert n == 0 ==> xs[n..] == xs;
    }
  }

  // ------------------------------------------------------------------------------------
  // Stuck

  /** What the next call's search by name leads to when the last call left its rule half tagged: an
      Ensure is refused, and a Delete ends without an error and without touching the rule. */
  ghost predicate Stuck(ctx: Ctx, c: State) {
    forall resp :: Healthy(c, ListRulesByKeyword(ctx.lbName), resp, c) ==>
      && Resume(Start(Ensure, ctx), resp) == Finished(Error)
      && Resume(Start(Delete, ctx), resp) == Finished(Deleted)
  }

  lemma {:induction false} RulesListed(c: State, ids: set<string>) returns (xs: seq<Rule>)
    requires ids <= c.rules.Keys && WellFormed(c)
    ensures forall i :: 0 <= i < |xs| ==> xs[i].id in ids && c.rules[xs[i].id] == xs[i]
    ensures forall i, j :: 0 <= i < j < |xs| ==> xs[i].id != xs[j].id
    ensures forall id :: id in ids ==> c.rules[id] in xs
  {
    xs := [];
    if ids != {} {
      var id :| id in ids;
      var rest := RulesListed(c, ids - {id});
      xs := rest + [c.rules[id]];
    }
  }

  /** A rule with the first `j` of its tags blocks the service exactly when some tag is missing and
      the status does not name the balancer. */
  lemma HalfTaggedIsStuck(ctx: Ctx, c: State, id: string, j: nat)
    requires WellFormed(c) && TaggedSoFar(c, ctx, id, j) && ctx.algorithm.Some? && ctx.ports.Ok? && ctx.removable
    ensures Stuck(ctx, c) <==> j < |TAG_ORDER| && !StatusNames(ctx.ingress, ctx.lbName)
  {
    var rules := RulesListed(c, c.rules.Keys);
    assert Healthy(c, ListRulesByKeyword(ctx.lbName), Rules(rules), c);
    if j < |TAG_ORDER| {
      forall resp | Healthy(c, ListRulesByKeyword(ctx.lbName), resp, c)
        ensures Resume(Start(Ensure, ctx), resp) == Finished(Error) <==> !StatusNames(ctx.ingress, ctx.lbName)
        ensures Resume(Start(Delete, ctx), resp) == Finished(Deleted) <==> !StatusNames(ctx.ingress, ctx.lbName)
      {
        TagFailureStrandsRule(ctx, c, id, j, resp, c);
      }
    } else {
      FullyTaggedIsManaged(ctx.service, ctx.ingress, ctx.lbName);
      NamedAnswer(c, ctx.lbName, id, Rules(rules), c);
    }
  }

  /** From the creation on: it is confirmed, `i` tags are, and then a tagging request fails. */
  lemma {:induction false} StrandsFromCreation(l: Local, ctx: Ctx, c: State, xs: seq<Exchange>, i: nat)
    requires BeforeCreation(l, ctx, c) && ServedRun(l, c, xs) && |xs| > 0 && i < |TAG_ORDER|
    requires xs[0].resp.NewRule? && TagsThenFails(xs[1..], i)
    ensures EndLocal(l, xs) == Finished(Error)
    ensures TaggedSoFar(EndCloud(c, xs), ctx, xs[0].resp.rule.id, TagsLeft(xs[0].cloud, xs[1..], i))
  {
    var made, rest := xs[0], xs[1..];
    CreationChanges(l, made.resp, c, made.cloud);
    Created(l, made.resp, c, made.cloud);
    var l' := l.(rule := Some(made.resp.rule), pc := TagRule(0));
    CreationAnswered(l, made.resp);
    assert ServedRun(l', made.cloud, rest) && EndLocal(l, xs) == EndLocal(l', rest) && EndCloud(c, xs) == EndCloud(made.cloud, rest);
    FailedTagging(l', made.cloud, rest, i);
  }

  lemma CreationChanges(l: Local, resp: Response, c: State, c': State)
    requires l.Busy? && l.pc == Create && WellFormed(c) && resp.NewRule? && Serve(c, Issue(l), resp, c')
    ensures c' != c
  {
    assert resp.rule.id in c'.rules && resp.rule.id !in c.rules;
  }

  lemma CreationAnswered(l: Local, resp: Response)
    requires l.Busy? && l.pc == Create
    ensures Resume(l, resp) == if resp.NewRule? then l.(rule := Some(resp.rule), pc := TagRule(0)) else Finished(Error)
  {
  }

  /** An Ensure run that creates its rule and then fails to tag it, after `i` confirmed tags, ends in
      an error with one rule that has those tags, and one more if the failed request took effect. The
      service is stuck exactly when a tag is missing and the status does not name the balancer. */
  lemma {:induction false} FailedTaggingStrands(ctx: Ctx, c: State, xs: seq<Exchange>, n: nat, i: nat)
    requires WellFormed(c) && ServedRun(Start(Ensure, ctx), c, xs) && n < |xs| && i < |TAG_ORDER|
    requires EndLocal(Start(Ensure, ctx), xs[..n]).Busy? && EndLocal(Start(Ensure, ctx), xs[..n]).pc == Create
    requires xs[n].resp.NewRule? && TagsThenFails(xs[n + 1..], i)
    ensures var (end, j) := (EndCloud(c, xs), TagsLeft(xs[n].cloud, xs[n + 1..], i));
            && EndLocal(Start(Ensure, ctx), xs) == Finished(Error)
            && TaggedSoFar(end, ctx, xs[n].resp.rule.id, j)
            && (ctx.removable ==> (Stuck(ctx, end) <==> j < |TAG_ORDER| && !StatusNames(ctx.ingress, ctx.lbName)))
  {
    var l, before := ToCreation(ctx, c, xs, n);
    assert xs[n..][0] == xs[n] && xs[n..][1..] == xs[n + 1..];
    StrandsFromCreation(l, ctx, before, xs[n..], i);
    if ctx.removable {
      StaysWellFormed(Start(Ensure, ctx), c, xs);
      HalfTaggedIsStuck(ctx, EndCloud(c, xs), xs[n].resp.rule.id, TagsLeft(xs[n].cloud, xs[n + 1..], i));
    }
  }

  /** The two halves of a run: up to the creation, and from it on. */
  lemma ToCreation(ctx: Ctx, c: State, xs: seq<Exchange>, n: nat) returns (l: Local, before: State)
    requires WellFormed(c) && ServedRun(Start(Ensure, ctx), c, xs) && n < |xs|
    requires EndLocal(Start(Ensure, ctx), xs[..n]).Busy? && EndLocal(Start(Ensure, ctx), xs[..n]).pc == Create
    ensures l == EndLocal(Start(Ensure, ctx), xs[..n]) && before == EndCloud(c, xs[..n])
    ensures BeforeCreation(l, ctx, before) && ServedRun(l, before, xs[n..])
    ensures EndLocal(Start(Ensure, ctx), xs) == EndLocal(l, xs[n..]) && EndCloud(c, xs) == EndCloud(before, xs[n..])
    ensures ctx.algorithm.Some? && ctx.ports.Ok?
  {
    l, before := EndLocal(Start(Ensure, ctx), xs[..n]), EndCloud(c, xs[..n]);
    ServedPrefix(Start(Ensure, ctx), c, xs, n);
    ServedSuffix(Start(Ensure, ctx), c, xs, n);
    EndSplits(Start(Ensure, ctx), xs, n);
    CloudSplits(c, xs, n);
    ReachesCreation(Start(Ensure, ctx), c, xs[..n]);
  }

  lemma {:induction false} StaysWellFormed(l: Local, c: State, xs: seq<Exchange>)
    requires WellFormed(c) && ServedRun(l, c, xs)
    ensures WellFormed(EndCloud(c, xs))
    decreases |xs|
  {
    if xs != [] {
      ServeKeepsWellFormed(c, Issue(l), xs[0].resp, xs[0].cloud);
      StaysWellFormed(Resume(l, xs[0].resp), xs[0].cloud, xs[1..]);
    }
  }

  /** From a creation that fails and takes effect. */
  lemma StrandsUntagged(l: Local, ctx: Ctx, c: State, x: Exchange)
    requires BeforeCreation(l, ctx, c) && Serve(c, Issue(l), x.resp, x.cloud) && x.resp.Failed? && x.cloud != c
    ensures Resume(l, x.resp) == Finished(Error) && exists id :: TaggedSoFar(x.cloud, ctx, id, 0)
  {
    Created(l, x.resp, c, x.cloud);
    CreationAnswered(l, x.resp);
  }

  /** The same for a creation that is reported as failed although it took effect: the rule has no tag. */
  lemma {:induction false} FailedCreationStrands(ctx: Ctx, c: State, xs: seq<Exchange>)
    requires WellFormed(c) && ServedRun(Start(Ensure, ctx), c, xs) && |xs| > 0
    requires var n := |xs| - 1;
             && EndLocal(Start(Ensure, ctx), xs[..n]).Busy? && EndLocal(Start(Ensure, ctx), xs[..n]).pc == Create
             && xs[n].resp.Failed? && xs[n].cloud != EndCloud(c, xs[..n])
    ensures var end := EndCloud(c, xs);
            && EndLocal(Start(Ensure, ctx), xs) == Finished(Error)
            && (exists id :: TaggedSoFar(end, ctx, id, 0))
            && (ctx.removable ==> (Stuck(ctx, end) <==> !StatusNames(ctx.ingress, ctx.lbName)))
  {
    var n := |xs| - 1;
    var l, before := ToCreation(ctx, c, xs, n);
    assert xs[n..] == [xs[n]] && xs[n..][1..] == [];
    StrandsUntagged(l, ctx, before, xs[n]);
    assert EndLocal(l, xs[n..]) == EndLocal(Finished(Error), []);
    if ctx.removable {
      StaysWellFormed(Start(Ensure, ctx), c, xs);
      var id :| TaggedSoFar(xs[n].cloud, ctx, id, 0);
      HalfTaggedIsStuck(ctx, xs[n].cloud, id, 0);
    }
  }

  // ------------------------------------------------------------------------------------
  // Ensure again and again

  /** A service that names no address and has no status yet. */
  predicate Fresh(ctx: Ctx) {
    Ordinary(ctx) && !StatusNames(ctx.ingress, ctx.lbName)
  }

  /** The rule that an earlier call has made, with the first `j` of its tags. */
  ghost predicate LeftRule(c: State, ctx: Ctx, id: string, j: nat) {
    TaggedSoFar(c, ctx, id, j) && Suits(c.rules[id], ctx)
  }

  ghost predicate Matching(c: State, ctx: Ctx, ip: string) {
    ip in c.ips && MatchesAll(c.ips[ip].tags, TagsFor(ctx.service))
  }

  /** At most one address matches the service's tags, and the search by tag sees it. */
  ghost predicate IpsLeft(c: State, ctx: Ctx) {
    && (forall a, b :: Matching(c, ctx, a) && Matching(c, ctx, b) ==> a == b)
    && (forall a :: Matching(c, ctx, a) ==> Tag(SERVICE_TAG, ctx.service.name) in c.ips[a].tags)
  }

  /** The address has the first `j` of its tags if it is still there, and no other address matches. */
  ghost predicate AddressSoFar(c: State, ctx: Ctx, ip: string, j: nat) {
    && j <= |TAG_ORDER| && (ip in c.ips ==> c.ips[ip].tags == FirstTags(ctx.service, j))
    && forall other :: other != ip ==> !Matching(c, ctx, other)
  }

  /** What calls for the service can leave in the cloud. */
  ghost predicate Left(c: State, ctx: Ctx) {
    && Sound(c) && IpsLeft(c, ctx)
    && (NoRule(c, ctx) || exists id, j: nat :: LeftRule(c, ctx, id, j))
  }

  /** Where a call for the service can stand, and what the cloud looks like then. */
  ghost predicate Trying(ctx: Ctx, l: Local, c: State) {
    if l.Finished? then Left(c, ctx)
    else
      && l.kind == Ensure && l.ctx == ctx && Sound(c)
      && match l.pc
         case ListByName => l.rule.None? && l.ip == NO_IP && Left(c, ctx)
         case ListByTag => l.rule.None? && l.ip == NO_IP && NoRule(c, ctx) && IpsLeft(c, ctx)
         case FindIpByTag => l.rule.None? && NoRule(c, ctx) && IpsLeft(c, ctx)
         case FindNetwork => l.rule.None? && NoRule(c, ctx) && forall a :: !Matching(c, ctx, a)
         case Associate => l.rule.None? && NoRule(c, ctx) && forall a :: !Matching(c, ctx, a)
         case TagIp(i) => l.rule.None? && NoRule(c, ctx) && i < |TAG_ORDER| && AddressSoFar(c, ctx, l.ip.id, i)
         case RollBackIp => NoRule(c, ctx) && exists j: nat :: AddressSoFar(c, ctx, l.ip.id, j)
         case Create => l.rule.None? && NoRule(c, ctx) && IpsLeft(c, ctx) && l.ip.id in c.ips
         case TagRule(i) => l.rule.Some? && i < |TAG_ORDER| && LeftRule(c, ctx, l.rule.value.id, i) && IpsLeft(c, ctx)
         case Push => IpsLeft(c, ctx) && exists id :: LeftRule(c, ctx, id, |TAG_ORDER|)
         case _ => false
  }

  lemma OwnTagHits(service: ServiceKey, i: nat)
    requires i < |TAG_ORDER|
    ensures Lookup(TagsFor(service), OwnTag(service, i).key) == OwnTag(service, i).value
  {
    OwnTagKey(service, i);
  }

  lemma {:induction false} FirstTagsHits(service: ServiceKey, j: nat)
    requires j <= |TAG_ORDER|
    ensures Hits(FirstTags(service, j), TagsFor(service)) == j
  {
    if j > 0 {
      FirstTagsHits(service, j - 1);
      OwnTagHits(service, j - 1);
      var tags := FirstTags(service, j);
      assert tags[..|tags| - 1] == FirstTags(service, j - 1);
    }
  }

  /** Tags are recognised when the last one is there, and not before. */
  lemma {:induction false} FirstTagsMatch(service: ServiceKey, j: nat)
    requires j <= |TAG_ORDER|
    ensures MatchesAll(FirstTags(service, j), TagsFor(service)) <==> j == |TAG_ORDER|
    ensures j == |TAG_ORDER| ==> Tag(SERVICE_TAG, service.name) in FirstTags(service, j)
  {
    FirstTagsHits(service, j);
    TagKeys(service);
    if j == |TAG_ORDER| {
      assert OwnTag(service, 2) == Tag(SERVICE_TAG, service.name);
      assert FirstTags(service, 3) == FirstTags(service, 2) + [OwnTag(service, 2)];
    }
  }

  lemma AddressIsLeft(c: State, ctx: Ctx, ip: string, j: nat)
    requires AddressSoFar(c, ctx, ip, j)
    ensures IpsLeft(c, ctx)
  {
    FirstTagsMatch(ctx.service, j);
  }

  lemma TryIsLeft(ctx: Ctx, l: Local, c: State)
    requires Trying(ctx, l, c)
    ensures Left(c, ctx)
  {
    if l.Busy? {
      if l.pc.TagIp? {
        AddressIsLeft(c, ctx, l.ip.id, l.pc.i);
      } else if l.pc == RollBackIp {
        var j: nat :| AddressSoFar(c, ctx, l.ip.id, j);
        AddressIsLeft(c, ctx, l.ip.id, j);
      }
    }
  }

  /** The rule that was left is the service's once it has all its tags, and blocks it before. */
  lemma LeftRuleFound(ctx: Ctx, c: State, id: string, j: nat)
    requires Fresh(ctx) && LeftRule(c, ctx, id, j)
    ensures var l := Found(Start(Ensure, ctx), Some(c.rules[id]));
            if j < |TAG_ORDER| then l == Finished(Error)
            else l.Busy? && l.pc == Push && l.kind == Ensure && l.ctx == ctx
  {
    if j < |TAG_ORDER| {
      PartlyTaggedUnmanaged(ctx, j);
    } else {
      FullyTaggedIsManaged(ctx.service, ctx.ingress, ctx.lbName);
      var r := c.rules[id];
      var known := Busy(Ensure, ctx, ListByName, Some(r), IpRef(r.publicIpId, r.publicIp, r.networkId), NO_IP, r.networkId);
      assert CheckRule(known) == RuleUpdated(known) == known.(pc := Push);
    }
  }

  lemma TryByName(ctx: Ctx, l: Local, resp: Response, c: State, c': State)
    requires Fresh(ctx) && l.Busy? && l.pc == ListByName && Trying(ctx, l, c) && Serve(c, Issue(l), resp, c')
    ensures Trying(ctx, Resume(l, resp), c')
  {
    if !resp.Failed? {
      if NoRule(c, ctx) {
        NobodyNamed(c, ctx.lbName, resp, c');
      } else {
        var id, j: nat :| LeftRule(c, ctx, id, j);
        NamedAnswer(c, ctx.lbName, id, resp, c');
        LeftRuleFound(ctx, c, id, j);
        PlaceForgotten(l, ListByName, Some(c.rules[id]));
        FoundOfStart(ctx, l, c.rules[id]);
      }
    }
  }

  /** Two calls at the same place but for what they remember of addresses. */
  predicate Alike(a: Local, b: Local) {
    (a.Finished? && a == b) || (a.Busy? && b.Busy? && a.pc == b.pc && a.kind == b.kind && a.ctx == b.ctx)
  }

  lemma CheckAlike(a: Local, b: Local)
    requires a.Busy? && b.Busy? && a.ctx == b.ctx && a.rule == b.rule && a.kind == b.kind
    ensures Alike(CheckRule(a), CheckRule(b))
  {
  }

  lemma FoundChecks(ctx: Ctx, l: Local, r: Rule)
    requires Fresh(ctx) && l.Busy? && l.kind == Ensure && l.ctx == ctx && r.publicIpId != "" && r.publicIp != ""
    ensures Found(l, Some(r)) ==
            if ctx.algorithm.None? || !ShouldManageLb(r.tags, ctx.service, ctx.ingress, ctx.lbName) then Finished(Error)
            else CheckRule(l.(rule := Some(r), ip := IpRef(r.publicIpId, r.publicIp, r.networkId), network := r.networkId))
  {
  }

  lemma FoundOfStart(ctx: Ctx, l: Local, r: Rule)
    requires Fresh(ctx) && l.Busy? && l.kind == Ensure && l.ctx == ctx && l.rule.None?
    requires r.publicIpId != "" && r.publicIp != ""
    ensures Alike(Found(l, Some(r)), Found(Start(Ensure, ctx), Some(r)))
  {
    FoundChecks(ctx, l, r);
    FoundChecks(ctx, Start(Ensure, ctx), r);
    var ip := IpRef(r.publicIpId, r.publicIp, r.networkId);
    CheckAlike(l.(rule := Some(r), ip := ip, network := r.networkId), Busy(Ensure, ctx, ListByName, Some(r), ip, NO_IP, r.networkId));
  }

  lemma TryByTag(ctx: Ctx, l: Local, resp: Response, c: State, c': State)
    requires Fresh(ctx) && l.Busy? && l.pc == ListByTag && Trying(ctx, l, c) && Serve(c, Issue(l), resp, c')
    ensures Trying(ctx, Resume(l, resp), c')
  {
    if !resp.Failed? {
      NoneSelected(resp.rules, RuleTagged(ctx.service));
    }
  }

  lemma TryWithIp(ctx: Ctx, l: Local, ip: string, c: State)
    requires Fresh(ctx) && l.Busy? && l.pc == FindIpByTag && Trying(ctx, l, c) && ip in c.ips
    ensures var l' := GotIp(l, RefOf(c.ips[ip])); l'.Busy? && l'.pc == Create && Trying(ctx, l', c)
  {
  }

  lemma TryFindIp(ctx: Ctx, l: Local, resp: Response, c: State, c': State)
    requires Fresh(ctx) && l.Busy? && l.pc == FindIpByTag && Trying(ctx, l, c) && Serve(c, Issue(l), resp, c')
    ensures Trying(ctx, Resume(l, resp), c')
  {
    if !resp.Failed? {
      if ip :| Matching(c, ctx, ip) {
        MatchingIsOnly(ctx, c, ip);
        TagSearchAnswer(c, ctx.service, resp, c');
        IpAnswered(l, resp);
        TryWithIp(ctx, l, ip, c);
      } else {
        NobodyTagged(ctx, c, resp, c');
        IpAnswered(l, resp);
        assert NoTaggedIp(l) == l.(pc := FindNetwork);
      }
    }
  }

  lemma MatchingIsOnly(ctx: Ctx, c: State, ip: string)
    requires Sound(c) && NoRule(c, ctx) && IpsLeft(c, ctx) && Matching(c, ctx, ip)
    ensures OnlyTaggedIp(c, ctx.service, ip)
  {
    forall other | other in c.ips && MatchesAll(c.ips[other].tags, TagsFor(ctx.service)) ensures other == ip {
      assert Matching(c, ctx, other);
    }
  }

  lemma IpAnswered(l: Local, resp: Response)
    requires l.Busy? && l.pc == FindIpByTag && resp.Ips?
    ensures Resume(l, resp) == match TaggedIpPick(resp.ips, l.ctx.service)
                               case Nobody => NoTaggedIp(l)
                               case One(ip) => GotIp(l, RefOf(ip))
                               case Many => Finished(Error)
  {
  }

  lemma NobodyTagged(ctx: Ctx, c: State, resp: Response, c': State)
    requires (forall a :: !Matching(c, ctx, a)) && Healthy(c, ListIpsByTag(ctx.service.name), resp, c')
    ensures c' == c && TaggedIpPick(resp.ips, ctx.service) == Nobody
  {
    forall i | 0 <= i < |resp.ips| ensures !IpTagged(ctx.service)(resp.ips[i]) {
      assert !Matching(c, ctx, resp.ips[i].id);
    }
    NoneSelected(resp.ips, IpTagged(ctx.service));
  }

  lemma TryNetwork(ctx: Ctx, l: Local, resp: Response, c: State, c': State)
    requires Fresh(ctx) && l.Busy? && l.pc == FindNetwork && Trying(ctx, l, c) && Serve(c, Issue(l), resp, c')
    ensures Trying(ctx, Resume(l, resp), c')
  {
    assert c' == c;
  }

  lemma NewAddressUntagged(ctx: Ctx, c: State, network: string, resp: Response, c': State)
    requires (forall a :: !Matching(c, ctx, a)) && Serve(c, AssociateIp(network), resp, c')
    ensures c'.rules == c.rules && forall a :: !Matching(c', ctx, a)
    ensures resp.NewIp? ==> AddressSoFar(c', ctx, resp.ip.id, 0)
  {
    FirstTagsMatch(ctx.service, 0);
    assert FirstTags(ctx.service, 0) == [];
    forall a ensures !Matching(c', ctx, a) {
      assert a in c'.ips && a !in c.ips ==> c'.ips[a].tags == [];
      assert !Matching(c, ctx, a);
    }
  }

  lemma TryAssociate(ctx: Ctx, l: Local, resp: Response, c: State, c': State)
    requires Fresh(ctx) && l.Busy? && l.pc == Associate && Trying(ctx, l, c) && Serve(c, Issue(l), resp, c')
    ensures Trying(ctx, Resume(l, resp), c')
  {
    ServeKeepsSound(c, Issue(l), resp, c');
    NewAddressUntagged(ctx, c, l.network, resp, c');
  }

  /** A tagging request on a new address adds the next tag or changes nothing. */
  lemma TagIpOnce(ctx: Ctx, l: Local, resp: Response, c: State, c': State)
    requires l.Busy? && l.ctx == ctx && l.pc.TagIp? && l.pc.i < |TAG_ORDER| && AddressSoFar(c, ctx, l.ip.id, l.pc.i)
    requires Serve(c, Issue(l), resp, c')
    ensures AddressSoFar(c', ctx, l.ip.id, if resp.Done? || c' != c then l.pc.i + 1 else l.pc.i) && c'.rules == c.rules
    ensures resp.Done? ==> l.ip.id in c'.ips
    ensures !resp.AlreadyExists?
  {
    var ip, i := l.ip.id, l.pc.i;
    FirstTagsLack(ctx.service, i);
    OwnTagKey(ctx.service, i);
    assert Issue(l) == CreateTag(OnIp(ip), OwnTag(ctx.service, i));
    if ip in c.ips {
      TagServed(c, OnIp(ip), OwnTag(ctx.service, i), resp, c');
      StoredIpTag(c, ctx, ip, i);
    } else {
      assert c' == c;
    }
  }

  lemma StoredIpTag(c: State, ctx: Ctx, ip: string, i: nat)
    requires AddressSoFar(c, ctx, ip, i) && i < |TAG_ORDER| && ip in c.ips
    ensures var c' := AddTag(c, OnIp(ip), OwnTag(ctx.service, i));
            AddressSoFar(c', ctx, ip, i + 1) && c'.rules == c.rules && ip in c'.ips && c' != c
  {
    var c' := AddTag(c, OnIp(ip), OwnTag(ctx.service, i));
    assert c'.ips[ip].tags == FirstTags(ctx.service, i + 1) && |c'.ips[ip].tags| == |c.ips[ip].tags| + 1;
    assert forall other :: other != ip ==> (Matching(c', ctx, other) <==> Matching(c, ctx, other));
  }

  lemma TryTagIp(ctx: Ctx, l: Local, resp: Response, c: State, c': State)
    requires Fresh(ctx) && l.Busy? && l.pc.TagIp? && Trying(ctx, l, c) && Serve(c, Issue(l), resp, c')
    ensures Trying(ctx, Resume(l, resp), c')
  {
    ServeKeepsSound(c, Issue(l), resp, c');
    TagIpOnce(ctx, l, resp, c, c');
    if resp.Done? && l.pc.i + 1 == |TAG_ORDER| {
      AddressIsLeft(c', ctx, l.ip.id, |TAG_ORDER|);
    }
  }

  lemma TryRollBack(ctx: Ctx, l: Local, resp: Response, c: State, c': State)
    requires Fresh(ctx) && l.Busy? && l.pc == RollBackIp && Trying(ctx, l, c) && Serve(c, Issue(l), resp, c')
    ensures Trying(ctx, Resume(l, resp), c')
  {
    ServeKeepsSound(c, Issue(l), resp, c');
    var j: nat :| AddressSoFar(c, ctx, l.ip.id, j);
    assert forall other :: Matching(c', ctx, other) ==> Matching(c, ctx, other);
    assert AddressSoFar(c', ctx, l.ip.id, j);
    AddressIsLeft(c', ctx, l.ip.id, j);
  }

  /** The created rule is what the service asks for, but for its tags. */
  lemma CreatedSuits(ctx: Ctx, l: Local, resp: Response, c: State, c': State)
    requires Fresh(ctx) && l.Busy? && l.pc == Create && Trying(ctx, l, c) && Serve(c, Issue(l), resp, c') && c' != c
    ensures exists id :: LeftRule(c', ctx, id, 0)
    ensures resp.NewRule? ==> LeftRule(c', ctx, resp.rule.id, 0)
  {
    Created(l, resp, c, c');
    Ports.OwnPortsCompareEqual(ctx.ports.value);
    var id :| id !in c.rules && id in c'.rules && TaggedSoFar(c', l.ctx, id, 0);
    NewRuleSuits(ctx, l, resp, c, c', id);
    assert LeftRule(c', ctx, id, 0);
  }

  lemma NewRuleSuits(ctx: Ctx, l: Local, resp: Response, c: State, c': State, id: string)
    requires Fresh(ctx) && l.Busy? && l.pc == Create && l.ctx == ctx && Sound(c) && l.ip.id in c.ips
    requires Serve(c, Issue(l), resp, c') && id !in c.rules && id in c'.rules
    ensures Suits(c'.rules[id], ctx) && (resp.NewRule? ==> resp.rule.id == id)
  {
    Ports.OwnPortsCompareEqual(ctx.ports.value);
  }

  lemma TryCreate(ctx: Ctx, l: Local, resp: Response, c: State, c': State)
    requires Fresh(ctx) && l.Busy? && l.pc == Create && Trying(ctx, l, c) && Serve(c, Issue(l), resp, c')
    ensures Trying(ctx, Resume(l, resp), c')
  {
    ServeKeepsSound(c, Issue(l), resp, c');
    CreationAnswered(l, resp);
    CreationKeepsIps(l, resp, c, c');
    IpsLeftSame(c, c', ctx);
    if resp.NewRule? {
      CreationChanges(l, resp, c, c');
      CreatedSuits(ctx, l, resp, c, c');
    } else if c' != c {
      CreatedSuits(ctx, l, resp, c, c');
      var id :| LeftRule(c', ctx, id, 0);
      LeftByRule(c', ctx, id, 0);
    }
  }

  lemma CreationKeepsIps(l: Local, resp: Response, c: State, c': State)
    requires l.Busy? && l.pc == Create && Serve(c, Issue(l), resp, c')
    ensures c'.ips == c.ips
  {
  }

  lemma StillSuits(ctx: Ctx, id: string, tag: Tag, resp: Response, c: State, c': State)
    requires id in c.rules && Suits(c.rules[id], ctx) && Serve(c, CreateTag(OnRule(id), tag), resp, c')
    ensures c'.ips == c.ips && id in c'.rules && Suits(c'.rules[id], ctx)
  {
    TagChangesTags(c, OnRule(id), tag, resp, c');
    SuitsWhateverTags(c.rules[id], c.rules[id].tags + [tag], ctx);
  }

  lemma SuitsWhateverTags(r: Rule, tags: seq<Tag>, ctx: Ctx)
    requires Suits(r, ctx)
    ensures Suits(r.(tags := tags), ctx)
  {
  }

  lemma TagChangesTags(c: State, resource: Resource, tag: Tag, resp: Response, c': State)
    requires Serve(c, CreateTag(resource, tag), resp, c')
    ensures c' == c || c' == AddTag(c, resource, tag)
  {
  }

  lemma TryTagRule(ctx: Ctx, l: Local, resp: Response, c: State, c': State)
    requires Fresh(ctx) && l.Busy? && l.pc.TagRule? && Trying(ctx, l, c) && Serve(c, Issue(l), resp, c')
    ensures Trying(ctx, Resume(l, resp), c')
  {
    ServeKeepsSound(c, Issue(l), resp, c');
    TaggedOnce(l, resp, c, c');
    TagRuleTaken(l, resp);
    TagRuleIssue(l);
    StillSuits(ctx, l.rule.value.id, OwnTag(ctx.service, l.pc.i), resp, c, c');
    IpsLeftSame(c, c', ctx);
    var j := if c' == c then l.pc.i else l.pc.i + 1;
    assert LeftRule(c', ctx, l.rule.value.id, j);
    if resp.Failed? {
      LeftByRule(c', ctx, l.rule.value.id, j);
    }
  }

  lemma IpsLeftSame(c: State, c': State, ctx: Ctx)
    requires c'.ips == c.ips && IpsLeft(c, ctx)
    ensures IpsLeft(c', ctx)
  {
    assert forall a :: Matching(c', ctx, a) <==> Matching(c, ctx, a);
  }

  lemma LeftByRule(c: State, ctx: Ctx, id: string, j: nat)
    requires Sound(c) && IpsLeft(c, ctx) && LeftRule(c, ctx, id, j)
    ensures Left(c, ctx)
  {
  }

  predicate ForAddress(pc: Pc) {
    pc == FindNetwork || pc == Associate || pc.TagIp? || pc == RollBackIp
  }

  lemma TryAddress(ctx: Ctx, l: Local, resp: Response, c: State, c': State)
    requires Fresh(ctx) && l.Busy? && ForAddress(l.pc) && Trying(ctx, l, c) && Serve(c, Issue(l), resp, c')
    ensures Trying(ctx, Resume(l, resp), c')
  {
    match l.pc
    case FindNetwork => TryNetwork(ctx, l, resp, c, c');
    case Associate => TryAssociate(ctx, l, resp, c, c');
    case TagIp(_) => TryTagIp(ctx, l, resp, c, c');
    case RollBackIp => TryRollBack(ctx, l, resp, c, c');
  }

  lemma TryPush(ctx: Ctx, l: Local, resp: Response, c: State, c': State)
    requires Fresh(ctx) && l.Busy? && l.pc == Push && Trying(ctx, l, c) && Serve(c, Issue(l), resp, c')
    ensures Trying(ctx, Resume(l, resp), c')
  {
    var id :| LeftRule(c, ctx, id, |TAG_ORDER|);
    PushIsLast(l, resp, c, c');
    LeftByRule(c, ctx, id, |TAG_ORDER|);
  }

  lemma PushIsLast(l: Local, resp: Response, c: State, c': State)
    requires l.Busy? && l.pc == Push && Serve(c, Issue(l), resp, c')
    ensures c' == c && Resume(l, resp).Finished?
  {
  }

  lemma TryRule(ctx: Ctx, l: Local, resp: Response, c: State, c': State)
    requires Fresh(ctx) && l.Busy? && !ForAddress(l.pc) && Trying(ctx, l, c) && Serve(c, Issue(l), resp, c')
    ensures Trying(ctx, Resume(l, resp), c')
  {
    match l.pc
    case ListByName => TryByName(ctx, l, resp, c, c');
    case ListByTag => TryByTag(ctx, l, resp, c, c');
    case FindIpByTag => TryFindIp(ctx, l, resp, c, c');
    case Create => TryCreate(ctx, l, resp, c, c');
    case TagRule(_) => TryTagRule(ctx, l, resp, c, c');
    case Push => TryPush(ctx, l, resp, c, c');
  }

  lemma TryStep(ctx: Ctx, l: Local, resp: Response, c: State, c': State)
    requires Fresh(ctx) && l.Busy? && Trying(ctx, l, c) && Serve(c, Issue(l), resp, c')
    ensures Trying(ctx, Resume(l, resp), c')
  {
    if ForAddress(l.pc) {
      TryAddress(ctx, l, resp, c, c');
    } else {
      TryRule(ctx, l, resp, c, c');
    }
  }

  lemma {:induction false} TryRun(ctx: Ctx, l: Local, c: State, xs: seq<Exchange>)
    requires Fresh(ctx) && Trying(ctx, l, c) && ServedRun(l, c, xs)
    ensures Trying(ctx, EndLocal(l, xs), EndCloud(c, xs))
    decreases |xs|
  {
    if xs != [] {
      TryStep(ctx, l, xs[0].resp, c, xs[0].cloud);
      TryRun(ctx, Resume(l, xs[0].resp), xs[0].cloud, xs[1..]);
      assert EndCloud(c, xs) == EndCloud(xs[0].cloud, xs[1..]);
    }
  }

  /** A run of Ensure for a fresh service, finished or broken off, in which anything may fail, leaves
      the cloud as such runs do. A cloud that does not know the service is one of these. */
  lemma {:induction false} EnsureLeaves(ctx: Ctx, c: State, xs: seq<Exchange>)
    requires Fresh(ctx) && Left(c, ctx) && ServedRun(Start(Ensure, ctx), c, xs)
    ensures Left(EndCloud(c, xs), ctx)
  {
    TryRun(ctx, Start(Ensure, ctx), c, xs);
    TryIsLeft(ctx, EndLocal(Start(Ensure, ctx), xs), EndCloud(c, xs));
  }

  lemma UnknownIsLeft(ctx: Ctx, c: State)
    requires Sound(c) && Unknown(c, ctx)
    ensures Left(c, ctx)
  {
  }

  /** Any number of runs, one after the other. */
  ghost predicate ManyRuns(ctx: Ctx, c: State, runs: seq<seq<Exchange>>)
    decreases |runs|
  {
    runs == [] || (ServedRun(Start(Ensure, ctx), c, runs[0]) && ManyRuns(ctx, EndCloud(c, runs[0]), runs[1..]))
  }

  function CloudAfter(c: State, runs: seq<seq<Exchange>>): State
    decreases |runs|
  {
    if runs == [] then c else CloudAfter(EndCloud(c, runs[0]), runs[1..])
  }

  lemma {:induction false} ManyRunsLeave(ctx: Ctx, c: State, runs: seq<seq<Exchange>>)
    requires Fresh(ctx) && Left(c, ctx) && ManyRuns(ctx, c, runs)
    ensures Left(CloudAfter(c, runs), ctx)
    decreases |runs|
  {
    if runs != [] {
      EnsureLeaves(ctx, c, runs[0]);
      ManyRunsLeave(ctx, EndCloud(c, runs[0]), runs[1..]);
    }
  }

  /** The only rule with the name lacks some of its tags. */
  ghost predicate Stranded(c: State, ctx: Ctx) {
    exists id :: OnlyNamed(c, ctx.lbName, id) && HasMissingKeys(c.rules[id].tags)
  }

  lemma LeftRuleStranded(ctx: Ctx, c: State, id: string, j: nat)
    requires LeftRule(c, ctx, id, j)
    ensures Stranded(c, ctx) <==> j < |TAG_ORDER|
  {
    if j < |TAG_ORDER| {
      FirstTagsLack(ctx.service, j);
    } else {
      FullyTaggedIsManaged(ctx.service, ctx.ingress, ctx.lbName);
    }
  }

  lemma {:induction false} WithRuleExactly(ctx: Ctx, c: State, id: string, j: nat, xs: seq<Exchange>)
    requires Fresh(ctx) && Sound(c) && LeftRule(c, ctx, id, j)
    requires HealthyRun(Start(Ensure, ctx), c, xs) && EndLocal(Start(Ensure, ctx), xs).Finished?
    ensures IsStatus(EndLocal(Start(Ensure, ctx), xs)) <==> j == |TAG_ORDER|
  {
    BalancerFound(Ensure, ctx, c, id, xs);
    var l := Found(Start(Ensure, ctx), Some(c.rules[id]));
    var n: nat :| Continues(Start(Ensure, ctx), c, xs, l, n);
    LeftRuleFound(ctx, c, id, j);
    if j == |TAG_ORDER| {
      NewRun(l, c, xs[n..]);
    } else {
      assert xs[n..] == [];
    }
  }

  lemma {:induction false} WithoutRuleConverges(ctx: Ctx, c: State, xs: seq<Exchange>)
    requires Fresh(ctx) && Sound(c) && NoRule(c, ctx) && IpsLeft(c, ctx)
    requires HealthyRun(Start(Ensure, ctx), c, xs) && EndLocal(Start(Ensure, ctx), xs).Finished?
    ensures IsStatus(EndLocal(Start(Ensure, ctx), xs))
  {
    NoRuleFound(Ensure, ctx, c, xs);
    SearchConverges(ctx, Found(Start(Ensure, ctx), None), c, xs[2..]);
  }

  lemma FoundNothing(ctx: Ctx)
    requires Fresh(ctx)
    ensures Found(Start(Ensure, ctx), None) == Start(Ensure, ctx).(pc := FindIpByTag)
  {
  }

  lemma {:induction false} SearchConverges(ctx: Ctx, l: Local, c: State, xs: seq<Exchange>)
    requires Fresh(ctx) && Sound(c) && NoRule(c, ctx) && IpsLeft(c, ctx)
    requires l == Found(Start(Ensure, ctx), None) && HealthyRun(l, c, xs) && EndLocal(l, xs).Finished?
    ensures IsStatus(EndLocal(l, xs))
  {
    FoundNothing(ctx);
    if ip :| Matching(c, ctx, ip) {
      AddressConverges(ctx, l, c, ip, xs);
    } else {
      forall a | a in c.ips ensures !MatchesAll(c.ips[a].tags, TagsFor(ctx.service)) { assert !Matching(c, ctx, a); }
      NewRun(l, c, xs);
    }
  }

  lemma {:induction false} AddressConverges(ctx: Ctx, l: Local, c: State, ip: string, xs: seq<Exchange>)
    requires Fresh(ctx) && l.Busy? && l.pc == FindIpByTag && Trying(ctx, l, c) && Matching(c, ctx, ip)
    requires HealthyRun(l, c, xs) && EndLocal(l, xs).Finished?
    ensures IsStatus(EndLocal(l, xs))
  {
    MatchingIsOnly(ctx, c, ip);
    TagSearchAnswer(c, ctx.service, xs[0].resp, xs[0].cloud);
    IpAnswered(l, xs[0].resp);
    TryWithIp(ctx, l, ip, c);
    ContinuesOne(l, c, xs);
    NewRun(GotIp(l, RefOf(c.ips[ip])), c, xs[1..]);
  }

  /** After any number of Ensure runs for a fresh service, however they failed, an error-free run that
      ends has converged exactly when no half tagged rule was left behind. Addresses left behind, tagged
      in full or in part, never stand in the way. */
  lemma {:induction false} RetryConvergesExactly(ctx: Ctx, c: State, runs: seq<seq<Exchange>>, xs: seq<Exchange>)
    requires Fresh(ctx) && Sound(c) && Unknown(c, ctx) && ManyRuns(ctx, c, runs)
    requires HealthyRun(Start(Ensure, ctx), CloudAfter(c, runs), xs) && EndLocal(Start(Ensure, ctx), xs).Finished?
    ensures Converged(EndLocal(Start(Ensure, ctx), xs), ctx, EndCloud(CloudAfter(c, runs), xs)) <==> !Stranded(CloudAfter(c, runs), ctx)
  {
    var mid := CloudAfter(c, runs);
    UnknownIsLeft(ctx, c);
    ManyRunsLeave(ctx, c, runs);
    if NoRule(mid, ctx) {
      WithoutRuleConverges(ctx, mid, xs);
    } else {
      var id, j: nat :| LeftRule(mid, ctx, id, j);
      LeftRuleStranded(ctx, mid, id, j);
      WithRuleExactly(ctx, mid, id, j, xs);
    }
    if IsStatus(EndLocal(Start(Ensure, ctx), xs)) {
      EnsureConverges(ctx, mid, xs);
    }
  }

  // ------------------------------------------------------------------------------------
  // Delete again

  /** The rule is the service's balancer, and no other rule could pass for it. */
  ghost predicate OnlyBalancer(c: State, ctx: Ctx, id: string) {
    && IsBalancer(c, ctx, id) && MayDelete(c.rules[id], ctx)
    && forall other :: other in c.rules && other != id ==>
         c.rules[other].name != ctx.lbName && !MatchesAll(c.rules[other].tags, TagsFor(ctx.service))
  }

  function Dropped(c: State, id: string): State {
    c.(rules := c.rules - {id})
  }

  /** Where a Delete call can stand, and what the cloud looks like then. */
  ghost predicate Deleting(ctx: Ctx, c: State, id: string, l: Local, now: State)
    requires id in c.rules
  {
    if l.Finished? then now == c || now == Dropped(c, id) || now == Without(c, id, ctx.service)
    else
      && l.kind == Delete && l.ctx == ctx
      && match l.pc
         case ListByName => l.rule.None? && now == c
         case ListByTag => l.rule.None? && now == c && OnlyTagged(c, ctx.lbName, ctx.service, id)
         case DropRule => l.rule == Some(c.rules[id]) && l.ip.id == c.rules[id].publicIpId && now == c
         case FetchLastIp => l.ip.id == c.rules[id].publicIpId && now == Dropped(c, id)
         case ReleaseLastIp =>
           && l.ip.id == c.rules[id].publicIpId && now == Dropped(c, id)
           && l.ip.id in c.ips && ShouldManageIp(c.ips[l.ip.id].tags, ctx.service)
         case _ => false
  }

  lemma DeletingFound(ctx: Ctx, c: State, id: string, l: Local)
    requires id in c.rules && MayDelete(c.rules[id], ctx) && l.Busy? && l.kind == Delete && l.ctx == ctx
    ensures Deleting(ctx, c, id, Found(l, Some(c.rules[id])), c)
  {
  }

  lemma DeletingByName(ctx: Ctx, c: State, id: string, l: Local, resp: Response, now: State, next: State)
    requires Sound(c) && OnlyBalancer(c, ctx, id) && l.Busy? && l.pc == ListByName
    requires Deleting(ctx, c, id, l, now) && Serve(now, Issue(l), resp, next)
    ensures Deleting(ctx, c, id, Resume(l, resp), next)
  {
    if !resp.Failed? {
      if OnlyNamed(c, ctx.lbName, id) {
        NamedAnswer(c, ctx.lbName, id, resp, next);
        DeletingFound(ctx, c, id, l);
      } else {
        NobodyNamed(c, ctx.lbName, resp, next);
      }
    }
  }

  lemma DeletingByTag(ctx: Ctx, c: State, id: string, l: Local, resp: Response, now: State, next: State)
    requires Sound(c) && OnlyBalancer(c, ctx, id) && l.Busy? && l.pc == ListByTag
    requires Deleting(ctx, c, id, l, now) && Serve(now, Issue(l), resp, next)
    ensures Deleting(ctx, c, id, Resume(l, resp), next)
  {
    if !resp.Failed? {
      TaggedAnswer(c, ctx.lbName, ctx.service, id, resp, next);
      DeletingFound(ctx, c, id, l);
    }
  }

  lemma RuleDropped(c: State, id: string, resp: Response, next: State)
    requires Serve(c, DeleteRule(id), resp, next)
    ensures next == Dropped(c, id) || (resp.Failed? && next == c)
    ensures resp.Done? || resp.Failed?
  {
  }

  lemma DropAnswered(l: Local, resp: Response)
    requires l.Busy? && l.pc == DropRule && l.rule.Some? && l.ip.id != ""
    ensures Issue(l) == DeleteRule(l.rule.value.id)
    ensures Resume(l, resp) == if resp.Done? then l.(rule := None, pc := FetchLastIp) else Finished(Error)
  {
  }

  lemma DeletingRule(ctx: Ctx, c: State, id: string, l: Local, resp: Response, now: State, next: State)
    requires Sound(c) && OnlyBalancer(c, ctx, id) && l.Busy? && l.pc == DropRule
    requires Deleting(ctx, c, id, l, now) && Serve(now, Issue(l), resp, next)
    ensures Deleting(ctx, c, id, Resume(l, resp), next)
  {
    DropAnswered(l, resp);
    RuleDropped(c, id, resp, next);
  }

  lemma DeletingAddress(ctx: Ctx, c: State, id: string, l: Local, resp: Response, now: State, next: State)
    requires Sound(c) && OnlyBalancer(c, ctx, id) && l.Busy? && (l.pc == FetchLastIp || l.pc == ReleaseLastIp)
    requires Deleting(ctx, c, id, l, now) && Serve(now, Issue(l), resp, next)
    ensures Deleting(ctx, c, id, Resume(l, resp), next)
  {
    if l.pc == FetchLastIp && resp.Ips? && |resp.ips| == 1 {
      ReadBack(now, l.ip.id, resp, next);
    }
  }

  lemma DeletingStep(ctx: Ctx, c: State, id: string, l: Local, resp: Response, now: State, next: State)
    requires Sound(c) && OnlyBalancer(c, ctx, id) && l.Busy? && Deleting(ctx, c, id, l, now) && Serve(now, Issue(l), resp, next)
    ensures Deleting(ctx, c, id, Resume(l, resp), next)
  {
    match l.pc
    case ListByName => DeletingByName(ctx, c, id, l, resp, now, next);
    case ListByTag => DeletingByTag(ctx, c, id, l, resp, now, next);
    case DropRule => DeletingRule(ctx, c, id, l, resp, now, next);
    case FetchLastIp => DeletingAddress(ctx, c, id, l, resp, now, next);
    case ReleaseLastIp => DeletingAddress(ctx, c, id, l, resp, now, next);
  }

  lemma {:induction false} DeletingRun(ctx: Ctx, c: State, id: string, l: Local, now: State, xs: seq<Exchange>)
    requires Sound(c) && OnlyBalancer(c, ctx, id) && Deleting(ctx, c, id, l, now) && ServedRun(l, now, xs)
    ensures Deleting(ctx, c, id, EndLocal(l, xs), EndCloud(now, xs))
    decreases |xs|
  {
    if xs != [] {
      DeletingStep(ctx, c, id, l, xs[0].resp, now, xs[0].cloud);
      DeletingRun(ctx, c, id, Resume(l, xs[0].resp), xs[0].cloud, xs[1..]);
      assert EndCloud(now, xs) == EndCloud(xs[0].cloud, xs[1..]);
    }
  }

  /** A Delete call in which anything may fail, and an error-free one after it: the rule is gone, and
      its address with it if it was the service's, but for the one case in which the first call ended
      with the rule dropped and the address still there. Then the second call only reads, and reports
      success. */
  lemma {:induction false} DeleteRetriedExactly(ctx: Ctx, c: State, id: string, xs: seq<Exchange>, ys: seq<Exchange>)
    requires Sound(c) && OnlyBalancer(c, ctx, id) && ServedRun(Start(Delete, ctx), c, xs)
    requires HealthyRun(Start(Delete, ctx), EndCloud(c, xs), ys) && EndLocal(Start(Delete, ctx), ys).Finished?
    requires EndLocal(Start(Delete, ctx), ys).outcome == Deleted
    ensures EndCloud(EndCloud(c, xs), ys) == if EndCloud(c, xs) == Dropped(c, id) then Dropped(c, id) else Without(c, id, ctx.service)
  {
    var mid := EndCloud(c, xs);
    DeletingRun(ctx, c, id, Start(Delete, ctx), c, xs);
    CloudsOfDeletion(ctx, c, id, EndLocal(Start(Delete, ctx), xs), mid);
    if mid == c {
      DeletedCloud(ctx, c, id, ys);
      assert Dropped(c, id).rules != c.rules;
    } else {
      DeleteOfNothing(ctx, mid, ys);
    }
  }

  lemma CloudsOfDeletion(ctx: Ctx, c: State, id: string, l: Local, now: State)
    requires id in c.rules && Deleting(ctx, c, id, l, now)
    ensures now == c || now == Dropped(c, id) || now == Without(c, id, ctx.service)
  {
  }

  /** So no address is left with the service's tags exactly when the balancer's was the only one that
      had them, it may be released, and the first call did not stop between the two. */
  lemma {:induction false} DeleteLeavesNoAddressExactly(ctx: Ctx, c: State, id: string, xs: seq<Exchange>, ys: seq<Exchange>)
    requires Sound(c) && OnlyBalancer(c, ctx, id) && ServedRun(Start(Delete, ctx), c, xs)
    requires HealthyRun(Start(Delete, ctx), EndCloud(c, xs), ys) && EndLocal(Start(Delete, ctx), ys).Finished?
    requires EndLocal(Start(Delete, ctx), ys).outcome == Deleted
    ensures (forall a :: !Full(EndCloud(EndCloud(c, xs), ys), a, ctx.service)) <==>
            forall a :: Full(c, a, ctx.service) ==>
              a == c.rules[id].publicIpId && ShouldManageIp(c.ips[a].tags, ctx.service) && EndCloud(c, xs) != Dropped(c, id)
  {
    DeleteRetriedExactly(ctx, c, id, xs, ys);
    var end, ip := EndCloud(EndCloud(c, xs), ys), c.rules[id].publicIpId;
    forall a ensures Full(end, a, ctx.service) <==>
                     Full(c, a, ctx.service)
                     && !(a == ip && ShouldManageIp(c.ips[a].tags, ctx.service) && EndCloud(c, xs) != Dropped(c, id))
    {
    }
  }

  /** Such a first call: the rule is dropped, and reading its address back fails. */
  lemma {:induction false} DeleteLeaks(ctx: Ctx, c: State, r: Rule)
    requires Sound(c) && c.rules == map[r.id := r] && OnlyBalancer(c, ctx, r.id) && r.name == ctx.lbName
    ensures var xs := [Exchange(Rules([r]), c), Exchange(Done, Dropped(c, r.id)), Exchange(Failed, Dropped(c, r.id))];
            && ServedRun(Start(Delete, ctx), c, xs) && EndLocal(Start(Delete, ctx), xs) == Finished(Error)
            && EndCloud(c, xs) == Dropped(c, r.id) && EndCloud(c, xs).ips == c.ips
  {
    var start, dropped := Start(Delete, ctx), Dropped(c, r.id);
    assert Healthy(c, ListRulesByKeyword(ctx.lbName), Rules([r]), c);
    NamedAnswer(c, ctx.lbName, r.id, Rules([r]), c);
    var l := Found(start, Some(r));
    DropsThenFails(l, c, r);
    var second := [Exchange(Done, dropped), Exchange(Failed, dropped)];
    var xs := [Exchange(Rules([r]), c), Exchange(Done, dropped), Exchange(Failed, dropped)];
    NameAnswered(start, Rules([r]), r);
    assert xs[1..] == second;
  }

  lemma NameAnswered(l: Local, resp: Response, r: Rule)
    requires l.Busy? && l.pc == ListByName && resp.Rules? && NamedPick(resp.rules, l.ctx.lbName) == One(r)
    ensures Resume(l, resp) == Found(l, Some(r))
  {
  }

  lemma {:induction false} DropsThenFails(l: Local, c: State, r: Rule)
    requires l.Busy? && l.pc == DropRule && l.rule == Some(r) && l.ip.id != "" && r.id in c.rules
    ensures var xs := [Exchange(Done, Dropped(c, r.id)), Exchange(Failed, Dropped(c, r.id))];
            ServedRun(l, c, xs) && EndLocal(l, xs) == Finished(Error)
  {
    var dropped := Dropped(c, r.id);
    var second := [Exchange(Failed, dropped)];
    var xs := [Exchange(Done, dropped), Exchange(Failed, dropped)];
    DropAnswered(l, Done);
    var l' := l.(rule := None, pc := FetchLastIp);
    assert xs[1..] == second;
    FetchFails(l');
    CanFail(dropped, Issue(l'));
    OneExchange(l', dropped, Exchange(Failed, dropped));
    assert Healthy(c, DeleteRule(r.id), Done, dropped);
  }

  lemma {:induction false} OneExchange(l: Local, c: State, x: Exchange)
    requires l.Busy? && Serve(c, Issue(l), x.resp, x.cloud)
    ensures ServedRun(l, c, [x]) && EndLocal(l, [x]) == Resume(l, x.resp)
  {
    assert [x][1..] == [] && [x][0] == x;
    assert EndLocal(Resume(l, x.resp), []) == Resume(l, x.resp);
  }

  lemma FetchFails(l: Local)
    requires l.Busy? && l.pc == FetchLastIp
    ensures Resume(l, Failed) == Finished(Error)
  {
  }
}
