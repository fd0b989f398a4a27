/** Taking over an address named in a service's status, the one way in which a second address can
    come to carry a service's full tag set: exactly when it does, and a run in which it happens. */
module ReconcilerTakeover {
  import opened Wrappers
  import opened Kube
  import opened Tags
  import opened Cloud
  import opened Reconciler
  import opened ReconcilerWorld
  import opened ReconcilerFixpoint

  /** The tags of an address after the first `i` tagging requests of a call for the service, each of
      which stores its tag. */
  function TakenOver(tags: seq<Tag>, service: ServiceKey, i: nat): seq<Tag> {
    if i == 0 then tags else TakenOver(tags, service, i - 1) + [OwnTag(service, i - 1)]
  }

  lemma {:induction false} TagStored(l: Local, c: State, tags: seq<Tag>)
    requires l.Busy? && l.pc.TagIp? && l.ip.id in c.ips && c.ips[l.ip.id].tags == TakenOver(tags, l.ctx.service, l.pc.i)
    ensures var c' := AddTag(c, OnIp(l.ip.id), OwnTag(l.ctx.service, l.pc.i));
            && Healthy(c, Issue(l), Done, c')
            && c'.ips == c.ips[l.ip.id := c.ips[l.ip.id].(tags := TakenOver(tags, l.ctx.service, l.pc.i + 1))]
  {
  }

  lemma {:induction false} TakenOverHas(tags: seq<Tag>, service: ServiceKey, i: nat, tag: Tag)
    ensures tag in TakenOver(tags, service, i) <==> tag in tags || exists k :: 0 <= k < i && OwnTag(service, k) == tag
  {
    if i > 0 {
      TakenOverHas(tags, service, i - 1, tag);
    }
  }

  /** Each of the other service's tags is on the address already, or is the same for both services. */
  predicate Claims(tags: seq<Tag>, service: ServiceKey, other: ServiceKey) {
    && (Tag(SERVICE_TAG, other.name) in tags || other.name == service.name)
    && (Tag(NAMESPACE_TAG, other.namespace) in tags || other.namespace == service.namespace)
  }

  /** After the takeover the address carries the other service's full tag set exactly when it
      claimed to before. */
  lemma {:induction false} TakeoverCarriesExactly(tags: seq<Tag>, service: ServiceKey, other: ServiceKey)
    ensures Carries(TakenOver(tags, service, |TAG_ORDER|), TagsFor(other)) <==> Claims(tags, service, other)
  {
    TagKeys(service);
    TagKeys(other);
    var taken := TakenOver(tags, service, |TAG_ORDER|);
    assert OwnTag(service, 0) == Tag(CLOUD_PROVIDER_TAG, PROVIDER);
    assert OwnTag(service, 1) == Tag(NAMESPACE_TAG, service.namespace);
    assert OwnTag(service, 2) == Tag(SERVICE_TAG, service.name);
    TakenOverHas(tags, service, |TAG_ORDER|, Tag(CLOUD_PROVIDER_TAG, PROVIDER));
    TakenOverHas(tags, service, |TAG_ORDER|, Tag(NAMESPACE_TAG, other.namespace));
    TakenOverHas(tags, service, |TAG_ORDER|, Tag(SERVICE_TAG, other.name));
    assert Tag(CLOUD_PROVIDER_TAG, PROVIDER) in taken;
    assert |TAG_ORDER| == 3;
  }

  /** A completed takeover keeps the other service at one tagged address exactly when the address
      does not claim to be the other's, or the other has no other address. */
  lemma {:induction false} TakeoverKeepsOneExactly(c: State, id: string, service: ServiceKey, other: ServiceKey)
    requires WellFormed(c) && id in c.ips && AtMostOneFull(c, other)
    ensures var c' := c.(ips := c.ips[id := c.ips[id].(tags := TakenOver(c.ips[id].tags, service, |TAG_ORDER|))]);
            AtMostOneFull(c', other) <==>
            !(Claims(c.ips[id].tags, service, other) && exists theirs :: theirs != id && Full(c, theirs, other))
  {
    var tags := c.ips[id].tags;
    var c' := c.(ips := c.ips[id := c.ips[id].(tags := TakenOver(tags, service, |TAG_ORDER|))]);
    TakeoverCarriesExactly(tags, service, other);
    assert forall theirs :: theirs != id ==> Full(c', theirs, other) == Full(c, theirs, other);
    assert Full(c', id, other) <==> Claims(tags, service, other);
  }

  /** While nobody else is tagging the address, a takeover is clean for another service exactly when
      the address does not claim to be its own. */
  lemma CleanExactly(w: World, m: Move, service: ServiceKey)
    requires m.Answer? && m.t in w.active && Adopts(w.active[m.t], m.resp) && w.active[m.t].ctx.service != service
    requires forall u :: u in w.active ==> !TagsIt(w.active[u], m.resp.ips[0].id)
    ensures CleanMove(w, m, service) <==> !Claims(m.resp.ips[0].tags, w.active[m.t].ctx.service, service)
  {
    var (ip, owner) := (m.resp.ips[0], w.active[m.t].ctx.service);
    TagKeys(service);
    if !Claims(ip.tags, owner, service) {
      var key := if Tag(SERVICE_TAG, service.name) in ip.tags || service.name == owner.name then NAMESPACE_TAG else SERVICE_TAG;
      assert Differs(key, owner, service) && Harmless(w, ip.id, ip.tags, service, key);
    }
  }

  /** A confirmed tagging request stores the tag. */
  lemma {:induction false} TagConfirmed(l: Local, c: State, x: Exchange, tags: seq<Tag>)
    requires l.Busy? && l.pc.TagIp? && l.ip.id in c.ips && c.ips[l.ip.id].tags == TakenOver(tags, l.ctx.service, l.pc.i)
    requires Healthy(c, Issue(l), x.resp, x.cloud) && x.resp.Done?
    ensures x.cloud.ips == c.ips[l.ip.id := c.ips[l.ip.id].(tags := TakenOver(tags, l.ctx.service, l.pc.i + 1))]
  {
  }

  /** The requests that follow an address in place, for a service that asks for no other. */
  predicate WithAddress(l: Local) {
    l.Busy? ==> l.ctx.specIp == "" && (l.pc in {DropRuleForPorts, Update, Create, Push} || l.pc.TagRule?)
  }

  lemma WithAddressFrom(l: Local)
    requires l.Busy? && l.ctx.specIp == ""
    ensures WithAddress(HaveIp(l)) && WithAddress(CheckRule(l))
  {
  }

  lemma WithAddressStep(l: Local, resp: Response, c: State, c': State)
    requires l.Busy? && WithAddress(l) && Healthy(c, Issue(l), resp, c')
    ensures WithAddress(Resume(l, resp)) && c'.ips == c.ips
  {
  }

  lemma {:induction false} WithAddressRun(l: Local, c: State, xs: seq<Exchange>)
    requires WithAddress(l) && HealthyRun(l, c, xs)
    ensures EndCloud(c, xs).ips == c.ips
    decreases |xs|
  {
    if xs != [] {
      WithAddressStep(l, xs[0].resp, c, xs[0].cloud);
      WithAddressRun(Resume(l, xs[0].resp), xs[0].cloud, xs[1..]);
      assert EndCloud(c, xs) == EndCloud(xs[0].cloud, xs[1..]);
    }
  }

  /** The first answers confirm the tags from number `i` on. */
  ghost predicate Confirms(xs: seq<Exchange>, i: nat) {
    i <= |TAG_ORDER| <= i + |xs| && forall k :: 0 <= k < |TAG_ORDER| - i ==> xs[k].resp.Done?
  }

  lemma TagIpConfirmed(l: Local, resp: Response)
    requires l.Busy? && l.pc.TagIp? && l.pc.i < |TAG_ORDER| && resp.Done?
    ensures Resume(l, resp) == if l.pc.i + 1 < |TAG_ORDER| then l.(pc := TagIp(l.pc.i + 1)) else GotIp(l, l.ip)
  {
  }

  lemma {:induction false} TaggingRun(l: Local, c: State, xs: seq<Exchange>, tags: seq<Tag>)
    requires l.Busy? && l.pc.TagIp? && l.pc.i < |TAG_ORDER| && l.ctx.specIp == ""
    requires l.ip.id in c.ips && c.ips[l.ip.id].tags == TakenOver(tags, l.ctx.service, l.pc.i)
    requires HealthyRun(l, c, xs) && Confirms(xs, l.pc.i)
    ensures EndCloud(c, xs).ips == c.ips[l.ip.id := c.ips[l.ip.id].(tags := TakenOver(tags, l.ctx.service, |TAG_ORDER|))]
    decreases |xs|
  {
    var c', rest := xs[0].cloud, xs[1..];
    TagConfirmed(l, c, xs[0], tags);
    TagIpConfirmed(l, xs[0].resp);
    var l' := Resume(l, xs[0].resp);
    assert HealthyRun(l', c', rest) && EndCloud(c, xs) == EndCloud(c', rest);
    if l.pc.i + 1 < |TAG_ORDER| {
      forall k | 0 <= k < |TAG_ORDER| - (l.pc.i + 1) ensures rest[k].resp.Done? { assert rest[k] == xs[k + 1]; }
      TaggingRun(l', c', rest, tags);
    } else {
      WithAddressFrom(l.(network := l.ip.network));
      WithAddressRun(l', c', rest);
    }
  }

  /** A call that looks up the address in its service's status, finds one and gets its three tags
      confirmed: in whatever way it goes on, it leaves another service at one fully tagged address
      exactly when the address did not claim to be the other's, or the other had no other one. */
  lemma {:induction false} TakeoverRunExactly(l: Local, c: State, xs: seq<Exchange>, other: ServiceKey)
    requires l.Busy? && l.pc == FindIngressIp && l.ctx.specIp == "" && WellFormed(c) && AtMostOneFull(c, other)
    requires HealthyRun(l, c, xs) && xs != [] && Adopts(l, xs[0].resp) && Confirms(xs[1..], 0)
    ensures var id := xs[0].resp.ips[0].id;
            && id in c.ips
            && (AtMostOneFull(EndCloud(c, xs), other) <==>
                !(Claims(c.ips[id].tags, l.ctx.service, other) && exists theirs :: theirs != id && Full(c, theirs, other)))
  {
    var ip := xs[0].resp.ips[0];
    var l' := l.(ip := RefOf(ip), pc := TagIp(0));
    AdoptsNow(l, c, xs);
    TaggingRun(l', c, xs[1..], ip.tags);
    TakeoverKeepsOneExactly(c, ip.id, l.ctx.service, other);
    var taken := c.(ips := c.ips[ip.id := ip.(tags := TakenOver(ip.tags, l.ctx.service, |TAG_ORDER|))]);
    SameAddresses(taken, EndCloud(c, xs), other);
  }

  lemma {:induction false} AdoptsNow(l: Local, c: State, xs: seq<Exchange>)
    requires l.Busy? && l.pc == FindIngressIp && HealthyRun(l, c, xs) && xs != [] && Adopts(l, xs[0].resp)
    ensures var ip := xs[0].resp.ips[0];
            && ip.id in c.ips && c.ips[ip.id] == ip && TakenOver(ip.tags, l.ctx.service, 0) == ip.tags
            && HealthyRun(l.(ip := RefOf(ip), pc := TagIp(0)), c, xs[1..]) && EndCloud(c, xs) == EndCloud(c, xs[1..])
  {
    assert xs[0].cloud == c && Resume(l, xs[0].resp) == l.(ip := RefOf(xs[0].resp.ips[0]), pc := TagIp(0));
  }

  lemma SameAddresses(c: State, c': State, service: ServiceKey)
    requires c'.ips == c.ips
    ensures AtMostOneFull(c', service) <==> AtMostOneFull(c, service)
  {
    assert forall id :: Full(c', id, service) <==> Full(c, id, service);
  }

  // ------------------------------------------------------------------------------------
  // A run in which it happens

  /** The other service's address, and one that carries its name and namespace but not the
      provider's tag. */
  function TwoAddresses(theirs: PublicIp, claimed: PublicIp): State {
    State(map[], map[theirs.id := theirs, claimed.id := claimed], {}, {theirs.id, claimed.id})
  }

  function ClaimedTags(other: ServiceKey): seq<Tag> {
    [Tag(NAMESPACE_TAG, other.namespace), Tag(SERVICE_TAG, other.name)]
  }

  function TakeoverMoves(ctx: Ctx, c: State, claimed: PublicIp): seq<Move> {
    [Begin(0, Ensure, ctx), Answer(0, Rules([]), c), Answer(0, Rules([]), c), Answer(0, Ips([]), c),
     Answer(0, Ips([claimed]), c), Answer(0, Done, AddTag(c, OnIp(claimed.id), OwnTag(ctx.service, 0)))]
  }

  predicate Setting(ctx: Ctx, other: ServiceKey, theirs: PublicIp, claimed: PublicIp) {
    && theirs.id != claimed.id && theirs.address != claimed.address && claimed.address != ""
    && ctx.service.name != other.name && ctx.algorithm.Some? && ctx.specIp == ""
    && |ctx.ingress| > 0 && ctx.ingress[0].ip == claimed.address
    && Carries(theirs.tags, TagsFor(other)) && Tag(SERVICE_TAG, ctx.service.name) !in theirs.tags
    && claimed.tags == ClaimedTags(other)
  }

  /** For any two services with different names: an Ensure call without a single failed request
      gives the other service a second fully tagged address. */
  lemma TakeoverBreaks(ctx: Ctx, other: ServiceKey, theirs: PublicIp, claimed: PublicIp)
    requires Setting(ctx, other, theirs, claimed)
    ensures var c, moves := TwoAddresses(theirs, claimed), TakeoverMoves(ctx, TwoAddresses(theirs, claimed), claimed);
            && WellFormed(c) && AtMostOneFull(c, other) && IsRun(c, moves) && !AtMostOneFull(Run(c, moves).cloud, other)
  {
    var c := TwoAddresses(theirs, claimed);
    var moves := TakeoverMoves(ctx, c, claimed);
    OneAtFirst(ctx, other, theirs, claimed);
    NothingTagged(ctx, other, theirs, claimed);
    AddressListed(c, claimed, ListIpsByAddress(claimed.address));
    FoundByStatus(ctx, c, claimed, moves[..5]);
    TagStored(Taking(ctx, claimed), c, claimed.tags);
    Extend(c, moves, 5, World(c, map[0 := Taking(ctx, claimed)]));
    assert moves[..6] == moves;
    TwoAtLast(ctx, other, theirs, claimed);
  }

  lemma OneAtFirst(ctx: Ctx, other: ServiceKey, theirs: PublicIp, claimed: PublicIp)
    requires Setting(ctx, other, theirs, claimed)
    ensures WellFormed(TwoAddresses(theirs, claimed)) && AtMostOneFull(TwoAddresses(theirs, claimed), other)
  {
    TagKeys(other);
    assert CLOUD_PROVIDER_TAG in TagsFor(other);
    assert Tag(CLOUD_PROVIDER_TAG, PROVIDER) !in claimed.tags;
  }

  lemma TwoAtLast(ctx: Ctx, other: ServiceKey, theirs: PublicIp, claimed: PublicIp)
    requires Setting(ctx, other, theirs, claimed)
    ensures !AtMostOneFull(AddTag(TwoAddresses(theirs, claimed), OnIp(claimed.id), OwnTag(ctx.service, 0)), other)
  {
    TagKeys(other);
    TagKeys(ctx.service);
    var c' := AddTag(TwoAddresses(theirs, claimed), OnIp(claimed.id), OwnTag(ctx.service, 0));
    var tags := c'.ips[claimed.id].tags;
    assert tags == claimed.tags + [Tag(CLOUD_PROVIDER_TAG, PROVIDER)];
    assert tags[0] == Tag(NAMESPACE_TAG, other.namespace) && tags[1] == Tag(SERVICE_TAG, other.name);
    assert tags[2] == Tag(CLOUD_PROVIDER_TAG, PROVIDER);
    assert Full(c', claimed.id, other) && Full(c', theirs.id, other);
  }

  /** The call finds no rule, no address by tag, and the other service's address by its own status. */
  lemma {:induction false} FoundByStatus(ctx: Ctx, c: State, claimed: PublicIp, moves: seq<Move>)
    requires ctx.algorithm.Some? && ctx.specIp == "" && |ctx.ingress| > 0 && ctx.ingress[0].ip == claimed.address != ""
    requires |moves| == 5 && moves[0] == Begin(0, Ensure, ctx)
    requires moves[1] == Answer(0, Rules([]), c) && moves[2] == Answer(0, Rules([]), c)
    requires moves[3] == Answer(0, Ips([]), c) && moves[4] == Answer(0, Ips([claimed]), c)
    requires c.rules == map[] && Healthy(c, ListIpsByTag(ctx.service.name), Ips([]), c)
    requires Healthy(c, ListIpsByAddress(claimed.address), Ips([claimed]), c)
    ensures IsRun(c, moves) && Run(c, moves) == World(c, map[0 := Taking(ctx, claimed)])
  {
    Begun(ctx, c, moves);
    Searched(ctx, c, claimed);
    Reply(c, moves, 1, At(ctx, ListByName), Rules([]), c, At(ctx, ListByTag));
    Reply(c, moves, 2, At(ctx, ListByTag), Rules([]), c, At(ctx, FindIpByTag));
    Reply(c, moves, 3, At(ctx, FindIpByTag), Ips([]), c, At(ctx, FindIngressIp));
    Reply(c, moves, 4, At(ctx, FindIngressIp), Ips([claimed]), c, Taking(ctx, claimed));
    assert moves[..5] == moves;
  }

  lemma {:induction false} Begun(ctx: Ctx, c: State, moves: seq<Move>)
    requires |moves| > 0 && moves[0] == Begin(0, Ensure, ctx)
    ensures IsRun(c, moves[..1]) && Run(c, moves[..1]) == World(c, map[0 := At(ctx, ListByName)])
  {
    assert moves[..0] == [];
    Extend(c, moves, 0, World(c, map[]));
  }

  /** Where a call is after an answer, and that the answer was to its request. */
  ghost predicate Answers(l: Local, resp: Response, c: State, l': Local) {
    l.Busy? && l'.Busy? && Healthy(c, Issue(l), resp, c) && Resume(l, resp) == l'
  }

  lemma {:induction false} Reply(start: State, moves: seq<Move>, k: nat, l: Local, resp: Response, c: State, l': Local)
    requires k < |moves| && IsRun(start, moves[..k]) && Run(start, moves[..k]) == World(c, map[0 := l])
    requires Answers(l, resp, c, l') && moves[k] == Answer(0, resp, c)
    ensures IsRun(start, moves[..k + 1]) && Run(start, moves[..k + 1]) == World(c, map[0 := l'])
  {
    Extend(start, moves, k, World(c, map[0 := l]));
    assert map[0 := l][0 := l'] == map[0 := l'];
  }

  /** An Ensure call that has found nothing yet. */
  function At(ctx: Ctx, pc: Pc): Local {
    Busy(Ensure, ctx, pc, None, NO_IP, NO_IP, ctx.network)
  }

  lemma Searched(ctx: Ctx, c: State, claimed: PublicIp)
    requires ctx.algorithm.Some? && ctx.specIp == "" && |ctx.ingress| > 0 && ctx.ingress[0].ip == claimed.address != ""
    requires c.rules == map[] && Healthy(c, ListIpsByTag(ctx.service.name), Ips([]), c)
    requires Healthy(c, ListIpsByAddress(claimed.address), Ips([claimed]), c)
    ensures Answers(At(ctx, ListByName), Rules([]), c, At(ctx, ListByTag))
    ensures Answers(At(ctx, ListByTag), Rules([]), c, At(ctx, FindIpByTag))
    ensures Answers(At(ctx, FindIpByTag), Ips([]), c, At(ctx, FindIngressIp))
    ensures Answers(At(ctx, FindIngressIp), Ips([claimed]), c, Taking(ctx, claimed))
  {
  }

  function Taking(ctx: Ctx, claimed: PublicIp): Local {
    Busy(Ensure, ctx, TagIp(0), None, RefOf(claimed), NO_IP, ctx.network)
  }

  lemma NothingTagged(ctx: Ctx, other: ServiceKey, theirs: PublicIp, claimed: PublicIp)
    requires Setting(ctx, other, theirs, claimed)
    ensures var c := TwoAddresses(theirs, claimed); Healthy(c, ListIpsByTag(ctx.service.name), Ips([]), c)
  {
    TagKeys(other);
    assert Tag(SERVICE_TAG, ctx.service.name) !in claimed.tags;
  }

  lemma AddressListed(c: State, claimed: PublicIp, req: Request)
    requires claimed.id in c.ips && c.ips[claimed.id] == claimed && req == ListIpsByAddress(claimed.address)
    requires forall id :: id in c.ips && c.ips[id].address == claimed.address ==> id == claimed.id
    ensures Healthy(c, req, Ips([claimed]), c)
  {
  }

  lemma {:induction false} Extend(c: State, moves: seq<Move>, k: nat, w: World)
    requires k < |moves| && IsRun(c, moves[..k]) && Run(c, moves[..k]) == w && Can(w, moves[k])
    ensures IsRun(c, moves[..k + 1]) && Run(c, moves[..k + 1]) == Do(w, moves[k])
  {
    assert moves[..k + 1][..k] == moves[..k] && moves[..k + 1][k] == moves[k];
  }
}
