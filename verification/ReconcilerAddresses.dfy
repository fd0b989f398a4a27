/** What the searches for addresses come up with, and how a new address that cannot be tagged is
    given back. */
module ReconcilerAddresses {
  import opened Wrappers
  import opened Kube
  import opened Tags
  import opened Cloud
  import opened Reconciler
  import opened ReconcilerFixpoint
  import opened ReconcilerDeletion

  // ------------------------------------------------------------------------------------
  // Addresses by the service's tags

  /** Exactly this address is the service's by its tags. */
  ghost predicate OnlyTaggedIp(c: State, service: ServiceKey, ip: string) {
    && ip in c.ips && Tag(SERVICE_TAG, service.name) in c.ips[ip].tags && MatchesAll(c.ips[ip].tags, TagsFor(service))
    && forall other :: other in c.ips && MatchesAll(c.ips[other].tags, TagsFor(service)) ==> other == ip
  }

  ghost predicate NoIpTagged(c: State, service: ServiceKey) {
    forall ip :: ip in c.ips ==> !MatchesAll(c.ips[ip].tags, TagsFor(service))
  }

  /** Two addresses are the service's by their tags. */
  ghost predicate TwoTaggedIps(c: State, service: ServiceKey) {
    exists a, b ::
      && a in c.ips && b in c.ips && a != b
      && Tag(SERVICE_TAG, service.name) in c.ips[a].tags && MatchesAll(c.ips[a].tags, TagsFor(service))
      && Tag(SERVICE_TAG, service.name) in c.ips[b].tags && MatchesAll(c.ips[b].tags, TagsFor(service))
  }

  lemma {:induction false} SelectOneIp(ips: seq<PublicIp>, keep: PublicIp -> bool, id: string)
    requires forall i, j :: 0 <= i < j < |ips| ==> ips[i].id != ips[j].id
    requires forall i :: 0 <= i < |ips| && keep(ips[i]) ==> ips[i].id == id
    ensures |Select(ips, keep)| <= 1
    ensures (forall i :: 0 <= i < |ips| ==> ips[i].id != id) ==> Select(ips, keep) == []
  {
    if ips != [] {
      SelectOneIp(ips[..|ips| - 1], keep, id);
    }
  }

  lemma TagSearchAnswer(c: State, service: ServiceKey, resp: Response, c': State)
    requires WellFormed(c) && Healthy(c, ListIpsByTag(service.name), resp, c')
    ensures c' == c && resp.Ips?
    ensures forall ip :: OnlyTaggedIp(c, service, ip) ==> TaggedIpPick(resp.ips, service) == One(c.ips[ip])
    ensures TwoTaggedIps(c, service) ==> TaggedIpPick(resp.ips, service) == Many
    ensures NoIpTagged(c, service) ==> TaggedIpPick(resp.ips, service) == Nobody
  {
    var ips, keep := resp.ips, IpTagged(service);
    forall ip | ip in c.ips && Tag(SERVICE_TAG, service.name) in c.ips[ip].tags ensures c.ips[ip] in ips {
      assert AsksForIp(ListIpsByTag(service.name), c.ips[ip]);
    }
    forall ip | OnlyTaggedIp(c, service, ip) ensures TaggedIpPick(ips, service) == One(c.ips[ip]) {
      PickedIsOnly(ips, keep, c.ips[ip]);
      SelectOneIp(ips, keep, ip);
    }
    if TwoTaggedIps(c, service) {
      TwoPicked(c, service, ips);
    }
    if NoIpTagged(c, service) {
      NoneSelected(ips, keep);
    }
  }

  lemma TwoPicked(c: State, service: ServiceKey, ips: seq<PublicIp>)
    requires WellFormed(c) && TwoTaggedIps(c, service)
    requires forall ip :: ip in c.ips && Tag(SERVICE_TAG, service.name) in c.ips[ip].tags ==> c.ips[ip] in ips
    ensures TaggedIpPick(ips, service) == Many
  {
    var a, b :| && a in c.ips && b in c.ips && a != b
                && Tag(SERVICE_TAG, service.name) in c.ips[a].tags && MatchesAll(c.ips[a].tags, TagsFor(service))
                && Tag(SERVICE_TAG, service.name) in c.ips[b].tags && MatchesAll(c.ips[b].tags, TagsFor(service));
    PickedIsOnly(ips, IpTagged(service), c.ips[a]);
    PickedIsOnly(ips, IpTagged(service), c.ips[b]);
  }

  /** An error-free call that knows no rule, past its two searches. */
  lemma {:induction false} NoRuleFound(kind: Kind, ctx: Ctx, c: State, xs: seq<Exchange>)
    requires NoRule(c, ctx)
    requires HealthyRun(Start(kind, ctx), c, xs) && EndLocal(Start(kind, ctx), xs).Finished?
    ensures Continues(Start(kind, ctx), c, xs, Found(Start(kind, ctx), None), 2)
  {
    var l := Start(kind, ctx);
    NobodyNamed(c, ctx.lbName, xs[0].resp, xs[0].cloud);
    ContinuesOne(l, c, xs);
    var l', rest := l.(pc := ListByTag), xs[1..];
    NoneSelected(rest[0].resp.rules, RuleTagged(ctx.service));
    ContinuesOne(l', c, rest);
    PlaceForgotten(l', ListByName, None);
    ContinuesOn(l, c, xs, l', Found(l, None), 1, 1);
  }

  // ------------------------------------------------------------------------------------
  // Addresses by their text

  /** Exactly one address has this text. */
  ghost predicate OnlyAt(c: State, address: string, ip: string) {
    ip in c.ips && c.ips[ip].address == address && forall other :: other in c.ips && c.ips[other].address == address ==> other == ip
  }

  lemma AddressAnswer(c: State, address: string, resp: Response, c': State)
    requires WellFormed(c) && Healthy(c, ListIpsByAddress(address), resp, c')
    ensures c' == c && resp.Ips?
    ensures forall ip :: OnlyAt(c, address, ip) ==> resp.ips == [c.ips[ip]]
    ensures |resp.ips| == 1 ==> OnlyAt(c, address, resp.ips[0].id) && c.ips[resp.ips[0].id] == resp.ips[0]
    ensures |resp.ips| == 0 <==> forall ip :: ip in c.ips ==> c.ips[ip].address != address
  {
    var ips := resp.ips;
    forall i | 0 <= i < |ips| ensures ips[i].address == address { assert AsksForIp(ListIpsByAddress(address), ips[i]); }
    forall ip | ip in c.ips && c.ips[ip].address == address ensures c.ips[ip] in ips {
      assert AsksForIp(ListIpsByAddress(address), c.ips[ip]);
    }
    if |ips| == 1 {
      forall other | other in c.ips && c.ips[other].address == address ensures other == ips[0].id {
        assert c.ips[other] in ips;
      }
    }
    forall ip | OnlyAt(c, address, ip) ensures ips == [c.ips[ip]] {
      assert c.ips[ip] in ips;
      IdsCount(ips);
      assert IdsOf(ips) == {ip};
    }
  }

  // ------------------------------------------------------------------------------------
  // Giving a new address back

  /** The event is a failure to tag an address. */
  predicate FailsToTagIp(e: Event) {
    e.req.CreateTag? && e.req.resource.OnIp? && !e.resp.Done? && !e.resp.AlreadyExists?
  }

  lemma FailedTagging(l: Local, e: Event)
    requires l.Busy? && Issue(l) == e.req && FailsToTagIp(e)
    ensures var l' := Resume(l, e.resp);
            l'.Busy? && l'.pc == RollBackIp && Issue(l') == DisassociateIp(e.req.resource.id)
  {
    assert l.pc.TagIp?;
  }

  lemma RollbackIsLast(l: Local, resp: Response)
    requires l.Busy? && l.pc == RollBackIp
    ensures Resume(l, resp) == Finished(Error)
  {
  }

  /** The places of a call between its requests. */
  ghost predicate Path(places: seq<Local>, events: seq<Event>) {
    && |places| == |events| + 1
    && forall i :: 0 <= i < |events| ==>
         places[i].Busy? && Issue(places[i]) == events[i].req && Resume(places[i], events[i].resp) == places[i + 1]
  }

  lemma {:induction false} TracePath(kind: Kind, ctx: Ctx, events: seq<Event>) returns (places: seq<Local>)
    requires IsTrace(kind, ctx, events)
    ensures Path(places, events) && After(Start(kind, ctx), events) == Some(places[|events|])
  {
    if events == [] {
      return [Start(kind, ctx)];
    }
    var earlier := TracePath(kind, ctx, events[..|events| - 1]);
    places := earlier + [Resume(earlier[|events| - 1], events[|events| - 1].resp)];
  }

  lemma RollbackOnPath(places: seq<Local>, events: seq<Event>, k: nat)
    requires Path(places, events) && k < |events| && FailsToTagIp(events[k])
    ensures k + 1 < |events| ==> events[k + 1].req == DisassociateIp(events[k].req.resource.id)
    ensures |events| <= k + 2
    ensures k + 2 == |events| ==> places[|events|] == Finished(Error)
  {
    FailedTagging(places[k], events[k]);
    if k + 1 < |events| {
      RollbackIsLast(places[k + 1], events[k + 1].resp);
      assert places[k + 2] == Finished(Error);
    }
  }

  /** In every trace, the request after a failure to tag an address is its release, and whatever
      comes of that, it is the call's last: the address never gets a rule. */
  lemma {:induction false} RollbackFollows(kind: Kind, ctx: Ctx, events: seq<Event>, k: nat)
    requires IsTrace(kind, ctx, events) && k < |events| && FailsToTagIp(events[k])
    ensures k + 1 < |events| ==> events[k + 1].req == DisassociateIp(events[k].req.resource.id)
    ensures |events| <= k + 2
    ensures k + 2 == |events| ==> After(Start(kind, ctx), events) == Some(Finished(Error))
  {
    var places := TracePath(kind, ctx, events);
    RollbackOnPath(places, events, k);
  }
}
