/** What EnsureLoadBalancerDeleted does to the cloud when no request fails. */
module ReconcilerDeletion {
  import opened Wrappers
  import opened Kube
  import opened Tags
  import opened Cloud
  import opened Reconciler
  import opened ReconcilerFixpoint

  predicate MayDelete(r: Rule, ctx: Ctx) {
    ctx.removable && ShouldManageLb(r.tags, ctx.service, ctx.ingress, ctx.lbName)
  }

  /** The cloud without the rule, and without its address when that carries the service's tags. */
  function Without(c: State, id: string, service: ServiceKey): State
    requires id in c.rules
  {
    var ip := c.rules[id].publicIpId;
    var dropped := c.(rules := c.rules - {id});
    if ip in c.ips && ShouldManageIp(c.ips[ip].tags, service) then dropped.(ips := c.ips - {ip}) else dropped
  }

  /** Reading one address back gives that address and nothing else. */
  lemma ReadBack(c: State, id: string, resp: Response, c': State)
    requires Healthy(c, ListIpsById(id), resp, c') && |resp.ips| == 1
    ensures c' == c && id in c.ips && resp.ips[0] == c.ips[id]
  {
    assert AsksForIp(ListIpsById(id), resp.ips[0]);
  }

  /** From the request that reads the address back on. */
  lemma {:induction false} ReleasesExactly(l: Local, c: State, xs: seq<Exchange>)
    requires l.Busy? && l.pc == FetchLastIp && HealthyRun(l, c, xs) && EndLocal(l, xs) == Finished(Deleted)
    ensures EndCloud(c, xs) ==
            if l.ip.id in c.ips && ShouldManageIp(c.ips[l.ip.id].tags, l.ctx.service) then c.(ips := c.ips - {l.ip.id}) else c
  {
    var l', c', rest := Resume(l, xs[0].resp), xs[0].cloud, xs[1..];
    assert HealthyRun(l', c', rest) && EndLocal(l, xs) == EndLocal(l', rest);
    if |xs[0].resp.ips| == 1 {
      ReadBack(c, l.ip.id, xs[0].resp, c');
      if l'.Busy? {
        var last := rest[0];
        assert HealthyRun(Resume(l', last.resp), last.cloud, rest[1..]) && rest[1..] == [];
        assert EndCloud(c, xs) == last.cloud;
      } else {
        assert rest == [] && EndCloud(c, xs) == c';
      }
    } else {
      assert false;
    }
  }

  lemma {:induction false} RunGoesOn(l: Local, c: State, xs: seq<Exchange>)
    requires l.Busy? && HealthyRun(l, c, xs) && EndLocal(l, xs).Finished?
    ensures xs != [] && Healthy(c, Issue(l), xs[0].resp, xs[0].cloud)
    ensures var (l', c', rest) := (Resume(l, xs[0].resp), xs[0].cloud, xs[1..]);
            HealthyRun(l', c', rest) && EndLocal(l', rest) == EndLocal(l, xs) && EndCloud(c', rest) == EndCloud(c, xs)
  {
  }

  function IdsOf(ips: seq<PublicIp>): set<string> {
    set i | 0 <= i < |ips| :: ips[i].id
  }

  lemma {:induction false} IdsCount(ips: seq<PublicIp>)
    requires forall i, j :: 0 <= i < j < |ips| ==> ips[i].id != ips[j].id
    ensures |IdsOf(ips)| == |ips|
  {
    if ips == [] {
      assert IdsOf(ips) == {};
    } else {
      var n := |ips| - 1;
      IdsCount(ips[..n]);
      assert IdsOf(ips) == IdsOf(ips[..n]) + {ips[n].id};
      assert ips[n].id !in IdsOf(ips[..n]);
    }
  }

  lemma DropLastHealthy(l: Local, x: Exchange, c: State)
    requires l.Busy? && l.pc == DropRule && l.rule.Some? && l.ip.id != "" && Healthy(c, Issue(l), x.resp, x.cloud)
    ensures x.cloud == c.(rules := c.rules - {l.rule.value.id}) && Resume(l, x.resp) == l.(rule := None, pc := FetchLastIp)
  {
  }

  lemma {:induction false} LastAddressMissing(l: Local, c: State, xs: seq<Exchange>)
    requires l.Busy? && l.pc == FetchLastIp && l.ip.id !in c.ips && HealthyRun(l, c, xs) && EndLocal(l, xs).Finished?
    ensures EndLocal(l, xs) == Finished(Error) && EndCloud(c, xs) == c
  {
    RunGoesOn(l, c, xs);
    if |xs[0].resp.ips| == 1 {
      ReadBack(c, l.ip.id, xs[0].resp, xs[0].cloud);
    }
  }

  lemma {:induction false} LastAddressThere(l: Local, c: State, xs: seq<Exchange>)
    requires WellFormed(c) && l.Busy? && l.pc == FetchLastIp && l.ip.id in c.ips && HealthyRun(l, c, xs) && EndLocal(l, xs).Finished?
    ensures EndLocal(l, xs) == Finished(Deleted)
  {
    RunGoesOn(l, c, xs);
    IdAnswer(c, l.ip.id, xs[0].resp);
    var l', rest := Resume(l, xs[0].resp), xs[1..];
    if l'.Busy? {
      RunGoesOn(l', c, rest);
    }
  }

  lemma IdAnswer(c: State, id: string, resp: Response)
    requires WellFormed(c) && id in c.ips && Healthy(c, ListIpsById(id), resp, c)
    ensures |resp.ips| == 1
  {
    forall i | 0 <= i < |resp.ips| ensures resp.ips[i].id == id { assert AsksForIp(ListIpsById(id), resp.ips[i]); }
    assert AsksForIp(ListIpsById(id), c.ips[id]);
    IdsCount(resp.ips);
    assert IdsOf(resp.ips) == {id};
  }

  /** How an error-free Delete for a service with this rule ends. */
  ghost predicate DeletesRule(ctx: Ctx, c: State, id: string, end: State, outcome: Outcome)
    requires id in c.rules
  {
    var r, dropped := c.rules[id], c.(rules := c.rules - {id});
    if !ctx.removable || !OwnLb(r.tags, ctx.service, ctx.ingress, ctx.lbName) then outcome == Deleted && end == c
    else if r.publicIpId !in c.ips then outcome == Error && end == dropped
    else outcome == Deleted && end == if OwnIp(c.ips[r.publicIpId].tags, ctx.service) then dropped.(ips := c.ips - {r.publicIpId}) else dropped
  }

  /** Without errors, a Delete call for a service whose balancer exists, under its name or found by
      its tags, removes exactly its rule, and the rule's address exactly when it carries the
      service's tags; it fails only after it has dropped the rule, exactly when the address does not
      exist; when removal is off or the rule is not the service's, it touches nothing and succeeds. */
  lemma {:induction false} DeleteExactly(ctx: Ctx, c: State, id: string, xs: seq<Exchange>)
    requires Sound(c) && IsBalancer(c, ctx, id)
    requires HealthyRun(Start(Delete, ctx), c, xs) && EndLocal(Start(Delete, ctx), xs).Finished?
    ensures DeletesRule(ctx, c, id, EndCloud(c, xs), EndLocal(Start(Delete, ctx), xs).outcome)
  {
    var r := c.rules[id];
    LbOwnershipExactly(r.tags, ctx.service, ctx.ingress, ctx.lbName);
    BalancerFound(Delete, ctx, c, id, xs);
    var found := Found(Start(Delete, ctx), Some(r));
    var n: nat :| Continues(Start(Delete, ctx), c, xs, found, n);
    if MayDelete(r, ctx) {
      assert found == Busy(Delete, ctx, DropRule, Some(r), IpRef(r.publicIpId, r.publicIp, r.networkId), NO_IP, r.networkId);
      RunGoesOn(found, c, xs[n..]);
      DropLastHealthy(found, xs[n..][0], c);
      var (l, c', rest) := (found.(rule := None, pc := FetchLastIp), xs[n..][0].cloud, xs[n..][1..]);
      if r.publicIpId in c.ips {
        LastAddressThere(l, c', rest);
        ReleasesExactly(l, c', rest);
        IpOwnershipExactly(c.ips[r.publicIpId].tags, ctx.service);
      } else {
        LastAddressMissing(l, c', rest);
      }
    } else {
      assert found == Finished(Deleted) && xs[n..] == [];
    }
  }

  /** The same for a call that reports success. */
  lemma {:induction false} DeletedCloud(ctx: Ctx, c: State, id: string, xs: seq<Exchange>)
    requires Sound(c) && IsBalancer(c, ctx, id)
    requires HealthyRun(Start(Delete, ctx), c, xs) && EndLocal(Start(Delete, ctx), xs) == Finished(Deleted)
    ensures EndCloud(c, xs) == if MayDelete(c.rules[id], ctx) then Without(c, id, ctx.service) else c
  {
    var r := c.rules[id];
    DeleteExactly(ctx, c, id, xs);
    LbOwnershipExactly(r.tags, ctx.service, ctx.ingress, ctx.lbName);
    if r.publicIpId in c.ips {
      IpOwnershipExactly(c.ips[r.publicIpId].tags, ctx.service);
    }
  }

  /** A Delete call never finishes with an error only because the service has no balancer, and then
      it only reads. */
  lemma {:induction false} DeleteOfNothing(ctx: Ctx, c: State, xs: seq<Exchange>)
    requires NoRule(c, ctx)
    requires HealthyRun(Start(Delete, ctx), c, xs)
    ensures !Mutates(Start(Delete, ctx), xs) && EndCloud(c, xs) == c
    ensures EndLocal(Start(Delete, ctx), xs).Finished? ==> EndLocal(Start(Delete, ctx), xs) == Finished(Deleted)
  {
    var l := Start(Delete, ctx);
    if xs != [] {
      var l1, rest := Resume(l, xs[0].resp), xs[1..];
      NoneSelected(xs[0].resp.rules, HasName(ctx.lbName));
      assert l1 == l.(pc := ListByTag) && xs[0].cloud == c;
      assert EndLocal(l, xs) == EndLocal(l1, rest) && Mutates(l, xs) == Mutates(l1, rest);
      if rest != [] {
        var l2, last := Resume(l1, rest[0].resp), rest[1..];
        NoneSelected(rest[0].resp.rules, RuleTagged(ctx.service));
        assert HealthyRun(l1, c, rest) && HealthyRun(l2, rest[0].cloud, last);
        assert l2 == Finished(Deleted) && rest[0].cloud == c && last == [];
        assert EndLocal(l1, rest) == EndLocal(l2, last) && Mutates(l1, rest) == Mutates(l2, last);
        assert EndCloud(c, xs) == c;
      }
    }
  }
}
