/** Health checks of a balancer's pools: what a service asks of each, and the pass that brings the
    server's pools there. */
module Pools {
  import opened Wrappers
  import opened Strings
  import opened Kube
  import opened Ports
  import Sorting

  datatype Health = Health(kind: string, message: string, expected: string)

  datatype Pool = Pool(id: int, vipPort: int, port: int, health: Health)

  /** One updateGloboNetworkPool request. `udp` stands for the three parameters l4protocol,
      l7protocol and redeploy, which are only ever set together and to the same values. */
  datatype PoolUpdate = PoolUpdate(poolId: int, health: Health, udp: bool)

  // ------------------------------------------------------------------------------------
  // What a service asks for

  datatype HcPort = HcPort(protocol: string, requiresMsg: bool)

  /** The port name up to its first dash, when it is a known protocol; else the balancer's own. */
  function PortToHcProtocol(protocol: string, portName: string): HcPort {
    var prefix := ToUpper(Split(portName, '-')[0]);
    if prefix in {"HTTP", "HTTPS"} then HcPort(prefix, true)
    else if prefix in {"TCP", "UDP"} then HcPort(prefix, false)
    else HcPort(protocol, false)
  }

  /** Nothing, when the protocol needs a message and the service gives none. */
  function Wanted(protocol: string, info: LbPortInfo, meta: Meta): Option<Health> {
    var hc := PortToHcProtocol(protocol, info.name);
    var expected := ValueOrEmpty(GetLabelOrAnnotation(meta, HEALTH_CHECK_RESPONSE_PREFIX + info.name));
    var message := ValueOrEmpty(GetLabelOrAnnotation(meta, HEALTH_CHECK_MESSAGE_PREFIX + info.name));
    if hc.requiresMsg && message == "" then None else Some(Health(hc.protocol, message, expected))
  }

  predicate PoolOf(pool: Pool, info: LbPortInfo) {
    pool.vipPort == info.publicPort && pool.port == info.privatePort
  }

  function SettleOne(pool: Pool, info: LbPortInfo, want: Option<Health>): Pool {
    if want.Some? && PoolOf(pool, info) then pool.(health := want.value) else pool
  }

  /** The pool after every port in turn has had its say. */
  function Settle(infos: seq<LbPortInfo>, protocol: string, meta: Meta, pool: Pool): Pool {
    if infos == [] then pool
    else
      var info := infos[|infos| - 1];
      SettleOne(Settle(infos[..|infos| - 1], protocol, meta, pool), info, Wanted(protocol, info, meta))
  }

  function SettleAll(infos: seq<LbPortInfo>, protocol: string, meta: Meta, pools: seq<Pool>): (r: seq<Pool>)
    ensures |r| == |pools| && forall i :: 0 <= i < |pools| ==> r[i] == Settle(infos, protocol, meta, pools[i])
  {
    seq(|pools|, i requires 0 <= i < |pools| => Settle(infos, protocol, meta, pools[i]))
  }

  lemma {:induction false} SettleKeepsPorts(infos: seq<LbPortInfo>, protocol: string, meta: Meta, pool: Pool)
    ensures var p := Settle(infos, protocol, meta, pool); p.id == pool.id && p.vipPort == pool.vipPort && p.port == pool.port
  {
    if infos != [] {
      SettleKeepsPorts(infos[..|infos| - 1], protocol, meta, pool);
    }
  }

  /** The ports of a balancer differ in their public port. */
  predicate DistinctPublic(infos: seq<LbPortInfo>) {
    forall i, j :: 0 <= i < j < |infos| ==> infos[i].publicPort != infos[j].publicPort
  }

  /** A settled pool has exactly the health check its port asks for; a pool of no port, or of a port
      that is skipped, is left as it was. */
  lemma {:induction false} SettledIsWanted(infos: seq<LbPortInfo>, protocol: string, meta: Meta, pool: Pool)
    requires DistinctPublic(infos)
    ensures forall i :: 0 <= i < |infos| && PoolOf(pool, infos[i]) && Wanted(protocol, infos[i], meta).Some? ==>
              Settle(infos, protocol, meta, pool) == pool.(health := Wanted(protocol, infos[i], meta).value)
    ensures (forall i :: 0 <= i < |infos| ==> !PoolOf(pool, infos[i]) || Wanted(protocol, infos[i], meta).None?) ==>
              Settle(infos, protocol, meta, pool) == pool
  {
    if infos != [] {
      var before := infos[..|infos| - 1];
      SettledIsWanted(before, protocol, meta, pool);
      SettleKeepsPorts(before, protocol, meta, pool);
      assert forall i :: 0 <= i < |before| ==> infos[i] == before[i];
    }
  }

  // ------------------------------------------------------------------------------------
  // The server

  predicate DistinctPools(pools: seq<Pool>) {
    && (forall i, j :: 0 <= i < j < |pools| ==> pools[i].id != pools[j].id)
    && (forall i, j :: 0 <= i < j < |pools| ==> pools[i].vipPort != pools[j].vipPort || pools[i].port != pools[j].port)
  }

  predicate HasPool(pools: seq<Pool>, id: int) {
    exists i :: 0 <= i < |pools| && pools[i].id == id
  }

  /** The first pool with the ID gets the health check. */
  function Updated(pools: seq<Pool>, u: PoolUpdate): seq<Pool> {
    if pools == [] then []
    else if pools[0].id == u.poolId then [pools[0].(health := u.health)] + pools[1..]
    else [pools[0]] + Updated(pools[1..], u)
  }

  lemma {:induction false} UpdatedAt(pools: seq<Pool>, u: PoolUpdate, i: nat)
    requires i < |pools| && pools[i].id == u.poolId
    requires forall j :: 0 <= j < |pools| && j != i ==> pools[j].id != u.poolId
    ensures Updated(pools, u) == pools[i := pools[i].(health := u.health)]
  {
    if i > 0 {
      UpdatedAt(pools[1..], u, i - 1);
      assert pools == [pools[0]] + pools[1..];
    }
  }

  datatype Fault = NoFault | Refused | Unconfirmed

  /** The pools of every rule. `faults` says what happens to the coming requests: an error without
      effect, or an error although it took effect. */
  class PoolApi {
    var pools: map<string, seq<Pool>>
    var faults: seq<Fault>
    ghost var sent: seq<PoolUpdate>

    constructor (pools: map<string, seq<Pool>>, faults: seq<Fault>)
      ensures this.pools == pools && this.faults == faults && sent == []
    {
      this.pools, this.faults, sent := pools, faults, [];
    }

    function Of(rule: string): seq<Pool>
      reads this
    {
      if rule in pools then pools[rule] else []
    }

    ghost predicate Sound()
      reads this
    {
      forall i :: 0 <= i < |faults| ==> faults[i].NoFault?
    }

    method NextFault() returns (fault: Fault)
      modifies this`faults
      ensures old(Sound()) ==> fault.NoFault? && Sound()
    {
      if faults == [] {
        return NoFault;
      }
      fault := faults[0];
      faults := faults[1..];
    }

    method List(rule: string) returns (list: Option<seq<Pool>>)
      modifies this`faults
      ensures old(Sound()) ==> list.Some? && Sound()
      ensures list.Some? ==> list.value == Of(rule)
    {
      var fault := NextFault();
      list := if fault.NoFault? then Some(Of(rule)) else None;
    }

    method Update(rule: string, u: PoolUpdate) returns (ok: bool)
      modifies this
      ensures sent == old(sent) + [u]
      ensures old(Sound()) ==> Sound() && (ok <==> HasPool(old(Of(rule)), u.poolId))
      ensures ok ==> pools == old(pools)[rule := Updated(old(Of(rule)), u)]
      ensures !ok ==> pools == old(pools) || pools == old(pools)[rule := Updated(old(Of(rule)), u)]
    {
      sent := sent + [u];
      var fault := NextFault();
      var known := HasPool(Of(rule), u.poolId);
      if known && !fault.Refused? {
        pools := pools[rule := Updated(Of(rule), u)];
      }
      ok := known && fault.NoFault?;
    }
  }

  // ------------------------------------------------------------------------------------
  // The pass, as functions

  /** The first of the port's pools whose health check differs from the wish. */
  function OutdatedAt(pools: seq<Pool>, info: LbPortInfo, want: Option<Health>): Option<nat> {
    if want.None? || pools == [] then None
    else if PoolOf(pools[0], info) && pools[0].health != want.value then Some(0)
    else
      match OutdatedAt(pools[1..], info, want)
      case None => None
      case Some(i) => Some(i + 1)
  }

  ghost predicate IsFirstOutdated(pools: seq<Pool>, info: LbPortInfo, want: Option<Health>, at: Option<nat>) {
    match at
    case None => want.None? || forall k :: 0 <= k < |pools| && PoolOf(pools[k], info) ==> pools[k].health == want.value
    case Some(i) =>
      && want.Some? && i < |pools| && PoolOf(pools[i], info) && pools[i].health != want.value
      && forall k :: 0 <= k < i && PoolOf(pools[k], info) ==> pools[k].health == want.value
  }

  lemma {:induction false} OutdatedIsFirst(pools: seq<Pool>, info: LbPortInfo, want: Option<Health>, at: Option<nat>)
    ensures IsFirstOutdated(pools, info, want, at) <==> at == OutdatedAt(pools, info, want)
  {
    if want.Some? && pools != [] && !(PoolOf(pools[0], info) && pools[0].health != want.value) {
      var later := if at.Some? && at.value > 0 then Some(at.value - 1) else None;
      OutdatedIsFirst(pools[1..], info, want, later);
      assert forall k :: 0 < k < |pools| ==> pools[k] == pools[1..][k - 1];
    }
  }

  function Edited(pools: seq<Pool>, info: LbPortInfo, want: Option<Health>): (r: seq<Pool>)
    ensures |r| == |pools|
  {
    var at := OutdatedAt(pools, info, want);
    if at.Some? && at.value < |pools| && want.Some? then pools[at.value := pools[at.value].(health := want.value)] else pools
  }

  /** The update a port sends, if it sends one; `udp` says whether the parameters are set already. */
  function News(pools: seq<Pool>, info: LbPortInfo, want: Option<Health>, udp: bool): seq<PoolUpdate> {
    var at := OutdatedAt(pools, info, want);
    if at.Some? && at.value < |pools| && want.Some?
    then [PoolUpdate(pools[at.value].id, want.value, udp || want.value.kind == "UDP")]
    else []
  }

  predicate SomeUdp(run: seq<PoolUpdate>) {
    exists j :: 0 <= j < |run| && run[j].health.kind == "UDP"
  }

  /** The client's copy of the pools after the ports in turn. */
  function LocalAfter(infos: seq<LbPortInfo>, protocol: string, meta: Meta, pools: seq<Pool>): (r: seq<Pool>)
    ensures |r| == |pools|
  {
    if infos == [] then pools
    else
      var info := infos[|infos| - 1];
      Edited(LocalAfter(infos[..|infos| - 1], protocol, meta, pools), info, Wanted(protocol, info, meta))
  }

  /** The updates of a pass over the ports, on a list of pools. */
  function Updates(infos: seq<LbPortInfo>, protocol: string, meta: Meta, pools: seq<Pool>): seq<PoolUpdate> {
    if infos == [] then []
    else
      var earlier, info := infos[..|infos| - 1], infos[|infos| - 1];
      var before := Updates(earlier, protocol, meta, pools);
      before + News(LocalAfter(earlier, protocol, meta, pools), info, Wanted(protocol, info, meta), SomeUdp(before))
  }

  function ServerAfter(pools: seq<Pool>, run: seq<PoolUpdate>): seq<Pool> {
    if run == [] then pools else Updated(ServerAfter(pools, run[..|run| - 1]), run[|run| - 1])
  }

  lemma SomeUdpGrows(run: seq<PoolUpdate>, news: seq<PoolUpdate>)
    requires |news| <= 1
    ensures SomeUdp(run + news) <==> SomeUdp(run) || (news != [] && news[0].health.kind == "UDP")
  {
    var longer := run + news;
    if SomeUdp(run) {
      var j :| 0 <= j < |run| && run[j].health.kind == "UDP";
      assert longer[j].health.kind == "UDP";
    }
    if news != [] { assert longer[|run|] == news[0]; }
    if SomeUdp(longer) {
      var j :| 0 <= j < |longer| && longer[j].health.kind == "UDP";
      if j < |run| { assert run[j].health.kind == "UDP"; }
    }
  }

  // ------------------------------------------------------------------------------------
  // One pool per port: the pass settles it

  ghost predicate StepOf(before: seq<Pool>, after: seq<Pool>, info: LbPortInfo, want: Option<Health>) {
    |after| == |before| && forall k :: 0 <= k < |before| ==> after[k] == SettleOne(before[k], info, want)
  }

  /** With one pool per port pair, one step of the pass settles that port's pool, and the update it
      sends does the same on the server. */
  lemma {:induction false} StepSettles(pools: seq<Pool>, info: LbPortInfo, want: Option<Health>, udp: bool)
    requires DistinctPools(pools)
    ensures StepOf(pools, Edited(pools, info, want), info, want)
    ensures ServerAfter(pools, News(pools, info, want, udp)) == Edited(pools, info, want)
  {
    var at := OutdatedAt(pools, info, want);
    OutdatedIsFirst(pools, info, want, at);
    var news := News(pools, info, want, udp);
    if at.Some? {
      assert news[..0] == [];
      UpdatedAt(pools, news[0], at.value);
    }
    forall k | 0 <= k < |pools| ensures Edited(pools, info, want)[k] == SettleOne(pools[k], info, want) {
      if at.Some? && k != at.value {
        assert pools[k].vipPort != pools[at.value].vipPort || pools[k].port != pools[at.value].port;
      }
    }
  }

  lemma SettleStep(infos: seq<LbPortInfo>, protocol: string, meta: Meta, pools: seq<Pool>, after: seq<Pool>)
    requires |infos| > 0
    requires StepOf(SettleAll(infos[..|infos| - 1], protocol, meta, pools), after, infos[|infos| - 1],
                    Wanted(protocol, infos[|infos| - 1], meta))
    ensures after == SettleAll(infos, protocol, meta, pools)
  {
  }

  lemma SettledStayDistinct(infos: seq<LbPortInfo>, protocol: string, meta: Meta, pools: seq<Pool>)
    requires DistinctPools(pools)
    ensures DistinctPools(SettleAll(infos, protocol, meta, pools))
  {
    forall i | 0 <= i < |pools| {
      SettleKeepsPorts(infos, protocol, meta, pools[i]);
    }
  }

  lemma {:induction false} ServerAfterTwo(pools: seq<Pool>, run: seq<PoolUpdate>, news: seq<PoolUpdate>)
    requires |news| <= 1
    ensures ServerAfter(pools, run + news) == ServerAfter(ServerAfter(pools, run), news)
  {
    if news == [] {
      assert run + news == run;
    } else {
      assert (run + news)[..|run|] == run && news[..0] == [];
    }
  }

  /** On pools that are unique per port pair and ID, the client's copy and the server's pools end up
      the same: every pool settled. */
  lemma {:induction false} PassSettlesBoth(infos: seq<LbPortInfo>, protocol: string, meta: Meta, pools: seq<Pool>)
    requires DistinctPools(pools)
    ensures LocalAfter(infos, protocol, meta, pools) == SettleAll(infos, protocol, meta, pools)
    ensures ServerAfter(pools, Updates(infos, protocol, meta, pools)) == SettleAll(infos, protocol, meta, pools)
  {
    if infos != [] {
      var earlier, info := infos[..|infos| - 1], infos[|infos| - 1];
      PassSettlesBoth(earlier, protocol, meta, pools);
      SettledStayDistinct(earlier, protocol, meta, pools);
      var before, want, run := SettleAll(earlier, protocol, meta, pools), Wanted(protocol, info, meta), Updates(earlier, protocol, meta, pools);
      StepSettles(before, info, want, SomeUdp(run));
      SettleStep(infos, protocol, meta, pools, Edited(before, info, want));
      ServerAfterTwo(pools, run, News(before, info, want, SomeUdp(run)));
    }
  }

  /** No port changes anything. */
  ghost predicate AlreadySettled(infos: seq<LbPortInfo>, protocol: string, meta: Meta, pools: seq<Pool>) {
    forall i :: 0 <= i <= |infos| ==> SettleAll(infos[..i], protocol, meta, pools) == pools
  }

  lemma {:induction false} SettledSendNothing(infos: seq<LbPortInfo>, protocol: string, meta: Meta, pools: seq<Pool>)
    requires DistinctPools(pools) && AlreadySettled(infos, protocol, meta, pools)
    ensures Updates(infos, protocol, meta, pools) == []
  {
    if infos != [] {
      var earlier, info := infos[..|infos| - 1], infos[|infos| - 1];
      var want := Wanted(protocol, info, meta);
      forall i | 0 <= i <= |earlier| ensures SettleAll(earlier[..i], protocol, meta, pools) == pools {
        assert earlier[..i] == infos[..i];
      }
      SettledSendNothing(earlier, protocol, meta, pools);
      LocalSettled(infos, protocol, meta, pools, |earlier|);
      LocalSettled(infos, protocol, meta, pools, |infos|);
      assert infos[..|infos|] == infos && earlier == infos[..|earlier|];
      UneditedSendsNothing(pools, info, want);
    }
  }

  lemma {:induction false} LocalSettled(infos: seq<LbPortInfo>, protocol: string, meta: Meta, pools: seq<Pool>, i: nat)
    requires DistinctPools(pools) && AlreadySettled(infos, protocol, meta, pools) && i <= |infos|
    ensures LocalAfter(infos[..i], protocol, meta, pools) == pools
  {
    PassSettlesBoth(infos[..i], protocol, meta, pools);
  }

  lemma UneditedSendsNothing(pools: seq<Pool>, info: LbPortInfo, want: Option<Health>)
    requires Edited(pools, info, want) == pools
    ensures News(pools, info, want, false) == []
  {
    OutdatedIsFirst(pools, info, want, OutdatedAt(pools, info, want));
  }

  // ------------------------------------------------------------------------------------
  // The UDP parameters

  /** The types asked for are upper case already. */
  lemma WantedIsUpper(protocol: string, info: LbPortInfo, meta: Meta)
    requires protocol == "TCP" || protocol == "UDP"
    ensures Wanted(protocol, info, meta).Some? ==> ToUpper(Wanted(protocol, info, meta).value.kind) == Wanted(protocol, info, meta).value.kind
  {
    UpperIsUpper("HTTP");
    UpperIsUpper("HTTPS");
    UpperIsUpper("TCP");
    UpperIsUpper("UDP");
  }

  lemma UpperIsUpper(s: string)
    requires forall i :: 0 <= i < |s| ==> UpperChar(s[i]) == s[i]
    ensures ToUpper(s) == s
  {
  }

  /** The port asks for a health check that its pool does not have. */
  predicate Outdated(pools: seq<Pool>, protocol: string, meta: Meta, info: LbPortInfo) {
    OutdatedAt(pools, info, Wanted(protocol, info, meta)).Some?
  }

  predicate OutdatedUdp(pools: seq<Pool>, protocol: string, meta: Meta, info: LbPortInfo) {
    Outdated(pools, protocol, meta, info) && Wanted(protocol, info, meta).Some? && Wanted(protocol, info, meta).value.kind == "UDP"
  }

  /** The ports before it leave a port's own pool as it was. */
  lemma {:induction false} SameOutdated(pools: seq<Pool>, pools': seq<Pool>, info: LbPortInfo, want: Option<Health>)
    requires |pools| == |pools'|
    requires forall k :: 0 <= k < |pools| ==> pools'[k].id == pools[k].id && (PoolOf(pools'[k], info) <==> PoolOf(pools[k], info))
    requires forall k :: 0 <= k < |pools| && PoolOf(pools[k], info) ==> pools'[k] == pools[k]
    ensures OutdatedAt(pools', info, want) == OutdatedAt(pools, info, want)
  {
    if pools != [] {
      SameOutdated(pools[1..], pools'[1..], info, want);
    }
  }

  /** What the ports before it do to the pools, as port `n` sees it. */
  lemma {:induction false} SettledForLater(infos: seq<LbPortInfo>, protocol: string, meta: Meta, pool: Pool, n: nat)
    requires DistinctPublic(infos) && n < |infos|
    ensures var p := Settle(infos[..n], protocol, meta, pool);
            p.id == pool.id && (PoolOf(p, infos[n]) <==> PoolOf(pool, infos[n])) && (PoolOf(pool, infos[n]) ==> p == pool)
  {
    SettleKeepsPorts(infos[..n], protocol, meta, pool);
    SettledIsWanted(infos[..n], protocol, meta, pool);
  }

  lemma SameNews(pools: seq<Pool>, pools': seq<Pool>, info: LbPortInfo, want: Option<Health>, udp: bool)
    requires |pools| == |pools'|
    requires forall k :: 0 <= k < |pools| ==> pools'[k].id == pools[k].id && (PoolOf(pools'[k], info) <==> PoolOf(pools[k], info))
    requires forall k :: 0 <= k < |pools| && PoolOf(pools[k], info) ==> pools'[k] == pools[k]
    ensures News(pools', info, want, udp) == News(pools, info, want, udp)
  {
    SameOutdated(pools, pools', info, want);
  }

  lemma {:induction false} OutdatedStays(infos: seq<LbPortInfo>, protocol: string, meta: Meta, pools: seq<Pool>, n: nat, udp: bool)
    requires DistinctPublic(infos) && DistinctPools(pools) && n < |infos|
    ensures var want := Wanted(protocol, infos[n], meta);
            News(LocalAfter(infos[..n], protocol, meta, pools), infos[n], want, udp) == News(pools, infos[n], want, udp)
  {
    PassSettlesBoth(infos[..n], protocol, meta, pools);
    forall k | 0 <= k < |pools|
      ensures var p := Settle(infos[..n], protocol, meta, pools[k]);
              p.id == pools[k].id && (PoolOf(p, infos[n]) <==> PoolOf(pools[k], infos[n])) && (PoolOf(pools[k], infos[n]) ==> p == pools[k])
    {
      SettledForLater(infos, protocol, meta, pools[k], n);
    }
    SameNews(pools, SettleAll(infos[..n], protocol, meta, pools), infos[n], Wanted(protocol, infos[n], meta), udp);
  }

  /** The updates of a pass on pools unique per port pair: one for each outdated port, in port order. */
  lemma {:induction false} UpdatesStep(infos: seq<LbPortInfo>, protocol: string, meta: Meta, pools: seq<Pool>, n: nat)
    requires DistinctPublic(infos) && DistinctPools(pools) && n < |infos|
    ensures var before := Updates(infos[..n], protocol, meta, pools);
            Updates(infos[..n + 1], protocol, meta, pools) ==
            before + News(pools, infos[n], Wanted(protocol, infos[n], meta), SomeUdp(before))
  {
    assert infos[..n + 1][..n] == infos[..n];
    OutdatedStays(infos, protocol, meta, pools, n, SomeUdp(Updates(infos[..n], protocol, meta, pools)));
  }

  ghost predicate UdpBefore(infos: seq<LbPortInfo>, protocol: string, meta: Meta, pools: seq<Pool>, n: nat)
    requires n <= |infos|
  {
    exists m :: 0 <= m < n && OutdatedUdp(pools, protocol, meta, infos[m])
  }

  lemma {:induction false} UdpSentExactly(infos: seq<LbPortInfo>, protocol: string, meta: Meta, pools: seq<Pool>, n: nat)
    requires DistinctPublic(infos) && DistinctPools(pools) && n <= |infos|
    ensures SomeUdp(Updates(infos[..n], protocol, meta, pools)) <==> UdpBefore(infos, protocol, meta, pools, n)
  {
    if n > 0 {
      var m := n - 1;
      UdpSentExactly(infos, protocol, meta, pools, m);
      UdpSentNext(infos, protocol, meta, pools, m);
      assert UdpBefore(infos, protocol, meta, pools, n) <==>
             UdpBefore(infos, protocol, meta, pools, m) || OutdatedUdp(pools, protocol, meta, infos[m]);
      assert infos[..m + 1] == infos[..n];
    }
  }

  lemma {:induction false} UdpSentNext(infos: seq<LbPortInfo>, protocol: string, meta: Meta, pools: seq<Pool>, n: nat)
    requires DistinctPublic(infos) && DistinctPools(pools) && n < |infos|
    ensures SomeUdp(Updates(infos[..n + 1], protocol, meta, pools)) <==>
            SomeUdp(Updates(infos[..n], protocol, meta, pools)) || OutdatedUdp(pools, protocol, meta, infos[n])
  {
    var before, want := Updates(infos[..n], protocol, meta, pools), Wanted(protocol, infos[n], meta);
    UpdatesStep(infos, protocol, meta, pools, n);
    OutdatedIsFirst(pools, infos[n], want, OutdatedAt(pools, infos[n], want));
    SomeUdpGrows(before, News(pools, infos[n], want, SomeUdp(before)));
  }

  /** An outdated port that does not ask for UDP sends the UDP parameters all the same exactly when
      some port before it is outdated and asks for UDP. */
  lemma {:induction false} UdpLeaksExactly(infos: seq<LbPortInfo>, protocol: string, meta: Meta, pools: seq<Pool>, n: nat)
    requires DistinctPublic(infos) && DistinctPools(pools) && n < |infos|
    requires Outdated(pools, protocol, meta, infos[n]) && !OutdatedUdp(pools, protocol, meta, infos[n])
    ensures var (before, after) := (Updates(infos[..n], protocol, meta, pools), Updates(infos[..n + 1], protocol, meta, pools));
            && |after| == |before| + 1
            && (after[|before|].udp <==> UdpBefore(infos, protocol, meta, pools, n))
  {
    var want := Wanted(protocol, infos[n], meta);
    OutdatedIsFirst(pools, infos[n], want, OutdatedAt(pools, infos[n], want));
    UpdatesStep(infos, protocol, meta, pools, n);
    UdpSentExactly(infos, protocol, meta, pools, n);
  }

  const UNLABELLED := Meta(map[], map[])

  /** The shortest such pass: a TCP service whose first port is named for UDP, with two pools whose
      health checks are not set yet. Both updates carry the UDP parameters. */
  lemma UdpLeaks(dns: LbPortInfo, web: LbPortInfo, unset: Health)
    requires dns.name == "udp-dns" && web.name == "web" && dns.publicPort != web.publicPort && unset.kind == ""
    ensures var pools := [Pool(1, dns.publicPort, dns.privatePort, unset), Pool(2, web.publicPort, web.privatePort, unset)];
            DistinctPools(pools) &&
            Updates([dns, web], "TCP", UNLABELLED, pools) == [PoolUpdate(1, Health("UDP", "", ""), true), PoolUpdate(2, Health("TCP", "", ""), true)]
  {
    var infos, pools := [dns, web], [Pool(1, dns.publicPort, dns.privatePort, unset), Pool(2, web.publicPort, web.privatePort, unset)];
    var first := PoolUpdate(1, Health("UDP", "", ""), true);
    NewsOfBoth(dns, web, pools);
    assert infos[..0] == [] && infos[..1] == [dns] && infos[..2] == infos;
    UpdatesStep(infos, "TCP", UNLABELLED, pools, 0);
    UpdatesStep(infos, "TCP", UNLABELLED, pools, 1);
    assert Updates([], "TCP", UNLABELLED, pools) == [] && !SomeUdp([]);
    assert Updates([dns], "TCP", UNLABELLED, pools) == [] + [first] == [first];
    assert [first][0].health.kind == "UDP";
    assert SomeUdp([first]);
  }

  lemma NewsOfBoth(dns: LbPortInfo, web: LbPortInfo, pools: seq<Pool>)
    requires dns.name == "udp-dns" && web.name == "web" && |pools| == 2 && pools[0].id == 1 && pools[1].id == 2
    requires PoolOf(pools[0], dns) && !PoolOf(pools[0], web) && PoolOf(pools[1], web)
    requires pools[0].health.kind == "" && pools[1].health.kind == ""
    ensures News(pools, dns, Wanted("TCP", dns, UNLABELLED), false) == [PoolUpdate(1, Health("UDP", "", ""), true)]
    ensures News(pools, web, Wanted("TCP", web, UNLABELLED), true) == [PoolUpdate(2, Health("TCP", "", ""), true)]
  {
    WantedOfNames(dns, web);
    OutdatedIsFirst(pools, dns, Wanted("TCP", dns, UNLABELLED), Some(0));
    OutdatedIsFirst(pools, web, Wanted("TCP", web, UNLABELLED), Some(1));
  }

  lemma DnsIsUdp()
    ensures PortToHcProtocol("TCP", "udp-dns") == HcPort("UDP", false)
  {
    assert "udp-dns" == "udp" + ['-'] + "dns";
    SplitPrefix("udp", "dns", '-');
    assert ToUpper("udp") == "UDP";
  }

  lemma WebIsNothing()
    ensures PortToHcProtocol("TCP", "web") == HcPort("TCP", false)
  {
    SplitPrefix("web", "", '-');
    assert ToUpper("web") == "WEB";
  }

  lemma WantedOfNames(dns: LbPortInfo, web: LbPortInfo)
    requires dns.name == "udp-dns" && web.name == "web"
    ensures Wanted("TCP", dns, UNLABELLED) == Some(Health("UDP", "", ""))
    ensures Wanted("TCP", web, UNLABELLED) == Some(Health("TCP", "", ""))
  {
    DnsIsUdp();
    WebIsNothing();
  }

  /** No pools but the rule's have changed. */
  ghost predicate OnlyPoolsOf(rule: string, before: map<string, seq<Pool>>, after: map<string, seq<Pool>>) {
    after == before || (rule in after && after == before[rule := after[rule]])
  }

  lemma OnlyPoolsTwice(rule: string, a: map<string, seq<Pool>>, b: map<string, seq<Pool>>, c: map<string, seq<Pool>>)
    requires OnlyPoolsOf(rule, a, b) && OnlyPoolsOf(rule, b, c)
    ensures OnlyPoolsOf(rule, a, c)
  {
  }

  // ------------------------------------------------------------------------------------
  // The pass, on the server

  /** generateGloboNetworkPool: edits the pool in the list it was given. */
  method GeneratePool(protocol: string, info: LbPortInfo, meta: Meta, pools: array<Pool>) returns (at: Option<nat>)
    modifies pools
    ensures at == OutdatedAt(old(pools[..]), info, Wanted(protocol, info, meta))
    ensures pools[..] == Edited(old(pools[..]), info, Wanted(protocol, info, meta))
  {
    var want := Wanted(protocol, info, meta);
    ghost var before := pools[..];
    if want.None? {
      return None;
    }
    for i := 0 to pools.Length
      invariant pools[..] == before
      invariant forall k :: 0 <= k < i && PoolOf(pools[k], info) ==> pools[k].health == want.value
    {
      if PoolOf(pools[i], info) && pools[i].health != want.value {
        OutdatedIsFirst(before, info, want, Some(i));
        pools[i] := pools[i].(health := want.value);
        return Some(i);
      }
    }
    OutdatedIsFirst(before, info, want, None);
    at := None;
  }

  /** The server's list and the client's copy have the same IDs. */
  ghost predicate SameIds(a: seq<Pool>, b: seq<Pool>) {
    |a| == |b| && forall i :: 0 <= i < |a| ==> a[i].id == b[i].id
  }

  lemma {:induction false} UpdatedKeepsIds(pools: seq<Pool>, u: PoolUpdate)
    ensures SameIds(pools, Updated(pools, u))
  {
    if pools != [] && pools[0].id != u.poolId {
      UpdatedKeepsIds(pools[1..], u);
    }
  }

  lemma {:induction false} OneUpdate(pools: seq<Pool>, u: PoolUpdate)
    ensures ServerAfter(pools, [u]) == Updated(pools, u)
  {
    assert [u][..0] == [];
  }

  /** One port of the pass: edit the local copy, then tell the server. */
  method SettlePort(api: PoolApi, rule: string, protocol: string, info: LbPortInfo, meta: Meta, local: array<Pool>, udp: bool)
    returns (ok: bool, udp': bool, ghost news: seq<PoolUpdate>)
    requires protocol == "TCP" || protocol == "UDP"
    requires SameIds(local[..], api.Of(rule))
    modifies api, local
    ensures local[..] == Edited(old(local[..]), info, Wanted(protocol, info, meta))
    ensures news == News(old(local[..]), info, Wanted(protocol, info, meta), udp)
    ensures udp' == (udp || (news != [] && news[0].health.kind == "UDP"))
    ensures api.sent == old(api.sent) + news
    ensures OnlyPoolsOf(rule, old(api.pools), api.pools)
    ensures api.Of(rule) == ServerAfter(old(api.Of(rule)), news) || (!ok && api.Of(rule) == old(api.Of(rule)))
    ensures news == [] ==> ok
    ensures old(api.Sound()) ==> ok && api.Sound()
    ensures SameIds(local[..], api.Of(rule))
  {
    ghost var before, server, want := local[..], api.Of(rule), Wanted(protocol, info, meta);
    var at := GeneratePool(protocol, info, meta, local);
    OutdatedIsFirst(before, info, want, at);
    if at.None? {
      return true, udp, [];
    }
    var pool := local[at.value];
    WantedIsUpper(protocol, info, meta);
    udp' := udp || pool.health.kind == "UDP";
    var update := PoolUpdate(pool.id, pool.health.(kind := ToUpper(pool.health.kind)), udp');
    assert server[at.value].id == update.poolId;
    UpdatedKeepsIds(server, update);
    OneUpdate(server, update);
    news := [update];
    ok := api.Update(rule, update);
  }

  /** A service without the custom health check label has its pools updated only for UDP. */
  predicate SkipsPools(meta: Meta, ruleProtocol: string) {
    GetLabelOrAnnotation(meta, LB_CUSTOM_HEALTH_CHECK).None? && ruleProtocol != "UDP"
  }

  /** Where a pass over the first `reached` ports leaves the server: every update it sent took effect,
      except perhaps the last one, which failed. */
  ghost predicate Reached(lbPorts: LbPorts, meta: Meta, before: seq<Pool>, after: seq<Pool>, run: seq<PoolUpdate>, reached: nat, ok: bool) {
    && reached <= |lbPorts.ports|
    && run == Updates(lbPorts.ports[..reached], lbPorts.protocol, meta, before)
    && (ok ==> reached == |lbPorts.ports|)
    && (after == ServerAfter(before, run) || (!ok && run != [] && after == ServerAfter(before, run[..|run| - 1])))
  }

  /** Where the loop over the ports stands before port `i`. */
  ghost predicate Along(lbPorts: LbPorts, meta: Meta, original: seq<Pool>, i: nat, local: seq<Pool>, server: seq<Pool>,
                        run: seq<PoolUpdate>, udp: bool)
  {
    && i <= |lbPorts.ports|
    && local == LocalAfter(lbPorts.ports[..i], lbPorts.protocol, meta, original)
    && run == Updates(lbPorts.ports[..i], lbPorts.protocol, meta, original)
    && server == ServerAfter(original, run) && udp == SomeUdp(run)
  }

  lemma {:induction false} PassStep(lbPorts: LbPorts, meta: Meta, original: seq<Pool>, i: nat, local: seq<Pool>, server: seq<Pool>,
                 run: seq<PoolUpdate>, udp: bool, news: seq<PoolUpdate>)
    requires Along(lbPorts, meta, original, i, local, server, run, udp) && i < |lbPorts.ports|
    requires news == News(local, lbPorts.ports[i], Wanted(lbPorts.protocol, lbPorts.ports[i], meta), udp)
    ensures Along(lbPorts, meta, original, i + 1, Edited(local, lbPorts.ports[i], Wanted(lbPorts.protocol, lbPorts.ports[i], meta)),
                  ServerAfter(server, news), run + news, udp || (news != [] && news[0].health.kind == "UDP"))
    ensures news != [] ==> Reached(lbPorts, meta, original, server, run + news, i + 1, false)
  {
    UpdatesNext(lbPorts.ports, lbPorts.protocol, meta, original, i);
    SomeUdpGrows(run, news);
    ServerAfterTwo(original, run, news);
    if news != [] {
      LastDropped(run, news);
    }
  }

  lemma LastDropped(run: seq<PoolUpdate>, news: seq<PoolUpdate>)
    requires |news| == 1
    ensures (run + news)[..|run + news| - 1] == run && run + news != []
  {
  }

  lemma {:induction false} UpdatesNext(infos: seq<LbPortInfo>, protocol: string, meta: Meta, pools: seq<Pool>, i: nat)
    requires i < |infos|
    ensures var (local, run, want) := (LocalAfter(infos[..i], protocol, meta, pools), Updates(infos[..i], protocol, meta, pools),
                                       Wanted(protocol, infos[i], meta));
            && LocalAfter(infos[..i + 1], protocol, meta, pools) == Edited(local, infos[i], want)
            && Updates(infos[..i + 1], protocol, meta, pools) == run + News(local, infos[i], want, SomeUdp(run))
  {
    assert infos[..i + 1][..i] == infos[..i];
  }

  lemma Associate<T>(a: seq<T>, b: seq<T>, c: seq<T>)
    ensures a + b + c == a + (b + c)
  {
  }

  lemma PassStarts(lbPorts: LbPorts, meta: Meta, original: seq<Pool>)
    ensures Along(lbPorts, meta, original, 0, original, original, [], false)
  {
  }

  /** The loop's body. */
  method SettleNext(api: PoolApi, rule: string, lbPorts: LbPorts, i: nat, meta: Meta, local: array<Pool>, udp: bool,
                    ghost original: seq<Pool>, ghost run: seq<PoolUpdate>)
    returns (ok: bool, udp': bool, ghost news: seq<PoolUpdate>)
    requires (lbPorts.protocol == "TCP" || lbPorts.protocol == "UDP") && i < |lbPorts.ports|
    requires Along(lbPorts, meta, original, i, local[..], api.Of(rule), run, udp) && SameIds(local[..], api.Of(rule))
    modifies api, local
    ensures api.sent == old(api.sent) + news
    ensures ok ==> Along(lbPorts, meta, original, i + 1, local[..], api.Of(rule), run + news, udp') && SameIds(local[..], api.Of(rule))
    ensures !ok ==> Reached(lbPorts, meta, original, api.Of(rule), run + news, i + 1, false)
    ensures OnlyPoolsOf(rule, old(api.pools), api.pools)
    ensures old(api.Sound()) ==> ok && api.Sound()
  {
    ghost var copy, server := local[..], api.Of(rule);
    ok, udp', news := SettlePort(api, rule, lbPorts.protocol, lbPorts.ports[i], meta, local, udp);
    PassStep(lbPorts, meta, original, i, copy, server, run, udp, news);
  }

  /** The loop over the ports. */
  method SettlePorts(api: PoolApi, rule: string, lbPorts: LbPorts, meta: Meta, local: array<Pool>)
    returns (ok: bool, ghost run: seq<PoolUpdate>, ghost reached: nat)
    requires lbPorts.protocol == "TCP" || lbPorts.protocol == "UDP"
    requires api.Of(rule) == local[..]
    modifies api, local
    ensures OnlyPoolsOf(rule, old(api.pools), api.pools)
    ensures Reached(lbPorts, meta, old(api.Of(rule)), api.Of(rule), run, reached, ok)
    ensures api.sent == old(api.sent) + run
    ensures old(api.Sound()) ==> ok && api.Sound()
  {
    ghost var original := local[..];
    var udp := false;
    run, reached := [], 0;
    PassStarts(lbPorts, meta, original);
    for i := 0 to |lbPorts.ports|
      invariant Along(lbPorts, meta, original, i, local[..], api.Of(rule), run, udp)
      invariant SameIds(local[..], api.Of(rule))
      invariant OnlyPoolsOf(rule, old(api.pools), api.pools)
      invariant old(api.Sound()) ==> api.Sound()
      invariant api.sent == old(api.sent) + run
    {
      ghost var news, pools := [], api.pools;
      ok, udp, news := SettleNext(api, rule, lbPorts, i, meta, local, udp, original, run);
      OnlyPoolsTwice(rule, old(api.pools), pools, api.pools);
      Associate(old(api.sent), run, news);
      run := run + news;
      if !ok {
        reached := i + 1;
        return;
      }
    }
    ok, reached := true, |lbPorts.ports|;
  }

  /** updateLoadBalancerPool, for any pools at all. `used` are the balancer's ports as far as they were
      computed and `run` the updates it sent: those of the first `reached` ports. No other rule's
      pools change. */
  method UpdateLoadBalancerPool(api: PoolApi, rule: string, ruleProtocol: string, service: Service, resolve: Resolver)
    returns (ok: bool, ghost used: Result<LbPorts>, ghost run: seq<PoolUpdate>, ghost reached: nat)
    modifies api
    ensures OnlyPoolsOf(rule, old(api.pools), api.pools)
    ensures api.sent == old(api.sent) + run
    ensures SkipsPools(service.meta, ruleProtocol) ==> ok && run == [] && api.Of(rule) == old(api.Of(rule))
    ensures IsLbPortsOf(service.ports, UsesTargetPort(service), resolve, used)
    ensures used.Err? ==> api.Of(rule) == old(api.Of(rule)) && run == []
    ensures !SkipsPools(service.meta, ruleProtocol) && used.Ok? ==>
              Reached(used.value, service.meta, old(api.Of(rule)), api.Of(rule), run, reached, ok)
    ensures !SkipsPools(service.meta, ruleProtocol) && ok ==> used.Ok? && old(api.Of(rule)) != []
    ensures old(api.Sound()) && (SkipsPools(service.meta, ruleProtocol) || (used.Ok? && old(api.Of(rule)) != [])) ==> ok
    ensures old(api.Sound()) ==> api.Sound()
  {
    var sorted, ports := ServiceToLbPorts(service.ports, UsesTargetPort(service), resolve);
    ok, used, run, reached := false, ports, [], 0;
    if SkipsPools(service.meta, ruleProtocol) {
      ok := true;
      return;
    }
    if ports.Ok? {
      ok, run, reached := SettleListed(api, rule, ports.value, service.meta);
    }
  }

  /** The pass over the rule's pools as the server lists them; a rule without pools is an error. */
  method SettleListed(api: PoolApi, rule: string, lbPorts: LbPorts, meta: Meta)
    returns (ok: bool, ghost run: seq<PoolUpdate>, ghost reached: nat)
    requires lbPorts.protocol == "TCP" || lbPorts.protocol == "UDP"
    modifies api
    ensures OnlyPoolsOf(rule, old(api.pools), api.pools)
    ensures Reached(lbPorts, meta, old(api.Of(rule)), api.Of(rule), run, reached, ok)
    ensures ok ==> old(api.Of(rule)) != []
    ensures old(api.Sound()) ==> (ok <==> old(api.Of(rule)) != []) && api.Sound()
    ensures api.sent == old(api.sent) + run
  {
    ok, run, reached := false, [], 0;
    var list := api.List(rule);
    if list.None? || |list.value| == 0 {
      return;
    }
    var local := new Pool[|list.value|](i requires 0 <= i < |list.value| => list.value[i]);
    assert local[..] == list.value;
    ok, run, reached := SettlePorts(api, rule, lbPorts, meta, local);
  }

  /** What the pass means on pools that are unique per port pair and ID: a complete one settles them
      all, a failed one those of the first ports, and settled pools get no update. */
  lemma ReachedIsSettled(lbPorts: LbPorts, meta: Meta, before: seq<Pool>, after: seq<Pool>, run: seq<PoolUpdate>, reached: nat, ok: bool)
    requires DistinctPools(before) && Reached(lbPorts, meta, before, after, run, reached, ok)
    ensures ok ==> after == SettleAll(lbPorts.ports, lbPorts.protocol, meta, before)
    ensures exists done :: 0 <= done <= reached && after == SettleAll(lbPorts.ports[..done], lbPorts.protocol, meta, before)
    ensures AlreadySettled(lbPorts.ports, lbPorts.protocol, meta, before) ==> run == [] && after == before
  {
    var infos, protocol := lbPorts.ports, lbPorts.protocol;
    PassSettlesBoth(infos[..reached], protocol, meta, before);
    assert infos[..|infos|] == infos;
    if after != ServerAfter(before, run) {
      ShorterRun(infos, protocol, meta, before, reached);
      var done :| 0 <= done <= reached && run[..|run| - 1] == Updates(infos[..done], protocol, meta, before);
      PassSettlesBoth(infos[..done], protocol, meta, before);
    }
    if AlreadySettled(infos, protocol, meta, before) {
      forall i | 0 <= i <= reached ensures SettleAll(infos[..reached][..i], protocol, meta, before) == before {
        assert infos[..reached][..i] == infos[..i];
      }
      SettledSendNothing(infos[..reached], protocol, meta, before);
    }
  }

  /** A run without its last update is the run over fewer ports. */
  lemma {:induction false} ShorterRun(infos: seq<LbPortInfo>, protocol: string, meta: Meta, pools: seq<Pool>, n: nat)
    requires n <= |infos| && Updates(infos[..n], protocol, meta, pools) != []
    ensures var run := Updates(infos[..n], protocol, meta, pools);
            exists done :: 0 <= done <= n && run[..|run| - 1] == Updates(infos[..done], protocol, meta, pools)
  {
    var run := Updates(infos[..n], protocol, meta, pools);
    var before := Updates(infos[..n - 1], protocol, meta, pools);
    assert infos[..n][..n - 1] == infos[..n - 1];
    if run == before {
      ShorterRun(infos, protocol, meta, pools, n - 1);
    } else {
      assert run[..|run| - 1] == before;
    }
  }

  lemma {:induction false} InfosPublic(ports: seq<ServicePort>, protocol: string, useTargetPort: bool, resolve: Resolver)
    ensures var r := PortInfos(ports, protocol, useTargetPort, resolve);
            r.Ok? ==> |r.value| == |ports| && forall i :: 0 <= i < |ports| ==> r.value[i].publicPort == ports[i].port
  {
    if ports != [] {
      InfosPublic(ports[..|ports| - 1], protocol, useTargetPort, resolve);
    }
  }

  lemma DistinctPortsStay(ports: seq<ServicePort>, useTargetPort: bool, resolve: Resolver, r: Result<LbPorts>)
    requires DistinctPorts(ports) && IsLbPortsOf(ports, useTargetPort, resolve, r) && r.Ok?
    ensures DistinctPublic(r.value.ports)
  {
    var sorted: seq<ServicePort> :| Sorting.Sorted(sorted, PortLess) && Sorting.Permutation(sorted, ports) && r == LbPortsOf(sorted, useTargetPort, resolve);
    InfosPublic(sorted, r.value.protocol, useTargetPort, resolve);
    Sorting.DistinctPermutation(ports, sorted);
    forall i, j | 0 <= i < j < |sorted| ensures sorted[i].port != sorted[j].port {
      Sorting.PermutationMember(sorted, ports, sorted[i]);
      Sorting.PermutationMember(sorted, ports, sorted[j]);
      var a :| 0 <= a < |ports| && ports[a] == sorted[i];
      var b :| 0 <= b < |ports| && ports[b] == sorted[j];
      assert a != b;
    }
  }

  lemma PassSettles(infos: seq<LbPortInfo>, protocol: string, meta: Meta, pools: seq<Pool>)
    requires DistinctPublic(infos)
    ensures AlreadySettled(infos, protocol, meta, SettleAll(infos, protocol, meta, pools))
  {
    var settled := SettleAll(infos, protocol, meta, pools);
    forall i | 0 <= i <= |infos| ensures SettleAll(infos[..i], protocol, meta, settled) == settled {
      forall k | 0 <= k < |settled| ensures Settle(infos[..i], protocol, meta, settled[k]) == settled[k] {
        SettleKeepsPorts(infos, protocol, meta, pools[k]);
        SettledIsWanted(infos, protocol, meta, pools[k]);
        SettledIsWanted(infos[..i], protocol, meta, settled[k]);
        if n :| 0 <= n < i && PoolOf(pools[k], infos[n]) && Wanted(protocol, infos[n], meta).Some? {
          assert PoolOf(settled[k], infos[..i][n]);
        }
      }
    }
  }

  /** After one complete pass a second one has nothing to send, in whatever order the service's
      ports are given. */
  lemma SecondPassSendsNothing(service: Service, again: Service, resolve: Resolver, first: Result<LbPorts>, second: Result<LbPorts>,
                               pools: seq<Pool>)
    requires DistinctPorts(service.ports) && Sorting.Permutation(service.ports, again.ports) && again.meta == service.meta
    requires IsLbPortsOf(service.ports, UsesTargetPort(service), resolve, first) && first.Ok?
    requires IsLbPortsOf(again.ports, UsesTargetPort(again), resolve, second)
    ensures second == first
    ensures AlreadySettled(second.value.ports, second.value.protocol, again.meta,
                           SettleAll(first.value.ports, first.value.protocol, service.meta, pools))
  {
    PortOrderIrrelevant(service.ports, again.ports, UsesTargetPort(service), resolve, first, second);
    DistinctPortsStay(service.ports, UsesTargetPort(service), resolve, first);
    PassSettles(first.value.ports, first.value.protocol, service.meta, pools);
  }

  // ------------------------------------------------------------------------------------
  // What a service asks for, from port names, labels and annotations

  /** The port is named for the prefix: that is its whole name, or what comes before the first dash. */
  ghost predicate NamedFor(portName: string, prefix: string) {
    '-' !in prefix && (portName == prefix || exists rest :: portName == prefix + "-" + rest)
  }

  /** The text under the label or annotation, empty if there is none. */
  ghost predicate TextAt(meta: Meta, name: string, text: string) {
    Says(meta, name, text) || (Silent(meta, name) && text == "")
  }

  /** A port named for HTTP or HTTPS wants a check of that kind, and none without a message; one named
      for TCP or UDP wants that kind, and any other the balancer's protocol. Message and expected answer
      are the ones under the port's full name. */
  ghost predicate Wish(protocol: string, meta: Meta, portName: string, wish: Option<Health>) {
    exists prefix, message, expected ::
      && NamedFor(portName, prefix)
      && TextAt(meta, HEALTH_CHECK_MESSAGE_PREFIX + portName, message)
      && TextAt(meta, HEALTH_CHECK_RESPONSE_PREFIX + portName, expected)
      && wish == WishFor(ToUpper(prefix), protocol, message, expected)
  }

  function WishFor(prefix: string, protocol: string, message: string, expected: string): Option<Health> {
    if prefix == "HTTP" || prefix == "HTTPS" then (if message == "" then None else Some(Health(prefix, message, expected)))
    else if prefix == "TCP" || prefix == "UDP" then Some(Health(prefix, message, expected))
    else Some(Health(protocol, message, expected))
  }

  lemma NamedForLonger(c: char, s: string, prefix: string)
    requires NamedFor(s, prefix) && c != '-'
    ensures NamedFor([c] + s, [c] + prefix)
  {
    if s != prefix {
      var rest :| s == prefix + "-" + rest;
      assert [c] + s == ([c] + prefix) + "-" + rest;
    }
  }

  lemma {:induction false} SplitFirst(s: string)
    ensures NamedFor(s, Split(s, '-')[0])
  {
    if s != [] {
      assert s == [s[0]] + s[1..];
      if s[0] == '-' {
        assert s == "" + "-" + s[1..] && Split(s, '-')[0] == "";
      } else {
        SplitFirst(s[1..]);
        NamedForLonger(s[0], s[1..], Split(s[1..], '-')[0]);
        assert Split(s, '-')[0] == [s[0]] + Split(s[1..], '-')[0];
      }
    }
  }

  lemma {:induction false} PrefixUnique(s: string, prefix: string)
    requires NamedFor(s, prefix)
    ensures Split(s, '-')[0] == prefix
  {
    if s == prefix {
      SplitPrefix(prefix, "", '-');
    } else {
      var rest :| s == prefix + "-" + rest;
      assert s == prefix + ['-'] + rest;
      SplitPrefix(prefix, rest, '-');
    }
  }

  lemma TextExactly(meta: Meta, name: string, text: string)
    ensures TextAt(meta, name, text) <==> ValueOrEmpty(GetLabelOrAnnotation(meta, name)) == text
  {
    LookupExactly(meta, name);
  }

  /** The health check that the pass wants for a port is what the service's labels ask for. */
  lemma WantedExactly(protocol: string, info: LbPortInfo, meta: Meta, wish: Option<Health>)
    ensures Wanted(protocol, info, meta) == wish <==> Wish(protocol, meta, info.name, wish)
  {
    var message := ValueOrEmpty(GetLabelOrAnnotation(meta, HEALTH_CHECK_MESSAGE_PREFIX + info.name));
    var expected := ValueOrEmpty(GetLabelOrAnnotation(meta, HEALTH_CHECK_RESPONSE_PREFIX + info.name));
    var prefix := Split(info.name, '-')[0];
    SplitFirst(info.name);
    TextExactly(meta, HEALTH_CHECK_MESSAGE_PREFIX + info.name, message);
    TextExactly(meta, HEALTH_CHECK_RESPONSE_PREFIX + info.name, expected);
    WantedIsWish(protocol, info, meta);
    assert Wish(protocol, meta, info.name, WishFor(ToUpper(prefix), protocol, message, expected));
    if Wish(protocol, meta, info.name, wish) {
      var p, m, e :| && NamedFor(info.name, p) && TextAt(meta, HEALTH_CHECK_MESSAGE_PREFIX + info.name, m)
                     && TextAt(meta, HEALTH_CHECK_RESPONSE_PREFIX + info.name, e) && wish == WishFor(ToUpper(p), protocol, m, e);
      PrefixUnique(info.name, p);
      TextExactly(meta, HEALTH_CHECK_MESSAGE_PREFIX + info.name, m);
      TextExactly(meta, HEALTH_CHECK_RESPONSE_PREFIX + info.name, e);
    }
  }

  lemma WantedIsWish(protocol: string, info: LbPortInfo, meta: Meta)
    ensures Wanted(protocol, info, meta) ==
            WishFor(ToUpper(Split(info.name, '-')[0]), protocol,
                    ValueOrEmpty(GetLabelOrAnnotation(meta, HEALTH_CHECK_MESSAGE_PREFIX + info.name)),
                    ValueOrEmpty(GetLabelOrAnnotation(meta, HEALTH_CHECK_RESPONSE_PREFIX + info.name)))
  {
  }

  lemma SkipsExactly(meta: Meta, ruleProtocol: string)
    ensures SkipsPools(meta, ruleProtocol) <==> Silent(meta, LB_CUSTOM_HEALTH_CHECK) && ruleProtocol != "UDP"
  {
    LookupExactly(meta, LB_CUSTOM_HEALTH_CHECK);
  }

  /** What a complete pass leaves in each pool: the health check that its port's labels ask for, and
      what was there in a pool of no port, or of a port that is skipped for a missing message. */
  lemma PassMeans(service: Service, resolve: Resolver, used: Result<LbPorts>, pools: seq<Pool>, k: nat)
    requires DistinctPorts(service.ports) && IsLbPortsOf(service.ports, UsesTargetPort(service), resolve, used) && used.Ok?
    requires k < |pools|
    ensures var p, after := used.value, SettleAll(used.value.ports, used.value.protocol, service.meta, pools);
            && after[k].id == pools[k].id && after[k].vipPort == pools[k].vipPort && after[k].port == pools[k].port
            && (forall i, health :: 0 <= i < |p.ports| && pools[k].vipPort == p.ports[i].publicPort && pools[k].port == p.ports[i].privatePort ==>
                  Wish(p.protocol, service.meta, p.ports[i].name, Some(health)) ==> after[k].health == health)
            && ((forall i :: 0 <= i < |p.ports| && pools[k].vipPort == p.ports[i].publicPort && pools[k].port == p.ports[i].privatePort ==>
                   Wish(p.protocol, service.meta, p.ports[i].name, None)) ==> after[k] == pools[k])
  {
    var p := used.value;
    DistinctPortsStay(service.ports, UsesTargetPort(service), resolve, used);
    SettledIsWanted(p.ports, p.protocol, service.meta, pools[k]);
    SettleKeepsPorts(p.ports, p.protocol, service.meta, pools[k]);
    forall i, wish | 0 <= i < |p.ports|
      ensures Wanted(p.protocol, p.ports[i], service.meta) == wish <==> Wish(p.protocol, service.meta, p.ports[i].name, wish)
    {
      WantedExactly(p.protocol, p.ports[i], service.meta, wish);
    }
  }
}
