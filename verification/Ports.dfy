/** From service ports to the strings of a load balancer rule, and back to a comparison. */
module Ports {
  import opened Wrappers
  import opened Strings
  import opened Sorting
  import opened Kube

  datatype LbPortInfo = LbPortInfo(publicPort: int, privatePort: int, name: string)

  datatype LbPorts = LbPorts(ports: seq<LbPortInfo>, protocol: string) {
    function PublicPort(): int { if |ports| == 0 then 0 else ports[0].publicPort }

    function PrivatePort(): int { if |ports| == 0 then 0 else ports[0].privatePort }

    /** The port pairs beyond the first. */
    function AdditionalPairs(): seq<(int, int)> {
      if |ports| < 2 then []
      else seq(|ports| - 1, i requires 0 <= i < |ports| - 1 => (ports[i + 1].publicPort, ports[i + 1].privatePort))
    }
  }

  /** A Go string slice: `reflect.DeepEqual` tells a nil slice from an empty one. */
  datatype GoSlice = Nil | Slice(elems: seq<string>)

  // ------------------------------------------------------------------------------------
  // serviceToLBPorts

  predicate PortLess(a: ServicePort, b: ServicePort) {
    a.port < b.port
  }

  lemma PortLessStrictWeak()
    ensures StrictWeak(PortLess)
  {
  }

  type Resolver = TargetPort -> Result<int>

  function PrivatePortOf(p: ServicePort, useTargetPort: bool, resolve: Resolver): Result<int> {
    if useTargetPort then resolve(p.targetPort) else Ok(p.nodePort)
  }

  function PortInfos(ports: seq<ServicePort>, protocol: string, useTargetPort: bool, resolve: Resolver): Result<seq<LbPortInfo>> {
    if ports == [] then Ok([])
    else
      var before := PortInfos(ports[..|ports| - 1], protocol, useTargetPort, resolve);
      var p := ports[|ports| - 1];
      var private := PrivatePortOf(p, useTargetPort, resolve);
      if before.Err? || p.protocol != protocol || private.Err? then Err
      else Ok(before.value + [LbPortInfo(p.port, private.value, p.name)])
  }

  /** The rule ports for a list of service ports that is already sorted. */
  function LbPortsOf(sorted: seq<ServicePort>, useTargetPort: bool, resolve: Resolver): Result<LbPorts> {
    if sorted == [] then Err
    else
      var protocol := sorted[0].protocol;
      if protocol != "TCP" && protocol != "UDP" then Err
      else
        var infos := PortInfos(sorted, protocol, useTargetPort, resolve);
        if infos.Err? then Err else Ok(LbPorts(infos.value, protocol))
  }

  lemma {:induction false} PortInfosErr(ports: seq<ServicePort>, k: nat, protocol: string, useTargetPort: bool, resolve: Resolver)
    requires k <= |ports| && PortInfos(ports[..k], protocol, useTargetPort, resolve).Err?
    ensures PortInfos(ports, protocol, useTargetPort, resolve).Err?
    decreases |ports| - k
  {
    if k < |ports| {
      assert ports[..k + 1][..k] == ports[..k];
      PortInfosErr(ports, k + 1, protocol, useTargetPort, resolve);
    } else {
      assert ports[..k] == ports;
    }
  }

  /** Some way the unstable `sort.Slice` can order the ports, and the rule ports it leads to. */
  ghost predicate IsLbPortsOf(ports: seq<ServicePort>, useTargetPort: bool, resolve: Resolver, r: Result<LbPorts>) {
    exists sorted :: Sorted(sorted, PortLess) && Permutation(sorted, ports) && r == LbPortsOf(sorted, useTargetPort, resolve)
  }

  /** Sorts the service's ports and turns them into rule ports, stopping at the first bad one. */
  method ServiceToLbPorts(ports: seq<ServicePort>, useTargetPort: bool, resolve: Resolver)
    returns (sorted: seq<ServicePort>, r: Result<LbPorts>)
    ensures Sorted(sorted, PortLess) && Permutation(sorted, ports)
    ensures r == LbPortsOf(sorted, useTargetPort, resolve)
    ensures IsLbPortsOf(ports, useTargetPort, resolve, r)
  {
    if |ports| == 0 {
      return ports, Err;
    }
    PortLessStrictWeak();
    sorted := Sort(ports, PortLess);
    var protocol := sorted[0].protocol;
    if protocol != "TCP" && protocol != "UDP" {
      return sorted, Err;
    }
    var infos: seq<LbPortInfo> := [];
    for i := 0 to |sorted|
      invariant PortInfos(sorted[..i], protocol, useTargetPort, resolve) == Ok(infos)
    {
      assert sorted[..i + 1][..i] == sorted[..i];
      var p := sorted[i];
      var private := PrivatePortOf(p, useTargetPort, resolve);
      if p.protocol != protocol || private.Err? {
        PortInfosErr(sorted, i + 1, protocol, useTargetPort, resolve);
        return sorted, Err;
      }
      infos := infos + [LbPortInfo(p.port, private.value, p.name)];
    }
    assert sorted[..|sorted|] == sorted;
    r := Ok(LbPorts(infos, protocol));
  }

  /** What serviceToLBPorts accepts: at least one port, one protocol that is TCP or UDP, and for target
      ports that each of them can be found. */
  ghost predicate Acceptable(ports: seq<ServicePort>, useTargetPort: bool, resolve: Resolver) {
    && ports != [] && (ports[0].protocol == "TCP" || ports[0].protocol == "UDP")
    && (forall p :: p in ports ==> p.protocol == ports[0].protocol)
    && (useTargetPort ==> forall p :: p in ports ==> resolve(p.targetPort).Ok?)
  }

  /** A service port with the port on the hosts that it leads to: its node port, or its target port as
      it was found. */
  function ToNodePort(): ServicePort -> LbPortInfo {
    (p: ServicePort) => LbPortInfo(p.port, p.nodePort, p.name)
  }

  function ToTargetPort(resolve: Resolver): ServicePort -> LbPortInfo {
    (p: ServicePort) => LbPortInfo(p.port, match resolve(p.targetPort) case Ok(number) => number case Err => 0, p.name)
  }

  function ToPort(useTargetPort: bool, resolve: Resolver): ServicePort -> LbPortInfo {
    if useTargetPort then ToTargetPort(resolve) else ToNodePort()
  }

  predicate Usable(p: ServicePort, protocol: string, useTargetPort: bool, resolve: Resolver) {
    p.protocol == protocol && (useTargetPort ==> resolve(p.targetPort).Ok?)
  }

  lemma {:induction false} LastPort(earlier: seq<ServicePort>, last: ServicePort, protocol: string, useTargetPort: bool, resolve: Resolver)
    ensures PortInfos(earlier + [last], protocol, useTargetPort, resolve) ==
            var before := PortInfos(earlier, protocol, useTargetPort, resolve);
            if before.Err? || !Usable(last, protocol, useTargetPort, resolve) then Err
            else Ok(before.value + [ToPort(useTargetPort, resolve)(last)])
  {
    assert (earlier + [last])[..|earlier|] == earlier;
  }

  lemma {:induction false} PortInfosExactly(ports: seq<ServicePort>, protocol: string, useTargetPort: bool, resolve: Resolver)
    ensures PortInfos(ports, protocol, useTargetPort, resolve) ==
            if (forall p :: p in ports ==> Usable(p, protocol, useTargetPort, resolve))
            then Ok(MapSeq(ToPort(useTargetPort, resolve), ports)) else Err
  {
    if ports != [] {
      var earlier, last := ports[..|ports| - 1], ports[|ports| - 1];
      assert ports == earlier + [last];
      PortInfosExactly(earlier, protocol, useTargetPort, resolve);
      LastPort(earlier, last, protocol, useTargetPort, resolve);
      MapAppend(ToPort(useTargetPort, resolve), earlier, [last]);
      assert MapSeq(ToPort(useTargetPort, resolve), [last]) == [ToPort(useTargetPort, resolve)(last)];
    }
  }

  lemma SameAcceptable(ports: seq<ServicePort>, sorted: seq<ServicePort>, useTargetPort: bool, resolve: Resolver)
    requires Permutation(sorted, ports)
    ensures Acceptable(sorted, useTargetPort, resolve) <==> Acceptable(ports, useTargetPort, resolve)
    ensures Acceptable(ports, useTargetPort, resolve) ==> sorted[0].protocol == ports[0].protocol
  {
    assert |sorted| == |multiset(sorted)| == |multiset(ports)| == |ports|;
    forall p ensures p in sorted <==> p in ports { PermutationMember(sorted, ports, p); }
    if ports != [] {
      assert sorted[0] in sorted && ports[0] in ports;
    }
  }

  /** The balancer's ports are the service's, each with its node port, or with its target port if the
      service asks for that, in the order of the public ports; an error exactly when the service is not
      acceptable. */
  lemma LbPortsExactly(ports: seq<ServicePort>, useTargetPort: bool, resolve: Resolver, r: Result<LbPorts>)
    requires IsLbPortsOf(ports, useTargetPort, resolve, r)
    ensures r.Ok? <==> Acceptable(ports, useTargetPort, resolve)
    ensures r.Ok? ==>
              && r.value.protocol == ports[0].protocol
              && Permutation(r.value.ports, MapSeq(if useTargetPort then ToTargetPort(resolve) else ToNodePort(), ports))
              && forall i, j :: 0 <= i < j < |r.value.ports| ==> r.value.ports[i].publicPort <= r.value.ports[j].publicPort
  {
    var sorted: seq<ServicePort> :| Sorted(sorted, PortLess) && Permutation(sorted, ports) && r == LbPortsOf(sorted, useTargetPort, resolve);
    SameAcceptable(ports, sorted, useTargetPort, resolve);
    if sorted != [] {
      PortInfosExactly(sorted, sorted[0].protocol, useTargetPort, resolve);
      MapKeepsPermutation(ToPort(useTargetPort, resolve), sorted, ports);
    }
    if r.Ok? {
      forall i, j | 0 <= i < j < |sorted| ensures sorted[i].port <= sorted[j].port {
        assert !PortLess(sorted[j], sorted[i]);
      }
    }
  }

  predicate DistinctPorts(ports: seq<ServicePort>) {
    forall i, j :: 0 <= i < j < |ports| ==> ports[i].port != ports[j].port
  }

  /** With distinct port numbers the order in which the service lists its ports is irrelevant. */
  lemma PortOrderIrrelevant(ports: seq<ServicePort>, ports': seq<ServicePort>, useTargetPort: bool, resolve: Resolver,
                            r: Result<LbPorts>, r': Result<LbPorts>)
    requires DistinctPorts(ports) && Permutation(ports, ports')
    requires IsLbPortsOf(ports, useTargetPort, resolve, r) && IsLbPortsOf(ports', useTargetPort, resolve, r')
    ensures r == r'
  {
    var s :| Sorted(s, PortLess) && Permutation(s, ports) && r == LbPortsOf(s, useTargetPort, resolve);
    var s' :| Sorted(s', PortLess) && Permutation(s', ports') && r' == LbPortsOf(s', useTargetPort, resolve);
    forall a, b | a in s && b in s
      ensures PortLess(a, b) || a == b || PortLess(b, a)
    {
      PermutationMember(s, ports, a);
      PermutationMember(s, ports, b);
      var i :| 0 <= i < |ports| && ports[i] == a;
      var j :| 0 <= j < |ports| && ports[j] == b;
      assert i < j || i == j || j < i;
    }
    PortLessStrictWeak();
    SortedUnique(s, s', PortLess);
  }

  /** The members of a set in sorted order, as `sets.String.List` gives them. */
  method SortedList(s: set<string>) returns (list: seq<string>)
    ensures Sorted(list, Less) && Distinct(list)
    ensures forall x :: x in list <==> x in s
  {
    var todo := s;
    var unsorted: seq<string> := [];
    while todo != {}
      invariant todo <= s
      invariant forall x :: x in unsorted <==> x in s - todo
      invariant Distinct(unsorted)
      decreases |todo|
    {
      var x :| x in todo;
      todo := todo - {x};
      unsorted := unsorted + [x];
    }
    list := SortStringList(unsorted);
    SortStringsSorts(unsorted);
    DistinctPermutation(unsorted, list);
    forall x ensures x in list <==> x in s {
      PermutationMember(list, unsorted, x);
    }
  }

  /** There is only one sorted list of a set's members. */
  lemma SortedListUnique(list: seq<string>, list': seq<string>)
    requires Sorted(list, Less) && Distinct(list) && Sorted(list', Less) && Distinct(list')
    requires forall x :: x in list <==> x in list'
    ensures list == list'
  {
    DistinctSameMembers(list, list');
    LessStrictWeak();
    LessTotalOn(list);
    SortedUnique(list, list', Less);
  }

  // ------------------------------------------------------------------------------------
  // Printing

  lemma LessStrictWeak()
    ensures StrictWeak(Less)
  {
    forall a ensures !Less(a, a) { LessIrreflexive(a); }
    forall a, b, c | Less(a, b) && Less(b, c) ensures Less(a, c) { LessTransitive(a, b, c); }
    forall a, b, c | Less(a, c) ensures Less(a, b) || Less(b, c) {
      LessTotal(a, b);
      if Less(b, a) { LessTransitive(b, a, c); }
    }
  }

  lemma LessTotalOn(s: seq<string>)
    ensures TotalOn(s, Less)
  {
    forall a, b | a in s && b in s ensures Less(a, b) || a == b || Less(b, a) { LessTotal(a, b); }
  }

  function InsertString(s: seq<string>, x: string): seq<string> {
    if s == [] || Less(x, s[0]) then [x] + s else [s[0]] + InsertString(s[1..], x)
  }

  /** `sort.Strings`: the order is total, so there is only one result. */
  function SortStrings(s: seq<string>): seq<string> {
    if s == [] then [] else InsertString(SortStrings(s[1..]), s[0])
  }

  lemma {:induction false} InsertStringSorts(s: seq<string>, x: string)
    requires Sorted(s, Less)
    ensures Sorted(InsertString(s, x), Less) && Permutation(InsertString(s, x), [x] + s)
  {
    LessStrictWeak();
    if s == [] {
    } else if Less(x, s[0]) {
      forall j | 0 <= j < |s| ensures !Less(s[j], x) {
        if Less(s[j], x) { LessTransitive(s[j], x, s[0]); LessIrreflexive(s[0]); }
      }
    } else {
      InsertStringSorts(s[1..], x);
      var rest := InsertString(s[1..], x);
      assert s == [s[0]] + s[1..];
      forall j | 0 <= j < |rest| ensures !Less(rest[j], s[0]) {
        PermutationMember(rest, [x] + s[1..], rest[j]);
      }
    }
  }

  lemma {:induction false} SortStringsSorts(s: seq<string>)
    ensures Sorted(SortStrings(s), Less) && Permutation(SortStrings(s), s)
    ensures |SortStrings(s)| == |s|
  {
    if s != [] {
      SortStringsSorts(s[1..]);
      InsertStringSorts(SortStrings(s[1..]), s[0]);
      assert s == [s[0]] + s[1..];
      assert |multiset(SortStrings(s))| == |multiset(s)|;
    }
  }

  /** Any correct sort of the strings gives `SortStrings`; sorting twice changes nothing. */
  lemma {:induction false} SortStringsUnique(s: seq<string>, t: seq<string>)
    requires Sorted(t, Less) && Permutation(t, s)
    ensures t == SortStrings(s)
  {
    SortStringsSorts(s);
    LessStrictWeak();
    LessTotalOn(t);
    SortedUnique(t, SortStrings(s), Less);
  }

  lemma {:induction false} SortStringsSame(s: seq<string>, t: seq<string>)
    ensures SortStrings(s) == SortStrings(t) <==> Permutation(s, t)
  {
    SortStringsSorts(s);
    SortStringsSorts(t);
    if Permutation(s, t) {
      SortStringsUnique(t, SortStrings(s));
    }
  }

  method SortStringList(s: seq<string>) returns (sorted: seq<string>)
    ensures sorted == SortStrings(s)
  {
    LessStrictWeak();
    sorted := Sort(s, Less);
    SortStringsUnique(s, sorted);
  }

  /** `fmt.Sprintf("%d:%d", ...)`. */
  function PrintPair(p: (int, int)): string {
    Itoa(p.0) + ":" + Itoa(p.1)
  }

  lemma PrintPairInjective(p: (int, int), q: (int, int))
    requires PrintPair(p) == PrintPair(q)
    ensures p == q
  {
    ItoaPlain(p.0); ItoaPlain(p.1); ItoaPlain(q.0); ItoaPlain(q.1);
    SplitPrefix(Itoa(p.0), Itoa(p.1), ':');
    SplitPrefix(Itoa(q.0), Itoa(q.1), ':');
    SplitPrefix(Itoa(p.1), "", ':');
    SplitPrefix(Itoa(q.1), "", ':');
    var parts := Split(PrintPair(p), ':');
    assert parts == [Itoa(p.0)] + [Itoa(p.1)] && parts == [Itoa(q.0)] + [Itoa(q.1)];
    assert parts[0] == Itoa(p.0) == Itoa(q.0) && parts[1] == Itoa(p.1) == Itoa(q.1);
    ItoaInjective(p.0, q.0);
    ItoaInjective(p.1, q.1);
  }

  function PrintPairs(pairs: seq<(int, int)>): seq<string> {
    MapSeq(PrintPair, pairs)
  }

  /** Printing keeps and reflects equality of port lists as multisets. */
  lemma PrintPairsExact(pairs: seq<(int, int)>, pairs': seq<(int, int)>)
    ensures Permutation(PrintPairs(pairs), PrintPairs(pairs')) <==> Permutation(pairs, pairs')
  {
    forall p, q | PrintPair(p) == PrintPair(q) ensures p == q { PrintPairInjective(p, q); }
    MapPermutation(PrintPair, pairs, pairs');
  }

  /** lbPorts.additionalPorts: nil for fewer than two ports. */
  function AdditionalPorts(p: LbPorts): GoSlice {
    if |p.ports| < 2 then Nil else Slice(SortStrings(PrintPairs(p.AdditionalPairs())))
  }

  method ListAdditionalPorts(p: LbPorts) returns (additional: GoSlice)
    ensures additional == AdditionalPorts(p)
  {
    if |p.ports| < 2 {
      return Nil;
    }
    var strings := MapList(PrintPair, p.AdditionalPairs());
    var sorted := SortStringList(strings);
    return Slice(sorted);
  }

  // ------------------------------------------------------------------------------------
  // Comparing with a rule

  /** The port fields of a load balancer rule as the server reports them. */
  datatype RulePorts = RulePorts(privatePort: string, publicPort: string, protocol: string, additional: GoSlice)

  function Normalise(s: GoSlice): GoSlice {
    if s.Nil? || s.elems == [] then Nil else Slice(SortStrings(s.elems))
  }

  predicate SamePorts(p: LbPorts, rule: RulePorts) {
    && AdditionalPorts(p) == Normalise(rule.additional)
    && rule.privatePort == Itoa(p.PrivatePort())
    && rule.publicPort == Itoa(p.PublicPort())
    && rule.protocol == p.protocol
  }

  /** Sorts the rule's own list in place, so the rule that comes back has it sorted or nil. */
  method ComparePorts(p: LbPorts, rule: RulePorts) returns (same: bool, rule': RulePorts)
    ensures same == SamePorts(p, rule)
    ensures rule' == rule.(additional := Normalise(rule.additional))
    ensures SamePorts(p, rule') == same
  {
    rule' := rule;
    if rule.additional.Slice? {
      var sorted := SortStringList(rule.additional.elems);
      SortStringsSorts(rule.additional.elems);
      SortStringsSame(rule.additional.elems, sorted);
      rule' := rule.(additional := Slice(sorted));
    }
    if rule'.additional.Nil? || |rule'.additional.elems| == 0 {
      rule' := rule'.(additional := Nil);
    }
    var additional := ListAdditionalPorts(p);
    same := && additional == rule'.additional
            && rule'.privatePort == Itoa(p.PrivatePort())
            && rule'.publicPort == Itoa(p.PublicPort())
            && rule'.protocol == p.protocol;
  }

  /** What the server stores for a rule created from `q`: the additional ports travel joined with
      commas and are split again; an empty parameter is not sent. */
  function CreatedPorts(q: LbPorts): RulePorts {
    var additional := AdditionalPorts(q);
    RulePorts(Itoa(q.PrivatePort()), Itoa(q.PublicPort()), q.protocol,
              if additional.Nil? || additional.elems == [] then Nil
              else Slice(Split(Join(additional.elems, ','), ',')))
  }

  lemma CreatedAdditional(q: LbPorts)
    ensures CreatedPorts(q).additional == AdditionalPorts(q)
    ensures Normalise(CreatedPorts(q).additional) == AdditionalPorts(q)
  {
    if |q.ports| >= 2 {
      var printed := PrintPairs(q.AdditionalPairs());
      SortStringsSorts(printed);
      var sorted := SortStrings(printed);
      forall i | 0 <= i < |sorted| ensures ',' !in sorted[i] {
        PermutationMember(sorted, printed, sorted[i]);
        var j :| 0 <= j < |printed| && printed[j] == sorted[i];
        var pair := q.AdditionalPairs()[j];
        ItoaPlain(pair.0);
        ItoaPlain(pair.1);
      }
      SplitJoin(sorted, ',');
      SortStringsUnique(sorted, sorted);
    }
  }

  /** A port as it is written in the list of additional ports. */
  function Pair(): LbPortInfo -> string {
    (p: LbPortInfo) => Itoa(p.publicPort) + ":" + Itoa(p.privatePort)
  }

  /** The strings of a new rule: the first port in the rule's own fields, and every further one as
      "public:private" in a sorted list. */
  lemma CreatedExactly(q: LbPorts)
    requires |q.ports| > 0
    ensures var r, first := CreatedPorts(q), q.ports[0];
            && r.publicPort == Itoa(first.publicPort) && r.privatePort == Itoa(first.privatePort) && r.protocol == q.protocol
            && (|q.ports| == 1 ==> r.additional == Nil)
            && (|q.ports| > 1 ==> r.additional.Slice? && Sorted(r.additional.elems, Less)
                                  && Permutation(r.additional.elems, MapSeq(Pair(), q.ports[1..])))
  {
    CreatedAdditional(q);
    SortStringsSorts(PrintPairs(q.AdditionalPairs()));
    if |q.ports| > 1 {
      var printed, pairs, rest := PrintPairs(q.AdditionalPairs()), q.AdditionalPairs(), q.ports[1..];
      assert printed == MapSeq(Pair(), rest);
    }
  }

  /** A rule created from `q` compares equal to `p` exactly when protocol and primary pair agree
      and the additional pairs agree as multisets. */
  lemma ComparisonIsExact(p: LbPorts, q: LbPorts)
    ensures SamePorts(p, CreatedPorts(q)) <==>
            && p.protocol == q.protocol
            && p.PublicPort() == q.PublicPort() && p.PrivatePort() == q.PrivatePort()
            && Permutation(p.AdditionalPairs(), q.AdditionalPairs())
  {
    CreatedAdditional(q);
    if Itoa(p.PrivatePort()) == Itoa(q.PrivatePort()) { ItoaInjective(p.PrivatePort(), q.PrivatePort()); }
    if Itoa(p.PublicPort()) == Itoa(q.PublicPort()) { ItoaInjective(p.PublicPort(), q.PublicPort()); }
    var pp, qq := p.AdditionalPairs(), q.AdditionalPairs();
    PrintPairsExact(pp, qq);
    SortStringsSame(PrintPairs(pp), PrintPairs(qq));
    if Permutation(pp, qq) {
      assert |multiset(pp)| == |multiset(qq)|;
      assert |pp| == |qq|;
    }
  }

  /** The reconciler's own rule always compares equal. */
  lemma OwnPortsCompareEqual(p: LbPorts)
    ensures SamePorts(p, CreatedPorts(p))
  {
    CreatedAdditional(p);
  }
}
