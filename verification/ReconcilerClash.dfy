/** Two services with one balancer name: default names leave out the namespace, and then nothing keeps
    their calls apart. */
module ReconcilerClash {
  import opened Wrappers
  import opened Kube
  import opened Tags
  import opened Cloud
  import opened Reconciler
  import opened ReconcilerWorld
  import opened ReconcilerFixpoint
  import Ports

  /** What the per-service lock alone ensures: calls side by side are for different services. */
  ghost predicate CanShare(w: World, m: Move) {
    match m
    case Begin(t, kind, ctx) =>
      t !in w.active && forall u :: u in w.active ==> w.active[u].Busy? && w.active[u].ctx.service != ctx.service
    case Answer(t, resp, cloud) =>
      t in w.active && w.active[t].Busy? && Serve(w.cloud, Issue(w.active[t]), resp, cloud)
  }

  ghost predicate IsSharedRun(cloud: State, moves: seq<Move>)
    decreases |moves|
  {
    moves == [] || (IsSharedRun(cloud, moves[..|moves| - 1]) && CanShare(Run(cloud, moves[..|moves| - 1]), moves[|moves| - 1]))
  }

  /** Runs in which names are distinct are among these. */
  lemma {:induction false} RunsAreShared(cloud: State, moves: seq<Move>)
    requires IsRun(cloud, moves)
    ensures IsSharedRun(cloud, moves)
    decreases |moves|
  {
    if moves != [] {
      RunsAreShared(cloud, moves[..|moves| - 1]);
    }
  }

  /** The answers of one call's run, as moves. */
  function AnswersOf(t: Tid, xs: seq<Exchange>): (moves: seq<Move>)
    ensures |moves| == |xs|
  {
    seq(|xs|, i requires 0 <= i < |xs| => Answer(t, xs[i].resp, xs[i].cloud))
  }

  lemma {:induction false} SharedOn(start: State, moves: seq<Move>, m: Move)
    requires IsSharedRun(start, moves) && CanShare(Run(start, moves), m)
    ensures IsSharedRun(start, moves + [m]) && Run(start, moves + [m]) == Do(Run(start, moves), m)
  {
    assert (moves + [m])[..|moves|] == moves;
  }

  /** A call goes on for a while, and the others stand still. */
  lemma {:induction false} Plays(start: State, moves: seq<Move>, t: Tid, l: Local, xs: seq<Exchange>)
    requires IsSharedRun(start, moves) && t in Run(start, moves).active && Run(start, moves).active[t] == l && l.Busy?
    requires HealthyRun(l, Run(start, moves).cloud, xs) && EndLocal(l, xs).Busy?
    ensures var (w, played) := (Run(start, moves), moves + AnswersOf(t, xs));
            IsSharedRun(start, played) && Run(start, played) == World(EndCloud(w.cloud, xs), w.active[t := EndLocal(l, xs)])
    decreases |xs|
  {
    var w := Run(start, moves);
    if xs == [] {
      assert moves + AnswersOf(t, xs) == moves;
      assert w.active[t := l] == w.active;
    } else {
      var m, l' := Answer(t, xs[0].resp, xs[0].cloud), Resume(l, xs[0].resp);
      PlaysOne(start, moves, t, l, xs);
      Plays(start, moves + [m], t, l', xs[1..]);
      FirstAnswer(moves, t, xs);
      assert w.active[t := l'][t := EndLocal(l, xs)] == w.active[t := EndLocal(l, xs)];
    }
  }

  lemma FirstAnswer(moves: seq<Move>, t: Tid, xs: seq<Exchange>)
    requires xs != []
    ensures moves + AnswersOf(t, xs) == moves + [Answer(t, xs[0].resp, xs[0].cloud)] + AnswersOf(t, xs[1..])
  {
    assert AnswersOf(t, xs) == [Answer(t, xs[0].resp, xs[0].cloud)] + AnswersOf(t, xs[1..]);
  }

  lemma {:induction false} PlaysOne(start: State, moves: seq<Move>, t: Tid, l: Local, xs: seq<Exchange>)
    requires IsSharedRun(start, moves) && t in Run(start, moves).active && Run(start, moves).active[t] == l && l.Busy? && xs != []
    requires HealthyRun(l, Run(start, moves).cloud, xs) && EndLocal(l, xs).Busy?
    ensures var (w, m, l') := (Run(start, moves), Answer(t, xs[0].resp, xs[0].cloud), Resume(l, xs[0].resp));
            && IsSharedRun(start, moves + [m]) && Run(start, moves + [m]) == World(xs[0].cloud, w.active[t := l'])
            && l'.Busy? && HealthyRun(l', xs[0].cloud, xs[1..]) && EndLocal(l', xs[1..]) == EndLocal(l, xs)
            && EndCloud(w.cloud, xs) == EndCloud(xs[0].cloud, xs[1..])
  {
    var w, m, l' := Run(start, moves), Answer(t, xs[0].resp, xs[0].cloud), Resume(l, xs[0].resp);
    assert EndLocal(l', xs[1..]) == EndLocal(l, xs);
    FinishedStays(l', xs[1..]);
    SharedOn(start, moves, m);
  }

  lemma {:induction false} FinishedStays(l: Local, xs: seq<Exchange>)
    ensures l.Finished? ==> EndLocal(l, xs) == l
  {
  }

  /** A service that asks for an address that nobody has tagged. */
  ghost predicate Asks(ctx: Ctx, ip: PublicIp) {
    ctx.algorithm.Some? && ctx.ports.Ok? && ctx.specIp == ip.address && ip.address != "" && ip.tags == []
  }

  function Searches(c: State, ip: PublicIp): seq<Exchange> {
    [Exchange(Rules([]), c), Exchange(Rules([]), c), Exchange(Ips([]), c), Exchange(Ips([ip]), c)]
  }

  function AtCreation(ctx: Ctx, ip: PublicIp): Local {
    Busy(Ensure, ctx, Create, None, RefOf(ip), NO_IP, ip.networkId)
  }

  /** On a cloud with only untagged addresses an Ensure call gets to its creation after four searches. */
  lemma {:induction false} SearchesToCreation(ctx: Ctx, c: State, ip: PublicIp)
    requires Asks(ctx, ip) && c.rules == map[] && ip.id in c.ips && c.ips[ip.id] == ip
    requires forall id :: id in c.ips ==> c.ips[id].tags == [] && c.ips[id].id == id && (c.ips[id].address == ip.address ==> id == ip.id)
    ensures HealthyRun(Start(Ensure, ctx), c, Searches(c, ip)) && EndLocal(Start(Ensure, ctx), Searches(c, ip)) == AtCreation(ctx, ip)
    ensures EndCloud(c, Searches(c, ip)) == c
  {
    var l0 := Start(Ensure, ctx);
    var ips := [Exchange(Ips([]), c), Exchange(Ips([ip]), c)];
    SearchesForIp(ctx, c, ip);
    SearchAnswers(ctx, ip);
    SearchesServed(ctx, c, ip);
    OneMoreAnswer(l0.(pc := ListByTag), c, Rules([]), l0.(pc := FindIpByTag), ips);
    OneMoreAnswer(l0, c, Rules([]), l0.(pc := ListByTag), [Exchange(Rules([]), c)] + ips);
    assert Searches(c, ip) == [Exchange(Rules([]), c)] + ([Exchange(Rules([]), c)] + ips);
  }

  lemma {:induction false} SearchesForIp(ctx: Ctx, c: State, ip: PublicIp)
    requires Asks(ctx, ip) && c.rules == map[] && ip.id in c.ips && c.ips[ip.id] == ip
    requires forall id :: id in c.ips ==> c.ips[id].tags == [] && c.ips[id].id == id && (c.ips[id].address == ip.address ==> id == ip.id)
    ensures var (l, xs) := (Busy(Ensure, ctx, FindIpByTag, None, NO_IP, NO_IP, ctx.network), [Exchange(Ips([]), c), Exchange(Ips([ip]), c)]);
            HealthyRun(l, c, xs) && EndLocal(l, xs) == AtCreation(ctx, ip)
  {
    var l := Start(Ensure, ctx);
    SearchAnswers(ctx, ip);
    SearchesServed(ctx, c, ip);
    OneMoreAnswer(l.(pc := FindSpecIp), c, Ips([ip]), AtCreation(ctx, ip), []);
    assert [Exchange(Ips([ip]), c)] + [] == [Exchange(Ips([ip]), c)];
    OneMoreAnswer(l.(pc := FindIpByTag), c, Ips([]), l.(pc := FindSpecIp), [Exchange(Ips([ip]), c)]);
    assert [Exchange(Ips([]), c)] + [Exchange(Ips([ip]), c)] == [Exchange(Ips([]), c), Exchange(Ips([ip]), c)];
  }

  lemma {:induction false} OneMoreAnswer(l: Local, c: State, resp: Response, l': Local, rest: seq<Exchange>)
    requires l.Busy? && Healthy(c, Issue(l), resp, c) && Resume(l, resp) == l' && HealthyRun(l', c, rest)
    ensures var xs := [Exchange(resp, c)] + rest; HealthyRun(l, c, xs) && EndLocal(l, xs) == EndLocal(l', rest)
  {
    assert ([Exchange(resp, c)] + rest)[1..] == rest;
  }

  lemma SearchesServed(ctx: Ctx, c: State, ip: PublicIp)
    requires Asks(ctx, ip) && c.rules == map[] && ip.id in c.ips && c.ips[ip.id] == ip
    requires forall id :: id in c.ips ==> c.ips[id].tags == [] && c.ips[id].id == id && (c.ips[id].address == ip.address ==> id == ip.id)
    ensures var l := Start(Ensure, ctx);
            && Healthy(c, Issue(l), Rules([]), c) && Healthy(c, Issue(l.(pc := ListByTag)), Rules([]), c)
            && Healthy(c, Issue(l.(pc := FindIpByTag)), Ips([]), c) && Healthy(c, Issue(l.(pc := FindSpecIp)), Ips([ip]), c)
  {
  }

  lemma SearchAnswers(ctx: Ctx, ip: PublicIp)
    requires Asks(ctx, ip)
    ensures var l := Start(Ensure, ctx);
            && Resume(l, Rules([])) == l.(pc := ListByTag)
            && Resume(l.(pc := ListByTag), Rules([])) == l.(pc := FindIpByTag)
            && Resume(l.(pc := FindIpByTag), Ips([])) == l.(pc := FindSpecIp)
            && Resume(l.(pc := FindSpecIp), Ips([ip])) == AtCreation(ctx, ip)
  {
  }

  /** A creation that the server confirms. */
  function Creation(c: State, ctx: Ctx, ip: PublicIp, id: string): Exchange
    requires ctx.algorithm.Some? && ctx.ports.Ok?
  {
    var r := Rule(id, ctx.lbName, ctx.algorithm.value, ip.address, ip.id, ip.networkId, Ports.CreatedPorts(ctx.ports.value), []);
    Exchange(NewRule(r), AddRule(c, r))
  }

  lemma {:induction false} CreationConfirmed(c: State, ctx: Ctx, ip: PublicIp, id: string)
    requires ctx.algorithm.Some? && ctx.ports.Ok? && id !in c.usedRules && ip.id in c.ips && c.ips[ip.id] == ip
    ensures var (l, x) := (AtCreation(ctx, ip), Creation(c, ctx, ip, id));
            && HealthyRun(l, c, [x]) && EndLocal(l, [x]).Busy? && EndCloud(c, [x]) == x.cloud
  {
    var (l, x) := (AtCreation(ctx, ip), Creation(c, ctx, ip, id));
    assert [x][1..] == [];
    assert Healthy(c, Issue(l), x.resp, x.cloud);
  }

  /** The two calls, one after the other up to their creations, and then both creations. */
  function ClashMoves(a: Ctx, b: Ctx, c: State, x: PublicIp, y: PublicIp, first: string, second: string): seq<Move>
    requires a.algorithm.Some? && a.ports.Ok? && b.algorithm.Some? && b.ports.Ok?
  {
    var one := Creation(c, a, x, first);
    [Begin(0, Ensure, a)] + [Begin(1, Ensure, b)] + AnswersOf(0, Searches(c, x)) + AnswersOf(1, Searches(c, y))
    + AnswersOf(0, [one]) + AnswersOf(1, [Creation(one.cloud, b, y, second)])
  }

  /** Two services with the same balancer name, each asking for an address of its own: without a single
      failed request their calls leave two rules with that name. */
  lemma SharedNameBreaks(a: Ctx, b: Ctx, x: PublicIp, y: PublicIp, first: string, second: string)
    requires a.service != b.service && a.lbName == b.lbName && first != second
    requires x.id != y.id && x.address != y.address && Asks(a, x) && Asks(b, y)
    ensures var c := State(map[], map[x.id := x, y.id := y], {}, {x.id, y.id});
            var moves := ClashMoves(a, b, c, x, y, first, second);
            WellFormed(c) && AtMostOneNamed(c, a.lbName) && IsSharedRun(c, moves) && !AtMostOneNamed(Run(c, moves).cloud, a.lbName)
  {
    var c := State(map[], map[x.id := x, y.id := y], {}, {x.id, y.id});
    var started := [Begin(0, Ensure, a)] + [Begin(1, Ensure, b)];
    BothStart(c, a, b);
    SearchesToCreation(a, c, x);
    SearchesToCreation(b, c, y);
    Plays(c, started, 0, Start(Ensure, a), Searches(c, x));
    var moves1 := started + AnswersOf(0, Searches(c, x));
    Plays(c, moves1, 1, Start(Ensure, b), Searches(c, y));
    var moves2 := moves1 + AnswersOf(1, Searches(c, y));
    var one := Creation(c, a, x, first);
    CreationConfirmed(c, a, x, first);
    Plays(c, moves2, 0, AtCreation(a, x), [one]);
    var moves3 := moves2 + AnswersOf(0, [one]);
    CreationConfirmed(one.cloud, b, y, second);
    Plays(c, moves3, 1, AtCreation(b, y), [Creation(one.cloud, b, y, second)]);
    var end := Creation(one.cloud, b, y, second).cloud;
    assert first in end.rules && second in end.rules;
  }

  lemma {:induction false} BothStart(c: State, a: Ctx, b: Ctx)
    requires a.service != b.service
    ensures var moves := [Begin(0, Ensure, a)] + [Begin(1, Ensure, b)];
            IsSharedRun(c, moves) && Run(c, moves) == World(c, map[0 := Start(Ensure, a), 1 := Start(Ensure, b)])
  {
    SharedOn(c, [], Begin(0, Ensure, a));
    assert [] + [Begin(0, Ensure, a)] == [Begin(0, Ensure, a)];
    SharedOn(c, [Begin(0, Ensure, a)], Begin(1, Ensure, b));
  }
}
