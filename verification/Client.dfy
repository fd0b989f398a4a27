/** The CloudStack client one call uses: a cloud, and the answers the server will give. */
module Client {
  import opened Wrappers
  import opened Cloud
  import opened Reconciler
  import opened ReconcilerFixpoint

  /** The answers are ones a server may give to the requests the call will make. */
  ghost predicate Legal(l: Local, c: State, script: seq<Exchange>)
    decreases |script|
  {
    script == [] || l.Finished? ||
    (Serve(c, Issue(l), script[0].resp, script[0].cloud) && Legal(Resume(l, script[0].resp), script[0].cloud, script[1..]))
  }

  lemma {:induction false} HealthyRunGrows(l: Local, c: State, xs: seq<Exchange>, x: Exchange)
    requires HealthyRun(l, c, xs) && EndLocal(l, xs).Busy?
    requires Healthy(EndCloud(c, xs), Issue(EndLocal(l, xs)), x.resp, x.cloud)
    ensures HealthyRun(l, c, xs + [x])
    decreases |xs|
  {
    if xs != [] {
      HealthyRunGrows(Resume(l, xs[0].resp), xs[0].cloud, xs[1..], x);
      assert (xs + [x])[1..] == xs[1..] + [x];
    }
  }

  lemma {:induction false} EndGrows(l: Local, xs: seq<Exchange>, x: Exchange)
    requires EndLocal(l, xs).Busy?
    ensures EndLocal(l, xs + [x]) == Resume(EndLocal(l, xs), x.resp)
    decreases |xs|
  {
    if xs != [] {
      EndGrows(Resume(l, xs[0].resp), xs[1..], x);
      assert (xs + [x])[1..] == xs[1..] + [x];
    }
  }

  /** The call's place, its log and its history belong together. */
  ghost predicate Follows(kind: Kind, ctx: Ctx, origin: State, at: Local, log: seq<Event>, history: seq<Exchange>,
                          healthy: bool, cloud: State)
  {
    && Reconciler.After(Start(kind, ctx), log) == Some(at)
    && EndLocal(Start(kind, ctx), history) == at && EndCloud(origin, history) == cloud
    && (healthy ==> HealthyRun(Start(kind, ctx), origin, history))
  }

  lemma FollowsOn(kind: Kind, ctx: Ctx, origin: State, at: Local, log: seq<Event>, history: seq<Exchange>,
                  healthy: bool, cloud: State, answer: Exchange)
    requires Follows(kind, ctx, origin, at, log, history, healthy, cloud) && at.Busy?
    ensures Follows(kind, ctx, origin, Resume(at, answer.resp), log + [Event(Issue(at), answer.resp)], history + [answer],
                    healthy && Healthy(cloud, Issue(at), answer.resp, answer.cloud), answer.cloud)
  {
    if healthy && Healthy(cloud, Issue(at), answer.resp, answer.cloud) {
      HealthyRunGrows(Start(kind, ctx), origin, history, answer);
    }
    EndGrows(Start(kind, ctx), history, answer);
    assert (log + [Event(Issue(at), answer.resp)])[..|log|] == log;
  }

  class Client {
    var cloud: State
    var script: seq<Exchange>

    /** Where the call stands as a program of requests, what it has seen, and whether any request
        has failed so far. */
    ghost var at: Local
    ghost var log: seq<Event>
    ghost var history: seq<Exchange>
    ghost var healthy: bool
    ghost const kind: Kind
    ghost const ctx: Ctx
    ghost const origin: State

    constructor (cloud: State, script: seq<Exchange>, ghost kind: Kind, ghost ctx: Ctx)
      requires Legal(Start(kind, ctx), cloud, script)
      ensures Valid() && at == Start(kind, ctx) && healthy
      ensures this.cloud == origin == cloud && this.kind == kind && this.ctx == ctx
    {
      this.cloud, this.script, this.origin := cloud, script, cloud;
      this.kind, this.ctx := kind, ctx;
      at, log, history, healthy := Start(kind, ctx), [], [], true;
    }

    ghost predicate Valid()
      reads this
    {
      Legal(at, cloud, script) && Follows(kind, ctx, origin, at, log, history, healthy, cloud)
    }

    /** The call stands at `l`. */
    ghost predicate Stands(l: Local)
      reads this
    {
      Valid() && at == l
    }

    /** The call stands where the program makes this request. */
    ghost predicate Waits(req: Request)
      reads this
    {
      Valid() && at.Busy? && Issue(at) == req
    }

    /** One request: the next answer of the script, or a failure once there are no more. */
    method Call(req: Request) returns (resp: Response)
      requires Waits(req)
      modifies this
      ensures Valid() && at == Resume(old(at), resp)
      ensures Serve(old(cloud), req, resp, cloud)
      ensures healthy <==> old(healthy) && Healthy(old(cloud), req, resp, cloud)
    {
      var answer := Exchange(Failed, cloud);
      CanFail(cloud, req);
      if script != [] {
        answer := script[0];
        script := script[1..];
      }
      FollowsOn(kind, ctx, origin, at, log, history, healthy, cloud, answer);
      healthy := healthy && Healthy(cloud, req, answer.resp, answer.cloud);
      history := history + [answer];
      log := log + [Event(req, answer.resp)];
      at := Resume(at, answer.resp);
      cloud := answer.cloud;
      resp := answer.resp;
    }

    /** The same, as much of it as the call itself can see. */
    method Ask(req: Request) returns (resp: Response)
      requires Waits(req)
      modifies this
      ensures Valid() && at == Resume(old(at), resp)
    {
      resp := Call(req);
    }
  }
}
