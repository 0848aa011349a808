/** The deployments watcher: the registry that tracks one per-deployment
    watcher for every active deployment while this server is the leader.

    As in the batcher module, `RegistryView` and its step functions are the
    registry as a value, with the lemmas about several calls; the class
    `Watcher` is the object of the source, whose methods are proved to move
    `View()` exactly as the step functions say and to keep `Valid()`.

    The collaborators are inputs: the job lookup is a function from job ID to
    its answer, the blocking list query a sequence of attempts (the rate
    limiter's answer, then the list's), the consensus write's answer a value
    handed to the batcher, and the per-deployment watcher an opaque handle that
    records the calls it receives. */
module Registry {
  import opened Structs
  import Batcher

  /** What the job lookup answered for a deployment's job. */
  datatype JobLookup = LookupFailed(err: Error) | NoJob | Found(job: Job)

  // ---------------------------------------------------------------------------
  // The blocking list query
  // ---------------------------------------------------------------------------

  /** What the state-read collaborator's `List` answered. */
  datatype ListResult = Listed(resp: DeploymentListResponse) | ListFailed(err: Error)

  /** One pass of the query loop: the rate limiter's `Wait` (None when a token
      was granted) and, if it was granted, what `List` answered. */
  datatype Attempt = Attempt(wait: Option<Error>, list: ListResult)

  /** How the query ended. `Exhausted`: the attempts supplied ran out before the
      index advanced; the source would go on waiting. */
  datatype PollResult = Got(resp: DeploymentListResponse) | Failed(err: Error) | Exhausted

  /** The blocking list query of deployments_watcher.go:180-200 over the
      collaborators' answers: the first failure ends it, and a response is only
      accepted once its index has advanced past the requested minimum. */
  function Poll(index: nat, attempts: seq<Attempt>): (r: PollResult)
    ensures r.Got? ==> r.resp.index > index && exists a :: a in attempts && a.list == Listed(r.resp)
    ensures r.Failed? ==> exists a :: a in attempts && (a.wait == Some(r.err) || (a.wait.None? && a.list == ListFailed(r.err)))
    ensures r.Exhausted? ==> forall a :: a in attempts ==> a.wait.None? && a.list.Listed? && a.list.resp.index <= index
    decreases |attempts|
  {
    if attempts == [] then Exhausted
    else
      var a := attempts[0];
      if a.wait.Some? then Failed(a.wait.value)
      else if a.list.ListFailed? then Failed(a.list.err)
      else if a.list.resp.index > index then Got(a.list.resp)
      else
        var r := Poll(index, attempts[1..]);
        assert forall x :: x in attempts[1..] ==> x in attempts;
        r
  }

  /** What the discovery loop does after one query (deployments_watcher.go:148-175). */
  datatype LoopStep = Continue(index: nat) | Exit | Blocked

  function NextStep(dindex: nat, r: PollResult): LoopStep {
    match r
    case Got(resp) => Continue(resp.index)
    case Failed(e) => if e == Canceled then Exit else Continue(dindex)
    case Exhausted => Blocked
  }

  /** The discovery index never goes back, and it advances exactly when a
      response was processed; only cancellation ends the loop. */
  lemma DiscoveryIndexAdvances(dindex: nat, attempts: seq<Attempt>)
    ensures var step := NextStep(dindex, Poll(dindex, attempts));
      && (step.Continue? ==> (step.index > dindex <==> Poll(dindex, attempts).Got?))
      && (step.Continue? ==> step.index >= dindex)
      && (step.Exit? <==> Poll(dindex, attempts) == Failed(Canceled))
  {
  }

  // ---------------------------------------------------------------------------
  // The registry as a value
  // ---------------------------------------------------------------------------

  /** Whether the registry is enabled, which deployments it tracks, and its epoch
      (the generation of its cancellation scope and batcher). */
  datatype RegistryView = RegistryView(enabled: bool, tracked: set<string>, epoch: nat)

  /** deployments_watcher.go:203-232: a no-op when disabled or already tracked;
      otherwise the job lookup decides. */
  function AddStep(v: RegistryView, d: Deployment, lookup: JobLookup): (RegistryView, Option<Error>) {
    if !v.enabled || d.id in v.tracked then (v, None)
    else
      match lookup
      case LookupFailed(e) => (v, Some(e))
      case NoJob => (v, Some(UnknownJob(d.id, d.jobId)))
      case Found(_) => (v.(tracked := v.tracked + {d.id}), None)
  }

  /** deployments_watcher.go:236-250. */
  function RemoveStep(v: RegistryView, d: Deployment): RegistryView {
    if !v.enabled then v else v.(tracked := v.tracked - {d.id})
  }

  /** deployments_watcher.go:125-140: every watcher goes and a new epoch begins. */
  function FlushStep(v: RegistryView): RegistryView {
    v.(tracked := {}, epoch := v.epoch + 1)
  }

  /** deployments_watcher.go:111-122; the boolean says whether discovery starts. */
  function SetEnabledStep(v: RegistryView, enabled: bool): (RegistryView, bool) {
    if !enabled then (FlushStep(v.(enabled := false)), false)
    else (v.(enabled := true), !v.enabled)
  }

  /** How one listed deployment is handled by the discovery loop (deployments_watcher.go:164-172). */
  function ApplyOne(v: RegistryView, d: Deployment, getJob: string -> JobLookup): RegistryView {
    if d.active then AddStep(v, d, getJob(d.jobId)).0 else RemoveStep(v, d)
  }

  function ApplyList(v: RegistryView, ds: seq<Deployment>, getJob: string -> JobLookup): RegistryView
    decreases |ds|
  {
    if ds == [] then v else ApplyOne(ApplyList(v, ds[..|ds| - 1], getJob), ds[|ds| - 1], getJob)
  }

  /** Watchers exist only while the registry is enabled. */
  predicate RegistryInv(v: RegistryView) {
    !v.enabled ==> v.tracked == {}
  }

  lemma StepsPreserveRegistryInv(v: RegistryView, d: Deployment, lookup: JobLookup, b: bool)
    requires RegistryInv(v)
    ensures RegistryInv(AddStep(v, d, lookup).0)
    ensures RegistryInv(RemoveStep(v, d))
    ensures RegistryInv(FlushStep(v))
    ensures RegistryInv(SetEnabledStep(v, b).0)
  {
  }

  /** Adding a deployment twice tracks it once: after a successful add, a second
      add of the same deployment is a no-op, whatever the job lookup would say. */
  lemma AddIsIdempotent(v: RegistryView, d: Deployment, first: JobLookup, second: JobLookup)
    requires AddStep(v, d, first).1 == None
    ensures AddStep(AddStep(v, d, first).0, d, second) == (AddStep(v, d, first).0, None)
    ensures v.enabled ==> AddStep(v, d, first).0.tracked == v.tracked + {d.id}
  {
  }

  /** A failed add leaves the registry as it was. */
  lemma FailedAddChangesNothing(v: RegistryView, d: Deployment, lookup: JobLookup)
    requires AddStep(v, d, lookup).1.Some?
    ensures AddStep(v, d, lookup).0 == v
    ensures v.enabled && d.id !in v.tracked && !lookup.Found?
  {
  }

  /** Removing and then adding again re-creates tracking. */
  lemma RemoveThenAddRetracks(v: RegistryView, d: Deployment, job: Job)
    requires v.enabled
    ensures d.id !in RemoveStep(v, d).tracked
    ensures AddStep(RemoveStep(v, d), d, Found(job)) == (v.(tracked := v.tracked + {d.id}), None)
  {
    assert v.tracked - {d.id} + {d.id} == v.tracked + {d.id};
  }

  /** Flushing twice leaves the same watchers as flushing once: none. */
  lemma FlushIsIdempotent(v: RegistryView)
    ensures FlushStep(FlushStep(v)).tracked == FlushStep(v).tracked == {}
    ensures FlushStep(v).epoch > v.epoch
  {
  }

  /** Losing and regaining leadership leaves no watcher behind, starts a new
      epoch and starts discovery once. */
  lemma DisableThenEnableStartsFresh(v: RegistryView)
    ensures var (off, s1) := SetEnabledStep(v, false);
      var (on, s2) := SetEnabledStep(off, true);
      && on.enabled && on.tracked == {} && on.epoch == v.epoch + 1
      && !s1 && s2
  {
  }

  /** Enabling an enabled registry starts nothing and changes nothing. */
  lemma EnableWhenEnabledIsNoOp(v: RegistryView)
    requires v.enabled
    ensures SetEnabledStep(v, true) == (v, false)
  {
  }

  /** While disabled, discovery changes nothing. */
  lemma {:induction false} DisabledDiscoveryIsNoOp(v: RegistryView, ds: seq<Deployment>, getJob: string -> JobLookup)
    requires !v.enabled
    ensures ApplyList(v, ds, getJob) == v
    decreases |ds|
  {
    if ds != [] {
      DisabledDiscoveryIsNoOp(v, ds[..|ds| - 1], getJob);
    }
  }

  /** Discovery never changes the flag or the epoch. */
  lemma {:induction false} DiscoveryFrameAll(v: RegistryView, ds: seq<Deployment>, getJob: string -> JobLookup)
    ensures ApplyList(v, ds, getJob).enabled == v.enabled
    ensures ApplyList(v, ds, getJob).epoch == v.epoch
    decreases |ds|
  {
    if ds != [] {
      DiscoveryFrameAll(v, ds[..|ds| - 1], getJob);
    }
  }

  /** Discovery touches only the deployments it lists. */
  lemma {:induction false} DiscoveryFrame(v: RegistryView, ds: seq<Deployment>, getJob: string -> JobLookup, k: string)
    requires forall i :: 0 <= i < |ds| ==> ds[i].id != k
    ensures k in ApplyList(v, ds, getJob).tracked <==> k in v.tracked
    decreases |ds|
  {
    if ds != [] {
      DiscoveryFrame(v, ds[..|ds| - 1], getJob, k);
    }
  }

  /** While enabled, and with each deployment listed once, discovery leaves every
      active deployment whose job exists tracked, every terminal one untracked,
      and an active one whose job lookup failed as it was. */
  lemma {:induction false} DiscoveryTracksListed(v: RegistryView, ds: seq<Deployment>, getJob: string -> JobLookup)
    requires v.enabled
    requires forall i, j :: 0 <= i < j < |ds| ==> ds[i].id != ds[j].id
    ensures forall i :: 0 <= i < |ds| && ds[i].active && getJob(ds[i].jobId).Found? ==>
      ds[i].id in ApplyList(v, ds, getJob).tracked
    ensures forall i :: 0 <= i < |ds| && !ds[i].active ==>
      ds[i].id !in ApplyList(v, ds, getJob).tracked
    ensures forall i :: 0 <= i < |ds| && ds[i].active && !getJob(ds[i].jobId).Found? ==>
      (ds[i].id in ApplyList(v, ds, getJob).tracked <==> ds[i].id in v.tracked)
    decreases |ds|
  {
    if ds != [] {
      var prefix := ds[..|ds| - 1];
      var last := ds[|ds| - 1];
      DiscoveryTracksListed(v, prefix, getJob);
      DiscoveryFrame(v, prefix, getJob, last.id);
      DiscoveryFrameAll(v, prefix, getJob);
      assert forall i :: 0 <= i < |prefix| ==> prefix[i] == ds[i] && prefix[i].id != last.id;
    }
  }

  /** One iteration of the discovery loop as its collaborators answer it: the
      query's attempts, and the job lookup as it stands while that iteration's
      list is processed (the source looks the job up afresh on every add). */
  datatype Round = Round(attempts: seq<Attempt>, getJob: string -> JobLookup)

  /** The discovery loop (deployments_watcher.go:144-176) over successive
      rounds: the registry it leaves and the indices of the responses it
      processed, in order. A
      cancellation ends it, any other failure retries at the same index, and a
      query that runs out of answers ends it where the source would block. */
  function Discover(v: RegistryView, dindex: nat, rounds: seq<Round>): (RegistryView, seq<nat>)
    decreases |rounds|
  {
    if rounds == [] then (v, [])
    else
      match Poll(dindex, rounds[0].attempts)
      case Got(resp) =>
        var (u, ps) := Discover(ApplyList(v, resp.deployments, rounds[0].getJob), resp.index, rounds[1..]);
        (u, [resp.index] + ps)
      case Failed(e) => if e == Canceled then (v, []) else Discover(v, dindex, rounds[1..])
      case Exhausted => (v, [])
  }

  /** The indices discovery processes start past the index it began at and
      strictly increase, because a query only accepts a response whose index
      has advanced; discovery never changes the flag or the epoch, and while
      disabled it changes nothing. */
  lemma {:induction false} DiscoveryIndicesIncrease(v: RegistryView, dindex: nat, rounds: seq<Round>)
    ensures var ps := Discover(v, dindex, rounds).1;
      && (forall i :: 0 <= i < |ps| ==> ps[i] > dindex)
      && (forall i, j :: 0 <= i < j < |ps| ==> ps[i] < ps[j])
    ensures Discover(v, dindex, rounds).0.enabled == v.enabled
    ensures Discover(v, dindex, rounds).0.epoch == v.epoch
    ensures !v.enabled ==> Discover(v, dindex, rounds).0 == v
    decreases |rounds|
  {
    if rounds != [] {
      match Poll(dindex, rounds[0].attempts)
      case Got(resp) =>
        var u := ApplyList(v, resp.deployments, rounds[0].getJob);
        DiscoveryFrameAll(v, resp.deployments, rounds[0].getJob);
        if !v.enabled {
          DisabledDiscoveryIsNoOp(v, resp.deployments, rounds[0].getJob);
        }
        DiscoveryIndicesIncrease(u, resp.index, rounds[1..]);
      case Failed(e) =>
        if e != Canceled {
          DiscoveryIndicesIncrease(v, dindex, rounds[1..]);
        }
      case Exhausted =>
    }
  }

  /** Two accepted rounds of discovery: whatever the first round's lookup
      answered, an active deployment that the second response lists (each ID
      once) ends up tracked when the second round's lookup finds its job. Each
      round consults the lookup afresh, as every `add` does
      (deployments_watcher.go:218-229). */
  lemma LaterLookupIsHeeded(v: RegistryView, dindex: nat, first: Round, second: Round, d: Deployment)
    requires v.enabled && d.active
    requires Poll(dindex, first.attempts).Got?
    requires var r2 := Poll(Poll(dindex, first.attempts).resp.index, second.attempts);
      && r2.Got?
      && d in r2.resp.deployments
      && forall i, j :: 0 <= i < j < |r2.resp.deployments| ==> r2.resp.deployments[i].id != r2.resp.deployments[j].id
    requires second.getJob(d.jobId).Found?
    ensures d.id in Discover(v, dindex, [first, second]).0.tracked
  {
    var r1 := Poll(dindex, first.attempts).resp;
    var u := ApplyList(v, r1.deployments, first.getJob);
    DiscoveryFrameAll(v, r1.deployments, first.getJob);
    var r2 := Poll(r1.index, second.attempts).resp;
    var w := ApplyList(u, r2.deployments, second.getJob);
    DiscoveryTracksListed(u, r2.deployments, second.getJob);
    assert d.id in w.tracked;
    assert [first, second][1..] == [second];
    assert [second][1..] == [];
    assert Discover(u, r1.index, [second]).0 == w;
  }

  // ---------------------------------------------------------------------------
  // The objects
  // ---------------------------------------------------------------------------

  /** The handle of a per-deployment watcher. Its policy is not part of this
      model: it records whether it was stopped and which requests it was handed,
      and answers what its caller is told it answers. */
  class DeploymentWatcher {
    const deployment: Deployment
    const job: Job
    const epoch: nat
    ghost var stopped: bool
    ghost var requests: seq<Request>

    constructor (deployment: Deployment, job: Job, epoch: nat)
      ensures this.deployment == deployment && this.job == job && this.epoch == epoch
      ensures !stopped && requests == []
    {
      this.deployment := deployment;
      this.job := job;
      this.epoch := epoch;
      stopped := false;
      requests := [];
    }

    method StopWatch()
      modifies this
      ensures stopped && requests == old(requests)
    {
      stopped := true;
    }

    method SetAllocHealth(req: Request, answer: Option<Error>) returns (err: Option<Error>)
      modifies this
      ensures err == answer && requests == old(requests) + [req] && stopped == old(stopped)
    {
      requests := requests + [req];
      err := answer;
    }

    method PromoteDeployment(req: Request, answer: Option<Error>) returns (err: Option<Error>)
      modifies this
      ensures err == answer && requests == old(requests) + [req] && stopped == old(stopped)
    {
      requests := requests + [req];
      err := answer;
    }

    method PauseDeployment(req: Request, answer: Option<Error>) returns (err: Option<Error>)
      modifies this
      ensures err == answer && requests == old(requests) + [req] && stopped == old(stopped)
    {
      requests := requests + [req];
      err := answer;
    }
  }

  class Watcher {
    var enabled: bool
    var watchers: map<string, DeploymentWatcher>
    var epoch: nat                        // generation of `ctx`/`exitFn`
    var evalBatcher: Batcher.EvalBatcher

    ghost function View(): RegistryView
      reads this
    {
      RegistryView(enabled, watchers.Keys, epoch)
    }

    /** Every tracked watcher runs, belongs to the current epoch and to the
        deployment it is filed under; there are none while disabled. */
    ghost predicate Valid()
      reads this, watchers.Values
    {
      && RegistryInv(View())
      && forall k :: k in watchers ==>
        watchers[k].deployment.id == k && watchers[k].epoch == epoch && !watchers[k].stopped
    }

    constructor ()
      ensures Valid() && View() == RegistryView(false, {}, 0)
      ensures fresh(evalBatcher) && evalBatcher.Valid() && evalBatcher.View() == Batcher.InitView()
    {
      enabled := false;
      watchers := map[];
      epoch := 0;
      evalBatcher := new Batcher.EvalBatcher();
    }

    /** Turns the registry on or off; the result says whether a discovery loop
        is to be started. */
    method SetEnabled(enabled: bool) returns (startDiscovery: bool)
      requires Valid()
      modifies this, watchers.Values, evalBatcher
      ensures Valid()
      ensures (View(), startDiscovery) == SetEnabledStep(old(View()), enabled)
      ensures !enabled ==> forall h :: h in old(watchers).Values ==> h.stopped
      ensures !enabled ==> old(evalBatcher).done && fresh(evalBatcher) && evalBatcher.Valid()
      ensures !enabled ==> evalBatcher.View() == Batcher.InitView()
      ensures enabled ==> watchers == old(watchers) && evalBatcher == old(evalBatcher)
      ensures enabled ==> unchanged(evalBatcher)
      ensures enabled ==> forall h :: h in old(watchers.Values) ==> unchanged(h)
      ensures forall h :: h in old(watchers.Values) ==> h.requests == old(h.requests)
    {
      var wasEnabled := this.enabled;
      this.enabled := enabled;
      startDiscovery := false;
      if !enabled {
        Flush();
      } else if !wasEnabled {
        startDiscovery := true;
      }
    }

    /** Stops every watcher, cancels the epoch (and with it its batcher) and
        starts a new epoch with an empty map and a new batcher. */
    method Flush()
      modifies this, watchers.Values, evalBatcher
      ensures Valid()
      ensures View() == FlushStep(old(View()))
      ensures forall h :: h in old(watchers).Values ==> h.stopped
      ensures forall h :: h in old(watchers.Values) ==> h.requests == old(h.requests)
      ensures old(evalBatcher).done
      ensures fresh(evalBatcher) && evalBatcher.Valid() && evalBatcher.View() == Batcher.InitView()
    {
      var rest := watchers.Keys;
      while rest != {}
        invariant rest <= watchers.Keys
        invariant watchers == old(watchers) && enabled == old(enabled) && epoch == old(epoch)
        invariant evalBatcher == old(evalBatcher)
        invariant forall k :: k in watchers && k !in rest ==> watchers[k].stopped
        invariant forall h :: h in old(watchers.Values) ==> h.requests == old(h.requests)
        decreases rest
      {
        var k :| k in rest;
        watchers[k].StopWatch();
        rest := rest - {k};
      }
      evalBatcher.Cancel();
      watchers := map[];
      epoch := epoch + 1;
      evalBatcher := new Batcher.EvalBatcher();
    }

    /** Starts watching an active deployment, given what the job lookup answers. */
    method Add(d: Deployment, lookup: JobLookup) returns (err: Option<Error>)
      requires Valid()
      modifies this
      ensures Valid()
      ensures (View(), err) == AddStep(old(View()), d, lookup)
      ensures evalBatcher == old(evalBatcher)
      ensures View() == old(View()) ==> watchers == old(watchers)
      ensures View() != old(View()) ==>
        && lookup.Found? && d.id in watchers && fresh(watchers[d.id])
        && watchers == old(watchers)[d.id := watchers[d.id]]
        && watchers[d.id].deployment == d && watchers[d.id].job == lookup.job
        && watchers[d.id].epoch == epoch
    {
      if !enabled {
        return None;
      }
      if d.id in watchers {
        return None;
      }
      match lookup
      case LookupFailed(e) =>
        return Some(e);
      case NoJob =>
        return Some(UnknownJob(d.id, d.jobId));
      case Found(job) =>
        var h := new DeploymentWatcher(d, job, epoch);
        watchers := watchers[d.id := h];
        assert watchers.Keys == old(watchers).Keys + {d.id};
        return None;
    }

    /** Stops watching a deployment that is complete or deleted. */
    method Remove(d: Deployment)
      requires Valid()
      modifies this, if d.id in watchers then {watchers[d.id]} else {}
      ensures Valid()
      ensures View() == RemoveStep(old(View()), d)
      ensures evalBatcher == old(evalBatcher)
      ensures old(enabled) && d.id in old(watchers) ==>
        old(watchers)[d.id].stopped && watchers == old(watchers) - {d.id}
      ensures !(old(enabled) && d.id in old(watchers)) ==> watchers == old(watchers)
      ensures forall h :: h in old(watchers.Values) ==> h.requests == old(h.requests)
    {
      if !enabled {
        return;
      }
      if d.id in watchers {
        watchers[d.id].StopWatch();
        watchers := watchers - {d.id};
      }
    }

    /** Forwards an allocation health request to the deployment's watcher. */
    method SetAllocHealth(req: Request, answer: Option<Error>) returns (err: Option<Error>)
      requires Valid() && req.AllocHealth?
      modifies if req.deploymentId in watchers then {watchers[req.deploymentId]} else {}
      ensures Valid()
      ensures !enabled ==> err == None
      ensures enabled && req.deploymentId !in watchers ==> err == Some(NotWatched(req.deploymentId))
      ensures enabled && req.deploymentId in watchers ==>
        err == answer && watchers[req.deploymentId].requests == old(watchers[req.deploymentId].requests) + [req]
    {
      if !enabled {
        return None;
      }
      if req.deploymentId !in watchers {
        return Some(NotWatched(req.deploymentId));
      }
      err := watchers[req.deploymentId].SetAllocHealth(req, answer);
    }

    /** Forwards a promotion request to the deployment's watcher. */
    method PromoteDeployment(req: Request, answer: Option<Error>) returns (err: Option<Error>)
      requires Valid() && req.Promote?
      modifies if req.deploymentId in watchers then {watchers[req.deploymentId]} else {}
      ensures Valid()
      ensures !enabled ==> err == None
      ensures enabled && req.deploymentId !in watchers ==> err == Some(NotWatched(req.deploymentId))
      ensures enabled && req.deploymentId in watchers ==>
        err == answer && watchers[req.deploymentId].requests == old(watchers[req.deploymentId].requests) + [req]
    {
      if !enabled {
        return None;
      }
      if req.deploymentId !in watchers {
        return Some(NotWatched(req.deploymentId));
      }
      err := watchers[req.deploymentId].PromoteDeployment(req, answer);
    }

    /** Forwards a pause request to the deployment's watcher. */
    method PauseDeployment(req: Request, answer: Option<Error>) returns (err: Option<Error>)
      requires Valid() && req.Pause?
      modifies if req.deploymentId in watchers then {watchers[req.deploymentId]} else {}
      ensures Valid()
      ensures !enabled ==> err == None
      ensures enabled && req.deploymentId !in watchers ==> err == Some(NotWatched(req.deploymentId))
      ensures enabled && req.deploymentId in watchers ==>
        err == answer && watchers[req.deploymentId].requests == old(watchers[req.deploymentId].requests) + [req]
    {
      if !enabled {
        return None;
      }
      if req.deploymentId !in watchers {
        return Some(NotWatched(req.deploymentId));
      }
      err := watchers[req.deploymentId].PauseDeployment(req, answer);
    }

    /** Hands an evaluation to the current epoch's batcher; the caller then waits
        on the returned future's `Results`. */
    method CreateEvaluation(e: Evaluation) returns (fut: Batcher.EvalFuture)
      requires evalBatcher.Valid()
      modifies evalBatcher
      ensures evalBatcher.Valid()
      ensures evalBatcher.View() == Batcher.SubmitStep(old(evalBatcher.View()), e)
      ensures old(evalBatcher.f) != null ==> fut == old(evalBatcher.f)
      ensures old(evalBatcher.f) == null ==> fresh(fut)
      ensures evalBatcher.f == fut && !fut.closed
    {
      fut := evalBatcher.CreateEval(e);
    }

    /** The blocking list query: waits for a token, lists, and repeats until the
        answer's index has advanced past `index`. */
    method GetDeploys(index: nat, attempts: seq<Attempt>) returns (r: PollResult)
      ensures r == Poll(index, attempts)
      ensures r.Got? ==> r.resp.index > index
    {
      var resp := DeploymentListResponse([], 0);
      var i := 0;
      while resp.index <= index
        invariant i <= |attempts|
        invariant resp.index <= index ==> Poll(index, attempts) == Poll(index, attempts[i..])
        invariant resp.index > index ==> Poll(index, attempts) == Got(resp)
        decreases |attempts| - i
      {
        if i == |attempts| {
          return Exhausted;
        }
        var a := attempts[i];
        if a.wait.Some? {
          return Failed(a.wait.value);
        }
        if a.list.ListFailed? {
          return Failed(a.list.err);
        }
        resp := a.list.resp;
        i := i + 1;
      }
      return Got(resp);
    }

    /** Tracks every listed active deployment and untracks every listed terminal one. */
    method ProcessDeployments(ds: seq<Deployment>, getJob: string -> JobLookup)
      requires Valid()
      modifies this, watchers.Values
      ensures Valid()
      ensures View() == ApplyList(old(View()), ds, getJob)
      ensures evalBatcher == old(evalBatcher)
      ensures forall k :: k in watchers ==> watchers[k] in old(watchers.Values) || fresh(watchers[k])
      ensures forall k :: k in old(watchers) && k !in watchers ==> old(watchers)[k].stopped
      ensures forall k :: k in old(watchers) && k in watchers ==> watchers[k] == old(watchers)[k] || old(watchers)[k].stopped
      ensures forall h :: h in old(watchers.Values) ==> h.requests == old(h.requests)
    {
      var i := 0;
      while i < |ds|
        invariant i <= |ds|
        invariant Valid()
        invariant View() == ApplyList(old(View()), ds[..i], getJob)
        invariant evalBatcher == old(evalBatcher)
        invariant forall k :: k in watchers ==> watchers[k] in old(watchers.Values) || fresh(watchers[k])
        invariant forall k :: k in old(watchers) && k !in watchers ==> old(watchers)[k].stopped
        invariant forall k :: k in old(watchers) && k in watchers ==> watchers[k] == old(watchers)[k] || old(watchers)[k].stopped
        invariant forall h :: h in old(watchers.Values) ==> h.requests == old(h.requests)
      {
        var d := ds[i];
        if d.active {
          var err := Add(d, getJob(d.jobId));
        } else {
          Remove(d);
        }
        assert ds[..i + 1][..i] == ds[..i];
        i := i + 1;
      }
      assert ds[..i] == ds;
    }

    /** One iteration of the discovery loop: query at `dindex`, then act on the
        answer. A canceled scope ends the loop; any other failure retries at the
        same index; a response is processed and its index becomes the next one.
        `r` is the query's outcome. */
    method WatchStep(dindex: nat, attempts: seq<Attempt>, getJob: string -> JobLookup) returns (step: LoopStep, r: PollResult)
      requires Valid()
      modifies this, watchers.Values
      ensures Valid()
      ensures r == Poll(dindex, attempts) && step == NextStep(dindex, r)
      ensures r.Got? ==> View() == ApplyList(old(View()), r.resp.deployments, getJob)
      ensures !r.Got? ==> watchers == old(watchers) && View() == old(View())
      ensures evalBatcher == old(evalBatcher)
      ensures forall k :: k in watchers ==> watchers[k] in old(watchers.Values) || fresh(watchers[k])
      ensures forall k :: k in old(watchers) && k !in watchers ==> old(watchers)[k].stopped
      ensures forall k :: k in old(watchers) && k in watchers ==> watchers[k] == old(watchers)[k] || old(watchers)[k].stopped
      ensures forall h :: h in old(watchers.Values) ==> h.requests == old(h.requests)
    {
      r := GetDeploys(dindex, attempts);
      match r
      case Failed(e) =>
        if e == Canceled {
          return Exit, r;
        }
        return Continue(dindex), r;
      case Exhausted =>
        return Blocked, r;
      case Got(resp) =>
        ProcessDeployments(resp.deployments, getJob);
        return Continue(resp.index), r;
    }

    /** The discovery loop over successive rounds, each with its query's
        attempts and the job lookup of that iteration. It leaves the registry and returns the indices of
        the processed responses exactly as `Discover` says; those indices
        strictly increase, and every watcher it untracked was stopped. */
    method WatchDeployments(rounds: seq<Round>) returns (processed: seq<nat>)
      requires Valid()
      modifies this, watchers.Values
      ensures Valid()
      ensures (View(), processed) == Discover(old(View()), 0, rounds)
      ensures forall i, j :: 0 <= i < j < |processed| ==> processed[i] < processed[j]
      ensures enabled == old(enabled) && epoch == old(epoch) && evalBatcher == old(evalBatcher)
      ensures forall k :: k in old(watchers) && k !in watchers ==> old(watchers)[k].stopped
      ensures forall h :: h in old(watchers.Values) ==> h.requests == old(h.requests)
    {
      DiscoveryIndicesIncrease(View(), 0, rounds);
      var dindex := 0;
      processed := [];
      var n := 0;
      assert rounds[n..] == rounds;
      assert processed + Discover(View(), 0, rounds).1 == Discover(View(), 0, rounds).1;
      while n < |rounds|
        invariant n <= |rounds|
        invariant Valid()
        invariant Discover(old(View()), 0, rounds)
          == (Discover(View(), dindex, rounds[n..]).0, processed + Discover(View(), dindex, rounds[n..]).1)
        invariant evalBatcher == old(evalBatcher)
        invariant forall k :: k in watchers ==> watchers[k] in old(watchers.Values) || fresh(watchers[k])
        invariant forall k :: k in old(watchers) && k !in watchers ==> old(watchers)[k].stopped
        invariant forall k :: k in old(watchers) && k in watchers ==> watchers[k] == old(watchers)[k] || old(watchers)[k].stopped
        invariant forall h :: h in old(watchers.Values) ==> h.requests == old(h.requests)
      {
        ghost var v := View();
        ghost var before := processed;
        assert rounds[n..][0] == rounds[n] && rounds[n..][1..] == rounds[n + 1..];
        var step, r := WatchStep(dindex, rounds[n].attempts, rounds[n].getJob);
        match step
        case Exit =>
          break;
        case Blocked =>
          break;
        case Continue(next) =>
          if r.Got? {
            processed := processed + [next];
            ghost var ps := Discover(View(), next, rounds[n + 1..]).1;
            assert Discover(v, dindex, rounds[n..]).1 == [next] + ps;
            assert before + ([next] + ps) == processed + ps;
          }
          dindex := next;
        n := n + 1;
      }
      assert n == |rounds| ==> rounds[n..] == [];
      assert Discover(View(), dindex, rounds[n..]) == (View(), []);
      assert processed + [] == processed;
    }
  }

  /** A leadership cycle: the server becomes leader, submits an evaluation,
      loses leadership before the batch window closes and becomes leader again.
      The new epoch starts with no watchers and an empty batcher, and the
      evaluation's future is left unresolved. */
  method LeadershipCycle(e: Evaluation) returns (w: Watcher, fut: Batcher.EvalFuture)
    ensures w.Valid() && w.enabled && w.watchers == map[] && w.epoch == 1
    ensures w.evalBatcher.Valid() && w.evalBatcher.View() == Batcher.InitView()
    ensures w.evalBatcher.f != fut && !fut.closed
  {
    w := new Watcher();
    var started := w.SetEnabled(true);
    assert started;
    fut := w.CreateEvaluation(e);
    assert w.evalBatcher.evals == map[e.deploymentId := e];
    started := w.SetEnabled(false);
    started := w.SetEnabled(true);
  }
}
