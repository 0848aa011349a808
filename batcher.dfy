/** The evaluation batcher of the deployment watcher: evaluations submitted
    during one window are coalesced per deployment (last write wins) and
    committed in a single consensus write when the window's timer fires; every
    submitter of the window holds the same future, resolved with that write's
    result.

    The module has two layers. `BatcherView` and its step functions are the
    batcher as a value, with the lemmas about whole runs of events. The classes
    `EvalFuture` and `EvalBatcher` are the objects of the source, whose methods
    are proved to move their `View()` exactly as the step functions say. */
module Batcher {
  import opened Structs

  /** What the consensus write `UpsertEvals` answered: a commit index and an optional error. */
  datatype WriteResult = WriteResult(index: nat, err: Option<Error>)

  // ---------------------------------------------------------------------------
  // Pending evaluations
  // ---------------------------------------------------------------------------

  /** The pending map is keyed by each evaluation's own deployment ID. */
  predicate Keyed(m: map<string, Evaluation>) {
    forall k :: k in m ==> m[k].deploymentId == k
  }

  /** The batcher loop receiving an evaluation: it replaces whatever was pending
      for the same deployment and leaves every other deployment alone. */
  function Receive(pending: map<string, Evaluation>, e: Evaluation): (r: map<string, Evaluation>)
    ensures e.deploymentId in r && r[e.deploymentId] == e
    ensures r.Keys == pending.Keys + {e.deploymentId}
    ensures forall k :: k in pending && k != e.deploymentId ==> r[k] == pending[k]
    ensures Keyed(pending) ==> Keyed(r)
  {
    pending[e.deploymentId := e]
  }

  /** `all` is what one `UpsertEvals` call must carry for the pending map `m`:
      every pending evaluation, each once, one per distinct deployment ID. */
  predicate IsBatchOf(all: seq<Evaluation>, m: map<string, Evaluation>) {
    && |all| == |m|
    && (forall i :: 0 <= i < |all| ==> all[i].deploymentId in m && m[all[i].deploymentId] == all[i])
    && (forall k :: k in m ==> m[k] in all)
    && (forall i, j :: 0 <= i < j < |all| ==> all[i].deploymentId != all[j].deploymentId)
  }

  /** Copies the pending map into the slice handed to `UpsertEvals`. The source
      ranges over a Go map, whose order is unspecified; so is the order here. */
  method CaptureEvals(evals: map<string, Evaluation>) returns (all: seq<Evaluation>)
    requires Keyed(evals)
    ensures IsBatchOf(all, evals)
  {
    all := [];
    var rest := evals.Keys;
    while rest != {}
      invariant rest <= evals.Keys
      invariant |all| + |rest| == |evals|
      invariant forall i :: 0 <= i < |all| ==>
        all[i].deploymentId in evals && all[i].deploymentId !in rest && evals[all[i].deploymentId] == all[i]
      invariant forall k :: k in evals && k !in rest ==> evals[k] in all
      invariant forall i, j :: 0 <= i < j < |all| ==> all[i].deploymentId != all[j].deploymentId
      decreases rest
    {
      var k :| k in rest;
      all := all + [evals[k]];
      rest := rest - {k};
    }
  }

  /** The latest evaluation submitted for deployment `k` in `subs`, if any:
      the reference definition of last-write-wins. */
  function LatestFor(subs: seq<Evaluation>, k: string): (r: Option<Evaluation>)
    ensures r.None? <==> forall i :: 0 <= i < |subs| ==> subs[i].deploymentId != k
    ensures r.Some? ==> (r.value.deploymentId == k &&
      exists i :: 0 <= i < |subs| && subs[i] == r.value &&
        forall j :: i < j < |subs| ==> subs[j].deploymentId != k)
    decreases |subs|
  {
    if subs == [] then None
    else if subs[|subs| - 1].deploymentId == k then Some(subs[|subs| - 1])
    else
      var r := LatestFor(subs[..|subs| - 1], k);
      assert forall i :: 0 <= i < |subs| - 1 ==> subs[..|subs| - 1][i] == subs[i];
      r
  }

  // ---------------------------------------------------------------------------
  // The batcher as a value
  // ---------------------------------------------------------------------------

  /** The batcher's state. Futures are named by the order they were created in. */
  datatype BatcherView = BatcherView(
    pending: map<string, Evaluation>,        // the loop's `evals` map
    current: Option<nat>,                    // `b.f`: the future of the open window, if any
    created: nat,                            // how many futures were created; their names are 0 .. created-1
    resolved: map<nat, WriteResult>,         // the futures `Set` so far, with what they were set to
    writes: seq<map<string, Evaluation>>,    // the `UpsertEvals` calls so far, each as the map it wrote
    done: bool)                              // the epoch's scope was canceled and the loop returned

  function InitView(): BatcherView {
    BatcherView(map[], None, 0, map[], [], false)
  }

  /** The future a submission made in state `v` is handed. */
  function WindowOf(v: BatcherView): nat {
    if v.current.Some? then v.current.value else v.created
  }

  /** `CreateEval` followed by the loop receiving the evaluation (batcher.go:50-60, 71-72).
      Once the loop has returned nothing receives the evaluation any more. */
  function SubmitStep(v: BatcherView, e: Evaluation): BatcherView {
    v.(pending := if v.done then v.pending else Receive(v.pending, e),
       current := Some(WindowOf(v)),
       created := if v.current.Some? then v.created else v.created + 1)
  }

  /** The timer firing (batcher.go:73-99). */
  function TickStep(v: BatcherView, w: WriteResult): BatcherView {
    if v.done || |v.pending| == 0 then v
    else if v.current.None? then v      // the source's "shouldn't be possible" guard
    else v.(pending := map[], current := None,
            resolved := v.resolved[v.current.value := w],
            writes := v.writes + [v.pending])
  }

  /** The epoch's scope being canceled (batcher.go:68-70). */
  function CancelStep(v: BatcherView): BatcherView {
    v.(done := true)
  }

  datatype Event = Submit(e: Evaluation) | Tick(result: WriteResult) | Cancel

  function Step(v: BatcherView, ev: Event): BatcherView {
    match ev
    case Submit(e) => SubmitStep(v, e)
    case Tick(w) => TickStep(v, w)
    case Cancel => CancelStep(v)
  }

  function Run(v: BatcherView, evs: seq<Event>): BatcherView
    decreases |evs|
  {
    if evs == [] then v else Run(Step(v, evs[0]), evs[1..])
  }

  /** A run of submissions with no tick in between: one batch window. */
  function SubmitAll(v: BatcherView, subs: seq<Evaluation>): BatcherView
    decreases |subs|
  {
    if subs == [] then v else SubmitStep(SubmitAll(v, subs[..|subs| - 1]), subs[|subs| - 1])
  }

  /** The future each submission of the window is handed, in order. */
  function WindowsOf(v: BatcherView, subs: seq<Evaluation>): (ids: seq<nat>)
    ensures |ids| == |subs|
    decreases |subs|
  {
    if subs == [] then []
    else WindowsOf(v, subs[..|subs| - 1]) + [WindowOf(SubmitAll(v, subs[..|subs| - 1]))]
  }

  /** The batcher's invariant. */
  predicate Inv(v: BatcherView) {
    && InvCore(v)
    // while the loop runs, an open window has something pending
    && (!v.done && v.current.Some? ==> |v.pending| > 0)
  }

  /** The part of the invariant that also holds between `CreateEval` opening a
      window and the loop receiving the evaluation. */
  predicate InvCore(v: BatcherView) {
    && Keyed(v.pending)
    && (v.current.Some? ==> v.current.value < v.created && v.current.value !in v.resolved)
    && (forall id :: id in v.resolved ==> id < v.created)
    // something pending implies a future exists, so the nil-future guard never fires
    && (|v.pending| > 0 ==> v.current.Some?)
  }

  lemma InitSatisfiesInv()
    ensures Inv(InitView())
  {
  }

  lemma StepPreservesInv(v: BatcherView, ev: Event)
    requires Inv(v)
    ensures Inv(Step(v, ev))
  {
  }

  /** The invariant holds after any sequence of submissions, ticks and cancellations. */
  lemma {:induction false} RunPreservesInv(v: BatcherView, evs: seq<Event>)
    requires Inv(v)
    ensures Inv(Run(v, evs))
    decreases |evs|
  {
    if evs != [] {
      StepPreservesInv(v, evs[0]);
      RunPreservesInv(Step(v, evs[0]), evs[1..]);
    }
  }

  /** Under the invariant a tick with something pending always writes: the
      nil-future guard of batcher.go:84-87 is unreachable. */
  lemma NilFutureGuardUnreachable(v: BatcherView, w: WriteResult)
    requires Inv(v) && !v.done && |v.pending| > 0
    ensures TickStep(v, w).writes == v.writes + [v.pending]
    ensures TickStep(v, w).pending == map[]
  {
  }

  /** A future is resolved once: whatever it was set to, it keeps, through any later events. */
  lemma {:induction false} ResolvedIsFinal(v: BatcherView, evs: seq<Event>)
    requires Inv(v)
    ensures forall id :: id in v.resolved ==>
      id in Run(v, evs).resolved && Run(v, evs).resolved[id] == v.resolved[id]
    decreases |evs|
  {
    if evs != [] {
      StepPreservesInv(v, evs[0]);
      ResolvedIsFinal(Step(v, evs[0]), evs[1..]);
    }
  }

  /** Each event issues at most one consensus write, and only a tick issues one. */
  lemma AtMostOneWritePerEvent(v: BatcherView, ev: Event)
    ensures Step(v, ev).writes == v.writes || (ev.Tick? && Step(v, ev).writes == v.writes + [v.pending])
  {
  }

  /** After cancellation the batcher stays stopped and issues no further writes. */
  lemma {:induction false} CanceledIsTerminal(v: BatcherView, evs: seq<Event>)
    requires v.done
    ensures Run(v, evs).done
    ensures Run(v, evs).writes == v.writes
    ensures Run(v, evs).resolved == v.resolved
    decreases |evs|
  {
    if evs != [] {
      CanceledIsTerminal(Step(v, evs[0]), evs[1..]);
    }
  }

  /** Every submission of one window is handed the same future, and a window
      changes nothing but the pending map and the open future. */
  lemma {:induction false} SubmissionsShareFuture(v: BatcherView, subs: seq<Evaluation>)
    ensures forall i :: 0 <= i < |subs| ==> WindowsOf(v, subs)[i] == WindowOf(v)
    ensures subs != [] ==> SubmitAll(v, subs).current == Some(WindowOf(v))
    ensures SubmitAll(v, subs).created == if subs == [] || v.current.Some? then v.created else v.created + 1
    ensures SubmitAll(v, subs).resolved == v.resolved
    ensures SubmitAll(v, subs).writes == v.writes
    ensures SubmitAll(v, subs).done == v.done
    decreases |subs|
  {
    if subs != [] {
      var prefix := subs[..|subs| - 1];
      SubmissionsShareFuture(v, prefix);
      if prefix != [] {
        assert WindowOf(SubmitAll(v, prefix)) == WindowOf(v);
      }
    }
  }

  /** Last write wins: after a window, each deployment's pending evaluation is the
      latest one submitted for it, and deployments not submitted keep what they had. */
  lemma {:induction false} SubmitAllLastWriteWins(v: BatcherView, subs: seq<Evaluation>, k: string)
    requires !v.done
    ensures var p := SubmitAll(v, subs).pending;
      match LatestFor(subs, k)
      case Some(e) => k in p && p[k] == e
      case None => (k in p <==> k in v.pending) && (k in v.pending ==> p[k] == v.pending[k])
    decreases |subs|
  {
    if subs != [] {
      var prefix := subs[..|subs| - 1];
      SubmissionsShareFuture(v, prefix);
      SubmitAllLastWriteWins(v, prefix, k);
    }
  }

  /** One whole window from an idle batcher: an empty window writes nothing; a
      non-empty one ends in exactly one write of the window's pending map, and
      the one future every submitter holds is resolved with that write's result. */
  lemma WindowCommitsOnce(v: BatcherView, subs: seq<Evaluation>, w: WriteResult)
    requires Inv(v) && !v.done && v.pending == map[]
    ensures subs == [] ==> TickStep(SubmitAll(v, subs), w) == v
    ensures subs != [] ==>
      var after := TickStep(SubmitAll(v, subs), w);
      && after.writes == v.writes + [SubmitAll(v, subs).pending]
      && after.resolved == v.resolved[WindowOf(v) := w]
      && after.pending == map[] && after.current == None
      && (forall i :: 0 <= i < |subs| ==> WindowsOf(v, subs)[i] == WindowOf(v))
  {
    SubmissionsShareFuture(v, subs);
    if subs != [] {
      var last := subs[|subs| - 1];
      SubmitAllLastWriteWins(v, subs, last.deploymentId);
      assert last.deploymentId in SubmitAll(v, subs).pending;
    }
  }

  /** What that one write carries: the latest evaluation of every deployment
      submitted in the window, and nothing else. */
  lemma WindowBatchIsLatest(v: BatcherView, subs: seq<Evaluation>)
    requires !v.done && v.pending == map[]
    ensures forall k :: k in SubmitAll(v, subs).pending <==> LatestFor(subs, k).Some?
    ensures forall k :: k in SubmitAll(v, subs).pending ==> SubmitAll(v, subs).pending[k] == LatestFor(subs, k).value
  {
    forall k
      ensures k in SubmitAll(v, subs).pending <==> LatestFor(subs, k).Some?
      ensures k in SubmitAll(v, subs).pending ==> SubmitAll(v, subs).pending[k] == LatestFor(subs, k).value
    {
      SubmitAllLastWriteWins(v, subs, k);
    }
  }

  // ---------------------------------------------------------------------------
  // The objects
  // ---------------------------------------------------------------------------

  /** A single-assignment result cell shared by every submitter of one window. */
  class EvalFuture {
    var index: nat
    var err: Option<Error>
    var closed: bool    // `waitCh` has been closed

    constructor ()
      ensures !closed
    {
      index := 0;
      err := None;
      closed := false;
    }

    /** Fixes the result and releases every waiter. Closing a closed channel
        panics in Go, so a second `Set` is excluded. */
    method Set(index: nat, err: Option<Error>)
      requires !closed
      modifies this
      ensures closed && this.index == index && this.err == err
    {
      this.index := index;
      this.err := err;
      closed := true;
    }

    /** Waits for the result; returning at all requires the future to be resolved. */
    method Results() returns (index: nat, err: Option<Error>)
      requires closed
      ensures index == this.index && err == this.err
    {
      index := this.index;
      err := this.err;
    }
  }

  class EvalBatcher {
    var f: EvalFuture?                     // the open window's future
    var evals: map<string, Evaluation>     // the batcher loop's pending map
    var done: bool                         // the loop has seen its scope canceled and returned
    ghost var futures: seq<EvalFuture>     // every future this batcher handed out, oldest first
    ghost var currentId: nat               // the position of `f` in `futures`
    ghost var writes: seq<map<string, Evaluation>>

    ghost function View(): BatcherView
      reads this, futures
    {
      BatcherView(
        evals,
        if f == null then None else Some(currentId),
        |futures|,
        map i: nat | i < |futures| && futures[i].closed :: WriteResult(futures[i].index, futures[i].err),
        writes,
        done)
    }

    ghost predicate Valid()
      reads this, futures
    {
      && Tracked()
      && Inv(View())
    }

    /** `futures` lists distinct objects and `f`, when set, is the one at `currentId`. */
    ghost predicate Tracked()
      reads this
    {
      && (forall i, j :: 0 <= i < j < |futures| ==> futures[i] != futures[j])
      && (f != null ==> currentId < |futures| && futures[currentId] == f)
    }

    constructor ()
      ensures Valid() && View() == InitView()
    {
      f := null;
      evals := map[];
      done := false;
      futures := [];
      currentId := 0;
      writes := [];
    }

    /** Hands the evaluation to the open window, opening one if there is none,
        and returns that window's future. The loop's receive case runs at once
        (the channel between the two is not modelled). */
    method CreateEval(e: Evaluation) returns (fut: EvalFuture)
      requires Valid()
      modifies this
      ensures Valid()
      ensures View() == SubmitStep(old(View()), e)
      ensures old(f) != null ==> fut == old(f)
      ensures old(f) == null ==> fresh(fut)
      ensures f == fut && !fut.closed
      ensures old(futures) <= futures
      ensures WindowOf(old(View())) < |futures| && futures[WindowOf(old(View()))] == fut
    {
      if f == null {
        var nf := new EvalFuture();
        ghost var before := View();
        ghost var was := futures;
        f := nf;
        futures := futures + [nf];
        currentId := |futures| - 1;
        assert forall i :: 0 <= i < |was| ==> futures[i] == was[i];
        assert forall i: nat :: i in View().resolved <==> i in before.resolved;
        assert View().resolved == before.resolved;
      }
      fut := f;
      ReceiveCase(e);
    }

    /** The loop's receive case (batcher.go:71-72): the evaluation replaces any
        pending one of its deployment. Nothing is received once the loop has returned. */
    method ReceiveCase(e: Evaluation)
      requires Tracked() && InvCore(View()) && f != null
      modifies this
      ensures Valid()
      ensures View() == old(View()).(pending := if done then old(evals) else Receive(old(evals), e))
      ensures f == old(f) && futures == old(futures) && done == old(done)
    {
      if !done {
        evals := evals[e.deploymentId := e];
      }
    }

    /** The timer firing: with something pending, detach the future, write every
        pending evaluation in one call, resolve the future with the write's
        answer `w` and start a new window. */
    method Tick(w: WriteResult) returns (written: Option<seq<Evaluation>>)
      requires Valid()
      modifies this, f
      ensures Valid()
      ensures View() == TickStep(old(View()), w)
      ensures futures == old(futures)
      ensures written.Some? <==> !old(done) && |old(evals)| > 0
      ensures written.Some? ==> IsBatchOf(written.value, old(evals))
      ensures written.Some? ==> old(f) != null && old(f).closed && old(f).index == w.index && old(f).err == w.err
    {
      written := None;
      if done || |evals| == 0 {
        return;
      }
      ghost var before := View();
      var fut := f;
      f := null;
      if fut == null {
        assert false;
      }
      var all := CaptureEvals(evals);
      fut.Set(w.index, w.err);
      writes := writes + [evals];
      evals := map[];
      written := Some(all);
      assert View().resolved == before.resolved[currentId := w];
    }

    /** The epoch's scope was canceled: the loop returns and handles nothing more. */
    method Cancel()
      modifies this
      ensures View() == CancelStep(old(View()))
      ensures old(Valid()) ==> Valid()
      ensures f == old(f) && futures == old(futures)
    {
      done := true;
    }
  }

  /** One window: e1 and e2 for deployment A, e3 for
      B. The single write carries exactly e2 and e3, and the callers of e1, e2
      and e3 all see the write's result. */
  method SameWindowScenario(w: WriteResult) returns (written: seq<Evaluation>, r1: WriteResult, r2: WriteResult, r3: WriteResult)
    ensures |written| == 2
    ensures Evaluation("e2", "A") in written && Evaluation("e3", "B") in written
    ensures r1 == w && r2 == w && r3 == w
  {
    var b := new EvalBatcher();
    var f1 := b.CreateEval(Evaluation("e1", "A"));
    assert b.evals == map["A" := Evaluation("e1", "A")];
    var f2 := b.CreateEval(Evaluation("e2", "A"));
    assert f2 == f1 && b.evals == map["A" := Evaluation("e2", "A")];
    var f3 := b.CreateEval(Evaluation("e3", "B"));
    assert f3 == f1 && b.evals == map["A" := Evaluation("e2", "A"), "B" := Evaluation("e3", "B")];
    assert |b.evals| == 2;
    var out := b.Tick(w);
    written := out.value;
    var i1, x1 := f1.Results();
    var i2, x2 := f2.Results();
    var i3, x3 := f3.Results();
    r1, r2, r3 := WriteResult(i1, x1), WriteResult(i2, x2), WriteResult(i3, x3);
  }
}
