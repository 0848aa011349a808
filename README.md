# Nomad deployment watcher: registry and evaluation batcher

A Dafny model of the core of Nomad's deployment watcher, which runs on the
leader. It has two state machines:

- **The registry (`Watcher`).** While enabled, it keeps one per-deployment
  watcher for each active deployment. A discovery loop long-polls the
  deployment list to find them. Requests about a deployment are forwarded to
  that deployment's watcher. Disabling or flushing stops every watcher and
  starts a new epoch, meaning a new cancellation scope and a new batcher.
- **The evaluation batcher (`EvalBatcher`, `EvalFuture`).** It collects the
  evaluations submitted during one timer window. It keeps only the latest
  evaluation per deployment and commits them in one consensus write. Every
  submitter of the window holds the same single-assignment future, which is
  resolved with that write's result.

Each file is modelled in the source's own form. The objects whose fields the
Go code updates are Dafny classes with `modifies` clauses. The two stateful
objects, `EvalBatcher` and `Watcher`, also carry a `Valid()` invariant and a
ghost `View()` that gives their state as a datatype. Their constructors and
the methods `EvalBatcher.CreateEval`, `Tick` and `Cancel`, and `Watcher.SetEnabled`,
`Flush`, `Add`, `Remove`, `CreateEvaluation`, `ProcessDeployments` and
`WatchDeployments`, are proved to
move `View()` exactly as a step function says (`SubmitStep`, `TickStep`,
`CancelStep`, `SetEnabledStep`, `FlushStep`, `AddStep`, `RemoveStep`, `ApplyList`,
`Discover`).
`EvalFuture` and the per-deployment watcher handle are specified directly by
their fields. Properties that relate several calls are lemmas about the step
functions.

Files:

- `structs.dfy` (module `Structs`): the records the core reads (deployment,
  evaluation, job, list response, requests) and its errors.
- `batcher.dfy` (module `Batcher`): `nomad/deploymentwatcher/batcher.go`.
- `registry.dfy` (module `Registry`): `nomad/deploymentwatcher/deployments_watcher.go`.

The collaborators are inputs to the model:

- The job lookup is a function `string -> JobLookup`. Each round of the
  discovery loop (a `Round`) carries its own lookup.
- Each blocking list query is a finite sequence of `Attempt`s. An attempt is
  the rate limiter's `Wait` answer, then `List`'s answer.
- `UpsertEvals`' answer is the `WriteResult` passed to `Tick`.
- A per-deployment watcher is an opaque handle. It has ghost `stopped` and
  `requests` fields and returns the answer it is given.

`EvalFuture.Set` closes `waitCh` (batcher.go:123), and closing a closed
channel panics in Go, so `Set` requires an unresolved future.

## Model

| member | source | states |
|---|---|---|
| `Batcher.Receive` | nomad/deploymentwatcher/batcher.go:71-72 | a received evaluation replaces the pending one of its deployment; every other deployment keeps its entry; the map stays keyed by deployment ID |
| `Batcher.CaptureEvals` | nomad/deploymentwatcher/batcher.go:89-93 | the slice written holds every pending evaluation exactly once, one per distinct deployment ID, and nothing else |
| `Batcher.LatestFor` | nomad/deploymentwatcher/batcher.go:71-72 | reference for last-write-wins: the result is the last submission for the deployment; it is absent exactly when no submission names that deployment |
| `Batcher.InitSatisfiesInv` | nomad/deploymentwatcher/batcher.go:37-46 | a new batcher (nothing pending, no future, not canceled) satisfies the batcher invariant |
| `Batcher.StepPreservesInv` | nomad/deploymentwatcher/batcher.go:50-101 | a submission, a tick or a cancellation preserves the invariant: pending is non-empty only when a future exists, and the open future is unresolved |
| `Batcher.RunPreservesInv` | nomad/deploymentwatcher/batcher.go:50-101 | the invariant holds after any sequence of submissions, ticks and cancellations |
| `Batcher.NilFutureGuardUnreachable` | nomad/deploymentwatcher/batcher.go:84-87 | under the invariant, a tick with something pending always writes and clears the pending map; the nil-future guard never fires |
| `Batcher.ResolvedIsFinal` | nomad/deploymentwatcher/batcher.go:119-130 | once a future is resolved, it keeps the same (index, error) through any later events |
| `Batcher.AtMostOneWritePerEvent` | nomad/deploymentwatcher/batcher.go:66-101 | each event adds at most one write; only a tick writes, and it writes exactly the pending map |
| `Batcher.CanceledIsTerminal` | nomad/deploymentwatcher/batcher.go:68-70 | after cancellation, no event writes, resolves a future or restarts the loop |
| `Batcher.SubmissionsShareFuture` | nomad/deploymentwatcher/batcher.go:50-60 | every submission of one window gets the same future; a future is created only when none exists; writes and resolutions are untouched |
| `Batcher.SubmitAllLastWriteWins` | nomad/deploymentwatcher/batcher.go:71-72 | after a window, each deployment's pending evaluation is its latest submission; deployments not submitted keep their entry |
| `Batcher.WindowCommitsOnce` | nomad/deploymentwatcher/batcher.go:73-99 | starting idle: an empty window writes nothing; otherwise one tick makes exactly one write of the window's pending map, clears the pending map and future, and resolves every submitter's shared future with the write's result |
| `Batcher.WindowBatchIsLatest` | nomad/deploymentwatcher/batcher.go:71-99 | the map a window writes holds exactly the submitted deployments, each with its latest submission |
| `Batcher.EvalFuture.constructor` | nomad/deploymentwatcher/batcher.go:113-117 | a new future is unresolved |
| `Batcher.EvalFuture.Set` | nomad/deploymentwatcher/batcher.go:120-124 | only an unresolved future can be set; afterwards it is resolved with exactly the given index and error |
| `Batcher.EvalFuture.Results` | nomad/deploymentwatcher/batcher.go:127-130 | returns only once the future is resolved, and returns the index and error that `Set` fixed |
| `Batcher.EvalBatcher.constructor` | nomad/deploymentwatcher/batcher.go:37-46 | a new batcher has nothing pending, no future, no writes, and satisfies its invariant |
| `Batcher.EvalBatcher.CreateEval` | nomad/deploymentwatcher/batcher.go:50-60 | returns the existing future if there is one, otherwise a fresh unresolved one that becomes current; the state moves as `SubmitStep` says |
| `Batcher.EvalBatcher.ReceiveCase` | nomad/deploymentwatcher/batcher.go:71-72 | the received evaluation is merged into the pending map by `Receive`, unless the loop has returned; the invariant is restored |
| `Batcher.EvalBatcher.Tick` | nomad/deploymentwatcher/batcher.go:73-99 | with nothing pending, or after cancellation, nothing happens and nothing is written; otherwise exactly one write of the whole pending map, the detached future resolved with the write's answer, and an empty pending map |
| `Batcher.EvalBatcher.Cancel` | nomad/deploymentwatcher/batcher.go:68-70 | marks the loop as returned and changes nothing else; the invariant is kept |
| `Batcher.SameWindowScenario` | nomad/deploymentwatcher/batcher.go:50-99 | e1 and e2 for deployment A and e3 for B in one window give one write of exactly {e2, e3}; the callers of e1, e2 and e3 all see that write's result |
| `Registry.Poll` | nomad/deploymentwatcher/deployments_watcher.go:180-200 | an accepted response is one that `List` returned, with an index past the requested minimum; a failure carries an error that the limiter or `List` reported; running out of answers means every answer was stale |
| `Registry.DiscoveryIndexAdvances` | nomad/deploymentwatcher/deployments_watcher.go:145-176 | the discovery index never decreases; it grows exactly when a response was processed; the loop exits exactly on a cancellation error |
| `Registry.StepsPreserveRegistryInv` | nomad/deploymentwatcher/deployments_watcher.go:111-250 | add, remove, flush and enable/disable keep "no watchers while disabled" |
| `Registry.AddIsIdempotent` | nomad/deploymentwatcher/deployments_watcher.go:207-229 | after a successful add, a second add of the same deployment is a no-op returning no error, whatever the job lookup says; when enabled, the add inserted exactly that ID |
| `Registry.FailedAddChangesNothing` | nomad/deploymentwatcher/deployments_watcher.go:217-227 | an add that fails leaves the registry unchanged; failure happens only when enabled, untracked and the job lookup failed or found no job |
| `Registry.RemoveThenAddRetracks` | nomad/deploymentwatcher/deployments_watcher.go:203-250 | after remove, the deployment is untracked; adding it again with its job tracks it again |
| `Registry.FlushIsIdempotent` | nomad/deploymentwatcher/deployments_watcher.go:125-140 | flushing twice leaves the same (empty) set of watchers as flushing once; each flush starts a new epoch |
| `Registry.DisableThenEnableStartsFresh` | nomad/deploymentwatcher/deployments_watcher.go:111-122 | disabling then enabling gives an enabled registry with no watchers and a new epoch; discovery starts on the enable and not on the disable |
| `Registry.EnableWhenEnabledIsNoOp` | nomad/deploymentwatcher/deployments_watcher.go:111-122 | enabling an enabled registry changes nothing and starts no discovery |
| `Registry.DisabledDiscoveryIsNoOp` | nomad/deploymentwatcher/deployments_watcher.go:164-172 | while disabled, processing any deployment list changes nothing |
| `Registry.DiscoveryFrame` | nomad/deploymentwatcher/deployments_watcher.go:164-172 | processing a list never changes whether an unlisted deployment is tracked |
| `Registry.DiscoveryFrameAll` | nomad/deploymentwatcher/deployments_watcher.go:164-172 | processing a list never changes the enabled flag or the epoch |
| `Registry.DiscoveryTracksListed` | nomad/deploymentwatcher/deployments_watcher.go:164-172 | while enabled, each listed active deployment whose job exists ends up tracked, and each terminal one untracked; an active one whose job lookup failed keeps its previous status |
| `Registry.DiscoveryIndicesIncrease` | nomad/deploymentwatcher/deployments_watcher.go:144-176 | the indices the discovery loop processes are all past its starting index and strictly increase, because the query only accepts an advanced response; the loop never changes the flag or the epoch, and changes nothing while disabled |
| `Registry.LaterLookupIsHeeded` | nomad/deploymentwatcher/deployments_watcher.go:218-229 | over two accepted rounds of discovery, an active deployment listed (each ID once) in the second response ends up tracked when the second round's job lookup finds its job, whatever the first round's lookup answered |
| `Registry.Watcher.constructor` | nomad/deploymentwatcher/deployments_watcher.go:95-107 | a new registry is disabled, tracks nothing, is at epoch 0 and owns a new batcher |
| `Registry.Watcher.SetEnabled` | nomad/deploymentwatcher/deployments_watcher.go:111-122 | afterwards the flag is the argument; disabling always flushes, stopping every watcher and installing a new batcher in its initial state (nothing pending, no future) while the old one is canceled; enabling leaves the watchers (their stop flags and request logs) and the batcher untouched; discovery starts only on a false-to-true change |
| `Registry.Watcher.Flush` | nomad/deploymentwatcher/deployments_watcher.go:125-140 | every watcher that was tracked is stopped; the map is empty; the old batcher is canceled; a fresh batcher is installed under the next epoch; no watcher's request log changes |
| `Registry.Watcher.Add` | nomad/deploymentwatcher/deployments_watcher.go:203-232 | no-op returning nil when disabled or already tracked; the lookup's error or an unknown-job error, with the map unchanged, when the job is not found; otherwise exactly one fresh watcher for this deployment and job, in the current epoch, filed under its ID, with every other entry unchanged |
| `Registry.Watcher.Remove` | nomad/deploymentwatcher/deployments_watcher.go:236-250 | no-op when disabled or untracked; otherwise stops exactly that watcher and deletes only its key; no watcher's request log changes |
| `Registry.Watcher.SetAllocHealth` | nomad/deploymentwatcher/deployments_watcher.go:255-270 | disabled: nil, and nothing is forwarded; untracked: a not-watched error; otherwise forwarded to that deployment's watcher, returning its answer; the map is unchanged |
| `Registry.Watcher.PromoteDeployment` | nomad/deploymentwatcher/deployments_watcher.go:275-290 | the same three outcomes for a promotion request |
| `Registry.Watcher.PauseDeployment` | nomad/deploymentwatcher/deployments_watcher.go:294-309 | the same three outcomes for a pause request |
| `Registry.Watcher.CreateEvaluation` | nomad/deploymentwatcher/deployments_watcher.go:313-319 | hands the evaluation to the current epoch's batcher and returns its window's future, the open one or a fresh one; the batcher moves as `SubmitStep` says |
| `Registry.Watcher.GetDeploys` | nomad/deploymentwatcher/deployments_watcher.go:180-200 | the query loop's outcome is `Poll` of the collaborators' answers; a returned response always has an index past the requested minimum |
| `Registry.Watcher.ProcessDeployments` | nomad/deploymentwatcher/deployments_watcher.go:164-172 | each listed deployment, in order, is added if active and removed otherwise; the result is `ApplyList`; every watcher of a deployment the pass untracks, or replaces, was stopped; the invariant is kept; no watcher's request log changes |
| `Registry.Watcher.WatchStep` | nomad/deploymentwatcher/deployments_watcher.go:146-175 | one discovery iteration: the query's outcome is `Poll`; exit on cancellation; retry at the same index, changing nothing, on any other error; otherwise process the response by `ApplyList` and continue at its index; untracked watchers were stopped; no watcher's request log changes |
| `Registry.Watcher.WatchDeployments` | nomad/deploymentwatcher/deployments_watcher.go:144-177 | over successive rounds, each with its own job lookup, the registry left and the indices returned are exactly those of `Discover`: the indices of the responses the query accepted, which strictly increase; the flag, the epoch and the batcher are unchanged; every watcher it untracked was stopped; no watcher's request log changes |
| `Registry.LeadershipCycle` | nomad/deploymentwatcher/deployments_watcher.go:111-140 | becoming leader, submitting an evaluation, losing and regaining leadership leaves an enabled registry in epoch 1 with no watchers and a batcher in its initial state; the evaluation's future was never resolved, so its caller stays blocked in `Results` |

## Left out

- Goroutines, channels and locks. Each public operation and each case of the batcher loop's `select` is one atomic step.
- The `inCh` channel between `CreateEval` and the batcher loop. Submitting and receiving are one step, so the race at batcher.go:58 and 79-82 is not modelled. In that race, a tick detaches the future between the two.
- After cancellation, `CreateEval` still returns a future and the evaluation is dropped. The model does not capture that the real send blocks once the 10-slot channel is full.
- The race in which `select` picks the ticker although the scope is already canceled. In the model, cancellation takes effect at once.
- The 200 ms timer. It is the `Tick` event.
- The rate limiter (15 queries per second, burst 100). Its `Wait` answer is an input to each attempt.
- `context.WithCancel` and `exitFn`. The current scope is the `epoch` counter, and canceling a batcher's scope sets its `done` flag.
- The canceling of the per-deployment watchers' scopes. Those watchers are opaque handles that are explicitly stopped.
- Logging.
- The internals of the per-deployment watcher (`newDeploymentWatcher`, `StopWatch` and its request handlers). They are not part of this model. The handle records calls and returns the answer it is given.
- `upsertJob`, `upsertDeploymentStatusUpdate`, `upsertDeploymentPromotion` and `upsertDeploymentAllocHealth` (deployments_watcher.go:322-348). They pass calls straight through to the consensus collaborator, so there is nothing to verify.
- `Registry.Watcher.GetDeploys`: the source keeps polling while the index has not advanced. The model has a finite sequence of answers and returns `Exhausted` when it runs out.
- `Registry.Watcher.WatchDeployments`: the source loop never ends except on cancellation. The model runs over a finite sequence of queries.
- Commit and list indices are unbounded naturals. uint64 wrap-around is not modelled.
- `Registry.Watcher.ProcessDeployments`: within one discovery pass the job lookup is one function, so job state does not change between the adds of one list. Each round of `WatchDeployments` gets its own lookup.
- `Registry.Watcher.WatchStep`: one discovery iteration is a single atomic step, the query plus every add and remove for its list. In the source the read is outside the lock, and each add or remove takes the lock separately (deployments_watcher.go:148, 204, 237).
- `Registry.Watcher.WatchDeployments`: the loop's exit comes from an input (a `Canceled` answer in a round's attempts) and is not tied to the epoch. In the source, `getDeploys` reads `w.ctx` at each call (deployments_watcher.go:190) and `Flush` replaces it (deployments_watcher.go:138) right after `exitFn()` (deployments_watcher.go:135). So only a `Wait` blocked at that moment returns `Canceled`. A loop inside `List` goes on under the new scope, and each re-enable (deployments_watcher.go:118-120) starts another loop.
- `Registry.Watcher.CreateEvaluation`: returns the window's future; the wait in `Results` (deployments_watcher.go:318) is the caller's.
