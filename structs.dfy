/** The few records of Nomad's `structs` package that the deployment watcher
    touches, cut down to the fields it reads, and the errors it can return. */
module Structs {

  datatype Option<+T> = None | Some(value: T)

  /** A deployment: its ID, the job it rolls out, and whether it is still active
      (`Deployment.Active()` in the source, a derived status here given as a field). */
  datatype Deployment = Deployment(id: string, jobId: string, active: bool)

  /** An evaluation; the batcher only reads the deployment it belongs to. */
  datatype Evaluation = Evaluation(id: string, deploymentId: string)

  /** A job as returned by the job lookup; opaque to this core. */
  datatype Job = Job(id: string, version: nat)

  /** One answer of the blocking deployment list query: the deployments and the
      index the state store was at. */
  datatype DeploymentListResponse = DeploymentListResponse(deployments: seq<Deployment>, index: nat)

  /** The errors the core produces or passes through. */
  datatype Error =
    | Canceled                                          // context.Canceled: the epoch's scope was canceled
    | LimiterFailed(reason: string)                     // any other failure of the rate limiter's Wait
    | ReadFailed(reason: string)                        // a failure reported by the state-read collaborator
    | UnknownJob(deploymentId: string, jobId: string)   // the deployment references a job that does not exist
    | NotWatched(deploymentId: string)                  // the deployment has no watcher
    | ConsensusFailed(reason: string)                   // a failure reported by the consensus-write collaborator

  /** Requests forwarded to a per-deployment watcher. Each names the deployment it targets. */
  datatype Request =
    | AllocHealth(deploymentId: string, healthy: seq<string>, unhealthy: seq<string>)
    | Promote(deploymentId: string, all: bool, groups: seq<string>)
    | Pause(deploymentId: string, pause: bool)
}
