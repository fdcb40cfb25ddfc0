/** What an attempt can find out about its execution, and what follows from it: the return paths of process, runSmokeRun
    and createSmokeJob in pkg/worker/worker.go and of runL5a and waitL5aJob in pkg/worker/l5a.go. */
module Findings {
  import opened Values
  import opened FailurePolicy
  import opened Kubernetes

  /** `minted`: the identity was minted by this attempt and no Create was sent under it before. `gone`: the Job was
      confirmed gone. */
  datatype Finding =
    | NotRetired                          // legacy Jobs could not be listed, or one not retired
    | NoIdentity                          // EnsureExecution failed
    | DryRunFailed
    | Rejected(minted: bool)               // the API server refused the Create
    | NeverSettled                        // the Create's outcome stayed unknown
    | Unreadable                          // a Get failed
    | JobFailed
    | JobVanished                         // the Job was there and is gone, its outcome was never observed
    | TimedOut(gone: bool)                // the context ended, by its deadline or by a shutdown
    | JobSucceeded

  /** The answer that was heard last. */
  predicate Heard(f: Finding, told: Option<P.Action>) {
    told.Some? &&
    match f
    case NotRetired =>
      told == Some(P.List(false)) || told == Some(P.Gone(false)) || (told.value.NextLegacy? && !told.value.ok)
    case NoIdentity => told.value.Ensure? && !told.value.ok
    case DryRunFailed => told == Some(P.DryRunAnswer(false))
    case Rejected(_) => told == Some(P.Create(P.Rejected))
    case NeverSettled => told == Some(P.Get(P.NotFound)) || told == Some(P.Get(P.GetError))
    case Unreadable => told == Some(P.Get(P.GetError))
    case JobFailed => told == Some(P.Get(P.FailedCondition))
    case JobVanished => told == Some(P.Get(P.NotFound))
    case TimedOut(gone) => told == Some(P.Gone(gone))
    case JobSucceeded => told == Some(P.Get(P.CompleteCondition))
  }

  /** The two tickers of a poll loop. */
  datatype Tick = HeartbeatTick | PollTick

  /** What an attempt's surroundings decide: whether a context that ends does so by its deadline, what the smoke-run's
      Pods tell, how many of reconcileL5aCreate's waits its context survives, how many more polls fit into the wait for
      a deletion, and the ticks that fire in each poll loop before its context ends. */
  datatype Surroundings =
    Surroundings(deadline: bool, pods: FailureClass, waits: nat, polls: nat, smokeTicks: seq<Tick>, l5aTicks: seq<Tick>)

  /** The failure class: trouble with the store, the API server, admission or time is TRANSIENT_INFRA, a vanished Job
      UNKNOWN; a failed Job, and one cut off by a shutdown, are what their Pods tell. */
  function ClassOf(f: Finding, around: Surroundings): FailureClass {
    match f
    case JobVanished => Unknown
    case JobFailed => around.pods
    case TimedOut(_) => if around.deadline then TransientInfra else around.pods
    case _ => TransientInfra
  }

  /** Whether L4 releases the identity, when L5-a does not follow: when the Job ended or is gone, or when nothing was
      ever created under it. */
  predicate L4Releases(f: Finding) {
    match f
    case DryRunFailed => true
    case Rejected(minted) => minted
    case JobFailed => true
    case JobVanished => true
    case TimedOut(gone) => gone
    case JobSucceeded => true
    case _ => false
  }

  /** Whether L5-a releases it. */
  predicate L5aReleases(f: Finding) {
    match f
    case Rejected(_) => true
    case JobFailed => true
    case TimedOut(gone) => gone
    case JobSucceeded => true
    case _ => false
  }

  /** The answer L5-a heard last; its Get does not tell a missing Job from an error, and a Create can stay unsettled
      through every reconciliation. */
  predicate L5aHeard(f: Finding, told: Option<P.Action>) {
    told.Some? &&
    match f
    case Rejected(_) => told == Some(P.Create(P.Rejected))
    case NeverSettled => told.value.Create? && (told.value.answer.Rejected? || told.value.answer.Ambiguous?)
    case Unreadable => told == Some(P.Get(P.GetError)) || told == Some(P.Get(P.NotFound))
    case JobFailed => told == Some(P.Get(P.FailedCondition))
    case TimedOut(gone) => told == Some(P.Gone(gone))
    case JobSucceeded => told == Some(P.Get(P.CompleteCondition))
    case _ => false
  }
}
