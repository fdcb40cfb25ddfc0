/** One logical job's worker and its Kubernetes Jobs: process, runSmokeRun, createSmokeJob,
    retireLegacyExecutions, deleteAndConfirmGone in pkg/worker/worker.go and runL5a, reconcileL5aCreate,
    waitL5aJob in pkg/worker/l5a.go, as a step machine. The worker may die after any step; API answers are
    arbitrary; Jobs finish and disappear on their own. */
module Protocol {
  import opened Values

  type Id = string

  /** Job objects of this logical job: smokeJobName and l5aJobName of an execution identity, or a Job an
      older worker named after an attempt. */
  datatype Name = Smoke(id: Id) | L5a(id: Id) | Legacy(attempt: nat)

  /** A present Job object: its Pods may still execute, or it has reached Complete or Failed. */
  datatype Phase = Unfinished | Ended

  type Cluster = map<Name, Phase>

  /** What the protocol relies on besides its own code.
      oneLiveAttempt: no attempt stalls before a Create and resumes after the job was leased again. The
        writer lock and the sequential Run loop give this.
      settledCreates: a Create takes effect before its call ends or never, whatever its caller learns.
      honestRejections: a Create is answered with a rejection only when no Job of that name exists.
      sameClient: every attempt has the same vault client setting, so L5-a follows for all or for none. */
  datatype Hypotheses = Hypotheses(
    oneLiveAttempt: bool, settledCreates: bool, honestRejections: bool, sameClient: bool)

  const ALL_HYPOTHESES := Hypotheses(true, true, true, true)

  /** Where an attempt stands. `follows` is process's l5aFollows; `x` is the attempt's execution identity. */
  datatype Pc =
    | Idle
    | Leased(follows: bool)                             // process entered
    | Retiring(follows: bool, todo: set<Name>)          // retireLegacyExecutions' loop
    | Deleting(follows: bool, todo: set<Name>, n: Name) // its deleteAndConfirmGone
    | Identify(follows: bool)                           // before EnsureExecution
    | Adopted(x: Id)                                    // looking for the adopted identity's L5-a Job
    | DryRun(follows: bool, x: Id)
    | CreateSmoke(follows: bool, x: Id, minted: bool)   // createSmokeJob; minted is releaseOnReject
    | LookupSmoke(follows: bool, x: Id)                 // after a Create of unknown outcome
    | PollSmoke(follows: bool, x: Id, confirmed: bool)
    | DropSmoke(follows: bool, x: Id)                   // deleteAndConfirmGone after the context ended
    | Release(x: Id, next: Pc)                          // before MarkExecutionTerminal
    | AfterL4(follows: bool, x: Id)                     // finishAfterL4
    | CreateL5a(x: Id)
    | Reconcile(x: Id, left: nat)                       // reconcileL5aCreate with `left` Creates to go
    | WaitL5a(x: Id)
    | DropL5a(x: Id)
    | Failing                                           // before FailJob
    | Completing                                        // L5-b, then CompleteJob

  /** execution_id (None for ""), execution_terminal, whether the row is succeeded or failed; the Jobs in the
      cluster; the attempt; every identity minted; the names of Creates that may still take effect late. */
  datatype State = State(
    identity: Option<Id>,
    terminal: bool,
    done: bool,
    jobs: Cluster,
    pc: Pc,
    minted: set<Id>,
    inFlight: set<Name>)

  datatype CreateAnswer = Created | AlreadyExists | Rejected | Ambiguous(landed: bool)
  datatype GetAnswer = NotFound | GetError | NoCondition | CompleteCondition | FailedCondition

  /** One step: a worker call with the answer it got, a crash, or a step of the cluster. */
  datatype Action =
    | Lease(follows: bool)
    | List(ok: bool)
    | NextLegacy(n: Name, ok: bool)
    | ListDone
    | Gone(ok: bool)
    | Ensure(x: Id, ok: bool, committed: bool)
    | Get(got: GetAnswer)
    | DryRunAnswer(ok: bool)
    | Create(answer: CreateAnswer)
    | ContextDone
    | Report(marked: bool)
    | EndL4
    | GiveUp
    | Outcome(final: bool)
    | Crash
    | JobEnds(n: Name)
    | JobVanishes(n: Name)
    | Stall
    | LateCreate(n: Name)

  const RECONCILE_ATTEMPTS: nat := 3

  // ---------- what the environment can answer ----------

  /** The answer a Get of `n` can give. */
  predicate GetPossible(jobs: Cluster, n: Name, got: GetAnswer) {
    match got
    case NotFound => n !in jobs
    case GetError => true
    case NoCondition => n in jobs
    case CompleteCondition => n in jobs && jobs[n].Ended?
    case FailedCondition => n in jobs && jobs[n].Ended?
  }

  /** The answer a Create of `n` can give. */
  predicate CreatePossible(h: Hypotheses, jobs: Cluster, n: Name, answer: CreateAnswer) {
    match answer
    case Created => n !in jobs
    case AlreadyExists => n in jobs
    case Rejected => h.honestRejections ==> n !in jobs
    case Ambiguous(_) => true
  }

  /** The Jobs once a Create was answered; it never disturbs an object that is already there. */
  function JobsAfterCreate(jobs: Cluster, n: Name, answer: CreateAnswer): Cluster {
    if n !in jobs && (answer.Created? || (answer.Ambiguous? && answer.landed)) then jobs[n := Unfinished] else jobs
  }

  function AfterCreate(h: Hypotheses, s: State, n: Name, answer: CreateAnswer): State {
    var late := !h.settledCreates && answer.Ambiguous? && !answer.landed;
    s.(jobs := JobsAfterCreate(s.jobs, n, answer), inFlight := if late then s.inFlight + {n} else s.inFlight)
  }

  function LegacyJobs(jobs: Cluster): set<Name> {
    set n | n in jobs && n.Legacy?
  }

  /** The name the attempt's next call is about. */
  function Subject(pc: Pc): Option<Name> {
    match pc
    case Deleting(_, _, n) => Some(n)
    case Adopted(x) => Some(L5a(x))
    case CreateSmoke(_, x, _) => Some(Smoke(x))
    case LookupSmoke(_, x) => Some(Smoke(x))
    case PollSmoke(_, x, _) => Some(Smoke(x))
    case DropSmoke(_, x) => Some(Smoke(x))
    case CreateL5a(x) => Some(L5a(x))
    case Reconcile(x, _) => Some(L5a(x))
    case WaitL5a(x) => Some(L5a(x))
    case DropL5a(x) => Some(L5a(x))
    case _ => None
  }

  // ---------- the worker's program ----------

  /** The calls an attempt makes at each point. */
  predicate Expects(pc: Pc, a: Action) {
    match a
    case Lease(_) => pc.Idle?
    case List(_) => pc.Leased?
    case ListDone => pc.Leased? || (pc.Retiring? && pc.todo == {})
    case NextLegacy(n, _) => pc.Retiring? && n in pc.todo
    case Gone(_) => pc.Deleting? || pc.DropSmoke? || pc.DropL5a?
    case Ensure(_, _, _) => pc.Identify?
    case Get(_) => pc.Adopted? || pc.LookupSmoke? || pc.PollSmoke? || pc.WaitL5a?
    case DryRunAnswer(_) => pc.DryRun?
    case Create(_) => pc.CreateSmoke? || pc.CreateL5a? || (pc.Reconcile? && pc.left > 0)
    case ContextDone => pc.PollSmoke? || pc.WaitL5a?
    case Report(_) => pc.Release?
    case EndL4 => pc.AfterL4?
    case GiveUp => pc.Reconcile?
    case Outcome(_) => pc.Failing? || pc.Completing?
    case _ => false
  }

  /** createSmokeJob's and runL5a's reaction to the API server's answer. */
  function AfterCreateAnswer(pc: Pc, answer: CreateAnswer): Pc
    requires pc.CreateSmoke? || pc.CreateL5a? || (pc.Reconcile? && pc.left > 0)
  {
    var there := answer.Created? || answer.AlreadyExists?;
    match pc
    case CreateSmoke(f, x, minted) =>
      if there then PollSmoke(f, x, true)
      else if answer.Ambiguous? then LookupSmoke(f, x)
      else if minted then Release(x, Failing)
      else Failing
    case CreateL5a(x) =>
      if there then WaitL5a(x)
      else if answer.Rejected? then Release(x, Completing)
      else Reconcile(x, RECONCILE_ATTEMPTS)
    case Reconcile(x, left) => if there then WaitL5a(x) else Reconcile(x, left - 1)
  }

  /** The poll loops' and lookups' reaction to a Get. */
  function AfterGet(pc: Pc, got: GetAnswer): Pc
    requires pc.Adopted? || pc.LookupSmoke? || pc.PollSmoke? || pc.WaitL5a?
  {
    match pc
    case Adopted(x) =>
      if got.GetError? then Failing else if got.NotFound? then PollSmoke(true, x, false) else AfterL4(true, x)
    case LookupSmoke(f, x) => if got.GetError? || got.NotFound? then Failing else PollSmoke(f, x, true)
    case PollSmoke(f, x, confirmed) =>
      (match got
       case NotFound => if confirmed then Release(x, Failing) else CreateSmoke(f, x, false)
       case GetError => Failing
       case NoCondition => PollSmoke(f, x, true)
       case CompleteCondition => if f then AfterL4(f, x) else Release(x, AfterL4(f, x))
       case FailedCondition => Release(x, Failing))
    case WaitL5a(x) =>
      if got.NotFound? || got.GetError? then Completing
      else if got.NoCondition? then WaitL5a(x)
      else Release(x, Completing)
  }

  function AfterGone(pc: Pc, ok: bool): Pc
    requires pc.Deleting? || pc.DropSmoke? || pc.DropL5a?
  {
    match pc
    case Deleting(f, todo, _) => if ok then Retiring(f, todo) else Failing
    case DropSmoke(_, x) => if ok then Release(x, Failing) else Failing
    case DropL5a(x) => if ok then Release(x, Completing) else Completing
  }

  /** EnsureExecution's answer: the live identity it adopted, or the one it minted. */
  function AfterIdentity(follows: bool, live: Option<Id>, minted: Id, ok: bool): Pc {
    if !ok then Failing
    else if live.None? then DryRun(follows, minted)
    else if follows then Adopted(live.value)
    else PollSmoke(follows, live.value, false)
  }

  /** Where the attempt goes next. `live` is the row's unreleased identity, `listed` the legacy Jobs present. */
  function Advance(pc: Pc, a: Action, live: Option<Id>, listed: set<Name>): Pc
    requires Expects(pc, a)
  {
    match a
    case Lease(f) => Leased(f)
    case List(ok) => if ok then Retiring(pc.follows, listed) else Failing
    case ListDone => Identify(pc.follows)
    case NextLegacy(n, ok) => if ok then Deleting(pc.follows, pc.todo - {n}, n) else Failing
    case Gone(ok) => AfterGone(pc, ok)
    case Ensure(x, ok, _) => AfterIdentity(pc.follows, live, x, ok)
    case Get(got) => AfterGet(pc, got)
    case DryRunAnswer(ok) => if ok then CreateSmoke(pc.follows, pc.x, true) else Release(pc.x, Failing)
    case Create(answer) => AfterCreateAnswer(pc, answer)
    case ContextDone => if pc.PollSmoke? then DropSmoke(pc.follows, pc.x) else DropL5a(pc.x)
    case Report(_) => pc.next
    case EndL4 => if pc.follows then CreateL5a(pc.x) else Completing
    case GiveUp => Completing
    case Outcome(_) => Idle
  }

  // ---------- the worker in its environment ----------

  function Live(s: State): Option<Id> {
    if s.terminal then None else s.identity
  }

  /** Which action the attempt can take next, given what the environment can answer. */
  predicate WorkerCan(h: Hypotheses, follows: bool, s: State, a: Action) {
    && Expects(s.pc, a)
    && match a
       case Lease(f) => !s.done && (h.sameClient ==> f == follows)
       case List(_) => s.identity.None?
       case ListDone => s.pc.Leased? ==> s.identity.Some?
       case NextLegacy(_, ok) => ok ==> s.identity.None?
       case Gone(ok) => ok ==> Subject(s.pc).value !in s.jobs
       case Ensure(x, ok, committed) => (ok ==> committed) && (committed && Live(s).None? ==> x !in s.minted)
       case Get(got) => GetPossible(s.jobs, Subject(s.pc).value, got)
       case Create(answer) => CreatePossible(h, s.jobs, Subject(s.pc).value, answer)
       case _ => true
  }

  /** The action's effect on the row and the cluster. A store error may hide a mint that was committed. */
  function WorkerEffect(h: Hypotheses, s: State, a: Action): State
    requires Expects(s.pc, a)
  {
    match a
    case Ensure(x, _, committed) =>
      if Live(s).Some? || !committed then s
      else s.(identity := Some(x), terminal := false, minted := s.minted + {x})
    case Create(answer) => AfterCreate(h, s, Subject(s.pc).value, answer)
    case Report(marked) => s.(terminal := s.terminal || (marked && s.identity == Some(s.pc.x)))
    case Outcome(final) => s.(done := final)
    case _ => s
  }

  function WorkerStep(h: Hypotheses, follows: bool, s: State, a: Action): State
    requires WorkerCan(h, follows, s, a)
  {
    WorkerEffect(h, s, a).(pc := Advance(s.pc, a, Live(s), LegacyJobs(s.jobs)))
  }

  // ---------- all steps ----------

  predicate Can(h: Hypotheses, follows: bool, s: State, a: Action) {
    match a
    case Crash => true
    case JobEnds(n) => n in s.jobs
    case JobVanishes(n) => n in s.jobs
    case Stall => !h.oneLiveAttempt && (s.pc.CreateSmoke? || s.pc.CreateL5a?)
    case LateCreate(n) => n in s.inFlight
    case _ => WorkerCan(h, follows, s, a)
  }

  function Step(h: Hypotheses, follows: bool, s: State, a: Action): State
    requires Can(h, follows, s, a)
  {
    match a
    case Crash => s.(pc := Idle)
    case JobEnds(n) => s.(jobs := s.jobs[n := Ended])
    case JobVanishes(n) => s.(jobs := s.jobs - {n})
    case Stall => s.(pc := Idle, inFlight := s.inFlight + {Subject(s.pc).value})
    case LateCreate(n) => s.(jobs := if n in s.jobs then s.jobs else s.jobs[n := Unfinished])
    case _ => WorkerStep(h, follows, s, a)
  }

  /** A row no identity was ever minted for; Jobs of older workers, running or not, may be in the cluster. */
  predicate Initial(s: State) {
    && s.identity.None? && !s.terminal && !s.done && s.pc.Idle? && s.minted == {} && s.inFlight == {}
    && forall n :: n in s.jobs ==> n.Legacy?
  }

  /** A run: an initial state and the actions taken since, oldest innermost. */
  datatype Run = Begin(s: State) | Then(prev: Run, a: Action)

  ghost predicate Possible(h: Hypotheses, follows: bool, r: Run) {
    match r
    case Begin(s) => Initial(s)
    case Then(prev, a) => Possible(h, follows, prev) && Can(h, follows, At(h, follows, prev), a)
  }

  /** The state a run has reached; meaningless for an impossible run. */
  ghost function At(h: Hypotheses, follows: bool, r: Run): State {
    match r
    case Begin(s) => s
    case Then(prev, a) =>
      var s := At(h, follows, prev);
      if Can(h, follows, s, a) then Step(h, follows, s, a) else s
  }

  // ---------- what is promised ----------

  predicate Executing(s: State, n: Name) {
    n in s.jobs && s.jobs[n].Unfinished?
  }

  /** A Job that takes effect between two states of the cluster does so while no other Job is unfinished. */
  ghost predicate JobsStartAlone(before: Cluster, after: Cluster) {
    forall n, m :: n in after && n !in before && m in before ==> before[m].Ended?
  }

  ghost predicate StartsAlone(s: State, t: State) {
    JobsStartAlone(s.jobs, t.jobs)
  }

  /** An identity is released only when none of its Jobs is unfinished. */
  ghost predicate ReleasesIdle(s: State, t: State) {
    !s.terminal && t.terminal ==>
      s.identity.Some? && t.identity == s.identity
      && !Executing(t, Smoke(s.identity.value)) && !Executing(t, L5a(s.identity.value))
  }
}
