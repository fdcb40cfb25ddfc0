/** What ties an attempt to the rest of the model: its own lease generation and retry policy in the store's history, and
    the run of the step machine of Protocol that its cluster and identity calls make. */
module Tracking {
  import opened Values
  import opened FailurePolicy
  import opened RetryPacing
  import opened Rows
  import opened Histories
  import opened Leases
  import opened RetryBudget
  import opened Deliveries
  import opened Kubernetes
  import PS = ProtocolSafety

  // ---------- the history ----------

  /** The generation was granted and all failures of the job so far followed the policy; while no newer lease was
      granted, the error text the attempt read at its lease is the one decideRetry needs. */
  ghost predicate OnCourse(h: History, job: JobId, worker: string, attempt: nat, lastError: string, maxAttempts: int) {
    && WasGranted(h, job, worker, attempt)
    && WorkerPolicy(h, job, maxAttempts)
    && (Grants(h, job) == attempt ==> Snapshot(h, job).attempt == attempt && Snapshot(h, job).lastError == lastError)
  }

  /** A grant is never forgotten. */
  lemma {:induction false} GrantedStays(later: History, h: History, job: JobId, worker: string, attempt: int)
    requires Extends(later, h) && WasGranted(h, job, worker, attempt)
    ensures WasGranted(later, job, worker, attempt)
  {
    if later != h {
      GrantedStays(later.prev, h, job, worker, attempt);
    }
  }

  lemma StaysOnCourse(
    later: History, h: History, job: JobId, worker: string, attempt: nat, lastError: string, maxAttempts: int
  )
    requires Extends(later, h) && Legal(h) && OnCourse(h, job, worker, attempt, lastError, maxAttempts)
    requires WorkerPolicy(later, job, maxAttempts)
    ensures OnCourse(later, job, worker, attempt, lastError, maxAttempts)
  {
    GrantedStays(later, h, job, worker, attempt);
    GrantedWasCounted(h, job, worker, attempt);
    SnapshotStays(later, h, job);
  }

  /** A failure reported by the attempt with decideRetry's verdict follows the policy, if it is accepted. */
  lemma OwnFailureFollowsPolicy(
    h: History, e: Event, lastError: string, maxAttempts: int, reason: string, delay: Duration
  )
    requires Legal(Then(h, e)) && e.Fail? && e.attempt >= 0
    requires OnCourse(h, e.job, e.worker, e.attempt, lastError, maxAttempts)
    requires var d := DecideRetry(e.kind, e.attempt, lastError, reason, maxAttempts, delay);
             d.retry == e.retryable && d.reason == e.error && d.delay == e.delay
    requires Cap(e.attempt) / 2 <= delay <= Cap(e.attempt)
    ensures WorkerPolicy(Then(h, e), e.job, maxAttempts)
  {
    if e.ok {
      AcceptedReportIsTheHolders(h, e);
      assert DecideRetry(e.kind, e.attempt, lastError, reason, maxAttempts, e.delay).retry == e.retryable;
    }
  }

  /** Heartbeats, slot claims and first marks keep the identity and never take a finished row back. */
  predicate Quiet(e: Event) {
    e.Heartbeat? || e.ClaimSlot? || e.FirstPending? || e.FirstDeadLetter?
  }

  lemma QuietStep(h: History, e: Event, job: JobId, maxAttempts: int, among: set<(string, int)>)
    requires Legal(Then(h, e)) && Quiet(e) && job in After(h)
    ensures job in After(Then(h, e)) && After(Then(h, e))[job].execution == After(h)[job].execution
    ensures Finished(After(h)[job]) ==> Finished(After(Then(h, e))[job])
    ensures Identities(Then(h, e), job) == Identities(h, job)
    ensures WorkerPolicy(h, job, maxAttempts) ==> WorkerPolicy(Then(h, e), job, maxAttempts)
    ensures WinsAmong(Then(h, e), job, among) >= WinsAmong(h, job, among)
  {
    ReachableRowsAreValid(h, job);
  }

  /** Lease outcomes keep the identity too. */
  lemma OutcomeStep(h: History, e: Event, job: JobId, among: set<(string, int)>)
    requires Legal(Then(h, e)) && (e.Complete? || e.Fail?) && job in After(h)
    ensures job in After(Then(h, e)) && After(Then(h, e))[job].execution == After(h)[job].execution
    ensures Identities(Then(h, e), job) == Identities(h, job)
    ensures WinsAmong(Then(h, e), job, among) == WinsAmong(h, job, among)
  {
  }

  // ---------- the run ----------

  /** What the API server records of a run. */
  ghost function RecordOf(follows: bool, run: P.Run): Record {
    match run
    case Begin(s) => Record([s.jobs], [])
    case Then(prev, a) => Extended(RecordOf(follows, prev), a, P.At(P.ALL_HYPOTHESES, follows, run).jobs)
  }

  /** `run` is possible under all hypotheses, has reached `s`, and is what the API server recorded. */
  ghost predicate Tracked(follows: bool, run: P.Run, s: P.State, record: Record) {
    && P.Possible(P.ALL_HYPOTHESES, follows, run) && P.At(P.ALL_HYPOTHESES, follows, run) == s
    && RecordOf(follows, run) == record
  }

  lemma TrackStep(follows: bool, run: P.Run, s: P.State, record: Record, a: P.Action)
    requires Tracked(follows, run, s, record) && P.Can(P.ALL_HYPOTHESES, follows, s, a)
    ensures var t := P.Step(P.ALL_HYPOTHESES, follows, s, a);
            Tracked(follows, P.Then(run, a), t, Extended(record, a, t.jobs))
  {
  }

  /** The newest step that told the attempt something. */
  predicate Telling(a: P.Action) {
    a.List? || a.NextLegacy? || a.Gone? || a.Ensure? || a.Get? || a.DryRunAnswer? || a.Create?
  }

  function Told(run: P.Run): Option<P.Action> {
    match run
    case Begin(_) => None
    case Then(prev, a) => if Telling(a) then Some(a) else Told(prev)
  }

  function IdentityOf(e: Execution): Option<string> {
    if e.id == "" then None else Some(e.id)
  }

  function Minted(h: History, job: JobId): set<string> {
    set x | x in Identities(h, job)
  }

  /** The machine's row is the table's row. */
  predicate Matches(s: P.State, r: Row, minted: set<string>) {
    s.identity == IdentityOf(r.execution) && s.terminal == r.execution.terminal && s.minted == minted
    && (s.done ==> Finished(r))
  }

  /** How many Creates a run contains. */
  function Creates(run: P.Run): nat {
    match run
    case Begin(_) => 0
    case Then(prev, a) => Creates(prev) + if a.Create? then 1 else 0
  }

  function Gets(run: P.Run): nat {
    match run
    case Begin(_) => 0
    case Then(prev, a) => Gets(prev) + if a.Get? then 1 else 0
  }

  lemma {:induction false} GetsGrow(later: P.Run, run: P.Run)
    requires PS.Continues(later, run)
    ensures Gets(later) >= Gets(run)
  {
    if later != run {
      GetsGrow(later.prev, run);
    }
  }

  lemma TrackCrash(follows: bool, run: P.Run, s: P.State, record: Record)
    requires Tracked(follows, run, s, record)
    ensures Tracked(follows, P.Then(run, P.Crash), s.(pc := P.Idle), record)
  {
    TrackStep(follows, run, s, record, P.Crash);
  }

  /** A Job ends or disappears. */
  lemma TrackCluster(follows: bool, run: P.Run, s: P.State, record: Record, a: P.Action, jobs: P.Cluster)
    requires Tracked(follows, run, s, record) && (a.JobEnds? || a.JobVanishes?) && a.n in s.jobs
    requires jobs == if a.JobEnds? then s.jobs[a.n := P.Ended] else s.jobs - {a.n}
    ensures Tracked(follows, P.Then(run, a), s.(jobs := jobs), Extended(record, a, jobs))
  {
    TrackStep(follows, run, s, record, a);
  }

  /** The states differ in the attempt and the Jobs only. */
  predicate SameRow(s: P.State, t: P.State) {
    t.identity == s.identity && t.terminal == s.terminal && t.minted == s.minted && t.done == s.done
  }

  /** What a worker's call leaves of the row: all of it, except for EnsureExecution, MarkExecutionTerminal and the
      outcome; and of the Jobs: all of them, except for a Create. */
  lemma TrackMove(follows: bool, run: P.Run, s: P.State, record: Record, a: P.Action, listed: set<P.Name>)
    returns (t: P.State)
    requires Tracked(follows, run, s, record) && P.Expects(s.pc, a) && P.Can(P.ALL_HYPOTHESES, follows, s, a)
    requires !a.Ensure? && !a.Report? && !a.Outcome? && !a.Create?
    requires a.List? && a.ok ==> listed == P.LegacyJobs(s.jobs)
    ensures Tracked(follows, P.Then(run, a), t, Extended(record, a, t.jobs))
    ensures t.pc == P.Advance(s.pc, a, None, listed) && SameRow(s, t) && t.jobs == s.jobs
  {
    t := P.Step(P.ALL_HYPOTHESES, follows, s, a);
    TrackStep(follows, run, s, record, a);
  }

  lemma TrackCreate(follows: bool, run: P.Run, s: P.State, record: Record, n: P.Name, answer: P.CreateAnswer)
    returns (t: P.State)
    requires Tracked(follows, run, s, record) && P.Expects(s.pc, P.Create(answer)) && P.Subject(s.pc) == Some(n)
    requires P.CreatePossible(P.ALL_HYPOTHESES, s.jobs, n, answer)
    ensures t.jobs == P.JobsAfterCreate(s.jobs, n, answer) && t.pc == P.AfterCreateAnswer(s.pc, answer) && SameRow(s, t)
    ensures Tracked(follows, P.Then(run, P.Create(answer)), t, Extended(record, P.Create(answer), t.jobs))
  {
    t := P.Step(P.ALL_HYPOTHESES, follows, s, P.Create(answer));
    TrackStep(follows, run, s, record, P.Create(answer));
  }

  /** A store call that had no effect, and the end of an attempt. */
  lemma TrackWithoutStore(follows: bool, run: P.Run, s: P.State, record: Record, a: P.Action) returns (t: P.State)
    requires Tracked(follows, run, s, record) && P.Expects(s.pc, a)
    requires a == P.Ensure("", false, false) || a == P.Report(false) || a.Outcome?
    ensures Tracked(follows, P.Then(run, a), t, record) && t.pc == P.Advance(s.pc, a, None, {})
    ensures t == s.(pc := t.pc, done := if a.Outcome? then a.final else s.done)
  {
    t := P.Step(P.ALL_HYPOTHESES, follows, s, a);
    TrackStep(follows, run, s, record, a);
  }

  /** EnsureExecution in the store is Ensure in the machine, whether or not its caller hears of it. */
  lemma EnsureMatches(h: History, e: Event, s: P.State, follows: bool, heard: bool)
    requires Legal(Then(h, e)) && e.Ensure? && e.ok && e.job in After(h)
    requires Matches(s, After(h)[e.job], Minted(h, e.job)) && s.pc == P.Identify(follows)
    ensures P.Live(s) == if e.adopted then Some(e.id) else None
    ensures P.Can(P.ALL_HYPOTHESES, follows, s, P.Ensure(e.id, heard, true))
    ensures e.job in After(Then(h, e))
    ensures Matches(P.Step(P.ALL_HYPOTHESES, follows, s, P.Ensure(e.id, heard, true)),
                    After(Then(h, e))[e.job], Minted(Then(h, e), e.job))
  {
    ReachableRowsAreValid(h, e.job);
  }

  /** MarkExecutionTerminal in the store is Report in the machine. */
  lemma ReportMatches(h: History, e: Event, s: P.State, follows: bool)
    requires Legal(Then(h, e)) && e.ReportTerminal? && e.job in After(h)
    requires Matches(s, After(h)[e.job], Minted(h, e.job)) && s.pc.Release? && s.pc.x == e.id
    ensures e.job in After(Then(h, e))
    ensures Matches(P.Step(P.ALL_HYPOTHESES, follows, s, P.Report(true)),
                    After(Then(h, e))[e.job], Minted(Then(h, e), e.job))
  {
    ReachableRowsAreValid(h, e.job);
  }

  /** The record of a run's Jobs ends with the Jobs there are. */
  lemma {:induction false} RecordIsCurrent(follows: bool, run: P.Run)
    requires P.Possible(P.ALL_HYPOTHESES, follows, run)
    ensures var seen := RecordOf(follows, run).seen;
            seen != [] && seen[|seen| - 1] == P.At(P.ALL_HYPOTHESES, follows, run).jobs
  {
    if run.Then? {
      RecordIsCurrent(follows, run.prev);
      PS.ReachableStatesAreSafe(follows, run.prev);
      if !Moves(run.a) {
        OnlyMovesMove(follows, P.At(P.ALL_HYPOTHESES, follows, run.prev), run.a);
      }
    }
  }

  lemma OnlyMovesMove(follows: bool, s: P.State, a: P.Action)
    requires P.Can(P.ALL_HYPOTHESES, follows, s, a) && s.inFlight == {} && !Moves(a)
    ensures P.Step(P.ALL_HYPOTHESES, follows, s, a).jobs == s.jobs
  {
  }

  /** The record of a possible run: no Job ever took effect beside an unfinished one. */
  lemma {:induction false} RecordNeverOverlaps(follows: bool, run: P.Run)
    requires P.Possible(P.ALL_HYPOTHESES, follows, run)
    ensures NeverOverlapped(RecordOf(follows, run).seen)
  {
    if run.Then? {
      RecordNeverOverlaps(follows, run.prev);
      RecordIsCurrent(follows, run.prev);
      PS.EveryStepIsSafe(follows, run);
    }
  }

  /** What a tracked state says of the Jobs in the cluster. */
  lemma TrackedJobsAreSafe(follows: bool, run: P.Run, s: P.State, record: Record)
    requires Tracked(follows, run, s, record)
    ensures NeverOverlapped(record.seen)
    ensures s.identity.Some? ==> OneUnfinished(s.jobs)
    ensures s.terminal ==> AllEnded(s.jobs)
  {
    RecordNeverOverlaps(follows, run);
    PS.ReachableStatesAreSafe(follows, run);
  }
}
