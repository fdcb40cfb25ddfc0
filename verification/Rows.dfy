/** The jobs table and the effect of every store call on one of its rows: pkg/work/sqlite/store.go.
    Each store call is one atomic step: there is one pooled connection and every transaction is
    BEGIN IMMEDIATE. An UPDATE ... WHERE is a map over the rows, so a call's effect is given row by row. */
module Rows {
  import opened Values
  import opened Fingerprint
  import opened FailurePolicy

  type JobId = string

  datatype Status = Queued | Leased | Running | Succeeded | Failed

  /** The lease generation: status, lease_owner, attempt, lease_until, retry_not_before and the outcome texts. */
  datatype Lease = Lease(
    status: Status,
    owner: string,
    attempt: nat,
    until: Option<Instant>,
    retryNotBefore: Option<Instant>,
    lastError: string,
    summary: string)

  /** execution_id and execution_terminal; the empty id means that no identity was ever minted. */
  datatype Execution = Execution(id: string, terminal: bool)

  /** terminal_submitted, terminal_owner, terminal_attempt. */
  datatype Slot = Slot(claimed: bool, owner: string, attempt: int)

  datatype Delivery = NotApplicable | Pending | Delivering | Acknowledged | DeadLetter

  /** The result_delivery_* columns and next_attempt_at. */
  datatype Ledger = Ledger(
    state: Delivery,
    payload: string,
    attempts: nat,
    lastError: string,
    nextAttemptAt: Option<Instant>,
    claimedUntil: Option<Instant>,
    token: string)

  datatype Row = Row(
    request: Request,
    requestId: Option<string>,
    fingerprint: string,
    lease: Lease,
    execution: Execution,
    slot: Slot,
    ledger: Ledger,
    createdAt: Instant,
    updatedAt: Instant)

  type Table = map<JobId, Row>

  datatype CreateOutcome = Inserted | Existing(job: JobId) | Conflict | PrimaryKeyError
  datatype ReportOutcome = Reported | NothingToMark | Superseded | UnknownJob

  /** One store call with its arguments, the clock value it read and the result its caller saw. `kind` in
      Fail is the caller's classification; the store never sees it. `tokens` in Claim maps each claimed job
      to its claim token. */
  datatype Event =
    | Create(job: JobId, request: Request, now: Instant, created: CreateOutcome)
    | NoLease(now: Instant)
    | Grant(job: JobId, worker: string, ttl: Duration, now: Instant)
    | Heartbeat(job: JobId, worker: string, attempt: int, ttl: Duration, now: Instant, ok: bool)
    | Complete(job: JobId, worker: string, attempt: int, summary: string, now: Instant, ok: bool)
    | Fail(job: JobId, worker: string, attempt: int, error: string, retryable: bool, delay: Duration,
           now: Instant, ok: bool, kind: FailureClass)
    | Ensure(job: JobId, id: string, adopted: bool, now: Instant, ok: bool)
    | ReportTerminal(job: JobId, id: string, now: Instant, report: ReportOutcome)
    | ClaimSlot(job: JobId, worker: string, attempt: int, now: Instant, won: bool)
    | FirstPending(job: JobId, worker: string, attempt: int, payload: string, error: string,
                   nextAttemptAt: Instant, now: Instant, ok: bool)
    | FirstDeadLetter(job: JobId, worker: string, attempt: int, payload: string, error: string,
                      now: Instant, ok: bool)
    | Claim(limit: int, ttl: Duration, now: Instant, tokens: map<JobId, string>)
    | RedeliverPending(job: JobId, token: string, error: string, nextAttemptAt: Instant, now: Instant, ok: bool)
    | RedeliverAcknowledged(job: JobId, token: string, now: Instant, ok: bool)
    | RedeliverDeadLetter(job: JobId, token: string, error: string, now: Instant, ok: bool)

  /** The row an INSERT writes: every other column takes its schema default. */
  function FreshRow(request: Request, now: Instant): Row {
    Row(request,
        if request.validationRequestId == "" then None else Some(request.validationRequestId),
        FingerprintOf(request),
        Lease(Queued, "", 0, None, None, "", ""),
        Execution("", false),
        Slot(false, "", 0),
        Ledger(NotApplicable, "", 0, "", None, None, ""),
        now, now)
  }

  // ---------- the WHERE clauses ----------

  /** LeaseJob's eligibility test. */
  predicate Leasable(r: Row, now: Instant) {
    || (r.lease.status.Queued? && (r.lease.retryNotBefore.None? || r.lease.retryNotBefore.value <= now))
    || (Active(r) && (r.lease.until.None? || r.lease.until.value < now))
  }

  predicate Active(r: Row) {
    r.lease.status.Leased? || r.lease.status.Running?
  }

  predicate Finished(r: Row) {
    r.lease.status.Succeeded? || r.lease.status.Failed?
  }

  /** The fence of finishJob and of the final FailJob: no status test. */
  predicate OwnsGeneration(r: Row, worker: string, attempt: int) {
    r.lease.owner == worker && r.lease.attempt == attempt
  }

  /** The fence of Heartbeat and of the requeuing FailJob. */
  predicate Holds(r: Row, worker: string, attempt: int) {
    OwnsGeneration(r, worker, attempt) && Active(r)
  }

  predicate FailFence(r: Row, worker: string, attempt: int, retryable: bool) {
    if retryable then Holds(r, worker, attempt) else OwnsGeneration(r, worker, attempt)
  }

  predicate FirstDeliveryFence(r: Row, worker: string, attempt: int) {
    r.slot == Slot(true, worker, attempt) && r.ledger.state.NotApplicable?
  }

  predicate RedeliveryFence(r: Row, token: string) {
    r.ledger.state.Delivering? && r.ledger.token != "" && r.ledger.token == token
  }

  /** ClaimPendingDeliveries' eligibility test; a NULL claimed_until compares as unknown, so it never matches. */
  predicate Claimable(r: Row, now: Instant) {
    || (r.ledger.state.Pending? && (r.ledger.nextAttemptAt.None? || r.ledger.nextAttemptAt.value <= now))
    || (r.ledger.state.Delivering? && r.ledger.claimedUntil.Some? && r.ledger.claimedUntil.value < now)
  }

  // ---------- the SET clauses ----------

  function Release(l: Lease, status: Status, error: string): Lease {
    l.(status := status, owner := "", until := None, lastError := error)
  }

  function LeaseEffect(id: JobId, r: Row, e: Event): Lease {
    match e
    case Grant(job, worker, ttl, now) =>
      if id == job then
        r.lease.(status := Leased, attempt := r.lease.attempt + 1, owner := worker, until := Some(now + ttl),
                 retryNotBefore := None)
      else r.lease
    case Heartbeat(job, worker, attempt, ttl, now, _) =>
      if id == job && Holds(r, worker, attempt) then r.lease.(status := Running, until := Some(now + ttl)) else r.lease
    case Complete(job, worker, attempt, summary, _, _) =>
      if id == job && OwnsGeneration(r, worker, attempt) then
        Release(r.lease, Succeeded, "").(summary := summary)
      else r.lease
    case Fail(job, worker, attempt, error, retryable, delay, now, _, _) =>
      if id == job && FailFence(r, worker, attempt, retryable) then
        if retryable then
          Release(r.lease, Queued, error).(retryNotBefore := if delay > 0 then Some(now + delay) else None)
        else
          Release(r.lease, Failed, error).(summary := "")
      else r.lease
    case _ => r.lease
  }

  function ExecutionEffect(id: JobId, r: Row, e: Event): Execution {
    match e
    case Ensure(job, newId, adopted, _, _) =>
      if id == job && !adopted then Execution(newId, false) else r.execution
    case ReportTerminal(job, reported, _, _) =>
      if id == job && r.execution.id == reported && r.execution.id != "" then Execution(r.execution.id, true)
      else r.execution
    case _ => r.execution
  }

  function SlotEffect(id: JobId, r: Row, e: Event): Slot {
    match e
    case ClaimSlot(job, worker, attempt, _, _) =>
      if id == job && !r.slot.claimed then Slot(true, worker, attempt) else r.slot
    case _ => r.slot
  }

  function Unclaimed(l: Ledger, state: Delivery, error: string, next: Option<Instant>): Ledger {
    l.(state := state, lastError := error, nextAttemptAt := next, claimedUntil := None, token := "")
  }

  function LedgerEffect(id: JobId, r: Row, e: Event): Ledger {
    var l := r.ledger;
    match e
    case FirstPending(job, worker, attempt, payload, error, next, _, _) =>
      if id == job && FirstDeliveryFence(r, worker, attempt) then
        Unclaimed(l, Pending, error, Some(next)).(payload := payload, attempts := l.attempts + 1)
      else l
    case FirstDeadLetter(job, worker, attempt, payload, error, _, _) =>
      if id == job && FirstDeliveryFence(r, worker, attempt) then
        Unclaimed(l, DeadLetter, error, None).(payload := payload, attempts := l.attempts + 1)
      else l
    case Claim(_, ttl, now, tokens) =>
      if id in tokens then l.(state := Delivering, claimedUntil := Some(now + ttl), token := tokens[id]) else l
    case RedeliverPending(job, token, error, next, _, _) =>
      if id == job && RedeliveryFence(r, token) then
        Unclaimed(l, Pending, error, Some(next)).(attempts := l.attempts + 1)
      else l
    case RedeliverAcknowledged(job, token, _, _) =>
      if id == job && RedeliveryFence(r, token) then Unclaimed(l, Acknowledged, "", None).(payload := "") else l
    case RedeliverDeadLetter(job, token, error, _, _) =>
      if id == job && RedeliveryFence(r, token) then Unclaimed(l, DeadLetter, error, None) else l
    case _ => l
  }

  /** Whether the call's UPDATE matches row `id`; every matching UPDATE also writes updated_at. */
  predicate Touches(id: JobId, r: Row, e: Event) {
    match e
    case Create(_, _, _, _) => false
    case NoLease(_) => false
    case Grant(job, _, _, _) => id == job
    case Heartbeat(job, worker, attempt, _, _, _) => id == job && Holds(r, worker, attempt)
    case Complete(job, worker, attempt, _, _, _) => id == job && OwnsGeneration(r, worker, attempt)
    case Fail(job, worker, attempt, _, retryable, _, _, _, _) => id == job && FailFence(r, worker, attempt, retryable)
    case Ensure(job, _, adopted, _, _) => id == job && !adopted
    case ReportTerminal(job, reported, _, _) => id == job && r.execution.id == reported && r.execution.id != ""
    case ClaimSlot(job, _, _, _, _) => id == job && !r.slot.claimed
    case FirstPending(job, worker, attempt, _, _, _, _, _) => id == job && FirstDeliveryFence(r, worker, attempt)
    case FirstDeadLetter(job, worker, attempt, _, _, _, _) => id == job && FirstDeliveryFence(r, worker, attempt)
    case Claim(_, _, _, tokens) => id in tokens
    case RedeliverPending(job, token, _, _, _, _) => id == job && RedeliveryFence(r, token)
    case RedeliverAcknowledged(job, token, _, _) => id == job && RedeliveryFence(r, token)
    case RedeliverDeadLetter(job, token, _, _, _) => id == job && RedeliveryFence(r, token)
  }

  function Effect(id: JobId, r: Row, e: Event): Row {
    if Touches(id, r, e) then
      r.(lease := LeaseEffect(id, r, e), execution := ExecutionEffect(id, r, e), slot := SlotEffect(id, r, e),
         ledger := LedgerEffect(id, r, e), updatedAt := e.now)
    else r
  }

  /** The table after a call. */
  function Next(t: Table, e: Event): Table {
    var moved := map id | id in t :: Effect(id, t[id], e);
    if e.Create? && e.created.Inserted? then moved[e.job := FreshRow(e.request, e.now)] else moved
  }

  // ---------- when a call can have the recorded result ----------

  predicate OwnsRequestId(t: Table, id: JobId, requestId: string) {
    id in t && t[id].requestId == Some(requestId)
  }

  /** CreateJob: the partial unique index ignores empty request ids; a duplicate job_id is an error. */
  ghost predicate CreateAllowed(t: Table, job: JobId, request: Request, outcome: CreateOutcome) {
    var key := request.validationRequestId;
    match outcome
    case Inserted => job !in t && (key == "" || forall id :: id in t ==> !OwnsRequestId(t, id, key))
    case Existing(found) =>
      key != "" && OwnsRequestId(t, found, key) && t[found].fingerprint == FingerprintOf(request)
    case Conflict =>
      key != "" && exists id :: OwnsRequestId(t, id, key) && t[id].fingerprint != FingerprintOf(request)
    case PrimaryKeyError => job in t
  }

  /** LeaseJob's ORDER BY created_at LIMIT 1; ties are the engine's choice. */
  ghost predicate OldestLeasable(t: Table, job: JobId, now: Instant) {
    && job in t && Leasable(t[job], now)
    && forall id :: id in t && Leasable(t[id], now) ==> t[job].createdAt <= t[id].createdAt
  }

  /** MarkExecutionTerminal's answer. */
  function ReportAnswer(t: Table, job: JobId, id: string): ReportOutcome {
    if job !in t then UnknownJob
    else if t[job].execution.id == "" then NothingToMark
    else if t[job].execution.id == id then Reported
    else Superseded
  }

  /** EnsureExecution's decision: adopt a live identity, mint otherwise. */
  predicate Adoptable(r: Row) {
    r.execution.id != "" && !r.execution.terminal
  }

  function ClaimableJobs(t: Table, now: Instant): set<JobId> {
    set id | id in t && Claimable(t[id], now)
  }

  /** ClaimPendingDeliveries' ORDER BY updated_at LIMIT; SQLite reads a negative limit as none. */
  ghost predicate ClaimAllowed(t: Table, limit: int, now: Instant, tokens: map<JobId, string>) {
    && tokens.Keys <= ClaimableJobs(t, now)
    && (limit < 0 || |ClaimableJobs(t, now)| <= limit ==> tokens.Keys == ClaimableJobs(t, now))
    && (0 <= limit < |ClaimableJobs(t, now)| ==> |tokens| == limit)
    && (forall id, other :: id in tokens && other in ClaimableJobs(t, now) - tokens.Keys ==>
          t[id].updatedAt <= t[other].updatedAt)
  }

  /** The recorded result is the one this table gives. Worker names are never empty: workerIdentity in
      cmd/nodesentinel/main.go always returns a non-empty one. */
  ghost predicate Allowed(t: Table, e: Event) {
    match e
    case Create(job, request, _, outcome) => CreateAllowed(t, job, request, outcome)
    case NoLease(now) => forall id :: id in t ==> !Leasable(t[id], now)
    case Grant(job, worker, _, now) => worker != "" && OldestLeasable(t, job, now)
    case Heartbeat(job, worker, attempt, _, _, ok) =>
      worker != "" && (ok <==> job in t && Holds(t[job], worker, attempt))
    case Complete(job, worker, attempt, _, _, ok) =>
      worker != "" && (ok <==> job in t && OwnsGeneration(t[job], worker, attempt))
    case Fail(job, worker, attempt, _, retryable, _, _, ok, _) =>
      worker != "" && (ok <==> job in t && FailFence(t[job], worker, attempt, retryable))
    case Ensure(job, id, adopted, _, ok) =>
      && (ok <==> job in t)
      && (if ok && Adoptable(t[job]) then adopted && id == t[job].execution.id else adopted <==> !ok)
    case ReportTerminal(job, id, _, report) => report == ReportAnswer(t, job, id)
    case ClaimSlot(job, worker, _, _, won) => won <==> job in t && !t[job].slot.claimed
    case FirstPending(job, worker, attempt, _, _, _, _, ok) =>
      ok <==> job in t && FirstDeliveryFence(t[job], worker, attempt)
    case FirstDeadLetter(job, worker, attempt, _, _, _, ok) =>
      ok <==> job in t && FirstDeliveryFence(t[job], worker, attempt)
    case Claim(limit, _, now, tokens) => ClaimAllowed(t, limit, now, tokens)
    case RedeliverPending(job, token, _, _, _, ok) => ok <==> job in t && RedeliveryFence(t[job], token)
    case RedeliverAcknowledged(job, token, _, ok) => ok <==> job in t && RedeliveryFence(t[job], token)
    case RedeliverDeadLetter(job, token, _, _, ok) => ok <==> job in t && RedeliveryFence(t[job], token)
  }
}
