/** The retry budget over whole runs: decideRetry driving FailJob, with any number of expired-lease reclaims. */
module RetryBudget {
  import opened Values
  import opened Fingerprint
  import opened FailurePolicy
  import opened RetryPacing
  import opened Rows
  import opened Histories
  import opened Leases

  /** The lease as the worker read it back when it was granted: what decideRetry is given. */
  function Snapshot(h: History, job: JobId): Lease {
    match h
    case Start => Lease(Queued, "", 0, None, None, "", "")
    case Then(prev, e) =>
      if e.Grant? && e.job == job && job in After(h) then After(h)[job].lease else Snapshot(prev, job)
  }

  /** An accepted FailJob whose arguments came out of decideRetry for some reason text. */
  ghost predicate PolicyFail(h: History, e: Event, maxAttempts: int)
    requires e.Fail?
  {
    var s := Snapshot(h, e.job);
    exists reason :: var d := DecideRetry(e.kind, s.attempt, s.lastError, reason, maxAttempts, e.delay);
      d.retry == e.retryable && d.reason == e.error
  }

  /** Every accepted failure of the job was decided by decideRetry. */
  ghost predicate FollowsPolicy(h: History, job: JobId, maxAttempts: int) {
    match h
    case Start => true
    case Then(prev, e) =>
      FollowsPolicy(prev, job, maxAttempts) && (e.Fail? && e.ok && e.job == job ==> PolicyFail(prev, e, maxAttempts))
  }

  predicate Requeue(e: Event, job: JobId) {
    e.Fail? && e.ok && e.retryable && e.job == job
  }

  /** Every requeue of the job was delayed by RetryDelay of its attempt. */
  predicate Paced(h: History, job: JobId) {
    match h
    case Start => true
    case Then(prev, e) => Paced(prev, job) && (Requeue(e, job) ==> Cap(e.attempt) / 2 <= e.delay <= Cap(e.attempt))
  }

  /** What every worker does with a failure of the job. */
  ghost predicate WorkerPolicy(h: History, job: JobId, maxAttempts: int) {
    FollowsPolicy(h, job, maxAttempts) && Paced(h, job)
  }

  function Requeues(h: History, job: JobId): nat {
    match h
    case Start => 0
    case Then(prev, e) => Requeues(prev, job) + if Requeue(e, job) then 1 else 0
  }

  function UnknownRequeues(h: History, job: JobId): nat {
    match h
    case Start => 0
    case Then(prev, e) => UnknownRequeues(prev, job) + if Requeue(e, job) && e.kind.Unknown? then 1 else 0
  }

  /** The classification of the newest requeue. */
  function LastRequeue(h: History, job: JobId): Option<FailureClass> {
    match h
    case Start => None
    case Then(prev, e) => if Requeue(e, job) then Some(e.kind) else LastRequeue(prev, job)
  }

  /** Leases granted by taking over an expired one. */
  function Reclaims(h: History, job: JobId): nat {
    match h
    case Start => 0
    case Then(prev, e) =>
      Reclaims(prev, job) + if e.Grant? && e.job == job && job in After(prev) && Active(After(prev)[job]) then 1 else 0
  }

  lemma {:induction false} UnknownJobHasNoCounts(h: History, job: JobId)
    requires Legal(h) && job !in After(h)
    ensures Requeues(h, job) == UnknownRequeues(h, job) == Reclaims(h, job) == 0 && LastRequeue(h, job).None?
  {
    if h.Then? {
      UnknownJobHasNoCounts(h.prev, job);
    }
  }

  /** While a lease is held, the row still carries the error text and attempt its holder read. */
  lemma {:induction false} SnapshotIsCurrent(h: History, job: JobId)
    requires Legal(h) && job in After(h) && Active(After(h)[job])
    ensures Snapshot(h, job).lastError == After(h)[job].lease.lastError
    ensures Snapshot(h, job).attempt == After(h)[job].lease.attempt
  {
    if h.last.Create? && h.last.created.Inserted? && h.last.job == job {
      assert false;
    } else if h.last.Grant? && h.last.job == job {
    } else {
      assert Active(After(h.prev)[job]);
      SnapshotIsCurrent(h.prev, job);
    }
  }

  /** Without a new grant the snapshot stays the same. */
  lemma {:induction false} SnapshotStays(later: History, h: History, job: JobId)
    requires Extends(later, h)
    ensures Grants(h, job) <= Grants(later, job)
    ensures Grants(later, job) == Grants(h, job) ==> Snapshot(later, job) == Snapshot(h, job)
  {
    if later != h {
      SnapshotStays(later.prev, h, job);
    }
  }

  /** Conservation of leases: every lease is the first one, follows a requeue, or takes over an expired one. */
  lemma {:induction false} LeaseAccounting(h: History, job: JobId)
    requires Legal(h) && job in After(h)
    ensures Grants(h, job)
            == Requeues(h, job) + Reclaims(h, job) + if After(h)[job].lease.status.Queued? then 0 else 1
  {
    if h.last.Create? && h.last.created.Inserted? && h.last.job == job {
      UnknownJobHasNoCounts(h.prev, job);
      UnknownJobHasNoGrants(h.prev, job);
    } else {
      LeaseAccounting(h.prev, job);
      if LeaseReport(h.last) && h.last.ok && h.last.job == job {
        AcceptedReportIsTheHolders(h.prev, h.last);
      }
    }
  }

  /** A failure accepted at attempt >= maxAttempts is final. */
  lemma ExhaustedFailureIsFinal(h: History, e: Event, maxAttempts: int)
    requires Legal(Then(h, e)) && e.Fail? && FollowsPolicy(Then(h, e), e.job, maxAttempts)
    requires e.ok && e.attempt >= maxAttempts
    ensures After(Then(h, e))[e.job].lease.status.Failed?
  {
    AcceptedReportIsTheHolders(h, e);
    AttemptCountsGrants(h, e.job);
    SnapshotIsCurrent(h, e.job);
  }

  /** A requeued UNKNOWN leaves its marker in the row until the next outcome. */
  lemma {:induction false} MarkerStays(h: History, job: JobId, maxAttempts: int)
    requires Legal(h) && FollowsPolicy(h, job, maxAttempts) && job in After(h)
    requires !Finished(After(h)[job])
    ensures LastRequeue(h, job) == Some(Unknown) ==>
              Contains(After(h)[job].lease.lastError, UNKNOWN_RETRY_MARKER)
  {
    var e := h.last;
    if e.Create? && e.created.Inserted? && e.job == job {
      UnknownJobHasNoCounts(h.prev, job);
    } else if Requeue(e, job) {
      var s := Snapshot(h.prev, job);
      var reason :| var d := DecideRetry(e.kind, s.attempt, s.lastError, reason, maxAttempts, e.delay);
                    d.retry == e.retryable && d.reason == e.error;
      DecideRetryPolicy(e.kind, s.attempt, s.lastError, reason, maxAttempts, e.delay);
    } else {
      ReachableRowsAreValid(h.prev, job);
      MarkerStays(h.prev, job, maxAttempts);
    }
  }

  /** No two successive requeues of a job are both UNKNOWN. */
  lemma UnknownIsNeverRequeuedTwiceInARow(h: History, e: Event, maxAttempts: int)
    requires Legal(Then(h, e)) && e.Fail? && FollowsPolicy(Then(h, e), e.job, maxAttempts)
    requires Requeue(e, e.job) && e.kind.Unknown?
    ensures LastRequeue(h, e.job) != Some(Unknown)
    ensures !Contains(After(h)[e.job].lease.lastError, UNKNOWN_RETRY_MARKER)
  {
    AcceptedReportIsTheHolders(h, e);
    MarkerStays(h, e.job, maxAttempts);
    SnapshotIsCurrent(h, e.job);
  }

  /** The budget: at most maxAttempts-1 requeues and at most maxAttempts/2 UNKNOWN ones, however often the
      lease expires and is reclaimed in between. */
  lemma {:induction false} RequeuesAreBounded(h: History, job: JobId, maxAttempts: int)
    requires Legal(h) && FollowsPolicy(h, job, maxAttempts) && job in After(h) && maxAttempts >= 1
    ensures Requeues(h, job) <= maxAttempts - 1
    ensures UnknownRequeues(h, job) <= maxAttempts / 2
    ensures 2 * UnknownRequeues(h, job) <= Requeues(h, job) + 1
    ensures LastRequeue(h, job) != Some(Unknown) ==>
              2 * UnknownRequeues(h, job) <= Requeues(h, job)
  {
    var e := h.last;
    if e.Create? && e.created.Inserted? && e.job == job {
      UnknownJobHasNoCounts(h.prev, job);
    } else {
      RequeuesAreBounded(h.prev, job, maxAttempts);
      if Requeue(e, job) {
        AcceptedReportIsTheHolders(h.prev, e);
        AttemptCountsGrants(h.prev, job);
        SnapshotIsCurrent(h.prev, job);
        LeaseAccounting(h.prev, job);
        assert e.attempt < maxAttempts;
        if e.kind.Unknown? {
          UnknownIsNeverRequeuedTwiceInARow(h.prev, e, maxAttempts);
        }
      }
    }
  }

  // ---------- the budget is reached ----------

  /** The class and the stored error text of the k-th requeue below: UNKNOWN first, then alternating. */
  function AlternatingKind(k: nat): FailureClass {
    if k % 2 == 1 then Unknown else TransientInfra
  }

  function AlternatingError(k: nat): string {
    if k == 0 then "" else if k % 2 == 1 then "x " + UNKNOWN_RETRY_MARKER else "x"
  }

  function AlternatingGrant(): Event {
    Grant("job", "worker", 1, 0)
  }

  function AlternatingFail(k: nat): Event {
    Fail("job", "worker", k, AlternatingError(k), true, 0, 0, true, AlternatingKind(k))
  }

  /** One queued job after its k-th requeue. */
  predicate RequeuedTimes(t: Table, k: nat) {
    && t.Keys == {"job"} && t["job"].lease.status.Queued? && t["job"].lease.retryNotBefore.None?
    && t["job"].lease.attempt == k && t["job"].lease.lastError == AlternatingError(k)
  }

  lemma AlternatingStep(t: Table, k: nat)
    requires RequeuedTimes(t, k)
    ensures Allowed(t, AlternatingGrant())
    ensures var u := Next(t, AlternatingGrant());
      && u.Keys == {"job"}
      && u["job"].lease == Lease(Leased, "worker", k + 1, Some(1), None, AlternatingError(k), t["job"].lease.summary)
      && Allowed(u, AlternatingFail(k + 1)) && RequeuedTimes(Next(u, AlternatingFail(k + 1)), k + 1)
  {
    assert forall id :: id in t ==> id == "job";
  }

  lemma AlternatingDecision(k: nat, maxAttempts: int)
    requires 1 <= k < maxAttempts
    ensures var d := DecideRetry(AlternatingKind(k), k, AlternatingError(k - 1), "x", maxAttempts, 0);
      d.retry && d.reason == AlternatingError(k)
  {
    if k % 2 == 1 {
      assert |AlternatingError(k - 1)| <= 1 && |UNKNOWN_RETRY_MARKER| > 1;
      assert !Contains(AlternatingError(k - 1), UNKNOWN_RETRY_MARKER);
    }
  }

  /** One more attempt, granted at its turn and requeued by the policy. */
  lemma AlternatingExtends(h: History, k: nat, maxAttempts: int)
    requires 1 <= k < maxAttempts
    requires Legal(h) && FollowsPolicy(h, "job", maxAttempts) && RequeuedTimes(After(h), k - 1)
    ensures var next := Then(Then(h, AlternatingGrant()), AlternatingFail(k));
      && Legal(next) && FollowsPolicy(next, "job", maxAttempts) && RequeuedTimes(After(next), k)
      && Requeues(next, "job") == Requeues(h, "job") + 1
      && UnknownRequeues(next, "job") == UnknownRequeues(h, "job") + if k % 2 == 1 then 1 else 0
  {
    var g := Then(h, AlternatingGrant());
    AlternatingStep(After(h), k - 1);
    AlternatingDecision(k, maxAttempts);
    assert Legal(g);
    assert Snapshot(g, "job") == After(g)["job"].lease;
    assert PolicyFail(g, AlternatingFail(k), maxAttempts);
  }

  /** The table holds one job that was never leased. */
  lemma OneJob() returns (h: History)
    ensures Legal(h) && RequeuedTimes(After(h), 0)
    ensures forall maxAttempts :: FollowsPolicy(h, "job", maxAttempts)
    ensures Requeues(h, "job") == UnknownRequeues(h, "job") == Grants(h, "job") == 0
  {
    h := Then(Start, Create("job", Request("", "", "", "", "", "", "", [], "", ""), 0, Inserted));
    assert Legal(h.prev) && h.prev == Start;
    assert forall maxAttempts :: FollowsPolicy(h.prev, "job", maxAttempts);
  }

  /** A run of k attempts that all fail and are requeued. */
  lemma {:induction false} AlternatingRun(k: nat, maxAttempts: int) returns (h: History)
    requires k < maxAttempts
    ensures Legal(h) && FollowsPolicy(h, "job", maxAttempts) && RequeuedTimes(After(h), k)
    ensures Requeues(h, "job") == k && UnknownRequeues(h, "job") == (k + 1) / 2
  {
    if k == 0 {
      h := OneJob();
    } else {
      var g := AlternatingRun(k - 1, maxAttempts);
      AlternatingExtends(g, k, maxAttempts);
      h := Then(Then(g, AlternatingGrant()), AlternatingFail(k));
    }
  }

  /** Both bounds are exact: some run requeues the job maxAttempts-1 times, maxAttempts/2 of them UNKNOWN. */
  lemma BudgetIsReached(maxAttempts: nat) returns (h: History)
    requires maxAttempts >= 1
    ensures Legal(h) && FollowsPolicy(h, "job", maxAttempts) && "job" in After(h)
    ensures Requeues(h, "job") == maxAttempts - 1 && UnknownRequeues(h, "job") == maxAttempts / 2
  {
    h := AlternatingRun(maxAttempts - 1, maxAttempts);
  }

  // ---------- the pace of retries ----------

  lemma {:induction false} LastRequeueIsPaced(h: History, job: JobId)
    requires Paced(h, job) && LastLeaseEvent(h, job).Some? && Requeue(LastLeaseEvent(h, job).value, job)
    ensures var e := LastLeaseEvent(h, job).value; Cap(e.attempt) / 2 <= e.delay <= Cap(e.attempt)
  {
    if LastLeaseEvent(h, job) != Some(h.last) {
      LastRequeueIsPaced(h.prev, job);
    }
  }

  lemma CapIsPositive(attempt: int)
    ensures Cap(attempt) / 2 > 0
  {
    assert RETRY_BASE_DELAY * Pow2(if attempt < 1 then 0 else attempt - 1) >= RETRY_BASE_DELAY;
  }

  /** A job requeued at attempt n is not leased again before half of attempt n's backoff cap has passed, and it can be
      leased whenever the whole cap has passed. */
  lemma RequeuedJobWaits(h: History, job: JobId, now: Instant)
    requires Legal(h) && Paced(h, job) && job in After(h)
    requires LastLeaseEvent(h, job).Some? && Requeue(LastLeaseEvent(h, job).value, job)
    ensures var e := LastLeaseEvent(h, job).value;
            && e.attempt == Grants(h, job)
            && (Leasable(After(h)[job], now) ==> e.now + Cap(e.attempt) / 2 <= now)
            && (e.now + Cap(e.attempt) <= now ==> Leasable(After(h)[job], now))
  {
    var e := LastLeaseEvent(h, job).value;
    LastLeaseEventMirrors(h, job);
    AttemptCountsGrants(h, job);
    LastRequeueIsPaced(h, job);
    CapIsPositive(e.attempt);
  }

  // ---------- maxAttempts and the number of leases ----------

  /** Under the policy a queued job has attempts left: only a failure before the last attempt is requeued. */
  lemma {:induction false} QueuedIsUnderBudget(h: History, job: JobId, maxAttempts: int)
    requires Legal(h) && FollowsPolicy(h, job, maxAttempts) && job in After(h) && maxAttempts >= 1
    requires After(h)[job].lease.status.Queued?
    ensures After(h)[job].lease.attempt < maxAttempts
  {
    var e := h.last;
    if e.Create? && e.created.Inserted? && e.job == job {
    } else if Requeue(e, job) {
      AcceptedReportIsTheHolders(h.prev, e);
      SnapshotIsCurrent(h.prev, job);
      RequeueIsUnderBudget(h.prev, e, maxAttempts);
    } else {
      QueuedCameFromQueued(After(h.prev), e, job);
      QueuedIsUnderBudget(h.prev, job, maxAttempts);
    }
  }

  lemma RequeueIsUnderBudget(h: History, e: Event, maxAttempts: int)
    requires e.Fail? && e.retryable && PolicyFail(h, e, maxAttempts)
    ensures Snapshot(h, e.job).attempt < maxAttempts
  {
    var s := Snapshot(h, e.job);
    var reason :| var d := DecideRetry(e.kind, s.attempt, s.lastError, reason, maxAttempts, e.delay);
                  d.retry == e.retryable && d.reason == e.error;
    DecideRetryPolicy(e.kind, s.attempt, s.lastError, reason, maxAttempts, e.delay);
  }

  lemma QueuedCameFromQueued(t: Table, e: Event, job: JobId)
    requires Allowed(t, e) && job in t && !Requeue(e, job) && Next(t, e)[job].lease.status.Queued?
    requires !(e.Create? && e.created.Inserted? && e.job == job)
    ensures t[job].lease == Next(t, e)[job].lease
  {
  }

  /** maxAttempts bounds requeues, not leases. A lease goes past it exactly when LeaseJob takes its second branch, the
      reclaim of an expired lease, on a row whose attempt has reached it. */
  lemma LeasePassesBudgetExactlyByReclaim(h: History, g: Event, maxAttempts: int)
    requires Legal(Then(h, g)) && g.Grant? && FollowsPolicy(h, g.job, maxAttempts) && maxAttempts >= 1
    ensures var l := After(h)[g.job].lease;
      Grants(Then(h, g), g.job) > maxAttempts <==>
        Active(After(h)[g.job]) && l.until.Some? && l.until.value < g.now && l.attempt >= maxAttempts
  {
    AttemptCountsGrants(h, g.job);
    ReachableRowsAreValid(h, g.job);
    if After(h)[g.job].lease.status.Queued? {
      QueuedIsUnderBudget(h, g.job, maxAttempts);
    }
  }

  /** So a job is leased at most maxAttempts plus reclaims times. */
  lemma LeasesAreBoundedUpToReclaims(h: History, job: JobId, maxAttempts: int)
    requires Legal(h) && FollowsPolicy(h, job, maxAttempts) && job in After(h) && maxAttempts >= 1
    ensures Grants(h, job) <= maxAttempts + Reclaims(h, job)
  {
    RequeuesAreBounded(h, job, maxAttempts);
    LeaseAccounting(h, job);
  }

  /** One job, leasable again from instant n+1 on. */
  predicate Abandoned(t: Table, n: nat) {
    && t.Keys == {"job"}
    && (if n == 0 then t["job"].lease.status.Queued? && t["job"].lease.retryNotBefore.None?
        else Active(t["job"]) && t["job"].lease.until == Some(n))
  }

  lemma AbandonedAgain(t: Table, n: nat)
    requires Abandoned(t, n)
    ensures Allowed(t, Grant("job", "worker", 0, n + 1)) && Abandoned(Next(t, Grant("job", "worker", 0, n + 1)), n + 1)
  {
    assert forall id :: id in t ==> id == "job";
  }

  /** A run in which one worker after another lets its lease expire. */
  lemma {:induction false} AbandonedLeases(n: nat, maxAttempts: int) returns (h: History)
    ensures Legal(h) && FollowsPolicy(h, "job", maxAttempts) && Abandoned(After(h), n) && Grants(h, "job") == n
  {
    if n == 0 {
      h := OneJob();
    } else {
      var g := AbandonedLeases(n - 1, maxAttempts);
      AbandonedAgain(After(g), n - 1);
      h := Then(g, Grant("job", "worker", 0, n));
    }
  }

  /** The comment on maxAttempts says that it caps the number of leases; for every value it does not. */
  lemma MaxAttemptsDoesNotCapLeases(maxAttempts: nat) returns (h: History)
    ensures Legal(h) && FollowsPolicy(h, "job", maxAttempts) && "job" in After(h) && Grants(h, "job") > maxAttempts
  {
    h := AbandonedLeases(maxAttempts + 1, maxAttempts);
  }
}
