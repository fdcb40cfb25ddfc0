/** Lease generations over whole runs: LeaseJob, Heartbeat, CompleteJob and FailJob. */
module Leases {
  import opened Values
  import opened Rows
  import opened Histories

  /** How many times the job was leased. */
  function Grants(h: History, job: JobId): nat {
    match h
    case Start => 0
    case Then(prev, e) => Grants(prev, job) + if e.Grant? && e.job == job then 1 else 0
  }

  /** The worker of the job's newest lease. */
  function Holder(h: History, job: JobId): string {
    match h
    case Start => ""
    case Then(prev, e) => if e.Grant? && e.job == job then e.worker else Holder(prev, job)
  }

  /** `worker` was handed the job as its attempt number `attempt`. */
  predicate WasGranted(h: History, job: JobId, worker: string, attempt: int) {
    && h.Then?
    && (|| (h.last.Grant? && h.last.job == job && h.last.worker == worker && Grants(h, job) == attempt)
        || WasGranted(h.prev, job, worker, attempt))
  }

  predicate LeaseReport(e: Event) {
    e.Heartbeat? || e.Complete? || e.Fail?
  }

  /** A job that does not exist was never leased. */
  lemma {:induction false} UnknownJobHasNoGrants(h: History, job: JobId)
    requires Legal(h) && job !in After(h)
    ensures Grants(h, job) == 0
  {
    if h.Then? {
      UnknownJobHasNoGrants(h.prev, job);
    }
  }

  /** attempt is exactly the number of leases granted, and a held lease belongs to the newest grant. */
  lemma {:induction false} AttemptCountsGrants(h: History, job: JobId)
    requires Legal(h) && job in After(h)
    ensures After(h)[job].lease.attempt == Grants(h, job)
    ensures Active(After(h)[job]) ==> After(h)[job].lease.owner == Holder(h, job)
  {
    if h.last.Create? && h.last.created.Inserted? && h.last.job == job {
      UnknownJobHasNoGrants(h.prev, job);
    } else {
      AttemptCountsGrants(h.prev, job);
      ReachableRowsAreValid(h.prev, job);
    }
  }

  /** A call that matches no row leaves the table as it was. */
  lemma UntouchedTable(t: Table, e: Event)
    requires !e.Create?
    requires forall id :: id in t ==> !Touches(id, t[id], e)
    ensures Next(t, e) == t
  {
  }

  /** Lease fencing: once generation n+1 is granted, no report of a generation up to n, under any worker
      name, changes anything, and its caller is told so. */
  lemma StaleGenerationIsFenced(h: History, e: Event)
    requires Legal(Then(h, e)) && LeaseReport(e) && e.attempt < Grants(h, e.job)
    ensures !e.ok
    ensures After(Then(h, e)) == After(h)
  {
    if e.job in After(h) {
      AttemptCountsGrants(h, e.job);
    }
    UntouchedTable(After(h), e);
  }

  /** Only the newest generation's own holder can have a report accepted, and only while the lease is held. */
  lemma AcceptedReportIsTheHolders(h: History, e: Event)
    requires Legal(Then(h, e)) && LeaseReport(e) && e.ok
    ensures e.job in After(h) && Active(After(h)[e.job])
    ensures e.attempt == Grants(h, e.job) && e.worker == Holder(h, e.job)
  {
    AttemptCountsGrants(h, e.job);
    ReachableRowsAreValid(h, e.job);
  }

  /** succeeded and failed are absorbing, although finishJob and the final FailJob test no status. */
  lemma {:induction false} FinishedIsAbsorbing(later: History, h: History, job: JobId)
    requires Extends(later, h) && Legal(later) && job in After(h) && Finished(After(h)[job])
    ensures job in After(later) && After(later)[job].lease == After(h)[job].lease
  {
    if later != h {
      FinishedIsAbsorbing(later.prev, h, job);
      ReachableRowsAreValid(later.prev, job);
      FinishedStep(After(later.prev), later.last, job);
    }
  }

  lemma FinishedStep(t: Table, e: Event, job: JobId)
    requires Allowed(t, e) && job in t && RowInvariant(t[job]) && Finished(t[job])
    ensures Next(t, e)[job].lease == t[job].lease
  {
  }

  /** That rests on worker names being non-empty: a finished row is reopened by a finishing report exactly
      when the report carries the empty name and the row's own attempt. */
  lemma EmptyWorkerReopens(job: JobId, r: Row, worker: string, attempt: int, summary: string, now: Instant)
    requires RowInvariant(r) && Finished(r)
    ensures Touches(job, r, Complete(job, worker, attempt, summary, now, true))
            <==> worker == "" && attempt == r.lease.attempt
    ensures worker == "" && attempt == r.lease.attempt && r.lease.status.Failed? ==>
              Effect(job, r, Complete(job, worker, attempt, summary, now, true)).lease.status.Succeeded?
  {
  }

  // ---------- confirmed lease loss ----------

  /** Generation (worker, attempt) no longer matches the row and never will. */
  predicate Dead(r: Row, worker: string, attempt: int) {
    r.lease.attempt > attempt || (r.lease.attempt == attempt && r.lease.owner != worker)
  }

  lemma {:induction false} GrantedWasCounted(h: History, job: JobId, worker: string, attempt: int)
    requires Legal(h) && WasGranted(h, job, worker, attempt)
    ensures job in After(h) && 1 <= attempt <= Grants(h, job)
    ensures attempt == Grants(h, job) ==> Holder(h, job) == worker
  {
    if !(h.last.Grant? && h.last.job == job && h.last.worker == worker && Grants(h, job) == attempt) {
      GrantedWasCounted(h.prev, job, worker, attempt);
    }
  }

  lemma {:induction false} DeadStaysDead(later: History, h: History, job: JobId, worker: string, attempt: int)
    requires Extends(later, h) && Legal(later) && job in After(h) && Dead(After(h)[job], worker, attempt)
    requires worker != ""
    ensures job in After(later) && Dead(After(later)[job], worker, attempt)
  {
    if later != h {
      DeadStaysDead(later.prev, h, job, worker, attempt);
      DeadStep(After(later.prev), later.last, job, worker, attempt);
    }
  }

  lemma DeadStep(t: Table, e: Event, job: JobId, worker: string, attempt: int)
    requires Allowed(t, e) && job in t && Dead(t[job], worker, attempt) && worker != ""
    ensures Dead(Next(t, e)[job], worker, attempt)
  {
  }

  /** Once a heartbeat of a granted generation is answered ErrNotFound, no later heartbeat, completion or
      failure of that generation is accepted or changes the table, in any continuation of the run. */
  lemma ConfirmedLossIsFinal(h: History, beat: Event, later: History, e: Event)
    requires Legal(Then(h, beat)) && beat.Heartbeat? && !beat.ok
    requires WasGranted(h, beat.job, beat.worker, beat.attempt)
    requires Extends(later, Then(h, beat)) && Legal(Then(later, e))
    requires LeaseReport(e) && e.job == beat.job && e.worker == beat.worker && e.attempt == beat.attempt
    ensures !e.ok
    ensures After(Then(later, e)) == After(later)
  {
    var job, worker, attempt := beat.job, beat.worker, beat.attempt;
    GrantedWasCounted(h, job, worker, attempt);
    AttemptCountsGrants(h, job);
    ReachableRowsAreValid(h, job);
    DeadStaysDead(later, Then(h, beat), job, worker, attempt);
    UntouchedTable(After(later), e);
  }

  // ---------- exclusive windows ----------

  /** The newest event that changed the job's lease. */
  function LastLeaseEvent(h: History, job: JobId): Option<Event> {
    match h
    case Start => None
    case Then(prev, e) =>
      if (e.Grant? && e.job == job) || (LeaseReport(e) && e.ok && e.job == job) then Some(e)
      else LastLeaseEvent(prev, job)
  }

  /** What the newest lease event says about the row. */
  predicate Mirrors(l: Lease, last: Option<Event>) {
    match last
    case None => l.status.Queued? && l.attempt == 0 && l.retryNotBefore.None?
    case Some(e) =>
      match e
      case Grant(_, worker, ttl, now) => l.status.Leased? && l.owner == worker && l.until == Some(now + ttl)
      case Heartbeat(_, worker, attempt, ttl, now, _) =>
        l.status.Running? && l.owner == worker && l.attempt == attempt && l.until == Some(now + ttl)
      case Complete(_, _, attempt, _, _, _) => l.status.Succeeded? && l.attempt == attempt
      case Fail(_, _, attempt, _, retryable, delay, now, _, _) =>
        if retryable then
          && l.status.Queued? && l.attempt == attempt
          && l.retryNotBefore == (if delay > 0 then Some(now + delay) else None)
        else l.status.Failed? && l.attempt == attempt
      case _ => false
  }

  lemma {:induction false} UnknownJobHasNoLeaseEvent(h: History, job: JobId)
    requires Legal(h) && job !in After(h)
    ensures LastLeaseEvent(h, job).None?
  {
    if h.Then? {
      UnknownJobHasNoLeaseEvent(h.prev, job);
    }
  }

  lemma {:induction false} LastLeaseEventMirrors(h: History, job: JobId)
    requires Legal(h) && job in After(h)
    ensures Mirrors(After(h)[job].lease, LastLeaseEvent(h, job))
  {
    if h.last.Create? && h.last.created.Inserted? && h.last.job == job {
      UnknownJobHasNoLeaseEvent(h.prev, job);
    } else {
      LastLeaseEventMirrors(h.prev, job);
      LeaseMirrorStep(After(h.prev), h.last, job, LastLeaseEvent(h.prev, job));
    }
  }

  lemma LeaseMirrorStep(t: Table, e: Event, job: JobId, last: Option<Event>)
    requires Allowed(t, e) && job in t && Mirrors(t[job].lease, last)
    requires !(e.Create? && e.created.Inserted? && e.job == job)
    ensures Mirrors(Next(t, e)[job].lease,
                    if (e.Grant? && e.job == job) || (LeaseReport(e) && e.ok && e.job == job) then Some(e) else last)
  {
  }

  /** Exactly when LeaseJob may hand the job out, told from the newest accepted lease call: always before the first
      lease, once the written deadline has strictly passed, once a requeue's delay is over, and never after the end. */
  lemma LeasableExactly(h: History, job: JobId, now: Instant)
    requires Legal(h) && job in After(h)
    ensures Leasable(After(h)[job], now) <==>
              match LastLeaseEvent(h, job)
              case None => true
              case Some(e) =>
                match e
                case Grant(_, _, ttl, at) => at + ttl < now
                case Heartbeat(_, _, _, ttl, at, _) => at + ttl < now
                case Fail(_, _, _, _, retryable, delay, at, _, _) => retryable && (delay <= 0 || at + delay <= now)
                case _ => false
  {
    LastLeaseEventMirrors(h, job);
  }

  /** The error text of the newest accepted outcome: none before the first and after a success. */
  function OutcomeError(h: History, job: JobId): string {
    match h
    case Start => ""
    case Then(prev, e) =>
      if e.Complete? && e.ok && e.job == job then ""
      else if e.Fail? && e.ok && e.job == job then e.error
      else OutcomeError(prev, job)
  }

  /** The summary of a success; a final failure erases it. */
  function OutcomeSummary(h: History, job: JobId): string {
    match h
    case Start => ""
    case Then(prev, e) =>
      if e.Complete? && e.ok && e.job == job then e.summary
      else if e.Fail? && e.ok && e.job == job && !e.retryable then ""
      else OutcomeSummary(prev, job)
  }

  lemma {:induction false} UnknownJobHasNoOutcome(h: History, job: JobId)
    requires Legal(h) && job !in After(h)
    ensures OutcomeError(h, job) == "" && OutcomeSummary(h, job) == ""
  {
    if h.Then? {
      UnknownJobHasNoOutcome(h.prev, job);
    }
  }

  /** last_error and result_summary tell the newest outcome; leases and heartbeats keep both. */
  lemma {:induction false} RowTellsTheOutcome(h: History, job: JobId)
    requires Legal(h) && job in After(h)
    ensures After(h)[job].lease.lastError == OutcomeError(h, job)
    ensures After(h)[job].lease.summary == OutcomeSummary(h, job)
  {
    if h.last.Create? && h.last.created.Inserted? && h.last.job == job {
      UnknownJobHasNoOutcome(h.prev, job);
    } else {
      RowTellsTheOutcome(h.prev, job);
      OutcomeTextStep(After(h.prev), h.last, job);
    }
  }

  lemma OutcomeTextStep(t: Table, e: Event, job: JobId)
    requires Allowed(t, e) && job in t && !(e.Create? && e.created.Inserted? && e.job == job)
    ensures var l, q := t[job].lease, Next(t, e)[job].lease;
            if e.Complete? && e.ok && e.job == job then q.lastError == "" && q.summary == e.summary
            else if e.Fail? && e.ok && e.job == job then
              q.lastError == e.error && q.summary == if e.retryable then l.summary else ""
            else q.lastError == l.lastError && q.summary == l.summary
  {
  }

  /** Two successive grants of one job are separated: the previous holder's last written deadline has
      strictly passed, or that holder requeued the job itself and its delay has elapsed. */
  lemma GrantsAreSeparated(h: History, grant: Event)
    requires Legal(Then(h, grant)) && grant.Grant? && Grants(h, grant.job) > 0
    ensures LastLeaseEvent(h, grant.job).Some?
    ensures match LastLeaseEvent(h, grant.job).value
            case Grant(_, _, ttl, now) => now + ttl < grant.now
            case Heartbeat(_, worker, attempt, ttl, now, _) =>
              now + ttl < grant.now && worker == Holder(h, grant.job) && attempt == Grants(h, grant.job)
            case Fail(_, _, attempt, _, retryable, delay, now, _, _) =>
              retryable && attempt == Grants(h, grant.job) && (delay > 0 ==> now + delay <= grant.now)
            case _ => false
  {
    AttemptCountsGrants(h, grant.job);
    LastLeaseEventMirrors(h, grant.job);
    ReachableRowsAreValid(h, grant.job);
  }

  // ---------- no stranding, no head-of-line blocking ----------

  predicate LeasableFrom(r: Row, from: Instant, now: Instant) {
    from <= now ==> Leasable(r, now)
  }

  /** Every reachable unfinished job is leasable at all late enough times; a finished one never is. */
  lemma UnfinishedJobsAreNotStranded(h: History, job: JobId) returns (from: Instant)
    requires Legal(h) && job in After(h)
    ensures !Finished(After(h)[job]) ==> forall now :: LeasableFrom(After(h)[job], from, now)
    ensures Finished(After(h)[job]) ==> forall now :: !Leasable(After(h)[job], now)
  {
    ReachableRowsAreValid(h, job);
    var l := After(h)[job].lease;
    from := if l.retryNotBefore.Some? then l.retryNotBefore.value else if l.until.Some? then l.until.value + 1 else 0;
  }

  /** The clock value of the CreateJob call that inserted the job. */
  function CreationTime(h: History, job: JobId): Instant {
    if Insertion(h, job).Some? then Insertion(h, job).value.now else 0
  }

  /** LeaseJob is first in, first out: whatever else can be leased was not created earlier. */
  lemma GrantTakesTheEarliestCreated(h: History, g: Event, other: JobId)
    requires Legal(Then(h, g)) && g.Grant? && other in After(h) && Leasable(After(h)[other], g.now)
    ensures CreationTime(h, g.job) <= CreationTime(h, other)
  {
    RowRemembersItsCreation(h, g.job);
    RowRemembersItsCreation(h, other);
  }

  function LeasableJobs(t: Table, now: Instant): set<JobId> {
    set id | id in t && Leasable(t[id], now)
  }

  /** `later` continues `h` by successful LeaseJob calls only, all at one instant and with a positive ttl. */
  predicate Drains(later: History, h: History, now: Instant) {
    || later == h
    || (later.Then? && later.last.Grant? && later.last.now == now && later.last.ttl > 0 && Drains(later.prev, h, now))
  }

  /** The jobs those calls handed out, in order. */
  function Picks(later: History, h: History): seq<JobId> {
    if later == h || later.Start? || !later.last.Grant? then [] else Picks(later.prev, h) + [later.last.job]
  }

  function Members(s: seq<JobId>): set<JobId> {
    set p | p in s
  }

  lemma MembersAppend(s: seq<JobId>, id: JobId)
    ensures Members(s + [id]) == Members(s) + {id}
  {
  }

  ghost predicate NoRepeats(picks: seq<JobId>) {
    forall i, j :: 0 <= i < j < |picks| ==> picks[i] != picks[j]
  }

  ghost predicate OldestFirst(t: Table, picks: seq<JobId>) {
    && (forall p :: p in picks ==> p in t)
    && forall i, j :: 0 <= i < j < |picks| ==> t[picks[i]].createdAt <= t[picks[j]].createdAt
  }

  ghost predicate NoOlderThan(t: Table, picks: seq<JobId>, rest: set<JobId>) {
    forall p, id :: p in picks && id in rest && p in t && id in t ==> t[p].createdAt <= t[id].createdAt
  }

  /** A lease with a positive ttl takes its job, and no other, out of the eligible set of that instant. */
  lemma GrantTakesOne(t: Table, e: Event)
    requires e.Grant? && e.ttl > 0 && Allowed(t, e)
    ensures LeasableJobs(Next(t, e), e.now) == LeasableJobs(t, e.now) - {e.job}
    ensures Next(t, e).Keys == t.Keys && e.job in LeasableJobs(t, e.now)
    ensures forall id :: id in t ==> Next(t, e)[id].createdAt == t[id].createdAt
    ensures forall id :: id in LeasableJobs(t, e.now) ==> t[e.job].createdAt <= t[id].createdAt
  {
    assert !Leasable(Next(t, e)[e.job], e.now);
  }

  /** Halfway through the drain: what was picked is gone from the eligible set, and nothing left is older. */
  lemma {:induction false} DrainProgress(later: History, h: History, now: Instant)
    requires Drains(later, h, now) && Legal(later)
    ensures After(later).Keys == After(h).Keys
    ensures forall id :: id in After(h) ==> After(later)[id].createdAt == After(h)[id].createdAt
    ensures NoRepeats(Picks(later, h)) && OldestFirst(After(h), Picks(later, h))
    ensures Members(Picks(later, h)) <= LeasableJobs(After(h), now)
    ensures LeasableJobs(After(later), now) == LeasableJobs(After(h), now) - Members(Picks(later, h))
    ensures NoOlderThan(After(h), Picks(later, h), LeasableJobs(After(later), now))
  {
    if later != h {
      DrainProgress(later.prev, h, now);
      GrantTakesOne(After(later.prev), later.last);
      var before := Picks(later.prev, h);
      var job := later.last.job;
      assert Picks(later, h) == before + [job];
      MembersAppend(before, job);
      DrainOrder(After(h), before, job, LeasableJobs(After(later.prev), now));
    }
  }

  lemma DrainOrder(t: Table, before: seq<JobId>, job: JobId, rest: set<JobId>)
    requires NoRepeats(before) && OldestFirst(t, before) && NoOlderThan(t, before, rest)
    requires job in rest && job in t && job !in before
    requires forall id :: id in rest && id in t ==> t[job].createdAt <= t[id].createdAt
    ensures NoRepeats(before + [job]) && OldestFirst(t, before + [job]) && NoOlderThan(t, before + [job], rest - {job})
  {
    assert forall p :: p in before + [job] ==> p in before || p == job;
  }

  lemma NothingLeft(t: Table, now: Instant)
    requires Allowed(t, NoLease(now))
    ensures LeasableJobs(t, now) == {}
  {
  }

  lemma {:induction false} DrainsIsLegal(later: History, h: History, now: Instant)
    requires Drains(later, h, now) && Legal(later)
    ensures Legal(h)
  {
    if later != h {
      DrainsIsLegal(later.prev, h, now);
    }
  }

  lemma InCreationOrder(h: History, picks: seq<JobId>)
    requires Legal(h) && OldestFirst(After(h), picks)
    ensures forall i, j :: 0 <= i < j < |picks| ==> CreationTime(h, picks[i]) <= CreationTime(h, picks[j])
  {
    forall i | 0 <= i < |picks| ensures CreationTime(h, picks[i]) == After(h)[picks[i]].createdAt {
      RowRemembersItsCreation(h, picks[i]);
    }
  }

  lemma AllTaken(all: set<JobId>, taken: set<JobId>)
    requires taken <= all && all - taken == {}
    ensures taken == all
  {
    assert all == (all - taken) + taken;
  }

  /** Repeated LeaseJob calls at one instant hand out each eligible job exactly once, oldest first, before
      the store answers that no job is available: a delayed or held job hides nothing behind it. */
  lemma DrainHandsOutEveryEligibleJob(later: History, h: History, now: Instant)
    requires Drains(later, h, now) && Legal(Then(later, NoLease(now)))
    ensures NoRepeats(Picks(later, h)) && OldestFirst(After(h), Picks(later, h))
    ensures Members(Picks(later, h)) == LeasableJobs(After(h), now)
    ensures |Picks(later, h)| == |LeasableJobs(After(h), now)|
    ensures var picks := Picks(later, h);
            forall i, j :: 0 <= i < j < |picks| ==> CreationTime(h, picks[i]) <= CreationTime(h, picks[j])
  {
    DrainProgress(later, h, now);
    NothingLeft(After(later), now);
    AllTaken(LeasableJobs(After(h), now), Members(Picks(later, h)));
    DistinctCount(Picks(later, h));
    DrainsIsLegal(later, h, now);
    InCreationOrder(h, Picks(later, h));
  }

  lemma {:induction false} DistinctCount(s: seq<JobId>)
    requires NoRepeats(s)
    ensures |Members(s)| == |s|
  {
    if s != [] {
      var init := s[..|s| - 1];
      DistinctCount(init);
      MembersAppend(init, s[|s| - 1]);
      assert s == init + [s[|s| - 1]];
    }
  }
}
