/** Execution identities over whole runs: EnsureExecution and MarkExecutionTerminal, for arbitrary
    concurrent and stale callers. */
module ExecutionIdentities {
  import opened Rows
  import opened Histories
  import opened Leases

  /** The current identity, or "" before the first mint. */
  function Newest(ids: seq<string>): string {
    if ids == [] then "" else ids[|ids| - 1]
  }

  /** Since the newest identity was minted, it was reported terminal by that exact id. */
  predicate ReportedSinceMint(h: History, job: JobId) {
    match h
    case Start => false
    case Then(prev, e) =>
      if e.Ensure? && e.job == job && e.ok && !e.adopted then false
      else (e.ReportTerminal? && e.job == job && e.report.Reported? && e.id == Newest(Identities(prev, job)))
           || ReportedSinceMint(prev, job)
  }

  lemma {:induction false} UnknownJobHasNoIdentity(h: History, job: JobId)
    requires Legal(h) && job !in After(h)
    ensures Identities(h, job) == [] && !ReportedSinceMint(h, job)
  {
    if h.Then? {
      UnknownJobHasNoIdentity(h.prev, job);
    }
  }

  /** The row always holds the newest minted identity, and its terminal flag says exactly that this very
      identity was reported while it was current. */
  lemma {:induction false} RowHoldsNewestIdentity(h: History, job: JobId)
    requires Legal(h) && job in After(h)
    ensures After(h)[job].execution.id == Newest(Identities(h, job))
    ensures After(h)[job].execution.terminal <==> ReportedSinceMint(h, job)
    ensures Identities(h, job) == [] <==> Newest(Identities(h, job)) == ""
    ensures forall i, j :: 0 <= i < j < |Identities(h, job)| ==> Identities(h, job)[i] != Identities(h, job)[j]
  {
    if h.last.Create? && h.last.created.Inserted? && h.last.job == job {
      UnknownJobHasNoIdentity(h.prev, job);
    } else {
      RowHoldsNewestIdentity(h.prev, job);
      ReachableRowsAreValid(h.prev, job);
    }
  }

  /** A second identity is minted only after the one before it was reported terminal by its own id. */
  lemma MintFollowsReport(h: History, mint: Event)
    requires Legal(Then(h, mint)) && mint.Ensure? && mint.ok && !mint.adopted
    ensures Identities(h, mint.job) != [] ==> ReportedSinceMint(h, mint.job)
    ensures mint.id !in Identities(h, mint.job)
    ensures Identities(Then(h, mint), mint.job) == Identities(h, mint.job) + [mint.id]
  {
    RowHoldsNewestIdentity(h, mint.job);
  }

  /** At every earlier point of the run where the job had an identity other than today's, that identity
      was reported terminal before it was replaced. */
  lemma {:induction false} EveryReplacedIdentityWasReported(later: History, h: History, job: JobId)
    requires Extends(later, h) && Legal(later) && job in After(h)
    requires Identities(h, job) != [] && Newest(Identities(later, job)) != Newest(Identities(h, job))
    ensures exists at :: Extends(later, at) && Extends(at, h) && Identities(at, job) == Identities(h, job)
                         && ReportedSinceMint(at, job)
  {
    if Identities(later.prev, job) == Identities(h, job) {
      MintFollowsReport(later.prev, later.last);
      IdentitiesGrow(later.prev, h, job);
      assert Extends(later, later.prev) && Extends(later.prev, h);
    } else {
      IdentitiesGrow(later.prev, h, job);
      RowsPersist(later.prev, h, job);
      RowHoldsNewestIdentity(later.prev, job);
      EveryReplacedIdentityWasReported(later.prev, h, job);
      var at :| Extends(later.prev, at) && Extends(at, h) && Identities(at, job) == Identities(h, job)
                && ReportedSinceMint(at, job);
      assert Extends(later, at);
    }
  }

  lemma {:induction false} IdentitiesGrow(later: History, h: History, job: JobId)
    requires Extends(later, h)
    ensures Identities(h, job) <= Identities(later, job)
  {
    if later != h {
      IdentitiesGrow(later.prev, h, job);
    }
  }

  /** Every caller between two mints is handed the same identity, the newest one. */
  lemma CallersShareTheIdentity(h: History, e: Event)
    requires Legal(Then(h, e)) && e.Ensure? && e.ok
    ensures e.id == Newest(Identities(Then(h, e), e.job))
    ensures e.adopted <==> Identities(h, e.job) != [] && !ReportedSinceMint(h, e.job)
  {
    RowHoldsNewestIdentity(h, e.job);
  }

  /** A report about any identity but the current one changes nothing, and its caller learns which case it is. */
  lemma StaleReportReleasesNothing(h: History, e: Event)
    requires Legal(Then(h, e)) && e.ReportTerminal? && e.id != Newest(Identities(h, e.job))
    ensures After(Then(h, e)) == After(h)
    ensures e.report == (if e.job !in After(h) then UnknownJob
                         else if Identities(h, e.job) == [] then NothingToMark else Superseded)
  {
    if e.job in After(h) {
      RowHoldsNewestIdentity(h, e.job);
    }
    UntouchedTable(After(h), e);
  }
}
