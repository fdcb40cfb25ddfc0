/** Runs of the store: every interleaving of every caller's calls, stale callers included, is a history. */
module Histories {
  import opened Values
  import opened Fingerprint
  import opened Rows

  datatype History = Start | Then(prev: History, last: Event)

  /** The table a history leaves, starting from an empty one. */
  function After(h: History): Table {
    match h
    case Start => map[]
    case Then(prev, e) => Next(After(prev), e)
  }

  /** The execution identities minted for a job, oldest first. */
  function Identities(h: History, job: JobId): seq<string> {
    match h
    case Start => []
    case Then(prev, e) =>
      if e.Ensure? && e.job == job && e.ok && !e.adopted then Identities(prev, job) + [e.id] else Identities(prev, job)
  }

  /** Every delivery claim token ever issued. */
  function Issued(h: History): set<string> {
    match h
    case Start => {}
    case Then(prev, e) => if e.Claim? then Issued(prev) + e.tokens.Values else Issued(prev)
  }

  /** crypto/rand never repeats: a minted identity is new to its job and a claim token is new to the store. */
  ghost predicate Fresh(h: History, e: Event) {
    && (e.Ensure? && e.ok && !e.adopted ==> e.id != "" && e.id !in Identities(h, e.job))
    && (e.Claim? ==>
          && "" !in e.tokens.Values
          && e.tokens.Values !! Issued(h)
          && forall i, j :: i in e.tokens && j in e.tokens && i != j ==> e.tokens[i] != e.tokens[j])
  }

  ghost predicate Legal(h: History) {
    match h
    case Start => true
    case Then(prev, e) => Legal(prev) && Allowed(After(prev), e) && Fresh(prev, e)
  }

  /** `h` is an earlier point of the run `later`. */
  predicate Extends(later: History, h: History) {
    later == h || (later.Then? && Extends(later.prev, h))
  }

  lemma {:induction false} EarlierIsLegal(later: History, h: History)
    requires Extends(later, h) && Legal(later)
    ensures Legal(h)
  {
    if later != h {
      EarlierIsLegal(later.prev, h);
    }
  }

  lemma {:induction false} ExtendsIsTransitive(c: History, b: History, a: History)
    requires Extends(c, b) && Extends(b, a)
    ensures Extends(c, a)
  {
    if c != b {
      ExtendsIsTransitive(c.prev, b, a);
    }
  }

  /** Rows are never deleted, and what a row was created with never changes. */
  lemma {:induction false} RowsPersist(later: History, h: History, id: JobId)
    requires Extends(later, h) && id in After(h) && Legal(later)
    ensures id in After(later)
    ensures var r, q := After(h)[id], After(later)[id];
            && r.request == q.request && r.requestId == q.requestId
            && r.fingerprint == q.fingerprint && r.createdAt == q.createdAt
  {
    if later != h {
      RowsPersist(later.prev, h, id);
    }
  }

  // ---------- what a row remembers of its calls ----------

  /** The call that inserted the job's row. */
  function Insertion(h: History, job: JobId): Option<Event> {
    match h
    case Start => None
    case Then(prev, e) =>
      if e.Create? && e.created.Inserted? && e.job == job then Some(e) else Insertion(prev, job)
  }

  /** The call was accepted and wrote to the job's row. */
  predicate Writes(e: Event, job: JobId) {
    match e
    case Create(j, _, _, outcome) => j == job && outcome.Inserted?
    case NoLease(_) => false
    case Grant(j, _, _, _) => j == job
    case Heartbeat(j, _, _, _, _, ok) => j == job && ok
    case Complete(j, _, _, _, _, ok) => j == job && ok
    case Fail(j, _, _, _, _, _, _, ok, _) => j == job && ok
    case Ensure(j, _, adopted, _, ok) => j == job && ok && !adopted
    case ReportTerminal(j, _, _, report) => j == job && report.Reported?
    case ClaimSlot(j, _, _, _, won) => j == job && won
    case FirstPending(j, _, _, _, _, _, _, ok) => j == job && ok
    case FirstDeadLetter(j, _, _, _, _, _, ok) => j == job && ok
    case Claim(_, _, _, tokens) => job in tokens
    case RedeliverPending(j, _, _, _, _, ok) => j == job && ok
    case RedeliverAcknowledged(j, _, _, ok) => j == job && ok
    case RedeliverDeadLetter(j, _, _, _, ok) => j == job && ok
  }

  /** The clock value of the newest such call. */
  function LastWrite(h: History, job: JobId): Option<Instant> {
    match h
    case Start => None
    case Then(prev, e) => if Writes(e, job) then Some(e.now) else LastWrite(prev, job)
  }

  /** A row tells which call inserted it, and when; no other call is ever accepted for that job_id. */
  lemma {:induction false} RowRemembersItsCreation(h: History, job: JobId)
    requires Legal(h) && job in After(h)
    ensures Insertion(h, job).Some?
    ensures var e, r := Insertion(h, job).value, After(h)[job];
            && e.Create? && e.job == job && r.createdAt == e.now && r.request == e.request
            && r.fingerprint == FingerprintOf(e.request)
            && (r.requestId.None? <==> e.request.validationRequestId == "")
            && (r.requestId.Some? ==> r.requestId.value == e.request.validationRequestId)
  {
    if !(h.last.Create? && h.last.created.Inserted? && h.last.job == job) {
      RowRemembersItsCreation(h.prev, job);
    }
  }

  /** updated_at is the clock value of the newest call that wrote to the row. */
  lemma {:induction false} RowRemembersItsLastWrite(h: History, job: JobId)
    requires Legal(h) && job in After(h)
    ensures LastWrite(h, job) == Some(After(h)[job].updatedAt)
  {
    if !(h.last.Create? && h.last.created.Inserted? && h.last.job == job) {
      RowRemembersItsLastWrite(h.prev, job);
      WriteStep(After(h.prev), h.last, job);
    }
  }

  lemma WriteStep(t: Table, e: Event, job: JobId)
    requires Allowed(t, e) && job in t && !(e.Create? && e.created.Inserted? && e.job == job)
    ensures Next(t, e)[job].updatedAt == if Writes(e, job) then e.now else t[job].updatedAt
    ensures !Writes(e, job) ==> Next(t, e)[job] == t[job]
  {
  }

  // ---------- the row invariant ----------

  predicate LeaseInvariant(l: Lease) {
    && (l.status.Leased? || l.status.Running? <==> l.owner != "")
    && (l.status.Leased? || l.status.Running? <==> l.until.Some?)
    && (l.retryNotBefore.Some? ==> l.status.Queued?)
    && (l.attempt == 0 ==> l.status.Queued?)
  }

  predicate LedgerInvariant(l: Ledger) {
    && (l.state.Delivering? <==> l.token != "")
    && (l.state.Delivering? <==> l.claimedUntil.Some?)
    && (l.state.NotApplicable? <==> l.attempts == 0)
    && (l.state.NotApplicable? || l.state.Acknowledged? ==> l.payload == "")
    && (l.state.Pending? ==> l.nextAttemptAt.Some?)
  }

  /** What every row of every reachable table satisfies. */
  predicate RowInvariant(r: Row) {
    && LeaseInvariant(r.lease)
    && LedgerInvariant(r.ledger)
    && (r.execution.terminal ==> r.execution.id != "")
    && (!r.ledger.state.NotApplicable? ==> r.slot.claimed)
    && (r.requestId.Some? ==> r.requestId.value != "" && r.requestId.value == r.request.validationRequestId)
    && (r.requestId.None? ==> r.request.validationRequestId == "")
    && r.fingerprint == FingerprintOf(r.request)
  }

  lemma LeaseInvariantKept(t: Table, e: Event, id: JobId)
    requires Allowed(t, e) && id in t && LeaseInvariant(t[id].lease)
    ensures LeaseInvariant(Effect(id, t[id], e).lease)
  {
  }

  lemma LedgerInvariantKept(h: History, e: Event, id: JobId)
    requires Legal(Then(h, e)) && id in After(h) && LedgerInvariant(After(h)[id].ledger)
    requires !After(h)[id].ledger.state.NotApplicable? ==> After(h)[id].slot.claimed
    ensures var q := Effect(id, After(h)[id], e);
            LedgerInvariant(q.ledger) && (!q.ledger.state.NotApplicable? ==> q.slot.claimed)
  {
    if e.Claim? && id in e.tokens {
      assert e.tokens[id] in e.tokens.Values;
      assert id in ClaimableJobs(After(h), e.now);
    }
  }

  lemma RowInvariantKept(h: History, e: Event, id: JobId)
    requires Legal(Then(h, e)) && id in After(h) && RowInvariant(After(h)[id])
    ensures RowInvariant(Effect(id, After(h)[id], e))
  {
    LeaseInvariantKept(After(h), e, id);
    LedgerInvariantKept(h, e, id);
  }

  lemma {:induction false} ReachableRowsAreValid(h: History, id: JobId)
    requires Legal(h) && id in After(h)
    ensures RowInvariant(After(h)[id])
  {
    if h.last.Create? && h.last.created.Inserted? && h.last.job == id {
    } else {
      ReachableRowsAreValid(h.prev, id);
      RowInvariantKept(h.prev, h.last, id);
    }
  }
}
