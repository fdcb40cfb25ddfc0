/** The store itself: pkg/work/sqlite/store.go. Every method is one atomic transaction on the jobs table and
    appends the call it was to the ghost history, so everything proved about legal histories holds of every
    use of this class. */
module WorkStores {
  import opened Values
  import opened Fingerprint
  import opened FailurePolicy
  import opened Rows
  import opened Histories
  import opened Leases

  datatype EnsureResult = Identity(id: string, adopted: bool) | NoSuchJob | MintFailed

  /** SELECT ... ORDER BY key ASC LIMIT 1 over a non-empty candidate set. */
  method Oldest(candidates: set<JobId>, key: map<JobId, Instant>) returns (best: JobId)
    requires candidates != {} && candidates <= key.Keys
    ensures best in candidates
    ensures forall id :: id in candidates ==> key[best] <= key[id]
  {
    best :| best in candidates;
    var rest := candidates - {best};
    while rest != {}
      invariant rest <= candidates && best in candidates
      invariant forall id :: id in candidates - rest ==> key[best] <= key[id]
      decreases |rest|
    {
      var id :| id in rest;
      if key[id] < key[best] {
        best := id;
      }
      rest := rest - {id};
    }
  }

  ghost predicate SortedBy(ids: seq<JobId>, key: map<JobId, Instant>) {
    && (forall id :: id in ids ==> id in key)
    && forall i, j :: 0 <= i < j < |ids| ==> key[ids[i]] <= key[ids[j]]
  }

  ghost predicate NoneOlderIn(rest: set<JobId>, ids: seq<JobId>, key: map<JobId, Instant>)
    requires rest <= key.Keys
  {
    forall id, other :: id in ids && id in key && other in rest ==> key[id] <= key[other]
  }

  lemma AppendOldest(ids: seq<JobId>, id: JobId, rest: set<JobId>, key: map<JobId, Instant>)
    requires NoRepeats(ids) && SortedBy(ids, key) && rest <= key.Keys && NoneOlderIn(rest, ids, key)
    requires id in rest && id !in ids && forall other :: other in rest ==> key[id] <= key[other]
    ensures NoRepeats(ids + [id]) && SortedBy(ids + [id], key) && NoneOlderIn(rest - {id}, ids + [id], key)
  {
    assert forall x :: x in ids + [id] <==> x in ids || x == id;
  }

  /** SELECT ... ORDER BY key ASC LIMIT n: the n oldest candidates, in order. */
  method OldestFirstUpTo(candidates: set<JobId>, key: map<JobId, Instant>, n: nat) returns (ids: seq<JobId>)
    requires candidates <= key.Keys && n <= |candidates|
    ensures |ids| == n && NoRepeats(ids) && SortedBy(ids, key)
    ensures Members(ids) <= candidates
    ensures NoneOlderIn(candidates - Members(ids), ids, key)
  {
    ids := [];
    var rest := candidates;
    while |ids| < n
      invariant |ids| <= n && NoRepeats(ids) && SortedBy(ids, key)
      invariant Members(ids) <= candidates
      invariant rest == candidates - Members(ids) && |rest| == |candidates| - |ids|
      invariant NoneOlderIn(rest, ids, key)
    {
      var id := Oldest(rest, key);
      MembersAppend(ids, id);
      AppendOldest(ids, id, rest, key);
      ids := ids + [id];
      rest := rest - {id};
    }
  }

  /** newClaimToken as a supply: attempt i yields mint(i), or None when crypto/rand fails. No value repeats,
      none is empty and none was issued before. */
  ghost predicate FreshTokens(mint: nat -> Option<string>, h: History) {
    && (forall i: nat :: mint(i).Some? ==> mint(i).value != "" && mint(i).value !in Issued(h))
    && (forall i: nat, j: nat :: i != j && mint(i).Some? && mint(j).Some? ==> mint(i).value != mint(j).value)
  }

  /** A row under a new claim: its payload and its attempt count are kept. */
  function UnderClaim(r: Row, token: string, ttl: Duration, now: Instant): Row {
    r.(ledger := r.ledger.(state := Delivering, claimedUntil := Some(now + ttl), token := token), updatedAt := now)
  }

  /** Claiming one more row extends the batch's effect by that row alone. */
  lemma ClaimOneMore(
    t: Table, limit: int, ttl: Duration, now: Instant, tokens: map<JobId, string>, id: JobId, token: string
  )
    requires id in t && id !in tokens
    ensures Next(t, Claim(limit, ttl, now, tokens))[id] == t[id]
    ensures Next(t, Claim(limit, ttl, now, tokens[id := token]))
            == Next(t, Claim(limit, ttl, now, tokens))[id := UnderClaim(t[id], token, ttl, now)]
  {
  }

  lemma FullSubset(part: set<JobId>, whole: set<JobId>)
    requires part <= whole && |part| == |whole|
    ensures part == whole
  {
    assert whole == part + (whole - part) && |whole - part| == |whole| - |part|;
  }

  lemma BatchIsAllowed(t: Table, ids: seq<JobId>, limit: int, now: Instant, tokens: map<JobId, string>)
    requires NoRepeats(ids) && tokens.Keys == Members(ids)
    requires tokens.Keys <= ClaimableJobs(t, now)
    requires |ids| == if 0 <= limit < |ClaimableJobs(t, now)| then limit else |ClaimableJobs(t, now)|
    requires NoneOlderIn(ClaimableJobs(t, now) - tokens.Keys, ids, map id | id in t :: t[id].updatedAt)
    ensures ClaimAllowed(t, limit, now, tokens)
  {
    DistinctCount(ids);
    if |ids| == |ClaimableJobs(t, now)| {
      FullSubset(tokens.Keys, ClaimableJobs(t, now));
    }
    var key := map id | id in t :: t[id].updatedAt;
    forall id, other | id in tokens && other in ClaimableJobs(t, now) - tokens.Keys
      ensures t[id].updatedAt <= t[other].updatedAt
    {
      assert key[id] <= key[other];
    }
  }

  lemma TokensAreFresh(h: History, ids: seq<JobId>, tokens: map<JobId, string>, mint: nat -> Option<string>)
    requires FreshTokens(mint, h) && tokens.Keys == Members(ids)
    requires forall k: nat :: k < |ids| ==> mint(k) == Some(tokens[ids[k]])
    ensures "" !in tokens.Values && tokens.Values !! Issued(h)
    ensures forall a, b :: a in tokens && b in tokens && a != b ==> tokens[a] != tokens[b]
  {
    forall a | a in tokens ensures exists k: nat :: k < |ids| && ids[k] == a && mint(k) == Some(tokens[a]) {
      assert a in ids;
      var k: nat :| k < |ids| && ids[k] == a;
      assert mint(k) == Some(tokens[a]);
    }
  }

  /** What a batch does: every claimed row was due and is now delivering under its own token, with its payload and its
      attempt count kept; no due row left out is older than one taken; every other row is unchanged. */
  ghost predicate Claimed(before: Table, after: Table, ttl: Duration, now: Instant, tokens: map<JobId, string>) {
    && after.Keys == before.Keys && tokens.Keys <= before.Keys
    && (forall id :: id in tokens ==>
          && Claimable(before[id], now)
          && after[id] == UnderClaim(before[id], tokens[id], ttl, now))
    && (forall id, other :: id in tokens && other in before && other !in tokens && Claimable(before[other], now) ==>
          before[id].updatedAt <= before[other].updatedAt)
    && (forall id :: id in before && id !in tokens ==> after[id] == before[id])
  }

  lemma ClaimedRowMeans(t: Table, limit: int, ttl: Duration, now: Instant, tokens: map<JobId, string>, id: JobId)
    requires id in t
    ensures Next(t, Claim(limit, ttl, now, tokens))[id]
            == if id in tokens then UnderClaim(t[id], tokens[id], ttl, now) else t[id]
  {
  }

  lemma ClaimMeans(t: Table, limit: int, ttl: Duration, now: Instant, tokens: map<JobId, string>)
    requires ClaimAllowed(t, limit, now, tokens)
    ensures Claimed(t, Next(t, Claim(limit, ttl, now, tokens)), ttl, now, tokens)
  {
    var due := ClaimableJobs(t, now);
    assert forall id :: id in tokens ==> id in due;
    forall id, other | id in tokens && other in t && other !in tokens && Claimable(t[other], now)
      ensures t[id].updatedAt <= t[other].updatedAt
    {
      assert other in due - tokens.Keys;
    }
    forall id | id in t
      ensures Next(t, Claim(limit, ttl, now, tokens))[id]
              == if id in tokens then UnderClaim(t[id], tokens[id], ttl, now) else t[id]
    {
      ClaimedRowMeans(t, limit, ttl, now, tokens, id);
    }
  }

  /** An UPDATE on one job_id: the row becomes `row`, every other row stays. */
  lemma OneRowWritten(t: Table, e: Event, job: JobId, row: Row)
    requires !e.Create? && !e.NoLease? && !e.Claim? && e.job == job && job in t && row == Effect(job, t[job], e)
    ensures Next(t, e) == t[job := row]
  {
  }

  class WorkStore {
    var rows: Table
    ghost var history: History

    ghost predicate Valid()
      reads this
    {
      Legal(history) && After(history) == rows
    }

    constructor ()
      ensures Valid() && history == Start
    {
      rows := map[];
      history := Start;
    }

    method GetJob(job: JobId) returns (row: Option<Row>)
      requires Valid()
      ensures row == (if job in rows then Some(rows[job]) else None)
    {
      if job in rows {
        row := Some(rows[job]);
      } else {
        row := None;
      }
    }

    method CreateJob(job: JobId, request: Request, now: Instant) returns (outcome: CreateOutcome)
      requires Valid()
      modifies this
      ensures Valid() && history == Then(old(history), Create(job, request, now, outcome))
    {
      var fingerprint := RequestFingerprint(request);
      var key := request.validationRequestId;
      var conflict := key != "" && exists id | id in rows :: OwnsRequestId(rows, id, key);
      var firstConstraint := *;
      if job in rows && (!conflict || firstConstraint) {
        outcome := PrimaryKeyError;
      } else if !conflict {
        outcome := Inserted;
        rows := rows[job := FreshRow(request, now)];
      } else {
        var owner :| owner in rows && OwnsRequestId(rows, owner, key);
        if rows[owner].fingerprint != fingerprint {
          outcome := Conflict;
        } else {
          outcome := Existing(owner);
        }
      }
      history := Then(history, Create(job, request, now, outcome));
    }

    /** The worker name comes from workerIdentity, which never returns an empty one. */
    method LeaseJob(worker: string, ttl: Duration, now: Instant) returns (picked: Option<JobId>)
      requires Valid() && worker != ""
      modifies this
      ensures Valid()
      ensures history == Then(old(history), match picked
                                            case None => NoLease(now)
                                            case Some(job) => Grant(job, worker, ttl, now))
    {
      var due := LeasableJobs(rows, now);
      if due == {} {
        picked := None;
        assert forall id :: id in rows && Leasable(rows[id], now) ==> id in due;
        history := Then(history, NoLease(now));
        return;
      }
      var job := Oldest(due, map id | id in rows :: rows[id].createdAt);
      assert OldestLeasable(rows, job, now) by {
        assert forall id :: id in rows && Leasable(rows[id], now) ==> id in due;
      }
      var row := rows[job];
      rows := rows[job := row.(
        lease := row.lease.(status := Leased, attempt := row.lease.attempt + 1, owner := worker,
                            until := Some(now + ttl), retryNotBefore := None),
        updatedAt := now)];
      picked := Some(job);
      history := Then(history, Grant(job, worker, ttl, now));
    }

    method Heartbeat(job: JobId, worker: string, attempt: int, ttl: Duration, now: Instant) returns (ok: bool)
      requires Valid() && worker != ""
      modifies this
      ensures Valid() && history == Then(old(history), Event.Heartbeat(job, worker, attempt, ttl, now, ok))
    {
      ok := job in rows && Holds(rows[job], worker, attempt);
      ghost var e := Event.Heartbeat(job, worker, attempt, ttl, now, ok);
      if ok {
        var row := rows[job];
        row := row.(lease := row.lease.(status := Running, until := Some(now + ttl)), updatedAt := now);
        OneRowWritten(rows, e, job, row);
        rows := rows[job := row];
      } else {
        UntouchedTable(rows, e);
      }
      history := Then(history, e);
    }

    method CompleteJob(job: JobId, worker: string, attempt: int, summary: string, now: Instant) returns (ok: bool)
      requires Valid() && worker != ""
      modifies this
      ensures Valid() && history == Then(old(history), Complete(job, worker, attempt, summary, now, ok))
    {
      ok := job in rows && OwnsGeneration(rows[job], worker, attempt);
      ghost var e := Complete(job, worker, attempt, summary, now, ok);
      if ok {
        var row := rows[job];
        row := row.(
          lease := row.lease.(status := Succeeded, owner := "", until := None, lastError := "", summary := summary),
          updatedAt := now);
        OneRowWritten(rows, e, job, row);
        rows := rows[job := row];
      } else {
        UntouchedTable(rows, e);
      }
      history := Then(history, e);
    }

    /** FailJob's requeuing UPDATE. */
    method RequeueJob(
      job: JobId, worker: string, attempt: int, error: string, delay: Duration, now: Instant, ghost kind: FailureClass
    ) returns (ok: bool)
      requires Valid() && worker != ""
      modifies this
      ensures Valid()
      ensures history == Then(old(history), Fail(job, worker, attempt, error, true, delay, now, ok, kind))
    {
      var retryNotBefore := if delay > 0 then Some(now + delay) else None;
      ok := job in rows && Holds(rows[job], worker, attempt);
      ghost var e := Fail(job, worker, attempt, error, true, delay, now, ok, kind);
      if ok {
        var row := rows[job].(
          lease := rows[job].lease.(status := Queued, owner := "", until := None, lastError := error,
                                    retryNotBefore := retryNotBefore),
          updatedAt := now);
        OneRowWritten(rows, e, job, row);
        rows := rows[job := row];
      } else {
        UntouchedTable(rows, e);
      }
      history := Then(history, e);
    }

    /** FailJob's final UPDATE. */
    method FinishFailed(
      job: JobId, worker: string, attempt: int, error: string, delay: Duration, now: Instant, ghost kind: FailureClass
    ) returns (ok: bool)
      requires Valid() && worker != ""
      modifies this
      ensures Valid()
      ensures history == Then(old(history), Fail(job, worker, attempt, error, false, delay, now, ok, kind))
    {
      ok := job in rows && OwnsGeneration(rows[job], worker, attempt);
      ghost var e := Fail(job, worker, attempt, error, false, delay, now, ok, kind);
      if ok {
        var row := rows[job].(
          lease := rows[job].lease.(status := Failed, owner := "", until := None, lastError := error, summary := ""),
          updatedAt := now);
        OneRowWritten(rows, e, job, row);
        rows := rows[job := row];
      } else {
        UntouchedTable(rows, e);
      }
      history := Then(history, e);
    }

    /** `kind` is the caller's classification of the failure; the store never sees it. */
    method FailJob(
      job: JobId, worker: string, attempt: int, error: string, retryable: bool, delay: Duration, now: Instant,
      ghost kind: FailureClass
    ) returns (ok: bool)
      requires Valid() && worker != ""
      modifies this
      ensures Valid()
      ensures history == Then(old(history), Fail(job, worker, attempt, error, retryable, delay, now, ok, kind))
    {
      if retryable {
        ok := RequeueJob(job, worker, attempt, error, delay, now, kind);
      } else {
        ok := FinishFailed(job, worker, attempt, error, delay, now, kind);
      }
    }

    /** `minted` is what newExecutionID would return: None when crypto/rand fails. */
    method EnsureExecution(job: JobId, minted: Option<string>, now: Instant) returns (result: EnsureResult)
      requires Valid()
      requires minted.Some? ==> minted.value != "" && minted.value !in Identities(history, job)
      modifies this
      ensures Valid()
      ensures result.NoSuchJob? <==> job !in old(rows)
      ensures result.MintFailed? <==> job in old(rows) && !Adoptable(old(rows)[job]) && minted.None?
      ensures result.MintFailed? ==> history == old(history)
      ensures result.NoSuchJob? ==> history == Then(old(history), Ensure(job, "", true, now, false))
      ensures result.Identity? ==>
                && history == Then(old(history), Ensure(job, result.id, result.adopted, now, true))
                && (!result.adopted ==> minted == Some(result.id))
    {
      if job !in rows {
        result := NoSuchJob;
        history := Then(history, Ensure(job, "", true, now, false));
        return;
      }
      var row := rows[job];
      if row.execution.id != "" && !row.execution.terminal {
        result := Identity(row.execution.id, true);
      } else if minted.None? {
        result := MintFailed;
        return;
      } else {
        rows := rows[job := row.(execution := Execution(minted.value, false), updatedAt := now)];
        result := Identity(minted.value, false);
      }
      history := Then(history, Ensure(job, result.id, result.adopted, now, true));
    }

    method MarkExecutionTerminal(job: JobId, id: string, now: Instant) returns (report: ReportOutcome)
      requires Valid()
      modifies this
      ensures Valid() && history == Then(old(history), ReportTerminal(job, id, now, report))
    {
      if job in rows && rows[job].execution.id == id && id != "" {
        var row := rows[job];
        rows := rows[job := row.(execution := row.execution.(terminal := true), updatedAt := now)];
        report := Reported;
      } else if job !in rows {
        report := UnknownJob;
      } else if rows[job].execution.id == "" {
        report := NothingToMark;
      } else {
        report := Superseded;
      }
      history := Then(history, ReportTerminal(job, id, now, report));
    }

    method ClaimTerminal(job: JobId, worker: string, attempt: int, now: Instant) returns (claimed: bool, found: bool)
      requires Valid()
      modifies this
      ensures Valid() && history == Then(old(history), ClaimSlot(job, worker, attempt, now, claimed))
      ensures found <==> job in old(rows)
    {
      found := job in rows;
      claimed := found && !rows[job].slot.claimed;
      ghost var e := ClaimSlot(job, worker, attempt, now, claimed);
      if claimed {
        var row := rows[job].(slot := Slot(true, worker, attempt), updatedAt := now);
        OneRowWritten(rows, e, job, row);
        rows := rows[job := row];
      } else {
        UntouchedTable(rows, e);
      }
      history := Then(history, e);
    }

    method MarkFirstDeliveryPending(
      job: JobId, worker: string, attempt: int, payload: string, error: string, next: Instant, now: Instant
    ) returns (ok: bool)
      requires Valid()
      modifies this
      ensures Valid()
      ensures history == Then(old(history), FirstPending(job, worker, attempt, payload, error, next, now, ok))
    {
      ok := job in rows && FirstDeliveryFence(rows[job], worker, attempt);
      ghost var e := FirstPending(job, worker, attempt, payload, error, next, now, ok);
      if ok {
        var row := rows[job];
        row := row.(
          ledger := Ledger(Pending, payload, row.ledger.attempts + 1, error, Some(next), None, ""),
          updatedAt := now);
        OneRowWritten(rows, e, job, row);
        rows := rows[job := row];
      } else {
        UntouchedTable(rows, e);
      }
      history := Then(history, e);
    }

    method MarkFirstDeliveryDeadLetter(
      job: JobId, worker: string, attempt: int, payload: string, error: string, now: Instant
    ) returns (ok: bool)
      requires Valid()
      modifies this
      ensures Valid()
      ensures history == Then(old(history), FirstDeadLetter(job, worker, attempt, payload, error, now, ok))
    {
      ok := job in rows && FirstDeliveryFence(rows[job], worker, attempt);
      ghost var e := FirstDeadLetter(job, worker, attempt, payload, error, now, ok);
      if ok {
        var row := rows[job];
        row := row.(
          ledger := Ledger(DeadLetter, payload, row.ledger.attempts + 1, error, None, None, ""),
          updatedAt := now);
        OneRowWritten(rows, e, job, row);
        rows := rows[job := row];
      } else {
        UntouchedTable(rows, e);
      }
      history := Then(history, e);
    }

    method MarkResultDeliveryPending(job: JobId, token: string, error: string, next: Instant, now: Instant)
      returns (ok: bool)
      requires Valid()
      modifies this
      ensures Valid() && history == Then(old(history), RedeliverPending(job, token, error, next, now, ok))
    {
      ok := job in rows && RedeliveryFence(rows[job], token);
      ghost var e := RedeliverPending(job, token, error, next, now, ok);
      if ok {
        var row := rows[job];
        row := row.(
          ledger := Ledger(Pending, row.ledger.payload, row.ledger.attempts + 1, error, Some(next), None, ""),
          updatedAt := now);
        OneRowWritten(rows, e, job, row);
        rows := rows[job := row];
      } else {
        UntouchedTable(rows, e);
      }
      history := Then(history, e);
    }

    method MarkResultDeliveryAcknowledged(job: JobId, token: string, now: Instant) returns (ok: bool)
      requires Valid()
      modifies this
      ensures Valid() && history == Then(old(history), RedeliverAcknowledged(job, token, now, ok))
    {
      ok := job in rows && RedeliveryFence(rows[job], token);
      ghost var e := RedeliverAcknowledged(job, token, now, ok);
      if ok {
        var row := rows[job];
        row := row.(
          ledger := Ledger(Acknowledged, "", row.ledger.attempts, "", None, None, ""),
          updatedAt := now);
        OneRowWritten(rows, e, job, row);
        rows := rows[job := row];
      } else {
        UntouchedTable(rows, e);
      }
      history := Then(history, e);
    }

    method MarkResultDeliveryDeadLetter(job: JobId, token: string, error: string, now: Instant) returns (ok: bool)
      requires Valid()
      modifies this
      ensures Valid() && history == Then(old(history), RedeliverDeadLetter(job, token, error, now, ok))
    {
      ok := job in rows && RedeliveryFence(rows[job], token);
      ghost var e := RedeliverDeadLetter(job, token, error, now, ok);
      if ok {
        var row := rows[job];
        row := row.(
          ledger := Ledger(DeadLetter, row.ledger.payload, row.ledger.attempts, error, None, None, ""),
          updatedAt := now);
        OneRowWritten(rows, e, job, row);
        rows := rows[job := row];
      } else {
        UntouchedTable(rows, e);
      }
      history := Then(history, e);
    }

    /** The UPDATE loop over the selected ids; false when a token could not be minted. */
    method ClaimEach(ids: seq<JobId>, limit: int, ttl: Duration, now: Instant, mint: nat -> Option<string>)
      returns (minted: bool, ghost tokens: map<JobId, string>)
      requires NoRepeats(ids) && Members(ids) <= rows.Keys
      modifies this`rows
      ensures !minted ==> exists i: nat :: i < |ids| && mint(i).None?
      ensures minted ==>
                && tokens.Keys == Members(ids)
                && (forall k: nat :: k < |ids| ==> mint(k) == Some(tokens[ids[k]]))
                && rows == Next(old(rows), Claim(limit, ttl, now, tokens))
    {
      tokens := map[];
      var i: nat := 0;
      while i < |ids|
        invariant i <= |ids|
        invariant tokens.Keys == Members(ids[..i])
        invariant forall k: nat :: k < i ==> mint(k) == Some(tokens[ids[k]])
        invariant rows == Next(old(rows), Claim(limit, ttl, now, tokens))
      {
        var token := mint(i);
        if token.None? {
          return false, tokens;
        }
        var row := rows[ids[i]];
        ClaimOneMore(old(rows), limit, ttl, now, tokens, ids[i], token.value);
        assert ids[..i + 1] == ids[..i] + [ids[i]];
        rows := rows[ids[i] := row.(
          ledger := row.ledger.(state := Delivering, claimedUntil := Some(now + ttl), token := token.value),
          updatedAt := now)];
        tokens := tokens[ids[i] := token.value];
        i := i + 1;
      }
      assert ids[..|ids|] == ids;
      minted := true;
    }

    /** The SELECT: due rows, oldest update first, all of them unless the limit binds. */
    method SelectDue(limit: int, now: Instant) returns (ids: seq<JobId>)
      ensures NoRepeats(ids) && SortedBy(ids, map id | id in rows :: rows[id].updatedAt)
      ensures Members(ids) <= ClaimableJobs(rows, now)
      ensures NoneOlderIn(ClaimableJobs(rows, now) - Members(ids), ids, map id | id in rows :: rows[id].updatedAt)
      ensures |ids| == if 0 <= limit < |ClaimableJobs(rows, now)| then limit else |ClaimableJobs(rows, now)|
      ensures limit < 0 || |ClaimableJobs(rows, now)| <= limit ==> Members(ids) == ClaimableJobs(rows, now)
    {
      var due := ClaimableJobs(rows, now);
      var ages := map id | id in rows :: rows[id].updatedAt;
      var n := if 0 <= limit < |due| then limit else |due|;
      ids := OldestFirstUpTo(due, ages, n);
      DistinctCount(ids);
      if n == |due| {
        FullSubset(Members(ids), due);
      }
    }

    /** The claimed batch, oldest update first, or None when a token could not be minted: then the
        transaction rolled back. `tokens` names each claimed job's new token. */
    method ClaimPendingDeliveries(limit: int, ttl: Duration, now: Instant, mint: nat -> Option<string>)
      returns (batch: Option<seq<JobId>>, ghost tokens: map<JobId, string>)
      requires Valid() && FreshTokens(mint, history)
      modifies this
      ensures Valid()
      ensures batch.None? ==> history == old(history)
      ensures batch.None? <==>
                exists i: nat :: i < |ClaimableJobs(old(rows), now)| && (limit < 0 || i < limit) && mint(i).None?
      ensures batch.Some? ==>
                && history == Then(old(history), Claim(limit, ttl, now, tokens))
                && (limit < 0 || |ClaimableJobs(old(rows), now)| <= limit ==>
                      Members(batch.value) == ClaimableJobs(old(rows), now))
                && (0 <= limit < |ClaimableJobs(old(rows), now)| ==> |batch.value| == limit)
                && Members(batch.value) == tokens.Keys
                && NoRepeats(batch.value)
                && SortedBy(batch.value, map id | id in old(rows) :: old(rows)[id].updatedAt)
                && (forall i :: 0 <= i < |batch.value| ==> mint(i) == Some(tokens[batch.value[i]]))
                && Claimed(old(rows), rows, ttl, now, tokens)
    {
      var before := rows;
      var ids := SelectDue(limit, now);
      var minted;
      minted, tokens := ClaimEach(ids, limit, ttl, now, mint);
      if !minted {
        rows := before;
        return None, map[];
      }
      Commit(before, ids, limit, ttl, now, mint, tokens);
      batch := Some(ids);
    }

    /** The batch is one call of the history. */
    ghost method Commit(
      before: Table, ids: seq<JobId>, limit: int, ttl: Duration, now: Instant, mint: nat -> Option<string>,
      tokens: map<JobId, string>
    )
      requires Legal(history) && After(history) == before && FreshTokens(mint, history)
      requires NoRepeats(ids) && tokens.Keys == Members(ids) && tokens.Keys <= ClaimableJobs(before, now)
      requires |ids| == if 0 <= limit < |ClaimableJobs(before, now)| then limit else |ClaimableJobs(before, now)|
      requires NoneOlderIn(ClaimableJobs(before, now) - tokens.Keys, ids, map id | id in before :: before[id].updatedAt)
      requires forall k: nat :: k < |ids| ==> mint(k) == Some(tokens[ids[k]])
      requires rows == Next(before, Claim(limit, ttl, now, tokens))
      modifies this`history
      ensures Valid() && history == Then(old(history), Claim(limit, ttl, now, tokens))
      ensures Claimed(before, rows, ttl, now, tokens)
    {
      BatchIsAllowed(before, ids, limit, now, tokens);
      TokensAreFresh(history, ids, tokens, mint);
      history := Then(history, Claim(limit, ttl, now, tokens));
      ClaimMeans(before, limit, ttl, now, tokens);
    }
  }
}
