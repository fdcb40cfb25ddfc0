/** All attempts of one job, one after the other: the Run loop of pkg/worker/worker.go as one job sees it. */
module JobRuns {
  import opened Rows
  import opened Histories
  import opened Leases
  import opened Deliveries
  import opened RetryBudget
  import opened ExecutionIdentities
  import opened WorkStores
  import opened NodeVault
  import opened Kubernetes
  import opened Findings
  import opened Tracking
  import opened Attempts
  import opened Values

  lemma {:induction false} TerminalsConcat(a: seq<Post>, b: seq<Post>)
    ensures Terminals(a + b) == Terminals(a) + Terminals(b)
  {
    if b == [] {
      assert a + b == a;
    } else {
      TerminalsConcat(a, b[..|b| - 1]);
      assert (a + b)[..|a + b| - 1] == a + b[..|b| - 1];
    }
  }

  lemma SentConcat(a: seq<Post>, b: seq<Post>)
    ensures SentOf(a + b) == SentOf(a) + SentOf(b)
  {
  }

  lemma SentNothing(sent: seq<Sent>)
    ensures sent + SentOf([]) == sent
  {
  }

  // ---------- calm runs ----------

  /** Between attempts, no terminal record exists for a queued job and exactly one for a finished one: at the
      plan's last stage if it succeeded, at L3 or L4 if it failed; accepted, or stored for redelivery. */
  ghost predicate Settled(t: Table, h: History, job: JobId, plan: Option<Plan>, posts: seq<Post>) {
    && job in t
    && match t[job].lease.status
       case Queued => !t[job].slot.claimed && Filed(h, job).None? && Terminals(posts) == []
       case Succeeded => plan.Some? && OneRecord(h, job, posts, {LastStage(plan.value)})
       case Failed => OneRecord(h, job, posts, {L3, L4})
       case _ => false
  }

  ghost predicate OneRecord(h: History, job: JobId, posts: seq<Post>, stages: set<Stage>) {
    && |Terminals(posts)| == 1
    && var p := Terminals(posts)[0];
       p.stage in stages && Filed(h, job) == Attempt.FilingOf(p)
  }

  lemma SettledForNow(t: Table, h: History, job: JobId, plan: Option<Plan>, posts: seq<Post>)
    requires Settled(t, h, job, plan, posts)
    ensures Settled(t, h, job, plan, []) || Finished(t[job])
  {
  }

  /** One more turn. */
  lemma SettledAgain(
    t: Table, h: History, t': Table, h': History, job: JobId, plan: Option<Plan>, posts: seq<Post>, more: seq<Post>
  )
    requires Settled(t, h, job, plan, posts) && job in t'
    requires Finished(t[job]) ==> more == [] && t'[job].lease == t[job].lease && Filed(h', job) == Filed(h, job)
    requires !Finished(t[job]) ==> Settled(t', h', job, plan, more)
    ensures Settled(t', h', job, plan, posts + more)
  {
    TerminalsConcat(posts, more);
    assert Terminals(posts) == [] ==> Terminals(posts + more) == Terminals(more);
  }

  /** Whether L5-a follows L4. */
  function Follows(actions: seq<string>, vaultClient: bool): bool {
    PlanFor(actions).Some? && PlanFor(actions).value.runL5a && vaultClient
  }

  /** The machine stands between two attempts of the job: on the job's row, on the Jobs there are, and with the record
      of the Jobs there were. */
  ghost predicate Between(store: WorkStore, api: ApiServer, job: JobId, follows: bool, run: P.Run, state: P.State)
    reads store, api
  {
    && job in store.rows && Tracked(follows, run, state, api.record) && state.jobs == api.jobs && state.pc.Idle?
    && Matches(state, store.rows[job], Minted(store.history, job))
  }

  /** Where a job without an identity begins: whatever Jobs older workers left, nothing else was ever created. */
  lemma UnidentifiedJobIsBetween(store: WorkStore, api: ApiServer, job: JobId, follows: bool)
    requires store.Valid() && job in store.rows && store.rows[job].execution.id == ""
    requires api.record == Record([api.jobs], []) && forall n :: n in api.jobs ==> n.Legacy?
    ensures var s := P.State(None, false, false, api.jobs, P.Idle, {}, {});
            Between(store, api, job, follows, P.Begin(s), s)
  {
    ReachableRowsAreValid(store.history, job);
    RowHoldsNewestIdentity(store.history, job);
  }

  /** What the record of the job's Kubernetes Jobs shows: none took effect beside an unfinished one; with an
      identity, at most one is unfinished now; and with a released one, none is. */
  ghost predicate SafeJobs(store: WorkStore, api: ApiServer, job: JobId)
    reads store, api
  {
    && job in store.rows && NeverOverlapped(api.record.seen)
    && (store.rows[job].execution.id != "" ==> OneUnfinished(api.jobs))
    && (store.rows[job].execution.terminal ==> AllEnded(api.jobs))
  }

  lemma BetweenIsSafe(store: WorkStore, api: ApiServer, job: JobId, follows: bool, run: P.Run, state: P.State)
    requires Between(store, api, job, follows, run, state)
    ensures SafeJobs(store, api, job)
  {
    TrackedJobsAreSafe(follows, run, state, api.record);
  }

  /** Between two attempts Jobs end or disappear, any number of them. */
  method TimePasses(
    store: WorkStore, api: ApiServer, job: JobId, ghost follows: bool, ghost run: P.Run, ghost state: P.State
  ) returns (ghost run': P.Run, ghost state': P.State)
    requires Between(store, api, job, follows, run, state)
    modifies api
    ensures Between(store, api, job, follows, run', state') && PS.Continues(run', run)
  {
    run', state' := run, state;
    var steps: nat := *;
    while steps > 0 && api.jobs != map[]
      invariant Between(store, api, job, follows, run', state') && PS.Continues(run', run)
    {
      ghost var record := api.record;
      ghost var move := api.Passes();
      TrackCluster(follows, run', state', record, move, api.jobs);
      run', state' := P.Then(run', move), state'.(jobs := api.jobs);
      steps := steps - 1;
    }
  }

  /** Other jobs' calls, the delivery loop and the passage of time. */
  method Elsewhere(store: WorkStore, job: JobId, maxAttempts: int)
    requires store.Valid() && job in store.rows
    modifies store
    ensures store.Valid() && job in store.rows
    ensures store.rows[job].lease == old(store.rows)[job].lease
    ensures store.rows[job].execution == old(store.rows)[job].execution
    ensures store.rows[job].slot == old(store.rows)[job].slot
    ensures Identities(store.history, job) == old(Identities(store.history, job))
    ensures Filed(store.history, job) == old(Filed(store.history, job))
    ensures WorkerPolicy(old(store.history), job, maxAttempts) ==> WorkerPolicy(store.history, job, maxAttempts)
  {
  }

  /** LeaseJob at some instant: the job may be the one picked. */
  method LeaseNext(store: WorkStore, job: JobId, worker: string, maxAttempts: int) returns (mine: bool)
    requires store.Valid() && worker != "" && job in store.rows && WorkerPolicy(store.history, job, maxAttempts)
    modifies store
    ensures store.Valid() && job in store.rows && WorkerPolicy(store.history, job, maxAttempts)
    ensures store.history.Then? && store.history.prev == old(store.history)
    ensures mine ==>
              && !Finished(old(store.rows)[job]) && Granted(store, job, worker, maxAttempts)
              && Grants(store.history, job) > old(Grants(store.history, job))
              && store.history.last.Grant? && store.history.last.ttl == LEASE_DURATION
    ensures !mine ==> store.rows[job].lease == old(store.rows)[job].lease
    ensures store.rows[job].slot == old(store.rows)[job].slot
    ensures store.rows[job].execution == old(store.rows)[job].execution
    ensures Identities(store.history, job) == old(Identities(store.history, job))
    ensures Filed(store.history, job) == old(Filed(store.history, job))
  {
    var now: Instant := *;
    var picked := store.LeaseJob(worker, LEASE_DURATION, now);
    mine := picked == Some(job);
    if mine {
      AttemptCountsGrants(store.history, job);
    }
  }

  /** The worker was just handed the job. */
  ghost predicate Granted(store: WorkStore, job: JobId, worker: string, maxAttempts: int)
    reads store
  {
    && job in store.rows && var l := store.rows[job].lease;
    && Holds(store.rows[job], worker, l.attempt) && l.attempt == Grants(store.history, job)
    && OnCourse(store.history, job, worker, l.attempt, l.lastError, maxAttempts)
  }

  /** One turn of the Run loop: lease whatever is oldest; if it is this job, process it. */
  method Turn(
    store: WorkStore, api: ApiServer, vault: VaultClient, job: JobId, worker: string, maxAttempts: int,
    actions: seq<string>, ghost run: P.Run, ghost state: P.State
  ) returns (posts: seq<Post>, ghost run': P.Run, ghost state': P.State)
    requires store.Valid() && worker != "" && job in store.rows && WorkerPolicy(store.history, job, maxAttempts)
    requires Settled(store.rows, store.history, job, PlanFor(actions), []) || Finished(store.rows[job])
    requires Between(store, api, job, Follows(actions, true), run, state)
    modifies store, api, vault
    ensures vault.sent == old(vault.sent) + SentOf(posts)
    ensures store.Valid() && job in store.rows && WorkerPolicy(store.history, job, maxAttempts)
    ensures Between(store, api, job, Follows(actions, true), run', state') && PS.Continues(run', run)
    ensures Finished(old(store.rows)[job]) ==>
              && posts == [] && store.rows[job].lease == old(store.rows)[job].lease
              && Filed(store.history, job) == old(Filed(store.history, job))
    ensures !Finished(old(store.rows)[job]) ==> Settled(store.rows, store.history, job, PlanFor(actions), posts)
  {
    PS.RunsChain();
    posts := [];
    SentNothing(vault.sent);
    run', state' := TimePasses(store, api, job, Follows(actions, true), run, state);
    Elsewhere(store, job, maxAttempts);
    var mine := LeaseNext(store, job, worker, maxAttempts);
    if mine {
      posts, run', state' := CalmAttempt(store, api, vault, job, worker, maxAttempts, actions, run', state');
    }
  }

  method CalmAttempt(
    store: WorkStore, api: ApiServer, vault: VaultClient, job: JobId, worker: string, maxAttempts: int,
    actions: seq<string>, ghost run: P.Run, ghost state: P.State
  ) returns (posts: seq<Post>, ghost run': P.Run, ghost state': P.State)
    requires store.Valid() && worker != "" && Granted(store, job, worker, maxAttempts)
    requires !store.rows[job].slot.claimed && Filed(store.history, job).None?
    requires Between(store, api, job, Follows(actions, true), run, state)
    modifies store, api, vault
    ensures vault.sent == old(vault.sent) + SentOf(posts)
    ensures store.Valid() && job in store.rows && WorkerPolicy(store.history, job, maxAttempts)
    ensures Between(store, api, job, Follows(actions, true), run', state') && PS.Continues(run', run)
    ensures Settled(store.rows, store.history, job, PlanFor(actions), posts)
  {
    var row, around: Surroundings := store.rows[job], *;
    var a := new Attempt(store, api, vault, job, worker, row.lease.attempt, row.lease.lastError, row.execution.id,
                         maxAttempts, true, around, Follows(actions, true), true, true, true, true, run, state);
    var ending, finding := a.Process(actions);
    assert OpenPlace(0) && OpenRun(0);
    posts, run', state' := a.posts, a.run, a.state;
  }

  method OneMoreTurn(
    store: WorkStore, api: ApiServer, vault: VaultClient, job: JobId, worker: string, maxAttempts: int,
    actions: seq<string>, posts: seq<Post>, ghost sentBefore: seq<Sent>, ghost run: P.Run, ghost state: P.State
  ) returns (posts': seq<Post>, ghost run': P.Run, ghost state': P.State)
    requires store.Valid() && worker != "" && WorkerPolicy(store.history, job, maxAttempts)
    requires Settled(store.rows, store.history, job, PlanFor(actions), posts)
    requires vault.sent == sentBefore + SentOf(posts)
    requires Between(store, api, job, Follows(actions, true), run, state)
    modifies store, api, vault
    ensures store.Valid() && Settled(store.rows, store.history, job, PlanFor(actions), posts')
    ensures WorkerPolicy(store.history, job, maxAttempts)
    ensures Between(store, api, job, Follows(actions, true), run', state') && PS.Continues(run', run)
    ensures vault.sent == sentBefore + SentOf(posts')
  {
    ghost var t, h := store.rows, store.history;
    SettledForNow(t, h, job, PlanFor(actions), posts);
    var more;
    more, run', state' := Turn(store, api, vault, job, worker, maxAttempts, actions, run, state);
    SettledAgain(t, h, store.rows, store.history, job, PlanFor(actions), posts, more);
    SentConcat(posts, more);
    posts' := posts + more;
  }

  /** Over any number of attempts, with a vault client, no crash, no store error and no lease loss: a
      finished job has exactly one terminal record and a queued job has none. The worker's failures follow the
      retry policy, and it and the cluster continue the run of the step machine. */
  method RunJob(
    store: WorkStore, api: ApiServer, vault: VaultClient, job: JobId, worker: string, maxAttempts: int,
    actions: seq<string>, ghost run: P.Run, ghost state: P.State
  ) returns (posts: seq<Post>, ghost run': P.Run, ghost state': P.State)
    requires store.Valid() && worker != "" && WorkerPolicy(store.history, job, maxAttempts)
    requires Settled(store.rows, store.history, job, PlanFor(actions), []) && store.rows[job].lease.status.Queued?
    requires Between(store, api, job, Follows(actions, true), run, state)
    modifies store, api, vault
    ensures vault.sent == old(vault.sent) + SentOf(posts)
    ensures store.Valid() && Settled(store.rows, store.history, job, PlanFor(actions), posts)
    ensures WorkerPolicy(store.history, job, maxAttempts)
    ensures Between(store, api, job, Follows(actions, true), run', state') && PS.Continues(run', run)
    ensures SafeJobs(store, api, job)
  {
    PS.RunsChain();
    posts, run', state' := [], run, state;
    SentNothing(vault.sent);
    var turns: nat := *;
    while turns > 0
      invariant store.Valid() && Settled(store.rows, store.history, job, PlanFor(actions), posts)
      invariant WorkerPolicy(store.history, job, maxAttempts)
      invariant Between(store, api, job, Follows(actions, true), run', state') && PS.Continues(run', run)
      invariant vault.sent == old(vault.sent) + SentOf(posts)
    {
      posts, run', state' :=
        OneMoreTurn(store, api, vault, job, worker, maxAttempts, actions, posts, old(vault.sent), run', state');
      turns := turns - 1;
    }
    BetweenIsSafe(store, api, job, Follows(actions, true), run', state');
  }

  // ---------- crashes and store errors ----------

  /** Over any number of attempts of one process after another, each of which may die at any point and meet any store
      error before or after its effect, no Kubernetes Job of the job ever takes effect beside an unfinished one. The
      attempts and the cluster continue the run of the step machine: its row is the table's row, its Jobs are the
      cluster's, and so is its record of them. The failures follow the retry policy. */
  method RunJobThroughCrashes(
    store: WorkStore, api: ApiServer, vault: VaultClient, job: JobId, maxAttempts: int, vaultClient: bool,
    actions: seq<string>, ghost run: P.Run, ghost state: P.State
  ) returns (ghost run': P.Run, ghost state': P.State)
    requires store.Valid() && job in store.rows && WorkerPolicy(store.history, job, maxAttempts)
    requires Between(store, api, job, Follows(actions, vaultClient), run, state)
    modifies store, api, vault
    ensures store.Valid() && WorkerPolicy(store.history, job, maxAttempts)
    ensures Between(store, api, job, Follows(actions, vaultClient), run', state') && PS.Continues(run', run)
    ensures SafeJobs(store, api, job)
  {
    PS.RunsChain();
    run', state' := run, state;
    var turns: nat := *;
    while turns > 0
      invariant store.Valid() && job in store.rows && WorkerPolicy(store.history, job, maxAttempts)
      invariant Between(store, api, job, Follows(actions, vaultClient), run', state') && PS.Continues(run', run)
    {
      run', state' := MortalTurn(store, api, vault, job, maxAttempts, vaultClient, actions, run', state');
      turns := turns - 1;
    }
    BetweenIsSafe(store, api, job, Follows(actions, vaultClient), run', state');
  }

  method MortalTurn(
    store: WorkStore, api: ApiServer, vault: VaultClient, job: JobId, maxAttempts: int, vaultClient: bool,
    actions: seq<string>, ghost run: P.Run, ghost state: P.State
  ) returns (ghost run': P.Run, ghost state': P.State)
    requires store.Valid() && job in store.rows && WorkerPolicy(store.history, job, maxAttempts)
    requires Between(store, api, job, Follows(actions, vaultClient), run, state)
    modifies store, api, vault
    ensures store.Valid() && job in store.rows && WorkerPolicy(store.history, job, maxAttempts)
    ensures Between(store, api, job, Follows(actions, vaultClient), run', state') && PS.Continues(run', run)
  {
    PS.RunsChain();
    var worker: string :| worker != "";
    run', state' := TimePasses(store, api, job, Follows(actions, vaultClient), run, state);
    Elsewhere(store, job, maxAttempts);
    var mine := LeaseNext(store, job, worker, maxAttempts);
    if mine {
      run', state' := MortalAttempt(store, api, vault, job, worker, maxAttempts, vaultClient, actions, run', state');
    }
  }

  method MortalAttempt(
    store: WorkStore, api: ApiServer, vault: VaultClient, job: JobId, worker: string, maxAttempts: int,
    vaultClient: bool, actions: seq<string>, ghost run: P.Run, ghost state: P.State
  ) returns (ghost run': P.Run, ghost state': P.State)
    requires store.Valid() && worker != "" && Granted(store, job, worker, maxAttempts)
    requires Between(store, api, job, Follows(actions, vaultClient), run, state)
    modifies store, api, vault
    ensures store.Valid() && job in store.rows && WorkerPolicy(store.history, job, maxAttempts)
    ensures Between(store, api, job, Follows(actions, vaultClient), run', state') && PS.Continues(run', run)
  {
    var row, around: Surroundings := store.rows[job], *;
    var a := new Attempt(store, api, vault, job, worker, row.lease.attempt, row.lease.lastError, row.execution.id,
                         maxAttempts, vaultClient, around, Follows(actions, vaultClient), true, false, false, false,
                         run, state);
    var ending, finding := a.Process(actions);
    assert OpenPlace(0) && OpenRun(0);
    run', state' := a.run, a.state;
  }

  // ---------- arbitrary runs ----------

  /** Anything at all by other callers that use the same retry policy: other workers on this job included. */
  method Anything(store: WorkStore, job: JobId, maxAttempts: int)
    requires store.Valid() && job in store.rows
    modifies store
    ensures store.Valid() && job in store.rows && Extends(store.history, old(store.history))
    ensures WorkerPolicy(old(store.history), job, maxAttempts) ==> WorkerPolicy(store.history, job, maxAttempts)
  {
  }

  /** Generations that were granted so far. */
  ghost predicate Past(gens: set<(string, int)>, h: History, job: JobId) {
    forall g :: g in gens ==> g.1 <= Grants(h, job)
  }

  /** Over any number of attempts under any worker names, with crashes, lease losses and store errors at any point and
      the store calls of other workers on the job at any time: as long as ClaimTerminal itself is answered, these
      attempts together begin at most one terminal record, and the failures follow the retry policy. */
  method RunJobAnyhow(
    store: WorkStore, api: ApiServer, vault: VaultClient, job: JobId, maxAttempts: int, vaultClient: bool,
    actions: seq<string>
  ) returns (posts: seq<Post>)
    requires store.Valid() && job in store.rows && WorkerPolicy(store.history, job, maxAttempts)
    modifies store, api, vault
    ensures vault.sent == old(vault.sent) + SentOf(posts)
    ensures store.Valid() && WorkerPolicy(store.history, job, maxAttempts)
    ensures maxAttempts >= 1 ==> Requeues(store.history, job) <= maxAttempts - 1
    ensures |Terminals(posts)| <= 1
  {
    posts := [];
    SentNothing(vault.sent);
    ghost var gens: set<(string, int)> := {};
    var turns: nat := *;
    while turns > 0
      invariant store.Valid() && job in store.rows && WorkerPolicy(store.history, job, maxAttempts)
      invariant Past(gens, store.history, job) && |Terminals(posts)| <= WinsAmong(store.history, job, gens)
      invariant vault.sent == old(vault.sent) + SentOf(posts)
    {
      var worker: string :| worker != "";
      posts, gens :=
        AnyTurn(store, api, vault, job, worker, maxAttempts, vaultClient, actions, posts, old(vault.sent), gens);
      turns := turns - 1;
    }
    SlotIsWonOnce(store.history, job);
    WinsAmongAreWins(store.history, job, gens);
    if maxAttempts >= 1 {
      RequeuesAreBounded(store.history, job, maxAttempts);
    }
  }

  method AnyTurn(
    store: WorkStore, api: ApiServer, vault: VaultClient, job: JobId, worker: string, maxAttempts: int,
    vaultClient: bool, actions: seq<string>, posts: seq<Post>, ghost sentBefore: seq<Sent>,
    ghost gens: set<(string, int)>
  ) returns (posts': seq<Post>, ghost gens': set<(string, int)>)
    requires store.Valid() && job in store.rows && WorkerPolicy(store.history, job, maxAttempts) && worker != ""
    requires Past(gens, store.history, job) && |Terminals(posts)| <= WinsAmong(store.history, job, gens)
    requires vault.sent == sentBefore + SentOf(posts)
    modifies store, api, vault
    ensures vault.sent == sentBefore + SentOf(posts')
    ensures store.Valid() && job in store.rows && WorkerPolicy(store.history, job, maxAttempts)
    ensures Past(gens', store.history, job) && |Terminals(posts')| <= WinsAmong(store.history, job, gens')
  {
    posts', gens' := posts, gens;
    Anything(store, job, maxAttempts);
    SnapshotStays(store.history, old(store.history), job);
    WinsAmongGrow(store.history, old(store.history), job, gens);
    ghost var before := store.history;
    var mine := LeaseNext(store, job, worker, maxAttempts);
    WinsAmongGrow(store.history, before, job, gens);
    if mine {
      ghost var me := (worker, store.rows[job].lease.attempt as int);
      ghost var at := store.history;
      var more := AnyAttempt(store, api, vault, job, worker, maxAttempts, vaultClient, actions);
      WinsAmongGrow(store.history, at, job, gens);
      SnapshotStays(store.history, at, job);
      WinsAmongAdd(store.history, job, gens, me);
      TerminalsConcat(posts, more);
      SentConcat(posts, more);
      posts', gens' := posts + more, gens + {me};
    }
  }

  method AnyAttempt(
    store: WorkStore, api: ApiServer, vault: VaultClient, job: JobId, worker: string, maxAttempts: int,
    vaultClient: bool, actions: seq<string>
  ) returns (posts: seq<Post>)
    requires store.Valid() && worker != "" && Granted(store, job, worker, maxAttempts)
    modifies store, api, vault
    ensures vault.sent == old(vault.sent) + SentOf(posts)
    ensures store.Valid() && job in store.rows && WorkerPolicy(store.history, job, maxAttempts)
    ensures Extends(store.history, old(store.history))
    ensures |Terminals(posts)| <= WinsAmong(store.history, job, {(worker, old(store.rows)[job].lease.attempt)})
  {
    var row, around: Surroundings := store.rows[job], *;
    ghost var none := P.State(None, false, false, map[], P.Idle, {}, {});
    var a := new Attempt(store, api, vault, job, worker, row.lease.attempt, row.lease.lastError, row.execution.id,
                         maxAttempts, vaultClient, around, Follows(actions, vaultClient), false, true, false, false,
                         P.Begin(none), none);
    var ending, finding := a.Process(actions);
    assert OpenPlace(0) && OpenRun(0);
    posts := a.posts;
  }
}
