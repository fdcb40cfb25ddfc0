/** One attempt of a job: process, finishAfterL4, runSmokeRun, createSmokeJob, retireLegacyExecutions and the
    reporting functions of pkg/worker/worker.go, runL5a, waitL5aJob and submitCheckRecord of
    pkg/worker/l5a.go, runL5b of pkg/worker/l5b.go and markFirstDeliveryFailure of pkg/worker/delivery.go.
    Kubernetes and NodeVault answer arbitrarily; a poll loop runs until its context ends. */
module Attempts {
  import opened Values
  import opened FailurePolicy
  import opened RetryPacing
  import opened DeliveryBackoff
  import opened Rows
  import opened Histories
  import opened Leases
  import opened Deliveries
  import opened RetryBudget
  import opened WorkStores
  import opened NodeVault
  import opened Kubernetes
  import opened Findings
  import opened Tracking

  const LEASE_DURATION: Duration := 120 * SECOND

  datatype Stage = L3 | L4 | L5A | L5B

  /** A record submission to NodeVault that was begun. */
  datatype Post = Post(stage: Stage, terminal: bool, payload: string, answer: Answer)

  datatype Plan = Plan(runL5a: bool, runL5b: bool)

  /** How an attempt ended: it requeued or failed the job at a stage, completed it, or stopped early. */
  datatype Ending = RequeuedAt(stage: Stage) | FailedAt(stage: Stage) | Completed | Stopped

  /** What L4 came to. */
  datatype Result = Success | Failure(finding: Finding, kind: FailureClass, reason: string)

  function LastStage(plan: Plan): Stage {
    if plan.runL5b then L5B else if plan.runL5a then L5A else L4
  }

  predicate KnownAction(a: string) {
    a == "smoke_run" || a == "profile" || a == "security_scan"
  }

  /** The stages a request selects: everything when it names none, otherwise exactly the named ones; None
      when it names an action this worker does not know. */
  function PlanFor(actions: seq<string>): Option<Plan> {
    if exists a :: a in actions && !KnownAction(a) then None
    else if actions == [] then Some(Plan(true, true))
    else Some(Plan("profile" in actions, "security_scan" in actions))
  }

  method PlanStages(requested: seq<string>) returns (plan: Option<Plan>)
    ensures plan == PlanFor(requested)
    ensures plan.None? <==> exists a :: a in requested && a != "smoke_run" && a != "profile" && a != "security_scan"
    ensures plan.Some? ==> (plan.value.runL5a <==> requested == [] || "profile" in requested)
    ensures plan.Some? ==> (plan.value.runL5b <==> requested == [] || "security_scan" in requested)
  {
    if |requested| == 0 {
      return Some(Plan(true, true));
    }
    var p := Plan(false, false);
    for i := 0 to |requested|
      invariant forall k :: 0 <= k < i ==> KnownAction(requested[k])
      invariant p == Plan("profile" in requested[..i], "security_scan" in requested[..i])
    {
      assert requested[..i + 1] == requested[..i] + [requested[i]];
      var a := requested[i];
      if a == "smoke_run" {
      } else if a == "profile" {
        p := p.(runL5a := true);
      } else if a == "security_scan" {
        p := p.(runL5b := true);
      } else {
        assert a in requested && !KnownAction(a);
        return None;
      }
    }
    assert requested[..|requested|] == requested;
    plan := Some(p);
  }

  /** The stages of the submissions, and which were terminal. */
  function Stages(posts: seq<Post>): seq<(Stage, bool)> {
    seq(|posts|, i requires 0 <= i < |posts| => (posts[i].stage, posts[i].terminal))
  }

  lemma StagesAppend(posts: seq<Post>, p: Post)
    ensures Stages(posts + [p]) == Stages(posts) + [(p.stage, p.terminal)]
  {
  }

  /** The submissions as NodeVault's client records them. */
  function SentOf(posts: seq<Post>): seq<Sent> {
    seq(|posts|, i requires 0 <= i < |posts| => Sent(posts[i].payload, posts[i].answer))
  }

  lemma SentAppend(before: seq<Sent>, posts: seq<Post>, p: Post)
    ensures before + SentOf(posts + [p]) == before + SentOf(posts) + [Sent(p.payload, p.answer)]
  {
    assert SentOf(posts + [p]) == SentOf(posts) + [Sent(p.payload, p.answer)];
  }

  /** The terminal submissions among `posts`. */
  function Terminals(posts: seq<Post>): seq<Post> {
    if posts == [] then []
    else
      var before := Terminals(posts[..|posts| - 1]);
      if posts[|posts| - 1].terminal then before + [posts[|posts| - 1]] else before
  }

  lemma TerminalsAppend(posts: seq<Post>, p: Post)
    ensures Terminals(posts + [p]) == if p.terminal then Terminals(posts) + [p] else Terminals(posts)
  {
    assert (posts + [p])[..|posts|] == posts;
  }

  /** A generation's own heartbeat or final report: accepted exactly while the generation holds the lease;
      a refusal means that the generation is dead; slot and stored payload are untouched. */
  lemma AfterLeaseReport(h: History, e: Event, worker: string, attempt: nat)
    requires Legal(Then(h, e)) && LeaseReport(e) && e.worker == worker && e.attempt == attempt
    requires WasGranted(h, e.job, worker, attempt)
    ensures e.job in After(h) && e.job in After(Then(h, e))
    ensures var r, q := After(h)[e.job], After(Then(h, e))[e.job];
            && (e.ok <==> Holds(r, worker, attempt))
            && (e.ok && e.Heartbeat? ==> Holds(q, worker, attempt))
            && (e.ok && e.Complete? ==> q.lease.status.Succeeded?)
            && (e.ok && e.Fail? ==> q.lease.status == if e.retryable then Queued else Failed)
            && (!e.ok ==> q == r && Dead(q, worker, attempt))
            && q.slot == r.slot && (Dead(r, worker, attempt) ==> !e.ok)
    ensures Filed(Then(h, e), e.job) == Filed(h, e.job)
  {
    GrantedWasCounted(h, e.job, worker, attempt);
    AttemptCountsGrants(h, e.job);
    ReachableRowsAreValid(h, e.job);
  }

  /** The slot owner's first mark stores its payload; lease and slot are untouched. */
  lemma AfterFirstMark(h: History, e: Event)
    requires Legal(Then(h, e)) && (e.FirstPending? || e.FirstDeadLetter?) && e.job in After(h)
    ensures e.job in After(Then(h, e))
    ensures var r, q := After(h)[e.job], After(Then(h, e))[e.job]; q.lease == r.lease && q.slot == r.slot
    ensures After(h)[e.job].slot == Slot(true, e.worker, e.attempt) && Filed(h, e.job).None? ==>
              && Filed(Then(h, e), e.job)
                 == Some(Filing(e.payload, e.error, if e.FirstPending? then Pending else DeadLetter))
              && After(Then(h, e))[e.job].ledger
                 == Ledger(if e.FirstPending? then Pending else DeadLetter, e.payload, 1, e.error,
                           if e.FirstPending? then Some(e.nextAttemptAt) else None, None, "")
  {
    PayloadIsConserved(h, e.job);
    ReachableRowsAreValid(h, e.job);
  }

  /** Keys to the two invariants of an attempt. Methods that only sequence calls hand the invariants on unopened, which
      keeps their proofs small; the others assert a key. */
  predicate OpenPlace(key: int) {
    true
  }

  predicate OpenRun(key: int) {
    true
  }

  class Attempt {
    const store: WorkStore
    const api: ApiServer
    const vault: VaultClient
    const job: JobId
    const worker: string
    const attempt: nat
    const lastError: string
    const maxAttempts: int
    const vaultClient: bool // whether the worker was given one
    const around: Surroundings

    /** Whether L5-a follows L4 for this job: the plan asks for it and there is a vault client. */
    ghost const l5aFollows: bool

    /** No other caller touches this job but the delivery loop. */
    ghost const alone: bool

    /** ClaimTerminal meets no store error while the process lives. */
    ghost const claimsAnswered: bool

    /** No store call meets an error while the process lives. */
    ghost const answered: bool

    /** All three, and no crash. */
    ghost const calm: bool

    /** The store's history and the client's record when the attempt began. */
    ghost const start: History
    ghost const sentBefore: seq<Sent>

    /** Where the attempt stands in the step machine of Protocol, the run that its process and the cluster have made
        since the job was created, and the state that run has reached. */
    ghost var pc: P.Pc
    ghost var run: P.Run
    ghost var state: P.State

    var executionId: string
    var crashed: bool    // the process is dead: what follows has no effect outside it
    var lost: bool       // the attempt context was cancelled by a confirmed lease loss
    var posts: seq<Post> // submissions begun, oldest first
    var claims: nat      // terminal-slot claims sent
    var beats: nat       // heartbeats sent
    ghost var postsAtLoss: nat
    ghost var claimsAtLoss: nat

    ghost function Me(): set<(string, int)> {
      {(worker, attempt)}
    }

    /** What every call of the attempt keeps: its place in the store's history, ... */
    ghost predicate Placed()
      reads store, vault, this`crashed, this`lost, this`posts, this`claims, this`postsAtLoss, this`claimsAtLoss
    {
      && store.Valid() && worker != "" && job in store.rows
      && OnCourse(store.history, job, worker, attempt, lastError, maxAttempts)
      && Extends(store.history, start) && vault.sent == sentBefore + SentOf(posts)
      && (calm ==> alone && claimsAnswered && answered && !crashed)
      && (claimsAnswered ==> |Terminals(posts)| <= WinsAmong(store.history, job, Me()))
      && (lost ==> Dead(store.rows[job], worker, attempt) && |posts| == postsAtLoss && claims == claimsAtLoss)
    }

    ghost predicate InPlace()
      reads store, vault, this`crashed, this`lost, this`posts, this`claims, this`postsAtLoss, this`claimsAtLoss
    {
      forall key: int :: OpenPlace(key) ==> Placed()
    }

    /** ... and all that it and the cluster did so far as a run of the machine that agrees with the job's row, with the
        Jobs there are, and with the record of the Jobs there were. */
    ghost predicate Simulates()
      reads store, api, this`crashed, this`pc, this`run, this`state
    {
      && job in store.rows
      && Tracked(l5aFollows, run, state, api.record) && state.jobs == api.jobs
      && state.pc == (if crashed then P.Idle else pc)
      && Matches(state, store.rows[job], Minted(store.history, job))
    }

    ghost predicate InStep()
      reads store, api, this`crashed, this`pc, this`run, this`state
    {
      forall key: int :: OpenRun(key) ==> (alone ==> Simulates())
    }

    ghost predicate Ready()
      reads store, api, vault, this`crashed, this`lost, this`posts, this`claims, this`postsAtLoss, this`claimsAtLoss
      reads this`pc, this`run, this`state
    {
      job in store.rows && (calm ==> alone && claimsAnswered && answered && !crashed) && InPlace() && InStep()
    }

    /** The machine still has to take the step `a` that the store has already made. */
    ghost predicate Behind(a: P.Action)
      reads store, api, this`crashed, this`pc, this`run, this`state
    {
      && job in store.rows
      && Tracked(l5aFollows, run, state, api.record) && state.jobs == api.jobs
      && state.pc == pc && P.Can(P.ALL_HYPOTHESES, l5aFollows, state, a)
      && Matches(P.Step(P.ALL_HYPOTHESES, l5aFollows, state, a), store.rows[job], Minted(store.history, job))
    }

    ghost predicate Due(a: P.Action)
      reads store, api, vault, this`crashed, this`lost, this`posts, this`claims, this`postsAtLoss, this`claimsAtLoss
      reads this`pc, this`run, this`state
    {
      && job in store.rows && (calm ==> alone && claimsAnswered && answered && !crashed) && InPlace()
      && forall key: int :: OpenRun(key) ==> (alone ==> Behind(a))
    }

    /** With nobody else at the job the attempt holds its lease. */
    ghost predicate Held()
      reads store, this`lost
    {
      alone ==> !lost && job in store.rows && Holds(store.rows[job], worker, attempt)
    }

    /** What is stored for redelivery, if anything. */
    ghost function Stored(): Option<Filing>
      reads store
    {
      Filed(store.history, job)
    }

    ghost function SlotNow(): Slot
      reads store
    {
      if job in store.rows then store.rows[job].slot else Slot(false, "", 0)
    }

    /** All that the table says about the job's terminal record. */
    ghost function Record(): (Slot, Option<Filing>)
      reads store
    {
      (SlotNow(), Stored())
    }

    ghost function Exec(): Execution
      reads store
    {
      if job in store.rows then store.rows[job].execution else Execution("", false)
    }

    /** In a calm run the row is on this attempt's identity, released or not. */
    ghost predicate Under(released: bool)
      reads store, this`executionId
    {
      calm ==> executionId != "" && Exec() == Execution(executionId, released)
    }

    /** What the attempt heard last. */
    ghost function LastTold(): Option<P.Action>
      reads this`run
    {
      Told(run)
    }

    /** No terminal record was begun: the slot is free and nothing is stored. */
    ghost predicate NoneYet()
      reads store, this`posts
    {
      !SlotNow().claimed && Stored().None? && Terminals(posts) == []
    }

    /** What a failed terminal submission leaves in the store. */
    static function FilingOf(p: Post): Option<Filing> {
      match p.answer
      case Accepted => None
      case RetryableError(error) => Some(Filing(p.payload, error, Pending))
      case PermanentError(error) => Some(Filing(p.payload, error, DeadLetter))
    }

    /** Exactly one terminal record was begun, at `stage`, by this attempt as owner of the slot; either
        NodeVault accepted it, or exactly its payload and NodeVault's error are stored: for redelivery after a
        retryable error, as a dead letter after a permanent one. */
    ghost predicate OneAt(stage: Stage)
      reads store, this`posts
    {
      && SlotNow() == Slot(true, worker, attempt)
      && |Terminals(posts)| == 1
      && var p := Terminals(posts)[0];
         p.stage == stage && Stored() == FilingOf(p)
    }

    constructor (
      store: WorkStore, api: ApiServer, vault: VaultClient, job: JobId, worker: string, attempt: nat,
      lastError: string, executionId: string, maxAttempts: int, vaultClient: bool, around: Surroundings,
      ghost l5aFollows: bool, ghost alone: bool, ghost claimsAnswered: bool, ghost answered: bool, ghost calm: bool,
      ghost run: P.Run, ghost state: P.State
    )
      ensures this.store == store && this.api == api && this.vault == vault && this.job == job
      ensures this.worker == worker && this.attempt == attempt
      ensures this.lastError == lastError && this.maxAttempts == maxAttempts && this.vaultClient == vaultClient
      ensures this.l5aFollows == l5aFollows && this.alone == alone && this.claimsAnswered == claimsAnswered
      ensures this.answered == answered && this.calm == calm && this.executionId == executionId
      ensures this.run == run && this.state == state && this.around == around
      ensures !crashed && !lost && posts == [] && claims == 0 && pc == P.Idle
      ensures start == store.history && sentBefore == vault.sent
    {
      this.store, this.api, this.vault, this.job, this.worker, this.attempt := store, api, vault, job, worker, attempt;
      this.lastError, this.maxAttempts, this.vaultClient := lastError, maxAttempts, vaultClient;
      this.l5aFollows, this.alone, this.claimsAnswered := l5aFollows, alone, claimsAnswered;
      this.answered, this.calm, this.around := answered, calm, around;
      crashed, lost, posts, claims, beats, postsAtLoss, claimsAtLoss := false, false, [], 0, 0, 0, 0;
      pc, this.run, this.state, this.executionId := P.Idle, run, state, executionId;
      start, sentBefore := store.history, vault.sent;
    }

    // ---------- the environment ----------

    /** Any other callers may run between two calls of this attempt; they are workers with the same retry policy. In an
        undisturbed run they leave the job's lease, identity and slot alone and store no payload for it. */
    method Others()
      requires store.Valid() && job in store.rows
      modifies store
      ensures store.Valid() && Extends(store.history, old(store.history))
      ensures WorkerPolicy(old(store.history), job, maxAttempts) ==> WorkerPolicy(store.history, job, maxAttempts)
      ensures alone ==>
                && job in store.rows && store.rows[job].lease == old(store.rows)[job].lease
                && store.rows[job].execution == old(store.rows)[job].execution
                && Identities(store.history, job) == old(Identities(store.history, job))
                && Record() == old(Record())
    {
    }

    /** A store call of this process meets an error, before it has an effect or after; a dead process reaches
        nothing. */
    method StoreError() returns (error: bool)
      ensures answered && !crashed ==> !error
      ensures crashed ==> error
    {
      error := crashed;
    }

    method ClaimError() returns (error: bool)
      ensures claimsAnswered && !crashed ==> !error
      ensures crashed ==> error
    {
      error := crashed;
    }

    method Dies() returns (dies: bool)
      ensures calm ==> !dies
    {
      dies := false;
    }

    /** In a disturbed run other workers use the cluster too. */
    method OtherWorkers()
      modifies api
      ensures api.deletions == old(api.deletions) && api.polls == old(api.polls)
      ensures alone ==> api.jobs == old(api.jobs) && api.record == old(api.record)
    {
    }

    /** rand.Int63n. */
    method Jitter() returns (source: int -> int)
      ensures Int63n(source)
    {
      source := n => 0;
    }

    /** Time passes for the cluster, and the process may die. */
    method Tick()
      requires Ready() && Held()
      modifies this`crashed, this`run, this`state, api
      ensures Ready() && Held() && (old(crashed) ==> crashed)
      ensures Creates(run) == Creates(old(run))
      ensures PS.Continues(run, old(run))
      ensures api.deletions == old(api.deletions) && api.polls == old(api.polls)
      ensures Told(run) == Told(old(run))
    {
      PS.RunsChain();
      Drift();
      var dies := Dies();
      if dies && !crashed {
        Die();
      }
    }

    /** Jobs end or disappear, any number of them. */
    method Drift()
      requires Ready() && Held()
      modifies this`run, this`state, api
      ensures Ready() && Held() && Creates(run) == Creates(old(run))
      ensures PS.Continues(run, old(run))
      ensures api.deletions == old(api.deletions) && api.polls == old(api.polls)
      ensures Told(run) == Told(old(run))
    {
      PS.RunsChain();
      Disturbed();
      var steps: nat := *;
      while steps > 0 && api.jobs != map[]
        invariant Ready() && Held() && Creates(run) == Creates(old(run))
        invariant PS.Continues(run, old(run))
        invariant api.deletions == old(api.deletions) && api.polls == old(api.polls)
        invariant Told(run) == Told(old(run))
      {
        JobMoves();
        steps := steps - 1;
      }
    }

    method Disturbed()
      requires Ready() && Held()
      modifies api
      ensures Ready() && Held()
      ensures api.deletions == old(api.deletions) && api.polls == old(api.polls)
    {
      assert OpenRun(0);
      OtherWorkers();
    }

    /** One Job ends or disappears: a step of the machine. */
    method JobMoves()
      requires Ready() && Held() && api.jobs != map[]
      modifies this`run, this`state, api
      ensures Ready() && Held()
      ensures run.Then? && (run.a.JobEnds? || run.a.JobVanishes?) && run.prev == old(run)
      ensures PS.Continues(run, old(run))
      ensures api.deletions == old(api.deletions) && api.polls == old(api.polls)
      ensures Told(run) == Told(old(run))
    {
      assert OpenRun(0);
      ghost var record := api.record;
      ghost var move := api.Passes();
      if alone {
        TrackCluster(l5aFollows, run, state, record, move, api.jobs);
      }
      run, state := P.Then(run, move), state.(jobs := api.jobs);
    }

    /** The process dies: a Crash of the machine. */
    method Die()
      requires Ready() && Held() && !calm && !crashed
      modifies this`crashed, this`run, this`state
      ensures Ready() && Held() && crashed
      ensures Creates(run) == Creates(old(run))
      ensures PS.Continues(run, old(run))
      ensures Told(run) == Told(old(run))
    {
      PS.RunsChain();
      assert OpenPlace(0) && OpenRun(0);
      if alone {
        TrackCrash(l5aFollows, run, state, api.record);
      }
      crashed := true;
      run, state := P.Then(run, P.Crash), state.(pc := P.Idle);
    }

    /** Whatever other callers do, this generation stays granted, and a confirmed loss stays one. */
    method Interlude()
      requires Ready() && Held()
      modifies store, this`crashed, this`run, this`state, api
      ensures Ready() && Held() && (old(crashed) ==> crashed)
      ensures alone ==> Record() == old(Record()) && store.rows[job].execution == old(store.rows)[job].execution
      ensures Extends(store.history, old(store.history))
      ensures Creates(run) == Creates(old(run))
      ensures PS.Continues(run, old(run))
      ensures Told(run) == Told(old(run))
    {
      PS.RunsChain();
      assert OpenPlace(0) && OpenRun(0);
      Others();
      StaysOnCourse(store.history, old(store.history), job, worker, attempt, lastError, maxAttempts);
      GrantedWasCounted(store.history, job, worker, attempt);
      WinsAmongGrow(store.history, old(store.history), job, Me());
      ExtendsIsTransitive(store.history, old(store.history), start);
      if lost {
        DeadStaysDead(store.history, old(store.history), job, worker, attempt);
      }
      Tick();
    }

    /** A quiet store call of this attempt keeps what ties it to the history and to the machine. */
    lemma Quietly(before: History)
      requires store.Valid() && store.history.Then? && store.history.prev == before && Quiet(store.history.last)
      requires job in After(before) && OnCourse(before, job, worker, attempt, lastError, maxAttempts)
      ensures job in store.rows && OnCourse(store.history, job, worker, attempt, lastError, maxAttempts)
      ensures store.rows[job].execution == After(before)[job].execution
      ensures Finished(After(before)[job]) ==> Finished(store.rows[job])
      ensures Minted(store.history, job) == Minted(before, job)
      ensures WinsAmong(store.history, job, Me()) >= WinsAmong(before, job, Me())
    {
      QuietStep(before, store.history.last, job, maxAttempts, Me());
      StaysOnCourse(store.history, before, job, worker, attempt, lastError, maxAttempts);
    }

    // ---------- lease checks ----------

    /** heartbeat: only ErrNotFound confirms a loss. */
    method Beat()
      requires Ready() && Held()
      modifies store, this`lost, this`beats, this`postsAtLoss, this`claimsAtLoss, this`crashed, this`run,
        this`state, api
      ensures beats >= old(beats)
      ensures Ready() && Held()
      ensures (old(lost) ==> lost) && (old(crashed) ==> crashed)
      ensures answered && !crashed ==> beats == old(beats) + 1
      ensures calm ==> Record() == old(Record())
      ensures PS.Continues(run, old(run))
      ensures Told(run) == Told(old(run))
      ensures alone ==> Exec() == old(Exec())
    {
      PS.RunsChain();
      Interlude();
      var error := StoreError();
      if !error {
        SendBeat();
      }
    }

    /** The call; a refusal that is heard confirms the loss, and nothing else does. */
    method SendBeat()
      requires Ready() && Held()
      modifies store, this`lost, this`beats, this`postsAtLoss, this`claimsAtLoss
      ensures Ready() && Held() && Record() == old(Record()) && Exec() == old(Exec())
      ensures beats == old(beats) + 1
      ensures store.history.Then? && store.history.prev == old(store.history)
      ensures var e := store.history.last;
              e.Heartbeat? && e.job == job && e.worker == worker && e.attempt == attempt && e.ttl == LEASE_DURATION
      ensures old(lost) ==> lost
      ensures store.history.last.ok ==> lost == old(lost)
      ensures answered && !crashed && !store.history.last.ok ==> lost
    {
      var ok := BeatInStore();
      beats := beats + 1;
      var unheard := StoreError();
      if !ok && !unheard && !lost {
        Lose();
      }
    }

    method BeatInStore() returns (ok: bool)
      requires Ready() && Held()
      modifies store
      ensures Ready() && Held() && Record() == old(Record()) && Exec() == old(Exec())
      ensures store.history.Then? && store.history.prev == old(store.history)
      ensures var e := store.history.last;
              && e.Heartbeat? && e.job == job && e.worker == worker && e.attempt == attempt && e.ttl == LEASE_DURATION
              && e.ok == ok
      ensures !ok ==> !alone && Dead(store.rows[job], worker, attempt)
    {
      assert OpenPlace(0) && OpenRun(0);
      var now: Instant := *;
      ghost var before := store.history;
      ok := store.Heartbeat(job, worker, attempt, LEASE_DURATION, now);
      AfterLeaseReport(before, store.history.last, worker, attempt);
      Quietly(before);
    }

    /** The loss is confirmed. */
    method Lose()
      requires Ready() && !alone && Dead(store.rows[job], worker, attempt)
      modifies this`lost, this`postsAtLoss, this`claimsAtLoss
      ensures Ready() && Held() && lost
    {
      assert OpenPlace(0);
      lost, postsAtLoss, claimsAtLoss := true, |posts|, claims;
    }

    method StillLeased() returns (held: bool)
      requires Ready() && Held()
      modifies store, this`lost, this`beats, this`postsAtLoss, this`claimsAtLoss, this`crashed, this`run,
        this`state, api
      ensures beats >= old(beats)
      ensures Ready() && Held()
      ensures (old(lost) ==> lost) && (old(crashed) ==> crashed)
      ensures held <==> !lost
      ensures answered && !crashed && !old(lost) ==> beats == old(beats) + 1
      ensures calm ==> Record() == old(Record())
      ensures PS.Continues(run, old(run))
      ensures Told(run) == Told(old(run))
      ensures alone ==> Exec() == old(Exec())
    {
      PS.RunsChain();
      if lost {
        return false;
      }
      Beat();
      held := !lost;
    }

    // ---------- submissions ----------

    /** The HTTP POST; never begun after a confirmed loss. A terminal one is begun only by a winner of the slot that
        has not begun one yet, unless the claim met a store error. */
    method Submit(stage: Stage, terminal: bool, payload: string) returns (answer: Answer)
      requires Ready() && Held() && !lost
      requires terminal && claimsAnswered && !crashed ==> |Terminals(posts)| < WinsAmong(store.history, job, Me())
      modifies this`posts, this`crashed, this`run, this`state, api, vault
      ensures Ready() && Held() && (old(crashed) ==> crashed)
      ensures posts == if crashed then old(posts) else old(posts) + [Post(stage, terminal, payload, answer)]
      ensures vault.sent == if crashed then old(vault.sent) else old(vault.sent) + [Sent(payload, answer)]
      ensures PS.Continues(run, old(run))
      ensures Told(run) == Told(old(run))
    {
      PS.RunsChain();
      Tick();
      if crashed {
        answer := RetryableError("");
      } else {
        answer := Send(stage, terminal, payload);
      }
    }

    method Send(stage: Stage, terminal: bool, payload: string) returns (answer: Answer)
      requires Ready() && Held() && !lost && !crashed
      requires terminal && claimsAnswered ==> |Terminals(posts)| < WinsAmong(store.history, job, Me())
      modifies this`posts, vault
      ensures Ready() && Held()
      ensures posts == old(posts) + [Post(stage, terminal, payload, answer)]
      ensures vault.sent == old(vault.sent) + [Sent(payload, answer)]
    {
      assert OpenPlace(0);
      answer := vault.Post(payload);
      TerminalsAppend(posts, Post(stage, terminal, payload, answer));
      SentAppend(sentBefore, posts, Post(stage, terminal, payload, answer));
      posts := posts + [Post(stage, terminal, payload, answer)];
    }

    /** claimTerminal; never sent after a confirmed loss. A store error lets the submission go ahead. */
    method ClaimSlotFor() returns (proceed: bool)
      requires Ready() && Held() && !lost
      modifies store, this`claims, this`crashed, this`run, this`state, api
      ensures Ready() && Held() && (old(crashed) ==> crashed)
      ensures proceed && claimsAnswered && !crashed ==> |Terminals(posts)| < WinsAmong(store.history, job, Me())
      ensures calm && !old(SlotNow()).claimed ==>
                proceed && SlotNow() == Slot(true, worker, attempt) && Stored() == old(Stored())
      ensures PS.Continues(run, old(run))
      ensures Told(run) == Told(old(run))
      ensures alone ==> Exec() == old(Exec())
    {
      PS.RunsChain();
      Interlude();
      var error := ClaimError();
      if error {
        if !crashed {
          Claiming();
        }
        return true;
      }
      proceed := SendClaim();
      var unheard := ClaimError();
      proceed := proceed || unheard;
    }

    method SendClaim() returns (proceed: bool)
      requires Ready() && Held() && !lost
      modifies store, this`claims
      ensures Ready() && Held()
      ensures proceed ==> (claimsAnswered ==> |Terminals(posts)| < WinsAmong(store.history, job, Me()))
      ensures !old(SlotNow()).claimed ==>
                proceed && SlotNow() == Slot(true, worker, attempt) && Stored() == old(Stored())
      ensures Exec() == old(Exec())
    {
      Claiming();
      var claimed, found := ClaimInStore();
      proceed := claimed || !found;
    }

    /** A claim is counted when it is sent. */
    method Claiming()
      requires Ready() && Held() && !lost
      modifies this`claims
      ensures Ready() && Held()
    {
      assert OpenPlace(0);
      claims := claims + 1;
    }

    method ClaimInStore() returns (claimed: bool, found: bool)
      requires Ready() && Held() && !lost
      modifies store
      ensures Ready() && Held() && found && Exec() == old(Exec()) && (claimed <==> !old(SlotNow()).claimed)
      ensures claimed && claimsAnswered ==> |Terminals(posts)| < WinsAmong(store.history, job, Me())
      ensures claimed ==> SlotNow() == Slot(true, worker, attempt) && Stored() == old(Stored())
    {
      assert OpenPlace(0) && OpenRun(0);
      var now: Instant := *;
      ghost var before := store.history;
      claimed, found := store.ClaimTerminal(job, worker, attempt, now);
      Quietly(before);
      if claimed {
        WonClaim(before, store.history.last);
      }
    }

    /** A claim is won at most once, so a winner has won exactly one. */
    lemma WonClaim(before: History, e: Event)
      requires Legal(Then(before, e)) && e.ClaimSlot? && e.won && e.job == job && (e.worker, e.attempt) in Me()
      ensures WinsAmong(before, job, Me()) == 0 && WinsAmong(Then(before, e), job, Me()) == 1
    {
      SlotIsWonOnce(before, job);
      WinsAmongAreWins(before, job, Me());
    }

    /** markFirstDeliveryFailure. */
    method RecordFirstFailure(payload: string, answer: Answer)
      requires Ready() && Held() && !answer.Accepted?
      modifies store, this`crashed, this`run, this`state, api
      ensures Ready() && Held() && (old(crashed) ==> crashed)
      ensures calm ==> SlotNow() == old(SlotNow())
      ensures calm && SlotNow() == Slot(true, worker, attempt) && old(Stored()).None? ==>
                Stored() == Some(Filing(payload, answer.error, if answer.RetryableError? then Pending else DeadLetter))
      ensures PS.Continues(run, old(run))
      ensures Told(run) == Told(old(run))
      ensures alone ==> Exec() == old(Exec())
    {
      PS.RunsChain();
      Interlude();
      var error := StoreError();
      if !error {
        var clock := SendFirstMark(payload, answer);
      }
    }

    /** The slot owner's mark: pending after a retryable answer, due once the backoff of the first attempt has passed
        since `clock`, and a dead letter after a permanent one. */
    method SendFirstMark(payload: string, answer: Answer) returns (clock: Instant)
      requires Ready() && Held() && !answer.Accepted?
      modifies store
      ensures Ready() && Held() && SlotNow() == old(SlotNow()) && Exec() == old(Exec())
      ensures SlotNow() == Slot(true, worker, attempt) && old(Stored()).None? ==>
                && Stored()
                   == Some(Filing(payload, answer.error, if answer.RetryableError? then Pending else DeadLetter))
                && var l := store.rows[job].ledger;
                && l.payload == payload && l.lastError == answer.error && l.attempts == 1
                && l.token == "" && l.claimedUntil.None?
                && (answer.RetryableError? ==>
                      && l.state.Pending? && l.nextAttemptAt.Some?
                      && clock + 10_000_000_000 <= l.nextAttemptAt.value <= clock + 300_000_000_000)
                && (answer.PermanentError? ==> l.state.DeadLetter? && l.nextAttemptAt.None?)
    {
      assert OpenPlace(0) && OpenRun(0);
      var now: Instant;
      now, clock := *, *;
      ghost var before := store.history;
      if answer.RetryableError? {
        var source := Jitter();
        var backoff := BackoffDuration(1, source);
        BackoffSchedule(1);
        var ok := store.MarkFirstDeliveryPending(job, worker, attempt, payload, answer.error, clock + backoff, now);
      } else {
        var ok := store.MarkFirstDeliveryDeadLetter(job, worker, attempt, payload, answer.error, now);
      }
      AfterFirstMark(before, store.history.last);
      Quietly(before);
    }

    /** submitCheckRecord, and the two submission points of runL5b: the lease is checked before the slot is
        claimed, the slot before the POST, and a failed terminal POST is recorded for redelivery. */
    method SubmitRecord(stage: Stage, terminal: bool)
      requires Ready() && Held()
      modifies store, this`lost, this`beats, this`postsAtLoss, this`claimsAtLoss, this`posts, this`claims,
        this`crashed, this`run, this`state, api, vault
      ensures beats >= old(beats)
      ensures Ready() && Held()
      ensures old(crashed) ==> crashed
      ensures old(lost) ==> lost && posts == old(posts) && claims == old(claims)
      ensures calm && !terminal ==>
                Record() == old(Record()) && Terminals(posts) == Terminals(old(posts))
      ensures calm && terminal && old(NoneYet()) ==> OneAt(stage)
      ensures !terminal && !lost && !crashed ==> Stages(posts) == Stages(old(posts)) + [(stage, false)]
      ensures calm && terminal && old(NoneYet()) ==> Stages(posts) == Stages(old(posts)) + [(stage, true)]
      ensures answered && !crashed && !old(lost) ==> beats == old(beats) + 1
      ensures PS.Continues(run, old(run))
      ensures Told(run) == Told(old(run))
      ensures alone ==> Exec() == old(Exec())
    {
      PS.RunsChain();
      var held := StillLeased();
      if held {
        if terminal {
          SubmitTerminal(stage);
        } else {
          SubmitPartial(stage);
        }
      }
    }

    method SubmitPartial(stage: Stage)
      requires Ready() && Held() && !lost
      modifies this`posts, this`crashed, this`run, this`state, api, vault
      ensures Ready() && Held() && (old(crashed) ==> crashed)
      ensures Terminals(posts) == Terminals(old(posts))
      ensures !crashed ==> Stages(posts) == Stages(old(posts)) + [(stage, false)]
      ensures PS.Continues(run, old(run))
      ensures Told(run) == Told(old(run))
    {
      var payload, answer := PostRecord(stage, false);
    }

    /** The POST of some payload, in the log. */
    method PostRecord(stage: Stage, terminal: bool) returns (payload: string, answer: Answer)
      requires Ready() && Held() && !lost
      requires terminal && claimsAnswered && !crashed ==> |Terminals(posts)| < WinsAmong(store.history, job, Me())
      modifies this`posts, this`crashed, this`run, this`state, api, vault
      ensures Ready() && Held() && (old(crashed) ==> crashed) && (crashed ==> posts == old(posts))
      ensures !crashed ==>
                && Stages(posts) == Stages(old(posts)) + [(stage, terminal)]
                && Terminals(posts)
                   == Terminals(old(posts)) + if terminal then [Post(stage, true, payload, answer)] else []
      ensures PS.Continues(run, old(run))
      ensures Told(run) == Told(old(run))
    {
      payload := *;
      answer := Submit(stage, terminal, payload);
      TerminalsAppend(old(posts), Post(stage, terminal, payload, answer));
      StagesAppend(old(posts), Post(stage, terminal, payload, answer));
    }

    method SubmitTerminal(stage: Stage)
      requires Ready() && Held() && !lost
      modifies store, this`posts, this`claims, this`crashed, this`run, this`state, api, vault
      ensures Ready() && Held() && (old(crashed) ==> crashed)
      ensures calm && old(NoneYet()) ==> OneAt(stage) && Stages(posts) == Stages(old(posts)) + [(stage, true)]
      ensures PS.Continues(run, old(run))
      ensures Told(run) == Told(old(run))
      ensures alone ==> Exec() == old(Exec())
    {
      PS.RunsChain();
      var proceed := ClaimSlotFor();
      if proceed {
        PostTerminal(stage);
      }
    }

    /** The POST of a winner of the slot, and the record of its failure. */
    method PostTerminal(stage: Stage)
      requires Ready() && Held() && !lost
      requires claimsAnswered && !crashed ==> |Terminals(posts)| < WinsAmong(store.history, job, Me())
      modifies store, this`posts, this`crashed, this`run, this`state, api, vault
      ensures Ready() && Held() && (old(crashed) ==> crashed)
      ensures calm && old(Record()) == (Slot(true, worker, attempt), None) && Terminals(old(posts)) == [] ==>
                OneAt(stage) && Stages(posts) == Stages(old(posts)) + [(stage, true)]
      ensures PS.Continues(run, old(run))
      ensures Told(run) == Told(old(run))
      ensures alone ==> Exec() == old(Exec())
    {
      PS.RunsChain();
      var payload, answer := PostRecord(stage, true);
      if !answer.Accepted? {
        RecordFirstFailure(payload, answer);
      }
    }

    // ---------- outcomes ----------

    /** The tail every failing stage shares: decideRetry, reportTerminalFailure, FailJob. A record of the stage is
        always sent if there is a vault client: a terminal one exactly if the job is not requeued. */
    method FailAt(stage: Stage, kind: FailureClass, reason: string) returns (ending: Ending)
      requires Ready() && Held() && (pc.Failing? || pc.Idle?)
      modifies store, this`lost, this`beats, this`postsAtLoss, this`claimsAtLoss, this`posts, this`claims, this`pc,
        this`crashed, this`run, this`state, api, vault
      ensures Ready() && (lost ==> ending.Stopped?) && pc.Idle? && (alone ==> !lost) && (old(crashed) ==> crashed)
      ensures old(lost) ==> lost && posts == old(posts) && claims == old(claims)
      ensures !vaultClient ==> posts == old(posts) && claims == old(claims)
      ensures vaultClient && Requeued(kind, attempt, lastError, maxAttempts) && !lost && !crashed ==>
                Stages(posts) == Stages(old(posts)) + [(stage, false)]
      ensures calm ==> StatusFits(ending)
      ensures calm ==>
                ending == if Requeued(kind, attempt, lastError, maxAttempts) then RequeuedAt(stage) else FailedAt(stage)
      ensures calm && vaultClient && old(NoneYet()) ==>
                && RecordFits(ending)
                && Stages(posts) == Stages(old(posts)) + [(stage, ending.FailedAt?)]
      ensures PS.Continues(run, old(run))
      ensures Told(run) == Told(old(run))
      ensures alone ==> Exec() == old(Exec())
    {
      PS.RunsChain();
      var decision, delay := Decide(kind, reason);
      if vaultClient {
        SubmitRecord(stage, !decision.retry);
      }
      var ok := SendFailure(decision, kind, reason, delay);
      ending := if !ok then Stopped else if decision.retry then RequeuedAt(stage) else FailedAt(stage);
    }

    /** decideRetry, with the delay drawn by retryDelay. */
    method Decide(kind: FailureClass, reason: string) returns (decision: Decision, delay: Duration)
      ensures decision == DecideRetry(kind, attempt, lastError, reason, maxAttempts, delay)
      ensures decision.retry <==> Requeued(kind, attempt, lastError, maxAttempts)
      ensures Cap(attempt) / 2 <= delay <= Cap(attempt)
    {
      var source := Jitter();
      delay := RetryDelay(attempt, source);
      decision := DecideRetry(kind, attempt, lastError, reason, maxAttempts, delay);
      DecideRetryPolicy(kind, attempt, lastError, reason, maxAttempts, delay);
    }

    /** The FailJob call; false when the store refused it or failed. */
    method SendFailure(decision: Decision, ghost kind: FailureClass, ghost reason: string, ghost delay: Duration)
      returns (ok: bool)
      requires Ready() && Held() && (pc.Failing? || pc.Idle?)
      requires decision == DecideRetry(kind, attempt, lastError, reason, maxAttempts, delay)
      requires Cap(attempt) / 2 <= delay <= Cap(attempt)
      modifies store, this`pc, this`crashed, this`run, this`state, api
      ensures Ready() && pc.Idle? && (lost ==> !ok)
      ensures calm ==>
                && ok && job in store.rows && Record() == old(Record())
                && store.rows[job].lease.status == if decision.retry then Queued else Failed
      ensures PS.Continues(run, old(run))
      ensures Told(run) == Told(old(run))
      ensures alone ==> Exec() == old(Exec())
      ensures old(crashed) ==> crashed
    {
      PS.RunsChain();
      Interlude();
      ok := false;
      ghost var final := false;
      var error := StoreError();
      if !error {
        ok := CallFailJob(decision, kind, reason, delay);
        final := ok && !decision.retry;
        var unheard := StoreError();
        ok := ok && !unheard;
      }
      if pc.Failing? {
        Finish(final);
      }
    }

    method CallFailJob(decision: Decision, ghost kind: FailureClass, ghost reason: string, ghost delay: Duration)
      returns (ok: bool)
      requires Ready() && Held() && decision == DecideRetry(kind, attempt, lastError, reason, maxAttempts, delay)
      requires Cap(attempt) / 2 <= delay <= Cap(attempt)
      modifies store
      ensures Ready() && Record() == old(Record()) && (lost ==> !ok) && (alone ==> ok)
      ensures ok ==> store.rows[job].lease.status == if decision.retry then Queued else Failed
      ensures Exec() == old(Exec())
    {
      assert OpenPlace(0) && OpenRun(0);
      var now: Instant := *;
      ghost var before := store.history;
      ok := store.FailJob(job, worker, attempt, decision.reason, decision.retry, decision.delay, now, decision.kind);
      OwnFailureFollowsPolicy(before, store.history.last, lastError, maxAttempts, reason, delay);
      OwnOutcome(before);
    }

    /** The attempt's own outcome keeps what ties it to the history and to the machine. */
    lemma OwnOutcome(before: History)
      requires store.Valid() && store.history.Then? && store.history.prev == before
      requires var e := store.history.last;
               (e.Fail? || e.Complete?) && e.job == job && e.worker == worker && e.attempt == attempt
      requires OnCourse(before, job, worker, attempt, lastError, maxAttempts)
      requires WorkerPolicy(store.history, job, maxAttempts)
      ensures job in After(before) && job in store.rows
      ensures OnCourse(store.history, job, worker, attempt, lastError, maxAttempts)
      ensures store.rows[job].execution == After(before)[job].execution
      ensures store.rows[job].slot == After(before)[job].slot
      ensures Filed(store.history, job) == Filed(before, job)
      ensures Minted(store.history, job) == Minted(before, job)
      ensures WinsAmong(store.history, job, Me()) == WinsAmong(before, job, Me())
      ensures var e, r, q := store.history.last, After(before)[job], store.rows[job];
        && (e.ok <==> Holds(r, worker, attempt)) && (Dead(r, worker, attempt) ==> !e.ok) && (!e.ok ==> q == r)
        && (e.ok ==> q.lease.status == if e.Complete? then Succeeded else if e.retryable then Queued else Failed)
    {
      var e := store.history.last;
      AfterLeaseReport(before, e, worker, attempt);
      OutcomeStep(before, e, job, Me());
      StaysOnCourse(store.history, before, job, worker, attempt, lastError, maxAttempts);
    }

    /** The CompleteJob call; false when the store refused it or failed. */
    method SendCompletion() returns (ok: bool)
      requires Ready() && Held() && pc.Completing?
      modifies store, this`pc, this`crashed, this`run, this`state, api
      ensures Ready() && pc.Idle? && (lost ==> !ok)
      ensures calm ==> ok && job in store.rows && Record() == old(Record()) && SucceededNow()
      ensures PS.Continues(run, old(run))
      ensures Told(run) == Told(old(run))
      ensures alone ==> Exec() == old(Exec())
      ensures old(crashed) ==> crashed
    {
      PS.RunsChain();
      Interlude();
      ok := false;
      ghost var final := false;
      var error := StoreError();
      if !error {
        ok := CallCompleteJob();
        final := ok;
        var unheard := StoreError();
        ok := ok && !unheard;
      }
      Finish(final);
    }

    method CallCompleteJob() returns (ok: bool)
      requires Ready() && Held()
      modifies store
      ensures Ready() && Record() == old(Record()) && (lost ==> !ok) && (alone ==> ok)
      ensures ok ==> SucceededNow()
      ensures Exec() == old(Exec())
    {
      assert OpenPlace(0) && OpenRun(0);
      var now: Instant, summary: string := *, *;
      ghost var before := store.history;
      ok := store.CompleteJob(job, worker, attempt, summary, now);
      OwnOutcome(before);
    }

    /** The end of the attempt in the machine. */
    ghost method Finish(final: bool)
      requires Ready() && (pc.Failing? || pc.Completing?)
      requires final ==> Finished(store.rows[job])
      modifies this`pc, this`run, this`state
      ensures Ready() && pc.Idle?
      ensures run == if crashed then old(run) else P.Then(old(run), P.Outcome(final))
      ensures PS.Continues(run, old(run))
      ensures Told(run) == Told(old(run))
    {
      WithoutStore(P.Outcome(final));
    }

    ghost method Put(pc': P.Pc, run': P.Run, state': P.State)
      modifies this`pc, this`run, this`state
      ensures pc == pc' && run == run' && state == state'
    {
      pc, run, state := pc', run', state';
    }

    /** A step without a store call, or one whose store call met an error. */
    ghost method WithoutStore(a: P.Action)
      requires Ready() && P.Expects(pc, a)
      requires a == P.Ensure("", false, false) || a == P.Report(false) || a.Outcome?
      requires a.Outcome? && a.final ==> Finished(store.rows[job])
      modifies this`pc, this`run, this`state
      ensures Ready() && pc == P.Advance(old(pc), a, None, {})
      ensures run == if crashed then old(run) else P.Then(old(run), a)
      ensures PS.Continues(run, old(run))
    {
      assert OpenRun(0);
      var t := state;
      if alone && !crashed {
        t := TrackWithoutStore(l5aFollows, run, state, api.record, a);
      }
      Put(P.Advance(pc, a, None, {}), if crashed then run else P.Then(run, a), t);
    }

    /** What the ending says about the job's status. */
    ghost predicate StatusFits(ending: Ending)
      reads store
    {
      && job in store.rows
      && match ending
         case RequeuedAt(_) => store.rows[job].lease.status.Queued?
         case FailedAt(stage) => store.rows[job].lease.status.Failed?
         case Completed => store.rows[job].lease.status.Succeeded?
         case Stopped => false
    }

    /** And about its terminal record. */
    ghost predicate RecordFits(ending: Ending)
      reads store, this`posts
    {
      match ending
      case RequeuedAt(_) => NoneYet()
      case FailedAt(stage) => OneAt(stage)
      case Completed => exists stage :: OneAt(stage)
      case Stopped => false
    }

    // ---------- cluster calls ----------

    /** The attempt takes a step that leaves the row and the Jobs alone. A dead process takes none, whatever its remains
        go on computing. */
    ghost method Moved(a: P.Action)
      requires Ready() && Held() && P.Expects(pc, a) && !a.Ensure? && !a.Report? && !a.Outcome? && !Served(a)
      requires alone && !crashed ==> P.Can(P.ALL_HYPOTHESES, l5aFollows, state, a)
      modifies this`pc, this`run, this`state
      ensures Ready() && Held() && pc == P.Advance(old(pc), a, None, {})
      ensures run == if crashed then old(run) else P.Then(old(run), a)
      ensures PS.Continues(run, old(run))
    {
      assert OpenRun(0);
      var t := state;
      if alone && !crashed {
        t := TrackMove(l5aFollows, run, state, api.record, a, {});
      }
      Put(P.Advance(pc, a, None, {}), if crashed then run else P.Then(run, a), t);
    }

    /** A step that depends on nothing outside the process. */
    ghost method Went(a: P.Action)
      requires Ready() && Held() && P.Expects(pc, a) && (a.ContextDone? || a.EndL4? || a.GiveUp?)
      modifies this`pc, this`run, this`state
      ensures Ready() && Held() && pc == P.Advance(old(pc), a, None, {})
      ensures run == if crashed then old(run) else P.Then(old(run), a)
      ensures PS.Continues(run, old(run))
      ensures Told(run) == Told(old(run))
    {
      assert OpenRun(0);
      Moved(a);
    }

    /** The next legacy Job of the list, as long as the row has no identity. */
    ghost method Chose(name: P.Name, ok: bool)
      requires Ready() && Held() && pc.Retiring? && name in pc.todo && (ok ==> store.rows[job].execution.id == "")
      modifies this`pc, this`run, this`state
      ensures Ready() && Held()
      ensures pc == if ok then P.Deleting(old(pc).follows, old(pc).todo - {name}, name) else P.Failing
      ensures run == if crashed then old(run) else P.Then(old(run), P.NextLegacy(name, ok))
      ensures PS.Continues(run, old(run))
    {
      assert OpenRun(0);
      Moved(P.NextLegacy(name, ok));
    }

    /** Nothing of older workers is left. */
    ghost method ListEnds()
      requires Ready() && Held() && (pc == P.Retiring(l5aFollows, {}) || pc == P.Leased(l5aFollows))
      requires alone && pc.Leased? ==> store.rows[job].execution.id != ""
      modifies this`pc, this`run, this`state
      ensures Ready() && Held() && pc == P.Identify(l5aFollows)
      ensures run == if crashed then old(run) else P.Then(old(run), P.ListDone)
      ensures PS.Continues(run, old(run))
    {
      assert OpenRun(0);
      Moved(P.ListDone);
    }

    /** process begins. */
    ghost method Begins()
      requires Ready() && Held() && pc.Idle?
      modifies this`pc, this`run, this`state
      ensures Ready() && Held() && pc == P.Leased(l5aFollows)
      ensures run == if crashed then old(run) else P.Then(old(run), P.Lease(l5aFollows))
      ensures PS.Continues(run, old(run))
    {
      assert OpenRun(0);
      Moved(P.Lease(l5aFollows));
    }

    /** What the polls for a deleted Job came to. */
    ghost method Answered(a: P.Action, n: P.Name)
      requires Ready() && Held() && P.Expects(pc, a) && P.Subject(pc) == Some(n) && a.Gone?
      requires !crashed && a.ok ==> n !in api.jobs
      modifies this`pc, this`run, this`state
      ensures Ready() && Held() && pc == P.Advance(old(pc), a, None, {})
      ensures run == if crashed then old(run) else P.Then(old(run), a)
      ensures PS.Continues(run, old(run))
    {
      assert OpenRun(0);
      Moved(a);
    }

    method Get(n: P.Name) returns (got: P.GetAnswer)
      requires Ready() && Held() && P.Expects(pc, P.Get(P.NotFound)) && P.Subject(pc) == Some(n)
      modifies this`pc, this`crashed, this`run, this`state, api
      ensures Ready() && Held() && (old(crashed) ==> crashed)
      ensures pc == P.AfterGet(old(pc), got)
      ensures !crashed ==> run.Then? && run.a == P.Get(got) && Gets(run) > Gets(old(run))
      ensures Creates(run) == Creates(old(run))
      ensures PS.Continues(run, old(run))
    {
      PS.RunsChain();
      Tick();
      GetsGrow(run, old(run));
      if crashed {
        got := P.GetError;
        Unheard(P.Get(got));
      } else {
        got := CallGet(n);
      }
    }

    method CallGet(n: P.Name) returns (got: P.GetAnswer)
      requires Ready() && Held() && !crashed && P.Expects(pc, P.Get(P.NotFound)) && P.Subject(pc) == Some(n)
      modifies this`pc, this`run, this`state, api`record
      ensures Ready() && Held() && pc == P.AfterGet(old(pc), got) && P.GetPossible(api.jobs, n, got)
      ensures run == P.Then(old(run), P.Get(got))
      ensures PS.Continues(run, old(run))
    {
      assert OpenRun(0);
      ghost var record := api.record;
      got := api.Get(n);
      ghost var t := state;
      if alone {
        t := TrackMove(l5aFollows, run, state, record, P.Get(got), {});
      }
      Put(P.AfterGet(pc, got), P.Then(run, P.Get(got)), t);
    }

    method Create(n: P.Name) returns (answer: P.CreateAnswer)
      requires Ready() && Held() && P.Expects(pc, P.Create(P.Created)) && P.Subject(pc) == Some(n)
      modifies this`pc, this`crashed, this`run, this`state, api
      ensures Ready() && Held() && (old(crashed) ==> crashed)
      ensures pc == P.AfterCreateAnswer(old(pc), answer)
      ensures !crashed ==> run.Then? && run.a == P.Create(answer) && Creates(run) == Creates(old(run)) + 1
      ensures crashed ==> Creates(run) == Creates(old(run))
      ensures PS.Continues(run, old(run))
    {
      PS.RunsChain();
      Tick();
      if crashed {
        answer := P.Ambiguous(false);
        Unheard(P.Create(answer));
      } else {
        answer := CallCreate(n);
      }
    }

    /** The Create takes effect, and the machine takes its step. */
    method CallCreate(n: P.Name) returns (answer: P.CreateAnswer)
      requires Ready() && Held() && !crashed && P.Expects(pc, P.Create(P.Created)) && P.Subject(pc) == Some(n)
      modifies this`pc, this`run, this`state, api
      ensures Ready() && Held() && pc == P.AfterCreateAnswer(old(pc), answer)
      ensures run == P.Then(old(run), P.Create(answer))
      ensures PS.Continues(run, old(run))
    {
      assert OpenRun(0);
      ghost var record := api.record;
      answer := api.Create(n);
      ghost var t := state;
      if alone {
        t := TrackCreate(l5aFollows, run, state, record, n, answer);
      }
      Put(P.AfterCreateAnswer(pc, answer), P.Then(run, P.Create(answer)), t);
    }

    /** A dead process sends nothing. */
    ghost method Unheard(a: P.Action)
      requires Ready() && Held() && crashed && P.Expects(pc, a) && (a.Get? || a.Create? || a.DryRunAnswer? || a.List?)
      modifies this`pc
      ensures Ready() && Held() && pc == P.Advance(old(pc), a, None, {})
    {
      assert OpenRun(0);
      pc := P.Advance(pc, a, None, {});
    }

    /** A foreground delete, then polling until the Job is seen gone or the wait is over. */
    method DeleteAndConfirmGone(n: P.Name) returns (gone: bool)
      requires Ready() && Held() && P.Expects(pc, P.Gone(true)) && P.Subject(pc) == Some(n)
      modifies this`pc, this`crashed, this`run, this`state, api
      ensures Ready() && Held() && (old(crashed) ==> crashed)
      ensures pc == P.AfterGone(old(pc), gone)
      ensures gone ==> !crashed && n !in api.jobs
      ensures !crashed ==> run.Then? && run.a == P.Gone(gone)
      ensures !crashed ==> Asked(old(api.deletions), old(api.polls), api.deletions, api.polls)
      ensures !crashed ==> gone == Confirmed(old(api.deletions), old(api.polls), api.deletions, api.polls)
      ensures Creates(run) == Creates(old(run))
      ensures PS.Continues(run, old(run))
    {
      PS.RunsChain();
      gone := false;
      Tick();
      if !crashed {
        gone := DeleteAndPoll(n);
      }
      Answered(P.Gone(gone), n);
    }

    /** One deletion was requested, and if it was accepted, every poll that fits into the wait was made unless one saw
        the Job gone. */
    predicate Asked(d: seq<bool>, q: seq<bool>, d': seq<bool>, q': seq<bool>) {
      |d'| == |d| + 1 && (d'[|d|] ==> |q'| > |q| && (q'[|q'| - 1] || |q'| == |q| + 1 + around.polls))
    }

    /** The deletion was accepted, polled for at least once, and exactly the last poll saw the Job gone; or else it was
        not confirmed: refused, or no poll saw it. */
    static predicate Confirmed(d: seq<bool>, q: seq<bool>, d': seq<bool>, q': seq<bool>) {
      && |d'| == |d| + 1 && |q'| >= |q| && d'[|d|]
      && |q'| > |q| && q'[|q'| - 1]
    }

    method DeleteAndPoll(n: P.Name) returns (gone: bool)
      requires Ready() && Held() && !crashed
      modifies this`crashed, this`run, this`state, api
      ensures Ready() && Held() && (old(crashed) ==> crashed)
      ensures gone ==> !crashed && n !in api.jobs
      ensures !crashed ==> gone == Confirmed(old(api.deletions), old(api.polls), api.deletions, api.polls)
      ensures !crashed ==> Asked(old(api.deletions), old(api.polls), api.deletions, api.polls)
      ensures !crashed && !gone ==> forall i :: |old(api.polls)| <= i < |api.polls| ==> !api.polls[i]
      ensures Creates(run) == Creates(old(run))
      ensures PS.Continues(run, old(run))
      ensures Told(run) == Told(old(run))
    {
      PS.RunsChain();
      gone := false;
      var accepted := Ask(n);
      if !accepted {
        return;
      }
      gone := SeenGone(n);
      var more: nat := around.polls;
      while more > 0 && !gone && !crashed
        invariant Ready() && Held() && (old(crashed) ==> crashed)
        invariant PS.Continues(run, old(run))
        invariant gone ==> !crashed && n !in api.jobs
        invariant Creates(run) == Creates(old(run))
        invariant api.deletions == old(api.deletions) + [true] && Told(run) == Told(old(run))
        invariant more <= around.polls && (!crashed ==> |api.polls| == |old(api.polls)| + 1 + around.polls - more)
        invariant !crashed ==> api.polls[|api.polls| - 1] == gone
        invariant !crashed && !gone ==> forall i :: |old(api.polls)| <= i < |api.polls| ==> !api.polls[i]
      {
        more := more - 1;
        gone := SeenGone(n);
      }
    }

    method Ask(n: P.Name) returns (accepted: bool)
      requires Ready() && Held() && !crashed
      modifies api`deletions
      ensures Ready() && Held() && api.deletions == old(api.deletions) + [accepted]
    {
      assert OpenRun(0);
      accepted := api.Delete(n);
    }

    /** One poll of a deletion. */
    method SeenGone(n: P.Name) returns (gone: bool)
      requires Ready() && Held()
      modifies this`crashed, this`run, this`state, api
      ensures Ready() && Held() && (old(crashed) ==> crashed)
      ensures gone ==> !crashed && n !in api.jobs
      ensures api.deletions == old(api.deletions)
      ensures !crashed ==> api.polls == old(api.polls) + [gone]
      ensures Creates(run) == Creates(old(run))
      ensures PS.Continues(run, old(run))
      ensures Told(run) == Told(old(run))
    {
      PS.RunsChain();
      Tick();
      if crashed {
        return false;
      }
      gone := Poll(n);
    }

    method Poll(n: P.Name) returns (gone: bool)
      requires Ready() && Held() && !crashed
      modifies api`polls
      ensures Ready() && Held() && (gone ==> n !in api.jobs) && api.polls == old(api.polls) + [gone]
    {
      assert OpenRun(0);
      gone := api.Absent(n);
    }

    /** markExecutionTerminal: a store failure is only logged. */
    method MarkTerminal()
      requires Ready() && Held() && pc.Release? && pc.x == executionId
      modifies store, this`pc, this`crashed, this`run, this`state, api
      ensures Ready() && Held() && (old(crashed) ==> crashed)
      ensures calm ==> Record() == old(Record())
      ensures old(Under(false)) ==> Under(true)
      ensures pc == old(pc).next
      ensures PS.Continues(run, old(run))
      ensures Told(run) == Told(old(run))
    {
      PS.RunsChain();
      Interlude();
      var error := StoreError();
      if error {
        Unreported();
      } else {
        CallMarkTerminal();
      }
    }

    method CallMarkTerminal()
      requires Ready() && Held() && !crashed && pc.Release? && pc.x == executionId
      modifies store, this`pc, this`run, this`state, api
      ensures Ready() && Held() && pc == old(pc).next && Record() == old(Record())
      ensures executionId != "" && old(Exec()).id == executionId ==> Exec() == Execution(executionId, true)
      ensures Told(run) == Told(old(run))
      ensures PS.Continues(run, old(run))
    {
      PS.RunsChain();
      ReportInStore();
      CatchUp(P.Report(true), None);
    }

    method ReportInStore()
      requires Ready() && Held() && !crashed && pc.Release? && pc.x == executionId
      modifies store
      ensures Due(P.Report(true)) && Held() && Record() == old(Record())
      ensures executionId != "" && old(Exec()).id == executionId ==> Exec() == Execution(executionId, true)
    {
      assert OpenPlace(0) && OpenRun(0);
      var now: Instant := *;
      ghost var before := store.history;
      var report := store.MarkExecutionTerminal(job, executionId, now);
      Reported(before);
    }

    /** The machine takes the step the store has made. */
    ghost method CatchUp(a: P.Action, live: Option<P.Id>)
      requires Due(a) && Held() && !crashed && P.Expects(pc, a) && (a.Ensure? || a.Report?)
      requires alone && a.Ensure? && a.ok ==> live == P.Live(state)
      modifies this`pc, this`run, this`state
      ensures Ready() && Held() && pc == P.Advance(old(pc), a, live, {})
      ensures run == P.Then(old(run), a)
      ensures PS.Continues(run, old(run))
    {
      assert OpenRun(0);
      var t := state;
      if alone {
        t := CaughtUp(a, live);
      }
      Put(P.Advance(pc, a, live, {}), P.Then(run, a), t);
    }

    lemma CaughtUp(a: P.Action, live: Option<P.Id>) returns (t: P.State)
      requires Behind(a) && P.Expects(pc, a) && (a.Ensure? || a.Report?)
      requires a.Ensure? && a.ok ==> live == P.Live(state)
      ensures Tracked(l5aFollows, P.Then(run, a), t, api.record) && t.jobs == api.jobs
      ensures t.pc == P.Advance(pc, a, live, {}) && Matches(t, store.rows[job], Minted(store.history, job))
    {
      TrackStep(l5aFollows, run, state, api.record, a);
      t := P.Step(P.ALL_HYPOTHESES, l5aFollows, state, a);
    }

    ghost method Unreported()
      requires Ready() && Held() && pc.Release?
      modifies this`pc, this`run, this`state
      ensures Ready() && Held() && pc == old(pc).next
      ensures run == if crashed then old(run) else P.Then(old(run), P.Report(false))
      ensures PS.Continues(run, old(run))
      ensures Told(run) == Told(old(run))
    {
      WithoutStore(P.Report(false));
    }

    lemma Reported(before: History)
      requires store.Valid() && store.history.Then? && store.history.prev == before
      requires store.history.last.ReportTerminal?
      requires store.history.last.job == job && store.history.last.id == executionId && job in After(before)
      requires OnCourse(before, job, worker, attempt, lastError, maxAttempts)
      ensures job in store.rows && OnCourse(store.history, job, worker, attempt, lastError, maxAttempts)
      ensures store.rows[job].lease == After(before)[job].lease && store.rows[job].slot == After(before)[job].slot
      ensures Filed(store.history, job) == Filed(before, job)
      ensures WinsAmong(store.history, job, Me()) == WinsAmong(before, job, Me())
      ensures executionId != "" && After(before)[job].execution.id == executionId ==>
                store.rows[job].execution == Execution(executionId, true)
      ensures Matches(state, After(before)[job], Minted(before, job)) && state.pc.Release? && state.pc.x == executionId
              ==> Matches(P.Step(P.ALL_HYPOTHESES, l5aFollows, state, P.Report(true)),
                          store.rows[job], Minted(store.history, job))
    {
      DeliveryAndLeaseAreIndependent(before, store.history.last, job);
      StaysOnCourse(store.history, before, job, worker, attempt, lastError, maxAttempts);
      if Matches(state, After(before)[job], Minted(before, job)) && state.pc.Release? && state.pc.x == executionId {
        ReportMatches(before, store.history.last, state, l5aFollows);
      }
    }

    // ---------- legacy Jobs ----------

    static function LegacyIn(items: seq<P.Name>): set<P.Name> {
      set n | n in items && n.Legacy?
    }

    /** The List call. */
    method ListJobs() returns (ok: bool, items: seq<P.Name>)
      requires Ready() && Held() && pc.Leased? && (alone ==> store.rows[job].execution.id == "")
      modifies this`pc, this`crashed, this`run, this`state, api
      ensures Ready() && Held() && (old(crashed) ==> crashed) && Distinct(items)
      ensures pc == if ok then P.Retiring(old(pc).follows, LegacyIn(items)) else P.Failing
      ensures ok ==> LegacyIn(items) == P.LegacyJobs(api.jobs)
      ensures !crashed ==> Told(run) == Some(P.List(ok))
      ensures PS.Continues(run, old(run))
    {
      PS.RunsChain();
      Tick();
      if crashed {
        ok, items := false, [];
        Unheard(P.List(false));
      } else {
        ok, items := CallList();
      }
    }

    method CallList() returns (ok: bool, items: seq<P.Name>)
      requires Ready() && Held() && !crashed && pc.Leased? && (alone ==> store.rows[job].execution.id == "")
      modifies this`pc, this`run, this`state, api`record
      ensures Ready() && Held() && Distinct(items)
      ensures pc == if ok then P.Retiring(old(pc).follows, LegacyIn(items)) else P.Failing
      ensures ok ==> LegacyIn(items) == P.LegacyJobs(api.jobs)
      ensures run == P.Then(old(run), P.List(ok))
      ensures PS.Continues(run, old(run))
    {
      assert OpenRun(0);
      ghost var record := api.record;
      ok, items := api.List();
      ghost var t := state;
      if alone {
        t := TrackMove(l5aFollows, run, state, record, P.List(ok), LegacyIn(items));
      }
      Put(P.Advance(pc, P.List(ok), None, LegacyIn(items)), P.Then(run, P.List(ok)), t);
    }

    /** The re-read before each delete: the row still has no identity. */
    method StillUnidentified() returns (ok: bool)
      requires Ready() && Held()
      modifies store, this`crashed, this`run, this`state, api
      ensures Ready() && Held() && (old(crashed) ==> crashed)
      ensures calm ==> Record() == old(Record())
      ensures ok ==> job in store.rows && store.rows[job].execution.id == ""
      ensures PS.Continues(run, old(run))
      ensures Told(run) == Told(old(run))
      ensures alone ==> Exec() == old(Exec())
    {
      PS.RunsChain();
      assert OpenPlace(0);
      Interlude();
      var readError := StoreError();
      if readError {
        return false;
      }
      var row := store.GetJob(job);
      ok := row.Some? && row.value.execution.id == "";
    }

    /** retireLegacyExecutions: every listed Job with a legacy name is deleted and confirmed gone, as long as
        the stored identity is still empty and the lease is held. */
    method RetireLegacy() returns (ok: bool)
      requires Ready() && Held() && !lost && pc.Leased? && (alone ==> store.rows[job].execution.id == "")
      modifies store, this`lost, this`beats, this`postsAtLoss, this`claimsAtLoss, this`pc, this`crashed, this`run,
        this`state, api
      ensures Ready() && Held() && (old(lost) ==> lost) && (old(crashed) ==> crashed)
      ensures calm ==> Record() == old(Record())
      ensures ok ==> !lost && pc == P.Retiring(old(pc).follows, {})
      ensures !ok && !lost ==> pc == P.Failing && (!crashed ==> Heard(NotRetired, Told(run)))
      ensures PS.Continues(run, old(run))
      ensures alone ==> Exec() == old(Exec())
    {
      PS.RunsChain();
      var listed, items := ListJobs();
      if !listed {
        return false;
      }
      for i := 0 to |items|
        invariant Ready() && Held() && !lost && (old(crashed) ==> crashed)
        invariant PS.Continues(run, old(run))
        invariant calm ==> Record() == old(Record())
        invariant pc == P.Retiring(old(pc).follows, LegacyIn(items[i..]))
        invariant alone ==> Exec() == old(Exec())
      {
        LegacyAfter(items, i);
        if items[i].Legacy? {
          var retired := RetireOne(items[i]);
          if !retired {
            return false;
          }
        }
      }
      ok := true;
    }

    static lemma LegacyAfter(items: seq<P.Name>, i: nat)
      requires Distinct(items) && i < |items|
      ensures LegacyIn(items[i..]) - {items[i]} == LegacyIn(items[i + 1..])
      ensures items[i].Legacy? <==> items[i] in LegacyIn(items[i..])
    {
      var rest := items[i + 1..];
      assert items[i..] == [items[i]] + rest;
      assert items[i] !in rest by {
        assert forall k :: 0 <= k < |rest| ==> rest[k] == items[i + 1 + k];
      }
    }

    method RetireOne(name: P.Name) returns (ok: bool)
      requires Ready() && Held() && pc.Retiring? && name in pc.todo
      modifies store, this`lost, this`beats, this`postsAtLoss, this`claimsAtLoss, this`pc, this`crashed, this`run,
        this`state, api
      ensures Ready() && Held() && (old(lost) ==> lost) && (old(crashed) ==> crashed)
      ensures calm ==> Record() == old(Record())
      ensures ok ==> !lost && pc == P.Retiring(old(pc).follows, old(pc).todo - {name})
      ensures !ok && !lost ==> pc == P.Failing && (!crashed ==> Heard(NotRetired, Told(run)))
      ensures PS.Continues(run, old(run))
      ensures alone ==> Exec() == old(Exec())
    {
      PS.RunsChain();
      ok := StillUnidentified();
      Chose(name, ok);
      if !ok {
        return;
      }
      ok := RetireNow(name);
    }

    method RetireNow(name: P.Name) returns (ok: bool)
      requires Ready() && Held() && pc.Deleting? && pc.n == name
      modifies store, this`lost, this`beats, this`postsAtLoss, this`claimsAtLoss, this`pc, this`crashed, this`run,
        this`state, api
      ensures Ready() && Held() && (old(lost) ==> lost) && (old(crashed) ==> crashed)
      ensures calm ==> Record() == old(Record())
      ensures ok ==> !lost && pc == P.Retiring(old(pc).follows, old(pc).todo)
      ensures !ok && !lost ==> pc == P.Failing && (!crashed ==> Heard(NotRetired, Told(run)))
      ensures PS.Continues(run, old(run))
      ensures alone ==> Exec() == old(Exec())
    {
      PS.RunsChain();
      ok := DeleteAndConfirmGone(name);
      if ok {
        ok := StillLeased();
      }
    }

    // ---------- L4 ----------

    /** What a finished L4 says. In a calm run the identity is released exactly if the finding says so, and it is kept
        after a success only for L5-a. */
    ghost predicate Concluded(r: Result, follows: bool)
      reads store, this`executionId, this`crashed, this`run
    {
      match r
      case Success => Under(!follows) && (!crashed ==> Heard(Finding.JobSucceeded, Told(run)))
      case Failure(f, kind, _) =>
        !f.JobSucceeded? && kind == ClassOf(f, around) && Under(L4Releases(f)) && (!crashed ==> Heard(f, Told(run)))
    }

    /** createSmokeJob: None when a Job now exists under the name. */
    method CreateSmokeJob(releaseOnReject: bool) returns (outcome: Option<Result>)
      requires Ready() && Held() && pc.CreateSmoke? && pc.minted == releaseOnReject && pc.x == executionId
      requires Under(false)
      modifies store, this`pc, this`crashed, this`run, this`state, api
      ensures Ready() && Held() && (old(lost) ==> lost) && (old(crashed) ==> crashed)
      ensures calm ==> Record() == old(Record())
      ensures outcome.None? ==> Under(false) && pc == P.PollSmoke(old(pc).follows, old(pc).x, true)
      ensures outcome.Some? ==> outcome.value.Failure? && pc == P.Failing && Concluded(outcome.value, false)
      ensures outcome.Some? ==>
                && outcome.value.kind.TransientInfra?
                && (outcome.value.finding == Rejected(releaseOnReject) || outcome.value.finding == NeverSettled)
      ensures !(releaseOnReject && outcome.Some?) ==> store.history == old(store.history)
      ensures PS.Continues(run, old(run))
    {
      PS.RunsChain();
      var answer := Create(P.Smoke(executionId));
      match answer
      case AlreadyExists => outcome := None;
      case Created => outcome := None;
      case Rejected => outcome := SmokeJobRejected(releaseOnReject);
      case Ambiguous(_) => outcome := LookUpSmokeJob();
    }

    /** Nothing was created. Only an identity under which nothing can have been created before is released. */
    method SmokeJobRejected(releaseOnReject: bool) returns (outcome: Option<Result>)
      requires Ready() && Held() && Under(false) && (!crashed ==> Told(run) == Some(P.Create(P.Rejected)))
      requires if releaseOnReject then pc == P.Release(executionId, P.Failing) else pc == P.Failing
      modifies store, this`pc, this`crashed, this`run, this`state, api
      ensures Ready() && Held() && (old(crashed) ==> crashed)
      ensures calm ==> Record() == old(Record())
      ensures outcome.Some? && outcome.value.Failure? && pc == P.Failing && Concluded(outcome.value, false)
      ensures outcome.value.kind.TransientInfra? && outcome.value.finding == Rejected(releaseOnReject)
      ensures !releaseOnReject ==> store.history == old(store.history)
      ensures PS.Continues(run, old(run))
    {
      if releaseOnReject {
        MarkTerminal();
      }
      outcome := Some(Failure(Finding.Rejected(releaseOnReject), TransientInfra, "create smoke-run Job"));
    }

    /** After a Create of unknown outcome. */
    method LookUpSmokeJob() returns (outcome: Option<Result>)
      requires Ready() && Held() && Under(false) && pc.LookupSmoke? && pc.x == executionId
      modifies this`pc, this`crashed, this`run, this`state, api
      ensures Ready() && Held() && (old(crashed) ==> crashed)
      ensures outcome.None? ==> pc == P.PollSmoke(old(pc).follows, executionId, true)
      ensures outcome.Some? ==> outcome.value.Failure? && pc == P.Failing && Concluded(outcome.value, false)
      ensures outcome.Some? ==> outcome.value.kind.TransientInfra? && outcome.value.finding.NeverSettled?
      ensures PS.Continues(run, old(run))
    {
      var got := Get(P.Smoke(executionId));
      outcome := None;
      if got.GetError? || got.NotFound? {
        outcome := Some(Failure(NeverSettled, TransientInfra, "create smoke-run Job (outcome unknown)"));
      }
    }

    /** One poll tick of runSmokeRun: the API server's answer, what it came to, and whether a Job is now known to have
        been persisted. */
    method PollSmokeJob(follows: bool, confirmed: bool) returns (got: P.GetAnswer, ended: Option<Result>, seen: bool)
      requires Ready() && Held() && pc == P.PollSmoke(follows, executionId, confirmed) && Under(false)
      modifies store, this`pc, this`crashed, this`run, this`state, api
      ensures Ready() && Held() && (old(lost) ==> lost) && (old(crashed) ==> crashed)
      ensures calm ==> Record() == old(Record())
      ensures pc == AfterPoll(follows, ended, seen) && seen
      ensures PollEnded(got, follows, confirmed, ended)
      ensures !crashed ==> Gets(run) > Gets(old(run))
      ensures PS.Continues(run, old(run))
    {
      PS.RunsChain();
      got := Get(P.Smoke(executionId));
      ghost var polled := run;
      ended := React(got, follows, confirmed);
      GetsGrow(run, polled);
      seen := true;
    }

    /** A Job without a condition, and one just created, go on; a Complete or Failed one, a missing one that was seen
        before, and a Get that fails end L4. */
    ghost predicate PollEnded(got: P.GetAnswer, follows: bool, confirmed: bool, ended: Option<Result>)
      reads store, this`executionId, this`crashed, this`run
    {
      && (ended.None? ==> Under(false) && (got.NotFound? ==> !confirmed))
      && (got.NoCondition? ==> ended.None?)
      && (ended.Some? ==> Concluded(ended.value, follows))
      && (got.CompleteCondition? ==> ended == Some(Success))
      && (got.FailedCondition? ==> ended.Some? && ended.value.Failure? && ended.value.finding.JobFailed?)
      && (got.GetError? ==> ended.Some? && ended.value.Failure? && ended.value.finding.Unreadable?)
      && (got.NotFound? && confirmed ==> ended.Some? && ended.value.Failure? && ended.value.finding.JobVanished?)
      && (got.NotFound? && !confirmed && ended.Some? ==>
            ended.value.Failure? && (ended.value.finding == Rejected(false) || ended.value.finding.NeverSettled?))
    }

    /** What follows from a poll: an adopted identity's Job that was never seen is created; a Job that ended, or was
        seen and is gone, releases the identity, unless L5-a goes on under it. */
    method React(got: P.GetAnswer, follows: bool, confirmed: bool) returns (ended: Option<Result>)
      requires Ready() && Held() && pc == P.AfterGet(P.PollSmoke(follows, executionId, confirmed), got)
      requires Under(false) && (!crashed ==> Told(run) == Some(P.Get(got)))
      modifies store, this`pc, this`crashed, this`run, this`state, api
      ensures Ready() && Held() && (old(crashed) ==> crashed)
      ensures calm ==> Record() == old(Record())
      ensures pc == AfterPoll(follows, ended, true)
      ensures PollEnded(got, follows, confirmed, ended)
      ensures PS.Continues(run, old(run))
    {
      if got.NotFound? && !confirmed {
        ended := CreateSmokeJob(false);
      } else {
        ended := Settle(got, follows);
      }
    }

    /** A poll that saw the Job, or no longer sees it. */
    method Settle(got: P.GetAnswer, follows: bool) returns (ended: Option<Result>)
      requires Ready() && Held() && pc == P.AfterGet(P.PollSmoke(follows, executionId, true), got)
      requires Under(false) && (!crashed ==> Told(run) == Some(P.Get(got)))
      modifies store, this`pc, this`crashed, this`run, this`state, api
      ensures Ready() && Held() && (old(crashed) ==> crashed)
      ensures calm ==> Record() == old(Record())
      ensures pc == AfterPoll(follows, ended, true)
      ensures PollEnded(got, follows, true, ended)
      ensures PS.Continues(run, old(run))
    {
      ended := Verdict(got);
      ReleaseAfter(got, follows);
    }

    /** The identity is released exactly if the Job ended or is gone, and kept after a success on which L5-a follows. */
    method ReleaseAfter(got: P.GetAnswer, follows: bool)
      requires Ready() && Held() && pc == P.AfterGet(P.PollSmoke(follows, executionId, true), got) && Under(false)
      modifies store, this`pc, this`crashed, this`run, this`state, api
      ensures Ready() && Held() && (old(crashed) ==> crashed)
      ensures calm ==> Record() == old(Record())
      ensures Under(got.NotFound? || got.FailedCondition? || (got.CompleteCondition? && !follows))
      ensures pc == match got
                    case NoCondition => P.PollSmoke(follows, executionId, true)
                    case CompleteCondition => P.AfterL4(follows, executionId)
                    case _ => P.Failing
      ensures Told(run) == Told(old(run))
      ensures PS.Continues(run, old(run))
    {
      if got.NotFound? || got.FailedCondition? || (got.CompleteCondition? && !follows) {
        MarkTerminal();
      }
    }

    /** What a poll says of the smoke-run; a failed one is classified by its Pods. */
    method Verdict(got: P.GetAnswer) returns (ended: Option<Result>)
      ensures got.NoCondition? ==> ended == None
      ensures got.CompleteCondition? ==> ended == Some(Success)
      ensures !got.NoCondition? && !got.CompleteCondition? ==>
                && ended.Some? && ended.value.Failure?
                && ended.value.finding == (match got case NotFound => JobVanished case GetError => Unreadable
                                                     case _ => JobFailed)
                && ended.value.kind == (match got case NotFound => Unknown case GetError => TransientInfra
                                                  case _ => around.pods)
    {
      match got
      case NotFound =>
        ended := Some(Failure(JobVanished, Unknown, "smoke-run Job no longer exists; outcome was never observed"));
      case GetError => ended := Some(Failure(Unreadable, TransientInfra, "get smoke-run Job"));
      case NoCondition => ended := None;
      case CompleteCondition => ended := Some(Success);
      case FailedCondition =>
        var reason: string := *;
        ended := Some(Failure(JobFailed, around.pods, reason));
    }

    ghost function AfterPoll(follows: bool, ended: Option<Result>, seen: bool): P.Pc
      reads this`executionId
    {
      match ended
      case None => P.PollSmoke(follows, executionId, seen)
      case Some(r) => if r.Success? then P.AfterL4(follows, executionId) else P.Failing
    }

    /** runSmokeRun. The loop ends with its context: the timeout, a shutdown, or a confirmed lease loss. */
    method RunSmokeRun(follows: bool, adopted: bool) returns (result: Result)
      requires Ready() && Held() && Under(false)
      requires pc == if adopted then P.PollSmoke(follows, executionId, false)
                else P.CreateSmoke(follows, executionId, true)
      modifies store, this`lost, this`beats, this`postsAtLoss, this`claimsAtLoss, this`pc, this`crashed, this`run,
        this`state, api
      ensures Ready() && Held() && (old(lost) ==> lost) && (old(crashed) ==> crashed)
      ensures calm ==> Record() == old(Record())
      ensures !lost ==> pc == if result.Success? then P.AfterL4(follows, executionId) else P.Failing
      ensures !lost ==> Concluded(result, follows)
      ensures !lost && result.Failure? ==> !L3Finding(result.finding)
      ensures !lost && result.Failure? && result.finding.Rejected? ==> result.finding.minted == !adopted
      ensures result.Failure? && result.finding.TimedOut? && !crashed ==>
                Ticked(around.smokeTicks, old(beats), old(run))
      ensures PS.Continues(run, old(run))
    {
      PS.RunsChain();
      if !adopted {
        var created := CreateSmokeJob(true);
        if created.Some? {
          return created.value;
        }
      }
      GetsGrow(run, old(run));
      result := ObserveSmokeRun(follows, !adopted);
    }

    static predicate L3Finding(f: Finding) {
      f.NotRetired? || f.NoIdentity? || f.DryRunFailed?
    }

    /** Whichever ticker fires. */
    method SmokeTick(tick: Tick, follows: bool, confirmed: bool) returns (ended: Option<Result>, seen: bool)
      requires Ready() && Held() && pc == P.PollSmoke(follows, executionId, confirmed) && Under(false)
      modifies store, this`lost, this`beats, this`postsAtLoss, this`claimsAtLoss, this`pc, this`crashed, this`run,
        this`state, api
      ensures Ready() && Held() && (old(lost) ==> lost) && (old(crashed) ==> crashed)
      ensures calm ==> Record() == old(Record())
      ensures pc == AfterPoll(follows, ended, seen) && (confirmed ==> seen)
      ensures if ended.None? then Under(false) else Concluded(ended.value, follows)
      ensures ended.Some? && ended.value.Failure? ==>
                && !L3Finding(ended.value.finding) && (ended.value.finding.Rejected? ==> !confirmed)
                && ended.value.finding != Rejected(true) && !ended.value.finding.TimedOut?
      ensures answered && !crashed ==> beats == old(beats) + if tick.HeartbeatTick? then 1 else 0
      ensures !crashed ==> Gets(run) >= Gets(old(run)) + if tick.PollTick? then 1 else 0
      ensures PS.Continues(run, old(run))
    {
      match tick
      case HeartbeatTick =>
        Beat();
        GetsGrow(run, old(run));
        ended, seen := None, confirmed;
      case PollTick =>
        var got;
        got, ended, seen := PollSmokeJob(follows, confirmed);
    }

    /** The poll loop of runSmokeRun. */
    method ObserveSmokeRun(follows: bool, created: bool) returns (result: Result)
      requires Ready() && Held() && pc == P.PollSmoke(follows, executionId, created) && Under(false)
      modifies store, this`lost, this`beats, this`postsAtLoss, this`claimsAtLoss, this`pc, this`crashed, this`run,
        this`state, api
      ensures Ready() && Held() && (old(lost) ==> lost) && (old(crashed) ==> crashed)
      ensures calm ==> Record() == old(Record())
      ensures !lost ==> pc == if result.Success? then P.AfterL4(follows, executionId) else P.Failing
      ensures !lost ==> Concluded(result, follows)
      ensures result.Failure? ==>
                && !L3Finding(result.finding) && (result.finding.Rejected? ==> !created && !result.finding.minted)
      ensures result.Failure? && result.finding.TimedOut? && !crashed ==>
                Ticked(around.smokeTicks, old(beats), old(run))
      ensures PS.Continues(run, old(run))
    {
      PS.RunsChain();
      var ended := WatchSmokeRun(follows, created);
      if ended.Some? {
        return ended.value;
      }
      ghost var watched := run;
      result := SmokeContextEnds();
      GetsGrow(run, watched);
    }

    /** Its ticks, until one of them ends it; None when the context ends first. */
    method WatchSmokeRun(follows: bool, created: bool) returns (ended: Option<Result>)
      requires Ready() && Held() && pc == P.PollSmoke(follows, executionId, created) && Under(false)
      modifies store, this`lost, this`beats, this`postsAtLoss, this`claimsAtLoss, this`pc, this`crashed, this`run,
        this`state, api
      ensures Ready() && Held() && (old(lost) ==> lost) && (old(crashed) ==> crashed)
      ensures calm ==> Record() == old(Record())
      ensures ended.None? ==> pc.PollSmoke? && pc.x == executionId && Under(false)
      ensures ended.None? && !crashed ==> Ticked(around.smokeTicks, old(beats), old(run))
      ensures ended.Some? ==>
                && pc == (if ended.value.Success? then P.AfterL4(follows, executionId) else P.Failing)
                && Concluded(ended.value, follows)
      ensures ended.Some? && ended.value.Failure? ==>
                && !L3Finding(ended.value.finding) && !ended.value.finding.TimedOut?
                && (ended.value.finding.Rejected? ==> !created && !ended.value.finding.minted)
      ensures PS.Continues(run, old(run))
    {
      PS.RunsChain();
      ended := None;
      var confirmed := created;
      for i := 0 to |around.smokeTicks|
        invariant Ready() && Held() && (old(lost) ==> lost) && (old(crashed) ==> crashed)
        invariant PS.Continues(run, old(run))
        invariant calm ==> Record() == old(Record())
        invariant pc == P.PollSmoke(follows, executionId, confirmed) && Under(false) && (created ==> confirmed)
        invariant ended.None? && (!crashed ==> Ticked(around.smokeTicks[..i], old(beats), old(run)))
      {
        ended, confirmed := SmokeTick(around.smokeTicks[i], follows, confirmed);
        OneMoreTick(around.smokeTicks, i);
        if ended.Some? {
          return;
        }
      }
      assert around.smokeTicks[..|around.smokeTicks|] == around.smokeTicks;
    }

    /** Every tick was answered: a heartbeat sent for each of one kind, a Get for each of the other. */
    ghost predicate Ticked(ticks: seq<Tick>, beatsBefore: nat, before: P.Run)
      reads this`beats, this`run
    {
      && (answered ==> beats == beatsBefore + multiset(ticks)[HeartbeatTick])
      && Gets(run) >= Gets(before) + multiset(ticks)[PollTick]
    }

    static lemma OneMoreTick(ticks: seq<Tick>, i: nat)
      requires i < |ticks|
      ensures multiset(ticks[..i + 1]) == multiset(ticks[..i]) + multiset{ticks[i]}
    {
      assert ticks[..i + 1] == ticks[..i] + [ticks[i]];
    }

    /** The context of L4 has ended. A deadline is an infrastructure failure; a shutdown is classified by the Pods. */
    method SmokeContextEnds() returns (result: Result)
      requires Ready() && Held() && pc.PollSmoke? && pc.x == executionId && Under(false)
      modifies store, this`pc, this`crashed, this`run, this`state, api
      ensures Ready() && Held() && (old(crashed) ==> crashed)
      ensures calm ==> Record() == old(Record())
      ensures result.Failure? && result.finding.TimedOut?
      ensures !lost ==> pc == P.Failing && Concluded(result, false)
      ensures PS.Continues(run, old(run))
    {
      if lost {
        return Failure(TimedOut(false), TransientInfra, "lease lost");
      }
      var gone := ContextEnds(P.Smoke(executionId));
      var reason: string := *;
      result := Failure(TimedOut(gone), if around.deadline then TransientInfra else around.pods, reason);
    }

    /** The end of a poll loop's context: the identity is released exactly if the Job is confirmed gone. */
    method ContextEnds(n: P.Name) returns (gone: bool)
      requires Ready() && Held() && (pc.PollSmoke? || pc.WaitL5a?) && pc.x == executionId && P.Subject(pc) == Some(n)
      requires Under(false)
      modifies store, this`pc, this`crashed, this`run, this`state, api
      ensures Ready() && Held() && (old(crashed) ==> crashed)
      ensures calm ==> Record() == old(Record())
      ensures pc == if old(pc).PollSmoke? then P.Failing else P.Completing
      ensures Under(gone) && (!crashed ==> Told(run) == Some(P.Gone(gone)))
      ensures PS.Continues(run, old(run))
    {
      PS.RunsChain();
      Went(P.ContextDone);
      gone := DeleteAndConfirmGone(n);
      if gone {
        MarkTerminal();
      }
    }

    // ---------- L5-a ----------

    /** reconcileL5aCreate: at most three Creates under the same name, the first of them at once. It ends at the first
        that shows a Job; otherwise only after the third, or when the context ends in one of the waits between. */
    method ReconcileL5aCreate() returns (found: bool)
      requires Ready() && Held() && pc.Reconcile? && pc.left == P.RECONCILE_ATTEMPTS && pc.x == executionId
      modifies this`pc, this`crashed, this`run, this`state, api
      ensures Ready() && Held() && (old(crashed) ==> crashed)
      ensures Creates(run) <= Creates(old(run)) + 3
      ensures !crashed ==> Creates(run) >= Creates(old(run)) + 1
      ensures !crashed && !found ==>
                Creates(run) == Creates(old(run)) + if around.waits < 2 then 1 + around.waits else 3
      ensures !crashed ==> Told(run).Some? && Told(run).value.Create?
      ensures !crashed ==> (found <==> Told(run).value.answer.Created? || Told(run).value.answer.AlreadyExists?)
      ensures pc == if found then P.WaitL5a(old(pc).x) else P.Completing
      ensures PS.Continues(run, old(run))
    {
      PS.RunsChain();
      for i := 0 to P.RECONCILE_ATTEMPTS
        invariant Ready() && Held() && (old(crashed) ==> crashed) && i <= around.waits + 1
        invariant PS.Continues(run, old(run))
        invariant pc == P.Reconcile(old(pc).x, P.RECONCILE_ATTEMPTS - i) && Creates(run) <= Creates(old(run)) + i
        invariant !crashed ==> Creates(run) == Creates(old(run)) + i
        invariant !crashed && i > 0 ==>
                    && Told(run).Some? && Told(run).value.Create?
                    && !Told(run).value.answer.Created? && !Told(run).value.answer.AlreadyExists?
      {
        if i > around.waits { // the context is done
          Went(P.GiveUp);
          return false;
        }
        var answer := Create(P.L5a(executionId));
        if answer.Created? || answer.AlreadyExists? {
          return true;
        }
      }
      Went(P.GiveUp);
      found := false;
    }

    /** What a finished L5-a says, in the same way. */
    ghost predicate L5aConcluded(f: Finding)
      reads store, this`executionId, this`crashed, this`run
    {
      Under(L5aReleases(f)) && (!crashed ==> L5aHeard(f, Told(run)))
    }

    /** waitL5aJob. */
    method WaitL5aJob() returns (finding: Finding)
      requires Ready() && Held() && pc == P.WaitL5a(executionId) && Under(false)
      modifies store, this`lost, this`beats, this`postsAtLoss, this`claimsAtLoss, this`pc, this`crashed, this`run,
        this`state, api
      ensures beats >= old(beats)
      ensures Ready() && Held() && (old(lost) ==> lost) && (old(crashed) ==> crashed)
      ensures calm ==> Record() == old(Record())
      ensures !lost ==> pc == P.Completing && L5aConcluded(finding)
      ensures finding.JobSucceeded? || finding.JobFailed? || finding.Unreadable? || finding.TimedOut?
      ensures finding.TimedOut? && !crashed ==> Ticked(around.l5aTicks, old(beats), old(run))
      ensures PS.Continues(run, old(run))
    {
      PS.RunsChain();
      for i := 0 to |around.l5aTicks|
        invariant beats >= old(beats)
        invariant Ready() && Held() && (old(lost) ==> lost) && (old(crashed) ==> crashed)
        invariant PS.Continues(run, old(run))
        invariant calm ==> Record() == old(Record())
        invariant pc == P.WaitL5a(executionId) && Under(false)
        invariant !crashed ==> Ticked(around.l5aTicks[..i], old(beats), old(run))
      {
        var ended := L5aTick(around.l5aTicks[i]);
        OneMoreTick(around.l5aTicks, i);
        if ended.Some? {
          return ended.value;
        }
      }
      assert around.l5aTicks[..|around.l5aTicks|] == around.l5aTicks;
      ghost var watched := run;
      finding := L5aContextEnds();
      GetsGrow(run, watched);
    }

    /** The context of L5-a has ended; nothing is cleaned up after a lost lease. */
    method L5aContextEnds() returns (finding: Finding)
      requires Ready() && Held() && pc == P.WaitL5a(executionId) && Under(false)
      modifies store, this`pc, this`crashed, this`run, this`state, api
      ensures Ready() && Held() && (old(crashed) ==> crashed)
      ensures calm ==> Record() == old(Record())
      ensures finding.TimedOut? && (!lost ==> pc == P.Completing && L5aConcluded(finding))
      ensures PS.Continues(run, old(run))
    {
      var gone := false;
      if !lost {
        gone := ContextEnds(P.L5a(executionId));
      }
      finding := TimedOut(gone);
    }

    /** Whichever ticker fires: a heartbeat, or a poll that may end the wait. */
    method L5aTick(tick: Tick) returns (ended: Option<Finding>)
      requires Ready() && Held() && pc == P.WaitL5a(executionId) && Under(false)
      modifies store, this`lost, this`beats, this`postsAtLoss, this`claimsAtLoss, this`pc, this`crashed, this`run,
        this`state, api
      ensures beats >= old(beats)
      ensures Ready() && Held() && (old(lost) ==> lost) && (old(crashed) ==> crashed)
      ensures calm ==> Record() == old(Record())
      ensures pc == if ended.Some? then P.Completing else P.WaitL5a(executionId)
      ensures if ended.Some? then L5aConcluded(ended.value) else Under(false)
      ensures ended.Some? ==> ended.value.JobSucceeded? || ended.value.JobFailed? || ended.value.Unreadable?
      ensures answered && !crashed ==> beats == old(beats) + if tick.HeartbeatTick? then 1 else 0
      ensures !crashed ==> Gets(run) >= Gets(old(run)) + if tick.PollTick? then 1 else 0
      ensures PS.Continues(run, old(run))
    {
      match tick
      case HeartbeatTick =>
        Beat();
        GetsGrow(run, old(run));
        ended := None;
      case PollTick =>
        var got;
        got, ended := PollL5aJob();
    }

    /** A poll: a Job that ended releases the identity, one that cannot be read or is missing keeps it. */
    method PollL5aJob() returns (got: P.GetAnswer, ended: Option<Finding>)
      requires Ready() && Held() && pc == P.WaitL5a(executionId) && Under(false)
      modifies store, this`pc, this`crashed, this`run, this`state, api
      ensures Ready() && Held() && (old(crashed) ==> crashed)
      ensures calm ==> Record() == old(Record())
      ensures pc == if ended.Some? then P.Completing else P.WaitL5a(executionId)
      ensures if ended.Some? then L5aConcluded(ended.value) else Under(false)
      ensures ended == match got
                       case CompleteCondition => Some(Finding.JobSucceeded)
                       case FailedCondition => Some(JobFailed)
                       case NoCondition => None
                       case _ => Some(Unreadable)
      ensures !crashed ==> Gets(run) > Gets(old(run))
      ensures PS.Continues(run, old(run))
    {
      PS.RunsChain();
      got := Get(P.L5a(executionId));
      if got.CompleteCondition? || got.FailedCondition? {
        ghost var polled := run;
        MarkTerminal();
        GetsGrow(run, polled);
        return got, Some(if got.CompleteCondition? then Finding.JobSucceeded else JobFailed);
      }
      ended := if got.NoCondition? then None else Some(Unreadable);
    }

    /** runL5a with a vault client: whatever happens to the Job, one record is submitted, unless the lease was
        lost. */
    method RunL5a(terminal: bool) returns (finding: Finding)
      requires Ready() && Held() && pc == P.CreateL5a(executionId) && Under(false)
      modifies store, this`lost, this`beats, this`postsAtLoss, this`claimsAtLoss, this`pc, this`posts, this`claims,
        this`crashed, this`run, this`state, api, vault
      ensures beats >= old(beats)
      ensures Ready() && Held() && (old(lost) ==> lost) && (old(crashed) ==> crashed)
      ensures !lost ==> pc == P.Completing && L5aConcluded(finding)
      ensures old(lost) ==> posts == old(posts) && claims == old(claims)
      ensures calm && !terminal && old(NoneYet()) ==> NoneYet()
      ensures calm && terminal && old(NoneYet()) ==> OneAt(L5A)
      ensures !terminal && !lost && !crashed ==> Stages(posts) == Stages(old(posts)) + [(L5A, false)]
      ensures calm && terminal && old(NoneYet()) ==> Stages(posts) == Stages(old(posts)) + [(L5A, true)]
      ensures PS.Continues(run, old(run))
    {
      PS.RunsChain();
      finding := ValidateL5a();
      if lost {
        return;
      }
      SubmitRecord(L5A, terminal);
    }

    /** The Kubernetes part of runL5a: create or adopt the Job and wait for it. */
    method ValidateL5a() returns (finding: Finding)
      requires Ready() && Held() && pc == P.CreateL5a(executionId) && Under(false)
      modifies store, this`lost, this`beats, this`postsAtLoss, this`claimsAtLoss, this`pc, this`crashed, this`run,
        this`state, api
      ensures beats >= old(beats)
      ensures Ready() && Held() && (old(lost) ==> lost) && (old(crashed) ==> crashed)
      ensures calm ==> Record() == old(Record())
      ensures !lost ==> pc == P.Completing && L5aConcluded(finding)
      ensures finding.NeverSettled? && !crashed ==>
                Creates(run) == Creates(old(run)) + if around.waits < 2 then 2 + around.waits else 4
      ensures PS.Continues(run, old(run))
    {
      PS.RunsChain();
      var failed := CreateL5aJob();
      if failed.Some? {
        return failed.value;
      }
      finding := WaitL5aJob();
    }

    /** None when a Job now exists under the name. */
    method CreateL5aJob() returns (failed: Option<Finding>)
      requires Ready() && Held() && pc == P.CreateL5a(executionId) && Under(false)
      modifies store, this`pc, this`crashed, this`run, this`state, api
      ensures Ready() && Held() && (old(crashed) ==> crashed)
      ensures calm ==> Record() == old(Record())
      ensures failed.None? ==> pc == P.WaitL5a(executionId) && Under(false)
      ensures failed.Some? ==> pc == P.Completing && L5aConcluded(failed.value)
      ensures failed.Some? ==> failed.value == Rejected(false) || failed.value.NeverSettled?
      ensures failed == Some(NeverSettled) && !crashed ==>
                Creates(run) == Creates(old(run)) + if around.waits < 2 then 2 + around.waits else 4
      ensures PS.Continues(run, old(run))
    {
      PS.RunsChain();
      failed := None;
      var answer := Create(P.L5a(executionId));
      if answer.Rejected? {
        MarkTerminal();
        return Some(Finding.Rejected(false));
      }
      if answer.Ambiguous? {
        var there := ReconcileL5aCreate();
        if !there {
          return Some(NeverSettled);
        }
      }
    }

    // ---------- the whole attempt ----------

    /** The L5 records of a completed plan. */
    static function L5Stages(plan: Plan): seq<(Stage, bool)> {
      (if plan.runL5a then [(L5A, !plan.runL5b)] else []) + (if plan.runL5b then [(L5B, true)] else [])
    }

    /** finishAfterL4's L5-a stage; false when the lease was lost. */
    method StageL5a(plan: Plan) returns (held: bool, finding: Finding)
      requires Ready() && Held() && !lost && plan.runL5a && (vaultClient ==> Under(false))
      requires pc == if vaultClient then P.CreateL5a(executionId) else P.Completing
      modifies store, this`lost, this`beats, this`postsAtLoss, this`claimsAtLoss, this`posts, this`claims, this`pc,
        this`crashed, this`run, this`state, api, vault
      ensures Ready() && Held() && (held <==> !lost) && (old(crashed) ==> crashed)
      ensures held ==> pc == P.Completing
      ensures answered && !crashed ==> beats > old(beats)
      ensures if vaultClient then held ==> L5aConcluded(finding) else Untouched(old(Exec()), old(Told(run)))
      ensures !vaultClient ==> posts == old(posts) && claims == old(claims) && (calm ==> Record() == old(Record()))
      ensures calm && vaultClient && plan.runL5b && old(NoneYet()) ==> NoneYet()
      ensures calm && vaultClient && !plan.runL5b && old(NoneYet()) ==> OneAt(L5A)
      ensures calm && vaultClient && old(NoneYet()) ==>
                Stages(posts) == Stages(old(posts)) + [(L5A, !plan.runL5b)]
      ensures PS.Continues(run, old(run))
    {
      PS.RunsChain();
      finding := NotRetired;
      held := StillLeased();
      if held && vaultClient {
        finding := RunL5a(!plan.runL5b);
        held := !lost;
      }
    }

    /** Neither the identity nor what was heard last has changed. */
    ghost predicate Untouched(exec: Execution, told: Option<P.Action>)
      reads store, this`run
    {
      (alone ==> Exec() == exec) && Told(run) == told
    }

    /** finishAfterL4's L5-b stage: runL5b submits one terminal record on every path with a vault client. */
    method StageL5b() returns (held: bool)
      requires Ready() && Held() && !lost
      modifies store, this`lost, this`beats, this`postsAtLoss, this`claimsAtLoss, this`posts, this`claims,
        this`crashed, this`run, this`state, api, vault
      ensures Ready() && Held() && (held <==> !lost) && (old(crashed) ==> crashed)
      ensures answered && !crashed ==> beats > old(beats)
      ensures Untouched(old(Exec()), old(Told(run)))
      ensures !vaultClient ==> posts == old(posts) && claims == old(claims) && (calm ==> Record() == old(Record()))
      ensures calm && vaultClient && old(NoneYet()) ==>
                OneAt(L5B) && Stages(posts) == Stages(old(posts)) + [(L5B, true)]
      ensures PS.Continues(run, old(run))
    {
      PS.RunsChain();
      held := StillLeased();
      if held && vaultClient {
        SubmitRecord(L5B, true);
        held := !lost;
      }
    }

    /** finishAfterL4. */
    method FinishAfterL4(plan: Plan) returns (ending: Ending, finding: Finding)
      requires Ready() && Held() && !lost && pc == P.AfterL4(plan.runL5a && vaultClient, executionId)
      requires plan.runL5a && vaultClient ==> Under(false)
      modifies store, this`lost, this`beats, this`postsAtLoss, this`claimsAtLoss, this`posts, this`claims, this`pc,
        this`crashed, this`run, this`state, api, vault
      ensures Ready() && (lost ==> ending.Stopped?) && (!lost ==> pc.Idle?) && (alone ==> !lost)
      ensures old(crashed) ==> crashed
      ensures calm ==> ending.Completed? && StatusFits(ending)
      ensures if plan.runL5a && vaultClient then !lost ==> L5aConcluded(finding)
              else Untouched(old(Exec()), old(Told(run)))
      ensures !vaultClient ==> posts == old(posts) && claims == old(claims) && (calm ==> Record() == old(Record()))
      ensures calm && vaultClient && (if LastStage(plan).L4? then old(OneAt(L4)) else old(NoneYet())) ==>
                OneAt(LastStage(plan)) && Stages(posts) == Stages(old(posts)) + L5Stages(plan)
      ensures PS.Continues(run, old(run))
    {
      PS.RunsChain();
      Went(P.EndL4);
      var held;
      held, finding := RunL5Stages(plan);
      if !held {
        return Stopped, finding;
      }
      var ok := SendCompletion();
      ending := if ok then Completed else Stopped;
    }

    /** The planned stages after L4; false when the lease was lost. */
    method RunL5Stages(plan: Plan) returns (held: bool, finding: Finding)
      requires Ready() && Held() && !lost && (plan.runL5a && vaultClient ==> Under(false))
      requires pc == if plan.runL5a && vaultClient then P.CreateL5a(executionId) else P.Completing
      modifies store, this`lost, this`beats, this`postsAtLoss, this`claimsAtLoss, this`posts, this`claims, this`pc,
        this`crashed, this`run, this`state, api, vault
      ensures Ready() && Held() && (held <==> !lost) && (held ==> pc == P.Completing) && (old(crashed) ==> crashed)
      ensures if plan.runL5a && vaultClient then held ==> L5aConcluded(finding)
              else Untouched(old(Exec()), old(Told(run)))
      ensures !vaultClient ==> posts == old(posts) && claims == old(claims) && (calm ==> Record() == old(Record()))
      ensures calm && vaultClient && (if LastStage(plan).L4? then old(OneAt(L4)) else old(NoneYet())) ==>
                OneAt(LastStage(plan)) && Stages(posts) == Stages(old(posts)) + L5Stages(plan)
      ensures PS.Continues(run, old(run))
    {
      PS.RunsChain();
      held, finding := true, NotRetired;
      if plan.runL5a {
        held, finding := StageL5a(plan);
        if !held {
          return;
        }
      }
      if plan.runL5b {
        held := StageL5b();
      }
    }

    ghost predicate SucceededNow()
      reads store
    {
      job in store.rows && store.rows[job].lease.status == Succeeded
    }

    /** crypto/rand: some id never minted for this job before, or a failure. */
    method NewExecutionId() returns (minted: Option<string>)
      ensures minted.Some? ==> minted.value != "" && minted.value !in Identities(store.history, job)
    {
      minted := None;
    }

    /** Establish the execution identity; false on any error. */
    method Identify() returns (ok: bool, adopted: bool)
      requires Ready() && Held() && pc == P.Identify(l5aFollows)
      modifies store, this`pc, this`executionId, this`crashed, this`run, this`state, api
      ensures Ready() && Held() && (old(crashed) ==> crashed)
      ensures calm ==> Record() == old(Record())
      ensures !ok ==> pc == P.Failing && (!crashed ==> Heard(NoIdentity, Told(run))) && (calm ==> Exec() == old(Exec()))
      ensures ok ==>
                pc == P.AfterIdentity(l5aFollows, if adopted then Some(executionId) else None, executionId, true)
      ensures ok ==> Under(false)
      ensures calm && ok ==> (adopted <==> job in old(store.rows) && Adoptable(old(store.rows)[job]))
      ensures PS.Continues(run, old(run))
    {
      PS.RunsChain();
      Interlude();
      ok, adopted := false, false;
      var error := StoreError();
      if error {
        Unidentified();
      } else {
        ok, adopted := CallEnsureExecution();
      }
    }

    method CallEnsureExecution() returns (ok: bool, adopted: bool)
      requires Ready() && Held() && !crashed && pc == P.Identify(l5aFollows)
      modifies store, this`pc, this`executionId, this`run, this`state, api
      ensures Ready() && Held() && Record() == old(Record())
      ensures !ok ==> pc == P.Failing && Heard(NoIdentity, Told(run)) && (answered ==> Exec() == old(Exec()))
      ensures ok ==>
                pc == P.AfterIdentity(l5aFollows, if adopted then Some(executionId) else None, executionId, true)
      ensures ok ==> executionId != "" && Exec() == Execution(executionId, false)
      ensures ok ==> (adopted <==> Adoptable(old(store.rows)[job]))
      ensures PS.Continues(run, old(run))
    {
      PS.RunsChain();
      var minted := NewExecutionId();
      var now: Instant := *;
      var unheard := StoreError();
      var result := EnsureInStore(minted, now, !unheard);
      ok, adopted := result.Identity? && !unheard, false;
      if !result.Identity? {
        Unidentified();
      } else if unheard {
        CatchUp(P.Ensure(result.id, false, true), None);
      } else {
        adopted := result.adopted;
        TakeIdentity(result.id, adopted);
      }
    }

    method TakeIdentity(id: string, ghost adopted: bool)
      requires Due(P.Ensure(id, true, true)) && Held() && !crashed && pc == P.Identify(l5aFollows)
      requires alone ==> P.Live(state) == if adopted then Some(id) else None
      modifies this`pc, this`executionId, this`run, this`state
      ensures Ready() && Held() && executionId == id
      ensures pc == P.AfterIdentity(l5aFollows, if adopted then Some(id) else None, id, true)
      ensures PS.Continues(run, old(run))
    {
      executionId := id;
      CatchUp(P.Ensure(id, true, true), if adopted then Some(id) else None);
    }

    ghost method Unidentified()
      requires Ready() && Held() && pc.Identify?
      modifies this`pc, this`run, this`state
      ensures Ready() && Held() && pc == P.Failing
      ensures run == if crashed then old(run) else P.Then(old(run), P.Ensure("", false, false))
      ensures PS.Continues(run, old(run))
    {
      WithoutStore(P.Ensure("", false, false));
    }

    /** The call, and whether its caller will hear of it. */
    method EnsureInStore(minted: Option<string>, now: Instant, ghost heard: bool) returns (result: EnsureResult)
      requires Ready() && Held() && !crashed && pc == P.Identify(l5aFollows)
      requires minted.Some? ==> minted.value != "" && minted.value !in Identities(store.history, job)
      modifies store
      ensures Held() && Record() == old(Record())
      ensures if result.Identity? then Due(P.Ensure(result.id, heard, true)) else Ready() && Exec() == old(Exec())
      ensures result.Identity? ==> result.id != "" && Exec() == Execution(result.id, false)
      ensures result.Identity? ==> (result.adopted <==> Adoptable(old(store.rows)[job]))
      ensures result.Identity? && alone ==> P.Live(state) == if result.adopted then Some(result.id) else None
    {
      assert OpenPlace(0) && OpenRun(0);
      ghost var before := store.history;
      result := store.EnsureExecution(job, minted, now);
      if result.Identity? {
        Ensured(before, heard);
      } else {
        assert store.history == before;
      }
    }

    lemma Ensured(before: History, heard: bool)
      requires store.Valid() && store.history.Then? && store.history.prev == before
      requires var e := store.history.last; e.Ensure? && e.ok && e.job == job
      requires job in After(before) && OnCourse(before, job, worker, attempt, lastError, maxAttempts)
      ensures job in store.rows && OnCourse(store.history, job, worker, attempt, lastError, maxAttempts)
      ensures store.rows[job].lease == After(before)[job].lease && store.rows[job].slot == After(before)[job].slot
      ensures var e := store.history.last;
              && e.id != "" && store.rows[job].execution == Execution(e.id, false)
              && (e.adopted <==> Adoptable(After(before)[job]))
      ensures Filed(store.history, job) == Filed(before, job)
      ensures WinsAmong(store.history, job, Me()) == WinsAmong(before, job, Me())
      ensures Matches(state, After(before)[job], Minted(before, job)) && state.pc == P.Identify(l5aFollows) ==>
                var e := store.history.last;
                && P.Live(state) == (if e.adopted then Some(e.id) else None)
                && P.Can(P.ALL_HYPOTHESES, l5aFollows, state, P.Ensure(e.id, heard, true))
                && Matches(P.Step(P.ALL_HYPOTHESES, l5aFollows, state, P.Ensure(e.id, heard, true)),
                           store.rows[job], Minted(store.history, job))
    {
      DeliveryAndLeaseAreIndependent(before, store.history.last, job);
      StaysOnCourse(store.history, before, job, worker, attempt, lastError, maxAttempts);
      if Matches(state, After(before)[job], Minted(before, job)) && state.pc == P.Identify(l5aFollows) {
        EnsureMatches(before, store.history.last, state, l5aFollows, heard);
      }
    }

    /** L3 of a freshly minted identity. */
    method DryRun() returns (passed: bool)
      requires Ready() && Held() && pc.DryRun?
      modifies this`pc, this`crashed, this`run, this`state, api
      ensures Ready() && Held() && (old(crashed) ==> crashed)
      ensures pc == P.Advance(old(pc), P.DryRunAnswer(passed), None, {})
      ensures !crashed ==> Told(run) == Some(P.DryRunAnswer(passed))
      ensures PS.Continues(run, old(run))
    {
      PS.RunsChain();
      Tick();
      if crashed {
        passed := false;
        Unheard(P.DryRunAnswer(false));
      } else {
        passed := CallDryRun();
      }
    }

    method CallDryRun() returns (passed: bool)
      requires Ready() && Held() && !crashed && pc.DryRun?
      modifies this`pc, this`run, this`state, api`record
      ensures Ready() && Held() && pc == P.Advance(old(pc), P.DryRunAnswer(passed), None, {})
      ensures run == P.Then(old(run), P.DryRunAnswer(passed))
      ensures PS.Continues(run, old(run))
    {
      assert OpenRun(0);
      ghost var record := api.record;
      passed := api.DryRun();
      ghost var t := state;
      if alone {
        t := TrackMove(l5aFollows, run, state, record, P.DryRunAnswer(passed), {});
      }
      Put(P.Advance(pc, P.DryRunAnswer(passed), None, {}), P.Then(run, P.DryRunAnswer(passed)), t);
    }

    /** L3 and L4 under the identity: the dry run of a freshly minted one, then the smoke-run. */
    method RunL3L4(follows: bool, adopted: bool) returns (result: Result)
      requires Ready() && Held() && Under(false)
      requires pc == if adopted then P.PollSmoke(follows, executionId, false) else P.DryRun(follows, executionId)
      modifies store, this`lost, this`beats, this`postsAtLoss, this`claimsAtLoss, this`pc, this`crashed, this`run,
        this`state, api
      ensures Ready() && Held() && (old(lost) ==> lost) && (old(crashed) ==> crashed)
      ensures calm ==> Record() == old(Record())
      ensures !lost ==> pc == if result.Success? then P.AfterL4(follows, executionId) else P.Failing
      ensures !lost ==> Concluded(result, follows)
      ensures !lost && result.Failure? ==> !result.finding.NotRetired? && !result.finding.NoIdentity?
      ensures !lost && result.Failure? && result.finding.DryRunFailed? ==> !adopted
      ensures !lost && result.Failure? && result.finding.Rejected? ==> result.finding.minted == !adopted
      ensures PS.Continues(run, old(run))
    {
      PS.RunsChain();
      if !adopted {
        var passed := DryRun();
        if !passed {
          MarkTerminal();
          return Failure(DryRunFailed, TransientInfra, "L3 dry-run");
        }
      }
      result := RunSmokeRun(follows, adopted);
    }

    static function StageOf(f: Finding): Stage {
      if L3Finding(f) then L3 else L4
    }

    /** The records of an attempt with a vault client, by its ending. */
    static function RecordsOf(ending: Ending, plan: Plan): seq<(Stage, bool)> {
      match ending
      case RequeuedAt(stage) => [(stage, false)]
      case FailedAt(stage) => [(stage, true)]
      case Completed => if plan.runL5a || plan.runL5b then L5Stages(plan) else [(L4, true)]
      case Stopped => []
    }

    /** A calm attempt, told by what it found out: a failing L3 or L4 requeues or fails the job at its stage, as the
        failure class says; anything else completes it. The identity is released or kept as the finding says. */
    ghost predicate Explained(plan: Plan, ending: Ending, finding: Finding)
      reads store, this`executionId, this`crashed, this`run
    {
      && StatusFits(ending)
      && match ending
         case Stopped => false
         case Completed =>
           if plan.runL5a && vaultClient then
             Under(L5aReleases(finding)) && L5aHeard(finding, Told(run))
           else
             finding.JobSucceeded? && Under(true) && Heard(finding, Told(run))
         case _ =>
           && !finding.JobSucceeded? && Heard(finding, Told(run))
           && (!finding.NotRetired? && !finding.NoIdentity? ==> Under(L4Releases(finding)))
           && ending == Verdicted(finding, ClassOf(finding, around))
    }

    /** decideRetry's verdict on a finding of the given class. */
    function Verdicted(finding: Finding, kind: FailureClass): Ending {
      if Requeued(kind, attempt, lastError, maxAttempts) then RequeuedAt(StageOf(finding))
      else FailedAt(StageOf(finding))
    }

    /** An attempt that failed at L3 or L4. */
    method FailWith(plan: Plan, finding: Finding, kind: FailureClass, reason: string) returns (ending: Ending)
      requires Ready() && Held() && !lost && pc.Failing?
      requires !finding.JobSucceeded? && kind == ClassOf(finding, around)
      requires calm ==> Heard(finding, Told(run))
      requires !finding.NotRetired? && !finding.NoIdentity? ==> Under(L4Releases(finding))
      modifies store, this`lost, this`beats, this`postsAtLoss, this`claimsAtLoss, this`posts, this`claims, this`pc,
        this`crashed, this`run, this`state, api, vault
      ensures Ready() && (lost ==> ending.Stopped?) && (!lost ==> pc.Idle?) && (alone ==> !lost)
      ensures calm ==> Explained(plan, ending, finding) && !ending.Completed? && Exec() == old(Exec())
      ensures Told(run) == Told(old(run))
      ensures !vaultClient ==> posts == old(posts) && claims == old(claims)
      ensures calm && vaultClient && old(NoneYet()) ==>
                RecordFits(ending) && Stages(posts) == Stages(old(posts)) + RecordsOf(ending, plan)
      ensures PS.Continues(run, old(run))
    {
      ending := FailAt(StageOf(finding), kind, reason);
      assert calm ==> ending == Verdicted(finding, kind);
    }

    /** Everything process does once the identity is established. */
    method RunStages(plan: Plan, adopted: bool) returns (ending: Ending, finding: Finding)
      requires Ready() && Held() && !lost && Under(false)
      requires pc == P.AfterIdentity(plan.runL5a && vaultClient, if adopted then Some(executionId) else None,
                                     executionId, true)
      modifies store, this`lost, this`beats, this`postsAtLoss, this`claimsAtLoss, this`posts, this`claims, this`pc,
        this`crashed, this`run, this`state, api, vault
      ensures Ready() && (lost ==> ending.Stopped?) && (!lost ==> pc.Idle?) && (alone ==> !lost)
      ensures calm ==> Explained(plan, ending, finding)
      ensures calm ==> !finding.NotRetired? && !finding.NoIdentity?
      ensures calm && !ending.Completed? && finding.Rejected? ==> finding.minted == !adopted
      ensures !vaultClient ==> posts == old(posts) && claims == old(claims)
      ensures calm && vaultClient && old(NoneYet()) ==>
                RecordFitsPlan(ending, plan) && Stages(posts) == Stages(old(posts)) + RecordsOf(ending, plan)
      ensures PS.Continues(run, old(run))
    {
      if adopted && plan.runL5a && vaultClient {
        ending, finding := ResumeStages(plan);
      } else {
        ending, finding := RunPipeline(plan, adopted);
      }
    }

    /** An adopted identity with an L5-a Job has L4 behind it. */
    method ResumeStages(plan: Plan) returns (ending: Ending, finding: Finding)
      requires Ready() && Held() && !lost && Under(false) && plan.runL5a && vaultClient && pc == P.Adopted(executionId)
      modifies store, this`lost, this`beats, this`postsAtLoss, this`claimsAtLoss, this`posts, this`claims, this`pc,
        this`crashed, this`run, this`state, api, vault
      ensures Ready() && (lost ==> ending.Stopped?) && (!lost ==> pc.Idle?) && (alone ==> !lost)
      ensures calm ==> Explained(plan, ending, finding)
      ensures calm ==> !finding.NotRetired? && !finding.NoIdentity?
      ensures calm && !ending.Completed? && finding.Rejected? ==> !finding.minted
      ensures calm && old(NoneYet()) ==>
                RecordFitsPlan(ending, plan) && Stages(posts) == Stages(old(posts)) + RecordsOf(ending, plan)
      ensures PS.Continues(run, old(run))
    {
      PS.RunsChain();
      var got := Get(P.L5a(executionId));
      if got.GetError? {
        finding := Unreadable;
        ending := FailWith(plan, finding, TransientInfra, "get adopted L5-a Job");
      } else if got.NotFound? {
        ending, finding := RunPipeline(plan, true);
      } else {
        ending, finding := FinishAfterL4(plan);
      }
    }

    /** L3, L4 and what follows. */
    method RunPipeline(plan: Plan, adopted: bool) returns (ending: Ending, finding: Finding)
      requires Ready() && Held() && !lost && Under(false)
      requires pc == if adopted then P.PollSmoke(plan.runL5a && vaultClient, executionId, false)
                     else P.DryRun(plan.runL5a && vaultClient, executionId)
      modifies store, this`lost, this`beats, this`postsAtLoss, this`claimsAtLoss, this`posts, this`claims, this`pc,
        this`crashed, this`run, this`state, api, vault
      ensures Ready() && (lost ==> ending.Stopped?) && (!lost ==> pc.Idle?) && (alone ==> !lost)
      ensures calm ==> Explained(plan, ending, finding)
      ensures calm ==> !finding.NotRetired? && !finding.NoIdentity?
      ensures calm && !ending.Completed? && finding.Rejected? ==> finding.minted == !adopted
      ensures !vaultClient ==> posts == old(posts) && claims == old(claims)
      ensures calm && vaultClient && old(NoneYet()) ==>
                RecordFitsPlan(ending, plan) && Stages(posts) == Stages(old(posts)) + RecordsOf(ending, plan)
      ensures PS.Continues(run, old(run))
    {
      PS.RunsChain();
      var result := RunL3L4(plan.runL5a && vaultClient, adopted);
      if lost {
        return Stopped, TimedOut(false);
      }
      if result.Failure? {
        finding := result.finding;
        ending := FailWith(plan, finding, result.kind, result.reason);
        return;
      }
      ending, finding := AfterSmokeSuccess(plan);
    }

    method AfterSmokeSuccess(plan: Plan) returns (ending: Ending, finding: Finding)
      requires Ready() && Held() && !lost && pc == P.AfterL4(plan.runL5a && vaultClient, executionId)
      requires Concluded(Success, plan.runL5a && vaultClient)
      modifies store, this`lost, this`beats, this`postsAtLoss, this`claimsAtLoss, this`posts, this`claims, this`pc,
        this`crashed, this`run, this`state, api, vault
      ensures Ready() && (lost ==> ending.Stopped?) && (!lost ==> pc.Idle?) && (alone ==> !lost)
      ensures calm ==> ending.Completed? && Explained(plan, ending, finding)
      ensures calm ==> !finding.NotRetired? && !finding.NoIdentity?
      ensures !vaultClient ==> posts == old(posts) && claims == old(claims)
      ensures calm && vaultClient && old(NoneYet()) ==>
                RecordFitsPlan(ending, plan) && Stages(posts) == Stages(old(posts)) + RecordsOf(ending, plan)
      ensures PS.Continues(run, old(run))
    {
      PS.RunsChain();
      if !plan.runL5a && !plan.runL5b && vaultClient {
        SubmitRecord(L4, true);
        if lost {
          // finishAfterL4 finds the lease lost before it does anything.
          return Stopped, Finding.JobSucceeded;
        }
      }
      ending, finding := FinishAfterL4(plan);
      if !(plan.runL5a && vaultClient) {
        finding := Finding.JobSucceeded;
      }
    }

    /** The terminal record of an attempt whose plan is given. */
    ghost predicate RecordFitsPlan(ending: Ending, plan: Plan)
      reads store, this`posts
    {
      && RecordFits(ending) && (ending.Completed? ==> OneAt(LastStage(plan)))
      && (ending.FailedAt? ==> ending.stage.L3? || ending.stage.L4?)
    }

    /** Establish the identity and run the stages under it. */
    method EstablishAndRun(plan: Plan) returns (ending: Ending, finding: Finding)
      requires Ready() && Held() && !lost && l5aFollows == (plan.runL5a && vaultClient)
      requires pc == P.Retiring(l5aFollows, {}) || pc == P.Leased(l5aFollows)
      requires alone && pc.Leased? ==> store.rows[job].execution.id != ""
      modifies store, this`lost, this`beats, this`postsAtLoss, this`claimsAtLoss, this`posts, this`claims, this`pc,
        this`executionId, this`crashed, this`run, this`state, api, vault
      ensures Ready() && (lost ==> ending.Stopped?) && (!lost ==> pc.Idle?) && (alone ==> !lost)
      ensures calm ==> Explained(plan, ending, finding)
      ensures calm && !ending.Completed? && finding.Rejected? ==> finding.minted == !Adoptable(old(store.rows)[job])
      ensures calm && (finding.NotRetired? || finding.NoIdentity?) ==> Exec() == old(Exec())
      ensures !vaultClient ==> posts == old(posts) && claims == old(claims)
      ensures calm && vaultClient && old(NoneYet()) ==>
                RecordFitsPlan(ending, plan) && Stages(posts) == Stages(old(posts)) + RecordsOf(ending, plan)
      ensures PS.Continues(run, old(run))
    {
      PS.RunsChain();
      ListEnds();
      var ok, adopted := Identify();
      if ok {
        ending, finding := RunStages(plan, adopted);
      } else {
        finding := NoIdentity;
        ending := FailWith(plan, finding, TransientInfra, "establish the execution identity");
      }
    }

    /** process, from a valid plan on. */
    method ProcessPlan(plan: Plan) returns (ending: Ending, finding: Finding)
      requires Ready() && Held() && !lost && pc == P.Idle && l5aFollows == (plan.runL5a && vaultClient)
      requires alone ==> executionId == store.rows[job].execution.id
      modifies store, this`lost, this`beats, this`postsAtLoss, this`claimsAtLoss, this`posts, this`claims, this`pc,
        this`executionId, this`crashed, this`run, this`state, api, vault
      ensures Ready() && (lost ==> ending.Stopped?) && (!lost ==> pc.Idle?) && (alone ==> !lost)
      ensures calm ==> Explained(plan, ending, finding)
      ensures calm && !ending.Completed? && finding.Rejected? ==> finding.minted == !Adoptable(old(store.rows)[job])
      ensures calm && (finding.NotRetired? || finding.NoIdentity?) ==> Exec() == old(Exec())
      ensures !vaultClient ==> posts == old(posts) && claims == old(claims)
      ensures calm && vaultClient && old(NoneYet()) ==>
                RecordFitsPlan(ending, plan) && Stages(posts) == Stages(old(posts)) + RecordsOf(ending, plan)
      ensures PS.Continues(run, old(run))
    {
      PS.RunsChain();
      Begins();
      if executionId == "" {
        var retired := RetireLegacy();
        if !retired && lost {
          return Stopped, NotRetired;
        }
        if !retired {
          finding := NotRetired;
          ending := FailWith(plan, finding, TransientInfra, "retire legacy execution");
          return;
        }
      }
      ending, finding := EstablishAndRun(plan);
    }

    /** The slot bounds the terminal records: none without having won it, and it is won once. */
    lemma SlotBoundsRecords()
      requires Ready() && claimsAnswered && job in After(start)
      ensures |Terminals(posts)| <= 1
      ensures var slot := After(start)[job].slot;
              slot.claimed && slot != Slot(true, worker, attempt) ==> Terminals(posts) == []
    {
      assert OpenPlace(0);
      EarlierIsLegal(store.history, start);
      SlotIsWonOnce(store.history, job);
      SlotIsWonOnce(start, job);
      if After(start)[job].slot.claimed {
        SlotStays(store.history, start, job);
      }
      WinsAmongAreWins(store.history, job, Me());
    }

    lemma Starts()
      requires Ready() && start == store.history
      ensures job in After(start) && After(start)[job] == store.rows[job]
    {
      assert OpenPlace(0);
    }

    lemma Ends()
      requires Ready() && job in After(start)
      ensures alone ==> Simulates()
      ensures lost ==> |posts| == postsAtLoss && claims == claimsAtLoss
      ensures claimsAnswered ==> |Terminals(posts)| <= 1
      ensures var slot := After(start)[job].slot;
              claimsAnswered && slot.claimed && slot != Slot(true, worker, attempt) ==> Terminals(posts) == []
    {
      assert OpenPlace(0) && OpenRun(0);
      if claimsAnswered {
        SlotBoundsRecords();
      }
    }

    /** What follows from single answers. An identity whose Job ended or is gone is released and cannot be adopted
        again; one whose Job could not be read or was not seen gone is kept. Infrastructure trouble requeues until the
        attempts are used up. */
    lemma SingleAnswers(plan: Plan, ending: Ending, finding: Finding)
      requires calm && Explained(plan, ending, finding)
      ensures Told(run) == Some(P.Get(P.FailedCondition)) || Told(run) == Some(P.Get(P.CompleteCondition)) ==>
                Exec().terminal && !Adoptable(store.rows[job])
      ensures Told(run) == Some(P.Gone(true)) && !finding.NotRetired? ==> Exec().terminal && !Adoptable(store.rows[job])
      ensures Told(run) == Some(P.Get(P.GetError)) ==> !Exec().terminal
      ensures Told(run) == Some(P.Gone(false)) && !finding.NotRetired? ==> !Exec().terminal
      ensures Told(run) == Some(P.Get(P.CompleteCondition)) ==> ending.Completed?
      ensures finding.JobVanished? ==>
                && Told(run) == Some(P.Get(P.NotFound)) && Exec().terminal && !Adoptable(store.rows[job])
                && ending == if Requeued(Unknown, attempt, lastError, maxAttempts) then RequeuedAt(L4) else FailedAt(L4)
      ensures !ending.Completed? && Told(run) == Some(P.Get(P.FailedCondition)) ==>
                ending == if Requeued(around.pods, attempt, lastError, maxAttempts) then RequeuedAt(L4)
                          else FailedAt(L4)
      ensures around.deadline && !ending.Completed? && finding.TimedOut? ==>
                ending == if attempt < maxAttempts then RequeuedAt(L4) else FailedAt(L4)
      ensures !ending.Completed? && Told(run) == Some(P.DryRunAnswer(false)) ==>
                Exec().terminal && ending == if attempt < maxAttempts then RequeuedAt(L3) else FailedAt(L3)
      ensures !ending.Completed? && Told(run) == Some(P.Create(P.Rejected)) ==>
                && finding.Rejected? && Exec().terminal == finding.minted
                && ending == if attempt < maxAttempts then RequeuedAt(L4) else FailedAt(L4)
      ensures !ending.Completed? && Told(run) == Some(P.Get(P.GetError)) ==>
                ending == if attempt < maxAttempts then RequeuedAt(L4) else FailedAt(L4)
      ensures Told(run) == Some(P.List(false)) ==>
                finding.NotRetired? && ending == if attempt < maxAttempts then RequeuedAt(L3) else FailedAt(L3)
    {
    }

    /** process.
        A calm attempt, with or without a vault client, requeues, fails or completes the job, and what it heard last
        explains which, and whether the identity is released (Explained; the clauses below it spell out what follows
        from single answers). With a vault client and a free slot it sends exactly the records of its ending: a
        requeue one non-terminal record, with no terminal record begun and the slot still free; a finish exactly one
        terminal record, at the failing stage or at the plan's last stage, accepted or stored with exactly its payload.
        Without a vault client nothing is sent.
        In any run, nothing is posted and no slot is claimed after a confirmed lease loss. As long as slot claims are
        answered, an attempt that finds the slot claimed by another one begins no terminal record, and no attempt begins
        two. */
    method Process(actions: seq<string>) returns (ending: Ending, finding: Finding)
      requires Ready() && Held() && !lost && pc == P.Idle && posts == [] && claims == 0 && start == store.history
      requires job in store.rows && executionId == store.rows[job].execution.id
      requires PlanFor(actions).Some? ==> l5aFollows == (PlanFor(actions).value.runL5a && vaultClient)
      modifies store, this`lost, this`beats, this`postsAtLoss, this`claimsAtLoss, this`posts, this`claims, this`pc,
        this`executionId, this`crashed, this`run, this`state, api, vault
      ensures Ready() && (!lost ==> pc.Idle?) && (alone ==> !lost) && (alone ==> Simulates())
      ensures lost ==> ending.Stopped? && |posts| == postsAtLoss && claims == claimsAtLoss
      ensures calm && PlanFor(actions).None? ==> ending == FailedAt(L3) && StatusFits(ending) && Exec() == old(Exec())
      ensures calm && PlanFor(actions).Some? ==> Explained(PlanFor(actions).value, ending, finding)
      ensures calm && PlanFor(actions).Some? && (finding.NotRetired? || finding.NoIdentity?) ==> Exec() == old(Exec())
      ensures calm && PlanFor(actions).Some? ==>
                (Told(run) == Some(P.Get(P.FailedCondition)) || Told(run) == Some(P.Get(P.CompleteCondition)) ==>
                   Exec().terminal && !Adoptable(store.rows[job]))
      ensures calm && PlanFor(actions).Some? && Told(run) == Some(P.Get(P.CompleteCondition)) ==> ending.Completed?
      ensures calm && PlanFor(actions).Some? && finding.JobVanished? ==>
                && Told(run) == Some(P.Get(P.NotFound)) && Exec().terminal && !Adoptable(store.rows[job])
                && ending == if Requeued(Unknown, attempt, lastError, maxAttempts) then RequeuedAt(L4) else FailedAt(L4)
      ensures calm && PlanFor(actions).Some? && !finding.NotRetired? ==>
                && (Told(run) == Some(P.Gone(true)) ==> Exec().terminal && !Adoptable(store.rows[job]))
                && (Told(run) == Some(P.Gone(false)) || Told(run) == Some(P.Get(P.GetError)) ==> !Exec().terminal)
      ensures calm && PlanFor(actions).Some? && !ending.Completed? && Told(run) == Some(P.Get(P.FailedCondition)) ==>
                ending == if Requeued(around.pods, attempt, lastError, maxAttempts) then RequeuedAt(L4)
                          else FailedAt(L4)
      ensures calm && PlanFor(actions).Some? && !ending.Completed? && finding.TimedOut? && around.deadline ==>
                ending == if attempt < maxAttempts then RequeuedAt(L4) else FailedAt(L4)
      ensures calm && PlanFor(actions).Some? && !ending.Completed? && Told(run) == Some(P.DryRunAnswer(false)) ==>
                Exec().terminal && ending == if attempt < maxAttempts then RequeuedAt(L3) else FailedAt(L3)
      ensures calm && PlanFor(actions).Some? && !ending.Completed? && Told(run) == Some(P.Create(P.Rejected)) ==>
                && Exec().terminal == !Adoptable(old(store.rows)[job])
                && ending == if attempt < maxAttempts then RequeuedAt(L4) else FailedAt(L4)
      ensures calm && PlanFor(actions).Some? && !ending.Completed? && Told(run) == Some(P.Get(P.GetError)) ==>
                ending == if attempt < maxAttempts then RequeuedAt(L4) else FailedAt(L4)
      ensures calm && PlanFor(actions).Some? && Told(run) == Some(P.List(false)) ==>
                Exec() == old(Exec()) && ending == if attempt < maxAttempts then RequeuedAt(L3) else FailedAt(L3)
      ensures vaultClient && calm && old(NoneYet()) && PlanFor(actions).None? ==>
                RecordFits(ending) && Stages(posts) == [(L3, true)]
      ensures vaultClient && calm && old(NoneYet()) && PlanFor(actions).Some? ==>
                && RecordFitsPlan(ending, PlanFor(actions).value)
                && Stages(posts) == RecordsOf(ending, PlanFor(actions).value)
      ensures !vaultClient ==> posts == [] && claims == 0
      ensures claimsAnswered ==> |Terminals(posts)| <= 1
      ensures claimsAnswered && old(SlotNow()).claimed && old(SlotNow()) != Slot(true, worker, attempt) ==>
                Terminals(posts) == []
      ensures PS.Continues(run, old(run))
    {
      Starts();
      var plan := PlanStages(actions);
      if plan.None? {
        finding := NotRetired;
        ending := FailAt(L3, Deterministic, "invalid requested_actions");
      } else {
        ending, finding := ProcessPlan(plan.value);
        if calm {
          SingleAnswers(plan.value, ending, finding);
        }
      }
      Ends();
    }
  }
}
