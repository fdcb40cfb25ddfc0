/** Each hypothesis of the protocol is needed: without any one of them some run starts a Job beside an
    unfinished one. */
module ProtocolHypotheses {
  import opened Values
  import opened Protocol
  import opened ProtocolSafety

  /** A possible run whose last step starts a Job beside an unfinished one. */
  ghost predicate Overlap(h: Hypotheses, follows: bool, r: Run) {
    Possible(h, follows, r) && r.Then? && !StartsAlone(At(h, follows, r.prev), At(h, follows, r))
  }

  ghost predicate CanOverlap(h: Hypotheses) {
    exists follows, r :: Overlap(h, follows, r)
  }

  // ---------- runs inside any set that is closed under steps ----------

  predicate StepsTo(h: Hypotheses, follows: bool, s: State, a: Action, t: State) {
    Can(h, follows, s, a) && Step(h, follows, s, a) == t
  }

  ghost predicate Closed(h: Hypotheses, follows: bool, reached: State -> bool) {
    && (forall s :: Initial(s) ==> reached(s))
    && (forall s, a, t :: reached(s) && StepsTo(h, follows, s, a, t) ==> reached(t))
  }

  lemma Go(h: Hypotheses, follows: bool, reached: State -> bool, s: State, a: Action, t: State)
    requires Closed(h, follows, reached) && reached(s) && StepsTo(h, follows, s, a, t)
    ensures reached(t)
  {
  }

  /** From `s` the action `a` starts Job `n` beside the unfinished `m`. */
  predicate Collides(h: Hypotheses, follows: bool, s: State, a: Action, n: Name, m: Name) {
    Can(h, follows, s, a) && n !in s.jobs && n in Step(h, follows, s, a).jobs && Executing(s, m)
  }

  ghost predicate CollidesIn(h: Hypotheses, follows: bool, reached: State -> bool) {
    exists s, a, n, m :: reached(s) && Collides(h, follows, s, a, n, m)
  }

  ghost predicate Reachable(h: Hypotheses, follows: bool, s: State) {
    exists r :: Possible(h, follows, r) && At(h, follows, r) == s
  }

  lemma ReachableIsClosed(h: Hypotheses, follows: bool, s: State, a: Action, t: State)
    requires Reachable(h, follows, s) && StepsTo(h, follows, s, a, t)
    ensures Reachable(h, follows, t)
  {
    var r :| Possible(h, follows, r) && At(h, follows, r) == s;
    assert Possible(h, follows, Then(r, a)) && At(h, follows, Then(r, a)) == t;
  }

  lemma CollisionIsOverlap(h: Hypotheses, follows: bool, s: State, a: Action, n: Name, m: Name)
    requires Reachable(h, follows, s) && Collides(h, follows, s, a, n, m)
    ensures CanOverlap(h)
  {
    var r :| Possible(h, follows, r) && At(h, follows, r) == s;
    assert Overlap(h, follows, Then(r, a));
  }

  // ---------- the runs ----------

  const X1: Id := "x1"
  const X2: Id := "x2"

  /** A row on identity `id`, with these Jobs, this attempt and these Creates in flight. */
  function Row1(id: Id, terminal: bool, jobs: Cluster, pc: Pc, late: set<Name>): State {
    State(Some(id), terminal, false, jobs, pc, if id == X1 then {X1} else {X1, X2}, late)
  }

  const SMOKE_RUNS: Cluster := map[Smoke(X1) := Unfinished]
  const SMOKE_ENDED: Cluster := map[Smoke(X1) := Ended]
  const L5A_RUNS: Cluster := map[L5a(X1) := Unfinished]

  lemma NothingToRetire(h: Hypotheses, follows: bool, reached: State -> bool, s: State)
    requires Closed(h, follows, reached) && s == State(None, false, false, map[], Idle, {}, {})
    ensures reached(s.(pc := Identify(follows)))
  {
    Go(h, follows, reached, s, Lease(follows), s.(pc := Leased(follows)));
    assert LegacyJobs(s.jobs) == {};
    Go(h, follows, reached, s.(pc := Leased(follows)), List(true), s.(pc := Retiring(follows, {})));
    Go(h, follows, reached, s.(pc := Retiring(follows, {})), ListDone, s.(pc := Identify(follows)));
  }

  /** The first attempt, up to its Create of the smoke-run Job. */
  lemma FirstAttempt(h: Hypotheses, follows: bool, reached: State -> bool)
    requires Closed(h, follows, reached)
    ensures reached(Row1(X1, false, map[], CreateSmoke(follows, X1, true), {}))
  {
    var s := State(None, false, false, map[], Idle, {}, {});
    var t := Row1(X1, false, map[], DryRun(follows, X1), {});
    NothingToRetire(h, follows, reached, s);
    Go(h, follows, reached, s.(pc := Identify(follows)), Ensure(X1, true, true), t);
    Go(h, follows, reached, t, DryRunAnswer(true), t.(pc := CreateSmoke(follows, X1, true)));
  }

  /** A later attempt, up to EnsureExecution. */
  lemma LaterAttempt(h: Hypotheses, follows: bool, f: bool, reached: State -> bool, s: State)
    requires Closed(h, follows, reached) && reached(s)
    requires s.identity.Some? && s.pc.Idle? && !s.done && (h.sameClient ==> f == follows)
    ensures reached(s.(pc := Identify(f)))
  {
    Go(h, follows, reached, s, Lease(f), s.(pc := Leased(f)));
    Go(h, follows, reached, s.(pc := Leased(f)), ListDone, s.(pc := Identify(f)));
  }

  /** From x1's Create, its smoke-run Job is started and ends. */
  lemma SmokeRuns(h: Hypotheses, follows: bool, minted: bool, late: set<Name>, reached: State -> bool)
    requires Closed(h, follows, reached) && reached(Row1(X1, false, map[], CreateSmoke(follows, X1, minted), late))
    ensures reached(Row1(X1, false, SMOKE_ENDED, PollSmoke(follows, X1, true), late))
  {
    var t := Row1(X1, false, SMOKE_RUNS, PollSmoke(follows, X1, true), late);
    Go(h, follows, reached, Row1(X1, false, map[], CreateSmoke(follows, X1, minted), late), Create(Created), t);
    Go(h, follows, reached, t, JobEnds(Smoke(X1)), t.(jobs := SMOKE_ENDED));
  }

  /** Its failure is observed, x1 is released and the Job reaped. */
  lemma SmokeFails(h: Hypotheses, late: set<Name>, reached: State -> bool)
    requires Closed(h, false, reached) && reached(Row1(X1, false, SMOKE_ENDED, PollSmoke(false, X1, true), late))
    ensures reached(Row1(X1, true, map[], Idle, late))
  {
    var s := Row1(X1, false, SMOKE_ENDED, PollSmoke(false, X1, true), late);
    var t := Row1(X1, true, SMOKE_ENDED, Failing, late);
    Go(h, false, reached, s, Get(FailedCondition), s.(pc := Release(X1, Failing)));
    Go(h, false, reached, s.(pc := Release(X1, Failing)), Report(true), t);
    Go(h, false, reached, t, Outcome(false), t.(pc := Idle));
    assert SMOKE_ENDED - {Smoke(X1)} == map[];
    Go(h, false, reached, t.(pc := Idle), JobVanishes(Smoke(X1)), t.(pc := Idle, jobs := map[]));
  }

  /** After x1 was released, an attempt mints x2 and reaches its Create. */
  lemma NextIdentity(h: Hypotheses, follows: bool, jobs: Cluster, late: set<Name>, reached: State -> bool)
    requires Closed(h, follows, reached) && reached(Row1(X1, true, jobs, Idle, late))
    ensures reached(Row1(X2, false, jobs, CreateSmoke(follows, X2, true), late))
  {
    var s := Row1(X1, true, jobs, Idle, late);
    var t := Row1(X2, false, jobs, DryRun(follows, X2), late);
    LaterAttempt(h, follows, follows, reached, s);
    assert {X1} + {X2} == {X1, X2};
    Go(h, follows, reached, s.(pc := Identify(follows)), Ensure(X2, true, true), t);
    Go(h, follows, reached, t, DryRunAnswer(true), t.(pc := CreateSmoke(follows, X2, true)));
  }

  /** With a Create of x1 still in flight, an attempt adopts x1, runs it to its end and releases it, x2 is
      started, and then the old Create lands. */
  lemma LateCreateCollides(h: Hypotheses, reached: State -> bool)
    requires Closed(h, false, reached) && reached(Row1(X1, false, map[], Idle, {Smoke(X1)}))
    ensures CollidesIn(h, false, reached)
  {
    var late := {Smoke(X1)};
    var s := Row1(X1, false, map[], Idle, late);
    LaterAttempt(h, false, false, reached, s);
    Go(h, false, reached, s.(pc := Identify(false)), Ensure(X2, true, true), s.(pc := PollSmoke(false, X1, false)));
    Go(h, false, reached, s.(pc := PollSmoke(false, X1, false)), Get(NotFound),
       s.(pc := CreateSmoke(false, X1, false)));
    SmokeRuns(h, false, false, late, reached);
    SmokeFails(h, late, reached);
    NextIdentity(h, false, map[], late, reached);
    var t := Row1(X2, false, map[Smoke(X2) := Unfinished], PollSmoke(false, X2, true), late);
    Go(h, false, reached, Row1(X2, false, map[], CreateSmoke(false, X2, true), late), Create(Created), t);
    assert Collides(h, false, t, LateCreate(Smoke(X1)), Smoke(X1), Smoke(X2));
  }

  lemma StalledAttemptCollides(h: Hypotheses, reached: State -> bool)
    requires !h.oneLiveAttempt && Closed(h, false, reached)
    ensures CollidesIn(h, false, reached)
  {
    FirstAttempt(h, false, reached);
    var s := Row1(X1, false, map[], CreateSmoke(false, X1, true), {});
    Go(h, false, reached, s, Stall, s.(pc := Idle, inFlight := {Smoke(X1)}));
    LateCreateCollides(h, reached);
  }

  lemma UnsettledCreateCollides(h: Hypotheses, reached: State -> bool)
    requires !h.settledCreates && Closed(h, false, reached)
    ensures CollidesIn(h, false, reached)
  {
    FirstAttempt(h, false, reached);
    var s := Row1(X1, false, map[], CreateSmoke(false, X1, true), {});
    var t := Row1(X1, false, map[], LookupSmoke(false, X1), {Smoke(X1)});
    Go(h, false, reached, s, Create(Ambiguous(false)), t);
    Go(h, false, reached, t, Get(NotFound), t.(pc := Failing));
    Go(h, false, reached, t.(pc := Failing), Outcome(false), t.(pc := Idle));
    LateCreateCollides(h, reached);
  }

  /** The first attempt dies while its L5-a Job runs. */
  lemma DiedInL5a(h: Hypotheses, reached: State -> bool)
    requires Closed(h, true, reached)
    ensures reached(Row1(X1, false, L5A_RUNS, Idle, {}))
  {
    FirstAttempt(h, true, reached);
    SmokeRuns(h, true, true, {}, reached);
    var s := Row1(X1, false, SMOKE_ENDED, PollSmoke(true, X1, true), {});
    var t := s.(pc := CreateL5a(X1), jobs := map[]);
    var u := s.(pc := WaitL5a(X1), jobs := L5A_RUNS);
    Go(h, true, reached, s, Get(CompleteCondition), s.(pc := AfterL4(true, X1)));
    Go(h, true, reached, s.(pc := AfterL4(true, X1)), EndL4, s.(pc := CreateL5a(X1)));
    assert SMOKE_ENDED - {Smoke(X1)} == map[];
    Go(h, true, reached, s.(pc := CreateL5a(X1)), JobVanishes(Smoke(X1)), t);
    Go(h, true, reached, t, Create(Created), u);
    Go(h, true, reached, u, Crash, u.(pc := Idle));
  }

  /** The next attempt adopts x1, is refused its Create although the Job runs, releases x1 and dies. */
  lemma FalseRejectionCollides(h: Hypotheses, reached: State -> bool)
    requires !h.honestRejections && Closed(h, true, reached)
    ensures CollidesIn(h, true, reached)
  {
    DiedInL5a(h, reached);
    var s := Row1(X1, false, L5A_RUNS, Idle, {});
    LaterAttempt(h, true, true, reached, s);
    Go(h, true, reached, s.(pc := Identify(true)), Ensure(X2, true, true), s.(pc := Adopted(X1)));
    Go(h, true, reached, s.(pc := Adopted(X1)), Get(NoCondition), s.(pc := AfterL4(true, X1)));
    Go(h, true, reached, s.(pc := AfterL4(true, X1)), EndL4, s.(pc := CreateL5a(X1)));
    Go(h, true, reached, s.(pc := CreateL5a(X1)), Create(Rejected), s.(pc := Release(X1, Completing)));
    Go(h, true, reached, s.(pc := Release(X1, Completing)), Report(true), s.(pc := Completing, terminal := true));
    Go(h, true, reached, s.(pc := Completing, terminal := true), Crash, s.(pc := Idle, terminal := true));
    NextIdentity(h, true, L5A_RUNS, {}, reached);
    assert Collides(h, true, Row1(X2, false, L5A_RUNS, CreateSmoke(true, X2, true), {}),
                    Create(Created), Smoke(X2), L5a(X1));
  }

  /** The next attempt has no vault client, does not look for the L5-a Job, and repeats L4 beside it. */
  lemma ChangedClientCollides(h: Hypotheses, reached: State -> bool)
    requires !h.sameClient && Closed(h, true, reached)
    ensures CollidesIn(h, true, reached)
  {
    DiedInL5a(h, reached);
    var s := Row1(X1, false, L5A_RUNS, Idle, {});
    LaterAttempt(h, true, false, reached, s);
    Go(h, true, reached, s.(pc := Identify(false)), Ensure(X2, true, true), s.(pc := PollSmoke(false, X1, false)));
    Go(h, true, reached, s.(pc := PollSmoke(false, X1, false)), Get(NotFound), s.(pc := CreateSmoke(false, X1, false)));
    assert Collides(h, true, s.(pc := CreateSmoke(false, X1, false)), Create(Created), Smoke(X1), L5a(X1));
  }

  // ---------- the theorem ----------

  lemma MissingHypothesisCollides(h: Hypotheses, follows: bool, reached: State -> bool)
    requires Closed(h, follows, reached) && h != ALL_HYPOTHESES
    requires follows <==> h.oneLiveAttempt && h.settledCreates
    ensures CollidesIn(h, follows, reached)
  {
    if !h.oneLiveAttempt {
      StalledAttemptCollides(h, reached);
    } else if !h.settledCreates {
      UnsettledCreateCollides(h, reached);
    } else if !h.honestRejections {
      FalseRejectionCollides(h, reached);
    } else {
      ChangedClientCollides(h, reached);
    }
  }

  /** Executions of one logical job never overlap exactly under all four hypotheses. */
  lemma HypothesesAreExact(h: Hypotheses)
    ensures CanOverlap(h) <==> h != ALL_HYPOTHESES
  {
    if h == ALL_HYPOTHESES {
      if CanOverlap(h) {
        var follows, r :| Overlap(h, follows, r);
        EveryStepIsSafe(follows, r);
      }
    } else {
      MissingHypothesisOverlaps(h);
    }
  }

  lemma MissingHypothesisOverlaps(h: Hypotheses)
    requires h != ALL_HYPOTHESES
    ensures CanOverlap(h)
  {
    var follows := h.oneLiveAttempt && h.settledCreates;
    ghost var reached: State -> bool := s => Reachable(h, follows, s);
    forall s | Initial(s) ensures reached(s) {
      assert Possible(h, follows, Begin(s)) && At(h, follows, Begin(s)) == s;
    }
    forall s, a, t | reached(s) && StepsTo(h, follows, s, a, t) ensures reached(t) {
      ReachableIsClosed(h, follows, s, a, t);
    }
    MissingHypothesisCollides(h, follows, reached);
    var s, a, n, m :| reached(s) && Collides(h, follows, s, a, n, m);
    CollisionIsOverlap(h, follows, s, a, n, m);
  }
}
