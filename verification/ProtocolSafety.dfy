/** At most one execution at a time, over every run of the protocol with crashes at any point. */
module ProtocolSafety {
  import opened Values
  import opened Protocol

  // ---------- the invariant ----------

  /** An identity that can run nothing any more: replaced, or released. */
  predicate Spent(s: State, x: Id) {
    s.identity != Some(x) || s.terminal
  }

  /** The Jobs in the cluster against the row. */
  ghost predicate JobsFitTheRow(follows: bool, s: State) {
    && (s.identity.None? ==> s.minted == {} && !s.terminal)
    && (s.identity.Some? ==> s.identity.value in s.minted)
    && (forall n :: n in s.jobs ==>
          match n
          case Legacy(_) => s.identity.None?
          case Smoke(x) => x in s.minted && (Executing(s, n) ==> !Spent(s, x))
          case L5a(x) => follows && x in s.minted && (Executing(s, n) ==> !Spent(s, x)))
    && (forall x :: L5a(x) in s.jobs ==> !Executing(s, Smoke(x)))
  }

  /** A live attempt on its own, unreleased identity. */
  predicate On(s: State, x: Id) {
    s.identity == Some(x) && !s.terminal
  }

  /** Inside L4: the identity's L5-a Job does not exist. */
  predicate InL4(s: State, x: Id) {
    On(s, x) && L5a(x) !in s.jobs
  }

  /** Inside L5-a: the identity's smoke-run has ended. */
  predicate InL5a(follows: bool, s: State, x: Id) {
    On(s, x) && follows && !Executing(s, Smoke(x))
  }

  /** Nothing runs under the identity. */
  predicate Idles(s: State, x: Id) {
    s.identity == Some(x) && !Executing(s, Smoke(x)) && !Executing(s, L5a(x))
  }

  /** What the attempt's program counter says. */
  ghost predicate PcFits(follows: bool, s: State) {
    match s.pc
    case Idle => true
    case Leased(f) => f == follows
    case Retiring(f, todo) => f == follows && (s.identity.None? ==> LegacyJobs(s.jobs) <= todo)
    case Deleting(f, todo, n) => f == follows && (s.identity.None? ==> LegacyJobs(s.jobs) <= todo + {n})
    case Identify(f) => f == follows && (s.identity.None? ==> LegacyJobs(s.jobs) == {})
    case Adopted(x) => follows && On(s, x)
    case DryRun(f, x) => f == follows && InL4(s, x) && Smoke(x) !in s.jobs
    case CreateSmoke(f, x, minted) => f == follows && InL4(s, x) && (minted ==> Smoke(x) !in s.jobs)
    case LookupSmoke(f, x) => f == follows && InL4(s, x)
    case PollSmoke(f, x, _) => f == follows && InL4(s, x)
    case DropSmoke(f, x) => f == follows && InL4(s, x)
    case Release(x, next) =>
      && Idles(s, x)
      && (next.Failing? || next.Completing? || (next.AfterL4? && !next.follows && !follows && next.x == x))
    case AfterL4(f, x) => f == follows && (f ==> InL5a(follows, s, x))
    case CreateL5a(x) => InL5a(follows, s, x)
    case Reconcile(x, _) => InL5a(follows, s, x)
    case WaitL5a(x) => InL5a(follows, s, x)
    case DropL5a(x) => InL5a(follows, s, x)
    case Failing => true
    case Completing => true
  }

  ghost predicate Invariant(follows: bool, s: State) {
    JobsFitTheRow(follows, s) && PcFits(follows, s) && s.inFlight == {}
  }

  // ---------- every step keeps it ----------

  lemma ClusterStepKeepsInvariant(h: Hypotheses, follows: bool, s: State, a: Action)
    requires h == ALL_HYPOTHESES && Invariant(follows, s) && Can(h, follows, s, a)
    requires a.Crash? || a.JobEnds? || a.JobVanishes?
    ensures Invariant(follows, Step(h, follows, s, a))
  {
    var t := Step(h, follows, s, a);
    assert forall n :: n in t.jobs ==> n in s.jobs;
    assert forall n :: Executing(t, n) ==> Executing(s, n);
    assert LegacyJobs(t.jobs) <= LegacyJobs(s.jobs);
  }

  /** Where a Create is issued, every other Job has ended. */
  lemma CreateIsAlone(follows: bool, s: State)
    requires Invariant(follows, s) && (s.pc.CreateSmoke? || s.pc.CreateL5a? || s.pc.Reconcile?)
    ensures forall n :: n in s.jobs && n != Subject(s.pc).value ==> s.jobs[n].Ended?
  {
  }

  /** Adding the identity's next Job, where every other one has ended, keeps the cluster in order. */
  lemma NewJobFits(follows: bool, s: State, x: Id, n: Name)
    requires JobsFitTheRow(follows, s) && On(s, x)
    requires (n == Smoke(x) && L5a(x) !in s.jobs) || (follows && n == L5a(x) && !Executing(s, Smoke(x)))
    ensures JobsFitTheRow(follows, s.(jobs := s.jobs[n := Unfinished]))
  {
  }

  lemma CreateKeepsJobs(follows: bool, s: State, answer: CreateAnswer)
    requires Invariant(follows, s) && (s.pc.CreateSmoke? || s.pc.CreateL5a? || s.pc.Reconcile?)
    ensures JobsFitTheRow(follows, AfterCreate(ALL_HYPOTHESES, s, Subject(s.pc).value, answer))
  {
    NewJobFits(follows, s, s.pc.x, Subject(s.pc).value);
  }

  lemma CreateKeepsPc(follows: bool, s: State, answer: CreateAnswer)
    requires Invariant(follows, s)
    requires s.pc.CreateSmoke? || s.pc.CreateL5a? || (s.pc.Reconcile? && s.pc.left > 0)
    requires CreatePossible(ALL_HYPOTHESES, s.jobs, Subject(s.pc).value, answer)
    ensures PcFits(follows, AfterCreate(ALL_HYPOTHESES, s, Subject(s.pc).value, answer).(
                     pc := AfterCreateAnswer(s.pc, answer)))
  {
  }

  lemma CreateKeepsInvariant(h: Hypotheses, follows: bool, s: State, a: Action)
    requires h == ALL_HYPOTHESES && Invariant(follows, s) && Can(h, follows, s, a) && a.Create?
    ensures Invariant(follows, Step(h, follows, s, a))
  {
    CreateKeepsJobs(follows, s, a.answer);
    CreateKeepsPc(follows, s, a.answer);
  }

  lemma EnsureKeepsInvariant(h: Hypotheses, follows: bool, s: State, a: Action)
    requires h == ALL_HYPOTHESES && Invariant(follows, s) && Can(h, follows, s, a) && a.Ensure?
    ensures Invariant(follows, Step(h, follows, s, a))
  {
    var t := Step(h, follows, s, a);
    assert s.identity.None? ==> forall n :: n in s.jobs ==> n in LegacyJobs(s.jobs);
    assert t.jobs == s.jobs;
  }

  lemma ReportKeepsInvariant(h: Hypotheses, follows: bool, s: State, a: Action)
    requires h == ALL_HYPOTHESES && Invariant(follows, s) && Can(h, follows, s, a) && a.Report?
    ensures Invariant(follows, Step(h, follows, s, a))
  {
  }

  lemma GetKeepsInvariant(h: Hypotheses, follows: bool, s: State, a: Action)
    requires h == ALL_HYPOTHESES && Invariant(follows, s) && Can(h, follows, s, a) && a.Get?
    ensures Invariant(follows, Step(h, follows, s, a))
  {
    assert Step(h, follows, s, a) == s.(pc := AfterGet(s.pc, a.got));
  }

  /** The calls around the identity: lease, retirement of legacy Jobs, deletions. */
  predicate Housekeeping(a: Action) {
    a.Lease? || a.List? || a.NextLegacy? || a.ListDone? || a.Gone?
  }

  lemma HousekeepingKeepsInvariant(h: Hypotheses, follows: bool, s: State, a: Action)
    requires h == ALL_HYPOTHESES && Invariant(follows, s) && Can(h, follows, s, a) && Housekeeping(a)
    ensures Invariant(follows, Step(h, follows, s, a))
  {
    var t := Step(h, follows, s, a);
    assert t == s.(pc := t.pc);
  }

  /** The local moves of an attempt. */
  predicate LocalMove(a: Action) {
    a.DryRunAnswer? || a.ContextDone? || a.EndL4? || a.GiveUp? || a.Outcome?
  }

  lemma LocalMoveKeepsInvariant(h: Hypotheses, follows: bool, s: State, a: Action)
    requires h == ALL_HYPOTHESES && Invariant(follows, s) && Can(h, follows, s, a) && LocalMove(a)
    ensures Invariant(follows, Step(h, follows, s, a))
  {
    var t := Step(h, follows, s, a);
    assert t == s.(pc := t.pc, done := t.done);
  }

  lemma StepKeepsInvariant(follows: bool, s: State, a: Action)
    requires Invariant(follows, s) && Can(ALL_HYPOTHESES, follows, s, a)
    ensures Invariant(follows, Step(ALL_HYPOTHESES, follows, s, a))
  {
    var h := ALL_HYPOTHESES;
    if a.Create? {
      CreateKeepsInvariant(h, follows, s, a);
    } else if a.Ensure? {
      EnsureKeepsInvariant(h, follows, s, a);
    } else if a.Report? {
      ReportKeepsInvariant(h, follows, s, a);
    } else if a.Get? {
      GetKeepsInvariant(h, follows, s, a);
    } else if Housekeeping(a) {
      HousekeepingKeepsInvariant(h, follows, s, a);
    } else if LocalMove(a) {
      LocalMoveKeepsInvariant(h, follows, s, a);
    } else {
      ClusterStepKeepsInvariant(h, follows, s, a);
    }
  }

  lemma {:induction false} ReachableStatesAreSafe(follows: bool, r: Run)
    requires Possible(ALL_HYPOTHESES, follows, r)
    ensures Invariant(follows, At(ALL_HYPOTHESES, follows, r))
  {
    if r.Then? {
      ReachableStatesAreSafe(follows, r.prev);
      StepKeepsInvariant(follows, At(ALL_HYPOTHESES, follows, r.prev), r.a);
    }
  }

  // ---------- the theorems ----------

  lemma StepStartsAlone(follows: bool, s: State, a: Action)
    requires Invariant(follows, s) && Can(ALL_HYPOTHESES, follows, s, a)
    ensures StartsAlone(s, Step(ALL_HYPOTHESES, follows, s, a))
  {
    var t := Step(ALL_HYPOTHESES, follows, s, a);
    if a.Create? {
      CreateIsAlone(follows, s);
      assert forall n :: n in t.jobs && n !in s.jobs ==> n == Subject(s.pc).value;
    } else {
      assert forall n :: n in t.jobs ==> n in s.jobs;
    }
  }

  lemma StepReleasesIdle(follows: bool, s: State, a: Action)
    requires Invariant(follows, s) && Can(ALL_HYPOTHESES, follows, s, a)
    ensures ReleasesIdle(s, Step(ALL_HYPOTHESES, follows, s, a))
  {
    if !a.Report? {
      assert Step(ALL_HYPOTHESES, follows, s, a).terminal ==> s.terminal;
    }
  }

  /** In every run, with crashes at any point, a Job takes effect only while every other Job of the same
      logical job, legacy ones included, has ended; and an identity is released only when nothing under it
      is executing. */
  lemma EveryStepIsSafe(follows: bool, r: Run)
    requires Possible(ALL_HYPOTHESES, follows, r) && r.Then?
    ensures StartsAlone(At(ALL_HYPOTHESES, follows, r.prev), At(ALL_HYPOTHESES, follows, r))
    ensures ReleasesIdle(At(ALL_HYPOTHESES, follows, r.prev), At(ALL_HYPOTHESES, follows, r))
  {
    ReachableStatesAreSafe(follows, r.prev);
    StepStartsAlone(follows, At(ALL_HYPOTHESES, follows, r.prev), r.a);
    StepReleasesIdle(follows, At(ALL_HYPOTHESES, follows, r.prev), r.a);
  }

  /** Once the first identity is minted, at most one Job is ever unfinished. */
  lemma AtMostOneExecution(follows: bool, r: Run, n: Name, m: Name)
    requires Possible(ALL_HYPOTHESES, follows, r)
    requires At(ALL_HYPOTHESES, follows, r).identity.Some?
    requires Executing(At(ALL_HYPOTHESES, follows, r), n) && Executing(At(ALL_HYPOTHESES, follows, r), m)
    ensures n == m
  {
    ReachableStatesAreSafe(follows, r);
  }

  lemma SpentStaysSpent(follows: bool, s: State, a: Action, x: Id)
    requires Can(ALL_HYPOTHESES, follows, s, a) && x in s.minted && Spent(s, x)
    ensures var t := Step(ALL_HYPOTHESES, follows, s, a); x in t.minted && Spent(t, x)
  {
    if !a.Ensure? {
      var t := Step(ALL_HYPOTHESES, follows, s, a);
      assert t.identity == s.identity && (s.terminal ==> t.terminal) && t.minted == s.minted;
    }
  }

  /** `later` continues `r`. */
  predicate Continues(later: Run, r: Run) {
    later == r || (later.Then? && Continues(later.prev, r))
  }

  lemma {:induction false} ContinuesIsTransitive(c: Run, b: Run, a: Run)
    requires Continues(c, b) && Continues(b, a)
    ensures Continues(c, a)
  {
    if c != b {
      ContinuesIsTransitive(c.prev, b, a);
    }
  }

  /** The same for all runs at once. */
  lemma RunsChain()
    ensures forall a, b, c :: Continues(c, b) && Continues(b, a) ==> Continues(c, a)
  {
    forall a, b, c | Continues(c, b) && Continues(b, a) ensures Continues(c, a) {
      ContinuesIsTransitive(c, b, a);
    }
  }

  /** A spent identity stays spent, so nothing ever executes under it again. */
  lemma {:induction false} SpentIdentityNeverRunsAgain(follows: bool, later: Run, r: Run, x: Id)
    requires Possible(ALL_HYPOTHESES, follows, later) && Continues(later, r)
    requires x in At(ALL_HYPOTHESES, follows, r).minted && Spent(At(ALL_HYPOTHESES, follows, r), x)
    ensures var t := At(ALL_HYPOTHESES, follows, later);
            x in t.minted && Spent(t, x) && !Executing(t, Smoke(x)) && !Executing(t, L5a(x))
  {
    ReachableStatesAreSafe(follows, later);
    if later != r {
      SpentIdentityNeverRunsAgain(follows, later.prev, r, x);
      SpentStaysSpent(follows, At(ALL_HYPOTHESES, follows, later.prev), later.a, x);
    }
  }
}
