/** The terminal slot and the delivery ledger over whole runs: ClaimTerminal, the first-delivery marks,
    ClaimPendingDeliveries and the redelivery outcomes. */
module Deliveries {
  import opened Values
  import opened Fingerprint
  import opened Rows
  import opened Histories
  import opened Leases

  predicate FirstMark(e: Event, job: JobId) {
    (e.FirstPending? || e.FirstDeadLetter?) && e.job == job && e.ok
  }

  /** An outcome written under a claim token. */
  predicate Resolution(e: Event) {
    e.RedeliverPending? || e.RedeliverAcknowledged? || e.RedeliverDeadLetter?
  }

  predicate LedgerEvent(e: Event, job: JobId) {
    FirstMark(e, job) || (e.Claim? && job in e.tokens) || (Resolution(e) && e.job == job && e.ok)
  }

  /** The newest event that changed the job's ledger. */
  function LastLedgerEvent(h: History, job: JobId): Option<Event> {
    match h
    case Start => None
    case Then(prev, e) => if LedgerEvent(e, job) then Some(e) else LastLedgerEvent(prev, job)
  }

  /** The documented state graph of work.DeliveryStatus. */
  predicate DocumentedEdge(a: Delivery, b: Delivery) {
    || (a.NotApplicable? && (b.Pending? || b.DeadLetter?))
    || (a.Pending? && b.Delivering?)
    || (a.Delivering? && !b.NotApplicable?)
  }

  /** What the newest ledger event says about the ledger. */
  predicate LedgerMirrors(l: Ledger, job: JobId, last: Option<Event>) {
    match last
    case None => l.state.NotApplicable?
    case Some(e) =>
      match e
      case FirstPending(_, _, _, payload, error, next, _, _) =>
        l.state.Pending? && l.nextAttemptAt == Some(next) && l.payload == payload && l.lastError == error
      case FirstDeadLetter(_, _, _, payload, error, _, _) =>
        l.state.DeadLetter? && l.nextAttemptAt.None? && l.payload == payload && l.lastError == error
      case Claim(_, ttl, now, tokens) =>
        job in tokens && l.state.Delivering? && l.token == tokens[job] && l.claimedUntil == Some(now + ttl)
      case RedeliverPending(_, _, error, next, _, _) =>
        l.state.Pending? && l.nextAttemptAt == Some(next) && l.lastError == error
      case RedeliverAcknowledged(_, _, _, _) =>
        l.state.Acknowledged? && l.nextAttemptAt.None? && l.payload == "" && l.lastError == ""
      case RedeliverDeadLetter(_, _, error, _, _) =>
        l.state.DeadLetter? && l.nextAttemptAt.None? && l.lastError == error
      case _ => false
  }

  lemma {:induction false} UnknownJobHasNoLedgerEvent(h: History, job: JobId)
    requires Legal(h) && job !in After(h)
    ensures LastLedgerEvent(h, job).None?
  {
    if h.Then? {
      UnknownJobHasNoLedgerEvent(h.prev, job);
    }
  }

  lemma {:induction false} LastLedgerEventMirrors(h: History, job: JobId)
    requires Legal(h) && job in After(h)
    ensures LedgerMirrors(After(h)[job].ledger, job, LastLedgerEvent(h, job))
  {
    if h.last.Create? && h.last.created.Inserted? && h.last.job == job {
      UnknownJobHasNoLedgerEvent(h.prev, job);
    } else {
      LastLedgerEventMirrors(h.prev, job);
      MirrorStep(After(h.prev), h.last, job, LastLedgerEvent(h.prev, job));
    }
  }

  lemma MirrorStep(t: Table, e: Event, job: JobId, last: Option<Event>)
    requires Allowed(t, e) && job in t && LedgerMirrors(t[job].ledger, job, last)
    requires !(e.Create? && e.created.Inserted? && e.job == job)
    ensures LedgerMirrors(Next(t, e)[job].ledger, job, if LedgerEvent(e, job) then Some(e) else last)
  {
  }

  /** Only the documented edges are ever taken, by any caller. */
  lemma OnlyDocumentedEdges(h: History, e: Event, job: JobId)
    requires Legal(Then(h, e)) && job in After(h)
    ensures var a, b := After(h)[job].ledger, After(Then(h, e))[job].ledger;
            a == b || DocumentedEdge(a.state, b.state)
  {
    if e.Claim? && job in e.tokens {
      assert job in ClaimableJobs(After(h), e.now);
    }
  }

  /** Acknowledged and DeadLetter are final: no continuation changes any ledger field. */
  lemma {:induction false} ResolvedLedgerIsFinal(later: History, h: History, job: JobId)
    requires Extends(later, h) && Legal(later) && job in After(h)
    requires After(h)[job].ledger.state.Acknowledged? || After(h)[job].ledger.state.DeadLetter?
    ensures job in After(later) && After(later)[job].ledger == After(h)[job].ledger
  {
    if later != h {
      ResolvedLedgerIsFinal(later.prev, h, job);
      OnlyDocumentedEdges(later.prev, later.last, job);
    }
  }

  // ---------- claim tokens ----------

  /** A row's token changes only to a claim's new one, or to none. */
  lemma TokenStep(t: Table, e: Event, job: JobId)
    requires Allowed(t, e) && job in t && Next(t, e)[job].ledger.token != ""
    requires !(e.Create? && e.created.Inserted? && e.job == job)
    ensures if e.Claim? && job in e.tokens then Next(t, e)[job].ledger.token == e.tokens[job]
            else Next(t, e)[job].ledger.token == t[job].ledger.token && !(Resolution(e) && e.ok && e.job == job)
  {
  }

  /** A token in a row was issued by some claim. */
  lemma {:induction false} RowTokensWereIssued(h: History, job: JobId)
    requires Legal(h) && job in After(h) && After(h)[job].ledger.token != ""
    ensures After(h)[job].ledger.token in Issued(h)
  {
    if job in After(h.prev) {
      TokenStep(After(h.prev), h.last, job);
      if h.last.Claim? && job in h.last.tokens {
        assert h.last.tokens[job] in h.last.tokens.Values;
      } else {
        RowTokensWereIssued(h.prev, job);
      }
    }
  }

  /** An outcome is accepted exactly when the newest change of that ledger is the claim that issued its
      token. So an expired-and-reclaimed token, a spent one and a foreign one are all refused. */
  lemma OutcomeNeedsTheNewestClaim(h: History, e: Event)
    requires Legal(Then(h, e)) && Resolution(e)
    ensures e.ok <==>
              && e.job in After(h) && LastLedgerEvent(h, e.job).Some?
              && LastLedgerEvent(h, e.job).value.Claim?
              && e.job in LastLedgerEvent(h, e.job).value.tokens
              && LastLedgerEvent(h, e.job).value.tokens[e.job] == e.token
    ensures !e.ok ==> After(Then(h, e)) == After(h)
  {
    if e.job in After(h) {
      LastLedgerEventMirrors(h, e.job);
      ReachableRowsAreValid(h, e.job);
    }
    if !e.ok {
      UntouchedTable(After(h), e);
    }
  }

  /** How many outcomes were accepted under a token, over all jobs. */
  function Resolved(h: History, token: string): nat {
    match h
    case Start => 0
    case Then(prev, e) => Resolved(prev, token) + if Resolution(e) && e.ok && e.token == token then 1 else 0
  }

  lemma {:induction false} UnissuedTokenIsUnresolved(h: History, token: string)
    requires Legal(h) && token !in Issued(h)
    ensures Resolved(h, token) == 0
  {
    if h.Then? {
      UnissuedTokenIsUnresolved(h.prev, token);
      if Resolution(h.last) && h.last.ok {
        RowTokensWereIssued(h.prev, h.last.job);
      }
    }
  }

  /** A token just issued is in one row only, and nothing was resolved under it. */
  lemma NewTokenIsUnique(h: History, e: Event, job: JobId, other: JobId)
    requires Legal(Then(h, e)) && e.Claim? && job in e.tokens && other in After(h)
    ensures Resolved(h, e.tokens[job]) == 0
    ensures other != job ==> After(Then(h, e))[other].ledger.token != e.tokens[job]
  {
    assert e.tokens[job] in e.tokens.Values;
    UnissuedTokenIsUnresolved(h, e.tokens[job]);
    if After(h)[other].ledger.token != "" {
      RowTokensWereIssued(h, other);
    }
  }

  /** A live token is in one row only, and nothing was resolved under it yet. */
  lemma {:induction false} LiveTokenIsUnique(h: History, job: JobId, other: JobId)
    requires Legal(h) && job in After(h) && After(h)[job].ledger.token != "" && other in After(h)
    ensures Resolved(h, After(h)[job].ledger.token) == 0
    ensures other != job ==> After(h)[other].ledger.token != After(h)[job].ledger.token
    decreases h, 1
  {
    var e := h.last;
    if job in After(h.prev) {
      TokenStep(After(h.prev), e, job);
      if e.Claim? && job in e.tokens {
        NewTokenIsUnique(h.prev, e, job, other);
      } else {
        OldTokenIsUnique(h, job, other);
      }
    }
  }

  /** The row kept its token in the last step. */
  lemma {:induction false} OldTokenIsUnique(h: History, job: JobId, other: JobId)
    requires Legal(h) && h.Then? && job in After(h.prev) && After(h)[job].ledger.token != "" && other in After(h)
    requires After(h)[job].ledger.token == After(h.prev)[job].ledger.token
    requires !(Resolution(h.last) && h.last.ok && h.last.job == job)
    ensures Resolved(h, After(h)[job].ledger.token) == 0
    ensures other != job ==> After(h)[other].ledger.token != After(h)[job].ledger.token
    decreases h, 0
  {
    var e := h.last;
    LiveTokenIsUnique(h.prev, job, if other in After(h.prev) then other else job);
    if Resolution(e) && e.ok {
      LiveTokenIsUnique(h.prev, job, e.job);
    }
    if other in After(h.prev) && After(h)[other].ledger.token != "" {
      TokenStep(After(h.prev), e, other);
      if e.Claim? && other in e.tokens {
        RowTokensWereIssued(h.prev, job);
        assert e.tokens[other] in e.tokens.Values;
      }
    }
  }

  /** Each claim token resolves at most once over the whole run. */
  lemma {:induction false} TokenResolvesAtMostOnce(h: History, token: string)
    requires Legal(h)
    ensures Resolved(h, token) <= 1
  {
    if h.Then? {
      TokenResolvesAtMostOnce(h.prev, token);
      var e := h.last;
      if Resolution(e) && e.ok && e.token == token {
        LiveTokenIsUnique(h.prev, e.job, e.job);
      }
    }
  }

  /** A ledger whose newest event is `last` may be claimed at `now`: that claim has strictly expired, or the
      first mark or the claim's own holder set a retry time that has come. */
  predicate YieldsTo(h: History, last: Event, now: Instant) {
    || (last.Claim? && last.now + last.ttl < now)
    || (last.FirstPending? && last.nextAttemptAt <= now)
    || (last.RedeliverPending? && last.nextAttemptAt <= now && Resolved(h, last.token) == 1)
  }

  /** A delivery claim is replaced only strictly after its expiry, or after its own holder resolved it. */
  lemma ClaimsAreSeparated(h: History, e: Event, job: JobId)
    requires Legal(Then(h, e)) && e.Claim? && job in e.tokens
    ensures LastLedgerEvent(h, job).Some? && YieldsTo(h, LastLedgerEvent(h, job).value, e.now)
  {
    assert job in ClaimableJobs(After(h), e.now);
    LastLedgerEventMirrors(h, job);
    ReachableRowsAreValid(h, job);
    AcceptedOutcomesAreCounted(h, job);
  }

  lemma {:induction false} AcceptedOutcomesAreCounted(h: History, job: JobId)
    requires Legal(h)
    ensures LastLedgerEvent(h, job).Some? && Resolution(LastLedgerEvent(h, job).value) ==>
              Resolved(h, LastLedgerEvent(h, job).value.token) == 1
  {
    if h.Then? {
      AcceptedOutcomesAreCounted(h.prev, job);
      if Resolution(h.last) {
        TokenResolvesAtMostOnce(h, h.last.token);
      }
      if LastLedgerEvent(h, job).Some? && Resolution(LastLedgerEvent(h, job).value) {
        TokenResolvesAtMostOnce(h, LastLedgerEvent(h, job).value.token);
      }
    }
  }

  /** Exactly when ClaimPendingDeliveries may take the row, told from the newest change of its ledger: once a mark's
      retry time has come, or once a claim has strictly expired. */
  lemma ClaimableExactly(h: History, job: JobId, now: Instant)
    requires Legal(h) && job in After(h)
    ensures Claimable(After(h)[job], now) <==>
              match LastLedgerEvent(h, job)
              case None => false
              case Some(e) =>
                match e
                case FirstPending(_, _, _, _, _, next, _, _) => next <= now
                case RedeliverPending(_, _, _, next, _, _) => next <= now
                case Claim(_, ttl, at, _) => at + ttl < now
                case _ => false
  {
    LastLedgerEventMirrors(h, job);
  }

  predicate ClaimableFrom(r: Row, from: Instant, now: Instant) {
    from <= now ==> Claimable(r, now)
  }

  /** Every Pending or Delivering row is claimable at all late enough times; no other row ever is. */
  lemma PendingDeliveriesAreNotStranded(h: History, job: JobId) returns (from: Instant)
    requires Legal(h) && job in After(h)
    ensures var r := After(h)[job];
            if r.ledger.state.Pending? || r.ledger.state.Delivering? then forall now :: ClaimableFrom(r, from, now)
            else forall now :: !Claimable(r, now)
  {
    ReachableRowsAreValid(h, job);
    var l := After(h)[job].ledger;
    from := if l.state.Delivering? then l.claimedUntil.value + 1
            else if l.state.Pending? then l.nextAttemptAt.value else 0;
  }

  // ---------- no delivery is passed over ----------

  /** A batch takes every due row unless its limit binds, then exactly as many as the limit says, and nothing left out
      was written to before anything taken. */
  lemma BatchTakesTheLongestUntouched(h: History, e: Event, id: JobId, other: JobId)
    requires Legal(Then(h, e)) && e.Claim? && id in e.tokens
    requires other in After(h) && Claimable(After(h)[other], e.now) && other !in e.tokens
    ensures LastWrite(h, id).Some? && LastWrite(h, other).Some? && LastWrite(h, id).value <= LastWrite(h, other).value
    ensures |e.tokens| == e.limit
  {
    var due := ClaimableJobs(After(h), e.now);
    assert id in due && other in due - e.tokens.Keys;
    RowRemembersItsLastWrite(h, id);
    RowRemembersItsLastWrite(h, other);
  }

  /** `later` continues `h` by claims at one instant only, each with a limit other than zero. */
  predicate ClaimsOnly(later: History, h: History, now: Instant) {
    || later == h
    || (later.Then? && later.last.Claim? && later.last.now == now && later.last.ttl >= 0 && later.last.limit != 0
        && ClaimsOnly(later.prev, h, now))
  }

  /** The jobs those claims took, and how many each took in all. */
  function Taken(later: History, h: History): set<JobId> {
    if later == h || later.Start? || !later.last.Claim? then {} else Taken(later.prev, h) + later.last.tokens.Keys
  }

  function TakenCount(later: History, h: History): nat {
    if later == h || later.Start? || !later.last.Claim? then 0 else TakenCount(later.prev, h) + |later.last.tokens|
  }

  /** A claim takes its rows, and no others, out of the due set of that instant. */
  lemma ClaimTakesItsRows(t: Table, e: Event)
    requires e.Claim? && e.ttl >= 0 && Allowed(t, e)
    ensures e.tokens.Keys <= ClaimableJobs(t, e.now) && |e.tokens| == |e.tokens.Keys|
    ensures ClaimableJobs(Next(t, e), e.now) == ClaimableJobs(t, e.now) - e.tokens.Keys
  {
    forall id | id in t
      ensures id in Next(t, e)
      ensures Claimable(Next(t, e)[id], e.now) <==> Claimable(t[id], e.now) && id !in e.tokens
    {
    }
  }

  lemma {:induction false} ClaimProgress(later: History, h: History, now: Instant)
    requires ClaimsOnly(later, h, now) && Legal(later)
    ensures Taken(later, h) <= ClaimableJobs(After(h), now)
    ensures ClaimableJobs(After(later), now) == ClaimableJobs(After(h), now) - Taken(later, h)
    ensures TakenCount(later, h) == |Taken(later, h)|
  {
    if later != h {
      ClaimProgress(later.prev, h, now);
      ClaimTakesItsRows(After(later.prev), later.last);
      TakenGrows(ClaimableJobs(After(h), now), Taken(later.prev, h), later.last.tokens.Keys);
    }
  }

  lemma TakenGrows(all: set<JobId>, taken: set<JobId>, more: set<JobId>)
    requires taken <= all && more <= all - taken
    ensures taken + more <= all && (all - taken) - more == all - (taken + more) && |taken + more| == |taken| + |more|
  {
  }

  /** Repeated claims at one instant, of any limits but zero, hand out every due delivery exactly once before a claim
      comes back empty. */
  lemma ClaimsReachEveryDueDelivery(later: History, h: History, e: Event)
    requires e.Claim? && e.limit != 0 && e.tokens == map[] && ClaimsOnly(later, h, e.now) && Legal(Then(later, e))
    ensures Taken(later, h) == ClaimableJobs(After(h), e.now)
    ensures TakenCount(later, h) == |ClaimableJobs(After(h), e.now)|
  {
    ClaimProgress(later, h, e.now);
    assert ClaimableJobs(After(later), e.now) == {};
    AllTaken(ClaimableJobs(After(h), e.now), Taken(later, h));
  }

  // ---------- provenance and conservation ----------

  /** The attempt that won the job's terminal slot. */
  function SlotWinner(h: History, job: JobId): Option<(string, int)> {
    match h
    case Start => None
    case Then(prev, e) =>
      if e.ClaimSlot? && e.job == job && e.won then Some((e.worker, e.attempt)) else SlotWinner(prev, job)
  }

  function SlotWins(h: History, job: JobId): nat {
    match h
    case Start => 0
    case Then(prev, e) => SlotWins(prev, job) + if e.ClaimSlot? && e.job == job && e.won then 1 else 0
  }

  /** Slot claims won by the generations in `among`. */
  function WinsAmong(h: History, job: JobId, among: set<(string, int)>): nat {
    match h
    case Start => 0
    case Then(prev, e) =>
      WinsAmong(prev, job, among)
      + if e.ClaimSlot? && e.job == job && e.won && (e.worker, e.attempt) in among then 1 else 0
  }

  lemma {:induction false} WinsAmongAreWins(h: History, job: JobId, among: set<(string, int)>)
    ensures WinsAmong(h, job, among) <= SlotWins(h, job)
    ensures SlotWinner(h, job).Some? && SlotWins(h, job) == 1 ==>
              WinsAmong(h, job, among) == if SlotWinner(h, job).value in among then 1 else 0
    ensures SlotWins(h, job) == 0 <==> SlotWinner(h, job).None?
  {
    if h.Then? {
      WinsAmongAreWins(h.prev, job, among);
    }
  }

  lemma {:induction false} WinsAmongAdd(h: History, job: JobId, among: set<(string, int)>, g: (string, int))
    requires g !in among
    ensures WinsAmong(h, job, among + {g}) == WinsAmong(h, job, among) + WinsAmong(h, job, {g})
  {
    if h.Then? {
      WinsAmongAdd(h.prev, job, among, g);
    }
  }

  lemma {:induction false} WinsAmongGrow(later: History, h: History, job: JobId, among: set<(string, int)>)
    requires Extends(later, h)
    ensures WinsAmong(h, job, among) <= WinsAmong(later, job, among)
  {
    if later != h {
      WinsAmongGrow(later.prev, h, job, among);
    }
  }

  /** What the first-delivery mark stored. */
  datatype Filing = Filing(payload: string, error: string, state: Delivery)

  function Filed(h: History, job: JobId): Option<Filing> {
    match h
    case Start => None
    case Then(prev, e) =>
      if FirstMark(e, job) then Some(Filing(e.payload, e.error, if e.FirstPending? then Pending else DeadLetter))
      else Filed(prev, job)
  }

  function StoredPayload(h: History, job: JobId): Option<string> {
    if Filed(h, job).None? then None else Some(Filed(h, job).value.payload)
  }

  /** Accepted first marks plus accepted redelivery failures. */
  function RecordedFailures(h: History, job: JobId): nat {
    match h
    case Start => 0
    case Then(prev, e) =>
      RecordedFailures(prev, job)
      + if FirstMark(e, job) || (e.RedeliverPending? && e.job == job && e.ok) then 1 else 0
  }

  lemma {:induction false} UnknownJobHasNoDelivery(h: History, job: JobId)
    requires Legal(h) && job !in After(h)
    ensures SlotWinner(h, job).None? && SlotWins(h, job) == 0
    ensures StoredPayload(h, job).None? && RecordedFailures(h, job) == 0
  {
    if h.Then? {
      UnknownJobHasNoDelivery(h.prev, job);
    }
  }

  /** One attempt at most ever wins the terminal slot, and the row names it. */
  lemma {:induction false} SlotIsWonOnce(h: History, job: JobId)
    requires Legal(h) && job in After(h)
    ensures SlotWins(h, job) == if After(h)[job].slot.claimed then 1 else 0
    ensures After(h)[job].slot.claimed ==>
              SlotWinner(h, job) == Some((After(h)[job].slot.owner, After(h)[job].slot.attempt))
    ensures !After(h)[job].slot.claimed ==> SlotWinner(h, job).None?
  {
    if h.last.Create? && h.last.created.Inserted? && h.last.job == job {
      UnknownJobHasNoDelivery(h.prev, job);
    } else {
      SlotIsWonOnce(h.prev, job);
    }
  }

  /** A claimed slot is never released or taken over. */
  lemma {:induction false} SlotStays(later: History, h: History, job: JobId)
    requires Extends(later, h) && Legal(later) && job in After(h) && After(h)[job].slot.claimed
    ensures job in After(later) && After(later)[job].slot == After(h)[job].slot
  {
    if later != h {
      SlotStays(later.prev, h, job);
    }
  }

  /** A ledger leaves NotApplicable only through the attempt that won the slot; a repeated or foreign first
      mark is refused and changes nothing. */
  lemma FirstMarkNeedsTheSlot(h: History, e: Event)
    requires Legal(Then(h, e)) && (e.FirstPending? || e.FirstDeadLetter?)
    ensures e.ok <==>
              && e.job in After(h) && SlotWinner(h, e.job) == Some((e.worker, e.attempt))
              && StoredPayload(h, e.job).None?
    ensures !e.ok ==> After(Then(h, e)) == After(h)
  {
    if e.job in After(h) {
      SlotIsWonOnce(h, e.job);
      PayloadIsConserved(h, e.job);
    }
    if !e.ok {
      UntouchedTable(After(h), e);
    }
  }

  /** The stored payload survives unchanged until it is acknowledged, the ledger has left NotApplicable
      exactly when one was stored, and result_delivery_attempts counts every recorded failure. */
  lemma {:induction false} PayloadIsConserved(h: History, job: JobId)
    requires Legal(h) && job in After(h)
    ensures var l := After(h)[job].ledger;
            && (l.state.NotApplicable? <==> StoredPayload(h, job).None?)
            && (!l.state.NotApplicable? && !l.state.Acknowledged? ==> Some(l.payload) == StoredPayload(h, job))
            && l.attempts == RecordedFailures(h, job)
  {
    if h.last.Create? && h.last.created.Inserted? && h.last.job == job {
      UnknownJobHasNoDelivery(h.prev, job);
    } else {
      PayloadIsConserved(h.prev, job);
      if h.last.Claim? && job in h.last.tokens {
        assert job in ClaimableJobs(After(h.prev), h.last.now);
      }
    }
  }

  /** A record that was filed as a dead letter stays one, with its payload and its error text. */
  lemma {:induction false} FiledDeadLetterStays(h: History, job: JobId)
    requires Legal(h) && job in After(h) && Filed(h, job).Some? && Filed(h, job).value.state.DeadLetter?
    ensures var l := After(h)[job].ledger;
            l.state.DeadLetter? && l.payload == Filed(h, job).value.payload && l.lastError == Filed(h, job).value.error
  {
    if h.last.Create? && h.last.created.Inserted? && h.last.job == job {
      UnknownJobHasNoDelivery(h.prev, job);
    } else if FirstMark(h.last, job) {
      LastLedgerEventMirrors(h, job);
    } else {
      FiledDeadLetterStays(h.prev, job);
      OnlyDocumentedEdges(h.prev, h.last, job);
    }
  }

  /** Between `h` and `later` the slot's winner sends no first mark for the job: it crashed, or NodeVault took the
      record. */
  predicate WinnerIsSilent(later: History, h: History, job: JobId, winner: (string, int)) {
    || later == h
    || (later.Then? && WinnerIsSilent(later.prev, h, job, winner)
        && ((later.last.FirstPending? || later.last.FirstDeadLetter?) && later.last.job == job ==>
              (later.last.worker, later.last.attempt) != winner))
  }

  /** A claimed slot is a one-way door: from the claim on, a payload is stored for delivery exactly if the winner itself
      sends a mark. If it dies before that, no later attempt wins the slot and the ledger stays where it is. */
  lemma {:induction false} RecordIsLostExactlyBySilence(later: History, h: History, job: JobId)
    requires Extends(later, h) && Legal(later) && job in After(h)
    requires SlotWinner(h, job).Some? && StoredPayload(h, job).None?
    ensures StoredPayload(later, job).None? <==> WinnerIsSilent(later, h, job, SlotWinner(h, job).value)
    ensures job in After(later) && SlotWinner(later, job) == SlotWinner(h, job) && SlotWins(later, job) == 1
    ensures After(later)[job].ledger.state.NotApplicable? <==> StoredPayload(later, job).None?
  {
    EarlierIsLegal(later, h);
    SlotIsWonOnce(h, job);
    if later != h {
      RecordIsLostExactlyBySilence(later.prev, h, job);
      SlotIsWonOnce(later.prev, job);
      SlotIsWonOnce(later, job);
      if later.last.FirstPending? || later.last.FirstDeadLetter? {
        FirstMarkNeedsTheSlot(later.prev, later.last);
      }
    }
    PayloadIsConserved(later, job);
  }

  // ---------- a finished job without a record ----------

  /** A run with one row, of this lease and slot, and no payload stored. */
  ghost predicate Unrecorded(h: History, lease: Lease, slot: Slot) {
    && Legal(h) && After(h).Keys == {"job"} && StoredPayload(h, "job").None?
    && After(h)["job"].lease == lease && After(h)["job"].slot == slot
  }

  lemma NeverLeased() returns (h: History)
    ensures Unrecorded(h, Lease(Queued, "", 0, None, None, "", ""), Slot(false, "", 0))
  {
    h := Then(Start, Create("job", Request("", "", "", "", "", "", "", [], "", ""), 0, Inserted));
    assert h.prev == Start && Legal(h.prev) && StoredPayload(h.prev, "job").None?;
  }

  lemma GrantStep(h: History, lease: Lease, slot: Slot, worker: string, now: Instant)
    requires Unrecorded(h, lease, slot) && Leasable(After(h)["job"], now) && worker != ""
    ensures Unrecorded(Then(h, Grant("job", worker, 1, now)),
                       lease.(status := Leased, attempt := lease.attempt + 1, owner := worker, until := Some(now + 1),
                              retryNotBefore := None), slot)
  {
    assert forall id :: id in After(h) ==> id == "job";
  }

  lemma ClaimStep(h: History, lease: Lease, slot: Slot, worker: string, attempt: int)
    requires Unrecorded(h, lease, slot) && !slot.claimed
    ensures Unrecorded(Then(h, ClaimSlot("job", worker, attempt, 0, true)), lease, Slot(true, worker, attempt))
  {
  }

  lemma CompleteStep(h: History, lease: Lease, slot: Slot, now: Instant)
    requires Unrecorded(h, lease, slot) && lease.owner != ""
    ensures Unrecorded(Then(h, Complete("job", lease.owner, lease.attempt, "", now, true)),
                       Release(lease, Succeeded, "").(summary := ""), slot)
  {
  }

  /** w1 is leased the job and claims the slot, and its process dies; its lease expires, w2 runs the job to its end and
      is refused the slot. */
  lemma FinishedWithoutRecord() returns (h: History)
    ensures Legal(h) && "job" in After(h) && After(h)["job"].lease.status.Succeeded?
    ensures After(h)["job"].slot == Slot(true, "w1", 1)
    ensures StoredPayload(h, "job").None? && After(h)["job"].ledger.state.NotApplicable?
  {
    var h0 := NeverLeased();
    GrantStep(h0, After(h0)["job"].lease, Slot(false, "", 0), "w1", 0);
    var h1 := Then(h0, Grant("job", "w1", 1, 0));
    h := TakenOver(h1);
    PayloadIsConserved(h, "job");
  }

  lemma TakenOver(h1: History) returns (h: History)
    requires Unrecorded(h1, Lease(Leased, "w1", 1, Some(1), None, "", ""), Slot(false, "", 0))
    ensures Unrecorded(h, Lease(Succeeded, "", 2, None, None, "", ""), Slot(true, "w1", 1))
  {
    ClaimStep(h1, After(h1)["job"].lease, Slot(false, "", 0), "w1", 1);
    var h2 := Then(h1, ClaimSlot("job", "w1", 1, 0, true));
    GrantStep(h2, After(h2)["job"].lease, Slot(true, "w1", 1), "w2", 2);
    var h3 := Then(h2, Grant("job", "w2", 1, 2));
    var lease := Lease(Leased, "w2", 2, Some(3), None, "", "");
    CompleteStep(h3, lease, Slot(true, "w1", 1), 2);
    h := Then(h3, Complete("job", "w2", 2, "", 2, true));
  }

  /** Every redelivery is handed exactly the payload the slot's winner stored. */
  lemma RedeliveryCarriesTheStoredPayload(h: History, e: Event, job: JobId)
    requires Legal(Then(h, e)) && e.Claim? && job in e.tokens
    ensures job in After(h) && SlotWinner(h, job).Some?
    ensures Some(After(Then(h, e))[job].ledger.payload) == StoredPayload(h, job)
  {
    assert job in ClaimableJobs(After(h), e.now);
    PayloadIsConserved(Then(h, e), job);
    SlotIsWonOnce(h, job);
    ReachableRowsAreValid(h, job);
  }

  /** Lease and execution calls never touch the slot or the ledger, and delivery calls never touch the
      lease or the identity. */
  lemma DeliveryAndLeaseAreIndependent(h: History, e: Event, job: JobId)
    requires Legal(Then(h, e)) && job in After(h)
    ensures var r, q := After(h)[job], After(Then(h, e))[job];
            && (e.Grant? || LeaseReport(e) || e.Ensure? || e.ReportTerminal? ==>
                  q.slot == r.slot && q.ledger == r.ledger)
            && (e.ClaimSlot? || e.Claim? || Resolution(e) || e.FirstPending? || e.FirstDeadLetter? ==>
                  q.lease == r.lease && q.execution == r.execution)
            && (e.Ensure? || e.ReportTerminal? ==> q.lease == r.lease)
            && (!e.ClaimSlot? ==> q.slot == r.slot)
    ensures !e.FirstPending? && !e.FirstDeadLetter? ==> Filed(Then(h, e), job) == Filed(h, job)
  {
  }
}
