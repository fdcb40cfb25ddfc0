/** Redelivery of a claimed terminal record: redeliverOne and resolveRedelivery in pkg/worker/delivery.go. */
module Redelivery {
  import opened Values
  import opened RetryPacing
  import opened DeliveryBackoff
  import opened Rows
  import opened Histories
  import opened Deliveries
  import opened WorkStores
  import opened NodeVault

  /** Any other callers may run while the POST is in flight, other claimers of this delivery included. */
  method Meanwhile(store: WorkStore)
    requires store.Valid()
    modifies store
    ensures store.Valid() && Extends(store.history, old(store.history))
  {
  }

  /** resolveRedelivery: one outcome, under the claim's own token. Only an error that NodeVault might take back is tried
      again, and only for a payload that this binary can decode. */
  method ResolveRedelivery(
    store: WorkStore, job: JobId, token: string, attempts: nat, failure: Answer, deadLetter: bool,
    randInt63n: int -> int, clock: Instant
  ) returns (ok: bool)
    requires store.Valid() && Int63n(randInt63n) && !failure.Accepted?
    modifies store
    ensures store.Valid() && store.history.Then? && store.history.prev == old(store.history)
    ensures var e := store.history.last;
            && Resolution(e) && e.job == job && e.ok == ok
            && (deadLetter || failure.PermanentError? ==>
                  e.RedeliverDeadLetter? && e.token == token && e.error == failure.error)
            && (!deadLetter && failure.RetryableError? ==>
                  && e.RedeliverPending? && e.token == token && e.error == failure.error
                  && clock + Base(attempts + 1) <= e.nextAttemptAt <= clock + 300_000_000_000)
  {
    var now: Instant := *;
    if deadLetter || failure.PermanentError? {
      ok := store.MarkResultDeliveryDeadLetter(job, token, failure.error, now);
    } else {
      var backoff := BackoffDuration(attempts + 1, randInt63n);
      ok := store.MarkResultDeliveryPending(job, token, failure.error, clock + backoff, now);
    }
  }

  /** What an accepted outcome makes of the ledger: the claim is given up, and what was claimed is kept unless it was
      delivered. */
  predicate Resolves(before: Ledger, e: Event, after: Ledger)
    requires Resolution(e)
  {
    && after.token == "" && after.claimedUntil.None?
    && match e
       case RedeliverAcknowledged(_, _, _, _) =>
         after.state.Acknowledged? && after.payload == "" && after.lastError == "" && after.nextAttemptAt.None?
         && after.attempts == before.attempts
       case RedeliverPending(_, _, error, next, _, _) =>
         after.state.Pending? && after.payload == before.payload && after.lastError == error
         && after.nextAttemptAt == Some(next) && after.attempts == before.attempts + 1
       case RedeliverDeadLetter(_, _, error, _, _) =>
         after.state.DeadLetter? && after.payload == before.payload && after.lastError == error
         && after.nextAttemptAt.None? && after.attempts == before.attempts
       case _ => true
  }

  /** redeliverOne. `claim` is the call that handed out the job and `claimed` the row it returned; `answer` is
      NodeVault's, None for a payload this binary cannot decode. What is posted is exactly the payload the slot's winner
      stored, once; an undecodable one is not posted.
      The outcome takes effect exactly when that claim is still the newest change of the ledger, and changes nothing
      otherwise. When it does, the delivery is acknowledged exactly after NodeVault accepted it, tried again exactly
      after a retryable error, and a dead letter exactly after a permanent one or for an undecodable payload. One that
      is tried again keeps its payload, counts the attempt, and is claimable from the end of its backoff on. */
  method RedeliverOne(
    store: WorkStore, vault: VaultClient, job: JobId, claimed: Row, decodable: string -> bool, randInt63n: int -> int,
    ghost h: History, ghost claim: Event
  ) returns (answer: Option<Answer>, clock: Instant, ok: bool, ghost at: History)
    requires store.Valid() && Int63n(randInt63n)
    requires Legal(Then(h, claim)) && claim.Claim? && job in claim.tokens && Extends(store.history, Then(h, claim))
    requires job in After(Then(h, claim)) && claimed == After(Then(h, claim))[job]
    modifies store, vault
    ensures store.Valid() && job in store.rows
    ensures answer.Some? <==> decodable(claimed.ledger.payload)
    ensures Some(claimed.ledger.payload) == StoredPayload(h, job)
    ensures vault.sent
            == old(vault.sent) + if answer.Some? then [Sent(claimed.ledger.payload, answer.value)] else []
    ensures Extends(at, old(store.history)) && store.history.Then? && store.history.prev == at && job in After(at)
    ensures ok <==> LastLedgerEvent(at, job) == Some(claim)
    ensures !ok ==> store.rows == After(at)
    ensures var l := store.rows[job].ledger;
      && (ok && answer == Some(Accepted) ==> l.state.Acknowledged? && l.payload == "")
      && (ok && answer.Some? && answer.value.RetryableError? ==>
            && l.state.Pending? && l.payload == claimed.ledger.payload && l.lastError == answer.value.error
            && l.attempts == claimed.ledger.attempts + 1 && l.nextAttemptAt.Some?
            && clock + Base(l.attempts) <= l.nextAttemptAt.value <= clock + 300_000_000_000
            && forall t :: Claimable(store.rows[job], t) <==> l.nextAttemptAt.value <= t)
      && (ok && answer.Some? && answer.value.PermanentError? ==>
            && l.state.DeadLetter? && l.payload == claimed.ledger.payload && l.lastError == answer.value.error
            && l.attempts == claimed.ledger.attempts)
      && (ok && answer.None? ==> l.state.DeadLetter? && l.payload == claimed.ledger.payload)
  {
    ClaimedRow(h, claim, job);
    answer := None;
    if decodable(claimed.ledger.payload) {
      var told := vault.Post(claimed.ledger.payload);
      answer := Some(told);
    }
    ghost var start := store.history;
    Meanwhile(store);
    at := store.history;
    ExtendsIsTransitive(at, start, Then(h, claim));
    clock := *;
    ok := Conclude(store, job, claimed.ledger.token, claimed.ledger.attempts, answer, randInt63n, clock);
    OwnOutcome(h, claim, job, at, store.history.last);
  }

  /** The acknowledgement, or resolveRedelivery with the error. */
  method Conclude(
    store: WorkStore, job: JobId, token: string, attempts: nat, answer: Option<Answer>, randInt63n: int -> int,
    clock: Instant
  ) returns (ok: bool)
    requires store.Valid() && Int63n(randInt63n)
    modifies store
    ensures store.Valid() && store.history.Then? && store.history.prev == old(store.history)
    ensures var e := store.history.last;
      && Resolution(e) && e.job == job && e.token == token && e.ok == ok
      && match answer
         case None => e.RedeliverDeadLetter?
         case Some(Accepted) => e.RedeliverAcknowledged?
         case Some(PermanentError(error)) => e.RedeliverDeadLetter? && e.error == error
         case Some(RetryableError(error)) =>
           && e.RedeliverPending? && e.error == error
           && clock + Base(attempts + 1) <= e.nextAttemptAt <= clock + 300_000_000_000
  {
    match answer
    case Some(Accepted) =>
      var now: Instant := *;
      ok := store.MarkResultDeliveryAcknowledged(job, token, now);
    case Some(failure) =>
      ok := ResolveRedelivery(store, job, token, attempts, failure, false, randInt63n, clock);
    case None =>
      var unreadable: string := *;
      ok := ResolveRedelivery(store, job, token, attempts, RetryableError(unreadable), true, randInt63n, clock);
  }

  /** The row a claim hands out: the stored payload under the claim's token. */
  lemma ClaimedRow(h: History, claim: Event, job: JobId)
    requires Legal(Then(h, claim)) && claim.Claim? && job in claim.tokens
    ensures job in After(Then(h, claim))
    ensures var l := After(Then(h, claim))[job].ledger;
            Some(l.payload) == StoredPayload(h, job) && l.token == claim.tokens[job]
  {
    RedeliveryCarriesTheStoredPayload(h, claim, job);
  }

  predicate CarriesToken(last: Option<Event>, job: JobId, token: string) {
    last.Some? && last.value.Claim? && job in last.value.tokens && last.value.tokens[job] == token
  }

  /** The newest claim on a ledger that carries this claim's token is this claim. */
  lemma {:induction false} TokenNamesItsClaim(later: History, h: History, claim: Event, job: JobId)
    requires Legal(later) && Extends(later, Then(h, claim)) && claim.Claim? && job in claim.tokens
    requires job in After(Then(h, claim))
    ensures claim.tokens[job] in Issued(later) && job in After(later)
    ensures CarriesToken(LastLedgerEvent(later, job), job, claim.tokens[job]) ==>
              && LastLedgerEvent(later, job) == Some(claim)
              && After(later)[job].ledger == After(Then(h, claim))[job].ledger
  {
    if later == Then(h, claim) {
      assert claim.tokens[job] in claim.tokens.Values;
    } else {
      TokenNamesItsClaim(later.prev, h, claim, job);
      if later.last.Claim? && job in later.last.tokens {
        assert later.last.tokens[job] in later.last.tokens.Values;
      }
    }
  }

  /** An outcome of the claim's own token is accepted exactly while that claim is the newest change of the ledger. */
  lemma OwnOutcome(h: History, claim: Event, job: JobId, at: History, e: Event)
    requires Legal(Then(at, e)) && Extends(at, Then(h, claim)) && claim.Claim? && job in claim.tokens
    requires Resolution(e) && e.job == job && job in After(Then(h, claim))
    requires e.token == claim.tokens[job]
    ensures job in After(at) && (e.ok <==> LastLedgerEvent(at, job) == Some(claim))
    ensures job in After(Then(at, e))
    ensures e.ok ==> Resolves(After(Then(h, claim))[job].ledger, e, After(Then(at, e))[job].ledger)
    ensures !e.ok ==> After(Then(at, e)) == After(at)
  {
    RowsPersist(at, Then(h, claim), job);
    TokenNamesItsClaim(at, h, claim, job);
    OutcomeNeedsTheNewestClaim(at, e);
    if e.ok {
      AcceptedOutcomeResolves(After(at), e);
    }
  }

  lemma AcceptedOutcomeResolves(t: Table, e: Event)
    requires Resolution(e) && e.job in t && RedeliveryFence(t[e.job], e.token)
    ensures e.job in Next(t, e) && Resolves(t[e.job].ledger, e, Next(t, e)[e.job].ledger)
  {
  }
}
