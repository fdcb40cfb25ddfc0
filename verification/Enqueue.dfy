/** Enqueue idempotence over whole runs: CreateJob. */
module Enqueue {
  import opened Values
  import opened Fingerprint
  import opened Rows
  import opened Histories

  /** A non-empty validation_request_id owns at most one row. */
  lemma {:induction false} RequestIdIsUnique(h: History, a: JobId, b: JobId, key: string)
    requires Legal(h) && OwnsRequestId(After(h), a, key) && OwnsRequestId(After(h), b, key)
    ensures a == b
  {
    ReachableRowsAreValid(h, a);
    var e := h.last;
    if e.Create? && e.created.Inserted? && (e.job == a || e.job == b) {
      var other := if e.job == a then b else a;
      assert other == e.job || OwnsRequestId(After(h.prev), other, key);
    } else {
      RequestIdIsUnique(h.prev, a, b, key);
    }
  }

  /** The job a successful CreateJob call names: the one it inserted, or the one that owned the key. */
  function Created(e: Event): Option<JobId>
    requires e.Create?
  {
    match e.created
    case Inserted => Some(e.job)
    case Existing(found) => Some(found)
    case Conflict => None
    case PrimaryKeyError => None
  }

  /** A successful call's job holds its key and its fingerprint, from then on. */
  lemma CreatedJobHoldsTheRequest(later: History, h: History, e: Event)
    requires Extends(later, Then(h, e)) && Legal(later) && e.Create? && Created(e).Some?
    requires e.request.validationRequestId != ""
    ensures OwnsRequestId(After(later), Created(e).value, e.request.validationRequestId)
    ensures After(later)[Created(e).value].fingerprint == FingerprintOf(e.request)
  {
    EarlierIsLegal(later, Then(h, e));
    RowsPersist(later, Then(h, e), Created(e).value);
  }

  /** Any two successful CreateJob calls with one non-empty validation_request_id, at any two points of a
      run, name the same job and carried the same request (up to action order, for NUL-free fields). */
  lemma EnqueueIsIdempotent(later: History, h1: History, e1: Event, h2: History, e2: Event)
    requires Legal(later) && Extends(later, Then(h1, e1)) && Extends(later, Then(h2, e2))
    requires e1.Create? && e2.Create? && Created(e1).Some? && Created(e2).Some?
    requires e1.request.validationRequestId == e2.request.validationRequestId != ""
    ensures Created(e1) == Created(e2)
    ensures NulFreeRequest(e1.request) && NulFreeRequest(e2.request) ==> SameRequest(e1.request, e2.request)
  {
    CreatedJobHoldsTheRequest(later, h1, e1);
    CreatedJobHoldsTheRequest(later, h2, e2);
    RequestIdIsUnique(later, Created(e1).value, Created(e2).value, e1.request.validationRequestId);
    if NulFreeRequest(e1.request) && NulFreeRequest(e2.request) {
      FingerprintIdentifiesRequest(e1.request, e2.request);
    }
  }

  /** With a key that already owns a job, the answer is decided: the same request gets that job back, a
      different one is a conflict, and neither call changes the table. A duplicate job_id may be reported
      first. */
  lemma RepeatedRequestIsDecided(h: History, owner: JobId, e: Event)
    requires Legal(Then(h, e)) && e.Create?
    requires OwnsRequestId(After(h), owner, e.request.validationRequestId)
    ensures After(Then(h, e)) == After(h)
    ensures if FingerprintOf(e.request) == After(h)[owner].fingerprint
            then e.created == Existing(owner) || e.created.PrimaryKeyError?
            else e.created.Conflict? || e.created.PrimaryKeyError?
  {
    ReachableRowsAreValid(h, owner);
    var key := e.request.validationRequestId;
    match e.created
    case Inserted => assert false;
    case Existing(found) => RequestIdIsUnique(h, owner, found, key);
    case Conflict =>
      var id :| OwnsRequestId(After(h), id, key) && After(h)[id].fingerprint != FingerprintOf(e.request);
      RequestIdIsUnique(h, owner, id, key);
    case PrimaryKeyError =>
  }
}
