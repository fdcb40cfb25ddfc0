/** The bounded retry policy: pkg/worker/failureclass.go. */
module FailurePolicy {
  import opened Values

  datatype FailureClass = Deterministic | TransientInfra | ResourceObservation | Unknown

  /** RetryDecision. `delay` is meaningful only when `retry` holds. */
  datatype Decision = Decision(kind: FailureClass, retry: bool, reason: string, delay: Duration)

  const UNKNOWN_RETRY_MARKER := "[unknown-retry]"
  const RETRY_EXHAUSTED := "RETRY_EXHAUSTED"
  const UNKNOWN_RETRY_LIMIT := "UNKNOWN_RETRY_LIMIT"
  const UNKNOWN_RECURRED := ": UNKNOWN failure recurred immediately after its one permitted retry: "

  predicate OccursAt(s: string, part: string, i: int) {
    0 <= i <= |s| - |part| && s[i..i + |part|] == part
  }

  /** strings.Contains. */
  predicate Contains(s: string, part: string) {
    exists i | 0 <= i <= |s| :: OccursAt(s, part, i)
  }

  /** decideRetry: `attempt` and `lastError` are the leased row's, `delay` the pacing chosen for this attempt. */
  function DecideRetry(
    kind: FailureClass, attempt: int, lastError: string, reason: string, maxAttempts: int, delay: Duration
  ): Decision {
    match kind
    case Deterministic => Decision(kind, false, reason, 0)
    case ResourceObservation => Decision(kind, false, reason, 0)
    case Unknown =>
      if Contains(lastError, UNKNOWN_RETRY_MARKER) then
        Decision(kind, false, UNKNOWN_RETRY_LIMIT + UNKNOWN_RECURRED + reason, 0)
      else if attempt >= maxAttempts then
        Decision(kind, false, RETRY_EXHAUSTED + ": " + reason, 0)
      else
        Decision(kind, true, reason + " " + UNKNOWN_RETRY_MARKER, delay)
    case TransientInfra =>
      if attempt >= maxAttempts then
        Decision(kind, false, RETRY_EXHAUSTED + ": " + reason, 0)
      else
        Decision(kind, true, reason, delay)
  }

  /** The failures the policy requeues: before the last attempt, infrastructure failures always, and an
      UNKNOWN one unless the previous outcome was a requeued UNKNOWN. */
  predicate Requeued(kind: FailureClass, attempt: int, lastError: string, maxAttempts: int) {
    attempt < maxAttempts
    && (kind.TransientInfra? || (kind.Unknown? && !Contains(lastError, UNKNOWN_RETRY_MARKER)))
  }

  lemma ContainsEnd(before: string, part: string)
    ensures Contains(before + part, part)
  {
    assert OccursAt(before + part, part, |before|);
  }

  lemma ContainsStart(part: string, after: string)
    ensures Contains(part + after, part)
  {
    assert OccursAt(part + after, part, 0);
  }

  lemma ContainsItself(part: string)
    ensures Contains(part, part)
  {
    assert OccursAt(part, part, 0);
  }

  lemma RequeuedReason(reason: string)
    ensures Contains(reason + " " + UNKNOWN_RETRY_MARKER, reason)
    ensures Contains(reason + " " + UNKNOWN_RETRY_MARKER, UNKNOWN_RETRY_MARKER)
  {
    ContainsEnd(reason + " ", UNKNOWN_RETRY_MARKER);
    ContainsStart(reason, " " + UNKNOWN_RETRY_MARKER);
    assert reason + " " + UNKNOWN_RETRY_MARKER == reason + (" " + UNKNOWN_RETRY_MARKER);
  }

  /** What the policy promises, class by class: which failures are requeued, that the last attempt never
      is, and that a requeued UNKNOWN leaves the marker that forbids the next one. */
  lemma DecideRetryPolicy(
    kind: FailureClass, attempt: int, lastError: string, reason: string, maxAttempts: int, delay: Duration
  )
    ensures var d := DecideRetry(kind, attempt, lastError, reason, maxAttempts, delay);
            && d.kind == kind && (d.retry <==> Requeued(kind, attempt, lastError, maxAttempts))
            && (kind.Deterministic? || kind.ResourceObservation? ==> !d.retry && d.reason == reason)
            && (kind.TransientInfra? ==> (d.retry <==> attempt < maxAttempts))
            && (kind.Unknown? ==> (d.retry <==> attempt < maxAttempts && !Contains(lastError, UNKNOWN_RETRY_MARKER)))
            && d.delay == (if d.retry then delay else 0)
            && (d.retry && kind.TransientInfra? ==> d.reason == reason)
            && (!d.retry && kind.TransientInfra? ==> d.reason == "RETRY_EXHAUSTED: " + reason)
            && (d.retry && kind.Unknown? ==> Contains(d.reason, UNKNOWN_RETRY_MARKER))
            && Contains(d.reason, reason)
  {
    ContainsItself(reason);
    RequeuedReason(reason);
    assert RETRY_EXHAUSTED + ": " == "RETRY_EXHAUSTED: ";
    ContainsEnd(RETRY_EXHAUSTED + ": ", reason);
    ContainsEnd(UNKNOWN_RETRY_LIMIT + UNKNOWN_RECURRED, reason);
  }
}
