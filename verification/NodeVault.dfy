/** NodeVault as the worker sees it through pkg/vaultclient. */
module NodeVault {
  /** What a submission came to; vaultclient.Retryable tells the two errors apart. */
  datatype Answer = Accepted | RetryableError(error: string) | PermanentError(error: string)

  datatype Sent = Sent(payload: string, answer: Answer)

  /** The client in the hands of one loop of the worker; `sent` holds every submission it ever made, with the answer. */
  class VaultClient {
    ghost var sent: seq<Sent>

    constructor ()
      ensures sent == []
    {
      sent := [];
    }

    method Post(payload: string) returns (answer: Answer)
      modifies this
      ensures sent == old(sent) + [Sent(payload, answer)]
    {
      answer := *;
      sent := sent + [Sent(payload, answer)];
    }
  }
}
