/** The retry coordinator: run an extractor until it yields a complete
    record, at most `retries` times, and otherwise keep the last attempt. */
module Retry {
  import opened Wrappers
  import opened Values

  /** The number of attempts the script asks for when it calls the
      coordinator. */
  const DefaultRetries: int := 3

  /** The extractor seen as an oracle: the outcome of its k-th call
      (counting from 0) for the company being scraped. `None` stands for
      a falsy result; each call re-navigates, so outcomes may differ. */
  type Attempts = nat -> Option<Record>

  /** The number of loop iterations `while (attempt < retries)` allows. */
  function AttemptBound(retries: int): (n: nat)
  {
    if retries > 0 then retries else 0
  }

  /** Calls the extractor until a call returns a complete record (returned
      at once) or `retries` calls have been made (the last outcome is
      returned as it is). `calls` is the number of extractor calls made. */
  method ExtractWithRetries(extract: Attempts, retries: int) returns (data: Option<Record>, calls: nat)
    // never more than `retries` calls, and none at all when retries <= 0
    ensures calls <= AttemptBound(retries)
    // with no call the initial `null` comes back
    ensures calls == 0 ==> data == None
    // otherwise the last call's outcome, unchanged
    ensures calls > 0 ==> data == extract(calls - 1)
    // every call before the last one was incomplete
    ensures forall k :: 0 <= k < calls - 1 ==> !Complete(extract(k))
    // the loop stops only on a complete record or on exhaustion
    ensures Complete(data) || calls == AttemptBound(retries)
    // early exit: a complete outcome at call k means no call after k
    ensures forall k :: 0 <= k < retries && Complete(extract(k)) ==> calls <= k + 1
  {
    var attempt := 0;
    data := None;
    calls := 0;
    while attempt < retries
      invariant attempt == calls <= AttemptBound(retries)
      invariant calls == 0 ==> data == None
      invariant calls > 0 ==> data == extract(calls - 1)
      invariant forall k :: 0 <= k < calls ==> !Complete(extract(k))
    {
      data := extract(attempt);
      calls := calls + 1;
      if Complete(data) {
        return;
      }
      attempt := attempt + 1;
    }
  }
}
