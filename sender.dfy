/**
 The send step: `sendWithRetry` and the status check of `send` (gologloki.go:221-262).
 The HTTP exchange is an oracle: for a payload and an attempt number it yields the
 backend's status code or a transport failure.
 */
module Sender {
  import opened LokiTypes

  /** What one HTTP exchange ends in. */
  datatype Outcome =
    | Response(status: int)
    | TransportError  // the request could not be built or `client.Do` failed

  /** The backend's answer to attempt `n` of sending a payload. */
  type Backend = (LokiPayload, nat) -> Outcome

  /** `send`: an exchange succeeds exactly when it yields a 2xx status. */
  function Send(outcome: Outcome): (ok: bool)
    ensures ok <==> outcome.Response? && 200 <= outcome.status < 300
  {
    match outcome
    case Response(status) => 200 <= status && status < 300
    case TransportError => false
  }

  /**
   What `sendWithRetry` reports, as the source is written: the loop body returns the first
   attempt's result, so a non-negative retry count means exactly one exchange, and a
   negative one means none and a report of success.
   */
  function Delivered(retryCount: int, payload: LokiPayload, backend: Backend): (ok: bool)
    ensures retryCount < 0 ==> ok
    ensures retryCount >= 0 ==> (ok <==> backend(payload, 0).Response? && 200 <= backend(payload, 0).status < 300)
  {
    retryCount < 0 || Send(backend(payload, 0))
  }

  /**
   `sendWithRetry`. `attempts` counts the exchanges made and `slept` the back-off time
   waited; the back-off is only reached on a second pass, which never happens.
   */
  method SendWithRetry(retryCount: int, retryDelay: int, payload: LokiPayload, backend: Backend)
    returns (ok: bool, attempts: nat, slept: int)
    ensures retryCount >= 0 ==> attempts == 1 && ok == Send(backend(payload, 0))
    ensures retryCount < 0 ==> attempts == 0 && ok
    ensures slept == 0
    ensures ok == Delivered(retryCount, payload, backend)
  {
    attempts, slept := 0, 0;
    var bound := if retryCount < 0 then 0 else retryCount + 1;
    for attempt := 0 to bound
      invariant attempt == 0 && attempts == 0 && slept == 0
    {
      if attempt > 0 {
        slept := slept + retryDelay * attempt;
      }
      attempts := attempts + 1;
      ok := Send(backend(payload, attempt));
      return;
    }
    ok := true;
  }
}
