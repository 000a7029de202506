/** The notifier between claiming an outbound event and recording its delivery (internal/notify/notify.go). */
module Notify {
  import opened Wrappers
  import opened Calendar
  import opened Protocol
  import opened Model

  /** What came back from the consumer. */
  datatype Response = NetworkError | Code(code: int)

  function StatusClass(code: int): string {
    if code >= 500 then "http_5xx"
    else if code == 408 then "http_408"
    else if code == 425 then "http_425"
    else if code == 429 then "http_429"
    else if code >= 400 then "http_4xx"
    else "http_other"
  }

  /** A retry that has lost its claim is dropped silently. */
  function Retry(s: Store, e: OutboundEvent, token: string, next: Instant, class_: string): Result<Store, Error> {
    match RetryOutbound(s, e.id, token, e.claim.fence, next, class_)
    case Success(s') => Success(s')
    case Failure(err) => if err == Error.NotOwned then Success(s) else Failure(err)
  }

  predicate Retried(code: int) {
    code == 408 || code == 425 || code == 429 || code >= 500
  }

  /** Records the response to a delivery under the claim the delivery was made with. */
  function RecordResponse(s: Store, e: OutboundEvent, token: string, response: Response, now: Instant,
          next: Instant): Result<Store, Error> {
    match response
    case NetworkError => Retry(s, e, token, next, "network")
    case Code(code) =>
      if 200 <= code <= 299 then CompleteOutbound(s, e.id, token, e.claim.fence, now)
      else if Retried(code) then Retry(s, e, token, next, StatusClass(code))
      else if 400 <= code <= 499 then DeadLetterOutbound(s, e.id, token, e.claim.fence, now, StatusClass(code))
      else Retry(s, e, token, next, StatusClass(code))
  }
}
