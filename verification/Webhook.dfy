/** Delivery of one outcome to a callback URL: `WebhookClient._post_with_retry`. */
module Webhook {

  const MAX_RETRIES: nat := 3

  /** What a POST can be answered with, as the retry loop tells answers apart. */
  datatype Reply =
    | Accepted      // 2xx: raise_for_status does not raise
    | Refused       // any other status below 500
    | Unreachable   // 5xx, or a transport error

  /** How the loop goes on after one POST. */
  datatype Verdict = Delivered | GaveUp | Again

  function Judge(attempt: nat, maxRetries: nat, reply: Reply): (v: Verdict) {
    match reply
    case Accepted => Delivered
    case Refused => GaveUp
    case Unreachable => if attempt < maxRetries then Again else GaveUp
  }
}
