/** Fields the outbound dispatcher computes rather than copies. */
module Outbound {
  import opened Protocol

  /** `requiresConcurrencyControl: serializeRequest ? serializeRequest : true`.
      `serializeRequest` is undefined or a boolean; a false value falls back
      to `true` like an absent one, so the flag is never false. */
  function ConcurrencyFlag(serializeRequest: Option<bool>): (r: bool)
    // never false; in particular it is `serializeRequest` itself whenever that is true
    ensures r
  {
    match serializeRequest
    case Some(b) => if b then b else true
    case None => true
  }
}
