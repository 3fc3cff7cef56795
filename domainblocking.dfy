/**
 * The origin allow-list in front of the API (`DomainBlockingMiddleware`):
 * a non-empty `Origin` header and the scheme and authority of a non-empty
 * `Referer` header must both be listed.
 */
module DomainBlocking {
  import opened Common

  /** `Forwarded`, one of the two 403 answers, or the exception a malformed referer raises. */
  datatype Decision = Forwarded | OriginNotAllowed | RefererNotAllowed | MalformedReferer

  /** The configured `Cors:AllowedOrigins`; a missing section is an empty list. */
  function AllowedOrigins(configured: Option<seq<string>>): seq<string>
  {
    OrElse(configured, [])
  }

  /**
   * `InvokeAsync`. `leftPart` is `new Uri(referer).GetLeftPart(UriPartial.Authority)`,
   * `None` when the constructor throws.
   */
  function Decide(allowed: seq<string>, origin: string, referer: string, leftPart: string -> Option<string>)
    : (d: Decision)
    ensures d == OriginNotAllowed <==> origin != "" && origin !in allowed
    ensures d == Forwarded ==> (origin == "" || origin in allowed)
  {
    if origin != "" && origin !in allowed then OriginNotAllowed
    else if referer != "" then
      match leftPart(referer)
      case None => MalformedReferer
      case Some(o) => if o !in allowed then RefererNotAllowed else Forwarded
    else Forwarded
  }

  /** A request is forwarded exactly when both checks pass. */
  lemma ForwardedIffBothPass(allowed: seq<string>, origin: string, referer: string, leftPart: string -> Option<string>)
    ensures Decide(allowed, origin, referer, leftPart) == Forwarded <==>
      (origin == "" || origin in allowed) &&
      (referer == "" || (leftPart(referer).Some? && leftPart(referer).value in allowed))
  {
  }

  /** A request without the two headers is never checked. */
  lemma NoHeadersForwarded(allowed: seq<string>, leftPart: string -> Option<string>)
    ensures Decide(allowed, "", "", leftPart) == Forwarded
  {
  }

  /** Without configuration every request carrying an `Origin` is refused. */
  lemma MissingConfigBlocksOrigins(origin: string, referer: string, leftPart: string -> Option<string>)
    requires origin != ""
    ensures Decide(AllowedOrigins(None), origin, referer, leftPart) == OriginNotAllowed
  {
  }

  /** The origin check comes first: a bad origin is reported even when the referer is bad too. */
  lemma OriginCheckedFirst(allowed: seq<string>, origin: string, referer: string, leftPart: string -> Option<string>)
    requires origin != "" && origin !in allowed
    ensures Decide(allowed, origin, referer, leftPart) == OriginNotAllowed
  {
  }
}
