/** The bearer check at the top of both cron routes
    (src/app/api/cron/herinneringen/route.ts, src/app/api/cron/verjaardagen/route.ts).
    The routes compare the Authorization header with a template literal built
    from the configured secret; when the secret is not configured, the literal
    renders the missing value as the text "undefined". */
module CronAuth {
  import opened Common

  /** The header value the routes expect, rendered as the template literal
      renders it: an unset secret becomes the word "undefined". */
  function ExpectedHeaderAsWritten(secret: Option<string>): string {
    "Bearer " + (if secret.None? then "undefined" else secret.value)
  }

  /** The check as written: the header (None when absent) must equal the rendered literal. */
  predicate AuthorizedAsWritten(header: Option<string>, secret: Option<string>) {
    header == Some(ExpectedHeaderAsWritten(secret))
  }

  /** With no secret configured, anyone sending the literal header
      "Bearer undefined" passes the check as written, and the corrected check
      refuses them. */
  lemma UnsetSecretAdmitsLiteralHeader()
    ensures AuthorizedAsWritten(Some("Bearer undefined"), None)
    ensures !Authorized(Some("Bearer undefined"), None)
  {
    assert ExpectedHeaderAsWritten(None) == "Bearer " + "undefined" == "Bearer undefined";
  }

  /** The check as intended: a configured, non-empty secret, and the header
      equal to "Bearer " followed by it. */
  predicate Authorized(header: Option<string>, secret: Option<string>) {
    Truthy(secret) && header == Some("Bearer " + secret.value)
  }

  /** Without a configured secret nothing is authorised; with one, the
      corrected check and the check as written agree on every header. */
  lemma AuthorizedNeedsSecret(header: Option<string>, secret: Option<string>)
    ensures !Truthy(secret) ==> !Authorized(header, secret)
    ensures Truthy(secret) ==> (Authorized(header, secret) <==> AuthorizedAsWritten(header, secret))
    ensures Authorized(header, secret) ==> header.Some? && |header.value| > |"Bearer "|
  {
  }
}
