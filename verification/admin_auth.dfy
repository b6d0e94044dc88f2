/** The admin bearer-token check that guards every write endpoint. */
module AdminAuth {
  import opened Wrappers
  import opened Http

  /** A configured secret is one that is set and non-empty (Python's truthiness of the
      environment variable's value). */
  predicate Configured(adminToken: Option<string>) {
    adminToken.Some? && adminToken.value != ""
  }

  /** Compares the presented bearer token with the configured admin secret.
      An unset or empty secret fails closed with 500 whatever the token; otherwise the token must
      equal the secret exactly, or the request is refused with 401. */
  function VerifyAdminToken(token: string, adminToken: Option<string>): (r: Outcome<HttpError>)
    ensures r.Pass? <==> Configured(adminToken) && token == adminToken.value
    ensures r == Fail(SERVER_MISCONFIGURED) <==> !Configured(adminToken)
    ensures r == Fail(INVALID_ADMIN_TOKEN) <==> Configured(adminToken) && token != adminToken.value
  {
    if adminToken.None? || adminToken.value == "" then
      Fail(SERVER_MISCONFIGURED)
    else if token != adminToken.value then
      Fail(INVALID_ADMIN_TOKEN)
    else
      Pass
  }

  /** An unconfigured server never answers 401 and never authorises: misconfiguration wins. */
  lemma MisconfigurationTakesPrecedence(token: string, adminToken: Option<string>)
    requires !Configured(adminToken)
    ensures VerifyAdminToken(token, adminToken) == Fail(SERVER_MISCONFIGURED)
    ensures VerifyAdminToken(token, adminToken).error.status == 500
  {
  }

  /** The comparison is case- and character-exact: a token differing from the secret at one
      position is refused with 401. */
  lemma OneCharacterOffIsRejected(token: string, adminToken: Option<string>, i: nat)
    requires Configured(adminToken)
    requires |token| == |adminToken.value| && i < |token|
    requires token[i] != adminToken.value[i]
    ensures VerifyAdminToken(token, adminToken) == Fail(INVALID_ADMIN_TOKEN)
  {
  }

  /** Corollary: the empty token never authorises, whatever the configuration. */
  lemma EmptyTokenNeverAuthorises(adminToken: Option<string>)
    ensures VerifyAdminToken("", adminToken).Fail?
  {
  }
}
