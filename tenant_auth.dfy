/** The tenant authorization gate of the multi-tenant bridge: a bearer token of
    the form "Bearer test-token-for-<tenant>" must name the tenant in the path. */
module TenantAuth {
  import opened Http

  /** The scheme and fixed part every accepted token starts with. */
  const BearerPrefix: string := "Bearer test-token-for-"

  const MissingDetail: string := "Authorization header is missing"
  const SchemeDetail: string := "Invalid authorization scheme."
  const TenantDetail: string := "Token is not valid for the specified tenant."

  /** The header a caller of tenant `tenantId` sends. */
  function TokenFor(tenantId: string): (h: string)
    ensures StartsWith(h, BearerPrefix) && h[|BearerPrefix|..] == tenantId
  {
    BearerPrefix + tenantId
  }

  /** A header that starts with the prefix is the token of exactly one tenant:
      the text after the prefix. */
  lemma TokenSuffix(h: string, tenantId: string)
    requires StartsWith(h, BearerPrefix)
    ensures h[|BearerPrefix|..] == tenantId <==> h == TokenFor(tenantId)
  {
  }

  /** The gate: an absent Authorization header gives 401, a header without the
      expected prefix gives 401, a token for another tenant gives 403, and
      otherwise the path tenant is returned. The checks run in that order. */
  function Authorize(apiKey: Option<string>, tenantId: string): (r: Result<string>)
    ensures apiKey.None? ==> r == Err(401, MissingDetail)
    ensures apiKey.Some? && !StartsWith(apiKey.value, BearerPrefix) ==> r == Err(401, SchemeDetail)
    ensures r.Ok? <==> apiKey == Some(TokenFor(tenantId))
    ensures r.Ok? ==> r.value == tenantId
    ensures r.Err? && r.status == 403 <==>
              apiKey.Some? && StartsWith(apiKey.value, BearerPrefix) && apiKey.value != TokenFor(tenantId)
    ensures r.Err? ==> r.status in {401, 403}
  {
    match apiKey
    case None => Err(401, MissingDetail)
    case Some(key) =>
      if !StartsWith(key, BearerPrefix) then Err(401, SchemeDetail)
      else
        var tokenTenantId := key[|BearerPrefix|..];
        TokenSuffix(key, tenantId);
        if tokenTenantId != tenantId then Err(403, TenantDetail)
        else Ok(tenantId)
  }

  /** Round trip: the token built for a tenant is accepted for that tenant, and
      the gate hands back that tenant. */
  lemma OwnTokenAccepted(tenantId: string)
    ensures Authorize(Some(TokenFor(tenantId)), tenantId) == Ok(tenantId)
  {
  }

  /** A tenant's token opens no other tenant's routes: it is refused with 403. */
  lemma OtherTenantForbidden(tokenTenant: string, pathTenant: string)
    requires tokenTenant != pathTenant
    ensures Authorize(Some(TokenFor(tokenTenant)), pathTenant) == Err(403, TenantDetail)
  {
  }

  /** A missing header or a wrong scheme is refused in the same way whatever the
      path tenant is: the 401 checks never look at the path. */
  lemma UnauthenticatedIgnoresPath(apiKey: Option<string>, t1: string, t2: string)
    requires apiKey.None? || !StartsWith(apiKey.value, BearerPrefix)
    ensures Authorize(apiKey, t1) == Authorize(apiKey, t2)
    ensures Authorize(apiKey, t1).Err? && Authorize(apiKey, t1).status == 401
  {
  }

  /** A concrete pair: an example tenant "acme" with its own token. */
  lemma AcmeExample()
    ensures Authorize(Some("Bearer test-token-for-acme"), "acme") == Ok("acme")
    ensures Authorize(Some("Bearer test-token-for-acme"), "globex") == Err(403, TenantDetail)
    ensures Authorize(Some("Basic test-token-for-acme"), "acme") == Err(401, SchemeDetail)
  {
    assert "Bearer test-token-for-acme" == TokenFor("acme");
    OtherTenantForbidden("acme", "globex");
    assert "Basic test-token-for-acme"[..|BearerPrefix|] != BearerPrefix by {
      assert "Basic test-token-for-acme"[1] != BearerPrefix[1];
    }
  }
}
