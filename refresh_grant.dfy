/**
 * The refresh-token grant (RefreshTokenRequest, RFC 6749 section 6): five
 * ordered validations, each mapped to an error code of section 5.2, then a
 * commit step that rejects reuse, revokes the presented refresh token and
 * issues a new token for the same owner and client.
 */
module RefreshGrant {
  import opened Support
  import Scopes
  import opened RevokedTokens
  import opened AccessTokens

  /** The error codes of RFC 6749 section 5.2 used by this grant. */
  datatype GrantError = InvalidRequest | InvalidGrant | InvalidClient | InvalidScope

  /** Client credentials from the request (`credentials.uid`, `credentials.secret`). */
  datatype Credentials = Credentials(uid: string, secret: string)

  /** The request parameters the grant reads. */
  datatype Parameters = Parameters(scope: Option<string>, scopes: Option<string>, refreshToken: Option<string>)

  class RefreshTokenRequest {
    var refreshToken: AccessToken?
    var credentials: Option<Credentials>
    var client: Option<Application>
    var originalScopes: Option<string>
    var refreshTokenParameter: Option<string>
    var accessToken: AccessToken?

    /**
     * `initialize`: `:scope` wins over `:scopes` whenever it is given at all
     * (an empty string is truthy in Ruby); the client is looked up only when
     * credentials were given.
     */
    constructor (refreshToken: AccessToken?, credentials: Option<Credentials>, parameters: Parameters,
                 byUidAndSecret: (string, string) -> Option<Application>)
      ensures this.refreshToken == refreshToken && this.credentials == credentials
      ensures originalScopes == if parameters.scope.Some? then parameters.scope else parameters.scopes
      ensures refreshTokenParameter == parameters.refreshToken
      ensures credentials.None? ==> client.None?
      ensures credentials.Some? ==> client == byUidAndSecret(credentials.value.uid, credentials.value.secret)
      ensures accessToken == null
    {
      this.refreshToken := refreshToken;
      this.credentials := credentials;
      originalScopes := if parameters.scope.Some? then parameters.scope else parameters.scopes;
      refreshTokenParameter := parameters.refreshToken;
      if credentials.Some? {
        client := byUidAndSecret(credentials.value.uid, credentials.value.secret);
      } else {
        client := None;
      }
      accessToken := null;
    }

    /** `validate_token_presence`: a token object or a non-blank `refresh_token` parameter. */
    predicate ValidateTokenPresence()
      reads this
    {
      refreshToken != null || Present(refreshTokenParameter)
    }

    /** `validate_token`: a token object that is not `revoked?`. */
    predicate ValidateToken(registry: Registry)
      reads this, refreshToken, registry
    {
      refreshToken != null && !refreshToken.Revoked(registry)
    }

    /** `validate_client`: no credentials, or credentials that found an application. */
    predicate ValidateClient()
      reads this
    {
      credentials.None? || client.Some?
    }

    /** `validate_client_match`: no client, or a client whose uid is the token's client uid. */
    predicate ValidateClientMatch()
      requires client.Some? ==> refreshToken != null
      reads this, refreshToken
    {
      client.None? || refreshToken.applicationUid == Some(client.value.uid)
    }

    /** `validate_scope`: no requested scopes, or ScopeChecker.valid? against the token's scopes. */
    predicate ValidateScope(parse: string -> Scopes.ScopeSet, checkerValid: (string, Scopes.ScopeSet) -> bool)
      requires Present(originalScopes) ==> refreshToken != null
      reads this, refreshToken
    {
      Present(originalScopes) ==> checkerValid(originalScopes.value, refreshToken.ParsedScopes(parse))
    }

    /**
     * The validations in their declared order; the first that fails decides
     * the error and the later ones are not evaluated.
     */
    function Validate(registry: Registry, parse: string -> Scopes.ScopeSet,
                      checkerValid: (string, Scopes.ScopeSet) -> bool): (r: Option<GrantError>)
      reads this, refreshToken, registry
      ensures r == Some(InvalidRequest) <==> !ValidateTokenPresence()
      ensures r == Some(InvalidGrant) <==>
        ValidateTokenPresence() && (!ValidateToken(registry) || (ValidateClient() && !ValidateClientMatch()))
      ensures r == Some(InvalidClient) <==>
        ValidateTokenPresence() && ValidateToken(registry) && !ValidateClient()
      ensures r == Some(InvalidScope) <==>
        ValidateTokenPresence() && ValidateToken(registry) && ValidateClient() && ValidateClientMatch()
        && !ValidateScope(parse, checkerValid)
      ensures r == None ==> refreshToken != null && !refreshToken.Revoked(registry)
      ensures r == None && client.Some? ==> refreshToken.applicationUid == Some(client.value.uid)
      ensures r == None && Present(originalScopes) ==>
        checkerValid(originalScopes.value, parse(refreshToken.scopes))
    {
      if !ValidateTokenPresence() then Some(InvalidRequest)
      else if !ValidateToken(registry) then Some(InvalidGrant)
      else if !ValidateClient() then Some(InvalidClient)
      else if !ValidateClientMatch() then Some(InvalidGrant)
      else if !ValidateScope(parse, checkerValid) then Some(InvalidScope)
      else None
    }

    /** `default_scopes`: the refresh token's scopes. */
    function DefaultScopes(parse: string -> Scopes.ScopeSet): (r: Scopes.ScopeSet)
      requires refreshToken != null
      reads this, refreshToken
      ensures r == parse(refreshToken.ScopesString())
    {
      refreshToken.ParsedScopes(parse)
    }

    /**
     * `access_token_attributes`: the new token belongs to the refresh token's
     * owner and client and always asks for a refresh token. `scopes` is the
     * request's resolved scope string, `expiresIn` the configured lifetime.
     */
    function AccessTokenAttributes(scopes: string, now: int, expiresIn: Option<int>): (r: Record)
      requires refreshToken != null
      reads this, refreshToken
      ensures r.applicationId == refreshToken.applicationId
      ensures r.applicationUid == refreshToken.applicationUid
      ensures r.resourceOwnerId == refreshToken.resourceOwnerId
      ensures r.useRefreshToken == Some(true)
      ensures r.token.None? && r.refreshToken.None? && r.kind.None?
      ensures r.scopes == scopes && r.createdAt == now && r.expiresIn == expiresIn
    {
      Record(refreshToken.applicationId, refreshToken.applicationUid, refreshToken.resourceOwnerId,
        scopes, None, None, now, expiresIn, Some(true), None)
    }

    /**
     * `before_successful_response`: a revoked refresh token raises
     * InvalidTokenReuse and nothing changes; otherwise the refresh token is
     * revoked (the policy never exempts it) and, unless that raises, a new
     * token is created. `buildScopes` resolves the request's scopes from the
     * requested ones and the default scopes.
     */
    method BeforeSuccessfulResponse(registry: Registry, parse: string -> Scopes.ScopeSet,
                                    buildScopes: (Option<string>, Scopes.ScopeSet) -> string,
                                    now: int, expiresIn: Option<int>, generate: Claims -> string)
      returns (r: Result<(), Failure>)
      requires refreshToken != null && registry.Valid()
      modifies registry, this`accessToken
      ensures registry.Valid()
      ensures refreshToken.token.None? ==> !refreshToken.Revoked(registry)
      ensures old(refreshToken.Revoked(registry)) ==>
        r == Err(InvalidTokenReuse) && registry.tokens == old(registry.tokens) && accessToken == old(accessToken)
      ensures !old(refreshToken.Revoked(registry)) && RevocationOf(refreshToken.Snapshot()).Err? ==>
        && r == Err(RevocationOf(refreshToken.Snapshot()).error)
        && registry.tokens == old(registry.tokens)
        && accessToken == old(accessToken)
      ensures !old(refreshToken.Revoked(registry)) && RevocationOf(refreshToken.Snapshot()).Ok? ==>
        && r == Ok(())
        && registry.tokens == old(registry.tokens) + RevocationOf(refreshToken.Snapshot()).value
        && accessToken != null && fresh(accessToken)
        && accessToken.Snapshot() == Generated(
             AccessTokenAttributes(buildScopes(originalScopes, DefaultScopes(parse)), now, expiresIn), generate)
    {
      if refreshToken.Revoked(registry) {
        return Err(InvalidTokenReuse);
      }
      if !AccessToken.RefreshTokenRevokedOnUse() {
        var revoked := refreshToken.Revoke(registry);
        if revoked.Err? {
          return Err(revoked.error);
        }
      }
      var attributes := AccessTokenAttributes(buildScopes(originalScopes, DefaultScopes(parse)), now, expiresIn);
      accessToken := AccessToken.Create(attributes, generate);
      r := Ok(());
    }
  }

  /**
   * The reuse guard never fires for a token read from a refresh JWT: after a
   * successful commit the same JWT, decoded again, passes the token validation
   * and the commit's reuse check once more, because `revoked?` consults the
   * `token` attribute, which such a token leaves nil.
   */
  lemma RefreshJwtReplayPasses(request: RefreshTokenRequest, registry: Registry)
    requires request.refreshToken != null && request.refreshToken.token.None?
    ensures request.ValidateToken(registry)
    ensures !request.refreshToken.Revoked(registry)
  {
  }
}
