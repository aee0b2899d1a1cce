/**
 * The access token entity: the AccessToken record (a bag of mutable
 * attributes) together with the AccessTokenMixin behaviour mixed into it.
 * Token strings are JWTs produced by a configured generator and read back
 * with ::JWT.decode; both are opaque here and arrive as function parameters.
 */
module AccessTokens {
  import opened Support
  import Scopes
  import opened RevokedTokens

  /** The `type:` handed to the generator. */
  datatype TokenKind = Access | Refresh

  /** The claims handed to the generator for one token string. */
  datatype Claims = Claims(
    resourceOwnerId: Option<int>,
    scopes: string,
    applicationUid: Option<string>,
    kind: TokenKind,
    createdAt: int,
    expiresIn: Option<int>)

  /** The `user` claim of a payload; its `email` entry may be missing. */
  datatype UserClaim = UserClaim(email: Option<string>)

  /** The claims of a decoded JWT that the code reads. */
  datatype Payload = Payload(
    clientUid: Option<string>,
    user: Option<UserClaim>,
    scopes: string,
    kind: Option<string>,
    iat: int,
    exp: int)

  /** What ::JWT.decode does with a string under the configured key and algorithm. */
  datatype JwtOutcome = Verified(payload: Payload) | DecodeError | ExpiredSignature

  /** A client application, as far as tokens see it. */
  datatype Application = Application(id: int, uid: string)

  /** The attributes of one AccessToken as a single value (`kind` is the `type` attribute). */
  datatype Record = Record(
    applicationId: Option<int>,
    applicationUid: Option<string>,
    resourceOwnerId: Option<int>,
    scopes: string,
    token: Option<string>,
    refreshToken: Option<string>,
    createdAt: int,
    expiresIn: Option<int>,
    useRefreshToken: Option<bool>,
    kind: Option<string>)

  /** The claims `generate_tokens` passes for a token of the given kind. */
  function ClaimsFor(attributes: Record, kind: TokenKind): Claims
  {
    Claims(attributes.resourceOwnerId, attributes.scopes, attributes.applicationUid,
      kind, attributes.createdAt, attributes.expiresIn)
  }

  /**
   * The attributes after `generate_tokens`: both token strings are set, whatever
   * `use_refresh_token` says, and nothing else changes.
   */
  function Generated(attributes: Record, generate: Claims -> string): (r: Record)
    ensures r.token.Some? && r.refreshToken.Some?
    ensures r.(token := attributes.token, refreshToken := attributes.refreshToken) == attributes
  {
    attributes.(token := Some(generate(ClaimsFor(attributes, Access))),
                refreshToken := Some(generate(ClaimsFor(attributes, Refresh))))
  }

  /**
   * The stored pair comes from sibling claim sets: `token` is generated from
   * the `:access` claims over the token's own attributes, and `refresh_token`
   * from the same claims with the type changed to `:refresh`.
   */
  lemma SiblingClaims(attributes: Record, generate: Claims -> string)
    ensures var r := Generated(attributes, generate);
      exists c: Claims ::
        && c.kind == Access
        && c.resourceOwnerId == attributes.resourceOwnerId
        && c.scopes == attributes.scopes
        && c.applicationUid == attributes.applicationUid
        && c.createdAt == attributes.createdAt
        && c.expiresIn == attributes.expiresIn
        && r.token == Some(generate(c))
        && r.refreshToken == Some(generate(c.(kind := Refresh)))
  {
    var c := ClaimsFor(attributes, Access);
    assert c.(kind := Refresh) == ClaimsFor(attributes, Refresh);
  }

  /**
   * The id of `User.find_by_email(payload['user']['email'])`, or None where the
   * code raises: a missing `user` claim (`nil['email']`) or no user found. A
   * `user` claim without `email` still performs the lookup, with nil.
   */
  function OwnerOf(payload: Payload, findUserByEmail: Option<string> -> Option<int>): Option<int>
  {
    match payload.user
    case None => None
    case Some(user) => findUserByEmail(user.email)
  }

  /** The attributes `new_by_jwt` gives a token built from a decoded payload. */
  function DecodedRecord(jwt: string, payload: Payload, ownerId: int, refreshEnabled: bool): (r: Record)
    ensures r.applicationId == None
    ensures r.applicationUid == payload.clientUid && r.resourceOwnerId == Some(ownerId)
    ensures r.scopes == payload.scopes && r.kind == payload.kind
    ensures r.useRefreshToken == Some(refreshEnabled)
    ensures r.createdAt == payload.iat && r.expiresIn == Some(payload.exp - payload.iat)
    ensures r.expiresIn.Some? && r.createdAt + r.expiresIn.value == payload.exp
    ensures (r.token == Some(jwt)) == (payload.kind == Some("access"))
    ensures (r.refreshToken == Some(jwt)) == (payload.kind != Some("access"))
    ensures r.token.None? || r.refreshToken.None?
  {
    var base := Record(None, payload.clientUid, Some(ownerId), payload.scopes, None, None,
      payload.iat, Some(payload.exp - payload.iat), Some(refreshEnabled), payload.kind);
    if payload.kind == Some("access") then base.(token := Some(jwt))
    else base.(refreshToken := Some(jwt))
  }

  /**
   * What `revoke` does to the denylist: raises on a nil type (`nil.to_sym`),
   * inserts nothing unless the type is refresh, and otherwise inserts the
   * refresh token string (never the access token string), raising if the
   * table refuses it.
   */
  function RevocationOf(attributes: Record): (r: Result<set<string>, Failure>)
    ensures attributes.kind.None? <==> r == Err(NoMethodError)
    ensures attributes.kind.Some? && attributes.kind != Some("refresh") ==> r == Ok({})
    ensures attributes.kind == Some("refresh") && ValidToken(attributes.refreshToken) ==>
      r == Ok({attributes.refreshToken.value})
    ensures attributes.kind == Some("refresh") && !ValidToken(attributes.refreshToken) ==>
      r == Err(RecordInvalid)
    ensures r.Ok? ==> forall t :: t in r.value ==> Some(t) == attributes.refreshToken && ValidToken(Some(t))
  {
    match attributes.kind
    case None => Err(NoMethodError)
    case Some(k) =>
      if k != "refresh" then Ok({})
      else if ValidToken(attributes.refreshToken) then Ok({attributes.refreshToken.value})
      else Err(RecordInvalid)
  }

  class AccessToken {
    var applicationId: Option<int>
    var applicationUid: Option<string>
    var resourceOwnerId: Option<int>
    var scopes: string
    var token: Option<string>
    var refreshToken: Option<string>
    var createdAt: int
    var expiresIn: Option<int>
    var useRefreshToken: Option<bool>
    var kind: Option<string>

    /** All attributes at once. */
    function Snapshot(): Record
      reads this
    {
      Record(applicationId, applicationUid, resourceOwnerId, scopes, token, refreshToken,
        createdAt, expiresIn, useRefreshToken, kind)
    }

    /** `new(attributes)`: each attribute takes the given value. */
    constructor (attributes: Record)
      ensures Snapshot() == attributes
    {
      applicationId := attributes.applicationId;
      applicationUid := attributes.applicationUid;
      resourceOwnerId := attributes.resourceOwnerId;
      scopes := attributes.scopes;
      token := attributes.token;
      refreshToken := attributes.refreshToken;
      createdAt := attributes.createdAt;
      expiresIn := attributes.expiresIn;
      useRefreshToken := attributes.useRefreshToken;
      kind := attributes.kind;
    }

    /** `decode(jwt)`: the payload, or nil when the JWT library reports a decode error or expiry. */
    static function Decode(jwt: string, verify: string -> JwtOutcome): (r: Option<Payload>)
      ensures r.None? <==> verify(jwt).DecodeError? || verify(jwt).ExpiredSignature?
      ensures r.Some? ==> verify(jwt) == Verified(r.value)
    {
      match verify(jwt)
      case Verified(payload) => Some(payload)
      case DecodeError => None
      case ExpiredSignature => None
    }

    /**
     * `new_by_jwt(jwt)`: a token over the decoded claims. The payload is not
     * checked for nil, so an undecodable JWT or an unknown user raises.
     */
    static method NewByJwt(jwt: string, verify: string -> JwtOutcome,
                           findUserByEmail: Option<string> -> Option<int>, refreshEnabled: bool)
      returns (r: Result<AccessToken, Failure>)
      ensures r.Err? ==> r.error == NoMethodError
      ensures r.Ok? <==> Decode(jwt, verify).Some? && OwnerOf(Decode(jwt, verify).value, findUserByEmail).Some?
      ensures Decode(jwt, verify).Some? && Decode(jwt, verify).value.user.None? ==> r == Err(NoMethodError)
      ensures (Decode(jwt, verify).Some? && Decode(jwt, verify).value.user == Some(UserClaim(None))
               && findUserByEmail(None).Some?) ==> r.Ok?
      ensures r.Ok? ==> fresh(r.value)
      ensures r.Ok? ==> (r.value.Snapshot() ==
        DecodedRecord(jwt, Decode(jwt, verify).value,
                      OwnerOf(Decode(jwt, verify).value, findUserByEmail).value, refreshEnabled))
    {
      var payload := Decode(jwt, verify);
      if payload.None? {
        return Err(NoMethodError);
      }
      var p := payload.value;
      var owner := OwnerOf(p, findUserByEmail);
      if owner.None? {
        return Err(NoMethodError);
      }
      var tok := new AccessToken(Record(None, p.clientUid, Some(owner.value), p.scopes, None, None,
        p.iat, Some(p.exp - p.iat), Some(refreshEnabled), p.kind));
      if p.kind == Some("access") {
        tok.token := Some(jwt);
      } else {
        tok.refreshToken := Some(jwt);
      }
      r := Ok(tok);
    }

    /**
     * `scopes_match?`: true when token and parameter scopes are both blank,
     * whatever the application scopes; otherwise ScopeChecker.match?.
     */
    static function ScopesMatch(tokenScopes: string, paramScopes: string, appScopes: string,
                                checkerMatch: (string, string, string) -> bool): (r: bool)
      ensures Blank(tokenScopes) && Blank(paramScopes) ==> r
      ensures !(Blank(tokenScopes) && Blank(paramScopes)) ==>
        r == checkerMatch(tokenScopes, paramScopes, appScopes)
    {
      (Blank(tokenScopes) && Blank(paramScopes)) || checkerMatch(tokenScopes, paramScopes, appScopes)
    }

    /** `find_or_create_for`: a new token for the grant, with both strings generated. */
    static method FindOrCreateFor(application: Option<Application>, resourceOwnerId: Option<int>,
                                  scopes: string, expiresIn: Option<int>, useRefreshToken: bool,
                                  now: int, generate: Claims -> string)
      returns (tok: AccessToken)
      ensures fresh(tok)
      ensures tok.Snapshot() == Generated(Record(
        if application.Some? then Some(application.value.id) else None,
        if application.Some? then Some(application.value.uid) else None,
        resourceOwnerId, scopes, None, None, now, expiresIn, Some(useRefreshToken), None), generate)
    {
      var applicationId := if application.Some? then Some(application.value.id) else None;
      var applicationUid := if application.Some? then Some(application.value.uid) else None;
      tok := new AccessToken(Record(applicationId, applicationUid, resourceOwnerId, scopes,
        None, None, now, expiresIn, Some(useRefreshToken), None));
      tok.GenerateTokens(generate);
    }

    /** `create!(attributes)`: a new token with the attributes and both strings generated. */
    static method Create(attributes: Record, generate: Claims -> string) returns (tok: AccessToken)
      ensures fresh(tok)
      ensures tok.Snapshot() == Generated(attributes, generate)
    {
      tok := new AccessToken(attributes);
      tok.GenerateTokens(generate);
    }

    /** `generate_tokens`: sets `token` and `refresh_token` from sibling claim sets. */
    method GenerateTokens(generate: Claims -> string)
      modifies this
      ensures Snapshot() == Generated(old(Snapshot()), generate)
    {
      var attributes := Snapshot();
      token := Some(generate(ClaimsFor(attributes, Access)));
      refreshToken := Some(generate(ClaimsFor(attributes, Refresh)));
    }

    /** `revoke`: see RevocationOf; the token object itself is not changed. */
    method Revoke(registry: Registry) returns (r: Result<(), Failure>)
      requires registry.Valid()
      modifies registry
      ensures registry.Valid()
      ensures RevocationOf(Snapshot()).Ok? ==>
        r == Ok(()) && registry.tokens == old(registry.tokens) + RevocationOf(Snapshot()).value
      ensures RevocationOf(Snapshot()).Err? ==>
        r == Err(RevocationOf(Snapshot()).error) && registry.tokens == old(registry.tokens)
      ensures r.Ok? && kind == Some("refresh") ==> registry.FindByToken(refreshToken)
      ensures token.None? ==> !Revoked(registry)
    {
      if kind.None? {
        return Err(NoMethodError);
      }
      if kind.value != "refresh" {
        assert old(registry.tokens) + {} == old(registry.tokens);
        return Ok(());
      }
      r := registry.Create(refreshToken);
    }

    /** `revoked?`: looks up the `token` attribute (not `refresh_token`) in the denylist. */
    function Revoked(registry: Registry): (r: bool)
      reads this, registry
      ensures r <==> registry.FindByToken(token)
      ensures token.None? ==> !r
    {
      registry.FindByToken(token)
    }

    /** `token_type`: always bearer (RFC 6750). */
    function TokenType(): (r: string)
      ensures r == "bearer"
    {
      "bearer"
    }

    /** `use_refresh_token?`: defaults an unset flag to false (by assignment), then reads it. */
    method UseRefreshToken() returns (b: bool)
      modifies this`useRefreshToken
      ensures b <==> old(useRefreshToken) == Some(true)
      ensures useRefreshToken == if old(useRefreshToken).None? then Some(false) else old(useRefreshToken)
    {
      if useRefreshToken.None? {
        useRefreshToken := Some(false);
      }
      b := useRefreshToken == Some(true);
    }

    /** `same_credential?`: same application id and same resource owner; the client uid is not compared. */
    function SameCredential(other: AccessToken): (r: bool)
      reads this, other
      ensures r <==> applicationId == other.applicationId && resourceOwnerId == other.resourceOwnerId
    {
      applicationId == other.applicationId && resourceOwnerId == other.resourceOwnerId
    }

    /** `scopes_string`: the raw stored scopes. */
    function ScopesString(): (r: string)
      reads this
      ensures r == scopes
    {
      scopes
    }

    /** `scopes` of the scope concern: the stored string parsed by OAuth::Scopes.from_string. */
    function ParsedScopes(parse: string -> Scopes.ScopeSet): (r: Scopes.ScopeSet)
      reads this
      ensures r == parse(ScopesString())
    {
      parse(scopes)
    }

    /** `includes_scope?(*required)` over the parsed scopes. */
    function IncludesScope(parse: string -> Scopes.ScopeSet, required: seq<string>): (r: bool)
      reads this
      ensures r <==> |required| == 0 || exists i :: 0 <= i < |required| && required[i] in parse(scopes)
    {
      Scopes.IncludesScope(ParsedScopes(parse), required)
    }

    /** `acceptable?(scopes)`: accessible (not expired, not revoked) and including a wanted scope. */
    function Acceptable(accessible: bool, parse: string -> Scopes.ScopeSet, required: seq<string>): (r: bool)
      reads this
      ensures r <==> accessible && (|required| == 0 || exists i :: 0 <= i < |required| && required[i] in parse(scopes))
    {
      accessible && IncludesScope(parse, required)
    }

    /**
     * `includes_scope?` as the record class dispatches it: its `attr_accessor
     * :scopes` takes precedence over the concern's `scopes`, so `scopes.exists?`
     * is sent to a String and raises whenever any scope is wanted.
     */
    function IncludesScopeAsWritten(required: seq<string>): (r: Result<bool, Failure>)
      ensures |required| == 0 <==> r == Ok(true)
      ensures |required| > 0 <==> r == Err(NoMethodError)
    {
      if |required| == 0 then Ok(true) else Err(NoMethodError)
    }

    /** `acceptable?` as the record class dispatches it. */
    function AcceptableAsWritten(accessible: bool, required: seq<string>): (r: Result<bool, Failure>)
      ensures !accessible ==> r == Ok(false)
      ensures accessible ==> r == IncludesScopeAsWritten(required)
    {
      if !accessible then Ok(false) else IncludesScopeAsWritten(required)
    }

    /** `delete_all_for`: a stub that returns nil. */
    static function DeleteAllFor(applicationId: Option<int>, resourceOwnerId: Option<int>): (r: Option<nat>)
      ensures r == None
    {
      None
    }

    /** `active_for`: a stub that returns nil instead of the owner's active tokens. */
    static function ActiveFor(resourceOwnerId: Option<int>): (r: Option<seq<AccessToken>>)
      ensures r == None
    {
      None
    }

    /** `order_method`. */
    static function OrderMethod(): (r: string)
      ensures r == "order"
    {
      "order"
    }

    /** `created_at_desc`. */
    static function CreatedAtDesc(): (r: string)
      ensures r == "created_at desc"
    {
      "created_at desc"
    }

    /** `refresh_token_revoked_on_use?`: the policy is fixed to false. */
    static function RefreshTokenRevokedOnUse(): (r: bool)
      ensures !r
    {
      false
    }
  }

  /** Counterexample to the record's `acceptable?`: a granted scope makes it raise instead of answer. */
  lemma ShadowedScopesRaise(tok: AccessToken, parse: string -> Scopes.ScopeSet)
    requires "read" in parse(tok.scopes)
    ensures tok.AcceptableAsWritten(true, ["read"]) == Err(NoMethodError)
    ensures tok.Acceptable(true, parse, ["read"])
  {
    assert ["read"][0] == "read";
  }

  /** `same_credential?` is an equivalence. */
  lemma SameCredentialEquivalence(a: AccessToken, b: AccessToken, c: AccessToken)
    ensures a.SameCredential(a)
    ensures a.SameCredential(b) == b.SameCredential(a)
    ensures a.SameCredential(b) && b.SameCredential(c) ==> a.SameCredential(c)
  {
  }

  /**
   * Two tokens built by `new_by_jwt` for one owner are the same credential
   * whichever clients they were issued to, since both application ids are nil.
   */
  lemma DecodedTokensIgnoreClient(jwt1: string, p1: Payload, jwt2: string, p2: Payload,
                                  owner: int, e1: bool, e2: bool)
    requires p1.clientUid != p2.clientUid
    ensures DecodedRecord(jwt1, p1, owner, e1).applicationId == DecodedRecord(jwt2, p2, owner, e2).applicationId
    ensures DecodedRecord(jwt1, p1, owner, e1).resourceOwnerId == DecodedRecord(jwt2, p2, owner, e2).resourceOwnerId
    ensures DecodedRecord(jwt1, p1, owner, e1).applicationUid != DecodedRecord(jwt2, p2, owner, e2).applicationUid
  {
  }

  /**
   * A token read from a refresh JWT has no `token` attribute, so `revoked?`
   * is false for it whatever the denylist holds, including after its own
   * refresh token string has been revoked.
   */
  lemma RefreshJwtNeverRevoked(jwt: string, payload: Payload, owner: int, enabled: bool, tokens: set<string>)
    requires payload.kind != Some("access")
    ensures DecodedRecord(jwt, payload, owner, enabled).token == None
    ensures payload.kind == Some("refresh") && ValidToken(Some(jwt)) ==>
      RevocationOf(DecodedRecord(jwt, payload, owner, enabled)) == Ok({jwt})
  {
  }
}
