# Refresh-token lifecycle of a JWT-based Doorkeeper fork, in Dafny

This project models the refresh-token lifecycle of a Doorkeeper fork. In this fork, access and refresh tokens are self-contained JWTs, not database rows. The model has four parts:

- **The access token entity.** This is the `AccessToken` record with the `AccessTokenMixin` behaviour mixed into it. It covers these operations:
  - generating a sibling pair of token strings;
  - rebuilding a token from a decoded JWT payload;
  - revoking and the `revoked?` query;
  - credential equality;
  - scope matching and acceptability;
  - the fixed `bearer` type.
- **The scope concern** (`Models::Scopes`). A token holds its scopes as a raw string. The concern parses it and answers an any-of inclusion question.
- **The revocation denylist** (`RevokedToken`). This is a table of revoked token strings. It accepts only present strings shaped like a compact JWT: `seg.seg.seg`, where the segments use the URL-safe alphabet and the signature segment may be empty.
- **The refresh grant** (`RefreshTokenRequest`, section 6 of RFC 6749). It runs five ordered validations, each tied to an error code from section 5.2. It then commits: it rejects a revoked token, revokes the presented refresh token and creates a new token for the same owner and client.

Each source file becomes one module:

| module | source |
|---|---|
| `Support` | shared vocabulary: `Option`, `Result`, the raised exceptions, and Rails' `blank?`/`present?` |
| `Scopes` | `models/concerns/scopes.rb` |
| `RevokedTokens` | `orm/active_record/revoked_token.rb` |
| `AccessTokens` | `models/access_token_mixin.rb` and `orm/active_record/access_token.rb` |
| `RefreshGrant` | `oauth/refresh_token_request.rb` |

Code that changes state is modelled as classes with mutable fields:
- `AccessToken` holds the ten `attr_accessor` attributes.
- `RevokedTokens.Registry` holds the denylist as a `set<string>`.
- `RefreshTokenRequest` holds the request's instance variables.

The Ruby class methods become `static` members.

Collaborators whose code is not part of this model become parameters. These are the JWT library, the token generator, user and application lookup, `OAuth::Scopes.from_string`, `ScopeChecker`, `accessible?`, the clock and the configured lifetime. Function-typed parameters leave them uninterpreted.

Several of the code's behaviours are modelled exactly as written, and their consequences are proved:

- **Replay of a refresh JWT is never caught.**
  - `revoke` inserts the `refresh_token` attribute into the denylist, but `revoked?` looks up the `token` attribute.
  - `new_by_jwt` fills only `refresh_token` for a JWT whose type is not `access`. For such a token, `revoked?` is therefore false whatever the denylist holds.
  - As a result, `validate_token` and the commit's reuse check both pass again when the same refresh JWT is presented a second time. See `AccessToken.Revoke`, `RefreshJwtNeverRevoked`, `RefreshJwtReplayPasses`, and the two ensures of `BeforeSuccessfulResponse` after `registry.Valid()`: a token with no `token` attribute is still not `revoked?` after the commit, and `InvalidTokenReuse` is raised when `revoked?` held before the commit, which for such a token it never does.
- **An access JWT presented as a refresh token revokes nothing.** `revoke` inserts nothing for a type other than `refresh` (`RevocationOf`).
- **`new_by_jwt` raises `NoMethodError` on an undecodable JWT, a payload without a `user` claim, or an unknown user.** The code checks neither the payload nor the user claim for nil, so it does not return nil in these cases. A `user` claim without `email` still goes to `User.find_by_email(nil)`, and a token is built when that finds a user.
- **Tokens from `new_by_jwt` ignore the client in `same_credential?`.** `new_by_jwt` always leaves `application_id` nil, so two such tokens for one owner count as the same credential whatever their clients.
- **`revoke` raises `NoMethodError` when the token's `type` is nil** (`nil.to_sym`).
- **`:scope` wins over `:scopes` even when it is an empty string**, because an empty string is truthy in Ruby.

## Model

| member | source | states |
|---|---|---|
| `Scopes.AnyGranted` | lib/doorkeeper/models/concerns/scopes.rb:14 | `any?` over the wanted scopes holds iff some wanted scope is in the granted set |
| `Scopes.IncludesScope` | lib/doorkeeper/models/concerns/scopes.rb:13-15 | true with no wanted scopes; otherwise true iff at least one wanted scope is granted (any-of, not all-of) |
| `Scopes.IncludesSingle` | lib/doorkeeper/models/concerns/scopes.rb:14 | one wanted scope is included exactly when it is granted |
| `Scopes.IncludesScopeMonotone` | lib/doorkeeper/models/concerns/scopes.rb:14 | if a non-empty list of wanted scopes is included, the list extended with more scopes is included too |
| `Scopes.IncludesScopeConcat` | lib/doorkeeper/models/concerns/scopes.rb:14 | for two non-empty lists, their concatenation is included iff either list is |
| `Scopes.IncludesScopeSameElements` | lib/doorkeeper/models/concerns/scopes.rb:14 | the answer depends only on which scopes are wanted, not on their order or repetition |
| `RevokedTokens.MatchesJwtRegex` | lib/doorkeeper/orm/active_record/revoked_token.rb:3 | `JWT_REGEX =~ s`: exactly three dot-separated segments, the first two non-empty, all in `[A-Za-z0-9_-]` (its language is fixed by `RegexAccepts` and `RegexSound`) |
| `RevokedTokens.ValidToken` | lib/doorkeeper/orm/active_record/revoked_token.rb:3-5 | a row's token passes `validates_presence_of` (non-nil, not blank) and `validates_format_of` with `JWT_REGEX` |
| `RevokedTokens.RegexAccepts` | lib/doorkeeper/orm/active_record/revoked_token.rb:3 | every `a.b.c` matches, given non-empty URL-safe `a` and `b` and a URL-safe, possibly empty, `c` (so `a.b.` is accepted) |
| `RevokedTokens.RegexSound` | lib/doorkeeper/orm/active_record/revoked_token.rb:3 | a matching string is exactly its three segments joined by dots; together with `RegexAccepts` this is the regex's language |
| `RevokedTokens.AcceptedHasTwoDots` | lib/doorkeeper/orm/active_record/revoked_token.rb:3 | every accepted token contains exactly two dots |
| `RevokedTokens.AcceptedAlphabet` | lib/doorkeeper/orm/active_record/revoked_token.rb:3 | every character of an accepted token is a dot or in `[A-Za-z0-9_-]`; the anchors cover the whole string |
| `RevokedTokens.ForeignCharacterRejected` | lib/doorkeeper/orm/active_record/revoked_token.rb:3 | a single character outside the alphabet anywhere (`=`, `+`, `/`, space, newline) causes rejection |
| `RevokedTokens.FormatImpliesPresence` | lib/doorkeeper/orm/active_record/revoked_token.rb:3-5 | a string that matches the format is never blank, so the presence check adds only the nil case |
| `RevokedTokens.AbsentOrEmptyRejected` | lib/doorkeeper/orm/active_record/revoked_token.rb:4-5 | a nil or empty token is invalid |
| `RevokedTokens.EmptySignatureAccepted` | lib/doorkeeper/orm/active_record/revoked_token.rb:3-5 | `a.b.` is a valid token and `a.b` is not |
| `RevokedTokens.JoinSplit` | lib/doorkeeper/orm/active_record/revoked_token.rb:3 | splitting on dots and joining again gives back the input, so the match reads every character |
| `RevokedTokens.Registry.Create` | lib/doorkeeper/orm/active_record/revoked_token.rb:4-5 | `create!` raises `RecordInvalid` and leaves the table unchanged for an invalid token; a valid one is added; re-adding a string already in the table succeeds and leaves the table as it was; the table stays all-valid |
| `RevokedTokens.Registry.FindByToken` | lib/doorkeeper/models/access_token_mixin.rb:124 | a lookup succeeds iff the string is in the table; nil never matches |
| `AccessTokens.ClaimsFor` | lib/doorkeeper/models/access_token_mixin.rb:143-158 | the keyword arguments of one `generator.generate` call: owner, scopes, client uid, the given type, creation time and lifetime, read from the token's attributes |
| `AccessTokens.OwnerOf` | lib/doorkeeper/models/access_token_mixin.rb:38 | the id of `User.find_by_email(payload['user']['email'])`; None where the code raises (no `user` claim, or no user found); a missing `email` is looked up as nil |
| `AccessTokens.Generated` | lib/doorkeeper/models/access_token_mixin.rb:141-159 | after generation both `token` and `refresh_token` are set, even without `use_refresh_token`, and the other attributes are unchanged |
| `AccessTokens.SiblingClaims` | lib/doorkeeper/models/access_token_mixin.rb:143-158 | `token` is generated from claims of type `access` carrying the token's owner, scopes, client uid, creation time and lifetime, and `refresh_token` from the same claims with only the type changed to `refresh` |
| `AccessTokens.DecodedRecord` | lib/doorkeeper/models/access_token_mixin.rb:35-49 | a token read from a payload has a nil `application_id`; `application_uid` is `client_uid`, the owner is the found user, `scopes` and `type` are the payload's, the flag is the refresh setting; `created_at` is `iat` and `expires_in` is `exp - iat`, so their sum is `exp`; the JWT goes into `token` iff the type is `access`, otherwise into `refresh_token`; never both |
| `AccessTokens.RevocationOf` | lib/doorkeeper/models/access_token_mixin.rb:113-116 | revoke raises `NoMethodError` exactly when the type is nil, inserts nothing for a type other than `refresh`, and for `refresh` inserts exactly the `refresh_token` string (never `token`) when the table accepts it and raises `RecordInvalid` otherwise |
| `AccessTokens.AccessToken.constructor` | lib/doorkeeper/orm/active_record/access_token.rb:6-8 | `new(attributes)` gives every attribute the given value |
| `AccessTokens.AccessToken.Decode` | lib/doorkeeper/models/access_token_mixin.rb:23-31 | the payload when verification succeeds; nil, never an exception, on a decode error or an expired signature |
| `AccessTokens.AccessToken.NewByJwt` | lib/doorkeeper/models/access_token_mixin.rb:33-51 | raises `NoMethodError` iff the JWT does not decode, the payload has no `user` claim, or the lookup finds no user; a `user` claim without `email` is looked up with nil and succeeds when that finds a user; otherwise a fresh token whose attributes are `DecodedRecord` |
| `AccessTokens.AccessToken.ScopesMatch` | lib/doorkeeper/models/access_token_mixin.rb:78-85 | true whenever token and parameter scopes are both blank, whatever the application scopes; otherwise equal to `ScopeChecker.match?` |
| `AccessTokens.AccessToken.FindOrCreateFor` | lib/doorkeeper/models/access_token_mixin.rb:87-99 | a fresh token with the application's id and uid (nil for no application), the owner, scopes, clock time, lifetime and flag, and both strings generated |
| `AccessTokens.AccessToken.Create` | lib/doorkeeper/models/access_token_mixin.rb:101-105 | a fresh token with the given attributes and both strings generated |
| `AccessTokens.AccessToken.GenerateTokens` | lib/doorkeeper/models/access_token_mixin.rb:141-159 | the token's new attributes are `Generated` of its old ones |
| `AccessTokens.AccessToken.Revoke` | lib/doorkeeper/models/access_token_mixin.rb:113-116 | the table grows by exactly what `RevocationOf` says, or is unchanged when that raises; a revoked refresh-type token's `refresh_token` is then found in the table; a token with no `token` attribute is still not `revoked?` |
| `AccessTokens.AccessToken.Revoked` | lib/doorkeeper/models/access_token_mixin.rb:123-125 | true iff the table holds the token's `token` attribute (not `refresh_token`); false when `token` is nil |
| `AccessTokens.AccessToken.TokenType` | lib/doorkeeper/models/access_token_mixin.rb:165-167 | always `bearer` |
| `AccessTokens.AccessToken.UseRefreshToken` | lib/doorkeeper/models/access_token_mixin.rb:169-172 | answers the flag's truthiness (false when unset) and stores false into an unset flag |
| `AccessTokens.AccessToken.SameCredential` | lib/doorkeeper/models/access_token_mixin.rb:194-197 | holds iff `application_id` and `resource_owner_id` both agree; the client uid is not compared |
| `AccessTokens.SameCredentialEquivalence` | lib/doorkeeper/models/access_token_mixin.rb:194-197 | credential equality is reflexive, symmetric and transitive |
| `AccessTokens.DecodedTokensIgnoreClient` | lib/doorkeeper/models/access_token_mixin.rb:35-37 | two tokens read from JWTs of one owner agree on both compared attributes even when their client uids differ |
| `AccessTokens.RefreshJwtNeverRevoked` | lib/doorkeeper/models/access_token_mixin.rb:45-49 | a token read from a non-access JWT has no `token` attribute, so `revoked?` cannot see it; if its type is `refresh` and the JWT is well-formed, revoking it still inserts that JWT |
| `AccessTokens.AccessToken.ScopesString` | lib/doorkeeper/models/concerns/scopes.rb:9-11 | the stored raw string, unchanged |
| `AccessTokens.AccessToken.ParsedScopes` | lib/doorkeeper/models/concerns/scopes.rb:5-7 | the parse of the same string that `ScopesString` returns |
| `AccessTokens.AccessToken.IncludesScope` | lib/doorkeeper/models/concerns/scopes.rb:13-15 | vacuously true, or true iff some wanted scope is among the parsed scopes; a function, so the stored scopes are unchanged |
| `AccessTokens.AccessToken.Acceptable` | lib/doorkeeper/models/access_token_mixin.rb:206-208 | true iff accessible and (no wanted scopes, or some wanted scope is granted) |
| `AccessTokens.AccessToken.IncludesScopeAsWritten` | lib/doorkeeper/models/concerns/scopes.rb:13-15 | with `scopes` resolved to the record's accessor, the call is `true` for no wanted scopes and raises `NoMethodError` otherwise |
| `AccessTokens.AccessToken.AcceptableAsWritten` | lib/doorkeeper/models/access_token_mixin.rb:206-208 | false when not accessible; otherwise whatever `IncludesScopeAsWritten` gives |
| `AccessTokens.ShadowedScopesRaise` | lib/doorkeeper/orm/active_record/access_token.rb:6-8 | for a token granted `read`, `acceptable?(['read'])` raises as written, where the concern's reading answers true |
| `AccessTokens.AccessToken.DeleteAllFor` | lib/doorkeeper/orm/active_record/access_token.rb:10-13 | returns nil; being a function it changes no state |
| `AccessTokens.AccessToken.ActiveFor` | lib/doorkeeper/orm/active_record/access_token.rb:24-26 | returns nil; being a function it changes no state |
| `AccessTokens.AccessToken.OrderMethod` | lib/doorkeeper/orm/active_record/access_token.rb:29-31 | always `order` |
| `AccessTokens.AccessToken.RefreshTokenRevokedOnUse` | lib/doorkeeper/orm/active_record/access_token.rb:33-35 | always false |
| `AccessTokens.AccessToken.CreatedAtDesc` | lib/doorkeeper/orm/active_record/access_token.rb:38-40 | always `created_at desc` |
| `RefreshGrant.RefreshTokenRequest.constructor` | lib/doorkeeper/oauth/refresh_token_request.rb:15-26 | `:scope` wins over `:scopes` whenever given; the client is looked up by uid and secret only when credentials exist, and is nil otherwise |
| `RefreshGrant.RefreshTokenRequest.ValidateTokenPresence` | lib/doorkeeper/oauth/refresh_token_request.rb:64-66 | a refresh token object, or a non-blank `refresh_token` parameter |
| `RefreshGrant.RefreshTokenRequest.ValidateToken` | lib/doorkeeper/oauth/refresh_token_request.rb:68-70 | a refresh token object that is not `revoked?` |
| `RefreshGrant.RefreshTokenRequest.ValidateClient` | lib/doorkeeper/oauth/refresh_token_request.rb:72-74 | no credentials, or credentials that found an application |
| `RefreshGrant.RefreshTokenRequest.ValidateClientMatch` | lib/doorkeeper/oauth/refresh_token_request.rb:76-78 | no client, or a client whose uid equals the token's `application_uid` |
| `RefreshGrant.RefreshTokenRequest.ValidateScope` | lib/doorkeeper/oauth/refresh_token_request.rb:80-86 | no requested scopes (blank counts as none), or `ScopeChecker.valid?` of the requested string against the token's scopes |
| `RefreshGrant.RefreshTokenRequest.Validate` | lib/doorkeeper/oauth/refresh_token_request.rb:6-10 | the first failing validation, in the order presence, token, client, client_match, scope, gives `invalid_request`, `invalid_grant`, `invalid_client`, `invalid_grant` or `invalid_scope` respectively (the predicates are at lines 64-86); success means a non-revoked token, a matching client uid when there is a client, and accepted scopes when some were requested |
| `RefreshGrant.RefreshTokenRequest.DefaultScopes` | lib/doorkeeper/oauth/refresh_token_request.rb:40-42 | the refresh token's parsed scopes |
| `RefreshGrant.RefreshTokenRequest.AccessTokenAttributes` | lib/doorkeeper/oauth/refresh_token_request.rb:48-58 | the new token copies `application_id`, `application_uid` and `resource_owner_id` from the refresh token and sets `use_refresh_token: true` |
| `RefreshGrant.RefreshTokenRequest.BeforeSuccessfulResponse` | lib/doorkeeper/oauth/refresh_token_request.rb:30-46 | a revoked token raises `InvalidTokenReuse` with the table and `access_token` unchanged; otherwise the refresh token is revoked (always, as the policy is false); if that raises nothing else changes, and if not, a fresh token with `AccessTokenAttributes` is created |
| `RefreshGrant.RefreshJwtReplayPasses` | lib/doorkeeper/oauth/refresh_token_request.rb:68-70 | a request over a token with no `token` attribute always passes the token validation, whatever the table holds |

## Findings

| source | as written | input that shows it | evidently intended | confidence | as-written member | corrected member |
|---|---|---|---|---|---|---|
| lib/doorkeeper/orm/active_record/access_token.rb:6-8 | The class's `attr_accessor :scopes` comes before the mixed-in `Models::Scopes#scopes` in Ruby's method lookup. So `scopes` is the raw string, and `includes_scope?` sends `exists?` to a String. | An accessible token with scopes `"read"`; `acceptable?(['read'])` raises `NoMethodError` (`AccessTokens.ShadowedScopesRaise`). | `scopes` is the parsed `OAuth::Scopes`; `includes_scope?` and `acceptable?` answer the any-of question. | medium, not executed | `AccessTokens.AccessToken.AcceptableAsWritten` | `AccessTokens.AccessToken.Acceptable` |

The rest of the model uses the concern's reading of `scopes`:
- `ParsedScopes`, `IncludesScope` and `Acceptable`;
- `DefaultScopes` and `ValidateScope` in the refresh grant, which as written would receive the raw string.

## Left out

- JWT signing, verification and expiry (`::JWT.decode` with the configured secret and algorithm) are not modelled. `Decode` takes a `verify` function whose outcome is a payload, a decode error or an expired signature. Errors from the JWT library other than these two are not modelled.
- Token generation is the parameter `generate: Claims -> string`. Two things are not modelled: choosing the generator by name (`constantize`), and its errors `TokenGeneratorNotFound` and `UnableToGenerateToken`, which depend on configuration.
- `User.find_by_email` and `Application.by_uid_and_secret` are lookup functions passed as parameters. The database itself is not modelled.
- `OAuth::Scopes.from_string`, `ScopeChecker.match?`, `ScopeChecker.valid?` and `accessible?` (expiry plus revocation) are left uninterpreted as parameters. Their code is not part of this model. So the subset law of scope matching is not stated.
- `BaseRequest` is not part of this model. That covers two things:
  - Its runner calls `Validate` and then `BeforeSuccessfulResponse`. Here they are two separate members.
  - Its `scopes` resolves the requested scopes against `default_scopes`. Here that is the parameter `buildScopes`.
- `Time.now.utc` and `Authorization::Token.access_token_expires_in(server, client)` are the parameters `now` and `expiresIn`. The `server` attribute is therefore not kept.
- Concurrency is not modelled, so nothing is stated about atomicity between the reuse check, the revocation and the creation. The code has no locking.
- `as_json`, `matching_token_for`, `last_authorized_token_for`, `revoke_all_for` and `revoke_previous_refresh_token!` are left out. They are serialisation or nil-returning stubs. `by_token` and `by_refresh_token` are aliases of `new_by_jwt`.
- The table-name setting and ActiveRecord's validation machinery are left out. Only the validation predicate and the stored set remain.
- The `attr_accessor` setters are Dafny field assignments. Assigning one field leaves the others unchanged by Dafny's semantics, so they are not separate members.
- Payload claims have fixed types. `iat` and `exp` are integers and are assumed present. `scopes` is a string. `type` is compared as a string, so a non-string type is not modelled. `created_at` is the integer `iat`, not a `DateTime`.
- RefreshGrant.RefreshTokenRequest.DefaultScopes: returns the concern's parsed scopes. As written, the record's `attr_accessor :scopes` hands back the raw string instead (see Findings).
- RefreshGrant.RefreshTokenRequest.ValidateScope: passes the concern's parsed scopes to `ScopeChecker.valid?`. As written, it would receive the raw string (see Findings).
- Scope arguments and scope strings are strings. Symbols, and nil scopes (modelled as the empty string), are not modelled separately.
- `blank?` treats a string as blank when every character has the Unicode White_Space property. This approximates Ruby's `[[:space:]]`.
