# The authorization-code protocol of iam-service, modelled and proved

iam-service is an OAuth 2.0 authorization server: browsers log in, clients redirect them to
`/oauth/authorize`, exchange the code they get back (with its PKCE verifier) for an access token and a
refresh token, and may refresh the access token later. Sessions and codes live in one Redis key space,
users, clients and refresh tokens in three SQL tables, and `net/http` runs the handlers concurrently.

The model has three layers.

**Codecs and lists** (`Base64Url`, `Hex`, `BigEndian`, `Keys`, `Scopes`, `Slices`, `Redirects`, `Crypto`).
They are written out and proved: unpadded base64url (section 5 of RFC 4648), Base64urlUInt (section 6.3.1
of RFC 7518), the hex form of a token hash, space-delimited scope lists (section 3.3 of RFC 6749), the JWK
thumbprint input (section 3 of RFC 7638). SHA-256 and bcrypt are parameters with the three laws that the
service relies on (`Crypto.Primitives.Valid`): a digest has 32 bytes, a hash of a password of at most 72
bytes is not empty, and it accepts that password; `Crypto.LawsAreConsistent` shows that they can be met.

**The imperative layer** (`Cache`, `Repositories`, `Services`, `TokenGrant`, `Auth`, `ClientRegistration`).
The store, the tables, the repositories and the services are classes whose methods change them in place.
Each call takes what the outside supplies (instants, random values, whether a call fails). Its contract
says what the call achieves, in both directions where it can succeed or fail, and that it does exactly
what the steps of its request do (`Sequential.Behaves`).

**The concurrent layer** (`Protocol`, `Machine` and what builds on them). Each handler is a program of
atomic steps: a repository call, a reading of the clock or a random draw, with the pure checks that follow
it. A configuration holds the shared state, any number of requests with their program counters, and a
record of the past that no step reads. Its actions are a step of one request, an arrival, the passing of
time, and maintenance (`UserRepository.Delete`, `Revoke`, `RevokeAllForUser`, `DeleteExpired`). A call may
fail at any step without effect. Values drawn at random are new and their digests do not collide with
those of earlier draws (`Machine.Fresh`); no more is assumed of the digest. All theorems below that
mention runs hold for every sequence of actions, that is, for every interleaving of any number of
requests. `Embedding` says that a service call is such a run, so the theorems apply to the classes too.

| module | models |
|---|---|
| `Entities` | `internal/models`, `internal/dtos`, the lifetimes in `internal/repository` and `internal/service/token.go` |
| `Store`, `Cache` | `internal/cache/redis.go`, the key prefixes of `internal/repository` |
| `Tables`, `Repositories` | `internal/repository`, `database/migrations` |
| `Protocol` | the handlers of `internal/service` step by step (`GrantStep`, `AuthorizeStep`, `LoginStep`, `LogoutStep`, `RefreshStep`, `RegisterStep`, `RegisterClientStep`) |
| `TokenGrant`, `Auth`, `ClientRegistration` | `internal/service/token_grant.go`, `auth.go`, `client.go` as classes |
| `Machine`, `Invariants`, `Growth`, `Preservation`, `Records`, `Effects`, `Safety` | interleaving, and the invariant with its proof |
| `Answers`, `Sightings`, `Linearisation`, `Provenance`, `Lifetime`, `Conservation`, `Uniqueness`, `GarbageCollection`, `Maintenance`, `SessionEnd`, `Decision`, `Registration`, `Outcomes`, `RoundTrip` | the theorems about runs |

Where the code and its comments disagree, the model follows the code:

- The comments on `IssueAccessToken` (internal/service/token.go:27-28) and on the row type
  (internal/models/tokens.go:9-11) say that the legacy refresh carries no client and no scope. It carries
  those of the row (internal/service/auth.go:186), and the model does too.
- `RefreshToken` never reads `revoked_at` (internal/service/auth.go:166-179). `RoundTrip.ReturnedTokenRefreshes`
  gives the exact condition for a refresh to succeed under any interleaving, and revocation is not part of it.
- Validation admits challenges of 43 to 128 characters (internal/dtos/auth.go:61). Only those that are the
  43-character S256 form of some verifier can ever be redeemed (`Conservation.RedeemedChallenge`).
- `token_hash` has no unique constraint (database/migrations/00001_create_users_and_tokens.sql:11-20); that
  it works as a key is a theorem, not an assumption (`Uniqueness.HashesDistinct`).

## Model

| member | source | states |
|---|---|---|
| Base64Url.RoundTrip | internal/service/token_grant.go:111-112 | unpadded encoding decodes back to the same bytes, for every byte string |
| Base64Url.DecodeIsInverse | internal/service/token_grant.go:112-114 | a string is the encoding of some bytes exactly when strict decoding yields those bytes, so comparing strings is comparing digests |
| Base64Url.Shape | internal/repository/auth_code.go:43-47 | n bytes give ceil(4n/3) characters, all of the URL alphabet |
| Base64Url.CharacterAt | internal/repository/auth_code.go:43-47 | each character writes the next six bits, the most significant bit of each byte first, with the code points of A-Z, a-z, 0-9, hyphen and underscore in this order |
| Base64Url.Injective | internal/service/token.go:85-86 | different bytes have different encodings |
| Hex.Shape | internal/service/auth.go:301-304 | two lowercase hexadecimal digits for each byte |
| Hex.DigitsAt | internal/service/auth.go:301-304 | the higher digit of each byte first, as indices into "0123456789abcdef" |
| Hex.Injective | internal/service/auth.go:301-304 | different digests are stored as different strings |
| BigEndian.RoundTrip | internal/service/token.go:85-86 | the minimal big-endian bytes read back as the same number and do not begin with a zero byte |
| BigEndian.OnlyMinimal | internal/service/token.go:85-86 | conversely, every byte string without a leading zero is the one written for its value |
| Keys.UintRoundTrip | internal/service/token.go:85-86 | a reader of the published key recovers every positive modulus and exponent |
| Keys.UsualExponent | internal/service/token.go:86 | the exponent 65537 is published as "AQAB", whatever the modulus |
| Keys.ReaderRecoversKey | internal/service/token.go:84-110 | the published set has one signing key; reading its n and e gives back the modulus and the exponent, in that order, and its kid is the digest of its own e, kty and n in this order without white space |
| Keys.CanonicalIsUnambiguous | internal/service/token.go:106-110 | two thumbprint inputs are equal only if both members are, as no quote can occur inside a member |
| Keys.KidNamesKey | internal/service/token.go:84-110 | distinct keys publish distinct (n, e); and unless the digest collides on the two inputs, equal kid means equal key |
| Scopes.FieldsAreTokens | internal/service/auth.go:219 | splitting yields non-empty words without white space |
| Scopes.FieldsSplit | internal/service/auth.go:219 | white space of any kind separates: each side of it is split on its own |
| Scopes.FieldsAround | internal/service/auth.go:219 | each of the 25 white-space code points, given by number, separates: the two sides of it are split on their own |
| Scopes.FieldsOfWord | internal/service/auth.go:219 | nothing else separates: a non-empty string with none of the 25 code points is one field |
| Scopes.FieldsOfScopeTokens | internal/service/auth.go:218-219 | scope tokens (%x21, %x23-5B, %x5D-7E) with single spaces between them are read as exactly those tokens |
| Scopes.FieldsKeepText | internal/service/auth.go:219 | splitting drops nothing but white space and keeps the order |
| Scopes.JoinThenFields | internal/service/token_grant.go:124 | splitting the joined scope gives back exactly the list |
| Scopes.JoinAround | internal/service/token_grant.go:124 | what stands between two joined words is one space, and nothing stands around them |
| Crypto.ChallengeAccepted | internal/service/token_grant.go:107-114 | the challenge comparison succeeds exactly when the stored challenge is the canonical encoding of the verifier's digest, and then it has 43 characters |
| Crypto.HashTokenSeparates | internal/service/auth.go:299-304 | the stored hash is 64 hexadecimal digits, those of the digest in its order, and tells two tokens apart exactly when their digests differ |
| Crypto.SecretFits | internal/service/client.go:51-60 | the generated secret has 43 characters and as many bytes, within the 72 bytes bcrypt can hash |
| Crypto.Utf8Counts | internal/service/auth.go:108 | the number of bytes of a string is one for each character, and one more for each from U+80, from U+800 and from U+10000 on |
| Slices.ContainsAll | internal/utils/slices.go:4-15 | the hash-set loop decides list inclusion, both ways |
| Redirects.MergePairs | internal/httpx/httpx.go:40-45 | each key ends with the last non-empty value given for it as its only value; every other key keeps what the base carried |
| Redirects.LastValueIsLast | internal/httpx/httpx.go:41-45 | that value is paired with the key, is not empty, and no later pair sets the key again; there is none exactly when every pair of the key is empty |
| Store.KeysApart | internal/repository/auth_code.go:25-65 | for all caller-supplied ids, session keys ("session:" and the id) and code keys ("authcode:" and the code) never meet, and a key determines its id |
| Store.FindIsTypedLookup | internal/cache/redis.go:58-67 | looking a key up in the one flat map is looking its id up in the typed map of live sessions or of live codes |
| Store.PutSession | internal/repository/session.go:49 | storing a session writes one binding of the session map; the code map is unchanged |
| Store.PutCode | internal/repository/auth_code.go:55 | storing a code writes one binding of the code map; the session map is unchanged |
| Store.DropSession | internal/repository/session.go:75-80 | destroying a session removes it and nothing else, whatever the id |
| Store.DropCode | internal/repository/auth_code.go:64-68 | consuming a code removes it and nothing else, whatever the code |
| Store.TimePasses | internal/repository/session.go:49 | lazy expiry in the flat map is eager expiry in the typed maps |
| Store.EachSetIsTakenOnce | internal/cache/redis.go:49-80 | over any sequence of commands a key is answered by GETDEL at most as often as it was set |
| Tables.UserByEmailFinds | internal/repository/user.go:44-54 | the lookup reports a user exactly when the email is in use, and with unique emails it reports that user |
| Cache.RedisClient.Set | internal/cache/redis.go:49-54 | the key serves the value until its time is up (for ever with ttl 0); all other keys are untouched; a failed call changes nothing |
| Cache.RedisClient.Get | internal/cache/redis.go:58-67 | the live value or key-not-found |
| Cache.RedisClient.GetDel | internal/cache/redis.go:71-80 | what Get would answer, after which the key is never found; other keys are untouched |
| Cache.RedisClient.Delete | internal/cache/redis.go:83-88 | exactly the given keys are gone; missing ones are ignored |
| Repositories.AuthCodeRepository.Create | internal/repository/auth_code.go:42-59 | success stores the stamped data for 60 seconds under a new 43-character code; failure changes nothing |
| Repositories.AuthCodeRepository.Consume | internal/repository/auth_code.go:64-78 | the data of a live code, which can never be consumed again; unknown or expired codes are reported as not found |
| Repositories.SessionRepository.Create | internal/repository/session.go:38-54 | the session is found for 30 days, and never after the instant that is returned |
| Repositories.SessionRepository.Get | internal/repository/session.go:58-72 | the live session or session-not-found |
| Repositories.SessionRepository.Destroy | internal/repository/session.go:75-80 | the session is never found again; a missing one is no error |
| Repositories.UserRepository.Create | internal/repository/user.go:24-31 | inserts exactly when id and email are free, keeping emails unique |
| Repositories.UserRepository.GetByEmail | internal/repository/user.go:44-54 | an absent value exactly when the email is not in use; otherwise its only user |
| Repositories.UserRepository.Delete | internal/repository/user.go:57-63 | removes the user and, by the cascade, exactly its refresh rows, leaving the others as they were; the foreign key keeps holding |
| Repositories.ClientRepository.Create | internal/repository/client.go:23-31 | the registry only grows: an id in use is refused, never overwritten |
| Repositories.RefreshTokenRepository.Create | internal/repository/refresh_token.go:24-32 | inserts exactly when the id is free and the user exists |
| Repositories.RefreshTokenRepository.GetActiveByUserID | internal/repository/refresh_token.go:48-58 | exactly the user's rows that are neither revoked nor at or past their expiry |
| Repositories.RefreshTokenRepository.Revoke | internal/repository/refresh_token.go:61-70 | the time of revocation of that row is written, also when it was revoked before, and nothing else in the table changes |
| Repositories.RefreshTokenRepository.RevokeAllForUser | internal/repository/refresh_token.go:73-82 | the unrevoked rows of the user get the time, so that none is active at any instant; rows of others are unchanged and earlier revocations keep their time |
| Repositories.RefreshTokenRepository.DeleteExpired | internal/repository/refresh_token.go:85-91 | afterwards a row is stored exactly if it was and its expiry is not before the clock, and then unchanged |
| Repositories.RefreshTokenRepository.GetTokenByHash | internal/repository/refresh_token.go:93-104 | a stored row with that hash, and none exactly when no row has it |
| Services.GenerateFromPassword | internal/service/auth.go:108-111 | hashing refuses exactly the passwords of more than 72 bytes in UTF-8, counted by code points; every hash it makes accepts its password |
| Services.IssueAccessToken | internal/service/token.go:29-52 | the token names the given user, email, client and scope, and there is none exactly when signing fails; it expires 900 seconds after the first reading of the clock, so with a monotone clock it lives for at most fifteen minutes from its time of issue |
| TokenGrant.TokenGrantService.RedeemCode | internal/service/token_grant.go:72-114 | passes if and only if the client is registered and is public or presents its secret, the code is live, the client and the redirect target are those of the code, its method is S256 and its challenge is the unpadded base64url form of the digest of the verifier; invalid_grant exactly if the client is in order and any of the rest is not, invalid_client exactly if the client is not; the presented code is gone exactly if the client is in order and the consumption gets through |
| TokenGrant.TokenGrantService.Mint | internal/service/token_grant.go:124-153 | the whole answer and exactly one new row with the hash of the returned token (a Bearer token of 900 seconds, a row of 604800), or an error and no row |
| TokenGrant.TokenGrantService.AuthorizationCodeGrant | internal/service/token_grant.go:72-154 | tokens if and only if the code is rightly presented as for RedeemCode, its user exists and no call fails, and then the answer and the one new row in full; invalid_client and invalid_grant exactly when they should be; a failure changes no table; store, tables and answer are those of the request's seven steps |
| TokenGrant.TokenGrantService.Exchange | internal/service/token_grant.go:56-66 | "authorization_code" goes to the code grant, "refresh_token" is not implemented, and every other grant type is unsupported; both refusals touch nothing |
| Auth.AuthService.Register | internal/service/auth.go:99-124 | a user is added if and only if no user has the email, the id is free, the password has at most 72 bytes in UTF-8 (counted by code points) and no call fails; its hash accepts the password; "email taken" is reported exactly when some user has it |
| Auth.AuthService.Login | internal/service/auth.go:135-156 | a session of 30 days is stored if and only if some user has this email and password and no call fails, and then for that user; an unknown email and a wrong password get the same error, and nothing else gets it |
| Auth.AuthService.Logout | internal/service/auth.go:159-164 | the session is never found again; every other key is unchanged, and every key if the call fails; an empty id is accepted without a call |
| Auth.AuthService.RefreshToken | internal/service/auth.go:166-196 | changes nothing; succeeds if and only if a row has the hash of the presented string and has not expired and no call fails, and then with claims for the user, client and scope of the row and fifteen minutes; "not found" and "expired" are reported exactly when they are so |
| Auth.AuthService.Authorize | internal/service/auth.go:202-267 | every answer in full, by the checks in their order: unknown client, unregistered target, missing or unregistered scope, "none" among other prompts, no session, code; a code is stored for 60 seconds exactly when the answer is to issue it, for what was asked and for the user of the live session; a request for registered scope tokens with single spaces between them is never told that its scope is invalid |
| Auth.AuthService.Check | internal/service/auth.go:214-230 | the checks before the session lookup, in their order and with the answer of each in full, with list inclusion done by the hash set |
| Auth.AuthService.SessionByID | internal/service/auth.go:283-295 | no session for an empty id or for one with no live session behind it; other failures are errors |
| ClientRegistration.CheckGrantTypes | internal/service/client.go:39-48 | the loop finds no offence exactly when every type is "authorization_code" or "refresh_token"; otherwise the first other one decides, and "client_credentials" there is reported as such to a public client |
| ClientRegistration.ClientService.RegisterClient | internal/service/client.go:38-84 | succeeds if and only if every grant type is "authorization_code" or "refresh_token", the id is free and no call fails, and then stores one client whose hash accepts the returned 43-character secret (no secret and no hash for a public client); otherwise it changes nothing and the first other grant type decides the error; the hashing of the secret cannot fail |
| Embedding.CallIsARun | internal/service/token_grant.go:72-154 | what a service call is proved to do is where the machine ends when the request arrives and runs undisturbed |
| Embedding.ScheduleRuns | internal/service/token_grant.go:72-154 | from any configuration a request can run to its end: every script with instants in order and new draws is a run |
| Safety.ReachableInv | internal/service/token_grant.go:72-154 | every configuration that any run reaches satisfies the invariant (every pending request, every past event, every store entry, every row) |
| Safety.RunsGrow | internal/repository/client.go:23-44 | over any run the registry and the record of the past only grow; no request is forgotten, changes what it asks for or goes back behind the consumption of its code, and a finished one keeps its answer |
| Answers.RunsAnswered | internal/service/auth.go:198-202 | in every run every request is answered in kind or with an error |
| Linearisation.ReachableIsAtomic | internal/service/token_grant.go:72-154 | every interleaving is a run of an atomic specification in which a code is redeemed in one action when the store gives it up, judged by the registry of that moment, and tokens are delivered in one action, judged by the users of that moment |
| Linearisation.AbandonsAreExcused | internal/service/token_grant.go:116-145 | the atomic specification lets a bound redemption be abandoned only for a failed call or a user that is gone; and one abandoned for a failed call is one whose own request, the one that consumed the code, had a call fail |
| Linearisation.ClientStillThere | internal/service/token_grant.go:73-87 | the client read before the consumption is the one registered when the code is consumed |
| Linearisation.DeliveryJudged | internal/service/token_grant.go:116-145 | the user read before the insertion is the one in the table when the row is inserted |
| Provenance.RecordsAreEvents | internal/service/auth.go:246-257 | the record of the past holds exactly the events that occurred in the run |
| Provenance.AccessTokenProvenance | internal/service/auth.go:166-267 | every access token ever returned, also by a legacy refresh, leads back through one consumed code to one authorization under a session that the store served to it and that a login stored after checking the password, with user, client, redirect target, scope and challenge equal along the chain; and all five events (session stored, session found, code issued, code consumed, tokens minted) occurred in the run |
| Provenance.RefreshRowProvenance | internal/service/token_grant.go:135-142 | every stored refresh row leads back in the same way and names an existing user |
| Provenance.OneMintPerCode | internal/repository/auth_code.go:61-78 | codes, rows, raw tokens and successful redemptions correspond one to one |
| Provenance.ResponseMatchesRow | internal/service/token_grant.go:132-153 | a returned response had exactly one row inserted, with its user, client, scope list and the hash of its raw token |
| Provenance.ScopeIsPreserved | internal/service/auth.go:219-222 | the scope string of the code grant and of every later refresh is the same, reparses to the list the authorization asked for, is not empty and was registered by the client |
| Lifetime.EndToEndLifetime | internal/service/token.go:29-60 | if every request finishes within d, no access token outlives its login by more than 30 d + 60 s + 7 d + 15 min + 3d, however many refreshes lie between |
| Lifetime.TokensAreDated | internal/service/token.go:29-60 | in every run a returned access token, of an exchange or of a refresh, lasts at least fifteen minutes from the consumption of the code or the expiry check, and at most fifteen from its time of issue; the refresh row of an exchange lasts at least seven days from that consumption |
| Lifetime.RowExpiryIsFixed | internal/service/auth.go:176-186 | no action rewrites the expiry (or anything but the revocation) of a stored row |
| Conservation.CodesAreConserved | internal/service/token_grant.go:89-145 | in every run each code ever issued is in exactly one of five states (servable, lapsed, in redemption, redeemed, burned), and the store serves exactly the servable ones, with the data they were issued for |
| Conservation.RedeemedMeansMinted | internal/repository/auth_code.go:61-68 | a code is redeemed exactly when tokens were minted for it, and then once |
| Conservation.ConsumptionDecides | internal/service/token_grant.go:89-114 | in every run a consumption succeeds exactly when the code is servable and the token request has the client and the redirect target of the authorization request that the code was issued to, with a verifier of the S256 challenge sent there; a servable code presented in any other way is burned |
| Conservation.ExchangeFootprint | internal/service/token_grant.go:72-154 | no step of an exchange changes clients, users or sessions; a failing one changes no row and at most deletes the presented code |
| Conservation.FailedExchangeLeavesNothing | internal/service/token_grant.go:72-154 | in every run an exchange that failed has no row and no token to its name and can have taken no code but the one it presented, which is then burned; one refused for its client has taken none |
| Conservation.RedeemedChallenge | internal/dtos/auth.go:61 | the challenge of a redeemed code has exactly 43 characters and decodes to the digest of the presented verifier |
| Uniqueness.HashesDistinct | internal/repository/refresh_token.go:93-104 | no two rows of a reachable table have the same hash, although the schema would allow it |
| Uniqueness.LookupByRawToken | internal/service/auth.go:166-174 | through any creates, revocations and deletions, the hash of a returned token finds exactly its row, or nothing once the row is gone |
| Uniqueness.OnlyTheRawTokenFinds | internal/service/auth.go:166-174 | a presented string that finds a row is its raw token unless the digest collides on the two |
| Uniqueness.EmailsStayDistinct | database/migrations/00001_create_users_and_tokens.sql:5 | emails stay pairwise distinct in every run |
| Uniqueness.OneRegistrationPerEmail | database/migrations/00001_create_users_and_tokens.sql:5 | of the registrations of an email whose users still exist only one succeeded |
| Uniqueness.RaceIsDecidedByTheTable | internal/service/auth.go:99-124 | two registrations of a free email both pass the lookup; the unique column makes the second insertion fail |
| GarbageCollection.CollectionIsInvisible | internal/repository/refresh_token.go:85-91 | inserting DeleteExpired anywhere in any run changes no user's active rows and leaves every request where it was, then or later, but for refreshes of an expired row, which fail in both runs |
| GarbageCollection.FindRowAlike | internal/service/auth.go:166-179 | with and without the collected rows, a lookup by hash finds the same row, or one that the expiry check then rejects |
| Maintenance.CollectedIsNotFound | internal/repository/refresh_token.go:85-91 | right after DeleteExpired a row is stored exactly if it was and had not expired; a refresh with the token of a row that had expired, whenever it arrives later in any run, is told "not found" |
| Maintenance.RevocationIsFinal | internal/repository/refresh_token.go:61-70 | Revoke writes the time into that row only, and in every run the row stays revoked as long as it is stored |
| Maintenance.RevokingAllIsFinal | internal/repository/refresh_token.go:73-82 | RevokeAllForUser writes the time into the unrevoked rows of that user only; in every run an unrevoked row of the user was inserted afterwards |
| Maintenance.DeletionIsFinal | internal/repository/user.go:57-63 | the deletion of a user removes that user and its rows only; in every run afterwards the user is not there, no row names it, nothing is minted for it, and no request that arrives later gets a session or a token for it |
| SessionEnd.LogoutEnds | internal/service/auth.go:159-164 | the step of a logout ends the session |
| SessionEnd.ExpiryEnds | internal/repository/session.go:21 | so does the passing of its 30 days |
| SessionEnd.LogoutIsFinal | internal/service/auth.go:232-243 | an ended session stays ended, and in every run a code issued under it comes from a request that had looked it up before it ended |
| SessionEnd.AfterLogout | internal/service/auth.go:159-164 | whatever runs at the same time, after the step of a logout the session is never found again, and codes under it come only from requests that had looked it up before |
| SessionEnd.LogoutEndsOnlyItsSession | internal/repository/session.go:74-80 | a logout leaves every other session and every code as it was; an unknown id changes nothing |
| SessionEnd.CookieCoversSession | internal/repository/session.go:49-53 | the expiry returned by a login is never earlier than that of the stored session |
| Decision.SessionDecides | internal/service/auth.go:232-243 | it goes on exactly when a live session stands behind the cookie, and then with that session; otherwise prompt=none decides between an error and the login page |
| Decision.EveryDecision | internal/service/auth.go:202-278 | every authorization none of whose own calls has failed is answered, never cut off by an error, and every answer in every run is the one called for by the registry, which only grows, and by what the lookups saw: a bad scope and a conflicting prompt are reported to the client; a target is called unregistered only for a client that did not register it; a client is called unknown exactly when it was missing at the lookup; a login is asked for exactly when no session was found at the lookup; a code is issued only after one was found; redirect targets occur only in two of the actions and are registered |
| Decision.RegisteredScopesAreAccepted | internal/service/auth.go:218-222 | in every run an authorization for scope tokens that its client registered, with single spaces between them, is never told that its scope is invalid |
| Sightings.ShownIsSeen | internal/service/auth.go:205-243 | in every run the answers that rest on a lookup are tied to it: both ways for the lookups that find nothing, and for a found session as far as a code may still fail to be stored |
| Decision.RedeemedTargetIsRegistered | internal/repository/client.go:23-44 | the redirect target of a redeemed code is still registered for its client |
| Registration.FirstOffenceIsFirst | internal/service/client.go:39-48 | there is no offence exactly when every type is "authorization_code" or "refresh_token"; otherwise the first other type is reported, as the public-client error exactly if it is "client_credentials" and the client public |
| Registration.EveryClient | internal/service/client.go:65-73 | every stored client comes from a finished registration, lists no grant type but "authorization_code" and "refresh_token", and has an empty hash exactly when it was registered as public |
| Registration.CreatedClientAuthenticates | internal/service/token_grant.go:83-87 | in every later exchange the returned secret authenticates the client, a secret its hash does not match never does, and a public client needs none |
| Outcomes.SucceedsExactly | internal/service/token_grant.go:72-154 | in every run and under any interleaving, a request (of any kind) none of whose own calls fails is answered with success if and only if one condition is met at each of its steps when that step is taken, and otherwise with the one refusal that belongs to the first condition not met; the conditions are on the shared state and on what the request has read of it |
| RoundTrip.VoucherDecides | internal/service/token_grant.go:89-145 | the same for what one endpoint hands to the next: only the things that others can still change remain as conditions |
| RoundTrip.RegisteredUserLogsIn | internal/service/auth.go:99-156 | a login with the email and password of a registration succeeds if and only if an account with them is stored at its lookup, and otherwise gets the one error for a wrong email or password; if that user is there and not deleted meanwhile, the session is that user's |
| RoundTrip.SessionBuysCode | internal/service/auth.go:202-267 | a request naming a registered client, target and scope under a stored session gets a code if and only if the session is served at its lookup, and is sent to log in otherwise; a session neither logged out nor expired by the end is served; the code is for exactly that request and the session's user |
| RoundTrip.IssuedCodeBuysTokens | internal/service/token_grant.go:68-154 | an issued code yields tokens if and only if the token request has the client and the redirect target of the authorization request, a verifier of the S256 challenge sent there and the secret of a confidential client, and the code is unspent and within its minute when it is consumed and its user is there when read and when the row is stored; so if it is rightly presented, nobody else takes it and its user is not deleted; a wrong secret gets invalid_client and any other wrong presentation invalid_grant; the tokens are for its user, client and scope |
| RoundTrip.ReturnedTokenRefreshes | internal/service/auth.go:166-196 | a returned refresh token yields an access token with the same user, client and scope string if and only if its row is stored at the lookup, not past its expiry at the check, and its user there when read, revoked or not; the access token lasts its fifteen minutes from that check; a row gone on arrival means "not found" |
| RoundTrip.DeletionSpoilsRefresh | internal/service/auth.go:181-184 | a refresh whose row is stored and unexpired, and none of whose calls fails, fails all the same if its user is deleted just before it is read |

## Left out

- HTTP, JSON, cookies, headers, routing, configuration, logging, key loading and migrations as such; `resolveClient` and the mapping of errors to statuses read no shared state and only rename what the services answer.
- `url.Parse`, `validateRedirectURI`, `safeNext` and the validator tags rest on libraries that are not part of this model; no tag bound is assumed anywhere, so every theorem also holds for requests that validation would have stopped.
- Redirects.MergePairs: starts from the parsed query; parsing the base and encoding the result are not modelled.
- JSON encoding of sessions, codes and string lists is taken to be faithful; a payload of the wrong kind under a key is an infrastructure error, and `Linearisation.EntriesTyped` shows that there never is one.
- Cryptography: signing is left out and a token is its claims, so `TokenService.Validate` is not modelled; SHA-256 and bcrypt are parameters. A call of bcrypt's comparison is a predicate.
- Failure: a call that fails has no effect; the reads of the clock and draws of UUIDs do not fail.
- Conservation.FailedExchangeLeavesNothing: says nothing of a command that takes effect while its reply is lost, which is not modelled; after a lost reply to the insertion, a failed exchange would have its row.
- Outcomes.SucceedsExactly: speaks of requests that have an answer; that a request is ever scheduled to its end is not claimed (`Embedding.ScheduleRuns` says that it always can be).
- Time is one monotone integer clock in seconds for the service, Redis and MySQL; DATETIME rounding and clock skew are not modelled. A Redis key is served up to and including its expiry instant.
- SQL statements are atomic; string comparison is exact (no collation), and column widths are not modelled.
- Repositories.RefreshTokenRepository.GetActiveByUserID: returns a set, because the statement does not fix an order.
- TokenGrant.TokenGrantService.RedeemCode: together with `Mint` it is the first and the last part of what the source writes as one function; the order of the calls is the same.
- `refreshTokenGrant` and `clientCredentialsGrant` are stubs that return an error; the first is modelled as such, the second is not reachable from `Exchange`.
- The branch for an absent user after the lookup (internal/service/token_grant.go:121-123): the repository returns an error for a missing user, so it is not reached.
- The grant types of a client are not consulted by the code grant, and `revoked_at` is not consulted by the legacy refresh; nothing is claimed that would need them to be.
- `RedisClient.Exists`, `RedisClient.TTL` and `Close` have no callers in the modelled code.
