# get_identity — identity resolution of the `/get-identity` handler

This project models the identity-resolution contract of pcluster-manager's
`/get-identity` handler (`get_identity` in `api/PclusterApiHandler.py`).
The handler has two paths:

- With authentication disabled, it returns a fixed identity record.
- With authentication enabled, it decodes the `accessToken` and `idToken`
  cookies into two claim maps. It merges them into one record
  `{username, user_roles, attributes}`, or it fails with
  `({"message": "No username present in access or id token."}, 400)`.

The identity token is authoritative and the access token is the fallback.
Which claim holds the roles is configured by `USER_ROLES_CLAIM`. The roles
default to `["user"]`. The username and role claims are kept out of the
attributes.

`api/PclusterApiHandler.py` is not part of this model. The contract is
therefore stated from the handler's test module, `api/tests/test_get_identity.py`:

- `Claims` (claims.dfy) holds the claim values and claim sets. It also
  holds the precedence rule over a list of claim sets ordered from most to
  least authoritative. `FirstWith` looks up one claim. `Layered` merges all
  claims.
- `IdentityResolver` (identity_resolver.dfy) holds the record and the
  outcome. `Conforms` is the contract as a relation between two tokens and
  an outcome. It pins what the test assertions pin and leaves open what they
  do not. `Resolve` is a reference resolution proved to satisfy it.
  `GetIdentity` selects between `Bypass` and `Resolve`. The general
  precedence lemmas are stated over arbitrary maps. `ConformingOutcomeIsUnique`
  proves that the contract fixes the outcome completely on inputs that do not
  touch the open cases.
- `GetIdentityScenarios` (get_identity_scenarios.dfy) has one lemma per test
  over its literal maps. Each lemma proves that the reference resolution gives
  the asserted response. Each enabled-auth lemma also proves that this response is the only
  outcome the contract admits.

## Model

| member | source | states |
|---|---|---|
| Claims.FirstWith | api/tests/test_get_identity.py:43-67 | the result is the value from the first claim set that has the key, and no earlier set has it; the result is absent exactly when no set has the key |
| Claims.Layered | api/tests/test_get_identity.py:37-41 | on every key, the merged map agrees with `FirstWith`: it holds the claims of all sets, each with the most authoritative value |
| IdentityResolver.PrecedenceLookup | api/tests/test_get_identity.py:24-66 | for the handler's two tokens, a claim is taken from the identity token when it has the claim, otherwise from the access token, otherwise it is absent |
| IdentityResolver.GetIdentity | api/tests/test_get_identity.py:4-41 | with auth disabled the outcome is the fixed record; with auth enabled it satisfies the resolution contract `Conforms` |
| IdentityResolver.Resolve | api/tests/test_get_identity.py:15-109 | the reference resolution satisfies `Conforms`: identity-token precedence for username and roles, access-token fallback, default roles, attributes without username/role claims, and the single 400 error exactly when neither token has a username |
| IdentityResolver.MergeAttributes | api/tests/test_get_identity.py:37-41 | the attribute keys are both tokens' claims minus `username` and the role-claim key; a key in the identity token takes the identity token's value |
| IdentityResolver.AuthDisabledIgnoresTokens | api/tests/test_get_identity.py:4-13 | with auth disabled the outcome does not depend on tokens or role key and is the record with roles `["user","admin"]`, username `"username"`, attributes `{email: "user@domain.com"}` |
| IdentityResolver.IdentityUsernameWins | api/tests/test_get_identity.py:24-40 | if the identity token carries `username`, the outcome is a record with that username, whatever the access token says |
| IdentityResolver.IdentityRolesWin | api/tests/test_get_identity.py:25-39 | if the identity token carries the role-claim key, `user_roles` is that value verbatim |
| IdentityResolver.AccessTokenIsFallback | api/tests/test_get_identity.py:52-66 | with neither `username` nor the role claim in the identity token, both come from the access token |
| IdentityResolver.RolesDefaultToUser | api/tests/test_get_identity.py:96-108 | with the role claim in neither token and a username from either token, `user_roles` is `["user"]` and the outcome is not an error |
| IdentityResolver.MissingUsernameIsTheOnlyError | api/tests/test_get_identity.py:77-86 | with `username` in neither token the outcome is `({"message": "No username present in access or id token."}, 400)`; no other error exists |
| IdentityResolver.AttributesOfIdentityToken | api/tests/test_get_identity.py:37-41 | `username` and the role-claim key never appear in `attributes`; every other identity-token claim does, with the identity token's value |
| IdentityResolver.ConformingOutcomeIsUnique | api/tests/test_get_identity.py:15-109 | when no blank value is consulted and the access token adds no attribute of its own, any two outcomes meeting the contract are equal |
| GetIdentityScenarios.AuthDisabledScenario | api/tests/test_get_identity.py:6-13 | the auth-disabled response equals `MOCK_IDENTITY_OBJECT` |
| GetIdentityScenarios.BothTokensProvideAttributes | api/tests/test_get_identity.py:15-41 | both tokens full: the response is the identity token's username, roles and email, and no other outcome conforms |
| GetIdentityScenarios.AccessTokenUsedAsFallback | api/tests/test_get_identity.py:43-67 | identity token with only email: username and roles from the access token, email from the identity token, and no other outcome conforms |
| GetIdentityScenarios.NoUsernameProvided | api/tests/test_get_identity.py:69-86 | no username anywhere, with a `user_roles` claim that is not the configured key: the 400 error is the only conforming outcome |
| GetIdentityScenarios.NoUserRolesProvided | api/tests/test_get_identity.py:88-109 | no role claim anywhere: roles `["user"]`, and no other outcome conforms |

## Left out

- The Flask request context and the cookie parsing that yields the two raw tokens: transport plumbing. The model takes the decoded claim maps as parameters.
- `jwt_decode`: foreign signature verification and payload parsing. Its decode failures never reach the resolver. The call order (access token first, then identity token) is the parameter order.
- The `ENABLE_AUTH` environment variable and the module global `USER_ROLES_CLAIM`: process-wide configuration. They are the `authEnabled` and `roleKey` parameters.
- Attribute keys carried only by the access token: no test shows whether they appear in `attributes`. `Conforms` leaves them open and only requires every attribute key to come from one of the tokens. `Resolve` layers them in below the identity token's claims, which is one admissible choice.
- Empty usernames and empty role values (`""`, `[]`): no test exercises them. Wherever such a value would be consulted, `Conforms` leaves that field open. A non-empty username is not required either. `Resolve` falls back on key presence only.
- Claim value shapes: a value is a string or a list of strings. Username and roles keep the shape the token gave them, because the handler copies them verbatim. Other JSON shapes are not modelled.
