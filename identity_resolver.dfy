/** The identity-resolution contract of the `/get-identity` handler: two
    decoded claim sets (access token, identity token) and the configured
    role-claim key are merged into one identity record, or the request fails
    with a 400 response. */
module IdentityResolver {
  import opened Claims

  /** The record the handler returns: `{username, user_roles, attributes}`.
      Username and roles are copied verbatim from a token, so they keep the
      claim's own shape. */
  datatype Identity = Identity(username: ClaimValue, userRoles: ClaimValue, attributes: ClaimSet)

  /** Either the identity record, or the `({"message": ...}, status)` pair. */
  datatype Outcome = Ok(identity: Identity) | Err(message: string, status: int)

  const NoUsernameMessage: string := "No username present in access or id token."
  const BadRequest: int := 400
  const MissingUsername: Outcome := Err(NoUsernameMessage, BadRequest)

  /** Roles given to a user when neither token carries the role claim. */
  const DefaultRoles: ClaimValue := Strs(["user"])

  /** The fixed record returned when authentication is disabled. */
  function Bypass(): Identity {
    Identity(Str("username"), Strs(["user", "admin"]), map["email" := Str("user@domain.com")])
  }

  /** What a resolved record must satisfy, given the two tokens. Cases no
      scenario pins down (blank values, attribute keys only the access token
      carries) are left open. */
  predicate RecordConforms(access: ClaimSet, id: ClaimSet, roleKey: string, r: Identity) {
    // username: the identity token wins, the access token is the fallback
    && (Carries(id, UsernameClaim) ==> r.username == id[UsernameClaim])
    && (UsernameClaim !in id && Carries(access, UsernameClaim) ==> r.username == access[UsernameClaim])
    // roles: same precedence, then the default list
    && (Carries(id, roleKey) ==> r.userRoles == id[roleKey])
    && (roleKey !in id && Carries(access, roleKey) ==> r.userRoles == access[roleKey])
    && (roleKey !in id && roleKey !in access ==> r.userRoles == DefaultRoles)
    // attributes: every other identity-token claim, verbatim
    && UsernameClaim !in r.attributes
    && roleKey !in r.attributes
    && (forall k :: k in id && k != UsernameClaim && k != roleKey ==> k in r.attributes && r.attributes[k] == id[k])
    // and nothing that neither token carries
    && (forall k :: k in r.attributes ==> k in id || k in access)
  }

  /** What the handler's outcome must satisfy when authentication is enabled. */
  predicate Conforms(access: ClaimSet, id: ClaimSet, roleKey: string, o: Outcome) {
    && (UsernameClaim !in id && UsernameClaim !in access ==> o == MissingUsername)
    && (Carries(id, UsernameClaim) || (UsernameClaim !in id && Carries(access, UsernameClaim)) ==> o.Ok?)
    && (o.Err? ==> o == MissingUsername)
    && (o.Ok? ==> RecordConforms(access, id, roleKey, o.identity))
  }

  /** The claim sets of one request, most authoritative first. */
  function Precedence(access: ClaimSet, id: ClaimSet): seq<ClaimSet> {
    [id, access]
  }

  /** Looking a claim up in the two tokens: the identity token first, the
      access token only when the identity token lacks the claim. */
  lemma {:induction false} PrecedenceLookup(access: ClaimSet, id: ClaimSet)
    ensures forall k ::
              FirstWith(Precedence(access, id), k)
              == (if k in id then Some(id[k]) else if k in access then Some(access[k]) else None)
  {
    var tokens := Precedence(access, id);
    assert tokens[1..] == [access];
    assert tokens[1..][1..] == [];
  }

  /** The attribute map of the reference resolution: identity-token claims
      layered over access-token claims, without the username and role claims. */
  function MergeAttributes(access: ClaimSet, id: ClaimSet, roleKey: string): (attrs: ClaimSet)
    ensures attrs.Keys == (id.Keys + access.Keys) - {UsernameClaim, roleKey}
    ensures forall k :: k in attrs && k in id ==> attrs[k] == id[k]
    ensures forall k :: k in attrs && k !in id ==> attrs[k] == access[k]
  {
    PrecedenceLookup(access, id);
    Layered(Precedence(access, id)) - {UsernameClaim, roleKey}
  }

  /** A reference resolution with authentication enabled. */
  function Resolve(access: ClaimSet, id: ClaimSet, roleKey: string): (o: Outcome)
    ensures Conforms(access, id, roleKey, o)
    ensures o.Err? <==> UsernameClaim !in id && UsernameClaim !in access
  {
    PrecedenceLookup(access, id);
    match FirstWith(Precedence(access, id), UsernameClaim)
    case None => MissingUsername
    case Some(username) =>
      var roles := match FirstWith(Precedence(access, id), roleKey)
        case None => DefaultRoles
        case Some(v) => v;
      Ok(Identity(username, roles, MergeAttributes(access, id, roleKey)))
  }

  /** The `/get-identity` handler: the bypass record when authentication is
      disabled, token resolution otherwise. */
  function GetIdentity(authEnabled: bool, access: ClaimSet, id: ClaimSet, roleKey: string): (o: Outcome)
    ensures !authEnabled ==> o == Ok(Bypass())
    ensures authEnabled ==> Conforms(access, id, roleKey, o)
  {
    if authEnabled then Resolve(access, id, roleKey) else Ok(Bypass())
  }

  /** With authentication disabled the outcome is the fixed record, whatever
      the tokens and the role-claim key. */
  lemma AuthDisabledIgnoresTokens(a1: ClaimSet, i1: ClaimSet, k1: string, a2: ClaimSet, i2: ClaimSet, k2: string)
    ensures GetIdentity(false, a1, i1, k1) == GetIdentity(false, a2, i2, k2)
    ensures GetIdentity(false, a1, i1, k1).Ok?
    ensures GetIdentity(false, a1, i1, k1).identity.userRoles == Strs(["user", "admin"])
    ensures GetIdentity(false, a1, i1, k1).identity.username == Str("username")
    ensures GetIdentity(false, a1, i1, k1).identity.attributes == map["email" := Str("user@domain.com")]
  {
  }

  /** The identity token's username wins over the access token's. */
  lemma IdentityUsernameWins(access: ClaimSet, id: ClaimSet, roleKey: string, o: Outcome)
    requires Conforms(access, id, roleKey, o)
    requires Carries(id, UsernameClaim)
    ensures o.Ok? && o.identity.username == id[UsernameClaim]
  {
  }

  /** The identity token's role claim is used verbatim over the access token's. */
  lemma IdentityRolesWin(access: ClaimSet, id: ClaimSet, roleKey: string, o: Outcome)
    requires Conforms(access, id, roleKey, o) && o.Ok?
    requires Carries(id, roleKey)
    ensures o.identity.userRoles == id[roleKey]
  {
  }

  /** Without username and role claim in the identity token, both come from
      the access token. */
  lemma AccessTokenIsFallback(access: ClaimSet, id: ClaimSet, roleKey: string, o: Outcome)
    requires Conforms(access, id, roleKey, o)
    requires UsernameClaim !in id && roleKey !in id
    requires Carries(access, UsernameClaim) && Carries(access, roleKey)
    ensures o.Ok?
    ensures o.identity.username == access[UsernameClaim]
    ensures o.identity.userRoles == access[roleKey]
  {
  }

  /** Without the role claim in either token the roles default to `["user"]`,
      and this is not an error. */
  lemma RolesDefaultToUser(access: ClaimSet, id: ClaimSet, roleKey: string, o: Outcome)
    requires Conforms(access, id, roleKey, o)
    requires Carries(id, UsernameClaim) || (UsernameClaim !in id && Carries(access, UsernameClaim))
    requires roleKey !in id && roleKey !in access
    ensures o.Ok? && o.identity.userRoles == Strs(["user"])
  {
  }

  /** Without a username in either token the only outcome is the 400 error;
      no other claim, role-like or not, changes that. */
  lemma MissingUsernameIsTheOnlyError(access: ClaimSet, id: ClaimSet, roleKey: string, o: Outcome)
    requires Conforms(access, id, roleKey, o)
    ensures UsernameClaim !in id && UsernameClaim !in access ==> o == Err("No username present in access or id token.", 400)
    ensures o.Err? ==> o == Err("No username present in access or id token.", 400)
    ensures o.Err? ==> !Carries(id, UsernameClaim) && (UsernameClaim !in id ==> !Carries(access, UsernameClaim))
  {
  }

  /** The username and role claims never appear among the attributes; every
      other identity-token claim does, with the identity token's value. */
  lemma AttributesOfIdentityToken(access: ClaimSet, id: ClaimSet, roleKey: string, o: Outcome, k: string)
    requires Conforms(access, id, roleKey, o) && o.Ok?
    ensures k == UsernameClaim || k == roleKey ==> k !in o.identity.attributes
    ensures k in id && k != UsernameClaim && k != roleKey ==> k in o.identity.attributes && o.identity.attributes[k] == id[k]
  {
  }

  /** The inputs on which the contract leaves nothing open: no blank username
      or role value is consulted, and the access token carries no attribute
      the identity token lacks. */
  predicate Determined(access: ClaimSet, id: ClaimSet, roleKey: string) {
    && (UsernameClaim in id ==> Carries(id, UsernameClaim))
    && (UsernameClaim !in id && UsernameClaim in access ==> Carries(access, UsernameClaim))
    && (roleKey in id ==> Carries(id, roleKey))
    && (roleKey !in id && roleKey in access ==> Carries(access, roleKey))
    && (forall k :: k in access && k != UsernameClaim && k != roleKey ==> k in id)
  }

  /** On such inputs the contract fixes the outcome completely. */
  lemma {:induction false} ConformingOutcomeIsUnique(access: ClaimSet, id: ClaimSet, roleKey: string, o1: Outcome, o2: Outcome)
    requires Determined(access, id, roleKey)
    requires Conforms(access, id, roleKey, o1) && Conforms(access, id, roleKey, o2)
    ensures o1 == o2
  {
    if UsernameClaim in id || UsernameClaim in access {
      var r1, r2 := o1.identity, o2.identity;
      assert r1.username == r2.username;
      assert r1.userRoles == r2.userRoles;
      assert r1.attributes.Keys == r2.attributes.Keys == id.Keys - {UsernameClaim, roleKey};
      assert r1.attributes == r2.attributes;
    }
  }
}
