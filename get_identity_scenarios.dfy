/** The scenarios of the `/get-identity` handler's test module, over the
    literal claim maps they use. Each states the asserted response both for
    the reference resolution and for every outcome the contract admits. */
module GetIdentityScenarios {
  import opened Claims
  import opened IdentityResolver

  /** The role-claim key every enabled-auth scenario configures. */
  const RoleKey: string := "user_roles_claim"

  /** The asserted response is the only outcome the contract admits, and the
      reference resolution produces it. */
  ghost predicate Pins(access: ClaimSet, id: ClaimSet, expected: Outcome) {
    && GetIdentity(true, access, id, RoleKey) == expected
    && forall o :: Conforms(access, id, RoleKey, o) ==> o == expected
  }

  /** Shared proof step: on determined inputs, an outcome that meets the
      contract is the only one, so the reference resolution gives it too. */
  lemma {:induction false} PinnedBy(access: ClaimSet, id: ClaimSet, expected: Outcome)
    requires Determined(access, id, RoleKey)
    requires Conforms(access, id, RoleKey, expected)
    ensures Pins(access, id, expected)
  {
    forall o | Conforms(access, id, RoleKey, o) ensures o == expected {
      ConformingOutcomeIsUnique(access, id, RoleKey, o, expected);
    }
    ConformingOutcomeIsUnique(access, id, RoleKey, Resolve(access, id, RoleKey), expected);
  }

  /** Authentication disabled: the static identity object. */
  lemma AuthDisabledScenario(access: ClaimSet, id: ClaimSet, roleKey: string)
    ensures GetIdentity(false, access, id, roleKey)
         == Ok(Identity(Str("username"), Strs(["user", "admin"]), map["email" := Str("user@domain.com")]))
  {
  }

  /** Both tokens carry username, roles and email: the identity token's win. */
  lemma {:induction false} BothTokensProvideAttributes()
    ensures Pins(
      map["user_roles_claim" := Strs(["access-token-group"]), "username" := Str("access-token-username"), "email" := Str("access-token-email")],
      map["user_roles_claim" := Strs(["id-token-group"]), "username" := Str("id-token-username"), "email" := Str("id-token-email")],
      Ok(Identity(Str("id-token-username"), Strs(["id-token-group"]), map["email" := Str("id-token-email")])))
  {
    var access := map["user_roles_claim" := Strs(["access-token-group"]), "username" := Str("access-token-username"), "email" := Str("access-token-email")];
    var id := map["user_roles_claim" := Strs(["id-token-group"]), "username" := Str("id-token-username"), "email" := Str("id-token-email")];
    var expected := Ok(Identity(Str("id-token-username"), Strs(["id-token-group"]), map["email" := Str("id-token-email")]));
    PinnedBy(access, id, expected);
  }

  /** The identity token only carries email: username and roles come from the
      access token, email from the identity token. */
  lemma {:induction false} AccessTokenUsedAsFallback()
    ensures Pins(
      map["user_roles_claim" := Strs(["access-token-group"]), "username" := Str("access-token-username"), "email" := Str("access-token-email")],
      map["email" := Str("id-token-email")],
      Ok(Identity(Str("access-token-username"), Strs(["access-token-group"]), map["email" := Str("id-token-email")])))
  {
    var access := map["user_roles_claim" := Strs(["access-token-group"]), "username" := Str("access-token-username"), "email" := Str("access-token-email")];
    var id := map["email" := Str("id-token-email")];
    var expected := Ok(Identity(Str("access-token-username"), Strs(["access-token-group"]), map["email" := Str("id-token-email")]));
    PinnedBy(access, id, expected);
  }

  /** No username in either token: the 400 error, even though the identity
      token carries a role-like claim under a different name. */
  lemma {:induction false} NoUsernameProvided()
    ensures Pins(
      map[],
      map["user_roles" := Strs(["id-token-group"]), "email" := Str("id-token-email")],
      Err("No username present in access or id token.", 400))
  {
    PinnedBy(map[], map["user_roles" := Strs(["id-token-group"]), "email" := Str("id-token-email")], MissingUsername);
  }

  /** No role claim in either token: roles default to `["user"]`. */
  lemma {:induction false} NoUserRolesProvided()
    ensures Pins(
      map[],
      map["username" := Str("id-token-username"), "email" := Str("id-token-email")],
      Ok(Identity(Str("id-token-username"), Strs(["user"]), map["email" := Str("id-token-email")])))
  {
    var id := map["username" := Str("id-token-username"), "email" := Str("id-token-email")];
    var expected := Ok(Identity(Str("id-token-username"), Strs(["user"]), map["email" := Str("id-token-email")]));
    PinnedBy(map[], id, expected);
  }
}
