/**
 * The authentication use cases, in their two variants: one answers a
 * login with a token (or `None`) and guards a permission check against a
 * missing user; the other answers a login with a boolean and looks the
 * user's permissions up without that guard.
 */
module UserAuth {
  import opened Wrappers
  import opened UsersEntities
  import opened RepoStubs

  const TokenText := "insert_token_here"
  const TokenVersion := 1

  /**
   * `create_user_token` as written: the call passes version, token,
   * permissions and owner but not `ns`, one of `Token`'s five required
   * fields, so building the token raises `TypeError`.
   */
  function CreateUserTokenAsWritten(u: User): (r: Result<Token, PyError>)
    ensures r.Err? && r.error == TypeError("ns")
  {
    Err(TypeError("ns"))
  }

  /**
   * `create_user_token` with the namespace supplied, as the empty string
   * the service's request context defaults to: version 1, the placeholder
   * token text, the username as owner and the user's permissions.
   */
  function CreateUserToken(u: User): (t: Token)
    ensures t.version == TokenVersion && t.token == TokenText && t.ns == ""
    ensures t.owner == u.username
    ensures forall p :: p in t.permissions <==> exists r | r in u.roles :: p in r.permissions
  {
    forall p ensures p in Permissions(u) <==> exists r | r in u.roles :: p in r.permissions {
      PermissionsIff(u, p);
    }
    Token(TokenText, u.username, TokenVersion, "", Permissions(u))
  }

  class AuthUseCases {
    const repo: RepoStub<User>

    ghost predicate Valid()
      reads this, repo
    {
      repo.Valid() && repo.keying == UserKeying
    }

    constructor (repo: RepoStub<User>)
      ensures this.repo == repo
    {
      this.repo := repo;
    }

    /** The stored user (the first by insertion order) with that username, if any. */
    function Named(username: string): (r: Option<User>)
      requires Valid()
      reads this, repo
      ensures r.Some? ==> r.value.username == username && r.value in repo.data.Values
      ensures r.None? ==> forall k | k in repo.data :: repo.data[k].username != username
    {
      repo.ByNameIff(username);
      repo.ByName(username)
    }

    /** `user_login` as written: every matching password ends in the `TypeError` of the token. */
    function UserLoginAsWritten(username: string, password: string): (r: Result<Option<Token>, PyError>)
      requires Valid()
      reads this, repo
      ensures r.Err? <==> Named(username).Some? && Named(username).value.password == password
      ensures r.Ok? ==> r.value == None
    {
      var user := Named(username);
      if user.None? then Ok(None)
      else if user.value.password != password then Ok(None)
      else Err(CreateUserTokenAsWritten(user.value).error)
    }

    /** `user_login`: `None` for an unknown username or a wrong password, otherwise the user's token. */
    function UserLogin(username: string, password: string): (r: Option<Token>)
      requires Valid()
      reads this, repo
      ensures r.Some? <==> Named(username).Some? && Named(username).value.password == password
      ensures r.Some? ==> r.value.owner == username
                          && r.value.permissions == Permissions(Named(username).value)
    {
      var user := Named(username);
      if user.None? then None
      else if user.value.password != password then None
      else Some(CreateUserToken(user.value))
    }

    /** `user_has_permission`: false for a missing user, otherwise whether the user's roles grant it. */
    function UserHasPermission(userId: int, permission: string): (b: bool)
      requires Valid()
      reads this, repo
      ensures b <==> userId in repo.data
                     && exists r | r in repo.data[userId].roles :: permission in r.permissions
    {
      var user := repo.GetById(userId);
      if user.None? then false
      else
        PermissionsIff(user.value, permission);
        permission in Permissions(user.value)
    }

    /** The boolean `user_login`: false for an unknown username, otherwise whether the password matches. */
    function PasswordMatches(username: string, password: string): (b: bool)
      requires Valid()
      reads this, repo
    {
      var user := Named(username);
      if user.None? then false else user.value.password == password
    }

    /**
     * The unguarded `user_has_permission`: a missing user is `None`, and
     * reading `permissions` on it raises `AttributeError`.
     */
    function PermissionOf(userId: int, permission: string): (r: Result<bool, PyError>)
      requires Valid()
      reads this, repo
      ensures userId !in repo.data ==> r == Err(AttributeError("permissions"))
    {
      var user := repo.GetById(userId);
      if user.None? then Err(AttributeError("permissions"))
      else Ok(permission in Permissions(user.value))
    }

    /** The two login variants accept the same logins. */
    lemma LoginVariantsAgree(username: string, password: string)
      requires Valid()
      ensures UserLogin(username, password).Some? <==> PasswordMatches(username, password)
    {
    }

    /** The two permission checks agree on every stored user; only a missing user tells them apart. */
    lemma PermissionVariantsAgree(userId: int, permission: string)
      requires Valid()
      ensures userId in repo.data ==> PermissionOf(userId, permission) == Ok(UserHasPermission(userId, permission))
      ensures userId !in repo.data ==> !UserHasPermission(userId, permission) && PermissionOf(userId, permission).Err?
    {
    }
  }

  /** Auth use cases over the seeded users. */
  method SeededAuth() returns (auth: AuthUseCases)
    ensures fresh(auth) && fresh(auth.repo) && auth.Valid()
    ensures auth.repo.Values() == SeededUsers()
    ensures 0 in auth.repo.data && auth.repo.data[0] == SeededUsers()[0]
  {
    var roles := SeedRoles();
    var users := SeedUsers(roles);
    assert users.data[users.order[0]] == SeededUsers()[0];
    assert users.keying.idOf(users.data[users.order[0]]) == users.order[0];
    auth := new AuthUseCases(users);
  }

  /**
   * Against the seeded users, admin01 logs in with admin123 and gets a token
   * it owns; the written `user_login` raises for that same login instead.
   */
  method SeededLogin() returns (t: Option<Token>, asWritten: Result<Option<Token>, PyError>)
    ensures t.Some? && t.value.owner == "admin01"
    ensures asWritten == Err(TypeError("ns"))
  {
    var auth := SeededAuth();
    assert auth.repo.Values()[0] == SeededUsers()[0];
    assert auth.Named("admin01") == Some(SeededUsers()[0]);
    t := auth.UserLogin("admin01", "admin123");
    asWritten := auth.UserLoginAsWritten("admin01", "admin123");
  }

  /** Against the seeded users, admin01 (id 0) may edit users but holds no permission outside its roles. */
  method SeededPermissions() returns (edit: bool, other: bool, missing: bool)
    ensures edit && !other && !missing
  {
    var auth := SeededAuth();
    assert 1000 !in auth.repo.data;
    assert SeededRoles()[0] in auth.repo.data[0].roles;
    edit := auth.UserHasPermission(0, "users:edit");
    other := auth.UserHasPermission(0, "another.module:edit");
    missing := auth.UserHasPermission(1000, "users:edit");
  }
}
